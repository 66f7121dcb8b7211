/**
 The end of a KMS key: which keys a pass still wants, and the walk of every
 other one through retention or its quiet window to a scheduled deletion.
 */
module KeyCleanup {
  import opened Ledger
  import opened Sweep
  import opened Ownership
  import opened Decisions
  import opened Naming
  import opened KmsCloud

  const QUIET_WINDOW: int := 10 * MINUTE

  datatype Reason = Retained | Pending | InUse

  datatype Result = Result(name: string, reason: Reason)

  datatype Env = Env(cr: CR, now: int)

  // What a pass wants: the keys of the spec, the keys in use (true: by data
  // that stays), and whether the CR is being deleted.
  datatype Wants = Wants(specKeys: seq<string>, inUse: map<string, bool>, deleting: bool)

  type KeyPass = Pass<Cloud, Result>

  predicate Declared(wants: Wants, name: string) {
    !wants.deleting && (name in wants.specKeys || name in wants.inUse)
  }

  method DeclaredKeyNames(wants: Wants) returns (declared: set<string>)
    ensures forall n :: n in declared <==> Declared(wants, n)
  {
    declared := {};
    if wants.deleting {
      return;
    }
    for i := 0 to |wants.specKeys|
      invariant forall n :: n in declared <==> n in wants.specKeys[..i]
    {
      declared := declared + {wants.specKeys[i]};
    }
    declared := declared + wants.inUse.Keys;
  }

  function Fail(p: KeyPass): KeyPass {
    p.(failed := true)
  }

  function Report(p: KeyPass, name: string, reason: Reason): KeyPass {
    p.(results := p.results + [Result(name, reason)])
  }

  function AfterRestore(p: KeyPass, e: Entry): (q: KeyPass)
    requires e.rtype == KMS
    ensures EditOf(p.ledger, q.ledger, e)
  {
    if e.pendingSince.None? then p
    else
      var cleared := e.(pendingSince := None);
      assert cleared.Is(KMS, e.name);
      p.(ledger := Upsert(p.ledger, cleared))
  }

  datatype Letting = Gone | Broken | Kept(untagged: bool)

  // Takes the ownership tags off a retained key that still has them.
  function LetGo(env: Env, w: Cloud, arn: string): (r: (Cloud, Letting))
    ensures r.0.scheduled == w.scheduled && r.0.created == w.created && r.0.keys.Keys == w.keys.Keys
    ensures r.1.Gone? ==> arn !in w.keys
    ensures forall a :: a in w.keys && w.keys[a].state.PendingDeletion? ==> r.0.keys[a].state.PendingDeletion?
  {
    var (w1, key) := DescribeKey(w, arn);
    if key.NotFound? then (w1, Gone)
    else if key.Failed? then (w1, Broken)
    else if key.value.state.PendingDeletion? then (w1, Kept(false))
    else
      var (w2, tags) := ListTags(w1, arn);
      if !tags.Answer? then (w2, Broken)
      else if !IsOwnedBy(tags.value, env.cr) then (w2, Kept(false))
      else
        var (w3, synced) := Unmodelled(w2);
        if !synced then (w3, Broken)
        else
          var (w4, _) := Unmodelled(w3);
          var (w5, untagged) := UntagOwner(w4, arn);
          (w5, if untagged then Kept(true) else Broken)
  }

  function AfterRetain(env: Env, p: KeyPass, e: Entry): (q: KeyPass)
    requires e.rtype == KMS
    ensures EditOf(p.ledger, q.ledger, e) && (p.failed ==> q.failed) && p.results <= q.results
    ensures q.world.scheduled == p.world.scheduled && q.world.created == p.world.created && q.world.keys.Keys == p.world.keys.Keys
    ensures || (q.ledger == Remove(p.ledger, KMS, e.name) && e.arn !in p.world.keys)
            || q.ledger == Upsert(p.ledger, Relinquish(e, env.now))
            || (q.ledger == p.ledger && (q.failed || e.state.Relinquished?))
    ensures forall a :: a in p.world.keys && p.world.keys[a].state.PendingDeletion? ==> q.world.keys[a].state.PendingDeletion?
  {
    if e.state.Relinquished? && !NeedsRelinquishedRecheck(e, env.now) then Report(p, e.name, Retained)
    else
      var (w, letting) := LetGo(env, p.world, e.arn);
      var q := p.(world := w);
      match letting
      case Broken => Fail(q)
      case Gone => q.(ledger := Remove(q.ledger, KMS, e.name))
      case Kept(_) =>
        assert Relinquish(e, env.now).Is(KMS, e.name);
        Report(q.(ledger := Upsert(q.ledger, Relinquish(e, env.now))), e.name, Retained)
  }

  function MarkPending(env: Env, p: KeyPass, e: Entry): (q: KeyPass)
    requires e.rtype == KMS
    ensures EditOf(p.ledger, q.ledger, e)
  {
    var since := if e.pendingSince.None? then Some(env.now) else e.pendingSince;
    var marked := e.(pendingSince := since);
    assert marked.Is(KMS, e.name);
    Report(p.(ledger := Upsert(p.ledger, marked)), e.name, Pending)
  }

  function AfterSchedule(env: Env, p: KeyPass, e: Entry): (q: KeyPass)
    requires e.rtype == KMS
    ensures EditOf(p.ledger, q.ledger, e) && (p.failed ==> q.failed) && p.results <= q.results
    ensures q.world.keys.Keys == p.world.keys.Keys && q.world.created == p.world.created
    ensures q.world.scheduled == p.world.scheduled ||
            (q.world.scheduled == p.world.scheduled + [e.arn]
             && e.pendingSince.Some? && env.now - e.pendingSince.value >= QUIET_WINDOW)
    ensures q.ledger in {p.ledger, Remove(p.ledger, KMS, e.name), Upsert(p.ledger, e.(pendingSince := Some(env.now)))}
    ensures forall a :: a in p.world.keys && p.world.keys[a].state.PendingDeletion? ==> q.world.keys[a].state.PendingDeletion?
  {
    var (w1, key) := DescribeKey(p.world, e.arn);
    if key.NotFound? then p.(world := w1, ledger := Remove(p.ledger, KMS, e.name))
    else if key.Failed? then Fail(p.(world := w1))
    else if key.value.state.PendingDeletion? then p.(world := w1)
    else
      var (w2, tags) := ListTags(w1, e.arn);
      if !tags.Answer? || !IsOwnedBy(tags.value, env.cr) then Fail(p.(world := w2))
      else if e.pendingSince.None? then MarkPending(env, p.(world := w2), e)
      else if env.now - e.pendingSince.value < QUIET_WINDOW then Report(p.(world := w2), e.name, Pending)
      else
        var (w3, ok) := ScheduleKeyDeletion(w2, e.arn);
        if !ok then Fail(p.(world := w3))
        else p.(world := w3, ledger := Remove(p.ledger, KMS, e.name))
  }

  // One iteration of the Cleanup loop.
  function AfterEntry(env: Env, wants: Wants, p: KeyPass, e: Entry): (q: KeyPass)
    ensures EditOf(p.ledger, q.ledger, e) && (p.failed ==> q.failed) && p.results <= q.results
    ensures q.world.keys.Keys == p.world.keys.Keys && q.world.created == p.world.created
    ensures forall a :: a in p.world.keys && p.world.keys[a].state.PendingDeletion? ==> q.world.keys[a].state.PendingDeletion?
  {
    if e.rtype != KMS then p
    else
      var held := wants.deleting && e.name in wants.inUse;
      if held && !wants.inUse[e.name] then Report(p, e.name, InUse)
      else
        var e' := if held then e.(policy := Retain) else e;
        if Declared(wants, e'.name) then AfterRestore(p, e')
        else if e'.policy != Delete then AfterRetain(env, p, e')
        else AfterSchedule(env, p, e')
  }

  function Step(env: Env, wants: Wants): Stepper<Cloud, Result> {
    (p, e) => AfterEntry(env, wants, p, e)
  }

  function AfterCleanup(env: Env, wants: Wants, w: Cloud, l: seq<Entry>): KeyPass {
    Upto(Step(env, wants), l, |l|, Pass(w, l, [], false))
  }

  // The cleaner, with the pass as its mutable state.
  class KeyCleaner {
    const env: Env
    var pass: KeyPass

    constructor (env: Env, w: Cloud, l: seq<Entry>)
      ensures this.env == env && pass == Pass(w, l, [], false)
    {
      this.env := env;
      pass := Pass(w, l, [], false);
    }

    method RestoreDeclared(e: Entry)
      requires e.rtype == KMS
      modifies this
      ensures pass == AfterRestore(old(pass), e)
    {
      if e.pendingSince.Some? {
        var cleared := e.(pendingSince := None);
        pass := pass.(ledger := Upsert(pass.ledger, cleared));
      }
    }

    method RetainKey(e: Entry)
      requires e.rtype == KMS
      modifies this
      ensures pass == AfterRetain(env, old(pass), e)
    {
      if e.state.Relinquished? && !NeedsRelinquishedRecheck(e, env.now) {
        pass := Report(pass, e.name, Retained);
        return;
      }
      var (w, letting) := LetGo(env, pass.world, e.arn);
      pass := pass.(world := w);
      if letting.Broken? {
        pass := Fail(pass);
        return;
      }
      if letting.Gone? {
        pass := pass.(ledger := Remove(pass.ledger, KMS, e.name));
        return;
      }
      pass := pass.(ledger := Upsert(pass.ledger, Relinquish(e, env.now)));
      pass := Report(pass, e.name, Retained);
    }

    method ScheduleDeletion(e: Entry)
      requires e.rtype == KMS
      modifies this
      ensures pass == AfterSchedule(env, old(pass), e)
    {
      var (w1, key) := DescribeKey(pass.world, e.arn);
      pass := pass.(world := w1);
      if key.NotFound? {
        pass := pass.(ledger := Remove(pass.ledger, KMS, e.name));
        return;
      }
      if key.Failed? {
        pass := Fail(pass);
        return;
      }
      if key.value.state.PendingDeletion? {
        return;
      }
      var (w2, tags) := ListTags(pass.world, e.arn);
      pass := pass.(world := w2);
      if !tags.Answer? || !IsOwnedBy(tags.value, env.cr) {
        pass := Fail(pass);
        return;
      }
      if e.pendingSince.None? {
        pass := MarkPending(env, pass, e);
        return;
      }
      if env.now - e.pendingSince.value < QUIET_WINDOW {
        pass := Report(pass, e.name, Pending);
        return;
      }
      var (w3, ok) := ScheduleKeyDeletion(pass.world, e.arn);
      pass := pass.(world := w3);
      if !ok {
        pass := Fail(pass);
        return;
      }
      pass := pass.(ledger := Remove(pass.ledger, KMS, e.name));
    }

    method Cleanup(wants: Wants)
      requires pass.results == [] && !pass.failed
      modifies this
      ensures pass == AfterCleanup(env, wants, old(pass.world), old(pass.ledger))
    {
      var declared := DeclaredKeyNames(wants);
      var snapshot := pass.ledger;
      ghost var start := pass;
      for i := 0 to |snapshot|
        invariant pass == Upto(Step(env, wants), snapshot, i, start)
      {
        ghost var before := pass;
        var entry := snapshot[i];
        if entry.rtype == KMS {
          var waiting := false;
          if wants.deleting && entry.name in wants.inUse {
            if wants.inUse[entry.name] {
              entry := entry.(policy := Retain);
            } else {
              pass := Report(pass, entry.name, InUse);
              waiting := true;
            }
          }
          if !waiting {
            if entry.name in declared {
              RestoreDeclared(entry);
            } else if entry.policy != Delete {
              RetainKey(entry);
            } else {
              ScheduleDeletion(entry);
            }
          }
        }
        assert pass == AfterEntry(env, wants, before, snapshot[i]);
      }
    }
  }

  // ----------------------------------------------------------- one iteration

  lemma StepIsLocal(env: Env, wants: Wants)
    ensures Local(Step(env, wants), KMS, {KMS})
  {
    forall p: KeyPass, e: Entry, t: ResourceType, n: string | t !in {KMS} || n != e.name
      ensures Find(AfterEntry(env, wants, p, e).ledger, t, n) == Find(p.ledger, t, n)
    {
      if e.rtype == KMS {
        EditFrame(p.ledger, AfterEntry(env, wants, p, e).ledger, KMS, e.name, t, n);
      }
    }
    forall p: KeyPass, e: Entry | Unique(p.ledger)
      ensures Unique(AfterEntry(env, wants, p, e).ledger)
    {
      EditKeepsUnique(p.ledger, AfterEntry(env, wants, p, e).ledger, e.rtype, e.name);
    }
  }

  // The keys the pass may schedule: not wanted, let go by nobody, owned, and
  // past the quiet window.
  ghost predicate Schedulable(env: Env, wants: Wants, e: Entry) {
    && e.rtype == KMS && e.policy == Delete
    && e.name !in wants.inUse && (wants.deleting || e.name !in wants.specKeys)
    && e.pendingSince.Some? && env.now - e.pendingSince.value >= QUIET_WINDOW
  }

  lemma EntrySchedules(env: Env, wants: Wants, p: KeyPass, e: Entry)
    ensures var s, s' := p.world.scheduled, AfterEntry(env, wants, p, e).world.scheduled;
      s' == s || (s' == s + [e.arn] && Schedulable(env, wants, e))
  {
  }

  // Some entry of the ledger is why a deletion is sent for the ARN.
  ghost predicate Sendable(env: Env, wants: Wants, l: seq<Entry>, arn: string) {
    exists e :: e in l && e.arn == arn && Schedulable(env, wants, e)
  }

  ghost predicate AllSendable(env: Env, wants: Wants, l: seq<Entry>, s: seq<string>, s': seq<string>) {
    s <= s' && forall i :: |s| <= i < |s'| ==> Sendable(env, wants, l, s'[i])
  }

  lemma {:induction false} PassSchedules(env: Env, wants: Wants, l: seq<Entry>, k: nat, p: KeyPass)
    requires k <= |l|
    ensures AllSendable(env, wants, l, p.world.scheduled, Upto(Step(env, wants), l, k, p).world.scheduled)
  {
    if k > 0 {
      PassSchedules(env, wants, l, k - 1, p);
      var q := Upto(Step(env, wants), l, k - 1, p);
      EntrySchedules(env, wants, q, l[k - 1]);
      OneMoreSendable(env, wants, l, k - 1, p.world.scheduled, q.world.scheduled, Step(env, wants)(q, l[k - 1]).world.scheduled);
    }
  }

  lemma OneMoreSendable(env: Env, wants: Wants, l: seq<Entry>, k: nat, s: seq<string>, mid: seq<string>, s': seq<string>)
    requires k < |l| && AllSendable(env, wants, l, s, mid)
    requires s' == mid || (s' == mid + [l[k].arn] && Schedulable(env, wants, l[k]))
    ensures AllSendable(env, wants, l, s, s')
  {
    forall i | |s| <= i < |s'| ensures Sendable(env, wants, l, s'[i]) {
      if i < |mid| {
        assert s'[i] == mid[i];
      } else {
        assert l[k] in l && s'[i] == l[k].arn;
      }
    }
  }

  lemma StepFinds(env: Env, wants: Wants, w: Cloud, l: seq<Entry>, k: nat, t: ResourceType)
    requires Unique(l) && k < |l| && l[k].rtype == KMS
    ensures var step, start := Step(env, wants), Pass(w, l, [], false);
      var q := Upto(step, l, k, start);
      && Find(q.ledger, KMS, l[k].name) == Some(l[k]) && Find(q.ledger, t, l[k].name) == Find(l, t, l[k].name)
      && Find(step(q, l[k]).ledger, t, l[k].name) == Find(Upto(step, l, |l|, start).ledger, t, l[k].name)
  {
    StepIsLocal(env, wants);
    AtOwnEntry(Step(env, wants), KMS, {KMS}, l, k, Pass(w, l, [], false), t);
  }

  lemma StepIsSteady(env: Env, wants: Wants)
    ensures Steady(Step(env, wants))
  {
  }

  // ------------------------------------------------------------ held keys

  // No two key entries record one ARN.
  ghost predicate DistinctKeyARNs(l: seq<Entry>) {
    forall i, j :: 0 <= i < j < |l| && l[i].rtype == KMS && l[j].rtype == KMS ==> l[i].arn != l[j].arn
  }

  // The entry's data is encrypted with the key at arn, as far as the ledger
  // knows: it is recorded so, or the record leads nowhere and the key is the
  // entry's dedicated one.
  ghost predicate Encrypts(l: seq<Entry>, key: Entry, h: Entry) {
    && h.rtype != KMS && h.rtype != IAM
    && ((h.kmsKeyARN != "" && h.kmsKeyARN == key.arn)
        || (&& (h.kmsKeyARN == "" || !HasKey(l, h.kmsKeyARN))
            && key.name == DedicatedKeyLedgerName(if h.rtype == RDSSnapshot then RDS else h.rtype, BaseName(h.name))))
  }

  ghost predicate HasKey(l: seq<Entry>, arn: string) {
    exists x :: x in l && x.rtype == KMS && x.arn == arn
  }

  lemma {:induction false} KeyByARNIs(l: seq<Entry>, arn: string)
    ensures KeyByARN(l, arn).Some? <==> HasKey(l, arn)
    ensures KeyByARN(l, arn).Some? ==> exists x :: x in l && x.Is(KMS, KeyByARN(l, arn).value) && x.arn == arn
  {
    if l != [] {
      KeyByARNIs(l[..|l| - 1], arn);
      assert l == l[..|l| - 1] + [l[|l| - 1]];
    }
  }

  lemma {:induction false} KeyByARNIsLast(l: seq<Entry>, k: nat)
    requires k < |l| && l[k].rtype == KMS
    requires forall j :: k < j < |l| && l[j].rtype == KMS ==> l[j].arn != l[k].arn
    ensures KeyByARN(l, l[k].arn) == Some(l[k].name)
  {
    if k < |l| - 1 {
      KeyByARNIsLast(l[..|l| - 1], k);
    }
  }

  // A key that encrypts an entry is held by it: exactly when the key's entry is
  // the one its ARN leads to, which distinct ARNs ensure for every key.
  lemma EncryptsIffHeld(l: seq<Entry>, key: Entry, h: Entry)
    requires Unique(l) && key in l && key.rtype == KMS && h in l && Encrypts(l, key, h)
    ensures KeyNameFor(l, h) == Some(key.name) <==>
            (h.kmsKeyARN != "" && h.kmsKeyARN == key.arn ==> KeyByARN(l, key.arn) == Some(key.name))
  {
    FindMember(l, key);
    KeyByARNIs(l, h.kmsKeyARN);
    if h.kmsKeyARN != "" && h.kmsKeyARN == key.arn {
      var k :| 0 <= k < |l| && l[k] == key;
      SomeKeyByARN(l, k);
    }
  }

  lemma {:induction false} SomeKeyByARN(l: seq<Entry>, k: nat)
    requires k < |l| && l[k].rtype == KMS
    ensures KeyByARN(l, l[k].arn).Some?
  {
    if k < |l| - 1 {
      SomeKeyByARN(l[..|l| - 1], k);
    }
  }

  lemma DistinctMeansHeld(l: seq<Entry>, key: Entry, h: Entry)
    requires Unique(l) && DistinctKeyARNs(l)
    requires key in l && key.rtype == KMS && h in l && Encrypts(l, key, h)
    ensures KeyNameFor(l, h) == Some(key.name) && Holds(l, key.name)
  {
    var k :| 0 <= k < |l| && l[k] == key;
    KeyByARNIsLast(l, k);
    EncryptsIffHeld(l, key, h);
  }

  // The keys in use, as the section computes them from this very ledger.
  ghost predicate SeesLedger(wants: Wants, l: seq<Entry>) {
    && (forall n :: Holds(l, n) ==> n in wants.inUse)
    && (forall n :: n in wants.inUse ==> (wants.inUse[n] <==> HeldForKeeps(l, n)))
  }

  // No pass, reconciling or finalizing and whatever calls fail, sends a
  // deletion for a key that encrypts an entry of the ledger.
  lemma NeverSchedulesEncryptingKey(env: Env, wants: Wants, w: Cloud, l: seq<Entry>, i: nat)
    requires Unique(l) && DistinctKeyARNs(l) && SeesLedger(wants, l)
    requires |w.scheduled| <= i < |AfterCleanup(env, wants, w, l).world.scheduled|
    ensures var arn := AfterCleanup(env, wants, w, l).world.scheduled[i];
      exists key :: key in l && key.arn == arn && Schedulable(env, wants, key)
                    && forall h :: h in l ==> !Encrypts(l, key, h)
  {
    PassSchedules(env, wants, l, |l|, Pass(w, l, [], false));
    var arn := AfterCleanup(env, wants, w, l).world.scheduled[i];
    var key :| key in l && key.arn == arn && Schedulable(env, wants, key);
    forall h | h in l ensures !Encrypts(l, key, h) {
      if Encrypts(l, key, h) {
        DistinctMeansHeld(l, key, h);
      }
    }
  }

  // Distinct ARNs are needed. Two key entries with one ARN, a table encrypted
  // with it: the first entry is not the one the ARN leads to, so nothing holds
  // it and the shared key is scheduled under the table's data.
  const SHARED_OWNER := CR("ns", "app", "u")
  const FIRST_KEY := Fresh(KMS, "a", "k", Delete, false, Verified, 0, None).(pendingSince := Some(0))
  const SECOND_KEY := Fresh(KMS, "b", "k", Delete, false, Verified, 0, None)
  const SHARED_TABLE := Fresh(DynamoDB, "t", "arn/t", Delete, false, Verified, 0, None).(kmsKeyARN := "k")
  const SHARED_LEDGER := [FIRST_KEY, SECOND_KEY, SHARED_TABLE]
  const SHARED_WANTS := Wants([], map["b" := false], false)
  const SHARED_CLOUD := Cloud(map["k" := Key(Enabled, OwnerTags(SHARED_OWNER))], map[], [], [], [], [])

  lemma SharedHolders(n: string)
    ensures KeyByARN(SHARED_LEDGER, "k") == Some("b")
    ensures Holds(SHARED_LEDGER, n) <==> n == "b"
    ensures !HeldForKeeps(SHARED_LEDGER, n)
  {
    var l := SHARED_LEDGER;
    assert l[..2] == [FIRST_KEY, SECOND_KEY];
    assert KeyByARN(l, "k") == KeyByARN(l[..2], "k");
    assert l[2] in l && KeyNameFor(l, SHARED_TABLE) == Some("b");
    assert forall e :: e in l ==> e == FIRST_KEY || e == SECOND_KEY || e == SHARED_TABLE;
  }

  lemma SharedSeen()
    ensures Unique(SHARED_LEDGER) && SeesLedger(SHARED_WANTS, SHARED_LEDGER)
    ensures Encrypts(SHARED_LEDGER, FIRST_KEY, SHARED_TABLE)
  {
    forall n ensures Holds(SHARED_LEDGER, n) <==> n == "b" ensures !HeldForKeeps(SHARED_LEDGER, n) {
      SharedHolders(n);
    }
  }

  lemma SharedARNLosesTheKey()
    ensures Unique(SHARED_LEDGER) && SeesLedger(SHARED_WANTS, SHARED_LEDGER)
    ensures Encrypts(SHARED_LEDGER, FIRST_KEY, SHARED_TABLE)
    ensures AfterCleanup(Env(SHARED_OWNER, QUIET_WINDOW), SHARED_WANTS, SHARED_CLOUD, SHARED_LEDGER).world.scheduled == ["k"]
  {
    SharedSeen();
    SharedSchedules();
  }

  lemma SharedSchedules()
    ensures AfterCleanup(Env(SHARED_OWNER, QUIET_WINDOW), SHARED_WANTS, SHARED_CLOUD, SHARED_LEDGER).world.scheduled == ["k"]
  {
    var l, env := SHARED_LEDGER, Env(SHARED_OWNER, QUIET_WINDOW);
    var step, p := Step(env, SHARED_WANTS), Pass(SHARED_CLOUD, l, [], false);
    assert |OWNER_TAG| != |OWNER_UID_TAG|;
    assert IsOwnedBy(OwnerTags(SHARED_OWNER), SHARED_OWNER);
    assert step(p, l[0]).world.scheduled == ["k"];
    assert Upto(step, l, 1, p) == step(Upto(step, l, 0, p), l[0]);
    assert Upto(step, l, 2, p) == step(Upto(step, l, 1, p), l[1]);
    assert Upto(step, l, 3, p) == step(Upto(step, l, 2, p), l[2]);
  }
}
