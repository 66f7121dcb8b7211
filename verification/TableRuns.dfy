/**
 Whole runs of passes over a CR's tables: what Ensure does to the ledger, what
 each pass leaves, and why every unforced delete was justified long before.
 */
module TableRuns {
  import opened Ledger
  import opened Sweep
  import opened Ownership
  import opened TableCloud
  import opened TableCleanup
  import opened History
  import opened Naming

  // What kms.EnsureDedicatedKey made of the key's ledger entry, and whether it
  // succeeded.
  datatype KeyStep = KeyStep(recorded: Option<Entry>, ok: bool)

  // One declared table. `keyRef` is empty without a shared key, and `key` is
  // None when the table has no key of its own.
  datatype TableSpec = TableSpec(
    name: string, arn: string, policy: DeletionPolicy, force: bool, adopt: bool, schema: string,
    keyRef: string, key: Option<KeyStep>)

  // ---------------------------------------------------------------- ensure

  datatype Ensured = Ensured(world: Cloud, ledger: seq<Entry>, ok: bool)

  // The only edits EnsureTable makes: the entry of the table, under the spec's
  // policy, which either keeps its mark and its ARN, or has the spec's ARN and
  // no mark.
  ghost predicate EnsureEdit(l: seq<Entry>, l': seq<Entry>, s: TableSpec) {
    l' == l || exists x: Entry :: TableEdit(l, x, s) && l' == Upsert(l, x)
  }

  ghost predicate TableEdit(l: seq<Entry>, x: Entry, s: TableSpec) {
    var f := Find(l, DynamoDB, s.name);
    && x.Is(DynamoDB, s.name) && x.policy == s.policy && x.force == s.force
    && ((x.arn == s.arn && x.pendingSince.None?) || (f.Some? && x.pendingSince == f.value.pendingSince && x.arn == f.value.arn))
  }

  function Verify(env: Env, s: TableSpec, w: Cloud, l: seq<Entry>): (r: Ensured)
    ensures EnsureEdit(l, r.ledger, s)
  {
    var existing := Find(l, DynamoDB, s.name);
    var (w1, ok) := Unmodelled(w);
    if !ok then Ensured(w1, l, false)
    else
      var createdAt := if existing.Some? then existing.value.createdAt else env.now;
      var x := Fresh(DynamoDB, s.name, s.arn, s.policy, s.force, Verified, createdAt, Some(env.now));
      assert TableEdit(l, x, s);
      Ensured(w1, Upsert(l, x), true)
  }

  // Brings a table that is not tagged as this CR's under management.
  function Adopt(env: Env, from: string, s: TableSpec, table: Table, w: Cloud): (Cloud, bool) {
    if !TableLadder(table.tags, env.cr, s.adopt, from).Retag? || table.schema != s.schema then (w, false)
    else
      var (w1, keyFine) := Unmodelled(w);
      if !keyFine then (w1, false) else Put(w1, s.arn, table.(tags := table.tags + OwnerTags(env.cr)))
  }

  function EnsureTable(env: Env, from: string, s: TableSpec, w: Cloud, l: seq<Entry>): (r: Ensured)
    ensures EnsureEdit(l, r.ledger, s)
  {
    var existing := Find(l, DynamoDB, s.name);
    var tracked := existing.Some? && !existing.value.state.Relinquished?;
    var (w1, t) := Describe(w, s.arn);
    match t
    case Failed => Ensured(w1, l, false)
    case NotFound =>
      if tracked then Ensured(w1, l, false)
      else
        var (w2, ok) := Put(w1, s.arn, Table(OwnerTags(env.cr), 0, false, true, false, s.schema));
        if !ok then Ensured(w2, l, false)
        else
          var x := Fresh(DynamoDB, s.name, s.arn, s.policy, s.force, Creating, env.now, None);
          assert TableEdit(l, x, s);
          Ensured(w2, Upsert(l, x), true)
    case Answer(table) =>
      if !table.workable || (tracked && table.schema != s.schema) then Ensured(w1, l, false)
      else if existing.Some? && !NeedsRevalidation(existing.value, env.now) then
        FindSound(l, DynamoDB, s.name);
        var x := existing.value.(policy := s.policy, force := s.force);
        assert TableEdit(l, x, s);
        var (w2, ok) := Unmodelled(w1);
        Ensured(w2, Upsert(l, x), ok)
      else
        var (w2, tags) := ListTags(w1, s.arn);
        if !tags.Answer? then Ensured(w2, l, false)
        else if IsOwnedBy(tags.value, env.cr) then Verify(env, s, w2, l)
        else
          var (w3, adopted) := Adopt(env, from, s, table, w2);
          if adopted then Verify(env, s, w3, l) else Ensured(w3, l, false)
  }

  // The shared key has an ARN on record: kms.SharedKeyARN.
  predicate SharedKeyReady(l: seq<Entry>, name: string) {
    Find(l, KMS, name).Some? && Find(l, KMS, name).value.arn != ""
  }

  // The ledger once the table's own key was ensured.
  function KeyRecorded(l: seq<Entry>, s: TableSpec): (r: seq<Entry>)
    ensures KeyEdit(l, r, s.name)
  {
    if s.key.None? || s.key.value.recorded.None? then l
    else
      var x := s.key.value.recorded.value.(rtype := KMS, name := DedicatedKeyLedgerName(DynamoDB, s.name));
      assert x.Is(KMS, DedicatedKeyLedgerName(DynamoDB, s.name));
      Upsert(l, x)
  }

  ghost predicate KeyEdit(l: seq<Entry>, l': seq<Entry>, name: string) {
    l' == l || exists x: Entry :: x.Is(KMS, DedicatedKeyLedgerName(DynamoDB, name)) && l' == Upsert(l, x)
  }

  // One table of the spec: a shared key that is not ready, or an own key that
  // cannot be ensured, skips it with an error.
  function EnsureOne(env: Env, from: string, s: TableSpec, w: Cloud, l: seq<Entry>): (r: Ensured)
    ensures OneEdits(l, r.ledger, s)
  {
    if s.keyRef != "" && !SharedKeyReady(l, s.keyRef) then
      assert KeyEdit(l, l, s.name) && EnsureEdit(l, l, s);
      Ensured(w, l, false)
    else
      var l1 := KeyRecorded(l, s);
      if s.key.Some? && !s.key.value.ok then
        assert EnsureEdit(l1, l1, s);
        Ensured(w, l1, false)
      else EnsureTable(env, from, s, w, l1)
  }

  // Ensure after the first k tables of the spec; an error of one does not stop the next.
  function EnsureUpto(env: Env, from: string, specs: seq<TableSpec>, k: nat, w: Cloud, l: seq<Entry>): Ensured
    requires k <= |specs|
  {
    if k == 0 then Ensured(w, l, true)
    else
      var r := EnsureUpto(env, from, specs, k - 1, w, l);
      var r' := EnsureOne(env, from, specs[k - 1], r.world, r.ledger);
      Ensured(r'.world, r'.ledger, r.ok && r'.ok)
  }

  method Ensure(env: Env, from: string, specs: seq<TableSpec>, w: Cloud, l: seq<Entry>) returns (w': Cloud, l': seq<Entry>, ok: bool)
    ensures Ensured(w', l', ok) == EnsureUpto(env, from, specs, |specs|, w, l)
  {
    w', l', ok := w, l, true;
    for i := 0 to |specs|
      invariant Ensured(w', l', ok) == EnsureUpto(env, from, specs, i, w, l)
    {
      var s := specs[i];
      if s.keyRef != "" {
        var shared := Find(l', KMS, s.keyRef);
        if shared.None? || shared.value.arn == "" {
          ok := false;
          continue;
        }
      }
      if s.key.Some? {
        l' := KeyRecorded(l', s);
        if !s.key.value.ok {
          ok := false;
          continue;
        }
      }
      var r := EnsureTable(env, from, s, w', l');
      w', l' := r.world, r.ledger;
      ok := ok && r.ok;
    }
  }

  function Names(specs: seq<TableSpec>): (r: seq<string>)
    ensures |r| == |specs| && forall i :: 0 <= i < |r| ==> r[i] == specs[i].name
  {
    seq(|specs|, i requires 0 <= i < |specs| => specs[i].name)
  }

  // Ensure marks no table as pending, moves no table's mark to another ARN, and
  // leaves alone undeclared tables and every other type but their own keys.
  ghost predicate Framed(specs: seq<TableSpec>, l: seq<Entry>, l': seq<Entry>, t: ResourceType, n: string) {
    var f, f' := Find(l, t, n), Find(l', t, n);
    && (t != DynamoDB || n !in Names(specs) ==>
          f' == f || (t == KMS && exists i :: 0 <= i < |specs| && n == DedicatedKeyLedgerName(DynamoDB, specs[i].name)))
    && (t == DynamoDB && f'.Some? && f'.value.pendingSince.Some? ==>
          f.Some? && f.value.pendingSince == f'.value.pendingSince && f.value.arn == f'.value.arn)
  }

  lemma {:induction false} EnsureFrame(env: Env, from: string, specs: seq<TableSpec>, k: nat, w: Cloud, l: seq<Entry>, t: ResourceType, n: string)
    requires k <= |specs|
    ensures Framed(specs, l, EnsureUpto(env, from, specs, k, w, l).ledger, t, n)
  {
    if k > 0 {
      EnsureFrame(env, from, specs, k - 1, w, l, t, n);
      LastEdit(env, from, specs, k, w, l);
      OneMoreFramed(specs, k, l, EnsureUpto(env, from, specs, k - 1, w, l).ledger, EnsureUpto(env, from, specs, k, w, l).ledger, t, n);
    }
  }

  lemma OneMoreFramed(specs: seq<TableSpec>, k: nat, l: seq<Entry>, l1: seq<Entry>, l': seq<Entry>, t: ResourceType, n: string)
    requires 0 < k <= |specs| && Framed(specs, l, l1, t, n) && OneEdits(l1, l', specs[k - 1])
    ensures Framed(specs, l, l', t, n)
  {
    assert Names(specs)[k - 1] == specs[k - 1].name;
    OneFrame(l1, l', specs[k - 1], t, n);
  }

  // The edits of one table: its own key's entry, then the table's.
  ghost predicate OneEdits(l: seq<Entry>, l': seq<Entry>, s: TableSpec) {
    exists l1 :: KeyEdit(l, l1, s.name) && EnsureEdit(l1, l', s)
  }

  lemma LastEdit(env: Env, from: string, specs: seq<TableSpec>, k: nat, w: Cloud, l: seq<Entry>)
    requires 0 < k <= |specs|
    ensures OneEdits(EnsureUpto(env, from, specs, k - 1, w, l).ledger, EnsureUpto(env, from, specs, k, w, l).ledger, specs[k - 1])
  {
  }

  lemma OneFrame(l: seq<Entry>, l': seq<Entry>, s: TableSpec, t: ResourceType, n: string)
    requires OneEdits(l, l', s)
    ensures t != DynamoDB || n != s.name ==>
      Find(l', t, n) == Find(l, t, n) || (t == KMS && n == DedicatedKeyLedgerName(DynamoDB, s.name))
    ensures t == DynamoDB ==> TableFrame(Find(l, t, n), Find(l', t, n), s.arn)
    ensures t == DynamoDB && Find(l', t, n) != Find(l, t, n) ==> UnderSpec(s, Find(l', t, n))
  {
    var l1 :| KeyEdit(l, l1, s.name) && EnsureEdit(l1, l', s);
    KeyFrame(l, l1, s.name, t, n);
    EnsureOneFrame(l1, l', s, t, n);
  }

  // The entry carries the policy and the force flag of the spec.
  ghost predicate UnderSpec(s: TableSpec, f: Option<Entry>) {
    f.Some? && f.value.policy == s.policy && f.value.force == s.force
  }

  // A mark is only ever kept, with its ARN; a new ARN is the spec's.
  ghost predicate TableFrame(f: Option<Entry>, f': Option<Entry>, arn: string) {
    && (f.Some? ==> f'.Some?)
    && (f'.Some? ==>
          || (f'.value.arn == arn && f'.value.pendingSince.None?)
          || (f.Some? && f'.value.pendingSince == f.value.pendingSince && f'.value.arn == f.value.arn))
  }

  lemma KeyFrame(l: seq<Entry>, l': seq<Entry>, name: string, t: ResourceType, n: string)
    requires KeyEdit(l, l', name)
    ensures Find(l', t, n) == Find(l, t, n) || (t == KMS && n == DedicatedKeyLedgerName(DynamoDB, name))
    ensures Unique(l) ==> Unique(l')
  {
    if l' != l {
      var x: Entry :| x.Is(KMS, DedicatedKeyLedgerName(DynamoDB, name)) && l' == Upsert(l, x);
      FindUpsert(l, x, t, n);
      if Unique(l) {
        UniqueUpsert(l, x);
      }
    }
  }

  lemma EnsureOneFrame(l: seq<Entry>, l': seq<Entry>, s: TableSpec, t: ResourceType, n: string)
    requires EnsureEdit(l, l', s)
    ensures t != DynamoDB || n != s.name ==> Find(l', t, n) == Find(l, t, n)
    ensures t == DynamoDB ==> TableFrame(Find(l, t, n), Find(l', t, n), s.arn)
    ensures t == DynamoDB && Find(l', t, n) != Find(l, t, n) ==> UnderSpec(s, Find(l', t, n))
    ensures Unique(l) ==> Unique(l')
  {
    if l' != l {
      var x: Entry :| TableEdit(l, x, s) && l' == Upsert(l, x);
      FindUpsert(l, x, t, n);
      if Unique(l) {
        UniqueUpsert(l, x);
      }
    }
  }

  lemma {:induction false} EnsureKeepsUnique(env: Env, from: string, specs: seq<TableSpec>, k: nat, w: Cloud, l: seq<Entry>)
    requires k <= |specs| && Unique(l)
    ensures Unique(EnsureUpto(env, from, specs, k, w, l).ledger)
  {
    if k > 0 {
      EnsureKeepsUnique(env, from, specs, k - 1, w, l);
      LastKeepsUnique(env, from, specs, k, w, l);
    }
  }

  lemma LastKeepsUnique(env: Env, from: string, specs: seq<TableSpec>, k: nat, w: Cloud, l: seq<Entry>)
    requires 0 < k <= |specs| && Unique(EnsureUpto(env, from, specs, k - 1, w, l).ledger)
    ensures Unique(EnsureUpto(env, from, specs, k, w, l).ledger)
  {
    LastEdit(env, from, specs, k, w, l);
    EditsKeepUnique(EnsureUpto(env, from, specs, k - 1, w, l).ledger, EnsureUpto(env, from, specs, k, w, l).ledger, specs[k - 1]);
  }

  lemma EditsKeepUnique(l: seq<Entry>, l': seq<Entry>, s: TableSpec)
    requires OneEdits(l, l', s) && Unique(l)
    ensures Unique(l')
  {
    var l1 :| KeyEdit(l, l1, s.name) && EnsureEdit(l1, l', s);
    KeyFrame(l, l1, s.name, KMS, "");
    EnsureOneFrame(l1, l', s, KMS, "");
  }

  // ------------------------------------------------------ one Cleanup pass

  // What a delete needs to have been sent: an undeclared Delete-policy entry,
  // past its quiet window, unless it was forced.
  ghost predicate Deletable(env: Env, declared: set<string>, e: Entry, forced: bool) {
    && e.rtype == DynamoDB && e.name !in declared && e.policy == Delete && forced == Forced(env, e)
    && (!forced ==> e.pendingSince.Some? && env.now - e.pendingSince.value >= QUIET_WINDOW && NeedsEmptyCheck(e, env.now))
  }

  // The two reads that come right before an unforced delete.
  ghost predicate ReadBefore(env: Env, log: seq<Call>, start: nat, d: nat, arn: string) {
    && start + 2 <= d < |log| && log[d - 1] == Scanned(arn, 0)
    && log[d - 2].TagsRead? && log[d - 2].arn == arn && IsOwnedBy(log[d - 2].tags, env.cr)
  }

  ghost predicate JustifiedCall(env: Env, declared: set<string>, l: seq<Entry>, log: seq<Call>, start: nat, d: nat)
    requires start <= d < |log|
  {
    log[d].DeleteSent? ==>
      exists e :: e in l && e.name == log[d].name && e.arn == log[d].arn && Deletable(env, declared, e, log[d].forced)
                  && (!log[d].forced ==> ReadBefore(env, log, start, d, e.arn))
  }

  lemma DeleteCalls(env: Env, p: TablePass, e: Entry)
    requires e.rtype == DynamoDB
    ensures var log, log' := p.world.log, AfterDelete(env, p, e).world.log;
      log <= log' && forall d :: |log| <= d < |log'| && log'[d].DeleteSent? ==>
        log'[d] == DeleteSent(e.name, e.arn, Forced(env, e)) &&
        (!Forced(env, e) ==> e.pendingSince.Some? && !Waits(env, e) && ReadBefore(env, log', |log|, d, e.arn))
  {
    var (w1, tags) := ListTags(p.world, e.arn);
    var p1 := p.(world := w1);
    if tags.Answer? && IsOwnedBy(tags.value, env.cr) && !Forced(env, e) && !Waits(env, e) {
      GatedCalls(env, p.world.log, tags.value, p1, e);
    }
  }

  // The unforced part, from the tag read on.
  lemma GatedCalls(env: Env, log: seq<Call>, tags: Tags, p: TablePass, e: Entry)
    requires e.rtype == DynamoDB && !Forced(env, e) && IsOwnedBy(tags, env.cr) && p.world.log == log + [TagsRead(e.arn, tags)]
    ensures var (p2, proceed) := GateOnEmpty(env, p, e);
      var log' := if proceed then AfterDeleteTable(env, p2, e).world.log else p2.world.log;
      log <= log' && forall d :: |log| <= d < |log'| && log'[d].DeleteSent? ==>
        log'[d] == DeleteSent(e.name, e.arn, false) && e.pendingSince.Some? && ReadBefore(env, log', |log|, d, e.arn)
  {
    var (p2, proceed) := GateOnEmpty(env, p, e);
    if proceed {
      var log' := AfterDeleteTable(env, p2, e).world.log;
      assert log' == p2.world.log || log' == p2.world.log + [DeleteSent(e.name, e.arn, false)];
    }
  }

  lemma EntryCalls(env: Env, declared: set<string>, l: seq<Entry>, p: TablePass, e: Entry)
    requires e in l
    ensures var log, log' := p.world.log, AfterEntry(env, declared, p, e).world.log;
      log <= log' && forall d :: |log| <= d < |log'| ==> JustifiedCall(env, declared, l, log', |log|, d)
  {
    if e.rtype == DynamoDB && e.name !in declared && e.policy == Delete {
      DeleteCalls(env, p, e);
    }
  }

  lemma {:induction false} CleanupCalls(env: Env, declared: set<string>, l: seq<Entry>, k: nat, p: TablePass)
    requires k <= |l|
    ensures var log, log' := p.world.log, Upto(Step(env, declared), l, k, p).world.log;
      log <= log' && forall d :: |log| <= d < |log'| ==> JustifiedCall(env, declared, l, log', |log|, d)
  {
    if k > 0 {
      CleanupCalls(env, declared, l, k - 1, p);
      var q := Upto(Step(env, declared), l, k - 1, p);
      EntryCalls(env, declared, l, q, l[k - 1]);
      var log, mid, log' := p.world.log, q.world.log, AfterEntry(env, declared, q, l[k - 1]).world.log;
      forall d | |log| <= d < |log'| ensures JustifiedCall(env, declared, l, log', |log|, d) {
        if d < |mid| {
          assert JustifiedCall(env, declared, l, mid, |log|, d);
        } else {
          assert JustifiedCall(env, declared, l, log', |mid|, d);
        }
      }
    }
  }

  // The pending mark an entry has after its step was there before, and the step
  // was not a successful restore; or it is new, dated now, and the deny
  // statement was in place by then.
  lemma EntryMark(env: Env, declared: set<string>, p: TablePass, e: Entry)
    requires e.rtype == DynamoDB && Find(p.ledger, DynamoDB, e.name) == Some(e)
    ensures var q := AfterEntry(env, declared, p, e);
      var f := Find(q.ledger, DynamoDB, e.name);
      && (f.Some? ==> f.value.arn == e.arn)
      && (f.Some? && f.value.pendingSince.Some? ==>
         || (f.value.pendingSince == e.pendingSince && (e.name in declared ==> q.failed))
         || (f.value.pendingSince == Some(env.now) && e.name !in declared
             && p.world.log < q.world.log && q.world.log[|q.world.log| - 1] == DenyInPlace(e.arn)))
  {
    if e.name in declared {
      RestoreMark(p, e);
    } else if e.policy == Delete {
      DeleteMark(env, p, e);
    } else {
      RetainMark(env, p, e);
    }
  }

  lemma RestoreMark(p: TablePass, e: Entry)
    requires e.rtype == DynamoDB && Find(p.ledger, DynamoDB, e.name) == Some(e)
    ensures var q := AfterRestore(p, e);
      var f := Find(q.ledger, DynamoDB, e.name);
      && (f.Some? ==> f.value.arn == e.arn)
      && (f.Some? && f.value.pendingSince.Some? ==> f.value == e && q.failed)
  {
    FindUpsert(p.ledger, e.(pendingSince := None, lastEmptyCheckAt := None), DynamoDB, e.name);
  }

  lemma RetainMark(env: Env, p: TablePass, e: Entry)
    requires e.rtype == DynamoDB && Find(p.ledger, DynamoDB, e.name) == Some(e)
    ensures var f := Find(AfterRetain(env, p, e).ledger, DynamoDB, e.name);
      f.Some? ==> f.value.pendingSince == e.pendingSince && f.value.arn == e.arn
  {
    FindRemove(p.ledger, DynamoDB, e.name, DynamoDB, e.name);
    FindUpsert(p.ledger, Relinquish(e, env.now), DynamoDB, e.name);
  }

  // A mark left by the gate or by the delete.
  ghost predicate MarkKept(env: Env, log: seq<Call>, e: Entry, q: TablePass) {
    var f := Find(q.ledger, DynamoDB, e.name);
    && (f.Some? ==> f.value.arn == e.arn)
    && (f.Some? && f.value.pendingSince.Some? ==>
       || f.value.pendingSince == e.pendingSince
       || (f.value.pendingSince == Some(env.now)
           && log < q.world.log && q.world.log[|q.world.log| - 1] == DenyInPlace(e.arn)))
  }

  lemma PendingMark(env: Env, p: TablePass, e: Entry)
    requires e.rtype == DynamoDB
    ensures var f := Find(MarkPending(env, p, e).ledger, DynamoDB, e.name);
      f.Some? && f.value.arn == e.arn && f.value.pendingSince == if e.pendingSince.None? then Some(env.now) else e.pendingSince
  {
    var since := if e.pendingSince.None? then env.now else e.pendingSince.value;
    FindUpsert(p.ledger, e.(pendingSince := Some(since)), DynamoDB, e.name);
  }

  lemma GateMark(env: Env, p: TablePass, e: Entry)
    requires e.rtype == DynamoDB && Find(p.ledger, DynamoDB, e.name) == Some(e)
    ensures MarkKept(env, p.world.log, e, GateOnEmpty(env, p, e).0)
  {
    if e.pendingSince.None? {
      PendingMark(env, p.(world := AddDeny(p.world, e.arn).0), e);
    } else {
      PendingMark(env, p.(world := Scan(p.world, e.arn).0), e.(lastEmptyCheckAt := Some(env.now)));
    }
  }

  lemma DeleteMark(env: Env, p: TablePass, e: Entry)
    requires e.rtype == DynamoDB && Find(p.ledger, DynamoDB, e.name) == Some(e)
    ensures MarkKept(env, p.world.log, e, AfterDelete(env, p, e))
  {
    FindRemove(p.ledger, DynamoDB, e.name, DynamoDB, e.name);
    var (w1, tags) := ListTags(p.world, e.arn);
    var p1 := p.(world := w1);
    if tags.Answer? && IsOwnedBy(tags.value, env.cr) && !Forced(env, e) && !Waits(env, e) {
      GateMark(env, p1, e);
      var (p2, proceed) := GateOnEmpty(env, p1, e);
      if !proceed {
        assert AfterDelete(env, p, e) == p2;
      } else {
        assert AfterDelete(env, p, e) == AfterDeleteTable(env, p2, e);
      }
    }
  }

  ghost predicate DenyLogged(log: seq<Call>, log': seq<Call>, arn: string) {
    exists d :: |log| <= d < |log'| && log'[d] == DenyInPlace(arn)
  }

  function LogOf(w: Cloud): seq<Call> {
    w.log
  }

  lemma StepIsLogged(env: Env, declared: set<string>)
    ensures Logs(Step(env, declared), LogOf)
  {
    forall p: TablePass, e: Entry ensures LogOf(p.world) <= LogOf(Step(env, declared)(p, e).world) {
      EntryCalls(env, declared, [e], p, e);
    }
  }

  // What a pass may leave pending on the table called n, given what it met.
  ghost predicate MarkLeft(env: Env, declared: set<string>, log: seq<Call>, e: Entry, p: TablePass) {
    var f := Find(p.ledger, DynamoDB, e.name);
    && (f.Some? ==> f.value.arn == e.arn)
    && (f.Some? && f.value.pendingSince.Some? ==>
       || (f.value.pendingSince == e.pendingSince && (e.name in declared ==> p.failed))
       || (f.value.pendingSince == Some(env.now) && e.name !in declared && DenyLogged(log, p.world.log, e.arn)))
  }

  lemma MarkLasts(env: Env, declared: set<string>, log: seq<Call>, e: Entry, p: TablePass, q: TablePass)
    requires MarkLeft(env, declared, log, e, p)
    requires Find(q.ledger, DynamoDB, e.name) == Find(p.ledger, DynamoDB, e.name)
    requires p.world.log <= q.world.log && (p.failed ==> q.failed)
    ensures MarkLeft(env, declared, log, e, q)
  {
    if DenyLogged(log, p.world.log, e.arn) {
      var d :| |log| <= d < |p.world.log| && p.world.log[d] == DenyInPlace(e.arn);
      assert q.world.log[d] == DenyInPlace(e.arn);
    }
  }

  lemma EntryMarkLeft(env: Env, declared: set<string>, log: seq<Call>, p: TablePass, e: Entry)
    requires e.rtype == DynamoDB && Find(p.ledger, DynamoDB, e.name) == Some(e) && log <= p.world.log
    ensures MarkLeft(env, declared, log, e, AfterEntry(env, declared, p, e))
  {
    EntryMark(env, declared, p, e);
  }

  // The same for the whole pass.
  lemma CleanupMark(env: Env, declared: set<string>, w: Cloud, l: seq<Entry>, n: string)
    requires Unique(l)
    ensures var f, p := Find(l, DynamoDB, n), AfterCleanup(env, declared, w, l);
      if f.None? then Find(p.ledger, DynamoDB, n).None? else f.value.name == n && MarkLeft(env, declared, w.log, f.value, p)
  {
    if Find(l, DynamoDB, n).None? {
      StepIsLocal(env, declared);
      Outside(Step(env, declared), DynamoDB, {DynamoDB}, l, Pass(w, l, [], false), DynamoDB, n);
    } else {
      FindSound(l, DynamoDB, n);
      var k :| 0 <= k < |l| && l[k] == Find(l, DynamoDB, n).value;
      StepMark(env, declared, w, l, k);
    }
  }

  lemma StepMark(env: Env, declared: set<string>, w: Cloud, l: seq<Entry>, k: nat)
    requires Unique(l) && k < |l| && l[k].rtype == DynamoDB
    ensures MarkLeft(env, declared, w.log, l[k], AfterCleanup(env, declared, w, l))
  {
    var step, start := Step(env, declared), Pass(w, l, [], false);
    var q := Upto(step, l, k, start);
    StepFinds(env, declared, w, l, k, DynamoDB);
    StepLogs(env, declared, w, l, k);
    EntryMarkLeft(env, declared, w.log, q, l[k]);
    MarkLasts(env, declared, w.log, l[k], step(q, l[k]), Upto(step, l, |l|, start));
  }

  lemma StepLogs(env: Env, declared: set<string>, w: Cloud, l: seq<Entry>, k: nat)
    requires k < |l|
    ensures var step, start := Step(env, declared), Pass(w, l, [], false);
      var q, q', r := Upto(step, l, k, start), step(Upto(step, l, k, start), l[k]), Upto(step, l, |l|, start);
      w.log <= q.world.log && q'.world.log <= r.world.log && (q'.failed ==> r.failed)
  {
    var step, start := Step(env, declared), Pass(w, l, [], false);
    StepIsLogged(env, declared);
    LogGrows(step, LogOf, l, 0, k, start);
    LogGrows(step, LogOf, l, k + 1, |l|, start);
    StepIsSteady(env, declared);
    SteadyUpto(step, l, k + 1, |l|, start);
  }

  // ------------------------------------------------------------------- runs

  datatype Status = Status(ledger: seq<Entry>, cloud: Cloud)

  // How much of a pass reaches the stored status: nothing, the ledger as a
  // checkpoint inside Ensure saw it, or the section's whole outcome.
  datatype Persist = Lost | MidEnsure(k: nat) | Whole

  datatype Move =
    | SectionPass(env: Env, from: string, specs: seq<TableSpec>, deleting: bool, persist: Persist)
    | Elsewhere(next: Status)

  function DeclaredIn(m: Move): set<string>
    requires m.SectionPass?
  {
    DeclaredNames(Names(m.specs), m.deleting)
  }

  function EnsuredOf(s: Status, m: Move): Ensured
    requires m.SectionPass?
  {
    if m.deleting then Ensured(s.cloud, s.ledger, true)
    else EnsureUpto(m.env, m.from, m.specs, |m.specs|, s.cloud, s.ledger)
  }

  function PassOf(s: Status, m: Move): TablePass
    requires m.SectionPass?
  {
    AfterCleanup(m.env, DeclaredIn(m), EnsuredOf(s, m).world, EnsuredOf(s, m).ledger)
  }

  function After(s: Status, m: Move): Status {
    match m
    case Elsewhere(next) => next
    case SectionPass(env, from, specs, deleting, persist) =>
      Status(match persist
             case Lost => s.ledger
             case MidEnsure(k) => if deleting || k > |specs| then s.ledger else EnsureUpto(env, from, specs, k, s.cloud, s.ledger).ledger
             case Whole => PassOf(s, m).ledger,
             PassOf(s, m).world)
  }

  // Other sections restamp a table's entry, but touch nothing its life depends on.
  ghost predicate SameLife(e: Option<Entry>, e': Option<Entry>) {
    match e'
    case None => e.None?
    case Some(x) => e.Some? && x == e.value.(kmsKeyARN := x.kmsKeyARN, onDelete := x.onDelete, heldBy := x.heldBy)
  }

  // Between passes the cloud and the rest of the ledger may change in any way.
  ghost predicate Allowed(s: Status, m: Move) {
    match m
    case Elsewhere(next) =>
      Unique(next.ledger) && forall n :: SameLife(Find(s.ledger, DynamoDB, n), Find(next.ledger, DynamoDB, n))
    case SectionPass(env, _, _, deleting, _) => !deleting ==> !env.forceDeleteAll
  }

  ghost predicate StepAt(trace: seq<Status>, run: seq<Move>, i: nat)
    requires i < |run| && |trace| == |run| + 1
  {
    Allowed(trace[i], run[i]) && trace[i + 1] == After(trace[i], run[i])
  }

  // A run: the states, and the move from each to the next; at first nothing is pending.
  ghost predicate Run(trace: seq<Status>, run: seq<Move>) {
    && |trace| == |run| + 1 && Unique(trace[0].ledger)
    && (forall e :: e in trace[0].ledger && e.rtype == DynamoDB ==> e.pendingSince.None?)
    && forall i :: 0 <= i < |run| ==> StepAt(trace, run, i)
  }

  // Pass i, stored, found n undeclared at time t0 with the deny in place.
  ghost predicate Marked(trace: seq<Status>, run: seq<Move>, i: nat, n: string, t0: int, arn: string)
    requires i < |run| && i < |trace|
  {
    && run[i].SectionPass? && run[i].persist.Whole? && run[i].env.now == t0 && n !in DeclaredIn(run[i])
    && DenyLogged(EnsuredOf(trace[i], run[i]).world.log, PassOf(trace[i], run[i]).world.log, arn)
  }

  // Pass j, stored, saw n declared and its Cleanup succeeded.
  ghost predicate Cleared(trace: seq<Status>, run: seq<Move>, j: nat, n: string)
    requires j < |run| && j < |trace|
  {
    run[j].SectionPass? && run[j].persist.Whole? && n in DeclaredIn(run[j]) && !PassOf(trace[j], run[j]).failed
  }

  datatype Mark = Mark(since: int, arn: string)

  // The history of n's pending mark over a run.
  ghost function MarkAt(trace: seq<Status>, run: seq<Move>, n: string): nat -> Option<Mark> {
    (k: nat) =>
      if k >= |trace| || Find(trace[k].ledger, DynamoDB, n).None? then None
      else
        var e := Find(trace[k].ledger, DynamoDB, n).value;
        if e.pendingSince.None? then None else Some(Mark(e.pendingSince.value, e.arn))
  }

  ghost function MarkedAt(trace: seq<Status>, run: seq<Move>, n: string): (nat, Mark) -> bool {
    (i: nat, v: Mark) => i < |run| && i < |trace| && Marked(trace, run, i, n, v.since, v.arn)
  }

  ghost function ClearedAt(trace: seq<Status>, run: seq<Move>, n: string): nat -> bool {
    (j: nat) => j < |run| && j < |trace| && Cleared(trace, run, j, n)
  }

  // Marked at t0 by a move before the k-th, and not cleared since.
  ghost predicate MarkedSince(trace: seq<Status>, run: seq<Move>, k: nat, n: string, t0: int, arn: string) {
    Since(MarkedAt(trace, run, n), ClearedAt(trace, run, n), k, Mark(t0, arn))
  }

  lemma {:induction false} RunStaysUnique(trace: seq<Status>, run: seq<Move>, k: nat)
    requires Run(trace, run) && k <= |run|
    ensures Unique(trace[k].ledger)
  {
    if k > 0 {
      RunStaysUnique(trace, run, k - 1);
      assert StepAt(trace, run, k - 1);
      MoveKeepsUnique(trace[k - 1], run[k - 1]);
    }
  }

  lemma MoveKeepsUnique(s: Status, m: Move)
    requires Allowed(s, m) && Unique(s.ledger)
    ensures Unique(After(s, m).ledger)
  {
    if m.SectionPass? {
      PassKeepsUnique(s, m);
    }
  }

  lemma PassKeepsUnique(s: Status, m: Move)
    requires m.SectionPass? && Unique(s.ledger)
    ensures Unique(After(s, m).ledger) && Unique(EnsuredOf(s, m).ledger)
  {
    EnsureKeepsUnique(m.env, m.from, m.specs, |m.specs|, s.cloud, s.ledger);
    if m.persist.MidEnsure? && m.persist.k <= |m.specs| {
      EnsureKeepsUnique(m.env, m.from, m.specs, m.persist.k, s.cloud, s.ledger);
    }
    var en := EnsuredOf(s, m);
    StepIsLocal(m.env, DeclaredIn(m));
    StaysUnique(Step(m.env, DeclaredIn(m)), DynamoDB, {DynamoDB}, en.ledger, |en.ledger|, Pass(en.world, en.ledger, [], false));
  }

  // In every reachable state, a pending mark goes back to a stored pass that
  // put the deny in place, with no successful sight of the declaration since.
  lemma PendingIsJustified(trace: seq<Status>, run: seq<Move>, k: nat, n: string)
    requires Run(trace, run) && k <= |run|
    requires Find(trace[k].ledger, DynamoDB, n).Some?
    requires Find(trace[k].ledger, DynamoDB, n).value.pendingSince.Some?
    ensures var e := Find(trace[k].ledger, DynamoDB, n).value;
      MarkedSince(trace, run, k, n, e.pendingSince.value, e.arn)
  {
    var mark, marked, cleared := MarkAt(trace, run, n), MarkedAt(trace, run, n), ClearedAt(trace, run, n);
    FindSound(trace[0].ledger, DynamoDB, n);
    assert mark(0).None?;
    forall j: nat | j < k ensures MakesOrKeeps(mark, marked, cleared, j) {
      MarkStep(trace, run, j, n);
    }
    GoesBack(mark, marked, cleared, k);
  }

  lemma MarkStep(trace: seq<Status>, run: seq<Move>, j: nat, n: string)
    requires Run(trace, run) && j < |run|
    ensures MakesOrKeeps(MarkAt(trace, run, n), MarkedAt(trace, run, n), ClearedAt(trace, run, n), j)
  {
    if MarkAt(trace, run, n)(j + 1).Some? {
      RunStaysUnique(trace, run, j);
      assert StepAt(trace, run, j);
      MoveMark(trace[j], run[j], n);
    }
  }

  // The mark was there before, and the move did not see the table declared and succeed.
  ghost predicate OldMark(s: Status, m: Move, n: string) {
    var f, f' := Find(s.ledger, DynamoDB, n), Find(After(s, m).ledger, DynamoDB, n);
    && f.Some? && f'.Some? && f.value.pendingSince == f'.value.pendingSince && f.value.arn == f'.value.arn
    && (m.SectionPass? && m.persist.Whole? && n in DeclaredIn(m) ==> PassOf(s, m).failed)
  }

  // A pending mark after a move is the pass's own, or it was there before.
  lemma MoveMark(s: Status, m: Move, n: string)
    requires Allowed(s, m) && Unique(s.ledger)
    requires Find(After(s, m).ledger, DynamoDB, n).Some? && Find(After(s, m).ledger, DynamoDB, n).value.pendingSince.Some?
    ensures (m.SectionPass? && m.persist.Whole? && NewMark(s, m, n)) || OldMark(s, m, n)
  {
    if m.SectionPass? {
      PassMark(s, m, n);
    } else {
      assert SameLife(Find(s.ledger, DynamoDB, n), Find(m.next.ledger, DynamoDB, n));
    }
  }

  // The pass set the mark itself.
  ghost predicate NewMark(s: Status, m: Move, n: string)
    requires m.SectionPass? && Find(After(s, m).ledger, DynamoDB, n).Some?
  {
    var e := Find(After(s, m).ledger, DynamoDB, n).value;
    e.pendingSince == Some(m.env.now) && n !in DeclaredIn(m)
    && DenyLogged(EnsuredOf(s, m).world.log, PassOf(s, m).world.log, e.arn)
  }

  lemma PassMark(s: Status, m: Move, n: string)
    requires m.SectionPass? && Unique(s.ledger)
    requires Find(After(s, m).ledger, DynamoDB, n).Some? && Find(After(s, m).ledger, DynamoDB, n).value.pendingSince.Some?
    ensures (m.persist.Whole? && NewMark(s, m, n)) || OldMark(s, m, n)
  {
    EnsureFrame(m.env, m.from, m.specs, |m.specs|, s.cloud, s.ledger, DynamoDB, n);
    if m.persist.MidEnsure? && m.persist.k <= |m.specs| {
      EnsureFrame(m.env, m.from, m.specs, m.persist.k, s.cloud, s.ledger, DynamoDB, n);
    } else if m.persist.Whole? {
      PassKeepsUnique(s, m);
      CleanupMark(m.env, DeclaredIn(m), EnsuredOf(s, m).world, EnsuredOf(s, m).ledger, n);
    }
  }

  // The law of deletion. In every run, with any calls failing, replies lost and
  // status writes lost, an unforced delete of a table at time T was prepared by
  // a stored pass at some t0, T - t0 no less than the quiet window, that found
  // the table undeclared and its deny in place; no pass since then that saw it
  // declared has both succeeded and been stored; and the deleting pass read the
  // CR's own tags and an empty scan right before.
  lemma DeleteIsJustified(trace: seq<Status>, run: seq<Move>, k: nat, d: nat)
    requires Run(trace, run) && k < |run| && run[k].SectionPass?
    requires |EnsuredOf(trace[k], run[k]).world.log| <= d < |PassOf(trace[k], run[k]).world.log|
    requires var c := PassOf(trace[k], run[k]).world.log[d]; c.DeleteSent? && !c.forced
    ensures var m, log := run[k], PassOf(trace[k], run[k]).world.log;
      && log[d].name !in DeclaredIn(m)
      && ReadBefore(m.env, log, |EnsuredOf(trace[k], m).world.log|, d, log[d].arn)
      && exists t0 :: MarkedSince(trace, run, k, log[d].name, t0, log[d].arn) && m.env.now - t0 >= QUIET_WINDOW
  {
    var st, m := trace[k], run[k];
    var en := EnsuredOf(st, m);
    RunStaysUnique(trace, run, k);
    PassKeepsUnique(st, m);
    CleanupCalls(m.env, DeclaredIn(m), en.ledger, |en.ledger|, Pass(en.world, en.ledger, [], false));
    var log := PassOf(st, m).world.log;
    assert JustifiedCall(m.env, DeclaredIn(m), en.ledger, log, |en.world.log|, d);
    var e :| e in en.ledger && e.name == log[d].name && e.arn == log[d].arn && Deletable(m.env, DeclaredIn(m), e, false)
             && ReadBefore(m.env, log, |en.world.log|, d, e.arn);
    FindMember(en.ledger, e);
    EnsureFrame(m.env, m.from, m.specs, |m.specs|, st.cloud, st.ledger, DynamoDB, e.name);
    PendingIsJustified(trace, run, k, e.name);
  }
}
