/**
 The KMS section of a pass: which keys the spec needs, the record of which key
 each resource is encrypted with, and what whole runs of passes do to a key.
 */
module KeySection {
  import opened Ledger
  import opened Sweep
  import opened Naming
  import opened Decisions
  import opened KmsCloud
  import opened KeyCleanup

  datatype Encryption = Encryption(enabled: bool, kmsKeyRef: string)

  // A declared resource that can carry an encryption block.
  datatype Encrypted = Encrypted(rtype: ResourceType, name: string, encryption: Option<Encryption>)

  // The ledger name of the key the resource uses, or "".
  function KeyLedgerName(r: Encrypted): string {
    match r.encryption
    case None => ""
    case Some(c) =>
      if c.kmsKeyRef != "" then c.kmsKeyRef
      else if c.enabled then DedicatedKeyLedgerName(r.rtype, r.name)
      else ""
  }

  ghost predicate Needs(r: Encrypted, key: string) {
    r.encryption.Some? &&
    ((r.encryption.value.kmsKeyRef != "" && key == r.encryption.value.kmsKeyRef)
     || (r.encryption.value.enabled && key == DedicatedKeyLedgerName(r.rtype, r.name)))
  }

  function Referenced(rs: seq<Encrypted>): seq<string> {
    if rs == [] then []
    else
      var names := Referenced(rs[..|rs| - 1]);
      var c := rs[|rs| - 1].encryption;
      if c.Some? && c.value.kmsKeyRef != "" && c.value.kmsKeyRef !in names then names + [c.value.kmsKeyRef] else names
  }

  function Dedicated(rs: seq<Encrypted>): seq<string> {
    if rs == [] then []
    else
      var r := rs[|rs| - 1];
      Dedicated(rs[..|rs| - 1])
      + (if r.encryption.Some? && r.encryption.value.enabled then [DedicatedKeyLedgerName(r.rtype, r.name)] else [])
  }

  function Needed(rs: seq<Encrypted>): seq<string> {
    Referenced(rs) + Dedicated(rs)
  }

  method NeededKMSKeyNames(rs: seq<Encrypted>) returns (names: seq<string>)
    ensures names == Needed(rs)
  {
    names := [];
    for i := 0 to |rs|
      invariant names == Referenced(rs[..i])
    {
      assert rs[..i + 1][..i] == rs[..i];
      var c := rs[i].encryption;
      if c.Some? && c.value.kmsKeyRef != "" && c.value.kmsKeyRef !in names {
        names := names + [c.value.kmsKeyRef];
      }
    }
    assert rs[..|rs|] == rs;
    for i := 0 to |rs|
      invariant names == Referenced(rs) + Dedicated(rs[..i])
    {
      assert rs[..i + 1][..i] == rs[..i];
      if rs[i].encryption.Some? && rs[i].encryption.value.enabled {
        names := names + [DedicatedKeyLedgerName(rs[i].rtype, rs[i].name)];
      }
    }
  }

  // Exactly the keys some declared resource uses.
  lemma {:induction false} NeededMembers(rs: seq<Encrypted>, key: string)
    ensures key in Needed(rs) <==> exists i :: 0 <= i < |rs| && Needs(rs[i], key)
  {
    if rs != [] {
      var rest := rs[..|rs| - 1];
      NeededMembers(rest, key);
      assert key in Needed(rs) <==> key in Needed(rest) || Needs(rs[|rs| - 1], key);
      if i :| 0 <= i < |rs| - 1 && Needs(rs[i], key) {
        assert rest[i] == rs[i];
      }
      if i :| 0 <= i < |rest| && Needs(rest[i], key) {
        assert rs[i] == rest[i];
      }
    }
  }

  // -------------------------------------------- recording the keys' ARNs

  function Record(l: seq<Entry>, t: ResourceType, n: string, arn: string): seq<Entry> {
    match Find(l, t, n)
    case Some(e) => if e.kmsKeyARN != arn then Upsert(l, e.(kmsKeyARN := arn)) else l
    case None => l
  }

  function RecordOne(l: seq<Entry>, r: Encrypted): seq<Entry> {
    var key := Find(l, KMS, KeyLedgerName(r));
    if KeyLedgerName(r) == "" || key.None? || key.value.arn == "" then l
    else
      var main := Record(l, r.rtype, r.name, key.value.arn);
      if r.rtype == SQS then Record(main, SQS, DerivedKey(r.name, DLQ_ROLE), key.value.arn) else main
  }

  function RecordAll(l: seq<Entry>, rs: seq<Encrypted>): seq<Entry> {
    if rs == [] then l else RecordOne(RecordAll(l, rs[..|rs| - 1]), rs[|rs| - 1])
  }

  method RecordKMSKeyARNs(slice: Slice, rs: seq<Encrypted>)
    modifies slice
    ensures slice.entries == RecordAll(old(slice.entries), rs)
  {
    for i := 0 to |rs|
      invariant slice.entries == RecordAll(old(slice.entries), rs[..i])
    {
      assert rs[..i + 1][..i] == rs[..i];
      var r := rs[i];
      var keyName := KeyLedgerName(r);
      if keyName == "" {
        continue;
      }
      var key := slice.FindManagedResource(KMS, keyName);
      if key.None? || key.value.arn == "" {
        continue;
      }
      var names := [r.name];
      if r.rtype == SQS {
        names := names + [DerivedKey(r.name, DLQ_ROLE)];
      }
      ghost var before := slice.entries;
      for j := 0 to |names|
        invariant j == 0 ==> slice.entries == before
        invariant j == 1 ==> slice.entries == Record(before, r.rtype, r.name, key.value.arn)
        invariant j == 2 ==> slice.entries == Record(Record(before, r.rtype, r.name, key.value.arn), SQS, DerivedKey(r.name, DLQ_ROLE), key.value.arn)
      {
        var entry := slice.FindManagedResource(r.rtype, names[j]);
        if entry.Some? && entry.value.kmsKeyARN != key.value.arn {
          slice.UpsertManagedResource(entry.value.(kmsKeyARN := key.value.arn));
        }
      }
    }
    assert rs[..|rs|] == rs;
  }

  lemma FindRecord(l: seq<Entry>, t: ResourceType, n: string, arn: string, t': ResourceType, n': string)
    requires arn != ""
    ensures var f, f' := Find(l, t', n'), Find(Record(l, t, n, arn), t', n');
      f' == if t == t' && n == n' && f.Some? then Some(f.value.(kmsKeyARN := arn)) else f
  {
    FindSound(l, t, n);
    if Find(l, t, n).Some? {
      FindUpsert(l, Find(l, t, n).value.(kmsKeyARN := arn), t', n');
    }
  }

  // No resource type of the spec is a key's.
  ghost predicate Resources(rs: seq<Encrypted>) {
    && (forall i :: 0 <= i < |rs| ==> rs[i].rtype != KMS && SEPARATOR !in rs[i].name)
    && (forall i, j :: 0 <= i < j < |rs| ==> rs[i].rtype != rs[j].rtype || rs[i].name != rs[j].name)
  }

  // The entries a resource's key is recorded on: its own, and its dead-letter queue's.
  ghost predicate EntryOf(r: Encrypted, t: ResourceType, n: string) {
    t == r.rtype && (n == r.name || (t == SQS && n == DerivedKey(r.name, DLQ_ROLE)))
  }

  lemma FindRecordOne(l: seq<Entry>, r: Encrypted, t: ResourceType, n: string)
    ensures var f, f', key := Find(l, t, n), Find(RecordOne(l, r), t, n), Find(l, KMS, KeyLedgerName(r));
      f' == if f.Some? && EntryOf(r, t, n) && KeyLedgerName(r) != "" && key.Some? && key.value.arn != ""
            then Some(f.value.(kmsKeyARN := key.value.arn)) else f
  {
    var key := Find(l, KMS, KeyLedgerName(r));
    if KeyLedgerName(r) != "" && key.Some? && key.value.arn != "" {
      FindRecord(l, r.rtype, r.name, key.value.arn, t, n);
      var main := Record(l, r.rtype, r.name, key.value.arn);
      FindRecord(main, SQS, DerivedKey(r.name, DLQ_ROLE), key.value.arn, t, n);
    }
  }

  lemma EntryOfOne(rs: seq<Encrypted>, i: nat, j: nat, t: ResourceType, n: string)
    requires Resources(rs) && i < |rs| && j < |rs| && EntryOf(rs[i], t, n) && EntryOf(rs[j], t, n)
    ensures i == j
  {
    BaseNameOfDerived(rs[i].name, DLQ_ROLE);
    BaseNameOfDerived(rs[j].name, DLQ_ROLE);
    assert rs[i].name == rs[j].name;
  }

  // After recording, a declared resource's entry, and its dead-letter queue's,
  // name the key its encryption block resolves to; no other entry changes.
  lemma {:induction false} RecordedARN(l: seq<Entry>, rs: seq<Encrypted>, i: nat, t: ResourceType, n: string)
    requires Resources(rs) && i < |rs| && EntryOf(rs[i], t, n)
    ensures var f, f', key := Find(l, t, n), Find(RecordAll(l, rs), t, n), Find(l, KMS, KeyLedgerName(rs[i]));
      f' == if f.Some? && KeyLedgerName(rs[i]) != "" && key.Some? && key.value.arn != ""
            then Some(f.value.(kmsKeyARN := key.value.arn)) else f
  {
    var rest := rs[..|rs| - 1];
    FindRecordOne(RecordAll(l, rest), rs[|rs| - 1], t, n);
    if i < |rs| - 1 {
      assert rest[i] == rs[i];
      RecordedARN(l, rest, i, t, n);
      if EntryOf(rs[|rs| - 1], t, n) {
        EntryOfOne(rs, i, |rs| - 1, t, n);
      }
    } else {
      RecordFrame(l, rest, KMS, KeyLedgerName(rs[i]));
      forall j | 0 <= j < |rest| ensures !EntryOf(rest[j], t, n) {
        if EntryOf(rs[j], t, n) {
          EntryOfOne(rs, i, j, t, n);
        }
      }
      RecordFrame(l, rest, t, n);
    }
  }

  lemma {:induction false} RecordFrame(l: seq<Entry>, rs: seq<Encrypted>, t: ResourceType, n: string)
    requires forall j :: 0 <= j < |rs| ==> !EntryOf(rs[j], t, n)
    ensures Find(RecordAll(l, rs), t, n) == Find(l, t, n)
  {
    if rs != [] {
      RecordFrame(l, rs[..|rs| - 1], t, n);
      FindRecordOne(RecordAll(l, rs[..|rs| - 1]), rs[|rs| - 1], t, n);
    }
  }

  lemma {:induction false} RecordKeepsUnique(l: seq<Entry>, rs: seq<Encrypted>)
    requires Unique(l)
    ensures Unique(RecordAll(l, rs))
  {
    if rs != [] {
      var r := rs[|rs| - 1];
      var m := RecordAll(l, rs[..|rs| - 1]);
      RecordKeepsUnique(l, rs[..|rs| - 1]);
      var key := Find(m, KMS, KeyLedgerName(r));
      if KeyLedgerName(r) != "" && key.Some? && key.value.arn != "" {
        RecordOneUnique(m, r.rtype, r.name, key.value.arn);
        RecordOneUnique(Record(m, r.rtype, r.name, key.value.arn), SQS, DerivedKey(r.name, DLQ_ROLE), key.value.arn);
      }
    }
  }

  lemma RecordOneUnique(l: seq<Entry>, t: ResourceType, n: string, arn: string)
    requires Unique(l)
    ensures Unique(Record(l, t, n, arn))
  {
    if Find(l, t, n).Some? {
      UniqueUpsert(l, Find(l, t, n).value.(kmsKeyARN := arn));
    }
  }

  // ---------------------------------------------------------------- sections

  datatype Spec = Spec(keys: seq<string>, resources: seq<Encrypted>)

  function ReconcileWants(l: seq<Entry>, spec: Spec): Wants {
    Wants(spec.keys, InUseMap(l, Needed(spec.resources)), false)
  }

  function FinalizeWants(l: seq<Entry>, spec: Spec): Wants {
    Wants(spec.keys, InUseMap(l, []), true)
  }

  lemma InUseSeesLedger(l: seq<Entry>, needed: seq<string>, keys: seq<string>, deleting: bool)
    ensures SeesLedger(Wants(keys, InUseMap(l, needed), deleting), l)
  {
    forall n ensures n in InUseMap(l, needed) <==> n in needed || Holds(l, n)
      ensures n in InUseMap(l, needed) ==> (InUseMap(l, needed)[n] <==> HeldForKeeps(l, n))
    {
      InUseMapIs(l, needed, n);
    }
  }

  // ---------------------------------------------------------------- runs

  datatype Status = Status(ledger: seq<Entry>, cloud: Cloud)

  // A pass of the section, finalizing or not, whose status write may be lost;
  // or anything else the operator, its other sections, users and AWS do.
  datatype Move =
    | SectionPass(env: Env, spec: Spec, deleting: bool, persisted: bool)
    | Elsewhere(next: Status)

  // The ledger the pass's Cleanup works on.
  function CleanupLedger(s: Status, m: Move): seq<Entry>
    requires m.SectionPass?
  {
    if m.deleting then s.ledger else RecordAll(s.ledger, m.spec.resources)
  }

  function PassOf(s: Status, m: Move): KeyPass
    requires m.SectionPass?
  {
    var l := CleanupLedger(s, m);
    AfterCleanup(m.env, if m.deleting then FinalizeWants(l, m.spec) else ReconcileWants(l, m.spec), s.cloud, l)
  }

  function After(s: Status, m: Move): Status {
    match m
    case Elsewhere(next) => next
    case SectionPass(_, _, _, persisted) =>
      var p := PassOf(s, m);
      Status(if persisted then p.ledger else s.ledger, p.world)
  }

  ghost predicate Sound(l: seq<Entry>) {
    Unique(l) && DistinctKeyARNs(l)
  }

  // Whatever happens elsewhere sends no key to deletion and leaves no two keys
  // under one ARN; the spec's resources are not keys.
  ghost predicate Allowed(s: Status, m: Move) {
    match m
    case Elsewhere(next) => next.cloud.scheduled == s.cloud.scheduled && Sound(next.ledger)
    case SectionPass(_, spec, _, _) => Resources(spec.resources)
  }

  ghost predicate StepAt(trace: seq<Status>, run: seq<Move>, i: nat)
    requires i < |run| && |trace| == |run| + 1
  {
    Allowed(trace[i], run[i]) && trace[i + 1] == After(trace[i], run[i])
  }

  // A run: the states, and the move from each to the next.
  ghost predicate Run(trace: seq<Status>, run: seq<Move>) {
    |trace| == |run| + 1 && Sound(trace[0].ledger) && forall i :: 0 <= i < |run| ==> StepAt(trace, run, i)
  }

  lemma CleanupLedgerSound(s: Status, m: Move)
    requires m.SectionPass? && Sound(s.ledger) && Resources(m.spec.resources)
    ensures Sound(CleanupLedger(s, m))
  {
    if !m.deleting {
      var rs := m.spec.resources;
      var l := RecordAll(s.ledger, rs);
      RecordKeepsUnique(s.ledger, rs);
      forall n ensures Find(l, KMS, n) == Find(s.ledger, KMS, n) {
        RecordFrame(s.ledger, rs, KMS, n);
      }
      SameKeysDistinct(s.ledger, l);
    }
  }

  // Distinctness only depends on the ARN each key name leads to.
  lemma SameKeysDistinct(l: seq<Entry>, l': seq<Entry>)
    requires Unique(l) && Unique(l') && DistinctKeyARNs(l)
    requires forall n :: Find(l', KMS, n).Some? ==> Find(l, KMS, n).Some? && Find(l, KMS, n).value.arn == Find(l', KMS, n).value.arn
    ensures DistinctKeyARNs(l')
  {
    forall i, j | 0 <= i < j < |l'| && l'[i].rtype == KMS && l'[j].rtype == KMS ensures l'[i].arn != l'[j].arn {
      FindMember(l', l'[i]);
      FindMember(l', l'[j]);
      assert !l'[i].Is(l'[j].rtype, l'[j].name);
      FindSound(l, KMS, l'[i].name);
      FindSound(l, KMS, l'[j].name);
      var a, b := Find(l, KMS, l'[i].name).value, Find(l, KMS, l'[j].name).value;
      var x :| 0 <= x < |l| && l[x] == a;
      var y :| 0 <= y < |l| && l[y] == b;
      assert x != y;
    }
  }

  lemma CleanupKeepsSound(env: Env, wants: Wants, w: Cloud, l: seq<Entry>)
    requires Sound(l)
    ensures Sound(AfterCleanup(env, wants, w, l).ledger)
  {
    var step, p := Step(env, wants), Pass(w, l, [], false);
    var l' := AfterCleanup(env, wants, w, l).ledger;
    StepIsLocal(env, wants);
    StaysUnique(step, KMS, {KMS}, l, |l|, p);
    forall n | Find(l', KMS, n).Some?
      ensures Find(l, KMS, n).Some? && Find(l, KMS, n).value.arn == Find(l', KMS, n).value.arn
    {
      if Find(l, KMS, n).None? {
        Outside(step, KMS, {KMS}, l, p, KMS, n);
      } else {
        FindSound(l, KMS, n);
        var k :| 0 <= k < |l| && l[k] == Find(l, KMS, n).value;
        AtEntry(step, KMS, {KMS}, l, k, p, KMS);
        EditKeepsARN(Upto(step, l, k, p).ledger, step(Upto(step, l, k, p), l[k]).ledger, l[k]);
      }
    }
    SameKeysDistinct(l, l');
  }

  lemma PassKeepsSound(s: Status, m: Move)
    requires m.SectionPass? && Sound(s.ledger) && Resources(m.spec.resources)
    ensures Sound(After(s, m).ledger)
  {
    CleanupLedgerSound(s, m);
    var l := CleanupLedger(s, m);
    CleanupKeepsSound(m.env, if m.deleting then FinalizeWants(l, m.spec) else ReconcileWants(l, m.spec), s.cloud, l);
  }

  lemma {:induction false} RunStaysSound(trace: seq<Status>, run: seq<Move>, k: nat)
    requires Run(trace, run) && k <= |run|
    ensures Sound(trace[k].ledger)
  {
    if k > 0 {
      RunStaysSound(trace, run, k - 1);
      assert StepAt(trace, run, k - 1);
      if run[k - 1].SectionPass? {
        PassKeepsSound(trace[k - 1], run[k - 1]);
      }
    }
  }

  // In every run of passes, with any calls failing and any status writes lost,
  // a deletion is only ever sent for a key that no entry of the ledger is
  // encrypted with and, while reconciling, that no declared resource uses. It
  // has been waiting for the quiet window by then.
  lemma RunNeverLosesAKey(trace: seq<Status>, run: seq<Move>, k: nat, i: nat)
    requires Run(trace, run) && k < |run|
    requires |trace[k].cloud.scheduled| <= i < |trace[k + 1].cloud.scheduled|
    ensures run[k].SectionPass?
    ensures var m, l := run[k], CleanupLedger(trace[k], run[k]);
      exists key :: key in l && key.rtype == KMS && key.policy == Delete
        && key.arn == trace[k + 1].cloud.scheduled[i]
        && (forall h :: h in l ==> !Encrypts(l, key, h))
        && (!m.deleting ==> key.name !in m.spec.keys && forall r :: r in m.spec.resources ==> !Needs(r, key.name))
        && key.pendingSince.Some? && m.env.now - key.pendingSince.value >= QUIET_WINDOW
  {
    var prev, m := trace[k], run[k];
    assert StepAt(trace, run, k);
    RunStaysSound(trace, run, k);
    CleanupLedgerSound(prev, m);
    var l := CleanupLedger(prev, m);
    var wants := if m.deleting then FinalizeWants(l, m.spec) else ReconcileWants(l, m.spec);
    InUseSeesLedger(l, if m.deleting then [] else Needed(m.spec.resources), m.spec.keys, m.deleting);
    NeverSchedulesEncryptingKey(m.env, wants, prev.cloud, l, i);
    var key :| key in l && key.arn == PassOf(prev, m).world.scheduled[i] && Schedulable(m.env, wants, key)
               && forall h :: h in l ==> !Encrypts(l, key, h);
    if !m.deleting {
      forall r | r in m.spec.resources ensures !Needs(r, key.name) {
        var x :| 0 <= x < |m.spec.resources| && m.spec.resources[x] == r;
        NeededMembers(m.spec.resources, key.name);
      }
    }
  }

  // A deletion of a key is never sent in a pass whose ledger records an entry
  // as encrypted with it, so never while such an entry stays.
  lemma NotWhileRecorded(trace: seq<Status>, run: seq<Move>, k: nat, i: nat, h: Entry)
    requires Run(trace, run) && k < |run| && run[k].SectionPass?
    requires |trace[k].cloud.scheduled| <= i < |trace[k + 1].cloud.scheduled|
    requires h in CleanupLedger(trace[k], run[k]) && h.rtype != KMS && h.rtype != IAM && h.kmsKeyARN != ""
    ensures trace[k + 1].cloud.scheduled[i] != h.kmsKeyARN
  {
    RunNeverLosesAKey(trace, run, k, i);
  }

  // ------------------------------------------------------- keys held for keeps

  // When the CR is deleted, a key of data that stays is let go of, not deleted:
  // its entry is relinquished with policy Retain, or was relinquished already;
  // it is dropped only when the key is gone from AWS, and a failed call leaves
  // the entry as it was and the pass unfinished.
  lemma KeptWithItsData(env: Env, spec: Spec, w: Cloud, l: seq<Entry>, key: Entry)
    requires Unique(l) && key in l && key.rtype == KMS && HeldForKeeps(l, key.name)
    ensures var p := AfterCleanup(env, FinalizeWants(l, spec), w, l);
      match Find(p.ledger, KMS, key.name)
      case None => key.arn !in w.keys
      case Some(e) =>
        || (e.state.Relinquished? && (e.policy == Retain || e == key))
        || (e == key && p.failed)
  {
    var wants := FinalizeWants(l, spec);
    InUseMapIs(l, [], key.name);
    var k :| 0 <= k < |l| && l[k] == key;
    HeldAtStep(env, wants, w, l, k);
  }

  lemma HeldAtStep(env: Env, wants: Wants, w: Cloud, l: seq<Entry>, k: nat)
    requires Unique(l) && k < |l| && l[k].rtype == KMS
    requires wants.deleting && l[k].name in wants.inUse && wants.inUse[l[k].name]
    ensures var p, key := AfterCleanup(env, wants, w, l), l[k];
      match Find(p.ledger, KMS, key.name)
      case None => key.arn !in w.keys
      case Some(e) =>
        || (e.state.Relinquished? && (e.policy == Retain || e == key))
        || (e == key && p.failed)
  {
    var step, p := Step(env, wants), Pass(w, l, [], false);
    var q := Upto(step, l, k, p);
    StepFinds(env, wants, w, l, k, KMS);
    HeldEntry(env, wants, q, l[k]);
    KeysStay(env, wants, l, k, p);
    if step(q, l[k]).failed {
      StepIsSteady(env, wants);
      SteadyUpto(step, l, k + 1, |l|, p);
    }
  }

  lemma HeldEntry(env: Env, wants: Wants, q: KeyPass, key: Entry)
    requires key.rtype == KMS && Find(q.ledger, KMS, key.name) == Some(key)
    requires wants.deleting && key.name in wants.inUse && wants.inUse[key.name]
    ensures var r := AfterEntry(env, wants, q, key);
      match Find(r.ledger, KMS, key.name)
      case None => key.arn !in q.world.keys
      case Some(e) =>
        || (e.state.Relinquished? && (e.policy == Retain || e == key))
        || (e == key && r.failed)
  {
    var held := key.(policy := Retain);
    assert AfterEntry(env, wants, q, key) == AfterRetain(env, q, held);
    FindRemove(q.ledger, KMS, key.name, KMS, key.name);
    FindUpsert(q.ledger, Relinquish(held, env.now), KMS, key.name);
  }

  // Cleanup removes no key from AWS by itself.
  lemma {:induction false} KeysStay(env: Env, wants: Wants, l: seq<Entry>, k: nat, p: KeyPass)
    requires k <= |l|
    ensures Upto(Step(env, wants), l, k, p).world.keys.Keys == p.world.keys.Keys
  {
    if k > 0 {
      KeysStay(env, wants, l, k - 1, p);
    }
  }
}
