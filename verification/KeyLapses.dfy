/**
 Where the two laws of key creation meet the rest: Cleanup is a move they allow,
 a created key is tracked exactly when one status write after it got through,
 and a history in which none did leaves two keys.
 */
module KeyLapses {
  import opened Ledger
  import opened Sweep
  import opened Ownership
  import opened KmsCloud
  import opened KeyCreation
  import opened KeyRuns
  import opened History
  import KeyCleanup

  lemma EntryKeeps(env: KeyCleanup.Env, wants: KeyCleanup.Wants, p: KeyCleanup.KeyPass, e: Entry)
    requires e.rtype == KMS && Find(p.ledger, KMS, e.name) == Some(e)
    ensures Keeps(Some(e), Find(KeyCleanup.AfterEntry(env, wants, p, e).ledger, KMS, e.name))
  {
    var n := e.name;
    var e' := if wants.deleting && n in wants.inUse then e.(policy := Retain) else e;
    FindRemove(p.ledger, KMS, n, KMS, n);
    if KeyCleanup.Declared(wants, n) {
      FindUpsert(p.ledger, e'.(pendingSince := None), KMS, n);
    } else if e'.policy == Retain {
      FindUpsert(p.ledger, Relinquish(e', env.now), KMS, n);
    } else {
      FindUpsert(p.ledger, e'.(pendingSince := Some(env.now)), KMS, n);
    }
  }

  lemma {:induction false} CleanupCreatesNone(env: KeyCleanup.Env, wants: KeyCleanup.Wants, l: seq<Entry>, k: nat, p: KeyCleanup.KeyPass)
    requires k <= |l|
    ensures Upto(KeyCleanup.Step(env, wants), l, k, p).world.created == p.world.created
  {
    if k > 0 {
      CleanupCreatesNone(env, wants, l, k - 1, p);
    }
  }

  // A Cleanup pass is one of the moves the run lemmas allow between two Ensures.
  lemma CleanupIsAllowed(env: KeyCleanup.Env, wants: KeyCleanup.Wants, s: Status)
    requires Unique(s.ledger)
    ensures var p := KeyCleanup.AfterCleanup(env, wants, s.cloud, s.ledger);
      Allowed(s, Elsewhere(Status(p.ledger, p.world)))
  {
    var l := s.ledger;
    var step, start := KeyCleanup.Step(env, wants), Pass(s.cloud, l, [], false);
    KeyCleanup.StepIsLocal(env, wants);
    CleanupCreatesNone(env, wants, l, |l|, start);
    forall n ensures Keeps(Find(l, KMS, n), Find(Upto(step, l, |l|, start).ledger, KMS, n)) {
      if Find(l, KMS, n).None? {
        Outside(step, KMS, {KMS}, l, start, KMS, n);
      } else {
        FindSound(l, KMS, n);
        var k :| 0 <= k < |l| && l[k] == Find(l, KMS, n).value;
        AtEntry(step, KMS, {KMS}, l, k, start, KMS);
        EntryKeeps(env, wants, Upto(step, l, k, start), l[k]);
      }
    }
  }

  // ------------------------------------------------- which writes track a key

  function CreateAt(env: Env, s: KeySpec, w: Cloud): (Cloud, bool) {
    CreateKey(DescribeAlias(w, s.alias).0, s.name, s.minted, OwnerTags(env.cr))
  }

  // The call finds neither entry nor alias and so sends CreateKey.
  predicate Sends(s: KeySpec, a: Making) {
    !Live(a.ledger, s.name) && DescribeAlias(a.world, s.alias).1.NotFound?
  }

  predicate Answered(env: Env, s: KeySpec, a: Making) {
    Sends(s, a) && CreateAt(env, s, a.world).1
  }

  // The call creates a key and its checkpoint is not refused.
  predicate Checkpointed(env: Env, s: KeySpec, a: Making) {
    Answered(env, s, a) && !Next(CreateAt(env, s, a.world).0.faults).Refused?
  }

  lemma MakeTracks(env: Env, s: KeySpec, m: Making)
    requires !Live(m.ledger, s.name)
    ensures var (w0, made) := CreateKey(m.world, s.name, s.minted, OwnerTags(env.cr));
      var tagged, r := RecordKey(env, m.ledger, s, s.minted, TagPending), MakeKey(env, s, m);
      && r.stored == (if made && !Next(w0.faults).Refused? then tagged else m.stored)
      && (if made then r.ledger in {tagged, RecordKey(env, tagged, s, s.minted, Verified)} else r.ledger == m.ledger)
  {
  }

  // What one call does to the ledger in memory: a live entry stays with its
  // ARN, an answered creation makes one, and no other name is touched.
  lemma CallLedger(env: Env, s: KeySpec, a: Making, b: Making, n: string)
    requires StateStep(env, s, a, b)
    ensures Live(a.ledger, n) ==> Live(b.ledger, n) && Find(b.ledger, KMS, n).value.arn == Find(a.ledger, KMS, n).value.arn
    ensures n != s.name ==> Find(b.ledger, KMS, n) == Find(a.ledger, KMS, n)
    ensures Answered(env, s, a) ==> Live(b.ledger, s.name) && Find(b.ledger, KMS, s.name).value.arn == s.minted
  {
    StepOutcome(env, s, a, b);
    if Answered(env, s, a) {
      MakeTracks(env, s, a.(world := DescribeAlias(a.world, s.alias).0, ok := true));
      TaggedFinds(env, s, a.ledger, s.name);
    }
    TaggedFinds(env, s, a.ledger, n);
    OutcomeLedger(env, s, a, b, n);
  }

  lemma TaggedFinds(env: Env, s: KeySpec, l: seq<Entry>, n: string)
    ensures var tagged := RecordKey(env, l, s, s.minted, TagPending);
      var verified := RecordKey(env, tagged, s, s.minted, Verified);
      if n == s.name then
        && Live(tagged, n) && Find(tagged, KMS, n).value.arn == s.minted
        && Live(verified, n) && Find(verified, KMS, n).value.arn == s.minted
      else
        Find(tagged, KMS, n) == Find(l, KMS, n) && Find(verified, KMS, n) == Find(l, KMS, n)
  {
    var tagged := RecordKey(env, l, s, s.minted, TagPending);
    FindUpsert(l, Keyed(env, l, s, s.minted, TagPending), KMS, n);
    FindUpsert(tagged, Keyed(env, tagged, s, s.minted, Verified), KMS, n);
  }

  lemma OutcomeLedger(env: Env, s: KeySpec, a: Making, b: Making, n: string)
    requires Outcome(env, s, a, b)
    ensures Live(a.ledger, n) ==> Live(b.ledger, n) && Find(b.ledger, KMS, n).value.arn == Find(a.ledger, KMS, n).value.arn
    ensures n != s.name ==> Find(b.ledger, KMS, n) == Find(a.ledger, KMS, n)
  {
    TaggedFinds(env, s, a.ledger, n);
    if Live(a.ledger, s.name) {
      FindSound(a.ledger, KMS, s.name);
      var e := Find(a.ledger, KMS, s.name).value;
      FindUpsert(a.ledger, e.(policy := s.policy), KMS, n);
      FindUpsert(a.ledger, Keyed(env, a.ledger, s, e.arn, Verified), KMS, n);
    } else if b.world.created == a.world.created && b.ledger != a.ledger {
      var arn :| b.ledger == RecordKey(env, a.ledger, s, arn, Verified) && SightedSince(a.world, b.world, s.alias, arn);
      FindUpsert(a.ledger, Keyed(env, a.ledger, s, arn, Verified), KMS, n);
    }
  }

  // What one call does to the stored ledger: a checkpoint stores all of the
  // ledger in memory, and nothing else writes.
  lemma CallStored(env: Env, s: KeySpec, a: Making, b: Making)
    requires StateStep(env, s, a, b)
    ensures b.stored == if Checkpointed(env, s, a) then RecordKey(env, a.ledger, s, s.minted, TagPending) else a.stored
  {
    StepOutcome(env, s, a, b);
    if Sends(s, a) {
      MakeTracks(env, s, a.(world := DescribeAlias(a.world, s.alias).0, ok := true));
    } else {
      SentIff(env, s, a, b);
    }
  }

  // CreateKey is sent exactly where the call finds neither entry nor alias.
  lemma SentIff(env: Env, s: KeySpec, a: Making, b: Making)
    requires StateStep(env, s, a, b)
    ensures b.world.created == if Sends(s, a) then a.world.created + [s.name] else a.world.created
    ensures !Sends(s, a) ==> b.stored == a.stored
  {
    StepOutcome(env, s, a, b);
  }

  // t holds the states between the calls of the pass m.
  ghost predicate PassOf(s: Status, m: Move, t: seq<Making>) {
    m.EnsurePass? && States(m.env, m.specs, t) && t[0] == Making(s.cloud, s.ledger, s.ledger, true)
  }

  lemma {:induction false} PassEnds(env: Env, specs: seq<KeySpec>, t: seq<Making>, i: nat)
    requires States(env, specs, t) && i <= |specs|
    ensures t[i] == EnsureUpto(env, specs, i, t[0])
  {
    if i > 0 {
      PassEnds(env, specs, t, i - 1);
      assert CallAt(env, specs, t, i - 1);
    }
  }

  // At call j a key was created and its checkpoint was written.
  function SavedAt(m: Move, t: seq<Making>): nat -> bool {
    (j: nat) => m.EnsurePass? && j < |m.specs| && j < |t| && Checkpointed(m.env, m.specs[j], t[j])
  }

  // The key is in memory under its ARN, and in store exactly when it was saved.
  ghost predicate Tracked(n: string, arn: string, r: Making, saved: bool) {
    && Live(r.ledger, n) && Find(r.ledger, KMS, n).value.arn == arn
    && (Live(r.stored, n) <==> saved)
    && (Live(r.stored, n) ==> Find(r.stored, KMS, n).value.arn == arn)
  }

  lemma CallTracks(env: Env, s: KeySpec, a: Making, b: Making, n: string, arn: string, saved: bool)
    requires StateStep(env, s, a, b)
    requires Tracked(n, arn, a, saved) || (Answered(env, s, a) && n == s.name && arn == s.minted && !saved && !Live(a.stored, n))
    ensures Tracked(n, arn, b, saved || Checkpointed(env, s, a))
  {
    CallLedger(env, s, a, b, n);
    CallStored(env, s, a, b);
    TaggedFinds(env, s, a.ledger, n);
  }

  lemma CallKeepsStoredLive(env: Env, s: KeySpec, a: Making, b: Making, n: string)
    requires StateStep(env, s, a, b) && (Live(a.stored, n) ==> Live(a.ledger, n))
    ensures Live(b.stored, n) ==> Live(b.ledger, n)
  {
    CallLedger(env, s, a, b, n);
    CallStored(env, s, a, b);
    TaggedFinds(env, s, a.ledger, n);
  }

  // What is stored during a pass is never ahead of what is in memory.
  lemma {:induction false} StoredIsLive(s: Status, m: Move, t: seq<Making>, i: nat, n: string)
    requires PassOf(s, m, t) && i <= |m.specs|
    ensures Live(t[i].stored, n) ==> Live(t[i].ledger, n)
  {
    if i > 0 {
      StoredIsLive(s, m, t, i - 1, n);
      assert CallAt(m.env, m.specs, t, i - 1);
      CallKeepsStoredLive(m.env, m.specs[i - 1], t[i - 1], t[i], n);
    }
  }

  lemma CreatedNow(s: Status, m: Move, t: seq<Making>, k: nat)
    requires PassOf(s, m, t) && k < |m.specs| && Answered(m.env, m.specs[k], t[k])
    ensures Tracked(m.specs[k].name, m.specs[k].minted, t[k + 1], SavedAt(m, t)(k))
  {
    StoredIsLive(s, m, t, k, m.specs[k].name);
    assert CallAt(m.env, m.specs, t, k);
    CallTracks(m.env, m.specs[k], t[k], t[k + 1], m.specs[k].name, m.specs[k].minted, false);
  }

  ghost function TrackedAt(t: seq<Making>, n: string, arn: string): (nat, bool) -> bool {
    (j: nat, saved: bool) => j < |t| && Tracked(n, arn, t[j], saved)
  }

  lemma StaysTracked(s: Status, m: Move, t: seq<Making>, j: nat, n: string, arn: string, saved: bool)
    requires PassOf(s, m, t) && j < |m.specs|
    ensures Notes(TrackedAt(t, n, arn), SavedAt(m, t), j, saved)
  {
    if Tracked(n, arn, t[j], saved) {
      assert CallAt(m.env, m.specs, t, j);
      CallTracks(m.env, m.specs[j], t[j], t[j + 1], n, arn, saved);
    }
  }

  // A creation answered at call k is in memory from then on, and in store from
  // the first checkpoint written since.
  lemma CreatedIsTracked(s: Status, m: Move, t: seq<Making>, k: nat, n: string, arn: string)
    requires PassOf(s, m, t) && k < |m.specs| && Tracked(n, arn, t[k + 1], SavedAt(m, t)(k))
    ensures Tracked(n, arn, t[|m.specs|], Happened(SavedAt(m, t), k, |m.specs|))
  {
    var tracked, saved := TrackedAt(t, n, arn), SavedAt(m, t);
    forall j: nat, seen | k < j < |m.specs| ensures Notes(tracked, saved, j, seen) {
      StaysTracked(s, m, t, j, n, arn, seen);
    }
    Recorded(tracked, saved, k, |m.specs|);
  }

  // A key whose CreateKey was answered is in the stored ledger after the pass,
  // under its own ARN, exactly when the pass's last write got through or the
  // checkpoint of that creation or of a later one was written.
  lemma TrackedIffWritten(s: Status, m: Move, t: seq<Making>, k: nat)
    requires PassOf(s, m, t) && k < |m.specs| && Answered(m.env, m.specs[k], t[k])
    ensures var n, l := m.specs[k].name, After(s, m).ledger;
      && (Live(l, n) <==> m.persisted || Happened(SavedAt(m, t), k, |m.specs|))
      && (Live(l, n) ==> Find(l, KMS, n).value.arn == m.specs[k].minted)
  {
    CreatedNow(s, m, t, k);
    CreatedIsTracked(s, m, t, k, m.specs[k].name, m.specs[k].minted);
    PassEnds(m.env, m.specs, t, |m.specs|);
  }

  // Between two calls for a name, a pass leaves that name alone.
  lemma {:induction false} LeftBetween(env: Env, specs: seq<KeySpec>, t: seq<Making>, k: nat, i: nat, n: string)
    requires States(env, specs, t) && k <= i <= |specs| && forall j :: k <= j < i ==> specs[j].name != n
    ensures Find(t[i].ledger, KMS, n) == Find(t[k].ledger, KMS, n)
    decreases i
  {
    if k < i {
      LeftBetween(env, specs, t, k, i - 1, n);
      assert CallAt(env, specs, t, i - 1);
      CallLedger(env, specs[i - 1], t[i - 1], t[i], n);
    }
  }

  // A second key: a later pass over that stored ledger sends CreateKey for the
  // name again exactly when no write tracked the first key and the alias leads
  // nowhere.
  lemma SecondKeyIff(s: Status, m: Move, t: seq<Making>, k: nat, s2: Status, m2: Move, t2: seq<Making>, k2: nat)
    requires PassOf(s, m, t) && k < |m.specs| && Answered(m.env, m.specs[k], t[k])
    requires PassOf(s2, m2, t2) && k2 < |m2.specs| && s2.ledger == After(s, m).ledger
    requires m2.specs[k2].name == m.specs[k].name && forall j :: 0 <= j < k2 ==> m2.specs[j].name != m.specs[k].name
    ensures t2[k2 + 1].world.created == t2[k2].world.created + [m.specs[k].name] <==>
      && !m.persisted && !Happened(SavedAt(m, t), k, |m.specs|)
      && DescribeAlias(t2[k2].world, m2.specs[k2].alias).1.NotFound?
  {
    TrackedIffWritten(s, m, t, k);
    LeftBetween(m2.env, m2.specs, t2, 0, k2, m.specs[k].name);
    assert CallAt(m2.env, m2.specs, t2, k2);
    SentIff(m2.env, m2.specs[k2], t2[k2], t2[k2 + 1]);
  }

  lemma CallUnanswered(env: Env, s: KeySpec, a: Making, b: Making)
    requires StateStep(env, s, a, b) && Sends(s, a) && !Answered(env, s, a)
    ensures b.ledger == a.ledger
  {
    MakeTracks(env, s, a.(world := DescribeAlias(a.world, s.alias).0, ok := true));
  }

  // A key whose CreateKey was not answered is tracked by neither write.
  lemma UnansweredIsUntracked(s: Status, m: Move, t: seq<Making>, k: nat)
    requires PassOf(s, m, t) && k < |m.specs| && Sends(m.specs[k], t[k]) && !Answered(m.env, m.specs[k], t[k])
    requires forall j :: k < j < |m.specs| ==> m.specs[j].name != m.specs[k].name
    ensures !Live(After(s, m).ledger, m.specs[k].name)
  {
    assert CallAt(m.env, m.specs, t, k);
    CallUnanswered(m.env, m.specs[k], t[k], t[k + 1]);
    LeftBetween(m.env, m.specs, t, k + 1, |m.specs|, m.specs[k].name);
    StoredIsLive(s, m, t, |m.specs|, m.specs[k].name);
    PassEnds(m.env, m.specs, t, |m.specs|);
  }

  // A pass cut off between CreateKey and the checkpoint: the next pass finds
  // neither entry nor alias and creates a second key.
  lemma CutOffBeforeCheckpoint(env: Env, spec: KeySpec, other: KeySpec)
    requires other == spec.(minted := other.minted) && other.minted != spec.minted
    ensures var s := Status([], Cloud(map[], map[], [], [], [], [Fine, Fine, Refused, Fine, Fine, Fine]));
      var run := [EnsurePass(env, [spec], false), EnsurePass(env, [other], true)];
      var s1 := After(s, run[0]);
      var s2 := After(s1, run[1]);
      Run([s, s1, s2], run) && s2.cloud.created == [spec.name, spec.name] && {spec.minted, other.minted} <= s2.cloud.keys.Keys
  {
    var s := Status([], Cloud(map[], map[], [], [], [], [Fine, Fine, Refused, Fine, Fine, Fine]));
    var run := [EnsurePass(env, [spec], false), EnsurePass(env, [other], true)];
    var s1 := Status([], Cloud(map[spec.minted := Key(Enabled, OwnerTags(env.cr))], map[], [], [spec.name], [], [Fine, Fine, Fine]));
    CutOff(env, spec, s, s1);
    Again(env, other, s1);
    var trace := [s, s1, After(s1, run[1])];
    forall i | 0 <= i < |run| ensures StepAt(trace, run, i) {
      assert i == 0 || i == 1;
    }
  }

  lemma CutOff(env: Env, spec: KeySpec, s: Status, s1: Status)
    requires s == Status([], Cloud(map[], map[], [], [], [], [Fine, Fine, Refused, Fine, Fine, Fine]))
    requires s1 == Status([], Cloud(map[spec.minted := Key(Enabled, OwnerTags(env.cr))], map[], [], [spec.name], [], [Fine, Fine, Fine]))
    ensures After(s, EnsurePass(env, [spec], false)) == s1
  {
    var m := Making(s.cloud, [], [], true);
    assert s.cloud.faults[1..] == [Fine, Refused, Fine, Fine, Fine];
    assert s.cloud.faults[1..][1..] == [Refused, Fine, Fine, Fine];
    assert s.cloud.faults[1..][1..][1..] == [Fine, Fine, Fine];
    assert EnsureUpto(env, [spec], 0, m) == m;
    var (w1, found) := DescribeAlias(s.cloud, spec.alias);
    var (w2, made) := CreateKey(w1, spec.name, spec.minted, OwnerTags(env.cr));
    assert w2.created == [spec.name];
    assert EnsureKey(env, spec, m) == MakeKey(env, spec, m.(world := w1));
    assert EnsureKey(env, spec, m).stored == [] && EnsureKey(env, spec, m).world == s1.cloud;
  }

  lemma Again(env: Env, other: KeySpec, s1: Status)
    requires s1.ledger == [] && s1.cloud.aliases == map[] && s1.cloud.faults == [Fine, Fine, Fine]
    ensures var s2 := After(s1, EnsurePass(env, [other], true));
      s2.cloud.created == s1.cloud.created + [other.name] && s1.cloud.keys.Keys + {other.minted} <= s2.cloud.keys.Keys
  {
    var m := Making(s1.cloud, [], [], true);
    assert EnsureUpto(env, [other], 0, m) == m;
    var w1 := DescribeAlias(s1.cloud, other.alias).0;
    assert EnsureKey(env, other, m) == MakeKey(env, other, m.(world := w1));
    assert EnsureUpto(env, [other], 1, m).world == EnsureKey(env, other, m).world;
    MakeKeeps(env, other, m.(world := w1));
  }

  lemma MakeKeeps(env: Env, spec: KeySpec, m: Making)
    requires !Live(m.ledger, spec.name) && Next(m.world.faults).Fine?
    ensures MakeKey(env, spec, m).world.keys.Keys == m.world.keys.Keys + {spec.minted}
  {
    var (w0, made) := CreateKey(m.world, spec.name, spec.minted, OwnerTags(env.cr));
    assert made && w0.keys.Keys == m.world.keys.Keys + {spec.minted};
    assert MakeKey(env, spec, m).world.keys == w0.keys;
  }
}
