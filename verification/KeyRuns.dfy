/**
 Runs of passes that make keys, with calls failing, replies lost, checkpoints
 lost and passes cut off anywhere: one key per name, and no Verified entry whose
 alias was never seen at its key.
 */
module KeyRuns {
  import opened Ledger
  import opened KmsCloud
  import opened KeyCreation
  import opened History

  datatype Status = Status(ledger: seq<Entry>, cloud: Cloud)

  // A pass whose last status write got through, or did not; or anything else
  // that happens to the ledger and to AWS between two passes.
  datatype Move =
    | EnsurePass(env: Env, specs: seq<KeySpec>, persisted: bool)
    | Elsewhere(next: Status)

  function After(s: Status, m: Move): Status {
    match m
    case Elsewhere(next) => next
    case EnsurePass(env, specs, persisted) =>
      var p := EnsureUpto(env, specs, |specs|, Making(s.cloud, s.ledger, s.ledger, true));
      Status(if persisted then p.ledger else p.stored, p.world)
  }

  // Outside of Ensure no key is created, no entry is given another key, and no
  // entry becomes Verified.
  ghost predicate Keeps(f: Option<Entry>, f': Option<Entry>) {
    f'.Some? && !f'.value.state.Relinquished? ==>
      && f.Some? && !f.value.state.Relinquished? && f'.value.arn == f.value.arn
      && (f'.value.state.Verified? ==> f.value.state.Verified? && f'.value.lastVerifiedAt == f.value.lastVerifiedAt)
  }

  ghost predicate Allowed(s: Status, m: Move) {
    m.Elsewhere? ==>
      m.next.cloud.created == s.cloud.created && forall n :: Keeps(Find(s.ledger, KMS, n), Find(m.next.ledger, KMS, n))
  }

  ghost predicate StepAt(trace: seq<Status>, run: seq<Move>, i: nat)
    requires i < |run| && |trace| == |run| + 1
  {
    Allowed(trace[i], run[i]) && trace[i + 1] == After(trace[i], run[i])
  }

  // A run: the states, and the move from each to the next; at first no key is Verified.
  ghost predicate Run(trace: seq<Status>, run: seq<Move>) {
    && |trace| == |run| + 1
    && (forall n :: Find(trace[0].ledger, KMS, n).Some? ==> !Find(trace[0].ledger, KMS, n).value.state.Verified?)
    && forall i :: 0 <= i < |run| ==> StepAt(trace, run, i)
  }

  // --------------------------------------------------------------- one pass

  // Everything a pass can have made of the entry f it began with.
  ghost predicate Accounted(m: Move, n: string, w: Cloud, w': Cloud, f: Option<Entry>, f': Option<Entry>)
    requires m.EnsurePass?
  {
    && (f.Some? && !f.value.state.Relinquished? ==>
          f'.Some? && !f'.value.state.Relinquished? && f'.value.arn == f.value.arn)
    && (f'.Some? && f'.value.state.Verified? ==>
          || (f.Some? && f.value.state.Verified? && f.value.arn == f'.value.arn && f.value.lastVerifiedAt == f'.value.lastVerifiedAt)
          || (f'.value.lastVerifiedAt == Some(m.env.now) && AliasSeen(m, n, w, w', f'.value.arn)))
  }

  // In this pass the alias of the key declared as n was found or made to point at arn.
  ghost predicate AliasSeen(m: Move, n: string, w: Cloud, w': Cloud, arn: string)
    requires m.EnsurePass?
  {
    exists s :: s in m.specs && s.name == n && SightedSince(w, w', s.alias, arn)
  }

  lemma SightLasts(m: Move, n: string, w: Cloud, a: Cloud, b: Cloud, arn: string)
    requires m.EnsurePass? && AliasSeen(m, n, w, a, arn) && a.sighted <= b.sighted
    ensures AliasSeen(m, n, w, b, arn)
  {
    var s :| s in m.specs && s.name == n && SightedSince(w, a, s.alias, arn);
    assert b.sighted[|w.sighted|..] == a.sighted[|w.sighted|..] + b.sighted[|a.sighted|..];
  }

  lemma SightEarlier(m: Move, s: KeySpec, w: Cloud, a: Cloud, b: Cloud, arn: string)
    requires m.EnsurePass? && s in m.specs && w.sighted <= a.sighted && SightedSince(a, b, s.alias, arn)
    ensures AliasSeen(m, s.name, w, b, arn)
  {
    assert b.sighted[|w.sighted|..] == a.sighted[|w.sighted|..] + b.sighted[|a.sighted|..];
  }

  lemma StillAccounted(m: Move, n: string, w: Cloud, a: Cloud, b: Cloud, f: Option<Entry>, f': Option<Entry>)
    requires m.EnsurePass? && Accounted(m, n, w, a, f, f') && a.sighted <= b.sighted
    ensures Accounted(m, n, w, b, f, f')
  {
    if f'.Some? && AliasSeen(m, n, w, a, f'.value.arn) {
      SightLasts(m, n, w, a, b, f'.value.arn);
    }
  }

  // One call keeps both ledgers accounted for. f is what the pass began with.
  lemma CallAccounted(m: Move, s: KeySpec, w: Cloud, a: Making, b: Making, n: string, f: Option<Entry>)
    requires m.EnsurePass? && Outcome(m.env, s, a, b) && s in m.specs && w.sighted <= a.world.sighted
    requires Accounted(m, n, w, a.world, f, Find(a.ledger, KMS, n)) && Accounted(m, n, w, a.world, f, Find(a.stored, KMS, n))
    ensures w.sighted <= b.world.sighted
    ensures Accounted(m, n, w, b.world, f, Find(b.ledger, KMS, n)) && Accounted(m, n, w, b.world, f, Find(b.stored, KMS, n))
  {
    StillAccounted(m, n, w, a.world, b.world, f, Find(a.ledger, KMS, n));
    StillAccounted(m, n, w, a.world, b.world, f, Find(a.stored, KMS, n));
    if Live(a.ledger, s.name) {
      LiveAccounted(m, s, w, a, b, n, f);
    } else {
      NewAccounted(m, s, w, a, b, n, f);
    }
  }

  lemma LiveAccounted(m: Move, s: KeySpec, w: Cloud, a: Making, b: Making, n: string, f: Option<Entry>)
    requires m.EnsurePass? && s in m.specs && w.sighted <= a.world.sighted
    requires Outcome(m.env, s, a, b) && Live(a.ledger, s.name)
    requires Accounted(m, n, w, b.world, f, Find(a.ledger, KMS, n))
    ensures Accounted(m, n, w, b.world, f, Find(b.ledger, KMS, n))
  {
    FindSound(a.ledger, KMS, s.name);
    var e := Find(a.ledger, KMS, s.name).value;
    FindUpsert(a.ledger, e.(policy := s.policy), KMS, n);
    FindUpsert(a.ledger, Keyed(m.env, a.ledger, s, e.arn, Verified), KMS, n);
    if SightedSince(a.world, b.world, s.alias, e.arn) {
      SightEarlier(m, s, w, a.world, b.world, e.arn);
    }
  }

  lemma NewAccounted(m: Move, s: KeySpec, w: Cloud, a: Making, b: Making, n: string, f: Option<Entry>)
    requires m.EnsurePass? && s in m.specs && w.sighted <= a.world.sighted
    requires Outcome(m.env, s, a, b) && !Live(a.ledger, s.name)
    requires Accounted(m, n, w, b.world, f, Find(a.ledger, KMS, n)) && Accounted(m, n, w, b.world, f, Find(a.stored, KMS, n))
    ensures Accounted(m, n, w, b.world, f, Find(b.ledger, KMS, n)) && Accounted(m, n, w, b.world, f, Find(b.stored, KMS, n))
  {
    if b.world.created == a.world.created && b.ledger != a.ledger {
      var arn :| b.ledger == RecordKey(m.env, a.ledger, s, arn, Verified) && SightedSince(a.world, b.world, s.alias, arn);
      FindUpsert(a.ledger, Keyed(m.env, a.ledger, s, arn, Verified), KMS, n);
      SightEarlier(m, s, w, a.world, b.world, arn);
    } else if b.world.created != a.world.created {
      var tagged := RecordKey(m.env, a.ledger, s, s.minted, TagPending);
      FindUpsert(a.ledger, Keyed(m.env, a.ledger, s, s.minted, TagPending), KMS, n);
      FindUpsert(tagged, Keyed(m.env, tagged, s, s.minted, Verified), KMS, n);
      if SightedSince(a.world, b.world, s.alias, s.minted) {
        SightEarlier(m, s, w, a.world, b.world, s.minted);
      }
    }
  }

  lemma LastOutcome(env: Env, specs: seq<KeySpec>, t: seq<Making>, k: nat)
    requires States(env, specs, t) && 0 < k < |t|
    ensures Outcome(env, specs[k - 1], t[k - 1], t[k])
  {
    assert CallAt(env, specs, t, k - 1);
    StepOutcome(env, specs[k - 1], t[k - 1], t[k]);
  }

  lemma {:induction false} CallsAccounted(m: Move, t: seq<Making>, k: nat, n: string)
    requires m.EnsurePass? && States(m.env, m.specs, t) && k < |t| && t[0].ledger == t[0].stored
    ensures var w, f := t[0].world, Find(t[0].ledger, KMS, n);
      && w.sighted <= t[k].world.sighted
      && Accounted(m, n, w, t[k].world, f, Find(t[k].ledger, KMS, n)) && Accounted(m, n, w, t[k].world, f, Find(t[k].stored, KMS, n))
  {
    if k > 0 {
      CallsAccounted(m, t, k - 1, n);
      LastOutcome(m.env, m.specs, t, k);
      CallAccounted(m, m.specs[k - 1], t[0].world, t[k - 1], t[k], n, Find(t[0].ledger, KMS, n));
    }
  }

  lemma {:induction false} CallsCreateNone(m: Move, t: seq<Making>, k: nat, n: string)
    requires m.EnsurePass? && States(m.env, m.specs, t) && k < |t| && t[0].ledger == t[0].stored && Live(t[0].ledger, n)
    ensures t[0].world.created <= t[k].world.created && n !in t[k].world.created[|t[0].world.created|..]
  {
    if k > 0 {
      CallsCreateNone(m, t, k - 1, n);
      CallsAccounted(m, t, k - 1, n);
      LastOutcome(m.env, m.specs, t, k);
    }
  }

  // A pass leaves every entry accounted for, in memory and in store; and one
  // that begins with a live entry sends no CreateKey for it.
  lemma PassAccounted(s: Status, m: Move, n: string)
    requires m.EnsurePass?
    ensures Accounted(m, n, s.cloud, After(s, m).cloud, Find(s.ledger, KMS, n), Find(After(s, m).ledger, KMS, n))
    ensures var a, b := s.cloud.created, After(s, m).cloud.created;
      Live(s.ledger, n) ==> a <= b && n !in b[|a|..]
  {
    var t := PassStates(m.env, m.specs, Making(s.cloud, s.ledger, s.ledger, true));
    CallsAccounted(m, t, |m.specs|, n);
    if Live(s.ledger, n) {
      CallsCreateNone(m, t, |m.specs|, n);
    }
  }

  // ------------------------------------------------------------------- runs

  // From move i to move j nothing but Ensure had the entry of n dropped or relinquished.
  ghost predicate NotLetGo(run: seq<Move>, i: nat, j: nat, n: string)
    requires i <= j <= |run|
  {
    forall k :: i <= k < j && run[k].Elsewhere? ==> Live(run[k].next.ledger, n)
  }

  // Once an entry is stored, whatever fails later, no second key is created for
  // its name and its ARN stays, until something lets the entry go.
  lemma {:induction false} OneKeyPerName(trace: seq<Status>, run: seq<Move>, i: nat, j: nat, n: string)
    requires Run(trace, run) && i <= j <= |run|
    requires Live(trace[i].ledger, n) && NotLetGo(run, i, j, n)
    ensures var a, b := trace[i], trace[j];
      && Live(b.ledger, n)
      && Find(b.ledger, KMS, n).value.arn == Find(a.ledger, KMS, n).value.arn
      && a.cloud.created <= b.cloud.created && n !in b.cloud.created[|a.cloud.created|..]
    decreases j - i
  {
    if i < j {
      OneKeyPerName(trace, run, i, j - 1, n);
      MoveKeepsKey(trace, run, j - 1, n);
      NoneInTwo(trace[i].cloud.created, trace[j - 1].cloud.created, trace[j].cloud.created, n);
    }
  }

  lemma NoneInTwo(a: seq<string>, b: seq<string>, c: seq<string>, n: string)
    requires a <= b <= c && n !in b[|a|..] && n !in c[|b|..]
    ensures n !in c[|a|..]
  {
    assert c[|a|..] == b[|a|..] + c[|b|..];
  }

  lemma MoveKeepsKey(trace: seq<Status>, run: seq<Move>, k: nat, n: string)
    requires Run(trace, run) && k < |run| && Live(trace[k].ledger, n)
    requires run[k].Elsewhere? ==> Live(run[k].next.ledger, n)
    ensures var a, b := trace[k], trace[k + 1];
      && Live(b.ledger, n)
      && Find(b.ledger, KMS, n).value.arn == Find(a.ledger, KMS, n).value.arn
      && a.cloud.created <= b.cloud.created && n !in b.cloud.created[|a.cloud.created|..]
  {
    assert StepAt(trace, run, k);
    if run[k].EnsurePass? {
      PassAccounted(trace[k], run[k], n);
    } else {
      assert Keeps(Find(trace[k].ledger, KMS, n), Find(run[k].next.ledger, KMS, n));
    }
  }

  datatype Verification = Verification(arn: string, at: Option<int>)

  // The history of n's verification over a run.
  ghost function VerifiedAt(trace: seq<Status>, n: string): nat -> Option<Verification> {
    (k: nat) =>
      if k >= |trace| || Find(trace[k].ledger, KMS, n).None? then None
      else
        var e := Find(trace[k].ledger, KMS, n).value;
        if e.state.Verified? then Some(Verification(e.arn, e.lastVerifiedAt)) else None
  }

  // A pass at that time in which the alias was found or made to point at the ARN.
  ghost function EarnedAt(trace: seq<Status>, run: seq<Move>, n: string): (nat, Verification) -> bool {
    (i: nat, v: Verification) =>
      && i < |run| && i + 1 < |trace| && run[i].EnsurePass? && v.at == Some(run[i].env.now)
      && AliasSeen(run[i], n, trace[i].cloud, trace[i + 1].cloud, v.arn)
  }

  // In every reachable state a Verified key was verified by an earlier pass in
  // which its alias was found or made to point at its ARN.
  lemma VerifiedIsEarned(trace: seq<Status>, run: seq<Move>, k: nat, n: string)
    requires Run(trace, run) && k <= |run|
    requires Find(trace[k].ledger, KMS, n).Some? && Find(trace[k].ledger, KMS, n).value.state.Verified?
    ensures var e := Find(trace[k].ledger, KMS, n).value;
      exists i: nat :: i < k && EarnedAt(trace, run, n)(i, Verification(e.arn, e.lastVerifiedAt))
  {
    var verified, earned, never := VerifiedAt(trace, n), EarnedAt(trace, run, n), (j: nat) => false;
    assert verified(0).None?;
    forall j: nat | j < k ensures MakesOrKeeps(verified, earned, never, j) {
      VerifiedStep(trace, run, j, n);
    }
    GoesBack(verified, earned, never, k);
  }

  lemma VerifiedStep(trace: seq<Status>, run: seq<Move>, j: nat, n: string)
    requires Run(trace, run) && j < |run|
    ensures MakesOrKeeps(VerifiedAt(trace, n), EarnedAt(trace, run, n), (j: nat) => false, j)
  {
    var s, m, s' := trace[j], run[j], trace[j + 1];
    assert StepAt(trace, run, j);
    MoveVerifies(s, m, n);
    if VerifiedAt(trace, n)(j + 1).Some? && VerifiedAt(trace, n)(j + 1) != VerifiedAt(trace, n)(j) {
      var e := Find(s'.ledger, KMS, n).value;
      assert AliasSeen(m, n, s.cloud, s'.cloud, e.arn);
      assert EarnedAt(trace, run, n)(j, Verification(e.arn, e.lastVerifiedAt));
    }
  }

  // A key that is Verified after a move was so before it, or was verified by it.
  lemma MoveVerifies(s: Status, m: Move, n: string)
    requires Allowed(s, m)
    ensures var f, f' := Find(s.ledger, KMS, n), Find(After(s, m).ledger, KMS, n);
      f'.Some? && f'.value.state.Verified? ==>
        || (f.Some? && f.value.state.Verified? && f.value.arn == f'.value.arn && f.value.lastVerifiedAt == f'.value.lastVerifiedAt)
        || (m.EnsurePass? && f'.value.lastVerifiedAt == Some(m.env.now) && AliasSeen(m, n, s.cloud, After(s, m).cloud, f'.value.arn))
  {
    if m.EnsurePass? {
      PassAccounted(s, m, n);
    } else {
      assert Keeps(Find(s.ledger, KMS, n), Find(m.next.ledger, KMS, n));
    }
  }
}
