/**
 A declared table whose deny statement outlived its mark. The mark is the only
 thing by which a pass would lift the deny, so none does while the table stays
 declared.
 */
module TableLockouts {
  import opened Ledger
  import opened Sweep
  import opened TableCloud
  import opened TableCleanup
  import opened TableRuns
  import opened TableRestores

  // The table is tracked at its ARN without a mark, and denied.
  ghost predicate LockedOut(s: Status, n: string, arn: string) {
    && Unique(s.ledger) && Unmarked(s.ledger, n, arn)
    && arn in s.cloud.tables && s.cloud.tables[arn].denied
  }

  ghost predicate Unmarked(l: seq<Entry>, n: string, arn: string) {
    Alone(l, n, arn) && Find(l, DynamoDB, n).Some? && Find(l, DynamoDB, n).value.pendingSince.None?
  }

  // The spec declares n, at its ARN and nowhere else.
  ghost predicate Declares(m: Move, n: string, arn: string) {
    m.SectionPass? && !m.deleting && n in Names(m.specs) && forall s :: s in m.specs ==> (s.name == n <==> s.arn == arn)
  }

  // ----------------------------------------------------------------- Ensure

  lemma StateStaysUnmarked(env: Env, from: string, specs: seq<TableSpec>, k: nat, w: Cloud, l: seq<Entry>, n: string, arn: string)
    requires k <= |specs| && Unmarked(l, n, arn) && forall s :: s in specs ==> (s.name == n <==> s.arn == arn)
    ensures Unmarked(EnsureUpto(env, from, specs, k, w, l).ledger, n, arn)
    ensures DenyKept(w, EnsureUpto(env, from, specs, k, w, l).world, arn)
  {
    var t := EnsureStates(env, from, specs, w, l);
    assert t[0] == EnsureUpto(env, from, specs, 0, w, l);
    StatesKeep(env, from, specs, t, k, n, arn);
    StatesStayTracked(env, from, specs, t, k, n);
    EnsureFrame(env, from, specs, k, w, l, DynamoDB, n);
  }

  lemma {:induction false} StatesStayTracked(env: Env, from: string, specs: seq<TableSpec>, t: seq<Ensured>, k: nat, n: string)
    requires Ensures(env, from, specs, t) && k <= |specs| && Find(t[0].ledger, DynamoDB, n).Some?
    ensures Find(t[k].ledger, DynamoDB, n).Some?
  {
    if k > 0 {
      StatesStayTracked(env, from, specs, t, k - 1, n);
      assert TableAt(env, from, specs, t, k - 1);
      OneFrame(t[k - 1].ledger, t[k].ledger, specs[k - 1], DynamoDB, n);
    }
  }

  // ---------------------------------------------------------------- Cleanup

  // Cleanup does nothing about a declared table without a mark.
  lemma CleanupPassesBy(env: Env, declared: set<string>, w: Cloud, l: seq<Entry>, n: string, arn: string)
    requires Unique(l) && Unmarked(l, n, arn) && n in declared
    ensures var p := AfterCleanup(env, declared, w, l); Unmarked(p.ledger, n, arn) && SameAt(w, p.world, arn)
  {
    FindSound(l, DynamoDB, n);
    var k :| 0 <= k < |l| && l[k] == Find(l, DynamoDB, n).value;
    var step, start := Step(env, declared), Pass(w, l, [], false);
    StepFinds(env, declared, w, l, k, DynamoDB);
    assert step(Upto(step, l, k, start), l[k]) == Upto(step, l, k, start);
    OnlyOneHere(l, k);
    OthersLeaveIt(env, declared, l, 0, k, start, arn);
    OthersLeaveIt(env, declared, l, k + 1, |l|, start, arn);
    assert Upto(step, l, k + 1, start) == Upto(step, l, k, start);
    CleanupStaysAlone(env, declared, w, l, n, arn);
  }

  // ------------------------------------------------------------------ runs

  lemma PassLocksOut(s: Status, m: Move, n: string, arn: string)
    requires LockedOut(s, n, arn) && Declares(m, n, arn)
    ensures LockedOut(After(s, m), n, arn)
  {
    var en := EnsuredOf(s, m);
    PassKeepsUnique(s, m);
    StateStaysUnmarked(m.env, m.from, m.specs, |m.specs|, s.cloud, s.ledger, n, arn);
    CleanupPassesBy(m.env, DeclaredIn(m), en.world, en.ledger, n, arn);
    if m.persist.MidEnsure? && m.persist.k <= |m.specs| {
      StateStaysUnmarked(m.env, m.from, m.specs, m.persist.k, s.cloud, s.ledger, n, arn);
    }
  }

  lemma ElsewhereLocksOut(s: Status, m: Move, n: string, arn: string)
    requires LockedOut(s, n, arn) && m.Elsewhere? && Allowed(s, m) && DenyKept(s.cloud, m.next.cloud, arn)
    ensures LockedOut(After(s, m), n, arn)
  {
    var l, l' := s.ledger, m.next.ledger;
    assert SameLife(Find(l, DynamoDB, n), Find(l', DynamoDB, n));
    forall x | Find(l', DynamoDB, x).Some? ensures x == n <==> Find(l', DynamoDB, x).value.arn == arn {
      assert SameLife(Find(l, DynamoDB, x), Find(l', DynamoDB, x));
    }
  }

  // Every pass declares the table, and nobody else lifts the deny.
  ghost predicate StaysDeclared(s: Status, m: Move, n: string, arn: string) {
    if m.Elsewhere? then Allowed(s, m) && DenyKept(s.cloud, m.next.cloud, arn) else Declares(m, n, arn)
  }

  ghost predicate DeclaredAt(trace: seq<Status>, run: seq<Move>, k: nat, n: string, arn: string)
    requires k < |run| && |trace| == |run| + 1
  {
    StaysDeclared(trace[k], run[k], n, arn) && trace[k + 1] == After(trace[k], run[k])
  }

  lemma MoveLocksOut(s: Status, m: Move, n: string, arn: string)
    requires LockedOut(s, n, arn) && StaysDeclared(s, m, n, arn)
    ensures LockedOut(After(s, m), n, arn)
  {
    if m.Elsewhere? {
      ElsewhereLocksOut(s, m, n, arn);
    } else {
      PassLocksOut(s, m, n, arn);
    }
  }

  // Once the mark is gone and the deny is not, no later pass over the table,
  // declared as it is, lifts the deny, whatever fails and whatever is stored.
  lemma {:induction false} DenyIsNeverLifted(trace: seq<Status>, run: seq<Move>, i: nat, j: nat, n: string, arn: string)
    requires i <= j <= |run| && |trace| == |run| + 1 && LockedOut(trace[i], n, arn)
    requires forall k: nat :: i <= k < j ==> DeclaredAt(trace, run, k, n, arn)
    ensures LockedOut(trace[j], n, arn)
    decreases j - i
  {
    if i < j {
      DenyIsNeverLifted(trace, run, i, j - 1, n, arn);
      assert DeclaredAt(trace, run, j - 1, n, arn);
      MoveLocksOut(trace[j - 1], run[j - 1], n, arn);
    }
  }

  // A pass gets a table there exactly so: nothing in it fails, the entry had to
  // be verified again, and what is stored of the pass has the mark off.
  lemma LockedOutIff(s: Status, m: Move, n: string, e: Entry)
    requires Unique(s.ledger) && SawDeclared(s, m, n) && Located(s.ledger, m.specs)
    requires Find(s.ledger, DynamoDB, n) == Some(e) && e.pendingSince.Some?
    requires e.arn in s.cloud.tables && s.cloud.tables[e.arn].denied
    ensures LockedOut(After(s, m), n, e.arn) <==>
      && NeedsRevalidation(e, m.env.now)
      && (m.persist.Whole? || (m.persist.MidEnsure? && m.persist.k <= |m.specs| && n in Names(m.specs)[..m.persist.k]))
  {
    DenyStaysIff(s, m, n, e);
    MarkGoneIff(s, m, n, e);
    PassKeepsUnique(s, m);
    PassStaysAlone(s, m, n, e);
  }

  lemma PassStaysAlone(s: Status, m: Move, n: string, e: Entry)
    requires m.SectionPass? && Unique(s.ledger) && Located(s.ledger, m.specs) && Find(s.ledger, DynamoDB, n) == Some(e)
    ensures Alone(After(s, m).ledger, n, e.arn)
  {
    LocatedIsAlone(s.ledger, m.specs, n, e);
    FindSound(s.ledger, DynamoDB, n);
    var t := EnsureStates(m.env, m.from, m.specs, s.cloud, s.ledger);
    assert t[0] == EnsureUpto(m.env, m.from, m.specs, 0, s.cloud, s.ledger);
    StatesKeep(m.env, m.from, m.specs, t, |m.specs|, n, e.arn);
    if m.persist.Whole? {
      PassKeepsUnique(s, m);
      CleanupStaysAlone(m.env, DeclaredIn(m), EnsuredOf(s, m).world, EnsuredOf(s, m).ledger, n, e.arn);
    } else if m.persist.MidEnsure? && m.persist.k <= |m.specs| {
      StatesKeep(m.env, m.from, m.specs, t, m.persist.k, n, e.arn);
    }
  }

  lemma CleanupStaysAlone(env: Env, declared: set<string>, w: Cloud, l: seq<Entry>, n: string, arn: string)
    requires Unique(l) && Alone(l, n, arn)
    ensures Alone(AfterCleanup(env, declared, w, l).ledger, n, arn)
  {
    var l' := AfterCleanup(env, declared, w, l).ledger;
    forall x | Find(l', DynamoDB, x).Some? ensures x == n <==> Find(l', DynamoDB, x).value.arn == arn {
      CleanupMark(env, declared, w, l, x);
    }
  }
}
