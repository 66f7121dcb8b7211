/**
 What Cleanup owes a table: after a pass without an error each table entry and
 the table behind it are exactly where its declaration, its policy, its clock
 and its items put them.
 */
module TableEndings {
  import opened Ledger
  import opened Sweep
  import opened Ownership
  import opened Naming
  import opened Decisions
  import opened TableCloud
  import opened TableCleanup
  import opened TableRestores

  // Declared again: the mark goes, and the deny with it if there was a mark.
  ghost predicate GivenBack(e: Entry, t: Option<Table>, t': Option<Table>, f: Option<Entry>) {
    if e.pendingSince.None? then t' == t && f == Some(e)
    else
      && f == Some(e.(pendingSince := None, lastEmptyCheckAt := None))
      && (if t.None? then t'.None? else t' == Some(t.value.(denied := false)))
  }

  // Let go of: no deny is left of a pending deletion, and no owner tag, unless
  // the entry was relinquished and need not be looked at again.
  ghost predicate LetGoOf(env: Env, e: Entry, pins: bool, t: Option<Table>, t': Option<Table>, f: Option<Entry>) {
    && (t.None? <==> t'.None?)
    && (e.pendingSince.Some? && t'.Some? ==> !t'.value.denied)
    && (if e.state.Relinquished? && !pins then f.None?
        else if e.state.Relinquished? && e.lastVerifiedAt.Some? && env.now - e.lastVerifiedAt.value <= 24 * HOUR then f == Some(e)
        else if t.None? then f.None?
        else && !IsOwnedBy(t'.value.tags, env.cr) && t'.value.items == t.value.items
             && (if pins then f == Some(e.(state := Relinquished, lastVerifiedAt := Some(env.now))) else f.None?))
  }

  // To be deleted without force: marked and denied first, then left for ten
  // minutes and between two checks, and deleted when a check finds it empty.
  ghost predicate WoundDown(env: Env, e: Entry, t: Option<Table>, t': Option<Table>, f: Option<Entry>) {
    if e.pendingSince.Some? && (env.now - e.pendingSince.value < 10 * MINUTE || !NeedsEmptyCheck(e, env.now)) then t' == t && f == Some(e)
    else if t.None? then t'.None? && f.None?
    else
      && IsOwnedBy(t.value.tags, env.cr)
      && (if e.pendingSince.None? then t' == Some(t.value.(denied := true)) && f == Some(e.(pendingSince := Some(env.now)))
          else if t.value.items != 0 then t' == t && f == Some(e.(lastEmptyCheckAt := Some(env.now)))
          else t'.None? && f.None?)
  }

  // To be deleted with force: gone at once.
  ghost predicate Forcibly(env: Env, t: Option<Table>, t': Option<Table>, f: Option<Entry>) {
    t'.None? && f.None? && (t.Some? ==> IsOwnedBy(t.value.tags, env.cr))
  }

  ghost predicate Ended(env: Env, declared: set<string>, e: Entry, pins: bool, t: Option<Table>, t': Option<Table>, f: Option<Entry>) {
    if e.name in declared then GivenBack(e, t, t', f)
    else if e.policy == Retain then LetGoOf(env, e, pins, t, t', f)
    else if e.force || env.forceDeleteAll then Forcibly(env, t, t', f)
    else WoundDown(env, e, t, t', f)
  }

  // ---------------------------------------------------------------- the calls

  lemma LiftsDeny(w: Cloud, arn: string)
    ensures var (w', ok) := RemoveDeny(w, arn);
      ok ==> TableOf(w', arn) == if arn in w.tables then Some(w.tables[arn].(denied := false)) else None
  {
  }

  lemma PutsDeny(w: Cloud, arn: string)
    ensures var (w', ok) := AddDeny(w, arn);
      ok ==> arn in w.tables && TableOf(w', arn) == Some(w.tables[arn].(denied := true))
  {
  }

  lemma LetsGo(env: Env, w: Cloud, arn: string)
    ensures var (w', letting) := LetGo(env, w, arn);
      var t, t' := TableOf(w, arn), TableOf(w', arn);
      && (letting.Gone? ==> t.None? && t'.None?)
      && (letting.Kept? ==> t.Some? && t' == Some(t.value.(tags := t'.value.tags)) && !IsOwnedBy(t'.value.tags, env.cr))
  {
    if arn in w.tables {
      TagsAreMine(w.tables[arn].tags, env.cr);
    }
  }

  lemma RestoreEnds(p: TablePass, e: Entry)
    requires e.rtype == DynamoDB && Find(p.ledger, DynamoDB, e.name) == Some(e) && !AfterRestore(p, e).failed
    ensures var q := AfterRestore(p, e);
      GivenBack(e, TableOf(p.world, e.arn), TableOf(q.world, e.arn), Find(q.ledger, DynamoDB, e.name))
  {
    LiftsDeny(p.world, e.arn);
    FindUpsert(p.ledger, e.(pendingSince := None, lastEmptyCheckAt := None), DynamoDB, e.name);
  }

  lemma SettleEnds(env: Env, p: TablePass, e: Entry, pins: bool)
    requires e.rtype == DynamoDB && Find(p.ledger, DynamoDB, e.name) == Some(e) && !Settle(env, p, e, pins).failed
    ensures var q := Settle(env, p, e, pins);
      var t, t', f := TableOf(p.world, e.arn), TableOf(q.world, e.arn), Find(q.ledger, DynamoDB, e.name);
      if t.None? then t'.None? && f.None?
      else && t'.Some? && t' == Some(t.value.(tags := t'.value.tags)) && !IsOwnedBy(t'.value.tags, env.cr)
           && (if pins then f == Some(e.(state := Relinquished, lastVerifiedAt := Some(env.now))) else f.None?)
  {
    LetsGo(env, p.world, e.arn);
    FindRemove(p.ledger, DynamoDB, e.name, DynamoDB, e.name);
    FindUpsert(p.ledger, Relinquish(e, env.now), DynamoDB, e.name);
  }

  lemma RetainEnds(env: Env, p: TablePass, e: Entry)
    requires e.rtype == DynamoDB && Find(p.ledger, DynamoDB, e.name) == Some(e) && !AfterRetain(env, p, e).failed
    ensures var q := AfterRetain(env, p, e);
      LetGoOf(env, e, PinsAKey(p.ledger, DynamoDB, e), TableOf(p.world, e.arn), TableOf(q.world, e.arn), Find(q.ledger, DynamoDB, e.name))
  {
    var w := if e.pendingSince.Some? then RemoveDeny(p.world, e.arn).0 else p.world;
    LiftsDeny(p.world, e.arn);
    FindRemove(p.ledger, DynamoDB, e.name, DynamoDB, e.name);
    var pins := PinsAKey(p.ledger, DynamoDB, e);
    if !e.state.Relinquished? || (pins && NeedsRelinquishedRecheck(e, env.now)) {
      assert AfterRetain(env, p, e) == Settle(env, p.(world := w), e, pins);
      SettleEnds(env, p.(world := w), e, pins);
    }
  }

  lemma Deletes(env: Env, p: TablePass, e: Entry)
    requires e.rtype == DynamoDB && !AfterDeleteTable(env, p, e).failed
    ensures var q := AfterDeleteTable(env, p, e);
      TableOf(q.world, e.arn).None? && Find(q.ledger, DynamoDB, e.name).None?
  {
    FindRemove(p.ledger, DynamoDB, e.name, DynamoDB, e.name);
  }

  // The gate, once the table is known to be the CR's.
  lemma GateEnds(env: Env, p: TablePass, e: Entry)
    requires e.rtype == DynamoDB && Find(p.ledger, DynamoDB, e.name) == Some(e) && !GateOnEmpty(env, p, e).0.failed
    ensures var (q, proceed) := GateOnEmpty(env, p, e);
      var t, t', f := TableOf(p.world, e.arn), TableOf(q.world, e.arn), Find(q.ledger, DynamoDB, e.name);
      && t.Some? && (proceed <==> e.pendingSince.Some? && t.value.items == 0)
      && (e.pendingSince.None? ==> t' == Some(t.value.(denied := true)) && f == Some(e.(pendingSince := Some(env.now))))
      && (e.pendingSince.Some? && t.value.items != 0 ==> t' == t && f == Some(e.(lastEmptyCheckAt := Some(env.now))))
  {
    if e.pendingSince.None? {
      PutsDeny(p.world, e.arn);
      FindUpsert(p.ledger, e.(pendingSince := Some(env.now)), DynamoDB, e.name);
    } else {
      var x := e.(lastEmptyCheckAt := Some(env.now));
      FindUpsert(p.ledger, x, DynamoDB, e.name);
      assert x.(pendingSince := Some(x.pendingSince.value)) == x;
    }
  }

  lemma DeleteEnds(env: Env, p: TablePass, e: Entry)
    requires e.rtype == DynamoDB && Find(p.ledger, DynamoDB, e.name) == Some(e) && !AfterDelete(env, p, e).failed
    ensures var q := AfterDelete(env, p, e);
      var t, t', f := TableOf(p.world, e.arn), TableOf(q.world, e.arn), Find(q.ledger, DynamoDB, e.name);
      if Forced(env, e) then Forcibly(env, t, t', f) else WoundDown(env, e, t, t', f)
  {
    if Forced(env, e) || !Waits(env, e) {
      var (w1, tags) := ListTags(p.world, e.arn);
      var p1 := p.(world := w1);
      FindRemove(p.ledger, DynamoDB, e.name, DynamoDB, e.name);
      if tags.Answer? && IsOwnedBy(tags.value, env.cr) {
        if Forced(env, e) {
          Deletes(env, p1, e);
        } else {
          GatedEnds(env, p, p1, e);
        }
      }
    }
  }

  lemma GatedEnds(env: Env, p: TablePass, p1: TablePass, e: Entry)
    requires e.rtype == DynamoDB && Find(p.ledger, DynamoDB, e.name) == Some(e) && !AfterDelete(env, p, e).failed
    requires !Forced(env, e) && !Waits(env, e)
    requires var (w1, tags) := ListTags(p.world, e.arn);
      tags.Answer? && IsOwnedBy(tags.value, env.cr) && p1 == p.(world := w1)
    ensures var q := AfterDelete(env, p, e);
      WoundDown(env, e, TableOf(p.world, e.arn), TableOf(q.world, e.arn), Find(q.ledger, DynamoDB, e.name))
  {
    var (p2, proceed) := GateOnEmpty(env, p1, e);
    assert AfterDelete(env, p, e) == if proceed then AfterDeleteTable(env, p2, e) else p2;
    GateEnds(env, p1, e);
    if proceed {
      Deletes(env, p2, e);
    }
  }

  lemma EntryEnds(env: Env, declared: set<string>, p: TablePass, e: Entry)
    requires e.rtype == DynamoDB && Find(p.ledger, DynamoDB, e.name) == Some(e) && !AfterEntry(env, declared, p, e).failed
    ensures var q := AfterEntry(env, declared, p, e);
      Ended(env, declared, e, PinsAKey(p.ledger, DynamoDB, e), TableOf(p.world, e.arn), TableOf(q.world, e.arn), Find(q.ledger, DynamoDB, e.name))
  {
    if e.name in declared {
      RestoreEnds(p, e);
    } else if e.policy == Retain {
      RetainEnds(env, p, e);
    } else {
      DeleteEnds(env, p, e);
    }
  }

  // ------------------------------------------------------------------ a pass

  lemma StillPins(env: Env, declared: set<string>, w: Cloud, l: seq<Entry>, k: nat, e: Entry)
    requires k <= |l|
    ensures PinsAKey(Upto(Step(env, declared), l, k, Pass(w, l, [], false)).ledger, DynamoDB, e) == PinsAKey(l, DynamoDB, e)
  {
    StepIsLocal(env, declared);
    Untouched(Step(env, declared), DynamoDB, {DynamoDB}, l, 0, k, Pass(w, l, [], false), KMS, DedicatedKeyLedgerName(DynamoDB, BaseName(e.name)));
  }

  // After a pass without an error, over any unique ledger in which no other
  // table has its ARN, every table entry has come to its end.
  lemma PassEnds(env: Env, declared: set<string>, w: Cloud, l: seq<Entry>, e: Entry)
    requires Unique(l) && e in l && e.rtype == DynamoDB && Alone(l, e.name, e.arn) && !AfterCleanup(env, declared, w, l).failed
    ensures var p := AfterCleanup(env, declared, w, l);
      Ended(env, declared, e, PinsAKey(l, DynamoDB, e), TableOf(w, e.arn), TableOf(p.world, e.arn), Find(p.ledger, DynamoDB, e.name))
  {
    var step, start := Step(env, declared), Pass(w, l, [], false);
    var k :| 0 <= k < |l| && l[k] == e;
    OnlyOneHere(l, k);
    OthersLeaveIt(env, declared, l, 0, k, start, e.arn);
    OthersLeaveIt(env, declared, l, k + 1, |l|, start, e.arn);
    StepFinds(env, declared, w, l, k, DynamoDB);
    StepIsSteady(env, declared);
    NotFailedAt(step, l, k, start);
    StillPins(env, declared, w, l, k, e);
    EntryEnds(env, declared, Upto(step, l, k, start), e);
  }

  // ------------------------------------------------------ when nothing fails

  // A table to be deleted, and not waited for, is there and not this CR's, or
  // its name cannot be read off its ARN.
  ghost predicate Unable(env: Env, declared: set<string>, e: Entry, t: Option<Table>) {
    && e.rtype == DynamoDB && e.name !in declared && e.policy == Delete && t.Some?
    && (e.force || env.forceDeleteAll || e.pendingSince.None?
        || (env.now - e.pendingSince.value >= 10 * MINUTE && NeedsEmptyCheck(e, env.now)))
    && (|| !IsOwnedBy(t.value.tags, env.cr)
        || (!NamedInARN(e.arn) && (e.force || env.forceDeleteAll || e.pendingSince.Some?)))
  }

  lemma CallsWork(env: Env, w: Cloud, arn: string)
    requires w.faults == []
    ensures RemoveDeny(w, arn).1 && RemoveDeny(w, arn).0.faults == []
    ensures AddDeny(w, arn).0.faults == [] && (arn in w.tables ==> AddDeny(w, arn).1)
    ensures LetGo(env, w, arn).0.faults == [] && !LetGo(env, w, arn).1.Broken?
  {
  }

  lemma RetainWorks(env: Env, p: TablePass, e: Entry)
    requires e.rtype == DynamoDB && p.world.faults == []
    ensures AfterRetain(env, p, e).world.faults == [] && AfterRetain(env, p, e).failed == p.failed
  {
    CallsWork(env, p.world, e.arn);
    var w := if e.pendingSince.Some? then RemoveDeny(p.world, e.arn).0 else p.world;
    SettleWorks(env, p.(world := w), e, PinsAKey(p.ledger, DynamoDB, e));
  }

  lemma SettleWorks(env: Env, p: TablePass, e: Entry, pins: bool)
    requires e.rtype == DynamoDB && p.world.faults == []
    ensures Settle(env, p, e, pins).world.faults == [] && Settle(env, p, e, pins).failed == p.failed
  {
    CallsWork(env, p.world, e.arn);
  }

  lemma DeleteWorks(env: Env, p: TablePass, e: Entry)
    requires e.rtype == DynamoDB && p.world.faults == []
    ensures var q := AfterDeleteTable(env, p, e); q.world.faults == [] && (q.failed <==> p.failed || !NamedInARN(e.arn))
  {
  }

  lemma GateWorks(env: Env, p: TablePass, e: Entry)
    requires e.rtype == DynamoDB && p.world.faults == [] && e.arn in p.world.tables
    ensures var (q, proceed) := GateOnEmpty(env, p, e);
      && q.world.faults == [] && (q.failed <==> p.failed || (e.pendingSince.Some? && !NamedInARN(e.arn)))
      && (proceed ==> NamedInARN(e.arn))
  {
    CallsWork(env, p.world, e.arn);
  }

  lemma DeleteFails(env: Env, p: TablePass, e: Entry)
    requires e.rtype == DynamoDB && e.policy == Delete && p.world.faults == []
    ensures var q := AfterDelete(env, p, e);
      q.world.faults == [] && (q.failed <==> p.failed || Unable(env, {}, e, TableOf(p.world, e.arn)))
  {
    if Forced(env, e) || !Waits(env, e) {
      var (w1, tags) := ListTags(p.world, e.arn);
      var p1 := p.(world := w1);
      if tags.Answer? && IsOwnedBy(tags.value, env.cr) {
        DeleteWorks(env, p1, e);
        if !Forced(env, e) {
          GateWorks(env, p1, e);
          var (p2, proceed) := GateOnEmpty(env, p1, e);
          DeleteWorks(env, p2, e);
          assert AfterDelete(env, p, e) == if proceed then AfterDeleteTable(env, p2, e) else p2;
        }
      }
    }
  }

  lemma EntryFails(env: Env, declared: set<string>, p: TablePass, e: Entry)
    requires p.world.faults == []
    ensures var q := AfterEntry(env, declared, p, e);
      q.world.faults == [] && (q.failed <==> p.failed || Unable(env, declared, e, TableOf(p.world, e.arn)))
  {
    if e.rtype == DynamoDB {
      if e.name in declared {
        CallsWork(env, p.world, e.arn);
      } else if e.policy == Retain {
        RetainWorks(env, p, e);
      } else {
        DeleteFails(env, p, e);
      }
    }
  }

  lemma FaultsStayAway(env: Env, declared: set<string>, w: Cloud, l: seq<Entry>, k: nat)
    requires w.faults == [] && k <= |l|
    ensures Upto(Step(env, declared), l, k, Pass(w, l, [], false)).world.faults == []
  {
    var quiet := (q: TablePass) => q.world.faults == [];
    forall q, e | quiet(q) ensures quiet(Step(env, declared)(q, e)) {
      EntryFails(env, declared, q, e);
    }
    Lasts(Step(env, declared), l, 0, k, Pass(w, l, [], false), quiet);
  }

  // No two table entries record one ARN.
  ghost predicate DistinctTableARNs(l: seq<Entry>) {
    forall i, j :: 0 <= i < j < |l| && l[i].rtype == DynamoDB && l[j].rtype == DynamoDB ==> l[i].arn != l[j].arn
  }

  // With every call answered, a pass fails exactly if the ledger has a table it
  // is to delete and cannot.
  lemma PassFailsIff(env: Env, declared: set<string>, w: Cloud, l: seq<Entry>)
    requires DistinctTableARNs(l) && w.faults == []
    ensures AfterCleanup(env, declared, w, l).failed <==> exists e :: e in l && Unable(env, declared, e, TableOf(w, e.arn))
  {
    var step, start := Step(env, declared), Pass(w, l, [], false);
    var cause := (i: nat) => i < |l| && Unable(env, declared, l[i], TableOf(w, l[i].arn));
    forall i: nat | i < |l| ensures FailsAt(step, l, i, start, cause) {
      FaultsStayAway(env, declared, w, l, i);
      EntryFails(env, declared, Upto(step, l, i, start), l[i]);
      if l[i].rtype == DynamoDB {
        OthersLeaveIt(env, declared, l, 0, i, start, l[i].arn);
      }
    }
    FailsIff(step, l, |l|, start, cause);
    if e :| e in l && Unable(env, declared, e, TableOf(w, e.arn)) {
      var i :| 0 <= i < |l| && l[i] == e;
      assert cause(i);
    }
  }
}
