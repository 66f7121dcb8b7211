/**
 What an instance cleanup that neither failed nor reported a wait leaves behind.
 */
module InstanceFinalize {
  import opened Ledger
  import opened Sweep
  import opened Ownership
  import opened InstanceCloud
  import opened InstanceCleanup

  predicate Waiting(r: Result) {
    r.reason.Pending? || r.reason.Stuck?
  }

  ghost predicate LetGoOf(p: InstancePass, n: string) {
    Find(p.ledger, RDS, n).None? || Find(p.ledger, RDS, n).value.state.Relinquished?
  }

  lemma PendSettles(env: Env, p: InstancePass, e: Entry)
    requires e.rtype == RDS
    ensures Unfinished(AfterPend(env, p, e), Waiting) || LetGoOf(AfterPend(env, p, e), e.name)
  {
    var q := AfterPend(env, p, e);
    FindRemove(p.ledger, RDS, e.name, RDS, e.name);
    var (w, tags) := ListTags(p.world, e.arn);
    if tags.Answer? && IsOwnedBy(tags.value, env.cr) {
      if e.pendingSince.None? {
        assert Waiting(q.results[|p.results|]);
      } else {
        var p2 := Report(p.(world := w), e.name, PendingReason(env.now, e.pendingSince.value));
        assert p2.results <= q.results;
        assert q.results[|p.results|] == p2.results[|p.results|];
      }
    }
  }

  lemma EntrySettles(env: Env, p: InstancePass, e: Entry)
    requires e.rtype == RDS && Find(p.ledger, RDS, e.name) == Some(e)
    ensures Unfinished(AfterEntry(env, {}, p, e), Waiting) || LetGoOf(AfterEntry(env, {}, p, e), e.name)
  {
    if e.policy == Delete {
      PendSettles(env, p, e);
    } else {
      FindRemove(p.ledger, RDS, e.name, RDS, e.name);
      FindUpsert(p.ledger, Relinquish(e, env.now), RDS, e.name);
    }
  }

  lemma InstancesSettle(env: Env, w: Cloud, l: seq<Entry>, k: nat)
    requires Unique(l) && k < |l| && l[k].rtype == RDS
    ensures Unfinished(AfterInstances(env, {}, w, l), Waiting) || LetGoOf(AfterInstances(env, {}, w, l), l[k].name)
  {
    var step, start := Step(env, {}), Pass(w, l, [], false);
    var q := Upto(step, l, k, start);
    StepFinds(env, {}, w, l, k, RDS);
    EntrySettles(env, q, l[k]);
    if Unfinished(step(q, l[k]), Waiting) {
      StepIsSteady(env, {});
      UnfinishedLasts(step, l, k + 1, |l|, start, Waiting);
    }
  }

  // The second loop changes no instance entry and undoes no failure or wait.
  lemma OrphansKeep(env: Env, p: InstancePass, n: string)
    ensures var q := Upto(OrphanStep(env), p.ledger, |p.ledger|, p);
      Find(q.ledger, RDS, n) == Find(p.ledger, RDS, n) && (Unfinished(p, Waiting) ==> Unfinished(q, Waiting))
  {
    OrphanStepIsLocal(env);
    Outside(OrphanStep(env), RDSSnapshot, {RDSSnapshot}, p.ledger, p, RDS, n);
    if Unfinished(p, Waiting) {
      OrphanStepIsSteady(env);
      UnfinishedLasts(OrphanStep(env), p.ledger, 0, |p.ledger|, p, Waiting);
    }
  }

  // A pass over a CR being deleted that neither failed nor waits has let go of
  // every instance it still has an entry for.
  lemma NothingLeftDraining(env: Env, w: Cloud, l: seq<Entry>, n: string)
    requires Unique(l)
    requires var p := AfterCleanup(env, {}, w, l);
      !p.failed && (forall r :: r in p.results ==> !Waiting(r)) && Find(p.ledger, RDS, n).Some?
    ensures Find(AfterCleanup(env, {}, w, l).ledger, RDS, n).value.state.Relinquished?
  {
    OrphansKeep(env, AfterInstances(env, {}, w, l), n);
    if Find(l, RDS, n).None? {
      StepIsLocal(env, {});
      Outside(Step(env, {}), RDS, {RDS, RDSSnapshot}, l, Pass(w, l, [], false), RDS, n);
      assert false;
    }
    FindSound(l, RDS, n);
    var k :| 0 <= k < |l| && l[k] == Find(l, RDS, n).value;
    InstancesSettle(env, w, l, k);
  }
}
