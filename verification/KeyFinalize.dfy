/**
 What a key cleanup that neither failed nor reported a wait leaves behind.
 */
module KeyFinalize {
  import opened Ledger
  import opened Sweep
  import opened KmsCloud
  import opened KeyCleanup

  predicate Waiting(r: Result) {
    r.reason.Pending? || r.reason.InUse?
  }

  ghost predicate Dying(w: Cloud, arn: string) {
    arn in w.keys && w.keys[arn].state.PendingDeletion?
  }

  ghost predicate LetGoOf(p: KeyPass, n: string) {
    Find(p.ledger, KMS, n).None? || Find(p.ledger, KMS, n).value.state.Relinquished?
  }

  lemma RetainSettles(env: Env, p: KeyPass, e: Entry)
    requires e.rtype == KMS && Find(p.ledger, KMS, e.name).Some?
    requires Find(p.ledger, KMS, e.name).value.state == e.state
    ensures AfterRetain(env, p, e).failed || LetGoOf(AfterRetain(env, p, e), e.name)
  {
    FindRemove(p.ledger, KMS, e.name, KMS, e.name);
    FindUpsert(p.ledger, Relinquish(e, env.now), KMS, e.name);
  }

  lemma ScheduleSettles(env: Env, p: KeyPass, e: Entry)
    requires e.rtype == KMS
    ensures var q := AfterSchedule(env, p, e);
      Unfinished(q, Waiting) || LetGoOf(q, e.name) || (Dying(q.world, e.arn) && q.ledger == p.ledger)
  {
    var q := AfterSchedule(env, p, e);
    FindRemove(p.ledger, KMS, e.name, KMS, e.name);
    if |q.results| > |p.results| {
      assert Waiting(q.results[|p.results|]);
    }
  }

  lemma EntrySettles(env: Env, wants: Wants, p: KeyPass, e: Entry)
    requires wants.deleting && e.rtype == KMS && Find(p.ledger, KMS, e.name) == Some(e)
    ensures var q := AfterEntry(env, wants, p, e);
      Unfinished(q, Waiting) || LetGoOf(q, e.name) || (Dying(q.world, e.arn) && q.ledger == p.ledger)
  {
    var held := e.name in wants.inUse;
    if held && !wants.inUse[e.name] {
      var q := AfterEntry(env, wants, p, e);
      assert Waiting(q.results[|p.results|]);
    } else {
      var e' := if held then e.(policy := Retain) else e;
      if e'.policy == Retain {
        RetainSettles(env, p, e');
      } else {
        ScheduleSettles(env, p, e');
      }
    }
  }

  lemma StaysDying(env: Env, wants: Wants, arn: string)
    ensures forall q: KeyPass, e: Entry :: Dying(q.world, arn) ==> Dying(Step(env, wants)(q, e).world, arn)
  {
    forall q: KeyPass, e: Entry | Dying(q.world, arn) ensures Dying(Step(env, wants)(q, e).world, arn) {
      assert AfterEntry(env, wants, q, e).world.keys[arn].state.PendingDeletion?;
    }
  }

  lemma PassSettles(env: Env, wants: Wants, w: Cloud, l: seq<Entry>, k: nat)
    requires wants.deleting && Unique(l) && k < |l| && l[k].rtype == KMS
    ensures var p := AfterCleanup(env, wants, w, l);
      Unfinished(p, Waiting) || LetGoOf(p, l[k].name)
      || (Dying(p.world, l[k].arn) && Find(p.ledger, KMS, l[k].name) == Some(l[k]))
  {
    var step, start, arn := Step(env, wants), Pass(w, l, [], false), l[k].arn;
    var q := Upto(step, l, k, start);
    StepFinds(env, wants, w, l, k, KMS);
    EntrySettles(env, wants, q, l[k]);
    if Unfinished(step(q, l[k]), Waiting) {
      StepIsSteady(env, wants);
      UnfinishedLasts(step, l, k + 1, |l|, start, Waiting);
    } else if Dying(step(q, l[k]).world, arn) {
      StaysDying(env, wants, arn);
      Lasts(step, l, k + 1, |l|, start, (p: KeyPass) => Dying(p.world, arn));
    }
  }

  // A pass over a CR being deleted that neither failed nor waits has let go of
  // every key it still has an entry for, or AWS is already deleting the key.
  lemma NothingLeftDraining(env: Env, wants: Wants, w: Cloud, l: seq<Entry>, n: string)
    requires wants.deleting && Unique(l)
    requires var p := AfterCleanup(env, wants, w, l);
      !p.failed && (forall r :: r in p.results ==> !Waiting(r)) && Find(p.ledger, KMS, n).Some?
    ensures var p := AfterCleanup(env, wants, w, l);
      var e := Find(p.ledger, KMS, n).value;
      e.state.Relinquished? || Dying(p.world, e.arn)
  {
    if Find(l, KMS, n).None? {
      StepIsLocal(env, wants);
      Outside(Step(env, wants), KMS, {KMS}, l, Pass(w, l, [], false), KMS, n);
      assert false;
    }
    FindSound(l, KMS, n);
    var k :| 0 <= k < |l| && l[k] == Find(l, KMS, n).value;
    PassSettles(env, wants, w, l, k);
  }
}
