/**
 What a table cleanup that neither failed nor reported a wait leaves behind.
 */
module TableFinalize {
  import opened Ledger
  import opened Sweep
  import opened Ownership
  import opened TableCloud
  import opened TableCleanup

  predicate Waiting(r: Result) {
    r.reason.Pending? || r.reason.Stuck?
  }

  // The entry is gone, was let go, or stands in the way of finishing.
  ghost predicate Settled(p: TablePass, n: string) {
    var f := Find(p.ledger, DynamoDB, n);
    Unfinished(p, Waiting) || f.None? || f.value.state.Relinquished?
  }

  lemma SettleSettles(env: Env, p: TablePass, e: Entry, pins: bool)
    requires e.rtype == DynamoDB && Find(p.ledger, DynamoDB, e.name) == Some(e)
    ensures Settled(Settle(env, p, e, pins), e.name)
  {
    FindRemove(p.ledger, DynamoDB, e.name, DynamoDB, e.name);
    FindUpsert(p.ledger, Relinquish(e, env.now), DynamoDB, e.name);
  }

  lemma RetainSettles(env: Env, p: TablePass, e: Entry)
    requires e.rtype == DynamoDB && Find(p.ledger, DynamoDB, e.name) == Some(e)
    ensures Settled(AfterRetain(env, p, e), e.name)
  {
    var (w, lifted) := if e.pendingSince.Some? then RemoveDeny(p.world, e.arn) else (p.world, true);
    SettleSettles(env, p.(world := w), e, Decisions.PinsAKey(p.ledger, DynamoDB, e));
    FindRemove(p.ledger, DynamoDB, e.name, DynamoDB, e.name);
  }

  lemma GateSettles(env: Env, p: TablePass, e: Entry)
    requires e.rtype == DynamoDB
    ensures var (q, proceed) := GateOnEmpty(env, p, e);
      !proceed ==> Settled(q, e.name)
  {
    var (q, proceed) := GateOnEmpty(env, p, e);
    if !proceed && !q.failed {
      assert Waiting(q.results[|p.results|]);
    }
  }

  lemma DeleteSettles(env: Env, p: TablePass, e: Entry)
    requires e.rtype == DynamoDB && Find(p.ledger, DynamoDB, e.name) == Some(e)
    ensures Settled(AfterDelete(env, p, e), e.name)
  {
    var q := AfterDelete(env, p, e);
    FindRemove(p.ledger, DynamoDB, e.name, DynamoDB, e.name);
    if !Forced(env, e) && Waits(env, e) {
      assert Waiting(q.results[|p.results|]);
    } else {
      var (w1, tags) := ListTags(p.world, e.arn);
      var p1 := p.(world := w1);
      if tags.Answer? && IsOwnedBy(tags.value, env.cr) && !Forced(env, e) {
        GateSettles(env, p1, e);
      }
    }
  }

  lemma EntrySettles(env: Env, p: TablePass, e: Entry)
    requires e.rtype == DynamoDB && Find(p.ledger, DynamoDB, e.name) == Some(e)
    ensures Settled(AfterEntry(env, {}, p, e), e.name)
  {
    if e.policy == Delete {
      DeleteSettles(env, p, e);
    } else {
      RetainSettles(env, p, e);
    }
  }

  // What the step of the entry at k settles is settled when the pass ends.
  lemma PassSettles(env: Env, w: Cloud, l: seq<Entry>, k: nat)
    requires Unique(l) && k < |l| && l[k].rtype == DynamoDB
    ensures Settled(AfterCleanup(env, {}, w, l), l[k].name)
  {
    var step, start := Step(env, {}), Pass(w, l, [], false);
    var q := Upto(step, l, k, start);
    StepFinds(env, {}, w, l, k, DynamoDB);
    EntrySettles(env, q, l[k]);
    if Unfinished(step(q, l[k]), Waiting) {
      StepIsSteady(env, {});
      UnfinishedLasts(step, l, k + 1, |l|, start, Waiting);
    }
  }

  // A pass over a CR being deleted that neither failed nor waits has let go of
  // every table it still has an entry for.
  lemma NothingLeftDraining(env: Env, w: Cloud, l: seq<Entry>, n: string)
    requires Unique(l)
    requires var p := AfterCleanup(env, {}, w, l);
      !p.failed && (forall r :: r in p.results ==> !Waiting(r)) && Find(p.ledger, DynamoDB, n).Some?
    ensures Find(AfterCleanup(env, {}, w, l).ledger, DynamoDB, n).value.state.Relinquished?
  {
    if Find(l, DynamoDB, n).None? {
      StepIsLocal(env, {});
      Outside(Step(env, {}), DynamoDB, {DynamoDB}, l, Pass(w, l, [], false), DynamoDB, n);
      assert false;
    }
    FindSound(l, DynamoDB, n);
    var k :| 0 <= k < |l| && l[k] == Find(l, DynamoDB, n).value;
    PassSettles(env, w, l, k);
  }
}
