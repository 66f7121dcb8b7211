/**
 Final snapshots over whole runs: which request deletes one and why, where every
 tracked id comes from, and how long the entry of a vanished instance's snapshot stays.
 */
module InstanceRuns {
  import opened Ledger
  import opened Sweep
  import opened Ownership
  import opened InstanceCloud
  import opened InstanceCleanup

  // ------------------------------------------------------- deletes in a pass

  // The lookup right before the delete showed this CR's tags on a snapshot
  // that is available, unless it was seen available before.
  ghost predicate ReadFirst(env: Env, log: seq<Call>, start: nat, d: nat, x: Entry) {
    && start < d < |log| && log[d - 1].SnapshotRead? && log[d - 1].id == x.arn
    && IsOwnedBy(log[d - 1].snapshot.tags, env.cr)
    && (x.state.Verified? || log[d - 1].snapshot.status.Available?)
  }

  // The instance is undeclared, was just seen to be this CR's, and is past the
  // quiet window of an episode the tracked snapshot does not belong to.
  ghost predicate Superseded(env: Env, log: seq<Call>, start: nat, d: nat, e: Entry, x: Entry) {
    && e.policy == Delete && e.pendingSince.Some? && env.now - e.pendingSince.value >= QUIET_WINDOW
    && x.arn != EpisodeID(env, e.name, e.pendingSince.value)
    && start + 2 <= d < |log| && log[d - 2].TagsRead? && log[d - 2].arn == e.arn && IsOwnedBy(log[d - 2].tags, env.cr)
  }

  ghost predicate Justifies(env: Env, declared: set<string>, l: seq<Entry>, log: seq<Call>, start: nat, d: nat, e: Entry, x: Entry)
    requires d < |log|
  {
    && log[d] == DeleteSent(e.name, x.arn)
    && e in l && e.rtype == RDS && Find(l, RDSSnapshot, e.name) == Some(x)
    && ReadFirst(env, log, start, d, x)
    && (e.name in declared || Superseded(env, log, start, d, e, x))
  }

  ghost predicate JustifiedCall(env: Env, declared: set<string>, l: seq<Entry>, log: seq<Call>, start: nat, d: nat)
    requires d < |log|
  {
    log[d].DeleteSent? ==> exists e, x :: Justifies(env, declared, l, log, start, d, e, x)
  }

  lemma RetireCalls(env: Env, p: InstancePass, name: string)
    ensures var log, log' := p.world.log, AfterRetire(env, p, name).world.log;
      var f := Find(p.ledger, RDSSnapshot, name);
      && log <= log'
      && forall d :: |log| <= d < |log'| && log'[d].DeleteSent? ==>
           d == |log| + 1 && f.Some? && log'[d] == DeleteSent(name, f.value.arn) && ReadFirst(env, log', |log|, d, f.value)
  {
    var f, log := Find(p.ledger, RDSSnapshot, name), p.world.log;
    if f.Some? {
      var (w, found) := DescribeSnapshot(p.world, f.value.arn);
      if found.One? {
        assert w.log == log + [SnapshotRead(f.value.arn, found.snapshot)];
        var w2 := DeleteSnapshot(w, name, f.value.arn).0;
        assert w2.log == log + [SnapshotRead(f.value.arn, found.snapshot), DeleteSent(name, f.value.arn)];
        assert AfterRetire(env, p, name).world in {w, w2};
      }
    }
  }

  lemma SnapshotCalls(env: Env, p: InstancePass, e: Entry)
    requires e.rtype == RDS && e.pendingSince.Some?
    ensures var log, log' := p.world.log, AfterSnapshot(env, p, e).world.log;
      var f := Find(p.ledger, RDSSnapshot, e.name);
      && log <= log'
      && forall d :: |log| <= d < |log'| && log'[d].DeleteSent? ==>
           && d == |log| + 1 && f.Some? && log'[d] == DeleteSent(e.name, f.value.arn) && ReadFirst(env, log', |log|, d, f.value)
           && f.value.arn != EpisodeID(env, e.name, e.pendingSince.value)
  {
    var f := Find(p.ledger, RDSSnapshot, e.name);
    if f.Some? && f.value.arn != EpisodeID(env, e.name, e.pendingSince.value) {
      RetireCalls(env, p, e.name);
      assert AfterSnapshot(env, p, e) == AfterRetire(env, p, e.name);
    }
  }

  // The branch of pendDeletion that goes on to the snapshot, from the tag read on.
  lemma PastQuietCalls(env: Env, declared: set<string>, l: seq<Entry>, log: seq<Call>, tags: Tags, p: InstancePass, e: Entry)
    requires e in l && e.rtype == RDS && e.policy == Delete
    requires e.pendingSince.Some? && env.now - e.pendingSince.value >= QUIET_WINDOW
    requires Find(p.ledger, RDSSnapshot, e.name) == Find(l, RDSSnapshot, e.name)
    requires p.world.log == log + [TagsRead(e.arn, tags)] && IsOwnedBy(tags, env.cr)
    ensures var log' := AfterSnapshot(env, p, e).world.log;
      log <= log' && forall d :: |log| <= d < |log'| ==> JustifiedCall(env, declared, l, log', |log|, d)
  {
    SnapshotCalls(env, p, e);
    var mid, log' := p.world.log, AfterSnapshot(env, p, e).world.log;
    assert mid[|log|] == TagsRead(e.arn, tags);
    forall d | |log| <= d < |log'| ensures JustifiedCall(env, declared, l, log', |log|, d) {
      if d < |mid| {
        assert log'[d] == mid[d];
      } else if log'[d].DeleteSent? {
        assert Justifies(env, declared, l, log', |log|, d, e, Find(l, RDSSnapshot, e.name).value);
      }
    }
  }

  lemma PendCalls(env: Env, declared: set<string>, l: seq<Entry>, p: InstancePass, e: Entry)
    requires e in l && e.rtype == RDS && e.policy == Delete
    requires Find(p.ledger, RDSSnapshot, e.name) == Find(l, RDSSnapshot, e.name)
    ensures var log, log' := p.world.log, AfterPend(env, p, e).world.log;
      log <= log' && forall d :: |log| <= d < |log'| ==> JustifiedCall(env, declared, l, log', |log|, d)
  {
    var (w, tags) := ListTags(p.world, e.arn);
    if tags.Answer? && IsOwnedBy(tags.value, env.cr) && e.pendingSince.Some? && env.now - e.pendingSince.value >= QUIET_WINDOW {
      var p2 := Report(p.(world := w), e.name, PendingReason(env.now, e.pendingSince.value));
      PastQuietCalls(env, declared, l, p.world.log, tags.value, p2, e);
      assert AfterPend(env, p, e) == AfterSnapshot(env, p2, e);
    } else {
      var log' := AfterPend(env, p, e).world.log;
      assert log' == w.log;
    }
  }

  lemma EntryCalls(env: Env, declared: set<string>, l: seq<Entry>, p: InstancePass, e: Entry)
    requires e in l && (e.rtype == RDS ==> Find(p.ledger, RDSSnapshot, e.name) == Find(l, RDSSnapshot, e.name))
    ensures var log, log' := p.world.log, AfterEntry(env, declared, p, e).world.log;
      log <= log' && forall d :: |log| <= d < |log'| ==> JustifiedCall(env, declared, l, log', |log|, d)
  {
    if e.rtype == RDS && e.name in declared {
      var p1 := Restored(p, e);
      EditFrame(p.ledger, p1.ledger, RDS, e.name, RDSSnapshot, e.name);
      RetireCalls(env, p1, e.name);
      var log, log' := p.world.log, AfterRestore(env, p, e).world.log;
      forall d | |log| <= d < |log'| ensures JustifiedCall(env, declared, l, log', |log|, d) {
        if log'[d].DeleteSent? {
          assert Justifies(env, declared, l, log', |log|, d, e, Find(l, RDSSnapshot, e.name).value);
        }
      }
    } else if e.rtype == RDS && e.policy == Delete {
      PendCalls(env, declared, l, p, e);
    }
  }

  lemma StillJustified(env: Env, declared: set<string>, l: seq<Entry>, log: seq<Call>, log': seq<Call>, start: nat, start': nat, d: nat)
    requires log <= log' && start' <= start && d < |log| && JustifiedCall(env, declared, l, log, start, d)
    ensures JustifiedCall(env, declared, l, log', start', d)
  {
    if log[d].DeleteSent? {
      var e, x :| Justifies(env, declared, l, log, start, d, e, x);
      assert Justifies(env, declared, l, log', start', d, e, x);
    }
  }

  lemma {:induction false} InstanceCalls(env: Env, declared: set<string>, w: Cloud, l: seq<Entry>, k: nat)
    requires Unique(l) && k <= |l|
    ensures var log' := Upto(Step(env, declared), l, k, Pass(w, l, [], false)).world.log;
      w.log <= log' && forall d :: |w.log| <= d < |log'| ==> JustifiedCall(env, declared, l, log', |w.log|, d)
  {
    if k > 0 {
      InstanceCalls(env, declared, w, l, k - 1);
      var step, start := Step(env, declared), Pass(w, l, [], false);
      var q, e := Upto(step, l, k - 1, start), l[k - 1];
      if e.rtype == RDS {
        StepFinds(env, declared, w, l, k - 1, RDSSnapshot);
      }
      EntryCalls(env, declared, l, q, e);
      CallsAddUp(env, declared, l, w.log, q.world.log, step(q, e).world.log);
    }
  }

  lemma CallsAddUp(env: Env, declared: set<string>, l: seq<Entry>, log: seq<Call>, mid: seq<Call>, log': seq<Call>)
    requires log <= mid <= log'
    requires forall d :: |log| <= d < |mid| ==> JustifiedCall(env, declared, l, mid, |log|, d)
    requires forall d :: |mid| <= d < |log'| ==> JustifiedCall(env, declared, l, log', |mid|, d)
    ensures forall d :: |log| <= d < |log'| ==> JustifiedCall(env, declared, l, log', |log|, d)
  {
    forall d | |log| <= d < |log'| ensures JustifiedCall(env, declared, l, log', |log|, d) {
      if d < |mid| {
        StillJustified(env, declared, l, mid, log', |log|, |log|, d);
      } else {
        StillJustified(env, declared, l, log', log', |mid|, |log|, d);
      }
    }
  }

  lemma {:induction false} OrphanCalls(env: Env, l: seq<Entry>, k: nat, p: InstancePass)
    requires k <= |l|
    ensures var q := Upto(OrphanStep(env), l, k, p);
      && p.world.log <= q.world.log && (forall d :: |p.world.log| <= d < |q.world.log| ==> q.world.log[d].SnapshotRead?)
      && q.world.snapshots == p.world.snapshots
  {
    if k > 0 {
      OrphanCalls(env, l, k - 1, p);
    }
  }

  // Every snapshot delete of a pass is justified by what the pass began with
  // and by what it read right before.
  lemma DeletesAreJustified(env: Env, declared: set<string>, w: Cloud, l: seq<Entry>)
    requires Unique(l)
    ensures var log := AfterCleanup(env, declared, w, l).world.log;
      w.log <= log && forall d :: |w.log| <= d < |log| ==> JustifiedCall(env, declared, l, log, |w.log|, d)
  {
    InstanceCalls(env, declared, w, l, |l|);
    var p := AfterInstances(env, declared, w, l);
    OrphanCalls(env, p.ledger, |p.ledger|, p);
    var mid, log := p.world.log, AfterCleanup(env, declared, w, l).world.log;
    forall d | |w.log| <= d < |log| ensures JustifiedCall(env, declared, l, log, |w.log|, d) {
      if d < |mid| {
        StillJustified(env, declared, l, mid, log, |w.log|, |w.log|, d);
      }
    }
  }
}
