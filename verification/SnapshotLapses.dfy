/**
 A tracked final snapshot that somebody deleted in AWS. Retiring it takes the
 fault AWS may answer with for an error, so the pass fails and tracks on.
 */
module SnapshotLapses {
  import opened Ledger
  import opened Sweep
  import opened Ownership
  import opened InstanceCloud
  import opened InstanceCleanup

  // The step of the instance comes to retiring its tracked snapshot: it is
  // declared again, or there and past the quiet window of another episode.
  predicate Retires(env: Env, declared: set<string>, w: Cloud, e: Entry, x: Entry) {
    e.name in declared ||
    (&& e.policy == Delete && e.arn in w.instances
     && e.pendingSince.Some? && env.now - e.pendingSince.value >= QUIET_WINDOW
     && x.arn != EpisodeID(env, e.name, e.pendingSince.value))
  }

  // No other instance of the ledger is in the episode the id names.
  ghost predicate NobodyElses(env: Env, l: seq<Entry>, n: string, id: string) {
    forall o :: o in l && o.rtype == RDS && o.name != n && o.pendingSince.Some? ==> EpisodeID(env, o.name, o.pendingSince.value) != id
  }

  // What a step does to what AWS has: at most the snapshot of its own episode is new.
  ghost predicate StepWorld(env: Env, e: Entry, w: Cloud, w': Cloud) {
    && w'.faultWhenMissing == w.faultWhenMissing && (w.faults == [] ==> w'.faults == [])
    && forall id :: id in w'.snapshots && id !in w.snapshots ==>
         e.rtype == RDS && e.pendingSince.Some? && id == EpisodeID(env, e.name, e.pendingSince.value)
  }

  lemma SameWorld(env: Env, e: Entry, w: Cloud)
    ensures StepWorld(env, e, w, w)
  {
  }

  lemma WorldsInTurn(env: Env, e: Entry, a: Cloud, b: Cloud, c: Cloud)
    requires StepWorld(env, e, a, b) && StepWorld(env, e, b, c)
    ensures StepWorld(env, e, a, c)
  {
  }

  lemma CallWorlds(env: Env, e: Entry, w: Cloud, name: string, id: string, arn: string)
    ensures StepWorld(env, e, w, DescribeSnapshot(w, id).0) && StepWorld(env, e, w, DeleteSnapshot(w, name, id).0)
    ensures StepWorld(env, e, w, ListTags(w, arn).0)
  {
  }

  lemma LetGoWorld(env: Env, e: Entry, w: Cloud, arn: string)
    ensures StepWorld(env, e, w, LetGo(env, w, arn).0)
  {
  }

  lemma RetireWorld(env: Env, p: InstancePass, e: Entry)
    ensures StepWorld(env, e, p.world, AfterRetire(env, p, e.name).world)
  {
    var f := Find(p.ledger, RDSSnapshot, e.name);
    SameWorld(env, e, p.world);
    if f.Some? {
      var w1 := DescribeSnapshot(p.world, f.value.arn).0;
      var w2 := DeleteSnapshot(w1, e.name, f.value.arn).0;
      CallWorlds(env, e, p.world, e.name, f.value.arn, "");
      CallWorlds(env, e, w1, e.name, f.value.arn, "");
      WorldsInTurn(env, e, p.world, w1, w2);
      assert AfterRetire(env, p, e.name).world in {w1, w2};
    }
  }

  lemma SnapshotWorld(env: Env, p: InstancePass, e: Entry)
    requires e.rtype == RDS && e.pendingSince.Some?
    ensures StepWorld(env, e, p.world, AfterSnapshot(env, p, e).world)
  {
    var id, f := EpisodeID(env, e.name, e.pendingSince.value), Find(p.ledger, RDSSnapshot, e.name);
    var made := CreateSnapshot(p.world, e.name, id, OwnerTags(env.cr)).0;
    RetireWorld(env, p, e);
    SameWorld(env, e, p.world);
    CallWorlds(env, e, p.world, e.name, id, "");
    assert StepWorld(env, e, p.world, made);
    assert AfterSnapshot(env, p, e).world in {AfterRetire(env, p, e.name).world, p.world, made, DescribeSnapshot(p.world, id).0};
  }

  lemma PendWorld(env: Env, p: InstancePass, e: Entry)
    requires e.rtype == RDS
    ensures StepWorld(env, e, p.world, AfterPend(env, p, e).world)
  {
    var w := ListTags(p.world, e.arn).0;
    CallWorlds(env, e, p.world, "", "", e.arn);
    if e.pendingSince.Some? {
      var p2 := Report(p.(world := w), e.name, PendingReason(env.now, e.pendingSince.value));
      SnapshotWorld(env, p2, e);
      WorldsInTurn(env, e, p.world, w, AfterSnapshot(env, p2, e).world);
      assert AfterPend(env, p, e).world in {w, AfterSnapshot(env, p2, e).world};
    } else {
      assert AfterPend(env, p, e).world == w;
    }
  }

  lemma EntryWorld(env: Env, declared: set<string>, p: InstancePass, e: Entry)
    ensures StepWorld(env, e, p.world, AfterEntry(env, declared, p, e).world)
  {
    SameWorld(env, e, p.world);
    if e.rtype == RDS && e.name in declared {
      RetireWorld(env, Restored(p, e), e);
    } else if e.rtype == RDS && e.policy == Delete {
      PendWorld(env, p, e);
    } else if e.rtype == RDS {
      LetGoWorld(env, e, p.world, e.arn);
      assert AfterRetain(env, p, e).world in {p.world, LetGo(env, p.world, e.arn).0};
    }
  }

  ghost predicate Missing(w: Cloud, w': Cloud, id: string) {
    && id !in w'.snapshots && w'.faultWhenMissing == w.faultWhenMissing && (w.faults == [] ==> w'.faults == [])
    && w'.instances.Keys == w.instances.Keys
  }

  // Up to the instance's own step the snapshot stays missing.
  lemma {:induction false} StillMissing(env: Env, declared: set<string>, w: Cloud, l: seq<Entry>, k: nat, n: string, id: string)
    requires k <= |l| && id !in w.snapshots && NobodyElses(env, l, n, id)
    requires forall i :: 0 <= i < k && l[i].rtype == RDS ==> l[i].name != n
    ensures Missing(w, Upto(Step(env, declared), l, k, Pass(w, l, [], false)).world, id)
  {
    if k > 0 {
      StillMissing(env, declared, w, l, k - 1, n, id);
      EntryWorld(env, declared, Upto(Step(env, declared), l, k - 1, Pass(w, l, [], false)), l[k - 1]);
    }
  }

  lemma RetireMissing(env: Env, p: InstancePass, name: string, x: Entry)
    requires Find(p.ledger, RDSSnapshot, name) == Some(x) && x.arn !in p.world.snapshots
    ensures var q := AfterRetire(env, p, name);
      && (p.world.faultWhenMissing ==> q.failed && q.ledger == p.ledger)
      && (!p.world.faultWhenMissing && p.world.faults == [] ==> Find(q.ledger, RDSSnapshot, name).None?)
  {
    FindRemove(p.ledger, RDSSnapshot, name, RDSSnapshot, name);
  }

  // The step of the instance: it fails and keeps both entries, or forgets the snapshot.
  lemma StepBlocks(env: Env, declared: set<string>, p: InstancePass, e: Entry, x: Entry)
    requires e.rtype == RDS && Find(p.ledger, RDS, e.name) == Some(e) && Find(p.ledger, RDSSnapshot, e.name) == Some(x)
    requires x.arn !in p.world.snapshots && Retires(env, declared, p.world, e, x)
    ensures var q := AfterEntry(env, declared, p, e);
      && (p.world.faultWhenMissing ==> q.failed && Find(q.ledger, RDS, e.name).Some? && Find(q.ledger, RDSSnapshot, e.name) == Some(x))
      && (!p.world.faultWhenMissing && p.world.faults == [] && e.name in declared ==> Find(q.ledger, RDSSnapshot, e.name).None?)
  {
    if e.name in declared {
      var p1 := Restored(p, e);
      FindUpsert(p.ledger, e.(pendingSince := None), RDS, e.name);
      EditFrame(p.ledger, p1.ledger, RDS, e.name, RDSSnapshot, e.name);
      RetireMissing(env, p1, e.name, x);
    } else {
      var w := ListTags(p.world, e.arn).0;
      var p2 := Report(p.(world := w), e.name, PendingReason(env.now, e.pendingSince.value));
      RetireMissing(env, p2, e.name, x);
    }
  }

  // The pass has failed with the snapshot's entry in place.
  ghost predicate Blocked(p: InstancePass, n: string, x: Entry) {
    p.failed && Has(p.ledger, RDS, n) && Find(p.ledger, RDSSnapshot, n) == Some(x)
  }

  lemma OrphanStepKeepsBlocked(env: Env, p: InstancePass, y: Entry, n: string, x: Entry)
    requires Blocked(p, n, x)
    ensures Blocked(AfterOrphan(env, p, y), n, x)
  {
    if !y.Is(RDSSnapshot, n) {
      EditFrame(p.ledger, AfterOrphan(env, p, y).ledger, y.rtype, y.name, RDSSnapshot, n);
    }
    OrphanStepIsLocal(env);
    assert Find(OrphanStep(env)(p, y).ledger, RDS, n) == Find(p.ledger, RDS, n);
  }

  // Where AWS reports a missing snapshot with a fault, every pass that comes to
  // retire it fails and goes on tracking it, whatever else the ledger holds and
  // whatever calls fail. Where AWS answers with an empty list, the entry goes.
  lemma MissingSnapshotBlocksRestore(env: Env, declared: set<string>, w: Cloud, l: seq<Entry>, e: Entry, x: Entry)
    requires Unique(l) && e in l && e.rtype == RDS && Find(l, RDSSnapshot, e.name) == Some(x)
    requires x.arn !in w.snapshots && NobodyElses(env, l, e.name, x.arn) && Retires(env, declared, w, e, x)
    ensures var p := AfterCleanup(env, declared, w, l);
      && (w.faultWhenMissing ==> p.failed && Find(p.ledger, RDSSnapshot, e.name) == Some(x))
      && (!w.faultWhenMissing && w.faults == [] && e.name in declared ==> Find(p.ledger, RDSSnapshot, e.name).None?)
  {
    var n, p := e.name, AfterInstances(env, declared, w, l);
    AfterLoop(env, declared, w, l, e, x);
    OrphanStepIsLocal(env);
    if w.faultWhenMissing {
      forall q: InstancePass, y | Blocked(q, n, x) ensures Blocked(OrphanStep(env)(q, y), n, x) {
        OrphanStepKeepsBlocked(env, q, y, n, x);
      }
      Lasts(OrphanStep(env), p.ledger, 0, |p.ledger|, p, q => Blocked(q, n, x));
    } else if w.faults == [] && n in declared {
      Outside(OrphanStep(env), RDSSnapshot, {RDSSnapshot}, p.ledger, p, RDSSnapshot, n);
    }
  }

  lemma AfterLoop(env: Env, declared: set<string>, w: Cloud, l: seq<Entry>, e: Entry, x: Entry)
    requires Unique(l) && e in l && e.rtype == RDS && Find(l, RDSSnapshot, e.name) == Some(x)
    requires x.arn !in w.snapshots && NobodyElses(env, l, e.name, x.arn) && Retires(env, declared, w, e, x)
    ensures var p := AfterInstances(env, declared, w, l);
      && (w.faultWhenMissing ==> Blocked(p, e.name, x))
      && (!w.faultWhenMissing && w.faults == [] && e.name in declared ==> Find(p.ledger, RDSSnapshot, e.name).None?)
  {
    var k :| 0 <= k < |l| && l[k] == e;
    var step, start := Step(env, declared), Pass(w, l, [], false);
    var q := Upto(step, l, k, start);
    forall i | 0 <= i < k && l[i].rtype == RDS ensures l[i].name != e.name {
      assert !l[i].Is(l[k].rtype, l[k].name);
    }
    StillMissing(env, declared, w, l, k, e.name, x.arn);
    StepFinds(env, declared, w, l, k, RDS);
    StepFinds(env, declared, w, l, k, RDSSnapshot);
    StepBlocks(env, declared, q, e, x);
    StepIsSteady(env, declared);
    assert Upto(step, l, k + 1, start) == step(q, e);
    SteadyUpto(step, l, k + 1, |l|, start);
  }
}
