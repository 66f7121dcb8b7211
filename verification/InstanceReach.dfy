/**
 How far an instance pass reaches: the owner tags of an instance change only
 where the CR may change them. Ensure and Cleanup together.
 */
module InstanceReach {
  import opened Ledger
  import opened Sweep
  import opened Ownership
  import opened InstanceCloud
  import opened InstanceCleanup
  import opened InstanceEnsure

  ghost predicate Reaches(cr: CR, from: string, w: Cloud, w': Cloud) {
    HonoursAll(cr, from, TitlesOf(w), TitlesOf(w'))
  }

  lemma ReachesInTurn(cr: CR, from: string, a: Cloud, b: Cloud, c: Cloud)
    requires Reaches(cr, from, a, b) && Reaches(cr, from, b, c)
    ensures Reaches(cr, from, a, c)
  {
    HonoursInTurn(cr, from, TitlesOf(a), TitlesOf(b), TitlesOf(c));
  }

  lemma SameReaches(cr: CR, from: string, w: Cloud, w': Cloud)
    requires w'.instances == w.instances
    ensures Reaches(cr, from, w, w')
  {
  }

  lemma TagCalls(cr: CR, from: string, w: Cloud, arn: string)
    requires MayTouch(cr, from, InstanceTitle(w, arn))
    ensures Reaches(cr, from, w, AddTags(w, arn, OwnerTags(cr)).0)
    ensures Reaches(cr, from, w, UntagOwner(w, arn).0)
  {
    if arn in w.instances {
      TaggedIsMine(w.instances[arn], cr);
    }
    HonoursAt(cr, from, TitlesOf(w), TitlesOf(AddTags(w, arn, OwnerTags(cr)).0), arn);
    HonoursAt(cr, from, TitlesOf(w), TitlesOf(UntagOwner(w, arn).0), arn);
  }

  lemma CreateCall(cr: CR, from: string, w: Cloud, arn: string)
    ensures Reaches(cr, from, w, CreateInstance(w, arn, OwnerTags(cr)).0)
  {
    TaggedIsMine(map[], cr);
    assert map[] + OwnerTags(cr) == OwnerTags(cr);
    HonoursAt(cr, from, TitlesOf(w), TitlesOf(CreateInstance(w, arn, OwnerTags(cr)).0), arn);
  }

  lemma ClaimReaches(env: Env, from: string, s: InstanceSpec, w: Cloud)
    ensures Reaches(env.cr, from, w, Claim(env, from, s, w).0)
  {
    var (w1, tags) := ListTags(w, s.arn);
    if tags.Answer? && TableLadder(tags.value, env.cr, s.adopt, from).Retag? {
      LadderMayTouch(tags.value, env.cr, s.adopt, from);
      TagCalls(env.cr, from, w1, s.arn);
    }
  }

  lemma InstanceReaches(env: Env, from: string, s: InstanceSpec, w: Cloud, l: seq<Entry>)
    ensures Reaches(env.cr, from, w, EnsureInstance(env, from, s, w, l).world)
  {
    var w1 := LookUp(w, s.arn).0;
    SameReaches(env.cr, from, w, w1);
    CreateCall(env.cr, from, w1, s.arn);
    ReachesInTurn(env.cr, from, w, w1, CreateInstance(w1, s.arn, OwnerTags(env.cr)).0);
    ClaimReaches(env, from, s, w1);
    var w2 := Claim(env, from, s, w1).0;
    ReachesInTurn(env.cr, from, w, w1, w2);
    SameReaches(env.cr, from, w2, Unmodelled(w2).0);
    ReachesInTurn(env.cr, from, w, w2, Unmodelled(w2).0);
    SameReaches(env.cr, from, w, Unmodelled(w1).0);
    assert EnsureInstance(env, from, s, w, l).world in
      {w1, CreateInstance(w1, s.arn, OwnerTags(env.cr)).0, w2, Unmodelled(w2).0, Unmodelled(w1).0};
  }

  lemma StepReaches(env: Env, from: string, w: Cloud, r: Ensured, s: InstanceSpec)
    requires Reaches(env.cr, from, w, r.world)
    ensures Reaches(env.cr, from, w, EnsureStep(env, from)(r, s).world)
  {
    InstanceReaches(env, from, s, r.world, r.ledger);
    ReachesInTurn(env.cr, from, w, r.world, EnsureInstance(env, from, s, r.world, r.ledger).world);
  }

  lemma EnsureReaches(env: Env, from: string, specs: seq<InstanceSpec>, w: Cloud, l: seq<Entry>)
    ensures Reaches(env.cr, from, w, EnsureUpto(env, from, specs, |specs|, w, l).world)
  {
    var step, reached := EnsureStep(env, from), (r: Ensured) => Reaches(env.cr, from, w, r.world);
    forall r, s | reached(r) ensures reached(step(r, s)) {
      StepReaches(env, from, w, r, s);
    }
    SameReaches(env.cr, from, w, w);
    FoldKeeps(step, specs, |specs|, Ensured(w, l, true), reached);
  }

  // ---------------------------------------------------------------- cleanup

  lemma LetGoReaches(env: Env, from: string, w: Cloud, arn: string)
    ensures Reaches(env.cr, from, w, LetGo(env, w, arn).0)
  {
    var (w1, tags) := ListTags(w, arn);
    if tags.Answer? && IsOwnedBy(tags.value, env.cr) {
      OwnedMayTouch(tags.value, env.cr, from);
      TagCalls(env.cr, from, Unmodelled(w1).0, arn);
      SameReaches(env.cr, from, w, Unmodelled(w1).0);
      ReachesInTurn(env.cr, from, w, Unmodelled(w1).0, UntagOwner(Unmodelled(w1).0, arn).0);
    }
  }

  // Snapshots are not instances: no snapshot step writes an instance's tags.
  lemma RetireApart(env: Env, p: InstancePass, name: string)
    ensures AfterRetire(env, p, name).world.instances == p.world.instances
  {
    var tracked := Find(p.ledger, RDSSnapshot, name);
    if tracked.Some? {
      var (w, found) := DescribeSnapshot(p.world, tracked.value.arn);
      assert AfterRetire(env, p, name).world in {w, DeleteSnapshot(w, name, tracked.value.arn).0};
    }
  }

  lemma SnapshotApart(env: Env, p: InstancePass, e: Entry)
    requires e.rtype == RDS && e.pendingSince.Some?
    ensures AfterSnapshot(env, p, e).world.instances == p.world.instances
  {
    var id, tracked := EpisodeID(env, e.name, e.pendingSince.value), Find(p.ledger, RDSSnapshot, e.name);
    if tracked.Some? && tracked.value.arn != id {
      RetireApart(env, p, e.name);
      assert AfterSnapshot(env, p, e) == AfterRetire(env, p, e.name);
    } else if tracked.None? {
      assert AfterSnapshot(env, p, e).world in {p.world, CreateSnapshot(p.world, e.name, id, OwnerTags(env.cr)).0};
    } else {
      assert AfterSnapshot(env, p, e).world in {p.world, DescribeSnapshot(p.world, tracked.value.arn).0};
    }
  }

  lemma PendApart(env: Env, p: InstancePass, e: Entry)
    requires e.rtype == RDS
    ensures AfterPend(env, p, e).world.instances == p.world.instances
  {
    if e.pendingSince.Some? {
      var p2 := Report(p.(world := ListTags(p.world, e.arn).0), e.name, PendingReason(env.now, e.pendingSince.value));
      SnapshotApart(env, p2, e);
    }
  }

  lemma OrphanApart(env: Env, p: InstancePass, x: Entry)
    ensures AfterOrphan(env, p, x).world.instances == p.world.instances
  {
  }

  lemma EntryReaches(env: Env, declared: set<string>, from: string, p: InstancePass, e: Entry)
    ensures Reaches(env.cr, from, p.world, AfterEntry(env, declared, p, e).world)
  {
    var w' := AfterEntry(env, declared, p, e).world;
    if e.rtype == RDS && e.name !in declared && e.policy != Delete {
      LetGoReaches(env, from, p.world, e.arn);
    } else {
      if e.rtype == RDS {
        PendApart(env, p, e);
        RetireApart(env, Restored(p, e), e.name);
      }
      SameReaches(env.cr, from, p.world, w');
    }
  }

  lemma {:induction false} InstancesReach(env: Env, declared: set<string>, from: string, l: seq<Entry>, k: nat, p: InstancePass)
    requires k <= |l|
    ensures Reaches(env.cr, from, p.world, Upto(Step(env, declared), l, k, p).world)
  {
    if k > 0 {
      InstancesReach(env, declared, from, l, k - 1, p);
      var q := Upto(Step(env, declared), l, k - 1, p);
      EntryReaches(env, declared, from, q, l[k - 1]);
      ReachesInTurn(env.cr, from, p.world, q.world, Step(env, declared)(q, l[k - 1]).world);
    }
  }

  lemma {:induction false} OrphansApart(env: Env, l: seq<Entry>, k: nat, p: InstancePass)
    requires k <= |l|
    ensures Upto(OrphanStep(env), l, k, p).world.instances == p.world.instances
  {
    if k > 0 {
      OrphansApart(env, l, k - 1, p);
      OrphanApart(env, Upto(OrphanStep(env), l, k - 1, p), l[k - 1]);
    }
  }

  // A whole pass of the instances' section, over any ledger, with any call failing.
  lemma PassReaches(env: Env, declared: set<string>, from: string, specs: seq<InstanceSpec>, w: Cloud, l: seq<Entry>)
    ensures var r := EnsureUpto(env, from, specs, |specs|, w, l);
      Reaches(env.cr, from, w, AfterCleanup(env, declared, r.world, r.ledger).world)
  {
    var r := EnsureUpto(env, from, specs, |specs|, w, l);
    var p, q := AfterInstances(env, declared, r.world, r.ledger), AfterCleanup(env, declared, r.world, r.ledger);
    EnsureReaches(env, from, specs, w, l);
    InstancesReach(env, declared, from, r.ledger, |r.ledger|, Pass(r.world, r.ledger, [], false));
    ReachesInTurn(env.cr, from, w, r.world, p.world);
    OrphansApart(env, p.ledger, |p.ledger|, p);
    SameReaches(env.cr, from, p.world, q.world);
    ReachesInTurn(env.cr, from, w, p.world, q.world);
  }
}
