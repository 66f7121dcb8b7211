/**
 What Cleanup owes an instance and its final snapshot: after a pass without an
 error both entries, the instance's tags and the snapshot are exactly where the
 declaration, the policy and the clock put them. In particular an instance past
 its quiet window gets its final snapshot.
 */
module InstanceEndings {
  import opened Ledger
  import opened Sweep
  import opened Ownership
  import opened Naming
  import opened InstanceCloud
  import opened InstanceCleanup
  import SnapshotRuns

  function TagsOf(w: Cloud, arn: string): Option<Tags> {
    if arn in w.instances then Some(w.instances[arn]) else None
  }

  function SnapshotAt(w: Cloud, id: string): Option<Snapshot> {
    if id in w.snapshots then Some(w.snapshots[id]) else None
  }

  // What there is of one instance: its entry, its tags, its snapshot's entry,
  // and the snapshot.
  datatype View = View(entry: Option<Entry>, tags: Option<Tags>, tracked: Option<Entry>, snapshot: Option<Snapshot>)

  function ViewOf(p: InstancePass, n: string, arn: string, id: string): View {
    View(Find(p.ledger, RDS, n), TagsOf(p.world, arn), Find(p.ledger, RDSSnapshot, n), SnapshotAt(p.world, id))
  }

  // ------------------------------------------------------------- the outcomes

  // A tracked snapshot that is no longer wanted: deleted if it is the CR's and
  // complete, waited for while it is being made, forgotten otherwise.
  ghost predicate Retired(env: Env, x: Entry, v: View, v': View) {
    if v.snapshot.None? then v'.snapshot.None? && v'.tracked.None?
    else if !IsOwnedBy(v.snapshot.value.tags, env.cr) then v'.snapshot == v.snapshot && v'.tracked.None?
    else if x.state.Verified? || v.snapshot.value.status.Available? then v'.snapshot.None? && v'.tracked.None?
    else v'.snapshot == v.snapshot && v'.tracked == if v.snapshot.value.status.SnapshotFailed? then None else Some(x)
  }

  // The final snapshot of the episode that began at `since`: asked for, tracked
  // as being made with the instance's key, and verified once it is available.
  ghost predicate Snapshotted(env: Env, e: Entry, since: int, v: View, v': View) {
    var id := SnapshotID(env.hash, env.cr.namespace, env.cr.name, e.name, since / (MINUTE / 60));
    match v.tracked
    case None =>
      && v'.tracked.Some? && v'.tracked.value.arn == id && v'.tracked.value.state.Creating?
      && v'.tracked.value.kmsKeyARN == e.kmsKeyARN && v'.tracked.value.policy == Retain
      && v'.snapshot == if v.snapshot.Some? then v.snapshot else Some(Snapshot(OwnerTags(env.cr), InProgress))
    case Some(x) =>
      if x.arn != id then Retired(env, x, v, v')
      else
        && v'.snapshot == v.snapshot
        && v'.tracked == if !x.state.Verified? && v.snapshot.Some? && v.snapshot.value.status.Available?
                         then Some(x.(state := Verified, lastVerifiedAt := Some(env.now))) else Some(x)
  }

  // Let go of: the owner tags are off, unless the entry was relinquished in the
  // last day; a missing instance is forgotten.
  ghost predicate LetGoOf(env: Env, e: Entry, v: View, v': View) {
    && v'.tracked == v.tracked && v'.snapshot == v.snapshot
    && (if e.state.Relinquished? && e.lastVerifiedAt.Some? && env.now - e.lastVerifiedAt.value <= 24 * HOUR then v' == v
        else if v.tags.None? then v'.tags.None? && v'.entry.None?
        else && v'.tags.Some? && !IsOwnedBy(v'.tags.value, env.cr)
             && v'.entry == Some(e.(state := Relinquished, lastVerifiedAt := Some(env.now))))
  }

  // To be deleted by hand: marked first, left for ten minutes, then given its
  // final snapshot; a missing instance is forgotten.
  ghost predicate WoundDown(env: Env, e: Entry, v: View, v': View) {
    && v'.tags == v.tags
    && (if v.tags.None? then v' == v.(entry := None)
        else
          && IsOwnedBy(v.tags.value, env.cr)
          && (if e.pendingSince.None? then v' == v.(entry := Some(e.(pendingSince := Some(env.now))))
              else if env.now - e.pendingSince.value < 10 * MINUTE then v' == v
              else v'.entry == Some(e) && Snapshotted(env, e, e.pendingSince.value, v, v')))
  }

  ghost predicate GivenBack(env: Env, e: Entry, v: View, v': View) {
    && v'.entry == Some(e.(pendingSince := None)) && v'.tags == v.tags
    && (if v.tracked.None? then v'.tracked.None? && v'.snapshot == v.snapshot else Retired(env, v.tracked.value, v, v'))
  }

  ghost predicate Ended(env: Env, declared: set<string>, e: Entry, v: View, v': View) {
    if e.name in declared then GivenBack(env, e, v, v')
    else if e.policy == Retain then LetGoOf(env, e, v, v')
    else WoundDown(env, e, v, v')
  }

  // The snapshot in question: the tracked one, or the one to be asked for.
  function IdFor(env: Env, e: Entry, tracked: Option<Entry>): string {
    if tracked.Some? then tracked.value.arn
    else if e.pendingSince.Some? then EpisodeID(env, e.name, e.pendingSince.value) else ""
  }

  // ---------------------------------------------------------------- the steps

  lemma RetireEnds(env: Env, p: InstancePass, n: string, arn: string, x: Entry)
    requires Find(p.ledger, RDSSnapshot, n) == Some(x) && !AfterRetire(env, p, n).failed
    ensures var v, v' := ViewOf(p, n, arn, x.arn), ViewOf(AfterRetire(env, p, n), n, arn, x.arn);
      Retired(env, x, v, v') && v'.tags == v.tags && v'.entry == v.entry
  {
    FindRemove(p.ledger, RDSSnapshot, n, RDSSnapshot, n);
    FindRemove(p.ledger, RDSSnapshot, n, RDS, n);
  }

  // What polling a tracked snapshot of the current episode leaves.
  ghost predicate Polled(env: Env, x: Entry, v: View, v': View) {
    && v' == v.(tracked := v'.tracked)
    && v'.tracked == if !x.state.Verified? && v.snapshot.Some? && v.snapshot.value.status.Available?
                     then Some(x.(state := Verified, lastVerifiedAt := Some(env.now))) else Some(x)
  }

  lemma PollEnds(env: Env, p: InstancePass, e: Entry, x: Entry)
    requires e.rtype == RDS && e.pendingSince.Some? && !AfterSnapshot(env, p, e).failed
    requires Find(p.ledger, RDSSnapshot, e.name) == Some(x) && x.arn == EpisodeID(env, e.name, e.pendingSince.value)
    ensures Polled(env, x, ViewOf(p, e.name, e.arn, x.arn), ViewOf(AfterSnapshot(env, p, e), e.name, e.arn, x.arn))
  {
    FindSound(p.ledger, RDSSnapshot, e.name);
    if !x.state.Verified? {
      var (w, found) := DescribeSnapshot(p.world, x.arn);
      var seen := p.(world := w, ledger := Upsert(p.ledger, Seen(env, x)));
      FindUpsert(p.ledger, Seen(env, x), RDSSnapshot, e.name);
      FindUpsert(p.ledger, Seen(env, x), RDS, e.name);
      assert AfterSnapshot(env, p, e) == if found.One? && found.snapshot.status.Available? then seen else p.(world := w);
    }
  }

  lemma AskEnds(env: Env, p: InstancePass, e: Entry, id: string)
    requires e.rtype == RDS && e.pendingSince.Some? && !AfterSnapshot(env, p, e).failed
    requires Find(p.ledger, RDSSnapshot, e.name).None? && id == EpisodeID(env, e.name, e.pendingSince.value)
    ensures var v, v' := ViewOf(p, e.name, e.arn, id), ViewOf(AfterSnapshot(env, p, e), e.name, e.arn, id);
      && v'.tracked == Some(Asked(env, e, id)) && v'.tags == v.tags && v'.entry == v.entry
      && v'.snapshot == if v.snapshot.Some? then v.snapshot else Some(Snapshot(OwnerTags(env.cr), InProgress))
  {
    FindUpsert(p.ledger, Asked(env, e, id), RDSSnapshot, e.name);
    FindUpsert(p.ledger, Asked(env, e, id), RDS, e.name);
  }

  lemma SnapshotEnds(env: Env, p: InstancePass, e: Entry)
    requires e.rtype == RDS && e.pendingSince.Some? && !AfterSnapshot(env, p, e).failed
    ensures var id := IdFor(env, e, Find(p.ledger, RDSSnapshot, e.name));
      var v, v' := ViewOf(p, e.name, e.arn, id), ViewOf(AfterSnapshot(env, p, e), e.name, e.arn, id);
      Snapshotted(env, e, e.pendingSince.value, v, v') && v'.tags == v.tags && v'.entry == v.entry
  {
    var tracked, id := Find(p.ledger, RDSSnapshot, e.name), EpisodeID(env, e.name, e.pendingSince.value);
    if tracked.None? {
      AskEnds(env, p, e, id);
    } else if tracked.value.arn != id {
      RetireEnds(env, p, e.name, e.arn, tracked.value);
      assert AfterSnapshot(env, p, e) == AfterRetire(env, p, e.name);
    } else {
      PollEnds(env, p, e, tracked.value);
    }
  }

  lemma PendEnds(env: Env, p: InstancePass, e: Entry)
    requires e.rtype == RDS && Find(p.ledger, RDS, e.name) == Some(e) && !AfterPend(env, p, e).failed
    ensures var id := IdFor(env, e, Find(p.ledger, RDSSnapshot, e.name));
      WoundDown(env, e, ViewOf(p, e.name, e.arn, id), ViewOf(AfterPend(env, p, e), e.name, e.arn, id))
  {
    var (w, tags) := ListTags(p.world, e.arn);
    FindRemove(p.ledger, RDS, e.name, RDS, e.name);
    FindRemove(p.ledger, RDS, e.name, RDSSnapshot, e.name);
    FindUpsert(p.ledger, Marked(env, e), RDS, e.name);
    FindUpsert(p.ledger, Marked(env, e), RDSSnapshot, e.name);
    if e.pendingSince.Some? && env.now - e.pendingSince.value >= QUIET_WINDOW && tags.Answer? {
      var p2 := Report(p.(world := w), e.name, PendingReason(env.now, e.pendingSince.value));
      assert AfterPend(env, p, e) == AfterSnapshot(env, p2, e);
      SnapshotEnds(env, p2, e);
    }
  }

  lemma LetsGo(env: Env, w: Cloud, arn: string)
    ensures var (w', letting) := LetGo(env, w, arn);
      var t, t' := TagsOf(w, arn), TagsOf(w', arn);
      && w'.snapshots == w.snapshots
      && (letting.Gone? ==> t.None? && t'.None?)
      && (letting.Kept? ==> t.Some? && t'.Some? && !IsOwnedBy(t'.value, env.cr))
  {
    if arn in w.instances {
      TagsAreMine(w.instances[arn], env.cr);
    }
  }

  lemma RetainEnds(env: Env, p: InstancePass, e: Entry, id: string)
    requires e.rtype == RDS && Find(p.ledger, RDS, e.name) == Some(e) && !AfterRetain(env, p, e).failed
    ensures LetGoOf(env, e, ViewOf(p, e.name, e.arn, id), ViewOf(AfterRetain(env, p, e), e.name, e.arn, id))
  {
    LetsGo(env, p.world, e.arn);
    FindRemove(p.ledger, RDS, e.name, RDS, e.name);
    FindRemove(p.ledger, RDS, e.name, RDSSnapshot, e.name);
    FindUpsert(p.ledger, Relinquish(e, env.now), RDS, e.name);
    FindUpsert(p.ledger, Relinquish(e, env.now), RDSSnapshot, e.name);
  }

  lemma RestoreEnds(env: Env, p: InstancePass, e: Entry, id: string)
    requires e.rtype == RDS && Find(p.ledger, RDS, e.name) == Some(e) && !AfterRestore(env, p, e).failed
    requires Find(p.ledger, RDSSnapshot, e.name).Some? ==> id == Find(p.ledger, RDSSnapshot, e.name).value.arn
    ensures GivenBack(env, e, ViewOf(p, e.name, e.arn, id), ViewOf(AfterRestore(env, p, e), e.name, e.arn, id))
  {
    var p1, cleared := Restored(p, e), e.(pendingSince := None);
    FindUpsert(p.ledger, cleared, RDS, e.name);
    FindUpsert(p.ledger, cleared, RDSSnapshot, e.name);
    if Find(p.ledger, RDSSnapshot, e.name).Some? {
      RetireEnds(env, p1, e.name, e.arn, Find(p.ledger, RDSSnapshot, e.name).value);
    }
  }

  lemma EntryEnds(env: Env, declared: set<string>, p: InstancePass, e: Entry)
    requires e.rtype == RDS && Find(p.ledger, RDS, e.name) == Some(e) && !AfterEntry(env, declared, p, e).failed
    ensures var id := IdFor(env, e, Find(p.ledger, RDSSnapshot, e.name));
      Ended(env, declared, e, ViewOf(p, e.name, e.arn, id), ViewOf(AfterEntry(env, declared, p, e), e.name, e.arn, id))
  {
    var id := IdFor(env, e, Find(p.ledger, RDSSnapshot, e.name));
    if e.name in declared {
      RestoreEnds(env, p, e, id);
    } else if e.policy == Retain {
      RetainEnds(env, p, e, id);
    } else {
      PendEnds(env, p, e);
    }
  }

  // ------------------------------------------------------- the other entries

  ghost predicate SameHere(w: Cloud, w': Cloud, arn: string, id: string) {
    TagsOf(w', arn) == TagsOf(w, arn) && SnapshotAt(w', id) == SnapshotAt(w, id)
  }

  lemma CallsElsewhere(env: Env, w: Cloud, name: string, x: string, other: string, arn: string, id: string)
    ensures SameHere(w, DescribeSnapshot(w, x).0, arn, id) && SameHere(w, ListTags(w, other).0, arn, id)
    ensures x != id ==> SameHere(w, DeleteSnapshot(w, name, x).0, arn, id)
    ensures x != id ==> SameHere(w, CreateSnapshot(w, name, x, OwnerTags(env.cr)).0, arn, id)
  {
  }

  lemma LetGoElsewhere(env: Env, w: Cloud, other: string, arn: string, id: string)
    requires other != arn
    ensures SameHere(w, LetGo(env, w, other).0, arn, id)
  {
  }

  lemma RetireElsewhere(env: Env, p: InstancePass, name: string, arn: string, id: string)
    requires Find(p.ledger, RDSSnapshot, name).Some? ==> Find(p.ledger, RDSSnapshot, name).value.arn != id
    ensures SameHere(p.world, AfterRetire(env, p, name).world, arn, id)
  {
    var f := Find(p.ledger, RDSSnapshot, name);
    if f.Some? {
      var w1 := DescribeSnapshot(p.world, f.value.arn).0;
      CallsElsewhere(env, p.world, name, f.value.arn, "", arn, id);
      CallsElsewhere(env, w1, name, f.value.arn, "", arn, id);
      assert AfterRetire(env, p, name).world in {w1, DeleteSnapshot(w1, name, f.value.arn).0};
    }
  }

  lemma SnapshotElsewhere(env: Env, p: InstancePass, e: Entry, arn: string, id: string)
    requires e.rtype == RDS && e.pendingSince.Some? && EpisodeID(env, e.name, e.pendingSince.value) != id
    requires Find(p.ledger, RDSSnapshot, e.name).Some? ==> Find(p.ledger, RDSSnapshot, e.name).value.arn != id
    ensures SameHere(p.world, AfterSnapshot(env, p, e).world, arn, id)
  {
    var own := EpisodeID(env, e.name, e.pendingSince.value);
    RetireElsewhere(env, p, e.name, arn, id);
    CallsElsewhere(env, p.world, e.name, own, "", arn, id);
    assert AfterSnapshot(env, p, e).world in
      {AfterRetire(env, p, e.name).world, p.world, CreateSnapshot(p.world, e.name, own, OwnerTags(env.cr)).0, DescribeSnapshot(p.world, own).0};
  }

  lemma PendElsewhere(env: Env, p: InstancePass, e: Entry, arn: string, id: string)
    requires e.rtype == RDS && (e.pendingSince.Some? ==> EpisodeID(env, e.name, e.pendingSince.value) != id)
    requires Find(p.ledger, RDSSnapshot, e.name).Some? ==> Find(p.ledger, RDSSnapshot, e.name).value.arn != id
    ensures SameHere(p.world, AfterPend(env, p, e).world, arn, id)
  {
    var w := ListTags(p.world, e.arn).0;
    CallsElsewhere(env, p.world, "", "", e.arn, arn, id);
    if e.pendingSince.Some? {
      var p2 := Report(p.(world := w), e.name, PendingReason(env.now, e.pendingSince.value));
      SnapshotElsewhere(env, p2, e, arn, id);
      assert AfterPend(env, p, e).world in {w, AfterSnapshot(env, p2, e).world};
    } else {
      assert AfterPend(env, p, e).world == w;
    }
  }

  // The entry is about another instance and another snapshot.
  ghost predicate Elsewhere(env: Env, l: seq<Entry>, o: Entry, arn: string, id: string) {
    o.rtype == RDS ==>
      && o.arn != arn && (o.pendingSince.Some? ==> EpisodeID(env, o.name, o.pendingSince.value) != id)
      && (Find(l, RDSSnapshot, o.name).Some? ==> Find(l, RDSSnapshot, o.name).value.arn != id)
  }

  lemma OtherLeavesIt(env: Env, declared: set<string>, p: InstancePass, o: Entry, arn: string, id: string)
    requires Elsewhere(env, p.ledger, o, arn, id)
    ensures SameHere(p.world, AfterEntry(env, declared, p, o).world, arn, id)
  {
    if o.rtype == RDS {
      if o.name in declared {
        var p1 := Restored(p, o);
        EditFrame(p.ledger, p1.ledger, RDS, o.name, RDSSnapshot, o.name);
        RetireElsewhere(env, p1, o.name, arn, id);
      } else if o.policy == Retain {
        LetGoElsewhere(env, p.world, o.arn, arn, id);
        assert AfterRetain(env, p, o).world in {p.world, LetGo(env, p.world, o.arn).0};
      } else {
        PendElsewhere(env, p, o, arn, id);
      }
    }
  }

  // The tags at the ARN and the snapshot under the id.
  function Here(arn: string, id: string): Cloud -> (Option<Tags>, Option<Snapshot>) {
    (w: Cloud) => (TagsOf(w, arn), SnapshotAt(w, id))
  }

  lemma OneLeavesIt(env: Env, declared: set<string>, w: Cloud, l: seq<Entry>, i: nat, arn: string, id: string)
    requires Unique(l) && i < |l| && Elsewhere(env, l, l[i], arn, id)
    ensures UnmovedAt(Step(env, declared), l, i, Pass(w, l, [], false), Here(arn, id))
  {
    var q := Upto(Step(env, declared), l, i, Pass(w, l, [], false));
    if l[i].rtype == RDS {
      StepFinds(env, declared, w, l, i, RDSSnapshot);
    }
    assert Elsewhere(env, q.ledger, l[i], arn, id);
    OtherLeavesIt(env, declared, q, l[i], arn, id);
  }

  lemma OthersLeaveIt(env: Env, declared: set<string>, w: Cloud, l: seq<Entry>, a: nat, b: nat, arn: string, id: string)
    requires Unique(l) && a <= b <= |l| && forall i :: a <= i < b ==> Elsewhere(env, l, l[i], arn, id)
    ensures var start := Pass(w, l, [], false);
      SameHere(Upto(Step(env, declared), l, a, start).world, Upto(Step(env, declared), l, b, start).world, arn, id)
  {
    var step, start, view := Step(env, declared), Pass(w, l, [], false), Here(arn, id);
    forall i: nat | a <= i < b ensures UnmovedAt(step, l, i, start, view) {
      OneLeavesIt(env, declared, w, l, i, arn, id);
    }
    UnmovedBetween(step, l, a, b, start, view);
    var q, q' := Upto(step, l, a, start).world, Upto(step, l, b, start).world;
    assert view(q) == (TagsOf(q, arn), SnapshotAt(q, id)) && view(q') == (TagsOf(q', arn), SnapshotAt(q', id));
  }

  // ------------------------------------------------------------------ a pass

  // No other instance of the ledger has the ARN or a claim on the snapshot id.
  ghost predicate Apart(env: Env, l: seq<Entry>, n: string, arn: string, id: string) {
    forall o :: o in l && o.rtype == RDS && o.name != n ==> Elsewhere(env, l, o, arn, id)
  }

  // The loop over the instances.
  lemma InstancesEnd(env: Env, declared: set<string>, w: Cloud, l: seq<Entry>, e: Entry, id: string)
    requires Unique(l) && e in l && e.rtype == RDS && id == IdFor(env, e, Find(l, RDSSnapshot, e.name)) && Apart(env, l, e.name, e.arn, id)
    requires !AfterInstances(env, declared, w, l).failed
    ensures Ended(env, declared, e, ViewOf(Pass(w, l, [], false), e.name, e.arn, id), ViewOf(AfterInstances(env, declared, w, l), e.name, e.arn, id))
  {
    var step, start := Step(env, declared), Pass(w, l, [], false);
    var k :| 0 <= k < |l| && l[k] == e;
    forall i | 0 <= i < |l| && i != k ensures Elsewhere(env, l, l[i], e.arn, id) {
      if i < k {
        assert !l[i].Is(l[k].rtype, l[k].name);
      } else {
        assert !l[k].Is(l[i].rtype, l[i].name);
      }
    }
    OthersLeaveIt(env, declared, w, l, 0, k, e.arn, id);
    OthersLeaveIt(env, declared, w, l, k + 1, |l|, e.arn, id);
    StepFinds(env, declared, w, l, k, RDS);
    StepFinds(env, declared, w, l, k, RDSSnapshot);
    StepIsSteady(env, declared);
    NotFailedAt(step, l, k, start);
    FindMember(l, e);
    EntryEnds(env, declared, Upto(step, l, k, start), e);
  }

  // The loop over the snapshots whose instance is gone: looked up once a day,
  // forgotten when AWS has it no more, verified when it is available.
  ghost predicate Checked(env: Env, v: View, v': View) {
    && v' == v.(tracked := v'.tracked)
    && (if v.entry.Some? || v.tracked.None? then v' == v
        else
          var x := v.tracked.value;
          if x.state.Verified? && x.lastVerifiedAt.Some? && env.now - x.lastVerifiedAt.value <= 24 * HOUR then v' == v
          else if v.snapshot.None? then v'.tracked.None?
          else v'.tracked == if v.snapshot.value.status.Available? then Some(x.(state := Verified, lastVerifiedAt := Some(env.now))) else Some(x))
  }

  lemma OrphanKeepsWorld(env: Env, p: InstancePass, x: Entry)
    ensures AfterOrphan(env, p, x).world.instances == p.world.instances && AfterOrphan(env, p, x).world.snapshots == p.world.snapshots
  {
  }

  lemma {:induction false} OrphansKeepWorld(env: Env, l: seq<Entry>, k: nat, p: InstancePass)
    requires k <= |l|
    ensures var q := Upto(OrphanStep(env), l, k, p).world; q.instances == p.world.instances && q.snapshots == p.world.snapshots
  {
    if k > 0 {
      OrphansKeepWorld(env, l, k - 1, p);
      OrphanKeepsWorld(env, Upto(OrphanStep(env), l, k - 1, p), l[k - 1]);
    }
  }

  lemma OrphanEnds(env: Env, p: InstancePass, x: Entry, arn: string)
    requires x.rtype == RDSSnapshot && Find(p.ledger, RDSSnapshot, x.name) == Some(x) && !AfterOrphan(env, p, x).failed
    ensures Checked(env, ViewOf(p, x.name, arn, x.arn), ViewOf(AfterOrphan(env, p, x), x.name, arn, x.arn))
  {
    OrphanKeepsWorld(env, p, x);
    FindRemove(p.ledger, RDSSnapshot, x.name, RDSSnapshot, x.name);
    FindUpsert(p.ledger, Seen(env, x), RDSSnapshot, x.name);
    EditFrame(p.ledger, AfterOrphan(env, p, x).ledger, RDSSnapshot, x.name, RDS, x.name);
  }

  lemma OrphansEnd(env: Env, p: InstancePass, n: string, arn: string, id: string)
    requires Unique(p.ledger) && !Upto(OrphanStep(env), p.ledger, |p.ledger|, p).failed
    requires Find(p.ledger, RDSSnapshot, n).Some? ==> id == Find(p.ledger, RDSSnapshot, n).value.arn
    ensures Checked(env, ViewOf(p, n, arn, id), ViewOf(Upto(OrphanStep(env), p.ledger, |p.ledger|, p), n, arn, id))
  {
    var step, l := OrphanStep(env), p.ledger;
    OrphanStepIsLocal(env);
    OrphansKeepWorld(env, l, |l|, p);
    Outside(step, RDSSnapshot, {RDSSnapshot}, l, p, RDS, n);
    if Find(l, RDSSnapshot, n).None? {
      Outside(step, RDSSnapshot, {RDSSnapshot}, l, p, RDSSnapshot, n);
    } else {
      FindSound(l, RDSSnapshot, n);
      var k :| 0 <= k < |l| && l[k] == Find(l, RDSSnapshot, n).value;
      OrphanStepIsSteady(env);
      NotFailedAt(step, l, k, p);
      OrphansKeepWorld(env, l, k, p);
      AtOwnEntry(step, RDSSnapshot, {RDSSnapshot}, l, k, p, RDSSnapshot);
      AtOwnEntry(step, RDSSnapshot, {RDSSnapshot}, l, k, p, RDS);
      OrphanEnds(env, Upto(step, l, k, p), l[k], arn);
      OrphanKeepsWorld(env, Upto(step, l, k, p), l[k]);
    }
  }

  // After a pass without an error, over any unique ledger in which no other
  // instance has its ARN or its snapshot's id, every instance entry has come to
  // its end, and then a snapshot whose instance is gone has been checked.
  lemma PassEnds(env: Env, declared: set<string>, w: Cloud, l: seq<Entry>, e: Entry, id: string)
    requires Unique(l) && e in l && e.rtype == RDS && id == IdFor(env, e, Find(l, RDSSnapshot, e.name)) && Apart(env, l, e.name, e.arn, id)
    requires !AfterCleanup(env, declared, w, l).failed
    ensures exists mid ::
      && Ended(env, declared, e, ViewOf(Pass(w, l, [], false), e.name, e.arn, id), mid)
      && Checked(env, mid, ViewOf(AfterCleanup(env, declared, w, l), e.name, e.arn, id))
  {
    var p := AfterInstances(env, declared, w, l);
    OrphanStepIsSteady(env);
    SteadyUpto(OrphanStep(env), p.ledger, 0, |p.ledger|, p);
    InstancesEnd(env, declared, w, l, e, id);
    SnapshotRuns.PassStaysUnique(env, declared, w, l);
    KeepsId(env, declared, e, ViewOf(Pass(w, l, [], false), e.name, e.arn, id), ViewOf(p, e.name, e.arn, id), id);
    OrphansEnd(env, p, e.name, e.arn, id);
    assert Checked(env, ViewOf(p, e.name, e.arn, id), ViewOf(AfterCleanup(env, declared, w, l), e.name, e.arn, id));
  }

  // A snapshot tracked afterwards is the one in question.
  lemma KeepsId(env: Env, declared: set<string>, e: Entry, v: View, v': View, id: string)
    requires Ended(env, declared, e, v, v') && id == IdFor(env, e, v.tracked)
    ensures v'.tracked.Some? ==> v'.tracked.value.arn == id
  {
  }

  // The final snapshot: an undeclared instance of Delete policy, the CR's own in
  // AWS and marked ten minutes ago or longer, with no snapshot tracked, has after
  // a pass without an error a snapshot of the episode in AWS, asked for in this
  // pass, and tracked as being made, with the instance's key.
  lemma FinalSnapshotIsTaken(env: Env, declared: set<string>, w: Cloud, l: seq<Entry>, e: Entry, t0: int, id: string)
    requires Unique(l) && e in l && e.rtype == RDS && e.name !in declared && e.policy == Delete
    requires e.pendingSince == Some(t0) && env.now - t0 >= 10 * MINUTE
    requires e.arn in w.instances && IsOwnedBy(w.instances[e.arn], env.cr) && Find(l, RDSSnapshot, e.name).None?
    requires id == SnapshotID(env.hash, env.cr.namespace, env.cr.name, e.name, t0 / (MINUTE / 60)) && Apart(env, l, e.name, e.arn, id)
    requires !AfterCleanup(env, declared, w, l).failed
    ensures var p := AfterCleanup(env, declared, w, l);
      var x := Find(p.ledger, RDSSnapshot, e.name);
      && x.Some? && x.value.arn == id && x.value.state == Creating && x.value.kmsKeyARN == e.kmsKeyARN
      && id in p.world.snapshots
      && exists d :: |w.log| <= d < |p.world.log| && p.world.log[d] == CreateSent(e.name, id)
  {
    FindMember(l, e);
    PassEnds(env, declared, w, l, e, id);
    var v, v' := ViewOf(Pass(w, l, [], false), e.name, e.arn, id), ViewOf(AfterCleanup(env, declared, w, l), e.name, e.arn, id);
    var mid :| Ended(env, declared, e, v, mid) && Checked(env, mid, v');
    TakenView(env, declared, e, t0, v, mid, v');
    AskedInPass(env, declared, w, l, e, id);
  }

  lemma AskedInPass(env: Env, declared: set<string>, w: Cloud, l: seq<Entry>, e: Entry, id: string)
    requires Unique(l) && Find(l, RDS, e.name) == Some(e) && Find(l, RDSSnapshot, e.name).None?
    requires var x := Find(AfterCleanup(env, declared, w, l).ledger, RDSSnapshot, e.name); x.Some? && x.value.arn == id
    ensures var log := AfterCleanup(env, declared, w, l).world.log; exists d :: |w.log| <= d < |log| && log[d] == CreateSent(e.name, id)
  {
    SnapshotRuns.PassTracks(env, declared, w, l, e.name);
  }

  lemma TakenView(env: Env, declared: set<string>, e: Entry, t0: int, v: View, mid: View, v': View)
    requires Ended(env, declared, e, v, mid) && Checked(env, mid, v')
    requires e.name !in declared && e.policy == Delete && e.pendingSince == Some(t0) && env.now - t0 >= 10 * MINUTE && v.tags.Some?
    ensures Snapshotted(env, e, t0, v, v')
  {
  }

  // And once AWS has completed it, the next such pass records it as verified.
  lemma FinalSnapshotIsVerified(env: Env, declared: set<string>, w: Cloud, l: seq<Entry>, e: Entry, t0: int, x: Entry)
    requires Unique(l) && e in l && e.rtype == RDS && e.name !in declared && e.policy == Delete
    requires e.pendingSince == Some(t0) && env.now - t0 >= 10 * MINUTE
    requires e.arn in w.instances && IsOwnedBy(w.instances[e.arn], env.cr)
    requires Find(l, RDSSnapshot, e.name) == Some(x)
    requires x.arn == SnapshotID(env.hash, env.cr.namespace, env.cr.name, e.name, t0 / (MINUTE / 60)) && Apart(env, l, e.name, e.arn, x.arn)
    requires x.arn in w.snapshots && w.snapshots[x.arn].status.Available?
    requires !AfterCleanup(env, declared, w, l).failed
    ensures var p := AfterCleanup(env, declared, w, l);
      && Find(p.ledger, RDSSnapshot, e.name).Some? && Find(p.ledger, RDSSnapshot, e.name).value.state == Verified
      && x.arn in p.world.snapshots && p.world.snapshots[x.arn] == w.snapshots[x.arn]
  {
    FindMember(l, e);
    PassEnds(env, declared, w, l, e, x.arn);
    var v, v' := ViewOf(Pass(w, l, [], false), e.name, e.arn, x.arn), ViewOf(AfterCleanup(env, declared, w, l), e.name, e.arn, x.arn);
    var mid :| Ended(env, declared, e, v, mid) && Checked(env, mid, v');
    TakenView(env, declared, e, t0, v, mid, v');
  }

  // ------------------------------------------------------ when nothing fails

  // AWS lacks the snapshot and says so with a fault.
  ghost predicate Faulted(w: Cloud, id: string) {
    id !in w.snapshots && w.faultWhenMissing
  }

  // The final snapshot cannot be retired, asked for or looked up.
  ghost predicate Unsnapped(env: Env, e: Entry, since: int, tracked: Option<Entry>, w: Cloud) {
    match tracked
    case None => !NamedInARN(e.arn)
    case Some(x) =>
      if x.arn != SnapshotID(env.hash, env.cr.namespace, env.cr.name, e.name, since / (MINUTE / 60)) then Faulted(w, x.arn)
      else !x.state.Verified? && (!NamedInARN(e.arn) || Faulted(w, x.arn))
  }

  // A tracked snapshot of a declared instance is missing with a fault, or an
  // instance to be deleted by hand is not this CR's or has no final snapshot to
  // be had.
  ghost predicate Unable(env: Env, declared: set<string>, e: Entry, tracked: Option<Entry>, w: Cloud) {
    && e.rtype == RDS
    && (if e.name in declared then tracked.Some? && Faulted(w, tracked.value.arn)
        else && e.policy == Delete && e.arn in w.instances
             && (|| !IsOwnedBy(w.instances[e.arn], env.cr)
                 || (&& e.pendingSince.Some? && env.now - e.pendingSince.value >= 10 * MINUTE
                     && Unsnapped(env, e, e.pendingSince.value, tracked, w))))
  }

  ghost predicate Quiet(w: Cloud, w': Cloud) {
    w'.faults == [] && w'.faultWhenMissing == w.faultWhenMissing
  }

  lemma RetireFails(env: Env, p: InstancePass, n: string)
    requires p.world.faults == []
    ensures var q, f := AfterRetire(env, p, n), Find(p.ledger, RDSSnapshot, n);
      Quiet(p.world, q.world) && (q.failed <==> p.failed || (f.Some? && Faulted(p.world, f.value.arn)))
  {
  }

  lemma SnapshotFails(env: Env, p: InstancePass, e: Entry)
    requires e.rtype == RDS && e.pendingSince.Some? && p.world.faults == []
    ensures var q := AfterSnapshot(env, p, e);
      && Quiet(p.world, q.world)
      && (q.failed <==> p.failed || Unsnapped(env, e, e.pendingSince.value, Find(p.ledger, RDSSnapshot, e.name), p.world))
  {
    var f, id := Find(p.ledger, RDSSnapshot, e.name), EpisodeID(env, e.name, e.pendingSince.value);
    if f.Some? && f.value.arn != id {
      RetireFails(env, p, e.name);
      assert AfterSnapshot(env, p, e) == AfterRetire(env, p, e.name);
    }
  }

  lemma PendFails(env: Env, p: InstancePass, e: Entry)
    requires e.rtype == RDS && e.policy == Delete && p.world.faults == []
    ensures var q := AfterPend(env, p, e);
      Quiet(p.world, q.world) && (q.failed <==> p.failed || Unable(env, {}, e, Find(p.ledger, RDSSnapshot, e.name), p.world))
  {
    var w := ListTags(p.world, e.arn).0;
    if e.pendingSince.Some? {
      var p2 := Report(p.(world := w), e.name, PendingReason(env.now, e.pendingSince.value));
      SnapshotFails(env, p2, e);
      if e.arn in p.world.instances && IsOwnedBy(p.world.instances[e.arn], env.cr) && env.now - e.pendingSince.value >= QUIET_WINDOW {
        assert AfterPend(env, p, e) == AfterSnapshot(env, p2, e);
      }
    }
  }

  lemma RetainFails(env: Env, p: InstancePass, e: Entry)
    requires e.rtype == RDS && p.world.faults == []
    ensures Quiet(p.world, AfterRetain(env, p, e).world) && AfterRetain(env, p, e).failed == p.failed
  {
    LetGoWorks(env, p.world, e.arn);
  }

  lemma LetGoWorks(env: Env, w: Cloud, arn: string)
    requires w.faults == []
    ensures Quiet(w, LetGo(env, w, arn).0) && !LetGo(env, w, arn).1.Stopped?
  {
  }

  lemma EntryFails(env: Env, declared: set<string>, p: InstancePass, e: Entry)
    requires p.world.faults == []
    ensures var q := AfterEntry(env, declared, p, e);
      Quiet(p.world, q.world) && (q.failed <==> p.failed || Unable(env, declared, e, Find(p.ledger, RDSSnapshot, e.name), p.world))
  {
    if e.rtype == RDS {
      if e.name in declared {
        var p1 := Restored(p, e);
        EditFrame(p.ledger, p1.ledger, RDS, e.name, RDSSnapshot, e.name);
        RetireFails(env, p1, e.name);
      } else if e.policy == Retain {
        RetainFails(env, p, e);
      } else {
        PendFails(env, p, e);
      }
    }
  }

  lemma StaysQuiet(env: Env, declared: set<string>, w: Cloud, l: seq<Entry>, k: nat)
    requires w.faults == [] && k <= |l|
    ensures Quiet(w, Upto(Step(env, declared), l, k, Pass(w, l, [], false)).world)
  {
    var quiet := (q: InstancePass) => Quiet(w, q.world);
    forall q, e | quiet(q) ensures quiet(Step(env, declared)(q, e)) {
      EntryFails(env, declared, q, e);
    }
    Lasts(Step(env, declared), l, 0, k, Pass(w, l, [], false), quiet);
  }

  // Every instance of the ledger is apart from the others.
  ghost predicate AllApart(env: Env, l: seq<Entry>) {
    forall e :: e in l && e.rtype == RDS ==> Apart(env, l, e.name, e.arn, IdFor(env, e, Find(l, RDSSnapshot, e.name)))
  }

  lemma UnableThere(env: Env, declared: set<string>, e: Entry, tracked: Option<Entry>, w: Cloud, w': Cloud)
    requires SameHere(w, w', e.arn, IdFor(env, e, tracked)) && w'.faultWhenMissing == w.faultWhenMissing
    ensures Unable(env, declared, e, tracked, w') <==> Unable(env, declared, e, tracked, w)
  {
  }

  // What a step meets is what the pass began with.
  lemma SameCause(env: Env, declared: set<string>, w: Cloud, l: seq<Entry>, i: nat)
    requires Unique(l) && AllApart(env, l) && w.faults == [] && i < |l| && l[i].rtype == RDS
    ensures var q, f := Upto(Step(env, declared), l, i, Pass(w, l, [], false)), Find(l, RDSSnapshot, l[i].name);
      && Find(q.ledger, RDSSnapshot, l[i].name) == f
      && (Unable(env, declared, l[i], f, q.world) <==> Unable(env, declared, l[i], f, w))
  {
    var e, f := l[i], Find(l, RDSSnapshot, l[i].name);
    var id := IdFor(env, e, f);
    forall j | 0 <= j < i ensures Elsewhere(env, l, l[j], e.arn, id) {
      assert !l[j].Is(l[i].rtype, l[i].name);
    }
    OthersLeaveIt(env, declared, w, l, 0, i, e.arn, id);
    StaysQuiet(env, declared, w, l, i);
    StepFinds(env, declared, w, l, i, RDSSnapshot);
    UnableThere(env, declared, e, f, w, Upto(Step(env, declared), l, i, Pass(w, l, [], false)).world);
  }

  lemma InstancesFailIff(env: Env, declared: set<string>, w: Cloud, l: seq<Entry>)
    requires Unique(l) && AllApart(env, l) && w.faults == []
    ensures AfterInstances(env, declared, w, l).failed <==>
      exists e :: e in l && Unable(env, declared, e, Find(l, RDSSnapshot, e.name), w)
  {
    var step, start := Step(env, declared), Pass(w, l, [], false);
    var cause := (i: nat) => i < |l| && Unable(env, declared, l[i], Find(l, RDSSnapshot, l[i].name), w);
    forall i: nat | i < |l| ensures FailsAt(step, l, i, start, cause) {
      StaysQuiet(env, declared, w, l, i);
      EntryFails(env, declared, Upto(step, l, i, start), l[i]);
      if l[i].rtype == RDS {
        SameCause(env, declared, w, l, i);
      }
    }
    FailsIff(step, l, |l|, start, cause);
    if e :| e in l && Unable(env, declared, e, Find(l, RDSSnapshot, e.name), w) {
      var i :| 0 <= i < |l| && l[i] == e;
      assert cause(i);
    }
  }

  lemma {:induction false} OrphansNeverFail(env: Env, l: seq<Entry>, k: nat, p: InstancePass)
    requires k <= |l| && p.world.faults == []
    ensures var q := Upto(OrphanStep(env), l, k, p); q.world.faults == [] && q.failed == p.failed
  {
    if k > 0 {
      OrphansNeverFail(env, l, k - 1, p);
    }
  }

  // With every call answered, a pass fails exactly if the ledger has an instance
  // it cannot serve.
  lemma PassFailsIff(env: Env, declared: set<string>, w: Cloud, l: seq<Entry>)
    requires Unique(l) && AllApart(env, l) && w.faults == []
    ensures AfterCleanup(env, declared, w, l).failed <==>
      exists e :: e in l && Unable(env, declared, e, Find(l, RDSSnapshot, e.name), w)
  {
    var p := AfterInstances(env, declared, w, l);
    InstancesFailIff(env, declared, w, l);
    StaysQuiet(env, declared, w, l, |l|);
    OrphansNeverFail(env, p.ledger, |p.ledger|, p);
  }
}
