/**
 The end of an RDS instance. The operator never deletes one: it lets a retained
 instance go, and gives a dropped one a final snapshot, one per episode.
 */
module InstanceCleanup {
  import opened Ledger
  import opened Sweep
  import opened Ownership
  import opened Naming
  import opened InstanceCloud

  const SECOND: int := MINUTE / 60
  const GRACE_PERIOD: int := HOUR
  const QUIET_WINDOW: int := 10 * MINUTE

  datatype Reason = Retained | Pending | Stuck

  datatype Result = Result(name: string, reason: Reason)

  datatype Env = Env(cr: CR, now: int, hash: Hash)

  type InstancePass = Pass<Cloud, Result>

  function DeclaredNames(spec: seq<string>, deleting: bool): (r: set<string>)
    ensures forall n :: n in r <==> !deleting && n in spec
  {
    if deleting then {} else set n | n in spec
  }

  function Fail(p: InstancePass): InstancePass {
    p.(failed := true)
  }

  function Report(p: InstancePass, name: string, reason: Reason): InstancePass {
    p.(results := p.results + [Result(name, reason)])
  }

  function PendingReason(now: int, since: int): Reason {
    if now - since > GRACE_PERIOD then Stuck else Pending
  }

  // The snapshot of the episode that began at `since`, told apart by its second.
  function EpisodeID(env: Env, name: string, since: int): string {
    SnapshotID(env.hash, env.cr.namespace, env.cr.name, name, since / SECOND)
  }

  function Forget(p: InstancePass, name: string): InstancePass {
    p.(ledger := Remove(p.ledger, RDSSnapshot, name))
  }

  // Deletes the tracked snapshot, or stops tracking one that is not there, not
  // ours, or failed.
  function AfterRetire(env: Env, p: InstancePass, name: string): (q: InstancePass)
    ensures q.ledger == p.ledger || q.ledger == Remove(p.ledger, RDSSnapshot, name)
    ensures (p.failed ==> q.failed) && p.results <= q.results
    ensures q.world.instances.Keys == p.world.instances.Keys
  {
    var tracked := Find(p.ledger, RDSSnapshot, name);
    if tracked.None? then p
    else
      var id := tracked.value.arn;
      var (w, found) := DescribeSnapshot(p.world, id);
      var p1 := p.(world := w);
      if found.Broken? || found.MissingFault? then Fail(p1)
      else if found.Empty? || !IsOwnedBy(found.snapshot.tags, env.cr) then Forget(p1, name)
      else if !tracked.value.state.Verified? && found.snapshot.status.SnapshotFailed? then Forget(p1, name)
      else if !tracked.value.state.Verified? && found.snapshot.status.InProgress? then p1
      else
        var (w2, ok) := DeleteSnapshot(w, name, id);
        if ok then Forget(p.(world := w2), name) else Fail(p.(world := w2))
  }

  function AfterRestore(env: Env, p: InstancePass, e: Entry): (q: InstancePass)
    requires e.rtype == RDS
    ensures (p.failed ==> q.failed) && p.results <= q.results
    ensures q.world.instances.Keys == p.world.instances.Keys
  {
    AfterRetire(env, Restored(p, e), e.name)
  }

  // The pending mark taken off.
  function Restored(p: InstancePass, e: Entry): (q: InstancePass)
    requires e.rtype == RDS
    ensures EditOf(p.ledger, q.ledger, e) && q.world == p.world && q.failed == p.failed && q.results == p.results
  {
    if e.pendingSince.None? then p
    else
      var cleared := e.(pendingSince := None);
      assert cleared.Is(e.rtype, e.name);
      p.(ledger := Upsert(p.ledger, cleared))
  }

  datatype Letting = Gone | Stopped | Kept

  function LetGo(env: Env, w: Cloud, arn: string): (r: (Cloud, Letting))
    ensures w.log <= r.0.log && (forall i :: |w.log| <= i < |r.0.log| ==> r.0.log[i].TagsRead?) && r.0.snapshots == w.snapshots
    ensures r.0.instances.Keys == w.instances.Keys
  {
    var (w1, tags) := ListTags(w, arn);
    if tags.NotFound? then (w1, Gone)
    else if tags.Failed? then (w1, Stopped)
    else if !IsOwnedBy(tags.value, env.cr) then (w1, Kept)
    else
      var (w2, _) := Unmodelled(w1);
      var (w3, ok) := UntagOwner(w2, arn);
      (w3, if ok then Kept else Stopped)
  }

  function AfterRetain(env: Env, p: InstancePass, e: Entry): (q: InstancePass)
    requires e.rtype == RDS
    ensures EditOf(p.ledger, q.ledger, e) && (p.failed ==> q.failed) && p.results <= q.results
    ensures || (q.ledger == p.ledger && (q.failed || e.state.Relinquished?))
            || q.ledger == Remove(p.ledger, RDS, e.name)
            || q.ledger == Upsert(p.ledger, Relinquish(e, env.now))
    ensures p.world.log <= q.world.log && forall i :: |p.world.log| <= i < |q.world.log| ==> q.world.log[i].TagsRead?
    ensures q.world.instances.Keys == p.world.instances.Keys
  {
    if e.state.Relinquished? && !NeedsRelinquishedRecheck(e, env.now) then Report(p, e.name, Retained)
    else
      var (w, letting) := LetGo(env, p.world, e.arn);
      var q := p.(world := w);
      match letting
      case Stopped => Fail(q)
      case Gone => q.(ledger := Remove(q.ledger, RDS, e.name))
      case Kept =>
        assert Relinquish(e, env.now).Is(e.rtype, e.name);
        Report(q.(ledger := Upsert(q.ledger, Relinquish(e, env.now))), e.name, Retained)
  }

  function Marked(env: Env, e: Entry): (r: Entry)
    ensures r.Is(e.rtype, e.name) && r.arn == e.arn
  {
    e.(pendingSince := Some(if e.pendingSince.None? then env.now else e.pendingSince.value))
  }

  function MarkPending(env: Env, p: InstancePass, e: Entry): InstancePass {
    Report(p.(ledger := Upsert(p.ledger, Marked(env, e))), e.name, PendingReason(env.now, Marked(env, e).pendingSince.value))
  }

  predicate NamedInARN(arn: string) {
    arn != "" && ':' in arn && arn[|arn| - 1] != ':'
  }

  // The record of a snapshot just asked for; it keeps the instance's key alive.
  function Asked(env: Env, e: Entry, id: string): (r: Entry)
    ensures r.Is(RDSSnapshot, e.name) && r.arn == id
  {
    Fresh(RDSSnapshot, e.name, id, Retain, false, Creating, env.now, None).(kmsKeyARN := e.kmsKeyARN)
  }

  function Seen(env: Env, x: Entry): (r: Entry)
    ensures r.Is(x.rtype, x.name) && r.arn == x.arn
  {
    x.(state := Verified, lastVerifiedAt := Some(env.now))
  }

  // Creates the snapshot of this episode once, then polls it. A snapshot of an
  // earlier episode is retired first.
  function AfterSnapshot(env: Env, p: InstancePass, e: Entry): (q: InstancePass)
    requires e.rtype == RDS && e.pendingSince.Some?
    ensures OneEdit(p.ledger, q.ledger, RDSSnapshot, e.name) && (p.failed ==> q.failed) && p.results <= q.results
    ensures q.world.instances.Keys == p.world.instances.Keys
  {
    var id := EpisodeID(env, e.name, e.pendingSince.value);
    var tracked := Find(p.ledger, RDSSnapshot, e.name);
    if tracked.Some? && tracked.value.arn != id then AfterRetire(env, p, e.name)
    else if tracked.Some? && tracked.value.state.Verified? then p
    else if !NamedInARN(e.arn) then Fail(p)
    else if tracked.None? then
      var (w, ok) := CreateSnapshot(p.world, e.name, id, OwnerTags(env.cr));
      if !ok then Fail(p.(world := w))
      else p.(world := w, ledger := Upsert(p.ledger, Asked(env, e, id)))
    else
      var (w, found) := DescribeSnapshot(p.world, tracked.value.arn);
      match found
      case Broken => Fail(p.(world := w))
      case MissingFault => Fail(p.(world := w))
      case Empty => p.(world := w)
      case One(s) =>
        FindSound(p.ledger, RDSSnapshot, e.name);
        if s.status.Available? then p.(world := w, ledger := Upsert(p.ledger, Seen(env, tracked.value)))
        else p.(world := w)
  }

  function AfterPend(env: Env, p: InstancePass, e: Entry): (q: InstancePass)
    requires e.rtype == RDS
    ensures OneEdit(p.ledger, q.ledger, RDS, e.name) || OneEdit(p.ledger, q.ledger, RDSSnapshot, e.name)
    ensures (p.failed ==> q.failed) && p.results <= q.results
    ensures q.world.instances.Keys == p.world.instances.Keys
  {
    var (w, tags) := ListTags(p.world, e.arn);
    var p1 := p.(world := w);
    if tags.Failed? then Fail(p1)
    else if tags.NotFound? then p1.(ledger := Remove(p.ledger, RDS, e.name))
    else if !IsOwnedBy(tags.value, env.cr) then Fail(p1)
    else if e.pendingSince.None? then MarkPending(env, p1, e)
    else
      var p2 := Report(p1, e.name, PendingReason(env.now, e.pendingSince.value));
      if env.now - e.pendingSince.value < QUIET_WINDOW then p2 else AfterSnapshot(env, p2, e)
  }

  function AfterEntry(env: Env, declared: set<string>, p: InstancePass, e: Entry): (q: InstancePass)
    ensures (p.failed ==> q.failed) && p.results <= q.results
    ensures q.world.instances.Keys == p.world.instances.Keys
  {
    if e.rtype != RDS then p
    else if e.name in declared then AfterRestore(env, p, e)
    else if e.policy != Delete then AfterRetain(env, p, e)
    else AfterPend(env, p, e)
  }

  function Step(env: Env, declared: set<string>): Stepper<Cloud, Result> {
    (p, e) => AfterEntry(env, declared, p, e)
  }

  // One iteration over the snapshots whose instance is no longer tracked.
  function AfterOrphan(env: Env, p: InstancePass, x: Entry): (q: InstancePass)
    ensures EditOf(p.ledger, q.ledger, x) && (p.failed ==> q.failed) && p.results <= q.results && q.world.snapshots == p.world.snapshots
    ensures q.ledger == p.ledger || q.ledger == Upsert(p.ledger, Seen(env, x))
            || (q.ledger == Remove(p.ledger, RDSSnapshot, x.name) && Find(p.ledger, RDS, x.name).None? && x.arn !in p.world.snapshots)
    ensures p.world.log <= q.world.log && forall i :: |p.world.log| <= i < |q.world.log| ==> q.world.log[i].SnapshotRead?
    ensures q.world.instances.Keys == p.world.instances.Keys
  {
    var due := !x.state.Verified? || x.lastVerifiedAt.None? || env.now - x.lastVerifiedAt.value > RELINQUISHED_RECHECK_INTERVAL;
    if x.rtype != RDSSnapshot || Has(p.ledger, RDS, x.name) || !due then p
    else
      var (w, found) := DescribeSnapshot(p.world, x.arn);
      var q := p.(world := w);
      match found
      case Broken => Fail(q)
      case MissingFault => Forget(q, x.name)
      case Empty => Forget(q, x.name)
      case One(s) => if s.status.Available? then q.(ledger := Upsert(p.ledger, Seen(env, x))) else q
  }

  function OrphanStep(env: Env): Stepper<Cloud, Result> {
    (p, x) => AfterOrphan(env, p, x)
  }

  // The pass after its loop over the instances, and after both loops.
  function AfterInstances(env: Env, declared: set<string>, w: Cloud, l: seq<Entry>): InstancePass {
    Upto(Step(env, declared), l, |l|, Pass(w, l, [], false))
  }

  function AfterCleanup(env: Env, declared: set<string>, w: Cloud, l: seq<Entry>): InstancePass {
    var p := AfterInstances(env, declared, w, l);
    Upto(OrphanStep(env), p.ledger, |p.ledger|, p)
  }

  class InstanceCleaner {
    const env: Env
    var pass: InstancePass

    constructor (env: Env, w: Cloud, l: seq<Entry>)
      ensures this.env == env && pass == Pass(w, l, [], false)
    {
      this.env := env;
      pass := Pass(w, l, [], false);
    }

    method RetireFinalSnapshot(name: string)
      modifies this
      ensures pass == AfterRetire(env, old(pass), name)
    {
      var tracked := Find(pass.ledger, RDSSnapshot, name);
      if tracked.None? {
        return;
      }
      var existing := tracked.value;
      var (w1, found) := DescribeSnapshot(pass.world, existing.arn);
      pass := pass.(world := w1);
      if found.Broken? || found.MissingFault? {
        pass := Fail(pass);
        return;
      }
      if found.Empty? {
        pass := Forget(pass, name);
        return;
      }
      if !IsOwnedBy(found.snapshot.tags, env.cr) {
        pass := Forget(pass, name);
        return;
      }
      if !existing.state.Verified? {
        match found.snapshot.status {
          case Available =>
          case SnapshotFailed =>
            pass := Forget(pass, name);
            return;
          case InProgress =>
            return;
        }
      }
      var (w2, ok) := DeleteSnapshot(pass.world, name, existing.arn);
      pass := pass.(world := w2);
      if !ok {
        pass := Fail(pass);
        return;
      }
      pass := Forget(pass, name);
    }

    method RestoreDeclared(e: Entry)
      requires e.rtype == RDS
      modifies this
      ensures pass == AfterRestore(env, old(pass), e)
    {
      if e.pendingSince.Some? {
        pass := pass.(ledger := Upsert(pass.ledger, e.(pendingSince := None)));
      }
      RetireFinalSnapshot(e.name);
    }

    method RetainInstance(e: Entry)
      requires e.rtype == RDS
      modifies this
      ensures pass == AfterRetain(env, old(pass), e)
    {
      if e.state.Relinquished? && !NeedsRelinquishedRecheck(e, env.now) {
        pass := Report(pass, e.name, Retained);
        return;
      }
      var (w, letting) := LetGo(env, pass.world, e.arn);
      pass := pass.(world := w);
      if letting.Stopped? {
        pass := Fail(pass);
        return;
      }
      if letting.Gone? {
        pass := pass.(ledger := Remove(pass.ledger, RDS, e.name));
        return;
      }
      pass := Report(pass.(ledger := Upsert(pass.ledger, Relinquish(e, env.now))), e.name, Retained);
    }

    method EnsureFinalSnapshot(e: Entry)
      requires e.rtype == RDS && e.pendingSince.Some?
      modifies this
      ensures pass == AfterSnapshot(env, old(pass), e)
    {
      var id := EpisodeID(env, e.name, e.pendingSince.value);
      var tracked := Find(pass.ledger, RDSSnapshot, e.name);
      if tracked.Some? && tracked.value.arn != id {
        RetireFinalSnapshot(e.name);
        return;
      }
      if tracked.Some? && tracked.value.state.Verified? {
        return;
      }
      if !NamedInARN(e.arn) {
        pass := Fail(pass);
        return;
      }
      if tracked.None? {
        var (w, ok) := CreateSnapshot(pass.world, e.name, id, OwnerTags(env.cr));
        pass := pass.(world := w);
        if !ok {
          pass := Fail(pass);
          return;
        }
        pass := pass.(ledger := Upsert(pass.ledger, Asked(env, e, id)));
        return;
      }
      var (w, found) := DescribeSnapshot(pass.world, tracked.value.arn);
      pass := pass.(world := w);
      if found.Broken? || found.MissingFault? {
        pass := Fail(pass);
        return;
      }
      if found.One? && found.snapshot.status.Available? {
        pass := pass.(ledger := Upsert(pass.ledger, Seen(env, tracked.value)));
      }
    }

    method PendDeletion(e: Entry)
      requires e.rtype == RDS
      modifies this
      ensures pass == AfterPend(env, old(pass), e)
    {
      var (w, tags) := ListTags(pass.world, e.arn);
      pass := pass.(world := w);
      if tags.Failed? {
        pass := Fail(pass);
        return;
      }
      if tags.NotFound? {
        pass := pass.(ledger := Remove(pass.ledger, RDS, e.name));
        return;
      }
      if !IsOwnedBy(tags.value, env.cr) {
        pass := Fail(pass);
        return;
      }
      if e.pendingSince.None? {
        pass := MarkPending(env, pass, e);
        return;
      }
      pass := Report(pass, e.name, PendingReason(env.now, e.pendingSince.value));
      if env.now - e.pendingSince.value < QUIET_WINDOW {
        return;
      }
      EnsureFinalSnapshot(e);
    }

    method CheckOrphanedSnapshots()
      modifies this
      ensures pass == Upto(OrphanStep(env), old(pass.ledger), |old(pass.ledger)|, old(pass))
    {
      var snapshot := pass.ledger;
      ghost var start := pass;
      for i := 0 to |snapshot|
        invariant pass == Upto(OrphanStep(env), snapshot, i, start)
      {
        ghost var before := pass;
        var x := snapshot[i];
        var due := !x.state.Verified? || x.lastVerifiedAt.None? || env.now - x.lastVerifiedAt.value > RELINQUISHED_RECHECK_INTERVAL;
        if x.rtype == RDSSnapshot && !Has(pass.ledger, RDS, x.name) && due {
          var (w, found) := DescribeSnapshot(pass.world, x.arn);
          pass := pass.(world := w);
          match found {
            case MissingFault => pass := Forget(pass, x.name);
            case Empty => pass := Forget(pass, x.name);
            case Broken => pass := Fail(pass);
            case One(s) =>
              if s.status.Available? {
                pass := pass.(ledger := Upsert(pass.ledger, Seen(env, x)));
              }
          }
        }
        assert pass == AfterOrphan(env, before, x);
      }
    }

    method Cleanup(spec: seq<string>, deleting: bool)
      requires pass.results == [] && !pass.failed
      modifies this
      ensures pass == AfterCleanup(env, DeclaredNames(spec, deleting), old(pass.world), old(pass.ledger))
    {
      var declared: set<string> := {};
      if !deleting {
        for i := 0 to |spec|
          invariant declared == set n | n in spec[..i]
        {
          declared := declared + {spec[i]};
        }
        assert spec[..|spec|] == spec;
      }
      var snapshot := pass.ledger;
      ghost var start := pass;
      for i := 0 to |snapshot|
        invariant pass == Upto(Step(env, declared), snapshot, i, start)
      {
        ghost var before := pass;
        var entry := snapshot[i];
        if entry.rtype == RDS {
          if entry.name in declared {
            RestoreDeclared(entry);
          } else if entry.policy != Delete {
            RetainInstance(entry);
          } else {
            PendDeletion(entry);
          }
        }
        assert pass == AfterEntry(env, declared, before, entry);
      }
      CheckOrphanedSnapshots();
    }
  }

  // -------------------------------------------------------- both loops' frames

  lemma RestoreIsLocal(env: Env, p: InstancePass, e: Entry, t: ResourceType, n: string)
    requires e.rtype == RDS
    ensures t !in {RDS, RDSSnapshot} || n != e.name ==> Find(AfterRestore(env, p, e).ledger, t, n) == Find(p.ledger, t, n)
    ensures Unique(p.ledger) ==> Unique(AfterRestore(env, p, e).ledger)
  {
    var p1, q := Restored(p, e), AfterRestore(env, p, e);
    assert OneEdit(p1.ledger, q.ledger, RDSSnapshot, e.name);
    if t !in {RDS, RDSSnapshot} || n != e.name {
      EditFrame(p.ledger, p1.ledger, RDS, e.name, t, n);
      EditFrame(p1.ledger, q.ledger, RDSSnapshot, e.name, t, n);
    }
    if Unique(p.ledger) {
      EditKeepsUnique(p.ledger, p1.ledger, RDS, e.name);
      EditKeepsUnique(p1.ledger, q.ledger, RDSSnapshot, e.name);
    }
  }

  lemma OneEditIsLocal(l: seq<Entry>, l': seq<Entry>, own: ResourceType, name: string, t: ResourceType, n: string)
    requires OneEdit(l, l', own, name) && own in {RDS, RDSSnapshot}
    ensures t !in {RDS, RDSSnapshot} || n != name ==> Find(l', t, n) == Find(l, t, n)
    ensures Unique(l) ==> Unique(l')
  {
    if t !in {RDS, RDSSnapshot} || n != name {
      EditFrame(l, l', own, name, t, n);
    }
    if Unique(l) {
      EditKeepsUnique(l, l', own, name);
    }
  }

  lemma EntryIsLocal(env: Env, declared: set<string>, p: InstancePass, e: Entry, t: ResourceType, n: string)
    ensures t !in {RDS, RDSSnapshot} || n != e.name ==> Find(AfterEntry(env, declared, p, e).ledger, t, n) == Find(p.ledger, t, n)
    ensures Unique(p.ledger) ==> Unique(AfterEntry(env, declared, p, e).ledger)
  {
    if e.rtype == RDS {
      var l' := AfterEntry(env, declared, p, e).ledger;
      if e.name in declared {
        RestoreIsLocal(env, p, e, t, n);
      } else if e.policy != Delete || OneEdit(p.ledger, l', RDS, e.name) {
        OneEditIsLocal(p.ledger, l', RDS, e.name, t, n);
      } else {
        OneEditIsLocal(p.ledger, l', RDSSnapshot, e.name, t, n);
      }
    }
  }

  lemma StepIsLocal(env: Env, declared: set<string>)
    ensures Local(Step(env, declared), RDS, {RDS, RDSSnapshot})
  {
    forall p: InstancePass, e: Entry, t: ResourceType, n: string | t !in {RDS, RDSSnapshot} || n != e.name
      ensures Find(AfterEntry(env, declared, p, e).ledger, t, n) == Find(p.ledger, t, n)
    {
      EntryIsLocal(env, declared, p, e, t, n);
    }
    forall p: InstancePass, e: Entry | Unique(p.ledger) ensures Unique(AfterEntry(env, declared, p, e).ledger) {
      EntryIsLocal(env, declared, p, e, RDS, e.name);
    }
  }

  lemma OrphanStepIsLocal(env: Env)
    ensures Local(OrphanStep(env), RDSSnapshot, {RDSSnapshot})
  {
    forall p: InstancePass, x: Entry, t: ResourceType, n: string | t != RDSSnapshot || n != x.name
      ensures Find(AfterOrphan(env, p, x).ledger, t, n) == Find(p.ledger, t, n)
    {
      if x.rtype == RDSSnapshot {
        EditFrame(p.ledger, AfterOrphan(env, p, x).ledger, RDSSnapshot, x.name, t, n);
      }
    }
    forall p: InstancePass, x: Entry | Unique(p.ledger) ensures Unique(AfterOrphan(env, p, x).ledger) {
      EditKeepsUnique(p.ledger, AfterOrphan(env, p, x).ledger, x.rtype, x.name);
    }
  }

  lemma StepFinds(env: Env, declared: set<string>, w: Cloud, l: seq<Entry>, k: nat, t: ResourceType)
    requires Unique(l) && k < |l| && l[k].rtype == RDS
    ensures var step, start := Step(env, declared), Pass(w, l, [], false);
      var q := Upto(step, l, k, start);
      && Find(q.ledger, RDS, l[k].name) == Some(l[k]) && Find(q.ledger, t, l[k].name) == Find(l, t, l[k].name)
      && Find(step(q, l[k]).ledger, t, l[k].name) == Find(Upto(step, l, |l|, start).ledger, t, l[k].name)
  {
    StepIsLocal(env, declared);
    AtOwnEntry(Step(env, declared), RDS, {RDS, RDSSnapshot}, l, k, Pass(w, l, [], false), t);
  }

  lemma StepIsSteady(env: Env, declared: set<string>)
    ensures Steady(Step(env, declared))
  {
  }

  lemma OrphanStepIsSteady(env: Env)
    ensures Steady(OrphanStep(env))
  {
  }
}
