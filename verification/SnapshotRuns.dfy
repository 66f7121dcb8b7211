/**
 Tracked final snapshots over whole runs of passes: every tracked id was asked
 for by a pass of this CR for a named episode, and the entry of a snapshot whose
 instance has vanished stays until AWS no longer has the snapshot.
 */
module SnapshotRuns {
  import opened Ledger
  import opened Sweep
  import opened Ownership
  import opened Naming
  import opened InstanceCloud
  import opened InstanceCleanup
  import opened InstanceRuns
  import InstanceEnsure
  import opened History

  // ----------------------------------------------------------------- a pass

  // This pass asked for the snapshot, for an instance undeclared and past the
  // quiet window of the episode the id names.
  ghost predicate AskedFor(env: Env, declared: set<string>, log: seq<Call>, log': seq<Call>, e: Entry, id: string) {
    && e.rtype == RDS && e.name !in declared && e.policy == Delete
    && e.pendingSince.Some? && env.now - e.pendingSince.value >= QUIET_WINDOW
    && id == EpisodeID(env, e.name, e.pendingSince.value)
    && exists d :: |log| <= d < |log'| && log'[d] == CreateSent(e.name, id)
  }

  // The tracked snapshot may be let go: its instance is declared, or is there
  // and in another episode.
  ghost predicate Retirable(env: Env, declared: set<string>, w: Cloud, e: Entry, id: string) {
    e.name in declared ||
    (e.policy == Delete && e.arn in w.instances && e.pendingSince.Some? && id != EpisodeID(env, e.name, e.pendingSince.value))
  }

  // f was tracked for e's name before, f' after.
  ghost predicate TrackLeft(env: Env, declared: set<string>, w: Cloud, w': Cloud, e: Entry, f: Option<Entry>, f': Option<Entry>) {
    && (f'.Some? ==> if f.Some? then f'.value.arn == f.value.arn else AskedFor(env, declared, w.log, w'.log, e, f'.value.arn))
    && (f.Some? && f'.None? ==> Retirable(env, declared, w, e, f.value.arn))
  }

  lemma SnapshotTrack(env: Env, declared: set<string>, w: Cloud, p: InstancePass, e: Entry)
    requires e.rtype == RDS && e.name !in declared && e.policy == Delete && e.arn in w.instances
    requires e.pendingSince.Some? && env.now - e.pendingSince.value >= QUIET_WINDOW && w.log <= p.world.log
    ensures var q := AfterSnapshot(env, p, e);
      TrackLeft(env, declared, w, q.world, e, Find(p.ledger, RDSSnapshot, e.name), Find(q.ledger, RDSSnapshot, e.name))
  {
    var n, id := e.name, EpisodeID(env, e.name, e.pendingSince.value);
    var f := Find(p.ledger, RDSSnapshot, n);
    if f.None? {
      FindUpsert(p.ledger, Asked(env, e, id), RDSSnapshot, n);
      var (w', ok) := CreateSnapshot(p.world, n, id, OwnerTags(env.cr));
      assert w'.log[|p.world.log|] == CreateSent(n, id);
    } else if f.value.arn != id {
      FindRemove(p.ledger, RDSSnapshot, n, RDSSnapshot, n);
    } else {
      FindSound(p.ledger, RDSSnapshot, n);
      FindUpsert(p.ledger, Seen(env, f.value), RDSSnapshot, n);
    }
  }

  lemma PendTrack(env: Env, declared: set<string>, p: InstancePass, e: Entry)
    requires e.rtype == RDS && e.name !in declared && e.policy == Delete
    ensures var q := AfterPend(env, p, e);
      TrackLeft(env, declared, p.world, q.world, e, Find(p.ledger, RDSSnapshot, e.name), Find(q.ledger, RDSSnapshot, e.name))
  {
    var (w, tags) := ListTags(p.world, e.arn);
    if tags.Answer? && IsOwnedBy(tags.value, env.cr) && e.pendingSince.Some? && env.now - e.pendingSince.value >= QUIET_WINDOW {
      var p2 := Report(p.(world := w), e.name, PendingReason(env.now, e.pendingSince.value));
      SnapshotTrack(env, declared, p.world, p2, e);
      assert AfterPend(env, p, e) == AfterSnapshot(env, p2, e);
    } else {
      FindRemove(p.ledger, RDS, e.name, RDSSnapshot, e.name);
      FindUpsert(p.ledger, Marked(env, e), RDSSnapshot, e.name);
    }
  }

  lemma EntryTrack(env: Env, declared: set<string>, p: InstancePass, e: Entry)
    requires e.rtype == RDS
    ensures var q := AfterEntry(env, declared, p, e);
      TrackLeft(env, declared, p.world, q.world, e, Find(p.ledger, RDSSnapshot, e.name), Find(q.ledger, RDSSnapshot, e.name))
  {
    if e.name in declared {
      var p1 := Restored(p, e);
      EditFrame(p.ledger, p1.ledger, RDS, e.name, RDSSnapshot, e.name);
      FindRemove(p1.ledger, RDSSnapshot, e.name, RDSSnapshot, e.name);
    } else if e.policy == Delete {
      PendTrack(env, declared, p, e);
    } else {
      EditFrame(p.ledger, AfterRetain(env, p, e).ledger, RDS, e.name, RDSSnapshot, e.name);
    }
  }

  lemma TrackLater(env: Env, declared: set<string>, w: Cloud, a: Cloud, a': Cloud, w': Cloud, e: Entry, f: Option<Entry>, f': Option<Entry>)
    requires TrackLeft(env, declared, a, a', e, f, f')
    requires w.log <= a.log && a'.log <= w'.log && a.instances.Keys == w.instances.Keys
    ensures TrackLeft(env, declared, w, w', e, f, f')
  {
    if f'.Some? && AskedFor(env, declared, a.log, a'.log, e, f'.value.arn) {
      var d :| |a.log| <= d < |a'.log| && a'.log[d] == CreateSent(e.name, f'.value.arn);
      assert w'.log[d] == CreateSent(e.name, f'.value.arn);
    }
  }

  function LogOf(w: Cloud): seq<Call> {
    w.log
  }

  lemma StepIsLogged(env: Env, declared: set<string>)
    ensures Logs(Step(env, declared), LogOf)
  {
    forall p: InstancePass, e: Entry ensures LogOf(p.world) <= LogOf(Step(env, declared)(p, e).world) {
      EntryLogGrows(env, declared, p, e);
    }
  }

  lemma EntryLogGrows(env: Env, declared: set<string>, p: InstancePass, e: Entry)
    ensures p.world.log <= AfterEntry(env, declared, p, e).world.log
  {
    if e.rtype == RDS && e.name in declared {
      RetireCalls(env, Restored(p, e), e.name);
    } else if e.rtype == RDS && e.policy == Delete && e.pendingSince.Some? {
      var w := ListTags(p.world, e.arn).0;
      SnapshotCalls(env, Report(p.(world := w), e.name, PendingReason(env.now, e.pendingSince.value)), e);
    }
  }

  // The step of the entry at position k, with what the loop began and ended with.
  lemma StepTrack(env: Env, declared: set<string>, w: Cloud, l: seq<Entry>, k: nat)
    requires Unique(l) && k < |l| && l[k].rtype == RDS
    ensures var p := AfterInstances(env, declared, w, l);
      TrackLeft(env, declared, w, p.world, l[k], Find(l, RDSSnapshot, l[k].name), Find(p.ledger, RDSSnapshot, l[k].name))
  {
    var step, start := Step(env, declared), Pass(w, l, [], false);
    var q, e := Upto(step, l, k, start), l[k];
    var q', r := step(q, e), Upto(step, l, |l|, start);
    var f, f' := Find(l, RDSSnapshot, e.name), Find(r.ledger, RDSSnapshot, e.name);
    StepFinds(env, declared, w, l, k, RDSSnapshot);
    EntryTrack(env, declared, q, e);
    StepLogs(env, declared, w, l, k);
    TrackLater(env, declared, w, q.world, q'.world, r.world, e, f, f');
  }

  lemma StepLogs(env: Env, declared: set<string>, w: Cloud, l: seq<Entry>, k: nat)
    requires k < |l|
    ensures var step, start := Step(env, declared), Pass(w, l, [], false);
      var q := Upto(step, l, k, start);
      && w.log <= q.world.log && q.world.instances.Keys == w.instances.Keys
      && step(q, l[k]).world.log <= Upto(step, l, |l|, start).world.log
  {
    var step, start := Step(env, declared), Pass(w, l, [], false);
    StepIsLogged(env, declared);
    LogGrows(step, LogOf, l, 0, k, start);
    LogGrows(step, LogOf, l, k + 1, |l|, start);
    Lasts(step, l, 0, k, start, (q: InstancePass) => q.world.instances.Keys == w.instances.Keys);
  }

  // What the loop over the instances leaves tracked for n.
  lemma InstancesTrack(env: Env, declared: set<string>, w: Cloud, l: seq<Entry>, n: string)
    requires Unique(l)
    ensures var p := AfterInstances(env, declared, w, l);
      var e, f, f' := Find(l, RDS, n), Find(l, RDSSnapshot, n), Find(p.ledger, RDSSnapshot, n);
      && w.log <= p.world.log
      && (if e.None? then f' == f else e.value.Is(RDS, n) && TrackLeft(env, declared, w, p.world, e.value, f, f'))
  {
    var step, start := Step(env, declared), Pass(w, l, [], false);
    StepIsLocal(env, declared);
    StepIsLogged(env, declared);
    LogGrows(step, LogOf, l, 0, |l|, start);
    if Find(l, RDS, n).None? {
      Outside(step, RDS, {RDS, RDSSnapshot}, l, start, RDSSnapshot, n);
    } else {
      FindSound(l, RDS, n);
      var k :| 0 <= k < |l| && l[k] == Find(l, RDS, n).value;
      StepTrack(env, declared, w, l, k);
    }
  }

  // What the loop over the orphaned snapshots leaves.
  lemma OrphansTrack(env: Env, p: InstancePass, n: string)
    requires Unique(p.ledger)
    ensures var q := Upto(OrphanStep(env), p.ledger, |p.ledger|, p);
      var f, f' := Find(p.ledger, RDSSnapshot, n), Find(q.ledger, RDSSnapshot, n);
      && p.world.log <= q.world.log && q.world.snapshots == p.world.snapshots
      && (f'.Some? ==> f.Some? && f'.value.arn == f.value.arn)
      && (f.Some? && f'.None? ==> f.value.arn !in q.world.snapshots)
  {
    var step, l := OrphanStep(env), p.ledger;
    OrphanStepIsLocal(env);
    OrphanCalls(env, l, |l|, p);
    if Find(l, RDSSnapshot, n).None? {
      Outside(step, RDSSnapshot, {RDSSnapshot}, l, p, RDSSnapshot, n);
    } else {
      FindSound(l, RDSSnapshot, n);
      var k :| 0 <= k < |l| && l[k] == Find(l, RDSSnapshot, n).value;
      AtEntry(step, RDSSnapshot, {RDSSnapshot}, l, k, p, RDSSnapshot);
      OrphanCalls(env, l, k, p);
      var q := Upto(step, l, k, p);
      FindUpsert(q.ledger, Seen(env, l[k]), RDSSnapshot, n);
      FindRemove(q.ledger, RDSSnapshot, n, RDSSnapshot, n);
      assert Upto(step, l, |l|, p).world.snapshots == q.world.snapshots;
    }
  }

  lemma PassStaysUnique(env: Env, declared: set<string>, w: Cloud, l: seq<Entry>)
    requires Unique(l)
    ensures Unique(AfterInstances(env, declared, w, l).ledger) && Unique(AfterCleanup(env, declared, w, l).ledger)
  {
    StepIsLocal(env, declared);
    StaysUnique(Step(env, declared), RDS, {RDS, RDSSnapshot}, l, |l|, Pass(w, l, [], false));
    var p := AfterInstances(env, declared, w, l);
    OrphanStepIsLocal(env);
    StaysUnique(OrphanStep(env), RDSSnapshot, {RDSSnapshot}, p.ledger, |p.ledger|, p);
  }

  // Of n after a whole pass: tracked as before, or asked for in this pass; and
  // no longer tracked only if it was retirable or AWS has no such snapshot.
  ghost predicate PassTrack(env: Env, declared: set<string>, w: Cloud, l: seq<Entry>, p: InstancePass, n: string) {
    var e, f, f' := Find(l, RDS, n), Find(l, RDSSnapshot, n), Find(p.ledger, RDSSnapshot, n);
    && (f'.Some? ==>
          if f.Some? then f'.value.arn == f.value.arn
          else e.Some? && e.value.name == n && AskedFor(env, declared, w.log, p.world.log, e.value, f'.value.arn))
    && (f.Some? && f'.None? ==>
          || f.value.arn !in p.world.snapshots
          || (e.Some? && e.value.name == n && Retirable(env, declared, w, e.value, f.value.arn)))
  }

  lemma PassTracks(env: Env, declared: set<string>, w: Cloud, l: seq<Entry>, n: string)
    requires Unique(l)
    ensures PassTrack(env, declared, w, l, AfterCleanup(env, declared, w, l), n)
  {
    var p, q := AfterInstances(env, declared, w, l), AfterCleanup(env, declared, w, l);
    InstancesTrack(env, declared, w, l, n);
    PassStaysUnique(env, declared, w, l);
    OrphansTrack(env, p, n);
    JoinTracks(env, declared, w, l, p, q, n);
  }

  // The two loops put together.
  lemma JoinTracks(env: Env, declared: set<string>, w: Cloud, l: seq<Entry>, p: InstancePass, q: InstancePass, n: string)
    requires var e, f, f' := Find(l, RDS, n), Find(l, RDSSnapshot, n), Find(p.ledger, RDSSnapshot, n);
      if e.None? then f' == f else e.value.Is(RDS, n) && TrackLeft(env, declared, w, p.world, e.value, f, f')
    requires p.world.log <= q.world.log
    requires var f, f' := Find(p.ledger, RDSSnapshot, n), Find(q.ledger, RDSSnapshot, n);
      (f'.Some? ==> f.Some? && f'.value.arn == f.value.arn) && (f.Some? && f'.None? ==> f.value.arn !in q.world.snapshots)
    ensures PassTrack(env, declared, w, l, q, n)
  {
    if Find(l, RDS, n).Some? {
      TrackLater(env, declared, w, w, p.world, q.world, Find(l, RDS, n).value, Find(l, RDSSnapshot, n), Find(p.ledger, RDSSnapshot, n));
    }
  }

  // ------------------------------------------------- the instance's own mark

  // A mark left on the instance's entry was there before, or is dated now.
  ghost predicate MarkLeft(env: Env, f: Option<Entry>, f': Option<Entry>) {
    f'.Some? && f'.value.pendingSince.Some? ==>
      f'.value.pendingSince == Some(env.now) || (f.Some? && f'.value.pendingSince == f.value.pendingSince)
  }

  lemma PendMark(env: Env, p: InstancePass, e: Entry)
    requires e.rtype == RDS && Find(p.ledger, RDS, e.name) == Some(e)
    ensures MarkLeft(env, Some(e), Find(AfterPend(env, p, e).ledger, RDS, e.name))
  {
    FindRemove(p.ledger, RDS, e.name, RDS, e.name);
    FindUpsert(p.ledger, Marked(env, e), RDS, e.name);
    var l' := AfterPend(env, p, e).ledger;
    if OneEdit(p.ledger, l', RDSSnapshot, e.name) {
      EditFrame(p.ledger, l', RDSSnapshot, e.name, RDS, e.name);
    }
  }

  lemma EntryInstanceMark(env: Env, declared: set<string>, p: InstancePass, e: Entry)
    requires e.rtype == RDS && Find(p.ledger, RDS, e.name) == Some(e)
    ensures MarkLeft(env, Some(e), Find(AfterEntry(env, declared, p, e).ledger, RDS, e.name))
  {
    if e.name in declared {
      var p1 := Restored(p, e);
      FindUpsert(p.ledger, e.(pendingSince := None), RDS, e.name);
      FindRemove(p1.ledger, RDSSnapshot, e.name, RDS, e.name);
    } else if e.policy == Delete {
      PendMark(env, p, e);
    } else {
      FindRemove(p.ledger, RDS, e.name, RDS, e.name);
      FindUpsert(p.ledger, Relinquish(e, env.now), RDS, e.name);
    }
  }

  lemma PassInstanceMark(env: Env, declared: set<string>, w: Cloud, l: seq<Entry>, n: string)
    requires Unique(l)
    ensures MarkLeft(env, Find(l, RDS, n), Find(AfterCleanup(env, declared, w, l).ledger, RDS, n))
  {
    var step, start, p := Step(env, declared), Pass(w, l, [], false), AfterInstances(env, declared, w, l);
    OrphanStepIsLocal(env);
    Outside(OrphanStep(env), RDSSnapshot, {RDSSnapshot}, p.ledger, p, RDS, n);
    StepIsLocal(env, declared);
    if Find(l, RDS, n).None? {
      Outside(step, RDS, {RDS, RDSSnapshot}, l, start, RDS, n);
    } else {
      FindSound(l, RDS, n);
      var k :| 0 <= k < |l| && l[k] == Find(l, RDS, n).value;
      AtEntry(step, RDS, {RDS, RDSSnapshot}, l, k, start, RDS);
      EntryInstanceMark(env, declared, Upto(step, l, k, start), l[k]);
    }
  }

  // ------------------------------------------------------------------- runs

  datatype Status = Status(ledger: seq<Entry>, cloud: Cloud)

  datatype Move =
    | CleanupPass(env: Env, spec: seq<string>, deleting: bool, persisted: bool)
    | Elsewhere(next: Status)

  function DeclaredIn(m: Move): set<string>
    requires m.CleanupPass?
  {
    DeclaredNames(m.spec, m.deleting)
  }

  function PassOf(s: Status, m: Move): InstancePass
    requires m.CleanupPass?
  {
    AfterCleanup(m.env, DeclaredIn(m), s.cloud, s.ledger)
  }

  function After(s: Status, m: Move): Status {
    match m
    case Elsewhere(next) => next
    case CleanupPass(_, _, _, persisted) => Status(if persisted then PassOf(s, m).ledger else s.ledger, PassOf(s, m).world)
  }

  ghost predicate SameTrack(f: Option<Entry>, f': Option<Entry>) {
    f'.Some? == f.Some? && (f.Some? ==> f'.value.arn == f.value.arn)
  }

  ghost predicate KeptOrCleared(f: Option<Entry>, f': Option<Entry>) {
    f'.Some? && f'.value.pendingSince.Some? ==> f.Some? && f'.value.pendingSince == f.value.pendingSince
  }

  // Everything else, Ensure included, may do what it likes to AWS and to the
  // instances' entries, but dates no mark, and tracks and forgets no snapshot.
  ghost predicate Allowed(cr: CR, h: Hash, s: Status, m: Move) {
    match m
    case Elsewhere(next) =>
      && Unique(next.ledger)
      && (forall n :: SameTrack(Find(s.ledger, RDSSnapshot, n), Find(next.ledger, RDSSnapshot, n)))
      && (forall n :: KeptOrCleared(Find(s.ledger, RDS, n), Find(next.ledger, RDS, n)))
    case CleanupPass(env, _, _, _) => env.cr == cr && env.hash == h
  }

  ghost predicate StepAt(cr: CR, h: Hash, trace: seq<Status>, run: seq<Move>, i: nat)
    requires i < |run| && |trace| == |run| + 1
  {
    Allowed(cr, h, trace[i], run[i]) && trace[i + 1] == After(trace[i], run[i])
  }

  // The clock does not run backwards from pass to pass.
  ghost predicate Clock(run: seq<Move>) {
    forall i, j :: 0 <= i < j < |run| && run[i].CleanupPass? && run[j].CleanupPass? ==> run[i].env.now <= run[j].env.now
  }

  // A run: the states, and the move from each to the next; at first no snapshot is tracked.
  ghost predicate Run(cr: CR, h: Hash, trace: seq<Status>, run: seq<Move>) {
    && Clock(run)
    && |trace| == |run| + 1 && Unique(trace[0].ledger) && (forall n :: Find(trace[0].ledger, RDSSnapshot, n).None?)
    && forall i :: 0 <= i < |run| ==> StepAt(cr, h, trace, run, i)
  }

  lemma {:induction false} RunStaysUnique(cr: CR, h: Hash, trace: seq<Status>, run: seq<Move>, k: nat)
    requires Run(cr, h, trace, run) && k <= |run|
    ensures Unique(trace[k].ledger)
  {
    if k > 0 {
      RunStaysUnique(cr, h, trace, run, k - 1);
      assert StepAt(cr, h, trace, run, k - 1);
      MoveStaysUnique(cr, h, trace[k - 1], run[k - 1]);
    }
  }

  lemma MoveStaysUnique(cr: CR, h: Hash, s: Status, m: Move)
    requires Allowed(cr, h, s, m) && Unique(s.ledger)
    ensures Unique(After(s, m).ledger)
  {
    if m.CleanupPass? {
      PassStaysUnique(m.env, DeclaredIn(m), s.cloud, s.ledger);
    }
  }

  // The move was a pass that asked for the snapshot, for the episode that began at t0.
  ghost predicate AskedIn(s: Status, m: Move, n: string, t0: int, id: string) {
    && m.CleanupPass? && m.persisted
    && exists e :: Find(s.ledger, RDS, n) == Some(e) && e.name == n && e.pendingSince == Some(t0)
                   && AskedFor(m.env, DeclaredIn(m), s.cloud.log, PassOf(s, m).world.log, e, id)
  }

  lemma MoveTracks(cr: CR, h: Hash, s: Status, m: Move, n: string)
    requires Allowed(cr, h, s, m) && Unique(s.ledger) && Find(After(s, m).ledger, RDSSnapshot, n).Some?
    ensures var f, f' := Find(s.ledger, RDSSnapshot, n), Find(After(s, m).ledger, RDSSnapshot, n);
      (f.Some? && f.value.arn == f'.value.arn) || exists t0 :: AskedIn(s, m, n, t0, f'.value.arn)
  {
    if m.Elsewhere? {
      assert SameTrack(Find(s.ledger, RDSSnapshot, n), Find(m.next.ledger, RDSSnapshot, n));
    } else if m.persisted {
      PassTracks(m.env, DeclaredIn(m), s.cloud, s.ledger, n);
      if Find(s.ledger, RDSSnapshot, n).None? {
        var e := Find(s.ledger, RDS, n).value;
        assert AskedIn(s, m, n, e.pendingSince.value, Find(After(s, m).ledger, RDSSnapshot, n).value.arn);
      }
    }
  }

  ghost function AskedAt(trace: seq<Status>, run: seq<Move>, n: string): (nat, (int, string)) -> bool {
    (i: nat, v: (int, string)) => i < |run| && i < |trace| && AskedIn(trace[i], run[i], n, v.0, v.1)
  }

  ghost predicate AskedBefore(trace: seq<Status>, run: seq<Move>, k: nat, n: string, t0: int, id: string) {
    exists i: nat :: i < k && AskedAt(trace, run, n)(i, (t0, id))
  }

  lemma AskedNames(cr: CR, h: Hash, s: Status, m: Move, n: string, t0: int, id: string)
    requires Allowed(cr, h, s, m) && AskedIn(s, m, n, t0, id)
    ensures id == SnapshotID(h, cr.namespace, cr.name, n, t0 / SECOND)
  {
  }

  lemma MoveDates(cr: CR, h: Hash, s: Status, m: Move, n: string)
    requires Allowed(cr, h, s, m) && Unique(s.ledger)
    ensures var f, f' := Find(s.ledger, RDS, n), Find(After(s, m).ledger, RDS, n);
      KeptOrCleared(f, f') || (m.CleanupPass? && f'.value.pendingSince == Some(m.env.now))
  {
    if m.CleanupPass? {
      PassInstanceMark(m.env, DeclaredIn(m), s.cloud, s.ledger, n);
    }
  }

  // The instance's mark, if any, is the one of the episode that began at t0, or
  // dates from after its quiet window.
  ghost predicate SameOrNewer(s: Status, n: string, t0: int) {
    var f := Find(s.ledger, RDS, n);
    f.Some? && f.value.pendingSince.Some? ==>
      f.value.pendingSince.value == t0 || f.value.pendingSince.value >= t0 + QUIET_WINDOW
  }

  lemma AskedAfterQuiet(s: Status, m: Move, n: string, t0: int, id: string)
    requires AskedIn(s, m, n, t0, id)
    ensures m.env.now >= t0 + QUIET_WINDOW && SameOrNewer(s, n, t0)
  {
  }

  lemma StaysNewer(cr: CR, h: Hash, s: Status, m: Move, n: string, t0: int)
    requires Allowed(cr, h, s, m) && Unique(s.ledger) && SameOrNewer(s, n, t0)
    requires m.CleanupPass? ==> m.env.now >= t0 + QUIET_WINDOW
    ensures SameOrNewer(After(s, m), n, t0)
  {
    MoveDates(cr, h, s, m, n);
  }

  // Every tracked snapshot was asked for by an earlier pass, and the instance is
  // still in the episode it was asked for in, or in a newer one.
  lemma {:induction false} TrackedWasAskedFor(cr: CR, h: Hash, trace: seq<Status>, run: seq<Move>, k: nat, n: string) returns (t0: int)
    requires Run(cr, h, trace, run) && k <= |run| && Find(trace[k].ledger, RDSSnapshot, n).Some?
    ensures var id := Find(trace[k].ledger, RDSSnapshot, n).value.arn;
      && AskedBefore(trace, run, k, n, t0, id) && id == SnapshotID(h, cr.namespace, cr.name, n, t0 / SECOND)
      && SameOrNewer(trace[k], n, t0)
  {
    t0 := 0;
    if k == 0 {
      assert false;
    }
    RunStaysUnique(cr, h, trace, run, k - 1);
    assert StepAt(cr, h, trace, run, k - 1);
    MoveTracks(cr, h, trace[k - 1], run[k - 1], n);
    var id := Find(trace[k].ledger, RDSSnapshot, n).value.arn;
    var prev, m := trace[k - 1], run[k - 1];
    if t :| AskedIn(prev, m, n, t, id) {
      t0 := t;
      AskedNames(cr, h, prev, m, n, t0, id);
      AskedAfterQuiet(prev, m, n, t0, id);
      assert AskedAt(trace, run, n)(k - 1, (t0, id));
    } else {
      t0 := TrackedWasAskedFor(cr, h, trace, run, k - 1, n);
      var i: nat :| i < k - 1 && AskedAt(trace, run, n)(i, (t0, id));
      AskedAfterQuiet(trace[i], run[i], n, t0, id);
    }
    StaysNewer(cr, h, prev, m, n, t0);
  }

  // The law of snapshot deletion. In every run, each delete request names the
  // one snapshot tracked for an instance, asked for by an earlier pass for an
  // episode that began at t0; the pass has just read it, found its own tags on
  // it, and seen it available now or before; and the instance is declared, or is
  // this CR's, undeclared, and in a newer episode, which began no sooner than the
  // quiet window after t0.
  lemma DeleteIsJustified(cr: CR, h: Hash, trace: seq<Status>, run: seq<Move>, k: nat, d: nat) returns (e: Entry, x: Entry, t0: int)
    requires Run(cr, h, trace, run) && k < |run| && run[k].CleanupPass?
    requires |trace[k].cloud.log| <= d < |PassOf(trace[k], run[k]).world.log|
    requires PassOf(trace[k], run[k]).world.log[d].DeleteSent?
    ensures var st, m := trace[k], run[k];
      && Justifies(m.env, DeclaredIn(m), st.ledger, PassOf(st, m).world.log, |st.cloud.log|, d, e, x)
      && AskedBefore(trace, run, k, e.name, t0, x.arn)
      && (e.name !in DeclaredIn(m) ==> e.pendingSince.Some? && e.pendingSince.value >= t0 + QUIET_WINDOW)
  {
    var st, m := trace[k], run[k];
    RunStaysUnique(cr, h, trace, run, k);
    DeletesAreJustified(m.env, DeclaredIn(m), st.cloud, st.ledger);
    var log := PassOf(st, m).world.log;
    assert JustifiedCall(m.env, DeclaredIn(m), st.ledger, log, |st.cloud.log|, d);
    e, x :| Justifies(m.env, DeclaredIn(m), st.ledger, log, |st.cloud.log|, d, e, x);
    t0 := TrackedWasAskedFor(cr, h, trace, run, k, e.name);
    FindMember(st.ledger, e);
    assert StepAt(cr, h, trace, run, k);
  }

  // A pass that ended with no snapshot of this id in AWS.
  ghost function FoundGone(trace: seq<Status>, run: seq<Move>, id: string): nat -> bool {
    (k: nat) => k < |run| && k < |trace| && run[k].CleanupPass? && id !in PassOf(trace[k], run[k]).world.snapshots
  }

  ghost function TrackedAt(trace: seq<Status>, n: string, id: string): nat -> bool {
    (k: nat) => k < |trace| && Find(trace[k].ledger, RDSSnapshot, n).Some? && Find(trace[k].ledger, RDSSnapshot, n).value.arn == id
  }

  ghost predicate Vanished(trace: seq<Status>, run: seq<Move>, k: nat, n: string)
    requires k < |run| && k < |trace|
  {
    run[k].CleanupPass? ==> n !in DeclaredIn(run[k]) && Find(trace[k].ledger, RDS, n).None?
  }

  // While the instance is undeclared and untracked, the entry of its final
  // snapshot, which keeps the snapshot's key alive, stays until a pass finds
  // AWS without the snapshot.
  lemma VanishedKeepsItsSnapshot(cr: CR, h: Hash, trace: seq<Status>, run: seq<Move>, i: nat, j: nat, n: string, id: string)
    requires Run(cr, h, trace, run) && i <= j <= |run| && TrackedAt(trace, n, id)(i)
    requires forall k :: i <= k < j ==> Vanished(trace, run, k, n)
    ensures TrackedAt(trace, n, id)(j) || Happened(FoundGone(trace, run, id), i, j)
  {
    var tracked, gone := TrackedAt(trace, n, id), FoundGone(trace, run, id);
    forall k: nat | i <= k < j ensures KeepsUnless(tracked, gone, k) {
      assert Vanished(trace, run, k, n);
      StepKeepsTrack(cr, h, trace, run, k, n, id);
    }
    LastsUntil(tracked, gone, i, j);
  }

  lemma StepKeepsTrack(cr: CR, h: Hash, trace: seq<Status>, run: seq<Move>, k: nat, n: string, id: string)
    requires Run(cr, h, trace, run) && k < |run| && Vanished(trace, run, k, n)
    ensures KeepsUnless(TrackedAt(trace, n, id), FoundGone(trace, run, id), k)
  {
    if TrackedAt(trace, n, id)(k) {
      RunStaysUnique(cr, h, trace, run, k);
      assert StepAt(cr, h, trace, run, k);
      KeptOrGone(cr, h, trace[k], run[k], n);
    }
  }

  lemma KeptOrGone(cr: CR, h: Hash, s: Status, m: Move, n: string)
    requires Allowed(cr, h, s, m) && Unique(s.ledger) && Find(s.ledger, RDSSnapshot, n).Some?
    requires m.CleanupPass? ==> Find(s.ledger, RDS, n).None?
    ensures var f, f' := Find(s.ledger, RDSSnapshot, n), Find(After(s, m).ledger, RDSSnapshot, n);
      SameTrack(f, f') || (m.CleanupPass? && f.value.arn !in PassOf(s, m).world.snapshots)
  {
    if m.Elsewhere? {
      assert SameTrack(Find(s.ledger, RDSSnapshot, n), Find(m.next.ledger, RDSSnapshot, n));
    } else {
      PassTracks(m.env, DeclaredIn(m), s.cloud, s.ledger, n);
    }
  }

  // Ensure is one of the moves the runs allow between two Cleanups.
  lemma EnsureIsAllowed(env: Env, from: string, specs: seq<InstanceEnsure.InstanceSpec>, s: Status)
    requires Unique(s.ledger)
    ensures var r := InstanceEnsure.EnsureUpto(env, from, specs, |specs|, s.cloud, s.ledger);
      Allowed(env.cr, env.hash, s, Elsewhere(Status(r.ledger, r.world)))
  {
    var l' := InstanceEnsure.EnsureUpto(env, from, specs, |specs|, s.cloud, s.ledger).ledger;
    forall n ensures SameTrack(Find(s.ledger, RDSSnapshot, n), Find(l', RDSSnapshot, n)) {
      InstanceEnsure.EnsureFramed(env, from, specs, |specs|, s.cloud, s.ledger, RDSSnapshot, n);
    }
    forall n ensures KeptOrCleared(Find(s.ledger, RDS, n), Find(l', RDS, n)) {
      InstanceEnsure.EnsureFramed(env, from, specs, |specs|, s.cloud, s.ledger, RDS, n);
    }
    InstanceEnsure.EnsureStaysUnique(env, from, specs, |specs|, s.cloud, s.ledger);
  }
}
