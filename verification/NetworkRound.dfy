/**
 One error-free pass of every producer, and what is left of the rules that let
 a released group in: exactly those of instances that are tracked but no longer
 declared, and those that are not the operator's to revoke.
 */
module NetworkRound {
  import opened Ledger
  import opened Sweep
  import opened Ownership
  import opened GroupCloud
  import opened Ingress
  import opened NetworkRelease
  import SnapshotRuns

  // ------------------------------------------------------------------ the books

  // Producer q's ledger has the group on record for its undeclared instance x.
  ghost predicate RecordedFor(s: Net, q: CRName, x: string, id: string) {
    && q in s.producers && x !in DeclaredBy(s, q)
    && var f := Find(s.producers[q].ledger, SecurityGroup, InstanceGroups.GroupEntryName(x));
    && f.Some? && IDFromARN(f.value.arn) == id
  }

  // A group serves one instance: no two undeclared ones, and none that is declared.
  ghost predicate Dedicated(s: Net) {
    && (forall q, x, q', x', id :: RecordedFor(s, q, x, id) && RecordedFor(s, q', x', id) ==> q == q' && x == x')
    && (forall q, x, id, i :: RecordedFor(s, q, x, id) && 0 <= i < |s.declared| ==> s.declared[i].group != id)
  }

  // The group is that of an instance undeclared and still tracked.
  ghost predicate TrackedGroup(s: Net, id: string) {
    exists q, x :: RecordedFor(s, q, x, id) && Has(s.producers[q].ledger, RDS, x)
  }

  // The rule is one a declared instance's pass revokes.
  ghost predicate Shaped(s: Net, id: string, r: Rule) {
    exists i :: 0 <= i < |s.declared| && IsGrantOf(s.declared[i], id, r)
  }

  // The group is on some producer's books as an undeclared instance's, and its own.
  ghost predicate Booked(s: Net, id: string) {
    exists q, x :: RecordedFor(s, q, x, id) && OwnedGroup(s, id, s.producers[q].cr)
  }

  ghost predicate OwnedGroup(s: Net, id: string, cr: CR) {
    id in s.cloud.groups && IsOwnedBy(s.cloud.groups[id].tags, cr)
  }

  // Not the operator's to revoke: of another shape, or in a group of nobody's.
  ghost predicate Foreign(s: Net, id: string, r: Rule) {
    !Shaped(s, id, r) && !Booked(s, id)
  }

  // ------------------------------------------------------------------- one pass

  // The instances' own Cleanup keeps the group entries, and the books unique.
  lemma BooksKeep(s: Net, p: ProducerPass, x: string)
    requires IsPass(s, p) && x !in DeclaredBy(s, p.owner)
    ensures Unique(BooksOf(s, p))
    ensures var n := InstanceGroups.GroupEntryName(x);
      Find(BooksOf(s, p), SecurityGroup, n) == Find(s.producers[p.owner].ledger, SecurityGroup, n)
  {
    var declared, n := DeclaredBy(s, p.owner), InstanceGroups.GroupEntryName(x);
    SnapshotRuns.PassStaysUnique(p.env, declared, p.instances, p.ensured);
    InstancesKeepGroups(p.env, declared, p.instances, p.ensured, n);
  }

  lemma InstancesKeepGroups(env: InstanceCleanup.Env, declared: set<string>, w: InstanceCloud.Cloud, l: seq<Entry>, n: string)
    ensures Find(InstanceCleanup.AfterCleanup(env, declared, w, l).ledger, SecurityGroup, n) == Find(l, SecurityGroup, n)
  {
    var p := InstanceCleanup.AfterInstances(env, declared, w, l);
    InstanceCleanup.StepIsLocal(env, declared);
    Outside(InstanceCleanup.Step(env, declared), RDS, {RDS, RDSSnapshot}, l, Pass(w, l, [], false), SecurityGroup, n);
    InstanceCleanup.OrphanStepIsLocal(env);
    Outside(InstanceCleanup.OrphanStep(env), RDSSnapshot, {RDSSnapshot}, p.ledger, p, SecurityGroup, n);
  }

  // An orphaned entry of the books is on record in the ledger the pass began with.
  lemma OrphanIsRecorded(s: Net, p: ProducerPass, e: Entry) returns (x: string)
    requires IsPass(s, p) && e in BooksOf(s, p) && InstanceGroups.Orphaned(GroupEnv(s, p), e)
    ensures RecordedFor(s, p.owner, x, IDFromARN(e.arn)) && !Has(BooksOf(s, p), RDS, x)
  {
    x := InstanceGroups.InstanceOf(e.name).value;
    InstanceGroups.InstanceOfIs(e.name, x);
    BooksKeep(s, p, x);
    FindMember(BooksOf(s, p), e);
  }

  lemma RecordedIsOrphan(s: Net, p: ProducerPass, x: string, id: string)
    requires IsPass(s, p) && RecordedFor(s, p.owner, x, id) && !Has(BooksOf(s, p), RDS, x)
    ensures exists e :: e in BooksOf(s, p) && InstanceGroups.Orphaned(GroupEnv(s, p), e) && IDFromARN(e.arn) == id
  {
    var n := InstanceGroups.GroupEntryName(x);
    BooksKeep(s, p, x);
    InstanceGroups.InstanceOfIs(n, x);
    FindSound(BooksOf(s, p), SecurityGroup, n);
    var e := Find(BooksOf(s, p), SecurityGroup, n).value;
    assert InstanceGroups.Orphaned(GroupEnv(s, p), e);
  }

  lemma DedicatedIsApart(s: Net, p: ProducerPass)
    requires IsPass(s, p) && Dedicated(s)
    ensures Apart(s, p)
  {
    forall e, i | e in BooksOf(s, p) && InstanceGroups.Orphaned(GroupEnv(s, p), e) && 0 <= i < |s.declared|
      ensures s.declared[i].group != IDFromARN(e.arn)
    {
      var x := OrphanIsRecorded(s, p, e);
    }
  }

  // What is on record after the pass was so before; a tracked one stays so.
  lemma PassRecords(s: Net, p: ProducerPass, q: CRName, x: string, id: string)
    requires IsPass(s, p)
    ensures RecordedFor(AfterPass(s, p), q, x, id) ==> RecordedFor(s, q, x, id)
    ensures q == p.owner && RecordedFor(s, q, x, id) ==>
      && (Has(AfterPass(s, p).producers[q].ledger, RDS, x) <==> Has(BooksOf(s, p), RDS, x))
      && (Has(BooksOf(s, p), RDS, x) ==> RecordedFor(AfterPass(s, p), q, x, id))
  {
    assert DeclaredBy(AfterPass(s, p), q) == DeclaredBy(s, q);
    if q == p.owner && x !in DeclaredBy(s, q) {
      var env, w, n := GroupEnv(s, p), Ensured(p), InstanceGroups.GroupEntryName(x);
      BooksKeep(s, p, x);
      InstanceGroups.InstanceOfIs(n, x);
      InstanceGroups.OthersStay(env, w, SecurityGroup, n);
      InstanceGroups.OthersStay(env, w, RDS, x);
      FindSound(BooksOf(s, p), SecurityGroup, n);
      GroupsOnlyLose(env, w, n);
    }
  }

  lemma GroupsOnlyLose(env: InstanceGroups.Env, w: Cloud, n: string)
    requires Unique(env.ledger)
    ensures var f, f' := Find(env.ledger, SecurityGroup, n), Find(InstanceGroups.AfterCleanup(env, w).ledger, SecurityGroup, n);
      f'.Some? ==> f' == f
  {
    var l, step, start := env.ledger, InstanceGroups.Step(env), Pass(w, env.ledger, [], false);
    InstanceGroups.StepIsLocal(env);
    if Find(l, SecurityGroup, n).None? {
      Outside(step, SecurityGroup, {SecurityGroup}, l, start, SecurityGroup, n);
    } else {
      FindSound(l, SecurityGroup, n);
      var k :| 0 <= k < |l| && l[k] == Find(l, SecurityGroup, n).value;
      AtEntry(step, SecurityGroup, {SecurityGroup}, l, k, start, SecurityGroup);
      FindRemove(Upto(step, l, k, start).ledger, SecurityGroup, n, SecurityGroup, n);
    }
  }

  lemma PassStaysDedicated(s: Net, p: ProducerPass)
    requires IsPass(s, p) && Dedicated(s)
    ensures Dedicated(AfterPass(s, p))
  {
    forall q, x, id | RecordedFor(AfterPass(s, p), q, x, id) ensures RecordedFor(s, q, x, id) {
      PassRecords(s, p, q, x, id);
    }
  }

  // A group no declared instance uses is untouched or deleted.
  lemma PassKeepsGroup(s: Net, p: ProducerPass, g: string, id: string)
    requires IsPass(s, p) && Silent(s.registry, g) && forall i :: 0 <= i < |s.declared| ==> s.declared[i].group != id
    ensures var w, w' := s.cloud, AfterPass(s, p).cloud; id in w'.groups ==> id in w.groups && w'.groups[id] == w.groups[id]
  {
    GroupsKept(s, p, |s.declared|, g, id);
    InstanceGroups.DeletesOnlyOrphans(GroupEnv(s, p), Ensured(p), |BooksOf(s, p)|);
  }

  // -------------------------------------------------------------------- a round

  ghost predicate RoundStep(trace: seq<Net>, passes: seq<ProducerPass>, k: nat)
    requires k < |passes| && |trace| == |passes| + 1
  {
    IsPass(trace[k], passes[k]) && ErrorFree(trace[k], passes[k]) && trace[k + 1] == AfterPass(trace[k], passes[k])
  }

  // One error-free pass of every producer, in any order, while nobody asks for g.
  ghost predicate Round(trace: seq<Net>, passes: seq<ProducerPass>, g: string) {
    && |trace| == |passes| + 1 && Silent(trace[0].registry, g) && Dedicated(trace[0])
    && (forall k :: 0 <= k < |passes| ==> RoundStep(trace, passes, k))
    && (forall j, k :: 0 <= j < k < |passes| ==> passes[j].owner != passes[k].owner)
    && (forall q :: q in trace[0].producers ==> exists k :: 0 <= k < |passes| && passes[k].owner == q)
    && (forall i :: 0 <= i < |trace[0].declared| ==> trace[0].declared[i].owner in trace[0].producers)
  }

  // The first and the last state.
  ghost function Start(trace: seq<Net>): Net
    requires trace != []
  {
    trace[0]
  }

  ghost function End(trace: seq<Net>): Net
    requires trace != []
  {
    trace[|trace| - 1]
  }

  // What no pass changes: who asks, what is declared, who the producers are.
  lemma {:induction false} RoundKeeps(trace: seq<Net>, passes: seq<ProducerPass>, g: string, k: nat)
    requires Round(trace, passes, g) && k <= |passes|
    ensures var a, b := trace[0], trace[k];
      && b.registry == a.registry && b.declared == a.declared && b.producers.Keys == a.producers.Keys
      && (forall q :: q in a.producers ==> b.producers[q].cr == a.producers[q].cr)
    ensures Dedicated(trace[k])
  {
    if k > 0 {
      RoundKeeps(trace, passes, g, k - 1);
      assert RoundStep(trace, passes, k - 1);
      PassStaysDedicated(trace[k - 1], passes[k - 1]);
    }
  }

  // A producer's ledger changes in its own pass only.
  lemma {:induction false} LedgerKept(trace: seq<Net>, passes: seq<ProducerPass>, g: string, a: nat, b: nat, q: CRName)
    requires Round(trace, passes, g) && a <= b <= |passes| && q in trace[0].producers
    requires forall k :: a <= k < b ==> passes[k].owner != q
    ensures q in trace[a].producers && q in trace[b].producers && trace[b].producers[q] == trace[a].producers[q]
    decreases b - a
  {
    RoundKeeps(trace, passes, g, a);
    if a < b {
      LedgerKept(trace, passes, g, a, b - 1, q);
      assert RoundStep(trace, passes, b - 1);
    }
  }

  lemma {:induction false} RecordsGoBack(trace: seq<Net>, passes: seq<ProducerPass>, g: string, a: nat, b: nat, q: CRName, x: string, id: string)
    requires Round(trace, passes, g) && a <= b <= |passes| && RecordedFor(trace[b], q, x, id)
    ensures RecordedFor(trace[a], q, x, id)
    decreases b - a
  {
    if a < b {
      assert RoundStep(trace, passes, b - 1);
      PassRecords(trace[b - 1], passes[b - 1], q, x, id);
      RecordsGoBack(trace, passes, g, a, b - 1, q, x, id);
    }
  }

  lemma {:induction false} GroupGoesBack(trace: seq<Net>, passes: seq<ProducerPass>, g: string, k: nat, id: string)
    requires Round(trace, passes, g) && k <= |passes| && id in trace[k].cloud.groups
    requires forall i :: 0 <= i < |trace[0].declared| ==> trace[0].declared[i].group != id
    ensures id in trace[0].cloud.groups && trace[k].cloud.groups[id] == trace[0].cloud.groups[id]
  {
    if k > 0 {
      RoundKeeps(trace, passes, g, k - 1);
      assert RoundStep(trace, passes, k - 1);
      PassKeepsGroup(trace[k - 1], passes[k - 1], g, id);
      GroupGoesBack(trace, passes, g, k - 1, id);
    }
  }

  ghost predicate RevokedAt(trace: seq<Net>, passes: seq<ProducerPass>, k: nat, id: string, r: Rule)
    requires k < |passes| && k < |trace|
  {
    passes[k].owner in trace[k].producers && Revoked(trace[k], passes[k], id, r)
  }

  // Each step keeps a rule exactly if it is not there to revoke it.
  lemma StepExact(trace: seq<Net>, passes: seq<ProducerPass>, g: string, k: nat, id: string, r: Rule)
    requires Round(trace, passes, g) && k < |passes| && r.group == g
    ensures Present(trace[k + 1].cloud, id, r) <==> Present(trace[k].cloud, id, r) && !RevokedAt(trace, passes, k, id, r)
  {
    RoundKeeps(trace, passes, g, k);
    assert RoundStep(trace, passes, k);
    DedicatedIsApart(trace[k], passes[k]);
    PassRules(trace[k], passes[k], g, id, r);
  }

  lemma {:induction false} RoundPresent(trace: seq<Net>, passes: seq<ProducerPass>, g: string, k: nat, id: string, r: Rule)
    requires Round(trace, passes, g) && k <= |passes| && r.group == g
    ensures Present(trace[k].cloud, id, r) <==>
      Present(trace[0].cloud, id, r) && forall j :: 0 <= j < k ==> !RevokedAt(trace, passes, j, id, r)
  {
    if k > 0 {
      RoundPresent(trace, passes, g, k - 1, id, r);
      StepExact(trace, passes, g, k - 1, id, r);
    }
  }

  // ------------------------------------------------------------- what is left

  lemma ShapedIsRevoked(trace: seq<Net>, passes: seq<ProducerPass>, g: string, id: string, r: Rule) returns (k: nat)
    requires Round(trace, passes, g) && Shaped(trace[0], id, r)
    ensures k < |passes| && RevokedAt(trace, passes, k, id, r)
  {
    var i :| 0 <= i < |trace[0].declared| && IsGrantOf(trace[0].declared[i], id, r);
    var q := trace[0].declared[i].owner;
    k :| 0 <= k < |passes| && passes[k].owner == q;
    RoundKeeps(trace, passes, g, k);
    assert RoundStep(trace, passes, k);
    assert GrantedAmong(trace[k], passes[k], |trace[k].declared|, id, r);
  }

  // The pass of the producer that has the group on its books.
  lemma BookedPass(trace: seq<Net>, passes: seq<ProducerPass>, g: string, q: CRName, x: string, id: string) returns (k: nat)
    requires Round(trace, passes, g) && RecordedFor(trace[0], q, x, id)
    ensures k < |passes| && passes[k].owner == q && RecordedFor(trace[k], q, x, id)
  {
    k :| 0 <= k < |passes| && passes[k].owner == q;
    LedgerKept(trace, passes, g, 0, k, q);
    RoundKeeps(trace, passes, g, k);
    assert DeclaredBy(trace[k], q) == DeclaredBy(trace[0], q);
  }

  lemma BookedIsRevokedOrTracked(trace: seq<Net>, passes: seq<ProducerPass>, g: string, id: string, r: Rule)
    requires Round(trace, passes, g) && Booked(trace[0], id) && r.group == g && Present(End(trace).cloud, id, r)
    ensures TrackedGroup(End(trace), id)
  {
    var q, x :| RecordedFor(trace[0], q, x, id) && OwnedGroup(trace[0], id, trace[0].producers[q].cr);
    var k := BookedPass(trace, passes, g, q, x, id);
    RoundPresent(trace, passes, g, |passes|, id, r);
    RoundPresent(trace, passes, g, k, id, r);
    GroupGoesBack(trace, passes, g, k, id);
    RoundKeeps(trace, passes, g, k);
    assert RoundStep(trace, passes, k);
    if !Has(BooksOf(trace[k], passes[k]), RDS, x) {
      RecordedIsOrphan(trace[k], passes[k], x, id);
      assert RevokedAt(trace, passes, k, id, r);
      assert false;
    }
    StaysTracked(trace, passes, g, k, x, id);
  }

  lemma StaysTracked(trace: seq<Net>, passes: seq<ProducerPass>, g: string, k: nat, x: string, id: string)
    requires Round(trace, passes, g) && k < |passes| && IsPass(trace[k], passes[k])
    requires RecordedFor(trace[k], passes[k].owner, x, id) && Has(BooksOf(trace[k], passes[k]), RDS, x)
    ensures TrackedGroup(End(trace), id)
  {
    var q := passes[k].owner;
    OwnPassTracks(trace, passes, g, k, x, id);
    RecordKept(trace, passes, g, k + 1, |passes|, q, x, id);
  }

  lemma OwnPassTracks(trace: seq<Net>, passes: seq<ProducerPass>, g: string, k: nat, x: string, id: string)
    requires Round(trace, passes, g) && k < |passes| && IsPass(trace[k], passes[k])
    requires RecordedFor(trace[k], passes[k].owner, x, id) && Has(BooksOf(trace[k], passes[k]), RDS, x)
    ensures var s, q := trace[k + 1], passes[k].owner; RecordedFor(s, q, x, id) && Has(s.producers[q].ledger, RDS, x)
  {
    assert RoundStep(trace, passes, k);
    PassRecords(trace[k], passes[k], passes[k].owner, x, id);
  }

  lemma RecordKept(trace: seq<Net>, passes: seq<ProducerPass>, g: string, a: nat, b: nat, q: CRName, x: string, id: string)
    requires Round(trace, passes, g) && a <= b <= |passes| && RecordedFor(trace[a], q, x, id)
    requires forall k :: a <= k < b ==> passes[k].owner != q
    ensures RecordedFor(trace[b], q, x, id) && trace[b].producers[q].ledger == trace[a].producers[q].ledger
  {
    RoundKeeps(trace, passes, g, a);
    RoundKeeps(trace, passes, g, b);
    LedgerKept(trace, passes, g, a, b, q);
    assert DeclaredBy(trace[b], q) == DeclaredBy(trace[a], q);
  }

  lemma RevokedIsNotForeign(trace: seq<Net>, passes: seq<ProducerPass>, g: string, k: nat, id: string, r: Rule)
    requires Round(trace, passes, g) && k < |passes| && RevokedAt(trace, passes, k, id, r)
    ensures !Foreign(trace[0], id, r)
  {
    var s, p := trace[k], passes[k];
    RoundKeeps(trace, passes, g, k);
    assert RoundStep(trace, passes, k);
    if GrantedAmong(s, p, |s.declared|, id, r) {
      assert Shaped(trace[0], id, r);
    } else {
      var e :| e in BooksOf(s, p) && InstanceGroups.Orphaned(GroupEnv(s, p), e) && IDFromARN(e.arn) == id;
      var x := OrphanIsRecorded(s, p, e);
      RecordsGoBack(trace, passes, g, 0, k, p.owner, x, id);
      GroupGoesBack(trace, passes, g, k, id);
      assert OwnedGroup(trace[0], id, trace[0].producers[p.owner].cr);
      assert Booked(trace[0], id);
    }
  }

  lemma RevokedIsNotTracked(trace: seq<Net>, passes: seq<ProducerPass>, g: string, k: nat, id: string, r: Rule)
    requires Round(trace, passes, g) && k < |passes| && RevokedAt(trace, passes, k, id, r)
    ensures !TrackedGroup(End(trace), id)
  {
    forall q, x | RecordedFor(End(trace), q, x, id) ensures !Has(End(trace).producers[q].ledger, RDS, x) {
      RevokedIsUntracked(trace, passes, g, k, id, r, q, x);
    }
  }

  lemma RevokedIsUntracked(trace: seq<Net>, passes: seq<ProducerPass>, g: string, k: nat, id: string, r: Rule, q: CRName, x: string)
    requires Round(trace, passes, g) && k < |passes| && RevokedAt(trace, passes, k, id, r) && RecordedFor(End(trace), q, x, id)
    ensures !Has(End(trace).producers[q].ledger, RDS, x)
  {
    var n, s, p := |passes|, trace[k], passes[k];
    RecordsGoBack(trace, passes, g, k, n, q, x, id);
    RoundKeeps(trace, passes, g, k);
    assert RoundStep(trace, passes, k);
    assert OwnOrphan(s, p, id);
    var e :| e in BooksOf(s, p) && InstanceGroups.Orphaned(GroupEnv(s, p), e) && IDFromARN(e.arn) == id;
    var x' := OrphanIsRecorded(s, p, e);
    assert q == p.owner && x == x';
    PassRecords(s, p, q, x, id);
    RecordsGoBack(trace, passes, g, 0, n, q, x, id);
    LedgerKept(trace, passes, g, k + 1, n, q);
  }

  // After a round, a rule that lets g in is left if and only if it was there and
  // is not the operator's to revoke, or its group is that of an instance that is
  // undeclared and still tracked.
  lemma RoundLeaves(trace: seq<Net>, passes: seq<ProducerPass>, g: string, id: string, r: Rule)
    requires Round(trace, passes, g) && r.group == g
    ensures Present(End(trace).cloud, id, r) <==>
      Present(Start(trace).cloud, id, r) && (Foreign(Start(trace), id, r) || TrackedGroup(End(trace), id))
  {
    RoundPresent(trace, passes, g, |passes|, id, r);
    if Present(End(trace).cloud, id, r) {
      LeftIsTheirs(trace, passes, g, id, r);
    }
    if Foreign(trace[0], id, r) || TrackedGroup(End(trace), id) {
      forall k | 0 <= k < |passes| ensures !RevokedAt(trace, passes, k, id, r) {
        if RevokedAt(trace, passes, k, id, r) {
          RevokedIsNotForeign(trace, passes, g, k, id, r);
          RevokedIsNotTracked(trace, passes, g, k, id, r);
        }
      }
    }
  }

  lemma LeftIsTheirs(trace: seq<Net>, passes: seq<ProducerPass>, g: string, id: string, r: Rule)
    requires Round(trace, passes, g) && r.group == g && Present(End(trace).cloud, id, r)
    ensures Foreign(Start(trace), id, r) || TrackedGroup(End(trace), id)
  {
    RoundPresent(trace, passes, g, |passes|, id, r);
    if Shaped(trace[0], id, r) {
      var k := ShapedIsRevoked(trace, passes, g, id, r);
      assert false;
    }
    if Booked(trace[0], id) {
      BookedIsRevokedOrTracked(trace, passes, g, id, r);
    }
  }

  // A rule of another group that the round leaves in the way of g's release.
  ghost predicate InTheWay(trace: seq<Net>, g: string, id: string, r: Rule)
    requires trace != []
  {
    id != g && r.group == g && Present(Start(trace).cloud, id, r) && (Foreign(Start(trace), id, r) || TrackedGroup(End(trace), id))
  }

  // The release after a round. With every call answered, the consumer's group
  // goes and its entry with it if and only if no such rule was in the way: the
  // protocol comes to its end in one round of error-free passes.
  lemma RoundReleases(trace: seq<Net>, passes: seq<ProducerPass>, g: string, env: Env, l: seq<Entry>)
    requires Round(trace, passes, g) && PodEntry(l).Some? && IDFromARN(PodEntry(l).value.arn) == g
    requires var w := End(trace).cloud; w.faults == [] && g in w.groups && IsOwnedBy(w.groups[g].tags, env.cr)
    ensures AfterRelease(env, End(trace).cloud, l).ok <==> !exists id, r :: InTheWay(trace, g, id, r)
  {
    ReleaseCompletesIff(env, End(trace).cloud, l);
    if id, r :| InTheWay(trace, g, id, r) {
      RoundLeaves(trace, passes, g, id, r);
      assert Named(End(trace).cloud, g);
    }
    if Named(End(trace).cloud, g) {
      var id, r :| id in End(trace).cloud.groups && id != g && r in End(trace).cloud.groups[id].rules && r.group == g;
      assert Present(End(trace).cloud, id, r);
      RoundLeaves(trace, passes, g, id, r);
      assert InTheWay(trace, g, id, r);
    }
  }

  // An instance that is tracked but no longer declared: whatever passes, failed
  // or not, its group's rule stays while the instance is tracked, and a release
  // of the group it lets in is refused.
  lemma UndeclaredInstanceBlocks(s: Net, p: ProducerPass, g: string, q: CRName, x: string, id: string, r: Rule, env: Env, l: seq<Entry>)
    requires IsPass(s, p) && Silent(s.registry, g) && Dedicated(s)
    requires RecordedFor(s, q, x, id) && (q == p.owner ==> Has(BooksOf(s, p), RDS, x))
    requires id != g && r.group == g && Present(s.cloud, id, r)
    requires PodEntry(l).Some? && IDFromARN(PodEntry(l).value.arn) == g
    requires var w := AfterPass(s, p).cloud; w.faults == [] && g in w.groups && IsOwnedBy(w.groups[g].tags, env.cr)
    ensures Present(AfterPass(s, p).cloud, id, r) && !AfterRelease(env, AfterPass(s, p).cloud, l).ok
  {
    DedicatedIsApart(s, p);
    PassRules(s, p, g, id, r);
    if Revoked(s, p, id, r) {
      if !GrantedAmong(s, p, |s.declared|, id, r) {
        var e :| e in BooksOf(s, p) && InstanceGroups.Orphaned(GroupEnv(s, p), e) && IDFromARN(e.arn) == id;
        var x' := OrphanIsRecorded(s, p, e);
      }
      assert false;
    }
    assert Named(AfterPass(s, p).cloud, g);
    ReleaseCompletesIff(env, AfterPass(s, p).cloud, l);
  }
}
