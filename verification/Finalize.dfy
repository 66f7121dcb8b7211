/**
 Deleting a CR: every section is finalized in order, keys last, and the
 finalizer comes off only when all of them are done.
 */
module Finalize {
  import opened Ledger
  import opened Sweep
  import KmsCloud
  import TableCloud
  import InstanceCloud
  import KeyCleanup
  import KeySection
  import KeyFinalize
  import TableCleanup
  import TableFinalize
  import InstanceCleanup
  import InstanceFinalize
  import GroupCloud
  import Ingress
  import NetworkRelease
  import InstanceGroups

  datatype World = World(
    ledger: seq<Entry>,
    keys: KmsCloud.Cloud,
    tables: TableCloud.Cloud,
    instances: InstanceCloud.Cloud,
    groups: GroupCloud.Cloud)

  datatype SectionName =
    | KMSReady | SQSReady | SNSReady | DynamoDBReady | S3Ready | RDSReady | AlarmsReady | KeyPolicyReady | IAMReady

  // What a section's finalize returns: the world it leaves, whether it is done,
  // what it waits for, and whether it failed.
  datatype Outcome = Outcome(world: World, done: bool, blocked: seq<string>, failed: bool)

  datatype Section = Section(name: SectionName, finalize: World -> Outcome)

  // ---------------------------------------------------------- the sections

  function Waits<R>(results: seq<R>, waiting: R -> bool, name: R -> string): seq<string> {
    if results == [] then []
    else
      var rest := Waits(results[..|results| - 1], waiting, name);
      if waiting(results[|results| - 1]) then rest + [name(results[|results| - 1])] else rest
  }

  lemma {:induction false} WaitsForNone<R>(results: seq<R>, waiting: R -> bool, name: R -> string)
    ensures Waits(results, waiting, name) == [] <==> forall r :: r in results ==> !waiting(r)
  {
    if results != [] {
      var init, last := results[..|results| - 1], results[|results| - 1];
      WaitsForNone(init, waiting, name);
      assert results == init + [last];
    }
  }

  function Concluded<R>(w: World, failed: bool, waits: seq<string>): Outcome {
    if failed then Outcome(w, false, [], true) else Outcome(w, waits == [], waits, false)
  }

  function FinalizeKeys(env: KeyCleanup.Env, spec: KeySection.Spec, w: World): Outcome {
    var p := KeyCleanup.AfterCleanup(env, KeySection.FinalizeWants(w.ledger, spec), w.keys, w.ledger);
    Concluded<KeyCleanup.Result>(w.(ledger := p.ledger, keys := p.world), p.failed,
      Waits(p.results, KeyFinalize.Waiting, (r: KeyCleanup.Result) => r.name))
  }

  function KMSSection(env: KeyCleanup.Env, spec: KeySection.Spec): Section {
    Section(KMSReady, (w: World) => FinalizeKeys(env, spec, w))
  }

  function FinalizeTables(env: TableCleanup.Env, w: World): Outcome {
    var p := TableCleanup.AfterCleanup(env, {}, w.tables, w.ledger);
    Concluded<TableCleanup.Result>(w.(ledger := p.ledger, tables := p.world), p.failed,
      Waits(p.results, TableFinalize.Waiting, (r: TableCleanup.Result) => r.name))
  }

  function DynamoDBSection(env: TableCleanup.Env): Section {
    Section(DynamoDBReady, (w: World) => FinalizeTables(env, w))
  }

  // The network steps before and after the instances; each may fail.
  function ReleasePodNetwork(env: InstanceCleanup.Env, w: World): (World, bool) {
    var r := NetworkRelease.AfterRelease(NetworkRelease.Env(env.cr, env.now), w.groups, w.ledger);
    (w.(ledger := r.ledger, groups := r.cloud), r.ok)
  }

  function DeleteOrphanedGroups(env: InstanceCleanup.Env, w: World): (World, bool) {
    var p := InstanceGroups.AfterCleanup(InstanceGroups.Env(env.cr, {}, w.ledger), w.groups);
    (w.(ledger := p.ledger, groups := p.world), !p.failed)
  }

  function FinalizeInstances(env: InstanceCleanup.Env, w: World): Outcome {
    var (w1, networkOk) := ReleasePodNetwork(env, w);
    if !networkOk then Outcome(w1, false, [], true)
    else
      var p := InstanceCleanup.AfterCleanup(env, {}, w1.instances, w1.ledger);
      var w2 := w1.(ledger := p.ledger, instances := p.world);
      if p.failed then Outcome(w2, false, [], true)
      else
        var (w3, groupsOk) := DeleteOrphanedGroups(env, w2);
        Concluded<InstanceCleanup.Result>(w3, !groupsOk,
          Waits(p.results, InstanceFinalize.Waiting, (r: InstanceCleanup.Result) => r.name))
  }

  function RDSSection(env: InstanceCleanup.Env): Section {
    Section(RDSReady, (w: World) => FinalizeInstances(env, w))
  }

  // ------------------------------------------------------------- the driver

  function NotKeys(sections: seq<Section>): seq<Section> {
    if sections == [] then []
    else
      var rest := NotKeys(sections[..|sections| - 1]);
      if sections[|sections| - 1].name.KMSReady? then rest else rest + [sections[|sections| - 1]]
  }

  function Keys(sections: seq<Section>): seq<Section> {
    if sections == [] then []
    else
      var rest := Keys(sections[..|sections| - 1]);
      if sections[|sections| - 1].name.KMSReady? then rest + [sections[|sections| - 1]] else rest
  }

  method FinalizeOrder(sections: seq<Section>) returns (ordered: seq<Section>)
    ensures ordered == NotKeys(sections) + Keys(sections)
  {
    ordered := [];
    var keys := [];
    for i := 0 to |sections|
      invariant ordered == NotKeys(sections[..i]) && keys == Keys(sections[..i])
    {
      assert sections[..i + 1][..i] == sections[..i];
      if sections[i].name.KMSReady? {
        keys := keys + [sections[i]];
      } else {
        ordered := ordered + [sections[i]];
      }
    }
    assert sections[..|sections|] == sections;
    ordered := ordered + keys;
  }

  // Nothing is lost or repeated, every key section comes after every other one,
  // and each of the two kinds keeps its order.
  lemma OrderKeepsSections(sections: seq<Section>)
    ensures multiset(NotKeys(sections) + Keys(sections)) == multiset(sections)
    ensures forall s :: s in NotKeys(sections) ==> !s.name.KMSReady?
    ensures forall s :: s in Keys(sections) ==> s.name.KMSReady?
  {
    OrderPermutes(sections);
    OrderSplits(sections);
  }

  lemma {:induction false} OrderPermutes(sections: seq<Section>)
    ensures multiset(NotKeys(sections)) + multiset(Keys(sections)) == multiset(sections)
  {
    if sections != [] {
      var init, last := sections[..|sections| - 1], sections[|sections| - 1];
      OrderPermutes(init);
      assert sections == init + [last];
    }
  }

  lemma {:induction false} OrderSplits(sections: seq<Section>)
    ensures forall s :: s in NotKeys(sections) ==> !s.name.KMSReady?
    ensures forall s :: s in Keys(sections) ==> s.name.KMSReady?
  {
    if sections != [] {
      OrderSplits(sections[..|sections| - 1]);
    }
  }

  lemma {:induction false} OrderIsStable(a: seq<Section>, b: seq<Section>)
    ensures NotKeys(a + b) == NotKeys(a) + NotKeys(b)
    ensures Keys(a + b) == Keys(a) + Keys(b)
  {
    if b == [] {
      assert a + b == a;
    } else {
      OrderIsStable(a, b[..|b| - 1]);
      assert (a + b)[..|a + b| - 1] == a + b[..|b| - 1];
    }
  }

  // The outcome after the first k sections. A failed section stops no other.
  function FinalizeUpto(sections: seq<Section>, k: nat, w: World): Outcome
    requires k <= |sections|
  {
    if k == 0 then Outcome(w, true, [], false)
    else
      var o := FinalizeUpto(sections, k - 1, w);
      var s := sections[k - 1].finalize(o.world);
      if s.failed then Outcome(s.world, false, o.blocked, true)
      else if s.done then o.(world := s.world)
      else Outcome(s.world, false, o.blocked + s.blocked, o.failed)
  }

  // What FinalizeDesiredState comes to.
  function Finalized(sections: seq<Section>, w: World): Outcome {
    var ordered := NotKeys(sections) + Keys(sections);
    FinalizeUpto(ordered, |ordered|, w)
  }

  method FinalizeDesiredState(sections: seq<Section>, w: World) returns (o: Outcome)
    ensures o == Finalized(sections, w)
  {
    var ordered := FinalizeOrder(sections);
    var world, allDone, blocked, failed := w, true, [], false;
    for i := 0 to |ordered|
      invariant Outcome(world, allDone, blocked, failed) == FinalizeUpto(ordered, i, w)
    {
      var s := ordered[i].finalize(world);
      world := s.world;
      if s.failed {
        failed, allDone := true, false;
        continue;
      }
      if !s.done {
        allDone, blocked := false, blocked + s.blocked;
      }
    }
    return Outcome(world, allDone, blocked, failed);
  }

  // Each section is finalized in the world the one before it left.
  ghost predicate Worlds(sections: seq<Section>, t: seq<World>) {
    |t| == |sections| + 1 && forall i :: 0 <= i < |sections| ==> t[i + 1] == sections[i].finalize(t[i]).world
  }

  ghost predicate Agrees(sections: seq<Section>, t: seq<World>, k: nat, o: Outcome)
    requires Worlds(sections, t) && k <= |sections|
  {
    && o.world == t[k]
    && (o.failed <==> exists i :: 0 <= i < k && sections[i].finalize(t[i]).failed)
    && (o.done <==> forall i :: 0 <= i < k ==> sections[i].finalize(t[i]).done && !sections[i].finalize(t[i]).failed)
    && (forall b :: b in o.blocked <==>
          exists i :: 0 <= i < k && !sections[i].finalize(t[i]).failed && !sections[i].finalize(t[i]).done && b in sections[i].finalize(t[i]).blocked)
  }

  // Every section is finalized, keys last, whatever the ones before it came to;
  // the whole fails if one does, is done if all are, and waits for what the
  // unfinished ones wait for.
  lemma EverySectionRuns(sections: seq<Section>, w: World) returns (t: seq<World>)
    ensures var ordered := NotKeys(sections) + Keys(sections);
      Worlds(ordered, t) && t[0] == w && Agrees(ordered, t, |ordered|, Finalized(sections, w))
  {
    var ordered := NotKeys(sections) + Keys(sections);
    t := seq(|ordered| + 1, i requires 0 <= i <= |ordered| => FinalizeUpto(ordered, i, w).world);
    UptoAgrees(ordered, t, |ordered|, w);
  }

  lemma {:induction false} UptoAgrees(sections: seq<Section>, t: seq<World>, k: nat, w: World)
    requires Worlds(sections, t) && t[0] == w && k <= |sections|
    ensures Agrees(sections, t, k, FinalizeUpto(sections, k, w))
  {
    if k > 0 {
      UptoAgrees(sections, t, k - 1, w);
      OneMoreAgrees(sections, t, k, FinalizeUpto(sections, k - 1, w), FinalizeUpto(sections, k, w));
    }
  }

  lemma OneMoreAgrees(sections: seq<Section>, t: seq<World>, k: nat, o: Outcome, o': Outcome)
    requires Worlds(sections, t) && 0 < k <= |sections| && Agrees(sections, t, k - 1, o)
    requires var s := sections[k - 1].finalize(o.world);
      o' == if s.failed then Outcome(s.world, false, o.blocked, true)
            else if s.done then o.(world := s.world)
            else Outcome(s.world, false, o.blocked + s.blocked, o.failed)
    ensures Agrees(sections, t, k, o')
  {
    var s := sections[k - 1].finalize(t[k - 1]);
    assert t[k - 1 + 1] == s.world;
  }

  // ------------------------------------------------------ nothing abandoned

  function Owns(name: SectionName): set<ResourceType> {
    match name
    case KMSReady => {KMS}
    case DynamoDBReady => {DynamoDB}
    case RDSReady => {RDS, SecurityGroup}
    case _ => {}
  }

  // Nothing of the section's own is still draining.
  ghost predicate Drained(name: SectionName, w: World) {
    match name
    case KMSReady =>
      forall n :: Find(w.ledger, KMS, n).Some? ==>
        Find(w.ledger, KMS, n).value.state.Relinquished? || KeyFinalize.Dying(w.keys, Find(w.ledger, KMS, n).value.arn)
    case DynamoDBReady =>
      forall n :: Find(w.ledger, DynamoDB, n).Some? ==> Find(w.ledger, DynamoDB, n).value.state.Relinquished?
    case RDSReady =>
      && (forall n :: Find(w.ledger, RDS, n).Some? ==> Find(w.ledger, RDS, n).value.state.Relinquished?)
      && forall n :: Find(w.ledger, SecurityGroup, n).Some? ==> GroupKept(w.ledger, n)
    case _ => true
  }

  // A group left is not the pods', and if it is an instance's, that is left too.
  ghost predicate GroupKept(l: seq<Entry>, n: string) {
    n != Ingress.POD_IDENTITY && (InstanceGroups.InstanceOf(n).Some? ==> Has(l, RDS, InstanceGroups.InstanceOf(n).value))
  }

  ghost predicate Leaves(w: World, w': World, owned: set<ResourceType>) {
    && Unique(w'.ledger)
    && forall t, n :: t in {KMS, DynamoDB, RDS, SecurityGroup} && t !in owned ==> Find(w'.ledger, t, n) == Find(w.ledger, t, n)
  }

  // What finalizing the section does to one world: the ledger stays unique, the
  // entries of the other types are left alone, and it says it is done only when
  // nothing of its own is draining.
  ghost predicate KeepsAt(s: Section, w: World) {
    var o := s.finalize(w);
    Leaves(w, o.world, Owns(s.name)) && (o.done ==> !o.failed && Drained(s.name, o.world))
  }

  ghost predicate Keeps(s: Section) {
    forall w: World {:trigger KeepsAt(s, w)} :: Unique(w.ledger) ==> KeepsAt(s, w)
  }

  // A sweep that acts on one type only leaves the others' entries alone.
  lemma SweepLeaves<W(!new), R(!new)>(step: Stepper<W, R>, own: ResourceType, touched: set<ResourceType>, start: Pass<W, R>, w: World)
    requires Local(step, own, touched) && Unique(w.ledger) && start.ledger == w.ledger
    ensures Leaves(w, w.(ledger := Upto(step, w.ledger, |w.ledger|, start).ledger), touched)
  {
    var l := w.ledger;
    StaysUnique(step, own, touched, l, |l|, start);
    forall t, n | t !in touched ensures Find(Upto(step, l, |l|, start).ledger, t, n) == Find(l, t, n) {
      Outside(step, own, touched, l, start, t, n);
    }
  }

  lemma KeysLeave(env: KeyCleanup.Env, wants: KeyCleanup.Wants, w: World)
    requires Unique(w.ledger)
    ensures Leaves(w, w.(ledger := KeyCleanup.AfterCleanup(env, wants, w.keys, w.ledger).ledger), {KMS})
  {
    KeyCleanup.StepIsLocal(env, wants);
    SweepLeaves(KeyCleanup.Step(env, wants), KMS, {KMS}, Pass(w.keys, w.ledger, [], false), w);
  }

  lemma KeysDrain(env: KeyCleanup.Env, wants: KeyCleanup.Wants, w: World, p: KeyCleanup.KeyPass)
    requires Unique(w.ledger) && wants.deleting && p == KeyCleanup.AfterCleanup(env, wants, w.keys, w.ledger)
    requires !p.failed && Waits(p.results, KeyFinalize.Waiting, (r: KeyCleanup.Result) => r.name) == []
    ensures Drained(KMSReady, w.(ledger := p.ledger, keys := p.world))
  {
    WaitsForNone(p.results, KeyFinalize.Waiting, (r: KeyCleanup.Result) => r.name);
    forall n | Find(p.ledger, KMS, n).Some?
      ensures Find(p.ledger, KMS, n).value.state.Relinquished? || KeyFinalize.Dying(p.world, Find(p.ledger, KMS, n).value.arn)
    {
      KeyFinalize.NothingLeftDraining(env, wants, w.keys, w.ledger, n);
    }
  }

  lemma KMSKeepsAt(env: KeyCleanup.Env, spec: KeySection.Spec, w: World)
    requires Unique(w.ledger)
    ensures KeepsAt(KMSSection(env, spec), w)
  {
    var wants := KeySection.FinalizeWants(w.ledger, spec);
    KeysLeave(env, wants, w);
    var p := KeyCleanup.AfterCleanup(env, wants, w.keys, w.ledger);
    if !p.failed && Waits(p.results, KeyFinalize.Waiting, (r: KeyCleanup.Result) => r.name) == [] {
      KeysDrain(env, wants, w, p);
    }
  }

  lemma TablesLeave(env: TableCleanup.Env, w: World)
    requires Unique(w.ledger)
    ensures Leaves(w, w.(ledger := TableCleanup.AfterCleanup(env, {}, w.tables, w.ledger).ledger), {DynamoDB})
  {
    TableCleanup.StepIsLocal(env, {});
    SweepLeaves(TableCleanup.Step(env, {}), DynamoDB, {DynamoDB}, Pass(w.tables, w.ledger, [], false), w);
  }

  lemma TablesDrain(env: TableCleanup.Env, w: World, p: TableCleanup.TablePass)
    requires Unique(w.ledger) && p == TableCleanup.AfterCleanup(env, {}, w.tables, w.ledger)
    requires !p.failed && Waits(p.results, TableFinalize.Waiting, (r: TableCleanup.Result) => r.name) == []
    ensures Drained(DynamoDBReady, w.(ledger := p.ledger, tables := p.world))
  {
    WaitsForNone(p.results, TableFinalize.Waiting, (r: TableCleanup.Result) => r.name);
    forall n | Find(p.ledger, DynamoDB, n).Some? ensures Find(p.ledger, DynamoDB, n).value.state.Relinquished? {
      TableFinalize.NothingLeftDraining(env, w.tables, w.ledger, n);
    }
  }

  lemma DynamoDBKeepsAt(env: TableCleanup.Env, w: World)
    requires Unique(w.ledger)
    ensures KeepsAt(DynamoDBSection(env), w)
  {
    var p := TableCleanup.AfterCleanup(env, {}, w.tables, w.ledger);
    var w' := w.(ledger := p.ledger, tables := p.world);
    TablesLeave(env, w);
    LeavesByLedger(w, w.(ledger := p.ledger), w', {DynamoDB});
    if !p.failed && Waits(p.results, TableFinalize.Waiting, (r: TableCleanup.Result) => r.name) == [] {
      TablesDrain(env, w, p);
    }
    DynamoDBOutcome(env, w, p);
    EndsAt(DynamoDBSection(env), w, w');
  }

  lemma DynamoDBOutcome(env: TableCleanup.Env, w: World, p: TableCleanup.TablePass)
    requires p == TableCleanup.AfterCleanup(env, {}, w.tables, w.ledger)
    ensures var o := DynamoDBSection(env).finalize(w);
      && o.world == w.(ledger := p.ledger, tables := p.world)
      && (o.done ==> !o.failed && !p.failed && Waits(p.results, TableFinalize.Waiting, (r: TableCleanup.Result) => r.name) == [])
  {
  }

  lemma EndsAt(s: Section, w: World, w': World)
    requires s.finalize(w).world == w' && Leaves(w, w', Owns(s.name))
    requires s.finalize(w).done ==> !s.finalize(w).failed && Drained(s.name, w')
    ensures KeepsAt(s, w)
  {
  }

  lemma InstancesLeave(env: InstanceCleanup.Env, w: World)
    requires Unique(w.ledger)
    ensures Leaves(w, w.(ledger := InstanceCleanup.AfterCleanup(env, {}, w.instances, w.ledger).ledger), {RDS})
  {
    var p := InstanceCleanup.AfterInstances(env, {}, w.instances, w.ledger);
    InstanceCleanup.StepIsLocal(env, {});
    SweepLeaves(InstanceCleanup.Step(env, {}), RDS, {RDS, RDSSnapshot}, Pass(w.instances, w.ledger, [], false), w);
    InstanceCleanup.OrphanStepIsLocal(env);
    SweepLeaves(InstanceCleanup.OrphanStep(env), RDSSnapshot, {RDSSnapshot}, p, w.(ledger := p.ledger));
  }

  lemma InstancesDrain(env: InstanceCleanup.Env, w: World, p: InstanceCleanup.InstancePass, n: string)
    requires Unique(w.ledger) && p == InstanceCleanup.AfterCleanup(env, {}, w.instances, w.ledger)
    requires !p.failed && Waits(p.results, InstanceFinalize.Waiting, (r: InstanceCleanup.Result) => r.name) == []
    requires Find(p.ledger, RDS, n).Some?
    ensures Find(p.ledger, RDS, n).value.state.Relinquished?
  {
    WaitsForNone(p.results, InstanceFinalize.Waiting, (r: InstanceCleanup.Result) => r.name);
    InstanceFinalize.NothingLeftDraining(env, w.instances, w.ledger, n);
  }

  // Both network steps change entries of security groups only.
  lemma ReleaseLeaves(env: InstanceCleanup.Env, w: World)
    requires Unique(w.ledger)
    ensures var (w', ok) := ReleasePodNetwork(env, w);
      Leaves(w, w', {SecurityGroup}) && (ok ==> Find(w'.ledger, SecurityGroup, Ingress.POD_IDENTITY).None?)
  {
    var renv := NetworkRelease.Env(env.cr, env.now);
    forall t, n ensures t != SecurityGroup ==> Find(NetworkRelease.AfterRelease(renv, w.groups, w.ledger).ledger, t, n) == Find(w.ledger, t, n) {
      NetworkRelease.ReleaseFrame(renv, w.groups, w.ledger, t, n);
    }
    NetworkRelease.ReleaseFrame(renv, w.groups, w.ledger, KMS, "");
    if NetworkRelease.PodEntry(w.ledger).Some? {
      NetworkRelease.ReleaseKeepsTheEntry(renv, w.groups, w.ledger);
    }
  }

  lemma OrphanedGroupsLeave(env: InstanceCleanup.Env, w: World)
    requires Unique(w.ledger)
    ensures Leaves(w, DeleteOrphanedGroups(env, w).0, {SecurityGroup})
  {
    var genv := InstanceGroups.Env(env.cr, {}, w.ledger);
    forall t, n ensures t != SecurityGroup ==> Find(InstanceGroups.AfterCleanup(genv, w.groups).ledger, t, n) == Find(w.ledger, t, n) {
      InstanceGroups.OthersStay(genv, w.groups, t, n);
    }
    InstanceGroups.OthersStay(genv, w.groups, KMS, "");
  }

  lemma OrphanedGroupsGo(env: InstanceCleanup.Env, w: World, n: string)
    requires Unique(w.ledger) && Find(w.ledger, SecurityGroup, Ingress.POD_IDENTITY).None?
    requires DeleteOrphanedGroups(env, w).1 && Find(DeleteOrphanedGroups(env, w).0.ledger, SecurityGroup, n).Some?
    ensures GroupKept(w.ledger, n)
  {
    var genv := InstanceGroups.Env(env.cr, {}, w.ledger);
    InstanceGroups.OthersStay(genv, w.groups, SecurityGroup, n);
    var e := Find(w.ledger, SecurityGroup, n).value;
    FindSound(w.ledger, SecurityGroup, n);
    if InstanceGroups.Orphaned(genv, e) {
      InstanceGroups.OrphanIsForgotten(genv, w.groups, e);
    }
  }

  lemma LeavesByLedger(w: World, a: World, b: World, owned: set<ResourceType>)
    requires Leaves(w, a, owned) && a.ledger == b.ledger
    ensures Leaves(w, b, owned)
  {
  }

  lemma LeavesInTurn(w: World, w1: World, w2: World, w3: World, x: World)
    requires Leaves(w, w1, {SecurityGroup}) && Leaves(w1, w2, {RDS}) && Leaves(w2, w3, {SecurityGroup}) && x in {w1, w2, w3}
    ensures Leaves(w, x, Owns(RDSReady))
  {
  }

  // The worlds between the three steps of the RDS section.
  ghost predicate RDSStages(env: InstanceCleanup.Env, w: World, w1: World, p: InstanceCleanup.InstancePass, w2: World, w3: World) {
    && w1 == ReleasePodNetwork(env, w).0
    && p == InstanceCleanup.AfterCleanup(env, {}, w1.instances, w1.ledger)
    && w2 == w1.(ledger := p.ledger, instances := p.world)
    && w3 == DeleteOrphanedGroups(env, w2).0
  }

  lemma RDSLeaves(env: InstanceCleanup.Env, w: World, w1: World, p: InstanceCleanup.InstancePass, w2: World, w3: World)
    requires RDSStages(env, w, w1, p, w2, w3) && Unique(w.ledger)
    ensures Leaves(w, w1, {SecurityGroup}) && Leaves(w1, w2, {RDS}) && Leaves(w2, w3, {SecurityGroup})
  {
    ReleaseLeaves(env, w);
    InstancesLeave(env, w1);
    LeavesByLedger(w1, w1.(ledger := p.ledger), w2, {RDS});
    OrphanedGroupsLeave(env, w2);
  }

  lemma RDSDrains(env: InstanceCleanup.Env, w: World, w1: World, p: InstanceCleanup.InstancePass, w2: World, w3: World)
    requires RDSStages(env, w, w1, p, w2, w3) && Unique(w.ledger)
    requires ReleasePodNetwork(env, w).1 && !p.failed && DeleteOrphanedGroups(env, w2).1
    requires Waits(p.results, InstanceFinalize.Waiting, (r: InstanceCleanup.Result) => r.name) == []
    ensures Drained(RDSReady, w3)
  {
    RDSLeaves(env, w, w1, p, w2, w3);
    ReleaseLeaves(env, w);
    forall n | Find(w3.ledger, RDS, n).Some? ensures Find(w3.ledger, RDS, n).value.state.Relinquished? {
      InstancesDrain(env, w1, p, n);
    }
    forall n | Find(w3.ledger, SecurityGroup, n).Some? ensures GroupKept(w3.ledger, n) {
      OrphanedGroupsGo(env, w2, n);
    }
  }

  // The ways the RDS section ends.
  ghost predicate RDSEnds(env: InstanceCleanup.Env, w: World, w1: World, p: InstanceCleanup.InstancePass, w2: World, w3: World, o: Outcome) {
    && o.world in {w1, w2, w3}
    && (o.done ==> !o.failed && o.world == w3)
    && (o.done <==>
                   && ReleasePodNetwork(env, w).1 && !p.failed && DeleteOrphanedGroups(env, w2).1
                   && Waits(p.results, InstanceFinalize.Waiting, (r: InstanceCleanup.Result) => r.name) == [])
  }

  lemma RDSOutcomes(env: InstanceCleanup.Env, w: World, w1: World, p: InstanceCleanup.InstancePass, w2: World, w3: World)
    requires RDSStages(env, w, w1, p, w2, w3)
    ensures RDSEnds(env, w, w1, p, w2, w3, RDSSection(env).finalize(w))
  {
  }

  lemma RDSRuns(env: InstanceCleanup.Env, w: World) returns (w1: World, p: InstanceCleanup.InstancePass, w2: World, w3: World)
    ensures RDSStages(env, w, w1, p, w2, w3) && RDSEnds(env, w, w1, p, w2, w3, RDSSection(env).finalize(w))
  {
    w1 := ReleasePodNetwork(env, w).0;
    p := InstanceCleanup.AfterCleanup(env, {}, w1.instances, w1.ledger);
    w2 := w1.(ledger := p.ledger, instances := p.world);
    w3 := DeleteOrphanedGroups(env, w2).0;
    RDSOutcomes(env, w, w1, p, w2, w3);
  }

  lemma RDSEndLeaves(env: InstanceCleanup.Env, w: World, w1: World, p: InstanceCleanup.InstancePass, w2: World, w3: World, o: Outcome)
    requires RDSStages(env, w, w1, p, w2, w3) && o.world in {w1, w2, w3} && Unique(w.ledger)
    ensures Leaves(w, o.world, Owns(RDSReady))
  {
    RDSLeaves(env, w, w1, p, w2, w3);
    LeavesInTurn(w, w1, w2, w3, o.world);
  }

  lemma RDSKeepsAt(env: InstanceCleanup.Env, w: World)
    requires Unique(w.ledger)
    ensures KeepsAt(RDSSection(env), w)
  {
    var w1, p, w2, w3 := RDSRuns(env, w);
    RDSEndLeaves(env, w, w1, p, w2, w3, RDSSection(env).finalize(w));
    if RDSSection(env).finalize(w).done {
      RDSDrains(env, w, w1, p, w2, w3);
    }
  }

  // Each section is done exactly if nothing in it failed and nothing waits.
  lemma SectionDoneIff(keyEnv: KeyCleanup.Env, spec: KeySection.Spec, tableEnv: TableCleanup.Env, w: World)
    ensures var p := KeyCleanup.AfterCleanup(keyEnv, KeySection.FinalizeWants(w.ledger, spec), w.keys, w.ledger);
      KMSSection(keyEnv, spec).finalize(w).done <==> !p.failed && forall r :: r in p.results ==> !KeyFinalize.Waiting(r)
    ensures var p := TableCleanup.AfterCleanup(tableEnv, {}, w.tables, w.ledger);
      DynamoDBSection(tableEnv).finalize(w).done <==> !p.failed && forall r :: r in p.results ==> !TableFinalize.Waiting(r)
  {
    var p := KeyCleanup.AfterCleanup(keyEnv, KeySection.FinalizeWants(w.ledger, spec), w.keys, w.ledger);
    WaitsForNone(p.results, KeyFinalize.Waiting, (r: KeyCleanup.Result) => r.name);
    var q := TableCleanup.AfterCleanup(tableEnv, {}, w.tables, w.ledger);
    WaitsForNone(q.results, TableFinalize.Waiting, (r: TableCleanup.Result) => r.name);
  }

  lemma RDSDoneIff(env: InstanceCleanup.Env, w: World)
    ensures var w1 := ReleasePodNetwork(env, w).0;
      var p := InstanceCleanup.AfterCleanup(env, {}, w1.instances, w1.ledger);
      RDSSection(env).finalize(w).done <==>
        && ReleasePodNetwork(env, w).1 && !p.failed && DeleteOrphanedGroups(env, w1.(ledger := p.ledger, instances := p.world)).1
        && forall r :: r in p.results ==> !InstanceFinalize.Waiting(r)
  {
    var w1, p, w2, w3 := RDSRuns(env, w);
    WaitsForNone(p.results, InstanceFinalize.Waiting, (r: InstanceCleanup.Result) => r.name);
  }

  lemma SectionsKeep(keyEnv: KeyCleanup.Env, keySpec: KeySection.Spec, tableEnv: TableCleanup.Env, instanceEnv: InstanceCleanup.Env)
    ensures Keeps(KMSSection(keyEnv, keySpec))
    ensures Keeps(DynamoDBSection(tableEnv))
    ensures Keeps(RDSSection(instanceEnv))
  {
    forall w: World | Unique(w.ledger) ensures KeepsAt(KMSSection(keyEnv, keySpec), w) {
      KMSKeepsAt(keyEnv, keySpec, w);
    }
    forall w: World | Unique(w.ledger) ensures KeepsAt(DynamoDBSection(tableEnv), w) {
      DynamoDBKeepsAt(tableEnv, w);
    }
    forall w: World | Unique(w.ledger) ensures KeepsAt(RDSSection(instanceEnv), w) {
      RDSKeepsAt(instanceEnv, w);
    }
  }

  ghost predicate KeysLast(sections: seq<Section>) {
    forall i, j :: 0 <= i < j < |sections| && sections[i].name.KMSReady? ==> sections[j].name.KMSReady?
  }

  ghost predicate AllDrained(sections: seq<Section>, k: nat, w: World)
    requires k <= |sections|
  {
    forall i :: 0 <= i < k ==> Drained(sections[i].name, w)
  }

  lemma {:induction false} DoneMeansDrained(sections: seq<Section>, k: nat, w: World)
    requires k <= |sections| && Unique(w.ledger) && KeysLast(sections)
    requires forall s :: s in sections ==> Keeps(s)
    ensures var o := FinalizeUpto(sections, k, w);
      Unique(o.world.ledger) && (o.done ==> !o.failed && AllDrained(sections, k, o.world))
  {
    if k > 0 {
      DoneMeansDrained(sections, k - 1, w);
      var o := FinalizeUpto(sections, k - 1, w);
      assert sections[k - 1] in sections;
      assert KeepsAt(sections[k - 1], o.world);
      if FinalizeUpto(sections, k, w).done {
        OneMoreDrained(sections, k, o.world);
      }
    }
  }

  lemma OneMoreDrained(sections: seq<Section>, k: nat, w: World)
    requires 0 < k <= |sections| && KeysLast(sections) && AllDrained(sections, k - 1, w)
    requires KeepsAt(sections[k - 1], w) && sections[k - 1].finalize(w).done
    ensures AllDrained(sections, k, sections[k - 1].finalize(w).world)
  {
    var s := sections[k - 1];
    var w' := s.finalize(w).world;
    forall i | 0 <= i < k ensures Drained(sections[i].name, w') {
      if sections[i].name != s.name {
        assert Drained(sections[i].name, w);
        StillDrained(sections[i].name, s.name, w, w');
      }
    }
  }

  lemma StillDrained(name: SectionName, later: SectionName, w: World, w': World)
    requires name != later && !name.KMSReady? && Drained(name, w) && Leaves(w, w', Owns(later))
    ensures Drained(name, w')
  {
    if name.DynamoDBReady? {
      assert forall n :: Find(w'.ledger, DynamoDB, n) == Find(w.ledger, DynamoDB, n);
    } else if name.RDSReady? {
      assert forall n :: Find(w'.ledger, RDS, n) == Find(w.ledger, RDS, n);
      assert forall n :: Find(w'.ledger, SecurityGroup, n) == Find(w.ledger, SecurityGroup, n);
    }
  }

  lemma OrderPutsKeysLast(sections: seq<Section>)
    ensures KeysLast(NotKeys(sections) + Keys(sections))
    ensures forall s :: s in NotKeys(sections) + Keys(sections) <==> s in sections
  {
    OrderKeepsSections(sections);
    var ordered := NotKeys(sections) + Keys(sections);
    forall s ensures s in ordered <==> s in sections {
      assert s in multiset(ordered) <==> s in multiset(sections);
    }
    assert forall i :: 0 <= i < |NotKeys(sections)| ==> ordered[i] in NotKeys(sections);
    assert forall j :: |NotKeys(sections)| <= j < |ordered| ==> ordered[j] in Keys(sections);
  }

  lemma DrainedAtTheEnd(sections: seq<Section>, s: Section, w: World, o: Outcome)
    requires Unique(w.ledger) && (forall s :: s in sections ==> Keeps(s)) && s in sections
    requires o == Finalized(sections, w) && o.done
    ensures !o.failed && Unique(o.world.ledger) && Drained(s.name, o.world)
  {
    var ordered := NotKeys(sections) + Keys(sections);
    OrderPutsKeysLast(sections);
    DoneMeansDrained(ordered, |ordered|, w);
    var i :| 0 <= i < |ordered| && ordered[i] == s;
    assert Drained(ordered[i].name, o.world);
  }

  // The entry of a resource that may outlast the CR.
  ghost predicate Settled(w: World, e: Entry) {
    match e.rtype
    case KMS => e.state.Relinquished? || KeyFinalize.Dying(w.keys, e.arn)
    case SecurityGroup => GroupKept(w.ledger, e.name)
    case _ => e.state.Relinquished?
  }

  // The sections of keys, tables and instances are among them, and whatever
  // else is, is a section that leaves their entries alone.
  ghost predicate Complete(sections: seq<Section>, kms: Section, tables: Section, instances: Section) {
    && kms in sections && tables in sections && instances in sections
    && forall s :: s in sections ==> s in {kms, tables, instances} || (Owns(s.name) == {} && Keeps(s))
  }

  // The law of finalizing. Whatever the sections of the other packages do to
  // their own entries, when finalizing reports done, every table, instance and
  // key left in the ledger has been let go, or is a key AWS is already deleting;
  // the pods' security group is gone, and an instance's is left only with its
  // instance: removing the finalizer abandons none that is draining.
  lemma NothingAbandoned(
    keyEnv: KeyCleanup.Env, keySpec: KeySection.Spec, tableEnv: TableCleanup.Env, instanceEnv: InstanceCleanup.Env,
    sections: seq<Section>, w: World, e: Entry)
    requires Complete(sections, KMSSection(keyEnv, keySpec), DynamoDBSection(tableEnv), RDSSection(instanceEnv))
    requires Unique(w.ledger) && e.rtype in {KMS, DynamoDB, RDS, SecurityGroup}
    ensures var o := Finalized(sections, w);
      o.done && e in o.world.ledger ==> !o.failed && Settled(o.world, e)
  {
    SectionsKeep(keyEnv, keySpec, tableEnv, instanceEnv);
    NoneAbandoned(sections, KMSSection(keyEnv, keySpec), DynamoDBSection(tableEnv), RDSSection(instanceEnv), w, e);
  }

  // The same for any three sections that keep their promise.
  lemma NoneAbandoned(sections: seq<Section>, kms: Section, tables: Section, instances: Section, w: World, e: Entry)
    requires Complete(sections, kms, tables, instances) && Keeps(kms) && Keeps(tables) && Keeps(instances)
    requires kms.name.KMSReady? && tables.name.DynamoDBReady? && instances.name.RDSReady?
    requires Unique(w.ledger) && e.rtype in {KMS, DynamoDB, RDS, SecurityGroup}
    ensures var o := Finalized(sections, w);
      o.done && e in o.world.ledger ==> !o.failed && Settled(o.world, e)
  {
    var o := Finalized(sections, w);
    if o.done && e in o.world.ledger {
      var s := if e.rtype == KMS then kms else if e.rtype == DynamoDB then tables else instances;
      DrainedAtTheEnd(sections, s, w, o);
      FindMember(o.world.ledger, e);
    }
  }
}
