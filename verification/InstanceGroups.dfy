/**
 The security group of an instance that is gone: found again through its ledger
 entry, and deleted once the instance is neither declared nor tracked.
 */
module InstanceGroups {
  import opened Ledger
  import opened Sweep
  import opened Ownership
  import opened GroupCloud
  import opened Ingress

  const SUFFIX := "#securitygroup"

  datatype Env = Env(cr: CR, declared: set<string>, ledger: seq<Entry>)

  // Nothing is reported but failures.
  datatype Nothing = Nothing

  type GroupPass = Pass<Cloud, Nothing>

  function GroupEntryName(instance: string): string {
    instance + SUFFIX
  }

  // The instance a group entry belongs to: strings.CutSuffix.
  function InstanceOf(name: string): Option<string> {
    if |name| >= |SUFFIX| && name[|name| - |SUFFIX|..] == SUFFIX then Some(name[..|name| - |SUFFIX|]) else None
  }

  lemma InstanceOfGroupEntry(instance: string)
    ensures InstanceOf(GroupEntryName(instance)) == Some(instance)
  {
    var name := GroupEntryName(instance);
    assert name[|name| - |SUFFIX|..] == SUFFIX;
    assert name[..|name| - |SUFFIX|] == instance;
  }

  // The group of an instance that is neither declared nor, as far as the ledger
  // the pass began with knows, still in AWS.
  predicate Orphaned(env: Env, e: Entry) {
    && e.rtype == SecurityGroup && InstanceOf(e.name).Some?
    && InstanceOf(e.name).value !in env.declared && !Has(env.ledger, RDS, InstanceOf(e.name).value)
  }

  function AfterEntry(env: Env, p: GroupPass, e: Entry): (q: GroupPass)
    ensures EditOf(p.ledger, q.ledger, e)
    ensures !Orphaned(env, e) ==> q == p
    ensures q.ledger == p.ledger || q.ledger == Remove(p.ledger, SecurityGroup, e.name)
    ensures var id := IDFromARN(e.arn);
      q.ledger != p.ledger ==> id !in q.world.groups || (id in p.world.groups && !IsOwnedBy(p.world.groups[id].tags, env.cr))
    ensures var id := IDFromARN(e.arn);
      || q.world.groups == p.world.groups
      || (q.world.groups == p.world.groups - {id} && Orphaned(env, e) && !Named(p.world, id)
          && id in p.world.groups && IsOwnedBy(p.world.groups[id].tags, env.cr))
  {
    if !Orphaned(env, e) then p
    else
      var id := IDFromARN(e.arn);
      var (w1, group) := Describe(p.world, id);
      if group.Failed? then p.(world := w1, failed := true)
      else if group.Answer? && IsOwnedBy(group.value.tags, env.cr) then
        var (w2, deleted) := DeleteGroup(w1, id);
        if deleted then p.(world := w2, ledger := Remove(p.ledger, SecurityGroup, e.name)) else p.(world := w2, failed := true)
      else p.(world := w1, ledger := Remove(p.ledger, SecurityGroup, e.name))
  }

  function Step(env: Env): Stepper<Cloud, Nothing> {
    (p, e) => AfterEntry(env, p, e)
  }

  function AfterCleanup(env: Env, w: Cloud): GroupPass {
    Upto(Step(env), env.ledger, |env.ledger|, Pass(w, env.ledger, [], false))
  }

  method CleanupInstanceSecurityGroups(cr: CR, spec: seq<string>, ledger: seq<Entry>, deleting: bool, w: Cloud) returns (p: GroupPass)
    ensures p == AfterCleanup(Env(cr, if deleting then {} else (set n | n in spec), ledger), w)
  {
    var declared: set<string> := {};
    if !deleting {
      for i := 0 to |spec|
        invariant declared == set n | n in spec[..i]
      {
        declared := declared + {spec[i]};
      }
      assert spec[..|spec|] == spec;
    }
    ghost var env := Env(cr, declared, ledger);
    p := Pass(w, ledger, [], false);
    ghost var start := p;
    for i := 0 to |ledger|
      invariant p == Upto(Step(env), ledger, i, start)
    {
      var e := ledger[i];
      var instance := InstanceOf(e.name);
      if e.rtype != SecurityGroup || instance.None? {
        assert !Orphaned(env, e);
        continue;
      }
      if instance.value in declared || Has(ledger, RDS, instance.value) {
        assert !Orphaned(env, e);
        continue;
      }
      var id := IDFromARN(e.arn);
      var (w1, group) := Describe(p.world, id);
      if group.Failed? {
        p := p.(world := w1, failed := true);
        continue;
      }
      p := p.(world := w1);
      if group.Answer? && IsOwnedBy(group.value.tags, cr) {
        var (w2, deleted) := DeleteGroup(w1, id);
        p := p.(world := w2);
        if !deleted {
          p := p.(failed := true);
          continue;
        }
      }
      p := p.(ledger := Remove(p.ledger, SecurityGroup, e.name));
    }
  }

  lemma StepIsLocal(env: Env)
    ensures Local(Step(env), SecurityGroup, {SecurityGroup})
  {
    forall p: GroupPass, e: Entry, t: ResourceType, n: string | t !in {SecurityGroup} || n != e.name
      ensures Find(AfterEntry(env, p, e).ledger, t, n) == Find(p.ledger, t, n)
    {
      if Orphaned(env, e) {
        FindRemove(p.ledger, SecurityGroup, e.name, t, n);
      }
    }
    forall p: GroupPass, e: Entry | Unique(p.ledger) ensures Unique(AfterEntry(env, p, e).ledger) {
      UniqueRemove(p.ledger, SecurityGroup, e.name);
    }
  }

  // A group the pass deleted belonged to an entry of an instance neither
  // declared nor tracked, carried this CR's tags, and was named by no rule.
  ghost predicate Deletable(env: Env, g: string, w: Cloud) {
    && (exists e :: e in env.ledger && Orphaned(env, e) && IDFromARN(e.arn) == g)
    && g in w.groups && IsOwnedBy(w.groups[g].tags, env.cr)
  }

  lemma {:induction false} DeletesOnlyOrphans(env: Env, w: Cloud, k: nat)
    requires k <= |env.ledger|
    ensures var p := Upto(Step(env), env.ledger, k, Pass(w, env.ledger, [], false));
      && (forall g :: g in p.world.groups ==> g in w.groups && p.world.groups[g] == w.groups[g])
      && (forall g :: g in w.groups && g !in p.world.groups ==> Deletable(env, g, w))
  {
    if k > 0 {
      DeletesOnlyOrphans(env, w, k - 1);
      var q := Upto(Step(env), env.ledger, k - 1, Pass(w, env.ledger, [], false));
      var e := env.ledger[k - 1];
      var q' := AfterEntry(env, q, e);
      forall g | g in w.groups && g !in q'.world.groups ensures Deletable(env, g, w) {
        if g in q.world.groups {
          assert e in env.ledger && Orphaned(env, e) && IDFromARN(e.arn) == g;
        }
      }
    }
  }

  lemma {:induction false} GroupsOnlyGo(env: Env, w: Cloud, a: nat, b: nat, g: string)
    requires a <= b <= |env.ledger|
    ensures var p, q := Upto(Step(env), env.ledger, a, Pass(w, env.ledger, [], false)), Upto(Step(env), env.ledger, b, Pass(w, env.ledger, [], false));
      g !in p.world.groups ==> g !in q.world.groups
    decreases b - a
  {
    if a < b {
      GroupsOnlyGo(env, w, a, b - 1, g);
    }
  }

  // The entry of a group stays while its instance is declared or tracked, and
  // through every failure; it leaves only with its group gone or not the CR's.
  lemma EntryLeavesWithItsGroup(env: Env, w: Cloud, e: Entry)
    requires Unique(env.ledger) && e in env.ledger && e.rtype == SecurityGroup
    ensures var p, id := AfterCleanup(env, w), IDFromARN(e.arn);
      || Find(p.ledger, SecurityGroup, e.name) == Some(e)
      || (Orphaned(env, e) && (id !in p.world.groups || (id in w.groups && !IsOwnedBy(w.groups[id].tags, env.cr))))
  {
    var l, step, start := env.ledger, Step(env), Pass(w, env.ledger, [], false);
    var k :| 0 <= k < |l| && l[k] == e;
    FindMember(l, e);
    StepIsLocal(env);
    AtEntry(step, SecurityGroup, {SecurityGroup}, l, k, start, SecurityGroup);
    DeletesOnlyOrphans(env, w, k);
    GroupsOnlyGo(env, w, k + 1, |l|, IDFromARN(e.arn));
    FindRemove(Upto(step, l, k, start).ledger, SecurityGroup, e.name, SecurityGroup, e.name);
  }

  // A name is a group entry's exactly if an instance's name is in it.
  lemma InstanceOfIs(name: string, instance: string)
    ensures InstanceOf(name) == Some(instance) <==> name == GroupEntryName(instance)
  {
    InstanceOfGroupEntry(instance);
    if InstanceOf(name) == Some(instance) {
      assert name == name[..|name| - |SUFFIX|] + name[|name| - |SUFFIX|..];
    }
  }

  // An orphaned group is that of an instance neither declared nor tracked.
  lemma OrphanedMeans(env: Env, e: Entry)
    ensures Orphaned(env, e) <==>
      && e.rtype == SecurityGroup
      && exists x :: e.name == x + "#securitygroup" && x !in env.declared && Find(env.ledger, RDS, x).None?
  {
    if InstanceOf(e.name).Some? {
      InstanceOfIs(e.name, InstanceOf(e.name).value);
    }
    if x :| e.name == x + "#securitygroup" && x !in env.declared && Find(env.ledger, RDS, x).None? {
      InstanceOfIs(e.name, x);
    }
  }

  lemma StepIsSteady(env: Env)
    ensures Steady(Step(env))
  {
  }

  lemma StepDeletes(env: Env, p: GroupPass, e: Entry)
    requires Orphaned(env, e) && !AfterEntry(env, p, e).failed
    requires var id := IDFromARN(e.arn); id in p.world.groups ==> IsOwnedBy(p.world.groups[id].tags, env.cr)
    ensures IDFromARN(e.arn) !in AfterEntry(env, p, e).world.groups
  {
  }

  // A pass without an error deletes every own group of an orphaned entry.
  lemma OrphansGo(env: Env, w: Cloud, e: Entry)
    requires e in env.ledger && Orphaned(env, e) && !AfterCleanup(env, w).failed
    requires var id := IDFromARN(e.arn); id in w.groups && IsOwnedBy(w.groups[id].tags, env.cr)
    ensures IDFromARN(e.arn) !in AfterCleanup(env, w).world.groups
  {
    var l := env.ledger;
    var k :| 0 <= k < |l| && l[k] == e;
    OrphanGoesAt(env, w, k);
    GroupsOnlyGo(env, w, k + 1, |l|, IDFromARN(e.arn));
  }

  // And it forgets the entry of every orphaned group.
  lemma OrphanIsForgotten(env: Env, w: Cloud, e: Entry)
    requires Unique(env.ledger) && e in env.ledger && Orphaned(env, e) && !AfterCleanup(env, w).failed
    ensures Find(AfterCleanup(env, w).ledger, SecurityGroup, e.name).None?
  {
    var l, step, start := env.ledger, Step(env), Pass(w, env.ledger, [], false);
    var k :| 0 <= k < |l| && l[k] == e;
    StepIsLocal(env);
    AtEntry(step, SecurityGroup, {SecurityGroup}, l, k, start, SecurityGroup);
    StepIsSteady(env);
    NotFailedAt(step, l, k, start);
    FindRemove(Upto(step, l, k, start).ledger, SecurityGroup, e.name, SecurityGroup, e.name);
  }

  lemma OrphanGoesAt(env: Env, w: Cloud, k: nat)
    requires k < |env.ledger| && Orphaned(env, env.ledger[k]) && !AfterCleanup(env, w).failed
    requires var id := IDFromARN(env.ledger[k].arn); id in w.groups && IsOwnedBy(w.groups[id].tags, env.cr)
    ensures IDFromARN(env.ledger[k].arn) !in Upto(Step(env), env.ledger, k + 1, Pass(w, env.ledger, [], false)).world.groups
  {
    DeletesOnlyOrphans(env, w, k);
    StepIsSteady(env);
    NotFailedAt(Step(env), env.ledger, k, Pass(w, env.ledger, [], false));
    StepDeletes(env, Upto(Step(env), env.ledger, k, Pass(w, env.ledger, [], false)), env.ledger[k]);
  }

  // With every call answered, a pass over orphaned groups that no rule names
  // succeeds, and so deletes them.
  lemma {:induction false} UnnamedSucceeds(env: Env, w: Cloud, k: nat)
    requires k <= |env.ledger| && w.faults == []
    requires forall e :: e in env.ledger && Orphaned(env, e) ==> !Named(w, IDFromARN(e.arn))
    ensures var p := Upto(Step(env), env.ledger, k, Pass(w, env.ledger, [], false)); !p.failed && p.world.faults == []
  {
    if k > 0 {
      UnnamedSucceeds(env, w, k - 1);
      DeletesOnlyOrphans(env, w, k - 1);
      var p, e := Upto(Step(env), env.ledger, k - 1, Pass(w, env.ledger, [], false)), env.ledger[k - 1];
      if Orphaned(env, e) {
        StillUnnamed(w, p.world, IDFromARN(e.arn));
      }
      StepWorks(env, p, e);
    }
  }

  lemma StillUnnamed(w: Cloud, w': Cloud, id: string)
    requires !Named(w, id) && forall g :: g in w'.groups ==> g in w.groups && w'.groups[g] == w.groups[g]
    ensures !Named(w', id)
  {
  }

  lemma StepWorks(env: Env, p: GroupPass, e: Entry)
    requires p.world.faults == [] && (Orphaned(env, e) ==> !Named(p.world, IDFromARN(e.arn)))
    ensures AfterEntry(env, p, e).failed == p.failed && AfterEntry(env, p, e).world.faults == []
  {
  }

  // The entries of other types, and of groups that are not orphaned, stay.
  lemma OthersStay(env: Env, w: Cloud, t: ResourceType, n: string)
    requires Unique(env.ledger)
    ensures var f, f' := Find(env.ledger, t, n), Find(AfterCleanup(env, w).ledger, t, n);
      && (t != SecurityGroup ==> f' == f)
      && (f.Some? && !Orphaned(env, f.value) ==> f' == f)
      && (f.None? ==> f' == f)
    ensures Unique(AfterCleanup(env, w).ledger)
  {
    var l, step, start := env.ledger, Step(env), Pass(w, env.ledger, [], false);
    StepIsLocal(env);
    StaysUnique(step, SecurityGroup, {SecurityGroup}, l, |l|, start);
    if t != SecurityGroup || Find(l, t, n).None? {
      Outside(step, SecurityGroup, {SecurityGroup}, l, start, t, n);
    } else {
      FindSound(l, t, n);
      EntryLeavesWithItsGroup(env, w, Find(l, t, n).value);
    }
  }
}
