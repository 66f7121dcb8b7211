/**
 Giving a pod security group back. A consumer that stops asking cannot delete
 its group while producers' rules name it; producers revoke those rules in their
 own passes, and the consumer retries. The rules left are the progress measure.
 */
module NetworkRelease {
  import opened Ledger
  import opened Ownership
  import opened GroupCloud
  import opened Ingress
  import InstanceCloud
  import InstanceCleanup
  import InstanceGroups

  // A declared instance of some producer, with the group dedicated to it.
  datatype Declared = Declared(owner: CRName, name: string, port: int, shared: seq<CRName>, group: string)

  // A CR that owns instances, with its ledger.
  datatype Producer = Producer(cr: CR, ledger: seq<Entry>)

  datatype Net = Net(cloud: Cloud, registry: Registry, declared: seq<Declared>, producers: map<CRName, Producer>)

  function DeclaredBy(s: Net, owner: CRName): set<string> {
    set d | d in s.declared && d.owner == owner :: d.name
  }

  function RefOf(d: Declared): ConsumeRef {
    ConsumeRef(d.owner.namespace, d.owner.name, d.name)
  }

  // --------------------------------------------------- one instance of a pass

  // Stopped before its group was reached; not authorized, so only narrowed; or
  // reconciled in full, with the rules the lookup showed.
  datatype Handling = Stopped | Narrowed(current: seq<Permission>) | Full(found: Cloud, current: seq<Permission>)

  // The cloud once the instance's group is there: one that was not found has
  // been created without rules, and one that was may have been tagged.
  ghost predicate Found(w: Cloud, id: string, w1: Cloud) {
    && w1.groups.Keys == w.groups.Keys + {id}
    && (forall g :: g in w.groups && g != id ==> w1.groups[g] == w.groups[g])
    && w1.groups[id].rules == if id in w.groups then w.groups[id].rules else {}
  }

  ghost predicate Handled(reg: Registry, d: Declared, how: Handling, w: Cloud, w': Cloud, ok: bool) {
    match how
    case Stopped => w'.groups == w.groups && !ok
    case Narrowed(current) =>
      !ok &&
      (|| w'.groups == w.groups
       || (&& d.group in w.groups && Accurate(current, w.groups[d.group].rules)
           && w' == Reconciled(w, reg, d.group, current, d.port, RefOf(d), d.shared, true).0))
    case Full(found, current) =>
      && Found(w, d.group, found) && Accurate(current, found.groups[d.group].rules)
      && var r := Reconciled(found, reg, d.group, current, d.port, RefOf(d), d.shared, false);
      && w'.groups == r.0.groups && (ok ==> r.1)
  }

  // The instance's group lets the group g in.
  ghost predicate Holds(w: Cloud, d: Declared, g: string) {
    d.group in w.groups && Grant(d.port, g) in w.groups[d.group].rules
  }

  // Nobody asks to be let in with g.
  ghost predicate Silent(reg: Registry, g: string) {
    forall consumer, ref :: Offer(reg, consumer, ref) != Some(g)
  }

  lemma {:induction false} ReadsAreOffers(w: Cloud, reg: Registry, ref: ConsumeRef, shared: seq<CRName>, k: nat, g: string)
    requires k <= |shared| && Silent(reg, g)
    ensures var read := ReadUpto(w, reg, ref, shared, k).1; read.Some? ==> g !in read.value
  {
    if k > 0 {
      ReadsAreOffers(w, reg, ref, shared, k - 1, g);
      assert Offer(reg, shared[k - 1], ref) != Some(g);
    }
  }

  lemma GrantedIff(rules: set<Rule>, port: int, g: string)
    ensures g in Granted(rules, port) <==> Grant(port, g) in rules
  {
  }

  ghost predicate Present(w: Cloud, id: string, r: Rule) {
    id in w.groups && r in w.groups[id].rules
  }

  // The rule that lets g in on the instance's port of the instance's group.
  ghost predicate IsGrantOf(d: Declared, id: string, r: Rule) {
    d.group == id && r == Grant(d.port, r.group)
  }

  // What a step may do to the rules that let g in, and to groups: it adds no
  // such rule, takes away at most the one on its own group and port, surely so
  // without an error, and leaves every other group as it is.
  ghost predicate StepRules(d: Declared, w: Cloud, w': Cloud, ok: bool, g: string) {
    && (forall id, r: Rule :: r.group == g && Present(w', id, r) ==> Present(w, id, r))
    && (forall id, r: Rule :: r.group == g && Present(w, id, r) && !IsGrantOf(d, id, r) ==> Present(w', id, r))
    && (ok ==> !Holds(w', d, g))
    && (forall id :: id != d.group ==> SameGroup(w, w', id))
  }

  ghost predicate SameGroup(w: Cloud, w': Cloud, id: string) {
    (id in w'.groups <==> id in w.groups) && (id in w.groups ==> w'.groups[id] == w.groups[id])
  }

  lemma ReconcileRules(w: Cloud, reg: Registry, d: Declared, current: seq<Permission>, revokeOnly: bool, g: string)
    requires Silent(reg, g) && d.group in w.groups && Accurate(current, w.groups[d.group].rules)
    ensures var r := Reconciled(w, reg, d.group, current, d.port, RefOf(d), d.shared, revokeOnly); StepRules(d, w, r.0, r.1, g)
  {
    var res := Reconciled(w, reg, d.group, current, d.port, RefOf(d), d.shared, revokeOnly);
    ReadsAreOffers(w, reg, RefOf(d), d.shared, |d.shared|, g);
    TouchesOnlyGrants(w, reg, d.group, current, d.port, RefOf(d), d.shared, revokeOnly);
    if ReadUpto(w, reg, RefOf(d), d.shared, |d.shared|).1.None? {
      FailedReadWritesNothing(w, reg, d.group, current, d.port, RefOf(d), d.shared, revokeOnly);
    } else {
      ReconciledGrants(w, reg, d.group, current, d.port, RefOf(d), d.shared, revokeOnly);
      GrantRules(w, res.0, d, res.1, g);
    }
  }

  lemma GrantRules(w: Cloud, w': Cloud, d: Declared, ok: bool, g: string)
    requires OnlyGrants(w, w', d.group, d.port) && d.group in w.groups
    requires g in Granted(w'.groups[d.group].rules, d.port) ==> g in Granted(w.groups[d.group].rules, d.port) && !ok
    ensures StepRules(d, w, w', ok, g)
  {
    var rules, rules' := w.groups[d.group].rules, w'.groups[d.group].rules;
    GrantedIff(rules, d.port, g);
    GrantedIff(rules', d.port, g);
    forall r: Rule | r.group == g && r != Grant(d.port, g) ensures r in rules <==> r in rules' {
      assert r in rules <==> r in NotGrants(rules, d.port);
      assert r in rules' <==> r in NotGrants(rules', d.port);
    }
  }

  lemma HandledRules(reg: Registry, d: Declared, how: Handling, w: Cloud, w': Cloud, ok: bool, g: string)
    requires Silent(reg, g) && Handled(reg, d, how, w, w', ok)
    ensures StepRules(d, w, w', ok, g)
  {
    match how
    case Stopped =>
    case Narrowed(current) =>
      if w'.groups != w.groups {
        ReconcileRules(w, reg, d, current, true, g);
      }
    case Full(found, current) =>
      ReconcileRules(found, reg, d, current, false, g);
      AfterFound(w, d, found, Reconciled(found, reg, d.group, current, d.port, RefOf(d), d.shared, false).0, w',
                 Reconciled(found, reg, d.group, current, d.port, RefOf(d), d.shared, false).1, ok, g);
  }

  lemma AfterFound(w: Cloud, d: Declared, found: Cloud, r: Cloud, w': Cloud, done: bool, ok: bool, g: string)
    requires Found(w, d.group, found) && StepRules(d, found, r, done, g) && w'.groups == r.groups && (ok ==> done)
    ensures StepRules(d, w, w', ok, g)
  {
    forall id, x: Rule ensures Present(found, id, x) <==> Present(w, id, x) {
    }
    forall id, x: Rule ensures Present(w', id, x) <==> Present(r, id, x) {
    }
    forall id | id != d.group ensures SameGroup(w, w', id) {
      assert SameGroup(found, r, id);
    }
  }

  // ------------------------------------------------------------ a whole pass

  // The pass of one producer: how each declared instance was handled, in order,
  // the cloud between them, and whether each went without an error; the ledger
  // Ensure leaves; and what the instances' Cleanup met.
  datatype ProducerPass = ProducerPass(
    owner: CRName, how: seq<Handling>, clouds: seq<Cloud>, ok: seq<bool>, ensured: seq<Entry>,
    instances: InstanceCloud.Cloud, env: InstanceCleanup.Env)

  // The ledger as CleanupInstanceSecurityGroups gets it: the instances' own
  // Cleanup has come by.
  function SweptBy(s: Net, p: ProducerPass): InstanceCleanup.InstancePass {
    InstanceCleanup.AfterCleanup(p.env, DeclaredBy(s, p.owner), p.instances, p.ensured)
  }

  function BooksOf(s: Net, p: ProducerPass): seq<Entry> {
    SweptBy(s, p).ledger
  }

  function GroupEnv(s: Net, p: ProducerPass): InstanceGroups.Env
    requires p.owner in s.producers
  {
    InstanceGroups.Env(s.producers[p.owner].cr, DeclaredBy(s, p.owner), BooksOf(s, p))
  }

  function Ensured(p: ProducerPass): Cloud
    requires p.clouds != []
  {
    p.clouds[|p.clouds| - 1]
  }

  function GroupsOf(s: Net, p: ProducerPass): InstanceGroups.GroupPass
    requires p.owner in s.producers && p.clouds != []
  {
    InstanceGroups.AfterCleanup(GroupEnv(s, p), Ensured(p))
  }

  function AfterPass(s: Net, p: ProducerPass): Net
    requires p.owner in s.producers && p.clouds != []
  {
    s.(cloud := GroupsOf(s, p).world,
       producers := s.producers[p.owner := s.producers[p.owner].(ledger := GroupsOf(s, p).ledger)])
  }

  // Ensure leaves the entries of undeclared instances and of their groups alone.
  ghost predicate EnsuredFrom(l: seq<Entry>, l': seq<Entry>, declared: set<string>) {
    && Unique(l')
    && forall x :: x !in declared ==>
         && Find(l', RDS, x) == Find(l, RDS, x)
         && Find(l', SecurityGroup, InstanceGroups.GroupEntryName(x)) == Find(l, SecurityGroup, InstanceGroups.GroupEntryName(x))
  }

  ghost predicate IsPass(s: Net, p: ProducerPass) {
    var n := |s.declared|;
    && p.owner in s.producers && p.env.cr == s.producers[p.owner].cr
    && EnsuredFrom(s.producers[p.owner].ledger, p.ensured, DeclaredBy(s, p.owner))
    && |p.how| == n && |p.ok| == n && |p.clouds| == n + 1 && p.clouds[0] == s.cloud
    && forall i :: 0 <= i < n ==> HandledAt(s, p, i)
  }

  ghost predicate HandledAt(s: Net, p: ProducerPass, i: nat)
    requires i < |s.declared| && |p.how| == |p.ok| == |s.declared| && |p.clouds| == |s.declared| + 1
  {
    if s.declared[i].owner == p.owner then Handled(s.registry, s.declared[i], p.how[i], p.clouds[i], p.clouds[i + 1], p.ok[i])
    else p.clouds[i + 1] == p.clouds[i]
  }

  // Nothing in the pass was an error: no declared instance, neither Cleanup.
  ghost predicate ErrorFree(s: Net, p: ProducerPass)
    requires IsPass(s, p)
  {
    && (forall i :: 0 <= i < |s.declared| && s.declared[i].owner == p.owner ==> p.ok[i])
    && !SweptBy(s, p).failed && !GroupsOf(s, p).failed
  }

  // The rule is on a group and port the first k declared instances have, among the pass's own.
  ghost predicate GrantedAmong(s: Net, p: ProducerPass, k: nat, id: string, r: Rule)
    requires k <= |s.declared|
  {
    exists i :: 0 <= i < k && s.declared[i].owner == p.owner && IsGrantOf(s.declared[i], id, r)
  }

  ghost predicate EnsureRules(s: Net, p: ProducerPass, k: nat, g: string, id: string, r: Rule)
    requires IsPass(s, p) && k <= |s.declared|
  {
    && (Present(p.clouds[k], id, r) ==> Present(s.cloud, id, r))
    && (Present(s.cloud, id, r) && !GrantedAmong(s, p, k, id, r) ==> Present(p.clouds[k], id, r))
    && (GrantedAmong(s, p, k, id, r) && (forall i :: 0 <= i < k && s.declared[i].owner == p.owner ==> p.ok[i]) ==> !Present(p.clouds[k], id, r))
  }

  lemma {:induction false} EnsureSteps(s: Net, p: ProducerPass, k: nat, g: string, id: string, r: Rule)
    requires IsPass(s, p) && Silent(s.registry, g) && k <= |s.declared| && r.group == g
    ensures EnsureRules(s, p, k, g, id, r)
  {
    if k > 0 {
      EnsureSteps(s, p, k - 1, g, id, r);
      OneStep(s, p, k, g);
      if s.declared[k - 1].owner == p.owner {
        LastStep(s, p, k, g, id, r);
      } else {
        SkippedStep(s, p, k, g, id, r);
      }
    }
  }

  lemma OneStep(s: Net, p: ProducerPass, k: nat, g: string)
    requires IsPass(s, p) && Silent(s.registry, g) && 0 < k <= |s.declared|
    ensures var d := s.declared[k - 1];
      if d.owner == p.owner then StepRules(d, p.clouds[k - 1], p.clouds[k], p.ok[k - 1], g) else p.clouds[k] == p.clouds[k - 1]
  {
    assert HandledAt(s, p, k - 1);
    if s.declared[k - 1].owner == p.owner {
      HandledRules(s.registry, s.declared[k - 1], p.how[k - 1], p.clouds[k - 1], p.clouds[k], p.ok[k - 1], g);
    }
  }

  lemma SkippedStep(s: Net, p: ProducerPass, k: nat, g: string, id: string, r: Rule)
    requires IsPass(s, p) && 0 < k <= |s.declared| && s.declared[k - 1].owner != p.owner
    requires EnsureRules(s, p, k - 1, g, id, r) && p.clouds[k] == p.clouds[k - 1]
    ensures EnsureRules(s, p, k, g, id, r)
  {
    assert GrantedAmong(s, p, k, id, r) <==> GrantedAmong(s, p, k - 1, id, r);
  }

  lemma {:induction false} GroupsKept(s: Net, p: ProducerPass, k: nat, g: string, id: string)
    requires IsPass(s, p) && Silent(s.registry, g) && k <= |s.declared|
    requires forall i :: 0 <= i < |s.declared| ==> s.declared[i].group != id
    ensures SameGroup(s.cloud, p.clouds[k], id)
  {
    if k > 0 {
      GroupsKept(s, p, k - 1, g, id);
      OneStep(s, p, k, g);
      assert s.declared[k - 1].group != id;
      if s.declared[k - 1].owner == p.owner {
        assert SameGroup(p.clouds[k - 1], p.clouds[k], id);
      }
    }
  }

  lemma LastStep(s: Net, p: ProducerPass, k: nat, g: string, id: string, r: Rule)
    requires IsPass(s, p) && 0 < k <= |s.declared| && s.declared[k - 1].owner == p.owner && r.group == g
    requires EnsureRules(s, p, k - 1, g, id, r)
    requires StepRules(s.declared[k - 1], p.clouds[k - 1], p.clouds[k], p.ok[k - 1], g)
    ensures EnsureRules(s, p, k, g, id, r)
  {
    var d := s.declared[k - 1];
    if GrantedAmong(s, p, k - 1, id, r) {
      assert GrantedAmong(s, p, k, id, r);
    }
    if IsGrantOf(d, id, r) {
      assert GrantedAmong(s, p, k, id, r);
      assert Present(p.clouds[k], id, r) <==> Holds(p.clouds[k], d, g);
    }
    if GrantedAmong(s, p, k, id, r) && !IsGrantOf(d, id, r) {
      assert GrantedAmong(s, p, k - 1, id, r);
    }
  }

  // The group of an orphaned entry of the pass's own, with the CR's tags on it.
  ghost predicate OwnOrphan(s: Net, p: ProducerPass, id: string)
    requires p.owner in s.producers
  {
    && id in s.cloud.groups && IsOwnedBy(s.cloud.groups[id].tags, s.producers[p.owner].cr)
    && exists e :: e in BooksOf(s, p) && InstanceGroups.Orphaned(GroupEnv(s, p), e) && IDFromARN(e.arn) == id
  }

  // What the pass is there to take away: its declared instances' grants, and its
  // orphaned groups.
  ghost predicate Revoked(s: Net, p: ProducerPass, id: string, r: Rule)
    requires p.owner in s.producers
  {
    GrantedAmong(s, p, |s.declared|, id, r) || OwnOrphan(s, p, id)
  }

  // No orphaned group serves a declared instance.
  ghost predicate Apart(s: Net, p: ProducerPass)
    requires p.owner in s.producers
  {
    forall e, i :: e in BooksOf(s, p) && InstanceGroups.Orphaned(GroupEnv(s, p), e) && 0 <= i < |s.declared| ==>
      s.declared[i].group != IDFromARN(e.arn)
  }

  // Of a rule that lets g in, while nobody asks for g: no pass makes one, a pass
  // keeps every one it is not there to revoke, and one without an error leaves
  // none of those it is.
  lemma PassRules(s: Net, p: ProducerPass, g: string, id: string, r: Rule)
    requires IsPass(s, p) && Silent(s.registry, g) && Apart(s, p) && r.group == g
    ensures var w, w' := s.cloud, AfterPass(s, p).cloud;
      && (Present(w', id, r) ==> Present(w, id, r))
      && (Present(w, id, r) && !Revoked(s, p, id, r) ==> Present(w', id, r))
      && (ErrorFree(s, p) && Revoked(s, p, id, r) ==> !Present(w', id, r))
  {
    var env, w1, w' := GroupEnv(s, p), Ensured(p), AfterPass(s, p).cloud;
    EnsureSteps(s, p, |s.declared|, g, id, r);
    InstanceGroups.DeletesOnlyOrphans(env, w1, |env.ledger|);
    if id in w1.groups && id !in w'.groups {
      assert InstanceGroups.Deletable(env, id, w1);
      DeletedIsOrphan(s, p, g, id);
    }
    if ErrorFree(s, p) && OwnOrphan(s, p, id) {
      OrphanIsDeleted(s, p, g, id);
    }
  }

  lemma DeletedIsOrphan(s: Net, p: ProducerPass, g: string, id: string)
    requires IsPass(s, p) && Silent(s.registry, g) && Apart(s, p) && InstanceGroups.Deletable(GroupEnv(s, p), id, Ensured(p))
    ensures OwnOrphan(s, p, id)
  {
    var e :| e in BooksOf(s, p) && InstanceGroups.Orphaned(GroupEnv(s, p), e) && IDFromARN(e.arn) == id;
    GroupsKept(s, p, |s.declared|, g, id);
  }

  lemma OrphanIsDeleted(s: Net, p: ProducerPass, g: string, id: string)
    requires IsPass(s, p) && Silent(s.registry, g) && Apart(s, p) && ErrorFree(s, p) && OwnOrphan(s, p, id)
    ensures id !in AfterPass(s, p).cloud.groups
  {
    var env := GroupEnv(s, p);
    var e :| e in BooksOf(s, p) && InstanceGroups.Orphaned(env, e) && IDFromARN(e.arn) == id;
    GroupsKept(s, p, |s.declared|, g, id);
    InstanceGroups.OrphansGo(env, Ensured(p), e);
  }

  ghost predicate NoneAdded(w: Cloud, w': Cloud, g: string) {
    forall id, r: Rule :: r.group == g && Present(w', id, r) ==> Present(w, id, r)
  }

  // A pass never adds a rule that lets g in; an error-free pass of a producer
  // leaves none on the groups and ports of its declared instances.
  lemma PassShrinks(s: Net, p: ProducerPass, g: string)
    requires IsPass(s, p) && Silent(s.registry, g)
    ensures NoneAdded(s.cloud, AfterPass(s, p).cloud, g)
    ensures ErrorFree(s, p) ==> forall d :: d in s.declared && d.owner == p.owner ==> !Holds(AfterPass(s, p).cloud, d, g)
  {
    var env, w' := GroupEnv(s, p), AfterPass(s, p).cloud;
    InstanceGroups.DeletesOnlyOrphans(env, Ensured(p), |env.ledger|);
    forall id, r: Rule | r.group == g && Present(w', id, r)
      ensures Present(s.cloud, id, r) && (ErrorFree(s, p) ==> !GrantedAmong(s, p, |s.declared|, id, r))
    {
      EnsureSteps(s, p, |s.declared|, g, id, r);
    }
    forall d | d in s.declared && d.owner == p.owner && ErrorFree(s, p) ensures !Holds(w', d, g) {
      assert IsGrantOf(d, d.group, Grant(d.port, g));
      assert GrantedAmong(s, p, |s.declared|, d.group, Grant(d.port, g));
    }
  }

  // ------------------------------------------------------- the consumer's side

  datatype Env = Env(cr: CR, now: int)

  datatype Releasing = Releasing(cloud: Cloud, ledger: seq<Entry>, ok: bool)

  function PodEntry(l: seq<Entry>): Option<Entry> {
    Find(l, SecurityGroup, POD_IDENTITY)
  }

  // The ledger with the entry marked as releasing.
  function Marked(env: Env, l: seq<Entry>): (r: seq<Entry>)
    requires PodEntry(l).Some?
    ensures PodEntry(r).Some? && PodEntry(r).value.arn == PodEntry(l).value.arn && PodEntry(r).value.pendingSince.Some?
  {
    var e := PodEntry(l).value;
    if e.pendingSince.Some? then l
    else
      FindSound(l, SecurityGroup, POD_IDENTITY);
      FindUpsert(l, e.(pendingSince := Some(env.now)), SecurityGroup, POD_IDENTITY);
      Upsert(l, e.(pendingSince := Some(env.now)))
  }

  function Forgotten(l: seq<Entry>): (r: seq<Entry>)
    ensures PodEntry(r).None?
  {
    FindRemove(l, SecurityGroup, POD_IDENTITY, SecurityGroup, POD_IDENTITY);
    Remove(l, SecurityGroup, POD_IDENTITY)
  }

  // Marked first, so that producers stop reading it as published; deleted last;
  // the entry goes only once the group is gone or not this CR's.
  function AfterRelease(env: Env, w: Cloud, l: seq<Entry>): Releasing {
    if PodEntry(l).None? then Releasing(w, l, true)
    else
      var e := PodEntry(l).value;
      var l1 := Marked(env, l);
      var (w1, policyGone) := Unmodelled(w);
      if !policyGone then Releasing(w1, l1, false)
      else
        var (w2, labelGone) := Unmodelled(w1);
        if !labelGone then Releasing(w2, l1, false)
        else
          var id := IDFromARN(e.arn);
          var (w3, group) := Describe(w2, id);
          if group.Failed? then Releasing(w3, l1, false)
          else if group.Answer? && IsOwnedBy(group.value.tags, env.cr) then
            var (w4, deleted) := DeleteGroup(w3, id);
            if deleted then Releasing(w4, Forgotten(l1), true) else Releasing(w4, l1, false)
          else Releasing(w3, Forgotten(l1), true)
  }

  method CleanupPodNetworkIdentity(env: Env, w: Cloud, l: seq<Entry>) returns (r: Releasing)
    ensures r == AfterRelease(env, w, l)
  {
    var found := PodEntry(l);
    if found.None? {
      return Releasing(w, l, true);
    }
    var e, ledger, cloud := found.value, l, w;
    if e.pendingSince.None? {
      ledger := Upsert(ledger, e.(pendingSince := Some(env.now)));
    }
    var (w1, policyGone) := Unmodelled(cloud);
    cloud := w1;
    if !policyGone {
      return Releasing(cloud, ledger, false);
    }
    var (w2, labelGone) := Unmodelled(cloud);
    cloud := w2;
    if !labelGone {
      return Releasing(cloud, ledger, false);
    }
    var id := IDFromARN(e.arn);
    var (w3, group) := Describe(cloud, id);
    cloud := w3;
    if group.Failed? {
      return Releasing(cloud, ledger, false);
    }
    if group.Answer? && IsOwnedBy(group.value.tags, env.cr) {
      var (w4, deleted) := DeleteGroup(cloud, id);
      cloud := w4;
      if !deleted {
        return Releasing(cloud, ledger, false);
      }
    }
    return Releasing(cloud, Remove(ledger, SecurityGroup, POD_IDENTITY), true);
  }

  // The group is gone, or was not this CR's to delete.
  ghost predicate LetGo(cr: CR, w: Cloud, w': Cloud, id: string) {
    id !in w'.groups || (id in w.groups && !IsOwnedBy(w.groups[id].tags, cr))
  }

  // The entry survives every failure, marked and under the same ARN, and leaves
  // only when the group is deleted, absent or no longer the CR's own. The other
  // groups are left alone, and a group a rule names is not deleted.
  lemma ReleaseKeepsTheEntry(env: Env, w: Cloud, l: seq<Entry>)
    requires PodEntry(l).Some?
    ensures var r, e := AfterRelease(env, w, l), PodEntry(l).value;
      && (r.ok <==> PodEntry(r.ledger).None?)
      && (!r.ok ==> PodEntry(r.ledger).Some? && PodEntry(r.ledger).value.arn == e.arn && PodEntry(r.ledger).value.pendingSince.Some?)
      && (r.ok ==> LetGo(env.cr, w, r.cloud, IDFromARN(e.arn)))
      && (r.cloud.groups == w.groups || (r.cloud.groups == w.groups - {IDFromARN(e.arn)} && !Named(w, IDFromARN(e.arn))))
  {
  }

  lemma ReleaseFrame(env: Env, w: Cloud, l: seq<Entry>, t: ResourceType, n: string)
    requires Unique(l)
    ensures Unique(AfterRelease(env, w, l).ledger)
    ensures t != SecurityGroup ==> Find(AfterRelease(env, w, l).ledger, t, n) == Find(l, t, n)
  {
    if PodEntry(l).Some? {
      var e, l1 := PodEntry(l).value, Marked(env, l);
      FindSound(l, SecurityGroup, POD_IDENTITY);
      var marked := e.(pendingSince := Some(env.now));
      FindUpsert(l, marked, t, n);
      UniqueUpsert(l, marked);
      FindRemove(l1, SecurityGroup, POD_IDENTITY, t, n);
      UniqueRemove(l1, SecurityGroup, POD_IDENTITY);
      assert AfterRelease(env, w, l).ledger in {l1, Forgotten(l1)};
    }
  }

  // With every call answered, the release of an own group completes exactly
  // when no other group's rule names it.
  lemma ReleaseCompletesIff(env: Env, w: Cloud, l: seq<Entry>)
    requires PodEntry(l).Some? && w.faults == []
    requires var id := IDFromARN(PodEntry(l).value.arn); id in w.groups && IsOwnedBy(w.groups[id].tags, env.cr)
    ensures AfterRelease(env, w, l).ok <==> !Named(w, IDFromARN(PodEntry(l).value.arn))
  {
  }

  // A CR whose pod entry is marked, or which is being deleted or consumes
  // nothing, asks for nothing.
  ghost predicate AsksNothing(c: Consumer) {
    c.deleting || c.consumes.None? || c.consumes.value == [] || PodNetworkIdentityARN(c).None?
  }

  lemma ReleasedIsSilent(reg: Registry, consumer: CRName, g: string)
    requires consumer in reg ==> AsksNothing(reg[consumer])
    requires forall other :: other in reg && other != consumer && PodNetworkIdentityARN(reg[other]).Some? ==>
      IDFromARN(PodNetworkIdentityARN(reg[other]).value) != g
    ensures Silent(reg, g)
  {
  }
}
