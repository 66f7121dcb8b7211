/**
 Bringing a live RDS instance to its spec: what the modify request asks for,
 given what is live and what AWS has already accepted.
 */
module ModifyPlanner {
  import opened Ledger

  const DEFAULT_RETENTION: int := 7

  datatype Pending = Pending(
    class_: Option<string>, version: Option<string>, multiAZ: Option<bool>, retention: Option<int>, storage: Option<int>)

  datatype Group = Group(id: string, removing: bool)

  datatype Instance = Instance(
    class_: string, version: string, multiAZ: bool, retention: int, storage: int, pending: Option<Pending>,
    groups: seq<Group>, protected: bool, copiesTags: bool, maxStorage: int, storageType: string, iops: Option<int>)

  datatype Wanted = Wanted(
    class_: string, version: string, multiAZ: bool, backups: bool, storage: int, groupID: string,
    protection: Option<bool>, adopt: bool, maxStorage: Option<int>, applyImmediately: bool, allowMajor: bool)

  datatype Attributes = Attributes(class_: string, version: string, multiAZ: bool, retention: int, storage: int)

  datatype Modify = Modify(
    class_: Option<string>, multiAZ: Option<bool>, retention: Option<int>, storage: Option<int>, iops: Option<int>,
    version: Option<string>, allowMajor: bool, groups: Option<seq<string>>,
    protection: Option<bool>, copyTags: bool, maxStorage: Option<int>, immediate: bool)

  const NOTHING := Modify(None, None, None, None, None, None, false, None, None, false, None, false)

  // What the catalogue of engine versions says about going from the first
  // version to the second.
  datatype Upgrade = NotNeeded | Needed(major: bool) | Unknown

  type Engine = (string, string) -> Upgrade

  function Or<T>(o: Option<T>, otherwise: T): T {
    if o.Some? then o.value else otherwise
  }

  // The attributes once every change AWS has accepted lands.
  function Effective(i: Instance): Attributes {
    match i.pending
    case None => Attributes(i.class_, i.version, i.multiAZ, i.retention, i.storage)
    case Some(p) =>
      Attributes(Or(p.class_, i.class_), Or(p.version, i.version), Or(p.multiAZ, i.multiAZ),
                 Or(p.retention, i.retention), Or(p.storage, i.storage))
  }

  function WantedRetention(o: Wanted): int {
    if o.backups then DEFAULT_RETENTION else 0
  }

  function Attached(groups: seq<Group>): seq<string> {
    if groups == [] then []
    else
      var rest := Attached(groups[..|groups| - 1]);
      if groups[|groups| - 1].removing then rest else rest + [groups[|groups| - 1].id]
  }

  // ------------------------------------------------------------- the helpers

  function Sized(m: Modify, cur: Attributes, o: Wanted): Modify {
    m.(class_ := if cur.class_ != o.class_ then Some(o.class_) else m.class_,
       multiAZ := if cur.multiAZ != o.multiAZ then Some(o.multiAZ) else m.multiAZ)
  }

  function Backed(m: Modify, cur: Attributes, o: Wanted): Modify {
    m.(retention := if cur.retention < WantedRetention(o) then Some(WantedRetention(o)) else m.retention)
  }

  function Grown(m: Modify, i: Instance, cur: Attributes, o: Wanted): Modify {
    if o.storage <= cur.storage then m
    else
      m.(storage := Some(o.storage),
         iops := if i.storageType in {"io1", "io2"} && i.iops.Some? then i.iops else m.iops)
  }

  function Grouped(m: Modify, i: Instance, o: Wanted): Modify {
    var groups := Attached(i.groups);
    if o.groupID in groups then m else m.(groups := Some(groups + [o.groupID]))
  }

  predicate ProtectionDiffers(i: Instance, o: Wanted) {
    !(o.adopt && o.protection.None?) && i.protected != Or(o.protection, true)
  }

  predicate TagsDiffer(i: Instance, o: Wanted) {
    !o.adopt && !i.copiesTags
  }

  predicate CeilingDiffers(i: Instance, o: Wanted) {
    o.maxStorage.Some? && i.maxStorage != o.maxStorage.value
  }

  function WithSettings(m: Modify, i: Instance, o: Wanted): Modify {
    m.(protection := if ProtectionDiffers(i, o) then Some(Or(o.protection, true)) else m.protection,
       copyTags := m.copyTags || TagsDiffer(i, o),
       maxStorage := if CeilingDiffers(i, o) then o.maxStorage else m.maxStorage)
  }

  // The engine version cannot be compared, or would need a major upgrade that
  // the spec does not allow.
  predicate Refuses(engine: Engine, cur: Attributes, o: Wanted) {
    var u := engine(cur.version, o.version);
    u.Unknown? || (u.Needed? && u.major && !o.allowMajor)
  }

  function Versioned(m: Modify, engine: Engine, cur: Attributes, o: Wanted): Modify {
    var u := engine(cur.version, o.version);
    if !u.Needed? then m else m.(version := Some(o.version), allowMajor := m.allowMajor || u.major)
  }

  predicate Disruptive(m: Modify) {
    m.class_.Some? || m.multiAZ.Some? || m.retention.Some? || m.version.Some?
  }

  datatype Decision = Send(request: Modify) | Nothing | Stop

  function Plan(engine: Engine, i: Instance, o: Wanted): Decision {
    var cur := Effective(i);
    var m1 := Grown(Backed(Sized(NOTHING, cur, o), cur, o), i, cur, o);
    if Refuses(engine, cur, o) then Stop
    else
      var m := WithSettings(Grouped(Versioned(m1, engine, cur, o), i, o), i, o);
      if m == NOTHING then Nothing
      else Send(m.(immediate := o.applyImmediately || (m.storage.Some? && !Disruptive(m) && i.pending.None?)))
  }

  // ------------------------------------------------- the request, field by field

  method WithSecurityGroup(groups: seq<Group>, groupID: string) returns (ids: seq<string>, missing: bool)
    ensures missing == (groupID !in Attached(groups))
    ensures ids == Attached(groups) + if missing then [groupID] else []
  {
    ids, missing := [], true;
    for k := 0 to |groups|
      invariant ids == Attached(groups[..k]) && missing == (groupID !in ids)
    {
      assert groups[..k + 1][..k] == groups[..k];
      if groups[k].removing {
        continue;
      }
      ids := ids + [groups[k].id];
      if groups[k].id == groupID {
        missing := false;
      }
    }
    assert groups[..|groups|] == groups;
    if missing {
      ids := ids + [groupID];
    }
  }

  method EffectiveAttributes(i: Instance) returns (a: Attributes)
    ensures a == Effective(i)
  {
    a := Attributes(i.class_, i.version, i.multiAZ, i.retention, i.storage);
    if i.pending.None? {
      return;
    }
    var p := i.pending.value;
    if p.class_.Some? {
      a := a.(class_ := p.class_.value);
    }
    if p.version.Some? {
      a := a.(version := p.version.value);
    }
    if p.multiAZ.Some? {
      a := a.(multiAZ := p.multiAZ.value);
    }
    if p.retention.Some? {
      a := a.(retention := p.retention.value);
    }
    if p.storage.Some? {
      a := a.(storage := p.storage.value);
    }
  }

  class Planner {
    const engine: Engine
    const instance: Instance
    const wanted: Wanted
    var request: Modify

    constructor (engine: Engine, instance: Instance, wanted: Wanted)
      ensures this.engine == engine && this.instance == instance && this.wanted == wanted && request == NOTHING
    {
      this.engine, this.instance, this.wanted := engine, instance, wanted;
      request := NOTHING;
    }

    method ReconcileSizing(cur: Attributes) returns (changed: bool)
      modifies this
      ensures request == Sized(old(request), cur, wanted)
      ensures changed <==> cur.class_ != wanted.class_ || cur.multiAZ != wanted.multiAZ
    {
      changed := false;
      if cur.class_ != wanted.class_ {
        request := request.(class_ := Some(wanted.class_));
        changed := true;
      }
      if cur.multiAZ != wanted.multiAZ {
        request := request.(multiAZ := Some(wanted.multiAZ));
        changed := true;
      }
    }

    method ReconcileBackupRetention(cur: Attributes) returns (changed: bool)
      modifies this
      ensures request == Backed(old(request), cur, wanted)
      ensures changed <==> cur.retention < WantedRetention(wanted)
    {
      var desired := 0;
      if wanted.backups {
        desired := DEFAULT_RETENTION;
      }
      if cur.retention < desired {
        request := request.(retention := Some(desired));
        return true;
      }
      return false;
    }

    method ReconcileStorage(cur: Attributes) returns (growth: bool)
      modifies this
      ensures request == Grown(old(request), instance, cur, wanted)
      ensures growth <==> wanted.storage > cur.storage
    {
      if wanted.storage <= cur.storage {
        return false;
      }
      request := request.(storage := Some(wanted.storage));
      if (instance.storageType == "io1" || instance.storageType == "io2") && instance.iops.Some? {
        request := request.(iops := instance.iops);
      }
      return true;
    }

    method ReconcileEngineVersion(cur: Attributes) returns (changed: bool, refused: bool)
      modifies this
      ensures refused <==> Refuses(engine, cur, wanted)
      ensures !refused ==> request == Versioned(old(request), engine, cur, wanted)
      ensures !refused ==> (changed <==> engine(cur.version, wanted.version).Needed?)
    {
      var u := engine(cur.version, wanted.version);
      if u.Unknown? {
        return false, true;
      }
      if u.NotNeeded? {
        return false, false;
      }
      if u.major && !wanted.allowMajor {
        return false, true;
      }
      request := request.(version := Some(wanted.version));
      if u.major {
        request := request.(allowMajor := true);
      }
      return true, false;
    }

    method ReconcileSettings() returns (changed: bool)
      modifies this
      ensures request == WithSettings(old(request), instance, wanted)
      ensures changed <==> ProtectionDiffers(instance, wanted) || TagsDiffer(instance, wanted) || CeilingDiffers(instance, wanted)
    {
      changed := false;
      if !(wanted.adopt && wanted.protection.None?) {
        var want := wanted.protection.None? || wanted.protection.value;
        if instance.protected != want {
          request := request.(protection := Some(want));
          changed := true;
        }
      }
      if !wanted.adopt && !instance.copiesTags {
        request := request.(copyTags := true);
        changed := true;
      }
      if wanted.maxStorage.Some? && instance.maxStorage != wanted.maxStorage.value {
        request := request.(maxStorage := wanted.maxStorage);
        changed := true;
      }
    }

    method ReconcileInstanceAttributes() returns (d: Decision)
      requires request == NOTHING
      modifies this
      ensures d == Plan(engine, instance, wanted)
    {
      var cur := EffectiveAttributes(instance);
      var otherChange := ReconcileSizing(cur);
      var retention := ReconcileBackupRetention(cur);
      otherChange := retention || otherChange;
      var growth := ReconcileStorage(cur);
      var upgrade, refused := ReconcileEngineVersion(cur);
      if refused {
        return Stop;
      }
      otherChange := otherChange || upgrade;
      var groups, missing := WithSecurityGroup(instance.groups, wanted.groupID);
      if missing {
        request := request.(groups := Some(groups));
      }
      var settings := ReconcileSettings();
      if !growth && !otherChange && !missing && !settings {
        return Nothing;
      }
      var growthOnly := growth && !otherChange && instance.pending.None?;
      request := request.(immediate := wanted.applyImmediately || growthOnly);
      return Send(request);
    }
  }

  // ------------------------------------------------------------------- laws

  // The instance, with what AWS has accepted, is what the spec asks for. Storage
  // and retention may exceed it; an adopted instance keeps its own settings.
  ghost predicate Meets(engine: Engine, i: Instance, o: Wanted) {
    var cur := Effective(i);
    && cur.class_ == o.class_ && cur.multiAZ == o.multiAZ
    && cur.storage >= o.storage && cur.retention >= WantedRetention(o)
    && engine(cur.version, o.version).NotNeeded?
    && (exists k :: 0 <= k < |i.groups| && i.groups[k] == Group(o.groupID, false))
    && ((o.adopt && o.protection.None?) || i.protected == Or(o.protection, true))
    && (o.adopt || i.copiesTags)
    && (o.maxStorage.Some? ==> i.maxStorage == o.maxStorage.value)
  }

  lemma {:induction false} AttachedMembers(groups: seq<Group>, id: string)
    ensures id in Attached(groups) <==> exists k :: 0 <= k < |groups| && groups[k] == Group(id, false)
  {
    if groups != [] {
      var init, last := groups[..|groups| - 1], groups[|groups| - 1];
      AttachedMembers(init, id);
      assert forall k :: 0 <= k < |init| ==> init[k] == groups[k];
      if k :| 0 <= k < |groups| && groups[k] == Group(id, false) && k < |init| {
        assert init[k] == Group(id, false);
      }
    }
  }

  // Nothing is sent exactly when there is nothing left to ask for.
  lemma SilentIffMet(engine: Engine, i: Instance, o: Wanted)
    ensures Plan(engine, i, o).Nothing? <==> Meets(engine, i, o)
  {
    AttachedMembers(i.groups, o.groupID);
  }

  // ------------------------------------------------------------ what AWS does

  // The pending value of each attribute. A record that is missing and one that
  // is empty hold nothing.
  function Waiting(i: Instance): Pending {
    if i.pending.None? then Pending(None, None, None, None, None) else i.pending.value
  }

  // One attribute before and after, live and pending. A value AWS accepted has
  // landed in the live field, or waits in the record; one that was not asked for
  // stays where it was, except that a waiting value may land.
  ghost predicate Lands<T(!new)>(live: T, waits: Option<T>, asked: Option<T>, live': T, waits': Option<T>, fits: (T, T) -> bool) {
    match asked
    case Some(v) =>
      || (fits(v, live') && waits'.None?)
      || (live' == Or(waits, live) && waits'.Some? && fits(v, waits'.value))
      || (live' == live && waits'.Some? && fits(v, waits'.value))
    case None =>
      || (live' == live && waits' == waits)
      || (waits.Some? && live' == waits.value && waits'.None?)
  }

  // Storage AWS may round up, and an instance may grow by itself.
  ghost predicate StorageLands(live: int, waits: Option<int>, asked: Option<int>, live': int, waits': Option<int>) {
    match asked
    case Some(v) => (live' >= v && waits'.None?) || (live' >= live && waits'.Some? && waits'.value >= v)
    case None =>
      || (live' >= live && waits' == waits)
      || (waits.Some? && live' >= waits.value && waits'.None?)
  }

  ghost predicate IsAttached(i: Instance, id: string) {
    exists k :: 0 <= k < |i.groups| && i.groups[k] == Group(id, false)
  }

  // AWS took the request m, or nothing was sent and m is NOTHING. It says what
  // becomes of each field of the instance, live and pending apart; settings that
  // need no window are live at once; and an engine upgrade leads to a version
  // that needs no further one.
  ghost predicate Accepted(engine: Engine, i: Instance, m: Modify, i': Instance) {
    var p, p' := Waiting(i), Waiting(i');
    && Lands(i.class_, p.class_, m.class_, i'.class_, p'.class_, (v, x) => x == v)
    && Lands(i.multiAZ, p.multiAZ, m.multiAZ, i'.multiAZ, p'.multiAZ, (v, x) => x == v)
    && Lands(i.retention, p.retention, m.retention, i'.retention, p'.retention, (v, x) => x == v)
    && Lands(i.version, p.version, m.version, i'.version, p'.version, (v, x) => engine(x, v).NotNeeded?)
    && StorageLands(i.storage, p.storage, m.storage, i'.storage, p'.storage)
    && (forall id :: IsAttached(i', id) <==> if m.groups.Some? then id in m.groups.value else IsAttached(i, id))
    && i'.protected == Or(m.protection, i.protected)
    && i'.copiesTags == (i.copiesTags || m.copyTags)
    && i'.maxStorage == Or(m.maxStorage, i.maxStorage)
  }

  // The request laid over the effective attributes.
  ghost predicate Overlaid(engine: Engine, a: Attributes, m: Modify, a': Attributes) {
    && a'.class_ == Or(m.class_, a.class_) && a'.multiAZ == Or(m.multiAZ, a.multiAZ)
    && a'.retention == Or(m.retention, a.retention)
    && a'.storage >= Or(m.storage, a.storage)
    && (if m.version.Some? then engine(a'.version, m.version.value).NotNeeded? else a'.version == a.version)
  }

  // Live or pending, a change AWS has accepted shows in the effective
  // attributes, and nothing else does.
  lemma AcceptedShows(engine: Engine, i: Instance, m: Modify, i': Instance)
    requires Accepted(engine, i, m, i')
    ensures Overlaid(engine, Effective(i), m, Effective(i'))
  {
  }

  // The request names a field exactly when the instance differs in it, and
  // names the value the spec wants.
  ghost predicate AsksForTheDifference(engine: Engine, i: Instance, o: Wanted, m: Modify) {
    var cur := Effective(i);
    && m.class_ == (if cur.class_ == o.class_ then None else Some(o.class_))
    && m.multiAZ == (if cur.multiAZ == o.multiAZ then None else Some(o.multiAZ))
    && m.retention == (if cur.retention >= WantedRetention(o) then None else Some(WantedRetention(o)))
    && m.storage == (if cur.storage >= o.storage then None else Some(o.storage))
    && m.version == (if engine(cur.version, o.version).NotNeeded? then None else Some(o.version))
    && m.groups == (if o.groupID in Attached(i.groups) then None else Some(Attached(i.groups) + [o.groupID]))
    && m.protection == (if ProtectionDiffers(i, o) then Some(Or(o.protection, true)) else None)
    && m.copyTags == TagsDiffer(i, o)
    && m.maxStorage == (if CeilingDiffers(i, o) then o.maxStorage else None)
  }

  lemma AsksExactly(engine: Engine, i: Instance, o: Wanted)
    requires Plan(engine, i, o).Send?
    ensures AsksForTheDifference(engine, i, o, Plan(engine, i, o).request)
  {
  }

  lemma AcceptedMeets(engine: Engine, i: Instance, o: Wanted, m: Modify, i': Instance)
    requires AsksForTheDifference(engine, i, o, m) && Accepted(engine, i, m, i')
    ensures Meets(engine, i', o)
  {
    AcceptedShows(engine, i, m, i');
    AttachedMembers(i.groups, o.groupID);
    assert IsAttached(i', o.groupID);
  }

  // One accepted request is enough: the next pass sends nothing.
  lemma Converges(engine: Engine, i: Instance, o: Wanted, i': Instance)
    requires Plan(engine, i, o).Send? && Accepted(engine, i, Plan(engine, i, o).request, i')
    ensures Meets(engine, i', o) && Plan(engine, i', o).Nothing?
  {
    AsksExactly(engine, i, o);
    AcceptedMeets(engine, i, o, Plan(engine, i, o).request, i');
    SilentIffMet(engine, i', o);
  }

  // Whatever else changes, the next pass stays silent while the spec is met, so
  // a run under one spec has at most one accepted request.
  datatype Turn = Turn(before: Instance, after: Instance)

  // A pass that sends nothing leaves the instance to AWS, which lands pending
  // changes and may grow the storage.
  ghost predicate IsTurn(engine: Engine, o: Wanted, t: Turn) {
    match Plan(engine, t.before, o)
    case Send(m) => Accepted(engine, t.before, m, t.after)
    case _ => Accepted(engine, t.before, NOTHING, t.after)
  }

  ghost predicate IsRun(engine: Engine, o: Wanted, run: seq<Turn>) {
    && (forall k :: 0 <= k < |run| ==> IsTurn(engine, o, run[k]))
    && (forall k :: 0 <= k < |run| - 1 ==> run[k + 1].before == run[k].after)
  }

  lemma StaysMet(engine: Engine, o: Wanted, t: Turn)
    requires IsTurn(engine, o, t) && Meets(engine, t.before, o)
    ensures Meets(engine, t.after, o)
  {
    SilentIffMet(engine, t.before, o);
    AcceptedShows(engine, t.before, NOTHING, t.after);
    assert IsAttached(t.before, o.groupID);
    assert IsAttached(t.after, o.groupID);
  }

  lemma {:induction false} AtMostOneRequest(engine: Engine, o: Wanted, run: seq<Turn>, i: nat, j: nat)
    requires IsRun(engine, o, run) && i < j < |run| && Plan(engine, run[i].before, o).Send?
    ensures Plan(engine, run[j].before, o).Nothing?
    decreases j - i
  {
    if j == i + 1 {
      assert IsTurn(engine, o, run[i]);
      Converges(engine, run[i].before, o, run[i].after);
    } else {
      AtMostOneRequest(engine, o, run, i, j - 1);
      SilentIffMet(engine, run[j - 1].before, o);
      StaysMet(engine, o, run[j - 1]);
      SilentIffMet(engine, run[j].before, o);
    }
    assert j > 0 ==> run[j - 1 + 1].before == run[j - 1].after;
  }

  // No request shrinks what is there, or takes a group away; Iops goes along
  // only with growth of a provisioned volume.
  lemma NeverTakesAway(engine: Engine, i: Instance, o: Wanted)
    requires Plan(engine, i, o).Send?
    ensures var m, cur := Plan(engine, i, o).request, Effective(i);
      && (m.storage.Some? ==> m.storage.value > cur.storage)
      && (m.retention.Some? ==> m.retention.value > cur.retention)
      && (m.groups.Some? ==> m.groups.value == Attached(i.groups) + [o.groupID] && o.groupID !in Attached(i.groups))
      && (m.iops.Some? ==> m.storage.Some? && m.iops == i.iops && i.storageType in {"io1", "io2"})
  {
  }

  // Over any run of accepted requests, under specs that may change, storage and
  // retention never go down and no attached group is detached.
  lemma {:induction false} NeverLowers(engine: Engine, specs: seq<Wanted>, run: seq<Turn>, i: nat, j: nat)
    requires |specs| == |run| && i <= j < |run|
    requires forall k :: 0 <= k < |run| ==> IsTurn(engine, specs[k], run[k])
    requires forall k :: 0 <= k < |run| - 1 ==> run[k + 1].before == run[k].after
    ensures var a, b := Effective(run[i].before), Effective(run[j].after);
      && b.storage >= a.storage && b.retention >= a.retention
      && forall id :: IsAttached(run[i].before, id) ==> IsAttached(run[j].after, id)
    decreases j - i
  {
    TurnNeverLowers(engine, specs[j], run[j]);
    if i < j {
      NeverLowers(engine, specs, run, i, j - 1);
      assert run[j - 1 + 1].before == run[j - 1].after;
    }
  }

  lemma TurnNeverLowers(engine: Engine, o: Wanted, t: Turn)
    requires IsTurn(engine, o, t)
    ensures var a, b := Effective(t.before), Effective(t.after);
      && b.storage >= a.storage && b.retention >= a.retention
      && forall id :: IsAttached(t.before, id) ==> IsAttached(t.after, id)
  {
    var m := if Plan(engine, t.before, o).Send? then Plan(engine, t.before, o).request else NOTHING;
    AcceptedShows(engine, t.before, m, t.after);
    if Plan(engine, t.before, o).Send? {
      NeverTakesAway(engine, t.before, o);
      forall id | IsAttached(t.before, id) ensures IsAttached(t.after, id) {
        AttachedMembers(t.before.groups, id);
      }
    }
  }

  // Without applyImmediately a request is immediate exactly when it grows the
  // storage, carries no class, Multi-AZ, backup or version change, and AWS shows
  // no record of pending changes to drag along.
  lemma ImmediateIff(engine: Engine, i: Instance, o: Wanted)
    requires Plan(engine, i, o).Send? && !o.applyImmediately
    ensures var m, cur := Plan(engine, i, o).request, Effective(i);
      m.immediate <==>
        && i.pending.None? && o.storage > cur.storage
        && cur.class_ == o.class_ && cur.multiAZ == o.multiAZ && cur.retention >= WantedRetention(o)
        && engine(cur.version, o.version).NotNeeded?
    ensures Plan(engine, i, o).request.immediate ==> !Disruptive(Plan(engine, i, o).request)
  {
  }

  // A record of pending changes that is there but holds none is enough to put
  // growth off to the maintenance window.
  lemma EmptyPendingDefers(engine: Engine, i: Instance, o: Wanted)
    requires i.pending == Some(Pending(None, None, None, None, None)) && !o.applyImmediately
    requires Plan(engine, i, o).Send?
    ensures Effective(i) == Effective(i.(pending := None)) && !Plan(engine, i, o).request.immediate
  {
  }
}
