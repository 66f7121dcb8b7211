/**
 RDS as Cleanup sees it: instances and manual snapshots. Every call draws one
 fault; the log keeps what was read and every snapshot request that was sent.
 */
module InstanceCloud {
  import opened Ledger
  import opened Sweep
  import opened Ownership

  datatype SnapshotStatus = Available | SnapshotFailed | InProgress

  datatype Snapshot = Snapshot(tags: Tags, status: SnapshotStatus)

  datatype Call =
    | TagsRead(arn: string, tags: Tags)
    | SnapshotRead(id: string, snapshot: Snapshot)
    | CreateSent(name: string, id: string)
    | DeleteSent(name: string, id: string)

  // `instances` holds each instance's tags by ARN. AWS answers a lookup of an
  // unknown snapshot with a fault or with an empty list; both are allowed for.
  datatype Cloud = Cloud(
    instances: map<string, Tags>,
    snapshots: map<string, Snapshot>,
    faultWhenMissing: bool,
    log: seq<Call>,
    faults: seq<Fault>)

  datatype Lookup = One(snapshot: Snapshot) | Empty | MissingFault | Broken

  function InstanceTitle(w: Cloud, arn: string): Title {
    if arn in w.instances then TitleOf(w.instances[arn]) else Nobody
  }

  function TitlesOf(w: Cloud): Titles {
    arn => InstanceTitle(w, arn)
  }

  function Drawn(w: Cloud): Cloud {
    w.(faults := Rest(w.faults))
  }

  function Logged(w: Cloud, c: Call): Cloud {
    w.(log := w.log + [c])
  }

  function ListTags(w: Cloud, arn: string): (r: (Cloud, Reply<Tags>))
    ensures r.0.instances.Keys == w.instances.Keys
    ensures r.0.snapshots == w.snapshots
    ensures r.0.log == if r.1.Answer? then w.log + [TagsRead(arn, r.1.value)] else w.log
    ensures r.1.Answer? ==> arn in w.instances && r.1.value == w.instances[arn]
    ensures r.1.NotFound? ==> arn !in w.instances
  {
    if !Next(w.faults).Fine? then (Drawn(w), Failed)
    else if arn !in w.instances then (Drawn(w), NotFound)
    else (Logged(Drawn(w), TagsRead(arn, w.instances[arn])), Answer(w.instances[arn]))
  }

  function DescribeSnapshot(w: Cloud, id: string): (r: (Cloud, Lookup))
    ensures r.0.instances.Keys == w.instances.Keys
    ensures r.0.snapshots == w.snapshots
    ensures r.0.log == if r.1.One? then w.log + [SnapshotRead(id, r.1.snapshot)] else w.log
    ensures r.1.One? ==> id in w.snapshots && r.1.snapshot == w.snapshots[id]
    ensures r.1.Empty? || r.1.MissingFault? ==> id !in w.snapshots
  {
    if !Next(w.faults).Fine? then (Drawn(w), Broken)
    else if id !in w.snapshots then (Drawn(w), if w.faultWhenMissing then MissingFault else Empty)
    else (Logged(Drawn(w), SnapshotRead(id, w.snapshots[id])), One(w.snapshots[id]))
  }

  // An id that is taken counts as created.
  function CreateSnapshot(w: Cloud, name: string, id: string, tags: Tags): (r: (Cloud, bool))
    ensures r.0.instances.Keys == w.instances.Keys
    ensures r.0.log == w.log + [CreateSent(name, id)]
    ensures w.snapshots.Keys <= r.0.snapshots.Keys
  {
    var sent := Logged(Drawn(w), CreateSent(name, id));
    if Next(w.faults).Refused? then (sent, false)
    else if id in w.snapshots then (sent, Next(w.faults).Fine?)
    else (sent.(snapshots := w.snapshots[id := Snapshot(tags, InProgress)]), Next(w.faults).Fine?)
  }

  // Deleting a snapshot that is gone counts as success.
  function DeleteSnapshot(w: Cloud, name: string, id: string): (r: (Cloud, bool))
    ensures r.0.instances.Keys == w.instances.Keys
    ensures r.0.log == w.log + [DeleteSent(name, id)]
    ensures r.1 ==> id !in r.0.snapshots
    ensures r.0.snapshots.Keys <= w.snapshots.Keys
  {
    var sent := Logged(Drawn(w), DeleteSent(name, id));
    if Next(w.faults).Refused? then (sent, false)
    else (sent.(snapshots := w.snapshots - {id}), Next(w.faults).Fine?)
  }

  function UntagOwner(w: Cloud, arn: string): (r: (Cloud, bool))
    ensures r.0.instances.Keys == w.instances.Keys
    ensures r.0.log == w.log && r.0.snapshots == w.snapshots
  {
    if Next(w.faults).Refused? || arn !in w.instances then (Drawn(w), false)
    else (Drawn(w).(instances := w.instances[arn := w.instances[arn] - {OWNER_TAG, OWNER_UID_TAG}]), Next(w.faults).Fine?)
  }

  // A call whose effect is outside this model: only its failure counts.
  function Unmodelled(w: Cloud): (r: (Cloud, bool))
    ensures r.0.instances.Keys == w.instances.Keys
    ensures r.0.log == w.log && r.0.snapshots == w.snapshots
  {
    (Drawn(w), Next(w.faults).Fine?)
  }

  // Whether AWS has the instance; None when the lookup fails.
  function LookUp(w: Cloud, arn: string): (r: (Cloud, Option<bool>))
    ensures r.0 == Drawn(w) && (r.1.Some? ==> r.1.value == (arn in w.instances))
  {
    (Drawn(w), if Next(w.faults).Fine? then Some(arn in w.instances) else None)
  }

  function CreateInstance(w: Cloud, arn: string, tags: Tags): (Cloud, bool) {
    if Next(w.faults).Refused? || arn in w.instances then (Drawn(w), false)
    else (Drawn(w).(instances := w.instances[arn := tags]), Next(w.faults).Fine?)
  }

  function AddTags(w: Cloud, arn: string, tags: Tags): (Cloud, bool) {
    if Next(w.faults).Refused? || arn !in w.instances then (Drawn(w), false)
    else (Drawn(w).(instances := w.instances[arn := w.instances[arn] + tags]), Next(w.faults).Fine?)
  }
}
