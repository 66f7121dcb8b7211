/**
 From specs and ledgers to the IAM policy of a CR's role. The meaning of a
 policy is the set of (action, resource) pairs it allows.
 */
module Grants {
  import opened Ledger
  import opened Sweep
  import opened Text
  import opened Naming
  import opened KeySection

  datatype Share = Share(namespace: string, name: string, readWrite: bool)

  datatype Resource = Resource(name: string, encryption: Option<Encryption>, shared: seq<Share>)

  datatype ConsumeRef = ConsumeRef(namespace: string, name: string, resource: string)

  datatype Section = Section(resources: seq<Resource>, consumes: seq<ConsumeRef>)

  datatype AppSpec = AppSpec(
    sqs: Option<Section>, sns: Option<Section>, dynamodb: Option<Section>, s3: Option<Section>, kms: Option<seq<string>>)

  datatype App = App(namespace: string, name: string, spec: AppSpec, ledger: seq<Entry>)

  datatype AppName = AppName(namespace: string, name: string)

  type Apps = map<AppName, App>

  // ----------------------------------------------------------------- grants

  // One resource the role gets access to; `consumed` when another CR owns it.
  datatype Grant = Grant(rtype: ResourceType, arn: string, readWrite: bool, consumed: bool)

  datatype Skip =
    | OwnedNotReconciled(rtype: ResourceType, name: string)
    | ProducerNotFound(ref: ConsumeRef)
    | NotDeclared(ref: ConsumeRef)
    | NotAuthorized(ref: ConsumeRef)
    | NotReconciled(ref: ConsumeRef)
    | KeyNotReconciled(ref: ConsumeRef)

  const GRANT_TYPES: seq<ResourceType> := [SQS, SNS, DynamoDB, S3]

  function SectionOf(spec: AppSpec, t: ResourceType): Option<Section> {
    match t
    case SQS => spec.sqs
    case SNS => spec.sns
    case DynamoDB => spec.dynamodb
    case S3 => spec.s3
    case _ => None
  }

  function Named(rs: seq<Resource>, name: string): Option<Resource> {
    if rs == [] then None else if rs[0].name == name then Some(rs[0]) else Named(rs[1..], name)
  }

  function SharedWith(shares: seq<Share>, app: App): Option<Share> {
    if shares == [] then None
    else if shares[0].namespace == app.namespace && shares[0].name == app.name then Some(shares[0])
    else SharedWith(shares[1..], app)
  }

  function ProducerResource(producer: App, t: ResourceType, name: string): Option<Resource> {
    var s := SectionOf(producer.spec, t);
    if s.None? then None else Named(s.value.resources, name)
  }

  datatype Lookup = Problem(why: Skip) | Resolved(producer: App, share: Share, encryption: Option<Encryption>)

  function LookupConsume(apps: Apps, app: App, t: ResourceType, ref: ConsumeRef): Lookup {
    var key := AppName(ref.namespace, ref.name);
    if key !in apps then Problem(ProducerNotFound(ref))
    else
      var r := ProducerResource(apps[key], t, ref.resource);
      if r.None? then Problem(NotDeclared(ref))
      else
        var share := SharedWith(r.value.shared, app);
        if share.None? then Problem(NotAuthorized(ref)) else Resolved(apps[key], share.value, r.value.encryption)
  }

  // The grants of one reference, or why there are none.
  datatype Resolution = Granted(grants: seq<Grant>) | Skipped(why: Skip)

  function ResolveConsume(apps: Apps, app: App, t: ResourceType, ref: ConsumeRef): Resolution {
    match LookupConsume(apps, app, t, ref)
    case Problem(why) => Skipped(why)
    case Resolved(producer, share, encryption) =>
      var entry := Find(producer.ledger, t, ref.resource);
      var keyName := KeyLedgerName(Encrypted(t, ref.resource, encryption));
      if entry.None? then Skipped(NotReconciled(ref))
      else
        var own := Grant(t, entry.value.arn, share.readWrite, true);
        if keyName == "" || t == DynamoDB then Granted([own])
        else
          var key := Find(producer.ledger, KMS, keyName);
          if key.None? then Skipped(KeyNotReconciled(ref))
          else Granted([own, Grant(KMS, key.value.arn, share.readWrite, false)])
  }

  function ResolveOwned(app: App, t: ResourceType, name: string): Resolution {
    match Find(app.ledger, t, name)
    case Some(e) => Granted([Grant(t, e.arn, true, false)])
    case None => Skipped(OwnedNotReconciled(t, name))
  }

  // ----------------------------------------------- everything there is to grant

  // What the role needs, in the order it is gathered.
  datatype Need = Own(rtype: ResourceType, name: string) | Consume(rtype: ResourceType, ref: ConsumeRef)

  predicate HasDedicatedKey(r: Resource) {
    r.encryption.Some? && r.encryption.value.enabled
  }

  function OwnNeeds(t: ResourceType, rs: seq<Resource>): seq<Need> {
    if rs == [] then []
    else
      var r := rs[|rs| - 1];
      OwnNeeds(t, rs[..|rs| - 1]) + [Own(t, r.name)] + if HasDedicatedKey(r) then [Own(KMS, DedicatedKeyLedgerName(t, r.name))] else []
  }

  function ConsumeNeeds(t: ResourceType, refs: seq<ConsumeRef>): seq<Need> {
    seq(|refs|, i requires 0 <= i < |refs| => Consume(t, refs[i]))
  }

  function SectionNeeds(spec: AppSpec, t: ResourceType): seq<Need> {
    match SectionOf(spec, t)
    case None => []
    case Some(s) => OwnNeeds(t, s.resources) + ConsumeNeeds(t, s.consumes)
  }

  function KeyNeeds(keys: seq<string>): seq<Need> {
    seq(|keys|, i requires 0 <= i < |keys| => Own(KMS, keys[i]))
  }

  function NeedsUpto(spec: AppSpec, k: nat): seq<Need>
    requires k <= |GRANT_TYPES|
  {
    if k == 0 then [] else NeedsUpto(spec, k - 1) + SectionNeeds(spec, GRANT_TYPES[k - 1])
  }

  function AllNeeds(spec: AppSpec): seq<Need> {
    NeedsUpto(spec, |GRANT_TYPES|) + if spec.kms.Some? then KeyNeeds(spec.kms.value) else []
  }

  // The grants gathered so far. Each read of a producer draws one fault, and a
  // failed one ends the derivation with no policy at all.
  datatype Gathered = Gathered(faults: seq<Fault>, grants: seq<Grant>, skipped: seq<Skip>, ok: bool)

  function Gather(apps: Apps, app: App, g: Gathered, need: Need): (r: Gathered)
    ensures g.ok && need.Own? ==> r.ok
  {
    if !g.ok then g
    else
      var failed := need.Consume? && !Next(g.faults).Fine?;
      var faults := if need.Consume? then Rest(g.faults) else g.faults;
      if failed then Gathered(faults, [], [], false)
      else
        var r := if need.Own? then ResolveOwned(app, need.rtype, need.name) else ResolveConsume(apps, app, need.rtype, need.ref);
        match r
        case Granted(more) => Gathered(faults, g.grants + more, g.skipped, true)
        case Skipped(why) => Gathered(faults, g.grants, g.skipped + [why], true)
  }

  function GatherAll(apps: Apps, app: App, g: Gathered, needs: seq<Need>): Gathered {
    if needs == [] then g else Gather(apps, app, GatherAll(apps, app, g, needs[..|needs| - 1]), needs[|needs| - 1])
  }

  function Collected(apps: Apps, app: App, faults: seq<Fault>): Gathered {
    GatherAll(apps, app, Gathered(faults, [], [], true), AllNeeds(app.spec))
  }

  lemma GatherOneMore(apps: Apps, app: App, g: Gathered, needs: seq<Need>, need: Need)
    ensures GatherAll(apps, app, g, needs + [need]) == Gather(apps, app, GatherAll(apps, app, g, needs), need)
  {
    assert (needs + [need])[..|needs|] == needs;
  }

  lemma {:induction false} GatherInTurn(apps: Apps, app: App, g: Gathered, a: seq<Need>, b: seq<Need>)
    ensures GatherAll(apps, app, g, a + b) == GatherAll(apps, app, GatherAll(apps, app, g, a), b)
  {
    if b == [] {
      assert a + b == a;
    } else {
      GatherInTurn(apps, app, g, a, b[..|b| - 1]);
      assert (a + b)[..|a + b| - 1] == a + b[..|b| - 1];
    }
  }

  lemma {:induction false} GatherStops(apps: Apps, app: App, g: Gathered, needs: seq<Need>)
    requires !g.ok
    ensures GatherAll(apps, app, g, needs) == g
  {
    if needs != [] {
      GatherStops(apps, app, g, needs[..|needs| - 1]);
    }
  }

  // ---------------------------------------------------------- the loops as written

  method FindShare(shares: seq<Share>, app: App) returns (r: Option<Share>)
    ensures r == SharedWith(shares, app)
    ensures match r
      case None => forall i :: 0 <= i < |shares| ==> !(shares[i].namespace == app.namespace && shares[i].name == app.name)
      case Some(share) =>
        exists i :: 0 <= i < |shares| && shares[i] == share && share.namespace == app.namespace && share.name == app.name
                    && forall j :: 0 <= j < i ==> !(shares[j].namespace == app.namespace && shares[j].name == app.name)
  {
    for i := 0 to |shares|
      invariant SharedWith(shares, app) == SharedWith(shares[i..], app)
      invariant forall j :: 0 <= j < i ==> !(shares[j].namespace == app.namespace && shares[j].name == app.name)
    {
      if shares[i].namespace == app.namespace && shares[i].name == app.name {
        return Some(shares[i]);
      }
      assert shares[i..][1..] == shares[i + 1..];
    }
    return None;
  }

  method GatherOwned(apps: Apps, app: App, t: ResourceType, rs: seq<Resource>, before: Gathered) returns (g: Gathered)
    requires before.ok
    ensures g == GatherAll(apps, app, before, OwnNeeds(t, rs)) && g.ok
  {
    g := before;
    for i := 0 to |rs|
      invariant g == GatherAll(apps, app, before, OwnNeeds(t, rs[..i])) && g.ok
    {
      assert rs[..i + 1][..i] == rs[..i];
      ghost var sofar := OwnNeeds(t, rs[..i]);
      var own := Own(t, rs[i].name);
      g := Gather(apps, app, g, own);
      GatherOneMore(apps, app, before, sofar, own);
      if HasDedicatedKey(rs[i]) {
        var key := Own(KMS, DedicatedKeyLedgerName(t, rs[i].name));
        g := Gather(apps, app, g, key);
        GatherOneMore(apps, app, before, sofar + [own], key);
      } else {
        assert OwnNeeds(t, rs[..i + 1]) == sofar + [own];
      }
    }
    assert rs[..|rs|] == rs;
  }

  method GatherConsumed(apps: Apps, app: App, t: ResourceType, refs: seq<ConsumeRef>, before: Gathered) returns (g: Gathered)
    requires before.ok
    ensures g == GatherAll(apps, app, before, ConsumeNeeds(t, refs))
  {
    g := before;
    var needs := ConsumeNeeds(t, refs);
    for i := 0 to |refs|
      invariant g == GatherAll(apps, app, before, needs[..i]) && g.ok
    {
      assert needs[..i + 1] == needs[..i] + [Consume(t, refs[i])];
      GatherOneMore(apps, app, before, needs[..i], Consume(t, refs[i]));
      g := Gather(apps, app, g, Consume(t, refs[i]));
      if !g.ok {
        assert needs == needs[..i + 1] + needs[i + 1..];
        GatherInTurn(apps, app, before, needs[..i + 1], needs[i + 1..]);
        GatherStops(apps, app, g, needs[i + 1..]);
        return;
      }
    }
    assert needs[..|refs|] == needs;
  }

  method GatherSection(apps: Apps, app: App, t: ResourceType, before: Gathered) returns (g: Gathered)
    requires before.ok
    ensures g == GatherAll(apps, app, before, SectionNeeds(app.spec, t))
  {
    var section := SectionOf(app.spec, t);
    if section.None? {
      return before;
    }
    g := GatherOwned(apps, app, t, section.value.resources, before);
    g := GatherConsumed(apps, app, t, section.value.consumes, g);
    GatherInTurn(apps, app, before, OwnNeeds(t, section.value.resources), ConsumeNeeds(t, section.value.consumes));
  }

  method GatherKeys(apps: Apps, app: App, names: seq<string>, before: Gathered) returns (g: Gathered)
    requires before.ok
    ensures g == GatherAll(apps, app, before, KeyNeeds(names)) && g.ok
  {
    g := before;
    ghost var needs := KeyNeeds(names);
    for i := 0 to |names|
      invariant g == GatherAll(apps, app, before, needs[..i]) && g.ok
    {
      assert needs[..i + 1] == needs[..i] + [Own(KMS, names[i])];
      GatherOneMore(apps, app, before, needs[..i], Own(KMS, names[i]));
      g := Gather(apps, app, g, Own(KMS, names[i]));
    }
    assert needs[..|names|] == needs;
  }

  method CollectGrants(apps: Apps, app: App, faults: seq<Fault>) returns (g: Gathered)
    ensures g == Collected(apps, app, faults)
  {
    ghost var start := Gathered(faults, [], [], true);
    g := Gathered(faults, [], [], true);
    for k := 0 to |GRANT_TYPES|
      invariant g == GatherAll(apps, app, start, NeedsUpto(app.spec, k)) && g.ok
    {
      g := GatherSection(apps, app, GRANT_TYPES[k], g);
      GatherInTurn(apps, app, start, NeedsUpto(app.spec, k), SectionNeeds(app.spec, GRANT_TYPES[k]));
      if !g.ok {
        RestDoesNotMatter(apps, app, start, k + 1);
        return;
      }
    }
    if app.spec.kms.Some? {
      g := GatherKeys(apps, app, app.spec.kms.value, g);
      GatherInTurn(apps, app, start, NeedsUpto(app.spec, |GRANT_TYPES|), KeyNeeds(app.spec.kms.value));
    } else {
      assert AllNeeds(app.spec) == NeedsUpto(app.spec, |GRANT_TYPES|);
    }
  }

  lemma {:induction false} NeedsGrow(spec: AppSpec, k: nat, j: nat)
    requires k <= j <= |GRANT_TYPES|
    ensures NeedsUpto(spec, k) <= NeedsUpto(spec, j)
    decreases j - k
  {
    if k < j {
      NeedsGrow(spec, k, j - 1);
    }
  }

  lemma RestDoesNotMatter(apps: Apps, app: App, start: Gathered, k: nat)
    requires k <= |GRANT_TYPES| && !GatherAll(apps, app, start, NeedsUpto(app.spec, k)).ok
    ensures GatherAll(apps, app, start, AllNeeds(app.spec)) == GatherAll(apps, app, start, NeedsUpto(app.spec, k))
  {
    NeedsGrow(app.spec, k, |GRANT_TYPES|);
    var all, done := AllNeeds(app.spec), NeedsUpto(app.spec, k);
    assert all == done + all[|done|..];
    GatherInTurn(apps, app, start, done, all[|done|..]);
    GatherStops(apps, app, GatherAll(apps, app, start, done), all[|done|..]);
  }

  // --------------------------------------------------------------- the document

  datatype Statement = Statement(sid: string, actions: seq<string>, resources: seq<string>)

  function Baseline(t: ResourceType): seq<string> {
    match t
    case SQS => ["sqs:ReceiveMessage", "sqs:DeleteMessage", "sqs:GetQueueAttributes", "sqs:GetQueueUrl", "sqs:ChangeMessageVisibility"]
    case SNS => ["sns:Subscribe", "sns:Unsubscribe", "sns:GetTopicAttributes"]
    case DynamoDB => ["dynamodb:GetItem", "dynamodb:Query", "dynamodb:Scan", "dynamodb:BatchGetItem"]
    case KMS => ["kms:Decrypt"]
    case _ => []
  }

  function WriteActions(t: ResourceType): seq<string> {
    match t
    case SQS => ["sqs:SendMessage"]
    case SNS => ["sns:Publish"]
    case DynamoDB =>
      ["dynamodb:PutItem", "dynamodb:UpdateItem", "dynamodb:DeleteItem", "dynamodb:BatchWriteItem", "dynamodb:ConditionCheckItem"]
    case KMS => ["kms:GenerateDataKey"]
    case _ => []
  }

  function NotForConsumers(t: ResourceType): seq<string> {
    if t == SNS then ["sns:Subscribe", "sns:Unsubscribe"] else []
  }

  function ActionsFor(t: ResourceType, readWrite: bool): seq<string> {
    Baseline(t) + if readWrite then WriteActions(t) else []
  }

  function Without(actions: seq<string>, dropped: seq<string>): (r: seq<string>)
    ensures forall a :: a in r <==> a in actions && a !in dropped
  {
    if actions == [] then []
    else
      var rest := Without(actions[..|actions| - 1], dropped);
      if actions[|actions| - 1] in dropped then rest else rest + [actions[|actions| - 1]]
  }

  function GrantActions(g: Grant): seq<string> {
    var actions := ActionsFor(g.rtype, g.readWrite);
    if g.consumed then Without(actions, NotForConsumers(g.rtype)) else actions
  }

  function ObjectActions(readWrite: bool): seq<string> {
    ["s3:GetObject"] + if readWrite then ["s3:PutObject", "s3:DeleteObject", "s3:AbortMultipartUpload"] else []
  }

  function StatementsFor(i: nat, g: Grant): seq<Statement> {
    if g.rtype == S3 then
      [Statement("s3Bucket" + Decimal(i), ["s3:ListBucket"], [g.arn]),
       Statement("s3Object" + Decimal(i), ObjectActions(g.readWrite), [g.arn + "/*"])]
    else
      [Statement(g.rtype.Text() + Decimal(i), GrantActions(g),
                 [g.arn] + if g.rtype == DynamoDB then [g.arn + "/index/*"] else [])]
  }

  function Policy(grants: seq<Grant>): seq<Statement> {
    if grants == [] then []
    else Policy(grants[..|grants| - 1]) + StatementsFor(|grants| - 1, grants[|grants| - 1])
  }

  method BuildPolicyDocument(grants: seq<Grant>) returns (statements: seq<Statement>)
    ensures statements == Policy(grants)
  {
    statements := [];
    for i := 0 to |grants|
      invariant statements == Policy(grants[..i])
    {
      assert grants[..i + 1][..i] == grants[..i];
      var g := grants[i];
      if g.rtype == S3 {
        statements := statements +
          [Statement("s3Bucket" + Decimal(i), ["s3:ListBucket"], [g.arn]),
           Statement("s3Object" + Decimal(i), ObjectActions(g.readWrite), [g.arn + "/*"])];
        continue;
      }
      var resources := [g.arn];
      if g.rtype == DynamoDB {
        resources := resources + [g.arn + "/index/*"];
      } else {
        assert resources + [] == resources;
      }
      statements := statements + [Statement(g.rtype.Text() + Decimal(i), GrantActions(g), resources)];
    }
    assert grants[..|grants|] == grants;
  }
}
