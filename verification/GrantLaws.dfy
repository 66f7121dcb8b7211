/**
 What the derived policy means, against a declaration of who may do what.
 */
module GrantLaws {
  import opened Ledger
  import opened Sweep
  import opened Text
  import opened Naming
  import opened KeySection
  import opened Grants

  ghost predicate Allows(policy: seq<Statement>, action: string, resource: string) {
    exists s :: s in policy && action in s.actions && resource in s.resources
  }

  // ----------------------------------------------------------- the declaration

  // The actions on one resource that an access level stands for.
  ghost predicate Permits(t: ResourceType, arn: string, readWrite: bool, consumed: bool, action: string, resource: string) {
    match t
    case SQS =>
      resource == arn &&
      (action in {"sqs:ReceiveMessage", "sqs:DeleteMessage", "sqs:GetQueueAttributes", "sqs:GetQueueUrl", "sqs:ChangeMessageVisibility"}
       || (readWrite && action == "sqs:SendMessage"))
    case SNS =>
      resource == arn &&
      (action == "sns:GetTopicAttributes" || (readWrite && action == "sns:Publish")
       || (!consumed && action in {"sns:Subscribe", "sns:Unsubscribe"}))
    case DynamoDB =>
      (resource == arn || resource == arn + "/index/*") &&
      (action in {"dynamodb:GetItem", "dynamodb:Query", "dynamodb:Scan", "dynamodb:BatchGetItem"}
       || (readWrite && action in {"dynamodb:PutItem", "dynamodb:UpdateItem", "dynamodb:DeleteItem", "dynamodb:BatchWriteItem",
                                   "dynamodb:ConditionCheckItem"}))
    case S3 =>
      (resource == arn && action == "s3:ListBucket") ||
      (resource == arn + "/*" &&
       (action == "s3:GetObject" || (readWrite && action in {"s3:PutObject", "s3:DeleteObject", "s3:AbortMultipartUpload"})))
    case KMS =>
      resource == arn && (action == "kms:Decrypt" || (readWrite && action == "kms:GenerateDataKey"))
    case _ => false
  }

  // The section of the spec for one type.
  ghost predicate HasSection(spec: AppSpec, t: ResourceType, s: Section) {
    || (t == SQS && spec.sqs == Some(s)) || (t == SNS && spec.sns == Some(s))
    || (t == DynamoDB && spec.dynamodb == Some(s)) || (t == S3 && spec.s3 == Some(s))
  }

  ghost predicate Declares(spec: AppSpec, t: ResourceType, r: Resource) {
    exists s :: HasSection(spec, t, s) && r in s.resources
  }

  ghost predicate Consumes(spec: AppSpec, t: ResourceType, ref: ConsumeRef) {
    exists s :: HasSection(spec, t, s) && ref in s.consumes
  }

  // The CR owns what it declares, the dedicated keys of that, and its keys.
  ghost predicate Owns(spec: AppSpec, t: ResourceType, name: string) {
    || (exists r :: Declares(spec, t, r) && r.name == name)
    || (t == KMS && exists t', r :: Declares(spec, t', r) && Dedicated(r) && name == DedicatedKeyLedgerName(t', r.name))
    || (t == KMS && spec.kms.Some? && name in spec.kms.value)
  }

  // The resource asks for a key of its own.
  ghost predicate Dedicated(r: Resource) {
    exists keyRef :: r.encryption == Some(Encryption(true, keyRef))
  }

  // r is the first of the resources with that name.
  ghost predicate FirstNamed(rs: seq<Resource>, name: string, r: Resource) {
    exists i :: 0 <= i < |rs| && rs[i] == r && r.name == name && forall j :: 0 <= j < i ==> rs[j].name != name
  }

  // The share names the CR: its namespace and its name.
  ghost predicate Names(share: Share, app: App) {
    share.namespace == app.namespace && share.name == app.name
  }

  // The share is the first that names the CR.
  ghost predicate FirstShare(shares: seq<Share>, app: App, share: Share) {
    exists i :: 0 <= i < |shares| && shares[i] == share && Names(share, app) && forall j :: 0 <= j < i ==> !Names(shares[j], app)
  }

  // The producer is there, declares the resource, shares it with the CR, and
  // has its ARN on record.
  ghost predicate SharedTo(apps: Apps, app: App, t: ResourceType, ref: ConsumeRef, r: Resource, share: Share, arn: string) {
    var key := AppName(ref.namespace, ref.name);
    && key in apps && (exists s :: HasSection(apps[key].spec, t, s) && FirstNamed(s.resources, ref.resource, r))
    && FirstShare(r.shared, app, share)
    && Find(apps[key].ledger, t, ref.resource).Some? && arn == Find(apps[key].ledger, t, ref.resource).value.arn
  }

  // The key a consumer needs as well, if any: the one the resource refers to,
  // or else its own. DynamoDB uses it by itself.
  ghost function KeyNeeded(t: ResourceType, ref: ConsumeRef, r: Resource): string {
    if t == DynamoDB || r.encryption.None? then ""
    else
      var c := r.encryption.value;
      if c.enabled && c.kmsKeyRef == "" then DedicatedKeyLedgerName(t, ref.resource) else c.kmsKeyRef
  }

  ghost predicate EntitledAsOwner(app: App, action: string, resource: string) {
    exists t, name ::
      && Owns(app.spec, t, name) && Find(app.ledger, t, name).Some?
      && Permits(t, Find(app.ledger, t, name).value.arn, true, false, action, resource)
  }

  // By a reference that is shared with the CR: to the resource and its key, but
  // only once the key, if one is needed, is on record too.
  ghost predicate EntitledThrough(apps: Apps, app: App, t: ResourceType, ref: ConsumeRef, action: string, resource: string) {
    exists r, share, arn ::
      && SharedTo(apps, app, t, ref, r, share, arn)
      && var ledger := apps[AppName(ref.namespace, ref.name)].ledger;
      && (KeyNeeded(t, ref, r) == "" || Find(ledger, KMS, KeyNeeded(t, ref, r)).Some?)
      && (|| Permits(t, arn, share.readWrite, true, action, resource)
          || (&& KeyNeeded(t, ref, r) != ""
              && Permits(KMS, Find(ledger, KMS, KeyNeeded(t, ref, r)).value.arn, share.readWrite, false, action, resource)))
  }

  ghost predicate Entitled(apps: Apps, app: App, action: string, resource: string) {
    || EntitledAsOwner(app, action, resource)
    || exists t, ref :: Consumes(app.spec, t, ref) && EntitledThrough(apps, app, t, ref, action, resource)
  }

  // --------------------------------------------------------------- the document

  ghost predicate GrantPermits(g: Grant, action: string, resource: string) {
    Permits(g.rtype, g.arn, g.readWrite, g.consumed, action, resource)
  }

  lemma QueueActions(readWrite: bool, consumed: bool, action: string)
    ensures action in GrantActions(Grant(SQS, "", readWrite, consumed)) <==> Permits(SQS, "", readWrite, consumed, action, "")
  {
  }

  lemma TopicActions(readWrite: bool, consumed: bool, action: string)
    ensures action in GrantActions(Grant(SNS, "", readWrite, consumed)) <==> Permits(SNS, "", readWrite, consumed, action, "")
  {
    assert "sns:GetTopicAttributes" !in NotForConsumers(SNS) by {
      assert "sns:GetTopicAttributes"[4] != "sns:Subscribe"[4] && "sns:GetTopicAttributes"[4] != "sns:Unsubscribe"[4];
    }
    assert "sns:Publish" !in NotForConsumers(SNS) by {
      assert "sns:Publish"[4] != "sns:Subscribe"[4] && "sns:Publish"[4] != "sns:Unsubscribe"[4];
    }
  }

  lemma TableActions(readWrite: bool, consumed: bool, action: string)
    ensures action in GrantActions(Grant(DynamoDB, "", readWrite, consumed)) <==> Permits(DynamoDB, "", readWrite, consumed, action, "")
  {
  }

  lemma KeyActions(readWrite: bool, consumed: bool, action: string)
    ensures action in GrantActions(Grant(KMS, "", readWrite, consumed)) <==> Permits(KMS, "", readWrite, consumed, action, "")
  {
  }

  lemma OneStatement(s: Statement, action: string, resource: string)
    ensures Allows([s], action, resource) <==> action in s.actions && resource in s.resources
  {
    assert s in [s];
  }

  lemma AllowsSplit(a: seq<Statement>, b: seq<Statement>, action: string, resource: string)
    ensures Allows(a + b, action, resource) <==> Allows(a, action, resource) || Allows(b, action, resource)
  {
  }

  lemma BucketStatements(i: nat, g: Grant, action: string, resource: string)
    requires g.rtype == S3
    ensures Allows(StatementsFor(i, g), action, resource) <==> GrantPermits(g, action, resource)
  {
    var ss := StatementsFor(i, g);
    assert ss == [ss[0]] + [ss[1]];
    AllowsSplit([ss[0]], [ss[1]], action, resource);
    OneStatement(ss[0], action, resource);
    OneStatement(ss[1], action, resource);
  }

  lemma StatementsMean(i: nat, g: Grant, action: string, resource: string)
    ensures Allows(StatementsFor(i, g), action, resource) <==> GrantPermits(g, action, resource)
  {
    if g.rtype == S3 {
      BucketStatements(i, g, action, resource);
    } else {
      OneStatement(StatementsFor(i, g)[0], action, resource);
      ActionsMean(g, action, resource);
    }
  }

  lemma ActionsMean(g: Grant, action: string, resource: string)
    requires g.rtype != S3
    ensures action in GrantActions(g) && (resource == g.arn || (g.rtype == DynamoDB && resource == g.arn + "/index/*"))
      <==> GrantPermits(g, action, resource)
  {
    match g.rtype
    case SQS => QueueActions(g.readWrite, g.consumed, action);
    case SNS => TopicActions(g.readWrite, g.consumed, action);
    case DynamoDB => TableActions(g.readWrite, g.consumed, action);
    case KMS => KeyActions(g.readWrite, g.consumed, action);
    case _ =>
  }

  // The document as the statements of each grant, one after the other.
  function Flat(parts: seq<seq<Statement>>): seq<Statement> {
    if parts == [] then [] else Flat(parts[..|parts| - 1]) + parts[|parts| - 1]
  }

  function Parts(grants: seq<Grant>): seq<seq<Statement>> {
    seq(|grants|, i requires 0 <= i < |grants| => StatementsFor(i, grants[i]))
  }

  lemma {:induction false} PolicyIsFlat(grants: seq<Grant>)
    ensures Policy(grants) == Flat(Parts(grants))
  {
    if grants != [] {
      var init := grants[..|grants| - 1];
      PolicyIsFlat(init);
      assert Parts(grants)[..|grants| - 1] == Parts(init);
    }
  }

  lemma {:induction false} FlatMeans(parts: seq<seq<Statement>>, action: string, resource: string)
    ensures Allows(Flat(parts), action, resource) <==> exists i :: 0 <= i < |parts| && Allows(parts[i], action, resource)
  {
    if parts != [] {
      var init, last := parts[..|parts| - 1], parts[|parts| - 1];
      FlatMeans(init, action, resource);
      AllowsSplit(Flat(init), last, action, resource);
      assert forall i :: 0 <= i < |init| ==> init[i] == parts[i];
    }
  }

  // The document allows what some grant permits, and nothing else.
  lemma PolicyMeans(grants: seq<Grant>, action: string, resource: string)
    ensures Allows(Policy(grants), action, resource) <==> exists g :: g in grants && GrantPermits(g, action, resource)
  {
    PolicyIsFlat(grants);
    var parts := Parts(grants);
    FlatMeans(parts, action, resource);
    forall i | 0 <= i < |grants| ensures Allows(parts[i], action, resource) <==> GrantPermits(grants[i], action, resource) {
      StatementsMean(i, grants[i], action, resource);
    }
    PartsMean(grants, parts, action, resource);
  }

  lemma PartsMean(grants: seq<Grant>, parts: seq<seq<Statement>>, action: string, resource: string)
    requires |parts| == |grants|
    requires forall i :: 0 <= i < |grants| ==> (Allows(parts[i], action, resource) <==> GrantPermits(grants[i], action, resource))
    ensures (exists i :: 0 <= i < |parts| && Allows(parts[i], action, resource)) <==>
      exists g :: g in grants && GrantPermits(g, action, resource)
  {
    if g :| g in grants && GrantPermits(g, action, resource) {
      var i :| 0 <= i < |grants| && grants[i] == g;
      assert Allows(parts[i], action, resource);
    }
  }

  // ------------------------------------------- the implementation's lookups

  lemma SectionIs(spec: AppSpec, t: ResourceType, s: Section)
    ensures SectionOf(spec, t) == Some(s) <==> HasSection(spec, t, s)
  {
  }

  lemma MembersAre(spec: AppSpec, t: ResourceType)
    ensures forall r :: Declares(spec, t, r) <==> SectionOf(spec, t).Some? && r in SectionOf(spec, t).value.resources
    ensures forall ref :: Consumes(spec, t, ref) <==> SectionOf(spec, t).Some? && ref in SectionOf(spec, t).value.consumes
  {
    forall s ensures SectionOf(spec, t) == Some(s) <==> HasSection(spec, t, s) {
      SectionIs(spec, t, s);
    }
    if SectionOf(spec, t).Some? {
      assert HasSection(spec, t, SectionOf(spec, t).value);
    }
  }

  lemma DedicatedIs(r: Resource)
    ensures HasDedicatedKey(r) <==> Dedicated(r)
  {
    if HasDedicatedKey(r) {
      assert r.encryption == Some(Encryption(true, r.encryption.value.kmsKeyRef));
    }
  }

  lemma {:induction false} NamedIs(rs: seq<Resource>, name: string, r: Resource)
    ensures Named(rs, name) == Some(r) <==> FirstNamed(rs, name, r)
  {
    if rs != [] {
      var rest := rs[1..];
      NamedIs(rest, name, r);
      if rs[0].name != name {
        if FirstNamed(rest, name, r) {
          var i :| 0 <= i < |rest| && rest[i] == r && r.name == name && forall j :: 0 <= j < i ==> rest[j].name != name;
          assert rs[i + 1] == r && forall j :: 0 <= j < i + 1 ==> rs[j].name != name;
        }
        if FirstNamed(rs, name, r) {
          var i :| 0 <= i < |rs| && rs[i] == r && r.name == name && forall j :: 0 <= j < i ==> rs[j].name != name;
          assert rest[i - 1] == r && forall j :: 0 <= j < i - 1 ==> rest[j].name == rs[j + 1].name;
        }
      }
    }
  }

  lemma ShareIs(shares: seq<Share>, app: App, share: Share)
    ensures SharedWith(shares, app) == Some(share) <==> FirstShare(shares, app, share)
  {
    SharedIsFirst(shares, app);
    if FirstShare(shares, app, share) {
      var i :| 0 <= i < |shares| && shares[i] == share && Names(share, app) && forall j :: 0 <= j < i ==> !Names(shares[j], app);
      var f := SharedWith(shares, app).value;
      var k :| 0 <= k < |shares| && shares[k] == f && Names(f, app) && forall j :: 0 <= j < k ==> !Names(shares[j], app);
      assert i == k;
    }
  }

  lemma {:induction false} SharedIsFirst(shares: seq<Share>, app: App)
    ensures match SharedWith(shares, app)
      case Some(f) => FirstShare(shares, app, f)
      case None => forall i :: 0 <= i < |shares| ==> !Names(shares[i], app)
  {
    if shares != [] && !Names(shares[0], app) {
      var rest := shares[1..];
      SharedIsFirst(rest, app);
      match SharedWith(rest, app)
      case Some(f) =>
        var i :| 0 <= i < |rest| && rest[i] == f && Names(f, app) && forall j :: 0 <= j < i ==> !Names(rest[j], app);
        assert shares[i + 1] == f && forall j :: 0 <= j < i + 1 ==> !Names(shares[j], app);
      case None =>
        assert forall i :: 1 <= i < |shares| ==> shares[i] == rest[i - 1];
    }
  }

  // What the implementation looks up is what is shared.
  lemma SharedIs(apps: Apps, app: App, t: ResourceType, ref: ConsumeRef, r: Resource, share: Share, arn: string)
    ensures SharedTo(apps, app, t, ref, r, share, arn) <==>
      var key := AppName(ref.namespace, ref.name);
      && key in apps && ProducerResource(apps[key], t, ref.resource) == Some(r)
      && SharedWith(r.shared, app) == Some(share)
      && Find(apps[key].ledger, t, ref.resource).Some? && arn == Find(apps[key].ledger, t, ref.resource).value.arn
  {
    var key := AppName(ref.namespace, ref.name);
    ShareIs(r.shared, app, share);
    if key in apps {
      forall s ensures SectionOf(apps[key].spec, t) == Some(s) <==> HasSection(apps[key].spec, t, s) {
        SectionIs(apps[key].spec, t, s);
      }
      if SectionOf(apps[key].spec, t).Some? {
        var s := SectionOf(apps[key].spec, t).value;
        assert HasSection(apps[key].spec, t, s);
        NamedIs(s.resources, ref.resource, r);
      }
    }
  }

  // --------------------------------------------------------------- the grants

  function Resolve(apps: Apps, app: App, need: Need): Resolution {
    if need.Own? then ResolveOwned(app, need.rtype, need.name) else ResolveConsume(apps, app, need.rtype, need.ref)
  }

  ghost predicate Yields(apps: Apps, app: App, need: Need, g: Grant) {
    Resolve(apps, app, need).Granted? && g in Resolve(apps, app, need).grants
  }

  lemma {:induction false} GatheredMeans(apps: Apps, app: App, start: Gathered, needs: seq<Need>, g: Grant)
    requires GatherAll(apps, app, start, needs).ok
    ensures start.ok
    ensures g in GatherAll(apps, app, start, needs).grants <==> g in start.grants || exists need :: need in needs && Yields(apps, app, need, g)
  {
    if needs != [] {
      var init, last := needs[..|needs| - 1], needs[|needs| - 1];
      GatheredMeans(apps, app, start, init, g);
      assert needs == init + [last];
      assert g in GatherAll(apps, app, start, needs).grants <==>
        g in GatherAll(apps, app, start, init).grants || Yields(apps, app, last, g);
    }
  }

  lemma {:induction false} OwnNeedsMembers(t: ResourceType, rs: seq<Resource>, need: Need)
    ensures need in OwnNeeds(t, rs) <==>
      exists r :: r in rs && (need == Own(t, r.name) || (Dedicated(r) && need == Own(KMS, DedicatedKeyLedgerName(t, r.name))))
  {
    if rs != [] {
      DedicatedIs(rs[|rs| - 1]);
      OwnNeedsMembers(t, rs[..|rs| - 1], need);
      assert rs == rs[..|rs| - 1] + [rs[|rs| - 1]];
    }
  }

  lemma SectionNeedsMembers(spec: AppSpec, t: ResourceType, need: Need)
    ensures need in SectionNeeds(spec, t) <==>
      || (exists r :: Declares(spec, t, r) && (need == Own(t, r.name) || (Dedicated(r) && need == Own(KMS, DedicatedKeyLedgerName(t, r.name)))))
      || (need.Consume? && need.rtype == t && Consumes(spec, t, need.ref))
  {
    var s := SectionOf(spec, t);
    MembersAre(spec, t);
    if s.Some? {
      OwnNeedsMembers(t, s.value.resources, need);
      var consumed := ConsumeNeeds(t, s.value.consumes);
      assert need in consumed <==> need.Consume? && need.rtype == t && need.ref in s.value.consumes by {
        if need.Consume? && need.rtype == t && need.ref in s.value.consumes {
          var i :| 0 <= i < |s.value.consumes| && s.value.consumes[i] == need.ref;
          assert consumed[i] == need;
        }
      }
    }
  }

  lemma {:induction false} NeedsUptoMembers(spec: AppSpec, k: nat, need: Need)
    requires k <= |GRANT_TYPES|
    ensures need in NeedsUpto(spec, k) <==> exists j :: 0 <= j < k && need in SectionNeeds(spec, GRANT_TYPES[j])
  {
    if k > 0 {
      NeedsUptoMembers(spec, k - 1, need);
    }
  }

  lemma KeyNeedsMembers(names: seq<string>, need: Need)
    ensures need in KeyNeeds(names) <==> need.Own? && need.rtype == KMS && need.name in names
  {
    if need.Own? && need.rtype == KMS && need.name in names {
      var i :| 0 <= i < |names| && names[i] == need.name;
      assert KeyNeeds(names)[i] == need;
    }
  }

  lemma OnlyTheseSections(spec: AppSpec, t: ResourceType)
    requires SectionOf(spec, t).Some?
    ensures exists j :: 0 <= j < |GRANT_TYPES| && GRANT_TYPES[j] == t
  {
    assert GRANT_TYPES[0] == SQS && GRANT_TYPES[1] == SNS && GRANT_TYPES[2] == DynamoDB && GRANT_TYPES[3] == S3;
  }

  lemma AllNeedsMembers(spec: AppSpec, need: Need)
    ensures need in AllNeeds(spec) <==>
      if need.Own? then Owns(spec, need.rtype, need.name) else Consumes(spec, need.rtype, need.ref)
  {
    NeedsUptoMembers(spec, |GRANT_TYPES|, need);
    KeyNeedsMembers(if spec.kms.Some? then spec.kms.value else [], need);
    if j :| 0 <= j < |GRANT_TYPES| && need in SectionNeeds(spec, GRANT_TYPES[j]) {
      SectionNeedsMembers(spec, GRANT_TYPES[j], need);
      assert InSection(spec, GRANT_TYPES[j], need);
    }
    if t :| InSection(spec, t, need) {
      SectionNeedsMembers(spec, t, need);
      MembersAre(spec, t);
      OnlyTheseSections(spec, t);
      var j :| 0 <= j < |GRANT_TYPES| && GRANT_TYPES[j] == t;
      assert need in SectionNeeds(spec, GRANT_TYPES[j]);
    }
    assert need in NeedsUpto(spec, |GRANT_TYPES|) <==> exists t :: InSection(spec, t, need);
    NeededIff(spec, need);
  }

  lemma NeededIff(spec: AppSpec, need: Need)
    ensures (exists t :: InSection(spec, t, need)) || (spec.kms.Some? && need.Own? && need.rtype == KMS && need.name in spec.kms.value) <==>
      if need.Own? then Owns(spec, need.rtype, need.name) else Consumes(spec, need.rtype, need.ref)
  {
    if need.Consume? && Consumes(spec, need.rtype, need.ref) {
      assert InSection(spec, need.rtype, need);
    }
    if need.Own? && Owns(spec, need.rtype, need.name) {
      if r :| Declares(spec, need.rtype, r) && r.name == need.name {
        assert InSection(spec, need.rtype, need);
      } else if need.rtype == KMS && !(spec.kms.Some? && need.name in spec.kms.value) {
        var t', r :| Declares(spec, t', r) && Dedicated(r) && need.name == DedicatedKeyLedgerName(t', r.name);
        assert InSection(spec, t', need);
      }
    }
    if t :| InSection(spec, t, need) {
      if need.Own? {
        var r :| Declares(spec, t, r) && (need == Own(t, r.name) || (Dedicated(r) && need == Own(KMS, DedicatedKeyLedgerName(t, r.name))));
        assert Owns(spec, need.rtype, need.name);
      }
    }
  }

  ghost predicate InSection(spec: AppSpec, t: ResourceType, need: Need) {
    || (exists r :: Declares(spec, t, r) && (need == Own(t, r.name) || (Dedicated(r) && need == Own(KMS, DedicatedKeyLedgerName(t, r.name)))))
    || (need.Consume? && need.rtype == t && Consumes(spec, t, need.ref))
  }

  // ------------------------------------------------------------------- laws

  lemma OwnedMeans(apps: Apps, app: App, t: ResourceType, name: string, action: string, resource: string)
    ensures (exists g :: Yields(apps, app, Own(t, name), g) && GrantPermits(g, action, resource)) <==>
      Find(app.ledger, t, name).Some? && Permits(t, Find(app.ledger, t, name).value.arn, true, false, action, resource)
  {
    if Find(app.ledger, t, name).Some? {
      var g := Grant(t, Find(app.ledger, t, name).value.arn, true, false);
      assert Resolve(apps, app, Own(t, name)) == Granted([g]);
      assert forall x :: Yields(apps, app, Own(t, name), x) <==> x == g;
      assert GrantPermits(g, action, resource) <==> Permits(t, g.arn, true, false, action, resource);
      assert Yields(apps, app, Own(t, name), g);
    }
  }

  // A reference yields its resource and, where one is needed, its key, or
  // nothing at all.
  lemma WithItsKeyOrNotAtAll(apps: Apps, app: App, t: ResourceType, ref: ConsumeRef)
    ensures var r := ResolveConsume(apps, app, t, ref);
      r.Granted? ==>
        exists res, share, arn :: SharedTo(apps, app, t, ref, res, share, arn) &&
          var key := KeyNeeded(t, ref, res);
          var found := Find(apps[AppName(ref.namespace, ref.name)].ledger, KMS, key);
          if key == "" then r.grants == [Grant(t, arn, share.readWrite, true)]
          else found.Some? && r.grants == [Grant(t, arn, share.readWrite, true), Grant(KMS, found.value.arn, share.readWrite, false)]
    ensures var r := ResolveConsume(apps, app, t, ref);
      r.Skipped? ==> forall res, share, arn :: SharedTo(apps, app, t, ref, res, share, arn) ==>
        KeyNeeded(t, ref, res) != "" && Find(apps[AppName(ref.namespace, ref.name)].ledger, KMS, KeyNeeded(t, ref, res)).None?
  {
    var key := AppName(ref.namespace, ref.name);
    if ResolveConsume(apps, app, t, ref).Granted? {
      var res := ProducerResource(apps[key], t, ref.resource).value;
      var share, arn := SharedWith(res.shared, app).value, Find(apps[key].ledger, t, ref.resource).value.arn;
      SharedIs(apps, app, t, ref, res, share, arn);
      assert SharedTo(apps, app, t, ref, res, share, arn);
    } else {
      forall res, share, arn | SharedTo(apps, app, t, ref, res, share, arn)
        ensures KeyNeeded(t, ref, res) != "" && Find(apps[key].ledger, KMS, KeyNeeded(t, ref, res)).None?
      {
        SharedIs(apps, app, t, ref, res, share, arn);
      }
    }
  }

  lemma ConsumedMeans(apps: Apps, app: App, t: ResourceType, ref: ConsumeRef, action: string, resource: string)
    ensures (exists g :: Yields(apps, app, Consume(t, ref), g) && GrantPermits(g, action, resource)) <==>
      EntitledThrough(apps, app, t, ref, action, resource)
  {
    WithItsKeyOrNotAtAll(apps, app, t, ref);
    var r := ResolveConsume(apps, app, t, ref);
    if r.Granted? {
      var res, share, arn :| SharedTo(apps, app, t, ref, res, share, arn) &&
        var key := KeyNeeded(t, ref, res);
        var found := Find(apps[AppName(ref.namespace, ref.name)].ledger, KMS, key);
        if key == "" then r.grants == [Grant(t, arn, share.readWrite, true)]
        else found.Some? && r.grants == [Grant(t, arn, share.readWrite, true), Grant(KMS, found.value.arn, share.readWrite, false)];
      GrantedMeans(apps, app, t, ref, res, share, arn, r.grants, action, resource);
    }
  }

  lemma GrantedMeans(apps: Apps, app: App, t: ResourceType, ref: ConsumeRef, res: Resource, share: Share, arn: string,
                     grants: seq<Grant>, action: string, resource: string)
    requires SharedTo(apps, app, t, ref, res, share, arn) && ResolveConsume(apps, app, t, ref) == Granted(grants)
    requires var key := KeyNeeded(t, ref, res);
      var found := Find(apps[AppName(ref.namespace, ref.name)].ledger, KMS, key);
      if key == "" then grants == [Grant(t, arn, share.readWrite, true)]
      else found.Some? && grants == [Grant(t, arn, share.readWrite, true), Grant(KMS, found.value.arn, share.readWrite, false)]
    ensures (exists g :: Yields(apps, app, Consume(t, ref), g) && GrantPermits(g, action, resource)) <==>
      EntitledThrough(apps, app, t, ref, action, resource)
  {
    var need := Consume(t, ref);
    assert forall g :: Yields(apps, app, need, g) <==> g == grants[0] || g == grants[|grants| - 1];
    if EntitledThrough(apps, app, t, ref, action, resource) {
      assert GrantPermits(grants[0], action, resource) || GrantPermits(grants[|grants| - 1], action, resource);
    }
    if GrantPermits(grants[0], action, resource) || GrantPermits(grants[|grants| - 1], action, resource) {
      assert EntitledThrough(apps, app, t, ref, action, resource);
    }
  }

  // The law of derivation: unless a read failed, the policy allows exactly what
  // the CR is entitled to as an owner or through what others share with it.
  lemma PolicyIsExact(apps: Apps, app: App, faults: seq<Fault>, action: string, resource: string)
    requires Collected(apps, app, faults).ok
    ensures Allows(Policy(Collected(apps, app, faults).grants), action, resource) <==> Entitled(apps, app, action, resource)
  {
    var grants := Collected(apps, app, faults).grants;
    PolicyMeans(grants, action, resource);
    forall g ensures g in grants <==> exists need :: need in AllNeeds(app.spec) && Yields(apps, app, need, g) {
      GatheredMeans(apps, app, Gathered(faults, [], [], true), AllNeeds(app.spec), g);
    }
    forall need ensures need in AllNeeds(app.spec) <==>
      if need.Own? then Owns(app.spec, need.rtype, need.name) else Consumes(app.spec, need.rtype, need.ref)
    {
      AllNeedsMembers(app.spec, need);
    }
    forall t, name ensures (exists g :: Yields(apps, app, Own(t, name), g) && GrantPermits(g, action, resource)) <==>
      Find(app.ledger, t, name).Some? && Permits(t, Find(app.ledger, t, name).value.arn, true, false, action, resource)
    {
      OwnedMeans(apps, app, t, name, action, resource);
    }
    forall t, ref ensures (exists g :: Yields(apps, app, Consume(t, ref), g) && GrantPermits(g, action, resource)) <==>
      EntitledThrough(apps, app, t, ref, action, resource)
    {
      ConsumedMeans(apps, app, t, ref, action, resource);
    }
  }

  // Nobody gets to subscribe or unsubscribe through what another CR shares:
  // where the policy allows it, the CR owns the topic.
  lemma NoConsumerSubscribes(t: ResourceType, arn: string, readWrite: bool, action: string, resource: string)
    requires action in {"sns:Subscribe", "sns:Unsubscribe"}
    ensures !Permits(t, arn, readWrite, true, action, resource) && !Permits(KMS, arn, readWrite, false, action, resource)
  {
    assert action[1] == 'n' && action[0] == 's' && action[4] in {'S', 'U'};
  }

  lemma SubscribeNeedsOwnership(apps: Apps, app: App, faults: seq<Fault>, action: string, resource: string)
    requires Collected(apps, app, faults).ok && action in {"sns:Subscribe", "sns:Unsubscribe"}
    requires Allows(Policy(Collected(apps, app, faults).grants), action, resource)
    ensures EntitledAsOwner(app, action, resource)
  {
    PolicyIsExact(apps, app, faults, action, resource);
    forall t, ref ensures !EntitledThrough(apps, app, t, ref, action, resource) {
      NotThrough(apps, app, t, ref, action, resource);
    }
  }

  lemma NotThrough(apps: Apps, app: App, t: ResourceType, ref: ConsumeRef, action: string, resource: string)
    requires action in {"sns:Subscribe", "sns:Unsubscribe"}
    ensures !EntitledThrough(apps, app, t, ref, action, resource)
  {
    forall t', arn, rw ensures !Permits(t', arn, rw, true, action, resource) && !Permits(KMS, arn, rw, false, action, resource) {
      NoConsumerSubscribes(t', arn, rw, action, resource);
    }
  }

  // With every read answered there is a policy.
  lemma {:induction false} AnsweredReadsSucceed(apps: Apps, app: App, g: Gathered, needs: seq<Need>)
    requires g.ok && g.faults == []
    ensures GatherAll(apps, app, g, needs).ok && GatherAll(apps, app, g, needs).faults == []
  {
    if needs != [] {
      AnsweredReadsSucceed(apps, app, g, needs[..|needs| - 1]);
    }
  }

  // The producer declares such a resource; and shares it with the CR.
  ghost predicate Declared(apps: Apps, t: ResourceType, ref: ConsumeRef, r: Resource) {
    var key := AppName(ref.namespace, ref.name);
    key in apps && exists s :: HasSection(apps[key].spec, t, s) && FirstNamed(s.resources, ref.resource, r)
  }

  // Why a reference yields nothing, exactly: no such CR, no such resource, not
  // shared, not on record, or its key not on record.
  lemma WhySkipped(apps: Apps, app: App, t: ResourceType, ref: ConsumeRef)
    ensures var skip := ResolveConsume(apps, app, t, ref);
      var key := AppName(ref.namespace, ref.name);
      && (skip == Skipped(ProducerNotFound(ref)) <==> key !in apps)
      && (skip == Skipped(NotDeclared(ref)) <==> key in apps && forall r :: !Declared(apps, t, ref, r))
      && (skip == Skipped(NotAuthorized(ref)) <==> exists r :: Declared(apps, t, ref, r) && forall share :: share in r.shared ==> !Names(share, app))
      && (skip == Skipped(NotReconciled(ref)) <==>
            && Find(if key in apps then apps[key].ledger else [], t, ref.resource).None?
            && exists r, share :: Declared(apps, t, ref, r) && FirstShare(r.shared, app, share))
  {
    var key := AppName(ref.namespace, ref.name);
    if key in apps {
      forall r ensures Declared(apps, t, ref, r) <==> ProducerResource(apps[key], t, ref.resource) == Some(r) {
        DeclaredIs(apps, t, ref, r);
      }
      if ProducerResource(apps[key], t, ref.resource).Some? {
        var r := ProducerResource(apps[key], t, ref.resource).value;
        assert Declared(apps, t, ref, r);
        SharedIsFirst(r.shared, app);
        forall share ensures SharedWith(r.shared, app) == Some(share) <==> FirstShare(r.shared, app, share) {
          ShareIs(r.shared, app, share);
        }
      }
    }
  }

  lemma DeclaredIs(apps: Apps, t: ResourceType, ref: ConsumeRef, r: Resource)
    requires AppName(ref.namespace, ref.name) in apps
    ensures Declared(apps, t, ref, r) <==> ProducerResource(apps[AppName(ref.namespace, ref.name)], t, ref.resource) == Some(r)
  {
    var spec := apps[AppName(ref.namespace, ref.name)].spec;
    forall s ensures SectionOf(spec, t) == Some(s) <==> HasSection(spec, t, s) {
      SectionIs(spec, t, s);
    }
    if SectionOf(spec, t).Some? {
      var s := SectionOf(spec, t).value;
      assert HasSection(spec, t, s);
      NamedIs(s.resources, ref.resource, r);
    }
  }

  // A failed read leaves no grants to build a policy from.
  lemma {:induction false} FailedReadGrantsNothing(apps: Apps, app: App, g: Gathered, needs: seq<Need>)
    requires g.ok && !GatherAll(apps, app, g, needs).ok
    ensures GatherAll(apps, app, g, needs).grants == []
  {
    var init := needs[..|needs| - 1];
    if !GatherAll(apps, app, g, init).ok {
      FailedReadGrantsNothing(apps, app, g, init);
    }
  }

  // --------------------------------------------------------------------- Sids

  // Every statement is labelled with the index of its grant.
  ghost predicate Labelled(s: Statement, tag: string, i: nat) {
    s.sid == tag + Decimal(i) && tag != "" && !IsDigit(tag[|tag| - 1])
  }

  lemma StatementLabels(i: nat, g: Grant)
    ensures var ss := StatementsFor(i, g);
      if g.rtype == S3 then Labelled(ss[0], "s3Bucket", i) && Labelled(ss[1], "s3Object", i) else Labelled(ss[0], g.rtype.Text(), i)
  {
  }

  lemma {:induction false} SidsOfIndex(grants: seq<Grant>, k: nat)
    requires k < |Policy(grants)|
    ensures exists i: nat, tag :: i < |grants| && Labelled(Policy(grants)[k], tag, i)
  {
    var init, last := grants[..|grants| - 1], grants[|grants| - 1];
    var n := |Policy(init)|;
    if k < n {
      SidsOfIndex(init, k);
      var i: nat, tag :| i < |init| && Labelled(Policy(init)[k], tag, i);
      assert Labelled(Policy(grants)[k], tag, i);
    } else {
      StatementLabels(|grants| - 1, last);
      assert Policy(grants)[k] == StatementsFor(|grants| - 1, last)[k - n];
    }
  }

  lemma {:induction false} SidsAreDistinct(grants: seq<Grant>, j: nat, k: nat)
    requires j < k < |Policy(grants)|
    ensures Policy(grants)[j].sid != Policy(grants)[k].sid
  {
    var init, last := grants[..|grants| - 1], grants[|grants| - 1];
    var n := |Policy(init)|;
    if k < n {
      SidsAreDistinct(init, j, k);
    } else {
      StatementLabels(|grants| - 1, last);
      assert Policy(grants)[k] == StatementsFor(|grants| - 1, last)[k - n];
      if j < n {
        SidsOfIndex(init, j);
        var i: nat, tag :| i < |init| && Labelled(Policy(init)[j], tag, i);
        DifferentIndex(Policy(grants)[j], tag, i, Policy(grants)[k], last, |grants| - 1, k - n);
      } else {
        assert Policy(grants)[j] == StatementsFor(|grants| - 1, last)[j - n];
        SameIndex(|grants| - 1, last);
      }
    }
  }

  lemma SameIndex(i: nat, g: Grant)
    ensures var ss := StatementsFor(i, g); |ss| <= 2 && (|ss| == 2 ==> ss[0].sid != ss[1].sid)
  {
    var ss := StatementsFor(i, g);
    if g.rtype == S3 {
      assert ss[0].sid[2] == "s3Bucket"[2] && ss[1].sid[2] == "s3Object"[2];
    }
  }

  lemma DifferentIndex(a: Statement, tag: string, i: nat, b: Statement, g: Grant, m: nat, at: nat)
    requires Labelled(a, tag, i) && i != m && at < |StatementsFor(m, g)| && b == StatementsFor(m, g)[at]
    ensures a.sid != b.sid
  {
    StatementLabels(m, g);
    var other := if g.rtype != S3 then g.rtype.Text() else if at == 0 then "s3Bucket" else "s3Object";
    if a.sid == b.sid {
      LabelledNumberInjective(tag, i, other, m);
    }
  }
}
