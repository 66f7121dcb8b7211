/**
 Key policies as JSON values. The operator's own statements are merged in by
 Sid; everything else in the document is kept.
 */
module PolicyMerge {
  import opened Ledger
  import opened Sorting

  datatype Json =
    | Null
    | Bool(b: bool)
    | Number(n: real)
    | Text(s: string)
    | List(items: seq<Json>)
    | Object(fields: map<string, Json>)

  // --------------------------------------------------------- equal statements

  // A one-element list counts as its element.
  function CollapseSingletons(v: Json): Json {
    match v
    case Object(fields) => Object(map k | k in fields :: CollapseSingletons(fields[k]))
    case List(items) =>
      if |items| == 1 then CollapseSingletons(items[0])
      else List(seq(|items|, i requires 0 <= i < |items| => CollapseSingletons(items[i])))
    case _ => v
  }

  predicate Equivalent(a: Json, b: Json) {
    CollapseSingletons(a) == CollapseSingletons(b)
  }

  // No list inside has exactly one element.
  ghost predicate Collapsed(v: Json) {
    match v
    case Object(fields) => forall k :: k in fields ==> Collapsed(fields[k])
    case List(items) => |items| != 1 && forall i :: 0 <= i < |items| ==> Collapsed(items[i])
    case _ => true
  }

  lemma {:induction false} CollapseCollapses(v: Json)
    ensures Collapsed(CollapseSingletons(v))
  {
    match v
    case Object(fields) =>
      forall k | k in fields ensures Collapsed(CollapseSingletons(fields[k])) {
        CollapseCollapses(fields[k]);
      }
    case List(items) =>
      forall i | 0 <= i < |items| ensures Collapsed(CollapseSingletons(items[i])) {
        CollapseCollapses(items[i]);
      }
    case _ =>
  }

  lemma {:induction false} CollapsedIsFixed(v: Json)
    ensures Collapsed(v) ==> CollapseSingletons(v) == v
  {
    if Collapsed(v) {
      match v
      case Object(fields) =>
        forall k | k in fields ensures CollapseSingletons(fields[k]) == fields[k] {
          CollapsedIsFixed(fields[k]);
        }
      case List(items) =>
        forall i | 0 <= i < |items| ensures CollapseSingletons(items[i]) == items[i] {
          CollapsedIsFixed(items[i]);
        }
      case _ =>
    }
  }

  // Collapsing twice is collapsing once, and each value is equivalent to exactly
  // one value without one-element lists.
  lemma CollapseIsCanonical(v: Json)
    ensures CollapseSingletons(CollapseSingletons(v)) == CollapseSingletons(v)
    ensures Collapsed(CollapseSingletons(v)) && Equivalent(CollapseSingletons(v), v)
    ensures forall x :: Collapsed(x) && Equivalent(x, v) ==> x == CollapseSingletons(v)
  {
    CollapseCollapses(v);
    CollapsedIsFixed(CollapseSingletons(v));
    forall x | Collapsed(x) && Equivalent(x, v) ensures x == CollapseSingletons(v) {
      CollapsedIsFixed(x);
    }
  }

  // Equivalence is an equivalence relation, does not tell a list of one from its
  // element, and is kept by lists and objects.
  lemma EquivalenceLaws(a: Json, b: Json, c: Json)
    ensures Equivalent(a, a) && (Equivalent(a, b) ==> Equivalent(b, a))
    ensures Equivalent(a, b) && Equivalent(b, c) ==> Equivalent(a, c)
    ensures Equivalent(List([a]), a)
  {
  }

  lemma EquivalentInside(xs: seq<Json>, ys: seq<Json>, m: map<string, Json>, k: string, v: Json)
    requires |xs| == |ys| && forall i :: 0 <= i < |xs| ==> Equivalent(xs[i], ys[i])
    requires k in m && Equivalent(m[k], v)
    ensures Equivalent(List(xs), List(ys))
    ensures Equivalent(Object(m), Object(m[k := v]))
  {
    if |xs| != 1 {
      assert CollapseSingletons(List(xs)).items == CollapseSingletons(List(ys)).items;
    }
    assert CollapseSingletons(Object(m)).fields == CollapseSingletons(Object(m[k := v])).fields;
  }

  // ----------------------------------------------------- statements by their Sid

  // A statement that is no object, or whose Sid is no string, has none.
  function SidOf(statement: Json): string {
    if statement.Object? && "Sid" in statement.fields && statement.fields["Sid"].Text? then statement.fields["Sid"].s else ""
  }

  function First(ss: seq<Json>, sid: string): Option<Json> {
    if ss == [] then None else if SidOf(ss[0]) == sid then Some(ss[0]) else First(ss[1..], sid)
  }

  function Upserted(ss: seq<Json>, sid: string, stmt: Json): (seq<Json>, bool) {
    if ss == [] then ([stmt], true)
    else if SidOf(ss[0]) == sid then
      if Equivalent(ss[0], stmt) then (ss, false) else ([stmt] + ss[1..], true)
    else
      var (rest, changed) := Upserted(ss[1..], sid, stmt);
      ([ss[0]] + rest, changed)
  }

  function Removed(ss: seq<Json>, sid: string): seq<Json> {
    if ss == [] then []
    else if SidOf(ss[0]) == sid then Removed(ss[1..], sid)
    else [ss[0]] + Removed(ss[1..], sid)
  }

  method UpsertStatement(ss: seq<Json>, sid: string, stmt: Json) returns (out: seq<Json>, changed: bool)
    ensures (out, changed) == Upserted(ss, sid, stmt)
  {
    for i := 0 to |ss|
      invariant forall j :: 0 <= j < i ==> SidOf(ss[j]) != sid
    {
      if SidOf(ss[i]) != sid {
        continue;
      }
      UpsertedSkips(ss, sid, stmt, i);
      if Equivalent(ss[i], stmt) {
        return ss, false;
      }
      return ss[i := stmt], true;
    }
    UpsertedSkips(ss, sid, stmt, |ss|);
    return ss + [stmt], true;
  }

  // With the first i statements under other Sids, the update is at i.
  lemma {:induction false} UpsertedSkips(ss: seq<Json>, sid: string, stmt: Json, i: nat)
    requires i <= |ss| && forall j :: 0 <= j < i ==> SidOf(ss[j]) != sid
    requires i < |ss| ==> SidOf(ss[i]) == sid
    ensures Upserted(ss, sid, stmt) ==
      if i == |ss| then (ss + [stmt], true) else if Equivalent(ss[i], stmt) then (ss, false) else (ss[i := stmt], true)
  {
    if i == 0 {
      if ss == [] {
        assert ss + [stmt] == [stmt];
      } else {
        assert ss[0 := stmt] == [stmt] + ss[1..];
      }
    } else {
      UpsertedSkips(ss[1..], sid, stmt, i - 1);
      assert ss == [ss[0]] + ss[1..];
      if i < |ss| {
        assert ss[i := stmt] == [ss[0]] + ss[1..][i - 1 := stmt];
      } else {
        assert ss + [stmt] == [ss[0]] + (ss[1..] + [stmt]);
      }
    }
  }

  method RemoveStatement(ss: seq<Json>, sid: string) returns (kept: seq<Json>, changed: bool)
    ensures kept == Removed(ss, sid) && changed == (kept != ss)
  {
    kept := [];
    for i := 0 to |ss|
      invariant kept + Removed(ss[i..], sid) == Removed(ss, sid)
      invariant |kept| <= i && (|kept| == i ==> kept == ss[..i])
    {
      assert ss[i..][1..] == ss[i + 1..];
      if SidOf(ss[i]) != sid {
        assert kept + ([ss[i]] + Removed(ss[i + 1..], sid)) == (kept + [ss[i]]) + Removed(ss[i + 1..], sid);
        kept := kept + [ss[i]];
      }
    }
    assert ss[..|ss|] == ss;
    changed := |kept| != |ss|;
  }

  lemma {:induction false} UpsertedFirst(ss: seq<Json>, sid: string, stmt: Json, other: string)
    requires SidOf(stmt) == sid
    ensures var (out, changed) := Upserted(ss, sid, stmt);
      && First(out, sid).Some? && Equivalent(First(out, sid).value, stmt)
      && (other != sid ==> First(out, other) == First(ss, other))
      && (!changed <==> First(ss, sid).Some? && Equivalent(First(ss, sid).value, stmt))
      && (!changed ==> out == ss)
  {
    if ss != [] && SidOf(ss[0]) != sid {
      UpsertedFirst(ss[1..], sid, stmt, other);
      var rest := Upserted(ss[1..], sid, stmt).0;
      assert ([ss[0]] + rest)[1..] == rest;
    } else if ss != [] {
      assert ([stmt] + ss[1..])[1..] == ss[1..];
    }
  }

  lemma {:induction false} RemovedFirst(ss: seq<Json>, sid: string, other: string)
    ensures First(Removed(ss, sid), sid).None?
    ensures other != sid ==> First(Removed(ss, sid), other) == First(ss, other)
    ensures Removed(ss, sid) == ss <==> First(ss, sid).None?
  {
    if ss != [] {
      RemovedFirst(ss[1..], sid, other);
      var rest := Removed(ss[1..], sid);
      RemovedShorter(ss[1..], sid);
      if SidOf(ss[0]) != sid {
        assert ([ss[0]] + rest)[1..] == rest;
      }
    }
  }

  lemma {:induction false} RemovedShorter(ss: seq<Json>, sid: string)
    ensures |Removed(ss, sid)| <= |ss|
  {
    if ss != [] {
      RemovedShorter(ss[1..], sid);
    }
  }

  // ---------------------------------------------------- the operator's statements

  const SNS_DELIVERY := "cloudctl-sns-delivery"
  const CLOUDWATCH_ALARMS := "cloudctl-cloudwatch-alarms"
  const OWN_SIDS: seq<string> := [SNS_DELIVERY, CLOUDWATCH_ALARMS]

  datatype Grants = Grants(topics: seq<string>, alarms: seq<string>)

  function Texts(ss: seq<string>): seq<Json> {
    seq(|ss|, i requires 0 <= i < |ss| => Text(ss[i]))
  }

  function ServiceStatement(sid: string, service: string, account: string, sources: seq<string>): (r: Json)
    ensures SidOf(r) == sid
  {
    Object(map[
      "Sid" := Text(sid),
      "Effect" := Text("Allow"),
      "Principal" := Object(map["Service" := Text(service)]),
      "Action" := List([Text("kms:GenerateDataKey*"), Text("kms:Decrypt")]),
      "Resource" := Text("*"),
      "Condition" := Object(map[
        "StringEquals" := Object(map["aws:SourceAccount" := Text(account)]),
        "ArnEquals" := Object(map["aws:SourceArn" := List(Texts(SortedSet(sources)))])])])
  }

  // The statement wanted under a Sid; none where there is nothing to act for.
  function Wanted(account: string, g: Grants, sid: string): (r: Option<Json>)
    ensures r.Some? ==> SidOf(r.value) == sid
  {
    if sid == SNS_DELIVERY && g.topics != [] then Some(ServiceStatement(sid, "sns.amazonaws.com", account, g.topics))
    else if sid == CLOUDWATCH_ALARMS && g.alarms != [] then Some(ServiceStatement(sid, "cloudwatch.amazonaws.com", account, g.alarms))
    else None
  }

  function Synced(ss: seq<Json>, sid: string, wanted: Option<Json>): (seq<Json>, bool) {
    match wanted
    case Some(stmt) => Upserted(ss, sid, stmt)
    case None => (Removed(ss, sid), Removed(ss, sid) != ss)
  }

  // Both Sids in turn.
  function SyncedAll(ss: seq<Json>, account: string, g: Grants): (seq<Json>, bool) {
    var (s1, c1) := Synced(ss, SNS_DELIVERY, Wanted(account, g, SNS_DELIVERY));
    var (s2, c2) := Synced(s1, CLOUDWATCH_ALARMS, Wanted(account, g, CLOUDWATCH_ALARMS));
    (s2, c1 || c2)
  }

  // ---------------------------------------------------------------- the document

  datatype Policy = Empty | Malformed | Document(fields: map<string, Json>)

  // One object or a list; absent and null count as none.
  function StatementList(fields: map<string, Json>): seq<Json> {
    if "Statement" !in fields || fields["Statement"].Null? then []
    else if fields["Statement"].List? then fields["Statement"].items
    else [fields["Statement"]]
  }

  function RootStatement(account: string): (r: Json)
    ensures SidOf(r) == "Enable IAM User Permissions"
  {
    Object(map[
      "Sid" := Text("Enable IAM User Permissions"),
      "Effect" := Text("Allow"),
      "Principal" := Object(map["AWS" := Text("arn:aws:iam::" + account + ":root")]),
      "Action" := Text("kms:*"),
      "Resource" := Text("*")])
  }

  datatype Merge = Merge(policy: Policy, changed: bool) | Failed

  // The document's fields, its statements, and whether the root statement was added.
  function Opened(p: Policy, account: string): (map<string, Json>, seq<Json>, bool)
    requires !p.Malformed?
  {
    if p.Empty? then (map["Version" := Text("2012-10-17")], [RootStatement(account)], true)
    else (p.fields, StatementList(p.fields), false)
  }

  function Merged(p: Policy, account: string, grants: Option<Grants>): Merge {
    if p.Malformed? then Failed
    else
      var (fields, ss, added) := Opened(p, account);
      var (ss', synced) := if grants.Some? then SyncedAll(ss, account, grants.value) else (ss, false);
      if !(added || synced) then Merge(p, false) else Merge(Document(fields["Statement" := List(ss')]), true)
  }

  method MergeKeyPolicy(p: Policy, account: string, grants: Option<Grants>) returns (m: Merge)
    ensures m == Merged(p, account, grants)
    ensures !p.Malformed? && grants.Some? ==>
      && m.Merge?
      && Says(m.policy, "cloudctl-sns-delivery", "sns.amazonaws.com", account, grants.value.topics)
      && Says(m.policy, "cloudctl-cloudwatch-alarms", "cloudwatch.amazonaws.com", account, grants.value.alarms)
  {
    if p.Malformed? {
      return Failed;
    }
    if grants.Some? {
      MergedLetsServices(p, account, grants.value);
    }
    var fields: map<string, Json> := map[];
    if p.Document? {
      fields := p.fields;
    }
    var statements, changed := StatementList(fields), false;
    if p.Empty? {
      fields := fields["Version" := Text("2012-10-17")];
      statements := statements + [RootStatement(account)];
      changed := true;
      assert fields == map["Version" := Text("2012-10-17")] && statements == [RootStatement(account)];
    }
    assert (fields, statements, changed) == Opened(p, account);
    if grants.Some? {
      ghost var ss, added := statements, changed;
      for i := 0 to |OWN_SIDS|
        invariant i == 0 ==> statements == ss && changed == added
        invariant i == 1 ==>
          var (s1, c1) := Synced(ss, SNS_DELIVERY, Wanted(account, grants.value, SNS_DELIVERY));
          statements == s1 && changed == (added || c1)
        invariant i == 2 ==> statements == SyncedAll(ss, account, grants.value).0 && changed == (added || SyncedAll(ss, account, grants.value).1)
      {
        var sid := OWN_SIDS[i];
        var wanted := Wanted(account, grants.value, sid);
        var statementChanged: bool;
        if wanted.Some? {
          statements, statementChanged := UpsertStatement(statements, sid, wanted.value);
        } else {
          statements, statementChanged := RemoveStatement(statements, sid);
        }
        changed := changed || statementChanged;
      }
    }
    if !changed {
      return Merge(p, false);
    }
    return Merge(Document(fields["Statement" := List(statements)]), true);
  }

  // ------------------------------------------------------------------- laws

  // The first statement under the Sid says what is wanted, or there is none and none is wanted.
  ghost predicate Settled(ss: seq<Json>, sid: string, wanted: Option<Json>) {
    match wanted
    case Some(stmt) => First(ss, sid).Some? && Equivalent(First(ss, sid).value, stmt)
    case None => First(ss, sid).None?
  }

  lemma SyncSettles(ss: seq<Json>, sid: string, wanted: Option<Json>, other: string)
    requires wanted.Some? ==> SidOf(wanted.value) == sid
    ensures var (out, changed) := Synced(ss, sid, wanted);
      && Settled(out, sid, wanted)
      && (other != sid ==> First(out, other) == First(ss, other))
      && (!changed <==> Settled(ss, sid, wanted))
      && (!changed ==> out == ss)
  {
    match wanted
    case Some(stmt) => UpsertedFirst(ss, sid, stmt, other);
    case None => RemovedFirst(ss, sid, other);
  }

  // Synchronizing leaves both Sids settled, and changes nothing exactly when
  // they already were.
  lemma SyncAllSettles(ss: seq<Json>, account: string, g: Grants)
    ensures var (out, changed) := SyncedAll(ss, account, g);
      && Settled(out, SNS_DELIVERY, Wanted(account, g, SNS_DELIVERY))
      && Settled(out, CLOUDWATCH_ALARMS, Wanted(account, g, CLOUDWATCH_ALARMS))
      && (!changed <==> Settled(ss, SNS_DELIVERY, Wanted(account, g, SNS_DELIVERY))
                        && Settled(ss, CLOUDWATCH_ALARMS, Wanted(account, g, CLOUDWATCH_ALARMS)))
      && (!changed ==> out == ss)
  {
    assert |SNS_DELIVERY| != |CLOUDWATCH_ALARMS|;
    SyncSettles(ss, SNS_DELIVERY, Wanted(account, g, SNS_DELIVERY), CLOUDWATCH_ALARMS);
    var s1 := Synced(ss, SNS_DELIVERY, Wanted(account, g, SNS_DELIVERY)).0;
    SyncSettles(s1, CLOUDWATCH_ALARMS, Wanted(account, g, CLOUDWATCH_ALARMS), SNS_DELIVERY);
  }

  // ------------------------------------------------------ in so many words

  // The statement lets the service, acting for these sources of this account,
  // use the key.
  ghost predicate LetsService(stmt: Json, sid: string, service: string, account: string, sources: seq<string>) {
    exists arns: seq<string> :: (forall x :: x in arns <==> x in sources) && Equivalent(stmt, Object(map[
      "Sid" := Text(sid),
      "Effect" := Text("Allow"),
      "Principal" := Object(map["Service" := Text(service)]),
      "Action" := List([Text("kms:GenerateDataKey*"), Text("kms:Decrypt")]),
      "Resource" := Text("*"),
      "Condition" := Object(map[
        "StringEquals" := Object(map["aws:SourceAccount" := Text(account)]),
        "ArnEquals" := Object(map["aws:SourceArn" := List(seq(|arns|, i requires 0 <= i < |arns| => Text(arns[i])))])])]))
  }

  // Under the Sid the document lets the service act for the sources, or, where
  // there are none, has no statement.
  ghost predicate Says(p: Policy, sid: string, service: string, account: string, sources: seq<string>) {
    && p.Document?
    && var ss := StatementList(p.fields);
    if sources == [] then forall s :: s in ss ==> SidOf(s) != sid
    else exists i :: 0 <= i < |ss| && SidOf(ss[i]) == sid && LetsService(ss[i], sid, service, account, sources)
                     && forall j :: 0 <= j < i ==> SidOf(ss[j]) != sid
  }

  lemma {:induction false} FirstIs(ss: seq<Json>, sid: string)
    ensures match First(ss, sid)
      case None => forall s :: s in ss ==> SidOf(s) != sid
      case Some(f) => exists i :: 0 <= i < |ss| && ss[i] == f && SidOf(f) == sid && forall j :: 0 <= j < i ==> SidOf(ss[j]) != sid
  {
    if ss != [] && SidOf(ss[0]) != sid {
      var rest := ss[1..];
      FirstIs(rest, sid);
      match First(rest, sid)
      case None =>
        assert ss == [ss[0]] + rest;
      case Some(f) =>
        var i :| 0 <= i < |rest| && rest[i] == f && SidOf(f) == sid && forall j :: 0 <= j < i ==> SidOf(rest[j]) != sid;
        assert ss[i + 1] == f && forall j :: 0 <= j < i + 1 ==> SidOf(ss[j]) != sid;
    }
  }

  lemma WantedSays(stmt: Json, sid: string, service: string, account: string, sources: seq<string>)
    requires Equivalent(stmt, ServiceStatement(sid, service, account, sources))
    ensures LetsService(stmt, sid, service, account, sources)
  {
    SortedSetMembers(sources);
    var arns := SortedSet(sources);
    assert forall x :: x in arns <==> x in sources;
  }

  lemma SettledSays(fields: map<string, Json>, sid: string, service: string, account: string, sources: seq<string>, wanted: Option<Json>)
    requires Settled(StatementList(fields), sid, wanted)
    requires wanted == if sources == [] then None else Some(ServiceStatement(sid, service, account, sources))
    ensures Says(Document(fields), sid, service, account, sources)
  {
    var ss := StatementList(fields);
    FirstIs(ss, sid);
    if sources != [] {
      WantedSays(First(ss, sid).value, sid, service, account, sources);
    }
  }

  lemma MergedStatements(p: Policy, account: string, g: Grants)
    requires !p.Malformed?
    ensures var m := Merged(p, account, Some(g));
      m.policy.Document? && StatementList(m.policy.fields) == SyncedAll(Opened(p, account).1, account, g).0
  {
    var (fields, ss, added) := Opened(p, account);
    SyncAllSettles(ss, account, g);
    var ss' := SyncedAll(ss, account, g).0;
    assert StatementList(fields["Statement" := List(ss')]) == ss';
  }

  // After a merge the topics may be delivered by SNS and the alarms by
  // CloudWatch, each for its own ARNs alone and for this account's, whatever the
  // policy said before; a service with nothing to act for has no statement.
  lemma MergedLetsServices(p: Policy, account: string, g: Grants)
    requires !p.Malformed?
    ensures var m := Merged(p, account, Some(g));
      && Says(m.policy, "cloudctl-sns-delivery", "sns.amazonaws.com", account, g.topics)
      && Says(m.policy, "cloudctl-cloudwatch-alarms", "cloudwatch.amazonaws.com", account, g.alarms)
  {
    var m, ss := Merged(p, account, Some(g)), Opened(p, account).1;
    MergedStatements(p, account, g);
    SyncAllSettles(ss, account, g);
    assert |SNS_DELIVERY| != |CLOUDWATCH_ALARMS|;
    SettledSays(m.policy.fields, SNS_DELIVERY, "sns.amazonaws.com", account, g.topics, Wanted(account, g, SNS_DELIVERY));
    SettledSays(m.policy.fields, CLOUDWATCH_ALARMS, "cloudwatch.amazonaws.com", account, g.alarms, Wanted(account, g, CLOUDWATCH_ALARMS));
  }

  // An empty policy becomes one that starts by giving the account its key;
  // without grants to settle, any other is left as it is.
  lemma MergedLetsTheAccount(p: Policy, account: string, grants: Option<Grants>)
    requires !p.Malformed?
    ensures p.Empty? ==>
      var m := Merged(p, account, grants);
      && m.changed && m.policy.Document? && "Version" in m.policy.fields && m.policy.fields["Version"] == Text("2012-10-17")
      && StatementList(m.policy.fields) != []
      && StatementList(m.policy.fields)[0] == Object(map[
           "Sid" := Text("Enable IAM User Permissions"),
           "Effect" := Text("Allow"),
           "Principal" := Object(map["AWS" := Text("arn:aws:iam::" + account + ":root")]),
           "Action" := Text("kms:*"),
           "Resource" := Text("*")])
    ensures p.Document? && grants.None? ==> Merged(p, account, grants) == Merge(p, false)
  {
    if p.Empty? && grants.Some? {
      MergedStatements(p, account, grants.value);
      FirstStays([RootStatement(account)], account, grants.value);
    }
  }

  lemma FirstStays(ss: seq<Json>, account: string, g: Grants)
    requires ss != [] && SidOf(ss[0]) !in OWN_SIDS
    ensures var out := SyncedAll(ss, account, g).0; out != [] && out[0] == ss[0]
  {
    var s1 := Synced(ss, SNS_DELIVERY, Wanted(account, g, SNS_DELIVERY)).0;
    assert s1 != [] && s1[0] == ss[0];
  }

  // A second merge with the same grants changes nothing.
  lemma MergeIsIdempotent(p: Policy, account: string, grants: Option<Grants>)
    requires !p.Malformed?
    ensures var m := Merged(p, account, grants); m.Merge? && Merged(m.policy, account, grants) == Merge(m.policy, false)
  {
    var (fields, ss, added) := Opened(p, account);
    if grants.Some? {
      SyncTwice(ss, account, grants.value);
      var ss' := SyncedAll(ss, account, grants.value).0;
      assert StatementList(fields["Statement" := List(ss')]) == ss';
    }
  }

  lemma SyncTwice(ss: seq<Json>, account: string, g: Grants)
    ensures var out := SyncedAll(ss, account, g).0; SyncedAll(out, account, g) == (out, false)
  {
    SyncAllSettles(ss, account, g);
    SyncAllSettles(SyncedAll(ss, account, g).0, account, g);
  }

  // The statements that are not the operator's, in order.
  function Foreign(ss: seq<Json>): seq<Json> {
    if ss == [] then []
    else if SidOf(ss[0]) in OWN_SIDS then Foreign(ss[1..])
    else [ss[0]] + Foreign(ss[1..])
  }

  lemma {:induction false} SyncKeepsForeign(ss: seq<Json>, sid: string, wanted: Option<Json>)
    requires sid in OWN_SIDS && (wanted.Some? ==> SidOf(wanted.value) == sid)
    ensures Foreign(Synced(ss, sid, wanted).0) == Foreign(ss)
  {
    if ss != [] {
      SyncKeepsForeign(ss[1..], sid, wanted);
      var rest := Synced(ss[1..], sid, wanted).0;
      assert ([ss[0]] + rest)[1..] == rest;
      if wanted.Some? {
        assert ([wanted.value] + ss[1..])[1..] == ss[1..];
      }
    }
  }

  // A merge keeps every other field of the document and every statement without
  // one of the operator's Sids, unchanged and in order; an empty policy gets the
  // account root statement and nothing else foreign.
  lemma MergeKeepsTheRest(p: Policy, account: string, grants: Option<Grants>)
    requires !p.Malformed?
    ensures var m := Merged(p, account, grants);
      && m.policy.Document?
      && (p.Document? ==> Foreign(StatementList(m.policy.fields)) == Foreign(StatementList(p.fields))
                          && m.policy.fields - {"Statement"} == p.fields - {"Statement"})
      && (p.Empty? ==> Foreign(StatementList(m.policy.fields)) == [RootStatement(account)])
  {
    var (fields, ss, added) := Opened(p, account);
    if grants.Some? {
      var g := grants.value;
      SyncKeepsForeign(ss, SNS_DELIVERY, Wanted(account, g, SNS_DELIVERY));
      SyncKeepsForeign(Synced(ss, SNS_DELIVERY, Wanted(account, g, SNS_DELIVERY)).0, CLOUDWATCH_ALARMS, Wanted(account, g, CLOUDWATCH_ALARMS));
    }
    if p.Empty? {
      assert [RootStatement(account)][1..] == [];
      assert |"Enable IAM User Permissions"| != |SNS_DELIVERY| && "Enable IAM User Permissions"[0] != CLOUDWATCH_ALARMS[0];
      assert Foreign([RootStatement(account)]) == [RootStatement(account)];
    }
  }

  // Only the sets of granted ARNs count, not their order or repetition.
  lemma MergeDependsOnSets(p: Policy, account: string, g: Grants, g': Grants)
    requires forall x :: x in g.topics <==> x in g'.topics
    requires forall x :: x in g.alarms <==> x in g'.alarms
    ensures Merged(p, account, Some(g)) == Merged(p, account, Some(g'))
  {
    WantedDependsOnSets(account, g, g', SNS_DELIVERY);
    WantedDependsOnSets(account, g, g', CLOUDWATCH_ALARMS);
    if !p.Malformed? {
      var ss := Opened(p, account).1;
      assert SyncedAll(ss, account, g) == SyncedAll(ss, account, g');
    }
  }

  lemma WantedDependsOnSets(account: string, g: Grants, g': Grants, sid: string)
    requires forall x :: x in g.topics <==> x in g'.topics
    requires forall x :: x in g.alarms <==> x in g'.alarms
    ensures Wanted(account, g, sid) == Wanted(account, g', sid)
  {
    SortedSetCanonical(g.topics, g'.topics);
    SortedSetCanonical(g.alarms, g'.alarms);
    SameEmptiness(g.topics, g'.topics);
    SameEmptiness(g.alarms, g'.alarms);
  }

  lemma SameEmptiness(a: seq<string>, b: seq<string>)
    requires forall x :: x in a <==> x in b
    ensures a == [] <==> b == []
  {
    assert a != [] ==> a[0] in b;
    assert b != [] ==> b[0] in a;
  }
}
