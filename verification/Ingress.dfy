/**
 The ingress rules of one instance's security group: grant what consumers are
 missing, revoke what is stale, and touch nothing else.
 */
module Ingress {
  import opened Ledger
  import opened Sweep
  import opened Sorting
  import opened GroupCloud

  const POD_IDENTITY := "pod-network-identity"

  datatype CRName = CRName(namespace: string, name: string)

  datatype ConsumeRef = ConsumeRef(namespace: string, name: string, resource: string)

  // A consuming CR as a producer reads it; `consumes` is None without an RDS spec.
  datatype Consumer = Consumer(deleting: bool, consumes: Option<seq<ConsumeRef>>, ledger: seq<Entry>)

  type Registry = map<CRName, Consumer>

  datatype Permission = Permission(protocol: string, from: int, to: int, pairs: seq<Option<string>>)

  function IDFromARN(arn: string): string {
    if arn == "" || arn[|arn| - 1] == '/' then ""
    else IDFromARN(arn[..|arn| - 1]) + [arn[|arn| - 1]]
  }

  // ------------------------------------------------------- what consumers offer

  function PodNetworkIdentityARN(c: Consumer): Option<string> {
    var e := Find(c.ledger, SecurityGroup, POD_IDENTITY);
    if e.None? || e.value.pendingSince.Some? then None else Some(e.value.arn)
  }

  // The group a consumer asks to be let in with; None while it does not ask.
  function Offer(reg: Registry, consumer: CRName, ref: ConsumeRef): Option<string> {
    if consumer !in reg then None
    else
      var c := reg[consumer];
      if c.deleting || c.consumes.None? || ref !in c.consumes.value || PodNetworkIdentityARN(c).None? then None
      else Some(IDFromARN(PodNetworkIdentityARN(c).value))
  }

  // The groups offered by the first k consumers, in order; None once a read fails.
  function ReadUpto(w: Cloud, reg: Registry, ref: ConsumeRef, shared: seq<CRName>, k: nat): (r: (Cloud, Option<seq<string>>))
    requires k <= |shared|
    ensures r.0.groups == w.groups
  {
    if k == 0 then (w, Some([]))
    else
      var (w1, ids) := ReadUpto(w, reg, ref, shared, k - 1);
      if ids.None? then (w1, None)
      else if !Next(w1.faults).Fine? then (Drawn(w1), None)
      else
        var offer := Offer(reg, shared[k - 1], ref);
        (Drawn(w1), Some(ids.value + if offer.Some? then [offer.value] else []))
  }

  // The offered groups without a rule, each once, in the order they come.
  function Missing(have: seq<string>, ids: seq<string>): seq<string> {
    if ids == [] then []
    else
      var init, last := ids[..|ids| - 1], ids[|ids| - 1];
      Missing(have, init) + if last in init || last in have then [] else [last]
  }

  // ------------------------------------------------------------ what is there

  function Pairs(pairs: seq<Option<string>>): seq<string> {
    if pairs == [] then []
    else Pairs(pairs[..|pairs| - 1]) + if pairs[|pairs| - 1].Some? then [pairs[|pairs| - 1].value] else []
  }

  // The groups let in on the port, whatever the protocol.
  function Have(current: seq<Permission>, port: int): seq<string> {
    if current == [] then []
    else
      var p := current[|current| - 1];
      Have(current[..|current| - 1], port) + if p.from != port || p.to != port then [] else Pairs(p.pairs)
  }

  ghost predicate Lists(current: seq<Permission>, r: Rule) {
    exists p :: p in current && p.protocol == r.protocol && p.from == r.from && p.to == r.to && Some(r.group) in p.pairs
  }

  // The lookup showed exactly the rules the group has.
  ghost predicate Accurate(current: seq<Permission>, rules: set<Rule>) {
    forall r :: Lists(current, r) <==> r in rules
  }

  // ------------------------------------------------------------- the two writes

  function RevokeUpto(w: Cloud, id: string, port: int, have: seq<string>, ids: seq<string>, k: nat): (Cloud, bool)
    requires k <= |have|
  {
    if k == 0 then (w, true)
    else
      var (w1, ok) := RevokeUpto(w, id, port, have, ids, k - 1);
      if have[k - 1] in ids then (w1, ok)
      else
        var (w2, revoked) := Revoke(w1, id, port, have[k - 1]);
        (w2, ok && revoked)
  }

  function Reconciled(w: Cloud, reg: Registry, id: string, current: seq<Permission>, port: int, ref: ConsumeRef,
                      shared: seq<CRName>, revokeOnly: bool): (Cloud, bool) {
    var have := Have(current, port);
    var (w1, read) := ReadUpto(w, reg, ref, shared, |shared|);
    if read.None? then (w1, false)
    else
      var missing := Missing(have, read.value);
      var (w2, granted) := if missing == [] || revokeOnly then (w1, true) else Authorize(w1, id, port, missing);
      var stale := SortedSet(have);
      var (w3, revoked) := RevokeUpto(w2, id, port, stale, read.value, |stale|);
      (w3, granted && revoked)
  }

  class Reconciler {
    var cloud: Cloud

    constructor (w: Cloud)
      ensures cloud == w
    {
      cloud := w;
    }

    method RevokeStaleIngress(id: string, port: int, have: seq<string>, ids: seq<string>) returns (ok: bool)
      modifies this
      ensures (cloud, ok) == RevokeUpto(old(cloud), id, port, SortedSet(have), ids, |SortedSet(have)|)
    {
      ok := true;
      var stale := SortedSet(have);
      ghost var start := cloud;
      for k := 0 to |stale|
        invariant (cloud, ok) == RevokeUpto(start, id, port, stale, ids, k)
      {
        if stale[k] in ids {
          continue;
        }
        var (w, revoked) := Revoke(cloud, id, port, stale[k]);
        cloud := w;
        ok := ok && revoked;
      }
    }

    // Which offered groups the consumers want in, and which of them have no rule yet.
    method ReadConsumers(reg: Registry, have: seq<string>, ref: ConsumeRef, shared: seq<CRName>)
      returns (desired: seq<string>, missing: seq<string>, ok: bool)
      modifies this
      ensures cloud == ReadUpto(old(cloud), reg, ref, shared, |shared|).0
      ensures ReadUpto(old(cloud), reg, ref, shared, |shared|).1 == if ok then Some(desired) else None
      ensures ok ==> missing == Missing(have, desired)
    {
      ghost var start := cloud;
      desired, missing := [], [];
      for k := 0 to |shared|
        invariant (cloud, Some(desired)) == ReadUpto(start, reg, ref, shared, k)
        invariant missing == Missing(have, desired)
      {
        var fault := Next(cloud.faults);
        cloud := Drawn(cloud);
        if !fault.Fine? {
          ReadFails(start, reg, ref, shared, k + 1, |shared|);
          return [], [], false;
        }
        var offer := Offer(reg, shared[k], ref);
        if offer.None? {
          assert desired + [] == desired;
          continue;
        }
        var next := desired + [offer.value];
        assert next[..|next| - 1] == desired;
        if offer.value !in desired && offer.value !in have {
          missing := missing + [offer.value];
        }
        desired := next;
      }
      ok := true;
    }

    method ReconcileIngress(reg: Registry, id: string, current: seq<Permission>, port: int, ref: ConsumeRef,
                            shared: seq<CRName>, revokeOnly: bool) returns (ok: bool)
      modifies this
      ensures (cloud, ok) == Reconciled(old(cloud), reg, id, current, port, ref, shared, revokeOnly)
    {
      var have := CollectHave(current, port);
      var desired, missing, read := ReadConsumers(reg, have, ref, shared);
      if !read {
        return false;
      }
      ok := true;
      if |missing| > 0 && !revokeOnly {
        var (w, granted) := Authorize(cloud, id, port, missing);
        cloud := w;
        ok := granted;
      }
      var revoked := RevokeStaleIngress(id, port, have, desired);
      ok := ok && revoked;
    }
  }

  method CollectHave(current: seq<Permission>, port: int) returns (have: seq<string>)
    ensures have == Have(current, port)
  {
    have := [];
    for k := 0 to |current|
      invariant have == Have(current[..k], port)
    {
      assert current[..k + 1][..k] == current[..k];
      var p := current[k];
      if p.from != port || p.to != port {
        continue;
      }
      ghost var before := have;
      for j := 0 to |p.pairs|
        invariant have == before + Pairs(p.pairs[..j])
      {
        assert p.pairs[..j + 1][..j] == p.pairs[..j];
        if p.pairs[j].Some? {
          have := have + [p.pairs[j].value];
        }
      }
      assert p.pairs[..|p.pairs|] == p.pairs;
    }
    assert current[..|current|] == current;
  }

  // A failed read decides the pass, whatever comes after it.
  lemma {:induction false} ReadFails(w: Cloud, reg: Registry, ref: ConsumeRef, shared: seq<CRName>, a: nat, b: nat)
    requires a <= b <= |shared| && ReadUpto(w, reg, ref, shared, a).1.None?
    ensures ReadUpto(w, reg, ref, shared, b) == ReadUpto(w, reg, ref, shared, a)
    decreases b - a
  {
    if a < b {
      ReadFails(w, reg, ref, shared, a, b - 1);
    }
  }

  // ------------------------------------------------------------------- laws

  // The groups let in on the port by the operator's own kind of rule, and by
  // any other kind.
  function Granted(rules: set<Rule>, port: int): set<string> {
    set r | r in rules && r.protocol == "tcp" && r.from == port && r.to == port :: r.group
  }

  function OtherwiseIn(rules: set<Rule>, port: int): set<string> {
    set r | r in rules && r.protocol != "tcp" && r.from == port && r.to == port :: r.group
  }

  // Every rule but the grants on this port.
  function NotGrants(rules: set<Rule>, port: int): set<Rule> {
    set r | r in rules && r != Grant(port, r.group)
  }

  function Set(s: seq<string>): set<string> {
    set x | x in s
  }

  lemma {:induction false} MissingIs(have: seq<string>, ids: seq<string>)
    ensures Set(Missing(have, ids)) == Set(ids) - Set(have)
    ensures forall i, j :: 0 <= i < j < |Missing(have, ids)| ==> Missing(have, ids)[i] != Missing(have, ids)[j]
  {
    if ids != [] {
      var init, last := ids[..|ids| - 1], ids[|ids| - 1];
      MissingIs(have, init);
      assert ids == init + [last];
      assert Set(ids) == Set(init) + {last};
      var m := Missing(have, init);
      if last !in init && last !in have {
        assert last !in Set(m);
        assert Set(m + [last]) == Set(m) + {last};
      } else {
        assert m + [] == m;
      }
    }
  }

  lemma {:induction false} PairsMembers(pairs: seq<Option<string>>, g: string)
    ensures g in Pairs(pairs) <==> Some(g) in pairs
  {
    if pairs != [] {
      var init := pairs[..|pairs| - 1];
      PairsMembers(init, g);
      assert pairs == init + [pairs[|pairs| - 1]];
    }
  }

  lemma {:induction false} HaveMembers(current: seq<Permission>, port: int, g: string)
    ensures g in Have(current, port) <==> exists p :: p in current && p.from == port && p.to == port && Some(g) in p.pairs
  {
    if current != [] {
      var init, last := current[..|current| - 1], current[|current| - 1];
      HaveMembers(init, port, g);
      PairsMembers(last.pairs, g);
      assert current == init + [last];
    }
  }

  lemma HaveIs(current: seq<Permission>, rules: set<Rule>, port: int)
    requires Accurate(current, rules)
    ensures Set(Have(current, port)) == Granted(rules, port) + OtherwiseIn(rules, port)
  {
    forall g ensures g in Have(current, port) <==> g in Granted(rules, port) + OtherwiseIn(rules, port) {
      HaveMembers(current, port, g);
      if g in Have(current, port) {
        var p :| p in current && p.from == port && p.to == port && Some(g) in p.pairs;
        assert Lists(current, Rule(p.protocol, port, port, g));
      }
      if g in Granted(rules, port) + OtherwiseIn(rules, port) {
        var r :| r in rules && r.from == port && r.to == port && r.group == g;
        assert Lists(current, r);
      }
    }
  }

  // The rest of the cloud and of the group's rules is as it was.
  ghost predicate OnlyGrants(w: Cloud, w': Cloud, id: string, port: int) {
    && w'.groups.Keys == w.groups.Keys
    && (forall g :: g in w.groups && g != id ==> w'.groups[g] == w.groups[g])
    && (id in w.groups ==> w'.groups[id].tags == w.groups[id].tags
                           && NotGrants(w'.groups[id].rules, port) == NotGrants(w.groups[id].rules, port))
  }

  lemma {:induction false} RevokeOnlyGrants(w: Cloud, id: string, port: int, have: seq<string>, ids: seq<string>, k: nat)
    requires k <= |have|
    ensures OnlyGrants(w, RevokeUpto(w, id, port, have, ids, k).0, id, port)
  {
    if k > 0 {
      RevokeOnlyGrants(w, id, port, have, ids, k - 1);
      var w1 := RevokeUpto(w, id, port, have, ids, k - 1).0;
      if id in w1.groups {
        var rules := w1.groups[id].rules;
        assert NotGrants(rules - {Grant(port, have[k - 1])}, port) == NotGrants(rules, port);
      }
      assert OnlyGrants(w1, Revoke(w1, id, port, have[k - 1]).0, id, port);
      OnlyGrantsTwice(w, w1, Revoke(w1, id, port, have[k - 1]).0, id, port);
    }
  }

  lemma AuthorizeOnlyGrants(w: Cloud, id: string, port: int, members: seq<string>)
    ensures OnlyGrants(w, Authorize(w, id, port, members).0, id, port)
  {
    if id in w.groups {
      var rules, grants := w.groups[id].rules, set m | m in members :: Grant(port, m);
      assert NotGrants(rules + grants, port) == NotGrants(rules, port);
    }
  }

  lemma OnlyGrantsTwice(a: Cloud, b: Cloud, c: Cloud, id: string, port: int)
    requires OnlyGrants(a, b, id, port) && OnlyGrants(b, c, id, port)
    ensures OnlyGrants(a, c, id, port)
  {
  }

  // Whatever fails, only grants on the engine's port of this one group change.
  lemma TouchesOnlyGrants(w: Cloud, reg: Registry, id: string, current: seq<Permission>, port: int, ref: ConsumeRef,
                          shared: seq<CRName>, revokeOnly: bool)
    ensures OnlyGrants(w, Reconciled(w, reg, id, current, port, ref, shared, revokeOnly).0, id, port)
  {
    var have := Have(current, port);
    var (w1, read) := ReadUpto(w, reg, ref, shared, |shared|);
    if read.Some? {
      var missing, stale := Missing(have, read.value), SortedSet(have);
      var (w2, granted) := if missing == [] || revokeOnly then (w1, true) else Authorize(w1, id, port, missing);
      AuthorizeOnlyGrants(w1, id, port, missing);
      assert OnlyGrants(w, w2, id, port);
      RevokeOnlyGrants(w2, id, port, stale, read.value, |stale|);
      OnlyGrantsTwice(w, w2, RevokeUpto(w2, id, port, stale, read.value, |stale|).0, id, port);
    }
  }

  // A failed read of a consumer writes nothing.
  lemma FailedReadWritesNothing(w: Cloud, reg: Registry, id: string, current: seq<Permission>, port: int, ref: ConsumeRef,
                                shared: seq<CRName>, revokeOnly: bool)
    requires ReadUpto(w, reg, ref, shared, |shared|).1.None?
    ensures var r := Reconciled(w, reg, id, current, port, ref, shared, revokeOnly); r.0.groups == w.groups && !r.1
  {
  }

  // The grants left by revoking the first k of `have`: those among them that
  // are wanted stay; with no failure, the others are gone.
  lemma {:induction false} RevokedGrants(w: Cloud, id: string, port: int, have: seq<string>, ids: seq<string>, k: nat)
    requires k <= |have| && id in w.groups
    ensures var (w', ok) := RevokeUpto(w, id, port, have, ids, k);
      && id in w'.groups
      && (forall g :: g in Granted(w'.groups[id].rules, port) ==> g in Granted(w.groups[id].rules, port))
      && (forall g :: g in Granted(w.groups[id].rules, port) && (g in ids || g !in have[..k]) ==> g in Granted(w'.groups[id].rules, port))
      && (ok ==> forall g :: g in have[..k] && g !in ids ==> g !in Granted(w'.groups[id].rules, port))
  {
    if k > 0 {
      RevokedGrants(w, id, port, have, ids, k - 1);
      assert have[..k] == have[..k - 1] + [have[k - 1]];
      var (w1, ok) := RevokeUpto(w, id, port, have, ids, k - 1);
      if have[k - 1] !in ids {
        RevokedOne(w1, id, port, have[k - 1]);
      }
    }
  }

  lemma RevokedOne(w: Cloud, id: string, port: int, member: string)
    requires id in w.groups
    ensures var (w', ok) := Revoke(w, id, port, member);
      && id in w'.groups
      && (Granted(w'.groups[id].rules, port) == Granted(w.groups[id].rules, port)
          || Granted(w'.groups[id].rules, port) == Granted(w.groups[id].rules, port) - {member})
      && (ok ==> member !in Granted(w'.groups[id].rules, port))
  {
    var rules := w.groups[id].rules;
    assert Granted(rules - {Grant(port, member)}, port) == Granted(rules, port) - {member} by {
      forall g | g in Granted(rules, port) && g != member ensures g in Granted(rules - {Grant(port, member)}, port) {
        assert Grant(port, g) in rules;
      }
    }
  }

  lemma GrantedMore(w: Cloud, id: string, port: int, members: seq<string>)
    requires id in w.groups && Set(members) !! Granted(w.groups[id].rules, port)
    ensures var (w', ok) := Authorize(w, id, port, members);
      && id in w'.groups
      && (Granted(w'.groups[id].rules, port) == Granted(w.groups[id].rules, port)
          || Granted(w'.groups[id].rules, port) == Granted(w.groups[id].rules, port) + Set(members))
      && (ok ==> Granted(w'.groups[id].rules, port) == Granted(w.groups[id].rules, port) + Set(members))
  {
    var rules := w.groups[id].rules;
    var grants := set m | m in members :: Grant(port, m);
    forall r | r in grants ensures r !in rules {
      assert r.group in Set(members);
    }
    assert Granted(rules + grants, port) == Granted(rules, port) + Set(members) by {
      forall g | g in Set(members) ensures g in Granted(rules + grants, port) {
        assert Grant(port, g) in grants;
      }
      forall g | g in Granted(rules, port) ensures g in Granted(rules + grants, port) {
        assert Grant(port, g) in rules;
      }
    }
  }

  // What the pass leaves granted on the port. D: the groups consumers ask for;
  // T: granted before; H: let in before, by any kind of rule.
  lemma ReconciledGrants(w: Cloud, reg: Registry, id: string, current: seq<Permission>, port: int, ref: ConsumeRef,
                         shared: seq<CRName>, revokeOnly: bool)
    requires id in w.groups && Accurate(current, w.groups[id].rules)
    requires ReadUpto(w, reg, ref, shared, |shared|).1.Some?
    ensures var (w', ok) := Reconciled(w, reg, id, current, port, ref, shared, revokeOnly);
      && id in w'.groups
      && var D, T, H, T' := Set(ReadUpto(w, reg, ref, shared, |shared|).1.value), Granted(w.groups[id].rules, port),
                            Set(Have(current, port)), Granted(w'.groups[id].rules, port);
      && T' <= T + D && T * D <= T'
      && (ok ==> T' == if revokeOnly then T * D else (T * D) + (D - H))
  {
    var have := Have(current, port);
    var (w1, read) := ReadUpto(w, reg, ref, shared, |shared|);
    var ids := read.value;
    var missing, stale := Missing(have, ids), SortedSet(have);
    MissingIs(have, ids);
    SortedSetMembers(have);
    HaveIs(current, w.groups[id].rules, port);
    if !(missing == [] || revokeOnly) {
      GrantedMore(w1, id, port, missing);
    }
    var (w2, granted) := if missing == [] || revokeOnly then (w1, true) else Authorize(w1, id, port, missing);
    RevokedGrants(w2, id, port, stale, ids, |stale|);
    assert stale[..|stale|] == stale;
    GrantAlgebra(Set(ids), Granted(w.groups[id].rules, port), Set(have), Set(missing), revokeOnly,
                 Granted(w2.groups[id].rules, port), granted,
                 Granted(RevokeUpto(w2, id, port, stale, ids, |stale|).0.groups[id].rules, port),
                 RevokeUpto(w2, id, port, stale, ids, |stale|).1);
  }

  lemma GrantAlgebra(D: set<string>, T: set<string>, H: set<string>, M: set<string>, revokeOnly: bool,
                     T2: set<string>, granted: bool, T3: set<string>, revoked: bool)
    requires M == D - H && T <= H
    requires T2 == T || (!revokeOnly && T2 == T + M)
    requires granted && !revokeOnly ==> T2 == T + M
    requires T3 <= T2 && (forall g :: g in T2 && (g in D || g !in H) ==> g in T3)
    requires revoked ==> forall g :: g in H && g !in D ==> g !in T3
    ensures T3 <= T + D && T * D <= T3
    ensures granted && revoked ==> T3 == if revokeOnly then T * D else (T * D) + (D - H)
  {
  }

  lemma OtherwiseKept(rules: set<Rule>, rules': set<Rule>, port: int)
    requires NotGrants(rules, port) == NotGrants(rules', port)
    ensures OtherwiseIn(rules, port) == OtherwiseIn(rules', port)
  {
    forall g ensures g in OtherwiseIn(rules, port) <==> g in OtherwiseIn(rules', port) {
      if r :| r in rules && r.protocol != "tcp" && r.from == port && r.to == port && r.group == g {
        assert r in NotGrants(rules, port);
      }
      if r :| r in rules' && r.protocol != "tcp" && r.from == port && r.to == port && r.group == g {
        assert r in NotGrants(rules', port);
      }
    }
  }

  // ------------------------------------------------------------ what is wanted

  // What follows the last slash of the ARN.
  ghost predicate EndsIn(arn: string, id: string) {
    '/' !in id && (arn == id || exists before :: arn == before + "/" + id)
  }

  lemma {:induction false} IDEnds(arn: string)
    ensures EndsIn(arn, IDFromARN(arn))
  {
    if arn != "" {
      var init, last := arn[..|arn| - 1], arn[|arn| - 1];
      assert arn == init + [last];
      if last == '/' {
        assert arn == init + "/" + "";
      } else {
        IDEnds(init);
        var id := IDFromARN(init);
        if init != id {
          var before :| init == before + "/" + id;
          assert arn == before + "/" + (id + [last]);
        }
      }
    }
  }

  lemma NoLongerEnd(arn: string, a: string, b: string)
    requires EndsIn(arn, a) && EndsIn(arn, b)
    ensures |b| <= |a|
  {
    if arn != a {
      var before :| arn == before + "/" + a;
      assert arn[|before|] == '/';
    }
  }

  // The id is what follows the last slash.
  lemma IDEndsARN(arn: string, id: string)
    ensures IDFromARN(arn) == id <==> EndsIn(arn, id)
  {
    IDEnds(arn);
    if EndsIn(arn, id) {
      NoLongerEnd(arn, id, IDFromARN(arn));
      NoLongerEnd(arn, IDFromARN(arn), id);
      assert arn[|arn| - |id|..] == id && arn[|arn| - |id|..] == IDFromARN(arn);
    }
  }

  // The consumer asks to be let in with g: it is not being deleted, refers to
  // the instance, and its pods' group is g and not being released.
  ghost predicate Asks(reg: Registry, c: CRName, ref: ConsumeRef, g: string) {
    && c in reg && !reg[c].deleting && reg[c].consumes.Some? && ref in reg[c].consumes.value
    && exists e :: Find(reg[c].ledger, SecurityGroup, "pod-network-identity") == Some(e) && e.pendingSince.None? && EndsIn(e.arn, g)
  }

  // D holds the groups that the CRs the instance is shared with ask for.
  ghost predicate AreWanted(D: set<string>, reg: Registry, ref: ConsumeRef, shared: seq<CRName>) {
    forall g :: g in D <==> exists c :: c in shared && Asks(reg, c, ref, g)
  }

  lemma OfferIs(reg: Registry, c: CRName, ref: ConsumeRef, g: string)
    ensures Offer(reg, c, ref) == Some(g) <==> Asks(reg, c, ref, g)
  {
    if c in reg {
      var f := Find(reg[c].ledger, SecurityGroup, "pod-network-identity");
      if f.Some? {
        IDEndsARN(f.value.arn, g);
      }
    }
  }

  // Unless a read fails, the groups read are the wanted ones.
  lemma {:induction false} ReadsTheWanted(w: Cloud, reg: Registry, ref: ConsumeRef, shared: seq<CRName>, k: nat)
    requires k <= |shared| && ReadUpto(w, reg, ref, shared, k).1.Some?
    ensures AreWanted(Set(ReadUpto(w, reg, ref, shared, k).1.value), reg, ref, shared[..k])
  {
    if k > 0 {
      ReadsTheWanted(w, reg, ref, shared, k - 1);
      var before, after, c := ReadUpto(w, reg, ref, shared, k - 1).1.value, ReadUpto(w, reg, ref, shared, k).1.value, shared[k - 1];
      assert shared[..k] == shared[..k - 1] + [c];
      forall g ensures g in Set(after) <==> exists c' :: c' in shared[..k] && Asks(reg, c', ref, g) {
        OfferIs(reg, c, ref, g);
        assert g in Set(after) <==> g in Set(before) || Offer(reg, c, ref) == Some(g);
        assert g in Set(before) <==> exists c' :: c' in shared[..k - 1] && Asks(reg, c', ref, g);
      }
    }
  }

  lemma WantedIsRead(w: Cloud, reg: Registry, ref: ConsumeRef, shared: seq<CRName>, D: set<string>)
    requires ReadUpto(w, reg, ref, shared, |shared|).1.Some? && AreWanted(D, reg, ref, shared)
    ensures D == Set(ReadUpto(w, reg, ref, shared, |shared|).1.value)
  {
    ReadsTheWanted(w, reg, ref, shared, |shared|);
    assert shared[..|shared|] == shared;
  }

  // A pass without an error leaves exactly the wanted groups on the port if and
  // only if no rule of another protocol lets in an unwanted one there. It grants
  // every wanted group if and only if no wanted group is let in by such a rule
  // alone: the code takes one for a grant and asks for nothing.
  lemma ExactlyTheWanted(w: Cloud, reg: Registry, id: string, current: seq<Permission>, port: int, ref: ConsumeRef, shared: seq<CRName>, D: set<string>)
    requires id in w.groups && Accurate(current, w.groups[id].rules)
    requires Reconciled(w, reg, id, current, port, ref, shared, false).1 && AreWanted(D, reg, ref, shared)
    ensures var w' := Reconciled(w, reg, id, current, port, ref, shared, false).0;
      && id in w'.groups
      && var N := OtherwiseIn(w.groups[id].rules, port);
      && (Granted(w'.groups[id].rules, port) + OtherwiseIn(w'.groups[id].rules, port) == D <==> N <= D)
      && (Granted(w'.groups[id].rules, port) == D <==> D * N <= Granted(w.groups[id].rules, port))
  {
    WantedIsRead(w, reg, ref, shared, D);
    ReconciledGrants(w, reg, id, current, port, ref, shared, false);
    HaveIs(current, w.groups[id].rules, port);
    TouchesOnlyGrants(w, reg, id, current, port, ref, shared, false);
    var w' := Reconciled(w, reg, id, current, port, ref, shared, false).0;
    OtherwiseKept(w.groups[id].rules, w'.groups[id].rules, port);
    WantedAlgebra(D, Granted(w.groups[id].rules, port),
                  OtherwiseIn(w.groups[id].rules, port), Granted(w'.groups[id].rules, port));
  }

  lemma WantedAlgebra(D: set<string>, T: set<string>, N: set<string>, T': set<string>)
    requires T' == (T * D) + (D - (T + N))
    ensures T' + N == D <==> N <= D
    ensures T' == D <==> D * N <= T
  {
    if T' == D {
      forall g | g in D * N ensures g in T {
        assert g in T';
      }
    }
  }

  // Narrowing leaves what is both there and wanted, under the same condition.
  lemma NarrowsToTheWanted(w: Cloud, reg: Registry, id: string, current: seq<Permission>, port: int, ref: ConsumeRef, shared: seq<CRName>, D: set<string>)
    requires id in w.groups && Accurate(current, w.groups[id].rules)
    requires Reconciled(w, reg, id, current, port, ref, shared, true).1 && AreWanted(D, reg, ref, shared)
    ensures var w' := Reconciled(w, reg, id, current, port, ref, shared, true).0;
      && id in w'.groups
      && var N, T := OtherwiseIn(w.groups[id].rules, port), Granted(w.groups[id].rules, port);
      && Granted(w'.groups[id].rules, port) == T * D
      && (Granted(w'.groups[id].rules, port) + OtherwiseIn(w'.groups[id].rules, port) == (T + N) * D <==> N <= D)
  {
    WantedIsRead(w, reg, ref, shared, D);
    ReconciledGrants(w, reg, id, current, port, ref, shared, true);
    TouchesOnlyGrants(w, reg, id, current, port, ref, shared, true);
    var w' := Reconciled(w, reg, id, current, port, ref, shared, true).0;
    OtherwiseKept(w.groups[id].rules, w'.groups[id].rules, port);
  }

  lemma {:induction false} ReadsWork(w: Cloud, reg: Registry, ref: ConsumeRef, shared: seq<CRName>, k: nat)
    requires k <= |shared| && w.faults == []
    ensures var (w', read) := ReadUpto(w, reg, ref, shared, k); w' == w && read.Some?
  {
    if k > 0 {
      ReadsWork(w, reg, ref, shared, k - 1);
    }
  }

  lemma {:induction false} RevokesWork(w: Cloud, id: string, port: int, have: seq<string>, ids: seq<string>, k: nat)
    requires k <= |have| && w.faults == [] && id in w.groups
    ensures var (w', ok) := RevokeUpto(w, id, port, have, ids, k); ok && w'.faults == [] && id in w'.groups
  {
    if k > 0 {
      RevokesWork(w, id, port, have, ids, k - 1);
    }
  }

  // With every call answered, the call succeeds on any group that is there.
  lemma AnsweredSucceeds(w: Cloud, reg: Registry, id: string, current: seq<Permission>, port: int, ref: ConsumeRef,
                         shared: seq<CRName>, revokeOnly: bool)
    requires w.faults == [] && id in w.groups
    ensures Reconciled(w, reg, id, current, port, ref, shared, revokeOnly).1
  {
    ReadsWork(w, reg, ref, shared, |shared|);
    var ids, have := ReadUpto(w, reg, ref, shared, |shared|).1.value, Have(current, port);
    var missing, stale := Missing(have, ids), SortedSet(have);
    var (w2, granted) := if missing == [] || revokeOnly then (w, true) else Authorize(w, id, port, missing);
    assert granted && w2.faults == [] && id in w2.groups;
    RevokesWork(w2, id, port, stale, ids, |stale|);
  }

  // A concrete group: a udp rule for the consumer keeps it from ever getting
  // its tcp one, and every pass reports success.
  lemma UdpRuleHidesTheConsumer(tags: Ownership.Tags, reg: Registry, ref: ConsumeRef, consumer: CRName, g: string)
    requires Offer(reg, consumer, ref) == Some(g)
    ensures var udp := Rule("udp", 5432, 5432, g);
      var w := Cloud(map["db" := Group(tags, {udp})], []);
      var current := [Permission("udp", 5432, 5432, [Some(g)])];
      && Accurate(current, {udp}) && Granted({udp}, 5432) == {}
      && Reconciled(w, reg, "db", current, 5432, ref, [consumer], false) == (w, true)
  {
    var p := Permission("udp", 5432, 5432, [Some(g)]);
    var udp, current := Rule("udp", 5432, 5432, g), [p];
    var w := Cloud(map["db" := Group(tags, {udp})], []);
    forall r ensures Lists(current, r) <==> r in {udp} {
      if r == udp {
        assert p in current && Some(r.group) in p.pairs;
      }
    }
    assert Pairs([Some(g)]) == [g] by { assert [Some(g)][..0] == []; }
    assert Have(current, 5432) == [g] by { assert current[..0] == []; }
    AlreadyIn(w, reg, "db", current, 5432, ref, consumer, g);
  }

  lemma AlreadyIn(w: Cloud, reg: Registry, id: string, current: seq<Permission>, port: int, ref: ConsumeRef, consumer: CRName, g: string)
    requires w.faults == [] && Have(current, port) == [g] && Offer(reg, consumer, ref) == Some(g)
    ensures Reconciled(w, reg, id, current, port, ref, [consumer], false) == (w, true)
  {
    assert ReadUpto(w, reg, ref, [consumer], 0) == (w, Some([]));
    assert Drawn(w) == w && [] + [g] == [g];
    assert ReadUpto(w, reg, ref, [consumer], 1) == (w, Some([g]));
    assert Missing([g], [g]) == [] by { assert [g][..0] == []; }
    SortedSetMembers([g]);
    KeepsAll(w, id, port, SortedSet([g]), [g], |SortedSet([g])|);
  }

  lemma {:induction false} KeepsAll(w: Cloud, id: string, port: int, have: seq<string>, ids: seq<string>, k: nat)
    requires k <= |have| && forall g :: g in have ==> g in ids
    ensures RevokeUpto(w, id, port, have, ids, k) == (w, true)
  {
    if k > 0 {
      KeepsAll(w, id, port, have, ids, k - 1);
    }
  }
}
