/**
 What the ledger alone says: the outcome of deleting each entry, which entries
 still need each KMS key, and what is published about both in status.
 */
module Decisions {
  import opened Ledger
  import opened Naming
  import opened Text
  import opened Sorting

  // ------------------------------------------------------------- outcomes

  predicate Forceable(t: ResourceType) {
    t in {SQS, SNS, S3, DynamoDB}
  }

  function OnDelete(e: Entry): OnDeleteOutcome {
    if e.policy != Delete then OnDeleteRetain
    else if e.rtype == RDS then OnDeleteManual
    else if e.force && Forceable(e.rtype) then OnDeleteEvenIfNotEmpty
    else OnDeleteDelete
  }

  // -------------------------------------------------------------- holders

  datatype Holder = Holder(rtype: ResourceType, name: string, retained: bool)

  function HolderOf(e: Entry): Holder {
    Holder(e.rtype, e.name, e.policy != Delete)
  }

  // The key entry recorded last under an ARN: a later one with the same ARN
  // takes the place of an earlier one.
  function KeyByARN(l: seq<Entry>, arn: string): Option<string> {
    if l == [] then None
    else
      var last := l[|l| - 1];
      if last.rtype == KMS && last.arn == arn then Some(last.name) else KeyByARN(l[..|l| - 1], arn)
  }

  function OwnerType(t: ResourceType): ResourceType {
    if t == RDSSnapshot then RDS else t
  }

  function DedicatedKeyOf(e: Entry): string {
    DedicatedKeyLedgerName(OwnerType(e.rtype), BaseName(e.name))
  }

  // The one key entry, if any, that the entry e needs.
  function KeyNameFor(l: seq<Entry>, e: Entry): Option<string> {
    if e.rtype == KMS || e.rtype == IAM then None
    else if e.kmsKeyARN != "" && KeyByARN(l, e.kmsKeyARN).Some? then KeyByARN(l, e.kmsKeyARN)
    else if Has(l, KMS, DedicatedKeyOf(e)) then Some(DedicatedKeyOf(e))
    else None
  }

  // The holders of one key among `part`, in ledger order.
  function HoldersAmong(l: seq<Entry>, part: seq<Entry>, key: string): seq<Holder> {
    if part == [] then []
    else
      HoldersAmong(l, part[..|part| - 1], key)
      + (if KeyNameFor(l, part[|part| - 1]) == Some(key) then [HolderOf(part[|part| - 1])] else [])
  }

  function HoldersOf(l: seq<Entry>, key: string): seq<Holder> {
    HoldersAmong(l, l, key)
  }

  method NamesByARN(l: seq<Entry>) returns (byARN: map<string, string>)
    ensures forall a :: a in byARN <==> KeyByARN(l, a).Some?
    ensures forall a :: a in byARN ==> KeyByARN(l, a) == Some(byARN[a])
  {
    byARN := map[];
    for i := 0 to |l|
      invariant forall a :: a in byARN <==> KeyByARN(l[..i], a).Some?
      invariant forall a :: a in byARN ==> KeyByARN(l[..i], a) == Some(byARN[a])
    {
      assert l[..i + 1][..i] == l[..i];
      if l[i].rtype == KMS {
        byARN := byARN[l[i].arn := l[i].name];
      }
    }
    assert l[..|l|] == l;
  }

  method KeyHolders(l: seq<Entry>) returns (holders: map<string, seq<Holder>>)
    ensures forall n :: n in holders <==> HoldersOf(l, n) != []
    ensures forall n :: n in holders ==> holders[n] == HoldersOf(l, n)
  {
    var byARN := NamesByARN(l);
    holders := map[];
    for i := 0 to |l|
      invariant forall n :: n in holders <==> HoldersAmong(l, l[..i], n) != []
      invariant forall n :: n in holders ==> holders[n] == HoldersAmong(l, l[..i], n)
    {
      assert l[..i + 1][..i] == l[..i];
      var key := KeyOf(l, byARN, l[i]);
      if key.Some? {
        holders := Append(holders, key.value, HolderOf(l[i]));
      }
    }
    assert l[..|l|] == l;
  }

  // The key one entry holds, by its recorded ARN or as its dedicated key.
  method KeyOf(l: seq<Entry>, byARN: map<string, string>, e: Entry) returns (key: Option<string>)
    requires forall a :: a in byARN <==> KeyByARN(l, a).Some?
    requires forall a :: a in byARN ==> KeyByARN(l, a) == Some(byARN[a])
    ensures key == KeyNameFor(l, e)
  {
    if e.rtype == KMS || e.rtype == IAM {
      return None;
    }
    if e.kmsKeyARN in byARN && e.kmsKeyARN != "" {
      return Some(byARN[e.kmsKeyARN]);
    }
    var ownerType := e.rtype;
    if ownerType == RDSSnapshot {
      ownerType := RDS;
    }
    var dedicated := DedicatedKeyLedgerName(ownerType, BaseName(e.name));
    if Has(l, KMS, dedicated) {
      return Some(dedicated);
    }
    return None;
  }

  function Append(m: map<string, seq<Holder>>, n: string, h: Holder): map<string, seq<Holder>> {
    m[n := (if n in m then m[n] else []) + [h]]
  }

  lemma {:induction false} HoldersAmongMembers(l: seq<Entry>, part: seq<Entry>, key: string, h: Holder)
    ensures h in HoldersAmong(l, part, key) <==>
            exists i :: 0 <= i < |part| && KeyNameFor(l, part[i]) == Some(key) && HolderOf(part[i]) == h
  {
    if part != [] {
      var rest := part[..|part| - 1];
      HoldersAmongMembers(l, rest, key, h);
      if i :| 0 <= i < |part| && KeyNameFor(l, part[i]) == Some(key) && HolderOf(part[i]) == h {
        if i < |part| - 1 {
          assert rest[i] == part[i];
        }
      }
    }
  }

  predicate Apart(h: Holder, k: Holder) {
    h.rtype != k.rtype || h.name != k.name
  }

  lemma {:induction false} HoldersDistinct(l: seq<Entry>, part: seq<Entry>, key: string, i: nat, j: nat)
    requires Unique(part) && i < j < |HoldersAmong(l, part, key)|
    ensures Apart(HoldersAmong(l, part, key)[i], HoldersAmong(l, part, key)[j])
  {
    var rest, last := part[..|part| - 1], part[|part| - 1];
    var hs := HoldersAmong(l, rest, key);
    if j < |hs| {
      HoldersDistinct(l, rest, key, i, j);
    } else {
      HoldersAmongMembers(l, rest, key, hs[i]);
      var k :| 0 <= k < |rest| && HolderOf(rest[k]) == hs[i];
      assert !part[k].Is(last.rtype, last.name);
    }
  }

  // An entry is listed under at most one key, and there at most once.
  lemma HeldOnce(l: seq<Entry>, a: string, i: nat, b: string, j: nat)
    requires Unique(l)
    requires i < |HoldersOf(l, a)| && j < |HoldersOf(l, b)|
    requires HoldersOf(l, a)[i].rtype == HoldersOf(l, b)[j].rtype && HoldersOf(l, a)[i].name == HoldersOf(l, b)[j].name
    ensures a == b && i == j
  {
    HoldersAmongMembers(l, l, a, HoldersOf(l, a)[i]);
    HoldersAmongMembers(l, l, b, HoldersOf(l, b)[j]);
    var x :| 0 <= x < |l| && KeyNameFor(l, l[x]) == Some(a) && HolderOf(l[x]) == HoldersOf(l, a)[i];
    var y :| 0 <= y < |l| && KeyNameFor(l, l[y]) == Some(b) && HolderOf(l[y]) == HoldersOf(l, b)[j];
    FindMember(l, l[x]);
    FindMember(l, l[y]);
    if i < j {
      HoldersDistinct(l, l, a, i, j);
    } else if j < i {
      HoldersDistinct(l, l, a, j, i);
    }
  }

  // ----------------------------------------------------------- pinned keys

  // Whether a section keeps a let-go entry for the sake of its key.
  predicate PinsAKey(l: seq<Entry>, owner: ResourceType, e: Entry) {
    e.kmsKeyARN != "" || Has(l, KMS, DedicatedKeyLedgerName(owner, BaseName(e.name)))
  }

  // Every holder but a snapshot pins a key; a pinned entry that holds none has
  // a recorded key that is itself no longer in the ledger.
  lemma HolderPins(l: seq<Entry>, e: Entry)
    requires e.rtype != RDSSnapshot && e.rtype != KMS && e.rtype != IAM
    ensures PinsAKey(l, e.rtype, e) <==> KeyNameFor(l, e).Some? || e.kmsKeyARN != ""
  {
  }

  lemma {:induction false} KeyByARNAfterRemove(l: seq<Entry>, t: ResourceType, n: string, arn: string)
    requires t != KMS
    ensures KeyByARN(Remove(l, t, n), arn) == KeyByARN(l, arn)
  {
    if l != [] {
      var front, last := l[..|l| - 1], l[|l| - 1];
      var r := Remove(front, t, n);
      RemoveLast(front, last, t, n);
      assert l == front + [last];
      KeyByARNAfterRemove(front, t, n, arn);
      if last.Is(t, n) {
        assert Remove(l, t, n) == r;
      } else {
        assert Remove(l, t, n) == r + [last] && (r + [last])[..|r|] == r;
      }
    }
  }

  lemma {:induction false} RemoveLast(front: seq<Entry>, last: Entry, t: ResourceType, n: string)
    ensures Remove(front + [last], t, n) == Remove(front, t, n) + (if last.Is(t, n) then [] else [last])
  {
    if front == [] {
      assert front + [last] == [last];
    } else {
      assert (front + [last])[1..] == front[1..] + [last];
      RemoveLast(front[1..], last, t, n);
    }
  }

  lemma KeyNameAfterRemove(l: seq<Entry>, t: ResourceType, n: string, e: Entry)
    requires t != KMS
    ensures KeyNameFor(Remove(l, t, n), e) == KeyNameFor(l, e)
  {
    KeyByARNAfterRemove(l, t, n, e.kmsKeyARN);
    FindRemove(l, t, n, KMS, DedicatedKeyOf(e));
  }

  lemma {:induction false} HoldersAfterRemove(l: seq<Entry>, part: seq<Entry>, t: ResourceType, n: string, key: string)
    requires t != KMS
    requires forall e :: e in part && e.Is(t, n) ==> KeyNameFor(l, e).None?
    ensures HoldersAmong(Remove(l, t, n), Remove(part, t, n), key) == HoldersAmong(l, part, key)
  {
    if part != [] {
      var front, last := part[..|part| - 1], part[|part| - 1];
      assert part == front + [last];
      assert last in part;
      var l', r := Remove(l, t, n), Remove(front, t, n);
      RemoveLast(front, last, t, n);
      HoldersAfterRemove(l, front, t, n, key);
      KeyNameAfterRemove(l, t, n, last);
      if last.Is(t, n) {
        assert Remove(part, t, n) == r;
      } else {
        assert Remove(part, t, n) == r + [last] && (r + [last])[..|r|] == r;
        assert HoldersAmong(l', r + [last], key)
            == HoldersAmong(l', r, key) + (if KeyNameFor(l', last) == Some(key) then [HolderOf(last)] else []);
      }
    }
  }

  // Forgetting a let-go table that pins no key changes nobody's holders.
  lemma DroppingUnpinned(l: seq<Entry>, e: Entry, key: string)
    requires Unique(l) && e in l
    requires e.rtype != KMS && e.rtype != RDSSnapshot && !PinsAKey(l, e.rtype, e)
    ensures HoldersOf(Remove(l, e.rtype, e.name), key) == HoldersOf(l, key)
  {
    forall x | x in l && x.Is(e.rtype, e.name) ensures KeyNameFor(l, x).None? {
      FindMember(l, x);
      FindMember(l, e);
    }
    HoldersAfterRemove(l, l, e.rtype, e.name, key);
  }

  // ------------------------------------------------------------ keys in use

  predicate Holds(l: seq<Entry>, key: string) {
    exists e :: e in l && KeyNameFor(l, e) == Some(key)
  }

  predicate HeldForKeeps(l: seq<Entry>, key: string) {
    exists e :: e in l && KeyNameFor(l, e) == Some(key) && e.policy != Delete
  }

  lemma HoldsIffHolders(l: seq<Entry>, key: string)
    ensures Holds(l, key) <==> HoldersOf(l, key) != []
    ensures HeldForKeeps(l, key) <==> exists i :: 0 <= i < |HoldersOf(l, key)| && HoldersOf(l, key)[i].retained
  {
    var hs := HoldersOf(l, key);
    if hs != [] {
      HoldersAmongMembers(l, l, key, hs[0]);
    }
    if e :| e in l && KeyNameFor(l, e) == Some(key) {
      HoldersAmongMembers(l, l, key, HolderOf(e));
    }
    if i :| 0 <= i < |hs| && hs[i].retained {
      HoldersAmongMembers(l, l, key, hs[i]);
    }
    if e :| e in l && KeyNameFor(l, e) == Some(key) && e.policy != Delete {
      HoldersAmongMembers(l, l, key, HolderOf(e));
      assert HolderOf(e) in hs;
    }
  }

  function HeldNames(l: seq<Entry>): set<string> {
    set e | e in l && KeyNameFor(l, e).Some? :: KeyNameFor(l, e).value
  }

  // Every key the spec needs or an entry holds, and whether a holder is there to stay.
  function InUseMap(l: seq<Entry>, needed: seq<string>): map<string, bool> {
    map n | n in HeldNames(l) + (set m | m in needed) :: HeldForKeeps(l, n)
  }

  // kmsKeysInUse. `needed` is empty when the spec is not asked.
  method KeysInUse(l: seq<Entry>, needed: seq<string>) returns (inUse: map<string, bool>)
    ensures forall n :: n in inUse <==> n in needed || Holds(l, n)
    ensures forall n :: n in inUse ==> (inUse[n] <==> HeldForKeeps(l, n))
  {
    inUse := map[];
    for i := 0 to |needed|
      invariant forall n :: n in inUse <==> n in needed[..i]
      invariant forall n :: n in inUse ==> !inUse[n]
    {
      inUse := inUse[needed[i] := false];
    }
    var holders := KeyHolders(l);
    var names := holders.Keys;
    while names != {}
      invariant names <= holders.Keys
      invariant forall n :: n in inUse <==> n in needed || n in holders.Keys - names
      invariant forall n :: n in inUse ==> (inUse[n] <==> n in holders.Keys - names && HeldForKeeps(l, n))
    {
      var name :| name in names;
      var hs := holders[name];
      HoldsIffHolders(l, name);
      var retained := name in inUse && inUse[name];
      for k := 0 to |hs|
        invariant retained <==> exists i :: 0 <= i < k && hs[i].retained
      {
        retained := retained || hs[k].retained;
      }
      inUse := inUse[name := retained];
      names := names - {name};
    }
    forall n ensures n in holders <==> Holds(l, n) {
      HoldsIffHolders(l, n);
    }
    forall n | n in inUse && n !in holders ensures !HeldForKeeps(l, n) {
      HoldsIffHolders(l, n);
    }
  }

  lemma InUseMapIs(l: seq<Entry>, needed: seq<string>, n: string)
    ensures n in InUseMap(l, needed) <==> n in needed || Holds(l, n)
    ensures n in InUseMap(l, needed) ==> (InUseMap(l, needed)[n] <==> HeldForKeeps(l, n))
  {
    if e :| e in l && KeyNameFor(l, e) == Some(n) {
      assert KeyNameFor(l, e).value in HeldNames(l);
    }
  }

  // --------------------------------------------------------------- stamping

  const MAX_HELD_BY: nat := 20

  function Labels(hs: seq<Holder>): (r: seq<string>)
    ensures |r| == |hs|
  {
    seq(|hs|, i requires 0 <= i < |hs| => hs[i].rtype.Text() + "/" + hs[i].name)
  }

  function HeldBy(hs: seq<Holder>): seq<string> {
    var names := Sort(Labels(hs));
    if |names| > MAX_HELD_BY then names[..MAX_HELD_BY] + ["and " + Decimal(|names| - MAX_HELD_BY) + " more"] else names
  }

  function Stamped(l: seq<Entry>, e: Entry): Entry {
    e.(onDelete := Some(OnDelete(e)), heldBy := if e.rtype == KMS then HeldBy(HoldersOf(l, e.name)) else [])
  }

  method StampEntry(e: Entry, holders: map<string, seq<Holder>>, ghost l: seq<Entry>) returns (r: Entry)
    requires forall n :: n in holders <==> HoldersOf(l, n) != []
    requires forall n :: n in holders ==> holders[n] == HoldersOf(l, n)
    ensures r == Stamped(l, e)
  {
    r := e.(onDelete := Some(OnDelete(e)), heldBy := []);
    if e.rtype == KMS {
      var hs := if e.name in holders then holders[e.name] else [];
      assert hs == HoldersOf(l, e.name);
      r := r.(heldBy := HeldBy(hs));
    }
  }

  // Stamp sets both published fields of every entry, in place.
  method Stamp(ledger: array<Entry>)
    modifies ledger
    ensures forall i :: 0 <= i < ledger.Length ==> ledger[i] == Stamped(old(ledger[..]), old(ledger[i]))
  {
    ghost var l := ledger[..];
    var holders := KeyHolders(ledger[..]);
    for i := 0 to ledger.Length
      invariant forall k :: 0 <= k < i ==> ledger[k] == Stamped(l, l[k])
      invariant forall k :: i <= k < ledger.Length ==> ledger[k] == l[k]
    {
      var e := StampEntry(ledger[i], holders, l);
      ledger[i] := e;
    }
  }

  // What status publishes and what gates a key's deletion cannot disagree: the
  // published list of a key is empty exactly when the key is not in use.
  lemma StampAgreesWithGate(l: seq<Entry>, e: Entry)
    requires e in l && e.rtype == KMS
    ensures Stamped(l, e).heldBy == [] <==> !Holds(l, e.name)
    ensures |HoldersOf(l, e.name)| <= MAX_HELD_BY ==> multiset(Stamped(l, e).heldBy) == multiset(Labels(HoldersOf(l, e.name)))
  {
    HoldsIffHolders(l, e.name);
    var hs := HoldersOf(l, e.name);
    assert |Sort(Labels(hs))| == |multiset(Sort(Labels(hs)))| == |hs|;
  }
}
