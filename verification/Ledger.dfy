/**
 The ownership ledger (`status.managedResources`): its entries, the operations
 every section goes through, and the time gates that read an entry.
 Times and durations are unbounded integers counting nanoseconds.
 */
module Ledger {

  datatype Option<+T> = None | Some(value: T)

  // Every type an entry of the ledger can have.
  datatype ResourceType =
    | SQS | SNS | DynamoDB | S3 | RDS | KMS | IAM
    | RDSSnapshot | SecurityGroup | SQSSubscription
  {
    function Text(): string {
      match this
      case SQS => "sqs"
      case SNS => "sns"
      case DynamoDB => "dynamodb"
      case S3 => "s3"
      case RDS => "rds"
      case KMS => "kms"
      case IAM => "iam"
      case RDSSnapshot => "rds-snapshot"
      case SecurityGroup => "ec2-securitygroup"
      case SQSSubscription => "sqssubscription"
    }
  }

  datatype DeletionPolicy = Retain | Delete

  datatype State = Creating | TagPending | Verified | NeedsVerification | Relinquished

  datatype OnDeleteOutcome = OnDeleteRetain | OnDeleteManual | OnDeleteEvenIfNotEmpty | OnDeleteDelete

  // An entry. The empty string and the empty list stand for unset fields.
  datatype Entry = Entry(
    rtype: ResourceType,
    name: string,
    arn: string,
    policy: DeletionPolicy,
    force: bool,
    state: State,
    createdAt: int,
    lastVerifiedAt: Option<int>,
    pendingSince: Option<int>,
    lastEmptyCheckAt: Option<int>,
    kmsKeyARN: string,
    onDelete: Option<OnDeleteOutcome>,
    heldBy: seq<string>)
  {
    predicate Is(t: ResourceType, n: string) {
      rtype == t && name == n
    }
  }

  // An entry as the resource packages rebuild it: nothing but what is given.
  function Fresh(t: ResourceType, n: string, arn: string, policy: DeletionPolicy, force: bool, state: State,
                 createdAt: int, lastVerifiedAt: Option<int>): Entry
  {
    Entry(t, n, arn, policy, force, state, createdAt, lastVerifiedAt, None, None, "", None, [])
  }

  // ---------------------------------------------------------------- lookup

  function Find(l: seq<Entry>, t: ResourceType, n: string): Option<Entry> {
    if l == [] then None
    else if l[0].Is(t, n) then Some(l[0])
    else Find(l[1..], t, n)
  }

  predicate Has(l: seq<Entry>, t: ResourceType, n: string) {
    Find(l, t, n).Some?
  }

  // What an update keeps of the entry it replaces.
  function Carry(prior: Entry, e: Entry): Entry {
    e.(kmsKeyARN := if e.kmsKeyARN == "" then prior.kmsKeyARN else e.kmsKeyARN,
       onDelete := if e.onDelete.None? then prior.onDelete else e.onDelete,
       heldBy := if e.heldBy == [] then prior.heldBy else e.heldBy)
  }

  function Upsert(l: seq<Entry>, e: Entry): seq<Entry> {
    if l == [] then [e]
    else if l[0].Is(e.rtype, e.name) then [Carry(l[0], e)] + l[1..]
    else [l[0]] + Upsert(l[1..], e)
  }

  function Remove(l: seq<Entry>, t: ResourceType, n: string): seq<Entry> {
    if l == [] then []
    else if l[0].Is(t, n) then Remove(l[1..], t, n)
    else [l[0]] + Remove(l[1..], t, n)
  }

  // The ledger never holds two entries of one type and name.
  ghost predicate Unique(l: seq<Entry>) {
    forall i, j :: 0 <= i < j < |l| ==> !l[i].Is(l[j].rtype, l[j].name)
  }

  // What looking up the entry of `e` returns after upserting `e` into `l`.
  function Stored(l: seq<Entry>, e: Entry): Entry {
    match Find(l, e.rtype, e.name)
    case None => e
    case Some(prior) => Carry(prior, e)
  }

  // ------------------------------------------------------- laws of lookup

  lemma {:induction false} FindSound(l: seq<Entry>, t: ResourceType, n: string)
    ensures Find(l, t, n).Some? ==> Find(l, t, n).value in l && Find(l, t, n).value.Is(t, n)
    ensures Find(l, t, n).None? <==> forall e :: e in l ==> !e.Is(t, n)
  {
    if l != [] {
      FindSound(l[1..], t, n);
      assert l == [l[0]] + l[1..];
    }
  }

  lemma {:induction false} FindMember(l: seq<Entry>, e: Entry)
    requires Unique(l) && e in l
    ensures Find(l, e.rtype, e.name) == Some(e)
  {
    assert l == [l[0]] + l[1..];
    if l[0] != e {
      var j :| 0 <= j < |l| && l[j] == e;
      assert !l[0].Is(l[j].rtype, l[j].name);
      FindMember(l[1..], e);
    }
  }

  lemma {:induction false} FindUpsert(l: seq<Entry>, e: Entry, t: ResourceType, n: string)
    ensures Find(Upsert(l, e), t, n) == if e.Is(t, n) then Some(Stored(l, e)) else Find(l, t, n)
  {
    if l != [] && !l[0].Is(e.rtype, e.name) {
      FindUpsert(l[1..], e, t, n);
      assert Upsert(l, e)[1..] == Upsert(l[1..], e);
    } else if l != [] {
      assert Upsert(l, e)[1..] == l[1..];
    }
  }

  lemma {:induction false} FindRemove(l: seq<Entry>, t: ResourceType, n: string, t': ResourceType, n': string)
    ensures Find(Remove(l, t, n), t', n') == if t == t' && n == n' then None else Find(l, t', n')
  {
    if l != [] {
      FindRemove(l[1..], t, n, t', n');
      if !l[0].Is(t, n) {
        assert Remove(l, t, n)[1..] == Remove(l[1..], t, n);
      }
    }
  }

  lemma {:induction false} RemoveMembers(l: seq<Entry>, t: ResourceType, n: string, e: Entry)
    ensures e in Remove(l, t, n) <==> e in l && !e.Is(t, n)
  {
    if l != [] {
      RemoveMembers(l[1..], t, n, e);
      assert l == [l[0]] + l[1..];
    }
  }

  lemma {:induction false} UpsertMembers(l: seq<Entry>, e: Entry, x: Entry)
    requires Unique(l)
    ensures x in Upsert(l, e) <==> x == Stored(l, e) || (x in l && !x.Is(e.rtype, e.name))
  {
    if l != [] {
      assert l == [l[0]] + l[1..];
      if l[0].Is(e.rtype, e.name) {
        assert forall y :: y in l[1..] ==> !y.Is(e.rtype, e.name) by {
          forall y | y in l[1..] ensures !y.Is(e.rtype, e.name) {
            var j :| 0 <= j < |l[1..]| && l[1..][j] == y;
            assert !l[0].Is(l[j + 1].rtype, l[j + 1].name);
          }
        }
      } else {
        UpsertMembers(l[1..], e, x);
      }
    }
  }

  lemma {:induction false} UniqueUpsert(l: seq<Entry>, e: Entry)
    requires Unique(l)
    ensures Unique(Upsert(l, e))
  {
    if l != [] {
      if l[0].Is(e.rtype, e.name) {
        assert forall i :: 0 <= i < |l| ==> Upsert(l, e)[i].Is(l[i].rtype, l[i].name);
      } else {
        var rest := Upsert(l[1..], e);
        UniqueUpsert(l[1..], e);
        forall j | 0 <= j < |rest| ensures !l[0].Is(rest[j].rtype, rest[j].name) {
          UpsertMembers(l[1..], e, rest[j]);
          if rest[j] in l[1..] {
            var k :| 0 <= k < |l[1..]| && l[1..][k] == rest[j];
            assert !l[0].Is(l[k + 1].rtype, l[k + 1].name);
          }
        }
      }
    }
  }

  lemma {:induction false} UniqueRemove(l: seq<Entry>, t: ResourceType, n: string)
    requires Unique(l)
    ensures Unique(Remove(l, t, n))
  {
    if l != [] {
      var rest := Remove(l[1..], t, n);
      UniqueRemove(l[1..], t, n);
      if !l[0].Is(t, n) {
        forall j | 0 <= j < |rest| ensures !l[0].Is(rest[j].rtype, rest[j].name) {
          RemoveMembers(l[1..], t, n, rest[j]);
          var k :| 0 <= k < |l[1..]| && l[1..][k] == rest[j];
          assert !l[0].Is(l[k + 1].rtype, l[k + 1].name);
        }
      }
    }
  }

  // l' is l with at most the entry of one type and name changed.
  ghost predicate OneEdit(l: seq<Entry>, l': seq<Entry>, t: ResourceType, n: string) {
    l' == l || l' == Remove(l, t, n) || exists e: Entry :: e.Is(t, n) && l' == Upsert(l, e)
  }

  // The same, for an entry that keeps its ARN.
  ghost predicate EditOf(l: seq<Entry>, l': seq<Entry>, e: Entry) {
    l' == l || l' == Remove(l, e.rtype, e.name)
    || exists x: Entry :: x.Is(e.rtype, e.name) && x.arn == e.arn && l' == Upsert(l, x)
  }

  lemma EditKeepsARN(l: seq<Entry>, l': seq<Entry>, e: Entry)
    requires EditOf(l, l', e) && Find(l, e.rtype, e.name) == Some(e)
    ensures OneEdit(l, l', e.rtype, e.name)
    ensures Find(l', e.rtype, e.name).Some? ==> Find(l', e.rtype, e.name).value.arn == e.arn
  {
    FindRemove(l, e.rtype, e.name, e.rtype, e.name);
    if x: Entry :| x.Is(e.rtype, e.name) && x.arn == e.arn && l' == Upsert(l, x) {
      FindUpsert(l, x, e.rtype, e.name);
    }
  }

  lemma EditFrame(l: seq<Entry>, l': seq<Entry>, t: ResourceType, n: string, t': ResourceType, n': string)
    requires OneEdit(l, l', t, n) && (t' != t || n' != n)
    ensures Find(l', t', n') == Find(l, t', n')
  {
    FindRemove(l, t, n, t', n');
    if e: Entry :| e.Is(t, n) && l' == Upsert(l, e) {
      FindUpsert(l, e, t', n');
    }
  }

  lemma EditKeepsUnique(l: seq<Entry>, l': seq<Entry>, t: ResourceType, n: string)
    requires OneEdit(l, l', t, n) && Unique(l)
    ensures Unique(l')
  {
    UniqueRemove(l, t, n);
    if e: Entry :| e.Is(t, n) && l' == Upsert(l, e) {
      UniqueUpsert(l, e);
    }
  }

  // An update never loses the record of which key the data needs.
  lemma UpsertKeepsKey(l: seq<Entry>, e: Entry, t: ResourceType, n: string)
    requires Find(l, t, n).Some? && Find(l, t, n).value.kmsKeyARN != ""
    requires e.kmsKeyARN == "" || !e.Is(t, n)
    ensures Find(Upsert(l, e), t, n).Some?
    ensures Find(Upsert(l, e), t, n).value.kmsKeyARN == Find(l, t, n).value.kmsKeyARN
  {
    FindUpsert(l, e, t, n);
  }

  // An update replaces every field of the entry but the three it leaves unset:
  // the key, the published outcome and the published holders stay.
  lemma UpsertCarries(l: seq<Entry>, e: Entry)
    requires Has(l, e.rtype, e.name)
    ensures var prior, f := Find(l, e.rtype, e.name).value, Find(Upsert(l, e), e.rtype, e.name);
      && f.Some? && f.value == e.(kmsKeyARN := f.value.kmsKeyARN, onDelete := f.value.onDelete, heldBy := f.value.heldBy)
      && f.value.kmsKeyARN == (if e.kmsKeyARN != "" then e.kmsKeyARN else prior.kmsKeyARN)
      && f.value.onDelete == (if e.onDelete.Some? then e.onDelete else prior.onDelete)
      && f.value.heldBy == (if e.heldBy != [] then e.heldBy else prior.heldBy)
  {
    FindUpsert(l, e, e.rtype, e.name);
  }

  // ---------------------------------------- the operations on a live slice

  class Slice {
    var entries: seq<Entry>

    constructor (initial: seq<Entry>)
      ensures entries == initial
    {
      entries := initial;
    }

    method FindManagedResource(t: ResourceType, n: string) returns (r: Option<Entry>)
      ensures r == Find(entries, t, n)
    {
      var i := 0;
      while i < |entries|
        invariant 0 <= i <= |entries|
        invariant Find(entries, t, n) == Find(entries[i..], t, n)
      {
        if entries[i].Is(t, n) {
          return Some(entries[i]);
        }
        assert entries[i..][1..] == entries[i + 1..];
        i := i + 1;
      }
      return None;
    }

    method UpsertManagedResource(entry: Entry)
      modifies this
      ensures entries == Upsert(old(entries), entry)
    {
      var i := 0;
      while i < |entries|
        invariant 0 <= i <= |entries| && entries == old(entries)
        invariant Upsert(entries, entry) == entries[..i] + Upsert(entries[i..], entry)
      {
        if entries[i].Is(entry.rtype, entry.name) {
          entries := entries[i := Carry(entries[i], entry)];
          assert old(entries)[i..][1..] == old(entries)[i + 1..];
          assert entries == old(entries)[..i] + [Carry(old(entries)[i], entry)] + old(entries)[i + 1..];
          return;
        }
        assert entries[i..][1..] == entries[i + 1..];
        assert entries[..i + 1] == entries[..i] + [entries[i]];
        i := i + 1;
      }
      entries := entries + [entry];
    }

    method RemoveManagedResource(t: ResourceType, n: string)
      modifies this
      ensures entries == Remove(old(entries), t, n)
    {
      var filtered: seq<Entry> := [];
      var i := 0;
      while i < |entries|
        invariant 0 <= i <= |entries| && entries == old(entries)
        invariant Remove(entries, t, n) == filtered + Remove(entries[i..], t, n)
      {
        assert entries[i..][1..] == entries[i + 1..];
        if !entries[i].Is(t, n) {
          filtered := filtered + [entries[i]];
        }
        i := i + 1;
      }
      entries := filtered;
    }
  }

  // ------------------------------------------------------------ time gates

  const MINUTE: int := 60_000_000_000
  const HOUR: int := 60 * MINUTE
  const DAY: int := 24 * HOUR
  const TRUST_WINDOW: int := 10 * MINUTE
  const RELINQUISHED_RECHECK_INTERVAL: int := 24 * HOUR
  const BACKOFF_START_AFTER: int := 24 * HOUR
  const BACKOFF_BASE: int := 10 * MINUTE
  const BACKOFF_MAX: int := 20 * HOUR

  function Relinquish(e: Entry, now: int): Entry {
    e.(state := Relinquished, lastVerifiedAt := Some(now))
  }

  predicate NeedsRelinquishedRecheck(e: Entry, now: int) {
    e.state.Relinquished? &&
    (e.lastVerifiedAt.None? || now - e.lastVerifiedAt.value > RELINQUISHED_RECHECK_INTERVAL)
  }

  predicate NeedsRevalidation(e: Entry, now: int) {
    !e.state.Verified? || e.lastVerifiedAt.None? || now - e.lastVerifiedAt.value > TRUST_WINDOW
  }

  function Pow2(k: nat): nat {
    if k == 0 then 1 else 2 * Pow2(k - 1)
  }

  function Min(a: int, b: int): int {
    if a <= b then a else b
  }

  // The gap demanded between two emptiness checks of a resource pending for `age`.
  function BackoffInterval(age: int): int {
    if age < BACKOFF_START_AFTER then BACKOFF_BASE
    else Min(BACKOFF_MAX, BACKOFF_BASE * Pow2((age - BACKOFF_START_AFTER) / DAY))
  }

  predicate NeedsEmptyCheck(e: Entry, now: int) {
    e.pendingSince.None? ||
    var age := now - e.pendingSince.value;
    age < BACKOFF_START_AFTER || e.lastEmptyCheckAt.None? ||
    now - e.lastEmptyCheckAt.value >= BackoffInterval(age)
  }

  // Integer division as the source's language does it: towards zero.
  function TruncatedDiv(a: int, b: int): int
    requires b > 0
  {
    if a >= 0 then a / b else -((-a) / b)
  }

  lemma {:induction false} Pow2Monotone(a: nat, b: nat)
    requires a <= b
    ensures Pow2(a) <= Pow2(b)
    decreases b - a
  {
    if a < b {
      Pow2Monotone(a, b - 1);
    }
  }

  // The doubling loop computes the closed form, for every age.
  method EmptyCheckInterval(age: int) returns (interval: int)
    ensures interval == BackoffInterval(age)
  {
    interval := BACKOFF_BASE;
    var days := TruncatedDiv(age - BACKOFF_START_AFTER, DAY);
    ghost var total := days;
    assert total > 0 ==> age >= BACKOFF_START_AFTER && total == (age - BACKOFF_START_AFTER) / DAY;
    while days > 0
      invariant days <= total && (total >= 0 ==> days >= 0)
      invariant total <= 0 ==> days == total
      invariant total > 0 ==> interval == BACKOFF_BASE * Pow2(total - days)
      invariant total <= 0 ==> interval == BACKOFF_BASE
      invariant interval < BACKOFF_MAX
    {
      interval := interval * 2;
      assert interval == BACKOFF_BASE * Pow2(total - days + 1);
      if interval >= BACKOFF_MAX {
        Pow2Monotone(total - days + 1, total);
        return BACKOFF_MAX;
      }
      days := days - 1;
    }
    if total <= 0 && age >= BACKOFF_START_AFTER {
      assert (age - BACKOFF_START_AFTER) / DAY == 0;
    }
  }

  // The gap never shrinks as a resource ages.
  lemma BackoffMonotone(a: int, b: int)
    requires a <= b
    ensures BackoffInterval(a) <= BackoffInterval(b)
  {
    if a >= BACKOFF_START_AFTER {
      Pow2Monotone((a - BACKOFF_START_AFTER) / DAY, (b - BACKOFF_START_AFTER) / DAY);
    } else if b >= BACKOFF_START_AFTER {
      Pow2Monotone(0, (b - BACKOFF_START_AFTER) / DAY);
    }
  }

  // A pending resource is never abandoned: at a pass 20 hours or more after the
  // last check, whatever its age, another check is due.
  lemma NeverAbandoned(e: Entry, now: int)
    requires e.lastEmptyCheckAt.Some? ==> now - e.lastEmptyCheckAt.value >= BACKOFF_MAX
    ensures NeedsEmptyCheck(e, now)
  {
    if e.pendingSince.Some? && e.lastEmptyCheckAt.Some? {
      assert BackoffInterval(now - e.pendingSince.value) <= BACKOFF_MAX;
    }
  }

  // The exact ages at which the cap of 20 hours is reached: from the eighth
  // day of waiting on, and not before.
  lemma CapReached(age: int)
    ensures BackoffInterval(age) == BACKOFF_MAX <==> age >= 8 * DAY
  {
    if age >= BACKOFF_START_AFTER {
      var days := (age - BACKOFF_START_AFTER) / DAY;
      assert Pow2(6) == 64 && Pow2(7) == 128 by {
        assert Pow2(2) == 4 && Pow2(4) == 16;
      }
      if days >= 7 {
        Pow2Monotone(7, days);
      } else {
        Pow2Monotone(days, 6);
      }
    }
  }
}
