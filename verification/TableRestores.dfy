/**
 A table declared again while its deletion is pending. When its deny statement
 is lifted and when it stays, and when its mark is gone for good: both exactly,
 for every ledger, spec and list of faults.
 */
module TableRestores {
  import opened Ledger
  import opened Sweep
  import opened Ownership
  import opened TableCloud
  import opened TableCleanup
  import opened TableRuns
  import opened TableReach

  // ----------------------------------------------------- what Ensure leaves

  // The table's entry after Ensure came by without an error: its mark is gone
  // exactly if the entry had to be verified again.
  ghost predicate Revisited(now: int, e: Entry, f: Option<Entry>) {
    && f.Some?
    && (if NeedsRevalidation(e, now) then f.value.pendingSince.None?
        else f.value.pendingSince == e.pendingSince && !NeedsRevalidation(f.value, now))
  }

  lemma VerifyRevisits(env: Env, s: TableSpec, w: Cloud, l: seq<Entry>)
    ensures var r := Verify(env, s, w, l);
      var f := Find(r.ledger, DynamoDB, s.name);
      r.ok ==> f.Some? && f.value.pendingSince.None? && f.value.arn == s.arn
  {
    var createdAt := if Find(l, DynamoDB, s.name).Some? then Find(l, DynamoDB, s.name).value.createdAt else env.now;
    FindUpsert(l, Fresh(DynamoDB, s.name, s.arn, s.policy, s.force, Verified, createdAt, Some(env.now)), DynamoDB, s.name);
  }

  lemma CreatedRevisits(env: Env, from: string, s: TableSpec, w: Cloud, l: seq<Entry>, e: Entry)
    requires Find(l, DynamoDB, s.name) == Some(e) && EnsureTable(env, from, s, w, l).ok && s.arn !in w.tables
    ensures var f := Find(EnsureTable(env, from, s, w, l).ledger, DynamoDB, s.name);
      Revisited(env.now, e, f) && f.value.arn in {e.arn, s.arn}
  {
    FindUpsert(l, Fresh(DynamoDB, s.name, s.arn, s.policy, s.force, Creating, env.now, None), DynamoDB, s.name);
  }

  lemma TrustedRevisits(env: Env, from: string, s: TableSpec, w: Cloud, l: seq<Entry>, e: Entry)
    requires Find(l, DynamoDB, s.name) == Some(e) && EnsureTable(env, from, s, w, l).ok
    requires s.arn in w.tables && !NeedsRevalidation(e, env.now)
    ensures var f := Find(EnsureTable(env, from, s, w, l).ledger, DynamoDB, s.name);
      Revisited(env.now, e, f) && f.value.arn in {e.arn, s.arn}
  {
    FindSound(l, DynamoDB, s.name);
    FindUpsert(l, e.(policy := s.policy, force := s.force), DynamoDB, s.name);
  }

  lemma CheckedRevisits(env: Env, from: string, s: TableSpec, w: Cloud, l: seq<Entry>, e: Entry)
    requires Find(l, DynamoDB, s.name) == Some(e) && EnsureTable(env, from, s, w, l).ok
    requires s.arn in w.tables && NeedsRevalidation(e, env.now)
    ensures var f := Find(EnsureTable(env, from, s, w, l).ledger, DynamoDB, s.name);
      Revisited(env.now, e, f) && f.value.arn in {e.arn, s.arn}
  {
    var (w1, t) := Describe(w, s.arn);
    var (w2, tags) := ListTags(w1, s.arn);
    var w3 := if tags.Answer? && IsOwnedBy(tags.value, env.cr) then w2 else Adopt(env, from, s, t.value, w2).0;
    assert EnsureTable(env, from, s, w, l) == Verify(env, s, w3, l);
    VerifyRevisits(env, s, w3, l);
  }

  lemma TableRevisits(env: Env, from: string, s: TableSpec, w: Cloud, l: seq<Entry>, e: Entry)
    requires Find(l, DynamoDB, s.name) == Some(e) && EnsureTable(env, from, s, w, l).ok
    ensures var f := Find(EnsureTable(env, from, s, w, l).ledger, DynamoDB, s.name);
      Revisited(env.now, e, f) && f.value.arn in {e.arn, s.arn}
  {
    if s.arn !in w.tables {
      CreatedRevisits(env, from, s, w, l, e);
    } else if !NeedsRevalidation(e, env.now) {
      TrustedRevisits(env, from, s, w, l, e);
    } else {
      CheckedRevisits(env, from, s, w, l, e);
    }
  }

  lemma OneRevisits(env: Env, from: string, s: TableSpec, w: Cloud, l: seq<Entry>, e: Entry)
    requires Find(l, DynamoDB, s.name) == Some(e) && EnsureOne(env, from, s, w, l).ok
    ensures var f := Find(EnsureOne(env, from, s, w, l).ledger, DynamoDB, s.name);
      Revisited(env.now, e, f) && f.value.arn in {e.arn, s.arn}
  {
    KeyFrame(l, KeyRecorded(l, s), s.name, DynamoDB, s.name);
    TableRevisits(env, from, s, w, KeyRecorded(l, s), e);
  }

  // The entry of n after the first k tables: as it was while n has not come up,
  // and revisited from then on.
  ghost predicate Visited(now: int, specs: seq<TableSpec>, k: nat, n: string, e: Entry, f: Option<Entry>)
    requires k <= |specs|
  {
    if n in Names(specs)[..k] then Revisited(now, e, f) else f == Some(e)
  }

  lemma RevisitedTwice(now: int, e: Entry, x: Entry, f: Option<Entry>)
    requires Revisited(now, e, Some(x)) && Revisited(now, x, f)
    requires x.pendingSince.None? ==> f.value.pendingSince.None?
    ensures Revisited(now, e, f)
  {
  }

  // The states between the tables of a spec.
  ghost predicate Ensures(env: Env, from: string, specs: seq<TableSpec>, t: seq<Ensured>) {
    |t| == |specs| + 1 && forall i: nat :: i < |specs| ==> TableAt(env, from, specs, t, i)
  }

  ghost predicate TableAt(env: Env, from: string, specs: seq<TableSpec>, t: seq<Ensured>, i: nat)
    requires i < |specs| && |t| == |specs| + 1
  {
    EnsuresAt(env, from, specs[i], t[i], t[i + 1])
  }

  ghost predicate EnsuresAt(env: Env, from: string, s: TableSpec, r: Ensured, r': Ensured) {
    var o := EnsureOne(env, from, s, r.world, r.ledger);
    r' == Ensured(o.world, o.ledger, r.ok && o.ok)
  }

  lemma NextState(env: Env, from: string, specs: seq<TableSpec>, i: nat, w: Cloud, l: seq<Entry>)
    requires i < |specs|
    ensures EnsuresAt(env, from, specs[i], EnsureUpto(env, from, specs, i, w, l), EnsureUpto(env, from, specs, i + 1, w, l))
  {
  }

  lemma EnsureStates(env: Env, from: string, specs: seq<TableSpec>, w: Cloud, l: seq<Entry>) returns (t: seq<Ensured>)
    ensures Ensures(env, from, specs, t) && forall i :: 0 <= i <= |specs| ==> t[i] == EnsureUpto(env, from, specs, i, w, l)
  {
    t := seq(|specs| + 1, i requires 0 <= i <= |specs| => EnsureUpto(env, from, specs, i, w, l));
    forall i: nat | i < |specs| ensures TableAt(env, from, specs, t, i) {
      NextState(env, from, specs, i, w, l);
    }
  }

  lemma {:induction false} OkBefore(env: Env, from: string, specs: seq<TableSpec>, t: seq<Ensured>, a: nat, b: nat)
    requires Ensures(env, from, specs, t) && a <= b <= |specs| && t[b].ok
    ensures t[a].ok
    decreases b - a
  {
    if a < b {
      assert TableAt(env, from, specs, t, b - 1);
      OkBefore(env, from, specs, t, a, b - 1);
    }
  }

  lemma {:induction false} StatesVisit(env: Env, from: string, specs: seq<TableSpec>, t: seq<Ensured>, k: nat, n: string, e: Entry)
    requires Ensures(env, from, specs, t) && k <= |specs| && Find(t[0].ledger, DynamoDB, n) == Some(e) && t[k].ok
    ensures Visited(env.now, specs, k, n, e, Find(t[k].ledger, DynamoDB, n))
  {
    if k > 0 {
      OkBefore(env, from, specs, t, k - 1, k);
      StatesVisit(env, from, specs, t, k - 1, n, e);
      assert TableAt(env, from, specs, t, k - 1);
      LastVisit(env, from, specs, k, t[k - 1], t[k], n, e);
    }
  }

  lemma EnsureVisits(env: Env, from: string, specs: seq<TableSpec>, k: nat, w: Cloud, l: seq<Entry>, n: string, e: Entry)
    requires k <= |specs| && Find(l, DynamoDB, n) == Some(e) && EnsureUpto(env, from, specs, |specs|, w, l).ok
    ensures Visited(env.now, specs, k, n, e, Find(EnsureUpto(env, from, specs, k, w, l).ledger, DynamoDB, n))
  {
    var t := EnsureStates(env, from, specs, w, l);
    assert t[0] == EnsureUpto(env, from, specs, 0, w, l);
    OkBefore(env, from, specs, t, k, |specs|);
    StatesVisit(env, from, specs, t, k, n, e);
  }

  lemma LastVisit(env: Env, from: string, specs: seq<TableSpec>, k: nat, r: Ensured, r': Ensured, n: string, e: Entry)
    requires 0 < k <= |specs| && EnsuresAt(env, from, specs[k - 1], r, r') && r'.ok
    requires Visited(env.now, specs, k - 1, n, e, Find(r.ledger, DynamoDB, n))
    ensures Visited(env.now, specs, k, n, e, Find(r'.ledger, DynamoDB, n))
  {
    var names, s := Names(specs), specs[k - 1];
    assert names[..k] == names[..k - 1] + [s.name];
    OneFrame(r.ledger, r'.ledger, s, DynamoDB, n);
    if s.name == n {
      var x := Find(r.ledger, DynamoDB, n).value;
      OneRevisits(env, from, s, r.world, r.ledger, x);
      if n in names[..k - 1] {
        RevisitedTwice(env.now, e, x, Find(r'.ledger, DynamoDB, n));
      }
    }
  }

  // --------------------------------------------------------- names and ARNs

  // A table's name and its ARN determine each other, in the ledger and the spec.
  ghost predicate Located(l: seq<Entry>, specs: seq<TableSpec>) {
    && (forall x, y :: x in l && y in l && x.rtype == DynamoDB && y.rtype == DynamoDB && x.arn == y.arn ==> x.name == y.name)
    && (forall x, s :: x in l && x.rtype == DynamoDB && s in specs ==> (x.name == s.name <==> x.arn == s.arn))
    && (forall s, s' :: s in specs && s' in specs ==> (s.name == s'.name <==> s.arn == s'.arn))
  }

  // The table called n, and no other, is recorded under the ARN.
  ghost predicate Alone(l: seq<Entry>, n: string, arn: string) {
    forall x :: Find(l, DynamoDB, x).Some? ==> (x == n <==> Find(l, DynamoDB, x).value.arn == arn)
  }

  lemma LocatedIsAlone(l: seq<Entry>, specs: seq<TableSpec>, n: string, e: Entry)
    requires Located(l, specs) && Find(l, DynamoDB, n) == Some(e)
    ensures e in l && Alone(l, n, e.arn)
  {
    FindSound(l, DynamoDB, n);
    forall x | Find(l, DynamoDB, x).Some? ensures x == n <==> Find(l, DynamoDB, x).value.arn == e.arn {
      FindSound(l, DynamoDB, x);
    }
  }

  lemma OneStaysAlone(env: Env, from: string, s: TableSpec, w: Cloud, l: seq<Entry>, n: string, arn: string)
    requires Alone(l, n, arn) && (s.name == n <==> s.arn == arn)
    ensures Alone(EnsureOne(env, from, s, w, l).ledger, n, arn)
  {
    EditsStayAlone(l, EnsureOne(env, from, s, w, l).ledger, s, n, arn);
  }

  lemma EditsStayAlone(l: seq<Entry>, l': seq<Entry>, s: TableSpec, n: string, arn: string)
    requires Alone(l, n, arn) && (s.name == n <==> s.arn == arn) && OneEdits(l, l', s)
    ensures Alone(l', n, arn)
  {
    forall x | Find(l', DynamoDB, x).Some? ensures x == n <==> Find(l', DynamoDB, x).value.arn == arn {
      OneFrame(l, l', s, DynamoDB, x);
    }
  }

  // The table at the ARN is there, and denied as before.
  ghost predicate DenyKept(w: Cloud, w': Cloud, arn: string) {
    arn in w.tables ==> arn in w'.tables && w'.tables[arn].denied == w.tables[arn].denied
  }

  lemma OneKeepsDeny(env: Env, from: string, s: TableSpec, w: Cloud, l: seq<Entry>, arn: string)
    ensures DenyKept(w, EnsureOne(env, from, s, w, l).world, arn)
  {
    OneReaches(env, from, s, w, l);
    if arn != s.arn {
      OthersKept(w, EnsureOne(env, from, s, w, l).world, s.arn, arn);
    }
  }

  lemma {:induction false} StatesKeep(env: Env, from: string, specs: seq<TableSpec>, t: seq<Ensured>, k: nat, n: string, arn: string)
    requires Ensures(env, from, specs, t) && k <= |specs| && Alone(t[0].ledger, n, arn)
    requires forall s :: s in specs ==> (s.name == n <==> s.arn == arn)
    ensures Alone(t[k].ledger, n, arn) && DenyKept(t[0].world, t[k].world, arn)
  {
    if k > 0 {
      StatesKeep(env, from, specs, t, k - 1, n, arn);
      assert TableAt(env, from, specs, t, k - 1);
      OneStaysAlone(env, from, specs[k - 1], t[k - 1].world, t[k - 1].ledger, n, arn);
      OneKeepsDeny(env, from, specs[k - 1], t[k - 1].world, t[k - 1].ledger, arn);
    }
  }

  lemma EnsureKeeps(env: Env, from: string, specs: seq<TableSpec>, w: Cloud, l: seq<Entry>, n: string, arn: string)
    requires Alone(l, n, arn) && forall s :: s in specs ==> (s.name == n <==> s.arn == arn)
    ensures var r := EnsureUpto(env, from, specs, |specs|, w, l);
      Alone(r.ledger, n, arn) && DenyKept(w, r.world, arn)
  {
    var t := EnsureStates(env, from, specs, w, l);
    assert t[0] == EnsureUpto(env, from, specs, 0, w, l);
    StatesKeep(env, from, specs, t, |specs|, n, arn);
  }

  // --------------------------------------------------------- what Cleanup does

  ghost predicate SameAt(w: Cloud, w': Cloud, arn: string) {
    (arn in w'.tables <==> arn in w.tables) && (arn in w.tables ==> w'.tables[arn] == w.tables[arn])
  }

  function TableOf(w: Cloud, arn: string): Option<Table> {
    if arn in w.tables then Some(w.tables[arn]) else None
  }

  lemma OthersLeaveIt(env: Env, declared: set<string>, l: seq<Entry>, a: nat, b: nat, p: TablePass, arn: string)
    requires a <= b <= |l| && forall i :: a <= i < b && l[i].rtype == DynamoDB ==> l[i].arn != arn
    ensures SameAt(Upto(Step(env, declared), l, a, p).world, Upto(Step(env, declared), l, b, p).world, arn)
  {
    var view, other := (w: Cloud) => TableOf(w, arn), (e: Entry) => e.rtype == DynamoDB ==> e.arn != arn;
    forall q: TablePass, e: Entry | other(e) ensures view(Step(env, declared)(q, e).world) == view(q.world) {
      OtherLeavesIt(env, declared, q, e, arn);
    }
    Unmoved(Step(env, declared), l, a, b, p, view, other);
  }

  lemma OtherLeavesIt(env: Env, declared: set<string>, p: TablePass, e: Entry, arn: string)
    requires e.rtype == DynamoDB ==> e.arn != arn
    ensures SameAt(p.world, AfterEntry(env, declared, p, e).world, arn)
  {
    if e.rtype == DynamoDB {
      EntryReaches(env, declared, "", p, e);
      OthersKept(p.world, AfterEntry(env, declared, p, e).world, e.arn, arn);
    }
  }

  // A declared entry's step without an error lifts the deny if there is a mark,
  // and leaves no mark.
  lemma RestoreLifts(p: TablePass, x: Entry)
    requires x.rtype == DynamoDB && x.arn in p.world.tables && !AfterRestore(p, x).failed
    ensures var w := AfterRestore(p, x).world;
      x.arn in w.tables && (w.tables[x.arn].denied <==> p.world.tables[x.arn].denied && x.pendingSince.None?)
  {
  }

  lemma RestoreClears(p: TablePass, x: Entry)
    requires x.rtype == DynamoDB && Find(p.ledger, DynamoDB, x.name) == Some(x) && !AfterRestore(p, x).failed
    ensures Find(AfterRestore(p, x).ledger, DynamoDB, x.name).Some?
    ensures Find(AfterRestore(p, x).ledger, DynamoDB, x.name).value.pendingSince.None?
  {
    FindUpsert(p.ledger, x.(pendingSince := None, lastEmptyCheckAt := None), DynamoDB, x.name);
  }

  // No other table entry has the ARN.
  lemma OnlyOneHere(l: seq<Entry>, k: nat)
    requires Unique(l) && k < |l| && l[k].rtype == DynamoDB && Alone(l, l[k].name, l[k].arn)
    ensures forall i :: 0 <= i < |l| && i != k && l[i].rtype == DynamoDB ==> l[i].arn != l[k].arn
  {
    forall i | 0 <= i < |l| && i != k && l[i].rtype == DynamoDB ensures l[i].arn != l[k].arn {
      FindMember(l, l[i]);
      assert !l[i].Is(l[k].rtype, l[k].name) || !l[k].Is(l[i].rtype, l[i].name);
    }
  }

  lemma CleanupLifts(env: Env, declared: set<string>, w: Cloud, l: seq<Entry>, k: nat)
    requires Unique(l) && k < |l| && l[k].rtype == DynamoDB && l[k].name in declared && Alone(l, l[k].name, l[k].arn)
    requires l[k].arn in w.tables && !AfterCleanup(env, declared, w, l).failed
    ensures var x, w' := l[k], AfterCleanup(env, declared, w, l).world;
      x.arn in w'.tables && (w'.tables[x.arn].denied <==> w.tables[x.arn].denied && x.pendingSince.None?)
  {
    var step, start, x := Step(env, declared), Pass(w, l, [], false), l[k];
    OnlyOneHere(l, k);
    OthersLeaveIt(env, declared, l, 0, k, start, x.arn);
    OthersLeaveIt(env, declared, l, k + 1, |l|, start, x.arn);
    StepIsSteady(env, declared);
    NotFailedAt(step, l, k, start);
    var q := Upto(step, l, k, start);
    RestoreLifts(q, x);
    assert step(q, x) == AfterRestore(q, x);
  }

  lemma CleanupClears(env: Env, declared: set<string>, w: Cloud, l: seq<Entry>, k: nat)
    requires Unique(l) && k < |l| && l[k].rtype == DynamoDB && l[k].name in declared
    requires !AfterCleanup(env, declared, w, l).failed
    ensures var f := Find(AfterCleanup(env, declared, w, l).ledger, DynamoDB, l[k].name);
      f.Some? && f.value.pendingSince.None?
  {
    var step, start := Step(env, declared), Pass(w, l, [], false);
    StepFinds(env, declared, w, l, k, DynamoDB);
    StepIsSteady(env, declared);
    NotFailedAt(step, l, k, start);
    RestoreClears(Upto(step, l, k, start), l[k]);
  }

  // -------------------------------------------------------------- both laws

  // A pass that saw the table declared, and in which nothing failed.
  ghost predicate SawDeclared(s: Status, m: Move, n: string) {
    && m.SectionPass? && !m.deleting && n in Names(m.specs)
    && EnsuredOf(s, m).ok && !PassOf(s, m).failed
  }

  // The deny of a pending table that is declared again stays, in a pass in which
  // nothing failed, if and only if the entry had to be verified again: Ensure
  // then takes off the mark by which Cleanup would have lifted it.
  lemma DenyStaysIff(s: Status, m: Move, n: string, e: Entry)
    requires Unique(s.ledger) && SawDeclared(s, m, n) && Located(s.ledger, m.specs)
    requires Find(s.ledger, DynamoDB, n) == Some(e) && e.pendingSince.Some?
    requires e.arn in s.cloud.tables && s.cloud.tables[e.arn].denied
    ensures var w := PassOf(s, m).world;
      e.arn in w.tables && (w.tables[e.arn].denied <==> NeedsRevalidation(e, m.env.now))
  {
    var en := EnsuredOf(s, m);
    LocatedIsAlone(s.ledger, m.specs, n, e);
    FindSound(s.ledger, DynamoDB, n);
    EnsureKeeps(m.env, m.from, m.specs, s.cloud, s.ledger, n, e.arn);
    EnsuredEntry(s, m, n, e);
    var x := Find(en.ledger, DynamoDB, n).value;
    FindSound(en.ledger, DynamoDB, n);
    var k :| 0 <= k < |en.ledger| && en.ledger[k] == x;
    PassKeepsUnique(s, m);
    CleanupLifts(m.env, DeclaredIn(m), en.world, en.ledger, k);
  }

  lemma EnsuredEntry(s: Status, m: Move, n: string, e: Entry)
    requires SawDeclared(s, m, n) && Find(s.ledger, DynamoDB, n) == Some(e)
    ensures Revisited(m.env.now, e, Find(EnsuredOf(s, m).ledger, DynamoDB, n)) && n in DeclaredIn(m)
  {
    var specs := m.specs;
    EnsureVisits(m.env, m.from, specs, |specs|, s.cloud, s.ledger, n, e);
    assert Names(specs)[..|specs|] == Names(specs);
  }

  // After such a pass the stored status has no mark on the table if and only if
  // the pass's outcome was stored, or a checkpoint was after Ensure had verified
  // the table again. In every other case a later pass finds the old mark.
  lemma MarkGoneIff(s: Status, m: Move, n: string, e: Entry)
    requires Unique(s.ledger) && SawDeclared(s, m, n)
    requires Find(s.ledger, DynamoDB, n) == Some(e) && e.pendingSince.Some?
    ensures var f := Find(After(s, m).ledger, DynamoDB, n);
      && f.Some?
      && (f.value.pendingSince.None? <==>
            || m.persist.Whole?
            || (&& m.persist.MidEnsure? && m.persist.k <= |m.specs| && n in Names(m.specs)[..m.persist.k]
                && NeedsRevalidation(e, m.env.now)))
  {
    if m.persist.Whole? {
      var en := EnsuredOf(s, m);
      EnsuredEntry(s, m, n, e);
      FindSound(en.ledger, DynamoDB, n);
      var k :| 0 <= k < |en.ledger| && en.ledger[k] == Find(en.ledger, DynamoDB, n).value;
      PassKeepsUnique(s, m);
      CleanupClears(m.env, DeclaredIn(m), en.world, en.ledger, k);
    } else if m.persist.MidEnsure? && m.persist.k <= |m.specs| {
      EnsureVisits(m.env, m.from, m.specs, m.persist.k, s.cloud, s.ledger, n, e);
    }
  }
}
