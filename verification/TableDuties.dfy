/**
 What Ensure owes a declared table: after a pass without an error it is there,
 tracked under the spec's policy and recently verified; when nothing fails, a
 call succeeds exactly if the table can be had; and a table that was only ever
 declared to be retained is never deleted.
 */
module TableDuties {
  import opened Ledger
  import opened Sweep
  import opened Ownership
  import opened TableCloud
  import opened TableCleanup
  import opened TableRuns
  import opened TableRestores

  ghost predicate Ours(cr: CR, w: Cloud, arn: string) {
    arn in w.tables && IsOwnedBy(w.tables[arn].tags, cr)
  }

  ghost predicate VerifiedLately(now: int, e: Entry) {
    e.state.Verified? && e.lastVerifiedAt.Some? && now - e.lastVerifiedAt.value <= 10 * MINUTE
  }

  ghost predicate Trusted(now: int, l: seq<Entry>, n: string) {
    Find(l, DynamoDB, n).Some? && VerifiedLately(now, Find(l, DynamoDB, n).value)
  }

  // What a call without an error leaves: the table, and its entry under the
  // spec's policy. A table that was missing is new and the CR's own; any other
  // was verified lately, and is the CR's own unless it was trusted.
  ghost predicate Served(env: Env, s: TableSpec, w: Cloud, l: seq<Entry>, r: Ensured) {
    var f := Find(r.ledger, DynamoDB, s.name);
    && UnderSpec(s, f) && s.arn in r.world.tables
    && (if s.arn !in w.tables then f.value.state.Creating? && f.value.arn == s.arn && Ours(env.cr, r.world, s.arn)
        else && VerifiedLately(env.now, f.value)
             && (!Trusted(env.now, l, s.name) ==> f.value.arn == s.arn && Ours(env.cr, r.world, s.arn)))
  }

  lemma VerifyServes(env: Env, s: TableSpec, w: Cloud, l: seq<Entry>)
    requires Verify(env, s, w, l).ok
    ensures var r := Verify(env, s, w, l);
      var f := Find(r.ledger, DynamoDB, s.name);
      UnderSpec(s, f) && VerifiedLately(env.now, f.value) && f.value.arn == s.arn && r.world.tables == w.tables
  {
    var createdAt := if Find(l, DynamoDB, s.name).Some? then Find(l, DynamoDB, s.name).value.createdAt else env.now;
    FindUpsert(l, Fresh(DynamoDB, s.name, s.arn, s.policy, s.force, Verified, createdAt, Some(env.now)), DynamoDB, s.name);
  }

  lemma AdoptServes(env: Env, from: string, s: TableSpec, table: Table, w: Cloud)
    requires Adopt(env, from, s, table, w).1
    ensures Ours(env.cr, Adopt(env, from, s, table, w).0, s.arn)
  {
    TagsAreMine(table.tags, env.cr);
  }

  lemma TableServes(env: Env, from: string, s: TableSpec, w: Cloud, l: seq<Entry>)
    requires EnsureTable(env, from, s, w, l).ok
    ensures Served(env, s, w, l, EnsureTable(env, from, s, w, l))
  {
    var existing := Find(l, DynamoDB, s.name);
    var (w1, t) := Describe(w, s.arn);
    if t.NotFound? {
      TagsAreMine(map[], env.cr);
      FindUpsert(l, Fresh(DynamoDB, s.name, s.arn, s.policy, s.force, Creating, env.now, None), DynamoDB, s.name);
    } else if existing.Some? && !NeedsRevalidation(existing.value, env.now) {
      FindSound(l, DynamoDB, s.name);
      FindUpsert(l, existing.value.(policy := s.policy, force := s.force), DynamoDB, s.name);
    } else {
      var (w2, tags) := ListTags(w1, s.arn);
      if IsOwnedBy(tags.value, env.cr) {
        VerifyServes(env, s, w2, l);
      } else {
        AdoptServes(env, from, s, t.value, w2);
        VerifyServes(env, s, Adopt(env, from, s, t.value, w2).0, l);
      }
    }
  }

  // Whatever the ledger, the cloud and the faults.
  lemma CallServes(env: Env, from: string, s: TableSpec, w: Cloud, l: seq<Entry>)
    requires EnsureOne(env, from, s, w, l).ok
    ensures Served(env, s, w, l, EnsureOne(env, from, s, w, l))
  {
    KeyFrame(l, KeyRecorded(l, s), s.name, DynamoDB, s.name);
    TableServes(env, from, s, w, KeyRecorded(l, s));
  }

  lemma {:induction false} StaysServed(env: Env, from: string, specs: seq<TableSpec>, t: seq<Ensured>, i: nat, j: nat, n: string, arn: string)
    requires Ensures(env, from, specs, t) && i <= j <= |specs| && arn in t[i].world.tables
    requires forall k :: i <= k < j ==> specs[k].name != n
    ensures Find(t[j].ledger, DynamoDB, n) == Find(t[i].ledger, DynamoDB, n) && arn in t[j].world.tables
    decreases j - i
  {
    if i < j {
      StaysServed(env, from, specs, t, i, j - 1, n, arn);
      assert TableAt(env, from, specs, t, j - 1);
      OneFrame(t[j - 1].ledger, t[j].ledger, specs[j - 1], DynamoDB, n);
      OneKeepsDeny(env, from, specs[j - 1], t[j - 1].world, t[j - 1].ledger, arn);
    }
  }

  // The table is there, under the spec, and new or lately verified.
  ghost predicate Kept(now: int, s: TableSpec, r: Ensured) {
    && s.arn in r.world.tables && Find(r.ledger, DynamoDB, s.name).Some?
    && var e := Find(r.ledger, DynamoDB, s.name).value;
    && e.policy == s.policy && e.force == s.force && (e.state.Creating? || VerifiedLately(now, e))
  }

  lemma StepServes(env: Env, from: string, s: TableSpec, r: Ensured, r': Ensured)
    requires EnsuresAt(env, from, s, r, r') && r'.ok
    ensures Kept(env.now, s, r')
  {
    CallServes(env, from, s, r.world, r.ledger);
  }

  lemma StatesServe(env: Env, from: string, specs: seq<TableSpec>, t: seq<Ensured>, i: nat)
    requires Ensures(env, from, specs, t) && t[|specs|].ok
    requires i < |specs| && forall j :: i < j < |specs| ==> specs[j].name != specs[i].name
    ensures Kept(env.now, specs[i], t[|specs|])
  {
    OkBefore(env, from, specs, t, i + 1, |specs|);
    assert TableAt(env, from, specs, t, i);
    StepServes(env, from, specs[i], t[i], t[i + 1]);
    StaysServed(env, from, specs, t, i + 1, |specs|, specs[i].name, specs[i].arn);
  }

  // For every spec list, ledger and fault list: after an Ensure without an
  // error each declared table is there, with an entry under the spec's policy
  // and force that is new or was verified in the last ten minutes.
  lemma DeclaredTablesAreServed(env: Env, from: string, specs: seq<TableSpec>, w: Cloud, l: seq<Entry>, i: nat)
    requires i < |specs| && forall j :: i < j < |specs| ==> specs[j].name != specs[i].name
    ensures var r := EnsureUpto(env, from, specs, |specs|, w, l); r.ok ==> Kept(env.now, specs[i], r)
  {
    var t := EnsureStates(env, from, specs, w, l);
    var r := EnsureUpto(env, from, specs, |specs|, w, l);
    assert t[|specs|] == r;
    if r.ok {
      StatesServe(env, from, specs, t, i);
    }
  }

  // ------------------------------------------------------ when nothing fails

  // The table can be had: a missing one may be made unless it was tracked, and
  // one that is there is in order and trusted, the CR's own, or to be taken over.
  ghost predicate Feasible(env: Env, from: string, s: TableSpec, w: Cloud, l: seq<Entry>) {
    var f := Find(l, DynamoDB, s.name);
    var tracked := f.Some? && !f.value.state.Relinquished?;
    if s.arn !in w.tables then !tracked
    else
      var t := w.tables[s.arn];
      && t.workable && (tracked ==> t.schema == s.schema)
      && (|| Trusted(env.now, l, s.name)
          || IsOwnedBy(t.tags, env.cr)
          || (t.schema == s.schema && (Inherited(env.cr, from, t.tags) || (s.adopt && Unclaimed(env.cr, t.tags)))))
  }

  // With every call answered and its key at hand, ensuring a table succeeds
  // exactly if it can be had.
  lemma CallSucceedsIff(env: Env, from: string, s: TableSpec, w: Cloud, l: seq<Entry>)
    requires w.faults == []
    requires (s.keyRef == "" || SharedKeyReady(l, s.keyRef)) && (s.key.Some? ==> s.key.value.ok)
    ensures EnsureOne(env, from, s, w, l).ok <==> Feasible(env, from, s, w, l)
  {
    KeyFrame(l, KeyRecorded(l, s), s.name, DynamoDB, s.name);
    if s.arn in w.tables {
      LadderMeans(w.tables[s.arn].tags, env.cr, s.adopt, from);
    }
    assert EnsureOne(env, from, s, w, l) == EnsureTable(env, from, s, w, KeyRecorded(l, s));
  }

  // -------------------------------------------------------- retained for good

  // The table's entry, if there is one, says to retain it.
  ghost predicate ToRetain(l: seq<Entry>, n: string) {
    Find(l, DynamoDB, n).Some? ==> Find(l, DynamoDB, n).value.policy == Retain
  }

  // No spec of the pass declares n to be deleted.
  ghost predicate NeverToDelete(specs: seq<TableSpec>, n: string) {
    forall s :: s in specs && s.name == n ==> s.policy == Retain
  }

  lemma {:induction false} EnsureRetains(env: Env, from: string, specs: seq<TableSpec>, k: nat, w: Cloud, l: seq<Entry>, n: string)
    requires k <= |specs| && ToRetain(l, n) && NeverToDelete(specs, n)
    ensures ToRetain(EnsureUpto(env, from, specs, k, w, l).ledger, n)
  {
    if k > 0 {
      EnsureRetains(env, from, specs, k - 1, w, l, n);
      LastEdit(env, from, specs, k, w, l);
      OneFrame(EnsureUpto(env, from, specs, k - 1, w, l).ledger, EnsureUpto(env, from, specs, k, w, l).ledger, specs[k - 1], DynamoDB, n);
    }
  }

  lemma RetainedStays(env: Env, declared: set<string>, p: TablePass, e: Entry)
    requires e.rtype == DynamoDB && e.policy == Retain && Find(p.ledger, DynamoDB, e.name) == Some(e)
    ensures ToRetain(AfterEntry(env, declared, p, e).ledger, e.name)
  {
    FindRemove(p.ledger, DynamoDB, e.name, DynamoDB, e.name);
    FindUpsert(p.ledger, Relinquish(e, env.now), DynamoDB, e.name);
    FindUpsert(p.ledger, e.(pendingSince := None, lastEmptyCheckAt := None), DynamoDB, e.name);
  }

  lemma CleanupRetains(env: Env, declared: set<string>, w: Cloud, l: seq<Entry>, n: string)
    requires Unique(l) && ToRetain(l, n)
    ensures ToRetain(AfterCleanup(env, declared, w, l).ledger, n)
  {
    if Find(l, DynamoDB, n).None? {
      StepIsLocal(env, declared);
      Outside(Step(env, declared), DynamoDB, {DynamoDB}, l, Pass(w, l, [], false), DynamoDB, n);
    } else {
      FindSound(l, DynamoDB, n);
      var k :| 0 <= k < |l| && l[k] == Find(l, DynamoDB, n).value;
      StepFinds(env, declared, w, l, k, DynamoDB);
      RetainedStays(env, declared, Upto(Step(env, declared), l, k, Pass(w, l, [], false)), l[k]);
    }
  }

  ghost predicate SpecRetains(m: Move, n: string) {
    m.SectionPass? && !m.deleting ==> NeverToDelete(m.specs, n)
  }

  lemma MoveRetains(s: Status, m: Move, n: string)
    requires Unique(s.ledger) && Allowed(s, m) && ToRetain(s.ledger, n) && SpecRetains(m, n)
    ensures ToRetain(After(s, m).ledger, n)
    ensures m.SectionPass? ==> ToRetain(EnsuredOf(s, m).ledger, n)
  {
    if m.Elsewhere? {
      assert SameLife(Find(s.ledger, DynamoDB, n), Find(m.next.ledger, DynamoDB, n));
    } else {
      PassKeepsUnique(s, m);
      if !m.deleting {
        EnsureRetains(m.env, m.from, m.specs, |m.specs|, s.cloud, s.ledger, n);
        if m.persist.MidEnsure? && m.persist.k <= |m.specs| {
          EnsureRetains(m.env, m.from, m.specs, m.persist.k, s.cloud, s.ledger, n);
        }
      }
      CleanupRetains(m.env, DeclaredIn(m), EnsuredOf(s, m).world, EnsuredOf(s, m).ledger, n);
    }
  }

  ghost predicate RetainsAt(trace: seq<Status>, run: seq<Move>, k: nat, n: string)
    requires k < |run| && |trace| == |run| + 1
  {
    StepAt(trace, run, k) && SpecRetains(run[k], n)
  }

  lemma {:induction false} StaysToRetain(trace: seq<Status>, run: seq<Move>, i: nat, j: nat, n: string)
    requires i <= j <= |run| && |trace| == |run| + 1 && Unique(trace[i].ledger) && ToRetain(trace[i].ledger, n)
    requires forall k: nat :: i <= k < j ==> RetainsAt(trace, run, k, n)
    ensures Unique(trace[j].ledger) && ToRetain(trace[j].ledger, n)
    decreases j - i
  {
    if i < j {
      StaysToRetain(trace, run, i, j - 1, n);
      assert RetainsAt(trace, run, j - 1, n);
      MoveKeepsUnique(trace[j - 1], run[j - 1]);
      MoveRetains(trace[j - 1], run[j - 1], n);
    }
  }

  // From a state whose entry says Retain, in every run whose specs declare the
  // table so or not at all, no pass sends a delete for it, forced or not,
  // whatever fails, while it is declared and after it was dropped.
  lemma RetainedIsNeverDeleted(trace: seq<Status>, run: seq<Move>, i: nat, k: nat, n: string, d: nat)
    requires i <= k < |run| && |trace| == |run| + 1 && Unique(trace[i].ledger) && ToRetain(trace[i].ledger, n)
    requires forall j: nat :: i <= j <= k ==> RetainsAt(trace, run, j, n)
    requires run[k].SectionPass?
    requires |EnsuredOf(trace[k], run[k]).world.log| <= d < |PassOf(trace[k], run[k]).world.log|
    ensures var c := PassOf(trace[k], run[k]).world.log[d]; c.DeleteSent? ==> c.name != n
  {
    var s, m := trace[k], run[k];
    StaysToRetain(trace, run, i, k, n);
    assert RetainsAt(trace, run, k, n);
    MoveRetains(s, m, n);
    PassSparesRetained(s, m, n, d);
  }

  lemma CallSpares(env: Env, declared: set<string>, l: seq<Entry>, log: seq<Call>, start: nat, d: nat, n: string)
    requires start <= d < |log| && JustifiedCall(env, declared, l, log, start, d) && Unique(l) && ToRetain(l, n)
    ensures log[d].DeleteSent? ==> log[d].name != n
  {
    if log[d].DeleteSent? {
      var e :| e in l && e.name == log[d].name && e.arn == log[d].arn && Deletable(env, declared, e, log[d].forced)
               && (!log[d].forced ==> ReadBefore(env, log, start, d, e.arn));
      FindMember(l, e);
    }
  }

  lemma PassSparesRetained(s: Status, m: Move, n: string, d: nat)
    requires m.SectionPass? && Unique(s.ledger) && ToRetain(EnsuredOf(s, m).ledger, n)
    requires |EnsuredOf(s, m).world.log| <= d < |PassOf(s, m).world.log|
    ensures var c := PassOf(s, m).world.log[d]; c.DeleteSent? ==> c.name != n
  {
    var en, log := EnsuredOf(s, m), PassOf(s, m).world.log;
    PassKeepsUnique(s, m);
    CleanupCalls(m.env, DeclaredIn(m), en.ledger, |en.ledger|, Pass(en.world, en.ledger, [], false));
    CallSpares(m.env, DeclaredIn(m), en.ledger, log, |en.world.log|, d, n);
  }

  // A stored pass without an error that declares the table Retain gets it there.
  lemma DeclaringRetains(s: Status, m: Move, i: nat)
    requires m.SectionPass? && !m.deleting && m.persist.Whole? && Unique(s.ledger) && EnsuredOf(s, m).ok
    requires i < |m.specs| && m.specs[i].policy == Retain
    requires forall j :: i < j < |m.specs| ==> m.specs[j].name != m.specs[i].name
    ensures ToRetain(After(s, m).ledger, m.specs[i].name)
  {
    DeclaredTablesAreServed(m.env, m.from, m.specs, s.cloud, s.ledger, i);
    PassKeepsUnique(s, m);
    CleanupRetains(m.env, DeclaredIn(m), EnsuredOf(s, m).world, EnsuredOf(s, m).ledger, m.specs[i].name);
  }
}
