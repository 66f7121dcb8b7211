/**
 How far the steps of a table pass reach: no table but the one at the entry's
 ARN changes, and its owner tags change only where the CR may change them.
 */
module TableReach {
  import opened Ledger
  import opened Sweep
  import opened Ownership
  import opened TableCloud
  import opened TableCleanup
  import opened TableRuns

  ghost predicate Reaches(cr: CR, from: string, w: Cloud, w': Cloud, arn: string) {
    OnlyAt(w, w', arn) && Honours(cr, from, TableTitle(w, arn), TableTitle(w', arn))
  }

  lemma ReachesInTurn(cr: CR, from: string, a: Cloud, b: Cloud, c: Cloud, arn: string)
    requires Reaches(cr, from, a, b, arn) && Reaches(cr, from, b, c, arn)
    ensures Reaches(cr, from, a, c, arn)
  {
  }

  // The calls that leave the tags alone.
  lemma QuietCalls(cr: CR, from: string, w: Cloud, arn: string)
    ensures Reaches(cr, from, w, AddDeny(w, arn).0, arn)
    ensures Reaches(cr, from, w, RemoveDeny(w, arn).0, arn)
    ensures Reaches(cr, from, w, ReleaseProtection(w, arn).0, arn)
  {
  }

  // The calls that take the tags off or the table away.
  lemma LossyCalls(cr: CR, from: string, w: Cloud, name: string, arn: string, forced: bool)
    requires MayTouch(cr, from, TableTitle(w, arn))
    ensures Reaches(cr, from, w, UntagOwner(w, arn).0, arn)
    ensures Reaches(cr, from, w, DeleteTable(w, name, arn, forced).0, arn)
  {
    if arn in w.tables {
      TaggedIsMine(w.tables[arn].tags, cr);
    }
  }

  lemma LetGoReaches(env: Env, from: string, w: Cloud, arn: string)
    ensures Reaches(env.cr, from, w, LetGo(env, w, arn).0, arn)
  {
    var (w1, tags) := ListTags(w, arn);
    if tags.Answer? && IsOwnedBy(tags.value, env.cr) {
      OwnedMayTouch(tags.value, env.cr, from);
      LossyCalls(env.cr, from, Unmodelled(w1).0, "", arn, false);
    }
  }

  lemma RetainReaches(env: Env, from: string, p: TablePass, e: Entry)
    requires e.rtype == DynamoDB
    ensures Reaches(env.cr, from, p.world, AfterRetain(env, p, e).world, e.arn)
  {
    QuietCalls(env.cr, from, p.world, e.arn);
    var w := if e.pendingSince.Some? then RemoveDeny(p.world, e.arn).0 else p.world;
    LetGoReaches(env, from, w, e.arn);
    ReachesInTurn(env.cr, from, p.world, w, LetGo(env, w, e.arn).0, e.arn);
    RetainWorlds(env, p, e, w);
  }

  lemma RetainWorlds(env: Env, p: TablePass, e: Entry, w: Cloud)
    requires e.rtype == DynamoDB && w == if e.pendingSince.Some? then RemoveDeny(p.world, e.arn).0 else p.world
    ensures AfterRetain(env, p, e).world in {w, LetGo(env, w, e.arn).0}
  {
  }

  lemma GateReaches(env: Env, from: string, p: TablePass, e: Entry)
    requires e.rtype == DynamoDB
    ensures Reaches(env.cr, from, p.world, GateOnEmpty(env, p, e).0.world, e.arn)
    ensures TableTitle(GateOnEmpty(env, p, e).0.world, e.arn) == TableTitle(p.world, e.arn)
  {
    QuietCalls(env.cr, from, p.world, e.arn);
    DenyKeepsTitle(p.world, e.arn);
  }

  lemma DenyKeepsTitle(w: Cloud, arn: string)
    ensures TableTitle(AddDeny(w, arn).0, arn) == TableTitle(w, arn)
    ensures TableTitle(ReleaseProtection(w, arn).0, arn) == TableTitle(w, arn)
  {
  }

  lemma DeleteTableReaches(env: Env, from: string, p: TablePass, e: Entry)
    requires e.rtype == DynamoDB && MayTouch(env.cr, from, TableTitle(p.world, e.arn))
    ensures Reaches(env.cr, from, p.world, AfterDeleteTable(env, p, e).world, e.arn)
  {
    var cr, arn := env.cr, e.arn;
    QuietCalls(cr, from, p.world, arn);
    DenyKeepsTitle(p.world, arn);
    var w1 := ReleaseProtection(p.world, arn).0;
    LossyCalls(cr, from, w1, e.name, arn, Forced(env, e));
    ReachesInTurn(cr, from, p.world, w1, DeleteTable(w1, e.name, arn, Forced(env, e)).0, arn);
  }

  lemma DeleteReaches(env: Env, from: string, p: TablePass, e: Entry)
    requires e.rtype == DynamoDB
    ensures Reaches(env.cr, from, p.world, AfterDelete(env, p, e).world, e.arn)
  {
    var (w1, tags) := ListTags(p.world, e.arn);
    var p1 := p.(world := w1);
    if tags.Answer? && IsOwnedBy(tags.value, env.cr) {
      OwnedMayTouch(tags.value, env.cr, from);
      if Forced(env, e) {
        DeleteTableReaches(env, from, p1, e);
      } else {
        var p2 := GateOnEmpty(env, p1, e).0;
        GateReaches(env, from, p1, e);
        DeleteTableReaches(env, from, p2, e);
        ReachesInTurn(env.cr, from, p1.world, p2.world, AfterDeleteTable(env, p2, e).world, e.arn);
      }
    }
  }

  lemma EntryReaches(env: Env, declared: set<string>, from: string, p: TablePass, e: Entry)
    ensures Reaches(env.cr, from, p.world, AfterEntry(env, declared, p, e).world, e.arn)
  {
    if e.rtype == DynamoDB {
      if e.name in declared {
        QuietCalls(env.cr, from, p.world, e.arn);
      } else if e.policy == Delete {
        DeleteReaches(env, from, p, e);
      } else {
        RetainReaches(env, from, p, e);
      }
    }
  }

  // ----------------------------------------------------------------- ensure

  lemma AdoptReaches(env: Env, from: string, s: TableSpec, table: Table, w: Cloud)
    requires s.arn in w.tables && w.tables[s.arn] == table
    ensures Reaches(env.cr, from, w, Adopt(env, from, s, table, w).0, s.arn)
    ensures s.arn in Adopt(env, from, s, table, w).0.tables && Adopt(env, from, s, table, w).0.tables[s.arn].denied == table.denied
  {
    if TableLadder(table.tags, env.cr, s.adopt, from).Retag? {
      LadderMayTouch(table.tags, env.cr, s.adopt, from);
      TaggedIsMine(table.tags, env.cr);
    }
  }

  // A new table is tagged to the CR, and stands where there was none.
  lemma CreateReaches(env: Env, from: string, s: TableSpec, w: Cloud)
    requires s.arn !in w.tables
    ensures Reaches(env.cr, from, w, Put(w, s.arn, Table(OwnerTags(env.cr), 0, false, true, false, s.schema)).0, s.arn)
  {
    TaggedIsMine(map[], env.cr);
    assert map[] + OwnerTags(env.cr) == OwnerTags(env.cr);
  }

  lemma TableReaches(env: Env, from: string, s: TableSpec, w: Cloud, l: seq<Entry>)
    ensures Reaches(env.cr, from, w, EnsureTable(env, from, s, w, l).world, s.arn)
    ensures var w' := EnsureTable(env, from, s, w, l).world;
      s.arn in w.tables ==> s.arn in w'.tables && w'.tables[s.arn].denied == w.tables[s.arn].denied
  {
    var (w1, t) := Describe(w, s.arn);
    var w' := EnsureTable(env, from, s, w, l).world;
    if t.NotFound? {
      CreateReaches(env, from, s, w1);
      assert w' in {w1, Put(w1, s.arn, Table(OwnerTags(env.cr), 0, false, true, false, s.schema)).0};
    } else if t.Answer? {
      var (w2, tags) := ListTags(w1, s.arn);
      AdoptReaches(env, from, s, t.value, w2);
      FoundWorlds(env, from, s, w, l);
    }
  }

  // A table that is there keeps everything but its tags, whatever happens.
  lemma FoundWorlds(env: Env, from: string, s: TableSpec, w: Cloud, l: seq<Entry>)
    requires Describe(w, s.arn).1.Answer?
    ensures var (w1, t) := Describe(w, s.arn);
      var w2 := ListTags(w1, s.arn).0;
      var w' := EnsureTable(env, from, s, w, l).world;
      w'.tables == w.tables || w'.tables == Adopt(env, from, s, t.value, w2).0.tables
  {
    var (w1, t) := Describe(w, s.arn);
    var (w2, tags) := ListTags(w1, s.arn);
    var w3 := Adopt(env, from, s, t.value, w2).0;
    assert Verify(env, s, w2, l).world.tables == w2.tables && Verify(env, s, w3, l).world.tables == w3.tables;
  }

  lemma OneReaches(env: Env, from: string, s: TableSpec, w: Cloud, l: seq<Entry>)
    ensures Reaches(env.cr, from, w, EnsureOne(env, from, s, w, l).world, s.arn)
    ensures var w' := EnsureOne(env, from, s, w, l).world;
      s.arn in w.tables ==> s.arn in w'.tables && w'.tables[s.arn].denied == w.tables[s.arn].denied
  {
    TableReaches(env, from, s, w, KeyRecorded(l, s));
  }

  // ------------------------------------------------------------ whole passes

  lemma ReachHonours(cr: CR, from: string, w: Cloud, w': Cloud, arn: string)
    requires Reaches(cr, from, w, w', arn)
    ensures HonoursAll(cr, from, TitlesOf(w), TitlesOf(w'))
  {
    forall x | x != arn ensures TitlesOf(w')(x) == TitlesOf(w)(x) {
      OthersKept(w, w', arn, x);
    }
    HonoursAt(cr, from, TitlesOf(w), TitlesOf(w'), arn);
  }

  lemma OthersKept(w: Cloud, w': Cloud, arn: string, x: string)
    requires OnlyAt(w, w', arn) && x != arn
    ensures (x in w'.tables <==> x in w.tables) && (x in w.tables ==> w'.tables[x] == w.tables[x])
  {
    assert x in w'.tables - {arn} <==> x in w'.tables;
    assert x in w.tables - {arn} <==> x in w.tables;
    if x in w.tables {
      assert (w.tables - {arn})[x] == w.tables[x] && (w'.tables - {arn})[x] == w'.tables[x];
    }
  }

  lemma {:induction false} EnsureHonours(env: Env, from: string, specs: seq<TableSpec>, k: nat, w: Cloud, l: seq<Entry>)
    requires k <= |specs|
    ensures HonoursAll(env.cr, from, TitlesOf(w), TitlesOf(EnsureUpto(env, from, specs, k, w, l).world))
  {
    if k > 0 {
      EnsureHonours(env, from, specs, k - 1, w, l);
      LastHonours(env, from, specs, k, w, l);
      HonoursInTurn(env.cr, from, TitlesOf(w), TitlesOf(EnsureUpto(env, from, specs, k - 1, w, l).world),
                    TitlesOf(EnsureUpto(env, from, specs, k, w, l).world));
    }
  }

  lemma LastHonours(env: Env, from: string, specs: seq<TableSpec>, k: nat, w: Cloud, l: seq<Entry>)
    requires 0 < k <= |specs|
    ensures HonoursAll(env.cr, from, TitlesOf(EnsureUpto(env, from, specs, k - 1, w, l).world), TitlesOf(EnsureUpto(env, from, specs, k, w, l).world))
  {
    var r := EnsureUpto(env, from, specs, k - 1, w, l);
    OneReaches(env, from, specs[k - 1], r.world, r.ledger);
    ReachHonours(env.cr, from, r.world, EnsureOne(env, from, specs[k - 1], r.world, r.ledger).world, specs[k - 1].arn);
  }

  lemma {:induction false} CleanupHonours(env: Env, declared: set<string>, from: string, l: seq<Entry>, k: nat, p: TablePass)
    requires k <= |l|
    ensures HonoursAll(env.cr, from, TitlesOf(p.world), TitlesOf(Upto(Step(env, declared), l, k, p).world))
  {
    if k > 0 {
      CleanupHonours(env, declared, from, l, k - 1, p);
      var q := Upto(Step(env, declared), l, k - 1, p);
      EntryReaches(env, declared, from, q, l[k - 1]);
      ReachHonours(env.cr, from, q.world, Step(env, declared)(q, l[k - 1]).world, l[k - 1].arn);
      HonoursInTurn(env.cr, from, TitlesOf(p.world), TitlesOf(q.world), TitlesOf(Step(env, declared)(q, l[k - 1]).world));
    }
  }

  // A whole pass of the tables' section, over any ledger, with any call failing.
  lemma PassHonours(s: Status, m: Move)
    requires m.SectionPass?
    ensures HonoursAll(m.env.cr, m.from, TitlesOf(s.cloud), TitlesOf(PassOf(s, m).world))
  {
    var en := EnsuredOf(s, m);
    CleanupHonours(m.env, DeclaredIn(m), m.from, en.ledger, |en.ledger|, Pass(en.world, en.ledger, [], false));
    EnsuredHonours(s, m);
    HonoursInTurn(m.env.cr, m.from, TitlesOf(s.cloud), TitlesOf(en.world), TitlesOf(PassOf(s, m).world));
  }

  lemma EnsuredHonours(s: Status, m: Move)
    requires m.SectionPass?
    ensures HonoursAll(m.env.cr, m.from, TitlesOf(s.cloud), TitlesOf(EnsuredOf(s, m).world))
  {
    EnsureHonours(m.env, m.from, m.specs, |m.specs|, s.cloud, s.ledger);
  }
}
