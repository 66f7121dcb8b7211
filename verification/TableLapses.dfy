/**
 Two histories that show what the law of deletion cannot promise: a restore
 whose status write was lost protects nothing later, and a table declared again
 after its trust window keeps its deny statement with no mark to lift it by.
 */
module TableLapses {
  import opened Ledger
  import opened Sweep
  import opened Ownership
  import opened TableCloud
  import opened TableCleanup
  import opened TableRuns

  const OWNER := CR("n", "c", "u")
  const ARN := "table/t"
  const TABLE := Table(OwnerTags(OWNER), 0, false, false, true, "")
  const ENTRY := Fresh(DynamoDB, "t", ARN, Delete, false, Verified, 0, Some(0))
  const SPEC := TableSpec("t", ARN, Delete, false, false, "", "", None)
  const BEFORE := Status([ENTRY], Cloud(map[ARN := TABLE], [], []))

  const DROPPED := SectionPass(Env(OWNER, 0, false), "", [], false, Whole)

  // The table as the pass that dropped it leaves it, and that state's log.
  const PENDING := ENTRY.(pendingSince := Some(0))
  const DENIED_LOG := [TagsRead(ARN, OwnerTags(OWNER)), DenyInPlace(ARN)]
  const PENDED := Status([PENDING], Cloud(map[ARN := TABLE.(denied := true)], DENIED_LOG, []))

  lemma OneEntry(env: Env, declared: set<string>, w: Cloud, e: Entry)
    ensures AfterCleanup(env, declared, w, [e]) == AfterEntry(env, declared, Pass(w, [e], [], false), e)
  {
    var step, p := Step(env, declared), Pass(w, [e], [], false);
    assert Upto(step, [e], 1, p) == step(Upto(step, [e], 0, p), e);
  }

  lemma OwnTags()
    ensures IsOwnedBy(OwnerTags(OWNER), OWNER)
  {
    assert |OWNER_TAG| != |OWNER_UID_TAG|;
  }

  lemma Drop()
    ensures After(BEFORE, DROPPED) == PENDED
  {
    OwnTags();
    var env, w := DROPPED.env, BEFORE.cloud;
    assert Names([]) == [];
    assert DeclaredIn(DROPPED) == {};
    OneEntry(env, {}, w, ENTRY);
    var p := Pass(w, [ENTRY], [], false);
    FirstDenied();
    assert AfterEntry(env, {}, p, ENTRY) == AfterDelete(env, p, ENTRY);
  }

  lemma FirstDenied()
    ensures var p := Pass(BEFORE.cloud, [ENTRY], [], false);
      AfterDelete(DROPPED.env, p, ENTRY).ledger == [PENDING] && AfterDelete(DROPPED.env, p, ENTRY).world == PENDED.cloud
  {
    OwnTags();
    var env, w := DROPPED.env, BEFORE.cloud;
    var p := Pass(w, [ENTRY], [], false);
    var (w1, tags) := ListTags(w, ARN);
    assert w1 == w.(log := [TagsRead(ARN, OwnerTags(OWNER))]);
    var (w2, ok) := AddDeny(w1, ARN);
    assert w2.log == DENIED_LOG;
    assert w2 == PENDED.cloud && ok;
    assert AfterDelete(env, p, ENTRY) == MarkPending(env, p.(world := w2), ENTRY);
    assert Upsert([ENTRY], PENDING) == [PENDING];
  }

  // Pass 1 sees the table declared and lifts the deny without an error, but its
  // status write is lost; pass 2 deletes on the strength of the mark of pass 0.
  const RESTORED := SectionPass(Env(OWNER, 5 * MINUTE, false), "", [SPEC], false, Lost)
  const DROPPED_AGAIN := SectionPass(Env(OWNER, 20 * MINUTE, false), "", [], false, Whole)
  const LIFTED := Status([PENDING], Cloud(map[ARN := TABLE], DENIED_LOG, []))

  lemma Restore()
    ensures After(PENDED, RESTORED) == LIFTED && "t" in DeclaredIn(RESTORED) && !PassOf(PENDED, RESTORED).failed
  {
    var env, w, l := RESTORED.env, PENDED.cloud, [PENDING];
    assert Names([SPEC])[0] == "t";
    assert Names([SPEC]) == ["t"];
    assert DeclaredIn(RESTORED) == {"t"};
    assert EnsureUpto(env, "", [SPEC], 0, w, l) == Ensured(w, l, true);
    assert EnsureTable(env, "", SPEC, w, l) == Ensured(w, l, true) by {
      assert Find(l, DynamoDB, "t") == Some(PENDING);
      assert Upsert(l, PENDING) == l;
    }
    assert EnsureOne(env, "", SPEC, w, l) == EnsureTable(env, "", SPEC, w, l);
    assert EnsuredOf(PENDED, RESTORED) == Ensured(w, l, true);
    OneEntry(env, {"t"}, w, PENDING);
    var (w1, ok) := RemoveDeny(w, ARN);
    assert w1.tables == map[ARN := TABLE];
    assert ok && w1 == LIFTED.cloud;
  }

  lemma LostRestoreStillDeletes()
    ensures var run := [DROPPED, RESTORED, DROPPED_AGAIN];
      var trace := [BEFORE, PENDED, LIFTED, After(LIFTED, DROPPED_AGAIN)];
      && Run(trace, run)
      && "t" in DeclaredIn(run[1]) && !PassOf(trace[1], run[1]).failed && trace[2].cloud.tables == map[ARN := TABLE]
      && DeleteSent("t", ARN, false) in PassOf(trace[2], run[2]).world.log
  {
    var run := [DROPPED, RESTORED, DROPPED_AGAIN];
    var trace := [BEFORE, PENDED, LIFTED, After(LIFTED, DROPPED_AGAIN)];
    Drop();
    Restore();
    SentAgain();
    forall i | 0 <= i < |run| ensures StepAt(trace, run, i) {
      assert i == 0 || i == 1 || i == 2;
    }
  }

  lemma SentAgain()
    ensures DeleteSent("t", ARN, false) in PassOf(LIFTED, DROPPED_AGAIN).world.log
  {
    OwnTags();
    var env, w := DROPPED_AGAIN.env, LIFTED.cloud;
    assert DeclaredIn(DROPPED_AGAIN) == {} by { assert Names([]) == []; }
    OneEntry(env, {}, w, PENDING);
    var p := Pass(w, [PENDING], [], false);
    assert NamedInARN(ARN) by { assert ARN[5] == '/'; }
    var (w1, tags) := ListTags(w, ARN);
    var (p2, proceed) := GateOnEmpty(env, p.(world := w1), PENDING);
    assert proceed;
    assert AfterEntry(env, {}, p, PENDING) == AfterDeleteTable(env, p2, PENDING);
    assert p2.world.tables[ARN] == TABLE;
    var (w3, released) := ReleaseProtection(p2.world, ARN);
    var (w4, ok) := DeleteTable(w3, "t", ARN, false);
    assert w4.log[|w4.log| - 1] == DeleteSent("t", ARN, false);
  }

  // Declared again once the trust window has passed: Ensure rewrites the entry
  // without its mark, Cleanup finds nothing to cancel, and the deny stays.
  const LATE := SectionPass(Env(OWNER, 20 * MINUTE, false), "", [SPEC], false, Whole)

  lemma LateRestoreLeavesTheDeny()
    ensures var s := After(PENDED, LATE);
      && !PassOf(PENDED, LATE).failed
      && Find(s.ledger, DynamoDB, "t").Some? && Find(s.ledger, DynamoDB, "t").value.pendingSince.None?
      && ARN in s.cloud.tables && s.cloud.tables[ARN].denied
  {
    OwnTags();
    var env, w, l := LATE.env, PENDED.cloud, [PENDING];
    assert Names([SPEC])[0] == "t";
    assert Names([SPEC]) == ["t"];
    assert DeclaredIn(LATE) == {"t"};
    assert EnsureUpto(env, "", [SPEC], 0, w, l) == Ensured(w, l, true);
    var verified := ENTRY.(lastVerifiedAt := Some(20 * MINUTE));
    var r := EnsureTable(env, "", SPEC, w, l);
    assert r.ledger == [verified] && r.world.tables == w.tables by {
      assert Find(l, DynamoDB, "t") == Some(PENDING);
      var (w1, tags) := ListTags(w, ARN);
      assert r == Verify(env, SPEC, w1, l);
      assert Upsert(l, verified) == [verified];
    }
    assert EnsureOne(env, "", SPEC, w, l) == r;
    assert EnsuredOf(PENDED, LATE).ledger == [verified];
    OneEntry(env, {"t"}, r.world, verified);
  }
}
