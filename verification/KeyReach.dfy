/**
 How far a key pass reaches: the owner tags of a key change only where the CR
 may change them.
 */
module KeyReach {
  import opened Ledger
  import opened Sweep
  import opened Ownership
  import opened KmsCloud
  import opened KeyCreation
  import KeyCleanup

  ghost predicate Reaches(cr: CR, from: string, w: Cloud, w': Cloud) {
    HonoursAll(cr, from, TitlesOf(w), TitlesOf(w'))
  }

  lemma ReachesInTurn(cr: CR, from: string, a: Cloud, b: Cloud, c: Cloud)
    requires Reaches(cr, from, a, b) && Reaches(cr, from, b, c)
    ensures Reaches(cr, from, a, c)
  {
    HonoursInTurn(cr, from, TitlesOf(a), TitlesOf(b), TitlesOf(c));
  }

  ghost predicate SameTitles(w: Cloud, w': Cloud) {
    forall x :: KeyTitle(w', x) == KeyTitle(w, x)
  }

  lemma SameReaches(cr: CR, from: string, w: Cloud, w': Cloud)
    requires SameTitles(w, w')
    ensures Reaches(cr, from, w, w')
  {
  }

  // The calls that leave the tags alone.
  lemma QuietCalls(w: Cloud, alias: string, arn: string)
    ensures SameTitles(w, ReviveKey(w, arn).0)
    ensures SameTitles(w, ScheduleKeyDeletion(w, arn).0)
    ensures SameTitles(w, DescribeAlias(w, alias).0)
    ensures SameTitles(w, EnsureAlias(w, alias, arn).0)
    ensures SameTitles(w, Reassert(w).0)
  {
  }

  // The calls that write the tags of one key.
  lemma TagCalls(cr: CR, from: string, w: Cloud, arn: string)
    requires MayTouch(cr, from, KeyTitle(w, arn))
    ensures Reaches(cr, from, w, TagResource(w, arn, OwnerTags(cr)).0)
    ensures Reaches(cr, from, w, UntagOwner(w, arn).0)
  {
    if arn in w.keys {
      TaggedIsMine(w.keys[arn].tags, cr);
    }
    HonoursAt(cr, from, TitlesOf(w), TitlesOf(TagResource(w, arn, OwnerTags(cr)).0), arn);
    HonoursAt(cr, from, TitlesOf(w), TitlesOf(UntagOwner(w, arn).0), arn);
  }

  lemma CreateCall(cr: CR, from: string, w: Cloud, name: string, arn: string)
    requires MayTouch(cr, from, KeyTitle(w, arn))
    ensures Reaches(cr, from, w, CreateKey(w, name, arn, OwnerTags(cr)).0)
  {
    TaggedIsMine(map[], cr);
    assert map[] + OwnerTags(cr) == OwnerTags(cr);
    HonoursAt(cr, from, TitlesOf(w), TitlesOf(CreateKey(w, name, arn, OwnerTags(cr)).0), arn);
  }

  // ----------------------------------------------------------------- ensure

  lemma TakeOverReaches(env: Env, w: Cloud, arn: string)
    ensures Reaches(env.cr, env.from, w, VerifyOrTakeOver(env, w, arn).0)
  {
    var (w1, tags) := ListTags(w, arn);
    if tags.Answer? && !IsOwnedBy(tags.value, env.cr) {
      var stale := StaleUID(tags.value, env.cr);
      if stale.Some? && MayTransferFrom(env.from, stale.value) {
        StaleMayTouch(tags.value, env.cr, env.from);
        TagCalls(env.cr, env.from, w1, arn);
      }
    }
  }

  lemma SameTwice(a: Cloud, b: Cloud, c: Cloud)
    requires SameTitles(a, b) && SameTitles(b, c)
    ensures SameTitles(a, c)
  {
    forall x ensures KeyTitle(c, x) == KeyTitle(a, x) {
      assert KeyTitle(b, x) == KeyTitle(a, x) && KeyTitle(c, x) == KeyTitle(b, x);
    }
  }

  // What resumeKey does once the tags are this CR's: revive, settings, alias.
  function Revived(w: Cloud, pending: bool, arn: string): Cloud {
    if pending then ReviveKey(w, arn).0 else w
  }

  lemma TailIsQuiet(w: Cloud, pending: bool, alias: string, arn: string)
    ensures var w3 := Revived(w, pending, arn);
      var w4 := Reassert(w3).0;
      SameTitles(w, w3) && SameTitles(w, w4) && SameTitles(w, EnsureAlias(w4, alias, arn).0)
  {
    var w3 := Revived(w, pending, arn);
    var w4 := Reassert(w3).0;
    QuietCalls(w, alias, arn);
    QuietCalls(w3, alias, arn);
    SameTwice(w, w3, w4);
    QuietCalls(w4, alias, arn);
    SameTwice(w, w4, EnsureAlias(w4, alias, arn).0);
  }

  lemma ResumeWorlds(env: Env, s: KeySpec, e: Entry, m: Making, pending: bool)
    requires Live(m.ledger, s.name) && Find(m.ledger, KMS, s.name) == Some(e)
    requires var key := DescribeKey(m.world, e.arn).1; pending == (key.Answer? && key.value.state.PendingDeletion?)
    ensures var w1 := Drawn(m.world);
      var w2 := VerifyOrTakeOver(env, w1, e.arn).0;
      var w3 := Revived(w2, pending, e.arn);
      var w4 := Reassert(w3).0;
      ResumeKey(env, s, e, m).world in {w1, w2, w3, w4, EnsureAlias(w4, s.alias, e.arn).0}
  {
  }

  lemma ResumeReaches(env: Env, s: KeySpec, e: Entry, m: Making)
    requires Live(m.ledger, s.name) && Find(m.ledger, KMS, s.name) == Some(e)
    ensures Reaches(env.cr, env.from, m.world, ResumeKey(env, s, e, m).world)
  {
    var cr, from, w1 := env.cr, env.from, Drawn(m.world);
    var key := DescribeKey(m.world, e.arn).1;
    var pending := key.Answer? && key.value.state.PendingDeletion?;
    TakeOverReaches(env, w1, e.arn);
    var w2, w := VerifyOrTakeOver(env, w1, e.arn).0, ResumeKey(env, s, e, m).world;
    ResumeWorlds(env, s, e, m, pending);
    TailIsQuiet(w2, pending, s.alias, e.arn);
    DrawnReaches(cr, from, m.world, w2);
    if w != w1 {
      LaterReaches(cr, from, m.world, w2, w);
    }
  }

  lemma DrawnReaches(cr: CR, from: string, w: Cloud, w': Cloud)
    requires Reaches(cr, from, Drawn(w), w')
    ensures Reaches(cr, from, w, w') && Reaches(cr, from, w, Drawn(w))
  {
    SameReaches(cr, from, w, Drawn(w));
    ReachesInTurn(cr, from, w, Drawn(w), w');
  }

  lemma LaterReaches(cr: CR, from: string, a: Cloud, b: Cloud, c: Cloud)
    requires Reaches(cr, from, a, b) && SameTitles(b, c)
    ensures Reaches(cr, from, a, c)
  {
    SameReaches(cr, from, b, c);
    ReachesInTurn(cr, from, a, b, c);
  }

  lemma MakeReaches(env: Env, s: KeySpec, m: Making)
    requires !Live(m.ledger, s.name) && MayTouch(env.cr, env.from, KeyTitle(m.world, s.minted))
    ensures Reaches(env.cr, env.from, m.world, MakeKey(env, s, m).world)
  {
    var cr, from := env.cr, env.from;
    var w0 := CreateKey(m.world, s.name, s.minted, OwnerTags(cr)).0;
    CreateCall(cr, from, m.world, s.name, s.minted);
    MakeWorlds(env, s, m, w0);
    LaterReaches(cr, from, m.world, w0, MakeKey(env, s, m).world);
  }

  // After CreateKey nothing writes a tag.
  lemma MakeWorlds(env: Env, s: KeySpec, m: Making, w0: Cloud)
    requires !Live(m.ledger, s.name) && w0 == CreateKey(m.world, s.name, s.minted, OwnerTags(env.cr)).0
    ensures MakeKey(env, s, m).world.keys == w0.keys && SameTitles(w0, MakeKey(env, s, m).world)
  {
    assert MakeKey(env, s, m).world.keys == w0.keys;
  }

  lemma AdoptReaches(env: Env, s: KeySpec, arn: string, key: Key, m: Making)
    ensures Reaches(env.cr, env.from, m.world, AdoptKey(env, s, arn, key, m).world)
  {
    var cr, from := env.cr, env.from;
    var (w1, tags) := ListTags(m.world, arn);
    SameReaches(cr, from, m.world, w1);
    if tags.Answer? && TableLadder(tags.value, cr, s.adopt, from).Retag? {
      LadderMayTouch(tags.value, cr, s.adopt, from);
      RetagReaches(cr, from, w1, arn, key.state.PendingDeletion?);
      var w := AdoptKey(env, s, arn, key, m).world;
      AdoptWorlds(env, s, arn, key, m, w1, tags.value);
      ReachesInTurn(cr, from, m.world, w1, w);
    }
  }

  lemma RetagReaches(cr: CR, from: string, w: Cloud, arn: string, pending: bool)
    requires MayTouch(cr, from, KeyTitle(w, arn))
    ensures var w2 := Revived(w, pending, arn);
      var w3 := TagResource(w2, arn, OwnerTags(cr)).0;
      Reaches(cr, from, w, w2) && Reaches(cr, from, w, w3) && Reaches(cr, from, w, Reassert(w3).0)
  {
    var w2 := Revived(w, pending, arn);
    QuietCalls(w, "", arn);
    SameReaches(cr, from, w, w2);
    TagCalls(cr, from, w2, arn);
    var w3 := TagResource(w2, arn, OwnerTags(cr)).0;
    ReachesInTurn(cr, from, w, w2, w3);
    QuietCalls(w3, "", arn);
    LaterReaches(cr, from, w, w3, Reassert(w3).0);
  }

  lemma AdoptWorlds(env: Env, s: KeySpec, arn: string, key: Key, m: Making, w1: Cloud, tags: Tags)
    requires ListTags(m.world, arn) == (w1, Answer(tags)) && TableLadder(tags, env.cr, s.adopt, env.from).Retag?
    ensures var w2 := Revived(w1, key.state.PendingDeletion?, arn);
      var w3 := TagResource(w2, arn, OwnerTags(env.cr)).0;
      AdoptKey(env, s, arn, key, m).world in {w2, w3, Reassert(w3).0}
  {
  }

  lemma KeyReaches(env: Env, s: KeySpec, m: Making)
    requires MayTouch(env.cr, env.from, KeyTitle(m.world, s.minted))
    ensures Reaches(env.cr, env.from, m.world, EnsureKey(env, s, m).world)
  {
    var cr, from := env.cr, env.from;
    if Live(m.ledger, s.name) {
      ResumeReaches(env, s, Find(m.ledger, KMS, s.name).value, m);
    } else {
      var (w1, found) := DescribeAlias(m.world, s.alias);
      QuietCalls(m.world, s.alias, "");
      SameReaches(cr, from, m.world, w1);
      var m1 := m.(world := w1);
      if found.NotFound? {
        MakeReaches(env, s, m1);
        ReachesInTurn(cr, from, m.world, w1, MakeKey(env, s, m1).world);
      } else if found.Answer? {
        AdoptReaches(env, s, found.value.0, found.value.1, m1);
        ReachesInTurn(cr, from, m.world, w1, AdoptKey(env, s, found.value.0, found.value.1, m1).world);
      }
    }
  }

  // AWS gives a new key an ARN no key has yet.
  ghost predicate FreshARNs(specs: seq<KeySpec>, w: Cloud) {
    forall s :: s in specs ==> s.minted !in w.keys
  }

  lemma {:induction false} StatesReach(env: Env, specs: seq<KeySpec>, t: seq<Making>, k: nat)
    requires States(env, specs, t) && k <= |specs| && FreshARNs(specs, t[0].world)
    ensures Reaches(env.cr, env.from, t[0].world, t[k].world)
  {
    if k > 0 {
      StatesReach(env, specs, t, k - 1);
      assert CallAt(env, specs, t, k - 1);
      StepReaches(env, specs[k - 1], t[0].world, t[k - 1], t[k]);
    }
  }

  lemma StepReaches(env: Env, s: KeySpec, w: Cloud, a: Making, b: Making)
    requires Reaches(env.cr, env.from, w, a.world) && s.minted !in w.keys && StateStep(env, s, a, b)
    ensures Reaches(env.cr, env.from, w, b.world)
  {
    assert Honours(env.cr, env.from, TitlesOf(w)(s.minted), TitlesOf(a.world)(s.minted));
    KeyReaches(env, s, a.(ok := true));
    ReachesInTurn(env.cr, env.from, w, a.world, b.world);
  }

  lemma EnsureReaches(env: Env, specs: seq<KeySpec>, m: Making)
    requires FreshARNs(specs, m.world)
    ensures Reaches(env.cr, env.from, m.world, EnsureUpto(env, specs, |specs|, m).world)
  {
    var t := PassStates(env, specs, m);
    StatesReach(env, specs, t, |specs|);
  }

  // ---------------------------------------------------------------- cleanup

  lemma LetGoReaches(env: KeyCleanup.Env, from: string, w: Cloud, arn: string)
    ensures Reaches(env.cr, from, w, KeyCleanup.LetGo(env, w, arn).0)
  {
    var (w1, key) := DescribeKey(w, arn);
    var (w2, tags) := ListTags(w1, arn);
    if tags.Answer? && IsOwnedBy(tags.value, env.cr) {
      OwnedMayTouch(tags.value, env.cr, from);
      var w4 := Unmodelled(Unmodelled(w2).0).0;
      TagCalls(env.cr, from, w4, arn);
      assert SameTitles(w, w4);
      SameReaches(env.cr, from, w, w4);
      ReachesInTurn(env.cr, from, w, w4, UntagOwner(w4, arn).0);
    }
  }

  lemma ScheduleReaches(env: KeyCleanup.Env, from: string, p: KeyCleanup.KeyPass, e: Entry)
    requires e.rtype == KMS
    ensures Reaches(env.cr, from, p.world, KeyCleanup.AfterSchedule(env, p, e).world)
  {
    ScheduleWorlds(env, p, e);
    var w2 := Drawn(Drawn(p.world));
    QuietCalls(w2, "", e.arn);
    SameTwice(p.world, w2, ScheduleKeyDeletion(w2, e.arn).0);
    SameReaches(env.cr, from, p.world, KeyCleanup.AfterSchedule(env, p, e).world);
  }

  lemma ScheduleWorlds(env: KeyCleanup.Env, p: KeyCleanup.KeyPass, e: Entry)
    requires e.rtype == KMS
    ensures var w1 := Drawn(p.world);
      KeyCleanup.AfterSchedule(env, p, e).world in {w1, Drawn(w1), ScheduleKeyDeletion(Drawn(w1), e.arn).0}
  {
  }

  lemma RetainReaches(env: KeyCleanup.Env, from: string, p: KeyCleanup.KeyPass, e: Entry)
    requires e.rtype == KMS
    ensures Reaches(env.cr, from, p.world, KeyCleanup.AfterRetain(env, p, e).world)
  {
    LetGoReaches(env, from, p.world, e.arn);
    assert KeyCleanup.AfterRetain(env, p, e).world in {p.world, KeyCleanup.LetGo(env, p.world, e.arn).0};
  }

  lemma EntryReaches(env: KeyCleanup.Env, wants: KeyCleanup.Wants, from: string, p: KeyCleanup.KeyPass, e: Entry)
    ensures Reaches(env.cr, from, p.world, KeyCleanup.AfterEntry(env, wants, p, e).world)
  {
    if e.rtype == KMS {
      var e' := if wants.deleting && e.name in wants.inUse then e.(policy := Retain) else e;
      if e'.policy == Delete {
        ScheduleReaches(env, from, p, e');
      } else {
        RetainReaches(env, from, p, e');
      }
    }
  }

  lemma {:induction false} CleanupReaches(env: KeyCleanup.Env, wants: KeyCleanup.Wants, from: string, l: seq<Entry>, k: nat, p: KeyCleanup.KeyPass)
    requires k <= |l|
    ensures Reaches(env.cr, from, p.world, Upto(KeyCleanup.Step(env, wants), l, k, p).world)
  {
    if k > 0 {
      CleanupReaches(env, wants, from, l, k - 1, p);
      var q := Upto(KeyCleanup.Step(env, wants), l, k - 1, p);
      EntryReaches(env, wants, from, q, l[k - 1]);
      ReachesInTurn(env.cr, from, p.world, q.world, KeyCleanup.Step(env, wants)(q, l[k - 1]).world);
    }
  }

  // A whole pass of the keys' section, over any ledger, with any call failing.
  lemma PassReaches(env: Env, specs: seq<KeySpec>, wants: KeyCleanup.Wants, w: Cloud, l: seq<Entry>, l': seq<Entry>)
    requires FreshARNs(specs, w)
    ensures var made := EnsureUpto(env, specs, |specs|, Making(w, l, l, true)).world;
      Reaches(env.cr, env.from, w, KeyCleanup.AfterCleanup(KeyCleanup.Env(env.cr, env.now), wants, made, l').world)
  {
    var made := EnsureUpto(env, specs, |specs|, Making(w, l, l, true)).world;
    EnsureReaches(env, specs, Making(w, l, l, true));
    CleanupReaches(KeyCleanup.Env(env.cr, env.now), wants, env.from, l', |l'|, Pass(made, l', [], false));
    ReachesInTurn(env.cr, env.from, w, made, KeyCleanup.AfterCleanup(KeyCleanup.Env(env.cr, env.now), wants, made, l').world);
  }
}
