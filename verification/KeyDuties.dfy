/**
 What Ensure owes a declared key: after a pass without an error the key is
 tracked under the spec's policy, recently verified, and usable; and when
 nothing fails, a call succeeds exactly if the key can be had.
 */
module KeyDuties {
  import opened Ledger
  import opened Sweep
  import opened Ownership
  import opened KmsCloud
  import opened KeyCreation
  import opened KeyReach
  import KeyLapses

  ghost predicate Usable(w: Cloud, arn: string) {
    arn in w.keys && w.keys[arn].state.Enabled?
  }

  ghost predicate Ours(cr: CR, w: Cloud, arn: string) {
    arn in w.keys && IsOwnedBy(w.keys[arn].tags, cr)
  }

  ghost predicate LeadsTo(w: Cloud, alias: string, arn: string) {
    alias in w.aliases && w.aliases[alias] == arn
  }

  // The entry is verified, no longer ago than ten minutes, under the spec's policy.
  ghost predicate Current(now: int, s: KeySpec, f: Option<Entry>) {
    && f.Some? && f.value.state.Verified? && f.value.policy == s.policy
    && f.value.lastVerifiedAt.Some? && now - f.value.lastVerifiedAt.value <= 10 * MINUTE
  }

  // The alias leads to a key of this CR's that its ledger does not know.
  ghost predicate FindsOwn(env: Env, s: KeySpec, a: Making) {
    !Live(a.ledger, s.name) && s.alias in a.world.aliases && Ours(env.cr, a.world, a.world.aliases[s.alias])
  }

  // What a call without an error leaves. A key found through its alias with the
  // CR's own tags is recorded in whatever state it is in; any other is usable.
  ghost predicate Served(env: Env, s: KeySpec, a: Making, b: Making) {
    var f := Find(b.ledger, KMS, s.name);
    && Current(env.now, s, f)
    && (Live(a.ledger, s.name) ==> f.value.arn == Find(a.ledger, KMS, s.name).value.arn)
    && (if FindsOwn(env, s, a) then f.value.arn == a.world.aliases[s.alias] && b.world.keys == a.world.keys
        else Usable(b.world, f.value.arn))
    && (!Trusted(env.now, s, a) ==> Ours(env.cr, b.world, f.value.arn) && LeadsTo(b.world, s.alias, f.value.arn))
  }

  // The entry was verified in the last ten minutes and no deletion is scheduled.
  ghost predicate Trusted(now: int, s: KeySpec, a: Making) {
    var f := Find(a.ledger, KMS, s.name);
    && f.Some? && f.value.state.Verified? && f.value.lastVerifiedAt.Some? && now - f.value.lastVerifiedAt.value <= 10 * MINUTE
    && Usable(a.world, f.value.arn)
  }

  // -------------------------------------------------------------- the steps

  lemma TakenOver(env: Env, w: Cloud, arn: string)
    ensures var (w', ok) := VerifyOrTakeOver(env, w, arn);
      && w'.aliases == w.aliases
      && (ok ==> Ours(env.cr, w', arn) && arn in w.keys && w'.keys[arn].state == w.keys[arn].state)
  {
    if arn in w.keys {
      TagsAreMine(w.keys[arn].tags, env.cr);
    }
  }

  lemma Woken(w: Cloud, arn: string)
    ensures var (w', ok) := ReviveKey(w, arn);
      && w'.aliases == w.aliases
      && (ok ==> arn in w.keys && arn in w'.keys && w'.keys[arn] == w.keys[arn].(state := Enabled))
  {
  }

  lemma Recorded(env: Env, l: seq<Entry>, s: KeySpec, arn: string)
    ensures var f := Find(RecordKey(env, l, s, arn, Verified), KMS, s.name);
      Current(env.now, s, f) && f.value.arn == arn && f.value.lastVerifiedAt == Some(env.now)
  {
    FindUpsert(l, Keyed(env, l, s, arn, Verified), KMS, s.name);
  }

  // The full path of resumeKey, from the tags on.
  ghost predicate Resumed(env: Env, s: KeySpec, arn: string, w: Cloud) {
    Usable(w, arn) && Ours(env.cr, w, arn) && LeadsTo(w, s.alias, arn)
  }

  lemma TailServes(env: Env, s: KeySpec, arn: string, w: Cloud, pending: bool)
    requires Ours(env.cr, w, arn) && (if pending then w.keys[arn].state.PendingDeletion? else w.keys[arn].state.Enabled?)
    ensures var (w3, revived) := if pending then ReviveKey(w, arn) else (w, true);
      var (w4, asserted) := Reassert(w3);
      var (w5, aliased) := EnsureAlias(w4, s.alias, arn);
      revived && asserted && aliased ==> Resumed(env, s, arn, w5)
  {
    Woken(w, arn);
  }

  lemma ResumeServes(env: Env, s: KeySpec, e: Entry, m: Making)
    requires Live(m.ledger, s.name) && Find(m.ledger, KMS, s.name) == Some(e) && ResumeKey(env, s, e, m).ok
    ensures Served(env, s, m, ResumeKey(env, s, e, m))
  {
    var r := ResumeKey(env, s, e, m);
    FindSound(m.ledger, KMS, s.name);
    var (w1, key) := DescribeKey(m.world, e.arn);
    var pending := key.value.state.PendingDeletion?;
    if !NeedsRevalidation(e, env.now) && !pending {
      FindUpsert(m.ledger, e.(policy := s.policy), KMS, s.name);
    } else {
      TakenOver(env, w1, e.arn);
      var w2 := VerifyOrTakeOver(env, w1, e.arn).0;
      TailServes(env, s, e.arn, w2, pending);
      Recorded(env, m.ledger, s, e.arn);
    }
  }

  lemma MakeServes(env: Env, s: KeySpec, m: Making)
    requires !Live(m.ledger, s.name) && MakeKey(env, s, m).ok
    ensures var r := MakeKey(env, s, m);
      && Current(env.now, s, Find(r.ledger, KMS, s.name)) && Find(r.ledger, KMS, s.name).value.arn == s.minted
      && Resumed(env, s, s.minted, r.world)
  {
    TagsAreMine(map[], env.cr);
    var tagged := RecordKey(env, m.ledger, s, s.minted, TagPending);
    Recorded(env, tagged, s, s.minted);
  }

  lemma AdoptServes(env: Env, s: KeySpec, arn: string, key: Key, m: Making)
    requires arn in m.world.keys && m.world.keys[arn] == key && AdoptKey(env, s, arn, key, m).ok
    ensures var r := AdoptKey(env, s, arn, key, m);
      && r.ledger == RecordKey(env, m.ledger, s, arn, Verified) && r.world.aliases == m.world.aliases
      && Ours(env.cr, r.world, arn)
      && (if IsOwnedBy(key.tags, env.cr) then r.world.keys == m.world.keys else Usable(r.world, arn))
  {
    var (w1, tags) := ListTags(m.world, arn);
    TagsAreMine(key.tags, env.cr);
    Woken(w1, arn);
  }

  // Whatever the ledger, the cloud and the faults: a call without an error
  // leaves the key tracked, current and usable.
  lemma CallServes(env: Env, s: KeySpec, a: Making)
    requires EnsureKey(env, s, a).ok
    ensures Served(env, s, a, EnsureKey(env, s, a))
  {
    if Live(a.ledger, s.name) {
      ResumeServes(env, s, Find(a.ledger, KMS, s.name).value, a);
    } else {
      var (w1, found) := DescribeAlias(a.world, s.alias);
      var a1 := a.(world := w1);
      if found.NotFound? {
        MakeServes(env, s, a1);
      } else {
        AdoptServes(env, s, found.value.0, found.value.1, a1);
        Recorded(env, a.ledger, s, found.value.0);
      }
    }
  }

  // --------------------------------------------------------- a key in use stays

  ghost predicate StaysUsable(w: Cloud, w': Cloud) {
    forall arn :: Usable(w, arn) ==> Usable(w', arn)
  }

  lemma UsableCalls(env: Env, w: Cloud, alias: string, arn: string)
    ensures StaysUsable(w, VerifyOrTakeOver(env, w, arn).0)
    ensures !Usable(w, arn) ==> StaysUsable(w, ReviveKey(w, arn).0)
    ensures StaysUsable(w, TagResource(w, arn, OwnerTags(env.cr)).0)
    ensures StaysUsable(w, EnsureAlias(w, alias, arn).0)
    ensures StaysUsable(w, Reassert(w).0)
  {
  }

  lemma UsableInTurn(a: Cloud, b: Cloud, c: Cloud)
    requires StaysUsable(a, b) && StaysUsable(b, c)
    ensures StaysUsable(a, c)
  {
  }

  lemma ResumeKeepsUsable(env: Env, s: KeySpec, e: Entry, m: Making)
    requires Live(m.ledger, s.name) && Find(m.ledger, KMS, s.name) == Some(e)
    ensures StaysUsable(m.world, ResumeKey(env, s, e, m).world)
  {
    var w1, key := Drawn(m.world), DescribeKey(m.world, e.arn).1;
    var pending := key.Answer? && key.value.state.PendingDeletion?;
    var w2 := VerifyOrTakeOver(env, w1, e.arn).0;
    var w3 := Revived(w2, pending, e.arn);
    var w4 := Reassert(w3).0;
    ResumeWorlds(env, s, e, m, pending);
    UsableCalls(env, w1, s.alias, e.arn);
    StillAsleep(env, w1, e.arn);
    UsableCalls(env, w2, s.alias, e.arn);
    UsableInTurn(w1, w2, w3);
    UsableCalls(env, w3, s.alias, e.arn);
    UsableInTurn(w1, w3, w4);
    UsableCalls(env, w4, s.alias, e.arn);
    UsableInTurn(w1, w4, EnsureAlias(w4, s.alias, e.arn).0);
  }

  lemma StillAsleep(env: Env, w: Cloud, arn: string)
    ensures Usable(w, arn) <==> Usable(VerifyOrTakeOver(env, w, arn).0, arn)
  {
  }

  lemma AdoptKeepsUsable(env: Env, s: KeySpec, arn: string, key: Key, m: Making)
    requires arn in m.world.keys && m.world.keys[arn] == key
    ensures StaysUsable(m.world, AdoptKey(env, s, arn, key, m).world)
  {
    var (w1, tags) := ListTags(m.world, arn);
    if tags.Answer? && TableLadder(tags.value, env.cr, s.adopt, env.from).Retag? {
      var w2 := Revived(w1, key.state.PendingDeletion?, arn);
      var w3 := TagResource(w2, arn, OwnerTags(env.cr)).0;
      AdoptWorlds(env, s, arn, key, m, w1, tags.value);
      UsableCalls(env, w1, s.alias, arn);
      UsableCalls(env, w2, s.alias, arn);
      UsableInTurn(w1, w2, w3);
      UsableCalls(env, w3, s.alias, arn);
      UsableInTurn(w1, w3, Reassert(w3).0);
    }
  }

  lemma MakeKeepsUsable(env: Env, s: KeySpec, m: Making)
    requires !Live(m.ledger, s.name)
    ensures StaysUsable(m.world, MakeKey(env, s, m).world)
  {
    var w0 := CreateKey(m.world, s.name, s.minted, OwnerTags(env.cr)).0;
    MakeWorlds(env, s, m, w0);
  }

  // No call makes a usable key unusable, whatever it comes to.
  lemma CallKeepsUsable(env: Env, s: KeySpec, m: Making)
    ensures StaysUsable(m.world, EnsureKey(env, s, m).world)
  {
    if Live(m.ledger, s.name) {
      ResumeKeepsUsable(env, s, Find(m.ledger, KMS, s.name).value, m);
    } else {
      var (w1, found) := DescribeAlias(m.world, s.alias);
      var m1 := m.(world := w1);
      if found.NotFound? {
        MakeKeepsUsable(env, s, m1);
      } else if found.Answer? {
        AdoptKeepsUsable(env, s, found.value.0, found.value.1, m1);
      }
    }
  }

  // ----------------------------------------------------------------- a pass

  lemma StepServes(env: Env, s: KeySpec, a: Making, b: Making)
    requires StateStep(env, s, a, b)
    ensures b.ok ==> a.ok && Served(env, s, a, b)
    ensures StaysUsable(a.world, b.world)
  {
    var a' := a.(ok := true);
    CallKeepsUsable(env, s, a');
    if b.ok {
      CallServes(env, s, a');
    }
  }

  lemma {:induction false} OkUpto(env: Env, specs: seq<KeySpec>, t: seq<Making>, i: nat, j: nat)
    requires States(env, specs, t) && i <= j <= |specs|
    ensures StaysUsable(t[i].world, t[j].world) && (t[j].ok ==> t[i].ok)
    decreases j - i
  {
    if i < j {
      OkUpto(env, specs, t, i, j - 1);
      assert CallAt(env, specs, t, j - 1);
      StepServes(env, specs[j - 1], t[j - 1], t[j]);
      UsableInTurn(t[i].world, t[j - 1].world, t[j].world);
    }
  }

  lemma {:induction false} LiveUpto(env: Env, specs: seq<KeySpec>, t: seq<Making>, i: nat, j: nat, n: string)
    requires States(env, specs, t) && i <= j <= |specs| && Live(t[i].ledger, n)
    ensures Live(t[j].ledger, n) && Find(t[j].ledger, KMS, n).value.arn == Find(t[i].ledger, KMS, n).value.arn
    decreases j - i
  {
    if i < j {
      LiveUpto(env, specs, t, i, j - 1, n);
      assert CallAt(env, specs, t, j - 1);
      KeyLapses.CallLedger(env, specs[j - 1], t[j - 1], t[j], n);
    }
  }

  // After a pass without an error, each declared key is tracked and usable
  // unless its alias led to an own key in another state; and where its name is
  // not declared once more further on, its entry is current.
  lemma PassServes(env: Env, specs: seq<KeySpec>, t: seq<Making>, i: nat)
    requires States(env, specs, t) && t[|specs|].ok && i < |specs|
    ensures var s, f := specs[i], Find(t[|specs|].ledger, KMS, specs[i].name);
      && f.Some?
      && (!FindsOwn(env, s, t[i]) ==> Usable(t[|specs|].world, f.value.arn))
      && ((forall j :: i < j < |specs| ==> specs[j].name != s.name) ==> Current(env.now, s, f))
  {
    var s := specs[i];
    OkUpto(env, specs, t, i + 1, |specs|);
    assert CallAt(env, specs, t, i);
    StepServes(env, s, t[i], t[i + 1]);
    LiveUpto(env, specs, t, i + 1, |specs|, s.name);
    if forall j :: i < j < |specs| ==> specs[j].name != s.name {
      KeyLapses.LeftBetween(env, specs, t, i + 1, |specs|, s.name);
    }
  }

  // For every spec list, ledger and fault list: after a pass without an error,
  // each declared name that was tracked before is tracked under the same ARN,
  // and the key there is enabled.
  lemma DeclaredKeysAreUsable(env: Env, specs: seq<KeySpec>, m: Making, n: string)
    requires Live(m.ledger, n) && exists s :: s in specs && s.name == n
    ensures var r := EnsureUpto(env, specs, |specs|, m);
      r.ok ==>
        && Live(r.ledger, n) && Find(r.ledger, KMS, n).value.arn == Find(m.ledger, KMS, n).value.arn
        && var arn := Find(m.ledger, KMS, n).value.arn; arn in r.world.keys && r.world.keys[arn].state == Enabled
  {
    var t := PassStates(env, specs, m);
    var s :| s in specs && s.name == n;
    var i :| 0 <= i < |specs| && specs[i] == s;
    LiveUpto(env, specs, t, 0, i, n);
    LiveUpto(env, specs, t, 0, |specs|, n);
    if t[|specs|].ok {
      PassServes(env, specs, t, i);
    }
  }

  // ------------------------------------------------------ when nothing fails

  // The tags are this CR's, or of an incarnation it was told to take over from.
  ghost predicate Takeable(env: Env, tags: Tags) {
    IsOwnedBy(tags, env.cr) || Inherited(env.cr, env.from, tags)
  }

  ghost predicate AliasFits(w: Cloud, alias: string, arn: string) {
    alias !in w.aliases || w.aliases[alias] == arn
  }

  // The key can be had: the tracked one is there, not disabled, and trusted, or
  // takeable with the alias free for it; or the alias leads to one that may be
  // recorded; or a new one can be made.
  ghost predicate Feasible(env: Env, s: KeySpec, a: Making) {
    var f, w := Find(a.ledger, KMS, s.name), a.world;
    if Live(a.ledger, s.name) then
      && f.value.arn in w.keys && !w.keys[f.value.arn].state.Disabled?
      && (Trusted(env.now, s, a) || (Takeable(env, w.keys[f.value.arn].tags) && AliasFits(w, s.alias, f.value.arn)))
    else if s.alias in w.aliases && w.aliases[s.alias] in w.keys then
      var key := w.keys[w.aliases[s.alias]];
      || IsOwnedBy(key.tags, env.cr)
      || (!key.state.Disabled? && (Inherited(env.cr, env.from, key.tags) || (s.adopt && Unclaimed(env.cr, key.tags))))
    else AliasFits(w, s.alias, s.minted)
  }

  lemma TakeOverIff(env: Env, w: Cloud, arn: string)
    requires w.faults == [] && arn in w.keys
    ensures var (w', ok) := VerifyOrTakeOver(env, w, arn);
      && w'.faults == [] && (ok <==> Takeable(env, w.keys[arn].tags))
  {
    LadderMeans(w.keys[arn].tags, env.cr, false, env.from);
  }

  lemma AliasIff(w: Cloud, alias: string, arn: string)
    requires w.faults == [] && arn in w.keys
    ensures EnsureAlias(w, alias, arn).1 <==> AliasFits(w, alias, arn)
  {
  }

  lemma ResumeIff(env: Env, s: KeySpec, e: Entry, m: Making)
    requires Live(m.ledger, s.name) && Find(m.ledger, KMS, s.name) == Some(e) && m.world.faults == []
    ensures ResumeKey(env, s, e, m).ok <==> Feasible(env, s, m)
  {
    var w1 := DescribeKey(m.world, e.arn).0;
    assert w1 == m.world;
    if e.arn in w1.keys && !w1.keys[e.arn].state.Disabled? {
      TakeOverIff(env, w1, e.arn);
      TakenOver(env, w1, e.arn);
      var (w2, ours) := VerifyOrTakeOver(env, w1, e.arn);
      if ours {
        Woken(w2, e.arn);
        var (w3, revived) := if w1.keys[e.arn].state.PendingDeletion? then ReviveKey(w2, e.arn) else (w2, true);
        assert revived && w3.faults == [] && e.arn in w3.keys && w3.aliases == w1.aliases;
        assert Reassert(w3) == (w3, true);
        AliasIff(w3, s.alias, e.arn);
      }
    }
  }

  lemma MakeIff(env: Env, s: KeySpec, m: Making)
    requires !Live(m.ledger, s.name) && m.world.faults == []
    ensures MakeKey(env, s, m).ok <==> AliasFits(m.world, s.alias, s.minted)
  {
    var (w0, made) := CreateKey(m.world, s.name, s.minted, OwnerTags(env.cr));
    AliasIff(w0, s.alias, s.minted);
    assert Unmodelled(w0) == (w0, true);
    var tagged := m.(world := w0, ledger := RecordKey(env, m.ledger, s, s.minted, TagPending));
    assert Checkpoint(tagged).world == w0 && Checkpoint(tagged).ok;
  }

  lemma AdoptIff(env: Env, s: KeySpec, arn: string, key: Key, m: Making)
    requires arn in m.world.keys && m.world.keys[arn] == key && m.world.faults == []
    ensures AdoptKey(env, s, arn, key, m).ok <==>
      || IsOwnedBy(key.tags, env.cr)
      || (!key.state.Disabled? && (Inherited(env.cr, env.from, key.tags) || (s.adopt && Unclaimed(env.cr, key.tags))))
  {
    var (w1, tags) := ListTags(m.world, arn);
    assert w1 == m.world;
    LadderMeans(key.tags, env.cr, s.adopt, env.from);
    Woken(w1, arn);
  }

  // With every call answered, ensuring a key succeeds exactly if it can be had.
  lemma CallSucceedsIff(env: Env, s: KeySpec, a: Making)
    requires a.world.faults == []
    ensures EnsureKey(env, s, a).ok <==> Feasible(env, s, a)
  {
    if Live(a.ledger, s.name) {
      ResumeIff(env, s, Find(a.ledger, KMS, s.name).value, a);
    } else {
      var (w1, found) := DescribeAlias(a.world, s.alias);
      var a1 := a.(world := w1);
      if found.NotFound? {
        MakeIff(env, s, a1);
      } else if found.Answer? {
        AdoptIff(env, s, found.value.0, found.value.1, a1);
      }
    }
  }
}
