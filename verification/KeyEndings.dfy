/**
 What Cleanup owes a key: after a pass without an error each key entry and the
 key behind it are exactly where its declaration, its use, its policy and its
 clock put them.
 */
module KeyEndings {
  import opened Ledger
  import opened Sweep
  import opened Ownership
  import opened KmsCloud
  import opened KeyCleanup
  import opened Decisions
  import KeySection
  import KeyReach

  function KeyAt(w: Cloud, arn: string): Option<Key> {
    if arn in w.keys then Some(w.keys[arn]) else None
  }

  // The key is needed no more by the spec or by data, or the CR goes away.
  ghost predicate Dropped(wants: Wants, e: Entry) {
    wants.deleting || (e.name !in wants.specKeys && e.name !in wants.inUse)
  }

  // Some resource of the ledger that is itself going away still uses the key.
  ghost predicate Waiting(wants: Wants, e: Entry) {
    wants.deleting && e.name in wants.inUse && !wants.inUse[e.name]
  }

  // Data that stays uses the key.
  ghost predicate Staying(wants: Wants, e: Entry) {
    wants.deleting && e.name in wants.inUse && wants.inUse[e.name]
  }

  // A retained key was looked at in the last day, or is let go of now: its
  // owner tags are gone unless AWS is deleting it, and a missing key is forgotten.
  ghost predicate LetGoOf(env: Env, e: Entry, k: Option<Key>, k': Option<Key>, f: Option<Entry>) {
    if e.state.Relinquished? && e.lastVerifiedAt.Some? && env.now - e.lastVerifiedAt.value <= 24 * HOUR then k' == k && f.Some? && f.value.state.Relinquished?
    else if k.None? then k'.None? && f.None?
    else
      && f.Some? && f.value.state.Relinquished? && f.value.lastVerifiedAt == Some(env.now) && f.value.arn == e.arn
      && k'.Some? && k'.value.state == k.value.state && (k.value.state.PendingDeletion? || !IsOwnedBy(k'.value.tags, env.cr))
  }

  // A key to be deleted: forgotten when it is gone, left when AWS is deleting
  // it, marked when it was not, kept for ten minutes, and then scheduled.
  ghost predicate WoundDown(env: Env, e: Entry, k: Option<Key>, k': Option<Key>, f: Option<Entry>) {
    if k.None? then k'.None? && f.None?
    else if k.value.state.PendingDeletion? then k' == k && f == Some(e)
    else
      && IsOwnedBy(k.value.tags, env.cr)
      && (if e.pendingSince.None? then k' == k && f == Some(e.(pendingSince := Some(env.now)))
          else if env.now - e.pendingSince.value < 10 * MINUTE then k' == k && f == Some(e)
          else k' == Some(k.value.(state := PendingDeletion)) && f.None?)
  }

  ghost predicate Ended(env: Env, wants: Wants, e: Entry, k: Option<Key>, k': Option<Key>, f: Option<Entry>) {
    if Waiting(wants, e) then k' == k && f == Some(e)
    else if !Dropped(wants, e) then k' == k && f == Some(e.(pendingSince := None))
    else if e.policy == Retain || Staying(wants, e) then LetGoOf(env, e, k, k', f)
    else WoundDown(env, e, k, k', f)
  }

  lemma Untags(env: Env, w: Cloud, arn: string)
    requires arn in w.keys
    ensures var (w', ok) := UntagOwner(w, arn);
      ok ==> arn in w'.keys && w'.keys[arn].state == w.keys[arn].state && !IsOwnedBy(w'.keys[arn].tags, env.cr)
  {
    TagsAreMine(w.keys[arn].tags, env.cr);
  }

  lemma LetsGo(env: Env, w: Cloud, arn: string)
    ensures var (w', letting) := LetGo(env, w, arn);
      var k, k' := KeyAt(w, arn), KeyAt(w', arn);
      && (letting.Gone? ==> k.None? && k'.None?)
      && (letting.Kept? ==> && k.Some? && k'.Some? && k'.value.state == k.value.state
                            && (k.value.state.PendingDeletion? || !IsOwnedBy(k'.value.tags, env.cr)))
  {
    if arn in w.keys {
      var w4 := Unmodelled(Unmodelled(ListTags(DescribeKey(w, arn).0, arn).0).0).0;
      Untags(env, w4, arn);
    }
  }

  lemma RetainEnds(env: Env, p: KeyPass, e: Entry, x: Entry)
    requires e.rtype == KMS && Find(p.ledger, KMS, e.name) == Some(e) && x == e.(policy := x.policy) && !AfterRetain(env, p, x).failed
    ensures var q := AfterRetain(env, p, x);
      LetGoOf(env, e, KeyAt(p.world, e.arn), KeyAt(q.world, e.arn), Find(q.ledger, KMS, e.name))
  {
    LetsGo(env, p.world, e.arn);
    FindRemove(p.ledger, KMS, e.name, KMS, e.name);
    FindUpsert(p.ledger, Relinquish(x, env.now), KMS, e.name);
  }

  lemma ScheduleEnds(env: Env, p: KeyPass, e: Entry)
    requires e.rtype == KMS && Find(p.ledger, KMS, e.name) == Some(e) && !AfterSchedule(env, p, e).failed
    ensures var q := AfterSchedule(env, p, e);
      WoundDown(env, e, KeyAt(p.world, e.arn), KeyAt(q.world, e.arn), Find(q.ledger, KMS, e.name))
  {
    FindRemove(p.ledger, KMS, e.name, KMS, e.name);
    FindUpsert(p.ledger, e.(pendingSince := Some(env.now)), KMS, e.name);
  }

  lemma EntryEnds(env: Env, wants: Wants, p: KeyPass, e: Entry)
    requires e.rtype == KMS && Find(p.ledger, KMS, e.name) == Some(e) && !AfterEntry(env, wants, p, e).failed
    ensures var q := AfterEntry(env, wants, p, e);
      Ended(env, wants, e, KeyAt(p.world, e.arn), KeyAt(q.world, e.arn), Find(q.ledger, KMS, e.name))
  {
    var e' := if Staying(wants, e) then e.(policy := Retain) else e;
    if Waiting(wants, e) {
    } else if !Dropped(wants, e) {
      FindUpsert(p.ledger, e.(pendingSince := None), KMS, e.name);
    } else if e'.policy == Retain {
      RetainEnds(env, p, e, e');
    } else {
      ScheduleEnds(env, p, e);
    }
  }

  // ----------------------------------------------------------------- a pass

  lemma CallsElsewhere(env: Env, w: Cloud, arn: string, other: string)
    requires arn != other
    ensures KeyAt(LetGo(env, w, arn).0, other) == KeyAt(w, other)
    ensures KeyAt(ScheduleKeyDeletion(w, arn).0, other) == KeyAt(w, other)
  {
  }

  lemma ScheduleElsewhere(env: Env, p: KeyPass, e: Entry, arn: string)
    requires e.rtype == KMS && e.arn != arn
    ensures KeyAt(AfterSchedule(env, p, e).world, arn) == KeyAt(p.world, arn)
  {
    CallsElsewhere(env, Drawn(Drawn(p.world)), e.arn, arn);
    KeyReach.ScheduleWorlds(env, p, e);
  }

  lemma RetainElsewhere(env: Env, p: KeyPass, e: Entry, arn: string)
    requires e.rtype == KMS && e.arn != arn
    ensures KeyAt(AfterRetain(env, p, e).world, arn) == KeyAt(p.world, arn)
  {
    CallsElsewhere(env, p.world, e.arn, arn);
    assert AfterRetain(env, p, e).world in {p.world, LetGo(env, p.world, e.arn).0};
  }

  lemma OtherLeavesIt(env: Env, wants: Wants, p: KeyPass, e: Entry, arn: string)
    requires e.rtype == KMS ==> e.arn != arn
    ensures KeyAt(AfterEntry(env, wants, p, e).world, arn) == KeyAt(p.world, arn)
  {
    if e.rtype == KMS {
      var e' := if wants.deleting && e.name in wants.inUse then e.(policy := Retain) else e;
      ScheduleElsewhere(env, p, e', arn);
      RetainElsewhere(env, p, e', arn);
    }
  }

  lemma OthersLeaveIt(env: Env, wants: Wants, l: seq<Entry>, a: nat, b: nat, p: KeyPass, arn: string)
    requires a <= b <= |l| && forall i :: a <= i < b && l[i].rtype == KMS ==> l[i].arn != arn
    ensures KeyAt(Upto(Step(env, wants), l, b, p).world, arn) == KeyAt(Upto(Step(env, wants), l, a, p).world, arn)
  {
    var view, other := (w: Cloud) => KeyAt(w, arn), (e: Entry) => e.rtype == KMS ==> e.arn != arn;
    forall q: KeyPass, e: Entry | other(e) ensures view(Step(env, wants)(q, e).world) == view(q.world) {
      OtherLeavesIt(env, wants, q, e, arn);
    }
    Unmoved(Step(env, wants), l, a, b, p, view, other);
  }

  // After a pass without an error, over any ledger whose key ARNs are distinct,
  // every key entry has come to its end.
  lemma PassEnds(env: Env, wants: Wants, w: Cloud, l: seq<Entry>, e: Entry)
    requires Unique(l) && DistinctKeyARNs(l) && e in l && e.rtype == KMS && !AfterCleanup(env, wants, w, l).failed
    ensures var p := AfterCleanup(env, wants, w, l);
      Ended(env, wants, e, KeyAt(w, e.arn), KeyAt(p.world, e.arn), Find(p.ledger, KMS, e.name))
  {
    var step, start := Step(env, wants), Pass(w, l, [], false);
    var k :| 0 <= k < |l| && l[k] == e;
    forall i | 0 <= i < |l| && i != k && l[i].rtype == KMS ensures l[i].arn != e.arn {
      assert !l[i].Is(l[k].rtype, l[k].name) || !l[k].Is(l[i].rtype, l[i].name);
    }
    OthersLeaveIt(env, wants, l, 0, k, start, e.arn);
    OthersLeaveIt(env, wants, l, k + 1, |l|, start, e.arn);
    StepFinds(env, wants, w, l, k, KMS);
    StepIsSteady(env, wants);
    NotFailedAt(step, l, k, start);
    EntryEnds(env, wants, Upto(step, l, k, start), e);
  }

  // ------------------------------------------------------ when nothing fails

  // A key to be deleted is there and not this CR's.
  ghost predicate Unable(env: Env, wants: Wants, e: Entry, k: Option<Key>) {
    && e.rtype == KMS && Dropped(wants, e) && !Waiting(wants, e) && !Staying(wants, e) && e.policy == Delete
    && k.Some? && !k.value.state.PendingDeletion? && !IsOwnedBy(k.value.tags, env.cr)
  }

  lemma LetGoWorks(env: Env, w: Cloud, arn: string)
    requires w.faults == []
    ensures var (w', letting) := LetGo(env, w, arn); w'.faults == [] && !letting.Broken?
  {
  }

  lemma EntryFails(env: Env, wants: Wants, p: KeyPass, e: Entry)
    requires p.world.faults == []
    ensures var q := AfterEntry(env, wants, p, e);
      q.world.faults == [] && (q.failed <==> p.failed || Unable(env, wants, e, KeyAt(p.world, e.arn)))
  {
    LetGoWorks(env, p.world, e.arn);
  }

  lemma FaultsStayAway(env: Env, wants: Wants, w: Cloud, l: seq<Entry>, k: nat)
    requires w.faults == [] && k <= |l|
    ensures Upto(Step(env, wants), l, k, Pass(w, l, [], false)).world.faults == []
  {
    var quiet := (q: KeyPass) => q.world.faults == [];
    forall q, e | quiet(q) ensures quiet(Step(env, wants)(q, e)) {
      EntryFails(env, wants, q, e);
    }
    Lasts(Step(env, wants), l, 0, k, Pass(w, l, [], false), quiet);
  }

  // With every call answered, a pass fails exactly if the ledger has a key to be
  // deleted that is not this CR's.
  lemma PassFailsIff(env: Env, wants: Wants, w: Cloud, l: seq<Entry>)
    requires DistinctKeyARNs(l) && w.faults == []
    ensures AfterCleanup(env, wants, w, l).failed <==> exists e :: e in l && Unable(env, wants, e, KeyAt(w, e.arn))
  {
    var step, start := Step(env, wants), Pass(w, l, [], false);
    var cause := (i: nat) => i < |l| && Unable(env, wants, l[i], KeyAt(w, l[i].arn));
    forall i: nat | i < |l| ensures FailsAt(step, l, i, start, cause) {
      FaultsStayAway(env, wants, w, l, i);
      EntryFails(env, wants, Upto(step, l, i, start), l[i]);
      if l[i].rtype == KMS {
        OthersLeaveIt(env, wants, l, 0, i, start, l[i].arn);
      }
    }
    FailsIff(step, l, |l|, start, cause);
    if e :| e in l && Unable(env, wants, e, KeyAt(w, e.arn)) {
      var i :| 0 <= i < |l| && l[i] == e;
      assert cause(i);
    }
  }

  // ----------------------------------------------------- keys nobody uses go

  // An entry that holds the key is encrypted with it.
  lemma HolderIsEncrypted(l: seq<Entry>, key: Entry, h: Entry)
    requires Unique(l) && key in l && key.rtype == KMS && KeyNameFor(l, h) == Some(key.name)
    ensures Encrypts(l, key, h)
  {
    KeyByARNIs(l, h.kmsKeyARN);
    FindMember(l, key);
    if h.kmsKeyARN != "" && KeyByARN(l, h.kmsKeyARN).Some? {
      var x :| x in l && x.Is(KMS, key.name) && x.arn == h.kmsKeyARN;
      FindMember(l, x);
    }
  }

  // Neither the spec nor any entry uses the key.
  ghost predicate Unused(spec: KeySection.Spec, l: seq<Entry>, key: Entry) {
    && key.name !in spec.keys
    && (forall i :: 0 <= i < |spec.resources| ==> !KeySection.Needs(spec.resources[i], key.name))
    && forall h :: h in l ==> !Encrypts(l, key, h)
  }

  lemma UnusedIsDropped(spec: KeySection.Spec, l: seq<Entry>, key: Entry)
    requires Unique(l) && key in l && key.rtype == KMS && Unused(spec, l, key)
    ensures Dropped(KeySection.ReconcileWants(l, spec), key)
  {
    KeySection.NeededMembers(spec.resources, key.name);
    InUseMapIs(l, KeySection.Needed(spec.resources), key.name);
    if h :| h in l && KeyNameFor(l, h) == Some(key.name) {
      HolderIsEncrypted(l, key, h);
    }
  }

  // A key of Delete policy that nobody uses, the CR's own in AWS and marked ten
  // minutes ago or longer, is after a section pass without an error scheduled
  // for deletion and forgotten.
  lemma UnusedKeyIsScheduled(env: Env, spec: KeySection.Spec, w: Cloud, l: seq<Entry>, key: Entry)
    requires Unique(l) && DistinctKeyARNs(l) && key in l && key.rtype == KMS && key.policy == Delete && Unused(spec, l, key)
    requires key.pendingSince.Some? && env.now - key.pendingSince.value >= 10 * MINUTE
    requires key.arn in w.keys && !w.keys[key.arn].state.PendingDeletion?
    requires !AfterCleanup(env, KeySection.ReconcileWants(l, spec), w, l).failed
    ensures var p := AfterCleanup(env, KeySection.ReconcileWants(l, spec), w, l);
      && Find(p.ledger, KMS, key.name).None?
      && key.arn in p.world.keys && p.world.keys[key.arn].state == PendingDeletion
  {
    UnusedIsDropped(spec, l, key);
    PassEnds(env, KeySection.ReconcileWants(l, spec), w, l, key);
  }
}
