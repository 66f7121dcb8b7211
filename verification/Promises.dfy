/**
 The outcome the status publishes for every entry, and what a cleanup of the CR
 being deleted does to it.
 */
module Promises {
  import opened Ledger
  import opened Sweep
  import opened Decisions
  import TableCloud
  import TableCleanup
  import TableRestores
  import TableEndings
  import InstanceCloud
  import InstanceCleanup
  import InstanceEndings
  import KmsCloud
  import KeyCleanup
  import KeyEndings

  // A table is let go of, deleted at once, or wound down until it is empty, as
  // published; no table is left to be deleted by hand.
  lemma TablePromise(env: TableCleanup.Env, w: TableCloud.Cloud, l: seq<Entry>, e: Entry)
    requires Unique(l) && e in l && e.rtype == DynamoDB && TableRestores.Alone(l, e.name, e.arn) && !env.forceDeleteAll
    requires !TableCleanup.AfterCleanup(env, {}, w, l).failed
    ensures var p := TableCleanup.AfterCleanup(env, {}, w, l);
      var t, t', f := TableRestores.TableOf(w, e.arn), TableRestores.TableOf(p.world, e.arn), Find(p.ledger, DynamoDB, e.name);
      match OnDelete(e)
      case OnDeleteRetain => TableEndings.LetGoOf(env, e, PinsAKey(l, DynamoDB, e), t, t', f)
      case OnDeleteEvenIfNotEmpty => TableEndings.Forcibly(env, t, t', f)
      case OnDeleteDelete => TableEndings.WoundDown(env, e, t, t', f)
      case OnDeleteManual => false
  {
    TableEndings.PassEnds(env, {}, w, l, e);
  }

  // An instance is let go of, or left to be deleted by hand with its owner tags
  // on and its mark; the operator deletes none.
  ghost predicate InstanceKept(e: Entry, v: InstanceEndings.View, v': InstanceEndings.View) {
    && (v.tags.Some? <==> v'.tags.Some?)
    && match OnDelete(e)
       case OnDeleteRetain => v'.entry.None? || v'.entry.value.state.Relinquished?
       case OnDeleteManual => v'.tags == v.tags && (v.tags.Some? ==> v'.entry.Some? && v'.entry.value.pendingSince.Some?)
       case _ => false
  }

  lemma ViewsKept(env: InstanceCleanup.Env, e: Entry, v: InstanceEndings.View, mid: InstanceEndings.View, v': InstanceEndings.View)
    requires e.rtype == RDS && v.entry == Some(e)
    requires InstanceEndings.Ended(env, {}, e, v, mid) && InstanceEndings.Checked(env, mid, v')
    ensures InstanceKept(e, v, v')
  {
  }

  lemma InstancePromise(env: InstanceCleanup.Env, w: InstanceCloud.Cloud, l: seq<Entry>, e: Entry, id: string)
    requires Unique(l) && e in l && e.rtype == RDS && id == InstanceEndings.IdFor(env, e, Find(l, RDSSnapshot, e.name))
    requires InstanceEndings.Apart(env, l, e.name, e.arn, id) && !InstanceCleanup.AfterCleanup(env, {}, w, l).failed
    ensures InstanceKept(e, InstanceEndings.ViewOf(Pass(w, l, [], false), e.name, e.arn, id),
                         InstanceEndings.ViewOf(InstanceCleanup.AfterCleanup(env, {}, w, l), e.name, e.arn, id))
  {
    var v := InstanceEndings.ViewOf(Pass(w, l, [], false), e.name, e.arn, id);
    var v' := InstanceEndings.ViewOf(InstanceCleanup.AfterCleanup(env, {}, w, l), e.name, e.arn, id);
    FindMember(l, e);
    InstanceEndings.PassEnds(env, {}, w, l, e, id);
    var mid :| InstanceEndings.Ended(env, {}, e, v, mid) && InstanceEndings.Checked(env, mid, v');
    ViewsKept(env, e, v, mid, v');
  }

  // A key waits for the data that goes, is let go of with the data that stays
  // whatever was published for it, and otherwise ends as published.
  lemma KeyPromise(env: KeyCleanup.Env, wants: KeyCleanup.Wants, w: KmsCloud.Cloud, l: seq<Entry>, e: Entry)
    requires Unique(l) && KeyCleanup.DistinctKeyARNs(l) && e in l && e.rtype == KMS && wants.deleting
    requires !KeyCleanup.AfterCleanup(env, wants, w, l).failed
    ensures var p := KeyCleanup.AfterCleanup(env, wants, w, l);
      var k, k', f := KeyEndings.KeyAt(w, e.arn), KeyEndings.KeyAt(p.world, e.arn), Find(p.ledger, KMS, e.name);
      if e.name in wants.inUse then if wants.inUse[e.name] then KeyEndings.LetGoOf(env, e, k, k', f) else k' == k && f == Some(e)
      else
        match OnDelete(e)
        case OnDeleteRetain => KeyEndings.LetGoOf(env, e, k, k', f)
        case OnDeleteDelete => KeyEndings.WoundDown(env, e, k, k', f)
        case _ => false
  {
    KeyEndings.PassEnds(env, wants, w, l, e);
  }
}
