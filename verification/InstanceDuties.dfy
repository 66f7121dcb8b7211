/**
 What Ensure owes a declared instance: after a pass without an error it is
 there, tracked under the spec's policy and recently verified; and when nothing
 fails, a call succeeds exactly if the instance can be had.
 */
module InstanceDuties {
  import opened Ledger
  import opened Ownership
  import opened InstanceCloud
  import opened InstanceCleanup
  import opened InstanceEnsure

  ghost predicate Ours(cr: CR, w: Cloud, arn: string) {
    arn in w.instances && IsOwnedBy(w.instances[arn], cr)
  }

  ghost predicate VerifiedLately(now: int, e: Entry) {
    e.state.Verified? && e.lastVerifiedAt.Some? && now - e.lastVerifiedAt.value <= 10 * MINUTE
  }

  ghost predicate Trusted(now: int, l: seq<Entry>, n: string) {
    Find(l, RDS, n).Some? && VerifiedLately(now, Find(l, RDS, n).value)
  }

  // The instance is there, under the spec, and new or lately verified.
  ghost predicate Kept(now: int, s: InstanceSpec, r: Ensured) {
    && s.arn in r.world.instances && Find(r.ledger, RDS, s.name).Some?
    && var e := Find(r.ledger, RDS, s.name).value;
    && e.policy == s.policy && (e.state.Creating? || VerifiedLately(now, e))
  }

  lemma Claims(env: Env, from: string, s: InstanceSpec, w: Cloud)
    ensures var (w', ok) := Claim(env, from, s, w);
      && w'.instances.Keys == w.instances.Keys
      && (ok ==> Ours(env.cr, w', s.arn))
      && (w.faults == [] && s.arn in w.instances ==>
            && w'.faults == []
            && var tags := w.instances[s.arn];
            (ok <==> IsOwnedBy(tags, env.cr) || Inherited(env.cr, from, tags) || (s.adopt && Unclaimed(env.cr, tags))))
  {
    if s.arn in w.instances {
      TagsAreMine(w.instances[s.arn], env.cr);
      LadderMeans(w.instances[s.arn], env.cr, s.adopt, from);
    }
  }

  // The instance is kept, and is the CR's own unless it was there and trusted.
  ghost predicate Served(env: Env, s: InstanceSpec, w: Cloud, l: seq<Entry>, r: Ensured) {
    && Kept(env.now, s, r)
    && (s.arn !in w.instances || !Trusted(env.now, l, s.name) ==>
          Ours(env.cr, r.world, s.arn) && Find(r.ledger, RDS, s.name).value.arn == s.arn)
  }

  lemma CreateServes(env: Env, from: string, s: InstanceSpec, w: Cloud, l: seq<Entry>)
    requires EnsureInstance(env, from, s, w, l).ok && s.arn !in w.instances
    ensures Served(env, s, w, l, EnsureInstance(env, from, s, w, l))
  {
    TagsAreMine(map[], env.cr);
    FindUpsert(l, Fresh(RDS, s.name, s.arn, s.policy, false, Creating, env.now, None), RDS, s.name);
  }

  lemma CheckServes(env: Env, from: string, s: InstanceSpec, w: Cloud, l: seq<Entry>)
    requires EnsureInstance(env, from, s, w, l).ok && s.arn in w.instances
    requires Find(l, RDS, s.name).None? || NeedsRevalidation(Find(l, RDS, s.name).value, env.now)
    ensures Served(env, s, w, l, EnsureInstance(env, from, s, w, l))
  {
    Claims(env, from, s, Drawn(w));
    FindUpsert(l, Recorded(env, s, l, Verified, Some(env.now)), RDS, s.name);
  }

  lemma TrustServes(env: Env, from: string, s: InstanceSpec, w: Cloud, l: seq<Entry>)
    requires EnsureInstance(env, from, s, w, l).ok && s.arn in w.instances
    requires Find(l, RDS, s.name).Some? && !NeedsRevalidation(Find(l, RDS, s.name).value, env.now)
    ensures Served(env, s, w, l, EnsureInstance(env, from, s, w, l))
  {
    FindSound(l, RDS, s.name);
    FindUpsert(l, Find(l, RDS, s.name).value.(policy := s.policy), RDS, s.name);
  }

  // Whatever the ledger, the cloud and the faults: a call without an error
  // leaves the instance and its entry. One that was missing is new and the CR's
  // own; any other is the CR's own unless it was trusted.
  lemma CallServes(env: Env, from: string, s: InstanceSpec, w: Cloud, l: seq<Entry>)
    requires EnsureInstance(env, from, s, w, l).ok
    ensures Served(env, s, w, l, EnsureInstance(env, from, s, w, l))
  {
    var existing := Find(l, RDS, s.name);
    if s.arn !in w.instances {
      CreateServes(env, from, s, w, l);
    } else if existing.None? || NeedsRevalidation(existing.value, env.now) {
      CheckServes(env, from, s, w, l);
    } else {
      TrustServes(env, from, s, w, l);
    }
  }

  lemma CallKeeps(env: Env, from: string, s: InstanceSpec, w: Cloud, l: seq<Entry>, n: string)
    ensures var r := EnsureInstance(env, from, s, w, l);
      w.instances.Keys <= r.world.instances.Keys && (n != s.name ==> Find(r.ledger, RDS, n) == Find(l, RDS, n))
  {
    Claims(env, from, s, Drawn(w));
    var l' := EnsureInstance(env, from, s, w, l).ledger;
    if l' != l {
      var x: Entry :| x.Is(RDS, s.name) && l' == Upsert(l, x);
      FindUpsert(l, x, RDS, n);
    }
  }

  // For every spec list, ledger and fault list: after an Ensure without an error
  // each declared instance is there, with an entry under the spec's policy that
  // is new or was verified in the last ten minutes.
  lemma {:induction false} DeclaredInstancesAreServed(env: Env, from: string, specs: seq<InstanceSpec>, k: nat, w: Cloud, l: seq<Entry>, i: nat)
    requires i < k <= |specs| && forall j :: i < j < k ==> specs[j].name != specs[i].name
    ensures var r := EnsureUpto(env, from, specs, k, w, l); r.ok ==> Kept(env.now, specs[i], r)
  {
    if i < k - 1 {
      DeclaredInstancesAreServed(env, from, specs, k - 1, w, l, i);
    }
    StepServes(env, from, EnsureUpto(env, from, specs, k - 1, w, l), specs[k - 1], specs[i]);
  }

  lemma StepServes(env: Env, from: string, r: Ensured, s: InstanceSpec, o: InstanceSpec)
    requires r.ok && o.name != s.name ==> Kept(env.now, o, r)
    requires o.name == s.name ==> o == s
    ensures var r' := EnsureStep(env, from)(r, s); r'.ok ==> Kept(env.now, o, r')
  {
    if EnsureStep(env, from)(r, s).ok {
      CallServes(env, from, s, r.world, r.ledger);
      CallKeeps(env, from, s, r.world, r.ledger, o.name);
    }
  }

  // The instance can be had: a missing one may be made unless it was tracked,
  // and one that is there is trusted, the CR's own, or to be taken over.
  ghost predicate Feasible(env: Env, from: string, s: InstanceSpec, w: Cloud, l: seq<Entry>) {
    var f := Find(l, RDS, s.name);
    if s.arn !in w.instances then f.None? || f.value.state.Relinquished?
    else
      var tags := w.instances[s.arn];
      || Trusted(env.now, l, s.name) || IsOwnedBy(tags, env.cr)
      || Inherited(env.cr, from, tags) || (s.adopt && Unclaimed(env.cr, tags))
  }

  // With every call answered, ensuring an instance succeeds exactly if it can be had.
  lemma CallSucceedsIff(env: Env, from: string, s: InstanceSpec, w: Cloud, l: seq<Entry>)
    requires w.faults == []
    ensures EnsureInstance(env, from, s, w, l).ok <==> Feasible(env, from, s, w, l)
  {
    Claims(env, from, s, Drawn(w));
  }
}
