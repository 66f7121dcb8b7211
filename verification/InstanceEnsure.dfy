/**
 Ensuring a declared RDS instance, as far as its ownership tags and its ledger
 entry go: create it, claim it, or trust it within its window.
 */
module InstanceEnsure {
  import opened Ledger
  import opened Sweep
  import opened Ownership
  import opened InstanceCloud
  import opened InstanceCleanup

  datatype InstanceSpec = InstanceSpec(name: string, arn: string, policy: DeletionPolicy, adopt: bool)

  datatype Ensured = Ensured(world: Cloud, ledger: seq<Entry>, ok: bool)

  // Refuses an instance that is another's, and tags one that may be taken.
  function Claim(env: Env, from: string, s: InstanceSpec, w: Cloud): (Cloud, bool) {
    var (w1, tags) := ListTags(w, s.arn);
    if !tags.Answer? then (w1, false)
    else
      match TableLadder(tags.value, env.cr, s.adopt, from)
      case Owned => (w1, true)
      case Refuse(_) => (w1, false)
      case Retag(_) => AddTags(w1, s.arn, OwnerTags(env.cr))
  }

  // The only edits: the instance's entry, which keeps its mark or loses it.
  ghost predicate InstanceEdit(l: seq<Entry>, l': seq<Entry>, name: string) {
    l' == l ||
    exists x: Entry :: x.Is(RDS, name) && l' == Upsert(l, x) &&
      (x.pendingSince.None? || (Find(l, RDS, name).Some? && x.pendingSince == Find(l, RDS, name).value.pendingSince))
  }

  function Recorded(env: Env, s: InstanceSpec, l: seq<Entry>, state: State, verified: Option<int>): (x: Entry)
    ensures x.Is(RDS, s.name) && x.pendingSince.None?
  {
    var existing := Find(l, RDS, s.name);
    Fresh(RDS, s.name, s.arn, s.policy, false, state, if existing.Some? then existing.value.createdAt else env.now, verified)
  }

  function EnsureInstance(env: Env, from: string, s: InstanceSpec, w: Cloud, l: seq<Entry>): (r: Ensured)
    ensures InstanceEdit(l, r.ledger, s.name)
  {
    var existing := Find(l, RDS, s.name);
    var (w1, found) := LookUp(w, s.arn);
    if found.None? then Ensured(w1, l, false)
    else if !found.value then
      if existing.Some? && !existing.value.state.Relinquished? then Ensured(w1, l, false)
      else
        var (w2, ok) := CreateInstance(w1, s.arn, OwnerTags(env.cr));
        if !ok then Ensured(w2, l, false)
        else Ensured(w2, Upsert(l, Fresh(RDS, s.name, s.arn, s.policy, false, Creating, env.now, None)), true)
    else
      var check := existing.None? || NeedsRevalidation(existing.value, env.now);
      var (w2, ours) := if check then Claim(env, from, s, w1) else (w1, true);
      if !ours then Ensured(w2, l, false)
      else
        var (w3, settled) := Unmodelled(w2);
        if !settled then Ensured(w3, l, false)
        else if check then Ensured(w3, Upsert(l, Recorded(env, s, l, Verified, Some(env.now))), true)
        else
          FindSound(l, RDS, s.name);
          var x := existing.value.(policy := s.policy);
          assert x.Is(RDS, s.name);
          Ensured(w3, Upsert(l, x), true)
  }

  // An error of one instance does not stop the next.
  function EnsureStep(env: Env, from: string): (Ensured, InstanceSpec) -> Ensured {
    (r: Ensured, s: InstanceSpec) =>
      var r' := EnsureInstance(env, from, s, r.world, r.ledger);
      r'.(ok := r.ok && r'.ok)
  }

  function EnsureUpto(env: Env, from: string, specs: seq<InstanceSpec>, k: nat, w: Cloud, l: seq<Entry>): Ensured
    requires k <= |specs|
  {
    Fold(EnsureStep(env, from), specs, k, Ensured(w, l, true))
  }

  class InstanceEnsurer {
    const env: Env
    const from: string
    var world: Cloud
    var ledger: seq<Entry>

    constructor (env: Env, from: string, w: Cloud, l: seq<Entry>)
      ensures this.env == env && this.from == from && world == w && ledger == l
    {
      this.env, this.from := env, from;
      world, ledger := w, l;
    }

    method EnsureInstanceOwnership(s: InstanceSpec) returns (ok: bool)
      modifies this
      ensures ledger == old(ledger) && (world, ok) == Claim(env, from, s, old(world))
    {
      var (w1, tags) := ListTags(world, s.arn);
      world := w1;
      if !tags.Answer? {
        return false;
      }
      var verdict := InstanceLadder(tags.value, env.cr, s.adopt, from);
      if verdict.Refuse? {
        return false;
      }
      if verdict.Retag? {
        var (w2, tagged) := AddTags(world, s.arn, OwnerTags(env.cr));
        world := w2;
        return tagged;
      }
      return true;
    }

    method EnsureOne(s: InstanceSpec) returns (ok: bool)
      modifies this
      ensures Ensured(world, ledger, ok) == EnsureInstance(env, from, s, old(world), old(ledger))
    {
      var (w1, found) := LookUp(world, s.arn);
      world := w1;
      if found.None? {
        return false;
      }
      var existing := Find(ledger, RDS, s.name);
      if !found.value {
        if existing.Some? && !existing.value.state.Relinquished? {
          return false;
        }
        var (w2, created) := CreateInstance(world, s.arn, OwnerTags(env.cr));
        world := w2;
        if !created {
          return false;
        }
        ledger := Upsert(ledger, Fresh(RDS, s.name, s.arn, s.policy, false, Creating, env.now, None));
        return true;
      }
      var check := existing.None? || NeedsRevalidation(existing.value, env.now);
      if check {
        ok := EnsureInstanceOwnership(s);
        if !ok {
          return;
        }
      }
      var (w3, settled) := Unmodelled(world);
      world := w3;
      if !settled {
        return false;
      }
      if !check {
        ledger := Upsert(ledger, existing.value.(policy := s.policy));
        return true;
      }
      ledger := Upsert(ledger, Recorded(env, s, ledger, Verified, Some(env.now)));
      return true;
    }

    method Ensure(specs: seq<InstanceSpec>) returns (ok: bool)
      modifies this
      ensures Ensured(world, ledger, ok) == EnsureUpto(env, from, specs, |specs|, old(world), old(ledger))
    {
      ok := true;
      ghost var w, l := world, ledger;
      for i := 0 to |specs|
        invariant Ensured(world, ledger, ok) == EnsureUpto(env, from, specs, i, w, l)
      {
        var done := EnsureOne(specs[i]);
        ok := ok && done;
      }
    }
  }

  // ------------------------------------------------------------ the ledger

  // Ensure dates no mark, and leaves every entry of another type alone.
  ghost predicate Framed(l: seq<Entry>, l': seq<Entry>, t: ResourceType, n: string) {
    var f, f' := Find(l, t, n), Find(l', t, n);
    && (t != RDS ==> f' == f)
    && (f'.Some? && f'.value.pendingSince.Some? ==> f.Some? && f'.value.pendingSince == f.value.pendingSince)
  }

  lemma EditFramed(l: seq<Entry>, l': seq<Entry>, name: string, t: ResourceType, n: string)
    requires InstanceEdit(l, l', name)
    ensures Framed(l, l', t, n) && (Unique(l) ==> Unique(l'))
  {
    if l' != l {
      var x: Entry :| x.Is(RDS, name) && l' == Upsert(l, x) &&
        (x.pendingSince.None? || (Find(l, RDS, name).Some? && x.pendingSince == Find(l, RDS, name).value.pendingSince));
      FindUpsert(l, x, t, n);
      if Unique(l) {
        UniqueUpsert(l, x);
      }
    }
  }

  lemma StepFramed(env: Env, from: string, l: seq<Entry>, r: Ensured, s: InstanceSpec, t: ResourceType, n: string)
    requires Framed(l, r.ledger, t, n)
    ensures Framed(l, EnsureStep(env, from)(r, s).ledger, t, n)
  {
    EditFramed(r.ledger, EnsureInstance(env, from, s, r.world, r.ledger).ledger, s.name, t, n);
  }

  lemma EnsureFramed(env: Env, from: string, specs: seq<InstanceSpec>, k: nat, w: Cloud, l: seq<Entry>, t: ResourceType, n: string)
    requires k <= |specs|
    ensures Framed(l, EnsureUpto(env, from, specs, k, w, l).ledger, t, n)
  {
    var step, framed := EnsureStep(env, from), (r: Ensured) => Framed(l, r.ledger, t, n);
    forall r, s | framed(r) ensures framed(step(r, s)) {
      StepFramed(env, from, l, r, s, t, n);
    }
    FoldKeeps(step, specs, k, Ensured(w, l, true), framed);
  }

  lemma StepStaysUnique(env: Env, from: string, r: Ensured, s: InstanceSpec)
    requires Unique(r.ledger)
    ensures Unique(EnsureStep(env, from)(r, s).ledger)
  {
    EditFramed(r.ledger, EnsureInstance(env, from, s, r.world, r.ledger).ledger, s.name, RDS, "");
  }

  lemma EnsureStaysUnique(env: Env, from: string, specs: seq<InstanceSpec>, k: nat, w: Cloud, l: seq<Entry>)
    requires k <= |specs| && Unique(l)
    ensures Unique(EnsureUpto(env, from, specs, k, w, l).ledger)
  {
    var step, unique := EnsureStep(env, from), (r: Ensured) => Unique(r.ledger);
    forall r, s | unique(r) ensures unique(step(r, s)) {
      StepStaysUnique(env, from, r, s);
    }
    FoldKeeps(step, specs, k, Ensured(w, l, true), unique);
  }
}
