/**
 Making, resuming and adopting a KMS key. A key has no name of its own until its
 alias exists, so its ARN is written to the stored ledger right after CreateKey.
 */
module KeyCreation {
  import opened Ledger
  import opened Sweep
  import opened Ownership
  import opened KmsCloud

  // One declared key: `minted` is the ARN AWS gives it if it is created in this pass.
  datatype KeySpec = KeySpec(name: string, alias: string, policy: DeletionPolicy, adopt: bool, minted: string)

  datatype Env = Env(cr: CR, now: int, from: string)

  // The cloud, the ledger in memory, and the ledger as it is stored.
  datatype Making = Making(world: Cloud, ledger: seq<Entry>, stored: seq<Entry>, ok: bool)

  function Abort(m: Making, w: Cloud): Making {
    m.(world := w, ok := false)
  }

  function Keyed(env: Env, l: seq<Entry>, s: KeySpec, arn: string, state: State): (e: Entry)
    ensures e.Is(KMS, s.name) && e.arn == arn && e.state == state && e.lastVerifiedAt == Some(env.now)
  {
    var existing := Find(l, KMS, s.name);
    Fresh(KMS, s.name, arn, s.policy, false, state,
          if existing.Some? then existing.value.createdAt else env.now, Some(env.now))
  }

  function RecordKey(env: Env, l: seq<Entry>, s: KeySpec, arn: string, state: State): seq<Entry> {
    Upsert(l, Keyed(env, l, s, arn, state))
  }

  // Writes the ledger to the stored status; the reply may be lost as well.
  function Checkpoint(m: Making): (r: Making)
    ensures r.ledger == m.ledger && r.stored in {m.stored, m.ledger}
    ensures r.world == Drawn(m.world)
  {
    var fault := Next(m.world.faults);
    m.(world := Drawn(m.world), stored := if fault.Refused? then m.stored else m.ledger, ok := fault.Fine?)
  }

  // Makes the alias point at the key, or finds that it already does.
  function EnsureAlias(w: Cloud, alias: string, arn: string): (r: (Cloud, bool))
    ensures r.0.keys == w.keys && r.0.created == w.created && w.sighted <= r.0.sighted
    ensures r.1 ==> Sighting(alias, arn) in r.0.sighted[|w.sighted|..] && alias in r.0.aliases && r.0.aliases[alias] == arn
  {
    var (w1, reply) := CreateAlias(w, alias, arn);
    match reply
    case Made => assert w1.sighted[|w.sighted|..] == [Sighting(alias, arn)]; (w1, true)
    case NoAlias => (w1, false)
    case Exists =>
      var (w2, key) := DescribeAlias(w1, alias);
      if key.Answer? && key.value.0 == arn then
        assert w2.sighted[|w.sighted|..] == [Sighting(alias, arn)];
        (w2, true)
      else (w2, false)
  }

  predicate Live(l: seq<Entry>, n: string) {
    Find(l, KMS, n).Some? && !Find(l, KMS, n).value.state.Relinquished?
  }

  ghost predicate SightedSince(w: Cloud, w': Cloud, alias: string, arn: string) {
    w.sighted <= w'.sighted && Sighting(alias, arn) in w'.sighted[|w.sighted|..]
  }

  // All that one call can do. A live entry is kept as it is, touched up, or
  // recorded again under its own ARN; only where there is none is a key created,
  // and then the record without alias comes first.
  ghost predicate Outcome(env: Env, s: KeySpec, m: Making, r: Making) {
    && m.world.sighted <= r.world.sighted
    && (if Live(m.ledger, s.name) then
          var e := Find(m.ledger, KMS, s.name).value;
          && r.world.created == m.world.created && r.stored == m.stored
          && (|| r.ledger == m.ledger
              || (r.ledger == Upsert(m.ledger, e.(policy := s.policy)) && !NeedsRevalidation(e, env.now))
              || (r.ledger == RecordKey(env, m.ledger, s, e.arn, Verified)
                  && SightedSince(m.world, r.world, s.alias, e.arn)))
        else
          (|| (r.world.created == m.world.created && r.stored == m.stored && AsAdopted(env, s, m, r))
           || (r.world.created == m.world.created + [s.name] && AsCreated(env, s, m, r))))
  }

  // An existing key is recorded only when the alias led to it.
  ghost predicate AsAdopted(env: Env, s: KeySpec, m: Making, r: Making) {
    || r.ledger == m.ledger
    || exists arn :: r.ledger == RecordKey(env, m.ledger, s, arn, Verified) && SightedSince(m.world, r.world, s.alias, arn)
  }

  ghost predicate AsCreated(env: Env, s: KeySpec, m: Making, r: Making) {
    var tagged := RecordKey(env, m.ledger, s, s.minted, TagPending);
    || (r.ledger == m.ledger && r.stored == m.stored)
    || (r.ledger == tagged && r.stored in {m.stored, tagged})
    || (r.ledger == RecordKey(env, tagged, s, s.minted, Verified) && r.stored == tagged
        && SightedSince(m.world, r.world, s.alias, s.minted))
  }

  function MakeKey(env: Env, s: KeySpec, m: Making): (r: Making)
    requires !Live(m.ledger, s.name)
    ensures m.world.sighted <= r.world.sighted && r.world.created == m.world.created + [s.name]
    ensures AsCreated(env, s, m, r)
  {
    var (w0, made) := CreateKey(m.world, s.name, s.minted, OwnerTags(env.cr));
    if !made then Abort(m, w0)
    else
      var tagged := m.(world := w0, ledger := RecordKey(env, m.ledger, s, s.minted, TagPending));
      var saved := Checkpoint(tagged);
      if !saved.ok then saved
      else
        var (w1, policySet) := Unmodelled(saved.world);
        if !policySet then Abort(saved, w1)
        else
          var (w2, rotating) := Unmodelled(w1);
          if !rotating then Abort(saved, w2)
          else
            var (w3, aliased) := EnsureAlias(w2, s.alias, s.minted);
            if !aliased then Abort(saved, w3)
            else saved.(world := w3, ledger := RecordKey(env, saved.ledger, s, s.minted, Verified))
  }

  // The owner's tags are there, or are put there when this CR may take over.
  function VerifyOrTakeOver(env: Env, w: Cloud, arn: string): (r: (Cloud, bool))
    ensures r.0.created == w.created && r.0.sighted == w.sighted
  {
    var (w1, tags) := ListTags(w, arn);
    if !tags.Answer? then (w1, false)
    else if IsOwnedBy(tags.value, env.cr) then (w1, true)
    else
      var stale := StaleUID(tags.value, env.cr);
      if stale.None? || !MayTransferFrom(env.from, stale.value) then (w1, false)
      else TagResource(w1, arn, OwnerTags(env.cr))
  }

  // Key policy and rotation put back.
  function Reassert(w: Cloud): (r: (Cloud, bool))
    ensures r.0.created == w.created && r.0.sighted == w.sighted
  {
    var (w1, policySet) := Unmodelled(w);
    if !policySet then (w1, false)
    else
      var (w2, known) := Unmodelled(w1);
      if !known then (w2, false) else Unmodelled(w2)
  }

  function ResumeKey(env: Env, s: KeySpec, e: Entry, m: Making): (r: Making)
    requires Live(m.ledger, s.name) && Find(m.ledger, KMS, s.name) == Some(e)
    ensures Outcome(env, s, m, r)
  {
    var (w1, key) := DescribeKey(m.world, e.arn);
    if !key.Answer? || key.value.state.Disabled? then Abort(m, w1)
    else if !NeedsRevalidation(e, env.now) && !key.value.state.PendingDeletion? then
      m.(world := w1, ledger := Upsert(m.ledger, e.(policy := s.policy)), ok := true)
    else
      var (w2, ours) := VerifyOrTakeOver(env, w1, e.arn);
      if !ours then Abort(m, w2)
      else
        var (w3, revived) := if key.value.state.PendingDeletion? then ReviveKey(w2, e.arn) else (w2, true);
        if !revived then Abort(m, w3)
        else
          var (w4, asserted) := Reassert(w3);
          if !asserted then Abort(m, w4)
          else
            var (w5, aliased) := EnsureAlias(w4, s.alias, e.arn);
            if !aliased then Abort(m, w5)
            else m.(world := w5, ledger := RecordKey(env, m.ledger, s, e.arn, Verified), ok := true)
  }

  // The key the alias leads to: recorded at once when it is ours, and after it
  // was retagged when it may be taken over.
  function AdoptKey(env: Env, s: KeySpec, arn: string, key: Key, m: Making): (r: Making)
    ensures r.world.created == m.world.created && r.world.sighted == m.world.sighted && r.stored == m.stored
    ensures r.ledger == m.ledger || r.ledger == RecordKey(env, m.ledger, s, arn, Verified)
  {
    var (w1, tags) := ListTags(m.world, arn);
    if !tags.Answer? then Abort(m, w1)
    else
      var adopted := m.(ledger := RecordKey(env, m.ledger, s, arn, Verified), ok := true);
      match TableLadder(tags.value, env.cr, s.adopt, env.from)
      case Owned => adopted.(world := w1)
      case Refuse(_) => Abort(m, w1)
      case Retag(_) =>
        var (w2, revived) := if key.state.PendingDeletion? then ReviveKey(w1, arn) else (w1, true);
        if !revived then Abort(m, w2)
        else
          var (w3, tagged) := TagResource(w2, arn, OwnerTags(env.cr));
          if !tagged then Abort(m, w3)
          else if key.state.Disabled? then Abort(adopted, w3)
          else
            var (w4, asserted) := Reassert(w3);
            adopted.(world := w4, ok := asserted)
  }

  function EnsureKey(env: Env, s: KeySpec, m: Making): (r: Making)
    ensures Outcome(env, s, m, r)
  {
    if Live(m.ledger, s.name) then ResumeKey(env, s, Find(m.ledger, KMS, s.name).value, m)
    else
      var (w1, found) := DescribeAlias(m.world, s.alias);
      match found
      case NotFound => MakeKey(env, s, m.(world := w1))
      case Failed => Abort(m, w1)
      case Answer(k) =>
        var r := AdoptKey(env, s, k.0, k.1, m.(world := w1));
        assert w1.sighted[|m.world.sighted|..] == [Sighting(s.alias, k.0)];
        r
  }

  // Ensure after the first k keys; an error of one does not stop the next.
  function EnsureUpto(env: Env, specs: seq<KeySpec>, k: nat, m: Making): Making
    requires k <= |specs|
  {
    if k == 0 then m
    else
      var r := EnsureUpto(env, specs, k - 1, m);
      var r' := EnsureKey(env, specs[k - 1], r.(ok := true));
      r'.(ok := r.ok && r'.ok)
  }

  // The states between the calls of a pass.
  ghost predicate States(env: Env, specs: seq<KeySpec>, t: seq<Making>) {
    |t| == |specs| + 1 && forall i: nat :: i < |specs| ==> CallAt(env, specs, t, i)
  }

  ghost predicate CallAt(env: Env, specs: seq<KeySpec>, t: seq<Making>, i: nat)
    requires i < |specs| && |t| == |specs| + 1
  {
    StateStep(env, specs[i], t[i], t[i + 1])
  }

  ghost predicate StateStep(env: Env, s: KeySpec, a: Making, b: Making) {
    var r := EnsureKey(env, s, a.(ok := true));
    b == r.(ok := a.ok && r.ok)
  }

  lemma PassStates(env: Env, specs: seq<KeySpec>, m: Making) returns (t: seq<Making>)
    ensures States(env, specs, t) && t[0] == m && t[|specs|] == EnsureUpto(env, specs, |specs|, m)
  {
    t := seq(|specs| + 1, i requires 0 <= i <= |specs| => EnsureUpto(env, specs, i, m));
    forall i: nat | i < |specs| ensures CallAt(env, specs, t, i) {
    }
  }

  lemma StepOutcome(env: Env, s: KeySpec, a: Making, b: Making)
    requires StateStep(env, s, a, b)
    ensures Outcome(env, s, a, b)
  {
    OutcomeIgnoresOk(env, s, a.(ok := true), EnsureKey(env, s, a.(ok := true)), a, b);
  }

  lemma OutcomeIgnoresOk(env: Env, s: KeySpec, a: Making, b: Making, a': Making, b': Making)
    requires Outcome(env, s, a, b) && a' == a.(ok := a'.ok) && b' == b.(ok := b'.ok)
    ensures Outcome(env, s, a', b')
  {
  }

  class KeyMaker {
    const env: Env
    var world: Cloud
    var ledger: seq<Entry>
    var stored: seq<Entry>

    constructor (env: Env, w: Cloud, l: seq<Entry>)
      ensures this.env == env && Now(true) == Making(w, l, l, true)
    {
      this.env := env;
      world, ledger, stored := w, l, l;
    }

    ghost function Now(ok: bool): Making
      reads this
    {
      Making(world, ledger, stored, ok)
    }

    method Save() returns (ok: bool)
      modifies this
      ensures Now(ok) == Checkpoint(old(Now(true)))
    {
      var fault := Next(world.faults);
      world := Drawn(world);
      if !fault.Refused? {
        stored := ledger;
      }
      ok := fault.Fine?;
    }

    method Alias(alias: string, arn: string) returns (ok: bool)
      modifies this
      ensures ledger == old(ledger) && stored == old(stored)
      ensures (world, ok) == EnsureAlias(old(world), alias, arn)
    {
      var (w1, reply) := CreateAlias(world, alias, arn);
      world := w1;
      if reply.Made? {
        return true;
      }
      if !reply.Exists? {
        return false;
      }
      var (w2, key) := DescribeAlias(world, alias);
      world := w2;
      return key.Answer? && key.value.0 == arn;
    }

    method Create(s: KeySpec) returns (ok: bool)
      requires !Live(ledger, s.name)
      modifies this
      ensures Now(ok) == MakeKey(env, s, old(Now(true)))
    {
      var (w0, made) := CreateKey(world, s.name, s.minted, OwnerTags(env.cr));
      world := w0;
      if !made {
        return false;
      }
      ledger := RecordKey(env, ledger, s, s.minted, TagPending);
      ok := Save();
      if !ok {
        return;
      }
      var (w1, policySet) := Unmodelled(world);
      world := w1;
      if !policySet {
        return false;
      }
      var (w2, rotating) := Unmodelled(world);
      world := w2;
      if !rotating {
        return false;
      }
      ok := Alias(s.alias, s.minted);
      if ok {
        ledger := RecordKey(env, ledger, s, s.minted, Verified);
      }
    }

    method Resume(s: KeySpec, e: Entry) returns (ok: bool)
      requires Live(ledger, s.name) && Find(ledger, KMS, s.name) == Some(e)
      modifies this
      ensures Now(ok) == ResumeKey(env, s, e, old(Now(true)))
    {
      var (w1, key) := DescribeKey(world, e.arn);
      world := w1;
      if !key.Answer? || key.value.state.Disabled? {
        return false;
      }
      var pendingDeletion := key.value.state.PendingDeletion?;
      if !NeedsRevalidation(e, env.now) && !pendingDeletion {
        ledger := Upsert(ledger, e.(policy := s.policy));
        return true;
      }
      var (w2, ours) := VerifyOrTakeOver(env, world, e.arn);
      world := w2;
      if !ours {
        return false;
      }
      if pendingDeletion {
        var (w3, revived) := ReviveKey(world, e.arn);
        world := w3;
        if !revived {
          return false;
        }
      }
      var (w4, asserted) := Reassert(world);
      world := w4;
      if !asserted {
        return false;
      }
      ok := Alias(s.alias, e.arn);
      if ok {
        ledger := RecordKey(env, ledger, s, e.arn, Verified);
      }
    }

    method Adopt(s: KeySpec, arn: string, key: Key) returns (ok: bool)
      modifies this
      ensures Now(ok) == AdoptKey(env, s, arn, key, old(Now(true)))
    {
      var (w1, tags) := ListTags(world, arn);
      world := w1;
      if !tags.Answer? {
        return false;
      }
      var verdict := KeyLadder(tags.value, env.cr, s.adopt, env.from);
      if verdict.Owned? {
        ledger := RecordKey(env, ledger, s, arn, Verified);
        return true;
      }
      if verdict.Refuse? {
        return false;
      }
      if key.state.PendingDeletion? {
        var (w2, revived) := ReviveKey(world, arn);
        world := w2;
        if !revived {
          return false;
        }
      }
      var (w3, tagged) := TagResource(world, arn, OwnerTags(env.cr));
      world := w3;
      if !tagged {
        return false;
      }
      ledger := RecordKey(env, ledger, s, arn, Verified);
      if key.state.Disabled? {
        return false;
      }
      var (w4, asserted) := Reassert(world);
      world := w4;
      return asserted;
    }

    method EnsureOne(s: KeySpec) returns (ok: bool)
      modifies this
      ensures Now(ok) == EnsureKey(env, s, old(Now(true)))
    {
      var entry := Find(ledger, KMS, s.name);
      if entry.Some? && !entry.value.state.Relinquished? {
        ok := Resume(s, entry.value);
        return;
      }
      var (w1, found) := DescribeAlias(world, s.alias);
      world := w1;
      if found.NotFound? {
        ok := Create(s);
      } else if found.Failed? {
        ok := false;
      } else {
        ok := Adopt(s, found.value.0, found.value.1);
      }
    }

    method Ensure(specs: seq<KeySpec>) returns (ok: bool)
      modifies this
      ensures Now(ok) == EnsureUpto(env, specs, |specs|, old(Now(true)))
    {
      ok := true;
      ghost var start := Now(true);
      for i := 0 to |specs|
        invariant Now(ok) == EnsureUpto(env, specs, i, start)
      {
        var done := EnsureOne(specs[i]);
        ok := ok && done;
      }
    }
  }
}
