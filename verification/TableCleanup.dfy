/**
 The end of a DynamoDB table: cancelled when it is declared again, let go when
 it is retained, and deleted only after a quiet window and an empty scan.
 */
module TableCleanup {
  import opened Ledger
  import opened Sweep
  import opened Ownership
  import opened Decisions
  import opened TableCloud

  const GRACE_PERIOD: int := 7 * DAY
  const QUIET_WINDOW: int := 10 * MINUTE

  datatype Reason = Retained | Pending | Stuck

  datatype Result = Result(name: string, reason: Reason)

  datatype Env = Env(cr: CR, now: int, forceDeleteAll: bool)

  type TablePass = Pass<Cloud, Result>

  // The names that count as declared: none while the CR is being deleted.
  function DeclaredNames(spec: seq<string>, deleting: bool): (r: set<string>)
    ensures forall n :: n in r <==> !deleting && n in spec
  {
    if deleting then {} else set n | n in spec
  }

  function Fail(p: TablePass): TablePass {
    p.(failed := true)
  }

  function Report(p: TablePass, name: string, reason: Reason): TablePass {
    p.(results := p.results + [Result(name, reason)])
  }

  function PendingReason(now: int, since: int): Reason {
    if now - since > GRACE_PERIOD then Stuck else Pending
  }

  predicate Forced(env: Env, e: Entry) {
    e.force || env.forceDeleteAll
  }

  // The entry still waits out its quiet window, or the gap between two checks.
  predicate Waits(env: Env, e: Entry) {
    e.pendingSince.Some? &&
    (env.now - e.pendingSince.value < QUIET_WINDOW || !NeedsEmptyCheck(e, env.now))
  }

  function AfterRestore(p: TablePass, e: Entry): (q: TablePass)
    requires e.rtype == DynamoDB
    ensures EditOf(p.ledger, q.ledger, e) && q.world.log == p.world.log && (p.failed ==> q.failed) && p.results <= q.results
  {
    if e.pendingSince.None? then p
    else
      var (w, ok) := RemoveDeny(p.world, e.arn);
      if !ok then Fail(p.(world := w))
      else
        var cleared := e.(pendingSince := None, lastEmptyCheckAt := None);
        assert cleared.Is(e.rtype, e.name);
        p.(world := w, ledger := Upsert(p.ledger, cleared))
  }

  datatype Letting = Gone | Broken | Kept

  // Takes the ownership tags off a retained table that still has them.
  function LetGo(env: Env, w: Cloud, arn: string): (r: (Cloud, Letting))
    ensures w.log <= r.0.log && forall i :: |w.log| <= i < |r.0.log| ==> r.0.log[i].TagsRead?
  {
    var (w1, tags) := ListTags(w, arn);
    if tags.NotFound? then (w1, Gone)
    else if tags.Failed? then (w1, Broken)
    else if !IsOwnedBy(tags.value, env.cr) then (w1, Kept)
    else
      var (w2, _) := Unmodelled(w1);
      var (w3, ok) := UntagOwner(w2, arn);
      (w3, if ok then Kept else Broken)
  }

  // What happens to a retained entry once its table was looked at.
  function Settle(env: Env, p: TablePass, e: Entry, pins: bool): (q: TablePass)
    requires e.rtype == DynamoDB
    ensures EditOf(p.ledger, q.ledger, e) && (p.failed ==> q.failed) && p.results <= q.results
    ensures p.world.log <= q.world.log && forall i :: |p.world.log| <= i < |q.world.log| ==> q.world.log[i].TagsRead?
    ensures q.ledger in {p.ledger, Remove(p.ledger, DynamoDB, e.name), Upsert(p.ledger, Relinquish(e, env.now))}
  {
    var (w, letting) := LetGo(env, p.world, e.arn);
    var q := p.(world := w);
    match letting
    case Broken => Fail(q)
    case Gone => q.(ledger := Remove(q.ledger, DynamoDB, e.name))
    case Kept =>
      if pins then
        assert Relinquish(e, env.now).Is(e.rtype, e.name);
        Report(q.(ledger := Upsert(q.ledger, Relinquish(e, env.now))), e.name, Retained)
      else Report(q.(ledger := Remove(q.ledger, DynamoDB, e.name)), e.name, Retained)
  }

  function AfterRetain(env: Env, p: TablePass, e: Entry): (q: TablePass)
    requires e.rtype == DynamoDB
    ensures EditOf(p.ledger, q.ledger, e) && (p.failed ==> q.failed) && p.results <= q.results
    ensures p.world.log <= q.world.log && forall i :: |p.world.log| <= i < |q.world.log| ==> q.world.log[i].TagsRead?
    ensures q.ledger in {p.ledger, Remove(p.ledger, DynamoDB, e.name), Upsert(p.ledger, Relinquish(e, env.now))}
  {
    var (w, lifted) := if e.pendingSince.Some? then RemoveDeny(p.world, e.arn) else (p.world, true);
    var p1 := p.(world := w);
    if !lifted then Fail(p1)
    else
      var pins := PinsAKey(p.ledger, DynamoDB, e);
      if e.state.Relinquished? && !pins then Report(p1.(ledger := Remove(p.ledger, DynamoDB, e.name)), e.name, Retained)
      else if e.state.Relinquished? && !NeedsRelinquishedRecheck(e, env.now) then Report(p1, e.name, Retained)
      else Settle(env, p1, e, pins)
  }

  function MarkPending(env: Env, p: TablePass, e: Entry): (q: TablePass)
    requires e.rtype == DynamoDB
    ensures EditOf(p.ledger, q.ledger, e) && q.world == p.world && q.failed == p.failed && p.results <= q.results
  {
    var since := if e.pendingSince.None? then env.now else e.pendingSince.value;
    var marked := e.(pendingSince := Some(since));
    assert marked.Is(e.rtype, e.name);
    Report(p.(ledger := Upsert(p.ledger, marked)), e.name, PendingReason(env.now, since))
  }

  // The gate before a delete; true when the table may be deleted now.
  function GateOnEmpty(env: Env, p: TablePass, e: Entry): (r: (TablePass, bool))
    requires e.rtype == DynamoDB
    ensures EditOf(p.ledger, r.0.ledger, e) && (p.failed ==> r.0.failed) && p.results <= r.0.results
    ensures r.1 ==> e.pendingSince.Some? && r.0.world.log == p.world.log + [Scanned(e.arn, 0)] && r.0.ledger == p.ledger
    ensures !r.1 ==> p.world.log <= r.0.world.log && forall i :: |p.world.log| <= i < |r.0.world.log| ==> !r.0.world.log[i].DeleteSent?
  {
    if e.pendingSince.None? then
      var (w, ok) := AddDeny(p.world, e.arn);
      if !ok then (Fail(p.(world := w)), false)
      else (MarkPending(env, p.(world := w), e), false)
    else
      var (w, count) := Scan(p.world, e.arn);
      if !count.Answer? then (Fail(p.(world := w)), false)
      else if count.value != 0 then (MarkPending(env, p.(world := w), e.(lastEmptyCheckAt := Some(env.now))), false)
      else (p.(world := w), true)
  }

  function AfterDeleteTable(env: Env, p: TablePass, e: Entry): (q: TablePass)
    requires e.rtype == DynamoDB
    ensures EditOf(p.ledger, q.ledger, e) && (p.failed ==> q.failed) && p.results <= q.results
    ensures q.world.log == p.world.log || q.world.log == p.world.log + [DeleteSent(e.name, e.arn, Forced(env, e))]
    ensures (q.ledger == p.ledger && q.failed) || q.ledger == Remove(p.ledger, DynamoDB, e.name)
  {
    if !NamedInARN(e.arn) then Fail(p)
    else
      var (w1, released) := ReleaseProtection(p.world, e.arn);
      if !released then Fail(p.(world := w1))
      else
        var (w2, ok) := DeleteTable(w1, e.name, e.arn, Forced(env, e));
        if !ok then Fail(p.(world := w2))
        else p.(world := w2, ledger := Remove(p.ledger, DynamoDB, e.name))
  }

  function AfterDelete(env: Env, p: TablePass, e: Entry): (q: TablePass)
    requires e.rtype == DynamoDB
    ensures EditOf(p.ledger, q.ledger, e) && (p.failed ==> q.failed) && p.results <= q.results
  {
    if !Forced(env, e) && Waits(env, e) then Report(p, e.name, PendingReason(env.now, e.pendingSince.value))
    else
      var (w1, tags) := ListTags(p.world, e.arn);
      var p1 := p.(world := w1);
      if tags.NotFound? then p1.(ledger := Remove(p.ledger, DynamoDB, e.name))
      else if tags.Failed? || !IsOwnedBy(tags.value, env.cr) then Fail(p1)
      else if Forced(env, e) then AfterDeleteTable(env, p1, e)
      else
        var (p2, proceed) := GateOnEmpty(env, p1, e);
        if proceed then AfterDeleteTable(env, p2, e) else p2
  }

  // One iteration of the Cleanup loop.
  function AfterEntry(env: Env, declared: set<string>, p: TablePass, e: Entry): (q: TablePass)
    ensures EditOf(p.ledger, q.ledger, e) && (p.failed ==> q.failed) && p.results <= q.results
  {
    if e.rtype != DynamoDB then p
    else if e.name in declared then AfterRestore(p, e)
    else if e.policy != Delete then AfterRetain(env, p, e)
    else AfterDelete(env, p, e)
  }

  function Step(env: Env, declared: set<string>): Stepper<Cloud, Result> {
    (p, e) => AfterEntry(env, declared, p, e)
  }

  function AfterCleanup(env: Env, declared: set<string>, w: Cloud, l: seq<Entry>): TablePass {
    Upto(Step(env, declared), l, |l|, Pass(w, l, [], false))
  }

  class TableCleaner {
    const env: Env
    var pass: TablePass

    constructor (env: Env, w: Cloud, l: seq<Entry>)
      ensures this.env == env && pass == Pass(w, l, [], false)
    {
      this.env := env;
      pass := Pass(w, l, [], false);
    }

    method RestoreDeclared(e: Entry)
      requires e.rtype == DynamoDB
      modifies this
      ensures pass == AfterRestore(old(pass), e)
    {
      if e.pendingSince.None? {
        return;
      }
      var (w, ok) := RemoveDeny(pass.world, e.arn);
      pass := pass.(world := w);
      if !ok {
        pass := Fail(pass);
        return;
      }
      var cleared := e.(pendingSince := None, lastEmptyCheckAt := None);
      pass := pass.(ledger := Upsert(pass.ledger, cleared));
    }

    method RetainTable(e: Entry)
      requires e.rtype == DynamoDB
      modifies this
      ensures pass == AfterRetain(env, old(pass), e)
    {
      if e.pendingSince.Some? {
        var (w, ok) := RemoveDeny(pass.world, e.arn);
        pass := pass.(world := w);
        if !ok {
          pass := Fail(pass);
          return;
        }
      }
      var pins := PinsAKey(pass.ledger, DynamoDB, e);
      if e.state.Relinquished? {
        if !pins {
          pass := Report(pass.(ledger := Remove(pass.ledger, DynamoDB, e.name)), e.name, Retained);
          return;
        }
        if !NeedsRelinquishedRecheck(e, env.now) {
          pass := Report(pass, e.name, Retained);
          return;
        }
      }
      var (w, letting) := LetGo(env, pass.world, e.arn);
      pass := pass.(world := w);
      if letting.Broken? {
        pass := Fail(pass);
        return;
      }
      if letting.Gone? {
        pass := pass.(ledger := Remove(pass.ledger, DynamoDB, e.name));
        return;
      }
      if pins {
        pass := pass.(ledger := Upsert(pass.ledger, Relinquish(e, env.now)));
      } else {
        pass := pass.(ledger := Remove(pass.ledger, DynamoDB, e.name));
      }
      pass := Report(pass, e.name, Retained);
    }

    method GateTable(e: Entry) returns (proceed: bool)
      requires e.rtype == DynamoDB
      modifies this
      ensures (pass, proceed) == GateOnEmpty(env, old(pass), e)
    {
      proceed := false;
      if e.pendingSince.None? {
        var (w, ok) := AddDeny(pass.world, e.arn);
        pass := pass.(world := w);
        if !ok {
          pass := Fail(pass);
          return;
        }
        pass := MarkPending(env, pass, e);
        return;
      }
      var (w, count) := Scan(pass.world, e.arn);
      pass := pass.(world := w);
      if !count.Answer? {
        pass := Fail(pass);
        return;
      }
      if count.value != 0 {
        var checked := e.(lastEmptyCheckAt := Some(env.now));
        pass := MarkPending(env, pass, checked);
        return;
      }
      proceed := true;
    }

    method DeleteOwnTable(e: Entry)
      requires e.rtype == DynamoDB
      modifies this
      ensures pass == AfterDeleteTable(env, old(pass), e)
    {
      if !NamedInARN(e.arn) {
        pass := Fail(pass);
        return;
      }
      var (w1, released) := ReleaseProtection(pass.world, e.arn);
      pass := pass.(world := w1);
      if !released {
        pass := Fail(pass);
        return;
      }
      var (w2, ok) := DeleteTable(pass.world, e.name, e.arn, Forced(env, e));
      pass := pass.(world := w2);
      if !ok {
        pass := Fail(pass);
        return;
      }
      pass := pass.(ledger := Remove(pass.ledger, DynamoDB, e.name));
    }

    method DeleteUndeclared(e: Entry)
      requires e.rtype == DynamoDB
      modifies this
      ensures pass == AfterDelete(env, old(pass), e)
    {
      var forced := Forced(env, e);
      if !forced && Waits(env, e) {
        pass := Report(pass, e.name, PendingReason(env.now, e.pendingSince.value));
        return;
      }
      var (w1, tags) := ListTags(pass.world, e.arn);
      pass := pass.(world := w1);
      if tags.NotFound? {
        pass := pass.(ledger := Remove(pass.ledger, DynamoDB, e.name));
        return;
      }
      if tags.Failed? || !IsOwnedBy(tags.value, env.cr) {
        pass := Fail(pass);
        return;
      }
      if !forced {
        var proceed := GateTable(e);
        if !proceed {
          return;
        }
      }
      DeleteOwnTable(e);
    }

    method Cleanup(spec: seq<string>, deleting: bool)
      requires pass.results == [] && !pass.failed
      modifies this
      ensures pass == AfterCleanup(env, DeclaredNames(spec, deleting), old(pass.world), old(pass.ledger))
    {
      var declared: set<string> := {};
      if !deleting {
        for i := 0 to |spec|
          invariant declared == set n | n in spec[..i]
        {
          declared := declared + {spec[i]};
        }
        assert spec[..|spec|] == spec;
      }
      var snapshot := pass.ledger;
      ghost var start := pass;
      for i := 0 to |snapshot|
        invariant pass == Upto(Step(env, declared), snapshot, i, start)
      {
        ghost var before := pass;
        var entry := snapshot[i];
        if entry.rtype == DynamoDB {
          if entry.name in declared {
            RestoreDeclared(entry);
          } else if entry.policy != Delete {
            RetainTable(entry);
          } else {
            DeleteUndeclared(entry);
          }
        }
        assert pass == AfterEntry(env, declared, before, entry);
      }
    }
  }

  lemma StepIsLocal(env: Env, declared: set<string>)
    ensures Local(Step(env, declared), DynamoDB, {DynamoDB})
  {
    forall p: TablePass, e: Entry, t: ResourceType, n: string | t !in {DynamoDB} || n != e.name
      ensures Find(AfterEntry(env, declared, p, e).ledger, t, n) == Find(p.ledger, t, n)
    {
      if e.rtype == DynamoDB {
        EditFrame(p.ledger, AfterEntry(env, declared, p, e).ledger, DynamoDB, e.name, t, n);
      }
    }
    forall p: TablePass, e: Entry | Unique(p.ledger)
      ensures Unique(AfterEntry(env, declared, p, e).ledger)
    {
      EditKeepsUnique(p.ledger, AfterEntry(env, declared, p, e).ledger, e.rtype, e.name);
    }
  }

  lemma StepFinds(env: Env, declared: set<string>, w: Cloud, l: seq<Entry>, k: nat, t: ResourceType)
    requires Unique(l) && k < |l| && l[k].rtype == DynamoDB
    ensures var step, start := Step(env, declared), Pass(w, l, [], false);
      var q := Upto(step, l, k, start);
      && Find(q.ledger, DynamoDB, l[k].name) == Some(l[k]) && Find(q.ledger, t, l[k].name) == Find(l, t, l[k].name)
      && Find(step(q, l[k]).ledger, t, l[k].name) == Find(Upto(step, l, |l|, start).ledger, t, l[k].name)
  {
    StepIsLocal(env, declared);
    AtOwnEntry(Step(env, declared), DynamoDB, {DynamoDB}, l, k, Pass(w, l, [], false), t);
  }

  lemma StepIsSteady(env: Env, declared: set<string>)
    ensures Steady(Step(env, declared))
  {
  }
}
