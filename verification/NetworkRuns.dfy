/**
 Whole runs of the release protocol: producers' passes, the consumer's retries,
 and anything else in between, spec edits included, that adds no rule and asks
 for nothing.
 */
module NetworkRuns {
  import opened Ledger
  import opened GroupCloud
  import opened Ingress
  import opened NetworkRelease
  import opened History

  datatype Move =
    | Produce(pass: ProducerPass)
    | Release(env: Env, persisted: bool)
    | Elsewhere(next: Net)

  function After(s: Net, c: CRName, m: Move): Net {
    match m
    case Produce(p) => if p.owner in s.producers && p.clouds != [] then AfterPass(s, p) else s
    case Elsewhere(next) => next
    case Release(env, persisted) =>
      if c !in s.registry then s
      else
        var r := AfterRelease(env, s.cloud, s.registry[c].ledger);
        s.(cloud := r.cloud,
           registry := if persisted then s.registry[c := s.registry[c].(ledger := r.ledger)] else s.registry)
  }

  function EntryOf(s: Net, c: CRName): Option<Entry> {
    if c in s.registry then PodEntry(s.registry[c].ledger) else None
  }

  // Anything else may declare and undeclare instances and bring producers and
  // take them away. It adds no rule that lets g in, does not ask for g, and
  // leaves the consumer's entry there under its ARN.
  ghost predicate Allowed(s: Net, c: CRName, g: string, m: Move) {
    match m
    case Produce(p) => IsPass(s, p)
    case Release(_, _) => true
    case Elsewhere(next) =>
      && NoneAdded(s.cloud, next.cloud, g) && Silent(next.registry, g)
      && (EntryOf(s, c).Some? ==> EntryOf(next, c).Some? && EntryOf(next, c).value.arn == EntryOf(s, c).value.arn)
  }

  ghost predicate StepAt(c: CRName, g: string, trace: seq<Net>, run: seq<Move>, i: nat)
    requires i < |run| && |trace| == |run| + 1
  {
    Allowed(trace[i], c, g, run[i]) && trace[i + 1] == After(trace[i], c, run[i])
  }

  // A run: the states, and the move from each to the next.
  ghost predicate Run(c: CRName, g: string, trace: seq<Net>, run: seq<Move>) {
    && |trace| == |run| + 1 && Silent(trace[0].registry, g)
    && forall i :: 0 <= i < |run| ==> StepAt(c, g, trace, run, i)
  }

  // The rules that let g in, each with the group it is on.
  ghost function RulesFor(w: Cloud, g: string): set<(string, Rule)> {
    set id, r: Rule | id in w.groups && r in w.groups[id].rules && r.group == g :: (id, r)
  }

  // Those of them that are on a declared instance's group and port.
  ghost function Holding(s: Net, g: string): set<(string, Rule)> {
    set d | d in s.declared && Holds(s.cloud, d, g) :: (d.group, Grant(d.port, g))
  }

  // The rules a move brings under a declared instance again.
  ghost function Redeclared(s: Net, s': Net, g: string): set<(string, Rule)> {
    Holding(s', g) - Holding(s, g)
  }

  // An error-free pass of a producer one of whose declared instances lets g in.
  ghost predicate ClearsDeclared(s: Net, m: Move, g: string) {
    && m.Produce? && IsPass(s, m.pass) && ErrorFree(s, m.pass)
    && exists d :: d in s.declared && d.owner == m.pass.owner && Holds(s.cloud, d, g)
  }

  // An error-free pass of a producer whose orphaned group lets g in.
  ghost predicate ClearsOrphan(s: Net, m: Move, g: string) {
    && m.Produce? && IsPass(s, m.pass) && ErrorFree(s, m.pass) && Apart(s, m.pass)
    && exists id, r: Rule :: r.group == g && Present(s.cloud, id, r) && OwnOrphan(s, m.pass, id)
  }

  ghost predicate Clears(s: Net, m: Move, g: string) {
    ClearsDeclared(s, m, g) || ClearsOrphan(s, m, g)
  }

  ghost function ClearsAt(g: string, trace: seq<Net>, run: seq<Move>): nat -> bool {
    (k: nat) => k < |run| && k < |trace| && Clears(trace[k], run[k], g)
  }

  ghost function ClearsDeclaredAt(g: string, trace: seq<Net>, run: seq<Move>): nat -> bool {
    (k: nat) => k < |run| && k < |trace| && ClearsDeclared(trace[k], run[k], g)
  }

  ghost function RulesAt(g: string, trace: seq<Net>): nat -> nat {
    (k: nat) => if k >= |trace| then 0 else |RulesFor(trace[k].cloud, g)|
  }

  ghost function HoldingAt(g: string, trace: seq<Net>): nat -> nat {
    (k: nat) => if k >= |trace| then 0 else |Holding(trace[k], g)|
  }

  ghost function RedeclaredAt(g: string, trace: seq<Net>): nat -> nat {
    (k: nat) => if k + 1 >= |trace| then 0 else |Redeclared(trace[k], trace[k + 1], g)|
  }

  // ----------------------------------------------------------------- one move

  lemma SmallerSet<T>(a: set<T>, b: set<T>)
    requires a <= b
    ensures |a| <= |b| && (a != b ==> |a| < |b|)
  {
    assert b == a + (b - a);
    if a != b {
      assert b - a != {};
    }
  }

  lemma ReleaseStaysSilent(s: Net, c: CRName, g: string, env: Env, persisted: bool)
    requires Silent(s.registry, g)
    ensures Silent(After(s, c, Release(env, persisted)).registry, g)
  {
    if c in s.registry && persisted {
      var l := s.registry[c].ledger;
      var reg' := After(s, c, Release(env, persisted)).registry;
      if PodEntry(l).Some? {
        ReleaseKeepsTheEntry(env, s.cloud, l);
        assert PodNetworkIdentityARN(reg'[c]).None?;
      } else {
        assert AfterRelease(env, s.cloud, l).ledger == l;
      }
      forall consumer, ref ensures Offer(reg', consumer, ref) != Some(g) {
        assert Offer(s.registry, consumer, ref) != Some(g);
      }
    }
  }

  lemma ReleaseAddsNone(s: Net, c: CRName, g: string, env: Env, persisted: bool)
    ensures NoneAdded(s.cloud, After(s, c, Release(env, persisted)).cloud, g)
  {
    if c in s.registry && PodEntry(s.registry[c].ledger).Some? {
      ReleaseKeepsTheEntry(env, s.cloud, s.registry[c].ledger);
    }
  }

  lemma MoveAddsNone(s: Net, c: CRName, g: string, m: Move)
    requires Silent(s.registry, g) && Allowed(s, c, g, m)
    ensures var s' := After(s, c, m); Silent(s'.registry, g) && NoneAdded(s.cloud, s'.cloud, g)
  {
    if m.Produce? {
      PassShrinks(s, m.pass, g);
    } else if m.Release? {
      ReleaseStaysSilent(s, c, g, m.env, m.persisted);
      ReleaseAddsNone(s, c, g, m.env, m.persisted);
    }
  }

  lemma RuleIsFor(w: Cloud, g: string, id: string, r: Rule)
    ensures (id, r) in RulesFor(w, g) <==> r.group == g && Present(w, id, r)
  {
  }

  lemma FewerRules(w: Cloud, w': Cloud, g: string)
    requires NoneAdded(w, w', g)
    ensures |RulesFor(w', g)| <= |RulesFor(w, g)|
    ensures (exists id, r: Rule :: r.group == g && Present(w, id, r) && !Present(w', id, r)) ==> |RulesFor(w', g)| < |RulesFor(w, g)|
  {
    forall x | x in RulesFor(w', g) ensures x in RulesFor(w, g) {
      assert Present(w', x.0, x.1);
    }
    SmallerSet(RulesFor(w', g), RulesFor(w, g));
    if id, r: Rule :| r.group == g && Present(w, id, r) && !Present(w', id, r) {
      RuleIsFor(w, g, id, r);
      RuleIsFor(w', g, id, r);
    }
  }

  lemma FewerHeld(s: Net, s': Net, g: string)
    ensures |Holding(s', g)| <= |Holding(s, g)| + |Redeclared(s, s', g)|
    ensures (exists d :: d in s.declared && Holds(s.cloud, d, g) && !Holds(s'.cloud, d, g)) ==>
      |Holding(s', g)| < |Holding(s, g)| + |Redeclared(s, s', g)|
  {
    var before, after, again := Holding(s, g), Holding(s', g), Redeclared(s, s', g);
    SmallerSet(after - again, before);
    assert after == (after - again) + again;
    if d :| d in s.declared && Holds(s.cloud, d, g) && !Holds(s'.cloud, d, g) {
      assert (d.group, Grant(d.port, g)) in before - after;
    }
  }

  lemma PassClears(s: Net, c: CRName, g: string, m: Move)
    requires Silent(s.registry, g) && Clears(s, m, g)
    ensures exists id, r: Rule :: r.group == g && Present(s.cloud, id, r) && !Present(After(s, c, m).cloud, id, r)
    ensures ClearsDeclared(s, m, g) ==> exists d :: d in s.declared && Holds(s.cloud, d, g) && !Holds(After(s, c, m).cloud, d, g)
  {
    if ClearsDeclared(s, m, g) {
      var d :| d in s.declared && d.owner == m.pass.owner && Holds(s.cloud, d, g);
      PassShrinks(s, m.pass, g);
      assert Present(s.cloud, d.group, Grant(d.port, g));
    } else {
      var id, r: Rule :| r.group == g && Present(s.cloud, id, r) && OwnOrphan(s, m.pass, id);
      PassRules(s, m.pass, g, id, r);
    }
  }

  ghost predicate Shrinks(s: Net, m: Move, s': Net, g: string) {
    && |RulesFor(s'.cloud, g)| + (if Clears(s, m, g) then 1 else 0) <= |RulesFor(s.cloud, g)|
    && |Holding(s', g)| + (if ClearsDeclared(s, m, g) then 1 else 0) <= |Holding(s, g)| + |Redeclared(s, s', g)|
  }

  // No move adds a rule that lets g in, and a clearing one takes one away; of
  // the rules under declared instances there are more only by redeclaring.
  lemma MoveShrinks(s: Net, c: CRName, g: string, m: Move)
    requires Silent(s.registry, g) && Allowed(s, c, g, m)
    ensures Shrinks(s, m, After(s, c, m), g)
  {
    MoveAddsNone(s, c, g, m);
    FewerRules(s.cloud, After(s, c, m).cloud, g);
    FewerHeld(s, After(s, c, m), g);
    if Clears(s, m, g) {
      PassClears(s, c, g, m);
    }
  }

  // Only a spec edit can bring a rule under a declared instance again, and only
  // one that was there before it.
  lemma OnlyEditsRedeclare(s: Net, c: CRName, g: string, m: Move)
    requires Silent(s.registry, g) && Allowed(s, c, g, m)
    ensures After(s, c, m).declared == s.declared ==> Redeclared(s, After(s, c, m), g) == {}
    ensures Redeclared(s, After(s, c, m), g) <= RulesFor(s.cloud, g)
  {
    var s' := After(s, c, m);
    MoveAddsNone(s, c, g, m);
    forall x | x in Holding(s', g) ensures x in RulesFor(s.cloud, g) && (s'.declared == s.declared ==> x in Holding(s, g)) {
      var d :| d in s'.declared && Holds(s'.cloud, d, g) && x == (d.group, Grant(d.port, g));
      assert Present(s'.cloud, d.group, Grant(d.port, g));
    }
  }

  // ------------------------------------------------------------------- runs

  lemma {:induction false} StaysSilent(c: CRName, g: string, trace: seq<Net>, run: seq<Move>, k: nat)
    requires Run(c, g, trace, run) && k <= |run|
    ensures Silent(trace[k].registry, g)
  {
    if k > 0 {
      StaysSilent(c, g, trace, run, k - 1);
      assert StepAt(c, g, trace, run, k - 1);
      MoveAddsNone(trace[k - 1], c, g, run[k - 1]);
    }
  }

  lemma StepShrinks(c: CRName, g: string, trace: seq<Net>, run: seq<Move>, k: nat)
    requires Run(c, g, trace, run) && k < |run|
    ensures Shrinks(trace[k], run[k], trace[k + 1], g)
  {
    StaysSilent(c, g, trace, run, k);
    assert StepAt(c, g, trace, run, k);
    MoveShrinks(trace[k], c, g, run[k]);
  }

  lemma StepLowers(g: string, trace: seq<Net>, run: seq<Move>, k: nat)
    requires |trace| == |run| + 1 && k < |run| && Shrinks(trace[k], run[k], trace[k + 1], g)
    ensures Lowers(RulesAt(g, trace), ClearsAt(g, trace, run), (k: nat) => 0, k)
  {
  }

  lemma StepLowersHeld(g: string, trace: seq<Net>, run: seq<Move>, k: nat)
    requires |trace| == |run| + 1 && k < |run| && Shrinks(trace[k], run[k], trace[k + 1], g)
    ensures Lowers(HoldingAt(g, trace), ClearsDeclaredAt(g, trace, run), RedeclaredAt(g, trace), k)
  {
  }

  // Once the consumer has stopped asking, the number of rules that let its group
  // in never grows, however specs are edited, and every error-free pass of a
  // producer with such a rule on a declared instance or an orphaned group lowers
  // it: there are at most as many such passes as there were rules.
  lemma RulesRunOut(c: CRName, g: string, trace: seq<Net>, run: seq<Move>, i: nat, j: nat)
    requires Run(c, g, trace, run) && i <= j <= |run|
    ensures RulesAt(g, trace)(j) + Count(ClearsAt(g, trace, run), i, j) <= RulesAt(g, trace)(i)
  {
    var measure, clears, none := RulesAt(g, trace), ClearsAt(g, trace, run), (k: nat) => 0;
    forall k: nat | i <= k < j ensures Lowers(measure, clears, none, k) {
      StepShrinks(c, g, trace, run, k);
      StepLowers(g, trace, run, k);
    }
    RunsOut(measure, clears, none, i, j);
    NothingAdded(i, j);
  }

  // Of the rules under declared instances alone: there are at most as many
  // clearing passes as there were such rules, and one more for each rule a spec
  // edit brought back under a declared instance.
  lemma HoldersRunOut(c: CRName, g: string, trace: seq<Net>, run: seq<Move>, i: nat, j: nat)
    requires Run(c, g, trace, run) && i <= j <= |run|
    ensures HoldingAt(g, trace)(j) + Count(ClearsDeclaredAt(g, trace, run), i, j) <=
      HoldingAt(g, trace)(i) + Sum(RedeclaredAt(g, trace), i, j)
  {
    var measure, clears, again := HoldingAt(g, trace), ClearsDeclaredAt(g, trace, run), RedeclaredAt(g, trace);
    forall k: nat | i <= k < j ensures Lowers(measure, clears, again, k) {
      StepShrinks(c, g, trace, run, k);
      StepLowersHeld(g, trace, run, k);
    }
    RunsOut(measure, clears, again, i, j);
  }

  // A stored release completed: its group was gone or not the CR's own.
  ghost predicate Completed(s: Net, c: CRName, m: Move, id: string) {
    && m.Release? && m.persisted && c in s.registry
    && LetGo(m.env.cr, s.cloud, After(s, c, m).cloud, id)
  }

  ghost function TrackedAt(c: CRName, trace: seq<Net>, run: seq<Move>, arn: string): nat -> bool {
    (k: nat) => k < |trace| && EntryOf(trace[k], c).Some? && EntryOf(trace[k], c).value.arn == arn
  }

  ghost function CompletedAt(c: CRName, trace: seq<Net>, run: seq<Move>, id: string): nat -> bool {
    (k: nat) => k < |run| && k < |trace| && Completed(trace[k], c, run[k], id)
  }

  // The consumer's entry stays, under its ARN, through every failed attempt,
  // until a release completes.
  lemma EntrySurvives(c: CRName, g: string, trace: seq<Net>, run: seq<Move>, i: nat, j: nat, arn: string)
    requires Run(c, g, trace, run) && i <= j <= |run| && TrackedAt(c, trace, run, arn)(i)
    ensures TrackedAt(c, trace, run, arn)(j) || Happened(CompletedAt(c, trace, run, IDFromARN(arn)), i, j)
  {
    var tracked, completed := TrackedAt(c, trace, run, arn), CompletedAt(c, trace, run, IDFromARN(arn));
    forall k: nat | i <= k < j ensures KeepsUnless(tracked, completed, k) {
      StepKeepsEntry(c, g, trace, run, k, arn);
    }
    LastsUntil(tracked, completed, i, j);
  }

  lemma StepKeepsEntry(c: CRName, g: string, trace: seq<Net>, run: seq<Move>, k: nat, arn: string)
    requires Run(c, g, trace, run) && k < |run|
    ensures KeepsUnless(TrackedAt(c, trace, run, arn), CompletedAt(c, trace, run, IDFromARN(arn)), k)
  {
    if TrackedAt(c, trace, run, arn)(k) {
      assert StepAt(c, g, trace, run, k);
      MoveKeepsEntry(trace[k], c, g, run[k]);
    }
  }

  lemma MoveKeepsEntry(s: Net, c: CRName, g: string, m: Move)
    requires Allowed(s, c, g, m) && EntryOf(s, c).Some?
    ensures var e, e' := EntryOf(s, c).value, EntryOf(After(s, c, m), c);
      (e'.Some? && e'.value.arn == e.arn) || Completed(s, c, m, IDFromARN(e.arn))
  {
    if m.Release? {
      ReleaseKeepsTheEntry(m.env, s.cloud, s.registry[c].ledger);
    }
  }
}
