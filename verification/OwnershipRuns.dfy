/**
 Whole passes of many CRs over the same account, in any order, with any calls
 failing, and anything else in between: nobody takes a resource from its owner.
 */
module OwnershipRuns {
  import opened Ledger
  import opened Ownership
  import TableCloud
  import TableRuns
  import TableReach
  import KmsCloud
  import KeyCreation
  import KeyCleanup
  import KeyReach
  import InstanceCloud
  import InstanceCleanup
  import InstanceEnsure
  import InstanceReach

  datatype World = World(tables: TableCloud.Cloud, keys: KmsCloud.Cloud, instances: InstanceCloud.Cloud)

  datatype Resource = Table(arn: string) | Key(arn: string) | Instance(arn: string)

  function TitleAt(w: World, r: Resource): Title {
    match r
    case Table(arn) => TableCloud.TableTitle(w.tables, arn)
    case Key(arn) => KmsCloud.KeyTitle(w.keys, arn)
    case Instance(arn) => InstanceCloud.InstanceTitle(w.instances, arn)
  }

  // One section's pass of some CR, Ensure and Cleanup, over whatever ledger it
  // has; or anything that happens outside the operator.
  datatype Move =
    | TablePass(ledger: seq<Entry>, pass: TableRuns.Move)
    | KeyPass(keyEnv: KeyCreation.Env, keys: seq<KeyCreation.KeySpec>, wants: KeyCleanup.Wants, ledger: seq<Entry>, recorded: seq<Entry>)
    | InstancePass(env: InstanceCleanup.Env, from: string, declared: set<string>, instances: seq<InstanceEnsure.InstanceSpec>, ledger: seq<Entry>)
    | Elsewhere(next: World)

  // The CR whose pass it is, and the uid it was told to take over from.
  function ActorOf(m: Move): (CR, string)
    requires !m.Elsewhere? && (m.TablePass? ==> m.pass.SectionPass?)
  {
    match m
    case TablePass(_, pass) => (pass.env.cr, pass.from)
    case KeyPass(env, _, _, _, _) => (env.cr, env.from)
    case InstancePass(env, from, _, _, _) => (env.cr, from)
  }

  function After(w: World, m: Move): World
    requires m.TablePass? ==> m.pass.SectionPass?
  {
    match m
    case TablePass(l, pass) => w.(tables := TableRuns.PassOf(TableRuns.Status(l, w.tables), pass).world)
    case KeyPass(env, specs, wants, l, recorded) =>
      var made := KeyCreation.EnsureUpto(env, specs, |specs|, KeyCreation.Making(w.keys, l, l, true)).world;
      w.(keys := KeyCleanup.AfterCleanup(KeyCleanup.Env(env.cr, env.now), wants, made, recorded).world)
    case InstancePass(env, from, declared, specs, l) =>
      var r := InstanceEnsure.EnsureUpto(env, from, specs, |specs|, w.instances, l);
      w.(instances := InstanceCleanup.AfterCleanup(env, declared, r.world, r.ledger).world)
    case Elsewhere(next) => next
  }

  // AWS gives new keys new ARNs, and no hand passes a resource from one owner
  // straight to another.
  ghost predicate Allowed(w: World, m: Move) {
    match m
    case TablePass(_, pass) => pass.SectionPass?
    case KeyPass(_, specs, _, _, _) => KeyReach.FreshARNs(specs, w.keys)
    case InstancePass(_, _, _, _, _) => true
    case Elsewhere(next) => forall r :: !TitleAt(w, r).Nobody? ==> TitleAt(next, r) == TitleAt(w, r) || TitleAt(next, r).Nobody?
  }

  // A pass honours every title: it changes only what nobody holds, what its CR
  // holds, and what an incarnation it was told to take over from holds, and it
  // leaves those untagged, gone or its CR's.
  lemma PassHonours(w: World, m: Move, r: Resource)
    requires Allowed(w, m) && !m.Elsewhere?
    ensures var (cr, from) := ActorOf(m); Honours(cr, from, TitleAt(w, r), TitleAt(After(w, m), r))
  {
    match m
    case TablePass(l, pass) =>
      var s := TableRuns.Status(l, w.tables);
      TableReach.PassHonours(s, pass);
      assert Honours(pass.env.cr, pass.from, TableCloud.TitlesOf(w.tables)(r.arn), TableCloud.TitlesOf(TableRuns.PassOf(s, pass).world)(r.arn));
    case KeyPass(env, specs, wants, l, recorded) =>
      KeyReach.PassReaches(env, specs, wants, w.keys, l, recorded);
      assert Honours(env.cr, env.from, KmsCloud.TitlesOf(w.keys)(r.arn), KmsCloud.TitlesOf(After(w, m).keys)(r.arn));
    case InstancePass(env, from, declared, specs, l) =>
      InstanceReach.PassReaches(env, declared, from, specs, w.instances, l);
      assert Honours(env.cr, from, InstanceCloud.TitlesOf(w.instances)(r.arn), InstanceCloud.TitlesOf(After(w, m).instances)(r.arn));
  }

  // A table, key or instance tagged to one CR is left as it is by every pass of
  // another: neither tagged, untagged nor deleted.
  lemma AnothersIsLeftAlone(w: World, m: Move, r: Resource, owner: CR)
    requires Allowed(w, m) && !m.Elsewhere? && '/' !in owner.namespace && '/' !in ActorOf(m).0.namespace
    requires (ActorOf(m).0.namespace, ActorOf(m).0.name) != (owner.namespace, owner.name)
    requires TitleAt(w, r).Held? && TitleAt(w, r).owner == OwnerOf(owner)
    ensures TitleAt(After(w, m), r) == TitleAt(w, r)
  {
    PassHonours(w, m, r);
    if OwnerOf(owner) == OwnerOf(ActorOf(m).0) {
      OwnerTagInjective(owner, ActorOf(m).0);
    }
  }

  // Between two incarnations of one CR a table, key or instance passes only to
  // the CR told to take over from exactly the uid it carried.
  lemma TakeoverNamesTheUID(w: World, m: Move, r: Resource, uid: string)
    requires Allowed(w, m) && !m.Elsewhere?
    requires TitleAt(w, r).Held? && TitleAt(w, r).uid == Some(uid)
    requires TitleAt(After(w, m), r).Held? && TitleAt(After(w, m), r).uid != Some(uid)
    ensures var (cr, from) := ActorOf(m);
      && TitleAt(w, r).owner == OwnerOf(cr) && from == uid && from != ""
      && TitleAt(After(w, m), r) == Mine(cr)
  {
    PassHonours(w, m, r);
  }

  // ------------------------------------------------------------------- runs

  ghost predicate StepAt(trace: seq<World>, run: seq<Move>, i: nat)
    requires i < |run| && |trace| == |run| + 1
  {
    Allowed(trace[i], run[i]) && trace[i + 1] == After(trace[i], run[i])
  }

  ghost predicate Run(trace: seq<World>, run: seq<Move>) {
    |trace| == |run| + 1 && forall i :: 0 <= i < |run| ==> StepAt(trace, run, i)
  }

  lemma KeepsOrDrops(w: World, m: Move, r: Resource)
    requires Allowed(w, m) && TitleAt(w, r).Held?
    ensures var t, t' := TitleAt(w, r), TitleAt(After(w, m), r); t'.Nobody? || t'.owner == t.owner
  {
    if !m.Elsewhere? {
      PassHonours(w, m, r);
    }
  }

  // In any run, a resource tagged to one CR is tagged to another later only if
  // it was untagged or gone in between.
  lemma {:induction false} NeverRetagged(trace: seq<World>, run: seq<Move>, i: nat, j: nat, r: Resource, a: CR, b: CR)
    requires Run(trace, run) && i <= j <= |run|
    requires '/' !in a.namespace && '/' !in b.namespace && (a.namespace, a.name) != (b.namespace, b.name)
    requires TitleAt(trace[i], r).Held? && TitleAt(trace[i], r).owner == OwnerOf(a)
    requires TitleAt(trace[j], r).Held? && TitleAt(trace[j], r).owner == OwnerOf(b)
    ensures exists k :: i < k < j && TitleAt(trace[k], r).Nobody?
    decreases j - i
  {
    if OwnerOf(a) == OwnerOf(b) {
      OwnerTagInjective(a, b);
    } else {
      assert StepAt(trace, run, i);
      KeepsOrDrops(trace[i], run[i], r);
      if TitleAt(trace[i + 1], r).Held? {
        NeverRetagged(trace, run, i + 1, j, r, a, b);
      }
    }
  }
}
