/**
 What a cloud call can do to its caller, and the loop every `Cleanup` shares:
 one pass over a snapshot of the ledger, updating the ledger entry by entry.
 */
module Sweep {
  import opened Ledger

  // A call is answered, refused without effect, or carried out with its reply
  // lost. A crash is every later call of the pass being refused.
  datatype Fault = Fine | Refused | LostReply

  datatype Reply<+T> = Answer(value: T) | NotFound | Failed

  function Next(faults: seq<Fault>): Fault {
    if faults == [] then Fine else faults[0]
  }

  function Rest(faults: seq<Fault>): seq<Fault> {
    if faults == [] then [] else faults[1..]
  }

  // What one pass carries along: the cloud, the ledger so far, what was
  // reported, and whether any entry failed.
  datatype Pass<W, R> = Pass(world: W, ledger: seq<Entry>, results: seq<R>, failed: bool)

  type Stepper<!W, !R> = (Pass<W, R>, Entry) -> Pass<W, R>

  // The pass after the first k entries of the snapshot.
  function Upto<W, R>(step: Stepper<W, R>, snapshot: seq<Entry>, k: nat, p: Pass<W, R>): Pass<W, R>
    requires k <= |snapshot|
  {
    if k == 0 then p else step(Upto(step, snapshot, k - 1, p), snapshot[k - 1])
  }

  // A step acts on entries of type `own` only, and only changes entries with
  // that entry's name and a type in `touched`.
  ghost predicate Local<W(!new), R(!new)>(step: Stepper<W, R>, own: ResourceType, touched: set<ResourceType>) {
    && (forall p: Pass<W, R>, e: Entry :: e.rtype != own ==> step(p, e) == p)
    && (forall p: Pass<W, R>, e: Entry, t: ResourceType, n: string {:trigger Find(step(p, e).ledger, t, n)} ::
          t !in touched || n != e.name ==> Find(step(p, e).ledger, t, n) == Find(p.ledger, t, n))
    && (forall p: Pass<W, R>, e: Entry {:trigger step(p, e)} :: Unique(p.ledger) ==> Unique(step(p, e).ledger))
  }

  lemma {:induction false} Untouched<W(!new), R(!new)>(
    step: Stepper<W, R>, own: ResourceType, touched: set<ResourceType>,
    snapshot: seq<Entry>, a: nat, b: nat, p: Pass<W, R>, t: ResourceType, n: string)
    requires Local(step, own, touched)
    requires a <= b <= |snapshot|
    requires forall i :: a <= i < b && snapshot[i].rtype == own ==> t !in touched || snapshot[i].name != n
    ensures Find(Upto(step, snapshot, b, p).ledger, t, n) == Find(Upto(step, snapshot, a, p).ledger, t, n)
    decreases b - a
  {
    if a < b {
      Untouched(step, own, touched, snapshot, a, b - 1, p, t, n);
      var q := Upto(step, snapshot, b - 1, p);
      var e := snapshot[b - 1];
      if e.rtype != own {
        assert step(q, e) == q;
      }
    }
  }

  lemma {:induction false} StaysUnique<W(!new), R(!new)>(
    step: Stepper<W, R>, own: ResourceType, touched: set<ResourceType>,
    snapshot: seq<Entry>, k: nat, p: Pass<W, R>)
    requires Local(step, own, touched) && k <= |snapshot| && Unique(p.ledger)
    ensures Unique(Upto(step, snapshot, k, p).ledger)
  {
    if k > 0 {
      StaysUnique(step, own, touched, snapshot, k - 1, p);
      assert Unique(step(Upto(step, snapshot, k - 1, p), snapshot[k - 1]).ledger);
    }
  }

  // The entry at position k meets the ledger as it was when the pass began,
  // and what its own step leaves is what the pass leaves.
  lemma AtEntry<W(!new), R(!new)>(
    step: Stepper<W, R>, own: ResourceType, touched: set<ResourceType>,
    snapshot: seq<Entry>, k: nat, p: Pass<W, R>, t: ResourceType)
    requires Local(step, own, touched) && Unique(snapshot)
    requires k < |snapshot| && snapshot[k].rtype == own
    ensures Find(Upto(step, snapshot, k, p).ledger, t, snapshot[k].name) == Find(p.ledger, t, snapshot[k].name)
    ensures Find(Upto(step, snapshot, |snapshot|, p).ledger, t, snapshot[k].name)
         == Find(step(Upto(step, snapshot, k, p), snapshot[k]).ledger, t, snapshot[k].name)
  {
    var n := snapshot[k].name;
    forall i | 0 <= i < |snapshot| && i != k && snapshot[i].rtype == own ensures snapshot[i].name != n {
      if i < k {
        assert !snapshot[i].Is(snapshot[k].rtype, snapshot[k].name);
      } else {
        assert !snapshot[k].Is(snapshot[i].rtype, snapshot[i].name);
      }
    }
    Untouched(step, own, touched, snapshot, 0, k, p, t, n);
    Untouched(step, own, touched, snapshot, k + 1, |snapshot|, p, t, n);
  }

  // An entry the snapshot does not have, of the type the pass acts on, and any
  // entry of a type it never touches, is left as it was.
  lemma Outside<W(!new), R(!new)>(
    step: Stepper<W, R>, own: ResourceType, touched: set<ResourceType>,
    snapshot: seq<Entry>, p: Pass<W, R>, t: ResourceType, n: string)
    requires Local(step, own, touched)
    requires t !in touched || Find(snapshot, own, n).None?
    ensures Find(Upto(step, snapshot, |snapshot|, p).ledger, t, n) == Find(p.ledger, t, n)
  {
    FindSound(snapshot, own, n);
    forall i | 0 <= i < |snapshot| && snapshot[i].rtype == own ensures t !in touched || snapshot[i].name != n {
      assert snapshot[i] in snapshot;
    }
    Untouched(step, own, touched, snapshot, 0, |snapshot|, p, t, n);
  }

  // What every step keeps, the rest of the pass keeps.
  lemma {:induction false} Lasts<W(!new), R(!new)>(
    step: Stepper<W, R>, snapshot: seq<Entry>, a: nat, b: nat, p: Pass<W, R>, fact: Pass<W, R> -> bool)
    requires a <= b <= |snapshot|
    requires forall q, e :: fact(q) ==> fact(step(q, e))
    requires fact(Upto(step, snapshot, a, p))
    ensures fact(Upto(step, snapshot, b, p))
    decreases b - a
  {
    if a < b {
      Lasts(step, snapshot, a, b - 1, p, fact);
    }
  }

  // No step undoes a failure or takes back a report.
  ghost predicate Steady<W(!new), R(!new)>(step: Stepper<W, R>) {
    forall p: Pass<W, R>, e: Entry {:trigger step(p, e)} ::
      (p.failed ==> step(p, e).failed) && p.results <= step(p, e).results
  }

  // The pass has failed, or has reported something that is waited for.
  ghost predicate Unfinished<W, R>(p: Pass<W, R>, waiting: R -> bool) {
    p.failed || exists i :: 0 <= i < |p.results| && waiting(p.results[i])
  }

  lemma {:induction false} SteadyUpto<W(!new), R(!new)>(step: Stepper<W, R>, snapshot: seq<Entry>, a: nat, b: nat, p: Pass<W, R>)
    requires Steady(step) && a <= b <= |snapshot|
    ensures var q, q' := Upto(step, snapshot, a, p), Upto(step, snapshot, b, p);
      (q.failed ==> q'.failed) && q.results <= q'.results
    decreases b - a
  {
    if a < b {
      SteadyUpto(step, snapshot, a, b - 1, p);
      assert Upto(step, snapshot, b, p) == step(Upto(step, snapshot, b - 1, p), snapshot[b - 1]);
    }
  }

  lemma UnfinishedLasts<W(!new), R(!new)>(step: Stepper<W, R>, snapshot: seq<Entry>, a: nat, b: nat, p: Pass<W, R>, waiting: R -> bool)
    requires Steady(step) && a <= b <= |snapshot| && Unfinished(Upto(step, snapshot, a, p), waiting)
    ensures Unfinished(Upto(step, snapshot, b, p), waiting)
  {
    SteadyUpto(step, snapshot, a, b, p);
    var q, q' := Upto(step, snapshot, a, p), Upto(step, snapshot, b, p);
    if i :| 0 <= i < |q.results| && waiting(q.results[i]) {
      assert q'.results[i] == q.results[i];
    }
  }

  // What the steps of certain entries leave alone, a stretch of such entries does.
  lemma {:induction false} Unmoved<W(!new), R(!new), V>(
    step: Stepper<W, R>, snapshot: seq<Entry>, a: nat, b: nat, p: Pass<W, R>, view: W -> V, other: Entry -> bool)
    requires a <= b <= |snapshot| && forall i :: a <= i < b ==> other(snapshot[i])
    requires forall q: Pass<W, R>, e: Entry {:trigger step(q, e)} :: other(e) ==> view(step(q, e).world) == view(q.world)
    ensures view(Upto(step, snapshot, b, p).world) == view(Upto(step, snapshot, a, p).world)
    decreases b - a
  {
    if a < b {
      Unmoved(step, snapshot, a, b - 1, p, view, other);
    }
  }

  ghost predicate UnmovedAt<W(!new), R(!new), V>(step: Stepper<W, R>, snapshot: seq<Entry>, i: nat, p: Pass<W, R>, view: W -> V)
    requires i < |snapshot|
  {
    view(Upto(step, snapshot, i + 1, p).world) == view(Upto(step, snapshot, i, p).world)
  }

  // The same position by position.
  lemma {:induction false} UnmovedBetween<W(!new), R(!new), V>(
    step: Stepper<W, R>, snapshot: seq<Entry>, a: nat, b: nat, p: Pass<W, R>, view: W -> V)
    requires a <= b <= |snapshot| && forall i: nat :: a <= i < b ==> UnmovedAt(step, snapshot, i, p, view)
    ensures view(Upto(step, snapshot, b, p).world) == view(Upto(step, snapshot, a, p).world)
    decreases b - a
  {
    if a < b {
      UnmovedBetween(step, snapshot, a, b - 1, p, view);
      assert UnmovedAt(step, snapshot, b - 1, p, view);
    }
  }

  // Where the pass has not failed in the end, no step failed.
  lemma NotFailedAt<W(!new), R(!new)>(step: Stepper<W, R>, snapshot: seq<Entry>, k: nat, p: Pass<W, R>)
    requires Steady(step) && k < |snapshot| && !Upto(step, snapshot, |snapshot|, p).failed
    ensures !step(Upto(step, snapshot, k, p), snapshot[k]).failed
  {
    SteadyUpto(step, snapshot, k + 1, |snapshot|, p);
  }

  // The step at position i fails exactly at its own cause.
  ghost predicate FailsAt<W(!new), R(!new)>(step: Stepper<W, R>, snapshot: seq<Entry>, i: nat, p: Pass<W, R>, cause: nat -> bool)
    requires i < |snapshot|
  {
    Upto(step, snapshot, i + 1, p).failed <==> Upto(step, snapshot, i, p).failed || cause(i)
  }

  // Where each step fails exactly at its own cause, the pass fails exactly if
  // there is one.
  lemma {:induction false} FailsIff<W(!new), R(!new)>(step: Stepper<W, R>, snapshot: seq<Entry>, k: nat, p: Pass<W, R>, cause: nat -> bool)
    requires k <= |snapshot| && forall i: nat :: i < k ==> FailsAt(step, snapshot, i, p, cause)
    ensures Upto(step, snapshot, k, p).failed <==> p.failed || exists i: nat :: i < k && cause(i)
  {
    if k > 0 {
      FailsIff(step, snapshot, k - 1, p, cause);
      assert FailsAt(step, snapshot, k - 1, p, cause);
    }
  }

  // What the cloud logs of the calls sent, no step takes back.
  ghost predicate Logs<W(!new), R(!new), C>(step: Stepper<W, R>, log: W -> seq<C>) {
    forall p: Pass<W, R>, e: Entry {:trigger step(p, e)} :: log(p.world) <= log(step(p, e).world)
  }

  lemma {:induction false} LogGrows<W(!new), R(!new), C>(
    step: Stepper<W, R>, log: W -> seq<C>, snapshot: seq<Entry>, a: nat, b: nat, p: Pass<W, R>)
    requires Logs(step, log) && a <= b <= |snapshot|
    ensures log(Upto(step, snapshot, a, p).world) <= log(Upto(step, snapshot, b, p).world)
    decreases b - a
  {
    if a < b {
      LogGrows(step, log, snapshot, a, b - 1, p);
      assert Upto(step, snapshot, b, p) == step(Upto(step, snapshot, b - 1, p), snapshot[b - 1]);
    }
  }

  // The entry at position k of its own ledger: its step meets the entry itself,
  // and what it leaves is what the pass leaves.
  lemma AtOwnEntry<W(!new), R(!new)>(
    step: Stepper<W, R>, own: ResourceType, touched: set<ResourceType>, l: seq<Entry>, k: nat, p: Pass<W, R>, t: ResourceType)
    requires Local(step, own, touched) && Unique(l) && p.ledger == l && k < |l| && l[k].rtype == own
    ensures var q := Upto(step, l, k, p);
      && Find(q.ledger, own, l[k].name) == Some(l[k])
      && Find(q.ledger, t, l[k].name) == Find(l, t, l[k].name)
      && Find(step(q, l[k]).ledger, t, l[k].name) == Find(Upto(step, l, |l|, p).ledger, t, l[k].name)
  {
    FindMember(l, l[k]);
    AtEntry(step, own, touched, l, k, p, own);
    AtEntry(step, own, touched, l, k, p, t);
  }

  // A loop over a list that goes on whatever one item comes to.
  function Fold<S, T>(step: (S, T) -> S, items: seq<T>, k: nat, s: S): S
    requires k <= |items|
  {
    if k == 0 then s else step(Fold(step, items, k - 1, s), items[k - 1])
  }

  lemma {:induction false} FoldKeeps<S(!new), T(!new)>(step: (S, T) -> S, items: seq<T>, k: nat, s: S, fact: S -> bool)
    requires k <= |items| && fact(s)
    requires forall r, x :: fact(r) ==> fact(step(r, x))
    ensures fact(Fold(step, items, k, s))
  {
    if k > 0 {
      FoldKeeps(step, items, k - 1, s, fact);
    }
  }
}
