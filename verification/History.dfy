/**
 Runs seen from one resource: a value that every state carries or not, made at
 some steps and cleared at others.
 */
module History {
  import opened Ledger

  ghost predicate NeverBetween(event: nat -> bool, i: nat, k: nat) {
    forall j: nat :: i < j < k ==> !event(j)
  }

  // v was made at a step before k, and nothing after that step cleared it.
  ghost predicate Since<T(!new)>(made: (nat, T) -> bool, cleared: nat -> bool, k: nat, v: T) {
    exists i: nat :: i < k && made(i, v) && NeverBetween(cleared, i, k)
  }

  ghost predicate MakesOrKeeps<T(!new)>(value: nat -> Option<T>, made: (nat, T) -> bool, cleared: nat -> bool, j: nat) {
    value(j + 1).Some? ==> made(j, value(j + 1).value) || (value(j) == value(j + 1) && !cleared(j))
  }

  // If each step makes the value it leaves, or leaves the one it found and is
  // not a clearing step, then the value a state carries goes back to its making.
  lemma {:induction false} GoesBack<T(!new)>(value: nat -> Option<T>, made: (nat, T) -> bool, cleared: nat -> bool, k: nat)
    requires value(0).None?
    requires forall j: nat :: j < k ==> MakesOrKeeps(value, made, cleared, j)
    requires value(k).Some?
    ensures Since(made, cleared, k, value(k).value)
  {
    var v := value(k).value;
    assert k > 0;
    assert MakesOrKeeps(value, made, cleared, k - 1);
    if made(k - 1, v) {
      assert NeverBetween(cleared, k - 1, k);
    } else {
      GoesBack(value, made, cleared, k - 1);
      var i: nat :| i < k - 1 && made(i, v) && NeverBetween(cleared, i, k - 1);
      assert NeverBetween(cleared, i, k);
    }
  }

  // How often the event happens from step i up to step j.
  ghost function Count(event: nat -> bool, i: nat, j: nat): nat
    requires i <= j
    decreases j - i
  {
    if i == j then 0 else Count(event, i, j - 1) + if event(j - 1) then 1 else 0
  }

  // What steps i up to j add together.
  ghost function Sum(amount: nat -> nat, i: nat, j: nat): nat
    requires i <= j
    decreases j - i
  {
    if i == j then 0 else Sum(amount, i, j - 1) + amount(j - 1)
  }

  ghost predicate Lowers(measure: nat -> nat, event: nat -> bool, added: nat -> nat, k: nat) {
    measure(k + 1) + (if event(k) then 1 else 0) <= measure(k) + added(k)
  }

  // A measure that each event lowers bounds the events, up to what was added to it.
  lemma {:induction false} RunsOut(measure: nat -> nat, event: nat -> bool, added: nat -> nat, i: nat, j: nat)
    requires i <= j
    requires forall k: nat :: i <= k < j ==> Lowers(measure, event, added, k)
    ensures measure(j) + Count(event, i, j) <= measure(i) + Sum(added, i, j)
    decreases j - i
  {
    if i < j {
      RunsOut(measure, event, added, i, j - 1);
      assert Lowers(measure, event, added, j - 1);
    }
  }

  lemma {:induction false} NothingAdded(i: nat, j: nat)
    requires i <= j
    ensures Sum((k: nat) => 0, i, j) == 0
    decreases j - i
  {
    if i < j {
      NothingAdded(i, j - 1);
    }
  }

  ghost predicate KeepsUnless(fact: nat -> bool, event: nat -> bool, k: nat) {
    fact(k) ==> fact(k + 1) || event(k)
  }

  ghost predicate Happened(event: nat -> bool, i: nat, j: nat) {
    exists k: nat :: i <= k < j && event(k)
  }

  ghost predicate Notes(record: (nat, bool) -> bool, event: nat -> bool, j: nat, seen: bool) {
    record(j, seen) ==> record(j + 1, seen || event(j))
  }

  // A record that notes the event at each step tells whether it has happened.
  lemma {:induction false} Recorded(record: (nat, bool) -> bool, event: nat -> bool, k: nat, i: nat)
    requires k < i && record(k + 1, event(k))
    requires forall j: nat, seen :: k < j < i ==> Notes(record, event, j, seen)
    ensures record(i, Happened(event, k, i))
    decreases i
  {
    if k + 1 < i {
      Recorded(record, event, k, i - 1);
      assert Notes(record, event, i - 1, Happened(event, k, i - 1));
      assert Happened(event, k, i) == (Happened(event, k, i - 1) || event(i - 1));
    } else {
      assert Happened(event, k, i) == event(k);
    }
  }

  // What only an event ends is still so, or the event happened.
  lemma {:induction false} LastsUntil(fact: nat -> bool, event: nat -> bool, i: nat, j: nat)
    requires i <= j && fact(i)
    requires forall k: nat :: i <= k < j ==> KeepsUnless(fact, event, k)
    ensures fact(j) || Happened(event, i, j)
    decreases j - i
  {
    if i < j {
      LastsUntil(fact, event, i, j - 1);
      assert KeepsUnless(fact, event, j - 1);
    }
  }
}
