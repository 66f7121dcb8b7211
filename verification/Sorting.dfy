/**
 Sorting and de-duplicating strings: the order is byte by byte, the shorter
 string first when one continues the other.
 */
module Sorting {

  predicate Less(a: string, b: string) {
    b != "" && (a == "" || a[0] < b[0] || (a[0] == b[0] && Less(a[1..], b[1..])))
  }

  lemma {:induction false} LessTotal(a: string, b: string)
    ensures Less(a, b) || Less(b, a) || a == b
    ensures !(Less(a, b) && Less(b, a)) && !Less(a, a)
  {
    if a != "" && b != "" {
      LessTotal(a[1..], b[1..]);
      LessTotal(a[1..], a[1..]);
      assert a == [a[0]] + a[1..] && b == [b[0]] + b[1..];
    } else if a != "" {
      LessTotal(a[1..], a[1..]);
    }
  }

  lemma {:induction false} LessTransitive(a: string, b: string, c: string)
    requires Less(a, b) && Less(b, c)
    ensures Less(a, c)
  {
    if a != "" && a[0] == b[0] == c[0] {
      LessTransitive(a[1..], b[1..], c[1..]);
    }
  }

  ghost predicate Ordered(s: seq<string>) {
    forall i, j :: 0 <= i < j < |s| ==> !Less(s[j], s[i])
  }

  ghost predicate StrictlyOrdered(s: seq<string>) {
    forall i, j :: 0 <= i < j < |s| ==> Less(s[i], s[j])
  }

  function Insert(x: string, s: seq<string>): (r: seq<string>)
    ensures multiset(r) == multiset{x} + multiset(s)
  {
    if s == [] then [x]
    else if Less(s[0], x) then
      assert s == [s[0]] + s[1..];
      [s[0]] + Insert(x, s[1..])
    else [x] + s
  }

  function Sort(s: seq<string>): (r: seq<string>)
    ensures multiset(r) == multiset(s)
  {
    if s == [] then []
    else
      assert s == [s[0]] + s[1..];
      Insert(s[0], Sort(s[1..]))
  }

  lemma {:induction false} InsertOrdered(x: string, s: seq<string>)
    requires Ordered(s)
    ensures Ordered(Insert(x, s))
  {
    var r := Insert(x, s);
    if s != [] {
      if Less(s[0], x) {
        InsertOrdered(x, s[1..]);
        forall j | 0 < j < |r| ensures !Less(r[j], r[0]) {
          assert r[j] in multiset(Insert(x, s[1..]));
          LessTotal(s[0], x);
          assert r[j] == x || r[j] in s[1..];
        }
      } else {
        forall j | 0 < j < |r| ensures !Less(r[j], r[0]) {
          if Less(s[j - 1], x) && j > 1 {
            LessTotal(s[0], x);
            LessTotal(s[j - 1], s[0]);
            if s[0] != x && s[j - 1] != s[0] {
              LessTransitive(x, s[0], s[j - 1]);
              LessTotal(x, s[j - 1]);
            }
          }
        }
      }
    }
  }

  lemma {:induction false} SortOrdered(s: seq<string>)
    ensures Ordered(Sort(s))
  {
    if s != [] {
      SortOrdered(s[1..]);
      InsertOrdered(s[0], Sort(s[1..]));
    }
  }

  // Drops every element equal to the one before it.
  function Compact(s: seq<string>): (r: seq<string>)
    ensures forall x :: x in r <==> x in s
    ensures s != [] ==> r != [] && r[0] == s[0]
  {
    if |s| < 2 then s
    else
      assert s == [s[0]] + s[1..];
      if s[0] == s[1] then Compact(s[1..]) else [s[0]] + Compact(s[1..])
  }

  lemma {:induction false} CompactStrict(s: seq<string>)
    requires Ordered(s)
    ensures StrictlyOrdered(Compact(s))
  {
    if |s| >= 2 {
      CompactStrict(s[1..]);
      if s[0] != s[1] {
        var rest := Compact(s[1..]);
        forall j | 0 <= j < |rest| ensures Less(s[0], rest[j]) {
          assert rest[j] in s[1..];
          LessTotal(s[0], s[1]);
          LessTotal(s[1], rest[j]);
          if rest[j] != s[1] {
            assert !Less(rest[j], s[1]) by {
              var k :| 0 <= k < |s[1..]| && s[1..][k] == rest[j];
              assert s[k + 1] == rest[j];
            }
            LessTransitive(s[0], s[1], rest[j]);
          }
        }
      }
    }
  }

  // Two strictly ordered lists of the same strings are the same list.
  lemma {:induction false} StrictUnique(a: seq<string>, b: seq<string>)
    requires StrictlyOrdered(a) && StrictlyOrdered(b)
    requires forall x :: x in a <==> x in b
    ensures a == b
  {
    assert b != [] ==> b[0] in a;
    if a != [] {
      assert a[0] in b;
      assert b != [];
      assert b[0] in a;
      var i :| 0 <= i < |b| && b[i] == a[0];
      var j :| 0 <= j < |a| && a[j] == b[0];
      LessTotal(a[0], b[0]);
      assert a[0] == b[0];
      LessTotal(a[0], a[0]);
      assert a == [a[0]] + a[1..] && b == [b[0]] + b[1..];
      assert a[0] !in a[1..] && b[0] !in b[1..];
      forall x ensures x in a[1..] <==> x in b[1..] {
        assert x in a <==> x == a[0] || x in a[1..];
        assert x in b <==> x == b[0] || x in b[1..];
      }
      StrictUnique(a[1..], b[1..]);
    }
  }

  // The canonical list of a set of strings, as slices.Compact of a sorted copy gives it.
  function SortedSet(s: seq<string>): seq<string> {
    Compact(Sort(s))
  }

  lemma SortedSetMembers(s: seq<string>)
    ensures StrictlyOrdered(SortedSet(s)) && forall x :: x in SortedSet(s) <==> x in s
  {
    SortOrdered(s);
    CompactStrict(Sort(s));
    forall x ensures x in SortedSet(s) <==> x in s {
      assert x in Sort(s) <==> x in multiset(Sort(s));
      assert x in s <==> x in multiset(s);
    }
  }

  lemma SortedSetCanonical(a: seq<string>, b: seq<string>)
    requires forall x :: x in a <==> x in b
    ensures SortedSet(a) == SortedSet(b)
  {
    SortedSetMembers(a);
    SortedSetMembers(b);
    StrictUnique(SortedSet(a), SortedSet(b));
  }
}
