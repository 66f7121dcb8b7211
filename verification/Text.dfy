/**
 Joining and splitting on a separator, and decimal numerals: the string facts
 that names and statement ids rest on.
 */
module Text {

  function Join(fields: seq<string>, sep: string): string {
    if fields == [] then ""
    else if |fields| == 1 then fields[0]
    else fields[0] + sep + Join(fields[1..], sep)
  }

  // Cuts at every occurrence of `sep`; the empty string is one empty field.
  function Split(s: string, sep: char): (fields: seq<string>)
    ensures fields != []
  {
    if s == "" then [""]
    else
      var rest := Split(s[1..], sep);
      if s[0] == sep then [""] + rest else [[s[0]] + rest[0]] + rest[1..]
  }

  ghost predicate Without(fields: seq<string>, sep: char) {
    forall i :: 0 <= i < |fields| ==> sep !in fields[i]
  }

  lemma {:induction false} SplitPrefix(f: string, s: string, sep: char)
    requires sep !in f
    ensures Split(f + [sep] + s, sep) == [f] + Split(s, sep)
  {
    if f == "" {
      assert (f + [sep] + s)[1..] == s;
    } else {
      SplitPrefix(f[1..], s, sep);
      assert (f + [sep] + s)[1..] == f[1..] + [sep] + s;
      assert [f[0]] + f[1..] == f;
    }
  }

  lemma {:induction false} SplitAtom(f: string, sep: char)
    requires sep !in f
    ensures Split(f, sep) == [f]
  {
    if f != "" {
      SplitAtom(f[1..], sep);
      assert [f[0]] + f[1..] == f;
    }
  }

  // Splitting undoes joining, for every non-empty list of fields free of the separator.
  lemma {:induction false} SplitJoin(fields: seq<string>, sep: char)
    requires fields != [] && Without(fields, sep)
    ensures Split(Join(fields, [sep]), sep) == fields
  {
    if |fields| == 1 {
      SplitAtom(fields[0], sep);
    } else {
      SplitJoin(fields[1..], sep);
      SplitPrefix(fields[0], Join(fields[1..], [sep]), sep);
      assert [fields[0]] + fields[1..] == fields;
    }
  }

  lemma JoinInjective(a: seq<string>, b: seq<string>, sep: char)
    requires a != [] && b != [] && Without(a, sep) && Without(b, sep)
    requires Join(a, [sep]) == Join(b, [sep])
    ensures a == b
  {
    SplitJoin(a, sep);
    SplitJoin(b, sep);
  }

  // ------------------------------------------------------------- numerals

  predicate IsDigit(c: char) {
    '0' <= c <= '9'
  }

  function Decimal(n: nat): (s: string)
    ensures s != "" && forall i :: 0 <= i < |s| ==> IsDigit(s[i])
  {
    var last := ['0' + (n % 10) as char];
    if n < 10 then last else Decimal(n / 10) + last
  }

  function FormatInt(n: int): string {
    if n < 0 then "-" + Decimal(-n) else Decimal(n)
  }

  lemma {:induction false} DecimalInjective(a: nat, b: nat)
    requires Decimal(a) == Decimal(b)
    ensures a == b
  {
    var da, db := Decimal(a), Decimal(b);
    assert da[|da| - 1] == '0' + (a % 10) as char;
    assert db[|db| - 1] == '0' + (b % 10) as char;
    assert a % 10 == b % 10;
    if a >= 10 && b >= 10 {
      assert da[..|da| - 1] == Decimal(a / 10);
      assert db[..|db| - 1] == Decimal(b / 10);
      DecimalInjective(a / 10, b / 10);
    }
  }

  lemma FormatIntInjective(a: int, b: int)
    requires FormatInt(a) == FormatInt(b)
    ensures a == b
  {
    assert a < 0 <==> FormatInt(a)[0] == '-';
    assert b < 0 <==> FormatInt(b)[0] == '-';
    if a < 0 {
      assert FormatInt(a)[1..] == Decimal(-a) && FormatInt(b)[1..] == Decimal(-b);
      DecimalInjective(-a, -b);
    } else {
      DecimalInjective(a, b);
    }
  }

  // A label that does not end in a digit and the number after it can be told apart.
  lemma LabelledNumberInjective(p: string, a: nat, q: string, b: nat)
    requires p != "" && !IsDigit(p[|p| - 1]) && q != "" && !IsDigit(q[|q| - 1])
    requires p + Decimal(a) == q + Decimal(b)
    ensures p == q && a == b
  {
    var s := p + Decimal(a);
    assert s[|p| - 1] == p[|p| - 1] && s[|q| - 1] == q[|q| - 1];
    assert forall i :: |p| <= i < |s| ==> s[i] == Decimal(a)[i - |p|];
    assert forall i :: |q| <= i < |s| ==> s[i] == Decimal(b)[i - |q|];
    assert |p| == |q|;
    assert s[..|p|] == p && s[..|q|] == q;
    assert s[|p|..] == Decimal(a) && s[|q|..] == Decimal(b);
    DecimalInjective(a, b);
  }
}
