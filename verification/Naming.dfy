/**
 Derived AWS names. A name is a readable prefix, rewritten and truncated for
 the service, followed by `-` and a hash of the identity it stands for. Bytes
 are characters. The hash is a parameter: what it is hashed from is what the
 laws below are about.
 */
module Naming {
  import opened Text
  import opened Ledger

  const NUL := '\0'
  const HASH_LEN: nat := 12

  datatype NameStyle = AnyChars | WordChars | RDSStyle | S3Style

  predicate IsLetter(c: char) {
    'a' <= c <= 'z' || 'A' <= c <= 'Z'
  }

  predicate IsHex(c: char) {
    '0' <= c <= '9' || 'a' <= c <= 'f'
  }

  // What the service accepts, character by character.
  predicate Legal(style: NameStyle, c: char) {
    match style
    case AnyChars => true
    case WordChars => IsLetter(c) || IsDigit(c) || c == '-' || c == '_'
    case RDSStyle => IsLetter(c) || IsDigit(c) || c == '-'
    case S3Style => 'a' <= c <= 'z' || IsDigit(c) || c == '-' || c == '.'
  }

  ghost predicate AllLegal(style: NameStyle, s: string) {
    forall i :: 0 <= i < |s| ==> Legal(style, s[i])
  }

  ghost predicate HexHash(s: string) {
    |s| == HASH_LEN && forall i :: 0 <= i < |s| ==> IsHex(s[i])
  }

  // ------------------------------------------------- adjacent pairs of bytes

  // s contains the two bytes a, b next to each other.
  predicate HasPair(s: string, a: char, b: char) {
    |s| >= 2 && ((s[0] == a && s[1] == b) || HasPair(s[1..], a, b))
  }

  // strings.ReplaceAll of the pair a, b by a single hyphen.
  function ReplacePair(s: string, a: char, b: char): (r: string)
    ensures |r| <= |s|
    ensures HasPair(s, a, b) ==> |r| < |s|
  {
    if |s| < 2 then s
    else if s[0] == a && s[1] == b then "-" + ReplacePair(s[2..], a, b)
    else [s[0]] + ReplacePair(s[1..], a, b)
  }

  lemma {:induction false} PairAt(s: string, a: char, b: char)
    ensures HasPair(s, a, b) <==> exists i :: 0 <= i < |s| - 1 && s[i] == a && s[i + 1] == b
  {
    if |s| >= 2 {
      PairAt(s[1..], a, b);
      if HasPair(s[1..], a, b) {
        var i :| 0 <= i < |s[1..]| - 1 && s[1..][i] == a && s[1..][i + 1] == b;
        assert s[i + 1] == a && s[i + 2] == b;
      }
      if i :| 0 < i < |s| - 1 && s[i] == a && s[i + 1] == b {
        assert s[1..][i - 1] == a && s[1..][i] == b;
      }
    }
  }

  // A pair in the replaced text was there before, or was made by the hyphen
  // put in place of the pair that followed its first byte.
  lemma {:induction false} PairAfterReplace(s: string, a: char, b: char, c: char, d: char)
    requires c != '-' && HasPair(ReplacePair(s, a, b), c, d)
    ensures HasPair(s, c, d) || (d == '-' && HasPair(s, c, a))
    decreases |s|
  {
    var r := ReplacePair(s, a, b);
    if s[0] == a && s[1] == b {
      assert r[1..] == ReplacePair(s[2..], a, b);
      PairAfterReplace(s[2..], a, b, c, d);
      assert s[1..][1..] == s[2..];
    } else {
      assert r[1..] == ReplacePair(s[1..], a, b);
      if !(r[0] == c && r[1] == d) {
        PairAfterReplace(s[1..], a, b, c, d);
      }
    }
  }

  lemma {:induction false} LegalAfterReplace(style: NameStyle, s: string, a: char, b: char)
    requires AllLegal(style, s)
    ensures AllLegal(style, ReplacePair(s, a, b))
    decreases |s|
  {
    if |s| >= 2 {
      if s[0] == a && s[1] == b {
        LegalAfterReplace(style, s[2..], a, b);
      } else {
        LegalAfterReplace(style, s[1..], a, b);
      }
    }
  }

  // A part of the text that has no such pair, and whose last byte can only
  // start one if it is itself a hyphen, stays in front.
  lemma {:induction false} FrontSurvives(front: string, rest: string, a: char, b: char)
    requires front != "" && !HasPair(front, a, b)
    requires front[|front| - 1] == a ==> a == '-'
    ensures |front| <= |ReplacePair(front + rest, a, b)| && ReplacePair(front + rest, a, b)[..|front|] == front
    decreases |front|
  {
    var s := front + rest;
    if |front| == 1 {
      if |s| >= 2 && s[0] == a && s[1] == b {
        assert ReplacePair(s, a, b)[0] == '-';
      }
    } else {
      assert s[0] == front[0] && s[1] == front[1];
      assert s[1..] == front[1..] + rest;
      FrontSurvives(front[1..], rest, a, b);
      assert ReplacePair(s, a, b) == [front[0]] + ReplacePair(front[1..] + rest, a, b);
      assert ReplacePair(s, a, b)[..|front|] == [front[0]] + ReplacePair(front[1..] + rest, a, b)[..|front| - 1];
    }
  }

  // Replacing until there is nothing to replace.
  function Squeeze(s: string, a: char, b: char): (r: string)
    ensures !HasPair(r, a, b) && |r| <= |s|
    ensures !HasPair(s, a, b) ==> r == s
    decreases |s|
  {
    if HasPair(s, a, b) then Squeeze(ReplacePair(s, a, b), a, b) else s
  }

  lemma {:induction false} PairAfterSqueeze(s: string, a: char, b: char, c: char, d: char)
    requires c != '-' && !HasPair(s, c, d) && (d == '-' ==> !HasPair(s, c, a))
    requires d == '-' ==> a != '-' || c != a
    ensures !HasPair(Squeeze(s, a, b), c, d)
    ensures d == '-' ==> !HasPair(Squeeze(s, a, b), c, a)
    decreases |s|
  {
    if HasPair(s, a, b) {
      var r := ReplacePair(s, a, b);
      if HasPair(r, c, d) {
        PairAfterReplace(s, a, b, c, d);
      }
      if d == '-' && HasPair(r, c, a) {
        PairAfterReplace(s, a, b, c, a);
      }
      PairAfterSqueeze(r, a, b, c, d);
    }
  }

  lemma {:induction false} LegalAfterSqueeze(style: NameStyle, s: string, a: char, b: char)
    requires AllLegal(style, s)
    ensures AllLegal(style, Squeeze(s, a, b))
    decreases |s|
  {
    if HasPair(s, a, b) {
      LegalAfterReplace(style, s, a, b);
      LegalAfterSqueeze(style, ReplacePair(s, a, b), a, b);
    }
  }

  lemma {:induction false} FrontSurvivesSqueeze(front: string, s: string, a: char, b: char)
    requires front != "" && front <= s && !HasPair(front, a, b)
    requires front[|front| - 1] == a ==> a == '-'
    ensures front <= Squeeze(s, a, b)
    decreases |s|
  {
    if HasPair(s, a, b) {
      assert s == front + s[|front|..];
      FrontSurvives(front, s[|front|..], a, b);
      FrontSurvivesSqueeze(front, ReplacePair(s, a, b), a, b);
    }
  }

  // ----------------------------------------------- collapsing runs of hyphens

  // The one-pass meaning of the RDS rewriting loop: every run of hyphens becomes one.
  function Collapse(s: string): string {
    if |s| < 2 then s
    else if s[0] == '-' && s[1] == '-' then Collapse(s[1..])
    else [s[0]] + Collapse(s[1..])
  }

  lemma {:induction false} CollapseAfterReplace(c: char, t: string)
    ensures Collapse([c] + ReplacePair(t, '-', '-')) == Collapse([c] + t)
    decreases |t|
  {
    if |t| >= 2 {
      var s := [c] + t;
      assert s[1..] == t;
      if t[0] == '-' && t[1] == '-' {
        var u := t[2..];
        CollapseAfterReplace('-', u);
        assert ([c] + ReplacePair(t, '-', '-'))[1..] == "-" + ReplacePair(u, '-', '-');
        assert t[1..] == "-" + u;
        assert Collapse(t) == Collapse("-" + u);
      } else {
        CollapseAfterReplace(t[0], t[1..]);
        assert ([c] + ReplacePair(t, '-', '-'))[1..] == [t[0]] + ReplacePair(t[1..], '-', '-');
        assert [t[0]] + t[1..] == t;
      }
    }
  }

  lemma CollapseStable(s: string)
    ensures Collapse(ReplacePair(s, '-', '-')) == Collapse(s)
  {
    var c := 'x';
    CollapseAfterReplace(c, s);
    var r := ReplacePair(s, '-', '-');
    assert ([c] + r)[1..] == r && ([c] + s)[1..] == s;
    assert s != "" ==> Collapse([c] + s) == [c] + Collapse(s);
    assert r != "" ==> Collapse([c] + r) == [c] + Collapse(r);
    if s != "" {
      assert Collapse(s) == Collapse([c] + s)[1..] && Collapse(r) == Collapse([c] + r)[1..];
    }
  }

  lemma {:induction false} CollapseFixed(s: string)
    requires !HasPair(s, '-', '-')
    ensures Collapse(s) == s
  {
    if |s| >= 2 {
      CollapseFixed(s[1..]);
      assert [s[0]] + s[1..] == s;
    }
  }

  // Collapsing is what the loop's fixpoint computes.
  lemma {:induction false} SqueezeIsCollapse(s: string)
    ensures Squeeze(s, '-', '-') == Collapse(s)
    decreases |s|
  {
    if HasPair(s, '-', '-') {
      CollapseStable(s);
      SqueezeIsCollapse(ReplacePair(s, '-', '-'));
    } else {
      CollapseFixed(s);
    }
  }

  // ------------------------------------------------------------ clean, trim

  function Mapped(style: NameStyle, s: string): (r: string)
    ensures |r| == |s|
    ensures forall i :: 0 <= i < |s| ==> r[i] == if Legal(style, s[i]) then s[i] else '-'
  {
    seq(|s|, i requires 0 <= i < |s| => if Legal(style, s[i]) then s[i] else '-')
  }

  function Cleaned(style: NameStyle, s: string): string {
    match style
    case AnyChars => s
    case WordChars => Mapped(style, s)
    case RDSStyle => Collapse(Mapped(style, s))
    case S3Style => Squeeze(Squeeze(Squeeze(Mapped(style, s), '.', '.'), '.', '-'), '-', '.')
  }

  function TrimRight(s: string, c: char): (r: string)
    ensures r <= s && (r != "" ==> r[|r| - 1] != c)
    ensures s != "" && s[0] != c ==> r != ""
    ensures (s == "" || s[|s| - 1] != c) ==> r == s
  {
    if s != "" && s[|s| - 1] == c then TrimRight(s[..|s| - 1], c) else s
  }

  function Trimmed(style: NameStyle, s: string): string {
    match style
    case RDSStyle => TrimRight(s, '-')
    case S3Style => TrimRight(s, '.')
    case _ => s
  }

  function Truncated(s: string, budget: nat): string {
    if |s| > budget then s[..budget] else s
  }

  function Budget(hash: string, maxLen: int): nat {
    if maxLen - |hash| - 1 > 0 then maxLen - |hash| - 1 else 0
  }

  // The prefix that ends up in the name.
  function Prefix(style: NameStyle, prefix: string, hash: string, maxLen: int): string {
    var cleaned := Cleaned(style, prefix);
    var started := if style == RDSStyle && (cleaned == "" || !IsLetter(cleaned[0])) then "db-" + cleaned else cleaned;
    var ended := Trimmed(style, Truncated(started, Budget(hash, maxLen)));
    if ended == "" && style == RDSStyle then "db" else ended
  }

  function Name(style: NameStyle, prefix: string, hash: string, maxLen: int): string {
    Prefix(style, prefix, hash, maxLen) + "-" + hash
  }

  // The byte-buffer loop.
  method MapBytes(s: string, style: NameStyle) returns (r: string)
    ensures r == Mapped(style, s)
  {
    var out := new char[|s|](i requires 0 <= i < |s| => s[i]);
    for i := 0 to out.Length
      invariant forall k :: 0 <= k < i ==> out[k] == if Legal(style, s[k]) then s[k] else '-'
      invariant forall k :: i <= k < out.Length ==> out[k] == s[k]
    {
      if !Legal(style, out[i]) {
        out[i] := '-';
      }
    }
    r := out[..];
  }

  method SqueezeLoop(s: string, a: char, b: char) returns (r: string)
    ensures r == Squeeze(s, a, b)
  {
    r := s;
    while HasPair(r, a, b)
      invariant Squeeze(r, a, b) == Squeeze(s, a, b)
      decreases |r|
    {
      r := ReplacePair(r, a, b);
    }
  }

  method Clean(style: NameStyle, prefix: string) returns (r: string)
    ensures r == Cleaned(style, prefix)
  {
    r := prefix;
    match style {
      case AnyChars =>
      case WordChars =>
        r := MapBytes(prefix, style);
      case RDSStyle =>
        r := MapBytes(prefix, style);
        SqueezeIsCollapse(r);
        r := SqueezeLoop(r, '-', '-');
      case S3Style =>
        r := MapBytes(prefix, style);
        r := SqueezeLoop(r, '.', '.');
        r := SqueezeLoop(r, '.', '-');
        r := SqueezeLoop(r, '-', '.');
    }
  }

  method BuildName(style: NameStyle, prefix: string, hash: string, maxLen: int) returns (name: string)
    ensures name == Name(style, prefix, hash, maxLen)
  {
    var p := Clean(style, prefix);
    var budget := Budget(hash, maxLen);
    if style == RDSStyle && (p == "" || !IsLetter(p[0])) {
      p := "db-" + p;
    }
    if |p| > budget {
      p := p[..budget];
    }
    p := Trimmed(style, p);
    if p == "" && style == RDSStyle {
      p := "db";
    }
    name := p + "-" + hash;
  }

  // ----------------------------------------------------- service grammars

  ghost predicate RDSGrammar(s: string) {
    && s != "" && IsLetter(s[0]) && s[|s| - 1] != '-'
    && AllLegal(RDSStyle, s) && !HasPair(s, '-', '-')
  }

  ghost predicate S3Grammar(s: string) {
    && AllLegal(S3Style, s)
    && !HasPair(s, '.', '.') && !HasPair(s, '.', '-') && !HasPair(s, '-', '.')
  }

  ghost predicate Grammar(style: NameStyle, s: string) {
    match style
    case AnyChars => true
    case WordChars => AllLegal(WordChars, s)
    case RDSStyle => RDSGrammar(s)
    case S3Style => S3Grammar(s)
  }

  lemma SubPairs(s: string, a: char, b: char, lo: nat, hi: nat)
    requires lo <= hi <= |s| && !HasPair(s, a, b)
    ensures !HasPair(s[lo..hi], a, b)
  {
    PairAt(s, a, b);
    PairAt(s[lo..hi], a, b);
    assert forall i :: 0 <= i < hi - lo ==> s[lo..hi][i] == s[lo + i];
  }

  // Gluing two pair-free texts can only make the pair at the seam.
  lemma GluePairs(s: string, t: string, a: char, b: char)
    requires !HasPair(s, a, b) && !HasPair(t, a, b)
    requires s != "" && t != "" ==> !(s[|s| - 1] == a && t[0] == b)
    ensures !HasPair(s + t, a, b)
  {
    PairAt(s, a, b);
    PairAt(t, a, b);
    PairAt(s + t, a, b);
    assert forall i :: 0 <= i < |s| ==> (s + t)[i] == s[i];
    assert forall i :: |s| <= i < |s + t| ==> (s + t)[i] == t[i - |s|];
  }

  lemma NoPairInHash(hash: string, a: char, b: char)
    requires HexHash(hash) && !IsHex(a)
    ensures !HasPair(hash, a, b)
  {
    PairAt(hash, a, b);
  }

  // The prefix of an RDS or S3 name before it is trimmed.
  lemma CleanedRDS(prefix: string)
    requires prefix != "" && (IsLetter(prefix[0]) || IsDigit(prefix[0]))
    ensures var c := Cleaned(RDSStyle, prefix);
      c != "" && c[0] == prefix[0] && AllLegal(RDSStyle, c) && !HasPair(c, '-', '-')
  {
    var m := Mapped(RDSStyle, prefix);
    SqueezeIsCollapse(m);
    LegalAfterSqueeze(RDSStyle, m, '-', '-');
    PairAt([m[0]], '-', '-');
    FrontSurvivesSqueeze([m[0]], m, '-', '-');
  }

  // Every RDS name is one RDS accepts.
  lemma RDSNameIsLegal(prefix: string, hash: string, maxLen: int)
    requires prefix != "" && (IsLetter(prefix[0]) || IsDigit(prefix[0]))
    requires HexHash(hash) && maxLen >= 14
    ensures var n := Name(RDSStyle, prefix, hash, maxLen); |n| <= maxLen && RDSGrammar(n)
  {
    var c := Cleaned(RDSStyle, prefix);
    CleanedRDS(prefix);
    var started := if c == "" || !IsLetter(c[0]) then "db-" + c else c;
    StartedIsLegal(c, started);
    var p := TrimRight(Truncated(started, Budget(hash, maxLen)), '-');
    assert p != "" && p[0] == started[0] && p == started[0..|p|];
    SubPairs(started, '-', '-', 0, |p|);
    RDSSeam(p, hash);
  }

  lemma StartedIsLegal(c: string, started: string)
    requires c != "" && (IsLetter(c[0]) || IsDigit(c[0])) && AllLegal(RDSStyle, c) && !HasPair(c, '-', '-')
    requires started == if IsLetter(c[0]) then c else "db-" + c
    ensures started != "" && IsLetter(started[0]) && AllLegal(RDSStyle, started) && !HasPair(started, '-', '-')
  {
    assert !HasPair("db-", '-', '-') by { PairAt("db-", '-', '-'); }
    GluePairs("db-", c, '-', '-');
  }

  lemma RDSSeam(p: string, hash: string)
    requires p != "" && IsLetter(p[0]) && p[|p| - 1] != '-' && AllLegal(RDSStyle, p) && !HasPair(p, '-', '-')
    requires HexHash(hash)
    ensures RDSGrammar(p + "-" + hash)
  {
    NoPairInHash(hash, '-', '-');
    GluePairs("-", hash, '-', '-');
    GluePairs(p, "-" + hash, '-', '-');
    assert p + "-" + hash == p + ("-" + hash);
  }

  lemma CleanedS3(prefix: string)
    ensures S3Grammar(Cleaned(S3Style, prefix))
  {
    var m := Mapped(S3Style, prefix);
    var s1 := Squeeze(m, '.', '.');
    var s2 := Squeeze(s1, '.', '-');
    LegalAfterSqueeze(S3Style, m, '.', '.');
    LegalAfterSqueeze(S3Style, s1, '.', '-');
    LegalAfterSqueeze(S3Style, s2, '-', '.');
    PairAfterSqueeze(s1, '.', '-', '.', '.');
    PairAfterSqueeze(s2, '-', '.', '.', '.');
    PairAfterSqueeze(s2, '-', '.', '.', '-');
  }

  // A clean front of the text is what the S3 rewriting leaves in front.
  lemma S3FrontSurvives(front: string, prefix: string)
    requires front != "" && front <= prefix && S3Grammar(front) && front[|front| - 1] != '.'
    ensures front <= Cleaned(S3Style, prefix)
  {
    var m := Mapped(S3Style, prefix);
    assert front <= m;
    FrontSurvivesSqueeze(front, m, '.', '.');
    FrontSurvivesSqueeze(front, Squeeze(m, '.', '.'), '.', '-');
    FrontSurvivesSqueeze(front, Squeeze(Squeeze(m, '.', '.'), '.', '-'), '-', '.');
  }

  lemma S3Seam(p: string, hash: string)
    requires S3Grammar(p) && (p == "" || p[|p| - 1] != '.') && HexHash(hash)
    ensures S3Grammar(p + "-" + hash)
  {
    var tail := "-" + hash;
    NoPairInHash(hash, '.', '.');
    NoPairInHash(hash, '.', '-');
    NoPairInHash(hash, '-', '.');
    GluePairs("-", hash, '.', '.');
    GluePairs("-", hash, '.', '-');
    GluePairs("-", hash, '-', '.');
    GluePairs(p, tail, '.', '.');
    GluePairs(p, tail, '.', '-');
    GluePairs(p, tail, '-', '.');
    assert p + "-" + hash == p + tail;
  }

  // Every S3 name is one S3 accepts.
  lemma S3NameIsLegal(prefix: string, hash: string, maxLen: int)
    requires prefix != "" && ('a' <= prefix[0] <= 'z' || IsDigit(prefix[0]))
    requires HexHash(hash) && maxLen >= 14
    ensures var n := Name(S3Style, prefix, hash, maxLen);
      |n| <= maxLen && S3Grammar(n) && n[0] == prefix[0] && IsHex(n[|n| - 1])
  {
    var c := Cleaned(S3Style, prefix);
    CleanedS3(prefix);
    PairAt([prefix[0]], '.', '.');
    PairAt([prefix[0]], '.', '-');
    PairAt([prefix[0]], '-', '.');
    S3FrontSurvives([prefix[0]], prefix);
    var cut := Truncated(c, Budget(hash, maxLen));
    var p := TrimRight(cut, '.');
    assert cut != "" && cut[0] == prefix[0];
    assert p == c[0..|p|];
    SubPairs(c, '.', '.', 0, |p|);
    SubPairs(c, '.', '-', 0, |p|);
    SubPairs(c, '-', '.', 0, |p|);
    S3Seam(p, hash);
  }

  lemma WordNameIsLegal(prefix: string, hash: string, maxLen: int)
    requires HexHash(hash) && maxLen >= 13
    ensures var n := Name(WordChars, prefix, hash, maxLen); |n| <= maxLen && AllLegal(WordChars, n)
  {
  }

  // ------------------------------------------------------ style refinement

  lemma GrammarOfParts(style: NameStyle, p: string, hash: string)
    requires Grammar(style, p + "-" + hash)
    ensures style.WordChars? ==> AllLegal(style, p)
    ensures style.RDSStyle? ==> p != "" && IsLetter(p[0]) && p[|p| - 1] != '-' && AllLegal(style, p) && !HasPair(p, '-', '-')
    ensures style.S3Style? ==> S3Grammar(p) && (p != "" ==> p[|p| - 1] != '.')
  {
    var n := p + "-" + hash;
    assert n[..|p|] == p && n[0..|p|] == p && n[|p|] == '-';
    assert forall i :: 0 <= i < |p| ==> p[i] == n[i];
    match style
    case AnyChars =>
    case WordChars =>
    case RDSStyle =>
      SubPairs(n, '-', '-', 0, |p|);
      PairAt(n, '-', '-');
    case S3Style =>
      SubPairs(n, '.', '.', 0, |p|);
      SubPairs(n, '.', '-', 0, |p|);
      SubPairs(n, '-', '.', 0, |p|);
      PairAt(n, '.', '-');
  }

  // Whenever the plain name is one the service accepts, the styled name is that
  // very name: forbidden bytes past the truncation point change nothing.
  lemma StyleKeepsAcceptedNames(style: NameStyle, prefix: string, hash: string, maxLen: int)
    requires Grammar(style, Name(AnyChars, prefix, hash, maxLen))
    ensures Name(style, prefix, hash, maxLen) == Name(AnyChars, prefix, hash, maxLen)
  {
    var b := Budget(hash, maxLen);
    var front := Truncated(prefix, b);
    GrammarOfParts(style, front, hash);
    match style
    case AnyChars =>
    case WordChars =>
      assert Truncated(Mapped(style, prefix), b) == front;
    case RDSStyle =>
      RDSPrefixKept(prefix, hash, maxLen, front);
    case S3Style =>
      S3PrefixKept(prefix, hash, maxLen, front);
  }

  lemma RDSPrefixKept(prefix: string, hash: string, maxLen: int, front: string)
    requires front == Truncated(prefix, Budget(hash, maxLen)) && front != "" && IsLetter(front[0])
    requires front[|front| - 1] != '-' && AllLegal(RDSStyle, front) && !HasPair(front, '-', '-')
    ensures Prefix(RDSStyle, prefix, hash, maxLen) == front
  {
    RDSFrontSurvives(front, prefix);
    FrontIsTruncation(RDSStyle, prefix, Budget(hash, maxLen), front);
    assert Cleaned(RDSStyle, prefix)[0] == front[0];
  }

  lemma S3PrefixKept(prefix: string, hash: string, maxLen: int, front: string)
    requires front == Truncated(prefix, Budget(hash, maxLen)) && S3Grammar(front) && (front != "" ==> front[|front| - 1] != '.')
    ensures Prefix(S3Style, prefix, hash, maxLen) == front
  {
    if front != "" {
      S3FrontSurvives(front, prefix);
    }
    FrontIsTruncation(S3Style, prefix, Budget(hash, maxLen), front);
  }

  lemma RDSFrontSurvives(front: string, prefix: string)
    requires front != "" && front <= prefix && front[|front| - 1] != '-' && AllLegal(RDSStyle, front) && !HasPair(front, '-', '-')
    ensures front <= Cleaned(RDSStyle, prefix)
  {
    var m := Mapped(RDSStyle, prefix);
    assert front <= m;
    FrontSurvivesSqueeze(front, m, '-', '-');
    SqueezeIsCollapse(m);
  }

  lemma FrontIsTruncation(style: NameStyle, prefix: string, b: nat, front: string)
    requires style.RDSStyle? || style.S3Style?
    requires front == Truncated(prefix, b) && front <= Cleaned(style, prefix)
    ensures Truncated(Cleaned(style, prefix), b) == front
  {
    var m := Mapped(style, prefix);
    SqueezeIsCollapse(m);
    assert |Cleaned(style, prefix)| <= |prefix|;
    if |prefix| <= b {
      assert front == prefix;
    }
  }

  // -------------------------------------------------------------- identities

  type Hash = string -> string

  ghost predicate IsIdentityHash(h: Hash) {
    forall s :: HexHash(h(s))
  }

  function IdentityHash(h: Hash, fields: seq<string>): string {
    h(Join(fields, [NUL]))
  }

  // The two inputs do not collide under h.
  ghost predicate NoCollision(h: Hash, a: seq<string>, b: seq<string>) {
    IdentityHash(h, a) == IdentityHash(h, b) ==> Join(a, [NUL]) == Join(b, [NUL])
  }

  function Identity(namespace: string, crName: string, rtype: string, keyParts: seq<string>): seq<string> {
    [namespace, crName, rtype] + keyParts
  }

  function DerivedResourceNameFor(h: Hash, style: NameStyle, namespace: string, crName: string, rtype: string,
                                  maxLen: int, keyParts: seq<string>): string
  {
    Name(style, Join([namespace, crName] + keyParts, "-"),
         IdentityHash(h, Identity(namespace, crName, rtype, keyParts)), maxLen)
  }

  function ResourceNameFor(h: Hash, style: NameStyle, namespace: string, crName: string, rtype: string,
                           key: string, maxLen: int): string
  {
    Name(style, namespace + "-" + crName + "-" + key,
         IdentityHash(h, [namespace, crName, rtype, key]), maxLen)
  }

  const FIFO_SUFFIX := ".fifo"

  function QueueOrTopicName(h: Hash, namespace: string, crName: string, rtype: string, fifo: bool,
                            maxLen: int, keyParts: seq<string>): string
  {
    if fifo then
      DerivedResourceNameFor(h, WordChars, namespace, crName, rtype, maxLen - |FIFO_SUFFIX|, keyParts) + FIFO_SUFFIX
    else
      DerivedResourceNameFor(h, WordChars, namespace, crName, rtype, maxLen, keyParts)
  }

  // A resource of one key has the name a derived one of that single part has.
  lemma ResourceNameIsDerived(h: Hash, style: NameStyle, namespace: string, crName: string, rtype: string,
                              key: string, maxLen: int)
    ensures ResourceNameFor(h, style, namespace, crName, rtype, key, maxLen)
         == DerivedResourceNameFor(h, style, namespace, crName, rtype, maxLen, [key])
  {
    var parts := [namespace, crName] + [key];
    assert parts[1..] == [crName, key] && parts[1..][1..] == [key];
    assert Identity(namespace, crName, rtype, [key]) == [namespace, crName, rtype, key];
    assert Join(parts[1..], "-") == crName + "-" + key;
    assert Join(parts, "-") == namespace + "-" + (crName + "-" + key);
    assert namespace + "-" + crName + "-" + key == namespace + "-" + (crName + "-" + key);
  }

  lemma SameEnding(p: string, s: string, q: string, t: string)
    requires |s| == |t| && p + s == q + t
    ensures s == t
  {
    assert (p + s)[|p|..] == s && (q + t)[|q|..] == t;
  }

  // Equal names stand for equal identities, whatever the styles and limits.
  lemma SameNameSameIdentity(h: Hash, style: NameStyle, p: string, maxLen: int, a: seq<string>,
                             style': NameStyle, p': string, maxLen': int, b: seq<string>)
    requires IsIdentityHash(h) && NoCollision(h, a, b)
    requires a != [] && b != [] && Without(a, NUL) && Without(b, NUL)
    requires Name(style, p, IdentityHash(h, a), maxLen) == Name(style', p', IdentityHash(h, b), maxLen')
    ensures a == b
  {
    SameEnding(Prefix(style, p, IdentityHash(h, a), maxLen) + "-", IdentityHash(h, a),
               Prefix(style', p', IdentityHash(h, b), maxLen') + "-", IdentityHash(h, b));
    JoinInjective(a, b, NUL);
  }

  lemma IdentityInjective(ns: string, cr: string, t: string, key: seq<string>, ns': string, cr': string, t': string, key': seq<string>)
    requires Identity(ns, cr, t, key) == Identity(ns', cr', t', key')
    ensures ns == ns' && cr == cr' && t == t' && key == key'
  {
    var a, b := Identity(ns, cr, t, key), Identity(ns', cr', t', key');
    assert a[0] == b[0] && a[1] == b[1] && a[2] == b[2];
    assert a[3..] == key && b[3..] == key';
  }

  // A queue or topic name tells FIFO from standard and gives back the whole
  // identity. In particular a queue and another one's dead-letter queue, or a
  // FIFO queue and a standard one, never share a name.
  lemma QueueNameInjective(h: Hash, rtype: string, maxLen: int, ns: string, cr: string, fifo: bool, key: seq<string>,
                           ns': string, cr': string, fifo': bool, key': seq<string>)
    requires IsIdentityHash(h) && NoCollision(h, Identity(ns, cr, rtype, key), Identity(ns', cr', rtype, key'))
    requires Without(Identity(ns, cr, rtype, key), NUL) && Without(Identity(ns', cr', rtype, key'), NUL)
    requires QueueOrTopicName(h, ns, cr, rtype, fifo, maxLen, key) == QueueOrTopicName(h, ns', cr', rtype, fifo', maxLen, key')
    ensures fifo == fifo' && ns == ns' && cr == cr' && key == key'
  {
    var a, b := Identity(ns, cr, rtype, key), Identity(ns', cr', rtype, key');
    var n, n' := QueueOrTopicName(h, ns, cr, rtype, fifo, maxLen, key), QueueOrTopicName(h, ns', cr', rtype, fifo', maxLen, key');
    EndsInHash(h, ns, cr, rtype, fifo, maxLen, key);
    EndsInHash(h, ns', cr', rtype, fifo', maxLen, key');
    assert fifo == fifo';
    var m := if fifo then maxLen - |FIFO_SUFFIX| else maxLen;
    var d, d' := DerivedResourceNameFor(h, WordChars, ns, cr, rtype, m, key), DerivedResourceNameFor(h, WordChars, ns', cr', rtype, m, key');
    if fifo {
      assert n[..|d|] == d && n'[..|d'|] == d';
    }
    SameNameSameIdentity(h, WordChars, Join([ns, cr] + key, "-"), m, a, WordChars, Join([ns', cr'] + key', "-"), m, b);
    IdentityInjective(ns, cr, rtype, key, ns', cr', rtype, key');
  }

  lemma EndsInHash(h: Hash, ns: string, cr: string, rtype: string, fifo: bool, maxLen: int, key: seq<string>)
    requires IsIdentityHash(h)
    ensures var n := QueueOrTopicName(h, ns, cr, rtype, fifo, maxLen, key);
      n != "" && (if fifo then n[|n| - 1] == 'o' else IsHex(n[|n| - 1]))
  {
    var m := if fifo then maxLen - |FIFO_SUFFIX| else maxLen;
    var hash := IdentityHash(h, Identity(ns, cr, rtype, key));
    assert HexHash(hash);
    var d := DerivedResourceNameFor(h, WordChars, ns, cr, rtype, m, key);
    assert d[|d| - 1] == hash[|hash| - 1];
  }

  const DLQ_ROLE := "dlq"

  // A user's queue never takes the name of a dead-letter queue.
  lemma DeadLetterQueueApart(h: Hash, maxLen: int, ns: string, cr: string, fifo: bool, main: string, fifo': bool, user: string)
    requires IsIdentityHash(h) && NoCollision(h, Identity(ns, cr, "sqs", [main, DLQ_ROLE]), Identity(ns, cr, "sqs", [user]))
    requires NUL !in ns && NUL !in cr && NUL !in main && NUL !in user
    ensures QueueOrTopicName(h, ns, cr, "sqs", fifo, maxLen, [main, DLQ_ROLE]) != QueueOrTopicName(h, ns, cr, "sqs", fifo', maxLen, [user])
  {
    if QueueOrTopicName(h, ns, cr, "sqs", fifo, maxLen, [main, DLQ_ROLE]) == QueueOrTopicName(h, ns, cr, "sqs", fifo', maxLen, [user]) {
      QueueNameInjective(h, "sqs", maxLen, ns, cr, fifo, [main, DLQ_ROLE], ns, cr, fifo', [user]);
    }
  }

  // The id of an instance's final snapshot, one per pending-deletion episode.
  function SnapshotID(h: Hash, ns: string, cr: string, instance: string, since: int): string {
    DerivedResourceNameFor(h, RDSStyle, ns, cr, "rds", 255, [instance, "final-snapshot", FormatInt(since)])
  }

  // Two episodes, or two instances, never share a snapshot id.
  lemma SnapshotIDInjective(h: Hash, ns: string, cr: string, instance: string, since: int, instance': string, since': int)
    requires IsIdentityHash(h)
    requires NoCollision(h, Identity(ns, cr, "rds", [instance, "final-snapshot", FormatInt(since)]),
                         Identity(ns, cr, "rds", [instance', "final-snapshot", FormatInt(since')]))
    requires NUL !in ns && NUL !in cr && NUL !in instance && NUL !in instance'
    requires SnapshotID(h, ns, cr, instance, since) == SnapshotID(h, ns, cr, instance', since')
    ensures instance == instance' && since == since'
  {
    var k, k' := [instance, "final-snapshot", FormatInt(since)], [instance', "final-snapshot", FormatInt(since')];
    WithoutNUL(ns, cr, instance, since);
    WithoutNUL(ns, cr, instance', since');
    SameNameSameIdentity(h, RDSStyle, Join([ns, cr] + k, "-"), 255, Identity(ns, cr, "rds", k),
                         RDSStyle, Join([ns, cr] + k', "-"), 255, Identity(ns, cr, "rds", k'));
    IdentityInjective(ns, cr, "rds", k, ns, cr, "rds", k');
    assert k[0] == k'[0] && k[2] == k'[2];
    FormatIntInjective(since, since');
  }

  lemma WithoutNUL(ns: string, cr: string, instance: string, since: int)
    requires NUL !in ns && NUL !in cr && NUL !in instance
    ensures Without(Identity(ns, cr, "rds", [instance, "final-snapshot", FormatInt(since)]), NUL)
  {
    assert NUL !in FormatInt(since);
  }

  // ------------------------------------------------------------ ledger names

  const SEPARATOR := '#'

  function DerivedKey(resourceKey: string, role: string): string {
    resourceKey + [SEPARATOR] + role
  }

  function DedicatedKeyLedgerName(owner: ResourceType, resourceName: string): string {
    owner.Text() + [SEPARATOR] + resourceName + [SEPARATOR] + "key"
  }

  // The name before the first separator, or all of it: strings.Cut.
  function BaseName(name: string): string {
    Split(name, SEPARATOR)[0]
  }

  lemma TypeTextInjective(t: ResourceType, u: ResourceType)
    ensures SEPARATOR !in t.Text()
    ensures t.Text() == u.Text() ==> t == u
  {
    if t.Text() == u.Text() {
      var a, b := t.Text(), u.Text();
      assert |a| == |b| && a[0] == b[0] && a[1] == b[1];
      assert |a| > 2 ==> a[2] == b[2];
    }
  }

  // No two resources derive the same dedicated key, and no key a user can
  // declare has the name of a dedicated one.
  lemma DedicatedKeyInjective(t: ResourceType, n: string, t': ResourceType, n': string, declared: string)
    requires SEPARATOR !in n && SEPARATOR !in n' && SEPARATOR !in declared
    ensures DedicatedKeyLedgerName(t, n) == DedicatedKeyLedgerName(t', n') ==> t == t' && n == n'
    ensures DedicatedKeyLedgerName(t, n) != declared
  {
    TypeTextInjective(t, t');
    TypeTextInjective(t', t);
    DedicatedKeyIsJoin(t, n);
    DedicatedKeyIsJoin(t', n');
    var a, b := [t.Text(), n, "key"], [t'.Text(), n', "key"];
    if DedicatedKeyLedgerName(t, n) == DedicatedKeyLedgerName(t', n') {
      JoinInjective(a, b, SEPARATOR);
      assert a[0] == b[0] && a[1] == b[1];
    }
    assert DedicatedKeyLedgerName(t, n)[|t.Text()|] == SEPARATOR;
  }

  lemma DedicatedKeyIsJoin(t: ResourceType, n: string)
    ensures DedicatedKeyLedgerName(t, n) == Join([t.Text(), n, "key"], [SEPARATOR])
  {
    var f := [t.Text(), n, "key"];
    assert f[1..] == [n, "key"] && f[1..][1..] == ["key"];
    assert Join(f[1..], [SEPARATOR]) == n + [SEPARATOR] + "key";
    assert Join(f, [SEPARATOR]) == t.Text() + [SEPARATOR] + (n + [SEPARATOR] + "key");
  }

  // A derived resource, such as a dead-letter queue, has its main resource's base name.
  lemma BaseNameOfDerived(resourceKey: string, role: string)
    requires SEPARATOR !in resourceKey
    ensures BaseName(DerivedKey(resourceKey, role)) == resourceKey && BaseName(resourceKey) == resourceKey
  {
    SplitPrefix(resourceKey, role, SEPARATOR);
    SplitAtom(resourceKey, SEPARATOR);
  }
}
