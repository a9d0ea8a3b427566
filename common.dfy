/** Small value helpers shared by the model: optional values, Python truthiness,
    ASCII lower-casing, substring search, decimal rendering and comma lists. */
module Common {

  datatype Option<+T> = None | Some(value: T) {
    /** The value, or `default` when absent (Python's `d.get(k, default)`). */
    function GetOr(default: T): T {
      if Some? then value else default
    }
  }

  /** Python truthiness of an optional string: present and non-empty. */
  predicate TruthyStr(o: Option<string>) {
    o.Some? && |o.value| > 0
  }

  /** Python truthiness of an optional integer: present and non-zero. */
  predicate TruthyInt(o: Option<int>) {
    o.Some? && o.value != 0
  }

  /** Python's `a or b` on optional integers: `a` when truthy, else `b`. */
  function OrInt(a: Option<int>, b: Option<int>): Option<int> {
    if TruthyInt(a) then a else b
  }

  // ---------------------------------------------------------------------------
  // Lower-casing (ASCII letters only)

  function LowerChar(c: char): char {
    if 'A' <= c <= 'Z' then (c as int + 32) as char else c
  }

  function Lower(s: string): (r: string)
    ensures |r| == |s|
  {
    seq(|s|, i requires 0 <= i < |s| => LowerChar(s[i]))
  }

  /** Lower-casing distributes over concatenation. */
  lemma LowerConcat(a: string, b: string)
    ensures Lower(a + b) == Lower(a) + Lower(b)
  {
  }

  /** Lower-casing commutes with slicing. */
  lemma LowerSlice(s: string, i: nat, j: nat)
    requires i <= j <= |s|
    ensures Lower(s)[i..j] == Lower(s[i..j])
  {
  }

  /** Lower-casing a lower-cased string changes nothing. */
  lemma LowerIdempotent(s: string)
    ensures Lower(Lower(s)) == Lower(s)
  {
  }

  // ---------------------------------------------------------------------------
  // Substrings

  /** Python's `w in s` for strings: `w` occurs in `s` at some offset. */
  predicate Contains(s: string, w: string) {
    exists i :: 0 <= i <= |s| && w <= s[i..]
  }

  /** Kotlin's `startsWith`. */
  predicate StartsWith(s: string, p: string) {
    p <= s
  }

  /** An occurrence found before lower-casing is still there after it. */
  lemma ContainsLower(s: string, w: string)
    requires Contains(s, w)
    ensures Contains(Lower(s), Lower(w))
  {
    var i :| 0 <= i <= |s| && w <= s[i..];
    assert s[i..i + |w|] == w;
    LowerSlice(s, i, i + |w|);
    assert Lower(w) <= Lower(s)[i..];
  }

  /** A word occurring inside a part occurs inside the whole. */
  lemma ContainsInfix(a: string, w: string, b: string)
    ensures Contains(a + w + b, w)
  {
    assert (a + w + b)[|a|..] == w + b;
  }

  // ---------------------------------------------------------------------------
  // Decimal rendering (Python's `str` / f-string of an int) and its inverse

  function DigitChar(d: nat): char
    requires d < 10
  {
    ('0' as int + d) as char
  }

  predicate IsDigit(c: char) {
    '0' <= c <= '9'
  }

  function NatToString(n: nat): (r: string)
    ensures |r| > 0
  {
    if n < 10 then [DigitChar(n)] else NatToString(n / 10) + [DigitChar(n % 10)]
  }

  function IntToString(i: int): (r: string)
    ensures |r| > 0
  {
    if i < 0 then "-" + NatToString(-i) else NatToString(i)
  }

  function ParseNat(s: string): nat {
    if s == [] then 0
    else
      var c := s[|s| - 1];
      var d := if IsDigit(c) then c as int - '0' as int else 0;
      ParseNat(s[..|s| - 1]) * 10 + d
  }

  function ParseInt(s: string): int {
    if |s| > 0 && s[0] == '-' then 0 - ParseNat(s[1..]) else ParseNat(s)
  }

  lemma {:induction false} NatToStringDigits(n: nat)
    ensures forall k :: 0 <= k < |NatToString(n)| ==> IsDigit(NatToString(n)[k])
  {
    if n >= 10 { NatToStringDigits(n / 10); }
  }

  /** A rendered integer is built from digits and at most a leading minus sign. */
  lemma IntToStringChars(i: int)
    ensures forall k :: 0 <= k < |IntToString(i)| ==> IsDigit(IntToString(i)[k]) || (k == 0 && i < 0 && IntToString(i)[k] == '-')
  {
    NatToStringDigits(if i < 0 then -i else i);
  }

  /** Parsing the rendering of a natural number gives the number back. */
  lemma {:induction false} ParseNatToString(n: nat)
    ensures ParseNat(NatToString(n)) == n
  {
    var s := NatToString(n);
    if n < 10 {
      assert s[..0] == [];
    } else {
      assert s[..|s| - 1] == NatToString(n / 10);
      ParseNatToString(n / 10);
    }
  }

  /** Parsing the rendering of an integer gives the integer back. */
  lemma ParseIntToString(i: int)
    ensures ParseInt(IntToString(i)) == i
  {
    if i < 0 {
      NegativeRendering(-i);
    } else {
      var s := NatToString(i);
      NatToStringDigits(i);
      assert IsDigit(s[0]);
      ParseNatToString(i);
    }
  }

  lemma NegativeRendering(n: nat)
    requires n > 0
    ensures ParseInt("-" + NatToString(n)) == -(n as int)
  {
    var s := "-" + NatToString(n);
    assert s[0] == '-';
    assert s[1..] == NatToString(n);
    ParseNatToString(n);
  }

  // ---------------------------------------------------------------------------
  // Comma-separated lists (Python's `','.join(...)`) and their splitting

  function Join(xs: seq<string>, sep: char): string {
    if xs == [] then ""
    else if |xs| == 1 then xs[0]
    else xs[0] + [sep] + Join(xs[1..], sep)
  }

  function Split(s: string, sep: char): (r: seq<string>)
    ensures |r| > 0
  {
    if s == [] then [""]
    else
      var tail := Split(s[1..], sep);
      if s[0] == sep then [""] + tail else [[s[0]] + tail[0]] + tail[1..]
  }

  lemma {:induction false} SplitNoSep(a: string, sep: char)
    requires sep !in a
    ensures Split(a, sep) == [a]
  {
    if a != [] {
      assert a[0] in a;
      assert sep !in a[1..];
      SplitNoSep(a[1..], sep);
      assert [a[0]] + a[1..] == a;
    }
  }

  lemma {:induction false} SplitPiece(a: string, sep: char, rest: string)
    requires sep !in a
    ensures Split(a + [sep] + rest, sep) == [a] + Split(rest, sep)
  {
    if a == [] {
      assert a + [sep] + rest == [sep] + rest;
      assert ([sep] + rest)[1..] == rest;
    } else {
      assert (a + [sep] + rest)[1..] == a[1..] + [sep] + rest;
      assert sep !in a[1..];
      SplitPiece(a[1..], sep, rest);
      assert [a[0]] + a[1..] == a;
    }
  }

  /** Splitting a non-empty joined list of separator-free pieces gives the pieces back. */
  lemma {:induction false} SplitJoin(xs: seq<string>, sep: char)
    requires |xs| > 0
    requires forall k :: 0 <= k < |xs| ==> sep !in xs[k]
    ensures Split(Join(xs, sep), sep) == xs
  {
    if |xs| == 1 {
      SplitNoSep(xs[0], sep);
    } else {
      SplitJoin(xs[1..], sep);
      SplitPiece(xs[0], sep, Join(xs[1..], sep));
      assert [xs[0]] + xs[1..] == xs;
    }
  }

  // ---------------------------------------------------------------------------
  // Python slicing

  /** Python's `s[:n]` for a non-negative `n`: the first `n` elements, or all of them. */
  function Take<T>(s: seq<T>, n: nat): (r: seq<T>)
    ensures |r| == if |s| <= n then |s| else n
    ensures r == s[..|r|]
  {
    if |s| <= n then s else s[..n]
  }

  // ---------------------------------------------------------------------------
  // Python list building: filters and comprehensions. Each is defined from the back,
  // so that a loop over a prefix of the input extends the result by one step.

  /** `[x for x in s if p(x)]`. */
  function Filter<T(!new)>(p: T -> bool, s: seq<T>): (r: seq<T>)
    ensures |r| <= |s|
  {
    if s == [] then []
    else
      var init := Filter(p, s[..|s| - 1]);
      if p(s[|s| - 1]) then init + [s[|s| - 1]] else init
  }

  /** The filter keeps exactly the elements satisfying `p`, and everything when all do. */
  lemma {:induction false} FilterMembers<T(!new)>(p: T -> bool, s: seq<T>)
    ensures forall x :: x in Filter(p, s) <==> x in s && p(x)
    ensures (forall k :: 0 <= k < |s| ==> p(s[k])) ==> Filter(p, s) == s
  {
    if s != [] {
      var init := s[..|s| - 1];
      assert s == init + [s[|s| - 1]];
      FilterMembers(p, init);
    }
  }

  /** `[f(x) for x in s]`. */
  function Map<T, U>(f: T -> U, s: seq<T>): (r: seq<U>)
    ensures |r| == |s|
  {
    if s == [] then [] else Map(f, s[..|s| - 1]) + [f(s[|s| - 1])]
  }

  /** Each element of the mapped list is `f` of the element at the same position. */
  lemma {:induction false} MapAt<T, U>(f: T -> U, s: seq<T>)
    ensures forall k :: 0 <= k < |s| ==> Map(f, s)[k] == f(s[k])
  {
    if s != [] {
      MapAt(f, s[..|s| - 1]);
    }
  }

  /** `[x for x in s if x]` over a list that may hold nulls: the non-null elements. */
  function Present<T(!new)>(s: seq<Option<T>>): (r: seq<T>)
    ensures |r| <= |s|
  {
    if s == [] then []
    else
      var init := Present(s[..|s| - 1]);
      match s[|s| - 1]
      case Some(x) => init + [x]
      case None => init
  }

  /** The non-null elements are exactly the values of the `Some` entries, and none is
      lost exactly when there is no null. */
  lemma {:induction false} PresentMembers<T(!new)>(s: seq<Option<T>>)
    ensures forall x :: x in Present(s) <==> Some(x) in s
    ensures |Present(s)| == |s| <==> None !in s
  {
    if s != [] {
      var init := s[..|s| - 1];
      assert s == init + [s[|s| - 1]];
      PresentMembers(init);
    }
  }

  lemma FilterSnoc<T(!new)>(p: T -> bool, s: seq<T>, x: T)
    ensures Filter(p, s + [x]) == if p(x) then Filter(p, s) + [x] else Filter(p, s)
  {
    assert (s + [x])[..|s|] == s;
  }

  lemma MapSnoc<T, U>(f: T -> U, s: seq<T>, x: T)
    ensures Map(f, s + [x]) == Map(f, s) + [f(x)]
  {
    assert (s + [x])[..|s|] == s;
  }

  lemma PresentSnoc<T(!new)>(s: seq<Option<T>>, x: Option<T>)
    ensures Present(s + [x]) == if x.Some? then Present(s) + [x.value] else Present(s)
  {
    assert (s + [x])[..|s|] == s;
  }

  /** A weaker filter keeps at least as much: if `q` implies `p`, filtering by `q` gives
      no more elements than filtering by `p`. */
  lemma {:induction false} FilterMonotone<T(!new)>(q: T -> bool, p: T -> bool, s: seq<T>)
    requires forall x :: q(x) ==> p(x)
    ensures |Filter(q, s)| <= |Filter(p, s)|
  {
    if s != [] {
      FilterMonotone(q, p, s[..|s| - 1]);
    }
  }
}
