/** String primitives with the semantics of the Python and C library calls
    the engine relies on: `str.split` with and without a split limit,
    `str.strip`, `in` / `strstr`, `strrchr`, `int()` and decimal printing. */
module Text {
  import opened Base

  predicate IsDigit(c: char) {
    '0' <= c <= '9'
  }

  predicate AllDigits(s: string) {
    forall i :: 0 <= i < |s| ==> IsDigit(s[i])
  }

  function DigitChar(d: nat): (c: char)
    requires d < 10
    ensures IsDigit(c)
  {
    (('0' as int) + d) as char
  }

  function DigitValue(c: char): nat
    requires IsDigit(c)
  {
    (c as int) - ('0' as int)
  }

  /** Decimal digits of `n`, most significant first, no leading zero. */
  function NatToString(n: nat): (s: string)
    ensures |s| >= 1 && AllDigits(s)
    decreases n
  {
    if n < 10 then [DigitChar(n)] else NatToString(n / 10) + [DigitChar(n % 10)]
  }

  function DigitsValue(s: string): nat
    requires AllDigits(s)
  {
    if |s| == 0 then 0 else DigitsValue(s[..|s| - 1]) * 10 + DigitValue(s[|s| - 1])
  }

  /** Reading back the printed digits of a natural number gives the number. */
  lemma {:induction false} NatStringRoundTrip(n: nat)
    ensures DigitsValue(NatToString(n)) == n
    decreases n
  {
    if n >= 10 {
      var s := NatToString(n);
      var prefix := NatToString(n / 10);
      assert s[..|s| - 1] == prefix;
      NatStringRoundTrip(n / 10);
    }
  }

  /** Python's `str(n)` for an int. */
  function IntToString(n: int): (s: string)
    ensures |s| >= 1
    ensures IsDigit(s[|s| - 1])
    ensures s[0] == '-' || IsDigit(s[0])
  {
    if n < 0 then "-" + NatToString(-n) else NatToString(n)
  }

  /** Python's `int(s)` restricted to an optional sign followed by one or
      more ASCII digits; every other string is rejected with `None`. */
  function ParseInt(s: string): (r: Option<int>)
    ensures r.Some? ==> |s| >= 1 && IsDigit(s[|s| - 1])
  {
    if |s| > 0 && (s[0] == '-' || s[0] == '+') then
      var d := s[1..];
      if |d| > 0 && AllDigits(d) then
        Some(if s[0] == '-' then -(DigitsValue(d) as int) else DigitsValue(d))
      else None
    else if |s| > 0 && AllDigits(s) then Some(DigitsValue(s))
    else None
  }

  /** Digits alone read as their value. */
  lemma ParseDigits(d: string)
    requires |d| > 0 && AllDigits(d)
    ensures ParseInt(d) == Some(DigitsValue(d))
  {
    assert IsDigit(d[0]);
  }

  /** A minus sign before digits negates their value. */
  lemma ParseNegative(d: string)
    requires |d| > 0 && AllDigits(d)
    ensures ParseInt("-" + d) == Some(-(DigitsValue(d) as int))
  {
    assert ("-" + d)[1..] == d;
  }

  /** `int(str(n)) == n` for every integer. */
  lemma IntStringRoundTrip(n: int)
    ensures ParseInt(IntToString(n)) == Some(n)
  {
    if n < 0 {
      NegativeRoundTrip(-n);
      assert IntToString(n) == "-" + NatToString(-n);
    } else {
      NaturalRoundTrip(n);
      assert IntToString(n) == NatToString(n);
    }
  }

  lemma NegativeRoundTrip(m: nat)
    ensures ParseInt("-" + NatToString(m)) == Some(-(m as int))
  {
    ParseNegative(NatToString(m));
    NatStringRoundTrip(m);
  }

  lemma NaturalRoundTrip(m: nat)
    ensures ParseInt(NatToString(m)) == Some(m)
  {
    ParseDigits(NatToString(m));
    NatStringRoundTrip(m);
  }

  /** First index of `c` in `s` (Python `str.find` for one character). */
  function IndexOf(s: string, c: char): (r: Option<nat>)
    ensures r.Some? ==> r.value < |s| && s[r.value] == c && c !in s[..r.value]
    ensures r.None? ==> c !in s
  {
    if |s| == 0 then None
    else if s[0] == c then Some(0)
    else
      match IndexOf(s[1..], c)
      case None => None
      case Some(i) => assert s[1..][..i] == s[1..i + 1]; Some(i + 1)
  }

  /** Python `s.split(c)` (no limit). */
  function SplitAll(s: string, c: char): (parts: seq<string>)
    ensures |parts| >= 1
    decreases |s|
  {
    match IndexOf(s, c)
    case None => [s]
    case Some(i) => [s[..i]] + SplitAll(s[i + 1..], c)
  }

  /** Python `s.split(c, n)`: at most `n` splits, the rest stays whole. */
  function SplitN(s: string, c: char, n: nat): (parts: seq<string>)
    ensures 1 <= |parts| <= n + 1
    decreases n
  {
    if n == 0 then [s]
    else
      match IndexOf(s, c)
      case None => [s]
      case Some(i) => [s[..i]] + SplitN(s[i + 1..], c, n - 1)
  }

  /** A string is its prefix, the character at `i` and its suffix. */
  lemma CutAt(s: string, i: nat)
    requires i < |s|
    ensures s == s[..i] + [s[i]] + s[i + 1..]
  {
  }

  /** One step of `s.split(c, n)` at the first separator. */
  lemma SplitStep(s: string, c: char, n: nat, i: nat)
    requires n > 0 && IndexOf(s, c) == Some(i)
    ensures SplitN(s, c, n) == [s[..i]] + SplitN(s[i + 1..], c, n - 1)
    ensures s == s[..i] + [c] + s[i + 1..] && c !in s[..i]
  {
    CutAt(s, i);
  }

  /** The shape of `s.split(c, 1)` with two parts. */
  lemma SplitOnce(s: string, c: char)
    requires |SplitN(s, c, 1)| == 2
    ensures var parts := SplitN(s, c, 1);
            s == parts[0] + [c] + parts[1] && c !in parts[0]
  {
    var i := IndexOf(s, c).value;
    SplitStep(s, c, 1, i);
    assert SplitN(s, c, 1) == [s[..i], s[i + 1..]];
  }

  /** The shape of `s.split(c, 2)` with three parts: the first two parts
      hold no separator. */
  lemma SplitTwice(s: string, c: char)
    requires |SplitN(s, c, 2)| == 3
    ensures var parts := SplitN(s, c, 2);
            s == parts[0] + [c] + parts[1] + [c] + parts[2] && c !in parts[0] && c !in parts[1]
  {
    var i := IndexOf(s, c).value;
    SplitStep(s, c, 2, i);
    var p0, t := s[..i], s[i + 1..];
    var rest := SplitN(t, c, 1);
    SplitOnce(t, c);
    var parts := SplitN(s, c, 2);
    assert parts == [p0] + rest;
    assert parts[0] == p0 && parts[1] == rest[0] && parts[2] == rest[1];
    Regroup(p0, c, rest[0], rest[1]);
  }

  /** Joining around a joined tail regroups freely. */
  lemma Regroup(a: string, c: char, x: string, y: string)
    ensures a + [c] + (x + [c] + y) == a + [c] + x + [c] + y
  {
  }

  lemma IndexOfJoin(a: string, c: char, b: string)
    requires c !in a
    ensures IndexOf(a + [c] + b, c) == Some(|a|)
  {
    var s := a + [c] + b;
    assert s[|a|] == c;
    assert s[..|a|] == a;
  }

  /** Splitting `a,b` at its only separator gives back `[a, b]`. */
  lemma SplitAllTwo(a: string, c: char, b: string)
    requires c !in a && c !in b
    ensures SplitAll(a + [c] + b, c) == [a, b]
  {
    var s := a + [c] + b;
    IndexOfJoin(a, c, b);
    assert s[..|a|] == a;
    assert s[|a| + 1..] == b;
  }

  /** Python `s.strip(cs)`: drop leading and trailing characters of `cs`. */
  function StripLeft(s: string, cs: set<char>): (r: string)
    ensures |r| <= |s|
    ensures |r| > 0 ==> r[0] !in cs
    ensures r == s[|s| - |r|..]
  {
    if |s| > 0 && s[0] in cs then StripLeft(s[1..], cs) else s
  }

  function StripRight(s: string, cs: set<char>): (r: string)
    ensures |r| <= |s|
    ensures |r| > 0 ==> r[|r| - 1] !in cs
    ensures r == s[..|r|]
  {
    if |s| > 0 && s[|s| - 1] in cs then StripRight(s[..|s| - 1], cs) else s
  }

  function Strip(s: string, cs: set<char>): string {
    StripRight(StripLeft(s, cs), cs)
  }

  /** Stripping leaves a string alone when neither end is to be stripped. */
  lemma StripNothing(s: string, cs: set<char>)
    requires |s| > 0 && s[0] !in cs && s[|s| - 1] !in cs
    ensures Strip(s, cs) == s
  {
  }

  /** Stripping `l t r` where `l` and `r` are to be stripped and neither end
      of `t` is gives back `t`. */
  lemma StripWrapped(l: char, t: string, r: char, cs: set<char>)
    requires l in cs && r in cs && |t| > 0 && t[0] !in cs && t[|t| - 1] !in cs
    ensures Strip([l] + t + [r], cs) == t
  {
    var s := [l] + t + [r];
    var u := t + [r];
    assert s[1..] == u && u[0] == t[0];
    assert StripLeft(u, cs) == u;
    assert StripLeft(s, cs) == u;
    assert u[..|u| - 1] == t && u[|u| - 1] == r;
    assert StripRight(t, cs) == t;
    assert StripRight(u, cs) == t;
  }

  /** A printed integer is made of digits and a leading minus sign. */
  lemma IntStringChars(n: int)
    ensures forall i :: 0 <= i < |IntToString(n)| ==> IntToString(n)[i] == '-' || IsDigit(IntToString(n)[i])
  {
    if n < 0 {
      var d := NatToString(-n);
      assert forall i :: 1 <= i < |IntToString(n)| ==> IntToString(n)[i] == d[i - 1];
    }
  }

  /** No printed integer holds a comma or a parenthesis. */
  lemma IntStringPlain(n: int)
    ensures ',' !in IntToString(n) && '(' !in IntToString(n) && ')' !in IntToString(n)
  {
    IntStringChars(n);
  }

  /** "(x,y)" with its parentheses stripped splits at the comma into the
      printed numbers. */
  lemma PairParts(x: int, y: int)
    ensures SplitAll(Strip("(" + IntToString(x) + "," + IntToString(y) + ")", {'(', ')'}), ',')
            == [IntToString(x), IntToString(y)]
  {
    var a := IntToString(x);
    var b := IntToString(y);
    IntStringPlain(x);
    IntStringPlain(y);
    var t := a + [','] + b;
    assert "(" + a + "," + b + ")" == ['('] + t + [')'];
    assert t[0] == a[0] && t[|t| - 1] == b[|b| - 1];
    StripWrapped('(', t, ')', {'(', ')'});
    SplitAllTwo(a, ',', b);
  }

  /** `s[i..i+|p|] == p`. */
  predicate OccursAt(s: string, p: string, i: nat) {
    i + |p| <= |s| && s[i..i + |p|] == p
  }

  /** First occurrence of `p` in `s` at or after `from` (C `strstr`). */
  function FindFrom(s: string, p: string, from: nat): (r: Option<nat>)
    ensures r.Some? ==> from <= r.value && OccursAt(s, p, r.value)
    ensures r.Some? ==> forall k :: from <= k < r.value ==> !OccursAt(s, p, k)
    ensures r.None? ==> forall k :: from <= k ==> !OccursAt(s, p, k)
    decreases |s| - from
  {
    if from + |p| > |s| then None
    else if s[from..from + |p|] == p then Some(from)
    else FindFrom(s, p, from + 1)
  }

  function Find(s: string, p: string): Option<nat> {
    FindFrom(s, p, 0)
  }

  /** An occurrence inside a middle part is an occurrence in the whole. */
  lemma OccursInside(a: string, t: string, b: string, p: string, i: nat)
    requires OccursAt(t, p, i)
    ensures OccursAt(a + t + b, p, |a| + i)
  {
    var s := a + t + b;
    assert s[|a| + i..|a| + i + |p|] == t[i..i + |p|];
  }

  /** Python `p in s`, C `strstr(s, p) != NULL`. */
  predicate Contains(s: string, p: string) {
    Find(s, p).Some?
  }

  /** Last index of `c` in `s` (C `strrchr`). */
  function LastIndexOf(s: string, c: char): (r: Option<nat>)
    ensures r.Some? ==> r.value < |s| && s[r.value] == c && c !in s[r.value + 1..]
    ensures r.None? ==> c !in s
  {
    if |s| == 0 then None
    else if s[|s| - 1] == c then Some(|s| - 1)
    else
      match LastIndexOf(s[..|s| - 1], c)
      case None => None
      case Some(i) =>
        assert s[i + 1..] == s[..|s| - 1][i + 1..] + [s[|s| - 1]];
        Some(i)
  }

  /** Python `s.startswith(p)`. */
  predicate StartsWith(s: string, p: string) {
    |p| <= |s| && s[..|p|] == p
  }
}
