/**
 * The few pieces of Python's text and number built-ins the core relies on:
 * `int(str)`, `str(int)`, zero-padded `%02d`-style fields, slicing with
 * negative or out-of-range indices, ASCII `str.upper`, `str.replace`,
 * `int(float)` and `round(x, 0)`.
 */
module Text {
  import opened Wrappers

  predicate IsDigit(c: char) { '0' <= c <= '9' }
  predicate IsUpper(c: char) { 'A' <= c <= 'Z' }

  predicate AllDigits(s: string) {
    forall k | 0 <= k < |s| :: IsDigit(s[k])
  }

  function DigitValue(c: char): nat
    requires IsDigit(c)
  {
    c as int - '0' as int
  }

  function DigitChar(n: nat): (c: char)
    requires n < 10
    ensures IsDigit(c) && DigitValue(c) == n
  {
    ('0' as int + n) as char
  }

  /** The decimal value of a string of digits, read most significant first. */
  function DigitsValue(s: string): nat
    requires AllDigits(s)
  {
    if s == [] then 0 else DigitsValue(s[..|s| - 1]) * 10 + DigitValue(s[|s| - 1])
  }

  /**
   * Python's `int(s)` on text: an optional sign followed by at least one
   * decimal digit; anything else raises `ValueError`, modelled as `None`.
   */
  function ParseInt(s: string): Option<int> {
    if |s| > 0 && (s[0] == '-' || s[0] == '+') then
      if |s| > 1 && AllDigits(s[1..]) then
        var v: int := DigitsValue(s[1..]);
        Some(if s[0] == '-' then -v else v)
      else None
    else if |s| > 0 && AllDigits(s) then Some(DigitsValue(s))
    else None
  }

  /** Python's `str(n)` for a natural number. */
  function NatToString(n: nat): (s: string)
    ensures |s| > 0 && AllDigits(s)
  {
    if n < 10 then [DigitChar(n)] else NatToString(n / 10) + [DigitChar(n % 10)]
  }

  /** Python's `str(i)` for any integer. */
  function IntToString(i: int): (s: string)
    ensures |s| > 0
  {
    if i < 0 then "-" + NatToString(-i) else NatToString(i)
  }

  /** A number below 100 written as exactly two digits (`%02d`, `%y`, `%d`). */
  function Pad2(n: nat): (s: string)
    requires n < 100
    ensures |s| == 2 && AllDigits(s)
  {
    [DigitChar(n / 10), DigitChar(n % 10)]
  }

  lemma {:induction false} NatToStringValue(n: nat)
    ensures DigitsValue(NatToString(n)) == n
    decreases n
  {
    var s := NatToString(n);
    if n >= 10 {
      NatToStringValue(n / 10);
      assert s[..|s| - 1] == NatToString(n / 10);
    } else {
      assert s[..|s| - 1] == [];
    }
  }

  /** `int(str(i)) == i`: reading back a printed integer gives it again. */
  lemma IntToStringRoundTrip(i: int)
    ensures ParseInt(IntToString(i)) == Some(i)
  {
    var s := IntToString(i);
    if i < 0 {
      NatToStringValue(-i);
      assert s[1..] == NatToString(-i);
    } else {
      NatToStringValue(i);
      assert IsDigit(s[0]);
    }
  }

  /** A two-digit field reads back as its number (`int("09") == 9`). */
  lemma Pad2RoundTrip(n: nat)
    requires n < 100
    ensures ParseInt(Pad2(n)) == Some(n)
  {
    var s := Pad2(n);
    assert s[..1] == [DigitChar(n / 10)];
    assert s[..1][..0] == [];
    assert DigitsValue(s[..1]) == n / 10;
    assert DigitsValue(s) == (n / 10) * 10 + n % 10;
  }

  /** Python's normalisation of one slice bound against a length. */
  function SliceBound(n: nat, i: int): (r: nat)
    ensures r <= n
  {
    if i < 0 then (if n + i < 0 then 0 else n + i) else if i > n then n else i
  }

  /** Python's `s[i:j]`: negative bounds count from the end, bounds are clamped. */
  function PySlice(s: string, i: int, j: int): (r: string)
    ensures |r| <= |s|
  {
    var a := SliceBound(|s|, i);
    var b := SliceBound(|s|, j);
    if a < b then s[a..b] else []
  }

  /** Python's `s[-2:]`: the last two characters, or all of a shorter string. */
  function LastTwo(s: string): (r: string)
    ensures r == PySlice(s, -2, |s|)
    ensures |s| >= 2 ==> r == s[|s| - 2..]
  {
    if |s| >= 2 then s[|s| - 2..] else s
  }

  function UpperChar(c: char): (u: char)
    ensures !('a' <= u <= 'z')
  {
    if 'a' <= c <= 'z' then (c as int - 32) as char else c
  }

  /** `str.upper` restricted to the ASCII letters. */
  function Upper(s: string): (r: string)
    ensures |r| == |s|
    ensures forall k | 0 <= k < |s| :: r[k] == UpperChar(s[k])
  {
    if s == [] then [] else [UpperChar(s[0])] + Upper(s[1..])
  }

  /** Python's `s.replace(pat, rep)`: every occurrence, left to right, without overlaps. */
  function Replace(s: string, pat: string, rep: string): string
    requires |pat| > 0
    decreases |s|
  {
    if |s| < |pat| then s
    else if MatchesAt(s, pat, 0) then rep + Replace(s[|pat|..], pat, rep)
    else [s[0]] + Replace(s[1..], pat, rep)
  }

  /** Replacing a pattern by itself changes nothing. */
  lemma {:induction false} ReplaceSelf(s: string, pat: string)
    requires |pat| > 0
    ensures Replace(s, pat, pat) == s
    decreases |s|
  {
    if |s| < |pat| {
    } else if MatchesAt(s, pat, 0) {
      ReplaceSelf(s[|pat|..], pat);
      assert pat + s[|pat|..] == s;
    } else {
      ReplaceSelf(s[1..], pat);
      assert [s[0]] + s[1..] == s;
    }
  }

  /** An occurrence of `pat` starts at index `i` of `s`. */
  predicate MatchesAt(s: string, pat: string, i: nat) {
    i + |pat| <= |s| && s[i..i + |pat|] == pat
  }

  /** No occurrence of `pat` starts before index `k` of `s`. */
  predicate NoMatchBefore(s: string, pat: string, k: nat) {
    forall i: nat | i < k :: !MatchesAt(s, pat, i)
  }

  /**
   * When no occurrence of the pattern starts before `k`, replacing leaves the
   * first `k` characters alone and only rewrites the rest.
   */
  lemma {:induction false} ReplaceSkipsPrefix(s: string, k: nat, pat: string, rep: string)
    requires |pat| > 0 && k <= |s|
    requires NoMatchBefore(s, pat, k)
    ensures Replace(s, pat, rep) == s[..k] + Replace(s[k..], pat, rep)
  {
    if k == 0 {
      assert s[..0] == [] && s[0..] == s;
    } else if |s| < |pat| {
      assert s[..k] + s[k..] == s;
    } else {
      assert !MatchesAt(s, pat, 0);
      NoMatchBeforeTail(s, pat, k);
      ReplaceSkipsPrefix(s[1..], k - 1, pat, rep);
      ReplaceKeepsHead(s, k, pat, rep);
    }
  }

  /** Without an occurrence at the start, replacing keeps the first character and carries on after it. */
  lemma ReplaceKeepsHead(s: string, k: nat, pat: string, rep: string)
    requires |pat| > 0 && 0 < k <= |s| && |pat| <= |s| && !MatchesAt(s, pat, 0)
    requires Replace(s[1..], pat, rep) == s[1..][..k - 1] + Replace(s[1..][k - 1..], pat, rep)
    ensures Replace(s, pat, rep) == s[..k] + Replace(s[k..], pat, rep)
  {
    ReplaceCons(s, pat, rep);
    HeadSplit(s, k, Replace(s[k..], pat, rep));
  }

  lemma ReplaceCons(s: string, pat: string, rep: string)
    requires |pat| > 0 && |pat| <= |s| && !MatchesAt(s, pat, 0)
    ensures Replace(s, pat, rep) == [s[0]] + Replace(s[1..], pat, rep)
  {
  }

  lemma HeadSplit(s: string, k: nat, x: string)
    requires 0 < k <= |s|
    ensures s[1..][k - 1..] == s[k..]
    ensures [s[0]] + (s[1..][..k - 1] + x) == s[..k] + x
  {
    assert [s[0]] + s[1..][..k - 1] == s[..k];
  }

  /** Dropping the first character shifts the occurrence-free prefix by one. */
  lemma NoMatchBeforeTail(s: string, pat: string, k: nat)
    requires 0 < k <= |s| && NoMatchBefore(s, pat, k)
    ensures NoMatchBefore(s[1..], pat, k - 1)
  {
    var t := s[1..];
    forall i: nat | i < k - 1
      ensures !MatchesAt(t, pat, i)
    {
      assert !MatchesAt(s, pat, i + 1);
      if i + |pat| <= |t| {
        assert t[i..i + |pat|] == s[i + 1..i + 1 + |pat|];
      }
    }
  }

  /** Replacement on a string that starts with the pattern and is otherwise too short to hold it. */
  lemma ReplaceWholePrefix(pat: string, tail: string, rep: string)
    requires |pat| > 0 && |tail| < |pat|
    ensures Replace(pat + tail, pat, rep) == rep + tail
  {
    var s := pat + tail;
    assert s[0..0 + |pat|] == pat;
    assert s[|pat|..] == tail;
  }

  /** Python's `int(x)` on a float: truncation toward zero. */
  function Trunc(x: real): (r: int)
    ensures x >= 0.0 ==> r as real <= x < r as real + 1.0
    ensures x < 0.0 ==> r as real - 1.0 < x <= r as real
  {
    if x >= 0.0 then x.Floor else -((-x).Floor)
  }

  /** Python's `round(x)` / `round(x, 0)`: nearest integer, ties to the even neighbour. */
  function RoundHalfEven(x: real): (r: int)
    ensures x - 0.5 <= r as real <= x + 0.5
    ensures r as real - x == 0.5 || x - r as real == 0.5 ==> r % 2 == 0
  {
    var f := x.Floor;
    var d := x - f as real;
    if d < 0.5 then f
    else if d > 0.5 then f + 1
    else if f % 2 == 0 then f
    else f + 1
  }
}
