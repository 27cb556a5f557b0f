/** The few string operations of the source that its logic depends on:
    splitting on a separator, stripping whitespace, counting a marker,
    and reading and writing decimal numbers. Each follows the behaviour of
    the corresponding Python `str` operation on the inputs the model gives it. */
module TextOps {

  datatype Option<T> = None | Some(value: T)

  /** The characters Python's `str.strip()` removes (those for which
      `str.isspace()` holds). */
  predicate IsSpace(c: char)
  {
    || c == ' '
    || '\U{0009}' <= c <= '\U{000D}'
    || '\U{001C}' <= c <= '\U{001F}'
    || c == '\U{0085}' || c == '\U{00A0}' || c == '\U{1680}'
    || '\U{2000}' <= c <= '\U{200A}'
    || c == '\U{2028}' || c == '\U{2029}' || c == '\U{202F}'
    || c == '\U{205F}' || c == '\U{3000}'
  }

  function StripLeft(s: string): string
  {
    if s != [] && IsSpace(s[0]) then StripLeft(s[1..]) else s
  }

  function StripRight(s: string): string
  {
    if s != [] && IsSpace(s[|s| - 1]) then StripRight(s[..|s| - 1]) else s
  }

  /** `s.strip()`: leading and trailing whitespace removed. */
  function Strip(s: string): string
  {
    StripRight(StripLeft(s))
  }

  /** `not s.strip()`: the line holds nothing but whitespace. */
  predicate IsBlank(s: string)
  {
    Strip(s) == []
  }

  lemma {:induction false} StripLeftEmpty(s: string)
    ensures StripLeft(s) == [] <==> forall i :: 0 <= i < |s| ==> IsSpace(s[i])
  {
    if s != [] && IsSpace(s[0]) {
      StripLeftEmpty(s[1..]);
      assert forall i :: 1 <= i < |s| ==> s[i] == s[1..][i - 1];
    }
  }

  lemma {:induction false} StripRightEmpty(s: string)
    ensures StripRight(s) == [] <==> forall i :: 0 <= i < |s| ==> IsSpace(s[i])
  {
    if s != [] && IsSpace(s[|s| - 1]) {
      StripRightEmpty(s[..|s| - 1]);
      assert forall i :: 0 <= i < |s| - 1 ==> s[i] == s[..|s| - 1][i];
    }
  }

  /** A line is skipped by the parser exactly when every character of it is whitespace. */
  lemma {:induction false} BlankIffAllSpace(s: string)
    ensures IsBlank(s) <==> forall i :: 0 <= i < |s| ==> IsSpace(s[i])
  {
    StripLeftEmpty(s);
    StripLeftStopsAtText(s);
    var l := StripLeft(s);
    StripRightEmpty(l);
    assert forall i :: 0 <= i < |l| ==> l[i] == s[|s| - |l| + i];
  }

  lemma {:induction false} StripLeftStopsAtText(s: string)
    ensures |StripLeft(s)| <= |s| && StripLeft(s) == s[|s| - |StripLeft(s)|..]
    ensures StripLeft(s) != [] ==> !IsSpace(StripLeft(s)[0])
  {
    if s != [] && IsSpace(s[0]) {
      StripLeftStopsAtText(s[1..]);
    }
  }

  /** Stripping a single leading blank from an already stripped word gives the word back. */
  lemma {:induction false} StripSpaceWord(w: string)
    requires w != [] && !IsSpace(w[0]) && !IsSpace(w[|w| - 1])
    ensures Strip(" " + w) == w
  {
    var s := " " + w;
    assert s[0] == ' ' && IsSpace(s[0]);
    assert s[1..] == w;
    assert StripLeft(s) == StripLeft(w);
    assert StripLeft(w) == w;
    assert StripRight(w) == w;
  }

  /** Python's `s.split(sep)` for a non-empty separator: the fields between
      the non-overlapping occurrences of `sep`, found from left to right. */
  function Split(s: string, sep: string): (r: seq<string>)
    requires sep != []
    ensures |r| >= 1
  {
    SplitFrom(s, sep, [])
  }

  /** Splitting `s` when the text `field` has already been read into the current field. */
  function SplitFrom(s: string, sep: string, field: string): (r: seq<string>)
    requires sep != []
    ensures |r| >= 1
    decreases |s|
  {
    if |s| == 0 then [field]
    else if |sep| <= |s| && s[..|sep|] == sep then [field] + SplitFrom(s[|sep|..], sep, [])
    else SplitFrom(s[1..], sep, field + [s[0]])
  }

  function Last<T>(xs: seq<T>): T
    requires xs != []
  {
    xs[|xs| - 1]
  }

  /** Text in which the separator cannot start is one field. */
  lemma {:induction false} SplitWithoutSeparator(s: string, sep: string, field: string)
    requires sep != [] && sep[0] !in s
    ensures SplitFrom(s, sep, field) == [field + s]
  {
    if s == [] {
      assert field + s == field;
    } else {
      assert s[0] != sep[0];
      assert |sep| <= |s| ==> s[..|sep|][0] != sep[0];
      SplitWithoutSeparator(s[1..], sep, field + [s[0]]);
      assert field + [s[0]] + s[1..] == field + s;
    }
  }

  /** `pat` occurs in `s` starting at position `k`. */
  predicate OccursAt(s: string, pat: string, k: nat)
  {
    k + |pat| <= |s| && s[k..k + |pat|] == pat
  }

  /** `pat in s`: `pat` occurs in `s` at some position. */
  predicate Contains(s: string, pat: string)
  {
    exists k: nat | k <= |s| :: OccursAt(s, pat, k)
  }

  /** A text that does not contain `pat` has a tail that does not either. */
  lemma NotContainsTail(s: string, pat: string)
    requires s != [] && !Contains(s, pat)
    ensures !Contains(s[1..], pat)
  {
    forall k: nat | k + |pat| <= |s| - 1
      ensures !OccursAt(s[1..], pat, k)
    {
      assert s[1..][k..k + |pat|] == s[k + 1..k + 1 + |pat|];
      assert !OccursAt(s, pat, k + 1);
    }
  }

  /** Putting in front of `s` text in which `pat` cannot start adds no occurrence of `pat`. */
  lemma NotContainsAfter(p: string, s: string, pat: string)
    requires pat != [] && pat[0] !in p && !Contains(s, pat)
    ensures !Contains(p + s, pat)
  {
    forall k: nat | k + |pat| <= |p + s|
      ensures !OccursAt(p + s, pat, k)
    {
      if k < |p| {
        assert (p + s)[k..k + |pat|][0] == p[k] != pat[0];
      } else {
        assert (p + s)[k..k + |pat|] == s[k - |p|..k - |p| + |pat|];
        assert !OccursAt(s, pat, k - |p|);
      }
    }
  }

  /** Text in which the separator does not occur is one field. */
  lemma {:induction false} SplitWithoutOccurrence(s: string, sep: string, field: string)
    requires sep != [] && !Contains(s, sep)
    ensures SplitFrom(s, sep, field) == [field + s]
    decreases |s|
  {
    if s == [] {
      assert field + s == field;
    } else {
      assert !OccursAt(s, sep, 0);
      NotContainsTail(s, sep);
      SplitWithoutOccurrence(s[1..], sep, field + [s[0]]);
      assert field + [s[0]] + s[1..] == field + s;
    }
  }

  /** The first field ends at the first separator when nothing before it can start one. */
  lemma {:induction false} SplitAtFirst(a: string, sep: string, b: string, field: string)
    requires sep != [] && sep[0] !in a
    ensures SplitFrom(a + sep + b, sep, field) == [field + a] + SplitFrom(b, sep, [])
  {
    var s := a + sep + b;
    if a == [] {
      assert s == sep + b;
      assert s[..|sep|] == sep && s[|sep|..] == b;
      assert field + a == field;
    } else {
      assert s[0] == a[0] != sep[0];
      assert s[1..] == a[1..] + sep + b;
      SplitAtFirst(a[1..], sep, b, field + [a[0]]);
      assert field + [a[0]] + a[1..] == field + a;
    }
  }

  /** `sep.join(xs)`. */
  function Join(xs: seq<string>, sep: string): string
    requires xs != []
  {
    if |xs| == 1 then xs[0] else xs[0] + sep + Join(xs[1..], sep)
  }

  /** Splitting joined text on a one-character separator that no part contains gives the parts back. */
  lemma {:induction false} SplitJoin(xs: seq<string>, c: char)
    requires xs != [] && forall i :: 0 <= i < |xs| ==> c !in xs[i]
    ensures Split(Join(xs, [c]), [c]) == xs
  {
    if |xs| == 1 {
      SplitWithoutSeparator(xs[0], [c], []);
      assert [] + xs[0] == xs[0];
    } else {
      SplitAtFirst(xs[0], [c], Join(xs[1..], [c]), []);
      SplitJoin(xs[1..], c);
      assert [] + xs[0] == xs[0];
      assert xs == [xs[0]] + xs[1..];
    }
  }

  /** Python's `s.count(pat)`: non-overlapping occurrences, counted left to right. */
  function CountOccurrences(s: string, pat: string): nat
    requires pat != []
    decreases |s|
  {
    if |s| < |pat| then 0
    else if s[..|pat|] == pat then 1 + CountOccurrences(s[|pat|..], pat)
    else CountOccurrences(s[1..], pat)
  }

  lemma {:induction false} CountWithoutOccurrence(s: string, pat: string)
    requires pat != [] && !Contains(s, pat)
    ensures CountOccurrences(s, pat) == 0
    decreases |s|
  {
    if |s| >= |pat| {
      assert !OccursAt(s, pat, 0);
      NotContainsTail(s, pat);
      CountWithoutOccurrence(s[1..], pat);
    }
  }

  lemma CountAfterPattern(pat: string, s: string)
    requires pat != []
    ensures CountOccurrences(pat + s, pat) == 1 + CountOccurrences(s, pat)
  {
    assert (pat + s)[..|pat|] == pat && (pat + s)[|pat|..] == s;
  }

  /** `s * n` for a string `s`. */
  function Repeat(s: string, n: nat): (r: string)
    ensures |r| == n * |s|
  {
    if n == 0 then [] else s + Repeat(s, n - 1)
  }

  lemma {:induction false} RepeatChars(s: string, n: nat, c: char)
    requires c !in s
    ensures c !in Repeat(s, n)
  {
    if n > 0 {
      RepeatChars(s, n - 1, c);
    }
  }

  lemma {:induction false} CountRepeated(pat: string, n: nat, rest: string)
    requires pat != [] && !Contains(rest, pat)
    ensures CountOccurrences(Repeat(pat, n) + rest, pat) == n
  {
    if n == 0 {
      assert Repeat(pat, n) + rest == rest;
      CountWithoutOccurrence(rest, pat);
    } else {
      assert Repeat(pat, n) + rest == pat + (Repeat(pat, n - 1) + rest);
      CountAfterPattern(pat, Repeat(pat, n - 1) + rest);
      CountRepeated(pat, n - 1, rest);
    }
  }

  // Decimal numbers

  predicate IsDigit(c: char)
  {
    '0' <= c <= '9'
  }

  predicate AllDigits(s: string)
  {
    forall i :: 0 <= i < |s| ==> IsDigit(s[i])
  }

  function DigitChar(d: nat): (c: char)
    requires d < 10
    ensures IsDigit(c)
  {
    (('0' as int) + d) as char
  }

  function DigitValue(c: char): nat
    requires IsDigit(c)
  {
    (c as int) - ('0' as int)
  }

  /** `str(n)` for a natural number: its decimal digits, without leading zeros. */
  function Decimal(n: nat): (s: string)
    ensures |s| >= 1 && AllDigits(s)
  {
    if n < 10 then [DigitChar(n)] else Decimal(n / 10) + [DigitChar(n % 10)]
  }

  /** The number a string of decimal digits denotes. */
  function DigitsValue(s: string): nat
    requires AllDigits(s)
  {
    if s == [] then 0 else DigitsValue(s[..|s| - 1]) * 10 + DigitValue(s[|s| - 1])
  }

  /** Python's `int(s)` on text made of decimal digits; `None` where `int` raises. */
  function ParseDecimal(s: string): Option<nat>
  {
    if s != [] && AllDigits(s) then Some(DigitsValue(s)) else None
  }

  lemma {:induction false} DecimalRoundTrip(n: nat)
    ensures DigitsValue(Decimal(n)) == n
  {
    if n >= 10 {
      DecimalRoundTrip(n / 10);
      var s := Decimal(n);
      assert s[..|s| - 1] == Decimal(n / 10);
    }
  }

  /** Leading zeros do not change the value of a digit string. */
  lemma {:induction false} LeadingZeros(k: nat, s: string)
    requires AllDigits(s)
    ensures AllDigits(Repeat("0", k) + s)
    ensures DigitsValue(Repeat("0", k) + s) == DigitsValue(s)
  {
    var z := Repeat("0", k);
    assert forall i :: 0 <= i < |z| ==> z[i] == '0' by {
      RepeatZeros(k);
    }
    if s == [] {
      assert z + s == z;
      ZerosValue(k);
    } else {
      LeadingZeros(k, s[..|s| - 1]);
      assert (z + s)[..|z + s| - 1] == z + s[..|s| - 1];
    }
  }

  lemma {:induction false} RepeatZeros(k: nat)
    ensures forall i :: 0 <= i < k ==> Repeat("0", k)[i] == '0'
  {
    if k > 0 {
      RepeatZeros(k - 1);
      assert forall i :: 1 <= i < k ==> Repeat("0", k)[i] == Repeat("0", k - 1)[i - 1];
    }
  }

  lemma {:induction false} ZerosValue(k: nat)
    ensures AllDigits(Repeat("0", k)) && DigitsValue(Repeat("0", k)) == 0
  {
    RepeatZeros(k);
    if k > 0 {
      var z := Repeat("0", k);
      assert z[..k - 1] == Repeat("0", k - 1) by {
        RepeatZeros(k - 1);
      }
      ZerosValue(k - 1);
    }
  }

  function Pow10(k: nat): nat
  {
    if k == 0 then 1 else 10 * Pow10(k - 1)
  }

  /** `str(n)` has at most `k` digits exactly when `n < 10^k`. */
  lemma {:induction false} DecimalLength(n: nat, k: nat)
    requires k >= 1
    ensures |Decimal(n)| <= k <==> n < Pow10(k)
  {
    if n >= 10 {
      if k == 1 {
        assert Pow10(1) == 10;
        assert |Decimal(n)| == |Decimal(n / 10)| + 1 >= 2;
      } else {
        DecimalLength(n / 10, k - 1);
      }
    } else {
      Pow10Positive(k);
    }
  }

  lemma {:induction false} Pow10Positive(k: nat)
    ensures Pow10(k) >= 10 || k == 0
  {
    if k > 1 {
      Pow10Positive(k - 1);
    }
  }
}
