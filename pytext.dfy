/**
 * The parts of Python's `str` that the size-string parser relies on:
 * `str.isspace`, `str.strip()` and `str.split()` with no separator, and
 * the plain decimal numerals that `float()` accepts.
 */
module PyText {

  /** Python's `str.isspace`: the characters that `strip()` and `split()` treat as whitespace. */
  predicate IsSpace(c: char) {
    || ('\t' <= c <= '\r')
    || ('\U{1C}' <= c <= '\U{1F}')
    || c == ' ' || c == '\U{85}' || c == '\U{A0}' || c == '\U{1680}'
    || ('\U{2000}' <= c <= '\U{200A}')
    || c == '\U{2028}' || c == '\U{2029}' || c == '\U{202F}' || c == '\U{205F}' || c == '\U{3000}'
  }

  predicate AllSpace(s: string) {
    forall i :: 0 <= i < |s| ==> IsSpace(s[i])
  }

  /** A piece that `split()` can return: non-empty and free of whitespace. */
  predicate IsToken(t: string) {
    |t| > 0 && forall i :: 0 <= i < |t| ==> !IsSpace(t[i])
  }

  /** How many whitespace characters `s` starts with: what `s.lstrip()` drops. */
  function LeadingSpaces(s: string): (k: nat)
    ensures k <= |s|
    ensures forall i :: 0 <= i < k ==> IsSpace(s[i])
    ensures k == |s| || !IsSpace(s[k])
  {
    if s != [] && IsSpace(s[0]) then 1 + LeadingSpaces(s[1..]) else 0
  }

  /** How many whitespace characters `s` ends with: what `s.rstrip()` drops. */
  function TrailingSpaces(s: string): (k: nat)
    ensures k <= |s|
    ensures forall i :: |s| - k <= i < |s| ==> IsSpace(s[i])
    ensures k == |s| || !IsSpace(s[|s| - 1 - k])
  {
    if s != [] && IsSpace(s[|s| - 1]) then 1 + TrailingSpaces(s[..|s| - 1]) else 0
  }

  /** `s.strip()`: drops the whitespace at both ends and nothing else. */
  function Strip(s: string): (r: string)
    ensures var a := LeadingSpaces(s);
              a + |r| <= |s| && r == s[a..a + |r|] && AllSpace(s[..a]) && AllSpace(s[a + |r|..])
    ensures r == [] || (!IsSpace(r[0]) && !IsSpace(r[|r| - 1]))
  {
    var t := s[LeadingSpaces(s)..];
    t[..|t| - TrailingSpaces(t)]
  }

  /** Stripping never changes what `split()` returns. */
  lemma {:induction false} StripKeepsTokens(s: string)
    ensures Split(Strip(s)) == Split(s)
  {
    var t := s[LeadingSpaces(s)..];
    SplitDropLeading(s, LeadingSpaces(s));
    SplitDropTrailing(t, |t| - TrailingSpaces(t));
  }

  /** Dropping whitespace from the front does not change the pieces. */
  lemma {:induction false} SplitDropLeading(s: string, k: nat)
    requires k <= |s|
    requires forall i :: 0 <= i < k ==> IsSpace(s[i])
    ensures Split(s[k..]) == Split(s)
  {
    if k > 0 {
      assert s[1..][k - 1..] == s[k..];
      SplitDropLeading(s[1..], k - 1);
    }
  }

  /** Dropping whitespace from the back does not change the pieces. */
  lemma {:induction false} SplitDropTrailing(s: string, k: nat)
    requires k <= |s|
    requires forall i :: k <= i < |s| ==> IsSpace(s[i])
    ensures Split(s[..k]) == Split(s)
    decreases |s|
  {
    if k == |s| {
      assert s[..k] == s;
    } else if k == 0 {
      SplitAllSpace(s);
    } else if IsSpace(s[0]) {
      assert s[..k][1..] == s[1..][..k - 1];
      SplitDropTrailing(s[1..], k - 1);
    } else {
      var n := TokenLen(s);
      assert IsSpace(s[k]);
      assert n <= k;
      var p := s[..k];
      assert forall i :: 0 <= i < n ==> p[i] == s[i];
      assert TokenLen(p) == n by {
        assert n < k ==> p[n] == s[n];
      }
      assert p[..n] == s[..n];
      assert p[n..] == s[n..][..k - n];
      SplitDropTrailing(s[n..], k - n);
    }
  }

  /** Length of the run of non-whitespace characters that starts `s`. */
  function TokenLen(s: string): (n: nat)
    ensures n <= |s|
    ensures forall i :: 0 <= i < n ==> !IsSpace(s[i])
    ensures n == |s| || IsSpace(s[n])
  {
    if s == [] || IsSpace(s[0]) then 0 else 1 + TokenLen(s[1..])
  }

  /** `s.split()`: the maximal runs of non-whitespace characters, in order. */
  function Split(s: string): (r: seq<string>)
    ensures forall k :: 0 <= k < |r| ==> IsToken(r[k])
    decreases |s|
  {
    if s == [] then []
    else if IsSpace(s[0]) then Split(s[1..])
    else
      var n := TokenLen(s);
      [s[..n]] + Split(s[n..])
  }

  lemma {:induction false} SplitAllSpace(w: string)
    requires AllSpace(w)
    ensures Split(w) == []
    decreases |w|
  {
    if w != [] {
      SplitAllSpace(w[1..]);
    }
  }

  /** Leading whitespace does not change the pieces. */
  lemma {:induction false} SplitSkipsLeading(w: string, x: string)
    requires AllSpace(w)
    ensures Split(w + x) == Split(x)
    decreases |w|
  {
    if w != [] {
      assert (w + x)[0] == w[0] && (w + x)[1..] == w[1..] + x;
      SplitSkipsLeading(w[1..], x);
    } else {
      assert w + x == x;
    }
  }

  /** A token followed by whitespace (or by nothing) is split off whole. */
  lemma {:induction false} SplitToken(t: string, rest: string)
    requires IsToken(t)
    requires rest == [] || IsSpace(rest[0])
    ensures Split(t + rest) == [t] + Split(rest)
  {
    var s := t + rest;
    var n := TokenLen(s);
    assert forall i :: 0 <= i < |t| ==> s[i] == t[i];
    assert rest != [] ==> s[|t|] == rest[0];
    assert n == |t|;
    assert s[..n] == t;
    assert s[n..] == rest;
  }

  /**
   * Text made of two tokens, with whitespace between them and optional
   * whitespace around them, splits into exactly those two tokens.
   */
  lemma {:induction false} SplitTwoTokens(lead: string, a: string, gap: string, b: string, trail: string)
    requires AllSpace(lead) && AllSpace(gap) && AllSpace(trail) && |gap| > 0
    requires IsToken(a) && IsToken(b)
    ensures Split(lead + a + gap + b + trail) == [a, b]
  {
    var afterB := b + trail;
    var afterA := gap + afterB;
    var fromA := a + afterA;
    assert lead + a + gap + b + trail == lead + fromA;
    SplitSkipsLeading(lead, fromA);
    assert afterA[0] == gap[0];
    SplitToken(a, afterA);
    SplitSkipsLeading(gap, afterB);
    assert trail == [] || IsSpace(trail[0]);
    SplitToken(b, trail);
    SplitAllSpace(trail);
  }

  predicate IsDigit(c: char) {
    '0' <= c <= '9'
  }

  /** A plain decimal numeral: one or more ASCII digits. */
  predicate IsNumeral(t: string) {
    |t| > 0 && forall i :: 0 <= i < |t| ==> IsDigit(t[i])
  }

  function DigitValue(c: char): (d: nat)
    requires IsDigit(c)
    ensures d < 10
  {
    c as int - '0' as int
  }

  /** The natural number a string of digits denotes (leading zeros allowed). */
  function NumeralValue(t: string): nat
    requires forall i :: 0 <= i < |t| ==> IsDigit(t[i])
  {
    if t == [] then 0 else NumeralValue(t[..|t| - 1]) * 10 + DigitValue(t[|t| - 1])
  }

  function DigitChar(d: nat): (c: char)
    requires d < 10
    ensures IsDigit(c) && DigitValue(c) == d
  {
    ('0' as int + d) as char
  }

  /** The decimal numeral of `n`, without leading zeros. */
  function ShowNat(n: nat): (t: string)
    ensures IsNumeral(t)
  {
    (if n < 10 then [] else ShowNat(n / 10)) + [DigitChar(n % 10)]
  }

  /** Reading back the numeral of `n` gives `n`. */
  lemma {:induction false} NumeralRoundTrip(n: nat)
    ensures NumeralValue(ShowNat(n)) == n
  {
    var t := ShowNat(n);
    var front := if n < 10 then [] else ShowNat(n / 10);
    assert t[..|t| - 1] == front;
    if n >= 10 {
      NumeralRoundTrip(n / 10);
    }
  }
}
