/** Option values, used for the parser's `null` result and for absent capture groups. */
module Options {
  datatype Option<+T> = None | Some(value: T)
}

/**
 * Character classes and decimal numbers as JavaScript's regular expressions,
 * `parseInt` and `Number.prototype.toString` see them on ASCII text.
 */
module Text {

  /** `\d`: an ASCII decimal digit. */
  predicate IsDigit(c: char) {
    '0' <= c <= '9'
  }

  /** `\w`: an ASCII letter, digit or underscore. */
  predicate IsWordChar(c: char) {
    'a' <= c <= 'z' || 'A' <= c <= 'Z' || IsDigit(c) || c == '_'
  }

  /** The two repeated classes of the file-name pattern: `\d+` and `\w+`. */
  datatype CharClass = Digits | WordChars

  predicate InClass(c: char, k: CharClass) {
    match k
    case Digits => IsDigit(c)
    case WordChars => IsWordChar(c)
  }

  predicate AllIn(s: string, k: CharClass) {
    forall m :: 0 <= m < |s| ==> InClass(s[m], k)
  }

  /** `t` occurs in `s` starting at index `i`, compared character by character. */
  predicate PrefixAt(s: string, i: nat, t: string)
    decreases |t|
  {
    if t == [] then i <= |s| else i < |s| && s[i] == t[0] && PrefixAt(s, i + 1, t[1..])
  }

  /** `PrefixAt` is a comparison with the slice of the same length. */
  lemma PrefixAtSlice(s: string, i: nat, t: string)
    ensures PrefixAt(s, i, t) <==> i + |t| <= |s| && s[i..i + |t|] == t
    decreases |t|
  {
    if t != [] {
      PrefixAtSlice(s, i + 1, t[1..]);
      if i + |t| <= |s| {
        assert s[i..i + |t|] == [s[i]] + s[i + 1..i + 1 + |t[1..]|];
        assert t == [t[0]] + t[1..];
      }
    }
  }

  /** A character of an occurrence. */
  lemma PrefixAtChar(s: string, i: nat, t: string, k: nat)
    requires PrefixAt(s, i, t) && k < |t|
    ensures i + |t| <= |s| && s[i + k] == t[k]
  {
    PrefixAtSlice(s, i, t);
    assert s[i..i + |t|][k] == s[i + k];
  }

  /**
   * End of the longest run of `k` characters that starts at `i`: what a
   * greedy `\d+` or `\w+` consumes (the run is empty when `s[i]` is not in `k`).
   */
  function RunEnd(s: string, i: nat, k: CharClass): (j: nat)
    requires i <= |s|
    ensures i <= j <= |s|
    ensures forall m :: i <= m < j ==> InClass(s[m], k)
    ensures j < |s| ==> !InClass(s[j], k)
    decreases |s| - i
  {
    if i < |s| && InClass(s[i], k) then RunEnd(s, i + 1, k) else i
  }

  /** A run is determined by where it starts: any maximal run from `i` ends at `RunEnd`. */
  lemma RunEndAt(s: string, i: nat, j: nat, k: CharClass)
    requires i <= j <= |s|
    requires forall m :: i <= m < j ==> InClass(s[m], k)
    requires j < |s| ==> !InClass(s[j], k)
    ensures RunEnd(s, i, k) == j
  {
  }

  /** `PrefixAt` splits along a concatenation. */
  lemma PrefixAtConcat(s: string, i: nat, a: string, b: string)
    requires PrefixAt(s, i, a + b)
    ensures PrefixAt(s, i, a) && PrefixAt(s, i + |a|, b)
  {
    PrefixAtSlice(s, i, a + b);
    PrefixAtSlice(s, i, a);
    PrefixAtSlice(s, i + |a|, b);
    assert s[i..i + |a|] == (a + b)[..|a|];
    assert s[i + |a|..i + |a| + |b|] == (a + b)[|a|..];
  }

  /** Two adjacent occurrences make an occurrence of the concatenation. */
  lemma PrefixAtJoin(s: string, i: nat, a: string, b: string)
    requires PrefixAt(s, i, a) && PrefixAt(s, i + |a|, b)
    ensures PrefixAt(s, i, a + b)
  {
    PrefixAtSlice(s, i, a + b);
    PrefixAtSlice(s, i, a);
    PrefixAtSlice(s, i + |a|, b);
    assert s[i..i + |a| + |b|] == s[i..i + |a|] + s[i + |a|..i + |a| + |b|];
  }

  /** The value of one decimal digit. */
  function DigitValue(c: char): (v: nat)
    requires IsDigit(c)
    ensures v < 10
  {
    c as int - '0' as int
  }

  /** The digit that stands for `v`. */
  function DigitChar(v: nat): (c: char)
    requires v < 10
    ensures IsDigit(c) && DigitValue(c) == v
  {
    ('0' as int + v) as char
  }

  /** `parseInt` of a non-empty string of decimal digits (leading zeros allowed, as in `parseInt("060")`). */
  function DecimalValue(s: string): nat
    requires AllIn(s, Digits)
  {
    if s == [] then 0 else DecimalValue(s[..|s| - 1]) * 10 + DigitValue(s[|s| - 1])
  }

  /**
   * The product of two counts, itself a count. Kept as a function so that
   * the product of two digit-string values stays one term in the proofs
   * about the expected size, instead of a nonlinear product.
   */
  function Times(a: nat, b: nat): nat {
    a * b
  }

  /** A decimal numeral without leading zeros, as `toString` writes one. */
  predicate Canonical(s: string) {
    |s| > 0 && AllIn(s, Digits) && (|s| > 1 ==> s[0] != '0')
  }

  /** `n.toString()` for a natural number `n`. */
  function NatToDecimal(n: nat): (r: string)
    ensures Canonical(r)
    ensures DecimalValue(r) == n
  {
    if n < 10 then [DigitChar(n)]
    else
      var r := NatToDecimal(n / 10) + [DigitChar(n % 10)];
      assert r[..|r| - 1] == NatToDecimal(n / 10);
      r
  }

  /** A canonical numeral is what `toString` writes for its own value. */
  lemma {:induction false} DecimalRoundTrip(s: string)
    requires Canonical(s)
    ensures NatToDecimal(DecimalValue(s)) == s
  {
    if |s| > 1 {
      var front := s[..|s| - 1];
      assert Canonical(front) by {
        assert front[0] == s[0];
        assert forall m :: 0 <= m < |front| ==> front[m] == s[m];
      }
      DecimalRoundTrip(front);
      LeadingDigitBound(front);
      var n := DecimalValue(s);
      assert n / 10 == DecimalValue(front) && n % 10 == DigitValue(s[|s| - 1]);
      assert DigitChar(n % 10) == s[|s| - 1];
      assert s == front + [s[|s| - 1]];
    } else {
      assert DigitChar(DigitValue(s[0])) == s[0];
      assert s == [s[0]];
    }
  }

  /** A numeral without a leading zero of two or more digits stands for at least 10. */
  lemma {:induction false} LeadingDigitBound(s: string)
    requires Canonical(s)
    ensures |s| > 1 ==> DecimalValue(s) >= 10
    ensures DecimalValue(s) > 0 || s == "0"
  {
    if |s| > 1 {
      var front := s[..|s| - 1];
      assert Canonical(front) by {
        assert front[0] == s[0];
        assert forall m :: 0 <= m < |front| ==> front[m] == s[m];
      }
      LeadingDigitBound(front);
      assert front[0] == s[0];
    } else {
      assert s == [s[0]];
    }
  }

  /** ASCII `toLowerCase` of one character. */
  function LowerChar(c: char): char {
    if 'A' <= c <= 'Z' then (c as int + 32) as char else c
  }

  /** `toLowerCase` on ASCII text. */
  function Lower(s: string): (r: string)
    ensures |r| == |s|
    ensures forall m :: 0 <= m < |s| ==> r[m] == LowerChar(s[m])
  {
    seq(|s|, m requires 0 <= m < |s| => LowerChar(s[m]))
  }

  /** `s.includes(t)`: `t` occurs in `s` at index `i` or later. */
  predicate IncludesFrom(s: string, t: string, i: nat)
    requires i <= |s|
    decreases |s| - i
  {
    PrefixAt(s, i, t) || (i < |s| && IncludesFrom(s, t, i + 1))
  }

  /** `s.includes(t)` */
  predicate Includes(s: string, t: string) {
    IncludesFrom(s, t, 0)
  }
}
