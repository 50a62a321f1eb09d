/**
 * Decimal digits as the resolver reads and writes them: the digit strings
 * that `strconv.Atoi` parses out of a `{n}` placeholder, and the decimal text
 * that `fmt.Sprint` produces for an integer argument.
 */
module Decimal {
  import opened Wrappers

  /** The largest value of Go's `int` on a 64-bit platform. */
  const MaxInt: nat := 0x7fff_ffff_ffff_ffff

  /** An ASCII decimal digit, which is what `\d` matches in Go's regexp syntax. */
  predicate IsDigit(c: char) {
    '0' <= c <= '9'
  }

  predicate AllDigits(s: string) {
    forall i :: 0 <= i < |s| ==> IsDigit(s[i])
  }

  /** A non-empty run of digits: what `\d+` matches. */
  predicate IsDigits(s: string) {
    |s| > 0 && AllDigits(s)
  }

  type Digits = s: string | IsDigits(s) witness "0"

  function DigitValue(c: char): (v: nat)
    requires IsDigit(c)
    ensures v < 10
  {
    c as int - '0' as int
  }

  function DigitChar(v: nat): (c: char)
    requires v < 10
    ensures IsDigit(c) && DigitValue(c) == v
  {
    ('0' as int + v) as char
  }

  /** The number a digit string denotes, most significant digit first; leading zeros are allowed. */
  function Value(s: string): nat
    requires AllDigits(s)
  {
    if s == [] then 0 else Value(s[..|s| - 1]) * 10 + DigitValue(s[|s| - 1])
  }

  function Pow10(k: nat): (p: nat)
    ensures p >= 1
  {
    if k == 0 then 1 else 10 * Pow10(k - 1)
  }

  /**
   * The digits of `s` read left to right onto the number `acc`, failing with
   * a range error as soon as the number read so far exceeds `MaxInt`, which
   * is how `strconv.ParseUint` (behind `strconv.Atoi`) accumulates.
   */
  function ParseDigits(s: string, acc: nat): Option<nat>
    requires AllDigits(s)
    decreases |s|
  {
    if s == [] then Some(acc)
    else
      var n := acc * 10 + DigitValue(s[0]);
      if n > MaxInt then None else ParseDigits(s[1..], n)
  }

  /**
   * `strconv.Atoi` applied to a digit string on a 64-bit platform: it
   * succeeds with the denoted value, or fails with a range error when that
   * value does not fit in an `int`.
   */
  function Atoi(ds: Digits): (r: Option<nat>)
    ensures r.Some? <==> Value(ds) <= MaxInt
    ensures r.Some? ==> r.value == Value(ds)
  {
    ParseDigitsValue(ds, 0);
    ParseDigits(ds, 0)
  }

  /** Digits appended to a digit string shift its value by their count. */
  lemma {:induction false} ValueAppend(s: string, t: string)
    requires AllDigits(s) && AllDigits(t)
    ensures Value(s + t) == Value(s) * Pow10(|t|) + Value(t)
    decreases |t|
  {
    if t != [] {
      var t' := t[..|t| - 1];
      assert (s + t)[..|s + t| - 1] == s + t';
      assert (s + t)[|s + t| - 1] == t[|t| - 1];
      ValueAppend(s, t');
      ShiftDigit(Value(s), Pow10(|t'|), Value(t'), DigitValue(t[|t| - 1]));
    } else {
      assert s + t == s;
    }
  }

  lemma ShiftDigit(a: nat, p: nat, b: nat, dv: nat)
    ensures (a * p + b) * 10 + dv == a * (10 * p) + (b * 10 + dv)
  {
  }

  lemma PrependDigit(acc: nat, dv: nat, p: nat, v: nat)
    ensures acc * (10 * p) + (dv * p + v) == (acc * 10 + dv) * p + v
  {
  }

  lemma AtLeastOnce(n: nat, p: nat)
    requires p >= 1
    ensures n * p >= n
  {
  }

  /** The fold reads the number `acc` followed by the digits of `s`, unless that number is too large. */
  lemma {:induction false} ParseDigitsValue(s: string, acc: nat)
    requires AllDigits(s) && acc <= MaxInt
    ensures var total := acc * Pow10(|s|) + Value(s);
      ParseDigits(s, acc) == if total <= MaxInt then Some(total) else None
    decreases |s|
  {
    if s != [] {
      var dv := DigitValue(s[0]);
      var n := acc * 10 + dv;
      var k := |s| - 1;
      var rest := s[1..];
      assert Value([s[0]]) == dv by {
        assert [s[0]][..0] == [];
      }
      ValueAppend([s[0]], rest);
      assert [s[0]] + rest == s;
      PrependDigit(acc, dv, Pow10(k), Value(rest));
      if n > MaxInt {
        AtLeastOnce(n, Pow10(k));
      } else {
        ParseDigitsValue(rest, n);
      }
    }
  }

  /** The decimal text of a natural number, without leading zeros, as `fmt.Sprint` writes it. */
  function FromNat(n: nat): (s: Digits)
    ensures Value(s) == n
    ensures s[0] == '0' <==> n == 0
    ensures s[0] == '0' ==> |s| == 1
    decreases n
  {
    if n < 10 then [DigitChar(n)]
    else
      var prefix := FromNat(n / 10);
      var s := prefix + [DigitChar(n % 10)];
      assert s[..|s| - 1] == prefix;
      s
  }

  /** The decimal text of an integer as `fmt.Sprint` writes a Go integer: a minus sign, then the magnitude. */
  function FromInt(n: int): (s: string)
    ensures n >= 0 ==> IsDigits(s) && Value(s) == n
    ensures n < 0 ==> |s| >= 2 && s[0] == '-' && IsDigits(s[1..]) && Value(s[1..]) == -n
    ensures |s| >= 2 && s[0] != '-' ==> s[0] != '0'
    ensures n < 0 ==> s[1] != '0'
  {
    if n < 0 then
      var m := FromNat(-n);
      assert ("-" + m)[1..] == m;
      "-" + m
    else FromNat(n)
  }

  /**
   * Parsing the decimal text of a number gives the number back exactly when
   * it fits in an `int`, and a range error otherwise.
   */
  lemma AtoiFromNat(n: nat)
    ensures Atoi(FromNat(n)) == if n <= MaxInt then Some(n) else None
  {
  }

  /** Leading zeros do not change what a digit string parses to. */
  lemma ValueLeadingZero(s: string)
    requires AllDigits(s)
    ensures Value("0" + s) == Value(s)
  {
    ValueAppend("0", s);
    assert Value("0") == 0 by {
      assert "0"[..0] == [];
    }
  }
}
