/** The parts of Go's `strconv` and `fmt` the core leans on: decimal formatting
    (`%d`), `strconv.Atoi`, `strconv.ParseUint(s, 10, 0)` and the wrap-around of
    Go's 64-bit `int` arithmetic. */
module Decimal {
  import opened Wrappers

  const MinInt64: int := -0x8000_0000_0000_0000
  const MaxInt64: int := 0x7FFF_FFFF_FFFF_FFFF
  const MaxUint64: int := 0xFFFF_FFFF_FFFF_FFFF
  const TwoTo64: int := 0x1_0000_0000_0000_0000

  predicate IsDigit(c: char) {
    '0' <= c <= '9'
  }

  predicate AllDigits(s: string) {
    forall i :: 0 <= i < |s| ==> IsDigit(s[i])
  }

  function DigitValue(c: char): nat
    requires IsDigit(c)
  {
    (c as int) - ('0' as int)
  }

  function DigitChar(d: nat): (c: char)
    requires d < 10
    ensures IsDigit(c) && DigitValue(c) == d
  {
    ('0' as int + d) as char
  }

  /** Reads digits left to right, multiplying what was read so far by ten before
      adding the next digit, as the loops of `strconv` do. */
  function Accumulate(s: string, acc: nat): nat
    requires AllDigits(s)
  {
    if s == [] then acc else Accumulate(s[1..], acc * 10 + DigitValue(s[0]))
  }

  /** The number a string of decimal digits denotes. */
  function DigitsValue(s: string): nat
    requires AllDigits(s)
  {
    Accumulate(s, 0)
  }

  lemma {:induction false} AccumulateSnoc(s: string, c: char, acc: nat)
    requires AllDigits(s) && IsDigit(c)
    ensures AllDigits(s + [c])
    ensures Accumulate(s + [c], acc) == Accumulate(s, acc) * 10 + DigitValue(c)
  {
    if s == [] {
      assert s + [c] == [c];
      assert [c][1..] == [];
    } else {
      assert (s + [c])[0] == s[0];
      assert (s + [c])[1..] == s[1..] + [c];
      AccumulateSnoc(s[1..], c, acc * 10 + DigitValue(s[0]));
    }
  }

  lemma {:induction false} AccumulateAtLeast(s: string, acc: nat)
    requires AllDigits(s)
    ensures Accumulate(s, acc) >= acc
  {
    if s != [] {
      AccumulateAtLeast(s[1..], acc * 10 + DigitValue(s[0]));
    }
  }

  /** `%d` of a non-negative number: its shortest decimal spelling, which reads
      back as the same number. */
  function NatToDecimal(n: nat): (s: string)
    ensures |s| > 0 && AllDigits(s) && DigitsValue(s) == n
    ensures n > 0 ==> s[0] != '0'
    decreases n
  {
    if n < 10 then
      var single := [DigitChar(n)];
      assert single[1..] == [];
      assert Accumulate(single, 0) == Accumulate([], DigitValue(single[0]));
      single
    else
      var prefix := NatToDecimal(n / 10);
      var last := DigitChar(n % 10);
      AccumulateSnoc(prefix, last, 0);
      prefix + [last]
  }

  /** `%d` of any integer: a minus sign before the digits of a negative number. */
  function IntToDecimal(n: int): (s: string)
    ensures |s| > 0
    ensures n >= 0 <==> s[0] != '-'
  {
    if n < 0 then "-" + NatToDecimal(-n) else NatToDecimal(n)
  }

  /** `strconv.Atoi(s)`, its error folded into None: an optional sign, at least one
      digit, and a value inside Go's 64-bit int range. */
  function Atoi(s: string): (r: Option<int>)
    ensures r.Some? ==> MinInt64 <= r.value <= MaxInt64
    ensures r.Some? ==> |s| > 0 && (IsDigit(s[0]) || s[0] == '+' || s[0] == '-')
    ensures r.Some? ==> var body := if s[0] == '-' || s[0] == '+' then s[1..] else s;
                        |body| > 0 && AllDigits(body)
                        && r.value == if s[0] == '-' then 0 - DigitsValue(body) else DigitsValue(body)
    ensures |s| > 0 && AllDigits(s) && DigitsValue(s) <= MaxInt64 ==> r == Some(DigitsValue(s))
  {
    var signed := |s| > 0 && (s[0] == '-' || s[0] == '+');
    var body := if signed then s[1..] else s;
    if |body| == 0 || !AllDigits(body) then
      None
    else
      var v: int := if signed && s[0] == '-' then 0 - (DigitsValue(body) as int) else DigitsValue(body);
      if MinInt64 <= v <= MaxInt64 then Some(v) else None
  }

  /** Every 64-bit int printed with `%d` parses back with `strconv.Atoi`. */
  lemma AtoiOfIntToDecimal(n: int)
    requires MinInt64 <= n <= MaxInt64
    ensures Atoi(IntToDecimal(n)) == Some(n)
  {
    var s := IntToDecimal(n);
    if n < 0 {
      assert s[1..] == NatToDecimal(-n);
    } else {
      assert IsDigit(s[0]);
    }
  }

  /** The digit loop of `strconv.ParseUint(s, 10, 64)`: a non-digit ends it with 0
      (a syntax error), a value past 2^64-1 ends it with 2^64-1 (a range error),
      whichever comes first. */
  function ParseUintScan(s: string, acc: nat): (r: nat)
    requires acc <= MaxUint64
    ensures r <= MaxUint64
  {
    if s == [] then acc
    else if !IsDigit(s[0]) then 0
    else if acc * 10 + DigitValue(s[0]) > MaxUint64 then MaxUint64
    else ParseUintScan(s[1..], acc * 10 + DigitValue(s[0]))
  }

  /** `v, _ := strconv.ParseUint(s, 10, 0)`: the value, its error discarded. The
      empty string is a syntax error and gives 0. */
  function ParseUintIgnoringError(s: string): (r: nat)
    ensures r <= MaxUint64
  {
    if s == [] then 0 else ParseUintScan(s, 0)
  }

  lemma {:induction false} ParseUintScanOfDigits(s: string, acc: nat)
    requires AllDigits(s) && acc <= MaxUint64
    ensures ParseUintScan(s, acc) == Min(Accumulate(s, acc), MaxUint64)
  {
    if s != [] {
      var next := acc * 10 + DigitValue(s[0]);
      if next > MaxUint64 {
        AccumulateAtLeast(s[1..], next);
      } else {
        ParseUintScanOfDigits(s[1..], next);
      }
    }
  }

  /** A string of digits parses to its value, saturated at 2^64-1; a string that
      starts with anything but a digit (a sign included) parses to 0. */
  lemma ParseUintIgnoringErrorValue(s: string)
    ensures |s| > 0 && AllDigits(s) ==> ParseUintIgnoringError(s) == Min(DigitsValue(s), MaxUint64)
    ensures |s| > 0 && !IsDigit(s[0]) ==> ParseUintIgnoringError(s) == 0
  {
    if |s| > 0 && AllDigits(s) {
      ParseUintScanOfDigits(s, 0);
    }
  }

  /** The scan stops at the first non-digit: with 0 when the digits before it
      fit in 64 bits (a syntax error), with 2^64-1 when they do not (the range
      error is met first). */
  lemma {:induction false} ParseUintScanStops(s: string, i: nat, acc: nat)
    requires i < |s| && AllDigits(s[..i]) && !IsDigit(s[i]) && acc <= MaxUint64
    ensures ParseUintScan(s, acc) == if Accumulate(s[..i], acc) > MaxUint64 then MaxUint64 else 0
  {
    if i > 0 {
      var next := acc * 10 + DigitValue(s[0]);
      assert s[..i][1..] == s[1..][..i - 1];
      assert Accumulate(s[..i], acc) == Accumulate(s[1..][..i - 1], next);
      if next > MaxUint64 {
        AccumulateAtLeast(s[1..][..i - 1], next);
      } else {
        ParseUintScanStops(s[1..], i - 1, next);
      }
    }
  }

  /** A non-digit after a run of digits: the value discarded with the error is 0,
      unless the digits before it already pass 2^64-1, in which case it is 2^64-1
      ("12x" gives 0, twenty nines and an "x" give 2^64-1). */
  lemma ParseUintIgnoringErrorAtNonDigit(s: string, i: nat)
    requires i < |s| && AllDigits(s[..i]) && !IsDigit(s[i])
    ensures ParseUintIgnoringError(s) == if DigitsValue(s[..i]) > MaxUint64 then MaxUint64 else 0
  {
    ParseUintScanStops(s, i, 0);
  }

  /** Go's 64-bit `int` arithmetic: the result congruent to `x` modulo 2^64 that
      lies in the int64 range. */
  function WrapInt64(x: int): (r: int)
    ensures MinInt64 <= r <= MaxInt64
    ensures (MinInt64 <= x <= MaxInt64) ==> r == x
    ensures (r - x) % TwoTo64 == 0
  {
    var r := (x - MinInt64) % TwoTo64 + MinInt64;
    assert r - x == (x - MinInt64) % TwoTo64 - (x - MinInt64);
    assert (x - MinInt64) == TwoTo64 * ((x - MinInt64) / TwoTo64) + (x - MinInt64) % TwoTo64;
    assert r - x == TwoTo64 * (0 - (x - MinInt64) / TwoTo64);
    r
  }
}
