/**
 * Decimal integer parsing as done by Go's `strconv.Atoi` on a 64-bit
 * platform, the decimal formatting it inverts, and the `uint64(...)`
 * conversion of a signed 64-bit integer.
 */
module Strconv {
  import opened Outcomes

  const MinInt64: int := -0x8000_0000_0000_0000
  const MaxInt64: int := 0x7FFF_FFFF_FFFF_FFFF
  const MaxUint64: int := 0xFFFF_FFFF_FFFF_FFFF
  const TwoTo64: int := 0x1_0000_0000_0000_0000

  /** The smallest accumulator that overflows when multiplied by ten. */
  const Cutoff: int := MaxUint64 / 10 + 1

  /** The two ways `strconv.Atoi` fails, each carrying the rejected input. */
  datatype NumError = SyntaxError(input: string) | RangeError(input: string)

  /** Which of the two failures the unsigned digit scan ran into. */
  datatype ScanFailure = BadDigit | Overflow

  predicate IsDigit(c: char) { '0' <= c <= '9' }

  predicate AllDigits(s: string) { forall i :: 0 <= i < |s| ==> IsDigit(s[i]) }

  function DigitValue(c: char): (d: nat)
    requires IsDigit(c)
    ensures d < 10
  {
    c as int - '0' as int
  }

  function DigitChar(d: nat): (c: char)
    requires d < 10
    ensures IsDigit(c) && DigitValue(c) == d
  {
    ('0' as int + d) as char
  }

  /** The value of a string of decimal digits, most significant first. */
  function DigitsValue(s: string): nat
    requires AllDigits(s)
  {
    if s == [] then 0 else DigitsValue(s[..|s| - 1]) * 10 + DigitValue(s[|s| - 1])
  }

  /** The length of the run of digits `s` starts with. */
  function DigitRun(s: string): (k: nat)
    ensures k <= |s| && AllDigits(s[..k])
    ensures k < |s| ==> !IsDigit(s[k])
  {
    if s == [] || !IsDigit(s[0]) then 0
    else
      var k := 1 + DigitRun(s[1..]);
      assert s[..k] == [s[0]] + s[1..][..k - 1];
      k
  }

  /**
   * The digit loop of `strconv.ParseUint` in base 10, continuing from the
   * accumulated value `n`: each character is first checked to be a digit,
   * then the accumulator is checked not to overflow 64 bits when it takes
   * the digit on.
   */
  function ScanUint(rest: string, n: nat): Result<nat, ScanFailure>
    requires n <= MaxUint64
    decreases |rest|
  {
    if rest == [] then Ok(n)
    else if !IsDigit(rest[0]) then Err(BadDigit)
    else if n >= Cutoff then Err(Overflow)
    else
      var n1 := n * 10 + DigitValue(rest[0]);
      if n1 > MaxUint64 then Err(Overflow) else ScanUint(rest[1..], n1)
  }

  /**
   * `strconv.Atoi`: an optional `+` or `-` followed by the digit scan of
   * `strconv.ParseUint`; the empty string and a lone sign are syntax
   * errors, a scan that overflows 64 bits or a value outside the signed
   * 64-bit range is a range error. (Go's fast path for inputs shorter than
   * 19 bytes cannot overflow and rejects the same strings.)
   */
  function Atoi(s: string): (r: Result<int, NumError>)
    ensures r.Ok? ==> MinInt64 <= r.value <= MaxInt64
    ensures r.Err? ==> r.error.input == s
    ensures s == [] ==> r == Err(SyntaxError(s))
  {
    var signed := |s| > 0 && (s[0] == '-' || s[0] == '+');
    var digits := if signed then s[1..] else s;
    if digits == [] then Err(SyntaxError(s))
    else
      match ScanUint(digits, 0)
      case Err(BadDigit) => Err(SyntaxError(s))
      case Err(Overflow) => Err(RangeError(s))
      case Ok(magnitude) =>
        var m: int := magnitude;
        var n: int := if signed && s[0] == '-' then -m else m;
        if n < MinInt64 || MaxInt64 < n then Err(RangeError(s)) else Ok(n)
  }

  /** Appending a digit multiplies the value by ten and adds the digit. */
  lemma DigitsValueAppend(p: string, c: char)
    requires AllDigits(p) && IsDigit(c)
    ensures AllDigits(p + [c]) && DigitsValue(p + [c]) == DigitsValue(p) * 10 + DigitValue(c)
  {
    assert (p + [c])[..|p|] == p;
  }

  /** More digits never spell a smaller value. */
  lemma {:induction false} DigitsValueGrows(p: string, q: string)
    requires AllDigits(p) && AllDigits(q)
    ensures AllDigits(p + q) && DigitsValue(p) <= DigitsValue(p + q)
  {
    if q != [] {
      var front := q[..|q| - 1];
      DigitsValueGrows(p, front);
      assert q == front + [q[|q| - 1]];
      assert p + q == (p + front) + [q[|q| - 1]];
      DigitsValueAppend(p + front, q[|q| - 1]);
    } else {
      assert p + q == p;
    }
  }

  /**
   * The scan, resumed after the digits `p`, overflows exactly when the
   * leading run of digits overflows; otherwise it stops at a non-digit if
   * there is one, and yields the value of the whole string if not.
   */
  lemma {:induction false} ScanUintDecides(p: string, rest: string)
    requires AllDigits(p) && DigitsValue(p) <= MaxUint64
    decreases |rest|
    ensures var k := DigitRun(rest);
      AllDigits(p + rest[..k]) &&
      ScanUint(rest, DigitsValue(p)) ==
        if DigitsValue(p + rest[..k]) > MaxUint64 then Err(Overflow)
        else if k < |rest| then Err(BadDigit)
        else Ok(DigitsValue(p + rest[..k]))
  {
    var k := DigitRun(rest);
    DigitsValueGrows(p, rest[..k]);
    if rest == [] {
      assert p + rest[..k] == p;
    } else if !IsDigit(rest[0]) {
      assert p + rest[..k] == p;
    } else {
      var c := rest[0];
      var p' := p + [c];
      DigitsValueAppend(p, c);
      assert p + rest[..k] == p' + rest[1..][..k - 1];
      DigitsValueGrows(p', rest[1..][..k - 1]);
      if DigitsValue(p) < Cutoff && DigitsValue(p') <= MaxUint64 {
        ScanUintDecides(p', rest[1..]);
      }
    }
  }

  /**
   * What `Atoi` decides, without the scan: after the sign, the leading run
   * of digits is checked for 64-bit overflow first, then for a following
   * non-digit, and finally the signed value for the signed 64-bit range.
   */
  lemma AtoiDecides(s: string)
    ensures var signed := |s| > 0 && (s[0] == '-' || s[0] == '+');
      var digits := if signed then s[1..] else s;
      var k := DigitRun(digits);
      Atoi(s) ==
        if digits == [] then Err(SyntaxError(s))
        else if DigitsValue(digits[..k]) > MaxUint64 then Err(RangeError(s))
        else if k < |digits| then Err(SyntaxError(s))
        else
          var m: int := DigitsValue(digits);
          var n: int := if signed && s[0] == '-' then -m else m;
          if MinInt64 <= n <= MaxInt64 then Ok(n) else Err(RangeError(s))
  {
    var signed := |s| > 0 && (s[0] == '-' || s[0] == '+');
    var digits := if signed then s[1..] else s;
    if digits != [] {
      var k := DigitRun(digits);
      ScanUintDecides([], digits);
      assert [] + digits[..k] == digits[..k];
      assert DigitsValue([]) == 0;
      if k == |digits| {
        assert digits[..k] == digits;
      }
    }
  }

  /** The shortest decimal spelling of a natural number. */
  function Decimal(n: nat): (s: string)
    ensures |s| >= 1
  {
    if n < 10 then [DigitChar(n)] else Decimal(n / 10) + [DigitChar(n % 10)]
  }

  /** The decimal spelling of an integer, with `-` before negative ones. */
  function FormatInt(n: int): string
  {
    if n < 0 then "-" + Decimal(-n) else Decimal(n)
  }

  /** `uint64(n)` for a signed 64-bit `n`: two's complement reinterpretation. */
  function ToUint64(n: int): (u: nat)
    ensures u < TwoTo64
    ensures 0 <= n < TwoTo64 ==> u == n
    ensures -TwoTo64 <= n < 0 ==> u == n + TwoTo64
  {
    n % TwoTo64
  }

  /** `Decimal` writes only digits, and they spell the number back. */
  lemma {:induction false} DecimalValue(n: nat)
    ensures AllDigits(Decimal(n)) && DigitsValue(Decimal(n)) == n
  {
    var s := Decimal(n);
    if n >= 10 {
      DecimalValue(n / 10);
      assert s[..|s| - 1] == Decimal(n / 10);
      assert s[|s| - 1] == DigitChar(n % 10);
    }
  }

  /** A run made only of digits covers the whole string. */
  lemma DigitRunAll(s: string)
    requires AllDigits(s)
    ensures DigitRun(s) == |s|
  {
  }

  /**
   * Parsing undoes formatting for every signed 64-bit integer, and every
   * integer outside that range is refused as a range error.
   */
  lemma AtoiFormatInt(n: int)
    ensures Atoi(FormatInt(n)) ==
      if MinInt64 <= n <= MaxInt64 then Ok(n) else Err(RangeError(FormatInt(n)))
  {
    var s := FormatInt(n);
    var m: nat := if n < 0 then -n else n;
    DecimalValue(m);
    DigitRunAll(Decimal(m));
    assert Decimal(m)[..|Decimal(m)|] == Decimal(m);
    if n < 0 {
      assert s[1..] == Decimal(m);
    } else {
      assert IsDigit(Decimal(n)[0]);
    }
    AtoiDecides(s);
  }

  /**
   * A character that is neither a digit nor a leading sign makes the input
   * a syntax error, provided the digits before it do not already overflow
   * 64 bits.
   */
  lemma AtoiRejectsNonDigit(s: string, i: nat)
    requires i < |s| && !IsDigit(s[i])
    requires i > 0 || (s[0] != '-' && s[0] != '+')
    requires var start := if s[0] == '-' || s[0] == '+' then 1 else 0;
      AllDigits(s[start..i]) && DigitsValue(s[start..i]) <= MaxUint64
    ensures Atoi(s) == Err(SyntaxError(s))
  {
    var start := if s[0] == '-' || s[0] == '+' then 1 else 0;
    var digits := s[start..];
    assert digits[..i - start] == s[start..i];
    assert DigitRun(digits) == i - start by {
      DigitRunPrefix(digits, i - start);
    }
    AtoiDecides(s);
  }

  /** A run of digits up to a non-digit is the whole leading run. */
  lemma {:induction false} DigitRunPrefix(s: string, k: nat)
    requires k < |s| && AllDigits(s[..k]) && !IsDigit(s[k])
    ensures DigitRun(s) == k
  {
    if k > 0 {
      assert s[1..][..k - 1] == s[1..k];
      DigitRunPrefix(s[1..], k - 1);
    }
  }

  /**
   * Digits that spell 2^64 or more are a range error whatever follows
   * them, a non-digit included: the scan overflows before reaching it.
   */
  lemma AtoiOverflowFirst(n: nat, rest: string)
    requires n > MaxUint64
    ensures Atoi(Decimal(n) + rest) == Err(RangeError(Decimal(n) + rest))
  {
    var s := Decimal(n) + rest;
    var d := Decimal(n);
    DecimalValue(n);
    assert IsDigit(d[0]) && s[0] == d[0];
    var k := DigitRun(s);
    assert s[..|d|] == d;
    assert k >= |d|;
    assert s[..k] == d + s[|d|..k];
    DigitsValueGrows(d, s[|d|..k]);
    AtoiDecides(s);
  }

  /** Twenty nines and an `x`: a range error, not a syntax error. */
  lemma OverflowBeforeNonDigitExample()
    ensures Atoi("99999999999999999999x") == Err(RangeError("99999999999999999999x"))
  {
    assert Decimal(9) == "9";
    assert Decimal(99) == Decimal(9) + "9" == "99";
    assert Decimal(999) == Decimal(99) + "9" == "999";
    assert Decimal(9999) == Decimal(999) + "9" == "9999";
    assert Decimal(99999) == Decimal(9999) + "9" == "99999";
    assert Decimal(999999) == Decimal(99999) + "9" == "999999";
    assert Decimal(9999999) == Decimal(999999) + "9" == "9999999";
    assert Decimal(99999999) == Decimal(9999999) + "9" == "99999999";
    assert Decimal(999999999) == Decimal(99999999) + "9" == "999999999";
    assert Decimal(9999999999) == Decimal(999999999) + "9" == "9999999999";
    assert Decimal(99999999999) == Decimal(9999999999) + "9" == "99999999999";
    assert Decimal(999999999999) == Decimal(99999999999) + "9" == "999999999999";
    assert Decimal(9999999999999) == Decimal(999999999999) + "9" == "9999999999999";
    assert Decimal(99999999999999) == Decimal(9999999999999) + "9" == "99999999999999";
    assert Decimal(999999999999999) == Decimal(99999999999999) + "9" == "999999999999999";
    assert Decimal(9999999999999999) == Decimal(999999999999999) + "9" == "9999999999999999";
    assert Decimal(99999999999999999) == Decimal(9999999999999999) + "9" == "99999999999999999";
    assert Decimal(999999999999999999) == Decimal(99999999999999999) + "9" == "999999999999999999";
    assert Decimal(9999999999999999999) == Decimal(999999999999999999) + "9" == "9999999999999999999";
    assert Decimal(99999999999999999999) == Decimal(9999999999999999999) + "9" == "99999999999999999999";
    AtoiOverflowFirst(99999999999999999999, "x");
    assert "99999999999999999999" + "x" == "99999999999999999999x";
  }

  /** `-1` parses, and reinterpreted as `uint64` it is the largest 64-bit value. */
  lemma MinusOneWraps()
    ensures Atoi("-1") == Ok(-1)
    ensures ToUint64(-1) == TwoTo64 - 1
  {
    AtoiFormatInt(-1);
    assert FormatInt(-1) == "-1";
  }
}
