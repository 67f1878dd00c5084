/**
 * Decimal integers as the interpreter reads and writes them: Rust's
 * `str::parse` for `u8`, `i8`, `i32` and `usize` (an optional sign, then
 * decimal digits, then a range check), and `to_string`/`{:?}` formatting.
 */
module Numeric {

  datatype Option<+T> = None | Some(value: T)

  const U8_MAX: int := 255
  const I8_MIN: int := -128
  const I8_MAX: int := 127
  const I32_MIN: int := -0x8000_0000
  const I32_MAX: int := 0x7fff_ffff
  /** The processor counter is a `usize`; the model assumes a 64-bit target. */
  const USIZE_MAX: int := 0xffff_ffff_ffff_ffff

  type u8 = x: int | 0 <= x <= U8_MAX
  type i8 = x: int | I8_MIN <= x <= I8_MAX
  type i32 = x: int | I32_MIN <= x <= I32_MAX

  predicate IsDigit(c: char) {
    '0' <= c <= '9'
  }

  predicate AllDigits(s: string) {
    forall i :: 0 <= i < |s| ==> IsDigit(s[i])
  }

  function DigitValue(c: char): nat
    requires IsDigit(c)
  {
    c as int - '0' as int
  }

  function DigitChar(d: nat): (c: char)
    requires d < 10
    ensures IsDigit(c) && DigitValue(c) == d
  {
    ('0' as int + d) as char
  }

  /** The value of a string of decimal digits, most significant digit first. */
  function DigitsValue(s: string): nat
    requires AllDigits(s)
  {
    if s == [] then 0 else DigitsValue(s[..|s| - 1]) * 10 + DigitValue(s[|s| - 1])
  }

  /** The decimal text of a natural number, without leading zeros (`usize::to_string`). */
  function NatToString(n: nat): (s: string)
    ensures |s| >= 1 && AllDigits(s)
    ensures (s[0] == '0') == (n == 0)
  {
    if n < 10 then [DigitChar(n)] else NatToString(n / 10) + [DigitChar(n % 10)]
  }

  /** The decimal text of an integer, with a leading '-' when negative (`{:?}` on i8/u8/i32). */
  function IntToString(i: int): (s: string)
    ensures |s| >= 1 && (s[0] == '-') == (i < 0)
    ensures i < 0 ==> s[1..] == NatToString(-i)
    ensures i >= 0 ==> s == NatToString(i)
  {
    if i < 0 then "-" + NatToString(-i) else NatToString(i)
  }

  /**
   * Rust's `from_str_radix(s, 10)` for an integer type whose range is
   * [lo, hi]: an empty string is refused; a lone "+" or "-" is refused; a
   * leading '+' is skipped; a leading '-' is a sign only for signed types
   * (lo < 0), otherwise it is an invalid digit; every remaining character
   * must be a decimal digit; the value must lie in the range.
   */
  function ParseInt(s: string, lo: int, hi: int): (r: Option<int>)
    ensures r.Some? ==> lo <= r.value <= hi
    ensures r.Some? ==> exists i :: 0 <= i < |s| && IsDigit(s[i])
    ensures r.Some? ==> IsDigit(s[0]) || s[0] == '+' || (s[0] == '-' && lo < 0)
    ensures r.Some? ==> forall i :: 1 <= i < |s| ==> IsDigit(s[i])
    ensures lo >= 0 && s != [] && s[0] == '-' ==> r.None?
  {
    if s == [] then None
    else
      var negative := s[0] == '-' && lo < 0;
      var digits := if s[0] == '+' || negative then s[1..] else s;
      if digits == [] || !AllDigits(digits) then None
      else
        assert IsDigit(s[|s| - 1]);
        var magnitude: int := DigitsValue(digits);
        var v := if negative then -magnitude else magnitude;
        if lo <= v <= hi then Some(v) else None
  }

  function ParseU8(s: string): (r: Option<u8>)
    ensures r.Some? <==> ParseInt(s, 0, U8_MAX).Some?
    ensures r.Some? ==> r.value == ParseInt(s, 0, U8_MAX).value
  {
    match ParseInt(s, 0, U8_MAX)
    case Some(v) => Some(v)
    case None => None
  }

  function ParseI8(s: string): (r: Option<i8>)
    ensures r.Some? <==> ParseInt(s, I8_MIN, I8_MAX).Some?
    ensures r.Some? ==> r.value == ParseInt(s, I8_MIN, I8_MAX).value
  {
    match ParseInt(s, I8_MIN, I8_MAX)
    case Some(v) => Some(v)
    case None => None
  }

  function ParseI32(s: string): (r: Option<i32>)
    ensures r.Some? <==> ParseInt(s, I32_MIN, I32_MAX).Some?
    ensures r.Some? ==> r.value == ParseInt(s, I32_MIN, I32_MAX).value
  {
    match ParseInt(s, I32_MIN, I32_MAX)
    case Some(v) => Some(v)
    case None => None
  }

  function ParseUsize(s: string): (r: Option<nat>)
    ensures r.Some? <==> ParseInt(s, 0, USIZE_MAX).Some?
    ensures r.Some? ==> r.value == ParseInt(s, 0, USIZE_MAX).value <= USIZE_MAX
  {
    match ParseInt(s, 0, USIZE_MAX)
    case Some(v) => Some(v)
    case None => None
  }

  /** Reading back the decimal text of a natural number gives the number. */
  lemma {:induction false} DigitsOfNatToString(n: nat)
    ensures DigitsValue(NatToString(n)) == n
  {
    if n >= 10 {
      var s := NatToString(n);
      DigitsOfNatToString(n / 10);
      assert s[..|s| - 1] == NatToString(n / 10);
    }
  }

  /** Formatting is injective, so a decimal string names at most one number. */
  lemma NatToStringInjective(a: nat, b: nat)
    ensures NatToString(a) == NatToString(b) <==> a == b
  {
    DigitsOfNatToString(a);
    DigitsOfNatToString(b);
  }

  /** Parsing the formatted text of any in-range value gives the value back. */
  lemma ParseIntToString(n: int, lo: int, hi: int)
    requires lo <= n <= hi
    ensures ParseInt(IntToString(n), lo, hi) == Some(n)
  {
    if n < 0 {
      var t := NatToString(-n);
      DigitsOfNatToString(-n);
      assert ("-" + t)[1..] == t;
    } else {
      DigitsOfNatToString(n);
    }
  }

  /** The optional sign in front of the digits of a number's text. */
  datatype Sign = Bare | PlusSign | MinusSign

  function SignText(p: Sign): string {
    match p
    case Bare => ""
    case PlusSign => "+"
    case MinusSign => "-"
  }

  function SignedValue(p: Sign, a: nat): int {
    if p == MinusSign then 0 - a else a
  }

  function Zeros(k: nat): (z: string)
    ensures |z| == k && forall i :: 0 <= i < k ==> z[i] == '0'
  {
    if k == 0 then [] else Zeros(k - 1) + "0"
  }

  /** A sign, then `k` leading zeros, then the decimal text of `a`. */
  function Padded(p: Sign, k: nat, a: nat): string {
    SignText(p) + (Zeros(k) + NatToString(a))
  }

  lemma {:induction false} DigitsValueZeros(k: nat)
    ensures AllDigits(Zeros(k)) && DigitsValue(Zeros(k)) == 0
  {
    if k > 0 {
      DigitsValueZeros(k - 1);
      assert Zeros(k)[..k - 1] == Zeros(k - 1);
    }
  }

  /** Leading zeros do not change the value of a digit string. */
  lemma {:induction false} DigitsValueLeadingZeros(k: nat, t: string)
    requires AllDigits(t)
    ensures AllDigits(Zeros(k) + t) && DigitsValue(Zeros(k) + t) == DigitsValue(t)
    decreases |t|
  {
    DigitsValueZeros(k);
    if t == [] {
      assert Zeros(k) + t == Zeros(k);
    } else {
      var u := Zeros(k) + t;
      assert u[..|u| - 1] == Zeros(k) + t[..|t| - 1];
      DigitsValueLeadingZeros(k, t[..|t| - 1]);
    }
  }

  /** A digit string of value 0 is all zeros. */
  lemma {:induction false} ValueZeroIsZeros(d: string)
    requires AllDigits(d) && DigitsValue(d) == 0
    ensures d == Zeros(|d|)
  {
    if d != [] {
      ValueZeroIsZeros(d[..|d| - 1]);
      assert d == d[..|d| - 1] + [d[|d| - 1]];
    }
  }

  /** Every non-empty digit string is some leading zeros, then the decimal text of its value. */
  lemma {:induction false} DigitsArePadded(d: string) returns (k: nat)
    requires AllDigits(d) && d != []
    ensures d == Zeros(k) + NatToString(DigitsValue(d))
    decreases |d|
  {
    var init := d[..|d| - 1];
    var c := d[|d| - 1];
    assert d == init + [c];
    assert DigitChar(DigitValue(c)) == c;
    if init == [] || DigitsValue(init) == 0 {
      if init != [] {
        ValueZeroIsZeros(init);
      }
      k := |init|;
      assert init == Zeros(k);
    } else {
      k := DigitsArePadded(init);
      var v := DigitsValue(init) * 10 + DigitValue(c);
      assert v / 10 == DigitsValue(init) && v % 10 == DigitValue(c);
    }
  }

  /** A non-empty digit string parses to its value when that is in range. */
  lemma ParseDigits(d: string, lo: int, hi: int)
    requires AllDigits(d) && d != []
    ensures ParseInt(d, lo, hi) == if lo <= DigitsValue(d) <= hi then Some(DigitsValue(d)) else None
  {
    assert IsDigit(d[0]);
  }

  /** A sign in front of a digit string: '+' is skipped, '-' negates for a signed type and is refused by an unsigned one. */
  lemma ParseSignedDigits(c: char, d: string, lo: int, hi: int)
    requires AllDigits(d) && d != [] && (c == '+' || c == '-')
    ensures var v := if c == '-' then 0 - DigitsValue(d) else DigitsValue(d);
            ParseInt([c] + d, lo, hi) == if c == '-' && lo >= 0 then None else if lo <= v <= hi then Some(v) else None
  {
    var s := [c] + d;
    assert s[1..] == d;
    if c == '-' && lo >= 0 {
      assert !IsDigit(s[0]);
    }
  }

  /**
   * Every sign, any number of leading zeros and any natural number make a
   * text that parses to the signed number when it is in range; a '-' is
   * refused by an unsigned type.
   */
  lemma ParseIntPadded(p: Sign, k: nat, a: nat, lo: int, hi: int)
    ensures ParseInt(Padded(p, k, a), lo, hi) ==
              if p == MinusSign && lo >= 0 then None
              else if lo <= SignedValue(p, a) <= hi then Some(SignedValue(p, a))
              else None
  {
    var d := Zeros(k) + NatToString(a);
    DigitsValueLeadingZeros(k, NatToString(a));
    DigitsOfNatToString(a);
    match p
    case Bare =>
      assert Padded(p, k, a) == d;
      ParseDigits(d, lo, hi);
    case PlusSign =>
      assert Padded(p, k, a) == ['+'] + d;
      ParseSignedDigits('+', d, lo, hi);
    case MinusSign =>
      assert Padded(p, k, a) == ['-'] + d;
      ParseSignedDigits('-', d, lo, hi);
  }

  /** Conversely, a text that parses is a sign, leading zeros and the decimal text of the magnitude. */
  lemma ParseIntShape(s: string, lo: int, hi: int) returns (p: Sign, k: nat, a: nat)
    requires ParseInt(s, lo, hi).Some?
    ensures s == Padded(p, k, a)
    ensures ParseInt(s, lo, hi).value == SignedValue(p, a)
    ensures p == MinusSign ==> lo < 0
  {
    var digits := s[1..];
    assert AllDigits(digits);
    if IsDigit(s[0]) {
      assert AllDigits(s);
      p, a := Bare, DigitsValue(s);
      k := DigitsArePadded(s);
      ParseDigits(s, lo, hi);
      assert s == SignText(p) + (Zeros(k) + NatToString(a));
    } else {
      assert digits != [];
      assert s == [s[0]] + digits;
      p := if s[0] == '+' then PlusSign else MinusSign;
      a := DigitsValue(digits);
      k := DigitsArePadded(digits);
      ParseSignedDigits(s[0], digits, lo, hi);
      assert s == SignText(p) + (Zeros(k) + NatToString(a));
    }
  }
}
