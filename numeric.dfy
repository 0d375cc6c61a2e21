/** Rust's `FromStr` for integers and floats, and `Display` for integers,
    over ASCII text. Integer widths are explicit bounds on `int`. */
module Numeric {
  import opened Wrappers

  const U8_LIMIT: int := 0x100
  const U32_LIMIT: int := 0x1_0000_0000
  const USIZE_LIMIT: int := 0x1_0000_0000_0000_0000
  const U64_LIMIT: int := 0x1_0000_0000_0000_0000
  const I32_MIN: int := -0x8000_0000
  const I32_MAX: int := 0x7fff_ffff
  const I64_MIN: int := -0x8000_0000_0000_0000
  const I64_MAX: int := 0x7fff_ffff_ffff_ffff

  /** `u8`. */
  type Byte = x: int | 0 <= x < U8_LIMIT

  function Min(a: int, b: int): (r: int)
    ensures r <= a && r <= b && (r == a || r == b)
  {
    if a <= b then a else b
  }

  function Max(a: int, b: int): (r: int)
    ensures r >= a && r >= b && (r == a || r == b)
  {
    if a >= b then a else b
  }

  predicate IsDigit(c: char) { '0' <= c <= '9' }

  predicate AllDigits(s: string) { forall i :: 0 <= i < |s| ==> IsDigit(s[i]) }

  function DigitValue(c: char): nat
    requires IsDigit(c)
  {
    c as int - '0' as int
  }

  function DigitChar(d: nat): (c: char)
    requires d < 10
    ensures IsDigit(c) && DigitValue(c) == d
  {
    ('0' as int + d) as char
  }

  /** The number written by a string of decimal digits, most significant first. */
  function DigitsValue(s: string): nat
    requires AllDigits(s)
  {
    if |s| == 0 then 0 else DigitsValue(s[..|s| - 1]) * 10 + DigitValue(s[|s| - 1])
  }

  /** Unsigned `from_str`: an optional `+`, then one or more digits, and a
      value below `limit`. */
  function ParseUnsigned(s: string, limit: int): (r: Option<nat>)
    ensures r.Some? ==> r.value < limit
    ensures r.Some? ==> |s| > 0 && (IsDigit(s[0]) || s[0] == '+')
  {
    var digits := if |s| > 0 && s[0] == '+' then s[1..] else s;
    if |digits| == 0 || !AllDigits(digits) then None
    else if DigitsValue(digits) < limit then Some(DigitsValue(digits))
    else None
  }

  /** Signed `from_str`: an optional `+` or `-`, then one or more digits, and a
      value in `[lo, hi]`. */
  function ParseSigned(s: string, lo: int, hi: int): (r: Option<int>)
    ensures r.Some? ==> lo <= r.value <= hi
  {
    var negative := |s| > 0 && s[0] == '-';
    var digits := if |s| > 0 && (s[0] == '+' || s[0] == '-') then s[1..] else s;
    if |digits| == 0 || !AllDigits(digits) then None
    else
      var m: int := DigitsValue(digits);
      var v := if negative then 0 - m else m;
      if lo <= v <= hi then Some(v) else None
  }

  function ParseU8(s: string): Option<nat> { ParseUnsigned(s, U8_LIMIT) }
  function ParseU32(s: string): Option<nat> { ParseUnsigned(s, U32_LIMIT) }
  function ParseUsize(s: string): Option<nat> { ParseUnsigned(s, USIZE_LIMIT) }
  function ParseI32(s: string): Option<int> { ParseSigned(s, I32_MIN, I32_MAX) }
  function ParseI64(s: string): Option<int> { ParseSigned(s, I64_MIN, I64_MAX) }

  /** `Display` of a natural number: decimal digits, no leading zero. */
  function FormatNat(n: nat): (s: string)
    ensures |s| >= 1 && AllDigits(s)
    ensures s[0] == '0' ==> n == 0
  {
    if n < 10 then [DigitChar(n)] else FormatNat(n / 10) + [DigitChar(n % 10)]
  }

  /** `Display` of an integer: a `-` before the digits of a negative number. */
  function FormatInt(i: int): (s: string)
    ensures |s| >= 1
  {
    if i < 0 then "-" + FormatNat(-i) else FormatNat(i)
  }

  lemma {:induction false} FormatNatValue(n: nat)
    ensures DigitsValue(FormatNat(n)) == n
  {
    var s := FormatNat(n);
    if n >= 10 {
      FormatNatValue(n / 10);
      assert s[..|s| - 1] == FormatNat(n / 10);
    }
  }

  /** Parsing the decimal text of a number gives the number back. */
  lemma {:induction false} ParseFormatNat(n: nat, limit: int)
    requires n < limit
    ensures ParseUnsigned(FormatNat(n), limit) == Some(n)
  {
    FormatNatValue(n);
  }

  lemma {:induction false} ParseFormatInt(i: int, lo: int, hi: int)
    requires lo <= i <= hi
    ensures ParseSigned(FormatInt(i), lo, hi) == Some(i)
  {
    var s := FormatInt(i);
    if i < 0 {
      FormatNatValue(-i);
      assert s[1..] == FormatNat(-i);
    } else {
      FormatNatValue(i);
    }
  }

  /** Rust's `f32::from_str` grammar:
      `Sign? ("inf" | "infinity" | "nan" | Number)` with the words in any case,
      `Number ::= (Digit+ | Digit+ "." Digit* | Digit* "." Digit+) Exp?` and
      `Exp ::= [eE] Sign? Digit+`. Every such text parses (out-of-range values
      become infinities), so acceptance is a property of the text alone. */
  predicate IsF32Literal(s: string) {
    var body := if |s| > 0 && (s[0] == '+' || s[0] == '-') then s[1..] else s;
    var word := Lower(body);
    word == "inf" || word == "infinity" || word == "nan" || IsFloatNumber(body)
  }

  function LowerChar(c: char): char {
    if 'A' <= c <= 'Z' then (c as int + 32) as char else c
  }

  function Lower(s: string): (r: string)
    ensures |r| == |s|
  {
    if |s| == 0 then "" else [LowerChar(s[0])] + Lower(s[1..])
  }

  /** `Digit+ | Digit+ "." Digit* | Digit* "." Digit+`, then an optional exponent. */
  predicate IsFloatNumber(s: string) {
    exists m :: 0 <= m <= |s| && IsMantissa(s[..m]) && IsExponentOrEmpty(s[m..])
  }

  predicate IsMantissa(s: string) {
    (|s| > 0 && AllDigits(s))
    || exists d :: 0 <= d < |s| && s[d] == '.' && AllDigits(s[..d]) && AllDigits(s[d + 1..]) && |s| >= 2
  }

  predicate IsExponentOrEmpty(s: string) {
    |s| == 0
    || (|s| >= 2 && (s[0] == 'e' || s[0] == 'E') &&
        var rest := if s[1] == '+' || s[1] == '-' then s[2..] else s[1..];
        |rest| > 0 && AllDigits(rest))
  }

  lemma {:induction false} DigitsAreFloat(s: string)
    requires |s| > 0 && AllDigits(s)
    ensures IsF32Literal(s)
  {
    assert IsMantissa(s[..|s|]);
    assert IsExponentOrEmpty(s[|s|..]);
  }

  /** The length of the leading run of digits. */
  function DigitRun(s: string): (r: nat)
    ensures r <= |s| && AllDigits(s[..r]) && (r < |s| ==> !IsDigit(s[r]))
  {
    if |s| == 0 || !IsDigit(s[0]) then 0
    else
      var k := DigitRun(s[1..]);
      assert s[..k + 1] == [s[0]] + s[1..][..k];
      k + 1
  }

  /** The text of Rust's `ParseIntError` for an unsigned parse that failed:
      digits are read from the left and the first overflow or the first
      non-digit, whichever comes first, is reported. */
  function UnsignedErrorText(s: string, limit: int): string {
    if |s| == 0 then "cannot parse integer from empty string"
    else
      var d := if s[0] == '+' then s[1..] else s;
      if |d| == 0 then "invalid digit found in string"
      else
        var k := DigitRun(d);
        if DigitsValue(d[..k]) >= limit then "number too large to fit in target type"
        else "invalid digit found in string"
  }

  lemma {:induction false} LowerAt(s: string, i: nat)
    requires i < |s|
    ensures Lower(s)[i] == LowerChar(s[i])
  {
    if i > 0 {
      LowerAt(s[1..], i - 1);
    }
  }

  predicate FloatChar(c: char) {
    IsDigit(c) || c == '.' || c == 'e' || c == 'E' || c == '+' || c == '-'
  }

  lemma {:induction false} MantissaChars(s: string)
    requires IsMantissa(s)
    ensures forall i :: 0 <= i < |s| ==> FloatChar(s[i])
  {
    if !AllDigits(s) {
      var d :| 0 <= d < |s| && s[d] == '.' && AllDigits(s[..d]) && AllDigits(s[d + 1..]);
      forall i | 0 <= i < |s| ensures FloatChar(s[i]) {
        if i < d {
          assert s[..d][i] == s[i];
        } else if i > d {
          assert s[d + 1..][i - d - 1] == s[i];
        }
      }
    }
  }

  lemma {:induction false} ExponentChars(s: string)
    requires IsExponentOrEmpty(s)
    ensures forall i :: 0 <= i < |s| ==> FloatChar(s[i])
  {
    if |s| > 0 {
      var k := if s[1] == '+' || s[1] == '-' then 2 else 1;
      forall i | k <= i < |s| ensures IsDigit(s[i]) {
        assert s[k..][i - k] == s[i];
      }
    }
  }

  lemma {:induction false} FloatNumberChars(s: string)
    requires IsFloatNumber(s)
    ensures forall i :: 0 <= i < |s| ==> FloatChar(s[i])
  {
    var m :| 0 <= m <= |s| && IsMantissa(s[..m]) && IsExponentOrEmpty(s[m..]);
    MantissaChars(s[..m]);
    ExponentChars(s[m..]);
    forall i | 0 <= i < |s| ensures FloatChar(s[i]) {
      if i < m {
        assert s[..m][i] == s[i];
      } else {
        assert s[m..][i - m] == s[i];
      }
    }
  }

  /** A text holding a colon is never a float literal. */
  lemma {:induction false} ColonIsNotFloat(s: string)
    requires ':' in s
    ensures !IsF32Literal(s)
  {
    var i :| 0 <= i < |s| && s[i] == ':';
    var body := if |s| > 0 && (s[0] == '+' || s[0] == '-') then s[1..] else s;
    var j := if body == s then i else i - 1;
    assert body[j] == ':';
    LowerAt(body, j);
    var word := Lower(body);
    assert word[j] == ':';
    assert word != "inf" && word != "infinity" && word != "nan" by {
      assert ':' in word;
      assert ':' !in "inf" && ':' !in "infinity" && ':' !in "nan";
    }
    if IsFloatNumber(body) {
      FloatNumberChars(body);
    }
  }
}
