/** Rendering of a split time as `snprintf(buf, 32, "%ldmS", t)` does it:
    the signed decimal digits of `t` followed by "mS", cut to the 31
    characters that fit before the terminating NUL of a 32-byte buffer. */
module Decimal {

  /** Size of the character buffers the sketch formats into. */
  const MaxStrLen: nat := 32

  /** Range of a `long` on the ESP32 (32 bits). */
  const LongMin: int := -0x8000_0000
  const LongMax: int := 0x7FFF_FFFF

  predicate IsDigit(c: char) {
    '0' <= c <= '9'
  }

  predicate AllDigits(s: string) {
    forall i :: 0 <= i < |s| ==> IsDigit(s[i])
  }

  function DigitChar(d: nat): (c: char)
    requires d < 10
    ensures IsDigit(c) && c as int - '0' as int == d
  {
    ['0', '1', '2', '3', '4', '5', '6', '7', '8', '9'][d]
  }

  function DigitValue(c: char): nat
    requires IsDigit(c)
  {
    c as int - '0' as int
  }

  function Pow10(k: nat): (p: nat)
    ensures p >= 1
  {
    if k == 0 then 1 else 10 * Pow10(k - 1)
  }

  /** The decimal digits of `n`, most significant first, without leading zeros. */
  function Digits(n: nat): (r: string)
    ensures |r| >= 1 && AllDigits(r)
    ensures r[0] == '0' <==> n == 0
    decreases n
  {
    if n < 10 then [DigitChar(n)] else Digits(n / 10) + [DigitChar(n % 10)]
  }

  /** The value of a string of decimal digits; the inverse of `Digits`. */
  function ParseDigits(s: string): nat
    requires AllDigits(s)
    decreases |s|
  {
    if s == [] then 0 else ParseDigits(s[..|s| - 1]) * 10 + DigitValue(s[|s| - 1])
  }

  /** `%ld`: a minus sign for negative values, then the digits of the magnitude. */
  function Signed(n: int): (r: string)
    ensures |r| >= 1
    ensures n < 0 <==> r[0] == '-'
    ensures n < 0 ==> AllDigits(r[1..])
    ensures n >= 0 ==> AllDigits(r)
    ensures var m := if n < 0 then r[1..] else r; |m| >= 1 && (m[0] == '0' <==> n == 0)
  {
    if n < 0 then "-" + Digits(-n) else Digits(n)
  }

  predicate WellFormedSigned(s: string) {
    |s| >= 1 && (if s[0] == '-' then AllDigits(s[1..]) else AllDigits(s))
  }

  function ParseSigned(s: string): int
    requires WellFormedSigned(s)
  {
    if s[0] == '-' then 0 - ParseDigits(s[1..]) as int else ParseDigits(s)
  }

  /** What `snprintf` keeps of `s` in a buffer of `size` bytes. */
  function Truncate(s: string, size: nat): (r: string)
    requires size >= 1
    ensures |r| <= size - 1
    ensures |r| <= |s| && r == s[..|r|]
    ensures |s| < size ==> r == s
  {
    if |s| < size then s else s[..size - 1]
  }

  /** The text drawn for a split time, main.cpp's `snprintf(timeString,32,"%ldmS",t)`. */
  function FormatMillis(t: int): (r: string)
    ensures |r| < MaxStrLen
    ensures exists rest :: Signed(t) + "mS" == r + rest
    ensures |Signed(t)| + 2 < MaxStrLen ==> r == Signed(t) + "mS"
  {
    ghost var full := Signed(t) + "mS";
    assert full == Truncate(full, MaxStrLen) + full[|Truncate(full, MaxStrLen)|..];
    Truncate(Signed(t) + "mS", MaxStrLen)
  }

  lemma {:induction false} ParseDigitsOfDigits(n: nat)
    ensures ParseDigits(Digits(n)) == n
    decreases n
  {
    if n >= 10 {
      ParseDigitsOfDigits(n / 10);
      var s := Digits(n / 10) + [DigitChar(n % 10)];
      assert s[..|s| - 1] == Digits(n / 10);
    }
  }

  /** Every value the rendering can produce reads back as that value. */
  lemma ParseSignedOfSigned(n: int)
    ensures WellFormedSigned(Signed(n)) && ParseSigned(Signed(n)) == n
  {
    if n < 0 {
      ParseDigitsOfDigits(-n);
      assert Signed(n)[1..] == Digits(-n);
    } else {
      ParseDigitsOfDigits(n);
    }
  }

  lemma {:induction false} DigitsLength(n: nat, k: nat)
    requires 1 <= k && n < Pow10(k)
    ensures |Digits(n)| <= k
    decreases k
  {
    if n >= 10 {
      assert k >= 2;
      assert n / 10 < Pow10(k - 1);
      DigitsLength(n / 10, k - 1);
    }
  }

  lemma Pow10Ten()
    ensures Pow10(10) == 10_000_000_000
  {

  }

  /** A `long` never needs more than 13 characters ("-2147483648mS"), so the
      32-byte buffer never cuts the rendering short. */
  lemma FormatMillisOfLong(t: int)
    requires LongMin <= t <= LongMax
    ensures FormatMillis(t) == Signed(t) + "mS"
    ensures |FormatMillis(t)| <= 13
  {
    Pow10Ten();
    if t < 0 {
      DigitsLength(-t, 10);
    } else {
      DigitsLength(t, 10);
    }
  }
}
