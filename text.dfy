/** Base-10 rendering of a natural number, as GMP's `mpz_get_str` writes it,
    and the NUL-terminated scan that `CStr::from_ptr` performs. */
module Text {

  const NUL: char := '\0'

  predicate IsDigit(c: char)
  {
    '0' <= c <= '9'
  }

  predicate AllDigits(s: string)
  {
    forall i :: 0 <= i < |s| ==> IsDigit(s[i])
  }

  function DigitChar(d: nat): (c: char)
    requires d < 10
    ensures IsDigit(c)
  {
    ('0' as int + d) as char
  }

  function DigitValue(c: char): (d: nat)
    requires IsDigit(c)
    ensures d < 10
  {
    c as int - '0' as int
  }

  /** The decimal digits of `v`: at least one, no leading zero, no sign. */
  function Decimal(v: nat): (s: string)
    ensures |s| >= 1 && AllDigits(s)
    ensures |s| > 1 ==> s[0] != '0'
    decreases v
  {
    if v < 10 then [DigitChar(v)] else Decimal(v / 10) + [DigitChar(v % 10)]
  }

  /** Reads a run of decimal digits back as a number. */
  function ParseDecimal(s: string): nat
    requires AllDigits(s)
  {
    if s == [] then 0 else 10 * ParseDecimal(s[..|s| - 1]) + DigitValue(s[|s| - 1])
  }

  /** Parsing undoes rendering. */
  lemma {:induction false} DecimalRoundTrip(v: nat)
    ensures ParseDecimal(Decimal(v)) == v
  {
    var s := Decimal(v);
    if v >= 10 {
      DecimalRoundTrip(v / 10);
      assert s[..|s| - 1] == Decimal(v / 10);
    }
  }

  /** A decimal rendering never holds the NUL terminator. */
  lemma DecimalHasNoNul(v: nat)
    ensures NUL !in Decimal(v)
  {
  }

  /** The text `CStr::from_ptr` sees in a NUL-terminated buffer: everything before
      the first NUL. */
  function CStr(buf: string): (s: string)
    requires NUL in buf
    ensures |s| < |buf| && s == buf[..|s|]
    ensures NUL !in s && buf[|s|] == NUL
  {
    if buf[0] == NUL then [] else [buf[0]] + CStr(buf[1..])
  }

  /** A buffer holding `text`, a NUL, then anything, reads back as exactly `text`. */
  lemma CStrOfTerminated(text: string, rest: string)
    requires NUL !in text
    ensures CStr(text + [NUL] + rest) == text
  {
    var buf := text + [NUL] + rest;
    assert forall i :: 0 <= i < |text| ==> buf[i] == text[i];
    assert buf[|text|] == NUL;
  }
}
