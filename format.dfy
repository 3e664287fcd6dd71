/**
 * Number spelling and reading shared by the tag fold and the composer:
 * decimal and hexadecimal digit strings, Python's `str(int)`, `int(text)`,
 * `int(text, 16)`, the `{:02X}` format, and the "smart" float printer on the
 * values the model can hold (integers, and integers divided by ten).
 */
module Format {

  predicate IsDecimalDigit(c: char) { '0' <= c <= '9' }

  predicate IsHexDigit(c: char) { '0' <= c <= '9' || 'A' <= c <= 'F' || 'a' <= c <= 'f' }

  predicate IsUpperHexDigit(c: char) { '0' <= c <= '9' || 'A' <= c <= 'F' }

  /** A non-empty run of decimal digits: what the grammar hands to `int(text)`. */
  predicate IsDigits(s: string) {
    |s| > 0 && forall i :: 0 <= i < |s| ==> IsDecimalDigit(s[i])
  }

  predicate IsHexDigits(s: string) {
    |s| > 0 && forall i :: 0 <= i < |s| ==> IsHexDigit(s[i])
  }

  /** An optionally signed decimal integer literal. */
  predicate IsIntegerText(s: string) {
    IsDigits(s) || (|s| > 1 && (s[0] == '-' || s[0] == '+') && IsDigits(s[1..]))
  }

  /** The digit string has no superfluous leading zero. */
  predicate IsCanonicalDigits(s: string) {
    IsDigits(s) && (s[0] == '0' ==> |s| == 1)
  }

  /** The upper-case character of digit `d` in base 16 (and base 10 below ten). */
  function DigitChar(d: nat): (c: char)
    requires d < 16
    ensures IsUpperHexDigit(c)
    ensures d < 10 ==> IsDecimalDigit(c)
  {
    "0123456789ABCDEF"[d]
  }

  function DecimalDigitValue(c: char): (d: nat)
    requires IsDecimalDigit(c)
    ensures d < 10
  {
    (c as int - '0' as int) as nat
  }

  function HexDigitValue(c: char): (d: nat)
    requires IsHexDigit(c)
    ensures d < 16
  {
    if '0' <= c <= '9' then (c as int - '0' as int) as nat
    else if 'A' <= c <= 'F' then (c as int - 'A' as int + 10) as nat
    else (c as int - 'a' as int + 10) as nat
  }

  lemma DigitCharValue(d: nat)
    requires d < 16
    ensures HexDigitValue(DigitChar(d)) == d
    ensures d < 10 ==> DecimalDigitValue(DigitChar(d)) == d
  {
  }

  /** Value of a decimal digit string, most significant digit first (`int(text)`). */
  function ReadDecimal(s: string): (n: nat)
    requires forall i :: 0 <= i < |s| ==> IsDecimalDigit(s[i])
  {
    if |s| == 0 then 0 else 10 * ReadDecimal(s[..|s| - 1]) + DecimalDigitValue(s[|s| - 1])
  }

  /** Value of a hexadecimal digit string in either case (`int(text, 16)`): `k` digits read below 16^k. */
  function ReadHex(s: string): (n: nat)
    requires forall i :: 0 <= i < |s| ==> IsHexDigit(s[i])
    ensures n < Pow(16, |s|)
  {
    if |s| == 0 then 0 else 16 * ReadHex(s[..|s| - 1]) + HexDigitValue(s[|s| - 1])
  }

  function Pow(b: nat, e: nat): nat {
    if e == 0 then 1 else b * Pow(b, e - 1)
  }

  /** `int(text)` on an optionally signed literal. */
  function ReadInteger(s: string): int
    requires IsIntegerText(s)
  {
    if IsDigits(s) then ReadDecimal(s)
    else if s[0] == '-' then -(ReadDecimal(s[1..]) as int)
    else ReadDecimal(s[1..])
  }

  /** Decimal spelling of a natural number without leading zeros. */
  function DecimalString(n: nat): (s: string)
    ensures IsCanonicalDigits(s)
  {
    if n < 10 then [DigitChar(n)] else DecimalString(n / 10) + [DigitChar(n % 10)]
  }

  /** Upper-case hexadecimal spelling of a natural number without leading zeros. */
  function HexString(n: nat): (s: string)
    ensures |s| > 0 && forall i :: 0 <= i < |s| ==> IsUpperHexDigit(s[i])
  {
    if n < 16 then [DigitChar(n)] else HexString(n / 16) + [DigitChar(n % 16)]
  }

  /**
   * `str(n)` for an int, which is also what the "smart" float printer writes
   * for a value without a fractional part.
   */
  function IntToString(n: int): (s: string)
    ensures |s| > 0 && forall i :: 0 <= i < |s| ==> s[i] == '-' || IsDecimalDigit(s[i])
    decreases if n < 0 then 1 - n else n
  {
    if n < 0 then "-" + IntToString(-n)
    else if n < 10 then [DigitChar(n)]
    else IntToString(n / 10) + [DigitChar(n % 10)]
  }

  /**
   * Python's `f"{v:02X}"`: upper-case hex zero-padded to width two; the
   * width counts a minus sign, so a negative value is the sign and its digits.
   */
  function Hex02(v: int): (s: string)
    ensures |s| >= 2 && forall i :: 0 <= i < |s| ==> s[i] == '-' || IsUpperHexDigit(s[i])
  {
    if v < 0 then "-" + HexString(-v)
    else if v < 16 then "0" + HexString(v)
    else HexString(v)
  }

  /**
   * The "smart" float printer applied to `d / 10` (true division): the integer
   * form when the quotient is whole, else the one-decimal-digit form.
   */
  function FormatTenths(d: int): (s: string)
    ensures forall i :: 0 <= i < |s| ==> s[i] == '-' || s[i] == '.' || IsDecimalDigit(s[i])
  {
    if d % 10 == 0 then IntToString(d / 10)
    else
      var m := if d < 0 then -d else d;
      (if d < 0 then "-" else "") + DecimalString(m / 10) + "." + [DigitChar(m % 10)]
  }

  // ---------------------------------------------------------------------------
  // Reading back what is written

  lemma {:induction false} ReadDecimalOfDecimalString(n: nat)
    ensures ReadDecimal(DecimalString(n)) == n
  {
    var s := DecimalString(n);
    if n >= 10 {
      ReadDecimalOfDecimalString(n / 10);
      assert s[..|s| - 1] == DecimalString(n / 10);
      DigitCharValue(n % 10);
    } else {
      DigitCharValue(n);
    }
  }

  lemma {:induction false} ReadHexOfHexString(n: nat)
    ensures ReadHex(HexString(n)) == n
  {
    var s := HexString(n);
    if n >= 16 {
      ReadHexOfHexString(n / 16);
      assert s[..|s| - 1] == HexString(n / 16);
      DigitCharValue(n % 16);
    } else {
      DigitCharValue(n);
    }
  }

  /** Leading zeros aside, reading then spelling a digit string gives it back. */
  lemma {:induction false} DecimalStringOfReadDecimal(s: string)
    requires IsCanonicalDigits(s)
    ensures DecimalString(ReadDecimal(s)) == s
  {
    if |s| == 1 {
      DigitCharValue(DecimalDigitValue(s[0]));
      assert DigitChar(DecimalDigitValue(s[0])) == s[0] by {
        assert "0123456789ABCDEF"[DecimalDigitValue(s[0])] == s[0];
      }
    } else {
      var p := s[..|s| - 1];
      var d := DecimalDigitValue(s[|s| - 1]);
      assert IsDigits(p) && p[0] == s[0];
      LeadingDigitPositive(p);
      DecimalStringOfReadDecimal(p);
      var n := ReadDecimal(s);
      assert n / 10 == ReadDecimal(p) && n % 10 == d;
      assert DigitChar(d) == s[|s| - 1] by {
        assert "0123456789ABCDEF"[d] == s[|s| - 1];
      }
      assert s == p + [s[|s| - 1]];
    }
  }

  /** A canonical digit string is what `str` writes for the value it denotes. */
  lemma IntToStringOfReadDecimal(s: string)
    requires IsCanonicalDigits(s)
    ensures IntToString(ReadDecimal(s)) == s
  {
    DecimalStringOfReadDecimal(s);
    IntToStringOfNat(ReadDecimal(s));
  }

  /** A digit string of two or more digits that starts with a non-zero digit is at least ten. */
  lemma {:induction false} LeadingDigitPositive(s: string)
    requires IsDigits(s) && s[0] != '0'
    ensures ReadDecimal(s) >= 1
    ensures |s| >= 2 ==> ReadDecimal(s) >= 10
  {
    if |s| >= 2 {
      var p := s[..|s| - 1];
      assert IsDigits(p) && p[0] == s[0];
      LeadingDigitPositive(p);
    }
  }

  /** On a non-negative value `str(n)` is the plain digit spelling. */
  lemma {:induction false} IntToStringOfNat(n: nat)
    ensures IntToString(n) == DecimalString(n)
  {
    if n >= 10 {
      IntToStringOfNat(n / 10);
    }
  }

  lemma ReadIntegerOfIntToString(n: int)
    ensures IsIntegerText(IntToString(n))
    ensures ReadInteger(IntToString(n)) == n
  {
    var s := IntToString(n);
    if n < 0 {
      IntToStringOfNat(-n);
      assert s[1..] == DecimalString(-n);
      ReadDecimalOfDecimalString(-n);
    } else {
      IntToStringOfNat(n);
      ReadDecimalOfDecimalString(n);
    }
  }

  /** Two hex digits always denote a byte, so a hex byte value needs no range check. */
  lemma TwoHexDigitsAreAByte(s: string)
    requires |s| == 2 && IsHexDigits(s)
    ensures 0 <= ReadHex(s) <= 255
  {
    assert Pow(16, 2) == 256;
  }

  /**
   * A byte is written as exactly two upper-case hex digits, high nibble first,
   * and reads back as itself.
   */
  lemma Hex02OfByte(b: int)
    requires 0 <= b <= 255
    ensures Hex02(b) == [DigitChar(b / 16), DigitChar(b % 16)]
    ensures IsHexDigits(Hex02(b)) && ReadHex(Hex02(b)) == b
  {
    DigitCharValue(b / 16);
    DigitCharValue(b % 16);
    var s := Hex02(b);
    if b < 16 {
      assert s == "0" + [DigitChar(b)];
    } else {
      assert HexString(b / 16) == [DigitChar(b / 16)];
      assert s == [DigitChar(b / 16)] + [DigitChar(b % 16)];
    }
    assert s[..1] == [DigitChar(b / 16)];
    assert s[..1][..0] == [];
    assert ReadHex(s[..1]) == b / 16;
  }

  /** Any non-negative value written by `{:02X}` reads back as itself. */
  lemma ReadHexOfHex02(v: nat)
    ensures IsHexDigits(Hex02(v)) && ReadHex(Hex02(v)) == v
  {
    if v < 16 {
      Hex02OfByte(v);
    } else {
      ReadHexOfHexString(v);
    }
  }

  /** Dividing a stored tenfold value by ten prints the original integer. */
  lemma FormatTenthsOfTenfold(v: int)
    ensures FormatTenths(10 * v) == IntToString(v)
  {
    assert (10 * v) % 10 == 0 && (10 * v) / 10 == v;
  }

  /**
   * A value that is not a multiple of ten prints as its sign, the whole tens
   * of its magnitude, a point, and its last decimal digit, which is not zero.
   */
  lemma FormatTenthsFraction(d: int)
    requires d % 10 != 0
    ensures var s := FormatTenths(d);
      |s| >= 3 && s[|s| - 2] == '.' && s[|s| - 1] == DigitChar((if d < 0 then -d else d) % 10)
      && s[|s| - 1] != '0'
      && s[..|s| - 2] == (if d < 0 then "-" else "") + DecimalString((if d < 0 then -d else d) / 10)
  {
    var m := if d < 0 then -d else d;
    var head := (if d < 0 then "-" else "") + DecimalString(m / 10);
    assert FormatTenths(d) == head + "." + [DigitChar(m % 10)];
    assert (head + "." + [DigitChar(m % 10)])[..|head|] == head;
    assert m % 10 != 0;
    DigitCharValue(m % 10);
  }
}
