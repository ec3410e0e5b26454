/**
 * Java's integer-to-text conversions (`Integer.toString`, `%d`,
 * `Integer.toBinaryString`) on unbounded integers, each with the parser
 * that reads it back.
 */
module JavaText {
  /** The digit character for a value below ten. */
  function DigitChar(d: int): (c: char)
    requires 0 <= d < 10
    ensures '0' <= c <= '9' && c as int - '0' as int == d
  {
    ('0' as int + d) as char
  }

  predicate IsDigit(c: char)
  {
    '0' <= c <= '9'
  }

  /** The decimal digits of n, with no leading zero (a lone "0" for zero). */
  function Digits(n: nat): (s: string)
    ensures |s| >= 1
    ensures forall i :: 0 <= i < |s| ==> IsDigit(s[i])
    ensures n > 0 ==> s[0] != '0'
  {
    if n < 10 then [DigitChar(n)] else Digits(n / 10) + [DigitChar(n % 10)]
  }

  /** The value of a string of decimal digits. */
  function ParseDigits(s: string): int
  {
    if |s| == 0 then 0 else 10 * ParseDigits(s[..|s| - 1]) + (s[|s| - 1] as int - '0' as int)
  }

  lemma {:induction false} ParseDigitsOfDigits(n: nat)
    ensures ParseDigits(Digits(n)) == n
  {
    var s := Digits(n);
    if n >= 10 {
      ParseDigitsOfDigits(n / 10);
      assert s[..|s| - 1] == Digits(n / 10);
    }
  }

  /** `Integer.toString` and `%d`: a minus sign for negatives, then the digits. */
  function Decimal(n: int): (s: string)
    ensures |s| >= 1
  {
    if n < 0 then "-" + Digits(-n) else Digits(n)
  }

  /** Reads a Decimal text back: an optional minus sign, then digits. */
  function ParseDecimal(s: string): int
  {
    if |s| > 0 && s[0] == '-' then -ParseDigits(s[1..]) else ParseDigits(s)
  }

  lemma DecimalRoundTrip(n: int)
    ensures ParseDecimal(Decimal(n)) == n
  {
    var m: nat := if n < 0 then -n else n;
    ParseDigitsOfDigits(m);
    ParseSigned(Digits(m));
  }

  /** A digit string reads as itself; behind a minus sign, as its negation. */
  lemma ParseSigned(d: string)
    requires |d| >= 1 && IsDigit(d[0])
    ensures ParseDecimal(d) == ParseDigits(d)
    ensures ParseDecimal("-" + d) == -ParseDigits(d)
  {
    var s := "-" + d;
    assert s[0] == '-' && s[1..] == d;
  }

  /** The binary digits of n, with no leading zero (a lone "0" for zero). */
  function Bits(n: nat): (s: string)
    ensures |s| >= 1
    ensures forall i :: 0 <= i < |s| ==> s[i] == '0' || s[i] == '1'
    ensures n > 0 ==> s[0] == '1'
  {
    if n < 2 then (if n == 0 then "0" else "1") else Bits(n / 2) + (if n % 2 == 0 then "0" else "1")
  }

  /** The value of a string of binary digits. */
  function ParseBits(s: string): nat
  {
    if |s| == 0 then 0 else 2 * ParseBits(s[..|s| - 1]) + (if s[|s| - 1] == '1' then 1 else 0)
  }

  lemma {:induction false} ParseBitsOfBits(n: nat)
    ensures ParseBits(Bits(n)) == n
  {
    var s := Bits(n);
    if n >= 2 {
      ParseBitsOfBits(n / 2);
      assert s[..|s| - 1] == Bits(n / 2);
    }
  }

  function Pow2(k: nat): (r: nat)
    ensures r >= 1
  {
    if k == 0 then 1 else 2 * Pow2(k - 1)
  }

  /** The binary text of 2^k is a one followed by k zeros. */
  lemma {:induction false} BitsOfPow2(k: nat)
    ensures Bits(Pow2(k)) == "1" + seq(k, _ => '0')
  {
    if k > 0 {
      BitsOfPow2(k - 1);
      assert Pow2(k) / 2 == Pow2(k - 1);
      assert "1" + seq(k, _ => '0') == ("1" + seq(k - 1, _ => '0')) + "0";
    }
  }

  /** `Integer.toBinaryString`: a negative int is written as its 32-bit two's complement. */
  function BinaryString(n: int): (s: string)
    requires -0x8000_0000 <= n < 0x8000_0000
    ensures n < 0 ==> |s| == 32 && s[0] == '1'
  {
    if n < 0 then (BitsLength(n + 0x1_0000_0000); Bits(n + 0x1_0000_0000)) else Bits(n)
  }

  /** A number in [2^(k-1), 2^k) has k binary digits. */
  lemma {:induction false} BitsLengthAt(n: nat, k: nat)
    requires k >= 1 && Pow2(k - 1) <= n < Pow2(k)
    ensures |Bits(n)| == k
  {
    if k > 1 {
      BitsLengthAt(n / 2, k - 1);
    }
  }

  lemma BitsLength(n: nat)
    requires 0x8000_0000 <= n < 0x1_0000_0000
    ensures |Bits(n)| == 32
  {
    assert Pow2(31) == 0x8000_0000 by { Pow2Value31(); }
    BitsLengthAt(n, 32);
  }

  lemma Pow2Value31()
    ensures Pow2(31) == 0x8000_0000 && Pow2(32) == 0x1_0000_0000
  {
    assert Pow2(8) == 256;
    assert Pow2(16) == 65536;
    assert Pow2(24) == 0x100_0000;
  }

  /** An octet of a byte stream, read as an unsigned value. */
  type Byte = b: int | 0 <= b < 256

  predicate IsAscii(s: string)
  {
    forall i :: 0 <= i < |s| ==> s[i] as int < 128
  }

  /** `getBytes(UTF_8)` of ASCII text: one byte per character. */
  function Ascii(s: string): (b: seq<Byte>)
    requires IsAscii(s)
    ensures |b| == |s|
    ensures forall i :: 0 <= i < |b| ==> b[i] == s[i] as int
  {
    seq(|s|, i requires 0 <= i < |s| => s[i] as int)
  }

  /** Decoding a byte stream to text, one character per byte (UTF-8 agrees on ASCII). */
  function Text(b: seq<Byte>): (s: string)
    ensures |s| == |b|
  {
    if |b| == 0 then [] else [b[0] as char] + Text(b[1..])
  }

  lemma {:induction false} TextAppend(a: seq<Byte>, b: seq<Byte>)
    ensures Text(a + b) == Text(a) + Text(b)
  {
    if |a| > 0 {
      assert (a + b)[1..] == a[1..] + b;
      TextAppend(a[1..], b);
    } else {
      assert a + b == b;
    }
  }

  /** Different byte streams decode to different texts. */
  lemma {:induction false} TextInjective(a: seq<Byte>, b: seq<Byte>)
    requires Text(a) == Text(b)
    ensures a == b
  {
    if |a| > 0 {
      assert Text(a)[0] == Text(b)[0];
      assert Text(a)[1..] == Text(a[1..]) && Text(b)[1..] == Text(b[1..]);
      TextInjective(a[1..], b[1..]);
      assert a == [a[0]] + a[1..] && b == [b[0]] + b[1..];
    }
  }

  /** Decoding the ASCII encoding of a text gives the text back. */
  lemma {:induction false} TextOfAscii(s: string)
    requires IsAscii(s)
    ensures Text(Ascii(s)) == s
  {
    if |s| > 0 {
      assert Ascii(s)[1..] == Ascii(s[1..]);
      TextOfAscii(s[1..]);
    }
  }


  /** `Integer.toString` only writes ASCII characters. */
  lemma DecimalIsAscii(n: int)
    ensures IsAscii(Decimal(n))
  {
  }
}
