/**
 * Go's `%x` rendering of a byte array (two lower-case hexadecimal digits per
 * byte, no separator), its inverse, and the conversion of the resulting ASCII
 * text back to bytes that `sarama.ByteEncoder(string)` performs.
 */
module Hex {
  import opened Types

  predicate IsLowerHexDigit(c: char) {
    '0' <= c <= '9' || 'a' <= c <= 'f'
  }

  /** The lower-case hexadecimal digit for a value below 16. */
  function Digit(n: nat): (c: char)
    requires n < 16
    ensures IsLowerHexDigit(c)
  {
    if n < 10 then ('0' as int + n) as char else ('a' as int + n - 10) as char
  }

  /** The value of one lower-case hexadecimal digit, None for any other character. */
  function DigitValue(c: char): (r: Option<nat>)
    ensures r.Some? <==> IsLowerHexDigit(c)
    ensures r.Some? ==> r.value < 16 && Digit(r.value) == c
    ensures forall n :: 0 <= n < 16 && Digit(n) == c ==> r == Some(n)
  {
    if '0' <= c <= '9' then Some(c as int - '0' as int)
    else if 'a' <= c <= 'f' then Some(c as int - 'a' as int + 10)
    else None
  }

  /** `fmt.Sprintf("%x", bs)`. */
  function HexString(bs: seq<byte>): (s: string)
    ensures |s| == 2 * |bs|
    ensures forall i :: 0 <= i < |s| ==> IsLowerHexDigit(s[i])
  {
    if bs == [] then ""
    else [Digit(bs[0] as int / 16), Digit(bs[0] as int % 16)] + HexString(bs[1..])
  }

  /** Byte k of the input becomes characters 2k (high nibble) and 2k+1 (low nibble). */
  lemma {:induction false} HexStringAt(bs: seq<byte>, k: nat)
    requires k < |bs|
    ensures HexString(bs)[2 * k] == Digit(bs[k] as int / 16)
    ensures HexString(bs)[2 * k + 1] == Digit(bs[k] as int % 16)
  {
    if k > 0 {
      HexStringAt(bs[1..], k - 1);
    }
  }

  /** Parses the text `%x` produces; anything else is None. */
  function HexDecode(s: string): (r: Option<seq<byte>>)
    ensures r.Some? ==> 2 * |r.value| == |s|
  {
    if s == [] then Some([])
    else if |s| == 1 then None
    else match (DigitValue(s[0]), DigitValue(s[1]), HexDecode(s[2..]))
      case (Some(hi), Some(lo), Some(rest)) => Some([(hi * 16 + lo) as byte] + rest)
      case _ => None
  }

  /** Decoding undoes the rendering. */
  lemma {:induction false} HexDecodeOfHexString(bs: seq<byte>)
    ensures HexDecode(HexString(bs)) == Some(bs)
  {
    if bs != [] {
      var s := HexString(bs);
      var hi, lo := bs[0] as int / 16, bs[0] as int % 16;
      assert DigitValue(s[0]) == Some(hi);
      assert DigitValue(s[1]) == Some(lo);
      assert s[2..] == HexString(bs[1..]);
      HexDecodeOfHexString(bs[1..]);
      assert [(hi * 16 + lo) as byte] + bs[1..] == bs;
    }
  }

  /** Every text the decoder accepts is the rendering of what it decodes to. */
  lemma {:induction false} HexStringOfHexDecode(s: string)
    ensures HexDecode(s).Some? ==> HexString(HexDecode(s).value) == s
  {
    if |s| >= 2 && HexDecode(s).Some? {
      var hi, lo := DigitValue(s[0]).value, DigitValue(s[1]).value;
      var rest := HexDecode(s[2..]).value;
      var b := (hi * 16 + lo) as byte;
      HexStringOfHexDecode(s[2..]);
      assert HexDecode(s).value == [b] + rest;
      assert ([b] + rest)[1..] == rest;
      assert b as int / 16 == hi && b as int % 16 == lo;
      assert s == [s[0], s[1]] + s[2..];
    }
  }

  /** Distinct byte strings render to distinct texts. */
  lemma HexStringInjective(a: seq<byte>, b: seq<byte>)
    ensures HexString(a) == HexString(b) ==> a == b
  {
    HexDecodeOfHexString(a);
    HexDecodeOfHexString(b);
  }

  /** Go's `[]byte(s)` for a string of ASCII characters (code points below 128). */
  function AsciiBytes(s: string): (b: seq<byte>)
    requires forall i :: 0 <= i < |s| ==> s[i] as int < 0x80
    ensures |b| == |s|
    ensures forall i :: 0 <= i < |s| ==> b[i] as int == s[i] as int
  {
    seq(|s|, i requires 0 <= i < |s| => s[i] as int as byte)
  }

  /** Lower-case hexadecimal digits are ASCII. */
  lemma HexDigitsAreAscii(s: string)
    requires forall i :: 0 <= i < |s| ==> IsLowerHexDigit(s[i])
    ensures forall i :: 0 <= i < |s| ==> s[i] as int < 0x80
  {
  }

  /** ASCII text is recovered from its bytes. */
  lemma AsciiBytesInjective(s: string, t: string)
    requires forall i :: 0 <= i < |s| ==> s[i] as int < 0x80
    requires forall i :: 0 <= i < |t| ==> t[i] as int < 0x80
    ensures AsciiBytes(s) == AsciiBytes(t) ==> s == t
  {
  }
}
