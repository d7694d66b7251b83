/** The hexadecimal text `hashPassword` makes of the derived key bytes: each
    byte as `b.toString(16).padStart(2, '0')`, joined. */
module PasswordHex {
  import opened Common

  newtype byte = x: int | 0 <= x < 256

  /** The lowercase digit `toString(16)` prints for a value below 16. */
  function HexDigit(d: int): (c: char)
    requires 0 <= d < 16
    ensures IsHexChar(c)
  {
    if d < 10 then ('0' as int + d) as char else ('a' as int + d - 10) as char
  }

  predicate IsHexChar(c: char) {
    '0' <= c <= '9' || 'a' <= c <= 'f'
  }

  /** The value of a lowercase hexadecimal digit, nothing for any other character. */
  function HexValue(c: char): (v: Option<int>)
    ensures v.Some? <==> IsHexChar(c)
    ensures v.Some? ==> 0 <= v.value < 16 && HexDigit(v.value) == c
  {
    if '0' <= c <= '9' then Some(c as int - '0' as int)
    else if 'a' <= c <= 'f' then Some(c as int - 'a' as int + 10)
    else None
  }

  /** `Number.prototype.toString(16)` on a natural number. */
  function ToBase16(n: nat): (s: string)
    ensures |s| > 0
  {
    if n < 16 then [HexDigit(n)] else ToBase16(n / 16) + [HexDigit(n % 16)]
  }

  /** `String.prototype.padStart(len, c)` with a one-character pad. */
  function PadStart(s: string, len: nat, c: char): (r: string)
    ensures |r| == if |s| >= len then |s| else len
    ensures r[|r| - |s|..] == s
    ensures forall i :: 0 <= i < |r| - |s| ==> r[i] == c
  {
    if |s| >= len then s else seq(len - |s|, _ => c) + s
  }

  /** One byte as the source prints it. */
  function ByteToHex(b: byte): string {
    PadStart(ToBase16(b as nat), 2, '0')
  }

  /** Every byte prints as exactly two digits, high nibble first, so zero
      bytes keep their leading `0`. */
  lemma ByteToHexDigits(b: byte)
    ensures ByteToHex(b) == [HexDigit(b as int / 16), HexDigit(b as int % 16)]
  {
    var n := b as nat;
    if n >= 16 {
      assert ToBase16(n / 16) == [HexDigit(n / 16)];
    }
  }

  /** The digits of all bytes, in order. */
  function HexEncode(bs: seq<byte>): (s: string)
    ensures |s| == 2 * |bs|
  {
    if bs == [] then [] else
      ByteToHexDigits(bs[0]);
      ByteToHex(bs[0]) + HexEncode(bs[1..])
  }

  /** One step of the encoding: the first byte's digits, then the rest. */
  lemma HexEncodeUnfold(bs: seq<byte>)
    requires bs != []
    ensures HexEncode(bs) == ByteToHex(bs[0]) + HexEncode(bs[1..])
  {
  }

  /** Both digits printed for a byte are lowercase hexadecimal. */
  lemma ByteToHexAlphabet(b: byte)
    ensures forall c :: c in ByteToHex(b) ==> IsHexChar(c)
  {
    ByteToHexDigits(b);
  }

  /** Every character of the encoding is a lowercase hexadecimal digit. */
  lemma {:induction false} HexEncodeChars(bs: seq<byte>)
    ensures forall c :: c in HexEncode(bs) ==> IsHexChar(c)
  {
    if bs != [] {
      HexEncodeChars(bs[1..]);
      ByteToHexAlphabet(bs[0]);
      HexEncodeUnfold(bs);
    }
  }

  /** The same, position by position. */
  lemma HexEncodeAlphabet(bs: seq<byte>)
    ensures forall i :: 0 <= i < |HexEncode(bs)| ==> IsHexChar(HexEncode(bs)[i])
  {
    HexEncodeChars(bs);
  }

  /** Two lowercase digits, high nibble first, read as one byte. */
  function DecodePair(c0: char, c1: char): Option<byte> {
    var hi, lo := HexValue(c0), HexValue(c1);
    if hi.None? || lo.None? then None else Some((hi.value * 16 + lo.value) as byte)
  }

  /** Reads pairs of lowercase digits back into bytes. */
  function HexDecode(s: string): Option<seq<byte>> {
    if |s| == 0 then Some([])
    else if |s| == 1 then None
    else
      var b, rest := DecodePair(s[0], s[1]), HexDecode(s[2..]);
      if b.None? || rest.None? then None else Some([b.value] + rest.value)
  }

  /** A digit reads back as its value. */
  lemma HexValueOfDigit(d: int)
    requires 0 <= d < 16
    ensures HexValue(HexDigit(d)) == Some(d)
  {
  }

  /** The two digits of a byte read back as that byte. */
  lemma DecodePairOfByte(b: byte)
    ensures DecodePair(HexDigit(b as int / 16), HexDigit(b as int % 16)) == Some(b)
  {
    var n := b as int;
    HexValueOfDigit(n / 16);
    HexValueOfDigit(n % 16);
    assert n / 16 * 16 + n % 16 == n;
  }

  /** Decoding one printed byte in front of any text. */
  lemma HexDecodeByte(b: byte, rest: string)
    ensures HexDecode(ByteToHex(b) + rest) ==
      if HexDecode(rest).None? then None else Some([b] + HexDecode(rest).value)
  {
    var c0, c1 := HexDigit(b as int / 16), HexDigit(b as int % 16);
    ByteToHexDigits(b);
    DecodePairOfByte(b);
    var s := [c0, c1] + rest;
    assert ByteToHex(b) + rest == s;
    assert s[0] == c0 && s[1] == c1 && s[2..] == rest;
  }

  /** Decoding undoes encoding. */
  lemma {:induction false} HexRoundTrip(bs: seq<byte>)
    ensures HexDecode(HexEncode(bs)) == Some(bs)
  {
    if bs != [] {
      HexRoundTrip(bs[1..]);
      HexDecodeByte(bs[0], HexEncode(bs[1..]));
      assert [bs[0]] + bs[1..] == bs;
    }
  }

  /** Different key bytes never print the same text, so comparing the texts
      compares the keys. */
  lemma HexEncodeInjective(a: seq<byte>, b: seq<byte>)
    ensures HexEncode(a) == HexEncode(b) <==> a == b
  {
    if HexEncode(a) == HexEncode(b) {
      HexRoundTrip(a);
      HexRoundTrip(b);
    }
  }
}
