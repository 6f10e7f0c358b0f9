/**
 * The checksum text of an uploaded file: each byte of the MD5 digest written
 * as two lower-case hexadecimal digits (`String(format: "%02hhx", byte)`),
 * joined without separator. The digest itself is computed by CryptoKit and
 * enters the model as a function supplied by the caller.
 */
module Checksum {
  import opened Wrappers
  import opened Bytes

  /** An MD5 digest: 16 bytes. */
  type Digest = s: seq<byte> | |s| == 16
    witness [0, 0, 0, 0, 0, 0, 0, 0, 0, 0, 0, 0, 0, 0, 0, 0]

  const HexDigits: string := "0123456789abcdef"

  predicate IsLowerHexDigit(c: char) {
    '0' <= c <= '9' || 'a' <= c <= 'f'
  }

  function HexDigit(d: int): (c: char)
    requires 0 <= d < 16
    ensures IsLowerHexDigit(c)
  {
    HexDigits[d]
  }

  /** `String(format: "%02hhx", b)`. */
  function HexByte(b: byte): (s: string)
    ensures |s| == 2 && IsLowerHexDigit(s[0]) && IsLowerHexDigit(s[1])
  {
    [HexDigit(b / 16), HexDigit(b % 16)]
  }

  /** `digest.map { String(format: "%02hhx", $0) }.joined()`. */
  function Hex(bs: seq<byte>): (s: string)
    ensures |s| == 2 * |bs|
    ensures forall i :: 0 <= i < |s| ==> IsLowerHexDigit(s[i])
  {
    if bs == [] then [] else HexByte(bs[0]) + Hex(bs[1..])
  }

  /** The value of one hexadecimal digit, upper or lower case. */
  function HexDigitValue(c: char): (r: Option<int>)
    ensures r.Some? ==> 0 <= r.value < 16
  {
    if '0' <= c <= '9' then Some(c as int - '0' as int)
    else if 'a' <= c <= 'f' then Some(c as int - 'a' as int + 10)
    else if 'A' <= c <= 'F' then Some(c as int - 'A' as int + 10)
    else None
  }

  /** The bytes a hexadecimal text denotes, two digits per byte. */
  function FromHex(s: string): Option<seq<byte>>
    decreases |s|
  {
    if s == [] then Some([])
    else if |s| == 1 then None
    else match (HexDigitValue(s[0]), HexDigitValue(s[1]), FromHex(s[2..]))
      case (Some(hi), Some(lo), Some(rest)) => Some([hi * 16 + lo] + rest)
      case _ => None
  }

  lemma HexDigitValueOfHexDigit(d: int)
    requires 0 <= d < 16
    ensures HexDigitValue(HexDigit(d)) == Some(d)
  {
  }

  /** Round trip: the checksum text denotes exactly the digest's bytes. */
  lemma {:induction false} FromHexOfHex(bs: seq<byte>)
    ensures FromHex(Hex(bs)) == Some(bs)
  {
    if bs != [] {
      FromHexOfHex(bs[1..]);
      FromHexCons(bs[0], bs[1..]);
      ConsOfTail(bs);
    }
  }

  /** One step of the round trip: the two digits of a byte, followed by a
      text that denotes `t`, denote the byte followed by `t`. */
  lemma FromHexCons(b: byte, t: seq<byte>)
    requires FromHex(Hex(t)) == Some(t)
    ensures FromHex(Hex([b] + t)) == Some([b] + t)
  {
    var hi, lo := b / 16, b % 16;
    assert hi * 16 + lo == b;
    assert Hex([b] + t) == HexByte(b) + Hex(t) by {
      assert ([b] + t)[0] == b && ([b] + t)[1..] == t;
    }
    HexDigitValueOfHexDigit(hi);
    HexDigitValueOfHexDigit(lo);
    FromHexStep(HexDigit(hi), HexDigit(lo), Hex(t), hi, lo, t);
  }

  /** Two digits in front of a text prepend their byte to what it denotes. */
  lemma FromHexStep(c0: char, c1: char, rest: string, hi: int, lo: int, t: seq<byte>)
    requires HexDigitValue(c0) == Some(hi) && HexDigitValue(c1) == Some(lo) && FromHex(rest) == Some(t)
    requires 0 <= hi * 16 + lo < 256
    ensures FromHex([c0, c1] + rest) == Some([hi * 16 + lo] + t)
  {
    var s := [c0, c1] + rest;
    assert s[0] == c0 && s[1] == c1 && s[2..] == rest;
  }

  lemma ConsOfTail<T>(s: seq<T>)
    requires s != []
    ensures [s[0]] + s[1..] == s
  {
  }

  /** An MD5 checksum is 32 lower-case hexadecimal digits. */
  lemma DigestChecksumLength(d: Digest)
    ensures |Hex(d)| == 32
  {
  }
}
