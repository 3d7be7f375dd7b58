/**
 * Hexadecimal text, as Go's encoding/hex decodes it (DecodeString accepts both
 * letter cases and rejects odd length or any non-hex character) and encodes it
 * (EncodeToString writes lower case).
 */
module Hex {
  import opened Wrappers

  type byte = x: int | 0 <= x < 256

  predicate IsHexDigit(c: char) {
    '0' <= c <= '9' || 'a' <= c <= 'f' || 'A' <= c <= 'F'
  }

  function FromHexChar(c: char): (v: nat)
    requires IsHexDigit(c)
    ensures v < 16
  {
    if '0' <= c <= '9' then c as int - '0' as int
    else if 'a' <= c <= 'f' then c as int - 'a' as int + 10
    else c as int - 'A' as int + 10
  }

  /** The lower-case hex digit of v. */
  function HexChar(v: nat): (c: char)
    requires v < 16
    ensures IsHexDigit(c) && FromHexChar(c) == v && !('A' <= c <= 'F')
  {
    if v < 10 then ('0' as int + v) as char else ('a' as int + v - 10) as char
  }

  /** The byte written by the hex digit pair at positions 2i and 2i+1 of s. */
  function PairValue(s: string, i: nat): byte
    requires 2 * i + 1 < |s| && IsHexDigit(s[2 * i]) && IsHexDigit(s[2 * i + 1])
  {
    FromHexChar(s[2 * i]) * 16 + FromHexChar(s[2 * i + 1])
  }

  /**
   * hex.DecodeString: it succeeds exactly on even-length text made of hex
   * digits, and then byte i is the value of digit pair i.
   */
  function DecodeString(s: string): (r: Option<seq<byte>>)
    ensures r.Some? <==> |s| % 2 == 0 && forall i :: 0 <= i < |s| ==> IsHexDigit(s[i])
    ensures r.Some? ==> 2 * |r.value| == |s|
    ensures r.Some? ==> forall i :: 0 <= i < |r.value| ==> r.value[i] == PairValue(s, i)
  {
    if |s| == 0 then Some([])
    else if |s| == 1 then None
    else if IsHexDigit(s[0]) && IsHexDigit(s[1]) then
      match DecodeString(s[2..])
      case None => None
      case Some(rest) => Some([FromHexChar(s[0]) * 16 + FromHexChar(s[1])] + rest)
    else None
  }

  /** hex.EncodeToString: two lower-case digits per byte, high nibble first. */
  function EncodeToString(b: seq<byte>): (s: string)
    ensures |s| == 2 * |b|
  {
    if b == [] then "" else [HexChar(b[0] / 16), HexChar(b[0] % 16)] + EncodeToString(b[1..])
  }

  /** Decoding undoes encoding. */
  lemma {:induction false} DecodeEncode(b: seq<byte>)
    ensures DecodeString(EncodeToString(b)) == Some(b)
  {
    if b != [] {
      var s := EncodeToString(b);
      assert s[0] == HexChar(b[0] / 16) && s[1] == HexChar(b[0] % 16);
      assert s[2..] == EncodeToString(b[1..]);
      DecodeEncode(b[1..]);
      assert FromHexChar(s[0]) * 16 + FromHexChar(s[1]) == b[0];
      assert [b[0]] + b[1..] == b;
    }
  }

  /** The lower-case form of a character; only 'A' to 'F' matter here. */
  function LowerHex(c: char): char {
    if 'A' <= c <= 'F' then (c as int - 'A' as int + 'a' as int) as char else c
  }

  lemma HexCharOfDigit(c: char)
    requires IsHexDigit(c)
    ensures HexChar(FromHexChar(c)) == LowerHex(c)
  {
  }

  /**
   * Encoding what was decoded gives the text back in lower case: hex text
   * that differs only in letter case ("AB", "ab") decodes to the same bytes.
   */
  lemma {:induction false} EncodeDecode(s: string)
    requires DecodeString(s).Some?
    ensures EncodeToString(DecodeString(s).value) == seq(|s|, i requires 0 <= i < |s| => LowerHex(s[i]))
  {
    if |s| >= 2 {
      var b := DecodeString(s).value;
      assert DecodeString(s[2..]).value == b[1..];
      EncodeDecode(s[2..]);
      HexCharOfDigit(s[0]);
      HexCharOfDigit(s[1]);
      var hi, lo := FromHexChar(s[0]), FromHexChar(s[1]);
      assert b[0] == hi * 16 + lo;
      assert b[0] / 16 == hi && b[0] % 16 == lo;
    }
  }
}
