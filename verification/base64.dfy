/**
 * Base 64 encoding of section 4 of RFC 4648 (alphabet A-Z a-z 0-9 + /, padding
 * with '='), as used for audio payloads by `base64.b64encode` and
 * `base64.b64decode` in the audio socket handler.
 */
module Base64 {
  import opened Wrappers

  type byte = x: int | 0 <= x < 256

  /** The 64 characters of the alphabet, with their 6-bit values. */
  predicate IsAlphabet(c: char) {
    ('A' <= c <= 'Z') || ('a' <= c <= 'z') || ('0' <= c <= '9') || c == '+' || c == '/'
  }

  /** The alphabet character of a 6-bit value (table 1 of RFC 4648). */
  function CharOf(v: nat): (c: char)
    requires v < 64
    ensures IsAlphabet(c)
  {
    if v < 26 then ('A' as int + v) as char
    else if v < 52 then ('a' as int + (v - 26)) as char
    else if v < 62 then ('0' as int + (v - 52)) as char
    else if v == 62 then '+'
    else '/'
  }

  /** The 6-bit value of an alphabet character. */
  function ValueOf(c: char): (v: nat)
    requires IsAlphabet(c)
    ensures v < 64
  {
    if 'A' <= c <= 'Z' then (c as int) - ('A' as int)
    else if 'a' <= c <= 'z' then (c as int) - ('a' as int) + 26
    else if '0' <= c <= '9' then (c as int) - ('0' as int) + 52
    else if c == '+' then 62
    else 63
  }

  lemma ValueOfCharOf(v: nat)
    requires v < 64
    ensures ValueOf(CharOf(v)) == v
  {
  }

  /** Encodes one full 24-bit group as four characters. */
  function EncodeGroup(b0: byte, b1: byte, b2: byte): string {
    [CharOf(b0 / 4), CharOf((b0 % 4) * 16 + b1 / 16), CharOf((b1 % 16) * 4 + b2 / 64), CharOf(b2 % 64)]
  }

  /** `base64.b64encode(bytes).decode()`: groups of three bytes, padded at the end. */
  function Encode(bs: seq<byte>): (s: string)
    ensures |s| == 4 * ((|bs| + 2) / 3)
    ensures forall i :: 0 <= i < |s| ==> IsAlphabet(s[i]) || s[i] == '='
  {
    if |bs| == 0 then ""
    else if |bs| == 1 then [CharOf(bs[0] / 4), CharOf((bs[0] % 4) * 16), '=', '=']
    else if |bs| == 2 then
      [CharOf(bs[0] / 4), CharOf((bs[0] % 4) * 16 + bs[1] / 16), CharOf((bs[1] % 16) * 4), '=']
    else EncodeGroup(bs[0], bs[1], bs[2]) + Encode(bs[3..])
  }

  /**
   * Decoding of canonical base 64 text, the part of `base64.b64decode` this
   * model covers: the length must be a multiple of four and '=' may only pad
   * the last group.  Like Python, bits left over in a padded group are
   * ignored.  Python's lenient decoder also accepts text this function
   * rejects (surplus '=', data after a padded group, characters outside the
   * alphabet, which it discards).
   */
  function Decode(s: string): (r: Option<seq<byte>>)
    ensures r.Some? ==> |s| % 4 == 0 && 3 * |s| / 4 - 2 <= |r.value| <= 3 * |s| / 4
    decreases |s|
  {
    if |s| == 0 then Some([])
    else if |s| < 4 then None
    else if !(IsAlphabet(s[0]) && IsAlphabet(s[1])) then None
    else
      var v0, v1 := ValueOf(s[0]), ValueOf(s[1]);
      var first: byte := v0 * 4 + v1 / 16;
      if |s| == 4 && s[2] == '=' && s[3] == '=' then Some([first])
      else if !IsAlphabet(s[2]) then None
      else
        var v2 := ValueOf(s[2]);
        var second: byte := (v1 % 16) * 16 + v2 / 4;
        if |s| == 4 && s[3] == '=' then Some([first, second])
        else if !IsAlphabet(s[3]) then None
        else
          var third: byte := (v2 % 4) * 64 + ValueOf(s[3]);
          match Decode(s[4..])
          case None => None
          case Some(rest) => Some([first, second, third] + rest)
  }

  lemma GroupArithmetic(b0: byte, b1: byte, b2: byte)
    ensures (b0 / 4) * 4 + ((b0 % 4) * 16 + b1 / 16) / 16 == b0
    ensures (((b0 % 4) * 16 + b1 / 16) % 16) * 16 + ((b1 % 16) * 4 + b2 / 64) / 4 == b1
    ensures (((b1 % 16) * 4 + b2 / 64) % 4) * 64 + b2 % 64 == b2
  {
  }

  lemma DecodeOneByte(b0: byte)
    ensures Decode(Encode([b0])) == Some([b0])
  {
    var s := Encode([b0]);
    ValueOfCharOf(b0 / 4);
    ValueOfCharOf((b0 % 4) * 16);
    GroupArithmetic(b0, 0, 0);
    assert s == [CharOf(b0 / 4), CharOf((b0 % 4) * 16), '=', '='];
    assert ValueOf(s[0]) * 4 + ValueOf(s[1]) / 16 == b0;
  }

  lemma DecodeTwoBytes(b0: byte, b1: byte)
    ensures Decode(Encode([b0, b1])) == Some([b0, b1])
  {
    var s := Encode([b0, b1]);
    ValueOfCharOf(b0 / 4);
    ValueOfCharOf((b0 % 4) * 16 + b1 / 16);
    ValueOfCharOf((b1 % 16) * 4);
    GroupArithmetic(b0, b1, 0);
    assert s == [CharOf(b0 / 4), CharOf((b0 % 4) * 16 + b1 / 16), CharOf((b1 % 16) * 4), '='];
    assert ValueOf(s[0]) * 4 + ValueOf(s[1]) / 16 == b0;
    assert (ValueOf(s[1]) % 16) * 16 + ValueOf(s[2]) / 4 == b1;
  }

  lemma DecodeGroupThenRest(b0: byte, b1: byte, b2: byte, rest: string, tail: seq<byte>)
    requires Decode(rest) == Some(tail)
    ensures Decode(EncodeGroup(b0, b1, b2) + rest) == Some([b0, b1, b2] + tail)
  {
    var s := EncodeGroup(b0, b1, b2) + rest;
    ValueOfCharOf(b0 / 4);
    ValueOfCharOf((b0 % 4) * 16 + b1 / 16);
    ValueOfCharOf((b1 % 16) * 4 + b2 / 64);
    ValueOfCharOf(b2 % 64);
    GroupArithmetic(b0, b1, b2);
    assert s[4..] == rest;
    assert s[3] != '=';
    assert ValueOf(s[0]) * 4 + ValueOf(s[1]) / 16 == b0;
    assert (ValueOf(s[1]) % 16) * 16 + ValueOf(s[2]) / 4 == b1;
    assert (ValueOf(s[2]) % 4) * 64 + ValueOf(s[3]) == b2;
  }

  /** Decoding what was encoded gives back the original bytes. */
  lemma {:induction false} DecodeEncode(bs: seq<byte>)
    ensures Decode(Encode(bs)) == Some(bs)
  {
    if |bs| == 1 {
      assert bs == [bs[0]];
      DecodeOneByte(bs[0]);
    } else if |bs| == 2 {
      assert bs == [bs[0], bs[1]];
      DecodeTwoBytes(bs[0], bs[1]);
    } else if |bs| > 2 {
      var tail := bs[3..];
      assert Encode(bs) == EncodeGroup(bs[0], bs[1], bs[2]) + Encode(tail);
      DecodeEncode(tail);
      DecodeGroupThenRest(bs[0], bs[1], bs[2], Encode(tail), tail);
      assert bs == [bs[0], bs[1], bs[2]] + tail;
    }
  }
}
