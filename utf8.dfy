/**
 * UTF-8, as the captcha code uses it: `Buffer.from(answer)` encodes a
 * string into UTF-8 bytes, and `buffer.toString()` decodes bytes back,
 * replacing each maximal ill-formed subpart by U+FFFD (the WHATWG decoder
 * Node follows). Characters are Unicode scalar values.
 */
module Utf8 {

  newtype byte = x: int | 0 <= x < 256

  const Replacement: char := '\U{FFFD}'

  /** A continuation byte `10xxxxxx`. */
  predicate IsContinuation(b: byte) {
    0x80 <= b <= 0xBF
  }

  /** The number of bytes UTF-8 uses for a scalar value. */
  function EncodedLength(c: char): nat {
    var cp := c as int;
    if cp < 0x80 then 1 else if cp < 0x800 then 2 else if cp < 0x1_0000 then 3 else 4
  }

  /** The UTF-8 bytes of one scalar value (section 3 of RFC 3629): six bits per continuation byte. */
  function EncodeChar(c: char): (r: seq<byte>)
    ensures |r| == EncodedLength(c)
    ensures |r| == 1 <==> r[0] < 0x80
    ensures forall j :: 1 <= j < |r| ==> IsContinuation(r[j])
  {
    var cp := c as int;
    var r0, q1 := cp % 64, cp / 64;
    var r1, q2 := q1 % 64, q1 / 64;
    var r2, q3 := q2 % 64, q2 / 64;
    if cp < 0x80 then
      [cp as byte]
    else if cp < 0x800 then
      [(0xC0 + q1) as byte, (0x80 + r0) as byte]
    else if cp < 0x1_0000 then
      [(0xE0 + q2) as byte, (0x80 + r1) as byte, (0x80 + r0) as byte]
    else
      [(0xF0 + q3) as byte, (0x80 + r2) as byte, (0x80 + r1) as byte, (0x80 + r0) as byte]
  }

  /** `Buffer.from(s)`: the UTF-8 encoding of a string. */
  function Encode(s: string): (r: seq<byte>)
    ensures |s| <= |r| <= 4 * |s|
  {
    if s == [] then [] else EncodeChar(s[0]) + Encode(s[1..])
  }

  lemma {:induction false} EncodeAppend(a: string, b: string)
    ensures Encode(a + b) == Encode(a) + Encode(b)
  {
    if a == [] {
      assert a + b == b;
    } else {
      assert (a + b)[1..] == a[1..] + b;
      EncodeAppend(a[1..], b);
    }
  }

  // ------------------------------------------------------------------ decoding

  /** The length of the sequence a lead byte announces; 0 when it cannot start one. */
  function SequenceLength(b: byte): nat {
    if b < 0x80 then 1
    else if 0xC2 <= b <= 0xDF then 2
    else if 0xE0 <= b <= 0xEF then 3
    else if 0xF0 <= b <= 0xF4 then 4
    else 0
  }

  /** The range the second byte must lie in, which excludes overlong forms, surrogates and values past U+10FFFF. */
  function SecondLow(lead: byte): int {
    if lead == 0xE0 then 0xA0 else if lead == 0xF0 then 0x90 else 0x80
  }

  function SecondHigh(lead: byte): int {
    if lead == 0xED then 0x9F else if lead == 0xF4 then 0x8F else 0xBF
  }

  /** Byte `j` of `bs` may follow the bytes before it in the sequence `bs[0]` starts. */
  predicate Follows(bs: seq<byte>, j: nat)
    requires 0 < j < |bs|
  {
    if j == 1 then SecondLow(bs[0]) <= bs[1] as int <= SecondHigh(bs[0]) else IsContinuation(bs[j])
  }

  /**
   * The length of the longest prefix of `bs` of at most `need` bytes,
   * starting with `j` bytes already accepted, in which every byte follows
   * its predecessors: the maximal subpart of the sequence `bs[0]` starts.
   */
  function Subpart(bs: seq<byte>, need: nat, j: nat): (m: nat)
    requires 1 <= j <= need && j <= |bs|
    ensures j <= m <= need && m <= |bs|
    ensures forall i :: j <= i < m ==> Follows(bs, i)
    ensures m < need ==> m == |bs| || !Follows(bs, m)
    decreases need - j
  {
    if j < need && j < |bs| && Follows(bs, j) then Subpart(bs, need, j + 1) else j
  }

  /** The number a complete, well-formed sequence of two to four bytes encodes. */
  function CodePoint(bs: seq<byte>): int
    requires 2 <= |bs| <= 4
  {
    var lead := bs[0] as int - (if |bs| == 2 then 0xC0 else if |bs| == 3 then 0xE0 else 0xF0);
    var x1 := lead * 64 + (bs[1] as int - 0x80);
    var x2 := if |bs| == 2 then x1 else x1 * 64 + (bs[2] as int - 0x80);
    if |bs| <= 3 then x2 else x2 * 64 + (bs[3] as int - 0x80)
  }

  /** A well-formed sequence encodes a scalar value: no surrogate and nothing past U+10FFFF. */
  lemma CodePointIsScalar(bs: seq<byte>)
    requires 2 <= |bs| <= 4 && SequenceLength(bs[0]) == |bs|
    requires forall i :: 1 <= i < |bs| ==> Follows(bs, i)
    ensures 0 <= CodePoint(bs) < 0xD800 || 0xE000 <= CodePoint(bs) < 0x11_0000
  {
    assert Follows(bs, 1);
    if |bs| == 3 {
      assert Follows(bs, 2);
      if bs[0] < 0xED {
        assert CodePoint(bs) < 0xD000;
      } else if bs[0] == 0xED {
        assert CodePoint(bs) < 0xD800;
      } else {
        assert CodePoint(bs) >= 0xE000;
      }
    } else if |bs| == 4 {
      assert Follows(bs, 2) && Follows(bs, 3);
    }
  }

  function Combine(bs: seq<byte>): char
    requires 2 <= |bs| <= 4 && SequenceLength(bs[0]) == |bs|
    requires forall i :: 1 <= i < |bs| ==> Follows(bs, i)
  {
    CodePointIsScalar(bs);
    CodePoint(bs) as char
  }

  /** One step of the decoder: the next character and how many bytes it consumed. */
  function DecodeStep(bs: seq<byte>): (r: (char, nat))
    requires bs != []
    ensures 1 <= r.1 <= |bs|
  {
    var need := SequenceLength(bs[0]);
    if need == 1 then (bs[0] as int as char, 1)
    else if need == 0 then (Replacement, 1)
    else
      var m := Subpart(bs, need, 1);
      if m == need then
        var prefix := bs[..need];
        assert prefix[0] == bs[0] && forall i :: 1 <= i < need ==> Follows(prefix, i) == Follows(bs, i);
        (Combine(prefix), need)
      else (Replacement, m)
  }

  /** `buffer.toString()`: UTF-8 decoding with U+FFFD for every maximal ill-formed subpart. */
  function Decode(bs: seq<byte>): (s: string)
    ensures |s| <= |bs|
    decreases |bs|
  {
    if bs == [] then []
    else
      var (c, n) := DecodeStep(bs);
      [c] + Decode(bs[n..])
  }

  /** The bytes of a character beyond U+007F combine back to its scalar value. */
  lemma CodePointEncodeChar(c: char)
    requires c as int >= 0x80
    ensures CodePoint(EncodeChar(c)) == c as int
  {
    var cp := c as int;
    var r0, q1 := cp % 64, cp / 64;
    var r1, q2 := q1 % 64, q1 / 64;
    var r2, q3 := q2 % 64, q2 / 64;
    assert cp == q1 * 64 + r0 && q1 == q2 * 64 + r1 && q2 == q3 * 64 + r2;
  }

  /** Decoding the bytes of one character, whatever follows them, gives that character back. */
  lemma DecodeStepEncodeChar(c: char, rest: seq<byte>)
    ensures DecodeStep(EncodeChar(c) + rest) == (c, EncodedLength(c))
  {
    var e := EncodeChar(c);
    var bs := e + rest;
    var n := |e|;
    assert bs[..n] == e;
    if n > 1 {
      assert SequenceLength(bs[0]) == n by {
        assert c as int >= 0x80;
      }
      assert forall i :: 1 <= i < n ==> Follows(bs, i) by {
        assert c as int < 0x800 ==> SecondLow(bs[0]) == 0x80;
      }
      SubpartComplete(bs, n, 1);
      CodePointEncodeChar(c);
    }
  }

  /** When every byte up to `need` follows, the maximal subpart is the whole sequence. */
  lemma {:induction false} SubpartComplete(bs: seq<byte>, need: nat, j: nat)
    requires 1 <= j <= need <= |bs|
    requires forall i :: j <= i < need ==> Follows(bs, i)
    ensures Subpart(bs, need, j) == need
    decreases need - j
  {
    if j < need {
      SubpartComplete(bs, need, j + 1);
    }
  }

  /** Decoding undoes encoding: every string survives a trip through its UTF-8 bytes. */
  lemma {:induction false} DecodeEncode(s: string)
    ensures Decode(Encode(s)) == s
  {
    if s != [] {
      var e, t := EncodeChar(s[0]), Encode(s[1..]);
      DecodeStepEncodeChar(s[0], t);
      assert (e + t)[|e|..] == t;
      DecodeEncode(s[1..]);
      assert s == [s[0]] + s[1..];
    }
  }

  /** Different strings have different encodings. */
  lemma EncodeInjective(s: string, t: string)
    requires Encode(s) == Encode(t)
    ensures s == t
  {
    DecodeEncode(s);
    DecodeEncode(t);
  }
}
