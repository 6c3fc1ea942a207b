/**
 * Base64 as the captcha code uses it. `buffer.toString("base64")` is the
 * encoding of section 4 of RFC 4648 with `=` padding. `Buffer.from(s,
 * "base64")` is Node's lenient decoder: it also accepts the URL-safe
 * letters `-` and `_`, skips every other character outside the alphabet,
 * stops at the first `=`, and turns a final group of two or three letters
 * into one or two bytes (a lone final letter yields nothing).
 */
module Base64 {
  import opened Utf8

  /** The letter for a six-bit value, from the standard alphabet `A-Z a-z 0-9 + /`. */
  function Letter(v: int): (c: char)
    requires 0 <= v < 64
  {
    if v < 26 then ('A' as int + v) as char
    else if v < 52 then ('a' as int + (v - 26)) as char
    else if v < 62 then ('0' as int + (v - 52)) as char
    else if v == 62 then '+'
    else '/'
  }

  /** A letter of the standard alphabet. */
  predicate IsStandardLetter(c: char) {
    'A' <= c <= 'Z' || 'a' <= c <= 'z' || '0' <= c <= '9' || c == '+' || c == '/'
  }

  /** The six-bit value the decoder gives a character; -1 for a character it skips or stops at. */
  function Value(c: char): (v: int)
    ensures -1 <= v < 64
    ensures IsStandardLetter(c) ==> v >= 0
  {
    if 'A' <= c <= 'Z' then c as int - 'A' as int
    else if 'a' <= c <= 'z' then c as int - 'a' as int + 26
    else if '0' <= c <= '9' then c as int - '0' as int + 52
    else if c == '+' || c == '-' then 62
    else if c == '/' || c == '_' then 63
    else -1
  }

  lemma ValueLetter(v: int)
    requires 0 <= v < 64
    ensures IsStandardLetter(Letter(v)) && Value(Letter(v)) == v
  {
  }

  /** The four letters for three bytes. */
  function Group(b0: byte, b1: byte, b2: byte): string {
    [Letter(b0 as int / 4), Letter(b0 as int % 4 * 16 + b1 as int / 16),
     Letter(b1 as int % 16 * 4 + b2 as int / 64), Letter(b2 as int % 64)]
  }

  /**
   * `buffer.toString("base64")`: four letters per three bytes; a final
   * single byte gives two letters and `==`, a final pair three letters and `=`.
   */
  function Encode(bs: seq<byte>): (r: string)
    ensures |r| == 4 * ((|bs| + 2) / 3)
    decreases |bs|
  {
    if |bs| == 0 then []
    else if |bs| == 1 then
      [Letter(bs[0] as int / 4), Letter(bs[0] as int % 4 * 16), '=', '=']
    else if |bs| == 2 then
      [Letter(bs[0] as int / 4), Letter(bs[0] as int % 4 * 16 + bs[1] as int / 16),
       Letter(bs[1] as int % 16 * 4), '=']
    else
      assert (|bs| + 2) / 3 == (|bs[3..]| + 2) / 3 + 1;
      Group(bs[0], bs[1], bs[2]) + Encode(bs[3..])
  }

  /** Letters of the alphabet, with `=` allowed only in the last two places. */
  predicate Padded(s: string) {
    forall i :: 0 <= i < |s| ==> IsStandardLetter(s[i]) || (s[i] == '=' && i >= |s| - 2)
  }

  /** The encoder writes only alphabet letters and final padding. */
  lemma {:induction false} EncodePadded(bs: seq<byte>)
    ensures Padded(Encode(bs))
    decreases |bs|
  {
    if |bs| > 2 {
      var g, rest := Group(bs[0], bs[1], bs[2]), Encode(bs[3..]);
      EncodePadded(bs[3..]);
      assert Encode(bs) == g + rest && |g| == 4;
      forall i | 0 <= i < |g + rest|
        ensures IsStandardLetter((g + rest)[i]) || ((g + rest)[i] == '=' && i >= |g + rest| - 2)
      {
        if i >= 4 {
          assert (g + rest)[i] == rest[i - 4];
        }
      }
    }
  }

  predicate IsSextets(v: seq<int>) {
    forall i :: 0 <= i < |v| ==> 0 <= v[i] < 64
  }

  /** The values of the letters of `s` before its first `=`, skipping every other character. */
  function Sextets(s: string): (v: seq<int>)
    ensures IsSextets(v)
    ensures |v| <= |s|
  {
    if s == [] || s[0] == '=' then []
    else if Value(s[0]) >= 0 then [Value(s[0])] + Sextets(s[1..])
    else Sextets(s[1..])
  }

  /** Three bytes per four values; two values give one byte, three give two, one gives none. */
  function Bytes(v: seq<int>): (r: seq<byte>)
    requires IsSextets(v)
    ensures |r| == |v| / 4 * 3 + (if |v| % 4 == 0 then 0 else |v| % 4 - 1)
  {
    if |v| < 2 then []
    else if |v| == 2 then [(v[0] * 4 + v[1] / 16) as byte]
    else if |v| == 3 then [(v[0] * 4 + v[1] / 16) as byte, (v[1] % 16 * 16 + v[2] / 4) as byte]
    else
      [(v[0] * 4 + v[1] / 16) as byte, (v[1] % 16 * 16 + v[2] / 4) as byte, (v[2] % 4 * 64 + v[3]) as byte]
      + Bytes(v[4..])
  }

  /** `Buffer.from(s, "base64")`. */
  function Decode(s: string): seq<byte> {
    Bytes(Sextets(s))
  }

  /** A letter in front of a string contributes its value. */
  lemma SextetsCons(c: char, rest: string)
    requires IsStandardLetter(c)
    ensures Sextets([c] + rest) == [Value(c)] + Sextets(rest)
  {
    assert ([c] + rest)[1..] == rest;
  }

  /** Two letters in front of a string contribute their values, in order. */
  lemma SextetsTwo(a: char, b: char, rest: string)
    requires IsStandardLetter(a) && IsStandardLetter(b)
    ensures Sextets([a, b] + rest) == [Value(a), Value(b)] + Sextets(rest)
  {
    SextetsCons(b, rest);
    SextetsCons(a, [b] + rest);
    assert [a, b] + rest == [a] + ([b] + rest);
  }

  /** The values of the letters encoding three bytes decode back to those bytes. */
  lemma BytesGroup(b0: byte, b1: byte, b2: byte, w: seq<int>)
    requires IsSextets(w)
    ensures var v := [b0 as int / 4, b0 as int % 4 * 16 + b1 as int / 16, b1 as int % 16 * 4 + b2 as int / 64, b2 as int % 64];
      IsSextets(v + w) && Bytes(v + w) == [b0, b1, b2] + Bytes(w)
  {
    var v := [b0 as int / 4, b0 as int % 4 * 16 + b1 as int / 16, b1 as int % 16 * 4 + b2 as int / 64, b2 as int % 64];
    assert (v + w)[4..] == w;
    assert v[1] / 16 == b0 as int % 4 && v[1] % 16 == b1 as int / 16;
    assert v[2] / 4 == b1 as int % 16 && v[2] % 4 == b2 as int / 64;
  }

  /** The letters of a final single byte carry two values. */
  lemma SextetsEncodeOne(bs: seq<byte>)
    requires |bs| == 1
    ensures Sextets(Encode(bs)) == [bs[0] as int / 4, bs[0] as int % 4 * 16]
  {
    var v0, v1 := bs[0] as int / 4, bs[0] as int % 4 * 16;
    var a, b := Letter(v0), Letter(v1);
    assert Encode(bs) == [a, b, '=', '='];
    ValueLetter(v0);
    ValueLetter(v1);
    assert Sextets(['=', '=']) == [];
    SextetsTwo(a, b, ['=', '=']);
    assert [a, b, '=', '='] == [a, b] + ['=', '='];
  }

  /** The letters of a final pair of bytes carry three values. */
  lemma SextetsEncodeTwo(bs: seq<byte>)
    requires |bs| == 2
    ensures Sextets(Encode(bs)) == [bs[0] as int / 4, bs[0] as int % 4 * 16 + bs[1] as int / 16, bs[1] as int % 16 * 4]
  {
    var v0, v1, v2 := bs[0] as int / 4, bs[0] as int % 4 * 16 + bs[1] as int / 16, bs[1] as int % 16 * 4;
    GroupValuesInRange(bs[0], bs[1], 0);
    var a, b, c := Letter(v0), Letter(v1), Letter(v2);
    assert Encode(bs) == [a, b, c, '='];
    ValueLetter(v0);
    ValueLetter(v1);
    ValueLetter(v2);
    SextetsThreePadded(a, b, c);
  }

  /** Three letters and `=` carry the three values. */
  lemma SextetsThreePadded(a: char, b: char, c: char)
    requires IsStandardLetter(a) && IsStandardLetter(b) && IsStandardLetter(c)
    ensures Sextets([a, b, c, '=']) == [Value(a), Value(b), Value(c)]
  {
    SextetsCons(c, ['=']);
    assert Sextets(['=']) == [];
    SextetsTwo(a, b, [c, '=']);
    assert [a, b, c, '='] == [a, b] + [c, '='];
  }

  /** Two values decode to the byte they were made from. */
  lemma BytesOne(b0: byte)
    ensures Bytes([b0 as int / 4, b0 as int % 4 * 16]) == [b0]
  {
    assert (b0 as int % 4 * 16) / 16 == b0 as int % 4;
  }

  /** Three values decode to the pair of bytes they were made from. */
  lemma BytesTwo(b0: byte, b1: byte)
    ensures Bytes([b0 as int / 4, b0 as int % 4 * 16 + b1 as int / 16, b1 as int % 16 * 4]) == [b0, b1]
  {
    var v1 := b0 as int % 4 * 16 + b1 as int / 16;
    assert v1 / 16 == b0 as int % 4 && v1 % 16 == b1 as int / 16;
    assert (b1 as int % 16 * 4) / 4 == b1 as int % 16;
  }

  /** A final single byte survives the round trip. */
  lemma DecodeEncodeOne(bs: seq<byte>)
    requires |bs| == 1
    ensures Decode(Encode(bs)) == bs
  {
    SextetsEncodeOne(bs);
    BytesOne(bs[0]);
    assert bs == [bs[0]];
  }

  /** A final pair of bytes survives the round trip. */
  lemma DecodeEncodeTwo(bs: seq<byte>)
    requires |bs| == 2
    ensures Decode(Encode(bs)) == bs
  {
    SextetsEncodeTwo(bs);
    BytesTwo(bs[0], bs[1]);
    assert bs == [bs[0], bs[1]];
  }

  /** Four letters in front of a string contribute their values, in order. */
  lemma SextetsFour(a: char, b: char, c: char, d: char, rest: string)
    requires IsStandardLetter(a) && IsStandardLetter(b) && IsStandardLetter(c) && IsStandardLetter(d)
    ensures Sextets([a, b, c, d] + rest) == [Value(a), Value(b), Value(c), Value(d)] + Sextets(rest)
  {
    SextetsTwo(c, d, rest);
    SextetsTwo(a, b, [c, d] + rest);
    assert [a, b, c, d] + rest == [a, b] + ([c, d] + rest);
  }

  /** The four values of a group of three bytes are six-bit values. */
  lemma GroupValuesInRange(b0: byte, b1: byte, b2: byte)
    ensures 0 <= b0 as int / 4 < 64 && 0 <= b0 as int % 4 * 16 + b1 as int / 16 < 64
    ensures 0 <= b1 as int % 16 * 4 + b2 as int / 64 < 64 && 0 <= b2 as int % 64 < 64
  {
  }

  /** A full group of letters in front of the rest contributes its four values. */
  lemma SextetsGroup(b0: byte, b1: byte, b2: byte, rest: string)
    ensures Sextets(Group(b0, b1, b2) + rest)
         == [b0 as int / 4, b0 as int % 4 * 16 + b1 as int / 16, b1 as int % 16 * 4 + b2 as int / 64, b2 as int % 64]
            + Sextets(rest)
  {
    var v0, v1 := b0 as int / 4, b0 as int % 4 * 16 + b1 as int / 16;
    var v2, v3 := b1 as int % 16 * 4 + b2 as int / 64, b2 as int % 64;
    GroupValuesInRange(b0, b1, b2);
    ValueLetter(v0);
    ValueLetter(v1);
    ValueLetter(v2);
    ValueLetter(v3);
    SextetsFour(Letter(v0), Letter(v1), Letter(v2), Letter(v3), rest);
  }

  /** A full group of letters in front of the rest decodes to its three bytes. */
  lemma DecodeGroup(b0: byte, b1: byte, b2: byte, rest: string)
    ensures Decode(Group(b0, b1, b2) + rest) == [b0, b1, b2] + Decode(rest)
  {
    SextetsGroup(b0, b1, b2, rest);
    BytesGroup(b0, b1, b2, Sextets(rest));
  }

  /** Decoding undoes encoding, for every byte string. */
  lemma {:induction false} DecodeEncode(bs: seq<byte>)
    ensures Decode(Encode(bs)) == bs
    decreases |bs|
  {
    if |bs| == 1 {
      DecodeEncodeOne(bs);
    } else if |bs| == 2 {
      DecodeEncodeTwo(bs);
    } else if |bs| > 2 {
      var rest := Encode(bs[3..]);
      assert Encode(bs) == Group(bs[0], bs[1], bs[2]) + rest;
      DecodeGroup(bs[0], bs[1], bs[2], rest);
      DecodeEncode(bs[3..]);
      assert bs == [bs[0], bs[1], bs[2]] + bs[3..];
    }
  }

  /** Different byte strings have different encodings. */
  lemma EncodeInjective(a: seq<byte>, b: seq<byte>)
    requires Encode(a) == Encode(b)
    ensures a == b
  {
    DecodeEncode(a);
    DecodeEncode(b);
  }
}
