/** The base 64 encoding of section 4 of RFC 4648 (standard alphabet, '='
    padding), as produced by Node's `Buffer.toString('base64')`, together
    with its decoding. */
module Base64 {
  import opened Bytes
  import opened Wrappers

  const Pad: char := '='

  /** The character that encodes the 6-bit value `i` (section 4, Table 1). */
  function Sextet(i: nat): (c: char)
    requires i < 64
    ensures c != Pad
  {
    if i < 26 then ('A' as int + i) as char
    else if i < 52 then ('a' as int + (i - 26)) as char
    else if i < 62 then ('0' as int + (i - 52)) as char
    else if i == 62 then '+'
    else '/'
  }

  /** The 6-bit value a character of the alphabet encodes, if it is one. */
  function SextetValue(c: char): (r: Option<nat>)
    ensures r.Some? ==> r.value < 64 && Sextet(r.value) == c
  {
    if 'A' <= c <= 'Z' then Some(c as int - 'A' as int)
    else if 'a' <= c <= 'z' then Some(c as int - 'a' as int + 26)
    else if '0' <= c <= '9' then Some(c as int - '0' as int + 52)
    else if c == '+' then Some(62)
    else if c == '/' then Some(63)
    else None
  }

  predicate InAlphabet(c: char) {
    SextetValue(c).Some?
  }

  lemma SextetValueOfSextet(i: nat)
    requires i < 64
    ensures SextetValue(Sextet(i)) == Some(i)
  {
  }

  /** Every three input octets become four characters; a final group of one
      or two octets becomes two or three characters followed by padding. */
  function Encode(bs: seq<Byte>): (s: string)
    ensures |s| == (|bs| + 2) / 3 * 4
  {
    if |bs| == 0 then ""
    else if |bs| == 1 then
      [Sextet(bs[0] / 4), Sextet(bs[0] % 4 * 16), Pad, Pad]
    else if |bs| == 2 then
      [Sextet(bs[0] / 4), Sextet(bs[0] % 4 * 16 + bs[1] / 16), Sextet(bs[1] % 16 * 4), Pad]
    else
      [Sextet(bs[0] / 4), Sextet(bs[0] % 4 * 16 + bs[1] / 16),
       Sextet(bs[1] % 16 * 4 + bs[2] / 64), Sextet(bs[2] % 64)]
      + Encode(bs[3..])
  }

  /** Reads a padded base 64 text back into octets; None when it is not one. */
  function Decode(s: string): Option<seq<Byte>>
    decreases |s|
  {
    if |s| == 0 then Some([])
    else if |s| < 4 then None
    else
      var v0, v1, v2, v3 := SextetValue(s[0]), SextetValue(s[1]), SextetValue(s[2]), SextetValue(s[3]);
      if v0.None? || v1.None? then None
      else
        var b0: Byte := v0.value * 4 + v1.value / 16;
        if |s| == 4 && s[2] == Pad && s[3] == Pad then Some([b0])
        else if v2.None? then None
        else
          var b1: Byte := v1.value % 16 * 16 + v2.value / 4;
          if |s| == 4 && s[3] == Pad then Some([b0, b1])
          else if v3.None? then None
          else
            var b2: Byte := v2.value % 4 * 64 + v3.value;
            match Decode(s[4..])
            case None => None
            case Some(rest) => Some([b0, b1, b2] + rest)
  }

  /** Every character is in the alphabet, except padding, which may only
      fill the last one or two places. */
  predicate WellFormed(s: string) {
    forall i :: 0 <= i < |s| ==> InAlphabet(s[i]) || (s[i] == Pad && i >= |s| - 2)
  }

  /** An encoding uses the alphabet and pads only at its end. */
  lemma {:induction false} EncodeWellFormed(bs: seq<Byte>)
    ensures WellFormed(Encode(bs))
  {
    var s := Encode(bs);
    if |bs| > 0 {
      SextetValueOfSextet(bs[0] / 4);
    }
    if |bs| == 1 {
      SextetValueOfSextet(bs[0] % 4 * 16);
    } else if |bs| == 2 {
      SextetValueOfSextet(bs[0] % 4 * 16 + bs[1] / 16);
      SextetValueOfSextet(bs[1] % 16 * 4);
    } else if |bs| >= 3 {
      SextetValueOfSextet(bs[0] % 4 * 16 + bs[1] / 16);
      SextetValueOfSextet(bs[1] % 16 * 4 + bs[2] / 64);
      SextetValueOfSextet(bs[2] % 64);
      EncodeWellFormed(bs[3..]);
      var t := Encode(bs[3..]);
      assert s[4..] == t && |s| == |t| + 4;
      forall i | 4 <= i < |s| ensures InAlphabet(s[i]) || (s[i] == Pad && i >= |s| - 2) {
        assert s[i] == t[i - 4];
      }
    }
  }

  lemma DecodeLastOne(b0: Byte)
    ensures Decode(Encode([b0])) == Some([b0])
  {
    SextetValueOfSextet(b0 / 4);
    SextetValueOfSextet(b0 % 4 * 16);
  }

  lemma DecodeLastTwo(b0: Byte, b1: Byte)
    ensures Decode(Encode([b0, b1])) == Some([b0, b1])
  {
    var v1 := b0 % 4 * 16 + b1 / 16;
    SextetValueOfSextet(b0 / 4);
    SextetValueOfSextet(v1);
    SextetValueOfSextet(b1 % 16 * 4);
    assert v1 / 16 == b0 % 4 && v1 % 16 == b1 / 16;
    assert b1 % 16 * 4 / 4 == b1 % 16;
  }

  /** The sextets of a full group put back together give the three octets. */
  lemma GroupSextets(b0: Byte, b1: Byte, b2: Byte)
    ensures var v1, v2 := b0 % 4 * 16 + b1 / 16, b1 % 16 * 4 + b2 / 64;
      b0 / 4 * 4 + v1 / 16 == b0 && v1 % 16 * 16 + v2 / 4 == b1 && v2 % 4 * 64 + b2 % 64 == b2
  {
    var v1, v2 := b0 % 4 * 16 + b1 / 16, b1 % 16 * 4 + b2 / 64;
    assert v1 / 16 == b0 % 4 && v1 % 16 == b1 / 16;
    assert v2 / 4 == b1 % 16 && v2 % 4 == b2 / 64;
  }

  /** A full group of three octets encodes to four characters ahead of the rest. */
  lemma EncodeGroup(b0: Byte, b1: Byte, b2: Byte, rest: seq<Byte>)
    ensures Encode([b0, b1, b2] + rest)
         == [Sextet(b0 / 4), Sextet(b0 % 4 * 16 + b1 / 16), Sextet(b1 % 16 * 4 + b2 / 64), Sextet(b2 % 64)]
            + Encode(rest)
  {
    var bs := [b0, b1, b2] + rest;
    assert bs[3..] == rest;
    assert bs[0] == b0 && bs[1] == b1 && bs[2] == b2;
  }

  /** Four unpadded characters decode to the three octets they were made from. */
  lemma DecodeFour(b0: Byte, b1: Byte, b2: Byte, t: string)
    ensures var s := [Sextet(b0 / 4), Sextet(b0 % 4 * 16 + b1 / 16), Sextet(b1 % 16 * 4 + b2 / 64), Sextet(b2 % 64)] + t;
      Decode(s) == if Decode(t).Some? then Some([b0, b1, b2] + Decode(t).value) else None
  {
    var v0, v1, v2, v3 := b0 / 4, b0 % 4 * 16 + b1 / 16, b1 % 16 * 4 + b2 / 64, b2 % 64;
    var s := [Sextet(v0), Sextet(v1), Sextet(v2), Sextet(v3)] + t;
    assert s[4..] == t;
    SextetValueOfSextet(v0);
    SextetValueOfSextet(v1);
    SextetValueOfSextet(v2);
    SextetValueOfSextet(v3);
    assert SextetValue(s[0]) == Some(v0) && SextetValue(s[1]) == Some(v1);
    assert SextetValue(s[2]) == Some(v2) && SextetValue(s[3]) == Some(v3);
    GroupSextets(b0, b1, b2);
  }

  lemma DecodeGroup(b0: Byte, b1: Byte, b2: Byte, rest: seq<Byte>)
    ensures var s, t := Encode([b0, b1, b2] + rest), Encode(rest);
      Decode(s) == if Decode(t).Some? then Some([b0, b1, b2] + Decode(t).value) else None
  {
    EncodeGroup(b0, b1, b2, rest);
    DecodeFour(b0, b1, b2, Encode(rest));
  }

  /** Decoding an encoding gives back the octets that were encoded. */
  lemma {:induction false} DecodeEncode(bs: seq<Byte>)
    ensures Decode(Encode(bs)) == Some(bs)
  {
    if |bs| == 1 {
      assert bs == [bs[0]];
      DecodeLastOne(bs[0]);
    } else if |bs| == 2 {
      assert bs == [bs[0], bs[1]];
      DecodeLastTwo(bs[0], bs[1]);
    } else if |bs| >= 3 {
      assert bs == [bs[0], bs[1], bs[2]] + bs[3..];
      DecodeEncode(bs[3..]);
      DecodeGroup(bs[0], bs[1], bs[2], bs[3..]);
    }
  }
}
