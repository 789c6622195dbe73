/**
 * The base64url text of a JSON Web Token segment (section 5 of RFC 4648, used
 * without padding by section 2 of RFC 7515), and what the client does with
 * it: pad the segment with '=' to a multiple of four characters, then decode
 * it. The decoder here is strict: every character must be in the base64url
 * alphabet (with '+' and '/' read as 62 and 63, as Python does) and '=' may
 * only close the last group. Python's `base64.urlsafe_b64decode` is more
 * lenient (it skips characters outside the alphabet and stops at the first
 * completed pad), so a segment it still decodes can be undecodable here.
 */
module Base64Url {
  import opened Json

  type Byte = b: int | 0 <= b < 256

  /** The character for a 6-bit value in the base64url alphabet. */
  function Char64(v: int): (c: char)
    requires 0 <= v < 64
  {
    if v < 26 then ('A' as int + v) as char
    else if v < 52 then ('a' as int + (v - 26)) as char
    else if v < 62 then ('0' as int + (v - 52)) as char
    else if v == 62 then '-'
    else '_'
  }

  /**
   * The 6-bit value of a character. `urlsafe_b64decode` maps '-' and '_' to
   * '+' and '/' before decoding, so both spellings of 62 and 63 are accepted.
   */
  function Value(c: char): (r: Option<int>)
    ensures r.Some? ==> 0 <= r.value < 64
  {
    if 'A' <= c <= 'Z' then Some(c as int - 'A' as int)
    else if 'a' <= c <= 'z' then Some(c as int - 'a' as int + 26)
    else if '0' <= c <= '9' then Some(c as int - '0' as int + 52)
    else if c == '-' || c == '+' then Some(62)
    else if c == '_' || c == '/' then Some(63)
    else None
  }

  /** Every character of the alphabet decodes back to its value and is not the pad '='. */
  lemma ValueChar64(v: int)
    requires 0 <= v < 64
    ensures Value(Char64(v)) == Some(v) && Char64(v) != '='
  {
  }

  /** The number of '=' the client appends: `4 - len % 4` when `len % 4` is not zero, else none. */
  function PadCount(n: nat): nat
  {
    (4 - n % 4) % 4
  }

  /**
   * The segment followed by '=' up to the next multiple of four characters;
   * a segment that is already aligned is left as it is.
   */
  function Pad(s: string): (r: string)
    ensures |r| % 4 == 0 && |s| <= |r| < |s| + 4
    ensures r[..|s|] == s && forall i :: |s| <= i < |r| ==> r[i] == '='
    ensures |s| % 4 == 0 ==> r == s
  {
    s + seq(PadCount(|s|), _ => '=')
  }

  /** Three bytes from four 6-bit values. */
  function Triple(a: int, b: int, c: int, d: int): seq<Byte>
    requires 0 <= a < 64 && 0 <= b < 64 && 0 <= c < 64 && 0 <= d < 64
  {
    [a * 4 + b / 16, (b % 16) * 16 + c / 4, (c % 4) * 64 + d]
  }

  /**
   * One group of four characters. Only the last group may end in padding:
   * "xx==" carries one byte and "xxx=" two.
   */
  function DecodeGroup(g: string, last: bool): Option<seq<Byte>>
    requires |g| == 4
  {
    var v0, v1, v2, v3 := Value(g[0]), Value(g[1]), Value(g[2]), Value(g[3]);
    if last && g[2] == '=' && g[3] == '=' then
      if v0.Some? && v1.Some? then Some([v0.value * 4 + v1.value / 16]) else None
    else if last && g[3] == '=' then
      if v0.Some? && v1.Some? && v2.Some? then
        Some([v0.value * 4 + v1.value / 16, (v1.value % 16) * 16 + v2.value / 4])
      else None
    else if v0.Some? && v1.Some? && v2.Some? && v3.Some? then
      Some(Triple(v0.value, v1.value, v2.value, v3.value))
    else None
  }

  /** Decodes a padded text, or None where it is not strict padded base64url. */
  function Decode(s: string): Option<seq<Byte>>
    decreases |s|
  {
    if s == [] then Some([])
    else if |s| < 4 then None
    else
      match DecodeGroup(s[..4], |s| == 4)
      case None => None
      case Some(g) =>
        match Decode(s[4..])
        case None => None
        case Some(rest) => Some(g + rest)
  }

  /** Unpadded base64url encoding, as a token issuer writes each segment. */
  function EncodeNoPad(bs: seq<Byte>): (s: string)
    decreases |bs|
  {
    if |bs| == 0 then []
    else if |bs| == 1 then [Char64(bs[0] / 4), Char64((bs[0] % 4) * 16)]
    else if |bs| == 2 then
      [Char64(bs[0] / 4), Char64((bs[0] % 4) * 16 + bs[1] / 16), Char64((bs[1] % 16) * 4)]
    else EncodeGroup(bs[0], bs[1], bs[2]) + EncodeNoPad(bs[3..])
  }

  /** The four characters that carry three bytes. */
  function EncodeGroup(b0: Byte, b1: Byte, b2: Byte): (g: string)
    ensures |g| == 4
  {
    [Char64(b0 / 4), Char64((b0 % 4) * 16 + b1 / 16), Char64((b1 % 16) * 4 + b2 / 64), Char64(b2 % 64)]
  }

  /** A full group decodes to the three bytes it was encoded from, wherever it stands. */
  lemma GroupRoundTrip(b0: Byte, b1: Byte, b2: Byte, last: bool)
    ensures DecodeGroup(EncodeGroup(b0, b1, b2), last) == Some([b0, b1, b2])
  {
    SplitThree(b0, b1, b2);
    GroupOfChars(b0 / 4, (b0 % 4) * 16 + b1 / 16, (b1 % 16) * 4 + b2 / 64, b2 % 64, last);
  }

  /** Four alphabet characters decode to the three bytes their values carry. */
  lemma GroupOfChars(a: int, b: int, c: int, d: int, last: bool)
    requires 0 <= a < 64 && 0 <= b < 64 && 0 <= c < 64 && 0 <= d < 64
    ensures DecodeGroup([Char64(a), Char64(b), Char64(c), Char64(d)], last) == Some(Triple(a, b, c, d))
  {
    ValueChar64(a); ValueChar64(b); ValueChar64(c); ValueChar64(d);
  }

  lemma GroupTwoPads(a: int, b: int)
    requires 0 <= a < 64 && 0 <= b < 64
    ensures DecodeGroup([Char64(a), Char64(b), '=', '='], true) == Some([a * 4 + b / 16])
  {
    ValueChar64(a); ValueChar64(b);
  }

  lemma GroupOnePad(a: int, b: int, c: int)
    requires 0 <= a < 64 && 0 <= b < 64 && 0 <= c < 64
    ensures DecodeGroup([Char64(a), Char64(b), Char64(c), '='], true)
         == Some([a * 4 + b / 16, (b % 16) * 16 + c / 4])
  {
    ValueChar64(a); ValueChar64(b); ValueChar64(c);
  }

  lemma SplitThree(b0: Byte, b1: Byte, b2: Byte)
    ensures Triple(b0 / 4, (b0 % 4) * 16 + b1 / 16, (b1 % 16) * 4 + b2 / 64, b2 % 64) == [b0, b1, b2]
  {
    var b := (b0 % 4) * 16 + b1 / 16;
    var c := (b1 % 16) * 4 + b2 / 64;
    assert b / 16 == b0 % 4 && b % 16 == b1 / 16;
    assert c / 4 == b1 % 16 && c % 4 == b2 / 64;
  }

  /** A four-character text is decoded as a final group. */
  lemma DecodeLast(p: string)
    requires |p| == 4
    ensures Decode(p) == DecodeGroup(p, true)
  {
    assert p[..4] == p && p[4..] == [];
    match DecodeGroup(p, true)
    case None =>
    case Some(g) => assert g + [] == g;
  }

  /** Padding only looks at the length of what precedes a full group. */
  lemma PadAfterGroup(g: string, rest: string)
    requires |g| == 4
    ensures Pad(g + rest) == g + Pad(rest)
  {
    assert PadCount(|g + rest|) == PadCount(|rest|);
  }

  /** A longer text is decoded group by group. */
  lemma DecodeFirst(p: string, g: seq<Byte>, rest: seq<Byte>)
    requires |p| > 4 && DecodeGroup(p[..4], false) == Some(g) && Decode(p[4..]) == Some(rest)
    ensures Decode(p) == Some(g + rest)
  {
  }

  lemma OneByteArith(b0: Byte, a: int, b: int)
    requires a == b0 / 4 && b == (b0 % 4) * 16
    ensures [a * 4 + b / 16] == [b0]
  {
    assert b / 16 == b0 % 4;
  }

  lemma TwoByteArith(b0: Byte, b1: Byte, a: int, b: int, c: int)
    requires a == b0 / 4 && b == (b0 % 4) * 16 + b1 / 16 && c == (b1 % 16) * 4
    ensures [a * 4 + b / 16, (b % 16) * 16 + c / 4] == [b0, b1]
  {
    assert b / 16 == b0 % 4 && b % 16 == b1 / 16;
    assert c / 4 == b1 % 16;
  }

  lemma DecodeOneByte(bs: seq<Byte>)
    requires |bs| == 1
    ensures Decode(Pad(EncodeNoPad(bs))) == Some(bs)
  {
    var a, b := bs[0] / 4, (bs[0] % 4) * 16;
    var e := EncodeNoPad(bs);
    assert e == [Char64(a), Char64(b)];
    var p := Pad(e);
    assert PadCount(2) == 2 && seq(2, _ => '=') == "==";
    assert p == [Char64(a), Char64(b), '=', '='];
    DecodeLast(p);
    GroupTwoPads(a, b);
    OneByteArith(bs[0], a, b);
    assert bs == [bs[0]];
  }

  lemma DecodeTwoBytes(bs: seq<Byte>)
    requires |bs| == 2
    ensures Decode(Pad(EncodeNoPad(bs))) == Some(bs)
  {
    var e := EncodeNoPad(bs);
    var x, y, z := Char64(bs[0] / 4), Char64((bs[0] % 4) * 16 + bs[1] / 16), Char64((bs[1] % 16) * 4);
    assert e == [x, y, z];
    PadThree(e);
    assert e + "=" == [x, y, z, '='];
    PairGroupDecodes(Pad(e), bs);
  }

  /** The padded group of two bytes decodes back to them. */
  lemma PairGroupDecodes(p: string, bs: seq<Byte>)
    requires |bs| == 2
    requires p == [Char64(bs[0] / 4), Char64((bs[0] % 4) * 16 + bs[1] / 16), Char64((bs[1] % 16) * 4), '=']
    ensures Decode(p) == Some(bs)
  {
    PairDecodes(bs[0], bs[1]);
    assert bs == [bs[0], bs[1]];
  }

  /** Three characters take one '='. */
  lemma PadThree(e: string)
    requires |e| == 3
    ensures Pad(e) == e + "="
  {
    assert PadCount(3) == 1 && seq(1, _ => '=') == "=";
  }

  /** The padded group two bytes are encoded to decodes back to them. */
  lemma PairDecodes(b0: Byte, b1: Byte)
    ensures Decode([Char64(b0 / 4), Char64((b0 % 4) * 16 + b1 / 16), Char64((b1 % 16) * 4), '=']) == Some([b0, b1])
  {
    var a, b, c := b0 / 4, (b0 % 4) * 16 + b1 / 16, (b1 % 16) * 4;
    OnePadDecodes(a, b, c);
    TwoByteArith(b0, b1, a, b, c);
  }

  /** A final group with one '=' decodes to its two bytes. */
  lemma OnePadDecodes(a: int, b: int, c: int)
    requires 0 <= a < 64 && 0 <= b < 64 && 0 <= c < 64
    ensures Decode([Char64(a), Char64(b), Char64(c), '=']) == Some([a * 4 + b / 16, (b % 16) * 16 + c / 4])
  {
    DecodeLast([Char64(a), Char64(b), Char64(c), '=']);
    GroupOnePad(a, b, c);
  }

  /** A full group in front of a padded text decodes to its bytes in front of the text's bytes. */
  lemma DecodeAfterGroup(g: string, rest: string, gb: seq<Byte>, rb: seq<Byte>)
    requires |g| == 4 && DecodeGroup(g, true) == Some(gb) && DecodeGroup(g, false) == Some(gb)
    requires Decode(Pad(rest)) == Some(rb)
    ensures Decode(Pad(g + rest)) == Some(gb + rb)
  {
    var p := Pad(g + rest);
    PadAfterGroup(g, rest);
    assert p[..4] == g && p[4..] == Pad(rest);
    if Pad(rest) == [] {
      assert p == g;
      DecodeLast(p);
      assert rb == [] && gb + rb == gb;
    } else {
      DecodeFirst(p, gb, rb);
    }
  }

  lemma FirstThree(bs: seq<Byte>)
    requires |bs| >= 3
    ensures bs == [bs[0], bs[1], bs[2]] + bs[3..]
  {
  }

  lemma DecodeGroupThenRest(bs: seq<Byte>)
    requires |bs| >= 3
    requires Decode(Pad(EncodeNoPad(bs[3..]))) == Some(bs[3..])
    ensures Decode(Pad(EncodeNoPad(bs))) == Some(bs)
  {
    var t: seq<Byte> := [bs[0], bs[1], bs[2]];
    FirstThree(bs);
    GroupRoundTrip(bs[0], bs[1], bs[2], true);
    GroupRoundTrip(bs[0], bs[1], bs[2], false);
    assert EncodeNoPad(bs) == EncodeGroup(bs[0], bs[1], bs[2]) + EncodeNoPad(bs[3..]);
    DecodeAfterGroup(EncodeGroup(bs[0], bs[1], bs[2]), EncodeNoPad(bs[3..]), t, bs[3..]);
  }

  /** The alphabet has no '.', so an encoded segment never contains the JWT separator. */
  lemma {:induction false} NoDotInEncoding(bs: seq<Byte>)
    ensures '.' !in EncodeNoPad(bs)
    decreases |bs|
  {
    if |bs| >= 3 {
      NoDotInEncoding(bs[3..]);
      assert EncodeNoPad(bs) == EncodeGroup(bs[0], bs[1], bs[2]) + EncodeNoPad(bs[3..]);
    }
  }

  /**
   * Padding then decoding undoes the issuer's encoding: for every byte
   * string, the client recovers exactly the bytes that were encoded.
   */
  lemma {:induction false} DecodePadEncode(bs: seq<Byte>)
    ensures Decode(Pad(EncodeNoPad(bs))) == Some(bs)
    decreases |bs|
  {
    if |bs| == 0 {
      assert Pad(EncodeNoPad(bs)) == [];
    } else if |bs| == 1 {
      DecodeOneByte(bs);
    } else if |bs| == 2 {
      DecodeTwoBytes(bs);
    } else {
      DecodePadEncode(bs[3..]);
      DecodeGroupThenRest(bs);
    }
  }
}
