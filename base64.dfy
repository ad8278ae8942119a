/**
 * The text encoding applied to the compressed bytes before they are cut
 * into chunks: Base64 as defined in section 4 of RFC 4648 (the standard
 * alphabet `A-Z a-z 0-9 + /`, groups of three bytes become four
 * characters, and a final group of one or two bytes is padded with `=`).
 * The decoder is not part of the sender; it is here as the inverse that
 * the receiver relies on.
 */
module Base64 {
  import opened Wrappers
  import opened Arith

  type byte = x: int | 0 <= x < 256

  const PAD: char := '='

  /** The alphabet character for a 6-bit value (Table 1 of RFC 4648). */
  function Sextet(v: int): char
    requires 0 <= v < 64
  {
    if v < 26 then ('A' as int + v) as char
    else if v < 52 then ('a' as int + (v - 26)) as char
    else if v < 62 then ('0' as int + (v - 52)) as char
    else if v == 62 then '+'
    else '/'
  }

  /** The 6-bit value of an alphabet character; None for any other character. */
  function SextetValue(c: char): (r: Option<int>)
    ensures r.Some? ==> 0 <= r.value < 64 && Sextet(r.value) == c
  {
    if 'A' <= c <= 'Z' then Some(c as int - 'A' as int)
    else if 'a' <= c <= 'z' then Some(c as int - 'a' as int + 26)
    else if '0' <= c <= '9' then Some(c as int - '0' as int + 52)
    else if c == '+' then Some(62)
    else if c == '/' then Some(63)
    else None
  }

  lemma SextetRoundTrip(v: int)
    requires 0 <= v < 64
    ensures SextetValue(Sextet(v)) == Some(v)
  {
  }

  /** Whether c can appear in an encoding: an alphabet character or the pad. */
  predicate IsBase64Char(c: char)
  {
    SextetValue(c).Some? || c == PAD
  }

  /** One full 24-bit group: three bytes as four characters. */
  function EncodeGroup(b0: byte, b1: byte, b2: byte): (s: seq<char>)
    ensures |s| == 4 && forall i :: 0 <= i < 4 ==> SextetValue(s[i]).Some?
  {
    var v0, v1, v2, v3 := b0 / 4, (b0 % 4) * 16 + b1 / 16, (b1 % 16) * 4 + b2 / 64, b2 % 64;
    SextetRoundTrip(v0); SextetRoundTrip(v1); SextetRoundTrip(v2); SextetRoundTrip(v3);
    [Sextet(v0), Sextet(v1), Sextet(v2), Sextet(v3)]
  }

  /** `base64.b64encode`: every three input bytes give four characters, the last group padded. */
  function Encode(b: seq<byte>): (s: string)
    ensures |s| == 4 * CeilDiv(|b|, 3)
    ensures forall i :: 0 <= i < |s| ==> IsBase64Char(s[i])
    decreases |b|
  {
    if |b| == 0 then []
    else if |b| == 1 then
      SextetRoundTrip(b[0] / 4); SextetRoundTrip((b[0] % 4) * 16);
      [Sextet(b[0] / 4), Sextet((b[0] % 4) * 16), PAD, PAD]
    else if |b| == 2 then
      SextetRoundTrip(b[0] / 4); SextetRoundTrip((b[0] % 4) * 16 + b[1] / 16); SextetRoundTrip((b[1] % 16) * 4);
      [Sextet(b[0] / 4), Sextet((b[0] % 4) * 16 + b[1] / 16), Sextet((b[1] % 16) * 4), PAD]
    else EncodeGroup(b[0], b[1], b[2]) + Encode(b[3..])
  }

  /** Four alphabet characters back to three bytes. */
  function DecodeGroup(s: seq<char>): (r: Option<seq<byte>>)
    requires |s| == 4
    ensures r.Some? ==> |r.value| == 3
  {
    match (SextetValue(s[0]), SextetValue(s[1]), SextetValue(s[2]), SextetValue(s[3]))
    case (Some(v0), Some(v1), Some(v2), Some(v3)) =>
      Some([v0 * 4 + v1 / 16, (v1 % 16) * 16 + v2 / 4, (v2 % 4) * 64 + v3])
    case _ => None
  }

  /** The last group of an encoding: a full group, or one or two bytes followed by padding. */
  function DecodeFinal(s: seq<char>): (r: Option<seq<byte>>)
    requires |s| == 4
    ensures r.Some? ==> 1 <= |r.value| <= 3
  {
    if s[2] == PAD && s[3] == PAD then
      match (SextetValue(s[0]), SextetValue(s[1]))
      case (Some(v0), Some(v1)) => Some([v0 * 4 + v1 / 16])
      case _ => None
    else if s[3] == PAD then
      match (SextetValue(s[0]), SextetValue(s[1]), SextetValue(s[2]))
      case (Some(v0), Some(v1), Some(v2)) => Some([v0 * 4 + v1 / 16, (v1 % 16) * 16 + v2 / 4])
      case _ => None
    else DecodeGroup(s)
  }

  /**
   * Inverse of Encode: None for text that is not padded Base64.  Like a
   * decoder that takes the latitude of section 3.5 of RFC 4648, it does not
   * check that the unused low bits of the last character are zero, so it
   * also accepts some texts Encode never produces ("QR==" gives [65], as
   * "QQ==" does).
   */
  function Decode(s: string): (r: Option<seq<byte>>)
    decreases |s|
  {
    if |s| == 0 then Some([])
    else if |s| < 4 then None
    else if |s| == 4 then DecodeFinal(s)
    else
      match (DecodeGroup(s[..4]), Decode(s[4..]))
      case (Some(x), Some(y)) => Some(x + y)
      case _ => None
  }

  /** Splitting a byte into its high and low parts and joining them again gives it back. */
  lemma Recombine(hi: int, lo: int, k: int)
    requires k > 0 && 0 <= lo < k
    ensures (hi * k + lo) / k == hi && (hi * k + lo) % k == lo
  {
    DivModUnique(hi * k + lo, k, hi, lo);
  }

  lemma GroupRoundTrip(b0: byte, b1: byte, b2: byte)
    ensures DecodeGroup(EncodeGroup(b0, b1, b2)) == Some([b0, b1, b2])
  {
    var v0, v1, v2, v3 := b0 / 4, (b0 % 4) * 16 + b1 / 16, (b1 % 16) * 4 + b2 / 64, b2 % 64;
    SextetRoundTrip(v0); SextetRoundTrip(v1); SextetRoundTrip(v2); SextetRoundTrip(v3);
    Recombine(b0 % 4, b1 / 16, 16);
    Recombine(b1 % 16, b2 / 64, 4);
  }

  lemma OneByteRoundTrip(b0: byte)
    ensures DecodeFinal([Sextet(b0 / 4), Sextet((b0 % 4) * 16), PAD, PAD]) == Some([b0])
  {
    SextetRoundTrip(b0 / 4);
    SextetRoundTrip((b0 % 4) * 16);
    Recombine(b0 % 4, 0, 16);
  }

  lemma TwoByteRoundTrip(b0: byte, b1: byte)
    ensures DecodeFinal([Sextet(b0 / 4), Sextet((b0 % 4) * 16 + b1 / 16), Sextet((b1 % 16) * 4), PAD])
         == Some([b0, b1])
  {
    SextetRoundTrip(b0 / 4);
    SextetRoundTrip((b0 % 4) * 16 + b1 / 16);
    SextetRoundTrip((b1 % 16) * 4);
    Recombine(b0 % 4, b1 / 16, 16);
    Recombine(b1 % 16, 0, 4);
  }

  /** A full group at the end of the text decodes like any other group. */
  lemma FinalGroupRoundTrip(b0: byte, b1: byte, b2: byte)
    ensures DecodeFinal(EncodeGroup(b0, b1, b2)) == Some([b0, b1, b2])
  {
    GroupRoundTrip(b0, b1, b2);
  }

  /** Decoding an encoding gives back the bytes exactly. */
  lemma {:induction false} DecodeEncode(b: seq<byte>)
    ensures Decode(Encode(b)) == Some(b)
    decreases |b|
  {
    if |b| == 1 {
      OneByteRoundTrip(b[0]);
      assert [b[0]] == b;
    } else if |b| == 2 {
      TwoByteRoundTrip(b[0], b[1]);
      assert [b[0], b[1]] == b;
    } else if |b| == 3 {
      LastGroup(b);
    } else if |b| > 3 {
      DecodeEncode(b[3..]);
      LeadingGroup(b);
    }
  }

  lemma LastGroup(b: seq<byte>)
    requires |b| == 3
    ensures Decode(Encode(b)) == Some(b)
  {
    FinalGroupRoundTrip(b[0], b[1], b[2]);
    assert Encode(b[3..]) == [];
    assert Encode(b) == EncodeGroup(b[0], b[1], b[2]);
    assert [b[0], b[1], b[2]] == b;
  }

  /** A text longer than one group decodes its first group and then the rest. */
  lemma DecodeAppend(g: seq<char>, t: seq<char>, x: seq<byte>, y: seq<byte>)
    requires |g| == 4 && |t| >= 4
    requires DecodeGroup(g) == Some(x) && Decode(t) == Some(y)
    ensures Decode(g + t) == Some(x + y)
  {
    var s := g + t;
    assert s[..4] == g;
    assert s[4..] == t;
  }

  /**
   * The first group of a text of more than three bytes: the encoding is
   * that group followed by the encoding of the rest, and the group decodes
   * to the first three bytes.
   */
  lemma LeadingGroupSplit(b: seq<byte>) returns (g: seq<char>)
    requires |b| > 3
    ensures |g| == 4 && Encode(b) == g + Encode(b[3..])
    ensures DecodeGroup(g) == Some(b[..3])
  {
    g := EncodeGroup(b[0], b[1], b[2]);
    assert [b[0], b[1], b[2]] == b[..3];
    GroupRoundTrip(b[0], b[1], b[2]);
  }

  lemma LeadingGroup(b: seq<byte>)
    requires |b| > 3 && Decode(Encode(b[3..])) == Some(b[3..])
    ensures Decode(Encode(b)) == Some(b)
  {
    var g := LeadingGroupSplit(b);
    DecodeAppend(g, Encode(b[3..]), b[..3], b[3..]);
    SplitJoin(b, 3);
  }

  lemma SplitJoin(b: seq<byte>, k: nat)
    requires k <= |b|
    ensures b[..k] + b[k..] == b
  {
  }
}
