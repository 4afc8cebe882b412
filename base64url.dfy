/** The URL- and filename-safe base64 alphabet (section 5 of RFC 4648) as Python's
    `base64.urlsafe_b64encode` and `base64.urlsafe_b64decode` apply it. Decoding is the lenient
    CPython decoder: characters outside the alphabet are skipped, `+` and `/` are accepted as well
    as `-` and `_`, and decoding stops at the first complete padding sequence. */
module Base64Url {
  import opened Bytes
  import opened Wrappers

  /** The character for a sextet, from the URL-safe alphabet. */
  function SextetChar(v: nat): (c: char)
    requires v < 64
  {
    if v < 26 then ('A' as int + v) as char
    else if v < 52 then ('a' as int + v - 26) as char
    else if v < 62 then ('0' as int + v - 52) as char
    else if v == 62 then '-'
    else '_'
  }

  /** The sextet a character stands for after `-` and `_` are translated to `+` and `/`;
      64 for a character outside the alphabet. */
  function SextetValue(c: char): (v: nat)
    ensures v <= 64
  {
    if 'A' <= c <= 'Z' then c as int - 'A' as int
    else if 'a' <= c <= 'z' then c as int - 'a' as int + 26
    else if '0' <= c <= '9' then c as int - '0' as int + 52
    else if c == '+' || c == '-' then 62
    else if c == '/' || c == '_' then 63
    else 64
  }

  lemma SextetRoundTrip(v: nat)
    requires v < 64
    ensures SextetValue(SextetChar(v)) == v && SextetChar(v) != '='
  {
  }

  /** `urlsafe_b64encode(data).decode()`: each group of three octets becomes four characters;
      a final group of one or two octets is completed with `=`. */
  function Encode(data: seq<byte>): (r: string)
    ensures |r| == (|data| + 2) / 3 * 4
    decreases |data|
  {
    if |data| == 0 then ""
    else if |data| == 1 then
      [SextetChar(data[0] / 4), SextetChar(data[0] % 4 * 16), '=', '=']
    else if |data| == 2 then
      [SextetChar(data[0] / 4), SextetChar(data[0] % 4 * 16 + data[1] / 16), SextetChar(data[1] % 16 * 4), '=']
    else
      Quad(data[0], data[1], data[2]) + Encode(data[3..])
  }

  function Quad(b0: byte, b1: byte, b2: byte): (r: string)
    ensures |r| == 4
  {
    [SextetChar(b0 / 4), SextetChar(b0 % 4 * 16 + b1 / 16), SextetChar(b1 % 16 * 4 + b2 / 64), SextetChar(b2 % 64)]
  }

  /** The ways decoding fails: a non-ASCII character (`ValueError`), one data character past a
      multiple of four, or a final group left without its padding (`binascii.Error`). */
  datatype DecodeError = NonAscii | DanglingCharacter | IncorrectPadding

  /** The decoder's state: the position within the current group of four, the bits carried over
      to the next octet, the padding characters seen since the last data character, and the
      octets produced so far. */
  datatype DecodeState = DecodeState(quad: nat, left: nat, pads: nat, out: seq<byte>)

  /** The carried bits fit in what the next octet leaves room for. */
  predicate Carrying(st: DecodeState) {
    (st.quad == 0 && st.left == 0) || (st.quad == 1 && st.left < 64)
    || (st.quad == 2 && st.left < 16) || (st.quad == 3 && st.left < 4)
  }

  /** One data character: every character after the first of a group completes an octet. */
  function Feed(st: DecodeState, v: nat): (r: DecodeState)
    requires Carrying(st) && v < 64
    ensures Carrying(r) && r.pads == 0
    ensures r.quad == (st.quad + 1) % 4
  {
    match st.quad
    case 0 => DecodeState(1, v, 0, st.out)
    case 1 => DecodeState(2, v % 16, 0, st.out + [st.left * 4 + v / 16])
    case 2 => DecodeState(3, v % 4, 0, st.out + [st.left * 16 + v / 4])
    case _ => DecodeState(0, 0, 0, st.out + [st.left * 64 + v])
  }

  /** The decoder run over the rest of the input. A `=` counts as padding only after at least two
      data characters of a group, and ends decoding once it completes the group. */
  function Run(s: string, st: DecodeState): (r: Result<seq<byte>, DecodeError>)
    requires Carrying(st)
    ensures r.Ok? ==> st.out <= r.value
    decreases |s|
  {
    if |s| == 0 then
      if st.quad == 0 then Ok(st.out)
      else if st.quad == 1 then Err(DanglingCharacter)
      else Err(IncorrectPadding)
    else if s[0] == '=' then
      if st.quad >= 2 && st.quad + st.pads + 1 >= 4 then Ok(st.out)
      else Run(s[1..], if st.quad >= 2 then st.(pads := st.pads + 1) else st)
    else
      var v := SextetValue(s[0]);
      if v == 64 then Run(s[1..], st) else Run(s[1..], Feed(st, v))
  }

  /** `urlsafe_b64decode(s)`. */
  function Decode(s: string): (r: Result<seq<byte>, DecodeError>)
    ensures (exists i :: 0 <= i < |s| && s[i] >= 128 as char) ==> r == Err(NonAscii)
  {
    if exists i :: 0 <= i < |s| && s[i] >= 128 as char then Err(NonAscii)
    else Run(s, DecodeState(0, 0, 0, []))
  }

  predicate IsAscii(s: string) {
    forall i :: 0 <= i < |s| ==> s[i] < 128 as char
  }

  lemma SextetCharAscii(v: nat)
    requires v < 64
    ensures SextetChar(v) < 128 as char && SextetChar(v) != '/'
  {
  }

  /** The encoding is ASCII and never contains `/`, so it fits in one URL path segment. */
  lemma {:induction false} EncodeIsPathSafe(data: seq<byte>)
    ensures IsAscii(Encode(data)) && '/' !in Encode(data)
    decreases |data|
  {
    var r := Encode(data);
    if |data| == 1 {
      SextetCharAscii(data[0] / 4);
      SextetCharAscii(data[0] % 4 * 16);
    } else if |data| == 2 {
      SextetCharAscii(data[0] / 4);
      SextetCharAscii(data[0] % 4 * 16 + data[1] / 16);
      SextetCharAscii(data[1] % 16 * 4);
    } else if |data| >= 3 {
      SextetCharAscii(data[0] / 4);
      SextetCharAscii(data[0] % 4 * 16 + data[1] / 16);
      SextetCharAscii(data[1] % 16 * 4 + data[2] / 64);
      SextetCharAscii(data[2] % 64);
      EncodeIsPathSafe(data[3..]);
      assert r == Quad(data[0], data[1], data[2]) + Encode(data[3..]);
    }
  }

  /** Decoding a data character is one step of `Feed`. */
  lemma RunData(s: string, st: DecodeState)
    requires Carrying(st) && |s| > 0 && s[0] != '=' && SextetValue(s[0]) < 64
    ensures Run(s, st) == Run(s[1..], Feed(st, SextetValue(s[0])))
  {
  }

  /** A group of four data characters appends its three octets. */
  lemma RunQuad(b0: byte, b1: byte, b2: byte, rest: string, out: seq<byte>)
    ensures Run(Quad(b0, b1, b2) + rest, DecodeState(0, 0, 0, out))
         == Run(rest, DecodeState(0, 0, 0, out + [b0, b1, b2]))
  {
    var q := Quad(b0, b1, b2);
    var s := q + rest;
    var st0 := DecodeState(0, 0, 0, out);
    var v0, v1, v2, v3 := SextetValue(q[0]), SextetValue(q[1]), SextetValue(q[2]), SextetValue(q[3]);
    FeedQuad(b0, b1, b2, out);
    var st1 := Feed(st0, v0);
    var st2 := Feed(st1, v1);
    var st3 := Feed(st2, v2);
    assert s[0] == q[0] && s[1..][0] == q[1] && s[2..][0] == q[2] && s[3..][0] == q[3];
    RunData(s, st0);
    assert s[1..][1..] == s[2..] && s[2..][1..] == s[3..] && s[3..][1..] == rest;
    RunData(s[1..], st1);
    RunData(s[2..], st2);
    RunData(s[3..], st3);
  }

  /** Feeding the four sextets of a group produces the group's three octets. */
  lemma FeedQuad(b0: byte, b1: byte, b2: byte, out: seq<byte>)
    ensures var q := Quad(b0, b1, b2);
            forall i :: 0 <= i < 4 ==> q[i] != '=' && SextetValue(q[i]) < 64
    ensures var q := Quad(b0, b1, b2);
            var st0 := DecodeState(0, 0, 0, out);
            var st1 := Feed(st0, SextetValue(q[0]));
            var st2 := Feed(st1, SextetValue(q[1]));
            var st3 := Feed(st2, SextetValue(q[2]));
            Feed(st3, SextetValue(q[3])) == DecodeState(0, 0, 0, out + [b0, b1, b2])
  {
    var s0, s1, s2, s3 := b0 / 4, b0 % 4 * 16 + b1 / 16, b1 % 16 * 4 + b2 / 64, b2 % 64;
    SextetRoundTrip(s0); SextetRoundTrip(s1); SextetRoundTrip(s2); SextetRoundTrip(s3);
    FirstOctet(b0, b1, out);
    SecondOctet(b1, b2, out + [b0]);
    assert out + [b0] + [b1] == out + [b0, b1];
    ThirdOctet(b2, out + [b0, b1]);
    assert out + [b0, b1] + [b2] == out + [b0, b1, b2];
  }

  /** The fourth sextet gives the third octet and closes the group. */
  lemma ThirdOctet(b2: byte, out: seq<byte>)
    ensures Feed(DecodeState(3, b2 / 64, 0, out), b2 % 64) == DecodeState(0, 0, 0, out + [b2])
  {
  }

  /** Decoding from a group boundary reads the whole encoding back, whatever was produced before. */
  lemma {:induction false} RunEncode(data: seq<byte>, out: seq<byte>)
    ensures Run(Encode(data), DecodeState(0, 0, 0, out)) == Ok(out + data)
    decreases |data|, 1
  {
    if |data| == 0 {
      assert out + data == out;
    } else if |data| == 1 {
      RunEncodeOne(data, out);
    } else if |data| == 2 {
      RunEncodeTwo(data, out);
    } else {
      RunEncodeGroup(data, out);
    }
  }

  /** A full first group: its three octets, then the rest of the encoding. */
  lemma {:induction false} RunEncodeGroup(data: seq<byte>, out: seq<byte>)
    requires |data| >= 3
    ensures Run(Encode(data), DecodeState(0, 0, 0, out)) == Ok(out + data)
    decreases |data|, 0
  {
    var rest, out' := data[3..], out + [data[0], data[1], data[2]];
    assert Encode(data) == Quad(data[0], data[1], data[2]) + Encode(rest);
    RunQuad(data[0], data[1], data[2], Encode(rest), out);
    RunEncode(rest, out');
    assert out' + rest == out + data;
  }

  /** Two padding characters end a group holding two data characters. */
  lemma RunTwoPads(st: DecodeState)
    requires Carrying(st) && st.quad == 2 && st.pads == 0
    ensures Run("==", st) == Ok(st.out)
  {
    assert "=="[1..] == "=";
  }

  /** A final group of one octet: two data characters and two padding characters. */
  lemma RunEncodeOne(data: seq<byte>, out: seq<byte>)
    requires |data| == 1
    ensures Run(Encode(data), DecodeState(0, 0, 0, out)) == Ok(out + data)
  {
    var b0 := data[0];
    var s0, s1 := b0 / 4, b0 % 4 * 16;
    var c0, c1 := SextetChar(s0), SextetChar(s1);
    SextetRoundTrip(s0); SextetRoundTrip(s1);
    var st0 := DecodeState(0, 0, 0, out);
    var st1 := Feed(st0, s0);
    var st2 := Feed(st1, s1);
    FirstOctet(b0, 0, out);
    var s := Encode(data);
    assert s == [c0] + ([c1] + "==");
    RunData(s, st0);
    RunData([c1] + "==", st1);
    RunTwoPads(st2);
    assert data == [b0];
  }

  /** A final group of two octets: three data characters and one padding character. */
  lemma RunEncodeTwo(data: seq<byte>, out: seq<byte>)
    requires |data| == 2
    ensures Run(Encode(data), DecodeState(0, 0, 0, out)) == Ok(out + data)
  {
    var b0, b1 := data[0], data[1];
    var s0, s1, s2 := b0 / 4, b0 % 4 * 16 + b1 / 16, b1 % 16 * 4;
    var c0, c1, c2 := SextetChar(s0), SextetChar(s1), SextetChar(s2);
    SextetRoundTrip(s0); SextetRoundTrip(s1); SextetRoundTrip(s2);
    var st0 := DecodeState(0, 0, 0, out);
    var st1 := Feed(st0, s0);
    var st2 := Feed(st1, s1);
    FirstOctet(b0, b1, out);
    var st3 := Feed(st2, s2);
    SecondOctet(b1, 0, out + [b0]);
    assert out + [b0] + [b1] == out + [b0, b1];
    var s := Encode(data);
    assert s == [c0] + ([c1] + ([c2] + "="));
    RunData(s, st0);
    RunData([c1] + ([c2] + "="), st1);
    RunData([c2] + "=", st2);
    assert Run("=", st3) == Ok(out + [b0, b1]);
    assert data == [b0, b1];
  }

  /** The first two sextets of a group give its first octet. */
  lemma FirstOctet(b0: byte, b1: byte, out: seq<byte>)
    ensures var s0, s1 := b0 / 4, b0 % 4 * 16 + b1 / 16;
            Feed(Feed(DecodeState(0, 0, 0, out), s0), s1) == DecodeState(2, b1 / 16, 0, out + [b0])
  {
    OctetSplit(b0, b1);
  }

  /** The third sextet gives the second octet. */
  lemma SecondOctet(b1: byte, b2: byte, out: seq<byte>)
    ensures var s2 := b1 % 16 * 4 + b2 / 64;
            Feed(DecodeState(2, b1 / 16, 0, out), s2) == DecodeState(3, b2 / 64, 0, out + [b1])
  {
    OctetSplit2(b1, b2);
  }

  /** The second sextet of a group carries the low two bits of the first octet and the high four
      of the second. */
  lemma OctetSplit(b0: byte, b1: byte)
    ensures var s1 := b0 % 4 * 16 + b1 / 16;
            b0 / 4 * 4 + s1 / 16 == b0 && s1 % 16 == b1 / 16
  {
  }

  /** The third sextet carries the low four bits of the second octet and the high two of the third. */
  lemma OctetSplit2(b1: byte, b2: byte)
    ensures var s2 := b1 % 16 * 4 + b2 / 64;
            b1 / 16 * 16 + s2 / 4 == b1 && s2 % 4 == b2 / 64
  {
  }

  /** Decoding inverts encoding: `urlsafe_b64decode(urlsafe_b64encode(data)) == data`. */
  lemma DecodeEncode(data: seq<byte>)
    ensures Decode(Encode(data)) == Ok(data)
  {
    var s := Encode(data);
    EncodeIsPathSafe(data);
    assert !exists i :: 0 <= i < |s| && s[i] >= 128 as char;
    RunEncode(data, []);
    assert Decode(s) == Run(s, DecodeState(0, 0, 0, []));
    assert [] + data == data;
  }
}
