/** Python 2's `base64.b64decode` without alternative characters: the `binascii.a2b_base64`
    state machine, whose `binascii.Error` is re-raised as `TypeError`. Characters outside the
    alphabet are skipped; a pad character ends the input once at least two characters of the
    current quad have been read (with a second pad required after exactly two); leftover bits
    at the end of the input are "Incorrect padding". The alphabet and the padded encoding
    are those of section 4 of RFC 4648. */
module Base64 {
  import opened Outcomes

  type byte = x: int | 0 <= x < 256

  /** The decoding table: the six-bit value of an alphabet character, `-1` for any other
      character. The table gives the pad character `=` the value 0. */
  function SextetOf(c: char): (v: int)
    ensures -1 <= v < 64
  {
    if 'A' <= c <= 'Z' then c as int - 'A' as int
    else if 'a' <= c <= 'z' then c as int - 'a' as int + 26
    else if '0' <= c <= '9' then c as int - '0' as int + 52
    else if c == '+' then 62
    else if c == '/' then 63
    else if c == '=' then 0
    else -1
  }

  function Pow2(n: nat): (p: nat)
    ensures p >= 1
  {
    if n == 0 then 1 else 2 * Pow2(n - 1)
  }

  /** `binascii_find_valid(s, len, num)`: the `num`-th (from 0) character of `s` that is in the
      table, pad characters included. */
  function FindValid(s: string, num: nat): Option<char> {
    if s == [] then None
    else if s[0] as int <= 0x7f && SextetOf(s[0]) != -1 then
      (if num == 0 then Some(s[0]) else FindValid(s[1..], num - 1))
    else FindValid(s[1..], num)
  }

  /** The decoding loop over the rest `s` of the input, with the position in the current quad,
      the pending bits and their count, and the bytes produced so far. */
  function A2b(s: string, quadPos: nat, leftchar: nat, leftbits: nat, out: seq<byte>): Outcome<seq<byte>> {
    if s == [] then
      (if leftbits != 0 then Raise(TypeError) else Ok(out))
    else
      var c := s[0];
      if c as int > 0x7f || c == '\r' || c == '\n' || c == ' ' then A2b(s[1..], quadPos, leftchar, leftbits, out)
      else if c == '=' then
        if quadPos < 2 || (quadPos == 2 && FindValid(s, 1) != Some('=')) then A2b(s[1..], quadPos, leftchar, leftbits, out)
        else Ok(out)
      else
        var v := SextetOf(c);
        if v == -1 then A2b(s[1..], quadPos, leftchar, leftbits, out)
        else
          var acc := leftchar * 64 + v;
          var bits := leftbits + 6;
          if bits >= 8 then
            A2b(s[1..], (quadPos + 1) % 4, acc % Pow2(bits - 8), bits - 8, out + [(acc / Pow2(bits - 8)) % 256])
          else A2b(s[1..], (quadPos + 1) % 4, acc, bits, out)
  }

  /** b64decode(s) */
  function B64Decode(s: string): Outcome<seq<byte>> {
    A2b(s, 0, 0, 0, [])
  }

  /** The alphabet of section 4 of RFC 4648. */
  function EncodeChar(v: int): (c: char)
    requires 0 <= v < 64
    ensures SextetOf(c) == v && c != '=' && c as int <= 0x7f
    ensures c != '\r' && c != '\n' && c != ' '
  {
    if v < 26 then ('A' as int + v) as char
    else if v < 52 then ('a' as int + v - 26) as char
    else if v < 62 then ('0' as int + v - 52) as char
    else if v == 62 then '+'
    else '/'
  }

  /** The padded encoding of section 4 of RFC 4648, three bytes to four characters. */
  function Encode(b: seq<byte>): (s: string)
    ensures |s| % 4 == 0
  {
    if |b| == 0 then ""
    else if |b| == 1 then [EncodeChar(b[0] / 4), EncodeChar((b[0] % 4) * 16), '=', '=']
    else if |b| == 2 then [EncodeChar(b[0] / 4), EncodeChar((b[0] % 4) * 16 + b[1] / 16), EncodeChar((b[1] % 16) * 4), '=']
    else Quad(b[0], b[1], b[2]) + Encode(b[3..])
  }

  /** Three bytes as four characters. */
  function Quad(x: byte, y: byte, z: byte): string {
    [EncodeChar(x / 4), EncodeChar((x % 4) * 16 + y / 16), EncodeChar((y % 16) * 4 + z / 64), EncodeChar(z % 64)]
  }

  /** One decoding step on an alphabet character. */
  lemma SextetStep(c: char, t: string, quadPos: nat, leftchar: nat, leftbits: nat, out: seq<byte>)
    requires c != '=' && c as int <= 0x7f && c != '\r' && c != '\n' && c != ' ' && SextetOf(c) != -1
    ensures var acc := leftchar * 64 + SextetOf(c);
            var bits := leftbits + 6;
            A2b([c] + t, quadPos, leftchar, leftbits, out) ==
              if bits >= 8 then A2b(t, (quadPos + 1) % 4, acc % Pow2(bits - 8), bits - 8, out + [(acc / Pow2(bits - 8)) % 256])
              else A2b(t, (quadPos + 1) % 4, acc, bits, out)
  {
    assert ([c] + t)[0] == c && ([c] + t)[1..] == t;
  }

  /** A step that completes no byte: the first character of a quad. */
  lemma StepKeep(c: char, t: string, quadPos: nat, out: seq<byte>)
    requires c != '=' && c as int <= 0x7f && c != '\r' && c != '\n' && c != ' ' && SextetOf(c) != -1
    ensures A2b([c] + t, quadPos, 0, 0, out) == A2b(t, (quadPos + 1) % 4, SextetOf(c), 6, out)
  {
    SextetStep(c, t, quadPos, 0, 0, out);
  }

  /** A step that completes the byte `hi`, leaving `lo` pending; `p` is the weight of the bits
      left over. */
  lemma StepEmit(c: char, t: string, quadPos: nat, leftchar: nat, leftbits: nat, out: seq<byte>, p: nat, hi: byte, lo: nat)
    requires c != '=' && c as int <= 0x7f && c != '\r' && c != '\n' && c != ' ' && SextetOf(c) != -1
    requires leftbits >= 2 && p == Pow2(leftbits - 2)
    requires hi == ((leftchar * 64 + SextetOf(c)) / p) % 256 && lo == (leftchar * 64 + SextetOf(c)) % p
    ensures A2b([c] + t, quadPos, leftchar, leftbits, out) == A2b(t, (quadPos + 1) % 4, lo, leftbits - 2, out + [hi])
  {
    SextetStep(c, t, quadPos, leftchar, leftbits, out);
  }

  lemma Pow2Values()
    ensures Pow2(0) == 1 && Pow2(2) == 4 && Pow2(4) == 16
  {
    assert Pow2(1) == 2;
    assert Pow2(3) == 8;
  }

  /** The first two characters of a quad give back the first byte and leave the low four bits
      of the second sextet pending. */
  lemma FirstByte(x: byte, s1: int, r: int)
    requires 0 <= r < 16 && s1 == (x % 4) * 16 + r
    ensures (x / 4 * 64 + s1) / 16 % 256 == x
    ensures (x / 4 * 64 + s1) % 16 == r
  {
    assert x / 4 * 64 + s1 == x * 16 + r;
  }

  lemma SecondByte(y: byte, s2: int, r: int)
    requires 0 <= r < 4 && s2 == (y % 16) * 4 + r
    ensures (y / 16 * 64 + s2) / 4 % 256 == y
    ensures (y / 16 * 64 + s2) % 4 == r
  {
    assert y / 16 * 64 + s2 == y * 4 + r;
  }

  lemma ThirdByte(z: byte)
    ensures (z / 64 * 64 + z % 64) % 256 == z
    ensures (z / 64 * 64 + z % 64) % 1 == 0
  {
  }

  /** The first half of a full quad gives back the first byte. */
  lemma FirstHalf(x: byte, y: byte, t: string, out: seq<byte>)
    ensures var c0, c1 := EncodeChar(x / 4), EncodeChar((x % 4) * 16 + y / 16);
            A2b([c0, c1] + t, 0, 0, 0, out) == A2b(t, 2, y / 16, 4, out + [x])
  {
    Pow2Values();
    var s0, s1 := x / 4, (x % 4) * 16 + y / 16;
    var c0, c1 := EncodeChar(s0), EncodeChar(s1);
    assert [c0, c1] + t == [c0] + ([c1] + t);
    StepKeep(c0, [c1] + t, 0, out);
    FirstByte(x, s1, y / 16);
    StepEmit(c1, t, 1, s0, 6, out, 16, x, y / 16);
  }

  /** The second half of a full quad gives back the other two bytes and returns the machine to
      its start state. */
  lemma SecondHalf(y: byte, z: byte, t: string, out: seq<byte>)
    ensures var c2, c3 := EncodeChar((y % 16) * 4 + z / 64), EncodeChar(z % 64);
            A2b([c2, c3] + t, 2, y / 16, 4, out) == A2b(t, 0, 0, 0, out + [y, z])
  {
    Pow2Values();
    var s2, s3 := (y % 16) * 4 + z / 64, z % 64;
    var c2, c3 := EncodeChar(s2), EncodeChar(s3);
    assert [c2, c3] + t == [c2] + ([c3] + t);
    SecondByte(y, s2, z / 64);
    StepEmit(c2, [c3] + t, 2, y / 16, 4, out, 4, y, z / 64);
    ThirdByte(z);
    StepEmit(c3, t, 3, z / 64, 2, out + [y], 1, z, 0);
    assert out + [y] + [z] == out + [y, z];
  }

  /** A full quad decodes to its three bytes and returns the machine to its start state. */
  lemma FullQuad(x: byte, y: byte, z: byte, t: string, out: seq<byte>)
    ensures A2b(Quad(x, y, z) + t, 0, 0, 0, out) == A2b(t, 0, 0, 0, out + [x, y, z])
  {
    var c0, c1, c2, c3 := EncodeChar(x / 4), EncodeChar((x % 4) * 16 + y / 16), EncodeChar((y % 16) * 4 + z / 64), EncodeChar(z % 64);
    assert [c0, c1, c2, c3] + t == [c0, c1] + ([c2, c3] + t);
    FirstHalf(x, y, [c2, c3] + t, out);
    SecondHalf(y, z, t, out + [x]);
    assert out + [x] + [y, z] == out + [x, y, z];
  }

  /** One byte: two characters and two pads; the first pad sees the second and ends the input. */
  lemma OneByte(x: byte, out: seq<byte>)
    ensures A2b(Encode([x]), 0, 0, 0, out) == Ok(out + [x])
  {
    Pow2Values();
    var s0, s1 := x / 4, (x % 4) * 16;
    var c0, c1 := EncodeChar(s0), EncodeChar(s1);
    assert Encode([x]) == [c0] + ([c1] + ['=', '=']);
    StepKeep(c0, [c1] + ['=', '='], 0, out);
    FirstByte(x, s1, 0);
    StepEmit(c1, ['=', '='], 1, s0, 6, out, 16, x, 0);
    assert FindValid(['=', '='], 1) == Some('=') by {
      assert ['=', '='][1..] == ['='];
    }
  }

  /** Two bytes: three characters and a pad, which ends the input after the third. */
  lemma TwoBytes(x: byte, y: byte, out: seq<byte>)
    ensures A2b(Encode([x, y]), 0, 0, 0, out) == Ok(out + [x, y])
  {
    var s2 := (y % 16) * 4;
    var c0, c1, c2 := EncodeChar(x / 4), EncodeChar((x % 4) * 16 + y / 16), EncodeChar(s2);
    assert Encode([x, y]) == [c0, c1] + ([c2] + ['=']);
    FirstHalf(x, y, [c2] + ['='], out);
    Pow2Values();
    SecondByte(y, s2, 0);
    StepEmit(c2, ['='], 2, y / 16, 4, out + [x], 4, y, 0);
    assert out + [x] + [y] == out + [x, y];
  }

  /** Decoding the encoding gives the bytes back. */
  lemma {:induction false} DecodeEncode(b: seq<byte>, out: seq<byte>)
    ensures A2b(Encode(b), 0, 0, 0, out) == Ok(out + b)
    decreases |b|, 1
  {
    if |b| < 3 {
      DecodeEncodeTail(b, out);
    } else {
      DecodeEncodeQuad(b, out);
    }
  }

  /** The last group of one or two bytes, or none. */
  lemma DecodeEncodeTail(b: seq<byte>, out: seq<byte>)
    requires |b| < 3
    ensures A2b(Encode(b), 0, 0, 0, out) == Ok(out + b)
  {
    if |b| == 0 {
      assert out + b == out;
    } else if |b| == 1 {
      assert b == [b[0]];
      OneByte(b[0], out);
    } else {
      assert b == [b[0], b[1]];
      TwoBytes(b[0], b[1], out);
    }
  }

  /** A full group of three bytes, then the rest. */
  lemma {:induction false} DecodeEncodeQuad(b: seq<byte>, out: seq<byte>)
    requires |b| >= 3
    ensures A2b(Encode(b), 0, 0, 0, out) == Ok(out + b)
    decreases |b|, 0
  {
    FullQuad(b[0], b[1], b[2], Encode(b[3..]), out);
    DecodeEncode(b[3..], out + [b[0], b[1], b[2]]);
    assert out + [b[0], b[1], b[2]] + b[3..] == out + b;
  }

  lemma B64DecodeEncode(b: seq<byte>)
    ensures B64Decode(Encode(b)) == Ok(b)
  {
    DecodeEncode(b, []);
    assert [] + b == b;
  }

  /** Characters outside the alphabet are skipped wherever they appear. */
  lemma SkipsForeign(c: char, t: string, quadPos: nat, leftchar: nat, leftbits: nat, out: seq<byte>)
    requires c != '=' && SextetOf(c) == -1
    ensures A2b([c] + t, quadPos, leftchar, leftbits, out) == A2b(t, quadPos, leftchar, leftbits, out)
  {
    assert ([c] + t)[0] == c && ([c] + t)[1..] == t;
  }

  /** A lone alphabet character leaves six bits over: "Incorrect padding", a `TypeError`. */
  lemma LoneCharacterRaises(c: char)
    requires c != '=' && c as int <= 0x7f && SextetOf(c) != -1
    ensures B64Decode([c]) == Raise(TypeError)
  {
    assert [c] == [c] + [];
    StepKeep(c, [], 0, []);
  }
}
