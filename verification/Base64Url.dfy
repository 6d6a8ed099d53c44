/** The base64url decoder used to read claims from a token, against the unpadded
    base64url encoding of section 5 of RFC 4648 as section 2 of RFC 7515 uses it. */
module Base64Url {
  import opened Text

  type Byte = b: int | 0 <= b < 256

  // ---------- The alphabet ----------

  function CharOf(v: nat): char
    requires v < 64
  {
    if v < 26 then ('A' as int + v) as char
    else if v < 52 then ('a' as int + v - 26) as char
    else if v < 62 then ('0' as int + v - 52) as char
    else if v == 62 then '-'
    else '_'
  }

  function ValueOf(c: char): (v: Option<nat>)
    ensures v.Some? ==> v.value < 64
  {
    if 'A' <= c <= 'Z' then Some(c as int - 'A' as int)
    else if 'a' <= c <= 'z' then Some(c as int - 'a' as int + 26)
    else if '0' <= c <= '9' then Some(c as int - '0' as int + 52)
    else if c == '-' then Some(62)
    else if c == '_' then Some(63)
    else None
  }

  /** The URL and filename safe alphabet, table 2 in section 5 of RFC 4648: the capital
      letters, the small letters and the digits, each in order, then - and _. */
  lemma AlphabetIs(v: nat)
    requires v < 64
    ensures v == 0 ==> CharOf(v) == 'A'
    ensures v == 26 ==> CharOf(v) == 'a'
    ensures v == 52 ==> CharOf(v) == '0'
    ensures v == 62 ==> CharOf(v) == '-'
    ensures v == 63 ==> CharOf(v) == '_'
    ensures v !in {0, 26, 52, 62, 63} ==> CharOf(v) as int == CharOf(v - 1) as int + 1
  {
  }

  lemma AlphabetRoundTrip(v: nat)
    requires v < 64
    ensures ValueOf(CharOf(v)) == Some(v)
  {
  }

  /** The reverse table, filled from the alphabet. */
  method ReverseTable() returns (rev: map<char, nat>)
    ensures forall c :: c in rev <==> ValueOf(c).Some?
    ensures forall c | c in rev :: ValueOf(c) == Some(rev[c])
  {
    rev := map[];
    for v := 0 to 64
      invariant forall c | c in rev :: ValueOf(c) == Some(rev[c])
      invariant forall u: nat | u < v :: CharOf(u) in rev
    {
      AlphabetRoundTrip(v);
      rev := rev[CharOf(v) := v];
    }
    forall c | ValueOf(c).Some? ensures c in rev {
      assert CharOf(ValueOf(c).value) == c;
    }
  }

  // ---------- The decoder ----------

  function Pow2(n: nat): (p: nat)
    ensures p >= 1
  {
    if n == 0 then 1 else 2 * Pow2(n - 1)
  }

  /** Buffered bits not yet emitted, and the bytes emitted so far. */
  datatype Decoder = Decoder(buf: nat, bits: nat, out: seq<Byte>)

  predicate Bounded(d: Decoder) {
    (d.bits == 0 || d.bits == 2 || d.bits == 4 || d.bits == 6) && d.buf < Pow2(d.bits)
  }

  function Feed(d: Decoder, v: nat): Decoder {
    var buf, bits := d.buf * 64 + v, d.bits + 6;
    if bits >= 8 then
      var p := Pow2(bits - 8);
      Decoder(buf % p, bits - 8, d.out + [buf / p % 256])
    else Decoder(buf, bits, d.out)
  }

  function Step(d: Decoder, c: char): Decoder {
    match ValueOf(c)
    case None => d
    case Some(v) => Feed(d, v)
  }

  function Run(d: Decoder, s: string): Decoder {
    if s == [] then d else Step(Run(d, s[..|s| - 1]), s[|s| - 1])
  }

  function Decode(s: string): seq<Byte> { Run(Decoder(0, 0, []), s).out }

  lemma Powers()
    ensures Pow2(0) == 1 && Pow2(2) == 4 && Pow2(4) == 16 && Pow2(6) == 64
  {
    assert Pow2(1) == 2 && Pow2(3) == 8 && Pow2(5) == 32;
  }

  /** The buffer never holds more than six bits between characters. */
  lemma StepBounded(d: Decoder, c: char)
    requires Bounded(d)
    ensures Bounded(Step(d, c))
  {
    Powers();
  }

  method DecodeLoop(data: string) returns (out: seq<Byte>)
    ensures out == Decode(data)
  {
    var rev := ReverseTable();
    out := [];
    var buf: nat, bits: nat := 0, 0;
    Powers();
    for i := 0 to |data|
      invariant Bounded(Decoder(buf, bits, out))
      invariant Decoder(buf, bits, out) == Run(Decoder(0, 0, []), data[..i])
    {
      assert data[..i + 1][..i] == data[..i];
      StepBounded(Decoder(buf, bits, out), data[i]);
      if data[i] in rev {
        buf := buf * 64 + rev[data[i]];
        bits := bits + 6;
        if bits >= 8 {
          bits := bits - 8;
          out := out + [buf / Pow2(bits) % 256];
          buf := buf % Pow2(bits);
        }
      }
    }
    assert data[..|data|] == data;
  }

  // ---------- The encoder it undoes ----------

  function Encode(bs: seq<Byte>): string {
    if bs == [] then ""
    else if |bs| == 1 then [CharOf(bs[0] / 4), CharOf(bs[0] % 4 * 16)]
    else if |bs| == 2 then
      [CharOf(bs[0] / 4), CharOf(bs[0] % 4 * 16 + bs[1] / 16), CharOf(bs[1] % 16 * 4)]
    else Quad(bs[0], bs[1], bs[2]) + Encode(bs[3..])
  }

  function Quad(a: Byte, b: Byte, c: Byte): string {
    [CharOf(a / 4), CharOf(a % 4 * 16 + b / 16), CharOf(b % 16 * 4 + c / 64), CharOf(c % 64)]
  }

  /** The number that the values of the characters write in base 64. */
  function Number64(s: string): nat {
    if s == "" then 0
    else Number64(s[..|s| - 1]) * 64 + if ValueOf(s[|s| - 1]).Some? then ValueOf(s[|s| - 1]).value else 0
  }

  function Number256(bs: seq<Byte>): nat {
    if bs == [] then 0
    else
      var last: nat := bs[|bs| - 1];
      Number256(bs[..|bs| - 1]) * 256 + last
  }

  /** A group of up to three bytes is the same number written in base 64, most
      significant digit first, one character more than bytes, padded with zero bits. */
  lemma GroupIsNumber(bs: seq<Byte>)
    requires 1 <= |bs| <= 3
    ensures |Encode(bs)| == |bs| + 1
    ensures Number64(Encode(bs))
              == Number256(bs) * (if |bs| == 1 then 16 else if |bs| == 2 then 4 else 1)
  {
    if |bs| == 1 {
      Write2(bs[0] / 4, bs[0] % 4 * 16);
      assert Number256(bs[..0]) == 0;
    } else if |bs| == 2 {
      Write3(bs[0] / 4, bs[0] % 4 * 16 + bs[1] / 16, bs[1] % 16 * 4);
      Read2(bs);
    } else {
      Write4(bs[0] / 4, bs[0] % 4 * 16 + bs[1] / 16, bs[1] % 16 * 4 + bs[2] / 64, bs[2] % 64);
      Read2(bs[..2]);
      assert bs[3..] == [] && Encode(bs) == Quad(bs[0], bs[1], bs[2]);
    }
  }

  lemma Read2(bs: seq<Byte>)
    requires |bs| == 2
    ensures var a: nat, b: nat := bs[0], bs[1]; Number256(bs) == a * 256 + b
  {
    assert Number256(bs[..1][..0]) == 0;
  }

  lemma Write2(v: nat, w: nat)
    requires v < 64 && w < 64
    ensures Number64([CharOf(v), CharOf(w)]) == v * 64 + w
  {
    Write1(v);
    AlphabetRoundTrip(w);
    assert [CharOf(v), CharOf(w)][..1] == [CharOf(v)];
  }

  lemma Write1(v: nat)
    requires v < 64
    ensures Number64([CharOf(v)]) == v
  {
    AlphabetRoundTrip(v);
    assert Number64([CharOf(v)][..0]) == 0;
  }

  lemma Write3(v: nat, w: nat, x: nat)
    requires v < 64 && w < 64 && x < 64
    ensures Number64([CharOf(v), CharOf(w), CharOf(x)]) == (v * 64 + w) * 64 + x
  {
    Write2(v, w);
    AlphabetRoundTrip(x);
    assert [CharOf(v), CharOf(w), CharOf(x)][..2] == [CharOf(v), CharOf(w)];
  }

  lemma Write4(v: nat, w: nat, x: nat, y: nat)
    requires v < 64 && w < 64 && x < 64 && y < 64
    ensures Number64([CharOf(v), CharOf(w), CharOf(x), CharOf(y)]) == ((v * 64 + w) * 64 + x) * 64 + y
  {
    Write3(v, w, x);
    AlphabetRoundTrip(y);
    assert [CharOf(v), CharOf(w), CharOf(x), CharOf(y)][..3] == [CharOf(v), CharOf(w), CharOf(x)];
  }

  /** And longer input is encoded three bytes at a time. */
  lemma GroupsInOrder(bs: seq<Byte>)
    requires |bs| >= 3
    ensures Encode(bs) == Encode(bs[..3]) + Encode(bs[3..])
  {
    assert bs[..3][3..] == [] && Encode(bs[..3]) == Quad(bs[0], bs[1], bs[2]);
  }

  lemma {:induction false} RunAppend(d: Decoder, s: string, t: string)
    ensures Run(d, s + t) == Run(Run(d, s), t)
  {
    if t == [] {
      assert s + t == s;
    } else {
      RunAppend(d, s, t[..|t| - 1]);
      assert (s + t)[..|s + t| - 1] == s + t[..|t| - 1];
    }
  }

  lemma RunOne(d: Decoder, v: nat)
    requires v < 64
    ensures Run(d, [CharOf(v)]) == Feed(d, v)
  {
    AlphabetRoundTrip(v);
    assert [CharOf(v)][..0] == [];
  }

  /** First character of a byte, then the one that completes it. */
  lemma FirstByte(out: seq<Byte>, a: Byte, low: nat)
    requires low < 16
    ensures Run(Decoder(0, 0, out), [CharOf(a / 4), CharOf(a % 4 * 16 + low)]) == Decoder(low, 4, out + [a])
  {
    var c1, c2 := CharOf(a / 4), CharOf(a % 4 * 16 + low);
    RunAppend(Decoder(0, 0, out), [c1], [c2]);
    assert [c1] + [c2] == [c1, c2];
    RunOne(Decoder(0, 0, out), a / 4);
    FeedSecond(out, a, low);
    RunOne(Decoder(a / 4, 6, out), a % 4 * 16 + low);
  }

  lemma FeedSecond(out: seq<Byte>, a: Byte, low: nat)
    requires low < 16
    ensures Feed(Decoder(a / 4, 6, out), a % 4 * 16 + low) == Decoder(low, 4, out + [a])
  {
    Powers();
    var buf := a / 4 * 64 + (a % 4 * 16 + low);
    assert buf == a * 16 + low;
    assert buf / 16 == a && buf % 16 == low;
  }

  lemma SecondByte(out: seq<Byte>, b: Byte, low: nat)
    requires low < 4
    ensures Run(Decoder(b / 16, 4, out), [CharOf(b % 16 * 4 + low)]) == Decoder(low, 2, out + [b])
  {
    RunOne(Decoder(b / 16, 4, out), b % 16 * 4 + low);
    FeedThird(out, b, low);
  }

  lemma FeedThird(out: seq<Byte>, b: Byte, low: nat)
    requires low < 4
    ensures Feed(Decoder(b / 16, 4, out), b % 16 * 4 + low) == Decoder(low, 2, out + [b])
  {
    Powers();
    var buf := b / 16 * 64 + (b % 16 * 4 + low);
    assert buf == b * 4 + low;
    assert buf / 4 == b && buf % 4 == low;
  }

  lemma ThirdByte(out: seq<Byte>, c: Byte)
    ensures Run(Decoder(c / 64, 2, out), [CharOf(c % 64)]) == Decoder(0, 0, out + [c])
  {
    RunOne(Decoder(c / 64, 2, out), c % 64);
    Powers();
  }

  lemma TwoBytes(out: seq<Byte>, a: Byte, b: Byte, low: nat)
    requires low < 4
    ensures Run(Decoder(0, 0, out), [CharOf(a / 4), CharOf(a % 4 * 16 + b / 16), CharOf(b % 16 * 4 + low)])
              == Decoder(low, 2, out + [a, b])
  {
    var s, t := [CharOf(a / 4), CharOf(a % 4 * 16 + b / 16)], [CharOf(b % 16 * 4 + low)];
    RunAppend(Decoder(0, 0, out), s, t);
    assert s + t == [CharOf(a / 4), CharOf(a % 4 * 16 + b / 16), CharOf(b % 16 * 4 + low)];
    FirstByte(out, a, b / 16);
    SecondByte(out + [a], b, low);
    assert out + [a] + [b] == out + [a, b];
  }

  lemma QuadDecodes(out: seq<Byte>, a: Byte, b: Byte, c: Byte)
    ensures Run(Decoder(0, 0, out), Quad(a, b, c)) == Decoder(0, 0, out + [a, b, c])
  {
    var s := [CharOf(a / 4), CharOf(a % 4 * 16 + b / 16), CharOf(b % 16 * 4 + c / 64)];
    assert Quad(a, b, c) == s + [CharOf(c % 64)];
    RunAppend(Decoder(0, 0, out), s, [CharOf(c % 64)]);
    TwoBytes(out, a, b, c / 64);
    ThirdByte(out + [a, b], c);
    assert out + [a, b] + [c] == out + [a, b, c];
  }

  lemma RunQuad(out: seq<Byte>, a: Byte, b: Byte, c: Byte, t: string)
    ensures Run(Decoder(0, 0, out), Quad(a, b, c) + t) == Run(Decoder(0, 0, out + [a, b, c]), t)
  {
    RunAppend(Decoder(0, 0, out), Quad(a, b, c), t);
    QuadDecodes(out, a, b, c);
  }

  lemma {:induction false} RunEncode(out: seq<Byte>, bs: seq<Byte>)
    ensures Run(Decoder(0, 0, out), Encode(bs)).out == out + bs
    decreases |bs|
  {
    if |bs| == 1 {
      FirstByte(out, bs[0], 0);
    } else if |bs| == 2 {
      TwoBytes(out, bs[0], bs[1], 0);
      assert bs == [bs[0], bs[1]];
    } else if |bs| >= 3 {
      RunEncode(out + [bs[0], bs[1], bs[2]], bs[3..]);
      RunQuad(out, bs[0], bs[1], bs[2], Encode(bs[3..]));
      SplitThree(out, bs);
    }
  }

  lemma SplitThree(out: seq<Byte>, bs: seq<Byte>)
    requires |bs| >= 3
    ensures out + [bs[0], bs[1], bs[2]] + bs[3..] == out + bs
  {
    assert bs == [bs[0], bs[1], bs[2]] + bs[3..];
  }

  /** Decoding undoes encoding, for every byte string. */
  lemma LeftInverse(bs: seq<Byte>)
    ensures Decode(Encode(bs)) == bs
  {
    RunEncode([], bs);
    assert [] + bs == bs;
  }

  function OnlyAlphabet(s: string): string {
    if s == [] then []
    else
      OnlyAlphabet(s[..|s| - 1]) + if ValueOf(s[|s| - 1]).Some? then [s[|s| - 1]] else []
  }

  /** Characters outside the alphabet, padding included, have no effect anywhere. */
  lemma {:induction false} ForeignCharactersIgnored(d: Decoder, s: string)
    ensures Run(d, OnlyAlphabet(s)) == Run(d, s)
  {
    if s != [] {
      var init, c := s[..|s| - 1], s[|s| - 1];
      ForeignCharactersIgnored(d, init);
      if ValueOf(c).Some? {
        RunAppend(d, OnlyAlphabet(init), [c]);
        assert [c][..0] == [];
      } else {
        assert OnlyAlphabet(init) + [] == OnlyAlphabet(init);
      }
    }
  }
}
