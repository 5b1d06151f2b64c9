/** base64url without padding, as cursors use it (section 5 of RFC 4648). */
module Base64 {
  import opened Wrappers

  type Byte = b: int | 0 <= b < 256

  /** The 64 characters, in order. */
  function Letter(v: nat): char
    requires v < 64
  {
    if v < 26 then 'A' + v as char
    else if v < 52 then 'a' + (v - 26) as char
    else if v < 62 then '0' + (v - 52) as char
    else if v == 62 then '-'
    else '_'
  }

  /** `ALPHABET.iter().position(..)`: the first place a character stands at. */
  function Position(c: char, from: nat): Option<nat>
    requires from <= 64
    decreases 64 - from
  {
    if from == 64 then None
    else if Letter(from) == c then Some(from)
    else Position(c, from + 1)
  }

  lemma {:induction false} PositionOfLetter(v: nat, from: nat)
    requires from <= v < 64
    ensures Position(Letter(v), from) == Some(v)
    decreases v - from
  {
    if from < v {
      assert Letter(from) != Letter(v);
      PositionOfLetter(v, from + 1);
    }
  }

  function Pack(b0: Byte, b1: Byte, b2: Byte): (n: nat)
    ensures n < 0x100_0000
  {
    b0 * 65536 + b1 * 256 + b2
  }

  /** One chunk of up to three bytes: one letter more than it has bytes. */
  function EncodeChunk(chunk: seq<Byte>): string
    requires 1 <= |chunk| <= 3
  {
    var n := Pack(chunk[0], if |chunk| > 1 then chunk[1] else 0, if |chunk| > 2 then chunk[2] else 0);
    [Letter(n / 262144 % 64), Letter(n / 4096 % 64)]
    + (if |chunk| > 1 then [Letter(n / 64 % 64)] else [])
    + (if |chunk| > 2 then [Letter(n % 64)] else [])
  }

  function Encode(bytes: seq<Byte>): string {
    if bytes == [] then []
    else if |bytes| <= 3 then EncodeChunk(bytes)
    else EncodeChunk(bytes[..3]) + Encode(bytes[3..])
  }

  function Pow2(bits: nat): nat {
    if bits == 0 then 1 else 2 * Pow2(bits - 1)
  }

  /** The decoder's bit buffer: `bits` bits are left over, as the number `buf`. */
  function DecodeFrom(s: string, buf: nat, bits: nat): Option<seq<Byte>>
    requires bits < 8
  {
    if s == [] then Some([]) else
    match Position(s[0], 0)
    case None => None
    case Some(v) =>
      if bits + 6 < 8 then DecodeFrom(s[1..], buf * 64 + v, bits + 6)
      else
        var left := bits - 2;
        match DecodeFrom(s[1..], (buf * 64 + v) % Pow2(left), left)
        case None => None
        case Some(rest) => Some([(buf * 64 + v) / Pow2(left) % 256] + rest)
  }

  lemma PowersOfTwo()
    ensures Pow2(0) == 1 && Pow2(2) == 4 && Pow2(4) == 16 && Pow2(6) == 64
  {
    assert Pow2(2) == 2 * Pow2(1) && Pow2(3) == 2 * Pow2(2) && Pow2(5) == 2 * Pow2(4);
  }

  /** `out` encodes what comes before `i`. */
  ghost predicate EncodedTo(bytes: seq<Byte>, i: nat, out: string) {
    i <= |bytes| && out + Encode(bytes[i..]) == Encode(bytes)
  }

  lemma EncodedFurther(bytes: seq<Byte>, i: nat, end: nat, out: string)
    requires i < end == Min(i + 3, |bytes|) && EncodedTo(bytes, i, out)
    ensures EncodedTo(bytes, end, out + EncodeChunk(bytes[i..end]))
  {
    var left, rest := bytes[i..], bytes[end..];
    EncodeSplits(left, end - i);
    assert left[..end - i] == bytes[i..end] && left[end - i..] == rest;
    assert out + (EncodeChunk(bytes[i..end]) + Encode(rest)) == (out + EncodeChunk(bytes[i..end])) + Encode(rest);
  }

  lemma EncodedEnds(bytes: seq<Byte>, out: string)
    ensures EncodedTo(bytes, 0, []) && (EncodedTo(bytes, |bytes|, out) ==> out == Encode(bytes))
  {
    assert bytes[0..] == bytes && bytes[|bytes|..] == [];
  }

  method EncodeLetters(chunk: seq<Byte>) returns (letters: string)
    requires 1 <= |chunk| <= 3
    ensures letters == EncodeChunk(chunk)
  {
    var b1 := if |chunk| > 1 then chunk[1] else 0;
    var b2 := if |chunk| > 2 then chunk[2] else 0;
    var n := Pack(chunk[0], b1, b2);
    letters := [Letter(n / 262144 % 64), Letter(n / 4096 % 64)];
    if |chunk| > 1 {
      letters := letters + [Letter(n / 64 % 64)];
    }
    if |chunk| > 2 {
      letters := letters + [Letter(n % 64)];
    }
  }

  method EncodeBytes(bytes: seq<Byte>) returns (out: string)
    ensures out == Encode(bytes)
  {
    out := [];
    var i: nat := 0;
    EncodedEnds(bytes, out);
    while i < |bytes|
      invariant EncodedTo(bytes, i, out)
    {
      var end := Min(i + 3, |bytes|);
      var letters := EncodeLetters(bytes[i..end]);
      EncodedFurther(bytes, i, end, out);
      out, i := out + letters, end;
    }
    EncodedEnds(bytes, out);
  }

  lemma EncodeSplits(bytes: seq<Byte>, k: nat)
    requires bytes != [] && k == Min(3, |bytes|)
    ensures Encode(bytes) == EncodeChunk(bytes[..k]) + Encode(bytes[k..])
  {
    if |bytes| <= 3 {
      assert bytes[..k] == bytes && bytes[k..] == [];
    }
  }

  /** The decoder, with its 32-bit buffer: the shift never overflows. */
  method DecodeBytes(s: string) returns (out: Option<seq<Byte>>)
    ensures out == DecodeFrom(s, 0, 0)
  {
    var bytes: seq<Byte> := [];
    var buf: nat, bits: nat := 0, 0;
    PowersOfTwo();
    PrependTwice([], [], DecodeFrom(s, 0, 0));
    assert s[0..] == s;
    for i := 0 to |s|
      invariant bits in {0, 2, 4, 6} && buf < Pow2(bits)
      invariant DecodeFrom(s, 0, 0) == Prepend(bytes, DecodeFrom(s[i..], buf, bits))
    {
      var v := Position(s[i], 0);
      assert s[i..][0] == s[i] && s[i..][1..] == s[i + 1..];
      if v.None? {
        return None;
      }
      PositionIsSmall(s[i], 0);
      assert buf * 64 + v.value < 0x1_0000_0000;
      buf := buf * 64 + v.value;
      bits := bits + 6;
      if bits >= 8 {
        bits := bits - 8;
        PrependTwice(bytes, [buf / Pow2(bits) % 256], DecodeFrom(s[i + 1..], buf % Pow2(bits), bits));
        bytes := bytes + [buf / Pow2(bits) % 256];
        buf := buf % Pow2(bits);
      }
    }
    assert s[|s|..] == [] && bytes + [] == bytes;
    return Some(bytes);
  }

  function Prepend(bytes: seq<Byte>, rest: Option<seq<Byte>>): Option<seq<Byte>> {
    if rest.None? then None else Some(bytes + rest.value)
  }

  lemma PrependTwice(a: seq<Byte>, b: seq<Byte>, rest: Option<seq<Byte>>)
    ensures Prepend(a + b, rest) == Prepend(a, Prepend(b, rest))
    ensures Prepend([], rest) == rest
  {
    if rest.Some? {
      assert a + b + rest.value == a + (b + rest.value);
      assert [] + rest.value == rest.value;
    }
  }

  lemma {:induction false} PositionIsSmall(c: char, from: nat)
    requires from <= 64
    ensures Position(c, from).Some? ==> Position(c, from).value < 64
    decreases 64 - from
  {
    if from < 64 {
      PositionIsSmall(c, from + 1);
    }
  }

  /** Two letters decode to the first byte and four bits of the second. */
  lemma DecodeTwo(x: nat, y: nat, rest: string)
    requires x < 64 && y < 64
    ensures DecodeFrom([Letter(x), Letter(y)] + rest, 0, 0)
            == Prepend([(x * 64 + y) / 16 % 256], DecodeFrom(rest, (x * 64 + y) % 16, 4))
  {
    var s := [Letter(x), Letter(y)] + rest;
    PositionOfLetter(x, 0);
    PositionOfLetter(y, 0);
    PowersOfTwo();
    assert s[1..] == [Letter(y)] + rest && s[1..][1..] == rest;
  }

  lemma DecodeThird(buf: nat, z: nat, rest: string)
    requires z < 64
    ensures DecodeFrom([Letter(z)] + rest, buf, 4) == Prepend([(buf * 64 + z) / 4 % 256], DecodeFrom(rest, (buf * 64 + z) % 4, 2))
  {
    PositionOfLetter(z, 0);
    PowersOfTwo();
    assert ([Letter(z)] + rest)[1..] == rest;
  }

  lemma DecodeFourth(buf: nat, w: nat, rest: string)
    requires w < 64
    ensures DecodeFrom([Letter(w)] + rest, buf, 2) == Prepend([(buf * 64 + w) % 256], DecodeFrom(rest, 0, 0))
  {
    PositionOfLetter(w, 0);
    PowersOfTwo();
    assert ([Letter(w)] + rest)[1..] == rest;
  }

  lemma Divided(a: nat, b: nat)
    ensures b < 64 ==> (64 * a + b) / 64 == a && (64 * a + b) % 64 == b
    ensures b < 4096 ==> (4096 * a + b) / 4096 == a
    ensures b < 262144 ==> (262144 * a + b) / 262144 == a
  {
  }

  /** A packed chunk is its four groups. */
  lemma PackedGroups(b0: Byte, b1: Byte, b2: Byte)
    ensures var x, y, z, w := b0 / 4, b0 % 4 * 16 + b1 / 16, b1 % 16 * 4 + b2 / 64, b2 % 64;
            x < 64 && y < 64 && z < 64 && w < 64 && Pack(b0, b1, b2) == 262144 * x + 4096 * y + 64 * z + w
  {
    assert b0 == 4 * (b0 / 4) + b0 % 4 && b1 == 16 * (b1 / 16) + b1 % 16 && b2 == 64 * (b2 / 64) + b2 % 64;
  }

  /** The six-bit groups of a packed chunk, from the halves of its bytes. */
  lemma Groups(b0: Byte, b1: Byte, b2: Byte)
    ensures var n := Pack(b0, b1, b2);
            && n / 262144 % 64 == b0 / 4
            && n / 4096 % 64 == b0 % 4 * 16 + b1 / 16
            && n / 64 % 64 == b1 % 16 * 4 + b2 / 64
            && n % 64 == b2 % 64
  {
    var x, y, z, w := b0 / 4, b0 % 4 * 16 + b1 / 16, b1 % 16 * 4 + b2 / 64, b2 % 64;
    PackedGroups(b0, b1, b2);
    GroupsOf(Pack(b0, b1, b2), x, y, z, w);
  }

  lemma GroupsOf(n: nat, x: nat, y: nat, z: nat, w: nat)
    requires x < 64 && y < 64 && z < 64 && w < 64 && n == 262144 * x + 4096 * y + 64 * z + w
    ensures n / 262144 % 64 == x && n / 4096 % 64 == y && n / 64 % 64 == z && n % 64 == w
  {
    Divided(x, 4096 * y + 64 * z + w);
    Divided(64 * x + y, 64 * z + w);
    Divided(4096 * x + 64 * y + z, w);
    Divided(x, y);
    Divided(64 * x + y, z);
  }

  /** Shifted together again, they are the bytes. */
  lemma Regroup(b0: Byte, b1: Byte, b2: Byte, x: nat, y: nat, z: nat, w: nat)
    requires x == b0 / 4 && y == b0 % 4 * 16 + b1 / 16 && z == b1 % 16 * 4 + b2 / 64 && w == b2 % 64
    ensures (x * 64 + y) / 16 % 256 == b0 && (x * 64 + y) % 16 == b1 / 16
    ensures (b1 / 16 * 64 + z) / 4 % 256 == b1 && (b1 / 16 * 64 + z) % 4 == b2 / 64
    ensures (b2 / 64 * 64 + w) % 256 == b2
  {
    assert x * 64 + y == b0 * 16 + b1 / 16;
    assert b1 / 16 * 64 + z == b1 * 4 + b2 / 64;
  }

  lemma DecodeOneByte(chunk: seq<Byte>)
    requires |chunk| == 1
    ensures DecodeFrom(EncodeChunk(chunk), 0, 0) == Some(chunk)
  {
    var n := Pack(chunk[0], 0, 0);
    var x, y := n / 262144 % 64, n / 4096 % 64;
    Groups(chunk[0], 0, 0);
    Regroup(chunk[0], 0, 0, x, y, n / 64 % 64, n % 64);
    DecodeTwo(x, y, []);
    assert EncodeChunk(chunk) == [Letter(x), Letter(y)] + [];
    assert chunk == [chunk[0]] + [];
  }

  lemma DecodeTwoBytes(chunk: seq<Byte>)
    requires |chunk| == 2
    ensures DecodeFrom(EncodeChunk(chunk), 0, 0) == Some(chunk)
  {
    var b0, b1 := chunk[0], chunk[1];
    var n := Pack(b0, b1, 0);
    var x, y, z := n / 262144 % 64, n / 4096 % 64, n / 64 % 64;
    Groups(b0, b1, 0);
    Regroup(b0, b1, 0, x, y, z, n % 64);
    DecodeTwo(x, y, [Letter(z)] + []);
    DecodeThird(b1 / 16, z, []);
    assert EncodeChunk(chunk) == [Letter(x), Letter(y)] + ([Letter(z)] + []);
    assert chunk == [b0] + ([b1] + []);
  }

  /** The first byte, as two letters bring it. */
  lemma FirstByte(b0: Byte, b1: Byte, x: nat, y: nat, rest: string)
    requires x == b0 / 4 && y == b0 % 4 * 16 + b1 / 16
    ensures DecodeFrom([Letter(x), Letter(y)] + rest, 0, 0) == Prepend([b0], DecodeFrom(rest, b1 / 16, 4))
  {
    Regroup(b0, b1, 0, x, y, b1 % 16 * 4, 0);
    DecodeTwo(x, y, rest);
  }

  lemma SecondByte(b1: Byte, b2: Byte, z: nat, rest: string)
    requires z == b1 % 16 * 4 + b2 / 64
    ensures DecodeFrom([Letter(z)] + rest, b1 / 16, 4) == Prepend([b1], DecodeFrom(rest, b2 / 64, 2))
  {
    Regroup(0, b1, b2, 0, b1 / 16, z, b2 % 64);
    DecodeThird(b1 / 16, z, rest);
  }

  lemma ThirdByte(b2: Byte, w: nat, rest: string)
    requires w == b2 % 64
    ensures DecodeFrom([Letter(w)] + rest, b2 / 64, 2) == Prepend([b2], DecodeFrom(rest, 0, 0))
  {
    Regroup(0, 0, b2, 0, 0, b2 / 64, w);
    DecodeFourth(b2 / 64, w, rest);
  }

  lemma DecodeFour(b0: Byte, b1: Byte, b2: Byte, x: nat, y: nat, z: nat, w: nat, rest: string)
    requires x < 64 && y < 64 && z < 64 && w < 64
    requires x == b0 / 4 && y == b0 % 4 * 16 + b1 / 16 && z == b1 % 16 * 4 + b2 / 64 && w == b2 % 64
    ensures DecodeFrom([Letter(x), Letter(y)] + ([Letter(z)] + ([Letter(w)] + rest)), 0, 0)
            == Prepend([b0], Prepend([b1], Prepend([b2], DecodeFrom(rest, 0, 0))))
  {
    FirstByte(b0, b1, x, y, [Letter(z)] + ([Letter(w)] + rest));
    SecondByte(b1, b2, z, [Letter(w)] + rest);
    ThirdByte(b2, w, rest);
  }

  lemma DecodeThreeBytes(chunk: seq<Byte>, rest: string)
    requires |chunk| == 3
    ensures DecodeFrom(EncodeChunk(chunk) + rest, 0, 0) == Prepend(chunk, DecodeFrom(rest, 0, 0))
  {
    var b0, b1, b2 := chunk[0], chunk[1], chunk[2];
    var n := Pack(b0, b1, b2);
    var x, y, z, w := n / 262144 % 64, n / 4096 % 64, n / 64 % 64, n % 64;
    Groups(b0, b1, b2);
    DecodeFour(b0, b1, b2, x, y, z, w, rest);
    assert EncodeChunk(chunk) + rest == [Letter(x), Letter(y)] + ([Letter(z)] + ([Letter(w)] + rest));
    PrependTwice([b1], [b2], DecodeFrom(rest, 0, 0));
    PrependTwice([b0], [b1] + [b2], DecodeFrom(rest, 0, 0));
    assert chunk == [b0] + ([b1] + [b2]);
  }

  /** The round trip, for every byte string. */
  lemma {:induction false} RoundTrip(bytes: seq<Byte>)
    ensures DecodeFrom(Encode(bytes), 0, 0) == Some(bytes)
  {
    if |bytes| == 1 {
      DecodeOneByte(bytes);
    } else if |bytes| == 2 {
      DecodeTwoBytes(bytes);
    } else if |bytes| > 2 {
      EncodeSplits(bytes, 3);
      DecodeThreeBytes(bytes[..3], Encode(bytes[3..]));
      RoundTrip(bytes[3..]);
      assert bytes == bytes[..3] + bytes[3..];
    }
  }
}
