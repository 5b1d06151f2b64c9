/** Percent-encoding of one path segment, and the lenient decoder scopes go
    through (sections 2.1 and 2.3 of RFC 3986). Text is its UTF-8 bytes. */
module Percent {
  import opened Wrappers

  type Byte = b: int | 0 <= b < 256

  const PERCENT: Byte := 0x25
  const PLUS: Byte := 0x2B

  /** What goes out raw: letters, digits, `-`, `_`, `.`, `~` and `=`. */
  predicate IsPlain(b: Byte) {
    || 0x41 <= b <= 0x5A || 0x61 <= b <= 0x7A || 0x30 <= b <= 0x39
    || b == 0x2D || b == 0x5F || b == 0x2E || b == 0x7E || b == 0x3D
  }

  function HexUpper(v: nat): Byte
    requires v < 16
  {
    if v < 10 then 0x30 + v else 0x41 + (v - 10)
  }

  function HexValue(b: Byte): Option<nat> {
    if 0x30 <= b <= 0x39 then Some(b - 0x30)
    else if 0x41 <= b <= 0x46 then Some(b - 0x41 + 10)
    else if 0x61 <= b <= 0x66 then Some(b - 0x61 + 10)
    else None
  }

  /** `u8::from_str_radix(_, 16)` on two characters, which allows a plus sign. */
  function ParsePair(hi: Byte, lo: Byte): Option<Byte> {
    if hi == PLUS then HexValue(lo)
    else if HexValue(hi).Some? && HexValue(lo).Some? then Some(16 * HexValue(hi).value + HexValue(lo).value)
    else None
  }

  function EncodeByte(b: Byte): seq<Byte> {
    if IsPlain(b) then [b] else [PERCENT, HexUpper(b / 16), HexUpper(b % 16)]
  }

  function Encode(s: seq<Byte>): seq<Byte> {
    if s == [] then [] else EncodeByte(s[0]) + Encode(s[1..])
  }

  /** `out` encodes what comes before `i`. */
  ghost predicate EncodedTo(s: seq<Byte>, i: nat, out: seq<Byte>) {
    i <= |s| && out + Encode(s[i..]) == Encode(s)
  }

  lemma EncodedFurther(s: seq<Byte>, i: nat, out: seq<Byte>)
    requires i < |s| && EncodedTo(s, i, out)
    ensures EncodedTo(s, i + 1, out + EncodeByte(s[i]))
  {
    assert s[i..][1..] == s[i + 1..];
    assert out + (EncodeByte(s[i]) + Encode(s[i + 1..])) == (out + EncodeByte(s[i])) + Encode(s[i + 1..]);
  }

  lemma EncodedEnds(s: seq<Byte>, out: seq<Byte>)
    ensures EncodedTo(s, 0, []) && (EncodedTo(s, |s|, out) ==> out == Encode(s))
  {
    assert s[0..] == s && s[|s|..] == [];
  }

  method EncodeSegment(s: seq<Byte>) returns (out: seq<Byte>)
    ensures out == Encode(s)
  {
    out := [];
    EncodedEnds(s, out);
    for i := 0 to |s|
      invariant EncodedTo(s, i, out)
    {
      EncodedFurther(s, i, out);
      if IsPlain(s[i]) {
        out := out + [s[i]];
      } else {
        out := out + [PERCENT, HexUpper(s[i] / 16), HexUpper(s[i] % 16)];
      }
    }
    EncodedEnds(s, out);
  }

  /** `str::is_char_boundary` at the front of what is left. */
  predicate AtBoundary(s: seq<Byte>) {
    s == [] || !(0x80 <= s[0] < 0xC0)
  }

  /** A well-formed escape at the front. */
  function Escape(s: seq<Byte>): Option<Byte> {
    if |s| > 2 && s[0] == PERCENT && AtBoundary(s[1..]) && AtBoundary(s[3..]) then ParsePair(s[1], s[2]) else None
  }

  function Decode(s: seq<Byte>): seq<Byte> {
    if s == [] then []
    else if Escape(s).Some? then [Escape(s).value] + Decode(s[3..])
    else [s[0]] + Decode(s[1..])
  }

  ghost predicate DecodedTo(s: seq<Byte>, i: nat, out: seq<Byte>) {
    i <= |s| && out + Decode(s[i..]) == Decode(s)
  }

  lemma DecodedFurther(s: seq<Byte>, i: nat, out: seq<Byte>, b: Byte, next: nat)
    requires DecodedTo(s, i, out) && next <= |s| && Decode(s[i..]) == [b] + Decode(s[next..])
    ensures DecodedTo(s, next, out + [b])
  {
    assert out + ([b] + Decode(s[next..])) == (out + [b]) + Decode(s[next..]);
  }

  lemma DecodedEnds(s: seq<Byte>, out: seq<Byte>)
    ensures DecodedTo(s, 0, []) && (DecodedTo(s, |s|, out) ==> out == Decode(s))
  {
    assert s[0..] == s && s[|s|..] == [];
  }

  /** The byte at `i`, decoded if a well-formed escape starts there. */
  method DecodeByte(s: seq<Byte>, i: nat) returns (b: Byte, next: nat)
    requires i < |s|
    ensures i < next <= |s| && Decode(s[i..]) == [b] + Decode(s[next..])
  {
    ghost var rest := s[i..];
    assert rest[0] == s[i] && rest[1..] == s[i + 1..];
    if s[i] == PERCENT && i + 2 < |s| && AtBoundary(s[i + 1..]) && AtBoundary(s[i + 3..]) {
      assert rest[1] == s[i + 1] && rest[2] == s[i + 2] && rest[3..] == s[i + 3..];
      var pair := ParsePair(s[i + 1], s[i + 2]);
      if pair.Some? {
        return pair.value, i + 3;
      }
    }
    assert |rest| > 2 ==> rest[3..] == s[i + 3..];
    return s[i], i + 1;
  }

  /** The decoded bytes, before `from_utf8_lossy`, which is the identity on UTF-8. */
  method PercentDecode(s: seq<Byte>) returns (out: seq<Byte>)
    ensures out == Decode(s)
  {
    out := [];
    var i: nat := 0;
    DecodedEnds(s, out);
    while i < |s|
      invariant DecodedTo(s, i, out)
      decreases |s| - i
    {
      var b, next := DecodeByte(s, i);
      DecodedFurther(s, i, out, b, next);
      out, i := out + [b], next;
    }
    DecodedEnds(s, out);
  }

  lemma HexBack(v: nat)
    requires v < 16
    ensures HexValue(HexUpper(v)) == Some(v) && HexUpper(v) != PLUS
  {
  }

  lemma EncodeStartsAscii(s: seq<Byte>)
    ensures AtBoundary(Encode(s))
  {
    if s != [] {
      assert Encode(s)[0] == EncodeByte(s[0])[0];
    }
  }

  /** The round trip, for every byte string, so for every UTF-8 string. */
  lemma {:induction false} RoundTrip(s: seq<Byte>)
    ensures Decode(Encode(s)) == s
  {
    if s != [] {
      RoundTrip(s[1..]);
      var b, rest := s[0], Encode(s[1..]);
      var out := EncodeByte(b) + rest;
      EncodeStartsAscii(s[1..]);
      if IsPlain(b) {
        assert out[1..] == rest && out[0] == b;
      } else {
        HexBack(b / 16);
        HexBack(b % 16);
        assert out[3..] == rest && out[1..][0] == HexUpper(b / 16);
        assert out == [PERCENT, HexUpper(b / 16), HexUpper(b % 16)] + rest;
        assert Escape(out) == Some(b);
      }
    }
  }

  /** What an encoded segment looks like: plain bytes and upper-case escapes. */
  predicate WellFormed(s: seq<Byte>) {
    s != [] ==>
      if s[0] == PERCENT then
        |s| > 2 && UpperHex(s[1]) && UpperHex(s[2]) && WellFormed(s[3..])
      else IsPlain(s[0]) && WellFormed(s[1..])
  }

  predicate UpperHex(b: Byte) {
    0x30 <= b <= 0x39 || 0x41 <= b <= 0x46
  }

  lemma {:induction false} EncodedIsWellFormed(s: seq<Byte>)
    ensures WellFormed(Encode(s))
  {
    if s != [] {
      EncodedIsWellFormed(s[1..]);
      var out := EncodeByte(s[0]) + Encode(s[1..]);
      if IsPlain(s[0]) {
        assert out[1..] == Encode(s[1..]);
      } else {
        assert out[3..] == Encode(s[1..]);
      }
    }
  }
}
