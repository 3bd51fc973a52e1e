/** UTF-8 decoding as the Go runtime does it: the table of section 4 of RFC 3629, where every
    byte that does not start a well-formed sequence counts as one broken byte. */
module Utf8 {

  type byte = x: int | 0 <= x < 256

  type Bytes = seq<byte>

  const RUNE_ERROR: int := 0xFFFD
  const RUNE_SELF: int := 0x80

  datatype Decoded = Decoded(rune: int, width: nat)

  predicate ValidRune(r: int) {
    0 <= r < 0xD800 || 0xE000 <= r < 0x110000
  }

  predicate Cont(b: byte) {
    0x80 <= b <= 0xBF
  }

  /** The second byte of a three-byte sequence: no overlong forms and no surrogates. */
  predicate Second3(b0: byte, b1: byte) {
    if b0 == 0xE0 then 0xA0 <= b1 <= 0xBF
    else if b0 == 0xED then 0x80 <= b1 <= 0x9F
    else Cont(b1)
  }

  /** The second byte of a four-byte sequence: no overlong forms, nothing above U+10FFFF. */
  predicate Second4(b0: byte, b1: byte) {
    if b0 == 0xF0 then 0x90 <= b1 <= 0xBF
    else if b0 == 0xF4 then 0x80 <= b1 <= 0x8F
    else Cont(b1)
  }

  /** The payload of a byte whose marker bits are those of `marker`. */
  function Bits(b: byte, marker: int): int {
    b - marker
  }

  function DecodeRune(s: Bytes): (d: Decoded)
    requires s != []
    ensures 1 <= d.width <= |s|
  {
    var b0 := s[0];
    if b0 < RUNE_SELF then
      Decoded(b0, 1)
    else if 0xC2 <= b0 <= 0xDF && |s| >= 2 && Cont(s[1]) then
      Decoded(Bits(b0, 0xC0) * 64 + Bits(s[1], 0x80), 2)
    else if 0xE0 <= b0 <= 0xEF && |s| >= 3 && Second3(b0, s[1]) && Cont(s[2]) then
      Decoded(Bits(b0, 0xE0) * 4096 + Bits(s[1], 0x80) * 64 + Bits(s[2], 0x80), 3)
    else if 0xF0 <= b0 <= 0xF4 && |s| >= 4 && Second4(b0, s[1]) && Cont(s[2]) && Cont(s[3]) then
      Decoded(Bits(b0, 0xF0) * 262144 + Bits(s[1], 0x80) * 4096 + Bits(s[2], 0x80) * 64 + Bits(s[3], 0x80), 4)
    else
      Decoded(RUNE_ERROR, 1)
  }

  function EncodeRune(r: int): (s: Bytes)
    requires ValidRune(r)
  {
    if r < 0x80 then [r]
    else if r < 0x800 then [0xC0 + r / 64, 0x80 + r % 64]
    else if r < 0x10000 then [0xE0 + r / 4096, 0x80 + r / 64 % 64, 0x80 + r % 64]
    else [0xF0 + r / 262144, 0x80 + r / 4096 % 64, 0x80 + r / 64 % 64, 0x80 + r % 64]
  }

  /** Whether decoding met a byte that starts no well-formed sequence. */
  predicate Broken(d: Decoded) {
    d.width == 1 && d.rune == RUNE_ERROR
  }

  lemma EncodeTwo(a: int, b: int)
    requires 2 <= a < 32 && 0 <= b < 64
    ensures var r := a * 64 + b;
            ValidRune(r) && EncodeRune(r) == [0xC0 + a, 0x80 + b]
  {
  }

  lemma EncodeThree(a: int, b: int, c: int)
    requires 0 <= a < 16 && 0 <= b < 64 && 0 <= c < 64 && (a == 0 ==> b >= 32) && (a == 13 ==> b < 32)
    ensures var r := a * 4096 + b * 64 + c;
            ValidRune(r) && EncodeRune(r) == [0xE0 + a, 0x80 + b, 0x80 + c]
  {
    var r := a * 4096 + b * 64 + c;
    assert r / 64 == a * 64 + b && r / 4096 == a;
  }

  lemma EncodeFour(a: int, b: int, c: int, d: int)
    requires 0 <= a <= 4 && 0 <= b < 64 && 0 <= c < 64 && 0 <= d < 64 && (a == 0 ==> b >= 16) && (a == 4 ==> b < 16)
    ensures var r := a * 262144 + b * 4096 + c * 64 + d;
            ValidRune(r) && EncodeRune(r) == [0xF0 + a, 0x80 + b, 0x80 + c, 0x80 + d]
  {
    var r := a * 262144 + b * 4096 + c * 64 + d;
    assert r / 64 == a * 4096 + b * 64 + c && r / 4096 == a * 64 + b && r / 262144 == a;
  }

  /** A well-formed sequence is exactly the encoding of the rune it decodes to. */
  lemma DecodeInvertsEncode(s: Bytes)
    requires s != [] && !Broken(DecodeRune(s))
    ensures var d := DecodeRune(s); ValidRune(d.rune) && EncodeRune(d.rune) == s[..d.width]
  {
    var width := DecodeRune(s).width;
    if width == 2 {
      EncodeTwo(Bits(s[0], 0xC0), Bits(s[1], 0x80));
    } else if width == 3 {
      EncodeThree(Bits(s[0], 0xE0), Bits(s[1], 0x80), Bits(s[2], 0x80));
    } else if width == 4 {
      EncodeFour(Bits(s[0], 0xF0), Bits(s[1], 0x80), Bits(s[2], 0x80), Bits(s[3], 0x80));
    }
  }

  lemma Digits64(r: nat)
    ensures r == r / 64 * 64 + r % 64
    ensures r == r / 4096 * 4096 + r / 64 % 64 * 64 + r % 64
    ensures r == r / 262144 * 262144 + r / 4096 % 64 * 4096 + r / 64 % 64 * 64 + r % 64
  {
    assert r / 4096 == r / 64 / 64 && r / 262144 == r / 4096 / 64;
  }

  lemma DecodesTwo(r: int, rest: Bytes)
    requires 0x80 <= r < 0x800
    ensures DecodeRune(EncodeRune(r) + rest) == Decoded(r, 2)
  {
    Digits64(r);
  }

  lemma DecodesThree(r: int, rest: Bytes)
    requires 0x800 <= r < 0x10000 && ValidRune(r)
    ensures DecodeRune(EncodeRune(r) + rest) == Decoded(r, 3)
  {
    Digits64(r);
    var a, b, c := r / 4096, r / 64 % 64, r % 64;
    var s := EncodeRune(r) + rest;
    assert s[0] == 0xE0 + a && s[1] == 0x80 + b && s[2] == 0x80 + c;
    assert a == 0 ==> 32 <= b;
    assert a == 13 ==> b < 32;
  }

  lemma DecodesFour(r: int, rest: Bytes)
    requires 0x10000 <= r < 0x110000
    ensures DecodeRune(EncodeRune(r) + rest) == Decoded(r, 4)
  {
    Digits64(r);
    var a, b, c, d := r / 262144, r / 4096 % 64, r / 64 % 64, r % 64;
    var s := EncodeRune(r) + rest;
    assert s[0] == 0xF0 + a && s[1] == 0x80 + b && s[2] == 0x80 + c && s[3] == 0x80 + d;
    assert a == 0 ==> 16 <= b;
    assert a == 4 ==> b < 16;
  }

  /** The encoding of any rune is decoded, whatever follows it. */
  lemma DecodesEncoded(r: int, rest: Bytes)
    requires ValidRune(r)
    ensures DecodeRune(EncodeRune(r) + rest) == Decoded(r, |EncodeRune(r)|)
  {
    if r < 0x80 {
    } else if r < 0x800 {
      DecodesTwo(r, rest);
    } else if r < 0x10000 {
      DecodesThree(r, rest);
    } else {
      DecodesFour(r, rest);
    }
  }

  /** The first byte counts as broken exactly when no rune's encoding stands there. */
  lemma BrokenIff(s: Bytes)
    requires s != []
    ensures Broken(DecodeRune(s)) <==> forall r | ValidRune(r) :: !(EncodeRune(r) <= s)
  {
    hide DecodeRune;
    forall r | ValidRune(r) && EncodeRune(r) <= s
      ensures DecodeRune(s) == Decoded(r, |EncodeRune(r)|)
    {
      var rest := s[|EncodeRune(r)|..];
      assert EncodeRune(r) + rest == s;
      DecodesEncoded(r, rest);
    }
    if !Broken(DecodeRune(s)) {
      DecodeInvertsEncode(s);
    }
  }

  /** Characters of the examples in section 7 of RFC 3629. */
  lemma EncodingExamples()
    ensures EncodeRune(0x41) == [0x41] && EncodeRune(0x391) == [0xCE, 0x91]
    ensures EncodeRune(0x2262) == [0xE2, 0x89, 0xA2] && EncodeRune(0x233B4) == [0xF0, 0xA3, 0x8E, 0xB4]
  {
  }
}
