/** The ASCII quoting of arbitrary byte strings (QuoteToASCII of the Go library) and a reader
    for the string literals of section "String literals" of the Go specification. */
module Quote {
  import opened Common
  import opened Utf8

  const QUOTE: byte := 0x22
  const BACKSLASH: byte := 0x5C

  // ---------------------------------------------------------------- hexadecimal digits

  function HexDigit(v: int): (b: byte)
    requires 0 <= v < 16
  {
    if v < 10 then 0x30 + v else 0x61 + (v - 10)
  }

  function HexValue(b: byte): Option<int> {
    if 0x30 <= b <= 0x39 then Some(b - 0x30)
    else if 0x61 <= b <= 0x66 then Some(b - 0x61 + 10)
    else if 0x41 <= b <= 0x46 then Some(b - 0x41 + 10)
    else None
  }

  function Pow16(n: nat): (p: nat)
    ensures p > 0
  {
    if n == 0 then 1 else 16 * Pow16(n - 1)
  }

  /** The n lower-case digits of v, most significant first. */
  function Hex(v: nat, n: nat): (s: Bytes)
    ensures |s| == n
  {
    if n == 0 then [] else Hex(v / 16, n - 1) + [HexDigit(v % 16)]
  }

  function ReadHex(s: Bytes): (v: Option<nat>) {
    if s == [] then Some(0)
    else
      match (ReadHex(s[..|s| - 1]), HexValue(s[|s| - 1]))
      case (Some(hi), Some(lo)) => Some(hi * 16 + lo)
      case _ => None
  }

  lemma DigitRoundTrip(v: int)
    requires 0 <= v < 16
    ensures HexValue(HexDigit(v)) == Some(v)
  {
  }

  lemma {:induction false} HexRoundTrip(v: nat, n: nat)
    requires v < Pow16(n)
    ensures ReadHex(Hex(v, n)) == Some(v)
  {
    if n > 0 {
      HexRoundTrip(v / 16, n - 1);
      var s := Hex(v, n);
      assert s[..|s| - 1] == Hex(v / 16, n - 1);
      DigitRoundTrip(v % 16);
      hide HexDigit, HexValue;
    }
  }

  // ---------------------------------------------------------------- writing

  predicate Printable(r: int) {
    0x20 <= r <= 0x7E
  }

  /** The letter of a one-letter escape, if the rune has one. */
  function EscapeLetter(r: int): Option<byte> {
    if r == 0x07 then Some(0x61)        // \a
    else if r == 0x08 then Some(0x62)   // \b
    else if r == 0x0C then Some(0x66)   // \f
    else if r == 0x0A then Some(0x6E)   // \n
    else if r == 0x0D then Some(0x72)   // \r
    else if r == 0x09 then Some(0x74)   // \t
    else if r == 0x0B then Some(0x76)   // \v
    else None
  }

  function EscapedRune(r: int): Bytes
    requires ValidRune(r)
  {
    if r == QUOTE || r == BACKSLASH then [BACKSLASH, r]
    else if Printable(r) then [r]
    else if EscapeLetter(r).Some? then [BACKSLASH, EscapeLetter(r).value]
    else if r < 0x20 || r == 0x7F then [BACKSLASH, 0x78] + Hex(r, 2)
    else if r < 0x10000 then [BACKSLASH, 0x75] + Hex(r, 4)
    else [BACKSLASH, 0x55] + Hex(r, 8)
  }

  /** The output for the first rune, or the first broken byte, of s. */
  function QuoteUnit(s: Bytes): (q: Bytes)
    requires s != []
  {
    var d := DecodeRune(s);
    if Broken(d) then
      [BACKSLASH, 0x78] + Hex(s[0], 2)
    else
      DecodeInvertsEncode(s);
      EscapedRune(d.rune)
  }

  function QuoteBody(s: Bytes): (q: Bytes) {
    if s == [] then [] else QuoteUnit(s) + QuoteBody(s[DecodeRune(s).width..])
  }

  function QuoteToASCII(s: Bytes): (q: Bytes) {
    [QUOTE] + QuoteBody(s) + [QUOTE]
  }

  lemma QuoteBodyStep(s: Bytes)
    requires s != []
    ensures QuoteBody(s) == QuoteUnit(s) + QuoteBody(s[DecodeRune(s).width..])
  {
    hide QuoteUnit;
  }

  // ---------------------------------------------------------------- what is written

  /** One of the characters 0 to 9 and a to f. */
  function Digit(k: int): (b: byte)
    requires 0 <= k < 16
    ensures 0x20 <= b <= 0x7E
  {
    [0x30, 0x31, 0x32, 0x33, 0x34, 0x35, 0x36, 0x37, 0x38, 0x39, 0x61, 0x62, 0x63, 0x64, 0x65, 0x66][k]
  }

  lemma HexStep(v: nat, n: nat)
    requires n >= 1
    ensures Hex(v, n) == Hex(v / 16, n - 1) + [Digit(v % 16)]
  {
    assert HexDigit(v % 16) == Digit(v % 16);
    hide HexDigit, Digit;
  }

  lemma HexTwo(v: nat)
    requires v < 0x100
    ensures Hex(v, 2) == [Digit(v / 16), Digit(v % 16)]
  {
    hide Digit;
    HexStep(v, 2);
    HexStep(v / 16, 1);
    assert Hex(v / 16 / 16, 0) == [];
  }

  lemma HexFour(v: nat)
    requires v < 0x10000
    ensures Hex(v, 4) == [Digit(v / 0x1000), Digit(v / 0x100 % 16), Digit(v / 0x10 % 16), Digit(v % 16)]
  {
    hide Hex, Digit;
    assert v / 16 / 16 == v / 0x100 && v / 0x100 / 16 == v / 0x1000;
    HexStep(v, 4);
    HexStep(v / 16, 3);
    HexTwo(v / 0x100);
  }

  lemma HexEight(v: nat)
    requires v < 0x110000
    ensures Hex(v, 8) == [Digit(0), Digit(0), Digit(v / 0x100000), Digit(v / 0x10000 % 16),
                          Digit(v / 0x1000 % 16), Digit(v / 0x100 % 16), Digit(v / 0x10 % 16), Digit(v % 16)]
  {
    hide Hex, Digit;
    Quotients(v);
    HexStep(v, 8);
    HexStep(v / 0x10, 7);
    HexStep(v / 0x100, 6);
    HexStep(v / 0x1000, 5);
    HexFour(v / 0x10000);
  }

  lemma Quotients(v: nat)
    requires v < 0x110000
    ensures v / 0x10 / 16 == v / 0x100 && v / 0x100 / 16 == v / 0x1000 && v / 0x1000 / 16 == v / 0x10000
    ensures var x := v / 0x10000;
            x < 0x100 && x / 0x1000 == 0 == x / 0x100 % 16 && x / 0x10 % 16 == x / 0x10 == v / 0x100000 < 16
  {
  }

  /** The letter of an escape: a, b, t, n, v, f, r for 7 to 13. */
  function Letter(r: int): (b: byte)
    requires 7 <= r <= 13
    ensures 0x20 <= b <= 0x7E
  {
    [0x61, 0x62, 0x74, 0x6E, 0x76, 0x66, 0x72][r - 7]
  }

  /** How a rune is written: quote and backslash behind a backslash, printable ASCII as itself, the
      other control characters by letter or by two digits, the rest by four or eight digits. */
  predicate WrittenAs(r: int, q: Bytes) {
    if r == 0x22 || r == 0x5C then q == [0x5C, r]
    else if 0x20 <= r <= 0x7E then q == [r]
    else if 7 <= r <= 13 then q == [0x5C, Letter(r)]
    else if 0 <= r < 0x80 then q == [0x5C, 0x78, Digit(r / 16), Digit(r % 16)]
    else if 0x80 <= r < 0x10000 then
      q == [0x5C, 0x75, Digit(r / 0x1000), Digit(r / 0x100 % 16), Digit(r / 0x10 % 16), Digit(r % 16)]
    else
      && 0x10000 <= r < 0x110000
      && q == [0x5C, 0x55, 0x30, 0x30, Digit(r / 0x100000), Digit(r / 0x10000 % 16),
               Digit(r / 0x1000 % 16), Digit(r / 0x100 % 16), Digit(r / 0x10 % 16), Digit(r % 16)]
  }

  lemma EscapedASCIIForm(r: int)
    requires 0 <= r < 0x80
    ensures WrittenAs(r, EscapedRune(r))
  {
    hide Hex, Digit;
    HexTwo(r);
    if 7 <= r <= 13 {
      assert EscapeLetter(r) == Some(Letter(r));
    }
  }

  lemma EscapedRuneForm(r: int)
    requires ValidRune(r)
    ensures WrittenAs(r, EscapedRune(r))
  {
    assert Digit(0) == 0x30;
    hide Hex, Digit;
    if r < 0x80 {
      EscapedASCIIForm(r);
    } else if r < 0x10000 {
      HexFour(r);
    } else {
      HexEight(r);
    }
  }

  /** The quoted form of a string that begins with the encoding of a rune. */
  lemma QuotedRune(r: int, rest: Bytes)
    requires ValidRune(r)
    ensures exists q :: WrittenAs(r, q) && QuoteBody(EncodeRune(r) + rest) == q + QuoteBody(rest)
  {
    hide DecodeRune, WrittenAs;
    var s := EncodeRune(r) + rest;
    DecodesEncoded(r, rest);
    assert s[|EncodeRune(r)|..] == rest;
    EscapedRuneForm(r);
    assert s != [] && !Broken(DecodeRune(s)) by {
      EncodedLength(r);
    }
    QuoteUnitOfRune(s);
    QuoteBodyStep(s);
  }

  lemma EncodedLength(r: int)
    requires ValidRune(r)
    ensures |EncodeRune(r)| == if r < 0x80 then 1 else if r < 0x800 then 2 else if r < 0x10000 then 3 else 4
  {
  }

  lemma QuoteUnitOfRune(s: Bytes)
    requires s != [] && !Broken(DecodeRune(s))
    ensures ValidRune(DecodeRune(s).rune) && QuoteUnit(s) == EscapedRune(DecodeRune(s).rune)
  {
    hide DecodeRune, EscapedRune;
    DecodeInvertsEncode(s);
  }

  /** The quoted form of a string whose first byte belongs to no rune's encoding: the byte by two
      digits. */
  lemma QuotedBrokenByte(s: Bytes)
    requires s != [] && forall r | ValidRune(r) :: !(EncodeRune(r) <= s)
    ensures QuoteBody(s) == [0x5C, 0x78, Digit(s[0] / 16), Digit(s[0] % 16)] + QuoteBody(s[1..])
  {
    hide DecodeRune, Hex, EscapedRune, Digit;
    BrokenIff(s);
    HexTwo(s[0]);
    QuoteBodyStep(s);
  }

  predicate AllAscii(s: Bytes) {
    forall b | b in s :: 0x20 <= b <= 0x7E
  }

  lemma WrittenIsAscii(r: int, q: Bytes)
    requires WrittenAs(r, q)
    ensures AllAscii(q)
  {
    hide Digit, Letter;
  }

  lemma {:induction false} BodyIsAscii(s: Bytes)
    ensures AllAscii(QuoteBody(s))
    decreases |s|
  {
    hide DecodeRune, QuoteUnit, QuoteBody, EscapedRune, EncodeRune, WrittenAs, Hex, Digit;
    EmptyBody();
    if s != [] {
      BodyIsAscii(s[DecodeRune(s).width..]);
      QuoteBodyStep(s);
      if Broken(DecodeRune(s)) {
        BrokenIff(s);
        QuotedBrokenByte(s);
      } else {
        QuoteUnitOfRune(s);
        EscapedRuneForm(DecodeRune(s).rune);
        WrittenIsAscii(DecodeRune(s).rune, QuoteUnit(s));
      }
    }
  }

  /** Nothing but printable ASCII is written. */
  lemma QuotedIsAscii(s: Bytes)
    ensures AllAscii(QuoteToASCII(s))
  {
    BodyIsAscii(s);
  }

  /** A byte that is written as itself. */
  predicate Plain(b: byte) {
    0x20 <= b <= 0x7E && b != 0x22 && b != 0x5C
  }

  lemma {:induction false} PlainBody(s: Bytes)
    requires forall b | b in s :: Plain(b)
    ensures QuoteBody(s) == s
    decreases |s|
  {
    hide WrittenAs;
    if s != [] {
      PlainBody(s[1..]);
      assert s[0] in s && EncodeRune(s[0]) == [s[0]] && [s[0]] + s[1..] == s;
      QuotedRune(s[0], s[1..]);
      var q :| WrittenAs(s[0], q) && QuoteBody(s) == q + QuoteBody(s[1..]);
      assert q == [s[0]] by {
        PlainWritten(s[0], q);
      }
    }
  }

  lemma PlainWritten(b: byte, q: Bytes)
    requires Plain(b) && WrittenAs(b, q)
    ensures q == [b]
  {
  }

  /** A string of plain bytes, like a hexadecimal checksum, is quoted as itself. */
  lemma PlainQuoted(s: Bytes)
    requires forall b | b in s :: Plain(b)
    ensures QuoteToASCII(s) == [0x22] + s + [0x22]
  {
    PlainBody(s);
  }

  // ---------------------------------------------------------------- reading

  /** What one character or escape sequence stands for, and what follows it. */
  datatype Unit = Unit(text: Bytes, rest: Bytes)

  function ReadEscapeLetter(b: byte): Option<byte> {
    if b == 0x61 then Some(0x07)
    else if b == 0x62 then Some(0x08)
    else if b == 0x66 then Some(0x0C)
    else if b == 0x6E then Some(0x0A)
    else if b == 0x72 then Some(0x0D)
    else if b == 0x74 then Some(0x09)
    else if b == 0x76 then Some(0x0B)
    else if b == QUOTE || b == BACKSLASH then Some(b)
    else None
  }

  function ReadNumeric(q: Bytes, digits: nat, isByte: bool): (u: Option<Unit>)
    ensures u.Some? ==> |u.value.rest| <= |q|
  {
    if |q| < digits then None
    else
      match ReadHex(q[..digits])
      case None => None
      case Some(v) =>
        if isByte then (if v < 256 then Some(Unit([v], q[digits..])) else None)
        else if ValidRune(v) then Some(Unit(EncodeRune(v), q[digits..]))
        else None
  }

  function ReadUnit(q: Bytes): (u: Option<Unit>)
    requires q != []
    ensures u.Some? ==> |u.value.rest| < |q|
  {
    if q[0] == QUOTE || q[0] == 0x0A then None
    else if q[0] != BACKSLASH then Some(Unit([q[0]], q[1..]))
    else if |q| == 1 then None
    else if q[1] == 0x78 then ReadNumeric(q[2..], 2, true)
    else if q[1] == 0x75 then ReadNumeric(q[2..], 4, false)
    else if q[1] == 0x55 then ReadNumeric(q[2..], 8, false)
    else
      match ReadEscapeLetter(q[1])
      case None => None
      case Some(b) => Some(Unit([b], q[2..]))
  }

  /** Reads up to the first quote that is not escaped. */
  function ReadBody(q: Bytes): (u: Option<Unit>)
    ensures u.Some? ==> |u.value.rest| < |q|
    decreases |q|
  {
    if q == [] then None
    else if q[0] == QUOTE then Some(Unit([], q[1..]))
    else
      match ReadUnit(q)
      case None => None
      case Some(first) =>
        match ReadBody(first.rest)
        case None => None
        case Some(more) => Some(Unit(first.text + more.text, more.rest))
  }

  /** Reads one quoted string and returns it with the bytes behind its closing quote. */
  function Unquote(q: Bytes): (u: Option<Unit>) {
    if q == [] || q[0] != QUOTE then None else ReadBody(q[1..])
  }

  // ---------------------------------------------------------------- round trip

  lemma NumericReads(prefix: Bytes, v: nat, n: nat, tail: Bytes)
    requires v < Pow16(n) && |prefix| == 2
    ensures var q := prefix + Hex(v, n) + tail;
            |q[2..]| >= n && q[2..][..n] == Hex(v, n) && q[2..][n..] == tail && ReadHex(q[2..][..n]) == Some(v)
  {
    var q := prefix + Hex(v, n) + tail;
    assert q[2..][..n] == Hex(v, n);
    assert q[2..][n..] == tail;
    HexRoundTrip(v, n);
  }

  lemma Pow16Values()
    ensures Pow16(2) == 0x100 && Pow16(4) == 0x1_0000 && Pow16(8) == 0x1_0000_0000
  {
    assert Pow16(8) == 0x1_0000 * Pow16(4);
  }

  lemma ReadsEscapedRune(r: int, tail: Bytes)
    requires ValidRune(r)
    ensures ReadUnit(EscapedRune(r) + tail) == Some(Unit(EncodeRune(r), tail))
    ensures EscapedRune(r)[0] != QUOTE
  {
    Pow16Values();
    var q := EscapedRune(r) + tail;
    if r == QUOTE || r == BACKSLASH {
      assert q[2..] == tail;
    } else if Printable(r) {
      assert q[1..] == tail;
    } else if EscapeLetter(r).Some? {
      assert q[2..] == tail;
    } else if r < 0x20 || r == 0x7F {
      NumericReads([BACKSLASH, 0x78], r, 2, tail);
    } else if r < 0x10000 {
      NumericReads([BACKSLASH, 0x75], r, 4, tail);
    } else {
      NumericReads([BACKSLASH, 0x55], r, 8, tail);
    }
  }

  /** What is written for the first unit of s reads back as exactly that unit. */
  lemma ReadsUnit(s: Bytes, tail: Bytes)
    requires s != []
    ensures QuoteUnit(s) != [] && QuoteUnit(s)[0] != QUOTE
    ensures ReadUnit(QuoteUnit(s) + tail) == Some(Unit(s[..DecodeRune(s).width], tail))
  {
    var d := DecodeRune(s);
    if Broken(d) {
      Pow16Values();
      NumericReads([BACKSLASH, 0x78], s[0], 2, tail);
      assert s[..1] == [s[0]];
    } else {
      DecodeInvertsEncode(s);
      ReadsEscapedRune(d.rune, tail);
    }
  }

  lemma ReadBodyStep(q: Bytes, first: Unit, more: Unit)
    requires q != [] && q[0] != QUOTE && ReadUnit(q) == Some(first) && ReadBody(first.rest) == Some(more)
    ensures ReadBody(q) == Some(Unit(first.text + more.text, more.rest))
  {
  }

  lemma ReadsEnd(rest: Bytes)
    ensures ReadBody([QUOTE] + rest) == Some(Unit([], rest))
  {
    assert ([QUOTE] + rest)[1..] == rest;
  }

  lemma {:induction false} ReadsBody(s: Bytes, rest: Bytes)
    ensures ReadBody(QuoteBody(s) + [QUOTE] + rest) == Some(Unit(s, rest))
    decreases |s|
  {
    hide QuoteBody, QuoteUnit, ReadUnit, ReadBody, DecodeRune;
    if s == [] {
      EmptyBody();
      assert [] + [QUOTE] + rest == [QUOTE] + rest;
      ReadsEnd(rest);
    } else {
      var w := DecodeRune(s).width;
      var body := QuoteBody(s[w..]);
      var tail := body + [QUOTE] + rest;
      QuoteBodyStep(s);
      assert QuoteUnit(s) + body + [QUOTE] + rest == QuoteUnit(s) + tail;
      ReadsUnit(s, tail);
      ReadsBody(s[w..], rest);
      ReadBodyStep(QuoteUnit(s) + tail, Unit(s[..w], tail), Unit(s[w..], rest));
      assert s[..w] + s[w..] == s;
    }
  }

  lemma EmptyBody()
    ensures QuoteBody([]) == []
  {
  }

  /** Any byte string, well-formed or not, is recovered from its quoted form, and reading stops
      at the closing quote whatever follows it. */
  lemma QuoteRoundTrip(s: Bytes, rest: Bytes)
    ensures Unquote(QuoteToASCII(s) + rest) == Some(Unit(s, rest))
  {
    var body := QuoteBody(s);
    var q := [QUOTE] + body + [QUOTE] + rest;
    assert q[1..] == body + [QUOTE] + rest;
    assert ReadBody(q[1..]) == Some(Unit(s, rest)) by {
      ReadsBody(s, rest);
    }
  }

  /** Quoted forms are a prefix-free code. */
  lemma QuotePrefixFree(s: Bytes, t: Bytes)
    requires QuoteToASCII(s) <= QuoteToASCII(t)
    ensures s == t
  {
    var rest := QuoteToASCII(t)[|QuoteToASCII(s)|..];
    assert QuoteToASCII(s) + rest == QuoteToASCII(t) + [];
    QuoteRoundTrip(s, rest);
    QuoteRoundTrip(t, []);
  }
}
