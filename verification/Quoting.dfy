/** strconv.Quote and strconv.Itoa, with the parsers that invert them. */
module Quoting {
  import opened Wrappers
  import opened Bytes

  // ---------- UTF-8 ----------

  datatype Decoded = Rune(value: nat, width: nat) | Invalid

  predicate Continuation(b: Byte) { 0x80 <= b <= 0xBF }

  // The range the second byte of a sequence must fall in, which is what rules out
  // overlong forms, surrogates and values past U+10FFFF.
  function SecondByteRange(b0: Byte): (Byte, Byte) {
    if b0 == 0xE0 then (0xA0, 0xBF)
    else if b0 == 0xED then (0x80, 0x9F)
    else if b0 == 0xF0 then (0x90, 0xBF)
    else if b0 == 0xF4 then (0x80, 0x8F)
    else (0x80, 0xBF)
  }

  // What a byte contributes once its marker bits are taken off.
  function Payload(b: Byte, marker: nat): int { b as int - marker }

  // utf8.DecodeRuneInString: `Invalid` stands for (RuneError, 1).
  function DecodeRune(s: Text): (d: Decoded)
    requires s != []
    ensures d.Rune? ==> 1 <= d.width <= |s| && d.width <= 4 && ValidRune(d.value)
  {
    var b0 := s[0];
    if b0 < 0x80 then Rune(b0, 1)
    else if b0 < 0xC2 || 0xF4 < b0 || |s| < 2 then Invalid
    else
      var (lo, hi) := SecondByteRange(b0);
      if !(lo <= s[1] <= hi) then Invalid
      else if b0 < 0xE0 then Rune(Payload(b0, 0xC0) * 64 + Payload(s[1], 0x80), 2)
      else if |s| < 3 || !Continuation(s[2]) then Invalid
      else if b0 < 0xF0 then Rune(Payload(b0, 0xE0) * 4096 + Payload(s[1], 0x80) * 64 + Payload(s[2], 0x80), 3)
      else if |s| < 4 || !Continuation(s[3]) then Invalid
      else Rune(Payload(b0, 0xF0) * 262144 + Payload(s[1], 0x80) * 4096 + Payload(s[2], 0x80) * 64 + Payload(s[3], 0x80), 4)
  }

  predicate ValidRune(r: nat) { r < 0xD800 || 0xE000 <= r <= 0x10FFFF }

  // utf8.AppendRune for a valid rune.
  function EncodeRune(r: nat): (bytes: Text)
    requires r <= 0x10FFFF
    ensures r >= 0x80 ==> forall b :: b in bytes ==> b >= 0x80
    ensures r < 0x80 ==> bytes == [r]
  {
    if r < 0x80 then [r]
    else if r < 0x800 then [0xC0 + r / 64, 0x80 + r % 64]
    else if r < 0x10000 then [0xE0 + r / 4096, 0x80 + r / 64 % 64, 0x80 + r % 64]
    else [0xF0 + r / 262144, 0x80 + r / 4096 % 64, 0x80 + r / 64 % 64, 0x80 + r % 64]
  }

  // Decoding accepts only the shortest form, so re-encoding gives back the bytes read.
  lemma EncodeInvertsDecode(s: Text)
    requires s != [] && DecodeRune(s).Rune?
    ensures EncodeRune(DecodeRune(s).value) == s[..DecodeRune(s).width]
  {
    var Rune(r, w) := DecodeRune(s);
    if w == 2 {
      assert r / 64 == Payload(s[0], 0xC0) && r % 64 == Payload(s[1], 0x80);
    } else if w == 3 {
      assert r / 64 == Payload(s[0], 0xE0) * 64 + Payload(s[1], 0x80) && r % 64 == Payload(s[2], 0x80);
    } else if w == 4 {
      var r1 := r / 64;
      assert r1 == Payload(s[0], 0xF0) * 4096 + Payload(s[1], 0x80) * 64 + Payload(s[2], 0x80) && r % 64 == Payload(s[3], 0x80);
      assert r1 / 64 == Payload(s[0], 0xF0) * 64 + Payload(s[1], 0x80) && r1 % 64 == Payload(s[2], 0x80);
      assert r / 4096 == r1 / 64 && r / 262144 == r1 / 64 / 64;
    }
  }

  // ---------- hexadecimal ----------

  function HexDigit(d: nat): Byte
    requires d < 16
  {
    if d < 10 then 0x30 + d else 0x57 + d
  }

  function HexValue(b: Byte): Option<nat> {
    if 0x30 <= b <= 0x39 then Some(b - 0x30)
    else if 0x61 <= b <= 0x66 then Some(b - 0x57)
    else None
  }

  // n lower-case digits, the most significant first.
  function Hex(v: nat, n: nat): (h: Text)
    ensures |h| == n
  {
    if n == 0 then [] else Hex(v / 16, n - 1) + [HexDigit(v % 16)]
  }

  function ReadHex(t: Text): Option<nat> {
    if t == [] then Some(0)
    else
      match (ReadHex(t[..|t| - 1]), HexValue(t[|t| - 1]))
      case (Some(high), Some(low)) => Some(high * 16 + low)
      case _ => None
  }

  function Pow16(n: nat): nat { if n == 0 then 1 else 16 * Pow16(n - 1) }

  lemma {:induction false} ReadHexInvertsHex(v: nat, n: nat)
    requires v < Pow16(n)
    ensures ReadHex(Hex(v, n)) == Some(v)
  {
    if n > 0 {
      ReadHexInvertsHex(v / 16, n - 1);
      assert Hex(v, n)[..n - 1] == Hex(v / 16, n - 1);
      assert Hex(v, n)[n - 1] == HexDigit(v % 16);
    }
  }

  // ---------- strconv.Quote ----------

  // strconv's table of printable runes above ASCII. It has no definition here, so
  // everything below holds whatever the table says.
  const PRINTABLE: set<nat>

  predicate IsPrint(r: nat) {
    if r < 0x80 then 0x20 <= r <= 0x7e else r in PRINTABLE
  }

  // The one-letter escapes, as (rune, letter).
  function Letter(r: nat): Option<Byte> {
    if r == 7 then Some(0x61) else if r == 8 then Some(0x62)
    else if r == 12 then Some(0x66) else if r == 10 then Some(0x6e)
    else if r == 13 then Some(0x72) else if r == 9 then Some(0x74)
    else if r == 11 then Some(0x76) else None
  }

  const ESC_X: Text := [BACKSLASH, 0x78]
  const ESC_U4: Text := [BACKSLASH, 0x75]
  const ESC_U8: Text := [BACKSLASH, 0x55]

  function EscapeRune(r: nat): Text
    requires r <= 0x10FFFF
  {
    if r == QUOTE || r == BACKSLASH then [BACKSLASH, r]
    else if IsPrint(r) then EncodeRune(r)
    else if Letter(r).Some? then [BACKSLASH, Letter(r).value]
    else if r < 0x20 || r == 0x7f then ESC_X + Hex(r, 2)
    else if !ValidRune(r) then ESC_U4 + Hex(0xFFFD, 4)
    else if r < 0x10000 then ESC_U4 + Hex(r, 4)
    else ESC_U8 + Hex(r, 8)
  }

  function UnitWidth(s: Text): (w: nat)
    requires s != []
    ensures 1 <= w <= |s|
  {
    match DecodeRune(s) case Rune(_, w) => w case Invalid => 1
  }

  function EscapeUnit(s: Text): Text
    requires s != []
  {
    match DecodeRune(s)
    case Rune(r, _) => EscapeRune(r)
    case Invalid => ESC_X + Hex(s[0], 2)
  }

  function QuotedBody(s: Text): Text {
    if s == [] then [] else EscapeUnit(s) + QuotedBody(s[UnitWidth(s)..])
  }

  function Quote(s: Text): Text { [QUOTE] + QuotedBody(s) + [QUOTE] }

  // ---------- the inverse ----------

  // The bytes the escape at the front of t stands for, and how long it is.
  function ReadEscape(t: Text): (r: Option<(Text, nat)>)
    requires t != [] && t[0] == BACKSLASH
    ensures r.Some? ==> 2 <= r.value.1 <= |t|
  {
    if |t| < 2 then None
    else if t[1] == QUOTE || t[1] == BACKSLASH then Some(([t[1]], 2))
    else if t[1] == 0x61 then Some(([7], 2)) else if t[1] == 0x62 then Some(([8], 2))
    else if t[1] == 0x66 then Some(([12], 2)) else if t[1] == 0x6e then Some(([10], 2))
    else if t[1] == 0x72 then Some(([13], 2)) else if t[1] == 0x74 then Some(([9], 2))
    else if t[1] == 0x76 then Some(([11], 2))
    else if t[1] == 0x78 then ReadNumeric(t, 2, true)
    else if t[1] == 0x75 then ReadNumeric(t, 4, false)
    else if t[1] == 0x55 then ReadNumeric(t, 8, false)
    else None
  }

  function ReadNumeric(t: Text, digits: nat, raw: bool): (r: Option<(Text, nat)>)
    requires |t| >= 2
    ensures r.Some? ==> r.value.1 == 2 + digits <= |t|
  {
    if |t| < 2 + digits then None
    else
      match ReadHex(t[2..2 + digits])
      case None => None
      case Some(v) =>
        if raw then (if v < 256 then Some(([v], 2 + digits)) else None)
        else if v <= 0x10FFFF then Some((EncodeRune(v), 2 + digits)) else None
  }

  // Reads up to the closing quote: the value and what follows the quote.
  function ReadBody(t: Text): Option<(Text, Text)> {
    if t == [] then None
    else if t[0] == QUOTE then Some(([], t[1..]))
    else if t[0] == BACKSLASH then
      match ReadEscape(t)
      case None => None
      case Some((bytes, n)) => Prepend(bytes, ReadBody(t[n..]))
    else Prepend([t[0]], ReadBody(t[1..]))
  }

  function Prepend(bytes: Text, r: Option<(Text, Text)>): Option<(Text, Text)> {
    match r case None => None case Some((v, rest)) => Some((bytes + v, rest))
  }

  function ReadQuoted(t: Text): Option<(Text, Text)> {
    if t == [] || t[0] != QUOTE then None else ReadBody(t[1..])
  }

  predicate Plain(t: Text) { forall b :: b in t ==> b != QUOTE && b != BACKSLASH }

  lemma PrependTwice(a: Text, b: Text, r: Option<(Text, Text)>)
    ensures Prepend(a, Prepend(b, r)) == Prepend(a + b, r)
  {
    if r.Some? { assert a + (b + r.value.0) == (a + b) + r.value.0; }
  }

  lemma {:induction false} ReadPlain(p: Text, t: Text)
    requires Plain(p)
    ensures ReadBody(p + t) == Prepend(p, ReadBody(t))
  {
    if p == [] {
      assert p + t == t;
      if ReadBody(t).Some? { assert [] + ReadBody(t).value.0 == ReadBody(t).value.0; }
    } else {
      assert (p + t)[1..] == p[1..] + t && p[0] in p;
      assert forall b :: b in p[1..] ==> b in p;
      ReadPlain(p[1..], t);
      PrependTwice([p[0]], p[1..], ReadBody(t));
      assert [p[0]] + p[1..] == p;
    }
  }

  lemma ReadNumericAt(t: Text, v: nat, digits: nat, raw: bool)
    requires |t| >= 2 + digits && t[2..2 + digits] == Hex(v, digits) && v < Pow16(digits)
    requires if raw then v < 256 else v <= 0x10FFFF
    ensures ReadNumeric(t, digits, raw) == Some((if raw then [v] else EncodeRune(v), 2 + digits))
  {
    ReadHexInvertsHex(v, digits);
  }

  // An escape is read as its letter says.
  lemma ReadEscapeAt(t: Text, letter: Byte)
    requires |t| >= 2 && t[0] == BACKSLASH && t[1] == letter && letter in {0x78, 0x75, 0x55}
    ensures ReadEscape(t)
         == if letter == 0x78 then ReadNumeric(t, 2, true)
            else ReadNumeric(t, if letter == 0x75 then 4 else 8, false)
  {
  }

  lemma ReadNumericEscape(head: Text, v: nat, digits: nat, t: Text)
    requires head in {ESC_X, ESC_U4, ESC_U8}
    requires digits == (if head == ESC_X then 2 else if head == ESC_U4 then 4 else 8)
    requires v < Pow16(digits) && (head == ESC_X ==> v < 256) && v <= 0x10FFFF
    ensures ReadBody(head + Hex(v, digits) + t)
         == Prepend(if head == ESC_X then [v] else EncodeRune(v), ReadBody(t))
  {
    var h := Hex(v, digits);
    var whole := head + h + t;
    assert head[0] == BACKSLASH && |head| == 2;
    assert whole[0] == BACKSLASH && whole[1] == head[1];
    assert whole[2..2 + digits] == h;
    ReadNumericAt(whole, v, digits, head == ESC_X);
    ReadEscapeAt(whole, head[1]);
    assert whole[2 + digits..] == t;
    assert ReadEscape(whole) == Some((if head == ESC_X then [v] else EncodeRune(v), 2 + digits));
  }

  lemma Pow16Values()
    ensures Pow16(2) == 256 && Pow16(4) == 65536 && Pow16(8) == 0x1_0000_0000
  {
    assert Pow16(2) == 256;
    assert Pow16(4) == 256 * Pow16(2);
    assert Pow16(6) == 256 * Pow16(4);
    assert Pow16(8) == 256 * Pow16(6);
  }

  lemma ReadLetter(r: nat, t: Text)
    requires Letter(r).Some?
    ensures ReadBody([BACKSLASH, Letter(r).value] + t) == Prepend([r], ReadBody(t))
  {
    assert ([BACKSLASH, Letter(r).value] + t)[2..] == t;
  }

  lemma ReadRune(r: nat, t: Text)
    requires ValidRune(r)
    ensures ReadBody(EscapeRune(r) + t) == Prepend(EncodeRune(r), ReadBody(t))
  {
    Pow16Values();
    if r == QUOTE || r == BACKSLASH {
      assert ([BACKSLASH, r] + t)[2..] == t;
    } else if IsPrint(r) {
      ReadPlain(EncodeRune(r), t);
    } else if Letter(r).Some? {
      ReadLetter(r, t);
    } else if r < 0x20 || r == 0x7f {
      ReadNumericEscape(ESC_X, r, 2, t);
    } else if r < 0x10000 {
      ReadNumericEscape(ESC_U4, r, 4, t);
    } else {
      ReadNumericEscape(ESC_U8, r, 8, t);
    }
  }

  lemma ReadUnit(s: Text, t: Text)
    requires s != []
    ensures ReadBody(EscapeUnit(s) + t) == Prepend(s[..UnitWidth(s)], ReadBody(t))
  {
    match DecodeRune(s)
    case Rune(r, w) =>
      EncodeInvertsDecode(s);
      ReadRune(r, t);
    case Invalid =>
      Pow16Values();
      ReadNumericEscape(ESC_X, s[0], 2, t);
      assert s[..1] == [s[0]];
  }

  lemma {:induction false} ReadQuotedBody(s: Text, rest: Text)
    ensures ReadBody(QuotedBody(s) + [QUOTE] + rest) == Some((s, rest))
    decreases |s|
  {
    if s == [] {
      assert QuotedBody(s) + [QUOTE] + rest == [QUOTE] + rest;
    } else {
      var w := UnitWidth(s);
      var tail := QuotedBody(s[w..]) + [QUOTE] + rest;
      assert QuotedBody(s) + [QUOTE] + rest == EscapeUnit(s) + tail;
      ReadUnit(s, tail);
      ReadQuotedBody(s[w..], rest);
      assert s[..w] + s[w..] == s;
    }
  }

  /** A quoted string says where it ends: reading it back from the front of any text
      gives the original bytes, valid UTF-8 or not, and leaves the text after it. */
  lemma ReadQuotedInvertsQuote(s: Text, rest: Text)
    ensures ReadQuoted(Quote(s) + rest) == Some((s, rest))
  {
    assert (Quote(s) + rest)[1..] == QuotedBody(s) + [QUOTE] + rest;
    ReadQuotedBody(s, rest);
  }

  // ---------- strconv.Itoa for a length ----------

  predicate IsDigit(b: Byte) { 0x30 <= b <= 0x39 }

  function Itoa(n: nat): Text {
    if n < 10 then [0x30 + n] else Itoa(n / 10) + [0x30 + n % 10]
  }

  function ReadDigits(t: Text, acc: nat): (nat, Text) {
    if t == [] || !IsDigit(t[0]) then (acc, t) else ReadDigits(t[1..], acc * 10 + (t[0] - 0x30))
  }

  lemma {:induction false} ReadDigitsInvertsItoa(n: nat, rest: Text)
    ensures ReadDigits(Itoa(n) + rest, 0) == ReadDigits(rest, n)
  {
    var last := [0x30 + n % 10] + rest;
    assert last[1..] == rest;
    if n < 10 {
      assert Itoa(n) + rest == last;
    } else {
      assert Itoa(n) + rest == Itoa(n / 10) + last;
      ReadDigitsInvertsItoa(n / 10, last);
    }
  }
}
