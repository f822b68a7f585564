/** The file-name codec of a chunk store.

    A key, like a decoded file name, is a byte string, written as a string of characters
    below 256. A text is a sequence of Unicode scalar values; `Utf8` gives its bytes and
    `Runes` is what ranging over a byte string yields, U+FFFD for each invalid byte. */
module Codec {
  predicate Plain(c: char) {
    'a' <= c <= 'z' || 'A' <= c <= 'Z' || '0' <= c <= '9' || c == '-' || c == '_'
  }

  predicate IsHex(c: char) {
    '0' <= c <= '9' || 'a' <= c <= 'f' || 'A' <= c <= 'F'
  }

  function HexVal(c: char): (v: nat)
    requires IsHex(c)
    ensures v < 16
  {
    if c <= '9' then c as nat - '0' as nat
    else if c <= 'F' then c as nat - 'A' as nat + 10
    else c as nat - 'a' as nat + 10
  }

  function HexDigit(n: nat): (c: char)
    requires n < 16
    ensures IsHex(c) && HexVal(c) == n
  {
    if n < 10 then ('0' as nat + n) as char else ('a' as nat + n - 10) as char
  }

  /** Lower-case hexadecimal with no leading zero. */
  function Hex(n: nat): string {
    if n < 16 then [HexDigit(n)] else Hex(n / 16) + [HexDigit(n % 16)]
  }

  /** The `%02x` verb. */
  function Hex02(n: nat): string {
    if n < 16 then "0" + Hex(n) else Hex(n)
  }

  function EncodeChar(c: char): string {
    if Plain(c) then [c] else "_" + Hex02(c as nat)
  }

  /** The encoding of a text, character by character. */
  function Escaped(text: string): string {
    if text == [] then [] else EncodeChar(text[0]) + Escaped(text[1..])
  }

  /** An escape starts the string: `_` and two hex digits. */
  predicate EscapeAt(s: string) {
    |s| > 2 && s[0] == '_' && IsHex(s[1]) && IsHex(s[2])
  }

  function EscapedByte(s: string): (c: char)
    requires EscapeAt(s)
    ensures c as nat < 256
  {
    (HexVal(s[1]) * 16 + HexVal(s[2])) as char
  }

  function Unsanitized(s: string): string {
    if s == [] then []
    else if EscapeAt(s) then [EscapedByte(s)] + Unsanitized(s[3..])
    else [s[0]] + Unsanitized(s[1..])
  }

  /** The UTF-8 encoding of one character. */
  function Utf8Char(c: char): string {
    var n := c as nat;
    if n < 0x80 then [c]
    else if n < 0x800 then [Byte(0xC0 + n / 0x40), Byte(0x80 + n % 0x40)]
    else if n < 0x1_0000 then [Byte(0xE0 + n / 0x1000), Byte(0x80 + n / 0x40 % 0x40), Byte(0x80 + n % 0x40)]
    else
      [Byte(0xF0 + n / 0x4_0000), Byte(0x80 + n / 0x1000 % 0x40), Byte(0x80 + n / 0x40 % 0x40), Byte(0x80 + n % 0x40)]
  }

  function Byte(n: nat): (c: char)
    requires n < 256
    ensures c as nat == n
  {
    n as char
  }

  function Utf8(text: string): string {
    if text == [] then [] else Utf8Char(text[0]) + Utf8(text[1..])
  }

  predicate Continues(b: string, i: nat, low: nat, high: nat) {
    i < |b| && low <= b[i] as nat <= high
  }

  /** How many bytes the first character of a non-empty byte string takes: a whole valid
      encoding, or one byte that is none. */
  function Width(b: string): (n: nat)
    requires b != []
    ensures 1 <= n <= |b|
  {
    var first := b[0] as nat;
    if 0xC2 <= first <= 0xDF && Continues(b, 1, 0x80, 0xBF) then 2
    else if 0xE0 <= first <= 0xEF
            && Continues(b, 1, if first == 0xE0 then 0xA0 else 0x80, if first == 0xED then 0x9F else 0xBF)
            && Continues(b, 2, 0x80, 0xBF) then 3
    else if 0xF0 <= first <= 0xF4
            && Continues(b, 1, if first == 0xF0 then 0x90 else 0x80, if first == 0xF4 then 0x8F else 0xBF)
            && Continues(b, 2, 0x80, 0xBF) && Continues(b, 3, 0x80, 0xBF) then 4
    else 1
  }

  function Low6(c: char): nat {
    c as nat % 0x40
  }

  function FirstRune(b: string): char
    requires b != []
  {
    var first := b[0] as nat;
    match Width(b)
    case 2 => (first % 0x20 * 0x40 + Low6(b[1])) as char
    case 3 => (first % 0x10 * 0x1000 + Low6(b[1]) * 0x40 + Low6(b[2])) as char
    case 4 => (first % 0x08 * 0x4_0000 + Low6(b[1]) * 0x1000 + Low6(b[2]) * 0x40 + Low6(b[3])) as char
    case _ => if first < 0x80 then b[0] else '\U{FFFD}'
  }

  function Runes(b: string): string {
    if b == [] then [] else [FirstRune(b)] + Runes(b[Width(b)..])
  }

  /** The file-name stem of a key. */
  function Sanitized(key: string): string {
    Escaped(Runes(key))
  }

  predicate Ascii(s: string) {
    forall i :: 0 <= i < |s| ==> s[i] as nat < 0x80
  }

  /** No `_` in the string is immediately followed by two hex digits. */
  predicate NoEscape(s: string) {
    forall i :: 0 <= i < |s| ==> !EscapeAt(s[i..])
  }

  predicate SafeKey(key: string) {
    Ascii(key) && NoEscape(key)
  }

  // ---- The loops -----------------------------------------------------------

  method Sanitize(key: string) returns (b: string)
    ensures b == Sanitized(key)
  {
    assert Sanitized([]) == [];
    hide FirstRune, Width, Plain, Sanitized, Hex02, EncodeChar;
    b := [];
    var i := 0;
    assert key[0..] == key;
    while i < |key|
      invariant 0 <= i <= |key|
      invariant Sanitized(key) == b + Sanitized(key[i..])
    {
      var rest := key[i..];
      var c, size := FirstRune(rest), Width(rest);
      SanitizedStep(key, i, b);
      if Plain(c) {
        b := b + [c];
      } else {
        b := b + "_" + Hex02(c as nat);
      }
      i := i + size;
    }
    assert key[i..] == [];
  }

  lemma SanitizedStep(key: string, i: nat, b: string)
    requires i < |key|
    ensures var c := FirstRune(key[i..]);
            var rest := Sanitized(key[i + Width(key[i..])..]);
            b + (if Plain(c) then [c] else "_" + Hex02(c as nat)) + rest == b + Sanitized(key[i..])
    ensures var d := Hex02(FirstRune(key[i..]) as nat); b + ("_" + d) == b + "_" + d
  {
    hide FirstRune, Width, Plain, Hex02;
    var rest := key[i..];
    assert rest[Width(rest)..] == key[i + Width(rest)..];
    SanitizedCons(rest);
  }

  method Unsanitize(name: string) returns (b: string)
    ensures b == Unsanitized(name)
  {
    b := [];
    var i := 0;
    while i < |name|
      invariant 0 <= i <= |name|
      invariant b + Unsanitized(name[i..]) == Unsanitized(name)
    {
      UnsanitizedStep(name, i, b);
      if name[i] == '_' && i + 2 < |name| && IsHex(name[i + 1]) && IsHex(name[i + 2]) {
        b := b + [Byte(HexVal(name[i + 1]) * 16 + HexVal(name[i + 2]))];
        i := i + 3;
      } else {
        b := b + [name[i]];
        i := i + 1;
      }
    }
  }

  lemma UnsanitizedStep(name: string, i: nat, b: string)
    requires i < |name|
    ensures var escape := name[i] == '_' && i + 2 < |name| && IsHex(name[i + 1]) && IsHex(name[i + 2]);
            && (escape ==> b + [Byte(HexVal(name[i + 1]) * 16 + HexVal(name[i + 2]))] + Unsanitized(name[i + 3..])
                           == b + Unsanitized(name[i..]))
            && (!escape ==> b + [name[i]] + Unsanitized(name[i + 1..]) == b + Unsanitized(name[i..]))
  {
    var rest := name[i..];
    assert rest[0] == name[i] && rest[1..] == name[i + 1..];
    if i + 2 < |name| {
      assert rest[1] == name[i + 1] && rest[2] == name[i + 2] && rest[3..] == name[i + 3..];
    }
  }

  // ---- Exactness -----------------------------------------------------------

  /** Weights under which every escape the codec resolves or invents loses: an escape loses
      its underscore (or, when it spells an underscore, its `5`), a decoded character loses
      its high bytes, and an invalid byte, which turns into FF, `f` and `d`, loses the `d`. */
  function ByteWeight(c: char): int {
    if c as nat >= 0x80 then 10
    else if c == '_' then 15
    else if c == '5' then 1
    else if c == 'd' then -1
    else 0
  }

  function Weight(s: string): int {
    if s == [] then 0 else ByteWeight(s[0]) + Weight(s[1..])
  }

  lemma {:induction false} WeightConcat(a: string, b: string)
    ensures Weight(a + b) == Weight(a) + Weight(b)
    decreases |a|
  {
    if a == [] {
      assert a + b == b;
    } else {
      assert (a + b)[1..] == a[1..] + b;
      WeightConcat(a[1..], b);
    }
  }

  ghost predicate AllHex(s: string) {
    forall i :: 0 <= i < |s| ==> IsHex(s[i])
  }

  /** The digits of a number: how many, and what the first two say. */
  lemma {:induction false} HexShape(n: nat)
    ensures AllHex(Hex02(n)) && |Hex02(n)| >= 2
    ensures n < 0x100 ==> |Hex02(n)| == 2 && HexVal(Hex02(n)[0]) * 16 + HexVal(Hex02(n)[1]) == n
    ensures n < 0x1000 ==> |Hex02(n)| <= 3
    ensures n < 0x1_0000 ==> |Hex02(n)| <= 4
    ensures n < 0x10_0000 ==> |Hex02(n)| <= 5
    ensures n < 0x100_0000 ==> |Hex02(n)| <= 6
  {
    HexDigits(n);
    if 16 <= n < 0x100 {
      assert Hex(n / 16) == [HexDigit(n / 16)];
    }
  }

  lemma {:induction false} HexDigits(n: nat)
    ensures AllHex(Hex(n)) && |Hex(n)| >= 1 && (n >= 16 ==> |Hex(n)| >= 2)
    ensures n < 0x10 ==> |Hex(n)| <= 1
    ensures n < 0x100 ==> |Hex(n)| <= 2
    ensures n < 0x1000 ==> |Hex(n)| <= 3
    ensures n < 0x1_0000 ==> |Hex(n)| <= 4
    ensures n < 0x10_0000 ==> |Hex(n)| <= 5
    ensures n < 0x100_0000 ==> |Hex(n)| <= 6
  {
    if n >= 16 {
      HexDigits(n / 16);
    }
  }

  /** Characters other than `_` pass through the decoder. */
  lemma {:induction false} DecodePassesHex(t: string, u: string)
    requires AllHex(t)
    ensures Unsanitized(t + u) == t + Unsanitized(u)
    ensures Weight(t) <= |t|
    decreases |t|
  {
    if t == [] {
      assert t + u == u;
    } else {
      var s, rest := t + u, t[1..];
      assert s[0] == t[0] && s[1..] == rest + u;
      DecodePassesHex(rest, u);
      assert Unsanitized(s) == [t[0]] + (rest + Unsanitized(u));
      assert t == [t[0]] + rest;
    }
  }

  /** An escaped character decodes to one byte and the digits beyond the second. */
  lemma DecodeEscape(c: char, u: string)
    requires !Plain(c)
    ensures var d := Hex02(c as nat);
            && AllHex(d) && |d| >= 2
            && Unsanitized(EncodeChar(c) + u) == [Byte(HexVal(d[0]) * 16 + HexVal(d[1]))] + d[2..] + Unsanitized(u)
  {
    var d := Hex02(c as nat);
    HexShape(c as nat);
    var s := EncodeChar(c) + u;
    assert s == "_" + d + u;
    hide Hex02, EncodeChar, Plain;
    DecodeEscapeText(d, u);
  }

  lemma DecodeEscapeText(d: string, u: string)
    requires AllHex(d) && |d| >= 2
    ensures Unsanitized("_" + d + u) == [Byte(HexVal(d[0]) * 16 + HexVal(d[1]))] + d[2..] + Unsanitized(u)
  {
    var s := "_" + d + u;
    assert s[0] == '_' && s[1] == d[0] && s[2] == d[1];
    assert s[3..] == d[2..] + u;
    DecodePassesHex(d[2..], u);
  }

  lemma EscapedHead(key: string)
    ensures EscapeAt("_" + Escaped(key)) <==> EscapeAt("_" + key)
    ensures EscapeAt("_" + key) ==>
              Escaped(key) == key[..2] + Escaped(key[2..]) && EscapedByte("_" + Escaped(key)) == EscapedByte("_" + key)
  {
    if key != [] {
      var s := Escaped(key);
      assert !IsHex('_');
      if Plain(key[0]) {
        assert s == [key[0]] + Escaped(key[1..]);
        if |key| > 1 {
          assert key[1..][1..] == key[2..];
          if Plain(key[1]) {
            assert s == [key[0]] + ([key[1]] + Escaped(key[2..]));
            assert s[0] == key[0] && s[1] == key[1];
          } else {
            assert s[1] == '_';
          }
        }
      } else {
        assert s[0] == '_';
      }
    }
  }

  lemma NoEscapeTail(key: string)
    requires key != []
    ensures NoEscape(key) <==> !EscapeAt(key) && NoEscape(key[1..])
    ensures Ascii(key) <==> key[0] as nat < 0x80 && Ascii(key[1..])
  {
    assert key[0..] == key;
    if NoEscape(key) {
      forall i | 0 <= i < |key[1..]|
        ensures !EscapeAt(key[1..][i..])
      {
        assert key[1..][i..] == key[i + 1..];
      }
    }
    if !EscapeAt(key) && NoEscape(key[1..]) {
      forall i | 0 <= i < |key|
        ensures !EscapeAt(key[i..])
      {
        if i > 0 {
          assert key[i..] == key[1..][i - 1..];
        }
      }
    }
    if Ascii(key[1..]) && key[0] as nat < 0x80 {
      assert key == [key[0]] + key[1..];
    }
  }

  // ---- Key by key ---------------------------------------------------------------

  /** What the first character of a byte string can be. */
  lemma RuneShape(b: string)
    requires b != []
    ensures var n, w := FirstRune(b) as nat, Width(b);
            if b[0] as nat < 0x80 then w == 1 && FirstRune(b) == b[0]
            else && (forall i :: 0 <= i < w ==> b[i] as nat >= 0x80)
                 && match w case 1 => n == 0xFFFD case 2 => n < 0x800 case 3 => n < 0x1_0000 case _ => w == 4
    ensures b[0] as nat >= 0x80 ==> FirstRune(b) as nat >= 0x80
  {
    match Width(b)
    case 2 =>
    case 3 =>
    case 4 =>
    case _ =>
  }

  /** A key starting with two hex digits does so as a text too. */
  lemma HexHead(key: string)
    ensures EscapeAt("_" + Runes(key)) <==> EscapeAt("_" + key)
    ensures EscapeAt("_" + key) ==> Runes(key) == key[..2] + Runes(key[2..])
  {
    if key == [] {
    } else {
      RuneShape(key);
      var tail := key[Width(key)..];
      if tail == [] {
      } else {
        RuneShape(tail);
        if key[0] as nat < 0x80 && tail[0] as nat < 0x80 {
          assert tail[1..] == key[2..];
          assert Runes(key) == [key[0]] + ([key[1]] + Runes(key[2..]));
        }
      }
    }
  }

  /** `_` and two hex digits in the key are taken for an escape. */
  lemma SwallowedEscape(key: string)
    requires EscapeAt(key)
    ensures Unsanitized(Sanitized(key)) == [EscapedByte(key)] + Unsanitized(Sanitized(key[3..]))
    ensures ByteWeight(EscapedByte(key)) < Weight(key) - Weight(key[3..])
  {
    var rest, hex := key[1..], key[1..3];
    assert key == "_" + rest && rest[2..] == key[3..] && rest[..2] == hex;
    UnderscoreKept(rest);
    SanitizedHex(rest);
    SwallowedWeight(rest);
    hide Sanitized, Unsanitized, Weight;
    var u := Sanitized(key[3..]);
    assert Sanitized(key) == "_" + hex + u;
    DecodeEscapeText(hex, u);
    assert hex[2..] == [];
  }

  lemma SanitizedHex(rest: string)
    requires EscapeAt("_" + rest)
    ensures Sanitized(rest) == rest[..2] + Sanitized(rest[2..])
  {
    HexHead(rest);
    EscapedHead(Runes(rest));
    assert Runes(rest)[2..] == Runes(rest[2..]) && Runes(rest)[..2] == rest[..2];
  }

  lemma UnderscoreKept(rest: string)
    ensures Sanitized("_" + rest) == "_" + Sanitized(rest)
  {
    var key := "_" + rest;
    RuneShape(key);
    assert key[1..] == rest;
    assert Runes(key) == "_" + Runes(rest) && Runes(key)[1..] == Runes(rest);
  }

  lemma SwallowedWeight(rest: string)
    requires |rest| >= 2 && IsHex(rest[0]) && IsHex(rest[1])
    ensures ByteWeight(Byte(HexVal(rest[0]) * 16 + HexVal(rest[1]))) < Weight("_" + rest) - Weight(rest[2..])
  {
    hide IsHex, HexVal, Byte;
    var key, tail := "_" + rest, rest[1..];
    assert key[1..] == rest && tail[1..] == rest[2..] && tail[0] == rest[1];
    assert Weight(key) == 15 + Weight(rest);
    assert Weight(rest) == ByteWeight(rest[0]) + Weight(tail);
    assert Weight(tail) == ByteWeight(tail[0]) + Weight(tail[1..]);
    EscapeLoses(rest[0], rest[1]);
  }

  lemma EscapeLoses(h1: char, h2: char)
    requires IsHex(h1) && IsHex(h2)
    ensures ByteWeight(Byte(HexVal(h1) * 16 + HexVal(h2))) < 15 + ByteWeight(h1) + ByteWeight(h2)
  {
    if HexVal(h1) * 16 + HexVal(h2) == '_' as nat {
      assert HexVal(h1) == 5 && HexVal(h2) == 15;
    }
  }

  lemma SanitizedCons(key: string)
    requires key != []
    ensures Sanitized(key) == EncodeChar(FirstRune(key)) + Sanitized(key[Width(key)..])
  {
    hide EncodeChar, FirstRune, Width;
    assert Runes(key)[1..] == Runes(key[Width(key)..]);
  }

  /** Where no escape starts, an ASCII character comes back as it is and anything else
      comes back lighter. */
  lemma HeadComesBack(key: string)
    requires key != [] && !EscapeAt(key)
    ensures var tail := key[Width(key)..];
            var back := Unsanitized(Sanitized(tail));
            if key[0] as nat < 0x80 then Width(key) == 1 && Unsanitized(Sanitized(key)) == [key[0]] + back
            else Weight(Unsanitized(Sanitized(key))) - Weight(back) < Weight(key) - Weight(tail)
  {
    RuneShape(key);
    SanitizedCons(key);
    hide FirstRune, Width, Sanitized;
    if key[0] as nat < 0x80 {
      AsciiComesBack(key);
    } else {
      RuneLoses(key, Sanitized(key[Width(key)..]));
    }
  }

  lemma AsciiComesBack(key: string)
    requires key != [] && !EscapeAt(key) && key[0] as nat < 0x80
    ensures Unsanitized(EncodeChar(key[0]) + Sanitized(key[1..])) == [key[0]] + Unsanitized(Sanitized(key[1..]))
  {
    var c, tail := key[0], key[1..];
    if Plain(c) {
      var s := [c] + Sanitized(tail);
      assert s[1..] == Sanitized(tail) && key == [c] + tail;
      if c == '_' {
        HexHead(tail);
        EscapedHead(Runes(tail));
      }
    } else {
      DecodeEscape(c, Sanitized(tail));
      HexShape(c as nat);
    }
  }

  /** The bytes of a non-ASCII character, valid or not, outweigh what it decodes to. */
  lemma RuneLoses(key: string, u: string)
    requires key != [] && key[0] as nat >= 0x80
    ensures Weight(Unsanitized(EncodeChar(FirstRune(key)) + u)) - Weight(Unsanitized(u))
          < Weight(key) - Weight(key[Width(key)..])
  {
    var c, w := FirstRune(key), Width(key);
    RuneShape(key);
    hide FirstRune, Width;
    DecodedWeight(c, u);
    HighWeight(key[..w]);
    assert key == key[..w] + key[w..];
    WeightConcat(key[..w], key[w..]);
  }

  /** What an escaped non-ASCII character decodes to, by weight. */
  lemma DecodedWeight(c: char, u: string)
    requires c as nat >= 0x80
    ensures var n := c as nat;
            Weight(Unsanitized(EncodeChar(c) + u)) - Weight(Unsanitized(u))
              <= if n == 0xFFFD then 9 else if n < 0x100 then 10 else if n < 0x1000 then 16
                 else if n < 0x1_0000 then 17 else 19
  {
    var n, d := c as nat, Hex02(c as nat);
    DecodeEscape(c, u);
    HexShape(n);
    var first := Byte(HexVal(d[0]) * 16 + HexVal(d[1]));
    DecodePassesHex(d[2..], []);
    if n == 0xFFFD {
      ReplacementDigits();
    }
    hide Hex02, EncodeChar;
    WeightConcat([first] + d[2..], Unsanitized(u));
    WeightConcat([first], d[2..]);
  }

  lemma ReplacementDigits()
    ensures Hex02(0xFFFD) == "fffd" && Weight("fd") == -1
  {
    assert Hex(0xF) == "f" && Hex(0xFF) == "ff" && Hex(0xFFF) == "fff" && Hex(0xFFFD) == "fffd";
    assert "fd"[1..] == "d" && "d"[1..] == "";
  }

  lemma {:induction false} HighWeight(s: string)
    requires forall i :: 0 <= i < |s| ==> s[i] as nat >= 0x80
    ensures Weight(s) == 10 * |s|
    decreases |s|
  {
    if s == [] {
    } else {
      HighWeight(s[1..]);
    }
  }

  /** A safe key comes back unchanged. */
  lemma {:induction false} SafeKeyReturns(key: string)
    requires SafeKey(key)
    ensures Unsanitized(Sanitized(key)) == key
    decreases |key|
  {
    if key == [] {
    } else {
      NoEscapeTail(key);
      HeadComesBack(key);
      SafeKeyReturns(key[1..]);
    }
  }

  /** Any other key comes back lighter, and shorter when it is ASCII. */
  lemma {:induction false} CodecNeverGains(key: string)
    ensures Weight(Unsanitized(Sanitized(key))) <= Weight(key)
    ensures !SafeKey(key) ==> Weight(Unsanitized(Sanitized(key))) < Weight(key)
    ensures Ascii(key) ==> |Unsanitized(Sanitized(key))| <= |key|
    ensures Ascii(key) && !SafeKey(key) ==> |Unsanitized(Sanitized(key))| < |key|
    decreases |key|
  {
    if key == [] {
    } else {
      NoEscapeTail(key);
      if EscapeAt(key) {
        SwallowedEscape(key);
        CodecNeverGains(key[3..]);
      } else {
        HeadComesBack(key);
        CodecNeverGains(key[Width(key)..]);
      }
    }
  }

  /** The codec is a round trip exactly on the safe keys, over all byte strings; every other
      key comes back strictly lighter, and strictly shorter if it is ASCII. */
  lemma RoundTripIffSafe(key: string)
    ensures Unsanitized(Sanitized(key)) == key <==> SafeKey(key)
    ensures Ascii(key) && !NoEscape(key) ==> |Unsanitized(Sanitized(key))| < |key|
  {
    CodecNeverGains(key);
    if SafeKey(key) {
      SafeKeyReturns(key);
    }
  }

  /** Distinct safe keys never share a file. */
  lemma SanitizedInjective(a: string, b: string)
    requires SafeKey(a) && SafeKey(b) && Sanitized(a) == Sanitized(b)
    ensures a == b
  {
    SafeKeyReturns(a);
    SafeKeyReturns(b);
  }

  // ---- Ranging over UTF-8 -------------------------------------------------------

  /** Decoding the bytes of one character, whatever follows, gives it back. */
  lemma FirstRuneOfChar(c: char, rest: string)
    ensures var b := Utf8Char(c) + rest;
            b != [] && FirstRune(b) == c && Width(b) == |Utf8Char(c)|
  {
    var n := c as nat;
    if n < 0x80 {
    } else if n < 0x800 {
      TwoBytes(n);
    } else if n < 0x1_0000 {
      hide Width, FirstRune;
      ThreeByteChar(c, rest);
    } else {
      hide Width, FirstRune;
      FourByteChar(c, rest);
    }
  }

  lemma ThreeByteChar(c: char, rest: string)
    requires 0x800 <= c as nat < 0x1_0000
    ensures FirstRune(Utf8Char(c) + rest) == c && Width(Utf8Char(c) + rest) == 3
  {
    ThreeBytes(c as nat);
  }

  lemma FourByteChar(c: char, rest: string)
    requires 0x1_0000 <= c as nat
    ensures FirstRune(Utf8Char(c) + rest) == c && Width(Utf8Char(c) + rest) == 4
  {
    FourBytes(c as nat);
  }

  lemma TwoBytes(n: nat)
    requires 0x80 <= n < 0x800
    ensures 0xC2 <= 0xC0 + n / 0x40 <= 0xDF
    ensures (0xC0 + n / 0x40) % 0x20 * 0x40 + (0x80 + n % 0x40) % 0x40 == n
  {
  }

  lemma ThreeBytes(n: nat)
    requires 0x800 <= n < 0x1_0000 && !(0xD800 <= n < 0xE000)
    ensures 0xE0 <= 0xE0 + n / 0x1000 <= 0xEF
    ensures n / 0x1000 == 0 ==> 0xA0 <= 0x80 + n / 0x40 % 0x40
    ensures n / 0x1000 == 0xD ==> 0x80 + n / 0x40 % 0x40 <= 0x9F
    ensures (0xE0 + n / 0x1000) % 0x10 * 0x1000 + (0x80 + n / 0x40 % 0x40) % 0x40 * 0x40 + (0x80 + n % 0x40) % 0x40 == n
  {
    assert n / 0x40 / 0x40 == n / 0x1000;
  }

  lemma FourBytes(n: nat)
    requires 0x1_0000 <= n < 0x11_0000
    ensures 0xF0 <= 0xF0 + n / 0x4_0000 <= 0xF4
    ensures n / 0x4_0000 == 0 ==> 0x90 <= 0x80 + n / 0x1000 % 0x40
    ensures n / 0x4_0000 == 4 ==> 0x80 + n / 0x1000 % 0x40 <= 0x8F
    ensures (0xF0 + n / 0x4_0000) % 0x08 * 0x4_0000 + (0x80 + n / 0x1000 % 0x40) % 0x40 * 0x1000
            + (0x80 + n / 0x40 % 0x40) % 0x40 * 0x40 + (0x80 + n % 0x40) % 0x40 == n
  {
    assert n / 0x40 / 0x40 == n / 0x1000 && n / 0x1000 / 0x40 == n / 0x4_0000;
  }

  /** Ranging over the bytes of a text yields the text. */
  lemma {:induction false} RunesOfUtf8(text: string)
    ensures Runes(Utf8(text)) == text
    decreases |text|
  {
    if text == [] {
    } else {
      var head, tail := Utf8Char(text[0]), Utf8(text[1..]);
      FirstRuneOfChar(text[0], tail);
      assert (head + tail)[|head|..] == tail;
      RunesOfUtf8(text[1..]);
    }
  }

  /** Of a key that is well-formed UTF-8 each character is encoded by its code point, not
      byte by byte: the reason why decoding, which yields bytes, loses it. */
  lemma SanitizedUtf8(text: string)
    ensures Sanitized(Utf8(text)) == Escaped(text)
  {
    RunesOfUtf8(text);
  }
}
