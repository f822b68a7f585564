/** The file-name codec letter by letter: which characters stay, which digits an escape has,
    and which escapes are read, in terms of the characters alone. */
module Letters {
  import opened Codec

  // ---- Characters in bytes ------------------------------------------------------

  /** No character but those of the bytes found is ever read: either the string starts with
      the encoding of its first character, or its first byte starts none, takes the place of
      U+FFFD, and no character's encoding is a prefix. */
  lemma FirstRuneExactly(b: string)
    requires b != [] && forall i :: 0 <= i < |b| ==> b[i] as nat < 256
    ensures if exists c: char :: Utf8Char(c) <= b
            then b[..Width(b)] == Utf8Char(FirstRune(b))
            else Width(b) == 1 && FirstRune(b) == '\U{FFFD}'
  {
    if Width(b) > 1 || b[0] as nat < 0x80 {
      HeadIsEncoding(b);
      assert Utf8Char(FirstRune(b)) <= b;
    } else if c: char :| Utf8Char(c) <= b {
      var rest := b[|Utf8Char(c)|..];
      assert b == Utf8Char(c) + rest;
      FirstRuneOfChar(c, rest);
    }
  }

  lemma HeadIsEncoding(b: string)
    requires b != [] && (Width(b) > 1 || b[0] as nat < 0x80) && forall i :: 0 <= i < |b| ==> b[i] as nat < 256
    ensures b[..Width(b)] == Utf8Char(FirstRune(b))
  {
    match Width(b)
    case 1 => assert b[..1] == [b[0]];
    case 2 => TwoByteHead(b);
    case 3 => ThreeByteHead(b);
    case _ => FourByteHead(b);
  }

  lemma TwoByteHead(b: string)
    requires b != [] && Width(b) == 2
    ensures b[..2] == Utf8Char(FirstRune(b))
  {
    TwoBytesBack(b[0] as nat, b[1] as nat);
    assert b[..2] == [b[0], b[1]];
  }

  lemma ThreeByteHead(b: string)
    requires b != [] && Width(b) == 3
    ensures b[..3] == Utf8Char(FirstRune(b))
  {
    ThreeBytesBack(b[0] as nat, b[1] as nat, b[2] as nat);
    assert b[..3] == [b[0], b[1], b[2]];
  }

  lemma FourByteHead(b: string)
    requires b != [] && Width(b) == 4
    ensures b[..4] == Utf8Char(FirstRune(b))
  {
    FourBytesBack(b[0] as nat, b[1] as nat, b[2] as nat, b[3] as nat);
    assert b[..4] == [b[0], b[1], b[2], b[3]];
  }

  lemma TwoBytesBack(x: nat, y: nat)
    requires 0xC2 <= x <= 0xDF && 0x80 <= y <= 0xBF
    ensures var n := x % 0x20 * 0x40 + y % 0x40;
            0x80 <= n < 0x800 && x == 0xC0 + n / 0x40 && y == 0x80 + n % 0x40
  {
  }

  lemma ThreeBytesBack(x: nat, y: nat, z: nat)
    requires 0xE0 <= x <= 0xEF && (if x == 0xE0 then 0xA0 else 0x80) <= y <= (if x == 0xED then 0x9F else 0xBF)
    requires 0x80 <= z <= 0xBF
    ensures var n := x % 0x10 * 0x1000 + y % 0x40 * 0x40 + z % 0x40;
            && 0x800 <= n < 0x1_0000
            && x == 0xE0 + n / 0x1000 && y == 0x80 + n / 0x40 % 0x40 && z == 0x80 + n % 0x40
  {
    var n := x % 0x10 * 0x1000 + y % 0x40 * 0x40 + z % 0x40;
    assert n / 0x40 == x % 0x10 * 0x40 + y % 0x40;
  }

  lemma FourBytesBack(x: nat, y: nat, z: nat, w: nat)
    requires 0xF0 <= x <= 0xF4 && (if x == 0xF0 then 0x90 else 0x80) <= y <= (if x == 0xF4 then 0x8F else 0xBF)
    requires 0x80 <= z <= 0xBF && 0x80 <= w <= 0xBF
    ensures var n := x % 0x08 * 0x4_0000 + y % 0x40 * 0x1000 + z % 0x40 * 0x40 + w % 0x40;
            && 0x1_0000 <= n < 0x11_0000
            && x == 0xF0 + n / 0x4_0000 && y == 0x80 + n / 0x1000 % 0x40
            && z == 0x80 + n / 0x40 % 0x40 && w == 0x80 + n % 0x40
  {
    var n := x % 0x08 * 0x4_0000 + y % 0x40 * 0x1000 + z % 0x40 * 0x40 + w % 0x40;
    assert n / 0x40 == x % 0x08 * 0x1000 + y % 0x40 * 0x40 + z % 0x40;
    assert n / 0x1000 == x % 0x08 * 0x40 + y % 0x40;
  }

  // ---- Letter by letter ---------------------------------------------------------

  lemma {:induction false} HexIsLower(n: nat)
    ensures forall c :: c in Hex(n) ==> '0' <= c <= '9' || 'a' <= c <= 'f'
  {
    if n < 16 {
    } else {
      HexIsLower(n / 16);
    }
  }

  /** A stem is made of letters, digits, `-` and `_` only. */
  lemma {:induction false} EscapedCharacters(text: string)
    ensures forall c :: c in Escaped(text) ==>
              'a' <= c <= 'z' || 'A' <= c <= 'Z' || '0' <= c <= '9' || c == '-' || c == '_'
    decreases |text|
  {
    if text == [] {
    } else {
      HexIsLower(text[0] as nat);
      EscapedCharacters(text[1..]);
      assert forall c :: c in EncodeChar(text[0]) ==>
                           c == text[0] || c == '_' || '0' <= c <= '9' || 'a' <= c <= 'f';
    }
  }

  lemma StemCharacters(key: string)
    ensures forall c :: c in Sanitized(key) ==>
              'a' <= c <= 'z' || 'A' <= c <= 'Z' || '0' <= c <= '9' || c == '-' || c == '_'
  {
    EscapedCharacters(Runes(key));
  }

  /** A key made of these alone is its own stem. */
  lemma {:induction false} PlainKeyIsItsStem(key: string)
    requires forall c :: c in key ==>
               'a' <= c <= 'z' || 'A' <= c <= 'Z' || '0' <= c <= '9' || c == '-' || c == '_'
    ensures Sanitized(key) == key
    decreases |key|
  {
    if key == [] {
    } else {
      assert key[0] in key && key == [key[0]] + key[1..];
      assert Width(key) == 1;
      assert forall c :: c in key[1..] ==> c in key;
      PlainKeyIsItsStem(key[1..]);
    }
  }

  /** Any other ASCII character becomes `_`, its high digit and its low digit, in lower case. */
  lemma AsciiIsEscaped(c: char, rest: string)
    requires c as nat < 0x80
    requires !('a' <= c <= 'z' || 'A' <= c <= 'Z' || '0' <= c <= '9' || c == '-' || c == '_')
    ensures Sanitized([c] + rest)
         == ['_', "0123456789abcdef"[c as nat / 16], "0123456789abcdef"[c as nat % 16]] + Sanitized(rest)
  {
    var key := [c] + rest;
    assert key[1..] == rest;
    assert Width(key) == 1;
    TwoLowerDigits(c as nat);
    hide Hex02;
  }

  lemma TwoLowerDigits(n: nat)
    requires n < 0x100
    ensures Hex02(n) == ["0123456789abcdef"[n / 16], "0123456789abcdef"[n % 16]]
  {
    LowerDigit(n / 16);
    LowerDigit(n % 16);
    assert Hex(n / 16) == [HexDigit(n / 16)];
  }

  /** What a string of lower-case hexadecimal digits says. */
  function Numeral(digits: string): int {
    if digits == [] then 0
    else
      var last := digits[|digits| - 1];
      Numeral(digits[..|digits| - 1]) * 16 + if last <= '9' then last as int - 48 else last as int - 87
  }

  lemma {:induction false} HexSays(n: nat)
    ensures Numeral(Hex(n)) == n && (n > 0 ==> Hex(n)[0] != '0')
  {
    if n < 16 {
      LowerDigit(n);
      assert Hex(n)[..0] == [];
    } else {
      HexSays(n / 16);
      LowerDigit(n % 16);
      assert Hex(n)[..|Hex(n)| - 1] == Hex(n / 16);
    }
  }

  /** A character beyond ASCII becomes `_` and its code point, in lower case and without
      leading zeros; an ill-formed byte does so as U+FFFD. */
  lemma BeyondAsciiIsEscaped(key: string) returns (digits: string)
    requires key != [] && FirstRune(key) as nat >= 0x80
    ensures Sanitized(key) == "_" + digits + Sanitized(key[Width(key)..])
    ensures digits != [] && digits[0] != '0' && Numeral(digits) == FirstRune(key) as nat
    ensures forall c :: c in digits ==> '0' <= c <= '9' || 'a' <= c <= 'f'
  {
    var n := FirstRune(key) as nat;
    HexSays(n);
    HexIsLower(n);
    digits := Hex(n);
  }

  lemma LowerDigit(n: nat)
    requires n < 16
    ensures HexDigit(n) == "0123456789abcdef"[n]
  {
  }

  /** The digits both ways: what a digit of either case is worth. */
  lemma DigitsOfBothCases(n: nat)
    requires n < 22
    ensures var c := "0123456789abcdefABCDEF"[n]; IsHex(c) && HexVal(c) == if n < 16 then n else n - 6
  {
  }

  lemma HexIsADigit(c: char)
    ensures c in "0123456789abcdefABCDEF" <==> IsHex(c)
  {
    if IsHex(c) {
      var n := if c <= '9' then c as nat - '0' as nat else if c <= 'F' then c as nat - 'A' as nat + 16 else HexVal(c);
      assert "0123456789abcdefABCDEF"[n] == c;
    }
  }

  /** `_` and two digits, of either case, decode to the byte they name. */
  lemma DigitsAreDecoded(m: nat, n: nat, rest: string)
    requires m < 22 && n < 22
    ensures var digits := "0123456789abcdefABCDEF";
            var high, low := if m < 16 then m else m - 6, if n < 16 then n else n - 6;
            Unsanitized(['_', digits[m], digits[n]] + rest) == [(high * 16 + low) as char] + Unsanitized(rest)
  {
    DigitsOfBothCases(m);
    DigitsOfBothCases(n);
    var digits := "0123456789abcdefABCDEF";
    var s := ['_', digits[m], digits[n]] + rest;
    assert s[3..] == rest;
  }

  /** Anything else decodes to itself. */
  lemma OthersPassThrough(s: string)
    requires s != []
    requires !(|s| > 2 && s[0] == '_' && s[1] in "0123456789abcdefABCDEF" && s[2] in "0123456789abcdefABCDEF")
    ensures Unsanitized(s) == [s[0]] + Unsanitized(s[1..])
  {
    if |s| > 2 {
      HexIsADigit(s[1]);
      HexIsADigit(s[2]);
    }
  }

  /** What a safe key is, letter by letter. */
  lemma SafeKeyExactly(key: string)
    ensures SafeKey(key) <==>
              && (forall i :: 0 <= i < |key| ==> key[i] as nat < 0x80)
              && (forall i :: 0 <= i < |key| - 2 && key[i] == '_' ==>
                    !(key[i + 1] in "0123456789abcdefABCDEF" && key[i + 2] in "0123456789abcdefABCDEF"))
  {
    forall i | 0 <= i < |key|
      ensures EscapeAt(key[i..]) <==>
                && i < |key| - 2 && key[i] == '_'
                && key[i + 1] in "0123456789abcdefABCDEF" && key[i + 2] in "0123456789abcdefABCDEF"
    {
      if i < |key| - 2 {
        assert key[i..][0] == key[i] && key[i..][1] == key[i + 1] && key[i..][2] == key[i + 2];
        HexIsADigit(key[i + 1]);
        HexIsADigit(key[i + 2]);
      }
    }
  }
}
