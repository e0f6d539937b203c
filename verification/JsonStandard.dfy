/** The escaper against the string grammar of section 7 of RFC 8259: a standard reader undoes every escape that the
    escaper writes. */
module JsonStandard {
  import opened Json

  /** The value of a hexadecimal digit, or -1. */
  function HexValue(c: char): int {
    if '0' <= c <= '9' then c as int - '0' as int
    else if 'a' <= c <= 'f' then c as int - 'a' as int + 10
    else if 'A' <= c <= 'F' then c as int - 'A' as int + 10
    else -1
  }

  function Hex4(s: string): int
    requires |s| == 4
  {
    HexValue(s[0]) * 4096 + HexValue(s[1]) * 256 + HexValue(s[2]) * 16 + HexValue(s[3])
  }

  predicate IsHex4(s: string) {
    |s| == 4 && forall i | 0 <= i < 4 :: HexValue(s[i]) >= 0
  }

  /** The character that a two-character escape stands for. */
  function Short(c: char): Option<char> {
    match c
    case '"' => Some('"')
    case '\\' => Some('\\')
    case '/' => Some('/')
    case 'b' => Some('\U{08}')
    case 'f' => Some('\U{0c}')
    case 'n' => Some('\n')
    case 'r' => Some('\r')
    case 't' => Some('\t')
    case _ => None
  }

  /** The text between the quotes of a JSON string, decoded; code points above 0xff do not concern bytes. */
  function Decoded(s: string): Option<string> {
    if s == "" then Some("")
    else if s[0] == '"' || s[0] < ' ' then None
    else if s[0] != '\\' then Prepend(s[0], Decoded(s[1..]))
    else if |s| >= 6 && s[1] == 'u' && IsHex4(s[2..6]) && Hex4(s[2..6]) < 0x100 then
      Prepend(Hex4(s[2..6]) as char, Decoded(s[6..]))
    else if |s| >= 2 && Short(s[1]).Some? then Prepend(Short(s[1]).value, Decoded(s[2..]))
    else None
  }

  lemma HexDigitHasValue(n: int)
    requires 0 <= n < 16
    ensures HexValue(HexDigit(n)) == n
  {
  }

  lemma DecodedPlain(c: char, rest: string)
    requires c >= ' ' && c != '"' && c != '\\'
    ensures Decoded([c] + rest) == Prepend(c, Decoded(rest))
  {
    assert ([c] + rest)[1..] == rest;
  }

  lemma DecodedShort(c: char, rest: string)
    requires Short(c).Some? && c != 'u'
    ensures Decoded(['\\', c] + rest) == Prepend(Short(c).value, Decoded(rest))
  {
    assert (['\\', c] + rest)[2..] == rest;
  }

  lemma DecodedLong(c: char, rest: string)
    requires c < ' '
    ensures Decoded("\\u00" + [HexDigit(c as int / 16), HexDigit(c as int % 16)] + rest) == Prepend(c, Decoded(rest))
  {
    var hex := "00" + [HexDigit(c as int / 16), HexDigit(c as int % 16)];
    var all := "\\u00" + [HexDigit(c as int / 16), HexDigit(c as int % 16)] + rest;
    HexDigitHasValue(c as int / 16);
    HexDigitHasValue(c as int % 16);
    assert all[2..6] == hex && all[6..] == rest;
    assert Hex4(hex) == c as int;
  }

  lemma DecodedEscape(c: char, rest: string)
    ensures Decoded(EscapeChar(c) + rest) == Prepend(c, Decoded(rest))
  {
    hide Decoded;
    if EscapeChar(c) == [c] {
      DecodedPlain(c, rest);
    } else if |EscapeChar(c)| == 2 {
      assert EscapeChar(c) == ['\\', EscapeChar(c)[1]];
      DecodedShort(EscapeChar(c)[1], rest);
    } else {
      DecodedLong(c, rest);
    }
  }

  /** A standard reader gets back every string that the escaper renders. */
  lemma {:induction false} StandardReaderTheorem(s: string)
    ensures Decoded(Escape(s)) == Some(s)
  {
    if s != "" {
      StandardReaderTheorem(s[1..]);
      hide EscapeChar, Decoded;
      DecodedEscape(s[0], Escape(s[1..]));
      assert [s[0]] + s[1..] == s;
    }
  }

  /** The server reader agrees with the standard on every short escape but backspace and form feed. */
  lemma ReaderAgreesWithStandard(c: char)
    ensures Short(c).Some? ==> (Undo(c) == Short(c).value <==> c != 'b' && c != 'f')
    ensures c !in "nrt" ==> Undo(c) == c
  {
  }
}
