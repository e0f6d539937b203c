/** The llama-server reader's string escaper and un-escaper.  Strings are sequences of bytes; the
    code looks at no byte above 0x7f specially. */
module Json {

  datatype Option<T> = None | Some(value: T)

  predicate IsSpace(c: char) {
    c == ' ' || c == '\t' || c == '\n' || c == '\U{0b}' || c == '\U{0c}' || c == '\r'
  }

  /** Space, tab, line feed, vertical tab, form feed and carriage return. */
  lemma SpacesAre(c: char)
    ensures IsSpace(c) <==> c as int == 32 || 9 <= c as int <= 13
  {
  }

  function TrimLeft(s: string): string {
    if s != "" && IsSpace(s[0]) then TrimLeft(s[1..]) else s
  }

  function TrimRight(s: string): string {
    if s != "" && IsSpace(s[|s| - 1]) then TrimRight(s[..|s| - 1]) else s
  }

  function Trim(s: string): string {
    TrimRight(TrimLeft(s))
  }

  predicate Trimmed(s: string) {
    s == "" || (!IsSpace(s[0]) && !IsSpace(s[|s| - 1]))
  }

  lemma {:induction false} TrimRightKeeps(s: string)
    ensures TrimRight(s) <= s
    ensures TrimRight(s) == "" || !IsSpace(TrimRight(s)[|TrimRight(s)| - 1])
  {
    if s != "" && IsSpace(s[|s| - 1]) {
      TrimRightKeeps(s[..|s| - 1]);
    }
  }

  lemma {:induction false} TrimLeftStarts(s: string)
    ensures TrimLeft(s) == "" || !IsSpace(TrimLeft(s)[0])
  {
    if s != "" && IsSpace(s[0]) {
      TrimLeftStarts(s[1..]);
    }
  }

  /** Trimming leaves no space at either end, so trimming again changes nothing. */
  lemma TrimIsIdempotent(s: string)
    ensures Trimmed(Trim(s))
    ensures Trim(Trim(s)) == Trim(s)
  {
    TrimLeftStarts(s);
    TrimRightKeeps(TrimLeft(s));
    TrimmedIsFixed(Trim(s));
  }

  lemma TrimmedIsFixed(s: string)
    requires Trimmed(s)
    ensures Trim(s) == s
  {
  }

  // --------------------------------------------------------------- searching

  predicate StartsWith(s: string, key: string) {
    key <= s
  }

  /** `std::string::find`: the first position from `from` on where `key` occurs. */
  function Find(s: string, key: string, from: nat): (r: Option<nat>)
    ensures r.Some? ==> from <= r.value <= |s| && key <= s[r.value..]
    decreases |s| - from
  {
    if from > |s| then None
    else if key <= s[from..] then Some(from)
    else Find(s, key, from + 1)
  }

  lemma {:induction false} FindIsFirst(s: string, key: string, from: nat, p: nat)
    requires from <= p <= |s| && key <= s[p..]
    ensures Find(s, key, from).Some? && Find(s, key, from).value <= p
    decreases p - from
  {
    if !(key <= s[from..]) {
      FindIsFirst(s, key, from + 1, p);
    }
  }

  function SkipSpaces(s: string, from: nat): (r: nat)
    ensures r >= from
    decreases |s| - from
  {
    if from < |s| && IsSpace(s[from]) then SkipSpaces(s, from + 1) else from
  }

  /** Where the value of `field` starts: after the first `"field"`, the next colon, and spaces. */
  function ValueStart(json: string, field: string): (r: Option<nat>)
  {
    var key := Find(json, "\"" + field + "\"", 0);
    if key.None? then None else
      var colon := Find(json, ":", key.value + |field| + 2);
      if colon.None? then None else Some(SkipSpaces(json, colon.value + 1))
  }

  // ---------------------------------------------------------------- strings

  /** What the reader makes of the character after a backslash. */
  function Undo(c: char): char {
    if c == 'n' then '\n' else if c == 'r' then '\r' else if c == 't' then '\t' else c
  }

  /** The string value at the head of `s`, the text after an opening quote. */
  function ReadString(s: string): Option<string> {
    if s == "" then None
    else if s[0] == '"' then Some("")
    else if s[0] == '\\' then
      if |s| < 2 then None else Prepend(Undo(s[1]), ReadString(s[2..]))
    else Prepend(s[0], ReadString(s[1..]))
  }

  function Prepend(c: char, rest: Option<string>): Option<string> {
    if rest.None? then None else Some([c] + rest.value)
  }

  function StringField(json: string, field: string): Option<string> {
    var start := ValueStart(json, field);
    if start.None? || start.value >= |json| || json[start.value] != '"' then None
    else ReadString(json[start.value + 1..])
  }

  function Append(value: string, rest: Option<string>): Option<string> {
    if rest.None? then None else Some(value + rest.value)
  }

  lemma AppendOne(value: string, c: char, rest: Option<string>)
    ensures Append(value, Prepend(c, rest)) == Append(value + [c], rest)
  {
    if rest.Some? {
      assert value + ([c] + rest.value) == value + [c] + rest.value;
    }
  }

  lemma AppendEnds(value: string, rest: Option<string>)
    ensures Append("", rest) == rest && Append(value, Some("")) == Some(value)
  {
    assert value + "" == value;
    if rest.Some? {
      assert "" + rest.value == rest.value;
    }
  }

  /** `ReadString` at one position of a longer text. */
  lemma ReadStringAt(json: string, pos: nat)
    requires pos <= |json|
    ensures ReadString(json[pos..])
         == if pos == |json| then None
            else if json[pos] == '"' then Some("")
            else if json[pos] == '\\' then
              (if pos + 1 < |json| then Prepend(Undo(json[pos + 1]), ReadString(json[pos + 2..])) else None)
            else Prepend(json[pos], ReadString(json[pos + 1..]))
  {
    if pos < |json| {
      assert json[pos..][1..] == json[pos + 1..];
      if pos + 1 < |json| {
        assert json[pos..][2..] == json[pos + 2..];
      }
    }
  }

  method ExtractJsonStringField(json: string, field: string) returns (r: Option<string>)
    ensures r == StringField(json, field)
  {
    hide Find, Undo, IsSpace, ReadString, Append, Prepend;
    var key := Find(json, "\"" + field + "\"", 0);
    if key.None? {
      return None;
    }
    var colon := Find(json, ":", key.value + |field| + 2);
    if colon.None? {
      return None;
    }
    var pos := colon.value + 1;
    while pos < |json| && IsSpace(json[pos])
      invariant SkipSpaces(json, pos) == SkipSpaces(json, colon.value + 1)
    {
      pos := pos + 1;
    }
    if pos >= |json| || json[pos] != '"' {
      return None;
    }
    pos := pos + 1;
    ghost var start := pos;
    var value, escaping := "", false;
    AppendEnds("", ReadString(json[start..]));
    while pos < |json|
      invariant start <= pos <= |json|
      invariant ReadString(json[start..])
             == if !escaping then Append(value, ReadString(json[pos..]))
                else if pos < |json| then Append(value, Prepend(Undo(json[pos]), ReadString(json[pos + 1..])))
                else None
    {
      var ch := json[pos];
      AppendEnds(value, None);
      AppendNone(value);
      if escaping {
        AppendOne(value, Undo(ch), ReadString(json[pos + 1..]));
        value := value + [Undo(ch)];
        escaping := false;
      } else {
        ReadStringAt(json, pos);
        if ch == '\\' {
          escaping := true;
        } else if ch == '"' {
          return Some(value);
        } else {
          AppendOne(value, ch, ReadString(json[pos + 1..]));
          value := value + [ch];
        }
      }
      pos := pos + 1;
    }
    ReadStringAt(json, pos);
    AppendNone(value);
    return None;
  }

  lemma AppendNone(value: string)
    ensures Append(value, None) == None
  {
  }

  // --------------------------------------------------------------- integers

  predicate IsDigit(c: char) { '0' <= c <= '9' }

  function LeadingDigits(s: string): string {
    if s != "" && IsDigit(s[0]) then [s[0]] + LeadingDigits(s[1..]) else ""
  }

  function DecimalValue(digits: string): int
    requires forall i | 0 <= i < |digits| :: IsDigit(digits[i])
  {
    if digits == "" then 0
    else 10 * DecimalValue(digits[..|digits| - 1]) + (digits[|digits| - 1] as int - '0' as int)
  }

  lemma LeadingDigitsAreDigits(s: string)
    ensures forall i | 0 <= i < |LeadingDigits(s)| :: IsDigit(LeadingDigits(s)[i])
  {
    if s != "" && IsDigit(s[0]) {
      LeadingDigitsAreDigits(s[1..]);
    }
  }

  const LONG_MAX := 0x7fff_ffff_ffff_ffff

  /** A 64-bit `long` truncated to a 32-bit `int`. */
  function ToInt32(value: int): int {
    var low := value % 0x1_0000_0000;
    if low >= 0x8000_0000 then low - 0x1_0000_0000 else low
  }

  /** `std::strtol` in base 10 on text without leading spaces: a sign, then digits, saturating. */
  function ParseLong(s: string): Option<int> {
    var negative := s != "" && s[0] == '-';
    var digits := LeadingDigits(if s != "" && (s[0] == '-' || s[0] == '+') then s[1..] else s);
    LeadingDigitsAreDigits(if s != "" && (s[0] == '-' || s[0] == '+') then s[1..] else s);
    if digits == "" then None
    else
      var value := DecimalValue(digits);
      Some(if negative then (if value > LONG_MAX then -LONG_MAX - 1 else -value)
           else if value > LONG_MAX then LONG_MAX else value)
  }

  function IntField(json: string, field: string): Option<int> {
    var start := ValueStart(json, field);
    if start.None? || start.value > |json| then None
    else
      var value := ParseLong(json[start.value..]);
      if value.None? then None else Some(ToInt32(value.value))
  }

  method ExtractJsonIntField(json: string, field: string) returns (r: Option<int>)
    ensures r == IntField(json, field)
  {
    hide ParseLong, ToInt32, Find, IsSpace;
    var key := Find(json, "\"" + field + "\"", 0);
    if key.None? {
      return None;
    }
    var colon := Find(json, ":", key.value + |field| + 2);
    if colon.None? {
      return None;
    }
    var pos := colon.value + 1;
    while pos < |json| && IsSpace(json[pos])
      invariant pos <= |json|
      invariant SkipSpaces(json, pos) == SkipSpaces(json, colon.value + 1)
    {
      pos := pos + 1;
    }
    var value := ParseLong(json[pos..]);
    if value.None? {
      return None;
    }
    return Some(ToInt32(value.value));
  }

  // --------------------------------------------------------------- escaping

  function HexDigit(n: int): char
    requires 0 <= n < 16
  {
    if n < 10 then ('0' as int + n) as char else ('a' as int + n - 10) as char
  }

  function EscapeChar(c: char): string {
    if c == '"' then "\\\""
    else if c == '\\' then "\\\\"
    else if c == '\U{08}' then "\\b"
    else if c == '\U{0c}' then "\\f"
    else if c == '\n' then "\\n"
    else if c == '\r' then "\\r"
    else if c == '\t' then "\\t"
    else if c < ' ' then "\\u00" + [HexDigit(c as int / 16), HexDigit(c as int % 16)]
    else [c]
  }

  function Escape(s: string): string {
    if s == "" then "" else EscapeChar(s[0]) + Escape(s[1..])
  }

  method JsonEscape(value: string) returns (out: string)
    ensures out == Escape(value)
  {
    out := "";
    for i := 0 to |value|
      invariant Escape(value) == out + Escape(value[i..])
    {
      assert value[i..][0] == value[i] && value[i..][1..] == value[i + 1..];
      out := out + EscapeChar(value[i]);
    }
  }

  function JsonStringValue(s: string): string {
    "\"" + Escape(s) + "\""
  }

  /** What the reader sees where the escaper wrote `c`. */
  function SeenChar(c: char): string {
    if c == '\U{08}' then "b"
    else if c == '\U{0c}' then "f"
    else if c == '\n' || c == '\r' || c == '\t' || c >= ' ' then [c]
    else "u00" + [HexDigit(c as int / 16), HexDigit(c as int % 16)]
  }

  function Seen(s: string): string {
    if s == "" then "" else SeenChar(s[0]) + Seen(s[1..])
  }

  /** Characters whose escape the reader undoes. */
  predicate Restorable(c: char) {
    c >= ' ' || c == '\n' || c == '\r' || c == '\t'
  }

  predicate AllRestorable(s: string) {
    forall i | 0 <= i < |s| :: Restorable(s[i])
  }

  lemma ReadPlain(c: char, rest: string)
    requires c != '"' && c != '\\'
    ensures ReadString([c] + rest) == Prepend(c, ReadString(rest))
  {
    assert ([c] + rest)[1..] == rest;
  }

  lemma ReadEscaped(c: char, rest: string)
    ensures ReadString(['\\', c] + rest) == Prepend(Undo(c), ReadString(rest))
  {
    assert (['\\', c] + rest)[2..] == rest;
  }

  lemma AppendTwice(a: string, b: string, rest: Option<string>)
    ensures Append(a, Append(b, rest)) == Append(a + b, rest)
  {
    if rest.Some? {
      assert a + (b + rest.value) == a + b + rest.value;
    }
  }

  lemma {:induction false} ReadPlains(xs: string, rest: string)
    requires forall i | 0 <= i < |xs| :: xs[i] != '"' && xs[i] != '\\'
    ensures ReadString(xs + rest) == Append(xs, ReadString(rest))
  {
    if xs == "" {
      assert xs + rest == rest;
      AppendEnds("", ReadString(rest));
    } else {
      assert xs + rest == [xs[0]] + (xs[1..] + rest);
      ReadPlain(xs[0], xs[1..] + rest);
      ReadPlains(xs[1..], rest);
      AppendOne("", xs[0], Append(xs[1..], ReadString(rest)));
      AppendEnds("", Prepend(xs[0], Append(xs[1..], ReadString(rest))));
      AppendTwice([xs[0]], xs[1..], ReadString(rest));
      assert "" + [xs[0]] == [xs[0]] && [xs[0]] + xs[1..] == xs;
    }
  }

  lemma ReadControl(a: char, b: char, rest: string)
    requires a != '"' && a != '\\' && b != '"' && b != '\\'
    ensures ReadString("\\u00" + [a, b] + rest) == Append("u00" + [a, b], ReadString(rest))
  {
    var hex := ['0', '0', a, b];
    assert "\\u00" + [a, b] + rest == ['\\', 'u'] + (hex + rest);
    assert "u00" + [a, b] == ['u'] + hex;
    ReadEscaped('u', hex + rest);
    ReadPlains(hex, rest);
    AppendTwice(['u'], hex, ReadString(rest));
  }

  lemma ReadOneEscape(c: char, rest: string)
    ensures ReadString(EscapeChar(c) + rest) == Append(SeenChar(c), ReadString(rest))
  {
    if EscapeChar(c) == [c] {
      ReadPlain(c, rest);
    } else if |EscapeChar(c)| == 2 {
      assert EscapeChar(c) == ['\\', EscapeChar(c)[1]];
      ReadEscaped(EscapeChar(c)[1], rest);
    } else {
      ReadControl(HexDigit(c as int / 16), HexDigit(c as int % 16), rest);
    }
  }

  /** Reading back an escaped string gives what the reader sees of it, whatever follows the closing quote. */
  lemma {:induction false} ReadEscape(s: string, rest: string)
    ensures ReadString(Escape(s) + "\"" + rest) == Some(Seen(s))
  {
    if s == "" {
      assert Escape(s) + "\"" + rest == "\"" + rest;
    } else {
      var tail := Escape(s[1..]) + "\"" + rest;
      assert Escape(s) + "\"" + rest == EscapeChar(s[0]) + tail;
      ReadEscape(s[1..], rest);
      ReadOneEscape(s[0], tail);
    }
  }

  lemma {:induction false} SeenIsLonger(s: string)
    ensures |Seen(s)| >= |s|
  {
    if s != "" {
      SeenIsLonger(s[1..]);
    }
  }

  /** The reader restores a string exactly when its only control characters are newline, carriage
      return and tab. */
  lemma {:induction false} RestoredExactlyWhenRestorable(s: string)
    ensures Seen(s) == s <==> AllRestorable(s)
  {
    if s != "" {
      var c, rest := s[0], s[1..];
      RestoredExactlyWhenRestorable(rest);
      SeenIsLonger(rest);
      assert s == [c] + rest;
      assert AllRestorable(s) <==> Restorable(c) && AllRestorable(rest);
      if Restorable(c) {
        assert Seen(s)[1..] == Seen(rest);
      } else if |SeenChar(c)| == 1 {
        assert Seen(s)[0] != s[0];
      }
    }
  }

  /** A string without its closing quote is not read at all. */
  lemma {:induction false} UnterminatedIsNone(s: string)
    ensures ReadString(Escape(s)) == None
  {
    if s != "" {
      hide EscapeChar, SeenChar;
      UnterminatedIsNone(s[1..]);
      ReadOneEscape(s[0], Escape(s[1..]));
    }
  }
}
