/** Token counts beside the content: which numbers the reader takes from a rendered event. */
module StreamCounts {
  import opened Json
  import opened LlamaStream
  import opened PrefixKey
  import opened StreamFraming

  // --------------------------------------------------------------- numbers

  lemma {:induction false} DecimalIsDigits(n: nat)
    ensures Decimal(n) != "" && forall i | 0 <= i < |Decimal(n)| :: IsDigit(Decimal(n)[i])
  {
    if n >= 10 {
      DecimalIsDigits(n / 10);
    }
  }

  lemma {:induction false} DecimalHasValue(n: nat)
    requires forall i | 0 <= i < |Decimal(n)| :: IsDigit(Decimal(n)[i])
    ensures DecimalValue(Decimal(n)) == n
  {
    if n >= 10 {
      DecimalIsDigits(n / 10);
      DecimalHasValue(n / 10);
      assert Decimal(n)[..|Decimal(n)| - 1] == Decimal(n / 10);
    } else {
      assert Decimal(n)[..0] == "";
    }
  }

  predicate NoDigitFirst(s: string) {
    s == "" || !IsDigit(s[0])
  }

  lemma {:induction false} DigitsLead(digits: string, rest: string)
    requires (forall i | 0 <= i < |digits| :: IsDigit(digits[i])) && NoDigitFirst(rest)
    ensures LeadingDigits(digits + rest) == digits
  {
    if digits == "" {
      assert digits + rest == rest;
    } else {
      assert (digits + rest)[1..] == digits[1..] + rest;
      DigitsLead(digits[1..], rest);
    }
  }

  /** An integer kept within 64 bits. */
  function Saturated(n: int): int {
    if n > 0x7fff_ffff_ffff_ffff then 0x7fff_ffff_ffff_ffff
    else if n < -0x8000_0000_0000_0000 then -0x8000_0000_0000_0000
    else n
  }

  lemma NaturalIsRead(n: nat, rest: string)
    requires NoDigitFirst(rest)
    ensures LeadingDigits(Decimal(n) + rest) == Decimal(n) && Decimal(n) != "" && IsDigit(Decimal(n)[0])
    ensures (forall i | 0 <= i < |Decimal(n)| :: IsDigit(Decimal(n)[i])) && DecimalValue(Decimal(n)) == n
  {
    hide Decimal, DecimalValue, LeadingDigits;
    DecimalIsDigits(n);
    DecimalHasValue(n);
    DigitsLead(Decimal(n), rest);
  }

  lemma PositiveIsRead(n: nat, rest: string)
    requires NoDigitFirst(rest)
    ensures ParseLong(Decimal(n) + rest) == Some(Saturated(n))
  {
    hide Decimal, DecimalValue, LeadingDigits;
    NaturalIsRead(n, rest);
    assert (Decimal(n) + rest)[0] == Decimal(n)[0];
  }

  lemma NegativeIsRead(n: int, rest: string)
    requires n < 0 && NoDigitFirst(rest)
    ensures ParseLong("-" + Decimal(-n) + rest) == Some(Saturated(n))
  {
    hide Decimal, DecimalValue, LeadingDigits;
    NaturalIsRead(-n, rest);
    assert ("-" + Decimal(-n) + rest)[1..] == Decimal(-n) + rest;
  }

  /** A rendered integer is read back, kept within 64 bits, whatever follows it. */
  lemma NumberIsRead(n: int, rest: string)
    requires NoDigitFirst(rest)
    ensures ParseLong(Shown(n) + rest) == Some(Saturated(n))
  {
    hide Decimal, ParseLong, Saturated;
    if n < 0 {
      NegativeIsRead(n, rest);
    } else {
      PositiveIsRead(n, rest);
    }
  }

  /** A plus sign is skipped; text that starts with neither a sign nor a digit, or has no digit after its sign, is
      not a number. */
  lemma SignsAreRead(n: nat, rest: string)
    requires NoDigitFirst(rest)
    ensures ParseLong("+" + Decimal(n) + rest) == Some(Saturated(n))
    ensures ParseLong("-" + rest) == None && ParseLong("+" + rest) == None
    ensures rest == "" || (rest[0] != '-' && rest[0] != '+') ==> ParseLong(rest) == None
  {
    hide Decimal, DecimalValue;
    NaturalIsRead(n, rest);
    assert ("+" + Decimal(n) + rest)[1..] == Decimal(n) + rest;
    assert ("-" + rest)[1..] == rest && ("+" + rest)[1..] == rest;
  }

  /** Narrowing to 32 bits keeps the value modulo two to the thirty-second, and values that fit. */
  lemma NarrowingIsModular(n: int)
    ensures -0x8000_0000 <= ToInt32(n) < 0x8000_0000 && (ToInt32(n) - n) % 0x1_0000_0000 == 0
    ensures -0x8000_0000 <= n < 0x8000_0000 ==> ToInt32(n) == n
  {
  }

  // ---------------------------------------------------------- the rendering

  /** An event that carries both counts. */
  datatype Counted = Counted(text: string, predicted: nat, evaluated: nat)

  const PREDICTED := "tokens_predicted"
  const EVALUATED := "tokens_evaluated"

  function Field(name: string, n: nat): string {
    ",\"" + name + "\":" + Decimal(n)
  }

  function Rendered(c: Counted): string {
    "{\"content\":" + JsonStringValue(c.text) + Field(PREDICTED, c.predicted) + Field(EVALUATED, c.evaluated) + "}"
  }

  /** The counts fit an `int`. */
  predicate Fits(c: Counted) {
    c.predicted < 0x8000_0000 && c.evaluated < 0x8000_0000
  }

  /** The text is the field's name, or ends with a quote and the field's name: rendered, it looks like that field. */
  predicate Mimics(text: string, name: string) {
    text == name || (|text| > |name| && text[|text| - |name| - 1..] == "\"" + name)
  }

  // ------------------------------------------------------- finding the fields

  function Quoted(name: string): string {
    "\"" + name + "\""
  }

  /** A long name without characters that escaping uses. */
  predicate LongName(name: string) {
    |name| > 11 && forall i | 0 <= i < |name| :: name[i] != '"' && name[i] != '\\'
  }

  predicate EndsWith(s: string, t: string) {
    |s| >= |t| && s[|s| - |t|..] == t
  }

  lemma {:induction false} FindSkips(s: string, key: string, from: nat, to: nat)
    requires from <= to <= |s| && forall q: nat | from <= q < to :: !Occurs(s, key, q)
    ensures Find(s, key, from) == Find(s, key, to)
    decreases |s| - from
  {
    if from < to {
      assert !Occurs(s, key, from);
      FindSkips(s, key, from + 1, to);
    }
  }

  /** Up to the closing quote of the content, every quote belongs to the frame or is escaped. */
  lemma QuotesUpToClose(escaped: string, json: string, rest: string, i: int)
    requires QuotesAreEscaped(escaped) && json == KEY + escaped + "\"" + rest
    requires 0 <= i < 12 + |escaped| && json[i] == '"'
    ensures i <= 11 || json[i - 1] == '\\'
  {
    if i >= 12 {
      assert json[i] == escaped[i - 12];
      assert json[i - 1] == escaped[i - 13];
    }
  }

  /** A quoted name that starts before the closing quote of the content ends there. */
  lemma EarlyNameEndsAtClose(escaped: string, json: string, rest: string, name: string, q: nat)
    requires QuotesAreEscaped(escaped) && json == KEY + escaped + "\"" + rest && LongName(name)
    requires q < 12 + |escaped| && Quoted(name) <= json[q..]
    ensures q + |name| + 1 == 12 + |escaped|
  {
    var close, end := 12 + |escaped|, q + |name| + 1;
    QuotedSlice(json, name, q);
    assert json[end - 1] == name[|name| - 1];
    assert json[close] == '"';
    if end < close {
      QuotesUpToClose(escaped, json, rest, end);
    }
    assert forall k | q < k < end :: json[k] == name[k - q - 1];
  }

  predicate Occurs(s: string, key: string, q: nat)
    requires q <= |s|
  {
    key <= s[q..]
  }

  lemma QuotedPrefix(x: string, name: string, rest: string)
    requires |x| == |name| + 1
    ensures Quoted(name) <= x + ("\"" + rest) <==> x == "\"" + name
  {
    var all := x + ("\"" + rest);
    assert all[..|x|] == x && Quoted(name)[..|x|] == "\"" + name;
    if x == "\"" + name {
      assert all == Quoted(name) + rest;
    }
  }

  /** The name occurs just before the closing quote exactly when the text before that quote ends like it. */
  lemma OccursAtClose(escaped: string, json: string, rest: string, name: string)
    requires json == KEY + escaped + "\"" + rest && LongName(name)
    ensures EndsWith(KEY + escaped, "\"" + name) <==>
              |escaped| + 11 >= |name| && Occurs(json, Quoted(name), 11 + |escaped| - |name|)
  {
    hide LongName, Quoted;
    var all, at := KEY + escaped, 11 + |escaped| - |name|;
    assert json == all + "\"" + rest && |all| == 12 + |escaped|;
    if at >= 0 {
      assert json[at..] == all[at..] + ("\"" + rest);
      QuotedPrefix(all[at..], name, rest);
    }
  }

  lemma OccursNowhereElse(escaped: string, json: string, rest: string, name: string, q: nat)
    requires QuotesAreEscaped(escaped) && json == KEY + escaped + "\"" + rest && LongName(name)
    requires q < 12 + |escaped| && q != 11 + |escaped| - |name|
    ensures !Occurs(json, Quoted(name), q)
  {
    hide LongName, QuotesAreEscaped;
    if Occurs(json, Quoted(name), q) {
      EarlyNameEndsAtClose(escaped, json, rest, name, q);
    }
  }

  /** The search for a quoted name stops at the closing quote if the text before it ends like the name, and
      otherwise goes on from there. */
  lemma SearchToClose(escaped: string, json: string, rest: string, name: string)
    requires QuotesAreEscaped(escaped) && json == KEY + escaped + "\"" + rest && LongName(name)
    ensures Find(json, Quoted(name), 0) ==
              if EndsWith(KEY + escaped, "\"" + name) then Some(11 + |escaped| - |name|)
              else Find(json, Quoted(name), 12 + |escaped|)
  {
    OccursAtClose(escaped, json, rest, name);
    hide LongName, QuotesAreEscaped, EndsWith, Quoted;
    forall q: nat | q < 12 + |escaped| && q != 11 + |escaped| - |name|
      ensures !Occurs(json, Quoted(name), q)
    {
      OccursNowhereElse(escaped, json, rest, name, q);
    }
    hide Occurs;
    if EndsWith(KEY + escaped, "\"" + name) {
      FindSkips(json, Quoted(name), 0, 11 + |escaped| - |name|);
      FindStops(json, Quoted(name), 11 + |escaped| - |name|);
    } else {
      FindSkips(json, Quoted(name), 0, 12 + |escaped|);
    }
  }

  lemma FindStops(s: string, key: string, q: nat)
    requires q <= |s| && Occurs(s, key, q)
    ensures Find(s, key, q) == Some(q)
  {
  }

  // ------------------------------------------------- texts that look like a field

  lemma EscapeStarts(c: char)
    ensures EscapeChar(c) != "" && (EscapeChar(c)[0] == '\\' || EscapeChar(c) == [c])
    ensures c != '"' && c != '\\' && c >= ' ' ==> EscapeChar(c) == [c]
  {
  }

  predicate Plain(w: string) {
    forall i | 0 <= i < |w| :: w[i] != '"' && w[i] != '\\' && w[i] >= ' '
  }

  /** One character of the text against one of the plain word. */
  lemma PlainStep(c: char, x: string, y: string, d: char, z: string)
    requires d != '\\' && (x == z <==> y == z)
    requires EscapeChar(c) != "" && (EscapeChar(c)[0] == '\\' || EscapeChar(c) == [c])
    requires c == d ==> EscapeChar(c) == [c]
    ensures EscapeChar(c) + x == [d] + z <==> [c] + y == [d] + z
  {
    hide EscapeChar;
    assert (EscapeChar(c) + x)[0] == EscapeChar(c)[0];
    assert ([c] + x)[1..] == x && ([c] + y)[1..] == y && ([d] + z)[1..] == z;
  }

  lemma {:induction false} PlainEscape(s: string, w: string)
    requires Plain(w)
    ensures Escape(s) == w <==> s == w
  {
    if s != "" {
      hide EscapeChar;
      EscapeStarts(s[0]);
      if w != "" {
        PlainEscape(s[1..], w[1..]);
        PlainStep(s[0], Escape(s[1..]), s[1..], w[0], w[1..]);
        assert s == [s[0]] + s[1..] && w == [w[0]] + w[1..];
      }
    }
  }

  lemma {:induction false} EscapeIsLonger(s: string)
    ensures |Escape(s)| >= |s|
  {
    if s != "" {
      EscapeIsLonger(s[1..]);
    }
  }

  lemma TailOfBoth(head: string, rest: string, tail: string)
    requires |rest| >= |tail|
    ensures EndsWith(head + rest, tail) <==> EndsWith(rest, tail)
  {
    assert (head + rest)[|head + rest| - |tail|..] == rest[|rest| - |tail|..];
  }

  /** Escaped text ends with a quote and a plain name exactly when the text does. */
  lemma {:induction false} EscapedTail(s: string, name: string)
    requires Plain(name)
    ensures EndsWith(Escape(s), "\"" + name) <==> EndsWith(s, "\"" + name)
  {
    hide EscapeChar, EndsWith;
    var tail := "\"" + name;
    if s == "" {
      NoTail(tail);
    } else {
      var head, rest := EscapeChar(s[0]), Escape(s[1..]);
      EscapeIsLonger(s[1..]);
      assert s == [s[0]] + s[1..];
      if |s[1..]| >= |tail| {
        EscapedTail(s[1..], name);
        TailOfBoth(head, rest, tail);
        TailOfBoth([s[0]], s[1..], tail);
      } else if |rest| >= |tail| {
        EscapedTail(s[1..], name);
        TailOfBoth(head, rest, tail);
        MiddleTail(s, name, rest);
      } else {
        PlainEscape(s[1..], name);
        ShortTail(s, name, head, rest);
      }
    }
  }

  lemma NoTail(tail: string)
    requires tail != ""
    ensures !EndsWith("", tail)
  {
  }

  /** A text as long as the tail whose rest needs escaping does not end with it. */
  lemma MiddleTail(s: string, name: string, rest: string)
    requires s != "" && rest == Escape(s[1..]) && |s[1..]| <= |name| < |rest|
    requires Plain(name)
    ensures !EndsWith(s, "\"" + name) && !EndsWith(s[1..], "\"" + name)
  {
    if EndsWith(s, "\"" + name) {
      assert s == "\"" + name && s[1..] == name;
      PlainEscape(name, name);
    }
  }

  lemma ShortTail(s: string, name: string, head: string, rest: string)
    requires s != "" && head == EscapeChar(s[0]) && rest == Escape(s[1..]) && |rest| <= |name| && |s| <= |name| + 1
    requires rest == name <==> s[1..] == name
    ensures EndsWith(head + rest, "\"" + name) <==> EndsWith(s, "\"" + name)
  {
    var tail, all := "\"" + name, head + rest;
    if EndsWith(all, tail) {
      var at := |all| - |tail|;
      assert all[at] == tail[0] == '"';
      assert all[at] == head[at];
      QuoteEndsEscape(s[0], at);
      assert rest == all[|head|..] == tail[1..] == name;
      assert s == [s[0]] + s[1..];
    }
    if EndsWith(s, tail) {
      assert s == tail && s[1..] == name;
      assert all == "\\\"" + name;
    }
  }

  lemma QuoteEndsEscape(c: char, i: nat)
    requires i < |EscapeChar(c)| && EscapeChar(c)[i] == '"'
    ensures c == '"' && i == 1 && |EscapeChar(c)| == 2
  {
  }

  lemma MimicsLong(e: string, tail: string)
    requires |e| >= |tail|
    ensures EndsWith(KEY + e, tail) <==> EndsWith(e, tail)
  {
    assert (KEY + e)[12 + |e| - |tail|..] == e[|e| - |tail|..];
  }

  lemma MimicsWhole(e: string, name: string)
    requires |e| == |name|
    ensures EndsWith(KEY + e, "\"" + name) <==> e == name
  {
    assert (KEY + e)[11..] == "\"" + e;
    assert ("\"" + e)[1..] == e && ("\"" + name)[1..] == name;
  }

  lemma MimicsShort(e: string, name: string)
    requires |e| < |name| && forall i | 0 <= i < |name| :: name[i] != '"'
    ensures !EndsWith(KEY + e, "\"" + name)
  {
    var all, tail := KEY + e, "\"" + name;
    if |all| >= |tail| {
      var j := 11 - (|all| - |tail|);
      EndsAt(all, tail, j);
      assert all[11] == '"' && tail[j] == name[j - 1];
    }
  }

  lemma EndsAt(s: string, t: string, j: nat)
    requires |s| >= |t| > j
    ensures EndsWith(s, t) ==> s[|s| - |t| + j] == t[j]
  {
    assert s[|s| - |t|..][j] == s[|s| - |t| + j];
  }

  /** A rendered text looks like a field exactly when it mimics it. */
  lemma MimicsInRendering(text: string, name: string)
    requires LongName(name) && forall i | 0 <= i < |name| :: name[i] >= ' '
    ensures EndsWith(KEY + Escape(text), "\"" + name) <==> Mimics(text, name)
  {
    var e, tail := Escape(text), "\"" + name;
    EscapedTail(text, name);
    PlainEscape(text, name);
    EscapeIsLonger(text);
    MimicsIs(text, name);
    hide EndsWith, Escape, Mimics;
    if |e| > |name| {
      MimicsLong(e, tail);
    } else if |e| == |name| {
      MimicsWhole(e, name);
    } else {
      MimicsShort(e, name);
    }
  }

  lemma MimicsIs(text: string, name: string)
    ensures Mimics(text, name) <==> text == name || EndsWith(text, "\"" + name)
    ensures EndsWith(text, "\"" + name) ==> |text| > |name|
  {
  }

  // ------------------------------------------------------ after the content

  /** What a rendered event holds from the closing quote of its content on. */
  const FIRST := "\",\"tokens_predicted\":"
  const SECOND := ",\"tokens_evaluated\":"

  function Rest(n: nat, m: nat): string {
    FIRST + (Decimal(n) + (SECOND + (Decimal(m) + "}")))
  }

  lemma Regroup(a: string, q: string, e: string, b: string, x: string, c: string, y: string, z: string)
    ensures a + (q + e + q) + (b + x) + (c + y) + z == (a + q) + e + ((q + b) + (x + (c + (y + z))))
  {
    assert a + (q + e + q) == (a + q) + e + q;
    assert q + (b + x) == (q + b) + x;
    var head := (a + q) + e;
    assert head + q + (b + x) == head + ((q + b) + x);
    assert (q + b) + x + (c + y) + z == (q + b) + (x + (c + (y + z)));
    assert head + ((q + b) + x) + (c + y) + z == head + ((q + b) + x + (c + y) + z);
  }

  lemma RenderedShape(c: Counted)
    ensures Rendered(c) == KEY + Escape(c.text) + Rest(c.predicted, c.evaluated)
    ensures Rest(c.predicted, c.evaluated) == "\"" + Rest(c.predicted, c.evaluated)[1..]
  {
    hide Escape, Decimal;
    Regroup("{\"content\":", "\"", Escape(c.text), ",\"tokens_predicted\":", Decimal(c.predicted), SECOND, Decimal(c.evaluated), "}");
    Constants();
    FieldsAre(c);
  }

  lemma Constants()
    ensures "{\"content\":" + "\"" == KEY && "\"" + ",\"tokens_predicted\":" == FIRST
    ensures |FIRST| == 21 && |SECOND| == 20 && FIRST[0] == '"'
    ensures FIRST[2..] == Quoted(PREDICTED) + ":" && SECOND[1..] == Quoted(EVALUATED) + ":"
  {
    hide Quoted;
    FirstName();
    SecondName();
  }

  lemma FirstName()
    ensures FIRST[2..] == Quoted(PREDICTED) + ":"
  {
  }

  lemma SecondName()
    ensures SECOND[1..] == Quoted(EVALUATED) + ":"
  {
  }

  lemma FieldNames()
    ensures ",\"" + PREDICTED + "\":" == ",\"tokens_predicted\":"
    ensures ",\"" + EVALUATED + "\":" == SECOND
  {
  }

  lemma FieldsAre(c: Counted)
    ensures Field(PREDICTED, c.predicted) == ",\"tokens_predicted\":" + Decimal(c.predicted)
    ensures Field(EVALUATED, c.evaluated) == SECOND + Decimal(c.evaluated)
  {
    hide Decimal;
    FieldNames();
  }

  lemma OccursShift(a: string, b: string, key: string, k: nat)
    requires k <= |b|
    ensures Occurs(a + b, key, |a| + k) == Occurs(b, key, k)
  {
    assert (a + b)[|a| + k..] == b[k..];
  }

  lemma {:induction false} FindShift(a: string, b: string, key: string, k: nat)
    requires k <= |b|
    ensures Find(a + b, key, |a| + k)
         == if Find(b, key, k).None? then None else Some(|a| + Find(b, key, k).value)
    decreases |b| - k
  {
    hide Find, Occurs;
    var s := a + b;
    assert |s| == |a| + |b|;
    FindUnfolds(s, key, |a| + k);
    FindUnfolds(b, key, k);
    OccursShift(a, b, key, k);
    if k < |b| {
      FindShift(a, b, key, k + 1);
    } else {
      FindBeyond(s, key, |a| + k + 1);
      FindBeyond(b, key, k + 1);
    }
  }

  lemma FindUnfolds(s: string, key: string, k: nat)
    requires k <= |s|
    ensures Find(s, key, k) == if Occurs(s, key, k) then Some(k) else Find(s, key, k + 1)
  {
  }

  lemma FindBeyond(s: string, key: string, k: nat)
    requires k > |s|
    ensures Find(s, key, k) == None
  {
  }

  lemma OccursMeans(s: string, key: string, q: nat)
    requires q <= |s|
    ensures Occurs(s, key, q) ==> forall j | 0 <= j < |key| :: q + j < |s| && s[q + j] == key[j]
  {
    assert forall j | 0 <= j < |s| - q :: s[q..][j] == s[q + j];
  }

  lemma PrefixOccurs(s: string, key: string, q: nat, tail: string)
    requires q <= |s| && s[q..] == key + tail
    ensures Occurs(s, key, q) && Find(s, key, q) == Some(q)
  {
  }

  lemma NoQuoteNoName(s: string, name: string, q: nat)
    requires q < |s| && (s[q] != '"' || (q + 1 < |s| && name != "" && s[q + 1] != name[0]))
    ensures !Occurs(s, Quoted(name), q)
  {
    OccursMeans(s, Quoted(name), q);
    assert Quoted(name)[0] == '"';
    if name != "" {
      assert Quoted(name)[1] == name[0];
    }
    hide Occurs, Quoted;
  }

  lemma RestChars(n: nat, m: nat, q: nat)
    requires q < 21 + |Decimal(n)|
    ensures q < |Rest(n, m)|
    ensures Rest(n, m)[q] == if q < 21 then FIRST[q] else Decimal(n)[q - 21]
  {
    hide Decimal;
  }

  lemma FirstQuotes(q: nat)
    requires q < 21
    ensures FIRST[q] == '"' <==> q == 0 || q == 2 || q == 19
  {
  }

  lemma FindPredicted(n: nat, m: nat)
    ensures Find(Rest(n, m), Quoted(PREDICTED), 0) == Some(2)
  {
    hide Decimal, Quoted, Occurs, Find;
    var u := Rest(n, m);
    var more := Decimal(n) + (SECOND + (Decimal(m) + "}"));
    Constants();
    forall q: nat | q < 2
      ensures !Occurs(u, Quoted(PREDICTED), q)
    {
      RestChars(n, m, q);
      RestChars(n, m, q + 1);
      NoQuoteNoName(u, PREDICTED, q);
    }
    FindSkips(u, Quoted(PREDICTED), 0, 2);
    TailOfSum(FIRST, more, 2);
    assert Quoted(PREDICTED) + ":" + more == Quoted(PREDICTED) + (":" + more);
    PrefixOccurs(u, Quoted(PREDICTED), 2, ":" + more);
  }

  lemma TailOfSum(a: string, b: string, k: nat)
    requires k <= |a|
    ensures (a + b)[k..] == a[k..] + b
  {
  }

  lemma NoEvaluatedEarlier(n: nat, m: nat, q: nat)
    requires q < 22 + |Decimal(n)|
    ensures q < |Rest(n, m)| && !Occurs(Rest(n, m), Quoted(EVALUATED), q)
  {
    var u := Rest(n, m);
    DecimalIsDigits(n);
    hide Decimal;
    if q < 21 {
      RestChars(n, m, q);
      FirstQuotes(q);
      if q == 2 {
        RestChars(n, m, 10);
        NotThere(u);
      } else {
        if q + 1 < 21 {
          RestChars(n, m, q + 1);
        }
        NoQuoteNoName(u, EVALUATED, q);
      }
    } else if q < 21 + |Decimal(n)| {
      RestChars(n, m, q);
      NoQuoteNoName(u, EVALUATED, q);
    } else {
      assert u[q] == SECOND[0];
      NoQuoteNoName(u, EVALUATED, q);
    }
  }

  lemma NotThere(u: string)
    requires |u| > 10 && u[10] == 'p'
    ensures !Occurs(u, Quoted(EVALUATED), 2)
  {
    OccursMeans(u, Quoted(EVALUATED), 2);
    assert Quoted(EVALUATED)[8] == 'e';
  }

  lemma FindEvaluated(n: nat, m: nat)
    ensures Find(Rest(n, m), Quoted(EVALUATED), 0) == Some(22 + |Decimal(n)|)
  {
    hide Decimal, Quoted, Occurs, Find, Rest;
    var u, at, more := Rest(n, m), 22 + |Decimal(n)|, Decimal(m) + "}";
    Constants();
    SecondPart(n, m);
    forall q: nat | q < at
      ensures q < |u| && !Occurs(u, Quoted(EVALUATED), q)
    {
      NoEvaluatedEarlier(n, m, q);
    }
    FindSkips(u, Quoted(EVALUATED), 0, at);
    assert u[at..] == u[at - 1..][1..];
    TailOfSum(SECOND, more, 1);
    assert Quoted(EVALUATED) + ":" + more == Quoted(EVALUATED) + (":" + more);
    PrefixOccurs(u, Quoted(EVALUATED), at, ":" + more);
  }

  lemma SecondPart(n: nat, m: nat)
    ensures Rest(n, m)[21..] == Decimal(n) + (SECOND + (Decimal(m) + "}"))
    ensures Rest(n, m)[21 + |Decimal(n)|..] == SECOND + (Decimal(m) + "}")
    ensures Rest(n, m)[41 + |Decimal(n)|..] == Decimal(m) + "}"
    ensures |Rest(n, m)| == 42 + |Decimal(n)| + |Decimal(m)|
  {
    hide Decimal;
  }

  lemma {:induction false} ColonAfter(u: string, from: nat, at: nat)
    requires from <= at < |u| && u[at] == ':' && NoColon(u, from, at)
    ensures Find(u, ":", from) == Some(at)
    decreases at - from
  {
    FindCharStep(u, ':', from);
    if from < at {
      ColonAfter(u, from + 1, at);
    }
  }

  /** The number after the colon at or behind position `from`. */
  lemma NumberAt(json: string, a: string, u: string, from: nat, at: nat, n: nat, rest: string)
    requires json == a + u && from <= at < |u| && u[at] == ':' && NoColon(u, from, at)
    requires u[at + 1..] == Decimal(n) + rest && NoDigitFirst(rest) && n < 0x8000_0000
    ensures Find(json, ":", |a| + from) == Some(|a| + at)
    ensures SkipSpaces(json, |a| + at + 1) == |a| + at + 1 <= |json|
    ensures ParseLong(json[|a| + at + 1..]) == Some(n) && ToInt32(n) == n
  {
    ColonAfter(u, from, at);
    FindShift(a, u, ":", from);
    DecimalIsDigits(n);
    hide Decimal, ParseLong, Find;
    PositiveIsRead(n, rest);
    assert json[|a| + at + 1..] == u[at + 1..];
    assert json[|a| + at + 1] == u[at + 1..][0] == Decimal(n)[0];
  }

  predicate NoColon(u: string, from: nat, to: nat) {
    to <= |u| && forall q | from <= q < to :: u[q] != ':'
  }

  lemma FirstColon(n: nat, m: nat)
    ensures |Rest(n, m)| > 20 && Rest(n, m)[20] == ':' && forall q | 0 <= q < 20 :: Rest(n, m)[q] != ':'
    ensures Rest(n, m)[21..] == Decimal(n) + (SECOND + (Decimal(m) + "}"))
    ensures NoDigitFirst(SECOND + (Decimal(m) + "}"))
  {
    hide Decimal;
    FirstColonIs();
    SecondPart(n, m);
    assert (SECOND + (Decimal(m) + "}"))[0] == ',';
  }

  lemma FirstColonIs()
    ensures |FIRST| == 21 && FIRST[20] == ':' && forall q | 0 <= q < 20 :: FIRST[q] != ':'
  {
  }

  lemma LastColon(n: nat, m: nat)
    ensures var at := 40 + |Decimal(n)|;
            && |Rest(n, m)| > at && Rest(n, m)[at] == ':' && Rest(n, m)[at + 1..] == Decimal(m) + "}"
  {
    hide Decimal;
    SecondPart(n, m);
    assert Rest(n, m)[40 + |Decimal(n)|] == Rest(n, m)[21 + |Decimal(n)|..][19] == SECOND[19] == ':';
  }

  lemma QuotedIs(name: string)
    ensures Quoted(name) == "\"" + name + "\""
  {
  }

  lemma ValueStartAt(json: string, name: string, p: nat, colon: nat)
    requires Find(json, "\"" + name + "\"", 0) == Some(p) && Find(json, ":", p + |name| + 2) == Some(colon)
    requires SkipSpaces(json, colon + 1) == colon + 1
    ensures ValueStart(json, name) == Some(colon + 1)
  {
    hide Find, SkipSpaces;
  }

  lemma IntFieldFrom(json: string, name: string, start: nat, value: int)
    requires ValueStart(json, name) == Some(start) && start <= |json| && ParseLong(json[start..]) == Some(value)
    ensures IntField(json, name) == Some(ToInt32(value))
  {
    hide ValueStart, ParseLong, ToInt32;
  }

  lemma FieldByPosition(json: string, a: string, u: string, name: string, p: nat, from: nat, at: nat, n: nat, rest: string)
    requires json == a + u && Find(json, Quoted(name), 0) == Some(p) && p + |name| + 2 == |a| + from
    requires from <= at < |u| && u[at] == ':' && NoColon(u, from, at)
    requires u[at + 1..] == Decimal(n) + rest && NoDigitFirst(rest) && n < 0x8000_0000
    ensures IntField(json, name) == Some(n)
  {
    hide *;
    NumberAt(json, a, u, from, at, n, rest);
    FieldFound(json, name, p, |a| + at, n);
  }

  lemma FieldFound(json: string, name: string, p: nat, colon: nat, n: nat)
    requires Find(json, Quoted(name), 0) == Some(p) && Find(json, ":", p + |name| + 2) == Some(colon)
    requires SkipSpaces(json, colon + 1) == colon + 1 <= |json|
    requires ParseLong(json[colon + 1..]) == Some(n) && ToInt32(n) == n
    ensures IntField(json, name) == Some(n)
  {
    hide *;
    QuotedIs(name);
    ValueStartAt(json, name, p, colon);
    IntFieldFrom(json, name, colon + 1, n);
  }

  lemma SearchInRendering(c: Counted, name: string)
    requires LongName(name) && forall i | 0 <= i < |name| :: name[i] >= ' '
    ensures var a, u := KEY + Escape(c.text), Rest(c.predicted, c.evaluated);
            && Rendered(c) == a + u
            && Find(a + u, Quoted(name), 0)
               == (if Mimics(c.text, name) then Some(|a| - |name| - 1)
                   else if Find(u, Quoted(name), 0).None? then None else Some(|a| + Find(u, Quoted(name), 0).value))
            && (Mimics(c.text, name) ==> |a| > |name|)
  {
    hide *;
    var e, u := Escape(c.text), Rest(c.predicted, c.evaluated);
    EscapeIsTame(c.text);
    RenderedShape(c);
    MimicsInRendering(c.text, name);
    KeyIsTwelve();
    EndsIsLonger(KEY + e, "\"" + name);
    Glue(KEY + e, u);
    SearchToClose(e, KEY + e + u, u[1..], name);
    FindShift(KEY + e, u, Quoted(name), 0);
  }

  lemma KeyIsTwelve()
    ensures |KEY| == 12
  {
  }

  lemma Glue(a: string, u: string)
    requires u != "" && u == "\"" + u[1..]
    ensures a + u == a + "\"" + u[1..]
  {
  }

  lemma EndsIsLonger(s: string, t: string)
    ensures EndsWith(s, t) ==> |s| >= |t|
  {
  }

  lemma NamesAreLong()
    ensures |PREDICTED| == 16 && LongName(PREDICTED) && forall i | 0 <= i < |PREDICTED| :: PREDICTED[i] >= ' '
    ensures |EVALUATED| == 16 && LongName(EVALUATED) && forall i | 0 <= i < |EVALUATED| :: EVALUATED[i] >= ' '
  {
  }

  /** The predicted count is always read back. */
  lemma PredictedIsRead(c: Counted)
    requires Fits(c)
    ensures IntField(Rendered(c), PREDICTED) == Some(c.predicted)
  {
    hide Escape, Decimal, Rest, Rendered, Mimics, LongName, Find, Quoted, IntField, NoDigitFirst;
    var a, u := KEY + Escape(c.text), Rest(c.predicted, c.evaluated);
    NamesAreLong();
    SearchInRendering(c, PREDICTED);
    FindPredicted(c.predicted, c.evaluated);
    FirstColon(c.predicted, c.evaluated);
    var rest := SECOND + (Decimal(c.evaluated) + "}");
    if Mimics(c.text, PREDICTED) {
      FieldByPosition(a + u, a, u, PREDICTED, |a| - 17, 1, 20, c.predicted, rest);
    } else {
      FieldByPosition(a + u, a, u, PREDICTED, |a| + 2, 20, 20, c.predicted, rest);
    }
  }

  /** The evaluated count is read back, unless the text mimics its name: then the predicted one is read. */
  lemma EvaluatedIsRead(c: Counted)
    requires Fits(c)
    ensures IntField(Rendered(c), EVALUATED) == Some(if Mimics(c.text, EVALUATED) then c.predicted else c.evaluated)
  {
    hide Escape, Decimal, Rest, Rendered, Mimics, LongName, Find, Quoted, IntField;
    var a, u := KEY + Escape(c.text), Rest(c.predicted, c.evaluated);
    NamesAreLong();
    SearchInRendering(c, EVALUATED);
    FindEvaluated(c.predicted, c.evaluated);
    FirstColon(c.predicted, c.evaluated);
    LastColon(c.predicted, c.evaluated);
    if Mimics(c.text, EVALUATED) {
      FieldByPosition(a + u, a, u, EVALUATED, |a| - 17, 1, 20, c.predicted, SECOND + (Decimal(c.evaluated) + "}"));
    } else {
      var at := 40 + |Decimal(c.predicted)|;
      FieldByPosition(a + u, a, u, EVALUATED, |a| + 22 + |Decimal(c.predicted)|, at, at, c.evaluated, "}");
    }
  }

  // ----------------------------------------------------------- whole events

  lemma ContentIsRead(c: Counted)
    ensures StringField(Rendered(c), "content") == Some(Seen(c.text))
  {
    hide Find, ReadString, Escape, Seen, Rest, Rendered, SkipSpaces;
    RenderedShape(c);
    var json, u := Rendered(c), Rest(c.predicted, c.evaluated);
    assert json == KEY + Escape(c.text) + u && |KEY| == 12;
    KeyIsFirst(json, Escape(c.text) + u);
    ContentValue(json);
    assert json[12..] == Escape(c.text) + "\"" + u[1..];
    ReadEscape(c.text, u[1..]);
  }

  lemma KeyIsFirst(json: string, rest: string)
    requires json == KEY + rest && rest != ""
    ensures Find(json, "\"" + "content" + "\"", 0) == Some(1)
    ensures |json| > 12 && json[10] == ':' && json[11] == '"'
  {
    var key := "\"" + "content" + "\"";
    assert json[0] == '{' && key[0] == '"';
    assert !(key <= json[0..]) by {
      assert json[0..][0] == '{';
    }
    assert json[1..][..9] == key;
  }

  /** One rendered event: its content as the reader sees it, its predicted count, and its evaluated count - or the
      predicted one again, when the text mimics the name of that field. */
  lemma CountedChunk(c: Counted)
    requires Fits(c)
    ensures Trim(Rendered(c)) == Rendered(c) && Rendered(c) != "" && Rendered(c) != "[DONE]"
    ensures ParseChunk(Rendered(c))
         == Chunk(false, true, Seen(c.text), c.predicted, if Mimics(c.text, EVALUATED) then c.predicted else c.evaluated)
  {
    hide Escape, Decimal, Rest, Mimics, IntField, StringField, Seen, Find, Rendered, Trim;
    RenderedIsTrimmed(c);
    ContentIsRead(c);
    PredictedIsRead(c);
    EvaluatedIsRead(c);
  }

  lemma RenderedIsTrimmed(c: Counted)
    ensures Trim(Rendered(c)) == Rendered(c) && Rendered(c) != "" && Rendered(c) != "[DONE]"
    ensures Rendered(c)[0] == '{' && Rendered(c)[|Rendered(c)| - 1] == '}'
  {
    hide Escape, Decimal, Field;
    assert Rendered(c)[0] == '{' && Rendered(c)[|Rendered(c)| - 1] == '}';
    TrimmedIsFixed(Rendered(c));
  }

  // ----------------------------------------------------------- whole streams

  function CountedLine(c: Counted): string {
    "data: " + Rendered(c)
  }

  /** One event per item, each closed by an empty line. */
  function CountedBody(cs: seq<Counted>): string {
    if cs == [] then "" else CountedLine(cs[0]) + "\n\n" + CountedBody(cs[1..])
  }

  lemma LineIsTrimmed(c: Counted)
    ensures Trim(CountedLine(c)) == CountedLine(c) && StartsWith(CountedLine(c), DATA)
    ensures Trim(CountedLine(c)[|DATA|..]) == Rendered(c)
  {
    hide Rendered;
    RenderedIsTrimmed(c);
    var r, line := Rendered(c), CountedLine(c);
    TrimmedIsFixed(line);
    assert line[..5] == DATA && line[5..] == " " + r;
    assert (" " + r)[1..] == r;
    assert TrimLeft(" " + r) == TrimLeft(r);
  }

  /** The text as the reader takes it, and the counts it leaves behind. */
  function Read(c: Completion, item: Counted): Completion {
    Completion(c.content + Seen(item.text), item.predicted,
               if Mimics(item.text, EVALUATED) then item.predicted else item.evaluated, c.streamChunks + 1)
  }

  lemma CountedLineIsRead(c: Completion, item: Counted)
    requires Fits(item)
    ensures BatchLine(c, CountedLine(item)) == Read(c, item) && BatchLine(c, "") == c
  {
    hide Rendered, CountedLine, ParseChunk, Seen, Mimics, Trim;
    LineIsTrimmed(item);
    CountedChunk(item);
    TrimmedIsFixed("");
    MergesAs(c.(streamChunks := c.streamChunks + 1), Rendered(item));
  }

  lemma MergesAs(c: Completion, json: string)
    ensures var k := ParseChunk(json);
            !k.done && k.hasContent && k.tokensPredicted >= 0 && k.tokensEvaluated >= 0 ==>
              Merge(c, json) == Completion(c.content + k.content, k.tokensPredicted, k.tokensEvaluated, c.streamChunks)
  {
    hide ParseChunk;
  }

  lemma {:induction false} DecimalHasNoNewline(n: nat)
    ensures forall i | 0 <= i < |Decimal(n)| :: Decimal(n)[i] != '\n'
  {
    DecimalIsDigits(n);
  }

  predicate NoNewline(s: string) {
    forall i | 0 <= i < |s| :: s[i] != '\n'
  }

  lemma NoNewlineInBoth(a: string, b: string)
    requires NoNewline(a) && NoNewline(b)
    ensures NoNewline(a + b)
  {
  }

  lemma LineHasNoNewline(c: Counted)
    ensures forall i | 0 <= i < |CountedLine(c)| :: CountedLine(c)[i] != '\n'
  {
    EscapeIsTame(c.text);
    RenderedShape(c);
    DecimalHasNoNewline(c.predicted);
    DecimalHasNoNewline(c.evaluated);
    hide Escape, Decimal, Rendered;
    var more := Decimal(c.evaluated) + "}";
    NoNewlineInBoth(Decimal(c.evaluated), "}");
    NoNewlineInBoth(SECOND, more);
    NoNewlineInBoth(Decimal(c.predicted), SECOND + more);
    NoNewlineInBoth(FIRST, Decimal(c.predicted) + (SECOND + more));
    NoNewlineInBoth(KEY, Escape(c.text));
    NoNewlineInBoth(KEY + Escape(c.text), Rest(c.predicted, c.evaluated));
    NoNewlineInBoth("data: ", Rendered(c));
    assert NoNewline(CountedLine(c));
  }

  lemma CountedBodyLines(c: Counted, rest: string)
    ensures Lines(CountedLine(c) + "\n\n" + rest) == [CountedLine(c), ""] + Lines(rest)
  {
    LineHasNoNewline(c);
    hide CountedLine, Lines;
    LineThenRest(CountedLine(c), "\n" + rest);
    LineThenRest("", rest);
    assert CountedLine(c) + "\n\n" + rest == CountedLine(c) + "\n" + ("\n" + rest);
    assert "" + "\n" + rest == "\n" + rest;
  }

  function Texts(cs: seq<Counted>): seq<string>
  {
    if cs == [] then [] else [cs[0].text] + Texts(cs[1..])
  }

  /** What a stream of such events leaves behind, from a completion `c` on. */
  function ReadAll(c: Completion, cs: seq<Counted>): Completion
    decreases |cs|
  {
    if cs == [] then c else ReadAll(Read(c, cs[0]), cs[1..])
  }

  lemma {:induction false} CountedBodyIsRead(c: Completion, cs: seq<Counted>)
    requires forall i | 0 <= i < |cs| :: Fits(cs[i])
    ensures BatchLines(c, Lines(CountedBody(cs))) == ReadAll(c, cs)
    decreases |cs|
  {
    hide CountedLine, BatchLine, Read, Fits;
    if cs != [] {
      var rest := Lines(CountedBody(cs[1..]));
      CountedBodyLines(cs[0], CountedBody(cs[1..]));
      CountedLineIsRead(c, cs[0]);
      TwoLines(c, CountedLine(cs[0]), rest);
      CountedLineIsRead(Read(c, cs[0]), cs[0]);
      CountedBodyIsRead(Read(c, cs[0]), cs[1..]);
    } else {
      assert Lines("") == [];
    }
  }

  lemma TwoLines(c: Completion, line: string, rest: seq<string>)
    ensures BatchLines(c, [line, ""] + rest) == BatchLines(BatchLine(BatchLine(c, line), ""), rest)
  {
    hide BatchLine;
    assert ([line, ""] + rest)[1..] == [""] + rest && ([""] + rest)[1..] == rest;
  }

  lemma {:induction false} ReadAllIs(c: Completion, cs: seq<Counted>)
    ensures var r := ReadAll(c, cs);
            && r.content == c.content + AllSeen(Texts(cs)) && r.streamChunks == c.streamChunks + |cs|
            && (cs != [] ==>
                  var last := cs[|cs| - 1];
                  && r.tokensPredicted == last.predicted
                  && r.tokensEvaluated == if Mimics(last.text, EVALUATED) then last.predicted else last.evaluated)
    decreases |cs|
  {
    hide Seen, Mimics;
    if cs != [] {
      ReadAllIs(Read(c, cs[0]), cs[1..]);
      var more := AllSeen(Texts(cs[1..]));
      assert Texts(cs)[1..] == Texts(cs[1..]);
      assert c.content + Seen(cs[0].text) + more == c.content + (Seen(cs[0].text) + more);
    }
  }

  /** A stream of events with counts gives back their texts, one chunk each, the last predicted count, and the last
      evaluated count exactly when the last text does not mimic that field's name, or the counts are equal. */
  lemma CountsTheorem(cs: seq<Counted>)
    requires cs != [] && forall i | 0 <= i < |cs| :: Fits(cs[i])
    ensures var r, last := ParsedCompletion(CountedBody(cs), true), cs[|cs| - 1];
            && r.content == AllSeen(Texts(cs)) && r.streamChunks == |cs|
            && r.tokensPredicted == last.predicted
            && (r.tokensEvaluated == last.evaluated <==> !Mimics(last.text, EVALUATED) || last.predicted == last.evaluated)
  {
    hide Mimics, AllSeen, CountedBody, Fits;
    CountedBodyIsRead(EMPTY, cs);
    ReadAllIs(EMPTY, cs);
    BatchIs(CountedBody(cs));
  }

  lemma BatchIs(body: string)
    ensures ParsedCompletion(body, true) == BatchLines(EMPTY, Lines(body))
  {
    hide BatchLines, Lines;
  }

  /** Without other control characters in the texts, content comes back unchanged. */
  lemma CountedRoundTrip(cs: seq<Counted>)
    requires cs != [] && forall i | 0 <= i < |cs| :: Fits(cs[i]) && AllRestorable(cs[i].text)
    ensures ParsedCompletion(CountedBody(cs), true).content == Joined(Texts(cs))
  {
    hide CountedBody, AllSeen, ParsedCompletion, AllRestorable;
    CountsTheorem(cs);
    TextsAt(cs);
    SeenJoins(Texts(cs));
  }

  lemma {:induction false} TextsAt(cs: seq<Counted>)
    ensures |Texts(cs)| == |cs| && forall i | 0 <= i < |cs| :: Texts(cs)[i] == cs[i].text
  {
    if cs != [] {
      TextsAt(cs[1..]);
    }
  }

  /** The text "tokens_evaluated" makes the reader take the predicted count for the evaluated one. */
  lemma MimicExample()
    ensures ParsedCompletion(CountedBody([Counted(EVALUATED, 2, 11)]), true).tokensEvaluated == 2
  {
    hide CountedBody, ParsedCompletion, AllSeen;
    var cs := [Counted(EVALUATED, 2, 11)];
    assert Mimics(EVALUATED, EVALUATED);
    CountedBodyIsRead(EMPTY, cs);
    ReadAllIs(EMPTY, cs);
    BatchIs(CountedBody(cs));
  }
}
