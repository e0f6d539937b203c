/** Rendering strings as server-sent content events and reading them back. */
module StreamFraming {
  import opened Json
  import opened LlamaStream

  function Envelope(s: string): string {
    "{\"content\":" + JsonStringValue(s) + "}"
  }

  function DataLine(s: string): string {
    "data: " + Envelope(s)
  }

  /** One event per string, each closed by an empty line. */
  function Body(ss: seq<string>): string {
    if ss == [] then "" else DataLine(ss[0]) + "\n\n" + Body(ss[1..])
  }

  // ----------------------------------------------------------- the escaper

  predicate Printable(s: string) {
    forall i | 0 <= i < |s| :: s[i] >= ' '
  }

  predicate QuotesAreEscaped(s: string) {
    forall i | 0 <= i < |s| && s[i] == '"' :: i > 0 && s[i - 1] == '\\'
  }

  /** Escaped text has no control characters, and every quote in it follows a backslash. */
  lemma {:induction false} EscapeIsTame(s: string)
    ensures Printable(Escape(s)) && QuotesAreEscaped(Escape(s))
  {
    if s != "" {
      EscapeIsTame(s[1..]);
      var head, tail := EscapeChar(s[0]), Escape(s[1..]);
      assert Printable(head) && QuotesAreEscaped(head);
      forall i | 0 <= i < |head + tail| && (head + tail)[i] == '"'
        ensures i > 0 && (head + tail)[i - 1] == '\\'
      {
        if i >= |head| {
          assert tail[i - |head|] == '"';
        }
      }
    }
  }

  // ---------------------------------------------------------- the envelope

  const KEY := "{\"content\":\""

  lemma EnvelopeShape(s: string)
    ensures Envelope(s) == KEY + Escape(s) + "\"}"
    ensures |KEY| == 12
  {
  }

  lemma FrameOfEnvelope(s: string)
    ensures |Envelope(s)| >= 14
    ensures Envelope(s)[0] == '{' && Envelope(s)[1] == '"' && Envelope(s)[9] == '"'
    ensures Envelope(s)[10] == ':' && Envelope(s)[11] == '"'
    ensures Envelope(s)[2..9] == "content"
  {
    EnvelopeShape(s);
    assert Envelope(s)[..12] == KEY;
    assert Envelope(s)[2..9] == KEY[2..9];
  }

  lemma EnvelopeKey(s: string)
    ensures Find(Envelope(s), "\"" + "content" + "\"", 0) == Some(1)
  {
    hide Escape;
    var json := Envelope(s);
    EnvelopeShape(s);
    var key := "\"" + "content" + "\"";
    assert json[0] == '{' && json[1] == '"';
    assert !(key <= json[0..]) by {
      assert json[0..][0] == '{' && key[0] == '"';
    }
    assert json[1..][..9] == key;
  }

  lemma EnvelopeTail(s: string)
    ensures |Envelope(s)| > 12 && ReadString(Envelope(s)[12..]) == Some(Seen(s))
  {
    hide Escape, Seen, ReadString;
    EnvelopeShape(s);
    assert Envelope(s)[12..] == Escape(s) + "\"" + "}";
    ReadEscape(s, "}");
  }

  /** The content field of an envelope is what the reader sees of the string. */
  lemma EnvelopeContent(s: string)
    ensures StringField(Envelope(s), "content") == Some(Seen(s))
  {
    hide Find, ReadString, Escape, Seen, Envelope, SkipSpaces;
    FrameOfEnvelope(s);
    EnvelopeKey(s);
    ContentValue(Envelope(s));
    EnvelopeTail(s);
  }

  lemma ContentValue(json: string)
    requires |json| > 12 && json[10] == ':' && json[11] == '"'
    ensures Find(json, ":", 10) == Some(10) && SkipSpaces(json, 11) == 11
  {
    assert json[10..][0] == ':';
    assert json[10..][..1] == ":";
  }

  predicate PlainName(field: string) {
    field != ":" && field != "content" && forall i | 0 <= i < |field| :: field[i] != '"' && field[i] != '\\'
  }

  /** The quotes of an envelope: those of its frame, and escaped ones. */
  lemma QuotesOfEnvelope(s: string, i: nat)
    requires i < |Envelope(s)| && Envelope(s)[i] == '"'
    ensures i == 1 || i == 9 || i == 11 || i == |Envelope(s)| - 2 || (i > 12 && Envelope(s)[i - 1] == '\\')
  {
    EnvelopeShape(s);
    EscapeIsTame(s);
    if 12 <= i < |Envelope(s)| - 2 {
      assert Envelope(s)[i] == Escape(s)[i - 12];
      assert Envelope(s)[i - 1] == Escape(s)[i - 13];
    }
  }

  lemma QuotedSlice(json: string, field: string, p: nat)
    requires p <= |json| && "\"" + field + "\"" <= json[p..]
    ensures p + |field| + 1 < |json| && json[p] == '"' && json[p + |field| + 1] == '"'
    ensures json[p + 1..p + |field| + 1] == field
  {
    var quoted := "\"" + field + "\"";
    assert forall i | 0 <= i < |quoted| :: json[p + i] == json[p..][i] == quoted[i];
    assert json[p] == quoted[0] && json[p + |field| + 1] == quoted[|field| + 1];
    assert json[p + 1..p + |field| + 1] == quoted[1..|field| + 1] == field;
  }

  /** Wherever a quoted field name occurs in an envelope, it ends at the closing quote. */
  lemma QuotedNameEndsAtClose(s: string, field: string, p: nat)
    requires PlainName(field)
    requires p <= |Envelope(s)| && "\"" + field + "\"" <= Envelope(s)[p..]
    ensures p + |field| + 1 == |Envelope(s)| - 2
  {
    var json := Envelope(s);
    var q := p + |field| + 1;
    QuotedSlice(json, field, p);
    QuotesOfEnvelope(s, q);
    QuotesOfEnvelope(s, p);
    FrameOfEnvelope(s);
    assert json[q - 1] == if |field| == 0 then '"' else field[|field| - 1];
    assert json[10..11] == [json[10]];
    assert forall k | p < k < q :: json[k] == field[k - p - 1];
  }

  /** No string can pass itself off as another field: an envelope has no integer field at all. */
  lemma EnvelopeHasNoNumbers(s: string, field: string)
    requires PlainName(field)
    ensures IntField(Envelope(s), field) == None
  {
    var json := Envelope(s);
    EnvelopeShape(s);
    var key := Find(json, "\"" + field + "\"", 0);
    if key.Some? {
      QuotedNameEndsAtClose(s, field, key.value);
      FindCharStep(json, ':', |json| - 1);
      FindCharStep(json, ':', |json|);
    }
  }

  // --------------------------------------------------------------- the lines

  lemma EnvelopeIsTrimmed(s: string)
    ensures Trim(Envelope(s)) == Envelope(s) && Trim(DataLine(s)) == DataLine(s)
    ensures Trim(DataLine(s)[|DATA|..]) == Envelope(s)
    ensures StartsWith(DataLine(s), DATA)
    ensures Envelope(s) != "" && Envelope(s) != "[DONE]"
  {
    hide Envelope, Escape;
    EnvelopeShape(s);
    TrimmedIsFixed(Envelope(s));
    TrimmedIsFixed(DataLine(s));
    assert DataLine(s)[..5] == DATA;
    assert DataLine(s)[5..] == " " + Envelope(s);
    assert (" " + Envelope(s))[1..] == Envelope(s);
    assert TrimLeft(" " + Envelope(s)) == TrimLeft(Envelope(s));
  }

  lemma EnvelopeChunk(s: string)
    ensures ParseChunk(Envelope(s)) == Chunk(false, true, Seen(s), -1, -1)
  {
    EnvelopeIsTrimmed(s);
    EnvelopeContent(s);
    hide Envelope, IntField, StringField, Trim;
    EnvelopeHasNoNumbers(s, "tokens_predicted");
    EnvelopeHasNoNumbers(s, "tokens_evaluated");
  }

  /** One rendered string counts as one chunk and adds what the reader sees of it. */
  lemma DataLineAdds(c: Completion, s: string)
    ensures BatchLine(c, DataLine(s))
         == c.(content := c.content + Seen(s), streamChunks := c.streamChunks + 1)
    ensures BatchLine(c, "") == c
  {
    EnvelopeIsTrimmed(s);
    EnvelopeChunk(s);
    hide Envelope, ParseChunk, DataLine, Seen;
  }

  lemma {:induction false} NewlineAfter(text: string, rest: string, from: nat)
    requires from <= |text| && forall i | from <= i < |text| :: text[i] != '\n'
    ensures Find(text + "\n" + rest, "\n", from) == Some(|text|)
    decreases |text| - from
  {
    var all := text + "\n" + rest;
    FindCharStep(all, '\n', from);
    if from < |text| {
      assert all[from] == text[from];
      NewlineAfter(text, rest, from + 1);
    } else {
      assert all[from] == '\n';
    }
  }

  lemma LineThenRest(text: string, rest: string)
    requires forall i | 0 <= i < |text| :: text[i] != '\n'
    ensures Lines(text + "\n" + rest) == [text] + Lines(rest)
  {
    var all := text + "\n" + rest;
    NewlineAfter(text, rest, 0);
    assert all[..|text|] == text && all[|text| + 1..] == rest;
  }

  lemma DataLineHasNoNewline(s: string)
    ensures forall i | 0 <= i < |DataLine(s)| :: DataLine(s)[i] != '\n'
  {
    EscapeIsTame(s);
    EnvelopeShape(s);
  }

  lemma BodyLines(s: string, rest: string)
    ensures Lines(DataLine(s) + "\n\n" + rest) == [DataLine(s), ""] + Lines(rest)
  {
    DataLineHasNoNewline(s);
    hide DataLine, Lines;
    LineThenRest(DataLine(s), "\n" + rest);
    LineThenRest("", rest);
    assert DataLine(s) + "\n\n" + rest == DataLine(s) + "\n" + ("\n" + rest);
    assert "" + "\n" + rest == "\n" + rest;
  }

  function AllSeen(ss: seq<string>): string {
    if ss == [] then "" else Seen(ss[0]) + AllSeen(ss[1..])
  }

  lemma {:induction false} ReadBodyFrom(c: Completion, ss: seq<string>)
    ensures BatchLines(c, Lines(Body(ss)))
         == c.(content := c.content + AllSeen(ss), streamChunks := c.streamChunks + |ss|)
    decreases |ss|
  {
    hide DataLine, Seen, BatchLine;
    if ss == [] {
      assert c.content + AllSeen(ss) == c.content;
    } else {
      var rest := Body(ss[1..]);
      BodyLines(ss[0], rest);
      DataLineAdds(c, ss[0]);
      var next := BatchLine(c, DataLine(ss[0]));
      DataLineAdds(next, ss[0]);
      var lines := [DataLine(ss[0]), ""] + Lines(rest);
      assert lines[1..][1..] == Lines(rest);
      ReadBodyFrom(next, ss[1..]);
      assert c.content + Seen(ss[0]) + AllSeen(ss[1..]) == c.content + AllSeen(ss);
    }
  }

  /** Framing: a rendered list of strings is read as one chunk per string, whose contents are what the
      reader sees of the strings, and nothing in them is taken for a token count. */
  lemma FramingTheorem(ss: seq<string>)
    ensures ParsedCompletion(Body(ss), true) == Completion(AllSeen(ss), -1, -1, |ss|)
  {
    ReadBodyFrom(EMPTY, ss);
    assert EMPTY.content + AllSeen(ss) == AllSeen(ss);
  }

  lemma {:induction false} AllSeenIsLonger(ss: seq<string>)
    ensures |AllSeen(ss)| >= |Joined(ss)|
  {
    if ss != [] {
      SeenIsLonger(ss[0]);
      AllSeenIsLonger(ss[1..]);
    }
  }

  /** The round trip restores the strings exactly when their only control characters are newline,
      carriage return and tab. */
  lemma {:induction false} RoundTripTheorem(ss: seq<string>)
    ensures ParsedCompletion(Body(ss), true).content == Joined(ss) <==>
              forall i | 0 <= i < |ss| :: AllRestorable(ss[i])
  {
    FramingTheorem(ss);
    SeenJoins(ss);
  }

  /** A string of one other control character comes back as the hexadecimal digits of its escape. */
  lemma RoundTripFails()
    ensures ParsedCompletion(Body(["\U{01}"]), true).content == "u0001" != Joined(["\U{01}"])
  {
    var s := "\U{01}";
    FramingTheorem([s]);
    hide ParsedCompletion, Body;
    var ss: seq<string> := [s];
    assert ss[1..] == [] && s[1..] == "";
    assert SeenChar(s[0]) == "u0001";
    assert Seen(s) == SeenChar(s[0]) + Seen("");
  }

  lemma {:induction false} SeenJoins(ss: seq<string>)
    ensures AllSeen(ss) == Joined(ss) <==> forall i | 0 <= i < |ss| :: AllRestorable(ss[i])
  {
    if ss != [] {
      var s, rest := ss[0], ss[1..];
      SeenJoins(rest);
      RestoredExactlyWhenRestorable(s);
      SeenIsLonger(s);
      AllSeenIsLonger(rest);
      assert ss == [s] + rest;
      if AllSeen(ss) == Joined(ss) {
        assert |Seen(s)| == |s| && |AllSeen(rest)| == |Joined(rest)|;
        assert Seen(s) == AllSeen(ss)[..|s|] == s;
        assert AllSeen(rest) == AllSeen(ss)[|s|..] == Joined(rest);
      }
      assert (forall i | 0 <= i < |ss| :: AllRestorable(ss[i]))
        <==> AllRestorable(s) && forall i | 0 <= i < |rest| :: AllRestorable(rest[i]) by {
        assert forall i | 0 <= i < |rest| :: rest[i] == ss[i + 1];
        assert forall i | 1 <= i < |ss| :: ss[i] == rest[i - 1];
      }
    }
  }
}
