/** Reading a llama-server response: the streaming path, which takes the body in whatever pieces the
    network delivers, and the batch path, which takes it whole. */
module LlamaStream {
  import opened Json

  datatype Completion = Completion(content: string, tokensPredicted: int, tokensEvaluated: int, streamChunks: int)

  datatype Chunk = Chunk(done: bool, hasContent: bool, content: string, tokensPredicted: int, tokensEvaluated: int)

  datatype Event = Event(delta: string, tokenIndex: int, streamChunks: int, tokensPredicted: int, tokensEvaluated: int)

  const EMPTY := Completion("", -1, -1, 0)

  const NO_CHUNK := Chunk(false, false, "", -1, -1)

  // ------------------------------------------------------------- one chunk

  function ParseChunk(data: string): Chunk {
    var trimmed := Trim(data);
    if trimmed == "[DONE]" then NO_CHUNK.(done := true)
    else
      var content := StringField(trimmed, "content");
      var predicted := IntField(trimmed, "tokens_predicted");
      var evaluated := IntField(trimmed, "tokens_evaluated");
      Chunk(false, content.Some?, if content.Some? then content.value else "",
            if predicted.Some? then predicted.value else -1,
            if evaluated.Some? then evaluated.value else -1)
  }

  method ParseLlamaServerChunk(data: string) returns (chunk: Chunk)
    ensures chunk == ParseChunk(data)
  {
    chunk := NO_CHUNK;
    var trimmed := Trim(data);
    if trimmed == "[DONE]" {
      return chunk.(done := true);
    }
    var content := ExtractJsonStringField(trimmed, "content");
    if content.Some? {
      chunk := chunk.(hasContent := true, content := content.value);
    }
    var predicted := ExtractJsonIntField(trimmed, "tokens_predicted");
    if predicted.Some? {
      chunk := chunk.(tokensPredicted := predicted.value);
    }
    var evaluated := ExtractJsonIntField(trimmed, "tokens_evaluated");
    if evaluated.Some? {
      chunk := chunk.(tokensEvaluated := evaluated.value);
    }
  }

  function Count(c: Completion, chunk: Chunk): Completion {
    c.(tokensPredicted := if chunk.tokensPredicted >= 0 then chunk.tokensPredicted else c.tokensPredicted,
       tokensEvaluated := if chunk.tokensEvaluated >= 0 then chunk.tokensEvaluated else c.tokensEvaluated)
  }

  function Merge(c: Completion, json: string): Completion {
    var chunk := ParseChunk(json);
    if chunk.done then c
    else Count(if chunk.hasContent then c.(content := c.content + chunk.content) else c, chunk)
  }

  method MergeLlamaServerJsonChunk(json: string, c: Completion) returns (r: Completion)
    ensures r == Merge(c, json)
  {
    var chunk := ParseLlamaServerChunk(json);
    r := c;
    if chunk.done {
      return;
    }
    if chunk.hasContent {
      r := r.(content := r.content + chunk.content);
    }
    if chunk.tokensPredicted >= 0 {
      r := r.(tokensPredicted := chunk.tokensPredicted);
    }
    if chunk.tokensEvaluated >= 0 {
      r := r.(tokensEvaluated := chunk.tokensEvaluated);
    }
  }

  // -------------------------------------------------------------- the batch

  /** The lines `std::getline` yields: an unterminated last line counts, an empty one does not. */
  function Lines(body: string): seq<string>
    decreases |body|
  {
    if body == "" then []
    else
      var newline := Find(body, "\n", 0);
      if newline.None? then [body]
      else [body[..newline.value]] + Lines(body[newline.value + 1..])
  }

  const DATA := "data:"

  function BatchLine(c: Completion, raw: string): Completion {
    var line := Trim(raw);
    if !StartsWith(line, DATA) then c
    else
      var data := Trim(line[|DATA|..]);
      if data == "" || data == "[DONE]" then c
      else Merge(c.(streamChunks := c.streamChunks + 1), data)
  }

  function BatchLines(c: Completion, lines: seq<string>): Completion
    decreases |lines|
  {
    if lines == [] then c else BatchLines(BatchLine(c, lines[0]), lines[1..])
  }

  function ParsedCompletion(body: string, stream: bool): Completion {
    if stream then BatchLines(EMPTY, Lines(body)) else Merge(EMPTY, body)
  }

  method ParseLlamaServerCompletion(body: string, stream: bool) returns (c: Completion)
    ensures c == ParsedCompletion(body, stream)
  {
    hide Find, Trim, ParseChunk;
    c := EMPTY;
    if !stream {
      c := MergeLlamaServerJsonChunk(body, c);
      return;
    }
    var rest := body;
    while rest != ""
      invariant BatchLines(c, Lines(rest)) == BatchLines(EMPTY, Lines(body))
      decreases |rest|
    {
      var newline := Find(rest, "\n", 0);
      var line := if newline.None? then rest else rest[..newline.value];
      assert Lines(rest) == [line] + Lines(if newline.None? then "" else rest[newline.value + 1..]);
      rest := if newline.None? then "" else rest[newline.value + 1..];
      line := Trim(line);
      if StartsWith(line, DATA) {
        var data := Trim(line[|DATA|..]);
        if data != "" && data != "[DONE]" {
          c := c.(streamChunks := c.streamChunks + 1);
          c := MergeLlamaServerJsonChunk(data, c);
        }
      }
    }
  }

  // ------------------------------------------------------------- the stream

  /** What the streaming callback has produced so far. */
  datatype Progress = Progress(completion: Completion, tokenIndex: int, events: seq<Event>)

  const START := Progress(EMPTY, 0, [])

  /** One line of the stream; the flag says whether to go on.  `accepts(n)` is what the caller's
      `emit` answers to the event number `n`. */
  function StreamLine(p: Progress, raw: string, accepts: nat -> bool): (Progress, bool) {
    var line := Trim(raw);
    if !StartsWith(line, DATA) then (p, true)
    else
      var data := Trim(line[|DATA|..]);
      if data == "" || ParseChunk(data).done then (p, true)
      else
        var chunk := ParseChunk(data);
        var counted := Count(p.completion.(streamChunks := p.completion.streamChunks + 1), chunk);
        if !chunk.hasContent then (p.(completion := counted), true)
        else
          var c := counted.(content := counted.content + chunk.content);
          var event := Event(chunk.content, p.tokenIndex, c.streamChunks, c.tokensPredicted, c.tokensEvaluated);
          (Progress(c, p.tokenIndex + 1, p.events + [event]), accepts(|p.events|))
  }

  /** The stream's lines up to the first refused event. */
  function StreamLines(p: Progress, lines: seq<string>, accepts: nat -> bool): (Progress, bool)
    decreases |lines|
  {
    if lines == [] then (p, true)
    else
      var (next, go) := StreamLine(p, lines[0], accepts);
      if go then StreamLines(next, lines[1..], accepts) else (next, false)
  }

  /** Consumes the complete lines of `text`; what is left stays pending. */
  function Drain(p: Progress, text: string, accepts: nat -> bool): (Progress, string, bool)
    decreases |text|
  {
    var newline := Find(text, "\n", 0);
    if newline.None? then (p, text, true)
    else
      var (next, go) := StreamLine(p, text[..newline.value], accepts);
      var rest := text[newline.value + 1..];
      if go then Drain(next, rest, accepts) else (next, rest, false)
  }

  /** The `ProcessStream` callbacks and what they capture. */
  class StreamReader {
    const accepts: nat -> bool
    var pendingLine: string
    var completion: Completion
    var tokenIndex: int
    var events: seq<Event>

    function View(): Progress
      reads this
    {
      Progress(completion, tokenIndex, events)
    }

    constructor (accepts: nat -> bool)
      ensures View() == START && pendingLine == "" && this.accepts == accepts
    {
      this.accepts := accepts;
      pendingLine, completion, tokenIndex, events := "", EMPTY, 0, [];
    }

    method Emit(event: Event) returns (ok: bool)
      modifies this`events
      ensures events == old(events) + [event] && ok == accepts(old(|events|))
    {
      ok := accepts(|events|);
      events := events + [event];
    }

    method ConsumeLine(raw: string) returns (go: bool)
      modifies this`completion, this`tokenIndex, this`events
      ensures (View(), go) == StreamLine(old(View()), raw, accepts)
    {
      hide Trim, ParseChunk;
      var line := Trim(raw);
      if !StartsWith(line, DATA) {
        return true;
      }
      var data := Trim(line[|DATA|..]);
      if data == "" {
        return true;
      }
      var chunk := ParseLlamaServerChunk(data);
      if chunk.done {
        return true;
      }
      completion := completion.(streamChunks := completion.streamChunks + 1);
      if chunk.tokensPredicted >= 0 {
        completion := completion.(tokensPredicted := chunk.tokensPredicted);
      }
      if chunk.tokensEvaluated >= 0 {
        completion := completion.(tokensEvaluated := chunk.tokensEvaluated);
      }
      if !chunk.hasContent {
        return true;
      }
      completion := completion.(content := completion.content + chunk.content);
      var event := Event(chunk.content, tokenIndex, completion.streamChunks,
                         completion.tokensPredicted, completion.tokensEvaluated);
      tokenIndex := tokenIndex + 1;
      go := Emit(event);
    }

    method OnBody(data: string) returns (go: bool)
      modifies this`pendingLine, this`completion, this`tokenIndex, this`events
      ensures (View(), pendingLine, go) == Drain(old(View()), old(pendingLine) + data, accepts)
    {
      hide Count, Find;
      pendingLine := pendingLine + data;
      while true
        invariant Drain(View(), pendingLine, accepts) == Drain(old(View()), old(pendingLine) + data, accepts)
        decreases |pendingLine|
      {
        var newline := Find(pendingLine, "\n", 0);
        if newline.None? {
          return true;
        }
        var line := pendingLine[..newline.value];
        pendingLine := pendingLine[newline.value + 1..];
        var next := ConsumeLine(line);
        if !next {
          return false;
        }
      }
    }

    /** The whole body, delivered in these pieces; false when the caller refused an event.  However
        the body is cut up, the outcome is that of its lines, and when no event is refused it is
        the batch parser's, with deltas that add up to the content. */
    method Process(pieces: seq<string>) returns (completed: bool)
      requires View() == START && pendingLine == ""
      modifies this
      ensures (View(), completed) == StreamLines(START, Lines(Joined(pieces)), accepts)
      ensures Consistent(View())
      ensures (forall n: nat :: accepts(n)) ==> completed && completion == ParsedCompletion(Joined(pieces), true)
    {
      hide StreamLine, StreamLines, Lines, Find, Drain, BatchLines, Consistent;
      assert Consistent(START) by {
        StartIsConsistent();
      }
      FindCharStep("", '\n', 0);
      StreamIsConsistent(START, Lines(Joined(pieces)), accepts);
      StreamAgreesWithBatch(START, Lines(Joined(pieces)), accepts);
      assert pieces[0..] == pieces && "" + Joined(pieces) == Joined(pieces);
      for i := 0 to |pieces|
        invariant Find(pendingLine, "\n", 0).None?
        invariant StreamLines(View(), Lines(pendingLine + Joined(pieces[i..])), accepts)
               == StreamLines(START, Lines(Joined(pieces)), accepts)
      {
        assert pieces[i..][0] == pieces[i] && pieces[i..][1..] == pieces[i + 1..];
        assert pendingLine + Joined(pieces[i..]) == pendingLine + pieces[i] + Joined(pieces[i + 1..]);
        DrainThenRest(View(), pendingLine + pieces[i], Joined(pieces[i + 1..]), accepts);
        var go := OnBody(pieces[i]);
        if !go {
          return false;
        }
      }
      assert pendingLine + Joined(pieces[|pieces|..]) == pendingLine;
      LastLine(View(), pendingLine, accepts);
      if pendingLine != "" {
        completed := ConsumeLine(pendingLine);
        return;
      }
      return true;
    }
  }

  function Joined(pieces: seq<string>): string {
    if pieces == [] then "" else pieces[0] + Joined(pieces[1..])
  }

  // ---------------------------------------------------------------- theory

  lemma StartIsConsistent()
    ensures Consistent(START)
  {
  }

  /** Text without a newline is one last line, or none. */
  lemma LastLine(p: Progress, pending: string, accepts: nat -> bool)
    requires Find(pending, "\n", 0).None?
    ensures StreamLines(p, Lines(pending), accepts)
         == if pending == "" then (p, true) else StreamLine(p, pending, accepts)
  {
    if pending != "" {
      assert Lines(pending) == [pending];
    }
  }

  lemma {:induction false} FindCharInPrefix(text: string, rest: string, c: char, from: nat)
    requires Find(text, [c], from).Some?
    ensures Find(text + rest, [c], from) == Find(text, [c], from)
    decreases |text| - from
  {
    FindCharStep(text, c, from);
    FindCharStep(text + rest, c, from);
    if text[from] != c {
      FindCharInPrefix(text, rest, c, from + 1);
    }
  }

  /** Searching for one character looks at one character at a time. */
  lemma FindCharStep(text: string, c: char, from: nat)
    ensures from >= |text| ==> Find(text, [c], from).None?
    ensures from < |text| ==>
              Find(text, [c], from) == if text[from] == c then Some(from) else Find(text, [c], from + 1)
  {
    if from < |text| {
      assert text[from..][0] == text[from];
      assert text[from] == c ==> text[from..][..1] == [c];
    } else if from == |text| {
      assert text[from..] == "";
      assert Find(text, [c], from + 1).None?;
    }
  }

  lemma FirstLineOfMore(text: string, rest: string)
    requires Find(text, "\n", 0).Some?
    ensures var n := Find(text, "\n", 0).value;
            n < |text| && Lines(text + rest) == [text[..n]] + Lines(text[n + 1..] + rest)
  {
    var n := Find(text, "\n", 0).value;
    FindCharInPrefix(text, rest, '\n', 0);
    assert (text + rest)[..n] == text[..n] && (text + rest)[n + 1..] == text[n + 1..] + rest;
  }

  /** Draining what has arrived and then reading the rest is reading the lines of the whole text;
      after a refusal nothing more is read. */
  lemma {:induction false} DrainThenRest(p: Progress, text: string, rest: string, accepts: nat -> bool)
    ensures var (next, left, go) := Drain(p, text, accepts);
            && (go ==> Find(left, "\n", 0).None?)
            && StreamLines(p, Lines(text + rest), accepts)
               == if go then StreamLines(next, Lines(left + rest), accepts) else (next, false)
    decreases |text|
  {
    hide StreamLine, Find, Lines;
    var newline := Find(text, "\n", 0);
    if newline.Some? {
      FirstLineOfMore(text, rest);
      var line, tail := text[..newline.value], text[newline.value + 1..];
      var lines := Lines(text + rest);
      assert lines[0] == line && lines[1..] == Lines(tail + rest);
      DrainThenRest(StreamLine(p, line, accepts).0, tail, rest, accepts);
    }
  }

  /** Both paths treat a line alike. */
  lemma LineAgrees(p: Progress, raw: string, accepts: nat -> bool)
    ensures StreamLine(p, raw, accepts).0.completion == BatchLine(p.completion, raw)
    ensures (forall n: nat :: accepts(n)) ==> StreamLine(p, raw, accepts).1
  {
    var line := Trim(raw);
    if StartsWith(line, DATA) {
      TrimIsIdempotent(line[|DATA|..]);
    }
  }

  /** Over all lines, when no event is refused, the stream's completion is the batch's. */
  lemma {:induction false} StreamAgreesWithBatch(p: Progress, lines: seq<string>, accepts: nat -> bool)
    ensures (forall n: nat :: accepts(n)) ==>
              var (last, go) := StreamLines(p, lines, accepts);
              go && last.completion == BatchLines(p.completion, lines)
    decreases |lines|
  {
    if lines != [] {
      LineAgrees(p, lines[0], accepts);
      StreamAgreesWithBatch(StreamLine(p, lines[0], accepts).0, lines[1..], accepts);
    }
  }

  function Deltas(events: seq<Event>): string {
    if events == [] then "" else Deltas(events[..|events| - 1]) + events[|events| - 1].delta
  }

  /** The token deltas add up to the content, and tokens are numbered from zero. */
  predicate Consistent(p: Progress) {
    && p.completion.content == Deltas(p.events)
    && p.tokenIndex == |p.events|
    && forall k | 0 <= k < |p.events| :: p.events[k].tokenIndex == k
  }

  lemma {:induction false} StreamIsConsistent(p: Progress, lines: seq<string>, accepts: nat -> bool)
    requires Consistent(p)
    ensures Consistent(StreamLines(p, lines, accepts).0)
    decreases |lines|
  {
    if lines != [] {
      var (next, go) := StreamLine(p, lines[0], accepts);
      if |next.events| > |p.events| {
        assert next.events[..|p.events|] == p.events;
      }
      StreamIsConsistent(next, lines[1..], accepts);
    }
  }

  /** An event carries the counts of the completion after some line. */
  ghost predicate SnapshotAt(e: Event, lines: seq<string>, m: nat) {
    m <= |lines|
    && var c := BatchLines(EMPTY, lines[..m]);
       e.streamChunks == c.streamChunks && e.tokensPredicted == c.tokensPredicted && e.tokensEvaluated == c.tokensEvaluated
  }

  ghost predicate IsSnapshot(e: Event, lines: seq<string>) {
    exists m: nat :: SnapshotAt(e, lines, m)
  }

  lemma {:induction false} BatchLinesSnoc(c: Completion, lines: seq<string>, line: string)
    ensures BatchLines(c, lines + [line]) == BatchLine(BatchLines(c, lines), line)
    decreases |lines|
  {
    hide BatchLine;
    if lines == [] {
      assert [] + [line] == [line] && [line][1..] == [];
    } else {
      assert (lines + [line])[1..] == lines[1..] + [line];
      BatchLinesSnoc(BatchLine(c, lines[0]), lines[1..], line);
    }
  }

  lemma NewEventIsSnapshot(p: Progress, raw: string, accepts: nat -> bool)
    ensures var next := StreamLine(p, raw, accepts).0;
            && (next.events == p.events || |next.events| == |p.events| + 1)
            && p.events <= next.events
            && (|next.events| > |p.events| ==>
                  var e, c := next.events[|p.events|], next.completion;
                  e.streamChunks == c.streamChunks && e.tokensPredicted == c.tokensPredicted && e.tokensEvaluated == c.tokensEvaluated)
  {
    hide ParseChunk, Trim;
  }

  lemma StreamLinesStep(p: Progress, lines: seq<string>, i: nat, accepts: nat -> bool)
    requires i < |lines|
    ensures var (next, go) := StreamLine(p, lines[i], accepts);
            StreamLines(p, lines[i..], accepts) == if go then StreamLines(next, lines[i + 1..], accepts) else (next, false)
  {
    hide StreamLine;
    assert lines[i..][0] == lines[i] && lines[i..][1..] == lines[i + 1..];
  }

  lemma SnapshotStep(p: Progress, lines: seq<string>, i: nat, accepts: nat -> bool)
    requires i < |lines| && p.completion == BatchLines(EMPTY, lines[..i])
    requires forall k | 0 <= k < |p.events| :: IsSnapshot(p.events[k], lines)
    ensures var next := StreamLine(p, lines[i], accepts).0;
            && next.completion == BatchLines(EMPTY, lines[..i + 1])
            && forall k | 0 <= k < |next.events| :: IsSnapshot(next.events[k], lines)
  {
    hide StreamLine, BatchLine, BatchLines, IsSnapshot;
    var next := StreamLine(p, lines[i], accepts).0;
    assert lines[..i + 1] == lines[..i] + [lines[i]];
    LineAgrees(p, lines[i], accepts);
    BatchLinesSnoc(EMPTY, lines[..i], lines[i]);
    NewEventIsSnapshot(p, lines[i], accepts);
    forall k | 0 <= k < |next.events|
      ensures IsSnapshot(next.events[k], lines)
    {
      if k == |p.events| {
        SnapshotHere(next.events[k], lines, i + 1);
      } else {
        assert next.events[k] == p.events[k];
      }
    }
  }

  lemma {:induction false} SnapshotsFrom(p: Progress, lines: seq<string>, i: nat, accepts: nat -> bool)
    requires i <= |lines| && p.completion == BatchLines(EMPTY, lines[..i])
    requires forall k | 0 <= k < |p.events| :: IsSnapshot(p.events[k], lines)
    ensures var events := StreamLines(p, lines[i..], accepts).0.events;
            forall k | 0 <= k < |events| :: IsSnapshot(events[k], lines)
    decreases |lines| - i
  {
    if i < |lines| {
      hide *;
      StreamLinesStep(p, lines, i, accepts);
      SnapshotStep(p, lines, i, accepts);
      SnapshotsFrom(StreamLine(p, lines[i], accepts).0, lines, i + 1, accepts);
    } else {
      assert lines[i..] == [];
    }
  }

  lemma SnapshotHere(e: Event, lines: seq<string>, m: nat)
    requires SnapshotAt(e, lines, m)
    ensures IsSnapshot(e, lines)
  {
  }

  /** Every event reports the counts as they stand after some line of the body. */
  lemma EventsAreSnapshots(lines: seq<string>, accepts: nat -> bool)
    ensures var events := StreamLines(START, lines, accepts).0.events;
            forall k | 0 <= k < |events| :: IsSnapshot(events[k], lines)
  {
    assert lines[0..] == lines && lines[..0] == [];
    SnapshotsFrom(START, lines, 0, accepts);
  }

  /** Lines that are not data, empty data and the end marker change nothing. */
  lemma OtherLinesAreIgnored(c: Completion, raw: string)
    ensures !StartsWith(Trim(raw), DATA) ==> BatchLine(c, raw) == c
    ensures Trim(raw) == "data:" || Trim(raw) == "data: [DONE]" || Trim(raw) == "data:[DONE]" ==> BatchLine(c, raw) == c
  {
    assert "data:"[5..] == "" && "data: [DONE]"[5..] == " [DONE]" && "data:[DONE]"[5..] == "[DONE]";
    TrimmedIsFixed("");
    TrimmedIsFixed("[DONE]");
    assert TrimLeft(" [DONE]") == TrimLeft("[DONE]") by {
      assert " [DONE]"[1..] == "[DONE]";
    }
  }

  /** The outcome depends on the body alone, not on where the network cut it, even when an event is
      refused part-way. */
  lemma CuttingDoesNotMatter(a: seq<string>, b: seq<string>, accepts: nat -> bool)
    requires Joined(a) == Joined(b)
    ensures Deliver(START, "", a, accepts) == Deliver(START, "", b, accepts)
  {
    DeliverIsLines(START, "", a, accepts);
    DeliverIsLines(START, "", b, accepts);
  }

  /** The calls that a sequence of pieces leads to, as a function. */
  function Deliver(p: Progress, pending: string, pieces: seq<string>, accepts: nat -> bool): (Progress, bool)
    decreases |pieces|
  {
    if pieces == [] then (if pending == "" then (p, true) else StreamLine(p, pending, accepts))
    else
      var (next, left, go) := Drain(p, pending + pieces[0], accepts);
      if go then Deliver(next, left, pieces[1..], accepts) else (next, false)
  }

  lemma {:induction false} DeliverIsLines(p: Progress, pending: string, pieces: seq<string>, accepts: nat -> bool)
    requires Find(pending, "\n", 0).None?
    ensures Deliver(p, pending, pieces, accepts) == StreamLines(p, Lines(pending + Joined(pieces)), accepts)
    decreases |pieces|
  {
    if pieces == [] {
      assert pending + Joined(pieces) == pending;
      LastLine(p, pending, accepts);
    } else {
      var rest := Joined(pieces[1..]);
      assert pending + Joined(pieces) == pending + pieces[0] + rest;
      DrainThenRest(p, pending + pieces[0], rest, accepts);
      var (next, left, go) := Drain(p, pending + pieces[0], accepts);
      if go {
        DeliverIsLines(next, left, pieces[1..], accepts);
      }
    }
  }
}
