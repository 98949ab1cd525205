/** The proxy's reader: chunks to lines, lines to events, events to the message. */
module ProxyStream {
  import opened Options
  import opened LineFraming
  import opened Texts
  import opened ProxyRebuild

  /** JSON text of one event; `None` stands for a parse error. */
  type Decoder = string -> Option<ProxyEvent>

  /** The payload of a data line, unless it is blank. */
  function DataOf(line: string): Option<string> {
    if |line| >= 6 && line[..6] == "data: " && Trim(line[6..]) != "" then Some(Trim(line[6..])) else None
  }

  /** A data line carries its payload without surrounding white space; other lines, and blank
      payloads, carry nothing. */
  lemma DataOfLine(line: string, payload: string)
    ensures Trim(payload) != "" ==> DataOf("data: " + payload) == Some(Trim(payload))
    ensures Trim(payload) == "" ==> DataOf("data: " + payload) == None
    ensures !("data: " <= line) ==> DataOf(line) == None
  {
    var data := "data: " + payload;
    assert data[..6] == "data: " && data[6..] == payload;
  }

  /** The message so far, and whether a line threw; nothing is handled after that. */
  datatype Progress = Progress(message: Message, thrown: bool)

  function HandleLine(parse: Parser, decode: Decoder, m: Message, line: string): Progress {
    match DataOf(line)
    case None => Progress(m, false)
    case Some(data) =>
      match decode(data)
      case None => Progress(m, true)
      case Some(e) =>
        match Apply(parse, m, e)
        case None => Progress(m, true)
        case Some(next) => Progress(next, false)
  }

  function HandleLines(parse: Parser, decode: Decoder, lines: seq<string>): Progress {
    if lines == [] then Progress(EmptyMessage, false)
    else
      var p := HandleLines(parse, decode, lines[..|lines| - 1]);
      if p.thrown then p else HandleLine(parse, decode, p.message, lines[|lines| - 1])
  }

  lemma {:induction false} NothingAfterThrow(parse: Parser, decode: Decoder, some: seq<string>, all: seq<string>)
    requires some <= all && HandleLines(parse, decode, some).thrown
    ensures HandleLines(parse, decode, all) == HandleLines(parse, decode, some)
    decreases |all|
  {
    if |some| < |all| {
      NothingAfterThrow(parse, decode, some, all[..|all| - 1]);
    } else {
      assert some == all;
    }
  }

  function Ending(p: Progress, error: string): Message {
    if p.thrown then p.message.(stopReason := "error", errorMessage := Some(error)) else p.message
  }

  lemma {:induction false} LinesGrow(chunks: seq<string>, n: nat)
    requires n <= |chunks|
    ensures Lines(Flatten(chunks[..n])) <= Lines(Flatten(chunks))
    decreases |chunks|
  {
    if n < |chunks| {
      var front := chunks[..|chunks| - 1];
      assert front[..n] == chunks[..n];
      LinesGrow(front, n);
      SplitContinues(Flatten(front), chunks[|chunks| - 1]);
    } else {
      assert chunks[..n] == chunks;
    }
  }

  /** A line that throws decides the outcome of the whole stream. */
  lemma ThrowDecides(parse: Parser, decode: Decoder, chunks: seq<string>, n: nat)
    requires n <= |chunks| && HandleLines(parse, decode, Lines(Flatten(chunks[..n]))).thrown
    ensures HandleLines(parse, decode, Lines(Flatten(chunks))) == HandleLines(parse, decode, Lines(Flatten(chunks[..n])))
  {
    LinesGrow(chunks, n);
    NothingAfterThrow(parse, decode, Lines(Flatten(chunks[..n])), Lines(Flatten(chunks)));
  }

  /** Handles the lines one chunk completes. */
  method HandleChunk(parse: Parser, decode: Decoder, partial: PartialMessage, lines: seq<string>, ghost earlier: seq<string>)
    returns (thrown: bool)
    requires HandleLines(parse, decode, earlier) == Progress(partial.View(), false)
    modifies partial
    ensures HandleLines(parse, decode, earlier + lines) == Progress(partial.View(), thrown)
  {
    thrown := false;
    var i := 0;
    assert earlier + lines[..0] == earlier;
    while i < |lines|
      invariant 0 <= i <= |lines|
      invariant HandleLines(parse, decode, earlier + lines[..i]) == Progress(partial.View(), false)
    {
      assert (earlier + lines[..i + 1])[..|earlier| + i] == earlier + lines[..i];
      var data := DataOf(lines[i]);
      if data.Some? {
        var event := decode(data.value);
        if event.None? {
          thrown := true;
        } else {
          thrown := partial.ProcessProxyEvent(parse, event.value);
        }
        if thrown {
          assert earlier + lines[..i + 1] <= earlier + lines;
          NothingAfterThrow(parse, decode, earlier + lines[..i + 1], earlier + lines);
          return;
        }
      }
      i := i + 1;
    }
    assert lines[..|lines|] == lines;
  }

  /** Reads the whole response: the message depends on the stream's complete lines alone, not on
      how the stream was cut into chunks, and what follows the last newline is never handled. */
  method ReadResponse(chunks: seq<string>, parse: Parser, decode: Decoder, error: string) returns (partial: PartialMessage)
    ensures fresh(partial)
    ensures var p := HandleLines(parse, decode, Lines(Flatten(chunks)));
            && partial.content == p.message.content && partial.usage == p.message.usage
            && partial.stopReason == (if p.thrown then "error" else p.message.stopReason)
            && partial.errorMessage == (if p.thrown then Some(error) else p.message.errorMessage)
    ensures partial.View() == Ending(HandleLines(parse, decode, Lines(Flatten(chunks))), error)
  {
    partial := new PartialMessage();
    var buffer := "";
    var thrown := false;
    ghost var handled: seq<string> := [];
    for i := 0 to |chunks|
      invariant fresh(partial)
      invariant handled == Lines(Flatten(chunks[..i])) && buffer == Tail(Flatten(chunks[..i]))
      invariant HandleLines(parse, decode, handled) == Progress(partial.View(), false)
    {
      assert chunks[..i + 1][..i] == chunks[..i];
      var lines;
      lines, buffer := CutChunk(buffer, chunks[i], Flatten(chunks[..i]));
      thrown := HandleChunk(parse, decode, partial, lines, handled);
      handled := handled + lines;
      if thrown {
        ThrowDecides(parse, decode, chunks, i + 1);
        partial.stopReason := "error";
        partial.errorMessage := Some(error);
        return;
      }
    }
    assert chunks[..|chunks|] == chunks;
  }

  // From the stream to the message

  /** The events of the data lines, in order. */
  function EventsIn(decode: Decoder, lines: seq<string>): seq<ProxyEvent> {
    if lines == [] then []
    else
      EventsIn(decode, lines[..|lines| - 1]) +
      match DataOf(lines[|lines| - 1])
      case None => []
      case Some(data) => if decode(data).Some? then [decode(data).value] else []
  }

  predicate AllDecode(decode: Decoder, lines: seq<string>) {
    forall k :: 0 <= k < |lines| && DataOf(lines[k]).Some? ==> decode(DataOf(lines[k]).value).Some?
  }

  lemma RebuildMore(parse: Parser, events: seq<ProxyEvent>, e: ProxyEvent)
    ensures Rebuild(parse, events + [e]) ==
            match Rebuild(parse, events) case None => None case Some(m) => Apply(parse, m, e)
  {
    assert (events + [e])[..|events|] == events;
  }

  /** Handling is going on, or has thrown, as rebuilding has. */
  predicate Follows(p: Progress, r: Option<Message>) {
    (p.thrown <==> r.None?) && (!p.thrown ==> p.message == r.value)
  }

  lemma {:induction false} LinesRebuild(parse: Parser, decode: Decoder, lines: seq<string>)
    requires AllDecode(decode, lines)
    ensures Follows(HandleLines(parse, decode, lines), Rebuild(parse, EventsIn(decode, lines)))
  {
    if lines != [] {
      var front, last := lines[..|lines| - 1], lines[|lines| - 1];
      LinesRebuild(parse, decode, front);
      var before := EventsIn(decode, front);
      if DataOf(last).Some? {
        RebuildMore(parse, before, decode(DataOf(last).value).value);
      } else {
        assert before + [] == before;
      }
    }
  }

  /** Whatever the chunks: if the lines of the stream decode to events that carry a message and close
      it, the reader ends with that message. */
  lemma ResponseCarriesMessage(parse: Parser, decode: Decoder, chunks: seq<string>, error: string,
                               blocks: seq<Block>, pieces: seq<seq<string>>, reason: string, usage: int)
    requires AllDecode(decode, Lines(Flatten(chunks)))
    requires var events := EventsIn(decode, Lines(Flatten(chunks)));
             && Carries(parse, events, blocks, pieces)
             && events != [] && events[|events| - 1] == Done(reason, usage)
             && forall k :: 0 <= k < |events| ==> !events[k].Failed?
    ensures Ending(HandleLines(parse, decode, Lines(Flatten(chunks))), error)
            == Message(map i: nat | i < |blocks| :: blocks[i], reason, usage, None)
  {
    LinesRebuild(parse, decode, Lines(Flatten(chunks)));
    WholeMessageIsRebuilt(parse, EventsIn(decode, Lines(Flatten(chunks))), blocks, pieces, reason, usage);
  }

  /** A response that ends in a failure ends in that failure, with the content built before it. */
  lemma ResponseReportsFailure(parse: Parser, decode: Decoder, chunks: seq<string>, error: string,
                               before: seq<ProxyEvent>, reason: string, message: Option<string>, usage: int)
    requires AllDecode(decode, Lines(Flatten(chunks)))
    requires EventsIn(decode, Lines(Flatten(chunks))) == before + [Failed(reason, message, usage)] && Rebuild(parse, before).Some?
    ensures Ending(HandleLines(parse, decode, Lines(Flatten(chunks))), error)
            == Message(Rebuild(parse, before).value.content, reason, usage, message)
  {
    LinesRebuild(parse, decode, Lines(Flatten(chunks)));
    RebuildMore(parse, before, Failed(reason, message, usage));
  }

  /** A line throws when its data does not decode, or its event does not apply to what the lines before
      it built; that is then the message, and later lines do not count. */
  lemma LineThrows(parse: Parser, decode: Decoder, lines: seq<string>, k: nat, data: string)
    requires k < |lines| && AllDecode(decode, lines[..k]) && Rebuild(parse, EventsIn(decode, lines[..k])).Some?
    requires DataOf(lines[k]) == Some(data)
    requires decode(data).None? || Rebuild(parse, EventsIn(decode, lines[..k]) + [decode(data).value]).None?
    ensures HandleLines(parse, decode, lines) == Progress(Rebuild(parse, EventsIn(decode, lines[..k])).value, true)
  {
    LinesRebuild(parse, decode, lines[..k]);
    if decode(data).Some? {
      RebuildMore(parse, EventsIn(decode, lines[..k]), decode(data).value);
    }
    HandleNext(parse, decode, lines, k);
    ThrowingLine(parse, decode, Rebuild(parse, EventsIn(decode, lines[..k])).value, lines[k], data);
    NothingAfterThrow(parse, decode, lines[..k + 1], lines);
  }

  lemma HandleNext(parse: Parser, decode: Decoder, lines: seq<string>, k: nat)
    requires k < |lines|
    ensures HandleLines(parse, decode, lines[..k + 1])
            == var p := HandleLines(parse, decode, lines[..k]);
               if p.thrown then p else HandleLine(parse, decode, p.message, lines[k])
  {
    assert lines[..k + 1][..k] == lines[..k];
  }

  lemma ThrowingLine(parse: Parser, decode: Decoder, m: Message, line: string, data: string)
    requires DataOf(line) == Some(data)
    requires decode(data).None? || Apply(parse, m, decode(data).value).None?
    ensures HandleLine(parse, decode, m, line) == Progress(m, true)
  {
  }
}
