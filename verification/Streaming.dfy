/** What streaming a reply does to the loop's context. */
module Streaming {
  import opened Options
  import opened Protocol

  /** Provider events, with the partial message they carry. */
  datatype StreamEvent = StreamStart(partial: Message) | StreamDelta(partial: Message) | StreamEnd

  /** Starts before the first final event. */
  function Starts(stream: seq<StreamEvent>): nat {
    if stream == [] || stream[0].StreamEnd? then 0
    else (if stream[0].StreamStart? then 1 else 0) + Starts(stream[1..])
  }

  function PutLast(context: seq<Message>, m: Message): seq<Message> {
    if context == [] then [m] else context[|context| - 1 := m]
  }

  /** The context closed with the final message, which replaces a partial one. */
  function Closed(context: seq<Message>, added: bool, final: Message): seq<Message> {
    if added then PutLast(context, final) else context + [final]
  }

  /** The context after the stream's events and the final message. */
  function Streamed(context: seq<Message>, stream: seq<StreamEvent>, added: bool, final: Message): seq<Message>
    decreases |stream|
  {
    if stream == [] || stream[0].StreamEnd? then
      Closed(context, added, final)
    else
      match stream[0]
      case StreamStart(partial) => Streamed(context + [partial], stream[1..], true, final)
      case StreamDelta(partial) =>
        Streamed(if added then PutLast(context, partial) else context, stream[1..], added, final)
  }

  lemma {:induction false} StreamedLength(context: seq<Message>, stream: seq<StreamEvent>, added: bool, final: Message)
    requires added ==> context != []
    ensures |Streamed(context, stream, added, final)| ==
            |context| + Starts(stream) + if added || Starts(stream) > 0 then 0 else 1
    decreases |stream|
  {
    if stream == [] || stream[0].StreamEnd? {
    } else if stream[0].StreamStart? {
      StreamedLength(context + [stream[0].partial], stream[1..], true, final);
    } else {
      StreamedLength(if added then PutLast(context, stream[0].partial) else context, stream[1..], added, final);
    }
  }

  lemma {:induction false} StreamedOnce(context: seq<Message>, stream: seq<StreamEvent>, open: Option<Message>, final: Message)
    requires Starts(stream) + (if open.Some? then 1 else 0) <= 1
    ensures Streamed(context + if open.Some? then [open.value] else [], stream, open.Some?, final) == context + [final]
    decreases |stream|
  {
    var c := context + if open.Some? then [open.value] else [];
    if stream == [] || stream[0].StreamEnd? {
    } else if stream[0].StreamStart? {
      assert c + [stream[0].partial] == context + [stream[0].partial];
      StreamedOnce(context, stream[1..], Some(stream[0].partial), final);
    } else if open.Some? {
      assert PutLast(c, stream[0].partial) == context + [stream[0].partial];
      StreamedOnce(context, stream[1..], Some(stream[0].partial), final);
    } else {
      StreamedOnce(context, stream[1..], open, final);
    }
  }

  /** The context gains exactly the final message if and only if the stream starts at most once. */
  lemma ReplyIsAddedOnce(context: seq<Message>, stream: seq<StreamEvent>, final: Message)
    ensures Streamed(context, stream, false, final) == context + [final] <==> Starts(stream) <= 1
  {
    StreamedLength(context, stream, false, final);
    if Starts(stream) <= 1 {
      assert context + [] == context;
      StreamedOnce(context, stream, None, final);
    }
  }
}
