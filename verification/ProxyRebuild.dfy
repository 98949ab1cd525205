/** Rebuilding a streamed message from proxy events whose partial message was stripped. */
module ProxyRebuild {
  import opened Options

  datatype Json = Json(text: string)

  const EmptyObject := Json("{}")

  /** The streaming JSON parser; `None` stands for a falsy result. */
  type Parser = string -> Option<Json>

  datatype ProxyEvent =
    | Start
    | TextStart(index: nat)
    | TextDelta(index: nat, delta: string)
    | TextEnd(index: nat, signature: Option<string>)
    | ThinkingStart(index: nat)
    | ThinkingDelta(index: nat, delta: string)
    | ThinkingEnd(index: nat, signature: Option<string>)
    | CallStart(index: nat, id: string, name: string)
    | CallDelta(index: nat, delta: string)
    | CallEnd(index: nat)
    | Done(reason: string, usage: int)
    | Failed(reason: string, errorMessage: Option<string>, usage: int)
  {
    predicate OnBlock() { !Start? && !Done? && !Failed? }
  }

  datatype Block =
    | Text(text: string, textSignature: Option<string>)
    | Thinking(thinking: string, thinkingSignature: Option<string>)
    | Call(id: string, name: string, arguments: Json, partialJson: Option<string>)

  function Arguments(parse: Parser, json: string): Json {
    match parse(json) case None => EmptyObject case Some(j) => j
  }

  /** The slot of one block: empty, holding a block, or broken by an event that does not apply. */
  datatype Slot = Empty | Holds(block: Block) | Broken

  /** One event on its own block. Deltas after the end of a call find no partial JSON left. */
  function StepBlock(parse: Parser, slot: Slot, e: ProxyEvent): Slot {
    if slot.Broken? then Broken
    else match e
      case TextStart(_) => Holds(Text("", None))
      case ThinkingStart(_) => Holds(Thinking("", None))
      case CallStart(_, id, name) => Holds(Call(id, name, EmptyObject, Some("")))
      case TextDelta(_, delta) =>
        if slot.Holds? && slot.block.Text? then Holds(Text(slot.block.text + delta, slot.block.textSignature)) else Broken
      case TextEnd(_, signature) =>
        if slot.Holds? && slot.block.Text? then Holds(Text(slot.block.text, signature)) else Broken
      case ThinkingDelta(_, delta) =>
        if slot.Holds? && slot.block.Thinking? then Holds(Thinking(slot.block.thinking + delta, slot.block.thinkingSignature)) else Broken
      case ThinkingEnd(_, signature) =>
        if slot.Holds? && slot.block.Thinking? then Holds(Thinking(slot.block.thinking, signature)) else Broken
      case CallDelta(_, delta) =>
        if slot.Holds? && slot.block.Call? then
          var json := (if slot.block.partialJson.Some? then slot.block.partialJson.value else "undefined") + delta;
          Holds(slot.block.(partialJson := Some(json), arguments := Arguments(parse, json)))
        else Broken
      case CallEnd(_) =>
        if slot.Holds? && slot.block.Call? then Holds(slot.block.(partialJson := None)) else slot
      case _ => slot
  }

  function RunBlock(parse: Parser, events: seq<ProxyEvent>): Slot {
    if events == [] then Empty
    else StepBlock(parse, RunBlock(parse, events[..|events| - 1]), events[|events| - 1])
  }

  /** The events of block `i`, in order. */
  function Own(events: seq<ProxyEvent>, i: nat): seq<ProxyEvent> {
    if events == [] then []
    else
      var last := events[|events| - 1];
      Own(events[..|events| - 1], i) + if last.OnBlock() && last.index == i then [last] else []
  }

  // The message

  datatype Message = Message(
    content: map<nat, Block>,
    stopReason: string,
    usage: int,
    errorMessage: Option<string>)

  const EmptyMessage := Message(map[], "pending", 0, None)

  function SlotOf(m: Message, i: nat): Slot {
    if i in m.content then Holds(m.content[i]) else Empty
  }

  /** Applying an event to the message; `None` when it throws. */
  function Apply(parse: Parser, m: Message, e: ProxyEvent): Option<Message> {
    match e
    case Start => Some(m)
    case Done(reason, usage) => Some(m.(stopReason := reason, usage := usage))
    case Failed(reason, errorMessage, usage) =>
      Some(m.(stopReason := reason, errorMessage := errorMessage, usage := usage))
    case _ =>
      match StepBlock(parse, SlotOf(m, e.index), e)
      case Broken => None
      case Empty => Some(m)
      case Holds(block) => Some(m.(content := m.content[e.index := block]))
  }

  /** The message after all events, unless one of them threw. */
  function Rebuild(parse: Parser, events: seq<ProxyEvent>): Option<Message> {
    if events == [] then Some(EmptyMessage)
    else
      match Rebuild(parse, events[..|events| - 1])
      case None => None
      case Some(m) => Apply(parse, m, events[|events| - 1])
  }

  class PartialMessage {
    var content: map<nat, Block>
    var stopReason: string
    var usage: int
    var errorMessage: Option<string>

    function View(): Message
      reads this
    {
      Message(content, stopReason, usage, errorMessage)
    }

    constructor ()
      ensures View() == EmptyMessage
    {
      content, stopReason, usage, errorMessage := map[], "pending", 0, None;
    }

    /** Updates the message for one event. */
    method ProcessProxyEvent(parse: Parser, e: ProxyEvent) returns (thrown: bool)
      modifies this
      ensures thrown <==> Apply(parse, old(View()), e) == None
      ensures View() == if thrown then old(View()) else Apply(parse, old(View()), e).value
    {
      thrown := false;
      match e {
        case Start =>
        case TextStart(index) => content := content[index := Text("", None)];
        case TextDelta(index, delta) =>
          if index in content && content[index].Text? {
            content := content[index := Text(content[index].text + delta, content[index].textSignature)];
          } else {
            thrown := true;
          }
        case TextEnd(index, signature) =>
          if index in content && content[index].Text? {
            content := content[index := Text(content[index].text, signature)];
          } else {
            thrown := true;
          }
        case ThinkingStart(index) => content := content[index := Thinking("", None)];
        case ThinkingDelta(index, delta) =>
          if index in content && content[index].Thinking? {
            content := content[index := Thinking(content[index].thinking + delta, content[index].thinkingSignature)];
          } else {
            thrown := true;
          }
        case ThinkingEnd(index, signature) =>
          if index in content && content[index].Thinking? {
            content := content[index := Thinking(content[index].thinking, signature)];
          } else {
            thrown := true;
          }
        case CallStart(index, id, name) => content := content[index := Call(id, name, EmptyObject, Some(""))];
        case CallDelta(index, delta) =>
          if index in content && content[index].Call? {
            var call := content[index];
            var json := (if call.partialJson.Some? then call.partialJson.value else "undefined") + delta;
            content := content[index := call.(partialJson := Some(json), arguments := Arguments(parse, json))];
          } else {
            thrown := true;
          }
        case CallEnd(index) =>
          if index in content && content[index].Call? {
            content := content[index := content[index].(partialJson := None)];
          }
        case Done(reason, newUsage) =>
          stopReason, usage := reason, newUsage;
        case Failed(reason, message, newUsage) =>
          stopReason, errorMessage, usage := reason, message, newUsage;
      }
    }
  }

  // Blocks do not interfere

  lemma OwnStep(parse: Parser, events: seq<ProxyEvent>, i: nat)
    requires events != []
    ensures var front, last := events[..|events| - 1], events[|events| - 1];
            RunBlock(parse, Own(events, i)) ==
            if last.OnBlock() && last.index == i then StepBlock(parse, RunBlock(parse, Own(front, i)), last)
            else RunBlock(parse, Own(front, i))
  {
    var front, last := events[..|events| - 1], events[|events| - 1];
    var own := Own(front, i);
    if last.OnBlock() && last.index == i {
      assert (own + [last])[..|own|] == own;
    } else {
      assert own + [] == own;
    }
  }

  lemma ApplyStep(parse: Parser, m: Message, e: ProxyEvent, i: nat)
    ensures Apply(parse, m, e).None? <==> e.OnBlock() && StepBlock(parse, SlotOf(m, e.index), e).Broken?
    ensures Apply(parse, m, e).Some? ==>
              SlotOf(Apply(parse, m, e).value, i) ==
              if e.OnBlock() && e.index == i then StepBlock(parse, SlotOf(m, i), e) else SlotOf(m, i)
  {
  }

  /** As long as no event throws, each slot is what its own events make of it. */
  lemma {:induction false} SlotFollowsOwnEvents(parse: Parser, events: seq<ProxyEvent>, i: nat)
    requires Rebuild(parse, events).Some?
    ensures SlotOf(Rebuild(parse, events).value, i) == RunBlock(parse, Own(events, i))
  {
    if events != [] {
      var front, last := events[..|events| - 1], events[|events| - 1];
      SlotFollowsOwnEvents(parse, front, i);
      ApplyStep(parse, Rebuild(parse, front).value, last, i);
      OwnStep(parse, events, i);
    }
  }

  /** An event throws only when it breaks its own block. */
  lemma {:induction false} ThrowBreaksBlock(parse: Parser, events: seq<ProxyEvent>) returns (i: nat)
    requires Rebuild(parse, events).None?
    ensures RunBlock(parse, Own(events, i)).Broken?
  {
    var front, last := events[..|events| - 1], events[|events| - 1];
    if Rebuild(parse, front).None? {
      i := ThrowBreaksBlock(parse, front);
    } else {
      ApplyStep(parse, Rebuild(parse, front).value, last, 0);
      i := last.index;
      SlotFollowsOwnEvents(parse, front, i);
    }
    OwnStep(parse, events, i);
  }

  /** However the events of different blocks are interleaved, rebuilding succeeds exactly when no
      block is broken by its own events, and then each slot is what its own events make of it. */
  lemma BlocksAreIndependent(parse: Parser, events: seq<ProxyEvent>)
    ensures Rebuild(parse, events).Some? <==> forall i: nat :: !RunBlock(parse, Own(events, i)).Broken?
    ensures Rebuild(parse, events).Some? ==>
              forall i: nat :: SlotOf(Rebuild(parse, events).value, i) == RunBlock(parse, Own(events, i))
  {
    if Rebuild(parse, events).Some? {
      forall i: nat ensures SlotOf(Rebuild(parse, events).value, i) == RunBlock(parse, Own(events, i)) {
        SlotFollowsOwnEvents(parse, events, i);
      }
    } else {
      var i := ThrowBreaksBlock(parse, events);
    }
  }

  // What a block's own events make of it

  function Concat(pieces: seq<string>): string {
    if pieces == [] then "" else Concat(pieces[..|pieces| - 1]) + pieces[|pieces| - 1]
  }

  /** The server's events for one finished block, its content sent in pieces. */
  function Encoded(i: nat, block: Block, pieces: seq<string>): seq<ProxyEvent> {
    match block
    case Text(_, signature) =>
      [TextStart(i)] + seq(|pieces|, k requires 0 <= k < |pieces| => TextDelta(i, pieces[k])) + [TextEnd(i, signature)]
    case Thinking(_, signature) =>
      [ThinkingStart(i)] + seq(|pieces|, k requires 0 <= k < |pieces| => ThinkingDelta(i, pieces[k])) + [ThinkingEnd(i, signature)]
    case Call(id, name, _, _) =>
      [CallStart(i, id, name)] + seq(|pieces|, k requires 0 <= k < |pieces| => CallDelta(i, pieces[k])) + [CallEnd(i)]
  }

  /** A finished block whose content is the pieces put together; a call's arguments are their parse. */
  predicate Sent(parse: Parser, block: Block, pieces: seq<string>) {
    match block
    case Text(text, _) => text == Concat(pieces)
    case Thinking(thinking, _) => thinking == Concat(pieces)
    case Call(_, _, arguments, partialJson) =>
      partialJson == None && arguments == if pieces == [] then EmptyObject else Arguments(parse, Concat(pieces))
  }

  /** The block while its first `n` pieces have arrived. */
  function Growing(parse: Parser, block: Block, pieces: seq<string>): Block {
    match block
    case Text(_, _) => Text(Concat(pieces), None)
    case Thinking(_, _) => Thinking(Concat(pieces), None)
    case Call(id, name, _, _) =>
      Call(id, name, if pieces == [] then EmptyObject else Arguments(parse, Concat(pieces)), Some(Concat(pieces)))
  }

  function DeltaOf(i: nat, block: Block, piece: string): ProxyEvent {
    match block
    case Text(_, _) => TextDelta(i, piece)
    case Thinking(_, _) => ThinkingDelta(i, piece)
    case Call(_, _, _, _) => CallDelta(i, piece)
  }

  /** Each block's text, thinking or partial JSON is the concatenation of its own deltas. */
  lemma {:induction false} DeltasAccumulate(parse: Parser, i: nat, block: Block, pieces: seq<string>, n: nat)
    requires n <= |pieces|
    ensures RunBlock(parse, Encoded(i, block, pieces)[..n + 1]) == Holds(Growing(parse, block, pieces[..n]))
  {
    var encoded := Encoded(i, block, pieces);
    if n == 0 {
      assert encoded[..1] == [encoded[0]];
      assert encoded[..1][..0] == [];
    } else {
      DeltasAccumulate(parse, i, block, pieces, n - 1);
      assert encoded[..n + 1][..n] == encoded[..n];
      assert encoded[n] == DeltaOf(i, block, pieces[n - 1]);
      assert pieces[..n][..n - 1] == pieces[..n - 1];
    }
  }

  lemma EncodedBlockIsRebuilt(parse: Parser, i: nat, block: Block, pieces: seq<string>)
    requires Sent(parse, block, pieces)
    ensures RunBlock(parse, Encoded(i, block, pieces)) == Holds(block)
  {
    var encoded, n := Encoded(i, block, pieces), |pieces| + 1;
    DeltasAccumulate(parse, i, block, pieces, |pieces|);
    assert encoded[..n + 1] == encoded && encoded[..n + 1][..n] == encoded[..n];
    assert pieces[..|pieces|] == pieces;
  }

  /** The events carry message `blocks`: block by block, in whatever interleaving. */
  ghost predicate Carries(parse: Parser, events: seq<ProxyEvent>, blocks: seq<Block>, pieces: seq<seq<string>>) {
    && |pieces| == |blocks|
    && (forall i: nat :: i < |blocks| ==> Sent(parse, blocks[i], pieces[i]) && Own(events, i) == Encoded(i, blocks[i], pieces[i]))
    && (forall i: nat :: i >= |blocks| ==> Own(events, i) == [])
  }

  /** The rebuilt message is the one the server stripped. */
  lemma StrippedMessageIsRebuilt(parse: Parser, events: seq<ProxyEvent>, blocks: seq<Block>, pieces: seq<seq<string>>)
    requires Carries(parse, events, blocks, pieces)
    ensures Rebuild(parse, events).Some?
    ensures Rebuild(parse, events).value.content == map i: nat | i < |blocks| :: blocks[i]
  {
    forall i: nat ensures RunBlock(parse, Own(events, i)) == if i < |blocks| then Holds(blocks[i]) else Empty {
      if i < |blocks| { EncodedBlockIsRebuilt(parse, i, blocks[i], pieces[i]); }
    }
    BlocksAreIndependent(parse, events);
    var m := Rebuild(parse, events).value;
    forall i: nat ensures SlotOf(m, i) == if i < |blocks| then Holds(blocks[i]) else Empty {
      SlotFollowsOwnEvents(parse, events, i);
    }
    ContentOfSlots(m, blocks);
  }

  lemma ContentOfSlots(m: Message, blocks: seq<Block>)
    requires forall i: nat :: SlotOf(m, i) == if i < |blocks| then Holds(blocks[i]) else Empty
    ensures m.content == map i: nat | i < |blocks| :: blocks[i]
  {
    forall i: nat ensures i in m.content <==> i < |blocks| {
      assert SlotOf(m, i) == if i < |blocks| then Holds(blocks[i]) else Empty;
    }
    forall i: nat | i < |blocks| ensures m.content[i] == blocks[i] {
      assert SlotOf(m, i) == Holds(blocks[i]);
    }
  }

  lemma {:induction false} NoErrorWithoutFailure(parse: Parser, events: seq<ProxyEvent>)
    requires Rebuild(parse, events).Some? && forall k :: 0 <= k < |events| ==> !events[k].Failed?
    ensures Rebuild(parse, events).value.errorMessage == None
  {
    if events != [] { NoErrorWithoutFailure(parse, events[..|events| - 1]); }
  }

  /** With the closing event, stop reason and usage are the server's as well. */
  lemma WholeMessageIsRebuilt(parse: Parser, events: seq<ProxyEvent>, blocks: seq<Block>, pieces: seq<seq<string>>,
                              reason: string, usage: int)
    requires Carries(parse, events, blocks, pieces)
    requires events != [] && events[|events| - 1] == Done(reason, usage)
    requires forall k :: 0 <= k < |events| ==> !events[k].Failed?
    ensures Rebuild(parse, events) == Some(Message(map i: nat | i < |blocks| :: blocks[i], reason, usage, None))
  {
    StrippedMessageIsRebuilt(parse, events, blocks, pieces);
    NoErrorWithoutFailure(parse, events);
    DoneCloses(parse, events, reason, usage);
  }

  lemma DoneCloses(parse: Parser, events: seq<ProxyEvent>, reason: string, usage: int)
    requires Rebuild(parse, events).Some? && events != [] && events[|events| - 1] == Done(reason, usage)
    ensures Rebuild(parse, events).value.stopReason == reason && Rebuild(parse, events).value.usage == usage
  {
  }

  // How a message ends

  /** A failure is reported as the server sent it, with what was built before it. */
  lemma FailureIsReported(parse: Parser, events: seq<ProxyEvent>, reason: string, message: Option<string>, usage: int)
    requires events != [] && events[|events| - 1] == Failed(reason, message, usage)
    requires Rebuild(parse, events[..|events| - 1]).Some?
    ensures Rebuild(parse, events)
            == Some(Message(Rebuild(parse, events[..|events| - 1]).value.content, reason, usage, message))
  {
  }

  predicate Closes(e: ProxyEvent) { e.Done? || e.Failed? }

  /** Without a closing event the message is pending. */
  lemma {:induction false} PendingUntilClosed(parse: Parser, events: seq<ProxyEvent>)
    requires Rebuild(parse, events).Some? && forall k :: 0 <= k < |events| ==> !Closes(events[k])
    ensures var m := Rebuild(parse, events).value; m.stopReason == "pending" && m.usage == 0 && m.errorMessage == None
  {
    if events != [] { PendingUntilClosed(parse, events[..|events| - 1]); }
  }

  /** Stop reason and usage are those of the last closing event, the error is that of the last failure. */
  lemma {:induction false} LastClosingCounts(parse: Parser, events: seq<ProxyEvent>, k: nat)
    requires Rebuild(parse, events).Some? && k < |events| && Closes(events[k])
    ensures (forall j :: k < j < |events| ==> !Closes(events[j])) ==>
              Rebuild(parse, events).value.stopReason == events[k].reason && Rebuild(parse, events).value.usage == events[k].usage
    ensures events[k].Failed? && (forall j :: k < j < |events| ==> !events[j].Failed?) ==>
              Rebuild(parse, events).value.errorMessage == events[k].errorMessage
    decreases |events|
  {
    if k < |events| - 1 {
      LastClosingCounts(parse, events[..|events| - 1], k);
    }
  }

  // When an event throws

  datatype Kind = NoBlock | TextKind | ThinkingKind | CallKind

  /** The kind of block the last start opened. */
  function KindOf(es: seq<ProxyEvent>): Kind {
    if es == [] then NoBlock
    else match es[|es| - 1]
      case TextStart(_) => TextKind
      case ThinkingStart(_) => ThinkingKind
      case CallStart(_, _, _) => CallKind
      case _ => KindOf(es[..|es| - 1])
  }

  predicate Applies(e: ProxyEvent, kind: Kind) {
    && (e.TextDelta? || e.TextEnd? ==> kind == TextKind)
    && (e.ThinkingDelta? || e.ThinkingEnd? ==> kind == ThinkingKind)
    && (e.CallDelta? ==> kind == CallKind)
  }

  predicate SlotHas(slot: Slot, kind: Kind) {
    match slot
    case Broken => true
    case Empty => kind == NoBlock
    case Holds(block) =>
      match block case Text(_, _) => kind == TextKind case Thinking(_, _) => kind == ThinkingKind case Call(_, _, _, _) => kind == CallKind
  }

  /** Event `k` does not fit the kind that was started last. */
  predicate Misfit(es: seq<ProxyEvent>, k: int) {
    0 <= k < |es| && !Applies(es[k], KindOf(es[..k]))
  }

  lemma MisfitOfNext(es: seq<ProxyEvent>, k: int)
    requires es != []
    ensures Misfit(es, k) <==>
              if k == |es| - 1 then !Applies(es[k], KindOf(es[..|es| - 1])) else Misfit(es[..|es| - 1], k)
  {
    if 0 <= k < |es| - 1 { assert es[..|es| - 1][..k] == es[..k]; }
  }

  /** A block is broken exactly when some delta or end of its own is a misfit; an end of a call never
      is. */
  lemma {:induction false} BrokenExactly(parse: Parser, es: seq<ProxyEvent>)
    ensures SlotHas(RunBlock(parse, es), KindOf(es))
    ensures RunBlock(parse, es).Broken? <==> exists k :: Misfit(es, k)
  {
    if es != [] {
      var front, n := es[..|es| - 1], |es| - 1;
      BrokenExactly(parse, front);
      StepApplies(parse, RunBlock(parse, front), es[n], KindOf(front));
      forall k ensures Misfit(es, k) <==> if k == n then !Applies(es[n], KindOf(front)) else Misfit(front, k) {
        MisfitOfNext(es, k);
      }
      assert !Misfit(front, n);
    }
  }

  lemma StepApplies(parse: Parser, slot: Slot, e: ProxyEvent, kind: Kind)
    requires SlotHas(slot, kind)
    ensures StepBlock(parse, slot, e).Broken? <==> slot.Broken? || !Applies(e, kind)
    ensures SlotHas(StepBlock(parse, slot, e),
                    match e case TextStart(_) => TextKind case ThinkingStart(_) => ThinkingKind
                    case CallStart(_, _, _) => CallKind case _ => kind)
  {
  }

  // Streams that are not over

  lemma {:induction false} OwnGrows(events: seq<ProxyEvent>, n: nat, i: nat)
    requires n <= |events|
    ensures Own(events[..n], i) <= Own(events, i)
    decreases |events|
  {
    if n < |events| {
      var front := events[..|events| - 1];
      assert front[..n] == events[..n];
      OwnGrows(front, n, i);
    } else {
      assert events[..n] == events;
    }
  }

  /** A block of which `m` events have arrived. */
  function Arrived(parse: Parser, i: nat, block: Block, pieces: seq<string>, m: nat): Slot {
    if m == 0 then Empty
    else if m <= |pieces| + 1 then Holds(Growing(parse, block, pieces[..m - 1]))
    else Holds(block)
  }

  lemma PartOfBlock(parse: Parser, i: nat, block: Block, pieces: seq<string>, m: nat)
    requires Sent(parse, block, pieces) && m <= |Encoded(i, block, pieces)|
    ensures RunBlock(parse, Encoded(i, block, pieces)[..m]) == Arrived(parse, i, block, pieces, m)
  {
    var encoded := Encoded(i, block, pieces);
    if 0 < m <= |pieces| + 1 {
      DeltasAccumulate(parse, i, block, pieces, m - 1);
    } else if m > 0 {
      assert encoded[..m] == encoded;
      EncodedBlockIsRebuilt(parse, i, block, pieces);
    }
  }

  /** At every point of a stream that carries a message, under any interleaving, each block holds
      what has arrived of it, and no other slot is filled. */
  lemma EveryPrefixIsRebuilt(parse: Parser, events: seq<ProxyEvent>, blocks: seq<Block>, pieces: seq<seq<string>>, n: nat)
    requires Carries(parse, events, blocks, pieces) && n <= |events|
    ensures Rebuild(parse, events[..n]).Some?
    ensures forall i: nat :: SlotOf(Rebuild(parse, events[..n]).value, i)
              == if i < |blocks| then Arrived(parse, i, blocks[i], pieces[i], |Own(events[..n], i)|) else Empty
  {
    var some := events[..n];
    forall i: nat
      ensures RunBlock(parse, Own(some, i))
              == if i < |blocks| then Arrived(parse, i, blocks[i], pieces[i], |Own(some, i)|) else Empty
    {
      OwnGrows(events, n, i);
      if i < |blocks| {
        assert Own(some, i) == Encoded(i, blocks[i], pieces[i])[..|Own(some, i)|];
        PartOfBlock(parse, i, blocks[i], pieces[i], |Own(some, i)|);
      } else {
        assert Own(some, i) == [];
      }
    }
    BlocksAreIndependent(parse, some);
  }

  // Calls with deltas and ends in any order

  predicate CallEvent(e: ProxyEvent) { e.CallDelta? || e.CallEnd? }

  function DeltaIn(e: ProxyEvent): string { if e.CallDelta? then e.delta else "" }

  /** All deltas put together, those after the last end, and those before it. */
  function Deltas(es: seq<ProxyEvent>): string {
    if es == [] then "" else Deltas(es[..|es| - 1]) + DeltaIn(es[|es| - 1])
  }

  function DeltasSinceEnd(es: seq<ProxyEvent>): string {
    if es == [] || es[|es| - 1].CallEnd? then "" else DeltasSinceEnd(es[..|es| - 1]) + DeltaIn(es[|es| - 1])
  }

  function DeltasBeforeEnd(es: seq<ProxyEvent>): string {
    if es == [] then ""
    else if es[|es| - 1].CallEnd? then Deltas(es[..|es| - 1])
    else DeltasBeforeEnd(es[..|es| - 1])
  }

  predicate HasEnd(es: seq<ProxyEvent>) { exists k :: 0 <= k < |es| && es[k].CallEnd? }

  predicate HasDelta(es: seq<ProxyEvent>) { exists k :: 0 <= k < |es| && es[k].CallDelta? }

  /** A delta follows an end. */
  predicate LateDelta(es: seq<ProxyEvent>) {
    exists j, k :: 0 <= j < k < |es| && es[j].CallEnd? && es[k].CallDelta?
  }

  /** The events up to the last delta. */
  function ToLastDelta(es: seq<ProxyEvent>): seq<ProxyEvent> {
    if es == [] || es[|es| - 1].CallDelta? then es else ToLastDelta(es[..|es| - 1])
  }

  /** The partial JSON of a call after its start and these events. */
  function PartialJson(es: seq<ProxyEvent>): Option<string> {
    if es != [] && es[|es| - 1].CallEnd? then None
    else if HasEnd(es) then Some("undefined" + DeltasSinceEnd(es))
    else Some(Deltas(es))
  }

  /** The text that was parsed last, if there was any delta. */
  function LastParsed(es: seq<ProxyEvent>): Option<string> {
    if ToLastDelta(es) == [] then None else PartialJson(ToLastDelta(es))
  }

  function CallAfter(parse: Parser, id: string, name: string, es: seq<ProxyEvent>): Block {
    Call(id, name, match LastParsed(es) case None => EmptyObject case Some(text) => Arguments(parse, text), PartialJson(es))
  }

  lemma HasEndOfNext(es: seq<ProxyEvent>)
    requires es != []
    ensures HasEnd(es) <==> HasEnd(es[..|es| - 1]) || es[|es| - 1].CallEnd?
  {
    var front := es[..|es| - 1];
    if HasEnd(front) {
      var k :| 0 <= k < |front| && front[k].CallEnd?;
      assert es[k].CallEnd?;
    }
  }

  lemma LateDeltaOfNext(es: seq<ProxyEvent>)
    requires es != []
    ensures LateDelta(es) <==> LateDelta(es[..|es| - 1]) || (HasEnd(es[..|es| - 1]) && es[|es| - 1].CallDelta?)
  {
    var front, last := es[..|es| - 1], |es| - 1;
    if LateDelta(front) {
      var j, k :| 0 <= j < k < |front| && front[j].CallEnd? && front[k].CallDelta?;
      assert es[j].CallEnd? && es[k].CallDelta?;
    }
    if HasEnd(front) && es[last].CallDelta? {
      var j :| 0 <= j < |front| && front[j].CallEnd?;
      assert es[j].CallEnd? && j < last;
    }
    if LateDelta(es) {
      var j, k :| 0 <= j < k < |es| && es[j].CallEnd? && es[k].CallDelta?;
      assert front[j].CallEnd?;
      assert k < last ==> front[k].CallDelta?;
    }
  }

  lemma {:induction false} DeltasSplit(es: seq<ProxyEvent>)
    ensures Deltas(es) == DeltasBeforeEnd(es) + DeltasSinceEnd(es)
  {
    if es != [] {
      DeltasSplit(es[..|es| - 1]);
    }
  }

  /** Any deltas and ends after the start of a call: its partial JSON and its arguments. */
  lemma {:induction false} CallFollowsDeltas(parse: Parser, before: seq<ProxyEvent>, i: nat, id: string, name: string, es: seq<ProxyEvent>)
    requires !RunBlock(parse, before).Broken? && forall k :: 0 <= k < |es| ==> CallEvent(es[k])
    ensures RunBlock(parse, before + [CallStart(i, id, name)] + es) == Holds(CallAfter(parse, id, name, es))
  {
    var started := before + [CallStart(i, id, name)];
    if es == [] {
      assert started + es == started;
      RunNext(parse, before, CallStart(i, id, name));
    } else {
      var front, last := es[..|es| - 1], es[|es| - 1];
      assert started + es == started + front + [last];
      CallFollowsDeltas(parse, before, i, id, name, front);
      RunNext(parse, started + front, last);
      CallStep(parse, id, name, es);
    }
  }

  lemma RunNext(parse: Parser, events: seq<ProxyEvent>, e: ProxyEvent)
    ensures RunBlock(parse, events + [e]) == StepBlock(parse, RunBlock(parse, events), e)
  {
    assert (events + [e])[..|events|] == events;
  }

  lemma CallStep(parse: Parser, id: string, name: string, es: seq<ProxyEvent>)
    requires es != [] && forall k :: 0 <= k < |es| ==> CallEvent(es[k])
    ensures StepBlock(parse, Holds(CallAfter(parse, id, name, es[..|es| - 1])), es[|es| - 1]) == Holds(CallAfter(parse, id, name, es))
  {
    var front, last := es[..|es| - 1], es[|es| - 1];
    HasEndOfNext(es);
    if last.CallDelta? {
      PartialAfterDelta(front, es);
    }
  }

  /** A delta extends the partial JSON, or the word a missing one turns into. */
  lemma PartialAfterDelta(front: seq<ProxyEvent>, es: seq<ProxyEvent>)
    requires es != [] && front == es[..|es| - 1] && es[|es| - 1].CallDelta?
    requires forall k :: 0 <= k < |es| ==> CallEvent(es[k])
    ensures PartialJson(es)
            == Some((match PartialJson(front) case None => "undefined" case Some(json) => json) + es[|es| - 1].delta)
  {
    HasEndOfNext(es);
    var delta, since := es[|es| - 1].delta, DeltasSinceEnd(front);
    if HasEnd(front) {
      assert PartialJson(es) == Some("undefined" + (since + delta));
      Regroup("undefined", since, delta);
      if front[|front| - 1].CallEnd? {
        assert "undefined" + since == "undefined";
      }
    }
  }

  lemma Regroup(a: string, b: string, c: string)
    ensures a + (b + c) == a + b + c
  {
  }

  /** The text parsed last is all of the call's deltas put together if and only if no delta follows
      an end, or the deltas before the last end that one follows spell the word undefined. */
  lemma {:induction false} ParsedIsAllDeltas(es: seq<ProxyEvent>)
    requires forall k :: 0 <= k < |es| ==> CallEvent(es[k])
    requires HasDelta(es)
    ensures LastParsed(es).Some?
    ensures LastParsed(es).value == Deltas(es)
      <==> !LateDelta(es) || DeltasBeforeEnd(ToLastDelta(es)) == "undefined"
  {
    var front, last := es[..|es| - 1], es[|es| - 1];
    if last.CallEnd? {
      LateDeltaOfNext(es);
      DeltaBeforeEnd(es);
      ParsedIsAllDeltas(front);
    } else {
      LastDeltaParsed(es);
    }
  }

  lemma DeltaBeforeEnd(es: seq<ProxyEvent>)
    requires es != [] && es[|es| - 1].CallEnd? && HasDelta(es)
    ensures HasDelta(es[..|es| - 1])
    ensures Deltas(es) == Deltas(es[..|es| - 1])
  {
    var k :| 0 <= k < |es| && es[k].CallDelta?;
    assert es[..|es| - 1][k].CallDelta?;
  }

  lemma LastDeltaParsed(es: seq<ProxyEvent>)
    requires es != [] && es[|es| - 1].CallDelta?
    ensures PartialJson(es).Some?
    ensures PartialJson(es).value == Deltas(es) <==> !LateDelta(es) || DeltasBeforeEnd(es) == "undefined"
  {
    LateDeltaOfNext(es);
    HasEndOfNext(es);
    if HasEnd(es) {
      DeltasSplit(es);
      CancelRight("undefined", DeltasBeforeEnd(es), DeltasSinceEnd(es));
    }
  }

  lemma CancelRight(a: string, b: string, c: string)
    ensures a + c == b + c <==> a == b
  {
    if a + c == b + c {
      assert |a| == |b|;
      assert a == (a + c)[..|a|] && b == (b + c)[..|b|];
    }
  }

  lemma {:induction false} BrokenStays(parse: Parser, before: seq<ProxyEvent>, after: seq<ProxyEvent>)
    requires RunBlock(parse, before).Broken?
    ensures RunBlock(parse, before + after).Broken?
    decreases |after|
  {
    if after == [] {
      assert before + after == before;
    } else {
      BrokenStays(parse, before, after[..|after| - 1]);
      assert (before + after)[..|before + after| - 1] == before + after[..|after| - 1];
    }
  }

  /** In a message rebuilt from any interleaving: a call since its last start. Its arguments are the
      parse of all its deltas when none of them is late. */
  lemma CallInMessage(parse: Parser, events: seq<ProxyEvent>, before: seq<ProxyEvent>, i: nat, id: string, name: string, es: seq<ProxyEvent>)
    requires Rebuild(parse, events).Some? && Own(events, i) == before + [CallStart(i, id, name)] + es
    requires forall k :: 0 <= k < |es| ==> CallEvent(es[k])
    ensures var content := Rebuild(parse, events).value.content;
            && i in content && content[i] == CallAfter(parse, id, name, es)
            && (HasDelta(es) && !LateDelta(es) ==>
                 content[i].arguments == Arguments(parse, Deltas(es)))
  {
    SlotFollowsOwnEvents(parse, events, i);
    StartOfCall(parse, before, CallStart(i, id, name), es);
    CallFollowsDeltas(parse, before, i, id, name, es);
    if HasDelta(es) {
      ParsedIsAllDeltas(es);
    }
  }

  lemma StartOfCall(parse: Parser, before: seq<ProxyEvent>, start: ProxyEvent, es: seq<ProxyEvent>)
    requires !RunBlock(parse, before + [start] + es).Broken?
    ensures !RunBlock(parse, before).Broken?
  {
    assert before + ([start] + es) == before + [start] + es;
    if RunBlock(parse, before).Broken? {
      BrokenStays(parse, before, [start] + es);
    }
  }

  /** A delta right after an end of its call is appended to the word the missing partial JSON turns
      into, and that text is parsed. */
  lemma DeltaAfterCallEnd(parse: Parser, before: seq<ProxyEvent>, i: nat, id: string, name: string, es: seq<ProxyEvent>, delta: string)
    requires !RunBlock(parse, before).Broken? && forall k :: 0 <= k < |es| ==> CallEvent(es[k])
    requires es != [] && es[|es| - 1].CallEnd?
    ensures RunBlock(parse, before + [CallStart(i, id, name)] + (es + [CallDelta(i, delta)]))
            == Holds(Call(id, name, Arguments(parse, "undefined" + delta), Some("undefined" + delta)))
  {
    var all := es + [CallDelta(i, delta)];
    assert all[..|es|] == es;
    CallFollowsDeltas(parse, before, i, id, name, all);
    PartialAfterDelta(es, all);
  }
}
