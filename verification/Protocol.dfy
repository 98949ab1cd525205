/** Messages, agent events, and a monitor for the event protocol of one agent run. */
module Protocol {
  import opened Options

  /** Content of a tool result; the texts the loop writes itself are named. */
  datatype Content = Output(text: string) | NotFound(tool: string) | Blocked | OperationAborted | CutOff(tool: string)

  datatype ToolCall = ToolCall(id: string, name: string, arguments: string)

  datatype Block = TextBlock(text: string) | ThinkingBlock(thinking: string) | CallBlock(call: ToolCall)

  datatype StopReason = Pending | Stop | Length | ToolUse | Error | Aborted

  datatype Message =
    | User(text: string)     // user and application messages
    | Assistant(blocks: seq<Block>, stop: StopReason, errorMessage: Option<string>)
    | ToolResult(callId: string, toolName: string, content: seq<Content>, details: string, usage: Option<int>,
                 addedToolNames: seq<string>, isError: bool)

  /** The tool calls of a message, in source order. */
  function CallsOf(content: seq<Block>): seq<ToolCall> {
    if content == [] then []
    else
      CallsOf(content[..|content| - 1])
      + if content[|content| - 1].CallBlock? then [content[|content| - 1].call] else []
  }

  /** The calls are the call blocks, all of them and in order: call `k` is block `places[k]`. */
  lemma {:induction false} CallsInOrder(content: seq<Block>) returns (places: seq<nat>)
    ensures |places| == |CallsOf(content)|
    ensures forall k :: 0 <= k < |places| ==> places[k] < |content| && content[places[k]] == CallBlock(CallsOf(content)[k])
    ensures forall j, k :: 0 <= j < k < |places| ==> places[j] < places[k]
    ensures forall i :: 0 <= i < |content| && content[i].CallBlock? ==> i in places
  {
    if content == [] {
      places := [];
    } else {
      var n := |content| - 1;
      var before := CallsInOrder(content[..n]);
      places := before + if content[n].CallBlock? then [n] else [];
      forall i | 0 <= i < |content| && content[i].CallBlock? ensures i in places {
        if i < n {
          assert content[..n][i].CallBlock?;
        }
      }
    }
  }

  predicate Failed(m: Message) { m.Assistant? && (m.stop == Error || m.stop == Aborted) }

  function ToolCalls(m: Message): seq<ToolCall> {
    if m.Assistant? && !Failed(m) then CallsOf(m.blocks) else []
  }

  datatype Event =
    | AgentStart
    | AgentEnd(messages: seq<Message>)
    | TurnStart
    | TurnEnd(message: Message, results: seq<Message>)
    | MessageStart(message: Message)
    | MessageUpdate(message: Message)
    | MessageEnd(message: Message)
    | ToolStart(id: string)
    | ToolUpdate(id: string)
    | ToolEnd(id: string)

  /** Where messages taken over for the transcript come from. */
  datatype Source = Caller | Steering | FollowUp

  /** What an observer of a run sees: the events, messages taken over (prompts, and messages drained
      from a queue), provider requests, whether a finished batch of tool calls leaves results to
      answer, the request of a hook to stop, and the abort signal. */
  datatype Entry =
    | Emitted(event: Event)
    | Taken(source: Source, messages: seq<Message>)
    | Requested(context: seq<Message>)
    | BatchDone(more: bool)
    | StopRequested
    | AbortSeen

  datatype Phase = Idle | Opened | Started | Prompting | Waiting | Replied | Between | Failing | Done

  /** Whom the loop asked, since the turn ended, whether to go on. */
  datatype Asked = Nobody | SteeringAsked | FollowUpsAsked | StopAsked

  /** What a run began with. */
  datatype Beginning = Beginning(source: Source, messages: seq<Message>)

  /** What decides whether the run goes on; `more` says that the last batch left results to answer. */
  datatype Plan = Plan(began: Beginning, asked: Asked, more: bool)

  /** The observer's memory. `base` is the transcript before the run. */
  datatype Monitor = Monitor(
    phase: Phase,
    base: seq<Message>,
    plan: Plan,
    transcript: seq<Message>,
    open: Option<Message>,
    owed: seq<Message>,
    steered: seq<Message>,     // taken from the steering queue so far
    followed: seq<Message>,    // taken from the follow-up queue so far
    reply: Message,
    started: nat,
    results: seq<Message>,
    running: multiset<string>,
    finished: multiset<string>,
    repeated: bool,     // a call started while one with the same id was running
    updates: seq<string>,     // ids of the updates sent so far
    aborted: bool)
  {
    function Calls(): seq<ToolCall> { ToolCalls(reply) }
  }

  function Initial(base: seq<Message>): Monitor {
    Monitor(Idle, base, Plan(Beginning(Caller, []), Nobody, false), [], None, [], [], [], User(""), 0, [],
            multiset{}, multiset{}, false, [], false)
  }

  /** A tool-result message answers a call. */
  predicate Answers(m: Message, call: ToolCall) {
    m.ToolResult? && m.callId == call.id && m.toolName == call.name
  }

  /** The results answer the first calls in source order: all of them unless the run was
      aborted, and at least one if there are any. */
  predicate Paired(calls: seq<ToolCall>, results: seq<Message>, aborted: bool) {
    && |results| <= |calls|
    && (forall k :: 0 <= k < |results| ==> Answers(results[k], calls[k]))
    && (calls != [] ==> results != [])
    && (!aborted ==> |results| == |calls|)
  }

  predicate MayStartMessage(o: Monitor, m: Message) {
    o.open.None? &&
    match o.phase
    case Prompting => o.owed != [] && m == o.owed[0]
    case Waiting => true
    case Replied =>
      && |o.results| < o.started <= |o.Calls()|
      && Answers(m, o.Calls()[|o.results|])
      && m.callId in o.finished
    case _ => false
  }

  predicate MayEndMessage(o: Monitor, m: Message) {
    o.open.Some? &&
    match o.phase
    case Prompting => m == o.open.value && o.owed != [] && m == o.owed[0]
    case Waiting => m.Assistant?
    case Replied => m == o.open.value
    case _ => false
  }

  predicate MayEmit(o: Monitor, e: Event) {
    match e
    case AgentStart => o.phase.Opened?
    case TurnStart => o.phase.Started? || (o.phase.Between? && MayGoOn(o))
    case MessageStart(m) => MayStartMessage(o, m)
    case MessageUpdate(_) => o.phase.Waiting? && o.open.Some?
    case MessageEnd(m) => MayEndMessage(o, m)
    case ToolStart(id) =>
      o.phase.Replied? && o.open.None? && o.started < |o.Calls()| && id == o.Calls()[o.started].id
    case ToolUpdate(id) => o.phase.Replied? && o.open.None? && id in o.running
    case ToolEnd(id) => o.phase.Replied? && o.open.None? && id in o.running
    case TurnEnd(m, results) =>
      && o.phase.Replied? && o.open.None? && m == o.reply && results == o.results
      && o.running == multiset{} && o.finished == multiset{}
      && o.started == |o.results|
      && Paired(o.Calls(), o.results, o.aborted)
    case AgentEnd(messages) =>
      && (o.phase.Failing? || (o.phase.Between? && MayStop(o)))
      && o.open.None? && o.owed == [] && messages == o.transcript
  }

  /** There is a reason for another turn: results to answer, steering messages, or follow-ups. */
  predicate MayGoOn(o: Monitor) {
    if o.owed != [] then o.plan.asked.SteeringAsked? || o.plan.asked.FollowUpsAsked? else o.plan.asked.SteeringAsked? && o.plan.more
  }

  /** A hook asked to stop, or nothing was left to answer and both queues gave nothing. */
  predicate MayStop(o: Monitor) {
    o.plan.asked.StopAsked? || (o.plan.asked.FollowUpsAsked? && !o.plan.more)
  }

  /** A run begins with messages once. The steering queue is asked once before the first request,
      unless the run began with messages from it, and once after each turn; follow-ups are asked
      for when there is nothing else to do. */
  predicate MayTake(o: Monitor, source: Source) {
    match o.phase
    case Idle => true
    case Prompting => source.Steering? && o.plan.asked.Nobody? && !o.plan.began.source.Steering?
    case Between =>
      || (source.Steering? && o.plan.asked.Nobody?)
      || (source.FollowUp? && o.plan.asked.SteeringAsked? && !o.plan.more)
    case _ => false
  }

  predicate Allowed(o: Monitor, x: Entry) {
    match x
    case Emitted(e) => MayEmit(o, e)
    case Taken(source, _) => o.open.None? && o.owed == [] && MayTake(o, source)
    case Requested(context) =>
      && o.phase.Prompting? && o.open.None? && o.owed == [] && context == o.base + o.transcript
      && (!o.plan.asked.Nobody? || o.plan.began.source.Steering?)
    case BatchDone(_) =>
      && o.phase.Replied? && o.open.None? && o.Calls() != []
      && o.started == |o.results| && o.running == multiset{} && o.finished == multiset{}
    case StopRequested => o.phase.Between? && o.open.None? && o.owed == [] && o.plan.asked.Nobody?
    case AbortSeen => !o.phase.Idle? && !o.phase.Done?
  }

  function AfterMessage(o: Monitor, m: Message): Monitor {
    var p := o.(open := None, transcript := o.transcript + [m]);
    match o.phase
    case Prompting => p.(owed := if o.owed == [] then [] else o.owed[1..])
    case Waiting => p.(phase := Replied, reply := m, started := 0, results := [])
    case _ =>
      p.(results := o.results + [m],
         finished := if m.ToolResult? then o.finished - multiset{m.callId} else o.finished)
  }

  function AfterEvent(o: Monitor, e: Event): Monitor {
    match e
    case AgentStart => o.(phase := Started)
    case TurnStart => o.(phase := Prompting)
    case MessageStart(m) => o.(open := Some(m))
    case MessageUpdate(m) => o.(open := Some(m))
    case MessageEnd(m) => AfterMessage(o, m)
    case ToolStart(id) =>
      o.(started := o.started + 1, running := o.running + multiset{id}, repeated := o.repeated || id in o.running)
    case ToolUpdate(id) => o.(updates := o.updates + [id])
    case ToolEnd(id) => o.(running := o.running - multiset{id}, finished := o.finished + multiset{id})
    case TurnEnd(m, _) => o.(phase := if Failed(m) then Failing else Between, plan := o.plan.(asked := Nobody))
    case AgentEnd(_) => o.(phase := Done)
  }

  function After(o: Monitor, x: Entry): Monitor {
    match x
    case Emitted(e) => AfterEvent(o, e)
    case Taken(source, messages) =>
      var p := o.(owed := messages,
                  steered := if source.Steering? then o.steered + messages else o.steered,
                  followed := if source.FollowUp? then o.followed + messages else o.followed);
      if o.phase.Idle? then p.(phase := Opened, plan := o.plan.(began := Beginning(source, messages)))
      else p.(plan := o.plan.(asked := if source.Steering? then SteeringAsked else FollowUpsAsked))
    case Requested(_) => o.(phase := Waiting, plan := o.plan.(more := false))
    case BatchDone(more) => o.(plan := o.plan.(more := more))
    case StopRequested => o.(plan := o.plan.(asked := StopAsked))
    case AbortSeen => o.(aborted := true)
  }

  /** `os` are the monitor's states along the log, and it allowed every entry. */
  ghost predicate Accepted(base: seq<Message>, os: seq<Monitor>, log: seq<Entry>) {
    && |os| == |log| + 1
    && os[0] == Initial(base)
    && forall i :: 0 <= i < |log| ==> Allowed(os[i], log[i]) && os[i + 1] == After(os[i], log[i])
  }

  lemma AcceptMore(base: seq<Message>, os: seq<Monitor>, log: seq<Entry>, x: Entry)
    requires Accepted(base, os, log) && Allowed(os[|log|], x)
    ensures Accepted(base, os + [After(os[|log|], x)], log + [x])
  {
    var p := After(os[|log|], x);
    forall i | 0 <= i < |log| + 1
      ensures Allowed((os + [p])[i], (log + [x])[i]) && (os + [p])[i + 1] == After((os + [p])[i], (log + [x])[i])
    {
      if i < |log| {
        assert Allowed(os[i], log[i]) && os[i + 1] == After(os[i], log[i]);
      }
    }
  }

  predicate ToolBoundary(x: Entry) { x.Emitted? && (x.event.ToolStart? || x.event.ToolEnd?) }

  lemma OthersLeaveCalls(o: Monitor, x: Entry)
    requires !ToolBoundary(x)
    ensures After(o, x).running == o.running && After(o, x).repeated == o.repeated
  {
  }
}
