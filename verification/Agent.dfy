/** The stateful agent and its loop. Everything outside the loop is arbitrary: what the provider
    streams, what tools and hooks do, and which messages, mode changes, clears and aborts arrive
    while an event is being delivered. */
module Agent {
  import opened Options
  import opened Protocol
  import RunFacts
  import opened MessageQueue
  import opened Reducer
  import opened ToolRuns
  import opened ToolBatches
  import opened Streaming

  /** What was there when a run began: the transcript, and what the queues had handed out. */
  datatype Origin = Origin(base: seq<Message>, steered: seq<Message>, followed: seq<Message>)

  /** How a request to run ends: refused, or with the messages the run added. */
  datatype RunOutcome = Busy | NothingToContinue | LastIsAssistant | Ran(newMessages: seq<Message>)

  class Agent {
    const steering: PendingMessageQueue
    const followUp: PendingMessageQueue

    var messages: seq<Message>
    var streamingMessage: Option<Message>
    var pendingToolCalls: set<string>
    var errorMessage: Option<string>
    var isStreaming: bool
    var active: bool
    var aborted: bool

    /** The run as an observer sees it. */
    ghost var origin: Origin
    ghost var log: seq<Entry>
    ghost var history: seq<Monitor>
    ghost var obs: Monitor

    function State(): AgentState
      reads this
    {
      AgentState(messages, streamingMessage, pendingToolCalls, errorMessage)
    }

    /** The run so far keeps the protocol, and the state mirrors it. */
    ghost predicate Valid()
      reads this, steering, followUp
    {
      && steering != followUp && steering.Valid() && followUp.Valid()
      && Accepted(origin.base, history, log)
      && obs == history[|log|] && obs.base == origin.base
      && steering.drained == origin.steered + obs.steered
      && followUp.drained == origin.followed + obs.followed
      && Mirrors(State(), obs)
      && aborted == obs.aborted
    }

    ghost predicate Running()
      reads this, steering, followUp
    {
      Valid() && active && isStreaming && !obs.phase.Idle? && !obs.phase.Done?
    }

    constructor (initial: seq<Message>, steeringMode: QueueMode, followUpMode: QueueMode)
      ensures Idle() && messages == initial && fresh(steering) && fresh(followUp)
      ensures steering.messages == [] && followUp.messages == []
    {
      steering := new PendingMessageQueue(steeringMode);
      followUp := new PendingMessageQueue(followUpMode);
      messages, streamingMessage, pendingToolCalls, errorMessage := initial, None, {}, None;
      isStreaming, active, aborted := false, false, false;
      origin, log, history, obs := Origin(initial, [], []), [], [Initial(initial)], Initial(initial);
    }

    /** What may happen at any await: queueing, mode changes, clearing, and an abort. */
    method Interfere()
      requires Running()
      modifies this`aborted, this`log, this`history, this`obs, steering, followUp
      ensures Running() && UpToAbort(old(obs), obs) && old(log) <= log
    {
      var more: bool := *;
      var steps: nat := *;
      while more && steps > 0
        invariant Running() && UpToAbort(old(obs), obs) && old(log) <= log
        decreases steps
      {
        var queue := steering;
        var other: bool := *;
        if other { queue := followUp; }
        var action: nat := *;
        if action == 0 {
          var message: Message := *;
          queue.Enqueue(message);
        } else if action == 1 {
          var mode: QueueMode := *;
          queue.SetMode(mode);
        } else if action == 2 {
          queue.Clear();
        } else if !aborted {
          Abort();
        }
        more := *;
        steps := steps - 1;
      }
    }

    method Abort()
      requires Running() && !aborted
      modifies this`aborted, this`log, this`history, this`obs
      ensures Running() && obs == old(obs).(aborted := true) && log == old(log) + [AbortSeen]
    {
      aborted := true;
      Note(AbortSeen);
    }

    /** Records an entry of the log. */
    ghost method Note(x: Entry)
      requires Accepted(origin.base, history, log) && obs == history[|log|] && Allowed(obs, x)
      modifies this`log, this`history, this`obs
      ensures log == old(log) + [x] && obs == After(old(obs), x)
      ensures Accepted(origin.base, history, log) && obs == history[|log|]
    {
      AcceptMore(origin.base, history, log, x);
      obs := After(obs, x);
      log := log + [x];
      history := history + [obs];
    }

    /** Reduces the state for an event. */
    method ProcessEvents(event: Event)
      modifies this`messages, this`streamingMessage, this`pendingToolCalls, this`errorMessage
      ensures State() == Reduce(old(State()), event)
    {
      match event {
        case MessageStart(message) => streamingMessage := Some(message);
        case MessageUpdate(message) => streamingMessage := Some(message);
        case MessageEnd(message) =>
          streamingMessage := None;
          messages := messages + [message];
        case ToolStart(id) => pendingToolCalls := pendingToolCalls + {id};
        case ToolEnd(id) => pendingToolCalls := pendingToolCalls - {id};
        case TurnEnd(message, _) =>
          if message.Assistant? && message.errorMessage.Some? && message.errorMessage.value != "" {
            errorMessage := message.errorMessage;
          }
        case AgentEnd(_) => streamingMessage := None;
        case _ =>
      }
    }

    /** Emits an event the protocol allows, and awaits its listeners. */
    method Emit(event: Event)
      requires Running() && MayEmit(obs, event) && !event.AgentEnd?
      modifies this, steering, followUp
      ensures Running() && origin == old(origin)
      ensures UpToAbort(AfterEvent(old(obs), event), obs)
    {
      StepMirrors(State(), obs, Emitted(event));
      ProcessEvents(event);
      Note(Emitted(event));
      Interfere();
    }

    // Tool batches

    /** Decides whether a call reaches its tool; if not, gives its outcome. */
    method PrepareToolCall(call: ToolCall, run: ToolRun) returns (r: Option<Finalized>)
      requires Running()
      modifies this`aborted, this`log, this`history, this`obs, steering, followUp
      ensures Running() && UpToAbort(old(obs), obs)
      ensures r.Some? ==> r.value.call == call
      ensures !aborted ==> r == Refused(call, run)
      ensures old(aborted) && run.known && run.argumentError.None? && !run.before.BeforeThrows? ==>
                r == Some(Fail(call, OperationAborted))
    {
      if !run.known {
        return Some(Fail(call, NotFound(call.name)));
      }
      if run.argumentError.Some? {
        return Some(Fail(call, Output(run.argumentError.value)));
      }
      if !run.before.NoBefore? {
        Interfere();
        if run.before.BeforeThrows? {
          return Some(Fail(call, Output(run.before.message)));
        }
        if aborted {
          return Some(Fail(call, OperationAborted));
        }
        if run.before.Block? {
          return Some(Fail(call, if run.before.reason == "" then Blocked else Output(run.before.reason)));
        }
      }
      if aborted {
        return Some(Fail(call, OperationAborted));
      }
      return None;
    }

    /** Reports one outcome as a tool-result message. */
    method EmitToolResult(message: Message)
      requires Running() && MayEmit(obs, MessageStart(message)) && obs.phase.Replied?
      modifies this, steering, followUp
      ensures Running() && origin == old(origin)
      ensures UpToAbort(AfterEvent(AfterEvent(old(obs), MessageStart(message)), MessageEnd(message)), obs)
    {
      Emit(MessageStart(message));
      Emit(MessageEnd(message));
    }

    /** Starts a call and runs it up to its outcome. */
    method StartAndRun(call: ToolCall, run: ToolRun) returns (final: Finalized)
      requires Running() && MayEmit(obs, ToolStart(call.id))
      modifies this, steering, followUp
      ensures Running() && origin == old(origin)
      ensures UpToAbort(AfterEvent(old(obs), ToolStart(call.id)).(updates := obs.updates), obs)
      ensures final.call == call
      ensures !aborted ==> final == Outcome(call, run) && obs.updates == old(obs).updates + UpdatesOf(call, run)
    {
      RefusedExactly(call, run);
      Emit(ToolStart(call.id));
      var outcome := PrepareToolCall(call, run);
      if outcome.Some? {
        final := outcome.value;
      } else {
        RunUpdates(call.id, run.updates);
        Interfere();
        final := Executed(call, run);
      }
    }

    /** Ends and reports call `k`, which has just run. */
    method EndAndReport(calls: seq<ToolCall>, k: nat, final: Finalized, ghost o: Monitor)
      requires Running() && AtCall(o, calls, k) && UpToAbort(AfterEvent(o, ToolStart(calls[k].id)).(updates := obs.updates), obs)
      requires final.call == calls[k]
      modifies this, steering, followUp
      ensures Running() && origin == old(origin) && Settled(o, obs, o.results, [ResultMessage(final)])
      ensures (old(aborted) ==> aborted) && obs.updates == old(obs).updates
    {
      ghost var p := obs;
      EndFollowsStart(calls, k, o, p);
      Emit(ToolEnd(calls[k].id));
      ghost var q := obs;
      ResultFollowsEnd(calls, k, o, p, q, ResultMessage(final));
      EmitToolResult(ResultMessage(final));
      CallSettles(calls, k, o, p, q, ResultMessage(final), obs);
    }

    /** Starts, runs, ends and reports call `k`, the calls before it being settled. */
    method ExecuteOne(calls: seq<ToolCall>, k: nat, run: ToolRun) returns (final: Finalized)
      requires Running() && AtCall(obs, calls, k)
      modifies this, steering, followUp
      ensures Running() && origin == old(origin) && Settled(old(obs), obs, old(obs).results, [ResultMessage(final)])
      ensures final.call == calls[k]
      ensures !aborted ==> final == Outcome(calls[k], run) && obs.updates == old(obs).updates + UpdatesOf(calls[k], run)
    {
      ghost var o := obs;
      final := StartAndRun(calls[k], run);
      EndAndReport(calls, k, final, o);
    }

    /** One call after the other, each reported before the next starts. */
    method ExecuteToolCallsSequential(calls: seq<ToolCall>, runs: seq<ToolRun>)
      returns (results: seq<Message>, terminate: bool)
      requires Running() && AtReply(obs, calls) && |runs| == |calls|
      modifies this, steering, followUp
      ensures Running() && origin == old(origin) && Settled(old(obs), obs, [], results)
      ensures Paired(calls, results, aborted)
      ensures old(aborted) && calls != [] ==> |results| == 1
      ensures !aborted ==>
                && results == Messages(Outcomes(calls, runs))
                && (terminate <==> calls != [] && forall k :: 0 <= k < |runs| ==> AsksToTerminate(runs[k]))
                && obs.updates == old(obs).updates + AllUpdates(calls, runs)
    {
      results := [];
      var finalized: seq<Finalized> := [];
      var i := 0;
      while i < |calls|
        invariant |finalized| == i <= |calls| && (old(aborted) ==> i == 0 && aborted)
        invariant Running() && origin == old(origin) && Settled(old(obs), obs, [], results)
        invariant Sequential(calls, runs, finalized, results, aborted, old(obs).updates, obs.updates)
      {
        ghost var p := obs;
        var final := ExecuteOne(calls, i, runs[i]);
        SettledMore(old(obs), p, results, ResultMessage(final), obs);
        SequentialMore(calls, runs, finalized, results, p.aborted, old(obs).updates, p.updates, final, aborted, obs.updates);
        finalized := finalized + [final];
        results := results + [ResultMessage(final)];
        i := i + 1;
        if aborted {
          break;
        }
      }
      SequentialDone(calls, runs, finalized, results, aborted, old(obs).updates, obs.updates);
      terminate := ShouldTerminate(finalized);
    }

    /** The updates a tool sends while it runs. */
    method RunUpdates(id: string, count: nat)
      requires Running() && obs.phase.Replied? && obs.open.None? && id in obs.running
      modifies this, steering, followUp
      ensures Running() && origin == old(origin)
      ensures UpToAbort(old(obs).(updates := old(obs).updates + seq(count, _ => id)), obs)
    {
      for u := 0 to count
        invariant Running() && origin == old(origin)
        invariant UpToAbort(old(obs).(updates := old(obs).updates + seq(u, _ => id)), obs)
      {
        assert seq(u + 1, _ => id) == seq(u, _ => id) + [id];
        Emit(ToolUpdate(id));
      }
    }

    /** Fails call `k` without running it. */
    method FailOne(calls: seq<ToolCall>, k: nat) returns (final: Finalized)
      requires Running() && AtCall(obs, calls, k)
      modifies this, steering, followUp
      ensures Running() && origin == old(origin) && Settled(old(obs), obs, old(obs).results, [ResultMessage(final)])
      ensures final == Truncated(calls)[k] && obs.updates == old(obs).updates
    {
      ghost var o := obs;
      final := Fail(calls[k], CutOff(calls[k].name));
      Emit(ToolStart(calls[k].id));
      EndAndReport(calls, k, final, o);
    }

    /** Fails every call of a reply that was cut off, without running any. */
    method FailToolCallsFromTruncatedMessage(calls: seq<ToolCall>) returns (results: seq<Message>, terminate: bool)
      requires Running() && AtReply(obs, calls)
      modifies this, steering, followUp
      ensures Running() && origin == old(origin) && Settled(old(obs), obs, [], results)
      ensures results == Messages(Truncated(calls)) && !terminate && obs.updates == old(obs).updates
    {
      results := [];
      for i := 0 to |calls|
        invariant obs.updates == old(obs).updates
        invariant Running() && origin == old(origin) && Settled(old(obs), obs, [], results)
        invariant results == Messages(Truncated(calls))[..i]
      {
        ghost var o := obs;
        var final := FailOne(calls, i);
        SettledMore(old(obs), o, results, ResultMessage(final), obs);
        TruncatedNext(calls, i);
        results := results + [ResultMessage(final)];
      }
      terminate := false;
    }

    /** Ends a running call of a concurrent batch. */
    method EndInBatch(calls: seq<ToolCall>, k: nat, ghost o: Monitor, ghost live: seq<bool>, ghost done: seq<bool>)
      requires Running() && InBatch(o, obs, calls, live, done) && k < |live| && live[k] && !done[k]
      modifies this, steering, followUp
      ensures Running() && origin == old(origin) && InBatch(o, obs, calls, live[k := false], done[k := true])
      ensures (old(aborted) ==> aborted) && obs.updates == old(obs).updates
    {
      ghost var p := obs;
      LiveCallRuns(o, p, calls, live, done, k);
      Emit(ToolEnd(calls[k].id));
      EndSteps(p, calls[k].id, obs);
      BatchEnds(o, p, calls, live, done, k, obs);
    }

    /** Starts the next call and decides whether it reaches its tool. */
    method StartInBatch(calls: seq<ToolCall>, run: ToolRun, ghost live: seq<bool>, ghost done: seq<bool>, k: nat, ghost o: Monitor)
      returns (outcome: Option<Finalized>)
      requires Running() && InBatch(o, obs, calls, live, done) && k == |live| < |calls|
      modifies this, steering, followUp
      ensures Running() && origin == old(origin) && InBatch(o, obs, calls, live + [true], done + [false])
      ensures outcome.Some? ==> outcome.value.call == calls[k]
      ensures !aborted ==> outcome == Refused(calls[k], run)
      ensures (old(aborted) ==> aborted) && obs.updates == old(obs).updates
    {
      ghost var p := obs;
      Emit(ToolStart(calls[k].id));
      outcome := PrepareToolCall(calls[k], run);
      StartSteps(p, calls[k].id, obs);
      BatchStarts(o, p, calls, live, done, obs);
    }

    /** Starts the next call, and ends it at once if it does not reach its tool. */
    method StartOne(calls: seq<ToolCall>, run: ToolRun, entries: seq<Option<Finalized>>, ghost o: Monitor)
      returns (outcome: Option<Finalized>)
      requires Running() && |entries| < |calls| && InBatch(o, obs, calls, Live(entries), Finished(entries))
      modifies this, steering, followUp
      ensures Running() && origin == old(origin)
      ensures InBatch(o, obs, calls, Live(entries + [outcome]), Finished(entries + [outcome]))
      ensures outcome.Some? ==> outcome.value.call == calls[|entries|]
      ensures !aborted ==> outcome == Refused(calls[|entries|], run)
      ensures (old(aborted) ==> aborted) && obs.updates == old(obs).updates
    {
      outcome := StartInBatch(calls, run, Live(entries), Finished(entries), |entries|, o);
      EntriesGrow(entries, outcome);
      if outcome.Some? {
        EndInBatch(calls, |entries|, o, Live(entries) + [true], Finished(entries) + [false]);
      }
    }

    /** Preflight in source order: starts each call and settles those that never reach their tool. */
    method StartBatch(calls: seq<ToolCall>, runs: seq<ToolRun>) returns (entries: seq<Option<Finalized>>)
      requires Running() && AtReply(obs, calls) && |runs| == |calls|
      modifies this, steering, followUp
      ensures Running() && origin == old(origin)
      ensures |entries| <= |calls| && InBatch(old(obs), obs, calls, Live(entries), Finished(entries))
      ensures Preflighted(calls, runs, entries, aborted)
      ensures (calls != [] ==> entries != []) && (!aborted ==> |entries| == |calls|)
      ensures old(aborted) && calls != [] ==> |entries| == 1
      ensures (old(aborted) ==> aborted) && obs.updates == old(obs).updates
    {
      entries := [];
      var i := 0;
      while i < |calls|
        invariant |entries| == i <= |calls| && (old(aborted) ==> i == 0 && aborted)
        invariant Running() && origin == old(origin) && InBatch(old(obs), obs, calls, Live(entries), Finished(entries))
        invariant Preflighted(calls, runs, entries, aborted) && obs.updates == old(obs).updates
      {
        ghost var before := aborted;
        var outcome := StartOne(calls, runs[i], entries, old(obs));
        PreflightMore(calls, runs, entries, before, outcome, aborted);
        entries := entries + [outcome];
        i := i + 1;
        if aborted {
          break;
        }
      }
    }

    /** A running call of a concurrent batch sends an update. */
    method UpdateInBatch(calls: seq<ToolCall>, k: nat, ghost o: Monitor, ghost live: seq<bool>, ghost done: seq<bool>)
      requires Running() && InBatch(o, obs, calls, live, done) && k < |live| && live[k]
      modifies this, steering, followUp
      ensures Running() && origin == old(origin) && InBatch(o, obs, calls, live, done)
      ensures (old(aborted) ==> aborted) && obs.updates == old(obs).updates + [calls[k].id]
    {
      ghost var p := obs;
      LiveCallRuns(o, p, calls, live, done, k);
      Emit(ToolUpdate(calls[k].id));
      BatchSends(o, p, calls, live, done, calls[k].id, obs);
    }

    /** A waiting call of a concurrent batch comes to its end. */
    method SettleInBatch(calls: seq<ToolCall>, runs: seq<ToolRun>, entries: seq<Option<Finalized>>, k: nat, ghost o: Monitor)
      returns (settled: seq<Option<Finalized>>)
      requires |entries| <= |calls| == |runs| && k < |entries| && entries[k].None?
      requires Running() && InBatch(o, obs, calls, Live(entries), Finished(entries))
      requires EntriesFit(calls, runs, entries, aborted)
      modifies this, steering, followUp
      ensures Running() && origin == old(origin)
      ensures settled == entries[k := Some(Executed(calls[k], runs[k]))]
      ensures InBatch(o, obs, calls, Live(settled), Finished(settled))
      ensures EntriesFit(calls, runs, settled, aborted)
      ensures (old(aborted) ==> aborted) && obs.updates == old(obs).updates
      ensures Finished(settled) == Finished(entries)[k := true]
    {
      ghost var p := obs;
      Interfere();
      BatchUpToAbort(o, p, calls, Live(entries), Finished(entries), obs);
      EndInBatch(calls, k, o, Live(entries), Finished(entries));
      EntrySettles(calls, runs, entries, old(aborted), k, aborted);
      settled := entries[k := Some(Executed(calls[k], runs[k]))];
    }

    /** One step of waiting call `k`: its next update, or its end. */
    method StepBatch(calls: seq<ToolCall>, runs: seq<ToolRun>, entries: seq<Option<Finalized>>, left: seq<nat>, k: nat,
                     ghost o: Monitor, ghost total: multiset<string>)
      returns (entries': seq<Option<Finalized>>, left': seq<nat>)
      requires Running() && Midway(o, obs, calls, runs, entries, left, total) && k < |entries| && entries[k].None?
      modifies this, steering, followUp
      ensures Running() && origin == old(origin) && (old(aborted) ==> aborted)
      ensures Midway(o, obs, calls, runs, entries', left', total) && |entries'| == |entries|
      ensures Work(left', Finished(entries')) < Work(left, Finished(entries))
    {
      entries', left' := entries, left;
      WorkDrops(left, Finished(entries), k);
      AwaitsLess(Ids(calls), left, Finished(entries), k, obs.updates, total);
      if left[k] > 0 {
        UpdateInBatch(calls, k, o, Live(entries), Finished(entries));
        left' := left[k := left[k] - 1];
      } else {
        entries' := SettleInBatch(calls, runs, entries, k, o);
      }
    }

    /** Runs the waiting calls concurrently: at each step any of them may send its next update or
        come to its end. */
    method RunBatch(calls: seq<ToolCall>, runs: seq<ToolRun>, started: seq<Option<Finalized>>, ghost o: Monitor,
                    ghost total: multiset<string>)
      returns (entries: seq<Option<Finalized>>)
      requires |started| <= |calls| == |runs|
      requires Running() && Midway(o, obs, calls, runs, started, Counts(runs)[..|started|], total)
      modifies this, steering, followUp
      ensures Running() && origin == old(origin) && (old(aborted) ==> aborted)
      ensures |entries| == |started| <= |calls| && forall k :: 0 <= k < |entries| ==> entries[k].Some?
      ensures InBatch(o, obs, calls, Live(entries), Finished(entries)) && EntriesFit(calls, runs, entries, aborted)
      ensures multiset(obs.updates) == total
    {
      entries := started;
      var left := Counts(runs)[..|started|];
      while exists k :: 0 <= k < |entries| && entries[k].None?
        invariant Running() && origin == old(origin) && (old(aborted) ==> aborted)
        invariant Midway(o, obs, calls, runs, entries, left, total) && |entries| == |started|
        decreases Work(left, Finished(entries))
      {
        var k: nat :| k < |entries| && entries[k].None?;
        entries, left := StepBatch(calls, runs, entries, left, k, o, total);
      }
      BatchOver(o, obs, calls, runs, entries, left, total);
    }

    method ReportOne(calls: seq<ToolCall>, n: nat, results: seq<Message>, message: Message, ghost o: Monitor)
      requires Running() && Reporting(o, obs, calls, n, results) && |results| < n
      requires Answers(message, calls[|results|])
      modifies this, steering, followUp
      ensures Running() && origin == old(origin) && Reporting(o, obs, calls, n, results + [message])
      ensures (old(aborted) ==> aborted) && obs.updates == old(obs).updates
    {
      ghost var p := obs;
      NextReport(o, p, calls, n, results, message);
      EmitToolResult(message);
      ReportSteps(p, message, obs);
      ReportSettles(o, p, calls, n, results, message, obs);
    }

    /** Reports the outcomes of a concurrent batch in source order. */
    method ReportBatch(calls: seq<ToolCall>, runs: seq<ToolRun>, entries: seq<Option<Finalized>>, ghost o: Monitor)
      returns (results: seq<Message>, finals: seq<Finalized>)
      requires |entries| <= |calls| == |runs| && forall k :: 0 <= k < |entries| ==> entries[k].Some?
      requires Running() && InBatch(o, obs, calls, Live(entries), Finished(entries))
      requires EntriesFit(calls, runs, entries, aborted)
      modifies this, steering, followUp
      ensures Running() && origin == old(origin) && Reporting(o, obs, calls, |entries|, results)
      ensures |results| == |entries| && FinalsFit(calls, runs, finals, results, aborted)
      ensures (old(aborted) ==> aborted) && obs.updates == old(obs).updates
    {
      BatchReports(o, obs, calls, Live(entries), Finished(entries));
      results, finals := [], [];
      for i := 0 to |entries|
        invariant |results| == |finals| == i
        invariant Running() && origin == old(origin) && Reporting(o, obs, calls, |entries|, results)
        invariant FinalsFit(calls, runs, finals, results, aborted)
        invariant (old(aborted) ==> aborted) && obs.updates == old(obs).updates
      {
        ghost var before := aborted;
        var final := entries[i].value;
        assert EntryFits(calls[i], runs[i], entries[i], old(aborted));
        ReportOne(calls, |entries|, results, ResultMessage(final), o);
        FinalsMore(calls, runs, finals, results, before, final, aborted);
        finals := finals + [final];
        results := results + [ResultMessage(final)];
      }
    }

    /** Starts all calls, runs the tools concurrently in any interleaving, and reports in source
        order; what it yields is what one-by-one execution yields. */
    method ExecuteToolCallsParallel(calls: seq<ToolCall>, runs: seq<ToolRun>)
      returns (results: seq<Message>, terminate: bool)
      requires Running() && AtReply(obs, calls) && |runs| == |calls|
      modifies this, steering, followUp
      ensures Running() && origin == old(origin) && Settled(old(obs), obs, [], results)
      ensures Paired(calls, results, aborted)
      ensures old(aborted) && calls != [] ==> |results| == 1
      ensures !aborted ==>
                && results == Messages(Outcomes(calls, runs))
                && (terminate <==> calls != [] && forall k :: 0 <= k < |runs| ==> AsksToTerminate(runs[k]))
                && multiset(obs.updates) == multiset(old(obs).updates) + multiset(AllUpdates(calls, runs))
    {
      var entries := StartBatch(calls, runs);
      PreflightFits(calls, runs, entries, aborted);
      if !aborted { PreflightComing(calls, runs, entries); }
      ghost var total := multiset(obs.updates) + Coming(Ids(calls), Counts(runs)[..|entries|], Finished(entries));
      entries := RunBatch(calls, runs, entries, old(obs), total);
      var finals;
      results, finals := ReportBatch(calls, runs, entries, old(obs));
      ReportingDone(old(obs), obs, calls, |entries|, results);
      BatchComplete(calls, runs, finals, results, aborted);
      terminate := ShouldTerminate(finals);
    }

    // The loop

    /** Records what is not an event. */
    ghost method Record(x: Entry)
      requires steering != followUp && steering.Valid() && followUp.Valid()
      requires Accepted(origin.base, history, log) && obs == history[|log|] && obs.base == origin.base
      requires Mirrors(State(), obs) && Allowed(obs, x) && !x.Emitted? && !x.AbortSeen? && aborted == obs.aborted
      requires steering.drained == origin.steered + After(obs, x).steered
      requires followUp.drained == origin.followed + After(obs, x).followed
      modifies this`log, this`history, this`obs
      ensures Valid() && obs == After(old(obs), x)
    {
      StepMirrors(State(), obs, x);
      Note(x);
    }

    method PollSteering() returns (taken: seq<Message>)
      requires Running() && Allowed(obs, Taken(Steering, []))
      modifies this, steering, followUp
      ensures Running() && origin == old(origin)
      ensures UpToAbort(old(obs).(owed := taken, steered := old(obs).steered + taken,
                               plan := old(obs).plan.(asked := SteeringAsked)), obs)
    {
      taken := steering.Drain();
      Record(Taken(Steering, taken));
      Interfere();
    }

    method PollFollowUps() returns (taken: seq<Message>)
      requires Running() && Allowed(obs, Taken(FollowUp, []))
      modifies this, steering, followUp
      ensures Running() && origin == old(origin)
      ensures UpToAbort(old(obs).(owed := taken, followed := old(obs).followed + taken,
                               plan := old(obs).plan.(asked := FollowUpsAsked)), obs)
    {
      taken := followUp.Drain();
      Record(Taken(FollowUp, taken));
      Interfere();
    }

    method InjectOne(message: Message, ghost rest: seq<Message>)
      requires Running() && obs.phase.Prompting? && obs.open.None? && obs.owed == [message] + rest
      modifies this, steering, followUp
      ensures Running() && origin == old(origin)
      ensures UpToAbort(old(obs).(owed := rest, transcript := old(obs).transcript + [message]), obs)
    {
      Emit(MessageStart(message));
      ghost var p := obs;
      InjectionSteps(old(obs), message, rest, p, p);
      Emit(MessageEnd(message));
      InjectionSteps(old(obs), message, rest, p, obs);
    }

    /** Adds the messages taken over to the transcript, before the provider is asked. */
    method InjectPending(pending: seq<Message>, context: seq<Message>, newMessages: seq<Message>)
      returns (context': seq<Message>, newMessages': seq<Message>)
      requires Running() && obs.phase.Prompting? && obs.open.None? && obs.owed == pending
      modifies this, steering, followUp
      ensures Running() && origin == old(origin)
      ensures UpToAbort(old(obs).(owed := [], transcript := old(obs).transcript + pending), obs)
      ensures newMessages' == newMessages + pending && context' == context + pending
    {
      context', newMessages' := context, newMessages;
      var i := 0;
      while i < |pending|
        invariant 0 <= i <= |pending|
        invariant Running() && origin == old(origin)
        invariant UpToAbort(old(obs).(owed := pending[i..], transcript := old(obs).transcript + pending[..i]), obs)
        invariant newMessages' == newMessages + pending[..i] && context' == context + pending[..i]
      {
        assert pending[i..] == [pending[i]] + pending[i + 1..];
        assert pending[..i + 1] == pending[..i] + [pending[i]];
        InjectOne(pending[i], pending[i + 1..]);
        context' := context' + [pending[i]];
        newMessages' := newMessages' + [pending[i]];
        i := i + 1;
      }
    }

    /** Passes one provider event on, before the final one. */
    method StreamOne(event: StreamEvent, context: seq<Message>, partial: Option<Message>, ghost o: Monitor)
      returns (context': seq<Message>, partial': Option<Message>)
      requires Running() && UpToAbort(AsRequested(o).(open := partial), obs)
      requires !event.StreamEnd? && (event.StreamStart? ==> partial.None?)
      requires partial.Some? ==> context != []
      modifies this, steering, followUp
      ensures Running() && origin == old(origin)
      ensures UpToAbort(AsRequested(o).(open := partial'), obs)
      ensures partial' == if event.StreamStart? || partial.Some? then Some(event.partial) else None
      ensures context' == if event.StreamStart? then context + [event.partial]
                          else if partial.Some? then PutLast(context, event.partial) else context
    {
      context', partial' := context, partial;
      if event.StreamStart? {
        partial' := Some(event.partial);
        context' := context + [event.partial];
        Emit(MessageStart(event.partial));
      } else if partial.Some? {
        partial' := Some(event.partial);
        context' := PutLast(context, event.partial);
        Emit(MessageUpdate(event.partial));
      }
    }

    /** Passes on the provider's events up to the final one. */
    method StreamEvents(context: seq<Message>, stream: seq<StreamEvent>, ghost final: Message, ghost o: Monitor)
      returns (context': seq<Message>, partial: Option<Message>)
      requires Running() && UpToAbort(AsRequested(o).(open := None), obs)
      requires Starts(stream) <= 1
      modifies this, steering, followUp
      ensures Running() && origin == old(origin)
      ensures UpToAbort(AsRequested(o).(open := partial), obs)
      ensures context' == context + if partial.Some? then [partial.value] else []
      ensures Closed(context', partial.Some?, final) == Streamed(context, stream, false, final)
    {
      context', partial := context, None;
      var i := 0;
      while i < |stream| && !stream[i].StreamEnd?
        invariant 0 <= i <= |stream|
        invariant Running() && origin == old(origin)
        invariant UpToAbort(AsRequested(o).(open := partial), obs)
        invariant context' == context + if partial.Some? then [partial.value] else []
        invariant Starts(stream[i..]) + (if partial.Some? then 1 else 0) <= 1
        invariant Streamed(context', stream[i..], partial.Some?, final) == Streamed(context, stream, false, final)
      {
        assert stream[i..][1..] == stream[i + 1..];
        context', partial := StreamOne(stream[i], context', partial, o);
        i := i + 1;
      }
    }

    /** Steering messages were asked for, or the run began with some. */
    ghost predicate MayRequest()
      reads this
    {
      !obs.plan.asked.Nobody? || obs.plan.began.source.Steering?
    }

    /** Asks the provider and streams its reply into the context. */
    method StreamAssistantResponse(context: seq<Message>, stream: seq<StreamEvent>, final: Message)
      returns (context': seq<Message>)
      requires Running() && obs.phase.Prompting? && obs.open.None? && obs.owed == []
      requires context == origin.base + obs.transcript && MayRequest()
      requires Starts(stream) <= 1 && final.Assistant?
      modifies this, steering, followUp
      ensures Running() && origin == old(origin)
      ensures UpToAbort(AsReplied(old(obs), final), obs)
      ensures context' == context + [final] == Streamed(context, stream, false, final)
    {
      Record(Requested(context));
      Interfere();
      var partial;
      context', partial := StreamEvents(context, stream, final, old(obs));
      context' := FinishReply(context', partial, final, old(obs));
    }

    method FinishReply(context: seq<Message>, partial: Option<Message>, final: Message, ghost o: Monitor)
      returns (context': seq<Message>)
      requires Running() && o.phase.Prompting? && o.open.None? && final.Assistant?
      requires UpToAbort(AsRequested(o).(open := partial), obs)
      modifies this, steering, followUp
      ensures Running() && origin == old(origin)
      ensures UpToAbort(AsReplied(o, final), obs)
      ensures context' == Closed(context, partial.Some?, final)
    {
      if partial.Some? {
        context' := PutLast(context, final);
      } else {
        context' := context + [final];
        Emit(MessageStart(final));
      }
      ghost var open, p := if partial.Some? then partial else Some(final), obs;
      ReplySteps(o, open, p, final, p);
      Emit(MessageEnd(final));
      ReplySteps(o, open, p, final, obs);
    }

    /** Some reply of the provider. When the script of `left` further replies is used up it
        answers with an error. */
    method NextReply(left: nat) returns (stream: seq<StreamEvent>, final: Message)
      ensures Starts(stream) <= 1 && final.Assistant? && (left == 0 ==> Failed(final))
    {
      assert Starts([]) <= 1 && Failed(Assistant([], Error, None));
      stream, final :| Starts(stream) <= 1 && final.Assistant? && (left == 0 ==> Failed(final));
    }

    /** Some behaviour of the tools and hooks for each call of a batch. */
    method NextToolRuns(calls: seq<ToolCall>) returns (runs: seq<ToolRun>)
      ensures |runs| == |calls|
    {
      var idle := ToolRun(false, false, None, NoBefore, 0, Throws(""), NoAfter);
      assert |seq(|calls|, _ => idle)| == |calls|;
      runs :| |runs| == |calls|;
    }

    /** Executes the calls of a reply: all fail when it was cut off, else one by one or
        concurrently. */
    method ExecuteToolCalls(message: Message, calls: seq<ToolCall>, runs: seq<ToolRun>, sequentialMode: bool)
      returns (results: seq<Message>, terminate: bool)
      requires Running() && AtReply(obs, calls) && message == obs.reply && message.Assistant? && |runs| == |calls|
      modifies this, steering, followUp
      ensures Running() && origin == old(origin) && Settled(old(obs), obs, [], results)
      ensures Paired(calls, results, aborted)
      ensures !aborted ==>
                && results == Messages(Expected(message, calls, runs))
                && (terminate <==> message.stop != Length && calls != [] && forall k :: 0 <= k < |runs| ==> AsksToTerminate(runs[k]))
      ensures message.stop == Length ==> obs.updates == old(obs).updates
      ensures !aborted && message.stop != Length ==>
                if sequentialMode || exists k :: 0 <= k < |runs| && runs[k].known && runs[k].sequential
                then obs.updates == old(obs).updates + AllUpdates(calls, runs)
                else multiset(obs.updates) == multiset(old(obs).updates) + multiset(AllUpdates(calls, runs))
    {
      if message.stop == Length {
        results, terminate := FailToolCallsFromTruncatedMessage(calls);
        TruncatedGoesOn(calls);
        TruncatedPair(calls);
      } else {
        if OneByOne(sequentialMode, runs) {
          results, terminate := ExecuteToolCallsSequential(calls, runs);
        } else {
          results, terminate := ExecuteToolCallsParallel(calls, runs);
        }
      }
    }

    /** Between turns or at the head of one: nothing is open, no call is unaccounted for, and the
        messages taken over are those the loop holds. */
    ghost predicate AtRest(pending: seq<Message>)
      reads this
    {
      && (obs.phase.Prompting? || obs.phase.Between?) && obs.open.None?
      && obs.running == multiset{} && obs.finished == multiset{} && obs.owed == pending
    }

    /** The loop's two lists agree with the transcript. */
    ghost predicate ListsAgree(context: seq<Message>, newMessages: seq<Message>)
      reads this
    {
      newMessages == obs.transcript && context == origin.base + newMessages
    }

    /** The turn's outcome: at rest, or about to stop after a failed reply. Nobody was asked yet
        whether to go on. */
    ghost predicate TurnOver(message: Message)
      reads this
    {
      && obs.plan.asked.Nobody?
      && if Failed(message) then obs.phase.Failing? && obs.open.None? && obs.owed == [] && obs.running == multiset{}
         else AtRest([]) && obs.phase.Between?
    }

    /** Closes a turn whose calls are settled. */
    method EndTurn(message: Message, results: seq<Message>)
      requires Running() && obs.phase.Replied? && obs.open.None? && obs.owed == [] && message.Assistant?
      requires message == obs.reply && results == obs.results && obs.started == |results|
      requires obs.running == multiset{} && obs.finished == multiset{}
      requires Paired(obs.Calls(), results, obs.aborted)
      modifies this, steering, followUp
      ensures Running() && origin == old(origin) && obs.transcript == old(obs.transcript) && TurnOver(message)
      ensures obs.plan == old(obs.plan).(asked := Nobody)
    {
      Emit(TurnEnd(message, results));
    }

    /** Executes the calls of a reply, if it has any, which then leave results to answer unless they
        all ask to terminate. `runs` is what the tools and hooks did. */
    method SettleCalls(message: Message) returns (results: seq<Message>, hasMoreToolCalls: bool, runs: seq<ToolRun>)
      requires Running() && message.Assistant? && !Failed(message)
      requires AtReply(obs, CallsOf(message.blocks)) && obs.reply == message && !obs.plan.more
      modifies this, steering, followUp
      ensures Running() && origin == old(origin)
      ensures Settled(old(obs), obs.(plan := old(obs).plan), [], results)
      ensures obs.plan == old(obs).plan.(more := hasMoreToolCalls)
      ensures var calls := CallsOf(message.blocks);
              && Paired(calls, results, aborted)
              && |runs| == |calls|
              && (hasMoreToolCalls ==> calls != [])
              && (!aborted ==>
                    && results == Messages(Expected(message, calls, runs))
                    && (hasMoreToolCalls <==>
                          calls != [] && (message.stop == Length || exists k :: 0 <= k < |runs| && !AsksToTerminate(runs[k]))))
    {
      var toolCalls := CallsOf(message.blocks);
      results, hasMoreToolCalls := [], false;
      runs := NextToolRuns(toolCalls);
      if |toolCalls| > 0 {
        var terminate;
        var sequentialMode: bool := *;     // as configured
        results, terminate := ExecuteToolCalls(message, toolCalls, runs, sequentialMode);
        hasMoreToolCalls := !terminate;
        Record(BatchDone(hasMoreToolCalls));
      } else {
        assert obs.transcript + [] == obs.transcript;
        assert Messages(Expected(message, toolCalls, runs)) == [];
      }
    }

    /** The part of a turn after a reply that did not fail: tool calls, and the end of the turn. */
    method FinishTurn(message: Message, context: seq<Message>, newMessages: seq<Message>)
      returns (context': seq<Message>, newMessages': seq<Message>, hasMoreToolCalls: bool)
      requires Running() && message.Assistant? && !Failed(message) && obs.owed == [] && !obs.plan.more
      requires AtReply(obs, CallsOf(message.blocks)) && obs.reply == message && ListsAgree(context, newMessages)
      modifies this, steering, followUp
      ensures Running() && origin == old(origin) && ListsAgree(context', newMessages') && TurnOver(message)
      ensures obs.plan == Plan(old(obs).plan.began, Nobody, hasMoreToolCalls)
    {
      var toolResults, runs;
      toolResults, hasMoreToolCalls, runs := SettleCalls(message);
      context' := context + toolResults;
      newMessages' := newMessages + toolResults;
      assert ListsAgree(context', newMessages') by {
        assert origin.base + newMessages + toolResults == origin.base + (newMessages + toolResults);
      }
      EndTurn(message, toolResults);
    }

    /** One turn: inject what is pending, ask the provider, and execute the calls of its reply. */
    method RunTurn(pending: seq<Message>, context: seq<Message>, newMessages: seq<Message>,
                   stream: seq<StreamEvent>, message: Message)
      returns (context': seq<Message>, newMessages': seq<Message>, hasMoreToolCalls: bool)
      requires Running() && AtRest(pending) && obs.phase.Prompting? && ListsAgree(context, newMessages)
      requires Starts(stream) <= 1 && message.Assistant? && MayRequest()
      modifies this, steering, followUp
      ensures Running() && origin == old(origin) && ListsAgree(context', newMessages') && TurnOver(message)
      ensures obs.plan == Plan(old(obs).plan.began, Nobody, hasMoreToolCalls)
    {
      context', newMessages' := InjectPending(pending, context, newMessages);
      context' := StreamAssistantResponse(context', stream, message);
      newMessages' := newMessages' + [message];
      if Failed(message) {
        hasMoreToolCalls := false;
        EndTurn(message, []);
        return;
      }
      context', newMessages', hasMoreToolCalls := FinishTurn(message, context', newMessages');
    }

    /** Emits `agent_end`; nothing is emitted after it. */
    method EmitAgentEnd(newMessages: seq<Message>)
      requires Running() && MayEmit(obs, AgentEnd(newMessages)) && obs.running == multiset{}
      modifies this
      ensures Valid() && origin == old(origin) && active == old(active) && isStreaming == old(isStreaming)
      ensures obs == old(obs).(phase := Done) && log == old(log) + [Emitted(AgentEnd(newMessages))]
    {
      StepMirrors(State(), obs, Emitted(AgentEnd(newMessages)));
      ProcessEvents(AgentEnd(newMessages));
      Note(Emitted(AgentEnd(newMessages)));
    }

    /** The run is over, and its three lists are the same. */
    ghost predicate Ended(context: seq<Message>, newMessages: seq<Message>)
      reads this
    {
      && obs.phase.Done? && obs.open.None? && obs.running == multiset{}
      && ListsAgree(context, newMessages)
      && log != [] && log[|log| - 1] == Emitted(AgentEnd(newMessages))
    }

    /** Another turn has a reason: results to answer or messages to inject. */
    ghost predicate GoesOn(pending: seq<Message>, hasMoreToolCalls: bool)
      reads this
    {
      || (obs.plan.asked.SteeringAsked? && obs.plan.more == hasMoreToolCalls)
      || (obs.plan.asked.FollowUpsAsked? && pending != [])
    }

    /** One turn and what follows it: the end of a run that failed or was stopped, or the question
        for steering messages. */
    method RunTurnAndPoll(pending: seq<Message>, context: seq<Message>, newMessages: seq<Message>, left: nat)
      returns (context': seq<Message>, newMessages': seq<Message>, pending': seq<Message>, hasMoreToolCalls: bool, over: bool)
      requires Running() && AtRest(pending) && obs.phase.Prompting? && ListsAgree(context, newMessages) && MayRequest()
      modifies this, steering, followUp
      ensures Valid() && active && isStreaming && origin == old(origin) && obs.plan.began == old(obs.plan.began)
      ensures over ==> Ended(context', newMessages')
      ensures !over ==> left > 0 && Running() && AtRest(pending') && obs.phase.Between? && ListsAgree(context', newMessages')
      ensures !over ==> obs.plan.asked == SteeringAsked && obs.plan.more == hasMoreToolCalls
    {
      pending' := [];
      var stream, message := NextReply(left);
      context', newMessages', hasMoreToolCalls := RunTurn(pending, context, newMessages, stream, message);
      if Failed(message) {
        EmitAgentEnd(newMessages');
        over := true;
        return;
      }
      over := *;     // what the hook answers
      AfterTurn(newMessages', over);
      if over {
        return;
      }
      pending' := PollSteering();
    }

    /** Turns as long as there are tool results to answer or messages to inject. */
    method RunTurns(pending: seq<Message>, initialContext: seq<Message>, initialMessages: seq<Message>, first: bool, script: nat)
      returns (context: seq<Message>, newMessages: seq<Message>, left: nat, over: bool)
      requires Running() && AtRest(pending) && (first <==> obs.phase.Prompting?) && ListsAgree(initialContext, initialMessages)
      requires if first then MayRequest() else obs.plan.asked.FollowUpsAsked? && pending != []
      modifies this, steering, followUp
      ensures Valid() && active && isStreaming && origin == old(origin) && obs.plan.began == old(obs.plan.began)
      ensures over ==> Ended(context, newMessages)
      ensures !over ==> Running() && AtRest([]) && obs.phase.Between? && ListsAgree(context, newMessages) && left < script
      ensures !over ==> obs.plan.asked.SteeringAsked? && !obs.plan.more
    {
      context, newMessages, left, over := initialContext, initialMessages, script, false;
      var pendingMessages, firstTurn, hasMoreToolCalls := pending, first, true;
      while hasMoreToolCalls || |pendingMessages| > 0
        invariant Running() && origin == old(origin) && obs.plan.began == old(obs.plan.began)
        invariant AtRest(pendingMessages) && (firstTurn <==> obs.phase.Prompting?) && ListsAgree(context, newMessages)
        invariant if firstTurn then MayRequest() else GoesOn(pendingMessages, hasMoreToolCalls)
        invariant left <= script && (left == script || firstTurn ==> hasMoreToolCalls)
        decreases left
      {
        if !firstTurn {
          Emit(TurnStart);
        } else {
          firstTurn := false;
        }
        context, newMessages, pendingMessages, hasMoreToolCalls, over := RunTurnAndPoll(pendingMessages, context, newMessages, left);
        if over {
          return;
        }
        left := left - 1;
      }
    }

    /** Between two turns: ends the run if the hook asks to stop. */
    method AfterTurn(newMessages: seq<Message>, stop: bool)
      requires Running() && AtRest([]) && obs.phase.Between? && obs.plan.asked.Nobody? && newMessages == obs.transcript
      modifies this, steering, followUp
      ensures Valid() && active && isStreaming && origin == old(origin)
      ensures obs.transcript == old(obs.transcript) && obs.plan.began == old(obs.plan.began)
      ensures if stop then obs.phase.Done? && obs.open.None? && obs.running == multiset{}
                           && log != [] && log[|log| - 1] == Emitted(AgentEnd(newMessages))
              else Running() && AtRest([]) && obs.phase.Between? && obs.plan == old(obs.plan)
    {
      Interfere();
      if stop {
        Record(StopRequested);
        EmitAgentEnd(newMessages);
      }
    }

    /** Turns as long as there is a reason for one, and then the question for follow-ups. */
    method RunTurnsAndPoll(pending: seq<Message>, initialContext: seq<Message>, initialMessages: seq<Message>, first: bool, script: nat)
      returns (context: seq<Message>, newMessages: seq<Message>, left: nat, pending': seq<Message>, over: bool)
      requires Running() && AtRest(pending) && (first <==> obs.phase.Prompting?) && ListsAgree(initialContext, initialMessages)
      requires if first then MayRequest() else obs.plan.asked.FollowUpsAsked? && pending != []
      modifies this, steering, followUp
      ensures Valid() && active && isStreaming && origin == old(origin) && obs.plan.began == old(obs.plan.began)
      ensures over ==> Ended(context, newMessages)
      ensures !over ==> Running() && AtRest(pending') && obs.phase.Between? && ListsAgree(context, newMessages) && left < script
      ensures !over ==> obs.plan.asked.FollowUpsAsked? && !obs.plan.more
    {
      pending' := [];
      context, newMessages, left, over := RunTurns(pending, initialContext, initialMessages, first, script);
      if !over {
        pending' := PollFollowUps();
      }
    }

    /** Turns, until the provider fails, a hook stops the run, or nothing is left to do. A run that
        began with steering messages does not ask for more of them first. */
    method RunLoop(initialContext: seq<Message>, initialMessages: seq<Message>, script: nat, skipInitialSteeringPoll: bool)
      returns (context: seq<Message>, newMessages: seq<Message>)
      requires Running() && AtRest([]) && obs.phase.Prompting? && ListsAgree(initialContext, initialMessages)
      requires obs.plan.asked.Nobody? && (skipInitialSteeringPoll <==> obs.plan.began.source.Steering?)
      modifies this, steering, followUp
      ensures Valid() && active && isStreaming && origin == old(origin) && Ended(context, newMessages)
      ensures obs.plan.began == old(obs.plan.began)
    {
      context, newMessages := initialContext, initialMessages;
      var firstTurn, left, over := true, script, false;
      var pendingMessages := [];
      if !skipInitialSteeringPoll {
        pendingMessages := PollSteering();
      }
      while true
        invariant Running() && origin == old(origin) && obs.plan.began == old(obs.plan.began)
        invariant AtRest(pendingMessages) && (firstTurn <==> obs.phase.Prompting?) && ListsAgree(context, newMessages)
        invariant if firstTurn then MayRequest() else obs.plan.asked.FollowUpsAsked? && pendingMessages != []
        decreases left
      {
        context, newMessages, left, pendingMessages, over := RunTurnsAndPoll(pendingMessages, context, newMessages, firstTurn, left);
        if over {
          return;
        }
        firstTurn := false;
        if |pendingMessages| == 0 {
          break;
        }
      }
      EmitAgentEnd(newMessages);
    }

    // Runs

    /** No run is active. */
    ghost predicate Idle()
      reads this, steering, followUp
    {
      Valid() && !active && !isStreaming && pendingToolCalls == {} && streamingMessage == None
    }

    /** A finished run: the transcript grew by what the run returns and what `agent_end` carries, the
        messages it began with first, and the log holds everything the queues handed out meanwhile. */
    ghost predicate Completed(before: Origin, began: Beginning, newMessages: seq<Message>)
      reads this, steering, followUp
    {
      && Idle() && origin == before
      && messages == before.base + newMessages
      && began == obs.plan.began && began.messages <= newMessages
      && Ended(messages, newMessages)
      && steering.drained == before.steered + obs.steered
      && followUp.drained == before.followed + obs.followed
    }

    /** Resets what belongs to a run. */
    method ResetRun(ghost before: Origin)
      requires !active && pendingToolCalls == {} && before.base == messages
      modifies this
      ensures active && isStreaming && origin == before && log == [] && history == [Initial(before.base)]
      ensures obs == Initial(before.base) && Mirrors(State(), obs) && !aborted
    {
      active, isStreaming, aborted := true, true, false;
      streamingMessage, errorMessage := None, None;
      origin, log, history, obs := before, [], [Initial(messages)], Initial(messages);
      assert messages == before.base + [];
    }

    /** Opens a run on messages from its caller, or on messages just drained from a queue. */
    method StartRun(prompts: seq<Message>, source: Source, ghost before: Origin)
      requires steering != followUp && steering.Valid() && followUp.Valid()
      requires !active && pendingToolCalls == {} && before.base == messages
      requires steering.drained == before.steered + if source.Steering? then prompts else []
      requires followUp.drained == before.followed + if source.FollowUp? then prompts else []
      modifies this
      ensures Running() && origin == before
      ensures obs == After(Initial(before.base), Taken(source, prompts))
    {
      ResetRun(before);
      ghost var taken := After(obs, Taken(source, prompts));
      assert taken.steered == if source.Steering? then prompts else [];
      assert taken.followed == if source.FollowUp? then prompts else [];
      Record(Taken(source, prompts));
    }

    method FinishRun()
      requires Valid() && obs.phase.Done? && obs.open.None? && obs.running == multiset{}
      modifies this`isStreaming, this`streamingMessage, this`pendingToolCalls, this`active
      ensures Idle() && State() == old(State()).(streamingMessage := None, pendingToolCalls := {})
    {
      isStreaming, streamingMessage, pendingToolCalls, active := false, None, {}, false;
    }

    /** Opens a run and puts the messages it begins with into the transcript. */
    method OpenRun(prompts: seq<Message>, source: Source, ghost before: Origin)
      returns (context: seq<Message>, newMessages: seq<Message>)
      requires steering != followUp && steering.Valid() && followUp.Valid()
      requires !active && pendingToolCalls == {} && before.base == messages
      requires steering.drained == before.steered + if source.Steering? then prompts else []
      requires followUp.drained == before.followed + if source.FollowUp? then prompts else []
      modifies this, steering, followUp
      ensures Running() && AtRest([]) && obs.phase.Prompting? && ListsAgree(context, newMessages)
      ensures origin == before && obs.plan == Plan(Beginning(source, prompts), Nobody, false)
    {
      context := messages;
      StartRun(prompts, source, before);
      Emit(AgentStart);
      Emit(TurnStart);
      context, newMessages := InjectPending(prompts, context, []);
    }

    /** A run that begins with messages. */
    method RunPromptMessages(prompts: seq<Message>, source: Source, skipInitialSteeringPoll: bool, script: nat, ghost before: Origin)
      returns (newMessages: seq<Message>)
      requires steering != followUp && steering.Valid() && followUp.Valid()
      requires !active && pendingToolCalls == {} && before.base == messages
      requires steering.drained == before.steered + if source.Steering? then prompts else []
      requires followUp.drained == before.followed + if source.FollowUp? then prompts else []
      requires skipInitialSteeringPoll <==> source.Steering?
      modifies this, steering, followUp
      ensures Completed(before, Beginning(source, prompts), newMessages)
    {
      var context;
      context, newMessages := OpenRun(prompts, source, before);
      context, newMessages := RunLoop(context, newMessages, script, skipInitialSteeringPoll);
      RunFacts.AcceptedLeads(origin.base, history, log, |log|);
      FinishRun();
    }

    /** A run that continues from the transcript. */
    method RunContinuation(script: nat) returns (newMessages: seq<Message>)
      requires Idle()
      modifies this, steering, followUp
      ensures Completed(old(Origin(messages, steering.drained, followUp.drained)), Beginning(Caller, []), newMessages)
    {
      newMessages := RunPromptMessages([], Caller, false, script, Origin(messages, steering.drained, followUp.drained));
    }

    method Prompt(prompts: seq<Message>, script: nat) returns (r: RunOutcome)
      requires active || Idle()
      modifies this, steering, followUp
      ensures if old(active) then r == Busy
              else && r.Ran?
                   && Completed(old(Origin(messages, steering.drained, followUp.drained)), Beginning(Caller, prompts), r.newMessages)
      ensures r == Busy ==> State() == old(State()) && steering.messages == old(steering.messages)
                            && followUp.messages == old(followUp.messages)
    {
      if active {
        return Busy;
      }
      var newMessages := RunPromptMessages(prompts, Caller, false, script, Origin(messages, steering.drained, followUp.drained));
      r := Ran(newMessages);
    }

    /** Nothing that was queued is still to be handed out. */
    ghost predicate NothingQueued()
      reads this, steering, followUp
    {
      steering.drained == steering.accepted && followUp.drained == followUp.accepted
    }

    /** Whether there is something to continue with after an assistant message. */
    method HasQueuedMessages() returns (r: bool)
      requires Valid()
      ensures r <==> !NothingQueued()
    {
      r := steering.HasItems();
      if !r {
        r := followUp.HasItems();
      }
    }

    /** What a continued run begins with: after an assistant message the messages drained from the
        first queue that has any. */
    ghost predicate Continues(last: Message, steeringMessages: seq<Message>, followUps: seq<Message>,
                              steeringMode: QueueMode, followUpMode: QueueMode, began: Beginning)
    {
      if !last.Assistant? then began == Beginning(Caller, [])
      else if steeringMessages != [] then began == Beginning(Steering, Handout(steeringMessages, steeringMode))
      else followUps != [] && began == Beginning(FollowUp, Handout(followUps, followUpMode))
    }

    /** Continues from the transcript; after an assistant message only on queued messages, steering
        messages first. */
    method Continue(script: nat) returns (r: RunOutcome)
      requires active || Idle()
      modifies this, steering, followUp
      ensures r == Busy <==> old(active)
      ensures r == NothingToContinue <==> !old(active) && old(messages) == []
      ensures r == LastIsAssistant <==>
                !old(active) && old(messages) != [] && old(messages[|messages| - 1]).Assistant? && old(NothingQueued())
      ensures r.Ran? ==>
                exists began :: Completed(old(Origin(messages, steering.drained, followUp.drained)), began, r.newMessages)
                  && Continues(old(messages[|messages| - 1]), old(steering.messages), old(followUp.messages),
                               old(steering.mode), old(followUp.mode), began)
      ensures !r.Ran? ==> State() == old(State()) && steering.messages == old(steering.messages)
                          && followUp.messages == old(followUp.messages)
    {
      if active {
        return Busy;
      }
      if |messages| == 0 {
        return NothingToContinue;
      }
      ghost var before := Origin(messages, steering.drained, followUp.drained);
      var newMessages;
      if messages[|messages| - 1].Assistant? {
        var queuedSteering := steering.Drain();
        if |queuedSteering| > 0 {
          newMessages := RunPromptMessages(queuedSteering, Steering, true, script, before);
          return Ran(newMessages);
        }
        var queuedFollowUps := followUp.Drain();
        if |queuedFollowUps| > 0 {
          newMessages := RunPromptMessages(queuedFollowUps, FollowUp, false, script, before);
          return Ran(newMessages);
        }
        return LastIsAssistant;
      }
      newMessages := RunContinuation(script);
      r := Ran(newMessages);
    }
  }
}
