/** How one tool call turns out, given what the tool and the hooks do. */
module ToolRuns {
  import opened Options
  import opened Protocol

  datatype ToolOutput = ToolOutput(
    content: Option<seq<Content>>,
    details: string,
    usage: Option<int>,
    addedToolNames: seq<string>,
    terminate: Option<bool>)

  datatype BeforeHook = NoBefore | Allow | Block(reason: string) | BeforeThrows(message: string)

  datatype AfterHook =
    | NoAfter
    | Keep
    | Override(content: Option<seq<Content>>, details: Option<string>, usage: Option<int>,
               terminate: Option<bool>, isError: Option<bool>)
    | AfterThrows(message: string)

  datatype Execution = Returns(output: ToolOutput) | Throws(message: string)

  /** What tool lookup, argument validation, hooks and the tool do for one call. */
  datatype ToolRun = ToolRun(
    known: bool,
    sequential: bool,     // the tool must not run beside others
    argumentError: Option<string>,
    before: BeforeHook,
    updates: nat,
    execution: Execution,
    after: AfterHook)

  datatype Finalized = Finalized(call: ToolCall, output: ToolOutput, isError: bool)

  function ErrorOutput(message: Content): ToolOutput {
    ToolOutput(Some([message]), "{}", None, [], None)
  }

  function Fail(call: ToolCall, message: Content): Finalized {
    Finalized(call, ErrorOutput(message), true)
  }

  /** The outcome of a call that never reaches its tool, when the run is not aborted. */
  function Refused(call: ToolCall, run: ToolRun): Option<Finalized> {
    if !run.known then Some(Fail(call, NotFound(call.name)))
    else if run.argumentError.Some? then Some(Fail(call, Output(run.argumentError.value)))
    else match run.before
      case BeforeThrows(message) => Some(Fail(call, Output(message)))
      case Block(reason) => Some(Fail(call, if reason == "" then Blocked else Output(reason)))
      case _ => None
  }

  function OrElse<T>(a: Option<T>, b: Option<T>): Option<T> { if a.Some? then a else b }

  /** The outcome of a call whose tool ran. */
  function Executed(call: ToolCall, run: ToolRun): Finalized {
    var ran := match run.execution
      case Returns(output) => Finalized(call, output, false)
      case Throws(message) => Fail(call, Output(message));
    match run.after
    case NoAfter => ran
    case Keep => ran
    case AfterThrows(message) => Fail(call, Output(message))
    case Override(content, details, usage, terminate, isError) =>
      Finalized(call,
                ran.output.(content := OrElse(content, ran.output.content),
                            details := if details.Some? then details.value else ran.output.details,
                            usage := OrElse(usage, ran.output.usage),
                            terminate := OrElse(terminate, ran.output.terminate)),
                if isError.Some? then isError.value else ran.isError)
  }

  /** The outcome of a call in a run that is not aborted. */
  function Outcome(call: ToolCall, run: ToolRun): Finalized {
    var refused := Refused(call, run);
    if refused.Some? then refused.value else Executed(call, run)
  }

  function ResultMessage(f: Finalized): Message {
    ToolResult(f.call.id, f.call.name, if f.output.content.Some? then f.output.content.value else [],
               f.output.details, f.output.usage, f.output.addedToolNames, f.isError)
  }

  predicate ShouldTerminate(finalized: seq<Finalized>) {
    |finalized| > 0 && forall k :: 0 <= k < |finalized| ==> finalized[k].output.terminate == Some(true)
  }

  /** What one-by-one execution of a batch yields. */
  function Outcomes(calls: seq<ToolCall>, runs: seq<ToolRun>): (r: seq<Finalized>)
    requires |calls| == |runs|
    ensures |r| == |calls|
    ensures forall k :: 0 <= k < |r| ==> r[k] == Outcome(calls[k], runs[k])
  {
    seq(|calls|, k requires 0 <= k < |calls| => Outcome(calls[k], runs[k]))
  }

  function Messages(finalized: seq<Finalized>): (r: seq<Message>)
    ensures |r| == |finalized|
    ensures forall k :: 0 <= k < |r| ==> r[k] == ResultMessage(finalized[k])
  {
    seq(|finalized|, k requires 0 <= k < |finalized| => ResultMessage(finalized[k]))
  }

  function Truncated(calls: seq<ToolCall>): (r: seq<Finalized>)
    ensures |r| == |calls|
    ensures forall k :: 0 <= k < |r| ==> r[k] == Fail(calls[k], CutOff(calls[k].name))
  {
    seq(|calls|, k requires 0 <= k < |calls| => Fail(calls[k], CutOff(calls[k].name)))
  }

  /** Calls are executed one by one when that is configured or one of their tools demands it. */
  predicate OneByOne(configured: bool, runs: seq<ToolRun>) {
    configured || exists k :: 0 <= k < |runs| && runs[k].known && runs[k].sequential
  }

  // What runs come to, case by case

  /** Nothing keeps the call from its tool. */
  predicate ReachesTool(run: ToolRun) {
    run.known && run.argumentError.None? && !run.before.Block? && !run.before.BeforeThrows?
  }

  /** The tool, or the hook in its place, asks to terminate. */
  predicate AsksToTerminate(run: ToolRun) {
    && ReachesTool(run)
    && match run.after
       case AfterThrows(_) => false
       case Override(_, _, _, Some(terminate), _) => terminate
       case _ => run.execution.Returns? && run.execution.output.terminate == Some(true)
  }

  lemma TerminatesExactly(call: ToolCall, run: ToolRun)
    ensures Outcome(call, run).output.terminate == Some(true) <==> AsksToTerminate(run)
  {
  }

  /** A batch terminates the run exactly when every call of it asks to, and there are calls. */
  lemma BatchTerminates(calls: seq<ToolCall>, runs: seq<ToolRun>)
    requires |calls| == |runs|
    ensures ShouldTerminate(Outcomes(calls, runs)) <==> calls != [] && forall k :: 0 <= k < |runs| ==> AsksToTerminate(runs[k])
  {
    forall k | 0 <= k < |runs| ensures Outcomes(calls, runs)[k].output.terminate == Some(true) <==> AsksToTerminate(runs[k]) {
      TerminatesExactly(calls[k], runs[k]);
    }
  }

  /** The updates a call sends: those of its tool, if it gets that far. */
  function UpdatesOf(call: ToolCall, run: ToolRun): seq<string> {
    if ReachesTool(run) then seq(run.updates, _ => call.id) else []
  }

  function AllUpdates(calls: seq<ToolCall>, runs: seq<ToolRun>): seq<string>
    requires |calls| == |runs|
  {
    if calls == [] then []
    else
      var n := |calls| - 1;
      AllUpdates(calls[..n], runs[..n]) + UpdatesOf(calls[n], runs[n])
  }

  lemma AllUpdatesNext(calls: seq<ToolCall>, runs: seq<ToolRun>, i: nat)
    requires |calls| == |runs| && i < |calls|
    ensures AllUpdates(calls[..i + 1], runs[..i + 1]) == AllUpdates(calls[..i], runs[..i]) + UpdatesOf(calls[i], runs[i])
  {
    assert calls[..i + 1][..i] == calls[..i] && runs[..i + 1][..i] == runs[..i];
  }

  lemma RefusedExactly(call: ToolCall, run: ToolRun)
    ensures Refused(call, run).None? <==> ReachesTool(run)
  {
  }

  /** Why a call that never reaches its tool failed. */
  predicate RefusedWith(call: ToolCall, run: ToolRun, content: Content) {
    if !run.known then content == NotFound(call.name)
    else if run.argumentError.Some? then content == Output(run.argumentError.value)
    else
      || (run.before.BeforeThrows? && content == Output(run.before.message))
      || (run.before.Block? && run.before.reason != "" && content == Output(run.before.reason))
      || (run.before.Block? && run.before.reason == "" && content == Blocked)
  }

  /** The result of a call: what was refused or thrown as an error, what the tool returned otherwise,
      with what the hook put in its place field by field. */
  lemma ResultOfCall(call: ToolCall, run: ToolRun)
    ensures var m := ResultMessage(Outcome(call, run));
            var returned := ReachesTool(run) && !run.after.AfterThrows? && run.execution.Returns?;
            var override := ReachesTool(run) && run.after.Override?;
            && m.ToolResult? && m.callId == call.id && m.toolName == call.name
            && (!ReachesTool(run) ==> |m.content| == 1 && RefusedWith(call, run, m.content[0]))
            && (ReachesTool(run) && run.after.AfterThrows? ==> m.content == [Output(run.after.message)])
            && (override && run.after.content.Some? ==> m.content == run.after.content.value)
            && (ReachesTool(run) && !run.after.AfterThrows? && !(override && run.after.content.Some?) ==>
                  m.content == match run.execution
                               case Returns(output) => if output.content.Some? then output.content.value else []
                               case Throws(message) => [Output(message)])
            && m.details == (if override && run.after.details.Some? then run.after.details.value
                             else if returned then run.execution.output.details else "{}")
            && m.usage == (if override && run.after.usage.Some? then run.after.usage
                           else if returned then run.execution.output.usage else None)
            && m.addedToolNames == (if returned then run.execution.output.addedToolNames else [])
            && (m.isError <==> if override && run.after.isError.Some? then run.after.isError.value else !returned)
  {
  }

  lemma ResultOfCutOffCall(calls: seq<ToolCall>, k: nat)
    requires k < |calls|
    ensures Messages(Truncated(calls))[k]
            == ToolResult(calls[k].id, calls[k].name, [CutOff(calls[k].name)], "{}", None, [], true)
  {
  }

  /** A reply that was cut off is always answered. */
  lemma TruncatedGoesOn(calls: seq<ToolCall>)
    ensures !ShouldTerminate(Truncated(calls))
  {
    if calls != [] { assert Truncated(calls)[0].output.terminate == None; }
  }

  /** What the calls of a reply yield when the run is not aborted: all fail if the reply was cut
      off. */
  function Expected(reply: Message, calls: seq<ToolCall>, runs: seq<ToolRun>): (r: seq<Finalized>)
    requires |calls| == |runs|
    ensures |r| == |calls|
  {
    if reply.Assistant? && reply.stop == Length then Truncated(calls) else Outcomes(calls, runs)
  }

  // Ids of the calls of a batch that are in some stage

  function Ids(calls: seq<ToolCall>): (r: seq<string>)
    ensures |r| == |calls|
    ensures forall k :: 0 <= k < |r| ==> r[k] == calls[k].id
  {
    seq(|calls|, k requires 0 <= k < |calls| => calls[k].id)
  }

  function Flagged(ids: seq<string>, flags: seq<bool>): multiset<string>
    requires |flags| <= |ids|
  {
    if flags == [] then multiset{}
    else
      var n := |flags| - 1;
      Flagged(ids, flags[..n]) + if flags[n] then multiset{ids[n]} else multiset{}
  }

  lemma {:induction false} RaiseFlag(ids: seq<string>, flags: seq<bool>, k: nat)
    requires |flags| <= |ids| && k < |flags| && !flags[k]
    ensures Flagged(ids, flags[k := true]) == Flagged(ids, flags) + multiset{ids[k]}
  {
    var n := |flags| - 1;
    if k == n {
      assert flags[k := true][..n] == flags[..n];
    } else {
      assert flags[k := true][..n] == flags[..n][k := true];
      RaiseFlag(ids, flags[..n], k);
    }
  }

  lemma LowerFlag(ids: seq<string>, flags: seq<bool>, k: nat)
    requires |flags| <= |ids| && k < |flags| && flags[k]
    ensures Flagged(ids, flags) == Flagged(ids, flags[k := false]) + multiset{ids[k]}
  {
    assert flags[k := false][k := true] == flags;
    RaiseFlag(ids, flags[k := false], k);
  }

  lemma {:induction false} NoFlags(ids: seq<string>, flags: seq<bool>)
    requires |flags| <= |ids| && forall k :: 0 <= k < |flags| ==> !flags[k]
    ensures Flagged(ids, flags) == multiset{}
  {
    if flags != [] { NoFlags(ids, flags[..|flags| - 1]); }
  }

  lemma {:induction false} AllFlags(ids: seq<string>, flags: seq<bool>)
    requires |flags| <= |ids| && forall k :: 0 <= k < |flags| ==> flags[k]
    ensures Flagged(ids, flags) == multiset(ids[..|flags|])
  {
    if flags != [] {
      var n := |flags| - 1;
      AllFlags(ids, flags[..n]);
      assert ids[..n + 1] == ids[..n] + [ids[n]];
    }
  }

  lemma AddFlag(ids: seq<string>, flags: seq<bool>, flag: bool)
    requires |flags| < |ids|
    ensures Flagged(ids, flags + [flag]) == Flagged(ids, flags) + if flag then multiset{ids[|flags|]} else multiset{}
  {
    assert (flags + [flag])[..|flags|] == flags;
  }
}
