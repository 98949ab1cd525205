/** The agent's visible state as a function of the events it was sent. */
module Reducer {
  import opened Options
  import opened Protocol
  import opened ToolRuns
  import Runs = RunFacts

  datatype AgentState = AgentState(
    messages: seq<Message>,
    streamingMessage: Option<Message>,
    pendingToolCalls: set<string>,
    errorMessage: Option<string>)

  function Reduce(s: AgentState, e: Event): AgentState {
    match e
    case MessageStart(m) => s.(streamingMessage := Some(m))
    case MessageUpdate(m) => s.(streamingMessage := Some(m))
    case MessageEnd(m) => s.(streamingMessage := None, messages := s.messages + [m])
    case ToolStart(id) => s.(pendingToolCalls := s.pendingToolCalls + {id})
    case ToolEnd(id) => s.(pendingToolCalls := s.pendingToolCalls - {id})
    case TurnEnd(m, _) =>
      if m.Assistant? && m.errorMessage.Some? && m.errorMessage.value != "" then s.(errorMessage := m.errorMessage) else s
    case AgentEnd(_) => s.(streamingMessage := None)
    case _ => s
  }

  function Absorb(s: AgentState, x: Entry): AgentState {
    if x.Emitted? then Reduce(s, x.event) else s
  }

  ghost predicate PendingShown(pending: set<string>, o: Monitor) {
    !o.repeated ==>
      && (forall id :: id in pending <==> id in o.running)
      && (forall id :: o.running[id] <= 1)
  }

  /** The state shows what the run did: its transcript after the earlier one, the message being
      streamed, and the running calls as long as no id ran twice at a time. */
  ghost predicate Mirrors(s: AgentState, o: Monitor) {
    && s.messages == o.base + o.transcript
    && s.streamingMessage == o.open
    && PendingShown(s.pendingToolCalls, o)
  }

  lemma StepMessages(s: AgentState, o: Monitor, x: Entry)
    requires s.messages == o.base + o.transcript
    ensures Absorb(s, x).messages == After(o, x).base + After(o, x).transcript
  {
    if x.Emitted? && x.event.MessageEnd? {
      assert o.base + (o.transcript + [x.event.message]) == o.base + o.transcript + [x.event.message];
    }
  }

  lemma StepStreaming(s: AgentState, o: Monitor, x: Entry)
    requires s.streamingMessage == o.open && Allowed(o, x)
    ensures Absorb(s, x).streamingMessage == After(o, x).open
  {
  }

  lemma StartPending(pending: set<string>, o: Monitor, id: string)
    requires PendingShown(pending, o)
    ensures PendingShown(pending + {id}, AfterEvent(o, ToolStart(id)))
  {
  }

  lemma EndPending(pending: set<string>, o: Monitor, id: string)
    requires PendingShown(pending, o) && id in o.running
    ensures PendingShown(pending - {id}, AfterEvent(o, ToolEnd(id)))
  {
  }

  lemma OthersLeavePending(s: AgentState, x: Entry)
    requires !ToolBoundary(x)
    ensures Absorb(s, x).pendingToolCalls == s.pendingToolCalls
  {
  }

  lemma StepPending(s: AgentState, o: Monitor, x: Entry)
    requires PendingShown(s.pendingToolCalls, o) && Allowed(o, x)
    ensures PendingShown(Absorb(s, x).pendingToolCalls, After(o, x))
  {
    if !ToolBoundary(x) {
      OthersLeavePending(s, x);
      OthersLeaveCalls(o, x);
    } else if x.event.ToolStart? {
      StartPending(s.pendingToolCalls, o, x.event.id);
    } else {
      EndPending(s.pendingToolCalls, o, x.event.id);
    }
  }

  lemma StepMirrors(s: AgentState, o: Monitor, x: Entry)
    requires Mirrors(s, o) && Allowed(o, x)
    ensures Mirrors(Absorb(s, x), After(o, x))
  {
    StepMessages(s, o, x);
    StepStreaming(s, o, x);
    StepPending(s, o, x);
  }

  /** The agent's state along a log. */
  ghost predicate Reduced(ss: seq<AgentState>, log: seq<Entry>) {
    |ss| == |log| + 1 && forall i :: 0 <= i < |log| ==> ss[i + 1] == Absorb(ss[i], log[i])
  }

  /** At every point of a run the state mirrors it. */
  lemma {:induction false} StateMirrorsRun(base: seq<Message>, os: seq<Monitor>, log: seq<Entry>, ss: seq<AgentState>, i: nat)
    requires Accepted(base, os, log) && Reduced(ss, log) && i <= |log|
    requires ss[0].messages == base && ss[0].streamingMessage == None && ss[0].pendingToolCalls == {}
    ensures Mirrors(ss[i], os[i])
  {
    if i > 0 {
      StateMirrorsRun(base, os, log, ss, i - 1);
      StepMirrors(ss[i - 1], os[i - 1], log[i - 1]);
    }
  }

  function ErrorOf(x: Entry): Option<string> {
    match x
    case Emitted(TurnEnd(Assistant(_, _, error), _)) => if error == Some("") then None else error
    case _ => None
  }

  /** The error of the last turn that ended with one. */
  function LastError(log: seq<Entry>): Option<string> {
    if log == [] then None
    else if ErrorOf(log[|log| - 1]).Some? then ErrorOf(log[|log| - 1])
    else LastError(log[..|log| - 1])
  }

  lemma StepError(s: AgentState, x: Entry)
    ensures Absorb(s, x).errorMessage == if ErrorOf(x).Some? then ErrorOf(x) else s.errorMessage
  {
  }

  lemma {:induction false} StateShowsLastError(log: seq<Entry>, ss: seq<AgentState>, i: nat)
    requires Reduced(ss, log) && i <= |log| && ss[0].errorMessage == None
    ensures ss[i].errorMessage == LastError(log[..i])
  {
    if i > 0 {
      StateShowsLastError(log, ss, i - 1);
      assert log[..i][..i - 1] == log[..i - 1];
      StepError(ss[i - 1], log[i - 1]);
    }
  }

  ghost predicate DistinctCalls(m: Message) {
    var calls := ToolCalls(m);
    forall j, k :: 0 <= j < k < |calls| ==> calls[j].id != calls[k].id
  }

  predicate StartedCall(o: Monitor, id: string, k: nat) {
    k < o.started && k < |o.Calls()| && o.Calls()[k].id == id
  }

  /** Only calls that have started are running. */
  ghost predicate RunningStarted(o: Monitor) {
    && (o.phase.Replied? ==> DistinctCalls(o.reply))
    && (!o.phase.Replied? ==> o.running == multiset{})
    && (forall id :: id in o.running ==> exists k :: StartedCall(o, id, k))
    && !o.repeated
  }

  lemma StartKeeps(o: Monitor, id: string)
    requires RunningStarted(o) && Allowed(o, Emitted(ToolStart(id)))
    ensures RunningStarted(After(o, Emitted(ToolStart(id))))
  {
    var p := After(o, Emitted(ToolStart(id)));
    assert StartedCall(p, id, o.started);
    forall j | j in p.running && j != id ensures exists k :: StartedCall(p, j, k) {
      var k :| StartedCall(o, j, k);
      assert StartedCall(p, j, k);
    }
  }

  /** Every other entry starts no call. */
  lemma OthersStartNothing(o: Monitor, x: Entry)
    requires Allowed(o, x) && !(x.Emitted? && x.event.ToolStart?)
    ensures After(o, x).repeated == o.repeated && After(o, x).running <= o.running
  {
    if !ToolBoundary(x) {
      OthersLeaveCalls(o, x);
    }
  }

  lemma OthersKeepReply(o: Monitor, x: Entry)
    requires Allowed(o, x) && !(x.Emitted? && x.event.ToolStart?)
    ensures var p := After(o, x);
            && (o.phase.Replied? && p.phase.Replied? ==> p.reply == o.reply && p.started == o.started)
            && (p.phase.Replied? && !o.phase.Replied? ==> o.phase.Waiting? && x == Emitted(MessageEnd(p.reply)))
            && (o.phase.Replied? && !p.phase.Replied? ==> o.running == multiset{})
  {
  }

  lemma OthersKeep(o: Monitor, x: Entry, p: Monitor)
    requires RunningStarted(o)
    requires p.repeated == o.repeated && p.running <= o.running
    requires o.phase.Replied? && p.phase.Replied? ==> p.reply == o.reply && p.started == o.started
    requires p.phase.Replied? && !o.phase.Replied? ==> DistinctCalls(p.reply)
    requires o.phase.Replied? && !p.phase.Replied? ==> o.running == multiset{}
    ensures RunningStarted(p)
  {
    forall j | j in p.running ensures exists k :: StartedCall(p, j, k) {
      var k :| StartedCall(o, j, k);
      assert StartedCall(p, j, k);
    }
  }

  /** When the calls of every reply have distinct ids, no id runs twice at a time. */
  lemma {:induction false} DistinctIdsNeverRepeat(base: seq<Message>, os: seq<Monitor>, log: seq<Entry>, i: nat)
    requires Accepted(base, os, log) && i <= |log|
    requires forall j :: 0 <= j < i && os[j].phase.Waiting? && log[j].Emitted? && log[j].event.MessageEnd?
               ==> DistinctCalls(log[j].event.message)
    ensures RunningStarted(os[i])
  {
    if i > 0 {
      DistinctIdsNeverRepeat(base, os, log, i - 1);
      var x := log[i - 1];
      if x.Emitted? && x.event.ToolStart? {
        StartKeeps(os[i - 1], x.event.id);
      } else {
        OthersStartNothing(os[i - 1], x);
        OthersKeepReply(os[i - 1], x);
        OthersKeep(os[i - 1], x, os[i]);
      }
    }
  }

  // When the pending calls are exactly those started and not ended

  /** The pending calls are those started more often than ended. */
  ghost predicate PendingIsUnended(s: AgentState, log: seq<Entry>) {
    forall id :: id in s.pendingToolCalls <==> Runs.Count(log, Runs.ToolStarts(id)) > Runs.Count(log, Runs.ToolEnds(id))
  }

  /** Entry `j` starts a call while one with the same id is running. */
  ghost predicate Overlaps(log: seq<Entry>, j: nat) {
    && j < |log| && log[j].Emitted? && log[j].event.ToolStart?
    && var id := log[j].event.id;
       Runs.Count(log[..j], Runs.ToolStarts(id)) > Runs.Count(log[..j], Runs.ToolEnds(id))
  }

  ghost predicate NoOverlap(log: seq<Entry>) { forall j: nat :: !Overlaps(log, j) }

  lemma StepRepeated(o: Monitor, x: Entry)
    ensures After(o, x).repeated == (o.repeated || (x.Emitted? && x.event.ToolStart? && x.event.id in o.running))
  {
    if !ToolBoundary(x) { OthersLeaveCalls(o, x); }
  }

  lemma StartOverlaps(base: seq<Message>, os: seq<Monitor>, log: seq<Entry>, i: nat)
    requires Accepted(base, os, log) && i < |log|
    ensures Overlaps(log, i) <==> log[i].Emitted? && log[i].event.ToolStart? && log[i].event.id in os[i].running
  {
    if log[i].Emitted? && log[i].event.ToolStart? {
      Runs.RunningIsStartedMinusEnded(base, os, log, i, log[i].event.id);
    }
  }

  /** The monitor's flag in terms of the log. */
  lemma {:induction false} RepeatedIsOverlap(base: seq<Message>, os: seq<Monitor>, log: seq<Entry>, i: nat)
    requires Accepted(base, os, log) && i <= |log|
    ensures os[i].repeated <==> exists j: nat :: j < i && Overlaps(log, j)
  {
    if i > 0 {
      RepeatedIsOverlap(base, os, log, i - 1);
      StepRepeated(os[i - 1], log[i - 1]);
      StartOverlaps(base, os, log, i - 1);
    }
  }

  lemma {:induction false} PendingFollows(base: seq<Message>, os: seq<Monitor>, log: seq<Entry>, ss: seq<AgentState>, i: nat)
    requires Accepted(base, os, log) && Reduced(ss, log) && i <= |log| && ss[0].pendingToolCalls == {}
    ensures PendingShown(ss[i].pendingToolCalls, os[i])
  {
    if i > 0 {
      PendingFollows(base, os, log, ss, i - 1);
      StepPending(ss[i - 1], os[i - 1], log[i - 1]);
    }
  }

  lemma UnendedIsRunning(base: seq<Message>, os: seq<Monitor>, log: seq<Entry>, s: AgentState, i: nat)
    requires Accepted(base, os, log) && i <= |log|
    ensures PendingIsUnended(s, log[..i]) <==> forall id :: id in s.pendingToolCalls <==> id in os[i].running
  {
    forall id
      ensures Runs.Count(log[..i], Runs.ToolStarts(id)) > Runs.Count(log[..i], Runs.ToolEnds(id)) <==> id in os[i].running
    {
      Runs.RunningIsStartedMinusEnded(base, os, log, i, id);
    }
  }

  lemma SecondStart(o: Monitor, x: Entry)
    requires !o.repeated && After(o, x).repeated
    ensures x.Emitted? && x.event.ToolStart? && After(o, x).running[x.event.id] >= 2
  {
    StepRepeated(o, x);
  }

  lemma SecondStartAt(base: seq<Message>, os: seq<Monitor>, log: seq<Entry>, i: nat)
    requires Accepted(base, os, log) && i < |log| && !os[i].repeated && os[i + 1].repeated
    ensures log[i].Emitted? && log[i].event.ToolStart? && os[i + 1].running[log[i].event.id] >= 2
  {
    SecondStart(os[i], log[i]);
  }

  lemma NotRepeatedAtFirst(base: seq<Message>, os: seq<Monitor>, log: seq<Entry>)
    requires Accepted(base, os, log)
    ensures !os[0].repeated
  {
  }

  /** After the first repeat an id runs twice. */
  lemma {:induction false} FirstRepeat(base: seq<Message>, os: seq<Monitor>, log: seq<Entry>, n: nat) returns (i: nat, id: string)
    requires Accepted(base, os, log) && n <= |log| && os[n].repeated
    ensures i <= n && os[i].running[id] >= 2
  {
    NotRepeatedAtFirst(base, os, log);
    if os[n - 1].repeated {
      i, id := FirstRepeat(base, os, log, n - 1);
    } else {
      SecondStartAt(base, os, log, n - 1);
      i, id := n, log[n - 1].event.id;
    }
  }

  lemma EndStep(s: AgentState, o: Monitor, x: Entry, id: string)
    requires Allowed(o, x) && o.running[id] >= 2
    ensures if x == Emitted(ToolEnd(id)) then id !in Absorb(s, x).pendingToolCalls && id in After(o, x).running
            else After(o, x).running[id] >= 2
  {
    Runs.StepRunning(o, x, id);
  }

  /** An id that runs twice is hidden by its next end. */
  lemma {:induction false} NextEndHides(base: seq<Message>, os: seq<Monitor>, log: seq<Entry>, ss: seq<AgentState>, i: nat, id: string)
    returns (j: nat)
    requires Accepted(base, os, log) && Reduced(ss, log)
    requires i <= |log| && os[i].running[id] >= 2 && os[|log|].running[id] == 0
    ensures j <= |log| && id !in ss[j].pendingToolCalls && id in os[j].running
    decreases |log| - i
  {
    EndStep(ss[i], os[i], log[i], id);
    if log[i] == Emitted(ToolEnd(id)) {
      j := i + 1;
    } else {
      j := NextEndHides(base, os, log, ss, i + 1, id);
    }
  }

  /** Once calls with one id have overlapped, the first to end hides the other. */
  lemma OverlapHides(base: seq<Message>, os: seq<Monitor>, log: seq<Entry>, ss: seq<AgentState>) returns (j: nat)
    requires Accepted(base, os, log) && Reduced(ss, log) && os[|log|].repeated && os[|log|].phase.Done?
    ensures j <= |log| && !PendingIsUnended(ss[j], log[..j])
  {
    var i, id := FirstRepeat(base, os, log, |log|);
    Runs.RunningIsStartedMinusEnded(base, os, log, |log|, id);
    j := NextEndHides(base, os, log, ss, i, id);
    UnendedIsRunning(base, os, log, ss[j], j);
  }

  /** Over a whole run the pending calls are always those started and not ended if and only if no
      call started while one with the same id was running. */
  lemma PendingExactUnlessOverlap(base: seq<Message>, os: seq<Monitor>, log: seq<Entry>, ss: seq<AgentState>)
    requires Accepted(base, os, log) && Reduced(ss, log) && ss[0].pendingToolCalls == {}
    requires log != [] && Runs.Is(log[|log| - 1], Runs.AgentEnds)
    ensures (forall i: nat :: i <= |log| ==> PendingIsUnended(ss[i], log[..i])) <==> NoOverlap(log)
  {
    var n := |log|;
    RepeatedIsOverlap(base, os, log, n);
    if os[n].repeated {
      var j := OverlapHides(base, os, log, ss);
    } else {
      forall i: nat | i <= n ensures PendingIsUnended(ss[i], log[..i]) {
        RepeatedIsOverlap(base, os, log, i);
        PendingFollows(base, os, log, ss, i);
        UnendedIsRunning(base, os, log, ss[i], i);
      }
    }
  }

  /** When the calls of every reply have distinct ids, the pending calls are always exactly those
      started and not ended. */
  lemma DistinctIdsArePending(base: seq<Message>, os: seq<Monitor>, log: seq<Entry>, ss: seq<AgentState>, i: nat)
    requires Accepted(base, os, log) && Reduced(ss, log) && ss[0].pendingToolCalls == {} && i <= |log|
    requires forall j :: 0 <= j < i && os[j].phase.Waiting? && log[j].Emitted? && log[j].event.MessageEnd?
               ==> DistinctCalls(log[j].event.message)
    ensures PendingIsUnended(ss[i], log[..i])
  {
    DistinctIdsNeverRepeat(base, os, log, i);
    PendingFollows(base, os, log, ss, i);
    UnendedIsRunning(base, os, log, ss[i], i);
  }

  // Repeated ids

  /** A reply has been received and none of its calls has started. */
  predicate JustReplied(o: Monitor) {
    o.phase.Replied? && o.open.None? && o.started == 0 && o.running == multiset{}
  }

  function StartsOf(calls: seq<ToolCall>): (r: seq<Entry>)
    ensures |r| == |calls|
  {
    seq(|calls|, k requires 0 <= k < |calls| => Emitted(ToolStart(calls[k].id)))
  }

  /** The first `n` calls of a reply are running. */
  predicate CallsStarted(o: Monitor, calls: seq<ToolCall>, n: nat) {
    && o.phase.Replied? && o.open.None? && calls == o.Calls()
    && o.started == n <= |calls| && o.running == multiset(Ids(calls)[..n])
  }

  lemma StartNext(o: Monitor, calls: seq<ToolCall>, n: nat)
    requires CallsStarted(o, calls, n) && n < |calls|
    ensures Allowed(o, Emitted(ToolStart(calls[n].id)))
    ensures CallsStarted(After(o, Emitted(ToolStart(calls[n].id))), calls, n + 1)
  {
    assert Ids(calls)[..n + 1] == Ids(calls)[..n] + [calls[n].id];
  }

  /** The first `n` calls of a reply may start one after the other. */
  lemma {:induction false} StartCalls(base: seq<Message>, os: seq<Monitor>, log: seq<Entry>, calls: seq<ToolCall>, n: nat)
    returns (later: seq<Monitor>)
    requires Accepted(base, os, log) && JustReplied(os[|log|]) && calls == os[|log|].Calls() && n <= |calls|
    ensures Accepted(base, later, log + StartsOf(calls[..n])) && CallsStarted(later[|log| + n], calls, n)
  {
    if n == 0 {
      later := os;
      assert log + StartsOf(calls[..0]) == log;
    } else {
      var before := StartCalls(base, os, log, calls, n - 1);
      var x := Emitted(ToolStart(calls[n - 1].id));
      StartNext(before[|log| + n - 1], calls, n - 1);
      AcceptMore(base, before, log + StartsOf(calls[..n - 1]), x);
      later := before + [After(before[|log| + n - 1], x)];
      assert log + StartsOf(calls[..n]) == log + StartsOf(calls[..n - 1]) + [x];
    }
  }

  lemma EndOne(o: Monitor, calls: seq<ToolCall>, id: string)
    requires CallsStarted(o, calls, |calls|) && multiset(Ids(calls))[id] >= 2
    ensures Allowed(o, Emitted(ToolEnd(id))) && id in After(o, Emitted(ToolEnd(id))).running
  {
    assert Ids(calls)[..|calls|] == Ids(calls);
  }

  lemma TwoOccurrences(ids: seq<string>, j: nat, k: nat)
    requires j < k < |ids| && ids[j] == ids[k]
    ensures multiset(ids)[ids[k]] >= 2
  {
    assert ids == ids[..j] + [ids[j]] + ids[j + 1..k] + [ids[k]] + ids[k + 1..];
  }

  /** Whenever two calls of a reply share an id, there is a schedule, starting all calls and then
      ending one of the two, that leaves the pending set without a running call. */
  lemma RepeatedIdHidesRunningCall(base: seq<Message>, os: seq<Monitor>, log: seq<Entry>, calls: seq<ToolCall>, j: nat, k: nat)
    returns (later: seq<Monitor>)
    requires Accepted(base, os, log) && JustReplied(os[|log|]) && calls == os[|log|].Calls()
    requires j < k < |calls| && calls[j].id == calls[k].id
    ensures var longer := log + StartsOf(calls) + [Emitted(ToolEnd(calls[k].id))];
            && Accepted(base, later, longer)
            && forall ss :: Reduced(ss, longer) ==> !PendingIsUnended(ss[|longer|], longer)
  {
    var id := calls[k].id;
    var before := StartCalls(base, os, log, calls, |calls|);
    assert calls[..|calls|] == calls && Ids(calls)[..|calls|] == Ids(calls);
    TwoOccurrences(Ids(calls), j, k);
    var started, x := log + StartsOf(calls), Emitted(ToolEnd(id));
    var o := before[|started|];
    EndOne(o, calls, id);
    AcceptMore(base, before, started, x);
    later := before + [After(o, x)];
    var longer := started + [x];
    forall ss | Reduced(ss, longer) ensures !PendingIsUnended(ss[|longer|], longer) {
      assert ss[|started| + 1] == Absorb(ss[|started|], longer[|started|]);
      assert longer[..|longer|] == longer;
      UnendedIsRunning(base, later, longer, ss[|longer|], |longer|);
    }
  }
}
