/** What the protocol monitor guarantees, in terms of the log alone. */
module RunFacts {
  import opened Options
  import opened Protocol

  function Front(log: seq<Entry>): seq<Entry>
    requires log != []
  {
    log[..|log| - 1]
  }

  function Last(log: seq<Entry>): Entry
    requires log != []
  {
    log[|log| - 1]
  }

  function EndedBy(x: Entry): seq<Message> {
    match x case Emitted(MessageEnd(m)) => [m] case _ => []
  }

  function TakenBy(x: Entry): seq<Message> {
    if x.Taken? then x.messages else []
  }

  /** The messages of the `message_end` events. */
  function Ended(log: seq<Entry>): seq<Message> {
    if log == [] then [] else Ended(Front(log)) + EndedBy(Last(log))
  }

  /** All messages taken over, in order. */
  function TakenOver(log: seq<Entry>): seq<Message> {
    if log == [] then [] else TakenOver(Front(log)) + TakenBy(Last(log))
  }

  function TakenFromBy(x: Entry, source: Source): seq<Message> {
    if x.Taken? && x.source == source then x.messages else []
  }

  /** The messages taken over from one source, in order. */
  function TakenFrom(log: seq<Entry>, source: Source): seq<Message> {
    if log == [] then [] else TakenFrom(Front(log), source) + TakenFromBy(Last(log), source)
  }

  predicate StillBefore(before: bool, x: Entry) {
    match x
    case Emitted(TurnStart) => true
    case Requested(_) => false
    case _ => before
  }

  /** A turn has started and its provider request is still to come. */
  predicate BeforeRequest(log: seq<Entry>) {
    log != [] && StillBefore(BeforeRequest(Front(log)), Last(log))
  }

  /** The messages ended between the start of a turn and its provider request. */
  function Injected(log: seq<Entry>): seq<Message> {
    if log == [] then []
    else Injected(Front(log)) + if BeforeRequest(Front(log)) then EndedBy(Last(log)) else []
  }

  /** Kinds of entries that are counted. */
  datatype Kind = TurnStarts | TurnEnds | MessageStarts | MessageEnds | AgentEnds | Aborts
                | ToolStarts(id: string) | ToolEnds(id: string)

  predicate Is(x: Entry, kind: Kind) {
    match x
    case AbortSeen => kind.Aborts?
    case Emitted(TurnStart) => kind.TurnStarts?
    case Emitted(TurnEnd(_, _)) => kind.TurnEnds?
    case Emitted(MessageStart(_)) => kind.MessageStarts?
    case Emitted(MessageEnd(_)) => kind.MessageEnds?
    case Emitted(AgentEnd(_)) => kind.AgentEnds?
    case Emitted(ToolStart(id)) => kind == ToolStarts(id)
    case Emitted(ToolEnd(id)) => kind == ToolEnds(id)
    case _ => false
  }

  function Count(log: seq<Entry>, kind: Kind): nat {
    if log == [] then 0 else Count(Front(log), kind) + One(Is(Last(log), kind))
  }

  function One(b: bool): nat { if b then 1 else 0 }

  predicate InTurn(o: Monitor) { o.phase.Prompting? || o.phase.Waiting? || o.phase.Replied? }

  /** The `message_end` sequence is the transcript, and everything taken over is in it or
      still owed. */
  ghost predicate MessagesAgree(base: seq<Message>, o: Monitor, log: seq<Entry>) {
    && o.base == base
    && o.transcript == Ended(log)
    && TakenOver(log) == Injected(log) + o.owed
    && (o.phase.Prompting? <==> BeforeRequest(log))
  }

  /** Messages do not overlap, and turns alternate. */
  ghost predicate CountsAgree(o: Monitor, log: seq<Entry>) {
    && Count(log, MessageStarts) == Count(log, MessageEnds) + One(o.open.Some?)
    && Count(log, TurnStarts) == Count(log, TurnEnds) + One(InTurn(o))
  }

  /** The run ends once, and remembers that it was aborted. */
  ghost predicate EndAgrees(o: Monitor, log: seq<Entry>) {
    && Count(log, AgentEnds) == One(o.phase.Done?)
    && (o.aborted <==> Count(log, Aborts) > 0)
  }

  predicate EndsMessage(x: Entry) { x.Emitted? && x.event.MessageEnd? }

  lemma OthersLeaveTranscript(o: Monitor, x: Entry)
    requires !EndsMessage(x)
    ensures After(o, x).base == o.base && After(o, x).transcript == o.transcript
  {
  }

  lemma StepTranscript(o: Monitor, x: Entry)
    ensures After(o, x).base == o.base && After(o, x).transcript == o.transcript + EndedBy(x)
  {
    if !EndsMessage(x) { OthersLeaveTranscript(o, x); }
  }

  /** What one entry does to the messages owed. */
  ghost predicate OwedStep(o: Monitor, x: Entry, p: Monitor) {
    if x.Taken? then o.owed == [] && p.owed == x.messages && EndedBy(x) == []
    else if o.phase.Prompting? && EndedBy(x) != [] then o.owed == EndedBy(x) + p.owed
    else p.owed == o.owed
  }

  lemma OthersLeaveOwed(o: Monitor, x: Entry)
    requires !x.Taken? && !EndsMessage(x)
    ensures After(o, x).owed == o.owed
  {
  }

  lemma StepOwed(o: Monitor, x: Entry)
    requires Allowed(o, x)
    ensures OwedStep(o, x, After(o, x))
  {
    if x.Taken? {
    } else if !EndsMessage(x) {
      OthersLeaveOwed(o, x);
    } else if o.phase.Prompting? {
      assert o.owed == [x.event.message] + o.owed[1..];
    }
  }

  lemma StepPrompting(o: Monitor, x: Entry)
    requires Allowed(o, x)
    ensures After(o, x).phase.Prompting? <==> StillBefore(o.phase.Prompting?, x)
  {
  }

  lemma StepMessages(base: seq<Message>, o: Monitor, p: Monitor, log: seq<Entry>)
    requires log != [] && MessagesAgree(base, o, Front(log))
    requires p.base == o.base && p.transcript == o.transcript + EndedBy(Last(log))
    requires OwedStep(o, Last(log), p)
    requires p.phase.Prompting? <==> StillBefore(o.phase.Prompting?, Last(log))
    ensures MessagesAgree(base, p, log)
  {
    if !Last(log).Taken? && o.phase.Prompting? {
      assert Injected(Front(log)) + (EndedBy(Last(log)) + p.owed) == (Injected(Front(log)) + EndedBy(Last(log))) + p.owed;
    }
  }

  predicate Boundary(x: Entry) {
    x.Emitted? && (x.event.TurnStart? || x.event.TurnEnd? || x.event.MessageStart? || x.event.MessageEnd?)
  }

  lemma OthersLeaveOpen(o: Monitor, x: Entry)
    requires Allowed(o, x) && !Boundary(x)
    ensures After(o, x).open.Some? == o.open.Some?
    ensures InTurn(After(o, x)) == InTurn(o)
  {
  }

  lemma BoundaryCounts(o: Monitor, e: Event)
    requires MayEmit(o, e) && Boundary(Emitted(e))
    ensures var p := AfterEvent(o, e);
            && One(p.open.Some?) + One(e.MessageEnd?) == One(o.open.Some?) + One(e.MessageStart?)
            && One(InTurn(p)) + One(e.TurnEnd?) == One(InTurn(o)) + One(e.TurnStart?)
  {
  }

  lemma StepCounts(o: Monitor, x: Entry, log: seq<Entry>)
    requires log != [] && CountsAgree(o, Front(log)) && Allowed(o, x) && Last(log) == x
    ensures CountsAgree(After(o, x), log)
  {
    if Boundary(x) { BoundaryCounts(o, x.event); } else { OthersLeaveOpen(o, x); }
  }

  lemma OthersDoNotEnd(o: Monitor, x: Entry)
    requires Allowed(o, x) && !Is(x, AgentEnds) && !x.AbortSeen?
    ensures After(o, x).phase.Done? == o.phase.Done? && After(o, x).aborted == o.aborted
  {
  }

  lemma StepEnd(o: Monitor, x: Entry, log: seq<Entry>)
    requires log != [] && EndAgrees(o, Front(log)) && Allowed(o, x) && Last(log) == x
    ensures EndAgrees(After(o, x), log)
  {
    if !Is(x, AgentEnds) && !x.AbortSeen? { OthersDoNotEnd(o, x); }
  }

  lemma {:induction false} AcceptedLogAgrees(base: seq<Message>, os: seq<Monitor>, log: seq<Entry>, i: nat)
    requires Accepted(base, os, log) && i <= |log|
    ensures MessagesAgree(base, os[i], log[..i]) && CountsAgree(os[i], log[..i]) && EndAgrees(os[i], log[..i])
  {
    if i > 0 {
      AcceptedLogAgrees(base, os, log, i - 1);
      assert Front(log[..i]) == log[..i - 1];
      StepTranscript(os[i - 1], log[i - 1]);
      StepOwed(os[i - 1], log[i - 1]);
      StepPrompting(os[i - 1], log[i - 1]);
      StepMessages(base, os[i - 1], os[i], log[..i]);
      StepCounts(os[i - 1], log[i - 1], log[..i]);
      StepEnd(os[i - 1], log[i - 1], log[..i]);
    }
  }

  // Conclusions about whole runs

  /** Every provider request sees the earlier transcript followed by every `message_end` so far,
      and by then everything taken over has been injected, once and in order. */
  lemma RequestsSeeEverythingTaken(base: seq<Message>, os: seq<Monitor>, log: seq<Entry>, i: nat)
    requires Accepted(base, os, log) && i < |log| && log[i].Requested?
    ensures log[i].context == base + Ended(log[..i])
    ensures Injected(log[..i]) == TakenOver(log[..i])
  {
    AcceptedLogAgrees(base, os, log, i);
  }

  /** `agent_end` comes once and last, and carries the `message_end` sequence; nothing taken over
      is lost; turns and messages are closed. */
  lemma AgentEndClosesRun(base: seq<Message>, os: seq<Monitor>, log: seq<Entry>, i: nat)
    requires Accepted(base, os, log) && i < |log| && Is(log[i], AgentEnds)
    ensures i == |log| - 1
    ensures log[i] == Emitted(AgentEnd(Ended(log[..i])))
    ensures Injected(log[..i]) == TakenOver(log[..i])
    ensures Count(log[..i], TurnStarts) == Count(log[..i], TurnEnds)
    ensures Count(log[..i], MessageStarts) == Count(log[..i], MessageEnds)
    ensures Count(log[..i], AgentEnds) == 0
  {
    AcceptedLogAgrees(base, os, log, i);
    assert i + 1 < |log| ==> Allowed(os[i + 1], log[i + 1]);
  }

  /** In a log that is still going on, turns alternate and messages do not overlap. */
  lemma TurnsAndMessagesAlternate(base: seq<Message>, os: seq<Monitor>, log: seq<Entry>, i: nat)
    requires Accepted(base, os, log) && i <= |log|
    ensures Count(log[..i], TurnEnds) <= Count(log[..i], TurnStarts) <= Count(log[..i], TurnEnds) + 1
    ensures Count(log[..i], MessageEnds) <= Count(log[..i], MessageStarts) <= Count(log[..i], MessageEnds) + 1
  {
    AcceptedLogAgrees(base, os, log, i);
  }

  // Queues

  lemma OthersTakeNothing(o: Monitor, x: Entry)
    requires !x.Taken?
    ensures After(o, x).steered == o.steered && After(o, x).followed == o.followed
  {
  }

  lemma StepTaken(o: Monitor, x: Entry)
    ensures After(o, x).steered == o.steered + TakenFromBy(x, Steering)
    ensures After(o, x).followed == o.followed + TakenFromBy(x, FollowUp)
  {
    if !x.Taken? { OthersTakeNothing(o, x); }
  }

  lemma {:induction false} TakenIsRecorded(base: seq<Message>, os: seq<Monitor>, log: seq<Entry>, i: nat)
    requires Accepted(base, os, log) && i <= |log|
    ensures os[i].steered == TakenFrom(log[..i], Steering) && os[i].followed == TakenFrom(log[..i], FollowUp)
  {
    if i > 0 {
      TakenIsRecorded(base, os, log, i - 1);
      assert Front(log[..i]) == log[..i - 1];
      StepTaken(os[i - 1], log[i - 1]);
    }
  }

  // Tool calls

  lemma StepRunning(o: Monitor, x: Entry, id: string)
    requires Allowed(o, x)
    ensures After(o, x).running[id] + One(Is(x, ToolEnds(id))) == o.running[id] + One(Is(x, ToolStarts(id)))
  {
    if !ToolBoundary(x) { OthersLeaveCalls(o, x); }
  }

  lemma StepQuiet(o: Monitor, x: Entry)
    requires Allowed(o, x) && (!o.phase.Replied? ==> o.running == multiset{})
    ensures !After(o, x).phase.Replied? ==> After(o, x).running == multiset{}
  {
    if !ToolBoundary(x) { OthersLeaveCalls(o, x); }
  }

  /** Started but not ended is running. */
  lemma {:induction false} RunningIsStartedMinusEnded(base: seq<Message>, os: seq<Monitor>, log: seq<Entry>, i: nat, id: string)
    requires Accepted(base, os, log) && i <= |log|
    ensures Count(log[..i], ToolStarts(id)) == Count(log[..i], ToolEnds(id)) + os[i].running[id]
    ensures !os[i].phase.Replied? ==> os[i].running == multiset{}
  {
    if i > 0 {
      RunningIsStartedMinusEnded(base, os, log, i - 1, id);
      assert Front(log[..i]) == log[..i - 1];
      StepRunning(os[i - 1], log[i - 1], id);
      StepQuiet(os[i - 1], log[i - 1]);
    }
  }

  lemma UpdateNeedsRunning(o: Monitor, id: string)
    requires Allowed(o, Emitted(ToolUpdate(id)))
    ensures o.running[id] > 0
  {
  }

  /** An update comes only while an execution of its call is running. */
  lemma UpdatesComeWhileRunning(base: seq<Message>, os: seq<Monitor>, log: seq<Entry>, i: nat, id: string)
    requires Accepted(base, os, log) && i < |log| && log[i] == Emitted(ToolUpdate(id))
    ensures Count(log[..i], ToolStarts(id)) > Count(log[..i], ToolEnds(id))
  {
    UpdateNeedsRunning(os[i], id);
    RunningIsStartedMinusEnded(base, os, log, i, id);
  }

  /** By the end of its turn every started call has ended exactly once. */
  lemma CallsEndWithTheirTurn(base: seq<Message>, os: seq<Monitor>, log: seq<Entry>, i: nat, id: string)
    requires Accepted(base, os, log) && i < |log| && (Is(log[i], TurnEnds) || Is(log[i], AgentEnds))
    ensures Count(log[..i], ToolStarts(id)) == Count(log[..i], ToolEnds(id))
  {
    RunningIsStartedMinusEnded(base, os, log, i, id);
  }

  /** After a reply the transcript ends with that reply and the results reported so far. */
  ghost predicate EndsWithReply(o: Monitor) {
    o.phase.Replied? ==>
      var n := |o.results| + 1;
      && n <= |o.transcript|
      && o.transcript[|o.transcript| - n..] == [o.reply] + o.results
  }

  lemma OthersLeaveReply(o: Monitor, x: Entry)
    requires Allowed(o, x) && After(o, x).phase.Replied? && !EndsMessage(x)
    ensures o.phase.Replied? && After(o, x).reply == o.reply && After(o, x).results == o.results
  {
  }

  lemma StepReply(o: Monitor, x: Entry)
    requires Allowed(o, x) && After(o, x).phase.Replied?
    ensures var p := After(o, x);
            if o.phase.Replied? then p.reply == o.reply && p.results == o.results + EndedBy(x)
            else EndedBy(x) == [p.reply] && p.results == []
  {
    if !EndsMessage(x) { OthersLeaveReply(o, x); }
  }

  lemma StepEndsWithReply(o: Monitor, p: Monitor, ended: seq<Message>)
    requires EndsWithReply(o) && p.phase.Replied? && p.transcript == o.transcript + ended
    requires if o.phase.Replied? then p.reply == o.reply && p.results == o.results + ended
             else ended == [p.reply] && p.results == []
    ensures EndsWithReply(p)
  {
    if o.phase.Replied? {
      var n := |o.transcript| - |o.results| - 1;
      assert p.transcript[n..] == o.transcript[n..] + ended;
    }
  }

  lemma {:induction false} TranscriptEndsWithReply(base: seq<Message>, os: seq<Monitor>, log: seq<Entry>, i: nat)
    requires Accepted(base, os, log) && i <= |log|
    ensures EndsWithReply(os[i])
  {
    if i > 0 {
      TranscriptEndsWithReply(base, os, log, i - 1);
      if os[i].phase.Replied? {
        StepReply(os[i - 1], log[i - 1]);
        StepTranscript(os[i - 1], log[i - 1]);
        StepEndsWithReply(os[i - 1], os[i], EndedBy(log[i - 1]));
      }
    }
  }

  /** Each turn ends with its reply followed by results for its calls, in source order: all of
      them unless the run was aborted before, and at least one when there are any. A reply that
      failed has no results. */
  lemma TurnsPairCallsWithResults(base: seq<Message>, os: seq<Monitor>, log: seq<Entry>, i: nat)
    requires Accepted(base, os, log) && i < |log| && Is(log[i], TurnEnds)
    ensures var TurnEnd(m, results), ended := log[i].event, Ended(log[..i]);
            && |results| < |ended|
            && ended[|ended| - |results| - 1..] == [m] + results
            && Paired(ToolCalls(m), results, Count(log[..i], Aborts) > 0)
  {
    AcceptedLogAgrees(base, os, log, i);
    TranscriptEndsWithReply(base, os, log, i);
  }

  // Why a run goes on, and why it stops

  /** The log without the abort signal. */
  function Steps(log: seq<Entry>): seq<Entry> {
    if log == [] then [] else Steps(Front(log)) + if Last(log).AbortSeen? then [] else [Last(log)]
  }

  predicate EndsTurn(x: Entry, failed: bool) {
    x.Emitted? && x.event.TurnEnd? && Failed(x.event.message) == failed
  }

  /** The last batch since the last request left results to answer. */
  predicate WantsMore(log: seq<Entry>) {
    log != [] &&
    match Last(log)
    case Requested(_) => false
    case BatchDone(more) => more
    case _ => WantsMore(Front(log))
  }

  /** How the log ends when the last turn is over. */
  predicate TailFits(o: Monitor, s: seq<Entry>) {
    var n := |s|;
    match o.phase
    case Started => n >= 1 && s[n - 1] == Emitted(AgentStart)
    case Failing => n >= 1 && EndsTurn(s[n - 1], true)
    case Between => BetweenFits(o, s)
    case _ => true
  }

  predicate BetweenFits(o: Monitor, s: seq<Entry>) {
    var n := |s|;
    match o.plan.asked
    case Nobody => n >= 1 && EndsTurn(s[n - 1], false)
    case StopAsked => n >= 2 && s[n - 1] == StopRequested && EndsTurn(s[n - 2], false)
    case SteeringAsked => n >= 2 && s[n - 1] == Taken(Steering, o.owed) && EndsTurn(s[n - 2], false)
    case FollowUpsAsked =>
      n >= 3 && s[n - 1] == Taken(FollowUp, o.owed) && s[n - 2] == Taken(Steering, []) && EndsTurn(s[n - 3], false)
  }

  predicate ChangesTail(x: Entry) {
    || x.Taken? || x.StopRequested?
    || (x.Emitted? && (x.event.AgentStart? || x.event.TurnStart? || x.event.TurnEnd? || x.event.AgentEnd?))
  }

  lemma OthersLeaveTail(o: Monitor, x: Entry)
    requires Allowed(o, x) && !ChangesTail(x) && !x.AbortSeen?
    ensures var p := After(o, x).phase; !p.Started? && !p.Failing? && !p.Between?
  {
  }

  lemma StepTail(o: Monitor, x: Entry, s: seq<Entry>)
    requires Allowed(o, x) && TailFits(o, s) && !x.AbortSeen?
    ensures TailFits(After(o, x), s + [x])
  {
    if !ChangesTail(x) { OthersLeaveTail(o, x); }
  }

  lemma AbortLeavesTail(o: Monitor, s: seq<Entry>)
    requires TailFits(o, s)
    ensures TailFits(After(o, AbortSeen), s)
  {
  }

  lemma StepMore(o: Monitor, x: Entry)
    ensures After(o, x).plan.more == match x case Requested(_) => false case BatchDone(more) => more case _ => o.plan.more
  {
  }

  lemma {:induction false} AcceptedTail(base: seq<Message>, os: seq<Monitor>, log: seq<Entry>, i: nat)
    requires Accepted(base, os, log) && i <= |log|
    ensures TailFits(os[i], Steps(log[..i])) && os[i].plan.more == WantsMore(log[..i])
  {
    if i > 0 {
      AcceptedTail(base, os, log, i - 1);
      assert Front(log[..i]) == log[..i - 1];
      var o, x := os[i - 1], log[i - 1];
      StepMore(o, x);
      if x.AbortSeen? {
        AbortLeavesTail(o, Steps(log[..i - 1]));
        assert Steps(log[..i]) == Steps(log[..i - 1]);
      } else {
        StepTail(o, x, Steps(log[..i - 1]));
      }
    }
  }

  /** A run ends for one of three reasons: its last reply failed; a hook asked to stop; or no tool
      results are left to answer, and first the steering queue and then the follow-up queue gave
      nothing. */
  lemma AgentEndHasReason(base: seq<Message>, os: seq<Monitor>, log: seq<Entry>, i: nat)
    requires Accepted(base, os, log) && i < |log| && Is(log[i], AgentEnds)
    ensures var s := Steps(log[..i]);
            var n := |s|;
            || (n >= 1 && EndsTurn(s[n - 1], true))
            || (n >= 2 && s[n - 1] == StopRequested && EndsTurn(s[n - 2], false))
            || (n >= 3 && s[n - 1] == Taken(FollowUp, []) && s[n - 2] == Taken(Steering, []) && EndsTurn(s[n - 3], false)
                && !WantsMore(log[..i]))
  {
    AcceptedTail(base, os, log, i);
  }

  /** A turn starts for one of three reasons: the run begins; steering was asked for, and there are
      tool results to answer or steering messages; or nothing else was left and there are follow-ups. */
  lemma TurnStartHasReason(base: seq<Message>, os: seq<Monitor>, log: seq<Entry>, i: nat)
    requires Accepted(base, os, log) && i < |log| && Is(log[i], TurnStarts)
    ensures var s := Steps(log[..i]);
            var n := |s|;
            || (n >= 1 && s[n - 1] == Emitted(AgentStart))
            || (n >= 2 && s[n - 1].Taken? && s[n - 1].source == Steering && EndsTurn(s[n - 2], false)
                && (s[n - 1].messages != [] || WantsMore(log[..i])))
            || (n >= 3 && s[n - 1].Taken? && s[n - 1].source == FollowUp && s[n - 1].messages != []
                && s[n - 2] == Taken(Steering, []) && EndsTurn(s[n - 3], false))
  {
    AcceptedTail(base, os, log, i);
  }

  /** Follow-ups are asked for only where the run would otherwise end. */
  lemma FollowUpsComeLast(base: seq<Message>, os: seq<Monitor>, log: seq<Entry>, i: nat, messages: seq<Message>)
    requires Accepted(base, os, log) && 0 < i < |log| && log[i] == Taken(FollowUp, messages)
    ensures var s := Steps(log[..i]);
            var n := |s|;
            n >= 2 && s[n - 1] == Taken(Steering, []) && EndsTurn(s[n - 2], false) && !WantsMore(log[..i])
  {
    AcceptedTail(base, os, log, i);
    RunBegins(base, os, log, i);
  }

  // How a run begins

  lemma OthersLeaveBeginning(o: Monitor, x: Entry)
    requires !x.Taken?
    ensures After(o, x).plan.began == o.plan.began
  {
  }

  lemma OnlyTakenOpens(o: Monitor, x: Entry)
    requires Allowed(o, x)
    ensures o.phase.Idle? ==> x.Taken?
  {
  }

  lemma NeverIdleAgain(o: Monitor, x: Entry)
    requires Allowed(o, x) && !o.phase.Idle?
    ensures !After(o, x).phase.Idle?
  {
  }

  lemma StepBegan(o: Monitor, x: Entry)
    requires Allowed(o, x)
    ensures !After(o, x).phase.Idle?
    ensures After(o, x).plan.began == if o.phase.Idle? && x.Taken? then Beginning(x.source, x.messages) else o.plan.began
    ensures o.phase.Idle? ==> x.Taken?
  {
    OnlyTakenOpens(o, x);
    if !x.Taken? { OthersLeaveBeginning(o, x); }
    if !o.phase.Idle? { NeverIdleAgain(o, x); }
  }

  lemma {:induction false} RunBegins(base: seq<Message>, os: seq<Monitor>, log: seq<Entry>, i: nat)
    requires Accepted(base, os, log) && 0 < i <= |log|
    ensures log[0].Taken? && !os[i].phase.Idle? && os[i].plan.began == Beginning(log[0].source, log[0].messages)
  {
    StepBegan(os[i - 1], log[i - 1]);
    if i > 1 { RunBegins(base, os, log, i - 1); }
  }

  predicate Early(phase: Phase) { phase.Idle? || phase.Opened? || phase.Started? || phase.Prompting? }

  /** The messages a run began with lead its transcript, or will. */
  ghost predicate Leads(o: Monitor) {
    var first := o.plan.began.messages;
    && (o.phase.Idle? ==> o.transcript == [] && first == [])
    && (first <= o.transcript || (Early(o.phase) && first == o.transcript + o.owed))
  }

  lemma StepEarly(o: Monitor, x: Entry)
    requires Allowed(o, x) && Early(o.phase)
    ensures Early(After(o, x).phase) || o.owed == []
    ensures EndsMessage(x) ==> o.phase.Prompting?
  {
  }

  lemma StepLeads(o: Monitor, x: Entry, p: Monitor)
    requires Leads(o) && OwedStep(o, x, p) && p.transcript == o.transcript + EndedBy(x) && !p.phase.Idle?
    requires p.plan.began == if o.phase.Idle? && x.Taken? then Beginning(x.source, x.messages) else o.plan.began
    requires Early(o.phase) ==> (Early(p.phase) || o.owed == []) && (EndsMessage(x) ==> o.phase.Prompting?)
    requires o.phase.Idle? ==> x.Taken? && Early(p.phase)
    ensures Leads(p)
  {
    var first := o.plan.began.messages;
    assert o.owed == [] ==> o.transcript + o.owed == o.transcript;
    if !o.phase.Idle? && !(first <= o.transcript) && !x.Taken? {
      assert o.transcript + (EndedBy(x) + p.owed) == p.transcript + p.owed;
    }
  }

  lemma {:induction false} AcceptedLeads(base: seq<Message>, os: seq<Monitor>, log: seq<Entry>, i: nat)
    requires Accepted(base, os, log) && i <= |log|
    ensures Leads(os[i])
  {
    if i > 0 {
      AcceptedLeads(base, os, log, i - 1);
      var o, x := os[i - 1], log[i - 1];
      StepOwed(o, x);
      StepTranscript(o, x);
      StepBegan(o, x);
      if Early(o.phase) { StepEarly(o, x); }
      StepLeads(o, x, os[i]);
    }
  }

  /** A finished run added first of all the messages it began with. */
  lemma RunStartsWithItsMessages(base: seq<Message>, os: seq<Monitor>, log: seq<Entry>, i: nat)
    requires Accepted(base, os, log) && i < |log| && Is(log[i], AgentEnds)
    ensures log[0].Taken? && log[0].messages <= Ended(log[..i])
  {
    AcceptedLeads(base, os, log, i);
    AcceptedLogAgrees(base, os, log, i);
    StepBegan(os[0], log[0]);
    if i > 0 { RunBegins(base, os, log, i); }
  }

  lemma StepUnrequested(o: Monitor, x: Entry)
    requires Allowed(o, x) && Early(o.phase) && !x.Requested?
    ensures Early(After(o, x).phase)
  {
  }

  lemma {:induction false} EarlyUntilRequest(base: seq<Message>, os: seq<Monitor>, log: seq<Entry>, i: nat)
    requires Accepted(base, os, log) && i <= |log|
    requires forall j :: 0 <= j < i ==> !log[j].Requested?
    ensures Early(os[i].phase)
  {
    if i > 0 {
      EarlyUntilRequest(base, os, log, i - 1);
      StepUnrequested(os[i - 1], log[i - 1]);
    }
  }

  /** A run that began with a drained steering message takes no other before its first request, so
      one at a time stays one at a time. */
  lemma SteeringRunPollsLater(base: seq<Message>, os: seq<Monitor>, log: seq<Entry>, i: nat)
    requires Accepted(base, os, log) && 0 < i < |log| && log[i].Taken?
    requires log[0].Taken? && log[0].source == Steering
    ensures exists j :: 0 < j < i && log[j].Requested?
  {
    RunBegins(base, os, log, i);
    assert Allowed(os[i], log[i]);
    if forall j :: 0 <= j < i ==> !log[j].Requested? {
      EarlyUntilRequest(base, os, log, i);
    }
  }

  // Requests, failures and updates

  function UpdateBy(x: Entry): seq<string> {
    match x case Emitted(ToolUpdate(id)) => [id] case _ => []
  }

  /** The ids of the updates of running tools, in order. */
  function UpdatesIn(log: seq<Entry>): seq<string> {
    if log == [] then [] else UpdatesIn(Front(log)) + UpdateBy(Last(log))
  }

  predicate SendsUpdate(x: Entry) { x.Emitted? && x.event.ToolUpdate? }

  lemma OthersSendNothing(o: Monitor, x: Entry)
    requires !SendsUpdate(x)
    ensures After(o, x).updates == o.updates
  {
  }

  lemma {:induction false} UpdatesAreLogged(base: seq<Message>, os: seq<Monitor>, log: seq<Entry>, i: nat)
    requires Accepted(base, os, log) && i <= |log|
    ensures os[i].updates == UpdatesIn(log[..i])
  {
    if i > 0 {
      UpdatesAreLogged(base, os, log, i - 1);
      assert Front(log[..i]) == log[..i - 1];
      if !SendsUpdate(log[i - 1]) { OthersSendNothing(os[i - 1], log[i - 1]); }
    }
  }

  predicate Unrequested(log: seq<Entry>) {
    log == [] || (!Last(log).Requested? && Unrequested(Front(log)))
  }

  /** Since the last request the steering queue was asked, other than to begin the run. */
  predicate PolledSince(log: seq<Entry>) {
    |log| > 1 && !Last(log).Requested? &&
    ((Last(log).Taken? && Last(log).source == Steering) || PolledSince(Front(log)))
  }

  predicate PollFits(o: Monitor, log: seq<Entry>) {
    && (o.phase.Idle? ==> log == [])
    && (o.phase.Opened? || o.phase.Started? || (o.phase.Prompting? && o.plan.asked.Nobody?) ==> Unrequested(log))
    && (o.phase.Prompting? ==> !o.plan.asked.StopAsked?)
    && ((o.phase.Prompting? || o.phase.Between?) && (o.plan.asked.SteeringAsked? || o.plan.asked.FollowUpsAsked?) ==>
          PolledSince(log))
    && (o.phase.Idle? || o.phase.Opened? || o.phase.Started? ==> o.plan.asked.Nobody?)
  }

  predicate MovesPoll(x: Entry) {
    x.Taken? || x.Requested? || x.StopRequested?
    || (x.Emitted? && (x.event.AgentStart? || x.event.TurnStart? || x.event.TurnEnd?))
  }

  lemma OthersLeavePoll(o: Monitor, x: Entry)
    requires Allowed(o, x) && !MovesPoll(x)
    ensures var p := After(o, x);
            && !p.phase.Idle? && (p.phase == o.phase || (!p.phase.Opened? && !p.phase.Started? && !p.phase.Prompting? && !p.phase.Between?))
            && p.plan.asked == o.plan.asked
  {
  }

  lemma TakenPolls(o: Monitor, source: Source, messages: seq<Message>, log: seq<Entry>)
    requires log != [] && Allowed(o, Last(log)) && Last(log) == Taken(source, messages) && PollFits(o, Front(log))
    requires o.phase.Idle? <==> Front(log) == []
    ensures PollFits(After(o, Last(log)), log)
  {
  }

  lemma EventPolls(o: Monitor, e: Event, log: seq<Entry>)
    requires log != [] && MayEmit(o, e) && (e.AgentStart? || e.TurnStart? || e.TurnEnd?)
    requires Last(log) == Emitted(e) && PollFits(o, Front(log))
    requires o.phase.Idle? <==> Front(log) == []
    ensures PollFits(AfterEvent(o, e), log)
  {
  }

  lemma StepPoll(o: Monitor, x: Entry, log: seq<Entry>)
    requires log != [] && Allowed(o, x) && Last(log) == x && PollFits(o, Front(log))
    requires o.phase.Idle? <==> Front(log) == []
    ensures PollFits(After(o, x), log)
  {
    if !MovesPoll(x) {
      OthersLeavePoll(o, x);
    } else if x.Taken? {
      TakenPolls(o, x.source, x.messages, log);
    } else if x.Emitted? {
      EventPolls(o, x.event, log);
    }
  }

  lemma {:induction false} AcceptedPolls(base: seq<Message>, os: seq<Monitor>, log: seq<Entry>, i: nat)
    requires Accepted(base, os, log) && i <= |log|
    ensures PollFits(os[i], log[..i]) && (os[i].phase.Idle? <==> i == 0)
  {
    if i > 0 {
      AcceptedPolls(base, os, log, i - 1);
      assert Front(log[..i]) == log[..i - 1];
      StepPoll(os[i - 1], log[i - 1], log[..i]);
      StepBegan(os[i - 1], log[i - 1]);
    }
  }

  /** Before every request the steering queue was asked, except before the first one of a run that
      began with messages from it. */
  lemma RequestFollowsPoll(base: seq<Message>, os: seq<Monitor>, log: seq<Entry>, i: nat)
    requires Accepted(base, os, log) && i < |log| && log[i].Requested?
    ensures log[0].Taken?
    ensures PolledSince(log[..i]) || (log[0].source == Steering && Unrequested(log[..i]))
  {
    AcceptedPolls(base, os, log, i);
    RunBegins(base, os, log, i);
  }

  /** After a failed or aborted reply a run ends; after any other reply it never ends at once. */
  lemma {:induction false} FailureEndsRun(base: seq<Message>, os: seq<Monitor>, log: seq<Entry>, i: nat, m: Message, results: seq<Message>, j: nat)
    requires Accepted(base, os, log) && i < j < |log| && log[i] == Emitted(TurnEnd(m, results)) && m.Assistant?
    ensures m.stop == Error || m.stop == Aborted ==> results == [] && (log[j].AbortSeen? || Is(log[j], AgentEnds))
    ensures m.stop != Error && m.stop != Aborted && (forall k :: i < k < j ==> log[k].AbortSeen?) ==> !Is(log[j], AgentEnds)
  {
    AfterTurnEnd(base, os, log, i, m, results, j);
    assert Allowed(os[i], log[i]) && Allowed(os[j], log[j]);
  }

  lemma {:induction false} AfterTurnEnd(base: seq<Message>, os: seq<Monitor>, log: seq<Entry>, i: nat, m: Message, results: seq<Message>, j: nat)
    requires Accepted(base, os, log) && i < j <= |log| && log[i] == Emitted(TurnEnd(m, results))
    ensures Failed(m) ==> os[j].phase.Failing? || os[j].phase.Done?
    ensures !Failed(m) && (forall k :: i < k < j ==> log[k].AbortSeen?) ==> os[j].phase.Between? && os[j].plan.asked.Nobody?
  {
    assert Allowed(os[j - 1], log[j - 1]) && os[j] == After(os[j - 1], log[j - 1]);
    if j > i + 1 {
      AfterTurnEnd(base, os, log, i, m, results, j - 1);
      if Failed(m) { StaysFailing(os[j - 1], log[j - 1]); }
    }
  }

  lemma StaysFailing(o: Monitor, x: Entry)
    requires Allowed(o, x) && (o.phase.Failing? || o.phase.Done?)
    ensures After(o, x).phase.Failing? || After(o, x).phase.Done?
  {
  }
}
