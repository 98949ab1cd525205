/** How the monitor moves while the tool calls of one reply are executed. */
module ToolBatches {
  import opened Options
  import opened Protocol
  import opened ToolRuns

  /** The same run, except that it may have been aborted meanwhile. */
  predicate UpToAbort(o: Monitor, p: Monitor) {
    p == o.(aborted := p.aborted) && (o.aborted ==> p.aborted)
  }

  /** Injecting the first message owed. */
  lemma InjectionSteps(o: Monitor, m: Message, rest: seq<Message>, p: Monitor, q: Monitor)
    requires o.phase.Prompting? && o.open.None? && o.owed == [m] + rest
    requires UpToAbort(AfterEvent(o, MessageStart(m)), p)
    ensures MayEmit(o, MessageStart(m)) && MayEmit(p, MessageEnd(m))
    ensures UpToAbort(AfterEvent(p, MessageEnd(m)), q) ==> UpToAbort(o.(owed := rest, transcript := o.transcript + [m]), q)
  {
  }

  /** Asking the provider. */
  function AsRequested(o: Monitor): Monitor {
    o.(phase := Waiting, plan := o.plan.(more := false))
  }

  /** With the reply received. */
  function AsReplied(o: Monitor, final: Message): Monitor {
    AsRequested(o).(phase := Replied, transcript := o.transcript + [final], reply := final, started := 0, results := [])
  }

  /** Closing the reply. */
  lemma ReplySteps(o: Monitor, open: Option<Message>, p: Monitor, final: Message, q: Monitor)
    requires o.phase.Prompting? && o.open.None? && open.Some? && final.Assistant?
    requires UpToAbort(AsRequested(o).(open := open), p)
    ensures MayEmit(p, MessageEnd(final))
    ensures UpToAbort(AfterEvent(p, MessageEnd(final)), q) ==> UpToAbort(AsReplied(o, final), q)
  {
  }

  /** Within one turn only the progress of its calls changes. */
  predicate SameTurn(o: Monitor, p: Monitor) {
    && p.phase == o.phase && p.base == o.base && p.plan == o.plan && p.owed == o.owed && p.reply == o.reply
    && p.steered == o.steered && p.followed == o.followed
    && (o.aborted ==> p.aborted)
  }

  /** A reply with these calls has just been received. */
  predicate AtReply(o: Monitor, calls: seq<ToolCall>) {
    && o.phase.Replied? && o.open.None? && calls == o.Calls()
    && o.started == 0 && o.results == [] && o.running == multiset{} && o.finished == multiset{}
  }

  /** Call `k` is the next to start, the calls before it being settled. */
  predicate AtCall(o: Monitor, calls: seq<ToolCall>, k: nat) {
    && o.phase.Replied? && o.open.None? && calls == o.Calls() && k < |calls|
    && o.started == k == |o.results| && o.running == multiset{} && o.finished == multiset{}
  }

  /** From `o` to `p` calls were started, ended and reported; `earlier` results were there before. */
  predicate Settled(o: Monitor, p: Monitor, earlier: seq<Message>, results: seq<Message>) {
    && SameTurn(o, p) && p.open.None?
    && p.started == |earlier| + |results| && p.results == earlier + results
    && p.transcript == o.transcript + results
    && p.running == multiset{} && p.finished == multiset{}
  }

  lemma SettledMore(o: Monitor, p: Monitor, results: seq<Message>, m: Message, q: Monitor)
    requires Settled(o, p, [], results) && Settled(p, q, p.results, [m])
    ensures Settled(o, q, [], results + [m])
  {
    assert p.transcript + [m] == o.transcript + (results + [m]);
    assert p.results + [m] == [] + (results + [m]);
  }

  /** Results of the first calls, in order; without an abort the outcomes the calls have on their own. */
  ghost predicate FinalsFit(calls: seq<ToolCall>, runs: seq<ToolRun>, finals: seq<Finalized>, results: seq<Message>, aborted: bool)
  {
    && |results| == |finals| <= |calls| == |runs|
    && forall k :: 0 <= k < |finals| ==>
         && results[k] == ResultMessage(finals[k]) && finals[k].call == calls[k]
         && (!aborted ==> finals[k] == Outcome(calls[k], runs[k]))
  }

  lemma FinalsMore(calls: seq<ToolCall>, runs: seq<ToolRun>, finals: seq<Finalized>, results: seq<Message>,
                   before: bool, final: Finalized, aborted: bool)
    requires FinalsFit(calls, runs, finals, results, before) && |finals| < |calls| && (before ==> aborted)
    requires final.call == calls[|finals|] && (!aborted ==> final == Outcome(calls[|finals|], runs[|finals|]))
    ensures FinalsFit(calls, runs, finals + [final], results + [ResultMessage(final)], aborted)
  {
  }

  lemma FinalsComplete(calls: seq<ToolCall>, runs: seq<ToolRun>, finals: seq<Finalized>, results: seq<Message>, aborted: bool)
    requires FinalsFit(calls, runs, finals, results, aborted)
    requires (!aborted ==> |finals| == |calls|) && (calls != [] ==> finals != [])
    ensures Paired(calls, results, aborted)
    ensures !aborted ==> results == Messages(Outcomes(calls, runs)) && finals == Outcomes(calls, runs)
  {
    if !aborted {
      assert finals == Outcomes(calls, runs);
      assert results == Messages(finals);
    }
  }

  lemma BatchComplete(calls: seq<ToolCall>, runs: seq<ToolRun>, finals: seq<Finalized>, results: seq<Message>, aborted: bool)
    requires FinalsFit(calls, runs, finals, results, aborted)
    requires (!aborted ==> |finals| == |calls|) && (calls != [] ==> finals != [])
    ensures Paired(calls, results, aborted)
    ensures !aborted ==>
              && results == Messages(Outcomes(calls, runs))
              && (ShouldTerminate(finals) <==> calls != [] && forall k :: 0 <= k < |runs| ==> AsksToTerminate(runs[k]))
  {
    FinalsComplete(calls, runs, finals, results, aborted);
    BatchTerminates(calls, runs);
  }

  /** A sequential batch after `i` calls: their results and updates, without an abort. */
  ghost predicate Sequential(calls: seq<ToolCall>, runs: seq<ToolRun>, finals: seq<Finalized>, results: seq<Message>,
                             aborted: bool, before: seq<string>, updates: seq<string>)
  {
    && FinalsFit(calls, runs, finals, results, aborted)
    && (!aborted ==> updates == before + AllUpdates(calls[..|finals|], runs[..|finals|]))
  }

  lemma SequentialMore(calls: seq<ToolCall>, runs: seq<ToolRun>, finals: seq<Finalized>, results: seq<Message>,
                       wasAborted: bool, before: seq<string>, updates: seq<string>,
                       final: Finalized, aborted: bool, later: seq<string>)
    requires Sequential(calls, runs, finals, results, wasAborted, before, updates) && |finals| < |calls|
    requires (wasAborted ==> aborted) && final.call == calls[|finals|]
    requires !aborted ==> final == Outcome(calls[|finals|], runs[|finals|])
                          && later == updates + UpdatesOf(calls[|finals|], runs[|finals|])
    ensures Sequential(calls, runs, finals + [final], results + [ResultMessage(final)], aborted, before, later)
  {
    FinalsMore(calls, runs, finals, results, wasAborted, final, aborted);
    AllUpdatesNext(calls, runs, |finals|);
  }

  lemma SequentialDone(calls: seq<ToolCall>, runs: seq<ToolRun>, finals: seq<Finalized>, results: seq<Message>,
                       aborted: bool, before: seq<string>, updates: seq<string>)
    requires Sequential(calls, runs, finals, results, aborted, before, updates)
    requires (!aborted ==> |finals| == |calls|) && (calls != [] ==> finals != [])
    ensures Paired(calls, results, aborted)
    ensures !aborted ==>
              && results == Messages(Outcomes(calls, runs))
              && (ShouldTerminate(finals) <==> calls != [] && forall k :: 0 <= k < |runs| ==> AsksToTerminate(runs[k]))
              && updates == before + AllUpdates(calls, runs)
  {
    BatchComplete(calls, runs, finals, results, aborted);
    assert |finals| == |calls| ==> calls[..|finals|] == calls && runs[..|finals|] == runs;
  }

  // One call, from its start to its result

  lemma EndFollowsStart(calls: seq<ToolCall>, k: nat, o: Monitor, p: Monitor)
    requires AtCall(o, calls, k) && UpToAbort(AfterEvent(o, ToolStart(calls[k].id)).(updates := p.updates), p)
    ensures MayEmit(p, ToolEnd(calls[k].id))
  {
  }

  lemma ResultFollowsEnd(calls: seq<ToolCall>, k: nat, o: Monitor, p: Monitor, q: Monitor, m: Message)
    requires AtCall(o, calls, k) && UpToAbort(AfterEvent(o, ToolStart(calls[k].id)).(updates := p.updates), p)
    requires UpToAbort(AfterEvent(p, ToolEnd(calls[k].id)), q) && Answers(m, calls[k])
    ensures q.running == multiset{} && q.finished == multiset{calls[k].id}
    ensures MayEmit(q, MessageStart(m))
  {
  }

  lemma CallSettles(calls: seq<ToolCall>, k: nat, o: Monitor, p: Monitor, q: Monitor, m: Message, r: Monitor)
    requires AtCall(o, calls, k) && UpToAbort(AfterEvent(o, ToolStart(calls[k].id)).(updates := p.updates), p)
    requires UpToAbort(AfterEvent(p, ToolEnd(calls[k].id)), q) && Answers(m, calls[k])
    requires UpToAbort(AfterEvent(AfterEvent(q, MessageStart(m)), MessageEnd(m)), r)
    ensures Settled(o, r, o.results, [m]) && r.updates == p.updates
  {
    ResultFollowsEnd(calls, k, o, p, q, m);
  }

  // A concurrent batch: calls 0 to n - 1 have started, the live ones are running, the others ended

  ghost predicate InBatch(o: Monitor, p: Monitor, calls: seq<ToolCall>, live: seq<bool>, done: seq<bool>) {
    && SameTurn(o, p) && p.phase.Replied? && p.open.None? && calls == p.Calls()
    && |live| == |done| <= |calls|
    && p.started == |live| && p.results == [] && p.transcript == o.transcript
    && p.running == Flagged(Ids(calls), live)
    && p.finished == Flagged(Ids(calls), done)
  }

  lemma LiveCallRuns(o: Monitor, p: Monitor, calls: seq<ToolCall>, live: seq<bool>, done: seq<bool>, k: nat)
    requires InBatch(o, p, calls, live, done) && k < |live| && live[k]
    ensures calls[k].id in p.running
    ensures MayEmit(p, ToolUpdate(calls[k].id)) && MayEmit(p, ToolEnd(calls[k].id))
  {
    LowerFlag(Ids(calls), live, k);
  }

  lemma FlagsMove(ids: seq<string>, live: seq<bool>, done: seq<bool>, k: nat)
    requires |live| == |done| <= |ids| && k < |live| && live[k] && !done[k]
    ensures Flagged(ids, live) - multiset{ids[k]} == Flagged(ids, live[k := false])
    ensures Flagged(ids, done) + multiset{ids[k]} == Flagged(ids, done[k := true])
  {
    LowerFlag(ids, live, k);
    RaiseFlag(ids, done, k);
  }

  predicate StepsTo(p: Monitor, q: Monitor, started: nat, running: multiset<string>, finished: multiset<string>) {
    && SameTurn(p, q) && q.open == p.open && q.results == p.results && q.transcript == p.transcript
    && q.started == started && q.running == running && q.finished == finished
  }

  lemma EndSteps(p: Monitor, id: string, q: Monitor)
    requires UpToAbort(AfterEvent(p, ToolEnd(id)), q)
    ensures StepsTo(p, q, p.started, p.running - multiset{id}, p.finished + multiset{id}) && q.updates == p.updates
  {
  }

  lemma StartSteps(p: Monitor, id: string, q: Monitor)
    requires UpToAbort(AfterEvent(p, ToolStart(id)), q)
    ensures StepsTo(p, q, p.started + 1, p.running + multiset{id}, p.finished) && q.updates == p.updates
  {
  }

  lemma BatchStarts(o: Monitor, p: Monitor, calls: seq<ToolCall>, live: seq<bool>, done: seq<bool>, q: Monitor)
    requires InBatch(o, p, calls, live, done) && |live| < |calls|
    requires StepsTo(p, q, p.started + 1, p.running + multiset{calls[|live|].id}, p.finished)
    ensures InBatch(o, q, calls, live + [true], done + [false])
  {
    AddFlag(Ids(calls), live, true);
    AddFlag(Ids(calls), done, false);
  }

  lemma BatchEnds(o: Monitor, p: Monitor, calls: seq<ToolCall>, live: seq<bool>, done: seq<bool>, k: nat, q: Monitor)
    requires InBatch(o, p, calls, live, done) && k < |live| && live[k] && !done[k]
    requires StepsTo(p, q, p.started, p.running - multiset{calls[k].id}, p.finished + multiset{calls[k].id})
    ensures InBatch(o, q, calls, live[k := false], done[k := true])
  {
    FlagsMove(Ids(calls), live, done, k);
  }

  /** All of the first `n` calls have ended; the first results are reported. */
  ghost predicate Reporting(o: Monitor, p: Monitor, calls: seq<ToolCall>, n: nat, results: seq<Message>) {
    && SameTurn(o, p) && p.phase.Replied? && p.open.None? && calls == p.Calls()
    && |results| <= n <= |calls|
    && p.started == n && p.results == results && p.transcript == o.transcript + results
    && p.running == multiset{}
    && p.finished == multiset(Ids(calls)[|results|..n])
  }

  lemma BatchReports(o: Monitor, p: Monitor, calls: seq<ToolCall>, live: seq<bool>, done: seq<bool>)
    requires InBatch(o, p, calls, live, done)
    requires forall k :: 0 <= k < |live| ==> !live[k] && done[k]
    ensures Reporting(o, p, calls, |live|, [])
  {
    NoFlags(Ids(calls), live);
    AllFlags(Ids(calls), done);
    assert Ids(calls)[0..|live|] == Ids(calls)[..|live|];
  }

  lemma NextReport(o: Monitor, p: Monitor, calls: seq<ToolCall>, n: nat, results: seq<Message>, m: Message)
    requires Reporting(o, p, calls, n, results) && |results| < n && Answers(m, calls[|results|])
    ensures MayEmit(p, MessageStart(m))
    ensures multiset(Ids(calls)[|results|..n]) == multiset{m.callId} + multiset(Ids(calls)[|results| + 1..n])
  {
    var i := |results|;
    assert Ids(calls)[i..n] == [Ids(calls)[i]] + Ids(calls)[i + 1..n];
  }

  predicate Reports(p: Monitor, q: Monitor, m: Message) {
    && SameTurn(p, q) && q.open.None? && q.started == p.started && q.running == p.running
    && q.results == p.results + [m] && q.transcript == p.transcript + [m]
    && m.ToolResult? && q.finished == p.finished - multiset{m.callId}
  }

  lemma ReportSteps(p: Monitor, m: Message, q: Monitor)
    requires p.phase.Replied? && m.ToolResult?
    requires UpToAbort(AfterEvent(AfterEvent(p, MessageStart(m)), MessageEnd(m)), q)
    ensures Reports(p, q, m)
    ensures q.updates == p.updates
  {
  }

  lemma ReportSettles(o: Monitor, p: Monitor, calls: seq<ToolCall>, n: nat, results: seq<Message>, m: Message, q: Monitor)
    requires Reporting(o, p, calls, n, results) && |results| < n && Answers(m, calls[|results|])
    requires Reports(p, q, m)
    ensures Reporting(o, q, calls, n, results + [m])
  {
    NextReport(o, p, calls, n, results, m);
    assert o.transcript + (results + [m]) == o.transcript + results + [m];
  }

  lemma ReportingDone(o: Monitor, p: Monitor, calls: seq<ToolCall>, n: nat, results: seq<Message>)
    requires Reporting(o, p, calls, n, results) && |results| == n
    ensures Settled(o, p, [], results)
  {
    assert Ids(calls)[n..n] == [];
    assert [] + results == results;
  }

  // The calls started so far: settled, or waiting for their tool

  function Live(entries: seq<Option<Finalized>>): (r: seq<bool>)
    ensures |r| == |entries|
  {
    seq(|entries|, k requires 0 <= k < |entries| => entries[k].None?)
  }

  function Finished(entries: seq<Option<Finalized>>): (r: seq<bool>)
    ensures |r| == |entries|
  {
    seq(|entries|, k requires 0 <= k < |entries| => entries[k].Some?)
  }

  lemma EntriesGrow(entries: seq<Option<Finalized>>, outcome: Option<Finalized>)
    ensures var n := |entries|;
            && Live(entries + [outcome]) == (Live(entries) + [true])[n := outcome.None?]
            && Finished(entries + [outcome]) == (Finished(entries) + [false])[n := outcome.Some?]
  {
  }

  lemma TruncatedNext(calls: seq<ToolCall>, i: nat)
    requires i < |calls|
    ensures var all := Messages(Truncated(calls)); all[..i + 1] == all[..i] + [ResultMessage(Truncated(calls)[i])]
    ensures var all := Messages(Truncated(calls)); all[..|calls|] == all
  {
  }

  lemma TruncatedPair(calls: seq<ToolCall>)
    ensures Paired(calls, Messages(Truncated(calls)), false)
  {
  }

  /** Settled entries belong to their calls, and without an abort have the outcomes that the
      calls have on their own. */
  predicate EntriesFit(calls: seq<ToolCall>, runs: seq<ToolRun>, entries: seq<Option<Finalized>>, aborted: bool)
    requires |entries| <= |calls| == |runs|
  {
    forall k :: 0 <= k < |entries| ==> EntryFits(calls[k], runs[k], entries[k], aborted)
  }

  predicate EntryFits(call: ToolCall, run: ToolRun, entry: Option<Finalized>, aborted: bool) {
    if entry.Some? then entry.value.call == call && (!aborted ==> entry.value == Outcome(call, run))
    else !aborted ==> Refused(call, run) == None
  }

  /** The first calls after preflight: refused, or waiting for their tools. */
  ghost predicate Preflighted(calls: seq<ToolCall>, runs: seq<ToolRun>, entries: seq<Option<Finalized>>, aborted: bool)
    requires |entries| <= |calls| == |runs|
  {
    forall k :: 0 <= k < |entries| ==>
      && (entries[k].Some? ==> entries[k].value.call == calls[k])
      && (!aborted ==> entries[k] == Refused(calls[k], runs[k]))
  }

  lemma PreflightMore(calls: seq<ToolCall>, runs: seq<ToolRun>, entries: seq<Option<Finalized>>, before: bool,
                      outcome: Option<Finalized>, aborted: bool)
    requires |entries| < |calls| == |runs| && Preflighted(calls, runs, entries, before) && (before ==> aborted)
    requires outcome.Some? ==> outcome.value.call == calls[|entries|]
    requires !aborted ==> outcome == Refused(calls[|entries|], runs[|entries|])
    ensures Preflighted(calls, runs, entries + [outcome], aborted)
  {
  }

  lemma PreflightFits(calls: seq<ToolCall>, runs: seq<ToolRun>, entries: seq<Option<Finalized>>, aborted: bool)
    requires |entries| <= |calls| == |runs| && Preflighted(calls, runs, entries, aborted)
    ensures EntriesFit(calls, runs, entries, aborted)
  {
    forall k | 0 <= k < |entries| ensures EntryFits(calls[k], runs[k], entries[k], aborted) {
      RefusedFits(calls[k], runs[k], entries[k], aborted);
    }
  }

  lemma RefusedFits(call: ToolCall, run: ToolRun, outcome: Option<Finalized>, aborted: bool)
    requires outcome.Some? ==> outcome.value.call == call
    requires !aborted ==> outcome == Refused(call, run)
    ensures EntryFits(call, run, outcome, aborted)
    ensures EntryFits(call, run, outcome, true)
  {
  }

  lemma BatchUpToAbort(o: Monitor, p: Monitor, calls: seq<ToolCall>, live: seq<bool>, done: seq<bool>, q: Monitor)
    requires InBatch(o, p, calls, live, done) && UpToAbort(p, q)
    ensures InBatch(o, q, calls, live, done)
  {
  }

  lemma BatchSends(o: Monitor, p: Monitor, calls: seq<ToolCall>, live: seq<bool>, done: seq<bool>, id: string, q: Monitor)
    requires InBatch(o, p, calls, live, done) && UpToAbort(AfterEvent(p, ToolUpdate(id)), q)
    ensures InBatch(o, q, calls, live, done) && q.updates == p.updates + [id]
  {
  }

  /** Settling one live entry. */
  lemma EntrySettles(calls: seq<ToolCall>, runs: seq<ToolRun>, entries: seq<Option<Finalized>>, before: bool, k: nat, aborted: bool)
    requires |entries| <= |calls| == |runs| && k < |entries| && entries[k].None?
    requires EntriesFit(calls, runs, entries, before) && (before ==> aborted)
    ensures var settled := entries[k := Some(Executed(calls[k], runs[k]))];
            && EntriesFit(calls, runs, settled, aborted)
            && Live(settled) == Live(entries)[k := false]
            && Finished(settled) == Finished(entries)[k := true]
  {
    assert EntryFits(calls[k], runs[k], entries[k], before);
    ExecutedKeepsCall(calls[k], runs[k]);
  }

  lemma ExecutedKeepsCall(call: ToolCall, run: ToolRun)
    ensures Executed(call, run).call == call
  {
  }

  // Updates still to come in a concurrent batch

  /** `left[k]` updates of call `k`, unless it is done. */
  function Coming(ids: seq<string>, left: seq<nat>, done: seq<bool>): multiset<string>
    requires |left| == |done| <= |ids|
  {
    if left == [] then multiset{}
    else
      var n := |left| - 1;
      Coming(ids, left[..n], done[..n]) + if done[n] then multiset{} else multiset{}[ids[n] := left[n]]
  }

  lemma {:induction false} ComingDrops(ids: seq<string>, left: seq<nat>, done: seq<bool>, k: nat)
    requires |left| == |done| <= |ids| && k < |left| && !done[k]
    ensures left[k] > 0 ==> Coming(ids, left, done) == Coming(ids, left[k := left[k] - 1], done) + multiset{ids[k]}
    ensures left[k] == 0 ==> Coming(ids, left, done) == Coming(ids, left, done[k := true])
  {
    var n := |left| - 1;
    if k < n {
      ComingDrops(ids, left[..n], done[..n], k);
      assert done[k := true][..n] == done[..n][k := true];
      assert left[k] > 0 ==> left[k := left[k] - 1][..n] == left[..n][k := left[k] - 1];
    } else {
      assert done[k := true][..n] == done[..n];
      assert left[k] > 0 ==> left[k := left[k] - 1][..n] == left[..n];
    }
  }

  lemma {:induction false} NothingComing(ids: seq<string>, left: seq<nat>, done: seq<bool>)
    requires |left| == |done| <= |ids| && forall k :: 0 <= k < |done| ==> done[k]
    ensures Coming(ids, left, done) == multiset{}
  {
    if left != [] { NothingComing(ids, left[..|left| - 1], done[..|left| - 1]); }
  }

  function Counts(runs: seq<ToolRun>): (r: seq<nat>)
    ensures |r| == |runs|
  {
    seq(|runs|, k requires 0 <= k < |runs| => runs[k].updates)
  }

  /** When exactly the refused calls are done, what is to come is what the batch sends. */
  lemma {:induction false} AllComing(calls: seq<ToolCall>, runs: seq<ToolRun>, done: seq<bool>)
    requires |calls| == |runs| == |done| && forall k :: 0 <= k < |done| ==> done[k] == !ReachesTool(runs[k])
    ensures Coming(Ids(calls), Counts(runs), done) == multiset(AllUpdates(calls, runs))
  {
    if calls != [] {
      var n := |calls| - 1;
      AllComing(calls[..n], runs[..n], done[..n]);
      assert Counts(runs)[..n] == Counts(runs[..n]);
      ComingOfPrefix(Ids(calls), Ids(calls[..n]), Counts(runs[..n]), done[..n]);
      CopiesCount(calls[n].id, runs[n].updates);
    }
  }

  lemma {:induction false} ComingOfPrefix(ids: seq<string>, some: seq<string>, left: seq<nat>, done: seq<bool>)
    requires |left| == |done| <= |some| && some <= ids
    ensures Coming(ids, left, done) == Coming(some, left, done)
  {
    if left != [] { ComingOfPrefix(ids, some, left[..|left| - 1], done[..|left| - 1]); }
  }

  lemma {:induction false} CopiesCount(id: string, n: nat)
    ensures multiset(seq(n, _ => id)) == multiset{}[id := n]
  {
    if n > 0 {
      CopiesCount(id, n - 1);
      assert seq(n, _ => id) == seq(n - 1, _ => id) + [id];
    }
  }

  /** What was sent and what is to come make up `total`. */
  ghost predicate Awaits(ids: seq<string>, left: seq<nat>, done: seq<bool>, updates: seq<string>, total: multiset<string>)
    requires |left| == |done| <= |ids|
  {
    multiset(updates) + Coming(ids, left, done) == total
  }

  lemma AwaitsLess(ids: seq<string>, left: seq<nat>, done: seq<bool>, k: nat, updates: seq<string>, total: multiset<string>)
    requires |left| == |done| <= |ids| && k < |left| && !done[k] && Awaits(ids, left, done, updates, total)
    ensures if left[k] > 0 then Awaits(ids, left[k := left[k] - 1], done, updates + [ids[k]], total)
            else Awaits(ids, left, done[k := true], updates, total)
  {
    ComingDrops(ids, left, done, k);
  }

  lemma AllSent(ids: seq<string>, left: seq<nat>, done: seq<bool>, updates: seq<string>, total: multiset<string>)
    requires |left| == |done| <= |ids| && Awaits(ids, left, done, updates, total)
    requires forall k :: 0 <= k < |done| ==> done[k]
    ensures multiset(updates) == total
  {
    NothingComing(ids, left, done);
  }

  /** A concurrent batch on its way: `entries` are settled or waiting, the waiting ones with `left`
      updates, and all its updates make up `total`. */
  ghost predicate Midway(o: Monitor, p: Monitor, calls: seq<ToolCall>, runs: seq<ToolRun>, entries: seq<Option<Finalized>>,
                         left: seq<nat>, total: multiset<string>)
  {
    && |left| == |entries| <= |calls| == |runs|
    && InBatch(o, p, calls, Live(entries), Finished(entries))
    && EntriesFit(calls, runs, entries, p.aborted)
    && Awaits(Ids(calls), left, Finished(entries), p.updates, total)
  }

  lemma BatchOver(o: Monitor, p: Monitor, calls: seq<ToolCall>, runs: seq<ToolRun>, entries: seq<Option<Finalized>>,
                  left: seq<nat>, total: multiset<string>)
    requires Midway(o, p, calls, runs, entries, left, total)
    requires forall k :: 0 <= k < |entries| ==> entries[k].Some?
    ensures InBatch(o, p, calls, Live(entries), Finished(entries)) && EntriesFit(calls, runs, entries, p.aborted)
    ensures multiset(p.updates) == total
  {
    AllSent(Ids(calls), left, Finished(entries), p.updates, total);
  }

  /** Without an abort the waiting calls send all updates of the batch. */
  lemma PreflightComing(calls: seq<ToolCall>, runs: seq<ToolRun>, entries: seq<Option<Finalized>>)
    requires |entries| == |calls| == |runs| && Preflighted(calls, runs, entries, false)
    ensures Coming(Ids(calls), Counts(runs)[..|entries|], Finished(entries)) == multiset(AllUpdates(calls, runs))
  {
    forall k | 0 <= k < |entries| ensures Finished(entries)[k] == !ReachesTool(runs[k]) {
      RefusedExactly(calls[k], runs[k]);
    }
    AllComing(calls, runs, Finished(entries));
    assert Counts(runs)[..|entries|] == Counts(runs);
  }

  // Work left in a concurrent batch

  function Work(left: seq<nat>, done: seq<bool>): nat
    requires |left| == |done|
  {
    if left == [] then 0
    else
      var n := |left| - 1;
      Work(left[..n], done[..n]) + if done[n] then 0 else left[n] + 1
  }

  lemma {:induction false} WorkDrops(left: seq<nat>, done: seq<bool>, k: nat)
    requires |left| == |done| && k < |left| && !done[k]
    ensures left[k] > 0 ==> Work(left[k := left[k] - 1], done) < Work(left, done)
    ensures Work(left, done[k := true]) < Work(left, done)
  {
    var n := |left| - 1;
    if k < n {
      WorkDrops(left[..n], done[..n], k);
      assert done[k := true][..n] == done[..n][k := true];
      if left[k] > 0 {
        assert left[k := left[k] - 1][..n] == left[..n][k := left[k] - 1];
      }
    } else {
      assert done[k := true][..n] == done[..n];
      if left[k] > 0 {
        assert left[k := left[k] - 1][..n] == left[..n];
      }
    }
  }
}
