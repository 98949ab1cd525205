# Verified model of the renderer, the agent loop, and the smaller cores

A Dafny 4.11 model of the parts of the repository that keep state step by step, with proofs of what
they promise over whole runs. `dafny verify dfyconfig.toml` checks everything.

**Differential renderer** (`Terminal`, `KittyImages`, `Painting`, `Rendering`, `FrameChanges`, `MainScreen`,
`Sessions`).
`Terminal` is a machine with scrollback, a window, a cursor and image placements; its operations follow
ECMA-48 sections 8.3.9, 8.3.19, 8.3.21, 8.3.22, 8.3.39 and 8.3.41, and `exact` turns false as soon as a
relative move is clamped or text is printed over text or past the margin. `MainScreen.TuiMainScreen` has
the renderer's fields and takes its four paths; a `Screen` value stands for the terminal as the buffer
written so far will leave it. The main result is the contract of `DoRender`, carried over arbitrary
sessions of renders, forced renders and resizes in `Sessions`: afterwards the rows, scrollback included,
are exactly the frame's lines and blanks, whatever path was taken. `FrameChanges` says which path that is,
in terms of the two frames, the switches and the terminal alone.

**Agent** (`Protocol`, `RunFacts`, `MessageQueue`, `ToolRuns`, `ToolBatches`, `Streaming`, `Reducer`,
`Agent`). `Protocol` is a monitor: which entry an observer may see next, from the events of a run, the
messages taken from the caller or a queue, provider requests and aborts. `Agent.Agent` is the loop and its
stateful wrapper; it may only record what the monitor allows, so every run of it is an accepted log, and
`RunFacts` proves what accepted logs are like. Everything outside is arbitrary: provider streams, tools
and hooks, how concurrent tools interleave, and what is queued, cleared or aborted while an event is being
delivered. A run ends because the provider's script does.

**Proxy stream** (`LineFraming`, `ProxyRebuild`, `ProxyStream`): chunks to lines, lines to events, events
to the message whose partial form the server stripped.

**Ranks** (`Ranks`, `Spearman`): ranks with averaged ties, and Spearman's correlation, over the reals.

**Completion** (`Completion`): `@` references in the editor. **Headers and models** (`Headers`, `Catalog`):
case-insensitive header merging, and the run-time overlay of a provider's model list. `Options` and `Texts`
are shared by several modules.

## Findings

Where the code does not do what its comments or its design suggest, the code is followed.

- The cursor marker is looked for in the last `height` lines (packages/tui/src/tui.ts:1149-1167), but
  without clear-on-shrink, which is off by default (packages/tui/src/tui.ts:334), the window stays where
  the longest frame put it. A frame that shrank can have its cursor above the window; the move up is then
  clamped to the window's first row. Until the next clear the renderer's relative moves miss every row of
  the window but the last (`Sessions.LostCursorMisses`); after a forced render the next one repaints and
  moves are exact again (`Sessions.ForcedRenderRecovers`). `Sessions.ShrinkingLosesCursor` gives such a
  frame; `MainScreen.TuiMainScreen.DoRender` says that belief and terminal agree if and only if all lines
  fit and the cursor lies in the window, and `Sessions.ClearOnShrinkKeepsCursor` that it always does with
  clear-on-shrink and no overlays.
- The branch that scrolls down to a target below the window (packages/tui/src/TuiMainScreen.ts:360-371)
  is only reachable with lines that are the empty string, which line resets do not leave
  (`Sessions.FirstTargetInWindow`).
- The agent keeps its pending calls as a set of ids. Over a whole run that set is always the calls
  started and not ended if and only if no call starts while one with the same id is running
  (`Reducer.PendingExactUnlessOverlap`). Distinct ids in each reply suffice
  (`Reducer.DistinctIdsArePending`), and whenever two calls of a reply share an id there is a schedule
  that breaks the set (`Reducer.RepeatedIdHidesRunningCall`).
- A tool-call delta after an end of its call is appended to the word `undefined`
  (`ProxyRebuild.DeltaAfterCallEnd`). The text a call's arguments are parsed from is all of its deltas if
  and only if no delta follows an end, or the deltas before the last end that one follows happen to spell
  that word (`ProxyRebuild.ParsedIsAllDeltas`).
- A last line without a newline is never handled (`ProxyStream.ReadResponse`).
- A directory whose path needs quotes, completed from an unquoted reference after an unclosed quote, is
  not read back: `Completion.OpenQuoteLosesDirectory` gives such a text, `Completion.DirectoryReadsBack`
  the exact condition.

## Model

| member | source | states |
|---|---|---|
| MainScreen.TuiMainScreen.DoRender | packages/tui/src/TuiMainScreen.ts:146-513 | after any render from a true belief, or from a lost one after a resize or reset, the terminal's rows are exactly the frame then blanks, the window is at the high-water mark, the cursor is on its marker or clamped to the window's first row, `cursorRow` is the end of the content, and belief and terminal agree and no move was clamped if and only if the frame was harmless; it clears and repaints, and counts a redraw, exactly when `FrameChanges.MustClear` says so from frames, switches and terminal; it stops and throws exactly when `FrameChanges.MustThrow` does, naming the first overlong line and leaving what it believes as it was; once stopped it does nothing |
| FrameChanges.RenderOutcome | packages/tui/src/TuiMainScreen.ts:146-513 | redraw count, high-water mark, window, remembered size, cursor place and visibility after any render, from frames, switches and terminal alone |
| FrameChanges.ClearsExactly | packages/tui/src/TuiMainScreen.ts:228-400 | a render clears if and only if the size changed, the frame shrank with clear-on-shrink on and no overlays, or a row above the window must be painted or become the last, or an image to be painted sticks out of the window |
| FrameChanges.OutOfReachExactly | packages/tui/src/TuiMainScreen.ts:297-400 | painting the changes is given up if and only if the two frames, the window's top and height make them unreachable |
| FrameChanges.TextUnreachable | packages/tui/src/TuiMainScreen.ts:297-352 | for frames of text: if and only if they differ above the window, or differ and the new one ends above it |
| FrameChanges.ThrowsExactly | packages/tui/src/TuiMainScreen.ts:385-440 | a render throws if and only if rows are painted one by one and one to be painted, with no image above it that sticks out, is too wide |
| FrameChanges.ChangedRangeIsExact | packages/tui/src/TuiMainScreen.ts:109-130 | the changed range runs from the first to the last row that must be painted: changed ones, the end of a longer frame, and all rows of image blocks that reach down to a changed row or below |
| MainScreen.TuiMainScreen.RenderFrame | packages/tui/src/TuiMainScreen.ts:228-513 | every path leaves the frame; a throw leaves terminal and belief untouched |
| MainScreen.TuiMainScreen.RenderDifference | packages/tui/src/TuiMainScreen.ts:260-513 | the same without a size change, clearing exactly when the change is out of reach, and throwing under the same condition with nothing of the frame written |
| MainScreen.TuiMainScreen.RenderDeletion | packages/tui/src/TuiMainScreen.ts:297-344 | when all changes are in lines that went away, they are erased in place, unless the new end lies above the window |
| MainScreen.TuiMainScreen.RenderReplaced | packages/tui/src/TuiMainScreen.ts:346-513 | when some change is in the new lines, everything is repainted exactly if it begins above the window or an image block is too tall |
| MainScreen.TuiMainScreen.RenderChanged | packages/tui/src/TuiMainScreen.ts:354-513 | repaints the changed range; throws exactly at the first overlong line ahead of any block that is too tall, and otherwise repaints everything exactly when there is such a block |
| MainScreen.TuiMainScreen.CommitChanged | packages/tui/src/TuiMainScreen.ts:497-513 | after repainting, the window and the new fields agree with the high-water mark |
| MainScreen.TuiMainScreen.RenderShorter | packages/tui/src/TuiMainScreen.ts:297-344 | erasing lines that went away leaves the shorter frame without scrolling |
| MainScreen.TuiMainScreen.RenderUnchanged | packages/tui/src/TuiMainScreen.ts:289-295 | a frame without changes needs only its cursor placed |
| MainScreen.TuiMainScreen.FullRender | packages/tui/src/TuiMainScreen.ts:176-217 | repainting leaves exactly the frame; clearing resets the high-water mark, a first render raises it |
| MainScreen.TuiMainScreen.Commit | packages/tui/src/TuiMainScreen.ts:506-512 | recording the frame and placing the cursor makes the belief true if and only if the frame was harmless |
| MainScreen.TuiMainScreen.ResetRenderState | packages/tui/src/TuiMainScreen.ts:57-65 | forgets everything but the image ids, which are still all those displayed |
| MainScreen.TuiMainScreen.Resize | packages/tui/src/TuiMainScreen.ts:236-249 | after a resize the next render clears and repaints, whatever its frame and whatever the terminal holds |
| MainScreen.TuiMainScreen.Stop | packages/tui/src/tui.ts:730-743 | rendering is stopped |
| MainScreen.TuiMainScreen.constructor | packages/tui/src/TuiMainScreen.ts:47-55 | the initial belief is true of a clean terminal with the cursor at home |
| Sessions.EveryRenderIsFaithful | packages/tui/src/TuiMainScreen.ts:146-513 | over every sequence of renders, forced renders and resizes each render leaves exactly its frame, with the window at the high-water mark, no clamped move, and the cursor where the renderer believes it |
| Sessions.Run | packages/tui/src/TuiMainScreen.ts:146-513 | running the renderer itself over any list of events whose promises hold yields such a session: it never throws, and every render is faithful |
| Sessions.PlainEventsAreSafe | packages/tui/src/TuiMainScreen.ts:251-258 | those promises hold for any renders with clear-on-shrink, no overlays, fitting lines and a marker found in the last lines, mixed with forced renders |
| Sessions.StepKeepsReady | packages/tui/src/TuiMainScreen.ts:146-513 | every step keeps the renderer's invariant |
| Sessions.RepaintUpToBlanks | packages/tui/src/TuiMainScreen.ts:176-217 | any render leaves the rows of clear-and-repaint, then only blank rows |
| Sessions.WindowFollowsFrame | packages/tui/src/TuiMainScreen.ts:251-258 | with clear-on-shrink and no overlays the window follows the length of the current frame |
| Sessions.SameAsRepaint | packages/tui/src/TuiMainScreen.ts:251-258 | then every render ends in the same scrollback, screen, window and visible cursor as clear-and-repaint |
| Sessions.ClearOnShrinkKeepsCursor | packages/tui/src/tui.ts:1149-1167 | then a marker found in the last lines is always in the window |
| Sessions.ShrinkingLosesCursor | packages/tui/src/tui.ts:1149-1167 | without clear-on-shrink a concrete frame has its marker above the window |
| Sessions.LostCursorMisses | packages/tui/src/TuiMainScreen.ts:520-545 | then the cursor is on the window's first row, below where it is believed, and a move to any row of the window but the last misses it |
| Sessions.RenderKnowsImages | packages/tui/src/TuiMainScreen.ts:506-512 | every render leaves the renderer knowing every image displayed, whether its belief is true or not |
| Sessions.ForcedRenderRecovers | packages/tui/src/TuiMainScreen.ts:57-65 | a forced render after any render, even one that lost the cursor, makes the next one repaint |
| Sessions.ImagesMatchFrame | packages/tui/src/TuiMainScreen.ts:132-144 | the image ids alive on a terminal that shows a frame are exactly those in its lines |
| Sessions.FirstTargetInWindow | packages/tui/src/TuiMainScreen.ts:356-371 | without empty-string lines the first target row lies in the window as it is |
| Rendering.Settles | packages/tui/src/TuiMainScreen.ts:497-513 | after painting and placing the cursor, belief and terminal agree if and only if the frame was harmless |
| Rendering.SettlesUnchanged | packages/tui/src/TuiMainScreen.ts:289-295 | the same without painting, even when empty lines disappeared from the end |
| Rendering.PaintingFollowsHighWater | packages/tui/src/TuiMainScreen.ts:503-504 | painting scrolls the window exactly to the new high-water mark |
| Rendering.ImagesKnown | packages/tui/src/TuiMainScreen.ts:176-182 | the ids deleted before clearing include every image displayed |
| Rendering.PaintChanged | packages/tui/src/TuiMainScreen.ts:354-461 | turns a terminal that shows the previous frame into one that shows the new frame, the cursor on its final row; gives up exactly when an image block would scroll |
| Rendering.Repaint | packages/tui/src/TuiMainScreen.ts:176-201 | from a clean terminal, or after clearing, the lines are printed exactly, with the window at the bottom |
| Rendering.PlaceCursor | packages/tui/src/TuiMainScreen.ts:520-551 | the cursor reaches the marker, or the window's first row when the marker is above it |
| Rendering.UnchangedFit | packages/tui/src/TuiMainScreen.ts:412-441 | checking the repainted lines suffices for all lines to fit |
| Painting.PrintAll | packages/tui/src/TuiMainScreen.ts:183-199 | prints every line and image block on its own row, scrolling what does not fit |
| Painting.PrintBlock | packages/tui/src/TuiMainScreen.ts:186-197 | feeding rows, going up, placing and going down puts an image block on its rows |
| Painting.Clear | packages/tui/src/TuiMainScreen.ts:179-182 | leaves a blank terminal without scrollback or images, the cursor at home |
| Painting.Seek | packages/tui/src/TuiMainScreen.ts:358-379 | reaches the target row, scrolling by exactly what lies below the window |
| Painting.StartPaint | packages/tui/src/TuiMainScreen.ts:356-381 | deletes the images of the changed rows and stands at the start of the first |
| Painting.PaintRows | packages/tui/src/TuiMainScreen.ts:385-442 | repaints the changed rows and leaves the others; stops exactly at the first overlong line or block that would scroll, whichever comes first |
| Painting.PaintBlock | packages/tui/src/TuiMainScreen.ts:401-409 | repaints an image block in place without scrolling |
| Painting.ClearBelow | packages/tui/src/TuiMainScreen.ts:444-461 | clears what a longer frame left below and returns to the end of the new content |
| Painting.EraseTail | packages/tui/src/TuiMainScreen.ts:300-331 | erases the rows of deleted lines and their images, and returns to the last line |
| Painting.EraseRows | packages/tui/src/TuiMainScreen.ts:324-327 | erases rows from the cursor down, ending on the last of them |
| Painting.MoveTo | packages/tui/src/TuiMainScreen.ts:309-311 | a relative move lands on its target in the window, and is clamped above it |
| Painting.DeletedRows | packages/tui/src/TuiMainScreen.ts:132-144 | deleting the ids of the changed rows leaves the images of all other rows |
| Painting.PrintPlaces | packages/tui/src/TuiMainScreen.ts:401-441 | writing a line on an erased row at column 0 puts exactly it there |
| KittyImages.NoBlockIsSplit | packages/tui/src/TuiMainScreen.ts:109-130 | for any rows that belong to an image by the lines alone, the blank rows below it within its height, in either frame: the changed range contains all of them or lies below |
| KittyImages.ReservedIsMaximal | packages/tui/src/TuiMainScreen.ts:95-107 | the reserved rows belong to the image, and one more would be past its height, the limit or the frame, or not blank |
| KittyImages.BlockRows | packages/tui/src/TuiMainScreen.ts:95-107 | the rows of an image's block are exactly those that belong to it |
| KittyImages.ChangedRangeFinds | packages/tui/src/TuiMainScreen.ts:260-286 | widening grows the range and stays in the frames; the frames agree outside it |
| KittyImages.ChangedRangeBounds | packages/tui/src/TuiMainScreen.ts:260-286 | no change means equal frames up to trailing empty lines; otherwise the range ends at the end of a longer new frame, or inside the old one |
| KittyImages.DiffRangeFinds | packages/tui/src/TuiMainScreen.ts:260-281 | nothing differs outside the range; it starts on a difference, or without any at the old end, and ends on one, or at the end of a longer frame |
| KittyImages.FindChangedRange | packages/tui/src/TuiMainScreen.ts:260-286 | the loops compute the changed range |
| KittyImages.ReservedRows | packages/tui/src/TuiMainScreen.ts:95-107 | rows an image reserves: itself and the blank rows below, up to its height and the limits |
| KittyImages.ExpandForLines | packages/tui/src/TuiMainScreen.ts:116-125 | one frame's blocks widen the range |
| KittyImages.CollectImageIds | packages/tui/src/TuiMainScreen.ts:77-85 | exactly the ids on the given rows |
| Agent.Agent.constructor | packages/agent/src/agent.ts:210-231 | a new agent is idle, with its transcript and empty queues |
| Agent.Agent.Prompt | packages/agent/src/agent.ts:336-347 | while a run is active it is refused and nothing changes; otherwise a completed run: state messages, returned messages, `agent_end` payload and transcript agree, the prompts first, and what the queues handed out is in the log |
| Agent.Agent.Continue | packages/agent/src/agent.ts:349-377 | busy if and only if a run is active, nothing to continue if and only if the transcript is empty, refused after an assistant message if and only if nothing is queued, each without any change; in all other cases it runs: on what the steering queue hands out, else on what the follow-up queue does, or on the transcript if it does not end with an assistant message |
| Agent.Agent.HasQueuedMessages | packages/agent/src/agent.ts:301-304 | true exactly when some message accepted by a queue was not handed out, which is what continuing after an assistant message needs |
| Agent.Agent.RunPromptMessages | packages/agent/src/agent.ts:398-412 | a run completes with its messages first, in one transcript shared by state, context, result and payload |
| Agent.Agent.RunContinuation | packages/agent/src/agent.ts:414-424 | the same for a run without messages of its own |
| Agent.Agent.RunLoop | packages/agent/src/agent-loop.ts:155-275 | every run ends with one `agent_end` after an accepted log, its context being the earlier transcript followed by the new messages |
| Agent.Agent.RunTurnsAndPoll | packages/agent/src/agent-loop.ts:170-268 | turns, then follow-ups are asked for with nothing left to answer |
| Agent.Agent.RunTurns | packages/agent/src/agent-loop.ts:174-260 | turns go on while results are left to answer or messages to inject, and stop only after steering gave nothing |
| Agent.Agent.RunTurnAndPoll | packages/agent/src/agent-loop.ts:192-259 | one turn, then the end of a failed or stopped run, or the question for steering messages |
| Agent.Agent.RunTurn | packages/agent/src/agent-loop.ts:181-224 | injects, asks, executes and closes the turn; context and new messages stay equal to the transcript |
| Agent.Agent.SettleCalls | packages/agent/src/agent-loop.ts:202-222 | without an abort the results are those of every call in order, and there is more to do if and only if there were calls and the reply was cut off or some call's tool, or the hook in its place, did not ask to terminate |
| Agent.Agent.ExecuteToolCalls | packages/agent/src/agent-loop.ts:408-426 | sequential, concurrent and truncated batches pair calls with results and yield the expected results; the batch terminates exactly when it has calls, was not cut off and every call asks to; calls run one by one, their updates in order, when that is configured or a tool demands it |
| Agent.Agent.ExecuteToolCallsSequential | packages/agent/src/agent-loop.ts:433-487 | without an abort the calls' own outcomes in order, all their updates in order, and termination exactly when all ask to; of a batch begun after an abort only the first call is executed |
| Agent.Agent.ExecuteToolCallsParallel | packages/agent/src/agent-loop.ts:489-554 | under every interleaving of updates and completions the same results and termination as one by one, and the same updates up to their order; of a batch begun after an abort only the first call is executed |
| Agent.Agent.RunBatch | packages/agent/src/agent-loop.ts:540-542 | any interleaving of the waiting calls settles each of them once, with its own outcome and all its updates |
| Agent.Agent.RunUpdates | packages/agent/src/agent-loop.ts:666-707 | a tool's updates are each sent once |
| ToolRuns.BatchTerminates | packages/agent/src/agent-loop.ts:582-584 | a batch terminates if and only if it has calls and every one of them reaches its tool and asks to: by the hook's word if it gives one, else by what the tool returned; refused, thrown or silent calls do not |
| ToolRuns.ResultOfCall | packages/agent/src/agent-loop.ts:709-790 | content, details, usage, tool names and error flag of a call's result, from what lookup, validation, hooks and the tool did |
| ToolRuns.ResultOfCutOffCall | packages/agent/src/agent-loop.ts:386-404 | the result of a call of a cut-off reply |
| Protocol.CallsInOrder | packages/agent/src/agent-loop.ts:203-203 | the calls of a message are its call blocks, all of them and in order |
| Agent.Agent.FailToolCallsFromTruncatedMessage | packages/agent/src/agent-loop.ts:381-406 | every call of a cut-off reply fails without running, and the run goes on |
| Agent.Agent.PrepareToolCall | packages/agent/src/agent-loop.ts:600-664 | without an abort a call is refused exactly when its tool is unknown, its arguments are invalid, or a hook throws or blocks; once aborted a call that passes lookup, validation and an undisturbed hook fails as aborted |
| Agent.Agent.StreamAssistantResponse | packages/agent/src/agent-loop.ts:281-372 | the request sees the whole transcript; the context becomes what the stream makes of it, which is itself with exactly the final message added |
| Agent.Agent.InjectPending | packages/agent/src/agent-loop.ts:181-190 | every pending message enters transcript, context and new messages once and in order |
| Agent.Agent.PollSteering | packages/agent/src/agent.ts:460-466 | what the steering queue hands out is owed to the transcript |
| Agent.Agent.PollFollowUps | packages/agent/src/agent.ts:467-467 | the same for follow-ups |
| Agent.Agent.AfterTurn | packages/agent/src/agent-loop.ts:232-257 | the run ends with its transcript if and only if the hook asks to stop |
| Agent.Agent.EndTurn | packages/agent/src/agent-loop.ts:224-224 | the turn closes only with its calls paired and none running |
| Agent.Agent.EmitAgentEnd | packages/agent/src/agent-loop.ts:274-274 | the last entry of the log, carrying the transcript |
| Agent.Agent.Emit | packages/agent/src/agent.ts:529-576 | only allowed events are emitted, and the state mirrors the run after each |
| Agent.Agent.ProcessEvents | packages/agent/src/agent.ts:529-567 | updates the fields as the reducer says |
| Agent.Agent.OpenRun | packages/agent/src/agent-loop.ts:95-114 | opens the run and puts its messages first |
| Agent.Agent.FinishRun | packages/agent/src/agent.ts:514-520 | the agent is idle and keeps its transcript |
| RunFacts.AgentEndClosesRun | packages/agent/src/agent-loop.ts:155-275 | `agent_end` comes once and last and carries the `message_end` sequence; turns and messages are closed and nothing taken over is lost |
| RunFacts.AgentEndHasReason | packages/agent/src/agent-loop.ts:196-274 | a run ends only after a failed reply, on a hook's request, or when no results are left and both queues gave nothing |
| RunFacts.TurnStartHasReason | packages/agent/src/agent-loop.ts:174-270 | a turn starts only for the run's beginning, results to answer, steering messages or follow-ups |
| RunFacts.FollowUpsComeLast | packages/agent/src/agent-loop.ts:262-268 | follow-ups are taken only where the run would otherwise end |
| RunFacts.RunStartsWithItsMessages | packages/agent/src/agent-loop.ts:95-114 | a finished run added the messages it began with first |
| RunFacts.SteeringRunPollsLater | packages/agent/src/agent.ts:434-466 | a run begun with drained steering messages takes no more before its first request |
| RunFacts.RequestFollowsPoll | packages/agent/src/agent-loop.ts:167-193 | before every request the steering queue was asked since the one before, except before the first of a run that began with messages from it |
| RunFacts.FailureEndsRun | packages/agent/src/agent-loop.ts:196-200 | after a turn whose reply stopped with an error or an abort there are no results and only the end of the run; after any other the run never ends at once |
| RunFacts.UpdatesAreLogged | packages/agent/src/agent-loop.ts:679-692 | the updates counted are the update events of the log, in order |
| RunFacts.RequestsSeeEverythingTaken | packages/agent/src/agent-loop.ts:181-193 | every request sees the earlier transcript and all messages so far, with everything taken over injected once and in order |
| RunFacts.TurnsAndMessagesAlternate | packages/agent/src/agent-loop.ts:170-275 | turns alternate and messages do not overlap, at every point |
| RunFacts.TakenIsRecorded | packages/agent/src/agent.ts:460-467 | what each queue handed out is in the log in order |
| RunFacts.RunningIsStartedMinusEnded | packages/agent/src/agent-loop.ts:666-707 | the running calls are those started and not ended, per id |
| RunFacts.UpdatesComeWhileRunning | packages/agent/src/agent-loop.ts:666-707 | an update lies strictly between start and end of its call |
| RunFacts.CallsEndWithTheirTurn | packages/agent/src/agent-loop.ts:202-224 | by the end of the turn every started call has ended exactly once |
| RunFacts.TurnsPairCallsWithResults | packages/agent/src/agent-loop.ts:202-224 | a turn ends with its reply followed by results for a prefix of its calls in source order: all unless aborted, at least one if there are any |
| RunFacts.AcceptedLogAgrees | packages/agent/src/agent-loop.ts:155-275 | the invariants of every prefix of a run |
| MessageQueue.PendingMessageQueue.Drain | packages/agent/src/agent.ts:139-152 | hands out everything, or one message, from the front; handed out and still queued together stay what was enqueued, in order |
| MessageQueue.PendingMessageQueue.Enqueue | packages/agent/src/agent.ts:131-133 | adds at the end |
| MessageQueue.PendingMessageQueue.Clear | packages/agent/src/agent.ts:154-156 | drops what is queued, not what was handed out |
| MessageQueue.PendingMessageQueue.HasItems | packages/agent/src/agent.ts:135-137 | true exactly when something enqueued was neither handed out nor cleared, so that the next drain gives something in either mode |
| ToolBatches.FinalsComplete | packages/agent/src/agent-loop.ts:543-553 | outcomes in source order are paired with the calls, and complete without an abort |
| ToolBatches.BatchEnds | packages/agent/src/agent-loop.ts:522-534 | a concurrent call that ends leaves the others running |
| ToolRuns.TruncatedGoesOn | packages/agent/src/agent-loop.ts:393-405 | a batch that was cut off never terminates the run |
| Streaming.ReplyIsAddedOnce | packages/agent/src/agent-loop.ts:314-371 | the context gains exactly the final message if and only if the stream starts at most once |
| Reducer.StateMirrorsRun | packages/agent/src/agent.ts:529-567 | at every point the state shows the transcript, the streaming message and the running calls |
| Reducer.StateShowsLastError | packages/agent/src/agent.ts:558-562 | the state's error is that of the last turn that ended with one |
| Reducer.PendingExactUnlessOverlap | packages/agent/src/agent.ts:544-556 | over a whole run the pending set is at every point the calls started more often than ended if and only if no call starts while one with the same id is running |
| Reducer.DistinctIdsArePending | packages/agent/src/agent.ts:544-556 | with distinct ids in each reply the pending set is at every point exactly the calls started more often than ended |
| Reducer.DistinctIdsNeverRepeat | packages/agent/src/agent-loop.ts:433-538 | with distinct ids in each reply no id runs twice at a time |
| Reducer.OverlapHides | packages/agent/src/agent.ts:544-556 | once two calls with one id have overlapped, the set is wrong at some point of the run |
| Reducer.RepeatedIdHidesRunningCall | packages/agent/src/agent.ts:544-556 | whenever two calls of a reply share an id, starting all calls and ending one of the two leaves the set without a running call, in any run that came so far |
| LineFraming.ReadLines | packages/agent/src/proxy.ts:181-207 | for every cutting into chunks the lines handed on are the stream's terminated lines in order, and the buffer is the rest |
| LineFraming.CutChunk | packages/agent/src/proxy.ts:191-193 | a chunk adds the lines it completes |
| LineFraming.SplitContinues | packages/agent/src/proxy.ts:191-193 | splitting a longer text keeps all pieces but the last and goes on from it |
| LineFraming.SplitReadsLines | packages/agent/src/proxy.ts:192-192 | the pieces hold no newline and joined give the text back |
| LineFraming.SplitOfJoined | packages/agent/src/proxy.ts:192-192 | and they are the only such pieces |
| ProxyRebuild.PartialMessage.ProcessProxyEvent | packages/agent/src/proxy.ts:238-367 | one event's effect on the message; a throw leaves it unchanged |
| ProxyRebuild.BlocksAreIndependent | packages/agent/src/proxy.ts:238-367 | under any interleaving rebuilding succeeds exactly when no block is broken by its own events, and each block is what those make of it |
| ProxyRebuild.DeltasAccumulate | packages/agent/src/proxy.ts:250-331 | a block holds the concatenation of its deltas so far, and a call the parse of it |
| ProxyRebuild.EncodedBlockIsRebuilt | packages/agent/src/proxy.ts:245-348 | a block sent in any pieces is rebuilt |
| ProxyRebuild.StrippedMessageIsRebuilt | packages/agent/src/proxy.ts:238-367 | the rebuilt content is the content the server stripped |
| ProxyRebuild.WholeMessageIsRebuilt | packages/agent/src/proxy.ts:238-367 | with the closing event the whole message is |
| ProxyRebuild.FailureIsReported | packages/agent/src/proxy.ts:355-359 | a failure is reported with its reason, message and usage, and with the content built before it |
| ProxyRebuild.LastClosingCounts | packages/agent/src/proxy.ts:350-359 | stop reason and usage are those of the last closing event, the error that of the last failure |
| ProxyRebuild.PendingUntilClosed | packages/agent/src/proxy.ts:121-137 | without one the message is pending |
| ProxyRebuild.BrokenExactly | packages/agent/src/proxy.ts:245-348 | a block's events throw if and only if some delta or end does not fit the kind of block started last; an end of a call never throws |
| ProxyRebuild.EveryPrefixIsRebuilt | packages/agent/src/proxy.ts:238-367 | at every point of such a stream each block holds what has arrived of it and no other slot is filled |
| ProxyRebuild.CallFollowsDeltas | packages/agent/src/proxy.ts:310-348 | any deltas and ends after the start of a call: its partial JSON and arguments in closed form |
| ProxyRebuild.ParsedIsAllDeltas | packages/agent/src/proxy.ts:320-348 | the text parsed last is all deltas put together if and only if no delta follows an end, or the deltas before the last such end spell the word undefined |
| ProxyRebuild.CallInMessage | packages/agent/src/proxy.ts:310-348 | the same for a call in a message, under any interleaving: without late deltas its arguments are the parse of all of them |
| ProxyRebuild.DeltaAfterCallEnd | packages/agent/src/proxy.ts:320-348 | after any course of a call a delta right after an end is appended to the word undefined, and that is parsed |
| ProxyStream.ReadResponse | packages/agent/src/proxy.ts:181-218 | the final message depends on the complete lines alone, not on the chunks; after a throw it is what was built before, with stop reason error and the error's message |
| ProxyStream.ResponseReportsFailure | packages/agent/src/proxy.ts:181-207 | a response that ends in a failure, in any chunks, ends in that failure with the content built before it |
| ProxyStream.LineThrows | packages/agent/src/proxy.ts:195-206 | a line whose data does not decode, or whose event does not apply, throws; the message is what the lines before it built, and later lines do not count |
| ProxyStream.DataOfLine | packages/agent/src/proxy.ts:196-198 | a data line carries its trimmed payload unless that is blank; other lines carry nothing |
| Texts.TrimStrips | packages/agent/src/proxy.ts:197-197 | trimming takes white space from both ends, and all of it |
| ProxyStream.LinesRebuild | packages/agent/src/proxy.ts:195-206 | handling the lines is rebuilding from the events in their data |
| ProxyStream.ResponseCarriesMessage | packages/agent/src/proxy.ts:181-207 | a response that carries a message in any chunks and interleaving ends in that message |
| Ranks.RankArray | packages/trading-agent/scripts/validate-signal.ts:73-85 | whatever order the sort leaves ties in, each element gets the number of smaller ones plus half of the number of equal ones plus one |
| Ranks.GroupRank | packages/trading-agent/scripts/validate-signal.ts:77-83 | the average place of a group of ties is that rank |
| Ranks.RanksOrder | packages/trading-agent/scripts/validate-signal.ts:72-85 | ranks are ordered and tied exactly as the values |
| Ranks.RanksAddUp | packages/trading-agent/scripts/validate-signal.ts:72-85 | ranks add up to n(n+1)/2, ties or not |
| Ranks.RanksDependOnOrder | packages/trading-agent/scripts/validate-signal.ts:72-85 | two inputs have the same ranks if and only if they are ordered alike |
| Spearman.SpearmanRankIC | packages/trading-agent/scripts/validate-signal.ts:46-70 | no number if and only if there are fewer than five elements; otherwise the quotient of the rank products' sums, each less n(n+1)(n+1)/4 |
| Spearman.CorrelationOfRanks | packages/trading-agent/scripts/validate-signal.ts:54-67 | the same of the specification: subtracting the mean ranks is subtracting that baseline from the sums |
| Spearman.CorrelationIsBounded | packages/trading-agent/scripts/validate-signal.ts:58-69 | the quotient by the root lies between -1 and 1 |
| Spearman.CauchySchwarz | packages/trading-agent/scripts/validate-signal.ts:58-67 | the square of the numerator is at most the product of the two sums of squares |
| Spearman.CorrelationIsSymmetric | packages/trading-agent/scripts/validate-signal.ts:46-70 | swapping the inputs changes nothing |
| Spearman.CorrelationDependsOnOrder | packages/trading-agent/scripts/validate-signal.ts:46-70 | no strictly increasing transformation of either input changes it |
| Spearman.SameOrderIsPerfect | packages/trading-agent/scripts/validate-signal.ts:46-70 | inputs ordered alike have correlation 1 |
| Spearman.NoSpreadIffConstant | packages/trading-agent/scripts/validate-signal.ts:68-69 | the special case 0 occurs exactly when an input is constant |
| Completion.FindLastDelimiter | packages/tui/src/autocomplete.ts:45-52 | the last delimiter, or -1 |
| Completion.FindUnclosedQuoteStart | packages/tui/src/autocomplete.ts:54-68 | the last quote, exactly when the quotes are unbalanced |
| Completion.ExtractsReferences | packages/tui/src/autocomplete.ts:463-477 | exactly which ends of a text are extracted: at a token start, a quoted reference after balanced text, or one without delimiters outside any quoted reference |
| Completion.ExtractedForm | packages/tui/src/autocomplete.ts:463-477 | only references of these two forms are extracted |
| Completion.AcceptDirectory | packages/tui/src/autocomplete.ts:407-425 | what stands on both sides of the cursor after a directory is accepted |
| Completion.DirectoryReadsBack | packages/tui/src/autocomplete.ts:375-425 | the accepted directory is read back as exactly its path if and only if it has no quote and the text before is balanced, when quoted, or no delimiter, when not |
| Completion.OpenQuoteLosesDirectory | packages/tui/src/autocomplete.ts:375-425 | a text with an unclosed quote, a reference extracted after it, and a directory that is not read back |
| Completion.DrillingDown | packages/tui/src/autocomplete.ts:375-425 | completing a directory and then a path below it is completing that path at once |
| Completion.DescentIsOneStep | packages/tui/src/autocomplete.ts:375-425 | so is any descent through directories: neither quotes nor text pile up |
| Completion.FileEndsReference | packages/tui/src/autocomplete.ts:407-425 | after a completed file nothing is being completed at the cursor |
| Completion.AcceptCommand | packages/tui/src/autocomplete.ts:393-405 | a command name at the start of a line takes the prefix's place with a slash before and a space after it, the cursor behind them |
| Completion.AcceptPlainPath | packages/tui/src/autocomplete.ts:427-459 | any other item takes the prefix's place, the cursor behind it or before the closing quote of a directory, and takes a following quote only if prefix and item are quoted |
| Completion.OutsideIsKept | packages/tui/src/autocomplete.ts:375-460 | every completion keeps the text around the prefix, but for one quote the item brings itself, and all other lines |
| Headers.MergeHeaders | packages/ai/src/models.ts:202-216 | the nested loops put every override over the entries of its field |
| Headers.DeleteField | packages/ai/src/models.ts:210-212 | deletes exactly the spellings of one field |
| Headers.MergeIsUnion | packages/ai/src/models.ts:202-216 | merging is the right-biased union of case-insensitive fields (section 5.1 of RFC 9110), with the override's spelling |
| Headers.MergeCounts | packages/ai/src/models.ts:208-214 | an overridden field has one spelling afterwards, any other as many as before |
| Headers.MergeInOrder | packages/ai/src/models.ts:207-215 | an override without collisions follows, in its order, the base's entries it leaves, in theirs |
| Headers.MergeCollisions | packages/ai/src/models.ts:202-216 | the result is free of case collisions if and only if the override covers those of the base |
| Headers.MergeIsAssociative | packages/ai/src/models.ts:202-216 | merging is associative, down to order and spelling |
| Headers.RequestHeadersLayer | packages/ai/src/models.ts:421-479 | a request's headers are authentication, model and request layered field by field, in either grouping |
| Catalog.Provider.CurrentModels | packages/ai/src/models.ts:561-569 | the loop computes the overlay of the current fetched models |
| Catalog.Provider.RefreshModels | packages/ai/src/models.ts:597-614 | which models are current, stored and lost in every outcome of a refresh |
| Catalog.OfProviderInOrder | packages/ai/src/models.ts:602-604 | of the stored models exactly those of the provider are restored, in order |
| Catalog.OverlayIds | packages/ai/src/models.ts:561-569 | baseline positions are kept and new ids follow in first-seen order |
| Catalog.OverlayPlaces | packages/ai/src/models.ts:561-569 | each place holds the last fetched model of its id, or the baseline's |
| Catalog.OverlayLookup | packages/ai/src/models.ts:561-569 | looking up an id gives the last fetched model of it, else the baseline's, else nothing |
| Catalog.OverlayUnique | packages/ai/src/models.ts:561-569 | ids are unique if and only if the baseline's are |
| Catalog.OverlayTwice | packages/ai/src/models.ts:561-569 | overlaying again changes nothing |

## Left out

Renderer:

- The bytes written: synchronized-output markers, escape encoding, debug and crash logs.
- Characters: a line is its bytes and the cells they draw; wrapping of overlong text only turns `exact` false.
- Rendering of components, overlays, line resets and the search for the cursor marker; their results are inputs.
- The Termux height exception, and starting again after a stop.
- MainScreen.TuiMainScreen.Stop: says nothing about the terminal, because what is written on the way out (`beforeTerminalStop`, mode switches) is not modelled; so neither does the throw of `DoRender`.
- A resize and its undoing between two renders, which the renderer cannot notice.
- Image protocols without ids, whose images cannot be deleted; images share no id within a frame.
- MainScreen.TuiMainScreen.DoRender: promises that belief and terminal agree only for frames that fit and whose cursor is in the window, because without clear-on-shrink the code does not keep them in step otherwise.

Agent:

- Exceptions of hooks and listeners outside tool execution and the failure messages made from them, and `reset`.
- Replacing the context or the model between turns, context transforms, conversion to provider messages, API keys.
- `agentLoopContinue` on a caller's own array, which the loop extends in place, and the stream wrappers of the loop.
- Timestamps, and what listeners do beyond queueing, clearing, changing modes and aborting.
- Agent.Agent.StreamAssistantResponse: assumes a provider that starts its message at most once, because with more starts the context is not extended by one message (`Streaming.ReplyIsAddedOnce`).
- Agent.Agent.ExecuteToolCallsSequential: says nothing about the contents of results after an abort, because whether a hook or tool saw the signal is open; pairing and order still hold.
- Agent.Agent.ExecuteToolCallsParallel: the same after an abort.

Proxy:

- The request, HTTP errors, aborts, UTF-8 decoding, and the events pushed to the consumer; JSON parsing is a parameter.

Ranks:

- Floating-point rounding and NaN inputs; the square root is kept as the square of the denominator, and the library's sort as any ordering that leaves ties open.

Completion, headers, models:

- File search, suggestions and their order, plain paths and slash commands beyond accepting an item.
- Text is a sequence of characters, not of UTF-16 units.
- Property names that look like array indexes, which objects enumerate first; lower-casing is a parameter.
- Catalog.Provider.RefreshModels: concurrent refreshes share one promise, which is not modelled, nor are failures of the store.

Not modelled at all: the alternate-screen renderer, providers and their wire formats, authentication, the command line, and the other packages.
