/** Whole runs of the renderer: renders, forced renders and resizes in any order. */
module Sessions {
  import opened Options
  import opened Terminal
  import opened KittyImages
  import opened Painting
  import opened Rendering
  import opened MainScreen

  datatype State = State(belief: Belief, screen: Screen)

  datatype Event =
    | Draw(frame: Frame)
    | Force
    | Resize(screen: Screen)   // how the terminal reflowed is arbitrary

  /** One call of the renderer, or one resize of the terminal below it. */
  ghost predicate Step(p: State, e: Event, q: State) {
    match e
    case Draw(f) => Rendered(p.belief, p.screen, f, q.belief, q.screen)
    case Force => q == State(Forgotten(p.belief), p.screen)
    case Resize(screen) => q == State(p.belief, screen)
  }

  /** What the surroundings promise: distinct image ids, lines that fit, a cursor inside the
      resulting window; and a resized terminal has a new size and only known images. */
  ghost predicate Admissible(p: State, e: Event) {
    match e
    case Draw(f) =>
      && DistinctIds(f.lines) && Fits(f.lines, p.screen.columns)
      && CursorInWindow(f, NextTop(p.belief, p.screen, f))
    case Force => true
    case Resize(screen) => SizeChanged(p.belief, screen) && screen.exact && Repaintable(screen, p.belief.imageIds, true)
  }

  ghost predicate Session(states: seq<State>, events: seq<Event>) {
    && |states| == |events| + 1
    && forall i :: 0 <= i < |events| ==> Admissible(states[i], events[i]) && Step(states[i], events[i], states[i + 1])
  }

  /** After a render the terminal shows exactly the frame, scrollback included, the window is at
      the high-water mark, no move was clamped, and the renderer knows where the cursor is. */
  ghost predicate Faithful(f: Frame, q: State) {
    && InSync(q.belief, q.screen)
    && Shows(q.screen, f.lines)
    && q.screen.top == WindowTop(q.belief.maxLines, q.screen.height)
    && |q.belief.lines| <= q.belief.maxLines
    && q.screen.exact
    && q.screen.At() == q.belief.hardwareRow
  }

  lemma StepKeepsReady(p: State, e: Event, q: State)
    requires Ready(p.belief, p.screen) && Admissible(p, e) && Step(p, e, q)
    ensures Ready(q.belief, q.screen)
    ensures e.Draw? ==> Faithful(e.frame, q)
  {
    if e.Force? {
      ImagesKnown(p.belief, p.screen);
    }
  }

  /** Differential rendering refines repainting over every run. */
  lemma {:induction false} EveryRenderIsFaithful(states: seq<State>, events: seq<Event>, i: nat)
    requires Session(states, events) && Ready(states[0].belief, states[0].screen)
    requires i <= |events|
    ensures Ready(states[i].belief, states[i].screen)
    ensures i > 0 && events[i - 1].Draw? ==> Faithful(events[i - 1].frame, states[i])
  {
    if i > 0 {
      EveryRenderIsFaithful(states, events, i - 1);
      StepKeepsReady(states[i - 1], events[i - 1], states[i]);
    }
  }

  /** Any render leaves the rows a clear-and-repaint leaves, then blank rows. */
  lemma RepaintUpToBlanks(b: Belief, s: Screen, f: Frame, q: Belief, r: Screen, q': Belief, r': Screen, redraws: nat)
    requires Rendered(b, s, f, q, r)
    requires Leaves(s, f, q', r', |f.lines|, redraws)
    ensures |r'.rows| <= |r.rows|
    ensures forall k :: 0 <= k < |r'.rows| ==> r.rows[k] == r'.rows[k]
    ensures forall k :: |r'.rows| <= k < |r.rows| ==> r.rows[k] == BlankRow
  {
  }

  /** With clear-on-shrink and no overlays the window follows the frame's own length. */
  lemma WindowFollowsFrame(b: Belief, s: Screen, f: Frame)
    requires Ready(b, s) && f.clearOnShrink && !f.overlays
    ensures NextTop(b, s, f) == WindowTop(|f.lines|, s.height)
  {
  }

  /** Then every render, incremental or not, ends in the terminal of a clear-and-repaint. */
  lemma SameAsRepaint(b: Belief, s: Screen, f: Frame, q: Belief, r: Screen, q': Belief, r': Screen, redraws: nat)
    requires Ready(b, s) && f.clearOnShrink && !f.overlays
    requires Rendered(b, s, f, q, r)
    requires Leaves(s, f, q', r', |f.lines|, redraws)
    ensures r.rows == r'.rows && r.top == r'.top && r.visible == r'.visible && r.exact == r'.exact
    ensures PlacesCursor(f) && MarkerInTail(f, s.height) ==> r.row == r'.row && r.col == r'.col
  {
    WindowFollowsFrame(b, s, f);
    assert r.rows == r'.rows;
  }

  /** Then, too, a marker found by scanning the last `height` lines is always in the window,
      so no render can lose the cursor. */
  lemma ClearOnShrinkKeepsCursor(b: Belief, s: Screen, f: Frame)
    requires Ready(b, s) && f.clearOnShrink && !f.overlays && MarkerInTail(f, s.height)
    ensures CursorInWindow(f, NextTop(b, s, f))
  {
    WindowFollowsFrame(b, s, f);
  }

  /** The image ids alive on the terminal. */
  ghost function AliveIds(s: Screen): set<nat> {
    set k, id | 0 <= k < |s.rows| && id in s.rows[k].images :: id
  }

  /** A terminal that shows a frame holds that frame's images and no others. */
  lemma ImagesMatchFrame(s: Screen, lines: seq<Line>)
    requires Shows(s, lines)
    ensures AliveIds(s) == AllIds(lines)
  {
    forall k | 0 <= k < |lines| ensures s.rows[k].images == Ids(lines[k]) {
      assert s.rows[k] == Shown(LineAt(lines, k));
    }
    forall id | id in AliveIds(s) ensures id in AllIds(lines) {
      var k :| 0 <= k < |s.rows| && id in s.rows[k].images;
      assert s.rows[k] == Shown(LineAt(lines, k));
    }
  }

  /** The first row painting goes to lies in the window as it is, so painting scrolls only by
      line feeds between painted rows: line resets leave no line of a frame empty. */
  lemma FirstTargetInWindow(b: Belief, s: Screen, next: seq<Line>)
    requires InSync(b, s) && b.lines != []
    requires forall k :: 0 <= k < |next| ==> next[k] != EmptyLine
    requires b.viewportTop <= ChangedRange(b.lines, next).first
    ensures s.top <= TargetRow(b.lines, next, ChangedRange(b.lines, next)) < s.top + s.height
  {
    ChangedRangeFinds(b.lines, next);
    DiffRangeFinds(b.lines, next);
    assert |next| > |b.lines| ==> LineAt(next, |b.lines|) != LineAt(b.lines, |b.lines|);
  }

  // A lost cursor

  /** Every render leaves the renderer knowing every image, whether its belief is true or not. */
  lemma RenderKnowsImages(b: Belief, s: Screen, f: Frame, q: Belief, r: Screen)
    requires Rendered(b, s, f, q, r)
    ensures Repaintable(r, q.imageIds, true)
  {
    forall k | 0 <= k < |r.rows| ensures r.rows[k].images <= q.imageIds {
      assert r.rows[k] == Shown(LineAt(q.lines, k));
      if k < |q.lines| {
        assert forall id :: id in Ids(q.lines[k]) ==> id in AllIds(q.lines);
      }
    }
  }

  /** So a forced render after any render, even one that lost the cursor, starts again from a state
      that the next render repaints from: moves are exact from there on. */
  lemma ForcedRenderRecovers(b: Belief, s: Screen, f: Frame, q: Belief, r: Screen)
    requires Rendered(b, s, f, q, r)
    ensures Lost(Forgotten(q), r.(exact := true))
  {
    RenderKnowsImages(b, s, f, q, r);
  }

  /** Until then the cursor stands on the first row of the window, below where the renderer believes
      it, and a move to any row of the window but the last one misses it. */
  lemma LostCursorMisses(b: Belief, s: Screen, f: Frame, q: Belief, r: Screen, target: nat)
    requires Rendered(b, s, f, q, r) && PlacesCursor(f) && !CursorInWindow(f, r.top)
    requires r.top <= target < r.top + r.height
    ensures r.row == 0 && q.hardwareRow < r.At()
    ensures Down(r, target - q.hardwareRow).At() == Min(target + (r.At() - q.hardwareRow), r.top + r.height - 1)
    ensures Down(r, target - q.hardwareRow).At() == target <==> target == r.top + r.height - 1
  {
  }

  // The renderer over a list of events

  /** Whatever the renderer does with the events, the surroundings keep their promises. */
  ghost predicate Safe(p: State, events: seq<Event>)
    decreases |events|
  {
    events == [] ||
    (Admissible(p, events[0]) && forall q :: Step(p, events[0], q) ==> Safe(q, events[1..]))
  }

  /** Runs the renderer; every render is faithful. */
  method Run(tui: TuiMainScreen, events: seq<Event>) returns (ghost states: seq<State>)
    requires !tui.stopped && tui.TracksEnd() && Ready(tui.View(), tui.terminal)
    requires Safe(State(tui.View(), tui.terminal), events)
    modifies tui
    ensures !tui.stopped && tui.TracksEnd() && Ready(tui.View(), tui.terminal)
    ensures Session(states, events)
    ensures states[0] == old(State(tui.View(), tui.terminal)) && states[|events|] == State(tui.View(), tui.terminal)
    ensures forall i :: 0 <= i < |events| && events[i].Draw? ==> Faithful(events[i].frame, states[i + 1])
  {
    states := [State(tui.View(), tui.terminal)];
    for i := 0 to |events|
      invariant !tui.stopped && tui.TracksEnd() && Ready(tui.View(), tui.terminal)
      invariant |states| == i + 1 && states[0] == old(State(tui.View(), tui.terminal))
      invariant states[i] == State(tui.View(), tui.terminal) && Safe(states[i], events[i..])
      invariant Session(states, events[..i])
      invariant forall k :: 0 <= k < i && events[k].Draw? ==> Faithful(events[k].frame, states[k + 1])
    {
      ghost var p := states[i];
      assert events[i..][0] == events[i] && events[i..][1..] == events[i + 1..];
      RunEvent(tui, events[i]);
      ghost var q := State(tui.View(), tui.terminal);
      StepKeepsReady(p, events[i], q);
      SessionMore(states, events, i, q);
      states := states + [q];
    }
    assert events[..|events|] == events;
  }

  lemma SessionMore(states: seq<State>, events: seq<Event>, i: nat, q: State)
    requires i < |events| && |states| == i + 1 && Session(states, events[..i])
    requires Admissible(states[i], events[i]) && Step(states[i], events[i], q)
    ensures Session(states + [q], events[..i + 1])
  {
  }

  method RunEvent(tui: TuiMainScreen, event: Event)
    requires !tui.stopped && tui.TracksEnd() && Ready(tui.View(), tui.terminal)
    requires Admissible(State(tui.View(), tui.terminal), event)
    modifies tui
    ensures !tui.stopped && tui.TracksEnd()
    ensures Step(old(State(tui.View(), tui.terminal)), event, State(tui.View(), tui.terminal))
  {
    match event {
      case Draw(frame) =>
        var thrown := tui.DoRender(frame);
      case Force =>
        tui.ResetRenderState();
      case Resize(screen) =>
        tui.Resize(screen);
    }
  }

  /** A frame that needs no promise about the window: clear-on-shrink is on, there are no overlays,
      and the marker was found in the last lines. */
  ghost predicate Plain(e: Event, columns: nat, height: nat) {
    match e
    case Draw(f) =>
      && f.clearOnShrink && !f.overlays && MarkerInTail(f, height)
      && DistinctIds(f.lines) && Fits(f.lines, columns)
    case Force => true
    case Resize(_) => false
  }

  /** On a terminal that keeps its size, renders of such frames and forced renders are safe in any
      order. */
  lemma {:induction false} PlainEventsAreSafe(p: State, events: seq<Event>)
    requires Ready(p.belief, p.screen)
    requires forall k :: 0 <= k < |events| ==> Plain(events[k], p.screen.columns, p.screen.height)
    ensures Safe(p, events)
    decreases |events|
  {
    if events != [] {
      var e := events[0];
      if e.Draw? { ClearOnShrinkKeepsCursor(p.belief, p.screen, e.frame); }
      forall q | Step(p, e, q) ensures Safe(q, events[1..]) {
        StepKeepsReady(p, e, q);
        PlainEventsAreSafe(q, events[1..]);
      }
    }
  }

  function Letter(c: char): Line { Text([c], [Cell(c, 0)]) }

  /** Without clear-on-shrink the scan is not enough: five lines shrink to four on a terminal of
      three rows, the window stays two rows down, and a cursor on line 1 is above it. */
  lemma ShrinkingLosesCursor()
    ensures exists b, s, f ::
              && InSync(b, s) && MarkerInTail(f, s.height) && Fits(f.lines, s.columns) && DistinctIds(f.lines)
              && !f.overlays && !CursorInWindow(f, NextTop(b, s, f))
  {
    var lines := [Letter('a'), Letter('b'), Letter('c'), Letter('d'), Letter('e')];
    var rows := seq(5, k requires 0 <= k < 5 => Shown(lines[k]));
    var s: Screen := Terminal(80, 3, rows, 2, 2, 0, true, true);
    var b := Belief(lines, {}, 80, 3, 4, 5, 2, 1);
    var f := Frame(lines[..4], Some(Pos(1, 0)), false, false, true);
    assert InSync(b, s);
    ChangedRangeFinds(lines, f.lines);
    DiffRangeFinds(lines, f.lines);
    assert LineAt(lines, 4) != LineAt(f.lines, 4);
    assert ChangedRange(lines, f.lines).first == 4;
    assert !NeedsClear(b, s, f);
    assert NextTop(b, s, f) == 2;
    assert !CursorInWindow(f, NextTop(b, s, f));
  }
}
