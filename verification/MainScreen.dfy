/** The renderer that draws into the terminal's main screen and scrollback. */
module MainScreen {
  import opened Options
  import opened Terminal
  import opened KittyImages
  import opened Painting
  import opened Rendering
  import opened FrameChanges

  class TuiMainScreen {
    var terminal: Screen

    var previousLines: seq<Line>
    var previousKittyImageIds: set<nat>
    var previousWidth: int
    var previousHeight: int
    var cursorRow: nat
    var hardwareCursorRow: nat
    var maxLinesRendered: nat
    var previousViewportTop: nat
    var fullRedrawCount: nat
    var stopped: bool

    ghost function View(): Belief
      reads this
    {
      Belief(previousLines, previousKittyImageIds, previousWidth, previousHeight,
             hardwareCursorRow, maxLinesRendered, previousViewportTop, fullRedrawCount)
    }

    /** `cursorRow` is the end of the content. */
    predicate TracksEnd()
      reads this
    {
      cursorRow == Max(0, |previousLines| - 1)
    }

    /** The first render finds a clean screen with the cursor at home. */
    constructor (screen: Screen)
      requires screen.exact && screen.row == 0 && screen.col == 0 && screen.top == 0
      requires forall k :: 0 <= k < |screen.rows| ==> screen.rows[k] == BlankRow
      ensures terminal == screen && View() == InitialBelief && InSync(View(), terminal) && TracksEnd() && !stopped
    {
      terminal := screen;
      previousLines, previousKittyImageIds := [], {};
      previousWidth, previousHeight := 0, 0;
      cursorRow, hardwareCursorRow, maxLinesRendered, previousViewportTop, fullRedrawCount := 0, 0, 0, 0, 0;
      stopped := false;
    }

    /** A forced render: the next one repaints whatever the terminal shows. */
    method ResetRenderState()
      requires Ready(View(), terminal)
      modifies this
      ensures terminal == old(terminal) && View() == Forgotten(old(View())) && Lost(View(), terminal) && TracksEnd()
      ensures stopped == old(stopped)
    {
      ImagesKnown(View(), terminal);
      previousLines := [];
      previousWidth := -1;
      previousHeight := -1;
      cursorRow := 0;
      hardwareCursorRow := 0;
      maxLinesRendered := 0;
      previousViewportTop := 0;
    }

    /** Stops rendering. What is written on the way out is left open. */
    method Stop()
      modifies this`stopped, this`terminal
      ensures stopped
    {
      stopped := true;
      terminal := *;
    }

    /** The terminal was resized: it may have reflowed its rows in any way. The next render repaints
        everything, whatever its frame. */
    method Resize(screen: Screen)
      requires Ready(View(), terminal) && SizeChanged(View(), screen) && screen.exact
      requires forall k :: 0 <= k < |screen.rows| ==> screen.rows[k].images <= previousKittyImageIds
      modifies this`terminal
      ensures terminal == screen && View() == old(View()) && Lost(View(), terminal)
      ensures forall f :: NeedsClear(View(), terminal, f)
    {
      terminal := screen;
    }

    /** Writes what was painted, places the cursor and remembers the frame. */
    method Commit(buffer: Screen, f: Frame)
      requires buffer.columns == terminal.columns && buffer.height == terminal.height
      requires Shows(buffer, f.lines) && buffer.exact == Fits(f.lines, buffer.columns) && DistinctIds(f.lines)
      requires buffer.At() == hardwareCursorRow && (f.lines == [] ==> buffer.row == 0 && buffer.col == 0)
      requires buffer.top == previousViewportTop == WindowTop(maxLinesRendered, buffer.height)
      requires |f.lines| <= maxLinesRendered && (previousViewportTop > 0 ==> previousViewportTop < |f.lines|)
      modifies this
      ensures Leaves(old(terminal), f, View(), terminal, old(maxLinesRendered), old(fullRedrawCount))
      ensures previousLines == f.lines && cursorRow == old(cursorRow) && stopped == old(stopped)
    {
      terminal, hardwareCursorRow := PlaceCursor(buffer, hardwareCursorRow, f);
      previousLines := f.lines;
      previousKittyImageIds := CollectImageIds(f.lines, 0, |f.lines|);
      previousWidth := terminal.columns;
      previousHeight := terminal.height;
      Settles(View(), f, buffer, terminal);
    }

    /** All changes are in lines that went away: erases them, unless the window would have to move up. */
    method RenderDeletion(f: Frame, changed: Range)
      requires InSync(View(), terminal) && DistinctIds(f.lines)
      requires |f.lines| <= changed.first <= changed.last < |previousLines| && AgreeOutside(previousLines, f.lines, changed)
      modifies this
      ensures TracksEnd() && stopped == old(stopped)
      ensures var far := Max(0, |f.lines| - 1) < old(previousViewportTop);
              Leaves(old(terminal), f, View(), terminal,
                     if far then |f.lines| else Max(old(maxLinesRendered), |f.lines|),
                     old(fullRedrawCount) + if far then 1 else 0)
    {
      var targetRow := Max(0, |f.lines| - 1);
      if targetRow < previousViewportTop || |previousLines| - |f.lines| > terminal.height {
        ImagesKnown(View(), terminal);
        FullRender(f, true);
        return;
      }
      RenderShorter(f, changed);
    }

    /** Repaints everything, from a cleared or from a clean terminal. */
    method FullRender(f: Frame, clear: bool)
      requires terminal.exact && DistinctIds(f.lines)
      requires Repaintable(terminal, previousKittyImageIds, clear) && (!clear ==> maxLinesRendered <= terminal.height)
      modifies this
      ensures Leaves(old(terminal), f, View(), terminal,
                     if clear then |f.lines| else Max(old(maxLinesRendered), |f.lines|), old(fullRedrawCount) + 1)
      ensures TracksEnd() && stopped == old(stopped)
    {
      fullRedrawCount := fullRedrawCount + 1;
      var buffer := Repaint(terminal, previousKittyImageIds, f.lines, clear);
      cursorRow := Max(0, |f.lines| - 1);
      hardwareCursorRow := cursorRow;
      if clear {
        maxLinesRendered := |f.lines|;
      } else {
        maxLinesRendered := Max(maxLinesRendered, |f.lines|);
      }
      var bufferLength := Max(terminal.height, |f.lines|);
      previousViewportTop := Max(0, bufferLength - terminal.height);
      Commit(buffer, f);
    }

    method RenderUnchanged(f: Frame)
      requires InSync(View(), terminal) && previousLines != [] && |f.lines| <= |previousLines|
      requires forall k :: LineAt(previousLines, k) == LineAt(f.lines, k)
      modifies this
      ensures Leaves(old(terminal), f, View(), terminal, old(maxLinesRendered), old(fullRedrawCount))
      ensures previousLines == old(previousLines) && cursorRow == old(cursorRow) && stopped == old(stopped)
    {
      ghost var b, s := View(), terminal;
      terminal, hardwareCursorRow := PlaceCursor(terminal, hardwareCursorRow, f);
      previousHeight := terminal.height;
      SettlesUnchanged(b, s, f, View(), terminal);
    }

    /** All changes are in lines that went away. */
    method RenderShorter(f: Frame, changed: Range)
      requires InSync(View(), terminal) && DistinctIds(f.lines)
      requires |f.lines| < |previousLines| && |f.lines| <= changed.first && AgreeOutside(previousLines, f.lines, changed)
      requires previousViewportTop <= Max(0, |f.lines| - 1)
      modifies this
      ensures Leaves(old(terminal), f, View(), terminal, old(maxLinesRendered), old(fullRedrawCount))
      ensures TracksEnd() && stopped == old(stopped)
    {
      UnchangedFit(previousLines, f.lines, changed, terminal.columns);
      var targetRow := Max(0, |f.lines| - 1);
      var buffer := EraseTail(terminal, previousLines, f.lines, changed, hardwareCursorRow);
      cursorRow := targetRow;
      hardwareCursorRow := targetRow;
      Commit(buffer, f);
    }

    /** Remembers a frame whose changed rows were repainted. */
    method CommitChanged(f: Frame, changed: Range, buffer: Screen, base: int, finalCursorRow: nat)
      requires InSync(View(), terminal) && DistinctIds(f.lines)
      requires previousViewportTop <= changed.first < |f.lines| && changed.first <= changed.last
      requires if |f.lines| > |previousLines| then changed.last == |f.lines| - 1 else changed.last < |previousLines|
      requires base == BaseRow(previousViewportTop, TargetRow(previousLines, f.lines, changed), terminal.height)
      requires SameDevice(terminal, buffer) && Shows(buffer, f.lines) && Fits(f.lines, buffer.columns)
      requires buffer.At() == finalCursorRow == FinalRow(previousLines, f.lines, changed)
      requires buffer.top == Max(base, finalCursorRow - buffer.height + 1)
      modifies this
      ensures Leaves(old(terminal), f, View(), terminal, Max(old(maxLinesRendered), |f.lines|), old(fullRedrawCount))
      ensures TracksEnd() && stopped == old(stopped)
    {
      PaintingFollowsHighWater(previousLines, f.lines, changed, maxLinesRendered, terminal.height);
      cursorRow := Max(0, |f.lines| - 1);
      hardwareCursorRow := finalCursorRow;
      maxLinesRendered := Max(maxLinesRendered, |f.lines|);
      previousViewportTop := Max(base, finalCursorRow - terminal.height + 1);
      Commit(buffer, f);
    }

    /** Repaints the changed rows, or everything when they cannot be reached. */
    method RenderChanged(f: Frame, changed: Range) returns (thrown: Option<nat>, redrawn: bool)
      requires InSync(View(), terminal) && DistinctIds(f.lines)
      requires AgreeOutside(previousLines, f.lines, changed)
      requires previousViewportTop <= changed.first < |f.lines| && changed.first <= changed.last
      requires if |f.lines| > |previousLines| then changed.last == |f.lines| - 1 else changed.last < |previousLines|
      requires previousLines != [] && TracksEnd()
      modifies this
      ensures TracksEnd() && stopped == old(stopped)
      ensures var base := old(PaintBase(View(), f.lines, changed, terminal.height));
              var end, height, width := Min(changed.last, |f.lines| - 1), old(terminal.height), old(terminal.columns);
              && (thrown.Some? <==> Overflowing(f.lines, changed.first, end, base, height, width))
              && (thrown.Some? ==> OverflowsAt(f.lines, changed.first, end, base, height, width, thrown.value))
              && (redrawn <==> thrown.None? && BlockTooTall(f.lines, changed.first, end, base, height))
      ensures thrown.Some? ==> View() == old(View()) && terminal == old(terminal)
      ensures thrown.None? ==>
                Leaves(old(terminal), f, View(), terminal,
                       if redrawn then |f.lines| else Max(old(maxLinesRendered), |f.lines|),
                       old(fullRedrawCount) + if redrawn then 1 else 0)
    {
      ImagesKnown(View(), terminal);
      var base := BaseRow(previousViewportTop, TargetRow(previousLines, f.lines, changed), terminal.height);
      var buffer, outcome, finalCursorRow := PaintChanged(terminal, previousLines, f.lines, changed, hardwareCursorRow);
      if outcome.Overflows? {
        return Some(outcome.line), false;
      }
      thrown, redrawn := None, outcome.WouldScroll?;
      if outcome.WouldScroll? {
        FullRender(f, true);
        return;
      }
      CommitChanged(f, changed, buffer, base, finalCursorRow);
    }

    /** Some change is in the new lines: repaints the changed rows, or everything when they begin above
        the window. */
    method RenderReplaced(f: Frame, changed: Range) returns (thrown: Option<nat>, redrawn: bool)
      requires InSync(View(), terminal) && DistinctIds(f.lines)
      requires AgreeOutside(previousLines, f.lines, changed)
      requires 0 <= changed.first < |f.lines| && changed.first <= changed.last
      requires if |f.lines| > |previousLines| then changed.last == |f.lines| - 1 else changed.last < |previousLines|
      requires previousLines != [] && TracksEnd()
      modifies this
      ensures TracksEnd() && stopped == old(stopped)
      ensures var base := old(PaintBase(View(), f.lines, changed, terminal.height));
              var end, height, width := Min(changed.last, |f.lines| - 1), old(terminal.height), old(terminal.columns);
              var above := changed.first < old(previousViewportTop);
              && (thrown.Some? <==> !above && Overflowing(f.lines, changed.first, end, base, height, width))
              && (thrown.Some? ==> OverflowsAt(f.lines, changed.first, end, base, height, width, thrown.value))
              && (redrawn <==> thrown.None? && (above || BlockTooTall(f.lines, changed.first, end, base, height)))
      ensures thrown.Some? ==> View() == old(View()) && terminal == old(terminal)
      ensures thrown.None? ==>
                Leaves(old(terminal), f, View(), terminal,
                       if redrawn then |f.lines| else Max(old(maxLinesRendered), |f.lines|),
                       old(fullRedrawCount) + if redrawn then 1 else 0)
    {
      if changed.first >= previousViewportTop {
        thrown, redrawn := RenderChanged(f, changed);
        return;
      }
      ImagesKnown(View(), terminal);
      FullRender(f, true);
      thrown, redrawn := None, true;
    }

    /** Compares the frame with the previous one and rewrites what changed. */
    method RenderDifference(f: Frame) returns (thrown: Option<nat>)
      requires InSync(View(), terminal) && DistinctIds(f.lines) && previousLines != [] && TracksEnd()
      requires !Shrunk(View(), f)
      modifies this
      ensures TracksEnd() && stopped == old(stopped)
      ensures thrown.Some? <==> Throws(old(View()), old(terminal), f)
      ensures thrown.Some? ==> ThrowsAt(old(View()), old(terminal), f, thrown.value)
      ensures thrown.Some? ==> View() == old(View()) && terminal == old(terminal)
      ensures thrown.None? ==>
                var far := OutOfReach(old(View()), f.lines, old(terminal.height));
                Leaves(old(terminal), f, View(), terminal,
                       if far then |f.lines| else Max(old(maxLinesRendered), |f.lines|),
                       old(fullRedrawCount) + if far then 1 else 0)
    {
      thrown := None;
      ChangedRangeBounds(previousLines, f.lines);
      var changed := FindChangedRange(previousLines, f.lines);
      if changed.first == -1 {
        RenderUnchanged(f);
        return;
      }
      if changed.first >= |f.lines| {
        RenderDeletion(f, changed);
        return;
      }
      ghost var b, s := View(), terminal;
      var redrawn;
      thrown, redrawn := RenderReplaced(f, changed);
      assert redrawn <==> thrown.None? && OutOfReach(b, f.lines, s.height);
    }

    /** Renders a frame, rewriting only what changed when that is possible. Stops and throws, before
        anything of the frame is written, exactly when changed rows are repainted one by one and one
        of them, with no image above it that sticks out of the window, is wider than the terminal. */
    method DoRender(f: Frame) returns (thrown: Option<nat>)
      requires DistinctIds(f.lines) && (!stopped ==> Ready(View(), terminal)) && TracksEnd()
      modifies this
      ensures TracksEnd() && (stopped <==> old(stopped) || thrown.Some?)
      ensures old(stopped) ==> thrown.None? && View() == old(View()) && terminal == old(terminal)
      ensures thrown.Some? <==> !old(stopped) && old(MustThrow(View(), terminal, f))
      ensures thrown.Some? ==> ThrowsAt(old(View()), old(terminal), f, thrown.value) && View() == old(View())
      ensures !stopped ==> Rendered(old(View()), old(terminal), f, View(), terminal)
      ensures !stopped ==> fullRedrawCount == old(fullRedrawCount)
                             + if old(previousLines == [] || MustClear(View(), terminal, f)) then 1 else 0
    {
      thrown := None;
      if stopped {
        return;
      }
      ThrowsExactly(View(), terminal, f);
      ClearsExactly(View(), terminal, f);
      thrown := RenderFrame(f);
      if thrown.Some? {
        Stop();
      }
    }

    /** Takes the path the frame needs; when it throws, nothing of the frame has been written. */
    method RenderFrame(f: Frame) returns (thrown: Option<nat>)
      requires DistinctIds(f.lines) && Ready(View(), terminal) && TracksEnd()
      modifies this
      ensures TracksEnd() && stopped == old(stopped)
      ensures thrown.Some? <==> Throws(old(View()), old(terminal), f)
      ensures thrown.Some? ==> ThrowsAt(old(View()), old(terminal), f, thrown.value)
      ensures thrown.Some? ==> View() == old(View()) && terminal == old(terminal)
      ensures thrown.None? ==> Rendered(old(View()), old(terminal), f, View(), terminal)
    {
      thrown := None;
      ImagesKnown(View(), terminal);
      var widthChanged := previousWidth != 0 && previousWidth != terminal.columns;
      var heightChanged := previousHeight != 0 && previousHeight != terminal.height;

      if |previousLines| == 0 && !widthChanged && !heightChanged {
        FullRender(f, false);
        return;
      }
      var shrunk := f.clearOnShrink && |f.lines| < maxLinesRendered && !f.overlays;
      if widthChanged || heightChanged || shrunk {
        FullRender(f, true);
        return;
      }
      thrown := RenderDifference(f);
    }
  }
}
