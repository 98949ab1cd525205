/** What a render promises, stated over the renderer's belief about the terminal and the
    terminal itself. */
module Rendering {
  import opened Options
  import opened Terminal
  import opened KittyImages
  import opened Painting

  datatype Pos = Pos(row: nat, col: nat)

  /** What a render reads besides its own fields: the composited lines, the cursor marker
      found in them, and the switches in force. */
  datatype Frame = Frame(
    lines: seq<Line>,
    cursor: Option<Pos>,
    overlays: bool,
    clearOnShrink: bool,
    showCursor: bool)

  /** The renderer's fields. */
  datatype Belief = Belief(
    lines: seq<Line>,
    imageIds: set<nat>,
    width: int,
    height: int,
    hardwareRow: nat,
    maxLines: nat,
    viewportTop: nat,
    fullRedraws: nat)

  const InitialBelief := Belief([], {}, 0, 0, 0, 0, 0, 0)

  /** A forced render forgets everything but the image ids and the redraw count. */
  function Forgotten(b: Belief): Belief {
    Belief([], b.imageIds, -1, -1, 0, 0, 0, b.fullRedraws)
  }

  ghost function AllIds(lines: seq<Line>): set<nat> { IdsIn(lines, 0, |lines|) }

  predicate SizeChanged(b: Belief, s: Screen) {
    (b.width != 0 && b.width != s.columns) || (b.height != 0 && b.height != s.height)
  }

  function WindowTop(maxLines: nat, height: nat): nat { Max(0, maxLines - height) }

  /** The belief is true of the terminal. */
  ghost predicate InSync(b: Belief, s: Screen) {
    && (b.width == b.height == 0 || (b.width == s.columns && b.height == s.height))
    && (b.lines != [] ==> b.width != 0)
    && s.exact
    && Shows(s, b.lines)
    && s.At() == b.hardwareRow
    && s.top == b.viewportTop == WindowTop(b.maxLines, s.height)
    && |b.lines| <= b.maxLines
    && (b.viewportTop > 0 ==> b.viewportTop < |b.lines|)
    && (b.lines == [] ==> s.row == 0 && s.col == 0)
    && DistinctIds(b.lines) && Fits(b.lines, s.columns)
    && b.imageIds == AllIds(b.lines)
  }

  /** The size changed, or the state was reset: the terminal may hold anything, as long as
      the renderer still knows every image on it. */
  ghost predicate Lost(b: Belief, s: Screen) {
    && SizeChanged(b, s)
    && s.exact
    && forall k :: 0 <= k < |s.rows| ==> s.rows[k].images <= b.imageIds
  }

  ghost predicate Ready(b: Belief, s: Screen) { InSync(b, s) || Lost(b, s) }

  /** What `extractCursorPosition` promises: a marker found in the last `height` lines. */
  predicate MarkerInTail(f: Frame, height: nat) {
    f.cursor.Some? ==> Max(0, |f.lines| - height) <= f.cursor.value.row < |f.lines|
  }

  // When a render repaints everything

  /** The first row incremental painting may scroll the window to. */
  function PaintBase(b: Belief, next: seq<Line>, c: Range, height: nat): int {
    BaseRow(b.viewportTop, TargetRow(b.lines, next, c), height)
  }

  /** A change incremental painting cannot reach: rows above the window, or an image block
      that does not fit in it. */
  ghost predicate OutOfReach(b: Belief, next: seq<Line>, height: nat) {
    var c := ChangedRange(b.lines, next);
    && c.first != -1
    && if c.first >= |next| then Max(0, |next| - 1) < b.viewportTop
       else
         || c.first < b.viewportTop
         || BlockTooTall(next, Max(0, c.first), Min(c.last, |next| - 1), PaintBase(b, next, c, height), height)
  }

  /** Fewer lines than were painted before, and no overlay needs the padding. */
  predicate Shrunk(b: Belief, f: Frame) {
    f.clearOnShrink && |f.lines| < b.maxLines && !f.overlays
  }

  /** The changed rows are repainted one by one, and do not fit. */
  ghost predicate Throws(b: Belief, s: Screen, f: Frame) {
    var c := ChangedRange(b.lines, f.lines);
    && b.lines != [] && !SizeChanged(b, s) && !Shrunk(b, f)
    && 0 <= c.first < |f.lines| && b.viewportTop <= c.first
    && Overflowing(f.lines, c.first, Min(c.last, |f.lines| - 1), PaintBase(b, f.lines, c, s.height), s.height, s.columns)
  }

  /** The line such a render names. */
  ghost predicate ThrowsAt(b: Belief, s: Screen, f: Frame, k: nat) {
    var c := ChangedRange(b.lines, f.lines);
    0 <= c.first && OverflowsAt(f.lines, c.first, Min(c.last, |f.lines| - 1), PaintBase(b, f.lines, c, s.height),
                                s.height, s.columns, k)
  }

  /** The render clears screen and scrollback first. */
  ghost predicate NeedsClear(b: Belief, s: Screen, f: Frame) {
    || SizeChanged(b, s)
    || (b.lines != [] && Shrunk(b, f))
    || (b.lines != [] && OutOfReach(b, f.lines, s.height))
  }

  /** The largest number of lines painted since the last clear. */
  ghost function NextMaxLines(b: Belief, s: Screen, f: Frame): nat {
    if NeedsClear(b, s, f) then |f.lines| else Max(b.maxLines, |f.lines|)
  }

  ghost function NextTop(b: Belief, s: Screen, f: Frame): nat {
    WindowTop(NextMaxLines(b, s, f), s.height)
  }

  // The result of a render

  predicate PlacesCursor(f: Frame) { f.cursor.Some? && f.lines != [] }

  function CursorTarget(f: Frame): int
    requires PlacesCursor(f)
  {
    Min(f.cursor.value.row, |f.lines| - 1)
  }

  /** The cursor marker, if there is one, lies in the window that starts at `top`. */
  predicate CursorInWindow(f: Frame, top: nat) {
    PlacesCursor(f) ==> CursorTarget(f) >= top
  }

  ghost predicate CursorShown(f: Frame, r: Screen) {
    if PlacesCursor(f) then
      && r.visible == f.showCursor
      && r.col == Min(f.cursor.value.col + 1, r.columns) - 1
      && r.At() == Max(r.top, CursorTarget(f))
    else !r.visible
  }

  /** Nothing a render was given breaks the terminal: no overlong line, and no cursor above
      the window. */
  ghost predicate Harmless(f: Frame, r: Screen) {
    Fits(f.lines, r.columns) && CursorInWindow(f, r.top)
  }

  /** Terminal `s` became `r`, and belief `q` was formed, by rendering `f`: the terminal holds
      exactly the frame, the window sits where the high-water mark `maxLines` puts it, and
      every move was exact and the belief is true if and only if the frame was harmless. */
  ghost predicate Leaves(s: Screen, f: Frame, q: Belief, r: Screen, maxLines: nat, fullRedraws: nat) {
    && r.columns == s.columns && r.height == s.height
    && Shows(r, f.lines)
    && r.top == WindowTop(maxLines, s.height)
    && q.maxLines == maxLines
    && q.fullRedraws == fullRedraws
    && CursorShown(f, r)
    && (PlacesCursor(f) ==> q.hardwareRow == CursorTarget(f))
    && q.imageIds == AllIds(q.lines)
    && q.width == r.columns && q.height == r.height
    && r.exact == Harmless(f, r)
    && (InSync(q, r) <==> Harmless(f, r))
    && (forall k {:trigger LineAt(q.lines, k)} :: LineAt(q.lines, k) == LineAt(f.lines, k))
  }

  /** Rendering `f` takes belief `b` and terminal `s` to `q` and `r`. */
  ghost predicate Rendered(b: Belief, s: Screen, f: Frame, q: Belief, r: Screen) {
    Leaves(s, f, q, r, NextMaxLines(b, s, f),
           b.fullRedraws + if b.lines == [] || NeedsClear(b, s, f) then 1 else 0)
  }

  /** The terminal can be repainted from: blank, or with every image known. */
  ghost predicate Repaintable(s: Screen, ids: set<nat>, clear: bool) {
    if clear then forall k :: 0 <= k < |s.rows| ==> s.rows[k].images <= ids else Printed(s, [], 0)
  }

  /** The renderer knows every image the terminal displays. */
  lemma ImagesKnown(b: Belief, s: Screen)
    requires Ready(b, s)
    ensures Repaintable(s, b.imageIds, true)
  {
    if InSync(b, s) {
      forall k | 0 <= k < |s.rows| ensures s.rows[k].images <= b.imageIds {
        if k < |b.lines| {
          assert forall id :: id in Ids(b.lines[k]) ==> id in AllIds(b.lines);
        }
      }
    }
  }

  lemma PrintedShows(s: Screen, lines: seq<Line>)
    requires Printed(s, lines, |lines|)
    ensures Shows(s, lines) && s.top == WindowTop(|lines|, s.height) && s.At() == Max(0, |lines| - 1)
    ensures lines == [] ==> s.row == 0 && s.col == 0
  {
  }

  /** Prints a whole frame, after clearing the terminal if asked to. */
  method Repaint(s: Screen, ids: set<nat>, lines: seq<Line>, clear: bool) returns (r: Screen)
    requires s.exact && DistinctIds(lines) && Repaintable(s, ids, clear)
    ensures r.columns == s.columns && r.height == s.height
    ensures Shows(r, lines) && r.top == WindowTop(|lines|, s.height) && r.At() == Max(0, |lines| - 1)
    ensures lines == [] ==> r.row == 0 && r.col == 0
    ensures r.exact == Fits(lines, s.columns)
  {
    r := s;
    if clear {
      r := Clear(r, ids);
    }
    r := PrintAll(r, lines);
    PrintedShows(r, lines);
  }

  /** `r` is the painted terminal with the cursor placed. */
  ghost predicate CursorPlaced(f: Frame, painted: Screen, row: nat, r: Screen) {
    && r.columns == painted.columns && r.height == painted.height
    && r.rows == painted.rows && r.top == painted.top
    && (!PlacesCursor(f) ==> r.row == painted.row && r.col == painted.col)
    && r.exact == (painted.exact && CursorInWindow(f, r.top))
    && (r.At() == row) == CursorInWindow(f, r.top)
  }

  /** Belief and terminal agree after painting and placing the cursor if the frame was harmless,
      and only then. */
  lemma Settles(q: Belief, f: Frame, painted: Screen, r: Screen)
    requires Shows(painted, f.lines) && painted.exact == Fits(f.lines, painted.columns)
    requires f.lines == [] ==> painted.row == 0 && painted.col == 0
    requires CursorPlaced(f, painted, q.hardwareRow, r)
    requires q.lines == f.lines && q.imageIds == AllIds(f.lines) && DistinctIds(f.lines)
    requires q.width == r.columns && q.height == r.height
    requires painted.top == q.viewportTop == WindowTop(q.maxLines, painted.height)
    requires |q.lines| <= q.maxLines && (q.viewportTop > 0 ==> q.viewportTop < |q.lines|)
    ensures Shows(r, f.lines)
    ensures r.exact == Harmless(f, r)
    ensures InSync(q, r) <==> Harmless(f, r)
  {
    assert forall k :: 0 <= k < |r.rows| ==> r.rows[k] == painted.rows[k];
  }

  /** Moves the terminal's cursor from the row it is believed on to the marker, or hides it. */
  method PlaceCursor(s: Screen, from: nat, f: Frame) returns (r: Screen, row: nat)
    requires s.At() == from && |f.lines| <= |s.rows|
    ensures CursorPlaced(f, s, row, r) && CursorShown(f, r)
    ensures row == if PlacesCursor(f) then CursorTarget(f) else from
  {
    if f.cursor.None? || |f.lines| <= 0 {
      return SetCursor(s, false), from;
    }
    var targetRow := Max(0, Min(f.cursor.value.row, |f.lines| - 1));
    var targetCol := Max(0, f.cursor.value.col);
    r := MoveTo(s, from, targetRow);
    r := ToColumn(r, targetCol + 1);
    r := SetCursor(r, f.showCursor);
    row := targetRow;
  }

  /** A frame without changes needs no painting, even when it lost empty lines at its end. */
  lemma SettlesUnchanged(b: Belief, s: Screen, f: Frame, q: Belief, r: Screen)
    requires InSync(b, s) && b.lines != [] && |f.lines| <= |b.lines|
    requires forall k :: LineAt(b.lines, k) == LineAt(f.lines, k)
    requires q == b.(hardwareRow := q.hardwareRow, height := s.height)
    requires CursorPlaced(f, s, q.hardwareRow, r)
    ensures Shows(r, f.lines) && Fits(f.lines, r.columns)
    ensures r.exact == Harmless(f, r)
    ensures InSync(q, r) <==> Harmless(f, r)
  {
    assert forall k :: 0 <= k < |r.rows| ==> r.rows[k] == s.rows[k];
    forall k | 0 <= k < |f.lines| ensures LineFits(f.lines[k], r.columns) {
      assert LineAt(b.lines, k) == LineAt(f.lines, k);
    }
  }

  /** Lines outside the changed range were painted before, so they fit. */
  lemma UnchangedFit(prev: seq<Line>, next: seq<Line>, c: Range, width: nat)
    requires AgreeOutside(prev, next, c) && Fits(prev, width)
    requires forall j :: c.first <= j <= c.last && 0 <= j < |next| ==> LineFits(next[j], width)
    ensures Fits(next, width)
  {
    forall k | 0 <= k < |next| ensures LineFits(next[k], width) {
      assert LineAt(prev, k) == LineAt(next, k) || c.first <= k <= c.last;
    }
  }

  function FinalRow(prev: seq<Line>, next: seq<Line>, c: Range): int {
    if |prev| > |next| then |next| - 1 else Min(c.last, |next| - 1)
  }

  /** Where incremental painting leaves the window: no further down than the high-water mark. */
  lemma PaintingFollowsHighWater(prev: seq<Line>, next: seq<Line>, c: Range, maxLines: nat, height: nat)
    requires 0 < height && |prev| <= maxLines
    requires WindowTop(maxLines, height) > 0 ==> WindowTop(maxLines, height) < |prev|
    requires WindowTop(maxLines, height) <= c.first <= c.last && c.first < |next|
    requires if |next| > |prev| then c.last == |next| - 1 else c.last < |prev|
    ensures var base := BaseRow(WindowTop(maxLines, height), TargetRow(prev, next, c), height);
            var top := Max(base, FinalRow(prev, next, c) - height + 1);
            top == WindowTop(Max(maxLines, |next|), height) && (top > 0 ==> top < |next|)
  {
  }

  /** Repaints the changed rows of a terminal that shows the previous frame. */
  method PaintChanged(s: Screen, prev: seq<Line>, next: seq<Line>, c: Range, from: nat)
    returns (r: Screen, outcome: PaintEnd, finalCursorRow: nat)
    requires s.exact && s.At() == from && Shows(s, prev) && DistinctIds(prev) && Fits(prev, s.columns)
    requires DistinctIds(next) && AgreeOutside(prev, next, c)
    requires s.top <= c.first < |next| && c.first <= c.last && s.top <= TargetRow(prev, next, c)
    requires |next| > |prev| ==> c.last == |next| - 1
    ensures var base, end := BaseRow(s.top, TargetRow(prev, next, c), s.height), Min(c.last, |next| - 1);
            && (outcome.Overflows? <==> Overflowing(next, c.first, end, base, s.height, s.columns))
            && (outcome.Overflows? ==> OverflowsAt(next, c.first, end, base, s.height, s.columns, outcome.line))
    ensures var base := BaseRow(s.top, TargetRow(prev, next, c), s.height);
            && (!outcome.Overflows? ==>
                 (outcome.WouldScroll? <==> BlockTooTall(next, c.first, Min(c.last, |next| - 1), base, s.height)))
            && (outcome.Finished? ==> r.top == Max(base, finalCursorRow - s.height + 1))
    ensures outcome.Finished? ==>
              && Shows(r, next) && Fits(next, s.columns) && SameDevice(s, r)
              && r.At() == finalCursorRow == FinalRow(prev, next, c)
  {
    var base := BaseRow(s.top, TargetRow(prev, next, c), s.height);
    var renderEnd := Min(c.last, |next| - 1);
    finalCursorRow := renderEnd;
    r := StartPaint(s, prev, next, c, from);
    r, outcome := PaintRows(r, prev, next, c, renderEnd, base);
    if outcome.Finished? {
      UnchangedFit(prev, next, c, s.columns);
      r, finalCursorRow := ClearBelow(r, prev, next, c, renderEnd, base);
    }
  }
}
