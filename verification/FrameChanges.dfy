/** Which rows a render must paint, and when it cannot, in terms of the two frames alone. */
module FrameChanges {
  import opened Terminal
  import opened KittyImages
  import opened Painting
  import opened Rendering

  ghost predicate Differs(prev: seq<Line>, next: seq<Line>, k: int) {
    LineAt(prev, k) != LineAt(next, k)
  }

  /** A row that differs, the end of a longer frame, and, if nothing else differs, its first new row. */
  ghost predicate Changed(prev: seq<Line>, next: seq<Line>, k: int) {
    || Differs(prev, next, k)
    || (|next| > |prev| && k == |next| - 1)
    || (|next| > |prev| && k == |prev| && forall m :: !Differs(prev, next, m))
  }

  /** Row `k` is in an image block, of either frame, that reaches down to a changed row or below. */
  ghost predicate InTouchedBlock(prev: seq<Line>, next: seq<Line>, k: int) {
    exists i, j, c :: TouchedBlock(prev, next, i, j, c) && i <= k <= j
  }

  ghost predicate TouchedBlock(prev: seq<Line>, next: seq<Line>, i: int, j: int, c: int) {
    (BlockOfId(prev, i, j) || BlockOfId(next, i, j)) && c <= j && Changed(prev, next, c)
  }

  ghost predicate MustPaint(prev: seq<Line>, next: seq<Line>, k: int) {
    Changed(prev, next, k) || InTouchedBlock(prev, next, k)
  }

  lemma ChangedRows(prev: seq<Line>, next: seq<Line>)
    ensures var d := DiffRange(prev, next);
            if d.first == -1 then forall k :: !Changed(prev, next, k)
            else
              && Changed(prev, next, d.first) && Changed(prev, next, d.last)
              && forall k :: Changed(prev, next, k) ==> d.first <= k <= d.last
  {
    DiffRangeFinds(prev, next);
    var d := DiffRange(prev, next);
    assert d.first != -1 ==> Differs(prev, next, d.first) || d.first == |prev|;
    forall k | Changed(prev, next, k) ensures d.first != -1 && d.first <= k <= d.last {
      if Differs(prev, next, k) {
        assert LineAt(prev, k) != LineAt(next, k);
      }
    }
    assert d.first != -1 ==> Differs(prev, next, d.first) || forall m :: !Differs(prev, next, m);
  }

  lemma TouchesIsTouched(prev: seq<Line>, next: seq<Line>, lines: seq<Line>, i: int)
    requires lines == prev || lines == next
    requires var d := DiffRange(prev, next); d.first != -1 && Touches(lines, d, |lines|, i)
    ensures TouchedBlock(prev, next, i, BlockEnd(lines, i), DiffRange(prev, next).first)
  {
    ChangedRows(prev, next);
    BlockRows(lines, i, BlockEnd(lines, i));
  }

  lemma TouchedTouches(prev: seq<Line>, next: seq<Line>, i: int, j: int, c: int)
    requires TouchedBlock(prev, next, i, j, c)
    ensures var d := DiffRange(prev, next);
            d.first != -1 && ((Touches(prev, d, |prev|, i) && j <= BlockEnd(prev, i))
                              || (Touches(next, d, |next|, i) && j <= BlockEnd(next, i)))
  {
    ChangedRows(prev, next);
    DiffRangeFinds(prev, next);
    if BlockOfId(prev, i, j) { BlockRows(prev, i, j); }
    if BlockOfId(next, i, j) { BlockRows(next, i, j); }
  }

  /** The changed range runs from the first to the last of the rows that must be painted. */
  lemma ChangedRangeIsExact(prev: seq<Line>, next: seq<Line>)
    ensures var r := ChangedRange(prev, next);
            if r.first == -1 then forall k :: !MustPaint(prev, next, k)
            else
              && MustPaint(prev, next, r.first) && MustPaint(prev, next, r.last)
              && forall k :: MustPaint(prev, next, k) ==> r.first <= k <= r.last
  {
    ChangedRows(prev, next);
    ChangedRangeFinds(prev, next);
    var d, r := DiffRange(prev, next), ChangedRange(prev, next);
    forall k | MustPaint(prev, next, k) ensures r.first != -1 && r.first <= k <= r.last {
      if !Changed(prev, next, k) {
        var i, j, c :| TouchedBlock(prev, next, i, j, c) && i <= k <= j;
        TouchedTouches(prev, next, i, j, c);
      }
    }
    if d.first != -1 {
      EndsMustBePainted(prev, next);
    }
  }

  lemma EndsMustBePainted(prev: seq<Line>, next: seq<Line>)
    requires DiffRange(prev, next).first != -1
    ensures var r := ChangedRange(prev, next); MustPaint(prev, next, r.first) && MustPaint(prev, next, r.last)
  {
    ChangedRows(prev, next);
    ChangedRangeFinds(prev, next);
    var d, r := DiffRange(prev, next), ChangedRange(prev, next);
    if Touches(prev, d, |prev|, r.first) { TouchesIsTouched(prev, next, prev, r.first); }
    if Touches(next, d, |next|, r.first) { TouchesIsTouched(prev, next, next, r.first); }
    if r.last != d.last {
      if i :| Touches(prev, d, |prev|, i) && BlockEnd(prev, i) == r.last {
        TouchesIsTouched(prev, next, prev, i);
      } else {
        var i :| Touches(next, d, |next|, i) && BlockEnd(next, i) == r.last;
        TouchesIsTouched(prev, next, next, i);
      }
    }
  }

  // When the changed rows cannot be painted

  ghost predicate FirstPainted(prev: seq<Line>, next: seq<Line>, first: int) {
    MustPaint(prev, next, first) && forall k :: MustPaint(prev, next, k) ==> first <= k
  }

  /** The window's first row once painting starts at row `first`: it scrolls only as far as the row
      before appended ones, or the row itself, requires. */
  function WindowAt(prev: seq<Line>, next: seq<Line>, first: int, top: nat, height: nat): int {
    var reached := if first == |prev| && 0 < first < |next| then first - 1 else first;
    if reached - height + 1 > top then reached - height + 1 else top
  }

  /** An image to be painted from row `i` on has a row below a window that starts at `base`. */
  ghost predicate SticksOut(prev: seq<Line>, next: seq<Line>, i: int, base: int, height: nat) {
    exists j, m :: i < j <= m && Block(next, i, j) && MustPaint(prev, next, m) && j >= base + height
  }

  /** Rows above the window must be painted or become the last, or an image to be painted sticks out. */
  ghost predicate Unreachable(prev: seq<Line>, next: seq<Line>, top: nat, height: nat) {
    exists first :: FirstPainted(prev, next, first) &&
      if first >= |next| then 0 < top && |next| <= top
      else first < top || exists i :: i >= first && SticksOut(prev, next, i, WindowAt(prev, next, first, top, height), height)
  }

  /** Row `k` is to be painted and too wide, and no image above it sticks out. */
  ghost predicate TooWide(prev: seq<Line>, next: seq<Line>, first: int, k: int, base: int, height: nat, width: nat) {
    && 0 <= first <= k < |next| && VisibleWidth(next[k]) > width
    && (exists m :: k <= m && MustPaint(prev, next, m))
    && forall i :: first <= i < k ==> !SticksOut(prev, next, i, base, height)
  }

  /** What stops painting on an image, in terms of its rows. */
  lemma TooTallSticksOut(prev: seq<Line>, next: seq<Line>, i: nat, base: int, height: nat)
    requires ChangedRange(prev, next).first != -1
    ensures TooTall(next, i, Min(ChangedRange(prev, next).last, |next| - 1), base, height)
      <==> SticksOut(prev, next, i, base, height)
  {
    ChangedRangeIsExact(prev, next);
    var last := ChangedRange(prev, next).last;
    var end := Min(last, |next| - 1);
    if i < |next| && next[i].Image? {
      var r := Reserved(next, i, end);
      ReservedIsMaximal(next, i, end);
      if TooTall(next, i, end, base, height) {
        assert Block(next, i, i + r - 1) && i + r - 1 <= last && MustPaint(prev, next, last);
      }
      if SticksOut(prev, next, i, base, height) {
        var j, m :| i < j <= m && Block(next, i, j) && MustPaint(prev, next, m) && j >= base + height;
        assert j <= end;
        if j > i + r - 1 {
          assert Block(next, i, i + r);
        }
      }
    }
  }

  lemma TooTallExactly(prev: seq<Line>, next: seq<Line>, base: int, height: nat)
    requires var c := ChangedRange(prev, next); 0 <= c.first < |next|
    ensures var c := ChangedRange(prev, next);
            BlockTooTall(next, c.first, Min(c.last, |next| - 1), base, height)
            <==> (exists i :: i >= c.first && SticksOut(prev, next, i, base, height))
  {
    var c := ChangedRange(prev, next);
    var end := Min(c.last, |next| - 1);
    ChangedRangeIsExact(prev, next);
    if BlockTooTall(next, c.first, end, base, height) {
      var i :| c.first <= i <= end && TooTall(next, i, end, base, height);
      TooTallSticksOut(prev, next, i, base, height);
    }
    if exists i :: i >= c.first && SticksOut(prev, next, i, base, height) {
      var i :| i >= c.first && SticksOut(prev, next, i, base, height);
      TooTallSticksOut(prev, next, i, base, height);
    }
  }

  /** The renderer gives up on painting the changes exactly when they are unreachable. */
  lemma OutOfReachExactly(b: Belief, next: seq<Line>, height: nat)
    ensures OutOfReach(b, next, height) <==> Unreachable(b.lines, next, b.viewportTop, height)
  {
    var c := ChangedRange(b.lines, next);
    ChangedRangeIsExact(b.lines, next);
    ChangedRangeBounds(b.lines, next);
    if c.first != -1 {
      assert FirstPainted(b.lines, next, c.first);
      assert forall first :: FirstPainted(b.lines, next, first) ==> first == c.first;
      assert PaintBase(b, next, c, height) == WindowAt(b.lines, next, c.first, b.viewportTop, height);
      if c.first < |next| {
        TooTallExactly(b.lines, next, PaintBase(b, next, c, height), height);
      }
    }
  }

  lemma OverflowsTooWide(prev: seq<Line>, next: seq<Line>, k: int, base: int, height: nat, width: nat)
    requires var c := ChangedRange(prev, next);
             0 <= c.first && OverflowsAt(next, c.first, Min(c.last, |next| - 1), base, height, width, k)
    ensures TooWide(prev, next, ChangedRange(prev, next).first, k, base, height, width)
  {
    var c := ChangedRange(prev, next);
    ChangedRangeIsExact(prev, next);
    assert k <= c.last && MustPaint(prev, next, c.last);
    forall i | c.first <= i < k ensures !SticksOut(prev, next, i, base, height) {
      TooTallSticksOut(prev, next, i, base, height);
    }
  }

  lemma TooWideOverflows(prev: seq<Line>, next: seq<Line>, k: int, base: int, height: nat, width: nat)
    requires var first := ChangedRange(prev, next).first;
             && 0 <= first && TooWide(prev, next, first, k, base, height, width)
             && forall j :: first <= j < k ==> LineFits(next[j], width)
    ensures var c := ChangedRange(prev, next); OverflowsAt(next, c.first, Min(c.last, |next| - 1), base, height, width, k)
  {
    var c := ChangedRange(prev, next);
    var end := Min(c.last, |next| - 1);
    ChangedRangeIsExact(prev, next);
    var m :| k <= m && MustPaint(prev, next, m);
    forall j | c.first <= j < k ensures LineFits(next[j], width) && !TooTall(next, j, end, base, height) {
      TooTallSticksOut(prev, next, j, base, height);
    }
  }

  /** Above a row that is too wide there is a first one. */
  lemma {:induction false} FirstTooWide(prev: seq<Line>, next: seq<Line>, first: int, k: int, base: int, height: nat, width: nat)
    returns (least: int)
    requires TooWide(prev, next, first, k, base, height, width)
    ensures TooWide(prev, next, first, least, base, height, width)
    ensures forall j :: first <= j < least ==> LineFits(next[j], width)
    decreases k
  {
    if j :| first <= j < k && !LineFits(next[j], width) {
      least := FirstTooWide(prev, next, first, j, base, height, width);
    } else {
      least := k;
    }
  }

  /** A render throws exactly when changes are painted row by row, from the first row on that must be,
      and one of those rows, with no image above it that sticks out, is too wide. */
  ghost predicate MustThrow(b: Belief, s: Screen, f: Frame) {
    && b.lines != [] && !Resized(b, s) && !ShrunkAlone(b, f)
    && exists first, k :: FirstPainted(b.lines, f.lines, first) && b.viewportTop <= first
         && TooWide(b.lines, f.lines, first, k, WindowAt(b.lines, f.lines, first, b.viewportTop, s.height), s.height, s.columns)
  }

  /** The terminal has another size than at the last render. */
  predicate Resized(b: Belief, s: Screen) {
    (b.width != 0 && s.columns != b.width) || (b.height != 0 && s.height != b.height)
  }

  predicate ShrunkAlone(b: Belief, f: Frame) {
    f.clearOnShrink && !f.overlays && |f.lines| < b.maxLines
  }

  lemma ThrowsExactly(b: Belief, s: Screen, f: Frame)
    ensures Throws(b, s, f) <==> MustThrow(b, s, f)
  {
    var c := ChangedRange(b.lines, f.lines);
    ChangedRangeIsExact(b.lines, f.lines);
    if c.first != -1 {
      ChangedRangeBounds(b.lines, f.lines);
      assert FirstPainted(b.lines, f.lines, c.first);
      assert PaintBase(b, f.lines, c, s.height) == WindowAt(b.lines, f.lines, c.first, b.viewportTop, s.height);
      OverflowingIsTooWide(b.lines, f.lines, PaintBase(b, f.lines, c, s.height), s.height, s.columns);
    }
  }

  lemma OverflowingIsTooWide(prev: seq<Line>, next: seq<Line>, base: int, height: nat, width: nat)
    requires 0 <= ChangedRange(prev, next).first
    ensures var c := ChangedRange(prev, next);
            Overflowing(next, c.first, Min(c.last, |next| - 1), base, height, width)
            <==> (exists k :: TooWide(prev, next, c.first, k, base, height, width))
  {
    var c := ChangedRange(prev, next);
    var end := Min(c.last, |next| - 1);
    if k :| OverflowsAt(next, c.first, end, base, height, width, k) {
      OverflowsTooWide(prev, next, k, base, height, width);
    }
    if k :| TooWide(prev, next, c.first, k, base, height, width) {
      var least := FirstTooWide(prev, next, c.first, k, base, height, width);
      TooWideOverflows(prev, next, least, base, height, width);
    }
  }

  /** A render clears and repaints exactly when the size changed, the frame shrank with
      clear-on-shrink on and no overlays, or the changes are unreachable. */
  ghost predicate MustClear(b: Belief, s: Screen, f: Frame) {
    Resized(b, s) || (b.lines != [] && (ShrunkAlone(b, f) || Unreachable(b.lines, f.lines, s.top, s.height)))
  }

  lemma ClearsExactly(b: Belief, s: Screen, f: Frame)
    requires Ready(b, s)
    ensures NeedsClear(b, s, f) <==> MustClear(b, s, f)
  {
    OutOfReachExactly(b, f.lines, s.height);
  }

  /** What a render does to redraw count, high-water mark, window and cursor. */
  lemma RenderOutcome(b: Belief, s: Screen, f: Frame, q: Belief, r: Screen)
    requires Ready(b, s) && Rendered(b, s, f, q, r)
    ensures q.fullRedraws == b.fullRedraws + if b.lines == [] || MustClear(b, s, f) then 1 else 0
    ensures q.maxLines == if MustClear(b, s, f) || |f.lines| > b.maxLines then |f.lines| else b.maxLines
    ensures r.top == if q.maxLines > s.height then q.maxLines - s.height else 0
    ensures q.width == r.columns == s.columns && q.height == r.height == s.height
    ensures f.cursor.Some? && f.cursor.value.row < |f.lines| ==>
              && r.visible == f.showCursor
              && (f.cursor.value.row >= r.top ==> r.At() == f.cursor.value.row == q.hardwareRow)
              && (f.cursor.value.col < r.columns ==> r.col == f.cursor.value.col)
    ensures f.cursor.None? || f.lines == [] ==> !r.visible
  {
    ClearsExactly(b, s, f);
  }

  /** For frames of text: changes are out of reach when some are above the window, or the frame ends
      above it. */
  lemma TextUnreachable(prev: seq<Line>, next: seq<Line>, top: nat, height: nat)
    requires forall k :: 0 <= k < |prev| ==> prev[k].Text?
    requires forall k :: 0 <= k < |next| ==> next[k].Text?
    requires 0 < height && (top > 0 ==> top < |prev|)
    ensures Unreachable(prev, next, top, height)
      <==> (exists k :: k < top && Differs(prev, next, k)) || (|next| <= top && 0 < top && exists k :: Differs(prev, next, k))
  {
    ChangedRows(prev, next);
    DiffRangeFinds(prev, next);
    assert forall k :: MustPaint(prev, next, k) <==> Changed(prev, next, k);
    var d := DiffRange(prev, next);
    if d.first == -1 {
      assert forall k :: !Differs(prev, next, k);
    } else {
      assert FirstPainted(prev, next, d.first);
      assert forall first :: FirstPainted(prev, next, first) ==> first == d.first;
      assert forall i, base :: !SticksOut(prev, next, i, base, height);
      assert Unreachable(prev, next, top, height)
        <==> if d.first >= |next| then 0 < top && |next| <= top else d.first < top;
      assert Differs(prev, next, d.first) || d.first == |prev| < |next|;
      forall k | Differs(prev, next, k) ensures d.first <= k {
        assert Changed(prev, next, k);
      }
    }
  }
}
