/** The stretches of output a render is made of, each with what it does to the terminal.
    A `Screen` stands for the terminal as the buffer written so far will leave it. */
module Painting {
  import opened Terminal
  import opened KittyImages

  /** Scrollback and window hold the lines, each with its images, and blanks below. */
  ghost predicate Shows(s: Screen, lines: seq<Line>) {
    && |lines| <= |s.rows|
    && forall k :: 0 <= k < |s.rows| ==> s.rows[k] == Shown(LineAt(lines, k))
  }

  ghost predicate DistinctIds(lines: seq<Line>) {
    forall i, j :: 0 <= i < j < |lines| ==> Ids(lines[i]) !! Ids(lines[j])
  }

  predicate LineFits(line: Line, width: nat) { VisibleWidth(line) <= width }

  ghost predicate Fits(lines: seq<Line>, width: nat) { FitsTo(lines, |lines|, width) }

  ghost predicate FitsTo(lines: seq<Line>, n: nat, width: nat) {
    forall k :: 0 <= k < n <= |lines| ==> LineFits(lines[k], width)
  }

  /** No placement on the terminal carries an id of this line. */
  ghost predicate IdsAbsent(s: Screen, line: Line) {
    forall k :: 0 <= k < |s.rows| ==> s.rows[k].images !! Ids(line)
  }

  /** Same terminal: at most rows, window and cursor place differ. */
  ghost predicate SameDevice(s: Screen, r: Screen) {
    r.columns == s.columns && r.height == s.height && r.visible == s.visible && r.exact == s.exact
  }

  /** Printing on an empty row at column 0 puts exactly the line there. */
  lemma PrintPlaces(s: Screen, line: Line)
    requires s.rows[s.At()] == BlankRow
    requires line.Text? ==> s.col == 0
    requires IdsAbsent(s, line)
    ensures var r := Print(s, line);
            && r.rows == s.rows[s.At() := Shown(line)]
            && r.top == s.top && r.row == s.row && r.visible == s.visible
            && r.columns == s.columns && r.height == s.height
            && r.exact == (s.exact && LineFits(line, s.columns))
            && (line.Image? ==> r.col == s.col)
  {
    if line.Image? {
      var w := WithoutImages(s.rows, line.ids);
      forall k | 0 <= k < |s.rows| ensures w[k] == s.rows[k] {
        assert s.rows[k].images - line.ids == s.rows[k].images;
      }
      assert w == s.rows;
      assert {} + line.ids == line.ids;
    }
  }

  /** `n` line feeds move the cursor down `n` rows, scrolling blank rows in for what does not fit. */
  method FeedLines(s: Screen, n: nat) returns (r: Screen)
    ensures SameDevice(s, r)
    ensures r.At() == s.At() + n
    ensures r.top == s.top + Max(0, s.row + n - (s.height - 1))
    ensures forall k :: 0 <= k < |s.rows| ==> r.rows[k] == s.rows[k]
    ensures forall k :: |s.rows| <= k < |r.rows| ==> r.rows[k] == BlankRow
    ensures r.col == if n == 0 then s.col else 0
  {
    r := s;
    for i := 0 to n
      invariant SameDevice(s, r)
      invariant r.At() == s.At() + i
      invariant r.top == s.top + Max(0, s.row + i - (s.height - 1))
      invariant forall k :: 0 <= k < |s.rows| ==> r.rows[k] == s.rows[k]
      invariant forall k :: |s.rows| <= k < |r.rows| ==> r.rows[k] == BlankRow
      invariant r.col == if i == 0 then s.col else 0
    {
      r := NewLine(r);
    }
  }

  /** Up `d` rows, place an image, and back down. */
  method PlaceAbove(s: Screen, line: Line, d: nat) returns (r: Screen)
    requires line.Image? && 0 < d <= s.row
    requires s.rows[s.At() - d] == BlankRow
    requires IdsAbsent(s, line)
    ensures r == s.(rows := s.rows[s.At() - d := Shown(line)])
  {
    r := Up(s, d);
    PrintPlaces(r, line);
    r := Print(r, line);
    r := Down(r, d);
  }

  // Full redraw

  function DrawnRow(lines: seq<Line>, i: nat, k: int): Row {
    if k < i then Shown(LineAt(lines, k)) else BlankRow
  }

  /** The first `i` lines are on an otherwise blank terminal, the cursor in row `at`. */
  ghost predicate Drawn(s: Screen, lines: seq<Line>, i: nat, at: nat) {
    && i <= |lines|
    && |s.rows| == Max(at + 1, s.height)
    && s.At() == at
    && forall k :: 0 <= k < |s.rows| ==> s.rows[k] == DrawnRow(lines, i, k)
  }

  /** As above, with the cursor on the last of the lines. */
  ghost predicate Printed(s: Screen, lines: seq<Line>, i: nat) {
    Drawn(s, lines, i, Max(0, i - 1)) && (i == 0 ==> s.col == 0)
  }

  lemma DrawnIdsAbsent(s: Screen, lines: seq<Line>, i: nat, at: nat)
    requires Drawn(s, lines, i, at) && i < |lines| && DistinctIds(lines)
    ensures IdsAbsent(s, lines[i])
  {
    forall k | 0 <= k < |s.rows| ensures s.rows[k].images !! Ids(lines[i]) {
      assert s.rows[k] == DrawnRow(lines, i, k);
    }
  }

  /** An image block on fresh rows: feed its rows, go back up, place the image, go down again. */
  method PrintBlock(s: Screen, lines: seq<Line>, i: nat, k: nat) returns (r: Screen)
    requires i < |lines| && lines[i].Image?
    requires 1 < k <= s.height && i + k <= |lines|
    requires forall j {:trigger LineAt(lines, j)} :: i < j < i + k ==> IsBlank(LineAt(lines, j))
    requires Drawn(s, lines, i, i) && s.col == 0 && DistinctIds(lines)
    ensures Printed(r, lines, i + k) && SameDevice(s, r)
  {
    r := FeedLines(s, k - 1);
    assert Drawn(r, lines, i, i + k - 1);
    DrawnIdsAbsent(r, lines, i, i + k - 1);
    r := PlaceAbove(r, lines[i], k - 1);
  }

  method PrintOne(s: Screen, lines: seq<Line>, i: nat) returns (r: Screen)
    requires i < |lines| && DistinctIds(lines)
    requires Drawn(s, lines, i, i) && s.col == 0
    ensures Printed(r, lines, i + 1)
    ensures SameDevice(s, r.(exact := s.exact)) && r.exact == (s.exact && LineFits(lines[i], s.columns))
  {
    DrawnIdsAbsent(s, lines, i, i);
    PrintPlaces(s, lines[i]);
    r := Print(s, lines[i]);
  }

  /** Goes to row `i` and prints it, with the `k - 1` rows below when it starts an image block. */
  method PrintNext(s: Screen, lines: seq<Line>, i: nat, k: nat) returns (r: Screen)
    requires 0 < k <= s.height && i + k <= |lines| && DistinctIds(lines)
    requires Printed(s, lines, i) && (k > 1 ==> lines[i].Image?)
    requires forall j {:trigger LineAt(lines, j)} :: i < j < i + k ==> IsBlank(LineAt(lines, j))
    ensures Printed(r, lines, i + k)
    ensures SameDevice(s, r.(exact := s.exact)) && r.exact == (s.exact && LineFits(lines[i], s.columns))
  {
    r := if i > 0 then NewLine(s) else s;
    if k > 1 {
      r := PrintBlock(r, lines, i, k);
    } else {
      r := PrintOne(r, lines, i);
    }
  }

  /** Prints all lines from the top of a blank terminal. */
  method PrintAll(s: Screen, lines: seq<Line>) returns (r: Screen)
    requires Printed(s, lines, 0) && DistinctIds(lines)
    ensures Printed(r, lines, |lines|)
    ensures SameDevice(s, r.(exact := s.exact)) && r.exact == (s.exact && Fits(lines, s.columns))
  {
    r := s;
    var i := 0;
    while i < |lines|
      invariant 0 <= i <= |lines|
      invariant Printed(r, lines, i)
      invariant SameDevice(s, r.(exact := s.exact)) && r.exact == (s.exact && FitsTo(lines, i, s.columns))
    {
      var reserved := 1;
      if lines[i].Image? {
        reserved := ReservedRows(lines, i, |lines| - 1);
      }
      if reserved > r.height {
        reserved := 1;
      }
      r := PrintNext(r, lines, i, reserved);
      forall j | i < j < i + reserved ensures LineFits(lines[j], s.columns) {
        assert IsBlank(LineAt(lines, j));
      }
      i := i + reserved;
    }
  }

  /** Deleting the images it knows of and erasing window and scrollback blanks any terminal. */
  method Clear(s: Screen, ids: set<nat>) returns (r: Screen)
    requires forall k :: 0 <= k < |s.rows| ==> s.rows[k].images <= ids
    ensures Printed(r, [], 0) && SameDevice(s, r)
  {
    r := DeleteImages(s, ids);
    forall k | 0 <= k < |r.rows| ensures r.rows[k].images == {} {
      assert s.rows[k].images <= ids;
    }
    r := EraseWindow(r);
    r := Home(r);
    r := EraseScrollback(r);
  }

  // Moving and erasing

  /** Moves a known distance inside the window. */
  method MoveTo(s: Screen, from: int, target: int) returns (r: Screen)
    requires s.At() == from
    ensures r.rows == s.rows && r.top == s.top && r.col == s.col
    ensures r.columns == s.columns && r.height == s.height && r.visible == s.visible
    ensures s.top <= target < s.top + s.height ==> r.At() == target && r.exact == s.exact
    ensures target < s.top ==> r.row == 0 && !r.exact
  {
    var lineDiff := target - from;
    r := s;
    if lineDiff > 0 {
      r := Down(r, lineDiff);
    } else if lineDiff < 0 {
      r := Up(r, -lineDiff);
    }
  }

  function ErasedText(row: Row): Row { Row([], row.images) }

  /** Rows `from` to `to` of `r` are those of `s` without their text, the other rows are the same. */
  ghost predicate RowsErased(s: Screen, r: Screen, from: int, to: int) {
    && |r.rows| == |s.rows|
    && forall k :: 0 <= k < |s.rows| ==> r.rows[k] == if from <= k <= to then ErasedText(s.rows[k]) else s.rows[k]
  }

  /** `m` times to the next row and erase it. */
  method EraseBelow(s: Screen, m: nat) returns (r: Screen)
    requires s.row + m < s.height
    ensures SameDevice(s, r) && r.top == s.top && r.At() == s.At() + m
    ensures RowsErased(s, r, s.At() + 1, s.At() + m)
    ensures m > 0 ==> r.col == 0
  {
    r := s;
    for i := 0 to m
      invariant SameDevice(s, r) && r.top == s.top && r.At() == s.At() + i
      invariant RowsErased(s, r, s.At() + 1, s.At() + i)
      invariant i > 0 ==> r.col == 0
    {
      r := NewLine(r);
      r := EraseLine(r);
    }
  }

  /** Erases `m` rows from the cursor down without scrolling, ending on the last of them. */
  method EraseRows(s: Screen, m: nat) returns (r: Screen)
    requires 0 < m && s.row + m <= s.height
    ensures SameDevice(s, r) && r.top == s.top && r.At() == s.At() + m - 1
    ensures RowsErased(s, r, s.At(), s.At() + m - 1)
    ensures r.col == 0
  {
    r := s;
    var i := 0;
    while i < m
      invariant 0 <= i <= m
      invariant SameDevice(s, r) && r.top == s.top && r.At() == s.At() + Min(i, m - 1)
      invariant RowsErased(s, r, s.At(), s.At() + i - 1)
      invariant i > 0 ==> r.col == 0
    {
      r := CarriageReturn(r);
      r := EraseLine(r);
      if i < m - 1 {
        r := Down(r, 1);
      }
      i := i + 1;
    }
  }

  // Repainting changed rows

  /** What a row holds once the images of the changed rows were deleted. */
  function DeletedRow(prev: seq<Line>, c: Range, k: int): Row {
    var row := Shown(LineAt(prev, k));
    if c.first <= k <= c.last then Row(row.cells, {}) else row
  }

  /** A row when the rows before `i` are repainted. */
  function MixedRow(prev: seq<Line>, next: seq<Line>, c: Range, i: int, k: int): Row {
    if k < i then Shown(LineAt(next, k)) else DeletedRow(prev, c, k)
  }

  /** Repainting has reached row `i`, with the cursor in row `at` of a window that
      started at `base` and scrolled no further than the cursor made it. */
  ghost predicate Mixed(s: Screen, prev: seq<Line>, next: seq<Line>, c: Range, i: int, at: nat, base: nat) {
    && s.exact
    && s.At() == at
    && s.top == Max(base, at - s.height + 1)
    && |prev| <= |s.rows|
    && forall k :: 0 <= k < |s.rows| ==> s.rows[k] == MixedRow(prev, next, c, i, k)
  }

  lemma MixedIdsAbsent(s: Screen, prev: seq<Line>, next: seq<Line>, c: Range, i: nat, at: nat, base: nat)
    requires Mixed(s, prev, next, c, i, at, base)
    requires AgreeOutside(prev, next, c) && DistinctIds(next)
    requires c.first <= i <= c.last && i < |next|
    ensures IdsAbsent(s, next[i])
  {
    forall k | 0 <= k < |s.rows| ensures s.rows[k].images !! Ids(next[i]) {
      assert s.rows[k] == MixedRow(prev, next, c, i, k);
      assert LineAt(prev, k) == LineAt(next, k) || c.first <= k <= c.last;
    }
  }

  /** The cursor before row `i` is painted: already there for the first row, else one above. */
  function Before(c: Range, i: nat): nat {
    if i == 0 || i == c.first then i else i - 1
  }

  /** Goes to the row to be painted. */
  method NextMixedRow(s: Screen, prev: seq<Line>, next: seq<Line>, c: Range, i: nat, base: nat) returns (r: Screen)
    requires 0 <= c.first <= i && (i == c.first ==> s.col == 0)
    requires Mixed(s, prev, next, c, i, Before(c, i), base)
    ensures Mixed(r, prev, next, c, i, i, base) && SameDevice(s, r) && r.col == 0
  {
    r := if i > c.first then NewLine(s) else s;
  }

  /** Repaints one line. */
  method PaintOne(s: Screen, prev: seq<Line>, next: seq<Line>, c: Range, i: nat, base: nat) returns (r: Screen)
    requires Mixed(s, prev, next, c, i, i, base) && s.col == 0
    requires AgreeOutside(prev, next, c) && DistinctIds(next)
    requires c.first <= i <= c.last && i < |next|
    requires LineFits(next[i], s.columns)
    ensures Mixed(r, prev, next, c, i + 1, i, base) && SameDevice(s, r)
  {
    MixedIdsAbsent(s, prev, next, c, i, i, base);
    r := EraseLine(s);
    assert r.rows[i] == BlankRow;
    PrintPlaces(r, next[i]);
    r := Print(r, next[i]);
  }

  /** Repaints an image block: erase its rows, go back up, place the image, go down again. */
  method PaintBlock(s: Screen, prev: seq<Line>, next: seq<Line>, c: Range, i: nat, base: nat, k: nat) returns (r: Screen)
    requires Mixed(s, prev, next, c, i, i, base)
    requires AgreeOutside(prev, next, c) && DistinctIds(next)
    requires 1 < k && c.first <= i && i + k - 1 <= c.last && i + k <= |next| && next[i].Image?
    requires base <= i && i - base + k <= s.height
    requires forall j {:trigger LineAt(next, j)} :: i < j < i + k ==> IsBlank(LineAt(next, j))
    ensures Mixed(r, prev, next, c, i + k, i + k - 1, base) && SameDevice(s, r)
  {
    MixedIdsAbsent(s, prev, next, c, i, i, base);
    r := EraseLine(s);
    r := EraseBelow(r, k - 1);
    assert forall j :: i <= j < i + k ==> r.rows[j] == BlankRow;
    r := PlaceAbove(r, next[i], k - 1);
    forall j | 0 <= j < |r.rows| ensures r.rows[j] == MixedRow(prev, next, c, i + k, j) {
      if i < j < i + k { assert IsBlank(LineAt(next, j)); }
    }
  }

  /** Some image of the changed rows has a block that reaches below the window. */
  ghost predicate BlockTooTall(next: seq<Line>, first: nat, end: int, base: int, height: nat) {
    exists i :: first <= i <= end && TooTall(next, i, end, base, height)
  }

  ghost predicate TooTall(next: seq<Line>, i: nat, end: int, base: int, height: nat) {
    && i < |next| && next[i].Image?
    && Reserved(next, i, end) > 1
    && i - base + Reserved(next, i, end) > height
  }

  /** Row `k` is the first that does not fit, ahead of any block that is too tall. */
  ghost predicate OverflowsAt(next: seq<Line>, first: nat, end: int, base: int, height: nat, width: nat, k: int) {
    && first <= k <= end && k < |next| && !LineFits(next[k], width)
    && forall j :: first <= j < k ==> LineFits(next[j], width) && !TooTall(next, j, end, base, height)
  }

  ghost predicate Overflowing(next: seq<Line>, first: nat, end: int, base: int, height: nat, width: nat) {
    exists k :: OverflowsAt(next, first, end, base, height, width, k)
  }

  datatype PaintEnd = Finished | WouldScroll | Overflows(line: nat)

  /** Goes to row `i` and repaints it, with the `k - 1` rows below when it starts an image block. */
  method PaintNext(s: Screen, prev: seq<Line>, next: seq<Line>, c: Range, i: nat, base: nat, k: nat) returns (r: Screen)
    requires 0 <= c.first <= i < |next| && 0 < k && i + k - 1 <= c.last
    requires Mixed(s, prev, next, c, i, Before(c, i), base) && (i == c.first ==> s.col == 0)
    requires AgreeOutside(prev, next, c) && DistinctIds(next)
    requires LineFits(next[i], s.columns) && (next[i].Text? ==> k == 1)
    requires k > 1 ==> i + k <= |next| && base <= i && i - base + k <= s.height
    requires forall j {:trigger LineAt(next, j)} :: i < j < i + k ==> IsBlank(LineAt(next, j))
    ensures Mixed(r, prev, next, c, i + k, i + k - 1, base) && SameDevice(s, r)
  {
    r := NextMixedRow(s, prev, next, c, i, base);
    if k > 1 {
      r := PaintBlock(r, prev, next, c, i, base, k);
    } else {
      r := PaintOne(r, prev, next, c, i, base);
    }
  }

  /** Repaints rows `c.first` to `end`; gives up before an image block that would scroll the
      window, and on a line wider than the terminal. */
  method PaintRows(s: Screen, prev: seq<Line>, next: seq<Line>, c: Range, end: nat, base: nat)
    returns (r: Screen, outcome: PaintEnd)
    requires 0 <= c.first <= end <= c.last && end < |next| && base <= c.first
    requires Mixed(s, prev, next, c, c.first, c.first, base) && s.col == 0
    requires AgreeOutside(prev, next, c) && DistinctIds(next)
    ensures outcome.Overflows? <==> Overflowing(next, c.first, end, base, s.height, s.columns)
    ensures outcome.Overflows? ==> OverflowsAt(next, c.first, end, base, s.height, s.columns, outcome.line)
    ensures !outcome.Overflows? ==> (outcome.WouldScroll? <==> BlockTooTall(next, c.first, end, base, s.height))
    ensures outcome.Finished? ==> Mixed(r, prev, next, c, end + 1, end, base) && SameDevice(s, r)
    ensures outcome.Finished? ==> forall j :: c.first <= j <= end ==> LineFits(next[j], s.columns)
  {
    r := s;
    var i: nat := c.first;
    while i <= end
      invariant c.first <= i <= end + 1
      invariant Mixed(r, prev, next, c, i, Before(c, i), base) && SameDevice(s, r)
      invariant i == c.first ==> r.col == 0
      invariant forall j :: c.first <= j < i ==> !TooTall(next, j, end, base, s.height) && LineFits(next[j], s.columns)
    {
      var reserved := 1;
      if next[i].Image? {
        reserved := ReservedRows(next, i, end);
      }
      if reserved > 1 {
        var startRow := i - base;
        if startRow < 0 || startRow + reserved > r.height {
          assert TooTall(next, i, end, base, s.height);
          return r, WouldScroll;
        }
      } else if next[i].Text? && VisibleWidth(next[i]) > r.columns {
        assert OverflowsAt(next, c.first, end, base, s.height, s.columns, i);
        return r, Overflows(i);
      }
      r := PaintNext(r, prev, next, c, i, base, reserved);
      forall j | i <= j < i + reserved ensures !TooTall(next, j, end, base, s.height) && LineFits(next[j], s.columns) {
        assert i < j ==> IsBlank(LineAt(next, j));
      }
      i := i + reserved;
    }
    outcome := Finished;
  }

  /** Brings the cursor to the target row, scrolling when it lies below the window. */
  method Seek(s: Screen, from: nat, target: nat) returns (r: Screen)
    requires s.At() == from && s.top <= target
    ensures r.At() == target && SameDevice(s, r)
    ensures r.top == Max(s.top, target - s.height + 1)
    ensures forall k :: 0 <= k < |s.rows| ==> r.rows[k] == s.rows[k]
    ensures forall k :: |s.rows| <= k < |r.rows| ==> r.rows[k] == BlankRow
  {
    r := s;
    var bottom := s.top + s.height - 1;
    var cursorRow := from;
    if target > bottom {
      var currentScreenRow := Max(0, Min(s.height - 1, cursorRow - s.top));
      var moveToBottom := s.height - 1 - currentScreenRow;
      if moveToBottom > 0 {
        r := Down(r, moveToBottom);
      }
      r := FeedLines(r, target - bottom);
      cursorRow := target;
    }
    r := MoveTo(r, cursorRow, target);
  }

  // The two incremental paths

  /** Deleting the images of the changed rows leaves those of the other rows. */
  lemma DeletedRows(s: Screen, prev: seq<Line>, c: Range, ids: set<nat>)
    requires Shows(s, prev) && DistinctIds(prev) && 0 <= c.first
    requires ids == IdsIn(prev, c.first, c.last + 1)
    ensures forall k :: 0 <= k < |s.rows| ==> DeleteImages(s, ids).rows[k] == DeletedRow(prev, c, k)
  {
    forall k | 0 <= k < |s.rows| ensures Row(s.rows[k].cells, s.rows[k].images - ids) == DeletedRow(prev, c, k) {
      if k < |prev| && !(c.first <= k <= c.last) {
        assert s.rows[k].images - ids == s.rows[k].images;
      } else {
        assert forall id :: id in s.rows[k].images ==> k < |prev| && id in Ids(prev[k]);
        assert s.rows[k].images - ids == {};
      }
    }
  }

  /** All changes are in lines that went away: erase them without scrolling. */
  method EraseTail(s: Screen, prev: seq<Line>, next: seq<Line>, c: Range, from: nat) returns (r: Screen)
    requires s.exact && s.At() == from && Shows(s, prev) && DistinctIds(prev)
    requires |next| < |prev| && |next| <= c.first && AgreeOutside(prev, next, c)
    requires s.top <= Max(0, |next| - 1)
    ensures Shows(r, next) && r.At() == Max(0, |next| - 1)
    ensures SameDevice(s, r) && r.top == s.top
    ensures next == [] ==> r.row == 0 && r.col == 0
  {
    var ids := CollectImageIds(prev, c.first, c.last + 1);
    DeletedRows(s, prev, c, ids);
    r := DeleteImages(s, ids);
    var targetRow := Max(0, |next| - 1);
    r := MoveTo(r, from, targetRow);
    r := CarriageReturn(r);
    var extraLines := |prev| - |next|;
    var clearStartOffset := if |next| == 0 then 0 else 1;
    if extraLines > 0 && clearStartOffset > 0 {
      r := Down(r, clearStartOffset);
    }
    r := EraseRows(r, extraLines);
    var moveBack := Max(0, extraLines - 1 + clearStartOffset);
    if moveBack > 0 {
      r := Up(r, moveBack);
    }
    forall k | 0 <= k < |r.rows| ensures r.rows[k] == Shown(LineAt(next, k)) {
      assert LineAt(prev, k) == LineAt(next, k) || c.first <= k <= c.last;
    }
  }

  /** The row the cursor must reach before painting starts. */
  function TargetRow(prev: seq<Line>, next: seq<Line>, c: Range): int {
    if |next| > |prev| && c.first == |prev| && c.first > 0 then c.first - 1 else c.first
  }

  /** The first row of the window after reaching the target. */
  function BaseRow(top: nat, target: int, height: nat): nat {
    Max(top, target - height + 1)
  }

  /** Deletes the images of the changed rows and goes to the start of the first of them. */
  method StartPaint(s: Screen, prev: seq<Line>, next: seq<Line>, c: Range, from: nat) returns (r: Screen)
    requires s.exact && s.At() == from && Shows(s, prev) && DistinctIds(prev)
    requires AgreeOutside(prev, next, c) && 0 <= c.first < |next| && s.top <= TargetRow(prev, next, c)
    ensures Mixed(r, prev, next, c, c.first, c.first, BaseRow(s.top, TargetRow(prev, next, c), s.height))
    ensures SameDevice(s, r) && r.col == 0
  {
    var ids := CollectImageIds(prev, c.first, c.last + 1);
    DeletedRows(s, prev, c, ids);
    r := DeleteImages(s, ids);
    var appendStart := |next| > |prev| && c.first == |prev| && c.first > 0;
    r := Seek(r, from, if appendStart then c.first - 1 else c.first);
    ghost var sought := r;
    r := if appendStart then NewLine(r) else CarriageReturn(r);
    MixedAtStart(s, sought, prev, next, c, r);
  }

  /** From the target row to the first changed one: the same row, or the next when appending. */
  lemma MixedAtStart(s: Screen, sought: Screen, prev: seq<Line>, next: seq<Line>, c: Range, r: Screen)
    requires AgreeOutside(prev, next, c) && 0 <= c.first < |next| && |prev| <= |s.rows| && s.exact
    requires s.top <= TargetRow(prev, next, c) == sought.At() && SameDevice(s, sought)
    requires sought.top == BaseRow(s.top, TargetRow(prev, next, c), s.height)
    requires forall k :: 0 <= k < |s.rows| <= |sought.rows| ==> sought.rows[k] == DeletedRow(prev, c, k)
    requires forall k :: |s.rows| <= k < |sought.rows| ==> sought.rows[k] == BlankRow
    requires r == if TargetRow(prev, next, c) == c.first then CarriageReturn(sought) else NewLine(sought)
    ensures Mixed(r, prev, next, c, c.first, c.first, BaseRow(s.top, TargetRow(prev, next, c), s.height))
    ensures SameDevice(s, r) && r.col == 0
  {
    forall k | 0 <= k < |r.rows| ensures r.rows[k] == MixedRow(prev, next, c, c.first, k) {
      assert k < c.first ==> LineAt(prev, k) == LineAt(next, k);
    }
  }

  /** After painting: clears the rows a longer previous frame leaves below, and comes back to
      the end of the new content. */
  method ClearBelow(s: Screen, prev: seq<Line>, next: seq<Line>, c: Range, renderEnd: nat, base: nat)
    returns (r: Screen, finalCursorRow: nat)
    requires Mixed(s, prev, next, c, renderEnd + 1, renderEnd, base)
    requires AgreeOutside(prev, next, c) && renderEnd == Min(c.last, |next| - 1)
    requires |next| > |prev| ==> c.last == |next| - 1
    requires |next| < |prev| ==> |prev| <= base + s.height
    requires base <= renderEnd
    ensures finalCursorRow == if |prev| > |next| then |next| - 1 else renderEnd
    ensures Shows(r, next) && r.At() == finalCursorRow && SameDevice(s, r)
    ensures r.top == Max(base, finalCursorRow - s.height + 1)
  {
    r, finalCursorRow := s, renderEnd;
    if |prev| > |next| {
      if renderEnd < |next| - 1 {
        r := Down(r, |next| - 1 - renderEnd);
        finalCursorRow := |next| - 1;
      }
      var extraLines := |prev| - |next|;
      r := EraseBelow(r, extraLines);
      r := Up(r, extraLines);
    }
    forall k | 0 <= k < |r.rows| ensures r.rows[k] == Shown(LineAt(next, k)) {
      assert LineAt(prev, k) == LineAt(next, k) || c.first <= k <= c.last;
    }
  }
}
