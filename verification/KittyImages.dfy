/** Which rows of a frame an image block occupies, and how a changed range is
    widened so that no block is repainted in part. */
module KittyImages {
  import opened Terminal

  function LineAt(lines: seq<Line>, k: int): Line {
    if 0 <= k < |lines| then lines[k] else EmptyLine
  }

  predicate IsBlank(line: Line) { line.Text? && |line.cells| == 0 }

  function ImageRows(line: Line): nat { if line.Image? then line.rows else 1 }

  function ReservedFrom(lines: seq<Line>, index: nat, k: nat, maxRows: int): (r: nat)
    ensures k <= r && r <= Max(k, maxRows)
    ensures forall j {:trigger LineAt(lines, j)} :: index + k <= j < index + r ==> IsBlank(LineAt(lines, j))
    ensures r < maxRows ==> !IsBlank(LineAt(lines, index + r))
    decreases maxRows - k
  {
    if k < maxRows && IsBlank(LineAt(lines, index + k)) then ReservedFrom(lines, index, k + 1, maxRows) else k
  }

  /** Rows the image at `index` reserves: itself and the blank lines below it,
      up to its declared height, `maxIndex` and the end of the frame. */
  function Reserved(lines: seq<Line>, index: nat, maxIndex: int): (r: nat)
    ensures 1 <= r
    ensures r > 1 ==> index + r - 1 <= maxIndex && index + r <= |lines| && r <= ImageRows(LineAt(lines, index))
    ensures forall j {:trigger LineAt(lines, j)} :: index < j < index + r ==> IsBlank(LineAt(lines, j))
  {
    var rows := ImageRows(LineAt(lines, index));
    if rows <= 1 then 1
    else ReservedFrom(lines, index, 1, Min(rows, Min(maxIndex - index + 1, |lines| - index)))
  }

  /** Last row of the block of the image at `index` of a whole frame. */
  function BlockEnd(lines: seq<Line>, index: nat): nat {
    index + Reserved(lines, index, |lines| - 1) - 1
  }

  datatype Range = Range(first: int, last: int)

  /** First and last of the rows below `n` on which two frames differ, -1 when there is none. */
  function Scan(prev: seq<Line>, next: seq<Line>, n: nat): Range {
    if n == 0 then Range(-1, -1)
    else
      var r := Scan(prev, next, n - 1);
      if LineAt(prev, n - 1) != LineAt(next, n - 1)
      then Range(if r.first == -1 then n - 1 else r.first, n - 1)
      else r
  }

  function Expand(lines: seq<Line>, seen: Range, n: nat, acc: Range): Range {
    if n == 0 then acc
    else
      var i := n - 1;
      var r := Expand(lines, seen, i, acc);
      if Ids(LineAt(lines, i)) == {} then r
      else
        var end := BlockEnd(lines, i);
        if i >= seen.first || (i <= seen.last && end >= seen.first)
        then Range(Min(r.first, i), Max(r.last, end))
        else r
  }

  function DiffRange(prev: seq<Line>, next: seq<Line>): Range {
    var r := Scan(prev, next, Max(|prev|, |next|));
    if |next| > |prev| then Range(if r.first == -1 then |prev| else r.first, |next| - 1) else r
  }

  function ExpandedRange(prev: seq<Line>, next: seq<Line>, r: Range): Range {
    Expand(next, r, |next|, Expand(prev, r, |prev|, r))
  }

  /** The rows the renderer treats as changed. */
  function ChangedRange(prev: seq<Line>, next: seq<Line>): Range {
    var r := DiffRange(prev, next);
    if r.first == -1 then r else ExpandedRange(prev, next, r)
  }

  ghost predicate AgreeOutside(prev: seq<Line>, next: seq<Line>, r: Range) {
    forall k {:trigger LineAt(prev, k)} {:trigger LineAt(next, k)} ::
      k < r.first || r.last < k ==> LineAt(prev, k) == LineAt(next, k)
  }

  lemma {:induction false} ScanFinds(prev: seq<Line>, next: seq<Line>, n: nat)
    ensures var r := Scan(prev, next, n);
            if r.first == -1 then
              r.last == -1 && forall k :: k < n ==> LineAt(prev, k) == LineAt(next, k)
            else
              && 0 <= r.first <= r.last < n
              && LineAt(prev, r.first) != LineAt(next, r.first)
              && LineAt(prev, r.last) != LineAt(next, r.last)
              && (forall k :: k < r.first || r.last < k < n ==> LineAt(prev, k) == LineAt(next, k))
  {
    if n > 0 {
      ScanFinds(prev, next, n - 1);
    }
  }

  /** The range before widening: nothing differs outside it, it starts on a difference
      or at the end of the previous frame, and it reaches the end of a longer new frame. */
  lemma DiffRangeFinds(prev: seq<Line>, next: seq<Line>)
    ensures var r := DiffRange(prev, next);
            if r.first == -1 then
              |next| <= |prev| && forall k :: LineAt(prev, k) == LineAt(next, k)
            else
              && 0 <= r.first <= r.last < Max(|prev|, |next|)
              && AgreeOutside(prev, next, r)
              && (if |next| > |prev| then r.last == |next| - 1 else LineAt(prev, r.last) != LineAt(next, r.last))
              && (LineAt(prev, r.first) != LineAt(next, r.first)
                  || (r.first == |prev| < |next| && forall k :: LineAt(prev, k) == LineAt(next, k)))
  {
    ScanFinds(prev, next, Max(|prev|, |next|));
  }

  lemma {:induction false} ExpandCovers(lines: seq<Line>, seen: Range, n: nat, acc: Range)
    requires n <= |lines|
    requires 0 <= acc.first <= acc.last
    ensures var r := Expand(lines, seen, n, acc);
            && 0 <= r.first <= acc.first && acc.last <= r.last
            && r.last < Max(|lines|, acc.last + 1)
            && (forall i :: Touches(lines, seen, n, i) ==> r.first <= i && BlockEnd(lines, i) <= r.last)
            && (r.first == acc.first || Touches(lines, seen, n, r.first))
            && (r.last == acc.last || exists i :: Touches(lines, seen, n, i) && BlockEnd(lines, i) == r.last)
  {
    if n > 0 {
      ExpandCovers(lines, seen, n - 1, acc);
      var i := n - 1;
      if Ids(lines[i]) != {} && (i >= seen.first || (i <= seen.last && BlockEnd(lines, i) >= seen.first)) {
        assert Touches(lines, seen, n, i);
      }
      forall j | Touches(lines, seen, n, j) ensures j == i || Touches(lines, seen, n - 1, j) {}
      forall j | Touches(lines, seen, n - 1, j) ensures Touches(lines, seen, n, j) {}
    }
  }

  /** The image at `i` pulls its block into the changed range. */
  ghost predicate Touches(lines: seq<Line>, seen: Range, n: nat, i: int) {
    && 0 <= i < n <= |lines|
    && Ids(lines[i]) != {}
    && (i >= seen.first || (i <= seen.last && BlockEnd(lines, i) >= seen.first))
  }

  /** Widening only grows the range, and stays inside the two frames. */
  lemma ChangedRangeFinds(prev: seq<Line>, next: seq<Line>)
    ensures var d, r := DiffRange(prev, next), ChangedRange(prev, next);
            if d.first == -1 then r == d
            else
              && 0 <= r.first <= d.first && d.last <= r.last < Max(|prev|, |next|)
              && AgreeOutside(prev, next, r)
              && (|next| > |prev| ==> r.last == |next| - 1)
              && (forall i :: Touches(prev, d, |prev|, i) ==> r.first <= i && BlockEnd(prev, i) <= r.last)
              && (forall i :: Touches(next, d, |next|, i) ==> r.first <= i && BlockEnd(next, i) <= r.last)
              && (r.first == d.first || Touches(prev, d, |prev|, r.first) || Touches(next, d, |next|, r.first))
              && (r.last == d.last || (exists i :: Touches(prev, d, |prev|, i) && BlockEnd(prev, i) == r.last)
                                   || (exists i :: Touches(next, d, |next|, i) && BlockEnd(next, i) == r.last))
  {
    DiffRangeFinds(prev, next);
    var d := DiffRange(prev, next);
    if d.first != -1 {
      ExpandCovers(prev, d, |prev|, d);
      ExpandCovers(next, d, |next|, Expand(prev, d, |prev|, d));
    }
  }

  /** What the renderer's branches rest on. */
  lemma ChangedRangeBounds(prev: seq<Line>, next: seq<Line>)
    ensures var r := ChangedRange(prev, next);
            if r.first == -1 then |next| <= |prev| && forall k :: LineAt(prev, k) == LineAt(next, k)
            else
              && 0 <= r.first <= r.last && AgreeOutside(prev, next, r)
              && (if |next| > |prev| then r.last == |next| - 1 else r.last < |prev|)
  {
    ChangedRangeFinds(prev, next);
    DiffRangeFinds(prev, next);
  }

  /** Rows `i` to `j` belong to the image on row `i`: its own row, and blank rows below it within its
      height. */
  ghost predicate Block(lines: seq<Line>, i: int, j: int) {
    && 0 <= i <= j < |lines| && lines[i].Image?
    && (i < j ==> j - i < lines[i].rows)
    && forall k :: i < k <= j ==> lines[k].Text? && lines[k].cells == []
  }

  /** No more rows can be reserved: the next one is past the image's height, the limit or the frame,
      or is not blank. */
  lemma ReservedIsMaximal(lines: seq<Line>, index: nat, maxIndex: int)
    requires index < |lines| && lines[index].Image?
    ensures var r := Reserved(lines, index, maxIndex);
            && Block(lines, index, index + r - 1) && (r > 1 ==> index + r - 1 <= maxIndex)
            && (r >= lines[index].rows || index + r > maxIndex || !Block(lines, index, index + r))
  {
    var r := Reserved(lines, index, maxIndex);
    forall k | index < k < index + r ensures lines[k].Text? && lines[k].cells == [] {
      assert IsBlank(LineAt(lines, k));
    }
    if index + r < |lines| && index + r <= maxIndex && r < lines[index].rows {
      assert !IsBlank(LineAt(lines, index + r));
    }
  }

  /** The block of an image ends with the last row that belongs to it. */
  lemma BlockRows(lines: seq<Line>, i: nat, j: int)
    requires i < |lines| && lines[i].Image?
    ensures Block(lines, i, j) <==> i <= j <= BlockEnd(lines, i)
  {
    ReservedIsMaximal(lines, i, |lines| - 1);
    var end := BlockEnd(lines, i);
    if Block(lines, i, j) && j > end {
      assert Block(lines, i, end + 1);
    }
  }

  ghost predicate BlockOfId(lines: seq<Line>, i: int, j: int) {
    Block(lines, i, j) && lines[i].ids != {}
  }

  /** No image block of the previous or of the new frame is split by the changed range:
      a block lies above the range or inside it. */
  lemma NoBlockIsSplit(prev: seq<Line>, next: seq<Line>, i: int, j: int)
    requires ChangedRange(prev, next).first != -1
    requires BlockOfId(prev, i, j) || BlockOfId(next, i, j)
    ensures Unsplit(ChangedRange(prev, next), i, j)
  {
    NoWholeBlockIsSplit(prev, next, i);
    if BlockOfId(prev, i, j) { BlockRows(prev, i, j); }
    if BlockOfId(next, i, j) { BlockRows(next, i, j); }
  }

  lemma NoWholeBlockIsSplit(prev: seq<Line>, next: seq<Line>, i: nat)
    requires ChangedRange(prev, next).first != -1
    ensures i < |prev| && Ids(prev[i]) != {} ==> Unsplit(ChangedRange(prev, next), i, BlockEnd(prev, i))
    ensures i < |next| && Ids(next[i]) != {} ==> Unsplit(ChangedRange(prev, next), i, BlockEnd(next, i))
  {
    ChangedRangeFinds(prev, next);
    DiffRangeFinds(prev, next);
    var d, r := DiffRange(prev, next), ChangedRange(prev, next);
    if i < |prev| && Ids(prev[i]) != {} && !Touches(prev, d, |prev|, i) && r.first != d.first {
      BlockStaysAbove(prev, prev, d, i, r.first);
      BlockStaysAbove(prev, next, d, i, r.first);
    }
    if i < |next| && Ids(next[i]) != {} && !Touches(next, d, |next|, i) && r.first != d.first {
      BlockStaysAbove(next, prev, d, i, r.first);
      BlockStaysAbove(next, next, d, i, r.first);
    }
  }

  ghost predicate Unsplit(r: Range, first: int, last: int) {
    last < r.first || (r.first <= first && last <= r.last)
  }

  /** A block untouched in frame `a` cannot overlap one of frame `b` that was pulled in,
      because the frames agree above the first difference. */
  lemma BlockStaysAbove(a: seq<Line>, b: seq<Line>, d: Range, i: nat, s: nat)
    requires 0 <= d.first <= d.last
    requires forall k {:trigger LineAt(a, k)} {:trigger LineAt(b, k)} :: k < d.first ==> LineAt(a, k) == LineAt(b, k)
    requires i < |a| && Ids(a[i]) != {} && !Touches(a, d, |a|, i)
    ensures Touches(b, d, |b|, s) && s < d.first && s != i ==> BlockEnd(a, i) < s
  {
    assert i < s <= BlockEnd(a, i) ==> IsBlank(LineAt(a, s));
    assert Touches(b, d, |b|, s) && s < i <= BlockEnd(b, s) ==> IsBlank(LineAt(b, i));
    assert s < d.first ==> LineAt(a, s) == LineAt(b, s);
    assert i < d.first ==> LineAt(a, i) == LineAt(b, i);
  }

  // The same computed by loops

  method ReservedRows(lines: seq<Line>, index: nat, maxIndex: int) returns (r: nat)
    ensures r == Reserved(lines, index, maxIndex)
  {
    var rows := ImageRows(LineAt(lines, index));
    if rows <= 1 { return 1; }
    var maxRows := Min(rows, Min(maxIndex - index + 1, |lines| - index));
    r := 1;
    while r < maxRows
      invariant ReservedFrom(lines, index, r, maxRows) == ReservedFrom(lines, index, 1, maxRows)
      decreases maxRows - r
    {
      var line := LineAt(lines, index + r);
      if line.Image? || VisibleWidth(line) > 0 { break; }
      r := r + 1;
    }
  }

  method FindChanges(prev: seq<Line>, next: seq<Line>) returns (r: Range)
    ensures r == DiffRange(prev, next)
  {
    var firstChanged, lastChanged := -1, -1;
    var maxLines := Max(|next|, |prev|);
    for i := 0 to maxLines
      invariant Range(firstChanged, lastChanged) == Scan(prev, next, i)
    {
      if LineAt(prev, i) != LineAt(next, i) {
        if firstChanged == -1 { firstChanged := i; }
        lastChanged := i;
      }
    }
    if |next| > |prev| {
      if firstChanged == -1 { firstChanged := |prev|; }
      lastChanged := |next| - 1;
    }
    r := Range(firstChanged, lastChanged);
  }

  method ExpandForLines(lines: seq<Line>, seen: Range, acc: Range) returns (r: Range)
    ensures r == Expand(lines, seen, |lines|, acc)
  {
    r := acc;
    for i := 0 to |lines|
      invariant r == Expand(lines, seen, i, acc)
    {
      if Ids(lines[i]) != {} {
        var reserved := ReservedRows(lines, i, |lines| - 1);
        var blockEnd := i + reserved - 1;
        if i >= seen.first || (i <= seen.last && blockEnd >= seen.first) {
          r := Range(Min(r.first, i), Max(r.last, blockEnd));
        }
      }
    }
  }

  method FindChangedRange(prev: seq<Line>, next: seq<Line>) returns (r: Range)
    ensures r == ChangedRange(prev, next)
  {
    r := FindChanges(prev, next);
    if r.first != -1 {
      var seen := r;
      r := ExpandForLines(prev, seen, r);
      r := ExpandForLines(next, seen, r);
    }
  }

  /** Ids of the images on rows `from` up to `to`. */
  ghost function IdsIn(lines: seq<Line>, from: int, to: int): set<nat> {
    set k, id | from <= k < to && 0 <= k < |lines| && id in Ids(lines[k]) :: id
  }

  method CollectImageIds(lines: seq<Line>, from: nat, to: int) returns (ids: set<nat>)
    ensures ids == IdsIn(lines, from, to)
  {
    ids := {};
    var i := from;
    var end := Min(to, |lines|);
    while i < end
      invariant from <= i && (i <= end || i == from)
      invariant ids == IdsIn(lines, from, i)
    {
      ids := ids + Ids(lines[i]);
      i := i + 1;
    }
  }
}
