/** A character terminal: scrollback above a window of `height` rows, a cursor,
    and image placements anchored to rows.

    The control functions follow ECMA-48 (CUU 8.3.22, CUD 8.3.19, EL 8.3.41,
    ED 8.3.39, CUP 8.3.21, CHA 8.3.9); erasing the scrollback and the image
    commands are terminal extensions. */
module Terminal {

  datatype Cell = Cell(glyph: char, style: nat)

  /** One rendered line: its bytes and what those bytes put on a row.
      An image line draws nothing but its placements, and does not move the cursor. */
  datatype Line =
    | Text(raw: string, cells: seq<Cell>)
    | Image(raw: string, ids: set<nat>, rows: nat)

  /** The empty string, which the renderer compares missing lines with. */
  const EmptyLine: Line := Text("", [])

  datatype Row = Row(cells: seq<Cell>, images: set<nat>)

  const BlankRow: Row := Row([], {})

  function Shown(line: Line): Row {
    match line
    case Text(_, cells) => Row(cells, {})
    case Image(_, ids, _) => Row([], ids)
  }

  function Ids(line: Line): set<nat> {
    if line.Image? then line.ids else {}
  }

  function VisibleWidth(line: Line): nat {
    if line.Image? then 0 else |line.cells|
  }

  /** `rows` is the scrollback (`top` rows) followed by the window (`height` rows).
      `exact` is false once a relative move was clamped at an edge, or text was
      printed over text, away from column 0, or past the right margin. */
  datatype Terminal = Terminal(
    columns: nat,
    height: nat,
    rows: seq<Row>,
    top: nat,
    row: nat,
    col: nat,
    visible: bool,
    exact: bool)
  {
    predicate Wf() {
      0 < columns && 0 < height && |rows| == top + height && row < height
    }

    /** The row under the cursor, counted from the first scrollback row. */
    function At(): nat { top + row }
  }

  type Screen = t: Terminal | t.Wf() witness Terminal(1, 1, [BlankRow], 0, 0, 0, true, true)

  function Max(a: int, b: int): int { if a < b then b else a }
  function Min(a: int, b: int): int { if a < b then a else b }

  function WithoutImages(rows: seq<Row>, ids: set<nat>): (r: seq<Row>)
    ensures |r| == |rows|
    ensures forall k :: 0 <= k < |rows| ==> r[k] == Row(rows[k].cells, rows[k].images - ids)
  {
    seq(|rows|, k requires 0 <= k < |rows| => Row(rows[k].cells, rows[k].images - ids))
  }

  // Control functions

  function CarriageReturn(s: Screen): Screen {
    s.(col := 0)
  }

  /** CR LF: the next row, scrolling a blank one in at the bottom of the window. */
  function NewLine(s: Screen): Screen {
    if s.row + 1 < s.height then
      s.(row := s.row + 1, col := 0)
    else
      s.(rows := s.rows + [BlankRow], top := s.top + 1, col := 0)
  }

  /** CUU; a parameter of 0 means 1. */
  function Up(s: Screen, n: nat): Screen {
    var d := Max(1, n);
    if d <= s.row then s.(row := s.row - d) else s.(row := 0, exact := false)
  }

  /** CUD; a parameter of 0 means 1. */
  function Down(s: Screen, n: nat): Screen {
    var d := Max(1, n);
    if s.row + d < s.height then s.(row := s.row + d) else s.(row := s.height - 1, exact := false)
  }

  /** CHA; columns count from 1. */
  function ToColumn(s: Screen, n: nat): Screen {
    s.(col := Min(Max(1, n), s.columns) - 1)
  }

  function Home(s: Screen): Screen {
    s.(row := 0, col := 0)
  }

  function EraseLine(s: Screen): Screen {
    s.(rows := s.rows[s.At() := Row([], s.rows[s.At()].images)])
  }

  /** Erases the text of the window; image placements stay until they are deleted. */
  function EraseWindow(s: Screen): Screen {
    s.(rows := seq(|s.rows|, k requires 0 <= k < |s.rows| =>
      if k < s.top then s.rows[k] else Row([], s.rows[k].images)))
  }

  function EraseScrollback(s: Screen): Screen {
    s.(rows := s.rows[s.top..], top := 0)
  }

  function SetCursor(s: Screen, visible: bool): Screen {
    s.(visible := visible)
  }

  /** One delete command per id, in any order. */
  function DeleteImages(s: Screen, ids: set<nat>): Screen {
    s.(rows := WithoutImages(s.rows, ids))
  }

  /** Writing a line. Transmitting an image whose id is already displayed moves it. */
  function Print(s: Screen, line: Line): Screen {
    var here := s.rows[s.At()];
    match line
    case Text(_, cells) =>
      s.(rows := s.rows[s.At() := Row(cells, here.images)],
         col := |cells|,
         exact := s.exact && s.col == 0 && here.cells == [] && |cells| <= s.columns)
    case Image(_, ids, _) =>
      s.(rows := WithoutImages(s.rows, ids)[s.At() := Row(here.cells, here.images + ids)])
  }
}
