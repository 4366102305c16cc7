/** The grid side of the overhead map (world/handlers/map.py): the template
    strings the grid is cut from, the grid itself, the connector writes of
    `draw_exit`, the centre slot of `start_loc_on_grid`, the rendering of
    `show_map`, and the room-size rule that picks a combat template.

    A grid is Python's list of lists: one list per template line, one string
    per cell. Cells start as single characters and are overwritten with glyph
    strings, so a cell is a `Glyph` (an opaque string). Positions are
    `(row, column)` pairs: `Map` writes `grid[curX][curY]`, so `curX` is the row. */
module MapGrid {
  import opened Wrappers
  import opened Text

  type Glyph = string
  type Grid = seq<seq<Glyph>>
  type Pos = (int, int)

  // ---------------------------------------------------------------------
  // Templates and coordinate lists (world/handlers/map.py:33-174, 449-482)
  // ---------------------------------------------------------------------

  /** The 21 lines of the observer's diamond-shaped view. */
  const BASE_MAP_LINES: seq<string> := [
      "█████████████████████",
      "██████████·██████████",
      "████████·····████████",
      "████████·····████████",
      "██████·········██████",
      "██████·········██████",
      "████·············████",
      "████·············████",
      "██·················██",
      "██·················██",
      "█·········@·········█",
      "██·················██",
      "██·················██",
      "████·············████",
      "████·············████",
      "██████·········██████",
      "██████·········██████",
      "████████·····████████",
      "████████·····████████",
      "██████████·██████████",
      "█████████████████████"
    ]

  const LARGE_COMBAT_MAP_LINES: seq<string> := [
      "█████████████████████",
      "█···················█",
      "█···················█",
      "█···················█",
      "█···················█",
      "█···················█",
      "█···················█",
      "█···················█",
      "█···················█",
      "█···················█",
      "█·········@·········█",
      "█···················█",
      "█···················█",
      "█···················█",
      "█···················█",
      "█···················█",
      "█···················█",
      "█···················█",
      "█···················█",
      "█···················█",
      "█████████████████████"
    ]

  const MEDIUM_COMBAT_MAP_LINES: seq<string> := [
      "█████████████████████",
      "█████████████████████",
      "█████████████████████",
      "█████████████████████",
      "████·············████",
      "████·············████",
      "████·············████",
      "████·············████",
      "████·············████",
      "████·············████",
      "████······@······████",
      "████·············████",
      "████·············████",
      "████·············████",
      "████·············████",
      "████·············████",
      "████·············████",
      "█████████████████████",
      "█████████████████████",
      "█████████████████████",
      "█████████████████████"
    ]

  const SMALL_COMBAT_MAP_LINES: seq<string> := [
      "█████████████████████",
      "█████████████████████",
      "█████████████████████",
      "█████████████████████",
      "█████████████████████",
      "█████████████████████",
      "█████████████████████",
      "█████████████████████",
      "████████·····████████",
      "████████·····████████",
      "████████··@··████████",
      "████████·····████████",
      "████████·····████████",
      "█████████████████████",
      "█████████████████████",
      "█████████████████████",
      "█████████████████████",
      "█████████████████████",
      "█████████████████████",
      "█████████████████████",
      "█████████████████████"
    ]

  /** The cells of the ordinary overhead map where a room other than the
      observer's may be drawn (61 cells). */
  const MAPPABLE_ROOM_COORDS: seq<Pos> :=
      [(10, 10), (8, 10), (6, 10), (4, 10), (2, 10), (0, 10), (12, 10), (14, 10), (16, 10)] +
      [(18, 10), (20, 10), (10, 8), (10, 6), (10, 4), (10, 2), (10, 0), (10, 12), (10, 14), (10, 16)] +
      [(10, 18), (10, 20), (8, 2), (12, 2), (6, 4), (8, 4), (12, 4), (14, 4), (4, 6), (6, 6), (8, 6), (12, 6)] +
      [(14, 6), (16, 6), (2, 8), (4, 8), (6, 8), (8, 8), (12, 8), (14, 8), (16, 8), (18, 8), (8, 18)] +
      [(12, 18), (6, 16), (8, 16), (12, 16), (14, 16), (4, 14), (6, 14), (8, 14), (12, 14)] +
      [(14, 14), (16, 14), (2, 12), (4, 12), (6, 12), (8, 12), (12, 12), (14, 12), (16, 12), (18, 12)]

  /** Room cells of the medium combat grid (49 cells). */
  const MAPPABLE_MEDIUM_COMBAT_ROOM_COORDS: seq<Pos> :=
      [(10, 10), (8, 10), (6, 10), (4, 10), (12, 10), (14, 10), (16, 10)] +
      [(10, 8), (8, 8), (6, 8), (4, 8), (12, 8), (14, 8), (16, 8)] +
      [(10, 6), (8, 6), (6, 6), (4, 6), (12, 6), (14, 6), (16, 6)] +
      [(10, 4), (8, 4), (6, 4), (4, 4), (12, 4), (14, 4), (16, 4)] +
      [(10, 12), (8, 12), (6, 12), (4, 12), (12, 12), (14, 12), (16, 12)] +
      [(10, 14), (8, 14), (6, 14), (4, 14), (12, 14), (14, 14), (16, 14)] +
      [(10, 16), (8, 16), (6, 16), (4, 16), (12, 16), (14, 16), (16, 16)]

  /** Room cells of the small combat grid (9 cells). */
  const MAPPABLE_SMALL_COMBAT_ROOM_COORDS: seq<Pos> :=
      [(10, 10), (8, 10), (12, 10)] +
      [(10, 8), (8, 8), (12, 8)] +
      [(10, 12), (8, 12), (12, 12)]

  /** Room cells of the large combat grid, as re-bound at world/handlers/map.py:449-458 (81 cells). */
  const MAPPABLE_LARGE_COMBAT_ROOM_COORDS: seq<Pos> :=
      [(10, 10), (8, 10), (6, 10), (4, 10), (2, 10), (12, 10), (14, 10), (16, 10), (18, 10)] +
      [(10, 8), (8, 8), (6, 8), (4, 8), (2, 8), (12, 8), (14, 8), (16, 8), (18, 8)] +
      [(10, 6), (8, 6), (6, 6), (4, 6), (2, 6), (12, 6), (14, 6), (16, 6), (18, 6)] +
      [(10, 4), (8, 4), (6, 4), (4, 4), (2, 4), (12, 4), (14, 4), (16, 4), (18, 4)] +
      [(10, 2), (8, 2), (6, 2), (4, 2), (2, 2), (12, 2), (14, 2), (16, 2), (18, 2)] +
      [(10, 12), (8, 12), (6, 12), (4, 12), (2, 12), (12, 12), (14, 12), (16, 12), (18, 12)] +
      [(10, 14), (8, 14), (6, 14), (4, 14), (2, 14), (12, 14), (14, 14), (16, 14), (18, 14)] +
      [(10, 16), (8, 16), (6, 16), (4, 16), (2, 16), (12, 16), (14, 16), (16, 16), (18, 16)] +
      [(10, 18), (8, 18), (6, 18), (4, 18), (2, 18), (12, 18), (14, 18), (16, 18), (18, 18)]


  /** A triple-quoted template that starts with a backslash-newline and ends
      with a newline: its lines, each followed by a newline. Splitting it on
      newlines therefore yields the lines plus one empty last row. */
  function TemplateText(lines: seq<string>): string
  {
    Join("\n", lines + [""])
  }

  const BASE_MAP_GRID: string := TemplateText(BASE_MAP_LINES)
  const LARGE_COMBAT_MAP_GRID: string := TemplateText(LARGE_COMBAT_MAP_LINES)
  const MEDIUM_COMBAT_MAP_GRID: string := TemplateText(MEDIUM_COMBAT_MAP_LINES)
  const SMALL_COMBAT_MAP_GRID: string := TemplateText(SMALL_COMBAT_MAP_LINES)

  /** Every line of a template is 21 characters wide and holds no newline. */
  predicate Rectangular21(lines: seq<string>)
  {
    |lines| == 21 && forall i :: 0 <= i < 21 ==> |lines[i]| == 21 && '\n' !in lines[i]
  }

  lemma TemplatesAreRectangular()
    ensures Rectangular21(BASE_MAP_LINES)
    ensures Rectangular21(LARGE_COMBAT_MAP_LINES)
    ensures Rectangular21(MEDIUM_COMBAT_MAP_LINES)
    ensures Rectangular21(SMALL_COMBAT_MAP_LINES)
  {
    BaseRectangular();
    LargeRectangular();
    MediumRectangular();
    SmallRectangular();
  }

  lemma BaseRectangular() ensures Rectangular21(BASE_MAP_LINES) {}
  lemma LargeRectangular() ensures Rectangular21(LARGE_COMBAT_MAP_LINES) {}
  lemma MediumRectangular() ensures Rectangular21(MEDIUM_COMBAT_MAP_LINES) {}
  lemma SmallRectangular() ensures Rectangular21(SMALL_COMBAT_MAP_LINES) {}


  /** Every coordinate of the lists is a cell of a 21 x 21 grid. */
  predicate Inside21(coords: seq<Pos>)
  {
    forall i :: 0 <= i < |coords| ==> 0 <= coords[i].0 < 21 && 0 <= coords[i].1 < 21
  }

  /** Both components even: room cells; odd cells are kept for connectors. */
  predicate EvenCells(coords: seq<Pos>)
  {
    forall i :: 0 <= i < |coords| ==> coords[i].0 % 2 == 0 && coords[i].1 % 2 == 0
  }

  /** Cells a room may occupy: inside the grid, both components even. */
  predicate RoomCells(coords: seq<Pos>)
  {
    Inside21(coords) && EvenCells(coords)
  }

  lemma RoomCellsConcat(a: seq<Pos>, b: seq<Pos>)
    requires RoomCells(a) && RoomCells(b)
    ensures RoomCells(a + b)
  {
  }

  /** The cells of MAPPABLE_ROOM_COORDS are room cells, one source line
      of the list at a time. */
  lemma MappableRoomCoordsFit()
    ensures RoomCells(MAPPABLE_ROOM_COORDS)
  {
    var c0 := [(10, 10), (8, 10), (6, 10), (4, 10), (2, 10), (0, 10), (12, 10), (14, 10), (16, 10)];
    var c1 := [(18, 10), (20, 10), (10, 8), (10, 6), (10, 4), (10, 2), (10, 0), (10, 12), (10, 14), (10, 16)];
    var c2 := [(10, 18), (10, 20), (8, 2), (12, 2), (6, 4), (8, 4), (12, 4), (14, 4), (4, 6), (6, 6), (8, 6), (12, 6)];
    var c3 := [(14, 6), (16, 6), (2, 8), (4, 8), (6, 8), (8, 8), (12, 8), (14, 8), (16, 8), (18, 8), (8, 18)];
    var c4 := [(12, 18), (6, 16), (8, 16), (12, 16), (14, 16), (4, 14), (6, 14), (8, 14), (12, 14)];
    var c5 := [(14, 14), (16, 14), (2, 12), (4, 12), (6, 12), (8, 12), (12, 12), (14, 12), (16, 12), (18, 12)];
    ChunkFits0();
    ChunkFits1();
    ChunkFits2();
    ChunkFits3();
    ChunkFits4();
    ChunkFits5();
    assert MAPPABLE_ROOM_COORDS == c0 + c1 + c2 + c3 + c4 + c5;
    RoomCellsConcat(c0, c1);
    RoomCellsConcat(c0 + c1, c2);
    RoomCellsConcat(c0 + c1 + c2, c3);
    RoomCellsConcat(c0 + c1 + c2 + c3, c4);
    RoomCellsConcat(c0 + c1 + c2 + c3 + c4, c5);
  }

  lemma ChunkFits0()
    ensures RoomCells([(10, 10), (8, 10), (6, 10), (4, 10), (2, 10), (0, 10), (12, 10), (14, 10), (16, 10)])
  {
  }

  lemma ChunkFits1()
    ensures RoomCells([(18, 10), (20, 10), (10, 8), (10, 6), (10, 4), (10, 2), (10, 0), (10, 12), (10, 14), (10, 16)])
  {
  }

  lemma ChunkFits2()
    ensures RoomCells([(10, 18), (10, 20), (8, 2), (12, 2), (6, 4), (8, 4), (12, 4), (14, 4), (4, 6), (6, 6), (8, 6), (12, 6)])
  {
  }

  lemma ChunkFits3()
    ensures RoomCells([(14, 6), (16, 6), (2, 8), (4, 8), (6, 8), (8, 8), (12, 8), (14, 8), (16, 8), (18, 8), (8, 18)])
  {
  }

  lemma ChunkFits4()
    ensures RoomCells([(12, 18), (6, 16), (8, 16), (12, 16), (14, 16), (4, 14), (6, 14), (8, 14), (12, 14)])
  {
  }

  lemma ChunkFits5()
    ensures RoomCells([(14, 14), (16, 14), (2, 12), (4, 12), (6, 12), (8, 12), (12, 12), (14, 12), (16, 12), (18, 12)])
  {
  }

  /** One row of room cells of each combat grid, from the centre outwards. */
  function SmallRow(y: int): seq<Pos> { [(10, y), (8, y), (12, y)] }
  function MediumRow(y: int): seq<Pos> { [(10, y), (8, y), (6, y), (4, y), (12, y), (14, y), (16, y)] }
  function LargeRow(y: int): seq<Pos>
  {
    [(10, y), (8, y), (6, y), (4, y), (2, y), (12, y), (14, y), (16, y), (18, y)]
  }

  lemma SmallRowFits(y: int)
    requires 0 <= y < 21 && y % 2 == 0
    ensures RoomCells(SmallRow(y))
  {
  }

  lemma MediumRowFits(y: int)
    requires 0 <= y < 21 && y % 2 == 0
    ensures RoomCells(MediumRow(y))
  {
  }

  lemma LargeRowFits(y: int)
    requires 0 <= y < 21 && y % 2 == 0
    ensures RoomCells(LargeRow(y))
  {
  }

  lemma SmallCombatCoordsFit()
    ensures RoomCells(MAPPABLE_SMALL_COMBAT_ROOM_COORDS)
  {
    assert MAPPABLE_SMALL_COMBAT_ROOM_COORDS == SmallRow(10) + SmallRow(8) + SmallRow(12);
    SmallRowFits(10); SmallRowFits(8); SmallRowFits(12);
    RoomCellsConcat(SmallRow(10), SmallRow(8));
    RoomCellsConcat(SmallRow(10) + SmallRow(8), SmallRow(12));
  }

  lemma MediumCombatCoordsFit()
    ensures RoomCells(MAPPABLE_MEDIUM_COMBAT_ROOM_COORDS)
  {
    var r := MediumRow(10) + MediumRow(8) + MediumRow(6) + MediumRow(4);
    assert MAPPABLE_MEDIUM_COMBAT_ROOM_COORDS == r + MediumRow(12) + MediumRow(14) + MediumRow(16);
    MediumRowFits(10); MediumRowFits(8); MediumRowFits(6); MediumRowFits(4);
    MediumRowFits(12); MediumRowFits(14); MediumRowFits(16);
    RoomCellsConcat(MediumRow(10), MediumRow(8));
    RoomCellsConcat(MediumRow(10) + MediumRow(8), MediumRow(6));
    RoomCellsConcat(MediumRow(10) + MediumRow(8) + MediumRow(6), MediumRow(4));
    RoomCellsConcat(r, MediumRow(12));
    RoomCellsConcat(r + MediumRow(12), MediumRow(14));
    RoomCellsConcat(r + MediumRow(12) + MediumRow(14), MediumRow(16));
  }

  lemma LargeCombatCoordsFit()
    ensures RoomCells(MAPPABLE_LARGE_COMBAT_ROOM_COORDS)
  {
    var r := LargeRow(10) + LargeRow(8) + LargeRow(6) + LargeRow(4) + LargeRow(2);
    assert MAPPABLE_LARGE_COMBAT_ROOM_COORDS == r + LargeRow(12) + LargeRow(14) + LargeRow(16) + LargeRow(18);
    LargeRowFits(10); LargeRowFits(8); LargeRowFits(6); LargeRowFits(4); LargeRowFits(2);
    LargeRowFits(12); LargeRowFits(14); LargeRowFits(16); LargeRowFits(18);
    RoomCellsConcat(LargeRow(10), LargeRow(8));
    RoomCellsConcat(LargeRow(10) + LargeRow(8), LargeRow(6));
    RoomCellsConcat(LargeRow(10) + LargeRow(8) + LargeRow(6), LargeRow(4));
    RoomCellsConcat(LargeRow(10) + LargeRow(8) + LargeRow(6) + LargeRow(4), LargeRow(2));
    RoomCellsConcat(r, LargeRow(12));
    RoomCellsConcat(r + LargeRow(12), LargeRow(14));
    RoomCellsConcat(r + LargeRow(12) + LargeRow(14), LargeRow(16));
    RoomCellsConcat(r + LargeRow(12) + LargeRow(14) + LargeRow(16), LargeRow(18));
  }

  // ---------------------------------------------------------------------
  // create_grid and show_map (world/handlers/map.py:378-397)
  // ---------------------------------------------------------------------

  /** The board `create_grid` builds: one row per template line, one
      single-character cell per character of the line. */
  function Board(template: string): Grid
  {
    var lines := SplitLines(template);
    seq(|lines|, i requires 0 <= i < |lines| => Chars(lines[i]))
  }

  /** `create_grid`: split the template on newlines, then replace each line
      by the list of its characters, index by index. */
  method CreateGrid(template: string) returns (board: Grid)
    ensures board == Board(template)
    ensures forall i :: 0 <= i < |board| ==> Join("", board[i]) == SplitLines(template)[i]
    ensures |board| == multiset(template)['\n'] + 1
  {
    var lines := SplitLines(template);
    board := [];
    var index := 0;
    while index < |lines|
      invariant 0 <= index <= |lines|
      invariant |board| == index
      invariant forall i :: 0 <= i < index ==> board[i] == Chars(lines[i])
    {
      board := board + [Chars(lines[index])];
      index := index + 1;
    }
    forall i | 0 <= i < |board| ensures Join("", board[i]) == lines[i] {
      JoinChars(lines[i]);
    }
    SplitCount(template);
  }

  /** `create_grid(BASE_MAP_GRID)`: one row of single-character cells for
      each of the base template's 21 lines, then the empty row the
      template's final newline leaves. */
  method CreateBaseGrid() returns (board: Grid)
    ensures |board| == 22 && board[21] == [] && Covers(board, 21, 21)
    ensures forall i :: 0 <= i < 21 ==> board[i] == Chars(BASE_MAP_LINES[i])
  {
    board := CreateGrid(BASE_MAP_GRID);
    TemplatesAreRectangular();
    TemplateBoard(BASE_MAP_LINES);
  }

  /** Splitting a 21 x 21 template on newlines gives its lines, then the
      empty piece after the final newline. */
  lemma TemplateLines(lines: seq<string>)
    requires Rectangular21(lines)
    ensures SplitLines(TemplateText(lines)) == lines + [""]
  {
    var rows := lines + [""];
    assert forall k :: 0 <= k < |rows| ==> '\n' !in rows[k];
    SplitJoin(rows);
  }

  /** The board of a 21 x 21 template: its 21 rows of 21 cells, then the
      empty row after the final newline. */
  lemma TemplateBoard(lines: seq<string>)
    requires Rectangular21(lines)
    ensures var b := Board(TemplateText(lines));
      && |b| == 22 && b[21] == []
      && (forall i :: 0 <= i < 21 ==> b[i] == Chars(lines[i]))
      && Covers(b, 21, 21)
  {
    var rows := lines + [""];
    TemplateLines(lines);
    var b := Board(TemplateText(lines));
    assert |b| == 22;
    assert forall i :: 0 <= i < 22 ==> b[i] == Chars(rows[i]);
    assert b[21] == Chars("");
  }

  /** Gluing the characters of a line back together gives the line. */
  lemma {:induction false} JoinChars(line: string)
    ensures Join("", Chars(line)) == line
    decreases |line|
  {
    if |line| > 1 {
      JoinChars(line[1..]);
      assert Chars(line)[1..] == Chars(line[1..]);
      assert line == [line[0]] + line[1..];
    } else if |line| == 1 {
      assert Chars(line) == [[line[0]]];
      assert line == [line[0]];
    }
  }

  /** The text `show_map` returns: each row's cells joined by single spaces,
      each row followed by a newline. */
  function Render(grid: Grid): (r: string)
    ensures r == "" <==> grid == []
    ensures |r| >= |grid|
  {
    if grid == [] then "" else Join(" ", grid[0]) + "\n" + Render(grid[1..])
  }

  /** Rendering from row `i` on is row `i`'s text and then the rest. */
  lemma RenderFrom(grid: Grid, i: nat)
    requires i < |grid|
    ensures Render(grid[i..]) == Join(" ", grid[i]) + "\n" + Render(grid[i + 1..])
  {
    assert grid[i..][1..] == grid[i + 1..];
  }

  /** The rendered rows of a grid, one string per row, without newlines. */
  function RowTexts(grid: Grid): (r: seq<string>)
    ensures |r| == |grid|
  {
    seq(|grid|, i requires 0 <= i < |grid| => Join(" ", grid[i]))
  }

  /** No cell holds a newline. */
  predicate SingleLineCells(grid: Grid)
  {
    forall i, j :: 0 <= i < |grid| && 0 <= j < |grid[i]| ==> '\n' !in grid[i][j]
  }

  lemma {:induction false} RenderIsJoin(grid: Grid)
    ensures Render(grid) == Join("\n", RowTexts(grid) + [""])
    decreases |grid|
  {
    if grid != [] {
      RenderIsJoin(grid[1..]);
      assert RowTexts(grid) + [""] == [Join(" ", grid[0])] + (RowTexts(grid[1..]) + [""]);
    }
  }

  lemma {:induction false} JoinKeepsSingleLine(sep: string, parts: seq<string>)
    requires '\n' !in sep
    requires forall k :: 0 <= k < |parts| ==> '\n' !in parts[k]
    ensures '\n' !in Join(sep, parts)
    decreases |parts|
  {
    if |parts| > 1 {
      JoinKeepsSingleLine(sep, parts[1..]);
    }
  }

  /** Splitting the output of `show_map` on newlines gives back each row's
      spaced text, and one empty piece after the final newline. */
  lemma RenderLines(grid: Grid)
    requires SingleLineCells(grid)
    ensures SplitLines(Render(grid)) == RowTexts(grid) + [""]
  {
    RenderIsJoin(grid);
    var rows := RowTexts(grid) + [""];
    forall k | 0 <= k < |rows| ensures '\n' !in rows[k] {
      if k < |grid| {
        JoinKeepsSingleLine(" ", grid[k]);
      }
    }
    SplitJoin(rows);
  }

  /** Each row with its separating spaces deleted. */
  function UnspaceAll(rows: seq<string>): (r: seq<string>)
    ensures |r| == |rows|
  {
    seq(|rows|, i requires 0 <= i < |rows| => Unspace(rows[i]))
  }

  /** Rendering a template's board reproduces the template: cut the output
      into lines, drop the empty piece after the last newline, delete the
      separating spaces, and the lines join back into the template text. */
  lemma RenderRoundTrip(template: string)
    ensures var out := SplitLines(Render(Board(template)));
      && |out| == |SplitLines(template)| + 1
      && out[|out| - 1] == ""
      && Join("\n", UnspaceAll(out[..|out| - 1])) == template
  {
    var board := Board(template);
    BoardSingleLine(template);
    RenderLines(board);
    var out := SplitLines(Render(board));
    assert out[..|out| - 1] == RowTexts(board);
    UnspaceRows(template, UnspaceAll(RowTexts(board)));
    JoinSplit(template);
  }

  /** No cell of a template's board holds a newline. */
  lemma BoardSingleLine(template: string)
    ensures SingleLineCells(Board(template))
  {
    var lines := SplitLines(template);
    var board := Board(template);
    forall i, j | 0 <= i < |board| && 0 <= j < |board[i]| ensures '\n' !in board[i][j] {
      assert board[i][j] == [lines[i][j]];
    }
  }

  /** Deleting the separating spaces of each rendered row of a template's
      board gives the template's lines. */
  lemma UnspaceRows(template: string, back: seq<string>)
    requires var rows := RowTexts(Board(template));
      |back| == |rows| && forall i :: 0 <= i < |rows| ==> back[i] == Unspace(rows[i])
    ensures back == SplitLines(template)
  {
    var lines := SplitLines(template);
    forall i | 0 <= i < |lines| ensures back[i] == lines[i] {
      UnspaceJoinChars(lines[i]);
    }
  }

  // ---------------------------------------------------------------------
  // draw_exit (world/handlers/map.py:341-353)
  // ---------------------------------------------------------------------

  /** The connector glyph for each exit type `draw_exit` knows. */
  function ConnectorGlyph(kind: string): Option<Glyph>
  {
    if kind == "vertical" then Some("|")
    else if kind == "horizontal" then Some("─")
    else if kind == "nesw" then Some("/")
    else if kind == "nwse" then Some("\\")
    else None
  }

  /** The grid has at least `w` rows and each of them at least `l` cells. */
  predicate Covers(grid: Grid, w: int, l: int)
  {
    |grid| >= w && forall i :: 0 <= i < w ==> |grid[i]| >= l
  }

  /** The grid with one cell replaced. */
  function SetCell(grid: Grid, x: int, y: int, g: Glyph): (r: Grid)
    requires 0 <= x < |grid| && 0 <= y < |grid[x]|
    ensures |r| == |grid| && forall i :: 0 <= i < |grid| ==> |r[i]| == |grid[i]|
    ensures r[x][y] == g
    ensures forall i, j :: 0 <= i < |grid| && 0 <= j < |grid[i]| && (i, j) != (x, y) ==> r[i][j] == grid[i][j]
  {
    grid[x := grid[x][y := g]]
  }

  /** The grid after `draw_exit(kind, x, y)` on a `w` x `l` map. */
  function PutExit(grid: Grid, w: int, l: int, kind: string, x: int, y: int): (r: Grid)
    requires Covers(grid, w, l)
    ensures |r| == |grid| && forall i :: 0 <= i < |grid| ==> |r[i]| == |grid[i]|
    ensures forall i, j :: 0 <= i < |grid| && 0 <= j < |grid[i]| && (i, j) != (x, y) ==> r[i][j] == grid[i][j]
    ensures 0 < x < w && 0 < y < l && ConnectorGlyph(kind).Some? ==> r[x][y] == ConnectorGlyph(kind).value
    ensures !(0 < x < w && 0 < y < l && ConnectorGlyph(kind).Some?) ==> r == grid
  {
    if 0 < x < w && 0 < y < l then
      match ConnectorGlyph(kind)
      case Some(g) => SetCell(grid, x, y, g)
      case None => grid
    else grid
  }

  /** `draw_exit` never touches row 0 or column 0, nor anything at or past
      the far edges. */
  lemma PutExitSparesTheFrame(grid: Grid, w: int, l: int, kind: string, x: int, y: int, i: int, j: int)
    requires Covers(grid, w, l)
    requires 0 <= i < |grid| && 0 <= j < |grid[i]|
    requires i == 0 || j == 0 || i >= w || j >= l
    ensures PutExit(grid, w, l, kind, x, y)[i][j] == grid[i][j]
  {
  }

  // ---------------------------------------------------------------------
  // median and start_loc_on_grid (world/handlers/map.py:356-371)
  // ---------------------------------------------------------------------

  /** `statistics.median` of a sorted, non-empty list: the middle element, or
      the mean of the two middle elements when the length is even. */
  function MedianOf(s: seq<int>): real
    requires |s| >= 1
  {
    if |s| % 2 == 1 then s[|s| / 2] as real
    else (s[|s| / 2 - 1] + s[|s| / 2]) as real / 2.0
  }

  /** `sorted(range(0, n))`: the slot indices of a row or column. */
  function Slots(n: nat): (r: seq<int>)
    ensures |r| == n && forall i :: 0 <= i < n ==> r[i] == i
  {
    seq(n, i => i)
  }

  /** `Map.median(n)`: the median slot of `n` slots, which is always
      the midpoint `(n - 1) / 2`, whether `n` is odd or even. */
  function Median(n: nat): (m: real)
    requires n >= 1
    ensures 2.0 * m == (n - 1) as real
  {
    MedianOf(Slots(n))
  }

  /** The slot the observer is drawn in: as many slots before it as after
      it, or one more after it when `n` is even. */
  function StartSlot(n: nat): (r: nat)
    requires n >= 1
    ensures r < n
    ensures (n - 1 - r) - r == (if n % 2 == 1 then 0 else 1)
  {
    (n - 1) / 2
  }

  /** `int(self.median(n))` in `start_loc_on_grid` is that slot. */
  lemma MedianSlot(n: nat)
    requires n >= 1
    ensures Median(n).Floor == StartSlot(n)
  {
    var m := Median(n);
    var k := (n - 1) / 2;
    assert k == StartSlot(n);
    if n % 2 == 1 {
      assert n - 1 == 2 * k;
      assert 2.0 * m == 2.0 * (k as real);
      assert m == k as real;
    } else {
      assert n - 1 == 2 * k + 1;
      assert 2.0 * m == 2.0 * (k as real) + 1.0;
      assert k as real <= m < (k + 1) as real;
    }
  }


  // ---------------------------------------------------------------------
  // The room-size rule of in_combat_check (world/handlers/map.py:411-422)
  // ---------------------------------------------------------------------

  datatype SizeClass = Small | Medium | Large

  /** The template a room of this size gets while its occupant is in combat:
      large from 2500 (50 m squared) up, medium from 225 (15 m squared) up. */
  function GridForSize(size: int): (r: SizeClass)
    ensures r == Large <==> size >= 2500
    ensures r == Small <==> size < 225
  {
    if size >= 2500 then Large
    else if size >= 225 then Medium
    else Small
  }

  function Rank(c: SizeClass): nat
  {
    match c
    case Small => 0
    case Medium => 1
    case Large => 2
  }

  /** The template chosen for each class, with its list of room cells. The
      list for large rooms is the one the module binds last (lines 449-458),
      which is the one `in_combat_check` reads when it runs. */
  function CombatTemplate(c: SizeClass): (string, seq<Pos>)
  {
    match c
    case Small => (SMALL_COMBAT_MAP_GRID, MAPPABLE_SMALL_COMBAT_ROOM_COORDS)
    case Medium => (MEDIUM_COMBAT_MAP_GRID, MAPPABLE_MEDIUM_COMBAT_ROOM_COORDS)
    case Large => (LARGE_COMBAT_MAP_GRID, MAPPABLE_LARGE_COMBAT_ROOM_COORDS)
  }

  /** A bigger room never gets a smaller template, and a bigger template has
      more room cells. */
  lemma GridForSizeMonotone(s1: int, s2: int)
    requires s1 <= s2
    ensures Rank(GridForSize(s1)) <= Rank(GridForSize(s2))
    ensures |CombatTemplate(GridForSize(s1)).1| <= |CombatTemplate(GridForSize(s2)).1|
    ensures |CombatTemplate(GridForSize(s1)).1| == 9 || |CombatTemplate(GridForSize(s1)).1| == 49 || |CombatTemplate(GridForSize(s1)).1| == 81
  {
  }
}
