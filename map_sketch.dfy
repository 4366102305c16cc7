/** The exit sketch at the end of world/handlers/map.py: from a sample of the
    large combat grid's room cells, find the cell between every two sampled
    cells that are one room apart and give it a connector, then overlay the
    sampled rooms and the connectors on the large combat template. The
    sketch reads a coordinate as (column, row): `coord[1]` picks the row. */
module MapSketch {
  import opened Text
  import opened MapGrid

  /** `k` lies between two sampled cells in the same column. */
  predicate VerticalGap(sample: seq<Pos>, k: Pos)
  {
    (k.0, k.1 - 1) in sample && (k.0, k.1 + 1) in sample
  }

  /** `k` lies between two sampled cells in the same row. */
  predicate HorizontalGap(sample: seq<Pos>, k: Pos)
  {
    (k.0 - 1, k.1) in sample && (k.0 + 1, k.1) in sample
  }

  /** The four tests the sketch runs for the sampled cell `c`: `k` is the
      cell next to `c` towards a sampled cell two steps away. */
  predicate Touches(sample: seq<Pos>, c: Pos, k: Pos)
  {
    || (k == (c.0, c.1 - 1) && (c.0, c.1 - 2) in sample)
    || (k == (c.0, c.1 + 1) && (c.0, c.1 + 2) in sample)
    || (k == (c.0 + 1, c.1) && (c.0 + 2, c.1) in sample)
    || (k == (c.0 - 1, c.1) && (c.0 - 2, c.1) in sample)
  }

  /** Some cell among the first `n` of the sample touches `k`. */
  predicate TouchedBy(sample: seq<Pos>, n: nat, k: Pos)
    requires n <= |sample|
  {
    exists i :: 0 <= i < n && Touches(sample, sample[i], k)
  }

  /** The connector a cell gets when every sampled cell has even
      components: a vertical gap has an odd second component, a horizontal
      one an odd first component. */
  function AxisGlyph(k: Pos): char
  {
    if k.1 % 2 == 1 then '|' else '─'
  }

  /** `exit_coords`: for each sampled cell, a connector next to it towards
      each sampled cell two steps up, down, right or left. A cell is a key
      exactly when it is a gap between two sampled cells, whatever order
      the sample comes in; when all sampled cells are room cells (both
      components even) its connector is `|` for a vertical gap and `─` for
      a horizontal one, so both endpoints of a pair write the same entry. */
  method ExitCoords(sample: seq<Pos>) returns (exits: map<Pos, char>)
    ensures forall k :: k in exits <==> VerticalGap(sample, k) || HorizontalGap(sample, k)
    ensures EvenCells(sample) ==>
      forall k :: k in exits ==> exits[k] == (if VerticalGap(sample, k) then '|' else '─')
  {
    exits := map[];
    var n := 0;
    while n < |sample|
      invariant 0 <= n <= |sample|
      invariant KeysTouched(exits, sample, n)
      invariant EvenCells(sample) ==> AxisGlyphs(exits)
    {
      var coord := sample[n];
      ghost var before := exits;
      ghost var even := EvenCells(sample);
      if (coord.0, coord.1 - 2) in sample {
        if even { PutAxis(exits, sample, n, (coord.0, coord.1 - 1), '|'); }
        exits := exits[(coord.0, coord.1 - 1) := '|'];
      }
      if (coord.0, coord.1 + 2) in sample {
        if even { PutAxis(exits, sample, n, (coord.0, coord.1 + 1), '|'); }
        exits := exits[(coord.0, coord.1 + 1) := '|'];
      }
      if (coord.0 + 2, coord.1) in sample {
        if even { PutAxis(exits, sample, n, (coord.0 + 1, coord.1), '─'); }
        exits := exits[(coord.0 + 1, coord.1) := '─'];
      }
      if (coord.0 - 2, coord.1) in sample {
        if even { PutAxis(exits, sample, n, (coord.0 - 1, coord.1), '─'); }
        exits := exits[(coord.0 - 1, coord.1) := '─'];
      }
      assert forall k :: k in exits <==> k in before || Touches(sample, coord, k);
      TouchStep(sample, n, before, exits);
      n := n + 1;
    }
    forall k ensures TouchedBy(sample, |sample|, k) <==> VerticalGap(sample, k) || HorizontalGap(sample, k) {
      TouchedIffGap(sample, k);
    }
    if EvenCells(sample) {
      forall k | k in exits ensures exits[k] == (if VerticalGap(sample, k) then '|' else '─') {
        GapParity(sample, k);
      }
    }
  }

  /** The keys of `m` are the cells touched by the first `n` sampled cells. */
  ghost predicate KeysTouched(m: map<Pos, char>, sample: seq<Pos>, n: nat)
    requires n <= |sample|
  {
    forall k :: k in m <==> TouchedBy(sample, n, k)
  }

  /** Every entry of `m` holds the connector its cell's parity calls for. */
  predicate AxisGlyphs(m: map<Pos, char>)
  {
    forall k :: k in m ==> m[k] == AxisGlyph(k)
  }

  /** The connector written next to a room cell matches the parity rule. */
  lemma PutAxis(m: map<Pos, char>, sample: seq<Pos>, n: nat, k: Pos, g: char)
    requires EvenCells(sample) && n < |sample| && AxisGlyphs(m)
    requires var c := sample[n];
      || (k == (c.0, c.1 - 1) && g == '|') || (k == (c.0, c.1 + 1) && g == '|')
      || (k == (c.0 + 1, c.1) && g == '─') || (k == (c.0 - 1, c.1) && g == '─')
    ensures AxisGlyphs(m[k := g])
  {
    assert sample[n].0 % 2 == 0 && sample[n].1 % 2 == 0;
  }

  /** One pass of the exit loop adds the cells the next sampled cell touches. */
  lemma TouchStep(sample: seq<Pos>, n: nat, before: map<Pos, char>, after: map<Pos, char>)
    requires n < |sample| && KeysTouched(before, sample, n)
    requires forall k :: k in after <==> k in before || Touches(sample, sample[n], k)
    ensures KeysTouched(after, sample, n + 1)
  {
    forall k ensures k in after <==> TouchedBy(sample, n + 1, k) {
      if TouchedBy(sample, n + 1, k) && !Touches(sample, sample[n], k) {
        var i :| 0 <= i < n + 1 && Touches(sample, sample[i], k);
        assert i < n;
      }
    }
  }

  /** Taken over the whole sample, the four tests find exactly the gaps. */
  lemma TouchedIffGap(sample: seq<Pos>, k: Pos)
    ensures TouchedBy(sample, |sample|, k) <==> VerticalGap(sample, k) || HorizontalGap(sample, k)
  {
    if TouchedBy(sample, |sample|, k) {
      var i :| 0 <= i < |sample| && Touches(sample, sample[i], k);
      assert sample[i] in sample;
    }
    if VerticalGap(sample, k) {
      var i :| 0 <= i < |sample| && sample[i] == (k.0, k.1 - 1);
      assert Touches(sample, sample[i], k);
    } else if HorizontalGap(sample, k) {
      var i :| 0 <= i < |sample| && sample[i] == (k.0 - 1, k.1);
      assert Touches(sample, sample[i], k);
    }
  }

  /** Among room cells a gap has exactly one odd component, which tells
      its axis. */
  lemma GapParity(sample: seq<Pos>, k: Pos)
    requires EvenCells(sample)
    requires VerticalGap(sample, k) || HorizontalGap(sample, k)
    ensures VerticalGap(sample, k) <==> k.1 % 2 == 1
    ensures HorizontalGap(sample, k) <==> k.0 % 2 == 1
    ensures AxisGlyph(k) == (if VerticalGap(sample, k) then '|' else '─')
  {
    if VerticalGap(sample, k) {
      var i :| 0 <= i < |sample| && sample[i] == (k.0, k.1 - 1);
      assert k.0 % 2 == 0;
    }
    if HorizontalGap(sample, k) {
      var i :| 0 <= i < |sample| && sample[i] == (k.0 - 1, k.1);
      assert k.1 % 2 == 0;
    }
  }

  /** A sampled room cell is never a gap, so no connector covers it. */
  lemma GapsAvoidRooms(sample: seq<Pos>, k: Pos)
    requires EvenCells(sample) && k in sample
    ensures !VerticalGap(sample, k) && !HorizontalGap(sample, k)
  {
    var j :| 0 <= j < |sample| && sample[j] == k;
    if VerticalGap(sample, k) || HorizontalGap(sample, k) {
      GapParity(sample, k);
    }
  }

  /** What the overlay leaves in column `x` of row `y`: a connector where
      there is one, else `X` for a sampled cell other than the centre, else
      the template's own character. */
  function SketchCell(board: seq<string>, sample: seq<Pos>, exits: map<Pos, char>, x: int, y: int): char
    requires 0 <= y < |board| && 0 <= x < |board[y]|
  {
    if (x, y) in exits then exits[(x, y)]
    else if (x, y) in sample && (x, y) != (10, 10) then 'X'
    else board[y][x]
  }

  /** Every cell the overlay writes in a row of the board lies inside it. */
  predicate Fits(board: seq<string>, sample: seq<Pos>, exits: map<Pos, char>)
  {
    && (forall i :: 0 <= i < |sample| && 0 <= sample[i].1 < |board| ==> 0 <= sample[i].0 < |board[sample[i].1]|)
    && (forall k :: k in exits && 0 <= k.1 < |board| ==> 0 <= k.0 < |board[k.1]|)
  }

  /** The overlay loop: each row of the board becomes a list of characters,
      the sampled cells of that row other than the centre become `X`, the
      connectors of that row are written over them, and the row is joined
      back into a string. */
  method Overlay(board: seq<string>, sample: seq<Pos>, exits: map<Pos, char>) returns (newBoard: seq<string>)
    requires Fits(board, sample, exits)
    ensures |newBoard| == |board|
    ensures forall y :: 0 <= y < |board| ==> |newBoard[y]| == |board[y]|
    ensures forall y, x :: 0 <= y < |board| && 0 <= x < |board[y]| ==>
      newBoard[y][x] == SketchCell(board, sample, exits, x, y)
  {
    newBoard := [];
    var index := 0;
    while index < |board|
      invariant 0 <= index <= |board|
      invariant |newBoard| == index
      invariant forall y :: 0 <= y < index ==> |newBoard[y]| == |board[y]|
      invariant forall y, x :: 0 <= y < index && 0 <= x < |board[y]| ==>
        newBoard[y][x] == SketchCell(board, sample, exits, x, y)
    {
      var row := OverlayRow(board, sample, exits, index);
      newBoard := newBoard + [row];
      index := index + 1;
    }
  }

  /** One pass of the overlay loop, for row `index`. */
  method OverlayRow(board: seq<string>, sample: seq<Pos>, exits: map<Pos, char>, index: int) returns (row: string)
    requires Fits(board, sample, exits) && 0 <= index < |board|
    ensures |row| == |board[index]|
    ensures forall x :: 0 <= x < |row| ==> row[x] == SketchCell(board, sample, exits, x, index)
  {
    row := board[index];
    var i := 0;
    while i < |sample|
      invariant 0 <= i <= |sample|
      invariant |row| == |board[index]|
      invariant forall x :: 0 <= x < |row| ==>
        row[x] == if (x, index) in sample[..i] && (x, index) != (10, 10) then 'X' else board[index][x]
    {
      var coord := sample[i];
      if index == coord.1 && coord != (10, 10) {
        row := row[coord.0 := 'X'];
      }
      assert sample[..i + 1] == sample[..i] + [coord];
      i := i + 1;
    }
    assert sample[..i] == sample;
    var keys := exits.Keys;
    ghost var done: set<Pos> := {};
    while keys != {}
      invariant keys + done == exits.Keys && keys !! done
      invariant |row| == |board[index]|
      invariant forall x :: 0 <= x < |row| ==>
        row[x] == if (x, index) in done then exits[(x, index)]
                  else if (x, index) in sample && (x, index) != (10, 10) then 'X' else board[index][x]
      decreases keys
    {
      var coord :| coord in keys;
      if index == coord.1 {
        row := row[coord.0 := exits[coord]];
      }
      keys := keys - {coord};
      done := done + {coord};
    }
  }

  /** The sketch, with the random sample of the large combat grid's room
      cells as a parameter: the exits between sampled cells, then the
      overlay on the rows of the large combat template. */
  method Sketch(sample: seq<Pos>) returns (newBoard: seq<string>)
    requires forall i :: 0 <= i < |sample| ==> sample[i] in MAPPABLE_LARGE_COMBAT_ROOM_COORDS
    ensures Sketched(LARGE_COMBAT_MAP_LINES, sample, newBoard)
  {
    LargeCombatCoordsFit();
    SampleCells(sample);
    TemplatesAreRectangular();
    newBoard := SketchOn(LARGE_COMBAT_MAP_LINES, sample);
  }

  /** The board the sketch prints for a 21 x 21 template: every sampled
      cell other than the centre shows `X`, every gap between two sampled
      cells shows its connector, and every other cell keeps the template's
      character; the empty row after the final newline stays empty. */
  ghost predicate Sketched(lines: seq<string>, sample: seq<Pos>, newBoard: seq<string>)
    requires Rectangular21(lines)
  {
    && |newBoard| == 22 && newBoard[21] == ""
    && (forall y :: 0 <= y < 21 ==> |newBoard[y]| == 21)
    && (forall y, x :: 0 <= y < 21 && 0 <= x < 21 ==>
         newBoard[y][x] ==
           if VerticalGap(sample, (x, y)) then '|'
           else if HorizontalGap(sample, (x, y)) then '─'
           else if (x, y) in sample && (x, y) != (10, 10) then 'X'
           else lines[y][x])
  }

  /** The sketch on any 21 x 21 template and any sample of room cells. */
  method SketchOn(lines: seq<string>, sample: seq<Pos>) returns (newBoard: seq<string>)
    requires Rectangular21(lines) && RoomCells(sample)
    ensures Sketched(lines, sample, newBoard)
    ensures forall i :: 0 <= i < |sample| && sample[i] != (10, 10) ==>
      newBoard[sample[i].1][sample[i].0] == 'X'
  {
    var exits := ExitCoords(sample);
    var board := SplitLines(TemplateText(lines));
    TemplateLines(lines);
    assert |board| == 22 && board[21] == "";
    assert forall y :: 0 <= y < 21 ==> board[y] == lines[y];
    forall k | k in exits ensures 0 <= k.0 < 21 && 0 <= k.1 < 21 {
      GapInside(sample, k);
    }
    newBoard := Overlay(board, sample, exits);
    forall i | 0 <= i < |sample| && sample[i] != (10, 10)
      ensures newBoard[sample[i].1][sample[i].0] == 'X'
    {
      GapsAvoidRooms(sample, sample[i]);
    }
  }

  /** Cells taken from the large combat grid's list are room cells. */
  lemma SampleCells(sample: seq<Pos>)
    requires RoomCells(MAPPABLE_LARGE_COMBAT_ROOM_COORDS)
    requires forall i :: 0 <= i < |sample| ==> sample[i] in MAPPABLE_LARGE_COMBAT_ROOM_COORDS
    ensures RoomCells(sample)
  {
    forall i | 0 <= i < |sample|
      ensures 0 <= sample[i].0 < 21 && 0 <= sample[i].1 < 21
      ensures sample[i].0 % 2 == 0 && sample[i].1 % 2 == 0
    {
      var j :| 0 <= j < |MAPPABLE_LARGE_COMBAT_ROOM_COORDS| && MAPPABLE_LARGE_COMBAT_ROOM_COORDS[j] == sample[i];
    }
  }

  /** A gap between two cells of the grid is a cell of the grid. */
  lemma GapInside(sample: seq<Pos>, k: Pos)
    requires Inside21(sample)
    requires VerticalGap(sample, k) || HorizontalGap(sample, k)
    ensures 0 <= k.0 < 21 && 0 <= k.1 < 21
  {
    if VerticalGap(sample, k) {
      var i :| 0 <= i < |sample| && sample[i] == (k.0, k.1 - 1);
      var j :| 0 <= j < |sample| && sample[j] == (k.0, k.1 + 1);
    } else {
      var i :| 0 <= i < |sample| && sample[i] == (k.0 - 1, k.1);
      var j :| 0 <= j < |sample| && sample[j] == (k.0 + 1, k.1);
    }
  }
}
