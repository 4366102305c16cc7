/** What a scan of commands/building/combat_map_builder.py does over a whole
    template: pass 0 records every room and connector cell, the later passes
    lay two exits per connector, and the auto-link sweep links neighbours. */
module BattlefieldScan {
  import opened Wrappers
  import opened Text
  import opened BattlefieldTemplates
  import opened BattlefieldBuilder

  // ---------------------------------------------------------------------
  // What pass 0 records
  // ---------------------------------------------------------------------

  /** One cell of pass 0 never raises, leaves the exits alone, and
      creates a subsection exactly when the cell is a room symbol. */
  lemma FirstPassCell(b: Build, c: char, x: int, y: int)
    ensures var b' := Visit(b, c, x, y, 0);
      && b'.raised == b.raised && b'.exits == b.exits
      && |b'.sections| == |b.sections| + (if IsRoom(c) then 1 else 0)
  {
  }

  lemma {:induction false} FirstPassCells(b: Build, rows: seq<string>, y: nat, n: nat)
    requires y < |rows| && n <= |rows[y]| && !b.raised
    ensures var b' := Cells(b, rows, y, n, 0);
      && !b'.raised && b'.exits == b.exits
      && |b'.sections| == |b.sections| + CountIn(rows[y], n, IsRoom)
  {
    if n > 0 {
      FirstPassCells(b, rows, y, n - 1);
      FirstPassCell(Cells(b, rows, y, n - 1, 0), rows[y][n - 1], n - 1, y);
    }
  }

  /** Pass 0 never raises, creates no exit, and creates one subsection per
      room symbol. */
  lemma {:induction false} FirstPassRows(b: Build, rows: seq<string>, m: nat)
    requires m <= |rows| && !b.raised
    ensures var b' := Rows(b, rows, m, 0);
      && !b'.raised && b'.exits == b.exits
      && |b'.sections| == |b.sections| + RoomCount(rows[..m])
  {
    if m > 0 {
      FirstPassRows(b, rows, m - 1);
      FirstPassCells(Rows(b, rows, m - 1, 0), rows, m - 1, |rows[m - 1]|);
      assert rows[..m][..m - 1] == rows[..m - 1];
    }
  }

  /** One cell of pass 0 records the cell if it is a room or a connector:
      a room under the subsection just created for it, a connector under
      None. */
  lemma RecordCell(b: Build, rows: seq<string>, x: nat, y: nat)
    requires InGrid(rows, (x, y)) && Recorded(b, rows, y, x)
    ensures Recorded(Visit(b, rows[y][x], x, y, 0), rows, y, x + 1)
  {
    var c := rows[y][x];
    var b' := Visit(b, c, x, y, 0);
    forall k ensures Before(k, y, x + 1) <==> Before(k, y, x) || k == (x, y) {
      if k.1 == y && k.0 == x {
        assert k == (x, y);
      }
    }
    if Built(c) {
      var v := if IsRoom(c) then Some(|b.sections|) else None;
      assert b'.dict == b.dict[(x, y) := v];
      assert b'.sections == if IsRoom(c) then b.sections + [(x, y)] else b.sections;
      RecordOne(b, b', rows, x, y, v);
    } else {
      assert b' == b;
      forall k | InGrid(rows, k) && Before(k, y, x + 1) && Built(At(rows, k)) ensures k in b.dict {
        assert Before(k, y, x);
      }
    }
  }

  /** Recording one more cell, the next in scan order, under what pass 0
      puts there. */
  lemma RecordOne(b: Build, b': Build, rows: seq<string>, x: nat, y: nat, v: Option<SectionId>)
    requires InGrid(rows, (x, y)) && Recorded(b, rows, y, x) && Built(rows[y][x])
    requires v.Some? <==> IsRoom(rows[y][x])
    requires v.Some? ==> v.value == |b.sections| && b'.sections == b.sections + [(x, y)]
    requires v.None? ==> b'.sections == b.sections
    requires b'.dict == b.dict[(x, y) := v]
    requires forall k :: Before(k, y, x + 1) <==> Before(k, y, x) || k == (x, y)
    ensures Recorded(b', rows, y, x + 1)
  {
    forall k | k in b'.dict
      ensures && InGrid(rows, k) && Before(k, y, x + 1) && Built(At(rows, k))
              && (b'.dict[k].Some? <==> IsRoom(At(rows, k)))
              && (b'.dict[k].Some? ==> b'.dict[k].value < |b'.sections| && b'.sections[b'.dict[k].value] == k)
    {
      if k != (x, y) {
        assert k in b.dict;
      }
    }
    forall k | InGrid(rows, k) && Before(k, y, x + 1) && Built(At(rows, k)) ensures k in b'.dict {
      if k != (x, y) {
        assert Before(k, y, x);
      }
    }
  }

  lemma {:induction false} RecordCells(b: Build, rows: seq<string>, y: nat, n: nat)
    requires y < |rows| && n <= |rows[y]| && !b.raised && Recorded(b, rows, y, 0)
    ensures Recorded(Cells(b, rows, y, n, 0), rows, y, n)
  {
    if n > 0 {
      var b1 := Cells(b, rows, y, n - 1, 0);
      assert !b1.raised && Recorded(b1, rows, y, n - 1) by {
        RecordCells(b, rows, y, n - 1);
        FirstPassCells(b, rows, y, n - 1);
      }
      CellsStep(b, rows, y, n, 0);
      RecordCell(b1, rows, n - 1, y);
      assert Cells(b, rows, y, n, 0) == Visit(b1, rows[y][n - 1], n - 1, y, 0);
    }
  }

  /** One more cell of a scan that has not raised visits that cell. */
  lemma CellsStep(b: Build, rows: seq<string>, y: nat, n: nat, iteration: nat)
    requires y < |rows| && 0 < n <= |rows[y]|
    ensures var b1 := Cells(b, rows, y, n - 1, iteration);
      Cells(b, rows, y, n, iteration) == if b1.raised then b1 else Visit(b1, rows[y][n - 1], n - 1, y, iteration)
  {
  }

  /** One more row of a pass that has not raised scans that row. */
  lemma RowsStep(b: Build, rows: seq<string>, m: nat, iteration: nat)
    requires 0 < m <= |rows| && !Rows(b, rows, m - 1, iteration).raised
    ensures Rows(b, rows, m, iteration) == Cells(Rows(b, rows, m - 1, iteration), rows, m - 1, |rows[m - 1]|, iteration)
  {
  }

  /** Having scanned all of row `m`, the scan stands at the start of row
      `m + 1`. */
  lemma NextRow(b: Build, rows: seq<string>, m: nat)
    requires m < |rows| && Recorded(b, rows, m, |rows[m]|)
    ensures Recorded(b, rows, m + 1, 0)
  {
    assert forall k :: InGrid(rows, k) ==> (Before(k, m, |rows[m]|) <==> Before(k, m + 1, 0));
  }

  lemma {:induction false} RecordRows(b: Build, rows: seq<string>, m: nat)
    requires m <= |rows| && !b.raised && Recorded(b, rows, 0, 0)
    ensures Recorded(Rows(b, rows, m, 0), rows, m, 0)
  {
    if m > 0 {
      var b1 := Rows(b, rows, m - 1, 0);
      assert !b1.raised && Recorded(b1, rows, m - 1, 0) by {
        RecordRows(b, rows, m - 1);
        FirstPassRows(b, rows, m - 1);
      }
      RowsStep(b, rows, m, 0);
      var b2 := Cells(b1, rows, m - 1, |rows[m - 1]|, 0);
      assert Recorded(b2, rows, m, 0) by {
        RecordCells(b1, rows, m - 1, |rows[m - 1]|);
        NextRow(b2, rows, m - 1);
      }
    }
  }

  // ---------------------------------------------------------------------
  // What the later passes do
  // ---------------------------------------------------------------------

  /** A later pass never writes the reference dictionary, creates no
      subsection and leaves the handler's dictionary alone. */
  lemma {:induction false} LaterRowsKeep(b: Build, rows: seq<string>, m: nat, iteration: nat)
    requires m <= |rows| && iteration > 0
    ensures Kept(Rows(b, rows, m, iteration)) == Kept(b)
  {
    if m > 0 {
      LaterRowsKeep(b, rows, m - 1, iteration);
      LaterCellsKeep(Rows(b, rows, m - 1, iteration), rows, m - 1, |rows[m - 1]|, iteration);
    }
  }

  lemma {:induction false} LaterCellsKeep(b: Build, rows: seq<string>, y: nat, n: nat, iteration: nat)
    requires y < |rows| && n <= |rows[y]| && iteration > 0
    ensures Kept(Cells(b, rows, y, n, iteration)) == Kept(b)
  {
    if n > 0 {
      LaterCellsKeep(b, rows, y, n - 1, iteration);
    }
  }

  /** One cell of a later pass over a recorded map whose connectors all
      join two rooms: no KeyError, and a connector lays two exits that lead
      where they say. */
  lemma LinkCell(b: Build, rows: seq<string>, x: nat, y: nat, iteration: nat)
    requires iteration > 0 && InGrid(rows, (x, y))
    requires !b.raised && Recorded(b, rows, |rows|, 0) && ConnectorsJoinRooms(rows) && AllLead(b.exits, b.sections)
    ensures var b' := Visit(b, rows[y][x], x, y, iteration);
      && !b'.raised && Kept(b') == Kept(b) && AllLead(b'.exits, b'.sections)
      && |b'.exits| == |b.exits| + (if IsConnector(rows[y][x]) then 2 else 0)
  {
    var c := rows[y][x];
    assert Joined(rows, x, y);
    if c == '|' {
      PairLeads(b, rows, (x, y - 1), (x, y + 1), South, North);
      assert Visit(b, c, x, y, iteration) == ExitPair(b, (x, y - 1), (x, y + 1), South, North);
    } else if c == '-' {
      PairLeads(b, rows, (x - 1, y), (x + 1, y), East, West);
      assert Visit(b, c, x, y, iteration) == ExitPair(b, (x - 1, y), (x + 1, y), East, West);
    } else {
      assert Visit(b, c, x, y, iteration) == b;
    }
  }

  /** The two exits a connector lays between the room cells on either side
      of it lead where they say. */
  lemma PairLeads(b: Build, rows: seq<string>, from: Coord, to: Coord, d: Direction, back: Direction)
    requires Recorded(b, rows, |rows|, 0) && AllLead(b.exits, b.sections)
    requires InGrid(rows, from) && IsRoom(At(rows, from)) && InGrid(rows, to) && IsRoom(At(rows, to))
    requires to == Neighbour(from, d, 2) && from == Neighbour(to, back, 2)
    ensures from in b.dict && to in b.dict
    ensures AllLead(ExitPair(b, from, to, d, back).exits, b.sections)
  {
    assert Before(from, |rows|, 0) && Before(to, |rows|, 0);
    var pair := [ExitRecord(d, b.dict[from], b.dict[to]), ExitRecord(back, b.dict[to], b.dict[from])];
    assert Leads(pair[0], b.sections) && Leads(pair[1], b.sections);
    assert ExitPair(b, from, to, d, back).exits == b.exits + pair;
  }

  lemma {:induction false} LinkCells(b: Build, rows: seq<string>, y: nat, n: nat, iteration: nat)
    requires iteration > 0 && y < |rows| && n <= |rows[y]|
    requires !b.raised && Recorded(b, rows, |rows|, 0) && ConnectorsJoinRooms(rows) && AllLead(b.exits, b.sections)
    ensures var b' := Cells(b, rows, y, n, iteration);
      && !b'.raised && Kept(b') == Kept(b) && AllLead(b'.exits, b'.sections)
      && |b'.exits| == |b.exits| + 2 * CountIn(rows[y], n, IsConnector)
  {
    if n > 0 {
      LinkCells(b, rows, y, n - 1, iteration);
      var b1 := Cells(b, rows, y, n - 1, iteration);
      assert Recorded(b1, rows, |rows|, 0) by { assert Kept(b1) == Kept(b); }
      LinkCell(b1, rows, n - 1, y, iteration);
      CellsStep(b, rows, y, n, iteration);
      assert Cells(b, rows, y, n, iteration) == Visit(b1, rows[y][n - 1], n - 1, y, iteration);
    }
  }

  lemma {:induction false} LinkRows(b: Build, rows: seq<string>, m: nat, iteration: nat)
    requires iteration > 0 && m <= |rows|
    requires !b.raised && Recorded(b, rows, |rows|, 0) && ConnectorsJoinRooms(rows) && AllLead(b.exits, b.sections)
    ensures var b' := Rows(b, rows, m, iteration);
      && !b'.raised && Kept(b') == Kept(b) && AllLead(b'.exits, b'.sections)
      && |b'.exits| == |b.exits| + 2 * ConnectorCount(rows[..m])
  {
    if m > 0 {
      LinkRows(b, rows, m - 1, iteration);
      var b1 := Rows(b, rows, m - 1, iteration);
      assert Recorded(b1, rows, |rows|, 0) by { assert Kept(b1) == Kept(b); }
      LinkCells(b1, rows, m - 1, |rows[m - 1]|, iteration);
      assert rows[..m][..m - 1] == rows[..m - 1];
    }
  }

  // ---------------------------------------------------------------------
  // The insertion order of the reference dictionary
  // ---------------------------------------------------------------------

  /** `order` lists every key of the reference dictionary and nothing
      else, and is as long as the dictionary, so it lists each key once:
      what iterating over `room_section_dict.items()` visits. */
  ghost predicate OrderedKeys(b: Build)
  {
    && (forall k {:trigger k in b.order} {:trigger k in b.dict} :: k in b.order <==> k in b.dict)
    && |b.order| == |b.dict|
  }

  /** Recording under a key keeps the order a list of the keys. */
  lemma RecordOrdered(b: Build, k: Coord, v: Option<SectionId>)
    requires OrderedKeys(b)
    ensures OrderedKeys(Record(b, k, v))
  {
  }

  lemma VisitOrdered(b: Build, c: char, x: int, y: int, iteration: nat)
    requires OrderedKeys(b)
    ensures OrderedKeys(Visit(b, c, x, y, iteration))
  {
    match Dispatch(c)
    case None =>
    case Some(f) =>
      var (b', r) :=
        match f
        case RoomSubsection => BattlefieldBuilder.RoomSubsection(b, x, y, iteration)
        case VerticalExit => (VerticalExits(b, x, y, iteration), None)
        case HorizontalExit => (HorizontalExits(b, x, y, iteration), None);
      assert b'.dict == b.dict && b'.order == b.order;
      if iteration == 0 {
        RecordOrdered(b', (x, y), r);
      }
  }

  lemma CellsOrdered(b: Build, rows: seq<string>, y: nat, n: nat, iteration: nat)
    requires y < |rows| && n <= |rows[y]| && OrderedKeys(b)
    ensures OrderedKeys(Cells(b, rows, y, n, iteration))
  {
    forall b1: Build, x: int | OrderedKeys(b1) && 0 <= x < |rows[y]|
      ensures OrderedKeys(NextCell(b1, rows[y][x], x, y, iteration))
    {
      CellOrdered(b1, rows[y][x], x, y, iteration);
    }
    CellsKeep(b => OrderedKeys(b), b, rows, y, n, iteration);
  }

  /** One cell of a scan that has not raised yet. */
  function NextCell(b: Build, c: char, x: int, y: int, iteration: nat): Build
  {
    if b.raised then b else Visit(b, c, x, y, iteration)
  }

  /** Any property of a build that visiting one cell of row `y` keeps,
      scanning the row keeps. */
  lemma {:induction false} CellsKeep(inv: Build -> bool, b: Build, rows: seq<string>, y: nat, n: nat, iteration: nat)
    requires y < |rows| && n <= |rows[y]| && inv(b)
    requires forall b1: Build, x: int :: inv(b1) && 0 <= x < |rows[y]| ==> inv(NextCell(b1, rows[y][x], x, y, iteration))
    ensures inv(Cells(b, rows, y, n, iteration))
  {
    if n > 0 {
      CellsKeep(inv, b, rows, y, n - 1, iteration);
      var b1 := Cells(b, rows, y, n - 1, iteration);
      assert inv(NextCell(b1, rows[y][n - 1], n - 1, y, iteration));
      CellsStep(b, rows, y, n, iteration);
    }
  }

  lemma CellOrdered(b: Build, c: char, x: int, y: int, iteration: nat)
    requires OrderedKeys(b)
    ensures OrderedKeys(if b.raised then b else Visit(b, c, x, y, iteration))
  {
    if !b.raised {
      VisitOrdered(b, c, x, y, iteration);
    }
  }

  lemma {:induction false} RowsOrdered(b: Build, rows: seq<string>, m: nat, iteration: nat)
    requires m <= |rows| && OrderedKeys(b)
    ensures OrderedKeys(Rows(b, rows, m, iteration))
  {
    if m > 0 {
      var b1 := Rows(b, rows, m - 1, iteration);
      assert OrderedKeys(b1) by {
        RowsOrdered(b, rows, m - 1, iteration);
      }
      if !b1.raised {
        RowsStep(b, rows, m, iteration);
        CellsOrdered(b1, rows, m - 1, |rows[m - 1]|, iteration);
        assert Rows(b, rows, m, iteration) == Cells(b1, rows, m - 1, |rows[m - 1]|, iteration);
      }
    }
  }

  /** However many passes run, and whether or not one raises, the order
      lists the keys of the reference dictionary exactly once. */
  lemma {:induction false} PassesOrdered(b: Build, rows: seq<string>, k: nat)
    requires OrderedKeys(b)
    ensures OrderedKeys(Passes(b, rows, k))
  {
    if k > 0 {
      var b1 := Passes(b, rows, k - 1);
      assert OrderedKeys(b1) by {
        PassesOrdered(b, rows, k - 1);
      }
      if !b1.raised {
        PassesStep(b, rows, k);
        RowsOrdered(b1, rows, |rows|, k - 1);
      }
    }
  }

  // ---------------------------------------------------------------------
  // A whole build
  // ---------------------------------------------------------------------

  /** One more pass of a build that has not raised scans every row. */
  lemma PassesStep(b: Build, rows: seq<string>, k: nat)
    requires k > 0 && !Passes(b, rows, k - 1).raised
    ensures Passes(b, rows, k) == Rows(Passes(b, rows, k - 1), rows, |rows|, k - 1)
  {
  }

  /** A scan that has recorded nothing and created nothing yet. */
  predicate Fresh(b: Build)
  {
    b.dict == map[] && b.order == [] && b.sections == [] && b.exits == [] && !b.raised
  }

  /** `k` passes over a template whose connectors all join two rooms never
      raise; pass 0 records every room and connector cell and creates one
      subsection per room symbol; each later pass lays two exits per
      connector, each leading to the subsection two cells away in its own
      direction. */
  lemma {:induction false} ScanPasses(b: Build, rows: seq<string>, k: nat)
    requires Fresh(b) && ConnectorsJoinRooms(rows) && k >= 1
    ensures var r := Passes(b, rows, k);
      && !r.raised && Recorded(r, rows, |rows|, 0)
      && |r.sections| == RoomCount(rows)
      && |r.exits| == 2 * (k - 1) * ConnectorCount(rows)
      && AllLead(r.exits, r.sections)
  {
    assert rows[..|rows|] == rows;
    if k == 1 {
      PassesStep(b, rows, 1);
      assert Recorded(b, rows, 0, 0);
      FirstPassRows(b, rows, |rows|);
      RecordRows(b, rows, |rows|);
    } else {
      var r1 := Passes(b, rows, k - 1);
      var c := ConnectorCount(rows);
      assert && !r1.raised && Recorded(r1, rows, |rows|, 0)
             && |r1.sections| == RoomCount(rows)
             && |r1.exits| == 2 * (k - 2) * c
             && AllLead(r1.exits, r1.sections) by {
        ScanPasses(b, rows, k - 1);
      }
      PassesStep(b, rows, k);
      LinkRows(r1, rows, |rows|, k - 1);
      var r := Passes(b, rows, k);
      assert Recorded(r, rows, |rows|, 0) by {
        assert Kept(r) == Kept(r1);
      }
      PassArith(k, c);
    }
  }

  lemma PassArith(k: int, c: int)
    ensures 2 * (k - 2) * c + 2 * c == 2 * (k - 1) * c
  {
    calc {
      2 * (k - 1) * c;
    ==
      2 * ((k - 2) * c + c);
    }
  }

  /** `build_battlefield_map` without the sweep, over a template whose
      connectors all join two rooms: the same, on a fresh reference
      dictionary. */
  lemma BuildsTemplate(b: Build, gameMap: string, iterations: nat)
    requires b.sections == [] && b.exits == [] && !b.raised && iterations >= 1
    requires ConnectorsJoinRooms(MapToList(gameMap))
    ensures var rows := MapToList(gameMap);
      var r := BuildMap(b, gameMap, iterations, false);
      && !r.raised && Recorded(r, rows, |rows|, 0) && OrderedKeys(r)
      && |r.sections| == RoomCount(rows)
      && |r.exits| == 2 * (iterations - 1) * ConnectorCount(rows)
      && AllLead(r.exits, r.sections)
  {
    var start := b.(dict := map[], order := []);
    ScanPasses(start, MapToList(gameMap), iterations);
    PassesOrdered(start, MapToList(gameMap), iterations);
  }

  /** The builds `call_map_funcs_and_build_battlefield_map` asks for: two
      passes and no sweep create 9 subsections and 24 exits from the small
      template, 25 and 80 from the medium one, 49 and 168 from the large
      one. */
  lemma SmallBuild(b: Build)
    requires b.sections == [] && b.exits == [] && !b.raised
    ensures var r := BuildMap(b, SMALL_COMBAT_MAP, 2, false);
      && !r.raised && |r.sections| == 9 && |r.exits| == 24 && AllLead(r.exits, r.sections)
  {
    SmallTemplate(MapToList(SMALL_COMBAT_MAP));
    BuildsTemplate(b, SMALL_COMBAT_MAP, 2);
  }

  lemma MediumBuild(b: Build)
    requires b.sections == [] && b.exits == [] && !b.raised
    ensures var r := BuildMap(b, MEDIUM_COMBAT_MAP, 2, false);
      && !r.raised && |r.sections| == 25 && |r.exits| == 80 && AllLead(r.exits, r.sections)
  {
    MediumTemplate(MapToList(MEDIUM_COMBAT_MAP));
    BuildsTemplate(b, MEDIUM_COMBAT_MAP, 2);
  }

  lemma LargeBuild(b: Build)
    requires b.sections == [] && b.exits == [] && !b.raised
    ensures var r := BuildMap(b, LARGE_COMBAT_MAP, 2, false);
      && !r.raised && |r.sections| == 49 && |r.exits| == 168 && AllLead(r.exits, r.sections)
  {
    LargeTemplate(MapToList(LARGE_COMBAT_MAP));
    BuildsTemplate(b, LARGE_COMBAT_MAP, 2);
  }
}
