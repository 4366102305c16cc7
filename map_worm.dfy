/** The overhead-map "worm" of world/handlers/map.py: a `Map` object walks
    the rooms around the observer depth first along compass exits, records
    where each room lands on a 21 x 21 character grid, writes room glyphs
    and connectors into the grid in place, and renders the grid as text. */
module MapWorm {
  import opened Wrappers
  import opened Text
  import opened MapGrid
  import opened MapSymbols
  import opened MapWalk

  // ---------------------------------------------------------------------
  // class Map (world/handlers/map.py:176-397)
  // ---------------------------------------------------------------------

  class Map {
    /** The rooms the worm can reach, and the observer's room
        (`caller.location`). */
    const world: ClosedWorld
    const observer: RoomId
    const maxWidth: int
    const maxLength: int
    /** `mappable_coords`: the cells a room other than the observer's may be
        drawn in. Outside combat these are MAPPABLE_ROOM_COORDS, the list
        `draw` itself consults. */
    const mappableCoords: Cells

    /** The character grid, a list of rows of one-glyph cells. */
    var grid: Grid
    /** The worm's cursor: a row and a column of the grid. */
    var curX: int
    var curY: int
    /** `worm_has_mapped`: where each room the worm reached was placed. */
    var wormHasMapped: map<RoomId, Pos>
    /** `worm_has_mapped_room_ids`: the observer and the rooms drawn with a
        map symbol, in drawing order. */
    var wormHasMappedRoomIds: seq<RoomId>
    /** Whether the walk stopped on an exception, so that the source's
        constructor raises instead of returning a map. */
    var raised: bool

    /** For each room reached from another: that room and the index of the
        exit the worm followed. */
    ghost var parent: map<RoomId, (RoomId, nat)>
    /** How many exits the worm followed to reach each room. */
    ghost var depth: map<RoomId, nat>
    /** The cell the observer is drawn in, and the walk's budget. */
    ghost const centre: Pos
    ghost const radius: Budget


    /** `has_drawn`: whether the worm has already reached the room. */
    predicate HasDrawn(room: RoomId): (r: bool)
      reads this
      ensures Valid() && r ==> room in world
    {
      room in wormHasMapped
    }

    /** The shape of the map and what the worm has recorded so far. */
    ghost predicate Valid()
      reads this
    {
      && Framed(world, observer, maxWidth, maxLength, grid, centre, radius)
      && Walked(world, observer, centre, radius, wormHasMapped, wormHasMappedRoomIds, parent, depth)
    }

    /** The depth a room gets when reached along `via`. */
    ghost function DepthVia(via: Option<(RoomId, nat)>): nat
      reads this
    {
      match via
      case None => 0
      case Some((p, _)) => if p in depth then depth[p] + 1 else 0
    }

    /** `room` may be drawn next, reached along `via`: the observer first,
        on an empty map; any other room through a compass exit of a room
        already placed, with the cursor moved by that exit. */
    ghost predicate CanDraw(room: RoomId, via: Option<(RoomId, nat)>)
      reads this
    {
      Drawable(world, observer, wormHasMapped, (curX, curY), room, via)
    }

    /** The budget matches the depth: it is what the radius leaves over. */
    ghost predicate BudgetFits(budget: Budget, d: nat)
      reads this
    {
      Leaves(radius, budget, d)
    }

    /** `__init__` outside combat: the base grid, an empty walk, then the
        walk from the observer's room with the radius as budget. */
    constructor (world: World, observer: RoomId, maxWidth: int, maxLength: int)
      requires Closed(world) && observer in world
      requires 1 <= maxWidth <= 21 && 1 <= maxLength <= 21
      ensures this.world == world && this.observer == observer
      ensures this.maxWidth == maxWidth && this.maxLength == maxLength
      ensures mappableCoords == MAPPABLE_ROOM_COORDS
      ensures Valid()
      ensures observer in wormHasMapped && wormHasMapped[observer] == (StartSlot(maxWidth), StartSlot(maxLength))
      ensures |wormHasMappedRoomIds| >= 1 && wormHasMappedRoomIds[0] == observer
      ensures !raised && Radius(maxWidth, maxLength) != Steps(0) ==>
        Followed(world[observer].exits, |world[observer].exits|, wormHasMapped.Keys)
      ensures Radius(maxWidth, maxLength).Steps? ==>
        forall r :: r in wormHasMapped ==>
          Reach(wormHasMapped[r], (StartSlot(maxWidth), StartSlot(maxLength))) <= 2 * Radius(maxWidth, maxLength).n
    {
      var board := CreateBaseGrid();
      this.world := world;
      this.observer := observer;
      this.maxWidth := maxWidth;
      this.maxLength := maxLength;
      centre := (StartSlot(maxWidth), StartSlot(maxLength));
      radius := Radius(maxWidth, maxLength);
      MappableRoomCoordsFit();
      mappableCoords := MAPPABLE_ROOM_COORDS;
      grid := board;
      curX, curY := 0, 0;
      wormHasMapped := map[];
      wormHasMappedRoomIds := [];
      raised := false;
      parent := map[];
      depth := map[];
      new;
      var ok := DrawRoomOnMap(observer, Radius(maxWidth, maxLength), None);
      raised := !ok;
      forall r | r in wormHasMapped && radius.Steps?
        ensures Reach(wormHasMapped[r], centre) <= 2 * radius.n
      {
        WithinRadius(this, r);
      }
    }

    /** `update_pos`: move the cursor from `room`'s recorded cell by the step
        the exit name calls for; any other name leaves it on that cell. */
    method UpdatePos(room: RoomId, exitName: ExitName)
      requires room in wormHasMapped
      modifies this`curX, this`curY
      ensures (curX, curY) == Shift(wormHasMapped[room], Step(exitName))
    {
      curX, curY := wormHasMapped[room].0, wormHasMapped[room].1;
      if exitName == East {
        curY := curY + 2;
      } else if exitName == West {
        curY := curY - 2;
      } else if exitName == North {
        curX := curX - 2;
      } else if exitName == South {
        curX := curX + 2;
      } else if exitName == Northeast {
        curX := curX - 2;
        curY := curY + 2;
      } else if exitName == Southeast {
        curX := curX + 2;
        curY := curY + 2;
      } else if exitName == Northwest {
        curX := curX - 2;
        curY := curY - 2;
      } else if exitName == Southwest {
        curX := curX + 2;
        curY := curY - 2;
      }
    }

    /** `draw_exit`: write the connector glyph of `kind` at row `x`, column
        `y` when that cell lies strictly inside the map. */
    method DrawExit(kind: string, x: int, y: int)
      requires Covers(grid, 21, 21) && 1 <= maxWidth <= 21 && 1 <= maxLength <= 21
      modifies this`grid
      ensures grid == PutExit(old(grid), maxWidth, maxLength, kind, x, y)
    {
      if 0 < x < maxWidth && 0 < y < maxLength {
        if kind == "vertical" {
          grid := grid[x := grid[x][y := "|"]];
        } else if kind == "horizontal" {
          grid := grid[x := grid[x][y := "─"]];
        } else if kind == "nesw" {
          grid := grid[x := grid[x][y := "/"]];
        } else if kind == "nwse" {
          grid := grid[x := grid[x][y := "\\"]];
        }
      }
    }

    /** `start_loc_on_grid`: the observer's glyph at the median row and
        column, and the cursor there. */
    method StartLocOnGrid()
      requires Covers(grid, 21, 21) && 1 <= maxWidth <= 21 && 1 <= maxLength <= 21
      requires observer in world
      modifies this`grid, this`curX, this`curY
      ensures (curX, curY) == (StartSlot(maxWidth), StartSlot(maxLength))
      ensures grid == SetCell(old(grid), curX, curY, ObserverGlyph(world[observer].outdoor))
    {
      var x := Median(maxWidth).Floor;
      var y := Median(maxLength).Floor;
      MedianSlot(maxWidth);
      MedianSlot(maxLength);
      if world[observer].outdoor {
        grid := grid[x := grid[x][y := SYMBOLS[CharOutdoor]]];
      } else {
        grid := grid[x := grid[x][y := SYMBOLS[CharIndoor]]];
      }
      curX, curY := x, y;
    }

    /** One pass of the connector loop of `draw`, for the room at the
        cursor. */
    method DrawConnector(name: ExitName)
      requires Covers(grid, 21, 21) && 1 <= maxWidth <= 21 && 1 <= maxLength <= 21
      modifies this`grid
      ensures grid == PutConnector(old(grid), maxWidth, maxLength, (curX, curY), name)
    {
      // The exit-name chain of the source, as the table Connector.
      match Connector(name) {
        case None =>
        case Some((kind, off)) => DrawExit(kind, curX + off.0, curY + off.1);
      }
    }

    /** The connector loop of `draw` for a room at the cursor. */
    method DrawConnectors(exits: seq<Exit>)
      requires Valid()
      modifies this`grid
      ensures Valid()
      ensures grid == PutConnectors(old(grid), maxWidth, maxLength, (curX, curY), exits)
    {
      var i := 0;
      while i < |exits|
        invariant 0 <= i <= |exits|
        invariant grid == PutConnectors(old(grid), maxWidth, maxLength, (curX, curY), exits[..i])
      {
        assert exits[..i + 1][..i] == exits[..i];
        DrawConnector(exits[i].name);
        i := i + 1;
      }
      assert exits[..i] == exits;
    }

    /** `draw`: record the room at the cursor (the observer at the centre,
        with its own glyph) and, for any other room on a mappable cell,
        draw its connectors and then its glyph; a room with a map symbol
        joins the list of drawn room ids. Returns false where the glyph
        lookup raises. */
    method Draw(room: RoomId, ghost via: Option<(RoomId, nat)>) returns (ok: bool)
      requires Valid() && CanDraw(room, via)
      requires radius.Steps? ==> DepthVia(via) <= radius.n
      modifies this`grid, this`curX, this`curY, this`wormHasMapped, this`wormHasMappedRoomIds, this`parent, this`depth
      ensures Valid()
      ensures wormHasMapped == old(wormHasMapped)[room := (curX, curY)]
      ensures depth == old(depth)[room := old(DepthVia(via))]
      ensures room == observer ==>
        && ok && (curX, curY) == centre
        && wormHasMappedRoomIds == old(wormHasMappedRoomIds) + [room]
        && grid == SetCell(old(grid), curX, curY, ObserverGlyph(world[observer].outdoor))
      ensures room != observer ==>
        && (curX, curY) == old((curX, curY))
        && (grid, ok) == DrawnGrid(old(grid), maxWidth, maxLength, mappableCoords, world[room], (curX, curY),
                                   world[room].elev - world[observer].elev)
        && wormHasMappedRoomIds == old(wormHasMappedRoomIds) +
             (if (curX, curY) in mappableCoords && world[room].mapSymbol != [] then [room] else [])
    {
      if room == observer {
        StartLocOnGrid();
        Record(room, via);
        IdsAppend(wormHasMappedRoomIds, wormHasMapped, room);
        wormHasMappedRoomIds := wormHasMappedRoomIds + [room];
        ok := true;
        return;
      }
      Record(room, via);
      ok := true;
      if (curX, curY) in mappableCoords {
        DrawConnectors(world[room].exits);
        ok := DrawGlyph(room);
      }
    }

    /** The bookkeeping of `draw`: the room joins `worm_has_mapped` at the
        cursor. */
    method Record(room: RoomId, ghost via: Option<(RoomId, nat)>)
      requires Valid() && CanDraw(room, via)
      requires radius.Steps? ==> DepthVia(via) <= radius.n
      requires via.None? ==> (curX, curY) == centre
      modifies this`wormHasMapped, this`parent, this`depth
      ensures Valid()
      ensures wormHasMapped == old(wormHasMapped)[room := (curX, curY)]
      ensures depth == old(depth)[room := old(DepthVia(via))]
      ensures room !in wormHasMappedRoomIds
    {
      IdsGrow(wormHasMappedRoomIds, wormHasMapped, room, (curX, curY));
      if via.None? {
        PlaceObserver(world, observer, centre, radius);
        parent := map[];
        depth := map[room := 0];
      } else {
        PlaceRoom(world, observer, centre, radius, wormHasMapped, parent, depth,
                  room, via.value.0, via.value.1);
        depth := depth[room := depth[via.value.0] + 1];
        parent := parent[room := via.value];
      }
      wormHasMapped := wormHasMapped[room := (curX, curY)];
    }

    /** The end of `draw` for a room on a mappable cell at the cursor: a
        room with a map symbol joins the list of drawn room ids and gets
        its symbol (by elevation band when it has several); a room without
        one gets its sector type's symbol. Returns false where the lookup
        raises, leaving the grid as it was. */
    method DrawGlyph(room: RoomId) returns (ok: bool)
      requires Valid() && room in wormHasMapped && room !in wormHasMappedRoomIds
      requires 0 <= curX < 21 && 0 <= curY < 21
      modifies this`grid, this`wormHasMappedRoomIds
      ensures Valid()
      ensures wormHasMappedRoomIds == old(wormHasMappedRoomIds) + (if world[room].mapSymbol != [] then [room] else [])
      ensures ok <==> RoomGlyph(world[room], world[room].elev - world[observer].elev).Some?
      ensures ok ==> grid == SetCell(old(grid), curX, curY, RoomGlyph(world[room], world[room].elev - world[observer].elev).value)
      ensures !ok ==> grid == old(grid)
    {
      var r := world[room];
      ok := true;
      if r.mapSymbol != [] {
        IdsAppend(wormHasMappedRoomIds, wormHasMapped, room);
        wormHasMappedRoomIds := wormHasMappedRoomIds + [room];
        if |r.mapSymbol| == 1 {
          grid := SetCell(grid, curX, curY, r.mapSymbol[0]);
        } else {
          var band := ElevIndex(r.elev - world[observer].elev);
          if band < |r.mapSymbol| {
            grid := SetCell(grid, curX, curY, r.mapSymbol[band]);
          } else {
            ok := false;
          }
        }
      } else if r.sectorType in SYMBOLS {
        grid := SetCell(grid, curX, curY, SYMBOLS[r.sectorType]);
      } else {
        ok := false;
      }
    }

    /** `draw_room_on_map`: draw the room, and unless the budget is spent,
        follow each compass exit in order to a room not reached yet. Each
        room is drawn once, so the walk ends after at most as many calls as
        there are rooms. An exception raised by a deeper `draw` ends the
        whole walk. */
    method DrawRoomOnMap(room: RoomId, budget: Budget, ghost via: Option<(RoomId, nat)>) returns (ok: bool)
      requires Valid() && CanDraw(room, via)
      requires BudgetFits(budget, DepthVia(via))
      modifies this`grid, this`curX, this`curY, this`wormHasMapped, this`wormHasMappedRoomIds, this`parent, this`depth
      ensures Valid()
      ensures room in wormHasMapped
      ensures Grows(old(wormHasMapped), wormHasMapped) && Grows(old(depth), depth)
      ensures old(wormHasMappedRoomIds) <= wormHasMappedRoomIds
      ensures room == observer ==> old(wormHasMappedRoomIds) + [room] <= wormHasMappedRoomIds
      ensures budget == Steps(0) ==> wormHasMapped.Keys == old(wormHasMapped).Keys + {room}
      ensures ok && budget != Steps(0) ==> Followed(world[room].exits, |world[room].exits|, wormHasMapped.Keys)
      decreases |world.Keys - wormHasMapped.Keys|, 0
    {
      ghost var m0, d0, ids0 := wormHasMapped, depth, wormHasMappedRoomIds;
      ghost var d := DepthVia(via);
      ok := Draw(room, via);
      NewKey(m0, room, wormHasMapped[room]);
      NewKey(d0, room, d);
      ghost var ids1 := wormHasMappedRoomIds;
      assert ids0 <= ids1;
      if ok && budget != Steps(0) {
        FewerLeft(world.Keys, m0.Keys, wormHasMapped.Keys, room);
        ghost var m1, d1 := wormHasMapped, depth;
        ok := FollowExits(room, budget);
        GrowsTrans(m0, m1, wormHasMapped);
        GrowsTrans(d0, d1, depth);
        PrefixTrans(ids0, ids1, wormHasMappedRoomIds);
        if room == observer {
          PrefixTrans(ids0 + [room], ids1, wormHasMappedRoomIds);
        }
      }
    }

    /** The exit loop of `draw_room_on_map`, for a room already drawn: each
        exit in order, until a deeper `draw` raises. */
    method FollowExits(room: RoomId, budget: Budget) returns (ok: bool)
      requires Valid() && room in wormHasMapped
      requires budget != Steps(0) && BudgetFits(budget, depth[room])
      modifies this`grid, this`curX, this`curY, this`wormHasMapped, this`wormHasMappedRoomIds, this`parent, this`depth
      ensures Valid()
      ensures Grows(old(wormHasMapped), wormHasMapped) && Grows(old(depth), depth)
      ensures old(wormHasMappedRoomIds) <= wormHasMappedRoomIds
      ensures ok ==> Followed(world[room].exits, |world[room].exits|, wormHasMapped.Keys)
      decreases |world.Keys - wormHasMapped.Keys|, 2
    {
      ghost var m0, d0, ids0 := wormHasMapped, depth, wormHasMappedRoomIds;
      var exits := world[room].exits;
      var i := 0;
      ok := true;
      while i < |exits|
        invariant 0 <= i <= |exits|
        invariant Valid() && room in wormHasMapped && BudgetFits(budget, depth[room])
        invariant Grows(m0, wormHasMapped) && Grows(d0, depth) && ids0 <= wormHasMappedRoomIds
        invariant Followed(exits, i, wormHasMapped.Keys)
        invariant |world.Keys - wormHasMapped.Keys| <= |world.Keys - m0.Keys|
      {
        ghost var m1, d1 := wormHasMapped, depth;
        ok := FollowExit(room, i, budget);
        GrowsTrans(m0, m1, wormHasMapped);
        GrowsTrans(d0, d1, depth);
        FollowedNext(exits, i, m1.Keys, wormHasMapped.Keys);
        LeftShrinks(world.Keys, m1.Keys, wormHasMapped.Keys);
        if !ok {
          return;
        }
        i := i + 1;
      }
    }

    /** One pass of the exit loop of `draw_room_on_map`: a compass exit to a
        room not reached yet moves the cursor there and walks on from it. */
    method FollowExit(room: RoomId, i: nat, budget: Budget) returns (ok: bool)
      requires Valid() && room in wormHasMapped && i < |world[room].exits|
      requires budget != Steps(0) && BudgetFits(budget, depth[room])
      modifies this`grid, this`curX, this`curY, this`wormHasMapped, this`wormHasMappedRoomIds, this`parent, this`depth
      ensures Valid()
      ensures Grows(old(wormHasMapped), wormHasMapped) && Grows(old(depth), depth)
      ensures old(wormHasMappedRoomIds) <= wormHasMappedRoomIds
      ensures IsCompass(world[room].exits[i].name) ==> world[room].exits[i].destination in wormHasMapped
      decreases |world.Keys - wormHasMapped.Keys|, 1
    {
      var e := world[room].exits[i];
      ok := true;
      if IsCompass(e.name) && !HasDrawn(e.destination) {
        UpdatePos(room, e.name);
        ok := DrawRoomOnMap(e.destination, Next(budget), Some((room, i)));
      }
    }

    /** `show_map`: each row's cells joined by single spaces, each row
        followed by a newline. */
    method ShowMap() returns (s: string)
      ensures s == Render(grid)
    {
      s := "";
      var i := 0;
      while i < |grid|
        invariant 0 <= i <= |grid|
        invariant s + Render(grid[i..]) == Render(grid)
      {
        var row := Join(" ", grid[i]) + "\n";
        RenderFrom(grid, i);
        assert s + row + Render(grid[i + 1..]) == s + (row + Render(grid[i + 1..]));
        s := s + row;
        i := i + 1;
      }
    }
  }

  /** Every room the walk places lies within twice the radius of the
      observer's cell, in rows and in columns, when the radius is a whole
      number. */
  lemma WithinRadius(m: Map, r: RoomId)
    requires m.Valid() && r in m.wormHasMapped && Radius(m.maxWidth, m.maxLength).Steps?
    ensures Reach(m.wormHasMapped[r], (StartSlot(m.maxWidth), StartSlot(m.maxLength))) <= 2 * Radius(m.maxWidth, m.maxLength).n
  {
    assert Near(m.wormHasMapped, m.depth, m.centre, r);
    assert Shallow(m.depth, m.radius, r);
  }

  /** No room appears twice in the list of drawn room ids, so the list is
      never longer than the set of rooms the worm reached. */
  lemma DrawnIdsBounded(m: Map)
    requires m.Valid()
    ensures |m.wormHasMappedRoomIds| <= |m.wormHasMapped.Keys|
  {
    NoDupBound(m.wormHasMappedRoomIds, m.wormHasMapped.Keys);
  }
}
