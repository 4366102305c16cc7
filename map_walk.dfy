/** The pure side of the map worm of world/handlers/map.py: the walk's
    budget, the connectors `draw` puts around a room, and where the walk
    places the rooms it reaches. */
module MapWalk {
  import opened Wrappers
  import opened Text
  import opened MapGrid
  import opened MapSymbols

  /** How many more steps the worm may take from a room. The source starts
      from the float `(min(max_width, max_length) - 1) / 2` and stops when it
      reaches 0, which only an odd smaller side ever does: with an even one
      the budget runs through 0.5, -0.5, ... and never ends a walk. */
  datatype Budget = Steps(n: nat) | Unbounded

  /** A world in which every exit leads to a room of the world. */
  type ClosedWorld = w: World | Closed(w) witness map[]

  /** A list of cells of the 21 x 21 grid. */
  type Cells = c: seq<Pos> | Inside21(c) witness []

  /** The budget `__init__` hands to `draw_room_on_map`. */
  function Radius(w: int, l: int): (b: Budget)
    requires w >= 1 && l >= 1
    ensures b.Steps? <==> (if w <= l then w else l) % 2 == 1
    ensures b.Steps? ==> 2 * b.n + 1 == (if w <= l then w else l)
  {
    var m := if w <= l then w else l;
    if (m - 1) % 2 == 0 then Steps((m - 1) / 2) else Unbounded
  }

  /** The budget handed to a neighbour: one less, or still unbounded. */
  function Next(b: Budget): Budget
    requires b != Steps(0)
  {
    match b
    case Steps(n) => Steps(n - 1)
    case Unbounded => Unbounded
  }

  /** The larger of the row and column distances between two cells. */
  function Reach(p: Pos, q: Pos): (r: nat)
    ensures r == 0 <==> p == q
  {
    var dr := if p.0 >= q.0 then p.0 - q.0 else q.0 - p.0;
    var dc := if p.1 >= q.1 then p.1 - q.1 else q.1 - p.1;
    if dr >= dc then dr else dc
  }

  /** No value occurs twice. */
  predicate NoDup<T(==)>(s: seq<T>)
  {
    forall i, j :: 0 <= i < j < |s| ==> s[i] != s[j]
  }

  /** A list without repeats is no longer than the set its values come from. */
  lemma {:induction false} NoDupBound<T>(s: seq<T>, k: set<T>)
    requires NoDup(s) && forall i :: 0 <= i < |s| ==> s[i] in k
    ensures |s| <= |k|
    decreases |s|
  {
    if s != [] {
      var last := s[|s| - 1];
      var rest := s[..|s| - 1];
      assert forall i :: 0 <= i < |rest| ==> rest[i] in k - {last};
      NoDupBound(rest, k - {last});
    }
  }

  lemma {:induction false} SubsetCard<T>(a: set<T>, b: set<T>)
    requires a <= b
    ensures |a| <= |b|
    decreases |b|
  {
    if a != {} {
      var x :| x in a;
      SubsetCard(a - {x}, b - {x});
    }
  }

  /** Marking one more room as mapped leaves fewer rooms to map. */
  lemma FewerLeft<T>(all: set<T>, before: set<T>, after: set<T>, x: T)
    requires before <= after && x in all && x in after && x !in before
    ensures |all - after| < |all - before|
  {
    SubsetCard(all - after, (all - before) - {x});
  }

  // ---------------------------------------------------------------------
  // The connectors of draw (world/handlers/map.py:276-295)
  // ---------------------------------------------------------------------

  /** The grid after `draw` has put the connector for one exit name
      around a room at `pos`, on a `w` x `l` map. */
  function PutConnector(grid: Grid, w: int, l: int, pos: Pos, name: ExitName): (r: Grid)
    requires Covers(grid, w, l)
    ensures |r| == |grid| && forall i :: 0 <= i < |grid| ==> |r[i]| == |grid[i]|
  {
    match Connector(name)
    case None => grid
    case Some((kind, off)) => PutExit(grid, w, l, kind, pos.0 + off.0, pos.1 + off.1)
  }

  /** The grid after `draw` has put the connectors of `exits` around a room
      at `pos`, in exit order, on a `w` x `l` map. */
  function PutConnectors(grid: Grid, w: int, l: int, pos: Pos, exits: seq<Exit>): (r: Grid)
    requires Covers(grid, w, l)
    ensures |r| == |grid| && forall i :: 0 <= i < |grid| ==> |r[i]| == |grid[i]|
    decreases |exits|
  {
    if exits == [] then grid
    else
      var g := PutConnectors(grid, w, l, pos, exits[..|exits| - 1]);
      assert Covers(g, w, l);
      PutConnector(g, w, l, pos, exits[|exits| - 1].name)
  }

  /** Connectors only land in the eight cells around the room, and never on
      the frame of the map: the room's own cell, every cell two or more
      steps away and rows and columns 0, `w`, `l` and beyond keep their
      glyphs. */
  lemma {:induction false} ConnectorsStayAround(grid: Grid, w: int, l: int, pos: Pos, exits: seq<Exit>, i: int, j: int)
    requires Covers(grid, w, l)
    requires 0 <= i < |grid| && 0 <= j < |grid[i]|
    requires Reach((i, j), pos) != 1 || i == 0 || j == 0 || i >= w || j >= l
    ensures PutConnectors(grid, w, l, pos, exits)[i][j] == grid[i][j]
    decreases |exits|
  {
    if exits != [] {
      var g := PutConnectors(grid, w, l, pos, exits[..|exits| - 1]);
      ConnectorsStayAround(grid, w, l, pos, exits[..|exits| - 1], i, j);
      match Connector(exits[|exits| - 1].name)
      case None =>
      case Some((kind, off)) =>
        ConnectorAdjacent(exits[|exits| - 1].name);
        assert Covers(g, w, l);
        assert (pos.0 + off.0, pos.1 + off.1) != (i, j) || !(0 < i < w && 0 < j < l);
    }
  }

  /** A room on an even cell never has its neighbours' room cells (both
      components even) overwritten by its connectors. */
  lemma ConnectorsSpareRoomCells(grid: Grid, w: int, l: int, pos: Pos, exits: seq<Exit>, i: int, j: int)
    requires Covers(grid, w, l)
    requires pos.0 % 2 == 0 && pos.1 % 2 == 0 && i % 2 == 0 && j % 2 == 0
    requires 0 <= i < |grid| && 0 <= j < |grid[i]|
    ensures PutConnectors(grid, w, l, pos, exits)[i][j] == grid[i][j]
  {
    assert Reach((i, j), pos) != 1;
    ConnectorsStayAround(grid, w, l, pos, exits, i, j);
  }

  /** The grid `draw` leaves for a room other than the observer's, placed
      at `pos`, with `d` its elevation minus the observer's, together with
      whether `draw` returns normally; `coords` are the mappable cells.
      Off them nothing is written; on them the connectors go first, then
      the room glyph, and a glyph lookup that raises leaves the connectors
      behind. */
  function DrawnGrid(grid: Grid, w: int, l: int, coords: seq<Pos>, room: Room, pos: Pos, d: int): (r: (Grid, bool))
    requires Covers(grid, 21, 21) && 1 <= w <= 21 && 1 <= l <= 21 && Inside21(coords)
    ensures Covers(r.0, 21, 21) && |r.0| == |grid|
    ensures pos !in coords ==> r == (grid, true)
    ensures r.1 <==> pos !in coords || RoomGlyph(room, d).Some?
    ensures pos in coords && r.1 ==> r.0[pos.0][pos.1] == RoomGlyph(room, d).value
  {
    if pos in coords then
      var g := PutConnectors(grid, w, l, pos, room.exits);
      match RoomGlyph(room, d)
      case Some(c) => (SetCell(g, pos.0, pos.1, c), true)
      case None => (g, false)
    else (grid, true)
  }

  // ---------------------------------------------------------------------
  // Where the walk puts rooms (world/handlers/map.py:209-258)
  // ---------------------------------------------------------------------

  /** Room `r` sits where exit `via.1` of room `via.0` leads: two cells away
      in the exit's direction, one step deeper. */
  ghost predicate LinkedBy(world: World, mapped: map<RoomId, Pos>, depth: map<RoomId, nat>, r: RoomId, via: (RoomId, nat))
  {
    var (p, k) := via;
    && p in mapped && r in mapped && p in depth && r in depth && p in world
    && k < |world[p].exits| && world[p].exits[k].destination == r
    && IsCompass(world[p].exits[k].name)
    && mapped[r] == Shift(mapped[p], Step(world[p].exits[k].name))
    && depth[r] == depth[p] + 1
  }

  /** Room `r` sits where the exit it was reached through leads. */
  ghost predicate Linked(world: World, mapped: map<RoomId, Pos>, depth: map<RoomId, nat>,
                         parent: map<RoomId, (RoomId, nat)>, r: RoomId)
  {
    r in parent && LinkedBy(world, mapped, depth, r, parent[r])
  }

  /** Room `r` is no deeper than the radius allows. */
  ghost predicate Shallow(depth: map<RoomId, nat>, radius: Budget, r: RoomId)
  {
    r in depth && (radius.Steps? ==> depth[r] <= radius.n)
  }

  /** Room `r` lies within twice its depth of the centre, in rows and in
      columns. */
  ghost predicate Near(mapped: map<RoomId, Pos>, depth: map<RoomId, nat>, centre: Pos, r: RoomId)
  {
    r in mapped && r in depth && Reach(mapped[r], centre) <= 2 * depth[r]
  }

  /** Every room reached sits where `update_pos` put it: the observer at
      the centre, every other room two cells from the room it was reached
      from, in the direction of the exit followed, one step deeper and
      within twice its depth of the centre; no room is deeper than the
      radius allows. */
  ghost predicate Placement(world: World, observer: RoomId, centre: Pos, radius: Budget,
                            mapped: map<RoomId, Pos>, parent: map<RoomId, (RoomId, nat)>, depth: map<RoomId, nat>)
  {
    && depth.Keys == mapped.Keys
    && (observer in mapped ==> mapped[observer] == centre && depth[observer] == 0)
    && (mapped != map[] ==> observer in mapped)
    && parent.Keys == mapped.Keys - {observer}
    && (forall r {:trigger Linked(world, mapped, depth, parent, r)} :: r in parent ==> Linked(world, mapped, depth, parent, r))
    && (forall r {:trigger Near(mapped, depth, centre, r)} :: r in mapped ==> Near(mapped, depth, centre, r))
    && (forall r {:trigger Shallow(depth, radius, r)} :: r in depth ==> Shallow(depth, radius, r))
  }

  /** The frame of a map: its size, the observer, a 21 x 21 grid, and the
      centre and radius the size gives. */
  ghost predicate Framed(world: World, observer: RoomId, maxWidth: int, maxLength: int, grid: Grid, centre: Pos, radius: Budget)
  {
    && 1 <= maxWidth <= 21 && 1 <= maxLength <= 21
    && observer in world
    && Covers(grid, 21, 21)
    && centre == (StartSlot(maxWidth), StartSlot(maxLength))
    && radius == Radius(maxWidth, maxLength)
  }

  /** What the walk has recorded: rooms of the world, placed as Placement
      says, and the drawn ids among them. */
  ghost predicate Walked(world: World, observer: RoomId, centre: Pos, radius: Budget, mapped: map<RoomId, Pos>,
                         ids: seq<RoomId>, parent: map<RoomId, (RoomId, nat)>, depth: map<RoomId, nat>)
  {
    && mapped.Keys <= world.Keys
    && IdsReached(ids, mapped)
    && Placement(world, observer, centre, radius, mapped, parent, depth)
  }

  /** One compass step moves a room at most two cells further out. */
  lemma StepReach(q: Pos, c: Pos, name: ExitName)
    ensures Reach(Shift(q, Step(name)), c) <= Reach(q, c) + 2
  {
  }

  /** Every compass exit among the first `n` of `exits` leads to a room in
      `reached`. */
  ghost predicate Followed(exits: seq<Exit>, n: nat, reached: set<RoomId>)
    requires n <= |exits|
  {
    forall k :: 0 <= k < n && IsCompass(exits[k].name) ==> exits[k].destination in reached
  }

  /** Every entry of `a` is in `b` with the same value. */
  ghost predicate Grows<K, V>(a: map<K, V>, b: map<K, V>)
  {
    forall k :: k in a ==> k in b && b[k] == a[k]
  }

  /** `room` may be drawn next with the cursor at `cursor`, reached along
      `via`: the observer first, on an empty map; any other room through a
      compass exit of a room already placed, the cursor moved by that exit. */
  ghost predicate Drawable(world: World, observer: RoomId, mapped: map<RoomId, Pos>, cursor: Pos,
                           room: RoomId, via: Option<(RoomId, nat)>)
  {
    && room in world && room !in mapped
    && match via
       case None => room == observer && mapped == map[]
       case Some((p, k)) =>
         && observer in mapped && p in mapped && p in world
         && k < |world[p].exits| && world[p].exits[k].destination == room
         && IsCompass(world[p].exits[k].name)
         && cursor == Shift(mapped[p], Step(world[p].exits[k].name))
  }

  /** The budget is what the radius leaves over after `d` steps. */
  ghost predicate Leaves(radius: Budget, budget: Budget, d: nat)
  {
    match radius
    case Unbounded => budget == Unbounded
    case Steps(r) => budget.Steps? && d + budget.n == r
  }

  lemma PrefixTrans<T>(a: seq<T>, b: seq<T>, c: seq<T>)
    requires a <= b && b <= c
    ensures a <= c
  {
  }

  /** A map with one new key grows by exactly that key. */
  lemma NewKey<K, V>(m: map<K, V>, k: K, v: V)
    requires k !in m
    ensures Grows(m, m[k := v]) && m[k := v].Keys == m.Keys + {k}
  {
  }

  lemma GrowsTrans<K, V>(a: map<K, V>, b: map<K, V>, c: map<K, V>)
    requires Grows(a, b) && Grows(b, c)
    ensures Grows(a, c)
  {
  }

  /** Reaching more rooms never leaves more rooms to reach. */
  lemma LeftShrinks<T>(all: set<T>, before: set<T>, after: set<T>)
    requires before <= after
    ensures |all - after| <= |all - before|
  {
    SubsetCard(all - after, all - before);
  }

  /** Following one more exit, while the set of reached rooms only grows. */
  lemma FollowedNext(exits: seq<Exit>, n: nat, reached: set<RoomId>, reached': set<RoomId>)
    requires n < |exits| && Followed(exits, n, reached) && reached <= reached'
    requires IsCompass(exits[n].name) ==> exits[n].destination in reached'
    ensures Followed(exits, n + 1, reached')
  {
  }

  /** The drawn room ids: each one a room the worm reached, none twice. */
  ghost predicate IdsReached(ids: seq<RoomId>, mapped: map<RoomId, Pos>)
  {
    NoDup(ids) && forall k :: 0 <= k < |ids| ==> ids[k] in mapped
  }

  /** A room reached for the first time is not among the drawn ids yet. */
  lemma IdsGrow(ids: seq<RoomId>, mapped: map<RoomId, Pos>, room: RoomId, pos: Pos)
    requires IdsReached(ids, mapped) && room !in mapped
    ensures IdsReached(ids, mapped[room := pos]) && room !in ids
  {
  }

  /** Appending a reached room that is not drawn yet keeps the ids distinct. */
  lemma IdsAppend(ids: seq<RoomId>, mapped: map<RoomId, Pos>, room: RoomId)
    requires IdsReached(ids, mapped) && room in mapped && room !in ids
    ensures IdsReached(ids + [room], mapped)
  {
  }

  /** The observer placed on an empty walk. */
  lemma PlaceObserver(world: World, observer: RoomId, centre: Pos, radius: Budget)
    ensures Placement(world, observer, centre, radius, map[observer := centre], map[], map[observer := 0])
  {
  }

  /** A new room placed through a compass exit of a room already placed,
      no deeper than the radius allows, keeps the placement. */
  lemma PlaceRoom(world: World, observer: RoomId, centre: Pos, radius: Budget,
                  mapped: map<RoomId, Pos>, parent: map<RoomId, (RoomId, nat)>, depth: map<RoomId, nat>,
                  room: RoomId, p: RoomId, k: nat)
    requires Placement(world, observer, centre, radius, mapped, parent, depth)
    requires room !in mapped && observer in mapped && p in mapped && p in world
    requires k < |world[p].exits| && world[p].exits[k].destination == room && IsCompass(world[p].exits[k].name)
    requires radius.Steps? ==> depth[p] + 1 <= radius.n
    ensures var pos := Shift(mapped[p], Step(world[p].exits[k].name));
      Placement(world, observer, centre, radius, mapped[room := pos], parent[room := (p, k)], depth[room := depth[p] + 1])
  {
    var pos := Shift(mapped[p], Step(world[p].exits[k].name));
    var mapped', parent', depth' := mapped[room := pos], parent[room := (p, k)], depth[room := depth[p] + 1];
    StepReach(mapped[p], centre, world[p].exits[k].name);
    assert Near(mapped, depth, centre, p);
    forall r | r in mapped' ensures Near(mapped', depth', centre, r) {
      if r != room {
        assert Near(mapped, depth, centre, r);
      }
    }
    forall r | r in parent' ensures Linked(world, mapped', depth', parent', r) {
      if r != room {
        assert Linked(world, mapped, depth, parent, r);
      }
    }
    assert Shallow(depth, radius, p);
    forall r | r in depth' ensures Shallow(depth', radius, r) {
      if r != room {
        assert Shallow(depth, radius, r);
      }
    }
  }
}
