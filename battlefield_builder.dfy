/** The scan of commands/building/combat_map_builder.py that turns a
    battlefield template into room subsections and the exits between them.
    Creating a room subsection appends its cell to `sections` (the section's
    id is its index there); creating an exit appends a record to `exits`. */
module BattlefieldBuilder {
  import opened Wrappers
  import opened Text
  import opened BattlefieldTemplates

  /** A cell of the template: a column `x` and a row `y`. */
  type Coord = (int, int)
  /** A room subsection: its index in the list of created subsections. */
  type SectionId = nat

  /** The key of a created exit; its alias is the key's first letter. */
  datatype Direction = North | East | South | West

  /** A created exit. Python passes whatever the reference dictionary holds,
      so a location or destination may be None. */
  datatype ExitRecord = ExitRecord(key: Direction, location: Option<SectionId>, destination: Option<SectionId>)

  /** Everything a build changes:
      - `dict`: `room_section_dict`, the reference dictionary of the scan;
      - `order`: its keys in insertion order, the order `.items()` yields;
      - `sections`: the created subsections, each by the cell it stands for;
      - `handler`: the handler's `battlefield_room_section_dict`, None while
        the attribute is unset;
      - `exits`: the created exits;
      - `raised`: whether a KeyError ended the build. */
  datatype Build = Build(
    dict: map<Coord, Option<SectionId>>,
    order: seq<Coord>,
    sections: seq<Coord>,
    handler: Option<map<Coord, SectionId>>,
    exits: seq<ExitRecord>,
    raised: bool)

  /** The cell two steps away in a direction: north is toward row 0. */
  function Neighbour(k: Coord, d: Direction, steps: int): Coord
  {
    match d
    case North => (k.0, k.1 - steps)
    case East => (k.0 + steps, k.1)
    case South => (k.0, k.1 + steps)
    case West => (k.0 - steps, k.1)
  }

  /** The handler's dictionary, or a new empty one when it is unset or empty. */
  function OrEmpty(handler: Option<map<Coord, SectionId>>): map<Coord, SectionId>
  {
    if handler.Some? then handler.value else map[]
  }

  // ---------------------------------------------------------------------
  // The build functions (commands/building/combat_map_builder.py:83-169)
  // ---------------------------------------------------------------------

  /** `build_room_subsection_for_combat`: on pass 0, creates a subsection for
      cell `(x, y)` and records it in the handler's dictionary under that
      cell; on any later pass, creates nothing and returns None. */
  function RoomSubsection(b: Build, x: int, y: int, iteration: nat): (r: (Build, Option<SectionId>))
    ensures iteration > 0 ==> r == (b, None)
    ensures iteration == 0 ==>
      && r.1 == Some(|b.sections|)
      && r.0.sections == b.sections + [(x, y)]
      && r.0.handler == Some(OrEmpty(b.handler)[(x, y) := |b.sections|])
      && r.0 == b.(sections := r.0.sections, handler := r.0.handler)
  {
    if iteration > 0 then (b, None)
    else
      var id := |b.sections|;
      (b.(sections := b.sections + [(x, y)], handler := Some(OrEmpty(b.handler)[(x, y) := id])), Some(id))
  }

  /** The two exits a connector lays between the subsections on either side
      of it: `d` from the first to the second and the reverse back. A cell
      missing from the reference dictionary is a KeyError that creates
      nothing. */
  function ExitPair(b: Build, from: Coord, to: Coord, d: Direction, back: Direction): (r: Build)
    ensures Kept(r) == Kept(b)
    ensures r.raised <==> b.raised || from !in b.dict || to !in b.dict
    ensures from !in b.dict || to !in b.dict ==> r.exits == b.exits
    ensures from in b.dict && to in b.dict ==>
      var n := |b.exits|;
      && |r.exits| == n + 2 && r.exits[..n] == b.exits
      && r.exits[n].key == d && r.exits[n].location == b.dict[from] && r.exits[n].destination == b.dict[to]
      && r.exits[n + 1] == ExitRecord(back, r.exits[n].destination, r.exits[n].location)
  {
    if from !in b.dict || to !in b.dict then b.(raised := true)
    else b.(exits := b.exits + [ExitRecord(d, b.dict[from], b.dict[to]), ExitRecord(back, b.dict[to], b.dict[from])])
  }

  /** `build_vertical_exit`: nothing on pass 0; on a later pass "south" from
      the cell above to the cell below and "north" back, or a KeyError when
      either cell is missing from the reference dictionary. */
  function VerticalExits(b: Build, x: int, y: int, iteration: nat): (r: Build)
    ensures iteration == 0 ==> r == b
    ensures Kept(r) == Kept(b)
    ensures iteration > 0 ==> (r.raised <==> b.raised || (x, y - 1) !in b.dict || (x, y + 1) !in b.dict)
    ensures iteration > 0 && (x, y - 1) in b.dict && (x, y + 1) in b.dict ==>
      var n := |b.exits|;
      && |r.exits| == n + 2 && r.exits[..n] == b.exits
      && r.exits[n].location == b.dict[(x, y - 1)] && r.exits[n].destination == b.dict[(x, y + 1)]
      && Neighbour((x, y - 1), r.exits[n].key, 2) == (x, y + 1)
      && r.exits[n + 1].location == b.dict[(x, y + 1)] && r.exits[n + 1].destination == b.dict[(x, y - 1)]
      && Neighbour((x, y + 1), r.exits[n + 1].key, 2) == (x, y - 1)
  {
    if iteration == 0 then b else ExitPair(b, (x, y - 1), (x, y + 1), South, North)
  }

  /** `build_horizontal_exit`: nothing on pass 0; on a later pass "east"
      from the cell to the left to the cell to the right and "west" back. */
  function HorizontalExits(b: Build, x: int, y: int, iteration: nat): (r: Build)
    ensures iteration == 0 ==> r == b
    ensures Kept(r) == Kept(b)
    ensures iteration > 0 ==> (r.raised <==> b.raised || (x - 1, y) !in b.dict || (x + 1, y) !in b.dict)
    ensures iteration > 0 && (x - 1, y) in b.dict && (x + 1, y) in b.dict ==>
      var n := |b.exits|;
      && |r.exits| == n + 2 && r.exits[..n] == b.exits
      && r.exits[n].location == b.dict[(x - 1, y)] && r.exits[n].destination == b.dict[(x + 1, y)]
      && Neighbour((x - 1, y), r.exits[n].key, 2) == (x + 1, y)
      && r.exits[n + 1].location == b.dict[(x + 1, y)] && r.exits[n + 1].destination == b.dict[(x - 1, y)]
      && Neighbour((x + 1, y), r.exits[n + 1].key, 2) == (x - 1, y)
  {
    if iteration == 0 then b else ExitPair(b, (x - 1, y), (x + 1, y), East, West)
  }

  /** `room_section_dict[(x, y)] = room_section`: a new key goes to the end
      of the insertion order. */
  function Record(b: Build, k: Coord, v: Option<SectionId>): Build
  {
    b.(dict := b.dict[k := v], order := if k in b.dict then b.order else b.order + [k])
  }

  /** One cell of the scan: the legend entry the character matches builds,
      and on pass 0 its result is recorded under the cell. Which entry that
      is, LegendDispatch states. */
  function Visit(b: Build, c: char, x: int, y: int, iteration: nat): (r: Build)
    ensures !IsRoom(c) && !IsConnector(c) ==> r == b
    ensures iteration > 0 ==> Kept(r) == Kept(b)
    ensures iteration > 0 && !IsConnector(c) ==> r == b
    ensures iteration == 0 ==> r.exits == b.exits && r.raised == b.raised
    ensures iteration == 0 ==> |r.sections| == |b.sections| + (if IsRoom(c) then 1 else 0)
    ensures iteration == 0 ==> ((x, y) in r.dict <==> (x, y) in b.dict || IsRoom(c) || IsConnector(c))
    ensures iteration == 0 && (IsRoom(c) || IsConnector(c)) ==> (r.dict[(x, y)].Some? <==> IsRoom(c))
  {
    match Dispatch(c)
    case None => b
    case Some(f) => Apply(b, f, x, y, iteration)
  }

  /** Calling one build function and recording its result on pass 0. */
  function Apply(b: Build, f: BuildFunction, x: int, y: int, iteration: nat): (r: Build)
    ensures iteration > 0 ==> Kept(r) == Kept(b)
    ensures iteration == 0 ==> r.exits == b.exits && r.raised == b.raised
    ensures iteration == 0 ==> (x, y) in r.dict && (r.dict[(x, y)].Some? <==> f.RoomSubsection?)
    ensures iteration == 0 ==> forall k :: k in b.dict && k != (x, y) ==> k in r.dict && r.dict[k] == b.dict[k]
    ensures iteration == 0 && f.RoomSubsection? ==> r.dict[(x, y)] == Some(|b.sections|) && r.sections == b.sections + [(x, y)]
    ensures iteration == 0 && !f.RoomSubsection? ==> r.sections == b.sections
  {
    var (b', r) :=
      match f
      case RoomSubsection => RoomSubsection(b, x, y, iteration)
      case VerticalExit => (VerticalExits(b, x, y, iteration), None)
      case HorizontalExit => (HorizontalExits(b, x, y, iteration), None);
    if iteration == 0 then Record(b', (x, y), r) else b'
  }

  // ---------------------------------------------------------------------
  // The scan (commands/building/combat_map_builder.py:183-228)
  // ---------------------------------------------------------------------

  /** The first `n` cells of row `y`, left to right; a KeyError stops the
      scan. */
  function Cells(b: Build, rows: seq<string>, y: nat, n: nat, iteration: nat): Build
    requires y < |rows| && n <= |rows[y]|
  {
    if n == 0 then b
    else
      var b' := Cells(b, rows, y, n - 1, iteration);
      if b'.raised then b' else Visit(b', rows[y][n - 1], n - 1, y, iteration)
  }

  /** The first `m` rows, top to bottom, each as long as it is. */
  function Rows(b: Build, rows: seq<string>, m: nat, iteration: nat): Build
    requires m <= |rows|
  {
    if m == 0 then b
    else
      var b' := Rows(b, rows, m - 1, iteration);
      if b'.raised then b' else Cells(b', rows, m - 1, |rows[m - 1]|, iteration)
  }

  /** The first `k` passes over all the rows. */
  function Passes(b: Build, rows: seq<string>, k: nat): Build
  {
    if k == 0 then b
    else
      var b' := Passes(b, rows, k - 1);
      if b'.raised then b' else Rows(b', rows, |rows|, k - 1)
  }

  // ---------------------------------------------------------------------
  // The auto-link sweep (commands/building/combat_map_builder.py:230-279)
  // ---------------------------------------------------------------------

  /** The exit toward direction `d` from cell `k`, if the neighbour one
      cell away is a key of the dictionary holding a subsection. */
  function LinkToward(dict: map<Coord, Option<SectionId>>, k: Coord, d: Direction): seq<ExitRecord>
    requires k in dict
  {
    var n := Neighbour(k, d, 1);
    if n in dict && dict[n].Some? then [ExitRecord(d, dict[k], dict[n])] else []
  }

  /** The exits the sweep creates from one entry: north, east, south, west. */
  function LinksFrom(dict: map<Coord, Option<SectionId>>, k: Coord): (r: seq<ExitRecord>)
    ensures |r| <= 4
    ensures k !in dict ==> r == []
    ensures forall i :: 0 <= i < |r| ==>
      && k in dict && r[i].location == dict[k]
      && Neighbour(k, r[i].key, 1) in dict && r[i].destination == dict[Neighbour(k, r[i].key, 1)]
      && r[i].destination.Some?
    ensures forall i, j :: 0 <= i < j < |r| ==> r[i].key != r[j].key
  {
    if k !in dict then []
    else LinkToward(dict, k, North) + LinkToward(dict, k, East) + LinkToward(dict, k, South) + LinkToward(dict, k, West)
  }

  /** The exits the sweep creates from the entries in `order`, in turn. */
  function AutoLinks(dict: map<Coord, Option<SectionId>>, order: seq<Coord>): (r: seq<ExitRecord>)
    ensures |r| <= 4 * |order|
    ensures forall i :: 0 <= i < |r| ==> r[i].destination.Some?
  {
    if order == [] then [] else AutoLinks(dict, order[..|order| - 1]) + LinksFrom(dict, order[|order| - 1])
  }

  /** `build_battlefield_map`: a fresh reference dictionary, `iterations`
      passes over the rows of the map, then the sweep if `buildExits`. */
  function BuildMap(b: Build, gameMap: string, iterations: nat, buildExits: bool): (r: Build)
    ensures iterations == 0 ==> r.dict == map[] && r.order == [] && r.sections == b.sections && r.raised == b.raised
    ensures var scanned := Passes(b.(dict := map[], order := []), MapToList(gameMap), iterations);
      && Kept(r) == Kept(scanned) && r.raised == scanned.raised
      && |r.exits| >= |scanned.exits| && r.exits[..|scanned.exits|] == scanned.exits
      && (!buildExits || scanned.raised ==> r.exits == scanned.exits)
      && (forall i :: |scanned.exits| <= i < |r.exits| ==> r.exits[i].destination.Some?)
  {
    var scanned := Passes(b.(dict := map[], order := []), MapToList(gameMap), iterations);
    if buildExits && !scanned.raised then scanned.(exits := scanned.exits + AutoLinks(scanned.dict, scanned.order))
    else scanned
  }

  // ---------------------------------------------------------------------
  // What a pass leaves behind
  // ---------------------------------------------------------------------

  /** `k` is a cell of the map. */
  predicate InGrid(rows: seq<string>, k: Coord)
  {
    0 <= k.1 < |rows| && 0 <= k.0 < |rows[k.1]|
  }

  /** The character of the cell. */
  function At(rows: seq<string>, k: Coord): char
    requires InGrid(rows, k)
  {
    rows[k.1][k.0]
  }

  /** A character some legend entry builds from. */
  predicate Built(c: char)
  {
    IsRoom(c) || IsConnector(c)
  }

  /** The scan reaches cell `k` before column `n` of row `m`. */
  predicate Before(k: Coord, m: int, n: int)
  {
    k.1 < m || (k.1 == m && k.0 < n)
  }

  /** What pass 0 has recorded once it reaches column `n` of row `m`: a
      key for exactly the room and connector cells scanned so far; and
      under a room cell the subsection created for that cell, under a
      connector cell None. */
  ghost predicate Recorded(b: Build, rows: seq<string>, m: int, n: int)
  {
    && (forall k {:trigger k in b.dict} :: k in b.dict ==>
          && InGrid(rows, k) && Before(k, m, n) && Built(At(rows, k))
          && (b.dict[k].Some? <==> IsRoom(At(rows, k)))
          && (b.dict[k].Some? ==> b.dict[k].value < |b.sections| && b.sections[b.dict[k].value] == k))
    && (forall k {:trigger Before(k, m, n)} :: InGrid(rows, k) && Before(k, m, n) && Built(At(rows, k)) ==> k in b.dict)
  }

  /** The part of a build a later pass leaves alone. */
  function Kept(b: Build): (map<Coord, Option<SectionId>>, seq<Coord>, seq<Coord>, Option<map<Coord, SectionId>>)
  {
    (b.dict, b.order, b.sections, b.handler)
  }

  /** An exit leads from a subsection to the subsection two cells away in
      the exit's own direction. */
  predicate Leads(e: ExitRecord, sections: seq<Coord>)
  {
    && e.location.Some? && e.destination.Some?
    && e.location.value < |sections| && e.destination.value < |sections|
    && sections[e.destination.value] == Neighbour(sections[e.location.value], e.key, 2)
  }

  /** Every exit leads where its key says. */
  predicate AllLead(exits: seq<ExitRecord>, sections: seq<Coord>)
  {
    forall i :: 0 <= i < |exits| ==> Leads(exits[i], sections)
  }
}
