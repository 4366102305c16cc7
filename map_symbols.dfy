/** What the overhead map draws for a room and how it moves between rooms:
    the symbol table, the elevation bands, the compass steps of `update_pos`
    and the connector each compass exit gets in `draw`
    (world/handlers/map.py). */
module MapSymbols {
  import opened Wrappers
  import opened MapGrid

  type RoomId = nat

  /** An exit of a room: its name and the room it leads to. */
  datatype Exit = Exit(name: ExitName, destination: RoomId)

  /** The parts of a room the map reads: its exits, its `map_symbol`
      attribute (empty when unset), the 'outdoor room' flag of its info
      attribute, its `sector_type` attribute (None when unset) and the
      current value of its elevation trait. */
  datatype Room = Room(exits: seq<Exit>, mapSymbol: seq<Glyph>, outdoor: bool,
                       sectorType: Sector, elev: int)

  /** The rooms of the game world by id. */
  type World = map<RoomId, Room>

  /** Every exit of every room leads to a room of the world. */
  predicate Closed(world: World)
  {
    forall id, k :: id in world && 0 <= k < |world[id].exits| ==> world[id].exits[k].destination in world
  }

  /** A room's `sector_type`: unset (Python's `None`), one of the names
      `SYMBOLS` knows, or any other text. */
  datatype Sector =
    | Unset | CharIndoor | CharOutdoor | Crossroads | SectInside | EnemyCombatant | NonCombatantObserver
    | OtherSector(text: string)

  /** The names of the sector types `SYMBOLS` has an entry for. */
  const SECTOR_NAMES: set<string> :=
    {"CHAR_INDOOR", "CHAR_OUTDOOR", "CROSSROADS", "SECT_INSIDE", "ENEMY_COMBATANT", "NON_COMBATANT_OBSERVER"}

  /** The sector a `sector_type` value stands for. */
  function SectorOf(s: Option<string>): (r: Sector)
    ensures r == Unset <==> s.None?
    ensures r.OtherSector? <==> s.Some? && s.value !in SECTOR_NAMES
    ensures r.OtherSector? ==> r.text == s.value
  {
    match s
    case None => Unset
    case Some(t) =>
      if t == "CHAR_INDOOR" then CharIndoor
      else if t == "CHAR_OUTDOOR" then CharOutdoor
      else if t == "CROSSROADS" then Crossroads
      else if t == "SECT_INSIDE" then SectInside
      else if t == "ENEMY_COMBATANT" then EnemyCombatant
      else if t == "NON_COMBATANT_OBSERVER" then NonCombatantObserver
      else OtherSector(t)
  }

  /** `SYMBOLS`, keyed by sector type: every sector but an unknown name. */
  const SYMBOLS: map<Sector, Glyph> := map[
    Unset := " . ",
    CharIndoor := "|505@|n",
    CharOutdoor := "|500@|n",
    Crossroads := "╬",
    SectInside := ".",
    EnemyCombatant := "◙",
    NonCombatantObserver := "○"
  ]

  /** `SYMBOLS` raises KeyError exactly for a name it does not know. */
  lemma SymbolsKeys(s: Option<string>)
    ensures SectorOf(s) in SYMBOLS <==> s.None? || s.value in SECTOR_NAMES
  {
  }

  /** The `map_symbol` every new room gets (typeclasses/rooms.py:91): one
      colour per elevation band, lowest first. */
  const DEFAULT_MAP_SYMBOL: seq<Glyph> := ["|043¡|n", "|143¡|n", "|243¡|n", "|343¡|n", "|443¡|n"]

  /** The glyph `start_loc_on_grid` puts in the observer's cell. */
  function ObserverGlyph(outdoor: bool): Glyph
  {
    SYMBOLS[if outdoor then CharOutdoor else CharIndoor]
  }

  // ---------------------------------------------------------------------
  // get_elev_index (world/handlers/map.py:320-338)
  // ---------------------------------------------------------------------

  /** `get_elev_index` as written: the band of an elevation difference `d`
      (the room's elevation minus the observer's). No branch accepts 125,
      so the function falls off its end and returns None there. */
  function ElevIndexAsWritten(d: int): (r: Option<nat>)
    ensures r.None? <==> d == 125
    ensures r.Some? ==> r.value < 5
  {
    if d < -125 then Some(0)
    else if -125 <= d < -25 then Some(1)
    else if -25 <= d <= 25 then Some(2)
    else if 25 <= d < 125 then Some(3)
    else if d > 125 then Some(4)
    else None
  }

  /** Indexing `map_symbol` with the None returned for a difference of
      exactly 125 raises TypeError, although 124 and 126 both get a band. */
  lemma ElevGapAt125()
    ensures ElevIndexAsWritten(125).None?
    ensures ElevIndexAsWritten(124) == Some(3) && ElevIndexAsWritten(126) == Some(4)
  {
  }

  /** The band the elevation difference falls in, with 125 closing band 3
      just as -125 opens band 1. */
  function ElevIndex(d: int): (r: nat)
    ensures r < 5
    ensures d != 125 ==> ElevIndexAsWritten(d) == Some(r)
  {
    if d < -125 then 0
    else if d < -25 then 1
    else if d <= 25 then 2
    else if d <= 125 then 3
    else 4
  }

  /** A higher room never gets a lower band. */
  lemma ElevIndexMonotone(d1: int, d2: int)
    requires d1 <= d2
    ensures ElevIndex(d1) <= ElevIndex(d2)
  {
  }

  /** The bands are mirror images around level ground: a room `d` above the
      observer is as many bands above the middle one as a room `d` below is
      under it. The original fails this only at 125 against -125. */
  lemma ElevIndexSymmetric(d: int)
    ensures ElevIndex(-d) == 4 - ElevIndex(d)
  {
  }

  /** The band edges: level ground is -25 to 25 inclusive, and 125 away is
      the last difference still in the inner bands. */
  lemma ElevIndexEdges()
    ensures ElevIndex(-126) == 0 && ElevIndex(-125) == 1
    ensures ElevIndex(-26) == 1 && ElevIndex(-25) == 2
    ensures ElevIndex(25) == 2 && ElevIndex(26) == 3
    ensures ElevIndex(125) == 3 && ElevIndex(126) == 4
  {
  }

  // ---------------------------------------------------------------------
  // The glyph draw leaves in a room's cell (world/handlers/map.py:297-317)
  // ---------------------------------------------------------------------

  /** The glyph `draw` leaves in the cell of a room other than the
      observer's, with `d` the room's elevation minus the observer's; None
      where the source raises IndexError or KeyError. A one-entry
      `map_symbol` gives its single glyph; a longer one is indexed by the
      corrected elevation band `ElevIndex` (IndexError when it has fewer
      entries than the band needs), so a difference of exactly 125, where
      the source raises TypeError, gets band 3. Without a `map_symbol` the cell
      ends as the sector type's symbol (KeyError for an unknown type): the
      indoor up/down glyph written first is always overwritten. */
  function RoomGlyph(room: Room, d: int): (r: Option<Glyph>)
    ensures |room.mapSymbol| >= 5 ==> r.Some?
    ensures room.mapSymbol == [] ==> (r.Some? <==> room.sectorType in SYMBOLS)
    ensures r.Some? && room.mapSymbol != [] ==> r.value in room.mapSymbol
    ensures r.Some? && room.mapSymbol == [] ==> r.value in SYMBOLS.Values
  {
    if room.mapSymbol != [] then
      if |room.mapSymbol| == 1 then Some(room.mapSymbol[0])
      else if ElevIndex(d) < |room.mapSymbol| then Some(room.mapSymbol[ElevIndex(d)])
      else None
    else if room.sectorType in SYMBOLS then Some(SYMBOLS[room.sectorType])
    else None
  }

  /** With the default `map_symbol`, a room's glyph is the colour of its
      elevation band: lowest for far below, highest for far above. */
  lemma DefaultSymbolBands(room: Room, d: int)
    requires room.mapSymbol == DEFAULT_MAP_SYMBOL
    ensures RoomGlyph(room, d) == Some(DEFAULT_MAP_SYMBOL[ElevIndex(d)])
    ensures d < -125 ==> RoomGlyph(room, d) == Some("|043¡|n")
    ensures -25 <= d <= 25 ==> RoomGlyph(room, d) == Some("|243¡|n")
    ensures d > 125 ==> RoomGlyph(room, d) == Some("|443¡|n")
  {
  }

  // ---------------------------------------------------------------------
  // update_pos and the connectors of draw (world/handlers/map.py:209-239, 276-295)
  // ---------------------------------------------------------------------

  /** An exit name: the eight lower-case compass words the map code tests
      for, each as its own constructor, and `Named(text)` for every other
      name ("up", "down", "North", "gate", ...). */
  datatype ExitName =
    | North | East | South | West | Northeast | Northwest | Southeast | Southwest
    | Named(text: string)

  /** The exit names the worm follows and draws, as the source spells them. */
  const COMPASS: set<string> := {"north", "east", "west", "south", "northeast", "northwest", "southeast", "southwest"}

  /** The name an exit called `s` has. */
  function NameOf(s: string): (n: ExitName)
    ensures n.Named? <==> s !in COMPASS
    ensures n.Named? ==> n.text == s
  {
    if s == "north" then North
    else if s == "east" then East
    else if s == "south" then South
    else if s == "west" then West
    else if s == "northeast" then Northeast
    else if s == "northwest" then Northwest
    else if s == "southeast" then Southeast
    else if s == "southwest" then Southwest
    else Named(s)
  }

  /** The text of a name, as the source compares it. */
  function TextOf(n: ExitName): string
  {
    match n
    case North => "north"
    case East => "east"
    case South => "south"
    case West => "west"
    case Northeast => "northeast"
    case Northwest => "northwest"
    case Southeast => "southeast"
    case Southwest => "southwest"
    case Named(text) => text
  }

  /** Names and their texts correspond one to one, for every name whose
      `Named` text is not itself a compass word. */
  lemma NamesRoundTrip(s: string, n: ExitName)
    ensures TextOf(NameOf(s)) == s
    ensures (n.Named? ==> n.text !in COMPASS) ==> NameOf(TextOf(n)) == n
  {
  }

  /** Whether the worm follows and draws an exit of this name. */
  predicate IsCompass(name: ExitName)
  {
    !name.Named?
  }

  /** How `update_pos` moves the cursor for an exit name, as (row, column)
      offsets: rows grow southwards and columns eastwards, two cells per
      room so that a connector fits between neighbours. */
  function Step(name: ExitName): (r: Pos)
    ensures r == (0, 0) <==> !IsCompass(name)
    ensures r.0 in {-2, 0, 2} && r.1 in {-2, 0, 2}
  {
    match name
    case East => (0, 2)
    case West => (0, -2)
    case North => (-2, 0)
    case South => (2, 0)
    case Northeast => (-2, 2)
    case Southeast => (2, 2)
    case Northwest => (-2, -2)
    case Southwest => (2, -2)
    case Named(_) => (0, 0)
  }

  /** A position moved by an offset. */
  function Shift(p: Pos, d: Pos): Pos
  {
    (p.0 + d.0, p.1 + d.1)
  }

  /** The compass direction leading back. */
  function Opposite(name: ExitName): (r: ExitName)
    requires IsCompass(name)
    ensures IsCompass(r)
  {
    match name
    case North => South
    case South => North
    case East => West
    case West => East
    case Northeast => Southwest
    case Southwest => Northeast
    case Northwest => Southeast
    case Southeast => Northwest
  }

  /** Every compass exit moves the cursor by two cells along a row, a
      column or a diagonal, and going back undoes the move; any other
      name leaves the cursor where it was. */
  lemma StepGeometry(name: ExitName)
    ensures IsCompass(name) ==> Step(name) != (0, 0) && Opposite(Opposite(name)) == name
    ensures IsCompass(name) ==> Shift(Shift((0, 0), Step(name)), Step(Opposite(name))) == (0, 0)
    ensures IsCompass(name) ==> Step(name).0 in {-2, 0, 2} && Step(name).1 in {-2, 0, 2}
    ensures !IsCompass(name) ==> Step(name) == (0, 0)
  {
  }

  /** The connector `draw` puts beside a room for an exit name: the exit
      type handed to `draw_exit` and the (row, column) offset of its cell. */
  function Connector(name: ExitName): (r: Option<(string, Pos)>)
    ensures r.Some? <==> IsCompass(name)
    ensures r.Some? ==> ConnectorGlyph(r.value.0).Some?
    ensures r.Some? ==> r.value.1 != (0, 0) && -1 <= r.value.1.0 <= 1 && -1 <= r.value.1.1 <= 1
  {
    match name
    case East => Some(("horizontal", (0, 1)))
    case West => Some(("horizontal", (0, -1)))
    case North => Some(("vertical", (-1, 0)))
    case South => Some(("vertical", (1, 0)))
    case Northeast => Some(("nesw", (-1, 1)))
    case Southwest => Some(("nesw", (1, -1)))
    case Northwest => Some(("nwse", (-1, -1)))
    case Southeast => Some(("nwse", (1, 1)))
    case Named(_) => None
  }

  /** Every connector is a known exit type drawn in one of the eight cells
      around the room. */
  lemma ConnectorAdjacent(name: ExitName)
    requires Connector(name).Some?
    ensures ConnectorGlyph(Connector(name).value.0).Some?
    ensures var off := Connector(name).value.1;
      off != (0, 0) && -1 <= off.0 <= 1 && -1 <= off.1 <= 1
  {
  }

  /** The two tables agree: every compass exit gets a connector exactly
      halfway to where `update_pos` puts the neighbour, drawn along the
      line between the two rooms ('|' for a column, '─' for a row, '/' and
      '\' for the two diagonals); other exits get none. */
  lemma ConnectorHalfway(name: ExitName)
    ensures Connector(name).Some? <==> IsCompass(name)
    ensures Connector(name).Some? ==>
      var (kind, off) := Connector(name).value;
      var s := Step(name);
      && 2 * off.0 == s.0 && 2 * off.1 == s.1
      && ConnectorGlyph(kind).Some?
      && (ConnectorGlyph(kind).value == "|" <==> s.1 == 0)
      && (ConnectorGlyph(kind).value == "─" <==> s.0 == 0)
      && (ConnectorGlyph(kind).value == "/" <==> s.0 == -s.1)
      && (ConnectorGlyph(kind).value == "\\" <==> s.0 == s.1)
  {
  }
}
