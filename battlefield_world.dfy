/** commands/building/combat_map_builder.py as the code runs it: the build
    functions change the world in place, and `build_battlefield_map` scans
    the template in nested loops. Each method is proved to do what the
    matching function of BattlefieldBuilder says. */
module BattlefieldWorld {
  import opened Wrappers
  import opened Text
  import opened BattlefieldTemplates
  import opened BattlefieldBuilder
  import opened BattlefieldScan

  // ---------------------------------------------------------------------
  // The legend loop (commands/building/combat_map_builder.py:220-228)
  // ---------------------------------------------------------------------

  /** Looking one more legend entry up: the first match found so far
      stands, otherwise the new entry answers if it matches. */
  lemma {:induction false} LookupExtend(legend: seq<(LegendKey, BuildFunction)>, i: nat, c: char)
    requires i < |legend|
    ensures Lookup(legend[..i + 1], c) ==
      if Lookup(legend[..i], c).Some? then Lookup(legend[..i], c)
      else if Matches(legend[i].0, c) then Some(legend[i].1)
      else None
  {
    if i == 0 {
      assert legend[..1] == [legend[0]];
      assert legend[..1][1..] == [];
    } else if !Matches(legend[0].0, c) {
      LookupExtend(legend[1..], i - 1, c);
      assert legend[..i + 1][1..] == legend[1..][..i];
      assert legend[..i][1..] == legend[1..][..i - 1];
      assert legend[1..][i - 1] == legend[i];
    }
  }

  /** No character matches two entries of LEGEND, so once an entry has
      matched, the later ones do not. */
  lemma LegendKeysDisjoint(i: nat, c: char)
    requires i < |LEGEND| && Lookup(LEGEND[..i], c).Some?
    ensures !Matches(LEGEND[i].0, c)
  {
    var j :| 0 <= j < i && Matches(LEGEND[..i][j].0, c);
    assert LEGEND[..i][j] == LEGEND[j];
  }

  /** The sweep over one more entry adds that entry's exits at the end. */
  lemma AutoLinksStep(dict: map<Coord, Option<SectionId>>, order: seq<Coord>, i: nat)
    requires i < |order|
    ensures AutoLinks(dict, order[..i + 1]) == AutoLinks(dict, order[..i]) + LinksFrom(dict, order[i])
  {
    assert order[..i + 1][..i] == order[..i];
  }

  lemma Associative<T>(a: seq<T>, b: seq<T>, c: seq<T>)
    ensures a + b + c == a + (b + c)
  {
  }

  // ---------------------------------------------------------------------
  // Template selection (commands/building/combat_map_builder.py:301-308)
  // ---------------------------------------------------------------------

  /** The selection as written: `map_size -- 'Small'` negates a string, a
      TypeError (None here) reached for every size but 'Large' and
      'Medium', so the custom-map branch is never taken. */
  function SelectTemplateAsWritten(mapSize: string, battlefieldMap: string): (r: Option<string>)
    ensures r.Some? <==> mapSize == "Large" || mapSize == "Medium"
    ensures r.Some? ==> r.value in {LARGE_COMBAT_MAP, MEDIUM_COMBAT_MAP}
  {
    if mapSize == "Large" then Some(LARGE_COMBAT_MAP)
    else if mapSize == "Medium" then Some(MEDIUM_COMBAT_MAP)
    else None
  }

  /** The selection as intended: 'Small' selects the small template and
      any other size keeps the map passed in. */
  function SelectTemplate(mapSize: string, battlefieldMap: string): (r: string)
    ensures mapSize == "Small" ==> r == SMALL_COMBAT_MAP
    ensures mapSize in {"Large", "Medium", "Small"} ==> r in {LARGE_COMBAT_MAP, MEDIUM_COMBAT_MAP, SMALL_COMBAT_MAP}
    ensures mapSize !in {"Large", "Medium", "Small"} ==> r == battlefieldMap
  {
    if mapSize == "Large" then LARGE_COMBAT_MAP
    else if mapSize == "Medium" then MEDIUM_COMBAT_MAP
    else if mapSize == "Small" then SMALL_COMBAT_MAP
    else battlefieldMap
  }

  /** As written, the default size 'Small' raises, and so does every size
      that should keep the custom map; only 'Large' and 'Medium' select a
      template. */
  lemma SelectAsWrittenRaises(mapSize: string, battlefieldMap: string)
    ensures SelectTemplateAsWritten(mapSize, battlefieldMap).Some? <==> mapSize == "Large" || mapSize == "Medium"
    ensures SelectTemplateAsWritten("Small", battlefieldMap) == None
  {
  }

  /** As intended, the selection agrees with the written one wherever that
      does not raise, selects the small template for 'Small', and keeps
      the map passed in for any other size. */
  lemma SelectTemplateAgrees(mapSize: string, battlefieldMap: string)
    ensures SelectTemplateAsWritten(mapSize, battlefieldMap).Some? ==>
      SelectTemplate(mapSize, battlefieldMap) == SelectTemplateAsWritten(mapSize, battlefieldMap).value
    ensures SelectTemplate("Small", battlefieldMap) == SMALL_COMBAT_MAP
    ensures mapSize !in {"Large", "Medium", "Small"} ==> SelectTemplate(mapSize, battlefieldMap) == battlefieldMap
  {
  }

  /** The three sizes build 9, 25 and 49 subsections, and 24, 80 and 168
      exits, with two passes and no sweep. */
  lemma SelectedBuilds(b: Build, mapSize: string, battlefieldMap: string)
    requires b.sections == [] && b.exits == [] && !b.raised
    ensures var r := BuildMap(b, SelectTemplate(mapSize, battlefieldMap), 2, false);
      && (mapSize == "Small" ==> !r.raised && |r.sections| == 9 && |r.exits| == 24)
      && (mapSize == "Medium" ==> !r.raised && |r.sections| == 25 && |r.exits| == 80)
      && (mapSize == "Large" ==> !r.raised && |r.sections| == 49 && |r.exits| == 168)
  {
    if mapSize == "Small" {
      SmallBuild(b);
    } else if mapSize == "Medium" {
      MediumBuild(b);
    } else if mapSize == "Large" {
      LargeBuild(b);
    }
  }

  // ---------------------------------------------------------------------
  // The world a build changes
  // ---------------------------------------------------------------------

  /** What a build changes, as fields: the reference dictionary and its
      insertion order, the created subsections, the handler's dictionary,
      the created exits, and whether a KeyError has escaped (after which
      nothing further runs). */
  class Battlefield {
    var dict: map<Coord, Option<SectionId>>
    var order: seq<Coord>
    var sections: seq<Coord>
    var handler: Option<map<Coord, SectionId>>
    var exits: seq<ExitRecord>
    var raised: bool

    function State(): Build
      reads this
    {
      Build(dict, order, sections, handler, exits, raised)
    }

    /** A world with nothing built yet and the handler's dictionary unset. */
    constructor ()
      ensures State() == Build(map[], [], [], None, [], false)
    {
      dict, order, sections, handler, exits, raised := map[], [], [], None, [], false;
    }

    /** `build_room_subsection_for_combat`. */
    method BuildRoomSubsectionForCombat(x: int, y: int, iteration: nat) returns (section: Option<SectionId>)
      modifies this
      ensures (State(), section) == BattlefieldBuilder.RoomSubsection(old(State()), x, y, iteration)
    {
      if iteration > 0 {
        return None;
      }
      var id := |sections|;
      sections := sections + [(x, y)];
      if handler.Some? && |handler.value| > 0 {
        handler := Some(handler.value[(x, y) := id]);
      } else {
        handler := Some(map[(x, y) := id]);
      }
      section := Some(id);
    }

    /** `build_vertical_exit`. */
    method BuildVerticalExit(x: int, y: int, iteration: nat)
      modifies this
      ensures State() == VerticalExits(old(State()), x, y, iteration)
    {
      if iteration == 0 {
        return;
      }
      if (x, y - 1) !in dict || (x, y + 1) !in dict {
        raised := true;
        return;
      }
      var northSection, southSection := dict[(x, y - 1)], dict[(x, y + 1)];
      exits := exits + [ExitRecord(South, northSection, southSection)];
      exits := exits + [ExitRecord(North, southSection, northSection)];
    }

    /** `build_horizontal_exit`. */
    method BuildHorizontalExit(x: int, y: int, iteration: nat)
      modifies this
      ensures State() == HorizontalExits(old(State()), x, y, iteration)
    {
      if iteration == 0 {
        return;
      }
      if (x - 1, y) !in dict || (x + 1, y) !in dict {
        raised := true;
        return;
      }
      var westSection, eastSection := dict[(x - 1, y)], dict[(x + 1, y)];
      exits := exits + [ExitRecord(East, westSection, eastSection)];
      exits := exits + [ExitRecord(West, eastSection, westSection)];
    }

    /** One legend entry at work: its build function runs on the cell,
        and on pass 0 what it returns is recorded under the cell. */
    method ApplyEntry(f: BuildFunction, x: int, y: int, iteration: nat)
      modifies this
      ensures State() == Apply(old(State()), f, x, y, iteration)
    {
      ghost var start := State();
      var section: Option<SectionId> := None;
      match f {
        case RoomSubsection =>
          section := BuildRoomSubsectionForCombat(x, y, iteration);
        case VerticalExit =>
          BuildVerticalExit(x, y, iteration);
        case HorizontalExit =>
          BuildHorizontalExit(x, y, iteration);
      }
      ghost var built := State();
      if iteration == 0 {
        order := if (x, y) in dict then order else order + [(x, y)];
        dict := dict[(x, y) := section];
        assert State() == Record(built, (x, y), section);
      }
    }

    /** One cell of the scan: every legend entry whose key the character
        matches runs, in legend order. At most one does, so the cell
        changes the world as Visit says. */
    method VisitCell(c: char, x: int, y: int, iteration: nat)
      modifies this
      ensures State() == Visit(old(State()), c, x, y, iteration)
    {
      ghost var start := State();
      var i := 0;
      while i < |LEGEND|
        invariant 0 <= i <= |LEGEND|
        invariant State() == match Lookup(LEGEND[..i], c)
          case None => start
          case Some(f) => Apply(start, f, x, y, iteration)
      {
        LookupExtend(LEGEND, i, c);
        var (key, f) := LEGEND[i];
        if Matches(key, c) {
          if Lookup(LEGEND[..i], c).Some? {
            LegendKeysDisjoint(i, c);
            assert false;
          }
          ApplyEntry(f, x, y, iteration);
        }
        i := i + 1;
      }
      assert LEGEND[..i] == LEGEND;
      LegendDispatch(c);
    }

    /** `build_battlefield_map`: a fresh reference dictionary, `iterations`
        passes over the rows of the map, each row as long as it is, then the
        sweep if `buildExits`. A KeyError ends the build. */
    method BuildBattlefieldMap(battlefieldMap: string, iterations: nat, buildExits: bool)
      modifies this
      ensures State() == BuildMap(old(State()), battlefieldMap, iterations, buildExits)
    {
      var rows := MapToList(battlefieldMap);
      dict, order := map[], [];
      ghost var start := State();
      for iteration := 0 to iterations
        invariant State() == Passes(start, rows, iteration)
      {
        if !raised {
          ScanPass(rows, iteration);
        }
      }
      if buildExits && !raised {
        Sweep();
      }
    }

    /** One pass of the scan: the rows top to bottom, until a KeyError. */
    method ScanPass(rows: seq<string>, iteration: nat)
      modifies this
      ensures !old(raised) ==> State() == Rows(old(State()), rows, |rows|, iteration)
      ensures old(raised) ==> State() == old(State())
    {
      ghost var start := State();
      for y := 0 to |rows|
        invariant !start.raised ==> State() == Rows(start, rows, y, iteration)
        invariant start.raised ==> State() == start
      {
        if !raised {
          ScanRow(rows, y, iteration);
        }
      }
    }

    /** One row of a pass: its cells left to right, until a KeyError. */
    method ScanRow(rows: seq<string>, y: nat, iteration: nat)
      requires y < |rows|
      modifies this
      ensures !old(raised) ==> State() == Cells(old(State()), rows, y, |rows[y]|, iteration)
      ensures old(raised) ==> State() == old(State())
    {
      ghost var start := State();
      for x := 0 to |rows[y]|
        invariant !start.raised ==> State() == Cells(start, rows, y, x, iteration)
        invariant start.raised ==> State() == start
      {
        if !raised {
          VisitCell(rows[y][x], x, y, iteration);
        }
      }
    }

    /** One of the four checks of the sweep: an exit from entry `k`
        toward `d` if the neighbour one cell away is a key holding a
        subsection. */
    method LinkOneWay(k: Coord, d: Direction)
      requires k in dict
      modifies this
      ensures dict == old(dict) && order == old(order) && sections == old(sections)
      ensures handler == old(handler) && raised == old(raised)
      ensures exits == old(exits) + LinkToward(dict, k, d)
    {
      var n := Neighbour(k, d, 1);
      if n in dict && dict[n].Some? {
        exits := exits + [ExitRecord(d, dict[k], dict[n])];
      }
    }

    /** The four checks of the sweep for entry `k`: north, east, south,
        west. */
    method LinkEntry(k: Coord)
      requires k in dict
      modifies this
      ensures dict == old(dict) && order == old(order) && sections == old(sections)
      ensures handler == old(handler) && raised == old(raised)
      ensures exits == old(exits) + LinksFrom(dict, k)
    {
      LinkOneWay(k, North);
      LinkOneWay(k, East);
      LinkOneWay(k, South);
      LinkOneWay(k, West);
    }

    /** The auto-link sweep: from each entry in insertion order, toward
        north, east, south and west in turn. */
    method Sweep()
      modifies this
      ensures dict == old(dict) && order == old(order) && sections == old(sections)
      ensures handler == old(handler) && raised == old(raised)
      ensures exits == old(exits) + AutoLinks(dict, order)
    {
      var entries, keys := dict, order;
      ghost var e0 := exits;
      for i := 0 to |keys|
        invariant dict == entries && order == keys && sections == old(sections)
        invariant handler == old(handler) && raised == old(raised)
        invariant exits == e0 + AutoLinks(entries, keys[..i])
      {
        var k := keys[i];
        ghost var swept := exits;
        if k in entries {
          LinkEntry(k);
        }
        assert exits == e0 + AutoLinks(entries, keys[..i + 1]) by {
          assert exits == swept + LinksFrom(entries, k);
          AutoLinksStep(entries, keys, i);
          Associative(e0, AutoLinks(entries, keys[..i]), LinksFrom(entries, k));
        }
      }
      assert keys[..|keys|] == keys;
    }

    /** `call_map_funcs_and_build_battlefield_map` as intended: the template
        the size selects, two passes, no sweep. */
    method CallMapFuncsAndBuildBattlefieldMap(mapSize: string, battlefieldMap: string)
      modifies this
      ensures State() == BuildMap(old(State()), SelectTemplate(mapSize, battlefieldMap), 2, false)
      ensures old(sections) == [] && old(exits) == [] && !old(raised) && mapSize == "Small" ==>
        !raised && |sections| == 9 && |exits| == 24
    {
      ghost var start := State();
      var selected := SelectTemplate(mapSize, battlefieldMap);
      var iterations := 2;
      var buildExits := false;
      BuildBattlefieldMap(selected, iterations, buildExits);
      if start.sections == [] && start.exits == [] && !start.raised {
        SelectedBuilds(start, mapSize, battlefieldMap);
      }
    }
  }
}
