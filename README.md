# DOG10 overhead map, combat map builder and combat handler, in Dafny

This project models three parts of the DOG10 text game, a MUD built on Evennia:

- **The overhead map** (world/handlers/map.py).
  - A `Map` object "worms" outward from the observer's room along compass exits, depth first, up to a radius.
  - It records where each room lands on a 21 x 21 character grid.
  - It writes room glyphs into the grid in place: a glyph chosen by relative elevation from the room's `map_symbol`, or by its `sector_type` from `SYMBOLS`.
  - It writes connectors between rooms in place, and renders the grid as text.
  - The module also holds the room-size rule that picks a combat grid.
  - At its end is a sketch that overlays sampled room cells and the connectors between them on the large combat grid.
- **The combat map builder** (commands/building/combat_map_builder.py).
  - An ASCII battlefield template (`X`/`O` rooms, `-`/`|` connectors) is scanned cell by cell, in passes.
  - Pass 0 creates a room subsection per room symbol and records every matched cell in a reference dictionary.
  - Later passes create an exit pair per connector.
  - An optional sweep links neighbouring entries.
  - `call_map_funcs_and_build_battlefield_map` picks the template by map size.
- **The combat handler** (world/handlers/combat_handler.py).
  - A script keeps the combatants of a room and a queue of actions per combatant, with the next action at the front.
  - `remove_action` leaves "sticky" actions (the default attack, flee, yield, disengage) at the front.
  - Removing a combatant may stop the handler.

The code updates state in place, and the model does too. `Map`, the battlefield world, the combat handler and the combatants are classes with `modifies` clauses. The loops of the source are loops with invariants. Each method is proved against a pure function, and the properties are proved as lemmas about those functions:

- the battlefield methods equal `BuildMap`, `Visit`, `AutoLinks` and the build functions;
- the queue methods equal `Push` and `NextAction`;
- `show_map` equals `Render`;
- `draw_exit` equals `PutExit`.

Creating a game object is modelled as appending a record to a list. A subsection is its index in that list, and an exit is an `ExitRecord`.

Modules:

- `Wrappers`: `Option`.
- `Text`: `str.split('\n')` and `sep.join`, with their round trips.
- `MapGrid`: templates, coordinate lists, `create_grid`, `show_map`, `draw_exit`, `median`, and the size rule.
- `MapSymbols`: `SYMBOLS`, `get_elev_index`, room glyphs, and compass steps.
- `MapWalk`: the walk's budget, connectors, and placement.
- `MapWorm`: class `Map`.
- `MapSketch`: the exit sketch.
- `BattlefieldTemplates`, `BattlefieldBuilder`, `BattlefieldScan` and `BattlefieldLinks`: the builder as functions, with what a scan does over the templates.
- `BattlefieldWorld`: class `Battlefield`, the builder as the code runs it.
- `CombatQueue`: class `CombatHandler`.

## Model

| member | source | states |
|---|---|---|
| Text.SplitLines | commands/building/combat_map_builder.py:181 | `split('\n')` gives at least one piece, and no piece holds a newline |
| Text.SplitCount | world/handlers/map.py:381 | a split gives one piece more than the text has newlines |
| Text.JoinSplit | commands/building/combat_map_builder.py:173-181 | joining the pieces of a split with newlines gives the text back |
| Text.SplitJoin | commands/building/combat_map_builder.py:173-181 | splitting newline-joined lines without newlines gives the lines back |
| Text.UnspaceJoinChars | world/handlers/map.py:394 | removing the separators of `" ".join(list(line))` gives the line back |
| MapSymbols.SectorOf | world/handlers/map.py:69-75 | a `sector_type` is the unset sector exactly when it is None, and an unknown sector keeping its text exactly when `SYMBOLS` has no such name |
| MapSymbols.SymbolsKeys | world/handlers/map.py:317 | `SYMBOLS[sector_type]` has an entry exactly for None and the known names; any other name raises KeyError |
| MapSymbols.ElevIndexAsWritten | world/handlers/map.py:320-338 | the written bands are below 5 and missing (None) exactly for a difference of 125 |
| MapSymbols.ElevGapAt125 | world/handlers/map.py:335-338 | 124 falls in band 3 and 126 in band 4, but 125 in none |
| MapSymbols.ElevIndex | world/handlers/map.py:328-338 | the corrected band is below 5 and agrees with the written one at every difference but 125 |
| MapSymbols.ElevIndexMonotone | world/handlers/map.py:329-338 | a higher room never gets a lower band |
| MapSymbols.ElevIndexSymmetric | world/handlers/map.py:329-338 | a room `d` above gets the band mirroring a room `d` below |
| MapSymbols.ElevIndexEdges | world/handlers/map.py:329-338 | the band edges: -126/-125, -26/-25, 25/26 and 125/126 fall in the bands the comparisons give |
| MapSymbols.RoomGlyph | world/handlers/map.py:298-317 | with the corrected band `ElevIndex` (see Left out), a `map_symbol` of five or more entries always gives a glyph taken from it. Without one, the glyph is the `SYMBOLS` entry of the sector, which overwrites the indoor glyphs; there is none exactly when the sector is unknown |
| MapSymbols.DefaultSymbolBands | world/handlers/map.py:302-305 | with the default five-entry `map_symbol`, a room's glyph is the entry the corrected elevation band picks: the lowest for far below, the middle for level ground, the highest for far above |
| MapSymbols.NameOf | world/handlers/map.py:248-249 | an exit name is one of the eight compass words, or else an other-name keeping its text |
| MapSymbols.NamesRoundTrip | world/handlers/map.py:248-249 | exit names and their texts correspond one to one |
| MapSymbols.Step | world/handlers/map.py:209-239 | a name moves the cursor exactly when it is a compass name, and every move is 0 or 2 cells along each axis |
| MapSymbols.Opposite | world/handlers/map.py:220-239 | the direction back from a compass direction is a compass direction |
| MapSymbols.StepGeometry | world/handlers/map.py:220-239 | each compass exit moves the cursor two cells in a row, a column or a diagonal, and the opposite exit moves it back; other names do not move it |
| MapSymbols.Connector | world/handlers/map.py:273-296 | a connector exactly for the compass names, of an exit type `draw_exit` knows, in one of the eight cells around the room |
| MapSymbols.ConnectorAdjacent | world/handlers/map.py:273-296 | every connector `draw` puts is a known exit type, drawn in one of the eight cells around the room |
| MapSymbols.ConnectorHalfway | world/handlers/map.py:273-296 | a compass exit, and only a compass exit, gets a connector, halfway to where `update_pos` moves the cursor |
| MapGrid.TemplatesAreRectangular | world/handlers/map.py:33-169 | the base grid and the three combat grids are 21 lines of 21 characters |
| MapGrid.MappableRoomCoordsFit | world/handlers/map.py:57-63 | every mappable room cell lies inside the grid with both components even |
| MapGrid.SmallCombatCoordsFit | world/handlers/map.py:171-174 | the same for the small combat grid's room cells |
| MapGrid.MediumCombatCoordsFit | world/handlers/map.py:138-145 | the same for the medium combat grid's room cells |
| MapGrid.LargeCombatCoordsFit | world/handlers/map.py:449-458 | the same for the large combat grid's room cells, as re-bound |
| MapGrid.CreateGrid | world/handlers/map.py:378-388 | `create_grid` builds one row per newline-separated piece of the template, each row gluing back to its piece |
| MapGrid.CreateBaseGrid | world/handlers/map.py:378-388 | row i of the grid is the characters of line i of the base template, one per cell, for its 21 lines of 21, then one empty row |
| MapGrid.TemplateLines | world/handlers/map.py:33-55 | splitting a 21 x 21 template gives its lines and a trailing empty line |
| MapGrid.TemplateBoard | world/handlers/map.py:381-388 | a template's board holds its lines cell by cell |
| MapGrid.Render | world/handlers/map.py:391-397 | the text is empty exactly for an empty grid, and holds at least one character, its newline, per row |
| MapGrid.RenderIsJoin | world/handlers/map.py:391-397 | `show_map` is the rows, space-joined, each followed by a newline |
| MapGrid.RenderLines | world/handlers/map.py:391-397 | splitting `show_map`'s output gives each rendered row, then an empty line |
| MapGrid.RenderRoundTrip | world/handlers/map.py:391-397 | rendering a template's board and removing the separating spaces gives the template's lines back |
| MapGrid.PutExit | world/handlers/map.py:341-353 | `draw_exit` writes the connector glyph of a known type at a cell strictly inside the bounds; otherwise, and everywhere else, the grid is unchanged |
| MapGrid.PutExitSparesTheFrame | world/handlers/map.py:342 | `draw_exit` never writes row 0, column 0, or anything at or past the bounds |
| MapGrid.Slots | world/handlers/map.py:357 | `sorted(range(0, n))` holds the slots 0 to n-1 in order |
| MapGrid.Median | world/handlers/map.py:356-358 | the median of n slots is (n-1)/2 |
| MapGrid.StartSlot | world/handlers/map.py:361-365 | the observer's slot has as many slots after it as before, or one more |
| MapGrid.MedianSlot | world/handlers/map.py:362-365 | `int(median(n))` is that slot |
| MapGrid.GridForSize | world/handlers/map.py:411-422 | large exactly from 2500 up, small exactly below 225, medium in between |
| MapGrid.GridForSizeMonotone | world/handlers/map.py:411-422 | a bigger room never gets a smaller combat grid; the grids have 9, 49 or 81 room cells |
| MapWalk.Radius | world/handlers/map.py:202-203 | the walk is bounded exactly when the smaller side is odd, with radius (side-1)/2 |
| MapWalk.PutConnector | world/handlers/map.py:273-296 | one exit's connector keeps the grid's shape: as many rows, each as long |
| MapWalk.PutConnectors | world/handlers/map.py:272-296 | the connectors of all exits, in exit order, keep the grid's shape; where they can land, `ConnectorsStayAround` states |
| MapWalk.ConnectorsStayAround | world/handlers/map.py:272-296 | the connectors of `draw` land only in the eight cells around the room, inside the bounds |
| MapWalk.ConnectorsSpareRoomCells | world/handlers/map.py:272-296 | connectors never overwrite a room cell |
| MapWalk.DrawnGrid | world/handlers/map.py:268-317 | off the mappable cells `draw` changes nothing; on them it puts the connectors, then the room glyph `RoomGlyph` gives, and fails exactly when that has none |
| MapWalk.StepReach | world/handlers/map.py:220-239 | one step moves a room at most two cells further from the centre |
| MapWalk.PlaceObserver | world/handlers/map.py:263-266 | the observer alone, at the centre, is a correct placement |
| MapWalk.PlaceRoom | world/handlers/map.py:257-269 | a room reached through a compass exit of a placed room, at the cell `update_pos` gives, keeps the placement correct |
| MapWorm.Map.constructor | world/handlers/map.py:186-204 | outside combat: a grid of 21 rows of 21 cells, drawn over the base grid (its final contents are not stated); the observer at the centre and first among the drawn ids; a bounded walk that places every room within twice the radius |
| MapWorm.Map.HasDrawn | world/handlers/map.py:374-375 | under the walk invariant, a room the worm has reached is a room of the world |
| MapWorm.Map.UpdatePos | world/handlers/map.py:209-239 | the cursor is the room's recorded cell moved by the exit's step |
| MapWorm.Map.DrawExit | world/handlers/map.py:341-353 | the grid becomes `PutExit` of the old grid |
| MapWorm.Map.StartLocOnGrid | world/handlers/map.py:361-371 | the observer's glyph goes at the median cell, and the cursor moves there |
| MapWorm.Map.DrawConnector | world/handlers/map.py:273-296 | one pass of the exit-name chain leaves the grid as `PutConnector` says for that name at the cursor |
| MapWorm.Map.DrawConnectors | world/handlers/map.py:272-296 | the connector loop leaves the grid `PutConnectors` of the old one |
| MapWorm.Map.Draw | world/handlers/map.py:261-317 | the room is recorded at the cursor; the observer is drawn at the centre; another room's cell gets what `DrawnGrid` says |
| MapWorm.Map.DrawGlyph | world/handlers/map.py:298-317 | the glyph `RoomGlyph` gives goes at the cursor, failure exactly when it has none, and the room's id is appended exactly when it has a `map_symbol` |
| MapWorm.Map.DrawRoomOnMap | world/handlers/map.py:241-258 | the recorded rooms only grow; with budget left, every compass exit of the room leads to a recorded room |
| MapWorm.Map.FollowExits | world/handlers/map.py:247-258 | after the exit loop, every compass exit leads to a recorded room |
| MapWorm.Map.FollowExit | world/handlers/map.py:248-258 | after one pass, the exit's destination is recorded if it is a compass exit |
| MapWorm.Map.ShowMap | world/handlers/map.py:391-397 | the text returned is `Render` of the grid |
| MapWorm.WithinRadius | world/handlers/map.py:241-258 | every room placed lies within twice the radius of the centre |
| MapWorm.DrawnIdsBounded | world/handlers/map.py:266-300 | no room id is drawn twice, so there are no more drawn ids than rooms reached |
| MapSketch.ExitCoords | world/handlers/map.py:487-497 | a connector goes exactly at each cell between two sampled cells one room apart: `|` in a column, `─` in a row |
| MapSketch.TouchedIffGap | world/handlers/map.py:489-497 | the four tests, over the whole sample, find exactly the gaps |
| MapSketch.GapParity | world/handlers/map.py:489-497 | among room cells a gap has one odd component, which fixes its connector |
| MapSketch.GapsAvoidRooms | world/handlers/map.py:489-497 | no sampled room cell is a gap |
| MapSketch.OverlayRow | world/handlers/map.py:506-517 | each character of a row is the connector at that cell, else `X` for a sampled cell other than the centre, else the template's |
| MapSketch.Overlay | world/handlers/map.py:505-517 | the overlaid board keeps the shape of the template, cell by cell as `OverlayRow` says |
| MapSketch.Sketch | world/handlers/map.py:484-517 | for any sample of the large grid's room cells, the printed board is the overlay of the sample and its connectors |
| MapSketch.SketchOn | world/handlers/map.py:501-517 | the same on any 21 x 21 template; every sampled cell but the centre shows `X` |
| BattlefieldTemplates.MapToList | commands/building/combat_map_builder.py:173-181 | `_map_to_list` gives rows without newlines that join back into the map |
| BattlefieldTemplates.MapToListRows | commands/building/combat_map_builder.py:173-181 | cutting rows joined by newlines gives the rows back |
| BattlefieldTemplates.LookupAsWritten | commands/building/combat_map_builder.py:220-222 | under the written `==` test, a character finds an entry exactly when it equals a one-character key |
| BattlefieldTemplates.TupleKeyNeverMatches | commands/building/combat_map_builder.py:78 | the `("X", "O")` key matches no character, so no room subsection is ever built |
| BattlefieldTemplates.Lookup | commands/building/combat_map_builder.py:77-81 | under the intended test, a character finds an entry exactly when some key holds it; the result is the first such entry's function |
| BattlefieldTemplates.LegendDispatch | commands/building/combat_map_builder.py:77-81 | `X` and `O` build room subsections, `|` vertical exits, `-` horizontal exits, and nothing else builds |
| BattlefieldTemplates.SquareJoins | commands/building/combat_map_builder.py:28-74 | in a square template every `-` lies between two room symbols of its row, and every `|` between two in its column |
| BattlefieldTemplates.SquareRoomCount | commands/building/combat_map_builder.py:28-74 | a square template with k rooms a side holds k·k room symbols |
| BattlefieldTemplates.SquareConnectorCount | commands/building/combat_map_builder.py:28-74 | it holds 2k(k-1) connectors |
| BattlefieldTemplates.SmallRows | commands/building/combat_map_builder.py:28-38 | SMALL_COMBAT_MAP is the square template with 3 rooms a side |
| BattlefieldTemplates.MediumRows | commands/building/combat_map_builder.py:40-54 | MEDIUM_COMBAT_MAP is the square template with 5 rooms a side |
| BattlefieldTemplates.LargeRows | commands/building/combat_map_builder.py:56-74 | LARGE_COMBAT_MAP is the square template with 7 rooms a side |
| BattlefieldTemplates.SmallTemplate | commands/building/combat_map_builder.py:28-38 | row 0 is empty; connectors join rooms; 9 room symbols and 12 connectors |
| BattlefieldTemplates.MediumTemplate | commands/building/combat_map_builder.py:40-54 | row 0 is empty; connectors join rooms; 25 room symbols and 40 connectors |
| BattlefieldTemplates.LargeTemplate | commands/building/combat_map_builder.py:56-74 | row 0 is empty; connectors join rooms; 49 room symbols and 84 connectors |
| BattlefieldBuilder.RoomSubsection | commands/building/combat_map_builder.py:83-114 | pass 0 creates the next subsection for the cell and records it in the handler's dictionary (a new one when unset or empty); later passes create nothing and return None |
| BattlefieldBuilder.ExitPair | commands/building/combat_map_builder.py:129-141 | a cell missing from the reference dictionary raises and creates nothing; otherwise two exits are appended, the second the first reversed; the dictionary, its order, the subsections and the handler's dictionary stay as they were |
| BattlefieldBuilder.VerticalExits | commands/building/combat_map_builder.py:116-141 | nothing on pass 0; later, a KeyError exactly when the cell above or below is missing, else an exit from the section above to the one below whose key points two cells down, and one back whose key points two cells up |
| BattlefieldBuilder.HorizontalExits | commands/building/combat_map_builder.py:144-169 | nothing on pass 0; later, a KeyError exactly when the cell to the left or right is missing, else an exit from the left section to the right one whose key points two cells right, and one back whose key points two cells left |
| BattlefieldBuilder.Apply | commands/building/combat_map_builder.py:220-228 | pass 0 records the cell, with a subsection exactly for the room function, a new subsection for that cell, and every other key left alone; later passes change only the exits and `raised` |
| BattlefieldBuilder.Visit | commands/building/combat_map_builder.py:218-228 | a cell that is neither a room nor a connector changes nothing; pass 0 raises nothing, adds no exit, adds one subsection exactly for a room symbol and records the cell, under a subsection exactly when it is a room; later passes change only the exits, and only on a connector |
| BattlefieldBuilder.LinksFrom | commands/building/combat_map_builder.py:230-279 | at most four exits from an entry, none from a missing key, in distinct directions; each leaves the entry's value and leads to the value of the neighbour one cell away in its own direction, which holds a subsection |
| BattlefieldBuilder.AutoLinks | commands/building/combat_map_builder.py:230-279 | at most four exits per swept entry, each leading to a subsection |
| BattlefieldBuilder.BuildMap | commands/building/combat_map_builder.py:183-279 | with no pass the reference dictionary is empty and the subsections are as they were; the sweep runs only after a scan that did not raise, keeps the scan's dictionary, subsections and handler, and appends exits that each lead to a subsection |
| BattlefieldScan.FirstPassRows | commands/building/combat_map_builder.py:217-228 | pass 0 never raises and creates no exit, and creates one subsection per room symbol scanned |
| BattlefieldScan.RecordRows | commands/building/combat_map_builder.py:217-228 | after pass 0 the reference dictionary holds exactly the room and connector cells: a room cell's own subsection, None for a connector |
| BattlefieldScan.LaterRowsKeep | commands/building/combat_map_builder.py:94-96 | a later pass changes neither the reference dictionary nor the subsections nor the handler's dictionary |
| BattlefieldScan.LinkRows | commands/building/combat_map_builder.py:116-169 | a later pass over a recorded template whose connectors join rooms never raises, lays two exits per connector, and every exit leads to the subsection two cells away in its direction |
| BattlefieldScan.PassesOrdered | commands/building/combat_map_builder.py:225-227 | the insertion order lists every key of the reference dictionary once, after any number of passes |
| BattlefieldScan.ScanPasses | commands/building/combat_map_builder.py:215-228 | k passes over such a template never raise, create one subsection per room symbol and 2(k-1) exits per connector, all leading where their keys say |
| BattlefieldScan.BuildsTemplate | commands/building/combat_map_builder.py:183-228 | `build_battlefield_map` without the sweep does the same from a fresh dictionary |
| BattlefieldScan.SmallBuild | commands/building/combat_map_builder.py:312-315 | two passes over the small template: 9 subsections, 24 exits, all leading correctly |
| BattlefieldScan.MediumBuild | commands/building/combat_map_builder.py:312-315 | two passes over the medium template: 25 subsections, 80 exits |
| BattlefieldScan.LargeBuild | commands/building/combat_map_builder.py:312-315 | two passes over the large template: 49 subsections, 168 exits |
| BattlefieldLinks.LinksFromExactly | commands/building/combat_map_builder.py:237-279 | the sweep lays from an entry exactly the exits toward neighbours one cell away whose entry holds a subsection |
| BattlefieldLinks.AutoLinksExactly | commands/building/combat_map_builder.py:237-279 | the whole sweep lays exactly such exits from the listed entries |
| BattlefieldLinks.AutoLinksSymmetric | commands/building/combat_map_builder.py:237-279 | two neighbouring entries holding subsections get an exit each way, in opposite directions |
| BattlefieldLinks.SweepReachesEveryEntry | commands/building/combat_map_builder.py:237-279 | after a build, the sweep lays an exit from every key toward every neighbouring key holding a subsection |
| BattlefieldWorld.LegendKeysDisjoint | commands/building/combat_map_builder.py:77-81 | no character matches two legend entries, so at most one build function runs per cell |
| BattlefieldWorld.SelectTemplateAsWritten | commands/building/combat_map_builder.py:301-308 | as written, a template exactly for 'Large' and 'Medium', and then the large or medium one; every other size raises |
| BattlefieldWorld.SelectTemplate | commands/building/combat_map_builder.py:301-308 | as intended, 'Small' selects the small template, each of the three sizes selects a template, and any other size keeps the map passed in |
| BattlefieldWorld.SelectAsWrittenRaises | commands/building/combat_map_builder.py:305 | the default size 'Small' raises TypeError |
| BattlefieldWorld.SelectTemplateAgrees | commands/building/combat_map_builder.py:301-308 | the corrected choice agrees where the written one does not raise, picks the small template for 'Small', and otherwise keeps the map passed in |
| BattlefieldWorld.SelectedBuilds | commands/building/combat_map_builder.py:301-315 | the three sizes build 9, 25 and 49 subsections and 24, 80 and 168 exits |
| BattlefieldWorld.Battlefield.constructor | commands/building/combat_map_builder.py:213-215 | nothing built, the handler's dictionary unset |
| BattlefieldWorld.Battlefield.BuildRoomSubsectionForCombat | commands/building/combat_map_builder.py:83-114 | the world and the result are what `RoomSubsection` says |
| BattlefieldWorld.Battlefield.BuildVerticalExit | commands/building/combat_map_builder.py:116-141 | nothing on pass 0; later, "south" from the cell above to the cell below and "north" back, or a KeyError when either is missing |
| BattlefieldWorld.Battlefield.BuildHorizontalExit | commands/building/combat_map_builder.py:144-169 | nothing on pass 0; later, "east" from left to right and "west" back, or a KeyError |
| BattlefieldWorld.Battlefield.ApplyEntry | commands/building/combat_map_builder.py:222-227 | one matched entry runs its function, and on pass 0 its result is recorded under the cell |
| BattlefieldWorld.Battlefield.VisitCell | commands/building/combat_map_builder.py:220-227 | the legend loop changes the world as `Visit` says: the first matching entry runs |
| BattlefieldWorld.Battlefield.ScanRow | commands/building/combat_map_builder.py:219-227 | one row of a pass is `Cells` of the row, stopping at a KeyError |
| BattlefieldWorld.Battlefield.ScanPass | commands/building/combat_map_builder.py:218-227 | one pass is `Rows` of all rows, stopping at a KeyError |
| BattlefieldWorld.Battlefield.BuildBattlefieldMap | commands/building/combat_map_builder.py:183-279 | the world after a build is `BuildMap` of the world before |
| BattlefieldWorld.Battlefield.LinkOneWay | commands/building/combat_map_builder.py:241-249 | one check of the sweep adds the exit toward that direction if the neighbour holds a subsection |
| BattlefieldWorld.Battlefield.LinkEntry | commands/building/combat_map_builder.py:237-279 | the four checks add `LinksFrom` of the entry |
| BattlefieldWorld.Battlefield.Sweep | commands/building/combat_map_builder.py:230-279 | the sweep adds `AutoLinks` of the dictionary in insertion order and changes nothing else |
| BattlefieldWorld.Battlefield.CallMapFuncsAndBuildBattlefieldMap | commands/building/combat_map_builder.py:284-315 | builds the selected template with two passes and no sweep; from nothing, the small size gives 9 subsections and 24 exits |
| CombatQueue.Push | world/handlers/combat_handler.py:152 | the action goes in front, and the old queue follows unchanged |
| CombatQueue.NextAction | world/handlers/combat_handler.py:157-179 | an empty queue gives the default attack; otherwise the front is returned; the queue stays exactly when it is empty or its front is the default attack or sticky; otherwise the front is popped |
| CombatQueue.RemoveUndoesPush | world/handlers/combat_handler.py:139-179 | removing right after adding a non-sticky action returns it and restores the queue |
| CombatQueue.StickyFrontRepeats | world/handlers/combat_handler.py:171-175 | a default or sticky front is returned again and again |
| CombatQueue.StepKeepsDefaultLast | world/handlers/combat_handler.py:152-177 | one add or remove keeps a trailing default attack |
| CombatQueue.DefaultStaysLast | world/handlers/combat_handler.py:114-179 | a queue ending with the default attack keeps it at its end, so stays non-empty, under any sequence of adds and removes |
| CombatQueue.PushesUncapped | world/handlers/combat_handler.py:139-155 | n adds lengthen the queue by n; nothing caps it at two |
| CombatQueue.RemoveShrinksAtFront | world/handlers/combat_handler.py:164-179 | a remove shortens the queue by at most one, and only at the front |
| CombatQueue.RemovalNeverStops | world/handlers/combat_handler.py:126-137 | as written, with two or more characters stored, no removal stops the handler |
| CombatQueue.RemovingBothNeverStops | world/handlers/combat_handler.py:126-137 | as written, adding two characters and removing both leaves the handler running |
| CombatQueue.RemainingAsWritten | world/handlers/combat_handler.py:126-137 | as written, the character stays: every combatant, the removed one included, remains, and the count is unchanged |
| CombatQueue.Remaining | world/handlers/combat_handler.py:126-132 | as intended, the character is gone and the others stay |
| CombatQueue.RemovalStops | world/handlers/combat_handler.py:130-137 | as intended, removing all characters but one stops the handler, and removing one of three does not |
| CombatQueue.CombatHandler.constructor | world/handlers/combat_handler.py:19-41 | five-second interval, no start delay, not persistent; all four dictionaries empty; round 1 |
| CombatQueue.CombatHandler.AddCharacter | world/handlers/combat_handler.py:114-124 | the character is stored under its id, its queue is exactly its default attack, and it is in combat; nothing else of the handler or the character changes |
| CombatQueue.CombatHandler.AddAction | world/handlers/combat_handler.py:139-155 | the queue becomes `Push` of the old one; an unknown character raises KeyError and nothing changes; only the queues can change |
| CombatQueue.CombatHandler.RemoveAction | world/handlers/combat_handler.py:157-179 | the action and the new queue are what `NextAction` says; an unknown character raises KeyError and nothing changes; only the queues can change |
| CombatQueue.CombatHandler.AtRepeat | world/handlers/combat_handler.py:83-111 | the round count goes up by one, and nothing else changes |
| CombatQueue.CombatHandler.RemoveCharacter | world/handlers/combat_handler.py:126-137 | a stored character is cleaned up but stays stored; stop is requested exactly when fewer than two characters are stored; nothing else of the handler changes |
| CombatQueue.HandlerRound | world/handlers/combat_handler.py:19-41 | what `at_script_creation` sets up (the key's number, the interval, the start delay, persistence, and the battlefield and temporary-variable dictionaries) stays through adding a character, queueing and taking an action, a round and a removal |

## Left out

- Logging (`log_file`), `print`, and `create_object` are left out. Subsections and exits are appended records; their keys, descriptions and aliases are not kept.
- `move_to`, cmdset add and delete, and the back-reference of `_init_character` change objects outside the model.
- `at_start` only re-runs those framework calls.
- `at_stop` is left out: it deletes under a name, `dbref`, that is not defined there (world/handlers/combat_handler.py:79-81).
- `self.stop()` is a `stopped` flag. The script's timer is not modelled; the interval is a field.
- `random.sample` and `random.choice` are left out (world/handlers/map.py:431-435, 484). The sampled cells are a parameter of the sketch.
- `random.randint` in the handler's key is left out. The key's number is a constructor parameter.
- The combat branch of `in_combat_check` is modelled only as the size rule (`MapGrid.GridForSize`). The branch overwrites the `start_loc_on_grid` method with a list (the `[x, y]` that `random.choice` returns) and never sets `caller_location`.
- The typeclasses (rooms, characters) are not part of this model. A room is the record of attributes the map reads. A character is its id, its default attack, and the two `db.info` entries the handler writes.
- The float radius of `__init__` is left out. It is modelled as the `Budget` it amounts to: a count for an odd smaller side, unbounded for an even one.
- Colour markup in glyphs is not interpreted. A glyph is an opaque string.
- The builder file does not parse as written. The model takes the evident intent in each case:
  - `combat_handler **kwargs` (line 83) is read as a plain parameter.
  - `parent` (line 83) is read as the `parent_room` keyword the scan passes (line 225).
  - `str{y}` (105, 108) is read as `str(y)`.
  - `build_verticle_exit` (79) is read as `build_vertical_exit`.
  - LEGEND naming functions defined after it is read as naming them.
  - The undefined `legend` (220) is read as LEGEND.
  - The undefined `iteralions` (315) is read as the `iterations = 2` set just before it.
  - The bad indentation at line 239 is ignored.
- The handler file does not parse as written either: `def at_repeat` is indented by five spaces (world/handlers/combat_handler.py:83). The model reads it as a method of the handler class.
- The handler's `battlefield_room_section_dict` is keyed by coordinate pairs holding subsection ids. The source keys it by `(str(x), str(y))` and stores the tuple `(room_section, None)`; the model keeps only which cell maps to which subsection.
- A dictionary's iteration order is modelled by an `order` list of keys in insertion order.
- The legend test `battlefield_map[y][x] == key` is modelled twice:
  - as written, by `LookupAsWritten`;
  - as intended (membership), by `Lookup`, which the build uses through `Dispatch`. `LegendDispatch` proves `Dispatch` equal to the lookup in LEGEND.
- A connector whose neighbour cell is missing from the reference dictionary raises a KeyError in the code (`raised`), which ends the build. The model follows the code here, not a description of the builder as a no-op.
- Pass 0 records `None` under every connector cell, as the code does.
- The sweep as written links from connector entries as well, with a None location. Between the templates' room cells, which are two cells apart, it lays no exit at all. The builds `call_map_funcs_and_build_battlefield_map` asks for skip the sweep.
- `at_repeat`'s loop over the characters only logs, so the model has no loop.
- `battlefield_map` and `char_temp_vars` of the handler are only ever initialised, so the model keeps them as empty maps.
- MapSymbols.RoomGlyph, MapSymbols.DefaultSymbolBands, MapWalk.DrawnGrid, MapWorm.Map.DrawGlyph: these use the corrected band `ElevIndex`, so at an elevation difference of exactly 125 they give band 3's glyph. There the source indexes `map_symbol` with None and raises TypeError (world/handlers/map.py:305; see Findings).
- MapSymbols.RoomGlyph, MapWalk.DrawnGrid, MapWorm.Map.DrawGlyph: for a one-entry `map_symbol` these store its single glyph. The source stores the attribute itself (world/handlers/map.py:303); for a one-element list, `" ".join(row)` in `show_map` (line 394) then raises TypeError.
- MapWorm.Map.constructor: requires a width and a length from 1 to 21, and so do MapWalk.Framed and MapWalk.DrawnGrid. `__init__` accepts any value (world/handlers/map.py:186). With 0, `median` of an empty list raises (line 357). From 22 on, `draw_exit` accepts row or column 21 (line 342), where the base grid has only an empty row 21 and rows of 21 cells, and raises IndexError when a connector lands there.
- MapWorm.Map.DrawRoomOnMap, MapWorm.Map.constructor: state where rooms are placed, and that every compass exit is followed, but not the final grid; the constructor states only the grid's 21 x 21 shape, though it starts the walk from `CreateBaseGrid`, whose board is stated exactly. The grid is the composition of per-room writes in the walk's order, and each write is stated by `Draw`.
- BattlefieldLinks.SweepReachesEveryEntry: states one direction only. The sweep's exits are all of this form, but their locations are entries, which may be None for a connector cell. `AutoLinksExactly` states the exact set.

## Findings

| source | as written | input that shows it | evidently intended | confidence | as-written member | corrected member |
|---|---|---|---|---|---|---|
| world/handlers/map.py:335-338 | the bands are `25 <= d < 125` and `d > 125`, so a difference of exactly 125 matches no branch, `get_elev_index` returns None, and `map_symbol[None]` raises TypeError | a room 125 above the observer (`ElevGapAt125`) | 125 closes band 3, mirroring -125 in band 1 (`ElevIndexSymmetric`) | high, not executed | MapSymbols.ElevIndexAsWritten | MapSymbols.ElevIndex |
| commands/building/combat_map_builder.py:78 | the key `("X", "O")` is a tuple, and a character never equals a tuple, so no room subsection is created; the first connector of pass 1 then raises KeyError | any template cell `X` or `O` (`TupleKeyNeverMatches`) | a cell matches when the key holds its character (`LegendDispatch`) | high, not executed | BattlefieldTemplates.LookupAsWritten | BattlefieldTemplates.Lookup |
| commands/building/combat_map_builder.py:305 | `map_size -- 'Small'` negates a string, so every size but 'Large' and 'Medium', the default 'Small' included, raises TypeError and the custom-map branch is unreachable | `map_size='Small'` (`SelectAsWrittenRaises`) | `map_size == 'Small'` selects the small template, and other sizes keep the map passed in (`SelectTemplateAgrees`) | high, not executed | BattlefieldWorld.SelectTemplateAsWritten | BattlefieldWorld.SelectTemplate |
| world/handlers/combat_handler.py:126-137 | `remove_character` cleans the character up but never deletes it from `characters`, so once two are stored the "fewer than two" stop never fires | add two characters, remove both (`RemovingBothNeverStops`) | the character is deleted, as the docstring and `at_stop` say, and removing all but one stops the handler (`RemovalStops`) | medium, not executed | CombatQueue.RemainingAsWritten | CombatQueue.Remaining |
