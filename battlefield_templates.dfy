/** The battlefield templates of commands/building/combat_map_builder.py and
    the legend that says what each template character builds: `X` and `O`
    are room subsections, `|` and `-` are the connectors between them, and
    every other character (`*`, space) builds nothing. */
module BattlefieldTemplates {
  import opened Wrappers
  import opened Text

  // ---------------------------------------------------------------------
  // The three templates (commands/building/combat_map_builder.py:28-74)
  // ---------------------------------------------------------------------

  /** The rows a template is made of: a border of `*`, rows of room symbols
      joined by `-`, and between two room rows a row of `|` under the room
      symbols. */
  const SMALL_BORDER: string := "* * * * *"
  const SMALL_ROOMS: string := "* X-X-X *"
  const SMALL_CENTRE: string := "* X-O-X *"
  const SMALL_LINKS: string := "  | | |"

  const MEDIUM_BORDER: string := "* * * * * * *"
  const MEDIUM_ROOMS: string := "* X-X-X-X-X *"
  const MEDIUM_CENTRE: string := "* X-X-O-X-X *"
  const MEDIUM_LINKS: string := "  | | | | |"

  const LARGE_BORDER: string := "* * * * * * * * *"
  const LARGE_ROOMS: string := "* X-X-X-X-X-X-X *"
  const LARGE_CENTRE: string := "* X-X-X-O-X-X-X *"
  const LARGE_LINKS: string := "  | | | | | | |"

  /** The room rows with a link row between each two of them. */
  function Body(roomRows: seq<string>, links: string): (r: seq<string>)
    requires |roomRows| >= 1
    ensures |r| == 2 * |roomRows| - 1
  {
    seq(2 * |roomRows| - 1, j requires 0 <= j < 2 * |roomRows| - 1 => if j % 2 == 0 then roomRows[j / 2] else links)
  }

  /** Row `j` of a body: a room row at even `j`, the link row at odd `j`. */
  lemma BodyAt(roomRows: seq<string>, links: string, j: int)
    requires |roomRows| >= 1 && 0 <= j < 2 * |roomRows| - 1
    ensures Body(roomRows, links)[j] == if j % 2 == 0 then roomRows[j / 2] else links
  {
  }

  /** The rows of a template text that opens with a newline, a border and
      an empty line, then the body, then an empty line, a border and the
      closing newline: its first and last rows are empty. */
  function Layout(border: string, roomRows: seq<string>, links: string): (r: seq<string>)
    requires |roomRows| >= 1
    ensures |r| == 2 * |roomRows| + 5
  {
    ["", border, ""] + Body(roomRows, links) + ["", border, ""]
  }

  /** `k` copies of a row. */
  function Repeat(row: string, k: nat): (r: seq<string>)
    ensures |r| == k && forall j :: 0 <= j < k ==> r[j] == row
  {
    seq(k, j => row)
  }

  /** SMALL_COMBAT_MAP as rows: three room rows, the centre one holding `O`. */
  const SMALL_COMBAT_ROWS: seq<string> :=
    Layout(SMALL_BORDER, [SMALL_ROOMS, SMALL_CENTRE, SMALL_ROOMS], SMALL_LINKS)
  /** MEDIUM_COMBAT_MAP as rows: five room rows, `O` in the middle one. */
  const MEDIUM_COMBAT_ROWS: seq<string> :=
    Layout(MEDIUM_BORDER, Repeat(MEDIUM_ROOMS, 2) + [MEDIUM_CENTRE] + Repeat(MEDIUM_ROOMS, 2), MEDIUM_LINKS)
  /** LARGE_COMBAT_MAP as rows: seven room rows, `O` in the middle one. */
  const LARGE_COMBAT_ROWS: seq<string> :=
    Layout(LARGE_BORDER, Repeat(LARGE_ROOMS, 3) + [LARGE_CENTRE] + Repeat(LARGE_ROOMS, 3), LARGE_LINKS)

  /** The template texts: the rows joined by newlines. */
  const SMALL_COMBAT_MAP: string := Join("\n", SMALL_COMBAT_ROWS)
  const MEDIUM_COMBAT_MAP: string := Join("\n", MEDIUM_COMBAT_ROWS)
  const LARGE_COMBAT_MAP: string := Join("\n", LARGE_COMBAT_ROWS)

  /** `_map_to_list`: the map cut into rows at each newline. */
  function MapToList(gameMap: string): (rows: seq<string>)
    ensures |rows| >= 1 && forall k :: 0 <= k < |rows| ==> '\n' !in rows[k]
    ensures Join("\n", rows) == gameMap
  {
    JoinSplit(gameMap);
    SplitLines(gameMap)
  }

  /** No row of a template holds a newline. */
  predicate SingleLines(rows: seq<string>)
  {
    |rows| >= 1 && forall k :: 0 <= k < |rows| ==> '\n' !in rows[k]
  }

  /** Cutting a template into rows gives back the rows it was written as. */
  lemma MapToListRows(rows: seq<string>)
    requires SingleLines(rows)
    ensures MapToList(Join("\n", rows)) == rows
  {
    SplitJoin(rows);
  }

  // ---------------------------------------------------------------------
  // LEGEND (commands/building/combat_map_builder.py:77-81, 217-222)
  // ---------------------------------------------------------------------

  /** The three build functions a legend entry can name. */
  datatype BuildFunction = RoomSubsection | VerticalExit | HorizontalExit

  /** A legend key: a one-character string such as `("|")`, which Python
      reads as the string itself, or a tuple of characters such as
      `("X", "O")`. */
  datatype LegendKey = Symbol(c: char) | Symbols(cs: seq<char>)

  /** LEGEND, in the order its entries are written. */
  const LEGEND: seq<(LegendKey, BuildFunction)> := [
    (Symbols(['X', 'O']), RoomSubsection),
    (Symbol('|'), VerticalExit),
    (Symbol('-'), HorizontalExit)
  ]

  /** The test `battlefield_map[y][x] == key` as written: a one-character
      string never equals a tuple, so only a string key can match. */
  predicate MatchesAsWritten(key: LegendKey, c: char)
  {
    key.Symbol? && key.c == c
  }

  /** The test the legend evidently intends: the character is the key, or
      one of the key's characters. */
  predicate Matches(key: LegendKey, c: char)
  {
    match key
    case Symbol(d) => c == d
    case Symbols(cs) => c in cs
  }

  /** The build function of the first entry whose key the character
      matches under the written test, if any. */
  function LookupAsWritten(legend: seq<(LegendKey, BuildFunction)>, c: char): (r: Option<BuildFunction>)
    ensures r.Some? <==> exists i :: 0 <= i < |legend| && MatchesAsWritten(legend[i].0, c)
    ensures r.Some? ==> exists i :: 0 <= i < |legend| && MatchesAsWritten(legend[i].0, c) && r.value == legend[i].1
  {
    if legend == [] then None
    else if MatchesAsWritten(legend[0].0, c) then Some(legend[0].1)
    else
      var r := LookupAsWritten(legend[1..], c);
      assert forall i :: 1 <= i < |legend| ==> legend[i] == legend[1..][i - 1];
      r
  }

  /** The build function of the first entry whose key the character
      matches under the intended test, if any. */
  function Lookup(legend: seq<(LegendKey, BuildFunction)>, c: char): (r: Option<BuildFunction>)
    ensures r.Some? <==> exists i :: 0 <= i < |legend| && Matches(legend[i].0, c)
    ensures r.Some? ==> exists i :: 0 <= i < |legend| && Matches(legend[i].0, c) && r.value == legend[i].1
  {
    if legend == [] then None
    else if Matches(legend[0].0, c) then Some(legend[0].1)
    else
      var r := Lookup(legend[1..], c);
      assert forall i :: 1 <= i < |legend| ==> legend[i] == legend[1..][i - 1];
      r
  }

  /** Under the written test the tuple key matches no character, so no
      template cell ever builds a room subsection. */
  lemma TupleKeyNeverMatches(c: char)
    ensures !MatchesAsWritten(LEGEND[0].0, c)
    ensures LookupAsWritten(LEGEND, c) != Some(RoomSubsection)
    ensures LookupAsWritten(LEGEND, 'X') == None && LookupAsWritten(LEGEND, 'O') == None
  {
    assert LEGEND[1..][1..][1..] == [];
  }

  /** The build function a character dispatches to: `X` and `O` build
      rooms, `|` and `-` build connectors, nothing else builds anything. */
  function Dispatch(c: char): Option<BuildFunction>
  {
    if IsRoom(c) then Some(RoomSubsection)
    else if c == '|' then Some(VerticalExit)
    else if c == '-' then Some(HorizontalExit)
    else None
  }

  /** Under the intended test the legend dispatches as Dispatch says. */
  lemma LegendDispatch(c: char)
    ensures Lookup(LEGEND, c) == Dispatch(c)
  {
    assert LEGEND[1..][1..][1..] == [];
  }

  /** Room symbols and connectors. */
  predicate IsRoom(c: char) { c == 'X' || c == 'O' }
  predicate IsConnector(c: char) { c == '|' || c == '-' }

  // ---------------------------------------------------------------------
  // Template facts
  // ---------------------------------------------------------------------

  /** How many of the first `n` characters of a row pass a test. */
  function CountIn(row: string, n: nat, test: char -> bool): (r: nat)
    requires n <= |row|
    ensures r <= n
  {
    if n == 0 then 0 else CountIn(row, n - 1, test) + (if test(row[n - 1]) then 1 else 0)
  }

  /** How many room symbols, and how many connectors, a row holds. */
  function RoomsIn(row: string): nat { CountIn(row, |row|, IsRoom) }
  function ConnectorsIn(row: string): nat { CountIn(row, |row|, IsConnector) }

  /** How many room symbols, or connectors, the rows hold. */
  function Count(rows: seq<string>, perRow: string -> nat): nat
  {
    if rows == [] then 0 else Count(rows[..|rows| - 1], perRow) + perRow(rows[|rows| - 1])
  }

  function RoomCount(rows: seq<string>): nat { Count(rows, RoomsIn) }
  function ConnectorCount(rows: seq<string>): nat { Count(rows, ConnectorsIn) }

  lemma {:induction false} CountConcat(a: seq<string>, b: seq<string>, perRow: string -> nat)
    ensures Count(a + b, perRow) == Count(a, perRow) + Count(b, perRow)
    decreases |b|
  {
    if b == [] {
      assert a + b == a;
    } else {
      var b' := b[..|b| - 1];
      assert (a + b)[..|a + b| - 1] == a + b';
      assert (a + b)[|a + b| - 1] == b[|b| - 1];
      CountConcat(a, b', perRow);
    }
  }

  lemma {:induction false} CountRepeat(row: string, k: nat, perRow: string -> nat)
    ensures Count(Repeat(row, k), perRow) == k * perRow(row)
  {
    if k > 0 {
      assert Repeat(row, k)[..k - 1] == Repeat(row, k - 1);
      CountRepeat(row, k - 1, perRow);
    }
  }

  /** Counting a list of one or two rows. */
  lemma CountPair(a: string, b: string, perRow: string -> nat)
    ensures Count([a], perRow) == perRow(a)
    ensures Count([a, b], perRow) == perRow(a) + perRow(b)
  {
    assert [a, b][..1] == [a];
    assert [a][..0] == [];
  }

  lemma {:induction false} CountBody(roomRows: seq<string>, links: string, perRow: string -> nat)
    requires |roomRows| >= 1
    ensures Count(Body(roomRows, links), perRow) == Count(roomRows, perRow) + (|roomRows| - 1) * perRow(links)
    decreases |roomRows|
  {
    var n := |roomRows|;
    if n == 1 {
      assert Body(roomRows, links) == [roomRows[0]];
      assert roomRows[..0] == [];
    } else {
      var front := roomRows[..n - 1];
      var last := roomRows[n - 1];
      var p := perRow(links);
      assert Count(Body(roomRows, links), perRow) == Count(Body(front, links), perRow) + p + perRow(last) by {
        BodySnoc(roomRows, links);
        CountConcat(Body(front, links), [links, last], perRow);
        CountPair(links, last, perRow);
      }
      CountBody(front, links, perRow);
      MulStep(n - 1, p);
    }
  }

  lemma MulStep(k: int, p: int)
    ensures (k - 1) * p + p == k * p
  {
  }

  /** A body one room row longer ends with a link row and that room row. */
  lemma BodySnoc(roomRows: seq<string>, links: string)
    requires |roomRows| >= 2
    ensures Body(roomRows, links) == Body(roomRows[..|roomRows| - 1], links) + [links, roomRows[|roomRows| - 1]]
  {
  }

  /** A template's counts: both borders and every link row, plus the room
      rows. */
  lemma CountLayout(border: string, roomRows: seq<string>, links: string, perRow: string -> nat)
    requires |roomRows| >= 1 && perRow("") == 0
    ensures Count(Layout(border, roomRows, links), perRow)
      == 2 * perRow(border) + Count(roomRows, perRow) + (|roomRows| - 1) * perRow(links)
  {
    var head: seq<string> := ["", border, ""];
    var body := Body(roomRows, links);
    var c := Count(head, perRow);
    assert c == perRow(border) by {
      CountPair("", border, perRow);
      assert head[..2] == ["", border];
    }
    assert Count(head + body + head, perRow) == c + Count(body, perRow) + c by {
      CountConcat(head, body, perRow);
      CountConcat(head + body, head, perRow);
    }
    CountBody(roomRows, links, perRow);
  }

  /** The room rows of a template: `k` plain rows, the centre row, `k` plain
      rows. */
  lemma CountMiddle(row: string, centre: string, k: nat, perRow: string -> nat)
    ensures Count(Repeat(row, k) + [centre] + Repeat(row, k), perRow) == 2 * k * perRow(row) + perRow(centre)
  {
    CountRepeat(row, k, perRow);
    CountPair(centre, centre, perRow);
    CountConcat(Repeat(row, k), [centre], perRow);
    CountConcat(Repeat(row, k) + [centre], Repeat(row, k), perRow);
  }

  /** The cell in column `x` of row `y` is a connector with a room symbol
      on each side: left and right for `-`, above and below for `|`. */
  predicate Joined(rows: seq<string>, x: int, y: int)
    requires 0 <= y < |rows| && 0 <= x < |rows[y]|
  {
    && (rows[y][x] == '-' ==>
          0 < x && x + 1 < |rows[y]| && IsRoom(rows[y][x - 1]) && IsRoom(rows[y][x + 1]))
    && (rows[y][x] == '|' ==>
          && 0 < y && y + 1 < |rows|
          && x < |rows[y - 1]| && x < |rows[y + 1]|
          && IsRoom(rows[y - 1][x]) && IsRoom(rows[y + 1][x]))
  }

  /** Every `-` sits between two room symbols of its row, and every `|`
      between two room symbols of its column. */
  predicate ConnectorsJoinRooms(rows: seq<string>)
  {
    forall y, x :: 0 <= y < |rows| && 0 <= x < |rows[y]| ==> Joined(rows, x, y)
  }

  /** A room row: no `|`, and each `-` between two room symbols. */
  predicate RoomRow(row: string)
  {
    && '|' !in row
    && forall x :: 0 <= x < |row| && row[x] == '-' ==> 0 < x < |row| - 1 && IsRoom(row[x - 1]) && IsRoom(row[x + 1])
  }

  /** A link row under a room row: no `-`, and each `|` above a room symbol. */
  predicate LinksUnder(links: string, row: string)
  {
    && '-' !in links
    && forall x :: 0 <= x < |links| && links[x] == '|' ==> x < |row| && IsRoom(row[x])
  }

  /** A border holds no connector. */
  predicate Border(row: string)
  {
    '-' !in row && '|' !in row
  }

  /** In a layout made of such rows every connector joins two rooms. */
  lemma LayoutJoins(border: string, roomRows: seq<string>, links: string)
    requires |roomRows| >= 1 && Border(border)
    requires forall i :: 0 <= i < |roomRows| ==> RoomRow(roomRows[i]) && LinksUnder(links, roomRows[i])
    ensures ConnectorsJoinRooms(Layout(border, roomRows, links))
  {
    var rows := Layout(border, roomRows, links);
    forall y, x | 0 <= y < |rows| && 0 <= x < |rows[y]| ensures Joined(rows, x, y) {
      if 3 <= y < |rows| - 3 {
        BodyJoins(border, roomRows, links, x, y);
      } else {
        assert rows[y] == "" || rows[y] == border;
        assert rows[y][x] in border;
      }
    }
  }

  /** The same, for a cell of a room row or a link row. */
  lemma BodyJoins(border: string, roomRows: seq<string>, links: string, x: int, y: int)
    requires |roomRows| >= 1
    requires forall i :: 0 <= i < |roomRows| ==> RoomRow(roomRows[i]) && LinksUnder(links, roomRows[i])
    requires var rows := Layout(border, roomRows, links);
      3 <= y < |rows| - 3 && 0 <= x < |rows[y]|
    ensures Joined(Layout(border, roomRows, links), x, y)
  {
    var i := (y - 3) / 2;
    if (y - 3) % 2 == 0 {
      assert y == 2 * i + 3;
      LayoutRoomAt(border, roomRows, links, i);
      RoomRowJoins(border, roomRows, links, x, i, y);
    } else {
      assert y == 2 * i + 4;
      LayoutLinkAt(border, roomRows, links, i);
      LinkRowJoins(border, roomRows, links, x, i, y);
    }
  }

  /** Room row `i` of a layout. */
  lemma LayoutRoomAt(border: string, roomRows: seq<string>, links: string, i: int)
    requires 0 <= i < |roomRows|
    ensures Layout(border, roomRows, links)[2 * i + 3] == roomRows[i]
  {
    BodyAt(roomRows, links, 2 * i);
  }

  /** The link row below room row `i` of a layout. */
  lemma LayoutLinkAt(border: string, roomRows: seq<string>, links: string, i: int)
    requires 0 <= i < |roomRows| - 1
    ensures Layout(border, roomRows, links)[2 * i + 4] == links
  {
    BodyAt(roomRows, links, 2 * i + 1);
  }

  lemma RoomRowJoins(border: string, roomRows: seq<string>, links: string, x: int, i: int, y: int)
    requires 0 <= i < |roomRows| && 0 <= x < |roomRows[i]| && y == 2 * i + 3
    requires RoomRow(roomRows[i])
    ensures Joined(Layout(border, roomRows, links), x, y)
  {
    var row := roomRows[i];
    LayoutRoomAt(border, roomRows, links, i);
    assert row[x] in row;
  }

  lemma LinkRowJoins(border: string, roomRows: seq<string>, links: string, x: int, i: int, y: int)
    requires 0 <= i < |roomRows| - 1 && 0 <= x < |links| && y == 2 * i + 4
    requires LinksUnder(links, roomRows[i]) && LinksUnder(links, roomRows[i + 1])
    ensures Joined(Layout(border, roomRows, links), x, y)
  {
    LayoutRoomAt(border, roomRows, links, i);
    LayoutRoomAt(border, roomRows, links, i + 1);
    LayoutLinkAt(border, roomRows, links, i);
    assert links[x] in links;
  }


  /** A template's rows hold no newline and the first one is empty. */
  lemma LayoutLines(border: string, roomRows: seq<string>, links: string)
    requires |roomRows| >= 1 && '\n' !in border && '\n' !in links
    requires forall i :: 0 <= i < |roomRows| ==> '\n' !in roomRows[i]
    ensures SingleLines(Layout(border, roomRows, links)) && Layout(border, roomRows, links)[0] == ""
  {
    var rows := Layout(border, roomRows, links);
    forall k | 0 <= k < |rows| ensures '\n' !in rows[k] {
      if 3 <= k < |rows| - 3 {
        BodyAt(roomRows, links, k - 3);
        assert rows[k] == Body(roomRows, links)[k - 3];
      }
    }
  }

  // ---------------------------------------------------------------------
  // The rows of a template with `k` rooms a side
  // ---------------------------------------------------------------------

  /** `k + 2` border stars with a space between each two. */
  function BorderLine(k: nat): string
  {
    seq(2 * k + 3, i => if i % 2 == 0 then '*' else ' ')
  }

  /** `k` room symbols joined by `-` inside the border stars; the middle
      one is `O` in the centre row. */
  function RoomLine(k: nat, centre: bool): string
    requires k >= 1
  {
    "* " + seq(2 * k - 1, i => if i % 2 == 1 then '-' else if centre && i == k - 1 then 'O' else 'X') + " *"
  }

  /** A `|` under each of the `k` room symbols. */
  function LinkLine(k: nat): string
    requires k >= 1
  {
    "  " + seq(2 * k - 1, i => if i % 2 == 0 then '|' else ' ')
  }

  lemma BorderFacts(k: nat)
    ensures Border(BorderLine(k)) && '\n' !in BorderLine(k)
    ensures RoomsIn(BorderLine(k)) == 0 && ConnectorsIn(BorderLine(k)) == 0
  {
    var row := BorderLine(k);
    assert forall c :: c in row ==> c == '*' || c == ' ';
    NoneCounted(row, |row|, IsRoom);
    NoneCounted(row, |row|, IsConnector);
  }

  /** A row in which no character passes the test counts zero. */
  lemma {:induction false} NoneCounted(row: string, n: nat, test: char -> bool)
    requires n <= |row| && forall i :: 0 <= i < n ==> !test(row[i])
    ensures CountIn(row, n, test) == 0
  {
    if n > 0 {
      NoneCounted(row, n - 1, test);
    }
  }

  lemma RoomLineFacts(k: nat, centre: bool)
    requires k >= 1
    ensures RoomRow(RoomLine(k, centre)) && '\n' !in RoomLine(k, centre)
    ensures RoomsIn(RoomLine(k, centre)) == k && ConnectorsIn(RoomLine(k, centre)) == k - 1
  {
    RoomLineShape(k, centre);
    RoomLineCounts(k, centre, k);
  }

  /** Where a room row's symbols and connectors sit: room symbols in the
      even columns from 2 to `2 k`, `-` in the odd columns between them. */
  lemma RoomLineShape(k: nat, centre: bool)
    requires k >= 1
    ensures var row := RoomLine(k, centre);
      && |row| == 2 * k + 3
      && (forall x :: 0 <= x < |row| ==> (row[x] == '-' <==> 3 <= x < 2 * k + 1 && x % 2 == 1))
      && (forall x :: 0 <= x < |row| ==> (IsRoom(row[x]) <==> 2 <= x <= 2 * k && x % 2 == 0))
      && RoomRow(row) && '\n' !in row
  {
    var row := RoomLine(k, centre);
    forall x | 0 <= x < |row|
      ensures row[x] == '-' <==> 3 <= x < 2 * k + 1 && x % 2 == 1
      ensures IsRoom(row[x]) <==> 2 <= x <= 2 * k && x % 2 == 0
      ensures row[x] != '|' && row[x] != '\n'
    {
      RoomLineAt(k, centre, x);
    }
  }

  /** The character in column `x` of a room row. */
  lemma RoomLineAt(k: nat, centre: bool, x: int)
    requires k >= 1 && 0 <= x < 2 * k + 3
    ensures RoomLine(k, centre)[x] ==
      if x == 0 || x == 2 * k + 2 then '*'
      else if x == 1 || x == 2 * k + 1 then ' '
      else if x % 2 == 1 then '-'
      else if centre && x == k + 1 then 'O'
      else 'X'
  {
    if 2 <= x <= 2 * k {
      assert RoomLine(k, centre)[x] == (if (x - 2) % 2 == 1 then '-' else if centre && x - 2 == k - 1 then 'O' else 'X');
    }
  }

  /** The first `2 j + 1` characters of a room row hold `j` room symbols and
      `j - 1` connectors (none when `j` is 0). */
  lemma {:induction false} RoomLineCounts(k: nat, centre: bool, j: nat)
    requires 1 <= k && j <= k
    ensures var row := RoomLine(k, centre);
      && CountIn(row, 2 * j + 1, IsRoom) == j
      && CountIn(row, 2 * j + 1, IsConnector) == (if j == 0 then 0 else j - 1)
      && (j == k ==> CountIn(row, |row|, IsRoom) == k && CountIn(row, |row|, IsConnector) == k - 1)
  {
    var row := RoomLine(k, centre);
    RoomLineShape(k, centre);
    if j == 0 {
      assert !IsRoom(row[0]) && !IsConnector(row[0]);
    } else {
      RoomLineCounts(k, centre, j - 1);
      assert IsConnector(row[2 * j - 1]) <==> j >= 2;
      assert !IsRoom(row[2 * j - 1]) && IsRoom(row[2 * j]) && !IsConnector(row[2 * j]);
    }
    if j == k {
      assert !IsRoom(row[2 * k + 1]) && !IsConnector(row[2 * k + 1]);
      assert !IsRoom(row[2 * k + 2]) && !IsConnector(row[2 * k + 2]);
    }
  }

  lemma LinkLineFacts(k: nat, centre: bool)
    requires k >= 1
    ensures LinksUnder(LinkLine(k), RoomLine(k, centre)) && '\n' !in LinkLine(k)
    ensures RoomsIn(LinkLine(k)) == 0 && ConnectorsIn(LinkLine(k)) == k
  {
    var links := LinkLine(k);
    var row := RoomLine(k, centre);
    assert forall x :: 0 <= x < |links| && links[x] == '|' ==> 2 <= x && x % 2 == 0 && IsRoom(row[x]);
    assert forall c :: c in links ==> c == ' ' || c == '|';
    NoneCounted(links, |links|, IsRoom);
    LinkLineCounts(k, k);
  }

  /** The first `2 j + 1` characters of a link row hold `j` connectors. */
  lemma {:induction false} LinkLineCounts(k: nat, j: nat)
    requires 1 <= k && j <= k
    ensures CountIn(LinkLine(k), 2 * j + 1, IsConnector) == j
    ensures j == k ==> CountIn(LinkLine(k), |LinkLine(k)|, IsConnector) == k
  {
    var links := LinkLine(k);
    if j == 0 {
      assert links[0] == ' ';
    } else {
      LinkLineCounts(k, j - 1);
      assert links[2 * j - 1] == ' ' && links[2 * j] == '|';
    }
  }

  /** The room rows of a square template with `2 h + 1` rooms a side. */
  function SquareRooms(h: nat): seq<string>
  {
    Repeat(RoomLine(2 * h + 1, false), h) + [RoomLine(2 * h + 1, true)] + Repeat(RoomLine(2 * h + 1, false), h)
  }

  /** Every room row of a square template is a room row with its link row
      underneath. */
  lemma SquareRoomRows(h: nat)
    ensures forall i :: 0 <= i < |SquareRooms(h)| ==>
      && RoomRow(SquareRooms(h)[i]) && '\n' !in SquareRooms(h)[i]
      && LinksUnder(LinkLine(2 * h + 1), SquareRooms(h)[i])
  {
    var k := 2 * h + 1;
    RoomLineFacts(k, false);
    RoomLineFacts(k, true);
    LinkLineFacts(k, false);
    LinkLineFacts(k, true);
    forall i | 0 <= i < |SquareRooms(h)|
      ensures SquareRooms(h)[i] == RoomLine(k, false) || SquareRooms(h)[i] == RoomLine(k, true)
    {
    }
  }

  /** The rows of a square template with `2 h + 1` rooms a side. */
  function Square(h: nat): seq<string>
  {
    Layout(BorderLine(2 * h + 1), SquareRooms(h), LinkLine(2 * h + 1))
  }

  /** A square template's rows hold no newline and the first is empty. */
  lemma SquareLines(h: nat)
    ensures SingleLines(Square(h)) && Square(h)[0] == ""
  {
    var k := 2 * h + 1;
    BorderFacts(k);
    LinkLineFacts(k, false);
    SquareRoomRows(h);
    LayoutLines(BorderLine(k), SquareRooms(h), LinkLine(k));
  }

  /** Every connector of a square template joins two room symbols. */
  lemma SquareJoins(h: nat)
    ensures ConnectorsJoinRooms(Square(h))
  {
    BorderFacts(2 * h + 1);
    SquareStacked(h);
    LayoutJoins(BorderLine(2 * h + 1), SquareRooms(h), LinkLine(2 * h + 1));
  }

  /** The room rows of a square template, as LayoutJoins needs them. */
  lemma SquareStacked(h: nat)
    ensures forall i :: 0 <= i < |SquareRooms(h)| ==>
      RoomRow(SquareRooms(h)[i]) && LinksUnder(LinkLine(2 * h + 1), SquareRooms(h)[i])
  {
    SquareRoomRows(h);
  }

  /** A square template with `k = 2 h + 1` rooms a side holds `k * k` room
      symbols. */
  lemma SquareRoomCount(h: nat)
    ensures RoomCount(Square(h)) == (2 * h + 1) * (2 * h + 1)
  {
    var k := 2 * h + 1;
    RowCounts(k);
    SquareCount(h, RoomsIn);
    SquareArith(h);
  }

  /** ... and `2 k (k - 1)` connectors: `k - 1` in each of the `k` room rows
      and `k` in each of the `k - 1` link rows. */
  lemma SquareConnectorCount(h: nat)
    ensures ConnectorCount(Square(h)) == 2 * (2 * h + 1) * (2 * h)
  {
    var k := 2 * h + 1;
    RowCounts(k);
    SquareCount(h, ConnectorsIn);
    SquareArith(h);
  }

  /** Any per-row count of the square template, by kind of row. */
  lemma SquareCount(h: nat, perRow: string -> nat)
    requires perRow("") == 0
    ensures Count(Square(h), perRow)
      == 2 * perRow(BorderLine(2 * h + 1)) + 2 * h * perRow(RoomLine(2 * h + 1, false))
         + perRow(RoomLine(2 * h + 1, true)) + 2 * h * perRow(LinkLine(2 * h + 1))
  {
    var k := 2 * h + 1;
    var rooms := SquareRooms(h);
    assert |rooms| - 1 == 2 * h;
    CountMiddle(RoomLine(k, false), RoomLine(k, true), h, perRow);
    CountLayout(BorderLine(k), rooms, LinkLine(k), perRow);
  }

  /** How many room symbols and connectors each kind of row holds. */
  lemma RowCounts(k: nat)
    requires k >= 1
    ensures RoomsIn(BorderLine(k)) == 0 && ConnectorsIn(BorderLine(k)) == 0
    ensures RoomsIn(RoomLine(k, false)) == k && ConnectorsIn(RoomLine(k, false)) == k - 1
    ensures RoomsIn(RoomLine(k, true)) == k && ConnectorsIn(RoomLine(k, true)) == k - 1
    ensures RoomsIn(LinkLine(k)) == 0 && ConnectorsIn(LinkLine(k)) == k
  {
    BorderFacts(k);
    RoomLineFacts(k, false);
    RoomLineFacts(k, true);
    LinkLineFacts(k, false);
  }

  lemma SquareArith(h: nat)
    ensures 2 * h * (2 * h + 1) + (2 * h + 1) == (2 * h + 1) * (2 * h + 1)
    ensures 2 * h * (2 * h) + 2 * h + 2 * h * (2 * h + 1) == 2 * (2 * h + 1) * (2 * h)
  {
    var k := 2 * h + 1;
    calc { k * k; == (2 * h + 1) * k; == 2 * h * k + k; }
    calc { 2 * k * (k - 1); == 2 * k * (2 * h); == (2 * h) * (2 * k); == (2 * h) * (2 * h) + (2 * h) * (2 * h + 2); }
  }

  /** The written rows of SMALL_COMBAT_MAP are the square template with
      three rooms a side. */
  lemma SmallRows()
    ensures SMALL_COMBAT_ROWS == Square(1)
  {
    assert SMALL_BORDER == BorderLine(3);
    assert SMALL_ROOMS == RoomLine(3, false);
    assert SMALL_CENTRE == RoomLine(3, true);
    assert SMALL_LINKS == LinkLine(3);
    assert SquareRooms(1) == [SMALL_ROOMS, SMALL_CENTRE, SMALL_ROOMS];
  }

  /** The written rows of MEDIUM_COMBAT_MAP are the square template with
      five rooms a side. */
  lemma MediumRows()
    ensures MEDIUM_COMBAT_ROWS == Square(2)
  {
    assert MEDIUM_BORDER == BorderLine(5);
    assert MEDIUM_ROOMS == RoomLine(5, false);
    assert MEDIUM_CENTRE == RoomLine(5, true);
    assert MEDIUM_LINKS == LinkLine(5);
  }

  /** The written rows of LARGE_COMBAT_MAP are the square template with
      seven rooms a side. */
  lemma LargeRows()
    ensures LARGE_COMBAT_ROWS == Square(3)
  {
    LargeBorder();
    LargeRoomLine();
    LargeCentreLine();
    LargeLinkLine();
  }

  // The four lines of LARGE_COMBAT_MAP, one at a time.
  lemma LargeBorder() ensures LARGE_BORDER == BorderLine(7) {}
  lemma LargeRoomLine() ensures LARGE_ROOMS == RoomLine(7, false) {}
  lemma LargeCentreLine() ensures LARGE_CENTRE == RoomLine(7, true) {}
  lemma LargeLinkLine() ensures LARGE_LINKS == LinkLine(7) {}

  /** Everything the builder relies on in a square template with
      `k = 2 h + 1` rooms a side. */
  lemma SquareFacts(rows: seq<string>, h: nat)
    requires rows == Square(h)
    ensures SingleLines(rows) && rows[0] == ""
    ensures ConnectorsJoinRooms(rows)
    ensures RoomCount(rows) == (2 * h + 1) * (2 * h + 1)
    ensures ConnectorCount(rows) == 2 * (2 * h + 1) * (2 * h)
  {
    SquareLines(h);
    SquareJoins(h);
    SquareRoomCount(h);
    SquareConnectorCount(h);
  }

  /** The counts of SquareFacts for the three sizes the builder uses. */
  lemma SideProducts(h: nat)
    requires 1 <= h <= 3
    ensures (2 * h + 1) * (2 * h + 1) == [9, 25, 49][h - 1]
    ensures 2 * (2 * h + 1) * (2 * h) == [12, 40, 84][h - 1]
  {
  }

  /** Cut at its newlines, each template text gives back the rows it was
      written as, which are those of the square template of its size. */
  lemma SmallMapRows(rows: seq<string>)
    requires rows == MapToList(SMALL_COMBAT_MAP)
    ensures rows == Square(1)
  {
    SmallRows();
    SquareLines(1);
    MapToListRows(SMALL_COMBAT_ROWS);
  }

  lemma MediumMapRows(rows: seq<string>)
    requires rows == MapToList(MEDIUM_COMBAT_MAP)
    ensures rows == Square(2)
  {
    MediumRows();
    SquareLines(2);
    MapToListRows(MEDIUM_COMBAT_ROWS);
  }

  lemma LargeMapRows(rows: seq<string>)
    requires rows == MapToList(LARGE_COMBAT_MAP)
    ensures rows == Square(3)
  {
    LargeRows();
    SquareLines(3);
    MapToListRows(LARGE_COMBAT_ROWS);
  }

  /** What the builder relies on in each template: its first row is empty;
      every connector joins two room symbols; and the small, medium and
      large templates hold 9, 25 and 49 room symbols and 12, 40 and 84
      connectors. */
  lemma SmallTemplate(rows: seq<string>)
    requires rows == MapToList(SMALL_COMBAT_MAP)
    ensures rows[0] == "" && ConnectorsJoinRooms(rows)
    ensures RoomCount(rows) == 9 && ConnectorCount(rows) == 12
  {
    SmallMapRows(rows);
    SmallSquare(rows, 1);
  }

  lemma SmallSquare(rows: seq<string>, h: nat)
    requires h == 1 && rows == Square(h)
    ensures rows[0] == "" && ConnectorsJoinRooms(rows)
    ensures RoomCount(rows) == 9 && ConnectorCount(rows) == 12
  {
    SquareFacts(rows, h);
    SideProducts(h);
  }

  lemma MediumTemplate(rows: seq<string>)
    requires rows == MapToList(MEDIUM_COMBAT_MAP)
    ensures rows[0] == "" && ConnectorsJoinRooms(rows)
    ensures RoomCount(rows) == 25 && ConnectorCount(rows) == 40
  {
    MediumMapRows(rows);
    MediumSquare(rows, 2);
  }

  lemma MediumSquare(rows: seq<string>, h: nat)
    requires h == 2 && rows == Square(h)
    ensures rows[0] == "" && ConnectorsJoinRooms(rows)
    ensures RoomCount(rows) == 25 && ConnectorCount(rows) == 40
  {
    SquareFacts(rows, h);
    SideProducts(h);
  }

  lemma LargeTemplate(rows: seq<string>)
    requires rows == MapToList(LARGE_COMBAT_MAP)
    ensures rows[0] == "" && ConnectorsJoinRooms(rows)
    ensures RoomCount(rows) == 49 && ConnectorCount(rows) == 84
  {
    LargeMapRows(rows);
    LargeSquare(rows, 3);
  }

  lemma LargeSquare(rows: seq<string>, h: nat)
    requires h == 3 && rows == Square(h)
    ensures rows[0] == "" && ConnectorsJoinRooms(rows)
    ensures RoomCount(rows) == 49 && ConnectorCount(rows) == 84
  {
    SquareFacts(rows, h);
    SideProducts(h);
  }
}
