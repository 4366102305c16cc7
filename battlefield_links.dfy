/** The auto-link sweep of `build_battlefield_map`
    (commands/building/combat_map_builder.py:230-279): from each entry of the
    reference dictionary, in insertion order, an exit toward each neighbour
    one cell away whose entry holds a subsection. */
module BattlefieldLinks {
  import opened Wrappers
  import opened BattlefieldBuilder
  import opened BattlefieldScan

  /** The direction back. */
  function Opposite(d: Direction): Direction
  {
    match d
    case North => South
    case East => West
    case South => North
    case West => East
  }

  /** Going one cell in a direction and one cell back returns to the start. */
  lemma NeighbourBack(k: Coord, d: Direction)
    ensures Neighbour(Neighbour(k, d, 1), Opposite(d), 1) == k
  {
  }

  /** The sweep lays exit `e` from entry `k` toward `d`: the neighbour is a
      key holding a subsection, and `e` leads from `k`'s entry to it. */
  predicate Linked(dict: map<Coord, Option<SectionId>>, k: Coord, d: Direction, e: ExitRecord)
  {
    var n := Neighbour(k, d, 1);
    && k in dict && n in dict && dict[n].Some?
    && e == ExitRecord(d, dict[k], dict[n])
  }

  /** The exits from one entry are exactly those Linked describes. */
  lemma LinksFromExactly(dict: map<Coord, Option<SectionId>>, k: Coord, e: ExitRecord)
    ensures e in LinksFrom(dict, k) <==> Linked(dict, k, e.key, e)
  {
    if k in dict {
      var n, ea, es, ew := LinkToward(dict, k, North), LinkToward(dict, k, East), LinkToward(dict, k, South), LinkToward(dict, k, West);
      assert LinksFrom(dict, k) == n + ea + es + ew;
      assert e in n + ea + es + ew <==> e in n || e in ea || e in es || e in ew;
    }
  }

  /** Some entry listed in `order` links `e`. */
  ghost predicate LinkedFrom(dict: map<Coord, Option<SectionId>>, order: seq<Coord>, e: ExitRecord)
  {
    exists i :: 0 <= i < |order| && Linked(dict, order[i], e.key, e)
  }

  /** An entry of `front + [last]` links `e` exactly when one of `front`
      does or `last` does. */
  lemma LinkedFromSnoc(dict: map<Coord, Option<SectionId>>, front: seq<Coord>, last: Coord, e: ExitRecord)
    ensures LinkedFrom(dict, front + [last], e) <==> LinkedFrom(dict, front, e) || Linked(dict, last, e.key, e)
  {
    var order := front + [last];
    if LinkedFrom(dict, order, e) {
      var i :| 0 <= i < |order| && Linked(dict, order[i], e.key, e);
      if i < |front| {
        assert front[i] == order[i];
      }
    }
    if LinkedFrom(dict, front, e) {
      var i :| 0 <= i < |front| && Linked(dict, front[i], e.key, e);
      assert order[i] == front[i];
    }
    if Linked(dict, last, e.key, e) {
      assert order[|front|] == last;
    }
  }

  /** The sweep over `order` lays exactly the exits Linked describes from
      the entries listed in `order`. */
  lemma {:induction false} AutoLinksExactly(dict: map<Coord, Option<SectionId>>, order: seq<Coord>, e: ExitRecord)
    ensures e in AutoLinks(dict, order) <==> exists i :: 0 <= i < |order| && Linked(dict, order[i], e.key, e)
    decreases |order|
  {
    if order != [] {
      var front, last := order[..|order| - 1], order[|order| - 1];
      AutoLinksExactly(dict, front, e);
      LinksFromExactly(dict, last, e);
      assert AutoLinks(dict, order) == AutoLinks(dict, front) + LinksFrom(dict, last);
      assert e in AutoLinks(dict, order) <==> e in AutoLinks(dict, front) || e in LinksFrom(dict, last);
      assert order == front + [last];
      LinkedFromSnoc(dict, front, last, e);
      assert e in AutoLinks(dict, order) <==> LinkedFrom(dict, order, e);
    }
  }

  /** Links are symmetric: when two neighbouring entries both hold a
      subsection and the order lists both, the sweep lays an exit from each
      to the other, in opposite directions. */
  lemma AutoLinksSymmetric(dict: map<Coord, Option<SectionId>>, order: seq<Coord>, a: Coord, d: Direction)
    requires a in order && Neighbour(a, d, 1) in order
    requires a in dict && Neighbour(a, d, 1) in dict
    requires dict[a].Some? && dict[Neighbour(a, d, 1)].Some?
    ensures var b := Neighbour(a, d, 1);
      && ExitRecord(d, dict[a], dict[b]) in AutoLinks(dict, order)
      && ExitRecord(Opposite(d), dict[b], dict[a]) in AutoLinks(dict, order)
  {
    var b := Neighbour(a, d, 1);
    NeighbourBack(a, d);
    var ia :| 0 <= ia < |order| && order[ia] == a;
    var ib :| 0 <= ib < |order| && order[ib] == b;
    var there, back := ExitRecord(d, dict[a], dict[b]), ExitRecord(Opposite(d), dict[b], dict[a]);
    assert Linked(dict, order[ia], there.key, there);
    assert Linked(dict, order[ib], back.key, back);
    AutoLinksExactly(dict, order, there);
    AutoLinksExactly(dict, order, back);
  }

  /** After a build whose order lists the dictionary's keys, the sweep
      reaches every entry: from each key, toward each neighbour that is a
      key holding a subsection, it lays an exit. */
  lemma SweepReachesEveryEntry(b: Build, k: Coord, d: Direction)
    requires OrderedKeys(b)
    requires k in b.dict && Neighbour(k, d, 1) in b.dict && b.dict[Neighbour(k, d, 1)].Some?
    ensures ExitRecord(d, b.dict[k], b.dict[Neighbour(k, d, 1)]) in AutoLinks(b.dict, b.order)
  {
    var e := ExitRecord(d, b.dict[k], b.dict[Neighbour(k, d, 1)]);
    assert k in b.order;
    var i :| 0 <= i < |b.order| && b.order[i] == k;
    assert Linked(b.dict, b.order[i], e.key, e);
    AutoLinksExactly(b.dict, b.order, e);
  }
}
