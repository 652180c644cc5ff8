/** The list without desktops, and the list of every session a screen can name. */
module SessionFlat {
  import opened JsText
  import opened Lists
  import opened StableSort
  import opened SessionListing
  import opened SessionLaws

  /** `localeCompare` in one locale: negative, zero or positive, consistently. */
  type Collation = (Str, Str) -> int

  ghost predicate Consistent(collate: Collation) {
    && (forall a, b :: collate(a, b) < 0 <==> collate(b, a) > 0)
    && (forall a, b, c :: collate(a, b) <= 0 && collate(b, c) <= 0 ==> collate(a, c) <= 0)
  }

  const NOWHERE: Placement := Placement([], [], None, 0)

  function Machine(row: Row): Str {
    if row.source.Ssh? then row.source.serverLabel else row.source.hubLabel
  }

  /** Openable rows first, then by machine, title and session id. */
  function Compare(a: Row, b: Row, collate: Collation): int {
    if Openable(a.source) != Openable(b.source) then (if Openable(a.source) then -1 else 1)
    else if collate(Machine(a), Machine(b)) != 0 then collate(Machine(a), Machine(b))
    else if collate(a.title, b.title) != 0 then collate(a.title, b.title)
    else collate(RowId(a), RowId(b))
  }

  function FlatLe(collate: Collation): (Row, Row) -> bool {
    (a, b) => Compare(a, b, collate) <= 0
  }

  /** One row for the first source of each session. */
  function Unplaced(sources: seq<Source>, named: seq<Session>): seq<Row> {
    if sources == [] then []
    else
      var rest, last := sources[..|sources| - 1], sources[|sources| - 1];
      Unplaced(rest, named)
      + if IdOf(last) in Ids(rest) then [] else [FromSource(last, NOWHERE, LaptopName(named, IdOf(last)))]
  }

  function Flattened(sources: seq<Source>, named: seq<Session>, collate: Collation): seq<Row> {
    SortBy(Unplaced(sources, named), FlatLe(collate))
  }

  method FlattenRows(census: seq<CensusRow>, hubs: seq<HubSessions>, collate: Collation) returns (rows: seq<Row>)
    ensures rows == Flattened(PreferredSources(census, hubs), Sessions(hubs), collate)
  {
    var titles := LaptopTitles(hubs);
    var sources := PreferredSources(census, hubs);
    var seen: set<Str> := {};
    rows := [];
    for i := 0 to |sources|
      invariant seen == Ids(sources[..i]) && rows == Unplaced(sources[..i], Sessions(hubs))
    {
      var source, id := sources[i], IdOf(sources[i]);
      assert sources[..i + 1][..i] == sources[..i];
      if id !in seen {
        seen := seen + {id};
        rows := rows + [FromSource(source, NOWHERE, if id in titles then Some(titles[id]) else None)];
      }
    }
    assert sources[..|sources|] == sources;
    rows := SortBy(rows, FlatLe(collate));
  }

  lemma {:induction false} UnplacedOnce(sources: seq<Source>, named: seq<Session>, id: Str)
    ensures CountId(Unplaced(sources, named), id) == if id in Ids(sources) then 1 else 0
  {
    if sources != [] {
      var rest, last := sources[..|sources| - 1], sources[|sources| - 1];
      UnplacedOnce(rest, named, id);
      var added := if IdOf(last) in Ids(rest) then [] else [FromSource(last, NOWHERE, LaptopName(named, IdOf(last)))];
      CountConcat(Unplaced(rest, named), added, id);
    }
  }

  lemma {:induction false} UnplacedLength(sources: seq<Source>, named: seq<Session>)
    ensures |Unplaced(sources, named)| == |Ids(sources)|
  {
    if sources != [] {
      var rest, id := sources[..|sources| - 1], IdOf(sources[|sources| - 1]);
      UnplacedLength(rest, named);
      if id in Ids(rest) {
        assert Ids(rest) + {id} == Ids(rest);
      }
    }
  }

  lemma {:induction false} UnplacedDrawn(sources: seq<Source>, named: seq<Session>, i: nat)
    requires i < |Unplaced(sources, named)|
    ensures var row := Unplaced(sources, named)[i];
            First(sources, RowId(row)) == Some(row.source) && row == FromSource(row.source, NOWHERE, LaptopName(named, RowId(row)))
  {
    var rest := sources[..|sources| - 1];
    var before, row := Unplaced(rest, named), Unplaced(sources, named)[i];
    FirstLast(sources, RowId(row));
    FirstKnows(rest, RowId(row));
    if i < |before| {
      UnplacedDrawn(rest, named, i);
      assert row == before[i];
    }
  }

  lemma CompareOrders(collate: Collation)
    requires Consistent(collate)
    ensures Preorder(FlatLe(collate))
  {
    var le := FlatLe(collate);
    forall a, b ensures le(a, b) || le(b, a) {
      CompareTurns(a, b, collate);
    }
    forall a, b, c | le(a, b) && le(b, c) ensures le(a, c) {
      CompareChains(a, b, c, collate);
    }
  }

  lemma CompareTurns(a: Row, b: Row, collate: Collation)
    requires Consistent(collate)
    ensures Compare(a, b, collate) <= 0 || Compare(b, a, collate) <= 0
  {
  }

  lemma Chains(x: Str, y: Str, z: Str, collate: Collation)
    requires Consistent(collate) && collate(x, y) <= 0 && collate(y, z) <= 0
    ensures collate(x, z) <= 0
    ensures collate(x, z) == 0 ==> collate(x, y) == 0 && collate(y, z) == 0
  {
  }

  lemma CompareChains(a: Row, b: Row, c: Row, collate: Collation)
    requires Consistent(collate) && Compare(a, b, collate) <= 0 && Compare(b, c, collate) <= 0
    ensures Compare(a, c, collate) <= 0
  {
    if Openable(a.source) == Openable(b.source) == Openable(c.source) {
      Chains(Machine(a), Machine(b), Machine(c), collate);
      if collate(Machine(a), Machine(c)) == 0 {
        Chains(a.title, b.title, c.title, collate);
        if collate(a.title, c.title) == 0 {
          Chains(RowId(a), RowId(b), RowId(c), collate);
        }
      }
    }
  }

  /** Without desktops every session of either route is drawn once, by its best route, the openable ones first. */
  lemma FlattenedWhole(census: seq<CensusRow>, hubs: seq<HubSessions>, collate: Collation)
    requires Consistent(collate)
    ensures var rows := Flattened(PreferredSources(census, hubs), Sessions(hubs), collate);
            var sources := Sources(census, hubs);
            && |rows| == |Ids(sources)|
            && (forall id :: CountId(rows, id) == if id in Ids(sources) then 1 else 0)
            && (forall i :: 0 <= i < |rows| ==> BestRoute(rows[i].source, sources))
            && Ordered(rows, FlatLe(collate))
            && (forall i, j :: 0 <= i < j < |rows| && Openable(rows[j].source) ==> Openable(rows[i].source))
  {
    var sources, named := PreferredSources(census, hubs), Sessions(hubs);
    var placed, le := Unplaced(sources, named), FlatLe(collate);
    SortKeepsIds(Sources(census, hubs));
    UnplacedLength(sources, named);
    forall id ensures CountId(SortBy(placed, le), id) == if id in Ids(sources) then 1 else 0 {
      UnplacedOnce(sources, named, id);
      CountSort(placed, le, id);
    }
    forall i | 0 <= i < |placed| ensures BestRoute(SortBy(placed, le)[i].source, Sources(census, hubs)) {
      var k := SortedRow(placed, le, i);
      UnplacedDrawn(sources, named, k);
      PreferredFirst(Sources(census, hubs), RowId(placed[k]));
      BestIsBest(Sources(census, hubs), RowId(placed[k]));
    }
    CompareOrders(collate);
    SortOrders(placed, le);
    OpenableAhead(SortBy(placed, le), collate);
  }

  /** The machine a row names: the server, or the paired computer. */
  function LabelOf(source: Source): Str {
    match source
    case Ssh(_, machine, _, _) => machine
    case Hub(_, machine, _, _) => machine
  }

  /** One row may stand above another: by what opens, then by machine, by title and by id. */
  predicate MayPrecede(a: Row, b: Row, collate: Collation) {
    var opensA, opensB := a.source.reachable && a.source.session.ready, b.source.reachable && b.source.session.ready;
    if opensA != opensB then opensA
    else
      var byMachine, byTitle := collate(LabelOf(a.source), LabelOf(b.source)), collate(a.title, b.title);
      byMachine < 0 || (byMachine == 0 && (byTitle < 0 || (byTitle == 0 && collate(RowId(a), RowId(b)) <= 0)))
  }

  /** The rows stand in that order, each titled as in the grouped list, and none under a project. */
  lemma FlatOrder(census: seq<CensusRow>, hubs: seq<HubSessions>, collate: Collation, i: nat, j: nat)
    requires Consistent(collate)
    requires i < j < |Flattened(PreferredSources(census, hubs), Sessions(hubs), collate)|
    ensures var rows := Flattened(PreferredSources(census, hubs), Sessions(hubs), collate);
            MayPrecede(rows[i], rows[j], collate)
  {
    FlattenedWhole(census, hubs, collate);
    var rows := Flattened(PreferredSources(census, hubs), Sessions(hubs), collate);
    assert FlatLe(collate)(rows[i], rows[j]);
  }

  lemma FlatRowsSay(census: seq<CensusRow>, hubs: seq<HubSessions>, collate: Collation, i: nat)
    requires i < |Flattened(PreferredSources(census, hubs), Sessions(hubs), collate)|
    ensures var row := Flattened(PreferredSources(census, hubs), Sessions(hubs), collate)[i];
            && Titled(row, Sessions(hubs)) && row.project == [] && row.branch.None?
            && row.badge == (match row.source.session.program case Some(p) => p case None => row.source.session.provider)
  {
    var sources, named := PreferredSources(census, hubs), Sessions(hubs);
    var placed := Unplaced(sources, named);
    var k := SortedRow(placed, FlatLe(collate), i);
    UnplacedDrawn(sources, named, k);
    TitleIs(placed[k], named);
  }

  lemma OpenableAhead(rows: seq<Row>, collate: Collation)
    requires Ordered(rows, FlatLe(collate))
    ensures forall i, j :: 0 <= i < j < |rows| && Openable(rows[j].source) ==> Openable(rows[i].source)
  {
    forall i, j | 0 <= i < j < |rows| && Openable(rows[j].source) ensures Openable(rows[i].source) {
      assert FlatLe(collate)(rows[i], rows[j]);
    }
  }

  // ── Every session a screen can name ────────────────────────────────────────

  function AllRows(census: seq<CensusRow>, hubs: seq<HubSessions>, layout: Layout, collate: Collation): seq<Row> {
    var listing := UnifiedListing(PreferredSources(census, hubs), layout, Sessions(hubs));
    if |listing.groups| > 0 then Flat(listing.groups) else Flattened(PreferredSources(census, hubs), Sessions(hubs), collate)
  }

  method AllSessionRows(census: seq<CensusRow>, hubs: seq<HubSessions>, layout: Layout, collate: Collation) returns (rows: seq<Row>)
    ensures rows == AllRows(census, hubs, layout, collate)
  {
    var listing := BuildUnifiedListing(census, hubs, layout);
    if |listing.groups| > 0 {
      rows := Flat(listing.groups);
    } else {
      rows := FlattenRows(census, hubs, collate);
    }
  }

  /**
   * "Every session, seated or not" holds exactly when no desktop stands at all or every
   * listed session has a seat: one occupied desktop is enough to drop the unseated ones.
   */
  lemma AllRowsAreAllSessions(census: seq<CensusRow>, hubs: seq<HubSessions>, layout: Layout, collate: Collation)
    requires Consistent(collate) && Distinct(layout.desktopOrder)
    ensures var rows, ids := AllRows(census, hubs, layout, collate), Ids(Sources(census, hubs));
            && (forall id :: CountId(rows, id) == 1 ==> id in ids)
            && ((forall id :: id in ids ==> CountId(rows, id) == 1)
                <==> OccupiedOnly(layout.desktopOrder, layout) == [] || (forall id :: id in ids ==> SeatOf(layout, id).Some?))
  {
    var sources, named := PreferredSources(census, hubs), Sessions(hubs);
    var groups := UnifiedListing(sources, layout, named).groups;
    EverySessionOnce(census, hubs, layout);
    FlattenedWhole(census, hubs, collate);
    HeadingsFor(layout.desktopOrder, sources, layout, named);
    assert groups == [] <==> Headings(groups) == [];
  }

  /** A session with no seat is dropped as soon as an unrelated, unlisted one has a seat. */
  lemma UnseatedIsDropped(session: Session, elsewhere: Str, seat: Placement, collate: Collation)
    requires elsewhere != session.id
    ensures var hubs := [HubSessions([], [], true, [session])];
            AllRows([], hubs, Layout(map[elsewhere := seat], [seat.desktop]), collate) == []
  {
    var layout := Layout(map[elsewhere := seat], [seat.desktop]);
    var hubs := [HubSessions([], [], true, [session])];
    var sources, named := PreferredSources([], hubs), Sessions(hubs);
    var groups := UnifiedListing(sources, layout, named).groups;
    OneStands(sources, layout, named, elsewhere, seat);
    EverySessionOnce([], hubs, layout);
    OnlyId(session);
    forall id ensures CountId(Flat(groups), id) == 0 {
      assert id in Ids(Sources([], hubs)) ==> id == session.id;
    }
    NoCountNoRow(Flat(groups));
  }

  lemma OneStands(sources: seq<Source>, layout: Layout, named: seq<Session>, id: Str, seat: Placement)
    requires layout == Layout(map[id := seat], [seat.desktop])
    ensures UnifiedListing(sources, layout, named).groups != []
  {
    HeadingsFor(layout.desktopOrder, sources, layout, named);
    assert SitsAt(layout, id, seat.desktop);
    assert OccupiedOnly(layout.desktopOrder, layout) == [seat.desktop];
  }

  lemma OnlyId(session: Session)
    ensures Ids(Sources([], [HubSessions([], [], true, [session])])) == {session.id}
  {
    var hubs := [HubSessions([], [], true, [session])];
    var source := Hub([], [], true, session);
    assert HubSources(hubs[0], [session]) == [source];
    assert AllHubSources(hubs) == [source] && Sources([], hubs) == [source];
    assert Ids([source][..0]) == {};
  }

  lemma NoCountNoRow(rows: seq<Row>)
    requires forall id :: CountId(rows, id) == 0
    ensures rows == []
  {
    if rows != [] {
      assert CountId(rows, RowId(rows[0])) > 0;
    }
  }
}
