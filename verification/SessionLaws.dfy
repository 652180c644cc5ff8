/** What the unified list keeps, whatever the two routes and the sidebar report. */
module SessionLaws {
  import opened JsText
  import opened Lists
  import opened StableSort
  import opened SessionListing

  // ── The route a row is opened by ───────────────────────────────────────────

  /** The first source of a session, and the first that is openable or not. */
  function First(sources: seq<Source>, id: Str): Option<Source> {
    if sources == [] then None
    else if IdOf(sources[0]) == id then Some(sources[0])
    else First(sources[1..], id)
  }

  function FirstWith(sources: seq<Source>, id: Str, open: bool): Option<Source> {
    if sources == [] then None
    else if IdOf(sources[0]) == id && Openable(sources[0]) == open then Some(sources[0])
    else FirstWith(sources[1..], id, open)
  }

  /** The route to take: the first openable one, or the first of all if none opens. */
  function Best(sources: seq<Source>, id: Str): Option<Source> {
    if FirstWith(sources, id, true).Some? then FirstWith(sources, id, true) else FirstWith(sources, id, false)
  }

  function Picked(sources: seq<Source>, open: bool): seq<Source> {
    if sources == [] then []
    else (if Openable(sources[0]) == open then [sources[0]] else []) + Picked(sources[1..], open)
  }

  lemma {:induction false} InsertSource(x: Source, a: seq<Source>, b: seq<Source>)
    requires forall i :: 0 <= i < |a| ==> Openable(a[i])
    requires forall i :: 0 <= i < |b| ==> !Openable(b[i])
    ensures Insert(x, a + b, OpenableFirst) == if Openable(x) then [x] + a + b else a + ([x] + b)
    decreases |a|
  {
    if Openable(x) {
      assert [x] + (a + b) == [x] + a + b;
    } else if a == [] {
      assert a + b == b && a + ([x] + b) == [x] + b;
    } else {
      var y, rest := a[0], a[1..];
      assert a == [y] + rest && Openable(a[0]);
      Regroup(y, rest, b);
      InsertPast(x, y, rest + b);
      InsertSource(x, rest, b);
      Regroup(y, rest, [x] + b);
    }
  }

  lemma Regroup(y: Source, a: seq<Source>, b: seq<Source>)
    ensures [y] + (a + b) == ([y] + a) + b
  {
  }

  lemma InsertPast(x: Source, y: Source, s: seq<Source>)
    requires !Openable(x) && Openable(y)
    ensures Insert(x, [y] + s, OpenableFirst) == [y] + Insert(x, s, OpenableFirst)
  {
    assert ([y] + s)[1..] == s;
  }

  lemma {:induction false} PickedAlike(sources: seq<Source>, open: bool)
    ensures forall i :: 0 <= i < |Picked(sources, open)| ==> Openable(Picked(sources, open)[i]) == open
  {
    if sources != [] {
      PickedAlike(sources[1..], open);
    }
  }

  /** The preferred order is the openable sources, then the others, each as they came. */
  lemma {:induction false} PreferredSplits(sources: seq<Source>)
    ensures SortBy(sources, OpenableFirst) == Picked(sources, true) + Picked(sources, false)
  {
    if sources != [] {
      var rest := sources[1..];
      PreferredSplits(rest);
      PickedAlike(rest, true);
      PickedAlike(rest, false);
      InsertSource(sources[0], Picked(rest, true), Picked(rest, false));
    }
  }

  lemma {:induction false} FirstConcat(a: seq<Source>, b: seq<Source>, id: Str)
    ensures First(a + b, id) == if First(a, id).Some? then First(a, id) else First(b, id)
  {
    if a == [] {
      assert a + b == b;
    } else {
      assert (a + b)[1..] == a[1..] + b;
      FirstConcat(a[1..], b, id);
    }
  }

  lemma {:induction false} FirstPicked(sources: seq<Source>, open: bool, id: Str)
    ensures First(Picked(sources, open), id) == FirstWith(sources, id, open)
  {
    if sources != [] {
      FirstPicked(sources[1..], open, id);
      if Openable(sources[0]) == open {
        assert Picked(sources, open)[1..] == Picked(sources[1..], open);
      } else {
        assert Picked(sources, open) == Picked(sources[1..], open);
      }
    }
  }

  lemma PreferredFirst(sources: seq<Source>, id: Str)
    ensures First(SortBy(sources, OpenableFirst), id) == Best(sources, id)
  {
    PreferredSplits(sources);
    FirstConcat(Picked(sources, true), Picked(sources, false), id);
    FirstPicked(sources, true, id);
    FirstPicked(sources, false, id);
  }

  lemma {:induction false} FirstWithTells(sources: seq<Source>, id: Str, open: bool) returns (k: nat)
    ensures FirstWith(sources, id, open).Some? ==>
              && k < |sources| && FirstWith(sources, id, open).value == sources[k]
              && IdOf(sources[k]) == id && Openable(sources[k]) == open
    ensures FirstWith(sources, id, open).None? ==> k == |sources|
    ensures forall j :: 0 <= j < k <= |sources| ==> !(IdOf(sources[j]) == id && Openable(sources[j]) == open)
  {
    if sources == [] || (IdOf(sources[0]) == id && Openable(sources[0]) == open) {
      k := 0;
    } else {
      k := FirstWithTells(sources[1..], id, open);
      k := k + 1;
      assert forall j :: 1 <= j < k <= |sources| ==> sources[j] == sources[1..][j - 1];
    }
  }

  // ── Ids ────────────────────────────────────────────────────────────────────

  lemma {:induction false} IdsAre(sources: seq<Source>, id: Str)
    ensures id in Ids(sources) <==> exists k :: 0 <= k < |sources| && IdOf(sources[k]) == id
  {
    if sources != [] {
      IdsAre(sources[..|sources| - 1], id);
      assert forall k :: 0 <= k < |sources| - 1 ==> sources[..|sources| - 1][k] == sources[k];
    }
  }

  lemma SortKeepsIds(sources: seq<Source>)
    ensures Ids(SortBy(sources, OpenableFirst)) == Ids(sources)
  {
    var sorted := SortBy(sources, OpenableFirst);
    SortPermutes(sources, OpenableFirst);
    forall id ensures id in Ids(sorted) <==> id in Ids(sources) {
      IdsAre(sorted, id);
      IdsAre(sources, id);
      forall k | 0 <= k < |sorted| ensures sorted[k] in sources { assert sorted[k] in multiset(sorted); }
      forall k | 0 <= k < |sources| ensures sources[k] in sorted { assert sources[k] in multiset(sources); }
    }
  }

  lemma FirstLast(sources: seq<Source>, id: Str)
    requires sources != []
    ensures var rest, last := sources[..|sources| - 1], sources[|sources| - 1];
            First(sources, id) == if First(rest, id).Some? then First(rest, id)
                                  else if IdOf(last) == id then Some(last) else None
  {
    var rest, last := sources[..|sources| - 1], sources[|sources| - 1];
    assert sources == rest + [last];
    FirstConcat(rest, [last], id);
  }

  lemma {:induction false} FirstKnows(sources: seq<Source>, id: Str)
    ensures First(sources, id).Some? <==> id in Ids(sources)
    ensures First(sources, id).Some? ==> IdOf(First(sources, id).value) == id
  {
    if sources != [] {
      FirstLast(sources, id);
      FirstKnows(sources[..|sources| - 1], id);
    }
  }

  // ── Every session once ─────────────────────────────────────────────────────

  function CountId(rows: seq<Row>, id: Str): nat {
    if rows == [] then 0 else (if RowId(rows[0]) == id then 1 else 0) + CountId(rows[1..], id)
  }

  lemma {:induction false} CountConcat(a: seq<Row>, b: seq<Row>, id: Str)
    ensures CountId(a + b, id) == CountId(a, id) + CountId(b, id)
  {
    if a == [] {
      assert a + b == b;
    } else {
      assert (a + b)[1..] == a[1..] + b;
      CountConcat(a[1..], b, id);
    }
  }

  lemma {:induction false} CountInsert(x: Row, rows: seq<Row>, le: (Row, Row) -> bool, id: Str)
    ensures CountId(Insert(x, rows, le), id) == CountId([x], id) + CountId(rows, id)
  {
    if rows == [] || le(x, rows[0]) {
      CountConcat([x], rows, id);
    } else {
      CountInsert(x, rows[1..], le, id);
      assert Insert(x, rows, le)[1..] == Insert(x, rows[1..], le);
    }
  }

  lemma {:induction false} CountSort(rows: seq<Row>, le: (Row, Row) -> bool, id: Str)
    ensures CountId(SortBy(rows, le), id) == CountId(rows, id)
  {
    if rows != [] {
      CountSort(rows[1..], le, id);
      CountInsert(rows[0], SortBy(rows[1..], le), le, id);
    }
  }

  lemma {:induction false} PlacedOnce(sources: seq<Source>, layout: Layout, named: seq<Session>, d: Str, id: Str)
    ensures CountId(Placed(sources, layout, named, d), id) == if id in Ids(sources) && SitsAt(layout, id, d) then 1 else 0
  {
    if sources != [] {
      var rest, last := sources[..|sources| - 1], sources[|sources| - 1];
      PlacedOnce(rest, layout, named, d, id);
      if IdOf(last) !in Ids(rest) && SitsAt(layout, IdOf(last), d) {
        var row := FromSource(last, layout.placements[IdOf(last)], LaptopName(named, IdOf(last)));
        CountConcat(Placed(rest, layout, named, d), [row], id);
      }
    }
  }

  /** All rows of a list, group by group. */
  function Flat(groups: seq<Group>): seq<Row> {
    if groups == [] then [] else Flat(groups[..|groups| - 1]) + groups[|groups| - 1].rows
  }

  predicate SitsIn(layout: Layout, id: Str, order: seq<Str>) {
    SeatOf(layout, id).Some? && layout.placements[id].desktop in order
  }

  lemma FlatStep(order: seq<Str>, sources: seq<Source>, layout: Layout, named: seq<Session>)
    requires order != []
    ensures Flat(GroupsFor(order, sources, layout, named))
         == Flat(GroupsFor(order[..|order| - 1], sources, layout, named))
            + SortBy(Placed(sources, layout, named, order[|order| - 1]), SeatLe)
  {
    var before := GroupsFor(order[..|order| - 1], sources, layout, named);
    var groups := GroupsFor(order, sources, layout, named);
    if groups != before {
      assert groups[..|groups| - 1] == before;
    }
  }

  /** How often a session is drawn: once for every time its desktop is named. */
  function Draws(ids: set<Str>, layout: Layout, order: seq<Str>, id: Str): nat {
    if id in ids && SeatOf(layout, id).Some? then multiset(order)[layout.placements[id].desktop] else 0
  }

  lemma DrawsStep(ids: set<Str>, layout: Layout, rest: seq<Str>, last: Str, id: Str)
    ensures Draws(ids, layout, rest + [last], id)
         == Draws(ids, layout, rest, id) + if id in ids && SitsAt(layout, id, last) then 1 else 0
  {
  }

  lemma {:induction false} GroupsCount(order: seq<Str>, sources: seq<Source>, layout: Layout, named: seq<Session>, id: Str)
    ensures CountId(Flat(GroupsFor(order, sources, layout, named)), id) == Draws(Ids(sources), layout, order, id)
    decreases |order|
  {
    if order != [] {
      var rest, last := order[..|order| - 1], order[|order| - 1];
      var rows := Placed(sources, layout, named, last);
      assert order == rest + [last];
      DrawsStep(Ids(sources), layout, rest, last, id);
      GroupsCount(rest, sources, layout, named, id);
      FlatStep(order, sources, layout, named);
      CountConcat(Flat(GroupsFor(rest, sources, layout, named)), SortBy(rows, SeatLe), id);
      CountSort(rows, SeatLe, id);
      PlacedOnce(sources, layout, named, last, id);
    }
  }

  lemma {:induction false} NamedOnce(order: seq<Str>, d: Str)
    requires Distinct(order)
    ensures multiset(order)[d] == if d in order then 1 else 0
  {
    if order != [] {
      var rest, last := order[..|order| - 1], order[|order| - 1];
      assert order == rest + [last] && last !in rest;
      NamedOnce(rest, d);
    }
  }

  // ── Rows and hidden together are the sessions ──────────────────────────────

  /** How many sessions sit on one of these desktops. */
  function Seated(sources: seq<Source>, layout: Layout, order: seq<Str>): nat {
    if sources == [] then 0
    else
      var rest, id := sources[..|sources| - 1], IdOf(sources[|sources| - 1]);
      Seated(rest, layout, order) + if id !in Ids(rest) && SitsIn(layout, id, order) then 1 else 0
  }

  lemma {:induction false} SeatedStep(sources: seq<Source>, layout: Layout, named: seq<Session>, order: seq<Str>, d: Str)
    requires d !in order
    ensures Seated(sources, layout, order + [d]) == Seated(sources, layout, order) + |Placed(sources, layout, named, d)|
  {
    if sources != [] {
      SeatedStep(sources[..|sources| - 1], layout, named, order, d);
    }
  }

  lemma {:induction false} FlatLength(order: seq<Str>, sources: seq<Source>, layout: Layout, named: seq<Session>)
    requires Distinct(order)
    ensures |Flat(GroupsFor(order, sources, layout, named))| == Seated(sources, layout, order)
    decreases |order|
  {
    if order == [] {
      NoneSeated(sources, layout);
    } else {
      var rest, last := order[..|order| - 1], order[|order| - 1];
      assert order == rest + [last] && last !in rest;
      FlatLength(rest, sources, layout, named);
      FlatStep(order, sources, layout, named);
      SeatedStep(sources, layout, named, rest, last);
    }
  }

  lemma {:induction false} NoneSeated(sources: seq<Source>, layout: Layout)
    ensures Seated(sources, layout, []) == 0
  {
    if sources != [] {
      NoneSeated(sources[..|sources| - 1], layout);
    }
  }

  lemma {:induction false} SeatedOrHidden(sources: seq<Source>, layout: Layout)
    ensures Seated(sources, layout, layout.desktopOrder) + Hidden(sources, layout) == |Ids(sources)|
  {
    if sources != [] {
      var rest, id := sources[..|sources| - 1], IdOf(sources[|sources| - 1]);
      SeatedOrHidden(rest, layout);
      if id in Ids(rest) {
        assert Ids(rest) + {id} == Ids(rest);
      }
    }
  }

  /**
   * Every session either route lists is in exactly one row, or has no seat and is
   * counted hidden once; nothing else is drawn.
   */
  lemma EverySessionOnce(census: seq<CensusRow>, hubs: seq<HubSessions>, layout: Layout)
    requires Distinct(layout.desktopOrder)
    ensures var listing := UnifiedListing(PreferredSources(census, hubs), layout, Sessions(hubs));
            var ids := Ids(Sources(census, hubs));
            && |Flat(listing.groups)| + listing.hidden == |ids|
            && forall id :: CountId(Flat(listing.groups), id) == if id in ids && SeatOf(layout, id).Some? then 1 else 0
  {
    var sources := PreferredSources(census, hubs);
    SortKeepsIds(Sources(census, hubs));
    FlatLength(layout.desktopOrder, sources, layout, Sessions(hubs));
    SeatedOrHidden(sources, layout);
    forall id ensures CountId(Flat(GroupsFor(layout.desktopOrder, sources, layout, Sessions(hubs))), id)
                   == if id in Ids(Sources(census, hubs)) && SeatOf(layout, id).Some? then 1 else 0 {
      GroupsCount(layout.desktopOrder, sources, layout, Sessions(hubs), id);
      if SeatOf(layout, id).Some? { NamedOnce(layout.desktopOrder, layout.placements[id].desktop); }
    }
  }

  /** Whatever the order names, a listed and seated session is drawn once for each time its desktop is named. */
  lemma DrawnAsOftenAsNamed(census: seq<CensusRow>, hubs: seq<HubSessions>, layout: Layout, id: Str)
    ensures CountId(Flat(UnifiedListing(PreferredSources(census, hubs), layout, Sessions(hubs)).groups), id)
         == Draws(Ids(Sources(census, hubs)), layout, layout.desktopOrder, id)
  {
    SortKeepsIds(Sources(census, hubs));
    GroupsCount(layout.desktopOrder, PreferredSources(census, hubs), layout, Sessions(hubs), id);
  }

  /** A desktop named twice in the order is drawn twice, rows and all. */
  lemma RepeatedDesktop(session: Session, seat: Placement)
    ensures var layout := Layout(map[session.id := seat], [seat.desktop, seat.desktop]);
            var hubs := [HubSessions([], [], true, [session])];
            var listing := UnifiedListing(PreferredSources([], hubs), layout, Sessions(hubs));
            |Flat(listing.groups)| + listing.hidden == 2
  {
    var layout := Layout(map[session.id := seat], [seat.desktop, seat.desktop]);
    var source := Hub([], [], true, session);
    var hubs := [HubSessions([], [], true, [session])];
    assert HubSources(hubs[0], [session]) == [source];
    assert AllHubSources(hubs) == [source] && Sources([], hubs) == [source];
    assert SortBy([source], OpenableFirst) == [source];
    var named := Sessions(hubs);
    assert Ids([source][..0]) == {};
    assert |Placed([source], layout, named, seat.desktop)| == 1 by {
      assert Placed([source][..0], layout, named, seat.desktop) == [];
    }
    assert Hidden([source], layout) == 0;
    var order: seq<Str> := layout.desktopOrder;
    assert order[..1] == [seat.desktop];
    FlatStep(order, [source], layout, named);
    FlatStep(order[..1], [source], layout, named);
  }

  // ── What each row says, and where it stands ────────────────────────────────

  /** A row of desktop `d`: drawn from its session's first source, its seat and its laptop's name. */
  predicate Drawn(row: Row, sources: seq<Source>, layout: Layout, named: seq<Session>, d: Str) {
    && First(sources, RowId(row)) == Some(row.source)
    && SitsAt(layout, RowId(row), d)
    && row == FromSource(row.source, layout.placements[RowId(row)], LaptopName(named, RowId(row)))
  }

  lemma {:induction false} PlacedDrawn(sources: seq<Source>, layout: Layout, named: seq<Session>, d: Str, i: nat)
    requires i < |Placed(sources, layout, named, d)|
    ensures Drawn(Placed(sources, layout, named, d)[i], sources, layout, named, d)
  {
    var rest, last := sources[..|sources| - 1], sources[|sources| - 1];
    var before, row := Placed(rest, layout, named, d), Placed(sources, layout, named, d)[i];
    FirstLast(sources, RowId(row));
    FirstKnows(rest, RowId(row));
    if i < |before| {
      PlacedDrawn(rest, layout, named, d, i);
      assert row == before[i];
    }
  }

  /** A group is one desktop's rows, sorted by seat. */
  predicate Groups(group: Group, sources: seq<Source>, layout: Layout, named: seq<Session>) {
    group.rows == SortBy(Placed(sources, layout, named, group.desktop), SeatLe)
  }

  lemma {:induction false} GroupAt(order: seq<Str>, sources: seq<Source>, layout: Layout, named: seq<Session>, g: nat)
    requires g < |GroupsFor(order, sources, layout, named)|
    ensures Groups(GroupsFor(order, sources, layout, named)[g], sources, layout, named)
    decreases |order|
  {
    var before := GroupsFor(order[..|order| - 1], sources, layout, named);
    if g < |before| {
      GroupAt(order[..|order| - 1], sources, layout, named, g);
      assert GroupsFor(order, sources, layout, named)[g] == before[g];
    }
  }

  lemma SortedRow(rows: seq<Row>, le: (Row, Row) -> bool, i: nat) returns (k: nat)
    requires i < |rows|
    ensures k < |rows| && SortBy(rows, le)[i] == rows[k]
  {
    SortPermutes(rows, le);
    assert SortBy(rows, le)[i] in multiset(rows);
    k :| 0 <= k < |rows| && rows[k] == SortBy(rows, le)[i];
  }

  /** The best route to a session: openable if any is, SSH if one is as good, and the first of those. */
  predicate BestRoute(source: Source, sources: seq<Source>) {
    exists k :: 0 <= k < |sources| && sources[k] == source && Beats(k, sources)
  }

  predicate Beats(k: nat, sources: seq<Source>)
    requires k < |sources|
  {
    && (forall j :: 0 <= j < |sources| && IdOf(sources[j]) == IdOf(sources[k]) && Openable(sources[j]) ==> Openable(sources[k]))
    && (forall j :: 0 <= j < |sources| && IdOf(sources[j]) == IdOf(sources[k]) && Openable(sources[j]) == Openable(sources[k]) ==> k <= j)
  }

  lemma BestIsBest(sources: seq<Source>, id: Str)
    requires Best(sources, id).Some?
    ensures BestRoute(Best(sources, id).value, sources)
  {
    var k := FirstWithTells(sources, id, true);
    var m := FirstWithTells(sources, id, false);
    if k < |sources| {
      assert Beats(k, sources);
    } else {
      assert Beats(m, sources);
    }
  }

  lemma {:induction false} SshSourcesAre(census: seq<CensusRow>, i: nat)
    requires i < |SshSources(census)|
    ensures SshSources(census)[i].Ssh?
  {
    if i > 0 {
      SshSourcesAre(census[1..], i - 1);
    }
  }

  lemma {:induction false} HubSourcesAre(hub: HubSessions, sessions: seq<Session>, i: nat)
    requires i < |sessions|
    ensures HubSources(hub, sessions)[i] == Hub(hub.hubId, hub.hubLabel, hub.reachable, sessions[i])
  {
    if i > 0 {
      HubSourcesAre(hub, sessions[1..], i - 1);
    }
  }

  lemma {:induction false} AllHubSourcesAre(hubs: seq<HubSessions>, i: nat)
    requires i < |AllHubSources(hubs)|
    ensures AllHubSources(hubs)[i].Hub?
  {
    var n := |hubs[0].sessions|;
    if i < n {
      HubSourcesAre(hubs[0], hubs[0].sessions, i);
    } else {
      AllHubSourcesAre(hubs[1..], i - n);
    }
  }

  /** A session is opened through a computer only where no SSH route to it is as good. */
  lemma SshOnTies(census: seq<CensusRow>, hubs: seq<HubSessions>, k: nat, j: nat)
    requires k < |Sources(census, hubs)| && Beats(k, Sources(census, hubs)) && Sources(census, hubs)[k].Hub?
    requires j < |Sources(census, hubs)| && Sources(census, hubs)[j].Ssh?
    requires IdOf(Sources(census, hubs)[j]) == IdOf(Sources(census, hubs)[k])
    ensures Openable(Sources(census, hubs)[k]) && !Openable(Sources(census, hubs)[j])
  {
    var n := |SshSources(census)|;
    if k < n { SshSourcesAre(census, k); }
    if j >= n { AllHubSourcesAre(hubs, j - n); }
  }

  /**
   * Each row is its session's best route, drawn at its own seat under its own desktop,
   * and a desktop's rows follow the sidebar.
   */
  lemma RowsAreFaithful(census: seq<CensusRow>, hubs: seq<HubSessions>, layout: Layout, g: nat)
    requires g < |UnifiedListing(PreferredSources(census, hubs), layout, Sessions(hubs)).groups|
    ensures var group := UnifiedListing(PreferredSources(census, hubs), layout, Sessions(hubs)).groups[g];
            && Ordered(group.rows, SeatLe)
            && forall i :: 0 <= i < |group.rows| ==>
                 && BestRoute(group.rows[i].source, Sources(census, hubs))
                 && SitsAt(layout, RowId(group.rows[i]), group.desktop)
                 && group.rows[i] == FromSource(group.rows[i].source, layout.placements[RowId(group.rows[i])],
                                                LaptopName(Sessions(hubs), RowId(group.rows[i])))
  {
    var sources := PreferredSources(census, hubs);
    var group := UnifiedListing(sources, layout, Sessions(hubs)).groups[g];
    GroupAt(layout.desktopOrder, sources, layout, Sessions(hubs), g);
    var placed := Placed(sources, layout, Sessions(hubs), group.desktop);
    SortOrders(placed, SeatLe);
    forall i | 0 <= i < |group.rows|
      ensures BestRoute(group.rows[i].source, Sources(census, hubs))
      ensures Drawn(group.rows[i], sources, layout, Sessions(hubs), group.desktop)
    {
      var k := SortedRow(placed, SeatLe, i);
      PlacedDrawn(sources, layout, Sessions(hubs), group.desktop, k);
      PreferredFirst(Sources(census, hubs), RowId(placed[k]));
      BestIsBest(Sources(census, hubs), RowId(placed[k]));
    }
  }

  // ── What a row says ────────────────────────────────────────────────────────

  /** A laptop names this session, with more than white space. */
  predicate NamedBy(session: Session, id: Str) {
    session.id == id && session.name.Some? && !Blank(session.name.value)
  }

  predicate FirstNamed(sessions: seq<Session>, id: Str, k: int) {
    0 <= k < |sessions| && NamedBy(sessions[k], id) && forall j :: 0 <= j < k ==> !NamedBy(sessions[j], id)
  }

  lemma NameMeans(session: Session)
    ensures NameOf(session) != [] <==> session.name.Some? && !Blank(session.name.value)
    ensures NameOf(session) != [] ==> NameOf(session) == Trim(session.name.value)
  {
    if session.name.Some? { BlankIsTrimmedAway(session.name.value); }
  }

  /** The laptops' name is the first one in listing order that is not blank, trimmed. */
  lemma {:induction false} LaptopNameFirst(sessions: seq<Session>, id: Str) returns (k: int)
    ensures match LaptopName(sessions, id)
            case None => forall j :: 0 <= j < |sessions| ==> !NamedBy(sessions[j], id)
            case Some(name) => FirstNamed(sessions, id, k) && name == Trim(sessions[k].name.value)
  {
    k := 0;
    if sessions != [] {
      NameMeans(sessions[0]);
      if !NamedBy(sessions[0], id) {
        var j := LaptopNameFirst(sessions[1..], id);
        k := j + 1;
        assert sessions == [sessions[0]] + sessions[1..];
      }
    }
  }

  /** The laptops' name wins over the row's own; without any, the id stands in. */
  ghost predicate Titled(row: Row, sessions: seq<Session>) {
    if exists k :: FirstNamed(sessions, RowId(row), k) then
      exists k :: FirstNamed(sessions, RowId(row), k) && row.title == Trim(sessions[k].name.value)
    else if NamedBy(row.source.session, RowId(row)) then row.title == Trim(row.source.session.name.value)
    else row.title == RowId(row)
  }

  lemma TitleIs(row: Row, sessions: seq<Session>)
    requires row.title == TitleOf(row.source.session, LaptopName(sessions, RowId(row)))
    ensures Titled(row, sessions)
  {
    var k := LaptopNameFirst(sessions, RowId(row));
    NameMeans(row.source.session);
    if LaptopName(sessions, RowId(row)).Some? {
      assert FirstNamed(sessions, RowId(row), k);
      BlankIsTrimmedAway(sessions[k].name.value);
    }
  }

  /** Each row is titled so, badged with its program or else its provider, and drawn at its seat. */
  lemma RowsSay(census: seq<CensusRow>, hubs: seq<HubSessions>, layout: Layout, g: nat, i: nat)
    requires var groups := UnifiedListing(PreferredSources(census, hubs), layout, Sessions(hubs)).groups;
             g < |groups| && i < |groups[g].rows|
    ensures var row := UnifiedListing(PreferredSources(census, hubs), layout, Sessions(hubs)).groups[g].rows[i];
            && Titled(row, Sessions(hubs)) && RowId(row) in layout.placements
            && row.badge == (match row.source.session.program case Some(p) => p case None => row.source.session.provider)
            && row.project == layout.placements[RowId(row)].project
            && row.branch == layout.placements[RowId(row)].branch
            && row.order == layout.placements[RowId(row)].order
  {
    RowsAreFaithful(census, hubs, layout, g);
    TitleIs(UnifiedListing(PreferredSources(census, hubs), layout, Sessions(hubs)).groups[g].rows[i], Sessions(hubs));
  }

  // ── Headings ───────────────────────────────────────────────────────────────

  /** Some session has its seat on the desktop, listed or not. */
  predicate Occupied(layout: Layout, d: Str) {
    exists id :: id in layout.placements && SitsAt(layout, id, d)
  }

  function OccupiedOnly(order: seq<Str>, layout: Layout): seq<Str> {
    if order == [] then []
    else OccupiedOnly(order[..|order| - 1], layout) + if Occupied(layout, order[|order| - 1]) then [order[|order| - 1]] else []
  }

  function Headings(groups: seq<Group>): seq<Str> {
    if groups == [] then [] else Headings(groups[..|groups| - 1]) + [groups[|groups| - 1].desktop]
  }

  lemma StandsIffOccupied(sources: seq<Source>, layout: Layout, named: seq<Session>, d: Str)
    ensures (Placed(sources, layout, named, d) != [] || Remembered(layout, Ids(sources), d)) <==> Occupied(layout, d)
  {
    var rows := Placed(sources, layout, named, d);
    if rows != [] {
      PlacedDrawn(sources, layout, named, d, 0);
    } else if Occupied(layout, d) {
      var id :| id in layout.placements && SitsAt(layout, id, d);
      PlacedOnce(sources, layout, named, d, id);
    }
  }

  lemma {:induction false} HeadingsFor(order: seq<Str>, sources: seq<Source>, layout: Layout, named: seq<Session>)
    ensures Headings(GroupsFor(order, sources, layout, named)) == OccupiedOnly(order, layout)
    decreases |order|
  {
    if order != [] {
      var rest := order[..|order| - 1];
      var before, groups := GroupsFor(rest, sources, layout, named), GroupsFor(order, sources, layout, named);
      HeadingsFor(rest, sources, layout, named);
      StandsIffOccupied(sources, layout, named, order[|order| - 1]);
      if |groups| > |before| {
        assert groups[..|groups| - 1] == before;
      }
    }
  }

  /**
   * The headings are the desktops someone sits on, in sidebar order. The routes have
   * no say in them: a computer switched off takes its rows away, not the headings.
   */
  lemma HeadingsStay(census: seq<CensusRow>, hubs: seq<HubSessions>, census': seq<CensusRow>, hubs': seq<HubSessions>, layout: Layout)
    ensures var groups := UnifiedListing(PreferredSources(census, hubs), layout, Sessions(hubs)).groups;
            var groups' := UnifiedListing(PreferredSources(census', hubs'), layout, Sessions(hubs')).groups;
            Headings(groups) == Headings(groups') == OccupiedOnly(layout.desktopOrder, layout)
  {
    HeadingsFor(layout.desktopOrder, PreferredSources(census, hubs), layout, Sessions(hubs));
    HeadingsFor(layout.desktopOrder, PreferredSources(census', hubs'), layout, Sessions(hubs'));
  }
}
