/**
 * The unified session list: the sessions a phone sees over SSH and through
 * paired computers, put under the desktops the person made.
 */
module SessionListing {
  import opened JsText
  import opened StableSort

  // ── What the list is made from ─────────────────────────────────────────────

  datatype Session = Session(id: Str, name: Option<Str>, provider: Str, program: Option<Str>, ready: bool)

  datatype Source =
    | Ssh(serverId: Str, serverLabel: Str, reachable: bool, session: Session)
    | Hub(hubId: Str, hubLabel: Str, reachable: bool, session: Session)

  datatype CensusRow = CensusRow(serverId: Str, serverLabel: Str, reachable: bool, session: Session)

  datatype HubSessions = HubSessions(hubId: Str, hubLabel: Str, reachable: bool, sessions: seq<Session>)

  /** A session's seat in the sidebar. */
  datatype Placement = Placement(desktop: Str, project: Str, branch: Option<Str>, order: int)

  datatype Layout = Layout(placements: map<Str, Placement>, desktopOrder: seq<Str>)

  datatype Row = Row(title: Str, badge: Str, project: Str, branch: Option<Str>, order: int, source: Source)

  datatype Group = Group(desktop: Str, rows: seq<Row>)

  datatype Listing = Listing(groups: seq<Group>, hidden: nat)

  predicate Openable(source: Source) {
    source.reachable && source.session.ready
  }

  function IdOf(source: Source): Str { source.session.id }

  function RowId(row: Row): Str { row.source.session.id }

  // ── Sources, the better route first ────────────────────────────────────────

  function SshSources(census: seq<CensusRow>): seq<Source> {
    if census == [] then []
    else
      var row := census[0];
      [Ssh(row.serverId, row.serverLabel, row.reachable, row.session)] + SshSources(census[1..])
  }

  function HubSources(hub: HubSessions, sessions: seq<Session>): (r: seq<Source>)
    ensures |r| == |sessions|
  {
    if sessions == [] then []
    else [Hub(hub.hubId, hub.hubLabel, hub.reachable, sessions[0])] + HubSources(hub, sessions[1..])
  }

  function AllHubSources(hubs: seq<HubSessions>): seq<Source> {
    if hubs == [] then [] else HubSources(hubs[0], hubs[0].sessions) + AllHubSources(hubs[1..])
  }

  function Sources(census: seq<CensusRow>, hubs: seq<HubSessions>): seq<Source> {
    SshSources(census) + AllHubSources(hubs)
  }

  /** The directly reached sessions come first, one source for each, with its server's name and reach. */
  lemma {:induction false} SourceOfCensus(census: seq<CensusRow>, hubs: seq<HubSessions>, i: nat)
    requires i < |census|
    ensures |SshSources(census)| == |census|
    ensures var row := census[i];
            i < |Sources(census, hubs)|
            && Sources(census, hubs)[i] == Ssh(row.serverId, row.serverLabel, row.reachable, row.session)
  {
    SshLength(census);
    if i > 0 {
      SourceOfCensus(census[1..], hubs, i - 1);
      assert SshSources(census)[i] == SshSources(census[1..])[i - 1];
    }
  }

  lemma {:induction false} SshLength(census: seq<CensusRow>)
    ensures |SshSources(census)| == |census|
  {
    if census != [] { SshLength(census[1..]); }
  }

  /** Then each computer's sessions, in listing order, with its name and reach. */
  lemma {:induction false} SourceOfHub(census: seq<CensusRow>, hubs: seq<HubSessions>, h: nat, k: nat)
    requires h < |hubs| && k < |hubs[h].sessions|
    ensures var at := |census| + |Sessions(hubs[..h])| + k;
            at < |Sources(census, hubs)|
            && Sources(census, hubs)[at] == Hub(hubs[h].hubId, hubs[h].hubLabel, hubs[h].reachable, hubs[h].sessions[k])
  {
    SshLength(census);
    HubSourceAt(hubs, h, k);
  }

  lemma {:induction false} HubSourceAt(hubs: seq<HubSessions>, h: nat, k: nat)
    requires h < |hubs| && k < |hubs[h].sessions|
    ensures var at := |Sessions(hubs[..h])| + k;
            at < |AllHubSources(hubs)|
            && AllHubSources(hubs)[at] == Hub(hubs[h].hubId, hubs[h].hubLabel, hubs[h].reachable, hubs[h].sessions[k])
  {
    if h == 0 {
      OneHubSource(hubs[0], hubs[0].sessions, k);
    } else {
      HubSourceAt(hubs[1..], h - 1, k);
      assert hubs[..h][1..] == hubs[1..][..h - 1];
    }
  }

  lemma {:induction false} OneHubSource(hub: HubSessions, sessions: seq<Session>, k: nat)
    requires k < |sessions|
    ensures HubSources(hub, sessions)[k] == Hub(hub.hubId, hub.hubLabel, hub.reachable, sessions[k])
  {
    if k > 0 { OneHubSource(hub, sessions[1..], k - 1); }
  }

  predicate OpenableFirst(a: Source, b: Source) {
    Openable(a) || !Openable(b)
  }

  function PreferredSources(census: seq<CensusRow>, hubs: seq<HubSessions>): seq<Source> {
    SortBy(Sources(census, hubs), OpenableFirst)
  }

  // ── Titles ─────────────────────────────────────────────────────────────────

  function Sessions(hubs: seq<HubSessions>): seq<Session> {
    if hubs == [] then [] else hubs[0].sessions + Sessions(hubs[1..])
  }

  function NameOf(session: Session): Str {
    if session.name.Some? then Trim(session.name.value) else []
  }

  /** The name the laptops give a session: the first that is not blank. */
  function LaptopName(sessions: seq<Session>, id: Str): Option<Str> {
    if sessions == [] then None
    else if sessions[0].id == id && NameOf(sessions[0]) != [] then Some(NameOf(sessions[0]))
    else LaptopName(sessions[1..], id)
  }

  function TitleOf(session: Session, laptop: Option<Str>): Str {
    var name := if laptop.Some? then laptop.value else NameOf(session);
    if name != [] then name else session.id
  }

  function FromSource(source: Source, seat: Placement, laptop: Option<Str>): Row {
    var session := source.session;
    Row(TitleOf(session, laptop), if session.program.Some? then session.program.value else session.provider,
        seat.project, seat.branch, seat.order, source)
  }

  /** The titles map, filled by going over the computers in listing order. */
  method LaptopTitles(hubs: seq<HubSessions>) returns (titles: map<Str, Str>)
    ensures forall id :: id in titles <==> LaptopName(Sessions(hubs), id).Some?
    ensures forall id :: id in titles ==> LaptopName(Sessions(hubs), id) == Some(titles[id])
  {
    titles := map[];
    ghost var done: seq<Session> := [];
    for h := 0 to |hubs|
      invariant done + Sessions(hubs[h..]) == Sessions(hubs)
      invariant TitlesOf(titles, done)
    {
      titles := AddTitles(titles, hubs[h].sessions, done);
      done := done + hubs[h].sessions;
      assert hubs[h..][1..] == hubs[h + 1..];
    }
    assert done == Sessions(hubs);
    assert TitlesOf(titles, Sessions(hubs));
  }

  method AddTitles(before: map<Str, Str>, sessions: seq<Session>, ghost done: seq<Session>) returns (titles: map<Str, Str>)
    requires TitlesOf(before, done)
    ensures TitlesOf(titles, done + sessions)
  {
    titles := before;
    assert done + sessions[..0] == done;
    for i := 0 to |sessions|
      invariant TitlesOf(titles, done + sessions[..i])
    {
      var session := sessions[i];
      TitlesGrow(titles, done + sessions[..i], session);
      assert done + sessions[..i + 1] == done + sessions[..i] + [session];
      var name := NameOf(session);
      if name != [] && session.id !in titles {
        titles := titles[session.id := name];
      }
    }
    assert sessions[..|sessions|] == sessions;
  }

  ghost predicate TitlesOf(titles: map<Str, Str>, done: seq<Session>) {
    forall id :: LaptopName(done, id) == if id in titles then Some(titles[id]) else None
  }

  lemma TitlesGrow(titles: map<Str, Str>, done: seq<Session>, session: Session)
    requires TitlesOf(titles, done)
    ensures TitlesOf(if NameOf(session) != [] && session.id !in titles then titles[session.id := NameOf(session)] else titles,
                     done + [session])
  {
    forall id ensures LaptopName(done + [session], id) ==
                      if LaptopName(done, id).Some? then LaptopName(done, id) else LaptopName([session], id) {
      LaptopNameConcat(done, [session], id);
    }
    assert forall id :: LaptopName([session], id) ==
                        if session.id == id && NameOf(session) != [] then Some(NameOf(session)) else None;
  }

  lemma {:induction false} LaptopNameConcat(a: seq<Session>, b: seq<Session>, id: Str)
    ensures LaptopName(a + b, id) == if LaptopName(a, id).Some? then LaptopName(a, id) else LaptopName(b, id)
  {
    if a == [] {
      assert a + b == b;
    } else {
      assert (a + b)[1..] == a[1..] + b;
      LaptopNameConcat(a[1..], b, id);
    }
  }

  // ── What the list has to be ────────────────────────────────────────────────

  function Ids(sources: seq<Source>): set<Str> {
    if sources == [] then {} else Ids(sources[..|sources| - 1]) + {IdOf(sources[|sources| - 1])}
  }

  /** The seat a session is drawn at: one on a desktop that still stands. */
  function SeatOf(layout: Layout, id: Str): Option<Placement> {
    if id in layout.placements && layout.placements[id].desktop in layout.desktopOrder
    then Some(layout.placements[id]) else None
  }

  predicate SitsAt(layout: Layout, id: Str, desktop: Str) {
    SeatOf(layout, id).Some? && layout.placements[id].desktop == desktop
  }

  /** The rows of one desktop: the first source of each session seated there. */
  function Placed(sources: seq<Source>, layout: Layout, named: seq<Session>, desktop: Str): seq<Row> {
    if sources == [] then []
    else
      var rest, last := sources[..|sources| - 1], sources[|sources| - 1];
      var rows := Placed(rest, layout, named, desktop);
      if IdOf(last) in Ids(rest) || !SitsAt(layout, IdOf(last), desktop) then rows
      else rows + [FromSource(last, layout.placements[IdOf(last)], LaptopName(named, IdOf(last)))]
  }

  /** How many sessions have no seat to be drawn at. */
  function Hidden(sources: seq<Source>, layout: Layout): nat {
    if sources == [] then 0
    else
      var rest, id := sources[..|sources| - 1], IdOf(sources[|sources| - 1]);
      Hidden(rest, layout) + if id in Ids(rest) || SeatOf(layout, id).Some? then 0 else 1
  }

  predicate SeatLe(a: Row, b: Row) { a.order <= b.order }

  /** A desktop some session not listed by either route is remembered on. */
  predicate Remembered(layout: Layout, ids: set<Str>, desktop: Str) {
    exists id :: id in layout.placements && id !in ids && SitsAt(layout, id, desktop)
  }

  function GroupsFor(order: seq<Str>, sources: seq<Source>, layout: Layout, named: seq<Session>): seq<Group> {
    if order == [] then []
    else
      var groups := GroupsFor(order[..|order| - 1], sources, layout, named);
      var desktop := order[|order| - 1];
      var rows := Placed(sources, layout, named, desktop);
      if rows == [] && !Remembered(layout, Ids(sources), desktop) then groups
      else groups + [Group(desktop, SortBy(rows, SeatLe))]
  }

  function UnifiedListing(sources: seq<Source>, layout: Layout, named: seq<Session>): Listing {
    Listing(GroupsFor(layout.desktopOrder, sources, layout, named), Hidden(sources, layout))
  }

  // ── The builder ────────────────────────────────────────────────────────────

  lemma NextGroup(order: seq<Str>, k: nat, sources: seq<Source>, layout: Layout, named: seq<Session>, rows: seq<Row>)
    requires k < |order| && rows == Placed(sources, layout, named, order[k])
    ensures GroupsFor(order[..k + 1], sources, layout, named) == GroupsFor(order[..k], sources, layout, named)
              + if rows == [] && !Remembered(layout, Ids(sources), order[k]) then [] else [Group(order[k], SortBy(rows, SeatLe))]
  {
    assert order[..k + 1][..k] == order[..k];
  }

  method BuildUnifiedListing(census: seq<CensusRow>, hubs: seq<HubSessions>, layout: Layout) returns (listing: Listing)
    ensures listing == UnifiedListing(PreferredSources(census, hubs), layout, Sessions(hubs))
  {
    var titles := LaptopTitles(hubs);
    var sources := PreferredSources(census, hubs);
    ghost var named := Sessions(hubs);
    var byDesktop, seen, hidden := PlaceAll(sources, layout, titles, named);
    var remembered := RememberedDesktops(layout, seen);
    var groups: seq<Group> := [];
    for k := 0 to |layout.desktopOrder|
      invariant groups == GroupsFor(layout.desktopOrder[..k], sources, layout, named)
    {
      var desktop := layout.desktopOrder[k];
      var rows := if desktop in byDesktop then byDesktop[desktop] else [];
      NextGroup(layout.desktopOrder, k, sources, layout, named, rows);
      if |rows| != 0 || desktop in remembered {
        groups := groups + [Group(desktop, SortBy(rows, SeatLe))];
      }
    }
    assert layout.desktopOrder[..|layout.desktopOrder|] == layout.desktopOrder;
    listing := Listing(groups, hidden);
  }

  /** What has been put on each desktop. */
  ghost predicate Holds(byDesktop: map<Str, seq<Row>>, sources: seq<Source>, layout: Layout, named: seq<Session>) {
    forall d :: Placed(sources, layout, named, d) == if d in byDesktop then byDesktop[d] else []
  }

  method PlaceAll(sources: seq<Source>, layout: Layout, titles: map<Str, Str>, ghost named: seq<Session>)
    returns (byDesktop: map<Str, seq<Row>>, seen: set<Str>, hidden: nat)
    requires TitlesOf(titles, named)
    ensures Holds(byDesktop, sources, layout, named)
    ensures seen == Ids(sources) && hidden == Hidden(sources, layout)
  {
    byDesktop, seen, hidden := map[], {}, 0;
    for i := 0 to |sources|
      invariant Holds(byDesktop, sources[..i], layout, named)
      invariant seen == Ids(sources[..i]) && hidden == Hidden(sources[..i], layout)
    {
      var source, id := sources[i], IdOf(sources[i]);
      assert sources[..i + 1][..i] == sources[..i];
      if id !in seen {
        seen := seen + {id};
        if id !in layout.placements || layout.placements[id].desktop !in layout.desktopOrder {
          hidden := hidden + 1;
        } else {
          var seat := layout.placements[id];
          var row := FromSource(source, seat, if id in titles then Some(titles[id]) else None);
          assert LaptopName(named, id) == if id in titles then Some(titles[id]) else None;
          byDesktop := byDesktop[seat.desktop := (if seat.desktop in byDesktop then byDesktop[seat.desktop] else []) + [row]];
        }
      }
    }
    assert sources[..|sources|] == sources;
  }

  /** `Object.entries` in whatever order: the set does not depend on it. */
  method RememberedDesktops(layout: Layout, seen: set<Str>) returns (remembered: set<Str>)
    ensures forall d :: d in remembered <==> Remembered(layout, seen, d)
  {
    remembered := {};
    var left := layout.placements.Keys;
    while left != {}
      invariant left <= layout.placements.Keys
      invariant forall d :: d in remembered <==>
                  exists id :: id in layout.placements && id !in left && id !in seen && SitsAt(layout, id, d)
      decreases |left|
    {
      var id :| id in left;
      var seat := layout.placements[id];
      if id !in seen && seat.desktop in layout.desktopOrder {
        assert SitsAt(layout, id, seat.desktop);
        remembered := remembered + {seat.desktop};
      }
      left := left - {id};
    }
  }
}
