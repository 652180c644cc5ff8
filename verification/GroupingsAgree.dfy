/** The two groupings of one computer's sessions say the same. */
module GroupingsAgree {
  import opened JsText
  import opened StableSort
  import opened SessionListing
  import opened SessionLaws
  import opened HubGrouping
  import opened SharedSeats
  import SessionFlat

  // ── One computer's sources, each session once ──────────────────────────────

  function SessionsFrom(sources: seq<Source>): seq<Session> {
    if sources == [] then [] else SessionsFrom(sources[..|sources| - 1]) + [sources[|sources| - 1].session]
  }

  lemma {:induction false} FromConcat(a: seq<Source>, b: seq<Source>)
    ensures SessionsFrom(a + b) == SessionsFrom(a) + SessionsFrom(b)
    decreases |b|
  {
    if b == [] {
      assert a + b == a;
    } else {
      assert (a + b)[..|a + b| - 1] == a + b[..|b| - 1];
      FromConcat(a, b[..|b| - 1]);
    }
  }

  lemma FromHead(source: Source, sources: seq<Source>)
    ensures SessionsFrom([source] + sources) == [source.session] + SessionsFrom(sources)
  {
    FromConcat([source], sources);
    assert SessionsFrom([source]) == [source.session] by { assert SessionsFrom([source][..0]) == []; }
  }

  lemma {:induction false} FromInsert(x: Source, sources: seq<Source>)
    ensures multiset(SessionsFrom(Insert(x, sources, OpenableFirst))) == multiset{x.session} + multiset(SessionsFrom(sources))
  {
    FromHead(x, sources);
    if sources != [] && !OpenableFirst(x, sources[0]) {
      FromInsert(x, sources[1..]);
      FromHead(sources[0], Insert(x, sources[1..], OpenableFirst));
      FromHead(sources[0], sources[1..]);
      assert sources == [sources[0]] + sources[1..];
    }
  }

  lemma {:induction false} FromSort(sources: seq<Source>)
    ensures multiset(SessionsFrom(SortBy(sources, OpenableFirst))) == multiset(SessionsFrom(sources))
  {
    if sources != [] {
      FromSort(sources[1..]);
      FromInsert(sources[0], SortBy(sources[1..], OpenableFirst));
      FromHead(sources[0], sources[1..]);
      assert sources == [sources[0]] + sources[1..];
    }
  }

  lemma {:induction false} FromHub(hub: HubSessions, sessions: seq<Session>)
    ensures SessionsFrom(HubSources(hub, sessions)) == sessions
  {
    if sessions != [] {
      FromHub(hub, sessions[1..]);
      FromHead(Hub(hub.hubId, hub.hubLabel, hub.reachable, sessions[0]), HubSources(hub, sessions[1..]));
    }
  }

  lemma OneHubSources(hub: HubSessions)
    ensures Sources([], [hub]) == HubSources(hub, hub.sessions) && Sessions([hub]) == hub.sessions
  {
    assert AllHubSources([hub][1..]) == [] && Sessions([hub][1..]) == [];
  }

  /** No session twice: as many ids as sources. */
  predicate Once(sources: seq<Source>) { |Ids(sources)| == |sources| }

  lemma {:induction false} IdsAtMost(sources: seq<Source>)
    ensures |Ids(sources)| <= |sources|
  {
    if sources != [] {
      IdsAtMost(sources[..|sources| - 1]);
    }
  }

  lemma OnceStep(sources: seq<Source>)
    requires sources != [] && Once(sources)
    ensures Once(sources[..|sources| - 1]) && IdOf(sources[|sources| - 1]) !in Ids(sources[..|sources| - 1])
  {
    var rest, id := sources[..|sources| - 1], IdOf(sources[|sources| - 1]);
    IdsAtMost(rest);
    assert id in Ids(rest) ==> Ids(sources) == Ids(rest);
  }

  lemma {:induction false} HubOnce(sources: seq<Source>)
    requires forall i, j :: 0 <= i < j < |sources| ==> IdOf(sources[i]) != IdOf(sources[j])
    ensures Once(sources)
  {
    if sources != [] {
      var rest, id := sources[..|sources| - 1], IdOf(sources[|sources| - 1]);
      HubOnce(rest);
      IdsAre(rest, id);
    }
  }

  lemma PreferredOnce(hub: HubSessions)
    requires DistinctIds(hub.sessions)
    ensures Once(PreferredSources([], [hub]))
    ensures multiset(SessionsFrom(PreferredSources([], [hub]))) == multiset(hub.sessions)
  {
    var sources := HubSources(hub, hub.sessions);
    OneHubSources(hub);
    forall i | 0 <= i < |sources| ensures IdOf(sources[i]) == hub.sessions[i].id { HubSourcesAre(hub, hub.sessions, i); }
    HubOnce(sources);
    SortKeepsIds(sources);
    FromSort(sources);
    FromHub(hub, hub.sessions);
  }

  // ── A laptop's name for its own session ────────────────────────────────────

  lemma OwnName(sessions: seq<Session>, i: nat)
    requires DistinctIds(sessions) && i < |sessions|
    ensures TitleOf(sessions[i], LaptopName(sessions, sessions[i].id)) == TitleOf(sessions[i], None)
  {
    NameHere(sessions, i);
  }

  lemma {:induction false} NameHere(sessions: seq<Session>, i: nat)
    requires DistinctIds(sessions) && i < |sessions|
    ensures LaptopName(sessions, sessions[i].id) == if NameOf(sessions[i]) != [] then Some(NameOf(sessions[i])) else None
  {
    if i > 0 {
      assert sessions[0].id != sessions[i].id && sessions[1..][i - 1] == sessions[i];
      NameHere(sessions[1..], i - 1);
    } else {
      NoName(sessions[1..], sessions[0].id);
    }
  }

  lemma {:induction false} NoName(sessions: seq<Session>, id: Str)
    requires forall i :: 0 <= i < |sessions| ==> sessions[i].id != id
    ensures LaptopName(sessions, id) == None
  {
    if sessions != [] {
      NoName(sessions[1..], id);
    }
  }

  // ── The unified list shows it ──────────────────────────────────────────────

  lemma {:induction false} ShowRowsConcat(a: seq<Row>, b: seq<Row>)
    ensures ShowRows(a + b) == ShowRows(a) + ShowRows(b)
  {
    if a == [] {
      assert a + b == b;
    } else {
      assert (a + b)[1..] == a[1..] + b;
      ShowRowsConcat(a[1..], b);
    }
  }

  predicate OwnTitles(sources: seq<Source>, named: seq<Session>) {
    forall i :: 0 <= i < |sources| ==>
      TitleOf(sources[i].session, LaptopName(named, IdOf(sources[i]))) == TitleOf(sources[i].session, None)
  }

  lemma FromLast(sources: seq<Source>)
    requires sources != []
    ensures var all := SessionsFrom(sources);
            |all| > 0 && all[|all| - 1] == sources[|sources| - 1].session && all[..|all| - 1] == SessionsFrom(sources[..|sources| - 1])
  {
  }

  lemma {:induction false} UnifiedShows(sources: seq<Source>, layout: Layout, named: seq<Session>, d: Str)
    requires Once(sources) && OwnTitles(sources, named)
    ensures ShowRows(Placed(sources, layout, named, d)) == ShownAt(SessionsFrom(sources), layout, d)
  {
    if sources != [] {
      var rest, last := sources[..|sources| - 1], sources[|sources| - 1];
      OnceStep(sources);
      UnifiedShows(rest, layout, named, d);
      FromLast(sources);
      if SitsAt(layout, IdOf(last), d) {
        var row := FromSource(last, layout.placements[IdOf(last)], LaptopName(named, IdOf(last)));
        ShowRowsConcat(Placed(rest, layout, named, d), [row]);
        assert ShowRow(row) == ShowOf(last.session, layout.placements[IdOf(last)]);
      }
    }
  }

  lemma {:induction false} UnifiedHides(sources: seq<Source>, layout: Layout)
    requires Once(sources)
    ensures Hidden(sources, layout) == |Unseated(SessionsFrom(sources), layout)|
  {
    if sources != [] {
      OnceStep(sources);
      UnifiedHides(sources[..|sources| - 1], layout);
      FromLast(sources);
    }
  }

  lemma PreferredTitles(hub: HubSessions)
    requires DistinctIds(hub.sessions)
    ensures OwnTitles(PreferredSources([], [hub]), hub.sessions)
  {
    var sources, sorted := HubSources(hub, hub.sessions), PreferredSources([], [hub]);
    OneHubSources(hub);
    SortPermutes(sources, OpenableFirst);
    forall i | 0 <= i < |sorted|
      ensures TitleOf(sorted[i].session, LaptopName(hub.sessions, IdOf(sorted[i]))) == TitleOf(sorted[i].session, None)
    {
      assert sorted[i] in multiset(sources);
      var k :| 0 <= k < |sources| && sources[k] == sorted[i];
      HubSourcesAre(hub, hub.sessions, k);
      OwnName(hub.sessions, k);
    }
  }

  // ── Sorting by seat shows the same either way ──────────────────────────────

  lemma {:induction false} ShowInsertRow(x: Row, rows: seq<Row>)
    ensures ShowRows(Insert(x, rows, SeatLe)) == Insert(ShowRow(x), ShowRows(rows), ShownLe)
  {
    if rows != [] && !SeatLe(x, rows[0]) {
      ShowInsertRow(x, rows[1..]);
    }
  }

  lemma {:induction false} ShowSortRows(rows: seq<Row>)
    ensures ShowRows(SortBy(rows, SeatLe)) == SortBy(ShowRows(rows), ShownLe)
  {
    if rows != [] {
      ShowSortRows(rows[1..]);
      ShowInsertRow(rows[0], SortBy(rows[1..], SeatLe));
    }
  }

  lemma {:induction false} ShowInsertSeat(x: Seat, seats: seq<Seat>)
    ensures ShowSeats(Insert(x, seats, SeatOrder)) == Insert(Shown(HubFace(x.row), x.order), ShowSeats(seats), ShownLe)
  {
    if seats != [] && !SeatOrder(x, seats[0]) {
      ShowInsertSeat(x, seats[1..]);
    }
  }

  lemma {:induction false} ShowSortSeats(seats: seq<Seat>)
    ensures ShowSeats(SortBy(seats, SeatOrder)) == SortBy(ShowSeats(seats), ShownLe)
  {
    if seats != [] {
      ShowSortSeats(seats[1..]);
      ShowInsertSeat(seats[0], SortBy(seats[1..], SeatOrder));
    }
  }

  lemma {:induction false} SeatFaces(seats: seq<Seat>)
    ensures HubFaces(RowsIn(seats)) == FacesOf(ShowSeats(seats))
  {
    if seats != [] {
      SeatFaces(seats[1..]);
    }
  }

  lemma {:induction false} FacesCount(shown: seq<Shown>, other: seq<Shown>)
    requires multiset(shown) == multiset(other)
    ensures multiset(FacesOf(shown)) == multiset(FacesOf(other))
    decreases |shown|
  {
    assert |shown| == |multiset(shown)| && |other| == |multiset(other)|;
    if shown != [] {
      assert shown[0] in multiset(other);
      var k :| 0 <= k < |other| && other[k] == shown[0];
      var rest := PulledOut(other, k);
      TailHolds(shown);
      FacesCount(shown[1..], rest);
    }
  }

  lemma PulledOut(s: seq<Shown>, k: nat) returns (rest: seq<Shown>)
    requires k < |s|
    ensures multiset(rest) == multiset(s) - multiset{s[k]}
    ensures multiset(FacesOf(s)) == multiset{s[k].face} + multiset(FacesOf(rest))
  {
    var l, r := s[..k], s[k + 1..];
    rest := l + r;
    assert s == l + ([s[k]] + r);
    FacesConcat(l, [s[k]] + r);
    FacesConcat([s[k]], r);
    FacesConcat(l, r);
    assert FacesOf([s[k]]) == [s[k].face];
  }

  lemma {:induction false} FacesConcat(a: seq<Shown>, b: seq<Shown>)
    ensures FacesOf(a + b) == FacesOf(a) + FacesOf(b)
  {
    if a == [] {
      assert a + b == b;
    } else {
      assert (a + b)[1..] == a[1..] + b;
      FacesConcat(a[1..], b);
    }
  }

  // ── Agreement ──────────────────────────────────────────────────────────────

  /** No two of the sessions on the desktop have the same seat number. */
  predicate SeatsApart(sessions: seq<Session>, layout: Layout, d: Str) {
    forall i, j :: 0 <= i < j < |sessions| ==> !SameSeat(layout, sessions[i], sessions[j], d)
  }

  /** Same desktop and same faces; in the same order exactly when shared seats come in the same order in both lists. */
  predicate SameGroup(group: Group, other: HubGroup, a: seq<Session>, b: seq<Session>, layout: Layout) {
    && group.desktop == other.desktop
    && multiset(Faces(group.rows)) == multiset(HubFaces(other.rows))
    && (Faces(group.rows) == HubFaces(other.rows) <==> SeatsAgree(a, b, layout, group.desktop))
  }

  predicate SameGroups(groups: seq<Group>, others: seq<HubGroup>, a: seq<Session>, b: seq<Session>, layout: Layout) {
    |groups| == |others| && forall g :: 0 <= g < |groups| ==> SameGroup(groups[g], others[g], a, b, layout)
  }

  function WithRows(groups: seq<Group>): seq<Group> {
    if groups == [] then []
    else WithRows(groups[..|groups| - 1]) + if groups[|groups| - 1].rows == [] then [] else [groups[|groups| - 1]]
  }

  /** Where no seat is shared there is nothing to agree on. */
  lemma ApartAgrees(sessions: seq<Session>, a: seq<Session>, b: seq<Session>, layout: Layout, d: Str)
    requires SeatsApart(sessions, layout, d) && DistinctIds(a) && multiset(a) == multiset(sessions)
    ensures SeatsAgree(a, b, layout, d)
  {
    forall i, j | 0 <= i < j < |a| ensures !SameSeat(layout, a[i], a[j], d) {
      assert a[i] in multiset(sessions) && a[j] in multiset(sessions);
      var k :| 0 <= k < |sessions| && sessions[k] == a[i];
      var l :| 0 <= l < |sessions| && sessions[l] == a[j];
      assert SameSeat(layout, a[i], a[j], d) ==> SameSeat(layout, a[j], a[i], d);
    }
  }

  lemma SameDesktop(sources: seq<Source>, rows: seq<HubRow>, layout: Layout, named: seq<Session>, d: Str)
    requires Once(sources) && OwnTitles(sources, named) && Plain(rows) && DistinctIds(SessionsIn(rows))
    requires multiset(SessionsFrom(sources)) == multiset(SessionsIn(rows))
    ensures |Placed(sources, layout, named, d)| == |HubPlaced(rows, layout, d)|
    ensures SameGroup(Group(d, SortBy(Placed(sources, layout, named, d), SeatLe)),
                      HubGroup(d, RowsIn(SortBy(HubPlaced(rows, layout, d), SeatOrder))),
                      SessionsFrom(sources), SessionsIn(rows), layout)
  {
    var placed, seats := Placed(sources, layout, named, d), HubPlaced(rows, layout, d);
    UnifiedShows(sources, layout, named, d);
    HubShows(rows, layout, d);
    ShownPermutes(SessionsFrom(sources), SessionsIn(rows), layout, d);
    var a, b := ShowRows(placed), ShowSeats(seats);
    ShowLengths(placed, seats);
    FacesAlikeExactly(SessionsFrom(sources), SessionsIn(rows), layout, d);
    ShowSortRows(placed);
    ShowSortSeats(seats);
    SeatFaces(SortBy(seats, SeatOrder));
    SortPermutes(a, ShownLe);
    SortPermutes(b, ShownLe);
    FacesCount(SortBy(a, ShownLe), SortBy(b, ShownLe));
  }

  lemma ShowLengths(rows: seq<Row>, seats: seq<Seat>)
    requires multiset(ShowRows(rows)) == multiset(ShowSeats(seats))
    ensures |rows| == |seats|
  {
    ShowRowsLength(rows);
    ShowSeatsLength(seats);
    assert |ShowRows(rows)| == |multiset(ShowRows(rows))| && |ShowSeats(seats)| == |multiset(ShowSeats(seats))|;
  }

  lemma {:induction false} ShowRowsLength(rows: seq<Row>)
    ensures |ShowRows(rows)| == |rows|
  {
    if rows != [] { ShowRowsLength(rows[1..]); }
  }

  lemma {:induction false} ShowSeatsLength(seats: seq<Seat>)
    ensures |ShowSeats(seats)| == |seats|
  {
    if seats != [] { ShowSeatsLength(seats[1..]); }
  }

  lemma WithRowsStep(order: seq<Str>, sources: seq<Source>, layout: Layout, named: seq<Session>)
    requires order != []
    ensures var d := order[|order| - 1];
            var placed := Placed(sources, layout, named, d);
            WithRows(GroupsFor(order, sources, layout, named))
              == WithRows(GroupsFor(order[..|order| - 1], sources, layout, named))
                 + if placed == [] then [] else [Group(d, SortBy(placed, SeatLe))]
  {
    var before, groups := GroupsFor(order[..|order| - 1], sources, layout, named), GroupsFor(order, sources, layout, named);
    if |groups| > |before| {
      assert groups[..|groups| - 1] == before;
    }
  }

  lemma {:induction false} GroupsAlike(order: seq<Str>, sources: seq<Source>, rows: seq<HubRow>, layout: Layout, named: seq<Session>)
    requires Once(sources) && OwnTitles(sources, named) && Plain(rows) && DistinctIds(SessionsIn(rows))
    requires multiset(SessionsFrom(sources)) == multiset(SessionsIn(rows))
    ensures SameGroups(WithRows(GroupsFor(order, sources, layout, named)), HubGroupsFor(order, rows, layout),
                       SessionsFrom(sources), SessionsIn(rows), layout)
    decreases |order|
  {
    if order != [] {
      var rest, d := order[..|order| - 1], order[|order| - 1];
      var placed, seats := Placed(sources, layout, named, d), HubPlaced(rows, layout, d);
      GroupsAlike(rest, sources, rows, layout, named);
      WithRowsStep(order, sources, layout, named);
      SameDesktop(sources, rows, layout, named, d);
      SameGroupsMore(WithRows(GroupsFor(rest, sources, layout, named)), HubGroupsFor(rest, rows, layout),
                     Group(d, SortBy(placed, SeatLe)), HubGroup(d, RowsIn(SortBy(seats, SeatOrder))),
                     SessionsFrom(sources), SessionsIn(rows), layout);
    }
  }

  lemma SameGroupsMore(groups: seq<Group>, others: seq<HubGroup>, group: Group, other: HubGroup,
                       a: seq<Session>, b: seq<Session>, layout: Layout)
    requires SameGroups(groups, others, a, b, layout) && SameGroup(group, other, a, b, layout)
    ensures SameGroups(groups + [group], others + [other], a, b, layout)
    ensures groups + [] == groups && others + [] == others
  {
  }

  lemma PermutedIds(a: seq<Session>, b: seq<Session>)
    requires DistinctIds(b) && multiset(a) == multiset(b)
    ensures DistinctIds(a)
  {
    forall i, j | 0 <= i < j < |a| ensures a[i].id != a[j].id {
      assert a[i] in multiset(b) && a[j] in multiset(b);
      var k :| 0 <= k < |b| && b[k] == a[i];
      var l :| 0 <= l < |b| && b[l] == a[j];
      if k == l { AppearsTwice(a, i, j); AppearsOnce(b, k); }
    }
  }

  lemma AppearsTwice(a: seq<Session>, i: nat, j: nat)
    requires i < j < |a| && a[i] == a[j]
    ensures multiset(a)[a[i]] >= 2
  {
    assert a == a[..i] + [a[i]] + a[i + 1..j] + [a[j]] + a[j + 1..];
  }

  lemma AppearsOnce(b: seq<Session>, k: nat)
    requires DistinctIds(b) && k < |b|
    ensures multiset(b)[b[k]] == 1
  {
    assert b == b[..k] + [b[k]] + b[k + 1..];
    assert b[k] !in b[..k] && b[k] !in b[k + 1..];
  }

  /**
   * For one computer and no SSH, the unified list and the computer's own list have the
   * same non-empty desktops in the same order, each with the same sessions under the
   * same titles and projects, and hide the same number. A desktop's sessions come in the
   * same order exactly when any two on one seat number come in the same order in the
   * preferred sources and in the title-sorted rows.
   */
  lemma OneComputerAgrees(hub: HubSessions, layout: Layout, collate: SessionFlat.Collation)
    requires DistinctIds(hub.sessions)
    ensures var sources, rows := PreferredSources([], [hub]), ToHubSessionRows(hub.sessions, collate);
            var unified, own := UnifiedListing(sources, layout, Sessions([hub])), GroupedByLayout(rows, layout);
            && SameGroups(WithRows(unified.groups), own.groups, SessionsFrom(sources), SessionsIn(rows), layout)
            && unified.hidden == own.hidden
  {
    var sources, rows := PreferredSources([], [hub]), ToHubSessionRows(hub.sessions, collate);
    OneHubSources(hub);
    PreferredOnce(hub);
    PreferredTitles(hub);
    SortedRowsAre(hub.sessions, collate);
    PermutedIds(SessionsIn(rows), hub.sessions);
    GroupsAlike(layout.desktopOrder, sources, rows, layout, hub.sessions);
    UnifiedHides(sources, layout);
    HubHides(rows, layout);
    UnseatedPermutes(SessionsFrom(sources), hub.sessions, layout);
    UnseatedPermutes(SessionsIn(rows), hub.sessions, layout);
  }

  /** So wherever no two sessions of a desktop share a seat number, it shows the same sequence in both lists. */
  lemma SameSequenceApart(hub: HubSessions, layout: Layout, collate: SessionFlat.Collation, g: nat)
    requires DistinctIds(hub.sessions)
    requires g < |GroupedByLayout(ToHubSessionRows(hub.sessions, collate), layout).groups|
    requires SeatsApart(hub.sessions, layout, GroupedByLayout(ToHubSessionRows(hub.sessions, collate), layout).groups[g].desktop)
    ensures var groups := WithRows(UnifiedListing(PreferredSources([], [hub]), layout, Sessions([hub])).groups);
            && g < |groups|
            && Faces(groups[g].rows)
               == HubFaces(GroupedByLayout(ToHubSessionRows(hub.sessions, collate), layout).groups[g].rows)
  {
    var sources, rows := PreferredSources([], [hub]), ToHubSessionRows(hub.sessions, collate);
    var own := GroupedByLayout(rows, layout).groups;
    OneComputerAgrees(hub, layout, collate);
    PreferredOnce(hub);
    PermutedIds(SessionsFrom(sources), hub.sessions);
    ApartAgrees(hub.sessions, SessionsFrom(sources), SessionsIn(rows), layout, own[g].desktop);
    var groups := WithRows(UnifiedListing(sources, layout, Sessions([hub])).groups);
    assert SameGroup(groups[g], own[g], SessionsFrom(sources), SessionsIn(rows), layout);
  }

  /** Two sessions on one seat number: listed against their titles' order, the two lists differ. */
  lemma SharedSeatDiffers(x: Session, y: Session, seat: Placement, collate: SessionFlat.Collation)
    requires x.id != y.id && x.ready && y.ready
    requires collate(TitleOf(x, None), TitleOf(y, None)) > 0
    ensures var hub := HubSessions([], [], true, [x, y]);
            var layout := Layout(map[x.id := seat, y.id := seat], [seat.desktop]);
            var unified := ShowRows(SortBy(Placed(PreferredSources([], [hub]), layout, [x, y], seat.desktop), SeatLe));
            var own := ShowSeats(SortBy(HubPlaced(ToHubSessionRows([x, y], collate), layout, seat.desktop), SeatOrder));
            && unified == [ShowOf(x, seat), ShowOf(y, seat)]
            && own == [ShowOf(y, seat), ShowOf(x, seat)]
  {
    var hub := HubSessions([], [], true, [x, y]);
    var layout := Layout(map[x.id := seat, y.id := seat], [seat.desktop]);
    var d := seat.desktop;
    SharedSources(hub, x, y);
    PreferredOnce(hub);
    PreferredTitles(hub);
    var sources := PreferredSources([], [hub]);
    UnifiedShows(sources, layout, [x, y], d);
    ShowSortRows(Placed(sources, layout, [x, y], d));
    TwoShown(x, y, seat, layout);
    SharedRows(x, y, collate);
    var rows := ToHubSessionRows([x, y], collate);
    SortedRowsAre([x, y], collate);
    HubShows(rows, layout, d);
    ShowSortSeats(HubPlaced(rows, layout, d));
    TwoShown(y, x, seat, layout);
  }

  lemma SharedSources(hub: HubSessions, x: Session, y: Session)
    requires hub.reachable && hub.sessions == [x, y] && x.ready && y.ready
    ensures SessionsFrom(PreferredSources([], [hub])) == [x, y]
  {
    var a, b := Hub(hub.hubId, hub.hubLabel, true, x), Hub(hub.hubId, hub.hubLabel, true, y);
    OneHubSources(hub);
    HubSourcesAre(hub, hub.sessions, 0);
    HubSourcesAre(hub, hub.sessions, 1);
    assert HubSources(hub, hub.sessions) == [a, b];
    assert SortBy([b], OpenableFirst) == [b];
    assert [a, b][1..] == [b];
    assert SortBy([a, b], OpenableFirst) == [a] + [b];
    FromHead(a, [b]);
    FromHead(b, []);
    assert [b] + [] == [b];
  }

  lemma SharedRows(x: Session, y: Session, collate: SessionFlat.Collation)
    requires x.ready && y.ready && collate(TitleOf(x, None), TitleOf(y, None)) > 0
    ensures SessionsIn(ToHubSessionRows([x, y], collate)) == [y, x]
  {
    var a, b, le := ToHubSessionRow(x), ToHubSessionRow(y), HubRowLe(collate);
    assert [x, y][1..] == [y];
    assert RowsOf([y]) == [b];
    assert RowsOf([x, y]) == [a, b];
    assert [a, b][1..] == [b];
    assert SortBy([b], le) == [b];
    assert SortBy([a, b], le) == Insert(a, [b], le) == [b] + [a];
    SessionsHead(b, [a]);
    SessionsHead(a, []);
    assert [a] + [] == [a];
  }

  lemma TwoShown(x: Session, y: Session, seat: Placement, layout: Layout)
    requires x.id in layout.placements && y.id in layout.placements && seat.desktop in layout.desktopOrder
    requires layout.placements[x.id] == layout.placements[y.id] == seat
    ensures SortBy(ShownAt([x, y], layout, seat.desktop), ShownLe) == [ShowOf(x, seat), ShowOf(y, seat)]
  {
    var a, b := ShowOf(x, seat), ShowOf(y, seat);
    assert [x, y][..1] == [x] && [x][..0] == [];
    assert ShownAt([x][..0], layout, seat.desktop) == [];
    assert ShownAt([x], layout, seat.desktop) == [a];
    assert ShownAt([x, y], layout, seat.desktop) == [a, b];
    assert [a, b][1..] == [b];
    assert SortBy([b], ShownLe) == [b];
    assert Insert(a, [b], ShownLe) == [a] + [b];
  }
}
