/** One computer's own list, grouped by its sidebar: the other implementation of the same promise. */
module HubGrouping {
  import opened JsText
  import opened StableSort
  import opened SessionListing
  import SessionFlat

  datatype HubRow = HubRow(session: Session, title: Str, badge: Str, ready: bool, project: Option<Str>)

  datatype HubGroup = HubGroup(desktop: Str, rows: seq<HubRow>)

  datatype HubListing = HubListing(groups: seq<HubGroup>, hidden: nat)

  /** A row with its place on the desktop, while the groups are being made. */
  datatype Seat = Seat(order: int, row: HubRow)

  function ToHubSessionRow(session: Session): HubRow {
    HubRow(session, TitleOf(session, None), if session.program.Some? then session.program.value else session.provider,
           session.ready, None)
  }

  function RowsOf(sessions: seq<Session>): seq<HubRow> {
    if sessions == [] then [] else [ToHubSessionRow(sessions[0])] + RowsOf(sessions[1..])
  }

  /** Attachable sessions first, then by title and session id. */
  function HubCompare(a: HubRow, b: HubRow, collate: SessionFlat.Collation): int {
    if a.ready != b.ready then (if a.ready then -1 else 1)
    else if collate(a.title, b.title) != 0 then collate(a.title, b.title)
    else collate(a.session.id, b.session.id)
  }

  function HubRowLe(collate: SessionFlat.Collation): (HubRow, HubRow) -> bool {
    (a, b) => HubCompare(a, b, collate) <= 0
  }

  function ToHubSessionRows(sessions: seq<Session>, collate: SessionFlat.Collation): seq<HubRow> {
    SortBy(RowsOf(sessions), HubRowLe(collate))
  }

  function SeatedRow(row: HubRow, seat: Placement): Seat {
    Seat(seat.order, row.(project := Some(seat.project)))
  }

  /** The rows of one desktop, in the order they came. */
  function HubPlaced(rows: seq<HubRow>, layout: Layout, desktop: Str): seq<Seat> {
    if rows == [] then []
    else
      var last := rows[|rows| - 1];
      HubPlaced(rows[..|rows| - 1], layout, desktop)
      + if SitsAt(layout, last.session.id, desktop) then [SeatedRow(last, layout.placements[last.session.id])] else []
  }

  function HubHidden(rows: seq<HubRow>, layout: Layout): nat {
    if rows == [] then 0
    else HubHidden(rows[..|rows| - 1], layout) + if SeatOf(layout, rows[|rows| - 1].session.id).Some? then 0 else 1
  }

  predicate SeatOrder(a: Seat, b: Seat) { a.order <= b.order }

  function RowsIn(seats: seq<Seat>): seq<HubRow> {
    if seats == [] then [] else [seats[0].row] + RowsIn(seats[1..])
  }

  function HubGroupsFor(order: seq<Str>, rows: seq<HubRow>, layout: Layout): seq<HubGroup> {
    if order == [] then []
    else
      var desktop := order[|order| - 1];
      var seats := HubPlaced(rows, layout, desktop);
      HubGroupsFor(order[..|order| - 1], rows, layout)
      + if seats == [] then [] else [HubGroup(desktop, RowsIn(SortBy(seats, SeatOrder)))]
  }

  function GroupedByLayout(rows: seq<HubRow>, layout: Layout): HubListing {
    HubListing(HubGroupsFor(layout.desktopOrder, rows, layout), HubHidden(rows, layout))
  }

  ghost predicate Seats(seated: map<Str, seq<Seat>>, rows: seq<HubRow>, layout: Layout) {
    forall d :: HubPlaced(rows, layout, d) == if d in seated then seated[d] else []
  }

  lemma NextHubGroup(order: seq<Str>, k: nat, rows: seq<HubRow>, layout: Layout, seats: seq<Seat>)
    requires k < |order| && seats == HubPlaced(rows, layout, order[k])
    ensures HubGroupsFor(order[..k + 1], rows, layout) == HubGroupsFor(order[..k], rows, layout)
              + if seats == [] then [] else [HubGroup(order[k], RowsIn(SortBy(seats, SeatOrder)))]
  {
    assert order[..k + 1][..k] == order[..k];
  }

  method GroupHubRowsByLayout(rows: seq<HubRow>, layout: Layout) returns (listing: HubListing)
    ensures listing == GroupedByLayout(rows, layout)
  {
    var seated, hidden := SeatRows(rows, layout);
    var groups := [];
    for k := 0 to |layout.desktopOrder|
      invariant groups == HubGroupsFor(layout.desktopOrder[..k], rows, layout)
    {
      var desktop := layout.desktopOrder[k];
      var seats := if desktop in seated then seated[desktop] else [];
      NextHubGroup(layout.desktopOrder, k, rows, layout, seats);
      if |seats| != 0 {
        groups := groups + [HubGroup(desktop, RowsIn(SortBy(seats, SeatOrder)))];
      }
    }
    assert layout.desktopOrder[..|layout.desktopOrder|] == layout.desktopOrder;
    listing := HubListing(groups, hidden);
  }

  lemma NextHubRow(front: seq<HubRow>, row: HubRow, layout: Layout, d: Str)
    ensures HubPlaced(front + [row], layout, d) == HubPlaced(front, layout, d)
              + if SitsAt(layout, row.session.id, d) then [SeatedRow(row, layout.placements[row.session.id])] else []
    ensures HubHidden(front + [row], layout) == HubHidden(front, layout) + if SeatOf(layout, row.session.id).Some? then 0 else 1
  {
    assert (front + [row])[..|front|] == front;
  }

  lemma SeatsNext(seated: map<Str, seq<Seat>>, seated': map<Str, seq<Seat>>, front: seq<HubRow>, row: HubRow, layout: Layout)
    requires Seats(seated, front, layout)
    requires forall d :: (if d in seated' then seated'[d] else []) == (if d in seated then seated[d] else [])
               + if SitsAt(layout, row.session.id, d) then [SeatedRow(row, layout.placements[row.session.id])] else []
    ensures Seats(seated', front + [row], layout)
  {
    forall d ensures HubPlaced(front + [row], layout, d) == if d in seated' then seated'[d] else [] {
      NextHubRow(front, row, layout, d);
    }
  }

  method SeatRows(rows: seq<HubRow>, layout: Layout) returns (seated: map<Str, seq<Seat>>, hidden: nat)
    ensures Seats(seated, rows, layout) && hidden == HubHidden(rows, layout)
  {
    seated, hidden := map[], 0;
    for i := 0 to |rows|
      invariant Seats(seated, rows[..i], layout) && hidden == HubHidden(rows[..i], layout)
    {
      var row := rows[i];
      assert rows[..i + 1] == rows[..i] + [row];
      NextHubRow(rows[..i], row, layout, []);
      ghost var before := seated;
      if row.session.id !in layout.placements || layout.placements[row.session.id].desktop !in layout.desktopOrder {
        hidden := hidden + 1;
      } else {
        var seat := layout.placements[row.session.id];
        seated := seated[seat.desktop := (if seat.desktop in seated then seated[seat.desktop] else []) + [SeatedRow(row, seat)]];
      }
      SeatsNext(before, seated, rows[..i], row, layout);
    }
    assert rows[..|rows|] == rows;
  }

  // ── What both lists show of a session ──────────────────────────────────────

  datatype Face = Face(session: Session, title: Str, project: Str)

  datatype Shown = Shown(face: Face, order: int)

  predicate ShownLe(a: Shown, b: Shown) { a.order <= b.order }

  function FacesOf(shown: seq<Shown>): seq<Face> {
    if shown == [] then [] else [shown[0].face] + FacesOf(shown[1..])
  }

  function ShowRow(row: Row): Shown { Shown(Face(row.source.session, row.title, row.project), row.order) }

  function ShowRows(rows: seq<Row>): seq<Shown> {
    if rows == [] then [] else [ShowRow(rows[0])] + ShowRows(rows[1..])
  }

  function HubFace(row: HubRow): Face {
    Face(row.session, row.title, if row.project.Some? then row.project.value else [])
  }

  function ShowSeats(seats: seq<Seat>): seq<Shown> {
    if seats == [] then [] else [Shown(HubFace(seats[0].row), seats[0].order)] + ShowSeats(seats[1..])
  }

  /** What the rows of a group show. */
  function Faces(rows: seq<Row>): seq<Face> { FacesOf(ShowRows(rows)) }

  function HubFaces(rows: seq<HubRow>): seq<Face> {
    if rows == [] then [] else [HubFace(rows[0])] + HubFaces(rows[1..])
  }

  function ShowOf(session: Session, seat: Placement): Shown {
    Shown(Face(session, TitleOf(session, None), seat.project), seat.order)
  }

  /** What a desktop has to show of these sessions. */
  function ShownAt(sessions: seq<Session>, layout: Layout, d: Str): seq<Shown> {
    if sessions == [] then []
    else
      var last := sessions[|sessions| - 1];
      ShownAt(sessions[..|sessions| - 1], layout, d)
      + if SitsAt(layout, last.id, d) then [ShowOf(last, layout.placements[last.id])] else []
  }

  function Unseated(sessions: seq<Session>, layout: Layout): seq<Session> {
    if sessions == [] then []
    else
      var last := sessions[|sessions| - 1];
      Unseated(sessions[..|sessions| - 1], layout) + if SeatOf(layout, last.id).Some? then [] else [last]
  }

  /** Neither depends on the order of the sessions. */
  lemma {:induction false} ShownCounts(sessions: seq<Session>, layout: Layout, d: Str, y: Shown)
    ensures multiset(ShownAt(sessions, layout, d))[y]
         == if SitsAt(layout, y.face.session.id, d) && y == ShowOf(y.face.session, layout.placements[y.face.session.id])
            then multiset(sessions)[y.face.session] else 0
  {
    if sessions != [] {
      var rest, last := sessions[..|sessions| - 1], sessions[|sessions| - 1];
      assert sessions == rest + [last];
      ShownCounts(rest, layout, d, y);
    }
  }

  lemma {:induction false} UnseatedCounts(sessions: seq<Session>, layout: Layout, s: Session)
    ensures multiset(Unseated(sessions, layout))[s] == if SeatOf(layout, s.id).Some? then 0 else multiset(sessions)[s]
  {
    if sessions != [] {
      var rest, last := sessions[..|sessions| - 1], sessions[|sessions| - 1];
      assert sessions == rest + [last];
      UnseatedCounts(rest, layout, s);
    }
  }

  lemma ShownPermutes(a: seq<Session>, b: seq<Session>, layout: Layout, d: Str)
    requires multiset(a) == multiset(b)
    ensures multiset(ShownAt(a, layout, d)) == multiset(ShownAt(b, layout, d))
  {
    forall y ensures multiset(ShownAt(a, layout, d))[y] == multiset(ShownAt(b, layout, d))[y] {
      ShownCounts(a, layout, d, y);
      ShownCounts(b, layout, d, y);
    }
  }

  lemma UnseatedPermutes(a: seq<Session>, b: seq<Session>, layout: Layout)
    requires multiset(a) == multiset(b)
    ensures |Unseated(a, layout)| == |Unseated(b, layout)|
  {
    var x, y := Unseated(a, layout), Unseated(b, layout);
    forall s ensures multiset(x)[s] == multiset(y)[s] {
      UnseatedCounts(a, layout, s);
      UnseatedCounts(b, layout, s);
    }
    assert multiset(x) == multiset(y);
    assert |x| == |multiset(x)| && |y| == |multiset(y)|;
  }

  // ── The computer's own list shows it ───────────────────────────────────────

  function SessionsIn(rows: seq<HubRow>): seq<Session> {
    if rows == [] then [] else SessionsIn(rows[..|rows| - 1]) + [rows[|rows| - 1].session]
  }

  predicate Plain(rows: seq<HubRow>) {
    forall i :: 0 <= i < |rows| ==> rows[i].title == TitleOf(rows[i].session, None)
  }

  lemma {:induction false} ShowSeatsConcat(a: seq<Seat>, b: seq<Seat>)
    ensures ShowSeats(a + b) == ShowSeats(a) + ShowSeats(b)
  {
    if a == [] {
      assert a + b == b;
    } else {
      assert (a + b)[1..] == a[1..] + b;
      ShowSeatsConcat(a[1..], b);
    }
  }

  lemma {:induction false} HubShows(rows: seq<HubRow>, layout: Layout, d: Str)
    requires Plain(rows)
    ensures ShowSeats(HubPlaced(rows, layout, d)) == ShownAt(SessionsIn(rows), layout, d)
  {
    if rows != [] {
      var rest, last := rows[..|rows| - 1], rows[|rows| - 1];
      HubShows(rest, layout, d);
      SessionsLast(rows);
      var added := if SitsAt(layout, last.session.id, d) then [SeatedRow(last, layout.placements[last.session.id])] else [];
      ShowSeatsConcat(HubPlaced(rest, layout, d), added);
    }
  }

  lemma SessionsLast(rows: seq<HubRow>)
    requires rows != []
    ensures var n := |SessionsIn(rows)|;
            n > 0 && SessionsIn(rows)[n - 1] == rows[|rows| - 1].session && SessionsIn(rows)[..n - 1] == SessionsIn(rows[..|rows| - 1])
  {
  }

  lemma {:induction false} HubHides(rows: seq<HubRow>, layout: Layout)
    ensures HubHidden(rows, layout) == |Unseated(SessionsIn(rows), layout)|
  {
    if rows != [] {
      HubHides(rows[..|rows| - 1], layout);
      SessionsLast(rows);
    }
  }

  lemma {:induction false} SessionsConcat(a: seq<HubRow>, b: seq<HubRow>)
    ensures SessionsIn(a + b) == SessionsIn(a) + SessionsIn(b)
    decreases |b|
  {
    if b == [] {
      assert a + b == a;
    } else {
      assert (a + b)[..|a + b| - 1] == a + b[..|b| - 1];
      SessionsConcat(a, b[..|b| - 1]);
    }
  }

  lemma SessionsHead(row: HubRow, rows: seq<HubRow>)
    ensures SessionsIn([row] + rows) == [row.session] + SessionsIn(rows)
  {
    SessionsConcat([row], rows);
    assert SessionsIn([row]) == [row.session] by { assert SessionsIn([row][..0]) == []; }
  }

  lemma {:induction false} SessionsInsert(x: HubRow, rows: seq<HubRow>, le: (HubRow, HubRow) -> bool)
    ensures multiset(SessionsIn(Insert(x, rows, le))) == multiset{x.session} + multiset(SessionsIn(rows))
  {
    SessionsHead(x, rows);
    if rows != [] && !le(x, rows[0]) {
      SessionsInsert(x, rows[1..], le);
      SessionsHead(rows[0], Insert(x, rows[1..], le));
      SessionsHead(rows[0], rows[1..]);
      assert rows == [rows[0]] + rows[1..];
    }
  }

  lemma {:induction false} SessionsSort(rows: seq<HubRow>, le: (HubRow, HubRow) -> bool)
    ensures multiset(SessionsIn(SortBy(rows, le))) == multiset(SessionsIn(rows))
  {
    if rows != [] {
      SessionsSort(rows[1..], le);
      SessionsInsert(rows[0], SortBy(rows[1..], le), le);
      SessionsHead(rows[0], rows[1..]);
      assert rows == [rows[0]] + rows[1..];
    }
  }

  lemma {:induction false} RowsOfAre(sessions: seq<Session>)
    ensures SessionsIn(RowsOf(sessions)) == sessions && Plain(RowsOf(sessions))
  {
    if sessions != [] {
      RowsOfAre(sessions[1..]);
      SessionsHead(ToHubSessionRow(sessions[0]), RowsOf(sessions[1..]));
    }
  }

  /** The sorted rows are the sessions, each under its own name. */
  lemma SortedRowsAre(sessions: seq<Session>, collate: SessionFlat.Collation)
    ensures var rows := ToHubSessionRows(sessions, collate);
            multiset(SessionsIn(rows)) == multiset(sessions) && Plain(rows)
  {
    var rows, sorted := RowsOf(sessions), ToHubSessionRows(sessions, collate);
    RowsOfAre(sessions);
    SessionsSort(rows, HubRowLe(collate));
    SortPermutes(rows, HubRowLe(collate));
    forall i | 0 <= i < |sorted| ensures sorted[i].title == TitleOf(sorted[i].session, None) {
      assert sorted[i] in multiset(rows);
    }
  }

  lemma HubCompareChains(a: HubRow, b: HubRow, c: HubRow, collate: SessionFlat.Collation)
    requires SessionFlat.Consistent(collate) && HubCompare(a, b, collate) <= 0 && HubCompare(b, c, collate) <= 0
    ensures HubCompare(a, c, collate) <= 0
  {
    if a.ready == b.ready == c.ready {
      SessionFlat.Chains(a.title, b.title, c.title, collate);
      if collate(a.title, c.title) == 0 { SessionFlat.Chains(a.session.id, b.session.id, c.session.id, collate); }
    }
  }

  lemma HubCompareOrders(collate: SessionFlat.Collation)
    requires SessionFlat.Consistent(collate)
    ensures Preorder(HubRowLe(collate))
  {
    var le := HubRowLe(collate);
    forall a, b, c | le(a, b) && le(b, c) ensures le(a, c) { HubCompareChains(a, b, c, collate); }
  }

  /** A row may stand above another: what can be attached first, then by title and by id. */
  predicate HubMayPrecede(a: HubRow, b: HubRow, collate: SessionFlat.Collation) {
    if a.ready != b.ready then a.ready
    else
      var byTitle := collate(a.title, b.title);
      byTitle < 0 || (byTitle == 0 && collate(a.session.id, b.session.id) <= 0)
  }

  lemma HubRowsOrder(sessions: seq<Session>, collate: SessionFlat.Collation, i: nat, j: nat)
    requires SessionFlat.Consistent(collate) && i < j < |ToHubSessionRows(sessions, collate)|
    ensures var rows := ToHubSessionRows(sessions, collate); HubMayPrecede(rows[i], rows[j], collate)
  {
    HubCompareOrders(collate);
    SortOrders(RowsOf(sessions), HubRowLe(collate));
    var rows := ToHubSessionRows(sessions, collate);
    assert HubRowLe(collate)(rows[i], rows[j]);
  }

  /** Titled by its trimmed name, or its id if that is blank; badged by program or else provider; ready as its session. */
  predicate SaysSession(row: HubRow) {
    var s := row.session;
    && row.title == (if s.name.Some? && !Blank(s.name.value) then Trim(s.name.value) else s.id)
    && row.badge == (match s.program case Some(p) => p case None => s.provider)
    && row.ready == s.ready && row.project.None?
  }

  lemma {:induction false} RowsOfSay(sessions: seq<Session>)
    ensures forall i :: 0 <= i < |RowsOf(sessions)| ==> SaysSession(RowsOf(sessions)[i])
  {
    if sessions != [] {
      RowsOfSay(sessions[1..]);
      if sessions[0].name.Some? { BlankIsTrimmedAway(sessions[0].name.value); }
      assert SaysSession(ToHubSessionRow(sessions[0]));
    }
  }

  lemma HubRowsSay(sessions: seq<Session>, collate: SessionFlat.Collation, i: nat)
    requires i < |ToHubSessionRows(sessions, collate)|
    ensures SaysSession(ToHubSessionRows(sessions, collate)[i])
  {
    RowsOfSay(sessions);
    SortPermutes(RowsOf(sessions), HubRowLe(collate));
    assert ToHubSessionRows(sessions, collate)[i] in multiset(RowsOf(sessions));
  }
}
