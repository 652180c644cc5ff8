/** When two lists of the same sessions, sorted by seat number, come out the same. */
module SharedSeats {
  import opened JsText
  import opened StableSort
  import opened SessionListing
  import opened HubGrouping

  predicate DistinctIds(sessions: seq<Session>) {
    forall i, j :: 0 <= i < j < |sessions| ==> sessions[i].id != sessions[j].id
  }

  /** The session sits on the desktop, at this seat number. */
  predicate AtSeat(layout: Layout, session: Session, d: Str, n: int) {
    SitsAt(layout, session.id, d) && layout.placements[session.id].order == n
  }

  /** The sessions that share one seat number of a desktop, as they come. */
  function OnSeat(sessions: seq<Session>, layout: Layout, d: Str, n: int): seq<Session> {
    if sessions == [] then []
    else
      var last := sessions[|sessions| - 1];
      OnSeat(sessions[..|sessions| - 1], layout, d, n) + if AtSeat(layout, last, d, n) then [last] else []
  }

  /** Where a session stands in a list. */
  function Pos(sessions: seq<Session>, s: Session): (k: nat)
    ensures k <= |sessions| && (k < |sessions| ==> sessions[k] == s)
    ensures forall i :: 0 <= i < k ==> sessions[i] != s
  {
    if sessions == [] || sessions[0] == s then 0 else 1 + Pos(sessions[1..], s)
  }

  /** Any two sessions on one seat number of the desktop come in the same order in both lists. */
  predicate SeatsAgree(a: seq<Session>, b: seq<Session>, layout: Layout, d: Str) {
    forall i, j :: 0 <= i < j < |a| && SameSeat(layout, a[i], a[j], d) ==> Pos(b, a[i]) < Pos(b, a[j])
  }

  predicate SameSeat(layout: Layout, x: Session, y: Session, d: Str) {
    SitsAt(layout, x.id, d) && SitsAt(layout, y.id, d) && layout.placements[x.id].order == layout.placements[y.id].order
  }

  // ── Filtering by seat number ───────────────────────────────────────────────

  lemma {:induction false} OnSeatCounts(s: seq<Session>, layout: Layout, d: Str, n: int, x: Session)
    ensures multiset(OnSeat(s, layout, d, n))[x] == if AtSeat(layout, x, d, n) then multiset(s)[x] else 0
  {
    if s != [] {
      var rest, last := s[..|s| - 1], s[|s| - 1];
      assert s == rest + [last];
      OnSeatCounts(rest, layout, d, n, x);
    }
  }

  /** The filtered list keeps the order: what stands apart there stood apart before. */
  lemma {:induction false} OnSeatFrom(s: seq<Session>, layout: Layout, d: Str, n: int, p: nat, q: nat) returns (i: nat, j: nat)
    requires p < q < |OnSeat(s, layout, d, n)|
    ensures i < j < |s| && s[i] == OnSeat(s, layout, d, n)[p] && s[j] == OnSeat(s, layout, d, n)[q]
    ensures AtSeat(layout, s[i], d, n) && AtSeat(layout, s[j], d, n)
  {
    var rest := s[..|s| - 1];
    var before := OnSeat(rest, layout, d, n);
    if q < |before| {
      i, j := OnSeatFrom(rest, layout, d, n, p, q);
    } else {
      j := |s| - 1;
      i := OnSeatAt(rest, layout, d, n, p);
    }
  }

  lemma {:induction false} OnSeatAt(s: seq<Session>, layout: Layout, d: Str, n: int, p: nat) returns (i: nat)
    requires p < |OnSeat(s, layout, d, n)|
    ensures i < |s| && s[i] == OnSeat(s, layout, d, n)[p] && AtSeat(layout, s[i], d, n)
  {
    var rest := s[..|s| - 1];
    if p < |OnSeat(rest, layout, d, n)| {
      i := OnSeatAt(rest, layout, d, n, p);
    } else {
      i := |s| - 1;
    }
  }

  /** And the other way round. */
  lemma {:induction false} OnSeatFinds(s: seq<Session>, layout: Layout, d: Str, n: int, i: nat, j: nat) returns (p: nat, q: nat)
    requires i < j < |s| && AtSeat(layout, s[i], d, n) && AtSeat(layout, s[j], d, n)
    ensures p < q < |OnSeat(s, layout, d, n)|
    ensures OnSeat(s, layout, d, n)[p] == s[i] && OnSeat(s, layout, d, n)[q] == s[j]
  {
    var rest := s[..|s| - 1];
    if j < |rest| {
      p, q := OnSeatFinds(rest, layout, d, n, i, j);
    } else {
      p := OnSeatFind(rest, layout, d, n, i);
      q := |OnSeat(rest, layout, d, n)|;
    }
  }

  lemma {:induction false} OnSeatFind(s: seq<Session>, layout: Layout, d: Str, n: int, i: nat) returns (p: nat)
    requires i < |s| && AtSeat(layout, s[i], d, n)
    ensures p < |OnSeat(s, layout, d, n)| && OnSeat(s, layout, d, n)[p] == s[i]
  {
    var rest := s[..|s| - 1];
    if i < |rest| {
      p := OnSeatFind(rest, layout, d, n, i);
    } else {
      p := |OnSeat(rest, layout, d, n)|;
    }
  }

  lemma PosOf(b: seq<Session>, i: nat)
    requires DistinctIds(b) && i < |b|
    ensures Pos(b, b[i]) == i
  {
  }

  function PosLe(b: seq<Session>): (Session, Session) -> bool {
    (x, y) => Pos(b, x) <= Pos(b, y)
  }

  lemma OnSeatPermutes(a: seq<Session>, b: seq<Session>, layout: Layout, d: Str, n: int)
    requires multiset(a) == multiset(b)
    ensures multiset(OnSeat(a, layout, d, n)) == multiset(OnSeat(b, layout, d, n))
  {
    forall x ensures multiset(OnSeat(a, layout, d, n))[x] == multiset(OnSeat(b, layout, d, n))[x] {
      OnSeatCounts(a, layout, d, n, x);
      OnSeatCounts(b, layout, d, n, x);
    }
  }

  lemma AgreedOrder(a: seq<Session>, b: seq<Session>, layout: Layout, d: Str, n: int)
    requires SeatsAgree(a, b, layout, d)
    ensures Ordered(OnSeat(a, layout, d, n), PosLe(b))
  {
    var f := OnSeat(a, layout, d, n);
    forall p, q | 0 <= p < q < |f| ensures Pos(b, f[p]) <= Pos(b, f[q]) {
      var i, j := OnSeatFrom(a, layout, d, n, p, q);
      assert SameSeat(layout, a[i], a[j], d);
    }
  }

  lemma OwnOrder(b: seq<Session>, layout: Layout, d: Str, n: int)
    requires DistinctIds(b)
    ensures Ordered(OnSeat(b, layout, d, n), PosLe(b))
  {
    var g := OnSeat(b, layout, d, n);
    forall p, q | 0 <= p < q < |g| ensures Pos(b, g[p]) <= Pos(b, g[q]) {
      var i, j := OnSeatFrom(b, layout, d, n, p, q);
      PosOf(b, i);
      PosOf(b, j);
    }
  }

  lemma PosTells(b: seq<Session>, x: Session, y: Session)
    requires x in b && y in b && Pos(b, x) == Pos(b, y)
    ensures x == y
  {
  }

  /** Pairs in the same order, and seat by seat the same lists: the same thing. */
  lemma AgreeGivesSeats(a: seq<Session>, b: seq<Session>, layout: Layout, d: Str, n: int)
    requires DistinctIds(b) && multiset(a) == multiset(b) && SeatsAgree(a, b, layout, d)
    ensures OnSeat(a, layout, d, n) == OnSeat(b, layout, d, n)
  {
    var f, g, le := OnSeat(a, layout, d, n), OnSeat(b, layout, d, n), PosLe(b);
    OnSeatPermutes(a, b, layout, d, n);
    AgreedOrder(a, b, layout, d, n);
    OwnOrder(b, layout, d, n);
    forall x, y | x in f && y in f && le(x, y) && le(y, x) ensures x == y {
      SeatedInList(a, b, layout, d, n, x);
      SeatedInList(a, b, layout, d, n, y);
      PosTells(b, x, y);
    }
    OrderedPermutations(f, g, le);
  }

  lemma SeatedInList(a: seq<Session>, b: seq<Session>, layout: Layout, d: Str, n: int, x: Session)
    requires multiset(a) == multiset(b) && x in OnSeat(a, layout, d, n)
    ensures x in b
  {
    assert x in multiset(OnSeat(a, layout, d, n));
    OnSeatCounts(a, layout, d, n, x);
    assert x in multiset(b);
  }

  lemma SeatsGiveAgree(a: seq<Session>, b: seq<Session>, layout: Layout, d: Str)
    requires DistinctIds(b) && forall n :: OnSeat(a, layout, d, n) == OnSeat(b, layout, d, n)
    ensures SeatsAgree(a, b, layout, d)
  {
    forall i, j | 0 <= i < j < |a| && SameSeat(layout, a[i], a[j], d) ensures Pos(b, a[i]) < Pos(b, a[j]) {
      var n := layout.placements[a[i].id].order;
      var p, q := OnSeatFinds(a, layout, d, n, i, j);
      assert OnSeat(a, layout, d, n) == OnSeat(b, layout, d, n);
      var k, l := OnSeatFrom(b, layout, d, n, p, q);
      PosOf(b, k);
      PosOf(b, l);
    }
  }

  // ── Ties of what a desktop shows ───────────────────────────────────────────

  function ShowAll(sessions: seq<Session>, layout: Layout): (r: seq<Shown>)
    requires forall i :: 0 <= i < |sessions| ==> sessions[i].id in layout.placements
    ensures |r| == |sessions|
    ensures forall i :: 0 <= i < |r| ==> r[i].face.session == sessions[i]
  {
    if sessions == [] then []
    else
      var last := sessions[|sessions| - 1];
      ShowAll(sessions[..|sessions| - 1], layout) + [ShowOf(last, layout.placements[last.id])]
  }

  lemma {:induction false} OnSeatPlaced(s: seq<Session>, layout: Layout, d: Str, n: int)
    ensures forall i :: 0 <= i < |OnSeat(s, layout, d, n)| ==> OnSeat(s, layout, d, n)[i].id in layout.placements
  {
    if s != [] { OnSeatPlaced(s[..|s| - 1], layout, d, n); }
  }

  lemma {:induction false} TiesShown(s: seq<Session>, layout: Layout, d: Str, x: Shown)
    ensures forall i :: 0 <= i < |OnSeat(s, layout, d, x.order)| ==> OnSeat(s, layout, d, x.order)[i].id in layout.placements
    ensures Ties(ShownAt(s, layout, d), x, ShownLe) == ShowAll(OnSeat(s, layout, d, x.order), layout)
  {
    OnSeatPlaced(s, layout, d, x.order);
    if s != [] {
      var rest, last := s[..|s| - 1], s[|s| - 1];
      var f := OnSeat(rest, layout, d, x.order);
      TiesShown(rest, layout, d, x);
      var added := if SitsAt(layout, last.id, d) then [ShowOf(last, layout.placements[last.id])] else [];
      TiesConcat(ShownAt(rest, layout, d), added, x, ShownLe);
      TiesOne(layout, last, d, x);
      if AtSeat(layout, last, d, x.order) {
        assert (f + [last])[..|f|] == f;
      } else {
        assert f + [] == f;
      }
    }
  }

  lemma TiesOne(layout: Layout, last: Session, d: Str, x: Shown)
    ensures var added := if SitsAt(layout, last.id, d) then [ShowOf(last, layout.placements[last.id])] else [];
            Ties(added, x, ShownLe) == if AtSeat(layout, last, d, x.order) then [ShowOf(last, layout.placements[last.id])] else []
  {
  }

  const NOBODY: Face := Face(Session([], None, [], None, false), [], [])

  /** Sorted by seat number, two arrangements of the same sessions show the same exactly when shared seats agree. */
  lemma SortedAlikeExactly(a: seq<Session>, b: seq<Session>, layout: Layout, d: Str)
    requires DistinctIds(b) && multiset(a) == multiset(b)
    ensures SortBy(ShownAt(a, layout, d), ShownLe) == SortBy(ShownAt(b, layout, d), ShownLe) <==> SeatsAgree(a, b, layout, d)
  {
    if SeatsAgree(a, b, layout, d) {
      AgreeSortsAlike(a, b, layout, d);
    }
    if SortBy(ShownAt(a, layout, d), ShownLe) == SortBy(ShownAt(b, layout, d), ShownLe) {
      AlikeAgrees(a, b, layout, d);
    }
  }

  lemma AgreeSortsAlike(a: seq<Session>, b: seq<Session>, layout: Layout, d: Str)
    requires DistinctIds(b) && multiset(a) == multiset(b) && SeatsAgree(a, b, layout, d)
    ensures SortBy(ShownAt(a, layout, d), ShownLe) == SortBy(ShownAt(b, layout, d), ShownLe)
  {
    var x, y := ShownAt(a, layout, d), ShownAt(b, layout, d);
    var p, q := SortBy(x, ShownLe), SortBy(y, ShownLe);
    SortOrders(x, ShownLe);
    SortOrders(y, ShownLe);
    forall z ensures Ties(p, z, ShownLe) == Ties(q, z, ShownLe) {
      SortStable(x, z, ShownLe);
      SortStable(y, z, ShownLe);
      TiesShown(a, layout, d, z);
      TiesShown(b, layout, d, z);
      AgreeGivesSeats(a, b, layout, d, z.order);
    }
    OnlyOneSort(p, q, ShownLe);
  }

  lemma AlikeAgrees(a: seq<Session>, b: seq<Session>, layout: Layout, d: Str)
    requires DistinctIds(b)
    requires SortBy(ShownAt(a, layout, d), ShownLe) == SortBy(ShownAt(b, layout, d), ShownLe)
    ensures SeatsAgree(a, b, layout, d)
  {
    forall n ensures OnSeat(a, layout, d, n) == OnSeat(b, layout, d, n) {
      var z := Shown(NOBODY, n);
      SortStable(ShownAt(a, layout, d), z, ShownLe);
      SortStable(ShownAt(b, layout, d), z, ShownLe);
      TiesShown(a, layout, d, z);
      TiesShown(b, layout, d, z);
      SameShownSame(OnSeat(a, layout, d, n), OnSeat(b, layout, d, n), layout);
    }
    SeatsGiveAgree(a, b, layout, d);
  }

  lemma SameShownSame(f: seq<Session>, g: seq<Session>, layout: Layout)
    requires forall i :: 0 <= i < |f| ==> f[i].id in layout.placements
    requires forall i :: 0 <= i < |g| ==> g[i].id in layout.placements
    requires ShowAll(f, layout) == ShowAll(g, layout)
    ensures f == g
  {
    var r := ShowAll(f, layout);
    forall i | 0 <= i < |f| ensures f[i] == g[i] {
      assert r[i].face.session == f[i];
    }
  }

  // ── What a face tells ──────────────────────────────────────────────────────

  /** On one layout the seat number goes with the session, so faces tell the shown rows. */
  predicate Seated(shown: seq<Shown>, layout: Layout) {
    forall i :: 0 <= i < |shown| ==>
      && shown[i].face.session.id in layout.placements
      && shown[i] == ShowOf(shown[i].face.session, layout.placements[shown[i].face.session.id])
  }

  lemma {:induction false} FacesLength(shown: seq<Shown>)
    ensures |FacesOf(shown)| == |shown|
  {
    if shown != [] { FacesLength(shown[1..]); }
  }

  lemma {:induction false} FacesTell(p: seq<Shown>, q: seq<Shown>, layout: Layout)
    requires Seated(p, layout) && Seated(q, layout) && FacesOf(p) == FacesOf(q)
    ensures p == q
    decreases |p|
  {
    FacesLength(p);
    FacesLength(q);
    if p != [] {
      assert FacesOf(p)[0] == p[0].face && FacesOf(q)[0] == q[0].face;
      assert FacesOf(p)[1..] == FacesOf(p[1..]) && FacesOf(q)[1..] == FacesOf(q[1..]);
      FacesTell(p[1..], q[1..], layout);
      assert p == [p[0]] + p[1..] && q == [q[0]] + q[1..];
    }
  }

  lemma SortedSeated(s: seq<Session>, layout: Layout, d: Str)
    ensures Seated(SortBy(ShownAt(s, layout, d), ShownLe), layout)
  {
    var shown := ShownAt(s, layout, d);
    var sorted := SortBy(shown, ShownLe);
    SortPermutes(shown, ShownLe);
    forall i | 0 <= i < |sorted|
      ensures sorted[i].face.session.id in layout.placements
      ensures sorted[i] == ShowOf(sorted[i].face.session, layout.placements[sorted[i].face.session.id])
    {
      assert sorted[i] in multiset(shown);
      ShownCounts(s, layout, d, sorted[i]);
    }
  }

  /** The faces come in the same order exactly when shared seats agree. */
  lemma FacesAlikeExactly(a: seq<Session>, b: seq<Session>, layout: Layout, d: Str)
    requires DistinctIds(b) && multiset(a) == multiset(b)
    ensures FacesOf(SortBy(ShownAt(a, layout, d), ShownLe)) == FacesOf(SortBy(ShownAt(b, layout, d), ShownLe))
            <==> SeatsAgree(a, b, layout, d)
  {
    var p, q := SortBy(ShownAt(a, layout, d), ShownLe), SortBy(ShownAt(b, layout, d), ShownLe);
    SortedAlikeExactly(a, b, layout, d);
    SortedSeated(a, layout, d);
    SortedSeated(b, layout, d);
    if FacesOf(p) == FacesOf(q) { FacesTell(p, q, layout); }
  }
}
