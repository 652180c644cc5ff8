/** The sidebars of several paired computers made into one. */
module LayoutMerge {
  import opened JsText
  import opened Lists
  import opened StableSort
  import opened SessionListing
  import opened SessionLaws

  /** One computer's entry in the record of layouts. */
  datatype Sidebar = Sidebar(hubId: Str, layout: Layout)

  /** The default order of `sort()` on strings: by UTF-16 code units. */
  predicate TextLe(a: Str, b: Str) {
    a == [] || (b != [] && (a[0] < b[0] || (a[0] == b[0] && TextLe(a[1..], b[1..]))))
  }

  /** The first unit where two texts differ decides; a text comes before what it starts. */
  lemma {:induction false} TextLeMeans(a: Str, b: Str, k: nat)
    requires k <= |a| && k <= |b| && a[..k] == b[..k]
    requires k < |a| && k < |b| ==> a[k] != b[k]
    ensures TextLe(a, b) <==> k == |a| || (k < |b| && a[k] < b[k])
  {
    if k > 0 {
      assert a[0] == a[..k][0] == b[..k][0] == b[0];
      assert a[1..][..k - 1] == a[..k][1..] == b[..k][1..] == b[1..][..k - 1];
      TextLeMeans(a[1..], b[1..], k - 1);
    }
  }

  predicate HubLe(a: Sidebar, b: Sidebar) { TextLe(a.hubId, b.hubId) }

  function WithName(order: seq<Str>, name: Str): seq<Str> {
    if name in order then order else order + [name]
  }

  function WithNames(order: seq<Str>, names: seq<Str>): seq<Str> {
    if names == [] then order else WithName(WithNames(order, names[..|names| - 1]), names[|names| - 1])
  }

  /** Going over the computers in order: the first to seat a session or name a desktop wins. */
  function MergeAll(sidebars: seq<Sidebar>): Layout {
    if sidebars == [] then Layout(map[], [])
    else
      var merged, next := MergeAll(sidebars[..|sidebars| - 1]), sidebars[|sidebars| - 1].layout;
      Layout(next.placements + merged.placements, WithNames(merged.desktopOrder, next.desktopOrder))
  }

  /** A record has one entry per computer, in whatever order they were added. */
  predicate OneEach(record: seq<Sidebar>) {
    forall i, j :: 0 <= i < j < |record| ==> record[i].hubId != record[j].hubId
  }

  function Merged(record: seq<Sidebar>): Layout {
    MergeAll(SortBy(record, HubLe))
  }

  method MergeLayouts(record: seq<Sidebar>) returns (merged: Layout)
    requires OneEach(record)
    ensures merged == Merged(record)
  {
    var sidebars := SortBy(record, HubLe);
    var placements: map<Str, Placement> := map[];
    var desktopOrder: seq<Str> := [];
    for h := 0 to |sidebars|
      invariant Layout(placements, desktopOrder) == MergeAll(sidebars[..h])
    {
      var layout := sidebars[h].layout;
      assert sidebars[..h + 1][..h] == sidebars[..h];
      desktopOrder := AddNames(desktopOrder, layout.desktopOrder);
      placements := AddSeats(placements, layout.placements);
    }
    assert sidebars[..|sidebars|] == sidebars;
    merged := Layout(placements, desktopOrder);
  }

  method AddNames(order: seq<Str>, names: seq<Str>) returns (r: seq<Str>)
    ensures r == WithNames(order, names)
  {
    r := order;
    for i := 0 to |names|
      invariant r == WithNames(order, names[..i])
    {
      assert names[..i + 1][..i] == names[..i];
      if names[i] !in r {
        r := r + [names[i]];
      }
    }
    assert names[..|names|] == names;
  }

  /** `Object.entries` in whatever order. */
  method AddSeats(placements: map<Str, Placement>, seats: map<Str, Placement>) returns (r: map<Str, Placement>)
    ensures r == seats + placements
  {
    r := placements;
    var left := seats.Keys;
    while left != {}
      invariant left <= seats.Keys
      invariant r.Keys == placements.Keys + (seats.Keys - left)
      invariant forall id :: id in r ==> r[id] == if id in placements then placements[id] else seats[id]
      decreases |left|
    {
      var id :| id in left;
      if id !in r {
        r := r[id := seats[id]];
      }
      left := left - {id};
    }
  }

  // ── The order of text ──────────────────────────────────────────────────────

  lemma {:induction false} TextTotal(a: Str, b: Str)
    ensures TextLe(a, b) || TextLe(b, a)
    ensures TextLe(a, b) && TextLe(b, a) ==> a == b
    decreases |a|
  {
    if a != [] && b != [] {
      TextTotal(a[1..], b[1..]);
      assert a == [a[0]] + a[1..] && b == [b[0]] + b[1..];
    }
  }

  lemma {:induction false} TextChains(a: Str, b: Str, c: Str)
    requires TextLe(a, b) && TextLe(b, c)
    ensures TextLe(a, c)
    decreases |a|
  {
    if a != [] && a[0] == b[0] == c[0] {
      TextChains(a[1..], b[1..], c[1..]);
    }
  }

  lemma HubsOrdered()
    ensures Preorder(HubLe)
  {
    forall a: Sidebar, b: Sidebar ensures HubLe(a, b) || HubLe(b, a) { TextTotal(a.hubId, b.hubId); }
    forall a: Sidebar, b: Sidebar, c: Sidebar | HubLe(a, b) && HubLe(b, c) ensures HubLe(a, c) {
      TextChains(a.hubId, b.hubId, c.hubId);
    }
  }

  // ── What the merged sidebar is ─────────────────────────────────────────────

  /** The same computers give the same sidebar, in whatever order the record holds them. */
  lemma RecordOrderIsNothing(record: seq<Sidebar>, record': seq<Sidebar>)
    requires OneEach(record) && multiset(record) == multiset(record')
    ensures Merged(record) == Merged(record')
  {
    var a, b := SortBy(record, HubLe), SortBy(record', HubLe);
    HubsOrdered();
    SortOrders(record, HubLe);
    SortOrders(record', HubLe);
    SortPermutes(record, HubLe);
    SortPermutes(record', HubLe);
    forall x, y | x in a && y in a && HubLe(x, y) && HubLe(y, x) ensures x == y {
      TextTotal(x.hubId, y.hubId);
      assert x in multiset(record) && y in multiset(record);
    }
    OrderedPermutations(a, b, HubLe);
  }

  lemma {:induction false} NamesOnce(order: seq<Str>, names: seq<Str>)
    requires Distinct(order)
    ensures Distinct(WithNames(order, names))
    ensures forall d :: d in WithNames(order, names) <==> d in order || d in names
    ensures order <= WithNames(order, names)
  {
    if names != [] {
      NamesOnce(order, names[..|names| - 1]);
      assert names == names[..|names| - 1] + [names[|names| - 1]];
    }
  }

  lemma {:induction false} MergedDesktops(sidebars: seq<Sidebar>)
    ensures Distinct(MergeAll(sidebars).desktopOrder)
    ensures forall d :: d in MergeAll(sidebars).desktopOrder <==>
                          exists h :: 0 <= h < |sidebars| && d in sidebars[h].layout.desktopOrder
  {
    if sidebars != [] {
      var rest := sidebars[..|sidebars| - 1];
      MergedDesktops(rest);
      NamesOnce(MergeAll(rest).desktopOrder, sidebars[|sidebars| - 1].layout.desktopOrder);
      assert forall h :: 0 <= h < |rest| ==> rest[h] == sidebars[h];
    }
  }

  /** The computers of a prefix set the start of the order: later ones only add at the end. */
  lemma {:induction false} EarlierOrderStands(sidebars: seq<Sidebar>, k: nat)
    requires k <= |sidebars|
    ensures MergeAll(sidebars[..k]).desktopOrder <= MergeAll(sidebars).desktopOrder
    decreases |sidebars|
  {
    if k == |sidebars| {
      assert sidebars[..k] == sidebars;
    } else {
      var rest := sidebars[..|sidebars| - 1];
      EarlierOrderStands(rest, k);
      assert rest[..k] == sidebars[..k];
      MergedDesktops(rest);
      NamesOnce(MergeAll(rest).desktopOrder, sidebars[|sidebars| - 1].layout.desktopOrder);
    }
  }

  lemma {:induction false} MergedSeats(sidebars: seq<Sidebar>, id: Str) returns (h: nat)
    ensures h <= |sidebars|
    ensures forall j :: 0 <= j < h ==> id !in sidebars[j].layout.placements
    ensures h < |sidebars| ==> id in sidebars[h].layout.placements
    ensures id in MergeAll(sidebars).placements <==> h < |sidebars|
    ensures h < |sidebars| ==> MergeAll(sidebars).placements[id] == sidebars[h].layout.placements[id]
  {
    h := 0;
    if sidebars != [] {
      var rest := sidebars[..|sidebars| - 1];
      h := MergedSeats(rest, id);
      assert forall j :: 0 <= j < |rest| ==> rest[j] == sidebars[j];
      if h == |rest| && id !in sidebars[h].layout.placements {
        h := |sidebars|;
      }
    }
  }

  /** A session sits where the computer with the least id that seats it puts it; a desktop stands if any names it. */
  lemma LeastComputerWins(record: seq<Sidebar>, id: Str)
    requires OneEach(record)
    ensures Distinct(Merged(record).desktopOrder)
    ensures id in Merged(record).placements <==> exists h :: 0 <= h < |record| && id in record[h].layout.placements
    ensures id in Merged(record).placements ==>
              exists h :: 0 <= h < |record| && id in record[h].layout.placements
                  && Merged(record).placements[id] == record[h].layout.placements[id]
                  && forall j :: 0 <= j < |record| && id in record[j].layout.placements ==> TextLe(record[h].hubId, record[j].hubId)
  {
    var sorted := SortBy(record, HubLe);
    HubsOrdered();
    SortOrders(record, HubLe);
    SortPermutes(record, HubLe);
    MergedDesktops(sorted);
    var s := MergedSeats(sorted, id);
    if s < |sorted| {
      assert sorted[s] in multiset(record);
      var h :| 0 <= h < |record| && record[h] == sorted[s];
      forall j | 0 <= j < |record| && id in record[j].layout.placements ensures TextLe(record[h].hubId, record[j].hubId) {
        LaterIsGreater(record, id, s, j);
      }
    } else {
      forall h | 0 <= h < |record| ensures id !in record[h].layout.placements {
        assert record[h] in multiset(sorted);
      }
    }
  }

  lemma LaterIsGreater(record: seq<Sidebar>, id: Str, s: nat, j: nat)
    requires j < |record| && id in record[j].layout.placements
    requires s < |record| && forall k :: 0 <= k < s ==> id !in SortBy(record, HubLe)[k].layout.placements
    ensures TextLe(SortBy(record, HubLe)[s].hubId, record[j].hubId)
  {
    var sorted := SortBy(record, HubLe);
    HubsOrdered();
    SortOrders(record, HubLe);
    SortPermutes(record, HubLe);
    assert record[j] in multiset(sorted);
    var k :| 0 <= k < |sorted| && sorted[k] == record[j];
    if k == s {
      TextTotal(record[j].hubId, record[j].hubId);
    } else {
      assert s < k && HubLe(sorted[s], sorted[k]);
    }
  }

  /** With sidebars merged from any number of computers, every session is drawn once or counted hidden once. */
  lemma MergedListsOnce(record: seq<Sidebar>, census: seq<CensusRow>, hubs: seq<HubSessions>)
    requires OneEach(record)
    ensures var listing := UnifiedListing(PreferredSources(census, hubs), Merged(record), Sessions(hubs));
            var ids := Ids(Sources(census, hubs));
            && |Flat(listing.groups)| + listing.hidden == |ids|
            && forall id :: CountId(Flat(listing.groups), id) == if id in ids && SeatOf(Merged(record), id).Some? then 1 else 0
  {
    MergedDesktops(SortBy(record, HubLe));
    EverySessionOnce(census, hubs, Merged(record));
  }
}
