/** The saved strip of key ids: picking, reordering, and what this build can draw of it. */
module KeyTray {
  import opened JsText
  import opened Lists

  type Id = Str

  function Elements(ids: seq<Id>): set<Id> {
    set id | id in ids
  }

  /** `groupKeys`: the ids this build knows, in strip order. */
  function Keep(ids: seq<Id>, known: set<Id>): (r: seq<Id>)
    ensures forall id :: id in r <==> id in ids && id in known
  {
    if ids == [] then []
    else if ids[0] in known then [ids[0]] + Keep(ids[1..], known)
    else Keep(ids[1..], known)
  }

  function ToggleKey(ids: seq<Id>, vocabulary: set<Id>, keyId: Id): seq<Id> {
    if keyId !in vocabulary then ids
    else if keyId in ids then Keep(ids, Elements(ids) - {keyId})
    else ids + [keyId]
  }

  /** `[...new Set(ids)]`: the first of each id, in order. */
  function Deduped(ids: seq<Id>): seq<Id> {
    if ids == [] then []
    else
      var front, last := ids[..|ids| - 1], ids[|ids| - 1];
      if last in front then Deduped(front) else Deduped(front) + [last]
  }

  /** The drawn ids replaced one by one from `order`, counting from `next`. */
  function Reordered(ids: seq<Id>, order: seq<Id>, drawn: set<Id>, next: nat): (r: seq<Id>)
    ensures |r| == |ids|
  {
    if ids == [] then []
    else if ids[0] in drawn then
      [if next < |order| then order[next] else ids[0]] + Reordered(ids[1..], order, drawn, next + 1)
    else [ids[0]] + Reordered(ids[1..], order, drawn, next)
  }

  /** One id is put down; the rest follows. */
  lemma PutDown(done: seq<Id>, ids: seq<Id>, i: nat, order: seq<Id>, drawn: set<Id>, next: nat, whole: seq<Id>)
    requires i < |ids| && done + Reordered(ids[i..], order, drawn, next) == whole
    ensures ids[i] in drawn ==>
              done + [if next < |order| then order[next] else ids[i]] + Reordered(ids[i + 1..], order, drawn, next + 1) == whole
    ensures ids[i] !in drawn ==> done + [ids[i]] + Reordered(ids[i + 1..], order, drawn, next) == whole
  {
    assert ids[i..][0] == ids[i] && ids[i..][1..] == ids[i + 1..];
  }

  method ReorderKeys(ids: seq<Id>, order: seq<Id>) returns (keyIds: seq<Id>)
    ensures keyIds == Reordered(ids, order, Elements(order), 0)
  {
    var drawn := Elements(order);
    ghost var whole := Reordered(ids, order, drawn, 0);
    var next := 0;
    keyIds := [];
    var i := 0;
    assert ids[0..] == ids;
    while i < |ids|
      invariant 0 <= i <= |ids| && next >= 0
      invariant keyIds + Reordered(ids[i..], order, drawn, next) == whole
    {
      PutDown(keyIds, ids, i, order, drawn, next, whole);
      if ids[i] in drawn {
        keyIds := keyIds + [if next < |order| then order[next] else ids[i]];
        next := next + 1;
      } else {
        keyIds := keyIds + [ids[i]];
      }
      i := i + 1;
    }
  }

  // ── What a reorder keeps ───────────────────────────────────────────────────

  lemma {:induction false} KeepDistinct(ids: seq<Id>, known: set<Id>)
    requires Distinct(ids)
    ensures Distinct(Keep(ids, known))
  {
    if ids != [] { KeepDistinct(ids[1..], known); }
  }

  lemma {:induction false} DistinctCounts(a: seq<Id>)
    requires Distinct(a)
    ensures multiset(a) == multiset(Elements(a))
  {
    if a != [] {
      DistinctCounts(a[1..]);
      assert a == [a[0]] + a[1..];
      assert a[0] !in Elements(a[1..]);
      assert Elements(a) == Elements(a[1..]) + {a[0]};
    }
  }

  /** Two duplicate-free rows of the same ids are permutations of each other. */
  lemma SameElements(a: seq<Id>, b: seq<Id>)
    requires Distinct(a) && Distinct(b) && Elements(a) == Elements(b)
    ensures multiset(a) == multiset(b) && |a| == |b|
  {
    DistinctCounts(a);
    DistinctCounts(b);
    assert |a| == |multiset(a)| && |b| == |multiset(b)|;
  }

  lemma KeepHead(id: Id, rest: seq<Id>, known: set<Id>)
    ensures Keep([id] + rest, known) == (if id in known then [id] else []) + Keep(rest, known)
  {
    assert ([id] + rest)[1..] == rest;
  }

  /** The drawn ids of the result are what was left of the order. */
  lemma {:induction false} ReorderedDrawn(ids: seq<Id>, order: seq<Id>, drawn: set<Id>, next: nat)
    requires drawn == Elements(order) && next + |Keep(ids, drawn)| == |order|
    ensures Keep(Reordered(ids, order, drawn, next), drawn) == order[next..]
    decreases |ids|
  {
    if ids != [] {
      var rest := ids[1..];
      if ids[0] in drawn {
        ReorderedDrawn(rest, order, drawn, next + 1);
        KeepHead(order[next], Reordered(rest, order, drawn, next + 1), drawn);
        assert order[next] in order && order[next..] == [order[next]] + order[next + 1..];
      } else {
        ReorderedDrawn(rest, order, drawn, next);
        KeepHead(ids[0], Reordered(rest, order, drawn, next), drawn);
      }
    }
  }

  lemma {:induction false} ReorderedSlot(ids: seq<Id>, order: seq<Id>, drawn: set<Id>, next: nat, i: nat)
    requires i < |ids| && ids[i] !in drawn
    ensures Reordered(ids, order, drawn, next)[i] == ids[i]
    decreases |ids|
  {
    if i > 0 {
      ReorderedSlot(ids[1..], order, drawn, if ids[0] in drawn then next + 1 else next, i - 1);
    }
  }

  lemma ReorderedPlaces(ids: seq<Id>, order: seq<Id>, drawn: set<Id>, next: nat)
    requires drawn == Elements(order) && next + |Keep(ids, drawn)| == |order|
    ensures var r := Reordered(ids, order, drawn, next);
            && Keep(r, drawn) == order[next..]
            && (forall i :: 0 <= i < |ids| && ids[i] !in drawn ==> r[i] == ids[i])
  {
    ReorderedDrawn(ids, order, drawn, next);
    forall i | 0 <= i < |ids| && ids[i] !in drawn ensures Reordered(ids, order, drawn, next)[i] == ids[i] {
      ReorderedSlot(ids, order, drawn, next, i);
    }
  }

  lemma CountHead(xs: seq<Id>, id: Id)
    requires xs != []
    ensures multiset(xs)[id] == multiset(xs[1..])[id] + (if xs[0] == id then 1 else 0)
  {
    assert xs == [xs[0]] + xs[1..];
  }

  /** Counted id by id: what the reorder put in is what `order` had left, for what it drew. */
  lemma {:induction false} ReorderedCounts(ids: seq<Id>, order: seq<Id>, drawn: set<Id>, next: nat, id: Id)
    requires next + |Keep(ids, drawn)| == |order|
    ensures multiset(Reordered(ids, order, drawn, next))[id] + multiset(Keep(ids, drawn))[id]
         == multiset(ids)[id] + multiset(order[next..])[id]
    decreases |ids|
  {
    if ids == [] {
      assert order[next..] == [];
    } else {
      var drew := ids[0] in drawn;
      var r := Reordered(ids, order, drawn, next);
      ReorderedCounts(ids[1..], order, drawn, if drew then next + 1 else next, id);
      CountHead(ids, id);
      CountHead(r, id);
      if drew {
        CountHead(order[next..], id);
        assert order[next..][1..] == order[next + 1..];
        CountHead(Keep(ids, drawn), id);
      }
    }
  }

  /**
   * Putting the strip in the order of its drawn chips is a permutation: the drawn
   * ids follow the chips and an id this build cannot draw keeps its slot.
   */
  lemma ReorderFollowsTheRow(ids: seq<Id>, known: set<Id>, order: seq<Id>)
    requires Distinct(ids) && Distinct(order) && Elements(order) == Elements(Keep(ids, known))
    ensures var r := Reordered(ids, order, Elements(order), 0);
            && multiset(r) == multiset(ids) && Distinct(r)
            && Keep(r, known) == order
            && (forall i :: 0 <= i < |ids| && ids[i] !in known ==> r[i] == ids[i])
  {
    var drawn := Elements(order);
    var r := Reordered(ids, order, drawn, 0);
    assert forall id :: id in drawn <==> id in Elements(Keep(ids, known));
    KeepAgrees(ids, known, drawn);
    KeepDistinct(ids, known);
    SameElements(Keep(ids, drawn), order);
    ReorderedPlaces(ids, order, drawn, 0);
    assert order[0..] == order;
    ReorderPermutes(ids, order, drawn);
    PermutedDistinct(ids, r);
    forall id | id in r ensures id in known <==> id in drawn {
      assert id in multiset(r);
      assert id in ids;
    }
    KeepAgrees(r, known, drawn);
  }

  lemma ReorderPermutes(ids: seq<Id>, order: seq<Id>, drawn: set<Id>)
    requires multiset(Keep(ids, drawn)) == multiset(order) && |Keep(ids, drawn)| == |order|
    ensures multiset(Reordered(ids, order, drawn, 0)) == multiset(ids)
  {
    assert order[0..] == order;
    forall id ensures multiset(Reordered(ids, order, drawn, 0))[id] == multiset(ids)[id] {
      ReorderedCounts(ids, order, drawn, 0, id);
    }
  }

  lemma {:induction false} KeepAgrees(ids: seq<Id>, known: set<Id>, drawn: set<Id>)
    requires forall id :: id in ids ==> (id in known <==> id in drawn)
    ensures Keep(ids, known) == Keep(ids, drawn)
  {
    if ids != [] { KeepAgrees(ids[1..], known, drawn); }
  }

  lemma PermutedDistinct(a: seq<Id>, b: seq<Id>)
    requires Distinct(a) && multiset(a) == multiset(b)
    ensures Distinct(b)
  {
    forall i, j | 0 <= i < j < |b| ensures b[i] != b[j] {
      if b[i] == b[j] {
        assert b == b[..i] + [b[i]] + b[i + 1..j] + [b[j]] + b[j + 1..];
        assert multiset(a)[b[i]] >= 2;
        DistinctCount(a, b[i]);
        assert false;
      }
    }
  }

  lemma {:induction false} DistinctCount(a: seq<Id>, id: Id)
    requires Distinct(a)
    ensures multiset(a)[id] <= 1
  {
    if a != [] {
      DistinctCount(a[1..], id);
      assert a == [a[0]] + a[1..];
    }
  }

  /** A row left in the order it was drawn in changes nothing. */
  lemma {:induction false} ReorderInPlace(ids: seq<Id>, order: seq<Id>, drawn: set<Id>, next: nat)
    requires next <= |order| && order[next..] == Keep(ids, drawn)
    ensures Reordered(ids, order, drawn, next) == ids
  {
    if ids != [] {
      if ids[0] in drawn {
        assert order[next] == order[next..][0] == ids[0];
        assert order[next + 1..] == order[next..][1..];
        ReorderInPlace(ids[1..], order, drawn, next + 1);
      } else {
        ReorderInPlace(ids[1..], order, drawn, next);
      }
    }
  }

  // ── Each id at most once, whoever wrote the store ──────────────────────────

  /** Where an id first stands. */
  function FirstAt(ids: seq<Id>, id: Id): (k: nat)
    ensures k <= |ids| && (k < |ids| ==> ids[k] == id) && forall i :: 0 <= i < k ==> ids[i] != id
  {
    if ids == [] || ids[0] == id then 0 else 1 + FirstAt(ids[1..], id)
  }

  lemma FirstAtFront(front: seq<Id>, last: Id, id: Id)
    ensures id in front ==> FirstAt(front + [last], id) == FirstAt(front, id) < |front|
    ensures last !in front ==> FirstAt(front + [last], last) == |front|
  {
    var all := front + [last];
    var k, m, n := FirstAt(all, id), FirstAt(front, id), FirstAt(all, last);
    assert all[|front|] == last && forall i :: 0 <= i < |front| ==> all[i] == front[i];
    if id in front {
      assert all[m] == id && front[k] == id;
    }
    assert n < |front| ==> front[n] == last;
  }

  /** The first of each id is kept, in the order the ids first appear. */
  lemma {:induction false} DedupedInOrder(ids: seq<Id>)
    ensures forall a, b :: 0 <= a < b < |Deduped(ids)| ==> FirstAt(ids, Deduped(ids)[a]) < FirstAt(ids, Deduped(ids)[b])
  {
    if ids != [] {
      var front, last := ids[..|ids| - 1], ids[|ids| - 1];
      var kept := Deduped(front);
      assert ids == front + [last];
      DedupedInOrder(front);
      DedupedKeepsFirsts(front);
      FirstAtFront(front, last, last);
      forall a | 0 <= a < |kept| ensures FirstAt(ids, kept[a]) == FirstAt(front, kept[a]) < |front| {
        assert kept[a] in Elements(kept) && kept[a] in Elements(front);
        FirstAtFront(front, last, kept[a]);
      }
    }
  }

  lemma {:induction false} DedupedKeepsFirsts(ids: seq<Id>)
    ensures Distinct(Deduped(ids)) && Elements(Deduped(ids)) == Elements(ids)
    ensures Distinct(ids) ==> Deduped(ids) == ids
  {
    if ids != [] {
      var front, last := ids[..|ids| - 1], ids[|ids| - 1];
      DedupedKeepsFirsts(front);
      assert ids == front + [last];
      assert Elements(ids) == Elements(front) + {last};
      assert last in Deduped(front) <==> last in Elements(Deduped(front));
      assert last !in front ==> Elements(Deduped(front) + [last]) == Elements(Deduped(front)) + {last};
    }
  }

  lemma ToggleKeepsDistinct(ids: seq<Id>, vocabulary: set<Id>, keyId: Id)
    requires Distinct(ids)
    ensures Distinct(ToggleKey(ids, vocabulary, keyId))
    ensures keyId in vocabulary && keyId !in ids ==>
              ToggleKey(ToggleKey(ids, vocabulary, keyId), vocabulary, keyId) == ids
  {
    KeepDistinct(ids, Elements(ids) - {keyId});
    if keyId in vocabulary && keyId !in ids {
      KeepAllButLast(ids, keyId, Elements(ids + [keyId]) - {keyId});
    }
  }

  /** Pressing a key the build does not know does nothing; one on the strip is taken out and no other moves; a new one goes last. */
  lemma TogglePuts(ids: seq<Id>, vocabulary: set<Id>, keyId: Id, k: nat)
    requires Distinct(ids)
    ensures var r := ToggleKey(ids, vocabulary, keyId);
            && (keyId !in vocabulary ==> r == ids)
            && (keyId in vocabulary && keyId !in ids ==> r == ids + [keyId])
            && (keyId in vocabulary && k < |ids| && ids[k] == keyId ==> r == ids[..k] + ids[k + 1..])
  {
    if k < |ids| && ids[k] == keyId { KeepOthers(ids, keyId, k, Elements(ids) - {keyId}); }
  }

  lemma {:induction false} KeepOthers(ids: seq<Id>, keyId: Id, k: nat, known: set<Id>)
    requires Distinct(ids) && k < |ids| && ids[k] == keyId && keyId !in known
    requires forall id :: id in ids && id != keyId ==> id in known
    ensures Keep(ids, known) == ids[..k] + ids[k + 1..]
  {
    var rest := ids[1..];
    if k == 0 {
      KeepAll(rest, known);
      assert ids[..0] + ids[1..] == rest;
    } else {
      KeepOthers(rest, keyId, k - 1, known);
      assert [ids[0]] + (rest[..k - 1] + rest[k..]) == ids[..k] + ids[k + 1..];
    }
  }

  lemma {:induction false} KeepAll(ids: seq<Id>, known: set<Id>)
    requires forall id :: id in ids ==> id in known
    ensures Keep(ids, known) == ids
  {
    if ids != [] {
      KeepAll(ids[1..], known);
      assert ids == [ids[0]] + ids[1..];
    }
  }

  /** How many of these ids are known. */
  function Known(ids: seq<Id>, known: set<Id>): nat {
    if ids == [] then 0 else (if ids[0] in known then 1 else 0) + Known(ids[1..], known)
  }

  /** Each known id is drawn, at its place among the known ones. */
  lemma {:induction false} KeepInOrder(ids: seq<Id>, known: set<Id>, i: nat)
    requires i < |ids|
    ensures |Keep(ids, known)| == Known(ids, known)
    ensures ids[i] in known ==>
              Known(ids[..i], known) < |Keep(ids, known)| && Keep(ids, known)[Known(ids[..i], known)] == ids[i]
  {
    KeepCounts(ids, known);
    if i > 0 {
      KeepInOrder(ids[1..], known, i - 1);
      assert ids[..i][1..] == ids[1..][..i - 1];
    }
  }

  lemma {:induction false} KeepCounts(ids: seq<Id>, known: set<Id>)
    ensures |Keep(ids, known)| == Known(ids, known)
  {
    if ids != [] { KeepCounts(ids[1..], known); }
  }

  lemma {:induction false} KeepAllButLast(ids: seq<Id>, keyId: Id, known: set<Id>)
    requires keyId !in known && forall id :: id in ids ==> id in known
    ensures Keep(ids + [keyId], known) == ids
  {
    if ids == [] {
      assert (ids + [keyId])[1..] == [];
    } else {
      assert (ids + [keyId])[1..] == ids[1..] + [keyId];
      KeepAllButLast(ids[1..], keyId, known);
    }
  }
}
