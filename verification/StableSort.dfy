/**
 * `Array.prototype.sort` with a consistent comparator: a stable sort (section
 * 23.1.3.30 of ECMA-262). `le(a, b)` says the comparator does not put `b` before `a`.
 */
module StableSort {

  ghost predicate Preorder<T(!new)>(le: (T, T) -> bool) {
    && (forall a, b :: le(a, b) || le(b, a))
    && (forall a, b, c :: le(a, b) && le(b, c) ==> le(a, c))
  }

  predicate Ordered<T>(s: seq<T>, le: (T, T) -> bool) {
    forall i, j :: 0 <= i < j < |s| ==> le(s[i], s[j])
  }

  function Insert<T>(x: T, s: seq<T>, le: (T, T) -> bool): (r: seq<T>)
    ensures |r| == |s| + 1
  {
    if s == [] || le(x, s[0]) then [x] + s else [s[0]] + Insert(x, s[1..], le)
  }

  function SortBy<T>(s: seq<T>, le: (T, T) -> bool): (r: seq<T>)
    ensures |r| == |s|
  {
    if s == [] then [] else Insert(s[0], SortBy(s[1..], le), le)
  }

  predicate Tie<T>(x: T, y: T, le: (T, T) -> bool) { le(x, y) && le(y, x) }

  /** The elements the comparator does not tell from `x`, in order. */
  function Ties<T>(s: seq<T>, x: T, le: (T, T) -> bool): seq<T> {
    if s == [] then []
    else (if Tie(x, s[0], le) then [s[0]] else []) + Ties(s[1..], x, le)
  }

  lemma {:induction false} InsertPermutes<T>(x: T, s: seq<T>, le: (T, T) -> bool)
    ensures multiset(Insert(x, s, le)) == multiset([x]) + multiset(s)
  {
    if s != [] && !le(x, s[0]) {
      InsertPermutes(x, s[1..], le);
      assert s == [s[0]] + s[1..];
    }
  }

  lemma {:induction false} SortPermutes<T>(s: seq<T>, le: (T, T) -> bool)
    ensures multiset(SortBy(s, le)) == multiset(s)
  {
    if s != [] {
      SortPermutes(s[1..], le);
      InsertPermutes(s[0], SortBy(s[1..], le), le);
      assert s == [s[0]] + s[1..];
    }
  }

  lemma {:induction false} InsertOrders<T(!new)>(x: T, s: seq<T>, le: (T, T) -> bool)
    requires Preorder(le) && Ordered(s, le)
    ensures Ordered(Insert(x, s, le), le)
  {
    if s != [] && !le(x, s[0]) {
      var rest := Insert(x, s[1..], le);
      InsertOrders(x, s[1..], le);
      InsertPermutes(x, s[1..], le);
      forall j | 0 <= j < |rest| ensures le(s[0], rest[j]) {
        assert rest[j] in multiset(rest);
        assert rest[j] == x || rest[j] in s[1..];
      }
    }
  }

  lemma {:induction false} SortOrders<T(!new)>(s: seq<T>, le: (T, T) -> bool)
    requires Preorder(le)
    ensures Ordered(SortBy(s, le), le)
  {
    if s != [] {
      SortOrders(s[1..], le);
      InsertOrders(s[0], SortBy(s[1..], le), le);
    }
  }

  lemma TiesHead<T>(x: T, s: seq<T>, y: T, le: (T, T) -> bool)
    ensures Ties([x] + s, y, le) == (if Tie(y, x, le) then [x] else []) + Ties(s, y, le)
  {
    assert ([x] + s)[1..] == s;
  }

  lemma {:induction false} TiesConcat<T>(a: seq<T>, b: seq<T>, x: T, le: (T, T) -> bool)
    ensures Ties(a + b, x, le) == Ties(a, x, le) + Ties(b, x, le)
  {
    if a == [] {
      assert a + b == b;
    } else {
      var y, rest := a[0], a[1..];
      TiesConcat(rest, b, x, le);
      TiesHead(y, rest, x, le);
      TiesHead(y, rest + b, x, le);
      assert a == [y] + rest && a + b == [y] + (rest + b);
    }
  }

  lemma NotBothTies<T(!new)>(x: T, z: T, y: T, le: (T, T) -> bool)
    requires Preorder(le) && !le(x, z)
    ensures !(Tie(y, x, le) && Tie(y, z, le))
  {
  }

  lemma {:induction false} InsertStable<T(!new)>(x: T, s: seq<T>, y: T, le: (T, T) -> bool)
    requires Preorder(le)
    ensures Ties(Insert(x, s, le), y, le) == Ties([x] + s, y, le)
  {
    if s != [] && !le(x, s[0]) {
      var z, rest := s[0], s[1..];
      InsertStable(x, rest, y, le);
      NotBothTies(x, z, y, le);
      TiesHead(z, Insert(x, rest, le), y, le);
      TiesHead(x, rest, y, le);
      TiesHead(x, s, y, le);
    }
  }

  /** Elements the comparator does not tell apart keep their order. */
  lemma {:induction false} SortStable<T(!new)>(s: seq<T>, x: T, le: (T, T) -> bool)
    requires Preorder(le)
    ensures Ties(SortBy(s, le), x, le) == Ties(s, x, le)
  {
    if s != [] {
      SortStable(s[1..], x, le);
      InsertStable(s[0], SortBy(s[1..], le), x, le);
      var sorted := SortBy(s[1..], le);
      assert ([s[0]] + sorted)[1..] == sorted;
    }
  }

  lemma {:induction false} TiesIn<T>(s: seq<T>, x: T, y: T, le: (T, T) -> bool)
    ensures y in Ties(s, x, le) <==> y in s && le(x, y) && le(y, x)
  {
    if s != [] {
      TiesIn(s[1..], x, y, le);
      assert y in s <==> y == s[0] || y in s[1..];
    }
  }

  /** Order and stability leave one answer: any such arrangement is the sort. */
  lemma {:induction false} OnlyOneSort<T(!new)>(a: seq<T>, b: seq<T>, le: (T, T) -> bool)
    requires Preorder(le) && Ordered(a, le) && Ordered(b, le)
    requires forall x :: Ties(a, x, le) == Ties(b, x, le)
    ensures a == b
    decreases |a|
  {
    if a != [] { TiesIn(a, a[0], a[0], le); TiesIn(b, a[0], a[0], le); }
    if b != [] { TiesIn(b, b[0], b[0], le); TiesIn(a, b[0], b[0], le); }
    if a != [] {
      assert le(a[0], b[0]) && le(b[0], a[0]);
      assert Ties(a, a[0], le)[0] == a[0] && Ties(b, a[0], le)[0] == b[0];
      forall x ensures Ties(a[1..], x, le) == Ties(b[1..], x, le) {
        assert Ties(a, x, le) == Ties(b, x, le);
        var head := if le(x, a[0]) && le(a[0], x) then [a[0]] else [];
        assert (head + Ties(a[1..], x, le))[|head|..] == Ties(a[1..], x, le);
        assert (head + Ties(b[1..], x, le))[|head|..] == Ties(b[1..], x, le);
      }
      OnlyOneSort(a[1..], b[1..], le);
      assert a == [a[0]] + a[1..] && b == [b[0]] + b[1..];
    }
  }

  /** The first of an ordered list is `le` to all of it. */
  lemma HeadLeast<T>(s: seq<T>, x: T, le: (T, T) -> bool)
    requires Ordered(s, le) && x in s
    ensures x == s[0] || le(s[0], x)
  {
  }

  lemma TailHolds<T>(s: seq<T>)
    requires s != []
    ensures multiset(s[1..]) == multiset(s) - multiset{s[0]}
  {
    assert s == [s[0]] + s[1..];
  }

  lemma SameHead<T(!new)>(a: seq<T>, b: seq<T>, le: (T, T) -> bool)
    requires Ordered(a, le) && Ordered(b, le) && multiset(a) == multiset(b) && a != []
    requires forall x, y :: x in a && y in a && le(x, y) && le(y, x) ==> x == y
    ensures b != [] && a[0] == b[0]
  {
    assert a[0] in multiset(b);
    assert b[0] in multiset(a);
    HeadLeast(a, b[0], le);
    HeadLeast(b, a[0], le);
  }

  lemma TailsPermute<T>(a: seq<T>, b: seq<T>)
    requires multiset(a) == multiset(b) && a != [] && b != [] && a[0] == b[0]
    ensures multiset(a[1..]) == multiset(b[1..])
  {
    TailHolds(a);
    TailHolds(b);
  }

  /** Where the comparator tells any two elements apart, the order alone leaves one answer. */
  lemma {:induction false} OrderedPermutations<T(!new)>(a: seq<T>, b: seq<T>, le: (T, T) -> bool)
    requires Ordered(a, le) && Ordered(b, le) && multiset(a) == multiset(b)
    requires forall x, y :: x in a && y in a && le(x, y) && le(y, x) ==> x == y
    ensures a == b
    decreases |a|
  {
    if a == [] {
      assert |b| == |multiset(b)|;
    } else {
      SameHead(a, b, le);
      TailsPermute(a, b);
      OrderedPermutations(a[1..], b[1..], le);
      assert a == [a[0]] + a[1..] && b == [b[0]] + b[1..];
    }
  }
}
