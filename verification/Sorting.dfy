/** Stable sorting by a comparison: the model of the built-in `sort` / `sorted` calls
    that the media worker and the API make on small lists. */
module Sorting {

  ghost predicate TotalPreorder<T(!new)>(le: (T, T) -> bool) {
    && (forall a, b :: le(a, b) || le(b, a))
    && (forall a, b, c :: le(a, b) && le(b, c) ==> le(a, c))
  }

  ghost predicate Sorted<T>(le: (T, T) -> bool, s: seq<T>) {
    forall i, j | 0 <= i < j < |s| :: le(s[i], s[j])
  }

  function Insert<T>(le: (T, T) -> bool, x: T, s: seq<T>): seq<T> {
    if s == [] || le(x, s[0]) then [x] + s else [s[0]] + Insert(le, x, s[1..])
  }

  /** Insertion from the right keeps elements that compare equal in their old order. */
  function StableSort<T>(le: (T, T) -> bool, s: seq<T>): seq<T> {
    if s == [] then [] else Insert(le, s[0], StableSort(le, s[1..]))
  }

  lemma {:induction false} InsertPermutes<T>(le: (T, T) -> bool, x: T, s: seq<T>)
    ensures multiset(Insert(le, x, s)) == multiset(s) + multiset{x}
  {
    if s != [] && !le(x, s[0]) {
      InsertPermutes(le, x, s[1..]);
      assert s == [s[0]] + s[1..];
    }
  }

  lemma {:induction false} SortPermutes<T>(le: (T, T) -> bool, s: seq<T>)
    ensures multiset(StableSort(le, s)) == multiset(s)
    ensures |StableSort(le, s)| == |s|
  {
    if s != [] {
      SortPermutes(le, s[1..]);
      InsertPermutes(le, s[0], StableSort(le, s[1..]));
      assert s == [s[0]] + s[1..];
    }
    assert |multiset(StableSort(le, s))| == |multiset(s)|;
  }

  lemma SortKeepsElements<T>(le: (T, T) -> bool, s: seq<T>, x: T)
    ensures x in StableSort(le, s) <==> x in s
  {
    SortPermutes(le, s);
    assert x in StableSort(le, s) <==> x in multiset(StableSort(le, s));
    assert x in s <==> x in multiset(s);
  }

  lemma {:induction false} InsertSorts<T(!new)>(le: (T, T) -> bool, x: T, s: seq<T>)
    requires TotalPreorder(le) && Sorted(le, s)
    ensures Sorted(le, Insert(le, x, s))
  {
    if s != [] && !le(x, s[0]) {
      InsertSorts(le, x, s[1..]);
      InsertPermutes(le, x, s[1..]);
      var r := Insert(le, x, s[1..]);
      forall j | 0 <= j < |r| ensures le(s[0], r[j]) {
        assert r[j] in multiset(r);
        assert r[j] == x || r[j] in multiset(s[1..]);
      }
    }
  }

  lemma {:induction false} SortSorts<T(!new)>(le: (T, T) -> bool, s: seq<T>)
    requires TotalPreorder(le)
    ensures Sorted(le, StableSort(le, s))
  {
    if s != [] {
      SortSorts(le, s[1..]);
      InsertSorts(le, s[0], StableSort(le, s[1..]));
    }
  }

  /** Where an insertion lands: behind everything strictly smaller, before the first
      element that is not. */
  lemma {:induction false} InsertSplits<T(!new)>(le: (T, T) -> bool, x: T, s: seq<T>) returns (p: seq<T>, q: seq<T>)
    ensures s == p + q && Insert(le, x, s) == p + [x] + q
    ensures forall i | 0 <= i < |p| :: !le(x, p[i])
    ensures q == [] || le(x, q[0])
  {
    if s == [] || le(x, s[0]) {
      p, q := [], s;
    } else {
      var p';
      p', q := InsertSplits(le, x, s[1..]);
      p := [s[0]] + p';
      assert p + q == [s[0]] + (p' + q);
      assert p + [x] + q == [s[0]] + (p' + [x] + q);
    }
  }

  ghost predicate StrictlySorted<T>(le: (T, T) -> bool, s: seq<T>) {
    forall i, j | 0 <= i < j < |s| :: le(s[i], s[j]) && !le(s[j], s[i])
  }

  ghost predicate Tied<T>(le: (T, T) -> bool, x: T, y: T) {
    le(x, y) && le(y, x)
  }

  ghost predicate TieFree<T>(le: (T, T) -> bool, s: seq<T>) {
    forall i, j | 0 <= i < j < |s| :: !Tied(le, s[i], s[j])
  }

  lemma {:induction false} InsertStrict<T(!new)>(le: (T, T) -> bool, x: T, s: seq<T>)
    requires TotalPreorder(le) && StrictlySorted(le, s)
    requires forall i | 0 <= i < |s| :: !Tied(le, x, s[i])
    ensures StrictlySorted(le, Insert(le, x, s))
  {
    if s == [] {
    } else if le(x, s[0]) {
      forall j | 0 <= j < |s| ensures le(x, s[j]) && !le(s[j], x) {
        assert le(s[0], s[j]);
        assert !Tied(le, x, s[j]);
      }
    } else {
      InsertStrict(le, x, s[1..]);
      var p, q := InsertSplits(le, x, s[1..]);
      forall y | y in p + [x] + q ensures le(s[0], y) && !le(y, s[0]) {
        if y != x {
          assert y in s[1..];
          var k :| 0 <= k < |s[1..]| && s[1..][k] == y;
          assert s[k + 1] == y;
        }
      }
    }
  }

  /** Elements that never tie are sorted into a strictly increasing list. */
  lemma {:induction false} SortStrict<T(!new)>(le: (T, T) -> bool, s: seq<T>)
    requires TotalPreorder(le) && TieFree(le, s)
    ensures StrictlySorted(le, StableSort(le, s))
  {
    if s != [] {
      SortStrict(le, s[1..]);
      var r := StableSort(le, s[1..]);
      forall i | 0 <= i < |r| ensures !Tied(le, s[0], r[i]) {
        assert r[i] in r;
        SortKeepsElements(le, s[1..], r[i]);
        var k :| 0 <= k < |s[1..]| && s[1..][k] == r[i];
        assert s[k + 1] == r[i];
      }
      InsertStrict(le, s[0], r);
    }
  }

  /** Two sorted lists with the same elements are equal when no two different elements tie. */
  lemma {:induction false} StrictlySortedUnique<T(!new)>(le: (T, T) -> bool, a: seq<T>, b: seq<T>)
    requires forall x | x in a :: x in b
    requires forall x | x in b :: x in a
    requires StrictlySorted(le, a) && StrictlySorted(le, b)
    ensures a == b
  {
    if b != [] {
      assert b[0] in a;
    }
    if a != [] {
      assert a[0] in b;
      assert b[0] in a;
      var i :| 0 <= i < |b| && b[i] == a[0];
      var j :| 0 <= j < |a| && a[j] == b[0];
      assert i == 0 && j == 0;
      forall x | x in a[1..] ensures x in b[1..] {
        var k :| 0 <= k < |a[1..]| && a[1..][k] == x;
        assert a[k + 1] == x && x in b;
        var m :| 0 <= m < |b| && b[m] == x;
        assert m != 0;
        assert b[1..][m - 1] == x;
      }
      forall x | x in b[1..] ensures x in a[1..] {
        var k :| 0 <= k < |b[1..]| && b[1..][k] == x;
        assert b[k + 1] == x && x in a;
        var m :| 0 <= m < |a| && a[m] == x;
        assert m != 0;
        assert a[1..][m - 1] == x;
      }
      StrictlySortedUnique(le, a[1..], b[1..]);
    }
  }

  lemma {:induction false} SortedHeadsEqual<T(!new)>(le: (T, T) -> bool, a: seq<T>, b: seq<T>)
    requires StrictlySorted(le, a) && Sorted(le, b) && a != [] && b != []
    requires a[0] in b && b[0] in a
    ensures a[0] == b[0]
  {
    var k :| 0 <= k < |a| && a[k] == b[0];
    var m :| 0 <= m < |b| && b[m] == a[0];
    assert m > 0 ==> le(b[0], b[m]);
    assert k > 0 ==> !le(a[k], a[0]);
  }

  lemma {:induction false} TailMultiset<T>(s: seq<T>)
    requires s != []
    ensures multiset(s[1..]) == multiset(s) - multiset{s[0]}
  {
    assert s == [s[0]] + s[1..];
  }

  /** A strictly sorted list is the only sorted arrangement of its elements. */
  lemma {:induction false} SortedPermutationUnique<T(!new)>(le: (T, T) -> bool, a: seq<T>, b: seq<T>)
    requires StrictlySorted(le, a) && Sorted(le, b) && multiset(a) == multiset(b)
    ensures a == b
  {
    assert |multiset(a)| == |a| && |multiset(b)| == |b|;
    if a != [] {
      assert a[0] in multiset(b) && b[0] in multiset(a);
      SortedHeadsEqual(le, a, b);
      TailMultiset(a);
      TailMultiset(b);
      SortedPermutationUnique(le, a[1..], b[1..]);
      assert a == [a[0]] + a[1..] && b == [b[0]] + b[1..];
    }
  }

  /** Reordering elements that never tie does not change how they sort. */
  lemma {:induction false} SortIgnoresOrder<T(!new)>(le: (T, T) -> bool, a: seq<T>, b: seq<T>)
    requires TotalPreorder(le) && TieFree(le, a) && multiset(a) == multiset(b)
    ensures StableSort(le, a) == StableSort(le, b)
  {
    SortPermutes(le, a);
    SortPermutes(le, b);
    SortStrict(le, a);
    SortSorts(le, b);
    SortedPermutationUnique(le, StableSort(le, a), StableSort(le, b));
  }

  lemma {:induction false} SortPair<T>(le: (T, T) -> bool, x: T, y: T, s: seq<T>)
    ensures StableSort(le, [x, y] + s) == Insert(le, x, Insert(le, y, StableSort(le, s)))
  {
    assert ([x, y] + s)[1..] == [y] + s && ([y] + s)[1..] == s;
  }

  lemma {:induction false} InsertPair<T(!new)>(le: (T, T) -> bool, x: T, y: T, p: seq<T>, q: seq<T>)
    requires forall i | 0 <= i < |p| :: !le(x, p[i]) && !le(y, p[i])
    requires le(x, y) && (q == [] || le(y, q[0]))
    ensures Insert(le, x, Insert(le, y, p + q)) == p + [x, y] + q
  {
    InsertAt(le, y, p, q);
    assert p + [y] + q == p + ([y] + q);
    InsertAt(le, x, p, [y] + q);
    assert p + [x] + ([y] + q) == p + [x, y] + q;
  }

  /** Two tied elements leave the sort in the order they entered it. */
  lemma {:induction false} SortKeepsTiedOrder<T(!new)>(le: (T, T) -> bool, x: T, y: T, s: seq<T>)
    returns (p: seq<T>, q: seq<T>)
    requires TotalPreorder(le) && Tied(le, x, y)
    ensures StableSort(le, [x, y] + s) == p + [x, y] + q
    ensures StableSort(le, [y, x] + s) == p + [y, x] + q
  {
    p, q := InsertSplits(le, x, StableSort(le, s));
    SortPair(le, x, y, s);
    SortPair(le, y, x, s);
    InsertPair(le, x, y, p, q);
    InsertPair(le, y, x, p, q);
  }

  lemma {:induction false} InsertAt<T(!new)>(le: (T, T) -> bool, x: T, p: seq<T>, q: seq<T>)
    requires forall i | 0 <= i < |p| :: !le(x, p[i])
    requires q == [] || le(x, q[0])
    ensures Insert(le, x, p + q) == p + [x] + q
  {
    if p == [] {
      assert p + q == q && p + [x] + q == [x] + q;
    } else {
      assert (p + q)[1..] == p[1..] + q;
      InsertAt(le, x, p[1..], q);
      assert p + [x] + q == [p[0]] + (p[1..] + [x] + q);
    }
  }

  /** What is sorted already stays as it is. */
  lemma {:induction false} SortedStays<T>(le: (T, T) -> bool, s: seq<T>)
    requires Sorted(le, s)
    ensures StableSort(le, s) == s
  {
    if s != [] {
      SortedStays(le, s[1..]);
      assert s == [s[0]] + s[1..];
    }
  }

  /** The elements that compare equal to x, in order. */
  function TiedWith<T>(le: (T, T) -> bool, x: T, s: seq<T>): seq<T> {
    if s == [] then []
    else if le(x, s[0]) && le(s[0], x) then [s[0]] + TiedWith(le, x, s[1..])
    else TiedWith(le, x, s[1..])
  }

  lemma {:induction false} InsertStable<T(!new)>(le: (T, T) -> bool, x: T, y: T, s: seq<T>)
    requires TotalPreorder(le)
    ensures TiedWith(le, x, Insert(le, y, s)) == TiedWith(le, x, [y] + s)
  {
    if s != [] && !le(y, s[0]) {
      InsertStable(le, x, y, s[1..]);
      assert ([s[0]] + Insert(le, y, s[1..]))[1..] == Insert(le, y, s[1..]);
      assert ([y] + s[1..])[1..] == s[1..] && ([y] + s)[1..] == s;
    }
  }

  /** The sort is stable: whatever compares equal stays in its order. */
  lemma {:induction false} SortStable<T(!new)>(le: (T, T) -> bool, x: T, s: seq<T>)
    requires TotalPreorder(le)
    ensures TiedWith(le, x, StableSort(le, s)) == TiedWith(le, x, s)
  {
    if s != [] {
      SortStable(le, x, s[1..]);
      InsertStable(le, x, s[0], StableSort(le, s[1..]));
      assert ([s[0]] + StableSort(le, s[1..]))[1..] == StableSort(le, s[1..]);
    }
  }
}
