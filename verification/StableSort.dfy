/** Sorting by a key that keeps the order of arrival of equal keys, as list.sort does, and
    filters, which commute with it. */
module StableSort {

  // ---- Filters ----

  function Kept<T>(s: seq<T>, keep: T -> bool): seq<T> {
    if s == [] then []
    else
      var front, last := Kept(s[..|s| - 1], keep), s[|s| - 1];
      if keep(last) then front + [last] else front
  }

  ghost predicate Distinct<T(!new)>(s: seq<T>) {
    forall i, j :: 0 <= i < j < |s| ==> s[i] != s[j]
  }

  /** x stands before y. */
  ghost predicate Before<T(!new)>(s: seq<T>, x: T, y: T) {
    exists i, j :: 0 <= i < j < |s| && s[i] == x && s[j] == y
  }

  lemma {:induction false} KeptMembers<T(!new)>(s: seq<T>, keep: T -> bool)
    ensures forall x :: x in Kept(s, keep) <==> x in s && keep(x)
  {
    if s != [] {
      KeptMembers(s[..|s| - 1], keep);
      assert s == s[..|s| - 1] + [s[|s| - 1]];
    }
  }

  lemma {:induction false} KeptDistinct<T(!new)>(s: seq<T>, keep: T -> bool)
    requires Distinct(s)
    ensures Distinct(Kept(s, keep))
  {
    if s != [] {
      KeptDistinct(s[..|s| - 1], keep);
      KeptMembers(s[..|s| - 1], keep);
    }
  }

  lemma {:induction false} KeptBefore<T(!new)>(s: seq<T>, keep: T -> bool, x: T, y: T)
    requires Before(s, x, y) && keep(x) && keep(y)
    ensures Before(Kept(s, keep), x, y)
  {
    var n := |s| - 1;
    var i, j :| 0 <= i < j < |s| && s[i] == x && s[j] == y;
    var front := Kept(s[..n], keep);
    if j == n {
      KeptMembers(s[..n], keep);
      assert s[..n][i] == x;
      var a :| 0 <= a < |front| && front[a] == x;
      assert Kept(s, keep)[a] == x && Kept(s, keep)[|front|] == y;
    } else {
      assert s[..n][i] == x && s[..n][j] == y;
      KeptBefore(s[..n], keep, x, y);
      var a, b :| 0 <= a < b < |front| && front[a] == x && front[b] == y;
      assert Kept(s, keep)[a] == x && Kept(s, keep)[b] == y;
    }
  }

  lemma OneWay<T(!new)>(s: seq<T>, x: T, y: T)
    requires Distinct(s) && Before(s, x, y)
    ensures !Before(s, y, x)
  {
  }

  lemma Opposed<T(!new)>(s: seq<T>, t: seq<T>, x: T, y: T)
    requires Distinct(s) && Before(s, x, y) && Before(t, y, x)
    ensures s != t
  {
    OneWay(s, x, y);
  }

  lemma {:induction false} KeptAll<T>(s: seq<T>, keep: T -> bool)
    requires forall k :: 0 <= k < |s| ==> keep(s[k])
    ensures Kept(s, keep) == s
  {
    if s != [] {
      KeptAll(s[..|s| - 1], keep);
    }
  }

  lemma TwoMembers<T(!new)>(s: seq<T>) returns (x: T, y: T)
    requires Distinct(s) && |s| > 1
    ensures x in s && y in s && x != y
  {
    x, y := s[0], s[1];
  }

  lemma {:induction false} KeptCommute<T>(s: seq<T>, f: T -> bool, g: T -> bool)
    ensures Kept(Kept(s, f), g) == Kept(Kept(s, g), f)
  {
    if s != [] {
      var n := |s| - 1;
      KeptCommute(s[..n], f, g);
      KeptSnoc(Kept(s[..n], f), s[n], g);
      KeptSnoc(Kept(s[..n], g), s[n], f);
    }
  }

  lemma KeptSnoc<T>(s: seq<T>, x: T, keep: T -> bool)
    ensures Kept(s + [x], keep) == Kept(s, keep) + if keep(x) then [x] else []
  {
    assert (s + [x])[..|s + [x]| - 1] == s;
  }

  // ---- Sorting ----

  /** Behind every element whose key is not greater. */
  function Insert<T>(key: T -> int, sorted: seq<T>, x: T): seq<T> {
    if sorted == [] then [x]
    else
      var last := sorted[|sorted| - 1];
      if key(last) <= key(x) then sorted + [x] else Insert(key, sorted[..|sorted| - 1], x) + [last]
  }

  /** The elements inserted in the order of arrival. */
  function Sort<T>(key: T -> int, s: seq<T>): seq<T> {
    if s == [] then [] else Insert(key, Sort(key, s[..|s| - 1]), s[|s| - 1])
  }

  ghost predicate Ascending<T>(key: T -> int, s: seq<T>) {
    forall i, j :: 0 <= i < j < |s| ==> key(s[i]) <= key(s[j])
  }

  function HasKey<T>(key: T -> int, k: int): T -> bool {
    x => key(x) == k
  }

  lemma {:induction false} InsertMembers<T(!new)>(key: T -> int, sorted: seq<T>, x: T)
    ensures forall y :: y in Insert(key, sorted, x) <==> y in sorted || y == x
  {
    if sorted != [] {
      var last := sorted[|sorted| - 1];
      InsertMembers(key, sorted[..|sorted| - 1], x);
      assert sorted == sorted[..|sorted| - 1] + [last];
    }
  }

  lemma {:induction false} InsertAscends<T(!new)>(key: T -> int, sorted: seq<T>, x: T)
    requires Ascending(key, sorted)
    ensures Ascending(key, Insert(key, sorted, x))
  {
    if sorted != [] && key(sorted[|sorted| - 1]) > key(x) {
      var front, last := sorted[..|sorted| - 1], sorted[|sorted| - 1];
      InsertAscends(key, front, x);
      InsertMembers(key, front, x);
      forall y | y in Insert(key, front, x) ensures key(y) <= key(last) {
        if y in front {
          var i :| 0 <= i < |front| && front[i] == y;
          assert sorted[i] == y;
        }
      }
    }
  }

  lemma {:induction false} InsertStable<T>(key: T -> int, sorted: seq<T>, x: T, k: int)
    ensures Kept(Insert(key, sorted, x), HasKey(key, k)) == Kept(sorted, HasKey(key, k)) + if key(x) == k then [x] else []
  {
    var p := HasKey(key, k);
    if sorted == [] {
      KeptSnoc([], x, p);
      assert [] + [x] == [x];
    } else {
      var front, last := sorted[..|sorted| - 1], sorted[|sorted| - 1];
      if key(last) <= key(x) {
        KeptSnoc(sorted, x, p);
      } else {
        InsertStable(key, front, x, k);
        KeptSnoc(Insert(key, front, x), last, p);
      }
    }
  }

  /** The elements come in the order of their keys, and those of one key in the order of arrival. */
  lemma {:induction false} SortIsStable<T(!new)>(key: T -> int, s: seq<T>)
    ensures Ascending(key, Sort(key, s))
    ensures forall k {:trigger HasKey(key, k)} :: Kept(Sort(key, s), HasKey(key, k)) == Kept(s, HasKey(key, k))
  {
    if s != [] {
      var front, last := s[..|s| - 1], s[|s| - 1];
      SortIsStable(key, front);
      InsertAscends(key, Sort(key, front), last);
      forall k ensures Kept(Sort(key, s), HasKey(key, k)) == Kept(s, HasKey(key, k)) {
        InsertStable(key, Sort(key, front), last, k);
        assert Kept(Sort(key, front), HasKey(key, k)) == Kept(front, HasKey(key, k));
      }
    }
  }

  ghost predicate SameByKey<T(!new)>(key: T -> int, a: seq<T>, b: seq<T>) {
    forall k {:trigger HasKey(key, k)} :: Kept(a, HasKey(key, k)) == Kept(b, HasKey(key, k))
  }

  lemma DiffersAt<T(!new)>(key: T -> int, a: seq<T>, b: seq<T>, k: int)
    requires Kept(a, HasKey(key, k)) != Kept(b, HasKey(key, k))
    ensures !SameByKey(key, a, b)
  {
  }

  lemma Mirrored<T(!new)>(key: T -> int, a: seq<T>, b: seq<T>)
    requires SameByKey(key, a, b)
    ensures SameByKey(key, b, a)
  {
    forall k ensures Kept(b, HasKey(key, k)) == Kept(a, HasKey(key, k)) {}
  }

  lemma MemberBoth<T(!new)>(key: T -> int, a: seq<T>, b: seq<T>, x: T)
    requires SameByKey(key, a, b) && x in a
    ensures x in b
  {
    var p := HasKey(key, key(x));
    assert Kept(a, p) == Kept(b, p);
    KeptMembers(a, p);
    KeptMembers(b, p);
  }

  lemma NothingLeft<T(!new)>(key: T -> int, a: seq<T>, b: seq<T>)
    requires SameByKey(key, a, b) && a == []
    ensures b == []
  {
    Mirrored(key, a, b);
    if b != [] {
      MemberBoth(key, b, a, b[|b| - 1]);
    }
  }

  lemma SameEnds<T>(a: seq<T>, x: T, b: seq<T>, y: T)
    requires a + [x] == b + [y]
    ensures a == b && x == y
  {
    assert |a| == |b|;
    assert (a + [x])[|a|] == x && (b + [y])[|b|] == y;
    assert (a + [x])[..|a|] == a && (b + [y])[..|b|] == b;
  }

  lemma SameLast<T(!new)>(key: T -> int, a: seq<T>, b: seq<T>)
    requires Ascending(key, a) && Ascending(key, b) && SameByKey(key, a, b) && a != [] && b != []
    ensures a[|a| - 1] == b[|b| - 1] && SameByKey(key, a[..|a| - 1], b[..|b| - 1])
  {
    var x, y := a[|a| - 1], b[|b| - 1];
    var front, rest := a[..|a| - 1], b[..|b| - 1];
    Mirrored(key, a, b);
    MemberBoth(key, a, b, x);
    MemberBoth(key, b, a, y);
    assert key(x) == key(y);
    var p := HasKey(key, key(x));
    assert Kept(a, p) == Kept(b, p);
    SameEnds(Kept(front, p), x, Kept(rest, p), y);
    forall k ensures Kept(front, HasKey(key, k)) == Kept(rest, HasKey(key, k)) {
      assert Kept(a, HasKey(key, k)) == Kept(b, HasKey(key, k));
    }
  }

  /** That determines the result: whatever is ordered by key and keeps the order of arrival
      is what Sort returns. */
  lemma {:induction false} StableIsUnique<T(!new)>(key: T -> int, a: seq<T>, b: seq<T>)
    requires Ascending(key, a) && Ascending(key, b) && SameByKey(key, a, b)
    ensures a == b
    decreases |a|
  {
    Mirrored(key, a, b);
    if a == [] {
      NothingLeft(key, a, b);
    } else if b == [] {
      NothingLeft(key, b, a);
    } else {
      SameLast(key, a, b);
      StableIsUnique(key, a[..|a| - 1], b[..|b| - 1]);
      assert a == a[..|a| - 1] + [a[|a| - 1]] && b == b[..|b| - 1] + [b[|b| - 1]];
    }
  }

  lemma {:induction false} KeptAscends<T(!new)>(key: T -> int, s: seq<T>, keep: T -> bool)
    requires Ascending(key, s)
    ensures Ascending(key, Kept(s, keep))
  {
    if s != [] {
      var n := |s| - 1;
      KeptAscends(key, s[..n], keep);
      KeptMembers(s[..n], keep);
      forall x | x in Kept(s[..n], keep) ensures key(x) <= key(s[n]) {
        var i :| 0 <= i < n && s[..n][i] == x;
      }
    }
  }

  /** A part of two sorted lists is the same exactly if, key by key, the part arrived in the
      same order. */
  lemma KeptSorted<T(!new)>(key: T -> int, a: seq<T>, b: seq<T>, keep: T -> bool)
    ensures Kept(Sort(key, a), keep) == Kept(Sort(key, b), keep) <==> SameByKey(key, Kept(a, keep), Kept(b, keep))
  {
    SortIsStable(key, a);
    SortIsStable(key, b);
    KeptAscends(key, Sort(key, a), keep);
    KeptAscends(key, Sort(key, b), keep);
    forall k
      ensures Kept(Kept(Sort(key, a), keep), HasKey(key, k)) == Kept(Kept(a, keep), HasKey(key, k))
      ensures Kept(Kept(Sort(key, b), keep), HasKey(key, k)) == Kept(Kept(b, keep), HasKey(key, k))
    {
      Sifted(key, a, keep, k);
      Sifted(key, b, keep, k);
    }
    if SameByKey(key, Kept(a, keep), Kept(b, keep)) {
      StableIsUnique(key, Kept(Sort(key, a), keep), Kept(Sort(key, b), keep));
    }
  }

  lemma Sifted<T(!new)>(key: T -> int, s: seq<T>, keep: T -> bool, k: int)
    ensures Kept(Kept(Sort(key, s), keep), HasKey(key, k)) == Kept(Kept(s, keep), HasKey(key, k))
  {
    SortIsStable(key, s);
    KeptCommute(Sort(key, s), keep, HasKey(key, k));
    KeptCommute(s, keep, HasKey(key, k));
    assert Kept(Sort(key, s), HasKey(key, k)) == Kept(s, HasKey(key, k));
  }
}
