/** From the walk to the list of entries: what the order in which the pools finish leaves
    open, and when it leaves nothing open. */
module ScanOrder {
  import opened Scanner
  import opened StableSort

  /** The files, which do not change, and the place of each casefolded path among the others. */
  datatype Files = Files(look: string -> Looked, itemId: string -> string, pathKey: string -> string,
                         rank: string -> int, process: string -> Processed)

  function Found(paths: seq<string>, files: Files, order: seq<nat>): seq<Candidate>
    requires Within(order, |paths|)
  {
    FoundIn(paths, files.look, files.itemId, files.pathKey, order)
  }

  function ByPath(rank: string -> int): Candidate -> int {
    (c: Candidate) => rank(c.path)
  }

  /** candidates.sort by casefolded path, and the new positions. */
  function SortCandidates(rank: string -> int, found: seq<Candidate>): (sorted: seq<Candidate>)
    ensures forall k :: 0 <= k < |sorted| ==> sorted[k].position == k
  {
    var ranked := Sort(ByPath(rank), found);
    seq(|ranked|, k requires 0 <= k < |ranked| => ranked[k].(position := k))
  }

  /** The entries of a scan whose stats finished in this order. */
  function Listing(paths: seq<string>, files: Files, cache: Cache, order: seq<nat>): seq<ScanEntry>
    requires Within(order, |paths|)
  {
    Listed(cache, files.process, SortCandidates(files.rank, Found(paths, files, order)))
  }

  /** scan, from the walked paths on: stat in one pool, sort, and hash in another. */
  method ScanFiles(paths: seq<string>, files: Files, workers: nat, writeBatch: nat, statPick: Pick, hashPick: Pick, cache: Cache)
    returns (raised: bool, entries: seq<ScanEntry>, seen: set<string>, after: Cache, ghost order: seq<nat>)
    requires workers >= 1 && Fair(statPick) && Fair(hashPick)
    ensures seen == set k | 0 <= k < |paths| :: files.itemId(paths[k])
    ensures Completes(order, |paths|, workers * 8)
    ensures raised <==> SomeRaised(StaleItems(cache, SortCandidates(files.rank, Found(paths, files, order))), files.process)
    ensures !raised ==>
      && entries == Listing(paths, files, cache, order)
      && ScanResult(cache, files.process, SortCandidates(files.rank, Found(paths, files, order)), entries, after)
  {
    var found, unread, skipped, cached, hashed, failed;
    found, seen, unread, skipped, order := StatCandidates(paths, files.look, files.itemId, files.pathKey, workers, statPick);
    var sorted := SortCandidates(files.rank, found);
    raised, entries, cached, hashed, failed, after := Scan(sorted, files.process, workers, writeBatch, hashPick, cache);
  }

  // ---- The same on paths ----

  function Names(found: seq<Candidate>): (names: seq<string>)
    ensures |names| == |found|
  {
    seq(|found|, k requires 0 <= k < |found| => found[k].path)
  }

  function Picked(paths: seq<string>, order: seq<nat>): (picked: seq<string>)
    requires Within(order, |paths|)
    ensures |picked| == |order| && forall k :: 0 <= k < |order| ==> picked[k] == paths[order[k]]
  {
    seq(|order|, k requires 0 <= k < |order| => paths[order[k]])
  }

  function IsReadable(files: Files): string -> bool {
    path => files.look(path).Readable?
  }

  /** The readable paths in the order their stat finished. */
  function Arrived(paths: seq<string>, files: Files, order: seq<nat>): seq<string>
    requires Within(order, |paths|)
  {
    Kept(Picked(paths, order), IsReadable(files))
  }

  function CandidateOf(files: Files, path: string, position: nat): Candidate
    requires files.look(path).Readable?
  {
    CandidateFor(path, files.itemId, files.pathKey, position, files.look(path))
  }

  function CandidatesOf(files: Files, paths: seq<string>): (r: seq<Candidate>)
    requires forall k :: 0 <= k < |paths| ==> files.look(paths[k]).Readable?
    ensures |r| == |paths| && forall k :: 0 <= k < |paths| ==> r[k] == CandidateOf(files, paths[k], k)
  {
    seq(|paths|, k requires 0 <= k < |paths| => CandidateOf(files, paths[k], k))
  }

  ghost predicate AreOf(files: Files, found: seq<Candidate>) {
    forall c :: c in found ==> files.look(c.path).Readable? && c == CandidateOf(files, c.path, c.position)
  }

  lemma {:induction false} FoundNames(paths: seq<string>, files: Files, order: seq<nat>)
    requires Within(order, |paths|)
    ensures Names(Found(paths, files, order)) == Arrived(paths, files, order) && AreOf(files, Found(paths, files, order))
  {
    if order != [] {
      var n := |order| - 1;
      FoundNames(paths, files, order[..n]);
      assert Picked(paths, order)[..n] == Picked(paths, order[..n]);
    }
  }

  lemma {:induction false} InsertNames(rank: string -> int, sorted: seq<Candidate>, c: Candidate)
    ensures Names(Insert(ByPath(rank), sorted, c)) == Insert(rank, Names(sorted), c.path)
  {
    if sorted != [] {
      InsertNames(rank, sorted[..|sorted| - 1], c);
      assert Names(sorted)[..|sorted| - 1] == Names(sorted[..|sorted| - 1]);
    }
  }

  lemma {:induction false} SortNames(rank: string -> int, found: seq<Candidate>)
    ensures Names(Sort(ByPath(rank), found)) == Sort(rank, Names(found))
    ensures forall c :: c in Sort(ByPath(rank), found) <==> c in found
  {
    if found != [] {
      var front, last := found[..|found| - 1], found[|found| - 1];
      SortNames(rank, front);
      InsertNames(rank, Sort(ByPath(rank), front), last);
      InsertMembers(ByPath(rank), Sort(ByPath(rank), front), last);
      assert Names(found)[..|found| - 1] == Names(front);
      assert found == front + [last];
    }
  }

  /** The sorted candidates are those of the sorted paths. */
  lemma SortedByName(paths: seq<string>, files: Files, order: seq<nat>)
    requires Within(order, |paths|)
    ensures var ranked := Sort(files.rank, Arrived(paths, files, order));
      && (forall k :: 0 <= k < |ranked| ==> files.look(ranked[k]).Readable?)
      && SortCandidates(files.rank, Found(paths, files, order)) == CandidatesOf(files, ranked)
  {
    FoundNames(paths, files, order);
    SortNames(files.rank, Found(paths, files, order));
    var ranked := Sort(ByPath(files.rank), Found(paths, files, order));
    forall k | 0 <= k < |ranked|
      ensures files.look(ranked[k].path).Readable? && ranked[k].(position := k) == CandidateOf(files, ranked[k].path, k)
      ensures Names(ranked)[k] == ranked[k].path
    {
      assert ranked[k] in Found(paths, files, order);
    }
  }

  // ---- The entries ----

  function IsListed(files: Files, cache: Cache): string -> bool {
    path => files.look(path).Readable? && EntryOf(cache, files.process, CandidateOf(files, path, 0)).Some?
  }

  function EntryAt(files: Files, cache: Cache, path: string): (entry: ScanEntry)
    requires IsListed(files, cache)(path)
    ensures entry.path == path
  {
    EntryOf(cache, files.process, CandidateOf(files, path, 0)).value
  }

  lemma {:induction false} ListedPaths(files: Files, cache: Cache, paths: seq<string>)
    requires forall k :: 0 <= k < |paths| ==> files.look(paths[k]).Readable?
    ensures var listed, kept := Listed(cache, files.process, CandidatesOf(files, paths)), Kept(paths, IsListed(files, cache));
      && |listed| == |kept|
      && forall k :: 0 <= k < |kept| ==> IsListed(files, cache)(kept[k]) && listed[k] == EntryAt(files, cache, kept[k])
  {
    if paths != [] {
      var n := |paths| - 1;
      ListedPaths(files, cache, paths[..n]);
      assert CandidatesOf(files, paths)[..n] == CandidatesOf(files, paths[..n]);
    }
  }

  /** The sorted paths of one kind. */
  function Shown(paths: seq<string>, files: Files, order: seq<nat>, kind: string -> bool): seq<string>
    requires Within(order, |paths|)
  {
    Kept(Sort(files.rank, Arrived(paths, files, order)), kind)
  }

  /** Two listings are the same exactly if they list the same paths. */
  lemma ListingsCompare(paths1: seq<string>, o1: seq<nat>, paths2: seq<string>, o2: seq<nat>, files: Files, cache: Cache)
    requires Within(o1, |paths1|) && Within(o2, |paths2|)
    ensures Listing(paths1, files, cache, o1) == Listing(paths2, files, cache, o2) <==>
      Shown(paths1, files, o1, IsListed(files, cache)) == Shown(paths2, files, o2, IsListed(files, cache))
  {
    SortedByName(paths1, files, o1);
    SortedByName(paths2, files, o2);
    ListedPaths(files, cache, Sort(files.rank, Arrived(paths1, files, o1)));
    ListedPaths(files, cache, Sort(files.rank, Arrived(paths2, files, o2)));
    var a, b := Shown(paths1, files, o1, IsListed(files, cache)), Shown(paths2, files, o2, IsListed(files, cache));
    if Listing(paths1, files, cache, o1) == Listing(paths2, files, cache, o2) {
      forall k | 0 <= k < |a| ensures a[k] == b[k] {
        assert EntryAt(files, cache, a[k]).path == EntryAt(files, cache, b[k]).path;
      }
    }
  }

  // ---- Without ties the order is forgotten ----

  /** No two different readable paths of this kind have the same casefolded path. */
  ghost predicate TieFree(paths: seq<string>, files: Files, kind: string -> bool) {
    forall i, j {:trigger paths[i], paths[j]} ::
      0 <= i < j < |paths| && Counts(files, kind, paths[i]) && Counts(files, kind, paths[j]) ==>
        files.rank(paths[i]) != files.rank(paths[j])
  }

  predicate Counts(files: Files, kind: string -> bool, path: string) {
    IsReadable(files)(path) && kind(path)
  }

  lemma ArrivedOnce(paths: seq<string>, files: Files, order: seq<nat>)
    requires Distinct(paths) && IsOrder(order, |paths|)
    ensures Distinct(Arrived(paths, files, order))
    ensures forall path :: path in Arrived(paths, files, order) <==> path in paths && IsReadable(files)(path)
  {
    var picked := Picked(paths, order);
    KeptDistinct(picked, IsReadable(files));
    KeptMembers(picked, IsReadable(files));
    forall path | path in paths ensures path in picked {
      var i: nat :| i < |paths| && paths[i] == path;
      assert i in order;
      var k :| 0 <= k < |order| && order[k] == i;
      assert picked[k] == path;
    }
  }

  lemma AtMostOne(a: seq<string>, b: seq<string>)
    requires Distinct(a) && Distinct(b) && forall x :: x in a <==> x in b
    requires forall x, y :: x in a && y in a ==> x == y
    ensures a == b
  {
    if |a| > 1 { var x, y := TwoMembers(a); }
    if |b| > 1 { var x, y := TwoMembers(b); }
    assert |a| > 0 ==> a[0] in b;
    assert |b| > 0 ==> b[0] in a;
  }

  lemma TieFreeByKey(rank: string -> int, a: seq<string>, b: seq<string>, kind: string -> bool)
    requires Distinct(a) && Distinct(b) && forall x :: x in a <==> x in b
    requires forall x, y :: x in a && y in a && kind(x) && kind(y) && x != y ==> rank(x) != rank(y)
    ensures SameByKey(rank, Kept(a, kind), Kept(b, kind))
  {
    KeptDistinct(a, kind);
    KeptDistinct(b, kind);
    KeptMembers(a, kind);
    KeptMembers(b, kind);
    forall k ensures Kept(Kept(a, kind), HasKey(rank, k)) == Kept(Kept(b, kind), HasKey(rank, k)) {
      KeptDistinct(Kept(a, kind), HasKey(rank, k));
      KeptDistinct(Kept(b, kind), HasKey(rank, k));
      KeptMembers(Kept(a, kind), HasKey(rank, k));
      KeptMembers(Kept(b, kind), HasKey(rank, k));
      AtMostOne(Kept(Kept(a, kind), HasKey(rank, k)), Kept(Kept(b, kind), HasKey(rank, k)));
    }
  }

  /** Two walks of the same paths, finished in any orders, sort the paths of a tie-free kind alike. */
  lemma TieFreeAgree(paths1: seq<string>, o1: seq<nat>, paths2: seq<string>, o2: seq<nat>, files: Files, kind: string -> bool)
    requires Distinct(paths1) && Distinct(paths2) && forall path :: path in paths1 <==> path in paths2
    requires IsOrder(o1, |paths1|) && IsOrder(o2, |paths2|) && TieFree(paths1, files, kind)
    ensures Shown(paths1, files, o1, kind) == Shown(paths2, files, o2, kind)
  {
    var a, b := Arrived(paths1, files, o1), Arrived(paths2, files, o2);
    ArrivedOnce(paths1, files, o1);
    ArrivedOnce(paths2, files, o2);
    forall x, y | x in a && y in a && kind(x) && kind(y) && x != y ensures files.rank(x) != files.rank(y) {
      var i :| 0 <= i < |paths1| && paths1[i] == x;
      var j :| 0 <= j < |paths1| && paths1[j] == y;
      if i < j {
        assert files.rank(paths1[i]) != files.rank(paths1[j]);
      } else {
        assert files.rank(paths1[j]) != files.rank(paths1[i]);
      }
    }
    TieFreeByKey(files.rank, a, b, kind);
    KeptSorted(files.rank, a, b, kind);
  }

  // ---- A tie leaves it open ----

  /** All items in order, and the same with item i finished right after item j. */
  function InTurn(n: nat): (order: seq<nat>)
    ensures |order| == n && forall k :: 0 <= k < n ==> order[k] == k
  {
    seq(n, k requires 0 <= k < n => k)
  }

  function Delayed(n: nat, i: nat, j: nat): (order: seq<nat>)
    requires i < j < n
    ensures |order| == n
    ensures forall k :: 0 <= k < n ==> order[k] == if i <= k < j then k + 1 else if k == j then i else k
  {
    seq(n, k requires 0 <= k < n => if i <= k < j then k + 1 else if k == j then i else k)
  }

  lemma BothComplete(n: nat, i: nat, j: nat, bound: nat)
    requires i < j < n && bound >= 2
    ensures Completes(InTurn(n), n, bound) && Completes(Delayed(n, i, j), n, bound)
  {
    forall x: nat | x < n ensures x in InTurn(n) && x in Delayed(n, i, j) {
      assert InTurn(n)[x] == x;
      assert Delayed(n, i, j)[if x == i then j else if i < x <= j then x - 1 else x] == x;
    }
  }

  lemma ArrivedBefore(paths: seq<string>, files: Files, order: seq<nat>, kind: string -> bool, a: nat, b: nat)
    requires Within(order, |paths|) && a < b < |order|
    requires var x, y := paths[order[a]], paths[order[b]];
      Counts(files, kind, x) && Counts(files, kind, y) && files.rank(x) == files.rank(y)
    ensures var x, y := paths[order[a]], paths[order[b]];
      Before(Kept(Kept(Arrived(paths, files, order), kind), HasKey(files.rank, files.rank(x))), x, y)
  {
    var x, y, picked := paths[order[a]], paths[order[b]], Picked(paths, order);
    assert picked[a] == x && picked[b] == y;
    KeptBefore(picked, IsReadable(files), x, y);
    KeptBefore(Arrived(paths, files, order), kind, x, y);
    KeptBefore(Kept(Arrived(paths, files, order), kind), HasKey(files.rank, files.rank(x)), x, y);
  }

  lemma TieSwaps(paths: seq<string>, files: Files, kind: string -> bool, i: nat, j: nat)
    requires Distinct(paths) && i < j < |paths| && Counts(files, kind, paths[i]) && Counts(files, kind, paths[j])
    requires files.rank(paths[i]) == files.rank(paths[j])
    ensures IsOrder(InTurn(|paths|), |paths|) && IsOrder(Delayed(|paths|, i, j), |paths|)
    ensures Shown(paths, files, InTurn(|paths|), kind) != Shown(paths, files, Delayed(|paths|, i, j), kind)
  {
    var n, k := |paths|, files.rank(paths[i]);
    var a, b := Arrived(paths, files, InTurn(n)), Arrived(paths, files, Delayed(n, i, j));
    BothComplete(n, i, j, 2);
    ArrivedBefore(paths, files, InTurn(n), kind, i, j);
    ArrivedBefore(paths, files, Delayed(n, i, j), kind, j - 1, j);
    ArrivedOnce(paths, files, InTurn(n));
    KeptDistinct(a, kind);
    KeptDistinct(Kept(a, kind), HasKey(files.rank, k));
    Opposed(Kept(Kept(a, kind), HasKey(files.rank, k)), Kept(Kept(b, kind), HasKey(files.rank, k)), paths[i], paths[j]);
    DiffersAt(files.rank, Kept(a, kind), Kept(b, kind), k);
    KeptSorted(files.rank, a, b, kind);
  }

  // ---- The two together ----

  lemma SortsCompare(paths1: seq<string>, o1: seq<nat>, paths2: seq<string>, o2: seq<nat>, files: Files)
    requires Within(o1, |paths1|) && Within(o2, |paths2|)
    ensures SortCandidates(files.rank, Found(paths1, files, o1)) == SortCandidates(files.rank, Found(paths2, files, o2)) <==>
      Shown(paths1, files, o1, IsReadable(files)) == Shown(paths2, files, o2, IsReadable(files))
  {
    SortedByName(paths1, files, o1);
    SortedByName(paths2, files, o2);
    var a, b := Sort(files.rank, Arrived(paths1, files, o1)), Sort(files.rank, Arrived(paths2, files, o2));
    KeptAll(a, IsReadable(files));
    KeptAll(b, IsReadable(files));
    if CandidatesOf(files, a) == CandidatesOf(files, b) {
      forall k | 0 <= k < |a| ensures a[k] == b[k] {
        assert CandidatesOf(files, a)[k].path == CandidatesOf(files, b)[k].path;
      }
    }
  }

  /** Every order in which the stats can finish sorts the candidates alike, exactly if no two
      readable paths have the same casefolded path. */
  lemma SortIndependent(paths: seq<string>, files: Files, bound: nat)
    requires Distinct(paths) && bound >= 2
    ensures TieFree(paths, files, IsReadable(files)) <==>
      forall o1, o2 {:trigger Completes(o1, |paths|, bound), Completes(o2, |paths|, bound)} ::
        Completes(o1, |paths|, bound) && Completes(o2, |paths|, bound) ==>
          SortCandidates(files.rank, Found(paths, files, o1)) == SortCandidates(files.rank, Found(paths, files, o2))
  {
    if TieFree(paths, files, IsReadable(files)) {
      forall o1, o2 | Completes(o1, |paths|, bound) && Completes(o2, |paths|, bound)
        ensures SortCandidates(files.rank, Found(paths, files, o1)) == SortCandidates(files.rank, Found(paths, files, o2))
      {
        TieFreeAgree(paths, o1, paths, o2, files, IsReadable(files));
        SortsCompare(paths, o1, paths, o2, files);
      }
    } else {
      var i, j :| 0 <= i < j < |paths| && Counts(files, IsReadable(files), paths[i])
        && Counts(files, IsReadable(files), paths[j]) && files.rank(paths[i]) == files.rank(paths[j]);
      BothComplete(|paths|, i, j, bound);
      TieSwaps(paths, files, IsReadable(files), i, j);
      SortsCompare(paths, InTurn(|paths|), paths, Delayed(|paths|, i, j), files);
    }
  }

  /** Every order in which the stats can finish lists the same entries, exactly if no two
      listed paths have the same casefolded path. */
  lemma ListingIndependent(paths: seq<string>, files: Files, cache: Cache, bound: nat)
    requires Distinct(paths) && bound >= 2
    ensures TieFree(paths, files, IsListed(files, cache)) <==>
      forall o1, o2 {:trigger Completes(o1, |paths|, bound), Completes(o2, |paths|, bound)} ::
        Completes(o1, |paths|, bound) && Completes(o2, |paths|, bound) ==>
          Listing(paths, files, cache, o1) == Listing(paths, files, cache, o2)
  {
    if TieFree(paths, files, IsListed(files, cache)) {
      forall o1, o2 | Completes(o1, |paths|, bound) && Completes(o2, |paths|, bound)
        ensures Listing(paths, files, cache, o1) == Listing(paths, files, cache, o2)
      {
        TieFreeAgree(paths, o1, paths, o2, files, IsListed(files, cache));
        ListingsCompare(paths, o1, paths, o2, files, cache);
      }
    } else {
      var i, j :| 0 <= i < j < |paths| && Counts(files, IsListed(files, cache), paths[i])
        && Counts(files, IsListed(files, cache), paths[j]) && files.rank(paths[i]) == files.rank(paths[j]);
      BothComplete(|paths|, i, j, bound);
      TieSwaps(paths, files, IsListed(files, cache), i, j);
      ListingsCompare(paths, InTurn(|paths|), paths, Delayed(|paths|, i, j), files, cache);
    }
  }

  // ---- Two scans ----

  /** Candidates that differ in their position at most. */
  ghost predicate SameFiles(a: seq<Candidate>, b: seq<Candidate>) {
    forall c :: c in a ==> c.(position := 0) in Unplaced(b)
  }

  function Unplaced(s: seq<Candidate>): set<Candidate> {
    set c | c in s :: c.(position := 0)
  }

  lemma WriterElsewhere(a: seq<Candidate>, b: seq<Candidate>, process: string -> Processed, key: string, i: nat) returns (j: nat)
    requires SameFiles(a, b) && Writes(a, process, key, i)
    ensures Writes(b, process, key, j) && Update(b[j], process(b[j].path)) == Update(a[i], process(a[i].path))
  {
    assert a[i] in a;
    var d :| d in b && d.(position := 0) == a[i].(position := 0);
    j :| 0 <= j < |b| && b[j] == d;
  }

  lemma CachesMeet(cache: Cache, a: seq<Candidate>, b: seq<Candidate>, process: string -> Processed, o1: seq<nat>, o2: seq<nat>, key: string)
    requires SameFiles(a, b) && SameFiles(b, a) && KeysAgree(a, process)
    requires IsOrder(o1, |a|) && IsOrder(o2, |b|)
    ensures var x, y := Cached(cache, a, process, o1), Cached(cache, b, process, o2);
      (key in x <==> key in y) && (key in x ==> x[key] == y[key])
  {
    var one := CachedAt(cache, a, process, o1, key);
    var two := CachedAt(cache, b, process, o2, key);
    if one.Some? {
      var j := WriterElsewhere(a, b, process, key, one.value);
      assert j in o2;
    }
    if two.Some? {
      var i := WriterElsewhere(b, a, process, key, two.value);
      assert i in o1;
    }
  }

  /** The cache depends neither on the list nor on the order of completion, if items of one
      cache key leave the same row. */
  lemma CachesAgree(cache: Cache, a: seq<Candidate>, b: seq<Candidate>, process: string -> Processed, o1: seq<nat>, o2: seq<nat>)
    requires SameFiles(a, b) && SameFiles(b, a) && KeysAgree(a, process)
    requires IsOrder(o1, |a|) && IsOrder(o2, |b|)
    ensures Cached(cache, a, process, o1) == Cached(cache, b, process, o2)
  {
    var x, y := Cached(cache, a, process, o1), Cached(cache, b, process, o2);
    forall key ensures (key in x <==> key in y) && (key in x ==> x[key] == y[key]) {
      CachesMeet(cache, a, b, process, o1, o2, key);
    }
  }

  lemma {:induction false} StaleMembers(cache: Cache, found: seq<Candidate>)
    ensures forall c :: c in StaleItems(cache, found) <==> c in found && !Fresh(cache, c)
  {
    if found != [] {
      StaleMembers(cache, found[..|found| - 1]);
      assert found == found[..|found| - 1] + [found[|found| - 1]];
    }
  }

  lemma {:induction false} SortMembers(rank: string -> int, paths: seq<string>)
    ensures forall path :: path in Sort(rank, paths) <==> path in paths
  {
    if paths != [] {
      SortMembers(rank, paths[..|paths| - 1]);
      InsertMembers(rank, Sort(rank, paths[..|paths| - 1]), paths[|paths| - 1]);
      assert paths == paths[..|paths| - 1] + [paths[|paths| - 1]];
    }
  }

  lemma SameStale(paths1: seq<string>, o1: seq<nat>, paths2: seq<string>, o2: seq<nat>, files: Files, cache: Cache)
    requires Distinct(paths1) && Distinct(paths2) && forall path :: path in paths1 <==> path in paths2
    requires IsOrder(o1, |paths1|) && IsOrder(o2, |paths2|)
    ensures SameFiles(StaleItems(cache, SortCandidates(files.rank, Found(paths1, files, o1))),
                      StaleItems(cache, SortCandidates(files.rank, Found(paths2, files, o2))))
  {
    var s1, s2 := SortCandidates(files.rank, Found(paths1, files, o1)), SortCandidates(files.rank, Found(paths2, files, o2));
    var a, b := Sort(files.rank, Arrived(paths1, files, o1)), Sort(files.rank, Arrived(paths2, files, o2));
    SortedByName(paths1, files, o1);
    SortedByName(paths2, files, o2);
    ArrivedOnce(paths1, files, o1);
    ArrivedOnce(paths2, files, o2);
    SortMembers(files.rank, Arrived(paths1, files, o1));
    SortMembers(files.rank, Arrived(paths2, files, o2));
    StaleMembers(cache, s1);
    StaleMembers(cache, s2);
    forall c | c in StaleItems(cache, s1) ensures c.(position := 0) in Unplaced(StaleItems(cache, s2)) {
      var i :| 0 <= i < |s1| && s1[i] == c;
      assert a[i] in b;
      var j :| 0 <= j < |b| && b[j] == a[i];
      assert s2[j] in s2 && s2[j].(position := 0) == c.(position := 0);
    }
  }

  /** Two scans of the same files over the same cache, whatever their walks yielded first and
      in whatever orders their pools finished: they leave the same cache if items of one
      cache key leave the same row, and they list the same entries if no two listed paths
      have the same casefolded path. */
  lemma ScansAgree(paths1: seq<string>, o1: seq<nat>, entries1: seq<ScanEntry>, after1: Cache,
                   paths2: seq<string>, o2: seq<nat>, entries2: seq<ScanEntry>, after2: Cache, files: Files, cache: Cache)
    requires Distinct(paths1) && Distinct(paths2) && forall path :: path in paths1 <==> path in paths2
    requires IsOrder(o1, |paths1|) && IsOrder(o2, |paths2|)
    requires ScanResult(cache, files.process, SortCandidates(files.rank, Found(paths1, files, o1)), entries1, after1)
    requires ScanResult(cache, files.process, SortCandidates(files.rank, Found(paths2, files, o2)), entries2, after2)
    ensures KeysAgree(StaleItems(cache, SortCandidates(files.rank, Found(paths1, files, o1))), files.process) ==> after1 == after2
    ensures TieFree(paths1, files, IsListed(files, cache)) ==> entries1 == entries2
  {
    var a := StaleItems(cache, SortCandidates(files.rank, Found(paths1, files, o1)));
    var b := StaleItems(cache, SortCandidates(files.rank, Found(paths2, files, o2)));
    if KeysAgree(a, files.process) {
      SameStale(paths1, o1, paths2, o2, files, cache);
      SameStale(paths2, o2, paths1, o1, files, cache);
      var p1 :| IsOrder(p1, |a|) && after1 == Cached(cache, a, files.process, p1);
      var p2 :| IsOrder(p2, |b|) && after2 == Cached(cache, b, files.process, p2);
      CachesAgree(cache, a, b, files.process, p1, p2);
    }
    if TieFree(paths1, files, IsListed(files, cache)) {
      TieFreeAgree(paths1, o1, paths2, o2, files, IsListed(files, cache));
      ListingsCompare(paths1, o1, paths2, o2, files, cache);
    }
  }

  // ---- Two files that differ in case only ----

  /** On a file system that tells them apart, A.jpg and a.jpg are listed in the order in
      which their stats finished. */
  lemma CaseVariantsSwap(files: Files, cache: Cache, bound: nat)
    requires files.rank("A.jpg") == files.rank("a.jpg") && bound >= 2
    requires IsListed(files, cache)("A.jpg") && IsListed(files, cache)("a.jpg")
    ensures Completes([0, 1], 2, bound) && Completes([1, 0], 2, bound)
    ensures Listing(["A.jpg", "a.jpg"], files, cache, [0, 1]) != Listing(["A.jpg", "a.jpg"], files, cache, [1, 0])
  {
    PairSwaps("A.jpg", "a.jpg", files, cache, bound);
  }

  lemma PairSwaps(p: string, q: string, files: Files, cache: Cache, bound: nat)
    requires p != q && files.rank(p) == files.rank(q) && bound >= 2
    requires IsListed(files, cache)(p) && IsListed(files, cache)(q)
    ensures Completes([0, 1], 2, bound) && Completes([1, 0], 2, bound)
    ensures Listing([p, q], files, cache, [0, 1]) != Listing([p, q], files, cache, [1, 0])
  {
    BothComplete(2, 0, 1, bound);
    assert InTurn(2) == [0, 1] && Delayed(2, 0, 1) == [1, 0];
    TieSwaps([p, q], files, IsListed(files, cache), 0, 1);
    ListingsCompare([p, q], [0, 1], [p, q], [1, 0], files, cache);
  }
}
