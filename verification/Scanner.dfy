/** The scan's thread pool: a bounded window of submitted work, finished in any order. */
module Scanner {
  import opened Prelude

  datatype Candidate = Candidate(position: nat, path: string, pathKey: string, itemId: string, size: nat, modified: nat)

  /** What a worker makes of a file, which does not change while the scan runs: a hash, an
      OSError, or any other exception, which aborts the scan. */
  datatype Processed = Hashed(sha256: string, metadata: string) | Unreadable(error: string) | Raised

  /** What is handed to the sync engine. The revision is a digest of size, time of change and hash. */
  datatype ScanEntry = ScanEntry(path: string, itemId: string, size: nat, modified: nat, sha256: string, metadata: string)

  /** _entry */
  function EntryFor(c: Candidate, sha256: string, metadata: string): ScanEntry {
    ScanEntry(c.path, c.itemId, c.size, c.modified, sha256, metadata)
  }

  datatype CacheRow = CacheRow(path: string, size: nat, modified: nat, sha256: string, metadata: string)

  type Cache = map<string, CacheRow>

  // ---- Completion order ----

  /** Which of the pending items wait() reports in a round, in the order they are taken up. */
  type Pick = (nat, set<nat>) -> seq<nat>

  ghost predicate NoRepeat(items: seq<nat>) {
    forall i, j :: 0 <= i < j < |items| ==> items[i] != items[j]
  }

  /** A round reports at least one pending item, and only pending ones, once each. */
  ghost predicate Fair(pick: Pick) {
    forall round, pending {:trigger pick(round, pending)} :: pending != {} ==>
      var done := pick(round, pending);
      done != [] && NoRepeat(done) && forall i :: i in done ==> i in pending
  }

  ghost predicate Within(order: seq<nat>, n: nat) {
    forall k :: 0 <= k < |order| ==> order[k] < n
  }

  /** Every item below n, once. */
  ghost predicate IsOrder(order: seq<nat>, n: nat) {
    |order| == n && NoRepeat(order) && (forall i: nat :: i < n ==> i in order) && Within(order, n)
  }

  // ---- What processing leaves ----

  function Update(c: Candidate, p: Processed): CacheRow
    requires p.Hashed?
  {
    CacheRow(c.path, c.size, c.modified, p.sha256, p.metadata)
  }

  function Remember(cache: Cache, c: Candidate, p: Processed): Cache {
    if p.Hashed? then cache[c.pathKey := Update(c, p)] else cache
  }

  /** The cache after the items of an order finished one after the other. */
  function Cached(cache: Cache, candidates: seq<Candidate>, process: string -> Processed, order: seq<nat>): Cache
    requires Within(order, |candidates|)
  {
    if order == [] then cache
    else
      var last := order[|order| - 1];
      Remember(Cached(cache, candidates, process, order[..|order| - 1]), candidates[last], process(candidates[last].path))
  }

  function Placed(c: Candidate, p: Processed, before: Option<ScanEntry>): Option<ScanEntry> {
    if p.Hashed? then Some(EntryFor(c, p.sha256, p.metadata)) else before
  }

  ghost function HashedAmong(candidates: seq<Candidate>, process: string -> Processed, items: seq<nat>): set<nat>
    requires Within(items, |candidates|)
  {
    set i | i in items && process(candidates[i].path).Hashed?
  }

  ghost predicate Positioned(candidates: seq<Candidate>, length: nat) {
    && (forall i :: 0 <= i < |candidates| ==> candidates[i].position < length)
    && (forall i, j :: 0 <= i < j < |candidates| ==> candidates[i].position != candidates[j].position)
  }

  /** The slots of the finished items hold their entries, and every other slot is as it was. */
  ghost predicate Filled(candidates: seq<Candidate>, process: string -> Processed, order: seq<nat>,
                         before: seq<Option<ScanEntry>>, now: seq<Option<ScanEntry>>)
    requires Positioned(candidates, |before|) && Within(order, |candidates|)
  {
    && |now| == |before|
    && (forall i :: i in order ==>
          now[candidates[i].position] == Placed(candidates[i], process(candidates[i].path), before[candidates[i].position]))
    && (forall p :: 0 <= p < |now| && (forall i :: i in order ==> candidates[i].position != p) ==> now[p] == before[p])
  }

  /** The rows collected but not written yet are those of the last finished items. */
  function Flush(cache: Cache, updates: seq<(string, CacheRow)>): Cache {
    if updates == [] then cache
    else
      var last := updates[|updates| - 1];
      Flush(cache, updates[..|updates| - 1])[last.0 := last.1]
  }

  lemma FilledSnoc(candidates: seq<Candidate>, process: string -> Processed, order: seq<nat>, before: seq<Option<ScanEntry>>,
                   now: seq<Option<ScanEntry>>, i: nat, later: seq<Option<ScanEntry>>)
    requires Positioned(candidates, |before|) && Within(order, |candidates|) && i < |candidates| && i !in order
    requires Filled(candidates, process, order, before, now)
    requires later == if process(candidates[i].path).Hashed?
      then now[candidates[i].position := Placed(candidates[i], process(candidates[i].path), None)] else now
    ensures Filled(candidates, process, order + [i], before, later)
  {
  }

  /** What is in flight and what has finished, out of the first next items. */
  ghost predicate Window(pending: set<nat>, order: seq<nat>, next: nat) {
    && NoRepeat(order) && |pending| + |order| == next
    && (forall i :: i in pending ==> i < next && i !in order)
    && Within(order, next)
    && (forall i: nat :: i < next ==> i in pending || i in order)
  }

  lemma WindowSubmit(pending: set<nat>, order: seq<nat>, next: nat)
    requires Window(pending, order, next)
    ensures Window(pending + {next}, order, next + 1)
  {
  }

  lemma WindowFinish(pending: set<nat>, order: seq<nat>, next: nat, i: nat)
    requires Window(pending, order, next) && i in pending
    ensures Window(pending - {i}, order + [i], next)
  {
  }

  /** What a window of so many items allows: when the next item finishes, it has been submitted. */
  ghost predicate Windowed(order: seq<nat>, bound: nat) {
    forall k :: 0 <= k < |order| ==> order[k] < k + bound
  }

  lemma WindowedFinish(pending: set<nat>, order: seq<nat>, next: nat, i: nat, bound: nat)
    requires Window(pending, order, next) && i in pending && |pending| <= bound && Windowed(order, bound)
    ensures Windowed(order + [i], bound)
  {
  }

  lemma WindowEmpty(order: seq<nat>, next: nat)
    requires Window({}, order, next)
    ensures IsOrder(order, next)
  {
  }

  lemma HashedSnoc(candidates: seq<Candidate>, process: string -> Processed, order: seq<nat>, i: nat)
    requires Within(order, |candidates|) && i < |candidates| && i !in order
    ensures |HashedAmong(candidates, process, order + [i])|
         == |HashedAmong(candidates, process, order)| + if process(candidates[i].path).Hashed? then 1 else 0
  {
    var now, later := HashedAmong(candidates, process, order), HashedAmong(candidates, process, order + [i]);
    if process(candidates[i].path).Hashed? {
      assert later == now + {i};
    } else {
      assert later == now;
    }
  }

  /** The counters and the collected rows agree with the finished items. */
  ghost predicate Counted(candidates: seq<Candidate>, process: string -> Processed, order: seq<nat>, hashed: nat, failed: nat)
    requires Within(order, |candidates|)
  {
    hashed == |HashedAmong(candidates, process, order)| && hashed + failed == |order|
  }

  ghost predicate Collected(start: Cache, candidates: seq<Candidate>, process: string -> Processed, order: seq<nat>,
                            cache: Cache, updates: seq<(string, CacheRow)>)
    requires Within(order, |candidates|)
  {
    Flush(cache, updates) == Cached(start, candidates, process, order)
  }

  lemma CountedSnoc(candidates: seq<Candidate>, process: string -> Processed, order: seq<nat>, hashed: nat, failed: nat, i: nat)
    requires Within(order, |candidates|) && i < |candidates| && i !in order
    requires Counted(candidates, process, order, hashed, failed)
    ensures if process(candidates[i].path).Hashed? then Counted(candidates, process, order + [i], hashed + 1, failed)
            else Counted(candidates, process, order + [i], hashed, failed + 1)
  {
    HashedSnoc(candidates, process, order, i);
  }

  lemma CollectedSnoc(start: Cache, candidates: seq<Candidate>, process: string -> Processed, order: seq<nat>,
                      cache: Cache, updates: seq<(string, CacheRow)>, i: nat)
    requires Within(order, |candidates|) && i < |candidates|
    requires Collected(start, candidates, process, order, cache, updates)
    ensures var p := process(candidates[i].path);
      Collected(start, candidates, process, order + [i], cache,
                if p.Hashed? then updates + [(candidates[i].pathKey, Update(candidates[i], p))] else updates)
  {
  }

  /** The local variables of _process_uncached between two steps, with the finished items. */
  datatype Progress = Progress(pending: set<nat>, next: nat, hashed: nat, failed: nat, updates: seq<(string, CacheRow)>,
                               cache: Cache, entries: seq<Option<ScanEntry>>)

  ghost predicate InStep(candidates: seq<Candidate>, process: string -> Processed, start: Cache, before: seq<Option<ScanEntry>>,
                         order: seq<nat>, now: Progress)
  {
    && Window(now.pending, order, now.next) && now.next <= |candidates|
    && Positioned(candidates, |before|)
    && Filled(candidates, process, order, before, now.entries)
    && Collected(start, candidates, process, order, now.cache, now.updates)
    && Counted(candidates, process, order, now.hashed, now.failed)
  }

  function Finish(now: Progress, c: Candidate, p: Processed, i: nat): Progress
    requires c.position < |now.entries|
  {
    var rest := now.(pending := now.pending - {i});
    match p
    case Hashed(sha256, metadata) =>
      rest.(hashed := now.hashed + 1, updates := now.updates + [(c.pathKey, Update(c, p))],
            entries := now.entries[c.position := Some(EntryFor(c, sha256, metadata))])
    case _ => rest.(failed := now.failed + 1)
  }

  lemma FinishInStep(candidates: seq<Candidate>, process: string -> Processed, start: Cache, before: seq<Option<ScanEntry>>,
                     order: seq<nat>, now: Progress, i: nat)
    requires InStep(candidates, process, start, before, order, now) && i in now.pending
    ensures i < |candidates| && candidates[i].position < |now.entries|
    ensures InStep(candidates, process, start, before, order + [i], Finish(now, candidates[i], process(candidates[i].path), i))
  {
    WindowFinish(now.pending, order, now.next, i);
    CountedSnoc(candidates, process, order, now.hashed, now.failed, i);
    CollectedSnoc(start, candidates, process, order, now.cache, now.updates, i);
    FilledSnoc(candidates, process, order, before, now.entries, i, Finish(now, candidates[i], process(candidates[i].path), i).entries);
  }

  ghost predicate NoneRaised(candidates: seq<Candidate>, process: string -> Processed, order: seq<nat>)
    requires Within(order, |candidates|)
  {
    forall k :: 0 <= k < |order| ==> !process(candidates[order[k]].path).Raised?
  }

  ghost predicate SomeRaised(candidates: seq<Candidate>, process: string -> Processed) {
    exists i :: 0 <= i < |candidates| && process(candidates[i].path).Raised?
  }

  /** The cache after some of the items finished. */
  ghost predicate PartlyCached(start: Cache, candidates: seq<Candidate>, process: string -> Processed, after: Cache) {
    exists order :: NoRepeat(order) && Within(order, |candidates|) && after == Cached(start, candidates, process, order)
  }

  lemma NothingCached(start: Cache, candidates: seq<Candidate>, process: string -> Processed)
    ensures PartlyCached(start, candidates, process, start)
  {
    assert Cached(start, candidates, process, []) == start;
  }

  /** The local variables of _process_uncached, with fill_pending and the handling of one
      finished future as methods. */
  class Pool {
    const candidates: seq<Candidate>
    const process: string -> Processed
    const maxPending: nat
    const entries: array<Option<ScanEntry>>
    ghost const cacheBefore: Cache
    ghost const entriesBefore: seq<Option<ScanEntry>>
    var pending: set<nat>
    var next: nat
    var hashed: nat
    var failed: nat
    var updates: seq<(string, CacheRow)>
    var cache: Cache
    ghost var order: seq<nat>

    constructor (candidates: seq<Candidate>, process: string -> Processed, workers: nat, entries: array<Option<ScanEntry>>, cache: Cache)
      requires Positioned(candidates, entries.Length)
      ensures Valid() && this.candidates == candidates && this.process == process && this.entries == entries
      ensures maxPending == (if workers * 4 > workers then workers * 4 else workers)
      ensures pending == {} && next == 0 && order == []
      ensures cacheBefore == cache && entriesBefore == old(entries[..])
    {
      this.candidates, this.process, this.entries := candidates, process, entries;
      maxPending := if workers * 4 > workers then workers * 4 else workers;
      cacheBefore, entriesBefore := cache, entries[..];
      pending, next, hashed, failed, updates, order := {}, 0, 0, 0, [], [];
      this.cache := cache;
      NothingCached(cache, candidates, process);
    }

    ghost function Now(): Progress
      reads this, entries
    {
      Progress(pending, next, hashed, failed, updates, cache, entries[..])
    }

    ghost predicate Valid()
      reads this, entries
    {
      && InStep(candidates, process, cacheBefore, entriesBefore, order, Now())
      && |pending| <= maxPending && Windowed(order, maxPending)
      && next <= |candidates| && PartlyCached(cacheBefore, candidates, process, cache)
    }

    /** fill_pending: submit the next items until the window is full or none is left. */
    method FillPending()
      requires Valid()
      modifies this`pending, this`next
      ensures Valid() && |pending| <= maxPending && old(next) <= next && (next == |candidates| || |pending| == maxPending)
    {
      while |pending| < maxPending && next < |candidates|
        invariant Valid() && old(next) <= next
        decreases |candidates| - next
      {
        WindowSubmit(pending, order, next);
        pending, next := pending + {next}, next + 1;
      }
    }

    method Record(i: nat)
      requires i < |candidates| && candidates[i].position < entries.Length
      modifies this`pending, this`hashed, this`failed, this`updates, entries
      ensures Now() == Finish(old(Now()), candidates[i], process(candidates[i].path), i)
    {
      var candidate := candidates[i];
      var processed := process(candidate.path);
      pending := pending - {i};
      match processed
      case Hashed(sha256, metadata) =>
        entries[candidate.position] := Some(EntryFor(candidate, sha256, metadata));
        updates := updates + [(candidate.pathKey, Update(candidate, processed))];
        hashed := hashed + 1;
      case _ =>
        failed := failed + 1;
    }

    /** One finished future. */
    method Complete(i: nat)
      requires Valid() && i in pending
      modifies this`pending, this`hashed, this`failed, this`updates, this`order, entries
      ensures Valid() && order == old(order) + [i] && pending == old(pending) - {i}
    {
      FinishInStep(candidates, process, cacheBefore, entriesBefore, order, Now(), i);
      WindowedFinish(pending, order, next, i, maxPending);
      Record(i);
      order := order + [i];
    }

    /** One round: every future that wait() reported, unless one of them raises. */
    method CompleteAll(done: seq<nat>) returns (raised: bool)
      requires Valid() && NoneRaised(candidates, process, order)
      requires NoRepeat(done) && forall k :: 0 <= k < |done| ==> done[k] in pending
      modifies this`pending, this`hashed, this`failed, this`updates, this`order, entries
      ensures raised ==> SomeRaised(candidates, process)
      ensures !raised ==> Valid() && |order| == old(|order|) + |done| && NoneRaised(candidates, process, order)
    {
      for j := 0 to |done|
        invariant Valid() && |order| == old(|order|) + j && NoneRaised(candidates, process, order)
        invariant forall k :: j <= k < |done| ==> done[k] in pending
      {
        if process(candidates[done[j]].path).Raised? {
          return true;
        }
        Complete(done[j]);
      }
      return false;
    }

    /** cache_files and clear */
    method WriteCache()
      requires Valid()
      modifies this`cache, this`updates
      ensures Valid() && updates == []
    {
      ghost var whole := Flush(cache, updates);
      var i := 0;
      var rows := updates;
      ghost var start := cache;
      while i < |rows|
        invariant i <= |rows| && cache == Flush(start, rows[..i])
        invariant updates == rows && pending == old(pending) && order == old(order)
      {
        assert rows[..i + 1][..i] == rows[..i];
        cache := cache[rows[i].0 := rows[i].1];
        i := i + 1;
      }
      assert rows[..|rows|] == rows;
      updates := [];
    }
  }

  /** _process_uncached: submit in order, take finished items in whatever order the pool
      reports them, write the cache in batches. */
  method ProcessUncached(candidates: seq<Candidate>, process: string -> Processed, workers: nat, writeBatch: nat, pick: Pick,
                         entries: array<Option<ScanEntry>>, cache: Cache)
    returns (raised: bool, hashed: nat, failed: nat, after: Cache, ghost order: seq<nat>)
    requires workers >= 1 && Fair(pick) && Positioned(candidates, entries.Length)
    modifies entries
    ensures raised <==> SomeRaised(candidates, process)
    ensures raised ==> PartlyCached(cache, candidates, process, after)
    ensures !raised ==>
      && IsOrder(order, |candidates|) && Windowed(order, workers * 4)
      && hashed == |HashedAmong(candidates, process, order)| && hashed + failed == |candidates|
      && Filled(candidates, process, order, old(entries[..]), entries[..])
      && after == Cached(cache, candidates, process, order)
  {
    var pool := new Pool(candidates, process, workers, entries, cache);
    pool.FillPending();
    var round := 0;
    while pool.pending != {}
      invariant pool.Valid() && pool.candidates == candidates && pool.process == process && pool.entries == entries
      invariant pool.cacheBefore == cache && pool.entriesBefore == old(entries[..]) && pool.maxPending == workers * 4
      invariant pool.next == |candidates| || |pool.pending| == pool.maxPending
      invariant NoneRaised(candidates, process, pool.order)
      decreases |candidates| - |pool.order|
    {
      var done := pick(round, pool.pending);
      raised := pool.CompleteAll(done);
      if raised {
        return true, pool.hashed, pool.failed, pool.cache, pool.order;
      }
      if |pool.updates| >= writeBatch {
        pool.WriteCache();
      }
      pool.FillPending();
      round := round + 1;
    }
    WindowEmpty(pool.order, pool.next);
    if pool.updates != [] {
      pool.WriteCache();
    }
    AllDone(candidates, process, pool.order);
    raised, hashed, failed, after, order := false, pool.hashed, pool.failed, pool.cache, pool.order;
  }

  lemma AllDone(candidates: seq<Candidate>, process: string -> Processed, order: seq<nat>)
    requires IsOrder(order, |candidates|) && NoneRaised(candidates, process, order)
    ensures !SomeRaised(candidates, process)
  {
    forall i: nat | i < |candidates| ensures !process(candidates[i].path).Raised? {
      assert i in order;
      var k :| 0 <= k < |order| && order[k] == i;
    }
  }

  // ---- The order of completion does not matter ----

  lemma SameItems(o1: seq<nat>, o2: seq<nat>, n: nat)
    requires IsOrder(o1, n) && IsOrder(o2, n)
    ensures forall i :: i in o1 <==> i in o2
  {
  }

  /** Whatever the orders, the same slots are filled with the same entries, and as many
      items were hashed. */
  lemma EntriesIndependent(candidates: seq<Candidate>, process: string -> Processed, o1: seq<nat>, o2: seq<nat>,
                           before: seq<Option<ScanEntry>>, a: seq<Option<ScanEntry>>, b: seq<Option<ScanEntry>>)
    requires IsOrder(o1, |candidates|) && IsOrder(o2, |candidates|) && Positioned(candidates, |before|)
    requires Filled(candidates, process, o1, before, a) && Filled(candidates, process, o2, before, b)
    ensures a == b && |HashedAmong(candidates, process, o1)| == |HashedAmong(candidates, process, o2)|
  {
    SameItems(o1, o2, |candidates|);
    assert HashedAmong(candidates, process, o1) == HashedAmong(candidates, process, o2);
    forall p | 0 <= p < |a| ensures a[p] == b[p] {
      if i :| i in o1 && candidates[i].position == p {
        assert i in o2;
      }
    }
  }

  /** An item that writes this key of the cache. */
  predicate Writes(candidates: seq<Candidate>, process: string -> Processed, key: string, i: nat) {
    i < |candidates| && candidates[i].pathKey == key && process(candidates[i].path).Hashed?
  }

  /** The cache under a key is what some writer of the key left, or what was there. */
  lemma {:induction false} CachedAt(cache: Cache, candidates: seq<Candidate>, process: string -> Processed, order: seq<nat>, key: string)
    returns (writer: Option<nat>)
    requires Within(order, |candidates|)
    ensures var after := Cached(cache, candidates, process, order);
      if writer.Some?
      then writer.value in order && Writes(candidates, process, key, writer.value) && key in after
           && after[key] == Update(candidates[writer.value], process(candidates[writer.value].path))
      else (key in after <==> key in cache) && (key in cache ==> after[key] == cache[key])
           && forall i :: i in order ==> !Writes(candidates, process, key, i)
  {
    if order == [] {
      writer := None;
    } else {
      var front, last := order[..|order| - 1], order[|order| - 1];
      assert order == front + [last];
      writer := CachedAt(cache, candidates, process, front, key);
      if Writes(candidates, process, key, last) {
        writer := Some(last);
      }
    }
  }

  /** Items with one cache key that both hash leave the same row. */
  ghost predicate KeysAgree(candidates: seq<Candidate>, process: string -> Processed) {
    forall i: nat, j: nat, key: string {:trigger Writes(candidates, process, key, i), Writes(candidates, process, key, j)} ::
      Writes(candidates, process, key, i) && Writes(candidates, process, key, j) ==>
        Update(candidates[i], process(candidates[i].path)) == Update(candidates[j], process(candidates[j].path))
  }

  lemma SameKey(cache: Cache, candidates: seq<Candidate>, process: string -> Processed, o1: seq<nat>, o2: seq<nat>, key: string)
    requires IsOrder(o1, |candidates|) && IsOrder(o2, |candidates|) && KeysAgree(candidates, process)
    ensures var a, b := Cached(cache, candidates, process, o1), Cached(cache, candidates, process, o2);
      (key in a <==> key in b) && (key in a ==> a[key] == b[key])
  {
    SameItems(o1, o2, |candidates|);
    var x := CachedAt(cache, candidates, process, o1, key);
    var y := CachedAt(cache, candidates, process, o2, key);
  }

  /** All items, with one of them moved to the end. */
  function EndingWith(n: nat, last: nat): (order: seq<nat>)
    requires last < n
    ensures |order| == n
    ensures forall k :: 0 <= k < n ==> order[k] == if k == n - 1 then last else if k < last then k else k + 1
  {
    seq(n, k requires 0 <= k < n => if k == n - 1 then last else if k < last then k else k + 1)
  }

  lemma LastOrder(n: nat, last: nat)
    requires last < n
    ensures IsOrder(EndingWith(n, last), n)
  {
    var order := EndingWith(n, last);
    forall i: nat | i < n ensures i in order {
      assert order[if i == last then n - 1 else if i < last then i else i - 1] == i;
    }
  }

  lemma LastWriterWins(cache: Cache, candidates: seq<Candidate>, process: string -> Processed, order: seq<nat>, i: nat)
    requires order != [] && order[|order| - 1] == i && Within(order, |candidates|)
    requires i < |candidates| && process(candidates[i].path).Hashed?
    ensures var after := Cached(cache, candidates, process, order);
      candidates[i].pathKey in after && after[candidates[i].pathKey] == Update(candidates[i], process(candidates[i].path))
  {
  }

  /** The orders in which a window of so many items can finish. */
  ghost predicate Completes(order: seq<nat>, n: nat, bound: nat) {
    IsOrder(order, n) && Windowed(order, bound)
  }

  /** The cache is the same for every order of completion that the window admits exactly when
      items that share a cache key leave the same row; distinct keys are enough. */
  lemma CacheIndependent(cache: Cache, candidates: seq<Candidate>, process: string -> Processed, bound: nat)
    requires bound >= 2
    ensures KeysAgree(candidates, process) <==>
      forall o1, o2 {:trigger Completes(o1, |candidates|, bound), Completes(o2, |candidates|, bound)} ::
        Completes(o1, |candidates|, bound) && Completes(o2, |candidates|, bound) ==>
          Cached(cache, candidates, process, o1) == Cached(cache, candidates, process, o2)
  {
    if KeysAgree(candidates, process) {
      forall o1, o2 | Completes(o1, |candidates|, bound) && Completes(o2, |candidates|, bound)
        ensures Cached(cache, candidates, process, o1) == Cached(cache, candidates, process, o2)
      {
        forall key ensures
          var a, b := Cached(cache, candidates, process, o1), Cached(cache, candidates, process, o2);
          (key in a <==> key in b) && (key in a ==> a[key] == b[key])
        {
          SameKey(cache, candidates, process, o1, o2, key);
        }
      }
    } else {
      var o1, o2 := OrdersDiffer(cache, candidates, process);
      assert Completes(o1, |candidates|, bound) && Completes(o2, |candidates|, bound);
    }
  }

  lemma OrdersDiffer(cache: Cache, candidates: seq<Candidate>, process: string -> Processed) returns (o1: seq<nat>, o2: seq<nat>)
    requires !KeysAgree(candidates, process)
    ensures Completes(o1, |candidates|, 2) && Completes(o2, |candidates|, 2)
    ensures Cached(cache, candidates, process, o1) != Cached(cache, candidates, process, o2)
  {
    var i: nat, j: nat, key: string :| Writes(candidates, process, key, i) && Writes(candidates, process, key, j)
      && Update(candidates[i], process(candidates[i].path)) != Update(candidates[j], process(candidates[j].path));
    o1, o2 := EndingWith(|candidates|, i), EndingWith(|candidates|, j);
    LastOrder(|candidates|, i);
    LastOrder(|candidates|, j);
    LastWriterWins(cache, candidates, process, o1, i);
    LastWriterWins(cache, candidates, process, o2, j);
  }

  // ---- A whole scan ----

  /** What stat() says of a discovered path. */
  datatype Looked = Missing(error: string) | Empty | Readable(size: nat, modified: nat)

  function ItemIds(itemId: string -> string, paths: seq<string>, order: seq<nat>): set<string>
    requires Within(order, |paths|)
  {
    set k | 0 <= k < |order| :: itemId(paths[order[k]])
  }

  function CandidateFor(path: string, itemId: string -> string, pathKey: string -> string, position: nat, looked: Looked): Candidate
    requires looked.Readable?
  {
    Candidate(position, path, pathKey(path), itemId(path), looked.size, looked.modified)
  }

  /** The candidates of the readable paths that are not empty, in the order their stat finished. */
  function FoundIn(paths: seq<string>, look: string -> Looked, itemId: string -> string, pathKey: string -> string,
                   order: seq<nat>): seq<Candidate>
    requires Within(order, |paths|)
  {
    if order == [] then []
    else
      var front, last := FoundIn(paths, look, itemId, pathKey, order[..|order| - 1]), order[|order| - 1];
      if look(paths[last]).Readable? then front + [CandidateFor(paths[last], itemId, pathKey, last, look(paths[last]))] else front
  }

  /** _stat_candidates: every discovered path counts as seen, also one that cannot be read
      or is empty. */
  method StatCandidates(paths: seq<string>, look: string -> Looked, itemId: string -> string, pathKey: string -> string,
                        workers: nat, pick: Pick)
    returns (found: seq<Candidate>, seen: set<string>, failed: nat, skipped: nat, ghost order: seq<nat>)
    requires workers >= 1 && Fair(pick)
    ensures seen == set k | 0 <= k < |paths| :: itemId(paths[k])
    ensures |found| + failed + skipped == |paths|
    ensures IsOrder(order, |paths|) && Windowed(order, workers * 8) && found == FoundIn(paths, look, itemId, pathKey, order)
  {
    var maxPending := if workers * 8 > workers then workers * 8 else workers;
    var pending: set<nat>, next: nat, round := {}, 0, 0;
    order := [];
    found, seen, failed, skipped := [], {}, 0, 0;
    pending, next := Fill(pending, next, maxPending, |paths|, order);
    while pending != {}
      invariant Window(pending, order, next) && next <= |paths| && |pending| <= maxPending
      invariant next == |paths| || |pending| == maxPending
      invariant Windowed(order, maxPending)
      invariant seen == ItemIds(itemId, paths, order) && |found| + failed + skipped == |order|
      invariant found == FoundIn(paths, look, itemId, pathKey, order)
      decreases |paths| - |order|
    {
      var done := pick(round, pending);
      ghost var finished := |order|;
      for j := 0 to |done|
        invariant Window(pending, order, next) && |order| == finished + j && next <= finished + maxPending
        invariant Windowed(order, maxPending) && |pending| <= maxPending
        invariant forall k :: j <= k < |done| ==> done[k] in pending
        invariant seen == ItemIds(itemId, paths, order) && |found| + failed + skipped == |order|
        invariant found == FoundIn(paths, look, itemId, pathKey, order)
      {
        var i := done[j];
        WindowFinish(pending, order, next, i);
        ItemIdsSnoc(itemId, paths, order, i);
        assert (order + [i])[..|order + [i]| - 1] == order;
        pending := pending - {i};
        order := order + [i];
        seen := seen + {itemId(paths[i])};
        match look(paths[i])
        case Missing(_) => failed := failed + 1;
        case Empty => skipped := skipped + 1;
        case Readable(_, _) => found := found + [CandidateFor(paths[i], itemId, pathKey, i, look(paths[i]))];
      }
      pending, next := Fill(pending, next, maxPending, |paths|, order);
      round := round + 1;
    }
    WindowEmpty(order, next);
    AllItemIds(itemId, paths, order);
  }

  method Fill(pending: set<nat>, next: nat, maxPending: nat, n: nat, ghost order: seq<nat>) returns (now: set<nat>, then_: nat)
    requires Window(pending, order, next) && next <= n && |pending| <= maxPending
    ensures Window(now, order, then_) && next <= then_ <= n && |now| <= maxPending && (then_ == n || |now| == maxPending)
  {
    now, then_ := pending, next;
    while |now| < maxPending && then_ < n
      invariant Window(now, order, then_) && next <= then_ <= n && |now| <= maxPending
      decreases n - then_
    {
      WindowSubmit(now, order, then_);
      now, then_ := now + {then_}, then_ + 1;
    }
  }

  lemma ItemIdsSnoc(itemId: string -> string, paths: seq<string>, order: seq<nat>, i: nat)
    requires Within(order, |paths|) && i < |paths|
    ensures ItemIds(itemId, paths, order + [i]) == ItemIds(itemId, paths, order) + {itemId(paths[i])}
  {
    var longer := order + [i];
    assert longer[|order|] == i;
    forall k | 0 <= k < |order| ensures longer[k] == order[k] {}
  }

  lemma AllItemIds(itemId: string -> string, paths: seq<string>, order: seq<nat>)
    requires IsOrder(order, |paths|)
    ensures ItemIds(itemId, paths, order) == set k | 0 <= k < |paths| :: itemId(paths[k])
  {
    forall k: nat | k < |paths| ensures itemId(paths[k]) in ItemIds(itemId, paths, order) {
      assert k in order;
      var j :| 0 <= j < |order| && order[j] == k;
    }
  }

  /** The cached hash is used while the file keeps its size and time of change. */
  predicate Fresh(cache: Cache, c: Candidate) {
    c.pathKey in cache && cache[c.pathKey].size == c.size && cache[c.pathKey].modified == c.modified
  }

  function EntryOf(cache: Cache, process: string -> Processed, c: Candidate): Option<ScanEntry> {
    if Fresh(cache, c) then Some(EntryFor(c, cache[c.pathKey].sha256, cache[c.pathKey].metadata))
    else Placed(c, process(c.path), None)
  }

  /** The entries of a scan, written without threads, slots or batches. */
  function Listed(cache: Cache, process: string -> Processed, found: seq<Candidate>): seq<ScanEntry> {
    if found == [] then []
    else
      var rest := Listed(cache, process, found[..|found| - 1]);
      match EntryOf(cache, process, found[|found| - 1])
      case Some(entry) => rest + [entry]
      case None => rest
  }

  /** The items whose cached hash is missing or out of date. */
  function StaleItems(cache: Cache, found: seq<Candidate>): seq<Candidate> {
    if found == [] then []
    else
      var front, last := StaleItems(cache, found[..|found| - 1]), found[|found| - 1];
      if Fresh(cache, last) then front else front + [last]
  }

  /** What a scan may end with: the one list of entries, and the cache after some order of completion. */
  ghost predicate ScanResult(cache: Cache, process: string -> Processed, found: seq<Candidate>, entries: seq<ScanEntry>, after: Cache) {
    && entries == Listed(cache, process, found)
    && exists order :: IsOrder(order, |StaleItems(cache, found)|) && after == Cached(cache, StaleItems(cache, found), process, order)
  }

  /** The items that need work, in order, each in the slot of its position. */
  ghost predicate Stale(cache: Cache, found: seq<Candidate>, upTo: nat, uncached: seq<Candidate>)
    requires upTo <= |found|
  {
    && (forall a :: 0 <= a < |uncached| ==>
          uncached[a].position < upTo && uncached[a] == found[uncached[a].position] && !Fresh(cache, uncached[a]))
    && (forall a, b :: 0 <= a < b < |uncached| ==> uncached[a].position < uncached[b].position)
    && (forall k :: 0 <= k < upTo && !Fresh(cache, found[k]) ==> found[k] in uncached)
  }

  ghost predicate Slotted(cache: Cache, found: seq<Candidate>, upTo: nat, slots: seq<Option<ScanEntry>>)
    requires upTo <= |found|
  {
    && |slots| == |found|
    && forall k :: 0 <= k < |found| ==>
         slots[k] == if k < upTo && Fresh(cache, found[k]) then EntryOf(cache, _ => Unreadable(""), found[k]) else None
  }

  lemma SlotsComplete(cache: Cache, process: string -> Processed, found: seq<Candidate>, uncached: seq<Candidate>, order: seq<nat>,
                      before: seq<Option<ScanEntry>>, slots: seq<Option<ScanEntry>>, k: nat)
    requires forall k :: 0 <= k < |found| ==> found[k].position == k
    requires Stale(cache, found, |found|, uncached) && Slotted(cache, found, |found|, before)
    requires Positioned(uncached, |before|) && IsOrder(order, |uncached|) && Filled(uncached, process, order, before, slots)
    requires k < |found|
    ensures |slots| == |found| && slots[k] == EntryOf(cache, process, found[k])
  {
  }

  lemma StaleStep(cache: Cache, found: seq<Candidate>, i: nat, uncached: seq<Candidate>)
    requires i < |found| && found[i].position == i && Stale(cache, found, i, uncached)
    ensures Stale(cache, found, i + 1, if Fresh(cache, found[i]) then uncached else uncached + [found[i]])
  {
  }

  lemma NextStale(cache: Cache, found: seq<Candidate>, i: nat)
    requires i < |found|
    ensures StaleItems(cache, found[..i + 1]) == StaleItems(cache, found[..i]) + if Fresh(cache, found[i]) then [] else [found[i]]
  {
    assert found[..i + 1][..i] == found[..i];
  }

  lemma SlottedStep(cache: Cache, found: seq<Candidate>, i: nat, slots: seq<Option<ScanEntry>>)
    requires i < |found| && Slotted(cache, found, i, slots)
    ensures Slotted(cache, found, i + 1,
                    if Fresh(cache, found[i]) then slots[i := EntryOf(cache, _ => Unreadable(""), found[i])] else slots)
  {
  }

  method Put(slots: array<Option<ScanEntry>>, position: nat, entry: Option<ScanEntry>)
    requires position < slots.Length
    modifies slots
    ensures slots[..] == old(slots[..])[position := entry]
  {
    slots[position] := entry;
  }

  /** The cached entries go to their slots; the other items are collected. */
  method UseCache(found: seq<Candidate>, cache: Cache, slots: array<Option<ScanEntry>>) returns (uncached: seq<Candidate>, cached: nat)
    requires forall k :: 0 <= k < |found| ==> found[k].position == k
    requires Slotted(cache, found, 0, slots[..])
    modifies slots
    ensures Stale(cache, found, |found|, uncached) && Slotted(cache, found, |found|, slots[..])
    ensures cached + |uncached| == |found| && Positioned(uncached, |found|) && uncached == StaleItems(cache, found)
  {
    uncached, cached := [], 0;
    for i := 0 to |found|
      invariant Stale(cache, found, i, uncached) && Slotted(cache, found, i, slots[..]) && cached + |uncached| == i
      invariant uncached == StaleItems(cache, found[..i])
    {
      var c := found[i];
      NextStale(cache, found, i);
      StaleStep(cache, found, i, uncached);
      SlottedStep(cache, found, i, slots[..]);
      if Fresh(cache, c) {
        Put(slots, c.position, Some(EntryFor(c, cache[c.pathKey].sha256, cache[c.pathKey].metadata)));
        cached := cached + 1;
      } else {
        uncached := uncached + [c];
      }
    }
    assert found[..|found|] == found;
  }

  /** The filled slots in the order of their positions. */
  method Gather(slots: array<Option<ScanEntry>>, cache: Cache, process: string -> Processed, found: seq<Candidate>)
    returns (entries: seq<ScanEntry>)
    requires slots.Length == |found| && forall k :: 0 <= k < |found| ==> slots[k] == EntryOf(cache, process, found[k])
    ensures entries == Listed(cache, process, found)
  {
    entries := [];
    for k := 0 to |found|
      invariant entries == Listed(cache, process, found[..k])
    {
      assert found[..k + 1][..k] == found[..k];
      match slots[k]
      case Some(entry) => entries := entries + [entry];
      case None =>
    }
    assert found[..|found|] == found;
  }

  /** scan, from the sorted candidates on. An exception in a worker aborts it, in whatever
      order the workers finish, and leaves the cache after some of them. */
  method Scan(found: seq<Candidate>, process: string -> Processed, workers: nat, writeBatch: nat, pick: Pick, cache: Cache)
    returns (raised: bool, entries: seq<ScanEntry>, cached: nat, hashed: nat, failed: nat, after: Cache)
    requires workers >= 1 && Fair(pick)
    requires forall k :: 0 <= k < |found| ==> found[k].position == k
    ensures raised <==> SomeRaised(StaleItems(cache, found), process)
    ensures raised ==> PartlyCached(cache, StaleItems(cache, found), process, after)
    ensures !raised ==> ScanResult(cache, process, found, entries, after) && cached + hashed + failed == |found|
  {
    var slots := new Option<ScanEntry>[|found|](_ => None);
    var uncached;
    uncached, cached := UseCache(found, cache, slots);
    ghost var before, order := slots[..], [];
    raised, hashed, failed, after, order := ProcessUncached(uncached, process, workers, writeBatch, pick, slots, cache);
    if raised {
      return true, [], cached, hashed, failed, after;
    }
    forall k: nat | k < |found| ensures slots[..][k] == EntryOf(cache, process, found[k]) {
      SlotsComplete(cache, process, found, uncached, order, before, slots[..], k);
    }
    entries := Gather(slots, cache, process, found);
  }
}
