/** The client's local database as an object. A public method is one transaction:
    what it writes before it raises is rolled back. Each is proved to be the
    function of the same name on the whole database. */
module LocalDatabase {
  import opened Prelude
  import opened Tables
  import opened Inventory
  import opened Store
  import S = Store
  import Splitting
  import SyncDiff

  // ---- Lists that the loops walk along ----

  /** SELECT JobId FROM DescriptionCandidate WHERE ... */
  function JobList(candidates: seq<Candidate>, where: Selector): (jobs: seq<JobId>)
    ensures forall job :: job in jobs <==> job in JobsOf(candidates, where)
  {
    if candidates == [] then []
    else
      var front, last := JobList(candidates[..|candidates| - 1], where), candidates[|candidates| - 1];
      assert candidates == candidates[..|candidates| - 1] + [last];
      if Selects(where, last) then front + [last.jobId] else front
  }

  function JobSet(jobs: seq<JobId>): set<JobId> { set job | job in jobs }

  /** The response, or the one acknowledge_batch makes up. */
  function ResponseOf(batch: Batch, given: Option<Response>): Response {
    if given.Some? then given.value
    else Response(seq(|batch.Entries()|, i requires 0 <= i < |batch.Entries()| => DefaultResult(batch.Entries()[i])), 0)
  }

  function DefaultResult(e: Entry): EntryResult {
    EntryResult(e.itemId, if e.operation == Deleted then DeletedOccurrence else CreatedOccurrence, false, "", "", "")
  }

  /** An item is only deleted, or not deleted, by a batch. */
  ghost predicate OneSided(entries: seq<Entry>) {
    && (forall e :: e in entries ==> e.itemId != "")
    && forall d, e :: d in entries && e in entries && d.itemId == e.itemId ==> (d.operation == Deleted <==> e.operation == Deleted)
  }

  lemma {:induction false} NoObjections(entries: seq<Entry>, batch: Batch)
    requires OneSided(batch.Entries()) && forall e :: e in entries ==> e in batch.Entries()
    ensures Objections(entries, batch.payload, ResponseOf(batch, None)) == []
  {
    if entries != [] {
      var e, response := entries[|entries| - 1], ResponseOf(batch, None);
      NoObjections(entries[..|entries| - 1], batch);
      var i :| 0 <= i < |batch.Entries()| && batch.Entries()[i] == e;
      assert response.results[i] in response.results;
      var r := ResultFor(response.results, e.itemId).value;
      var j :| 0 <= j < |response.results| && response.results[j] == r;
      assert batch.Entries()[j] in batch.Entries();
    }
  }

  /** A batch that is acknowledged without a response is sent, with every entry accepted. */
  lemma DefaultAccepts(batch: Batch)
    requires OneSided(batch.Entries())
    ensures Failures(batch.payload, ResponseOf(batch, None)) == []
  {
    NoObjections(batch.Entries(), batch);
  }

  function AcceptedPairs(entries: seq<Entry>, payload: Payload, response: Response): seq<(Entry, EntryResult)> {
    if entries == [] then []
    else
      var front, last := AcceptedPairs(entries[..|entries| - 1], payload, response), entries[|entries| - 1];
      if Judge(last, payload, response).None? then front + [(last, ResultFor(response.results, last.itemId).value)] else front
  }

  function RecordPairs(inv: Inventory, source: SourceId, pairs: seq<(Entry, EntryResult)>): Inventory {
    if pairs == [] then inv
    else Record(RecordPairs(inv, source, pairs[..|pairs| - 1]), source, pairs[|pairs| - 1].0, pairs[|pairs| - 1].1)
  }

  /** First collecting the accepted entries and then writing them is writing them as they come. */
  lemma {:induction false} PairsRecorded(inv: Inventory, source: SourceId, entries: seq<Entry>, payload: Payload, response: Response)
    ensures RecordPairs(inv, source, AcceptedPairs(entries, payload, response)) == RecordAccepted(inv, source, entries, payload, response)
  {
    if entries != [] {
      var front := AcceptedPairs(entries[..|entries| - 1], payload, response);
      PairsRecorded(inv, source, entries[..|entries| - 1], payload, response);
      assert AcceptedPairs(entries, payload, response)[..|front|] == front;
    }
  }

  /** The pending rows that are too large. */
  function Large(rows: seq<Batch>, max: nat): seq<Batch> {
    if rows == [] then []
    else
      var front, last := Large(rows[..|rows| - 1], max), rows[|rows| - 1];
      if |last.Entries()| > max then front + [last] else front
  }

  lemma {:induction false} LargePending(outbox: seq<Batch>, source: SourceId, max: nat)
    ensures Large(PendingOf(outbox, source), max) == Oversized(outbox, source, max)
  {
    if outbox != [] {
      var front := PendingOf(outbox[..|outbox| - 1], source);
      LargePending(outbox[..|outbox| - 1], source, max);
      if PendingOf(outbox, source) != front {
        assert PendingOf(outbox, source)[..|front|] == front;
      }
    }
  }

  /** Cutting at max and then going on is the recursive cut. */
  lemma ChunkAt(entries: seq<Entry>, start: nat, max: nat)
    requires max >= 1 && start < |entries|
    ensures var end := if start + max <= |entries| then start + max else |entries|;
      Chunks(entries[start..], max) == [entries[start..end]] + Chunks(entries[end..], max)
  {
    if start + max < |entries| {
      assert entries[start..][max..] == entries[start + max..];
      assert entries[start..][..max] == entries[start..start + max];
    } else {
      assert entries[|entries|..] == [];
      assert entries[start..|entries|] == entries[start..];
    }
  }

  /** UPDATE ManifestOutbox SET State = 'Pending' ... WHERE BatchId IN ids AND State = 'Discarded' */
  function Unsuspended(outbox: seq<Batch>, ids: seq<BatchId>): (r: seq<Batch>)
    ensures |r| == |outbox|
    ensures forall k :: 0 <= k < |r| ==>
      r[k] == if outbox[k].id in ids && outbox[k].state == Discarded then outbox[k].(state := Pending, note := NoNote) else outbox[k]
  {
    seq(|outbox|, k requires 0 <= k < |outbox| =>
      if outbox[k].id in ids && outbox[k].state == Discarded then outbox[k].(state := Pending, note := NoNote) else outbox[k])
  }

  lemma UnsuspendedRows(outbox: seq<Batch>, ids: seq<BatchId>)
    requires Splitting.DistinctIds(outbox)
    ensures Unsuspended(outbox, ids) == Mark(outbox, Ids(DiscardedAmong(outbox, set id | id in ids)), false, Pending, NoNote)
  {
    var rows := DiscardedAmong(outbox, set id | id in ids);
    forall k | 0 <= k < |outbox|
      ensures outbox[k].id in Ids(rows) <==> outbox[k].id in ids && outbox[k].state == Discarded
    {
      assert outbox[k] in outbox;
      Splitting.IdsSelect(outbox, rows, outbox[k]);
    }
  }

  lemma {:induction false} BadRowStays(inv: Inventory, source: SourceId, cursor: nat, entryCount: nat, rows: seq<Row>, n: nat)
    requires n <= |rows| && RecordRows(inv, source, cursor, entryCount, rows[..n]).Err?
    ensures RecordRows(inv, source, cursor, entryCount, rows) == RecordRows(inv, source, cursor, entryCount, rows[..n])
    decreases |rows|
  {
    if n == |rows| {
      assert rows[..n] == rows;
    } else {
      assert rows[..|rows| - 1][..n] == rows[..n];
      BadRowStays(inv, source, cursor, entryCount, rows[..|rows| - 1], n);
    }
  }

  lemma {:induction false} BadSceneStays(inv: Inventory, source: SourceId, tasks: seq<SceneTask>, n: nat)
    requires n <= |tasks| && QueueScenes(inv, source, tasks[..n]).Err?
    ensures QueueScenes(inv, source, tasks) == QueueScenes(inv, source, tasks[..n])
    decreases |tasks|
  {
    if n == |tasks| {
      assert tasks[..n] == tasks;
    } else {
      assert tasks[..|tasks| - 1][..n] == tasks[..n];
      BadSceneStays(inv, source, tasks[..|tasks| - 1], n);
    }
  }

  lemma {:induction false} EntriesOfMember(rows: seq<Batch>, b: Batch, e: Entry)
    requires b in rows && e in b.Entries()
    ensures e in EntriesOf(rows)
  {
    if rows[0] != b {
      EntriesOfMember(rows[1..], b, e);
    }
  }

  lemma NotCapturablePrefix(rows: seq<Batch>, i: nat)
    requires i < |rows| && !Capturable(rows[i].Entries())
    ensures !Capturable(EntriesOf(rows))
  {
    var e :| e in rows[i].Entries() && !(e.operation == Upsert && IsSha256(e.contentSha256));
    EntriesOfMember(rows, rows[i], e);
  }

  /** The inner loop of quarantined_revisions. */
  method AddFailures(failures: seq<Failure>, start: map<ItemId, string>) returns (blocked: map<ItemId, string>)
    ensures blocked == SyncDiff.BlockedBy(failures, start)
  {
    blocked := start;
    for i := 0 to |failures|
      invariant blocked == SyncDiff.BlockedBy(failures[..i], start)
    {
      assert failures[..i + 1][..i] == failures[..i];
      if failures[i].entry.Some? && failures[i].entry.value.itemId != "" && failures[i].entry.value.revision != "" {
        blocked := blocked[failures[i].entry.value.itemId := failures[i].entry.value.revision];
      }
    }
    assert failures[..|failures|] == failures;
  }

  ghost predicate ScenesSoFar(before: Inventory, source: SourceId, tasks: seq<SceneTask>, now: Inventory, queued: nat) {
    QueueScenes(before, source, tasks) == Ok((now, queued))
  }

  /** A transaction that returns nothing either commits the new database or leaves the old one. */
  ghost predicate Committed(result: Result<Store>, r: Result<()>, before: Store, after: Store) {
    match result
    case Err(error) => r == Err(error) && after == before
    case Ok(st) => r == Ok(()) && after == st
  }

  ghost predicate Returned<T(!new)>(result: Result<(Store, T)>, r: Result<T>, before: Store, after: Store) {
    if result.Err? then r == Err(result.error) && after == before
    else r == Ok(result.value.1) && after == result.value.0
  }

  /** The results dictionary of acknowledge_batch. */
  method ResultsByItem(results: seq<EntryResult>) returns (byItem: map<ItemId, EntryResult>)
    ensures forall item {:trigger ResultFor(results, item)} ::
              ResultFor(results, item) == if item in byItem then Some(byItem[item]) else None
  {
    byItem := map[];
    for i := 0 to |results|
      invariant forall item {:trigger ResultFor(results[..i], item)} ::
                  ResultFor(results[..i], item) == if item in byItem then Some(byItem[item]) else None
    {
      ghost var before := byItem;
      if results[i].itemId != "" {
        byItem := byItem[results[i].itemId := results[i]];
      }
      forall item ensures ResultFor(results[..i + 1], item) == if item in byItem then Some(byItem[item]) else None {
        assert results[..i + 1][..i] == results[..i];
        assert ResultFor(results[..i], item) == if item in before then Some(before[item]) else None;
      }
    }
    assert results[..|results|] == results;
  }

  /** The first half of acknowledge_batch: accepted entries on one list, failures on the other. */
  method JudgeEntries(payload: Payload, response: Response) returns (accepted: seq<(Entry, EntryResult)>, failures: seq<Failure>)
    ensures accepted == AcceptedPairs(payload.entries, payload, response)
    ensures failures == Failures(payload, response)
    ensures |accepted| + |Objections(payload.entries, payload, response)| == |payload.entries|
  {
    var results := ResultsByItem(response.results);
    var entries := payload.entries;
    accepted, failures := [], [];
    for i := 0 to |entries|
      invariant accepted == AcceptedPairs(entries[..i], payload, response)
      invariant failures == Objections(entries[..i], payload, response)
      invariant |accepted| + |failures| == i
    {
      assert entries[..i + 1][..i] == entries[..i];
      var entry := entries[i];
      var found := if entry.itemId in results then Some(results[entry.itemId]) else None;
      assert found == ResultFor(response.results, entry.itemId);
      match Objection(entry, payload.deletionReliable, found)
      case Some(reason) => failures := failures + [Failure(Some(entry), reason)];
      case None => accepted := accepted + [(entry, found.value)];
    }
    assert entries[..|entries|] == entries;
    if response.reportedRejected > |failures| {
      failures := failures + [Failure(None, RejectedCountMismatch)];
    }
  }

  /** The second loop of split_oversized_pending_batches: one row per piece, numbered in order. */
  method CutOversized(oversized: seq<Batch>, source: SourceId, scan: ScanId, max: nat, firstId: nat) returns (values: seq<Batch>)
    requires max >= 1
    ensures values == NewBatches(source, scan, AllReplacements(oversized, scan, max), firstId)
  {
    ghost var payloads: seq<Payload> := [];
    values := [];
    for i := 0 to |oversized|
      invariant payloads == AllReplacements(oversized[..i], scan, max)
      invariant values == NewBatches(source, scan, payloads, firstId)
    {
      assert oversized[..i + 1][..i] == oversized[..i];
      var payload := oversized[i].payload;
      var start := 0;
      ghost var before, chunks := payloads, [];
      while start < |payload.entries|
        invariant start <= |payload.entries|
        invariant chunks + Chunks(payload.entries[start..], max) == Chunks(payload.entries, max)
        invariant payloads == before + Repacked(payload, scan, chunks)
        invariant values == NewBatches(source, scan, payloads, firstId)
      {
        var end := if start + max <= |payload.entries| then start + max else |payload.entries|;
        ChunkAt(payload.entries, start, max);
        ghost var piece := payload.(snapshot := scan, entries := payload.entries[start..end]);
        ChunkDone(payload, scan, chunks, payload.entries[start..end], Chunks(payload.entries[end..], max));
        chunks, payloads := chunks + [payload.entries[start..end]], payloads + [piece];
        values := values + [Batch(firstId + |values|, source, scan, |values|,
                                  payload.(snapshot := scan, entries := payload.entries[start..end]), Pending, NoNote)];
        start := end;
      }
      assert payload.entries[start..] == [];
      assert chunks == Chunks(payload.entries, max);
    }
    assert oversized[..|oversized|] == oversized;
  }

  function Repacked(payload: Payload, scan: ScanId, chunks: seq<seq<Entry>>): (r: seq<Payload>)
    ensures |r| == |chunks|
  {
    seq(|chunks|, i requires 0 <= i < |chunks| => payload.(snapshot := scan, entries := chunks[i]))
  }

  lemma ChunkDone(payload: Payload, scan: ScanId, chunks: seq<seq<Entry>>, chunk: seq<Entry>, rest: seq<seq<Entry>>)
    ensures Repacked(payload, scan, chunks + [chunk])
         == Repacked(payload, scan, chunks) + [payload.(snapshot := scan, entries := chunk)]
    ensures chunks + ([chunk] + rest) == (chunks + [chunk]) + rest
  {
  }

  class LocalState {
    var bindings: map<SourceId, string>
    var lifecycle: map<string, nat>
    var outbox: seq<Batch>
    var scans: map<ScanId, Scan>
    var bulks: seq<Bulk>
    var known: map<Key, Occurrence>
    var candidates: seq<Candidate>
    var tasks: map<JobId, Task>
    var supply: nat

    /** The tables, as one value. */
    function Rows(): Store
      reads this
    {
      Store(bindings, lifecycle, outbox, scans, bulks, Library(), supply)
    }

    function Library(): Inventory
      reads this`known, this`candidates, this`tasks
    {
      Inventory(known, candidates, tasks)
    }

    constructor ()
      ensures Rows() == BLANK
    {
      bindings, lifecycle, outbox, scans, bulks := map[], map[], [], map[], [];
      known, candidates, tasks, supply := map[], [], map[], 0;
    }

    /** An exception leaves the with block: nothing of the transaction stays. */
    method Rollback(saved: Store)
      modifies this
      ensures Rows() == saved
    {
      bindings, lifecycle, outbox, scans, bulks := saved.bindings, saved.lifecycle, saved.outbox, saved.scans, saved.bulks;
      known, candidates, tasks, supply := saved.inv.known, saved.inv.candidates, saved.inv.tasks, saved.supply;
    }

    // ---- executemany: one UPDATE per row or scan ----

    method MarkEach(rows: seq<Batch>, pendingOnly: bool, state: BatchState, note: Note)
      requires state != Pending || !pendingOnly
      modifies this`outbox
      ensures outbox == Mark(old(outbox), Ids(rows), pendingOnly, state, note)
    {
      for i := 0 to |rows|
        invariant outbox == Mark(old(outbox), Ids(rows[..i]), pendingOnly, state, note)
      {
        assert rows[..i + 1] == rows[..i] + [rows[i]];
        outbox := Mark(outbox, {rows[i].id}, pendingOnly, state, note);
      }
      assert rows[..|rows|] == rows;
    }

    method SetEach(ids: set<ScanId>, status: ScanStatus)
      modifies this`scans
      ensures scans == SetStatus(old(scans), ids, status)
    {
      var left := ids;
      while left != {}
        invariant left <= ids && scans == SetStatus(old(scans), ids - left, status)
      {
        var id :| id in left;
        if id in scans {
          scans := scans[id := scans[id].(status := status)];
        }
        left := left - {id};
      }
    }

    // ---- Description tables ----

    /** _reselect_description_candidate */
    method ReselectCandidate(job: JobId)
      modifies this`tasks
      ensures tasks == Reselect(candidates, old(tasks), job)
    {
      var chosen := Latest(candidates, job);
      if chosen.None? {
        tasks := tasks - {job};
      } else if job in tasks {
        tasks := tasks[job := tasks[job].(subject := chosen.value)];
      }
    }

    method ReselectJobs(jobs: seq<JobId>)
      modifies this`tasks
      ensures tasks == ReselectAll(candidates, old(tasks), JobSet(jobs))
    {
      for i := 0 to |jobs|
        invariant tasks == ReselectAll(candidates, old(tasks), JobSet(jobs[..i]))
      {
        ReselectEach(candidates, old(tasks), JobSet(jobs[..i]), jobs[i]);
        assert JobSet(jobs[..i + 1]) == JobSet(jobs[..i]) + {jobs[i]};
        ReselectCandidate(jobs[i]);
      }
      assert jobs[..|jobs|] == jobs;
    }

    /** Candidates of these rows go, and their jobs look for another one. */
    method DropCandidates(where: Selector)
      modifies this`candidates, this`tasks
      ensures candidates == Delete(old(candidates), where)
      ensures tasks == ReselectAll(candidates, old(tasks), JobsOf(old(candidates), where))
    {
      var affected := JobList(candidates, where);
      assert JobSet(affected) == JobsOf(candidates, where);
      candidates := Delete(candidates, where);
      ReselectJobs(affected);
    }

    /** _queue_description_in_transaction */
    method QueueDescriptionInTransaction(source: SourceId, entry: Entry, result: EntryResult)
      modifies this`candidates, this`tasks
      ensures Library() == QueueDescription(old(Library()), source, entry, result)
    {
      if !Describable(entry, result) {
        return;
      }
      var added := Described(source, entry, result);
      DropCandidates(ItemExceptJob(source, added.itemId, added.jobId));
      candidates := Delete(candidates, RowOf(added.jobId, added.occurrenceId)) + [added];
      if added.jobId !in tasks {
        tasks := tasks[added.jobId := Task(added, TaskPending, 0)];
      }
    }

    /** What acknowledge_batch and apply_bulk_result_rows write for an accepted entry. */
    method RecordUpsertRow(source: SourceId, entry: Entry, result: EntryResult)
      modifies this`known, this`candidates, this`tasks
      ensures Library() == RecordUpsert(old(Library()), source, entry, result)
    {
      known := known[(source, entry.itemId) := Occurrence(entry.revision, entry.RelativePath())];
      QueueDescriptionInTransaction(source, entry, result);
    }

    method RecordDeletionRow(source: SourceId, item: ItemId)
      modifies this`known, this`candidates, this`tasks
      ensures Library() == RecordDeletion(old(Library()), source, item)
    {
      known := known - {(source, item)};
      DropCandidates(ItemOf(source, item));
    }

    // ---- Sources and scans ----

    method BindSource(source: SourceId, root: string)
      modifies this
      ensures Rows() == S.BindSource(old(Rows()), source, root)
    {
      bindings := bindings[source := root];
    }

    /** The inventory part of remove_binding. */
    method ForgetInventory(source: SourceId)
      modifies this`known, this`candidates, this`tasks
      ensures Library() == ForgetSource(old(Library()), source)
    {
      known := map key | key in known && key.0 != source :: known[key];
      DropCandidates(OfSource(source));
      tasks := map job | job in tasks && (tasks[job].subject.source == source ==> Latest(candidates, job).Some?) :: tasks[job];
    }

    method DeleteSource(source: SourceId, root: string, next: nat)
      modifies this
      ensures Rows() == old(Rows()).(
        bindings := old(bindings) - {source},
        lifecycle := old(lifecycle)[root := next],
        outbox := WithoutSource(old(outbox), source),
        bulks := BulksWithoutSource(old(bulks), source),
        inv := ForgetSource(old(Library()), source),
        scans := map id | id in old(scans) && old(scans)[id].source != source :: old(scans)[id])
    {
      outbox := WithoutSource(outbox, source);
      bulks := BulksWithoutSource(bulks, source);
      ForgetInventory(source);
      scans := map id | id in scans && scans[id].source != source :: scans[id];
      bindings := bindings - {source};
      lifecycle := lifecycle[root := next];
    }

    /** remove_binding */
    method RemoveBinding(source: SourceId) returns (r: Result<nat>)
      modifies this
      ensures Returned(RemoveSource(old(Rows()), source), r, old(Rows()), Rows())
    {
      if source !in bindings {
        return Err(NotFound);
      }
      var root := bindings[source];
      var next := (if root in lifecycle then lifecycle[root] else 0) + 1;
      DeleteSource(source, root, next);
      return Ok(next);
    }

    method BeginScan(source: SourceId) returns (scan: ScanId)
      modifies this
      ensures (Rows(), scan) == S.BeginScan(old(Rows()), source)
    {
      scan := supply;
      scans := scans[scan := Scan(source, Scanning, false)];
      supply := supply + 1;
    }

    method FinishScan(scan: ScanId, completeRead: bool)
      modifies this
      ensures Rows() == S.FinishScan(old(Rows()), scan, completeRead)
    {
      if scan in scans {
        scans := scans[scan := scans[scan].(status := Queued, completeRead := completeRead)];
      }
    }

    // ---- ManifestOutbox ----

    method QueueBatches(source: SourceId, scan: ScanId, payloads: seq<Payload>) returns (r: Result<()>)
      modifies this
      ensures Committed(S.QueueBatches(old(Rows()), source, scan, payloads), r, old(Rows()), Rows())
    {
      var saved := Rows();
      for sequence := 0 to |payloads|
        invariant Rows() == saved.(outbox := saved.outbox + NewBatches(source, scan, payloads[..sequence], saved.supply),
                                   supply := saved.supply + sequence)
        invariant forall b :: b in saved.outbox && b.scan == scan ==> b.sequence >= sequence
      {
        if exists b :: b in outbox && b.scan == scan && b.sequence == sequence {
          Rollback(saved);
          return Err(DuplicateKey);
        }
        outbox := outbox + [Batch(supply, source, scan, sequence, payloads[sequence], Pending, NoNote)];
        supply := supply + 1;
      }
      assert payloads[..|payloads|] == payloads;
      return Ok(());
    }

    method CollectOversized(source: SourceId, max: nat) returns (oversized: seq<Batch>)
      ensures oversized == Oversized(outbox, source, max)
    {
      var rows := PendingOf(outbox, source);
      oversized := [];
      for i := 0 to |rows|
        invariant oversized == Large(rows[..i], max)
      {
        assert rows[..i + 1][..i] == rows[..i];
        if |rows[i].Entries()| > max {
          oversized := oversized + [rows[i]];
        }
      }
      assert rows[..|rows|] == rows;
      LargePending(outbox, source, max);
    }

    method SplitOversizedPendingBatches(source: SourceId, max: nat) returns (r: Result<(nat, nat)>)
      modifies this
      ensures Split(old(Rows()), source, max).Err? ==>
        r == Err(Split(old(Rows()), source, max).error) && Rows() == old(Rows())
      ensures Split(old(Rows()), source, max).Ok? ==>
        && r == Ok((Split(old(Rows()), source, max).value.1, Split(old(Rows()), source, max).value.2))
        && Rows() == Split(old(Rows()), source, max).value.0
    {
      if !(1 <= max <= 500) {
        return Err(BadSplitSize);
      }
      var oversized := CollectOversized(source, max);
      if oversized == [] {
        return Ok((0, 0));
      }
      var added := ReplaceOversized(source, oversized, max);
      return Ok((|oversized|, added));
    }

    method ReplaceOversized(source: SourceId, oversized: seq<Batch>, max: nat) returns (added: nat)
      requires max >= 1
      modifies this
      ensures added == |AllReplacements(oversized, old(supply), max)|
      ensures Rows() == old(Rows()).(
        scans := SetStatus(old(scans)[old(supply) := Scan(source, Queued, true)], Scans(oversized), SplitForApiTimeout),
        outbox := Mark(old(outbox) + NewBatches(source, old(supply), AllReplacements(oversized, old(supply), max), old(supply) + 1),
                       Ids(oversized), true, Discarded, SplitNote(old(supply))),
        supply := old(supply) + 1 + added)
    {
      var scan := supply;
      scans := scans[scan := Scan(source, Queued, true)];
      var values := CutOversized(oversized, source, scan, max, supply + 1);
      added := |values|;
      outbox := outbox + values;
      supply := supply + 1 + added;
      MarkEach(oversized, true, Discarded, SplitNote(scan));
      SetEach(Scans(oversized), SplitForApiTimeout);
    }

    /** The last statements of acknowledge_batch. */
    method Settle(scan: ScanId)
      modifies this`scans
      ensures scans == SettleScan(old(scans), outbox, scan)
    {
      if !Any(outbox, scan, Pending) {
        SetEach({scan}, if Any(outbox, scan, Failed) then NeedsAttention else Complete);
      }
    }

    method WriteAccepted(source: SourceId, accepted: seq<(Entry, EntryResult)>)
      modifies this`known, this`candidates, this`tasks
      ensures Library() == RecordPairs(old(Library()), source, accepted)
    {
      for i := 0 to |accepted|
        invariant Library() == RecordPairs(old(Library()), source, accepted[..i])
      {
        assert accepted[..i + 1][..i] == accepted[..i];
        var (entry, result) := accepted[i];
        match entry.operation
        case Upsert => RecordUpsertRow(source, entry, result);
        case Deleted => RecordDeletionRow(source, entry.itemId);
        case OtherOperation =>
      }
      assert accepted[..|accepted|] == accepted;
    }

    method RecordAnswer(batch: Batch, response: Response) returns (accepted: nat, failures: seq<Failure>)
      modifies this
      ensures Rows() == Acknowledge(old(Rows()), batch, response) && failures == Failures(batch.payload, response)
      ensures accepted + |Objections(batch.Entries(), batch.payload, response)| == |batch.Entries()|
    {
      var pairs;
      pairs, failures := JudgeEntries(batch.payload, response);
      PairsRecorded(Library(), batch.source, batch.Entries(), batch.payload, response);
      WriteAccepted(batch.source, pairs);
      outbox := Mark(outbox, {batch.id}, false, if failures == [] then Sent else Failed,
                     if failures == [] then NoNote else EntryFailures(failures));
      Settle(batch.scan);
      accepted := |pairs|;
    }

    /** Without a response every entry is answered as accepted. */
    method AcknowledgeBatch(batch: Batch, given: Option<Response>) returns (accepted: nat, failures: seq<Failure>, state: BatchState)
      modifies this
      ensures Rows() == Acknowledge(old(Rows()), batch, ResponseOf(batch, given))
      ensures failures == Failures(batch.payload, ResponseOf(batch, given)) && state == if failures == [] then Sent else Failed
      ensures accepted + |Objections(batch.Entries(), batch.payload, ResponseOf(batch, given))| == |batch.Entries()|
    {
      accepted, failures := RecordAnswer(batch, ResponseOf(batch, given));
      state := if failures == [] then Sent else Failed;
    }

    method QuarantineRequestError(batch: Batch) returns (failures: seq<Failure>)
      modifies this
      ensures Rows() == QuarantineBatch(old(Rows()), batch)
      ensures failures == Refusals(batch.Entries())
    {
      failures := Refusals(batch.Entries());
      outbox := Mark(outbox, {batch.id}, true, Failed, RequestFailure(failures));
      if !Any(outbox, batch.scan, Pending) {
        SetEach({batch.scan}, NeedsAttention);
      }
    }

    method DiscardOutbox(id: BatchId) returns (r: Result<()>)
      modifies this
      ensures Committed(Discard(old(Rows()), id), r, old(Rows()), Rows())
    {
      var row := FindBatch(outbox, id);
      if row.None? {
        return Err(NotFound);
      }
      if row.value.state != Failed {
        return Err(NotFailed);
      }
      outbox := Mark(outbox, {id}, false, Discarded, row.value.note);
      if !Any(outbox, row.value.scan, Failed) {
        SetEach({row.value.scan}, CompleteWithDiscarded);
      }
      return Ok(());
    }

    method SuspendPendingBatches(source: SourceId) returns (ids: seq<BatchId>)
      modifies this
      ensures (Rows(), ids) == Suspend(old(Rows()), source)
    {
      var rows := PendingOf(outbox, source);
      ids := seq(|rows|, i requires 0 <= i < |rows| => rows[i].id);
      MarkEach(rows, true, Discarded, SuspendNote);
      SetEach(Scans(rows), SupersededByOneFile);
    }

    /** BatchId is the primary key of the table. */
    method RestoreSuspendedBatches(ids: seq<BatchId>)
      requires Splitting.DistinctIds(outbox)
      modifies this
      ensures Rows() == Restore(old(Rows()), set id | id in ids)
    {
      var rows := DiscardedAmong(outbox, set id | id in ids);
      for i := 0 to |ids|
        invariant Rows() == old(Rows()).(outbox := outbox)
        invariant outbox == Unsuspended(old(outbox), ids[..i])
      {
        assert ids[..i + 1] == ids[..i] + [ids[i]];
        outbox := Unsuspended(outbox, [ids[i]]);
      }
      assert ids[..|ids|] == ids;
      UnsuspendedRows(old(outbox), ids);
      SetEach(Scans(rows), Queued);
    }

    // ---- BulkManifestOutbox ----

    /** The checks on the captured batches in queue_bulk_manifest. */
    method CheckMembers(source: SourceId, ids: seq<BatchId>, entryCount: nat) returns (r: Result<()>)
      ensures var members := Members(PendingOf(outbox, source), source, ids);
        r == if exists id :: id in ids && id !in Ids(members) then Err(MemberNotPending)
             else if !Capturable(EntriesOf(members)) then Err(NotCapturable)
             else if ids != [] && |EntriesOf(members)| != entryCount then Err(CountMismatch)
             else Ok(())
    {
      var rows := Members(PendingOf(outbox, source), source, ids);
      if exists id :: id in ids && id !in Ids(rows) {
        return Err(MemberNotPending);
      }
      var represented := 0;
      for i := 0 to |rows|
        invariant represented == |EntriesOf(rows[..i])| && Capturable(EntriesOf(rows[..i]))
      {
        assert rows[..i + 1] == rows[..i] + [rows[i]];
        Splitting.EntriesOfSnoc(rows[..i], rows[i]);
        if !Capturable(rows[i].Entries()) {
          NotCapturablePrefix(rows, i);
          return Err(NotCapturable);
        }
        represented := represented + |rows[i].Entries()|;
      }
      assert rows[..|rows|] == rows;
      if ids != [] && represented != entryCount {
        return Err(CountMismatch);
      }
      return Ok(());
    }

    method QueueBulkManifest(source: SourceId, snapshot: nat, artifact: Artifact, ids: seq<BatchId>) returns (r: Result<Bulk>)
      modifies this
      ensures Returned(QueueBulk(old(Rows()), source, snapshot, artifact, ids), r, old(Rows()), Rows())
    {
      if !IsSha256(artifact.sha256) {
        return Err(BadDigest);
      }
      if artifact.bytes == 0 || artifact.entryCount == 0 {
        return Err(BadCount);
      }
      if !artifact.fileMatches {
        return Err(FileMismatch);
      }
      if source !in bindings {
        return Err(NotFound);
      }
      var active := ActiveBulk(bulks, source);
      if active.Some? && active.value.snapshot != snapshot {
        return Err(OtherImportActive);
      }
      var existing := FindSnapshot(bulks, source, snapshot);
      if existing.Some? {
        var item := existing.value;
        if item.sha256 != artifact.sha256 || item.bytes != artifact.bytes
           || item.entryCount != artifact.entryCount || item.captured != ids {
          return Err(SnapshotConflict);
        }
        return Ok(item);
      }
      var checked := CheckMembers(source, ids, artifact.entryCount);
      if checked.Err? {
        return Err(checked.error);
      }
      var row := Bulk(supply, source, snapshot, artifact.sha256, artifact.bytes, artifact.entryCount,
                      Prepared, None, None, 0, None, 0, ids);
      bulks := bulks + [row];
      supply := supply + 1;
      return Ok(row);
    }

    method SetBulkManifestServerImport(id: BulkId, importId: ImportId, status: ImportStatus) returns (r: Result<()>)
      modifies this
      ensures Committed(BindImport(old(Rows()), id, importId, status), r, old(Rows()), Rows())
    {
      var row := FindBulk(bulks, id);
      if row.None? {
        return Err(NotFound);
      }
      if row.value.importId.Some? && row.value.importId.value != importId {
        return Err(AlreadyBound);
      }
      bulks := SetBulk(bulks, row.value.(importId := Some(importId), serverStatus := Some(status), state := Remote(status)));
      return Ok(());
    }

    method UpdateBulkManifestStatus(id: BulkId, status: ImportStatus, processed: nat) returns (r: Result<()>)
      modifies this
      ensures Committed(UpdateStatus(old(Rows()), id, status, processed), r, old(Rows()), Rows())
    {
      var row := FindBulk(bulks, id);
      if row.None? {
        return Err(NotFound);
      }
      if processed > row.value.entryCount {
        return Err(TooManyProcessed);
      }
      bulks := SetBulk(bulks, row.value.(state := Remote(status), serverStatus := Some(status), processed := processed));
      return Ok(());
    }

    method RecordBulkManifestResult(id: BulkId, sha256: string, fileMatches: bool) returns (r: Result<()>)
      modifies this
      ensures Committed(RecordResult(old(Rows()), id, sha256, fileMatches), r, old(Rows()), Rows())
    {
      if !fileMatches {
        return Err(FileMismatch);
      }
      if !IsSha256(sha256) {
        return Err(BadDigest);
      }
      var row := FindBulk(bulks, id);
      if row.None? {
        return Err(NotFound);
      }
      if row.value.importId.None? || row.value.serverStatus !in {Some(Succeeded), Some(CompletedWithErrors)} {
        return Err(ResultUnavailable);
      }
      bulks := SetBulk(bulks, row.value.(resultSha := Some(sha256), state := ResultReady));
      return Ok(());
    }

    /** The loop of apply_bulk_result_rows: rows are written as they are checked. */
    method ApplyEach(bulk: Bulk, rows: seq<Row>) returns (r: Result<()>)
      modifies this`known, this`candidates, this`tasks
      ensures var all := RecordRows(old(Library()), bulk.source, bulk.appliedThrough, bulk.entryCount, rows);
        if all.Ok? then r == Ok(()) && Library() == all.value else r == Err(all.error)
    {
      var expected := bulk.appliedThrough + 1;
      for i := 0 to |rows|
        invariant expected == bulk.appliedThrough + 1 + i
        invariant RecordRows(old(Library()), bulk.source, bulk.appliedThrough, bulk.entryCount, rows[..i]) == Ok(Library())
      {
        assert rows[..i + 1][..i] == rows[..i];
        var error := RowError(rows[i], expected, bulk.entryCount);
        if error.Some? {
          BadRowStays(old(Library()), bulk.source, bulk.appliedThrough, bulk.entryCount, rows, i + 1);
          return Err(error.value);
        }
        if rows[i].result.outcome != Rejected {
          RecordUpsertRow(bulk.source, rows[i].entry, rows[i].result);
        }
        expected := expected + 1;
      }
      assert rows[..|rows|] == rows;
      return Ok(());
    }

    method ApplyBulkResultRows(id: BulkId, rows: seq<Row>) returns (r: Result<nat>)
      modifies this
      ensures var applied := ApplyRows(old(Rows()), id, rows);
        if applied.Err? then r == Err(applied.error) && Rows() == old(Rows())
        else rows != [] && r == Ok(rows[|rows| - 1].number) && Rows() == applied.value
    {
      if rows == [] {
        return Err(EmptyPage);
      }
      var saved := Rows();
      var row := FindBulk(bulks, id);
      if row.None? {
        return Err(NotFound);
      }
      if row.value.state !in {ResultReady, ApplyingResult} {
        return Err(NotVerified);
      }
      var each := ApplyEach(row.value, rows);
      if each.Err? {
        Rollback(saved);
        return Err(each.error);
      }
      bulks := SetBulk(bulks, row.value.(appliedThrough := rows[|rows| - 1].number, state := ApplyingResult));
      return Ok(rows[|rows| - 1].number);
    }

    /** The loop over the scans of the captured batches. */
    method SupersedeScans(scanIds: set<ScanId>)
      modifies this`scans
      ensures scans == SetStatus(old(scans), (set scan | scan in scanIds && !Any(outbox, scan, Pending)), SupersededByBulk)
    {
      var left := scanIds;
      while left != {}
        invariant left <= scanIds
        invariant scans == SetStatus(old(scans), (set scan | scan in scanIds - left && !Any(outbox, scan, Pending)), SupersededByBulk)
      {
        var scan :| scan in left;
        if !Any(outbox, scan, Pending) && scan in scans {
          scans := scans[scan := scans[scan].(status := SupersededByBulk)];
        }
        left := left - {scan};
      }
    }

    method SupersedeMembers(members: seq<Batch>, bulk: BulkId)
      modifies this`outbox, this`scans
      ensures outbox == Mark(old(outbox), Ids(members), true, Discarded, BulkNote(bulk))
      ensures scans == SetStatus(old(scans), (set b | b in members && !Any(outbox, b.scan, Pending) :: b.scan), SupersededByBulk)
    {
      MarkEach(members, true, Discarded, BulkNote(bulk));
      SupersedeScans(Scans(members));
      assert (set scan | scan in Scans(members) && !Any(outbox, scan, Pending))
          == set b | b in members && !Any(outbox, b.scan, Pending) :: b.scan;
    }

    method CompleteBulkManifest(id: BulkId) returns (r: Result<()>)
      modifies this
      ensures Committed(CompleteBulk(old(Rows()), id), r, old(Rows()), Rows())
    {
      var row := FindBulk(bulks, id);
      if row.None? {
        return Err(NotFound);
      }
      if row.value.serverStatus != Some(Succeeded) {
        return Err(NotRejectionFree);
      }
      if row.value.appliedThrough != row.value.entryCount {
        return Err(NotFullyApplied);
      }
      var members := Members(outbox, row.value.source, row.value.captured);
      if exists batch :: batch in row.value.captured && batch !in Ids(members) {
        return Err(MemberMissing);
      }
      SupersedeMembers(members, id);
      bulks := SetBulk(bulks, row.value.(state := Applied));
      return Ok(());
    }

    method FailBulkManifest(id: BulkId, state: ImportStatus, serverStatus: Option<ImportStatus>) returns (r: Result<()>)
      modifies this
      ensures Committed(FailBulk(old(Rows()), id, state, serverStatus), r, old(Rows()), Rows())
    {
      if state !in {FailedPermanent, Cancelled, Expired} {
        return Err(NotATerminalState);
      }
      var row := FindBulk(bulks, id);
      if row.None? {
        return Err(NotFound);
      }
      bulks := SetBulk(bulks, row.value.(state := Remote(state),
        serverStatus := if serverStatus.Some? then serverStatus else Some(state)));
      return Ok(());
    }

    // ---- queue_scene_description_tasks ----

    method QueuePreparedTask(source: SourceId, task: SceneTask) returns (queued: nat)
      modifies this`candidates, this`tasks
      ensures (Library(), queued) == QueuePrepared(old(Library()), source, task)
    {
      var job := task.result.jobId;
      var existing := if job in tasks then Some(tasks[job]) else None;
      QueueDescriptionInTransaction(source, task.entry.(mediaType := "Photo"), task.result);
      if existing.None? {
        return 1;
      }
      var identity := DeclaredBy(source, task);
      var reset := existing.value.state != TaskSent
        && (!SameIdentity(identity, existing.value.subject)
            || existing.value.state in {TaskDeferred, TaskFailed, TaskSkipped});
      if job in tasks {
        tasks := tasks[job := tasks[job].(subject := identity, state := if reset then TaskPending else tasks[job].state)];
      }
      queued := if reset then 1 else 0;
    }

    method QueueEach(source: SourceId, prepared: seq<SceneTask>) returns (r: Result<nat>)
      modifies this`candidates, this`tasks
      ensures var all := QueueScenes(old(Library()), source, prepared);
        if all.Err? then r == Err(all.error) else r == Ok(all.value.1) && Library() == all.value.0
    {
      var queued := 0;
      for i := 0 to |prepared|
        invariant ScenesSoFar(old(Library()), source, prepared[..i], Library(), queued)
      {
        assert prepared[..i + 1][..i] == prepared[..i];
        if !prepared[i].belongs {
          BadSceneStays(old(Library()), source, prepared, i + 1);
          return Err(ForeignTask);
        }
        var more := QueuePreparedTask(source, prepared[i]);
        queued := queued + more;
      }
      assert prepared[..|prepared|] == prepared;
      return Ok(queued);
    }

    method QueueSceneDescriptionTasks(source: SourceId, prepared: seq<SceneTask>) returns (r: Result<nat>)
      modifies this
      ensures var all := QueueScenes(old(Library()), source, prepared);
        if all.Err? then r == Err(all.error) && Rows() == old(Rows())
        else r == Ok(all.value.1) && Rows() == old(Rows()).(inv := all.value.0)
    {
      var saved := Rows();
      r := QueueEach(source, prepared);
      if r.Err? {
        Rollback(saved);
      }
    }

    // ---- quarantined_revisions ----

    method QuarantinedRevisions(source: SourceId) returns (blocked: map<ItemId, string>)
      ensures blocked == SyncDiff.Quarantined(outbox, source)
    {
      blocked := map[];
      for i := 0 to |outbox|
        invariant blocked == SyncDiff.Quarantined(outbox[..i], source)
      {
        assert outbox[..i + 1][..i] == outbox[..i];
        if outbox[i].source == source && outbox[i].state == Failed {
          blocked := AddFailures(outbox[i].note.Recorded(), blocked);
        }
      }
      assert outbox[..|outbox|] == outbox;
    }
  }
}
