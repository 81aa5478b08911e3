/** The loops of the sync engine over the local database: choosing batches for a
    bulk manifest, sending pending batches, applying a bulk result, queueing a diff. */
module SyncEngine {
  import opened Prelude
  import opened Tables
  import opened Store
  import opened Transport
  import opened Splitting
  import opened SyncDiff
  import opened LocalDatabase

  // ---- _bounded_bulk_batches ----

  /** The oldest pending batches, at least one, and as many as the row limit lets in. */
  method BoundedBulkBatches(batches: seq<Batch>, maximumRows: Option<nat>) returns (selected: seq<Batch>)
    ensures selected <= batches && (batches != [] ==> selected != [])
    ensures maximumRows.None? ==> selected == batches
    ensures maximumRows.Some? && |selected| > 1 ==> |EntriesOf(selected)| <= maximumRows.value
    ensures |selected| < |batches| ==> maximumRows.Some? && |EntriesOf(batches[..|selected| + 1])| > maximumRows.value
  {
    if maximumRows.None? {
      return batches;
    }
    selected := [];
    var rows := 0;
    for i := 0 to |batches|
      invariant selected == batches[..i] && rows == |EntriesOf(selected)|
      invariant i > 0 ==> rows <= maximumRows.value
    {
      var batchRows := |batches[i].Entries()|;
      EntriesOfPrefix(batches, i + 1);
      if selected != [] && rows + batchRows > maximumRows.value {
        break;
      }
      if selected == [] && batchRows > maximumRows.value {
        selected := selected + [batches[i]];
        if |batches| > 1 {
          EntriesOfPrefix(batches, 2);
        }
        break;
      }
      selected := selected + [batches[i]];
      rows := rows + batchRows;
    }
  }

  // ---- _flush_pending ----

  /** What submit_manifest comes to: a response, a permanent refusal, an outage, or a 401. */
  datatype Answer = Answered(response: Response) | Refused | Unavailable | Denied

  datatype FlushEnd = Delivered | Paused | Raised

  predicate WantsUpload(response: Response) {
    exists x :: x in response.results && x.uploadRequired
  }

  /** The request of this batch lets the loop go on. */
  predicate GoesOn(answer: Answer) {
    answer.Refused? || (answer.Answered? && !WantsUpload(answer.response))
  }

  function Deliver(st: Store, batch: Batch, answer: Answer): Store {
    match answer
    case Answered(response) => Acknowledge(st, batch, response)
    case Refused => QuarantineBatch(st, batch)
    case _ => st
  }

  function DeliverFirst(st: Store, batches: seq<Batch>, service: Batch -> Answer, n: nat): Store
    requires n <= |batches|
  {
    if n == 0 then st else Deliver(DeliverFirst(st, batches, service, n - 1), batches[n - 1], service(batches[n - 1]))
  }

  /** Every pending batch of the source is one that the loop has yet to come to. */
  ghost predicate OnlyRest(outbox: seq<Batch>, source: SourceId, rest: seq<Batch>) {
    forall b :: b in outbox && b.source == source && b.state == Pending ==> b.id in Ids(rest)
  }

  /** The batches the loop has yet to come to are as they were. */
  ghost predicate Waiting(outbox: seq<Batch>, rest: seq<Batch>) {
    forall b :: b in rest ==> b in outbox && b.state == Pending
  }

  lemma MarkedRest(outbox: seq<Batch>, source: SourceId, rest: seq<Batch>, pendingOnly: bool, state: BatchState, note: Note)
    requires rest != [] && DistinctIds(rest) && state != Pending
    requires OnlyRest(outbox, source, rest) && Waiting(outbox, rest)
    ensures var after := Mark(outbox, {rest[0].id}, pendingOnly, state, note);
      OnlyRest(after, source, rest[1..]) && Waiting(after, rest[1..])
  {
  }

  lemma DeliveredRest(st: Store, source: SourceId, rest: seq<Batch>, answer: Answer)
    requires rest != [] && DistinctIds(rest) && OnlyRest(st.outbox, source, rest) && Waiting(st.outbox, rest)
    requires answer.Answered? || answer.Refused?
    ensures var after := Deliver(st, rest[0], answer).outbox;
      OnlyRest(after, source, rest[1..]) && Waiting(after, rest[1..])
  {
    match answer
    case Answered(response) =>
      var failures := Failures(rest[0].payload, response);
      MarkedRest(st.outbox, source, rest, false, if failures == [] then Sent else Failed,
                 if failures == [] then NoNote else EntryFailures(failures));
    case Refused =>
      MarkedRest(st.outbox, source, rest, true, Failed, RequestFailure(Refusals(rest[0].Entries())));
  }

  lemma NothingPending(outbox: seq<Batch>, source: SourceId)
    requires OnlyRest(outbox, source, [])
    ensures PendingOf(outbox, source) == []
  {
  }

  ghost predicate Keyed(st: Store) {
    DistinctIds(st.outbox) && DistinctSlots(st.outbox) && Below(st.outbox, st.supply)
  }

  function SplitFirst(st: Store, source: SourceId): Store {
    match Split(st, source, MANIFEST_BATCH_SIZE)
    case Err(_) => st
    case Ok((after, _, _)) => after
  }

  /** How far the loop got, and why it stopped there. */
  ghost predicate Stopped(batches: seq<Batch>, service: Batch -> Answer, end: FlushEnd, handled: nat) {
    && handled <= |batches|
    && (end == Delivered <==> handled == |batches| && forall b :: b in batches ==> GoesOn(service(b)))
    && (end == Paused ==> handled < |batches| && service(batches[handled]) == Unavailable)
  }

  /** One request and what is recorded of its answer. */
  method SubmitOne(local: LocalState, source: SourceId, batches: seq<Batch>, k: nat, answer: Answer)
    requires k < |batches| && DistinctIds(batches) && (answer.Answered? || answer.Refused?)
    requires OnlyRest(local.outbox, source, batches[k..]) && Waiting(local.outbox, batches[k..])
    modifies local
    ensures local.Rows() == Deliver(old(local.Rows()), batches[k], answer)
    ensures OnlyRest(local.outbox, source, batches[k + 1..]) && Waiting(local.outbox, batches[k + 1..])
  {
    DeliveredRest(local.Rows(), source, batches[k..], answer);
    assert batches[k..][1..] == batches[k + 1..];
    match answer
    case Answered(response) =>
      var accepted, failures, state := local.AcknowledgeBatch(batches[k], Some(response));
    case Refused =>
      var failures := local.QuarantineRequestError(batches[k]);
  }

  /** The loop of _flush_pending. */
  method SubmitAll(local: LocalState, source: SourceId, batches: seq<Batch>, service: Batch -> Answer)
    returns (end: FlushEnd, handled: nat)
    requires DistinctIds(batches) && OnlyRest(local.outbox, source, batches) && Waiting(local.outbox, batches)
    modifies local
    ensures Stopped(batches, service, end, handled)
    ensures local.Rows() == DeliverFirst(old(local.Rows()), batches, service, handled)
    ensures OnlyRest(local.outbox, source, batches[handled..]) && Waiting(local.outbox, batches[handled..])
  {
    ghost var start := local.Rows();
    handled := 0;
    while handled < |batches|
      invariant handled <= |batches| && local.Rows() == DeliverFirst(start, batches, service, handled)
      invariant OnlyRest(local.outbox, source, batches[handled..]) && Waiting(local.outbox, batches[handled..])
      invariant forall k :: 0 <= k < handled ==> GoesOn(service(batches[k]))
    {
      var answer := service(batches[handled]);
      if answer.Unavailable? {
        return Paused, handled;
      }
      if answer.Denied? {
        return Raised, handled;
      }
      SubmitOne(local, source, batches, handled, answer);
      handled := handled + 1;
      if !GoesOn(answer) {
        return Raised, handled;
      }
    }
    return Delivered, handled;
  }

  /** _flush_pending: after the split every batch in turn, until an answer stops the loop.
      A run to the end leaves nothing pending; a stop leaves the rest as it was. */
  method FlushPending(local: LocalState, source: SourceId, service: Batch -> Answer) returns (end: FlushEnd, handled: nat)
    requires Keyed(local.Rows())
    modifies local
    ensures var split := SplitFirst(old(local.Rows()), source);
      && Stopped(PendingOf(split.outbox, source), service, end, handled)
      && local.Rows() == DeliverFirst(split, PendingOf(split.outbox, source), service, handled)
      && Waiting(local.outbox, PendingOf(split.outbox, source)[handled..])
    ensures end == Delivered ==> PendingOf(local.outbox, source) == []
  {
    SplitKeepsIds(local.Rows(), source, MANIFEST_BATCH_SIZE);
    var split := local.SplitOversizedPendingBatches(source, MANIFEST_BATCH_SIZE);
    var batches := PendingOf(local.outbox, source);
    PendingDistinct(local.outbox, source);
    end, handled := SubmitAll(local, source, batches, service);
    if end == Delivered {
      NothingPending(local.outbox, source);
    }
  }

  // ---- _apply_bulk_result ----

  const BULK_RESULT_APPLY_PAGE_SIZE := 500

  /** The same in one page, and then the completion. */
  function AppliedAtOnce(st: Store, id: BulkId, rows: seq<Row>): Result<Store> {
    if rows == [] then CompleteBulk(st, id)
    else
      match ApplyRows(st, id, rows)
      case Err(error) => Err(error)
      case Ok(applied) => CompleteBulk(applied, id)
  }

  lemma PageSaved(st: Store, id: BulkId, rows: seq<Row>, done: nat, end: nat, middle: Store)
    requires done < end <= |rows| && Saves(ResultPage(id), st, rows, done, middle)
    ensures var page := ApplyRows(middle, id, rows[done..end]);
      if page.Ok? then Saves(ResultPage(id), st, rows, end, page.value) else ApplyRows(st, id, rows).Err?
  {
    ResultPagesSplit(id);
    var page := ApplyRows(middle, id, rows[done..end]);
    if done == 0 {
      assert rows[0..end] == rows[..end];
    } else {
      SplitAt(ResultPage(id), st, rows[..end], done);
      assert rows[..end][..done] == rows[..done] && rows[..end][done..] == rows[done..end];
    }
    assert ApplyRows(st, id, rows[..end]) == page;
    if end == |rows| {
      assert rows[..end] == rows;
    } else if page.Err? {
      SplitAt(ResultPage(id), st, rows, end);
    }
  }

  method ApplyOnePage(local: LocalState, id: BulkId, rows: seq<Row>, saved: nat, end: nat, ghost start: Store) returns (r: Result<()>)
    requires saved < end <= |rows| && Saves(ResultPage(id), start, rows, saved, local.Rows())
    modifies local
    ensures r.Ok? ==> Saves(ResultPage(id), start, rows, end, local.Rows())
    ensures r.Err? ==> Saves(ResultPage(id), start, rows, saved, local.Rows()) && ApplyRows(start, id, rows).Err?
  {
    PageSaved(start, id, rows, saved, end, local.Rows());
    var applied := local.ApplyBulkResultRows(id, rows[saved..end]);
    r := if applied.Ok? then Ok(()) else Err(applied.error);
  }

  method ApplyAllPages(local: LocalState, id: BulkId, rows: seq<Row>) returns (r: Result<()>, saved: nat)
    modifies local
    ensures saved <= |rows| && Saves(ResultPage(id), old(local.Rows()), rows, saved, local.Rows())
    ensures r.Ok? ==> saved == |rows|
    ensures r.Err? ==> rows != [] && ApplyRows(old(local.Rows()), id, rows).Err?
  {
    ghost var start := local.Rows();
    saved := 0;
    for i := 0 to |rows|
      invariant saved <= i && i - saved < BULK_RESULT_APPLY_PAGE_SIZE
      invariant Saves(ResultPage(id), start, rows, saved, local.Rows())
    {
      if i + 1 - saved >= BULK_RESULT_APPLY_PAGE_SIZE {
        var page := ApplyOnePage(local, id, rows, saved, i + 1, start);
        if page.Err? {
          return page, saved;
        }
        saved := i + 1;
      }
    }
    if saved < |rows| {
      var page := ApplyOnePage(local, id, rows, saved, |rows|, start);
      if page.Err? {
        return page, saved;
      }
      saved := |rows|;
    }
    return Ok(()), saved;
  }

  /** The rows after the saved cursor in pages, each its own transaction, then the
      completion. However far it gets, a whole number of rows is saved; and it succeeds
      exactly when, and as, the application in one page does. */
  method ApplyBulkResult(local: LocalState, id: BulkId, rows: seq<Row>) returns (r: Result<()>, saved: nat)
    modifies local
    ensures r.Ok? <==> AppliedAtOnce(old(local.Rows()), id, rows).Ok?
    ensures r.Ok? ==> local.Rows() == AppliedAtOnce(old(local.Rows()), id, rows).value
    ensures r.Err? ==> saved <= |rows| && Saves(ResultPage(id), old(local.Rows()), rows, saved, local.Rows())
  {
    r, saved := ApplyAllPages(local, id, rows);
    if r.Ok? {
      assert rows[..|rows|] == rows;
      r := local.CompleteBulkManifest(id);
    }
  }

  // ---- sync: from the scan to the queued batches ----

  /** The saved revisions and the diff, then begin_scan, queue_batches and finish_scan. */
  method QueueChanges(local: LocalState, source: SourceId, outcome: ScanOutcome, order: seq<ItemId>) returns (queued: Option<ScanId>)
    requires Enumerates(order, local.known, source) && Below(local.outbox, local.supply)
    modifies local
    ensures var st := old(local.Rows());
      var entries := Diff(outcome, order, st.inv.known, Quarantined(st.outbox, source), source);
      var (begun, scan) := BeginScan(st, source);
      if entries == [] then queued == None && local.Rows() == st
      else
        && queued == Some(scan)
        && QueueBatches(begun, source, scan, ManifestPayloads(scan, entries, outcome.complete)).Ok?
        && local.Rows()
           == FinishScan(QueueBatches(begun, source, scan, ManifestPayloads(scan, entries, outcome.complete)).value, scan, outcome.complete)
  {
    var blocked := local.QuarantinedRevisions(source);
    var changed, same, held := ChangedEntries(outcome, local.known, blocked, source);
    var entries := changed;
    if outcome.complete {
      var deleted := DeletedEntries(order, local.known, blocked, source, outcome.seen);
      entries := entries + deleted;
    } else {
      assert entries == changed + [];
    }
    if entries == [] {
      return None;
    }
    var scan := local.BeginScan(source);
    var payloads := BuildPayloads(scan, entries, outcome.complete);
    var stored := local.QueueBatches(source, scan, payloads);
    local.FinishScan(scan, outcome.complete);
    return Some(scan);
  }
}
