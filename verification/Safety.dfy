/** What holds after every sequence of steps. */
module Safety {
  import opened Prelude
  import opened Tables
  import opened Inventory
  import opened Store
  import opened Splitting
  import opened Transport
  import opened SyncDiff
  import opened Runs
  import opened Outbox
  import opened Conservation
  import opened Captures
  import opened Scans
  import opened Origins

  ghost predicate Sound(w: World) {
    var st, ledger := w.store, w.ledger;
    && IdsOk(st.outbox, st.supply)
    && (forall id :: id in st.scans ==> id < st.supply)
    && Kept(st.outbox, ledger)
    && BulkIdsOk(st.bulks, ledger, st.supply)
    && AllCaptured(st.bulks, st.outbox, ledger)
    && AllFit(st.outbox, st.scans)
    && AllOriginate(st.outbox, ledger.origins)
    && Consistent(st.inv)
  }

  lemma StartSound()
    ensures Sound(START)
  {
  }

  // ---- Steps on the outbox ----

  /** New rows keep what holds of the others. */
  lemma AppendSound(w: World, added: seq<Batch>, supply: nat, later: Ledger)
    requires Sound(w) && w.store.supply <= supply
    requires later.artifacts == w.ledger.artifacts && later.applied == w.ledger.applied
    requires IdsOk(w.store.outbox + added, supply)
    requires Kept(w.store.outbox + added, later) && AllFit(w.store.outbox + added, w.store.scans)
    requires AllOriginate(w.store.outbox + added, later.origins)
    requires forall b, c :: b in w.store.outbox && c in added ==> b.id != c.id
    ensures Sound(World(w.store.(outbox := w.store.outbox + added, supply := supply), later))
  {
    LedgerCaptures(w.store.bulks, w.store.outbox, w.ledger, later);
    AppendCaptures(w.store.bulks, w.store.outbox, added, later);
  }

  lemma QueuedSound(w: World, scan: ScanId, outcome: ScanOutcome, order: seq<ItemId>, origin: Origin, payloads: seq<Payload>,
                    later: Ledger)
    requires Sound(w) && Scanned(outcome)
    requires scan in w.store.scans && w.store.scans[scan].status != Complete
    requires forall b :: b in w.store.outbox ==> b.scan != scan
    requires origin == DiffOrigin(w.store, scan, outcome, order)
    requires payloads == ManifestPayloads(scan, origin.entries, outcome.complete)
    requires later == w.ledger.(
      queued := w.ledger.queued[origin.source := QueuedBy(w.ledger.queued, origin.source) + multiset(origin.entries)],
      origins := NewOrigins(w.ledger.origins, NewBatches(origin.source, scan, payloads, w.store.supply), origin))
    ensures Sound(World(w.store.(outbox := w.store.outbox + NewBatches(origin.source, scan, payloads, w.store.supply),
                                 supply := w.store.supply + |payloads|), later))
  {
    var st := w.store;
    AppendIds(st.outbox, st.supply, origin.source, scan, payloads, st.supply);
    QueueKeeps(st.outbox, w.ledger, origin.source, scan, outcome, origin.entries, st.supply, later.origins);
    QueueFits(st.outbox, st.scans, scan, payloads, st.supply);
    QueueOriginates(st, scan, outcome, order, w.ledger.origins);
    AppendSound(w, NewBatches(origin.source, scan, payloads, st.supply), st.supply + |payloads|, later);
  }

  /** A diff that may be queued is queued. */
  lemma QueueWrites(w: World, scan: ScanId, outcome: ScanOutcome, order: seq<ItemId>, origin: Origin, payloads: seq<Payload>)
    requires Allowed(w.store, DiffQueued(scan, outcome, order)) && origin == DiffOrigin(w.store, scan, outcome, order)
    requires payloads == ManifestPayloads(scan, origin.entries, outcome.complete)
    ensures var added := NewBatches(origin.source, scan, payloads, w.store.supply);
      QueueDiff(w, scan, outcome, order) == World(
        w.store.(outbox := w.store.outbox + added, supply := w.store.supply + |payloads|),
        w.ledger.(
          queued := w.ledger.queued[origin.source := QueuedBy(w.ledger.queued, origin.source) + multiset(origin.entries)],
          origins := NewOrigins(w.ledger.origins, added, origin)))
  {
  }

  lemma QueueSound(w: World, scan: ScanId, outcome: ScanOutcome, order: seq<ItemId>)
    requires Sound(w) && Allowed(w.store, DiffQueued(scan, outcome, order))
    ensures Sound(QueueDiff(w, scan, outcome, order))
  {
    var origin := DiffOrigin(w.store, scan, outcome, order);
    var payloads := ManifestPayloads(scan, origin.entries, outcome.complete);
    QueueWrites(w, scan, outcome, order, origin, payloads);
    NotComplete(w.store, scan, outcome, order);
    QueuedSound(w, scan, outcome, order, origin, payloads, QueueDiff(w, scan, outcome, order).ledger);
  }

  lemma NotComplete(st: Store, scan: ScanId, outcome: ScanOutcome, order: seq<ItemId>)
    requires Allowed(st, DiffQueued(scan, outcome, order))
    ensures scan in st.scans && st.scans[scan].status != Complete && Scanned(outcome)
    ensures forall b :: b in st.outbox ==> b.scan != scan
  {
  }

  /** Captures speak of artifacts and applied rows only. */
  lemma LedgerCaptures(bulks: seq<Bulk>, outbox: seq<Batch>, ledger: Ledger, later: Ledger)
    requires AllCaptured(bulks, outbox, ledger) && later.artifacts == ledger.artifacts && later.applied == ledger.applied
    ensures AllCaptured(bulks, outbox, later)
  {
  }

  lemma SplitSound(w: World, source: SourceId, max: nat)
    requires Sound(w) && 1 <= max <= 500
    ensures Sound(SplitBatches(w, source, max))
  {
    var st, later := w.store, SplitBatches(w, source, max).ledger;
    SplitKeepsIds(st, source, max);
    SplitKeeps(st, source, max, w.ledger);
    PageKeeps(SplitBatches(w, source, max).store.outbox, w.ledger, later);
    SplitFits(st, source, max);
    SplitOriginates(st, source, max, w.ledger.origins);
    SplitCaptures(st, source, max, w.ledger);
    LedgerCaptures(st.bulks, SplitBatches(w, source, max).store.outbox, w.ledger, later);
  }

  lemma SplitCaptures(st: Store, source: SourceId, max: nat, ledger: Ledger)
    requires AllCaptured(st.bulks, st.outbox, ledger) && IdsOk(st.outbox, st.supply) && 1 <= max <= 500
    ensures AllCaptured(st.bulks, Split(st, source, max).value.0.outbox, ledger)
  {
    var oversized := Oversized(st.outbox, source, max);
    if oversized != [] {
      var added := Added(st, source, max);
      AppendCaptures(st.bulks, st.outbox, added, ledger);
      MarkRewrites(st.outbox + added, Ids(oversized), true, Discarded, SplitNote(st.supply));
      RewriteCaptures(st.bulks, st.outbox + added, Split(st, source, max).value.0.outbox, ledger);
    }
  }

  /** A step that only rewrites states and notes of rows, with or without an answer. */
  lemma RewriteSound(w: World, after: seq<Batch>, scans: map<ScanId, Scan>, bulks: seq<Bulk>, later: Ledger)
    requires Sound(w) && Rewritten(w.store.outbox, after) && Kept(after, later) && AllFit(after, scans)
    requires scans.Keys == w.store.scans.Keys
    requires later.artifacts == w.ledger.artifacts && later.applied == w.ledger.applied && later.origins == w.ledger.origins
    requires BulkIdsOk(bulks, w.ledger, w.store.supply) && AllCaptured(bulks, w.store.outbox, w.ledger)
    ensures Sound(World(w.store.(outbox := after, scans := scans, bulks := bulks), later))
  {
    RewriteIds(w.store.outbox, after, w.store.supply);
    RewriteOriginates(w.store.outbox, after, w.ledger.origins);
    LedgerCaptures(bulks, w.store.outbox, w.ledger, later);
    RewriteCaptures(bulks, w.store.outbox, after, later);
  }

  lemma AcknowledgeSound(w: World, id: BatchId, response: Response)
    requires Sound(w) && HasState(w.store.outbox, id, Pending)
    ensures Sound(AcknowledgeRow(w, id, response))
  {
    var st, b := w.store, FindBatch(w.store.outbox, id).value;
    var failures := Failures(b.payload, response);
    var state := if failures == [] then Sent else Failed;
    var note := if failures == [] then NoNote else EntryFailures(failures);
    AcknowledgeKeeps(st.outbox, b, response, w.ledger);
    AcknowledgeFits(st, b, response);
    MarkRewrites(st.outbox, {b.id}, false, state, note);
    var after := Acknowledge(st, b, response);
    RewriteSound(w, after.outbox, after.scans, st.bulks, w.ledger.(answers := w.ledger.answers[id := response]));
    RecordAcceptedConsistent(st.inv, b.source, b.Entries(), b.payload, response);
  }

  lemma {:induction false} RecordAcceptedConsistent(inv: Inventory, source: SourceId, entries: seq<Entry>, payload: Payload, response: Response)
    requires Consistent(inv)
    ensures Consistent(RecordAccepted(inv, source, entries, payload, response))
  {
    if entries != [] {
      var n := |entries| - 1;
      RecordAcceptedConsistent(inv, source, entries[..n], payload, response);
      if Judge(entries[n], payload, response).None? {
        RecordConsistent(RecordAccepted(inv, source, entries[..n], payload, response), source, entries[n],
                         ResultFor(response.results, entries[n].itemId).value);
      }
    }
  }

  lemma RefuseSound(w: World, id: BatchId)
    requires Sound(w) && HasState(w.store.outbox, id, Pending)
    ensures Sound(RefuseRow(w, id))
  {
    var st, b := w.store, FindBatch(w.store.outbox, id).value;
    RefuseKeeps(st.outbox, b, w.ledger);
    RefuseFits(st, b);
    MarkRewrites(st.outbox, {b.id}, true, Failed, RequestFailure(Refusals(b.Entries())));
    var after := QuarantineBatch(st, b);
    RewriteSound(w, after.outbox, after.scans, st.bulks, w.ledger);
  }

  lemma DiscardSound(w: World, id: BatchId)
    requires Sound(w)
    ensures Sound(After(w, Discard(w.store, id)))
  {
    var st := w.store;
    if Discard(st, id).Ok? {
      var b := FindBatch(st.outbox, id).value;
      DiscardKeeps(st.outbox, b, w.ledger);
      DiscardFits(st, id);
      MarkRewrites(st.outbox, {id}, false, Discarded, b.note);
      var after := Discard(st, id).value;
      RewriteSound(w, after.outbox, after.scans, st.bulks, w.ledger);
    }
  }

  lemma SuspendSound(w: World, source: SourceId)
    requires Sound(w)
    ensures Sound(w.(store := Suspend(w.store, source).0))
  {
    var st := w.store;
    var ids := Ids(PendingOf(st.outbox, source));
    SuspendKeeps(st.outbox, ids, w.ledger);
    SuspendFits(st, source);
    MarkRewrites(st.outbox, ids, true, Discarded, SuspendNote);
    var after := Suspend(st, source).0;
    RewriteSound(w, after.outbox, after.scans, st.bulks, w.ledger);
  }

  lemma RestoreSound(w: World, ids: set<BatchId>)
    requires Sound(w) && Allowed(w.store, SuspendedRestored(ids))
    ensures Sound(w.(store := Restore(w.store, ids)))
  {
    var st := w.store;
    var rows := Ids(DiscardedAmong(st.outbox, ids));
    forall b | b in st.outbox && b.id in rows ensures b.state == Discarded && b.note == SuspendNote {
      assert b.id in ids;
      FindIs(st.outbox, b);
      assert Suspended(st.outbox, b.id);
    }
    RestoreKeeps(st.outbox, rows, w.ledger);
    RestoreFits(st, ids);
    MarkRewrites(st.outbox, rows, false, Pending, NoNote);
    var after := Restore(st, ids);
    RewriteSound(w, after.outbox, after.scans, st.bulks, w.ledger);
  }

  // ---- Steps on the bulk table ----

  lemma BulksSound(w: World, bulks: seq<Bulk>, supply: nat, later: Ledger)
    requires Sound(w) && w.store.supply <= supply
    requires BulkIdsOk(bulks, later, supply) && AllCaptured(bulks, w.store.outbox, later) && Kept(w.store.outbox, later)
    requires later.origins == w.ledger.origins
    ensures Sound(World(w.store.(bulks := bulks, supply := supply), later))
  {
  }

  lemma RowSound(w: World, row: Bulk, was: Bulk)
    requires Sound(w) && was in w.store.bulks && SameCapture(row, was)
    ensures Sound(w.(store := w.store.(bulks := SetBulk(w.store.bulks, row))))
  {
    StatusCaptures(w.store.bulks, row, was, w.store.outbox, w.ledger);
    SetBulkIds(w.store.bulks, row, w.ledger, w.store.supply);
    BulksSound(w, SetBulk(w.store.bulks, row), w.store.supply, w.ledger);
  }

  lemma ImportSound(w: World, id: BulkId, importId: ImportId, status: ImportStatus)
    requires Sound(w)
    ensures Sound(After(w, BindImport(w.store, id, importId, status)))
  {
    if BindImport(w.store, id, importId, status).Ok? {
      var row := FindBulk(w.store.bulks, id).value;
      RowSound(w, row.(importId := Some(importId), serverStatus := Some(status), state := Remote(status)), row);
    }
  }

  lemma StatusSound(w: World, id: BulkId, status: ImportStatus, processed: nat)
    requires Sound(w)
    ensures Sound(After(w, UpdateStatus(w.store, id, status, processed)))
  {
    if UpdateStatus(w.store, id, status, processed).Ok? {
      var row := FindBulk(w.store.bulks, id).value;
      RowSound(w, row.(state := Remote(status), serverStatus := Some(status), processed := processed), row);
    }
  }

  lemma ResultSound(w: World, id: BulkId, sha256: string, fileMatches: bool)
    requires Sound(w)
    ensures Sound(After(w, RecordResult(w.store, id, sha256, fileMatches)))
  {
    if RecordResult(w.store, id, sha256, fileMatches).Ok? {
      var row := FindBulk(w.store.bulks, id).value;
      RowSound(w, row.(resultSha := Some(sha256), state := ResultReady), row);
    }
  }

  lemma FailSound(w: World, id: BulkId, state: ImportStatus, serverStatus: Option<ImportStatus>)
    requires Sound(w)
    ensures Sound(After(w, FailBulk(w.store, id, state, serverStatus)))
  {
    if FailBulk(w.store, id, state, serverStatus).Ok? {
      var row := FindBulk(w.store.bulks, id).value;
      RowSound(w, row.(state := Remote(state), serverStatus := if serverStatus.Some? then serverStatus else Some(state)), row);
    }
  }

  lemma CompleteSound(w: World, id: BulkId)
    requires Sound(w)
    ensures Sound(After(w, CompleteBulk(w.store, id)))
  {
    var st := w.store;
    if CompleteBulk(st, id).Ok? {
      var row := FindBulk(st.bulks, id).value;
      var members := Ids(Members(st.outbox, row.source, row.captured));
      forall b, e | b in st.outbox && b.id in members && e in b.Entries() ensures Covered(e, id, w.ledger.applied) {
        CompletedCovers(row, st.outbox, w.ledger, b, e);
      }
      SupersedeKeeps(st.outbox, members, id, w.ledger);
      CompleteBulkFits(st, id);
      MarkRewrites(st.outbox, members, true, Discarded, BulkNote(id));
      var done := row.(state := Applied);
      StatusCaptures(st.bulks, done, row, st.outbox, w.ledger);
      SetBulkIds(st.bulks, done, w.ledger, st.supply);
      var after := CompleteBulk(st, id).value;
      RewriteSound(w, after.outbox, after.scans, after.bulks, w.ledger);
    }
  }

  lemma NewRowSound(w: World, row: Bulk, batches: seq<Batch>)
    requires Sound(w) && row.id == w.store.supply && row.appliedThrough == 0 && row.captured == IdSeq(batches)
    requires row.entryCount == |EntriesOf(batches)|
    requires forall b :: b in batches ==> b in w.store.outbox && b.source == row.source
    ensures Sound(World(w.store.(bulks := w.store.bulks + [row], supply := w.store.supply + 1),
                        WithArtifact(w.ledger, row.id, EntriesOf(batches))))
  {
    var st, later := w.store, WithArtifact(w.ledger, row.id, EntriesOf(batches));
    NewCaptures(st.bulks, row, st.outbox, w.ledger, batches, st.supply);
    NewBulkIds(st.bulks, row, w.ledger, EntriesOf(batches), st.supply);
    PageKeeps(st.outbox, w.ledger, later);
    BulksSound(w, st.bulks + [row], st.supply + 1, later);
  }

  /** queue_bulk_manifest returns an existing row, or adds one under the next identifier;
      and it adds one only when the source has no import that is not over. */
  lemma NewRow(st: Store, source: SourceId, snapshot: nat, artifact: Artifact, ids: seq<BatchId>)
    requires QueueBulk(st, source, snapshot, artifact, ids).Ok? && QueueBulk(st, source, snapshot, artifact, ids).value.0 != st
    ensures var (after, row) := QueueBulk(st, source, snapshot, artifact, ids).value;
      && after == st.(bulks := st.bulks + [row], supply := st.supply + 1)
      && row == Bulk(st.supply, source, snapshot, artifact.sha256, artifact.bytes, artifact.entryCount,
                     Prepared, None, None, 0, None, 0, ids)
    ensures ActiveBulk(st.bulks, source).None? && artifact.entryCount > 0
  {
  }

  lemma PrepareSound(w: World, source: SourceId, snapshot: nat, artifact: Artifact, taken: nat)
    requires Sound(w) && Allowed(w.store, BulkPrepared(source, snapshot, artifact, taken))
    ensures Sound(PrepareBulk(w, source, snapshot, artifact, taken))
  {
    var st, batches := w.store, Chosen(w.store.outbox, source, taken);
    var result := QueueBulk(st, source, snapshot, artifact, IdSeq(batches));
    if result.Ok? && result.value.0 != st {
      NewRow(st, source, snapshot, artifact, IdSeq(batches));
      assert forall b :: b in batches ==> b in PendingOf(st.outbox, source);
      NewRowSound(w, result.value.1, batches);
    }
  }

  lemma PageSound(w: World, id: BulkId, rows: seq<Row>)
    requires Sound(w) && Allowed(w.store, PageApplied(id, rows))
    ensures Sound(ApplyResultPage(w, id, rows))
  {
    var st := w.store;
    if ApplyRows(st, id, rows).Ok? {
      var row := FindBulk(st.bulks, id).value;
      assert Captured(row, st.outbox, w.ledger);
      var later := w.ledger.(applied := w.ledger.applied[id := w.ledger.applied[id] + rows]);
      var (inv, moved) := ApplyPage(st.inv, row, rows).value;
      PageCaptures(st.bulks, row, st.inv, st.outbox, w.ledger, rows);
      CursorAdvances(st.inv, row, rows);
      SetBulkIds(st.bulks, moved, w.ledger, st.supply);
      PageKeeps(st.outbox, w.ledger, later);
      BulksSound(w, SetBulk(st.bulks, moved), st.supply, later);
      RecordRowsConsistent(st.inv, row.source, row.appliedThrough, row.entryCount, rows);
    }
  }

  lemma ThenRowConsistent(before: Result<Inventory>, source: SourceId, expected: nat, count: nat, row: Row)
    requires before.Ok? ==> Consistent(before.value)
    ensures ThenRow(before, source, expected, count, row).Ok? ==> Consistent(ThenRow(before, source, expected, count, row).value)
  {
    if before.Ok? {
      UpsertConsistent(before.value, source, row.entry, row.result);
    }
  }

  lemma {:induction false} RecordRowsConsistent(inv: Inventory, source: SourceId, cursor: nat, count: nat, rows: seq<Row>)
    requires Consistent(inv)
    ensures RecordRows(inv, source, cursor, count, rows).Ok? ==> Consistent(RecordRows(inv, source, cursor, count, rows).value)
  {
    if rows != [] {
      var n := |rows| - 1;
      RecordRowsConsistent(inv, source, cursor, count, rows[..n]);
      ThenRowConsistent(RecordRows(inv, source, cursor, count, rows[..n]), source, cursor + |rows|, count, rows[n]);
    }
  }

  lemma RemoveSound(w: World, source: SourceId)
    requires Sound(w)
    ensures Sound(Remove(w, source))
  {
    var st := w.store;
    if RemoveSource(st, source).Ok? {
      WithoutIds(st.outbox, source);
      var later := Remove(w, source).ledger;
      RemoveKeeps(st.outbox, w.ledger, source);
      PageKeeps(WithoutSource(st.outbox, source), w.ledger.(queued := later.queued), later);
      RemoveFits(st.outbox, st.scans, source);
      RemoveOriginates(st.outbox, source, w.ledger.origins);
      WithoutBulkIds(st.bulks, source);
      WithoutCaptures(st.bulks, st.outbox, source, w.ledger);
      LedgerCaptures(BulksWithoutSource(st.bulks, source), WithoutSource(st.outbox, source), w.ledger, later);
      ForgetSourceConsistent(st.inv, source);
    }
  }

  // ---- Every step, every run ----

  lemma OutboxStepSound(w: World, step: Step)
    requires Sound(w) && Allowed(w.store, step)
    requires step.SourceRemoved? || step.DiffQueued? || step.OversizedSplit? || step.BatchAcknowledged? || step.BatchRefused?
      || step.BatchDiscarded? || step.PendingSuspended? || step.SuspendedRestored?
    ensures Sound(Do(w, step))
  {
    match step
    case SourceRemoved(source) => RemoveSound(w, source);
    case DiffQueued(scan, outcome, order) => QueueSound(w, scan, outcome, order);
    case OversizedSplit(source, max) => if 1 <= max <= 500 { SplitSound(w, source, max); }
    case BatchAcknowledged(id, response) => AcknowledgeSound(w, id, response);
    case BatchRefused(id) => RefuseSound(w, id);
    case BatchDiscarded(id) => DiscardSound(w, id);
    case PendingSuspended(source) => SuspendSound(w, source);
    case SuspendedRestored(ids) => RestoreSound(w, ids);
  }

  lemma BulkStepSound(w: World, step: Step)
    requires Sound(w) && Allowed(w.store, step)
    requires step.BulkPrepared? || step.ImportBound? || step.StatusRead? || step.ResultSaved? || step.PageApplied?
      || step.BulkCompleted? || step.BulkFailed?
    ensures Sound(Do(w, step))
  {
    match step
    case BulkPrepared(source, snapshot, artifact, taken) => PrepareSound(w, source, snapshot, artifact, taken);
    case ImportBound(id, importId, status) => ImportSound(w, id, importId, status);
    case StatusRead(id, status, processed) => StatusSound(w, id, status, processed);
    case ResultSaved(id, sha256, fileMatches) => ResultSound(w, id, sha256, fileMatches);
    case PageApplied(id, rows) => PageSound(w, id, rows);
    case BulkCompleted(id) => CompleteSound(w, id);
    case BulkFailed(id, state, serverStatus) => FailSound(w, id, state, serverStatus);
  }

  lemma OtherStepSound(w: World, step: Step)
    requires Sound(w) && Allowed(w.store, step)
    requires step.SourceBound? || step.ScanBegun? || step.ScanFinished? || step.TaskMoved? || step.ScenesQueued?
    ensures Sound(Do(w, step))
  {
    match step
    case SourceBound(_, _) =>
    case ScanBegun(source) => BeginSound(w, source);
    case ScanFinished(scan, completeRead) => FinishFits(w.store, scan, completeRead);
    case TaskMoved(event) => HandleTaskConsistent(w.store.inv, event);
    case ScenesQueued(source, tasks) => QueueScenesConsistent(w.store.inv, source, tasks);
  }

  lemma StepSound(w: World, step: Step)
    requires Sound(w)
    ensures Sound(Do(w, step))
  {
    if Allowed(w.store, step) {
      if step.SourceBound? || step.ScanBegun? || step.ScanFinished? || step.TaskMoved? || step.ScenesQueued? {
        OtherStepSound(w, step);
      } else if step.BulkPrepared? || step.ImportBound? || step.StatusRead? || step.ResultSaved? || step.PageApplied?
        || step.BulkCompleted? || step.BulkFailed? {
        BulkStepSound(w, step);
      } else {
        OutboxStepSound(w, step);
      }
    }
  }

  lemma BeginSound(w: World, source: SourceId)
    requires Sound(w)
    ensures Sound(w.(store := BeginScan(w.store, source).0))
  {
  }

  lemma {:induction false} RunSound(steps: seq<Step>)
    ensures Sound(Run(steps))
  {
    if steps == [] {
      StartSound();
    } else {
      RunSound(steps[..|steps| - 1]);
      StepSound(Run(steps[..|steps| - 1]), steps[|steps| - 1]);
    }
  }
}
