/** Under the source lock, and with batches sent only while no import is active: each
    source has at most one live bulk import, and its captured batches stay pending. */
module ActiveBulks {
  import opened Prelude
  import opened Tables
  import opened Store
  import opened Splitting
  import opened Transport
  import opened SyncDiff
  import opened Runs
  import opened Outbox
  import opened Captures
  import opened Safety

  /** Requests are split and answered only while their source has no active import, and
      nothing is suspended. The delivery driver keeps to this; see module Delivery. */
  ghost predicate Careful(st: Store, step: Step) {
    match step
    case OversizedSplit(source, _) => ActiveBulk(st.bulks, source).None?
    case BatchAcknowledged(id, _) =>
      FindBatch(st.outbox, id).Some? ==> ActiveBulk(st.bulks, FindBatch(st.outbox, id).value.source).None?
    case BatchRefused(id) =>
      FindBatch(st.outbox, id).Some? ==> ActiveBulk(st.bulks, FindBatch(st.outbox, id).value.source).None?
    case PendingSuspended(_) => false
    case SuspendedRestored(_) => false
    case _ => true
  }

  ghost predicate CarefulRun(steps: seq<Step>) {
    forall i :: 0 <= i < |steps| ==> Careful(Run(steps[..i]).store, steps[i])
  }

  ghost predicate Holds(row: Bulk, outbox: seq<Batch>) {
    && row.captured != [] && Distinct(row.captured)
    && forall b :: b in outbox && b.id in row.captured ==> b.state == Pending
  }

  ghost predicate OneActive(bulks: seq<Bulk>) {
    forall j, k :: j in bulks && k in bulks && j.source == k.source && !j.state.Terminal() && !k.state.Terminal() ==> j.id == k.id
  }

  ghost predicate Exclusive(bulks: seq<Bulk>, outbox: seq<Batch>) {
    OneActive(bulks) && forall k :: k in bulks && !k.state.Terminal() ==> Holds(k, outbox)
  }

  // ---- Changes of the outbox ----

  lemma MarkExclusive(bulks: seq<Bulk>, outbox: seq<Batch>, ids: set<BatchId>, pendingOnly: bool, state: BatchState, note: Note)
    requires Exclusive(bulks, outbox)
    requires forall b, k :: b in outbox && k in bulks && !k.state.Terminal() && b.id in k.captured ==>
      b.id !in ids || b.state != Pending
    ensures Exclusive(bulks, Mark(outbox, ids, pendingOnly, state, note))
  {
  }

  lemma AppendExclusive(bulks: seq<Bulk>, outbox: seq<Batch>, added: seq<Batch>)
    requires Exclusive(bulks, outbox) && forall b :: b in added ==> b.state == Pending
    ensures Exclusive(bulks, outbox + added)
  {
  }

  lemma WithoutExclusive(bulks: seq<Bulk>, outbox: seq<Batch>, source: SourceId)
    requires Exclusive(bulks, outbox)
    ensures Exclusive(BulksWithoutSource(bulks, source), WithoutSource(outbox, source))
  {
  }

  /** Batches of a source without an active import are captured by no live import. */
  lemma NotHeld(bulks: seq<Bulk>, outbox: seq<Batch>, ledger: Ledger, b: Batch, k: Bulk)
    requires AllCaptured(bulks, outbox, ledger) && DistinctIds(outbox)
    requires b in outbox && ActiveBulk(bulks, b.source).None? && k in bulks && !k.state.Terminal()
    ensures b.id !in k.captured
  {
  }

  // ---- Changes of the bulk table ----

  lemma SetExclusive(bulks: seq<Bulk>, outbox: seq<Batch>, row: Bulk, was: Bulk)
    requires Exclusive(bulks, outbox) && DistinctBulks(bulks) && was in bulks && SameCapture(row, was)
    requires was.state.Terminal() ==> row.state.Terminal()
    ensures Exclusive(SetBulk(bulks, row), outbox)
  {
  }

  lemma NewHolds(row: Bulk, outbox: seq<Batch>, source: SourceId, taken: nat)
    requires DistinctIds(outbox) && taken > 0 && PendingOf(outbox, source) != []
    requires row.captured == IdSeq(Chosen(outbox, source, taken))
    ensures Holds(row, outbox)
  {
    PendingDistinct(outbox, source);
    var chosen := Chosen(outbox, source, taken);
    forall b | b in outbox && b.id in row.captured ensures b.state == Pending {
      var i :| 0 <= i < |chosen| && chosen[i].id == b.id;
      assert chosen[i] in PendingOf(outbox, source);
      SameId(outbox, b, chosen[i]);
    }
  }

  lemma NewExclusive(bulks: seq<Bulk>, outbox: seq<Batch>, row: Bulk)
    requires Exclusive(bulks, outbox) && Holds(row, outbox) && ActiveBulk(bulks, row.source).None?
    ensures Exclusive(bulks + [row], outbox)
  {
  }

  // ---- Steps ----

  lemma AnswerExclusive(w: World, id: BatchId, pendingOnly: bool, state: BatchState, note: Note)
    requires Sound(w) && Exclusive(w.store.bulks, w.store.outbox)
    requires FindBatch(w.store.outbox, id).Some? ==> ActiveBulk(w.store.bulks, FindBatch(w.store.outbox, id).value.source).None?
    ensures Exclusive(w.store.bulks, Mark(w.store.outbox, {id}, pendingOnly, state, note))
  {
    var outbox, bulks := w.store.outbox, w.store.bulks;
    forall b, k | b in outbox && k in bulks && !k.state.Terminal() && b.id in k.captured ensures b.id != id {
      if b.id == id {
        FindIs(outbox, b);
        NotHeld(bulks, outbox, w.ledger, b, k);
      }
    }
    MarkExclusive(bulks, outbox, {id}, pendingOnly, state, note);
  }

  lemma DiscardExclusive(w: World, id: BatchId)
    requires Sound(w) && Exclusive(w.store.bulks, w.store.outbox) && Discard(w.store, id).Ok?
    ensures Exclusive(w.store.bulks, Discard(w.store, id).value.outbox)
  {
    var st := w.store;
    forall b | b in st.outbox && b.id == id ensures b.state != Pending {
      FindIs(st.outbox, b);
    }
    MarkExclusive(st.bulks, st.outbox, {id}, false, Discarded, FindBatch(st.outbox, id).value.note);
  }

  lemma SplitExclusive(w: World, source: SourceId, max: nat)
    requires Sound(w) && Exclusive(w.store.bulks, w.store.outbox) && 1 <= max <= 500
    requires ActiveBulk(w.store.bulks, source).None?
    ensures Exclusive(w.store.bulks, Split(w.store, source, max).value.0.outbox)
  {
    var st := w.store;
    var oversized := Oversized(st.outbox, source, max);
    if oversized != [] {
      var added := Added(st, source, max);
      AppendExclusive(st.bulks, st.outbox, added);
      forall b, k | b in st.outbox + added && k in st.bulks && !k.state.Terminal() && b.id in k.captured
        ensures b.id !in Ids(oversized)
      {
        if b.id in Ids(oversized) {
          var c :| c in oversized && c.id == b.id;
          NotHeld(st.bulks, st.outbox, w.ledger, c, k);
        }
      }
      MarkExclusive(st.bulks, st.outbox + added, Ids(oversized), true, Discarded, SplitNote(st.supply));
    }
  }

  lemma CompleteExclusive(w: World, id: BulkId)
    requires Sound(w) && Exclusive(w.store.bulks, w.store.outbox) && Live(w.store.bulks, id, None)
    ensures var after := After(w, CompleteBulk(w.store, id)).store; Exclusive(after.bulks, after.outbox)
  {
    var st := w.store;
    if CompleteBulk(st, id).Ok? {
      var row := FindBulk(st.bulks, id).value;
      var done := row.(state := Applied);
      var members := Members(st.outbox, row.source, row.captured);
      SetExclusive(st.bulks, st.outbox, done, row);
      var bulks := SetBulk(st.bulks, done);
      forall b, k | b in st.outbox && k in bulks && !k.state.Terminal() && b.id in k.captured ensures b.id !in Ids(members) {
        OtherHolder(st, w.ledger, row, k, b);
      }
      MarkExclusive(bulks, st.outbox, Ids(members), true, Discarded, BulkNote(id));
    }
  }

  /** The completed import is the only live one of its source. */
  lemma OtherHolder(st: Store, ledger: Ledger, row: Bulk, k: Bulk, b: Batch)
    requires AllCaptured(st.bulks, st.outbox, ledger) && DistinctIds(st.outbox) && DistinctBulks(st.bulks) && OneActive(st.bulks)
    requires row in st.bulks && !row.state.Terminal() && k in SetBulk(st.bulks, row.(state := Applied)) && !k.state.Terminal()
    requires b in st.outbox && b.id in k.captured
    ensures b.id !in Ids(Members(st.outbox, row.source, row.captured))
  {
  }

  lemma PrepareExclusive(w: World, source: SourceId, snapshot: nat, artifact: Artifact, taken: nat)
    requires Sound(w) && Exclusive(w.store.bulks, w.store.outbox)
    requires Allowed(w.store, BulkPrepared(source, snapshot, artifact, taken))
    ensures var after := PrepareBulk(w, source, snapshot, artifact, taken).store; Exclusive(after.bulks, after.outbox)
  {
    var st, batches := w.store, Chosen(w.store.outbox, source, taken);
    var result := QueueBulk(st, source, snapshot, artifact, IdSeq(batches));
    if result.Ok? && result.value.0 != st {
      NewRow(st, source, snapshot, artifact, IdSeq(batches));
      NewHolds(result.value.1, st.outbox, source, taken);
      NewExclusive(st.bulks, st.outbox, result.value.1);
    }
  }

  lemma PageExclusive(w: World, id: BulkId, rows: seq<Row>)
    requires Sound(w) && Exclusive(w.store.bulks, w.store.outbox)
    ensures var after := ApplyResultPage(w, id, rows).store; Exclusive(after.bulks, after.outbox)
  {
    if ApplyRows(w.store, id, rows).Ok? {
      var row := FindBulk(w.store.bulks, id).value;
      CursorAdvances(w.store.inv, row, rows);
      var moved := Advanced(row, |rows|);
      assert Captured(row, w.store.outbox, w.ledger);
      AdvanceExclusive(w.store.bulks, w.store.outbox, row, |rows|);
    }
  }

  lemma AdvanceExclusive(bulks: seq<Bulk>, outbox: seq<Batch>, row: Bulk, rows: nat)
    requires Exclusive(bulks, outbox) && DistinctBulks(bulks) && row in bulks && !row.state.Terminal()
    ensures Exclusive(SetBulk(bulks, Advanced(row, rows)), outbox)
  {
  }

  /** Status, result and failure writes: a closed import is never reopened. */
  lemma ImportExclusive(st: Store, id: BulkId, importId: ImportId, status: ImportStatus)
    requires Exclusive(st.bulks, st.outbox) && DistinctBulks(st.bulks) && Live(st.bulks, id, None)
    ensures BindImport(st, id, importId, status).Ok? ==> Exclusive(BindImport(st, id, importId, status).value.bulks, st.outbox)
  {
    var row := FindBulk(st.bulks, id).value;
    SetExclusive(st.bulks, st.outbox, row.(importId := Some(importId), serverStatus := Some(status), state := Remote(status)), row);
  }

  lemma StatusExclusive(st: Store, id: BulkId, status: ImportStatus, processed: nat)
    requires Exclusive(st.bulks, st.outbox) && DistinctBulks(st.bulks) && Live(st.bulks, id, Some(status))
    ensures UpdateStatus(st, id, status, processed).Ok? ==>
      Exclusive(UpdateStatus(st, id, status, processed).value.bulks, st.outbox)
  {
    var row := FindBulk(st.bulks, id).value;
    SetExclusive(st.bulks, st.outbox, row.(state := Remote(status), serverStatus := Some(status), processed := processed), row);
  }

  lemma ResultExclusive(st: Store, id: BulkId, sha256: string, fileMatches: bool)
    requires Exclusive(st.bulks, st.outbox) && DistinctBulks(st.bulks) && Live(st.bulks, id, None)
    ensures RecordResult(st, id, sha256, fileMatches).Ok? ==>
      Exclusive(RecordResult(st, id, sha256, fileMatches).value.bulks, st.outbox)
  {
    var row := FindBulk(st.bulks, id).value;
    SetExclusive(st.bulks, st.outbox, row.(resultSha := Some(sha256), state := ResultReady), row);
  }

  lemma FailExclusive(st: Store, id: BulkId, state: ImportStatus, serverStatus: Option<ImportStatus>)
    requires Exclusive(st.bulks, st.outbox) && DistinctBulks(st.bulks)
    ensures FailBulk(st, id, state, serverStatus).Ok? ==>
      Exclusive(FailBulk(st, id, state, serverStatus).value.bulks, st.outbox)
  {
    if FailBulk(st, id, state, serverStatus).Ok? {
      var row := FindBulk(st.bulks, id).value;
      SetExclusive(st.bulks, st.outbox,
        row.(state := Remote(state), serverStatus := if serverStatus.Some? then serverStatus else Some(state)), row);
    }
  }

  ghost predicate Guarded(st: Store) { Exclusive(st.bulks, st.outbox) }

  lemma QueueExclusive(w: World, scan: ScanId, outcome: ScanOutcome, order: seq<ItemId>)
    requires Guarded(w.store) && Allowed(w.store, DiffQueued(scan, outcome, order))
    ensures Guarded(QueueDiff(w, scan, outcome, order).store)
  {
  }

  lemma AcknowledgeExclusive(w: World, id: BatchId, response: Response)
    requires Sound(w) && Guarded(w.store) && Careful(w.store, BatchAcknowledged(id, response)) && HasState(w.store.outbox, id, Pending)
    ensures Guarded(AcknowledgeRow(w, id, response).store)
  {
    var failures := Failures(FindBatch(w.store.outbox, id).value.payload, response);
    AnswerExclusive(w, id, false, if failures == [] then Sent else Failed,
                    if failures == [] then NoNote else EntryFailures(failures));
  }

  lemma RefuseExclusive(w: World, id: BatchId)
    requires Sound(w) && Guarded(w.store) && Careful(w.store, BatchRefused(id)) && HasState(w.store.outbox, id, Pending)
    ensures Guarded(RefuseRow(w, id).store)
  {
    AnswerExclusive(w, id, true, Failed, RequestFailure(Refusals(FindBatch(w.store.outbox, id).value.Entries())));
  }

  lemma OutboxStepExclusive(w: World, step: Step)
    requires Sound(w) && Guarded(w.store) && Careful(w.store, step) && Allowed(w.store, step)
    requires step.SourceRemoved? || step.DiffQueued? || step.OversizedSplit? || step.BatchAcknowledged?
      || step.BatchRefused? || step.BatchDiscarded?
    ensures Guarded(Do(w, step).store)
  {
    var st := w.store;
    match step
    case SourceRemoved(source) => WithoutExclusive(st.bulks, st.outbox, source);
    case DiffQueued(scan, outcome, order) => QueueExclusive(w, scan, outcome, order);
    case OversizedSplit(source, max) => if 1 <= max <= 500 { SplitExclusive(w, source, max); }
    case BatchAcknowledged(id, response) => AcknowledgeExclusive(w, id, response);
    case BatchRefused(id) => RefuseExclusive(w, id);
    case BatchDiscarded(id) => if Discard(st, id).Ok? { DiscardExclusive(w, id); }
  }

  lemma BulkStepExclusive(w: World, step: Step)
    requires Sound(w) && Guarded(w.store) && Allowed(w.store, step)
    requires step.BulkPrepared? || step.ImportBound? || step.StatusRead? || step.ResultSaved?
      || step.BulkFailed? || step.PageApplied? || step.BulkCompleted?
    ensures Guarded(Do(w, step).store)
  {
    var st := w.store;
    match step
    case BulkPrepared(source, snapshot, artifact, taken) => PrepareExclusive(w, source, snapshot, artifact, taken);
    case ImportBound(id, importId, status) => ImportExclusive(st, id, importId, status);
    case StatusRead(id, status, processed) => StatusExclusive(st, id, status, processed);
    case ResultSaved(id, sha256, fileMatches) => ResultExclusive(st, id, sha256, fileMatches);
    case BulkFailed(id, state, serverStatus) => FailExclusive(st, id, state, serverStatus);
    case PageApplied(id, rows) => PageExclusive(w, id, rows);
    case BulkCompleted(id) => CompleteExclusive(w, id);
  }

  lemma StepExclusive(w: World, step: Step)
    requires Sound(w) && Guarded(w.store) && Careful(w.store, step)
    ensures Guarded(Do(w, step).store)
  {
    if Allowed(w.store, step) {
      if step.SourceRemoved? || step.DiffQueued? || step.OversizedSplit? || step.BatchAcknowledged?
         || step.BatchRefused? || step.BatchDiscarded? {
        OutboxStepExclusive(w, step);
      } else if step.BulkPrepared? || step.ImportBound? || step.StatusRead? || step.ResultSaved?
         || step.BulkFailed? || step.PageApplied? || step.BulkCompleted? {
        BulkStepExclusive(w, step);
      }
    }
  }

  lemma {:induction false} RunExclusive(steps: seq<Step>)
    requires CarefulRun(steps)
    ensures Exclusive(Run(steps).store.bulks, Run(steps).store.outbox)
  {
    if steps != [] {
      var n := |steps| - 1;
      assert forall i :: 0 <= i < n ==> steps[..n][..i] == steps[..i];
      RunExclusive(steps[..n]);
      RunSound(steps[..n]);
      StepExclusive(Run(steps[..n]), steps[n]);
    }
  }

  /** In every careful run a source has at most one import that is not over, all of the
      import's captured batches are pending batches of that source, and they hold as many
      entries as the import declared. */
  lemma ActiveImportHoldsItsBatches(steps: seq<Step>, row: Bulk)
    requires CarefulRun(steps) && row in Run(steps).store.bulks && !row.state.Terminal()
    ensures var st := Run(steps).store;
      && (forall k :: k in st.bulks && k.source == row.source && !k.state.Terminal() ==> k.id == row.id)
      && row.captured != [] && Distinct(row.captured)
      && (forall id :: id in row.captured ==>
            exists b :: b in st.outbox && b.id == id && b.source == row.source && b.state == Pending)
      && |CapturedEntries(st.outbox, row.captured)| == row.entryCount
  {
    var st := Run(steps).store;
    RunExclusive(steps);
    RunSound(steps);
    assert Captured(row, st.outbox, Run(steps).ledger) && Holds(row, st.outbox);
    forall id | id in row.captured ensures exists b :: b in st.outbox && b.id == id && b.source == row.source && b.state == Pending {
      var b :| b in st.outbox && b.id == id && b.source == row.source;
      assert b.state == Pending;
    }
  }
}
