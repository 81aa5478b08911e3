/** The promises a user of the client relies on, for every run. */
module Guarantees {
  import opened Prelude
  import opened Tables
  import opened Inventory
  import opened Store
  import opened Splitting
  import opened Transport
  import opened SyncDiff
  import opened Runs
  import opened Conservation
  import opened Captures
  import opened Scans
  import opened Origins
  import opened Safety

  // ---- No entry is lost ----

  lemma {:induction false} CarriedBySome(outbox: seq<Batch>, source: SourceId, e: Entry)
    requires e in Carried(outbox, source)
    ensures exists b :: b in outbox && b.source == source && Carries(b) && e in b.Entries()
  {
    var n := |outbox| - 1;
    if outbox[n].source == source && Carries(outbox[n]) && e in outbox[n].Entries() {
      assert outbox[n] in outbox;
    } else {
      CarriedBySome(outbox[..n], source, e);
    }
  }

  /** Every entry ever queued is carried exactly as often as it was queued, and each
      carrying batch is pending, suspended, or can show what became of the entry:
      accepted, listed in a failure record, or covered by an applied result row. */
  lemma NoEntryIsLost(steps: seq<Step>, source: SourceId, e: Entry)
    requires e in QueuedBy(Run(steps).ledger.queued, source)
    ensures Carried(Run(steps).store.outbox, source)[e] == QueuedBy(Run(steps).ledger.queued, source)[e]
    ensures exists b :: b in Run(steps).store.outbox && b.source == source && Carries(b) && e in b.Entries()
    ensures forall b :: b in Run(steps).store.outbox && b.source == source && Carries(b) && e in b.Entries() ==>
              Accounted(b, e, Run(steps).ledger)
  {
    RunSound(steps);
    var w := Run(steps);
    assert Carried(w.store.outbox, source) == QueuedBy(w.ledger.queued, source);
    CarriedBySome(w.store.outbox, source, e);
  }

  /** If the service reports success only for results without rejected rows, then every
      entry of a batch that an import superseded was accepted by a row applied to it. */
  lemma SupersededIsAccepted(steps: seq<Step>, b: Batch, e: Entry, bulk: BulkId)
    requires b in Run(steps).store.outbox && b.state == Discarded && b.note == BulkNote(bulk) && e in b.Entries()
    requires bulk in Run(steps).ledger.applied ==> forall r :: r in Run(steps).ledger.applied[bulk] ==> r.result.outcome != Rejected
    ensures bulk in Run(steps).ledger.applied
    ensures exists r :: r in Run(steps).ledger.applied[bulk] && r.entry == e && AcceptsUpsert(e, r.result)
  {
    RunSound(steps);
    assert Accounted(b, e, Run(steps).ledger);
  }

  /** The ledger counts every queued diff and forgets only with the source. */
  lemma LedgerGrows(w: World, step: Step, source: SourceId)
    requires step != SourceRemoved(source)
    ensures QueuedBy(w.ledger.queued, source) <= QueuedBy(Do(w, step).ledger.queued, source)
  {
  }

  /** Queueing a diff counts exactly its entries. */
  lemma LedgerCountsDiff(w: World, step: Step)
    requires step.DiffQueued? && Allowed(w.store, step)
    ensures var source := w.store.scans[step.scan].source;
      var blocked := Quarantined(w.store.outbox, source);
      QueuedBy(Do(w, step).ledger.queued, source)
        == QueuedBy(w.ledger.queued, source) + multiset(Diff(step.outcome, step.order, w.store.inv.known, blocked, source))
  {
  }

  // ---- Result rows and artifact rows ----

  /** At any time, in any later run: the manifest rebuilt from a bulk import's saved batch
      identifiers is the one its artifact was written from, and the result rows applied so
      far are rows 1, 2, ... of it, up to the cursor. */
  lemma RowsStayAligned(steps: seq<Step>, row: Bulk)
    requires row in Run(steps).store.bulks
    ensures var w := Run(steps);
      && row.id in w.ledger.artifacts && row.id in w.ledger.applied
      && CapturedEntries(w.store.outbox, row.captured) == w.ledger.artifacts[row.id]
      && |w.ledger.artifacts[row.id]| == row.entryCount
      && RowsMatch(w.ledger.applied[row.id], w.ledger.artifacts[row.id], row.appliedThrough)
  {
    RunSound(steps);
    assert Captured(row, Run(steps).store.outbox, Run(steps).ledger);
  }

  // ---- Scans and identifiers ----

  /** A scan marked Complete has no pending and no failed batch. */
  lemma CompleteScansAreSettled(steps: seq<Step>, b: Batch)
    requires b in Run(steps).store.outbox
    ensures var scans := Run(steps).store.scans;
      b.scan in scans && (scans[b.scan].status == Complete ==> b.state != Pending && b.state != Failed)
  {
    RunSound(steps);
    assert Fits(b, Run(steps).store.scans);
  }

  /** No two batches share an identifier or an idempotency key "manifest:scan:sequence". */
  lemma KeysAreUnique(steps: seq<Step>)
    ensures DistinctIds(Run(steps).store.outbox) && DistinctSlots(Run(steps).store.outbox)
  {
    RunSound(steps);
  }

  /** One job per item, one candidate per job and occurrence, and a task for every candidate. */
  lemma DescriptionsStayConsistent(steps: seq<Step>)
    ensures Consistent(Run(steps).store.inv)
  {
    RunSound(steps);
  }

  // ---- A known occurrence is removed for a reason ----

  /** An accepted deletion of this item, in a batch marked reliable. */
  ghost predicate AcceptedDeletion(b: Batch, e: Entry, response: Response, key: Key) {
    && b.source == key.0 && e in b.Entries() && e.operation == Deleted && e.itemId == key.1
    && Accepted(e, b.payload, response) && b.payload.deletionReliable
  }

  /** Step i queued the diff that the entry is from, its scan read everything and did not see
      the item, and the source was not removed since. */
  ghost predicate MissedAt(steps: seq<Step>, i: nat, e: Entry, key: Key, origin: Origin) {
    && QueuedAt(steps, i, origin) && origin.source == key.0 && e in origin.entries
    && origin.outcome.complete && key.1 !in origin.outcome.seen
    && StaysFrom(steps, i, key.0)
  }

  /** The batch holds an accepted deletion of this item, and the very scan whose diff the
      batch carries read everything without seeing the item. */
  ghost predicate ReliablyDeleted(steps: seq<Step>, batch: BatchId, response: Response, key: Key) {
    exists b, e, i ::
      && FindBatch(Run(steps).store.outbox, batch) == Some(b) && AcceptedDeletion(b, e, response, key)
      && batch in Run(steps).ledger.origins && MissedAt(steps, i, e, key, Run(steps).ledger.origins[batch])
  }

  lemma AcknowledgedRemoval(w: World, batch: BatchId, response: Response, key: Key) returns (b: Batch, e: Entry)
    requires Sound(w) && HasState(w.store.outbox, batch, Pending)
    requires key in w.store.inv.known && key !in AcknowledgeRow(w, batch, response).store.inv.known
    ensures FindBatch(w.store.outbox, batch) == Some(b) && AcceptedDeletion(b, e, response, key)
    ensures batch in w.ledger.origins
    ensures var origin := w.ledger.origins[batch];
      origin.source == key.0 && e in origin.entries && origin.outcome.complete && key.1 !in origin.outcome.seen
  {
    b := FindBatch(w.store.outbox, batch).value;
    var entries := b.Entries();
    var verdicts := Verdicts(entries, b.payload, response);
    AcknowledgedKnown(w.store.inv, b.source, entries, b.payload, response);
    if key.0 != b.source {
      OtherSourcesKept(w.store.inv.known, b.source, entries, verdicts, key);
    }
    LastEntryDecides(w.store.inv.known, b.source, entries, verdicts, key.1);
    LastTouchIsLast(entries, verdicts, key.1);
    e := entries[LastTouch(entries, verdicts, key.1).value];
    assert Originates(b, w.ledger.origins);
  }

  lemma {:induction false} ScenesKeepKnown(inv: Inventory, source: SourceId, tasks: seq<SceneTask>)
    ensures QueueScenes(inv, source, tasks).Ok? ==> QueueScenes(inv, source, tasks).value.0.known == inv.known
  {
    if tasks != [] {
      ScenesKeepKnown(inv, source, tasks[..|tasks| - 1]);
    }
  }

  lemma PageRemovesNothing(w: World, id: BulkId, rows: seq<Row>)
    ensures forall key :: key in w.store.inv.known ==> key in ApplyResultPage(w, id, rows).store.inv.known
  {
    if ApplyRows(w.store, id, rows).Ok? {
      var row := FindBulk(w.store.bulks, id).value;
      PageKeepsKnown(w.store.inv, row.source, row.appliedThrough, row.entryCount, rows);
    }
  }

  lemma OthersKeepInventory(w: World, step: Step)
    requires !step.SourceRemoved? && !step.BatchAcknowledged? && !step.PageApplied? && !step.TaskMoved? && !step.ScenesQueued?
    ensures Do(w, step).store.inv == w.store.inv
  {
  }

  /** In every run, a known occurrence disappears only with its source, or by an accepted
      deletion from the diff of a scan that read everything and did not see the item. */
  lemma RemovalHasAReason(steps: seq<Step>, step: Step, key: Key)
    requires key in Run(steps).store.inv.known && key !in Run(steps + [step]).store.inv.known
    ensures step == SourceRemoved(key.0)
      || (step.BatchAcknowledged? && ReliablyDeleted(steps, step.batch, step.response, key))
  {
    var w := Run(steps);
    RunSound(steps);
    assert (steps + [step])[..|steps + [step]| - 1] == steps;
    assert Run(steps + [step]) == Do(w, step);
    if !step.SourceRemoved? && !step.BatchAcknowledged? && !step.PageApplied? && !step.TaskMoved? && !step.ScenesQueued? {
      OthersKeepInventory(w, step);
    } else if step.BatchAcknowledged? {
      var b, e := AcknowledgedRemoval(w, step.batch, step.response, key);
      var i := OriginIsQueued(steps, step.batch);
      assert MissedAt(steps, i, e, key, w.ledger.origins[step.batch]);
    } else if step.PageApplied? {
      PageRemovesNothing(w, step.bulk, step.rows);
    } else if step.ScenesQueued? {
      ScenesKeepKnown(w.store.inv, step.source, step.tasks);
    }
  }
}
