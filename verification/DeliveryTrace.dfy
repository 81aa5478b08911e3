/** The driver's database is always the outcome of a careful run, so that everything
    proved of careful runs holds of it; and the main theorems about delivery. */
module DeliveryTrace {
  import opened Prelude
  import opened Tables
  import opened Store
  import opened Splitting
  import opened Runs
  import opened Outbox
  import opened ActiveBulks
  import opened ImportService
  import opened Delivery
  import opened Watching
  import opened DeliverySafety

  // ---- Each local transaction is a step of a run ----

  /** The step is one the client may take here, and this is what it leaves. */
  ghost predicate Backed(st: Store, step: Step, after: Store) {
    match step
    case BulkPrepared(source, snapshot, artifact, taken) =>
      var result := QueueBulk(st, source, snapshot, artifact, IdSeq(Chosen(st.outbox, source, taken)));
      Allowed(st, step) && result.Ok? && result.value.0 == after
    case ImportBound(id, importId, status) => Live(st.bulks, id, None) && BindImport(st, id, importId, status) == Ok(after)
    case StatusRead(id, status, processed) =>
      Live(st.bulks, id, Some(status)) && UpdateStatus(st, id, status, processed) == Ok(after)
    case ResultSaved(id, sha256, fileMatches) => Live(st.bulks, id, None) && RecordResult(st, id, sha256, fileMatches) == Ok(after)
    case PageApplied(id, rows) => Allowed(st, step) && ApplyRows(st, id, rows) == Ok(after)
    case BulkCompleted(id) => Live(st.bulks, id, None) && CompleteBulk(st, id) == Ok(after)
    case BulkFailed(id, state, serverStatus) => Unfinished(st.bulks, id) && FailBulk(st, id, state, serverStatus) == Ok(after)
    case OversizedSplit(source, max) => 1 <= max <= 500 && after == Split(st, source, max).value.0
    case BatchAcknowledged(id, response) =>
      HasState(st.outbox, id, Pending) && after == Acknowledge(st, FindBatch(st.outbox, id).value, response)
    case BatchRefused(id) => HasState(st.outbox, id, Pending) && after == QuarantineBatch(st, FindBatch(st.outbox, id).value)
    case _ => false
  }

  lemma BackedDo(w: World, step: Step, after: Store)
    requires Backed(w.store, step, after)
    ensures Do(w, step).store == after
  {
  }

  ghost predicate Traced(d: Driver, later: Driver) {
    || (later.trace == d.trace && later.local == d.local)
    || (exists step :: later.trace == d.trace + [step] && Careful(d.local, step) && Backed(d.local, step, later.local))
  }

  lemma TracedBy(d: Driver, later: Driver, step: Step)
    requires later.trace == d.trace + [step] && Careful(d.local, step) && Backed(d.local, step, later.local)
    ensures Traced(d, later)
  {
  }

  lemma CloseTraced(d: Driver, later: Driver, id: BulkId, state: ImportStatus, serverStatus: Option<ImportStatus>)
    requires d.Bulk(id).Some? && d.Bulk(id).value.state != Applied && state in {FailedPermanent, Cancelled}
    requires later.local == d.Close(id, state, serverStatus).local && later.trace == d.trace + [BulkFailed(id, state, serverStatus)]
    ensures Traced(d, later)
  {
    TracedBy(d, later, BulkFailed(id, state, serverStatus));
  }

  /** The driver's row is never one that was applied. */
  lemma RowOpen(d: Driver)
    requires Inv(d) && !d.pc.Idle? && !d.pc.Flushing? && !d.pc.Listing? && !d.pc.Sending?
    ensures d.Bulk(d.pc.bulk).Some? && d.Bulk(d.pc.bulk).value.state != Applied
  {
  }

  /** Any action that gives the import up and changes nothing else locally. */
  lemma FailTraced(d: Driver, later: Driver, state: ImportStatus)
    requires Inv(d) && !d.pc.Idle? && !d.pc.Flushing? && !d.pc.Listing? && !d.pc.Sending? && state in {FailedPermanent, Cancelled}
    requires later.local == d.Fail(d.pc.bulk, state).local && later.trace == d.Fail(d.pc.bulk, state).trace
    ensures Traced(d, later)
  {
    RowOpen(d);
    CloseTraced(d, later, d.pc.bulk, state, d.Bulk(d.pc.bulk).value.serverStatus);
  }

  lemma BeginTraced(d: Driver, batchOnly: bool, plan: Option<Plan>)
    requires Inv(d)
    ensures Traced(d, NextBegin(d, batchOnly, plan))
  {
    if d.pc.Idle? {
      var active, later := ActiveBulk(d.local.bulks, d.source), NextBegin(d, batchOnly, plan);
      if active.Some? {
        FoundIsThe(d.local.bulks, active.value);
        if active.value.importId.None? && batchOnly {
          CloseTraced(d, later, active.value.id, Cancelled, None);
        }
      } else if later.trace != d.trace {
        TracedBy(d, later, BulkPrepared(d.source, plan.value.snapshot, plan.value.artifact, plan.value.taken));
      }
    }
  }

  lemma SaveTraced(d: Driver)
    requires Inv(d)
    ensures Traced(d, NextSave(d))
  {
    var later := NextSave(d);
    if d.pc.EscapeRead? || d.pc.CheckRead? || d.pc.ReconcileRead? || d.pc.CompleteRead? || d.pc.PollRead? {
      StatusTraced(d, later);
    } else if d.pc.Abandoning? {
      RowOpen(d);
      CloseTraced(d, later, d.pc.bulk, Cancelled, Some(AwaitingUpload));
    } else if d.pc.Closing? {
      RowOpen(d);
      CloseTraced(d, later, d.pc.bulk, FailedPermanent, Some(d.pc.status));
    } else if d.pc.Binding? {
      BindingTraced(d, later);
    }
  }

  lemma BindingOpen(d: Driver)
    requires PcOk(Of(d), d.pc) && d.pc.Binding?
    ensures Live(d.local.bulks, d.pc.bulk, None) && BindImport(d.local, d.pc.bulk, d.pc.importId, d.pc.status).Ok?
  {
  }

  lemma BindingTraced(d: Driver, later: Driver)
    requires Inv(d) && later == NextSave(d) && d.pc.Binding?
    ensures Traced(d, later)
  {
    BindingOpen(d);
    TracedBy(d, later, ImportBound(d.pc.bulk, d.pc.importId, d.pc.status));
  }

  lemma StatusOpen(d: Driver)
    requires PcOk(Of(d), d.pc)
    requires d.pc.EscapeRead? || d.pc.CheckRead? || d.pc.ReconcileRead? || d.pc.CompleteRead? || d.pc.PollRead?
    ensures Live(d.local.bulks, d.pc.bulk, Some(d.pc.status))
    ensures UpdateStatus(d.local, d.pc.bulk, d.pc.status, d.pc.processed).Ok?
  {
  }

  lemma StatusTraced(d: Driver, later: Driver)
    requires Inv(d) && later == NextSave(d)
    requires d.pc.EscapeRead? || d.pc.CheckRead? || d.pc.ReconcileRead? || d.pc.CompleteRead? || d.pc.PollRead?
    ensures Traced(d, later)
  {
    StatusOpen(d);
    TracedBy(d, later, StatusRead(d.pc.bulk, d.pc.status, d.pc.processed));
  }

  lemma DownloadTraced(d: Driver, net: Net, saved: bool, sha256: string, fileMatches: bool)
    requires Inv(d)
    ensures Traced(d, NextDownload(d, net, saved, sha256, fileMatches))
  {
    var later := NextDownload(d, net, saved, sha256, fileMatches);
    if later.trace != d.trace {
      if net.Replied? && RecordResult(d.local, d.pc.bulk, sha256, fileMatches).Ok? {
        TracedBy(d, later, ResultSaved(d.pc.bulk, sha256, fileMatches));
      } else {
        FailTraced(d, later, FailedPermanent);
      }
    }
  }

  lemma PageTraced(d: Driver, rows: seq<Row>)
    requires Inv(d)
    ensures Traced(d, NextPage(d, rows))
  {
    var later := NextPage(d, rows);
    if later.trace != d.trace {
      if ApplyRows(d.local, d.pc.bulk, rows).Ok? {
        TracedBy(d, later, PageApplied(d.pc.bulk, rows));
      } else {
        FailTraced(d, later, FailedPermanent);
      }
    }
  }

  lemma FinishTraced(d: Driver)
    requires Inv(d)
    ensures Traced(d, NextFinish(d))
  {
    var later := NextFinish(d);
    if later.trace != d.trace {
      if CompleteBulk(d.local, d.pc.bulk).Ok? {
        TracedBy(d, later, BulkCompleted(d.pc.bulk));
      } else {
        FailTraced(d, later, FailedPermanent);
      }
    }
  }

  // The calls never write locally, except to give the import up.

  lemma CreateTraced(d: Driver, net: Net, now: Time)
    requires Inv(d)
    ensures Traced(d, NextCreate(d, net, now))
  {
    if NextCreate(d, net, now).trace != d.trace {
      FailTraced(d, NextCreate(d, net, now), FailedPermanent);
    }
  }

  lemma RefreshTraced(d: Driver, net: Net, now: Time)
    requires Inv(d)
    ensures Traced(d, NextRefresh(d, net, now))
  {
    if NextRefresh(d, net, now).trace != d.trace {
      FailTraced(d, NextRefresh(d, net, now), FailedPermanent);
    }
  }

  lemma PutTraced(d: Driver, net: Net, stored: StoredObject)
    requires Inv(d)
    ensures Traced(d, NextPut(d, net, stored))
  {
    if NextPut(d, net, stored).trace != d.trace {
      FailTraced(d, NextPut(d, net, stored), FailedPermanent);
    }
  }

  lemma CompleteTraced(d: Driver, net: Net)
    requires Inv(d)
    ensures Traced(d, NextComplete(d, net))
  {
    if NextComplete(d, net).trace != d.trace {
      FailTraced(d, NextComplete(d, net), FailedPermanent);
    }
  }

  lemma LookTraced(d: Driver, reachable: bool)
    requires Inv(d)
    ensures Traced(d, NextLook(d, reachable))
  {
    if NextLook(d, reachable).trace != d.trace {
      FailTraced(d, NextLook(d, reachable), FailedPermanent);
    }
  }

  lemma CommitTraced(d: Driver, net: Net, now: Time, later: Driver)
    requires Inv(d) && later == NextCommit(d, net, now)
    ensures Traced(d, later)
  {
    if later.trace != d.trace {
      FailTraced(d, later, FailedPermanent);
    }
  }

  lemma ReadTraced(d: Driver, net: Net)
    requires Inv(d)
    ensures Traced(d, NextRead(d, net))
  {
    if NextRead(d, net).trace != d.trace {
      FailTraced(d, NextRead(d, net), if d.pc.Escaping? then Cancelled else FailedPermanent);
    }
  }

  // ---- Batches on the list ----

  /** The listed batches are pending, each once. */
  ghost predicate ListGood(d: Driver) {
    d.pc.Sending? ==> Distinct(d.pc.batches) && forall id :: id in d.pc.batches ==> HasState(d.local.outbox, id, Pending)
  }

  lemma ListedGood(d: Driver)
    requires DistinctIds(d.local.outbox) && d.pc.Listing?
    ensures ListGood(NextList(d))
  {
    var pending := PendingOf(d.local.outbox, d.source);
    PendingDistinct(d.local.outbox, d.source);
    forall id | id in IdSeq(pending) ensures HasState(d.local.outbox, id, Pending) {
      var i :| 0 <= i < |pending| && pending[i].id == id;
      assert pending[i] in pending;
      FindIs(d.local.outbox, pending[i]);
    }
  }

  lemma {:induction false} FindSame(before: seq<Batch>, after: seq<Batch>, id: BatchId)
    requires |before| == |after|
    requires forall i :: 0 <= i < |before| ==> after[i].id == before[i].id && (before[i].id == id ==> after[i] == before[i])
    ensures FindBatch(after, id) == FindBatch(before, id)
  {
    if before != [] {
      FindSame(before[..|before| - 1], after[..|before| - 1], id);
    }
  }

  lemma SubmitTraced(d: Driver, net: Net, response: Response)
    requires Inv(d) && ListGood(d)
    ensures Traced(d, NextSubmit(d, net, response)) && ListGood(NextSubmit(d, net, response))
  {
    var later := NextSubmit(d, net, response);
    if d.pc.Sending? && d.pc.batches != [] && !net.Lost? {
      var id := d.pc.batches[0];
      assert id in d.pc.batches && HasState(d.local.outbox, id, Pending);
      var batch := FindBatch(d.local.outbox, id).value;
      CarefulAnswer(d.local, id, response);
      if net.Denied? {
        TracedBy(d, later, BatchRefused(id));
        SubmitList(d, later, true, Failed, RequestFailure(Refusals(batch.Entries())));
      } else {
        var failures := Failures(batch.payload, response);
        TracedBy(d, later, BatchAcknowledged(id, response));
        SubmitList(d, later, false, if failures == [] then Sent else Failed,
                   if failures == [] then NoNote else EntryFailures(failures));
      }
    }
  }

  lemma SubmitList(d: Driver, later: Driver, pendingOnly: bool, state: BatchState, note: Note)
    requires ListGood(d) && d.pc.Sending? && d.pc.batches != []
    requires later.pc.Idle? || later.pc == Sending(d.pc.batches[1..])
    requires later.local.outbox == Mark(d.local.outbox, {d.pc.batches[0]}, pendingOnly, state, note)
    ensures ListGood(later)
  {
    if later.pc.Sending? {
      forall id | id in later.pc.batches ensures HasState(later.local.outbox, id, Pending) {
        var i :| 0 <= i < |d.pc.batches| - 1 && d.pc.batches[i + 1] == id;
        assert HasState(d.local.outbox, id, Pending);
        FindSame(d.local.outbox, later.local.outbox, id);
      }
    }
  }

  // ---- Local transactions at rest ----

  lemma RestedBulks(st: Store, step: Step)
    requires Resting(step)
    ensures Rested(st, step).bulks == st.bulks && st.supply <= Rested(st, step).supply
  {
  }

  /** The ledger only watches. */
  lemma LedgerWatches(w: World, step: Step)
    requires Resting(step)
    ensures Do(w, step).store == Rested(w.store, step)
  {
  }

  lemma RestOk(d: Driver, step: Step)
    requires Inv(d) && d.pc.Idle? && Resting(step)
    ensures Inv(d.Wrote(Rested(d.local, step), step, Idle)) && Careful(d.local, step)
  {
    RestedBulks(d.local, step);
    BulksKept(d, d.Wrote(Rested(d.local, step), step, Idle));
  }
}
