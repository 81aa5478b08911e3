/** In every run of the driver, with crashes and lost answers anywhere: batches are sent
    only while no import of the source can be in flight on the service. */
module DeliverySafety {
  import opened Prelude
  import opened Tables
  import opened Store
  import opened Transport
  import opened Runs
  import opened Captures
  import opened ActiveBulks
  import opened ImportRuns
  import opened Delivery
  import opened Evolution
  import opened Watching

  ghost function Of(d: Driver): View { View(d.me, d.source, d.local.bulks, d.cloud.server.rows) }

  /** The driver's open complete call is for the import it is completing. */
  ghost predicate MyCallOk(d: Driver) {
    MY_CALL in d.cloud.calls ==>
      && d.pc.Completing? && d.Bulk(d.pc.bulk).Some? && d.Bulk(d.pc.bulk).value.importId.Some?
      && match d.cloud.calls[MY_CALL]
         case Looking(user, source, was) =>
           user == d.me && source == d.source && was.id == d.Bulk(d.pc.bulk).value.importId.value
         case Holding(user, source, id, _) =>
           user == d.me && source == d.source && id == d.Bulk(d.pc.bulk).value.importId.value
         case Dispatching(_) => false
  }

  ghost predicate CallsApart(d: Driver) {
    OthersKeepOut(d.me, d.source, d.cloud.server.rows, d.cloud.calls) && MyCallOk(d)
  }

  /** Import rows have identifiers of their own, and at most one is not over. */
  ghost predicate Apart(bulks: seq<Bulk>, supply: nat) {
    DistinctBulks(bulks) && OneActive(bulks) && forall k :: k in bulks ==> k.id < supply
  }

  ghost predicate Inv(d: Driver) {
    && Apart(d.local.bulks, d.local.supply) && Steady(d.cloud)
    && Linked(Of(d)) && Quieted(Of(d)) && PcOk(Of(d), d.pc)
    && CallsApart(d)
  }

  /** At most one local transaction was made, one a careful client may make at this point. */
  ghost predicate Tame(d: Driver, later: Driver) {
    || (later.trace == d.trace && later.local == d.local)
    || (exists step :: later.trace == d.trace + [step] && Careful(d.local, step))
  }

  /** What each action is shown to do. */
  ghost predicate Keeps(d: Driver, later: Driver) { Inv(later) && Tame(d, later) }

  lemma Careful1(d: Driver, later: Driver, step: Step)
    requires later.trace == d.trace + [step] && Careful(d.local, step)
    ensures Tame(d, later)
  {
  }

  // ---- Moving the place, the service, the local tables ----

  lemma Moved(d: Driver, next: Pc)
    requires Inv(d) && MY_CALL !in d.cloud.calls && PcOk(Of(d), next)
    ensures Keeps(d, d.At(next))
  {
  }

  /** The service moved in a way that keeps what the driver knows. */
  lemma ServiceMoved(d: Driver, event: Event)
    requires Inv(d) && Evolves(d.me, d.source, d.cloud.server.rows, Happen(d.cloud, event).server.rows)
    requires OthersKeepOut(d.me, d.source, Happen(d.cloud, event).server.rows, Happen(d.cloud, event).calls)
    requires MyCallOk(d.Seen(event))
    ensures Keeps(d, d.Seen(event))
  {
    var rows := Happen(d.cloud, event).server.rows;
    HappenSteady(d.cloud, event);
    LinkedRetained(Of(d), rows);
    QuietedEvolves(Of(d), rows);
    PcOkEvolves(Of(d), rows, d.pc);
    assert Of(d.Seen(event)) == Of(d).(rows := rows);
  }

  /** Only the local client moved on. */
  ghost predicate LocalOnly(d: Driver, later: Driver) {
    && later.me == d.me && later.source == d.source && later.cloud == d.cloud && MY_CALL !in d.cloud.calls
    && d.local.supply <= later.local.supply
  }

  /** A local step that leaves the imports table alone. */
  lemma BulksKept(d: Driver, later: Driver)
    requires Inv(d) && LocalOnly(d, later) && later.local.bulks == d.local.bulks
    requires PcOk(Of(d), later.pc)
    ensures Inv(later)
  {
  }

  lemma SetApart(bulks: seq<Bulk>, supply: nat, later: nat, row: Bulk, was: Bulk)
    requires Apart(bulks, supply) && supply <= later && was in bulks && row.id == was.id && OthersClosed(bulks, row.id)
    ensures Apart(SetBulk(bulks, row), later)
  {
  }

  /** A local step that writes one row of the imports table. */
  lemma RowWritten(d: Driver, later: Driver, row: Bulk, was: Bulk)
    requires Inv(d) && LocalOnly(d, later) && later.local.bulks == SetBulk(d.local.bulks, row)
    requires Writable(Of(d), row, was, later.pc)
    ensures Inv(later)
  {
    var v, bulks := Of(d), d.local.bulks;
    SetLinked(v, row, was);
    SetQuieted(v, row, was);
    SetClosed(bulks, row, was);
    SetApart(bulks, d.local.supply, later.local.supply, row, was);
    FindAfterSet(bulks, row);
    assert Of(later) == v.(bulks := SetBulk(bulks, row));
    if !later.pc.Idle? && !later.pc.Flushing? && !later.pc.Listing? && !later.pc.Sending? {
      SameFit(v, SetBulk(bulks, row), row, later.pc);
    }
  }

  /** Where the driver's row fits depends on the service's rows only. */
  lemma SameFit(v: View, bulks: seq<Bulk>, row: Bulk, pc: Pc)
    requires RowFits(v, row, pc)
    ensures RowFits(v.(bulks := bulks), row, pc)
  {
  }

  lemma FoundIsThe(bulks: seq<Bulk>, k: Bulk)
    requires DistinctBulks(bulks) && k in bulks
    ensures FindBulk(bulks, k.id) == Some(k)
  {
  }

  // ---- Giving an import up ----

  /** The local row may be closed: its import is quiet on the service. */
  ghost predicate MayFail(d: Driver, id: BulkId) {
    var k := d.Bulk(id);
    && MY_CALL !in d.cloud.calls && k.Some? && k.value.state != Applied
    && OthersClosed(d.local.bulks, id) && Known(Of(d), k.value.snapshot, Quiet)
  }

  lemma Closed(d: Driver, id: BulkId, state: ImportStatus, serverStatus: Option<ImportStatus>)
    requires Inv(d) && MayFail(d, id) && state in {FailedPermanent, Cancelled}
    ensures Keeps(d, d.Close(id, state, serverStatus))
  {
    var k := d.Bulk(id).value;
    var row := k.(state := Remote(state), serverStatus := if serverStatus.Some? then serverStatus else Some(state));
    RowWritten(d, d.Close(id, state, serverStatus), row, k);
    Careful1(d, d.Close(id, state, serverStatus), BulkFailed(id, state, serverStatus));
  }

  lemma FailOk(d: Driver, id: BulkId, state: ImportStatus)
    requires Inv(d) && MayFail(d, id) && state in {FailedPermanent, Cancelled}
    ensures Keeps(d, d.Fail(id, state))
  {
    Closed(d, id, state, d.Bulk(id).value.serverStatus);
  }

  lemma FailFromHere(d: Driver)
    requires Inv(d) && MY_CALL !in d.cloud.calls
    requires d.pc.Creating? || d.pc.Refreshing? || d.pc.Uploading? || d.pc.Starting? || d.pc.Completing?
      || d.pc.Fetching? || d.pc.Applying?
    ensures Keeps(d, d.Fail(d.pc.bulk, FailedPermanent))
  {
    QuietHere(Of(d), d.pc);
    FailOk(d, d.pc.bulk, FailedPermanent);
  }

  // ---- Starting ----

  lemma BeginOk(d: Driver, batchOnly: bool, plan: Option<Plan>)
    requires Inv(d)
    ensures Keeps(d, NextBegin(d, batchOnly, plan))
  {
    if d.pc.Idle? {
      var active := ActiveBulk(d.local.bulks, d.source);
      if active.Some? {
        ResumeOk(d, active.value, batchOnly);
      } else if PendingOf(d.local.outbox, d.source) != [] {
        if batchOnly || plan.None? {
          Moved(d, Flushing);
        } else {
          PrepareOk(d, plan.value);
        }
      }
    }
  }

  lemma ResumeOk(d: Driver, row: Bulk, batchOnly: bool)
    requires Inv(d) && d.pc.Idle? && row in d.local.bulks && !row.state.Terminal()
    ensures Keeps(d, d.At(if row.importId.None? then Creating(row.id) else if batchOnly then Escaping(row.id) else Checking(row.id, false)))
    ensures row.importId.None? ==> Keeps(d, d.Close(row.id, Cancelled, None))
  {
    FoundIsThe(d.local.bulks, row);
    assert OthersClosed(d.local.bulks, row.id);
    Moved(d, if row.importId.None? then Creating(row.id) else if batchOnly then Escaping(row.id) else Checking(row.id, false));
    if row.importId.None? {
      QuietFrom(Of(d), row.snapshot, Unsent);
      Closed(d, row.id, Cancelled, None);
    }
  }

  /** A new import with a snapshot of its own has nothing on the service yet. */
  lemma NothingThere(v: View, snapshot: nat)
    requires Linked(v) && forall k :: k in v.bulks ==> k.snapshot != snapshot
    ensures forall row :: row in v.rows ==> !Mine(v, snapshot, row)
  {
  }

  lemma AddedLinked(v: View, row: Bulk)
    requires Linked(v) && row.source == v.source && row.processed == 0 && row.importId.None?
    requires forall k :: k in v.bulks ==> k.snapshot != row.snapshot
    ensures Linked(v.(bulks := v.bulks + [row]))
  {
  }

  lemma AddedQuieted(v: View, row: Bulk)
    requires Quieted(v) && !row.state.Terminal()
    requires forall r :: r in v.rows ==> !Mine(v, row.snapshot, r)
    ensures Quieted(v.(bulks := v.bulks + [row]))
  {
  }

  lemma PrepareOk(d: Driver, plan: Plan)
    requires Inv(d) && d.pc.Idle? && MY_CALL !in d.cloud.calls && ActiveBulk(d.local.bulks, d.source).None?
    ensures Keeps(d, Prepare(d, plan))
  {
    if Allowed(d.local, BulkPrepared(d.source, plan.snapshot, plan.artifact, plan.taken))
       && FindSnapshot(d.local.bulks, d.source, plan.snapshot).None? {
      var ids := IdSeq(Chosen(d.local.outbox, d.source, plan.taken));
      var queued := QueueBulk(d.local, d.source, plan.snapshot, plan.artifact, ids);
      if queued.Err? {
        Moved(d, Flushing);
      } else {
        Added(d, Prepare(d, plan), queued.value.1);
        Careful1(d, Prepare(d, plan), BulkPrepared(d.source, plan.snapshot, plan.artifact, plan.taken));
      }
    }
  }

  lemma AddedApart(bulks: seq<Bulk>, supply: nat, row: Bulk)
    requires Apart(bulks, supply) && row.id == supply && AllClosed(bulks)
    ensures Apart(bulks + [row], supply + 1)
  {
  }

  lemma Added(d: Driver, later: Driver, row: Bulk)
    requires Inv(d) && LocalOnly(d, later) && later.pc == Creating(row.id)
    requires later.local.bulks == d.local.bulks + [row] && later.local.supply == d.local.supply + 1
    requires row.id == d.local.supply && row.source == d.source && row.processed == 0 && row.importId.None? && row.state == Prepared
    requires FindSnapshot(d.local.bulks, d.source, row.snapshot).None? && ActiveBulk(d.local.bulks, d.source).None?
    ensures Inv(later)
  {
    var v := Of(d);
    assert forall k :: k in v.bulks ==> k.source == d.source && k.snapshot != row.snapshot && k.state.Terminal();
    NothingThere(v, row.snapshot);
    AddedLinked(v, row);
    AddedQuieted(v, row);
    AddedApart(v.bulks, d.local.supply, row);
    assert Of(later) == v.(bulks := v.bulks + [row]);
  }

  // ---- Reading a status ----

  lemma ReadOk(d: Driver, net: Net)
    requires Inv(d) && Honest(d, Read(net))
    ensures Keeps(d, NextRead(d, net))
  {
    if Reads(d.pc) {
      if net.Lost? {
        Moved(d, Idle);
      } else {
        ReadDone(Of(d), d.cloud.server.supply, d.pc, d.Fetched(d.pc.bulk).value);
        Moved(d, NextRead(d, net).pc);
      }
    }
  }

  // ---- Saving a status ----

  lemma SaveOk(d: Driver)
    requires Inv(d)
    ensures Keeps(d, NextSave(d))
  {
    if d.pc.EscapeRead? || d.pc.CheckRead? || d.pc.ReconcileRead? || d.pc.CompleteRead? || d.pc.PollRead? {
      StatusSaved(d, d.Saved(UpdateStatus(d.local, d.pc.bulk, d.pc.status, d.pc.processed),
                             StatusRead(d.pc.bulk, d.pc.status, d.pc.processed), AfterStatus(d.pc)));
    } else if d.pc.Abandoning? {
      QuietFrom(Of(d), d.Bulk(d.pc.bulk).value.snapshot, Unsent);
      Closed(d, d.pc.bulk, Cancelled, Some(AwaitingUpload));
    } else if d.pc.Closing? {
      Closed(d, d.pc.bulk, FailedPermanent, Some(d.pc.status));
    } else if d.pc.Binding? {
      BindingSaved(d, d.Saved(BindImport(d.local, d.pc.bulk, d.pc.importId, d.pc.status),
                              ImportBound(d.pc.bulk, d.pc.importId, d.pc.status), Checking(d.pc.bulk, d.pc.plan)));
    }
  }

  lemma StatusInv(d: Driver, later: Driver)
    requires Inv(d)
    requires d.pc.EscapeRead? || d.pc.CheckRead? || d.pc.ReconcileRead? || d.pc.CompleteRead? || d.pc.PollRead?
    requires later == d.Saved(UpdateStatus(d.local, d.pc.bulk, d.pc.status, d.pc.processed),
                              StatusRead(d.pc.bulk, d.pc.status, d.pc.processed), AfterStatus(d.pc))
    ensures Inv(later) && UpdateStatus(d.local, d.pc.bulk, d.pc.status, d.pc.processed).Ok?
  {
    var k := d.Bulk(d.pc.bulk).value;
    var row := k.(state := Remote(d.pc.status), serverStatus := Some(d.pc.status), processed := d.pc.processed);
    AtRowFrom(Of(d), d.pc);
    StatusWritable(Of(d), k, row, d.pc);
    RowWritten(d, later, row, k);
  }

  lemma StatusSaved(d: Driver, later: Driver)
    requires Inv(d)
    requires d.pc.EscapeRead? || d.pc.CheckRead? || d.pc.ReconcileRead? || d.pc.CompleteRead? || d.pc.PollRead?
    requires later == d.Saved(UpdateStatus(d.local, d.pc.bulk, d.pc.status, d.pc.processed),
                              StatusRead(d.pc.bulk, d.pc.status, d.pc.processed), AfterStatus(d.pc))
    ensures Keeps(d, later) && UpdateStatus(d.local, d.pc.bulk, d.pc.status, d.pc.processed).Ok?
  {
    StatusInv(d, later);
    AtRowFrom(Of(d), d.pc);
    Careful1(d, later, StatusRead(d.pc.bulk, d.pc.status, d.pc.processed));
  }

  lemma BindingSaved(d: Driver, later: Driver)
    requires Inv(d) && d.pc.Binding?
    requires later == d.Saved(BindImport(d.local, d.pc.bulk, d.pc.importId, d.pc.status),
                              ImportBound(d.pc.bulk, d.pc.importId, d.pc.status), Checking(d.pc.bulk, d.pc.plan))
    ensures Keeps(d, later) && BindImport(d.local, d.pc.bulk, d.pc.importId, d.pc.status).Ok?
  {
    var k := d.Bulk(d.pc.bulk).value;
    var row := k.(importId := Some(d.pc.importId), serverStatus := Some(d.pc.status), state := Remote(d.pc.status));
    AtRowFrom(Of(d), d.pc);
    BindingWritable(Of(d), k, row, d.pc);
    RowWritten(d, later, row, k);
    Careful1(d, later, ImportBound(d.pc.bulk, d.pc.importId, d.pc.status));
  }

  // ---- Watching and applying ----

  lemma ConcludeOk(d: Driver, clean: bool)
    requires Inv(d)
    ensures Keeps(d, NextConclude(d, clean))
  {
    if d.pc.Polling? && d.pc.status.Terminal() {
      ConcludeFits(Of(d), d.pc);
      Moved(d, NextConclude(d, clean).pc);
    }
  }

  lemma ResultOk(d: Driver, later: Driver, sha256: string, fileMatches: bool)
    requires Inv(d) && d.pc.Fetching? && RecordResult(d.local, d.pc.bulk, sha256, fileMatches).Ok?
    requires later == d.Saved(RecordResult(d.local, d.pc.bulk, sha256, fileMatches),
                              ResultSaved(d.pc.bulk, sha256, fileMatches), Applying(d.pc.bulk))
    ensures Keeps(d, later)
  {
    var k := d.Bulk(d.pc.bulk).value;
    AtRowFrom(Of(d), d.pc);
    ResultWritable(Of(d), k, d.pc, sha256);
    RowWritten(d, later, k.(resultSha := Some(sha256), state := ResultReady), k);
    Careful1(d, later, ResultSaved(d.pc.bulk, sha256, fileMatches));
  }

  lemma DownloadOk(d: Driver, net: Net, saved: bool, sha256: string, fileMatches: bool)
    requires Inv(d)
    ensures Keeps(d, NextDownload(d, net, saved, sha256, fileMatches))
  {
    if d.pc.Fetching? && d.Bulk(d.pc.bulk).Some? {
      if saved && d.Bulk(d.pc.bulk).value.resultSha.Some? {
        FetchFits(Of(d), d.pc);
        Moved(d, Applying(d.pc.bulk));
      } else if net.Lost? {
        Moved(d, Idle);
      } else if net.Replied? && RecordResult(d.local, d.pc.bulk, sha256, fileMatches).Ok? {
        ResultOk(d, NextDownload(d, net, saved, sha256, fileMatches), sha256, fileMatches);
      } else {
        FailFromHere(d);
      }
    }
  }

  lemma PageOk(d: Driver, rows: seq<Row>)
    requires Inv(d)
    ensures Keeps(d, NextPage(d, rows))
  {
    if d.pc.Applying? && Allowed(d.local, PageApplied(d.pc.bulk, rows)) {
      if ApplyRows(d.local, d.pc.bulk, rows).Ok? {
        var k := d.Bulk(d.pc.bulk).value;
        CursorAdvances(d.local.inv, k, rows);
        AtRowFrom(Of(d), d.pc);
        PageWritable(Of(d), k, d.pc, |rows|);
        RowWritten(d, NextPage(d, rows), Advanced(k, |rows|), k);
        Careful1(d, NextPage(d, rows), PageApplied(d.pc.bulk, rows));
      } else {
        FailFromHere(d);
      }
    }
  }

  lemma FinishOk(d: Driver)
    requires Inv(d)
    ensures Keeps(d, NextFinish(d))
  {
    if d.pc.Applying? {
      if CompleteBulk(d.local, d.pc.bulk).Ok? {
        var k := d.Bulk(d.pc.bulk).value;
        AtRowFrom(Of(d), d.pc);
        DoneWritable(Of(d), k, d.pc);
        RowWritten(d, NextFinish(d), k.(state := Applied), k);
        Careful1(d, NextFinish(d), BulkCompleted(d.pc.bulk));
      } else {
        FailFromHere(d);
      }
    }
  }

  // ---- Sending batches ----

  lemma NoneActive(bulks: seq<Bulk>, source: SourceId)
    requires AllClosed(bulks)
    ensures ActiveBulk(bulks, source).None?
  {
  }

  lemma SplitOk(d: Driver)
    requires Inv(d)
    ensures Keeps(d, NextSplit(d))
  {
    if d.pc.Flushing? {
      NoneActive(d.local.bulks, d.source);
      BulksKept(d, NextSplit(d));
      Careful1(d, NextSplit(d), OversizedSplit(d.source, MANIFEST_BATCH_SIZE));
    }
  }

  lemma ListOk(d: Driver)
    requires Inv(d)
    ensures Keeps(d, NextList(d))
  {
  }

  /** A batch may be answered whatever its source: no import is active. */
  lemma CarefulAnswer(st: Store, batch: BatchId, response: Response)
    requires AllClosed(st.bulks)
    ensures Careful(st, BatchAcknowledged(batch, response)) && Careful(st, BatchRefused(batch))
  {
  }

  lemma SubmitOk(d: Driver, net: Net, response: Response)
    requires Inv(d)
    ensures Keeps(d, NextSubmit(d, net, response))
  {
    if d.pc.Sending? {
      var later := NextSubmit(d, net, response);
      BulksKept(d, later);
      if later.trace != d.trace {
        var batch := d.pc.batches[0];
        CarefulAnswer(d.local, batch, response);
        Careful1(d, later, if net.Denied? then BatchRefused(batch) else BatchAcknowledged(batch, response));
      }
    }
  }
}
