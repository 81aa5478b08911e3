/** The status of scans in every run: a scan marked complete has nothing pending or failed. */
module Scans {
  import opened Tables
  import opened Store
  import opened Splitting
  import opened Outbox

  // ---- ScanRun.Status ----

  predicate Fits(b: Batch, scans: map<ScanId, Scan>) {
    && b.scan in scans && scans[b.scan].source == b.source
    && (scans[b.scan].status == Complete ==> b.state in {Sent, Discarded})
  }

  ghost predicate AllFit(outbox: seq<Batch>, scans: map<ScanId, Scan>) {
    forall b :: b in outbox ==> Fits(b, scans)
  }

  lemma BeginFits(outbox: seq<Batch>, scans: map<ScanId, Scan>, id: ScanId, scan: Scan)
    requires AllFit(outbox, scans) && forall b :: b in outbox ==> b.scan != id
    ensures AllFit(outbox, scans[id := scan])
  {
  }

  lemma FinishFits(st: Store, scan: ScanId, completeRead: bool)
    requires AllFit(st.outbox, st.scans)
    ensures AllFit(FinishScan(st, scan, completeRead).outbox, FinishScan(st, scan, completeRead).scans)
  {
  }

  lemma QueueFits(outbox: seq<Batch>, scans: map<ScanId, Scan>, scan: ScanId, payloads: seq<Payload>, firstId: nat)
    requires AllFit(outbox, scans) && scan in scans && scans[scan].status != Complete
    ensures AllFit(outbox + NewBatches(scans[scan].source, scan, payloads, firstId), scans)
  {
  }

  /** Marking rows, then giving some scans a status that is not complete. */
  lemma MarkFits(outbox: seq<Batch>, ids: set<BatchId>, pendingOnly: bool, state: BatchState, note: Note,
                 scans: map<ScanId, Scan>, changed: set<ScanId>, status: ScanStatus)
    requires AllFit(outbox, scans) && status != Complete
    requires forall b :: b in outbox && Hit(b, ids, pendingOnly) ==>
      state in {Sent, Discarded} || b.scan in changed || scans[b.scan].status != Complete
    ensures AllFit(Mark(outbox, ids, pendingOnly, state, note), SetStatus(scans, changed, status))
  {
    var after := Mark(outbox, ids, pendingOnly, state, note);
    forall b | b in after ensures Fits(b, SetStatus(scans, changed, status)) {
      var i :| 0 <= i < |after| && after[i] == b;
      assert outbox[i] in outbox;
    }
  }

  lemma UnchangedScans(scans: map<ScanId, Scan>, status: ScanStatus)
    ensures SetStatus(scans, {}, status) == scans
  {
  }

  /** The settled scan may be marked complete: nothing of it is pending or failed. */
  lemma CompletedFits(outbox: seq<Batch>, scans: map<ScanId, Scan>, scan: ScanId)
    requires AllFit(outbox, scans) && !Any(outbox, scan, Pending) && !Any(outbox, scan, Failed)
    ensures AllFit(outbox, SetStatus(scans, {scan}, Complete))
  {
  }

  lemma AcknowledgeFits(st: Store, b: Batch, response: Response)
    requires AllFit(st.outbox, st.scans) && DistinctIds(st.outbox) && b in st.outbox && b.state == Pending
    ensures var after := Acknowledge(st, b, response); AllFit(after.outbox, after.scans)
  {
    var failures := Failures(b.payload, response);
    var state := if failures == [] then Sent else Failed;
    var note := if failures == [] then NoNote else EntryFailures(failures);
    var outbox := Mark(st.outbox, {b.id}, false, state, note);
    forall c | c in st.outbox && Hit(c, {b.id}, false) ensures st.scans[c.scan].status != Complete {
      SameId(st.outbox, b, c);
    }
    MarkFits(st.outbox, {b.id}, false, state, note, st.scans, {}, NeedsAttention);
    UnchangedScans(st.scans, NeedsAttention);
    if !Any(outbox, b.scan, Pending) {
      if Any(outbox, b.scan, Failed) {
        MarkFits(st.outbox, {b.id}, false, state, note, st.scans, {b.scan}, NeedsAttention);
      } else {
        CompletedFits(outbox, st.scans, b.scan);
      }
    }
  }

  lemma RefuseFits(st: Store, b: Batch)
    requires AllFit(st.outbox, st.scans) && DistinctIds(st.outbox) && b in st.outbox && b.state == Pending
    ensures var after := QuarantineBatch(st, b); AllFit(after.outbox, after.scans)
  {
    var note := RequestFailure(Refusals(b.Entries()));
    forall c | c in st.outbox && Hit(c, {b.id}, true) ensures st.scans[c.scan].status != Complete {
      SameId(st.outbox, b, c);
    }
    MarkFits(st.outbox, {b.id}, true, Failed, note, st.scans, {}, NeedsAttention);
    UnchangedScans(st.scans, NeedsAttention);
    MarkFits(st.outbox, {b.id}, true, Failed, note, st.scans, {b.scan}, NeedsAttention);
  }

  lemma DiscardFits(st: Store, id: BatchId)
    requires AllFit(st.outbox, st.scans) && Discard(st, id).Ok?
    ensures AllFit(Discard(st, id).value.outbox, Discard(st, id).value.scans)
  {
    var row := FindBatch(st.outbox, id).value;
    MarkFits(st.outbox, {id}, false, Discarded, row.note, st.scans, {}, CompleteWithDiscarded);
    UnchangedScans(st.scans, CompleteWithDiscarded);
    MarkFits(st.outbox, {id}, false, Discarded, row.note, st.scans, {row.scan}, CompleteWithDiscarded);
  }

  lemma SuspendFits(st: Store, source: SourceId)
    requires AllFit(st.outbox, st.scans)
    ensures AllFit(Suspend(st, source).0.outbox, Suspend(st, source).0.scans)
  {
  }

  lemma RestoreFits(st: Store, ids: set<BatchId>)
    requires AllFit(st.outbox, st.scans) && DistinctIds(st.outbox)
    ensures AllFit(Restore(st, ids).outbox, Restore(st, ids).scans)
  {
    var rows := DiscardedAmong(st.outbox, ids);
    forall b | b in st.outbox && Hit(b, Ids(rows), false) ensures b.scan in Scans(rows) {
      IdsSelect(st.outbox, rows, b);
    }
    MarkFits(st.outbox, Ids(rows), false, Pending, NoNote, st.scans, Scans(rows), ScanStatus.Queued);
  }

  lemma CompleteBulkFits(st: Store, id: BulkId)
    requires AllFit(st.outbox, st.scans) && CompleteBulk(st, id).Ok?
    ensures AllFit(CompleteBulk(st, id).value.outbox, CompleteBulk(st, id).value.scans)
  {
    var row := FindBulk(st.bulks, id).value;
    var members := Members(st.outbox, row.source, row.captured);
    var outbox := Mark(st.outbox, Ids(members), true, Discarded, BulkNote(id));
    var settled := set b | b in members && !Any(outbox, b.scan, Pending) :: b.scan;
    MarkFits(st.outbox, Ids(members), true, Discarded, BulkNote(id), st.scans, settled, SupersededByBulk);
  }

  lemma SplitFits(st: Store, source: SourceId, max: nat)
    requires AllFit(st.outbox, st.scans) && IdsOk(st.outbox, st.supply) && 1 <= max <= 500
    ensures var after := Split(st, source, max).value.0; AllFit(after.outbox, after.scans)
  {
    var oversized := Oversized(st.outbox, source, max);
    if oversized != [] {
      var scans := st.scans[st.supply := Scan(source, ScanStatus.Queued, true)];
      BeginFits(st.outbox, st.scans, st.supply, scans[st.supply]);
      QueueFits(st.outbox, scans, st.supply, AllReplacements(oversized, st.supply, max), st.supply + 1);
      MarkFits(st.outbox + Added(st, source, max), Ids(oversized), true, Discarded, SplitNote(st.supply),
               scans, Scans(oversized), SplitForApiTimeout);
    }
  }

  lemma RemoveFits(outbox: seq<Batch>, scans: map<ScanId, Scan>, source: SourceId)
    requires AllFit(outbox, scans)
    ensures AllFit(WithoutSource(outbox, source), map id | id in scans && scans[id].source != source :: scans[id])
  {
  }
}
