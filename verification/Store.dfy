/** The whole local database as one value, and every transaction on it as a
    function. An Err result is a raised exception: nothing is written. */
module Store {
  import opened Prelude
  import opened Tables
  import opened Inventory

  datatype Store = Store(bindings: map<SourceId, string>, lifecycle: map<string, nat>,
    outbox: seq<Batch>, scans: map<ScanId, Scan>, bulks: seq<Bulk>, inv: Inventory, supply: nat)

  const BLANK := Store(map[], map[], [], map[], [], EMPTY, 0)

  // ---- Statements on ManifestOutbox and ScanRun ----

  /** UPDATE ManifestOutbox SET State, FailureJson WHERE BatchId IN ids [AND State = 'Pending'] */
  predicate Hit(b: Batch, ids: set<BatchId>, pendingOnly: bool) {
    b.id in ids && (pendingOnly ==> b.state == Pending)
  }

  function Mark(outbox: seq<Batch>, ids: set<BatchId>, pendingOnly: bool, state: BatchState, note: Note): (r: seq<Batch>)
    ensures |r| == |outbox|
    ensures forall i :: 0 <= i < |outbox| ==>
      r[i] == if Hit(outbox[i], ids, pendingOnly) then outbox[i].(state := state, note := note) else outbox[i]
  {
    seq(|outbox|, i requires 0 <= i < |outbox| =>
      if Hit(outbox[i], ids, pendingOnly) then outbox[i].(state := state, note := note) else outbox[i])
  }

  predicate Any(outbox: seq<Batch>, scan: ScanId, state: BatchState) {
    exists b :: b in outbox && b.scan == scan && b.state == state
  }

  function SetStatus(scans: map<ScanId, Scan>, ids: set<ScanId>, status: ScanStatus): map<ScanId, Scan> {
    map id | id in scans :: if id in ids then scans[id].(status := status) else scans[id]
  }

  /** pending_batches: ORDER BY CreatedAtUtc, SequenceNumber is the order of the table. */
  function PendingOf(outbox: seq<Batch>, source: SourceId): (r: seq<Batch>)
    ensures forall b :: b in r <==> b in outbox && b.source == source && b.state == Pending
  {
    if outbox == [] then []
    else
      var last := outbox[|outbox| - 1];
      var front := PendingOf(outbox[..|outbox| - 1], source);
      if last.source == source && last.state == Pending then front + [last] else front
  }

  function Ids(batches: seq<Batch>): set<BatchId> { set b | b in batches :: b.id }

  function Scans(batches: seq<Batch>): set<ScanId> { set b | b in batches :: b.scan }

  function EntriesOf(batches: seq<Batch>): seq<Entry> {
    if batches == [] then [] else batches[0].Entries() + EntriesOf(batches[1..])
  }

  // ---- Scans and new batches ----

  function BeginScan(st: Store, source: SourceId): (Store, ScanId) {
    (st.(scans := st.scans[st.supply := Scan(source, Scanning, false)], supply := st.supply + 1), st.supply)
  }

  function FinishScan(st: Store, scan: ScanId, completeRead: bool): Store {
    if scan in st.scans
    then st.(scans := st.scans[scan := st.scans[scan].(status := Queued, completeRead := completeRead)])
    else st
  }

  function NewBatches(source: SourceId, scan: ScanId, payloads: seq<Payload>, firstId: nat): (r: seq<Batch>)
    ensures |r| == |payloads|
    ensures forall i :: 0 <= i < |r| ==> r[i] == Batch(firstId + i, source, scan, i, payloads[i], Pending, NoNote)
  {
    seq(|payloads|, i requires 0 <= i < |payloads| =>
      Batch(firstId + i, source, scan, i, payloads[i], Pending, NoNote))
  }

  /** queue_batches: UNIQUE (ScanId, SequenceNumber) refuses a scan that has batches. */
  function QueueBatches(st: Store, source: SourceId, scan: ScanId, payloads: seq<Payload>): Result<Store> {
    if exists b :: b in st.outbox && b.scan == scan && b.sequence < |payloads|
    then Err(DuplicateKey)
    else Ok(st.(outbox := st.outbox + NewBatches(source, scan, payloads, st.supply), supply := st.supply + |payloads|))
  }

  // ---- split_oversized_pending_batches ----

  function Oversized(outbox: seq<Batch>, source: SourceId, max: nat): (r: seq<Batch>)
    ensures forall b :: b in r <==> b in outbox && b.source == source && b.state == Pending && |b.Entries()| > max
  {
    if outbox == [] then []
    else
      var last := outbox[|outbox| - 1];
      var front := Oversized(outbox[..|outbox| - 1], source, max);
      if last.source == source && last.state == Pending && |last.Entries()| > max then front + [last] else front
  }

  function Chunks(entries: seq<Entry>, max: nat): (r: seq<seq<Entry>>)
    requires max >= 1
    decreases |entries|
  {
    if |entries| == 0 then []
    else if |entries| <= max then [entries]
    else [entries[..max]] + Chunks(entries[max..], max)
  }

  function Replacements(payload: Payload, scan: ScanId, max: nat): (r: seq<Payload>)
    requires max >= 1
    ensures |r| == |Chunks(payload.entries, max)|
  {
    var chunks := Chunks(payload.entries, max);
    seq(|chunks|, i requires 0 <= i < |chunks| => payload.(snapshot := scan, entries := chunks[i]))
  }

  function AllReplacements(oversized: seq<Batch>, scan: ScanId, max: nat): seq<Payload>
    requires max >= 1
  {
    if oversized == [] then []
    else
      var last := oversized[|oversized| - 1];
      AllReplacements(oversized[..|oversized| - 1], scan, max) + Replacements(last.payload, scan, max)
  }

  /** The new scan takes the next identifier, its batches the ones after it. */
  function Split(st: Store, source: SourceId, max: nat): Result<(Store, nat, nat)> {
    if !(1 <= max <= 500) then Result<(Store, nat, nat)>.Err(BadSplitSize)
    else
      var oversized := Oversized(st.outbox, source, max);
      if oversized == [] then Ok((st, 0, 0))
      else
        var scan := st.supply;
        var payloads := AllReplacements(oversized, scan, max);
        var outbox := st.outbox + NewBatches(source, scan, payloads, st.supply + 1);
        Ok((st.(
          scans := SetStatus(st.scans[scan := Scan(source, Queued, true)], Scans(oversized), SplitForApiTimeout),
          outbox := Mark(outbox, Ids(oversized), true, Discarded, SplitNote(scan)),
          supply := st.supply + 1 + |payloads|), |oversized|, |payloads|))
  }

  // ---- acknowledge_batch and quarantine_request_error ----

  /** The results dictionary: the last result that names the item. */
  function ResultFor(results: seq<EntryResult>, item: ItemId): (r: Option<EntryResult>)
    ensures r.Some? ==> r.value in results && r.value.itemId == item && item != ""
    ensures r.None? ==> item == "" || forall x :: x in results ==> x.itemId != item
  {
    if results == [] || item == "" then None
    else if results[|results| - 1].itemId == item then Some(results[|results| - 1])
    else ResultFor(results[..|results| - 1], item)
  }

  const UPSERT_OUTCOMES: set<Outcome> := {CreatedOccurrence, UpdatedOccurrence, DuplicateLinked, Unchanged}

  /** Why an entry is not accepted; None when it is. */
  function Objection(entry: Entry, reliable: bool, result: Option<EntryResult>): Option<Reason> {
    match result
    case None => Some(MissingResult)
    case Some(r) =>
      if r.uploadRequired then Some(UnexpectedUpload)
      else if r.outcome == Rejected then Some(WasRejected)
      else if entry.operation == Deleted && r.outcome != DeletedOccurrence && !(r.outcome == IgnoredDeletion && reliable)
      then Some(NotApplied(r.outcome))
      else if entry.operation == Upsert && r.outcome !in UPSERT_OUTCOMES then Some(NotApplied(r.outcome))
      else None
  }

  function Judge(entry: Entry, payload: Payload, response: Response): Option<Reason> {
    Objection(entry, payload.deletionReliable, ResultFor(response.results, entry.itemId))
  }

  function Objections(entries: seq<Entry>, payload: Payload, response: Response): (r: seq<Failure>)
    ensures |r| <= |entries|
  {
    if entries == [] then []
    else
      var front, last := Objections(entries[..|entries| - 1], payload, response), entries[|entries| - 1];
      match Judge(last, payload, response)
      case Some(reason) => front + [Failure(Some(last), reason)]
      case None => front
  }

  /** The failures of a response, with the extra row when it counts more rejections. */
  function Failures(payload: Payload, response: Response): seq<Failure> {
    var failures := Objections(payload.entries, payload, response);
    if response.reportedRejected > |failures| then failures + [Failure(None, RejectedCountMismatch)] else failures
  }

  function RecordAccepted(inv: Inventory, source: SourceId, entries: seq<Entry>, payload: Payload, response: Response): Inventory {
    if entries == [] then inv
    else
      var before := RecordAccepted(inv, source, entries[..|entries| - 1], payload, response);
      var last := entries[|entries| - 1];
      if Judge(last, payload, response).None?
      then Record(before, source, last, ResultFor(response.results, last.itemId).value)
      else before
  }

  /** The scan is settled once none of its batches is pending. */
  function SettleScan(scans: map<ScanId, Scan>, outbox: seq<Batch>, scan: ScanId): map<ScanId, Scan> {
    if Any(outbox, scan, Pending) then scans
    else SetStatus(scans, {scan}, if Any(outbox, scan, Failed) then NeedsAttention else Complete)
  }

  function Acknowledge(st: Store, batch: Batch, response: Response): Store {
    var failures := Failures(batch.payload, response);
    var outbox := Mark(st.outbox, {batch.id}, false, if failures == [] then Sent else Failed,
                       if failures == [] then NoNote else EntryFailures(failures));
    st.(inv := RecordAccepted(st.inv, batch.source, batch.Entries(), batch.payload, response),
        outbox := outbox,
        scans := SettleScan(st.scans, outbox, batch.scan))
  }

  function Refusals(entries: seq<Entry>): (r: seq<Failure>)
    ensures |r| == |entries|
    ensures forall i :: 0 <= i < |r| ==> r[i] == Failure(Some(entries[i]), RequestRejected)
  {
    seq(|entries|, i requires 0 <= i < |entries| => Failure(Some(entries[i]), RequestRejected))
  }

  function QuarantineBatch(st: Store, batch: Batch): Store {
    var outbox := Mark(st.outbox, {batch.id}, true, Failed, RequestFailure(Refusals(batch.Entries())));
    st.(outbox := outbox,
        scans := if Any(outbox, batch.scan, Pending) then st.scans else SetStatus(st.scans, {batch.scan}, NeedsAttention))
  }

  // ---- discard_outbox, suspend_pending_batches, restore_suspended_batches ----

  function FindBatch(outbox: seq<Batch>, id: BatchId): (r: Option<Batch>)
    ensures r.Some? ==> r.value in outbox && r.value.id == id
    ensures r.None? <==> forall b :: b in outbox ==> b.id != id
  {
    if outbox == [] then None
    else if outbox[|outbox| - 1].id == id then Some(outbox[|outbox| - 1])
    else FindBatch(outbox[..|outbox| - 1], id)
  }

  function Discard(st: Store, id: BatchId): Result<Store> {
    match FindBatch(st.outbox, id)
    case None => Err(NotFound)
    case Some(row) =>
      if row.state != Failed then Err(NotFailed)
      else
        var outbox := Mark(st.outbox, {id}, false, Discarded, row.note);
        Ok(st.(outbox := outbox,
               scans := if Any(outbox, row.scan, Failed) then st.scans
                        else SetStatus(st.scans, {row.scan}, CompleteWithDiscarded)))
  }

  function Suspend(st: Store, source: SourceId): (Store, seq<BatchId>) {
    var rows := PendingOf(st.outbox, source);
    (st.(outbox := Mark(st.outbox, Ids(rows), true, Discarded, SuspendNote),
         scans := SetStatus(st.scans, Scans(rows), SupersededByOneFile)),
     seq(|rows|, i requires 0 <= i < |rows| => rows[i].id))
  }

  function DiscardedAmong(outbox: seq<Batch>, ids: set<BatchId>): (r: seq<Batch>)
    ensures forall b :: b in r <==> b in outbox && b.id in ids && b.state == Discarded
  {
    if outbox == [] then []
    else
      var last := outbox[|outbox| - 1];
      var front := DiscardedAmong(outbox[..|outbox| - 1], ids);
      if last.id in ids && last.state == Discarded then front + [last] else front
  }

  function Restore(st: Store, ids: set<BatchId>): Store {
    var rows := DiscardedAmong(st.outbox, ids);
    st.(outbox := Mark(st.outbox, Ids(rows), false, Pending, NoNote),
        scans := SetStatus(st.scans, Scans(rows), Queued))
  }

  // ---- BulkManifestOutbox ----

  predicate IsSha256(text: string) {
    |text| == 64 && forall c :: c in text ==> '0' <= c <= '9' || 'a' <= c <= 'f' || 'A' <= c <= 'F'
  }

  function ActiveBulk(bulks: seq<Bulk>, source: SourceId): (r: Option<Bulk>)
    ensures r.Some? ==> r.value in bulks && r.value.source == source && !r.value.state.Terminal()
    ensures r.None? <==> forall k :: k in bulks && k.source == source ==> k.state.Terminal()
  {
    if bulks == [] then None
    else
      var last := bulks[|bulks| - 1];
      if last.source == source && !last.state.Terminal() then Some(last)
      else ActiveBulk(bulks[..|bulks| - 1], source)
  }

  function FindSnapshot(bulks: seq<Bulk>, source: SourceId, snapshot: nat): (r: Option<Bulk>)
    ensures r.Some? ==> r.value in bulks && r.value.source == source && r.value.snapshot == snapshot
    ensures r.None? <==> forall k :: k in bulks && k.source == source ==> k.snapshot != snapshot
  {
    if bulks == [] then None
    else
      var last := bulks[|bulks| - 1];
      if last.source == source && last.snapshot == snapshot then Some(last)
      else FindSnapshot(bulks[..|bulks| - 1], source, snapshot)
  }

  function FindBulk(bulks: seq<Bulk>, id: BulkId): (r: Option<Bulk>)
    ensures r.Some? ==> r.value in bulks && r.value.id == id
    ensures r.None? <==> forall k :: k in bulks ==> k.id != id
  {
    if bulks == [] then None
    else if bulks[|bulks| - 1].id == id then Some(bulks[|bulks| - 1])
    else FindBulk(bulks[..|bulks| - 1], id)
  }

  /** UPDATE BulkManifestOutbox ... WHERE BulkId = new.id */
  function SetBulk(bulks: seq<Bulk>, new_: Bulk): (r: seq<Bulk>)
    ensures |r| == |bulks|
    ensures forall i :: 0 <= i < |bulks| ==> r[i] == if bulks[i].id == new_.id then new_ else bulks[i]
  {
    seq(|bulks|, i requires 0 <= i < |bulks| => if bulks[i].id == new_.id then new_ else bulks[i])
  }

  /** The rows of the captured batches, as the SELECT with IN (...) returns them. */
  function Members(outbox: seq<Batch>, source: SourceId, ids: seq<BatchId>): (r: seq<Batch>)
    ensures forall b :: b in r <==> b in outbox && b.source == source && b.id in ids
  {
    if outbox == [] then []
    else
      var last := outbox[|outbox| - 1];
      var front := Members(outbox[..|outbox| - 1], source, ids);
      if last.source == source && last.id in ids then front + [last] else front
  }

  predicate Capturable(entries: seq<Entry>) {
    forall e :: e in entries ==> e.operation == Upsert && IsSha256(e.contentSha256)
  }

  predicate Distinct(ids: seq<BatchId>) {
    forall i, j :: 0 <= i < j < |ids| ==> ids[i] != ids[j]
  }

  datatype Artifact = Artifact(sha256: string, bytes: nat, entryCount: nat, fileMatches: bool)

  /** queue_bulk_manifest. The driver passes distinct ids, so dict.fromkeys keeps them all. */
  function QueueBulk(st: Store, source: SourceId, snapshot: nat, artifact: Artifact, ids: seq<BatchId>): Result<(Store, Bulk)>
  {
    if !IsSha256(artifact.sha256) then Err(BadDigest)
    else if artifact.bytes == 0 || artifact.entryCount == 0
    then Err(BadCount)
    else if !artifact.fileMatches then Err(FileMismatch)
    else if source !in st.bindings then Err(NotFound)
    else
      var active := ActiveBulk(st.bulks, source);
      if active.Some? && active.value.snapshot != snapshot
      then Err(OtherImportActive)
      else
        match FindSnapshot(st.bulks, source, snapshot)
        case Some(existing) =>
          if existing.sha256 != artifact.sha256 || existing.bytes != artifact.bytes
             || existing.entryCount != artifact.entryCount || existing.captured != ids
          then Err(SnapshotConflict)
          else Ok((st, existing))
        case None =>
          var members := Members(PendingOf(st.outbox, source), source, ids);
          if exists id :: id in ids && id !in Ids(members)
          then Err(MemberNotPending)
          else if !Capturable(EntriesOf(members))
          then Err(NotCapturable)
          else if ids != [] && |EntriesOf(members)| != artifact.entryCount
          then Err(CountMismatch)
          else
            var row := Bulk(st.supply, source, snapshot, artifact.sha256, artifact.bytes, artifact.entryCount,
                            Prepared, None, None, 0, None, 0, ids);
            Ok((st.(bulks := st.bulks + [row], supply := st.supply + 1), row))
  }

  /** set_bulk_manifest_server_import */
  function BindImport(st: Store, id: BulkId, importId: ImportId, status: ImportStatus): Result<Store> {
    match FindBulk(st.bulks, id)
    case None => Err(NotFound)
    case Some(row) =>
      if row.importId.Some? && row.importId.value != importId
      then Err(AlreadyBound)
      else Ok(st.(bulks := SetBulk(st.bulks,
             row.(importId := Some(importId), serverStatus := Some(status), state := Remote(status)))))
  }

  /** update_bulk_manifest_status */
  function UpdateStatus(st: Store, id: BulkId, status: ImportStatus, processed: nat): Result<Store> {
    match FindBulk(st.bulks, id)
    case None => Err(NotFound)
    case Some(row) =>
      if processed > row.entryCount then Err(TooManyProcessed)
      else Ok(st.(bulks := SetBulk(st.bulks,
             row.(state := Remote(status), serverStatus := Some(status), processed := processed))))
  }

  /** record_bulk_manifest_result */
  function RecordResult(st: Store, id: BulkId, sha256: string, fileMatches: bool): Result<Store> {
    if !fileMatches then Err(FileMismatch)
    else if !IsSha256(sha256) then Err(BadDigest)
    else
      match FindBulk(st.bulks, id)
      case None => Err(NotFound)
      case Some(row) =>
        if row.importId.None? || row.serverStatus !in {Some(Succeeded), Some(CompletedWithErrors)}
        then Err(ResultUnavailable)
        else Ok(st.(bulks := SetBulk(st.bulks, row.(resultSha := Some(sha256), state := ResultReady))))
  }

  // ---- apply_bulk_result_rows ----

  datatype Row = Row(number: nat, entry: Entry, result: EntryResult)

  const PLACEHOLDER := "__invalid_row__:"

  function RowError(row: Row, expected: nat, entryCount: nat): Option<Error> {
    if row.number != expected || row.number > entryCount
    then Some(NotContiguous)
    else if row.result.outcome !in UPSERT_OUTCOMES + {Rejected}
    then Some(UnsupportedOutcome)
    else if row.result.uploadRequired then Some(UploadRequired)
    else if row.result.outcome == Rejected then
      if row.result.itemId != row.entry.itemId && !(PLACEHOLDER <= row.result.itemId)
      then Some(UnsafePlaceholder) else None
    else if row.entry.itemId == "" || row.entry.itemId != row.result.itemId
    then Some(IdentityMismatch)
    else if row.entry.operation != Upsert then Some(NotAnUpsert)
    else if row.entry.revision == "" || row.entry.fileName == ""
    then Some(IncompleteRow)
    else None
  }

  function ThenRow(before: Result<Inventory>, source: SourceId, expected: nat, entryCount: nat, row: Row): Result<Inventory> {
    match before
    case Err(error) => Err(error)
    case Ok(inv) =>
      match RowError(row, expected, entryCount)
      case Some(error) => Err(error)
      case None => Ok(if row.result.outcome == Rejected then inv else RecordUpsert(inv, source, row.entry, row.result))
  }

  /** The rows of one page on top of a cursor, all or nothing. */
  function RecordRows(inv: Inventory, source: SourceId, cursor: nat, entryCount: nat, rows: seq<Row>): Result<Inventory> {
    if rows == [] then Ok(inv)
    else ThenRow(RecordRows(inv, source, cursor, entryCount, rows[..|rows| - 1]),
                 source, cursor + |rows|, entryCount, rows[|rows| - 1])
  }

  /** The inventory and the import row after one page, saved together. */
  function ApplyPage(inv: Inventory, row: Bulk, rows: seq<Row>): Result<(Inventory, Bulk)> {
    if rows == [] then Err(EmptyPage)
    else if row.state !in {ResultReady, ApplyingResult} then Err(NotVerified)
    else
      match RecordRows(inv, row.source, row.appliedThrough, row.entryCount, rows)
      case Err(error) => Err(error)
      case Ok(after) => Ok((after, row.(appliedThrough := rows[|rows| - 1].number, state := ApplyingResult)))
  }

  function ApplyRows(st: Store, id: BulkId, rows: seq<Row>): Result<Store> {
    match FindBulk(st.bulks, id)
    case None => if rows == [] then Err(EmptyPage) else Err(NotFound)
    case Some(row) =>
      match ApplyPage(st.inv, row, rows)
      case Err(error) => Err(error)
      case Ok((inv, moved)) => Ok(st.(inv := inv, bulks := SetBulk(st.bulks, moved)))
  }

  /** complete_bulk_manifest: only the captured batches that are still pending are superseded. */
  function CompleteBulk(st: Store, id: BulkId): Result<Store> {
    match FindBulk(st.bulks, id)
    case None => Err(NotFound)
    case Some(row) =>
      if row.serverStatus != Some(Succeeded)
      then Err(NotRejectionFree)
      else if row.appliedThrough != row.entryCount then Err(NotFullyApplied)
      else
        var members := Members(st.outbox, row.source, row.captured);
        if exists id :: id in row.captured && id !in Ids(members) then Err(MemberMissing)
        else
          var outbox := Mark(st.outbox, Ids(members), true, Discarded, BulkNote(id));
          var settled := set b | b in members && !Any(outbox, b.scan, Pending) :: b.scan;
          Ok(st.(outbox := outbox,
                 scans := SetStatus(st.scans, settled, SupersededByBulk),
                 bulks := SetBulk(st.bulks, row.(state := Applied))))
  }

  /** fail_bulk_manifest */
  function FailBulk(st: Store, id: BulkId, state: ImportStatus, serverStatus: Option<ImportStatus>): Result<Store> {
    if state !in {FailedPermanent, Cancelled, Expired} then Err(NotATerminalState)
    else
      match FindBulk(st.bulks, id)
      case None => Err(NotFound)
      case Some(row) =>
        Ok(st.(bulks := SetBulk(st.bulks, row.(state := Remote(state),
          serverStatus := if serverStatus.Some? then serverStatus else Some(state)))))
  }

  // ---- Sources ----

  function BindSource(st: Store, source: SourceId, root: string): Store {
    st.(bindings := st.bindings[source := root])
  }

  function WithoutSource(outbox: seq<Batch>, source: SourceId): (r: seq<Batch>)
    ensures forall b :: b in r <==> b in outbox && b.source != source
  {
    if outbox == [] then []
    else
      var last := outbox[|outbox| - 1];
      var front := WithoutSource(outbox[..|outbox| - 1], source);
      if last.source == source then front else front + [last]
  }

  function BulksWithoutSource(bulks: seq<Bulk>, source: SourceId): (r: seq<Bulk>)
    ensures forall k :: k in r <==> k in bulks && k.source != source
  {
    if bulks == [] then []
    else
      var last := bulks[|bulks| - 1];
      var front := BulksWithoutSource(bulks[..|bulks| - 1], source);
      if last.source == source then front else front + [last]
  }

  /** remove_binding; the result is the next lifecycle generation of the root. */
  function RemoveSource(st: Store, source: SourceId): Result<(Store, nat)> {
    if source !in st.bindings then Result<(Store, nat)>.Err(NotFound)
    else
      var root := st.bindings[source];
      var next := (if root in st.lifecycle then st.lifecycle[root] else 0) + 1;
      Ok((st.(
        bindings := st.bindings - {source},
        lifecycle := st.lifecycle[root := next],
        outbox := WithoutSource(st.outbox, source),
        bulks := BulksWithoutSource(st.bulks, source),
        inv := ForgetSource(st.inv, source),
        scans := map id | id in st.scans && st.scans[id].source != source :: st.scans[id]), next))
  }
}
