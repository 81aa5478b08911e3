/** Every run of the client: the transactions its drivers make, in any order the
    source locks allow, and a ledger of what happened so far. A crash is a run
    that stops, since every step is one transaction. */
module Runs {
  import opened Prelude
  import opened Tables
  import opened Inventory
  import opened Store
  import opened SyncDiff

  /** The scan and the diff whose entries a batch carries. */
  datatype Origin = Origin(scan: ScanId, source: SourceId, outcome: ScanOutcome, entries: seq<Entry>)

  /** What the outside saw: entries queued per source, the scan and diff behind each batch,
      the service's answer per batch, what each artifact was written from, and the result
      rows applied per bulk import. */
  datatype Ledger = Ledger(queued: map<SourceId, multiset<Entry>>, origins: map<BatchId, Origin>,
    answers: map<BatchId, Response>, artifacts: map<BulkId, seq<Entry>>, applied: map<BulkId, seq<Row>>)

  datatype World = World(store: Store, ledger: Ledger)

  const START := World(BLANK, Ledger(map[], map[], map[], map[], map[]))

  datatype Step =
    | SourceBound(source: SourceId, root: string)
    | SourceRemoved(source: SourceId)
    | ScanBegun(source: SourceId)
    | DiffQueued(scan: ScanId, outcome: ScanOutcome, order: seq<ItemId>)
    | ScanFinished(scan: ScanId, completeRead: bool)
    | OversizedSplit(source: SourceId, max: nat)
    | BatchAcknowledged(batch: BatchId, response: Response)
    | BatchRefused(batch: BatchId)
    | BatchDiscarded(batch: BatchId)
    | PendingSuspended(source: SourceId)
    | SuspendedRestored(batches: set<BatchId>)
    | BulkPrepared(source: SourceId, snapshot: nat, artifact: Artifact, taken: nat)
    | ImportBound(bulk: BulkId, importId: ImportId, status: ImportStatus)
    | StatusRead(bulk: BulkId, status: ImportStatus, processed: nat)
    | ResultSaved(bulk: BulkId, sha256: string, fileMatches: bool)
    | PageApplied(bulk: BulkId, rows: seq<Row>)
    | BulkCompleted(bulk: BulkId)
    | BulkFailed(bulk: BulkId, state: ImportStatus, serverStatus: Option<ImportStatus>)
    | TaskMoved(event: TaskEvent)
    | ScenesQueued(source: SourceId, tasks: seq<SceneTask>)

  // ---- What the drivers look up before a step ----

  predicate HasState(outbox: seq<Batch>, id: BatchId, state: BatchState) {
    var row := FindBatch(outbox, id);
    row.Some? && row.value.state == state
  }

  predicate Suspended(outbox: seq<Batch>, id: BatchId) {
    var row := FindBatch(outbox, id);
    row.Some? && row.value.state == Discarded && row.value.note == SuspendNote
  }

  function EntriesById(outbox: seq<Batch>, id: BatchId): seq<Entry> {
    match FindBatch(outbox, id)
    case None => []
    case Some(b) => b.Entries()
  }

  /** _captured_bulk_entries: the payloads of the saved batch identifiers, in their order. */
  function CapturedEntries(outbox: seq<Batch>, ids: seq<BatchId>): seq<Entry> {
    if ids == [] then []
    else CapturedEntries(outbox, ids[..|ids| - 1]) + EntriesById(outbox, ids[|ids| - 1])
  }

  /** The batches chosen for a bulk manifest: the oldest pending ones. */
  function Chosen(outbox: seq<Batch>, source: SourceId, taken: nat): seq<Batch> {
    var pending := PendingOf(outbox, source);
    if taken <= |pending| then pending[..taken] else pending
  }

  function IdSeq(batches: seq<Batch>): (r: seq<BatchId>)
    ensures |r| == |batches|
    ensures forall i :: 0 <= i < |r| ==> r[i] == batches[i].id
  {
    seq(|batches|, i requires 0 <= i < |batches| => batches[i].id)
  }

  /** Result row n is paired with row n of the rebuilt manifest. */
  predicate Aligned(rows: seq<Row>, entries: seq<Entry>) {
    forall r :: r in rows ==> 1 <= r.number <= |entries| && r.entry == entries[r.number - 1]
  }

  predicate Unfinished(bulks: seq<Bulk>, id: BulkId) {
    var row := FindBulk(bulks, id);
    row.Some? && row.value.state != Applied
  }

  /** A bulk row the driver still works on; a terminal status may be read once more. */
  predicate Live(bulks: seq<Bulk>, id: BulkId, status: Option<ImportStatus>) {
    var row := FindBulk(bulks, id);
    row.Some? && (!row.value.state.Terminal() || (status.Some? && row.value.state == Remote(status.value)))
  }

  /** When a driver takes a step at all. */
  ghost predicate Allowed(st: Store, step: Step) {
    match step
    case SourceBound(_, _) => true
    case SourceRemoved(_) => true
    case ScanBegun(_) => true
    case DiffQueued(scan, outcome, order) =>
      && scan in st.scans && st.scans[scan].status == Scanning
      && Scanned(outcome) && Enumerates(order, st.inv.known, st.scans[scan].source)
      && forall b :: b in st.outbox ==> b.scan != scan
    case ScanFinished(scan, _) => scan in st.scans && st.scans[scan].status == Scanning
    case OversizedSplit(_, _) => true
    case BatchAcknowledged(id, _) => HasState(st.outbox, id, Pending)
    case BatchRefused(id) => HasState(st.outbox, id, Pending)
    case BatchDiscarded(_) => true
    case PendingSuspended(_) => true
    case SuspendedRestored(ids) => forall id :: id in ids ==> Suspended(st.outbox, id)
    case BulkPrepared(source, _, artifact, taken) =>
      taken > 0 && artifact.entryCount == |EntriesOf(Chosen(st.outbox, source, taken))|
    case ImportBound(id, _, _) => Live(st.bulks, id, None)
    case StatusRead(id, status, _) => Live(st.bulks, id, Some(status))
    case ResultSaved(id, _, _) => Live(st.bulks, id, None)
    case PageApplied(id, rows) =>
      var row := FindBulk(st.bulks, id);
      row.Some? && Aligned(rows, CapturedEntries(st.outbox, row.value.captured))
    case BulkCompleted(id) => Live(st.bulks, id, None)
    case BulkFailed(id, _, _) => Unfinished(st.bulks, id)
    case TaskMoved(_) => true
    case ScenesQueued(_, _) => true
  }

  // ---- Steps ----

  function After(w: World, result: Result<Store>): World {
    match result
    case Ok(store) => w.(store := store)
    case Err(_) => w
  }

  /** The scan and the diff that a step queues. */
  ghost function DiffOrigin(st: Store, scan: ScanId, outcome: ScanOutcome, order: seq<ItemId>): Origin
    requires scan in st.scans
  {
    var source := st.scans[scan].source;
    Origin(scan, source, outcome, Diff(outcome, order, st.inv.known, Quarantined(st.outbox, source), source))
  }

  function NewOrigins(origins: map<BatchId, Origin>, added: seq<Batch>, origin: Origin): map<BatchId, Origin> {
    origins + map id | id in Ids(added) :: origin
  }

  ghost function QueueDiff(w: World, scan: ScanId, outcome: ScanOutcome, order: seq<ItemId>): World
    requires scan in w.store.scans
  {
    var st, origin := w.store, DiffOrigin(w.store, scan, outcome, order);
    var payloads := ManifestPayloads(scan, origin.entries, outcome.complete);
    match QueueBatches(st, origin.source, scan, payloads)
    case Err(_) => w
    case Ok(store) =>
      var before := if origin.source in w.ledger.queued then w.ledger.queued[origin.source] else multiset{};
      World(store, w.ledger.(queued := w.ledger.queued[origin.source := before + multiset(origin.entries)],
                             origins := NewOrigins(w.ledger.origins, NewBatches(origin.source, scan, payloads, st.supply), origin)))
  }

  /** For each replacement, in the order of AllReplacements, the batch it is cut from. */
  function PieceSources(oversized: seq<Batch>, max: nat): seq<BatchId>
    requires max >= 1
  {
    if oversized == [] then []
    else
      var last := oversized[|oversized| - 1];
      PieceSources(oversized[..|oversized| - 1], max) + seq(|Chunks(last.Entries(), max)|, _ => last.id)
  }

  /** The new row at place k has the origin of batch cut[k]. */
  function CopyOrigins(origins: map<BatchId, Origin>, added: set<BatchId>, firstId: nat, cut: seq<BatchId>)
    : (later: map<BatchId, Origin>)
    ensures later.Values <= origins.Values
  {
    origins + map id | id in added && firstId <= id < firstId + |cut| && cut[id - firstId] in origins :: origins[cut[id - firstId]]
  }

  /** A replacement has the origin of the batch it is cut from. */
  function SplitOrigins(st: Store, source: SourceId, max: nat, origins: map<BatchId, Origin>)
    : (later: map<BatchId, Origin>)
    requires max >= 1
    ensures later.Values <= origins.Values
  {
    var oversized := Oversized(st.outbox, source, max);
    var added := NewBatches(source, st.supply, AllReplacements(oversized, st.supply, max), st.supply + 1);
    CopyOrigins(origins, Ids(added), st.supply + 1, PieceSources(oversized, max))
  }

  function OriginsWithout(origins: map<BatchId, Origin>, source: SourceId): map<BatchId, Origin> {
    map id | id in origins && origins[id].source != source :: origins[id]
  }

  function SplitBatches(w: World, source: SourceId, max: nat): World
    requires 1 <= max <= 500
  {
    World(Split(w.store, source, max).value.0, w.ledger.(origins := SplitOrigins(w.store, source, max, w.ledger.origins)))
  }

  function AcknowledgeRow(w: World, id: BatchId, response: Response): World {
    match FindBatch(w.store.outbox, id)
    case None => w
    case Some(batch) =>
      World(Acknowledge(w.store, batch, response), w.ledger.(answers := w.ledger.answers[id := response]))
  }

  function RefuseRow(w: World, id: BatchId): World {
    match FindBatch(w.store.outbox, id)
    case None => w
    case Some(batch) => w.(store := QuarantineBatch(w.store, batch))
  }

  function PrepareBulk(w: World, source: SourceId, snapshot: nat, artifact: Artifact, taken: nat): World {
    var batches := Chosen(w.store.outbox, source, taken);
    match QueueBulk(w.store, source, snapshot, artifact, IdSeq(batches))
    case Err(_) => w
    case Ok((store, row)) =>
      if store == w.store then w
      else World(store, w.ledger.(artifacts := w.ledger.artifacts[row.id := EntriesOf(batches)],
                                  applied := w.ledger.applied[row.id := []]))
  }

  function ApplyResultPage(w: World, id: BulkId, rows: seq<Row>): World {
    match ApplyRows(w.store, id, rows)
    case Err(_) => w
    case Ok(store) =>
      var before := if id in w.ledger.applied then w.ledger.applied[id] else [];
      World(store, w.ledger.(applied := w.ledger.applied[id := before + rows]))
  }

  function Remove(w: World, source: SourceId): World {
    match RemoveSource(w.store, source)
    case Err(_) => w
    case Ok((store, _)) =>
      World(store, w.ledger.(queued := w.ledger.queued - {source}, origins := OriginsWithout(w.ledger.origins, source)))
  }

  /** One step; a step the driver would not take, or whose transaction raises, changes nothing. */
  ghost function Do(w: World, step: Step): World {
    if !Allowed(w.store, step) then w
    else
      match step
      case SourceBound(source, root) => w.(store := BindSource(w.store, source, root))
      case SourceRemoved(source) => Remove(w, source)
      case ScanBegun(source) => w.(store := BeginScan(w.store, source).0)
      case DiffQueued(scan, outcome, order) => QueueDiff(w, scan, outcome, order)
      case ScanFinished(scan, completeRead) => w.(store := FinishScan(w.store, scan, completeRead))
      case OversizedSplit(source, max) =>
        if 1 <= max <= 500 then SplitBatches(w, source, max) else w
      case BatchAcknowledged(id, response) => AcknowledgeRow(w, id, response)
      case BatchRefused(id) => RefuseRow(w, id)
      case BatchDiscarded(id) => After(w, Discard(w.store, id))
      case PendingSuspended(source) => w.(store := Suspend(w.store, source).0)
      case SuspendedRestored(ids) => w.(store := Restore(w.store, ids))
      case BulkPrepared(source, snapshot, artifact, taken) => PrepareBulk(w, source, snapshot, artifact, taken)
      case ImportBound(id, importId, status) => After(w, BindImport(w.store, id, importId, status))
      case StatusRead(id, status, processed) => After(w, UpdateStatus(w.store, id, status, processed))
      case ResultSaved(id, sha256, fileMatches) => After(w, RecordResult(w.store, id, sha256, fileMatches))
      case PageApplied(id, rows) => ApplyResultPage(w, id, rows)
      case BulkCompleted(id) => After(w, CompleteBulk(w.store, id))
      case BulkFailed(id, state, serverStatus) => After(w, FailBulk(w.store, id, state, serverStatus))
      case TaskMoved(event) =>
        (match HandleTask(w.store.inv, event)
         case Ok(inv) => w.(store := w.store.(inv := inv))
         case Err(_) => w)
      case ScenesQueued(source, tasks) =>
        (match QueueScenes(w.store.inv, source, tasks)
         case Ok((inv, _)) => w.(store := w.store.(inv := inv))
         case Err(_) => w)
  }

  /** The world after any sequence of steps from an empty database. */
  ghost function Run(steps: seq<Step>): World {
    if steps == [] then START else Do(Run(steps[..|steps| - 1]), steps[|steps| - 1])
  }
}
