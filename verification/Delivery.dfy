/** The delivery driver of one source against the service: one bulk import at a time,
    resumed, watched, applied or given up, and batches sent one by one otherwise.
    Every action is at most one API call or one local transaction, so a crash may
    fall between any two of them. */
module Delivery {
  import opened Prelude
  import opened Tables
  import opened Store
  import opened Runs
  import opened ImportService
  import opened ImportRuns

  const MANIFEST_BATCH_SIZE := 100

  /** Where the driver is. A name ending in Read holds a status that is not saved yet. */
  datatype Pc =
    | Idle
    | Escaping(bulk: BulkId)
    | EscapeRead(bulk: BulkId, status: ImportStatus, processed: nat)
    | Abandoning(bulk: BulkId)
    | Creating(bulk: BulkId)
    | Binding(bulk: BulkId, importId: ImportId, status: ImportStatus, plan: bool)
    | Checking(bulk: BulkId, plan: bool)
    | CheckRead(bulk: BulkId, status: ImportStatus, processed: nat, plan: bool)
    | Refreshing(bulk: BulkId)
    | Reconciling(bulk: BulkId)
    | ReconcileRead(bulk: BulkId, status: ImportStatus, processed: nat)
    | Uploading(bulk: BulkId)
    | Starting(bulk: BulkId)
    | Completing(bulk: BulkId)
    | CompleteRead(bulk: BulkId, status: ImportStatus, processed: nat)
    | Polling(bulk: BulkId, status: ImportStatus)
    | PollRead(bulk: BulkId, status: ImportStatus, processed: nat)
    | Closing(bulk: BulkId, status: ImportStatus)
    | Fetching(bulk: BulkId)
    | Applying(bulk: BulkId)
    | Flushing
    | Listing
    | Sending(batches: seq<BatchId>)

  /** What becomes of an API call: it is answered, it fails transiently with or without
      having taken effect, or it is refused for good without effect. */
  datatype Net = Replied | Lost(effect: bool) | Denied

  datatype Plan = Plan(snapshot: nat, artifact: Artifact, taken: nat)

  datatype Action =
    | Crash
    | Elsewhere(event: Event)
    | AtRest(step: Step)
    | Begin(batchOnly: bool, plan: Option<Plan>)
    | Read(net: Net)
    | Save
    | CallCreate(net: Net, now: Time)
    | CallRefresh(net: Net, now: Time)
    | PutFile(net: Net, stored: StoredObject)
    | CallComplete(net: Net)
    | LookAtObject(reachable: bool)
    | CommitCall(net: Net, now: Time)
    | HangUp
    | Pause
    | Conclude(clean: bool)
    | Download(net: Net, saved: bool, sha256: string, fileMatches: bool)
    | ApplyNext(rows: seq<Row>)
    | Finish
    | Break
    | SplitNow
    | List
    | Submit(net: Net, response: Response)
  {
    predicate Calls() {
      Crash? || Elsewhere? || CallCreate? || CallRefresh? || PutFile? || CallComplete? || LookAtObject? || CommitCall? || HangUp?
    }

    predicate Watches() { Begin? || Read? || Save? || Pause? || Conclude? }

    predicate Applies() { Download? || ApplyNext? || Finish? || Break? }

    predicate Batches() { AtRest? || SplitNow? || List? || Submit? }
  }

  /** One client's database and the transactions that led to it, the service, and where the driver is. */
  datatype Driver = Driver(me: UserId, source: SourceId, local: Store, trace: seq<Step>, cloud: Cloud, pc: Pc) {
    function Bulk(id: BulkId): Option<Bulk> { FindBulk(local.bulks, id) }

    /** get_manifest_import for the saved identifier. */
    function Fetched(id: BulkId): Reply<Import> {
      if Bulk(id).None? || Bulk(id).value.importId.None? then Refused(UnknownImport)
      else Lookup(cloud.server, me, source, Bulk(id).value.importId.value)
    }

    function At(next: Pc): Driver { this.(pc := next) }

    function Seen(event: Event): Driver { this.(cloud := Happen(cloud, event)) }

    /** One local transaction, which the history knows as this step. */
    function Wrote(store: Store, step: Step, next: Pc): Driver {
      this.(local := store, trace := trace + [step], pc := next)
    }

    function Saved(result: Result<Store>, step: Step, next: Pc): Driver {
      Wrote(if result.Ok? then result.value else local, step, next)
    }

    function Close(id: BulkId, state: ImportStatus, serverStatus: Option<ImportStatus>): Driver {
      Saved(FailBulk(local, id, state, serverStatus), BulkFailed(id, state, serverStatus), Flushing)
    }

    /** fail_bulk_manifest with the last status saved, then batches. */
    function Fail(id: BulkId, state: ImportStatus): Driver {
      Close(id, state, if Bulk(id).Some? then Bulk(id).value.serverStatus else None)
    }
  }

  /** The complete call the driver has open, if any. */
  const MY_CALL: nat := 0

  function RequestFor(me: UserId, row: Bulk): Request {
    Request(me, row.source, row.snapshot, ForSnapshot(row.source, row.snapshot), row.sha256, row.sha256, row.bytes, row.entryCount)
  }

  /** An import this driver created. */
  predicate Ours(me: UserId, source: SourceId, row: Import) {
    row.user == me && row.key.ForSnapshot? && row.key.source == source
  }

  /** Events of other clients, of the worker and of the service: they use their own keys
      and calls, and complete their own imports. */
  ghost predicate Foreign(d: Driver, event: Event) {
    match event
    case CreateCalled(request, _) => request.user == d.me ==> !(request.key.ForSnapshot? && request.key.source == d.source)
    case CompleteBegun(call, _, _, id) =>
      call != MY_CALL && forall row :: row in d.cloud.server.rows && row.id == id ==> !Ours(d.me, d.source, row)
    case ObjectChecked(call, _) => call != MY_CALL
    case CompleteCommitted(call, _) => call != MY_CALL
    case DispatchTried(call) => call != MY_CALL
    case CallLost(call) => call != MY_CALL
    case _ => true
  }

  /** Local transactions outside delivery: scanning, queueing, discarding, describing. */
  predicate Resting(step: Step) {
    step.SourceBound? || step.ScanBegun? || step.DiffQueued? || step.ScanFinished? || step.BatchDiscarded?
    || step.TaskMoved? || step.ScenesQueued?
  }

  /** The database after such a transaction; no ledger is needed to tell. */
  ghost function Rested(st: Store, step: Step): Store { Runs.Do(World(st, START.ledger), step).store }

  // ---- _deliver_pending ----

  ghost function Prepare(d: Driver, plan: Plan): Driver {
    var step := BulkPrepared(d.source, plan.snapshot, plan.artifact, plan.taken);
    if !Allowed(d.local, step) || FindSnapshot(d.local.bulks, d.source, plan.snapshot).Some? then d
    else
      match QueueBulk(d.local, d.source, plan.snapshot, plan.artifact, IdSeq(Chosen(d.local.outbox, d.source, plan.taken)))
      case Err(_) => d.At(Flushing)
      case Ok((store, row)) => d.Wrote(store, step, Creating(row.id))
  }

  ghost function NextBegin(d: Driver, batchOnly: bool, plan: Option<Plan>): Driver {
    if !d.pc.Idle? then d
    else
      match ActiveBulk(d.local.bulks, d.source)
      case Some(row) =>
        if row.importId.None?
        then if batchOnly then d.Close(row.id, Cancelled, None) else d.At(Creating(row.id))
        else if batchOnly then d.At(Escaping(row.id))
        else d.At(Checking(row.id, false))
      case None =>
        if PendingOf(d.local.outbox, d.source) == [] then d
        else if batchOnly || plan.None? then d.At(Flushing)
        else Prepare(d, plan.value)
  }

  // ---- Reading and saving a status ----

  /** The driver is about to read the import's status; a poll only of one that is not over. */
  predicate Reads(pc: Pc) {
    pc.Escaping? || pc.Checking? || pc.Reconciling? || (pc.Polling? && !pc.status.Terminal() && pc.status != RetryDue)
  }

  /** Two of the reads keep the saved progress when the service reports none. */
  function Progress(pc: Pc, reported: nat, saved: nat): nat {
    if reported == 0 && (pc.Escaping? || pc.Checking?) then saved else reported
  }

  function AfterReading(pc: Pc, status: ImportStatus, processed: nat): Pc
    requires Reads(pc)
  {
    match pc
    case Escaping(bulk) => EscapeRead(bulk, status, processed)
    case Checking(bulk, plan) => CheckRead(bulk, status, processed, plan)
    case Reconciling(bulk) => ReconcileRead(bulk, status, processed)
    case Polling(bulk, _) => PollRead(bulk, status, processed)
  }

  ghost function NextRead(d: Driver, net: Net): Driver {
    if !Reads(d.pc) then d
    else
      match net
      case Lost(_) => d.At(Idle)
      case Denied => d.Fail(d.pc.bulk, if d.pc.Escaping? then Cancelled else FailedPermanent)
      case Replied =>
        match d.Fetched(d.pc.bulk)
        case Refused(_) => d.Fail(d.pc.bulk, if d.pc.Escaping? then Cancelled else FailedPermanent)
        case Granted(row) =>
          d.At(AfterReading(d.pc, row.status, Progress(d.pc, row.processed, d.Bulk(d.pc.bulk).value.processed)))
  }

  /** Where the driver goes once a status is saved. */
  function AfterStatus(pc: Pc): Pc
    requires pc.EscapeRead? || pc.CheckRead? || pc.ReconcileRead? || pc.CompleteRead? || pc.PollRead?
  {
    match pc
    case EscapeRead(bulk, status, _) =>
      if status == AwaitingUpload then Abandoning(bulk)
      else if status.InFlight() then Idle
      else Checking(bulk, false)
    case CheckRead(bulk, status, _, plan) =>
      if status == AwaitingUpload then (if plan then Uploading(bulk) else Refreshing(bulk)) else Polling(bulk, status)
    case ReconcileRead(bulk, status, _) =>
      // without an upload plan there is nothing to send
      if status == AwaitingUpload then Closing(bulk, status) else Polling(bulk, status)
    case CompleteRead(bulk, status, _) => Polling(bulk, status)
    case PollRead(bulk, status, _) => Polling(bulk, status)
  }

  ghost function NextSave(d: Driver): Driver {
    if d.pc.EscapeRead? || d.pc.CheckRead? || d.pc.ReconcileRead? || d.pc.CompleteRead? || d.pc.PollRead? then
      if UpdateStatus(d.local, d.pc.bulk, d.pc.status, d.pc.processed).Err?
      then if d.pc.EscapeRead? then d.At(Idle) else d.Fail(d.pc.bulk, FailedPermanent)
      else d.Saved(UpdateStatus(d.local, d.pc.bulk, d.pc.status, d.pc.processed),
                   StatusRead(d.pc.bulk, d.pc.status, d.pc.processed), AfterStatus(d.pc))
    else
      match d.pc
      case Abandoning(bulk) => d.Close(bulk, Cancelled, Some(AwaitingUpload))
      case Binding(bulk, importId, status, plan) =>
        if BindImport(d.local, bulk, importId, status).Err? then d.Fail(bulk, FailedPermanent)
        else d.Saved(BindImport(d.local, bulk, importId, status), ImportBound(bulk, importId, status), Checking(bulk, plan))
      case Closing(bulk, status) => d.Close(bulk, FailedPermanent, Some(status))
      case _ => d
  }

  // ---- Creating, uploading, completing ----

  ghost predicate CapturedPending(st: Store, row: Bulk) {
    forall id :: id in row.captured ==> exists b :: b in PendingOf(st.outbox, row.source) && b.id == id
  }

  ghost function NextCreate(d: Driver, net: Net, now: Time): Driver {
    if !d.pc.Creating? || d.Bulk(d.pc.bulk).None? then d
    else
      var row := d.Bulk(d.pc.bulk).value;
      var after := d.Seen(CreateCalled(RequestFor(d.me, row), now));
      if !CapturedPending(d.local, row) then d.Fail(row.id, FailedPermanent)
      else
        match net
        case Denied => d.Fail(row.id, FailedPermanent)
        case Lost(effect) => if effect then after.At(Idle) else d.At(Idle)
        case Replied =>
          match Create(d.cloud.server, RequestFor(d.me, row), now, d.cloud.ttl).1
          case Refused(_) => after.Fail(row.id, FailedPermanent)
          case Granted((created, _)) =>
            after.At(Binding(row.id, created.id, created.status, created.status == AwaitingUpload))
  }

  ghost function NextRefresh(d: Driver, net: Net, now: Time): Driver {
    if !d.pc.Refreshing? || d.Bulk(d.pc.bulk).None? || d.Bulk(d.pc.bulk).value.importId.None? then d
    else
      var importId := d.Bulk(d.pc.bulk).value.importId.value;
      var after := d.Seen(RefreshCalled(d.me, d.source, importId, now));
      match net
      case Denied => d.Fail(d.pc.bulk, FailedPermanent)
      case Lost(effect) => if effect then after.At(Idle) else d.At(Idle)
      case Replied =>
        match Refresh(d.cloud.server, d.me, d.source, importId, now, d.cloud.ttl).1
        case Granted(_) => after.At(Uploading(d.pc.bulk))
        case Refused(failure) =>
          if failure == NotAwaitingUpload then after.At(Reconciling(d.pc.bulk)) else after.Fail(d.pc.bulk, FailedPermanent)
  }

  ghost function NextPut(d: Driver, net: Net, stored: StoredObject): Driver {
    if !d.pc.Uploading? || d.Bulk(d.pc.bulk).None? || d.Bulk(d.pc.bulk).value.importId.None? then d
    else
      var after := d.Seen(Uploaded(d.Bulk(d.pc.bulk).value.importId.value, stored));
      match net
      case Denied => d.Fail(d.pc.bulk, FailedPermanent)
      case Lost(effect) => if effect then after.At(Idle) else d.At(Idle)
      case Replied => after.At(Starting(d.pc.bulk))
  }

  ghost function NextComplete(d: Driver, net: Net): Driver {
    if !d.pc.Starting? || d.Bulk(d.pc.bulk).None? || d.Bulk(d.pc.bulk).value.importId.None? then d
    else
      var importId := d.Bulk(d.pc.bulk).value.importId.value;
      match net
      case Denied => d.Fail(d.pc.bulk, FailedPermanent)
      case Lost(_) => d.At(Idle)
      case Replied =>
        match BeginComplete(d.cloud.server, d.me, d.source, importId)
        case Refused(_) => d.Fail(d.pc.bulk, FailedPermanent)
        case Granted(Already(row)) => d.At(CompleteRead(d.pc.bulk, row.status, row.processed))
        case Granted(Expecting(_)) => d.Seen(CompleteBegun(MY_CALL, d.me, d.source, importId)).At(Completing(d.pc.bulk))
  }

  /** The service looks at the object: unreachable storage is transient, a missing or different object is not. */
  ghost function NextLook(d: Driver, reachable: bool): Driver {
    if !d.pc.Completing? || MY_CALL !in d.cloud.calls || !d.cloud.calls[MY_CALL].Looking? then d
    else
      var after := d.Seen(ObjectChecked(MY_CALL, reachable));
      if MY_CALL in after.cloud.calls then after
      else if !reachable then after.At(Idle)
      else after.Fail(d.pc.bulk, FailedPermanent)
  }

  ghost function NextCommit(d: Driver, net: Net, now: Time): Driver {
    if !d.pc.Completing? || MY_CALL !in d.cloud.calls || !d.cloud.calls[MY_CALL].Holding? then d
    else
      var open := d.cloud.calls[MY_CALL];
      var after := d.Seen(CompleteCommitted(MY_CALL, now)).Seen(DispatchTried(MY_CALL)).Seen(CallLost(MY_CALL));
      match CommitComplete(d.cloud.server, open.user, open.source, open.id, open.stored, now).1
      case Refused(_) => after.Fail(d.pc.bulk, FailedPermanent)
      case Granted((row, _)) =>
        if net == Replied then after.At(CompleteRead(d.pc.bulk, row.status, row.processed)) else after.At(Idle)
  }

  // ---- Watching and applying ----

  ghost function NextConclude(d: Driver, clean: bool): Driver {
    if !d.pc.Polling? || !d.pc.status.Terminal() then d
    else if d.pc.status == Succeeded && clean then d.At(Fetching(d.pc.bulk))
    else d.At(Closing(d.pc.bulk, d.pc.status))
  }

  ghost function NextDownload(d: Driver, net: Net, saved: bool, sha256: string, fileMatches: bool): Driver {
    if !d.pc.Fetching? || d.Bulk(d.pc.bulk).None? then d
    else if saved && d.Bulk(d.pc.bulk).value.resultSha.Some? then d.At(Applying(d.pc.bulk))
    else
      match net
      case Lost(_) => d.At(Idle)
      case Denied => d.Fail(d.pc.bulk, FailedPermanent)
      case Replied =>
        if RecordResult(d.local, d.pc.bulk, sha256, fileMatches).Err? then d.Fail(d.pc.bulk, FailedPermanent)
        else d.Saved(RecordResult(d.local, d.pc.bulk, sha256, fileMatches),
                     ResultSaved(d.pc.bulk, sha256, fileMatches), Applying(d.pc.bulk))
  }

  ghost function NextPage(d: Driver, rows: seq<Row>): Driver {
    if !d.pc.Applying? || !Allowed(d.local, PageApplied(d.pc.bulk, rows)) then d
    else if ApplyRows(d.local, d.pc.bulk, rows).Err? then d.Fail(d.pc.bulk, FailedPermanent)
    else d.Saved(ApplyRows(d.local, d.pc.bulk, rows), PageApplied(d.pc.bulk, rows), d.pc)
  }

  ghost function NextFinish(d: Driver): Driver {
    if !d.pc.Applying? then d
    else if CompleteBulk(d.local, d.pc.bulk).Err? then d.Fail(d.pc.bulk, FailedPermanent)
    else d.Saved(CompleteBulk(d.local, d.pc.bulk), BulkCompleted(d.pc.bulk), Idle)
  }

  // ---- _flush_pending ----

  ghost function NextSplit(d: Driver): Driver {
    if !d.pc.Flushing? then d
    else
      match Split(d.local, d.source, MANIFEST_BATCH_SIZE)
      case Err(_) => d.At(Idle)
      case Ok((store, _, _)) => d.Wrote(store, OversizedSplit(d.source, MANIFEST_BATCH_SIZE), Listing)
  }

  ghost function NextList(d: Driver): Driver {
    if d.pc.Listing? then d.At(Sending(IdSeq(PendingOf(d.local.outbox, d.source)))) else d
  }

  /** Each answer is saved before the next batch is sent. */
  ghost function NextSubmit(d: Driver, net: Net, response: Response): Driver {
    if !d.pc.Sending? then d
    else if d.pc.batches == [] || FindBatch(d.local.outbox, d.pc.batches[0]).None? then d.At(Idle)
    else
      var batch, rest := FindBatch(d.local.outbox, d.pc.batches[0]).value, Sending(d.pc.batches[1..]);
      match net
      case Lost(_) => d.At(Idle)
      case Denied => d.Wrote(QuarantineBatch(d.local, batch), BatchRefused(batch.id), rest)
      case Replied =>
        d.Wrote(Acknowledge(d.local, batch, response), BatchAcknowledged(batch.id, response),
                if exists r :: r in response.results && r.uploadRequired then Idle else rest)
  }

  // ---- All actions ----

  /** The service, the network and the driver's calls. */
  ghost function NextCall(d: Driver, action: Action): Driver
    requires action.Calls()
  {
    match action
    case Crash => d.Seen(CallLost(MY_CALL)).At(Idle)
    case Elsewhere(event) => if Foreign(d, event) then d.Seen(event) else d
    case CallCreate(net, now) => NextCreate(d, net, now)
    case CallRefresh(net, now) => NextRefresh(d, net, now)
    case PutFile(net, stored) => NextPut(d, net, stored)
    case CallComplete(net) => NextComplete(d, net)
    case LookAtObject(reachable) => NextLook(d, reachable)
    case CommitCall(net, now) => NextCommit(d, net, now)
    case HangUp => if d.pc.Completing? then d.Seen(CallLost(MY_CALL)).At(Idle) else d
  }

  /** Choosing a transport and watching an import. */
  ghost function NextWatch(d: Driver, action: Action): Driver
    requires action.Watches()
  {
    match action
    case Begin(batchOnly, plan) => NextBegin(d, batchOnly, plan)
    case Read(net) => NextRead(d, net)
    case Save => NextSave(d)
    case Pause => if d.pc.Polling? && !d.pc.status.Terminal() then d.At(Idle) else d
    case Conclude(clean) => NextConclude(d, clean)
  }

  /** Applying a result. */
  ghost function NextApply(d: Driver, action: Action): Driver
    requires action.Applies()
  {
    match action
    case Download(net, saved, sha256, fileMatches) => NextDownload(d, net, saved, sha256, fileMatches)
    case ApplyNext(rows) => NextPage(d, rows)
    case Finish => NextFinish(d)
    case Break => if d.pc.Fetching? || d.pc.Applying? then d.Fail(d.pc.bulk, FailedPermanent) else d
  }

  /** Sending batches, and what happens between deliveries. */
  ghost function NextBatch(d: Driver, action: Action): Driver
    requires action.Batches()
  {
    match action
    case AtRest(step) => if d.pc.Idle? && Resting(step) then d.Wrote(Rested(d.local, step), step, Idle) else d
    case SplitNow => NextSplit(d)
    case List => NextList(d)
    case Submit(net, response) => NextSubmit(d, net, response)
  }

  ghost function Next(d: Driver, action: Action): Driver {
    if action.Calls() then NextCall(d, action)
    else if action.Watches() then NextWatch(d, action)
    else if action.Applies() then NextApply(d, action)
    else NextBatch(d, action)
  }

  /** The driver after any sequence of actions. The source stays bound all along, and no
      batch is suspended: a run never removes the binding and makes it again. */
  ghost function Drive(me: UserId, source: SourceId, ttl: nat, actions: seq<Action>): Driver {
    if actions == [] then Driver(me, source, BLANK, [], Fresh(ttl), Idle)
    else Next(Drive(me, source, ttl, actions[..|actions| - 1]), actions[|actions| - 1])
  }

  /** A status read shows the service's row or fails transiently. */
  ghost predicate Honest(d: Driver, action: Action) {
    action.Read? && Reads(d.pc) ==> action.net != Denied && (action.net == Replied ==> d.Fetched(d.pc.bulk).Granted?)
  }

  ghost predicate HonestRun(me: UserId, source: SourceId, ttl: nat, actions: seq<Action>) {
    forall i :: 0 <= i < |actions| ==> Honest(Drive(me, source, ttl, actions[..i]), actions[i])
  }
}
