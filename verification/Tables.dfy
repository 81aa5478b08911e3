/** The rows of the client's local database. Generated identifiers are numbers
    drawn from one counter, and every table that the code orders by a timestamp
    is a sequence kept in that order. */
module Tables {
  import opened Prelude

  type SourceId = string
  type ItemId = string
  type JobId = string
  type OccurrenceId = string
  type ScanId = nat
  type BatchId = nat
  type BulkId = nat
  type ImportId = nat

  // ---- Manifest payloads and the service's answers ----

  datatype Operation = Upsert | Deleted | OtherOperation

  /** One change of the library. An absent text field is the empty string. */
  datatype Entry = Entry(operation: Operation, itemId: ItemId, revision: string, fileName: string,
    localLocator: string, contentSha256: string, mediaType: string)
  {
    function RelativePath(): string {
      if localLocator != "" then localLocator else fileName
    }
  }

  datatype Payload = Payload(kind: string, permission: string, clientCursor: Option<string>,
    deletionReliable: bool, snapshot: ScanId, entries: seq<Entry>)

  datatype Outcome = CreatedOccurrence | UpdatedOccurrence | DuplicateLinked | Unchanged
    | DeletedOccurrence | IgnoredDeletion | Rejected | OtherOutcome

  datatype EntryResult = EntryResult(itemId: ItemId, outcome: Outcome, uploadRequired: bool,
    jobId: JobId, occurrenceId: OccurrenceId, mediaAssetId: string)

  datatype Response = Response(results: seq<EntryResult>, reportedRejected: nat)

  // ---- ManifestOutbox ----

  datatype Reason = MissingResult | UnexpectedUpload | WasRejected | NotApplied(outcome: Outcome)
    | RequestRejected | RejectedCountMismatch

  /** A row of a batch's failure record; the count mismatch names no entry. */
  datatype Failure = Failure(entry: Option<Entry>, reason: Reason)

  datatype BatchState = Pending | Sent | Failed | Discarded

  datatype Note = NoNote | EntryFailures(failures: seq<Failure>) | RequestFailure(failures: seq<Failure>)
    | SplitNote(replacementScan: ScanId) | BulkNote(bulk: BulkId) | SuspendNote
  {
    function Recorded(): seq<Failure> {
      match this
      case EntryFailures(failures) => failures
      case RequestFailure(failures) => failures
      case _ => []
    }
  }

  datatype Batch = Batch(id: BatchId, source: SourceId, scan: ScanId, sequence: nat,
    payload: Payload, state: BatchState, note: Note)
  {
    function Entries(): seq<Entry> { payload.entries }
  }

  // ---- ScanRun ----

  datatype ScanStatus = Scanning | Queued | Complete | NeedsAttention | CompleteWithDiscarded
    | SplitForApiTimeout | SupersededByBulk | SupersededByOneFile

  datatype Scan = Scan(source: SourceId, status: ScanStatus, completeRead: bool)

  // ---- BulkManifestOutbox ----

  /** The states of an import on the server. */
  datatype ImportStatus = AwaitingUpload | ImportQueued | Running | RetryDue
    | Succeeded | CompletedWithErrors | FailedPermanent | Cancelled | Expired
  {
    predicate InFlight() { ImportQueued? || Running? || RetryDue? }
    predicate Terminal() { Succeeded? || CompletedWithErrors? || FailedPermanent? || Cancelled? || Expired? }
  }

  /** The State column: four local states, or a copy of the server's status. */
  datatype BulkState = Prepared | ResultReady | ApplyingResult | Applied | Remote(status: ImportStatus)
  {
    predicate Terminal() {
      this == Applied || (Remote? && (status.FailedPermanent? || status.Cancelled? || status.Expired?))
    }
  }

  datatype Bulk = Bulk(id: BulkId, source: SourceId, snapshot: nat, sha256: string, bytes: nat,
    entryCount: nat, state: BulkState, importId: Option<ImportId>, serverStatus: Option<ImportStatus>,
    processed: nat, resultSha: Option<string>, appliedThrough: nat, captured: seq<BatchId>)

  // ---- KnownOccurrence, DescriptionCandidate, DescriptionOutbox ----

  datatype Occurrence = Occurrence(revision: string, relativePath: string)

  datatype Candidate = Candidate(jobId: JobId, occurrenceId: OccurrenceId, mediaAssetId: string,
    source: SourceId, itemId: ItemId, localPath: string, contentSha256: string, fileName: string)

  datatype TaskState = TaskPending | TaskDeferred | TaskFailed | TaskSent | TaskSkipped

  /** A DescriptionOutbox row: the candidate it stands for, and its progress. */
  datatype Task = Task(subject: Candidate, state: TaskState, attempts: nat)
}
