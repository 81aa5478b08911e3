# Durable metadata delivery

The command-line client keeps every change of a photo library in a local database until the
service has answered for it. This project models that database and the loops around it, the
service's import control plane, the artifacts the two exchange, the scanner's thread pool and
the SQL splitter, and proves what they keep.

- **Local database.** `Tables`, `Inventory` and `Store` hold the rows and one function per
  transaction; an `Err` is a raised exception. `LocalDatabase` is the class with the loops,
  each method proved to be that function.
- **Runs.** `Runs` is every sequence of client transactions, with a ledger of what happened.
  `Conservation`, `Captures`, `Scans`, `Origins`, `Safety` and `ActiveBulks` prove the invariants,
  and `Guarantees` states what a user may rely on. `Splitting`, `Transport` and `SyncDiff` prove
  what single operations and whole deliveries do; `SyncEngine` holds the engine's loops.
- **Import service.** `ImportService` is the row-locking service, `ImportRuns` every
  interleaving of its calls with a worker.
- **Delivery.** `Delivery` is the driver that chooses between the two transports, as a machine
  that may crash between any two writes and lose any reply, next to the service's other users.
  `Evolution`, `Watching` and the other `Delivery` modules prove that the transports never race,
  and `RaceRun` follows a run in which they do, after a status read that is refused for good.
- **Artifacts.** `Framing`, `ResultReader`, `ResultWriter`, `EntryChecks`, `CalendarEdges` and `ManifestFormat`.
- **Scanner** holds the two thread pools, `StableSort` and `ScanOrder` what the order in which
  they finish leaves open. **SqlScript** stands alone. `Prelude` and `Text` are used throughout.

How things are modelled:

- Generated identifiers are numbers from one counter. Tables that are read in the order of a
  timestamp are sequences in that order. An absent text is the empty string.
- SQLite gives atomic transactions; a crash is a run that stops, or the driver starting over.
- Drivers hold the source lock (`cli/imagetracker_cli/app.py:680`). The `status` command writes
  a status without it (`cli/imagetracker_cli/app.py:797`) and is not a step.
- `update_bulk_manifest_status` overwrites a half-applied state, and `apply_bulk_result_rows`
  then refuses the rest. The model has this; `DriverIsCareful` with `NoEntryIsLost` says that
  falling back to batches loses nothing.
- A status read of the driver shows the service's row or fails transiently. `DeniedReadRaces`
  and `DenialRaces` show what happens otherwise. A call that the client gave up on takes no
  effect later.
- The two result readers repeat the checks of a header and of a row word for word; the model has
  each check once, and proves that the two loops around them agree.
- gzip is the identity on bytes for results, and a lawful pair of functions with a digest for
  manifests. JSON is a lawful codec. `datetime.fromisoformat` is a function from text to a clock
  and an offset; the arithmetic on them and its bounds are modelled.

Where the code does not do what a reader may expect:

- A date-time outside the years 1 to 9999 raises an `OverflowError` in the worker's parser,
  which no handler turns into a rejected row; the import is retried and fails again
  (`EntryChecks`, `CalendarEdges`, `ManifestFormat`).
- The writer of results does not limit the header line that the reader limits (`ResultWriter`).
  The worker's own header (`services/bulk/processor.py:291`) holds an identifier and a fixed set
  of counts and stays far below 256 KiB, so only another caller of `write_result_gzip` meets this.
- A scan that gives one item two revisions is never in sync (`SyncDiff`). Where a file name may
  hold a backslash, the files `a\b.jpg` and `a/b.jpg` make such a scan
  (`cli/imagetracker_cli/media.py:99-101`).
- Paths that differ in case only are listed in the order in which the pool finished them; the
  listing is independent of that order if and only if there are none (`ScanOrder`).
- Only an `OSError` is caught per file (`cli/imagetracker_cli/media.py:684-727`). Any other
  exception, such as the `OverflowError` of a file time outside the years 1 to 9999, aborts the
  scan, and the cache keeps the rows of earlier rounds (`Scanner`).
- A candidate for a description is stored under the trimmed item identifier, and a deletion looks
  for the exact one (`Inventory.DeletionFindsRow`). The scanner's identifiers have no blanks.
- After a status read that is refused for good, batches are sent next to a running import
  (`DeliveryGuarantees`, `RaceRun`).

## Model

| member | source | states |
|---|---|---|
| Guarantees.NoEntryIsLost | cli/imagetracker_cli/sync.py:192-280 | In every run of the client, every entry ever queued is carried by the outbox exactly as often as it was queued, split replacements included; and every batch that carries it is pending, suspended, or can show what became of the entry: accepted, listed in a failure record, or covered by an applied result row. |
| Guarantees.SupersededIsAccepted | cli/imagetracker_cli/state.py:2186-2254 | If no applied row of an import is a rejection, every entry of a batch that the import superseded was accepted by a row applied to it. |
| Guarantees.RowsStayAligned | cli/imagetracker_cli/sync.py:962-976 | At any time of any run the manifest rebuilt from the saved batch identifiers equals, in order, the entries the artifact was written from; and the result rows applied so far are rows 1, 2, ... of it up to the cursor, each on its own entry. |
| Guarantees.CompleteScansAreSettled | cli/imagetracker_cli/state.py:1035-1048 | In every run a scan marked Complete has no pending and no failed batch. |
| Guarantees.KeysAreUnique | cli/imagetracker_cli/state.py:695-719 | In every run batch identifiers, and the idempotency keys made of scan and sequence, are unique. |
| Guarantees.DescriptionsStayConsistent | cli/imagetracker_cli/state.py:1057-1154 | In every run an item has candidates for at most one job, a job and an occurrence have one candidate, and every candidate has a task. |
| Guarantees.RemovalHasAReason | cli/imagetracker_cli/sync.py:205-219 | In every run a known occurrence disappears only when its source is removed, or by an accepted deletion in a batch marked reliable; and that entry is from the diff of an earlier step of the run whose own scan read everything and did not see the item, with the source not removed since. |
| Safety.RunSound | cli/imagetracker_cli/state.py:747-872 | The invariant behind these: conservation, accounts, scan status, captures, unique keys, description tables, and every batch carrying entries of its own diff with every deletion missed by the scan of that diff, hold together after every run. |
| ActiveBulks.ActiveImportHoldsItsBatches | cli/imagetracker_cli/state.py:1785-1926 | Under the source lock a source has at most one import that is not over; its captured batches are distinct, pending and the source's own; and they hold as many entries as the import declared. |
| Conservation.QueueConserves | cli/imagetracker_cli/state.py:695-719 | Queueing payloads adds their entries to what is carried and to what counts as queued alike. |
| Captures.CompletedCovers | cli/imagetracker_cli/state.py:2186-2254 | Once every row is applied, each entry of a captured batch is covered by a row that accepts it or is a rejection passed over. |
| Origins.DiffOriginates | cli/imagetracker_cli/sync.py:205-219 | A diff holds a deletion only if its scan read everything and did not see the item. |
| Origins.OriginIsQueued | cli/imagetracker_cli/sync.py:235-266 | In every run the scan and diff behind a batch are those of an earlier step that queued a diff, and the source was not removed since. |
| Origins.SplitOriginates | cli/imagetracker_cli/state.py:813-815 | After a split every batch still carries entries of its own diff and deletes only what the scan of that diff missed: old rows keep their diff, and each replacement has that of the one batch it is cut from. |
| LocalDatabase.LocalState.Rollback | cli/imagetracker_cli/state.py:155-168 | A transaction that raises leaves every table as it was. |
| LocalDatabase.LocalState.ReselectCandidate | cli/imagetracker_cli/state.py:1249-1287 | A job's task takes the fields of its newest candidate, or goes when there is none. |
| LocalDatabase.LocalState.DropCandidates | cli/imagetracker_cli/state.py:995-1018 | Deleting candidates in a loop over their jobs, whatever the order and however often a job occurs, leaves each affected job on its newest surviving candidate. |
| LocalDatabase.LocalState.QueueDescriptionInTransaction | cli/imagetracker_cli/state.py:1057-1154 | An accepted photo replaces the item's candidates of other jobs, becomes the newest candidate of its own job, and gets a task if the job has none. |
| LocalDatabase.LocalState.RecordUpsertRow | cli/imagetracker_cli/state.py:1088-1154 | An accepted upsert sets the known revision and path and stages the description. |
| LocalDatabase.LocalState.RecordDeletionRow | cli/imagetracker_cli/state.py:990-1018 | An accepted deletion removes the occurrence and the item's candidates and reselects the affected jobs. |
| LocalDatabase.LocalState.RemoveBinding | cli/imagetracker_cli/state.py:418-473 | Removing a source deletes its rows from every table, keeps the tasks that other sources' candidates still need, and counts the lifecycle up; an unknown source changes nothing. |
| LocalDatabase.LocalState.QueueBatches | cli/imagetracker_cli/state.py:695-719 | The payloads become pending batches numbered in order; a repeated scan and sequence rolls all of them back. |
| LocalDatabase.LocalState.CollectOversized | cli/imagetracker_cli/state.py:758-785 | The loop over the pending rows finds exactly the source's oversized pending batches, in order. |
| LocalDatabase.CutOversized | cli/imagetracker_cli/state.py:813-839 | The nested loops cut every oversized payload into pieces of at most the limit and number them through. |
| LocalDatabase.LocalState.SplitOversizedPendingBatches | cli/imagetracker_cli/state.py:747-872 | The loops add the replacements under a new scan, discard exactly the oversized batches and mark their scans; a limit outside 1 to 500 changes nothing. |
| LocalDatabase.ResultsByItem | cli/imagetracker_cli/state.py:896-900 | The dictionary of results holds, for every named item, the last result that names it. |
| LocalDatabase.JudgeEntries | cli/imagetracker_cli/state.py:901-957 | Every entry of a batch is either accepted or in the failure list, in order, and the count mismatch adds one more failure. |
| LocalDatabase.LocalState.AcknowledgeBatch | cli/imagetracker_cli/state.py:874-1054 | Accepted entries are recorded, the batch becomes Sent or Failed with its record, and the scan is settled when nothing of it is pending; without a response every entry is answered as accepted. |
| LocalDatabase.DefaultAccepts | cli/imagetracker_cli/state.py:880-894 | Acknowledging without a response accepts every entry of a batch in which no item is both updated and deleted. |
| LocalDatabase.LocalState.QuarantineRequestError | cli/imagetracker_cli/state.py:1640-1701 | A refused batch becomes Failed with every entry listed, and the scan needs attention when nothing of it is pending. |
| LocalDatabase.AddFailures | cli/imagetracker_cli/state.py:1710-1727 | The last recorded failure of an item that has a revision blocks that revision. |
| LocalDatabase.LocalState.QuarantinedRevisions | cli/imagetracker_cli/state.py:1710-1727 | The blocked revisions are those in the failure records of the source's failed batches. |
| LocalDatabase.LocalState.DiscardOutbox | cli/imagetracker_cli/state.py:1759-1783 | Only a failed batch is discarded, with its record kept; otherwise nothing changes. |
| LocalDatabase.LocalState.SuspendPendingBatches | cli/imagetracker_cli/state.py:2356-2401 | The pending batches of the source are discarded with a note, and their identifiers returned. |
| LocalDatabase.LocalState.RestoreSuspendedBatches | cli/imagetracker_cli/state.py:2403-2431 | Updating identifier by identifier brings back exactly the discarded batches among them. |
| LocalDatabase.LocalState.CheckMembers | cli/imagetracker_cli/state.py:1853-1897 | The loop over the captured rows raises exactly when one is not pending, not a hashed upsert, or the counts differ. |
| LocalDatabase.LocalState.QueueBulkManifest | cli/imagetracker_cli/state.py:1785-1926 | The same snapshot with the same content returns its row; new content, another active import or an unusable capture raises and changes nothing; otherwise one prepared row is added. |
| LocalDatabase.LocalState.SetBulkManifestServerImport | cli/imagetracker_cli/state.py:1985-2007 | A row is bound to one import of the service and never to another. |
| LocalDatabase.LocalState.UpdateBulkManifestStatus | cli/imagetracker_cli/state.py:2009-2054 | The service's status overwrites the local state; a count above the manifest's changes nothing. |
| LocalDatabase.LocalState.RecordBulkManifestResult | cli/imagetracker_cli/state.py:2056-2095 | A result is recorded only for a bound import that the service reports as finished. |
| LocalDatabase.LocalState.ApplyEach | cli/imagetracker_cli/state.py:2108-2164 | The loop stops at the first row that is out of sequence or unsafe, and otherwise records every row that is not rejected. |
| LocalDatabase.LocalState.ApplyBulkResultRows | cli/imagetracker_cli/state.py:2097-2184 | One page and its cursor are saved together or not at all. |
| LocalDatabase.LocalState.CompleteBulkManifest | cli/imagetracker_cli/state.py:2186-2254 | A fully applied, successful import supersedes exactly the captured batches that are still pending, and the scans nothing of which is pending. |
| LocalDatabase.LocalState.FailBulkManifest | cli/imagetracker_cli/state.py:2256-2286 | An import is closed with one of the three failure states, or nothing changes. |
| LocalDatabase.LocalState.QueueSceneDescriptionTasks | cli/imagetracker_cli/state.py:1156-1246 | Prepared tasks are queued one by one and counted; one that belongs to another source rolls all of them back. |
| Inventory.ReselectEach | cli/imagetracker_cli/state.py:1249-1287 | Reselecting one more job after some others is reselecting them all at once, so the order of the loop does not matter. |
| Inventory.DeletionSettlesTasks | cli/imagetracker_cli/state.py:995-1018 | After a deletion no candidate names the item, and each affected job is gone or stands for its newest surviving candidate. |
| Transport.DeletionSettlesJob | cli/imagetracker_cli/state.py:980-1018 | At the end of a batch with an accepted deletion, each job that lost a candidate to it is gone or its task stands for a candidate row that is there. |
| Transport.DeletedItemHasNoCandidate | cli/imagetracker_cli/state.py:980-1018 | After an accepted deletion no candidate names the item at the end of the batch, unless a later accepted upsert of the batch does. |
| Inventory.UpsertClaimsItem | cli/imagetracker_cli/state.py:1057-1154 | After an accepted photo its job is the only one of its item, the trimmed row is the newest candidate of the job, the job has a task, and other rows are untouched. |
| Inventory.DeletionFindsRow | cli/imagetracker_cli/state.py:990-1018 | A deletion of the same item removes that row exactly if the identifier has no blanks around it. |
| Transport.LastEntryDecides | cli/imagetracker_cli/state.py:980-1018 | What is known of an item after a batch is decided by the last accepted entry that touches it. |
| Transport.EveryEntryAnswered | cli/imagetracker_cli/state.py:901-957 | Every entry of a batch is accepted or listed among the failures. |
| Transport.ListedWereRefused | cli/imagetracker_cli/state.py:901-957 | Every entry listed among the failures was not accepted. |
| Transport.PagingRefinesOneShot | cli/imagetracker_cli/state.py:2097-2184 | Any division of the rows into pages, with a restart between any two, ends in the same database as one page; and when one page would be refused, so is some page, with the same error. |
| Transport.PagesSaveAPrefix | cli/imagetracker_cli/state.py:2097-2184 | Whatever the pages, what is saved is a prefix of the rows applied at once, and the cursor has moved by its length. |
| Transport.PageKeepsKnown | cli/imagetracker_cli/state.py:2097-2184 | Applying result rows never removes a known occurrence. |
| Transport.TransportsAgree | cli/imagetracker_cli/sync.py:901-1006 | For accepted upserts with unique items, bulk delivery in any pages and per-batch acknowledgement leave the same known occurrences, candidates and tasks. |
| Splitting.SplitConserves | cli/imagetracker_cli/state.py:747-872 | The replacements hold the oversized entries in order, in pieces of one to the limit, under one new scan with sequences 0, 1, 2, ... |
| Splitting.SplitEffect | cli/imagetracker_cli/state.py:842-871 | A split adds rows and discards the oversized ones; every other row, every import and everything known stays as it was. |
| Splitting.SplitSettles | cli/imagetracker_cli/sync.py:1088-1104 | After a split no pending batch of the source is oversized, and a second split does nothing. |
| Splitting.SplitKeepsIds | cli/imagetracker_cli/state.py:813-839 | A split keeps identifiers, and scans with sequences, unique. |
| Splitting.ReplacementOrigin | cli/imagetracker_cli/state.py:813-815 | A replacement repeats the header of one oversized batch and holds entries of that batch only. |
| SyncDiff.ChangedEntries | cli/imagetracker_cli/sync.py:194-203 | The loop splits the scan into unchanged, held back and changed entries, and the counts add up. |
| SyncDiff.DeletedEntries | cli/imagetracker_cli/sync.py:205-219 | The loop lists exactly the known items that were not seen and are not held back. |
| SyncDiff.BuildPayloads | cli/imagetracker_cli/sync.py:1747-1765 | The loop cuts the entries into payloads of at most a hundred. |
| SyncDiff.PayloadsCarryEntries | cli/imagetracker_cli/sync.py:1747-1765 | The payloads carry the entries in order, none empty, none too large. |
| SyncDiff.KnownAfterRun | cli/imagetracker_cli/state.py:980-1018 | What is known of an item after a fully accepted run: a scanned revision, nothing, or what was known before. |
| SyncDiff.SyncReachesFixpoint | cli/imagetracker_cli/sync.py:192-233 | After a fully accepted run, diffing the same scan again yields nothing exactly when the scan gave every item one revision, those held back aside. |
| SyncDiff.TwoRevisionsNeverSettle | cli/imagetracker_cli/sync.py:192-233 | A scan that gives one item two revisions finds a change again after every accepted run. |
| SyncEngine.QueueChanges | cli/imagetracker_cli/sync.py:192-266 | From the scan to the outbox: an empty diff changes nothing, otherwise the diff is queued under a new scan. |
| SyncEngine.BoundedBulkBatches | cli/imagetracker_cli/sync.py:513-531 | The chosen batches are a non-empty prefix of the pending ones, within the row limit unless it is one batch, and no longer prefix would be. |
| SyncEngine.FlushPending | cli/imagetracker_cli/sync.py:1088-1172 | A pass to the end leaves nothing pending for the source; one that stops leaves every batch from the stopping point on pending and unchanged. |
| SyncEngine.ApplyBulkResult | cli/imagetracker_cli/sync.py:958-991 | Applying in pages of five hundred and completing succeeds exactly when, and ends as, one page and completing; when it fails, a whole number of rows is saved. |
| ImportService.ManifestImportService.CreateImport | services/api/manifest_import_service.py:105-222 | A repeated key returns its import or is refused for another request; an active import of the source refuses a new one unless it has expired; otherwise one row awaiting its upload is added. |
| ImportService.ManifestImportService.RefreshUpload | services/api/manifest_import_service.py:224-248 | The deadline moves on only for a row awaiting its upload. |
| ImportService.ManifestImportService.BeginCompletion | services/api/manifest_import_service.py:250-286 | The first transaction of complete changes nothing, and says whether the object has to be looked at. |
| ImportService.ManifestImportService.CommitCompletion | services/api/manifest_import_service.py:287-325 | The second transaction decides on the row as it then is: it queues it, finds it queued already, or refuses. |
| ImportRuns.OneActiveImport | services/api/manifest_import_service.py:145-172 | Under any interleaving of calls a source has at most one active import. |
| ImportRuns.SameKeySameImport | services/api/manifest_import_service.py:118-136 | The same key is only ever granted for the same request and always means the same import. |
| ImportRuns.QueuedOnce | services/api/manifest_import_service.py:250-325 | Each import is queued at most once, only for a matching object that was seen; complete dispatches it at most once, after queueing it. |
| ImportRuns.ExpiredNeverQueued | services/api/manifest_import_service.py:155-166 | An expired import is not queued by any later call. |
| ImportRuns.EndedStays | services/api/manifest_import_service.py:287-325 | An import that reached a terminal status keeps it whatever happens later. |
| DeliveryGuarantees.TransportsNeverRace | cli/imagetracker_cli/sync.py:395-510 | In every run with crashes, lost replies and honest status reads, batches are sent only while every import of the source is over for the client and none is queued, running or due for a retry on the service. |
| DeliveryGuarantees.SentBatchesAreFree | cli/imagetracker_cli/sync.py:1088-1172 | The batch about to be sent is pending, and no import that captured it is in flight. |
| DeliveryGuarantees.ClosedMeansQuiet | cli/imagetracker_cli/sync.py:664-887 | Over for the client means not in flight on the service; and an import whose identifier was never saved was never queued. |
| DeliveryGuarantees.QuietForever | cli/imagetracker_cli/sync.py:548-623 | Once an import is over for the client, the service's import is not in flight at any later time of the run. |
| DeliveryGuarantees.DriverIsCareful | cli/imagetracker_cli/sync.py:395-510 | Every run of the driver makes a run of local transactions that keeps to the source lock, so nothing is lost on any of its paths, falling back from a half-applied result included. |
| DeliveryGuarantees.DeniedReadRaces | cli/imagetracker_cli/sync.py:857-879 | After a status read that is refused for good the driver sends batches although nothing about the import is known: they stay apart exactly if it was not in flight. |
| DeliveryGuarantees.DenialRaces | cli/imagetracker_cli/sync.py:857-879 | Three actions after such a read a batch captured by the running import is on the list of those to send. |
| RaceRun.RaceIsReached | cli/imagetracker_cli/sync.py:857-879 | Such a run exists from the empty database on, for every photo: bind, scan, queue, create, upload, complete, a refused read, split, list; then the batch is about to be sent while the import that captured it is queued. |
| Framing.WriteLines | cli/imagetracker_cli/bulk.py:222-243 | The writer's loop yields the lines in order or the first error, with the total checked at every line. |
| Framing.WrittenLinesRead | cli/imagetracker_cli/bulk.py:277-312 | A reader that each written line leads one state on is led through all written lines. |
| ResultReader.ParseResult | cli/imagetracker_cli/bulk.py:358-550 | The in-memory reader accepts exactly what folding the lines accepts. |
| ResultReader.ReadResultHeader | cli/imagetracker_cli/bulk.py:713-793 | The verifying pass checks every line and yields the header and the row count. |
| ResultReader.IterateResult | cli/imagetracker_cli/bulk.py:796-846 | The streaming pass yields the rows after a cursor and the error it ends with, if any. |
| ResultReader.VerifyAgrees | cli/imagetracker_cli/bulk.py:713-793 | Verifying accepts exactly what the in-memory reader accepts, as far as it fits in memory, and below the limit both refuse for the same reason. |
| ResultReader.StreamAgrees | cli/imagetracker_cli/bulk.py:796-846 | Streaming after row k yields the in-memory list without its first k rows. |
| ResultReader.ReadersAgree | cli/imagetracker_cli/bulk.py:713-846 | Verify and stream works exactly where the in-memory reader does and yields the same rows from any cursor. |
| ResultWriter.WriteResultFile | services/bulk/manifest.py:721-790 | The writer yields header and rows in order, or the first error. |
| ResultWriter.ResultRoundTrip | services/bulk/manifest.py:721-790 | A written result is read back row by row exactly if its header line, which the writer does not limit, is within the reader's limit. |
| EntryChecks.JudgeLeaves | services/bulk/manifest.py:378-557 | The checks of an entry end in an uncaught overflow exactly when its columns pass and one of its date-times leaves the calendar, in the order of the checks. |
| EntryChecks.ItemsLeave | services/bulk/manifest.py:269-312 | The provenance loop overflows exactly at the first item it reaches whose observation lies outside the calendar. |
| CalendarEdges.EarlyLeaves | services/bulk/manifest.py:254-266 | 0001-01-01T00:00:00+14:00 as capturedAtUtc of an otherwise valid entry overflows. |
| CalendarEdges.LateLeaves | services/bulk/manifest.py:438-442 | So do the capture times that the scanner stores of a video tagged 9999-12-31T23:59:15-00:00:30. |
| CalendarEdges.EarlyEntry | services/bulk/manifest.py:254-266 | A complete entry with that time is written by the client and leaves the calendar. |
| CalendarEdges.LateEntry | services/bulk/manifest.py:438-442 | So does a complete entry of that video. |
| CalendarEdges.Aborts | services/bulk/manifest.py:566-710 | Every manifest that the client writes with such an entry ends the worker's parser in the uncaught overflow. |
| ManifestFormat.WriteManifest | cli/imagetracker_cli/bulk.py:164-265 | The client's writer yields the artifact with its digest and count, or the first error. |
| ManifestFormat.ParseManifest | services/bulk/manifest.py:566-710 | The worker's parser accepts exactly what folding the lines accepts, with digest, size and counts compared. |
| ManifestFormat.RowsAddUp | services/bulk/manifest.py:660-700 | In every accepted manifest accepted and rejected rows add up to the declared count, and rows are numbered 1, 2, ... |
| ManifestFormat.RowCarriesEntry | services/bulk/manifest.py:378-557 | A canonical row carries its entry's number and identity, and the other columns exactly if the entry passed the checks. |
| ManifestFormat.EntryJudged | cli/imagetracker_cli/bulk.py:139-161 | What the writer adds to an entry changes nothing about how it is judged. |
| ManifestFormat.WrittenManifestParses | services/bulk/manifest.py:566-710 | A manifest that the writer accepts is parsed exactly if no entry leaves the calendar; then with the same header and count, and row k from entry k; otherwise the parser ends in the uncaught overflow. |
| ManifestFormat.DefaultManifestParses | services/bulk/manifest.py:76-81 | The same with the limits both programs come with, and accepted and rejected rows add up to the entries. |
| Scanner.Pool.FillPending | cli/imagetracker_cli/media.py:622-637 | The window is filled in order, never beyond its bound, until it is full or no item is left. |
| Scanner.Pool.CompleteAll | cli/imagetracker_cli/media.py:640-673 | Every reported item is taken out of the window and counted once, in the reported order. |
| Scanner.ProcessUncached | cli/imagetracker_cli/media.py:597-682 | The scan is aborted exactly if some worker raises more than an OSError, and then the cache has the rows of some of the items. Otherwise, for every order of completion, each item is processed once, hashed and failed add up, the slots hold the entries, and the cache is that of the items one after the other. |
| Scanner.EntriesIndependent | cli/imagetracker_cli/media.py:640-668 | The slots and the counts are the same for every order of completion. |
| Scanner.CacheIndependent | cli/imagetracker_cli/media.py:655-682 | The cache is the same for every order of completion that a window of two or more admits exactly when items that share a key leave the same row. |
| Scanner.StatCandidates | cli/imagetracker_cli/media.py:496-562 | Every discovered path counts as seen, also one that cannot be read or is empty; the counts add up; one candidate for every readable file, in the order in which the window of stats finished. |
| Scanner.Scan | cli/imagetracker_cli/media.py:421-481 | Aborted exactly if a worker raises; otherwise the entries are those of the candidates in order, cached or hashed, whatever the order of completion. |
| StableSort.SortIsStable | cli/imagetracker_cli/media.py:430 | Sorting by a key orders by the key and keeps the order of arrival among equal keys. |
| StableSort.StableIsUnique | cli/imagetracker_cli/media.py:430 | Only one list is ordered by the key and keeps the order of arrival: the sort is determined by what it promises. |
| ScanOrder.ScanFiles | cli/imagetracker_cli/media.py:376-494 | From the paths to the entries and the cache: for some order that the window of stats admits, the stable sort of the candidates in that order, listed from cache or hashing. |
| ScanOrder.SortIndependent | cli/imagetracker_cli/media.py:421-434 | The sorted candidates are the same for all orders in which the stats can finish if and only if no two readable paths have the same casefolded path. |
| ScanOrder.ListingIndependent | cli/imagetracker_cli/media.py:421-494 | The entries are the same for all those orders if and only if no two listed paths have the same casefolded path. |
| ScanOrder.CaseVariantsSwap | cli/imagetracker_cli/media.py:430-434 | A.jpg and a.jpg, where both exist, are listed in either order. |
| ScanOrder.CachesAgree | cli/imagetracker_cli/media.py:655-682 | The same items in any two arrangements, processed in any two orders, leave the same cache if items that share a key leave the same row. |
| ScanOrder.ScansAgree | cli/imagetracker_cli/media.py:376-494 | Two scans of the same files over the same cache, walked and finished in any orders, leave the same cache if items of one key leave the same row, and list the same entries if no two listed paths have the same casefolded path. |
| SqlScript.SplitSqlStatements | ImageTracker.py:420-445 | The character loop returns the trimmed non-empty pieces between the semicolons outside quotes. |
| SqlScript.StatementsWellFormed | ImageTracker.py:420-445 | Every returned statement is trimmed and non-empty and holds no semicolon outside quotes. |
| SqlScript.SplitIsFixpoint | ImageTracker.py:420-445 | Splitting the joined statements again gives the same statements. |
| SqlScript.JoinRoundTrip | ImageTracker.py:420-445 | A list survives joining and splitting exactly when it is well formed. |

## Left out

- DeliveryGuarantees.TransportsNeverRace: says nothing across removing a source and binding it again, because a driver run keeps its source bound and suspends nothing; an import that still runs on the service while its local row is removed is not covered.
- `record_known_occurrences` and the one-file MySQL import; suspending and restoring batches is in the runs, but not in those that keep to the source lock.
- The single-statement methods that move one description task along (`cli/imagetracker_cli/state.py:1391-1619`): one function, `Inventory.HandleTask`, and its effect on the tables' consistency; retry times and error texts are not modelled.
- Error texts, phases, file paths and sizes of artifacts beyond one comparison, progress messages and the counters of the summary.
- The extra spellings that `int(text, 16)` accepts in a digest, and blanks around one, which the artifact writers never produce; lower case of letters other than A to Z.
- `get` and `result` of the import service, deletion of a source or an account on the service, and signed transfer plans.
- The worker's merge and leases: abstract steps from queued to a terminal status.
- How a text becomes a date-time, a number becomes a bounded decimal, and the checks of a location: functions of the model; unpaired surrogates in text, which the client's writer refuses.
- Walking directories, an exception in the stat pool, hashing, EXIF and ffprobe, fast adding without hashes, and network calls.
