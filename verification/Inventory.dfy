/** What accepted entries leave behind: the known occurrences and the two
    description tables. Candidates are kept in the order they were last written,
    so "ORDER BY UpdatedAtUtc DESC LIMIT 1" is the last one of a job. */
module Inventory {
  import opened Prelude
  import opened Text
  import opened Tables

  type Key = (SourceId, ItemId)

  datatype Inventory = Inventory(known: map<Key, Occurrence>, candidates: seq<Candidate>, tasks: map<JobId, Task>)

  const EMPTY := Inventory(map[], [], map[])

  // ---- DELETE FROM DescriptionCandidate WHERE ... ----

  datatype Selector = ItemOf(source: SourceId, itemId: ItemId)
    | ItemExceptJob(source: SourceId, itemId: ItemId, jobId: JobId)
    | RowOf(jobId: JobId, occurrenceId: OccurrenceId)
    | OfJob(jobId: JobId)
    | OfSource(source: SourceId)

  predicate Selects(where: Selector, c: Candidate) {
    match where
    case ItemOf(source, itemId) => c.source == source && c.itemId == itemId
    case ItemExceptJob(source, itemId, jobId) => c.source == source && c.itemId == itemId && c.jobId != jobId
    case RowOf(jobId, occurrenceId) => c.jobId == jobId && c.occurrenceId == occurrenceId
    case OfJob(jobId) => c.jobId == jobId
    case OfSource(source) => c.source == source
  }

  function Delete(candidates: seq<Candidate>, where: Selector): (kept: seq<Candidate>)
    ensures forall c :: c in kept <==> c in candidates && !Selects(where, c)
  {
    if candidates == [] then []
    else
      var last := candidates[|candidates| - 1];
      var front := Delete(candidates[..|candidates| - 1], where);
      if Selects(where, last) then front else front + [last]
  }

  function JobsOf(candidates: seq<Candidate>, where: Selector): set<JobId> {
    set c | c in candidates && Selects(where, c) :: c.jobId
  }

  // ---- Choosing the candidate a task stands for ----

  function Latest(candidates: seq<Candidate>, job: JobId): (r: Option<Candidate>)
    ensures r.None? <==> forall c :: c in candidates ==> c.jobId != job
    ensures r.Some? ==> r.value in candidates && r.value.jobId == job
  {
    if candidates == [] then None
    else if candidates[|candidates| - 1].jobId == job then Some(candidates[|candidates| - 1])
    else Latest(candidates[..|candidates| - 1], job)
  }

  /** _reselect_description_candidate for one job. */
  function Reselect(candidates: seq<Candidate>, tasks: map<JobId, Task>, job: JobId): map<JobId, Task> {
    match Latest(candidates, job)
    case None => tasks - {job}
    case Some(c) => if job in tasks then tasks[job := tasks[job].(subject := c)] else tasks
  }

  /** The same for a set of jobs; the order does not matter (ReselectEach). */
  function ReselectAll(candidates: seq<Candidate>, tasks: map<JobId, Task>, jobs: set<JobId>): map<JobId, Task> {
    map job | job in tasks && (job in jobs ==> Latest(candidates, job).Some?) ::
      if job in jobs then tasks[job].(subject := Latest(candidates, job).value) else tasks[job]
  }

  lemma ReselectEach(candidates: seq<Candidate>, tasks: map<JobId, Task>, done: set<JobId>, job: JobId)
    ensures Reselect(candidates, ReselectAll(candidates, tasks, done), job)
         == ReselectAll(candidates, tasks, done + {job})
  {
  }

  // ---- Accepted entries ----

  /** The row that an accepted entry stages, its fields trimmed. */
  function Described(source: SourceId, entry: Entry, result: EntryResult): Candidate {
    Candidate(Strip(result.jobId), Strip(result.occurrenceId), Strip(result.mediaAssetId), source, Strip(entry.itemId),
              Strip(entry.localLocator), Lower(Strip(entry.contentSha256)), Strip(entry.fileName))
  }

  predicate Complete(c: Candidate) {
    && c.jobId != "" && c.occurrenceId != "" && c.mediaAssetId != "" && c.itemId != ""
    && c.localPath != "" && c.contentSha256 != "" && c.fileName != ""
  }

  /** Only photos with a job and a complete identity are staged for description. */
  predicate Describable(entry: Entry, result: EntryResult) {
    entry.mediaType == "Photo" && Complete(Described("", entry, result))
  }

  function Stage(inv: Inventory, added: Candidate): Inventory {
    var where := ItemExceptJob(added.source, added.itemId, added.jobId);
    var replaced := JobsOf(inv.candidates, where);
    var survivors := Delete(inv.candidates, where);
    var tasks := ReselectAll(survivors, inv.tasks, replaced);
    inv.(
      candidates := Delete(survivors, RowOf(added.jobId, added.occurrenceId)) + [added],
      tasks := if added.jobId in tasks then tasks else tasks[added.jobId := Task(added, TaskPending, 0)])
  }

  /** _queue_description_in_transaction */
  function QueueDescription(inv: Inventory, source: SourceId, entry: Entry, result: EntryResult): Inventory {
    if Describable(entry, result) then Stage(inv, Described(source, entry, result)) else inv
  }

  function RecordUpsert(inv: Inventory, source: SourceId, entry: Entry, result: EntryResult): Inventory {
    QueueDescription(
      inv.(known := inv.known[(source, entry.itemId) := Occurrence(entry.revision, entry.RelativePath())]),
      source, entry, result)
  }

  function RecordDeletion(inv: Inventory, source: SourceId, item: ItemId): Inventory {
    var affected := JobsOf(inv.candidates, ItemOf(source, item));
    var survivors := Delete(inv.candidates, ItemOf(source, item));
    Inventory(inv.known - {(source, item)}, survivors, ReselectAll(survivors, inv.tasks, affected))
  }

  /** The effect of one accepted entry, whichever transport delivered it. */
  function Record(inv: Inventory, source: SourceId, entry: Entry, result: EntryResult): Inventory {
    match entry.operation
    case Upsert => RecordUpsert(inv, source, entry, result)
    case Deleted => RecordDeletion(inv, source, entry.itemId)
    case OtherOperation => inv
  }

  /** The inventory part of removing a source. */
  function ForgetSource(inv: Inventory, source: SourceId): Inventory {
    var affected := JobsOf(inv.candidates, OfSource(source));
    var survivors := Delete(inv.candidates, OfSource(source));
    var tasks := ReselectAll(survivors, inv.tasks, affected);
    Inventory(
      map key | key in inv.known && key.0 != source :: inv.known[key],
      survivors,
      map job | job in tasks && (tasks[job].subject.source == source ==> Latest(survivors, job).Some?) :: tasks[job])
  }

  // ---- The other writers of the description tables ----

  datatype SceneTask = SceneTask(belongs: bool, entry: Entry, result: EntryResult)

  datatype TaskEvent =
    | MarkSent(job: JobId)
    | ConfirmComplete(job: JobId)
    | FailFromServer(job: JobId)
    | MarkSkipped(job: JobId)
    | Defer(job: JobId)
    | Quarantine(job: JobId)
    | DeferAllForQuota(attempted: JobId, due: set<JobId>)
    | Retry(job: JobId, allowSent: bool)
    | RetryAllDeferred

  function SetTask(tasks: map<JobId, Task>, job: JobId, skipSent: bool, state: TaskState, attempt: nat): map<JobId, Task> {
    if job in tasks && !(skipSent && tasks[job].state == TaskSent)
    then tasks[job := tasks[job].(state := state, attempts := tasks[job].attempts + attempt)]
    else tasks
  }

  /** One of the methods that move a description task along. */
  function HandleTask(inv: Inventory, event: TaskEvent): Result<Inventory> {
    match event
    case MarkSent(job) => Ok(inv.(tasks := SetTask(inv.tasks, job, true, TaskSent, 1)))
    case ConfirmComplete(job) => Ok(inv.(candidates := Delete(inv.candidates, OfJob(job))))
    case FailFromServer(job) => Ok(inv.(tasks := SetTask(inv.tasks, job, false, TaskFailed, 0)))
    case MarkSkipped(job) =>
      Ok(inv.(tasks := SetTask(inv.tasks, job, false, TaskSkipped, 0),
              candidates := Delete(inv.candidates, OfJob(job))))
    case Defer(job) => Ok(inv.(tasks := SetTask(inv.tasks, job, true, TaskPending, 1)))
    case Quarantine(job) => Ok(inv.(tasks := SetTask(inv.tasks, job, true, TaskFailed, 1)))
    case DeferAllForQuota(attempted, due) =>
      Ok(inv.(tasks := map job | job in inv.tasks ::
        if job in due && inv.tasks[job].state in {TaskPending, TaskDeferred}
        then inv.tasks[job].(state := TaskDeferred,
               attempts := inv.tasks[job].attempts + if job == attempted then 1 else 0)
        else inv.tasks[job]))
    case Retry(job, allowSent) =>
      if job !in inv.tasks then Err(NotFound)
      else if inv.tasks[job].state == TaskSent && !allowSent
      then Err(AlreadySent)
      else Ok(inv.(tasks := SetTask(inv.tasks, job, false, TaskPending, 0)))
    case RetryAllDeferred =>
      Ok(inv.(tasks := map job | job in inv.tasks ::
        if inv.tasks[job].state == TaskDeferred then inv.tasks[job].(state := TaskPending) else inv.tasks[job]))
  }

  /** The row as a prepared task names it, its fields not trimmed. */
  function DeclaredBy(source: SourceId, task: SceneTask): Candidate {
    Candidate(task.result.jobId, task.result.occurrenceId, task.result.mediaAssetId, source, task.entry.itemId,
              task.entry.localLocator, Lower(task.entry.contentSha256), task.entry.fileName)
  }

  predicate SameIdentity(c: Candidate, previous: Candidate) {
    c == previous.(source := c.source, jobId := c.jobId, contentSha256 := Lower(previous.contentSha256))
  }

  /** One task of queue_scene_description_tasks; the count says whether it was queued anew. */
  function QueuePrepared(inv: Inventory, source: SourceId, task: SceneTask): (Inventory, nat) {
    var job := task.result.jobId;
    var queued := QueueDescription(inv, source, task.entry.(mediaType := "Photo"), task.result);
    if job !in inv.tasks then (queued, 1)
    else
      var existing := inv.tasks[job];
      var identity := DeclaredBy(source, task);
      var reset := existing.state != TaskSent
        && (!SameIdentity(identity, existing.subject)
            || existing.state in {TaskDeferred, TaskFailed, TaskSkipped});
      if job !in queued.tasks then (queued, if reset then 1 else 0)
      else
        (queued.(tasks := queued.tasks[job :=
           queued.tasks[job].(subject := identity,
             state := if reset then TaskPending else queued.tasks[job].state)]),
         if reset then 1 else 0)
  }

  function QueueScenes(inv: Inventory, source: SourceId, tasks: seq<SceneTask>): Result<(Inventory, nat)> {
    if tasks == [] then Ok((inv, 0))
    else
      match QueueScenes(inv, source, tasks[..|tasks| - 1])
      case Err(error) => Err(error)
      case Ok((before, count)) =>
        var task := tasks[|tasks| - 1];
        if !task.belongs then Result<(Inventory, nat)>.Err(ForeignTask)
        else
          var (after, more) := QueuePrepared(before, source, task);
          Ok((after, count + more))
  }

  // ---- Consistency of the description tables ----

  /** One job per item, one row per job and occurrence, and a task for every candidate. */
  ghost predicate Consistent(inv: Inventory) {
    && (forall c, d :: c in inv.candidates && d in inv.candidates && c.source == d.source && c.itemId == d.itemId
          ==> c.jobId == d.jobId)
    && (forall c, d :: c in inv.candidates && d in inv.candidates && c.jobId == d.jobId && c.occurrenceId == d.occurrenceId
          ==> c == d)
    && (forall c :: c in inv.candidates ==> c.jobId in inv.tasks)
  }

  lemma StageConsistent(inv: Inventory, added: Candidate)
    requires Consistent(inv)
    ensures Consistent(Stage(inv, added))
  {
    var survivors := Delete(inv.candidates, ItemExceptJob(added.source, added.itemId, added.jobId));
    var after := Stage(inv, added);
    forall c | c in after.candidates ensures c.jobId in after.tasks {
      if c != added {
        assert c in survivors;
      }
    }
  }

  lemma QueueDescriptionConsistent(inv: Inventory, source: SourceId, entry: Entry, result: EntryResult)
    requires Consistent(inv)
    ensures Consistent(QueueDescription(inv, source, entry, result))
  {
    if Describable(entry, result) {
      StageConsistent(inv, Described(source, entry, result));
    }
  }

  lemma UpsertConsistent(inv: Inventory, source: SourceId, entry: Entry, result: EntryResult)
    requires Consistent(inv)
    ensures Consistent(RecordUpsert(inv, source, entry, result))
  {
    QueueDescriptionConsistent(
      inv.(known := inv.known[(source, entry.itemId) := Occurrence(entry.revision, entry.RelativePath())]),
      source, entry, result);
  }

  lemma RecordConsistent(inv: Inventory, source: SourceId, entry: Entry, result: EntryResult)
    requires Consistent(inv)
    ensures Consistent(Record(inv, source, entry, result))
  {
    if entry.operation == Upsert {
      UpsertConsistent(inv, source, entry, result);
    } else if entry.operation == Deleted {
      var survivors := Delete(inv.candidates, ItemOf(source, entry.itemId));
      forall c | c in survivors ensures c.jobId in RecordDeletion(inv, source, entry.itemId).tasks {
      }
    }
  }

  lemma ForgetSourceConsistent(inv: Inventory, source: SourceId)
    requires Consistent(inv)
    ensures Consistent(ForgetSource(inv, source))
    ensures forall key :: key in ForgetSource(inv, source).known ==> key.0 != source
    ensures forall c :: c in ForgetSource(inv, source).candidates ==> c.source != source
  {
    var survivors := Delete(inv.candidates, OfSource(source));
    forall c | c in survivors ensures c.jobId in ForgetSource(inv, source).tasks {
    }
  }

  lemma HandleTaskConsistent(inv: Inventory, event: TaskEvent)
    requires Consistent(inv)
    ensures HandleTask(inv, event).Ok? ==> Consistent(HandleTask(inv, event).value)
  {
  }

  lemma {:induction false} QueueScenesConsistent(inv: Inventory, source: SourceId, tasks: seq<SceneTask>)
    requires Consistent(inv)
    ensures QueueScenes(inv, source, tasks).Ok? ==> Consistent(QueueScenes(inv, source, tasks).value.0)
  {
    if tasks != [] && QueueScenes(inv, source, tasks).Ok? {
      QueueScenesConsistent(inv, source, tasks[..|tasks| - 1]);
      var before := QueueScenes(inv, source, tasks[..|tasks| - 1]).value.0;
      var task := tasks[|tasks| - 1];
      QueueDescriptionConsistent(before, source, task.entry.(mediaType := "Photo"), task.result);
    }
  }

  /** After a deletion no candidate names the item, and a task of an affected job is
      gone or stands for the newest surviving candidate of that job. */
  lemma DeletionSettlesTasks(inv: Inventory, source: SourceId, item: ItemId)
    ensures var after, affected := RecordDeletion(inv, source, item), JobsOf(inv.candidates, ItemOf(source, item));
      && (forall c :: c in after.candidates <==> c in inv.candidates && !(c.source == source && c.itemId == item))
      && (forall job :: job in affected ==>
            (job in after.tasks <==> job in inv.tasks && exists c :: c in after.candidates && c.jobId == job))
      && (forall job :: job in affected && job in after.tasks ==>
            Latest(after.candidates, job) == Some(after.tasks[job].subject))
      && (forall job :: job !in affected ==>
            (job in after.tasks <==> job in inv.tasks) && (job in inv.tasks ==> after.tasks[job] == inv.tasks[job]))
      && after.known == inv.known - {(source, item)}
  {
  }

  /** The job has no task, or its task stands for a candidate row that is there. */
  predicate Stands(inv: Inventory, job: JobId) {
    job in inv.tasks ==> Rowed(inv.candidates, job, inv.tasks[job].subject.occurrenceId)
  }

  predicate Rowed(candidates: seq<Candidate>, job: JobId, occurrence: OccurrenceId) {
    exists c :: c in candidates && c.jobId == job && c.occurrenceId == occurrence
  }

  /** Dropping rows and choosing again keeps the job's task on a row; if a row of the job was
      dropped, it does so whatever was before. */
  lemma DropStands(inv: Inventory, where: Selector, job: JobId)
    requires job in JobsOf(inv.candidates, where) || Stands(inv, job)
    ensures var left := Delete(inv.candidates, where);
      Stands(inv.(candidates := left, tasks := ReselectAll(left, inv.tasks, JobsOf(inv.candidates, where))), job)
  {
    var left := Delete(inv.candidates, where);
    if job in JobsOf(inv.candidates, where) {
      if job in inv.tasks && Latest(left, job).Some? {
        assert Latest(left, job).value in left;
      }
    } else if job in inv.tasks {
      var c :| c in inv.candidates && c.jobId == job && c.occurrenceId == inv.tasks[job].subject.occurrenceId;
      assert c in left;
    }
  }

  lemma WriteStands(candidates: seq<Candidate>, added: Candidate, job: JobId, occurrence: OccurrenceId)
    requires Rowed(candidates, job, occurrence)
    ensures Rowed(Delete(candidates, RowOf(added.jobId, added.occurrenceId)) + [added], job, occurrence)
  {
    var c :| c in candidates && c.jobId == job && c.occurrenceId == occurrence;
    var after := Delete(candidates, RowOf(added.jobId, added.occurrenceId)) + [added];
    assert added in after;
    assert c in after || (added.jobId == job && added.occurrenceId == occurrence);
  }

  lemma StageStands(inv: Inventory, added: Candidate, job: JobId)
    requires Stands(inv, job)
    ensures Stands(Stage(inv, added), job)
  {
    var where := ItemExceptJob(added.source, added.itemId, added.jobId);
    var left := Delete(inv.candidates, where);
    var tasks := ReselectAll(left, inv.tasks, JobsOf(inv.candidates, where));
    DropStands(inv, where, job);
    if job in tasks {
      WriteStands(left, added, job, tasks[job].subject.occurrenceId);
    }
  }

  lemma QueueStands(inv: Inventory, source: SourceId, entry: Entry, result: EntryResult, job: JobId)
    requires Stands(inv, job)
    ensures Stands(QueueDescription(inv, source, entry, result), job)
  {
    if Describable(entry, result) {
      StageStands(inv, Described(source, entry, result), job);
    }
  }

  lemma RecordStands(inv: Inventory, source: SourceId, entry: Entry, result: EntryResult, job: JobId)
    requires Stands(inv, job) || (entry.operation == Deleted && job in JobsOf(inv.candidates, ItemOf(source, entry.itemId)))
    ensures Stands(Record(inv, source, entry, result), job)
  {
    match entry.operation
    case Upsert =>
      QueueStands(inv.(known := inv.known[(source, entry.itemId) := Occurrence(entry.revision, entry.RelativePath())]),
                  source, entry, result, job);
    case Deleted => DropStands(inv, ItemOf(source, entry.itemId), job);
    case OtherOperation =>
  }

  /** An accepted photo is its item's only job from then on, and is the newest candidate. */
  lemma UpsertClaimsItem(inv: Inventory, source: SourceId, entry: Entry, result: EntryResult)
    requires Describable(entry, result)
    ensures var after, added := RecordUpsert(inv, source, entry, result), Described(source, entry, result);
      && Latest(after.candidates, added.jobId) == Some(added)
      && (forall c :: c in after.candidates && c.source == source && c.itemId == added.itemId ==> c.jobId == added.jobId)
      && (forall c :: c in after.candidates && c != added ==> c in inv.candidates)
      && (forall c :: c in inv.candidates
            && !Selects(ItemExceptJob(source, added.itemId, added.jobId), c)
            && !Selects(RowOf(added.jobId, added.occurrenceId), c)
            ==> c in after.candidates)
      && added.jobId in after.tasks
      && (added.jobId in inv.tasks ==> after.tasks[added.jobId] == inv.tasks[added.jobId])
      && (added.jobId !in inv.tasks ==> after.tasks[added.jobId] == Task(added, TaskPending, 0))
      && after.known == inv.known[(source, entry.itemId) := Occurrence(entry.revision, entry.RelativePath())]
  {
    var added := Described(source, entry, result);
    var after := RecordUpsert(inv, source, entry, result);
    assert added in after.candidates;
  }

  /** The deletion of an item finds the row that its upsert staged exactly if the identifier
      has no blanks around it: the row is stored under the trimmed one. */
  lemma DeletionFindsRow(inv: Inventory, source: SourceId, entry: Entry, result: EntryResult)
    requires Describable(entry, result)
    ensures var after := RecordDeletion(RecordUpsert(inv, source, entry, result), source, entry.itemId);
      Described(source, entry, result) !in after.candidates <==> Strip(entry.itemId) == entry.itemId
  {
    UpsertClaimsItem(inv, source, entry, result);
    var added := Described(source, entry, result);
    assert Latest(RecordUpsert(inv, source, entry, result).candidates, added.jobId) == Some(added);
  }
}
