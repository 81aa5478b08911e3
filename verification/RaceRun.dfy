/** A run of the driver, from an empty database on, in which one status read is refused for
    good: it ends with a batch on the list of those to send while the import that captured
    the batch is queued on the service. */
module RaceRun {
  import opened Prelude
  import opened Tables
  import opened Store
  import opened SyncDiff
  import opened Runs
  import opened ImportService
  import opened ImportRuns
  import opened Delivery
  import opened DeliveryGuarantees

  // ---- What the run writes ----

  /** One new photo with a hash. */
  predicate Photo(e: Entry) {
    e.operation == Upsert && e.itemId != "" && e.revision != "" && IsSha256(e.contentSha256)
  }

  function Scan1(e: Entry): ScanOutcome { ScanOutcome([e], true, {e.itemId}) }

  function OneBatch(source: SourceId, e: Entry): Batch {
    Batch(1, source, 0, 0, PayloadOf(0, true, [e]), Pending, NoNote)
  }

  function Bound(source: SourceId): Store { BLANK.(bindings := map[source := "root"]) }

  function Begun(source: SourceId): Store {
    Bound(source).(scans := map[0 := Scan(source, Scanning, false)], supply := 1)
  }

  function Diffed(source: SourceId, e: Entry): Store {
    Begun(source).(outbox := [OneBatch(source, e)], supply := 2)
  }

  function Waiting(source: SourceId, e: Entry): Store {
    Diffed(source, e).(scans := map[0 := Scan(source, ScanStatus.Queued, true)])
  }

  function Row(source: SourceId, e: Entry): Bulk {
    Bulk(2, source, 0, e.contentSha256, 1, 1, Prepared, None, None, 0, None, 0, [1])
  }

  function Read(source: SourceId, e: Entry, status: ImportStatus): Bulk {
    Row(source, e).(importId := Some(0), serverStatus := Some(status), state := Remote(status))
  }

  function Holding1(source: SourceId, e: Entry, row: Bulk): Store {
    Waiting(source, e).(bulks := [row], supply := 3)
  }

  function At1(source: SourceId, e: Entry, status: ImportStatus): Store { Holding1(source, e, Read(source, e, status)) }

  function File(e: Entry): Artifact { Artifact(e.contentSha256, 1, 1, true) }

  function Stored(e: Entry): StoredObject { StoredObject(1, e.contentSha256, true, 0) }

  function Open(me: UserId, source: SourceId, ttl: nat): Cloud {
    Fresh(ttl).(server := Server({me}, map[(me, source) := true], [], 0))
  }

  function Imported(me: UserId, source: SourceId, e: Entry, ttl: nat): Import {
    NewImport(RequestFor(me, Row(source, e)), 0, ttl)
  }

  function Queued1(me: UserId, source: SourceId, e: Entry, ttl: nat): Import {
    Imported(me, source, e, ttl).(status := ImportQueued, queuedAt := Some(0), version := Some(0))
  }

  function Created(me: UserId, source: SourceId, e: Entry, ttl: nat): Cloud {
    var request := RequestFor(me, Row(source, e));
    Open(me, source, ttl).(
      server := Server({me}, map[(me, source) := true], [Imported(me, source, e, ttl)], 1),
      log := Log({Answer(me, request.key, request.requestHash, 0)}, [], [], {}))
  }

  function Uploaded1(me: UserId, source: SourceId, e: Entry, ttl: nat): Cloud {
    Created(me, source, e, ttl).(objects := map[0 := Stored(e)])
  }

  /** Where the driver is in the run. */
  ghost predicate Stands(d: Driver, me: UserId, source: SourceId, local: Store, cloud: Cloud, pc: Pc) {
    d.me == me && d.source == source && d.local == local && d.cloud == cloud && d.pc == pc
  }

  /** Some run of the driver ends here. */
  ghost predicate Reached(d: Driver, ttl: nat) {
    exists actions :: Drive(d.me, d.source, ttl, actions) == d
  }

  /** The step an action takes, by name. */
  ghost predicate Leads(d: Driver, action: Action, later: Driver) {
    later ==
      match action
      case Begin(batchOnly, plan) => NextBegin(d, batchOnly, plan)
      case Read(net) => NextRead(d, net)
      case Save => NextSave(d)
      case CallCreate(net, now) => NextCreate(d, net, now)
      case PutFile(net, stored) => NextPut(d, net, stored)
      case CallComplete(net) => NextComplete(d, net)
      case LookAtObject(reachable) => NextLook(d, reachable)
      case CommitCall(net, now) => NextCommit(d, net, now)
      case SplitNow => NextSplit(d)
      case List => NextList(d)
      case AtRest(_) => NextBatch(d, action)
      case Elsewhere(_) => NextCall(d, action)
      case _ => Next(d, action)
  }

  lemma LeadsNext(d: Driver, action: Action, later: Driver)
    requires Leads(d, action, later)
    ensures Next(d, action) == later
  {
  }

  lemma Extended(d: Driver, me: UserId, source: SourceId, ttl: nat, actions: seq<Action>, action: Action)
    requires Drive(me, source, ttl, actions) == d
    ensures Drive(me, source, ttl, actions + [action]) == Next(d, action)
  {
    DriveStep(me, source, ttl, actions, action);
  }

  lemma Goes(d: Driver, action: Action, later: Driver, ttl: nat)
    requires Reached(d, ttl) && later.me == d.me && later.source == d.source && Leads(d, action, later)
    ensures Reached(later, ttl)
  {
    LeadsNext(d, action, later);
    var actions :| Drive(d.me, d.source, ttl, actions) == d;
    Extended(d, d.me, d.source, ttl, actions, action);
  }

  // ---- Scanning and queueing ----

  lemma BindStep(d: Driver, me: UserId, source: SourceId, cloud: Cloud, ttl: nat) returns (later: Driver)
    requires Reached(d, ttl) && Stands(d, me, source, BLANK, cloud, Idle)
    ensures Reached(later, ttl) && Stands(later, me, source, Bound(source), cloud, Idle)
  {
    later := NextBatch(d, AtRest(SourceBound(source, "root")));
    Goes(d, AtRest(SourceBound(source, "root")), later, ttl);
  }

  lemma ScanStep(d: Driver, me: UserId, source: SourceId, cloud: Cloud, ttl: nat) returns (later: Driver)
    requires Reached(d, ttl) && Stands(d, me, source, Bound(source), cloud, Idle)
    ensures Reached(later, ttl) && Stands(later, me, source, Begun(source), cloud, Idle)
  {
    later := NextBatch(d, AtRest(ScanBegun(source)));
    Goes(d, AtRest(ScanBegun(source)), later, ttl);
  }

  lemma OneChange(source: SourceId, e: Entry)
    requires Photo(e)
    ensures Diff(Scan1(e), [], map[], map[], source) == [e]
    ensures ManifestPayloads(0, [e], true) == [PayloadOf(0, true, [e])]
    ensures QueueBatches(Begun(source), source, 0, [PayloadOf(0, true, [e])]) == Ok(Diffed(source, e))
  {
    assert [e][..0] == [] && [e][..1] == [e] && [e][1..] == [];
    assert Changed([e], map[], map[], source) == [e];
    assert ManifestPayloads(0, [], true) == [];
    assert NewBatches(source, 0, [PayloadOf(0, true, [e])], 1) == [OneBatch(source, e)];
    assert Begun(source).outbox + [OneBatch(source, e)] == [OneBatch(source, e)];
  }

  lemma DiffWrites(source: SourceId, e: Entry)
    requires Photo(e)
    ensures Rested(Begun(source), DiffQueued(0, Scan1(e), [])) == Diffed(source, e)
  {
    OneChange(source, e);
    var w := World(Begun(source), START.ledger);
    assert Allowed(w.store, DiffQueued(0, Scan1(e), []));
    assert Diff(Scan1(e), [], w.store.inv.known, Quarantined(w.store.outbox, source), source) == [e];
    assert QueueDiff(w, 0, Scan1(e), []).store == Diffed(source, e);
  }

  lemma DiffNext(d: Driver, source: SourceId, e: Entry)
    requires Photo(e) && d.local == Begun(source) && d.pc == Idle
    ensures NextBatch(d, AtRest(DiffQueued(0, Scan1(e), [])))
         == d.Wrote(Diffed(source, e), DiffQueued(0, Scan1(e), []), Idle)
  {
    DiffWrites(source, e);
  }

  lemma DiffStep(d: Driver, me: UserId, source: SourceId, e: Entry, cloud: Cloud, ttl: nat) returns (later: Driver)
    requires Reached(d, ttl) && Photo(e) && Stands(d, me, source, Begun(source), cloud, Idle)
    ensures Reached(later, ttl) && Stands(later, me, source, Diffed(source, e), cloud, Idle)
  {
    var step := DiffQueued(0, Scan1(e), []);
    DiffNext(d, source, e);
    later := d.Wrote(Diffed(source, e), step, Idle);
    Goes(d, AtRest(step), later, ttl);
  }

  lemma FinishStep(d: Driver, me: UserId, source: SourceId, e: Entry, cloud: Cloud, ttl: nat) returns (later: Driver)
    requires Reached(d, ttl) && Stands(d, me, source, Diffed(source, e), cloud, Idle)
    ensures Reached(later, ttl) && Stands(later, me, source, Waiting(source, e), cloud, Idle)
  {
    later := NextBatch(d, AtRest(ScanFinished(0, true)));
    Goes(d, AtRest(ScanFinished(0, true)), later, ttl);
  }

  // ---- The service admits the client ----

  lemma AccountStep(d: Driver, me: UserId, source: SourceId, local: Store, ttl: nat) returns (later: Driver)
    requires Reached(d, ttl) && Stands(d, me, source, local, Fresh(ttl), Idle)
    ensures Reached(later, ttl) && Stands(later, me, source, local,
                   Fresh(ttl).(server := Server({me}, map[], [], 0)), Idle)
  {
    later := NextCall(d, Elsewhere(AccountSet(me, true)));
    Goes(d, Elsewhere(AccountSet(me, true)), later, ttl);
  }

  lemma SourceStep(d: Driver, me: UserId, source: SourceId, local: Store, ttl: nat) returns (later: Driver)
    requires Reached(d, ttl) && Stands(d, me, source, local, Fresh(ttl).(server := Server({me}, map[], [], 0)), Idle)
    ensures Reached(later, ttl) && Stands(later, me, source, local, Open(me, source, ttl), Idle)
  {
    later := NextCall(d, Elsewhere(SourceSet(me, source, true)));
    Goes(d, Elsewhere(SourceSet(me, source, true)), later, ttl);
  }

  // ---- The bulk import, up to the queue ----

  lemma LonePending(b: Batch)
    requires b.state == Pending
    ensures PendingOf([b], b.source) == [b] && Chosen([b], b.source, 1) == [b]
  {
    assert [b][..0] == [] && [b][..1] == [b];
  }

  lemma LoneEntries(b: Batch)
    ensures EntriesOf([b]) == b.Entries() && IdSeq([b]) == [b.id]
  {
    assert [b][1..] == [] && b.Entries() + [] == b.Entries();
  }

  lemma LoneMember(b: Batch)
    ensures Members([b], b.source, [b.id]) == [b]
  {
    assert [b][..0] == [];
  }

  lemma OnePending(source: SourceId, e: Entry)
    ensures PendingOf(Waiting(source, e).outbox, source) == [OneBatch(source, e)]
    ensures Chosen(Waiting(source, e).outbox, source, 1) == [OneBatch(source, e)]
    ensures EntriesOf([OneBatch(source, e)]) == [e] && IdSeq([OneBatch(source, e)]) == [1]
    ensures Members([OneBatch(source, e)], source, [1]) == [OneBatch(source, e)]
  {
    LonePending(OneBatch(source, e));
    LoneEntries(OneBatch(source, e));
    LoneMember(OneBatch(source, e));
  }

  lemma OneMember(source: SourceId, e: Entry)
    requires Photo(e)
    ensures !(exists id :: id in [1] && id !in Ids([OneBatch(source, e)])) && Capturable([e])
  {
    assert Ids([OneBatch(source, e)]) == {1};
  }

  /** A new snapshot of a source without imports is queued. */
  lemma Queues(st: Store, source: SourceId, artifact: Artifact, ids: seq<BatchId>, members: seq<Batch>)
    requires IsSha256(artifact.sha256) && artifact.bytes > 0 && artifact.entryCount > 0 && artifact.fileMatches
    requires source in st.bindings && ActiveBulk(st.bulks, source).None? && FindSnapshot(st.bulks, source, 0).None?
    requires members == Members(PendingOf(st.outbox, source), source, ids) && !(exists id :: id in ids && id !in Ids(members))
    requires Capturable(EntriesOf(members)) && |EntriesOf(members)| == artifact.entryCount
    ensures var row := Bulk(st.supply, source, 0, artifact.sha256, artifact.bytes, artifact.entryCount,
                            Prepared, None, None, 0, None, 0, ids);
      QueueBulk(st, source, 0, artifact, ids) == Ok((st.(bulks := st.bulks + [row], supply := st.supply + 1), row))
  {
  }

  lemma OneQueued(source: SourceId, e: Entry, members: seq<Batch>)
    requires Photo(e) && members == Members(PendingOf(Waiting(source, e).outbox, source), source, [1])
    requires !(exists id :: id in [1] && id !in Ids(members)) && EntriesOf(members) == [e] && Capturable([e])
    ensures QueueBulk(Waiting(source, e), source, 0, File(e), [1])
         == Ok((Holding1(source, e, Row(source, e)), Row(source, e)))
  {
    Queues(Waiting(source, e), source, File(e), [1], members);
    assert Waiting(source, e).bulks + [Row(source, e)] == [Row(source, e)];
  }

  lemma PrepareAllowed(source: SourceId, e: Entry)
    ensures Allowed(Waiting(source, e), BulkPrepared(source, 0, File(e), 1))
    ensures PendingOf(Waiting(source, e).outbox, source) != []
    ensures IdSeq(Chosen(Waiting(source, e).outbox, source, 1)) == [1]
  {
    OnePending(source, e);
  }

  lemma PrepareQueues(source: SourceId, e: Entry)
    requires Photo(e)
    ensures QueueBulk(Waiting(source, e), source, 0, File(e), [1])
         == Ok((Holding1(source, e, Row(source, e)), Row(source, e)))
  {
    OnePending(source, e);
    OneMember(source, e);
    OneQueued(source, e, [OneBatch(source, e)]);
  }

  lemma PrepareNext(d: Driver, source: SourceId, e: Entry)
    requires Photo(e) && d.source == source && d.local == Waiting(source, e) && d.pc == Idle
    ensures NextBegin(d, false, Some(Plan(0, File(e), 1)))
         == d.Wrote(Holding1(source, e, Row(source, e)), BulkPrepared(source, 0, File(e), 1), Creating(2))
  {
    PrepareAllowed(source, e);
    PrepareQueues(source, e);
  }

  lemma PrepareStep(d: Driver, me: UserId, source: SourceId, e: Entry, cloud: Cloud, ttl: nat) returns (later: Driver)
    requires Reached(d, ttl) && Photo(e) && Stands(d, me, source, Waiting(source, e), cloud, Idle)
    ensures Reached(later, ttl) && Stands(later, me, source, Holding1(source, e, Row(source, e)), cloud, Creating(2))
  {
    PrepareNext(d, source, e);
    later := d.Wrote(Holding1(source, e, Row(source, e)), BulkPrepared(source, 0, File(e), 1), Creating(2));
    Goes(d, Begin(false, Some(Plan(0, File(e), 1))), later, ttl);
  }

  lemma CreateGranted(me: UserId, source: SourceId, e: Entry, ttl: nat)
    ensures Create(Open(me, source, ttl).server, RequestFor(me, Row(source, e)), 0, ttl)
         == (Created(me, source, e, ttl).server, Granted((Imported(me, source, e, ttl), false)))
  {
    assert [] + [Imported(me, source, e, ttl)] == [Imported(me, source, e, ttl)];
  }

  lemma CreateEvent(me: UserId, source: SourceId, e: Entry, ttl: nat)
    ensures Happen(Open(me, source, ttl), CreateCalled(RequestFor(me, Row(source, e)), 0))
         == Created(me, source, e, ttl)
  {
    CreateGranted(me, source, e, ttl);
  }

  lemma CreateCaptured(source: SourceId, e: Entry, row: Bulk)
    requires row.source == source && row.captured == [1]
    ensures CapturedPending(Holding1(source, e, row), row)
  {
    OnePending(source, e);
    assert OneBatch(source, e) in PendingOf(Holding1(source, e, row).outbox, source);
  }

  lemma CreateStep(d: Driver, me: UserId, source: SourceId, e: Entry, ttl: nat) returns (later: Driver)
    requires Reached(d, ttl) && Photo(e)
      && Stands(d, me, source, Holding1(source, e, Row(source, e)), Open(me, source, ttl), Creating(2))
    ensures Reached(later, ttl)
      && Stands(later, me, source, Holding1(source, e, Row(source, e)), Created(me, source, e, ttl),
                   Binding(2, 0, AwaitingUpload, true))
  {
    CreateCaptured(source, e, Row(source, e));
    CreateGranted(me, source, e, ttl);
    CreateEvent(me, source, e, ttl);
    later := NextCreate(d, Replied, 0);
    Goes(d, CallCreate(Replied, 0), later, ttl);
  }

  lemma SaveBinding(d: Driver, me: UserId, source: SourceId, e: Entry, cloud: Cloud, ttl: nat) returns (later: Driver)
    requires Reached(d, ttl)
      && Stands(d, me, source, Holding1(source, e, Row(source, e)), cloud, Binding(2, 0, AwaitingUpload, true))
    ensures Reached(later, ttl) && Stands(later, me, source, At1(source, e, AwaitingUpload), cloud, Checking(2, true))
  {
    later := NextSave(d);
    Goes(d, Save, later, ttl);
  }

  lemma CheckNext(d: Driver, me: UserId, source: SourceId, e: Entry, ttl: nat)
    requires d.me == me && d.source == source && d.local == At1(source, e, AwaitingUpload)
    requires d.cloud == Created(me, source, e, ttl) && d.pc == Checking(2, true)
    ensures NextRead(d, Replied) == d.(pc := CheckRead(2, AwaitingUpload, 0, true))
  {
  }

  lemma CheckStep(d: Driver, me: UserId, source: SourceId, e: Entry, ttl: nat) returns (later: Driver)
    requires Reached(d, ttl)
      && Stands(d, me, source, At1(source, e, AwaitingUpload), Created(me, source, e, ttl), Checking(2, true))
    ensures Reached(later, ttl) && Stands(later, me, source, At1(source, e, AwaitingUpload),
                   Created(me, source, e, ttl), CheckRead(2, AwaitingUpload, 0, true))
  {
    CheckNext(d, me, source, e, ttl);
    later := d.(pc := CheckRead(2, AwaitingUpload, 0, true));
    Goes(d, Action.Read(Replied), later, ttl);
  }

  lemma SaveCheck(d: Driver, me: UserId, source: SourceId, e: Entry, cloud: Cloud, ttl: nat) returns (later: Driver)
    requires Reached(d, ttl)
      && Stands(d, me, source, At1(source, e, AwaitingUpload), cloud, CheckRead(2, AwaitingUpload, 0, true))
    ensures Reached(later, ttl) && Stands(later, me, source, At1(source, e, AwaitingUpload), cloud, Uploading(2))
  {
    later := NextSave(d);
    Goes(d, Save, later, ttl);
  }

  lemma UploadNext(d: Driver, me: UserId, source: SourceId, e: Entry, ttl: nat)
    requires d.local == At1(source, e, AwaitingUpload) && d.cloud == Created(me, source, e, ttl)
    requires d.pc == Uploading(2)
    ensures NextPut(d, Replied, Stored(e)) == d.(cloud := Uploaded1(me, source, e, ttl), pc := Starting(2))
  {
  }

  lemma UploadStep(d: Driver, me: UserId, source: SourceId, e: Entry, ttl: nat) returns (later: Driver)
    requires Reached(d, ttl)
      && Stands(d, me, source, At1(source, e, AwaitingUpload), Created(me, source, e, ttl), Uploading(2))
    ensures Reached(later, ttl) && Stands(later, me, source, At1(source, e, AwaitingUpload),
                   Uploaded1(me, source, e, ttl), Starting(2))
  {
    UploadNext(d, me, source, e, ttl);
    later := d.(cloud := Uploaded1(me, source, e, ttl), pc := Starting(2));
    Goes(d, PutFile(Replied, Stored(e)), later, ttl);
  }

  function Looked1(me: UserId, source: SourceId, e: Entry, ttl: nat): Cloud {
    Uploaded1(me, source, e, ttl).(calls := map[MY_CALL := Looking(me, source, Imported(me, source, e, ttl))])
  }

  function Held1(me: UserId, source: SourceId, e: Entry, ttl: nat): Cloud {
    var before := Uploaded1(me, source, e, ttl);
    before.(calls := map[MY_CALL := Holding(me, source, 0, Stored(e))], log := before.log.(seen := {(0, Stored(e))}))
  }

  lemma CompleteNext(d: Driver, me: UserId, source: SourceId, e: Entry, ttl: nat)
    requires d.me == me && d.source == source && d.local == At1(source, e, AwaitingUpload)
    requires d.cloud == Uploaded1(me, source, e, ttl) && d.pc == Starting(2)
    ensures NextComplete(d, Replied) == d.(cloud := Looked1(me, source, e, ttl), pc := Completing(2))
  {
  }

  lemma CompleteStep(d: Driver, me: UserId, source: SourceId, e: Entry, ttl: nat) returns (later: Driver)
    requires Reached(d, ttl)
      && Stands(d, me, source, At1(source, e, AwaitingUpload), Uploaded1(me, source, e, ttl), Starting(2))
    ensures Reached(later, ttl) && Stands(later, me, source, At1(source, e, AwaitingUpload),
                   Looked1(me, source, e, ttl), Completing(2))
  {
    CompleteNext(d, me, source, e, ttl);
    later := d.(cloud := Looked1(me, source, e, ttl), pc := Completing(2));
    Goes(d, CallComplete(Replied), later, ttl);
  }

  lemma LookEvent(c: Cloud, me: UserId, source: SourceId, e: Entry, ttl: nat)
    requires c == Looked1(me, source, e, ttl)
    ensures Happen(c, ObjectChecked(MY_CALL, true)) == Held1(me, source, e, ttl)
  {
    assert {} + {(0, Stored(e))} == {(0, Stored(e))};
    assert c.calls[MY_CALL := Holding(me, source, 0, Stored(e))] == Held1(me, source, e, ttl).calls;
  }

  lemma LookStep(d: Driver, me: UserId, source: SourceId, e: Entry, ttl: nat) returns (later: Driver)
    requires Reached(d, ttl)
      && Stands(d, me, source, At1(source, e, AwaitingUpload), Looked1(me, source, e, ttl), Completing(2))
    ensures Reached(later, ttl) && Stands(later, me, source, At1(source, e, AwaitingUpload),
                   Held1(me, source, e, ttl), Completing(2))
  {
    later := NextLook(d, true);
    LookEvent(d.cloud, me, source, e, ttl);
    Goes(d, LookAtObject(true), later, ttl);
  }

  lemma Committed(me: UserId, source: SourceId, e: Entry, ttl: nat)
    ensures CommitComplete(Created(me, source, e, ttl).server, me, source, 0, Stored(e), 0)
         == (Created(me, source, e, ttl).server.(rows := [Queued1(me, source, e, ttl)]),
             Granted((Queued1(me, source, e, ttl), true)))
  {
    var row := Imported(me, source, e, ttl);
    assert [row][..0] == [];
    assert Put([row], Queued1(me, source, e, ttl)) == [Queued1(me, source, e, ttl)];
  }

  lemma CommitEvents(c: Cloud, me: UserId, source: SourceId, e: Entry, ttl: nat)
    requires c == Held1(me, source, e, ttl)
    ensures Happen(Happen(Happen(c, CompleteCommitted(MY_CALL, 0)), DispatchTried(MY_CALL)), CallLost(MY_CALL))
              .server.rows == [Queued1(me, source, e, ttl)]
  {
    Committed(me, source, e, ttl);
  }

  lemma CommitStep(d: Driver, me: UserId, source: SourceId, e: Entry, ttl: nat) returns (later: Driver)
    requires Reached(d, ttl)
      && Stands(d, me, source, At1(source, e, AwaitingUpload), Held1(me, source, e, ttl), Completing(2))
    ensures Reached(later, ttl)
      && Stands(later, me, source, At1(source, e, AwaitingUpload), later.cloud, CompleteRead(2, ImportQueued, 0))
    ensures later.cloud.server.rows == [Queued1(me, source, e, ttl)]
  {
    later := NextCommit(d, Replied, 0);
    Committed(me, source, e, ttl);
    CommitEvents(d.cloud, me, source, e, ttl);
    Goes(d, CommitCall(Replied, 0), later, ttl);
  }

  lemma SaveQueued(d: Driver, me: UserId, source: SourceId, e: Entry, cloud: Cloud, ttl: nat) returns (later: Driver)
    requires Reached(d, ttl)
      && Stands(d, me, source, At1(source, e, AwaitingUpload), cloud, CompleteRead(2, ImportQueued, 0))
    ensures Reached(later, ttl)
      && Stands(later, me, source, At1(source, e, ImportQueued), cloud, Polling(2, ImportQueued))
  {
    later := NextSave(d);
    Goes(d, Save, later, ttl);
  }

  // ---- The run, and the refused read ----

  lemma QueuedRun(me: UserId, source: SourceId, e: Entry, ttl: nat) returns (d: Driver)
    requires Photo(e)
    ensures Reached(d, ttl) && Stands(d, me, source, Waiting(source, e), Open(me, source, ttl), Idle)
  {
    d := Driver(me, source, BLANK, [], Fresh(ttl), Idle);
    assert Drive(me, source, ttl, []) == d;
    d := BindStep(d, me, source, Fresh(ttl), ttl);
    d := ScanStep(d, me, source, Fresh(ttl), ttl);
    d := DiffStep(d, me, source, e, Fresh(ttl), ttl);
    d := FinishStep(d, me, source, e, Fresh(ttl), ttl);
    d := AccountStep(d, me, source, Waiting(source, e), ttl);
    d := SourceStep(d, me, source, Waiting(source, e), ttl);
  }

  lemma ImportRun(me: UserId, source: SourceId, e: Entry, ttl: nat) returns (d: Driver)
    requires Photo(e)
    ensures Reached(d, ttl) && d.me == me && d.source == source && d.pc == Polling(2, ImportQueued)
    ensures d.local == At1(source, e, ImportQueued) && d.cloud.server.rows == [Queued1(me, source, e, ttl)]
  {
    d := QueuedRun(me, source, e, ttl);
    d := PrepareStep(d, me, source, e, Open(me, source, ttl), ttl);
    d := CreateStep(d, me, source, e, ttl);
    d := SaveBinding(d, me, source, e, Created(me, source, e, ttl), ttl);
    d := CheckStep(d, me, source, e, ttl);
    d := SaveCheck(d, me, source, e, Created(me, source, e, ttl), ttl);
    d := UploadStep(d, me, source, e, ttl);
    d := CompleteStep(d, me, source, e, ttl);
    d := LookStep(d, me, source, e, ttl);
    d := CommitStep(d, me, source, e, ttl);
    d := SaveQueued(d, me, source, e, d.cloud, ttl);
  }

  lemma DeniedStep(d: Driver, me: UserId, source: SourceId, e: Entry, ttl: nat) returns (later: Driver)
    requires Reached(d, ttl) && Stands(d, me, source, At1(source, e, ImportQueued), d.cloud, Polling(2, ImportQueued))
    ensures Reached(later, ttl) && later.pc.Flushing? && later.me == me && later.source == source
    ensures later.cloud == d.cloud
    ensures later.local.outbox == [OneBatch(source, e)] && later.local.supply == 3
  {
    later := NextRead(d, Denied);
    Goes(d, Action.Read(Denied), later, ttl);
  }

  lemma SplitStep(d: Driver, source: SourceId, e: Entry, ttl: nat) returns (later: Driver)
    requires Reached(d, ttl) && d.pc.Flushing? && d.source == source && d.local.outbox == [OneBatch(source, e)]
    ensures Reached(later, ttl) && later.pc.Listing? && later.me == d.me && later.source == source
    ensures later.cloud == d.cloud
    ensures later.local == d.local
  {
    later := NextSplit(d);
    assert [OneBatch(source, e)][..0] == [];
    Goes(d, SplitNow, later, ttl);
  }

  lemma ListStep(d: Driver, source: SourceId, e: Entry, ttl: nat) returns (later: Driver)
    requires Reached(d, ttl) && d.pc.Listing? && d.source == source && d.local.outbox == [OneBatch(source, e)]
    ensures Reached(later, ttl) && later == d.At(Sending([1]))
  {
    later := NextList(d);
    LonePending(OneBatch(source, e));
    LoneEntries(OneBatch(source, e));
    Goes(d, List, later, ttl);
  }

  /** The run exists for every photo: the batch is about to be sent, and the import that
      captured it is queued. */
  lemma RaceIsReached(me: UserId, source: SourceId, e: Entry, ttl: nat) returns (actions: seq<Action>)
    requires Photo(e)
    ensures var d := Drive(me, source, ttl, actions);
      && d.pc == Sending([1]) && d.local.outbox == [OneBatch(source, e)] && OneBatch(source, e).state == Pending
      && d.cloud.server.rows == [Queued1(me, source, e, ttl)] && Queued1(me, source, e, ttl).status.InFlight()
  {
    var d := ImportRun(me, source, e, ttl);
    d := DeniedStep(d, me, source, e, ttl);
    d := SplitStep(d, source, e, ttl);
    d := ListStep(d, source, e, ttl);
    actions :| Drive(me, source, ttl, actions) == d;
  }
}
