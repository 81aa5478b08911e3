/** Any interleaving of create, refresh and complete calls, uploads, the worker, and
    calls that are lost half way. */
module ImportRuns {
  import opened Prelude
  import opened Tables
  import opened ImportService

  /** A complete call between its transactions. */
  datatype Call =
    | Looking(user: UserId, source: SourceId, row: Import)
    | Holding(user: UserId, source: SourceId, id: ImportId, stored: StoredObject)
    | Dispatching(id: ImportId)

  datatype Answer = Answer(user: UserId, key: ImportKey, requestHash: string, id: ImportId)

  /** What happened: granted create calls, imports in the order they were queued, imports
      complete tried to dispatch, and the matching objects it saw. */
  datatype Log = Log(answers: set<Answer>, queued: seq<ImportId>, dispatched: seq<ImportId>, seen: set<(ImportId, StoredObject)>)

  datatype Cloud = Cloud(server: Server, objects: map<ImportId, StoredObject>, calls: map<nat, Call>, log: Log, ttl: nat)

  function Fresh(ttl: nat): Cloud {
    Cloud(Server({}, map[], [], 0), map[], map[], Log({}, [], [], {}), ttl)
  }

  datatype Event =
    | AccountSet(user: UserId, enabled: bool)
    | SourceSet(user: UserId, source: SourceId, eligible: bool)
    | CreateCalled(request: Request, now: Time)
    | ReplayWritten(id: ImportId, expires: Time)
    | RefreshCalled(user: UserId, source: SourceId, id: ImportId, now: Time)
    | Uploaded(id: ImportId, stored: StoredObject)
    | CompleteBegun(call: nat, user: UserId, source: SourceId, id: ImportId)
    | ObjectChecked(call: nat, reachable: bool)
    | CompleteCommitted(call: nat, now: Time)
    | DispatchTried(call: nat)
    | CallLost(call: nat)
    | Worked(id: ImportId, status: ImportStatus, processed: nat)

  function RowById(rows: seq<Import>, id: ImportId): (r: Option<Import>)
    ensures r.Some? ==> r.value in rows && r.value.id == id
    ensures r.None? <==> forall row :: row in rows ==> row.id != id
  {
    if rows == [] then None
    else if rows[|rows| - 1].id == id then Some(rows[|rows| - 1])
    else RowById(rows[..|rows| - 1], id)
  }

  function Recorded(c: Cloud, request: Request, server: Server, reply: Reply<(Import, bool)>): Cloud {
    match reply
    case Refused(_) => c.(server := server)
    case Granted((row, _)) =>
      c.(server := server,
         log := c.log.(answers := c.log.answers + {Answer(request.user, request.key, request.requestHash, row.id)}))
  }

  function AfterCreate(c: Cloud, request: Request, now: Time): Cloud {
    var (server, reply) := Create(c.server, request, now, c.ttl);
    Recorded(c, request, server, reply)
  }

  function AfterBegin(c: Cloud, call: nat, user: UserId, source: SourceId, id: ImportId): Cloud {
    match BeginComplete(c.server, user, source, id)
    case Granted(Expecting(row)) => if call in c.calls then c else c.(calls := c.calls[call := Looking(user, source, row)])
    case _ => c
  }

  function AfterCheck(c: Cloud, call: nat, reachable: bool): Cloud {
    if call !in c.calls || !c.calls[call].Looking? then c
    else
      var open := c.calls[call];
      var head := if !reachable then None else Some(if open.row.id in c.objects then Some(c.objects[open.row.id]) else None);
      match CheckObject(open.row, head)
      case Refused(_) => c.(calls := c.calls - {call})
      case Granted(stored) =>
        c.(calls := c.calls[call := Holding(open.user, open.source, open.row.id, stored)],
           log := c.log.(seen := c.log.seen + {(open.row.id, stored)}))
  }

  function AfterCommit(c: Cloud, call: nat, now: Time): Cloud {
    if call !in c.calls || !c.calls[call].Holding? then c
    else
      var open := c.calls[call];
      var (server, reply) := CommitComplete(c.server, open.user, open.source, open.id, open.stored, now);
      match reply
      case Refused(_) => c.(calls := c.calls - {call})
      case Granted((row, queued)) =>
        if queued
        then c.(server := server, calls := c.calls[call := Dispatching(row.id)], log := c.log.(queued := c.log.queued + [row.id]))
        else c.(calls := c.calls - {call})
  }

  function AfterDispatch(c: Cloud, call: nat): Cloud {
    if call !in c.calls || !c.calls[call].Dispatching? then c
    else c.(calls := c.calls - {call}, log := c.log.(dispatched := c.log.dispatched + [c.calls[call].id]))
  }

  /** One event. A replay may write its new expiry late, whatever the row is by then. */
  function Happen(c: Cloud, event: Event): Cloud {
    match event
    case AccountSet(user, enabled) =>
      c.(server := c.server.(accounts := if enabled then c.server.accounts + {user} else c.server.accounts - {user}))
    case SourceSet(user, source, eligible) =>
      c.(server := c.server.(sources := c.server.sources[(user, source) := eligible]))
    case CreateCalled(request, now) => AfterCreate(c, request, now)
    case ReplayWritten(id, expires) =>
      (match RowById(c.server.rows, id)
       case None => c
       case Some(row) => c.(server := c.server.(rows := Put(c.server.rows, row.(uploadExpires := expires)))))
    case RefreshCalled(user, source, id, now) => c.(server := Refresh(c.server, user, source, id, now, c.ttl).0)
    case Uploaded(id, stored) => c.(objects := c.objects[id := stored])
    case CompleteBegun(call, user, source, id) => AfterBegin(c, call, user, source, id)
    case ObjectChecked(call, reachable) => AfterCheck(c, call, reachable)
    case CompleteCommitted(call, now) => AfterCommit(c, call, now)
    case DispatchTried(call) => AfterDispatch(c, call)
    case CallLost(call) => c.(calls := c.calls - {call})
    case Worked(id, status, processed) =>
      (match RowById(c.server.rows, id)
       case None => c
       case Some(row) =>
         if WorkerMoves(row, status, processed) then c.(server := Work(c.server, row, status, processed)) else c)
  }

  function History(ttl: nat, events: seq<Event>): Cloud {
    if events == [] then Fresh(ttl) else Happen(History(ttl, events[..|events| - 1]), events[|events| - 1])
  }

  // ---- What every event keeps ----

  ghost predicate RowsOk(rows: seq<Import>, supply: nat) {
    && (forall i, j :: 0 <= i < j < |rows| ==> rows[i].id != rows[j].id)
    && (forall i, j :: 0 <= i < j < |rows| && rows[i].user == rows[j].user ==> rows[i].key != rows[j].key)
    && (forall i, j :: 0 <= i < j < |rows| && rows[i].user == rows[j].user && rows[i].source == rows[j].source ==>
          rows[i].snapshot != rows[j].snapshot && !(rows[i].active && rows[j].active))
    && (forall row :: row in rows ==> row.id < supply && row.active == !row.status.Terminal())
  }

  /** The columns no transaction changes. */
  ghost predicate SameDeclaration(a: Import, b: Import) {
    && a.id == b.id && a.user == b.user && a.source == b.source && a.snapshot == b.snapshot && a.key == b.key
    && a.requestHash == b.requestHash && a.checksum == b.checksum && a.bytes == b.bytes && a.entryCount == b.entryCount
  }

  ghost predicate Redeclared(before: seq<Import>, after: seq<Import>) {
    |before| == |after| && forall i :: 0 <= i < |before| ==> SameDeclaration(before[i], after[i])
  }

  lemma PutRedeclares(rows: seq<Import>, row: Import, was: Import, supply: nat)
    requires RowsOk(rows, supply) && was in rows && SameDeclaration(was, row)
    ensures Redeclared(rows, Put(rows, row))
    ensures forall i :: 0 <= i < |rows| && rows[i].id == row.id ==> rows[i] == was
  {
  }

  /** Writing a row back keeps the table, as long as no ended import is revived. */
  lemma PutRowsOk(rows: seq<Import>, row: Import, was: Import, supply: nat)
    requires RowsOk(rows, supply) && was in rows && SameDeclaration(was, row)
    requires row.active == !row.status.Terminal() && (row.active ==> was.active)
    ensures RowsOk(Put(rows, row), supply)
  {
    var after := Put(rows, row);
    PutRedeclares(rows, row, was, supply);
    forall i | 0 <= i < |after| ensures after[i].active ==> rows[i].active {
    }
    forall r | r in after ensures r.id < supply && r.active == !r.status.Terminal() {
      var i :| 0 <= i < |after| && after[i] == r;
      assert rows[i] in rows;
    }
  }

  lemma InsertRowsOk(rows: seq<Import>, request: Request, supply: nat, expires: Time)
    requires RowsOk(rows, supply) && FindKey(rows, request.user, request.key).None?
    requires FindActive(rows, request.user, request.source).None?
    requires !SnapshotTaken(rows, request.user, request.source, request.snapshot)
    ensures RowsOk(rows + [NewImport(request, supply, expires)], supply + 1)
  {
  }

  predicate NeverQueued(status: ImportStatus) { status in {AwaitingUpload, Expired} }

  ghost predicate NoRepeat(ids: seq<ImportId>) {
    forall i, j :: 0 <= i < j < |ids| ==> ids[i] != ids[j]
  }

  /** The log of queued imports says exactly which rows left AwaitingUpload other than by expiring. */
  ghost predicate QueueLogged(rows: seq<Import>, queued: seq<ImportId>) {
    && NoRepeat(queued)
    && (forall row :: row in rows ==> (row.id in queued <==> !NeverQueued(row.status)))
    && (forall id :: id in queued ==> exists row :: row in rows && row.id == id)
  }

  ghost predicate SawMatch(rows: seq<Import>, id: ImportId, seen: set<(ImportId, StoredObject)>) {
    exists row, stored :: row in rows && row.id == id && (id, stored) in seen && Matches(row, stored)
  }

  ghost predicate Answered(rows: seq<Import>, a: Answer) {
    exists row :: row in rows && row.id == a.id && row.user == a.user && row.key == a.key && row.requestHash == a.requestHash
  }

  ghost predicate LogOk(rows: seq<Import>, log: Log) {
    && QueueLogged(rows, log.queued)
    && (forall id :: id in log.queued ==> SawMatch(rows, id, log.seen))
    && (forall a :: a in log.answers ==> Answered(rows, a))
  }

  ghost predicate CallOk(rows: seq<Import>, call: Call, log: Log) {
    match call
    case Looking(_, _, was) => exists row :: row in rows && SameDeclaration(was, row)
    case Holding(_, _, id, stored) =>
      (id, stored) in log.seen && exists row :: row in rows && row.id == id && Matches(row, stored)
    case Dispatching(id) => id in log.queued && id !in log.dispatched
  }

  ghost predicate CallsOk(rows: seq<Import>, calls: map<nat, Call>, log: Log) {
    && (forall call :: call in calls ==> CallOk(rows, calls[call], log))
    && (forall a, b :: a in calls && b in calls && a != b && calls[a].Dispatching? && calls[b].Dispatching? ==>
          calls[a].id != calls[b].id)
    && NoRepeat(log.dispatched)
    && (forall id :: id in log.dispatched ==> id in log.queued)
  }

  ghost predicate Steady(c: Cloud) {
    && RowsOk(c.server.rows, c.server.supply)
    && LogOk(c.server.rows, c.log)
    && CallsOk(c.server.rows, c.calls, c.log)
  }

  // ---- Rewriting rows, inserting a row ----

  lemma RedeclaredMember(before: seq<Import>, after: seq<Import>, row: Import) returns (later: Import)
    requires Redeclared(before, after) && row in before
    ensures later in after && SameDeclaration(row, later)
  {
    var i :| 0 <= i < |before| && before[i] == row;
    later := after[i];
  }

  lemma RedeclaredMatch(before: seq<Import>, after: seq<Import>, id: ImportId, seen: set<(ImportId, StoredObject)>)
    requires Redeclared(before, after) && SawMatch(before, id, seen)
    ensures SawMatch(after, id, seen)
  {
  }

  lemma RedeclaredAnswer(before: seq<Import>, after: seq<Import>, a: Answer)
    requires Redeclared(before, after) && Answered(before, a)
    ensures Answered(after, a)
  {
  }

  lemma RedeclaredCall(before: seq<Import>, after: seq<Import>, call: Call, log: Log)
    requires Redeclared(before, after) && CallOk(before, call, log)
    ensures CallOk(after, call, log)
  {
    match call
    case Looking(_, _, was) =>
      var row :| row in before && SameDeclaration(was, row);
      var later := RedeclaredMember(before, after, row);
    case Holding(_, _, id, stored) =>
      var row :| row in before && row.id == id && Matches(row, stored);
      var later := RedeclaredMember(before, after, row);
      assert Matches(later, stored);
    case Dispatching(_) =>
  }

  lemma RedeclaredOk(before: seq<Import>, after: seq<Import>, calls: map<nat, Call>, log: Log)
    requires Redeclared(before, after) && LogOk(before, log) && CallsOk(before, calls, log)
    requires forall i :: 0 <= i < |before| ==> NeverQueued(before[i].status) == NeverQueued(after[i].status)
    ensures LogOk(after, log) && CallsOk(after, calls, log)
  {
    forall row | row in after ensures row.id in log.queued <==> !NeverQueued(row.status) {
      var i :| 0 <= i < |after| && after[i] == row;
      assert before[i] in before;
    }
    forall id | id in log.queued ensures SawMatch(after, id, log.seen) && exists row :: row in after && row.id == id {
      RedeclaredMatch(before, after, id, log.seen);
    }
    forall a | a in log.answers ensures Answered(after, a) {
      RedeclaredAnswer(before, after, a);
    }
    forall call | call in calls ensures CallOk(after, calls[call], log) {
      RedeclaredCall(before, after, calls[call], log);
    }
  }

  lemma WriteSteady(c: Cloud, row: Import, was: Import)
    requires Steady(c) && was in c.server.rows && SameDeclaration(was, row)
    requires row.active == !row.status.Terminal() && (row.active ==> was.active)
    requires NeverQueued(was.status) == NeverQueued(row.status)
    ensures Steady(c.(server := c.server.(rows := Put(c.server.rows, row))))
  {
    PutRowsOk(c.server.rows, row, was, c.server.supply);
    PutRedeclares(c.server.rows, row, was, c.server.supply);
    RedeclaredOk(c.server.rows, Put(c.server.rows, row), c.calls, c.log);
  }

  lemma AppendOk(rows: seq<Import>, row: Import, calls: map<nat, Call>, log: Log)
    requires LogOk(rows, log) && CallsOk(rows, calls, log)
    requires NeverQueued(row.status) && forall r :: r in rows ==> r.id != row.id
    ensures LogOk(rows + [row], log) && CallsOk(rows + [row], calls, log)
  {
  }

  // ---- Events ----

  lemma InsertSteady(c: Cloud, request: Request, expires: Time)
    requires Steady(c) && FindKey(c.server.rows, request.user, request.key).None?
    requires FindActive(c.server.rows, request.user, request.source).None?
    requires !SnapshotTaken(c.server.rows, request.user, request.source, request.snapshot)
    ensures var row := NewImport(request, c.server.supply, expires);
      Steady(c.(server := c.server.(rows := c.server.rows + [row], supply := c.server.supply + 1)))
  {
    InsertRowsOk(c.server.rows, request, c.server.supply, expires);
    AppendOk(c.server.rows, NewImport(request, c.server.supply, expires), c.calls, c.log);
  }

  lemma AnswerSteady(c: Cloud, a: Answer)
    requires Steady(c) && Answered(c.server.rows, a)
    ensures Steady(c.(log := c.log.(answers := c.log.answers + {a})))
  {
    forall call | call in c.calls ensures CallOk(c.server.rows, c.calls[call], c.log.(answers := c.log.answers + {a})) {
      assert CallOk(c.server.rows, c.calls[call], c.log);
    }
  }

  lemma OneActiveRow(rows: seq<Import>, supply: nat, a: Import, b: Import)
    requires RowsOk(rows, supply) && a in rows && b in rows
    requires a.user == b.user && a.source == b.source && a.active && b.active
    ensures a == b
  {
  }

  /** The expired predecessor is the only row that was active, and no row gains the key. */
  lemma ExpiredOut(rows: seq<Import>, supply: nat, request: Request, active: Import)
    requires RowsOk(rows, supply) && active in rows && active.status == AwaitingUpload && active.active
    requires active.user == request.user && active.source == request.source
    requires FindKey(rows, request.user, request.key).None?
    ensures var after := Put(rows, Expire(active));
      FindActive(after, request.user, request.source).None? && FindKey(after, request.user, request.key).None?
  {
    var after := Put(rows, Expire(active));
    PutRedeclares(rows, Expire(active), active, supply);
    forall r | r in after
      ensures !(r.user == request.user && r.source == request.source && r.active)
      ensures !(r.user == request.user && r.key == request.key)
    {
      var i :| 0 <= i < |after| && after[i] == r;
      assert rows[i] in rows;
      if r.user == request.user && r.source == request.source && r.active {
        OneActiveRow(rows, supply, rows[i], active);
      }
    }
  }

  ghost predicate Grants(c: Cloud, server: Server, request: Request, id: ImportId) {
    Steady(c.(server := server)) && Answered(server.rows, Answer(request.user, request.key, request.requestHash, id))
  }

  lemma InsertGranted(c: Cloud, request: Request, expires: Time)
    requires Steady(c) && FindKey(c.server.rows, request.user, request.key).None?
    requires FindActive(c.server.rows, request.user, request.source).None?
    requires Insert(c.server, request, expires).Granted?
    ensures var (server, row) := Insert(c.server, request, expires).value; Grants(c, server, request, row.id)
  {
    InsertSteady(c, request, expires);
    InsertAnswered(c.server.rows, request, c.server.supply, expires);
  }

  lemma ExpiredSteady(c: Cloud, active: Import, request: Request) returns (expired: Cloud)
    requires Steady(c) && FindKey(c.server.rows, request.user, request.key).None?
    requires active in c.server.rows && active.status == AwaitingUpload && active.active
    requires active.user == request.user && active.source == request.source
    ensures expired == c.(server := c.server.(rows := Put(c.server.rows, Expire(active)))) && Steady(expired)
    ensures FindActive(expired.server.rows, request.user, request.source).None?
    ensures FindKey(expired.server.rows, request.user, request.key).None?
  {
    ExpiredOut(c.server.rows, c.server.supply, request, active);
    WriteSteady(c, Expire(active), active);
    expired := c.(server := c.server.(rows := Put(c.server.rows, Expire(active))));
  }

  lemma CreateRefused(server: Server, request: Request, now: Time, ttl: nat)
    ensures Create(server, request, now, ttl).1.Refused? ==> Create(server, request, now, ttl).0 == server
  {
  }

  lemma FirstGranted(c: Cloud, request: Request, now: Time)
    requires Steady(c) && FindKey(c.server.rows, request.user, request.key).None?
    requires Create(c.server, request, now, c.ttl).1.Granted?
    ensures var (server, reply) := Create(c.server, request, now, c.ttl);
      Grants(c, server, request, reply.value.0.id)
  {
    var active := FindActive(c.server.rows, request.user, request.source);
    if active.None? {
      InsertGranted(c, request, now + c.ttl);
    } else {
      var expired := ExpiredSteady(c, active.value, request);
      InsertGranted(expired, request, now + c.ttl);
    }
  }

  lemma CreateGranted(c: Cloud, request: Request, now: Time)
    requires Steady(c) && Create(c.server, request, now, c.ttl).1.Granted?
    ensures var (server, reply) := Create(c.server, request, now, c.ttl);
      Grants(c, server, request, reply.value.0.id)
  {
    var existing := FindKey(c.server.rows, request.user, request.key);
    if existing.Some? {
      ReplayGranted(c, existing.value, now + c.ttl);
    } else {
      FirstGranted(c, request, now);
    }
  }

  lemma RecordedSteady(c: Cloud, request: Request, server: Server, reply: Reply<(Import, bool)>)
    requires Steady(c)
    requires if reply.Granted? then Grants(c, server, request, reply.value.0.id) else server == c.server
    ensures Steady(Recorded(c, request, server, reply))
  {
    if reply.Granted? {
      AnswerSteady(c.(server := server), Answer(request.user, request.key, request.requestHash, reply.value.0.id));
    }
  }

  lemma CreateSteady(c: Cloud, request: Request, now: Time)
    requires Steady(c)
    ensures Steady(AfterCreate(c, request, now))
  {
    var (server, reply) := Create(c.server, request, now, c.ttl);
    CreateRefused(c.server, request, now, c.ttl);
    if reply.Granted? {
      CreateGranted(c, request, now);
    }
    RecordedSteady(c, request, server, reply);
  }

  lemma InsertAnswered(rows: seq<Import>, request: Request, id: ImportId, expires: Time)
    ensures Answered(rows + [NewImport(request, id, expires)], Answer(request.user, request.key, request.requestHash, id))
  {
  }

  lemma ReplayGranted(c: Cloud, existing: Import, expires: Time)
    requires Steady(c) && existing in c.server.rows
    ensures var row := existing.(uploadExpires := expires);
      && Steady(c.(server := c.server.(rows := Put(c.server.rows, row))))
      && Answered(Put(c.server.rows, row), Answer(row.user, row.key, row.requestHash, row.id))
      && Answered(c.server.rows, Answer(row.user, row.key, row.requestHash, row.id))
  {
    var row := existing.(uploadExpires := expires);
    WriteSteady(c, row, existing);
    var i :| 0 <= i < |c.server.rows| && c.server.rows[i] == existing;
    assert Put(c.server.rows, row)[i] == row;
  }

  lemma TouchSteady(c: Cloud, row: Import, expires: Time)
    requires Steady(c) && row in c.server.rows
    ensures Steady(c.(server := c.server.(rows := Put(c.server.rows, row.(uploadExpires := expires)))))
  {
    WriteSteady(c, row.(uploadExpires := expires), row);
  }

  lemma RefreshSteady(c: Cloud, user: UserId, source: SourceId, id: ImportId, now: Time)
    requires Steady(c)
    ensures Steady(c.(server := Refresh(c.server, user, source, id, now, c.ttl).0))
  {
    var found := Lookup(c.server, user, source, id);
    if found.Granted? {
      TouchSteady(c, found.value, now + c.ttl);
    }
  }

  lemma BeginSteady(c: Cloud, call: nat, user: UserId, source: SourceId, id: ImportId)
    requires Steady(c)
    ensures Steady(AfterBegin(c, call, user, source, id))
  {
  }

  lemma DropSteady(c: Cloud, call: nat)
    requires Steady(c)
    ensures Steady(c.(calls := c.calls - {call}))
  {
  }

  lemma CheckSteady(c: Cloud, call: nat, reachable: bool)
    requires Steady(c)
    ensures Steady(AfterCheck(c, call, reachable))
  {
  }

  lemma SameRow(rows: seq<Import>, supply: nat, a: Import, b: Import)
    requires RowsOk(rows, supply) && a in rows && b in rows && a.id == b.id
    ensures a == b
  {
  }

  /** Queueing a row that is still awaiting its upload, for a matching object that was seen. */
  lemma QueueOk(rows: seq<Import>, supply: nat, row: Import, was: Import, log: Log, stored: StoredObject)
    requires RowsOk(rows, supply) && LogOk(rows, log) && was in rows && SameDeclaration(was, row)
    requires was.status == AwaitingUpload && row.status == ImportQueued
    requires (row.id, stored) in log.seen && Matches(row, stored)
    ensures was.id !in log.queued && LogOk(Put(rows, row), log.(queued := log.queued + [row.id]))
  {
  }

  lemma QueueCallsOk(rows: seq<Import>, after: seq<Import>, calls: map<nat, Call>, log: Log, call: nat, id: ImportId)
    requires CallsOk(rows, calls, log) && Redeclared(rows, after) && id !in log.queued
    ensures CallsOk(after, calls[call := Dispatching(id)], log.(queued := log.queued + [id]))
  {
    var later := log.(queued := log.queued + [id]);
    forall a | a in calls ensures CallOk(after, calls[a], later) {
      RedeclaredCall(rows, after, calls[a], log);
    }
    forall a | a in calls && calls[a].Dispatching? ensures calls[a].id != id {
      assert CallOk(rows, calls[a], log);
    }
  }

  lemma CommitSteady(c: Cloud, call: nat, now: Time)
    requires Steady(c)
    ensures Steady(AfterCommit(c, call, now))
  {
    if call in c.calls && c.calls[call].Holding? {
      var open := c.calls[call];
      DropSteady(c, call);
      var found := Lookup(c.server, open.user, open.source, open.id);
      if found.Granted? && found.value.status == AwaitingUpload {
        var was := found.value;
        var row := was.(status := ImportQueued, queuedAt := Some(now), version := Some(open.stored.version));
        assert CallOk(c.server.rows, open, c.log);
        var same :| same in c.server.rows && same.id == open.id && Matches(same, open.stored);
        SameRow(c.server.rows, c.server.supply, same, was);
        PutRowsOk(c.server.rows, row, was, c.server.supply);
        PutRedeclares(c.server.rows, row, was, c.server.supply);
        QueueOk(c.server.rows, c.server.supply, row, was, c.log, open.stored);
        QueueCallsOk(c.server.rows, Put(c.server.rows, row), c.calls, c.log, call, row.id);
      }
    }
  }

  lemma DispatchSteady(c: Cloud, call: nat)
    requires Steady(c)
    ensures Steady(AfterDispatch(c, call))
  {
    if call in c.calls && c.calls[call].Dispatching? {
      var id := c.calls[call].id;
      assert CallOk(c.server.rows, c.calls[call], c.log);
      var after := AfterDispatch(c, call);
      forall a | a in after.calls ensures CallOk(after.server.rows, after.calls[a], after.log) {
        assert CallOk(c.server.rows, c.calls[a], c.log);
      }
    }
  }

  lemma WorkSteady(c: Cloud, row: Import, status: ImportStatus, processed: nat)
    requires Steady(c) && row in c.server.rows && WorkerMoves(row, status, processed)
    ensures Steady(c.(server := Work(c.server, row, status, processed)))
  {
    WriteSteady(c, row.(status := status, processed := processed, active := !status.Terminal()), row);
  }

  lemma HappenSteady(c: Cloud, event: Event)
    requires Steady(c)
    ensures Steady(Happen(c, event))
  {
    match event
    case AccountSet(_, _) =>
    case SourceSet(_, _, _) =>
    case CreateCalled(request, now) => CreateSteady(c, request, now);
    case ReplayWritten(id, expires) =>
      var row := RowById(c.server.rows, id);
      if row.Some? { TouchSteady(c, row.value, expires); }
    case RefreshCalled(user, source, id, now) => RefreshSteady(c, user, source, id, now);
    case Uploaded(_, _) =>
    case CompleteBegun(call, user, source, id) => BeginSteady(c, call, user, source, id);
    case ObjectChecked(call, reachable) => CheckSteady(c, call, reachable);
    case CompleteCommitted(call, now) => CommitSteady(c, call, now);
    case DispatchTried(call) => DispatchSteady(c, call);
    case CallLost(call) => DropSteady(c, call);
    case Worked(id, status, processed) =>
      var row := RowById(c.server.rows, id);
      if row.Some? && WorkerMoves(row.value, status, processed) { WorkSteady(c, row.value, status, processed); }
  }

  lemma {:induction false} HistorySteady(ttl: nat, events: seq<Event>)
    ensures Steady(History(ttl, events))
  {
    if events != [] {
      HistorySteady(ttl, events[..|events| - 1]);
      HappenSteady(History(ttl, events[..|events| - 1]), events[|events| - 1]);
    }
  }

  // ---- The promises, for every history ----

  /** A source never has two active imports. */
  lemma OneActiveImport(ttl: nat, events: seq<Event>, a: Import, b: Import)
    requires a in History(ttl, events).server.rows && b in History(ttl, events).server.rows
    requires a.user == b.user && a.source == b.source && a.active && b.active
    ensures a == b
  {
    HistorySteady(ttl, events);
    OneActiveRow(History(ttl, events).server.rows, History(ttl, events).server.supply, a, b);
  }

  /** Whatever happened between two granted create calls: the same key means the same
      import, and was only granted for the same request. */
  lemma SameKeySameImport(ttl: nat, events: seq<Event>, first: Answer, second: Answer)
    requires first in History(ttl, events).log.answers && second in History(ttl, events).log.answers
    requires first.user == second.user && first.key == second.key
    ensures first == second
  {
    HistorySteady(ttl, events);
    var rows := History(ttl, events).server.rows;
    assert Answered(rows, first) && Answered(rows, second);
    var a :| a in rows && a.id == first.id && a.user == first.user && a.key == first.key && a.requestHash == first.requestHash;
    var b :| b in rows && b.id == second.id && b.user == second.user && b.key == second.key && b.requestHash == second.requestHash;
    SameKeyRow(rows, History(ttl, events).server.supply, a, b);
  }

  lemma SameKeyRow(rows: seq<Import>, supply: nat, a: Import, b: Import)
    requires RowsOk(rows, supply) && a in rows && b in rows && a.user == b.user && a.key == b.key
    ensures a == b
  {
  }

  /** Each import is queued at most once and only for a matching object that was seen;
      complete tries to dispatch it at most once, and only after queueing it. An import
      is past AwaitingUpload, other than by expiring, exactly when it was queued. */
  lemma QueuedOnce(ttl: nat, events: seq<Event>)
    ensures var c := History(ttl, events);
      && NoRepeat(c.log.queued) && NoRepeat(c.log.dispatched)
      && (forall id :: id in c.log.dispatched ==> id in c.log.queued)
      && (forall id :: id in c.log.queued ==> SawMatch(c.server.rows, id, c.log.seen))
      && (forall row :: row in c.server.rows ==> (row.id in c.log.queued <==> !NeverQueued(row.status)))
  {
    HistorySteady(ttl, events);
  }

  ghost predicate Ended(rows: seq<Import>, id: ImportId, status: ImportStatus) {
    status.Terminal() && exists row :: row in rows && row.id == id && row.status == status
  }

  lemma PutKeepsEnded(rows: seq<Import>, supply: nat, row: Import, was: Import, id: ImportId, status: ImportStatus)
    requires RowsOk(rows, supply) && was in rows && was.id == row.id && Ended(rows, id, status)
    requires was.status.Terminal() ==> row.status == was.status
    ensures Ended(Put(rows, row), id, status)
  {
  }

  lemma FirstKeepsEnded(c: Cloud, request: Request, now: Time, id: ImportId, status: ImportStatus)
    requires Steady(c) && Ended(c.server.rows, id, status) && FindKey(c.server.rows, request.user, request.key).None?
    ensures Ended(Create(c.server, request, now, c.ttl).0.rows, id, status)
  {
  }

  lemma TouchKeepsEnded(c: Cloud, row: Import, expires: Time, id: ImportId, status: ImportStatus)
    requires Steady(c) && Ended(c.server.rows, id, status) && row in c.server.rows
    ensures Ended(Put(c.server.rows, row.(uploadExpires := expires)), id, status)
  {
  }

  lemma CreateKeepsEnded(c: Cloud, request: Request, now: Time, id: ImportId, status: ImportStatus)
    requires Steady(c) && Ended(c.server.rows, id, status)
    ensures Ended(AfterCreate(c, request, now).server.rows, id, status)
  {
    var existing := FindKey(c.server.rows, request.user, request.key);
    if existing.Some? {
      TouchKeepsEnded(c, existing.value, now + c.ttl, id, status);
    } else {
      FirstKeepsEnded(c, request, now, id, status);
    }
  }

  lemma RefreshKeepsEnded(c: Cloud, user: UserId, source: SourceId, other: ImportId, now: Time, id: ImportId, status: ImportStatus)
    requires Steady(c) && Ended(c.server.rows, id, status)
    ensures Ended(Refresh(c.server, user, source, other, now, c.ttl).0.rows, id, status)
  {
    var row := Lookup(c.server, user, source, other);
    if row.Granted? {
      TouchKeepsEnded(c, row.value, now + c.ttl, id, status);
    }
  }

  lemma WorkKeepsEnded(c: Cloud, row: Import, to: ImportStatus, processed: nat, id: ImportId, status: ImportStatus)
    requires Steady(c) && Ended(c.server.rows, id, status) && row in c.server.rows && WorkerMoves(row, to, processed)
    ensures Ended(Work(c.server, row, to, processed).rows, id, status)
  {
  }

  lemma HappenKeepsEnded(c: Cloud, event: Event, id: ImportId, status: ImportStatus)
    requires Steady(c) && Ended(c.server.rows, id, status)
    ensures Ended(Happen(c, event).server.rows, id, status)
  {
    match event
    case CreateCalled(request, now) => CreateKeepsEnded(c, request, now, id, status);
    case ReplayWritten(other, expires) =>
      var row := RowById(c.server.rows, other);
      if row.Some? { TouchKeepsEnded(c, row.value, expires, id, status); }
    case RefreshCalled(user, source, other, now) => RefreshKeepsEnded(c, user, source, other, now, id, status);
    case CompleteCommitted(call, now) => CommitKeepsEnded(c, call, now, id, status);
    case Worked(other, to, processed) =>
      var row := RowById(c.server.rows, other);
      if row.Some? && WorkerMoves(row.value, to, processed) { WorkKeepsEnded(c, row.value, to, processed, id, status); }
    case _ =>
  }

  lemma CommitKeepsEnded(c: Cloud, call: nat, now: Time, id: ImportId, status: ImportStatus)
    requires Steady(c) && Ended(c.server.rows, id, status)
    ensures Ended(AfterCommit(c, call, now).server.rows, id, status)
  {
    if call in c.calls && c.calls[call].Holding? {
      var open := c.calls[call];
      var found := Lookup(c.server, open.user, open.source, open.id);
      if found.Granted? && found.value.status == AwaitingUpload {
        PutKeepsEnded(c.server.rows, c.server.supply,
          found.value.(status := ImportQueued, queuedAt := Some(now), version := Some(open.stored.version)), found.value, id, status);
      }
    }
  }

  lemma HistoryStep(ttl: nat, events: seq<Event>, event: Event)
    ensures History(ttl, events + [event]) == Happen(History(ttl, events), event)
  {
  }

  lemma EndedStaysOnce(ttl: nat, events: seq<Event>, event: Event, id: ImportId, status: ImportStatus)
    requires Ended(History(ttl, events).server.rows, id, status)
    ensures Ended(History(ttl, events + [event]).server.rows, id, status)
  {
    HistorySteady(ttl, events);
    HistoryStep(ttl, events, event);
    HappenKeepsEnded(History(ttl, events), event, id, status);
  }

  lemma {:induction false} EndedStays(ttl: nat, events: seq<Event>, more: seq<Event>, id: ImportId, status: ImportStatus)
    requires Ended(History(ttl, events).server.rows, id, status)
    ensures Ended(History(ttl, events + more).server.rows, id, status)
    decreases |more|
  {
    if more == [] {
      assert events + more == events;
    } else {
      EndedStaysOnce(ttl, events, more[0], id, status);
      EndedStays(ttl, events + [more[0]], more[1..], id, status);
      assert events + [more[0]] + more[1..] == events + more;
    }
  }

  /** An import that is over stays over; one that expired is never queued, by any later call. */
  lemma ExpiredNeverQueued(ttl: nat, events: seq<Event>, more: seq<Event>, row: Import)
    requires row in History(ttl, events).server.rows && row.status == Expired
    ensures row.id !in History(ttl, events + more).log.queued
  {
    EndedStays(ttl, events, more, row.id, Expired);
    HistorySteady(ttl, events + more);
  }
}
