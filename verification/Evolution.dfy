/** How the imports of one client change while others use the service: what the
    client once read of an import keeps meaning something. */
module Evolution {
  import opened Prelude
  import opened Tables
  import opened ImportService
  import opened ImportRuns
  import opened Delivery

  /** What can happen to the status of an import that nobody completes meanwhile. */
  predicate StatusStep(a: ImportStatus, b: ImportStatus) {
    if a == AwaitingUpload then NeverQueued(b)
    else if a.Terminal() then b == a
    else b.InFlight() || (b.Terminal() && b != Expired)
  }

  /** A status step that keeps the reported progress within the declared count. */
  predicate OwnStep(a: Import, b: Import) {
    StatusStep(a.status, b.status) && (a.processed <= a.entryCount ==> b.processed <= b.entryCount)
  }

  /** The client's imports keep their declaration and take status steps; new imports are not the client's. */
  ghost predicate Evolves(me: UserId, source: SourceId, before: seq<Import>, after: seq<Import>) {
    && |before| <= |after|
    && (forall i :: 0 <= i < |before| ==>
          SameDeclaration(before[i], after[i]) && (Ours(me, source, before[i]) ==> OwnStep(before[i], after[i])))
    && (forall i :: |before| <= i < |after| ==> !Ours(me, source, after[i]))
  }

  /** The weaker relation: declarations are kept and progress stays within them. */
  ghost predicate Retains(me: UserId, source: SourceId, before: seq<Import>, after: seq<Import>) {
    && |before| <= |after|
    && (forall i :: 0 <= i < |before| ==>
          SameDeclaration(before[i], after[i])
          && (Ours(me, source, before[i]) && before[i].processed <= before[i].entryCount ==> after[i].processed <= after[i].entryCount))
    && (forall i :: |before| <= i < |after| ==> !Ours(me, source, after[i]))
  }

  lemma EvolvesRefl(me: UserId, source: SourceId, rows: seq<Import>)
    ensures Evolves(me, source, rows, rows)
  {
  }

  lemma PutEvolves(me: UserId, source: SourceId, rows: seq<Import>, supply: nat, row: Import, was: Import)
    requires RowsOk(rows, supply) && was in rows && SameDeclaration(was, row)
    requires Ours(me, source, was) ==> OwnStep(was, row)
    ensures Evolves(me, source, rows, Put(rows, row))
  {
    PutRedeclares(rows, row, was, supply);
  }

  lemma EvolvesTwice(me: UserId, source: SourceId, a: seq<Import>, b: seq<Import>, c: seq<Import>)
    requires Evolves(me, source, a, b) && Evolves(me, source, b, c)
    ensures Evolves(me, source, a, c)
  {
  }

  // ---- Other clients' calls ----

  lemma InsertEvolves(me: UserId, source: SourceId, server: Server, request: Request, expires: Time)
    requires request.user == me ==> !(request.key.ForSnapshot? && request.key.source == source)
    requires Insert(server, request, expires).Granted?
    ensures Evolves(me, source, server.rows, Insert(server, request, expires).value.0.rows)
  {
  }

  lemma ExpireEvolves(me: UserId, source: SourceId, rows: seq<Import>, supply: nat, active: Import)
    requires RowsOk(rows, supply) && active in rows && active.status == AwaitingUpload
    ensures Evolves(me, source, rows, Put(rows, Expire(active)))
  {
  }

  lemma TouchEvolves(me: UserId, source: SourceId, rows: seq<Import>, supply: nat, row: Import, expires: Time)
    requires RowsOk(rows, supply) && row in rows
    ensures Evolves(me, source, rows, Put(rows, row.(uploadExpires := expires)))
  {
    PutEvolves(me, source, rows, supply, row.(uploadExpires := expires), row);
  }

  lemma FirstEvolves(me: UserId, source: SourceId, server: Server, request: Request, now: Time, ttl: nat)
    requires RowsOk(server.rows, server.supply) && FindKey(server.rows, request.user, request.key).None?
    requires request.user == me ==> !(request.key.ForSnapshot? && request.key.source == source)
    ensures Evolves(me, source, server.rows, Create(server, request, now, ttl).0.rows)
  {
    var active := FindActive(server.rows, request.user, request.source);
    EvolvesRefl(me, source, server.rows);
    if active.None? {
      if Insert(server, request, now + ttl).Granted? {
        InsertEvolves(me, source, server, request, now + ttl);
      }
    } else if UploadLapsed(active.value, now) {
      var expired := server.(rows := Put(server.rows, Expire(active.value)));
      if Insert(expired, request, now + ttl).Granted? {
        ExpireEvolves(me, source, server.rows, server.supply, active.value);
        InsertEvolves(me, source, expired, request, now + ttl);
        EvolvesTwice(me, source, server.rows, expired.rows, Insert(expired, request, now + ttl).value.0.rows);
      }
    }
  }

  lemma CreateEvolves(me: UserId, source: SourceId, server: Server, request: Request, now: Time, ttl: nat)
    requires RowsOk(server.rows, server.supply)
    requires request.user == me ==> !(request.key.ForSnapshot? && request.key.source == source)
    ensures Evolves(me, source, server.rows, Create(server, request, now, ttl).0.rows)
  {
    var existing := FindKey(server.rows, request.user, request.key);
    EvolvesRefl(me, source, server.rows);
    if existing.Some? {
      TouchEvolves(me, source, server.rows, server.supply, existing.value, now + ttl);
    } else {
      FirstEvolves(me, source, server, request, now, ttl);
    }
  }

  lemma RefreshEvolves(me: UserId, source: SourceId, server: Server, user: UserId, from: SourceId, id: ImportId, now: Time, ttl: nat)
    requires RowsOk(server.rows, server.supply)
    ensures Evolves(me, source, server.rows, Refresh(server, user, from, id, now, ttl).0.rows)
  {
    var row := Lookup(server, user, from, id);
    EvolvesRefl(me, source, server.rows);
    if row.Granted? {
      TouchEvolves(me, source, server.rows, server.supply, row.value, now + ttl);
    }
  }

  lemma WorkEvolves(me: UserId, source: SourceId, server: Server, row: Import, status: ImportStatus, processed: nat)
    requires RowsOk(server.rows, server.supply) && row in server.rows && WorkerMoves(row, status, processed)
    ensures Evolves(me, source, server.rows, Work(server, row, status, processed).rows)
  {
    PutEvolves(me, source, server.rows, server.supply,
               row.(status := status, processed := processed, active := !status.Terminal()), row);
  }

  /** A complete call on an import that is not the client's. */
  lemma CommitEvolves(me: UserId, source: SourceId, c: Cloud, call: nat, now: Time)
    requires RowsOk(c.server.rows, c.server.supply)
    requires call in c.calls && c.calls[call].Holding? ==>
      forall row :: row in c.server.rows && row.id == c.calls[call].id ==> !Ours(me, source, row)
    ensures Evolves(me, source, c.server.rows, AfterCommit(c, call, now).server.rows)
  {
    EvolvesRefl(me, source, c.server.rows);
    if call in c.calls && c.calls[call].Holding? {
      var open := c.calls[call];
      var found := Lookup(c.server, open.user, open.source, open.id);
      if found.Granted? && found.value.status == AwaitingUpload {
        PutEvolves(me, source, c.server.rows, c.server.supply,
          found.value.(status := ImportQueued, queuedAt := Some(now), version := Some(open.stored.version)), found.value);
      }
    }
  }

  /** Every call but the driver's own is on an import that is not the client's. */
  ghost predicate OthersKeepOut(me: UserId, source: SourceId, rows: seq<Import>, calls: map<nat, Call>) {
    forall call :: call in calls && call != MY_CALL ==>
      match calls[call]
      case Looking(_, _, was) => !Ours(me, source, was)
      case Holding(_, _, id, _) => forall row :: row in rows && row.id == id ==> !Ours(me, source, row)
      case Dispatching(_) => true
  }

  lemma ForeignEvolves(d: Driver, event: Event)
    requires Steady(d.cloud) && Foreign(d, event)
    requires OthersKeepOut(d.me, d.source, d.cloud.server.rows, d.cloud.calls)
    ensures Evolves(d.me, d.source, d.cloud.server.rows, Happen(d.cloud, event).server.rows)
  {
    var server := d.cloud.server;
    EvolvesRefl(d.me, d.source, server.rows);
    match event
    case CreateCalled(request, now) => CreateEvolves(d.me, d.source, server, request, now, d.cloud.ttl);
    case ReplayWritten(id, expires) =>
      var row := RowById(server.rows, id);
      if row.Some? { TouchEvolves(d.me, d.source, server.rows, server.supply, row.value, expires); }
    case RefreshCalled(user, from, id, now) => RefreshEvolves(d.me, d.source, server, user, from, id, now, d.cloud.ttl);
    case CompleteCommitted(call, now) => CommitEvolves(d.me, d.source, d.cloud, call, now);
    case Worked(id, status, processed) =>
      var row := RowById(server.rows, id);
      if row.Some? && WorkerMoves(row.value, status, processed) {
        WorkEvolves(d.me, d.source, server, row.value, status, processed);
      }
    case _ =>
  }

  /** Rows evolve without touching what the calls are on. */
  lemma KeepOutEvolves(me: UserId, source: SourceId, before: seq<Import>, after: seq<Import>, calls: map<nat, Call>)
    requires OthersKeepOut(me, source, before, calls)
    requires |before| <= |after| && forall i :: 0 <= i < |before| ==> SameDeclaration(before[i], after[i])
    requires forall i, call :: |before| <= i < |after| && call in calls && call != MY_CALL && calls[call].Holding? ==>
      after[i].id != calls[call].id
    ensures OthersKeepOut(me, source, after, calls)
  {
  }
}
