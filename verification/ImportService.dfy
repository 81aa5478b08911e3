/** The service's control plane for bulk imports. Every function is one database
    transaction; complete is two of them with a look at the stored object between. */
module ImportService {
  import opened Prelude
  import opened Tables

  type UserId = string
  type Time = nat

  /** A client derives a bulk import's key from its source and snapshot. */
  datatype ImportKey = ForSnapshot(source: SourceId, snapshot: nat) | OtherKey(text: string)

  datatype Request = Request(user: UserId, source: SourceId, snapshot: nat, key: ImportKey, requestHash: string,
    checksum: string, bytes: nat, entryCount: nat)

  /** A ManifestImport row. The object key is derived from the identifier. */
  datatype Import = Import(id: ImportId, user: UserId, source: SourceId, snapshot: nat, key: ImportKey, requestHash: string,
    active: bool, status: ImportStatus, checksum: string, bytes: nat, entryCount: nat, processed: nat,
    uploadExpires: Time, queuedAt: Option<Time>, version: Option<nat>)

  datatype Failure = UnknownAccount | KeyReused | UnknownSource | SourceUnavailable | ImportActive | ImportConflict
    | UnknownImport | NotAwaitingUpload | StorageUnavailable | ObjectMissing | ObjectMismatch

  datatype Reply<+T> = Granted(value: T) | Refused(failure: Failure)

  /** accounts holds the active ones; a source maps to whether it is an active Local one. */
  datatype Server = Server(accounts: set<UserId>, sources: map<(UserId, SourceId), bool>, rows: seq<Import>, supply: nat)

  datatype StoredObject = StoredObject(bytes: nat, checksum: string, contentTypeFits: bool, version: nat)

  // ---- Queries ----

  function FindKey(rows: seq<Import>, user: UserId, key: ImportKey): (r: Option<Import>)
    ensures r.Some? ==> r.value in rows && r.value.user == user && r.value.key == key
    ensures r.None? <==> forall row :: row in rows && row.user == user ==> row.key != key
  {
    if rows == [] then None
    else
      var last := rows[|rows| - 1];
      if last.user == user && last.key == key then Some(last) else FindKey(rows[..|rows| - 1], user, key)
  }

  function FindActive(rows: seq<Import>, user: UserId, source: SourceId): (r: Option<Import>)
    ensures r.Some? ==> r.value in rows && r.value.user == user && r.value.source == source && r.value.active
    ensures r.None? <==> forall row :: row in rows && row.user == user && row.source == source ==> !row.active
  {
    if rows == [] then None
    else
      var last := rows[|rows| - 1];
      if last.user == user && last.source == source && last.active then Some(last)
      else FindActive(rows[..|rows| - 1], user, source)
  }

  function FindImport(rows: seq<Import>, user: UserId, source: SourceId, id: ImportId): (r: Option<Import>)
    ensures r.Some? ==> r.value in rows && r.value.user == user && r.value.source == source && r.value.id == id
    ensures r.None? <==> forall row :: row in rows && row.user == user && row.source == source ==> row.id != id
  {
    if rows == [] then None
    else
      var last := rows[|rows| - 1];
      if last.user == user && last.source == source && last.id == id then Some(last)
      else FindImport(rows[..|rows| - 1], user, source, id)
  }

  predicate SnapshotTaken(rows: seq<Import>, user: UserId, source: SourceId, snapshot: nat) {
    exists row :: row in rows && row.user == user && row.source == source && row.snapshot == snapshot
  }

  /** Write one row back. */
  function Put(rows: seq<Import>, row: Import): (r: seq<Import>)
    ensures |r| == |rows|
    ensures forall i :: 0 <= i < |rows| ==> r[i] == if rows[i].id == row.id then row else rows[i]
  {
    seq(|rows|, i requires 0 <= i < |rows| => if rows[i].id == row.id then row else rows[i])
  }

  /** _import */
  function Lookup(server: Server, user: UserId, source: SourceId, id: ImportId): Reply<Import> {
    if user !in server.accounts then Refused(UnknownAccount)
    else if (user, source) !in server.sources then Refused(UnknownSource)
    else
      match FindImport(server.rows, user, source, id)
      case None => Refused(UnknownImport)
      case Some(row) => Granted(row)
  }

  // ---- create ----

  predicate UploadLapsed(row: Import, now: Time) {
    row.status == AwaitingUpload && row.uploadExpires <= now
  }

  function Expire(row: Import): Import {
    row.(status := Expired, active := false)
  }

  function NewImport(request: Request, id: ImportId, expires: Time): Import {
    Import(id, request.user, request.source, request.snapshot, request.key, request.requestHash, true, AwaitingUpload,
           request.checksum, request.bytes, request.entryCount, 0, expires, None, None)
  }

  /** Insert the new row, or have the unique snapshot index refuse it. */
  function Insert(server: Server, request: Request, expires: Time): Reply<(Server, Import)> {
    if SnapshotTaken(server.rows, request.user, request.source, request.snapshot) then Refused(ImportConflict)
    else
      var row := NewImport(request, server.supply, expires);
      Granted((server.(rows := server.rows + [row], supply := server.supply + 1), row))
  }

  /** A refused insert rolls back to the server it found. */
  function Inserted(server: Server, reply: Reply<(Server, Import)>): (Server, Reply<(Import, bool)>) {
    match reply
    case Refused(failure) => (server, Refused(failure))
    case Granted((after, row)) => (after, Granted((row, false)))
  }

  function Create(server: Server, request: Request, now: Time, ttl: nat): (Server, Reply<(Import, bool)>) {
    if request.user !in server.accounts then (server, Refused(UnknownAccount))
    else
      match FindKey(server.rows, request.user, request.key)
      case Some(existing) =>
        if existing.requestHash != request.requestHash then (server, Refused(KeyReused))
        else if existing.status == AwaitingUpload
        then
          var row := existing.(uploadExpires := now + ttl);
          (server.(rows := Put(server.rows, row)), Granted((row, true)))
        else (server, Granted((existing, true)))
      case None =>
        if (request.user, request.source) !in server.sources then (server, Refused(UnknownSource))
        else if !server.sources[(request.user, request.source)] then (server, Refused(SourceUnavailable))
        else
          match FindActive(server.rows, request.user, request.source)
          case None => Inserted(server, Insert(server, request, now + ttl))
          case Some(active) =>
            if UploadLapsed(active, now)
            then Inserted(server, Insert(server.(rows := Put(server.rows, Expire(active))), request, now + ttl))
            else (server, Refused(ImportActive))
  }

  // ---- refresh_upload ----

  function Refresh(server: Server, user: UserId, source: SourceId, id: ImportId, now: Time, ttl: nat): (Server, Reply<Import>) {
    match Lookup(server, user, source, id)
    case Refused(failure) => (server, Refused(failure))
    case Granted(row) =>
      if row.status != AwaitingUpload then (server, Refused(NotAwaitingUpload))
      else
        var later := row.(uploadExpires := now + ttl);
        (server.(rows := Put(server.rows, later)), Granted(later))
  }

  // ---- complete ----

  /** The first transaction: answer at once, or go on to look at the object. */
  datatype Begun = Already(row: Import) | Expecting(row: Import)

  function BeginComplete(server: Server, user: UserId, source: SourceId, id: ImportId): Reply<Begun> {
    match Lookup(server, user, source, id)
    case Refused(failure) => Refused(failure)
    case Granted(row) => Granted(if row.status == AwaitingUpload then Expecting(row) else Already(row))
  }

  predicate Matches(row: Import, stored: StoredObject) {
    stored.bytes == row.bytes && stored.checksum == row.checksum && stored.contentTypeFits
  }

  /** head_object outside any transaction; None stands for an unreachable store. */
  function CheckObject(row: Import, head: Option<Option<StoredObject>>): Reply<StoredObject> {
    match head
    case None => Refused(StorageUnavailable)
    case Some(None) => Refused(ObjectMissing)
    case Some(Some(stored)) => if Matches(row, stored) then Granted(stored) else Refused(ObjectMismatch)
  }

  /** The second transaction, on the row as it is by then; the flag says whether to dispatch. */
  function CommitComplete(server: Server, user: UserId, source: SourceId, id: ImportId, stored: StoredObject, now: Time)
    : (Server, Reply<(Import, bool)>)
  {
    match Lookup(server, user, source, id)
    case Refused(failure) => (server, Refused(failure))
    case Granted(row) =>
      if row.status == AwaitingUpload
      then
        var queued := row.(status := ImportQueued, queuedAt := Some(now), version := Some(stored.version));
        (server.(rows := Put(server.rows, queued)), Granted((queued, true)))
      else (server, Granted((row, false)))
  }

  // ---- The worker, which this service does not contain ----

  /** Claim a due import, report progress, give it back for a retry, or finish it.
      A terminal status clears the active marker. */
  predicate WorkerMoves(row: Import, status: ImportStatus, processed: nat) {
    && row.status.InFlight() && processed <= row.entryCount
    && (status == Running
        || (status == RetryDue && row.status == Running)
        || status == FailedPermanent
        || (status in {Succeeded, CompletedWithErrors} && row.status == Running))
  }

  function Work(server: Server, row: Import, status: ImportStatus, processed: nat): Server {
    server.(rows := Put(server.rows, row.(status := status, processed := processed, active := !status.Terminal())))
  }

  // ---- The service object ----

  class ManifestImportService {
    var accounts: set<UserId>
    var sources: map<(UserId, SourceId), bool>
    var rows: seq<Import>
    var supply: nat
    const uploadTtl: nat

    constructor (ttl: nat)
      ensures uploadTtl == ttl && State() == Server({}, map[], [], 0)
    {
      accounts, sources, rows, supply, uploadTtl := {}, map[], [], 0, ttl;
    }

    ghost function State(): Server
      reads this
    {
      Server(accounts, sources, rows, supply)
    }

    method Save(row: Import)
      modifies this`rows
      ensures rows == Put(old(rows), row)
    {
      var saved := [];
      for i := 0 to |rows|
        invariant rows == old(rows)
        invariant saved == Put(rows, row)[..i]
      {
        saved := saved + [if rows[i].id == row.id then row else rows[i]];
      }
      rows := saved;
    }

    /** create: a refusal rolls everything back, an expired predecessor included. */
    method CreateImport(request: Request, now: Time) returns (reply: Reply<(Import, bool)>)
      modifies this`rows, this`supply
      ensures (State(), reply) == Create(old(State()), request, now, uploadTtl)
    {
      if request.user !in accounts {
        return Refused(UnknownAccount);
      }
      var existing := FindKey(rows, request.user, request.key);
      if existing.Some? {
        var row := existing.value;
        if row.requestHash != request.requestHash {
          return Refused(KeyReused);
        }
        if row.status == AwaitingUpload {
          row := row.(uploadExpires := now + uploadTtl);
          Save(row);
        }
        return Granted((row, true));
      }
      if (request.user, request.source) !in sources {
        return Refused(UnknownSource);
      }
      if !sources[(request.user, request.source)] {
        return Refused(SourceUnavailable);
      }
      var before := rows;
      var active := FindActive(rows, request.user, request.source);
      if active.Some? {
        if !UploadLapsed(active.value, now) {
          return Refused(ImportActive);
        }
        Save(Expire(active.value));
      }
      if SnapshotTaken(rows, request.user, request.source, request.snapshot) {
        rows := before;
        return Refused(ImportConflict);
      }
      var row := NewImport(request, supply, now + uploadTtl);
      rows, supply := rows + [row], supply + 1;
      reply := Granted((row, false));
    }

    method RefreshUpload(user: UserId, source: SourceId, id: ImportId, now: Time) returns (reply: Reply<Import>)
      modifies this`rows
      ensures (State(), reply) == Refresh(old(State()), user, source, id, now, uploadTtl)
    {
      var found := Require(user, source, id);
      if found.Refused? {
        return Refused(found.failure);
      }
      if found.value.status != AwaitingUpload {
        return Refused(NotAwaitingUpload);
      }
      var row := found.value.(uploadExpires := now + uploadTtl);
      Save(row);
      reply := Granted(row);
    }

    method Require(user: UserId, source: SourceId, id: ImportId) returns (reply: Reply<Import>)
      ensures reply == Lookup(State(), user, source, id)
    {
      if user !in accounts {
        return Refused(UnknownAccount);
      }
      if (user, source) !in sources {
        return Refused(UnknownSource);
      }
      var found := FindImport(rows, user, source, id);
      reply := if found.Some? then Granted(found.value) else Refused(UnknownImport);
    }

    method BeginCompletion(user: UserId, source: SourceId, id: ImportId) returns (reply: Reply<Begun>)
      ensures reply == BeginComplete(State(), user, source, id)
    {
      var found := Require(user, source, id);
      if found.Refused? {
        return Refused(found.failure);
      }
      if found.value.status.InFlight() || found.value.status.Terminal() {
        return Granted(Already(found.value));
      }
      reply := Granted(Expecting(found.value));
    }

    method CommitCompletion(user: UserId, source: SourceId, id: ImportId, stored: StoredObject, now: Time)
      returns (reply: Reply<(Import, bool)>)
      modifies this`rows
      ensures (State(), reply) == CommitComplete(old(State()), user, source, id, stored, now)
    {
      var found := Require(user, source, id);
      if found.Refused? {
        return Refused(found.failure);
      }
      var row, queued := found.value, false;
      if row.status == AwaitingUpload {
        row := row.(status := ImportQueued, queuedAt := Some(now), version := Some(stored.version));
        Save(row);
        queued := true;
      }
      reply := Granted((row, queued));
    }
  }
}
