/** What the driver may rely on at each place: the imports table of the client beside
    the imports table of the service. */
module Watching {
  import opened Prelude
  import opened Tables
  import opened Store
  import opened Transport
  import opened Captures
  import opened ImportService
  import opened ImportRuns
  import opened Delivery
  import opened Evolution

  datatype View = View(me: UserId, source: SourceId, bulks: seq<Bulk>, rows: seq<Import>)

  /** The import created for a snapshot of this source. */
  predicate Mine(v: View, snapshot: nat, row: Import) {
    row.user == v.me && row.key == ForSnapshot(v.source, snapshot)
  }

  datatype Fact = Anything | Unsent | Saw(status: ImportStatus) | Quiet

  predicate True(fact: Fact, status: ImportStatus) {
    match fact
    case Anything => true
    case Unsent => NeverQueued(status)
    case Saw(s) => StatusStep(s, status)
    case Quiet => !status.InFlight()
  }

  /** The fact holds of the snapshot's import on the service, if there is one. */
  ghost predicate Known(v: View, snapshot: nat, fact: Fact) {
    forall row :: row in v.rows && Mine(v, snapshot, row) ==> True(fact, row.status)
  }

  predicate Declared(k: Bulk, row: Import) {
    row.key.ForSnapshot? && row.key.snapshot == k.snapshot && row.entryCount == k.entryCount
  }

  ghost predicate DeclaredBySome(v: View, row: Import) {
    row.source == v.source && row.processed <= row.entryCount && exists k :: k in v.bulks && Declared(k, row)
  }

  ghost predicate BoundTo(v: View, snapshot: nat, id: ImportId) {
    exists row :: row in v.rows && row.id == id && Mine(v, snapshot, row)
  }

  ghost predicate LocalOk(v: View) {
    && (forall k :: k in v.bulks ==> k.source == v.source && k.processed <= k.entryCount)
    && (forall j, k :: j in v.bulks && k in v.bulks && j.snapshot == k.snapshot ==> j.id == k.id)
  }

  ghost predicate OursDeclared(v: View) {
    forall row :: row in v.rows && Ours(v.me, v.source, row) ==> DeclaredBySome(v, row)
  }

  ghost predicate AllBound(v: View) {
    forall k :: k in v.bulks && k.importId.Some? ==> BoundTo(v, k.snapshot, k.importId.value)
  }

  /** The two tables belong together. */
  ghost predicate Linked(v: View) { LocalOk(v) && OursDeclared(v) && AllBound(v) }

  /** A bulk import that is over for the client is not in flight on the service; one whose
      identifier was never saved was never queued there. */
  ghost predicate Quieted(v: View) {
    forall k :: k in v.bulks ==>
      (k.state.Terminal() ==> Known(v, k.snapshot, Quiet)) && (k.importId.None? ==> Known(v, k.snapshot, Unsent))
  }

  ghost predicate AllClosed(bulks: seq<Bulk>) {
    forall k :: k in bulks ==> k.state.Terminal()
  }

  ghost predicate OthersClosed(bulks: seq<Bulk>, id: BulkId) {
    forall k :: k in bulks && k.id != id ==> k.state.Terminal()
  }

  function FactAt(pc: Pc): Fact {
    match pc
    case EscapeRead(_, status, _) => Saw(status)
    case CheckRead(_, status, _, _) => Saw(status)
    case ReconcileRead(_, status, _) => Saw(status)
    case CompleteRead(_, status, _) => Saw(status)
    case PollRead(_, status, _) => Saw(status)
    case Polling(_, status) => Saw(status)
    case Abandoning(_) => Unsent
    case Refreshing(_) => Unsent
    case Reconciling(_) => Unsent
    case Uploading(_) => Unsent
    case Starting(_) => Unsent
    case Completing(_) => Unsent
    case Closing(_, _) => Quiet
    case Fetching(_) => Quiet
    case Applying(_) => Quiet
    case _ => Anything
  }

  /** A row that is over locally says so because the service did. */
  ghost predicate OverThere(v: View, k: Bulk) {
    k.state.Terminal() ==> k.state.Remote? && Known(v, k.snapshot, Saw(k.state.status))
  }

  /** The driver's own row, by where the driver is. */
  ghost predicate RowFits(v: View, k: Bulk, pc: Pc) {
    && Known(v, k.snapshot, FactAt(pc))
    && match pc
       case Creating(_) => !k.state.Terminal() && k.importId.None?
       case Binding(_, importId, status, _) =>
         && !k.state.Terminal() && k.importId.None? && Known(v, k.snapshot, Saw(status))
         && BoundTo(v, k.snapshot, importId)
       case Checking(_, _) => k.importId.Some? && OverThere(v, k) && k.state != Applied
       case CheckRead(_, status, processed, _) =>
         k.importId.Some? && processed <= k.entryCount && (k.state.Terminal() ==> k.state == Remote(status))
       case Polling(_, status) => k.importId.Some? && k.state == Remote(status)
       case Closing(_, status) => k.importId.Some? && k.state == Remote(status)
       case EscapeRead(_, _, processed) => k.importId.Some? && !k.state.Terminal() && processed <= k.entryCount
       case ReconcileRead(_, _, processed) => k.importId.Some? && !k.state.Terminal() && processed <= k.entryCount
       case CompleteRead(_, _, processed) => k.importId.Some? && !k.state.Terminal() && processed <= k.entryCount
       case PollRead(_, _, processed) => k.importId.Some? && !k.state.Terminal() && processed <= k.entryCount
       case _ => k.importId.Some? && !k.state.Terminal()
  }

  ghost predicate PcOk(v: View, pc: Pc) {
    if pc.Idle? then true
    else if pc.Flushing? || pc.Listing? || pc.Sending? then AllClosed(v.bulks)
    else
      var k := FindBulk(v.bulks, pc.bulk);
      k.Some? && OthersClosed(v.bulks, pc.bulk) && RowFits(v, k.value, pc)
  }

  // ---- The service moves on ----

  lemma KnownEvolves(v: View, rows: seq<Import>, snapshot: nat, fact: Fact)
    requires Evolves(v.me, v.source, v.rows, rows) && Known(v, snapshot, fact)
    ensures Known(v.(rows := rows), snapshot, fact)
  {
  }

  lemma BoundRetained(v: View, rows: seq<Import>, snapshot: nat, id: ImportId)
    requires Retains(v.me, v.source, v.rows, rows) && BoundTo(v, snapshot, id)
    ensures BoundTo(v.(rows := rows), snapshot, id)
  {
  }

  lemma DeclaredRetained(v: View, rows: seq<Import>, i: nat)
    requires OursDeclared(v) && Retains(v.me, v.source, v.rows, rows) && i < |rows| && Ours(v.me, v.source, rows[i])
    ensures DeclaredBySome(v.(rows := rows), rows[i])
  {
  }

  lemma LinkedRetained(v: View, rows: seq<Import>)
    requires Linked(v) && Retains(v.me, v.source, v.rows, rows)
    ensures Linked(v.(rows := rows))
  {
    var later := v.(rows := rows);
    forall row | row in rows && Ours(v.me, v.source, row) ensures DeclaredBySome(later, row) {
      var i :| 0 <= i < |rows| && rows[i] == row;
      DeclaredRetained(v, rows, i);
    }
    forall k | k in v.bulks && k.importId.Some? ensures BoundTo(later, k.snapshot, k.importId.value) {
      BoundRetained(v, rows, k.snapshot, k.importId.value);
    }
  }

  lemma QuietedEvolves(v: View, rows: seq<Import>)
    requires Quieted(v) && Evolves(v.me, v.source, v.rows, rows)
    ensures Quieted(v.(rows := rows))
  {
  }

  lemma RowFitsEvolves(v: View, rows: seq<Import>, k: Bulk, pc: Pc)
    requires RowFits(v, k, pc) && Evolves(v.me, v.source, v.rows, rows)
    ensures RowFits(v.(rows := rows), k, pc)
  {
    KnownEvolves(v, rows, k.snapshot, FactAt(pc));
    if pc.Binding? {
      KnownEvolves(v, rows, k.snapshot, Saw(pc.status));
      BoundRetained(v, rows, k.snapshot, pc.importId);
    } else if pc.Checking? && k.state.Terminal() {
      KnownEvolves(v, rows, k.snapshot, Saw(k.state.status));
    }
  }

  lemma PcOkEvolves(v: View, rows: seq<Import>, pc: Pc)
    requires PcOk(v, pc) && Evolves(v.me, v.source, v.rows, rows)
    ensures PcOk(v.(rows := rows), pc)
  {
    if !pc.Idle? && !pc.Flushing? && !pc.Listing? && !pc.Sending? {
      RowFitsEvolves(v, rows, FindBulk(v.bulks, pc.bulk).value, pc);
    }
  }

  // ---- One local row is written ----

  ghost predicate SameImport(a: Bulk, b: Bulk) {
    a.id == b.id && a.source == b.source && a.snapshot == b.snapshot && a.entryCount == b.entryCount
  }

  lemma SetKeepsOther(bulks: seq<Bulk>, row: Bulk, k: Bulk)
    requires k in bulks && k.id != row.id
    ensures k in SetBulk(bulks, row)
  {
  }

  lemma SetHasRow(bulks: seq<Bulk>, row: Bulk, was: Bulk)
    requires was in bulks && was.id == row.id
    ensures row in SetBulk(bulks, row)
  {
  }

  lemma SetLocalOk(v: View, row: Bulk, was: Bulk)
    requires LocalOk(v) && DistinctBulks(v.bulks) && was in v.bulks && SameImport(row, was) && row.processed <= row.entryCount
    ensures LocalOk(v.(bulks := SetBulk(v.bulks, row)))
  {
  }

  lemma SetDeclared(v: View, row: Bulk, was: Bulk)
    requires OursDeclared(v) && DistinctBulks(v.bulks) && was in v.bulks && SameImport(row, was)
    ensures OursDeclared(v.(bulks := SetBulk(v.bulks, row)))
  {
    var after := SetBulk(v.bulks, row);
    SetHasRow(v.bulks, row, was);
    forall r | r in v.rows && Ours(v.me, v.source, r) ensures DeclaredBySome(v.(bulks := after), r) {
      assert DeclaredBySome(v, r);
      var k :| k in v.bulks && Declared(k, r);
      if k.id == row.id {
        SameBulk(v.bulks, k, was);
        assert Declared(row, r);
      } else {
        SetKeepsOther(v.bulks, row, k);
      }
    }
  }

  lemma SetBound(v: View, row: Bulk, was: Bulk)
    requires AllBound(v) && DistinctBulks(v.bulks) && was in v.bulks && row.id == was.id
    requires row.importId.Some? ==> BoundTo(v, row.snapshot, row.importId.value)
    ensures AllBound(v.(bulks := SetBulk(v.bulks, row)))
  {
  }

  lemma SetLinked(v: View, row: Bulk, was: Bulk)
    requires Linked(v) && DistinctBulks(v.bulks) && was in v.bulks && SameImport(row, was)
    requires row.processed <= row.entryCount
    requires row.importId.Some? ==> BoundTo(v, row.snapshot, row.importId.value)
    ensures Linked(v.(bulks := SetBulk(v.bulks, row)))
  {
    SetLocalOk(v, row, was);
    SetDeclared(v, row, was);
    SetBound(v, row, was);
  }

  lemma SameBulk(bulks: seq<Bulk>, a: Bulk, b: Bulk)
    requires DistinctBulks(bulks) && a in bulks && b in bulks && a.id == b.id
    ensures a == b
  {
  }

  lemma SetQuieted(v: View, row: Bulk, was: Bulk)
    requires Quieted(v) && DistinctBulks(v.bulks) && was in v.bulks && row.id == was.id
    requires row.state.Terminal() ==> Known(v, row.snapshot, Quiet)
    requires row.importId.None? ==> Known(v, row.snapshot, Unsent)
    ensures Quieted(v.(bulks := SetBulk(v.bulks, row)))
  {
  }

  lemma SetClosed(bulks: seq<Bulk>, row: Bulk, was: Bulk)
    requires DistinctBulks(bulks) && was in bulks && row.id == was.id && OthersClosed(bulks, row.id)
    ensures OthersClosed(SetBulk(bulks, row), row.id)
    ensures row.state.Terminal() ==> AllClosed(SetBulk(bulks, row))
  {
  }

  /** Quiet follows from an import that was never queued, or was seen ended. */
  lemma QuietFrom(v: View, snapshot: nat, fact: Fact)
    requires Known(v, snapshot, fact)
    requires fact == Unsent || (fact.Saw? && (fact.status.Terminal() || fact.status == AwaitingUpload))
    ensures Known(v, snapshot, Quiet)
  {
  }

  // ---- What the driver may write, and where it may go ----

  /** What may be written into a row, and where the driver may go then. */
  ghost predicate Writable(v: View, row: Bulk, was: Bulk, next: Pc) {
    && was in v.bulks && SameImport(row, was) && OthersClosed(v.bulks, row.id) && row.processed <= row.entryCount
    && (row.importId.Some? ==> BoundTo(v, row.snapshot, row.importId.value))
    && (row.state.Terminal() ==> Known(v, row.snapshot, Quiet))
    && (row.importId.None? ==> Known(v, row.snapshot, Unsent))
    && (if next.Idle? then true
        else if next.Flushing? || next.Listing? || next.Sending? then row.state.Terminal()
        else next.bulk == row.id && RowFits(v, row, next))
  }

  /** What the invariant says about the row the driver is at. */
  ghost predicate AtRow(v: View, k: Bulk, pc: Pc) {
    && k in v.bulks && OthersClosed(v.bulks, k.id) && k.processed <= k.entryCount && RowFits(v, k, pc)
    && (k.importId.Some? ==> BoundTo(v, k.snapshot, k.importId.value))
    && (k.importId.None? ==> Known(v, k.snapshot, Unsent))
  }

  lemma AtRowFrom(v: View, pc: Pc)
    requires Linked(v) && Quieted(v) && PcOk(v, pc)
    requires !pc.Idle? && !pc.Flushing? && !pc.Listing? && !pc.Sending?
    ensures AtRow(v, FindBulk(v.bulks, pc.bulk).value, pc)
  {
  }

  lemma StatusWritable(v: View, k: Bulk, row: Bulk, pc: Pc)
    requires pc.EscapeRead? || pc.CheckRead? || pc.ReconcileRead? || pc.CompleteRead? || pc.PollRead?
    requires AtRow(v, k, pc) && pc.bulk == k.id
    requires row == k.(state := Remote(pc.status), serverStatus := Some(pc.status), processed := pc.processed)
    ensures Writable(v, row, k, AfterStatus(pc)) && pc.processed <= k.entryCount
  {
  }

  lemma BindingWritable(v: View, k: Bulk, row: Bulk, pc: Pc)
    requires pc.Binding? && AtRow(v, k, pc) && pc.bulk == k.id
    requires row == k.(importId := Some(pc.importId), serverStatus := Some(pc.status), state := Remote(pc.status))
    ensures Writable(v, row, k, Checking(pc.bulk, pc.plan))
  {
  }

  lemma ResultWritable(v: View, k: Bulk, pc: Pc, sha256: string)
    requires pc.Fetching? && AtRow(v, k, pc) && pc.bulk == k.id
    ensures Writable(v, k.(resultSha := Some(sha256), state := ResultReady), k, Applying(pc.bulk))
  {
  }

  lemma PageWritable(v: View, k: Bulk, pc: Pc, rows: nat)
    requires pc.Applying? && AtRow(v, k, pc) && pc.bulk == k.id
    ensures Writable(v, Advanced(k, rows), k, pc)
  {
  }

  lemma DoneWritable(v: View, k: Bulk, pc: Pc)
    requires pc.Applying? && AtRow(v, k, pc) && pc.bulk == k.id
    ensures Writable(v, k.(state := Applied), k, Idle)
  {
  }

  lemma ConcludeFits(v: View, pc: Pc)
    requires pc.Polling? && pc.status.Terminal() && PcOk(v, pc)
    ensures PcOk(v, Closing(pc.bulk, pc.status))
    ensures pc.status == Succeeded ==> PcOk(v, Fetching(pc.bulk))
  {
    QuietFrom(v, FindBulk(v.bulks, pc.bulk).value.snapshot, Saw(pc.status));
  }

  lemma FetchFits(v: View, pc: Pc)
    requires pc.Fetching? && PcOk(v, pc)
    ensures PcOk(v, Applying(pc.bulk))
  {
  }

  /** Everywhere between claiming and applying, the service cannot be working on the import. */
  lemma QuietHere(v: View, pc: Pc)
    requires Quieted(v) && PcOk(v, pc)
    requires pc.Creating? || pc.Refreshing? || pc.Uploading? || pc.Starting? || pc.Completing? || pc.Fetching? || pc.Applying?
    ensures FindBulk(v.bulks, pc.bulk).Some? && OthersClosed(v.bulks, pc.bulk)
    ensures FindBulk(v.bulks, pc.bulk).value.state != Applied && Known(v, FindBulk(v.bulks, pc.bulk).value.snapshot, Quiet)
  {
    var k := FindBulk(v.bulks, pc.bulk).value;
    if !pc.Fetching? && !pc.Applying? {
      QuietFrom(v, k.snapshot, Unsent);
    }
  }

  /** The import the service returns for a saved identifier is the one created for it. */
  lemma MyRow(v: View, supply: nat, k: Bulk, row: Import)
    requires Linked(v) && RowsOk(v.rows, supply) && DistinctBulks(v.bulks)
    requires k in v.bulks && k.importId == Some(row.id) && row in v.rows
    ensures Mine(v, k.snapshot, row) && row.processed <= k.entryCount && Known(v, k.snapshot, Saw(row.status))
  {
  }

  lemma ReadFits(v: View, k: Bulk, pc: Pc, row: Import)
    requires LocalOk(v) && k in v.bulks && Reads(pc) && RowFits(v, k, pc)
    requires row in v.rows && Mine(v, k.snapshot, row) && row.processed <= k.entryCount && Known(v, k.snapshot, Saw(row.status))
    ensures RowFits(v, k, AfterReading(pc, row.status, Progress(pc, row.processed, k.processed)))
  {
  }

  /** Reading the row of a saved identifier puts a true status in the driver's hands. */
  lemma ReadDone(v: View, supply: nat, pc: Pc, row: Import)
    requires Linked(v) && RowsOk(v.rows, supply) && DistinctBulks(v.bulks) && PcOk(v, pc) && Reads(pc)
    requires row in v.rows && FindBulk(v.bulks, pc.bulk).value.importId == Some(row.id)
    ensures PcOk(v, AfterReading(pc, row.status, Progress(pc, row.processed, FindBulk(v.bulks, pc.bulk).value.processed)))
  {
    var k := FindBulk(v.bulks, pc.bulk).value;
    MyRow(v, supply, k, row);
    ReadFits(v, k, pc, row);
  }

  /** The next place relies on no more than this one. */
  lemma SameFactFits(v: View, pc: Pc, next: Pc)
    requires PcOk(v, pc)
    requires (pc.Refreshing? && (next == Uploading(pc.bulk) || next == Reconciling(pc.bulk)))
      || (pc.Uploading? && next == Starting(pc.bulk)) || (pc.Starting? && next == Completing(pc.bulk))
    ensures PcOk(v, next)
  {
  }

  /** A complete call that was answered with the row as it is. */
  lemma CompleteFits(v: View, supply: nat, pc: Pc, row: Import)
    requires Linked(v) && RowsOk(v.rows, supply) && DistinctBulks(v.bulks) && PcOk(v, pc) && (pc.Starting? || pc.Completing?)
    requires row in v.rows && FindBulk(v.bulks, pc.bulk).value.importId == Some(row.id)
    ensures PcOk(v, CompleteRead(pc.bulk, row.status, row.processed))
  {
    MyRow(v, supply, FindBulk(v.bulks, pc.bulk).value, row);
  }

  /** A created or replayed import is known and bound to its snapshot. */
  lemma BindFits(v: View, supply: nat, pc: Pc, created: Import, plan: bool)
    requires RowsOk(v.rows, supply) && PcOk(v, pc) && pc.Creating?
    requires created in v.rows && Mine(v, FindBulk(v.bulks, pc.bulk).value.snapshot, created)
    ensures PcOk(v, Binding(pc.bulk, created.id, created.status, plan))
  {
  }

  // ---- The driver's own import appears, or is queued ----

  lemma OwnKnown(v: View, row: Import, snapshot: nat, own: nat, fact: Fact)
    requires Known(v, snapshot, fact) && Mine(v, own, row)
    requires snapshot == own ==> True(fact, row.status)
    ensures Known(v.(rows := v.rows + [row]), snapshot, fact)
  {
  }

  lemma OwnLinked(v: View, k: Bulk, row: Import)
    requires Linked(v) && k in v.bulks
    requires Mine(v, k.snapshot, row) && row.source == v.source && row.entryCount == k.entryCount && row.processed == 0
    ensures Linked(v.(rows := v.rows + [row]))
  {
  }

  lemma OwnQuieted(v: View, k: Bulk, row: Import)
    requires Quieted(v) && LocalOk(v) && DistinctBulks(v.bulks) && k in v.bulks && !k.state.Terminal()
    requires Mine(v, k.snapshot, row) && row.status == AwaitingUpload
    ensures Quieted(v.(rows := v.rows + [row]))
  {
  }

  /** Queueing the driver's import changes what is known of that import only. */
  lemma QueuedKnown(v: View, supply: nat, row: Import, was: Import, own: nat, snapshot: nat, fact: Fact)
    requires RowsOk(v.rows, supply) && was in v.rows && SameDeclaration(was, row) && Mine(v, own, was)
    requires Known(v, snapshot, fact) && snapshot != own
    ensures Known(v.(rows := Put(v.rows, row)), snapshot, fact)
  {
  }

  lemma QueuedQuieted(v: View, supply: nat, k: Bulk, row: Import, was: Import)
    requires Quieted(v) && LocalOk(v) && RowsOk(v.rows, supply) && DistinctBulks(v.bulks)
    requires k in v.bulks && !k.state.Terminal() && k.importId.Some?
    requires was in v.rows && SameDeclaration(was, row) && Mine(v, k.snapshot, was)
    ensures Quieted(v.(rows := Put(v.rows, row)))
  {
    var later := v.(rows := Put(v.rows, row));
    forall j | j in v.bulks
      ensures (j.state.Terminal() ==> Known(later, j.snapshot, Quiet)) && (j.importId.None? ==> Known(later, j.snapshot, Unsent))
    {
      if j.snapshot == k.snapshot {
        SameBulk(v.bulks, j, k);
      } else {
        if j.state.Terminal() { QueuedKnown(v, supply, row, was, k.snapshot, j.snapshot, Quiet); }
        if j.importId.None? { QueuedKnown(v, supply, row, was, k.snapshot, j.snapshot, Unsent); }
      }
    }
  }

  lemma QueuedLinked(v: View, supply: nat, row: Import, was: Import)
    requires Linked(v) && RowsOk(v.rows, supply) && was in v.rows && SameDeclaration(was, row) && row.processed == was.processed
    ensures Linked(v.(rows := Put(v.rows, row)))
  {
    PutRedeclares(v.rows, row, was, supply);
    LinkedRetained(v, Put(v.rows, row));
  }

  lemma MineAfter(v: View, supply: nat, k: Bulk, row: Import, was: Import, rows: seq<Import>)
    requires RowsOk(v.rows, supply) && was in v.rows && Mine(v, k.snapshot, was)
    requires row == was.(status := ImportQueued, queuedAt := row.queuedAt, version := row.version) && rows == Put(v.rows, row)
    ensures row in rows && forall r :: r in rows && Mine(v, k.snapshot, r) ==> r == row
  {
    PutRedeclares(v.rows, row, was, supply);
    forall r | r in rows && Mine(v, k.snapshot, r) ensures r == row {
      var i :| 0 <= i < |rows| && rows[i] == r;
      assert v.rows[i] in v.rows && Mine(v, k.snapshot, v.rows[i]);
      SameKeyRow(v.rows, supply, v.rows[i], was);
    }
  }

  lemma QueuedFits(v: View, supply: nat, pc: Pc, row: Import, was: Import, later: View)
    requires Linked(v) && RowsOk(v.rows, supply) && DistinctBulks(v.bulks) && PcOk(v, pc) && pc.Completing?
    requires was in v.rows && FindBulk(v.bulks, pc.bulk).value.importId == Some(was.id)
    requires row == was.(status := ImportQueued, queuedAt := row.queuedAt, version := row.version)
    requires later == v.(rows := Put(v.rows, row))
    ensures PcOk(later, CompleteRead(pc.bulk, row.status, row.processed))
  {
    var k := FindBulk(v.bulks, pc.bulk).value;
    MyRow(v, supply, k, was);
    MineAfter(v, supply, k, row, was, later.rows);
  }
}
