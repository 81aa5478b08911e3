/** What one sync run queues: the scan compared with what is known, cut into
    manifest payloads, and why a fully accepted run leaves nothing to do. */
module SyncDiff {
  import opened Prelude
  import opened Tables
  import opened Inventory
  import opened Store
  import opened Transport
  import opened Splitting

  const MANIFEST_BATCH_SIZE := 100

  /** A finished scan: its entries, whether every directory was read, and every item seen. */
  datatype ScanOutcome = ScanOutcome(entries: seq<Entry>, complete: bool, seen: set<ItemId>)

  /** What the scanner guarantees: upserts of named items, all of them seen. */
  ghost predicate Scanned(scan: ScanOutcome) {
    forall e :: e in scan.entries ==> e.operation == Upsert && e.itemId in scan.seen && e.revision != ""
  }

  // ---- quarantined_revisions ----

  function BlockedBy(failures: seq<Failure>, blocked: map<ItemId, string>): map<ItemId, string> {
    if failures == [] then blocked
    else
      var before, last := BlockedBy(failures[..|failures| - 1], blocked), failures[|failures| - 1];
      match last.entry
      case Some(e) => if e.itemId != "" && e.revision != "" then before[e.itemId := e.revision] else before
      case None => before
  }

  function Quarantined(outbox: seq<Batch>, source: SourceId): map<ItemId, string> {
    if outbox == [] then map[]
    else
      var before, last := Quarantined(outbox[..|outbox| - 1], source), outbox[|outbox| - 1];
      if last.source == source && last.state == Failed then BlockedBy(last.note.Recorded(), before) else before
  }

  predicate IsBlocked(blocked: map<ItemId, string>, item: ItemId, revision: string) {
    item in blocked && blocked[item] == revision
  }

  // ---- The diff ----

  predicate IsUnchanged(known: map<Key, Occurrence>, source: SourceId, e: Entry) {
    (source, e.itemId) in known && known[(source, e.itemId)].revision == e.revision
  }

  predicate IsChanged(known: map<Key, Occurrence>, blocked: map<ItemId, string>, source: SourceId, e: Entry) {
    !IsUnchanged(known, source, e) && !IsBlocked(blocked, e.itemId, e.revision)
  }

  function Changed(entries: seq<Entry>, known: map<Key, Occurrence>, blocked: map<ItemId, string>, source: SourceId): seq<Entry> {
    if entries == [] then []
    else
      var last := entries[|entries| - 1];
      var front := Changed(entries[..|entries| - 1], known, blocked, source);
      if IsChanged(known, blocked, source, last) then front + [last] else front
  }

  function Deletion(item: ItemId, revision: string): Entry {
    Entry(Deleted, item, revision, "", "", "", "")
  }

  predicate IsGone(known: map<Key, Occurrence>, blocked: map<ItemId, string>, source: SourceId, seen: set<ItemId>, item: ItemId) {
    (source, item) in known && item !in seen && !IsBlocked(blocked, item, known[(source, item)].revision)
  }

  /** The rows of known_occurrences, in whatever order the query returns them. */
  function Gone(order: seq<ItemId>, known: map<Key, Occurrence>, blocked: map<ItemId, string>, source: SourceId,
                seen: set<ItemId>): seq<Entry>
  {
    if order == [] then []
    else
      var last := order[|order| - 1];
      var front := Gone(order[..|order| - 1], known, blocked, source, seen);
      if IsGone(known, blocked, source, seen, last) then front + [Deletion(last, known[(source, last)].revision)] else front
  }

  lemma {:induction false} ChangedMembers(entries: seq<Entry>, known: map<Key, Occurrence>, blocked: map<ItemId, string>, source: SourceId)
    ensures forall e :: e in Changed(entries, known, blocked, source) <==> e in entries && IsChanged(known, blocked, source, e)
    ensures Changed(entries, known, blocked, source) == [] <==> forall e :: e in entries ==> !IsChanged(known, blocked, source, e)
  {
    if entries != [] {
      ChangedMembers(entries[..|entries| - 1], known, blocked, source);
      assert entries == entries[..|entries| - 1] + [entries[|entries| - 1]];
    }
  }

  lemma {:induction false} GoneMembers(order: seq<ItemId>, known: map<Key, Occurrence>, blocked: map<ItemId, string>, source: SourceId,
                                       seen: set<ItemId>)
    ensures forall e :: e in Gone(order, known, blocked, source, seen) ==>
      e.operation == Deleted && e.itemId in order && IsGone(known, blocked, source, seen, e.itemId)
    ensures forall item :: item in order && IsGone(known, blocked, source, seen, item) ==>
      Deletion(item, known[(source, item)].revision) in Gone(order, known, blocked, source, seen)
    ensures Gone(order, known, blocked, source, seen) == [] <==> forall item :: item in order ==> !IsGone(known, blocked, source, seen, item)
  {
    if order != [] {
      GoneMembers(order[..|order| - 1], known, blocked, source, seen);
      assert order == order[..|order| - 1] + [order[|order| - 1]];
    }
  }

  ghost predicate Enumerates(order: seq<ItemId>, known: map<Key, Occurrence>, source: SourceId) {
    forall item :: item in order <==> (source, item) in known
  }

  /** Everything a run queues: changed entries, then deletions if the read was complete. */
  function Diff(scan: ScanOutcome, order: seq<ItemId>, known: map<Key, Occurrence>, blocked: map<ItemId, string>, source: SourceId): seq<Entry> {
    Changed(scan.entries, known, blocked, source)
      + if scan.complete then Gone(order, known, blocked, source, scan.seen) else []
  }

  method ChangedEntries(scan: ScanOutcome, known: map<Key, Occurrence>, blocked: map<ItemId, string>, source: SourceId)
    returns (changed: seq<Entry>, same: nat, held: nat)
    ensures changed == Changed(scan.entries, known, blocked, source)
    ensures same + held + |changed| == |scan.entries|
  {
    changed, same, held := [], 0, 0;
    for i := 0 to |scan.entries|
      invariant changed == Changed(scan.entries[..i], known, blocked, source)
      invariant same + held + |changed| == i
    {
      var e := scan.entries[i];
      assert scan.entries[..i + 1][..i] == scan.entries[..i];
      if (source, e.itemId) in known && known[(source, e.itemId)].revision == e.revision {
        same := same + 1;
      } else if e.itemId in blocked && blocked[e.itemId] == e.revision {
        held := held + 1;
      } else {
        changed := changed + [e];
      }
    }
    assert scan.entries[..|scan.entries|] == scan.entries;
  }

  method DeletedEntries(order: seq<ItemId>, known: map<Key, Occurrence>, blocked: map<ItemId, string>, source: SourceId,
                        seen: set<ItemId>) returns (deleted: seq<Entry>)
    requires Enumerates(order, known, source)
    ensures deleted == Gone(order, known, blocked, source, seen)
  {
    deleted := [];
    for i := 0 to |order|
      invariant deleted == Gone(order[..i], known, blocked, source, seen)
    {
      assert order[..i + 1][..i] == order[..i];
      var item := order[i];
      assert item in order;
      if item !in seen {
        if !(item in blocked && blocked[item] == known[(source, item)].revision) {
          deleted := deleted + [Deletion(item, known[(source, item)].revision)];
        }
      }
    }
    assert order[..|order|] == order;
  }

  // ---- _manifest_payloads ----

  function PayloadOf(scan: ScanId, complete: bool, entries: seq<Entry>): Payload {
    Payload("Full", "NotApplicable", None, complete, scan, entries)
  }

  function Head(entries: seq<Entry>): nat {
    if MANIFEST_BATCH_SIZE <= |entries| then MANIFEST_BATCH_SIZE else |entries|
  }

  function ManifestPayloads(scan: ScanId, entries: seq<Entry>, complete: bool): seq<Payload>
    decreases |entries|
  {
    if |entries| == 0 then []
    else [PayloadOf(scan, complete, entries[..Head(entries)])] + ManifestPayloads(scan, entries[Head(entries)..], complete)
  }

  /** The entries from an offset on; none past the end. */
  function From(entries: seq<Entry>, offset: nat): seq<Entry> {
    if offset < |entries| then entries[offset..] else []
  }

  ghost predicate Built(payloads: seq<Payload>, scan: ScanId, entries: seq<Entry>, complete: bool, offset: nat) {
    payloads + ManifestPayloads(scan, From(entries, offset), complete) == ManifestPayloads(scan, entries, complete)
  }

  lemma NextPayload(scan: ScanId, entries: seq<Entry>, complete: bool, offset: nat, end: nat)
    requires offset < |entries| && end == offset + Head(entries[offset..])
    ensures ManifestPayloads(scan, From(entries, offset), complete)
         == [PayloadOf(scan, complete, entries[offset..end])]
            + ManifestPayloads(scan, From(entries, offset + MANIFEST_BATCH_SIZE), complete)
  {
    var rest := entries[offset..];
    assert rest[..Head(rest)] == entries[offset..end];
    assert rest[Head(rest)..] == From(entries, offset + MANIFEST_BATCH_SIZE);
  }

  lemma Regroup<T>(a: seq<T>, b: seq<T>, c: seq<T>)
    ensures a + (b + c) == (a + b) + c
  {
  }

  lemma BuiltStep(payloads: seq<Payload>, scan: ScanId, entries: seq<Entry>, complete: bool, offset: nat, end: nat)
    requires Built(payloads, scan, entries, complete, offset) && offset < |entries| && end == offset + Head(entries[offset..])
    ensures Built(payloads + [PayloadOf(scan, complete, entries[offset..end])], scan, entries, complete,
                  offset + MANIFEST_BATCH_SIZE)
  {
    NextPayload(scan, entries, complete, offset, end);
    Regroup(payloads, [PayloadOf(scan, complete, entries[offset..end])],
            ManifestPayloads(scan, From(entries, offset + MANIFEST_BATCH_SIZE), complete));
  }

  lemma BuiltStart(scan: ScanId, entries: seq<Entry>, complete: bool)
    ensures Built([], scan, entries, complete, 0)
  {
  }

  lemma BuiltEnd(payloads: seq<Payload>, scan: ScanId, entries: seq<Entry>, complete: bool, offset: nat)
    requires Built(payloads, scan, entries, complete, offset) && offset >= |entries|
    ensures payloads == ManifestPayloads(scan, entries, complete)
  {
  }

  method BuildPayloads(scan: ScanId, entries: seq<Entry>, complete: bool) returns (payloads: seq<Payload>)
    ensures payloads == ManifestPayloads(scan, entries, complete)
  {
    payloads := [];
    var offset := 0;
    BuiltStart(scan, entries, complete);
    while offset < |entries|
      invariant Built(payloads, scan, entries, complete, offset)
    {
      var end := if offset + MANIFEST_BATCH_SIZE <= |entries| then offset + MANIFEST_BATCH_SIZE else |entries|;
      BuiltStep(payloads, scan, entries, complete, offset, end);
      payloads := payloads + [PayloadOf(scan, complete, entries[offset..end])];
      offset := offset + MANIFEST_BATCH_SIZE;
    }
    BuiltEnd(payloads, scan, entries, complete, offset);
  }

  /** The payloads carry the entries in order, at most a hundred each. */
  lemma {:induction false} PayloadsCarryEntries(scan: ScanId, entries: seq<Entry>, complete: bool)
    ensures PayloadEntries(ManifestPayloads(scan, entries, complete)) == entries
    ensures forall p :: p in ManifestPayloads(scan, entries, complete) ==>
      1 <= |p.entries| <= MANIFEST_BATCH_SIZE && p == PayloadOf(scan, complete, p.entries)
    decreases |entries|
  {
    if |entries| > 0 {
      var first, rest := entries[..Head(entries)], entries[Head(entries)..];
      PayloadsCarryEntries(scan, rest, complete);
      var payload := PayloadOf(scan, complete, first);
      PayloadEntriesAppend([payload], ManifestPayloads(scan, rest, complete));
      assert PayloadEntries([payload]) == PayloadEntries([]) + first;
      assert first + rest == entries;
    }
  }

  // ---- After every batch is accepted ----

  function KnownAll(known: map<Key, Occurrence>, source: SourceId, entries: seq<Entry>): map<Key, Occurrence> {
    if entries == [] then known
    else KnownThen(KnownAll(known, source, entries[..|entries| - 1]), source, entries[|entries| - 1])
  }

  lemma {:induction false} AllVerdictsTrue(known: map<Key, Occurrence>, source: SourceId, entries: seq<Entry>, verdicts: seq<bool>)
    requires |entries| == |verdicts| && forall i :: 0 <= i < |verdicts| ==> verdicts[i]
    ensures KnownAfter(known, source, entries, verdicts) == KnownAll(known, source, entries)
  {
    if entries != [] {
      AllVerdictsTrue(known, source, entries[..|entries| - 1], verdicts[..|verdicts| - 1]);
    }
  }

  lemma {:induction false} KnownAllAppend(known: map<Key, Occurrence>, source: SourceId, a: seq<Entry>, b: seq<Entry>)
    ensures KnownAll(known, source, a + b) == KnownAll(KnownAll(known, source, a), source, b)
  {
    if b == [] {
      assert a + b == a;
    } else {
      assert (a + b)[..|a + b| - 1] == a + b[..|b| - 1];
      KnownAllAppend(known, source, a, b[..|b| - 1]);
    }
  }

  /** Acknowledge the first n batches in order, each with its own answer. */
  function AcknowledgeFirst(st: Store, batches: seq<Batch>, answers: seq<Response>, n: nat): Store
    requires n <= |batches| == |answers|
  {
    if n == 0 then st
    else Acknowledge(AcknowledgeFirst(st, batches, answers, n - 1), batches[n - 1], answers[n - 1])
  }

  ghost predicate FullyAccepted(batches: seq<Batch>, answers: seq<Response>) {
    |batches| == |answers| && forall i :: 0 <= i < |batches| ==> Failures(batches[i].payload, answers[i]) == []
  }

  lemma {:induction false} NoFailuresNoObjections(entries: seq<Entry>, payload: Payload, answer: Response)
    requires Objections(entries, payload, answer) == []
    ensures forall e :: e in entries ==> Accepted(e, payload, answer)
  {
    if entries != [] {
      NoFailuresNoObjections(entries[..|entries| - 1], payload, answer);
    }
  }

  lemma AcceptedBatch(st: Store, batch: Batch, answer: Response)
    requires Failures(batch.payload, answer) == []
    ensures Acknowledge(st, batch, answer).inv.known == KnownAll(st.inv.known, batch.source, batch.Entries())
    ensures Acknowledge(st, batch, answer).outbox == Mark(st.outbox, {batch.id}, false, Sent, NoNote)
  {
    var entries := batch.Entries();
    NoFailuresNoObjections(entries, batch.payload, answer);
    AcknowledgedKnown(st.inv, batch.source, entries, batch.payload, answer);
    AllVerdictsTrue(st.inv.known, batch.source, entries, Verdicts(entries, batch.payload, answer));
  }

  /** No row of the outbox that is Failed carries one of these identifiers. */
  ghost predicate NoneFailed(outbox: seq<Batch>, batches: seq<Batch>) {
    forall b, c :: b in outbox && c in batches && b.id == c.id ==> b.state != Failed
  }

  lemma {:induction false} SentKeepsQuarantine(outbox: seq<Batch>, id: BatchId, source: SourceId)
    requires forall b :: b in outbox && b.id == id ==> b.state != Failed
    ensures Quarantined(Mark(outbox, {id}, false, Sent, NoNote), source) == Quarantined(outbox, source)
  {
    if outbox != [] {
      var n := |outbox| - 1;
      assert Mark(outbox, {id}, false, Sent, NoNote)[..n] == Mark(outbox[..n], {id}, false, Sent, NoNote);
      assert outbox[n] in outbox;
      SentKeepsQuarantine(outbox[..n], id, source);
    }
  }

  /** The batches so far have been recorded, and nothing was quarantined. */
  ghost predicate Settled(st: Store, end: Store, source: SourceId, done: seq<Entry>, batches: seq<Batch>) {
    && end.inv.known == KnownAll(st.inv.known, source, done)
    && Quarantined(end.outbox, source) == Quarantined(st.outbox, source)
    && NoneFailed(end.outbox, batches)
  }

  lemma OneMore(st: Store, middle: Store, source: SourceId, done: seq<Entry>, batches: seq<Batch>, batch: Batch, answer: Response)
    requires Settled(st, middle, source, done, batches)
    requires batch in batches && batch.source == source && Failures(batch.payload, answer) == []
    ensures Settled(st, Acknowledge(middle, batch, answer), source, done + batch.Entries(), batches)
  {
    AcceptedBatch(middle, batch, answer);
    SentKeepsQuarantine(middle.outbox, batch.id, source);
    KnownAllAppend(st.inv.known, source, done, batch.Entries());
    SentKeepsNoneFailed(middle.outbox, batches, batch.id);
  }

  lemma SentKeepsNoneFailed(outbox: seq<Batch>, batches: seq<Batch>, id: BatchId)
    requires NoneFailed(outbox, batches)
    ensures NoneFailed(Mark(outbox, {id}, false, Sent, NoNote), batches)
  {
  }

  lemma OneAcknowledged(st: Store, middle: Store, source: SourceId, batches: seq<Batch>, answers: seq<Response>, n: nat)
    requires FullyAccepted(batches, answers) && 0 < n <= |batches| && batches[n - 1].source == source
    requires Settled(st, middle, source, EntriesOf(batches[..n - 1]), batches)
    ensures Settled(st, Acknowledge(middle, batches[n - 1], answers[n - 1]), source, EntriesOf(batches[..n]), batches)
  {
    OneMore(st, middle, source, EntriesOf(batches[..n - 1]), batches, batches[n - 1], answers[n - 1]);
    EntriesOfPrefix(batches, n);
  }

  lemma {:induction false} AllAcknowledged(st: Store, source: SourceId, batches: seq<Batch>, answers: seq<Response>, n: nat)
    requires FullyAccepted(batches, answers) && NoneFailed(st.outbox, batches) && n <= |batches|
    requires forall b :: b in batches ==> b.source == source
    ensures Settled(st, AcknowledgeFirst(st, batches, answers, n), source, EntriesOf(batches[..n]), batches)
  {
    if n > 0 {
      AllAcknowledged(st, source, batches, answers, n - 1);
      OneAcknowledged(st, AcknowledgeFirst(st, batches, answers, n - 1), source, batches, answers, n);
    }
  }

  lemma EntriesOfPrefix(batches: seq<Batch>, n: nat)
    requires 0 < n <= |batches|
    ensures EntriesOf(batches[..n]) == EntriesOf(batches[..n - 1]) + batches[n - 1].Entries()
  {
    EntriesOfSnoc(batches[..n - 1], batches[n - 1]);
    assert batches[..n - 1] + [batches[n - 1]] == batches[..n];
  }

  // ---- The fixpoint ----

  /** Entries of one item that are not held back carry one revision. */
  ghost predicate OneRevision(entries: seq<Entry>, blocked: map<ItemId, string>) {
    forall d, e :: d in entries && e in entries && d.itemId == e.itemId
      && !IsBlocked(blocked, d.itemId, d.revision) && !IsBlocked(blocked, e.itemId, e.revision)
      ==> d.revision == e.revision
  }

  /** An item's occurrence after upserts: some entry of the item wins, or nothing changed. */
  lemma {:induction false} UpsertsKnown(known: map<Key, Occurrence>, source: SourceId, entries: seq<Entry>, item: ItemId)
    requires forall e :: e in entries ==> e.operation == Upsert
    ensures var after, key := KnownAll(known, source, entries), (source, item);
      if exists e :: e in entries && e.itemId == item
      then key in after && exists e :: e in entries && e.itemId == item && after[key].revision == e.revision
      else (key in after <==> key in known) && (key in known ==> after[key] == known[key])
  {
    if entries != [] {
      var n := |entries| - 1;
      UpsertsKnown(known, source, entries[..n], item);
      assert entries == entries[..n] + [entries[n]];
    }
  }

  lemma {:induction false} DeletionsKnown(known: map<Key, Occurrence>, source: SourceId, entries: seq<Entry>, key: Key)
    requires forall e :: e in entries ==> e.operation == Deleted
    ensures var after := KnownAll(known, source, entries);
      && (key in after <==> key in known && !(key.0 == source && exists e :: e in entries && e.itemId == key.1))
      && (key in after ==> after[key] == known[key])
  {
    if entries != [] {
      var n := |entries| - 1;
      DeletionsKnown(known, source, entries[..n], key);
      assert entries == entries[..n] + [entries[n]];
    }
  }

  /** What is known of an item after a fully accepted run. */
  lemma KnownAfterRun(scan: ScanOutcome, order: seq<ItemId>, known: map<Key, Occurrence>, blocked: map<ItemId, string>,
                      source: SourceId, item: ItemId)
    requires Scanned(scan) && Enumerates(order, known, source)
    ensures var after, key := KnownAll(known, source, Diff(scan, order, known, blocked, source)), (source, item);
      var changed := Changed(scan.entries, known, blocked, source);
      if exists e :: e in changed && e.itemId == item
      then key in after && exists e :: e in changed && e.itemId == item && after[key].revision == e.revision
      else if scan.complete && IsGone(known, blocked, source, scan.seen, item) then key !in after
      else (key in after <==> key in known) && (key in known ==> after[key] == known[key])
  {
    var changed := Changed(scan.entries, known, blocked, source);
    var gone := if scan.complete then Gone(order, known, blocked, source, scan.seen) else [];
    ChangedMembers(scan.entries, known, blocked, source);
    GoneMembers(order, known, blocked, source, scan.seen);
    KnownAllAppend(known, source, changed, gone);
    UpsertsKnown(known, source, changed, item);
    DeletionsKnown(KnownAll(known, source, changed), source, gone, (source, item));
    if scan.complete && IsGone(known, blocked, source, scan.seen, item) {
      assert Deletion(item, known[(source, item)].revision) in gone;
    }
  }

  lemma NoLongerChanged(scan: ScanOutcome, order: seq<ItemId>, known: map<Key, Occurrence>, blocked: map<ItemId, string>,
                     source: SourceId, e: Entry)
    requires Scanned(scan) && Enumerates(order, known, source) && e in scan.entries
    requires OneRevision(scan.entries, blocked)
    ensures !IsChanged(KnownAll(known, source, Diff(scan, order, known, blocked, source)), blocked, source, e)
  {
    KnownAfterRun(scan, order, known, blocked, source, e.itemId);
    ChangedMembers(scan.entries, known, blocked, source);
    if IsChanged(known, blocked, source, e) {
      assert e in Changed(scan.entries, known, blocked, source);
    }
  }

  lemma NothingGone(scan: ScanOutcome, order: seq<ItemId>, known: map<Key, Occurrence>, blocked: map<ItemId, string>,
                    source: SourceId, item: ItemId)
    requires Scanned(scan) && Enumerates(order, known, source) && scan.complete
    ensures !IsGone(KnownAll(known, source, Diff(scan, order, known, blocked, source)), blocked, source, scan.seen, item)
  {
    ChangedMembers(scan.entries, known, blocked, source);
    KnownAfterRun(scan, order, known, blocked, source, item);
  }

  lemma OneRevisionNeeded(entries: seq<Entry>, known: map<Key, Occurrence>, blocked: map<ItemId, string>, source: SourceId)
    requires forall e :: e in entries ==> !IsChanged(known, blocked, source, e)
    ensures OneRevision(entries, blocked)
  {
  }

  /** Diffing the same scan again after a fully accepted run finds no deletion; and it
      finds no change exactly when the scan gave every item one revision, those that
      are held back by an earlier failure aside. */
  lemma DiffAgain(scan: ScanOutcome, order: seq<ItemId>, known: map<Key, Occurrence>, blocked: map<ItemId, string>,
                  source: SourceId, reorder: seq<ItemId>)
    requires Scanned(scan) && Enumerates(order, known, source)
    ensures var after := KnownAll(known, source, Diff(scan, order, known, blocked, source));
      && (scan.complete ==> Gone(reorder, after, blocked, source, scan.seen) == [])
      && (Changed(scan.entries, after, blocked, source) == [] <==> OneRevision(scan.entries, blocked))
  {
    var after := KnownAll(known, source, Diff(scan, order, known, blocked, source));
    ChangedMembers(scan.entries, after, blocked, source);
    GoneMembers(reorder, after, blocked, source, scan.seen);
    if scan.complete {
      forall item | item in reorder ensures !IsGone(after, blocked, source, scan.seen, item) {
        NothingGone(scan, order, known, blocked, source, item);
      }
    }
    if OneRevision(scan.entries, blocked) {
      forall e | e in scan.entries ensures !IsChanged(after, blocked, source, e) {
        NoLongerChanged(scan, order, known, blocked, source, e);
      }
    }
    if Changed(scan.entries, after, blocked, source) == [] {
      OneRevisionNeeded(scan.entries, after, blocked, source);
    }
  }

  /** A sync run from the diff to the last acknowledgement. */
  datatype SyncRun = SyncRun(store: Store, source: SourceId, scanId: ScanId, scan: ScanOutcome, order: seq<ItemId>)
  {
    function Blocked(): map<ItemId, string> { Quarantined(store.outbox, source) }

    function Entries(): seq<Entry> { Diff(scan, order, store.inv.known, Blocked(), source) }

    function Payloads(): seq<Payload> { ManifestPayloads(scanId, Entries(), scan.complete) }

    function Batches(): seq<Batch> { NewBatches(source, scanId, Payloads(), store.supply) }

    function Queued(): Store { store.(outbox := store.outbox + Batches(), supply := store.supply + |Payloads()|) }
  }

  lemma QueuedIsQueueBatches(run: SyncRun)
    requires QueueBatches(run.store, run.source, run.scanId, run.Payloads()).Ok?
    ensures QueueBatches(run.store, run.source, run.scanId, run.Payloads()).value == run.Queued()
  {
  }

  lemma QueuedNoneFailed(run: SyncRun)
    requires Below(run.store.outbox, run.store.supply)
    ensures NoneFailed(run.Queued().outbox, run.Batches())
    ensures Quarantined(run.Queued().outbox, run.source) == run.Blocked()
    ensures EntriesOf(run.Batches()) == run.Entries()
  {
    QueuedKeepsQuarantine(run.store.outbox, run.Batches(), run.source);
    PayloadsCarryEntries(run.scanId, run.Entries(), run.scan.complete);
    BatchEntries(run.Batches(), run.Payloads());
  }

  lemma RunRecordsItsDiff(run: SyncRun, answers: seq<Response>)
    requires Below(run.store.outbox, run.store.supply) && FullyAccepted(run.Batches(), answers)
    ensures var end := AcknowledgeFirst(run.Queued(), run.Batches(), answers, |answers|);
      && end.inv.known == KnownAll(run.store.inv.known, run.source, run.Entries())
      && Quarantined(end.outbox, run.source) == run.Blocked()
  {
    QueuedNoneFailed(run);
    AllRecorded(run.Queued(), run.source, run.Batches(), answers);
  }

  lemma AllRecorded(st: Store, source: SourceId, batches: seq<Batch>, answers: seq<Response>)
    requires FullyAccepted(batches, answers) && NoneFailed(st.outbox, batches)
    requires forall b :: b in batches ==> b.source == source
    ensures Settled(st, AcknowledgeFirst(st, batches, answers, |answers|), source, EntriesOf(batches), batches)
  {
    AllAcknowledged(st, source, batches, answers, |answers|);
    assert batches[..|answers|] == batches;
  }

  /** Queue the diff, have every batch fully accepted, diff the same scan again: there is
      nothing to queue exactly when the scan gave every item one revision, those held
      back by an earlier failure aside. */
  lemma SyncReachesFixpoint(run: SyncRun, answers: seq<Response>, reorder: seq<ItemId>)
    requires Scanned(run.scan) && Enumerates(run.order, run.store.inv.known, run.source)
    requires Below(run.store.outbox, run.store.supply) && FullyAccepted(run.Batches(), answers)
    ensures var end := AcknowledgeFirst(run.Queued(), run.Batches(), answers, |answers|);
      var again := Diff(run.scan, reorder, end.inv.known, Quarantined(end.outbox, run.source), run.source);
      again == [] <==> OneRevision(run.scan.entries, run.Blocked())
  {
    RunRecordsItsDiff(run, answers);
    DiffAgain(run.scan, run.order, run.store.inv.known, run.Blocked(), run.source, reorder);
  }

  /** A scan that gives one item two revisions is never in sync. The scanner makes one where a
      file name may hold a backslash: files a\b.jpg and a/b.jpg have the same item identifier
      and each its own revision. */
  lemma TwoRevisionsNeverSettle(run: SyncRun, answers: seq<Response>, reorder: seq<ItemId>, d: Entry, e: Entry)
    requires Scanned(run.scan) && Enumerates(run.order, run.store.inv.known, run.source)
    requires Below(run.store.outbox, run.store.supply) && FullyAccepted(run.Batches(), answers) && run.Blocked() == map[]
    requires run.scan.entries == [d, e] && d.itemId == e.itemId && d.revision != e.revision
    ensures var end := AcknowledgeFirst(run.Queued(), run.Batches(), answers, |answers|);
      Diff(run.scan, reorder, end.inv.known, Quarantined(end.outbox, run.source), run.source) != []
  {
    SyncReachesFixpoint(run, answers, reorder);
    assert d in run.scan.entries && e in run.scan.entries;
    assert !OneRevision(run.scan.entries, run.Blocked());
  }

  lemma {:induction false} QueuedKeepsQuarantine(outbox: seq<Batch>, added: seq<Batch>, source: SourceId)
    requires forall b :: b in added ==> b.state == Pending
    ensures Quarantined(outbox + added, source) == Quarantined(outbox, source)
  {
    if added == [] {
      assert outbox + added == outbox;
    } else {
      assert (outbox + added)[..|outbox + added| - 1] == outbox + added[..|added| - 1];
      assert added[|added| - 1] in added;
      QueuedKeepsQuarantine(outbox, added[..|added| - 1], source);
    }
  }
}
