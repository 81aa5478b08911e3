/** Entries are conserved: what was queued is what the outbox still carries, and
    every carried batch can show what became of its entries. */
module Conservation {
  import opened Prelude
  import opened Tables
  import opened Store
  import opened Splitting
  import opened Transport
  import opened SyncDiff
  import opened Runs
  import opened Outbox

  /** A batch replaced by a split no longer carries its entries; its replacements do. */
  predicate Carries(b: Batch) {
    !(b.state == Discarded && b.note.SplitNote?)
  }

  function Carried(outbox: seq<Batch>, source: SourceId): multiset<Entry> {
    if outbox == [] then multiset{}
    else
      var front, last := Carried(outbox[..|outbox| - 1], source), outbox[|outbox| - 1];
      if last.source == source && Carries(last) then front + multiset(last.Entries()) else front
  }

  lemma {:induction false} CarriedSame(a: seq<Batch>, b: seq<Batch>, source: SourceId)
    requires Rewritten(a, b) && forall i :: 0 <= i < |a| ==> Carries(a[i]) == Carries(b[i])
    ensures Carried(a, source) == Carried(b, source)
  {
    if a != [] {
      CarriedSame(a[..|a| - 1], b[..|b| - 1], source);
    }
  }

  lemma {:induction false} CarriedAppend(a: seq<Batch>, b: seq<Batch>, source: SourceId)
    ensures Carried(a + b, source) == Carried(a, source) + Carried(b, source)
  {
    if b == [] {
      assert a + b == a;
    } else {
      assert (a + b)[..|a + b| - 1] == a + b[..|b| - 1];
      CarriedAppend(a, b[..|b| - 1], source);
    }
  }

  lemma {:induction false} CarriedNew(batches: seq<Batch>, source: SourceId, other: SourceId)
    requires forall b :: b in batches ==> b.source == source && b.state == Pending
    ensures Carried(batches, other) == if other == source then multiset(EntriesOf(batches)) else multiset{}
  {
    if batches != [] {
      var n := |batches| - 1;
      assert batches[n] in batches;
      CarriedNew(batches[..n], source, other);
      EntriesOfSnoc(batches[..n], batches[n]);
      assert batches[..n] + [batches[n]] == batches;
    }
  }

  lemma {:induction false} CarriedWithout(outbox: seq<Batch>, source: SourceId, other: SourceId)
    ensures Carried(WithoutSource(outbox, source), other) == if other == source then multiset{} else Carried(outbox, other)
  {
    if outbox != [] {
      CarriedWithout(outbox[..|outbox| - 1], source, other);
    }
  }

  lemma {:induction false} CarriedSplit(before: seq<Batch>, after: seq<Batch>, source: SourceId, max: nat, scan: ScanId, other: SourceId)
    requires |after| == |before| && forall i :: 0 <= i < |before| ==> after[i] == AfterSplit(before[i], source, max, scan)
    ensures Carried(before, other)
         == Carried(after, other) + if other == source then multiset(EntriesOf(Oversized(before, source, max))) else multiset{}
  {
    if before != [] {
      var n := |before| - 1;
      CarriedSplit(before[..n], after[..n], source, max, scan, other);
      var smaller := Oversized(before[..n], source, max);
      if IsOversized(before[n], source, max) {
        EntriesOfSnoc(smaller, before[n]);
        assert multiset(EntriesOf(smaller) + before[n].Entries())
            == multiset(EntriesOf(smaller)) + multiset(before[n].Entries());
      }
    }
  }

  // ---- What was queued is what is carried ----

  function QueuedBy(queued: map<SourceId, multiset<Entry>>, source: SourceId): multiset<Entry> {
    if source in queued then queued[source] else multiset{}
  }

  ghost predicate Conserved(outbox: seq<Batch>, queued: map<SourceId, multiset<Entry>>) {
    forall source :: Carried(outbox, source) == QueuedBy(queued, source)
  }

  lemma RewriteConserves(before: seq<Batch>, after: seq<Batch>, queued: map<SourceId, multiset<Entry>>)
    requires Conserved(before, queued) && Rewritten(before, after)
    requires forall i :: 0 <= i < |before| ==> Carries(before[i]) == Carries(after[i])
    ensures Conserved(after, queued)
  {
    forall source ensures Carried(after, source) == QueuedBy(queued, source) {
      CarriedSame(before, after, source);
    }
  }

  /** Queueing adds the entries of the payloads to what is carried and to the ledger alike. */
  lemma QueueConserves(outbox: seq<Batch>, queued: map<SourceId, multiset<Entry>>, source: SourceId, scan: ScanId,
                       entries: seq<Entry>, complete: bool, firstId: nat)
    requires Conserved(outbox, queued)
    ensures Conserved(outbox + NewBatches(source, scan, ManifestPayloads(scan, entries, complete), firstId),
                      queued[source := QueuedBy(queued, source) + multiset(entries)])
  {
    var payloads := ManifestPayloads(scan, entries, complete);
    var added := NewBatches(source, scan, payloads, firstId);
    PayloadsCarryEntries(scan, entries, complete);
    BatchEntries(added, payloads);
    forall other
      ensures Carried(outbox + added, other) == QueuedBy(queued[source := QueuedBy(queued, source) + multiset(entries)], other)
    {
      CarriedAppend(outbox, added, other);
      CarriedNew(added, source, other);
    }
  }

  lemma SplitCarried(before: seq<Batch>, added: seq<Batch>, after: seq<Batch>, source: SourceId, max: nat, scan: ScanId, other: SourceId)
    requires |after| == |before| + |added| && after[|before|..] == added
    requires forall i :: 0 <= i < |before| ==> after[i] == AfterSplit(before[i], source, max, scan)
    requires Carried(added, other) == if other == source then multiset(EntriesOf(Oversized(before, source, max))) else multiset{}
    ensures Carried(after, other) == Carried(before, other)
  {
    var front := after[..|before|];
    assert after == front + added;
    CarriedAppend(front, added, other);
    CarriedSplit(before, front, source, max, scan, other);
  }

  lemma SplitConservesCarried(st: Store, source: SourceId, max: nat, queued: map<SourceId, multiset<Entry>>)
    requires DistinctIds(st.outbox) && Below(st.outbox, st.supply) && 1 <= max <= 500
    requires Conserved(st.outbox, queued)
    ensures Conserved(Split(st, source, max).value.0.outbox, queued)
  {
    if Oversized(st.outbox, source, max) != [] {
      SplitEffect(st, source, max);
      var after := Split(st, source, max).value.0.outbox;
      forall other ensures Carried(after, other) == QueuedBy(queued, other) {
        AddedCarried(st, source, max, other);
        SplitCarried(st.outbox, Added(st, source, max), after, source, max, st.supply, other);
      }
    }
  }

  lemma AddedCarried(st: Store, source: SourceId, max: nat, other: SourceId)
    requires DistinctIds(st.outbox) && Below(st.outbox, st.supply) && 1 <= max <= 500
    requires Oversized(st.outbox, source, max) != []
    ensures Carried(Added(st, source, max), other)
         == if other == source then multiset(EntriesOf(Oversized(st.outbox, source, max))) else multiset{}
  {
    SplitConserves(st, source, max);
    CarriedNew(Added(st, source, max), source, other);
  }

  lemma RemoveConserves(outbox: seq<Batch>, queued: map<SourceId, multiset<Entry>>, source: SourceId)
    requires Conserved(outbox, queued)
    ensures Conserved(WithoutSource(outbox, source), queued - {source})
  {
    forall other ensures Carried(WithoutSource(outbox, source), other) == QueuedBy(queued - {source}, other) {
      CarriedWithout(outbox, source, other);
    }
  }

  // ---- What became of the entries of a batch ----

  /** A row of the import's result was applied to this entry: it accepts the entry, or it
      is a rejection that was passed over. */
  ghost predicate Covered(e: Entry, bulk: BulkId, applied: map<BulkId, seq<Row>>) {
    bulk in applied && exists r :: r in applied[bulk] && r.entry == e && (r.result.outcome == Rejected || AcceptsUpsert(e, r.result))
  }

  ghost predicate AcceptedBy(b: Batch, e: Entry, answers: map<BatchId, Response>) {
    b.id in answers && Accepted(e, b.payload, answers[b.id])
  }

  /** Accepted by the service, or written down in the failure record. */
  ghost predicate AnsweredOrListed(b: Batch, e: Entry, answers: map<BatchId, Response>) {
    match b.note
    case EntryFailures(failures) => AcceptedBy(b, e, answers) || Listed(e, failures)
    case RequestFailure(failures) => Listed(e, failures)
    case _ => false
  }

  /** Where an entry of a batch is, by the batch's state and note. */
  ghost predicate Accounted(b: Batch, e: Entry, ledger: Ledger) {
    match b.state
    case Pending => true
    case Sent => AcceptedBy(b, e, ledger.answers)
    case Failed => AnsweredOrListed(b, e, ledger.answers)
    case Discarded =>
      match b.note
      case SplitNote(_) => true
      case BulkNote(bulk) => Covered(e, bulk, ledger.applied)
      case SuspendNote => true
      case _ => AnsweredOrListed(b, e, ledger.answers)
  }

  ghost predicate AllAccounted(outbox: seq<Batch>, ledger: Ledger) {
    forall b, e :: b in outbox && e in b.Entries() ==> Accounted(b, e, ledger)
  }

  /** A failed batch keeps a failure record, and nothing else. */
  ghost predicate NotesFit(outbox: seq<Batch>) {
    forall b :: b in outbox && b.state == Failed ==> b.note.EntryFailures? || b.note.RequestFailure?
  }

  /** Marking keeps the account if every marked row can show what became of its entries,
      and nothing is forgotten about the others. */
  lemma MarkAccounts(outbox: seq<Batch>, ids: set<BatchId>, pendingOnly: bool, state: BatchState, note: Note,
                     ledger: Ledger, later: Ledger)
    requires AllAccounted(outbox, ledger)
    requires forall b, e :: b in outbox && e in b.Entries() && Hit(b, ids, pendingOnly) ==>
      Accounted(b.(state := state, note := note), e, later)
    requires forall b, e :: b in outbox && e in b.Entries() && !Hit(b, ids, pendingOnly) && Accounted(b, e, ledger) ==>
      Accounted(b, e, later)
    ensures AllAccounted(Mark(outbox, ids, pendingOnly, state, note), later)
  {
  }

  lemma AppendAccounts(outbox: seq<Batch>, added: seq<Batch>, ledger: Ledger)
    requires AllAccounted(outbox, ledger) && forall b :: b in added ==> b.state == Pending
    ensures AllAccounted(outbox + added, ledger)
  {
  }

  lemma MarkNotes(outbox: seq<Batch>, ids: set<BatchId>, pendingOnly: bool, state: BatchState, note: Note)
    requires NotesFit(outbox) && (state == Failed ==> note.EntryFailures? || note.RequestFailure?)
    ensures NotesFit(Mark(outbox, ids, pendingOnly, state, note))
  {
  }

  // ---- Step by step ----

  /** The outbox and the ledger agree on every entry. */
  ghost predicate Kept(outbox: seq<Batch>, ledger: Ledger) {
    Conserved(outbox, ledger.queued) && AllAccounted(outbox, ledger) && NotesFit(outbox)
  }

  lemma AcknowledgeKeeps(outbox: seq<Batch>, b: Batch, response: Response, ledger: Ledger)
    requires Kept(outbox, ledger) && DistinctIds(outbox) && b in outbox && b.state == Pending
    ensures var failures := Failures(b.payload, response);
      Kept(Mark(outbox, {b.id}, false, if failures == [] then Sent else Failed,
                if failures == [] then NoNote else EntryFailures(failures)),
           ledger.(answers := ledger.answers[b.id := response]))
  {
    var failures := Failures(b.payload, response);
    var state := if failures == [] then Sent else Failed;
    var note := if failures == [] then NoNote else EntryFailures(failures);
    var later := ledger.(answers := ledger.answers[b.id := response]);
    forall c, e | c in outbox && e in c.Entries() && Hit(c, {b.id}, false)
      ensures Accounted(c.(state := state, note := note), e, later)
    {
      SameId(outbox, b, c);
      AnsweredIsAccounted(b, e, response);
    }
    MarkAccounts(outbox, {b.id}, false, state, note, ledger, later);
    MarkNotes(outbox, {b.id}, false, state, note);
    MarkRewrites(outbox, {b.id}, false, state, note);
    OnlyRow(outbox, b);
    RewriteConserves(outbox, Mark(outbox, {b.id}, false, state, note), ledger.queued);
  }

  lemma OnlyRow(outbox: seq<Batch>, b: Batch)
    requires DistinctIds(outbox) && b in outbox
    ensures forall i :: 0 <= i < |outbox| && outbox[i].id == b.id ==> outbox[i] == b
  {
  }

  lemma AnsweredIsAccounted(b: Batch, e: Entry, response: Response)
    requires e in b.Entries()
    ensures Accepted(e, b.payload, response) || (Failures(b.payload, response) != [] && Listed(e, Failures(b.payload, response)))
  {
    EveryEntryAnswered(b.Entries(), b.payload, response, e);
    if !Accepted(e, b.payload, response) {
      var f :| f in Objections(b.Entries(), b.payload, response) && f.entry == Some(e);
      assert f in Failures(b.payload, response);
    }
  }

  lemma RefuseKeeps(outbox: seq<Batch>, b: Batch, ledger: Ledger)
    requires Kept(outbox, ledger) && DistinctIds(outbox) && b in outbox
    ensures Kept(Mark(outbox, {b.id}, true, Failed, RequestFailure(Refusals(b.Entries()))), ledger)
  {
    var note := RequestFailure(Refusals(b.Entries()));
    forall c, e | c in outbox && e in c.Entries() && Hit(c, {b.id}, true)
      ensures Accounted(c.(state := Failed, note := note), e, ledger)
    {
      SameId(outbox, b, c);
      var i :| 0 <= i < |b.Entries()| && b.Entries()[i] == e;
      assert Refusals(b.Entries())[i].entry == Some(e);
    }
    MarkAccounts(outbox, {b.id}, true, Failed, note, ledger, ledger);
    MarkNotes(outbox, {b.id}, true, Failed, note);
    RewriteConserves(outbox, Mark(outbox, {b.id}, true, Failed, note), ledger.queued);
  }

  lemma DiscardKeeps(outbox: seq<Batch>, b: Batch, ledger: Ledger)
    requires Kept(outbox, ledger) && DistinctIds(outbox) && b in outbox && b.state == Failed
    ensures Kept(Mark(outbox, {b.id}, false, Discarded, b.note), ledger)
  {
    forall c, e | c in outbox && e in c.Entries() && Hit(c, {b.id}, false)
      ensures Accounted(c.(state := Discarded, note := b.note), e, ledger)
    {
      SameId(outbox, b, c);
    }
    MarkAccounts(outbox, {b.id}, false, Discarded, b.note, ledger, ledger);
    MarkNotes(outbox, {b.id}, false, Discarded, b.note);
    OnlyRow(outbox, b);
    RewriteConserves(outbox, Mark(outbox, {b.id}, false, Discarded, b.note), ledger.queued);
  }

  lemma SuspendKeeps(outbox: seq<Batch>, ids: set<BatchId>, ledger: Ledger)
    requires Kept(outbox, ledger)
    ensures Kept(Mark(outbox, ids, true, Discarded, SuspendNote), ledger)
  {
    MarkAccounts(outbox, ids, true, Discarded, SuspendNote, ledger, ledger);
    MarkNotes(outbox, ids, true, Discarded, SuspendNote);
    RewriteConserves(outbox, Mark(outbox, ids, true, Discarded, SuspendNote), ledger.queued);
  }

  lemma RestoreKeeps(outbox: seq<Batch>, ids: set<BatchId>, ledger: Ledger)
    requires Kept(outbox, ledger)
    requires forall b :: b in outbox && b.id in ids ==> b.state == Discarded && b.note == SuspendNote
    ensures Kept(Mark(outbox, ids, false, Pending, NoNote), ledger)
  {
    MarkAccounts(outbox, ids, false, Pending, NoNote, ledger, ledger);
    MarkNotes(outbox, ids, false, Pending, NoNote);
    assert forall i :: 0 <= i < |outbox| ==> outbox[i] in outbox;
    RewriteConserves(outbox, Mark(outbox, ids, false, Pending, NoNote), ledger.queued);
  }

  /** Batches covered by applied result rows may be superseded by the import. */
  lemma SupersedeKeeps(outbox: seq<Batch>, ids: set<BatchId>, bulk: BulkId, ledger: Ledger)
    requires Kept(outbox, ledger)
    requires forall b, e :: b in outbox && b.id in ids && e in b.Entries() ==> Covered(e, bulk, ledger.applied)
    ensures Kept(Mark(outbox, ids, true, Discarded, BulkNote(bulk)), ledger)
  {
    MarkAccounts(outbox, ids, true, Discarded, BulkNote(bulk), ledger, ledger);
    MarkNotes(outbox, ids, true, Discarded, BulkNote(bulk));
    RewriteConserves(outbox, Mark(outbox, ids, true, Discarded, BulkNote(bulk)), ledger.queued);
  }

  lemma SplitKeeps(st: Store, source: SourceId, max: nat, ledger: Ledger)
    requires Kept(st.outbox, ledger) && IdsOk(st.outbox, st.supply) && 1 <= max <= 500
    ensures Kept(Split(st, source, max).value.0.outbox, ledger)
  {
    SplitConservesCarried(st, source, max, ledger.queued);
    if Oversized(st.outbox, source, max) != [] {
      var added := Added(st, source, max);
      var ids := Ids(Oversized(st.outbox, source, max));
      AppendAccounts(st.outbox, added, ledger);
      MarkAccounts(st.outbox + added, ids, true, Discarded, SplitNote(st.supply), ledger, ledger);
      MarkNotes(st.outbox + added, ids, true, Discarded, SplitNote(st.supply));
    }
  }

  lemma QueueKeeps(outbox: seq<Batch>, ledger: Ledger, source: SourceId, scan: ScanId, outcome: ScanOutcome,
                   entries: seq<Entry>, firstId: nat, origins: map<BatchId, Origin>)
    requires Kept(outbox, ledger)
    ensures Kept(outbox + NewBatches(source, scan, ManifestPayloads(scan, entries, outcome.complete), firstId),
                 ledger.(queued := ledger.queued[source := QueuedBy(ledger.queued, source) + multiset(entries)],
                         origins := origins))
  {
    var added := NewBatches(source, scan, ManifestPayloads(scan, entries, outcome.complete), firstId);
    var later := ledger.(queued := ledger.queued[source := QueuedBy(ledger.queued, source) + multiset(entries)],
                         origins := origins);
    QueueConserves(outbox, ledger.queued, source, scan, entries, outcome.complete, firstId);
    forall b, e | b in outbox && e in b.Entries() ensures Accounted(b, e, later) {
      assert Accounted(b, e, ledger);
    }
    AppendAccounts(outbox, added, later);
  }

  lemma RemoveKeeps(outbox: seq<Batch>, ledger: Ledger, source: SourceId)
    requires Kept(outbox, ledger)
    ensures Kept(WithoutSource(outbox, source), ledger.(queued := ledger.queued - {source}))
  {
    RemoveConserves(outbox, ledger.queued, source);
    forall b, e | b in WithoutSource(outbox, source) && e in b.Entries()
      ensures Accounted(b, e, ledger.(queued := ledger.queued - {source}))
    {
      assert Accounted(b, e, ledger);
    }
  }

  /** More applied rows, other artifacts or other origins do not change the account. */
  lemma PageKeeps(outbox: seq<Batch>, ledger: Ledger, later: Ledger)
    requires Kept(outbox, ledger) && later.queued == ledger.queued && later.answers == ledger.answers
    requires forall k :: k in ledger.applied ==> k in later.applied
    requires forall k, r :: k in ledger.applied && r in ledger.applied[k] ==> r in later.applied[k]
    ensures Kept(outbox, later)
  {
  }
}
