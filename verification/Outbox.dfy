/** What the few ways of writing the outbox leave alone: rewriting state and note
    of rows, appending new rows, and dropping the rows of one source. */
module Outbox {
  import opened Prelude
  import opened Tables
  import opened Store
  import opened Splitting
  import opened Runs

  /** Only states and notes differ. */
  ghost predicate Rewritten(before: seq<Batch>, after: seq<Batch>) {
    && |before| == |after|
    && forall i :: 0 <= i < |before| ==> after[i] == before[i].(state := after[i].state, note := after[i].note)
  }

  lemma MarkRewrites(outbox: seq<Batch>, ids: set<BatchId>, pendingOnly: bool, state: BatchState, note: Note)
    ensures Rewritten(outbox, Mark(outbox, ids, pendingOnly, state, note))
  {
  }

  ghost predicate IdsOk(outbox: seq<Batch>, supply: nat) {
    DistinctIds(outbox) && DistinctSlots(outbox) && Below(outbox, supply)
  }

  lemma RewriteIds(before: seq<Batch>, after: seq<Batch>, supply: nat)
    requires IdsOk(before, supply) && Rewritten(before, after)
    ensures IdsOk(after, supply)
  {
  }

  lemma AppendIds(outbox: seq<Batch>, supply: nat, source: SourceId, scan: ScanId, payloads: seq<Payload>, firstId: nat)
    requires IdsOk(outbox, supply) && supply <= firstId && scan < firstId
    requires forall b :: b in outbox ==> b.scan != scan
    ensures IdsOk(outbox + NewBatches(source, scan, payloads, firstId), firstId + |payloads|)
  {
  }

  lemma {:induction false} WithoutIds(outbox: seq<Batch>, source: SourceId)
    requires DistinctIds(outbox) && DistinctSlots(outbox)
    ensures DistinctIds(WithoutSource(outbox, source)) && DistinctSlots(WithoutSource(outbox, source))
  {
    if outbox != [] {
      var n := |outbox| - 1;
      WithoutIds(outbox[..n], source);
      forall b | b in WithoutSource(outbox[..n], source)
        ensures b.id != outbox[n].id && (b.scan, b.sequence) != (outbox[n].scan, outbox[n].sequence)
      {
        var i :| 0 <= i < n && outbox[i] == b;
      }
    }
  }

  // ---- Finding a row afterwards ----

  lemma {:induction false} FindIs(outbox: seq<Batch>, b: Batch)
    requires DistinctIds(outbox) && b in outbox
    ensures FindBatch(outbox, b.id) == Some(b)
  {
  }

  lemma {:induction false} FindRewritten(before: seq<Batch>, after: seq<Batch>, id: BatchId)
    requires Rewritten(before, after)
    ensures EntriesById(after, id) == EntriesById(before, id)
  {
    if before != [] {
      FindRewritten(before[..|before| - 1], after[..|after| - 1], id);
    }
  }

  lemma {:induction false} FindAppended(before: seq<Batch>, added: seq<Batch>, id: BatchId)
    requires forall b :: b in added ==> b.id != id
    ensures FindBatch(before + added, id) == FindBatch(before, id)
  {
    if added == [] {
      assert before + added == before;
    } else {
      var n := |added| - 1;
      assert (before + added)[..|before + added| - 1] == before + added[..n];
      assert added[n] in added;
      FindAppended(before, added[..n], id);
    }
  }

  lemma FindWithout(outbox: seq<Batch>, source: SourceId, b: Batch)
    requires DistinctIds(outbox) && DistinctSlots(outbox) && b in outbox && b.source != source
    ensures FindBatch(WithoutSource(outbox, source), b.id) == FindBatch(outbox, b.id) == Some(b)
  {
  }

  /** Both outboxes hold the same entries under each of the identifiers. */
  ghost predicate SameEntries(before: seq<Batch>, after: seq<Batch>, ids: seq<BatchId>) {
    forall id :: id in ids ==> EntriesById(after, id) == EntriesById(before, id)
  }

  lemma {:induction false} CapturedSame(before: seq<Batch>, after: seq<Batch>, ids: seq<BatchId>)
    requires SameEntries(before, after, ids)
    ensures CapturedEntries(after, ids) == CapturedEntries(before, ids)
  {
    if ids != [] {
      assert ids[|ids| - 1] in ids;
      CapturedSame(before, after, ids[..|ids| - 1]);
    }
  }

  lemma {:induction false} CapturedOf(outbox: seq<Batch>, batches: seq<Batch>)
    requires DistinctIds(outbox) && forall b :: b in batches ==> b in outbox
    ensures CapturedEntries(outbox, IdSeq(batches)) == EntriesOf(batches)
  {
    if batches != [] {
      var n := |batches| - 1;
      assert batches[n] in batches;
      CapturedOf(outbox, batches[..n]);
      assert IdSeq(batches)[..n] == IdSeq(batches[..n]);
      FindIs(outbox, batches[n]);
      EntriesOfSnoc(batches[..n], batches[n]);
      assert batches[..n] + [batches[n]] == batches;
    }
  }

  lemma {:induction false} InCaptured(outbox: seq<Batch>, ids: seq<BatchId>, b: Batch, e: Entry)
    requires DistinctIds(outbox) && b in outbox && b.id in ids && e in b.Entries()
    ensures e in CapturedEntries(outbox, ids)
  {
    var n := |ids| - 1;
    if ids[n] == b.id {
      FindIs(outbox, b);
    } else {
      InCaptured(outbox, ids[..n], b, e);
    }
  }
}
