/** Bulk imports and the batches they captured: the artifact can always be rebuilt
    from the saved identifiers, and result row n belongs to manifest row n. */
module Captures {
  import opened Tables
  import opened Inventory
  import opened Store
  import opened Splitting
  import opened Transport
  import opened Runs
  import opened Outbox
  import opened Conservation

  /** The rows applied so far are the first ones, numbered 1, 2, ..., each on its own entry. */
  ghost predicate RowsMatch(rows: seq<Row>, entries: seq<Entry>, cursor: nat) {
    && |rows| == cursor <= |entries|
    && forall i :: 0 <= i < |rows| ==>
      rows[i].number == i + 1 && rows[i].entry == entries[i] && RowError(rows[i], i + 1, |entries|).None?
  }

  ghost predicate AllHeld(outbox: seq<Batch>, source: SourceId, ids: seq<BatchId>) {
    forall id :: id in ids ==> exists b :: b in outbox && b.id == id && b.source == source
  }

  ghost predicate Captured(row: Bulk, outbox: seq<Batch>, ledger: Ledger) {
    && row.id in ledger.artifacts && row.id in ledger.applied
    && AllHeld(outbox, row.source, row.captured)
    && ledger.artifacts[row.id] == CapturedEntries(outbox, row.captured)
    && |ledger.artifacts[row.id]| == row.entryCount
    && RowsMatch(ledger.applied[row.id], ledger.artifacts[row.id], row.appliedThrough)
  }

  ghost predicate DistinctBulks(bulks: seq<Bulk>) {
    forall i, j :: 0 <= i < j < |bulks| ==> bulks[i].id != bulks[j].id
  }

  ghost predicate BulkIdsOk(bulks: seq<Bulk>, ledger: Ledger, supply: nat) {
    && DistinctBulks(bulks)
    && (forall k :: k in bulks ==> k.id < supply)
    && (forall id :: id in ledger.applied ==> id < supply)
  }

  ghost predicate AllCaptured(bulks: seq<Bulk>, outbox: seq<Batch>, ledger: Ledger) {
    forall k :: k in bulks ==> Captured(k, outbox, ledger)
  }

  // ---- Changes of the outbox ----

  lemma RewriteCaptures(bulks: seq<Bulk>, before: seq<Batch>, after: seq<Batch>, ledger: Ledger)
    requires AllCaptured(bulks, before, ledger) && Rewritten(before, after)
    ensures AllCaptured(bulks, after, ledger)
  {
    forall k | k in bulks ensures Captured(k, after, ledger) {
      forall id | id in k.captured ensures exists b :: b in after && b.id == id && b.source == k.source {
        var b :| b in before && b.id == id && b.source == k.source;
        var i :| 0 <= i < |before| && before[i] == b;
        assert after[i] in after;
      }
      forall id | id in k.captured ensures EntriesById(after, id) == EntriesById(before, id) {
        FindRewritten(before, after, id);
      }
      CapturedSame(before, after, k.captured);
    }
  }

  lemma AppendCaptures(bulks: seq<Bulk>, before: seq<Batch>, added: seq<Batch>, ledger: Ledger)
    requires AllCaptured(bulks, before, ledger)
    requires forall b, c :: b in before && c in added ==> b.id != c.id
    ensures AllCaptured(bulks, before + added, ledger)
  {
    forall k | k in bulks ensures Captured(k, before + added, ledger) {
      forall id | id in k.captured
        ensures exists b :: b in before + added && b.id == id && b.source == k.source
        ensures EntriesById(before + added, id) == EntriesById(before, id)
      {
        var b :| b in before && b.id == id && b.source == k.source;
        assert b in before + added;
        FindAppended(before, added, id);
      }
      CapturedSame(before, before + added, k.captured);
    }
  }

  lemma WithoutCaptures(bulks: seq<Bulk>, outbox: seq<Batch>, source: SourceId, ledger: Ledger)
    requires AllCaptured(bulks, outbox, ledger) && DistinctIds(outbox) && DistinctSlots(outbox)
    ensures AllCaptured(BulksWithoutSource(bulks, source), WithoutSource(outbox, source), ledger)
  {
    var after := WithoutSource(outbox, source);
    forall k | k in BulksWithoutSource(bulks, source) ensures Captured(k, after, ledger) {
      forall id | id in k.captured
        ensures exists b :: b in after && b.id == id && b.source == k.source
        ensures EntriesById(after, id) == EntriesById(outbox, id)
      {
        var b :| b in outbox && b.id == id && b.source == k.source;
        FindWithout(outbox, source, b);
      }
      CapturedSame(outbox, after, k.captured);
    }
  }

  // ---- Changes of the bulk table ----

  lemma {:induction false} WithoutBulkIds(bulks: seq<Bulk>, source: SourceId)
    requires DistinctBulks(bulks)
    ensures DistinctBulks(BulksWithoutSource(bulks, source))
  {
    if bulks != [] {
      var n := |bulks| - 1;
      WithoutBulkIds(bulks[..n], source);
      forall k | k in BulksWithoutSource(bulks[..n], source) ensures k.id != bulks[n].id {
        var i :| 0 <= i < n && bulks[i] == k;
      }
    }
  }

  lemma SetCaptures(bulks: seq<Bulk>, row: Bulk, outbox: seq<Batch>, ledger: Ledger, later: Ledger)
    requires AllCaptured(bulks, outbox, ledger) && Captured(row, outbox, later)
    requires forall k :: k in ledger.artifacts && k != row.id ==> k in later.artifacts && later.artifacts[k] == ledger.artifacts[k]
    requires forall k :: k in ledger.applied && k != row.id ==> k in later.applied && later.applied[k] == ledger.applied[k]
    ensures AllCaptured(SetBulk(bulks, row), outbox, later)
  {
    var after := SetBulk(bulks, row);
    forall k | k in after ensures Captured(k, outbox, later) {
      var i :| 0 <= i < |after| && after[i] == k;
      assert bulks[i] in bulks;
    }
  }

  lemma SetBulkIds(bulks: seq<Bulk>, row: Bulk, ledger: Ledger, supply: nat)
    requires BulkIdsOk(bulks, ledger, supply) && row.id < supply
    ensures BulkIdsOk(SetBulk(bulks, row), ledger, supply)
  {
  }

  ghost predicate SameCapture(a: Bulk, b: Bulk) {
    && a.id == b.id && a.source == b.source && a.captured == b.captured
    && a.entryCount == b.entryCount && a.appliedThrough == b.appliedThrough
  }

  /** Status, result and completion writes leave the capture alone. */
  lemma StatusCaptures(bulks: seq<Bulk>, row: Bulk, was: Bulk, outbox: seq<Batch>, ledger: Ledger)
    requires AllCaptured(bulks, outbox, ledger) && was in bulks && SameCapture(row, was)
    ensures AllCaptured(SetBulk(bulks, row), outbox, ledger)
  {
  }

  function WithArtifact(ledger: Ledger, id: BulkId, entries: seq<Entry>): Ledger {
    ledger.(artifacts := ledger.artifacts[id := entries], applied := ledger.applied[id := []])
  }

  lemma NewRowCaptured(row: Bulk, outbox: seq<Batch>, ledger: Ledger, batches: seq<Batch>)
    requires DistinctIds(outbox)
    requires row.appliedThrough == 0 && row.captured == IdSeq(batches) && row.entryCount == |EntriesOf(batches)|
    requires forall b :: b in batches ==> b in outbox && b.source == row.source
    ensures Captured(row, outbox, WithArtifact(ledger, row.id, EntriesOf(batches)))
  {
    CapturedOf(outbox, batches);
    forall id | id in row.captured ensures exists b :: b in outbox && b.id == id && b.source == row.source {
      var i :| 0 <= i < |batches| && row.captured[i] == id;
      assert batches[i] in batches;
    }
  }

  lemma OthersCaptured(bulks: seq<Bulk>, outbox: seq<Batch>, ledger: Ledger, id: BulkId, entries: seq<Entry>)
    requires AllCaptured(bulks, outbox, ledger) && forall k :: k in bulks ==> k.id != id
    ensures AllCaptured(bulks, outbox, WithArtifact(ledger, id, entries))
  {
  }

  lemma NewCaptures(bulks: seq<Bulk>, row: Bulk, outbox: seq<Batch>, ledger: Ledger, batches: seq<Batch>, supply: nat)
    requires AllCaptured(bulks, outbox, ledger) && BulkIdsOk(bulks, ledger, supply) && DistinctIds(outbox)
    requires row.id == supply && row.appliedThrough == 0 && row.captured == IdSeq(batches)
    requires row.entryCount == |EntriesOf(batches)|
    requires forall b :: b in batches ==> b in outbox && b.source == row.source
    ensures AllCaptured(bulks + [row], outbox, WithArtifact(ledger, row.id, EntriesOf(batches)))
  {
    NewRowCaptured(row, outbox, ledger, batches);
    OthersCaptured(bulks, outbox, ledger, row.id, EntriesOf(batches));
  }

  lemma NewBulkIds(bulks: seq<Bulk>, row: Bulk, ledger: Ledger, entries: seq<Entry>, supply: nat)
    requires BulkIdsOk(bulks, ledger, supply) && row.id == supply
    ensures BulkIdsOk(bulks + [row], WithArtifact(ledger, row.id, entries), supply + 1)
  {
  }

  // ---- Pages ----

  /** A page paired through the rebuilt manifest continues the match. */
  lemma PageMatches(done: seq<Row>, entries: seq<Entry>, cursor: nat, rows: seq<Row>)
    requires RowsMatch(done, entries, cursor) && Aligned(rows, entries) && cursor + |rows| <= |entries|
    requires forall i :: 0 <= i < |rows| ==>
      rows[i].number == cursor + i + 1 && RowError(rows[i], cursor + i + 1, |entries|).None?
    ensures RowsMatch(done + rows, entries, cursor + |rows|)
  {
  }

  lemma PageCaptures(bulks: seq<Bulk>, row: Bulk, inv: Inventory, outbox: seq<Batch>, ledger: Ledger, rows: seq<Row>)
    requires AllCaptured(bulks, outbox, ledger) && row in bulks
    requires ApplyPage(inv, row, rows).Ok? && Aligned(rows, CapturedEntries(outbox, row.captured))
    ensures var later := ledger.(applied := ledger.applied[row.id := ledger.applied[row.id] + rows]);
      AllCaptured(SetBulk(bulks, ApplyPage(inv, row, rows).value.1), outbox, later)
  {
    var later := ledger.(applied := ledger.applied[row.id := ledger.applied[row.id] + rows]);
    assert Captured(row, outbox, ledger);
    CursorAdvances(inv, row, rows);
    AcceptedRows(inv, row.source, row.appliedThrough, row.entryCount, rows);
    PageMatches(ledger.applied[row.id], ledger.artifacts[row.id], row.appliedThrough, rows);
    SetCaptures(bulks, Advanced(row, |rows|), outbox, ledger, later);
  }

  /** Once every row is applied, each entry of a captured batch is covered by one. */
  lemma CompletedCovers(row: Bulk, outbox: seq<Batch>, ledger: Ledger, b: Batch, e: Entry)
    requires Captured(row, outbox, ledger) && row.appliedThrough == row.entryCount && DistinctIds(outbox)
    requires b in outbox && b.id in row.captured && e in b.Entries()
    ensures Covered(e, row.id, ledger.applied)
  {
    InCaptured(outbox, row.captured, b, e);
    var i :| 0 <= i < row.entryCount && ledger.artifacts[row.id][i] == e;
    var r := ledger.applied[row.id][i];
    assert r in ledger.applied[row.id] && RowError(r, i + 1, row.entryCount).None?;
  }
}
