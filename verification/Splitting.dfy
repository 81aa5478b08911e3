/** Replacing oversized pending requests: what split_oversized_pending_batches keeps. */
module Splitting {
  import opened Prelude
  import opened Tables
  import opened Store

  function PayloadEntries(payloads: seq<Payload>): seq<Entry> {
    if payloads == [] then []
    else PayloadEntries(payloads[..|payloads| - 1]) + payloads[|payloads| - 1].entries
  }

  lemma {:induction false} PayloadEntriesAppend(a: seq<Payload>, b: seq<Payload>)
    ensures PayloadEntries(a + b) == PayloadEntries(a) + PayloadEntries(b)
  {
    if b == [] {
      assert a + b == a;
    } else {
      assert (a + b)[..|a + b| - 1] == a + b[..|b| - 1];
      PayloadEntriesAppend(a, b[..|b| - 1]);
    }
  }

  lemma {:induction false} ChunksOf(entries: seq<Entry>, max: nat)
    requires max >= 1
    ensures Flatten(Chunks(entries, max)) == entries
    ensures forall c :: c in Chunks(entries, max) ==> 1 <= |c| <= max
    decreases |entries|
  {
    if |entries| > max {
      ChunksOf(entries[max..], max);
      var rest := Chunks(entries[max..], max);
      assert ([entries[..max]] + rest)[1..] == rest;
      assert entries[..max] + entries[max..] == entries;
    } else if |entries| > 0 {
      assert [entries][1..] == [];
      assert Flatten([entries]) == entries + Flatten([entries][1..]);
    }
  }

  lemma {:induction false} MappedEntries(chunks: seq<seq<Entry>>, payloads: seq<Payload>)
    requires |payloads| == |chunks|
    requires forall i :: 0 <= i < |chunks| ==> payloads[i].entries == chunks[i]
    ensures PayloadEntries(payloads) == Flatten(chunks)
  {
    if chunks != [] {
      var n := |chunks| - 1;
      MappedEntries(chunks[..n], payloads[..n]);
      FlattenSnoc(chunks[..n], chunks[n]);
      assert chunks[..n] + [chunks[n]] == chunks;
    }
  }

  lemma {:induction false} EntriesOfSnoc(front: seq<Batch>, last: Batch)
    ensures EntriesOf(front + [last]) == EntriesOf(front) + last.Entries()
  {
    if front == [] {
      assert [] + [last] == [last];
      assert EntriesOf([last]) == last.Entries() + EntriesOf([]);
    } else {
      assert (front + [last])[1..] == front[1..] + [last];
      EntriesOfSnoc(front[1..], last);
      assert front[0].Entries() + (EntriesOf(front[1..]) + last.Entries())
          == (front[0].Entries() + EntriesOf(front[1..])) + last.Entries();
    }
  }

  lemma ReplacementsOfOne(payload: Payload, scan: ScanId, max: nat)
    requires max >= 1
    ensures PayloadEntries(Replacements(payload, scan, max)) == payload.entries
    ensures forall p :: p in Replacements(payload, scan, max) ==>
      1 <= |p.entries| <= max && p == payload.(snapshot := scan, entries := p.entries)
  {
    var chunks := Chunks(payload.entries, max);
    ChunksOf(payload.entries, max);
    MappedEntries(chunks, Replacements(payload, scan, max));
  }

  /** The replacements carry exactly the oversized entries, in order, in small non-empty pieces. */
  lemma {:induction false} ReplacementsConserve(oversized: seq<Batch>, scan: ScanId, max: nat)
    requires max >= 1
    ensures PayloadEntries(AllReplacements(oversized, scan, max)) == EntriesOf(oversized)
    ensures forall p :: p in AllReplacements(oversized, scan, max) ==> 1 <= |p.entries| <= max
  {
    if oversized != [] {
      var n := |oversized| - 1;
      ReplacementsConserve(oversized[..n], scan, max);
      ReplacementsOfOne(oversized[n].payload, scan, max);
      PayloadEntriesAppend(AllReplacements(oversized[..n], scan, max), Replacements(oversized[n].payload, scan, max));
      EntriesOfSnoc(oversized[..n], oversized[n]);
      assert oversized[..n] + [oversized[n]] == oversized;
    }
  }

  ghost predicate PieceOf(p: Payload, b: Batch, scan: ScanId) {
    && p == b.payload.(snapshot := scan, entries := p.entries)
    && forall e :: e in p.entries ==> e in b.Entries()
  }

  lemma {:induction false} InPayloadEntries(payloads: seq<Payload>, p: Payload, e: Entry)
    requires p in payloads && e in p.entries
    ensures e in PayloadEntries(payloads)
  {
    if payloads[|payloads| - 1] != p {
      InPayloadEntries(payloads[..|payloads| - 1], p, e);
    }
  }

  /** A replacement repeats its batch's header; the deletion-detection flag among it. */
  lemma {:induction false} ReplacementOrigin(oversized: seq<Batch>, scan: ScanId, max: nat, p: Payload) returns (b: Batch)
    requires max >= 1 && p in AllReplacements(oversized, scan, max)
    ensures b in oversized && PieceOf(p, b, scan)
  {
    var n := |oversized| - 1;
    if p in AllReplacements(oversized[..n], scan, max) {
      b := ReplacementOrigin(oversized[..n], scan, max, p);
    } else {
      b := oversized[n];
      ReplacementsOfOne(b.payload, scan, max);
      forall e | e in p.entries ensures e in b.Entries() {
        InPayloadEntries(Replacements(b.payload, scan, max), p, e);
      }
    }
  }

  // ---- Rows chosen by identifier ----

  ghost predicate DistinctIds(outbox: seq<Batch>) {
    forall i, j :: 0 <= i < j < |outbox| ==> outbox[i].id != outbox[j].id
  }

  ghost predicate DistinctSlots(outbox: seq<Batch>) {
    forall i, j :: 0 <= i < j < |outbox| ==> (outbox[i].scan, outbox[i].sequence) != (outbox[j].scan, outbox[j].sequence)
  }

  ghost predicate Below(outbox: seq<Batch>, supply: nat) {
    forall b :: b in outbox ==> b.id < supply && b.scan < supply
  }

  lemma SameId(outbox: seq<Batch>, b: Batch, c: Batch)
    requires DistinctIds(outbox) && b in outbox && c in outbox && b.id == c.id
    ensures b == c
  {
  }

  lemma IdsSelect(outbox: seq<Batch>, chosen: seq<Batch>, b: Batch)
    requires DistinctIds(outbox) && b in outbox
    requires forall c :: c in chosen ==> c in outbox
    ensures b.id in Ids(chosen) <==> b in chosen
  {
  }

  lemma {:induction false} PendingDistinct(outbox: seq<Batch>, source: SourceId)
    requires DistinctIds(outbox)
    ensures DistinctIds(PendingOf(outbox, source))
  {
    if outbox != [] {
      var n := |outbox| - 1;
      PendingDistinct(outbox[..n], source);
      forall b | b in PendingOf(outbox[..n], source) ensures b.id != outbox[n].id {
        var i :| 0 <= i < n && outbox[i] == b;
      }
    }
  }

  predicate IsOversized(b: Batch, source: SourceId, max: nat) {
    b.source == source && b.state == Pending && |b.Entries()| > max
  }

  /** The outbox after a split: replaced rows are discarded, the others are as they were. */
  function AfterSplit(b: Batch, source: SourceId, max: nat, scan: ScanId): Batch {
    if IsOversized(b, source, max) then b.(state := Discarded, note := SplitNote(scan)) else b
  }

  lemma SplitRow(outbox: seq<Batch>, source: SourceId, max: nat, scan: ScanId, b: Batch)
    requires DistinctIds(outbox) && b in outbox
    ensures (if Hit(b, Ids(Oversized(outbox, source, max)), true)
             then b.(state := Discarded, note := SplitNote(scan)) else b) == AfterSplit(b, source, max, scan)
  {
  }

  lemma SplitRows(outbox: seq<Batch>, source: SourceId, max: nat, scan: ScanId, added: seq<Batch>)
    requires DistinctIds(outbox)
    requires forall b, c :: b in outbox && c in added ==> b.id != c.id
    ensures var r := Mark(outbox + added, Ids(Oversized(outbox, source, max)), true, Discarded, SplitNote(scan));
      && (forall i :: 0 <= i < |outbox| ==> r[i] == AfterSplit(outbox[i], source, max, scan))
      && r[|outbox|..] == added
  {
    var chosen := Ids(Oversized(outbox, source, max));
    var r := Mark(outbox + added, chosen, true, Discarded, SplitNote(scan));
    forall i | 0 <= i < |outbox| ensures r[i] == AfterSplit(outbox[i], source, max, scan) {
      SplitRow(outbox, source, max, scan, outbox[i]);
    }
    assert forall c :: c in added ==> c.id !in chosen;
  }

  ghost function Added(st: Store, source: SourceId, max: nat): seq<Batch>
    requires max >= 1
  {
    NewBatches(source, st.supply, AllReplacements(Oversized(st.outbox, source, max), st.supply, max), st.supply + 1)
  }

  /** The effect of a split, row by row. */
  lemma SplitEffect(st: Store, source: SourceId, max: nat)
    requires DistinctIds(st.outbox) && Below(st.outbox, st.supply) && 1 <= max <= 500
    requires Oversized(st.outbox, source, max) != []
    ensures Split(st, source, max).Ok?
    ensures var after := Split(st, source, max).value.0;
      && |after.outbox| == |st.outbox| + |Added(st, source, max)|
      && (forall i :: 0 <= i < |st.outbox| ==> after.outbox[i] == AfterSplit(st.outbox[i], source, max, st.supply))
      && after.outbox[|st.outbox|..] == Added(st, source, max)
      && after.supply == st.supply + 1 + |Added(st, source, max)|
      && after.bulks == st.bulks && after.inv == st.inv && after.bindings == st.bindings
  {
    SplitRows(st.outbox, source, max, st.supply, Added(st, source, max));
  }

  lemma SplitKeepsIds(st: Store, source: SourceId, max: nat)
    requires DistinctIds(st.outbox) && DistinctSlots(st.outbox) && Below(st.outbox, st.supply) && 1 <= max <= 500
    ensures var after := Split(st, source, max).value.0;
      DistinctIds(after.outbox) && DistinctSlots(after.outbox) && Below(after.outbox, after.supply)
  {
    if Oversized(st.outbox, source, max) != [] {
      SplitEffect(st, source, max);
      AppendKeepsIds(st.outbox, Split(st, source, max).value.0.outbox, st.supply, st.supply + 1);
    }
  }

  /** Rows with new identifiers under one new scan keep every identifier distinct. */
  lemma AppendKeepsIds(before: seq<Batch>, after: seq<Batch>, scan: ScanId, firstId: nat)
    requires DistinctIds(before) && DistinctSlots(before)
    requires |before| <= |after|
    requires forall b :: b in before ==> b.id < firstId && b.scan != scan
    requires forall i :: 0 <= i < |before| ==>
      after[i].id == before[i].id && after[i].scan == before[i].scan && after[i].sequence == before[i].sequence
    requires forall i :: |before| <= i < |after| ==>
      after[i].id == firstId + (i - |before|) && after[i].scan == scan && after[i].sequence == i - |before|
    ensures DistinctIds(after) && DistinctSlots(after)
  {
  }

  lemma AddedSmall(st: Store, source: SourceId, max: nat)
    requires max >= 1
    ensures forall i :: 0 <= i < |Added(st, source, max)| ==> 1 <= |Added(st, source, max)[i].Entries()| <= max
  {
    ReplacementsConserve(Oversized(st.outbox, source, max), st.supply, max);
    var payloads := AllReplacements(Oversized(st.outbox, source, max), st.supply, max);
    forall i | 0 <= i < |payloads| ensures 1 <= |payloads[i].entries| <= max {
      assert payloads[i] in payloads;
    }
  }

  lemma NoneOversized(before: seq<Batch>, added: seq<Batch>, after: seq<Batch>, source: SourceId, max: nat, scan: ScanId)
    requires |after| == |before| + |added| && after[|before|..] == added
    requires forall i :: 0 <= i < |before| ==> after[i] == AfterSplit(before[i], source, max, scan)
    requires forall i :: 0 <= i < |added| ==> |added[i].Entries()| <= max
    ensures Oversized(after, source, max) == []
  {
    forall i | 0 <= i < |after| ensures !IsOversized(after[i], source, max) {
      if i >= |before| {
        assert after[i] == added[i - |before|];
      }
    }
    NoOversized(after, source, max);
  }

  lemma NoOversized(outbox: seq<Batch>, source: SourceId, max: nat)
    requires forall i :: 0 <= i < |outbox| ==> !IsOversized(outbox[i], source, max)
    ensures Oversized(outbox, source, max) == []
  {
  }

  /** After a split no pending request of the source is oversized, so a second split does nothing. */
  lemma SplitSettles(st: Store, source: SourceId, max: nat)
    requires DistinctIds(st.outbox) && Below(st.outbox, st.supply) && 1 <= max <= 500
    ensures Split(st, source, max).Ok?
    ensures var after := Split(st, source, max).value.0;
      && Oversized(after.outbox, source, max) == []
      && Split(after, source, max) == Ok((after, 0, 0))
  {
    if Oversized(st.outbox, source, max) != [] {
      SplitEffect(st, source, max);
      AddedSmall(st, source, max);
      NoneOversized(st.outbox, Added(st, source, max), Split(st, source, max).value.0.outbox, source, max, st.supply);
    }
  }

  /** The replacements, in table order, hold the oversized entries in table order,
      under a scan of their own with sequences 0, 1, 2, ... */
  lemma SplitConserves(st: Store, source: SourceId, max: nat)
    requires DistinctIds(st.outbox) && Below(st.outbox, st.supply) && 1 <= max <= 500
    requires Oversized(st.outbox, source, max) != []
    ensures Split(st, source, max).value.0.outbox[|st.outbox|..] == Added(st, source, max)
    ensures EntriesOf(Added(st, source, max)) == EntriesOf(Oversized(st.outbox, source, max))
    ensures forall i, b :: 0 <= i < |Added(st, source, max)| && b == Added(st, source, max)[i] ==>
      && b.source == source && b.state == Pending && b.scan == st.supply && b.sequence == i
      && b.id == st.supply + 1 + i && 1 <= |b.Entries()| <= max
  {
    SplitEffect(st, source, max);
    AddedSmall(st, source, max);
    var payloads := AllReplacements(Oversized(st.outbox, source, max), st.supply, max);
    ReplacementsConserve(Oversized(st.outbox, source, max), st.supply, max);
    BatchEntries(Added(st, source, max), payloads);
  }

  lemma {:induction false} BatchEntries(batches: seq<Batch>, payloads: seq<Payload>)
    requires |batches| == |payloads|
    requires forall i :: 0 <= i < |batches| ==> batches[i].payload == payloads[i]
    ensures EntriesOf(batches) == PayloadEntries(payloads)
  {
    if batches != [] {
      var n := |batches| - 1;
      BatchEntries(batches[..n], payloads[..n]);
      EntriesOfSnoc(batches[..n], batches[n]);
      assert batches[..n] + [batches[n]] == batches;
    }
  }
}
