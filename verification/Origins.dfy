/** Where the entries of a batch come from: in every run each batch carries entries of one
    diff, and what it deletes was not seen by the scan of that same diff. */
module Origins {
  import opened Prelude
  import opened Tables
  import opened Inventory
  import opened Store
  import opened Splitting
  import opened SyncDiff
  import opened Runs
  import opened Outbox

  // ---- What every outbox keeps ----

  /** The batch carries entries of its own diff; a deletion among them was missed by the scan
      behind that diff, which read everything. */
  ghost predicate Originates(b: Batch, origins: map<BatchId, Origin>) {
    && b.id in origins && origins[b.id].source == b.source
    && (forall e :: e in b.Entries() ==> e in origins[b.id].entries)
    && (forall e :: e in b.Entries() && e.operation == Deleted ==>
          b.payload.deletionReliable && origins[b.id].outcome.complete && e.itemId !in origins[b.id].outcome.seen)
  }

  ghost predicate AllOriginate(outbox: seq<Batch>, origins: map<BatchId, Origin>) {
    forall b :: b in outbox ==> Originates(b, origins)
  }

  lemma RewriteOriginates(before: seq<Batch>, after: seq<Batch>, origins: map<BatchId, Origin>)
    requires AllOriginate(before, origins) && Rewritten(before, after)
    ensures AllOriginate(after, origins)
  {
    forall b | b in after ensures Originates(b, origins) {
      var i :| 0 <= i < |after| && after[i] == b;
      assert before[i] in before;
    }
  }

  /** The deletions of a diff were missed by its scan, which read everything. */
  lemma DiffOriginates(outcome: ScanOutcome, order: seq<ItemId>, known: map<Key, Occurrence>, blocked: map<ItemId, string>,
                       source: SourceId, e: Entry)
    requires Scanned(outcome)
    requires e in Diff(outcome, order, known, blocked, source) && e.operation == Deleted
    ensures outcome.complete && e.itemId !in outcome.seen
  {
    ChangedMembers(outcome.entries, known, blocked, source);
    GoneMembers(order, known, blocked, source, outcome.seen);
  }

  lemma PayloadOriginates(st: Store, scan: ScanId, outcome: ScanOutcome, order: seq<ItemId>, b: Batch, origins: map<BatchId, Origin>)
    requires Scanned(outcome) && scan in st.scans && b.id in origins && origins[b.id] == DiffOrigin(st, scan, outcome, order)
    requires b.source == st.scans[scan].source
    requires b.payload in ManifestPayloads(scan, DiffOrigin(st, scan, outcome, order).entries, outcome.complete)
    ensures Originates(b, origins)
  {
    var entries := DiffOrigin(st, scan, outcome, order).entries;
    PayloadsCarryEntries(scan, entries, outcome.complete);
    forall e | e in b.Entries()
      ensures e in entries
      ensures e.operation == Deleted ==> b.payload.deletionReliable && outcome.complete && e.itemId !in outcome.seen
    {
      InPayloadEntries(ManifestPayloads(scan, entries, outcome.complete), b.payload, e);
      if e.operation == Deleted {
        DiffOriginates(outcome, order, st.inv.known, Quarantined(st.outbox, b.source), b.source, e);
      }
    }
  }

  /** Origins given to new identifiers leave the others alone. */
  lemma OlderOriginate(outbox: seq<Batch>, origins: map<BatchId, Origin>, later: map<BatchId, Origin>, firstId: nat)
    requires AllOriginate(outbox, origins) && forall b :: b in outbox ==> b.id < firstId
    requires forall id :: id in origins && id < firstId ==> id in later && later[id] == origins[id]
    ensures AllOriginate(outbox, later)
  {
  }

  lemma QueueOriginates(st: Store, scan: ScanId, outcome: ScanOutcome, order: seq<ItemId>, origins: map<BatchId, Origin>)
    requires AllOriginate(st.outbox, origins) && Below(st.outbox, st.supply) && Scanned(outcome) && scan in st.scans
    ensures var origin := DiffOrigin(st, scan, outcome, order);
      var payloads := ManifestPayloads(scan, origin.entries, outcome.complete);
      var added := NewBatches(origin.source, scan, payloads, st.supply);
      AllOriginate(st.outbox + added, NewOrigins(origins, added, origin))
  {
    var origin := DiffOrigin(st, scan, outcome, order);
    var payloads := ManifestPayloads(scan, origin.entries, outcome.complete);
    var added := NewBatches(origin.source, scan, payloads, st.supply);
    var later := NewOrigins(origins, added, origin);
    OlderOriginate(st.outbox, origins, later, st.supply);
    forall b | b in added ensures Originates(b, later) {
      assert b.payload in payloads;
      PayloadOriginates(st, scan, outcome, order, b, later);
    }
  }

  // ---- Splitting ----

  /** Replacement k is a piece of the batch that PieceSources names. */
  lemma {:induction false} PieceIsCut(oversized: seq<Batch>, scan: ScanId, max: nat, k: nat) returns (b: Batch)
    requires max >= 1 && k < |AllReplacements(oversized, scan, max)|
    ensures |PieceSources(oversized, max)| == |AllReplacements(oversized, scan, max)|
    ensures b in oversized && b.id == PieceSources(oversized, max)[k] && PieceOf(AllReplacements(oversized, scan, max)[k], b, scan)
  {
    var n := |oversized| - 1;
    var front, last := AllReplacements(oversized[..n], scan, max), oversized[n];
    SourcesCount(oversized[..n], scan, max);
    if k < |front| {
      b := PieceIsCut(oversized[..n], scan, max, k);
    } else {
      b := last;
      var p := AllReplacements(oversized, scan, max)[k];
      assert p == Replacements(last.payload, scan, max)[k - |front|];
      ReplacementsOfOne(last.payload, scan, max);
      forall e | e in p.entries ensures e in b.Entries() {
        InPayloadEntries(Replacements(b.payload, scan, max), p, e);
      }
    }
  }

  lemma {:induction false} SourcesCount(oversized: seq<Batch>, scan: ScanId, max: nat)
    requires max >= 1
    ensures |PieceSources(oversized, max)| == |AllReplacements(oversized, scan, max)|
  {
    if oversized != [] {
      SourcesCount(oversized[..|oversized| - 1], scan, max);
    }
  }

  lemma CopiedAt(origins: map<BatchId, Origin>, added: seq<Batch>, firstId: nat, cut: seq<BatchId>, k: nat)
    requires k < |added| == |cut| && added[k].id == firstId + k && cut[k] in origins
    ensures var later := CopyOrigins(origins, Ids(added), firstId, cut);
      added[k].id in later && later[added[k].id] == origins[cut[k]]
  {
    assert added[k] in added;
  }

  /** Each replacement is cut from one oversized batch and has that batch's origin. */
  lemma PieceOrigin(st: Store, source: SourceId, max: nat, origins: map<BatchId, Origin>, c: Batch) returns (b: Batch)
    requires AllOriginate(st.outbox, origins) && 1 <= max <= 500 && c in Added(st, source, max)
    ensures b in Oversized(st.outbox, source, max) && PieceOf(c.payload, b, st.supply)
    ensures var later := SplitOrigins(st, source, max, origins); c.id in later && later[c.id] == origins[b.id]
  {
    var oversized, added := Oversized(st.outbox, source, max), Added(st, source, max);
    var k :| 0 <= k < |added| && added[k] == c;
    b := PieceIsCut(oversized, st.supply, max, k);
    assert Originates(b, origins);
    CopiedAt(origins, added, st.supply + 1, PieceSources(oversized, max), k);
  }

  lemma PieceOriginates(b: Batch, c: Batch, scan: ScanId, origins: map<BatchId, Origin>, later: map<BatchId, Origin>)
    requires Originates(b, origins) && PieceOf(c.payload, b, scan) && c.source == b.source
    requires c.id in later && later[c.id] == origins[b.id]
    ensures Originates(c, later)
  {
  }

  /** Splitting keeps every batch at its diff: a row keeps its origin, and each replacement
      has the one of the batch it is cut from. */
  lemma SplitOriginates(st: Store, source: SourceId, max: nat, origins: map<BatchId, Origin>)
    requires AllOriginate(st.outbox, origins) && IdsOk(st.outbox, st.supply) && 1 <= max <= 500
    ensures var after, later := Split(st, source, max).value.0, SplitOrigins(st, source, max, origins);
      && AllOriginate(after.outbox, later)
      && (forall b :: b in st.outbox ==> b.id in later && later[b.id] == origins[b.id])
      && (forall c :: c in after.outbox && c.id >= st.supply ==>
            exists b :: b in Oversized(st.outbox, source, max) && PieceOf(c.payload, b, st.supply) && later[c.id] == origins[b.id])
  {
    var oversized, later := Oversized(st.outbox, source, max), SplitOrigins(st, source, max, origins);
    OlderOriginate(st.outbox, origins, later, st.supply);
    if oversized != [] {
      var added := Added(st, source, max);
      forall c | c in added
        ensures Originates(c, later)
        ensures exists b :: b in oversized && PieceOf(c.payload, b, st.supply) && later[c.id] == origins[b.id]
      {
        var b := PieceOrigin(st, source, max, origins, c);
        PieceOriginates(b, c, st.supply, origins, later);
      }
      MarkRewrites(st.outbox + added, Ids(oversized), true, Discarded, SplitNote(st.supply));
      RewriteOriginates(st.outbox + added, Split(st, source, max).value.0.outbox, later);
      forall c | c in Split(st, source, max).value.0.outbox && c.id >= st.supply
        ensures exists b :: b in oversized && PieceOf(c.payload, b, st.supply) && later[c.id] == origins[b.id]
      {
        NewRowsAreAdded(st.outbox, added, Split(st, source, max).value.0.outbox, st.supply, c);
      }
    }
  }

  lemma NewRowsAreAdded(before: seq<Batch>, added: seq<Batch>, after: seq<Batch>, supply: nat, c: Batch)
    requires Rewritten(before + added, after) && Below(before, supply) && c in after && c.id >= supply
    ensures exists d :: d in added && d.id == c.id && d.payload == c.payload
  {
    assert forall j :: 0 <= j < |before| ==> before[j] in before;
    var i :| 0 <= i < |after| && after[i] == c;
    var d := added[i - |before|];
  }

  lemma RemoveOriginates(outbox: seq<Batch>, source: SourceId, origins: map<BatchId, Origin>)
    requires AllOriginate(outbox, origins)
    ensures AllOriginate(WithoutSource(outbox, source), OriginsWithout(origins, source))
  {
  }

  // ---- Every origin is a step of the run ----

  /** Step i queued the diff of this scan. */
  ghost predicate QueuedAt(steps: seq<Step>, i: nat, origin: Origin) {
    && i < |steps| && steps[i].DiffQueued? && Allowed(Run(steps[..i]).store, steps[i])
    && origin == DiffOrigin(Run(steps[..i]).store, steps[i].scan, steps[i].outcome, steps[i].order)
  }

  /** A removal that is not refused. */
  ghost predicate Removes(w: World, step: Step, source: SourceId) {
    step == SourceRemoved(source) && RemoveSource(w.store, source).Ok?
  }

  /** From step i on the source is never removed. */
  ghost predicate StaysFrom(steps: seq<Step>, i: nat, source: SourceId) {
    forall j :: i <= j < |steps| ==> !Removes(Run(steps[..j]), steps[j], source)
  }

  lemma OthersKeepOrigins(w: World, step: Step)
    requires !step.DiffQueued? && !step.OversizedSplit? && !step.SourceRemoved?
    ensures Do(w, step).ledger.origins == w.ledger.origins
  {
  }

  lemma SplitCopies(st: Store, source: SourceId, max: nat, origins: map<BatchId, Origin>, id: BatchId) returns (was: BatchId)
    requires max >= 1 && id in SplitOrigins(st, source, max, origins)
    ensures was in origins && SplitOrigins(st, source, max, origins)[id] == origins[was]
  {
    var origin := SplitOrigins(st, source, max, origins)[id];
    assert origin in SplitOrigins(st, source, max, origins).Values;
    was :| was in origins && origins[was] == origin;
  }

  /** An origin is that of the diff just queued, or was there before, its source not removed. */
  lemma StepOrigin(w: World, step: Step, id: BatchId) returns (was: Option<BatchId>)
    requires id in Do(w, step).ledger.origins
    ensures var origin := Do(w, step).ledger.origins[id];
      match was
      case None =>
        step.DiffQueued? && Allowed(w.store, step) && origin == DiffOrigin(w.store, step.scan, step.outcome, step.order)
      case Some(older) => older in w.ledger.origins && w.ledger.origins[older] == origin && !Removes(w, step, origin.source)
  {
    if !Allowed(w.store, step) {
      was := Some(id);
    } else if step.DiffQueued? {
      was := if id in w.ledger.origins && w.ledger.origins[id] == Do(w, step).ledger.origins[id] then Some(id) else None;
    } else if step.OversizedSplit? {
      if 1 <= step.max <= 500 {
        var older := SplitCopies(w.store, step.source, step.max, w.ledger.origins, id);
        was := Some(older);
      } else {
        was := Some(id);
      }
    } else if step.SourceRemoved? {
      was := Some(id);
    } else {
      OthersKeepOrigins(w, step);
      was := Some(id);
    }
  }

  lemma PrefixRuns(steps: seq<Step>, n: nat, i: nat)
    requires i <= n <= |steps|
    ensures steps[..n][..i] == steps[..i]
  {
  }

  lemma QueuedBefore(steps: seq<Step>, i: nat, origin: Origin)
    requires steps != [] && QueuedAt(steps[..|steps| - 1], i, origin)
    ensures QueuedAt(steps, i, origin)
  {
    PrefixRuns(steps, |steps| - 1, i);
  }

  lemma StaysOn(steps: seq<Step>, i: nat, source: SourceId)
    requires steps != [] && StaysFrom(steps[..|steps| - 1], i, source)
    requires !Removes(Run(steps[..|steps| - 1]), steps[|steps| - 1], source)
    ensures StaysFrom(steps, i, source)
  {
    var n := |steps| - 1;
    forall j | i <= j < |steps| ensures !Removes(Run(steps[..j]), steps[j], source) {
      if j < n {
        PrefixRuns(steps, n, j);
        assert !Removes(Run(steps[..n][..j]), steps[..n][j], source);
      }
    }
  }

  /** In every run the origin of a batch is the diff of an earlier step, and the source was
      not removed since. */
  lemma {:induction false} OriginIsQueued(steps: seq<Step>, id: BatchId) returns (i: nat)
    requires id in Run(steps).ledger.origins
    ensures QueuedAt(steps, i, Run(steps).ledger.origins[id])
    ensures StaysFrom(steps, i, Run(steps).ledger.origins[id].source)
  {
    var n, origin := |steps| - 1, Run(steps).ledger.origins[id];
    var was := StepOrigin(Run(steps[..n]), steps[n], id);
    if was.None? {
      i := n;
      assert StaysFrom(steps[..n], n, origin.source);
    } else {
      i := OriginIsQueued(steps[..n], was.value);
      QueuedBefore(steps, i, origin);
    }
    StaysOn(steps, i, origin.source);
  }
}
