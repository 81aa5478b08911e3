/** The two ways an entry is delivered: per-batch acknowledgement, and pages of
    a bulk result on top of a saved cursor. */
module Transport {
  import opened Prelude
  import opened Text
  import opened Tables
  import opened Inventory
  import opened Store

  // ---- What an acknowledgement records ----

  predicate Accepted(e: Entry, payload: Payload, response: Response) {
    Judge(e, payload, response).None?
  }

  function Verdicts(entries: seq<Entry>, payload: Payload, response: Response): (r: seq<bool>)
    ensures |r| == |entries|
    ensures forall i :: 0 <= i < |r| ==> r[i] == Accepted(entries[i], payload, response)
  {
    seq(|entries|, i requires 0 <= i < |entries| => Accepted(entries[i], payload, response))
  }

  /** Entry i is an accepted upsert or deletion of this item. */
  predicate Touches(entries: seq<Entry>, verdicts: seq<bool>, i: nat, item: ItemId)
    requires i < |entries| == |verdicts|
  {
    verdicts[i] && entries[i].operation != OtherOperation && entries[i].itemId == item
  }

  /** What one accepted entry does to the known occurrences. */
  function KnownThen(known: map<Key, Occurrence>, source: SourceId, e: Entry): map<Key, Occurrence> {
    match e.operation
    case Upsert => known[(source, e.itemId) := Occurrence(e.revision, e.RelativePath())]
    case Deleted => known - {(source, e.itemId)}
    case OtherOperation => known
  }

  function KnownAfter(known: map<Key, Occurrence>, source: SourceId, entries: seq<Entry>, verdicts: seq<bool>): map<Key, Occurrence>
    requires |entries| == |verdicts|
  {
    if entries == [] then known
    else
      var n := |entries| - 1;
      var before := KnownAfter(known, source, entries[..n], verdicts[..n]);
      if verdicts[n] then KnownThen(before, source, entries[n]) else before
  }

  lemma {:induction false} AcknowledgedKnown(inv: Inventory, source: SourceId, entries: seq<Entry>, payload: Payload, response: Response)
    ensures RecordAccepted(inv, source, entries, payload, response).known
         == KnownAfter(inv.known, source, entries, Verdicts(entries, payload, response))
  {
    if entries != [] {
      var n := |entries| - 1;
      AcknowledgedKnown(inv, source, entries[..n], payload, response);
      assert Verdicts(entries, payload, response)[..n] == Verdicts(entries[..n], payload, response);
    }
  }

  /** The last accepted upsert or deletion of the item. */
  function LastTouch(entries: seq<Entry>, verdicts: seq<bool>, item: ItemId): Option<nat>
    requires |entries| == |verdicts|
  {
    if entries == [] then None
    else
      var n := |entries| - 1;
      if Touches(entries, verdicts, n, item) then Some(n) else LastTouch(entries[..n], verdicts[..n], item)
  }

  lemma {:induction false} LastTouchIsLast(entries: seq<Entry>, verdicts: seq<bool>, item: ItemId)
    requires |entries| == |verdicts|
    ensures var last := LastTouch(entries, verdicts, item);
      && (last.Some? ==> last.value < |entries| && Touches(entries, verdicts, last.value, item))
      && (forall j :: (if last.Some? then last.value + 1 else 0) <= j < |entries| ==> !Touches(entries, verdicts, j, item))
  {
    if entries != [] {
      var n := |entries| - 1;
      LastTouchIsLast(entries[..n], verdicts[..n], item);
      assert forall j :: 0 <= j < n ==> Touches(entries, verdicts, j, item) == Touches(entries[..n], verdicts[..n], j, item);
    }
  }

  /** The known occurrences of an item after a batch: its last accepted entry decides,
      and an item without one keeps what it had. */
  lemma {:induction false} LastEntryDecides(known: map<Key, Occurrence>, source: SourceId, entries: seq<Entry>,
                                            verdicts: seq<bool>, item: ItemId)
    requires |entries| == |verdicts|
    ensures var after, key, last := KnownAfter(known, source, entries, verdicts), (source, item), LastTouch(entries, verdicts, item);
      if last.None? then (key in after <==> key in known) && (key in known ==> after[key] == known[key])
      else
        && last.value < |entries|
        && (entries[last.value].operation == Upsert ==>
              key in after && after[key] == Occurrence(entries[last.value].revision, entries[last.value].RelativePath()))
        && (entries[last.value].operation != Upsert ==> key !in after)
  {
    if entries != [] {
      var n := |entries| - 1;
      LastEntryDecides(known, source, entries[..n], verdicts[..n], item);
    }
  }

  /** A batch of one source touches no other source's occurrences. */
  lemma {:induction false} OtherSourcesKept(known: map<Key, Occurrence>, source: SourceId, entries: seq<Entry>, verdicts: seq<bool>, key: Key)
    requires |entries| == |verdicts| && key.0 != source
    ensures var after := KnownAfter(known, source, entries, verdicts);
      (key in after <==> key in known) && (key in known ==> after[key] == known[key])
  {
    if entries != [] {
      OtherSourcesKept(known, source, entries[..|entries| - 1], verdicts[..|entries| - 1], key);
    }
  }

  /** Entry i is an accepted upsert that stages its description under this item. */
  predicate Restages(entries: seq<Entry>, verdicts: seq<bool>, i: nat, item: ItemId)
    requires i < |entries| == |verdicts|
  {
    verdicts[i] && entries[i].operation == Upsert && Strip(entries[i].itemId) == item
  }

  /** After an accepted deletion no candidate names the item, unless a later upsert does. */
  lemma {:induction false} DeletedItemHasNoCandidate(inv: Inventory, source: SourceId, entries: seq<Entry>, payload: Payload,
                                                     response: Response, item: ItemId, i: nat)
    requires i < |entries| && Touches(entries, Verdicts(entries, payload, response), i, item) && entries[i].operation == Deleted
    requires forall j :: i < j < |entries| ==> !Restages(entries, Verdicts(entries, payload, response), j, item)
    ensures forall c :: c in RecordAccepted(inv, source, entries, payload, response).candidates ==>
      !(c.source == source && c.itemId == item)
  {
    var n := |entries| - 1;
    if i < n {
      assert Verdicts(entries, payload, response)[..n] == Verdicts(entries[..n], payload, response);
      assert forall j :: 0 <= j < n ==>
        Restages(entries[..n], Verdicts(entries[..n], payload, response), j, item)
          == Restages(entries, Verdicts(entries, payload, response), j, item);
      assert Touches(entries[..n], Verdicts(entries[..n], payload, response), i, item);
      DeletedItemHasNoCandidate(inv, source, entries[..n], payload, response, item, i);
      assert !Restages(entries, Verdicts(entries, payload, response), n, item);
    }
  }

  /** A job that had a candidate of an item when its deletion was recorded is gone at the end
      of the batch, or its task stands for a row that is left. Later entries may rewrite that
      row, and then the task keeps the fields it was given. */
  lemma {:induction false} DeletionSettlesJob(inv: Inventory, source: SourceId, entries: seq<Entry>, payload: Payload,
                                              response: Response, i: nat, job: JobId)
    requires i < |entries| && Accepted(entries[i], payload, response) && entries[i].operation == Deleted
    requires job in JobsOf(RecordAccepted(inv, source, entries[..i], payload, response).candidates, ItemOf(source, entries[i].itemId))
    ensures Stands(RecordAccepted(inv, source, entries, payload, response), job)
  {
    var n := |entries| - 1;
    var before, last := RecordAccepted(inv, source, entries[..n], payload, response), entries[n];
    if i < n {
      assert entries[..n][..i] == entries[..i];
      DeletionSettlesJob(inv, source, entries[..n], payload, response, i, job);
    }
    if Accepted(last, payload, response) {
      RecordStands(before, source, last, ResultFor(response.results, last.itemId).value, job);
    }
  }

  ghost predicate Listed(e: Entry, failures: seq<Failure>) {
    exists f :: f in failures && f.entry == Some(e)
  }

  /** Every entry is either accepted or listed with its reason, never both. */
  lemma {:induction false} EveryEntryAnswered(entries: seq<Entry>, payload: Payload, response: Response, e: Entry)
    requires e in entries
    ensures Accepted(e, payload, response) <==> !Listed(e, Objections(entries, payload, response))
    ensures !Accepted(e, payload, response) ==>
      Failure(Some(e), Judge(e, payload, response).value) in Objections(entries, payload, response)
  {
    var n := |entries| - 1;
    ListedWereRefused(entries, payload, response);
    if e in entries[..n] {
      EveryEntryAnswered(entries[..n], payload, response, e);
    }
  }

  lemma {:induction false} ListedWereRefused(entries: seq<Entry>, payload: Payload, response: Response)
    ensures forall f :: f in Objections(entries, payload, response) ==>
      f.entry.Some? && f.entry.value in entries && Judge(f.entry.value, payload, response) == Some(f.reason)
  {
    if entries != [] {
      ListedWereRefused(entries[..|entries| - 1], payload, response);
    }
  }

  // ---- Pages of a bulk result ----

  /** Two pages in a row do what their concatenation does, and fail where it fails. */
  lemma {:induction false} RowsInTwoPages(inv: Inventory, source: SourceId, cursor: nat, count: nat, a: seq<Row>, b: seq<Row>)
    ensures RecordRows(inv, source, cursor, count, a + b) ==
      match RecordRows(inv, source, cursor, count, a)
      case Err(error) => Err(error)
      case Ok(middle) => RecordRows(middle, source, cursor + |a|, count, b)
  {
    if b == [] {
      assert a + b == a;
    } else {
      var n := |b| - 1;
      assert (a + b)[..|a + b| - 1] == a + b[..n];
      RowsInTwoPages(inv, source, cursor, count, a, b[..n]);
      assert RecordRows(inv, source, cursor, count, a + b)
          == ThenRow(RecordRows(inv, source, cursor, count, a + b[..n]), source, cursor + |a + b|, count, b[n]);
    }
  }

  /** An accepted page is contiguous with the cursor and stays within the manifest. */
  lemma {:induction false} AcceptedRows(inv: Inventory, source: SourceId, cursor: nat, count: nat, rows: seq<Row>)
    requires RecordRows(inv, source, cursor, count, rows).Ok?
    ensures forall i :: 0 <= i < |rows| ==> rows[i].number == cursor + i + 1 && RowError(rows[i], cursor + i + 1, count).None?
    ensures rows != [] ==> cursor + |rows| <= count
  {
    if rows != [] {
      var n := |rows| - 1;
      AcceptedRows(inv, source, cursor, count, rows[..n]);
      forall i | 0 <= i < n
        ensures rows[i].number == cursor + i + 1 && RowError(rows[i], cursor + i + 1, count).None?
      {
        assert rows[i] == rows[..n][i];
      }
    }
  }

  /** A bulk result page never forgets a known occurrence. */
  lemma {:induction false} PageKeepsKnown(inv: Inventory, source: SourceId, cursor: nat, count: nat, rows: seq<Row>)
    requires RecordRows(inv, source, cursor, count, rows).Ok?
    ensures forall key :: key in inv.known ==> key in RecordRows(inv, source, cursor, count, rows).value.known
  {
    if rows != [] {
      PageKeepsKnown(inv, source, cursor, count, rows[..|rows| - 1]);
    }
  }

  function Advanced(row: Bulk, rows: nat): Bulk {
    row.(appliedThrough := row.appliedThrough + rows, state := ApplyingResult)
  }

  /** The cursor and the inventory move together; nothing else of the row changes. */
  lemma CursorAdvances(inv: Inventory, row: Bulk, rows: seq<Row>)
    requires ApplyPage(inv, row, rows).Ok?
    ensures row.appliedThrough < row.appliedThrough + |rows| <= row.entryCount
    ensures ApplyPage(inv, row, rows).value.1 == Advanced(row, |rows|)
    ensures RecordRows(inv, row.source, row.appliedThrough, row.entryCount, rows) == Ok(ApplyPage(inv, row, rows).value.0)
  {
  }

  lemma {:induction false} FindAfterSet(bulks: seq<Bulk>, new_: Bulk)
    requires FindBulk(bulks, new_.id).Some?
    ensures FindBulk(SetBulk(bulks, new_), new_.id) == Some(new_)
  {
  }

  lemma SetTwice(bulks: seq<Bulk>, a: Bulk, b: Bulk)
    requires a.id == b.id
    ensures SetBulk(SetBulk(bulks, a), b) == SetBulk(bulks, b)
  {
  }

  function Cursor(st: Store, id: BulkId): nat {
    match FindBulk(st.bulks, id)
    case None => 0
    case Some(row) => row.appliedThrough
  }

  /** How one page is applied to a state; it may refuse. */
  type Page<!S> = (S, seq<Row>) -> Result<S>

  /** Apply the rows in pages of the given sizes. Every page is one transaction that
      starts from what is saved, so a crash and restart between two pages changes
      nothing. Stops at the first refused page. */
  function Pages<S>(apply: Page<S>, state: S, rows: seq<Row>, sizes: seq<nat>): (S, Option<Error>)
    decreases |sizes|
  {
    if sizes == [] then (state, None)
    else
      var size := if sizes[0] <= |rows| then sizes[0] else |rows|;
      match apply(state, rows[..size])
      case Err(error) => (state, Some(error))
      case Ok(next) => Pages(apply, next, rows[size..], sizes[1..])
  }

  /** Pages of a bulk result, each on top of the cursor saved by the one before. */
  function ResultPage(id: BulkId): Page<Store> {
    (st, rows) => ApplyRows(st, id, rows)
  }

  function ApplyPages(st: Store, id: BulkId, rows: seq<Row>, sizes: seq<nat>): (Store, Option<Error>) {
    Pages(ResultPage(id), st, rows, sizes)
  }

  function Sum(sizes: seq<nat>): nat {
    if sizes == [] then 0 else sizes[0] + Sum(sizes[1..])
  }

  ghost predicate Divides(sizes: seq<nat>, total: nat) {
    Sum(sizes) == total && forall n :: n in sizes ==> n > 0
  }

  lemma TwoPages(inv: Inventory, row: Bulk, a: seq<Row>, b: seq<Row>)
    requires a != [] && b != []
    ensures ApplyPage(inv, row, a + b) ==
      match ApplyPage(inv, row, a)
      case Err(error) => Err(error)
      case Ok((middle, moved)) => ApplyPage(middle, moved, b)
  {
    RowsInTwoPages(inv, row.source, row.appliedThrough, row.entryCount, a, b);
    if ApplyPage(inv, row, a).Ok? {
      CursorAdvances(inv, row, a);
    }
    assert (a + b)[|a + b| - 1] == b[|b| - 1];
  }

  /** The first page of a longer run, against the one-shot application. */
  lemma FirstPage(st: Store, id: BulkId, a: seq<Row>, b: seq<Row>)
    requires a != [] && b != []
    ensures ApplyRows(st, id, a + b) ==
      match ApplyRows(st, id, a)
      case Err(error) => Err(error)
      case Ok(next) => ApplyRows(next, id, b)
  {
    if FindBulk(st.bulks, id).Some? {
      var row := FindBulk(st.bulks, id).value;
      TwoPages(st.inv, row, a, b);
      if ApplyPage(st.inv, row, a).Ok? {
        CursorAdvances(st.inv, row, a);
        var moved := ApplyPage(st.inv, row, a).value.1;
        FindAfterSet(st.bulks, moved);
        if ApplyPage(st.inv, row, a + b).Ok? {
          CursorAdvances(st.inv, row, a + b);
          SetTwice(st.bulks, moved, ApplyPage(st.inv, row, a + b).value.1);
        }
      }
    }
  }

  /** Two pages in a row are refused where, and end where, their concatenation is and does. */
  ghost predicate Splittable<S(!new)>(apply: Page<S>) {
    forall state, a, b {:trigger apply(state, a + b)} :: a != [] && b != [] ==>
      apply(state, a + b) == if apply(state, a).Ok? then apply(apply(state, a).value, b) else apply(state, a)
  }

  lemma SplitAt<S(!new)>(apply: Page<S>, state: S, rows: seq<Row>, size: nat)
    requires Splittable(apply) && 0 < size < |rows|
    ensures apply(state, rows) ==
      if apply(state, rows[..size]).Ok? then apply(apply(state, rows[..size]).value, rows[size..])
      else apply(state, rows[..size])
  {
    var a, b := rows[..size], rows[size..];
    assert apply(state, a + b) == if apply(state, a).Ok? then apply(apply(state, a).value, b) else apply(state, a);
    assert a + b == rows;
  }

  lemma FirstSize(sizes: seq<nat>, total: nat)
    requires total > 0 && Divides(sizes, total)
    ensures sizes != [] && 0 < sizes[0] <= total
    ensures sizes[0] == total ==> sizes == [total]
    ensures sizes[0] < total ==> Divides(sizes[1..], total - sizes[0])
  {
    assert sizes[0] in sizes;
    assert forall n :: n in sizes[1..] ==> n in sizes;
    if |sizes| > 1 {
      assert sizes[1] in sizes;
      assert Sum(sizes[1..]) == sizes[1] + Sum(sizes[1..][1..]);
    }
  }

  lemma {:induction false} PagesRefine<S(!new)>(apply: Page<S>, state: S, rows: seq<Row>, sizes: seq<nat>)
    requires Splittable(apply) && rows != [] && Divides(sizes, |rows|)
    ensures apply(state, rows).Ok? ==> Pages(apply, state, rows, sizes) == (apply(state, rows).value, None)
    ensures apply(state, rows).Err? ==> Pages(apply, state, rows, sizes).1 == Some(apply(state, rows).error)
    decreases |sizes|
  {
    var size := sizes[0];
    FirstSize(sizes, |rows|);
    if size == |rows| {
      assert rows[..size] == rows;
    } else {
      SplitAt(apply, state, rows, size);
      if apply(state, rows[..size]).Ok? {
        PagesRefine(apply, apply(state, rows[..size]).value, rows[size..], sizes[1..]);
      }
    }
  }

  /** end is the state with the first n of the rows applied in one shot. */
  ghost predicate Saves<S>(apply: Page<S>, state: S, rows: seq<Row>, n: nat, end: S) {
    n <= |rows| && if n == 0 then end == state else apply(state, rows[..n]) == Ok(end)
  }

  lemma {:induction false} PagesSave<S(!new)>(apply: Page<S>, state: S, rows: seq<Row>, sizes: seq<nat>) returns (saved: nat)
    requires Splittable(apply) && rows != [] && Divides(sizes, |rows|)
    ensures Saves(apply, state, rows, saved, Pages(apply, state, rows, sizes).0)
    decreases |sizes|
  {
    var size := sizes[0];
    FirstSize(sizes, |rows|);
    if apply(state, rows[..size]).Err? {
      saved := 0;
    } else if size == |rows| {
      saved := size;
    } else {
      var more := PagesSave(apply, apply(state, rows[..size]).value, rows[size..], sizes[1..]);
      saved := size + more;
      if more > 0 {
        SplitAt(apply, state, rows[..saved], size);
        assert rows[..saved][..size] == rows[..size];
        assert rows[..saved][size..] == rows[size..][..more];
      }
    }
  }

  lemma ResultPagesSplit(id: BulkId)
    ensures Splittable(ResultPage(id))
  {
    forall st, a, b | a != [] && b != []
      ensures ResultPage(id)(st, a + b) ==
        if ResultPage(id)(st, a).Ok? then ResultPage(id)(ResultPage(id)(st, a).value, b) else ResultPage(id)(st, a)
    {
      FirstPage(st, id, a, b);
    }
  }

  /** Any division of the rows into pages, crashes between pages included, ends as
      the one-shot application does; and when that is refused, so is some page. */
  lemma PagingRefinesOneShot(st: Store, id: BulkId, rows: seq<Row>, sizes: seq<nat>)
    requires rows != [] && Divides(sizes, |rows|)
    ensures ApplyRows(st, id, rows).Ok? ==> ApplyPages(st, id, rows, sizes) == (ApplyRows(st, id, rows).value, None)
    ensures ApplyRows(st, id, rows).Err? ==> ApplyPages(st, id, rows, sizes).1 == Some(ApplyRows(st, id, rows).error)
  {
    ResultPagesSplit(id);
    PagesRefine(ResultPage(id), st, rows, sizes);
  }

  /** Whatever the pages, what is saved is the one-shot application of a prefix:
      a refused page left nothing behind, and the cursor never went back. */
  lemma PagesSaveAPrefix(st: Store, id: BulkId, rows: seq<Row>, sizes: seq<nat>) returns (saved: nat)
    requires rows != [] && Divides(sizes, |rows|)
    ensures Saves(ResultPage(id), st, rows, saved, ApplyPages(st, id, rows, sizes).0)
    ensures Cursor(ApplyPages(st, id, rows, sizes).0, id) == Cursor(st, id) + saved
  {
    ResultPagesSplit(id);
    saved := PagesSave(ResultPage(id), st, rows, sizes);
    if saved > 0 {
      CursorMoves(st, id, rows[..saved]);
    }
  }

  lemma CursorMoves(st: Store, id: BulkId, rows: seq<Row>)
    requires ApplyRows(st, id, rows).Ok?
    ensures Cursor(ApplyRows(st, id, rows).value, id) == Cursor(st, id) + |rows|
  {
    var row := FindBulk(st.bulks, id).value;
    CursorAdvances(st.inv, row, rows);
    FindAfterSet(st.bulks, Advanced(row, |rows|));
  }

  // ---- The two transports agree ----

  /** A result that accepts its upsert, as either transport requires. */
  predicate AcceptsUpsert(e: Entry, r: EntryResult) {
    && e.operation == Upsert && e.itemId != "" && e.revision != "" && e.fileName != ""
    && r.itemId == e.itemId && r.outcome in UPSERT_OUTCOMES && !r.uploadRequired
  }

  predicate AllAccepted(entries: seq<Entry>, results: seq<EntryResult>) {
    |entries| == |results| && forall i :: 0 <= i < |entries| ==> AcceptsUpsert(entries[i], results[i])
  }

  function RecordUpserts(inv: Inventory, source: SourceId, entries: seq<Entry>, results: seq<EntryResult>): Inventory
    requires |entries| == |results|
  {
    if entries == [] then inv
    else
      var n := |entries| - 1;
      RecordUpsert(RecordUpserts(inv, source, entries[..n], results[..n]), source, entries[n], results[n])
  }

  lemma {:induction false} RecordUpsertsAppend(inv: Inventory, source: SourceId, a: seq<Entry>, x: seq<EntryResult>,
                                               b: seq<Entry>, y: seq<EntryResult>)
    requires |a| == |x| && |b| == |y|
    ensures RecordUpserts(inv, source, a + b, x + y) == RecordUpserts(RecordUpserts(inv, source, a, x), source, b, y)
  {
    if b == [] {
      assert a + b == a && x + y == x;
    } else {
      var n := |b| - 1;
      assert (a + b)[..|a + b| - 1] == a + b[..n];
      assert (x + y)[..|x + y| - 1] == x + y[..n];
      RecordUpsertsAppend(inv, source, a, x, b[..n], y[..n]);
    }
  }

  function Paired(entries: seq<Entry>, results: seq<EntryResult>, cursor: nat): (r: seq<Row>)
    requires |entries| == |results|
    ensures |r| == |entries|
    ensures forall i :: 0 <= i < |r| ==> r[i] == Row(cursor + i + 1, entries[i], results[i])
  {
    seq(|entries|, i requires 0 <= i < |entries| => Row(cursor + i + 1, entries[i], results[i]))
  }

  lemma {:induction false} BulkRecordsUpserts(inv: Inventory, source: SourceId, cursor: nat, count: nat,
                                              entries: seq<Entry>, results: seq<EntryResult>)
    requires AllAccepted(entries, results) && cursor + |entries| <= count
    ensures RecordRows(inv, source, cursor, count, Paired(entries, results, cursor))
         == Ok(RecordUpserts(inv, source, entries, results))
  {
    if entries != [] {
      var n := |entries| - 1;
      BulkRecordsUpserts(inv, source, cursor, count, entries[..n], results[..n]);
      assert Paired(entries, results, cursor)[..n] == Paired(entries[..n], results[..n], cursor);
    }
  }

  ghost predicate UniqueItems(entries: seq<Entry>) {
    forall i, j :: 0 <= i < j < |entries| ==> entries[i].itemId != entries[j].itemId
  }

  /** The service's answer that carries these results and counts no rejection. */
  function Answer(results: seq<EntryResult>): Response { Response(results, 0) }

  lemma EachAccepted(entries: seq<Entry>, results: seq<EntryResult>, payload: Payload, i: nat)
    requires AllAccepted(entries, results) && UniqueItems(entries) && i < |entries|
    ensures ResultFor(results, entries[i].itemId) == Some(results[i])
    ensures Accepted(entries[i], payload, Answer(results))
  {
  }

  lemma {:induction false} BatchRecordsUpserts(inv: Inventory, source: SourceId, entries: seq<Entry>, results: seq<EntryResult>,
                                               payload: Payload, n: nat)
    requires AllAccepted(entries, results) && UniqueItems(entries) && n <= |entries|
    ensures RecordAccepted(inv, source, entries[..n], payload, Answer(results))
         == RecordUpserts(inv, source, entries[..n], results[..n])
    ensures Objections(entries[..n], payload, Answer(results)) == []
  {
    if n > 0 {
      BatchRecordsUpserts(inv, source, entries, results, payload, n - 1);
      EachAccepted(entries, results, payload, n - 1);
      assert entries[..n][..n - 1] == entries[..n - 1] && results[..n][..n - 1] == results[..n - 1];
    }
  }

  /** Acknowledge the batches one by one, each with its share of the results. */
  function AcknowledgeEach(st: Store, batches: seq<Batch>, results: seq<EntryResult>): Store
    requires |results| == |EntriesOf(batches)|
    decreases |batches|
  {
    if batches == [] then st
    else
      var n := |batches[0].Entries()|;
      AcknowledgeEach(Acknowledge(st, batches[0], Answer(results[..n])), batches[1..], results[n..])
  }

  ghost predicate Deliverable(batches: seq<Batch>, source: SourceId, results: seq<EntryResult>) {
    && AllAccepted(EntriesOf(batches), results)
    && forall b :: b in batches ==> b.source == source && UniqueItems(b.Entries())
  }

  lemma OneBatchRecords(st: Store, batch: Batch, results: seq<EntryResult>)
    requires AllAccepted(batch.Entries(), results) && UniqueItems(batch.Entries())
    ensures Acknowledge(st, batch, Answer(results)).inv == RecordUpserts(st.inv, batch.source, batch.Entries(), results)
  {
    var entries, n := batch.Entries(), |results|;
    BatchRecordsUpserts(st.inv, batch.source, entries, results, batch.payload, n);
    assert entries[..n] == entries && results[..n] == results;
  }

  lemma FirstShare(batches: seq<Batch>, source: SourceId, results: seq<EntryResult>)
    requires batches != [] && Deliverable(batches, source, results)
    ensures var n := |batches[0].Entries()|;
      && n <= |results| && EntriesOf(batches) == batches[0].Entries() + EntriesOf(batches[1..])
      && AllAccepted(batches[0].Entries(), results[..n]) && UniqueItems(batches[0].Entries())
      && batches[0].source == source && Deliverable(batches[1..], source, results[n..])
  {
  }

  lemma SharesRecord(inv: Inventory, source: SourceId, first: seq<Entry>, rest: seq<Entry>, results: seq<EntryResult>)
    requires |results| == |first| + |rest|
    ensures RecordUpserts(RecordUpserts(inv, source, first, results[..|first|]), source, rest, results[|first|..])
         == RecordUpserts(inv, source, first + rest, results)
  {
    RecordUpsertsAppend(inv, source, first, results[..|first|], rest, results[|first|..]);
    assert results[..|first|] + results[|first|..] == results;
  }

  lemma {:induction false} BatchesRecordUpserts(st: Store, source: SourceId, batches: seq<Batch>, results: seq<EntryResult>)
    requires Deliverable(batches, source, results)
    ensures AcknowledgeEach(st, batches, results).inv == RecordUpserts(st.inv, source, EntriesOf(batches), results)
    decreases |batches|
  {
    if batches != [] {
      var n := |batches[0].Entries()|;
      FirstShare(batches, source, results);
      OneBatchRecords(st, batches[0], results[..n]);
      BatchesRecordUpserts(Acknowledge(st, batches[0], Answer(results[..n])), source, batches[1..], results[n..]);
      SharesRecord(st.inv, source, batches[0].Entries(), EntriesOf(batches[1..]), results);
    }
  }

  /** Bulk delivery in any pages and per-batch acknowledgement leave the same known
      occurrences, the same description candidates and the same description tasks. */
  lemma TransportsAgree(st: Store, id: BulkId, batches: seq<Batch>, results: seq<EntryResult>, sizes: seq<nat>)
    requires FindBulk(st.bulks, id).Some?
    requires var row := FindBulk(st.bulks, id).value;
      && row.state in {ResultReady, ApplyingResult} && row.appliedThrough == 0
      && row.entryCount == |EntriesOf(batches)| > 0
      && Deliverable(batches, row.source, results) && Divides(sizes, row.entryCount)
    ensures var (bulk, error) := ApplyPages(st, id, Paired(EntriesOf(batches), results, 0), sizes);
      && error.None?
      && bulk.inv == AcknowledgeEach(st, batches, results).inv
      && Cursor(bulk, id) == |EntriesOf(batches)|
  {
    var row := FindBulk(st.bulks, id).value;
    var rows := Paired(EntriesOf(batches), results, 0);
    BulkRecordsUpserts(st.inv, row.source, 0, row.entryCount, EntriesOf(batches), results);
    BatchesRecordUpserts(st, row.source, batches, results);
    PagingRefinesOneShot(st, id, rows, sizes);
    CursorMoves(st, id, rows);
  }
}
