/** The two readers of a bulk result: one that holds every row in memory, and one that
    verifies the rows once and then streams them from a saved cursor. */
module ResultReader {
  import opened Prelude
  import opened Framing

  const OUTCOMES: set<string> := {"CreatedOccurrence", "UpdatedOccurrence", "DuplicateLinked", "DeletedOccurrence",
                                  "IgnoredDeletion", "Unchanged", "Rejected"}

  datatype Header = Header(importId: string, counts: map<string, nat>, cursor: Option<string>, accepted: Option<string>)

  datatype ResultEntry = ResultEntry(row: nat, itemId: string, outcome: string, occurrence: Option<string>,
    media: Option<string>, job: Option<string>, uploadRequired: bool, errorCode: Option<string>, errorMessage: Option<string>)

  // ---- Records ----

  predicate IsText(value: Json) { value.JNull? || value.JString? }

  function TextOf(value: Json): Option<string> {
    if value.JString? then Some(value.text) else None
  }

  predicate AreCounts(value: Json) {
    value.JObject? && forall key :: key in value.fields ==>
      key != "" && value.fields[key].JInt? && value.fields[key].number >= 0
  }

  function CountsOf(value: Json): map<string, nat>
    requires AreCounts(value)
  {
    map key | key in value.fields :: value.fields[key].number
  }

  /** The header checks, in the order both readers make them. */
  function HeaderOf(codec: Codec, record: Record, expected: Option<string>): Read<Header> {
    if Get(record, "recordType") != JString("Result") || Get(record, "schemaVersion") != JString("ManifestResultNdjsonV1")
    then Bad(HeaderInvalid)
    else
      match codec.uuid(Get(record, "importId"))
      case None => Bad(IdentifierInvalid)
      case Some(importId) =>
        if expected.Some? && importId != expected.value then Bad(ImportMismatch)
        else if !AreCounts(Get(record, "counts")) then Bad(HeaderInvalid)
        else if !IsText(Get(record, "sourceCursor")) || !IsText(Get(record, "acceptedAtUtc")) then Bad(HeaderInvalid)
        else Good(Header(importId, CountsOf(Get(record, "counts")), TextOf(Get(record, "sourceCursor")),
                         TextOf(Get(record, "acceptedAtUtc"))))
  }

  function OptionalUuid(codec: Codec, value: Json): Read<Option<string>> {
    if value.JNull? then Good(None)
    else
      match codec.uuid(value)
      case None => Bad(EntryInvalid)
      case Some(text) => Good(Some(text))
  }

  function WithIdentifiers(codec: Codec, record: Record, entry: ResultEntry): Read<ResultEntry> {
    match OptionalUuid(codec, Get(record, "occurrenceId"))
    case Bad(code) => Bad(code)
    case Good(occurrence) =>
      match OptionalUuid(codec, Get(record, "mediaAssetId"))
      case Bad(code) => Bad(code)
      case Good(media) =>
        match OptionalUuid(codec, Get(record, "descriptionJobId"))
        case Bad(code) => Bad(code)
        case Good(job) => Good(entry.(occurrence := occurrence, media := media, job := job))
  }

  /** One row; an outcome that cannot be looked up in a set raises. */
  function EntryOf(codec: Codec, record: Record, expectedRow: nat): (r: Read<ResultEntry>)
    ensures r.Good? ==> r.value.row == expectedRow
  {
    var item, outcome := Get(record, "sourceItemId"), Get(record, "outcome");
    var upload := if "uploadRequired" in record then record["uploadRequired"] else JBool(false);
    if Get(record, "recordType") != JString("EntryResult") then Bad(RecordInvalid)
    else if Get(record, "rowNumber") != JInt(expectedRow) then Bad(RowSequenceInvalid)
    else if !item.JString? || item.text == "" || |item.text| > 512 then Bad(EntryInvalid)
    else if outcome.JArray? || outcome.JObject? then Bad(OutcomeUnhashable)
    else if !outcome.JString? || outcome.text !in OUTCOMES then Bad(EntryInvalid)
    else if !upload.JBool? || !IsText(Get(record, "errorCode")) || !IsText(Get(record, "errorMessage")) then Bad(EntryInvalid)
    else WithIdentifiers(codec, record,
           ResultEntry(expectedRow, item.text, outcome.text, None, None, None, upload.flag,
                       TextOf(Get(record, "errorCode")), TextOf(Get(record, "errorMessage"))))
  }

  // ---- In memory ----

  datatype Held = Held(header: Option<Header>, entries: seq<ResultEntry>)

  function HoldLine(codec: Codec, expected: Option<string>, max: nat, held: Held, line: Bytes): Read<Held> {
    match JsonRecord(codec, line)
    case Bad(code) => Bad(code)
    case Good(record) =>
      if held.header.None? then
        match HeaderOf(codec, record, expected)
        case Bad(code) => Bad(code)
        case Good(header) => Good(Held(Some(header), []))
      else
        match EntryOf(codec, record, |held.entries| + 1)
        case Bad(code) => Bad(code)
        case Good(entry) =>
          if |held.entries| + 1 > max then Bad(MemoryLimitExceeded) else Good(held.(entries := held.entries + [entry]))
  }

  function Holding(codec: Codec, expected: Option<string>, max: nat): (Held, Bytes) -> Read<Held> {
    (held, line) => HoldLine(codec, expected, max, held, line)
  }

  datatype ResultFile = ResultFile(header: Header, entries: seq<ResultEntry>, bytes: nat)

  function Concluded(held: Held, stop: Option<Code>, bytes: nat): Read<ResultFile> {
    if stop.Some? then Bad(stop.value)
    else if held.header.None? then Bad(HeaderMissing)
    else if held.entries == [] then Bad(EntryCountInvalid)
    else Good(ResultFile(held.header.value, held.entries, bytes))
  }

  /** parse_result_gzip, on a verified file. */
  function Parse(codec: Codec, limits: Limits, stream: Bytes, expected: Option<string>, max: nat): Read<ResultFile> {
    var (held, stop) := Fold(limits, Holding(codec, expected, max), stream, 0, Held(None, []));
    Concluded(held, stop, |stream|)
  }

  method ParseResult(codec: Codec, limits: Limits, stream: Bytes, expected: Option<string>, max: nat)
    returns (r: Read<ResultFile>)
    ensures r == Parse(codec, limits, stream, expected, max)
  {
    var header: Option<Header>, entries: seq<ResultEntry> := None, [];
    var rest: Bytes, used: nat := stream, 0;
    ghost var goal := Fold(limits, Holding(codec, expected, max), stream, 0, Held(None, []));
    assert Parse(codec, limits, stream, expected, max) == Concluded(goal.0, goal.1, |stream|);
    while rest != []
      invariant Fold(limits, Holding(codec, expected, max), rest, used, Held(header, entries)) == goal
      invariant used + |rest| == |stream|
      decreases |rest|
    {
      var taken := NextLine(limits, rest, used);
      if taken.Refuse? {
        return Bad(taken.code);
      }
      var record := JsonRecord(codec, taken.content);
      if record.Bad? {
        return Bad(record.code);
      }
      if header.None? {
        var values := HeaderOf(codec, record.value, expected);
        if values.Bad? {
          return Bad(values.code);
        }
        header, entries := Some(values.value), [];
      } else {
        var entry := EntryOf(codec, record.value, |entries| + 1);
        if entry.Bad? {
          return Bad(entry.code);
        }
        if |entries| + 1 > max {
          return Bad(MemoryLimitExceeded);
        }
        entries := entries + [entry.value];
      }
      rest, used := taken.rest, taken.used;
    }
    if header.None? {
      return Bad(HeaderMissing);
    }
    if entries == [] {
      return Bad(EntryCountInvalid);
    }
    r := Good(ResultFile(header.value, entries, used));
  }

  // ---- Verify once ----

  datatype Counted = Counted(header: Option<Header>, count: nat)

  function CountLine(codec: Codec, expected: Option<string>, entries: nat, counted: Counted, line: Bytes): Read<Counted> {
    match JsonRecord(codec, line)
    case Bad(code) => Bad(code)
    case Good(record) =>
      if counted.header.None? then
        match HeaderOf(codec, record, expected)
        case Bad(code) => Bad(code)
        case Good(header) => Good(Counted(Some(header), 0))
      else if counted.count + 1 > entries then Bad(EntryLimitExceeded)
      else
        match EntryOf(codec, record, counted.count + 1)
        case Bad(code) => Bad(code)
        case Good(_) => Good(counted.(count := counted.count + 1))
  }

  function Counting(codec: Codec, expected: Option<string>, entries: nat): (Counted, Bytes) -> Read<Counted> {
    (counted, line) => CountLine(codec, expected, entries, counted, line)
  }

  datatype Verified = Verified(header: Header, entryCount: nat, bytes: nat)

  /** read_result_header, on a file that does not change meanwhile. */
  function Verify(codec: Codec, limits: Limits, stream: Bytes, expected: Option<string>): Read<Verified> {
    var (counted, stop) := Fold(limits, Counting(codec, expected, limits.entries), stream, 0, Counted(None, 0));
    Checked(counted, stop, |stream|)
  }

  function Checked(counted: Counted, stop: Option<Code>, bytes: nat): Read<Verified> {
    if stop.Some? then Bad(stop.value)
    else if counted.header.None? then Bad(HeaderMissing)
    else if counted.count == 0 then Bad(EntryCountInvalid)
    else Good(Verified(counted.header.value, counted.count, bytes))
  }

  method CheckLine(codec: Codec, expected: Option<string>, maxEntries: nat, counted: Counted, line: Bytes) returns (r: Read<Counted>)
    ensures r == CountLine(codec, expected, maxEntries, counted, line)
  {
    var record := JsonRecord(codec, line);
    if record.Bad? {
      return Bad(record.code);
    }
    if counted.header.None? {
      var values := HeaderOf(codec, record.value, expected);
      return if values.Bad? then Bad(values.code) else Good(Counted(Some(values.value), 0));
    }
    var count := counted.count + 1;
    if count > maxEntries {
      return Bad(EntryLimitExceeded);
    }
    var entry := EntryOf(codec, record.value, count);
    r := if entry.Bad? then Bad(entry.code) else Good(counted.(count := count));
  }

  method ReadResultHeader(codec: Codec, limits: Limits, stream: Bytes, expected: Option<string>) returns (r: Read<Verified>)
    ensures r == Verify(codec, limits, stream, expected)
  {
    var counted := Counted(None, 0);
    var rest: Bytes, used: nat := stream, 0;
    ghost var goal := Fold(limits, Counting(codec, expected, limits.entries), stream, 0, counted);
    assert Verify(codec, limits, stream, expected) == Checked(goal.0, goal.1, |stream|);
    while rest != []
      invariant Fold(limits, Counting(codec, expected, limits.entries), rest, used, counted) == goal
      invariant used + |rest| == |stream|
      decreases |rest|
    {
      var taken := NextLine(limits, rest, used);
      if taken.Refuse? {
        return Bad(taken.code);
      }
      var next := CheckLine(codec, expected, limits.entries, counted, taken.content);
      if next.Bad? {
        return Bad(next.code);
      }
      counted, rest, used := next.value, taken.rest, taken.used;
    }
    if counted.header.None? {
      return Bad(HeaderMissing);
    }
    if counted.count == 0 {
      return Bad(EntryCountInvalid);
    }
    r := Good(Verified(counted.header.value, counted.count, used));
  }

  // ---- Stream from a cursor ----

  datatype Streaming = Streaming(started: bool, observed: nat, yielded: seq<ResultEntry>)

  function StreamLine(codec: Codec, header: Header, after: nat, s: Streaming, line: Bytes): Read<Streaming> {
    match JsonRecord(codec, line)
    case Bad(code) => Bad(code)
    case Good(record) =>
      if !s.started then
        match HeaderOf(codec, record, Some(header.importId))
        case Bad(code) => Bad(code)
        case Good(again) => if again == header then Good(s.(started := true)) else Bad(Changed)
      else
        match EntryOf(codec, record, s.observed + 1)
        case Bad(code) => Bad(code)
        case Good(entry) =>
          Good(s.(observed := s.observed + 1, yielded := if entry.row > after then s.yielded + [entry] else s.yielded))
  }

  function Streams(codec: Codec, header: Header, after: nat): (Streaming, Bytes) -> Read<Streaming> {
    (s, line) => StreamLine(codec, header, after, s, line)
  }

  /** iter_result_entries: what it yields, and the error it ends with, if any. */
  function Iterate(codec: Codec, limits: Limits, stream: Bytes, verified: Verified, after: nat): (seq<ResultEntry>, Option<Code>) {
    if after > verified.entryCount then ([], Some(CursorOutside))
    else if |stream| != verified.bytes then ([], Some(Changed))
    else
      var (s, stop) := Fold(limits, Streams(codec, verified.header, after), stream, 0, Streaming(false, 0, []));
      (s.yielded, if stop.Some? then stop else if s.observed != verified.entryCount then Some(Changed) else None)
  }

  method IterateResult(codec: Codec, limits: Limits, stream: Bytes, verified: Verified, after: nat)
    returns (yielded: seq<ResultEntry>, error: Option<Code>)
    ensures (yielded, error) == Iterate(codec, limits, stream, verified, after)
  {
    yielded := [];
    if after > verified.entryCount {
      return [], Some(CursorOutside);
    }
    if |stream| != verified.bytes {
      return [], Some(Changed);
    }
    var started, observed := false, 0;
    var rest: Bytes, used: nat := stream, 0;
    while rest != []
      invariant Fold(limits, Streams(codec, verified.header, after), rest, used, Streaming(started, observed, yielded))
             == Fold(limits, Streams(codec, verified.header, after), stream, 0, Streaming(false, 0, []))
      decreases |rest|
    {
      var taken := NextLine(limits, rest, used);
      if taken.Refuse? {
        return yielded, Some(taken.code);
      }
      var record := JsonRecord(codec, taken.content);
      if record.Bad? {
        return yielded, Some(record.code);
      }
      if !started {
        var again := HeaderOf(codec, record.value, Some(verified.header.importId));
        if again.Bad? {
          return yielded, Some(again.code);
        }
        if again.value != verified.header {
          return yielded, Some(Changed);
        }
        started := true;
      } else {
        var entry := EntryOf(codec, record.value, observed + 1);
        if entry.Bad? {
          return yielded, Some(entry.code);
        }
        observed := observed + 1;
        if entry.value.row > after {
          yielded := yielded + [entry.value];
        }
      }
      rest, used := taken.rest, taken.used;
    }
    error := if observed != verified.entryCount then Some(Changed) else None;
  }

  // ---- The readers agree ----

  /** Both readers have read the same rows. */
  ghost predicate InStep(held: Held, counted: Counted, max: nat) {
    held.header == counted.header && |held.entries| == counted.count <= max && (held.header.None? ==> held.entries == [])
  }

  lemma OneLine(codec: Codec, expected: Option<string>, max: nat, entries: nat, held: Held, counted: Counted, line: Bytes)
    requires InStep(held, counted, max) && max <= entries
    ensures var a, b := HoldLine(codec, expected, max, held, line), CountLine(codec, expected, entries, counted, line);
      && (a.Good? ==> b.Good? && InStep(a.value, b.value, max))
      && (a.Bad? && a.code != MemoryLimitExceeded && max < entries ==> b == Bad(a.code))
      && (a.Bad? && b.Good? ==> b.value.count > max)
  {
  }

  lemma {:induction false} CountGrows(codec: Codec, limits: Limits, expected: Option<string>, s: Bytes, used: nat, counted: Counted)
    requires counted.header.Some?
    ensures Fold(limits, Counting(codec, expected, limits.entries), s, used, counted).0.count >= counted.count
    decreases |s|
  {
    var taken := NextLine(limits, s, used);
    if taken.Line? {
      var next := CountLine(codec, expected, limits.entries, counted, taken.content);
      if next.Good? {
        CountGrows(codec, limits, expected, taken.rest, taken.used, next.value);
      }
    }
  }

  lemma {:induction false} FoldsAgree(codec: Codec, limits: Limits, expected: Option<string>, max: nat, s: Bytes, used: nat,
                                      held: Held, counted: Counted)
    requires InStep(held, counted, max) && max <= limits.entries
    ensures var (x, p) := Fold(limits, Holding(codec, expected, max), s, used, held);
      var (y, q) := Fold(limits, Counting(codec, expected, limits.entries), s, used, counted);
      && (p.None? ==> q.None? && InStep(x, y, max))
      && (p.Some? && q.None? ==> y.count > max)
      && (p.Some? && p != Some(MemoryLimitExceeded) && max < limits.entries ==> q == p)
    decreases |s|
  {
    var taken := NextLine(limits, s, used);
    if taken.Line? {
      OneLine(codec, expected, max, limits.entries, held, counted, taken.content);
      var a := HoldLine(codec, expected, max, held, taken.content);
      var b := CountLine(codec, expected, limits.entries, counted, taken.content);
      if a.Good? {
        FoldsAgree(codec, limits, expected, max, taken.rest, taken.used, a.value, b.value);
      } else if b.Good? {
        CountGrows(codec, limits, expected, taken.rest, taken.used, b.value);
      }
    }
  }

  /** The rows after a cursor. */
  function After(entries: seq<ResultEntry>, k: nat): seq<ResultEntry> {
    if k <= |entries| then entries[k..] else []
  }

  ghost predicate Following(held: Held, s: Streaming, header: Header, k: nat) {
    && s.observed == |held.entries| && s.yielded == After(held.entries, k)
    && (if s.started then held.header == Some(header) else held == Held(None, []))
  }

  lemma FollowLine(codec: Codec, expected: Option<string>, max: nat, held: Held, s: Streaming, header: Header, k: nat, line: Bytes)
    requires Following(held, s, header, k)
    requires HoldLine(codec, expected, max, held, line).Good?
    requires held.header.None? ==> HoldLine(codec, expected, max, held, line).value.header == Some(header)
    ensures StreamLine(codec, header, k, s, line).Good?
    ensures Following(HoldLine(codec, expected, max, held, line).value, StreamLine(codec, header, k, s, line).value, header, k)
  {
  }

  lemma {:induction false} HeaderStays(codec: Codec, limits: Limits, expected: Option<string>, max: nat, s: Bytes, used: nat, held: Held)
    requires held.header.Some?
    ensures Fold(limits, Holding(codec, expected, max), s, used, held).0.header == held.header
    decreases |s|
  {
    var taken := NextLine(limits, s, used);
    if taken.Line? {
      var next := HoldLine(codec, expected, max, held, taken.content);
      if next.Good? {
        HeaderStays(codec, limits, expected, max, taken.rest, taken.used, next.value);
      }
    }
  }

  lemma {:induction false} FoldFollows(codec: Codec, limits: Limits, expected: Option<string>, max: nat, s: Bytes, used: nat,
                                       held: Held, stream: Streaming, header: Header, k: nat)
    requires Following(held, stream, header, k)
    requires var (x, p) := Fold(limits, Holding(codec, expected, max), s, used, held);
      p.None? && x.header == Some(header)
    ensures var (x, _) := Fold(limits, Holding(codec, expected, max), s, used, held);
      var (y, q) := Fold(limits, Streams(codec, header, k), s, used, stream);
      q.None? && y.observed == |x.entries| && y.yielded == After(x.entries, k)
    decreases |s|
  {
    var taken := NextLine(limits, s, used);
    if taken.Line? {
      var next := HoldLine(codec, expected, max, held, taken.content).value;
      HeaderStays(codec, limits, expected, max, taken.rest, taken.used, next);
      FollowLine(codec, expected, max, held, stream, header, k, taken.content);
      FoldFollows(codec, limits, expected, max, taken.rest, taken.used, next,
                  StreamLine(codec, header, k, stream, taken.content).value, header, k);
    }
  }

  /** Below the entry limit both readers refuse for the same reason; and verifying accepts
      exactly the results the in-memory reader accepts, as long as they fit in memory,
      with the same header and row count. */
  lemma VerifyAgrees(codec: Codec, limits: Limits, stream: Bytes, expected: Option<string>, max: nat)
    requires max <= limits.entries
    ensures var parsed, verified := Parse(codec, limits, stream, expected, max), Verify(codec, limits, stream, expected);
      && (parsed.Good? ==> verified == Good(Verified(parsed.value.header, |parsed.value.entries|, |stream|))
                           && |parsed.value.entries| <= max)
      && (parsed.Bad? && verified.Good? ==> verified.value.entryCount > max)
      && (parsed.Bad? && parsed.code != MemoryLimitExceeded && max < limits.entries ==> verified == Bad(parsed.code))
  {
    FoldsAgree(codec, limits, expected, max, stream, 0, Held(None, []), Counted(None, 0));
    var (held, p) := Fold(limits, Holding(codec, expected, max), stream, 0, Held(None, []));
    var (counted, q) := Fold(limits, Counting(codec, expected, limits.entries), stream, 0, Counted(None, 0));
    assert Parse(codec, limits, stream, expected, max) == Concluded(held, p, |stream|);
  }

  lemma StreamAgrees(codec: Codec, limits: Limits, stream: Bytes, expected: Option<string>, max: nat, file: ResultFile, k: nat)
    requires Parse(codec, limits, stream, expected, max) == Good(file) && k <= |file.entries|
    ensures Iterate(codec, limits, stream, Verified(file.header, |file.entries|, |stream|), k) == (file.entries[k..], None)
  {
    var (held, stop) := Fold(limits, Holding(codec, expected, max), stream, 0, Held(None, []));
    assert Parse(codec, limits, stream, expected, max) == Concluded(held, stop, |stream|);
    FoldFollows(codec, limits, expected, max, stream, 0, Held(None, []), Streaming(false, 0, []), file.header, k);
  }

  /** Verify, then stream from a cursor: it works exactly where the in-memory reader does,
      as long as the rows fit in memory, and yields its rows after the cursor. */
  lemma ReadersAgree(codec: Codec, limits: Limits, stream: Bytes, expected: Option<string>, max: nat)
    requires max <= limits.entries
    ensures Parse(codec, limits, stream, expected, max).Good? <==>
      Verify(codec, limits, stream, expected).Good? && Verify(codec, limits, stream, expected).value.entryCount <= max
    ensures forall file, k {:trigger Parse(codec, limits, stream, expected, max) == Good(file), file.entries[k..]} ::
      Parse(codec, limits, stream, expected, max) == Good(file) && 0 <= k <= |file.entries| ==>
        Iterate(codec, limits, stream, Verify(codec, limits, stream, expected).value, k) == (file.entries[k..], None)
  {
    VerifyAgrees(codec, limits, stream, expected, max);
    forall file, k | Parse(codec, limits, stream, expected, max) == Good(file) && 0 <= k <= |file.entries|
      ensures Iterate(codec, limits, stream, Verify(codec, limits, stream, expected).value, k) == (file.entries[k..], None)
    {
      StreamAgrees(codec, limits, stream, expected, max, file, k);
    }
  }
}
