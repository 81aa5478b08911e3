/** The worker's result file, and when the client's reader accepts it. */
module ResultWriter {
  import opened Prelude
  import opened Framing
  import opened ResultReader

  datatype WriteResult = WriteResult(importId: string, counts: map<string, nat>, rows: seq<Record>)

  function HeaderRecord(request: WriteResult): Record {
    map["recordType" := JString("Result"), "schemaVersion" := JString("ManifestResultNdjsonV1"),
        "importId" := JString(request.importId),
        "counts" := JObject(map key | key in request.counts :: JInt(request.counts[key]))]
  }

  /** A row's own fields win over the record type. */
  function RowRecord(row: Record): Record { map["recordType" := JString("EntryResult")] + row }

  function RowLines(codec: Codec, limits: Limits, rows: seq<Record>): nat -> Read<Bytes> {
    (k: nat) => if k < |rows| then JsonLine(codec, JObject(RowRecord(rows[k])), limits.line) else Bad(EntryCountInvalid)
  }

  /** write_result_gzip: the header line alone is not held to any limit. */
  function Write(codec: Codec, limits: Limits, request: WriteResult): Read<Bytes> {
    match codec.encode(JObject(HeaderRecord(request)))
    case None => Bad(NotJson)
    case Some(text) =>
      match LinesFrom(RowLines(codec, limits, request.rows), |request.rows|, limits.total, 0, |text| + 1)
      case Bad(code) => Bad(code)
      case Good(lines) => Good(text + [NEWLINE] + lines)
  }

  method WriteResultFile(codec: Codec, limits: Limits, request: WriteResult) returns (r: Read<Bytes>)
    ensures r == Write(codec, limits, request)
  {
    var text := codec.encode(JObject(HeaderRecord(request)));
    if text.None? {
      return Bad(NotJson);
    }
    r := WriteLines(RowLines(codec, limits, request.rows), |request.rows|, limits.total, text.value + [NEWLINE]);
  }

  // ---- The reader on a written file ----

  /** Every row is one the reader can take, in order. */
  ghost predicate RowsReadable(codec: Codec, rows: seq<Record>) {
    forall k :: 0 <= k < |rows| ==> EntryOf(codec, RowRecord(rows[k]), k + 1).Good?
  }

  /** What the reader makes of the first k rows. */
  function EntriesOf(codec: Codec, rows: seq<Record>, k: nat): (entries: seq<ResultEntry>)
    requires k <= |rows| && RowsReadable(codec, rows)
    ensures |entries| == k && forall i :: 0 <= i < k ==> EntryOf(codec, RowRecord(rows[i]), i + 1) == Good(entries[i])
  {
    seq(k, i requires 0 <= i < k => EntryOf(codec, RowRecord(rows[i]), i + 1).value)
  }

  function HeldAt(codec: Codec, header: Header, rows: seq<Record>, k: nat): Held
    requires RowsReadable(codec, rows)
  {
    Held(Some(header), if k <= |rows| then EntriesOf(codec, rows, k) else [])
  }

  lemma RowLeads(codec: Codec, limits: Limits, expected: Option<string>, max: nat, header: Header, rows: seq<Record>, k: nat)
    requires Lawful(codec) && k < |rows| <= max && RowsReadable(codec, rows)
    requires JsonLine(codec, JObject(RowRecord(rows[k])), limits.line).Good?
    ensures var line := JsonLine(codec, JObject(RowRecord(rows[k])), limits.line).value;
      && IsLine(line, limits.line)
      && HoldLine(codec, expected, max, HeldAt(codec, header, rows, k), line[..|line| - 1]) == Good(HeldAt(codec, header, rows, k + 1))
  {
    JsonLineReads(codec, RowRecord(rows[k]), limits.line);
    assert EntriesOf(codec, rows, k + 1) == EntriesOf(codec, rows, k) + [EntryOf(codec, RowRecord(rows[k]), k + 1).value];
  }

  function Stages(codec: Codec, header: Header, rows: seq<Record>): nat -> Held
    requires RowsReadable(codec, rows)
  {
    (k: nat) => HeldAt(codec, header, rows, k)
  }

  lemma LinesLead(codec: Codec, limits: Limits, expected: Option<string>, max: nat, header: Header, rows: seq<Record>, i: nat)
    requires Lawful(codec) && i < |rows| <= max && RowsReadable(codec, rows)
    ensures Leads(limits, Holding(codec, expected, max), RowLines(codec, limits, rows), Stages(codec, header, rows), i)
  {
    if JsonLine(codec, JObject(RowRecord(rows[i])), limits.line).Good? {
      RowLeads(codec, limits, expected, max, header, rows, i);
    }
  }

  lemma RowsRead(codec: Codec, limits: Limits, expected: Option<string>, max: nat, header: Header, rows: seq<Record>, used: nat)
    requires Lawful(codec) && |rows| <= max && RowsReadable(codec, rows)
    requires LinesFrom(RowLines(codec, limits, rows), |rows|, limits.total, 0, used).Good?
    ensures Fold(limits, Holding(codec, expected, max), LinesFrom(RowLines(codec, limits, rows), |rows|, limits.total, 0, used).value,
                 used, Stages(codec, header, rows)(0))
         == (Stages(codec, header, rows)(|rows|), None)
  {
    forall i | 0 <= i < |rows|
      ensures Leads(limits, Holding(codec, expected, max), RowLines(codec, limits, rows), Stages(codec, header, rows), i)
    {
      LinesLead(codec, limits, expected, max, header, rows, i);
    }
    WrittenLinesRead(limits, Holding(codec, expected, max), RowLines(codec, limits, rows), |rows|, limits.total, 0, used,
                     Stages(codec, header, rows));
  }

  /** The header the worker writes is one the client's reader accepts. */
  lemma HeaderRead(codec: Codec, request: WriteResult)
    requires codec.uuid(JString(request.importId)) == Some(request.importId) && "" !in request.counts
    ensures HeaderOf(codec, HeaderRecord(request), Some(request.importId))
         == Good(Header(request.importId, request.counts, None, None))
  {
    assert CountsOf(HeaderRecord(request)["counts"]) == request.counts;
  }

  /** A line longer than the limit is refused, terminated or not. */
  lemma {:induction false} LongLine(content: Bytes, rest: Bytes, cap: nat)
    requires NEWLINE !in content && |content| + 1 >= cap
    ensures LineLength(content + [NEWLINE] + rest, cap) == cap
    decreases |content|
  {
    var s := content + [NEWLINE] + rest;
    if cap > 0 && content != [] {
      assert s[1..] == content[1..] + [NEWLINE] + rest;
      LongLine(content[1..], rest, cap - 1);
    }
  }

  lemma HeaderLineRead(codec: Codec, limits: Limits, request: WriteResult, max: nat, lines: Bytes)
    requires Lawful(codec) && codec.encode(JObject(HeaderRecord(request))).Some?
    requires codec.uuid(JString(request.importId)) == Some(request.importId) && "" !in request.counts
    ensures var text, step := codec.encode(JObject(HeaderRecord(request))).value, Holding(codec, Some(request.importId), max);
      Fold(limits, step, text + [NEWLINE] + lines, 0, Held(None, []))
        == if |text| + 1 > limits.line then (Held(None, []), Some(LineLimitExceeded))
           else if |text| + 1 > limits.total then (Held(None, []), Some(ExpandedLimitExceeded))
           else Fold(limits, step, lines, |text| + 1, Held(Some(Header(request.importId, request.counts, None, None)), []))
  {
    var text := codec.encode(JObject(HeaderRecord(request))).value;
    HeaderRead(codec, request);
    assert codec.decode(text) == Some(JObject(HeaderRecord(request)));
    if |text| + 1 > limits.line {
      LongLine(text, lines, limits.line + 1);
    } else {
      WrittenLine(text, lines, limits.line + 1);
      var s := text + [NEWLINE] + lines;
      assert s[..|text|] == text && s[|text| + 1..] == lines;
    }
  }

  /** A written result of readable rows is read back row by row exactly if its header
      line, which the writer does not limit, is within the reader's limit for a line. */
  lemma ResultRoundTrip(codec: Codec, limits: Limits, request: WriteResult, max: nat)
    requires Lawful(codec) && Write(codec, limits, request).Good? && 1 <= |request.rows| <= max
    requires codec.uuid(JString(request.importId)) == Some(request.importId) && "" !in request.counts
    requires RowsReadable(codec, request.rows) && limits.line <= limits.total
    ensures var stream := Write(codec, limits, request).value;
      Parse(codec, limits, stream, Some(request.importId), max)
        == if |codec.encode(JObject(HeaderRecord(request))).value| + 1 > limits.line then Bad(LineLimitExceeded)
           else Good(ResultFile(Header(request.importId, request.counts, None, None),
                                EntriesOf(codec, request.rows, |request.rows|), |stream|))
  {
    var stream, step := Write(codec, limits, request).value, Holding(codec, Some(request.importId), max);
    var text := codec.encode(JObject(HeaderRecord(request))).value;
    var lines := LinesFrom(RowLines(codec, limits, request.rows), |request.rows|, limits.total, 0, |text| + 1).value;
    HeaderLineRead(codec, limits, request, max, lines);
    RowsRead(codec, limits, Some(request.importId), max, Header(request.importId, request.counts, None, None),
             request.rows, |text| + 1);
    var (held, stop) := Fold(limits, step, stream, 0, Held(None, []));
    assert Parse(codec, limits, stream, Some(request.importId), max) == Concluded(held, stop, |stream|);
  }
}
