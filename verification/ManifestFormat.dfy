/** The bulk manifest: what the client writes, and what the service's worker makes of it. */
module ManifestFormat {
  import opened Prelude
  import opened Text
  import opened EntryChecks
  import opened Framing

  /** Compression and digest of a file. */
  datatype Container = Container(zip: Bytes -> Bytes, unzip: Bytes -> Option<Bytes>, digest: Bytes -> string)

  ghost predicate LawfulContainer(c: Container) {
    && (forall s {:trigger c.zip(s)} :: c.unzip(c.zip(s)) == Some(s) && |c.zip(s)| > 0)
    && (forall s {:trigger c.digest(s)} :: IsHash(c.digest(s)))
  }

  const PERMISSIONS: set<string> := {"NotApplicable", "Full", "Limited", "Denied", "Unavailable"}

  predicate CursorOk(cursor: string) { |cursor| <= 1024 && '\0' !in cursor }

  // ---- The client's writer ----

  datatype WriteRequest = WriteRequest(source: string, snapshot: string, entries: seq<Record>, permission: string, cursor: Option<string>)

  function HeaderRecord(source: string, snapshot: string, count: nat, permission: string, cursor: Option<string>): Record {
    map["recordType" := JString("Manifest"), "schemaVersion" := JString("ManifestNdjsonV1"), "storageMode" := JString("Local"),
        "sourceId" := JString(source), "snapshotId" := JString(snapshot), "entryCount" := JInt(count), "kind" := JString("Full"),
        "permissionState" := JString(permission), "deletionDetectionReliable" := JBool(false),
        "clientCursor" := if cursor.Some? then JString(cursor.value) else JNull]
  }

  /** _manifest_entry */
  function EntryRecord(entry: Record, row: nat): Read<Record> {
    var hash := Get(entry, "contentSha256");
    if Get(entry, "operation") != JString("Upsert") then Bad(OperationUnsupported)
    else if !hash.JString? || !IsHash(hash.text) then Bad(ContentHashRequired)
    else if "recordType" in entry || "rowNumber" in entry then Bad(ReservedField)
    else Good(map["recordType" := JString("Entry"), "rowNumber" := JInt(row)] + entry
              + map["contentSha256" := JString(Lower(hash.text))])
  }

  function EntryLine(codec: Codec, limits: Limits, entry: Record, row: nat): Read<Bytes> {
    match EntryRecord(entry, row)
    case Bad(code) => Bad(code)
    case Good(record) => JsonLine(codec, JObject(record), limits.line)
  }

  function EntryLines(codec: Codec, limits: Limits, entries: seq<Record>): nat -> Read<Bytes> {
    (k: nat) => if k < |entries| then EntryLine(codec, limits, entries[k], k + 1) else Bad(EntryCountInvalid)
  }

  datatype Written = Written(file: Bytes, sha256: string, entryCount: nat, expanded: nat)

  function HeaderLine(codec: Codec, limits: Limits, request: WriteRequest): Read<Bytes> {
    if !(1 <= |request.entries| <= limits.entries) then Bad(EntryCountInvalid)
    else if request.permission !in PERMISSIONS then Bad(PermissionStateInvalid)
    else if request.cursor.Some? && !CursorOk(request.cursor.value) then Bad(ClientCursorInvalid)
    else
      match (codec.uuid(JString(request.source)), codec.uuid(JString(request.snapshot)))
      case (Some(source), Some(snapshot)) =>
        JsonLine(codec, JObject(HeaderRecord(source, snapshot, |request.entries|, request.permission, request.cursor)), limits.line)
      case _ => Bad(IdentifierInvalid)
  }

  function Expanded(codec: Codec, limits: Limits, request: WriteRequest): Read<Bytes> {
    match HeaderLine(codec, limits, request)
    case Bad(code) => Bad(code)
    case Good(header) =>
      match LinesFrom(EntryLines(codec, limits, request.entries), |request.entries|, limits.total, 0, |header|)
      case Bad(code) => Bad(code)
      case Good(lines) => Good(header + lines)
  }

  function Packed(container: Container, maxFile: nat, stream: Bytes, count: nat): Read<Written> {
    var file := container.zip(stream);
    if |file| > maxFile then Bad(CompressedLimitExceeded)
    else Good(Written(file, container.digest(file), count, |stream|))
  }

  /** write_manifest_gzip */
  function Write(codec: Codec, container: Container, limits: Limits, maxFile: nat, request: WriteRequest): Read<Written> {
    match Expanded(codec, limits, request)
    case Bad(code) => Bad(code)
    case Good(stream) => Packed(container, maxFile, stream, |request.entries|)
  }

  method WriteManifest(codec: Codec, container: Container, limits: Limits, maxFile: nat, request: WriteRequest)
    returns (r: Read<Written>)
    ensures r == Write(codec, container, limits, maxFile, request)
  {
    var header := HeaderLine(codec, limits, request);
    if header.Bad? {
      return Bad(header.code);
    }
    var stream := WriteLines(EntryLines(codec, limits, request.entries), |request.entries|, limits.total, header.value);
    if stream.Bad? {
      return Bad(stream.code);
    }
    var file := container.zip(stream.value);
    if |file| > maxFile {
      return Bad(CompressedLimitExceeded);
    }
    r := Good(Written(file, container.digest(file), |request.entries|, |stream.value|));
  }

  // ---- The worker's parser ----

  /** A row of the canonical CSV: the identity columns, and whether the entry was accepted. */
  datatype Canonical = Canonical(row: nat, item: string, revision: string, fileName: string, locator: string,
    sha256: string, mediaType: string, accepted: bool)

  function TextOr(value: Json): string {
    if value.JString? then value.text else ""
  }

  /** _raw_entry_row: an unsupported operation and a date-time outside the calendar fail
      the import, anything else only the row. */
  function CanonicalRow(record: Record, row: nat, reader: Reader): Read<Canonical> {
    if Get(record, "operation") != JString("Upsert") then Bad(OperationUnsupported)
    else
      match Judge(record, reader)
      case Overflow => Bad(UncaughtOverflow)
      case Fit =>
        Good(Canonical(row, Get(record, "sourceItemId").text, Get(record, "sourceRevision").text, Get(record, "fileName").text,
                       Get(record, "localLocator").text, Lower(Get(record, "contentSha256").text),
                       Get(record, "mediaType").text, true))
      case Unfit =>
        Good(Canonical(row, TextOr(Get(record, "sourceItemId")), TextOr(Get(record, "sourceRevision")), "", "", "", "", false))
  }

  datatype Manifest = Manifest(source: string, snapshot: string, entryCount: nat, permission: string, cursor: Option<string>)

  /** _header */
  function ManifestOf(codec: Codec, record: Record, maxEntries: nat): Read<Manifest> {
    var mode := if "storageMode" in record then record["storageMode"] else JString("Local");
    var source, snapshot, count := Get(record, "sourceId"), Get(record, "snapshotId"), Get(record, "entryCount");
    var cursor := Get(record, "clientCursor");
    if Get(record, "recordType") != JString("Manifest") || Get(record, "schemaVersion") != JString("ManifestNdjsonV1")
    then Bad(HeaderInvalid)
    else if mode != JString("Local") then Bad(RemoteUnsupported)
    else if !Required(source, 36) || !Required(snapshot, 36) || codec.uuid(source).None? || codec.uuid(snapshot).None?
    then Bad(HeaderInvalid)
    else if !Whole(count, 1, maxEntries) then Bad(HeaderInvalid)
    else if Get(record, "kind") != JString("Full") then Bad(KindUnsupported)
    else if !Get(record, "permissionState").JString? || Get(record, "permissionState").text !in PERMISSIONS then Bad(HeaderInvalid)
    else if Get(record, "deletionDetectionReliable") != JBool(false) then Bad(DeletionDetectionUnsupported)
    else if !(cursor.JNull? || (cursor.JString? && CursorOk(cursor.text))) then Bad(HeaderInvalid)
    else Good(Manifest(codec.uuid(source).value, codec.uuid(snapshot).value, count.number, Get(record, "permissionState").text,
                       if cursor.JString? then Some(cursor.text) else None))
  }

  datatype Parsing = Parsing(header: Option<Manifest>, rows: seq<Canonical>, rejected: nat)

  function ParseLine(codec: Codec, limits: Limits, reader: Reader, p: Parsing, line: Bytes): Read<Parsing> {
    match JsonRecord(codec, line)
    case Bad(code) => Bad(code)
    case Good(record) =>
      if p.header.None? then
        match ManifestOf(codec, record, limits.entries)
        case Bad(code) => Bad(code)
        case Good(header) => Good(p.(header := Some(header)))
      else if Get(record, "recordType") != JString("Entry") then Bad(RecordInvalid)
      else if |p.rows| + 1 > limits.entries then Bad(EntryLimitExceeded)
      else
        match CanonicalRow(record, |p.rows| + 1, reader)
        case Bad(code) => Bad(code)
        case Good(row) => Good(p.(rows := p.rows + [row], rejected := p.rejected + if row.accepted then 0 else 1))
  }

  function Parses(codec: Codec, limits: Limits, reader: Reader): (Parsing, Bytes) -> Read<Parsing> {
    (p, line) => ParseLine(codec, limits, reader, p, line)
  }

  datatype Parsed = Parsed(header: Manifest, rows: seq<Canonical>, rejected: nat)

  function Settled(p: Parsing, stop: Option<Code>, container: Container, file: Bytes, sha256: string, count: Option<nat>): Read<Parsed> {
    if stop.Some? then Bad(stop.value)
    else if p.header.None? then Bad(HeaderMissing)
    else if Lower(container.digest(file)) != Lower(sha256) then Bad(ChecksumMismatch)
    else if |p.rows| != p.header.value.entryCount || (count.Some? && |p.rows| != count.value) then Bad(EntryCountMismatch)
    else Good(Parsed(p.header.value, p.rows, p.rejected))
  }

  /** parse_manifest_gzip of a staged file against its declared digest, size and count. */
  function Parse(codec: Codec, container: Container, limits: Limits, maxFile: nat, reader: Reader,
                 file: Bytes, sha256: string, size: nat, count: Option<nat>): Read<Parsed>
  {
    if !IsHash(sha256) then Bad(ChecksumInvalid)
    else if !(0 < size <= maxFile) then Bad(CompressedLimitExceeded)
    else if |file| != size then Bad(SizeMismatch)
    else
      match container.unzip(file)
      case None => Bad(GzipInvalid)
      case Some(stream) =>
        var (p, stop) := Fold(limits, Parses(codec, limits, reader), stream, 0, Parsing(None, [], 0));
        Settled(p, stop, container, file, sha256, count)
  }

  method ParseManifest(codec: Codec, container: Container, limits: Limits, maxFile: nat, reader: Reader,
                       file: Bytes, sha256: string, size: nat, count: Option<nat>) returns (r: Read<Parsed>)
    ensures r == Parse(codec, container, limits, maxFile, reader, file, sha256, size, count)
  {
    if !IsHash(sha256) {
      return Bad(ChecksumInvalid);
    }
    if !(0 < size <= maxFile) {
      return Bad(CompressedLimitExceeded);
    }
    if |file| != size {
      return Bad(SizeMismatch);
    }
    var stream := container.unzip(file);
    if stream.None? {
      return Bad(GzipInvalid);
    }
    var p := Parsing(None, [], 0);
    var rest: Bytes, used: nat := stream.value, 0;
    ghost var goal := Fold(limits, Parses(codec, limits, reader), stream.value, 0, p);
    assert Parse(codec, container, limits, maxFile, reader, file, sha256, size, count)
        == Settled(goal.0, goal.1, container, file, sha256, count);
    while rest != []
      invariant Fold(limits, Parses(codec, limits, reader), rest, used, p) == goal
      decreases |rest|
    {
      var taken := NextLine(limits, rest, used);
      if taken.Refuse? {
        return Bad(taken.code);
      }
      var next := ParseLine(codec, limits, reader, p, taken.content);
      if next.Bad? {
        return Bad(next.code);
      }
      p, rest, used := next.value, taken.rest, taken.used;
    }
    r := Settled(p, None, container, file, sha256, count);
  }

  // ---- What every accepted manifest satisfies ----

  function Accepted(rows: seq<Canonical>): nat {
    if rows == [] then 0 else Accepted(rows[..|rows| - 1]) + if rows[|rows| - 1].accepted then 1 else 0
  }

  ghost predicate RowsNumbered(p: Parsing) {
    p.rejected + Accepted(p.rows) == |p.rows| && forall k :: 0 <= k < |p.rows| ==> p.rows[k].row == k + 1
  }

  lemma {:induction false} ParsedNumbered(codec: Codec, limits: Limits, reader: Reader, s: Bytes, used: nat, p: Parsing)
    requires RowsNumbered(p)
    ensures RowsNumbered(Fold(limits, Parses(codec, limits, reader), s, used, p).0)
    decreases |s|
  {
    var taken := NextLine(limits, s, used);
    if taken.Line? {
      var next := ParseLine(codec, limits, reader, p, taken.content);
      if next.Good? {
        assert next.value.rows != p.rows ==> next.value.rows[..|next.value.rows| - 1] == p.rows;
        ParsedNumbered(codec, limits, reader, taken.rest, taken.used, next.value);
      }
    }
  }

  /** Accepted and rejected rows together are the declared count, and are numbered 1, 2, ... */
  lemma RowsAddUp(codec: Codec, container: Container, limits: Limits, maxFile: nat, reader: Reader,
                  file: Bytes, sha256: string, size: nat, count: Option<nat>)
    requires Parse(codec, container, limits, maxFile, reader, file, sha256, size, count).Good?
    ensures var parsed := Parse(codec, container, limits, maxFile, reader, file, sha256, size, count).value;
      && Accepted(parsed.rows) + parsed.rejected == |parsed.rows| == parsed.header.entryCount
      && (count.Some? ==> parsed.header.entryCount == count.value)
      && forall k :: 0 <= k < |parsed.rows| ==> parsed.rows[k].row == k + 1
  {
    ParsedNumbered(codec, limits, reader, container.unzip(file).value, 0, Parsing(None, [], 0));
  }

  // ---- The parser reads what the writer wrote ----

  /** The service's limits are no tighter than the client's. */
  predicate Wider(server: Limits, client: Limits) {
    client.line <= server.line && client.total <= server.total && client.entries <= server.entries
  }

  /** The canonical row that an entry becomes, as the client hands it over. */
  function RowFor(entry: Record, row: nat, reader: Reader): Read<Canonical> {
    match EntryRecord(entry, row)
    case Bad(code) => Bad(code)
    case Good(record) => CanonicalRow(record, row, reader)
  }

  /** The record of an entry differs in its type, its number and the case of the hash. */
  ghost predicate SameFields(record: Record, entry: Record) {
    && (forall name :: name !in {"recordType", "rowNumber", "contentSha256"} ==> Get(record, name) == Get(entry, name))
    && Get(entry, "contentSha256").JString? && IsHash(Get(entry, "contentSha256").text)
    && Get(record, "contentSha256") == JString(Lower(Get(entry, "contentSha256").text))
  }

  lemma RecordFields(entry: Record, row: nat)
    requires EntryRecord(entry, row).Good?
    ensures SameFields(EntryRecord(entry, row).value, entry) && Get(entry, "operation") == JString("Upsert")
  {
  }

  lemma ColumnsSame(record: Record, entry: Record)
    requires SameFields(record, entry)
    ensures Columns(record) == Columns(entry)
  {
    LowerIsHash(Get(entry, "contentSha256").text);
  }

  lemma TimesSame(record: Record, entry: Record, reader: Reader)
    requires SameFields(record, entry)
    ensures CaptureTimes(record, reader) == CaptureTimes(entry, reader)
  {
  }

  lemma SameJudged(record: Record, entry: Record, reader: Reader)
    requires SameFields(record, entry)
    ensures Judge(record, reader) == Judge(entry, reader)
  {
    ColumnsSame(record, entry);
    TimesSame(record, entry, reader);
    assert Get(record, "provenance") == Get(entry, "provenance") && Get(record, "location") == Get(entry, "location");
  }

  /** The checks see in the record what the client put into the entry. */
  lemma EntryJudged(entry: Record, row: nat, reader: Reader)
    requires EntryRecord(entry, row).Good?
    ensures Judge(EntryRecord(entry, row).value, reader) == Judge(entry, reader)
    ensures if Leaves(entry, reader) then RowFor(entry, row, reader) == Bad(UncaughtOverflow) else RowFor(entry, row, reader).Good?
  {
    RecordFields(entry, row);
    SameJudged(EntryRecord(entry, row).value, entry, reader);
    JudgeLeaves(entry, reader);
  }

  lemma LowerIsHash(text: string)
    requires IsHash(text)
    ensures IsHash(Lower(text)) && '\0' !in text && '\0' !in Lower(text)
  {
    forall c | c in Lower(text) ensures IsHexDigit(c) {
      var i :| 0 <= i < |text| && Lower(text)[i] == c;
      assert text[i] in text;
    }
  }

  /** What a canonical row says of its entry: its number and identity always, the other
      columns when the entry passed the semantic checks, and the hash in lower case. */
  lemma RowCarriesEntry(entry: Record, row: nat, reader: Reader)
    requires RowFor(entry, row, reader).Good?
    ensures var canonical := RowFor(entry, row, reader).value;
      && canonical.row == row
      && canonical.item == TextOr(Get(entry, "sourceItemId")) && canonical.revision == TextOr(Get(entry, "sourceRevision"))
      && (canonical.accepted <==> Judge(entry, reader) == Fit)
      && (canonical.accepted ==>
            && canonical.fileName == Get(entry, "fileName").text && canonical.locator == Get(entry, "localLocator").text
            && canonical.mediaType == Get(entry, "mediaType").text
            && canonical.sha256 == Lower(Get(entry, "contentSha256").text))
  {
    EntryJudged(entry, row, reader);
  }

  lemma NextLines(codec: Codec, limits: Limits, entries: seq<Record>, k: nat, used: nat) returns (later: nat)
    requires LinesFrom(EntryLines(codec, limits, entries), |entries|, limits.total, k, used).Good? && k < |entries|
    ensures EntryLine(codec, limits, entries[k], k + 1).Good?
    ensures LinesFrom(EntryLines(codec, limits, entries), |entries|, limits.total, k + 1, later).Good?
  {
    FirstOfLines(EntryLines(codec, limits, entries), |entries|, limits.total, k, used);
    later := used + |EntryLines(codec, limits, entries)(k).value|;
  }

  lemma {:induction false} LinesWritable(codec: Codec, limits: Limits, entries: seq<Record>, k: nat, used: nat, i: nat)
    requires LinesFrom(EntryLines(codec, limits, entries), |entries|, limits.total, k, used).Good? && k <= i < |entries|
    ensures EntryLine(codec, limits, entries[i], i + 1).Good?
    decreases i - k
  {
    var later := NextLines(codec, limits, entries, k, used);
    if k < i {
      LinesWritable(codec, limits, entries, k + 1, later, i);
    }
  }

  function RowAt(entry: Record, row: nat, reader: Reader): Canonical {
    match RowFor(entry, row, reader)
    case Good(canonical) => canonical
    case Bad(_) => Canonical(row, "", "", "", "", "", "", false)
  }

  /** The canonical rows of the first k entries. */
  function RowsOf(entries: seq<Record>, reader: Reader, k: nat): (rows: seq<Canonical>)
    requires k <= |entries|
    ensures |rows| == k && forall i :: 0 <= i < k ==> rows[i] == RowAt(entries[i], i + 1, reader)
  {
    seq(k, i requires 0 <= i < k => RowAt(entries[i], i + 1, reader))
  }

  function Rejections(rows: seq<Canonical>): nat {
    if rows == [] then 0 else Rejections(rows[..|rows| - 1]) + if rows[|rows| - 1].accepted then 0 else 1
  }

  function ParsingAt(header: Manifest, entries: seq<Record>, reader: Reader, k: nat): Parsing {
    if k <= |entries| then Parsing(Some(header), RowsOf(entries, reader, k), Rejections(RowsOf(entries, reader, k)))
    else Parsing(Some(header), [], 0)
  }

  function Stages(header: Manifest, entries: seq<Record>, reader: Reader): nat -> Parsing {
    (k: nat) => ParsingAt(header, entries, reader, k)
  }

  lemma RowsOfSnoc(entries: seq<Record>, reader: Reader, k: nat)
    requires k < |entries|
    ensures RowsOf(entries, reader, k + 1) == RowsOf(entries, reader, k) + [RowAt(entries[k], k + 1, reader)]
    ensures RowsOf(entries, reader, k + 1)[..k] == RowsOf(entries, reader, k)
  {
  }

  lemma EntryParsed(codec: Codec, client: Limits, server: Limits, reader: Reader, header: Manifest, entries: seq<Record>, k: nat)
    requires Lawful(codec) && Wider(server, client) && k < |entries| <= server.entries && EntryLine(codec, client, entries[k], k + 1).Good?
    ensures var line := EntryLine(codec, client, entries[k], k + 1).value;
      && IsLine(line, server.line)
      && ParseLine(codec, server, reader, ParsingAt(header, entries, reader, k), line[..|line| - 1])
        == match RowFor(entries[k], k + 1, reader)
           case Bad(code) => Bad(code)
           case Good(row) => Good(ParsingAt(header, entries, reader, k + 1))
  {
    var record := EntryRecord(entries[k], k + 1).value;
    JsonLineReads(codec, record, client.line);
    assert Get(record, "recordType") == JString("Entry");
    RowsOfSnoc(entries, reader, k);
  }

  lemma LineLeads(codec: Codec, client: Limits, server: Limits, reader: Reader, header: Manifest, entries: seq<Record>, i: nat)
    requires Lawful(codec) && Wider(server, client) && i < |entries| <= server.entries && !Leaves(entries[i], reader)
    ensures Leads(server, Parses(codec, server, reader), EntryLines(codec, client, entries), Stages(header, entries, reader), i)
  {
    if EntryLine(codec, client, entries[i], i + 1).Good? {
      EntryJudged(entries[i], i + 1, reader);
      EntryParsed(codec, client, server, reader, header, entries, i);
    }
  }

  lemma LineStops(codec: Codec, client: Limits, server: Limits, reader: Reader, header: Manifest, entries: seq<Record>, i: nat)
    requires Lawful(codec) && Wider(server, client) && i < |entries| <= server.entries && Leaves(entries[i], reader)
    requires EntryLine(codec, client, entries[i], i + 1).Good?
    ensures Stops(server, Parses(codec, server, reader), EntryLines(codec, client, entries)(i).value,
                  Stages(header, entries, reader)(i), UncaughtOverflow)
  {
    EntryJudged(entries[i], i + 1, reader);
    EntryParsed(codec, client, server, reader, header, entries, i);
  }

  /** Entry n is the first that leaves the calendar, or none does and n is their number. */
  ghost predicate FirstLeaving(entries: seq<Record>, reader: Reader, n: nat) {
    && n <= |entries| && (forall i :: 0 <= i < n ==> !Leaves(entries[i], reader))
    && (n < |entries| ==> Leaves(entries[n], reader))
  }

  lemma {:induction false} FindLeaving(entries: seq<Record>, reader: Reader, from_: nat) returns (n: nat)
    requires from_ <= |entries| && forall i :: 0 <= i < from_ ==> !Leaves(entries[i], reader)
    ensures FirstLeaving(entries, reader, n)
    decreases |entries| - from_
  {
    if from_ == |entries| || Leaves(entries[from_], reader) {
      n := from_;
    } else {
      n := FindLeaving(entries, reader, from_ + 1);
    }
  }

  function StopAt(entries: seq<Record>, n: nat): Option<Code> {
    if n < |entries| then Some(UncaughtOverflow) else None
  }

  lemma LinesParse(codec: Codec, client: Limits, server: Limits, reader: Reader, header: Manifest, entries: seq<Record>, used: nat, n: nat)
    requires Lawful(codec) && Wider(server, client) && |entries| <= server.entries && FirstLeaving(entries, reader, n)
    requires LinesFrom(EntryLines(codec, client, entries), |entries|, client.total, 0, used).Good?
    ensures Fold(server, Parses(codec, server, reader),
                 LinesFrom(EntryLines(codec, client, entries), |entries|, client.total, 0, used).value, used,
                 Stages(header, entries, reader)(0))
         == (Stages(header, entries, reader)(n), StopAt(entries, n))
  {
    forall i | 0 <= i < n
      ensures Leads(server, Parses(codec, server, reader), EntryLines(codec, client, entries), Stages(header, entries, reader), i)
    {
      LineLeads(codec, client, server, reader, header, entries, i);
    }
    if n < |entries| {
      LinesWritable(codec, client, entries, 0, used, n);
      LineStops(codec, client, server, reader, header, entries, n);
      WrittenLinesStop(server, Parses(codec, server, reader), EntryLines(codec, client, entries), |entries|, client.total, 0, used,
                       Stages(header, entries, reader), n, UncaughtOverflow);
    } else {
      WrittenLinesRead(server, Parses(codec, server, reader), EntryLines(codec, client, entries), |entries|, client.total, 0, used,
                       Stages(header, entries, reader));
    }
  }

  /** The header the client writes is one the worker accepts. */
  lemma HeaderAccepted(codec: Codec, request: WriteRequest, source: string, snapshot: string, max: nat)
    requires 1 <= |request.entries| <= max && request.permission in PERMISSIONS
    requires request.cursor.Some? ==> CursorOk(request.cursor.value)
    requires |source| == 36 && '\0' !in source && codec.uuid(JString(source)) == Some(source)
    requires |snapshot| == 36 && '\0' !in snapshot && codec.uuid(JString(snapshot)) == Some(snapshot)
    ensures ManifestOf(codec, HeaderRecord(source, snapshot, |request.entries|, request.permission, request.cursor), max)
         == Good(Manifest(source, snapshot, |request.entries|, request.permission, request.cursor))
  {
  }

  function HeaderFor(codec: Codec, request: WriteRequest): Manifest
    requires codec.uuid(JString(request.source)).Some? && codec.uuid(JString(request.snapshot)).Some?
  {
    Manifest(codec.uuid(JString(request.source)).value, codec.uuid(JString(request.snapshot)).value,
             |request.entries|, request.permission, request.cursor)
  }

  lemma HeaderParses(codec: Codec, client: Limits, server: Limits, reader: Reader, request: WriteRequest)
    requires Lawful(codec) && Wider(server, client) && HeaderLine(codec, client, request).Good?
    ensures var line := HeaderLine(codec, client, request).value;
      && IsLine(line, server.line)
      && ParseLine(codec, server, reader, Parsing(None, [], 0), line[..|line| - 1])
        == Good(Parsing(Some(HeaderFor(codec, request)), [], 0))
  {
    var source, snapshot := codec.uuid(JString(request.source)).value, codec.uuid(JString(request.snapshot)).value;
    HeaderAccepted(codec, request, source, snapshot, server.entries);
    JsonLineReads(codec, HeaderRecord(source, snapshot, |request.entries|, request.permission, request.cursor), client.line);
  }

  lemma StreamParses(codec: Codec, client: Limits, server: Limits, reader: Reader, request: WriteRequest, stream: Bytes, n: nat)
    requires Lawful(codec) && Wider(server, client) && client.line <= client.total
    requires Expanded(codec, client, request) == Good(stream) && FirstLeaving(request.entries, reader, n)
    ensures Fold(server, Parses(codec, server, reader), stream, 0, Parsing(None, [], 0))
         == (ParsingAt(HeaderFor(codec, request), request.entries, reader, n), StopAt(request.entries, n))
  {
    var header := HeaderLine(codec, client, request).value;
    var lines := LinesFrom(EntryLines(codec, client, request.entries), |request.entries|, client.total, 0, |header|).value;
    HeaderParses(codec, client, server, reader, request);
    LineTaken(server, header, lines, 0);
    FoldNext(server, Parses(codec, server, reader), stream, 0, Parsing(None, [], 0),
             Line(header[..|header| - 1], lines, |header|), Parsing(Some(HeaderFor(codec, request)), [], 0));
    LinesParse(codec, client, server, reader, HeaderFor(codec, request), request.entries, |header|, n);
  }

  lemma WrittenRows(codec: Codec, client: Limits, reader: Reader, entries: seq<Record>, used: nat, k: nat)
    requires LinesFrom(EntryLines(codec, client, entries), |entries|, client.total, 0, used).Good?
    requires k < |entries| && !Leaves(entries[k], reader)
    ensures RowFor(entries[k], k + 1, reader) == Good(RowAt(entries[k], k + 1, reader))
  {
    LinesWritable(codec, client, entries, 0, used, k);
    EntryJudged(entries[k], k + 1, reader);
  }

  /** A manifest that the client's writer accepts passes the worker's parser exactly when no
      entry's capture times leave the calendar; then with the same header and count, and row
      k comes from entry k. Otherwise the parser ends in an error that nothing catches. */
  lemma WrittenManifestParses(codec: Codec, container: Container, client: Limits, server: Limits, maxFile: nat, maxStaged: nat,
                              reader: Reader, request: WriteRequest)
    requires Lawful(codec) && LawfulContainer(container) && Wider(server, client) && client.line <= client.total && maxFile <= maxStaged
    requires Write(codec, container, client, maxFile, request).Good?
    ensures var written := Write(codec, container, client, maxFile, request).value;
      var parsed := Parse(codec, container, server, maxStaged, reader, written.file, written.sha256, |written.file|,
                          Some(written.entryCount));
      && (parsed.Good? <==> forall k :: 0 <= k < |request.entries| ==> !Leaves(request.entries[k], reader))
      && (parsed.Bad? ==> parsed.code == UncaughtOverflow)
      && (parsed.Good? ==>
            && |parsed.value.rows| == written.entryCount == |request.entries|
            && parsed.value.header == HeaderFor(codec, request)
            && forall k :: 0 <= k < |request.entries| ==> RowFor(request.entries[k], k + 1, reader) == Good(parsed.value.rows[k]))
  {
    var stream := Expanded(codec, client, request).value;
    var n := FindLeaving(request.entries, reader, 0);
    StreamParses(codec, client, server, reader, request, stream, n);
    assert container.unzip(container.zip(stream)) == Some(stream);
    if n == |request.entries| {
      forall k | 0 <= k < |request.entries|
        ensures RowFor(request.entries[k], k + 1, reader) == Good(RowAt(request.entries[k], k + 1, reader))
      {
        WrittenRows(codec, client, reader, request.entries, |HeaderLine(codec, client, request).value|, k);
      }
    }
  }

  /** With the limits both programs come with, and the accepted and rejected rows added up. */
  lemma DefaultManifestParses(codec: Codec, container: Container, reader: Reader, request: WriteRequest)
    requires Lawful(codec) && LawfulContainer(container)
    requires Write(codec, container, CLIENT_LIMITS, MAX_COMPRESSED_BYTES, request).Good?
    ensures var written := Write(codec, container, CLIENT_LIMITS, MAX_COMPRESSED_BYTES, request).value;
      var parsed := Parse(codec, container, WORKER_LIMITS, MAX_COMPRESSED_BYTES, reader, written.file, written.sha256, |written.file|,
                          Some(written.entryCount));
      && (parsed.Good? <==> forall k :: 0 <= k < |request.entries| ==> !Leaves(request.entries[k], reader))
      && (parsed.Good? ==>
            && |parsed.value.rows| == |request.entries| == Accepted(parsed.value.rows) + parsed.value.rejected
            && forall k :: 0 <= k < |request.entries| ==> RowFor(request.entries[k], k + 1, reader) == Good(parsed.value.rows[k]))
  {
    WrittenManifestParses(codec, container, CLIENT_LIMITS, WORKER_LIMITS, MAX_COMPRESSED_BYTES, MAX_COMPRESSED_BYTES, reader, request);
    var written := Write(codec, container, CLIENT_LIMITS, MAX_COMPRESSED_BYTES, request).value;
    var parsed := Parse(codec, container, WORKER_LIMITS, MAX_COMPRESSED_BYTES, reader, written.file, written.sha256, |written.file|,
                        Some(written.entryCount));
    if parsed.Good? {
      RowsAddUp(codec, container, WORKER_LIMITS, MAX_COMPRESSED_BYTES, reader, written.file, written.sha256, |written.file|,
                Some(written.entryCount));
    }
  }
}
