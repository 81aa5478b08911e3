/** The worker's checks of one manifest entry, in the order it makes them. A failed check
    rejects the row. But a date-time that leaves Python's calendar, the years 1 to 9999,
    raises an OverflowError, which nothing in the parser catches. */
module EntryChecks {
  import opened Prelude
  import opened Framing

  // ---- Columns ----

  predicate IsHexDigit(c: char) { '0' <= c <= '9' || 'a' <= c <= 'f' || 'A' <= c <= 'F' }

  predicate IsHash(text: string) { |text| == 64 && forall c :: c in text ==> IsHexDigit(c) }

  predicate Required(value: Json, max: nat) {
    value.JString? && 1 <= |value.text| <= max && '\0' !in value.text
  }

  predicate Optional(value: Json, max: nat) {
    value.JNull? || (value.JString? && |value.text| <= max && '\0' !in value.text)
  }

  predicate Whole(value: Json, low: int, high: int) { value.JInt? && low <= value.number <= high }

  predicate MaybeWhole(value: Json, low: int, high: int) { value.JNull? || Whole(value, low, high) }

  const UINT32_MAX := 0xFFFF_FFFF
  const UINT64_MAX := 0xFFFF_FFFF_FFFF_FFFF

  /** The columns checked before the date-times. */
  predicate Columns(record: Record) {
    && Required(Get(record, "sourceItemId"), 512) && Required(Get(record, "sourceRevision"), 255)
    && Required(Get(record, "fileName"), 512) && Required(Get(record, "localLocator"), 4096)
    && Required(Get(record, "contentSha256"), 64) && IsHash(Get(record, "contentSha256").text)
    && Get(record, "mediaType") in {JString("Photo"), JString("Video")} && Required(Get(record, "mimeType"), 255)
    && Whole(Get(record, "byteSize"), 1, UINT64_MAX) && MaybeWhole(Get(record, "widthPixels"), 1, UINT32_MAX)
    && MaybeWhole(Get(record, "heightPixels"), 1, UINT32_MAX) && MaybeWhole(Get(record, "durationMs"), 0, UINT64_MAX)
  }

  predicate ZoneFits(record: Record) {
    Optional(Get(record, "timeZoneId"), 64) && MaybeWhole(Get(record, "utcOffsetMinutes"), -840, 840)
  }

  // ---- Date-times ----

  const SECOND := 1_000_000
  const MINUTE := 60 * SECOND
  const HOUR := 60 * MINUTE
  /** Microseconds from the first one of year 1 to the last one of year 9999. */
  const CALENDAR := 3_652_059 * 24 * HOUR

  predicate InCalendar(time: int) { 0 <= time < CALENDAR }

  /** A date-time as it is written: the clock, and the offset if it has one, in microseconds. */
  datatype Stamp = Stamp(clock: int, offset: Option<int>)

  /** datetime.fromisoformat, and the checks of a confidence and of a location. */
  datatype Reader = Reader(iso: string -> Option<Stamp>, confidence: Json -> bool, location: Json -> bool)

  datatype Time = Absent | At(time: int) | Malformed | Outside

  /** text.replace("Z", "+00:00") */
  function Zulu(text: string): string {
    if text == "" then ""
    else (if text[0] == 'Z' then "+00:00" else [text[0]]) + Zulu(text[1..])
  }

  /** _local_datetime */
  function LocalTime(value: Json, reader: Reader): Time {
    if value.JNull? then Absent
    else if !value.JString? || |value.text| > 64 then Malformed
    else
      match reader.iso(value.text)
      case None => Malformed
      case Some(stamp) => if stamp.offset.Some? then Malformed else At(stamp.clock)
  }

  /** _utc_datetime */
  function UtcTime(value: Json, reader: Reader): Time {
    if value.JNull? then Absent
    else if !value.JString? || |value.text| > 64 then Malformed
    else
      match reader.iso(Zulu(value.text))
      case None => Malformed
      case Some(stamp) =>
        if stamp.offset.None? then Malformed
        else if InCalendar(stamp.clock - stamp.offset.value) then At(stamp.clock - stamp.offset.value)
        else Outside
  }

  // ---- The checks in order ----

  datatype Verdict = Fit | Unfit | Overflow

  /** The capture date-times against each other, the local one shifted by the offset. */
  function Consistent(local: Time, utc: Time, minutes: Json): Verdict {
    if !local.At? || !utc.At? || !minutes.JInt? then Fit
    else
      var expected := local.time - minutes.number * MINUTE;
      if !InCalendar(expected) then Overflow
      else if -SECOND <= expected - utc.time <= SECOND then Fit
      else Unfit
  }

  function CaptureTimes(record: Record, reader: Reader): Verdict {
    var local := LocalTime(Get(record, "capturedAtLocal"), reader);
    var utc := UtcTime(Get(record, "capturedAtUtc"), reader);
    if local.Malformed? || utc.Malformed? then Unfit
    else if utc.Outside? then Overflow
    else if !ZoneFits(record) then Unfit
    else Consistent(local, utc, Get(record, "utcOffsetMinutes"))
  }

  const PROVENANCE_SOURCES: set<string> := {"Exif", "Device", "FileMtime", "Google", "Manual", "AI", "Legacy", "Unknown"}

  type Origin = (string, string)

  predicate Originated(item: Json) {
    && item.JObject? && Required(Get(item.fields, "field"), 100)
    && Required(Get(item.fields, "source"), 32) && Get(item.fields, "source").text in PROVENANCE_SOURCES
  }

  function OriginOf(item: Json): Origin
    requires Originated(item)
  {
    (Get(item.fields, "field").text, Get(item.fields, "source").text)
  }

  /** What is checked of an item whose field and source are new. */
  function Observation(item: Record, reader: Reader): Verdict {
    if !Get(item, "confidence").JNull? && !reader.confidence(Get(item, "confidence")) then Unfit
    else if !Optional(Get(item, "processorVersion"), 100) then Unfit
    else
      match UtcTime(Get(item, "observedAtUtc"), reader)
      case Malformed => Unfit
      case Outside => Overflow
      case _ => Fit
  }

  function ItemVerdict(item: Json, known: set<Origin>, reader: Reader): Verdict {
    if !Originated(item) then Unfit
    else if OriginOf(item) in known then Fit
    else Observation(item.fields, reader)
  }

  /** The loop of _provenance: the first item that does not fit decides. */
  function Items(items: seq<Json>, known: set<Origin>, reader: Reader): Verdict {
    if items == [] then Fit
    else
      var first := ItemVerdict(items[0], known, reader);
      if first == Fit then Items(items[1..], known + {OriginOf(items[0])}, reader) else first
  }

  function Provenance(value: Json, reader: Reader): Verdict {
    if value.JNull? then Fit
    else if !value.JArray? || |value.items| > 100 then Unfit
    else Items(value.items, {}, reader)
  }

  /** The try block of _raw_entry_row. */
  function Judge(record: Record, reader: Reader): Verdict {
    if !Columns(record) then Unfit
    else
      var times := CaptureTimes(record, reader);
      if times != Fit then times
      else
        var provenance := Provenance(Get(record, "provenance"), reader);
        if provenance != Fit then provenance
        else if Get(record, "location").JNull? || reader.location(Get(record, "location")) then Fit
        else Unfit
  }

  // ---- When an entry leaves the calendar ----

  /** capturedAtUtc names an instant outside the calendar, or capturedAtLocal is carried
      out of it by utcOffsetMinutes. */
  predicate CaptureLeaves(record: Record, reader: Reader) {
    var local := LocalTime(Get(record, "capturedAtLocal"), reader);
    var utc := UtcTime(Get(record, "capturedAtUtc"), reader);
    var minutes := Get(record, "utcOffsetMinutes");
    && !local.Malformed?
    && (utc.Outside?
        || (local.At? && utc.At? && ZoneFits(record) && minutes.JInt? && !InCalendar(local.time - minutes.number * MINUTE)))
  }

  /** The item is the first of its field and source, and its observedAtUtc lies outside. */
  predicate ObservationLeaves(items: seq<Json>, i: nat, reader: Reader)
    requires i < |items|
  {
    && Originated(items[i]) && (forall j :: 0 <= j < i && Originated(items[j]) ==> OriginOf(items[j]) != OriginOf(items[i]))
    && (Get(items[i].fields, "confidence").JNull? || reader.confidence(Get(items[i].fields, "confidence")))
    && Optional(Get(items[i].fields, "processorVersion"), 100)
    && UtcTime(Get(items[i].fields, "observedAtUtc"), reader).Outside?
  }

  /** The loop gets as far as item i. */
  predicate ReachesItem(items: seq<Json>, i: nat, reader: Reader)
    requires i <= |items|
  {
    forall j :: 0 <= j < i ==>
      Originated(items[j])
      && (Observation(items[j].fields, reader) == Fit
          || exists h :: 0 <= h < j && Originated(items[h]) && OriginOf(items[h]) == OriginOf(items[j]))
  }

  ghost predicate LeavesFrom(items: seq<Json>, n: nat, reader: Reader) {
    exists i: nat :: n <= i < |items| && ObservationLeaves(items, i, reader) && ReachesItem(items, i, reader)
  }

  ghost predicate ProvenanceLeaves(value: Json, reader: Reader) {
    value.JArray? && |value.items| <= 100 && LeavesFrom(value.items, 0, reader)
  }

  /** The entry's own fields carry the parser out of the calendar. */
  ghost predicate Leaves(record: Record, reader: Reader) {
    && Columns(record)
    && (CaptureLeaves(record, reader)
        || (CaptureTimes(record, reader) == Fit && ProvenanceLeaves(Get(record, "provenance"), reader)))
  }

  function Origins(items: seq<Json>): set<Origin> {
    set i | 0 <= i < |items| && Originated(items[i]) :: OriginOf(items[i])
  }

  lemma NextItem(items: seq<Json>, n: nat, reader: Reader)
    requires n < |items| && ReachesItem(items, n, reader)
    ensures ReachesItem(items, n + 1, reader) <==> ItemVerdict(items[n], Origins(items[..n]), reader) == Fit
    ensures ObservationLeaves(items, n, reader) <==> ItemVerdict(items[n], Origins(items[..n]), reader) == Overflow
  {
  }

  lemma LeavesNext(items: seq<Json>, n: nat, reader: Reader)
    requires n < |items| && ReachesItem(items, n, reader)
    ensures LeavesFrom(items, n, reader)
       <==> ObservationLeaves(items, n, reader) || (ReachesItem(items, n + 1, reader) && LeavesFrom(items, n + 1, reader))
  {
    forall i: nat | n < i < |items| && ReachesItem(items, i, reader) ensures ReachesItem(items, n + 1, reader) {
      Shorter(items, n + 1, i, reader);
    }
  }

  lemma Shorter(items: seq<Json>, n: nat, i: nat, reader: Reader)
    requires n <= i <= |items| && ReachesItem(items, i, reader)
    ensures ReachesItem(items, n, reader)
  {
  }

  lemma ItemsNext(items: seq<Json>, n: nat, reader: Reader)
    requires n < |items|
    ensures var first := ItemVerdict(items[n], Origins(items[..n]), reader);
      Items(items[n..], Origins(items[..n]), reader) == if first == Fit then Items(items[n + 1..], Origins(items[..n + 1]), reader) else first
  {
    assert items[n..][1..] == items[n + 1..];
    if Originated(items[n]) {
      assert Origins(items[..n + 1]) == Origins(items[..n]) + {OriginOf(items[n])};
    }
  }

  lemma {:induction false} ItemsLeave(items: seq<Json>, n: nat, reader: Reader)
    requires n <= |items| && ReachesItem(items, n, reader)
    ensures Items(items[n..], Origins(items[..n]), reader) == Overflow <==> LeavesFrom(items, n, reader)
    decreases |items| - n
  {
    if n < |items| {
      NextItem(items, n, reader);
      LeavesNext(items, n, reader);
      ItemsNext(items, n, reader);
      if ReachesItem(items, n + 1, reader) {
        ItemsLeave(items, n + 1, reader);
      }
    }
  }

  /** A capture or observation time aborts the parser exactly when it leaves the calendar. */
  lemma JudgeLeaves(record: Record, reader: Reader)
    ensures Judge(record, reader) == Overflow <==> Leaves(record, reader)
  {
    var value := Get(record, "provenance");
    if value.JArray? {
      assert value.items[0..] == value.items && Origins(value.items[..0]) == {};
      ItemsLeave(value.items, 0, reader);
    }
  }
}
