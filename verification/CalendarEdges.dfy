/** Entries that the client's writer accepts and whose date-times leave the calendar. */
module CalendarEdges {
  import opened Prelude
  import opened EntryChecks
  import opened Framing
  import opened ManifestFormat

  lemma {:induction false} ZuluKeeps(text: string)
    requires 'Z' !in text
    ensures Zulu(text) == text
  {
    if text != "" {
      ZuluKeeps(text[1..]);
    }
  }

  lemma {:induction false} ZuluReplaces(text: string)
    requires 'Z' !in text
    ensures Zulu(text + "Z") == text + "+00:00"
  {
    if text == "" {
      assert text + "Z" == "Z" && "Z"[1..] == "";
    } else {
      assert (text + "Z")[1..] == text[1..] + "Z";
      ZuluReplaces(text[1..]);
    }
  }

  lemma CaptureDecides(entry: Record, reader: Reader)
    requires Columns(entry) && CaptureLeaves(entry, reader)
    ensures Leaves(entry, reader)
  {
  }

  lemma UtcOutside(value: Json, reader: Reader, text: string, clock: int, offset: int)
    requires value == JString(text) && |text| <= 64
    requires reader.iso(Zulu(text)) == Some(Stamp(clock, Some(offset))) && !InCalendar(clock - offset)
    ensures UtcTime(value, reader) == Outside
  {
  }

  lemma InstantLeaves(entry: Record, reader: Reader, text: string, clock: int, offset: int)
    requires Get(entry, "capturedAtLocal") == JNull && Get(entry, "capturedAtUtc") == JString(text) && |text| <= 64
    requires reader.iso(Zulu(text)) == Some(Stamp(clock, Some(offset))) && !InCalendar(clock - offset)
    ensures CaptureLeaves(entry, reader)
  {
    UtcOutside(Get(entry, "capturedAtUtc"), reader, text, clock, offset);
  }

  /** The first instant of the calendar, on a clock fourteen hours ahead of UTC. */
  lemma EarlyLeaves(entry: Record, reader: Reader)
    requires Columns(entry)
    requires Get(entry, "capturedAtLocal") == JNull && Get(entry, "capturedAtUtc") == JString("0001-01-01T00:00:00+14:00")
    requires reader.iso("0001-01-01T00:00:00+14:00") == Some(Stamp(0, Some(14 * HOUR)))
    ensures Leaves(entry, reader)
  {
    var text: string :| text == "0001-01-01T00:00:00+14:00";
    ZuluKeeps(text);
    InstantLeaves(entry, reader, text, 0, 14 * HOUR);
    CaptureDecides(entry, reader);
  }

  lemma LocalAt(value: Json, reader: Reader, text: string, clock: int)
    requires value == JString(text) && |text| <= 64 && reader.iso(text) == Some(Stamp(clock, None))
    ensures LocalTime(value, reader) == At(clock)
  {
  }

  lemma UtcAt(value: Json, reader: Reader, text: string, instant: int)
    requires value == JString(text) && |text| <= 64
    requires reader.iso(Zulu(text)) == Some(Stamp(instant, Some(0))) && InCalendar(instant)
    ensures UtcTime(value, reader) == At(instant)
  {
  }

  lemma ClockLeaves(entry: Record, reader: Reader, clock: int, instant: int, minutes: int)
    requires LocalTime(Get(entry, "capturedAtLocal"), reader) == At(clock)
    requires UtcTime(Get(entry, "capturedAtUtc"), reader) == At(instant)
    requires Get(entry, "utcOffsetMinutes") == JInt(minutes) && ZoneFits(entry) && !InCalendar(clock - minutes * MINUTE)
    ensures CaptureLeaves(entry, reader)
  {
  }

  lemma VideoLeaves(entry: Record, reader: Reader, local: string, utc: string)
    requires Columns(entry) && ZoneFits(entry) && Get(entry, "utcOffsetMinutes") == JInt(-1) && |local| <= 64 && |utc| < 64
    requires Get(entry, "capturedAtLocal") == JString(local) && Get(entry, "capturedAtUtc") == JString(utc + "Z") && 'Z' !in utc
    requires reader.iso(local) == Some(Stamp(CALENDAR - 45 * SECOND, None))
    requires reader.iso(utc + "+00:00") == Some(Stamp(CALENDAR - 15 * SECOND, Some(0)))
    ensures Leaves(entry, reader)
  {
    ZuluReplaces(utc);
    LocalAt(Get(entry, "capturedAtLocal"), reader, local, CALENDAR - 45 * SECOND);
    UtcAt(Get(entry, "capturedAtUtc"), reader, utc + "Z", CALENDAR - 15 * SECOND);
    ClockLeaves(entry, reader, CALENDAR - 45 * SECOND, CALENDAR - 15 * SECOND, -1);
    CaptureDecides(entry, reader);
  }

  /** What the scanner stores of a video tagged 9999-12-31T23:59:15-00:00:30: the offset of
      half a minute is rounded down to a whole one. */
  lemma LateLeaves(entry: Record, reader: Reader)
    requires Columns(entry) && ZoneFits(entry) && Get(entry, "utcOffsetMinutes") == JInt(-1)
    requires Get(entry, "capturedAtLocal") == JString("9999-12-31T23:59:15")
    requires Get(entry, "capturedAtUtc") == JString("9999-12-31T23:59:45" + "Z")
    requires reader.iso("9999-12-31T23:59:15") == Some(Stamp(CALENDAR - 45 * SECOND, None))
    requires reader.iso("9999-12-31T23:59:45" + "+00:00") == Some(Stamp(CALENDAR - 15 * SECOND, Some(0)))
    ensures Leaves(entry, reader)
  {
    VideoLeaves(entry, reader, "9999-12-31T23:59:15", "9999-12-31T23:59:45");
  }

  // ---- Two complete entries ----

  function ZeroHash(): (hash: string)
    ensures IsHash(hash) && '\0' !in hash
  {
    seq(64, _ => '0')
  }

  function Plain(): Record {
    map["operation" := JString("Upsert"), "sourceItemId" := JString("i"), "sourceRevision" := JString("r"), "fileName" := JString("f"),
        "localLocator" := JString("l"), "contentSha256" := JString(ZeroHash()), "mediaType" := JString("Video"),
        "mimeType" := JString("m"), "byteSize" := JInt(1)]
  }

  lemma PlainTexts()
    ensures Get(Plain(), "sourceItemId") == JString("i") && Get(Plain(), "sourceRevision") == JString("r")
    ensures Get(Plain(), "fileName") == JString("f") && Get(Plain(), "localLocator") == JString("l")
  {
  }

  lemma PlainOthers()
    ensures Get(Plain(), "contentSha256") == JString(ZeroHash()) && Get(Plain(), "mediaType") == JString("Video")
    ensures Get(Plain(), "mimeType") == JString("m") && Get(Plain(), "byteSize") == JInt(1)
    ensures Get(Plain(), "operation") == JString("Upsert")
  {
  }

  lemma PlainAbsent()
    ensures Get(Plain(), "widthPixels") == Get(Plain(), "heightPixels") == Get(Plain(), "durationMs") == JNull
    ensures Get(Plain(), "capturedAtLocal") == Get(Plain(), "timeZoneId") == JNull
    ensures "recordType" !in Plain() && "rowNumber" !in Plain()
  {
  }

  lemma PlainFits()
    ensures Columns(Plain())
  {
    PlainTexts();
    PlainOthers();
    PlainAbsent();
  }

  /** Other fields than the capture times are as they were. */
  ghost predicate TimesOnly(entry: Record, plain: Record) {
    forall name :: name !in {"capturedAtLocal", "capturedAtUtc", "utcOffsetMinutes"} ==>
      Get(entry, name) == Get(plain, name) && (name in entry <==> name in plain)
  }

  lemma ColumnsOfTimes(entry: Record, plain: Record)
    requires TimesOnly(entry, plain)
    ensures Columns(entry) == Columns(plain)
  {
  }

  lemma TimesAdded(plain: Record, times: Record)
    requires times.Keys <= {"capturedAtLocal", "capturedAtUtc", "utcOffsetMinutes"}
    ensures TimesOnly(plain + times, plain)
    ensures forall name :: name in times ==> Get(plain + times, name) == times[name]
    ensures forall name :: name !in times ==> Get(plain + times, name) == Get(plain, name)
  {
  }

  lemma Writable(entry: Record, row: nat)
    requires TimesOnly(entry, Plain())
    ensures EntryRecord(entry, row).Good?
  {
    PlainOthers();
    PlainAbsent();
  }

  lemma PlainWith(times: Record, row: nat)
    requires times.Keys <= {"capturedAtLocal", "capturedAtUtc", "utcOffsetMinutes"}
    ensures Columns(Plain() + times) && EntryRecord(Plain() + times, row).Good?
  {
    TimesAdded(Plain(), times);
    ColumnsOfTimes(Plain() + times, Plain());
    PlainFits();
    Writable(Plain() + times, row);
  }

  const EARLY: Record := map["capturedAtUtc" := JString("0001-01-01T00:00:00+14:00")]

  const LATE: Record := map["capturedAtLocal" := JString("9999-12-31T23:59:15"), "capturedAtUtc" := JString("9999-12-31T23:59:45" + "Z"),
                            "utcOffsetMinutes" := JInt(-1)]

  /** One such entry ends the parser, although the writer accepts the entry. */
  lemma Aborts(codec: Codec, container: Container, reader: Reader, request: WriteRequest, entry: Record)
    requires Lawful(codec) && LawfulContainer(container) && entry in request.entries && Leaves(entry, reader)
    requires Write(codec, container, CLIENT_LIMITS, MAX_COMPRESSED_BYTES, request).Good?
    ensures var written := Write(codec, container, CLIENT_LIMITS, MAX_COMPRESSED_BYTES, request).value;
      Parse(codec, container, WORKER_LIMITS, MAX_COMPRESSED_BYTES, reader, written.file, written.sha256, |written.file|,
            Some(written.entryCount)) == Bad(UncaughtOverflow)
  {
    WrittenManifestParses(codec, container, CLIENT_LIMITS, WORKER_LIMITS, MAX_COMPRESSED_BYTES, MAX_COMPRESSED_BYTES, reader, request);
  }

  lemma EarlyEntry(reader: Reader, row: nat)
    requires reader.iso("0001-01-01T00:00:00+14:00") == Some(Stamp(0, Some(14 * HOUR)))
    ensures EntryRecord(Plain() + EARLY, row).Good? && Leaves(Plain() + EARLY, reader)
  {
    PlainWith(EARLY, row);
    PlainAbsent();
    EarlyLeaves(Plain() + EARLY, reader);
  }

  lemma LateTimes()
    ensures Get(Plain() + LATE, "capturedAtLocal") == JString("9999-12-31T23:59:15")
    ensures Get(Plain() + LATE, "capturedAtUtc") == JString("9999-12-31T23:59:45" + "Z")
    ensures Get(Plain() + LATE, "utcOffsetMinutes") == JInt(-1) && Get(Plain() + LATE, "timeZoneId") == JNull
  {
    TimesAdded(Plain(), LATE);
    PlainAbsent();
    assert "timeZoneId" !in LATE;
  }

  lemma LateEntry(reader: Reader, row: nat)
    requires reader.iso("9999-12-31T23:59:15") == Some(Stamp(CALENDAR - 45 * SECOND, None))
    requires reader.iso("9999-12-31T23:59:45" + "+00:00") == Some(Stamp(CALENDAR - 15 * SECOND, Some(0)))
    ensures EntryRecord(Plain() + LATE, row).Good? && Leaves(Plain() + LATE, reader)
  {
    PlainWith(LATE, row);
    LateTimes();
    LateLeaves(Plain() + LATE, reader);
  }
}
