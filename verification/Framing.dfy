/** Bytes, JSON values and newline framing, shared by the artifact formats. gzip is the
    identity on the bytes here, and JSON text is whatever a lawful codec makes of it. */
module Framing {
  import opened Prelude

  type Byte = x: int | 0 <= x < 256
  type Bytes = seq<Byte>

  const NEWLINE: Byte := 10

  datatype Json = JNull | JBool(flag: bool) | JInt(number: int) | JFloat(text: string) | JString(text: string)
    | JArray(items: seq<Json>) | JObject(fields: map<string, Json>)

  type Record = map<string, Json>

  /** Why an artifact is refused. */
  datatype Code = LineLimitExceeded | TerminatorMissing | ExpandedLimitExceeded | CompressedLimitExceeded
    | NotJson | NotAnObject | HeaderInvalid | IdentifierInvalid | ImportMismatch | HeaderMissing
    | RecordInvalid | RowSequenceInvalid | EntryInvalid | OutcomeUnhashable | EntryLimitExceeded | MemoryLimitExceeded
    | EntryCountInvalid | Changed | CursorOutside
    | OperationUnsupported | ContentHashRequired | ReservedField | PermissionStateInvalid | ClientCursorInvalid
    | RemoteUnsupported | KindUnsupported | DeletionDetectionUnsupported | EntryCountMismatch
    | ChecksumInvalid | ChecksumMismatch | SizeMismatch | GzipInvalid | UncaughtOverflow

  datatype Read<+T> = Good(value: T) | Bad(code: Code)

  /** JSON text, and UUID text. encode fails on values JSON cannot write; decode yields
      objects and other values alike; uuid is str(UUID(str(value))). */
  datatype Codec = Codec(encode: Json -> Option<Bytes>, decode: Bytes -> Option<Json>, uuid: Json -> Option<string>)

  /** Encoding is injective, its text holds no newline, and a UUID's text is its own. */
  ghost predicate Lawful(c: Codec) {
    && (forall v {:trigger c.encode(v)} :: c.encode(v).Some? ==>
          c.decode(c.encode(v).value) == Some(v) && NEWLINE !in c.encode(v).value)
    && (forall v {:trigger c.uuid(v)} :: c.uuid(v).Some? ==>
          c.uuid(JString(c.uuid(v).value)) == c.uuid(v) && |c.uuid(v).value| == 36 && '\0' !in c.uuid(v).value)
  }

  function Get(record: Record, name: string): Json {
    if name in record then record[name] else JNull
  }

  // ---- Lines ----

  /** How many bytes readline(cap) returns: through the first newline, at most cap. */
  function LineLength(s: Bytes, cap: nat): (n: nat)
    ensures n <= |s| && n <= cap
    decreases cap
  {
    if cap == 0 || s == [] then 0
    else if s[0] == NEWLINE then 1
    else 1 + LineLength(s[1..], cap - 1)
  }

  /** totalFirst says whether the total size is checked before a missing terminator. */
  datatype Limits = Limits(line: nat, total: nat, entries: nat, totalFirst: bool)

  const MAX_COMPRESSED_BYTES := 268_435_456
  const CLIENT_LIMITS := Limits(262_144, 1_073_741_824, 250_000, false)
  const WORKER_LIMITS := Limits(262_144, 1_073_741_824, 250_000, true)

  datatype Taken = End | Refuse(code: Code) | Line(content: Bytes, rest: Bytes, used: nat)

  /** The next line, without its newline, if it is terminated and within the limits. */
  function NextLine(limits: Limits, s: Bytes, used: nat): (t: Taken)
    ensures t.Line? ==> |t.rest| < |s| && t.used + |t.rest| == used + |s|
    ensures t.End? <==> s == []
  {
    var n := LineLength(s, limits.line + 1);
    if n == 0 then End
    else if n > limits.line then Refuse(LineLimitExceeded)
    else if limits.totalFirst && used + n > limits.total then Refuse(ExpandedLimitExceeded)
    else if s[n - 1] != NEWLINE then Refuse(TerminatorMissing)
    else if used + n > limits.total then Refuse(ExpandedLimitExceeded)
    else Line(s[..n - 1], s[n..], used + n)
  }

  /** A line that was written is the line that is read. */
  lemma {:induction false} WrittenLine(content: Bytes, rest: Bytes, cap: nat)
    requires NEWLINE !in content && |content| < cap
    ensures LineLength(content + [NEWLINE] + rest, cap) == |content| + 1
    decreases |content|
  {
    var s := content + [NEWLINE] + rest;
    if content != [] {
      assert s[1..] == content[1..] + [NEWLINE] + rest;
      WrittenLine(content[1..], rest, cap - 1);
    }
  }

  lemma NextWritten(limits: Limits, content: Bytes, rest: Bytes, used: nat)
    requires NEWLINE !in content && |content| + 1 <= limits.line && used + |content| + 1 <= limits.total
    ensures NextLine(limits, content + [NEWLINE] + rest, used) == Line(content, rest, used + |content| + 1)
  {
    WrittenLine(content, rest, limits.line + 1);
    var s := content + [NEWLINE] + rest;
    assert s[..|content|] == content && s[|content| + 1..] == rest;
  }

  /** A line to write, within the limit for one line. */
  function JsonLine(codec: Codec, value: Json, limit: nat): Read<Bytes> {
    match codec.encode(value)
    case None => Bad(NotJson)
    case Some(text) => if |text| + 1 > limit then Bad(LineLimitExceeded) else Good(text + [NEWLINE])
  }

  function JsonRecord(codec: Codec, line: Bytes): Read<Record> {
    match codec.decode(line)
    case None => Bad(NotJson)
    case Some(JObject(fields)) => Good(fields)
    case Some(_) => Bad(NotAnObject)
  }

  // ---- Writing line by line ----

  /** Lines k, k + 1, ... of count, after so many bytes; the total is checked at every line. */
  function LinesFrom(lineAt: nat -> Read<Bytes>, count: nat, limit: nat, k: nat, used: nat): Read<Bytes>
    decreases count - k
  {
    if k >= count then Good([])
    else
      match lineAt(k)
      case Bad(code) => Bad(code)
      case Good(line) =>
        if used + |line| > limit then Bad(ExpandedLimitExceeded)
        else
          match LinesFrom(lineAt, count, limit, k + 1, used + |line|)
          case Bad(code) => Bad(code)
          case Good(rest) => Good(line + rest)
  }

  lemma FirstOfLines(lineAt: nat -> Read<Bytes>, count: nat, limit: nat, k: nat, used: nat)
    requires k < count && LinesFrom(lineAt, count, limit, k, used).Good?
    ensures lineAt(k).Good?
    ensures var line := lineAt(k).value;
      && used + |line| <= limit && LinesFrom(lineAt, count, limit, k + 1, used + |line|).Good?
      && LinesFrom(lineAt, count, limit, k, used).value
        == line + LinesFrom(lineAt, count, limit, k + 1, used + |line|).value
  {
  }

  ghost predicate Continues(goal: Read<Bytes>, stream: Bytes, more: Read<Bytes>) {
    goal == if more.Good? then Good(stream + more.value) else more
  }

  lemma ContinuesLine(goal: Read<Bytes>, stream: Bytes, line: Bytes, more: Read<Bytes>)
    requires Continues(goal, stream, if more.Good? then Good(line + more.value) else more)
    ensures Continues(goal, stream + line, more)
  {
    if more.Good? {
      assert stream + (line + more.value) == (stream + line) + more.value;
    }
  }

  /** The loop both writers share: what is written so far, then the lines. */
  method WriteLines(lineAt: nat -> Read<Bytes>, count: nat, limit: nat, start: Bytes) returns (r: Read<Bytes>)
    ensures var lines := LinesFrom(lineAt, count, limit, 0, |start|);
      r == if lines.Good? then Good(start + lines.value) else lines
  {
    var stream := start;
    ghost var lines := LinesFrom(lineAt, count, limit, 0, |start|);
    ghost var goal := if lines.Good? then Good(start + lines.value) else lines;
    for k := 0 to count
      invariant Continues(goal, stream, LinesFrom(lineAt, count, limit, k, |stream|))
    {
      var line := lineAt(k);
      if line.Bad? {
        return Bad(line.code);
      }
      if |stream| + |line.value| > limit {
        return Bad(ExpandedLimitExceeded);
      }
      ContinuesLine(goal, stream, line.value, LinesFrom(lineAt, count, limit, k + 1, |stream| + |line.value|));
      stream := stream + line.value;
    }
    assert stream + [] == stream;
    r := Good(stream);
  }

  // ---- Reading line by line ----

  /** Feed the lines to a step until it refuses or they end; what was reached, and why it stopped. */
  function Fold<S>(limits: Limits, step: (S, Bytes) -> Read<S>, s: Bytes, used: nat, state: S): (S, Option<Code>)
    decreases |s|
  {
    match NextLine(limits, s, used)
    case End => (state, None)
    case Refuse(code) => (state, Some(code))
    case Line(content, rest, total) =>
      match step(state, content)
      case Bad(code) => (state, Some(code))
      case Good(next) => Fold(limits, step, rest, total, next)
  }

  lemma FoldNext<S>(limits: Limits, step: (S, Bytes) -> Read<S>, s: Bytes, used: nat, state: S, taken: Taken, next: S)
    requires NextLine(limits, s, used) == taken && taken.Line? && step(state, taken.content) == Good(next)
    ensures Fold(limits, step, s, used, state) == Fold(limits, step, taken.rest, taken.used, next)
  {
  }

  /** A single line, within the limit for one. */
  predicate IsLine(line: Bytes, limit: nat) {
    line != [] && line[|line| - 1] == NEWLINE && NEWLINE !in line[..|line| - 1] && |line| <= limit
  }

  lemma LineTaken(limits: Limits, line: Bytes, rest: Bytes, used: nat)
    requires IsLine(line, limits.line) && used + |line| <= limits.total
    ensures NextLine(limits, line + rest, used) == Line(line[..|line| - 1], rest, used + |line|)
  {
    assert line + rest == line[..|line| - 1] + [NEWLINE] + rest;
    NextWritten(limits, line[..|line| - 1], rest, used);
  }

  /** Line i takes the reader from state i to state i + 1. */
  ghost predicate Leads<S(!new)>(limits: Limits, step: (S, Bytes) -> Read<S>, lineAt: nat -> Read<Bytes>, at: nat -> S, i: nat) {
    lineAt(i).Good? ==>
      && IsLine(lineAt(i).value, limits.line)
      && step(at(i), lineAt(i).value[..|lineAt(i).value| - 1]) == Good(at(i + 1))
  }

  ghost predicate Stops<S(!new)>(limits: Limits, step: (S, Bytes) -> Read<S>, line: Bytes, state: S, code: Code) {
    IsLine(line, limits.line) && step(state, line[..|line| - 1]) == Bad(code)
  }

  lemma OneLineRead<S(!new)>(limits: Limits, step: (S, Bytes) -> Read<S>, lineAt: nat -> Read<Bytes>, k: nat, used: nat, at: nat -> S,
                             rest: Bytes)
    requires lineAt(k).Good? && used + |lineAt(k).value| <= limits.total && Leads(limits, step, lineAt, at, k)
    ensures Fold(limits, step, lineAt(k).value + rest, used, at(k)) == Fold(limits, step, rest, used + |lineAt(k).value|, at(k + 1))
  {
    var line := lineAt(k).value;
    LineTaken(limits, line, rest, used);
    FoldNext(limits, step, line + rest, used, at(k), Line(line[..|line| - 1], rest, used + |line|), at(k + 1));
  }

  /** A reader that each written line leads one state on is led through all of them. */
  lemma {:induction false} WrittenLinesRead<S(!new)>(limits: Limits, step: (S, Bytes) -> Read<S>, lineAt: nat -> Read<Bytes>, count: nat,
                                                     limit: nat, k: nat, used: nat, at: nat -> S)
    requires k <= count && limit <= limits.total && LinesFrom(lineAt, count, limit, k, used).Good?
    requires forall i :: k <= i < count ==> Leads(limits, step, lineAt, at, i)
    ensures Fold(limits, step, LinesFrom(lineAt, count, limit, k, used).value, used, at(k)) == (at(count), None)
    decreases count - k
  {
    if k < count {
      FirstOfLines(lineAt, count, limit, k, used);
      var total := used + |lineAt(k).value|;
      OneLineRead(limits, step, lineAt, k, used, at, LinesFrom(lineAt, count, limit, k + 1, total).value);
      WrittenLinesRead(limits, step, lineAt, count, limit, k + 1, total, at);
    }
  }

  /** Or it is led up to a line that the step refuses, and stops there. */
  lemma {:induction false} WrittenLinesStop<S(!new)>(limits: Limits, step: (S, Bytes) -> Read<S>, lineAt: nat -> Read<Bytes>, count: nat,
                                                     limit: nat, k: nat, used: nat, at: nat -> S, n: nat, code: Code)
    requires k <= n < count && limit <= limits.total && LinesFrom(lineAt, count, limit, k, used).Good?
    requires forall i :: k <= i < n ==> Leads(limits, step, lineAt, at, i)
    requires lineAt(n).Good? ==> Stops(limits, step, lineAt(n).value, at(n), code)
    ensures Fold(limits, step, LinesFrom(lineAt, count, limit, k, used).value, used, at(k)) == (at(n), Some(code))
    decreases n - k
  {
    FirstOfLines(lineAt, count, limit, k, used);
    var total := used + |lineAt(k).value|;
    var rest := LinesFrom(lineAt, count, limit, k + 1, total).value;
    if k < n {
      OneLineRead(limits, step, lineAt, k, used, at, rest);
      WrittenLinesStop(limits, step, lineAt, count, limit, k + 1, total, at, n, code);
    } else {
      LineTaken(limits, lineAt(k).value, rest, used);
    }
  }

  /** A JSON line is one line, and reads back as what was written. */
  lemma JsonLineReads(codec: Codec, record: Record, limit: nat)
    requires Lawful(codec) && JsonLine(codec, JObject(record), limit).Good?
    ensures var line := JsonLine(codec, JObject(record), limit).value;
      IsLine(line, limit) && JsonRecord(codec, line[..|line| - 1]) == Good(record)
  {
  }
}
