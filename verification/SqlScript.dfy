/** The quote-aware statement splitter that the schema migration runner uses. */
module SqlScript {
  import opened Text

  /** Which quotes are open. The code keeps two flags that are never both set. */
  datatype Quotes = Quotes(single: bool, double: bool)

  const CLOSED := Quotes(false, false)

  function Advance(q: Quotes, c: char): Quotes {
    if c == '\'' && !q.double then q.(single := !q.single)
    else if c == '"' && !q.single then q.(double := !q.double)
    else q
  }

  function QuotesAfter(q: Quotes, s: string): Quotes
    decreases |s|
  {
    if s == [] then q else QuotesAfter(Advance(q, s[0]), s[1..])
  }

  /** No ';' of s, read with q open at its start, is outside quotes. */
  predicate Unbroken(q: Quotes, s: string)
    decreases |s|
  {
    s == [] || ((s[0] == ';' ==> q != CLOSED) && Unbroken(Advance(q, s[0]), s[1..]))
  }

  /** The script cut at every ';' outside quotes, before stripping. Never empty. */
  function Pieces(script: string, q: Quotes): (pieces: seq<string>)
    ensures pieces != []
  {
    if script == [] then [[]]
    else if script[0] == ';' && q == CLOSED then [[]] + Pieces(script[1..], CLOSED)
    else
      var rest := Pieces(script[1..], Advance(q, script[0]));
      [[script[0]] + rest[0]] + rest[1..]
  }

  /** Strip every piece and drop the blank ones. */
  function Tidy(pieces: seq<string>): seq<string> {
    if pieces == [] then []
    else (if Strip(pieces[0]) != [] then [Strip(pieces[0])] else []) + Tidy(pieces[1..])
  }

  function Statements(script: string): seq<string> {
    Tidy(Pieces(script, CLOSED))
  }

  /** ";".join(pieces) */
  function Join(pieces: seq<string>): string {
    if pieces == [] then []
    else if |pieces| == 1 then pieces[0]
    else pieces[0] + [';'] + Join(pieces[1..])
  }

  /** What is still to be returned when current has been collected and rest is unread. */
  ghost function Remaining(current: string, rest: string, q: Quotes): seq<string> {
    var pieces := Pieces(rest, q);
    Tidy([current + pieces[0]] + pieces[1..])
  }

  function Kept(current: string): seq<string> {
    if Strip(current) != [] then [Strip(current)] else []
  }

  lemma RemainingAtStart(script: string)
    ensures Remaining([], script, CLOSED) == Statements(script)
  {
    var pieces := Pieces(script, CLOSED);
    assert [] + pieces[0] == pieces[0];
    assert [pieces[0]] + pieces[1..] == pieces;
  }

  lemma RemainingAtEnd(current: string, q: Quotes)
    ensures Remaining(current, [], q) == Kept(current)
  {
    assert current + [] == current;
    assert Tidy([current] + []) == Kept(current) + Tidy([]);
  }

  lemma RemainingStep(current: string, rest: string, q: Quotes)
    requires rest != []
    ensures Remaining(current, rest, q) ==
      if rest[0] == ';' && q == CLOSED then Kept(current) + Remaining([], rest[1..], CLOSED)
      else Remaining(current + [rest[0]], rest[1..], Advance(q, rest[0]))
  {
    var after := Pieces(rest[1..], Advance(q, rest[0]));
    if rest[0] == ';' && q == CLOSED {
      assert current + [] == current;
      assert ([[]] + after)[1..] == after;
      assert ([current] + after)[1..] == after;
      RemainingAtStart(rest[1..]);
    } else {
      assert current + ([rest[0]] + after[0]) == (current + [rest[0]]) + after[0];
    }
  }

  /** What has been returned, and what is still to come, is everything. */
  ghost predicate Halfway(script: string, i: nat, statements: seq<string>, current: string, q: Quotes) {
    i <= |script| && statements + Remaining(current, script[i..], q) == Statements(script)
  }

  lemma Regroup<T>(a: seq<T>, b: seq<T>, c: seq<T>)
    ensures a + (b + c) == (a + b) + c
  {
  }

  lemma HalfwayStep(script: string, i: nat, statements: seq<string>, current: string, q: Quotes)
    requires i < |script| && Halfway(script, i, statements, current, q)
    ensures if script[i] == ';' && q == CLOSED then Halfway(script, i + 1, statements + Kept(current), [], CLOSED)
            else Halfway(script, i + 1, statements, current + [script[i]], Advance(q, script[i]))
  {
    RemainingStep(current, script[i..], q);
    assert script[i..][1..] == script[i + 1..];
    Regroup(statements, Kept(current), Remaining([], script[i + 1..], CLOSED));
  }

  /** The loop's variables after reading a prefix of the script. */
  datatype Progress = Progress(statements: seq<string>, current: string, quotes: Quotes)

  function Feed(p: Progress, c: char): Progress {
    if c == ';' && p.quotes == CLOSED then Progress(p.statements + Kept(p.current), [], CLOSED)
    else Progress(p.statements, p.current + [c], Advance(p.quotes, c))
  }

  function FeedAll(prefix: string): Progress {
    if prefix == [] then Progress([], [], CLOSED)
    else Feed(FeedAll(prefix[..|prefix| - 1]), prefix[|prefix| - 1])
  }

  lemma {:induction false} FedIsHalfway(script: string, i: nat)
    requires i <= |script|
    ensures var p := FeedAll(script[..i]); Halfway(script, i, p.statements, p.current, p.quotes)
  {
    if i == 0 {
      RemainingAtStart(script);
      assert script[0..] == script;
    } else {
      FedIsHalfway(script, i - 1);
      assert script[..i][..i - 1] == script[..i - 1];
      var p := FeedAll(script[..i - 1]);
      HalfwayStep(script, i - 1, p.statements, p.current, p.quotes);
    }
  }

  lemma FedIsSplit(script: string)
    ensures FeedAll(script).statements + Kept(FeedAll(script).current) == Statements(script)
  {
    FedIsHalfway(script, |script|);
    assert script[..|script|] == script;
    RemainingAtEnd(FeedAll(script).current, FeedAll(script).quotes);
  }

  method SplitSqlStatements(script: string) returns (statements: seq<string>)
    ensures statements == Statements(script)
  {
    statements := [];
    var current: string := [];
    var inSingle, inDouble := false, false;
    for i := 0 to |script|
      invariant FeedAll(script[..i]) == Progress(statements, current, Quotes(inSingle, inDouble))
      invariant !(inSingle && inDouble)
    {
      assert script[..i + 1][..i] == script[..i];
      var c := script[i];
      if c == '\'' && !inDouble {
        inSingle := !inSingle;
      } else if c == '"' && !inSingle {
        inDouble := !inDouble;
      }
      if c == ';' && !inSingle && !inDouble {
        var statement := Strip(current);
        if statement != [] {
          statements := statements + [statement];
        }
        current := [];
      } else {
        current := current + [c];
      }
    }
    assert script[..|script|] == script;
    FedIsSplit(script);
    var tail := Strip(current);
    if tail != [] {
      statements := statements + [tail];
    }
  }

  // ---- What a list of returned statements looks like ----

  predicate Trimmed(s: string) {
    s != [] && !IsSpace(s[0]) && !IsSpace(s[|s| - 1])
  }

  /** Trimmed, no ';' outside quotes, and only the last may leave a quote open. */
  predicate WellFormed(list: seq<string>) {
    list != [] ==>
      && Trimmed(list[0])
      && Unbroken(CLOSED, list[0])
      && (|list| > 1 ==> QuotesAfter(CLOSED, list[0]) == CLOSED)
      && WellFormed(list[1..])
  }

  lemma {:induction false} QuotesAppend(q: Quotes, a: string, b: string)
    ensures QuotesAfter(q, a + b) == QuotesAfter(QuotesAfter(q, a), b)
    ensures Unbroken(q, a + b) <==> Unbroken(q, a) && Unbroken(QuotesAfter(q, a), b)
    decreases |a|
  {
    if a == [] {
      assert a + b == b;
    } else {
      assert (a + b)[1..] == a[1..] + b;
      QuotesAppend(Advance(q, a[0]), a[1..], b);
    }
  }

  /** Whitespace never opens or closes a quote, so stripping changes neither fact. */
  lemma {:induction false} StripLeftKeeps(q: Quotes, s: string)
    ensures QuotesAfter(q, StripLeft(s)) == QuotesAfter(q, s)
    ensures Unbroken(q, s) ==> Unbroken(q, StripLeft(s))
    ensures StripLeft(s) != [] ==> !IsSpace(StripLeft(s)[0])
  {
    if s != [] && IsSpace(s[0]) {
      StripLeftKeeps(q, s[1..]);
    }
  }

  lemma {:induction false} StripRightKeeps(q: Quotes, s: string)
    ensures QuotesAfter(q, StripRight(s)) == QuotesAfter(q, s)
    ensures Unbroken(q, s) ==> Unbroken(q, StripRight(s))
    ensures StripRight(s) != [] ==> StripRight(s)[0] == s[0] && !IsSpace(StripRight(s)[|StripRight(s)| - 1])
    decreases |s|
  {
    if s != [] && IsSpace(s[|s| - 1]) {
      var front, last := s[..|s| - 1], s[|s| - 1];
      assert s == front + [last];
      QuotesAppend(q, front, [last]);
      assert QuotesAfter(QuotesAfter(q, front), [last]) == QuotesAfter(Advance(QuotesAfter(q, front), last), []);
      StripRightKeeps(q, front);
    }
  }

  lemma StripKeeps(q: Quotes, s: string)
    ensures QuotesAfter(q, Strip(s)) == QuotesAfter(q, s)
    ensures Unbroken(q, s) ==> Unbroken(q, Strip(s))
    ensures Strip(s) != [] ==> Trimmed(Strip(s))
  {
    StripLeftKeeps(q, s);
    StripRightKeeps(q, StripLeft(s));
  }

  lemma StripTrimmed(s: string)
    requires Trimmed(s)
    ensures Strip(s) == s
  {
  }

  /** Every piece is unbroken, and every piece but the last closes its quotes. */
  predicate Sound(pieces: seq<string>, q: Quotes) {
    pieces != [] ==>
      && Unbroken(q, pieces[0])
      && (|pieces| > 1 ==> QuotesAfter(q, pieces[0]) == CLOSED)
      && Sound(pieces[1..], CLOSED)
  }

  lemma {:induction false} PiecesSound(script: string, q: Quotes)
    ensures Sound(Pieces(script, q), q)
  {
    if script == [] {
    } else if script[0] == ';' && q == CLOSED {
      PiecesSound(script[1..], CLOSED);
      assert ([[]] + Pieces(script[1..], CLOSED))[1..] == Pieces(script[1..], CLOSED);
    } else {
      var q' := Advance(q, script[0]);
      var rest := Pieces(script[1..], q');
      PiecesSound(script[1..], q');
      var first := [script[0]] + rest[0];
      assert first[1..] == rest[0];
      assert ([first] + rest[1..])[1..] == rest[1..];
    }
  }

  /** Cutting loses no character: the pieces joined again are the script. */
  lemma JoinPrepend(c: char, pieces: seq<string>)
    requires pieces != []
    ensures Join([[c] + pieces[0]] + pieces[1..]) == [c] + Join(pieces)
  {
    var longer := [[c] + pieces[0]] + pieces[1..];
    if |pieces| > 1 {
      assert longer[1..] == pieces[1..];
      assert ([c] + pieces[0]) + [';'] + Join(pieces[1..]) == [c] + (pieces[0] + [';'] + Join(pieces[1..]));
    }
  }

  lemma JoinAfterBlank(pieces: seq<string>)
    requires pieces != []
    ensures Join([[]] + pieces) == [';'] + Join(pieces)
  {
  }

  lemma {:induction false} PiecesJoin(script: string, q: Quotes)
    ensures Join(Pieces(script, q)) == script
  {
    if script != [] {
      var next := if script[0] == ';' && q == CLOSED then CLOSED else Advance(q, script[0]);
      PiecesJoin(script[1..], next);
      if script[0] == ';' && q == CLOSED {
        JoinAfterBlank(Pieces(script[1..], next));
      } else {
        JoinPrepend(script[0], Pieces(script[1..], next));
      }
      assert [script[0]] + script[1..] == script;
    }
  }

  lemma {:induction false} TidySound(pieces: seq<string>)
    requires Sound(pieces, CLOSED)
    ensures WellFormed(Tidy(pieces))
    ensures |Tidy(pieces)| <= |pieces|
  {
    if pieces != [] {
      TidySound(pieces[1..]);
      StripKeeps(CLOSED, pieces[0]);
      var rest := Tidy(pieces[1..]);
      if Strip(pieces[0]) != [] {
        assert ([Strip(pieces[0])] + rest)[1..] == rest;
      } else {
        assert [] + rest == rest;
      }
    }
  }

  /** Every returned statement is trimmed and holds no ';' outside quotes. */
  lemma StatementsWellFormed(script: string)
    ensures WellFormed(Statements(script))
  {
    PiecesSound(script, CLOSED);
    TidySound(Pieces(script, CLOSED));
  }

  /** An unbroken text in front of a script lengthens the script's first piece. */
  lemma {:induction false} PiecesPrefix(text: string, rest: string, q: Quotes)
    requires Unbroken(q, text)
    ensures var tail := Pieces(rest, QuotesAfter(q, text));
      Pieces(text + rest, q) == [text + tail[0]] + tail[1..]
  {
    var tail := Pieces(rest, QuotesAfter(q, text));
    if text == [] {
      assert text + rest == rest;
      assert text + tail[0] == tail[0];
      assert tail == [text + tail[0]] + tail[1..];
    } else {
      assert (text + rest)[1..] == text[1..] + rest;
      PiecesPrefix(text[1..], rest, Advance(q, text[0]));
      assert [text[0]] + (text[1..] + tail[0]) == text + tail[0];
    }
  }

  lemma {:induction false} SplitJoined(list: seq<string>)
    requires WellFormed(list) && list != []
    ensures Pieces(Join(list), CLOSED) == list
  {
    var text := list[0];
    if |list| == 1 {
      PiecesPrefix(text, [], CLOSED);
      assert text + [] == text;
    } else {
      var rest := [';'] + Join(list[1..]);
      assert Join(list) == text + rest;
      SplitJoined(list[1..]);
      PiecesPrefix(text, rest, CLOSED);
      assert rest[1..] == Join(list[1..]);
      assert Pieces(rest, CLOSED) == [[]] + list[1..];
      assert text + [] == text;
    }
  }

  lemma {:induction false} TidyTrimmed(list: seq<string>)
    requires WellFormed(list)
    ensures Tidy(list) == list
  {
    if list != [] {
      StripTrimmed(list[0]);
      TidyTrimmed(list[1..]);
    }
  }

  /** Splitting the joined statements again gives the same statements. */
  lemma SplitIsFixpoint(script: string)
    ensures Statements(Join(Statements(script))) == Statements(script)
  {
    StatementsWellFormed(script);
    JoinRoundTrip(Statements(script));
  }

  /** A list survives joining and splitting exactly when it is well formed. */
  lemma JoinRoundTrip(list: seq<string>)
    ensures Statements(Join(list)) == list <==> WellFormed(list)
  {
    if WellFormed(list) {
      TidyTrimmed(list);
      if list != [] {
        SplitJoined(list);
      } else {
        assert Pieces([], CLOSED) == [[]];
        assert Tidy([[]]) == [] + Tidy([]);
      }
    }
    StatementsWellFormed(Join(list));
  }
}
