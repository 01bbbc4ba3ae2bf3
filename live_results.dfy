/** TestResultConsoleReporter: receives the test log in arbitrary chunks,
    cuts it into lines, and for every line holding a `<test ... />` element
    with a name and a result writes a one-line status ("[ OK ] name") over
    the previous one on the console. */
module LiveResults {
  import opened Common
  import opened Text

  /** Environment.NewLine on the platforms the tool runs on. */
  const NewLine: char := '\n'

  /** An XML element parser: the attributes of the element, or None where
      XElement.Parse throws. */
  type Parser = string -> Option<map<string, string>>

  /** What the reporter has shown: the length of the last status line and
      everything written to the console, one `Console.Write` per entry. */
  datatype View = View(lastLoggedLineLength: int, console: seq<string>)

  /** A status line has been written exactly when the recorded length is not
      zero; the length is never negative. */
  predicate ViewValid(v: View) {
    v.lastLoggedLineLength >= 0 && (v.lastLoggedLineLength == 0 <==> v.console == [])
  }

  /** The display tag of a result value, matched case-insensitively. */
  function Tag(result: string): string {
    var r := ToLowerAscii(result);
    if r == "pass" then "[ OK ]"
    else if r == "fail" then "[FAIL]"
    else if r == "skip" then "[SKIP]"
    else "[????]"
  }

  /** The repair of a line without "/>": a '/' before its last '>'. `None`
      where there is no '>' at all, so that `Substring` throws. */
  function Repair(line: string): Option<string> {
    if Contains(line, "/>") then Some(line)
    else
      var position := LastIndexOf(line, '>');
      if position < 0 then None else Some(line[..position] + "/" + line[position..])
  }

  /** Writing a status line: a carriage return when a status line is already
      shown, then the tag and the name. */
  function Render(v: View, name: string, result: string): View {
    View(6 + 1 + |name|,
         v.console + (if v.lastLoggedLineLength != 0 then ["\r"] else []) + [Tag(result), " " + name])
  }

  /** `ProcessLine` on the view: the new view, or the exception that escapes
      (only the failed repair does; parse failures are swallowed). */
  function StepLine(parse: Parser, v: View, line: string): Result<View> {
    if line == "" || !Contains(line, "<test") then Ok(v)
    else match Repair(line)
      case None => Err(ArgumentOutOfRange)
      case Some(repaired) =>
        match parse(repaired)
        case None => Ok(v)
        case Some(attributes) =>
          if "name" in attributes && "result" in attributes
          then Ok(Render(v, attributes["name"], attributes["result"]))
          else Ok(v)
  }

  /** The outcome of processing a run of complete lines. */
  datatype LinesOutcome = Completed(view: View) | Aborted(view: View, line: string, error: Error)

  /** Processes complete lines in order, stopping at the first exception. */
  function FeedLines(parse: Parser, v: View, lines: seq<string>): LinesOutcome
    decreases |lines|
  {
    if lines == [] then Completed(v)
    else match StepLine(parse, v, lines[0])
      case Err(e) => Aborted(v, lines[0], e)
      case Ok(next) => FeedLines(parse, next, lines[1..])
  }

  /** The state after a chunk: the carried-over buffer and the view, and the
      exception when one escaped. */
  datatype Outcome = Done(buffer: string, view: View) | Failed(buffer: string, view: View, error: Error)

  /** Processing the pieces of a split: every piece but the last is a
      complete line; the last is carried over. On an exception the line that
      raised it stays in the buffer. */
  function FeedPieces(parse: Parser, v: View, pieces: seq<string>): Outcome
    requires |pieces| >= 1
  {
    match FeedLines(parse, v, pieces[..|pieces| - 1])
    case Completed(next) => Done(pieces[|pieces| - 1], next)
    case Aborted(at, line, e) => Failed(line, at, e)
  }

  /** `ProcessData` on the state: a chunk without newline is only buffered;
      otherwise the buffer and the chunk are split into lines. */
  function Feed(parse: Parser, buffer: string, v: View, data: string): Outcome {
    if NewLine !in data then Done(buffer + data, v)
    else FeedPieces(parse, v, Split(buffer + data, NewLine))
  }

  class TestResultConsoleReporter {
    const parse: Parser
    var buffer: string
    var lastLoggedLineLength: int
    var console: seq<string>

    /** What has been shown so far. */
    function Shown(): View
      reads this
    {
      View(lastLoggedLineLength, console)
    }

    /** The buffer never holds a newline, and the view is consistent. */
    predicate Valid()
      reads this
    {
      NewLine !in buffer && ViewValid(Shown())
    }

    constructor (parse: Parser)
      ensures Valid() && this.parse == parse
      ensures buffer == "" && lastLoggedLineLength == 0 && console == []
    {
      this.parse := parse;
      buffer := "";
      lastLoggedLineLength := 0;
      console := [];
    }

    /** `ProcessLine`: filter, repair, parse, classify and render one line. */
    method ProcessLine(line: string) returns (failure: Option<Error>)
      modifies this`lastLoggedLineLength, this`console
      ensures match StepLine(parse, old(Shown()), line)
        case Ok(v) => Shown() == v && failure == None
        case Err(e) => Shown() == old(Shown()) && failure == Some(e)
    {
      if line == "" {
        return None;
      }
      if !Contains(line, "<test") {
        return None;
      }
      var repaired := line;
      if !Contains(line, "/>") {
        var position := LastIndexOf(line, '>');
        if position < 0 {
          return Some(ArgumentOutOfRange);
        }
        repaired := line[..position] + "/" + line[position..];
      }
      var element := parse(repaired);
      if element.None? {
        return None;
      }
      var attributes := element.value;
      if "name" !in attributes || "result" !in attributes {
        return None;
      }
      if lastLoggedLineLength != 0 {
        console := console + ["\r"];
      }
      console := console + [Tag(attributes["result"])];
      console := console + [" " + attributes["name"]];
      lastLoggedLineLength := 6 + 1 + |attributes["name"]|;
      failure := None;
    }

    /** `ProcessData`: one chunk of the log. */
    method ProcessData(data: string) returns (failure: Option<Error>)
      requires Valid()
      modifies this`buffer, this`lastLoggedLineLength, this`console
      ensures Valid()
      ensures var o := Feed(parse, old(buffer), old(Shown()), data);
        && buffer == o.buffer && Shown() == o.view
        && failure == (if o.Failed? then Some(o.error) else None)
    {
      FeedKeepsInvariant(parse, buffer, Shown(), data);
      if NewLine !in data {
        buffer := buffer + data;
        return None;
      }
      ghost var start := Shown();
      ghost var all := Split(buffer + data, NewLine);
      var lines := Split(data, NewLine);
      ChunkPieces(buffer, data);
      ghost var complete := all[..|all| - 1];
      ghost var target := FeedLines(parse, start, complete);
      ghost var o := Feed(parse, buffer, start, data);
      assert o == match target
        case Completed(next) => Done(all[|all| - 1], next)
        case Aborted(at, line, e) => Failed(line, at, e);
      var i := 0;
      while i < |lines| - 1
        invariant 0 <= i <= |lines| - 1
        invariant buffer == if i == 0 then old(buffer) else ""
        invariant FeedLines(parse, Shown(), complete[i..]) == target
      {
        buffer := buffer + lines[i];
        assert buffer == complete[i] by {
          if i > 0 {
            assert all[1..][i - 1] == all[i];
          }
        }
        FeedLinesFront(parse, Shown(), complete, i);
        var f := ProcessLine(buffer);
        if f.Some? {
          assert o == Failed(buffer, Shown(), f.value);
          return f;
        }
        buffer := "";
        i := i + 1;
      }
      assert complete[i..] == [];
      var last := lines[|lines| - 1];
      assert o == Done(last, Shown());
      if last == "" {
        var f := ProcessLine(buffer);
        buffer := "";
      } else {
        buffer := buffer + last;
      }
      failure := None;
    }
  }

  /** Splitting the buffer followed by a chunk that holds a newline: the
      first piece is the buffer followed by the chunk's first piece, the
      others are the chunk's own. */
  lemma ChunkPieces(buffer: string, data: string)
    requires NewLine in data && NewLine !in buffer
    ensures var all := Split(buffer + data, NewLine); var lines := Split(data, NewLine);
      2 <= |lines| == |all| && all[0] == buffer + lines[0] && all[1..] == lines[1..]
  {
    SplitAfterPrefix(buffer, data, NewLine);
    CountOfMember(data, NewLine);
  }

  /** Processing the lines from position `k` on: the line at `k`, then the
      rest, unless that line raises an exception. */
  lemma FeedLinesFront(parse: Parser, v: View, lines: seq<string>, k: nat)
    requires k < |lines|
    ensures StepLine(parse, v, lines[k]).Err? ==>
      FeedLines(parse, v, lines[k..]) == Aborted(v, lines[k], StepLine(parse, v, lines[k]).error)
    ensures StepLine(parse, v, lines[k]).Ok? ==>
      FeedLines(parse, v, lines[k..]) == FeedLines(parse, StepLine(parse, v, lines[k]).value, lines[k + 1..])
  {
    assert lines[k..][0] == lines[k] && lines[k..][1..] == lines[k + 1..];
  }

  /** Processing lines one run after another is processing them together. */
  lemma {:induction false} FeedLinesConcat(parse: Parser, v: View, a: seq<string>, b: seq<string>)
    ensures FeedLines(parse, v, a + b) ==
      match FeedLines(parse, v, a)
      case Completed(next) => FeedLines(parse, next, b)
      case Aborted(at, line, e) => Aborted(at, line, e)
    decreases |a|
  {
    if a == [] {
      assert a + b == b;
    } else {
      assert (a + b)[0] == a[0] && (a + b)[1..] == a[1..] + b;
      match StepLine(parse, v, a[0])
      case Err(e) =>
      case Ok(next) => FeedLinesConcat(parse, next, a[1..], b);
    }
  }

  /** With a newline-free buffer, `Feed` is the split of buffer and chunk
      together, whether or not the chunk holds a newline. */
  lemma FeedBySplit(parse: Parser, buffer: string, v: View, data: string)
    requires NewLine !in buffer
    ensures Feed(parse, buffer, v, data) == FeedPieces(parse, v, Split(buffer + data, NewLine))
  {
    if NewLine !in data {
      SplitWithoutSeparator(buffer + data, NewLine);
    }
  }

  /** One status line keeps the view consistent. */
  lemma StepLineKeepsView(parse: Parser, v: View, line: string)
    requires ViewValid(v)
    ensures StepLine(parse, v, line).Ok? ==> ViewValid(StepLine(parse, v, line).value)
  {
  }

  lemma {:induction false} FeedLinesKeepsView(parse: Parser, v: View, lines: seq<string>)
    requires ViewValid(v)
    ensures ViewValid(FeedLines(parse, v, lines).view)
    decreases |lines|
  {
    if lines != [] {
      StepLineKeepsView(parse, v, lines[0]);
      match StepLine(parse, v, lines[0])
      case Err(e) =>
      case Ok(next) => FeedLinesKeepsView(parse, next, lines[1..]);
    }
  }

  /** The class invariant survives every chunk, also one that fails: the
      buffer never holds a newline and the view stays consistent. */
  lemma FeedKeepsInvariant(parse: Parser, buffer: string, v: View, data: string)
    requires NewLine !in buffer && ViewValid(v)
    ensures NewLine !in Feed(parse, buffer, v, data).buffer
    ensures ViewValid(Feed(parse, buffer, v, data).view)
  {
    if NewLine in data {
      var pieces := Split(buffer + data, NewLine);
      SplitPiecesFree(buffer + data, NewLine);
      FeedLinesKeepsView(parse, v, pieces[..|pieces| - 1]);
      var o := FeedLines(parse, v, pieces[..|pieces| - 1]);
      if o.Aborted? {
        AbortedLineIsPiece(parse, v, pieces[..|pieces| - 1]);
      }
    }
  }

  /** The line that raised an exception is one of the lines fed. */
  lemma {:induction false} AbortedLineIsPiece(parse: Parser, v: View, lines: seq<string>)
    requires FeedLines(parse, v, lines).Aborted?
    ensures FeedLines(parse, v, lines).line in lines
    decreases |lines|
  {
    if lines != [] {
      match StepLine(parse, v, lines[0])
      case Err(e) =>
      case Ok(next) => AbortedLineIsPiece(parse, next, lines[1..]);
    }
  }

  /** After a chunk that raised nothing, the buffer holds exactly the text
      after the last newline of everything received. */
  lemma BufferIsTextAfterLastNewline(parse: Parser, buffer: string, v: View, data: string)
    requires NewLine !in buffer
    requires Feed(parse, buffer, v, data).Done?
    ensures var s, rest := buffer + data, Feed(parse, buffer, v, data).buffer;
      && NewLine !in rest
      && |rest| <= |s| && s[|s| - |rest|..] == rest
      && (|rest| < |s| ==> s[|s| - |rest| - 1] == NewLine)
  {
    FeedBySplit(parse, buffer, v, data);
    SplitLastPiece(buffer + data, NewLine);
  }

  /** Chunking does not matter: after a chunk that raised nothing, the next
      chunk leads to the same state as the two chunks received at once. So
      every complete line is processed once, in arrival order, however the
      log is cut. */
  lemma ChunkingInvariance(parse: Parser, buffer: string, v: View, d1: string, d2: string)
    requires NewLine !in buffer
    requires Feed(parse, buffer, v, d1).Done?
    ensures var o := Feed(parse, buffer, v, d1);
      Feed(parse, o.buffer, o.view, d2) == Feed(parse, buffer, v, d1 + d2)
  {
    var o := Feed(parse, buffer, v, d1);
    var p1 := Split(buffer + d1, NewLine);
    FeedBySplit(parse, buffer, v, d1);
    SplitPiecesFree(buffer + d1, NewLine);
    assert o.buffer == p1[|p1| - 1];
    FeedBySplit(parse, o.buffer, o.view, d2);
    ConcatAssociative(buffer, d1, d2);
    FeedBySplit(parse, buffer, v, d1 + d2);
    SplitAcrossLastPiece(buffer + d1, d2, NewLine);
    FeedPiecesConcat(parse, v, p1, Split(o.buffer + d2, NewLine));
  }

  lemma ConcatAssociative(a: string, b: string, c: string)
    ensures a + (b + c) == (a + b) + c
  {
  }

  /** `ChunkingInvariance` on the pieces. */
  lemma FeedPiecesConcat(parse: Parser, v: View, p: seq<string>, q: seq<string>)
    requires |p| >= 1 && |q| >= 1
    requires FeedPieces(parse, v, p).Done?
    ensures FeedPieces(parse, FeedPieces(parse, v, p).view, q) == FeedPieces(parse, v, p[..|p| - 1] + q)
  {
    var all := p[..|p| - 1] + q;
    assert all[..|all| - 1] == p[..|p| - 1] + q[..|q| - 1];
    assert all[|all| - 1] == q[|q| - 1];
    FeedLinesConcat(parse, v, p[..|p| - 1], q[..|q| - 1]);
  }

  /** A lone newline completes the buffered line: it is processed exactly
      once (the empty remainder processes nothing) and the buffer empties. */
  lemma NewlineCompletesLine(parse: Parser, buffer: string, v: View)
    requires NewLine !in buffer
    ensures Feed(parse, buffer, v, "\n") ==
      match StepLine(parse, v, buffer)
      case Ok(next) => Done("", next)
      case Err(e) => Failed(buffer, v, e)
  {
    SplitAfterPrefix(buffer, "\n", NewLine);
    assert "\n"[1..] == "";
    assert Split("\n", NewLine) == ["", ""];
    assert buffer + "" == buffer;
    var pieces := Split(buffer + "\n", NewLine);
    assert pieces == [buffer, ""];
    assert pieces[..1] == [buffer] && [buffer][1..] == [];
    assert NewLine in "\n";
    assert Feed(parse, buffer, v, "\n") == FeedPieces(parse, v, pieces);
    match StepLine(parse, v, buffer)
    case Ok(next) =>
      assert FeedLines(parse, v, [buffer]) == FeedLines(parse, next, []);
    case Err(e) =>
  }

  /** Feeding "abc" and then a newline processes "abc" once: the first chunk
      is only buffered, the second completes the line. */
  lemma SplitLineProcessedOnce(parse: Parser, v: View)
    ensures Feed(parse, "", v, "abc") == Done("abc", v)
    ensures Feed(parse, "abc", v, "\n") == Done("", v)
  {
    NewlineCompletesLine(parse, "abc", v);
    ShorterNotContains("abc", "<test");
  }

  /** Lines that are empty or have no "<test" marker leave the view alone. */
  lemma QuietLines(parse: Parser, v: View, line: string)
    requires line == "" || !Contains(line, "<test")
    ensures StepLine(parse, v, line) == Ok(v)
  {
  }

  /** A `<test` line that repairs: a status line is written exactly when the
      element parses and has both a name and a result; a parse failure or a
      missing attribute changes nothing and raises nothing. */
  lemma ElementLines(parse: Parser, v: View, line: string)
    requires Contains(line, "<test") && Repair(line).Some?
    ensures var a := parse(Repair(line).value);
      (a.None? || "name" !in a.value || "result" !in a.value) ==> StepLine(parse, v, line) == Ok(v)
    ensures var a := parse(Repair(line).value);
      a.Some? && "name" in a.value && "result" in a.value ==>
        && StepLine(parse, v, line) == Ok(Render(v, a.value["name"], a.value["result"]))
        && StepLine(parse, v, line) != Ok(v)
  {
    var a := parse(Repair(line).value);
    if a.Some? && "name" in a.value && "result" in a.value {
      var r := Render(v, a.value["name"], a.value["result"]);
      assert |r.console| > |v.console|;
    }
  }

  /** A `<test` line without any '>' cannot be repaired: `Substring(0, -1)`
      throws outside the try, so the exception escapes `ProcessLine`. */
  lemma UnclosedElementFails(parse: Parser, v: View, line: string)
    requires Contains(line, "<test") && '>' !in line
    ensures StepLine(parse, v, line) == Err(ArgumentOutOfRange)
  {
    if Contains(line, "/>") {
      ContainedCharsOccur(line, "/>", 1);
    }
  }

  /** Such a line sticks in the buffer: every later chunk that completes a
      line appends to it and raises again, so nothing after it is processed
      until a '>' arrives. */
  lemma StuckBufferFails(parse: Parser, v: View, stuck: string, more: string)
    requires Contains(stuck, "<test") && '>' !in stuck && '>' !in more
    requires NewLine !in stuck && NewLine !in more
    ensures Feed(parse, stuck, v, more + "\n") == Failed(stuck + more, v, ArgumentOutOfRange)
  {
    ConcatAssociative(stuck, more, "\n");
    FeedBySplit(parse, stuck, v, more + "\n");
    FeedBySplit(parse, stuck + more, v, "\n");
    NewlineCompletesLine(parse, stuck + more, v);
    ContainsInLeft(stuck, more, "<test");
    UnclosedElementFails(parse, v, stuck + more);
  }

  /** A first line that raises stops the pieces there: it is kept as the
      buffer and the view is unchanged. */
  lemma FirstPieceRaises(parse: Parser, v: View, pieces: seq<string>, e: Error)
    requires |pieces| >= 2 && StepLine(parse, v, pieces[0]) == Err(e)
    ensures FeedPieces(parse, v, pieces) == Failed(pieces[0], v, e)
  {
    var lines := pieces[..|pieces| - 1];
    assert lines[0] == pieces[0];
  }

  /** A first line that raises stops the whole chunk: whatever follows it
      is never processed, and that line, not the text after the last
      newline, is left in the buffer. */
  lemma FirstLineRaises(parse: Parser, v: View, first: string, rest: string, e: Error)
    requires NewLine !in first && |rest| > 0 && rest[0] == NewLine
    requires StepLine(parse, v, first) == Err(e)
    ensures Feed(parse, "", v, first + rest) == Failed(first, v, e)
  {
    assert "" + (first + rest) == first + rest;
    FeedBySplit(parse, "", v, first + rest);
    SplitFirstPiece(first, rest, NewLine);
    FirstPieceRaises(parse, v, Split(first + rest, NewLine), e);
  }

  /** "<test" then "abc" in one chunk: the first line raises, "abc" is never
      processed and "<test" stays in the buffer instead of the empty text
      after the last newline; the next completed line joins it and raises
      too. */
  lemma UnclosedElementExample(parse: Parser, v: View)
    ensures Feed(parse, "", v, "<test\nabc\n") == Failed("<test", v, ArgumentOutOfRange)
    ensures Feed(parse, "<test", v, "abc\n") == Failed("<testabc", v, ArgumentOutOfRange)
  {
    assert Contains("<test", "<test") by { assert IsPrefix("<test", "<test"); }
    assert Feed(parse, "", v, "<test\nabc\n") == Failed("<test", v, ArgumentOutOfRange) by {
      assert "<test\nabc\n" == "<test" + "\nabc\n";
      UnclosedElementFails(parse, v, "<test");
      FirstLineRaises(parse, v, "<test", "\nabc\n", ArgumentOutOfRange);
    }
    assert "abc" + "\n" == "abc\n" && "<test" + "abc" == "<testabc";
    StuckBufferFails(parse, v, "<test", "abc");
  }

  /** A line without "/>" and with a '>' gets a '/' right before its last
      '>', so that it then contains "/>"; a line with neither fails. */
  lemma RepairShape(line: string)
    ensures Repair(line).None? <==> !Contains(line, "/>") && '>' !in line
    ensures !Contains(line, "/>") && Repair(line).Some? ==>
      var r, k := Repair(line).value, LastIndexOf(line, '>');
      && 0 <= k && |r| == |line| + 1
      && r[..k] == line[..k] && r[k] == '/' && r[k + 1..] == line[k..]
      && Contains(r, "/>")
  {
    if !Contains(line, "/>") {
      var k := LastIndexOf(line, '>');
      if '>' in line {
        var j :| 0 <= j < |line| && line[j] == '>';
        assert k >= j;
        var r := Repair(line).value;
        assert r == line[..k] + "/" + line[k..];
        assert r[k] == '/' && r[k + 1] == line[k] == '>';
        assert r[k..k + 2] == "/>";
        ContainsAt(r, "/>", k);
      }
    }
  }

  /** The case-insensitive mapping of result values to the four tags. */
  lemma TagByResult(result: string)
    ensures |Tag(result)| == 6
    ensures Tag(result) == "[ OK ]" <==> ToLowerAscii(result) == "pass"
    ensures Tag(result) == "[FAIL]" <==> ToLowerAscii(result) == "fail"
    ensures Tag(result) == "[SKIP]" <==> ToLowerAscii(result) == "skip"
    ensures Tag(result) == "[????]" <==> ToLowerAscii(result) !in {"pass", "fail", "skip"}
  {
  }

  /** A status line starts with a carriage return exactly when one was shown
      before, and records its own length: tag, blank and name. */
  lemma RenderShape(v: View, name: string, result: string)
    requires ViewValid(v)
    ensures var r := Render(v, name, result);
      && ViewValid(r) && r.lastLoggedLineLength == |Tag(result)| + |" " + name|
      && r.console[..|v.console|] == v.console
      && (r.console[|v.console|] == "\r" <==> v.console != [])
  {
    TagByResult(result);
    var r := Render(v, name, result);
    if v.console == [] {
      assert r.console[0] == Tag(result);
    }
  }
}
