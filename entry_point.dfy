/** ApplicatonEntryPoint.RunAsync: the test application's start-up
    sequence. It picks the result writer and the logger's sink, refuses the
    NUnit runner, applies the ignore files, runs the tests, writes the
    results in the requested XML dialect and optionally terminates. */
module EntryPoint {
  import opened Common
  import opened Text
  import opened Logging

  /** The TestRunner enumeration; a value outside it is kept as is. */
  datatype TestRunnerKind = NUnit | XUnit | UndeclaredRunner(value: int)

  /** ApplicationOptions.XmlVersion; a value outside it is kept as is. */
  datatype XmlVersion = XmlNUnitV2 | XmlNUnitV3 | UndeclaredXmlVersion(value: int)

  /** TestRunner.Jargon: the dialect of the results file. */
  datatype Jargon = NUnitV2 | NUnitV3

  /** The options the entry point reads. */
  datatype Options = Options(
    hostName: Option<string>,
    hostPort: int,
    enableXml: bool,
    xmlVersion: XmlVersion,
    terminateAfterExecution: bool)

  /** What the concrete application supplies: its device information, its
      runner kind, its ignore-file directory, and the current time the log
      header prints. */
  datatype Application = Application(
    device: Option<DeviceInfo>,
    runner: TestRunnerKind,
    ignoreFilesDirectory: Option<string>,
    now: string)

  /** The test counts the runner reports after the run. */
  datatype Totals = Totals(total: nat, passed: nat, inconclusive: nat, failed: nat, filtered: nat)

  /** What the collaborators answer: the writer TcpTextWriter opens (None
      when its constructor throws), the trait categories and test names the
      ignore files of a directory hold, where the runner writes its results
      file, and the counts of the run. */
  datatype Collaborators = Collaborators(
    tcpWriter: Option<nat>,
    ignoredCategories: (string, bool) -> seq<string>,
    ignoredTests: string -> seq<string>,
    resultsFilePath: string,
    totals: Totals)

  /** The calls the entry point makes and its own console message. */
  datatype Event =
    | NetworkError(host: string, port: int)
    | SkipCategories(categories: seq<string>)
    | SkipTests(tests: seq<string>)
    | RunTests
    | WriteResultsTo(sink: Sink, jargon: Jargon)
    | WriteResultsFile(jargon: Jargon)
    | TerminateWithSuccess

  /** A run: the events in order, the logger's sink and everything the logger
      wrote, and the exception RunAsync threw, if any. */
  datatype Run = Run(events: seq<Event>, loggerSink: Sink, log: seq<WriterOp>, failure: Option<Error>)

  /** The TCP writer after the connection attempt: tried only with a host
      name, and null when the connection fails. */
  function Writer(options: Options, world: Collaborators): Option<Sink> {
    if IsNullOrEmpty(options.hostName) || world.tcpWriter.None? then None
    else Some(SuppliedWriter(world.tcpWriter.value))
  }

  /** The console message of a failed connection. */
  function ConnectionEvents(options: Options, world: Collaborators): seq<Event> {
    if !IsNullOrEmpty(options.hostName) && world.tcpWriter.None?
    then [NetworkError(options.hostName.value, options.hostPort)]
    else []
  }

  /** The logger writes to the console without a TCP writer or when the XML
      results go to that writer. */
  function LoggerSink(writer: Option<Sink>, enableXml: bool): Sink {
    if writer.None? || enableXml then ConsoleOut else writer.value
  }

  /** The ignore-file calls: none without a directory; otherwise the
      categories always and the tests only when there are some. */
  function IgnoreEvents(app: Application, world: Collaborators): seq<Event> {
    if IsNullOrEmpty(app.ignoreFilesDirectory) then []
    else
      var dir := app.ignoreFilesDirectory.value;
      var tests := world.ignoredTests(dir);
      [SkipCategories(world.ignoredCategories(dir, app.runner == XUnit))]
        + (if tests != [] then [SkipTests(tests)] else [])
  }

  /** The dialect of the results: NUnit v2 only when asked for. */
  function JargonFor(v: XmlVersion): Jargon {
    match v
    case XmlNUnitV2 => NUnitV2
    case _ => NUnitV3
  }

  /** Where the results go: to the TCP writer or the console with XML
      enabled, otherwise to a file. */
  function ResultsEvent(enableXml: bool, writer: Option<Sink>, jargon: Jargon): Event {
    if enableXml then WriteResultsTo(writer.GetOr(ConsoleOut), jargon) else WriteResultsFile(jargon)
  }

  /** The message logged after the results are written. */
  function ResultsMessage(enableXml: bool, path: string): string {
    if enableXml then "Xml file was written to the tcp listener." else "Xml result can be found " + path
  }

  /** The closing summary line. */
  function Summary(t: Totals): string {
    "Tests run: " + NatToString(t.total) + " Passed: " + NatToString(t.passed)
      + " Inconclusive: " + NatToString(t.inconclusive) + " Failed: " + NatToString(t.failed)
      + " Ignored: " + NatToString(t.filtered)
  }

  function TerminationEvents(options: Options): seq<Event> {
    if options.terminateAfterExecution then [TerminateWithSuccess] else []
  }

  /** The connection attempt of `RunAsync`. */
  method ConnectWriter(options: Options, world: Collaborators) returns (writer: Option<Sink>, events: seq<Event>)
    ensures writer == Writer(options, world)
    ensures events == ConnectionEvents(options, world)
  {
    events := [];
    writer := None;
    if !IsNullOrEmpty(options.hostName) {
      if world.tcpWriter.Some? {
        writer := Some(SuppliedWriter(world.tcpWriter.value));
      } else {
        events := events + [NetworkError(options.hostName.value, options.hostPort)];
        writer := None;
      }
    }
  }

  /** The logger of `RunAsync`, on the console or on the TCP writer. */
  method CreateLogger(app: Application, writer: Option<Sink>, enableXml: bool) returns (logger: LogWriter)
    ensures fresh(logger) && logger.Valid() && logger.messages == []
    ensures logger.writer == LoggerSink(writer, enableXml)
    ensures logger.output == Preamble(app.device, app.now)
    ensures logger.minimumLogLevel == LogLevel.Info
  {
    if writer.None? || enableXml {
      logger := new LogWriter.ForDevice(app.device, app.now);
    } else {
      logger := new LogWriter(app.device, writer, app.now);
    }
    logger.SetMinimumLogLevel(LogLevel.Info);
  }

  /** The ignore-file step of `RunAsync`. */
  method ApplyIgnoreFiles(app: Application, world: Collaborators) returns (events: seq<Event>)
    ensures events == IgnoreEvents(app, world)
  {
    events := [];
    if !IsNullOrEmpty(app.ignoreFilesDirectory) {
      var dir := app.ignoreFilesDirectory.value;
      var categories := world.ignoredCategories(dir, app.runner == XUnit);
      events := events + [SkipCategories(categories)];
      var skippedTests := world.ignoredTests(dir);
      if skippedTests != [] {
        events := events + [SkipTests(skippedTests)];
      }
    }
  }

  /** The results step of `RunAsync`: the XML dialect, where the results go,
      and the message logged about them. */
  method WriteResults(options: Options, writer: Option<Sink>, resultsFilePath: string) returns (results: Event, message: string)
    ensures results == ResultsEvent(options.enableXml, writer, JargonFor(options.xmlVersion))
    ensures message == ResultsMessage(options.enableXml, resultsFilePath)
  {
    var jargon := NUnitV3;
    match options.xmlVersion {
      case XmlNUnitV2 => jargon := NUnitV2;
      case _ => jargon := NUnitV3;
    }
    if options.enableXml {
      results := WriteResultsTo(writer.GetOr(ConsoleOut), jargon);
      message := "Xml file was written to the tcp listener.";
    } else {
      results := WriteResultsFile(jargon);
      message := "Xml result can be found " + resultsFilePath;
    }
  }

  /** `RunAsync`. */
  method RunAsync(options: Options, app: Application, world: Collaborators) returns (run: Run)
    ensures run.loggerSink == LoggerSink(Writer(options, world), options.enableXml)
    ensures run.failure == (if app.runner == NUnit then Some(NotImplemented) else None)
    ensures app.runner == NUnit ==>
      && run.events == ConnectionEvents(options, world)
      && run.log == Preamble(app.device, app.now)
    ensures app.runner != NUnit ==>
      && run.events == ConnectionEvents(options, world) + IgnoreEvents(app, world)
           + [RunTests, ResultsEvent(options.enableXml, Writer(options, world), JargonFor(options.xmlVersion))]
           + TerminationEvents(options)
      && run.log == Preamble(app.device, app.now)
           + [WriteLine(ResultsMessage(options.enableXml, world.resultsFilePath)), Flush]
           + [WriteLine(Summary(world.totals)), Flush]
  {
    var writer, events := ConnectWriter(options, world);
    var logger := CreateLogger(app, writer, options.enableXml);

    if app.runner == NUnit {
      return Run(events, logger.writer, logger.output, Some(NotImplemented));
    }

    var skips := ApplyIgnoreFiles(app, world);
    events := events + skips + [RunTests];

    var results, message := WriteResults(options, writer, world.resultsFilePath);
    events := events + [results];
    ghost var header := logger.output;
    logger.Info(message);
    logger.Info(Summary(world.totals));
    assert logger.output == header + [WriteLine(message), Flush] + [WriteLine(Summary(world.totals)), Flush];
    if options.terminateAfterExecution {
      events := events + [TerminateWithSuccess];
    }
    run := Run(events, logger.writer, logger.output, None);
  }

  /** TerminateWithSuccess is called exactly when asked for, as the last
      step of a run that did not throw. */
  lemma TerminationRule(options: Options, app: Application, world: Collaborators, results: Event)
    requires !results.TerminateWithSuccess?
    ensures var ev := ConnectionEvents(options, world) + IgnoreEvents(app, world) + [RunTests, results] + TerminationEvents(options);
      && (TerminateWithSuccess in ev <==> options.terminateAfterExecution)
      && (options.terminateAfterExecution ==> ev[|ev| - 1] == TerminateWithSuccess)
    ensures TerminateWithSuccess !in ConnectionEvents(options, world)
  {
    var front := ConnectionEvents(options, world) + IgnoreEvents(app, world) + [RunTests, results];
    assert TerminateWithSuccess !in front;
  }

  /** A TCP writer exists exactly when a host name is given and the
      connection succeeds; a failed attempt only prints a message. */
  lemma WriterFallback(options: Options, world: Collaborators)
    ensures Writer(options, world).Some? <==> !IsNullOrEmpty(options.hostName) && world.tcpWriter.Some?
    ensures ConnectionEvents(options, world) != [] <==> !IsNullOrEmpty(options.hostName) && world.tcpWriter.None?
  {
  }

  /** The logger goes to the console exactly when there is no TCP writer or
      XML is enabled, and to the TCP writer otherwise. */
  lemma LoggerSinkRule(options: Options, world: Collaborators)
    ensures var w := Writer(options, world);
      && (LoggerSink(w, options.enableXml) == ConsoleOut <==> w.None? || options.enableXml)
      && (w.Some? && !options.enableXml ==> LoggerSink(w, options.enableXml) == w.value)
  {
  }

  /** SkipCategories is called exactly when the ignore-file directory is
      set, and SkipTests exactly when moreover the ignore files name tests. */
  lemma IgnoreFileGating(app: Application, world: Collaborators)
    ensures var ev := IgnoreEvents(app, world);
      && ((exists c :: SkipCategories(c) in ev) <==> !IsNullOrEmpty(app.ignoreFilesDirectory))
      && ((exists t :: SkipTests(t) in ev) <==>
            !IsNullOrEmpty(app.ignoreFilesDirectory) && world.ignoredTests(app.ignoreFilesDirectory.value) != [])
  {
    var ev := IgnoreEvents(app, world);
    if !IsNullOrEmpty(app.ignoreFilesDirectory) {
      var dir := app.ignoreFilesDirectory.value;
      assert SkipCategories(world.ignoredCategories(dir, app.runner == XUnit)) in ev;
      if world.ignoredTests(dir) != [] {
        assert SkipTests(world.ignoredTests(dir)) in ev;
      }
    }
  }

  /** NUnit v2 results exactly when asked for; every other value, declared or
      not, gives NUnit v3. */
  lemma JargonRule(v: XmlVersion)
    ensures JargonFor(v) == NUnitV2 <==> v == XmlNUnitV2
    ensures JargonFor(v) == NUnitV3 <==> v != XmlNUnitV2
  {
  }

  /** With XML enabled the results go to the TCP writer, or to the console
      without one; otherwise to a file. */
  lemma ResultsDestination(options: Options, world: Collaborators, jargon: Jargon)
    ensures var e := ResultsEvent(options.enableXml, Writer(options, world), jargon);
      && (e.WriteResultsTo? <==> options.enableXml)
      && (e.WriteResultsTo? ==> e.sink == (if Writer(options, world).Some? then Writer(options, world).value else ConsoleOut))
  {
  }
}
