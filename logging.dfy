/** LogWriter of the test runners: a level-filtered writer of one-line
    messages, each followed by a flush, with a seven-line device header
    written at construction when device information is available. */
module Logging {
  import opened Common

  /** MinimumLogLevel, in declaration order: a message is emitted when its
      level is not greater than the minimum. */
  datatype LogLevel = Error | Warning | Info | Debug | Verbose

  /** Position of a level in the enumeration. */
  function Rank(l: LogLevel): nat {
    match l
    case Error => 0
    case Warning => 1
    case Info => 2
    case Debug => 3
    case Verbose => 4
  }

  /** The gate of `Write`: `MinimumLogLevel < level` suppresses. */
  predicate Emits(minimum: LogLevel, level: LogLevel) {
    !(Rank(minimum) < Rank(level))
  }

  /** The TextWriter a LogWriter writes to: the console's standard output or
      a writer its creator supplied. */
  datatype Sink = ConsoleOut | SuppliedWriter(id: nat)

  /** What reaches the TextWriter. */
  datatype WriterOp = WriteLine(text: string) | Flush

  /** The device information the header prints (IDevice). */
  datatype DeviceInfo = DeviceInfo(
    model: string,
    systemName: string,
    systemVersion: string,
    name: string,
    uniqueIdentifier: string,
    locale: string,
    bundleIdentifier: string)

  /** A header line: text between square brackets. */
  predicate Bracketed(s: string) {
    |s| >= 2 && s[0] == '[' && s[|s| - 1] == ']'
  }

  /** The seven header lines; `now` is the rendering of the current date and
      time. */
  function Header(d: DeviceInfo, now: string): (r: seq<WriterOp>)
    ensures |r| == 7
    ensures forall i :: 0 <= i < |r| ==> r[i].WriteLine? && Bracketed(r[i].text)
  {
    [ WriteLine("[Runner executing:\tRun everything]"),
      WriteLine("[" + d.model + ":\t" + d.systemName + " v" + d.systemVersion + "]"),
      WriteLine("[Device Name:\t" + d.name + "]"),
      WriteLine("[Device UDID:\t" + d.uniqueIdentifier + "]"),
      WriteLine("[Device Locale:\t" + d.locale + "]"),
      WriteLine("[Device Date/Time:\t" + now + "]"),
      WriteLine("[Bundle:\t" + d.bundleIdentifier + "]") ]
  }

  /** What the constructor writes: the header only when a device is given. */
  function Preamble(device: Option<DeviceInfo>, now: string): seq<WriterOp> {
    if device.Some? then Header(device.value, now) else []
  }

  /** Each emitted message: one line, then a flush. */
  function Lines(messages: seq<string>): (r: seq<WriterOp>)
    ensures |r| == 2 * |messages|
  {
    if messages == [] then [] else [WriteLine(messages[0]), Flush] + Lines(messages[1..])
  }

  class LogWriter {
    const writer: Sink
    const device: Option<DeviceInfo>
    const now: string
    var minimumLogLevel: LogLevel
    /** Everything this object wrote to its writer. */
    var output: seq<WriterOp>
    /** The messages emitted since construction. */
    ghost var messages: seq<string>

    ghost predicate Valid()
      reads this
    {
      output == Preamble(device, now) + Lines(messages)
    }

    /** `new LogWriter(device, writer)`: a null writer falls back to the
        console, and MinimumLogLevel starts at Info. The other three
        constructors pass null for the missing argument. */
    constructor (device: Option<DeviceInfo>, writer: Option<Sink>, now: string)
      ensures Valid() && messages == []
      ensures this.writer == writer.GetOr(ConsoleOut) && this.device == device
      ensures minimumLogLevel == LogLevel.Info
      ensures output == Preamble(device, now)
    {
      this.writer := writer.GetOr(ConsoleOut);
      this.device := device;
      this.now := now;
      minimumLogLevel := LogLevel.Info;
      output := Preamble(device, now);
      messages := [];
    }

    /** `new LogWriter()`. */
    constructor Console(now: string)
      ensures Valid() && messages == [] && output == []
      ensures writer == ConsoleOut && device == None && minimumLogLevel == LogLevel.Info
    {
      writer, device, this.now := ConsoleOut, None, now;
      minimumLogLevel := LogLevel.Info;
      output, messages := [], [];
    }

    /** `new LogWriter(device)`: the console, with the header. */
    constructor ForDevice(device: Option<DeviceInfo>, now: string)
      ensures Valid() && messages == [] && output == Preamble(device, now)
      ensures writer == ConsoleOut && this.device == device && minimumLogLevel == LogLevel.Info
    {
      writer, this.device, this.now := ConsoleOut, device, now;
      minimumLogLevel := LogLevel.Info;
      output, messages := Preamble(device, now), [];
    }

    /** `new LogWriter(w)`: no header. */
    constructor ForWriter(w: Option<Sink>, now: string)
      ensures Valid() && messages == [] && output == []
      ensures writer == w.GetOr(ConsoleOut) && device == None && minimumLogLevel == LogLevel.Info
    {
      writer, device, this.now := w.GetOr(ConsoleOut), None, now;
      minimumLogLevel := LogLevel.Info;
      output, messages := [], [];
    }

    /** The `MinimumLogLevel` setter. */
    method SetMinimumLogLevel(level: LogLevel)
      modifies this`minimumLogLevel
      ensures minimumLogLevel == level
    {
      minimumLogLevel := level;
    }

    /** The private `Write`: the message and a flush, unless its level is
        above the minimum. */
    method Write(message: string, level: LogLevel)
      requires Valid()
      modifies this`output, this`messages
      ensures Valid()
      ensures messages == old(messages) + (if Emits(minimumLogLevel, level) then [message] else [])
      ensures output == old(output) + (if Emits(minimumLogLevel, level) then [WriteLine(message), Flush] else [])
    {
      if Rank(minimumLogLevel) < Rank(level) {
        return;
      }
      LinesSnoc(messages, message);
      output := output + [WriteLine(message), Flush];
      messages := messages + [message];
    }

    method OnError(message: string)
      requires Valid()
      modifies this`output, this`messages
      ensures Valid()
      ensures messages == old(messages) + [message]
      ensures output == old(output) + [WriteLine(message), Flush]
    {
      Write(message, LogLevel.Error);
    }

    method OnWarning(message: string)
      requires Valid()
      modifies this`output, this`messages
      ensures Valid()
      ensures output == old(output) + (if Emits(minimumLogLevel, LogLevel.Warning) then [WriteLine(message), Flush] else [])
    {
      Write(message, LogLevel.Warning);
    }

    method OnInfo(message: string)
      requires Valid()
      modifies this`output, this`messages
      ensures Valid()
      ensures output == old(output) + (if Emits(minimumLogLevel, LogLevel.Info) then [WriteLine(message), Flush] else [])
    {
      Write(message, LogLevel.Info);
    }

    method OnDebug(message: string)
      requires Valid()
      modifies this`output, this`messages
      ensures Valid()
      ensures output == old(output) + (if Emits(minimumLogLevel, LogLevel.Debug) then [WriteLine(message), Flush] else [])
    {
      Write(message, LogLevel.Debug);
    }

    /** Diagnostics are logged at the Verbose level. */
    method OnDiagnostic(message: string)
      requires Valid()
      modifies this`output, this`messages
      ensures Valid()
      ensures minimumLogLevel != LogLevel.Verbose ==> output == old(output)
      ensures output == old(output) + (if Emits(minimumLogLevel, LogLevel.Verbose) then [WriteLine(message), Flush] else [])
    {
      Write(message, LogLevel.Verbose);
    }

    /** `Info`: written and flushed whatever the minimum level. */
    method Info(message: string)
      requires Valid()
      modifies this`output, this`messages
      ensures Valid()
      ensures messages == old(messages) + [message]
      ensures output == old(output) + [WriteLine(message), Flush]
    {
      LinesSnoc(messages, message);
      output := output + [WriteLine(message), Flush];
      messages := messages + [message];
    }
  }

  /** Appending one message appends its line and its flush. */
  lemma {:induction false} LinesSnoc(messages: seq<string>, m: string)
    ensures Lines(messages + [m]) == Lines(messages) + [WriteLine(m), Flush]
  {
    if messages != [] {
      assert (messages + [m])[1..] == messages[1..] + [m];
      LinesSnoc(messages[1..], m);
    }
  }

  /** The output after the header alternates line and flush, message by
      message, in order. */
  lemma {:induction false} LinesAt(messages: seq<string>, i: nat)
    requires i < |messages|
    ensures Lines(messages)[2 * i] == WriteLine(messages[i])
    ensures Lines(messages)[2 * i + 1] == Flush
  {
    if i > 0 {
      LinesAt(messages[1..], i - 1);
    }
  }

  /** The gate, stated by levels: a message passes exactly when its level is
      at or below the minimum; errors always pass, and raising the minimum
      never suppresses a message that passed before. */
  lemma GateOrder(minimum: LogLevel, level: LogLevel, higher: LogLevel)
    ensures Emits(minimum, level) <==> Rank(level) <= Rank(minimum)
    ensures Emits(minimum, LogLevel.Error)
    ensures Emits(minimum, minimum)
    ensures Emits(minimum, level) && Rank(minimum) <= Rank(higher) ==> Emits(higher, level)
    ensures Emits(minimum, LogLevel.Verbose) <==> minimum == LogLevel.Verbose
  {
  }

  /** With the default minimum (Info), errors, warnings and information are
      written; debug and diagnostic messages are not. */
  lemma DefaultGate()
    ensures Emits(LogLevel.Info, LogLevel.Error) && Emits(LogLevel.Info, LogLevel.Warning) && Emits(LogLevel.Info, LogLevel.Info)
    ensures !Emits(LogLevel.Info, LogLevel.Debug) && !Emits(LogLevel.Info, LogLevel.Verbose)
  {
  }

  /** The writer holds exactly 7 header lines beyond the message lines iff a
      device was given. */
  lemma HeaderIffDevice(device: Option<DeviceInfo>, now: string, messages: seq<string>)
    ensures |Preamble(device, now) + Lines(messages)| == 2 * |messages| + (if device.Some? then 7 else 0)
  {
  }
}
