/** AppRunner: resolves the device or the simulators of a run, builds the
    argument lists of the mlaunch helper for installing, uninstalling and
    running an app bundle, and turns the course of a run into its exit code.
    The machine (environment variables, connected devices, simulators, host
    addresses, terminal, result listener, verdict of the test reporter) is an
    input; what the run does to its collaborators is recorded as effects. */
module Runner {
  import opened Common
  import opened Text
  import opened Paths
  import opened Hardware

  /** The extension kinds of an app bundle. */
  datatype Extension = TodayExtension | WatchKit2

  /** AppBundleInformation. */
  datatype AppBundleInformation = AppBundleInformation(
    appName: string,
    bundleIdentifier: string,
    appPath: string,
    launchAppPath: Option<string>,
    extension: Option<Extension>,
    variation: Option<string>)

  /** The bundle information the constructor derives from the bundle path:
      the file name without ".app" as the app name, the file name as the
      bundle identifier, the directory as the launch path, no extension. */
  function BundleInformation(appBundlePath: string, variation: Option<string>): AppBundleInformation {
    var file := FileName(appBundlePath);
    AppBundleInformation(ReplaceAll(file, ".app", ""), file, appBundlePath, DirectoryName(appBundlePath), None, variation)
  }

  /** The value of a SetEnvVariableArgument. */
  datatype EnvValue = Flag(flag: bool) | Number(number: int) | TextValue(text: string)

  /** The typed mlaunch arguments. */
  datatype Arg =
    | Verbosity
    | InstallAppOnDevice(appPath: string)
    | UninstallAppFromDevice(bundleIdentifier: string)
    | DeviceName(deviceName: string)
    | DeviceKinds(kinds: string)                       // DeviceArgument
    | SetAppArgument(value: string, isOption: bool)
    | SetEnvVariable(variable: string, setting: EnvValue)
    | LaunchSimulator(launchAppPath: Option<string>)
    | LaunchDevice(launchAppPath: Option<string>)
    | LaunchSimulatorExtension(launchAppPath: Option<string>, bundleIdentifier: string)
    | LaunchDeviceExtension(launchAppPath: Option<string>, bundleIdentifier: string)
    | DisableMemoryLimits
    | AttachNativeDebugger
    | WaitForExit
    | SetStdout(output: string)
    | SetStderr(output: string)
    | SimulatorUDID(udid: string)

  /** ListenerTransport. */
  datatype Transport = Tcp | Http | File

  /** What the listener factory hands back: the transport, the port the
      listener bound, and the temporary file of the File transport. */
  datatype ListenerSetup = ListenerSetup(transport: Transport, port: nat, logFile: string)

  /** A simulator of the run; the first one is the simulator the app runs
      on, the others its companions. */
  datatype Simulator = Simulator(name: string, udid: string)

  /** The machine a runner works on. `deviceNameVariable` and
      `skipSimulatorSetup` are the DEVICE_NAME and SKIP_SIMULATOR_SETUP
      environment variables; `companionName` is what FindCompanionDevice
      answers for a device; `simulatorsFound` is what the simulator loader
      finds for the target (None for null); `stderrTerminal` is the terminal
      of the standard error, `stdoutLog` and `stderrLog` the log files
      created otherwise; `success` is the test reporter's verdict. */
  datatype Machine = Machine(
    deviceNameVariable: Option<string>,
    skipSimulatorSetup: Option<string>,
    connectedDevices: seq<Device>,
    companionName: Device -> string,
    simulatorsFound: Option<seq<Simulator>>,
    hostAddresses: seq<string>,
    stderrTerminal: Option<string>,
    stdoutLog: string,
    stderrLog: string,
    listener: ListenerSetup,
    success: bool)

  /** What a run does to its collaborators, in order. */
  datatype Effect =
    | DevicesLoaded
    | SimulatorsLoaded
    | ListenerStarted
    | SimulatorPrepared(udid: string)
    | Executed(command: seq<Arg>)
    | SimulatorKilled(udid: string)
    | ListenerCancelled
    | ListenerDisposed

  /** TestPlatform. */
  datatype TestPlatform = PlatformiOS | Mac | MacFull | MacModern | MacSystem | OtherPlatform(value: int)

  /** Whether the tests that pop up permission dialogs are disabled: on
      every platform, on devices and simulators alike. */
  function DisableSystemPermissionTests(platform: TestPlatform, device: bool): (r: bool)
    ensures r
  {
    match platform
    case PlatformiOS => true
    case Mac => true
    case MacFull => true
    case MacModern => true
    case MacSystem => true
    case OtherPlatform(_) => if device then true else true
  }

  /** The verbosity loop `for (int i = -1; i < verbosity; i++)`. */
  function Verbosities(verbosity: int): seq<Arg>
    decreases verbosity + 1
  {
    if verbosity < 0 then [] else Verbosities(verbosity - 1) + [Verbosity]
  }

  /** `companionDeviceName ?? deviceName`. */
  function Target(deviceName: string, companion: Option<string>): string {
    companion.GetOr(deviceName)
  }

  function InstallArguments(verbosity: int, appPath: string, target: string, mode: RunMode): seq<Arg> {
    Verbosities(verbosity) + [InstallAppOnDevice(appPath), DeviceName(target)]
      + (if mode == WatchOS then [DeviceKinds("ios,watchos")] else [])
  }

  function UninstallArguments(verbosity: int, bundleIdentifier: string, target: string): seq<Arg> {
    Verbosities(verbosity) + [UninstallAppFromDevice(bundleIdentifier), DeviceName(target)]
  }

  /** An app option and the environment variable that mirrors it. */
  function Mirrored(option: string, variable: string): seq<Arg> {
    [SetAppArgument(option, true), SetEnvVariable(variable, Flag(true))]
  }

  /** No IDE connection, then autostart, autoexit and network access. */
  function ConnectionArguments(): seq<Arg> {
    [SetAppArgument("-connection-mode", false), SetAppArgument("none", false)]
      + Mirrored("-autostart", "NUNIT_AUTOSTART")
      + Mirrored("-autoexit", "NUNIT_AUTOEXIT")
      + Mirrored("-enablenetwork", "NUNIT_ENABLE_NETWORK")
  }

  function PermissionArguments(isSimulator: bool): seq<Arg> {
    if !DisableSystemPermissionTests(PlatformiOS, !isSimulator)
    then [SetEnvVariable("DISABLE_SYSTEM_PERMISSION_TESTS", Number(1))]
    else []
  }

  /** The host the app reports to: the loopback address from a simulator,
      every address of the machine, comma-separated, from a device. */
  function HostArguments(isSimulator: bool, addresses: seq<string>): seq<Arg> {
    var host := if isSimulator then "127.0.0.1" else Join(addresses, ',');
    [SetAppArgument("-hostname:" + host, true), SetEnvVariable("NUNIT_HOSTNAME", TextValue(host))]
  }

  /** The name of a transport, and its upper-case form. */
  function TransportName(t: Transport): string {
    match t
    case Tcp => "Tcp"
    case Http => "Http"
    case File => "File"
  }

  function TransportVariable(t: Transport): string {
    match t
    case Tcp => "TCP"
    case Http => "HTTP"
    case File => "FILE"
  }

  function TransportArguments(l: ListenerSetup): seq<Arg> {
    [SetAppArgument("-transport:" + TransportName(l.transport), true),
     SetEnvVariable("NUNIT_TRANSPORT", TextValue(TransportVariable(l.transport)))]
      + (if l.transport == File then [SetEnvVariable("NUNIT_LOG_FILE", TextValue(l.logFile))] else [])
      + [SetAppArgument("-hostport:" + NatToString(l.port), true),
         SetEnvVariable("NUNIT_HOSTPORT", Number(l.port))]
  }

  /** The run arguments that precede the launch argument. */
  function RunSettings(verbosity: int, isSimulator: bool, addresses: seq<string>, l: ListenerSetup): seq<Arg> {
    Verbosities(verbosity) + ConnectionArguments() + PermissionArguments(isSimulator)
      + HostArguments(isSimulator, addresses) + TransportArguments(l)
  }

  /** The launch argument: of the app, or of its today extension; any other
      extension kind is not implemented. */
  function LaunchArgument(info: AppBundleInformation, isSimulator: bool): Result<Arg> {
    match info.extension
    case None =>
      Ok(if isSimulator then LaunchSimulator(info.launchAppPath) else LaunchDevice(info.launchAppPath))
    case Some(TodayExtension) =>
      Ok(if isSimulator then LaunchSimulatorExtension(info.launchAppPath, info.bundleIdentifier)
         else LaunchDeviceExtension(info.launchAppPath, info.bundleIdentifier))
    case Some(WatchKit2) => Err(NotImplemented)
  }

  /** Output redirection of a simulator run, except for watchOS: to the
      terminal when there is one, to two log files otherwise. */
  function OutputArguments(mode: RunMode, terminal: Option<string>, stdoutLog: string, stderrLog: string): seq<Arg> {
    if mode == WatchOS then []
    else if !IsNullOrEmpty(terminal) then [SetStdout(terminal.value), SetStderr(terminal.value)]
    else [SetStdout(stdoutLog), SetStderr(stderrLog)]
  }

  /** The tail of a device run. The debugger keeps a watch from sending the
      app to the background; other devices wait for the app to exit. */
  function DeviceArguments(mode: RunMode, deviceName: string): seq<Arg> {
    [DisableMemoryLimits, if mode == WatchOS then AttachNativeDebugger else WaitForExit, DeviceName(deviceName)]
  }

  /** A watchOS simulator run redirects nothing; any other redirects
      standard output, then standard error, both to the terminal when it
      is set and to their own log otherwise. */
  lemma OutputRule(mode: RunMode, terminal: Option<string>, stdoutLog: string, stderrLog: string)
    ensures var r := OutputArguments(mode, terminal, stdoutLog, stderrLog);
      (r == [] <==> mode == WatchOS)
      && (mode != WatchOS ==> |r| == 2 && r[0].SetStdout? && r[1].SetStderr?)
      && (mode != WatchOS && terminal.Some? && terminal.value != "" ==>
            r[0].output == terminal.value && r[1].output == terminal.value)
      && (mode != WatchOS && (terminal.None? || terminal.value == "") ==>
            r[0].output == stdoutLog && r[1].output == stderrLog)
  {
  }

  /** A device run waits for the app to exit, except on a watch, where it
      attaches the debugger instead; the device name comes last. */
  lemma DeviceTail(mode: RunMode, deviceName: string)
    ensures var r := DeviceArguments(mode, deviceName);
      && r[|r| - 1] == DeviceName(deviceName)
      && (AttachNativeDebugger in r <==> mode == WatchOS)
      && (WaitForExit in r <==> mode != WatchOS)
      && DisableMemoryLimits in r
  {
  }

  /** One PrepareSimulatorAsync per simulator, in order. */
  function Preparations(sims: seq<Simulator>): (r: seq<Effect>)
    ensures |r| == |sims|
    ensures forall i :: 0 <= i < |sims| ==> r[i] == SimulatorPrepared(sims[i].udid)
    ensures forall e :: e in r ==> e.SimulatorPrepared?
  {
    if sims == [] then [] else Preparations(sims[..|sims| - 1]) + [SimulatorPrepared(sims[|sims| - 1].udid)]
  }

  function ExitCode(success: bool): int {
    if success then 0 else 1
  }

  /** The device name, the companion name, whether the device loader ran,
      and the exception of a device lookup. */
  datatype Resolution = Resolution(deviceName: Option<string>, companion: Option<string>, loaded: bool, failure: Option<Error>)

  /** FindDevice, on the values of the two name fields. */
  function Resolve(deviceName: Option<string>, companion: Option<string>, mode: RunMode, m: Machine): (r: Resolution)
    ensures r.failure.None? ==> r.deviceName.Some?
    ensures !r.loaded ==> r.failure.None?
  {
    if deviceName.Some? then Resolution(deviceName, companion, false, None)
    else if !IsNullOrEmpty(m.deviceNameVariable) then Resolution(m.deviceNameVariable, companion, false, None)
    else match DeviceClasses(mode)
      case Err(e) => Resolution(m.deviceNameVariable, companion, true, Some(e))
      case Ok(classes) =>
        var selected := Candidates(m.connectedDevices, classes);
        if selected == [] then Resolution(m.deviceNameVariable, companion, true, Some(NoDeviceFound))
        else
          var chosen := selected[FirstLowest(selected)];
          Resolution(Some(chosen.name), if mode == WatchOS then Some(m.companionName(chosen)) else companion, true, None)
  }

  /** The fields of a runner that its operations change. */
  datatype RunState = RunState(deviceName: Option<string>, companionDeviceName: Option<string>, simulators: Option<seq<Simulator>>)

  /** The exit code or exception of a run, its effects, the fields after it. */
  datatype RunOutcome = RunOutcome(exit: Result<int>, effects: seq<Effect>, state: RunState)

  /** The simulator branch of RunAsync, after the launch argument: find the
      simulators, prepare them when the state is to be cleaned, run on the
      first one, kill it when cleaning, release the listener. */
  function SimulatorRun(mode: RunMode, ensureClean: bool, args: seq<Arg>, s: RunState, m: Machine): RunOutcome {
    var found := if s.simulators.Some? then s.simulators else m.simulatorsFound;
    var loads := if s.simulators.Some? then [] else [SimulatorsLoaded];
    var s' := s.(simulators := found);
    if found.None? then RunOutcome(Ok(1), loads, s')
    else
      var sims := found.value;
      var clean := ensureClean && IsNullOrEmpty(m.skipSimulatorSetup);
      var prepared := if clean then Preparations(sims) else [];
      if sims == [] then RunOutcome(Err(IndexOutOfRange), loads + prepared, s')
      else
        var command := args + OutputArguments(mode, m.stderrTerminal, m.stdoutLog, m.stderrLog) + [SimulatorUDID(sims[0].udid)];
        RunOutcome(Ok(ExitCode(m.success)),
          loads + prepared + [Executed(command)] + (if clean then [SimulatorKilled(sims[0].udid)] else [])
            + [ListenerCancelled, ListenerDisposed],
          s')
  }

  /** RunAsync after the device lookup: the run settings and the launch
      argument, then the run on the simulators or on the device found. */
  function AfterLookup(mode: RunMode, isSimulator: bool, verbosity: int, info: AppBundleInformation, ensureClean: bool,
                  s: RunState, m: Machine): RunOutcome
    requires isSimulator || s.deviceName.Some?
  {
    match LaunchArgument(info, isSimulator)
    case Err(e) => RunOutcome(Err(e), [ListenerStarted], s)
    case Ok(launch) =>
      var args := RunSettings(verbosity, isSimulator, m.hostAddresses, m.listener) + [launch];
      if isSimulator then
        var o := SimulatorRun(mode, ensureClean, args, s, m);
        o.(effects := [ListenerStarted] + o.effects)
      else
        RunOutcome(Ok(ExitCode(m.success)),
          [ListenerStarted, Executed(args + DeviceArguments(mode, s.deviceName.value)), ListenerCancelled, ListenerDisposed], s)
  }

  /** RunAsync, on the fields of the runner: on a device, the lookup comes
      first and its failure ends the run. */
  function Run(mode: RunMode, isSimulator: bool, verbosity: int, info: AppBundleInformation, ensureClean: bool,
               s: RunState, m: Machine): RunOutcome
  {
    if isSimulator then AfterLookup(mode, true, verbosity, info, ensureClean, s, m)
    else
      var r := Resolve(s.deviceName, s.companionDeviceName, mode, m);
      var s' := s.(deviceName := r.deviceName, companionDeviceName := r.companion);
      var loads := if r.loaded then [DevicesLoaded] else [];
      if r.failure.Some? then RunOutcome(Err(r.failure.value), loads, s')
      else
        var o := AfterLookup(mode, false, verbosity, info, ensureClean, s', m);
        o.(effects := loads + o.effects)
  }

  /** The verbosity loop. */
  method VerbosityArguments(verbosity: int) returns (args: seq<Arg>)
    ensures args == Verbosities(verbosity)
  {
    args := [];
    var i := -1;
    while i < verbosity
      invariant -1 <= i && (i <= verbosity || i == -1)
      invariant args == Verbosities(i)
    {
      args := args + [Verbosity];
      i := i + 1;
    }
  }

  /** The loop that joins the host addresses with ','. */
  method JoinAddresses(addresses: seq<string>) returns (ips: string)
    ensures ips == Join(addresses, ',')
  {
    ips := "";
    var i := 0;
    while i < |addresses|
      invariant 0 <= i <= |addresses|
      invariant ips == Join(addresses[..i], ',')
    {
      assert addresses[..i + 1] == addresses[..i] + [addresses[i]];
      if i > 0 {
        ips := ips + [','];
        JoinSnoc(addresses[..i], addresses[i], ',');
      }
      ips := ips + addresses[i];
      i := i + 1;
    }
    assert addresses[..|addresses|] == addresses;
  }

  /** The loop that prepares every simulator. */
  method PrepareSimulators(sims: seq<Simulator>) returns (effects: seq<Effect>)
    ensures effects == Preparations(sims)
  {
    effects := [];
    var i := 0;
    while i < |sims|
      invariant 0 <= i <= |sims|
      invariant effects == Preparations(sims[..i])
    {
      assert sims[..i + 1][..i] == sims[..i];
      effects := effects + [SimulatorPrepared(sims[i].udid)];
      i := i + 1;
    }
    assert sims[..|sims|] == sims;
  }

  /** The arguments RunAsync appends before the launch argument, in order. */
  method BuildRunSettings(verbosity: int, isSimulator: bool, addresses: seq<string>, l: ListenerSetup)
    returns (args: seq<Arg>)
    ensures args == RunSettings(verbosity, isSimulator, addresses, l)
  {
    args := VerbosityArguments(verbosity);
    args := args + [SetAppArgument("-connection-mode", false)];
    args := args + [SetAppArgument("none", false)];
    args := args + [SetAppArgument("-autostart", true)];
    args := args + [SetEnvVariable("NUNIT_AUTOSTART", Flag(true))];
    args := args + [SetAppArgument("-autoexit", true)];
    args := args + [SetEnvVariable("NUNIT_AUTOEXIT", Flag(true))];
    args := args + [SetAppArgument("-enablenetwork", true)];
    args := args + [SetEnvVariable("NUNIT_ENABLE_NETWORK", Flag(true))];
    assert args == Verbosities(verbosity) + ConnectionArguments();
    if !DisableSystemPermissionTests(PlatformiOS, !isSimulator) {
      args := args + [SetEnvVariable("DISABLE_SYSTEM_PERMISSION_TESTS", Number(1))];
    }
    assert args == Verbosities(verbosity) + ConnectionArguments() + PermissionArguments(isSimulator);
    ghost var settings := args;
    if isSimulator {
      assert "-hostname:" + "127.0.0.1" == "-hostname:127.0.0.1";
      args := args + [SetAppArgument("-hostname:127.0.0.1", true)];
      args := args + [SetEnvVariable("NUNIT_HOSTNAME", TextValue("127.0.0.1"))];
    } else {
      var ips := JoinAddresses(addresses);
      args := args + [SetAppArgument("-hostname:" + ips, true)];
      args := args + [SetEnvVariable("NUNIT_HOSTNAME", TextValue(ips))];
    }
    assert args == settings + HostArguments(isSimulator, addresses);
    ghost var before := args;
    args := args + [SetAppArgument("-transport:" + TransportName(l.transport), true)];
    args := args + [SetEnvVariable("NUNIT_TRANSPORT", TextValue(TransportVariable(l.transport)))];
    if l.transport == File {
      args := args + [SetEnvVariable("NUNIT_LOG_FILE", TextValue(l.logFile))];
    }
    args := args + [SetAppArgument("-hostport:" + NatToString(l.port), true)];
    args := args + [SetEnvVariable("NUNIT_HOSTPORT", Number(l.port))];
    assert args == before + TransportArguments(l);
  }

  class AppRunner {
    const runMode: RunMode
    const isSimulator: bool
    const appInformation: AppBundleInformation
    const ensureCleanSimulatorState: bool
    const verbosity: int := 3
    var deviceName: Option<string>
    var companionDeviceName: Option<string>
    var simulators: Option<seq<Simulator>>

    function State(): RunState
      reads this
    {
      RunState(deviceName, companionDeviceName, simulators)
    }

    /** The run mode and the simulator flag are those of the test target. */
    constructor (runMode: RunMode, isSimulator: bool, appBundlePath: string,
                 simulators: Option<seq<Simulator>>, deviceName: Option<string>, companionDeviceName: Option<string>,
                 ensureCleanSimulatorState: bool, variation: Option<string>)
      ensures this.runMode == runMode && this.isSimulator == isSimulator
      ensures appInformation == BundleInformation(appBundlePath, variation)
      ensures this.ensureCleanSimulatorState == ensureCleanSimulatorState
      ensures State() == RunState(deviceName, companionDeviceName, simulators)
    {
      this.runMode := runMode;
      this.isSimulator := isSimulator;
      this.ensureCleanSimulatorState := ensureCleanSimulatorState;
      this.deviceName := deviceName;
      this.companionDeviceName := companionDeviceName;
      this.simulators := simulators;
      var file := FileName(appBundlePath);
      appInformation := AppBundleInformation(
        ReplaceAll(file, ".app", ""), file, appBundlePath, DirectoryName(appBundlePath), None, variation);
    }

    /** FindSimulatorAsync: preset simulators are kept without loading. */
    method FindSimulator(m: Machine) returns (found: bool, effects: seq<Effect>)
      modifies this`simulators
      ensures old(simulators).Some? ==> simulators == old(simulators) && found && effects == []
      ensures old(simulators).None? ==>
        simulators == m.simulatorsFound && found == m.simulatorsFound.Some? && effects == [SimulatorsLoaded]
    {
      if simulators.Some? {
        return true, [];
      }
      effects := [SimulatorsLoaded];
      simulators := m.simulatorsFound;
      found := simulators.Some?;
    }

    method FindDevice(m: Machine) returns (loaded: bool, failure: Option<Error>)
      modifies this`deviceName, this`companionDeviceName
      ensures Resolution(deviceName, companionDeviceName, loaded, failure)
        == Resolve(old(deviceName), old(companionDeviceName), runMode, m)
    {
      loaded, failure := false, None;
      if deviceName.Some? {
        return;
      }
      deviceName := m.deviceNameVariable;
      if !IsNullOrEmpty(deviceName) {
        return;
      }
      loaded := true;
      var classes: seq<DeviceClass>;
      match runMode {
        case iOS => classes := [iPhone, iPad, iPod];
        case WatchOS => classes := [Watch];
        case TvOS => classes := [AppleTV];
        case UnlistedMode(_) => failure := Some(ArgumentException); return;
      }
      var selected := Candidates(m.connectedDevices, classes);
      var chosen: Device;
      if |selected| == 0 {
        failure := Some(NoDeviceFound);
        return;
      } else if |selected| > 1 {
        chosen := selected[FirstLowest(selected)];
      } else {
        chosen := selected[0];
      }
      deviceName := Some(chosen.name);
      if runMode == WatchOS {
        companionDeviceName := Some(m.companionName(chosen));
      }
    }

    /** InstallAsync: the command given to mlaunch, or the exception. */
    method InstallAsync(m: Machine) returns (command: Result<seq<Arg>>)
      modifies this`deviceName, this`companionDeviceName
      ensures isSimulator ==> command == Err(InvalidOperation) && State() == old(State())
      ensures !isSimulator ==>
        var r := Resolve(old(deviceName), old(companionDeviceName), runMode, m);
        && deviceName == r.deviceName && companionDeviceName == r.companion
        && command == (if r.failure.Some? then Err(r.failure.value)
                       else Ok(InstallArguments(verbosity, appInformation.appPath, Target(r.deviceName.value, r.companion), runMode)))
    {
      if isSimulator {
        return Err(InvalidOperation);
      }
      var loaded, failure := FindDevice(m);
      if failure.Some? {
        return Err(failure.value);
      }
      var args := VerbosityArguments(verbosity);
      args := args + [InstallAppOnDevice(appInformation.appPath)];
      args := args + [DeviceName(companionDeviceName.GetOr(deviceName.value))];
      if runMode == WatchOS {
        args := args + [DeviceKinds("ios,watchos")];
      }
      assert args == InstallArguments(verbosity, appInformation.appPath, Target(deviceName.value, companionDeviceName), runMode);
      command := Ok(args);
    }

    /** UninstallAsync: the command given to mlaunch, or the exception. */
    method UninstallAsync(m: Machine) returns (command: Result<seq<Arg>>)
      modifies this`deviceName, this`companionDeviceName
      ensures isSimulator ==> command == Err(InvalidOperation) && State() == old(State())
      ensures !isSimulator ==>
        var r := Resolve(old(deviceName), old(companionDeviceName), runMode, m);
        && deviceName == r.deviceName && companionDeviceName == r.companion
        && command == (if r.failure.Some? then Err(r.failure.value)
                       else Ok(UninstallArguments(verbosity, appInformation.bundleIdentifier, Target(r.deviceName.value, r.companion))))
    {
      if isSimulator {
        return Err(InvalidOperation);
      }
      var loaded, failure := FindDevice(m);
      if failure.Some? {
        return Err(failure.value);
      }
      var args := VerbosityArguments(verbosity);
      args := args + [UninstallAppFromDevice(appInformation.bundleIdentifier)];
      args := args + [DeviceName(companionDeviceName.GetOr(deviceName.value))];
      assert args == UninstallArguments(verbosity, appInformation.bundleIdentifier, Target(deviceName.value, companionDeviceName));
      command := Ok(args);
    }

    /** The simulator branch of RunAsync, with the arguments built so far. */
    method RunOnSimulator(m: Machine, args: seq<Arg>) returns (exit: Result<int>, effects: seq<Effect>)
      modifies this`simulators
      ensures deviceName == old(deviceName) && companionDeviceName == old(companionDeviceName)
      ensures RunOutcome(exit, effects, State()) == SimulatorRun(runMode, ensureCleanSimulatorState, args, old(State()), m)
    {
      var found;
      found, effects := FindSimulator(m);
      ghost var loads := effects;
      if !found {
        return Ok(1), effects;
      }
      var sims := simulators.value;
      var command := args;
      if runMode != WatchOS {
        if !IsNullOrEmpty(m.stderrTerminal) {
          command := command + [SetStdout(m.stderrTerminal.value), SetStderr(m.stderrTerminal.value)];
        } else {
          command := command + [SetStdout(m.stdoutLog), SetStderr(m.stderrLog)];
        }
      }
      assert command == args + OutputArguments(runMode, m.stderrTerminal, m.stdoutLog, m.stderrLog);
      var clean := ensureCleanSimulatorState && IsNullOrEmpty(m.skipSimulatorSetup);
      if clean {
        var prepared := PrepareSimulators(sims);
        effects := effects + prepared;
      }
      ghost var prepared := if clean then Preparations(sims) else [];
      assert effects == loads + prepared;
      if |sims| == 0 {
        return Err(IndexOutOfRange), effects;
      }
      command := command + [SimulatorUDID(sims[0].udid)];
      effects := effects + [Executed(command)];
      if clean {
        effects := effects + [SimulatorKilled(sims[0].udid)];
      }
      effects := effects + [ListenerCancelled, ListenerDisposed];
      assert effects == loads + prepared + [Executed(command)]
        + (if clean then [SimulatorKilled(sims[0].udid)] else []) + [ListenerCancelled, ListenerDisposed];
      exit := Ok(ExitCode(m.success));
    }

    /** The launch argument of RunAsync: the app, or its today extension. */
    method Launch() returns (launch: Result<Arg>)
      ensures launch == LaunchArgument(appInformation, isSimulator)
    {
      match appInformation.extension {
        case None =>
          launch := Ok(if isSimulator then LaunchSimulator(appInformation.launchAppPath)
                       else LaunchDevice(appInformation.launchAppPath));
        case Some(TodayExtension) =>
          launch := Ok(if isSimulator then LaunchSimulatorExtension(appInformation.launchAppPath, appInformation.bundleIdentifier)
                       else LaunchDeviceExtension(appInformation.launchAppPath, appInformation.bundleIdentifier));
        case Some(WatchKit2) =>
          launch := Err(NotImplemented);
      }
    }

    /** RunAsync: the exit code or the exception, and the effects. */
    method RunAsync(m: Machine) returns (exit: Result<int>, effects: seq<Effect>)
      modifies this`deviceName, this`companionDeviceName, this`simulators
      ensures RunOutcome(exit, effects, State())
        == Run(runMode, isSimulator, verbosity, appInformation, ensureCleanSimulatorState, old(State()), m)
    {
      effects := [];
      if !isSimulator {
        var loaded, failure := FindDevice(m);
        if loaded {
          effects := [DevicesLoaded];
        }
        if failure.Some? {
          return Err(failure.value), effects;
        }
      }
      var rest;
      exit, rest := RunAfterLookup(m);
      effects := effects + rest;
    }

    /** The part of RunAsync after the device lookup. */
    method RunAfterLookup(m: Machine) returns (exit: Result<int>, effects: seq<Effect>)
      requires isSimulator || deviceName.Some?
      modifies this`simulators
      ensures deviceName == old(deviceName) && companionDeviceName == old(companionDeviceName)
      ensures RunOutcome(exit, effects, State())
        == AfterLookup(runMode, isSimulator, verbosity, appInformation, ensureCleanSimulatorState, old(State()), m)
    {
      var args := BuildRunSettings(verbosity, isSimulator, m.hostAddresses, m.listener);
      effects := [ListenerStarted];
      var launch := Launch();
      if launch.Err? {
        return Err(launch.error), effects;
      }
      args := args + [launch.value];
      var rest;
      if isSimulator {
        exit, rest := RunOnSimulator(m, args);
      } else {
        exit, rest := RunOnDevice(m, args);
      }
      effects := effects + rest;
    }

    /** The device branch of RunAsync, with the arguments built so far: the
        device tail, the execution, the release of the listener. */
    method RunOnDevice(m: Machine, args: seq<Arg>) returns (exit: Result<int>, effects: seq<Effect>)
      requires deviceName.Some?
      ensures exit == Ok(ExitCode(m.success))
      ensures effects == [Executed(args + DeviceArguments(runMode, deviceName.value)), ListenerCancelled, ListenerDisposed]
    {
      var command := args + [DisableMemoryLimits];
      if runMode == WatchOS {
        command := command + [AttachNativeDebugger];
      } else {
        command := command + [WaitForExit];
      }
      command := command + [DeviceName(deviceName.value)];
      assert command == args + DeviceArguments(runMode, deviceName.value);
      effects := [Executed(command), ListenerCancelled, ListenerDisposed];
      exit := Ok(ExitCode(m.success));
    }
  }

  /** Some argument sets the environment variable `name`. */
  predicate SetsVariable(args: seq<Arg>, name: string) {
    exists a :: a in args && a.SetEnvVariable? && a.variable == name
  }

  /** The bundle of a path "d/n.app": app name n, bundle identifier n.app,
      launched from d. */
  lemma BundleOfPath(d: string, n: string, app: string, variation: Option<string>)
    requires app == ".app"
    requires NormalDirectory(d) && '/' !in n && !Contains(n, app)
    ensures var p := Combine(d, n + app);
      BundleInformation(p, variation) == AppBundleInformation(n, n + app, p, Some(d), None, variation)
  {
    assert app[0] == '.' && app[1..] == "app" && '/' !in app;
    var file := n + app;
    assert '/' !in file;
    CombineInDirectory(d, file);
    ReplaceAllDropsSuffix(n, app);
  }

  /** The constructor gives no extension, so a run always launches the app
      itself, from the directory of the bundle. */
  lemma BundleLaunchesApp(p: string, variation: Option<string>, isSimulator: bool)
    ensures LaunchArgument(BundleInformation(p, variation), isSimulator)
      == Ok(if isSimulator then LaunchSimulator(DirectoryName(p)) else LaunchDevice(DirectoryName(p)))
  {
  }

  /** The loop adds one verbosity flag per value from -1 below the
      verbosity. */
  lemma {:induction false} VerbosityCount(v: int)
    ensures |Verbosities(v)| == (if v < 0 then 0 else v + 1)
    ensures forall a :: a in Verbosities(v) ==> a == Verbosity
    decreases v + 1
  {
    if v >= 0 {
      VerbosityCount(v - 1);
    }
  }

  /** With the verbosity of a runner: four verbosity flags, the install
      verb with the app path, the target device, and for watchOS only the
      device kinds; uninstalling names the bundle identifier instead. */
  lemma InstallShape(appPath: string, bundleIdentifier: string, target: string, mode: RunMode)
    ensures var a := InstallArguments(3, appPath, target, mode);
      && |a| == (if mode == WatchOS then 7 else 6)
      && a[..4] == [Verbosity, Verbosity, Verbosity, Verbosity]
      && a[4] == InstallAppOnDevice(appPath) && a[5] == DeviceName(target)
      && (DeviceKinds("ios,watchos") in a <==> mode == WatchOS)
    ensures UninstallArguments(3, bundleIdentifier, target)
      == [Verbosity, Verbosity, Verbosity, Verbosity, UninstallAppFromDevice(bundleIdentifier), DeviceName(target)]
  {
    assert Verbosities(3) == [Verbosity, Verbosity, Verbosity, Verbosity];
  }

  /** The run arguments start with four verbosity flags and the connection
      block, name the host the app reports to, end with the transport, and
      never disable the permission-dialog tests. */
  lemma RunSettingsShape(isSimulator: bool, addresses: seq<string>, l: ListenerSetup)
    ensures var a := RunSettings(3, isSimulator, addresses, l);
      && |a| >= 14
      && a[..4] == [Verbosity, Verbosity, Verbosity, Verbosity]
      && a[4..12] == ConnectionArguments()
      && a[13] == SetEnvVariable("NUNIT_HOSTNAME", TextValue(if isSimulator then "127.0.0.1" else Join(addresses, ',')))
      && a[14..] == TransportArguments(l)
      && !SetsVariable(a, "DISABLE_SYSTEM_PERMISSION_TESTS")
  {
    var a := RunSettings(3, isSimulator, addresses, l);
    var v, c, h, t := Verbosities(3), ConnectionArguments(), HostArguments(isSimulator, addresses), TransportArguments(l);
    assert v == [Verbosity, Verbosity, Verbosity, Verbosity];
    assert PermissionArguments(isSimulator) == [];
    assert a == v + c + h + t;
    assert |c| == 8 && |h| == 2;
    assert a[..4] == v && a[4..12] == c && a[12..14] == h && a[14..] == t;
    ConnectionVariables();
    HostVariables(isSimulator, addresses);
    TransportVariables(l);
    SettingsVariables(a, v, c, h, t, "DISABLE_SYSTEM_PERMISSION_TESTS");
  }

  /** Every variable the arguments set starts with 'N' (for "NUNIT_"). */
  predicate NunitVariables(args: seq<Arg>) {
    forall x :: x in args && x.SetEnvVariable? ==> |x.variable| > 0 && x.variable[0] == 'N'
  }

  /** No variable of the run settings is DISABLE_SYSTEM_PERMISSION_TESTS:
      they all start with "NUNIT_". */
  lemma SettingsVariables(a: seq<Arg>, v: seq<Arg>, c: seq<Arg>, h: seq<Arg>, t: seq<Arg>, name: string)
    requires v == [Verbosity, Verbosity, Verbosity, Verbosity]
    requires NunitVariables(c) && NunitVariables(h) && NunitVariables(t)
    requires a == v + c + h + t
    requires name == "DISABLE_SYSTEM_PERMISSION_TESTS"
    ensures !SetsVariable(a, name)
  {
    assert name[0] == 'D';
    forall x | x in a && x.SetEnvVariable?
      ensures x.variable != name
    {
      assert x in c || x in h || x in t;
    }
  }

  lemma ConnectionVariables()
    ensures NunitVariables(ConnectionArguments())
  {
    var c := ConnectionArguments();
    assert c[3].variable[0] == 'N' && c[5].variable[0] == 'N' && c[7].variable[0] == 'N';
  }

  lemma HostVariables(isSimulator: bool, addresses: seq<string>)
    ensures NunitVariables(HostArguments(isSimulator, addresses))
  {
    var h := HostArguments(isSimulator, addresses);
    assert h[1].variable[0] == 'N';
  }

  lemma TransportVariables(l: ListenerSetup)
    ensures NunitVariables(TransportArguments(l))
  {
    var t := TransportArguments(l);
    assert t[1].variable[0] == 'N' && t[|t| - 1].variable[0] == 'N';
    if l.transport == File {
      assert t[2].variable[0] == 'N';
    }
  }

  /** NUNIT_LOG_FILE is set exactly for the File transport, right after the
      transport pair; the port pair comes last. */
  lemma TransportRule(l: ListenerSetup)
    ensures var t := TransportArguments(l);
      && |t| >= 4
      && t[0] == SetAppArgument("-transport:" + TransportName(l.transport), true)
      && t[1] == SetEnvVariable("NUNIT_TRANSPORT", TextValue(TransportVariable(l.transport)))
      && (SetsVariable(t, "NUNIT_LOG_FILE") <==> l.transport == File)
      && (l.transport == File ==> t[2] == SetEnvVariable("NUNIT_LOG_FILE", TextValue(l.logFile)))
      && t[|t| - 2..] == [SetAppArgument("-hostport:" + NatToString(l.port), true), SetEnvVariable("NUNIT_HOSTPORT", Number(l.port))]
  {
    var t := TransportArguments(l);
    if l.transport == File {
      assert t[2] in t;
    }
  }

  /** A preset device name, or else a non-empty DEVICE_NAME, is used as it
      is; the devices are loaded exactly when there is neither. */
  lemma ResolveShortCircuits(deviceName: Option<string>, companion: Option<string>, mode: RunMode, m: Machine)
    ensures var r := Resolve(deviceName, companion, mode, m);
      && (deviceName.Some? ==> r == Resolution(deviceName, companion, false, None))
      && (deviceName.None? && !IsNullOrEmpty(m.deviceNameVariable) ==> r == Resolution(m.deviceNameVariable, companion, false, None))
      && (r.loaded <==> deviceName.None? && IsNullOrEmpty(m.deviceNameVariable))
  {
  }

  /** A lookup fails with ArgumentException for a mode without device
      classes, and with NoDeviceFoundException when no connected device is
      applicable; the device name then keeps the value of DEVICE_NAME. */
  lemma ResolveFailures(deviceName: Option<string>, companion: Option<string>, mode: RunMode, m: Machine)
    ensures var r := Resolve(deviceName, companion, mode, m);
      && (r.failure == Some(ArgumentException) <==> r.loaded && mode.UnlistedMode?)
      && (r.failure == Some(NoDeviceFound) <==>
            r.loaded && !mode.UnlistedMode?
            && forall d :: d in m.connectedDevices ==> !Applicable(d, DeviceClasses(mode).value))
      && (r.failure.Some? ==> r.deviceName == m.deviceNameVariable && r.companion == companion)
  {
    if deviceName.None? && IsNullOrEmpty(m.deviceNameVariable) && !mode.UnlistedMode? {
      var selected := Candidates(m.connectedDevices, DeviceClasses(mode).value);
      if selected != [] {
        assert selected[0] in selected;
      }
    }
  }

  /** `i` is the first of the devices with the lowest version. */
  predicate FirstWithLowestVersion(ds: seq<Device>, i: int) {
    && 0 <= i < |ds|
    && (forall j :: 0 <= j < |ds| ==> !VersionLess(SortKey(ds[j]), SortKey(ds[i])))
    && (forall j :: 0 <= j < i ==> VersionLess(SortKey(ds[i]), SortKey(ds[j])))
  }

  /** A lookup that loads the devices and succeeds chooses an applicable
      device with the lowest version, the first such in the order of the
      connected devices; for watchOS the companion is that device's. */
  lemma ResolveChoosesLowest(deviceName: Option<string>, companion: Option<string>, mode: RunMode, m: Machine)
    requires Resolve(deviceName, companion, mode, m).loaded
    requires Resolve(deviceName, companion, mode, m).failure.None?
    ensures DeviceClasses(mode).Ok?
    ensures
      exists i ::
        && FirstWithLowestVersion(Candidates(m.connectedDevices, DeviceClasses(mode).value), i)
        && Resolve(deviceName, companion, mode, m).deviceName
           == Some(Candidates(m.connectedDevices, DeviceClasses(mode).value)[i].name)
        && Resolve(deviceName, companion, mode, m).companion
           == (if mode == WatchOS then Some(m.companionName(Candidates(m.connectedDevices, DeviceClasses(mode).value)[i]))
               else companion)
  {
    var classes := DeviceClasses(mode).value;
    var selected := Candidates(m.connectedDevices, classes);
    var r := Resolve(deviceName, companion, mode, m);
    assert selected != [];
    var i := FirstLowest(selected);
    assert FirstWithLowestVersion(selected, i);
    assert r.deviceName == Some(selected[i].name);
    assert r.companion == (if mode == WatchOS then Some(m.companionName(selected[i])) else companion);
  }

  /** Preset simulators and a preset device name are used without loading. */
  lemma RunShortCircuits(mode: RunMode, isSimulator: bool, info: AppBundleInformation, ensureClean: bool, s: RunState, m: Machine)
    ensures var o := Run(mode, isSimulator, 3, info, ensureClean, s, m);
      && (isSimulator && s.simulators.Some? ==> SimulatorsLoaded !in o.effects && o.state.simulators == s.simulators)
      && (!isSimulator && s.deviceName.Some? ==> DevicesLoaded !in o.effects && o.state.deviceName == s.deviceName)
      && (isSimulator ==> DevicesLoaded !in o.effects && o.state.deviceName == s.deviceName)
  {
    if isSimulator && LaunchArgument(info, true).Ok? {
      var args := RunSettings(3, true, m.hostAddresses, m.listener) + [LaunchArgument(info, true).value];
      var inner := SimulatorRun(mode, ensureClean, args, s, m);
      assert Run(mode, isSimulator, 3, info, ensureClean, s, m) == inner.(effects := [ListenerStarted] + inner.effects);
      SimulatorRunShortCircuits(mode, ensureClean, args, s, m);
    }
  }

  /** `RunShortCircuits` for the simulator branch. */
  lemma SimulatorRunShortCircuits(mode: RunMode, ensureClean: bool, args: seq<Arg>, s: RunState, m: Machine)
    ensures var o := SimulatorRun(mode, ensureClean, args, s, m);
      && DevicesLoaded !in o.effects && o.state.deviceName == s.deviceName
      && (s.simulators.Some? ==> SimulatorsLoaded !in o.effects && o.state.simulators == s.simulators)
  {
    var found := if s.simulators.Some? then s.simulators else m.simulatorsFound;
    if found.Some? {
      var clean := ensureClean && IsNullOrEmpty(m.skipSimulatorSetup);
      var prepared := if clean then Preparations(found.value) else [];
      assert DevicesLoaded !in prepared && SimulatorsLoaded !in prepared;
    }
  }

  /** A simulator run whose simulators cannot be found returns 1 with the
      listener started, never cancelled nor disposed. */
  lemma SimulatorLookupFailure(mode: RunMode, info: AppBundleInformation, ensureClean: bool, s: RunState, m: Machine)
    requires info.extension.None?
    requires s.simulators.None? && m.simulatorsFound.None?
    ensures Run(mode, true, 3, info, ensureClean, s, m) == RunOutcome(Ok(1), [ListenerStarted, SimulatorsLoaded], s)
  {
  }

  /** A command executed in the simulator branch extends the arguments
      built before it and ends with the UDID of the first simulator; the
      listener is then released and the exit code is the reporter's. */
  lemma SimulatorRunCommand(mode: RunMode, ensureClean: bool, args: seq<Arg>, s: RunState, m: Machine, command: seq<Arg>)
    requires Executed(command) in SimulatorRun(mode, ensureClean, args, s, m).effects
    ensures var o := SimulatorRun(mode, ensureClean, args, s, m);
      && |args| < |command| && command[..|args|] == args
      && o.state.simulators.Some? && o.state.simulators.value != []
      && command[|command| - 1] == SimulatorUDID(o.state.simulators.value[0].udid)
      && o.exit == Ok(ExitCode(m.success))
      && |o.effects| >= 2 && o.effects[|o.effects| - 2..] == [ListenerCancelled, ListenerDisposed]
  {
    var o := SimulatorRun(mode, ensureClean, args, s, m);
    var found := if s.simulators.Some? then s.simulators else m.simulatorsFound;
    var clean := ensureClean && IsNullOrEmpty(m.skipSimulatorSetup);
    if found.Some? {
      var prepared := if clean then Preparations(found.value) else [];
      assert Executed(command) !in prepared;
      if found.value != [] {
        var sims := found.value;
        var c := args + OutputArguments(mode, m.stderrTerminal, m.stdoutLog, m.stderrLog) + [SimulatorUDID(sims[0].udid)];
        assert command == c;
        assert c[..|args|] == args;
      }
    }
  }

  /** A command executed by a simulator run starts with the run settings and
      ends with the UDID of the first simulator; the listener is then
      released, and the exit code is 0 exactly when the reporter succeeded. */
  lemma RunCommandOnSimulator(mode: RunMode, info: AppBundleInformation, ensureClean: bool,
                              s: RunState, m: Machine, command: seq<Arg>)
    requires Executed(command) in Run(mode, true, 3, info, ensureClean, s, m).effects
    ensures var o := Run(mode, true, 3, info, ensureClean, s, m);
      var settings := RunSettings(3, true, m.hostAddresses, m.listener);
      && |settings| < |command| && command[..|settings|] == settings
      && o.state.simulators.Some? && o.state.simulators.value != []
      && command[|command| - 1] == SimulatorUDID(o.state.simulators.value[0].udid)
      && o.exit == Ok(ExitCode(m.success))
      && |o.effects| >= 2 && o.effects[|o.effects| - 2..] == [ListenerCancelled, ListenerDisposed]
  {
    var settings := RunSettings(3, true, m.hostAddresses, m.listener);
    if LaunchArgument(info, true).Ok? {
      var args := settings + [LaunchArgument(info, true).value];
      SimulatorRunCommand(mode, ensureClean, args, s, m, command);
      assert command[..|settings|] == command[..|args|][..|settings|];
    }
  }

  /** A command executed by a device run starts with the run settings and
      ends with the device tail for the resolved device; the listener is
      then released, and the exit code is 0 exactly when the reporter
      succeeded. */
  lemma RunCommandOnDevice(mode: RunMode, info: AppBundleInformation, ensureClean: bool,
                           s: RunState, m: Machine, command: seq<Arg>)
    requires Executed(command) in Run(mode, false, 3, info, ensureClean, s, m).effects
    ensures var o := Run(mode, false, 3, info, ensureClean, s, m);
      var settings := RunSettings(3, false, m.hostAddresses, m.listener);
      && |settings| < |command| && command[..|settings|] == settings
      && o.state.deviceName.Some? && |command| >= 3
      && command[|command| - 3..] == DeviceArguments(mode, o.state.deviceName.value)
      && o.exit == Ok(ExitCode(m.success))
      && |o.effects| >= 2 && o.effects[|o.effects| - 2..] == [ListenerCancelled, ListenerDisposed]
  {
    var settings := RunSettings(3, false, m.hostAddresses, m.listener);
    var r := Resolve(s.deviceName, s.companionDeviceName, mode, m);
    if r.failure.None? && LaunchArgument(info, false).Ok? {
      var c := settings + [LaunchArgument(info, false).value] + DeviceArguments(mode, r.deviceName.value);
      assert command == c;
      assert c[..|settings|] == settings;
    }
  }

  /** A run that executes no command never releases the listener: it threw,
      or it is a simulator run whose simulators could not be found, which
      returns 1 after starting the listener. */
  lemma RunWithoutCommand(mode: RunMode, isSimulator: bool, info: AppBundleInformation, ensureClean: bool,
                          s: RunState, m: Machine)
    requires forall c :: Executed(c) !in Run(mode, isSimulator, 3, info, ensureClean, s, m).effects
    ensures var o := Run(mode, isSimulator, 3, info, ensureClean, s, m);
      && ListenerCancelled !in o.effects && ListenerDisposed !in o.effects
      && (o.exit.Ok? ==>
            o.exit == Ok(1) && isSimulator && s.simulators.None? && m.simulatorsFound.None? && ListenerStarted in o.effects)
  {
    if isSimulator {
      AfterLookupWithoutCommand(mode, true, info, ensureClean, s, m);
    } else {
      var r := Resolve(s.deviceName, s.companionDeviceName, mode, m);
      if r.failure.None? {
        var s' := s.(deviceName := r.deviceName, companionDeviceName := r.companion);
        var inner := AfterLookup(mode, false, 3, info, ensureClean, s', m);
        var loads := if r.loaded then [DevicesLoaded] else [];
        assert Run(mode, false, 3, info, ensureClean, s, m).effects == loads + inner.effects;
        AfterLookupWithoutCommand(mode, false, info, ensureClean, s', m);
      }
    }
  }

  /** `RunWithoutCommand` after the device lookup. */
  lemma AfterLookupWithoutCommand(mode: RunMode, isSimulator: bool, info: AppBundleInformation, ensureClean: bool,
                                  s: RunState, m: Machine)
    requires isSimulator || s.deviceName.Some?
    requires forall c :: Executed(c) !in AfterLookup(mode, isSimulator, 3, info, ensureClean, s, m).effects
    ensures var o := AfterLookup(mode, isSimulator, 3, info, ensureClean, s, m);
      && ListenerCancelled !in o.effects && ListenerDisposed !in o.effects
      && (o.exit.Ok? ==>
            o.exit == Ok(1) && isSimulator && s.simulators.None? && m.simulatorsFound.None? && ListenerStarted in o.effects)
  {
    if LaunchArgument(info, isSimulator).Ok? && isSimulator {
      var args := RunSettings(3, true, m.hostAddresses, m.listener) + [LaunchArgument(info, true).value];
      var inner := SimulatorRun(mode, ensureClean, args, s, m);
      assert AfterLookup(mode, true, 3, info, ensureClean, s, m).effects == [ListenerStarted] + inner.effects;
      SimulatorRunWithoutCommand(mode, ensureClean, args, s, m);
    }
  }

  /** `RunWithoutCommand` for the simulator branch. */
  lemma SimulatorRunWithoutCommand(mode: RunMode, ensureClean: bool, args: seq<Arg>, s: RunState, m: Machine)
    requires forall c :: Executed(c) !in SimulatorRun(mode, ensureClean, args, s, m).effects
    ensures var o := SimulatorRun(mode, ensureClean, args, s, m);
      && ListenerCancelled !in o.effects && ListenerDisposed !in o.effects
      && (o.exit.Ok? ==> o.exit == Ok(1) && s.simulators.None? && m.simulatorsFound.None?)
  {
    var found := if s.simulators.Some? then s.simulators else m.simulatorsFound;
    if found.Some? {
      var clean := ensureClean && IsNullOrEmpty(m.skipSimulatorSetup);
      var prepared := if clean then Preparations(found.value) else [];
      assert ListenerCancelled !in prepared && ListenerDisposed !in prepared;
    }
  }
}
