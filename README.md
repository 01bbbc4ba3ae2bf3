# xharness core, modelled in Dafny

This project models six pieces of the xharness test harness for Apple platforms:

- **`AppRunner`** decides how an app bundle is installed, uninstalled and run with the `mlaunch` helper. It:
  - resolves the device to use, or the simulators of a simulator run;
  - builds the ordered lists of `mlaunch` arguments;
  - turns the course of a run into an exit code.
- **`TestResultConsoleReporter`** receives the test log in chunks and cuts it into lines. For each `<test ... />` element it writes a one-line status (`[ OK ] name`) over the previous one.
- **`TestProject` and `iOSTestProject`** rewrite project paths for the tvOS, watchOS and today-extension variants. They also clone projects, cache the project document, and locate the today-extension project.
- **`LogWriter`** is the level-filtered logger of the test runners. When device information is available it writes a seven-line device header at construction.
- **`ApplicatonEntryPoint.RunAsync`** is the start-up sequence of the test application. It:
  - chooses the result writer and the logger's sink;
  - refuses the NUnit runner and applies the ignore files;
  - writes the results in the requested XML dialect;
  - optionally terminates.

## Files

| File | Module | Contents |
|---|---|---|
| `common.dfy` | `Common` | `Option`, `Result`, the escaping exceptions, `string.IsNullOrEmpty`. |
| `text.dfy` | `Text` | Split and join on a character, with their round trip; substring search; `LastIndexOf`; `Replace`; decimal digits; ASCII lower-casing. |
| `paths.dfy` | `Paths` | A POSIX model of `System.IO.Path`: `GetDirectoryName`, `GetFileName`, stem and extension, `Combine`. |
| `hardware.dfy` | `Hardware` | Run modes, device classes, devices, `System.Version` parsing and ordering, and the stable "first lowest version" choice. |
| `app_runner.dfy` | `Runner` | The `mlaunch` arguments, the specification functions `Resolve`, `SimulatorRun`, `AfterLookup` and `Run`, and the class `AppRunner`. |
| `live_results.dfy` | `LiveResults` | The line processor `StepLine`, the chunk processor `Feed`, and the class `TestResultConsoleReporter`. |
| `test_projects.dfy` | `TestProjects` | The path rewrites, and the class `TestProject`. An `iOSTestProject` is a `TestProject` whose kind carries its six flags. |
| `logging.dfy` | `Logging` | The class `LogWriter`. Its output is a sequence of line and flush operations. |
| `entry_point.dfy` | `EntryPoint` | The decision functions of the entry point, and the method `RunAsync`. |

Collaborators become inputs. For `AppRunner`, a `Machine` value holds:

- the environment variables `DEVICE_NAME` and `SKIP_SIMULATOR_SETUP`;
- the connected devices and the simulators the loader finds;
- the host addresses and the terminal name;
- the listener's transport, port and log file;
- the reporter's verdict.

What a run does to its collaborators is recorded as a sequence of `Effect`s: loads, listener start, simulator preparation, the executed command, the kill, the listener's cancel and dispose. The XML parser of the reporter is a function `string -> Option<map<string, string>>`. The project loader and `Path.GetFullPath` are also function parameters.

### Where the code differs from what one might expect

- **Version tie-break.** `FindDevice` orders the applicable devices by their parsed `ProductVersion`, and an unparsable version sorts as `new Version()`, that is 0.0 (AppRunner.cs:173-188). So a device whose version does not parse is chosen over devices reporting "9.0" or "10.0": see `Hardware.TieBreakExample` and `Hardware.UnparsableChosen`.
- **Failed simulator lookup.** When the simulator lookup fails, `RunAsync` returns 1 right after `listener.StartAsync`, without cancelling or disposing the listener (AppRunner.cs:380-385): see `Runner.SimulatorLookupFailure` and `Runner.RunWithoutCommand`.
- **watchOS rewrite applied twice.** `AsWatchOSProject` adds "-watchos" only when the stem lacks it, so applying it twice is meant to equal applying it once. That fails for a file name ending in '.': "a.b." becomes "a.b-watchos", whose extension is now ".b-watchos", and then "a-watchos.b-watchos" (TestProject.cs:46-52): see `TestProjects.WatchOSPathNotIdempotent`, and `TestProjects.WatchOSPathIdempotent` for the names where it holds.
- **Unclosed test element.** `ProcessLine` calls `Substring(0, LastIndexOf('>'))` outside its try (TestResultConsoleReporter.cs:72-76), so a "<test" line without '>' raises. The exception leaves `ProcessData` before `_buffer.Clear()` (lines 40-45): the failing line stays in the buffer and the rest of the chunk is never processed. Every later chunk that completes a line appends to that stuck text and raises again until a '>' arrives. So the buffer is the text after the last newline, and chunking does not matter, only for chunks that raised nothing: see `LiveResults.UnclosedElementExample`, `LiveResults.StuckBufferFails`, `LiveResults.BufferIsTextAfterLastNewline` and `LiveResults.ChunkingInvariance`.
- **Permission-dialog tests.** `DisableSystemPermissionTests` returns true on every path (AppRunner.cs:513-541), so `DISABLE_SYSTEM_PERMISSION_TESTS` is never added to the run arguments: see `Runner.RunSettingsShape`.

## Model

| member | source | states |
|---|---|---|
| Hardware.Candidates | src/Microsoft.DotNet.XHarness.iOS/AppRunner.cs:167 | A device is a candidate iff it is connected, its class belongs to the run mode, and it is not known to be unusable for debugging; there are never more candidates than connected devices |
| Hardware.CandidatesConcat | src/Microsoft.DotNet.XHarness.iOS/AppRunner.cs:167 | The filter keeps the order of the connected devices: it distributes over concatenation |
| Hardware.ParseVersion | src/Microsoft.DotNet.XHarness.iOS/AppRunner.cs:173-188 | Parses iff there is a version string that splits on '.' into 2 to 4 components, each decimal digits of value at most 2147483647; a parsed version has non-negative major and minor, and build and revision are -1 (absent) or more |
| Hardware.FirstLowest | src/Microsoft.DotNet.XHarness.iOS/AppRunner.cs:173-188 | OrderBy(version).First(): the chosen index has no lower key anywhere, and every earlier device has a strictly higher key (the sort is stable) |
| Hardware.UnversionedIsLowest | src/Microsoft.DotNet.XHarness.iOS/AppRunner.cs:176-186 | No key is below `new Version()`; a device has that key only when its version does not parse or is "0.0" |
| Hardware.UnparsableChosen | src/Microsoft.DotNet.XHarness.iOS/AppRunner.cs:173-188 | When some device has an unparsable version and none reports 0.0, the chosen device is the first with an unparsable version |
| Hardware.ParseTwoComponents | src/Microsoft.DotNet.XHarness.iOS/AppRunner.cs:178 | "a.b" with two valid components parses to (a, b) with build and revision undefined |
| Hardware.ParseWithoutDot | src/Microsoft.DotNet.XHarness.iOS/AppRunner.cs:178 | A version without '.' does not parse |
| Hardware.ParsedAboveZero | src/Microsoft.DotNet.XHarness.iOS/AppRunner.cs:178 | "m.0" with m > 0 parses, to a version other than 0.0 |
| Hardware.TieBreakExample | src/Microsoft.DotNet.XHarness.iOS/AppRunner.cs:173-192 | Devices reporting "10.0", "9.0" and "unknown": the third, unparsable one is chosen |
| Hardware.ParseComponents | src/Microsoft.DotNet.XHarness.iOS/AppRunner.cs:178 | Two to four valid components joined with '.' parse to their values, a missing build or revision being -1; with `ParseVersion` this gives the exact result for 2, 3 and 4 components |
| Runner.DisableSystemPermissionTests | src/Microsoft.DotNet.XHarness.iOS/AppRunner.cs:513-541 | True for every platform, on devices and simulators alike |
| Runner.Preparations | src/Microsoft.DotNet.XHarness.iOS/AppRunner.cs:426-432 | One SimulatorPrepared per simulator, entry i preparing simulator i, in order, and nothing else |
| Runner.Resolve | src/Microsoft.DotNet.XHarness.iOS/AppRunner.cs:132-200 | A lookup that does not fail leaves a device name; a lookup that loads no devices cannot fail |
| Runner.VerbosityArguments | src/Microsoft.DotNet.XHarness.iOS/AppRunner.cs:212-217 | The verbosity loop yields the verbosity flags of `Verbosities` |
| Runner.JoinAddresses | src/Microsoft.DotNet.XHarness.iOS/AppRunner.cs:288-302 | The IP loop yields the addresses joined with ',' |
| Runner.PrepareSimulators | src/Microsoft.DotNet.XHarness.iOS/AppRunner.cs:426-432 | The foreach prepares every simulator, in order |
| Runner.BuildRunSettings | src/Microsoft.DotNet.XHarness.iOS/AppRunner.cs:262-321 | The appends of RunAsync before the launch argument give `RunSettings` |
| Runner.AppRunner.constructor | src/Microsoft.DotNet.XHarness.iOS/AppRunner.cs:82-116 | The runner keeps mode, target kind, presets and clean-state flag, and derives the bundle information from the path |
| Runner.AppRunner.FindSimulator | src/Microsoft.DotNet.XHarness.iOS/AppRunner.cs:118-130 | Preset simulators are returned without loading; otherwise the simulators are loaded and stored, and the result says whether the loader returned any (non-null) |
| Runner.AppRunner.FindDevice | src/Microsoft.DotNet.XHarness.iOS/AppRunner.cs:132-200 | The two name fields, the load and the exception are those of `Resolve` on the old fields |
| Runner.AppRunner.InstallAsync | src/Microsoft.DotNet.XHarness.iOS/AppRunner.cs:202-231 | On a simulator: InvalidOperationException and no change; on a device: the device lookup, then the install arguments for the resolved target |
| Runner.AppRunner.UninstallAsync | src/Microsoft.DotNet.XHarness.iOS/AppRunner.cs:233-253 | On a simulator: InvalidOperationException and no change; on a device: the device lookup, then the uninstall arguments |
| Runner.AppRunner.RunOnSimulator | src/Microsoft.DotNet.XHarness.iOS/AppRunner.cs:380-453 | The simulator branch gives exit, effects and fields of `SimulatorRun` |
| Runner.AppRunner.RunAsync | src/Microsoft.DotNet.XHarness.iOS/AppRunner.cs:255-510 | Exit code or exception, effects and new fields are those of `Run` on the old fields |
| Runner.AppRunner.RunAfterLookup | src/Microsoft.DotNet.XHarness.iOS/AppRunner.cs:262-509 | After the device lookup, exit, effects and fields are those of `AfterLookup`; the device name and companion stay as the lookup left them |
| Runner.AppRunner.Launch | src/Microsoft.DotNet.XHarness.iOS/AppRunner.cs:355-374 | The launch argument, or NotImplementedException, is the one `LaunchArgument` gives for the bundle and the target kind |
| Runner.AppRunner.RunOnDevice | src/Microsoft.DotNet.XHarness.iOS/AppRunner.cs:454-509 | The device command is the arguments so far followed by DisableMemoryLimits, AttachNativeDebugger (watchOS) or WaitForExit, and the device name; the listener is then released and the exit is the reporter's |
| Runner.BundleOfPath | src/Microsoft.DotNet.XHarness.iOS/AppRunner.cs:107-115 | The bundle "d/n.app" has app name n, bundle identifier "n.app" and launch path d |
| Runner.BundleLaunchesApp | src/Microsoft.DotNet.XHarness.iOS/AppRunner.cs:355-374 | With no extension, a run always launches the app from the bundle's directory |
| Runner.VerbosityCount | src/Microsoft.DotNet.XHarness.iOS/AppRunner.cs:214-217 | The loop from -1 below v adds v + 1 verbosity flags and nothing else |
| Runner.InstallShape | src/Microsoft.DotNet.XHarness.iOS/AppRunner.cs:212-250 | Install: four verbosity flags, the install verb with the app path, the target, and the device kinds exactly for watchOS; uninstall: four verbosity flags, the uninstall verb with the bundle identifier, the target |
| Runner.RunSettingsShape | src/Microsoft.DotNet.XHarness.iOS/AppRunner.cs:262-321 | Four verbosity flags, the connection block, the host name, then the transport; DISABLE_SYSTEM_PERMISSION_TESTS is never set |
| Runner.TransportRule | src/Microsoft.DotNet.XHarness.iOS/AppRunner.cs:312-321 | NUNIT_LOG_FILE is set iff the transport is File, right after the transport pair; the port pair comes last |
| Runner.ResolveShortCircuits | src/Microsoft.DotNet.XHarness.iOS/AppRunner.cs:132-143 | A preset name, or else a non-empty DEVICE_NAME, is used verbatim; devices are loaded iff there is neither |
| Runner.ResolveFailures | src/Microsoft.DotNet.XHarness.iOS/AppRunner.cs:151-172 | ArgumentException iff the mode has no device classes, NoDeviceFoundException iff no connected device is applicable |
| Runner.ResolveChoosesLowest | src/Microsoft.DotNet.XHarness.iOS/AppRunner.cs:173-199 | A successful lookup picks the first applicable device with the lowest version, and for watchOS takes that device's companion |
| Runner.RunShortCircuits | src/Microsoft.DotNet.XHarness.iOS/AppRunner.cs:118-143 | Preset simulators and a preset device name are used without loading; a simulator run never loads devices |
| Runner.SimulatorLookupFailure | src/Microsoft.DotNet.XHarness.iOS/AppRunner.cs:380-385 | A failed simulator lookup returns 1 with the listener started and neither cancelled nor disposed |
| Runner.SimulatorRunCommand | src/Microsoft.DotNet.XHarness.iOS/AppRunner.cs:380-453 | The simulator command extends the arguments built before it and ends with the first simulator's UDID; the listener is then released and the exit is the reporter's |
| Runner.RunCommandOnSimulator | src/Microsoft.DotNet.XHarness.iOS/AppRunner.cs:255-509 | A simulator run's command starts with the run settings and ends with the UDID; exit 0 iff the reporter succeeded, after cancel and dispose |
| Runner.RunCommandOnDevice | src/Microsoft.DotNet.XHarness.iOS/AppRunner.cs:255-509 | A device run's command starts with the run settings and ends with DisableMemoryLimits, AttachNativeDebugger (watchOS) or WaitForExit, and the device name |
| Runner.RunWithoutCommand | src/Microsoft.DotNet.XHarness.iOS/AppRunner.cs:380-385 | A run that executes nothing never releases the listener, and returns normally only with 1 from a failed simulator lookup |
| Runner.AfterLookupWithoutCommand | src/Microsoft.DotNet.XHarness.iOS/AppRunner.cs:355-385 | After the lookup, a run that executes nothing never releases the listener, and returns normally only with 1 from a failed simulator lookup |
| Runner.SimulatorRunWithoutCommand | src/Microsoft.DotNet.XHarness.iOS/AppRunner.cs:380-385 | A simulator run that executes nothing returns normally only when no simulators were found, with 1 |
| Runner.OutputRule | src/Microsoft.DotNet.XHarness.iOS/AppRunner.cs:387-402 | A watchOS simulator run redirects nothing; otherwise standard output then standard error, both to the terminal when it is set, else each to its own log. Characterises `OutputArguments` |
| Runner.DeviceTail | src/Microsoft.DotNet.XHarness.iOS/AppRunner.cs:375-467 | A device run ends with the device name, attaches the debugger iff the mode is watchOS, waits for exit otherwise, and always disables the memory limits. Characterises `DeviceArguments` |
| Runner.InstallArguments | src/Microsoft.DotNet.XHarness.iOS/AppRunner.cs:212-225 | The install argument list; its shape is stated by `Runner.InstallShape` |
| Runner.UninstallArguments | src/Microsoft.DotNet.XHarness.iOS/AppRunner.cs:242-250 | The uninstall argument list; its shape is stated by `Runner.InstallShape` |
| Runner.RunSettings | src/Microsoft.DotNet.XHarness.iOS/AppRunner.cs:262-321 | The arguments built before the launch; their order and contents are stated by `Runner.RunSettingsShape` and `Runner.TransportRule` |
| Runner.LaunchArgument | src/Microsoft.DotNet.XHarness.iOS/AppRunner.cs:355-374 | The launch argument by extension kind, NotImplementedException for a WatchKit extension; `Runner.BundleLaunchesApp` states the plain-app case |
| Runner.OutputArguments | src/Microsoft.DotNet.XHarness.iOS/AppRunner.cs:387-402 | Output redirection of a simulator run; characterised by `Runner.OutputRule` |
| Runner.DeviceArguments | src/Microsoft.DotNet.XHarness.iOS/AppRunner.cs:375-467 | The tail of a device run; characterised by `Runner.DeviceTail` and used by `Runner.RunCommandOnDevice` |
| Runner.SimulatorRun | src/Microsoft.DotNet.XHarness.iOS/AppRunner.cs:380-453 | The simulator branch; characterised by `Runner.SimulatorRunCommand`, `Runner.SimulatorLookupFailure` and `Runner.SimulatorRunWithoutCommand` |
| Runner.AfterLookup | src/Microsoft.DotNet.XHarness.iOS/AppRunner.cs:262-509 | Everything after the device lookup; `Runner.AppRunner.RunAfterLookup` is proved against it and `Runner.AfterLookupWithoutCommand` states its listener rule |
| Runner.Run | src/Microsoft.DotNet.XHarness.iOS/AppRunner.cs:255-510 | The whole RunAsync; characterised by `Runner.RunCommandOnSimulator`, `Runner.RunCommandOnDevice`, `Runner.RunWithoutCommand` and `Runner.RunShortCircuits` |
| Hardware.DeviceClasses | src/Microsoft.DotNet.XHarness.iOS/AppRunner.cs:151-165 | The device classes a mode accepts; `Runner.ResolveFailures` states that an empty set raises ArgumentException |
| Hardware.SortKey | src/Microsoft.DotNet.XHarness.iOS/AppRunner.cs:173-188 | The OrderBy key: the parsed version or `new Version()`; `Hardware.UnversionedIsLowest` and `Hardware.FirstLowest` state how it orders devices |
| Hardware.VersionLess | src/Microsoft.DotNet.XHarness.iOS/AppRunner.cs:173-188 | System.Version comparison; `Hardware.UnversionedIsLowest`, `Hardware.FirstLowest` and `Hardware.TieBreakExample` use it |
| LiveResults.TestResultConsoleReporter.constructor | src/Microsoft.DotNet.XHarness.Common/Logging/TestResultConsoleReporter.cs:17-24 | Empty buffer, no status line, nothing on the console |
| LiveResults.TestResultConsoleReporter.ProcessLine | src/Microsoft.DotNet.XHarness.Common/Logging/TestResultConsoleReporter.cs:60-120 | The new view is the one `StepLine` gives, or nothing changes and the escaping exception is returned; `LiveResults.QuietLines` and `LiveResults.ElementLines` state when that view is unchanged |
| LiveResults.TestResultConsoleReporter.ProcessData | src/Microsoft.DotNet.XHarness.Common/Logging/TestResultConsoleReporter.cs:30-58 | Keeps the invariant (no newline in the buffer); buffer, view and exception are those of `Feed` |
| LiveResults.FeedLinesFront | src/Microsoft.DotNet.XHarness.Common/Logging/TestResultConsoleReporter.cs:40-45 | Processing the lines from a position on is processing the line there, then the rest unless it raised an exception |
| LiveResults.ChunkPieces | src/Microsoft.DotNet.XHarness.Common/Logging/TestResultConsoleReporter.cs:38-45 | With a newline in the chunk, the first line is the buffer followed by the chunk's first piece; the other lines are the chunk's own |
| LiveResults.FeedLinesConcat | src/Microsoft.DotNet.XHarness.Common/Logging/TestResultConsoleReporter.cs:38-57 | Processing two runs of lines one after the other is processing them together |
| LiveResults.FeedBySplit | src/Microsoft.DotNet.XHarness.Common/Logging/TestResultConsoleReporter.cs:32-57 | A chunk, with or without newline, is processed as the split of buffer plus chunk |
| LiveResults.StepLineKeepsView | src/Microsoft.DotNet.XHarness.Common/Logging/TestResultConsoleReporter.cs:60-120 | One line keeps the view consistent |
| LiveResults.FeedLinesKeepsView | src/Microsoft.DotNet.XHarness.Common/Logging/TestResultConsoleReporter.cs:38-57 | A run of lines keeps the view consistent |
| LiveResults.FeedKeepsInvariant | src/Microsoft.DotNet.XHarness.Common/Logging/TestResultConsoleReporter.cs:30-58 | Every chunk, also a failing one, leaves a newline-free buffer and a consistent view |
| LiveResults.AbortedLineIsPiece | src/Microsoft.DotNet.XHarness.Common/Logging/TestResultConsoleReporter.cs:38-57 | The line that raised the exception is one of the lines fed |
| LiveResults.BufferIsTextAfterLastNewline | src/Microsoft.DotNet.XHarness.Common/Logging/TestResultConsoleReporter.cs:38-57 | After a chunk that raised nothing, the buffer is exactly the text after the last newline received; `LiveResults.UnclosedElementExample` shows a chunk that raised leaving its failing line there instead |
| LiveResults.ChunkingInvariance | src/Microsoft.DotNet.XHarness.Common/Logging/TestResultConsoleReporter.cs:30-58 | After a first chunk that raised nothing, two chunks received one after the other lead to the same state as their concatenation: every line is processed once, in order |
| LiveResults.FeedPiecesConcat | src/Microsoft.DotNet.XHarness.Common/Logging/TestResultConsoleReporter.cs:38-57 | The carried-over piece joins the first piece of the next chunk |
| LiveResults.NewlineCompletesLine | src/Microsoft.DotNet.XHarness.Common/Logging/TestResultConsoleReporter.cs:47-53 | A lone newline processes the buffered line once and empties the buffer |
| LiveResults.SplitLineProcessedOnce | src/Microsoft.DotNet.XHarness.Common/Logging/TestResultConsoleReporter.cs:32-53 | "abc" is only buffered; then "\n" processes it once and empties the buffer |
| LiveResults.UnclosedElementFails | src/Microsoft.DotNet.XHarness.Common/Logging/TestResultConsoleReporter.cs:72-76 | A "<test" line without any '>' raises ArgumentOutOfRangeException out of `ProcessLine` (`Substring(0, -1)` outside the try) |
| LiveResults.FirstPieceRaises | src/Microsoft.DotNet.XHarness.Common/Logging/TestResultConsoleReporter.cs:40-45 | When the first complete line raises, the loop stops there: that line stays as the buffer and the view is unchanged |
| LiveResults.FirstLineRaises | src/Microsoft.DotNet.XHarness.Common/Logging/TestResultConsoleReporter.cs:30-58 | A chunk whose first line raises processes nothing after it and leaves that line, not the text after the last newline, in the buffer |
| LiveResults.StuckBufferFails | src/Microsoft.DotNet.XHarness.Common/Logging/TestResultConsoleReporter.cs:40-76 | Once an unclosed "<test" line is stuck in the buffer, every chunk that completes a line without bringing a '>' appends to it and raises again |
| LiveResults.UnclosedElementExample | src/Microsoft.DotNet.XHarness.Common/Logging/TestResultConsoleReporter.cs:40-76 | "<test\nabc\n" raises on "<test", never processes "abc" and leaves "<test" in the buffer; the chunk "abc\n" then raises on "<testabc" |
| LiveResults.QuietLines | src/Microsoft.DotNet.XHarness.Common/Logging/TestResultConsoleReporter.cs:62-70 | An empty line or a line without "<test" changes nothing |
| LiveResults.RepairShape | src/Microsoft.DotNet.XHarness.Common/Logging/TestResultConsoleReporter.cs:72-76 | Without "/>", a '/' goes right before the last '>'; with no '>' at all the repair fails |
| LiveResults.TagByResult | src/Microsoft.DotNet.XHarness.Common/Logging/TestResultConsoleReporter.cs:95-112 | pass, fail, skip (any case) give [ OK ], [FAIL], [SKIP]; anything else [????]; each six characters |
| LiveResults.RenderShape | src/Microsoft.DotNet.XHarness.Common/Logging/TestResultConsoleReporter.cs:90-115 | "\r" precedes a status line iff one was shown; the recorded length is 7 + the name's length; earlier output is kept |
| LiveResults.ElementLines | src/Microsoft.DotNet.XHarness.Common/Logging/TestResultConsoleReporter.cs:72-115 | A line with "<test" whose repair parses but lacks a name or a result, or does not parse, leaves the view unchanged; one with both attributes renders a status line, so the view changes |
| LiveResults.StepLine | src/Microsoft.DotNet.XHarness.Common/Logging/TestResultConsoleReporter.cs:60-120 | One line; characterised by `LiveResults.QuietLines`, `LiveResults.ElementLines` and `LiveResults.StepLineKeepsView` |
| LiveResults.Repair | src/Microsoft.DotNet.XHarness.Common/Logging/TestResultConsoleReporter.cs:72-76 | The "/>" repair; characterised by `LiveResults.RepairShape` |
| LiveResults.Tag | src/Microsoft.DotNet.XHarness.Common/Logging/TestResultConsoleReporter.cs:95-112 | The status tag; characterised by `LiveResults.TagByResult` |
| LiveResults.Render | src/Microsoft.DotNet.XHarness.Common/Logging/TestResultConsoleReporter.cs:90-115 | The status line and its "\r"; characterised by `LiveResults.RenderShape` |
| LiveResults.FeedLines | src/Microsoft.DotNet.XHarness.Common/Logging/TestResultConsoleReporter.cs:38-57 | A run of complete lines; characterised by `LiveResults.FeedLinesConcat`, `LiveResults.FeedLinesFront` and `LiveResults.AbortedLineIsPiece` |
| LiveResults.Feed | src/Microsoft.DotNet.XHarness.Common/Logging/TestResultConsoleReporter.cs:30-58 | One chunk; characterised by `LiveResults.ChunkingInvariance`, `LiveResults.FeedBySplit`, `LiveResults.BufferIsTextAfterLastNewline`, `LiveResults.NewlineCompletesLine` and `LiveResults.FeedKeepsInvariant` |
| TestProjects.FreshKind | src/Microsoft.DotNet.XHarness.iOS/TestProjects/TestProject.cs:92 | A new instance of the same runtime type: an iOS project with its flags at their defaults |
| TestProjects.TestProject.constructor | src/Microsoft.DotNet.XHarness.iOS/TestProjects/TestProject.cs:13-31 | Every field at its default, Dependency and ProjectReferences included: null or false, and TimeoutMultiplier 1 |
| TestProjects.TestProject.IOS | src/Microsoft.DotNet.XHarness.iOS/TestProjects/iOSTestProject.cs:5-14 | An iOS project with every skip flag and BuildOnly false |
| TestProjects.TestProject.WithPath | src/Microsoft.DotNet.XHarness.iOS/TestProjects/TestProject.cs:33-37 | Sets the path and IsExecutableProject (true by default) |
| TestProjects.TestProject.IOSWithPath | src/Microsoft.DotNet.XHarness.iOS/TestProjects/iOSTestProject.cs:16-20 | Sets path and IsExecutableProject, and Name to the file name without extension |
| TestProjects.TestProject.Clone | src/Microsoft.DotNet.XHarness.iOS/TestProjects/TestProject.cs:90-100 | A fresh object of the same kind copying exactly path, IsExecutableProject, RestoreNugetsInProject, Name, MTouchExtraArgs, TimeoutMultiplier; every other field, Dependency and ProjectReferences included, at its default |
| TestProjects.TestProject.AsTvOSProject | src/Microsoft.DotNet.XHarness.iOS/TestProjects/TestProject.cs:39-44 | A clone with the tvOS path, or the exception of the path computation |
| TestProjects.TestProject.AsWatchOSProject | src/Microsoft.DotNet.XHarness.iOS/TestProjects/TestProject.cs:46-52 | A clone with the watchOS path, or the exception of the path computation |
| TestProjects.TestProject.AsTodayExtensionProject | src/Microsoft.DotNet.XHarness.iOS/TestProjects/TestProject.cs:54-59 | A clone with the today-extension path, or the exception of the path computation |
| TestProjects.TestProject.Xml | src/Microsoft.DotNet.XHarness.iOS/TestProjects/TestProject.cs:77-88 | Returns the cached document, loading it only when none is cached, and caches it |
| TestProjects.TestProject.GetTodayExtension | src/Microsoft.DotNet.XHarness.iOS/TestProjects/TestProject.cs:62-75 | No reference: null; several: NotImplementedException; one: a new project at the directory combined with the reference |
| TestProjects.CloneResetsFlags | src/Microsoft.DotNet.XHarness.iOS/TestProjects/TestProject.cs:90-100 | A clone keeps the runtime type, resets the iOS flags, document, solution path, NUnit flag, Dependency and ProjectReferences, and cloning is idempotent |
| TestProjects.SuffixedParts | src/Microsoft.DotNet.XHarness.iOS/TestProjects/TestProject.cs:39-59 | The rewritten path keeps the directory and has file name stem + insert + extension |
| TestProjects.TvOSPathParts | src/Microsoft.DotNet.XHarness.iOS/TestProjects/TestProject.cs:39-44 | Fails iff the path is null or has no directory; else same directory, file stem + "-tvos" + extension |
| TestProjects.TodayExtensionPathParts | src/Microsoft.DotNet.XHarness.iOS/TestProjects/TestProject.cs:54-59 | Fails iff the path is null or has no directory; else same directory, file stem + "-today" + extension |
| TestProjects.WatchOSPathParts | src/Microsoft.DotNet.XHarness.iOS/TestProjects/TestProject.cs:46-52 | Same directory, "-watchos" added to the stem only when the stem lacks it |
| TestProjects.WatchOSPathIs | src/Microsoft.DotNet.XHarness.iOS/TestProjects/TestProject.cs:46-52 | The watchOS path in terms of directory, stem and extension |
| TestProjects.WatchOSRewrittenParts | src/Microsoft.DotNet.XHarness.iOS/TestProjects/TestProject.cs:46-52 | For a stable name, the rewritten path has the new stem and the old extension |
| TestProjects.WatchOSStemMarked | src/Microsoft.DotNet.XHarness.iOS/TestProjects/TestProject.cs:48-50 | After the rewrite the stem contains "-watchos" |
| TestProjects.WatchOSPathIdempotent | src/Microsoft.DotNet.XHarness.iOS/TestProjects/TestProject.cs:46-52 | Rewriting the rewritten path changes nothing, for every name whose stem and extension survive the suffix |
| TestProjects.WatchOSPathNotIdempotent | src/Microsoft.DotNet.XHarness.iOS/TestProjects/TestProject.cs:46-52 | "a.b." becomes "a.b-watchos", which becomes "a-watchos.b-watchos" |
| TestProjects.XmlLoadedOnce | src/Microsoft.DotNet.XHarness.iOS/TestProjects/TestProject.cs:77-88 | After the first access the cached document is returned without loading, and is the document first returned |
| TestProjects.TodayExtensionInSameDirectory | src/Microsoft.DotNet.XHarness.iOS/TestProjects/TestProject.cs:62-75 | A single bare reference names a project in the same directory, with the reference as its file name |
| TestProjects.SuffixedPath | src/Microsoft.DotNet.XHarness.iOS/TestProjects/TestProject.cs:39-59 | The tvOS and today-extension rewrite; characterised by `TestProjects.SuffixedParts` |
| TestProjects.TvOSPath | src/Microsoft.DotNet.XHarness.iOS/TestProjects/TestProject.cs:39-44 | Characterised by `TestProjects.TvOSPathParts` |
| TestProjects.WatchOSPath | src/Microsoft.DotNet.XHarness.iOS/TestProjects/TestProject.cs:46-52 | Characterised by `TestProjects.WatchOSPathParts`, `TestProjects.WatchOSPathIdempotent` and `TestProjects.WatchOSPathNotIdempotent` |
| TestProjects.TodayExtensionPath | src/Microsoft.DotNet.XHarness.iOS/TestProjects/TestProject.cs:54-59 | Characterised by `TestProjects.TodayExtensionPathParts` |
| TestProjects.ExtensionProjectPath | src/Microsoft.DotNet.XHarness.iOS/TestProjects/TestProject.cs:62-75 | The referenced project, resolved against the project directory; `TestProjects.TodayExtensionInSameDirectory` states where a bare reference lands |
| TestProjects.LoadedDocument | src/Microsoft.DotNet.XHarness.iOS/TestProjects/TestProject.cs:77-88 | The cached document or a fresh load; `TestProjects.XmlLoadedOnce` states the caching |
| TestProjects.CachedDocument | src/Microsoft.DotNet.XHarness.iOS/TestProjects/TestProject.cs:77-88 | The cache after an access; `TestProjects.XmlLoadedOnce` states that a second access reuses it |
| TestProjects.TodayExtensionOf | src/Microsoft.DotNet.XHarness.iOS/TestProjects/TestProject.cs:62-75 | The GetTodayExtension result; `TestProjects.TestProject.GetTodayExtension` is proved against it and `TestProjects.TodayExtensionInSameDirectory` states its single-reference case |
| TestProjects.CloneState | src/Microsoft.DotNet.XHarness.iOS/TestProjects/TestProject.cs:90-100 | What a clone copies; characterised by `TestProjects.CloneResetsFlags` |
| TestProjects.ProjectName | src/Microsoft.DotNet.XHarness.iOS/TestProjects/iOSTestProject.cs:16-20 | The Name of an iOS project; `TestProjects.TestProject.IOSWithPath` ensures it is set from the path |
| Paths.DirectoryNameIsNormal | src/Microsoft.DotNet.XHarness.iOS/TestProjects/TestProject.cs:42 | A GetDirectoryName result is empty iff the path has no separator, and ends in a separator only when it is the root |
| Paths.CombineInDirectory | src/Microsoft.DotNet.XHarness.iOS/TestProjects/TestProject.cs:42 | Combining a directory with a plain file name gives back that directory and that file name |
| Paths.NameParts | src/Microsoft.DotNet.XHarness.iOS/TestProjects/TestProject.cs:42-50 | A stem followed by a proper extension splits back into that stem and extension |
| Paths.NameExtensionShape | src/Microsoft.DotNet.XHarness.iOS/TestProjects/TestProject.cs:42-50 | An extension is empty or a '.' followed by at least one character without '.'; stem and extension have a separator only if the name has one |
| Paths.DirectoryName | src/Microsoft.DotNet.XHarness.iOS/TestProjects/TestProject.cs:42 | GetDirectoryName; characterised by `Paths.DirectoryNameIsNormal` and `Paths.CombineInDirectory` |
| Paths.Combine | src/Microsoft.DotNet.XHarness.iOS/TestProjects/TestProject.cs:42 | Path.Combine; characterised by `Paths.CombineInDirectory` |
| Paths.Stem | src/Microsoft.DotNet.XHarness.iOS/TestProjects/TestProject.cs:42-50 | GetFileNameWithoutExtension; characterised by `Paths.NameParts` |
| Paths.Extension | src/Microsoft.DotNet.XHarness.iOS/TestProjects/TestProject.cs:42-50 | GetExtension; characterised by `Paths.NameParts` and `Paths.NameExtensionShape` |
| Logging.Header | src/Microsoft.DotNet.XHarness.TestRunners.Common/LogWriter.cs:29-39 | Seven lines, each in square brackets |
| Logging.Lines | src/Microsoft.DotNet.XHarness.TestRunners.Common/LogWriter.cs:57-58 | Two writer operations per message |
| Logging.LogWriter.constructor | src/Microsoft.DotNet.XHarness.TestRunners.Common/LogWriter.cs:24-40 | A null writer falls back to the console; the header only with a device; MinimumLogLevel Info |
| Logging.LogWriter.Console | src/Microsoft.DotNet.XHarness.TestRunners.Common/LogWriter.cs:18 | The console, no header |
| Logging.LogWriter.ForDevice | src/Microsoft.DotNet.XHarness.TestRunners.Common/LogWriter.cs:20 | The console, with the header of the device |
| Logging.LogWriter.ForWriter | src/Microsoft.DotNet.XHarness.TestRunners.Common/LogWriter.cs:22 | The given writer or the console, no header |
| Logging.LogWriter.SetMinimumLogLevel | src/Microsoft.DotNet.XHarness.TestRunners.Common/LogWriter.cs:16 | The setter stores the level |
| Logging.LogWriter.Write | src/Microsoft.DotNet.XHarness.TestRunners.Common/LogWriter.cs:61-70 | The message line and a flush are appended iff the level is not above the minimum |
| Logging.LogWriter.OnError | src/Microsoft.DotNet.XHarness.TestRunners.Common/LogWriter.cs:45 | Errors are always written |
| Logging.LogWriter.OnWarning | src/Microsoft.DotNet.XHarness.TestRunners.Common/LogWriter.cs:47 | Written at the Warning level |
| Logging.LogWriter.OnInfo | src/Microsoft.DotNet.XHarness.TestRunners.Common/LogWriter.cs:49 | Written at the Info level |
| Logging.LogWriter.OnDebug | src/Microsoft.DotNet.XHarness.TestRunners.Common/LogWriter.cs:51 | Written at the Debug level |
| Logging.LogWriter.OnDiagnostic | src/Microsoft.DotNet.XHarness.TestRunners.Common/LogWriter.cs:53 | Written at the Verbose level, so only when the minimum is Verbose |
| Logging.LogWriter.Info | src/Microsoft.DotNet.XHarness.TestRunners.Common/LogWriter.cs:55-59 | Always written and flushed, whatever the minimum |
| Logging.LinesSnoc | src/Microsoft.DotNet.XHarness.TestRunners.Common/LogWriter.cs:57-58 | One more message appends its line and its flush |
| Logging.LinesAt | src/Microsoft.DotNet.XHarness.TestRunners.Common/LogWriter.cs:57-58 | Message i is at position 2i, followed by a flush |
| Logging.GateOrder | src/Microsoft.DotNet.XHarness.TestRunners.Common/LogWriter.cs:63 | A message passes iff its level is at or below the minimum; errors always pass; raising the minimum never suppresses more |
| Logging.DefaultGate | src/Microsoft.DotNet.XHarness.TestRunners.Common/LogWriter.cs:16 | With the default minimum Info, errors, warnings and information pass, debug and diagnostics do not |
| Logging.HeaderIffDevice | src/Microsoft.DotNet.XHarness.TestRunners.Common/LogWriter.cs:29-39 | The output holds exactly seven header lines iff a device was given |
| Logging.Emits | src/Microsoft.DotNet.XHarness.TestRunners.Common/LogWriter.cs:63 | The level gate; characterised by `Logging.GateOrder` and `Logging.DefaultGate` |
| Logging.Preamble | src/Microsoft.DotNet.XHarness.TestRunners.Common/LogWriter.cs:29-39 | The device header; `Logging.HeaderIffDevice` states that it appears iff a device is given |
| EntryPoint.ConnectWriter | src/Microsoft.DotNet.XHarness.iOS.TestRunner/ApplicatonEntryPoint.cs:60-72 | The writer and messages of `Writer` and `ConnectionEvents` |
| EntryPoint.CreateLogger | src/Microsoft.DotNet.XHarness.iOS.TestRunner/ApplicatonEntryPoint.cs:77-78 | A fresh logger on `LoggerSink`, with the device header, at level Info |
| EntryPoint.ApplyIgnoreFiles | src/Microsoft.DotNet.XHarness.iOS.TestRunner/ApplicatonEntryPoint.cs:89-101 | The skip calls of `IgnoreEvents` |
| EntryPoint.WriteResults | src/Microsoft.DotNet.XHarness.iOS.TestRunner/ApplicatonEntryPoint.cs:106-126 | The results go where `ResultsEvent` says, in the jargon `JargonFor` picks, with the log line `ResultsMessage` gives |
| EntryPoint.RunAsync | src/Microsoft.DotNet.XHarness.iOS.TestRunner/ApplicatonEntryPoint.cs:57-131 | NUnit: NotImplementedException after connecting; otherwise connection, ignore files, run, results, two log lines and optional termination, in that order |
| EntryPoint.TerminationRule | src/Microsoft.DotNet.XHarness.iOS.TestRunner/ApplicatonEntryPoint.cs:129-130 | TerminateWithSuccess happens iff asked for, as the last step |
| EntryPoint.WriterFallback | src/Microsoft.DotNet.XHarness.iOS.TestRunner/ApplicatonEntryPoint.cs:60-72 | A TCP writer exists iff a host name is given and the connection succeeds; a failed attempt only prints |
| EntryPoint.LoggerSinkRule | src/Microsoft.DotNet.XHarness.iOS.TestRunner/ApplicatonEntryPoint.cs:77 | The logger writes to the console iff there is no writer or XML is enabled, else to the TCP writer |
| EntryPoint.IgnoreFileGating | src/Microsoft.DotNet.XHarness.iOS.TestRunner/ApplicatonEntryPoint.cs:89-101 | SkipCategories iff the directory is set; SkipTests iff moreover some tests are ignored |
| EntryPoint.JargonRule | src/Microsoft.DotNet.XHarness.iOS.TestRunner/ApplicatonEntryPoint.cs:106-116 | NUnitV2 iff asked for; every other value gives NUnitV3 |
| EntryPoint.ResultsDestination | src/Microsoft.DotNet.XHarness.iOS.TestRunner/ApplicatonEntryPoint.cs:117-126 | With XML enabled the results go to the writer, or the console without one; otherwise to a file |
| EntryPoint.Writer | src/Microsoft.DotNet.XHarness.iOS.TestRunner/ApplicatonEntryPoint.cs:60-72 | The TCP writer or none; characterised by `EntryPoint.WriterFallback` |
| EntryPoint.ConnectionEvents | src/Microsoft.DotNet.XHarness.iOS.TestRunner/ApplicatonEntryPoint.cs:60-72 | The connection attempt; `EntryPoint.ConnectWriter` is proved against it and `EntryPoint.WriterFallback` states when it falls back |
| EntryPoint.LoggerSink | src/Microsoft.DotNet.XHarness.iOS.TestRunner/ApplicatonEntryPoint.cs:77 | Characterised by `EntryPoint.LoggerSinkRule` |
| EntryPoint.IgnoreEvents | src/Microsoft.DotNet.XHarness.iOS.TestRunner/ApplicatonEntryPoint.cs:89-101 | Characterised by `EntryPoint.IgnoreFileGating` |
| EntryPoint.JargonFor | src/Microsoft.DotNet.XHarness.iOS.TestRunner/ApplicatonEntryPoint.cs:106-116 | Characterised by `EntryPoint.JargonRule` |
| EntryPoint.ResultsEvent | src/Microsoft.DotNet.XHarness.iOS.TestRunner/ApplicatonEntryPoint.cs:117-126 | Characterised by `EntryPoint.ResultsDestination`; `EntryPoint.WriteResults` is proved against it |
| EntryPoint.ResultsMessage | src/Microsoft.DotNet.XHarness.iOS.TestRunner/ApplicatonEntryPoint.cs:117-126 | The message after the results; `EntryPoint.WriteResults` is proved against it |
| EntryPoint.Summary | src/Microsoft.DotNet.XHarness.iOS.TestRunner/ApplicatonEntryPoint.cs:128 | The closing totals line; `EntryPoint.RunAsync` ensures it is the last line logged |

## Left out

- The mapping from `TestTarget` to the run mode and to "is a simulator" is not part of this model. The runner receives both directly.
- `AppRunner`'s constructor checks its collaborators for null and throws `ArgumentNullException`. The collaborators are not modelled, and the bundle path is never null here.
- Hardware.ParseVersion: accepts decimal digits only, from 2 to 4 components each at most 2147483647. It does not model the white space and the leading sign that `Version.TryParse` also accepts: a '+', or a '-' on a zero value, since each component is read by `int.TryParse` and only negative values are rejected. So "-0.5" parses to 0.5 in .NET but not here, and `SortKey` then treats that device as `new Version()`.
- The log messages of `FindDevice`, `InstallAsync` and `RunAsync` are not recorded, and neither is the install size computed from the bundle's files.
- The timeouts (`double` minutes and `TimeSpan`) are left out, because they are floating point.
- The listener's start, cancel and dispose are recorded as effects. The test reporter's internals are left out, and its verdict is an input.
- `ParseResult` and the `Result`/`FailureMessage` properties are left out: they are the test reporter's internals.
- `FindCompanionDevice` is an input function that always succeeds. Its own failure is not modelled.
- DNS host addresses, environment variables and the terminal name are inputs of the `Machine` value.
- `XElement.Parse` is an abstract partial parser, and the project loader is an abstract function.
- Console colours and the `ConsoleEx` helper are left out.
- `TestProject.CreateCopyAsync` and `CreateCloneAsync` are left out, because they are file I/O and XML rewriting of project files.
- `LogWriter`'s `objc_msgSend` call is a foreign call. The header's `DateTime.Now` becomes the parameter `now`.
- The CLI commands, the two factories and `TestRunSelector` are not part of this model.
- The xUnit runner itself (running tests, writing results) is recorded as events.
- Case-insensitive result matching is ASCII lower-casing; non-ASCII case folding is not modelled.
- The order of `MinimumLogLevel` is assumed to be Error, Warning, Info, Debug, Verbose. The members of `DeviceClass`, `ListenerTransport` and `TestPlatform` are also assumed. Their declarations are not part of this model.
- `Path.GetFullPath` is a function parameter. Paths are POSIX paths: '/' is the separator, and a '\\' in an extension reference is rewritten to '/' as the code does.
- Runner.AppRunner.RunAsync: the log captures are not recorded as effects at all. That covers `crashReporter.StartCaptureAsync` (AppRunner.cs:436, 473), the simulator system logs started in the foreach over simulators and stopped after the run (lines 404-422, 449-452), and the device log capturer's start, stop and the dispose of its log in the try/finally (lines 469-493). These calls are asynchronous foreign calls whose outcome never reaches the exit code.
- Paths.DirectoryName: runs of '/' inside the result are not collapsed. On Unix, .NET's `Path.GetDirectoryName` normalises "a//b/x.csproj" to "a/b", but the model gives "a//b". This difference carries over to the paths built by `AsTvOSProject`, `AsWatchOSProject`, `AsTodayExtensionProject`, `GetTodayExtension` and the bundle's launch path.
- EntryPoint.RunAsync: `log` holds only what the entry point itself writes through the logger: the header, the results message and the summary. What the xUnit runner writes through the same logger during `Run` (ApplicatonEntryPoint.cs:85, 104) is not recorded, and neither is the call to `GetTestAssemblies()` made before the NUnit check (line 79).
