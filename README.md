# Device-tool backend: tool resolution, dependency check, adb and hdc handlers

This project models the Rust backend of a desktop device-management tool.
The backend drives Android devices through `adb`, HarmonyOS devices through
`hdc`, and mirrors an Android screen through `scrcpy`. It covers four files:

- `tools.rs` decides which executable runs for a tool name. In order, it tries:
  - the `MDT_<TOOL>_PATH` override;
  - bundled candidates beside the executable;
  - `which`/`where`.
- `dependencies.rs` reports, for `adb`, `hdc` and `idevice_id`, whether the tool was found, which version it printed, and why it is unavailable.
- `adb.rs` and `hdc.rs` implement the device commands:
  - listing devices;
  - reading device properties and the battery dump;
  - listing packages;
  - screenshots;
  - per-device screen-recording sessions;
  - certificate pushing;
  - for `adb`, screen mirroring with its session store and its 2 MiB prebuffer.

Modules:

- `Base` and `Seqs` (`base.dfy`): the `Option` and `Result` types, the integer widths, and the filter-map and fold combinators with their lemmas.
- `Text` (`text.dfy`): the Rust string operations the handlers use (`trim`, `split`, `lines`, `split_whitespace`, `strip_prefix`, `replace`, ASCII case mapping, `parse::<u8>`), each specified and related to the others.
- `Paths` (`paths.dfy`): Unix `Path::file_name`, `Path::join` and `Path::parent`.
- `Shell` (`shell.dfy`): the outcome of a process run or spawn, and how a handler turns it into a result.
- `Tools`, `Dependencies`, `Devices` (what both device tools share: session keys, default file names, recording sessions, certificate destinations), `Mirror`, `Adb`, `Hdc`: the handlers.

Processes, the clock, the environment and the file system are inputs:

- A `Host` value carries the operating system, the environment variables, the executable's path, a file-existence test and the outcome of running a command.
- Handlers receive the outcome of each command they run as a function from the command's path arguments to a `Run` or `Spawn`.

The recording and mirror stores are classes whose `Start`/`Stop` methods update a map field. Each method is proved equal to a pure transition function, and the lemmas about those functions state the store invariants.

Recording stores are keyed by `DeviceKey`; the invariant is that every session records under the store's directory: `/sdcard` for `adb`, `/data/local/tmp` for `hdc`. Mirror stores are keyed by the session's own device.

The mirror prebuffer is a class whose `Append` keeps the last 2 MiB of the stream. Its reading loop (`Pump`) is proved to keep exactly the last 2 MiB of everything read.

## Model

| member | source | states |
|---|---|---|
| Text.ParseU8Decimal | src-tauri/src/adb.rs:241 | `parse::<u8>` reads back a decimal numeral exactly when it is below 256 |
| Text.SecondField | src-tauri/src/hdc.rs:132 | `split(sep).nth(1)` exists exactly when the separator occurs; it is then the text between the first separator and the next one (or the end), so it holds no separator |
| Paths.FileName | src-tauri/src/adb.rs:797-799 | a file name, when there is one, is a single normal path component |
| Paths.FileNameOfTrailing | src-tauri/src/adb.rs:797-799 | a trailing `/` or `/.` leaves the file name unchanged, a trailing `/..` leaves none, and the empty path, `.` and `..` have none |
| Tools.ToolFilename | src-tauri/src/tools.rs:5-11 | the tool name itself on Unix, the tool name followed by `.exe` on Windows |
| Tools.ToolFilenameNormal | src-tauri/src/tools.rs:5-11 | a tool name that is one path component stays one with the Windows suffix |
| Tools.EnvOverrideKey | src-tauri/src/tools.rs:14 | the key is `MDT_`, then each character of the tool upper-cased or `-` mapped to `_`, then `_PATH` |
| Tools.EnvOverrideKeyShared | src-tauri/src/tools.rs:14 | two tools share an override variable iff they agree after upper-casing and mapping `-` to `_` |
| Tools.EnvOverride | src-tauri/src/tools.rs:13-22 | an override is used iff its variable is set and names an existing path, and then it is that value |
| Tools.BundledCandidates | src-tauri/src/tools.rs:24-46 | at most four candidates; the bundled-tools directory, when set, comes first |
| Tools.CandidatesNameTheTool | src-tauri/src/tools.rs:24-46 | every bundled candidate's file name is the platform's file name for the tool |
| Tools.ExeCandidatesNameTheTool | src-tauri/src/tools.rs:32-43 | every candidate next to the executable ends in the tool's file name |
| Tools.BundleCandidatesNameTheTool | src-tauri/src/tools.rs:38-42 | both app-bundle candidates end in the tool's file name |
| Tools.BundledToolCandidates | src-tauri/src/tools.rs:24-46 | the pushes build exactly the candidate list, in order |
| Tools.FirstExisting | src-tauri/src/tools.rs:73-77 | the result is a present candidate with no present candidate before it; none iff no candidate is present |
| Tools.FirstExistingAt | src-tauri/src/tools.rs:73-77 | a present candidate preceded only by absent ones is the one chosen |
| Tools.FindFirstExisting | src-tauri/src/tools.rs:73-77 | the scanning loop returns exactly the first existing candidate |
| Tools.FindInPath | src-tauri/src/tools.rs:48-66 | a path is found iff `which` (`where` on Windows) ran, succeeded and printed non-blank output; the path is that output trimmed |
| Tools.ToolPathSources | src-tauri/src/tools.rs:68-80 | nothing is found iff there is no usable override, no existing candidate and no search-path hit; a found path comes from one of these |
| Tools.ResolveToolPath | src-tauri/src/tools.rs:68-80 | the resolution method computes the override, then the first candidate, then the search-path lookup |
| Tools.OverrideWins | src-tauri/src/tools.rs:69-71 | a usable override wins over everything else |
| Tools.FirstCandidateWins | src-tauri/src/tools.rs:73-77 | without an override, the first existing candidate wins |
| Tools.SearchPathNotConsulted | src-tauri/src/tools.rs:68-80 | once an override or candidate exists, the `which` outcome makes no difference |
| Tools.CommandFor | src-tauri/src/tools.rs:82-88 | the program is the resolved path when there is one, and the bare tool name when nothing resolves |
| Dependencies.DisplayName | src-tauri/src/dependencies.rs:24-29 | the three known tools get their descriptive names; every other name is shown as is |
| Dependencies.FirstWithDigit | src-tauri/src/dependencies.rs:59-60 | the position of the first word holding an ASCII digit; none iff no word holds one |
| Dependencies.VersionToken | src-tauri/src/dependencies.rs:52-62 | the version is a non-empty whitespace-free word of the first line holding a digit; none iff no such word exists |
| Dependencies.VersionIgnoresLaterLines | src-tauri/src/dependencies.rs:54-56 | lines after the first never change the version |
| Dependencies.CheckCommand | src-tauri/src/dependencies.rs:23-82 | not found gives `命令 '<tool>' 未找到` with no path; otherwise success gives the version and no error, and failure gives the trimmed stderr or the start error; status is `available` iff there is no error |
| Dependencies.CheckDependencies | src-tauri/src/dependencies.rs:84-100 | never fails, and reports `adb version`, `hdc -v` and `idevice_id -l` |
| Shell.Failure | src-tauri/src/adb.rs:66-74 | a command fails iff it could not start or exited non-zero |
| Shell.Passthrough | src-tauri/src/adb.rs:262-282 | success iff the command ran with status 0, returning stdout; otherwise the start error behind its prefix, or stderr |
| Shell.ShellQuery | src-tauri/src/adb.rs:56-75 | like a passthrough, with stdout trimmed |
| Shell.OkValue | src-tauri/src/adb.rs:223-226 | `.ok()` keeps the value exactly when the query succeeded |
| Devices.DeviceKey | src-tauri/src/adb.rs:52-54 | the device id, or `default` when none is named |
| Devices.DeviceKeyShared | src-tauri/src/hdc.rs:41-43 | two requests share a session slot iff they name the same device, or one names `default` and the other none |
| Devices.StampedNormal | src-tauri/src/adb.rs:375 | a default file name is a single path component |
| Devices.StampedInjective | src-tauri/src/adb.rs:402 | different timestamps give different file names |
| Devices.RecordingNameNormal | src-tauri/src/adb.rs:448-452 | `screenrecord_<ts>.mp4` is a single path component |
| Devices.ScreenshotNameNormal | src-tauri/src/adb.rs:367-376 | `screenshot_<ts>.png` is a single path component |
| Devices.StartRecording | src-tauri/src/adb.rs:386-426 | succeeds iff the device is not recording and the recorder spawns; a busy device gives `当前设备正在录屏中`; success inserts the session under the key; failure leaves the store unchanged; a failed spawn gives `启动录屏失败: ` and the spawn error |
| Devices.StopRecording | src-tauri/src/adb.rs:429-476 | an idle device gives `当前设备没有正在进行的录屏` and no change; otherwise the session is removed whatever the pull does, and the result is the local path iff the pull succeeds; a failed pull gives `拉取录屏文件失败: ` and the start error, or the pull's stderr |
| Devices.RecordingTransitionsKeepPlace | src-tauri/src/hdc.rs:321-342 | start and stop keep every session recording under the store's device directory |
| Devices.DefaultTargetIsRemoteName | src-tauri/src/adb.rs:448-452 | without an output path, the pulled file keeps the recording's file name on the device |
| Devices.StartThenStop | src-tauri/src/adb.rs:416-442 | a successful start then a stop on the same device restores the store |
| Devices.ScreenRecorder.constructor | src-tauri/src/adb.rs:42-45 | the store starts empty under its device directory |
| Devices.ScreenRecorder.Start | src-tauri/src/hdc.rs:305-345 | the store and result follow `StartRecording`, keeping the invariant |
| Devices.ScreenRecorder.Stop | src-tauri/src/hdc.rs:348-397 | the store and result follow `StopRecording`, keeping the invariant |
| Devices.CertificateDestination | src-tauri/src/adb.rs:797-803 | an invalid file name is an error; otherwise the directory without trailing `/`, then `/`, then the file name |
| Devices.CertificateDestinationParts | src-tauri/src/hdc.rs:457-463 | the destination keeps the certificate's file name, and its parent is the chosen directory (or `/`) |
| Devices.PushCertificate | src-tauri/src/adb.rs:790-807 | succeeds iff the destination is valid and the push succeeds, returning the destination; otherwise the error is the invalid-name error or the push's failure |
| Mirror.ReportedVersion | src-tauri/src/adb.rs:132-143 | the second word of the first line, when the first word is `scrcpy` |
| Mirror.ScrcpyVersion | src-tauri/src/adb.rs:120-144 | a non-blank pinned version wins, trimmed; otherwise the version `scrcpy --version` reports |
| Mirror.ServerVersion | src-tauri/src/adb.rs:497 | never blank; the found version when there is one, `3.3.4` otherwise |
| Mirror.MirrorUrlInjective | src-tauri/src/adb.rs:570 | different listener ports give different URLs |
| Mirror.FirstFailureIsFirst | src-tauri/src/adb.rs:495-569 | the reported failure is a failing step with only successful steps before it; none iff every step succeeds |
| Mirror.LaunchMirror | src-tauri/src/adb.rs:495-570 | a launch succeeds only with a bound port and a listening socket, recording the device, the forwarded port and the listener's URL |
| Mirror.LaunchFailsAtFirstStep | src-tauri/src/adb.rs:495-569 | a launch fails iff some step fails, and then with the first failing step's error |
| Mirror.StartMirror | src-tauri/src/adb.rs:479-707 | a device already mirroring gets its running URL and no change; otherwise it succeeds iff the launch does, storing the session; failure changes nothing |
| Mirror.StopMirror | src-tauri/src/adb.rs:710-737 | an idle device gives `当前设备没有正在进行的镜像`; otherwise the session is removed and returned |
| Mirror.MirrorTransitionsKeyedByDevice | src-tauri/src/adb.rs:694-704 | start and stop keep every mirror under its own device's key |
| Mirror.RestartReturnsRunningUrl | src-tauri/src/adb.rs:487-491 | once a mirror runs, starting it again returns the same URL whatever a new launch would do |
| Mirror.StartThenStopMirror | src-tauri/src/adb.rs:694-718 | a successful start then a stop restores the store |
| Mirror.MirrorStore.constructor | src-tauri/src/adb.rs:47-50 | the mirror store starts empty |
| Mirror.MirrorStore.Start | src-tauri/src/adb.rs:479-707 | the store and result follow `StartMirror`, keeping the invariant |
| Mirror.MirrorStore.Stop | src-tauri/src/adb.rs:710-737 | the store and result follow `StopMirror`, keeping the invariant |
| Mirror.Window | src-tauri/src/adb.rs:601-604 | the longest suffix of the stream no longer than 2 MiB |
| Mirror.WindowOfLongSuffix | src-tauri/src/adb.rs:601-604 | dropping bytes before the window does not change it |
| Mirror.WindowAppend | src-tauri/src/adb.rs:598-605 | trimming after every chunk keeps the same bytes as trimming once at the end |
| Mirror.Prebuffer.constructor | src-tauri/src/adb.rs:574 | the prebuffer starts empty |
| Mirror.Prebuffer.Append | src-tauri/src/adb.rs:598-605 | after a chunk, the cache is the window of the old cache followed by the chunk |
| Mirror.Prebuffer.Pump | src-tauri/src/adb.rs:590-614 | after the reading loop, the cache is the window of everything read |
| Adb.DeviceFromLine | src-tauri/src/adb.rs:203-215 | a device iff the trimmed line holds a tab, with id and status its first two tab-separated fields and no model |
| Adb.ParseDevices | src-tauri/src/adb.rs:202-216 | the loop keeps exactly the devices of the lines after the first, in order |
| Adb.ListDevices | src-tauri/src/adb.rs:182-219 | a start failure gives `执行 adb devices 失败: `, a non-zero exit gives `adb devices 执行失败: ` with stderr, and success gives the parsed devices |
| Adb.FirstLineSkipped | src-tauri/src/adb.rs:202 | the first line never lists a device, whatever it holds |
| Adb.DevicesFromLines | src-tauri/src/adb.rs:202-216 | a device is listed iff a later line holds a tab, and its fields lead that line |
| Adb.StatusName | src-tauri/src/adb.rs:246-252 | `2` is charging, `3` or `4` discharging, `5` full, and everything else unknown, each iff |
| Adb.ReadBatteryLine | src-tauri/src/adb.rs:239-254 | the loop body applies one line's level and status readings |
| Adb.ReadBatteryDump | src-tauri/src/adb.rs:238-255 | the loop leaves the fold of the line step over every line of the dump, in order |
| Adb.DeviceInfoOf | src-tauri/src/adb.rs:222-259 | the info is the properties folded with every battery line, in order |
| Adb.LevelWrites | src-tauri/src/adb.rs:240-244 | a line sets the level exactly when it has a readable `level:` reading, and otherwise leaves it |
| Adb.StatusWrites | src-tauri/src/adb.rs:245-254 | a line sets the status exactly when it starts with `status:` |
| Adb.PropertiesNotWritten | src-tauri/src/adb.rs:237-256 | no battery line changes a property |
| Adb.LevelFromLastReading | src-tauri/src/adb.rs:238-244 | the level is the last readable reading, or the starting level when there is none |
| Adb.StatusFromLastReading | src-tauri/src/adb.rs:245-254 | the status is named from the last status line, or is the starting one when there is none |
| Adb.BatteryKeepsProperties | src-tauri/src/adb.rs:237-256 | the whole dump leaves the four properties as they were read |
| Adb.PackageFromLine | src-tauri/src/adb.rs:330-337 | a package iff the trimmed line starts with `package:` |
| Adb.PackageName | src-tauri/src/adb.rs:330-335 | for a line starting with `package:`, the package is the rest with every further `package:` removed, trimmed; the trimmed rest when there is none |
| Adb.Packages | src-tauri/src/adb.rs:308-341 | a failure gives the prefixed start error or stderr; success gives the packages of the lines, in order |
| Adb.PackagesFromLines | src-tauri/src/adb.rs:328-338 | a package is listed iff some line starts with `package:` and yields it |
| Adb.Screenshot | src-tauri/src/adb.rs:344-383 | succeeds iff the capture succeeds and the file is written, returning the caller's path or `screenshot_<ts>.png`; a failed capture gives its failure and a failed write gives `写入截图文件失败: ` and the write error |
| Adb.PushCertificateFile | src-tauri/src/adb.rs:790-807 | the destination defaults to `/sdcard/Download` and keeps the certificate's file name; an invalid file name is refused before any push; otherwise it succeeds iff the push does, failing with `执行 adb push 失败: ` and the start error or the push's stderr |
| Adb.NewScreenRecorder | src-tauri/src/adb.rs:42-45 | the `adb` recording store starts empty, recording under `/sdcard` |
| Adb.StartScreenRecord | src-tauri/src/adb.rs:386-426 | the recorder writes `/sdcard/screenrecord_<ts>.mp4`, which is the answer and the stored session's path |
| Hdc.TargetFromLine | src-tauri/src/hdc.rs:88-106 | a target iff the trimmed line is non-blank and does not mention `targets` in any case; `offline` iff a word mentions it |
| Hdc.TargetIdLeads | src-tauri/src/hdc.rs:93-95 | the id is the line's first word |
| Hdc.ParseTargets | src-tauri/src/hdc.rs:87-107 | the loop keeps exactly the targets of all lines, in order |
| Hdc.ListTargets | src-tauri/src/hdc.rs:67-110 | a start failure gives `执行 hdc list targets 失败: `, a non-zero exit gives `hdc list targets 执行失败: ` with stderr, and success gives the parsed targets |
| Hdc.TargetsFromLines | src-tauri/src/hdc.rs:87-107 | a target is listed iff some line is non-blank and does not mention `targets` |
| Hdc.StatusWordKnown | src-tauri/src/hdc.rs:140-145 | the status is one of four words: `charging`, `discharging` and `full` are kept, and anything else becomes `unknown` |
| Hdc.LevelWrites | src-tauri/src/hdc.rs:131-137 | a line sets the level exactly when it has a readable level reading |
| Hdc.StatusWrites | src-tauri/src/hdc.rs:138-148 | a line sets the status exactly when it mentions `status` and holds `:` |
| Hdc.LevelFromLastReading | src-tauri/src/hdc.rs:129-137 | the level is the last readable reading, or the starting level |
| Hdc.StatusFromLastReading | src-tauri/src/hdc.rs:138-148 | the status comes from the last status line, or is the starting one |
| Hdc.NoColonNoChange | src-tauri/src/hdc.rs:132-139 | a line without `:` changes nothing |
| Hdc.ColonlessLinesIgnored | src-tauri/src/hdc.rs:129-149 | trailing lines without `:` never change the device info |
| Hdc.ReadLevel | src-tauri/src/hdc.rs:131-137 | on a trimmed, lower-cased line the level branch yields exactly the line's level reading |
| Hdc.ReadStatus | src-tauri/src/hdc.rs:138-148 | on a trimmed, lower-cased line the status branch yields exactly the line's status reading |
| Hdc.ReadBatteryLine | src-tauri/src/hdc.rs:130-148 | the loop body trims and lower-cases the line, then applies its level and status readings |
| Hdc.ReadBatteryDump | src-tauri/src/hdc.rs:129-149 | the loop leaves the fold of the line step over every line of the dump, in order |
| Hdc.DeviceInfoOf | src-tauri/src/hdc.rs:113-153 | the info is the properties folded with every battery line, in order |
| Hdc.PackageFromLine | src-tauri/src/hdc.rs:224-237 | a package only from a line holding `:`; it is non-empty, contains `.` and holds no `:` |
| Hdc.PackageBeforeColon | src-tauri/src/hdc.rs:227-233 | the package is the trimmed text before the first `:` when it is non-empty and contains `.` |
| Hdc.Packages | src-tauri/src/hdc.rs:202-241 | a failure gives the prefixed start error or stderr; success gives the packages of the lines, in order |
| Hdc.Screenshot | src-tauri/src/hdc.rs:244-302 | succeeds iff the snapshot to `/data/local/tmp/screenshot_<ts>.png` and its pull both succeed, returning the local path; the snapshot's failure, or else the pull's (`拉取截图文件失败: ` and the start error, or its stderr), is the error |
| Hdc.ScreenshotKeepsName | src-tauri/src/hdc.rs:254-276 | the default local file has the name of the file taken on the device |
| Hdc.PushCertificateFile | src-tauri/src/hdc.rs:450-467 | the destination defaults to `/data/local/tmp` and keeps the certificate's file name; an invalid file name is refused before any push; otherwise it succeeds iff the push does, failing with `执行 hdc file push 失败: ` and the start error or the push's stderr |
| Hdc.NewScreenRecorder | src-tauri/src/hdc.rs:36-39 | the `hdc` recording store starts empty, recording under `/data/local/tmp` |
| Hdc.StartScreenRecord | src-tauri/src/hdc.rs:305-345 | the recorder writes `/data/local/tmp/screenrecord_<ts>.mp4`, which is the answer and the stored session's path |
| Hdc.OpenCertInstaller | src-tauri/src/hdc.rs:470-494 | only a command that cannot start is an error; a non-zero exit still succeeds, with a message naming the pushed path |

## Left out

- Processes, threads, sockets, the WebSocket server, the per-client channels and the stderr logger thread are not modelled. Each command's outcome is an input (`Run`, `Spawn`, the port and listener outcomes), as a deterministic function of the paths it is given.
- The global `Mutex`/`OnceLock` stores are left out, and so are their lock-poisoning errors (`录屏状态锁定失败`, `镜像状态锁定失败`). Each store is one class instance.
- The clock is a `timestamp` parameter. The environment and the file system are the `Host` record's `env` and `pathExists`.
- Output is taken as already decoded. Lossy UTF-8 decoding is not modelled.
- Case mapping (`to_uppercase`, `to_lowercase`) is modelled on ASCII letters only. Non-ASCII characters are kept as they are.
- Paths follow Unix semantics: `/` is the only separator. `Parent` does not model `.` components or Windows prefixes.
- Command argument vectors are not modelled beyond the paths a command is given. As a result, the device selector (`-s`/`-t`) and the scrcpy server's option list are not modelled.
- `Mirror.ServerVersion` gives the version the server is started with, but it is not tied to the launch, because the server's arguments are not modelled.
- `resolve_scrcpy_server_path` (adb.rs:82-118) is an input to the launch (`serverPath`).
- `adb_install`, `adb_uninstall`, `adb_push_file`, `adb_pull_file`, `adb_open_cert_installer`, `hdc_install`, `hdc_uninstall`, `hdc_push_file` and `hdc_pull_file` all run one command and return its output. All are covered by `Shell.Passthrough` with their own start-error prefix.
- The `当前设备镜像已启动` branch (adb.rs:492) cannot be reached: the key was just found in the store. The stderr-take error (adb.rs:557-560) cannot happen after a piped spawn. Both are left out.
- Effects whose results are ignored are not modelled: the `rm -f` clean-up after a pull, the child's kill and wait, and `forward --remove`.
- `connect_with_retry` and the fan-out of chunks to connected clients are left out. The prebuffer is modelled, and so is the order of its updates.
- Mirror.StopMirror: returns the removed session so its contract can name it. The handler itself returns `()`.
- Hdc.PackageFromLine: its contract gives one direction. `Hdc.PackageBeforeColon` states the exact result for every line holding `:`.
- The TypeScript front end is not part of this model.
