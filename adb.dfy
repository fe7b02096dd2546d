/** The Android handlers: what they read from `adb devices`, `dumpsys
    battery` and `pm list packages`, and the screenshot they save. */
module Adb {
  import opened Base
  import opened Seqs
  import opened Text
  import opened Paths
  import opened Shell
  import opened Devices

  /** `adb_shell`: a shell command on the device, its output trimmed. */
  function AdbShell(run: Run): Result<string> {
    ShellQuery(run, "执行 adb shell 失败: ")
  }

  // ----------------------------------------------------------- adb devices

  const DevicesHeader: string := "List of devices attached"

  /** One line of `adb devices`: the trimmed line's first two tab-separated
      fields are the id and the status. Blank lines, the header and lines
      without a tab give nothing. */
  function DeviceFromLine(line: string): (r: Option<Device>)
    ensures r.Some? <==> '\t' in Trim(line)
    ensures r.Some? ==> r.value.model.None? && LeadingFields(Trim(line), '\t', r.value.id, r.value.status)
  {
    var t := Trim(line);
    HeaderHasNoTab();
    if t == [] || t == DevicesHeader then None
    else
      match FirstTwoFields(t, '\t')
      case None => None
      case Some((id, status)) => Some(Device(id, status, None))
  }

  /** The header is never taken for a device: it holds no tab. */
  lemma HeaderHasNoTab()
    ensures '\t' !in DevicesHeader
  {
    assert forall i :: 0 <= i < |DevicesHeader| ==> DevicesHeader[i] != '\t';
  }

  /** The lines after the first, which is never read. */
  function ListedLines(stdout: string): seq<string> {
    var lines := Lines(stdout);
    if lines == [] then [] else lines[1..]
  }

  /** The loop of `adb_devices` over the lines after the first. */
  method ParseDevices(stdout: string) returns (devices: seq<Device>)
    ensures devices == FilterMap(ListedLines(stdout), DeviceFromLine)
  {
    var lines := ListedLines(stdout);
    devices := [];
    for i := 0 to |lines|
      invariant devices == FilterMap(lines[..i], DeviceFromLine)
    {
      FilterMapStep(lines, DeviceFromLine, i);
      var device := DeviceFromLine(lines[i]);
      if device.Some? {
        devices := devices + [device.value];
      }
    }
    assert lines[..|lines|] == lines;
  }

  /** `adb_devices`: the start error and a non-zero exit are reported
      with their own prefixes; otherwise the listed devices. */
  method ListDevices(run: Run) returns (r: Result<seq<Device>>)
    ensures run.NotStarted? ==> r == Err("执行 adb devices 失败: " + run.reason)
    ensures run.Ran? && !run.output.success ==> r == Err("adb devices 执行失败: " + run.output.stderr)
    ensures run.Ran? && run.output.success ==> r == Ok(FilterMap(ListedLines(run.output.stdout), DeviceFromLine))
  {
    match run {
      case NotStarted(e) =>
        return Err("执行 adb devices 失败: " + e);
      case Ran(out) =>
        if !out.success {
          return Err("adb devices 执行失败: " + out.stderr);
        }
        var devices := ParseDevices(out.stdout);
        return Ok(devices);
    }
  }

  /** Whatever the first line holds, it lists no device. */
  lemma FirstLineSkipped(first: string, rest: string)
    requires '\n' !in first
    ensures FilterMap(ListedLines(first + "\n" + rest), DeviceFromLine) == FilterMap(Lines(rest), DeviceFromLine)
  {
    LinesCons(first, rest);
  }

  /** Every listed device comes from a later line whose first two fields
      are its id and status, and every later line with a tab lists one. */
  lemma DevicesFromLines(stdout: string, d: Device, i: nat)
    ensures d in FilterMap(ListedLines(stdout), DeviceFromLine) ==>
              d.model.None? && exists k :: 0 <= k < |ListedLines(stdout)|
                                   && LeadingFields(Trim(ListedLines(stdout)[k]), '\t', d.id, d.status)
    ensures i < |ListedLines(stdout)| && '\t' in Trim(ListedLines(stdout)[i]) ==>
              DeviceFromLine(ListedLines(stdout)[i]).value in FilterMap(ListedLines(stdout), DeviceFromLine)
  {
    var lines := ListedLines(stdout);
    if d in FilterMap(lines, DeviceFromLine) {
      FilterMapSound(lines, DeviceFromLine, d);
    }
    if i < |lines| && '\t' in Trim(lines[i]) {
      FilterMapComplete(lines, DeviceFromLine, i);
    }
  }

  // --------------------------------------------------------------- battery

  /** The battery status code of `dumpsys battery`, named. */
  function StatusName(code: string): (r: string)
    ensures r == "charging" <==> code == "2"
    ensures r == "discharging" <==> code == "3" || code == "4"
    ensures r == "full" <==> code == "5"
    ensures r == "unknown" <==> !(code == "2" || code == "3" || code == "4" || code == "5")
  {
    if code == "2" then "charging"
    else if code == "3" || code == "4" then "discharging"
    else if code == "5" then "full"
    else "unknown"
  }

  /** The level a line reports: after `level:`, a number that fits in a
      byte. */
  function LevelReading(line: string): Option<U8> {
    match StripPrefix(Trim(line), "level:")
    case None => None
    case Some(value) => ParseU8(Trim(value))
  }

  /** The status a line reports: after `status:`, whatever the code. */
  function StatusReading(line: string): Option<string> {
    match StripPrefix(Trim(line), "status:")
    case None => None
    case Some(value) => Some(StatusName(Trim(value)))
  }

  /** What one line of the battery dump does to the device info. */
  function BatteryLine(info: DeviceInfo, line: string): DeviceInfo {
    var trimmed := Trim(line);
    var withLevel :=
      match StripPrefix(trimmed, "level:")
      case None => info
      case Some(value) =>
        match ParseU8(Trim(value))
        case None => info
        case Some(level) => info.(batteryLevel := Some(level));
    match StripPrefix(trimmed, "status:")
    case None => withLevel
    case Some(value) => withLevel.(batteryStatus := Some(StatusName(Trim(value))))
  }

  /** The properties read one by one; a query that fails leaves its
      property out. */
  function Properties(model: Run, brand: Run, name: Run, version: Run): DeviceInfo {
    DeviceInfo(OkValue(AdbShell(model)), OkValue(AdbShell(brand)), OkValue(AdbShell(name)),
               OkValue(AdbShell(version)), None, None)
  }

  /** The lines of the battery dump, none when it could not be read. */
  function BatteryLines(battery: Run): seq<string> {
    match AdbShell(battery)
    case Err(_) => []
    case Ok(dump) => Lines(dump)
  }

  /** The body of the battery loop: a `level:` line with a readable
      number sets the level, a `status:` line sets the status. */
  method ReadBatteryLine(info: DeviceInfo, line: string) returns (next: DeviceInfo)
    ensures next == BatteryLine(info, line)
  {
    next := info;
    var trimmed := Trim(line);
    match StripPrefix(trimmed, "level:") {
      case Some(value) =>
        match ParseU8(Trim(value)) {
          case Some(level) =>
            next := next.(batteryLevel := Some(level));
          case None =>
        }
      case None =>
    }
    match StripPrefix(trimmed, "status:") {
      case Some(value) =>
        next := next.(batteryStatus := Some(StatusName(Trim(value))));
      case None =>
    }
  }

  /** `adb_device_info`: the properties, then the battery dump read line
      by line. It never fails. */
  method DeviceInfoOf(model: Run, brand: Run, name: Run, version: Run, battery: Run) returns (info: DeviceInfo)
    ensures info == Fold(BatteryLine, Properties(model, brand, name, version), BatteryLines(battery))
  {
    info := Properties(model, brand, name, version);
    var lines := BatteryLines(battery);
    info := ReadBatteryDump(info, lines);
  }

  /** The battery loop: every line of the dump, in order. */
  method ReadBatteryDump(start: DeviceInfo, lines: seq<string>) returns (info: DeviceInfo)
    ensures info == Fold(BatteryLine, start, lines)
  {
    info := start;
    for i := 0 to |lines|
      invariant info == Fold(BatteryLine, start, lines[..i])
    {
      FoldStep(BatteryLine, start, lines, i);
      info := ReadBatteryLine(info, lines[i]);
    }
    assert lines[..|lines|] == lines;
  }

  function Level(info: DeviceInfo): Option<U8> {
    info.batteryLevel
  }

  function Status(info: DeviceInfo): Option<string> {
    info.batteryStatus
  }

  /** What the properties are made of. */
  function PropertiesOf(info: DeviceInfo): (Option<string>, Option<string>, Option<string>, Option<string>) {
    (info.model, info.brand, info.name, info.version)
  }

  function LevelWrite(line: string): Option<Option<U8>> {
    if LevelReading(line).Some? then Some(LevelReading(line)) else None
  }

  function StatusWrite(line: string): Option<Option<string>> {
    if StatusReading(line).Some? then Some(StatusReading(line)) else None
  }

  function NoWrite(line: string): Option<(Option<string>, Option<string>, Option<string>, Option<string>)> {
    None
  }

  lemma LevelWrites()
    ensures Overwrites(BatteryLine, Level, LevelWrite)
  {
  }

  lemma StatusWrites()
    ensures Overwrites(BatteryLine, Status, StatusWrite)
  {
  }

  lemma PropertiesNotWritten()
    ensures Overwrites(BatteryLine, PropertiesOf, NoWrite)
  {
  }

  /** The level is the one on the last line that reports a readable level;
      it stays unknown when no line does. */
  lemma LevelFromLastReading(start: DeviceInfo, lines: seq<string>, j: nat)
    ensures j < |lines| && LevelReading(lines[j]).Some? && (forall k :: j < k < |lines| ==> LevelReading(lines[k]).None?)
            ==> Fold(BatteryLine, start, lines).batteryLevel == LevelReading(lines[j])
    ensures (forall k :: 0 <= k < |lines| ==> LevelReading(lines[k]).None?)
            ==> Fold(BatteryLine, start, lines).batteryLevel == start.batteryLevel
  {
    LevelWrites();
    if j < |lines| && LevelReading(lines[j]).Some? && (forall k :: j < k < |lines| ==> LevelReading(lines[k]).None?) {
      LastWriteWins(BatteryLine, Level, LevelWrite, start, lines, j);
    }
    if forall k :: 0 <= k < |lines| ==> LevelReading(lines[k]).None? {
      NoWriteKeeps(BatteryLine, Level, LevelWrite, start, lines);
    }
  }

  /** The status is named from the last line that reports one. */
  lemma StatusFromLastReading(start: DeviceInfo, lines: seq<string>, j: nat)
    ensures j < |lines| && StatusReading(lines[j]).Some? && (forall k :: j < k < |lines| ==> StatusReading(lines[k]).None?)
            ==> Fold(BatteryLine, start, lines).batteryStatus == StatusReading(lines[j])
    ensures (forall k :: 0 <= k < |lines| ==> StatusReading(lines[k]).None?)
            ==> Fold(BatteryLine, start, lines).batteryStatus == start.batteryStatus
  {
    StatusWrites();
    if j < |lines| && StatusReading(lines[j]).Some? && (forall k :: j < k < |lines| ==> StatusReading(lines[k]).None?) {
      LastWriteWins(BatteryLine, Status, StatusWrite, start, lines, j);
    }
    if forall k :: 0 <= k < |lines| ==> StatusReading(lines[k]).None? {
      NoWriteKeeps(BatteryLine, Status, StatusWrite, start, lines);
    }
  }

  /** The battery dump never changes the device properties. */
  lemma BatteryKeepsProperties(start: DeviceInfo, lines: seq<string>)
    ensures PropertiesOf(Fold(BatteryLine, start, lines)) == PropertiesOf(start)
  {
    PropertiesNotWritten();
    NoWriteKeeps(BatteryLine, PropertiesOf, NoWrite, start, lines);
  }

  // -------------------------------------------------------------- packages

  /** One line of `pm list packages`: a trimmed line that starts with
      `package:` gives the line with every `package:` removed, trimmed. */
  function PackageFromLine(line: string): (r: Option<string>)
    ensures r.Some? <==> "package:" <= Trim(line)
  {
    var t := Trim(line);
    if "package:" <= t then Some(Trim(RemoveAll(t, "package:"))) else None
  }

  /** A listed package is the rest of its line with every further
      `package:` removed, trimmed; the trimmed rest itself when there is
      no further `package:`. */
  lemma PackageName(line: string, rest: string)
    requires Trim(line) == "package:" + rest
    ensures PackageFromLine(line) == Some(Trim(RemoveAll(rest, "package:")))
    ensures !Contains(rest, "package:") ==> PackageFromLine(line) == Some(Trim(rest))
  {
    RemoveAllLeading("package:", rest);
    if !Contains(rest, "package:") {
      RemoveAllAbsent(rest, "package:");
    }
  }

  /** `adb_list_packages`. */
  function Packages(run: Run): (r: Result<seq<string>>)
    ensures r.Err? <==> Failure(run, "执行 adb shell pm list packages 失败: ").Some?
    ensures r.Err? ==> r.error == Failure(run, "执行 adb shell pm list packages 失败: ").value
    ensures r.Ok? ==> r.value == FilterMap(Lines(run.output.stdout), PackageFromLine)
  {
    match run
    case NotStarted(e) => Err("执行 adb shell pm list packages 失败: " + e)
    case Ran(out) =>
      if !out.success then Err(out.stderr)
      else Ok(FilterMap(Lines(out.stdout), PackageFromLine))
  }

  /** Exactly the lines that start with `package:` are listed. */
  lemma PackagesFromLines(stdout: string, p: string, i: nat)
    ensures p in FilterMap(Lines(stdout), PackageFromLine) ==>
              exists k :: 0 <= k < |Lines(stdout)| && "package:" <= Trim(Lines(stdout)[k])
                          && PackageFromLine(Lines(stdout)[k]) == Some(p)
    ensures i < |Lines(stdout)| && "package:" <= Trim(Lines(stdout)[i]) ==>
              PackageFromLine(Lines(stdout)[i]).value in FilterMap(Lines(stdout), PackageFromLine)
  {
    var lines := Lines(stdout);
    if p in FilterMap(lines, PackageFromLine) {
      FilterMapSound(lines, PackageFromLine, p);
    }
    if i < |lines| && "package:" <= Trim(lines[i]) {
      FilterMapComplete(lines, PackageFromLine, i);
    }
  }

  // ------------------------------------------------------------ screenshot

  /** `adb_screenshot`: the capture's output is saved to the caller's path,
      or to `screenshot_{ts}.png`; `save` tells whether writing a path
      failed, and why. */
  function Screenshot(outputPath: Option<string>, timestamp: U64, capture: Run, save: string -> Option<string>): (r: Result<string>)
    ensures r.Ok? <==> Failure(capture, "执行 adb screencap 失败: ").None?
                       && save(outputPath.GetOr(ScreenshotName(timestamp))).None?
    ensures r.Ok? ==> r.value == outputPath.GetOr(ScreenshotName(timestamp))
    ensures Failure(capture, "执行 adb screencap 失败: ").Some? ==> r == Err(Failure(capture, "执行 adb screencap 失败: ").value)
    ensures Failure(capture, "执行 adb screencap 失败: ").None? && save(outputPath.GetOr(ScreenshotName(timestamp))).Some? ==>
              r == Err("写入截图文件失败: " + save(outputPath.GetOr(ScreenshotName(timestamp))).value)
  {
    match capture
    case NotStarted(e) => Err("执行 adb screencap 失败: " + e)
    case Ran(out) =>
      if !out.success then Err(out.stderr)
      else
        var finalPath := outputPath.GetOr(ScreenshotName(timestamp));
        match save(finalPath)
        case Some(e) => Err("写入截图文件失败: " + e)
        case None => Ok(finalPath)
  }

  // ------------------------------------------------------ screen recording

  const RecordingDir: string := "/sdcard"

  /** The `adb` recording store: empty, recording under `/sdcard`. */
  method NewScreenRecorder() returns (recorder: ScreenRecorder)
    ensures fresh(recorder) && recorder.Valid()
    ensures recorder.remoteDir == RecordingDir && recorder.sessions == map[]
  {
    recorder := new ScreenRecorder(RecordingDir);
  }

  /** `adb_start_screenrecord` on the recording store: the recorder writes
      `/sdcard/screenrecord_{ts}.mp4`, and that path is the answer. */
  function StartScreenRecord(sessions: map<string, RecordSession>, deviceId: Option<string>,
                             timestamp: U64, spawn: string -> Spawn): (o: Outcome<string, RecordSession>)
    ensures var path := RecordingPath(timestamp);
            (o.result.Ok? <==> DeviceKey(deviceId) !in sessions && spawn(path).Spawned?)
            && (o.result.Ok? ==> o.result.value == path
                                 && o.store == sessions[DeviceKey(deviceId) := RecordSession(path, timestamp)])
            && (o.result.Err? ==> o.store == sessions)
  {
    RecordingPathOnDevice(timestamp);
    StartRecording(sessions, DeviceKey(deviceId), RecordingDir, timestamp, spawn)
  }

  /** `/sdcard/screenrecord_{ts}.mp4`. */
  function RecordingPath(ts: U64): string {
    "/sdcard/screenrecord_" + Decimal(ts) + ".mp4"
  }

  /** The recording file sits in the tool's recording directory. */
  lemma RecordingPathOnDevice(ts: U64)
    ensures OnDevice(RecordingDir, RecordingName(ts)) == RecordingPath(ts)
  {
    var d := Decimal(ts);
    var name := "screenrecord_" + d + ".mp4";
    assert RecordingName(ts) == name;
    assert OnDevice(RecordingDir, name) == (RecordingDir + "/" + "screenrecord_") + d + ".mp4";
    assert RecordingDir + "/" + "screenrecord_" == "/sdcard/screenrecord_";
  }

  // ---------------------------------------------------------- certificates

  const CertificateDir: string := "/sdcard/Download"

  /** `adb_push_certificate`: into `/sdcard/Download` unless a directory is
      given; the pushed file keeps the certificate's name. */
  function PushCertificateFile(certPath: string, remoteDir: Option<string>, push: string -> Run): (r: Result<string>)
    ensures r.Ok? ==> r == CertificateDestination(certPath, remoteDir, CertificateDir)
                      && FileName(r.value) == FileName(certPath)
    ensures FileName(certPath).None? ==> r == Err("证书文件名无效")
    ensures FileName(certPath).Some? ==>
              var pushed := Failure(push(CertificateDestination(certPath, remoteDir, CertificateDir).value), "执行 adb push 失败: ");
              (r.Ok? <==> pushed.None?) && (r.Err? ==> r.error == pushed.value)
  {
    var r := PushCertificate(certPath, remoteDir, CertificateDir, "执行 adb push 失败: ", push);
    if r.Ok? then
      CertificateDestinationParts(certPath, remoteDir, CertificateDir);
      r
    else r
  }
}
