/** The HarmonyOS handlers: what they read from `hdc list targets`, the
    battery dump and `bm dump -n`, the screenshot they pull, and the answer
    of the certificate installer. */
module Hdc {
  import opened Base
  import opened Seqs
  import opened Text
  import opened Paths
  import opened Shell
  import opened Devices

  /** `hdc_shell`: a shell command on the device, its output trimmed. */
  function HdcShell(run: Run): Result<string> {
    ShellQuery(run, "执行 hdc shell 失败: ")
  }

  /** The device directory screenshots are taken to. */
  const TempDir: string := "/data/local/tmp"

  // ------------------------------------------------------ hdc list targets

  /** Some word of the line mentions `offline`, in any case. */
  predicate AnyOffline(words: seq<string>) {
    exists i :: 0 <= i < |words| && Contains(ToLower(words[i]), "offline")
  }

  /** One line of `hdc list targets`: any non-blank line that does not
      mention `targets` (in any case) is a device, named by its first word
      and `offline` when some word says so. */
  function TargetFromLine(line: string): (r: Option<Device>)
    ensures r.Some? <==> Trim(line) != [] && !Contains(ToLower(Trim(line)), "targets")
    ensures r.Some? ==> var words := SplitWhitespace(Trim(line));
                        words != [] && r.value.id == words[0] && r.value.model.None?
                        && (r.value.status == "offline" <==> AnyOffline(words))
                        && (r.value.status == "offline" || r.value.status == "device")
  {
    var t := Trim(line);
    if t == [] || Contains(ToLower(t), "targets") then None
    else
      var parts := SplitWhitespace(t);
      if parts == [] then None
      else Some(Device(parts[0], if AnyOffline(parts) then "offline" else "device", None))
  }

  /** The id is the line's leading word. */
  lemma TargetIdLeads(line: string)
    requires TargetFromLine(line).Some?
    ensures var t := Trim(line); var id := TargetFromLine(line).value.id;
            id != [] && NoWhitespace(id) && id <= t && (|id| == |t| || IsWhitespace(t[|id|]))
  {
  }

  /** The loop of `hdc_list_targets` over every line. */
  method ParseTargets(stdout: string) returns (devices: seq<Device>)
    ensures devices == FilterMap(Lines(stdout), TargetFromLine)
  {
    var lines := Lines(stdout);
    devices := [];
    for i := 0 to |lines|
      invariant devices == FilterMap(lines[..i], TargetFromLine)
    {
      FilterMapStep(lines, TargetFromLine, i);
      match TargetFromLine(lines[i]) {
        case Some(device) =>
          devices := devices + [device];
        case None =>
      }
    }
    assert lines[..|lines|] == lines;
  }

  /** `hdc_list_targets`. */
  method ListTargets(run: Run) returns (r: Result<seq<Device>>)
    ensures run.NotStarted? ==> r == Err("执行 hdc list targets 失败: " + run.reason)
    ensures run.Ran? && !run.output.success ==> r == Err("hdc list targets 执行失败: " + run.output.stderr)
    ensures run.Ran? && run.output.success ==> r == Ok(FilterMap(Lines(run.output.stdout), TargetFromLine))
  {
    match run {
      case NotStarted(e) =>
        return Err("执行 hdc list targets 失败: " + e);
      case Ran(out) =>
        if !out.success {
          return Err("hdc list targets 执行失败: " + out.stderr);
        }
        var devices := ParseTargets(out.stdout);
        return Ok(devices);
    }
  }

  /** Every line that is not blank and does not mention `targets` lists a
      device, and every listed device comes from such a line. */
  lemma TargetsFromLines(stdout: string, d: Device, i: nat)
    ensures d in FilterMap(Lines(stdout), TargetFromLine) ==>
              exists k :: 0 <= k < |Lines(stdout)| && TargetFromLine(Lines(stdout)[k]) == Some(d)
    ensures i < |Lines(stdout)| && Trim(Lines(stdout)[i]) != [] && !Contains(ToLower(Trim(Lines(stdout)[i])), "targets") ==>
              TargetFromLine(Lines(stdout)[i]).value in FilterMap(Lines(stdout), TargetFromLine)
  {
    var lines := Lines(stdout);
    if d in FilterMap(lines, TargetFromLine) {
      FilterMapSound(lines, TargetFromLine, d);
    }
    if i < |lines| && TargetFromLine(lines[i]).Some? {
      FilterMapComplete(lines, TargetFromLine, i);
    }
  }

  // --------------------------------------------------------------- battery

  /** A battery status word: the three known ones are kept, anything else
      is `unknown`. */
  function StatusWord(word: string): string {
    match word
    case "charging" => "charging"
    case "discharging" => "discharging"
    case "full" => "full"
    case _ => "unknown"
  }

  /** Only the three known words survive; anything else reads as
      `unknown`. */
  lemma StatusWordKnown(word: string)
    ensures var r := StatusWord(word);
            (r == "charging" || r == "discharging" || r == "full" || r == "unknown")
            && (word == "charging" || word == "discharging" || word == "full" ==> r == word)
            && (r != "unknown" ==> r == word)
  {
  }

  /** The level in a trimmed, lower-cased line: when the line mentions
      `level`, its second `:`-field, provided that is a number fitting in a
      byte. */
  function LevelIn(t: string): Option<U8> {
    if !Contains(t, "level") then None
    else
      match SecondField(t, ':')
      case None => None
      case Some(value) => ParseU8(Trim(value))
  }

  /** The status in a trimmed, lower-cased line: when the line mentions
      `status`, its second `:`-field, named. */
  function StatusIn(t: string): Option<string> {
    if !Contains(t, "status") then None
    else
      match SecondField(t, ':')
      case None => None
      case Some(value) => Some(StatusWord(Trim(value)))
  }

  /** A level and a status read from one line, when there are any,
      replace the ones read so far. */
  function Apply(info: DeviceInfo, level: Option<U8>, status: Option<string>): DeviceInfo {
    var withLevel := if level.Some? then info.(batteryLevel := level) else info;
    if status.Some? then withLevel.(batteryStatus := status) else withLevel
  }

  /** What one line of the battery dump does to the device info: the line
      is trimmed and lower-cased, then the level and the status it reports
      are applied. */
  function BatteryLine(info: DeviceInfo, line: string): DeviceInfo {
    Apply(info, LevelReading(line), StatusReading(line))
  }

  /** The level a line reports, if it reports a readable one. */
  function LevelReading(line: string): Option<U8> {
    LevelIn(ToLower(Trim(line)))
  }

  /** The status a line reports, if it mentions one. */
  function StatusReading(line: string): Option<string> {
    StatusIn(ToLower(Trim(line)))
  }

  function Level(info: DeviceInfo): Option<U8> {
    info.batteryLevel
  }

  function Status(info: DeviceInfo): Option<string> {
    info.batteryStatus
  }

  function LevelWrite(line: string): Option<Option<U8>> {
    if LevelReading(line).Some? then Some(LevelReading(line)) else None
  }

  function StatusWrite(line: string): Option<Option<string>> {
    if StatusReading(line).Some? then Some(StatusReading(line)) else None
  }

  lemma LevelWrites()
    ensures Overwrites(BatteryLine, Level, LevelWrite)
  {
  }

  lemma StatusWrites()
    ensures Overwrites(BatteryLine, Status, StatusWrite)
  {
  }

  /** The level is the one on the last line that reports a readable level
      (a line can report both a level and a status); it stays unknown when
      no line does. */
  lemma LevelFromLastReading(start: DeviceInfo, lines: seq<string>, j: nat)
    ensures j < |lines| && LevelReading(lines[j]).Some? && (forall k :: j < k < |lines| ==> LevelReading(lines[k]).None?)
            ==> Fold(BatteryLine, start, lines).batteryLevel == LevelReading(lines[j])
    ensures (forall k :: 0 <= k < |lines| ==> LevelReading(lines[k]).None?)
            ==> Fold(BatteryLine, start, lines).batteryLevel == start.batteryLevel
  {
    LevelWrites();
    if j < |lines| && LevelReading(lines[j]).Some? && (forall k :: j < k < |lines| ==> LevelReading(lines[k]).None?) {
      LastWriteWins(BatteryLine, Level, LevelWrite, start, lines, j);
    }
    if forall k :: 0 <= k < |lines| ==> LevelReading(lines[k]).None? {
      NoWriteKeeps(BatteryLine, Level, LevelWrite, start, lines);
    }
  }

  /** The status is taken from the last line that reports one. */
  lemma StatusFromLastReading(start: DeviceInfo, lines: seq<string>, j: nat)
    ensures j < |lines| && StatusReading(lines[j]).Some? && (forall k :: j < k < |lines| ==> StatusReading(lines[k]).None?)
            ==> Fold(BatteryLine, start, lines).batteryStatus == StatusReading(lines[j])
    ensures (forall k :: 0 <= k < |lines| ==> StatusReading(lines[k]).None?)
            ==> Fold(BatteryLine, start, lines).batteryStatus == start.batteryStatus
  {
    StatusWrites();
    if j < |lines| && StatusReading(lines[j]).Some? && (forall k :: j < k < |lines| ==> StatusReading(lines[k]).None?) {
      LastWriteWins(BatteryLine, Status, StatusWrite, start, lines, j);
    }
    if forall k :: 0 <= k < |lines| ==> StatusReading(lines[k]).None? {
      NoWriteKeeps(BatteryLine, Status, StatusWrite, start, lines);
    }
  }

  /** A line without `:` changes nothing. */
  lemma NoColonNoChange(info: DeviceInfo, line: string)
    requires ':' !in line
    ensures BatteryLine(info, line) == info
  {
    var trimmed := Trim(line);
    var t := ToLower(trimmed);
    assert ':' !in trimmed;
    forall i | 0 <= i < |t| ensures t[i] != ':' {
      assert t[i] == LowerChar(trimmed[i]);
      assert trimmed[i] in trimmed;
    }
  }

  /** The level half of the battery loop's body, on the trimmed,
      lower-cased line. */
  method ReadLevel(t: string) returns (level: Option<U8>)
    ensures level == LevelIn(t)
  {
    level := None;
    if Contains(t, "level") {
      var value := SecondField(t, ':');
      if value.Some? {
        level := ParseU8(Trim(value.value));
      }
    }
  }

  /** The status half of the battery loop's body. */
  method ReadStatus(t: string) returns (status: Option<string>)
    ensures status == StatusIn(t)
  {
    status := None;
    if Contains(t, "status") {
      var value := SecondField(t, ':');
      if value.Some? {
        status := Some(StatusWord(Trim(value.value)));
      }
    }
  }

  /** The body of the battery loop. */
  method ReadBatteryLine(info: DeviceInfo, line: string) returns (next: DeviceInfo)
    ensures next == BatteryLine(info, line)
  {
    next := info;
    var t := ToLower(Trim(line));
    var level := ReadLevel(t);
    if level.Some? {
      next := next.(batteryLevel := level);
    }
    var status := ReadStatus(t);
    if status.Some? {
      next := next.(batteryStatus := status);
    }
  }

  function Properties(model: Run, brand: Run, name: Run, version: Run): DeviceInfo {
    DeviceInfo(OkValue(HdcShell(model)), OkValue(HdcShell(brand)), OkValue(HdcShell(name)),
               OkValue(HdcShell(version)), None, None)
  }

  function BatteryLines(battery: Run): seq<string> {
    match HdcShell(battery)
    case Err(_) => []
    case Ok(dump) => Lines(dump)
  }

  /** `hdc_device_info`: the properties, then the battery dump (`hidumper
      -s 3301`) read line by line. It never fails. */
  method DeviceInfoOf(model: Run, brand: Run, name: Run, version: Run, battery: Run) returns (info: DeviceInfo)
    ensures info == Fold(BatteryLine, Properties(model, brand, name, version), BatteryLines(battery))
  {
    info := Properties(model, brand, name, version);
    var lines := BatteryLines(battery);
    info := ReadBatteryDump(info, lines);
  }

  /** The battery loop: every line of the dump, in order. */
  method ReadBatteryDump(start: DeviceInfo, lines: seq<string>) returns (info: DeviceInfo)
    ensures info == Fold(BatteryLine, start, lines)
  {
    info := start;
    for i := 0 to |lines|
      invariant info == Fold(BatteryLine, start, lines[..i])
    {
      FoldStep(BatteryLine, start, lines, i);
      info := ReadBatteryLine(info, lines[i]);
    }
    assert lines[..|lines|] == lines;
  }

  /** Lines without `:` can be dropped from the dump: they never change the
      result. */
  lemma {:induction false} ColonlessLinesIgnored(start: DeviceInfo, a: seq<string>, b: seq<string>)
    requires forall k :: 0 <= k < |b| ==> ':' !in b[k]
    ensures Fold(BatteryLine, start, a + b) == Fold(BatteryLine, start, a)
    decreases |b|
  {
    if b == [] {
      assert a + b == a;
    } else {
      var n := |b| - 1;
      assert (a + b)[..|a + b| - 1] == a + b[..n];
      assert (a + b)[|a + b| - 1] == b[n];
      ColonlessLinesIgnored(start, a, b[..n]);
      NoColonNoChange(Fold(BatteryLine, start, a + b[..n]), b[n]);
    }
  }

  // -------------------------------------------------------------- packages

  /** One line of `bm dump -n`: a trimmed line holding `:` gives its first
      `:`-field, trimmed, when that is not empty and holds a `.`. */
  function PackageFromLine(line: string): (r: Option<string>)
    ensures r.Some? ==> ':' in Trim(line) && r.value != [] && '.' in r.value && ':' !in r.value
                        && !IsWhitespace(r.value[0]) && !IsWhitespace(r.value[|r.value| - 1])
  {
    var t := Trim(line);
    if ':' in t then
      var parts := SplitOn(t, ':');
      if |parts| >= 2 then
        var first := parts[0];
        var pkg := Trim(first);
        if pkg != [] && '.' in pkg then
          FirstFieldHasNoSep(t, ':');
          Some(pkg)
        else None
      else None
    else None
  }

  /** The package is the text before the line's first `:`, trimmed, and
      is listed whenever that text holds a `.`. */
  lemma PackageBeforeColon(line: string, before: string, after: string)
    requires Trim(line) == before + ":" + after && ':' !in before
    ensures PackageFromLine(line) == if Trim(before) != [] && '.' in Trim(before) then Some(Trim(before)) else None
  {
    var t := Trim(line);
    assert t == before + [':'] + after;
    SplitAppend(before, after, ':');
    SplitOnSingle(before, ':');
    assert ':' in t by {
      assert t[|before|] == ':';
    }
  }

  /** `hdc_list_packages`. */
  function Packages(run: Run): (r: Result<seq<string>>)
    ensures r.Err? <==> Failure(run, "执行 hdc shell bm dump -n 失败: ").Some?
    ensures r.Err? ==> r.error == Failure(run, "执行 hdc shell bm dump -n 失败: ").value
    ensures r.Ok? ==> r.value == FilterMap(Lines(run.output.stdout), PackageFromLine)
  {
    match run
    case NotStarted(e) => Err("执行 hdc shell bm dump -n 失败: " + e)
    case Ran(out) =>
      if !out.success then Err(out.stderr)
      else Ok(FilterMap(Lines(out.stdout), PackageFromLine))
  }

  // ------------------------------------------------------------ screenshot

  /** `hdc_screenshot`: the screen is captured to
      `/data/local/tmp/screenshot_{ts}.png` on the device (`snapshot` is
      the outcome for a remote file), then pulled (`pull`, for a remote
      and a local file) to the caller's path or to `screenshot_{ts}.png`. */
  function Screenshot(outputPath: Option<string>, timestamp: U64,
                      snapshot: string -> Run, pull: (string, string) -> Run): (r: Result<string>)
    ensures var remote := OnDevice(TempDir, ScreenshotName(timestamp));
            var local := outputPath.GetOr(ScreenshotName(timestamp));
            (r.Ok? <==> Failure(snapshot(remote), "执行 hdc shell snapshot_display 失败: ").None?
                        && Failure(pull(remote, local), "拉取截图文件失败: ").None?)
            && (r.Ok? ==> r.value == local)
            && (Failure(snapshot(remote), "执行 hdc shell snapshot_display 失败: ").Some? ==>
                  r == Err(Failure(snapshot(remote), "执行 hdc shell snapshot_display 失败: ").value))
            && (Failure(snapshot(remote), "执行 hdc shell snapshot_display 失败: ").None?
                && Failure(pull(remote, local), "拉取截图文件失败: ").Some? ==>
                  r == Err(Failure(pull(remote, local), "拉取截图文件失败: ").value))
  {
    var remotePath := OnDevice(TempDir, ScreenshotName(timestamp));
    match snapshot(remotePath)
    case NotStarted(e) => Err("执行 hdc shell snapshot_display 失败: " + e)
    case Ran(out) =>
      if !out.success then Err(out.stderr)
      else
        var finalPath := outputPath.GetOr(ScreenshotName(timestamp));
        match pull(remotePath, finalPath)
        case NotStarted(e) => Err("拉取截图文件失败: " + e)
        case Ran(pulled) => if pulled.success then Ok(finalPath) else Err(pulled.stderr)
  }

  /** Without an explicit path, the local screenshot has the name of the
      file taken on the device. */
  lemma ScreenshotKeepsName(timestamp: U64)
    ensures FileName(OnDevice(TempDir, ScreenshotName(timestamp))) == Some(ScreenshotName(timestamp))
  {
    ScreenshotNameNormal(timestamp);
    FileNameOfChild(TempDir, ScreenshotName(timestamp));
  }

  // ------------------------------------------------------ screen recording

  /** The `hdc` recording store: empty, recording under `/data/local/tmp`. */
  method NewScreenRecorder() returns (recorder: ScreenRecorder)
    ensures fresh(recorder) && recorder.Valid()
    ensures recorder.remoteDir == TempDir && recorder.sessions == map[]
  {
    recorder := new ScreenRecorder(TempDir);
  }

  /** `hdc_start_screenrecord` on the recording store: the recorder writes
      `/data/local/tmp/screenrecord_{ts}.mp4`, and that path is the
      answer. */
  function StartScreenRecord(sessions: map<string, RecordSession>, deviceId: Option<string>,
                             timestamp: U64, spawn: string -> Spawn): (o: Outcome<string, RecordSession>)
    ensures var path := RecordingPath(timestamp);
            (o.result.Ok? <==> DeviceKey(deviceId) !in sessions && spawn(path).Spawned?)
            && (o.result.Ok? ==> o.result.value == path
                                 && o.store == sessions[DeviceKey(deviceId) := RecordSession(path, timestamp)])
            && (o.result.Err? ==> o.store == sessions)
  {
    RecordingPathOnDevice(timestamp);
    StartRecording(sessions, DeviceKey(deviceId), TempDir, timestamp, spawn)
  }

  /** `/data/local/tmp/screenrecord_{ts}.mp4`. */
  function RecordingPath(ts: U64): string {
    "/data/local/tmp/screenrecord_" + Decimal(ts) + ".mp4"
  }

  /** The recording file sits in the tool's recording directory. */
  lemma RecordingPathOnDevice(ts: U64)
    ensures OnDevice(TempDir, RecordingName(ts)) == RecordingPath(ts)
  {
    var d := Decimal(ts);
    var name := "screenrecord_" + d + ".mp4";
    assert RecordingName(ts) == name;
    assert OnDevice(TempDir, name) == (TempDir + "/" + "screenrecord_") + d + ".mp4";
    assert TempDir + "/" + "screenrecord_" == "/data/local/tmp/screenrecord_";
  }

  // ---------------------------------------------------------- certificates

  /** `hdc_push_certificate`: into `/data/local/tmp` unless a directory is
      given; the pushed file keeps the certificate's name. */
  function PushCertificateFile(certPath: string, remoteDir: Option<string>, push: string -> Run): (r: Result<string>)
    ensures r.Ok? ==> r == CertificateDestination(certPath, remoteDir, TempDir)
                      && FileName(r.value) == FileName(certPath)
    ensures FileName(certPath).None? ==> r == Err("证书文件名无效")
    ensures FileName(certPath).Some? ==>
              var pushed := Failure(push(CertificateDestination(certPath, remoteDir, TempDir).value), "执行 hdc file push 失败: ");
              (r.Ok? <==> pushed.None?) && (r.Err? ==> r.error == pushed.value)
  {
    var r := PushCertificate(certPath, remoteDir, TempDir, "执行 hdc file push 失败: ", push);
    if r.Ok? then
      CertificateDestinationParts(certPath, remoteDir, TempDir);
      r
    else r
  }

  /** `hdc_open_cert_installer`: only a command that cannot be started is
      an error; when the settings page does not open, the answer tells the
      user where the certificate is so that they can install it by hand. */
  function OpenCertInstaller(remotePath: string, run: Run): (r: Result<string>)
    ensures r.Err? <==> run.NotStarted?
    ensures r.Err? ==> r.error == "打开证书安装向导失败: " + run.reason
    ensures run.Ran? && run.output.success ==> r == Ok(run.output.stdout)
    ensures run.Ran? && !run.output.success ==> Contains(r.value, remotePath)
  {
    match run
    case NotStarted(e) => Err("打开证书安装向导失败: " + e)
    case Ran(out) =>
      if out.success then Ok(out.stdout)
      else
        ContainsInfix("证书已推送到设备: ", remotePath, "，请手动在设备上安装");
        Ok("证书已推送到设备: " + remotePath + "，请手动在设备上安装")
  }
}
