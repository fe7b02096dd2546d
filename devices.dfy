/** What the Android (`adb`) and HarmonyOS (`hdc`) handlers share: the
    device records they report, the key under which a device's session is
    stored, the names of the files they pull, the screen-recording session
    store and the remote path a certificate is pushed to. */
module Devices {
  import opened Base
  import opened Text
  import opened Paths
  import opened Shell

  /** One line of a device listing; the model is never filled in. */
  datatype Device = Device(id: string, status: string, model: Option<string>)

  /** Device properties and the battery state read from its dump. */
  datatype DeviceInfo = DeviceInfo(
    model: Option<string>,
    brand: Option<string>,
    name: Option<string>,
    version: Option<string>,
    batteryLevel: Option<U8>,
    batteryStatus: Option<string>)

  /** The result of a handler that changes a per-device session store,
      together with the store it leaves behind. */
  datatype Outcome<T, S> = Outcome(result: Result<T>, store: map<string, S>)

  // ------------------------------------------------------------ device key

  /** `device_key`: the device's own id, or `default` when no device is
      named. */
  function DeviceKey(deviceId: Option<string>): (key: string)
    ensures deviceId.Some? ==> key == deviceId.value
    ensures deviceId.None? ==> key == "default"
  {
    deviceId.GetOr("default")
  }

  /** Two requests share a session slot exactly when they name the same
      device, or when one names no device and the other names a device
      whose id is `default`. */
  lemma DeviceKeyShared(a: Option<string>, b: Option<string>)
    ensures DeviceKey(a) == DeviceKey(b)
        <==> (a == b || (a == None && b == Some("default")) || (a == Some("default") && b == None))
  {
  }

  // ------------------------------------------------------ timestamped names

  /** `{prefix}{ts}{suffix}`, the shape of every default file name. */
  function Stamped(prefix: string, ts: U64, suffix: string): string {
    prefix + Decimal(ts) + suffix
  }

  /** `screenshot_{ts}.png`. */
  function ScreenshotName(ts: U64): string {
    Stamped("screenshot_", ts, ".png")
  }

  /** `screenrecord_{ts}.mp4`. */
  function RecordingName(ts: U64): string {
    Stamped("screenrecord_", ts, ".mp4")
  }

  /** A default name is a single path component. */
  lemma {:induction false} StampedNormal(prefix: string, ts: U64, suffix: string)
    requires prefix != [] && '/' !in prefix && '/' !in suffix && prefix != "." && prefix != ".."
    ensures NormalName(Stamped(prefix, ts, suffix))
  {
    var d := Decimal(ts);
    var s := Stamped(prefix, ts, suffix);
    assert s[..|prefix|] == prefix;
    forall i | 0 <= i < |s| ensures s[i] != '/' {
      if i < |prefix| {
        assert s[i] == prefix[i];
      } else if i < |prefix| + |d| {
        assert s[i] == d[i - |prefix|];
        assert IsAsciiDigit(d[i - |prefix|]);
      } else {
        assert s[i] == suffix[i - |prefix| - |d|];
      }
    }
  }

  /** Different timestamps give different names: the timestamp can be
      read back from the name. */
  lemma {:induction false} StampedInjective(prefix: string, a: U64, b: U64, suffix: string)
    requires Stamped(prefix, a, suffix) == Stamped(prefix, b, suffix)
    ensures a == b
  {
    var s := Stamped(prefix, a, suffix);
    var da, db := Decimal(a), Decimal(b);
    assert |da| == |db|;
    assert s[|prefix|..|prefix| + |da|] == da;
    assert Stamped(prefix, b, suffix)[|prefix|..|prefix| + |db|] == db;
  }

  lemma RecordingNameNormal(ts: U64)
    ensures NormalName(RecordingName(ts))
  {
    StampedNormal("screenrecord_", ts, ".mp4");
  }

  lemma ScreenshotNameNormal(ts: U64)
    ensures NormalName(ScreenshotName(ts))
  {
    StampedNormal("screenshot_", ts, ".png");
  }

  /** `{dir}/{name}`: where a file is written on the device. */
  function OnDevice(dir: string, name: string): string {
    dir + "/" + name
  }

  // ------------------------------------------------- screen-record sessions

  /** A recording in progress: the file the device writes and when it
      started (seconds since the Unix epoch). */
  datatype RecordSession = RecordSession(remotePath: string, startTime: U64)

  const AlreadyRecording: string := "当前设备正在录屏中"
  const NotRecording: string := "当前设备没有正在进行的录屏"

  /** Every session records to `{remoteDir}/screenrecord_{start}.mp4`. */
  predicate RecordedUnder(sessions: map<string, RecordSession>, remoteDir: string) {
    forall k :: k in sessions ==> sessions[k].remotePath == OnDevice(remoteDir, RecordingName(sessions[k].startTime))
  }

  /** Starting a recording: refused while the device already records;
      otherwise the recorder is spawned on a fresh remote file, and only
      when it starts is the session stored. `spawn` is the outcome of
      starting the recorder on a given remote file. */
  function StartRecording(sessions: map<string, RecordSession>, key: string, remoteDir: string,
                          timestamp: U64, spawn: string -> Spawn): (o: Outcome<string, RecordSession>)
    ensures o.result.Ok? <==> key !in sessions && spawn(OnDevice(remoteDir, RecordingName(timestamp))).Spawned?
    ensures o.result.Ok? ==> (o.result.value == OnDevice(remoteDir, RecordingName(timestamp))
                              && o.store == sessions[key := RecordSession(o.result.value, timestamp)])
    ensures o.result.Err? ==> o.store == sessions
    ensures key in sessions ==> o.result == Err(AlreadyRecording)
    ensures key !in sessions && spawn(OnDevice(remoteDir, RecordingName(timestamp))).SpawnFailed? ==>
              o.result == Err("启动录屏失败: " + spawn(OnDevice(remoteDir, RecordingName(timestamp))).reason)
  {
    if key in sessions then Outcome(Err(AlreadyRecording), sessions)
    else
      var remotePath := OnDevice(remoteDir, RecordingName(timestamp));
      match spawn(remotePath)
      case SpawnFailed(e) => Outcome(Err("启动录屏失败: " + e), sessions)
      case Spawned => Outcome(Ok(remotePath), sessions[key := RecordSession(remotePath, timestamp)])
  }

  /** The local file a stopped recording is pulled to: the caller's path,
      or `screenrecord_{start}.mp4`. */
  function RecordingTarget(session: RecordSession, outputPath: Option<string>): string {
    outputPath.GetOr(RecordingName(session.startTime))
  }

  /** Stopping a recording: refused when the device does not record;
      otherwise the session is dropped before the file is pulled, so it is
      gone even when the pull fails. `pull` is the outcome of copying a
      remote file to a local path. */
  function StopRecording(sessions: map<string, RecordSession>, key: string,
                         outputPath: Option<string>, pull: (string, string) -> Run): (o: Outcome<string, RecordSession>)
    ensures key !in sessions ==> o == Outcome(Err(NotRecording), sessions)
    ensures key in sessions ==> o.store == sessions - {key}
    ensures o.result.Ok? <==> key in sessions && var run := pull(sessions[key].remotePath, RecordingTarget(sessions[key], outputPath));
                              run.Ran? && run.output.success
    ensures o.result.Ok? ==> o.result.value == RecordingTarget(sessions[key], outputPath)
    ensures key in sessions && o.result.Err? ==>
              o.result.error == Failure(pull(sessions[key].remotePath, RecordingTarget(sessions[key], outputPath)),
                                        "拉取录屏文件失败: ").value
  {
    if key !in sessions then Outcome(Err(NotRecording), sessions)
    else
      var session := sessions[key];
      var rest := sessions - {key};
      var finalPath := RecordingTarget(session, outputPath);
      match pull(session.remotePath, finalPath)
      case NotStarted(e) => Outcome(Err("拉取录屏文件失败: " + e), rest)
      case Ran(out) => Outcome(if out.success then Ok(finalPath) else Err(out.stderr), rest)
  }

  /** Both transitions keep every session recording under the store's
      directory. */
  lemma RecordingTransitionsKeepPlace(sessions: map<string, RecordSession>, key: string, remoteDir: string,
                                      timestamp: U64, spawn: string -> Spawn,
                                      outputPath: Option<string>, pull: (string, string) -> Run)
    requires RecordedUnder(sessions, remoteDir)
    ensures RecordedUnder(StartRecording(sessions, key, remoteDir, timestamp, spawn).store, remoteDir)
    ensures RecordedUnder(StopRecording(sessions, key, outputPath, pull).store, remoteDir)
  {
  }

  /** Without an explicit output path, the pulled file keeps the name the
      device gave it. */
  lemma DefaultTargetIsRemoteName(sessions: map<string, RecordSession>, remoteDir: string, key: string)
    requires RecordedUnder(sessions, remoteDir) && key in sessions
    ensures Some(RecordingTarget(sessions[key], None)) == FileName(sessions[key].remotePath)
  {
    var ts := sessions[key].startTime;
    RecordingNameNormal(ts);
    FileNameOfChild(remoteDir, RecordingName(ts));
  }

  /** A start followed by a stop on the same device leaves the store as it
      was, whatever the pull does, and the pull copies the file the
      recorder was started on. */
  lemma StartThenStop(sessions: map<string, RecordSession>, key: string, remoteDir: string,
                      timestamp: U64, spawn: string -> Spawn,
                      outputPath: Option<string>, pull: (string, string) -> Run)
    requires key !in sessions
    requires spawn(OnDevice(remoteDir, RecordingName(timestamp))).Spawned?
    ensures var started := StartRecording(sessions, key, remoteDir, timestamp, spawn).store;
            var stopped := StopRecording(started, key, outputPath, pull);
            var target := outputPath.GetOr(RecordingName(timestamp));
            stopped.store == sessions
            && (stopped.result.Ok? <==> pull(OnDevice(remoteDir, RecordingName(timestamp)), target).Ran?
                                        && pull(OnDevice(remoteDir, RecordingName(timestamp)), target).output.success)
  {
    var started := StartRecording(sessions, key, remoteDir, timestamp, spawn).store;
    assert started - {key} == sessions;
  }

  /** The screen-recording store of one tool (`adb` or `hdc`), keyed by
      device. */
  class ScreenRecorder {
    /** The device directory recordings are written to. */
    const remoteDir: string
    var sessions: map<string, RecordSession>

    ghost predicate Valid()
      reads this
    {
      RecordedUnder(sessions, remoteDir)
    }

    constructor (remoteDir: string)
      ensures Valid()
      ensures this.remoteDir == remoteDir && sessions == map[]
    {
      this.remoteDir := remoteDir;
      sessions := map[];
    }

    /** `start_screenrecord`. */
    method Start(deviceId: Option<string>, timestamp: U64, spawn: string -> Spawn) returns (r: Result<string>)
      requires Valid()
      modifies this
      ensures Valid()
      ensures var o := StartRecording(old(sessions), DeviceKey(deviceId), remoteDir, timestamp, spawn);
              r == o.result && sessions == o.store
    {
      var key := DeviceKey(deviceId);
      if key in sessions {
        return Err(AlreadyRecording);
      }
      var remotePath := OnDevice(remoteDir, RecordingName(timestamp));
      match spawn(remotePath) {
        case SpawnFailed(e) =>
          return Err("启动录屏失败: " + e);
        case Spawned =>
      }
      sessions := sessions[key := RecordSession(remotePath, timestamp)];
      return Ok(remotePath);
    }

    /** `stop_screenrecord`. */
    method Stop(deviceId: Option<string>, outputPath: Option<string>, pull: (string, string) -> Run) returns (r: Result<string>)
      requires Valid()
      modifies this
      ensures Valid()
      ensures var o := StopRecording(old(sessions), DeviceKey(deviceId), outputPath, pull);
              r == o.result && sessions == o.store
    {
      var key := DeviceKey(deviceId);
      if key !in sessions {
        return Err(NotRecording);
      }
      var session := sessions[key];
      sessions := sessions - {key};
      var finalPath := outputPath.GetOr(RecordingName(session.startTime));
      match pull(session.remotePath, finalPath) {
        case NotStarted(e) =>
          r := Err("拉取录屏文件失败: " + e);
        case Ran(out) =>
          r := if out.success then Ok(finalPath) else Err(out.stderr);
      }
    }
  }

  // ------------------------------------------------------------ certificates

  /** Where `push_certificate` puts a certificate: the certificate's file
      name under the requested directory (or the tool's default one), with
      the directory's trailing separators dropped; an error when the
      certificate path has no file name. */
  function CertificateDestination(certPath: string, remoteDir: Option<string>, defaultDir: string): (r: Result<string>)
    ensures r.Err? <==> FileName(certPath).None?
    ensures r.Err? ==> r.error == "证书文件名无效"
    ensures r.Ok? ==> r.value == TrimEndMatches(remoteDir.GetOr(defaultDir), '/') + "/" + FileName(certPath).value
  {
    match FileName(certPath)
    case None => Err("证书文件名无效")
    case Some(fileName) =>
      var baseDir := remoteDir.GetOr(defaultDir);
      Ok(TrimEndMatches(baseDir, '/') + "/" + fileName)
  }

  /** The pushed certificate keeps its file name, and sits directly in the
      chosen directory (the root when that directory is all separators). */
  lemma CertificateDestinationParts(certPath: string, remoteDir: Option<string>, defaultDir: string)
    requires FileName(certPath).Some?
    ensures var r := CertificateDestination(certPath, remoteDir, defaultDir);
            var dir := TrimEndMatches(remoteDir.GetOr(defaultDir), '/');
            r.Ok? && FileName(r.value) == FileName(certPath)
            && Parent(r.value) == Some(if dir == [] then "/" else dir)
  {
    var name := FileName(certPath).value;
    var dir := TrimEndMatches(remoteDir.GetOr(defaultDir), '/');
    FileNameOfChild(dir, name);
    ParentOfChild(dir, name);
  }

  /** `push_certificate`: the destination is worked out first; the push
      (`push` is its outcome for a destination) fails the handler with its
      own error, and otherwise the destination is returned. */
  function PushCertificate(certPath: string, remoteDir: Option<string>, defaultDir: string,
                           pushStartError: string, push: string -> Run): (r: Result<string>)
    ensures r.Ok? <==> CertificateDestination(certPath, remoteDir, defaultDir).Ok?
                       && Passthrough(push(CertificateDestination(certPath, remoteDir, defaultDir).value), pushStartError).Ok?
    ensures r.Ok? ==> r == CertificateDestination(certPath, remoteDir, defaultDir)
    ensures r.Err? ==> var dest := CertificateDestination(certPath, remoteDir, defaultDir);
                       r.error == if dest.Err? then dest.error else Failure(push(dest.value), pushStartError).value
  {
    match CertificateDestination(certPath, remoteDir, defaultDir)
    case Err(e) => Err(e)
    case Ok(remotePath) =>
      match Passthrough(push(remotePath), pushStartError)
      case Err(e) => Err(e)
      case Ok(_) => Ok(remotePath)
  }
}
