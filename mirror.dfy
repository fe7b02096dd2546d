/** Screen mirroring over `scrcpy`: which server version is asked for, the
    chain of steps that launches a mirror (each of which can fail), the
    per-device mirror store, and the buffer of recent stream bytes that a
    newly connected viewer receives first. */
module Mirror {
  import opened Base
  import opened Seqs
  import opened Text
  import opened Shell
  import opened Tools
  import opened Devices

  // --------------------------------------------------------- server version

  /** The environment variable that pins the scrcpy server version. */
  const VersionKey: string := "MDT_SCRCPY_SERVER_VERSION"

  /** The version asked for when none can be found. */
  const DefaultServerVersion: string := "3.3.4"

  /** The words of the first line of `scrcpy --version`, trimmed; none when
      nothing was printed. */
  function VersionLineWords(stdout: string): seq<string> {
    var lines := Lines(stdout);
    if lines == [] then [] else SplitWhitespace(Trim(lines[0]))
  }

  /** The version in `scrcpy --version` output: the second word of the
      first line, provided the first word is `scrcpy`. */
  function ReportedVersion(stdout: string): (r: Option<string>)
    ensures r.Some? <==> |VersionLineWords(stdout)| >= 2 && VersionLineWords(stdout)[0] == "scrcpy"
    ensures r.Some? ==> r.value == VersionLineWords(stdout)[1] && r.value != [] && NoWhitespace(r.value)
  {
    var words := VersionLineWords(stdout);
    if |words| < 2 || words[0] != "scrcpy" then None
    else
      TrimWord(words[1]);
      var version := Trim(words[1]);
      if version == [] then None else Some(version)
  }

  /** What `scrcpy --version` does, run through the resolved program. */
  function VersionRun(host: Host): Run {
    host.run(CommandFor("scrcpy", host), ["--version"])
  }

  /** `resolve_scrcpy_version`: a non-blank pinned version (trimmed) wins;
      otherwise what `scrcpy --version` reports when it runs and exits
      with status 0. */
  function ScrcpyVersion(host: Host): (r: Option<string>)
    ensures VersionKey in host.env && Trim(host.env[VersionKey]) != [] ==> r == Some(Trim(host.env[VersionKey]))
    ensures !(VersionKey in host.env && Trim(host.env[VersionKey]) != []) ==>
              r == if VersionRun(host).Ran? && VersionRun(host).output.success
                   then ReportedVersion(VersionRun(host).output.stdout) else None
    ensures r.Some? ==> Trimmed(r.value)
  {
    if VersionKey in host.env && Trim(host.env[VersionKey]) != [] then Some(Trim(host.env[VersionKey]))
    else
      match VersionRun(host)
      case NotStarted(_) => None
      case Ran(out) => if !out.success then None else ReportedVersion(out.stdout)
  }

  /** The version the server is started with: never blank. */
  function ServerVersion(host: Host): (v: string)
    ensures Trimmed(v)
    ensures ScrcpyVersion(host).None? ==> v == DefaultServerVersion
    ensures ScrcpyVersion(host).Some? ==> v == ScrcpyVersion(host).value
  {
    var found := ScrcpyVersion(host);
    if found.Some? then found.value
    else
      assert Trimmed(DefaultServerVersion) by {
        assert DefaultServerVersion[0] == '3' && DefaultServerVersion[4] == '4';
      }
      DefaultServerVersion
  }

  // ------------------------------------------------------------ the launch

  /** `pick_free_port`: a port the system handed out, or the step that
      failed. */
  datatype PortPick = PortBound(port: U16) | PortBindFailed(reason: string) | PortAddressFailed(reason: string)

  /** The viewer-facing listener: bound, made non-blocking and asked for
      its port, or the step that failed. */
  datatype Listener =
    | Listening(port: U16)
    | ListenBindFailed(reason: string)
    | NonblockingFailed(reason: string)
    | ListenAddressFailed(reason: string)

  /** What launching a mirror meets, step by step: the server file found
      on this machine, pushing it (for a given file), the local port,
      forwarding it (for a given port), starting the server and opening
      the listener. */
  datatype MirrorLaunch = MirrorLaunch(
    serverPath: Option<string>,
    push: string -> Run,
    freePort: PortPick,
    forward: U16 -> Run,
    server: Spawn,
    listener: Listener)

  /** A running mirror: the device it was started for, the forwarded port
      and the address viewers connect to. */
  datatype MirrorSession = MirrorSession(deviceId: Option<string>, forwardPort: U16, url: string)

  const NoServer: string := "未找到 scrcpy-server，请安装 scrcpy 或设置 MDT_SCRCPY_SERVER_PATH"
  const NotMirroring: string := "当前设备没有正在进行的镜像"

  /** `ws://127.0.0.1:{port}/mirror`. */
  function MirrorUrl(port: U16): string {
    Stamped("ws://127.0.0.1:", port, "/mirror")
  }

  /** Listeners on different ports are announced under different URLs. */
  lemma MirrorUrlInjective(a: U16, b: U16)
    requires MirrorUrl(a) == MirrorUrl(b)
    ensures a == b
  {
    StampedInjective("ws://127.0.0.1:", a, b, "/mirror");
  }

  // Each step's failure, given that the steps before it succeeded.

  function ServerFailure(l: MirrorLaunch): Option<string> {
    if l.serverPath.None? then Some(NoServer) else None
  }

  function PushFailure(l: MirrorLaunch): Option<string> {
    if l.serverPath.Some? then Failure(l.push(l.serverPath.value), "推送 scrcpy-server 失败: ") else None
  }

  function PortFailure(l: MirrorLaunch): Option<string> {
    match l.freePort
    case PortBound(_) => None
    case PortBindFailed(e) => Some("分配本地端口失败: " + e)
    case PortAddressFailed(e) => Some("获取本地端口失败: " + e)
  }

  function ForwardFailure(l: MirrorLaunch): Option<string> {
    if l.freePort.PortBound? then Failure(l.forward(l.freePort.port), "建立 adb forward 失败: ") else None
  }

  function ServerStartFailure(l: MirrorLaunch): Option<string> {
    if l.server.SpawnFailed? then Some("启动 scrcpy server 失败: " + l.server.reason) else None
  }

  function ListenerFailure(l: MirrorLaunch): Option<string> {
    match l.listener
    case Listening(_) => None
    case ListenBindFailed(e) => Some("启动镜像服务失败: " + e)
    case NonblockingFailed(e) => Some("设置镜像服务失败: " + e)
    case ListenAddressFailed(e) => Some("获取镜像服务地址失败: " + e)
  }

  /** The first failure in a list of steps. */
  function FirstFailure(steps: seq<Option<string>>): Option<string> {
    if steps == [] then None
    else if steps[0].Some? then steps[0]
    else FirstFailure(steps[1..])
  }

  /** `FirstFailure` reports a failing step before which every step
      succeeded, and nothing only when every step succeeded. */
  lemma {:induction false} FirstFailureIsFirst(steps: seq<Option<string>>)
    ensures FirstFailure(steps).None? <==> forall i :: 0 <= i < |steps| ==> steps[i].None?
    ensures FirstFailure(steps).Some? ==>
              exists i :: 0 <= i < |steps| && steps[i] == FirstFailure(steps)
                          && forall j :: 0 <= j < i ==> steps[j].None?
  {
    if steps != [] && steps[0].None? {
      var rest := steps[1..];
      FirstFailureIsFirst(rest);
      assert forall j :: 1 <= j < |steps| ==> steps[j] == rest[j - 1];
      if FirstFailure(rest).Some? {
        var i :| 0 <= i < |rest| && rest[i] == FirstFailure(rest) && forall j :: 0 <= j < i ==> rest[j].None?;
        assert steps[i + 1] == FirstFailure(steps);
      }
    }
  }

  /** The failures of the launch steps in the order the handler takes
      them. */
  function LaunchSteps(l: MirrorLaunch): seq<Option<string>> {
    [ServerFailure(l), PushFailure(l), PortFailure(l), ForwardFailure(l), ServerStartFailure(l), ListenerFailure(l)]
  }

  /** The launch half of `adb_start_mirror`, each step returning early on
      failure: the server file, its push, a free port, the forward, the
      server and the listener, then the session. */
  function LaunchMirror(deviceId: Option<string>, l: MirrorLaunch): (r: Result<MirrorSession>)
    ensures r.Ok? ==> l.freePort.PortBound? && l.listener.Listening?
                      && r.value == MirrorSession(deviceId, l.freePort.port, MirrorUrl(l.listener.port))
  {
    match l.serverPath
    case None => Err(NoServer)
    case Some(serverPath) =>
      match Passthrough(l.push(serverPath), "推送 scrcpy-server 失败: ")
      case Err(e) => Err(e)
      case Ok(_) =>
        match l.freePort
        case PortBindFailed(e) => Err("分配本地端口失败: " + e)
        case PortAddressFailed(e) => Err("获取本地端口失败: " + e)
        case PortBound(forwardPort) =>
          match Passthrough(l.forward(forwardPort), "建立 adb forward 失败: ")
          case Err(e) => Err(e)
          case Ok(_) =>
            match l.server
            case SpawnFailed(e) => Err("启动 scrcpy server 失败: " + e)
            case Spawned =>
              match l.listener
              case ListenBindFailed(e) => Err("启动镜像服务失败: " + e)
              case NonblockingFailed(e) => Err("设置镜像服务失败: " + e)
              case ListenAddressFailed(e) => Err("获取镜像服务地址失败: " + e)
              case Listening(port) => Ok(MirrorSession(deviceId, forwardPort, MirrorUrl(port)))
  }

  lemma FirstFailureCons(x: Option<string>, rest: seq<Option<string>>)
    ensures FirstFailure([x] + rest) == if x.Some? then x else FirstFailure(rest)
  {
    assert ([x] + rest)[1..] == rest;
  }

  /** Six steps' failures, taken in order. */
  lemma FirstOfSix(a: Option<string>, b: Option<string>, c: Option<string>,
                   d: Option<string>, e: Option<string>, f: Option<string>)
    ensures FirstFailure([a, b, c, d, e, f])
         == if a.Some? then a else if b.Some? then b else if c.Some? then c
            else if d.Some? then d else if e.Some? then e else f
  {
    FirstFailureCons(a, [b, c, d, e, f]);
    FirstFailureCons(b, [c, d, e, f]);
    FirstFailureCons(c, [d, e, f]);
    FirstFailureCons(d, [e, f]);
    FirstFailureCons(e, [f]);
    FirstFailureCons(f, []);
  }

  /** A launch fails exactly when one of its steps fails, and then with
      the failure of the first step that did. */
  lemma LaunchFailsAtFirstStep(deviceId: Option<string>, l: MirrorLaunch)
    ensures LaunchMirror(deviceId, l).Err? <==> FirstFailure(LaunchSteps(l)).Some?
    ensures LaunchMirror(deviceId, l).Err? ==> LaunchMirror(deviceId, l).error == FirstFailure(LaunchSteps(l)).value
  {
    FirstOfSix(ServerFailure(l), PushFailure(l), PortFailure(l), ForwardFailure(l), ServerStartFailure(l), ListenerFailure(l));
  }

  // ------------------------------------------------------------ the store

  /** Every mirror is stored under the key of the device it was started
      for. */
  predicate KeyedByDevice(sessions: map<string, MirrorSession>) {
    forall k :: k in sessions ==> DeviceKey(sessions[k].deviceId) == k
  }

  /** `adb_start_mirror`: a device that already mirrors gets its running
      mirror's URL back and nothing changes; otherwise the mirror is
      launched and stored only when every step succeeds. */
  function StartMirror(sessions: map<string, MirrorSession>, deviceId: Option<string>, l: MirrorLaunch): (o: Outcome<string, MirrorSession>)
    ensures DeviceKey(deviceId) in sessions ==> o == Outcome(Ok(sessions[DeviceKey(deviceId)].url), sessions)
    ensures DeviceKey(deviceId) !in sessions ==> (o.result.Ok? <==> LaunchMirror(deviceId, l).Ok?)
    ensures DeviceKey(deviceId) !in sessions && o.result.Ok? ==>
              o.result.value == LaunchMirror(deviceId, l).value.url
              && o.store == sessions[DeviceKey(deviceId) := LaunchMirror(deviceId, l).value]
    ensures o.result.Err? ==> o.store == sessions && o.result.error == LaunchMirror(deviceId, l).error
  {
    var key := DeviceKey(deviceId);
    if key in sessions then Outcome(Ok(sessions[key].url), sessions)
    else
      match LaunchMirror(deviceId, l)
      case Err(e) => Outcome(Err(e), sessions)
      case Ok(session) => Outcome(Ok(session.url), sessions[key := session])
  }

  /** `adb_stop_mirror`: refused when the device does not mirror; otherwise
      the session is removed, and handed back so that the forward on its
      port can be removed on the device it was started for. */
  function StopMirror(sessions: map<string, MirrorSession>, deviceId: Option<string>): (o: Outcome<MirrorSession, MirrorSession>)
    ensures DeviceKey(deviceId) !in sessions ==> o == Outcome(Err(NotMirroring), sessions)
    ensures DeviceKey(deviceId) in sessions ==>
              o == Outcome(Ok(sessions[DeviceKey(deviceId)]), sessions - {DeviceKey(deviceId)})
  {
    var key := DeviceKey(deviceId);
    if key !in sessions then Outcome(Err(NotMirroring), sessions)
    else Outcome(Ok(sessions[key]), sessions - {key})
  }

  /** Starting and stopping keep every mirror under its own device's key,
      so the mirror a stop removes belongs to the device it names. */
  lemma MirrorTransitionsKeyedByDevice(sessions: map<string, MirrorSession>, deviceId: Option<string>, l: MirrorLaunch)
    requires KeyedByDevice(sessions)
    ensures KeyedByDevice(StartMirror(sessions, deviceId, l).store)
    ensures KeyedByDevice(StopMirror(sessions, deviceId).store)
    ensures StopMirror(sessions, deviceId).result.Ok? ==>
              DeviceKey(StopMirror(sessions, deviceId).result.value.deviceId) == DeviceKey(deviceId)
  {
  }

  /** Once a mirror runs, starting it again (whatever a new launch would
      meet) answers with the same URL and leaves the store alone. */
  lemma RestartReturnsRunningUrl(sessions: map<string, MirrorSession>, deviceId: Option<string>,
                                 first: MirrorLaunch, second: MirrorLaunch)
    requires StartMirror(sessions, deviceId, first).result.Ok?
    ensures var started := StartMirror(sessions, deviceId, first);
            StartMirror(started.store, deviceId, second) == Outcome(started.result, started.store)
  {
  }

  /** A mirror started and then stopped leaves the store as it was. */
  lemma StartThenStopMirror(sessions: map<string, MirrorSession>, deviceId: Option<string>, l: MirrorLaunch)
    requires DeviceKey(deviceId) !in sessions
    requires StartMirror(sessions, deviceId, l).result.Ok?
    ensures StopMirror(StartMirror(sessions, deviceId, l).store, deviceId).store == sessions
  {
    var key := DeviceKey(deviceId);
    var started := StartMirror(sessions, deviceId, l).store;
    assert started - {key} == sessions;
  }

  /** The mirror store of `adb`, keyed by device. */
  class MirrorStore {
    var sessions: map<string, MirrorSession>

    ghost predicate Valid()
      reads this
    {
      KeyedByDevice(sessions)
    }

    constructor ()
      ensures Valid() && sessions == map[]
    {
      sessions := map[];
    }

    /** `adb_start_mirror`. */
    method Start(deviceId: Option<string>, l: MirrorLaunch) returns (r: Result<string>)
      requires Valid()
      modifies this
      ensures Valid()
      ensures var o := StartMirror(old(sessions), deviceId, l); r == o.result && sessions == o.store
    {
      var key := DeviceKey(deviceId);
      if key in sessions {
        return Ok(sessions[key].url);
      }
      var launched := LaunchMirror(deviceId, l);
      match launched {
        case Err(e) =>
          return Err(e);
        case Ok(session) =>
          sessions := sessions[key := session];
          return Ok(session.url);
      }
    }

    /** `adb_stop_mirror`: answers with the session it stopped. */
    method Stop(deviceId: Option<string>) returns (r: Result<MirrorSession>)
      requires Valid()
      modifies this
      ensures Valid()
      ensures var o := StopMirror(old(sessions), deviceId); r == o.result && sessions == o.store
    {
      var key := DeviceKey(deviceId);
      if key !in sessions {
        return Err(NotMirroring);
      }
      r := Ok(sessions[key]);
      sessions := sessions - {key};
    }
  }

  // ------------------------------------------------------------ prebuffer

  /** At most 2 MiB of the stream are kept for viewers that connect late. */
  const PrebufferLimit: nat := 2 * 1024 * 1024

  /** The longest suffix of the stream that fits in the limit. */
  function Window(s: seq<U8>): (r: seq<U8>)
    ensures |r| == if |s| <= PrebufferLimit then |s| else PrebufferLimit
    ensures r == s[|s| - |r|..]
  {
    if |s| > PrebufferLimit then s[|s| - PrebufferLimit..] else s
  }

  /** A suffix that is at least as long as the window has the same
      window. */
  lemma WindowOfLongSuffix(x: seq<U8>, k: nat)
    requires k <= |x| && |x| - k >= |Window(x)|
    ensures Window(x[k..]) == Window(x)
  {
    var y := x[k..];
    var w := Window(y);
    assert |w| == |Window(x)|;
    assert w == x[|x| - |w|..];
  }

  /** Trimming after every chunk keeps the same bytes as trimming once at
      the end. */
  lemma WindowAppend(a: seq<U8>, c: seq<U8>)
    ensures Window(Window(a) + c) == Window(a + c)
  {
    var x := a + c;
    var k := |a| - |Window(a)|;
    assert Window(a) + c == x[k..];
    WindowOfLongSuffix(x, k);
  }

  /** All the chunks read so far, in order. */
  function Concat(chunks: seq<seq<U8>>): (r: seq<U8>)
    ensures chunks == [] ==> r == []
  {
    if chunks == [] then [] else Concat(chunks[..|chunks| - 1]) + chunks[|chunks| - 1]
  }

  /** Reading one more chunk extends the stream by that chunk. */
  lemma ConcatStep(chunks: seq<seq<U8>>, i: nat)
    requires i < |chunks|
    ensures Concat(chunks[..i + 1]) == Concat(chunks[..i]) + chunks[i]
  {
    assert chunks[..i + 1][..i] == chunks[..i];
  }

  /** The buffer a mirror keeps of its stream. */
  class Prebuffer {
    var cache: seq<U8>

    ghost predicate Valid()
      reads this
    {
      |cache| <= PrebufferLimit
    }

    constructor ()
      ensures Valid() && cache == []
    {
      cache := [];
    }

    /** One chunk read from the stream: appended, then the oldest bytes
        are dropped so that the limit holds again. */
    method Append(chunk: seq<U8>)
      requires Valid()
      modifies this
      ensures Valid()
      ensures cache == Window(old(cache) + chunk)
    {
      cache := cache + chunk;
      if |cache| > PrebufferLimit {
        var excess := |cache| - PrebufferLimit;
        cache := cache[excess..];
      }
    }

    /** The reading loop: every chunk the stream delivers, in order. The
        buffer ends up holding the last 2 MiB of everything read. */
    method Pump(chunks: seq<seq<U8>>)
      requires Valid()
      modifies this
      ensures Valid()
      ensures cache == Window(old(cache) + Concat(chunks))
    {
      ghost var start := cache;
      for i := 0 to |chunks|
        invariant Valid()
        invariant cache == Window(start + Concat(chunks[..i]))
      {
        ghost var read := Concat(chunks[..i]);
        Append(chunks[i]);
        WindowAppend(start + read, chunks[i]);
        ConcatStep(chunks, i);
        assert (start + read) + chunks[i] == start + Concat(chunks[..i + 1]);
      }
      assert chunks[..|chunks|] == chunks;
    }
  }
}
