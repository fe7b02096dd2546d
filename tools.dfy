/** Locating the command-line tools: a per-tool environment override, then
    the tools bundled with the application, then a `which`/`where` lookup
    on the search path. */
module Tools {
  import opened Base
  import opened Text
  import opened Paths
  import opened Shell

  datatype Os = Windows | Unix

  /** What tool resolution can observe of the machine: the platform, the
      environment, the path of the running executable (`current_exe`, if
      it is known), which paths exist, and what a command prints when it
      is run with some arguments. */
  datatype Host = Host(
    os: Os,
    env: map<string, string>,
    currentExe: Option<string>,
    pathExists: string -> bool,
    run: (string, seq<string>) -> Run)

  /** The environment variable naming a directory of bundled tools. */
  const BundledDirKey: string := "MDT_BUNDLED_TOOLS_DIR"

  /** The executable's file name: `.exe` is appended on Windows. */
  function ToolFilename(os: Os, tool: string): (r: string)
    ensures tool <= r
    ensures os == Unix ==> r == tool
    ensures os == Windows ==> r[|tool|..] == ".exe"
  {
    if os == Windows then tool + ".exe" else tool
  }

  /** A tool name that is a single path component stays one on every
      platform, so it can be the file name of a candidate path. */
  lemma ToolFilenameNormal(os: Os, tool: string)
    requires NormalName(tool)
    ensures NormalName(ToolFilename(os, tool))
  {
    if os == Windows {
      var r := ToolFilename(os, tool);
      assert |r| >= 5;
      forall i | 0 <= i < |r| ensures r[i] != '/' {
        if i < |tool| {
          assert r[i] == tool[i];
        } else {
          assert r[i] == ".exe"[i - |tool|];
        }
      }
    }
  }

  /** The override variable for a tool: `MDT_`, the tool name upper-cased
      with `-` turned into `_`, then `_PATH`. */
  function EnvOverrideKey(tool: string): (key: string)
    ensures |key| == |tool| + 9
    ensures key[..4] == "MDT_" && key[|tool| + 4..] == "_PATH"
    ensures forall i :: 0 <= i < |tool| ==> key[4 + i] == if tool[i] == '-' then '_' else UpperChar(tool[i])
  {
    var middle := ReplaceChar(ToUpper(tool), '-', '_');
    var key := "MDT_" + middle + "_PATH";
    assert key[4..|tool| + 4] == middle;
    key
  }

  /** Two tools share an override variable exactly when they agree once
      upper-cased and with `-` read as `_`. */
  lemma EnvOverrideKeyShared(a: string, b: string)
    ensures EnvOverrideKey(a) == EnvOverrideKey(b)
        <==> ReplaceChar(ToUpper(a), '-', '_') == ReplaceChar(ToUpper(b), '-', '_')
  {
    var ka, kb := EnvOverrideKey(a), EnvOverrideKey(b);
    var ma, mb := ReplaceChar(ToUpper(a), '-', '_'), ReplaceChar(ToUpper(b), '-', '_');
    assert ka == "MDT_" + ma + "_PATH";
    assert kb == "MDT_" + mb + "_PATH";
    if ka == kb {
      assert |a| == |b|;
      assert ka[4..|a| + 4] == ma;
      assert kb[4..|b| + 4] == mb;
    }
  }

  /** `env_override`: the override variable's value, when it is set and
      names an existing path; a set variable naming nothing is ignored. */
  function EnvOverride(tool: string, host: Host): (r: Option<string>)
    ensures r.Some? <==> EnvOverrideKey(tool) in host.env && host.pathExists(host.env[EnvOverrideKey(tool)])
    ensures r.Some? ==> r.value == host.env[EnvOverrideKey(tool)]
  {
    var key := EnvOverrideKey(tool);
    if key in host.env && host.pathExists(host.env[key]) then Some(host.env[key]) else None
  }

  /** The candidate list `bundled_tool_candidates` builds, in order: the
      tool in the bundled-tools directory when that is set, then the
      candidates found from the executable's directory. */
  function BundledCandidates(tool: string, host: Host): (r: seq<string>)
    ensures |r| <= 4
    ensures BundledDirKey in host.env ==> r != [] && r[0] == JoinPath(host.env[BundledDirKey], ToolFilename(host.os, tool))
  {
    var name := ToolFilename(host.os, tool);
    (if BundledDirKey in host.env then [JoinPath(host.env[BundledDirKey], name)] else [])
    + (if host.currentExe.Some? then ExeCandidates(Parent(host.currentExe.value), name) else [])
  }

  /** `tools` beside the executable, then the bundle's resource
      directories one level above it. */
  function ExeCandidates(exeDir: Option<string>, name: string): (r: seq<string>)
    ensures |r| <= 3
  {
    if exeDir.None? then []
    else [JoinPath(JoinPath(exeDir.value, "tools"), name)] + BundleCandidates(Parent(exeDir.value), name)
  }

  /** `Resources/tools` and `resources/tools` under the macOS bundle's
      `Contents` directory. */
  function BundleCandidates(contents: Option<string>, name: string): (r: seq<string>)
    ensures |r| <= 2
  {
    if contents.None? then []
    else [JoinPath(JoinPath(JoinPath(contents.value, "Resources"), "tools"), name),
          JoinPath(JoinPath(JoinPath(contents.value, "resources"), "tools"), name)]
  }

  /** Every bundled candidate is a path to the tool's executable: its file
      name is the platform's file name for the tool. */
  lemma CandidatesNameTheTool(tool: string, host: Host)
    requires NormalName(tool)
    ensures forall c :: c in BundledCandidates(tool, host) ==> FileName(c) == Some(ToolFilename(host.os, tool))
  {
    var name := ToolFilename(host.os, tool);
    ToolFilenameNormal(host.os, tool);
    var fromEnv := if BundledDirKey in host.env then [JoinPath(host.env[BundledDirKey], name)] else [];
    var fromExe := if host.currentExe.Some? then ExeCandidates(Parent(host.currentExe.value), name) else [];
    assert BundledCandidates(tool, host) == fromEnv + fromExe;
    if BundledDirKey in host.env {
      FileNameOfJoin(host.env[BundledDirKey], name);
    }
    if host.currentExe.Some? {
      ExeCandidatesNameTheTool(Parent(host.currentExe.value), name);
    }
  }

  lemma ExeCandidatesNameTheTool(exeDir: Option<string>, name: string)
    requires NormalName(name)
    ensures forall c :: c in ExeCandidates(exeDir, name) ==> FileName(c) == Some(name)
  {
    if exeDir.Some? {
      FileNameOfJoin(JoinPath(exeDir.value, "tools"), name);
      BundleCandidatesNameTheTool(Parent(exeDir.value), name);
    }
  }

  lemma BundleCandidatesNameTheTool(contents: Option<string>, name: string)
    requires NormalName(name)
    ensures forall c :: c in BundleCandidates(contents, name) ==> FileName(c) == Some(name)
  {
    if contents.Some? {
      FileNameOfJoin(JoinPath(JoinPath(contents.value, "Resources"), "tools"), name);
      FileNameOfJoin(JoinPath(JoinPath(contents.value, "resources"), "tools"), name);
    }
  }

  /** `bundled_tool_candidates`, pushing one candidate at a time. */
  method BundledToolCandidates(tool: string, host: Host) returns (candidates: seq<string>)
    ensures candidates == BundledCandidates(tool, host)
  {
    var name := ToolFilename(host.os, tool);
    candidates := [];
    if BundledDirKey in host.env {
      candidates := candidates + [JoinPath(host.env[BundledDirKey], name)];
    }
    ghost var fromEnv := candidates;
    if host.currentExe.Some? {
      var exeDir := Parent(host.currentExe.value);
      if exeDir.Some? {
        candidates := candidates + [JoinPath(JoinPath(exeDir.value, "tools"), name)];
        var contents := Parent(exeDir.value);
        if contents.Some? {
          candidates := candidates + [JoinPath(JoinPath(JoinPath(contents.value, "Resources"), "tools"), name)];
          candidates := candidates + [JoinPath(JoinPath(JoinPath(contents.value, "resources"), "tools"), name)];
        }
      }
      assert candidates == fromEnv + ExeCandidates(exeDir, name);
    }
  }

  /** The first candidate that exists, scanning in list order. */
  function FirstExisting(candidates: seq<string>, present: string -> bool): (r: Option<string>)
    ensures r.Some? ==> exists i :: 0 <= i < |candidates| && candidates[i] == r.value && present(r.value)
                                  && forall j :: 0 <= j < i ==> !present(candidates[j])
    ensures r.None? <==> forall i :: 0 <= i < |candidates| ==> !present(candidates[i])
  {
    if candidates == [] then None
    else if present(candidates[0]) then Some(candidates[0])
    else
      var r := FirstExisting(candidates[1..], present);
      assert forall i :: 1 <= i < |candidates| ==> candidates[i] == candidates[1..][i - 1];
      r
  }

  /** The first existing candidate is found, whatever comes after it. */
  lemma FirstExistingAt(candidates: seq<string>, present: string -> bool, i: nat)
    requires i < |candidates| && present(candidates[i])
    requires forall j :: 0 <= j < i ==> !present(candidates[j])
    ensures FirstExisting(candidates, present) == Some(candidates[i])
  {
  }

  /** What `which` (`where` on Windows) does when asked for the tool. */
  function WhichRun(tool: string, host: Host): Run {
    host.run(if host.os == Windows then "where" else "which", [tool])
  }

  /** `find_in_path`: what `which` prints for the tool, trimmed, when it
      succeeds and prints something other than white space. */
  function FindInPath(tool: string, host: Host): (r: Option<string>)
    ensures r.Some? <==> WhichRun(tool, host).Ran? && WhichRun(tool, host).output.success
                         && !Blank(WhichRun(tool, host).output.stdout)
    ensures r.Some? ==> r.value != [] && r.value == Trim(WhichRun(tool, host).output.stdout)
  {
    match WhichRun(tool, host)
    case Ran(out) =>
      if out.success then
        var path := Trim(out.stdout);
        if path == [] then None else Some(path)
      else None
    case NotStarted(_) => None
  }

  /** Where `resolve_tool_path` finds the tool: the override, else the
      first existing bundled candidate, else the search-path lookup. */
  function ToolPath(tool: string, host: Host): Option<string> {
    var fromEnv := EnvOverride(tool, host);
    if fromEnv.Some? then fromEnv
    else
      var bundled := FirstExisting(BundledCandidates(tool, host), host.pathExists);
      if bundled.Some? then bundled else FindInPath(tool, host)
  }

  /** The tool is found nowhere exactly when there is no usable override,
      no bundled candidate exists and the search-path lookup gives
      nothing; whatever is found comes from one of those three sources. */
  lemma ToolPathSources(tool: string, host: Host)
    ensures ToolPath(tool, host).None?
        <==> (EnvOverride(tool, host).None?
              && (forall c :: c in BundledCandidates(tool, host) ==> !host.pathExists(c))
              && FindInPath(tool, host).None?)
    ensures ToolPath(tool, host).Some? ==>
              ToolPath(tool, host) == EnvOverride(tool, host)
              || (ToolPath(tool, host).value in BundledCandidates(tool, host) && host.pathExists(ToolPath(tool, host).value))
              || ToolPath(tool, host) == FindInPath(tool, host)
  {
    var candidates := BundledCandidates(tool, host);
    var bundled := FirstExisting(candidates, host.pathExists);
    if bundled.Some? {
      var i :| 0 <= i < |candidates| && candidates[i] == bundled.value && host.pathExists(bundled.value)
               && forall j :: 0 <= j < i ==> !host.pathExists(candidates[j]);
    }
  }

  /** The loop of `resolve_tool_path` over the candidates: the first one
      that exists, checking them in list order. */
  method FindFirstExisting(candidates: seq<string>, present: string -> bool) returns (r: Option<string>)
    ensures r == FirstExisting(candidates, present)
  {
    var i := 0;
    while i < |candidates|
      invariant 0 <= i <= |candidates|
      invariant forall j :: 0 <= j < i ==> !present(candidates[j])
    {
      if present(candidates[i]) {
        FirstExistingAt(candidates, present, i);
        return Some(candidates[i]);
      }
      i := i + 1;
    }
    return None;
  }

  /** `resolve_tool_path`: the override, else the first existing bundled
      candidate, else the search-path lookup. */
  method ResolveToolPath(tool: string, host: Host) returns (r: Option<string>)
    ensures r == ToolPath(tool, host)
  {
    r := EnvOverride(tool, host);
    if r.None? {
      var candidates := BundledToolCandidates(tool, host);
      r := FindFirstExisting(candidates, host.pathExists);
      if r.None? {
        r := FindInPath(tool, host);
      }
    }
  }

  /** An override that names an existing path wins over everything else. */
  lemma OverrideWins(tool: string, host: Host)
    requires EnvOverrideKey(tool) in host.env && host.pathExists(host.env[EnvOverrideKey(tool)])
    ensures ToolPath(tool, host) == Some(host.env[EnvOverrideKey(tool)])
  {
  }

  /** Without an override, the first existing candidate wins. */
  lemma FirstCandidateWins(tool: string, host: Host, i: nat)
    requires EnvOverride(tool, host).None?
    requires i < |BundledCandidates(tool, host)| && host.pathExists(BundledCandidates(tool, host)[i])
    requires forall j :: 0 <= j < i ==> !host.pathExists(BundledCandidates(tool, host)[j])
    ensures ToolPath(tool, host) == Some(BundledCandidates(tool, host)[i])
  {
    FirstExistingAt(BundledCandidates(tool, host), host.pathExists, i);
  }

  /** Once the override or a bundled candidate is found, the search path
      is not consulted: whatever `which` would print makes no difference. */
  lemma SearchPathNotConsulted(tool: string, host: Host, run: (string, seq<string>) -> Run)
    requires EnvOverride(tool, host).Some?
             || exists c :: c in BundledCandidates(tool, host) && host.pathExists(c)
    ensures ToolPath(tool, host.(run := run)) == ToolPath(tool, host)
  {
    var other := host.(run := run);
    assert BundledCandidates(tool, other) == BundledCandidates(tool, host);
    assert EnvOverride(tool, other) == EnvOverride(tool, host);
  }

  /** `command_for`: the program that is run for a tool is its resolved
      path, or the bare tool name (left to the operating system's search)
      when resolution finds nothing. */
  function CommandFor(tool: string, host: Host): (program: string)
    ensures ToolPath(tool, host).None? ==> program == tool
    ensures ToolPath(tool, host).Some? ==> program == ToolPath(tool, host).value
  {
    ToolPath(tool, host).GetOr(tool)
  }
}
