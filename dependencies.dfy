/** The dependency check: for each of `adb`, `hdc` and `idevice_id`,
    whether the tool can be found, and the version it reports. */
module Dependencies {
  import opened Base
  import opened Text
  import opened Shell
  import opened Tools

  /** What the check reports about one tool; `status` is "available" or
      "unavailable". */
  datatype DependencyInfo = DependencyInfo(
    name: string,
    displayName: string,
    status: string,
    version: Option<string>,
    error: Option<string>,
    path: Option<string>)

  datatype DependenciesStatus = DependenciesStatus(
    adb: Option<DependencyInfo>,
    hdc: Option<DependencyInfo>,
    idevice: Option<DependencyInfo>)

  /** The name shown for a tool: the three known tools have a descriptive
      name, any other command is shown as it is. */
  function DisplayName(command: string): (r: string)
    ensures r != command <==> command == "adb" || command == "hdc" || command == "idevice_id"
    ensures command == "adb" ==> r == "Android Debug Bridge"
    ensures command == "hdc" ==> r == "HarmonyOS Debug Client"
    ensures command == "idevice_id" ==> r == "iOS Device Tools"
  {
    if command == "adb" then "Android Debug Bridge"
    else if command == "hdc" then "HarmonyOS Debug Client"
    else if command == "idevice_id" then "iOS Device Tools"
    else command
  }

  predicate HasDigit(s: string) {
    exists i :: 0 <= i < |s| && IsAsciiDigit(s[i])
  }

  /** `Iterator::position` of the first token holding an ASCII digit. */
  function FirstWithDigit(tokens: seq<string>): (r: Option<nat>)
    ensures r.Some? ==> r.value < |tokens| && HasDigit(tokens[r.value])
                        && forall j :: 0 <= j < r.value ==> !HasDigit(tokens[j])
    ensures r.None? ==> forall j :: 0 <= j < |tokens| ==> !HasDigit(tokens[j])
  {
    if tokens == [] then None
    else if HasDigit(tokens[0]) then Some(0)
    else
      var rest := FirstWithDigit(tokens[1..]);
      assert forall j :: 1 <= j < |tokens| ==> tokens[j] == tokens[1..][j - 1];
      if rest.Some? then Some(rest.value + 1) else None
  }

  /** The white-space separated words of the first line of the output;
      none when the output has no line. */
  function FirstLineTokens(stdout: string): seq<string> {
    var lines := Lines(stdout);
    if lines == [] then [] else SplitWhitespace(lines[0])
  }

  /** The version the tool printed: the first word of its first line that
      holds an ASCII digit, or nothing when no word there has one. */
  function VersionToken(stdout: string): (r: Option<string>)
    ensures r.None? <==> forall j :: 0 <= j < |FirstLineTokens(stdout)| ==> !HasDigit(FirstLineTokens(stdout)[j])
    ensures r.Some? ==> r.value != [] && NoWhitespace(r.value) && HasDigit(r.value)
    ensures r.Some? ==> exists i :: 0 <= i < |FirstLineTokens(stdout)| && FirstLineTokens(stdout)[i] == r.value
                                    && forall j :: 0 <= j < i ==> !HasDigit(FirstLineTokens(stdout)[j])
  {
    var tokens := FirstLineTokens(stdout);
    match FirstWithDigit(tokens)
    case None => None
    case Some(i) =>
      TrimWord(tokens[i]);
      Some(Trim(tokens[i]))
  }

  /** Only the first line is read: what follows it never changes the
      version. */
  lemma VersionIgnoresLaterLines(first: string, rest1: string, rest2: string)
    requires '\n' !in first
    ensures VersionToken(first + "\n" + rest1) == VersionToken(first + "\n" + rest2)
  {
    LinesCons(first, rest1);
    LinesCons(first, rest2);
  }

  /** `check_command`: resolves the tool, runs it with the version
      arguments and reports what happened. */
  function CheckCommand(command: string, versionArgs: seq<string>, host: Host): (r: DependencyInfo)
    ensures r.name == command && r.displayName == DisplayName(command)
    ensures r.path == ToolPath(command, host)
    ensures r.status == (if r.error.None? then "available" else "unavailable")
    ensures r.error.None? <==> ToolPath(command, host).Some? && var run := host.run(ToolPath(command, host).value, versionArgs);
                                run.Ran? && run.output.success
    ensures r.version.Some? ==> r.error.None?
    ensures ToolPath(command, host).None? ==> r.version.None? && r.error == Some("命令 '" + command + "' 未找到")
    ensures ToolPath(command, host).Some? ==>
              var run := host.run(ToolPath(command, host).value, versionArgs);
              (run.Ran? && run.output.success ==> r.version == VersionToken(run.output.stdout))
              && (run.Ran? && !run.output.success ==> r.error == Some(Trim(run.output.stderr)))
              && (run.NotStarted? ==> r.error == Some("执行命令失败: " + run.reason))
  {
    var displayName := DisplayName(command);
    match ToolPath(command, host)
    case None =>
      DependencyInfo(command, displayName, "unavailable", None, Some("命令 '" + command + "' 未找到"), None)
    case Some(path) =>
      var (version, error) :=
        match host.run(path, versionArgs)
        case Ran(out) =>
          if out.success then (VersionToken(out.stdout), None) else (None, Some(Trim(out.stderr)))
        case NotStarted(e) => (None, Some("执行命令失败: " + e));
      DependencyInfo(command, displayName, if error.None? then "available" else "unavailable",
                     version, error, Some(path))
  }

  /** `check_dependencies`: never fails, and reports on all three tools,
      asking each for its version in its own way. */
  function CheckDependencies(host: Host): (r: Result<DependenciesStatus>)
    ensures r.Ok?
    ensures r.value.adb.Some? && r.value.hdc.Some? && r.value.idevice.Some?
    ensures r.value.adb.value == CheckCommand("adb", ["version"], host)
    ensures r.value.hdc.value == CheckCommand("hdc", ["-v"], host)
    ensures r.value.idevice.value == CheckCommand("idevice_id", ["-l"], host)
  {
    Ok(DependenciesStatus(
      Some(CheckCommand("adb", ["version"], host)),
      Some(CheckCommand("hdc", ["-v"], host)),
      Some(CheckCommand("idevice_id", ["-l"], host))))
  }
}
