/** The formula's `post_install` step as a pure function. The ambient inputs are
    passed in: the host platform, the raw output of the SwiftBar preferences
    query, the `HOME` environment variable, which helper scripts exit with a
    non-zero status, and the lines the user types. The
    result is the ordered trace of effects the step has, and whether it
    finished or raised. */
module PostInstall {
  import opened Wrappers
  import opened RubyStrings
  import opened Layout

  /** The two yes/no questions the step can ask. */
  datatype Question = ConfigureNow | AutostartNow

  /** A file outside the package: `dir/file` on the host. */
  datatype HostFile = HostFile(dir: string, file: FileName)

  /** An observable effect of the post-install step. Console text other than the
      prompts, the missing-directory warning and the snippet echo is left out. */
  datatype Action =
    | CopyFile(source: KegPath, destDir: string)      // FileUtils.cp into a host directory
    | Chmod(mode: nat, target: HostFile)              // FileUtils.chmod of a host file
    | WarnPluginDirMissing(manualCopy: KegPath)       // warning naming the file to copy by hand
    | EchoFile(path: KegPath)                         // prints an installed file's content
    | Ask(question: Question)                         // prints a question and reads one line
    | Invoke(script: KegPath, args: seq<string>)      // runs an installed helper script

  /** Why the step stopped early with an exception. */
  datatype Failure =
    | EndOfInput   // standard input had no more lines, and the missing line cannot be chomped
    | HomeUnset    // HOME is not set, and a missing argument cannot be passed to a helper
    | HelperFailed // a helper script exited with a non-zero status, which `Formula#system` raises on

  /** The outcome of the step: the effects that happened, and either the number
      of answer lines consumed or the failure that ended it. */
  datatype Run =
    | Finished(trace: seq<Action>, consumed: nat)
    | Raised(trace: seq<Action>, failure: Failure)

  /** rwxr-xr-x, octal 0755. */
  const ExecutableMode: nat := 0x1ED

  /** Where `install` stages the SwiftBar plugin on macOS. */
  const StagedPlugin := KegPath(SwiftBarStaging, MonitorScript)
  /** The installed Polybar snippet the Linux step prints. */
  const InstalledSnippet := KegPath(PolybarModules, PolybarSnippet)
  const ConfigureScript := KegPath(Bin, ConfigureHelper)
  const AutostartScript := KegPath(Bin, AutostartHelper)

  // ---------------------------------------------------------------------------
  // prompt_yes_no
  // ---------------------------------------------------------------------------

  /** The answer classifier: a line read from standard input counts as "yes"
      when, without its line terminator and lower-cased, it is "y" or "yes". */
  predicate IsAffirmative(line: string) {
    var answer := Downcase(Chomp(line));
    answer == "y" || answer == "yes"
  }

  /** An independent description of the affirmative answers: "y" or "yes" in
      any mix of letter cases, and nothing else. */
  predicate IsYesWord(w: string) {
    (|w| == 1 && (w[0] == 'y' || w[0] == 'Y')) ||
    (|w| == 3 && (w[0] == 'y' || w[0] == 'Y') && (w[1] == 'e' || w[1] == 'E') && (w[2] == 's' || w[2] == 'S'))
  }

  /** A yes-word followed by one line terminator, or by none. */
  predicate IsYesLine(line: string) {
    IsYesWord(line)
    || (|line| >= 1 && (line[|line| - 1] == '\n' || line[|line| - 1] == '\r') && IsYesWord(line[..|line| - 1]))
    || (|line| >= 2 && line[|line| - 2] == '\r' && line[|line| - 1] == '\n' && IsYesWord(line[..|line| - 2]))
  }

  lemma DowncaseYesWord(w: string)
    ensures (Downcase(w) == "y" || Downcase(w) == "yes") <==> IsYesWord(w)
  {
    var d := Downcase(w);
    if |w| == 1 {
      assert d == "y" <==> d[0] == 'y';
    } else if |w| == 3 {
      assert d == "yes" <==> d[0] == 'y' && d[1] == 'e' && d[2] == 's';
    }
  }

  /** The classifier accepts exactly the yes-words, each optionally followed by
      one line terminator: "Y", "YES" and "Yes\n" are yes, while "", "n",
      " y", "yeah" and "y\n\n" are no. */
  lemma AffirmativeIffYesLine(line: string)
    ensures IsAffirmative(line) <==> IsYesLine(line)
  {
    var c := Chomp(line);
    DowncaseYesWord(c);
    if IsYesWord(line) {
      ChompRecoversLine(line, "");
      assert line + "" == line;
    } else if |line| >= 1 && (line[|line| - 1] == '\n' || line[|line| - 1] == '\r') && IsYesWord(line[..|line| - 1]) {
      var w := line[..|line| - 1];
      ChompRecoversLine(w, [line[|line| - 1]]);
      assert w + [line[|line| - 1]] == line;
    } else if |line| >= 2 && line[|line| - 2] == '\r' && line[|line| - 1] == '\n' && IsYesWord(line[..|line| - 2]) {
      var w := line[..|line| - 2];
      ChompRecoversLine(w, "\r\n");
      assert w + "\r\n" == line;
    }
  }

  /** `prompt_yes_no`: asks `question` and consumes the first answer line;
      `None` when standard input is exhausted. */
  function PromptYesNo(answers: seq<string>): (r: Option<bool>)
    ensures r == None <==> answers == []
    ensures r.Some? ==> (r.value <==> IsYesLine(answers[0]))
  {
    if answers == [] then None
    else
      AffirmativeIffYesLine(answers[0]);
      Some(IsAffirmative(answers[0]))
  }

  // ---------------------------------------------------------------------------
  // post_install_macos
  // ---------------------------------------------------------------------------

  /** The effects on the SwiftBar plugin directory, decided by the stripped
      preferences output before any question is asked. */
  function PluginDirActions(pluginDir: string): seq<Action> {
    if pluginDir == "" then [WarnPluginDirMissing(StagedPlugin)]
    else [CopyFile(StagedPlugin, pluginDir), Chmod(ExecutableMode, HostFile(pluginDir, MonitorScript))]
  }

  /** Runs the JSON configuration helper with the plugin directory when the
      first question was answered yes. */
  function ConfigureStep(pluginDir: string, yes: bool): seq<Action> {
    if yes then [Invoke(ConfigureScript, [pluginDir])] else []
  }

  /** Runs the autostart helper, without arguments, when the second question
      was answered yes. */
  function AutostartStep(yes: bool): seq<Action> {
    if yes then [Invoke(AutostartScript, [])] else []
  }

  /** `post_install_macos`: the plugin directory is the stripped output of the
      SwiftBar preferences query. */
  function PostInstallMacos(prefsOutput: string, failing: set<KegPath>, answers: seq<string>): Run {
    MacosWithPluginDir(Strip(prefsOutput), failing, answers)
  }

  /** `post_install_macos` from the point the plugin directory is known. A
      helper in `failing` exits with a non-zero status when run, which ends
      the step. */
  function MacosWithPluginDir(pluginDir: string, failing: set<KegPath>, answers: seq<string>): Run {
    var beforeFirst := PluginDirActions(pluginDir) + [Ask(ConfigureNow)];
    match PromptYesNo(answers)
    case None => Raised(beforeFirst, EndOfInput)
    case Some(configure) =>
      var afterConfigure := beforeFirst + ConfigureStep(pluginDir, configure);
      if configure && ConfigureScript in failing then Raised(afterConfigure, HelperFailed)
      else
        var beforeSecond := afterConfigure + [Ask(AutostartNow)];
        match PromptYesNo(answers[1..])
        case None => Raised(beforeSecond, EndOfInput)
        case Some(autostart) =>
          var trace := beforeSecond + AutostartStep(autostart);
          if autostart && AutostartScript in failing then Raised(trace, HelperFailed)
          else Finished(trace, 2)
  }

  // ---------------------------------------------------------------------------
  // post_install_linux
  // ---------------------------------------------------------------------------

  /** `post_install_linux`. A helper in `failing` exits with a non-zero status
      when run, which ends the step. */
  function PostInstallLinux(home: Option<string>, failing: set<KegPath>, answers: seq<string>): Run {
    var beforeFirst := [EchoFile(InstalledSnippet), Ask(ConfigureNow)];
    match PromptYesNo(answers)
    case None => Raised(beforeFirst, EndOfInput)
    case Some(false) => Finished(beforeFirst, 1)
    case Some(true) =>
      match home
      case None => Raised(beforeFirst, HomeUnset)
      case Some(h) =>
        var trace := beforeFirst + [Invoke(ConfigureScript, [h])];
        if ConfigureScript in failing then Raised(trace, HelperFailed) else Finished(trace, 1)
  }

  // ---------------------------------------------------------------------------
  // post_install
  // ---------------------------------------------------------------------------

  /** `post_install`: the macOS or Linux sequence, and nothing on any other host. */
  function RunPostInstall(platform: Platform, prefsOutput: string, home: Option<string>,
                          failing: set<KegPath>, answers: seq<string>): Run
  {
    match platform
    case MacOS => PostInstallMacos(prefsOutput, failing, answers)
    case Linux => PostInstallLinux(home, failing, answers)
    case Other => Finished([], 0)
  }
}
