/** What the post-install step does, stated over its trace: which files it
    copies, which questions it asks, which helpers it runs with which
    arguments, and how these tie back to the install layout. */
module PostInstallProperties {
  import opened Wrappers
  import opened RubyStrings
  import opened Layout
  import opened PostInstall

  /** The kinds of effect in a trace. */
  datatype Kind = FileOp | Warning | Echo | Prompt | Helper

  function KindOf(a: Action): Kind {
    match a
    case CopyFile(_, _) => FileOp
    case Chmod(_, _) => FileOp
    case WarnPluginDirMissing(_) => Warning
    case EchoFile(_) => Echo
    case Ask(_) => Prompt
    case Invoke(_, _) => Helper
  }

  /** The subsequence of a trace made of the effects of one kind, in order. */
  function Select(t: seq<Action>, kind: Kind): (r: seq<Action>)
    ensures |r| <= |t|
  {
    if t == [] then []
    else (if KindOf(t[0]) == kind then [t[0]] else []) + Select(t[1..], kind)
  }

  lemma {:induction false} SelectAppend(a: seq<Action>, b: seq<Action>, kind: Kind)
    ensures Select(a + b, kind) == Select(a, kind) + Select(b, kind)
  {
    if a == [] {
      assert a + b == b;
    } else {
      var first: seq<Action> := if KindOf(a[0]) == kind then [a[0]] else [];
      assert (a + b)[0] == a[0];
      assert (a + b)[1..] == a[1..] + b;
      calc {
        Select(a + b, kind);
        first + Select(a[1..] + b, kind);
        { SelectAppend(a[1..], b, kind); }
        first + (Select(a[1..], kind) + Select(b, kind));
        (first + Select(a[1..], kind)) + Select(b, kind);
        Select(a, kind) + Select(b, kind);
      }
    }
  }

  lemma SelectSingleton(a: Action, kind: Kind)
    ensures Select([a], kind) == if KindOf(a) == kind then [a] else []
  {
    assert [a][1..] == [];
  }

  // ---------------------------------------------------------------------------
  // macOS
  // ---------------------------------------------------------------------------

  lemma SelectPluginDirActions(dir: string, kind: Kind)
    ensures Select(PluginDirActions(dir), kind) ==
      if (dir == "" && kind == Warning) || (dir != "" && kind == FileOp) then PluginDirActions(dir) else []
  {
    var h := PluginDirActions(dir);
    if dir == "" {
      SelectSingleton(h[0], kind);
    } else {
      assert h == [h[0]] + [h[1]];
      SelectAppend([h[0]], [h[1]], kind);
      SelectSingleton(h[0], kind);
      SelectSingleton(h[1], kind);
    }
  }

  lemma SelectHelperStep(step: seq<Action>, kind: Kind)
    requires step == [] || (|step| == 1 && step[0].Invoke?)
    ensures Select(step, kind) == if kind == Helper then step else []
  {
    if step != [] {
      assert step == [step[0]];
      SelectSingleton(step[0], kind);
    }
  }

  lemma {:induction false} SelectFour(a: seq<Action>, b: seq<Action>, c: seq<Action>, d: seq<Action>, kind: Kind)
    ensures Select(a + b + c + d, kind) == Select(a, kind) + Select(b, kind) + Select(c, kind) + Select(d, kind)
  {
    SelectAppend(a, b, kind);
    SelectAppend(a + b, c, kind);
    SelectAppend(a + b + c, d, kind);
  }

  /** The macOS step stops at the JSON configuration helper: the first answer
      is yes and that helper exits with a non-zero status. */
  predicate MacConfigureFails(failing: set<KegPath>, answers: seq<string>) {
    |answers| >= 1 && IsYesLine(answers[0]) && ConfigureScript in failing
  }

  /** The part of the macOS trace from the first answer: the configuration
      step and, unless that step failed, the second question; empty when there
      is no first answer. */
  function MacConfigurePart(dir: string, failing: set<KegPath>, answers: seq<string>): seq<Action> {
    if |answers| >= 1 then
      ConfigureStep(dir, IsYesLine(answers[0])) + (if MacConfigureFails(failing, answers) then [] else [Ask(AutostartNow)])
    else []
  }

  /** The part of the macOS trace from the second answer: the autostart step. */
  function MacAutostartPart(failing: set<KegPath>, answers: seq<string>): seq<Action> {
    if |answers| >= 2 && !MacConfigureFails(failing, answers) then AutostartStep(IsYesLine(answers[1])) else []
  }

  /** The trace `MacTraceShape` describes. */
  function MacShape(dir: string, failing: set<KegPath>, answers: seq<string>): seq<Action> {
    PluginDirActions(dir) + [Ask(ConfigureNow)] + MacConfigurePart(dir, failing, answers) + MacAutostartPart(failing, answers)
  }

  /** The macOS trace is the plugin-directory effects, the first question, the
      configuration step with the second question, and the autostart step,
      cut short after a question that found no answer line or a helper that
      failed. */
  lemma MacTraceShape(prefsOutput: string, failing: set<KegPath>, answers: seq<string>)
    ensures PostInstallMacos(prefsOutput, failing, answers).trace == MacShape(Strip(prefsOutput), failing, answers)
  {
    if |answers| == 0 {
      MacTraceNoAnswer(Strip(prefsOutput), failing, answers);
    } else if MacConfigureFails(failing, answers) {
      MacTraceConfigureFails(Strip(prefsOutput), failing, answers);
    } else if |answers| == 1 {
      MacTraceOneAnswer(Strip(prefsOutput), failing, answers);
    } else {
      MacTraceTwoAnswers(Strip(prefsOutput), failing, answers);
    }
  }

  lemma MacTraceNoAnswer(dir: string, failing: set<KegPath>, answers: seq<string>)
    requires |answers| == 0
    ensures MacosWithPluginDir(dir, failing, answers) == Raised(MacShape(dir, failing, answers), EndOfInput)
  {
    var first := PluginDirActions(dir) + [Ask(ConfigureNow)];
    assert first + [] + [] == first;
  }

  lemma MacTraceConfigureFails(dir: string, failing: set<KegPath>, answers: seq<string>)
    requires MacConfigureFails(failing, answers)
    ensures MacosWithPluginDir(dir, failing, answers) == Raised(MacShape(dir, failing, answers), HelperFailed)
  {
    var first := PluginDirActions(dir) + [Ask(ConfigureNow)];
    var step := ConfigureStep(dir, true);
    assert first + (step + []) + [] == first + step;
  }

  lemma MacTraceOneAnswer(dir: string, failing: set<KegPath>, answers: seq<string>)
    requires |answers| == 1 && !MacConfigureFails(failing, answers)
    ensures MacosWithPluginDir(dir, failing, answers) == Raised(MacShape(dir, failing, answers), EndOfInput)
  {
    var first := PluginDirActions(dir) + [Ask(ConfigureNow)];
    var step := ConfigureStep(dir, IsYesLine(answers[0]));
    assert MacConfigurePart(dir, failing, answers) == step + [Ask(AutostartNow)];
    assert MacAutostartPart(failing, answers) == [];
    assert first + (step + [Ask(AutostartNow)]) + [] == first + step + [Ask(AutostartNow)];
  }

  lemma MacTraceTwoAnswers(dir: string, failing: set<KegPath>, answers: seq<string>)
    requires |answers| >= 2 && !MacConfigureFails(failing, answers)
    ensures var t := MacShape(dir, failing, answers);
      MacosWithPluginDir(dir, failing, answers)
        == if IsYesLine(answers[1]) && AutostartScript in failing then Raised(t, HelperFailed) else Finished(t, 2)
  {
    var first := PluginDirActions(dir) + [Ask(ConfigureNow)];
    var step := ConfigureStep(dir, IsYesLine(answers[0]));
    var auto := AutostartStep(IsYesLine(answers[1]));
    assert MacConfigurePart(dir, failing, answers) == step + [Ask(AutostartNow)];
    assert MacAutostartPart(failing, answers) == auto;
    assert answers[1..][0] == answers[1];
    assert first + (step + [Ask(AutostartNow)]) + auto == first + step + [Ask(AutostartNow)] + auto;
  }

  lemma SelectMacConfigurePart(dir: string, failing: set<KegPath>, answers: seq<string>, kind: Kind)
    ensures Select(MacConfigurePart(dir, failing, answers), kind) ==
      if |answers| == 0 then []
      else if kind == Helper then ConfigureStep(dir, IsYesLine(answers[0]))
      else if kind == Prompt && !MacConfigureFails(failing, answers) then [Ask(AutostartNow)]
      else []
  {
    if |answers| >= 1 {
      var step := ConfigureStep(dir, IsYesLine(answers[0]));
      var ask: seq<Action> := if MacConfigureFails(failing, answers) then [] else [Ask(AutostartNow)];
      SelectAppend(step, ask, kind);
      SelectHelperStep(step, kind);
      SelectSingleton(Ask(AutostartNow), kind);
    }
  }

  lemma SelectMacAutostartPart(failing: set<KegPath>, answers: seq<string>, kind: Kind)
    ensures Select(MacAutostartPart(failing, answers), kind) ==
      if |answers| >= 2 && !MacConfigureFails(failing, answers) && kind == Helper
      then AutostartStep(IsYesLine(answers[1])) else []
  {
    if |answers| >= 2 && !MacConfigureFails(failing, answers) {
      SelectHelperStep(AutostartStep(IsYesLine(answers[1])), kind);
    }
  }

  /** The shape `MacTraceShape` establishes, for reasoning about a macOS trace
      without unfolding the step that produced it. */
  predicate IsMacTrace(t: seq<Action>, dir: string, failing: set<KegPath>, answers: seq<string>) {
    t == MacShape(dir, failing, answers)
  }

  lemma MacSelect(t: seq<Action>, dir: string, failing: set<KegPath>, answers: seq<string>, kind: Kind)
    requires IsMacTrace(t, dir, failing, answers)
    ensures Select(t, kind) == Select(PluginDirActions(dir), kind) + Select([Ask(ConfigureNow)], kind)
        + Select(MacConfigurePart(dir, failing, answers), kind) + Select(MacAutostartPart(failing, answers), kind)
  {
    SelectFour(PluginDirActions(dir), [Ask(ConfigureNow)], MacConfigurePart(dir, failing, answers),
               MacAutostartPart(failing, answers), kind);
  }

  /** Effects on the SwiftBar plugin directory: the copy, the chmod and the
      missing-directory warning. */
  predicate IsPluginDirEffect(a: Action) {
    a.CopyFile? || a.Chmod? || a.WarnPluginDirMissing?
  }

  /** In a trace made of plugin-directory effects followed by questions and
      helper runs, every such effect comes before every question. */
  lemma EffectsBeforeQuestions(head: seq<Action>, tail: seq<Action>)
    requires forall k :: 0 <= k < |head| ==> IsPluginDirEffect(head[k])
    requires forall k :: 0 <= k < |tail| ==> tail[k].Ask? || tail[k].Invoke?
    ensures var t := head + tail;
      forall i, j :: 0 <= i < |t| && 0 <= j < |t| && t[i].Ask? && IsPluginDirEffect(t[j]) ==> j < i
  {
    var t := head + tail;
    assert forall j :: |head| <= j < |t| ==> t[j] == tail[j - |head|];
    assert forall i :: 0 <= i < |head| ==> t[i] == head[i];
  }

  /** After the plugin-directory effects the macOS trace only asks and runs
      helpers. */
  lemma MacTailKinds(dir: string, failing: set<KegPath>, answers: seq<string>)
    ensures var tail := [Ask(ConfigureNow)] + MacConfigurePart(dir, failing, answers) + MacAutostartPart(failing, answers);
      forall k :: 0 <= k < |tail| ==> tail[k].Ask? || tail[k].Invoke?
  {
    var tail := [Ask(ConfigureNow)] + MacConfigurePart(dir, failing, answers) + MacAutostartPart(failing, answers);
    assert forall a :: a in tail ==> a.Ask? || a.Invoke?;
    assert forall k :: 0 <= k < |tail| ==> tail[k] in tail;
  }

  /** A trace of questions and helper runs has no file operations and no
      warnings. */
  lemma {:induction false} SelectAsksAndHelpers(s: seq<Action>, kind: Kind)
    requires forall k :: 0 <= k < |s| ==> s[k].Ask? || s[k].Invoke?
    requires kind == FileOp || kind == Warning
    ensures Select(s, kind) == []
  {
    if s != [] {
      assert forall k :: 0 <= k < |s[1..]| ==> s[1..][k] == s[k + 1];
      SelectAsksAndHelpers(s[1..], kind);
    }
  }

  lemma MacTraceFileEffects(t: seq<Action>, dir: string, failing: set<KegPath>, answers: seq<string>)
    requires IsMacTrace(t, dir, failing, answers)
    ensures Select(t, FileOp) == (if dir == "" then [] else PluginDirActions(dir))
    ensures Select(t, Warning) == (if dir == "" then PluginDirActions(dir) else [])
  {
    var head := PluginDirActions(dir);
    var tail := [Ask(ConfigureNow)] + MacConfigurePart(dir, failing, answers) + MacAutostartPart(failing, answers);
    assert t == head + tail;
    MacTailKinds(dir, failing, answers);
    SelectAppend(head, tail, FileOp);
    SelectAppend(head, tail, Warning);
    SelectAsksAndHelpers(tail, FileOp);
    SelectAsksAndHelpers(tail, Warning);
    SelectPluginDirActions(dir, FileOp);
    SelectPluginDirActions(dir, Warning);
  }

  lemma MacTracePluginDirFirst(t: seq<Action>, dir: string, failing: set<KegPath>, answers: seq<string>)
    requires IsMacTrace(t, dir, failing, answers)
    ensures forall i, j :: 0 <= i < |t| && 0 <= j < |t| && t[i].Ask? && IsPluginDirEffect(t[j]) ==> j < i
  {
    var head := PluginDirActions(dir);
    var tail := [Ask(ConfigureNow)] + MacConfigurePart(dir, failing, answers) + MacAutostartPart(failing, answers);
    assert t == head + tail;
    MacTailKinds(dir, failing, answers);
    EffectsBeforeQuestions(head, tail);
  }

  /** On macOS the plugin is copied into the configured SwiftBar directory and
      made executable exactly when the preferences output has a non-space
      character; otherwise the only effect on it is the warning that names the
      staged file. Either way this happens before the first question. */
  lemma MacPluginDirectory(prefsOutput: string, failing: set<KegPath>, answers: seq<string>)
    ensures var t := PostInstallMacos(prefsOutput, failing, answers).trace;
      var dir := Strip(prefsOutput);
      && Select(t, FileOp) == (if AllStripSpace(prefsOutput) then []
                               else [CopyFile(StagedPlugin, dir), Chmod(ExecutableMode, HostFile(dir, MonitorScript))])
      && Select(t, Warning) == (if AllStripSpace(prefsOutput) then [WarnPluginDirMissing(StagedPlugin)] else [])
      && (forall i, j :: 0 <= i < |t| && 0 <= j < |t| && t[i].Ask? && IsPluginDirEffect(t[j]) ==> j < i)
  {
    var t := PostInstallMacos(prefsOutput, failing, answers).trace;
    StripEmptyIffAllSpace(prefsOutput);
    MacTraceShape(prefsOutput, failing, answers);
    MacTraceFileEffects(t, Strip(prefsOutput), failing, answers);
    MacTracePluginDirFirst(t, Strip(prefsOutput), failing, answers);
  }

  lemma MacTraceChmodTargetsCopy(t: seq<Action>, dir: string, failing: set<KegPath>, answers: seq<string>)
    requires IsMacTrace(t, dir, failing, answers) && dir != ""
    ensures |t| >= 2 && t[0].CopyFile? && t[1].Chmod?
    ensures t[1].mode == ExecutableMode && t[1].target == HostFile(t[0].destDir, t[0].source.file)
  {
    var head := PluginDirActions(dir);
    assert t[..2] == head;
  }

  /** The file made executable is the copy just placed in the plugin
      directory: the chmod target is the copy's destination directory followed
      by the copied file's name. */
  lemma MacChmodTargetsCopy(prefsOutput: string, failing: set<KegPath>, answers: seq<string>)
    requires !AllStripSpace(prefsOutput)
    ensures var t := PostInstallMacos(prefsOutput, failing, answers).trace;
      && |t| >= 2 && t[0].CopyFile? && t[1].Chmod?
      && t[1].mode == ExecutableMode
      && t[1].target == HostFile(t[0].destDir, t[0].source.file)
  {
    assert Strip(prefsOutput) != "" by { StripEmptyIffAllSpace(prefsOutput); }
    MacTraceShape(prefsOutput, failing, answers);
    MacTraceChmodTargetsCopy(PostInstallMacos(prefsOutput, failing, answers).trace, Strip(prefsOutput), failing, answers);
  }

  lemma MacTraceQuestions(t: seq<Action>, dir: string, failing: set<KegPath>, answers: seq<string>)
    requires IsMacTrace(t, dir, failing, answers)
    ensures Select(t, Prompt) == [Ask(ConfigureNow)]
      + (if |answers| >= 1 && !MacConfigureFails(failing, answers) then [Ask(AutostartNow)] else [])
  {
    var a, b, c, d := PluginDirActions(dir), [Ask(ConfigureNow)], MacConfigurePart(dir, failing, answers), MacAutostartPart(failing, answers);
    MacSelect(t, dir, failing, answers, Prompt);
    assert Select(a, Prompt) == [] by { SelectPluginDirActions(dir, Prompt); }
    assert Select(b, Prompt) == b by { SelectSingleton(Ask(ConfigureNow), Prompt); }
    assert Select(c, Prompt) == (if |answers| >= 1 && !MacConfigureFails(failing, answers) then [Ask(AutostartNow)] else []) by {
      SelectMacConfigurePart(dir, failing, answers, Prompt);
    }
    assert Select(d, Prompt) == [] by { SelectMacAutostartPart(failing, answers, Prompt); }
  }

  /** macOS asks the configuration question and then, whatever its answer,
      the autostart question, unless the configuration helper it ran failed;
      a finished run has read exactly two lines. */
  lemma MacQuestions(prefsOutput: string, failing: set<KegPath>, answers: seq<string>)
    ensures var r := PostInstallMacos(prefsOutput, failing, answers);
      && Select(r.trace, Prompt) == [Ask(ConfigureNow)]
           + (if |answers| >= 1 && !MacConfigureFails(failing, answers) then [Ask(AutostartNow)] else [])
      && (r.Finished? ==> |answers| >= 2 && r.consumed == 2)
  {
    MacTraceShape(prefsOutput, failing, answers);
    MacTraceQuestions(PostInstallMacos(prefsOutput, failing, answers).trace, Strip(prefsOutput), failing, answers);
    MacOutcome(prefsOutput, failing, answers);
  }

  /** How the macOS step ends: at the end of input when a question finds no
      line, at the first helper that exits with a non-zero status, and
      otherwise finished. */
  lemma MacOutcome(prefsOutput: string, failing: set<KegPath>, answers: seq<string>)
    ensures var r := PostInstallMacos(prefsOutput, failing, answers);
      var autostartFails := |answers| >= 2 && IsYesLine(answers[1]) && AutostartScript in failing;
      && (r.Raised? && r.failure == EndOfInput
          <==> |answers| == 0 || (|answers| == 1 && !MacConfigureFails(failing, answers)))
      && (r.Raised? && r.failure == HelperFailed <==> MacConfigureFails(failing, answers) || autostartFails)
      && (r.Finished? <==> |answers| >= 2 && !MacConfigureFails(failing, answers) && !autostartFails)
      && (r.Finished? ==> r.consumed == 2)
  {
    if |answers| == 0 {
      MacTraceNoAnswer(Strip(prefsOutput), failing, answers);
    } else if MacConfigureFails(failing, answers) {
      MacTraceConfigureFails(Strip(prefsOutput), failing, answers);
    } else if |answers| == 1 {
      MacTraceOneAnswer(Strip(prefsOutput), failing, answers);
    } else {
      MacTraceTwoAnswers(Strip(prefsOutput), failing, answers);
    }
  }

  lemma MacTraceHelpers(t: seq<Action>, dir: string, failing: set<KegPath>, answers: seq<string>)
    requires IsMacTrace(t, dir, failing, answers)
    ensures Select(t, Helper) ==
      (if |answers| >= 1 then ConfigureStep(dir, IsYesLine(answers[0])) else [])
      + (if |answers| >= 2 && !MacConfigureFails(failing, answers) then AutostartStep(IsYesLine(answers[1])) else [])
  {
    var a, b, c, d := PluginDirActions(dir), [Ask(ConfigureNow)], MacConfigurePart(dir, failing, answers), MacAutostartPart(failing, answers);
    MacSelect(t, dir, failing, answers, Helper);
    assert Select(a, Helper) == [] by { SelectPluginDirActions(dir, Helper); }
    assert Select(b, Helper) == [] by { SelectSingleton(Ask(ConfigureNow), Helper); }
    assert Select(c, Helper) == (if |answers| >= 1 then ConfigureStep(dir, IsYesLine(answers[0])) else []) by {
      SelectMacConfigurePart(dir, failing, answers, Helper);
    }
    assert Select(d, Helper) == (if |answers| >= 2 && !MacConfigureFails(failing, answers)
                                 then AutostartStep(IsYesLine(answers[1])) else []) by {
      SelectMacAutostartPart(failing, answers, Helper);
    }
  }

  /** Which helpers macOS runs, in order and with which arguments: the JSON
      configuration helper with the stripped plugin directory (possibly empty)
      as its one argument iff the first answer is yes, then the autostart
      helper with no arguments iff the second answer is yes and the
      configuration helper did not fail. */
  lemma MacHelpers(prefsOutput: string, failing: set<KegPath>, answers: seq<string>)
    ensures var t := PostInstallMacos(prefsOutput, failing, answers).trace;
      var configure: seq<Action> :=
        if |answers| >= 1 && IsYesLine(answers[0]) then [Invoke(ConfigureScript, [Strip(prefsOutput)])] else [];
      var autostart: seq<Action> :=
        if |answers| >= 2 && IsYesLine(answers[1]) && !MacConfigureFails(failing, answers)
        then [Invoke(AutostartScript, [])] else [];
      Select(t, Helper) == configure + autostart
  {
    MacTraceShape(prefsOutput, failing, answers);
    MacTraceHelpers(PostInstallMacos(prefsOutput, failing, answers).trace, Strip(prefsOutput), failing, answers);
  }

  /** A macOS run that fails at a helper ends with that helper's run. */
  lemma MacFailureEndsAtHelper(prefsOutput: string, failing: set<KegPath>, answers: seq<string>)
    ensures var r := PostInstallMacos(prefsOutput, failing, answers);
      r.Raised? && r.failure == HelperFailed ==>
        |r.trace| >= 1 && r.trace[|r.trace| - 1].Invoke? && r.trace[|r.trace| - 1].script in failing
  {
    var dir := Strip(prefsOutput);
    var first := PluginDirActions(dir) + [Ask(ConfigureNow)];
    if MacConfigureFails(failing, answers) {
      MacTraceConfigureFails(Strip(prefsOutput), failing, answers);
      assert MacShape(dir, failing, answers) == first + [Invoke(ConfigureScript, [dir])] + [] + [];
    } else if |answers| >= 2 {
      MacTraceTwoAnswers(Strip(prefsOutput), failing, answers);
      var step := ConfigureStep(dir, IsYesLine(answers[0]));
      if IsYesLine(answers[1]) {
        assert MacShape(dir, failing, answers)
          == first + (step + [Ask(AutostartNow)]) + [Invoke(AutostartScript, [])];
      }
    } else {
      MacOutcome(prefsOutput, failing, answers);
    }
  }

  // ---------------------------------------------------------------------------
  // Linux
  // ---------------------------------------------------------------------------

  /** The Linux trace after the question: the configuration helper run with
      HOME, when the answer is yes and HOME is set. */
  function LinuxConfigurePart(home: Option<string>, answers: seq<string>): seq<Action> {
    if |answers| >= 1 && IsYesLine(answers[0]) && home.Some? then [Invoke(ConfigureScript, [home.value])] else []
  }

  lemma LinuxTraceShape(home: Option<string>, failing: set<KegPath>, answers: seq<string>)
    ensures PostInstallLinux(home, failing, answers).trace
      == [EchoFile(InstalledSnippet)] + [Ask(ConfigureNow)] + LinuxConfigurePart(home, answers)
  {
    var first: seq<Action> := [EchoFile(InstalledSnippet), Ask(ConfigureNow)];
    assert [EchoFile(InstalledSnippet)] + [Ask(ConfigureNow)] == first;
    if |answers| >= 1 {
      AffirmativeIffYesLine(answers[0]);
    }
    if LinuxConfigurePart(home, answers) == [] {
      assert first + [] == first;
    }
  }

  /** Selection from a trace that echoes a file, asks a question, then runs at
      most one helper. */
  lemma EchoAskHelperSelect(c: seq<Action>, kind: Kind)
    requires c == [] || (|c| == 1 && c[0].Invoke?)
    ensures Select([EchoFile(InstalledSnippet)] + [Ask(ConfigureNow)] + c, kind) ==
      (if kind == Echo then [EchoFile(InstalledSnippet)] else [])
      + (if kind == Prompt then [Ask(ConfigureNow)] else [])
      + (if kind == Helper then c else [])
  {
    SelectAppend([EchoFile(InstalledSnippet)], [Ask(ConfigureNow)], kind);
    SelectAppend([EchoFile(InstalledSnippet)] + [Ask(ConfigureNow)], c, kind);
    SelectSingleton(EchoFile(InstalledSnippet), kind);
    SelectSingleton(Ask(ConfigureNow), kind);
    SelectHelperStep(c, kind);
  }

  lemma LinuxTraceSelect(t: seq<Action>, home: Option<string>, answers: seq<string>)
    requires t == [EchoFile(InstalledSnippet)] + [Ask(ConfigureNow)] + LinuxConfigurePart(home, answers)
    ensures |t| >= 2 && t[0] == EchoFile(InstalledSnippet) && t[1] == Ask(ConfigureNow)
    ensures Select(t, FileOp) == [] && Select(t, Warning) == []
    ensures Select(t, Prompt) == [Ask(ConfigureNow)]
    ensures Select(t, Helper) == LinuxConfigurePart(home, answers)
  {
    var c := LinuxConfigurePart(home, answers);
    EchoAskHelperSelect(c, FileOp);
    EchoAskHelperSelect(c, Warning);
    EchoAskHelperSelect(c, Prompt);
    EchoAskHelperSelect(c, Helper);
  }

  /** Linux prints the installed snippet, asks one question, and runs only the
      JSON configuration helper, with HOME as its one argument, iff the answer
      is yes. It never copies, changes modes, warns or runs the autostart
      helper. */
  lemma LinuxSequence(home: Option<string>, failing: set<KegPath>, answers: seq<string>)
    ensures var t := RunPostInstall(Linux, "", home, failing, answers).trace;
      var yes := |answers| >= 1 && IsYesLine(answers[0]);
      && |t| >= 2 && t[0] == EchoFile(InstalledSnippet) && t[1] == Ask(ConfigureNow)
      && Select(t, FileOp) == [] && Select(t, Warning) == []
      && Select(t, Prompt) == [Ask(ConfigureNow)]
      && Select(t, Helper) == (if yes && home.Some? then [Invoke(ConfigureScript, [home.value])] else [])
  {
    LinuxTraceShape(home, failing, answers);
    LinuxTraceSelect(PostInstallLinux(home, failing, answers).trace, home, answers);
  }

  /** How the Linux step ends: it raises when standard input is exhausted,
      when the answer is yes but HOME is unset, or when the configuration
      helper it ran exits with a non-zero status; otherwise it finishes having
      consumed the one answer line. */
  lemma LinuxOutcome(home: Option<string>, failing: set<KegPath>, answers: seq<string>)
    ensures var r := RunPostInstall(Linux, "", home, failing, answers);
      var yes := |answers| >= 1 && IsYesLine(answers[0]);
      && (|answers| == 0 ==> r.Raised? && r.failure == EndOfInput)
      && (yes && home.None? ==> r.Raised? && r.failure == HomeUnset)
      && (yes && home.Some? && ConfigureScript in failing ==> r.Raised? && r.failure == HelperFailed)
      && (|answers| >= 1 && !(yes && (home.None? || ConfigureScript in failing)) ==> r.Finished? && r.consumed == 1)
  {
    if |answers| >= 1 {
      AffirmativeIffYesLine(answers[0]);
    }
  }

  /** A Linux run that fails at a helper ends with that helper's run. */
  lemma LinuxFailureEndsAtHelper(home: Option<string>, failing: set<KegPath>, answers: seq<string>)
    ensures var r := PostInstallLinux(home, failing, answers);
      r.Raised? && r.failure == HelperFailed ==>
        |r.trace| >= 1 && r.trace[|r.trace| - 1].Invoke? && r.trace[|r.trace| - 1].script in failing
  {
    LinuxTraceShape(home, failing, answers);
    LinuxOutcome(home, failing, answers);
  }

  // ---------------------------------------------------------------------------
  // The whole step
  // ---------------------------------------------------------------------------

  /** The installed files an effect touches are ones placed on `platform`. */
  predicate TouchesInstalledOnly(a: Action, platform: Platform) {
    && (a.CopyFile? ==> a.source in InstalledPaths(platform))
    && (a.WarnPluginDirMissing? ==> a.manualCopy in InstalledPaths(platform))
    && (a.EchoFile? ==> a.path in InstalledPaths(platform))
    && (a.Invoke? ==> a.script in InstalledPaths(platform))
  }

  lemma MacTraceTouchesInstalledOnly(t: seq<Action>, dir: string, failing: set<KegPath>, answers: seq<string>)
    requires IsMacTrace(t, dir, failing, answers)
    ensures forall a :: a in t ==> TouchesInstalledOnly(a, MacOS)
  {
    InstallMatchesDestinations(MacOS);
    assert StagedPlugin in InstalledPaths(MacOS);
    assert ConfigureScript in InstalledPaths(MacOS);
    assert AutostartScript in InstalledPaths(MacOS);
    assert forall a :: a in PluginDirActions(dir) ==> TouchesInstalledOnly(a, MacOS);
    assert forall a :: a in MacConfigurePart(dir, failing, answers) ==> TouchesInstalledOnly(a, MacOS);
    assert forall a :: a in MacAutostartPart(failing, answers) ==> TouchesInstalledOnly(a, MacOS);
  }

  lemma LinuxTouchesInstalledOnly(home: Option<string>, failing: set<KegPath>, answers: seq<string>)
    ensures forall a :: a in PostInstallLinux(home, failing, answers).trace ==> TouchesInstalledOnly(a, Linux)
  {
    InstallMatchesDestinations(Linux);
    assert InstalledSnippet in InstalledPaths(Linux);
    assert ConfigureScript in InstalledPaths(Linux);
    LinuxTraceShape(home, failing, answers);
  }

  /** Every installed file the step touches — the staged plugin it copies or
      names in its warning, the snippet it prints, the helpers it runs — is one
      the install step placed on that platform. */
  lemma EffectsUseInstalledFiles(platform: Platform, prefsOutput: string, home: Option<string>,
                                 failing: set<KegPath>, answers: seq<string>)
    ensures forall a :: a in RunPostInstall(platform, prefsOutput, home, failing, answers).trace ==>
      TouchesInstalledOnly(a, platform)
  {
    match platform
    case MacOS =>
      MacTraceShape(prefsOutput, failing, answers);
      MacTraceTouchesInstalledOnly(PostInstallMacos(prefsOutput, failing, answers).trace,
                                   Strip(prefsOutput), failing, answers);
    case Linux =>
      LinuxTouchesInstalledOnly(home, failing, answers);
    case Other =>
  }

  /** Answer lines are consumed one per question, in order: a finished run
      consumed exactly as many lines as it asked questions; a run that ran out
      of input asked one question more than there were lines; a run stopped by
      a failing helper had an answer for every question it asked; only a yes
      on Linux with HOME unset raises anything else; other hosts do nothing. */
  lemma AnswerAccounting(platform: Platform, prefsOutput: string, home: Option<string>,
                         failing: set<KegPath>, answers: seq<string>)
    ensures var r := RunPostInstall(platform, prefsOutput, home, failing, answers);
      && (r.Finished? ==> r.consumed == |Select(r.trace, Prompt)| <= |answers|)
      && (r.Raised? && r.failure == EndOfInput ==> |Select(r.trace, Prompt)| == |answers| + 1)
      && (r.Raised? && r.failure == HelperFailed ==> |Select(r.trace, Prompt)| <= |answers|)
      && (r.Raised? && r.failure == HomeUnset ==> platform == Linux && home == None)
      && (platform == Other ==> r == Finished([], 0))
  {
    match platform
    case MacOS =>
      MacQuestions(prefsOutput, failing, answers);
      MacOutcome(prefsOutput, failing, answers);
    case Linux =>
      LinuxSequence(home, failing, answers);
      LinuxOutcome(home, failing, answers);
    case Other =>
  }

  /** Helper exit statuses decide the outcome: a run stopped by a failing
      helper ends with that helper's run, and a finished run ran no failing
      helper. */
  predicate HelperStatusRespected(r: Run, failing: set<KegPath>) {
    && (r.Raised? && r.failure == HelperFailed ==>
          |r.trace| >= 1 && r.trace[|r.trace| - 1].Invoke? && r.trace[|r.trace| - 1].script in failing)
    && (r.Finished? ==> forall a :: a in Select(r.trace, Helper) && a.Invoke? ==> a.script !in failing)
  }

  lemma MacHelperStatus(prefsOutput: string, failing: set<KegPath>, answers: seq<string>)
    ensures HelperStatusRespected(PostInstallMacos(prefsOutput, failing, answers), failing)
  {
    MacFailureEndsAtHelper(prefsOutput, failing, answers);
    MacHelpers(prefsOutput, failing, answers);
    MacOutcome(prefsOutput, failing, answers);
  }

  lemma LinuxHelperStatus(home: Option<string>, failing: set<KegPath>, answers: seq<string>)
    ensures HelperStatusRespected(PostInstallLinux(home, failing, answers), failing)
  {
    LinuxFailureEndsAtHelper(home, failing, answers);
    LinuxSequence(home, failing, answers);
    LinuxOutcome(home, failing, answers);
  }

  lemma HelperStatusAccounting(platform: Platform, prefsOutput: string, home: Option<string>,
                               failing: set<KegPath>, answers: seq<string>)
    ensures var r := RunPostInstall(platform, prefsOutput, home, failing, answers);
      && (r.Raised? && r.failure == HelperFailed ==>
            |r.trace| >= 1 && r.trace[|r.trace| - 1].Invoke? && r.trace[|r.trace| - 1].script in failing)
      && (r.Finished? ==> forall a :: a in Select(r.trace, Helper) && a.Invoke? ==> a.script !in failing)
  {
    match platform
    case MacOS => MacHelperStatus(prefsOutput, failing, answers);
    case Linux => LinuxHelperStatus(home, failing, answers);
    case Other =>
  }

  /** The prompt reads only the first line of what remains. */
  lemma PromptSameFirstLine(a: seq<string>, b: seq<string>)
    requires |a| >= 1 && |b| >= 1 && a[0] == b[0]
    ensures PromptYesNo(a) == PromptYesNo(b)
  {
  }

  lemma MacSameFirstTwoLines(prefsOutput: string, failing: set<KegPath>, a: seq<string>, b: seq<string>)
    requires |a| >= 2 && |b| >= 2 && a[0] == b[0] && a[1] == b[1]
    ensures PostInstallMacos(prefsOutput, failing, a) == PostInstallMacos(prefsOutput, failing, b)
  {
    PromptSameFirstLine(a, b);
    PromptSameFirstLine(a[1..], b[1..]);
  }

  lemma LinuxSameFirstLine(home: Option<string>, failing: set<KegPath>, a: seq<string>, b: seq<string>)
    requires |a| >= 1 && |b| >= 1 && a[0] == b[0]
    ensures PostInstallLinux(home, failing, a) == PostInstallLinux(home, failing, b)
  {
    PromptSameFirstLine(a, b);
  }

  /** Lines beyond the ones a finished run consumed are never read: replacing
      them by anything gives the same run. */
  lemma UnreadAnswersIgnored(platform: Platform, prefsOutput: string, home: Option<string>,
                             failing: set<KegPath>, answers: seq<string>, extra: seq<string>)
    requires RunPostInstall(platform, prefsOutput, home, failing, answers).Finished?
    ensures var r := RunPostInstall(platform, prefsOutput, home, failing, answers);
      r.consumed <= |answers|
      && RunPostInstall(platform, prefsOutput, home, failing, answers[..r.consumed] + extra) == r
  {
    var r := RunPostInstall(platform, prefsOutput, home, failing, answers);
    match platform
    case MacOS =>
      assert |answers| >= 2 && r.consumed == 2 by { MacQuestions(prefsOutput, failing, answers); }
      MacSameFirstTwoLines(prefsOutput, failing, answers, answers[..2] + extra);
    case Linux =>
      assert |answers| >= 1 && r.consumed == 1 by { LinuxOutcome(home, failing, answers); }
      LinuxSameFirstLine(home, failing, answers, answers[..1] + extra);
    case Other =>
  }
}
