# Claude Usage Monitor — Homebrew formula model

A Dafny model of the Homebrew formula `claude-usage-monitor.rb`. The formula
installs the Claude usage monitor. On macOS the monitor runs as a SwiftBar
menu-bar plugin, and on Linux as a Polybar module. The model covers four
parts of the formula:

- `install`: which repository file goes to which directory of the installed
  package (the keg), on each platform.
- `post_install`: what happens after installation, modelled as a trace of
  observable effects. On macOS this is copying the staged plugin into the
  SwiftBar plugin directory, making it executable, or warning that the
  directory is unknown. On Linux it is printing the Polybar snippet. On both
  it asks the yes/no questions and runs the helper scripts.
- `prompt_yes_no`: the answer classifier, `$stdin.gets.chomp.downcase` equal
  to `y` or `yes`, with Ruby's `chomp`, `strip` and `downcase` written out.
- `test`: the paths the self-test checks, compared with the paths `install`
  writes.

Modules:

| file | module | contents |
|---|---|---|
| `wrappers.dfy` | `Wrappers` | `Option`, which stands for Ruby's `nil` |
| `ruby_strings.dfy` | `RubyStrings` | `String#strip`, `String#chomp`, `String#downcase` |
| `layout.dfy` | `Layout` | platforms, file and directory names, `install`, the `test` block |
| `post_install.dfy` | `PostInstall` | effects, `prompt_yes_no`, `post_install_macos`, `post_install_linux`, `post_install` |
| `post_install_properties.dfy` | `PostInstallProperties` | the trace lemmas: selection by kind, ordering, answer accounting |

The environment is passed in as parameters:

- The host platform is `MacOS`, `Linux` or `Other`.
- The standard output of `defaults read com.ameba.SwiftBar PluginDirectory`
  is a string.
- `ENV['HOME']` is an `Option<string>`.
- The helper scripts are not modelled. Whether each one exits with a non-zero
  status when run is an input: the set `failing` of installed helpers.
- Standard input is the sequence of lines that `gets` would return, each with
  its terminator.

The model follows the formula's code in these places:

- **End of input.** When input runs out, `gets` returns `nil`, and `nil.chomp`
  raises. The model ends such a run with `Raised(_, EndOfInput)`; it does not
  read the missing line as "no".
- **What counts as yes.** Only the exact words `y` and `yes` count, after one
  line terminator is removed and the word is lower-cased. A line that merely
  begins with `y` is not a yes.
- **Helper exit status.** Inside a formula, `system` is Homebrew's
  `Formula#system`, which raises when the command exits with a non-zero
  status. A failing helper therefore ends the step right after its run, with
  `Raised(_, HelperFailed)`. On macOS a failing configuration helper means the
  autostart question is never asked.
- **Other hosts.** A host that is neither macOS nor Linux gets only the
  documents from `install` and nothing from `post_install`. No error is
  raised.
- **HOME unset on Linux.** If the Linux answer is yes and `HOME` is unset,
  `system` is passed `nil` as the helper's argument. The model takes this to
  raise and ends the run with `Raised(_, HomeUnset)`; see "Left out".
- **The `test` block on other hosts.** The block's first assertion
  (`bin/configure-claude-json.sh` is executable) sits outside the platform
  conditional. On any other host it therefore names a file that `install`
  never wrote (`Layout.TestPathsAreInstalled`).

## Model

| member | source | states |
|---|---|---|
| Layout.InstallMatchesDestinations | homebrew/Formula/claude-usage-monitor.rb:27-51 | `install` writes file `f` into keg directory `d` exactly when the per-platform destination table says so. On macOS the monitor goes to `share/swiftbar-plugins`; on Linux it goes to `bin` and the snippet to `share/polybar-modules`. The JSON configuration helper goes to `bin` on both, the autostart helper to `bin` only on macOS, and both documents to `doc` everywhere |
| Layout.InstallReadsFromSources | homebrew/Formula/claude-usage-monitor.rb:31-50 | every placement reads its file from the repository directory a separate table names: the helper scripts from `scripts/`, the Polybar snippet from `plugins/polybar/`, and the monitor script and documents from the root |
| Layout.InstalledPathsDistinct | homebrew/Formula/claude-usage-monitor.rb:27-51 | no two placements on one platform write the same path |
| Layout.TestPathsAreInstalled | homebrew/Formula/claude-usage-monitor.rb:159-170 | every path the self-test asserts was written by `install` exactly when the platform is macOS or Linux |
| RubyStrings.StripLeading | homebrew/Formula/claude-usage-monitor.rb:72 | the result is a suffix of the input, everything removed is strip-space, and the result does not begin with strip-space |
| RubyStrings.StripTrailing | homebrew/Formula/claude-usage-monitor.rb:72 | the result is a prefix of the input, everything removed is strip-space, and the result does not end with strip-space |
| RubyStrings.Strip | homebrew/Formula/claude-usage-monitor.rb:72 | the stripped plugin directory is no longer than the output it came from, and is empty or begins and ends with a character other than strip-space |
| RubyStrings.StripIsPaddedInfix | homebrew/Formula/claude-usage-monitor.rb:72 | `strip` returns a contiguous infix of its input, and everything before and after that infix is strip-space |
| RubyStrings.StripRecoversCore | homebrew/Formula/claude-usage-monitor.rb:72-74 | round trip: padding a trimmed string with any strip-space on either side and stripping gives the string back |
| RubyStrings.StripEmptyIffAllSpace | homebrew/Formula/claude-usage-monitor.rb:72-74 | the `plugin_dir.empty?` branch is taken exactly when the `defaults` output is all strip-space, including when it is empty |
| RubyStrings.StripIdempotent | homebrew/Formula/claude-usage-monitor.rb:72 | stripping twice gives the same result as stripping once |
| RubyStrings.Chomp | homebrew/Formula/claude-usage-monitor.rb:63 | `chomp` removes a prefix-preserving suffix that is one of "", "\n", "\r" or "\r\n". It removes nothing exactly when the line does not end in "\n" or "\r", and removes both characters of a final "\r\n" |
| RubyStrings.ChompRecoversLine | homebrew/Formula/claude-usage-monitor.rb:63 | round trip: a line without a trailing terminator, followed by any one terminator, chomps back to the line |
| RubyStrings.LowerChar | homebrew/Formula/claude-usage-monitor.rb:63 | lower-casing a character gives `y`, `e` or `s` exactly when the character is that letter in either case, and gives a lower-case ASCII letter exactly when the character is an ASCII letter |
| PostInstall.AffirmativeIffYesLine | homebrew/Formula/claude-usage-monitor.rb:61-65 | the classifier `chomp.downcase` in {"y", "yes"} accepts exactly the words y/yes, in any letter case, followed by at most one line terminator |
| PostInstall.PromptYesNo | homebrew/Formula/claude-usage-monitor.rb:61-65 | a question yields no answer exactly when standard input is exhausted; otherwise it answers yes exactly when the first remaining line is a yes-line |
| PostInstallProperties.MacTraceShape | homebrew/Formula/claude-usage-monitor.rb:67-108 | the macOS trace is, in order: the plugin-directory effects, the first question, the configuration step, the second question, then the autostart step. It stops at the first question that finds no line, or right after a helper that failed |
| PostInstallProperties.MacPluginDirectory | homebrew/Formula/claude-usage-monitor.rb:71-84 | the plugin is copied into the stripped directory and set to mode 0755 exactly when the `defaults` output has a non-space character. Otherwise the only such effect is the warning naming the staged file. Either way this happens before any question |
| PostInstallProperties.MacChmodTargetsCopy | homebrew/Formula/claude-usage-monitor.rb:80-82 | the file set to mode 0755 is the very file the copy just wrote: the destination directory plus the staged file's name |
| PostInstallProperties.MacQuestions | homebrew/Formula/claude-usage-monitor.rb:100-107 | macOS asks the configuration question, then the autostart question whatever the first answer was, unless the configuration helper it ran failed. A finished run has read exactly two lines |
| PostInstallProperties.MacOutcome | homebrew/Formula/claude-usage-monitor.rb:100-107 | the macOS run raises at the end of input exactly when a question it asks finds no line. It raises a helper failure exactly when a helper it runs exits non-zero. It finishes, having read two lines, exactly when neither happens |
| PostInstallProperties.MacHelpers | homebrew/Formula/claude-usage-monitor.rb:100-107 | the JSON configuration helper runs with the plugin directory as its one argument exactly when the first answer is yes. The autostart helper runs with no arguments exactly when the second answer is yes and the configuration helper did not fail. Nothing else is run |
| PostInstallProperties.LinuxTraceShape | homebrew/Formula/claude-usage-monitor.rb:110-130 | the Linux trace is the snippet echo, the question, then the configuration helper with HOME when the answer is yes and HOME is set |
| PostInstallProperties.LinuxSequence | homebrew/Formula/claude-usage-monitor.rb:110-130 | Linux prints the installed Polybar snippet and then asks one question. It never copies, changes modes or warns. It runs only the JSON configuration helper, with HOME, and only on a yes |
| PostInstallProperties.LinuxOutcome | homebrew/Formula/claude-usage-monitor.rb:127-129 | Linux raises at the end of input, on a yes with HOME unset, or on a yes when the configuration helper exits non-zero. Otherwise it finishes having read one line |
| PostInstallProperties.EffectsUseInstalledFiles | homebrew/Formula/claude-usage-monitor.rb:53-59 | every keg file that `post_install` copies, names, prints or runs was written by `install` on the same platform |
| PostInstallProperties.AnswerAccounting | homebrew/Formula/claude-usage-monitor.rb:53-59 | a finished run consumed one line per question asked. A run that hit the end of input asked one question more than there were lines. A run stopped by a failing helper had a line for every question it asked. Only Linux with HOME unset raises anything else. Other hosts do nothing |
| PostInstallProperties.HelperStatusAccounting | homebrew/Formula/claude-usage-monitor.rb:100-129 | a run stopped by a failing helper ends with that helper's run, and every helper a finished run ran exited zero |
| PostInstallProperties.UnreadAnswersIgnored | homebrew/Formula/claude-usage-monitor.rb:61-65 | lines after the ones a finished run consumed are never read: replacing them with anything gives the same run |

## Left out

- Formula metadata is not modelled, because none of it has behaviour to prove: `desc`, `homepage`, `url`, `sha256`, `license`, `depends_on`, and the `caveats` text.
- Console output is not modelled. The `ohai` and `opoo` banners, the `puts` lines and the question text are omitted. The warning about a missing plugin directory and the echoed Polybar snippet are kept as single effects.
- File-system and process effects are abstract actions. `FileUtils.cp`, `FileUtils.chmod`, `File.read` and `system` are recorded in the trace but not carried out.
- The `defaults` subprocess is not run. Its captured output is a parameter, and a failure of that command is just whatever output it left.
- A missing or unreadable snippet file makes `File.read` raise; this is not modelled, because the model takes the file `install` wrote to be readable.
- Errors from `FileUtils.cp` and `FileUtils.chmod` are not modelled. Examples are a plugin directory that does not exist or cannot be written.
- Layout.TestBlock: the `:executable?` and `:exist?` predicates are recorded as labels on the asserted paths. File permission bits are not modelled.
- RubyStrings.Downcase: lower-cases ASCII `A`-`Z` only, where Ruby maps all of Unicode. No character outside ASCII lower-cases to `y`, `e` or `s`, so the yes/no outcome is the same. Answer lines are sequences of Unicode characters. So a line holding bytes invalid in the input encoding cannot be given, and the `ArgumentError` that `downcase` raises on such a line in a UTF-8 locale is not modelled.
- RubyStrings.Strip: models strings as sequences of characters. Invalid byte sequences in the `defaults` output are not modelled.
- PostInstall.PostInstallLinux: `HomeUnset` assumes that `system` rejects a `nil` argument. How Homebrew's `Formula#system` treats `nil` is defined outside this formula.
- PostInstallProperties.MacQuestions: a helper's exit status is an input set, not derived from the helper script. The helper scripts are not part of this model.
- PostInstallProperties.MacHelpers: the arguments are modelled, but not what the helper does with them. Only whether it exits non-zero matters.
- Timing and concurrency are not modelled, including the effect of the helper scripts themselves. The helpers' own behaviour lives in other files and is not part of this model.
