# PythonModule release and template tooling, modelled in Dafny

PythonModule is a template repository for a Python package with two scripts:

- `release_package.py` builds, installs, uploads, tags, releases and publishes the package.
- `init_template.py` turns the template into a new package. It renames the `python_module` template, rewrites a few files and commits the result.

Both scripts are mostly calls to `git`, `pip`, `build`, `aws`, `gh` and `twine`. This project models the logic between those calls and proves what it does.

**The release orchestrator (`release_package.py`)**
- It derives the dashed package name and the wheel file name.
- It removes old wheels from `dist/`.
- It checks an ordered list of preconditions (the sanity gate) and exits on the first failure.
- It reads `--mode` and four flags and dispatches them into an ordered plan of steps.
- It bumps the version: despite the function's name, the bump is to the *patch* number.
- It writes the temporary release notes file.
- It runs the plan over the project state: the version in `setup.cfg`, the listing of `dist/`, `RELEASE.md`, and the commands started so far.

**The template initializer (`init_template.py`)**
- It derives the human-readable name of the package (`capitalize_name`).
- It edits files line by line (`replace_in_file`) and replaces whole files (`replace_content_file`).
- It runs a fixed sequence of edits and `git mv` renames (`replace_template_name`) and then commits.

## Files

- `results.dfy` (module `Results`): the `Option` and `Result` datatypes.
- `processes.dfy` (module `Processes`): the `Command` type, a started process as its argument vector.
- `strings.dfy` (module `Strings`): the Python string operations the scripts use.
  - `str.replace` is `ReplaceAll`.
  - Reading a file in text mode is `UniversalNewlines`. Iterating over its lines, each line keeping its newline, is `SplitLines`.
  - `str.split` and `str.join` are `Split` and `Join`.
- `decimal.dfy` (module `Decimal`): digit strings and their values. This covers `int()` on digit-only text and the decimal formatting of an f-string.
- `versions.dfy` (module `Versions`): reading the `X.Y.Z` version and bumping it.
- `release.dfy` (module `ReleasePackage`): the release orchestrator.
  - Its pure model is the plan (`Plan`) and the run (`Apply`, `RunSteps`, `Main`).
  - The class `Project` holds the fields that a run of `main` updates in place, with one method per imperative step.
- `init_template.dfy` (module `InitTemplate`): the template initializer.
  - `capitalize_name` sits beside an independent character-by-character reference definition (`Render`).
  - The file edits and the `git mv` renames act on a map from paths to file contents.
  - `RewriteTemplate` is the pure outcome of `replace_template_name`.
  - The class `Workspace` edits the working copy step by step and is proved equal to that outcome.

**How the external world is represented**
- Every process that a step of the release plan, a rename or the commit starts is recorded as its argument vector, in a command log.
- The `--version` probes that `sanity_check` starts through `executable_exists` are not logged. The gate sees their outcome as the set of executables present.
- What those tools do to the world is not modelled. Their exit statuses are never checked by the scripts, and the model does not check them either.
- These are parameters of the model:
  - which executables exist;
  - whether `src/<name>` and `~/.pypirc` exist;
  - the parsed `RELEASE_NOTES.json`;
  - the interpreter names;
  - the current year.

## Behaviour worth knowing

- **`git mv` exit status is not checked** (init_template.py:61-69).
  - A refused rename leaves the tree as it was, and the script goes on.
  - Only the later edit of the missing renamed test module raises (line 69), and then `main` never reaches the commit (line 98).
  - See `RefusedTestMoveSkipsCommit`.
- **The release notes are checked twice, for two different versions.**
  - The gate checks the notes for the version read at start-up (release_package.py:77).
  - `tmp_release_notes` checks them again (line 214) for the version in effect, which is the incremented one after lines 287-289.
  - The failure occurs when all of these hold:
    - `--increment-version --create-release` is given;
    - the mode is not `uninstall` (line 315);
    - the gate passes;
    - the notes name the start-up version but not the incremented one.
  - Then the script exits with status 1 after the new version was written back to `setup.cfg` and the mode's steps and the upload ran, and before anything is tagged.
  - See `ReleaseWithoutNotesStopsBeforeTagging`.
- **Files edited line by line are read in text mode** (init_template.py:15-17).
  - Every `\r\n` and every lone `\r` is read as `\n`, and the lines are written back with `\n`.
  - So a file with Windows line ends comes back with Unix ones, even where the literal does not occur.
  - See `UniversalNewlines` and `EditWithoutMatch`.
- **A name of several words gives a class name with spaces** (init_template.py:67-69).
  - `capitalize_name` joins the capitalised words with `' '`, and the class line uses it as it is.
  - So `my_tool` gives `class My ToolTest(unittest.TestCase):`, which is not valid Python.
  - See `ClassLineSpaces` and `ClassLineMyTool`.

## Model

| member | source | states |
|---|---|---|
| ReleasePackage.DashName | release_package.py:22 | The dashed name has the same length; each `_` became `-` and every other character is kept; no `_` is left |
| ReleasePackage.WheelFile | release_package.py:98 | The wheel file name always starts with the cleanup prefix `name-` |
| ReleasePackage.WheelPath | release_package.py:94-98 | `wheel_path()`; `WheelPathInDist` states where it points |
| ReleasePackage.WheelPathInDist | release_package.py:94-98 | The wheel path lies in `dist/` of the project directory and names the wheel file, which the cleanup of old wheels removes |
| ReleasePackage.AfterCleanup | release_package.py:144-151 | A missing `dist/` stays missing; otherwise a file survives exactly when it was there and does not start with `name-` |
| ReleasePackage.CleanupRemovesEveryWheel | release_package.py:144-151 | After cleanup no wheel of any version of the package remains, and no file is added |
| ReleasePackage.ParseMode | release_package.py:256-260 | An absent `--mode` means reinstall; a value is accepted exactly when it is one of the five choices, and then it selects the mode of that name; any other value is refused and reported |
| ReleasePackage.ParseModeName | release_package.py:256-260 | Every mode's own name selects that mode |
| ReleasePackage.ReleaseVersionExists | release_package.py:193-201 | `release_version_exists`: a version has notes exactly when it is a key of `releases`; `SanityCheck` states how the gate uses it for the start-up version, `RunReleaseStage` and `ReleaseWithoutNotesStopsBeforeTagging` how the notes step uses it for the version in effect |
| ReleasePackage.SanityCheck | release_package.py:70-91 | The gate passes exactly when all the checks hold; each failure is reported exactly when every earlier check passed and its own check fails, in source order; the missing release notes are reported for the version given |
| ReleasePackage.ModeSteps | release_package.py:292-308 | The fixed step sequence of each mode; its properties are stated by `ModeStepsAreMandatory`, `ModeStepsAscending`, `PlanStartsWithMode` and `RunMode` |
| ReleasePackage.Plan | release_package.py:287-322 | The steps `main` runs after the gate, in order; its properties are stated by `PlanStages`, `PlanFollowsPipelineOrder`, `PlanStartsWithMode`, `UninstallPlan`, `PlanBuildsBeforeUse` and `PlanCleansBeforeBuild` |
| ReleasePackage.ModeStepsAreMandatory | release_package.py:292-310 | A mode's own steps are never the increment or an optional stage |
| ReleasePackage.PlanStages | release_package.py:287-322 | `uninstall` plans contain no optional stage; the increment, upload, tag, release and publish stages appear exactly when their flag is set (and the mode is not uninstall for the last four); the increment comes first |
| ReleasePackage.BeforeReleaseAscending | release_package.py:287-313 | The increment, the mode's steps and the upload come in pipeline order, without repetition |
| ReleasePackage.FromReleaseAscending | release_package.py:315-322 | The release stage and the publish stage come in pipeline order, without repetition |
| ReleasePackage.PlanFollowsPipelineOrder | release_package.py:287-322 | Every plan follows the pipeline order (increment, cleanup, uninstall, build, install, upload, notes, tag, release, remove notes, publish) and repeats no step |
| ReleasePackage.PlanStartsWithMode | release_package.py:287-308 | The mode's steps come right after the optional increment |
| ReleasePackage.UninstallPlan | release_package.py:307-322 | `uninstall` plans are the optional increment followed by the uninstall only |
| ReleasePackage.PlanBuildsBeforeUse | release_package.py:292-322 | Every install, upload, release or publish step of a plan comes after a build in the same plan |
| ReleasePackage.PlanCleansBeforeBuild | release_package.py:294-306 | In every mode other than build, the wheel is built only after `dist/` was cleaned |
| ReleasePackage.DownloadUrl | release_package.py:219-222 | The download link with its three fields filled in. `DownloadUrlIsFormat` states that this is what `format` gives for every template without stray braces, `DownloadUrlOfWheel` states the result for the wheel layout, and `DownloadUrlWithoutFields` states that a link naming no field is used as it is |
| ReleasePackage.DownloadUrlWithoutFields | release_package.py:219-222 | A download link without any `{` is used as it is, whatever the version and package name |
| ReleasePackage.Format | release_package.py:220-222 | `str.format` with the keywords `version`, `package_name` and `package_name_dash`, as a reference definition over a template parsed into literal text and fields |
| ReleasePackage.ReplaceFieldFills | release_package.py:220-222 | Replacing one field's text by a value without braces writes that field in and leaves the rest of the template as it was |
| ReleasePackage.FilledIsFormat | release_package.py:220-222 | Once the three fields are written in, the template's text is what `format` produces |
| ReleasePackage.DownloadUrlIsFormat | release_package.py:219-222 | For a template whose literal text has no brace, and a version and package name without braces, the three replacements give exactly `format`'s result |
| ReleasePackage.DownloadUrlOfWheel | release_package.py:219-222 | A link `<prefix>{package_name}-{version}-py3-none-any.whl` becomes the prefix followed by the wheel file name of the package and the version |
| ReleasePackage.NotesLines | release_package.py:228-233 | The lines of RELEASE.md; the loop `RenderReleaseNotes` is proved to produce them, and its contract states their layout |
| ReleasePackage.RenderReleaseNotes | release_package.py:228-233 | The notes file is the header, one `* note` line per note in input order, the URL heading and the link line: notes + 3 lines |
| ReleasePackage.Commands | release_package.py:101-190 | The argument vectors each step starts, formed with the version in effect; `RunIssuingSteps`, `UninstallRunsOnlyUninstall` and `SuccessfulRun` state which of them a run logs |
| ReleasePackage.PlanCommandsAppend | release_package.py:292-322 | The commands of two consecutive step sequences are the commands of the first followed by those of the second |
| ReleasePackage.Apply | release_package.py:287-322 | The effect of one step on the state; `ApplyIssuing`, `RunIncrementPart`, `RunMode` and `RunReleaseStage` state it step by step, and `Project.Execute` is proved to have it |
| ReleasePackage.RunSteps | release_package.py:287-322 | The steps run in order until one halts; `RunStepsAppend` and `RunBoth` state how runs compose, and `Project.RunPlanSteps` is proved to run them |
| ReleasePackage.Main | release_package.py:285-322 | The gate, then the plan; `MainPassesGate`, `GateStopsBeforeAnyStep`, `SuccessfulRun`, `UninstallRunsOnlyUninstall` and `ReleaseWithoutNotesStopsBeforeTagging` state its outcomes, and `Project.RunMain` is proved equal to it |
| ReleasePackage.RunStepsAppend | release_package.py:287-322 | Running two step sequences one after the other is running their concatenation, stopping where the first stops |
| ReleasePackage.RunIssuingSteps | release_package.py:101-190 | Steps that only start processes change nothing but the log, which grows by their commands formed with the current version |
| ReleasePackage.ApplyIssuing | release_package.py:101-190 | A single step that only starts processes appends its commands to the log and changes nothing else |
| ReleasePackage.RunMode | release_package.py:292-308 | A mode's steps clean `dist/` exactly when the mode cleans, and otherwise only log their commands |
| ReleasePackage.RunReleaseStage | release_package.py:315-319 | Without notes for the version, the release stage exits with status 1 and changes nothing; with them, it logs the tag and release commands and leaves no notes file |
| ReleasePackage.MainPassesGate | release_package.py:285-322 | A run the gate lets through is the run of its plan |
| ReleasePackage.RunIncrementPart | release_package.py:287-290 | The optional increment only writes the new version back and starts no process |
| ReleasePackage.RunModeAndUpload | release_package.py:292-313 | The mode and the upload have the mode's effect on `dist/` and log their commands, nothing more |
| ReleasePackage.RunBeforeRelease | release_package.py:287-313 | The steps before the release stage leave the version in effect, the mode's `dist/` and their commands formed with that version |
| ReleasePackage.RunAfterRelease | release_package.py:315-322 | With notes for the version, the release and publish stages log their commands and leave no notes file |
| ReleasePackage.RunBoth | release_package.py:287-322 | Two runs that end normally chain into the run of both step sequences |
| ReleasePackage.PlanLog | release_package.py:287-322 | The commands of a plan are those of the steps before the release stage followed by those of the rest |
| ReleasePackage.RunPlan | release_package.py:287-322 | A plan whose increment succeeds and whose release has notes runs to the end, with the closed-form final state |
| ReleasePackage.SuccessfulRun | release_package.py:285-322 | A run that passes the gate and has its notes ends normally. The final version is the incremented one when asked. `dist/` is cleaned by the cleaning modes. No notes file is left. The log is exactly the plan's commands, formed with the final version |
| ReleasePackage.GateStopsBeforeAnyStep | release_package.py:285 | A run the gate stops changes nothing and exits with the gate's reason |
| ReleasePackage.UninstallRunsOnlyUninstall | release_package.py:307-322 | With `--mode uninstall` and a gate that passes, the only command the plan's steps start is `pip uninstall -y <dashed name>`, whatever flags are given; the version is still bumped when asked |
| ReleasePackage.ReleaseWithoutNotesStopsBeforeTagging | release_package.py:214-216 | A release that passed the gate but lacks notes for the version in effect happens only with `--increment-version`. It exits with status 1 before tagging or creating the release. By then the new version is written and the earlier steps' commands were started |
| ReleasePackage.RunFailingRelease | release_package.py:315-319 | The release stage without notes ends the run before anything else of the stage or the publish happens |
| ReleasePackage.Project.IncrementMinorVersion | release_package.py:287-289 | The result is the bump of the current version. The field is reassigned only on success. Nothing else changes |
| ReleasePackage.Project.CleanupOldWheels | release_package.py:144-151 | The loop that removes files one by one leaves exactly the cleaned listing and leaves the other fields as they were |
| ReleasePackage.Project.WriteReleaseNotes | release_package.py:204-234 | Writing the notes file has the effect of the notes step: an exit for a version without notes, the rendered lines otherwise |
| ReleasePackage.Project.RemoveReleaseNotes | release_package.py:319 | Removing the notes file has the effect of the removal step; a missing file raises |
| ReleasePackage.Project.Execute | release_package.py:287-322 | Executing a step in place has exactly the effect of that step on the state |
| ReleasePackage.Project.RunPlanSteps | release_package.py:292-322 | The loop over the plan leaves exactly the state and halt of running the steps in order, stopping at the first that halts |
| ReleasePackage.Project.RunMain | release_package.py:285-322 | `main` in place leaves exactly the state and halt of the gate followed by the plan |
| Versions.FirstNonNumeral | release_package.py:245 | Finds the first part that `int()` refuses, with all earlier parts numerals, or reports that every part is a numeral |
| Versions.ParseVersion | release_package.py:244-245 | A version reads exactly when it splits on `.` into three numerals, and then gives their values. A non-numeral part is reported, the first one. A wrong number of all-numeral parts is reported with the count |
| Versions.FormatVersion | release_package.py:247 | The f-string of the new version; `ParseFormat` states that it reads back as the same numbers, `IncrementDropsLeadingZeros` that leading zeros are not kept |
| Versions.ParseFormat | release_package.py:245-247 | Formatting a version and reading it back gives the same three numbers |
| Versions.IncrementPatch | release_package.py:237-251 | The bump succeeds exactly when the version reads, and otherwise reports the read's error. The result reads back as the same major and minor with the patch plus one |
| Versions.IncrementTwice | release_package.py:237-251 | Bumping twice adds two to the patch number |
| Versions.IncrementDocExample | release_package.py:239 | 2.2.9 becomes 2.2.10 |
| Versions.ParseLeadingZeros | release_package.py:245 | `int()` reads `02` as 2 |
| Versions.IncrementDropsLeadingZeros | release_package.py:245-247 | 1.02.3 becomes 1.2.4: leading zeros are not written back |
| Versions.SplitFourParts | release_package.py:245 | `1.2.3.4` splits into four parts |
| Versions.IncrementRefusesFourParts | release_package.py:245 | A version with four components is refused for its count |
| Versions.IncrementRefusesEmptyPart | release_package.py:245 | An empty component is refused by `int()` before the parts are counted |
| Decimal.Numeral | release_package.py:247 | The decimal text of a number is a numeral whose value is that number, without leading zeros |
| Decimal.NumeralHasNoDot | release_package.py:247 | The decimal text of a number contains no `.` |
| Decimal.IsNumeral | release_package.py:245 | The parts `int()` accepts in the model, one or more ASCII digits; `Versions.ParseVersion` reads exactly those, and `Numeral` always writes one |
| Decimal.Value | release_package.py:245 | `int()` of a digit string; `Numeral` states that it reads back the decimal text of every number, and `LeadingZeroIgnored` that a leading zero changes nothing |
| Decimal.LeadingZeroIgnored | release_package.py:245 | A leading zero does not change the value of a digit string |
| Strings.Split | release_package.py:245 | `split` gives at least one part, and no part contains the separator |
| Strings.StartsWith | release_package.py:150 | `str.startswith`; `StartsWithAppend` states that a text's prefix is a prefix of every extension of it, `MismatchAt` that one differing character rules a prefix out, and `ReleasePackage.WheelFile` that a wheel name starts with the cleanup prefix |
| Strings.MismatchAt | release_package.py:150 | A text that differs from a literal at a position both have does not start with it |
| Strings.Contains | init_template.py:17 | Whether the literal occurs in a text; `OccurrencesZeroIff` states that it holds exactly when `replace` has something to replace, and `ReplaceAllNoMatch` that without it nothing changes |
| Strings.SplitJoin | init_template.py:75 | Splitting the join of separator-free words gives the words back |
| Strings.JoinSplit | init_template.py:75 | Joining the parts of a split gives the text back |
| Strings.Join | init_template.py:75 | `sep.join`; `JoinSplit` and `SplitJoin` state that it inverts `Split` |
| Strings.ReplaceAll | init_template.py:17 | `str.replace`; its properties are stated by `ReplaceAllNoMatch`, `ReplaceAllSelf`, `ReplaceAllLength`, `OccurrencesZeroIff`, `ReplaceAllCanLeaveOccurrence` and `ReplaceAllAppendLine` |
| Strings.NotContainsFirstChar | init_template.py:17 | A literal whose first character the text lacks does not occur in it |
| Strings.ReplaceAllNoMatch | init_template.py:17 | A text without the literal is left unchanged by `replace` |
| Strings.OccurrencesZeroIff | init_template.py:17 | The literal occurs zero times exactly when the text does not contain it |
| Strings.ReplaceAllLength | init_template.py:17 | The replaced text has the old length plus the number of occurrences times the growth of each |
| Strings.ReplaceAllSelf | init_template.py:17 | Replacing a literal by itself changes nothing |
| Strings.ReplaceAllCanLeaveOccurrence | init_template.py:17 | A replacement can create a new occurrence of the literal from the text around it |
| Strings.ReplaceAllKeepsPrefix | init_template.py:17 | Text at which no occurrence of the literal starts is copied by `replace` as it is, and the scan goes on after it |
| Strings.LacksFirstCharKept | init_template.py:17 | Text without the literal's first character is copied by `replace` as it is |
| Strings.ReplaceAllLeading | init_template.py:17 | An occurrence at the start is replaced, and the scan goes on after it |
| Strings.UniversalNewlines | init_template.py:15 | Text-mode reading of a file turns every `\r\n` and lone `\r` into `\n`; the text read holds no `\r` |
| Strings.UniversalNewlinesWithoutCR | init_template.py:15 | Text without `\r` is read as it is |
| Strings.UniversalNewlinesExample | init_template.py:15 | `a\r\nb\rc` is read as `a\nb\nc` |
| Strings.SplitLines | init_template.py:15-16 | The lines of the text as read concatenate back to it, none is empty, every line but the last ends with its newline, and none has a newline before its end |
| Strings.ReplaceAllAppendLine | init_template.py:15-17 | A literal without a newline never spans the end of a line, so replacing in a line and the rest separately is replacing in the whole |
| Strings.ReplaceByLine | init_template.py:15-17 | The text `replace_in_file` writes back; `ReplaceByLineIsReplaceAll` and `InitTemplate.ReplaceEachLines` state what it is |
| Strings.ReplaceByLineIsReplaceAll | init_template.py:15-17 | Line-by-line replacement of a non-empty literal without a newline is the replacement in the whole text as text mode reads it, which is the file's own text when it holds no `\r` |
| InitTemplate.LowerAll | init_template.py:75 | Lower-casing keeps the length |
| InitTemplate.LowerAllAt | init_template.py:75 | Lower-casing maps each character to its lower case |
| InitTemplate.Capitalize | init_template.py:75 | Capitalising keeps the length |
| InitTemplate.CapitalizeAt | init_template.py:75 | A capitalised word's first character is upper case and every other one its lower case |
| InitTemplate.CapitalizeIdempotent | init_template.py:75 | Capitalising a capitalised word leaves it unchanged |
| InitTemplate.CapitalizeName | init_template.py:73-75 | `capitalize_name`; `CapitalizeNameIsRender`, `CapitalizeNamePositions`, `CapitalizeNameWords` and `CapitalizeMyTool` state what it produces |
| InitTemplate.RenderSplit | init_template.py:73-75 | The character-by-character reference rendering equals the capitalise-and-join of the split parts |
| InitTemplate.CapitalizeNameIsRender | init_template.py:73-75 | `capitalize_name` equals the independent reference rendering |
| InitTemplate.RenderAt | init_template.py:73-75 | The reference rendering has one character per input character, given by a per-position rule |
| InitTemplate.CapitalizeNamePositions | init_template.py:73-75 | The result has the length of the name and no `_`. Each `_` became a space at the same position. A letter after `_` or at the start is upper case, and every other letter is lower case |
| InitTemplate.CapitalizeNameWords | init_template.py:73-75 | For a name without spaces, splitting the result on spaces gives the capitalised parts `_` separated |
| InitTemplate.CapitalizeMyTool | init_template.py:73-75 | `my_tool` becomes `My Tool` |
| InitTemplate.ClassLineSpaces | init_template.py:67-69 | The new test class line starts with `class `, and every `_` of the name is a space in the class name at the same position |
| InitTemplate.ClassLineMyTool | init_template.py:67-69 | For `my_tool` the new test class line is `class My ToolTest(unittest.TestCase):` |
| InitTemplate.Edit | init_template.py:11-17 | A missing file raises file-not-found and changes nothing. Otherwise the same files remain, the file gets its line-by-line replacement, and every other file is unchanged |
| InitTemplate.ReplaceEachLines | init_template.py:15-17 | The same number of lines, in order. A line without the literal is unchanged. Every other line is the replace-all of that line, with the length that implies |
| InitTemplate.EditWithoutMatch | init_template.py:15-17 | A file that, as text mode reads it, does not contain the literal only has its line ends rewritten as `\n`; a file without `\r` is left exactly as it was |
| InitTemplate.MoveAllowed | init_template.py:61-64 | When `git mv` moves: something exists at the source, nothing at the destination, and the destination is not below the source; `Moved`, `AllowedNotUnder`, `MovedVacatesSource` and `MoveBackAllowed` state its consequences |
| InitTemplate.Moved | init_template.py:61-64 | A refused `git mv` changes nothing. An allowed one moves every path below the source below the destination, with its content. It keeps every other file, and adds no other path |
| InitTemplate.MovedKeeps | init_template.py:61-64 | A file not below the source keeps its path and its content |
| InitTemplate.MovedOrigin | init_template.py:61-64 | A path of the moved tree that is not below the destination was there before with the same content |
| InitTemplate.MovedPresent | init_template.py:61-64 | A move between paths that differ from a third at some character does not change what exists at the third |
| InitTemplate.AllowedNotUnder | init_template.py:61-64 | The source of an allowed move never lies below its destination |
| InitTemplate.MovedVacatesSource | init_template.py:61-64 | After an allowed move nothing is left below the source |
| InitTemplate.MoveBackAllowed | init_template.py:61-64 | After an allowed move the reverse move is allowed |
| InitTemplate.RelocateBack | init_template.py:61-64 | A path renamed to the destination and back is the path it was |
| InitTemplate.MoveBackAt | init_template.py:61-64 | Every path of the tree moved there and back was in the original tree, with the same content |
| InitTemplate.MoveBackWithin | init_template.py:61-64 | The tree moved there and back holds nothing the original tree did not |
| InitTemplate.MoveBackCovers | init_template.py:61-64 | The tree moved there and back holds every file of the original tree |
| InitTemplate.MoveBack | init_template.py:61-64 | Moving back undoes an allowed move |
| InitTemplate.Renamed | init_template.py:61-64 | The package rename, then the test module rename; `RenamedKeeps`, `RenamedMovesSrc`, `RenamedMovesTest` and `RenamedLosesTest` state what they do |
| InitTemplate.RenamedKeeps | init_template.py:61-64 | The two renames keep every file below neither source |
| InitTemplate.RenamedMovesSrc | init_template.py:61 | When the package rename is allowed, every file below `src/<template>` ends up at the matching path below `src/<new>`, with its content, and nothing is left below `src/<template>` |
| InitTemplate.AfterLicense | init_template.py:56-69 | The steps after LICENSE: the setup.py edit, the two logged renames, the test-class edit; `AfterLicenseKeeps`, `AfterLicenseDescribes` and `AfterLicenseRenamesTest` state its outcome, and `Workspace.DescribeAndRename` is proved equal to it |
| InitTemplate.RewriteTemplate | init_template.py:28-69 | `replace_template_name` as its outcome on the tree and the log; `RewriteStopsAtFirstMissing`, `ReadmeWritten`, `SetupCfgRenamed`, `LicenseDated`, `SetupPyDescribed`, `SrcPackageRenamed` and `TestModuleRenamed` state it, and `Workspace.ReplaceTemplateName` is proved equal to it |
| InitTemplate.InitializeOutcome | init_template.py:92-99 | The rewrite, then the commit only when it got through; `TestModuleRenamed` and `RefusedTestMoveSkipsCommit` state both cases, and `Workspace.Initialize` is proved equal to it |
| InitTemplate.MainParams | init_template.py:83-95 | The fixed template name and the argparse defaults: an empty description and the default author; `Workspace.Initialize` runs with them |
| InitTemplate.AfterLicenseKeeps | init_template.py:56-69 | The edits and renames after LICENSE keep every file other than setup.py and the new test module that lies below neither renamed source |
| InitTemplate.AfterLicenseMovesSrc | init_template.py:56-69 | After LICENSE, an allowed package rename leaves every file of `src/<template>` at its path below `src/<new>`, with its content, and nothing below `src/<template>`, whether or not the test-class edit raises |
| InitTemplate.RewriteStopsAtFirstMissing | init_template.py:36-69 | A missing setup.cfg, LICENSE or setup.py stops the rewrite there, in that order, before either rename. With all three present both `git mv` commands are started, and only the renamed test module can still be missing |
| InitTemplate.ReadmeWritten | init_template.py:43-44 | Once setup.cfg exists, README.md ends up holding exactly `# <capitalised name>`, a blank line, the description and a blank line, whatever it held before |
| InitTemplate.SetupCfgEdited | init_template.py:37-39 | Once setup.cfg exists, it ends up holding its line-by-line edit, whatever the later steps do |
| InitTemplate.SetupCfgRenamed | init_template.py:37-39 | Every `name = <template>` in setup.cfg, as text mode reads it, becomes `name = <new name>`; nothing else in the file changes but the line ends, written as `\n` |
| InitTemplate.LicenseDated | init_template.py:50-52 | `Copyright (c) 20xx <author>` in LICENSE, as text mode reads it, gets the year; a licence that does not name the given author only has its line ends rewritten |
| InitTemplate.AfterLicenseDescribes | init_template.py:56-58 | After LICENSE, setup.py gets its description edit and keeps it through the renames |
| InitTemplate.SetupPyDescribed | init_template.py:56-58 | The `description=None,` line of setup.py, as text mode reads it, gets the description |
| InitTemplate.SrcPackageRenamed | init_template.py:28-69 | With setup.cfg, LICENSE and setup.py there and `git mv src/<template> src/<new>` allowed, every file below `src/<template>` ends up at the matching path below `src/<new>` with its content, and nothing is left below `src/<template>` |
| InitTemplate.ReadmeAddsNothingUnder | init_template.py:43-44 | Writing README.md creates nothing below a test module path |
| InitTemplate.RenamedMovesTest | init_template.py:64 | When the test module can move, the renames leave its content at the new path |
| InitTemplate.RenamedLosesTest | init_template.py:61-64 | With no test module at the template's path none appears at the new one |
| InitTemplate.AfterLicenseRenamesTest | init_template.py:56-69 | After LICENSE, a test module that can move is moved, and its class line is rewritten at the new path |
| InitTemplate.TestModuleRenamed | init_template.py:61-69 | When the test module can move, the class line is rewritten in the file, as text mode reads it, at the renamed path. The run completes, and the commit follows the two renames |
| InitTemplate.RefusedTestMoveSkipsCommit | init_template.py:61-99 | With no test module at either path, both renames are started, the edit of the renamed path raises, and no commit is made |
| InitTemplate.Workspace.ReplaceInFile | init_template.py:11-17 | The loop over the lines leaves exactly the line-by-line edit of the file, or raises for a missing file and changes nothing |
| InitTemplate.Workspace.ReplaceContentFile | init_template.py:20-25 | The file holds exactly the new content, whatever it held before; nothing else changes |
| InitTemplate.Workspace.GitMove | init_template.py:61 | The `git mv` command is logged, and the tree becomes the moved tree |
| InitTemplate.Workspace.DescribeAndRename | init_template.py:56-69 | The steps after LICENSE, done in place, leave exactly their pure outcome |
| InitTemplate.Workspace.ReplaceTemplateName | init_template.py:28-69 | The rewrite done in place leaves exactly the files, commands and error of the pure rewrite |
| InitTemplate.Workspace.Initialize | init_template.py:78-100 | `main` in place: the rewrite with the default description and author, then the commit exactly when the rewrite got through |

## Left out

- Process effects: what `git`, `pip`, `build`, `aws`, `gh` and `twine` do. The scripts never look at their exit statuses.
  - The model records each call as its argument vector.
  - Only the cleanup of `dist/` and the renames are given an effect on files.
- `executable_exists`: it launches processes, so tool presence is the set `Environment.executables`. The `--version` probes it starts are not in the command log.
- A missing executable for a step's own command: `subprocess.run` then raises `FileNotFoundError`. This applies to `git`, `pip` and `python` at release_package.py:105-179 and to `git` at init_template.py:61, 64 and 98. The model assumes every command a step starts can be launched.
- ReleasePackage.SuccessfulRun: stated under the assumption above. With `git` missing, for example, `--create-release` raises at release_package.py:178, and RELEASE.md is left behind. The same holds for `RunPlan`, `RunAfterRelease` and `RunReleaseStage`.
- Line ends on writing: both `fileinput` (init_template.py:15-17) and `replace_content_file` (init_template.py:22-24, for README.md) write in text mode, so each `\n` is written as `os.linesep`. The model writes `\n`, as on POSIX systems; on Windows the edited files and README.md get `\r\n`.
- Platform detection and the choice of `python`/`pip` executables: these are the `Tools` parameter.
- argparse beyond `--mode`, the `ConfigParser` file syntax and rewriting of `setup.cfg`, and JSON parsing: the parsed values are inputs. `setup.cfg` is represented only by its version field.
- `url_template.format`: modelled as three `replace` passes, for `{version}`, `{package_name}` and `{package_name_dash}` in that order.
  - `DownloadUrlIsFormat` ties them to `format` when the template's literal text has no brace and the version and package name have none.
  - Escaped braces `{{` and `}}`, format specifications, and the unknown fields and stray braces that `format` rejects are not modelled.
  - A value that holds a field's text, such as a package name containing `{version}`, is filled in again by a later pass; `format` never scans an inserted value.
- `date.today()`: the year is a parameter.
- `print` output and the messages before `sys.exit`: only the reason of each exit is modelled.
- `PROJECT_DIR`: a parameter.
  - It is assumed to be the working directory, so that `RELEASE_NOTES.json` and `RELEASE.md` are the same file for `release_version_exists` and `tmp_release_notes`.
  - The source reads the first in the project directory and the second relative to the working directory.
- The "Unknown mode" branch of `main`: argparse limits `--mode` to its choices, so that branch cannot run.
- argparse's exit with status 2 for a bad `--mode` is returned as `Err` by `ParseMode`.
- What is installed on the machine: the model has no "installed" state, only the commands that install and uninstall.
- `fileinput`'s `.bak` backup file: not modelled. Each edit leaves only the rewritten file.
- `git mv` into an existing directory, which moves the source inside it: modelled as a refused move. So are the git index and untracked files.
- `--author-email`: parsed and never used by the source, so there is nothing to model.
- setup.py: a thin call into setuptools.
- Python's `int()` accepts signs, whitespace, `_` separators and non-ASCII digits: the model reads only ASCII digit strings.
- `str.capitalize` on non-ASCII text: the model case-maps ASCII letters only.
- InitTemplate.SetupCfgRenamed: stated for a template name without a newline, as in the source's fixed `python_module`. The model's function `Edit` itself handles any literal.
- InitTemplate.LicenseDated: stated for an author name without a newline. For any other author, only the line-by-line result given by `Edit` is stated.
- InitTemplate.TestModuleRenamed: stated for a tree where the test module is a file and its new path is free. Other trees are covered by `RefusedTestMoveSkipsCommit` and `Moved`.
- A directory in `dist/` whose name starts with `name-`: `os.remove` raises for it (release_package.py:150-151). The model's `dist/` holds file names only.
- Text encoding: file contents are decoded text. A file that is not valid in the locale's encoding makes the `fileinput` edit raise `UnicodeDecodeError` partway through, after the earlier lines were written back.
