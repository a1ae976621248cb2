/**
  The release orchestrator of release_package.py with its process calls
  reduced to the command lines it issues: the derived artifact names, the
  precondition gate, the mode/flag dispatch into an ordered plan of steps,
  the release-notes file, and the run of a plan over the project state
  (the version in setup.cfg, the listing of dist/, RELEASE.md and the
  commands issued so far).
*/
module ReleasePackage {
  import opened Results
  import opened Strings
  import opened Versions
  import opened Processes

  // ---------------------------------------------------------------------
  // Artifact names
  // ---------------------------------------------------------------------

  /** `PACKAGE_NAME.replace('_', '-')`: the pip name, bucket and URL name. */
  function DashName(name: string): (r: string)
    ensures |r| == |name|
    ensures forall i :: 0 <= i < |name| ==> r[i] == (if name[i] == '_' then '-' else name[i])
    ensures '_' !in r
  {
    ReplaceCharAt(name, '_', '-');
    ReplaceAll(name, "_", "-")
  }

  /** Replacing a one-character literal by another changes exactly the positions that held it. */
  lemma {:induction false} ReplaceCharAt(s: string, a: char, b: char)
    ensures |ReplaceAll(s, [a], [b])| == |s|
    ensures forall i :: 0 <= i < |s| ==> ReplaceAll(s, [a], [b])[i] == (if s[i] == a then b else s[i])
    decreases |s|
  {
    if s != [] {
      ReplaceCharAt(s[1..], a, b);
      var r := ReplaceAll(s, [a], [b]);
      assert StartsWith(s, [a]) <==> s[0] == a;
      if s[0] == a {
        assert s[|[a]|..] == s[1..];
      }
      assert forall i :: 1 <= i < |s| ==> r[i] == ReplaceAll(s[1..], [a], [b])[i - 1];
    }
  }

  /** The tag of a pure-Python wheel for any Python 3. */
  const WheelTag: string := "-py3-none-any.whl"

  /** The file name that `python -m build` gives the wheel (release_package.py:98). */
  function WheelFile(name: string, version: string): (r: string)
    ensures StartsWith(r, CleanupPrefix(name))
  {
    assert (name + "-" + version + WheelTag)[..|name| + 1] == name + "-";
    name + "-" + version + WheelTag
  }

  /** `wheel_path()`: the wheel under `dist/` of the project directory. */
  function WheelPath(projectDir: string, name: string, version: string): string {
    projectDir + "/dist/" + WheelFile(name, version)
  }

  /** The wheel path names, inside `dist/`, a file the cleanup of old wheels removes. */
  lemma WheelPathInDist(projectDir: string, name: string, version: string)
    ensures StartsWith(WheelPath(projectDir, name, version), projectDir + "/dist/")
    ensures var file := WheelPath(projectDir, name, version)[|projectDir| + 6..];
      file == WheelFile(name, version) && StartsWith(file, CleanupPrefix(name))
  {
    var path := WheelPath(projectDir, name, version);
    assert path[..|projectDir| + 6] == projectDir + "/dist/";
    assert path[|projectDir| + 6..] == WheelFile(name, version);
  }

  /** What `cleanup_old_wheels` looks for at the start of a file name. */
  function CleanupPrefix(name: string): string {
    name + "-"
  }

  /**
    The listing of `dist/` after `cleanup_old_wheels` (release_package.py:144-151):
    `None` stands for a missing directory, which is left alone.
  */
  function AfterCleanup(dist: Option<set<string>>, name: string): (r: Option<set<string>>)
    ensures r.None? <==> dist.None?
    ensures r.Some? ==> forall f :: f in r.value <==> f in dist.value && !StartsWith(f, CleanupPrefix(name))
  {
    match dist
    case None => None
    case Some(files) => Some(set f | f in files && !StartsWith(f, CleanupPrefix(name)))
  }

  /** Cleanup removes the wheel of every version of the package and keeps only other files. */
  lemma CleanupRemovesEveryWheel(files: set<string>, name: string, version: string)
    ensures WheelFile(name, version) !in AfterCleanup(Some(files), name).value
    ensures AfterCleanup(Some(files), name).value <= files
  {
  }

  // ---------------------------------------------------------------------
  // Command line, environment and the precondition gate
  // ---------------------------------------------------------------------

  datatype Mode = Build | Install | DevMode | Reinstall | Uninstall

  /** The `--mode` choices as argparse spells them. */
  function ModeName(m: Mode): string {
    match m
    case Build => "build"
    case Install => "install"
    case DevMode => "dev-mode"
    case Reinstall => "reinstall"
    case Uninstall => "uninstall"
  }

  /**
    `--mode`: absent means `reinstall`; a value outside the choices is
    refused by argparse (which exits with status 2).
  */
  function ParseMode(arg: Option<string>): (r: Result<Mode, string>)
    ensures arg.None? ==> r == Ok(Reinstall)
    ensures arg.Some? ==> (r.Ok? <==> arg.value in {"build", "install", "dev-mode", "reinstall", "uninstall"})
    ensures arg.Some? && r.Ok? ==> ModeName(r.value) == arg.value
    ensures r.Err? ==> arg.Some? && r.error == arg.value
  {
    match arg
    case None => Ok(Reinstall)
    case Some(s) =>
      if s == "build" then Ok(Build)
      else if s == "install" then Ok(Install)
      else if s == "dev-mode" then Ok(DevMode)
      else if s == "reinstall" then Ok(Reinstall)
      else if s == "uninstall" then Ok(Uninstall)
      else Err(s)
  }

  /** Every mode's own name selects it. */
  lemma ParseModeName(m: Mode)
    ensures ParseMode(Some(ModeName(m))) == Ok(m)
  {
  }

  /** The four store-true flags `--upload-s3`, `--create-release`, `--publish-pypi`, `--increment-version`. */
  datatype Options = Options(upload: bool, release: bool, publish: bool, increment: bool)

  /**
    What the gate observes: whether `src/<name>` is a directory, which
    executables answer `--version` and whether `~/.pypirc` is a file.
  */
  datatype Environment = Environment(srcPackageDir: bool, executables: set<string>, pypirc: bool)

  /** RELEASE_NOTES.json: the notes of each version and the download link template. */
  datatype ReleaseNotes = ReleaseNotes(releases: map<string, seq<string>>, downloadLink: string)

  /** `release_version_exists(version)` */
  predicate ReleaseVersionExists(notes: ReleaseNotes, version: string) {
    version in notes.releases
  }

  /** The reasons for `sys.exit(1)`, each with its message in the source. */
  datatype Failure =
    | SourceDirMissing                      // Cannot find src/<name>
    | ReleaseNotesMissing(version: string)  // No release notes found for version <version>
    | AwsCliMissing                         // awscli not installed
    | GitHubCliMissing                      // GitHub CLI not installed
    | TwineMissing                          // twine not installed
    | PypircMissing                         // No ~/.pypirc file found

  /**
    `sanity_check` (release_package.py:70-91): the checks run in order and
    the first that fails decides the exit; `version` is the one read from
    setup.cfg at start-up.
  */
  function SanityCheck(env: Environment, opts: Options, notes: ReleaseNotes, version: string): (r: Option<Failure>)
    ensures r.None? <==>
      && env.srcPackageDir
      && (opts.release ==> ReleaseVersionExists(notes, version))
      && (opts.upload ==> "aws" in env.executables)
      && (opts.release ==> "gh" in env.executables)
      && (opts.publish ==> "twine" in env.executables && env.pypirc)
    ensures r == Some(SourceDirMissing) <==> !env.srcPackageDir
    ensures (r.Some? && r.value.ReleaseNotesMissing?) <==>
      env.srcPackageDir && opts.release && !ReleaseVersionExists(notes, version)
    ensures r.Some? && r.value.ReleaseNotesMissing? ==> r.value.version == version
    ensures r == Some(AwsCliMissing) <==>
      env.srcPackageDir && (opts.release ==> ReleaseVersionExists(notes, version))
      && opts.upload && "aws" !in env.executables
    ensures r == Some(GitHubCliMissing) <==>
      env.srcPackageDir && (opts.release ==> ReleaseVersionExists(notes, version))
      && (opts.upload ==> "aws" in env.executables)
      && opts.release && "gh" !in env.executables
    ensures r == Some(TwineMissing) <==>
      env.srcPackageDir && (opts.release ==> ReleaseVersionExists(notes, version) && "gh" in env.executables)
      && (opts.upload ==> "aws" in env.executables)
      && opts.publish && "twine" !in env.executables
    ensures r == Some(PypircMissing) <==>
      env.srcPackageDir && (opts.release ==> ReleaseVersionExists(notes, version) && "gh" in env.executables)
      && (opts.upload ==> "aws" in env.executables)
      && opts.publish && "twine" in env.executables && !env.pypirc
  {
    if !env.srcPackageDir then Some(SourceDirMissing)
    else if opts.release && !ReleaseVersionExists(notes, version) then Some(ReleaseNotesMissing(version))
    else if opts.upload && "aws" !in env.executables then Some(AwsCliMissing)
    else if opts.release && "gh" !in env.executables then Some(GitHubCliMissing)
    else if opts.publish && "twine" !in env.executables then Some(TwineMissing)
    else if opts.publish && !env.pypirc then Some(PypircMissing)
    else None
  }

  // ---------------------------------------------------------------------
  // The plan
  // ---------------------------------------------------------------------

  datatype Step =
    | IncrementVersion     // increment_minor_version('setup.cfg') and VERSION reassigned
    | CleanupOldWheels
    | BuildWheel
    | InstallWheel
    | InstallDevMode
    | UninstallWheel
    | UploadS3
    | WriteReleaseNotes    // tmp_release_notes()
    | TagRelease
    | CreateRelease
    | RemoveReleaseNotes   // os.remove(release_file)
    | PublishPypi
  {
    /** The steps that only run after a mode other than `uninstall`. */
    predicate Optional() {
      UploadS3? || WriteReleaseNotes? || TagRelease? || CreateRelease? || RemoveReleaseNotes? || PublishPypi?
    }

    /** The position of the step in the pipeline of `main`. */
    function Rank(): nat {
      match this
      case IncrementVersion => 0
      case CleanupOldWheels => 1
      case UninstallWheel => 2
      case BuildWheel => 3
      case InstallWheel => 4
      case InstallDevMode => 4
      case UploadS3 => 5
      case WriteReleaseNotes => 6
      case TagRelease => 7
      case CreateRelease => 8
      case RemoveReleaseNotes => 9
      case PublishPypi => 10
    }
  }

  /** The fixed sequence of each mode (release_package.py:292-308). */
  function ModeSteps(mode: Mode): seq<Step> {
    match mode
    case Build => [BuildWheel]
    case Install => [CleanupOldWheels, BuildWheel, InstallWheel]
    case DevMode => [CleanupOldWheels, BuildWheel, InstallDevMode]
    case Reinstall => [CleanupOldWheels, UninstallWheel, BuildWheel, InstallWheel]
    case Uninstall => [UninstallWheel]
  }

  /** The modes whose sequence starts by cleaning dist/. */
  predicate Cleans(mode: Mode) {
    mode == Install || mode == DevMode || mode == Reinstall
  }

  /** The stage run for `--create-release` (release_package.py:315-319). */
  const ReleaseStage: seq<Step> := [WriteReleaseNotes, TagRelease, CreateRelease, RemoveReleaseNotes]

  /** `if args.increment_version` (release_package.py:287-289) */
  function IncrementPart(opts: Options): seq<Step> {
    if opts.increment then [IncrementVersion] else []
  }

  /** `if args.upload_s3` (release_package.py:312-313), skipped after `uninstall` */
  function UploadPart(mode: Mode, opts: Options): seq<Step> {
    if opts.upload && mode != Uninstall then [UploadS3] else []
  }

  /** `if args.create_release` (release_package.py:315-319), skipped after `uninstall` */
  function ReleasePart(mode: Mode, opts: Options): seq<Step> {
    if opts.release && mode != Uninstall then ReleaseStage else []
  }

  /** `if args.publish_pypi` (release_package.py:321-322), skipped after `uninstall` */
  function PublishPart(mode: Mode, opts: Options): seq<Step> {
    if opts.publish && mode != Uninstall then [PublishPypi] else []
  }

  /** The steps before the release stage: the increment, the mode, the upload. */
  function StepsBeforeRelease(mode: Mode, opts: Options): seq<Step> {
    IncrementPart(opts) + ModeSteps(mode) + UploadPart(mode, opts)
  }

  /** The release and publish stages. */
  function StepsFromRelease(mode: Mode, opts: Options): seq<Step> {
    ReleasePart(mode, opts) + PublishPart(mode, opts)
  }

  /** `main` after the gate (release_package.py:287-322), as the steps it runs in order. */
  function Plan(mode: Mode, opts: Options): seq<Step> {
    StepsBeforeRelease(mode, opts) + StepsFromRelease(mode, opts)
  }

  /** A mode's own steps are neither the increment nor an optional stage. */
  lemma ModeStepsAreMandatory(mode: Mode)
    ensures forall i :: 0 <= i < |ModeSteps(mode)| ==>
      !ModeSteps(mode)[i].Optional() && ModeSteps(mode)[i] != IncrementVersion
  {
  }

  /**
    Each flag adds its stage and nothing else does; after `uninstall` no
    optional stage runs; the increment comes first.
  */
  lemma PlanStages(mode: Mode, opts: Options)
    ensures var steps := Plan(mode, opts);
      && (mode == Uninstall ==> forall i :: 0 <= i < |steps| ==> !steps[i].Optional())
      && ((IncrementVersion in steps) <==> opts.increment)
      && (opts.increment ==> steps[0] == IncrementVersion)
      && ((UploadS3 in steps) <==> opts.upload && mode != Uninstall)
      && ((TagRelease in steps) <==> opts.release && mode != Uninstall)
      && ((CreateRelease in steps) <==> opts.release && mode != Uninstall)
      && ((PublishPypi in steps) <==> opts.publish && mode != Uninstall)
  {
    var steps := Plan(mode, opts);
    var inc, m, up := IncrementPart(opts), ModeSteps(mode), UploadPart(mode, opts);
    var rel, pub := ReleasePart(mode, opts), PublishPart(mode, opts);
    assert steps == inc + m + up + (rel + pub);
    ModeStepsAreMandatory(mode);
    forall x: Step | x.Optional() || x == IncrementVersion
      ensures x in steps <==> x in inc || x in up || x in rel || x in pub
    {
      assert x !in m;
    }
    if mode == Uninstall {
      UninstallPlan(opts);
      assert forall i :: 0 <= i < |steps| ==> steps[i] == IncrementVersion || steps[i] == UninstallWheel;
    }
  }

  /** Each step ranks above the steps before it. */
  predicate Ascending(steps: seq<Step>) {
    forall i, j :: 0 <= i < j < |steps| ==> steps[i].Rank() < steps[j].Rank()
  }

  predicate RanksWithin(steps: seq<Step>, lo: nat, hi: nat) {
    forall i :: 0 <= i < |steps| ==> lo <= steps[i].Rank() <= hi
  }

  lemma AscendingAppend(a: seq<Step>, b: seq<Step>, lo: nat, mid: nat, hi: nat)
    requires lo <= mid < hi
    requires Ascending(a) && RanksWithin(a, lo, mid)
    requires Ascending(b) && RanksWithin(b, mid + 1, hi)
    ensures Ascending(a + b) && RanksWithin(a + b, lo, hi)
  {
    var c := a + b;
    forall i | 0 <= i < |c|
      ensures lo <= c[i].Rank() <= hi
      ensures i < |a| ==> c[i].Rank() <= mid
      ensures i >= |a| ==> mid < c[i].Rank()
    {
      if i >= |a| {
        assert c[i] == b[i - |a|];
      }
    }
    forall i, j | 0 <= i < j < |c|
      ensures c[i].Rank() < c[j].Rank()
    {
      if j < |a| {
        assert c[i] == a[i] && c[j] == a[j];
      } else if i >= |a| {
        assert c[i] == b[i - |a|] && c[j] == b[j - |a|];
      }
    }
  }

  lemma ModeStepsAscending(mode: Mode)
    ensures Ascending(ModeSteps(mode)) && RanksWithin(ModeSteps(mode), 1, 4)
  {
  }

  lemma ReleaseStageAscending()
    ensures Ascending(ReleaseStage) && RanksWithin(ReleaseStage, 6, 9)
  {
    forall i | 0 <= i < |ReleaseStage|
      ensures ReleaseStage[i].Rank() == 6 + i
    {
    }
  }

  lemma OptionalPartsAscending(mode: Mode, opts: Options)
    ensures Ascending(IncrementPart(opts)) && RanksWithin(IncrementPart(opts), 0, 0)
    ensures Ascending(UploadPart(mode, opts)) && RanksWithin(UploadPart(mode, opts), 5, 5)
    ensures Ascending(ReleasePart(mode, opts)) && RanksWithin(ReleasePart(mode, opts), 6, 9)
    ensures Ascending(PublishPart(mode, opts)) && RanksWithin(PublishPart(mode, opts), 10, 10)
  {
    ReleaseStageAscending();
  }

  lemma BeforeReleaseAscending(mode: Mode, opts: Options)
    ensures Ascending(StepsBeforeRelease(mode, opts)) && RanksWithin(StepsBeforeRelease(mode, opts), 0, 5)
  {
    var inc, m, up := IncrementPart(opts), ModeSteps(mode), UploadPart(mode, opts);
    OptionalPartsAscending(mode, opts);
    ModeStepsAscending(mode);
    AscendingAppend(inc, m, 0, 0, 4);
    AscendingAppend(inc + m, up, 0, 4, 5);
  }

  lemma FromReleaseAscending(mode: Mode, opts: Options)
    ensures Ascending(StepsFromRelease(mode, opts)) && RanksWithin(StepsFromRelease(mode, opts), 6, 10)
  {
    OptionalPartsAscending(mode, opts);
    AscendingAppend(ReleasePart(mode, opts), PublishPart(mode, opts), 6, 9, 10);
  }

  /** Every plan follows the order build, upload, release, publish, without repeating a step. */
  lemma PlanFollowsPipelineOrder(mode: Mode, opts: Options)
    ensures Ascending(Plan(mode, opts))
  {
    BeforeReleaseAscending(mode, opts);
    FromReleaseAscending(mode, opts);
    AscendingAppend(StepsBeforeRelease(mode, opts), StepsFromRelease(mode, opts), 0, 5, 10);
  }

  /** The plan begins with the optional increment and then the mode's own steps. */
  lemma PlanStartsWithMode(mode: Mode, opts: Options, j: nat)
    requires j < |ModeSteps(mode)|
    ensures |IncrementPart(opts)| + j < |Plan(mode, opts)|
    ensures Plan(mode, opts)[|IncrementPart(opts)| + j] == ModeSteps(mode)[j]
  {
    var k := |IncrementPart(opts)|;
    assert StepsBeforeRelease(mode, opts)[k + j] == (IncrementPart(opts) + ModeSteps(mode))[k + j];
  }

  /** What a plan runs after `uninstall`: at most the increment and the uninstall. */
  lemma UninstallPlan(opts: Options)
    ensures Plan(Uninstall, opts) == IncrementPart(opts) + [UninstallWheel]
  {
  }

  /** The steps that use the wheel: installs of both kinds and every optional stage. */
  predicate UsesWheel(st: Step) {
    st.Optional() || st == InstallWheel || st == InstallDevMode
  }

  /** In an ascending sequence of steps that builds, every step that uses the wheel comes after the build. */
  lemma BuiltBeforeUse(steps: seq<Step>, j: nat)
    requires Ascending(steps) && j < |steps| && steps[j] == BuildWheel
    ensures forall i :: 0 <= i < |steps| && UsesWheel(steps[i]) ==> BuildWheel in steps[..i]
  {
    forall i | 0 <= i < |steps| && UsesWheel(steps[i])
      ensures BuildWheel in steps[..i]
    {
      assert steps[i].Rank() > BuildWheel.Rank();
      InPrefix(steps, j, i);
    }
  }

  /** An `uninstall` plan does not use the wheel at all. */
  lemma UninstallUsesNoWheel(opts: Options)
    ensures forall i :: 0 <= i < |Plan(Uninstall, opts)| ==> !UsesWheel(Plan(Uninstall, opts)[i])
  {
    UninstallPlan(opts);
  }

  /** Whatever a plan installs, uploads, releases or publishes was built earlier in it. */
  lemma PlanBuildsBeforeUse(mode: Mode, opts: Options)
    ensures var steps := Plan(mode, opts);
      forall i :: 0 <= i < |steps| && UsesWheel(steps[i]) ==> BuildWheel in steps[..i]
  {
    if mode == Uninstall {
      UninstallUsesNoWheel(opts);
    } else {
      PlanFollowsPipelineOrder(mode, opts);
      var b := if mode == Build then 0 else if mode == Reinstall then 2 else 1;
      PlanStartsWithMode(mode, opts, b);
      BuiltBeforeUse(Plan(mode, opts), |IncrementPart(opts)| + b);
    }
  }

  lemma InPrefix(steps: seq<Step>, j: nat, i: nat)
    requires j < i <= |steps|
    ensures steps[j] in steps[..i]
  {
    assert steps[..i][j] == steps[j];
  }

  /** In every mode that builds after something else, dist/ is cleaned before the build. */
  lemma PlanCleansBeforeBuild(mode: Mode, opts: Options)
    requires mode != Build
    ensures var steps := Plan(mode, opts);
      forall i :: 0 <= i < |steps| && steps[i] == BuildWheel ==> CleanupOldWheels in steps[..i]
  {
    var steps := Plan(mode, opts);
    if mode == Uninstall {
      UninstallPlan(opts);
      assert forall i :: 0 <= i < |steps| ==> steps[i] == IncrementVersion || steps[i] == UninstallWheel;
    } else {
      PlanFollowsPipelineOrder(mode, opts);
      PlanStartsWithMode(mode, opts, 0);
      var j := |IncrementPart(opts)|;
      assert steps[j] == CleanupOldWheels;
      forall i | 0 <= i < |steps| && steps[i] == BuildWheel
        ensures CleanupOldWheels in steps[..i]
      {
        assert steps[i].Rank() > steps[j].Rank();
        InPrefix(steps, j, i);
      }
    }
  }

  // ---------------------------------------------------------------------
  // Commands, release notes and the project state
  // ---------------------------------------------------------------------

  /** The interpreter and package manager the script calls (`PYTHON`, `PIP`). */
  datatype Tools = Tools(python: string, pip: string)

  /** What stays fixed during one run. */
  datatype Context = Context(
    name: string,          // metadata.name of setup.cfg (PACKAGE_NAME)
    projectDir: string,    // PROJECT_DIR, also the working directory
    tools: Tools,
    env: Environment,
    notes: ReleaseNotes)

  /** `url_template.format(...)` for a template whose only fields are the three it is given. */
  function DownloadUrl(ctx: Context, version: string): string {
    var withVersion := ReplaceAll(ctx.notes.downloadLink, "{version}", version);
    var withName := ReplaceAll(withVersion, "{package_name}", ctx.name);
    ReplaceAll(withName, "{package_name_dash}", DashName(ctx.name))
  }

  /** A download link without any `{` names no field, and is used as it is. */
  lemma DownloadUrlWithoutFields(ctx: Context, version: string)
    requires '{' !in ctx.notes.downloadLink
    ensures DownloadUrl(ctx, version) == ctx.notes.downloadLink
  {
    var link := ctx.notes.downloadLink;
    NotContainsFirstChar(link, "{version}");
    NotContainsFirstChar(link, "{package_name}");
    NotContainsFirstChar(link, "{package_name_dash}");
    ReplaceAllNoMatch(link, "{version}", version);
    ReplaceAllNoMatch(link, "{package_name}", ctx.name);
    ReplaceAllNoMatch(link, "{package_name_dash}", DashName(ctx.name));
  }

  // ---------------------------------------------------------------------
  // url_template.format(...)
  // ---------------------------------------------------------------------

  /** The three replacement fields `tmp_release_notes` passes to `format`. */
  datatype UrlField = VersionField | NameField | DashField

  /** A piece of a format template: literal text, or one replacement field. */
  datatype Piece = Literal(text: string) | Field(field: UrlField)

  function FieldText(f: UrlField): string {
    match f
    case VersionField => "{version}"
    case NameField => "{package_name}"
    case DashField => "{package_name_dash}"
  }

  /** Text `format` copies as it is: no brace, so no field, escape or stray brace. */
  predicate PlainText(s: string) {
    '{' !in s && '}' !in s
  }

  /** A template whose literal pieces are plain text. */
  predicate PlainLiterals(t: seq<Piece>) {
    forall i :: 0 <= i < |t| && t[i].Literal? ==> PlainText(t[i].text)
  }

  /** The template as written in the notes file. */
  function TemplateText(t: seq<Piece>): string
    decreases |t|
  {
    if t == [] then []
    else (match t[0] case Literal(s) => s case Field(f) => FieldText(f)) + TemplateText(t[1..])
  }

  /** What `format(version=..., package_name=..., package_name_dash=...)` makes of the template. */
  function Format(t: seq<Piece>, version: string, name: string, dash: string): string
    decreases |t|
  {
    if t == [] then []
    else
      (match t[0]
       case Literal(s) => s
       case Field(VersionField) => version
       case Field(NameField) => name
       case Field(DashField) => dash)
      + Format(t[1..], version, name, dash)
  }

  /** The template with one field written in as literal text. */
  function Fill(t: seq<Piece>, f: UrlField, value: string): (r: seq<Piece>)
    ensures |r| == |t|
    ensures forall i :: 0 <= i < |t| ==> r[i] == (if t[i] == Field(f) then Literal(value) else t[i])
    decreases |t|
  {
    if t == [] then [] else [if t[0] == Field(f) then Literal(value) else t[0]] + Fill(t[1..], f, value)
  }

  /** No field's text starts another field's, and only the first character of a field is `{`. */
  lemma FieldTextsApart(g: UrlField, f: UrlField, b: string)
    ensures g != f ==> !StartsWith(FieldText(g) + b, FieldText(f))
    ensures FieldText(f) != [] && FieldText(f)[0] == '{'
    ensures forall j :: 1 <= j < |FieldText(g)| ==> FieldText(g)[j] != '{'
  {
    var x := FieldText(g) + b;
    if g != f {
      if g != VersionField && f != VersionField {
        MismatchAt(x, FieldText(f), 13);
      } else {
        MismatchAt(x, FieldText(f), 1);
      }
    }
  }

  /** Replacing one field's text by a plain value writes that field in and leaves the rest of the template alone. */
  lemma {:induction false} ReplaceFieldFills(t: seq<Piece>, f: UrlField, value: string)
    requires PlainLiterals(t) && PlainText(value)
    ensures ReplaceAll(TemplateText(t), FieldText(f), value) == TemplateText(Fill(t, f, value))
    ensures PlainLiterals(Fill(t, f, value))
    decreases |t|
  {
    var pat := FieldText(f);
    if t != [] {
      var rest := TemplateText(t[1..]);
      ReplaceFieldFills(t[1..], f, value);
      assert Fill(t, f, value)[1..] == Fill(t[1..], f, value);
      FieldTextsApart(f, f, rest);
      match t[0]
      case Literal(s) =>
        assert PlainText(t[0].text);
        LacksFirstCharKept(s, rest, pat, value);
      case Field(g) =>
        if g == f {
          ReplaceAllLeading(pat, rest, value);
        } else {
          var a := FieldText(g);
          forall j | 0 <= j < |a|
            ensures !StartsWith(a[j..] + rest, pat)
          {
            if j == 0 {
              assert a[0..] == a;
              FieldTextsApart(g, f, rest);
            } else {
              FieldTextsApart(g, f, rest);
              MismatchAt(a[j..] + rest, pat, 0);
            }
          }
          ReplaceAllKeepsPrefix(a, rest, pat, value);
        }
    }
  }

  /** Once every field is written in, the template's text is what `format` produces. */
  lemma {:induction false} FilledIsFormat(t: seq<Piece>, version: string, name: string, dash: string)
    ensures TemplateText(Fill(Fill(Fill(t, VersionField, version), NameField, name), DashField, dash))
         == Format(t, version, name, dash)
    decreases |t|
  {
    if t != [] {
      var t1 := Fill(t, VersionField, version);
      var t2 := Fill(t1, NameField, name);
      var t3 := Fill(t2, DashField, dash);
      assert t1[1..] == Fill(t[1..], VersionField, version);
      assert t2[1..] == Fill(t1[1..], NameField, name);
      assert t3[1..] == Fill(t2[1..], DashField, dash);
      FilledIsFormat(t[1..], version, name, dash);
    }
  }

  /**
    The three replacements fill in the download link as `format` does, for
    a template whose literal text has no brace and whose version and package
    name have none either.
  */
  lemma DownloadUrlIsFormat(ctx: Context, version: string, t: seq<Piece>)
    requires ctx.notes.downloadLink == TemplateText(t) && PlainLiterals(t)
    requires PlainText(version) && PlainText(ctx.name)
    ensures DownloadUrl(ctx, version) == Format(t, version, ctx.name, DashName(ctx.name))
  {
    var dash := DashName(ctx.name);
    assert PlainText(dash) by {
      forall i | 0 <= i < |dash|
        ensures dash[i] != '{' && dash[i] != '}'
      {
        assert ctx.name[i] != '{' && ctx.name[i] != '}';
      }
    }
    var t1 := Fill(t, VersionField, version);
    var t2 := Fill(t1, NameField, ctx.name);
    ReplaceFieldFills(t, VersionField, version);
    ReplaceFieldFills(t1, NameField, ctx.name);
    ReplaceFieldFills(t2, DashField, dash);
    FilledIsFormat(t, version, ctx.name, dash);
  }

  lemma TemplateTextCons(p: Piece, t: seq<Piece>)
    ensures TemplateText([p] + t) == (match p case Literal(s) => s case Field(f) => FieldText(f)) + TemplateText(t)
  {
    assert ([p] + t)[1..] == t;
  }

  lemma FormatCons(p: Piece, t: seq<Piece>, version: string, name: string, dash: string)
    ensures Format([p] + t, version, name, dash) ==
      (match p
       case Literal(s) => s
       case Field(VersionField) => version
       case Field(NameField) => name
       case Field(DashField) => dash)
      + Format(t, version, name, dash)
  {
    assert ([p] + t)[1..] == t;
  }

  /** A template of two fields between three plain texts. */
  lemma TwoFieldTemplate(a: string, f: UrlField, b: string, g: UrlField, c: string) returns (t: seq<Piece>)
    ensures TemplateText(t) == a + FieldText(f) + b + FieldText(g) + c
    ensures PlainText(a) && PlainText(b) && PlainText(c) ==> PlainLiterals(t)
    ensures t == [Literal(a), Field(f), Literal(b), Field(g), Literal(c)]
  {
    var t4 := [Literal(c)];
    var t3 := [Field(g)] + t4;
    var t2 := [Literal(b)] + t3;
    var t1 := [Field(f)] + t2;
    t := [Literal(a)] + t1;
    TemplateTextCons(Literal(c), []);
    TemplateTextCons(Field(g), t4);
    TemplateTextCons(Literal(b), t3);
    TemplateTextCons(Field(f), t2);
    TemplateTextCons(Literal(a), t1);
  }

  /** A wheel link of the repository's layout: any plain prefix, then `{package_name}-{version}-py3-none-any.whl`. */
  lemma DownloadUrlOfWheel(ctx: Context, version: string, prefix: string)
    requires ctx.notes.downloadLink == prefix + FieldText(NameField) + "-" + FieldText(VersionField) + WheelTag
    requires PlainText(prefix) && PlainText(version) && PlainText(ctx.name)
    ensures DownloadUrl(ctx, version) == prefix + WheelFile(ctx.name, version)
  {
    assert PlainText(WheelTag);
    var t := TwoFieldTemplate(prefix, NameField, "-", VersionField, WheelTag);
    DownloadUrlIsFormat(ctx, version, t);
    var dash := DashName(ctx.name);
    var t4 := [Literal(WheelTag)];
    var t3 := [Field(VersionField)] + t4;
    var t2 := [Literal("-")] + t3;
    var t1 := [Field(NameField)] + t2;
    assert t == [Literal(prefix)] + t1;
    FormatCons(Literal(WheelTag), [], version, ctx.name, dash);
    FormatCons(Field(VersionField), t4, version, ctx.name, dash);
    FormatCons(Literal("-"), t3, version, ctx.name, dash);
    FormatCons(Field(NameField), t2, version, ctx.name, dash);
    FormatCons(Literal(prefix), t1, version, ctx.name, dash);
  }

  /** The lines `tmp_release_notes` writes to RELEASE.md (release_package.py:228-233). */
  function NotesLines(version: string, notes: seq<string>, url: string): seq<string> {
    ["## Release notes\n"]
    + seq(|notes|, i requires 0 <= i < |notes| => "* " + notes[i] + "\n")
    + ["## Staging Area Download URL\n", "[Wheel Package " + version + " on AWS S3](" + url + ")\n"]
  }

  /** The loop of `tmp_release_notes` that writes the notes file line by line. */
  method RenderReleaseNotes(version: string, notes: seq<string>, url: string) returns (lines: seq<string>)
    ensures lines == NotesLines(version, notes, url)
    ensures |lines| == |notes| + 3
    ensures lines[0] == "## Release notes\n"
    ensures forall i :: 0 <= i < |notes| ==> lines[i + 1] == "* " + notes[i] + "\n"
    ensures lines[|notes| + 1] == "## Staging Area Download URL\n"
    ensures lines[|notes| + 2] == "[Wheel Package " + version + " on AWS S3](" + url + ")\n"
  {
    lines := ["## Release notes\n"];
    var i := 0;
    while i < |notes|
      invariant 0 <= i <= |notes|
      invariant |lines| == i + 1 && lines[0] == "## Release notes\n"
      invariant forall k :: 0 <= k < i ==> lines[k + 1] == "* " + notes[k] + "\n"
    {
      lines := lines + ["* " + notes[i] + "\n"];
      i := i + 1;
    }
    lines := lines + ["## Staging Area Download URL\n", "[Wheel Package " + version + " on AWS S3](" + url + ")\n"];
  }

  /** The path `tmp_release_notes` returns and `gh` reads. */
  function NotesPath(ctx: Context): string {
    ctx.projectDir + "/RELEASE.md"
  }

  /** The commands a step issues, formed with the version in effect (release_package.py:101-190). */
  function Commands(ctx: Context, step: Step, version: string): seq<Command> {
    var py, pip := ctx.tools.python, ctx.tools.pip;
    var dash := DashName(ctx.name);
    var wheel := WheelPath(ctx.projectDir, ctx.name, version);
    match step
    case BuildWheel =>
      [[py, "-m", "pip", "install", "--upgrade", "pip"],
       [py, "-m", "pip", "install", "--upgrade", "build"],
       [py, "-m", "build"]]
    case InstallWheel => [[pip, "install", wheel]]
    case InstallDevMode => [[pip, "install", "-e", "."]]
    case UninstallWheel => [[pip, "uninstall", "-y", dash]]
    case UploadS3 =>
      [["aws", "s3", "cp", wheel, "s3://" + dash + "/packages/"],
       ["aws", "s3api", "put-object-acl", "--bucket", dash,
        "--key", "packages/" + WheelFile(ctx.name, version), "--acl", "public-read"]]
    case TagRelease =>
      [["git", "tag", "-a", "release." + version, "-m", "Release " + version],
       ["git", "push", "origin", "--tags", "master"]]
    case CreateRelease =>
      [["gh", "release", "create", "release." + version, wheel,
        "--title", version, "--notes-file", NotesPath(ctx)]]
    case PublishPypi =>
      [[py, "-m", "pip", "install", "--upgrade", "build", "twine"],
       ["twine", "check", "dist/*"],
       ["twine", "upload", "dist/*"]]
    case _ => []
  }

  /** The commands of a sequence of steps, all formed with one version. */
  function PlanCommands(ctx: Context, steps: seq<Step>, version: string): seq<Command>
    decreases |steps|
  {
    if steps == [] then [] else Commands(ctx, steps[0], version) + PlanCommands(ctx, steps[1..], version)
  }

  lemma {:induction false} PlanCommandsAppend(ctx: Context, a: seq<Step>, b: seq<Step>, version: string)
    ensures PlanCommands(ctx, a + b, version) == PlanCommands(ctx, a, version) + PlanCommands(ctx, b, version)
    decreases |a|
  {
    if a == [] {
      assert a + b == b;
    } else {
      assert (a + b)[1..] == a[1..] + b;
      PlanCommandsAppend(ctx, a[1..], b, version);
    }
  }

  /**
    The state a run changes: `metadata.version` of setup.cfg (and the
    global `VERSION`, which follows it), the listing of dist/ (`None` when
    the directory is missing), RELEASE.md, and the commands issued so far.
  */
  datatype State = State(version: string, dist: Option<set<string>>, notesFile: Option<seq<string>>, log: seq<Command>)

  /** An uncaught exception. */
  datatype Fault = BadVersion(error: VersionError) | NotesFileMissing

  /** How a run ended early: `sys.exit(1)` or an exception. */
  datatype Halt = Exited(failure: Failure) | Raised(fault: Fault)

  datatype Run = Run(state: State, halt: Option<Halt>)

  /** The effect of one step of `main`. */
  function Apply(ctx: Context, s: State, step: Step): Run {
    match step
    case IncrementVersion =>
      (match IncrementPatch(s.version)
       case Err(e) => Run(s, Some(Raised(BadVersion(e))))
       case Ok(v) => Run(s.(version := v), None))
    case CleanupOldWheels => Run(s.(dist := AfterCleanup(s.dist, ctx.name)), None)
    case WriteReleaseNotes =>
      if !ReleaseVersionExists(ctx.notes, s.version) then
        Run(s, Some(Exited(ReleaseNotesMissing(s.version))))
      else
        var lines := NotesLines(s.version, ctx.notes.releases[s.version], DownloadUrl(ctx, s.version));
        Run(s.(notesFile := Some(lines)), None)
    case RemoveReleaseNotes =>
      if s.notesFile.None? then Run(s, Some(Raised(NotesFileMissing)))
      else Run(s.(notesFile := None), None)
    case _ => Run(s.(log := s.log + Commands(ctx, step, s.version)), None)
  }

  /** The steps run one after the other until one ends the process. */
  function RunSteps(ctx: Context, s: State, steps: seq<Step>): Run
    decreases |steps|
  {
    if steps == [] then Run(s, None)
    else
      var r := Apply(ctx, s, steps[0]);
      if r.halt.Some? then r else RunSteps(ctx, r.state, steps[1..])
  }

  /** `main` from the gate on: the gate sees the version read at start-up. */
  function Main(ctx: Context, s: State, mode: Mode, opts: Options): Run {
    match SanityCheck(ctx.env, opts, ctx.notes, s.version)
    case Some(f) => Run(s, Some(Exited(f)))
    case None => RunSteps(ctx, s, Plan(mode, opts))
  }

  // ---------------------------------------------------------------------
  // What a run does
  // ---------------------------------------------------------------------

  lemma {:induction false} RunStepsAppend(ctx: Context, s: State, a: seq<Step>, b: seq<Step>)
    ensures RunSteps(ctx, s, a + b) ==
      var r := RunSteps(ctx, s, a);
      if r.halt.Some? then r else RunSteps(ctx, r.state, b)
    decreases |a|
  {
    if a == [] {
      assert a + b == b;
    } else {
      assert (a + b)[0] == a[0];
      assert (a + b)[1..] == a[1..] + b;
      var r := Apply(ctx, s, a[0]);
      if r.halt.None? {
        RunStepsAppend(ctx, r.state, a[1..], b);
      }
    }
  }

  /** A step that only starts processes. */
  predicate IssuesOnly(step: Step) {
    step.BuildWheel? || step.InstallWheel? || step.InstallDevMode? || step.UninstallWheel?
    || step.UploadS3? || step.TagRelease? || step.CreateRelease? || step.PublishPypi?
  }

  lemma {:induction false} RunIssuingSteps(ctx: Context, s: State, steps: seq<Step>)
    requires forall i :: 0 <= i < |steps| ==> IssuesOnly(steps[i])
    ensures RunSteps(ctx, s, steps) == Run(s.(log := s.log + PlanCommands(ctx, steps, s.version)), None)
    decreases |steps|
  {
    if steps != [] {
      var c, rest := Commands(ctx, steps[0], s.version), PlanCommands(ctx, steps[1..], s.version);
      var s' := s.(log := s.log + c);
      ApplyIssuing(ctx, s, steps[0]);
      assert RunSteps(ctx, s, steps) == RunSteps(ctx, s', steps[1..]);
      RunIssuingSteps(ctx, s', steps[1..]);
      AppendAssoc(s.log, c, rest);
    }
  }

  /** A step that only starts processes appends its commands to the log. */
  lemma ApplyIssuing(ctx: Context, s: State, step: Step)
    requires IssuesOnly(step)
    ensures Apply(ctx, s, step) == Run(s.(log := s.log + Commands(ctx, step, s.version)), None)
  {
  }

  /** A mode's sequence cleans dist/ when the mode says so and otherwise only issues its commands. */
  lemma RunMode(ctx: Context, s: State, mode: Mode)
    ensures RunSteps(ctx, s, ModeSteps(mode)) == Run(s.(
      dist := if Cleans(mode) then AfterCleanup(s.dist, ctx.name) else s.dist,
      log := s.log + PlanCommands(ctx, ModeSteps(mode), s.version)), None)
  {
    var m := ModeSteps(mode);
    if Cleans(mode) {
      var s' := s.(dist := AfterCleanup(s.dist, ctx.name));
      RunIssuingSteps(ctx, s', m[1..]);
    } else {
      RunIssuingSteps(ctx, s, m);
    }
  }

  /** The release stage without notes for the version stops at once; with them it leaves no notes file. */
  lemma RunReleaseStage(ctx: Context, s: State)
    ensures !ReleaseVersionExists(ctx.notes, s.version) ==>
      RunSteps(ctx, s, ReleaseStage) == Run(s, Some(Exited(ReleaseNotesMissing(s.version))))
    ensures ReleaseVersionExists(ctx.notes, s.version) ==>
      RunSteps(ctx, s, ReleaseStage) ==
        Run(s.(notesFile := None, log := s.log + PlanCommands(ctx, ReleaseStage, s.version)), None)
  {
    if ReleaseVersionExists(ctx.notes, s.version) {
      var lines := NotesLines(s.version, ctx.notes.releases[s.version], DownloadUrl(ctx, s.version));
      var s1 := s.(notesFile := Some(lines));
      var s3 := s1.(log := s.log + PlanCommands(ctx, [TagRelease, CreateRelease], s.version));
      RunIssuingSteps(ctx, s1, [TagRelease, CreateRelease]);
      RunStepsAppend(ctx, s1, [TagRelease, CreateRelease], [RemoveReleaseNotes]);
      assert ReleaseStage[1..] == [TagRelease, CreateRelease] + [RemoveReleaseNotes];
      assert PlanCommands(ctx, ReleaseStage, s.version) == PlanCommands(ctx, [TagRelease, CreateRelease], s.version) by {
        assert ReleaseStage[1..] == [TagRelease, CreateRelease] + [RemoveReleaseNotes];
        PlanCommandsAppend(ctx, [TagRelease, CreateRelease], [RemoveReleaseNotes], s.version);
      }
    }
  }

  /** The version the steps after the increment see. */
  function EffectiveVersion(s: State, opts: Options): string
    requires opts.increment ==> IncrementPatch(s.version).Ok?
  {
    if opts.increment then IncrementPatch(s.version).value else s.version
  }

  /** The increment fails only on a version that does not read as three numerals. */
  predicate IncrementSucceeds(s: State, opts: Options) {
    opts.increment ==> IncrementPatch(s.version).Ok?
  }

  /** A run the gate lets through runs its plan. */
  lemma MainPassesGate(ctx: Context, s: State, mode: Mode, opts: Options)
    requires SanityCheck(ctx.env, opts, ctx.notes, s.version).None?
    ensures Main(ctx, s, mode, opts) == RunSteps(ctx, s, Plan(mode, opts))
  {
  }

  /** The optional increment only writes the new version back. */
  lemma RunIncrementPart(ctx: Context, s: State, opts: Options, v: string)
    requires IncrementSucceeds(s, opts)
    ensures RunSteps(ctx, s, IncrementPart(opts)) == Run(s.(version := EffectiveVersion(s, opts)), None)
    ensures PlanCommands(ctx, IncrementPart(opts), v) == []
  {
  }

  /** A mode's steps and the upload: the mode's effect on dist/ and the commands, nothing more. */
  lemma RunModeAndUpload(ctx: Context, s: State, mode: Mode, opts: Options)
    ensures RunSteps(ctx, s, ModeSteps(mode) + UploadPart(mode, opts)) == Run(s.(
      dist := if Cleans(mode) then AfterCleanup(s.dist, ctx.name) else s.dist,
      log := s.log + PlanCommands(ctx, ModeSteps(mode) + UploadPart(mode, opts), s.version)), None)
  {
    var m, up := ModeSteps(mode), UploadPart(mode, opts);
    var s1 := s.(dist := if Cleans(mode) then AfterCleanup(s.dist, ctx.name) else s.dist,
                 log := s.log + PlanCommands(ctx, m, s.version));
    RunMode(ctx, s, mode);
    assert forall i :: 0 <= i < |up| ==> IssuesOnly(up[i]);
    RunIssuingSteps(ctx, s1, up);
    RunStepsAppend(ctx, s, m, up);
    PlanCommandsAppend(ctx, m, up, s.version);
  }

  /** The steps before the release stage: the increment, the mode's effect and the commands, nothing more. */
  lemma RunBeforeRelease(ctx: Context, s: State, mode: Mode, opts: Options)
    requires IncrementSucceeds(s, opts)
    ensures RunSteps(ctx, s, StepsBeforeRelease(mode, opts)) == Run(s.(
      version := EffectiveVersion(s, opts),
      dist := if Cleans(mode) then AfterCleanup(s.dist, ctx.name) else s.dist,
      log := s.log + PlanCommands(ctx, StepsBeforeRelease(mode, opts), EffectiveVersion(s, opts))), None)
  {
    var v := EffectiveVersion(s, opts);
    var inc, rest := IncrementPart(opts), ModeSteps(mode) + UploadPart(mode, opts);
    assert StepsBeforeRelease(mode, opts) == inc + rest;
    RunIncrementPart(ctx, s, opts, v);
    var s1 := s.(version := v);
    RunModeAndUpload(ctx, s1, mode, opts);
    var s2 := s1.(dist := if Cleans(mode) then AfterCleanup(s1.dist, ctx.name) else s1.dist,
      log := s1.log + PlanCommands(ctx, rest, v));
    assert RunSteps(ctx, s1, rest) == Run(s2, None);
    RunStepsAppend(ctx, s, inc, rest);
    assert RunSteps(ctx, s, inc + rest) == Run(s2, None);
    PlanCommandsAppend(ctx, inc, rest, v);
    assert PlanCommands(ctx, inc + rest, v) == PlanCommands(ctx, rest, v);
  }

  /** The release and publish stages of a run whose release has notes. */
  lemma RunAfterRelease(ctx: Context, s: State, mode: Mode, opts: Options)
    requires opts.release && mode != Uninstall ==> ReleaseVersionExists(ctx.notes, s.version)
    ensures RunSteps(ctx, s, StepsFromRelease(mode, opts)) == Run(s.(
      notesFile := if opts.release && mode != Uninstall then None else s.notesFile,
      log := s.log + PlanCommands(ctx, StepsFromRelease(mode, opts), s.version)), None)
  {
    var rel, pub := ReleasePart(mode, opts), PublishPart(mode, opts);
    var v := s.version;
    var s1 := s.(notesFile := if opts.release && mode != Uninstall then None else s.notesFile,
                 log := s.log + PlanCommands(ctx, rel, v));
    var s2 := s1.(log := s1.log + PlanCommands(ctx, pub, v));
    RunReleaseStage(ctx, s);
    if rel == [] {
      assert s.log + PlanCommands(ctx, rel, v) == s.log;
    }
    assert RunSteps(ctx, s, rel) == Run(s1, None);
    assert forall i :: 0 <= i < |pub| ==> IssuesOnly(pub[i]);
    RunIssuingSteps(ctx, s1, pub);
    RunBoth(ctx, s, rel, pub, s1, s2);
    PlanCommandsAppend(ctx, rel, pub, v);
    AppendAssoc(s.log, PlanCommands(ctx, rel, v), PlanCommands(ctx, pub, v));
  }

  /** Two runs that end normally chain into the run of both step sequences. */
  lemma RunBoth(ctx: Context, s: State, a: seq<Step>, b: seq<Step>, s1: State, s2: State)
    requires RunSteps(ctx, s, a) == Run(s1, None)
    requires RunSteps(ctx, s1, b) == Run(s2, None)
    ensures RunSteps(ctx, s, a + b) == Run(s2, None)
  {
    RunStepsAppend(ctx, s, a, b);
  }

  /** The commands of a plan are those of the steps before the release stage and then the rest. */
  lemma PlanLog(ctx: Context, log: seq<Command>, mode: Mode, opts: Options, v: string)
    ensures log + PlanCommands(ctx, StepsBeforeRelease(mode, opts), v) + PlanCommands(ctx, StepsFromRelease(mode, opts), v)
      == log + PlanCommands(ctx, Plan(mode, opts), v)
  {
    var cb, ca := PlanCommands(ctx, StepsBeforeRelease(mode, opts), v), PlanCommands(ctx, StepsFromRelease(mode, opts), v);
    PlanCommandsAppend(ctx, StepsBeforeRelease(mode, opts), StepsFromRelease(mode, opts), v);
    AppendAssoc(log, cb, ca);
  }

  /** A plan whose increment succeeds and whose release has notes runs to its end. */
  lemma RunPlan(ctx: Context, s: State, mode: Mode, opts: Options)
    requires IncrementSucceeds(s, opts)
    requires opts.release && mode != Uninstall ==> ReleaseVersionExists(ctx.notes, EffectiveVersion(s, opts))
    ensures RunSteps(ctx, s, Plan(mode, opts)) == Run(s.(
      version := EffectiveVersion(s, opts),
      dist := if Cleans(mode) then AfterCleanup(s.dist, ctx.name) else s.dist,
      notesFile := if opts.release && mode != Uninstall then None else s.notesFile,
      log := s.log + PlanCommands(ctx, Plan(mode, opts), EffectiveVersion(s, opts))), None)
  {
    var v := EffectiveVersion(s, opts);
    var before, after := StepsBeforeRelease(mode, opts), StepsFromRelease(mode, opts);
    var s1 := s.(version := v, dist := if Cleans(mode) then AfterCleanup(s.dist, ctx.name) else s.dist,
      log := s.log + PlanCommands(ctx, before, v));
    var s2 := s1.(notesFile := if opts.release && mode != Uninstall then None else s1.notesFile,
      log := s1.log + PlanCommands(ctx, after, s1.version));
    RunBeforeRelease(ctx, s, mode, opts);
    RunAfterRelease(ctx, s1, mode, opts);
    RunBoth(ctx, s, before, after, s1, s2);
    PlanLog(ctx, s.log, mode, opts, v);
  }

  /**
    A run the gate lets through and that has the notes it needs issues
    exactly the commands of its plan, every one formed with the version in
    effect after the optional increment, which is also the one left in
    setup.cfg; dist/ is cleaned by the modes that clean, and no notes file is
    left behind by a release.
  */
  lemma SuccessfulRun(ctx: Context, s: State, mode: Mode, opts: Options)
    requires SanityCheck(ctx.env, opts, ctx.notes, s.version).None?
    requires IncrementSucceeds(s, opts)
    requires opts.release && mode != Uninstall ==> ReleaseVersionExists(ctx.notes, EffectiveVersion(s, opts))
    ensures var r := Main(ctx, s, mode, opts);
      && r.halt.None?
      && r.state.version == EffectiveVersion(s, opts)
      && r.state.dist == (if Cleans(mode) then AfterCleanup(s.dist, ctx.name) else s.dist)
      && r.state.notesFile == (if opts.release && mode != Uninstall then None else s.notesFile)
      && r.state.log == s.log + PlanCommands(ctx, Plan(mode, opts), EffectiveVersion(s, opts))
  {
    MainPassesGate(ctx, s, mode, opts);
    RunPlan(ctx, s, mode, opts);
  }

  /** A run the gate stops changes nothing and exits with the gate's reason. */
  lemma GateStopsBeforeAnyStep(ctx: Context, s: State, mode: Mode, opts: Options)
    requires SanityCheck(ctx.env, opts, ctx.notes, s.version).Some?
    ensures Main(ctx, s, mode, opts) == Run(s, Some(Exited(SanityCheck(ctx.env, opts, ctx.notes, s.version).value)))
  {
  }

  /**
    `--mode uninstall` runs the uninstall command and nothing else, whatever
    optional stages were asked for (the increment still happens).
  */
  lemma UninstallRunsOnlyUninstall(ctx: Context, s: State, opts: Options)
    requires SanityCheck(ctx.env, opts, ctx.notes, s.version).None?
    requires IncrementSucceeds(s, opts)
    ensures Main(ctx, s, Uninstall, opts) == Run(s.(
      version := EffectiveVersion(s, opts),
      log := s.log + [[ctx.tools.pip, "uninstall", "-y", DashName(ctx.name)]]), None)
  {
    var v := EffectiveVersion(s, opts);
    SuccessfulRun(ctx, s, Uninstall, opts);
    UninstallPlan(opts);
    RunIncrementPart(ctx, s, opts, v);
    PlanCommandsAppend(ctx, IncrementPart(opts), [UninstallWheel], v);
    assert PlanCommands(ctx, [UninstallWheel], v) == [[ctx.tools.pip, "uninstall", "-y", DashName(ctx.name)]];
  }

  /**
    A release for a version without notes exits with status 1 before it
    tags or creates anything. The gate reads the version of start-up and the
    notes file the incremented one, so with `--increment-version` the notes of
    the new version are missing after the gate passed: the exit then comes
    after the version was written back and the mode and upload ran.
  */
  lemma ReleaseWithoutNotesStopsBeforeTagging(ctx: Context, s: State, mode: Mode, opts: Options)
    requires SanityCheck(ctx.env, opts, ctx.notes, s.version).None?
    requires IncrementSucceeds(s, opts)
    requires opts.release && mode != Uninstall
    requires !ReleaseVersionExists(ctx.notes, EffectiveVersion(s, opts))
    ensures opts.increment
    ensures var r := Main(ctx, s, mode, opts);
      && r.halt == Some(Exited(ReleaseNotesMissing(EffectiveVersion(s, opts))))
      && r.state.version == EffectiveVersion(s, opts)
      && r.state.log == s.log + PlanCommands(ctx, StepsBeforeRelease(mode, opts), EffectiveVersion(s, opts))
      && TagRelease !in StepsBeforeRelease(mode, opts)
      && CreateRelease !in StepsBeforeRelease(mode, opts)
  {
    var v := EffectiveVersion(s, opts);
    var before, after := StepsBeforeRelease(mode, opts), StepsFromRelease(mode, opts);
    var s1 := s.(version := v, dist := if Cleans(mode) then AfterCleanup(s.dist, ctx.name) else s.dist,
      log := s.log + PlanCommands(ctx, before, v));
    MainPassesGate(ctx, s, mode, opts);
    RunBeforeRelease(ctx, s, mode, opts);
    RunFailingRelease(ctx, s1, mode, opts);
    RunStepsAppend(ctx, s, before, after);
    ModeStepsAreMandatory(mode);
    assert before == IncrementPart(opts) + ModeSteps(mode) + UploadPart(mode, opts);
  }

  /** The release stage for a version without notes ends the run before anything else happens. */
  lemma RunFailingRelease(ctx: Context, s: State, mode: Mode, opts: Options)
    requires opts.release && mode != Uninstall
    requires !ReleaseVersionExists(ctx.notes, s.version)
    ensures RunSteps(ctx, s, StepsFromRelease(mode, opts)) == Run(s, Some(Exited(ReleaseNotesMissing(s.version))))
  {
    RunReleaseStage(ctx, s);
    RunStepsAppend(ctx, s, ReleaseStage, PublishPart(mode, opts));
  }

  // ---------------------------------------------------------------------
  // The project a run changes in place
  // ---------------------------------------------------------------------

  /**
    The files and the global a run of release_package.py changes: `version`
    is setup.cfg's `metadata.version` and the `VERSION` global, `dist` the
    listing of dist/, `notesFile` the lines of RELEASE.md, and `log` the
    commands started so far.
  */
  class Project {
    const ctx: Context
    var version: string
    var dist: Option<set<string>>
    var notesFile: Option<seq<string>>
    var log: seq<Command>

    function Snapshot(): State
      reads this
    {
      State(version, dist, notesFile, log)
    }

    constructor (ctx: Context, initial: State)
      ensures this.ctx == ctx && Snapshot() == initial
    {
      this.ctx := ctx;
      version, dist, notesFile, log := initial.version, initial.dist, initial.notesFile, initial.log;
    }

    /** `increment_minor_version('setup.cfg')` followed by `VERSION = new_version`. */
    method IncrementMinorVersion() returns (r: Result<string, VersionError>)
      modifies this
      ensures r == IncrementPatch(old(version))
      ensures version == (if r.Ok? then r.value else old(version))
      ensures dist == old(dist) && notesFile == old(notesFile) && log == old(log)
    {
      r := IncrementPatch(version);
      if r.Ok? {
        version := r.value;
      }
    }

    /** `cleanup_old_wheels`: removes, one by one, the listed files that start with `<name>-`. */
    method CleanupOldWheels()
      modifies this
      ensures dist == AfterCleanup(old(dist), ctx.name)
      ensures version == old(version) && notesFile == old(notesFile) && log == old(log)
    {
      if dist.None? {
        return;
      }
      var listing := dist.value;
      var prefix := CleanupPrefix(ctx.name);
      var todo := listing;
      while todo != {}
        invariant todo <= listing
        invariant dist.Some?
        invariant forall f :: f in dist.value <==> f in listing && (f in todo || !StartsWith(f, prefix))
        invariant version == old(version) && notesFile == old(notesFile) && log == old(log)
        decreases todo
      {
        var file :| file in todo;
        if StartsWith(file, prefix) {
          dist := Some(dist.value - {file});
        }
        todo := todo - {file};
      }
      assert dist.value == AfterCleanup(old(dist), ctx.name).value;
    }

    /** `tmp_release_notes`, which exits when the current version has no notes. */
    method WriteReleaseNotes() returns (halt: Option<Halt>)
      modifies this
      ensures Run(Snapshot(), halt) == Apply(ctx, old(Snapshot()), Step.WriteReleaseNotes)
    {
      if version !in ctx.notes.releases {
        return Some(Exited(ReleaseNotesMissing(version)));
      }
      var lines := RenderReleaseNotes(version, ctx.notes.releases[version], DownloadUrl(ctx, version));
      notesFile := Some(lines);
      halt := None;
    }

    /** `os.remove(release_file)` */
    method RemoveReleaseNotes() returns (halt: Option<Halt>)
      modifies this
      ensures Run(Snapshot(), halt) == Apply(ctx, old(Snapshot()), Step.RemoveReleaseNotes)
    {
      if notesFile.None? {
        return Some(Raised(NotesFileMissing));
      }
      notesFile := None;
      halt := None;
    }

    /** One step of `main`. */
    method Execute(step: Step) returns (halt: Option<Halt>)
      modifies this
      ensures Run(Snapshot(), halt) == Apply(ctx, old(Snapshot()), step)
    {
      match step {
        case IncrementVersion =>
          var r := IncrementMinorVersion();
          halt := if r.Err? then Some(Raised(BadVersion(r.error))) else None;
        case CleanupOldWheels =>
          CleanupOldWheels();
          halt := None;
        case WriteReleaseNotes =>
          halt := WriteReleaseNotes();
        case RemoveReleaseNotes =>
          halt := RemoveReleaseNotes();
        case _ =>
          log := log + Commands(ctx, step, version);
          halt := None;
      }
    }

    /** The plan's steps executed one after the other, stopping at the first that halts. */
    method RunPlanSteps(steps: seq<Step>) returns (halt: Option<Halt>)
      modifies this
      ensures Run(Snapshot(), halt) == RunSteps(ctx, old(Snapshot()), steps)
    {
      ghost var start := Snapshot();
      var i := 0;
      halt := None;
      while i < |steps|
        invariant 0 <= i <= |steps|
        invariant halt.None?
        invariant RunSteps(ctx, start, steps) == RunSteps(ctx, Snapshot(), steps[i..])
      {
        ghost var current := Snapshot();
        assert steps[i..][0] == steps[i] && steps[i..][1..] == steps[i + 1..];
        halt := Execute(steps[i]);
        assert Run(Snapshot(), halt) == Apply(ctx, current, steps[i]);
        if halt.Some? {
          return;
        }
        i := i + 1;
      }
    }

    /** `main` from the gate on: the gate, then the plan run step by step. */
    method RunMain(mode: Mode, opts: Options) returns (halt: Option<Halt>)
      modifies this
      ensures Run(Snapshot(), halt) == Main(ctx, old(Snapshot()), mode, opts)
    {
      var failure := SanityCheck(ctx.env, opts, ctx.notes, version);
      if failure.Some? {
        return Some(Exited(failure.value));
      }
      halt := RunPlanSteps(Plan(mode, opts));
    }
  }
}
