/**
 * west_commands/env.py: the `west env` command. Reading the manifest
 * location from `.west/config`, validating the workspace before any
 * container run, the doctor's checks, and the dispatch of `init`, `build`,
 * `shell` and `doctor`.
 */
module EnvCommand {
  import opened Results
  import opened Paths
  import opened Config
  import opened Environment
  import opened Engine
  import opened Util
  import opened Container

  /** `cp.get(section, key, fallback=...)` */
  function ConfigGet(wc: map<string, map<string, string>>, section: string, key: string, fallback: string): string {
    if section in wc && key in wc[section] then wc[section][key] else fallback
  }

  /** `_read_west_manifest_location`: the manifest's directory and file name, with their defaults. */
  function ReadManifestLocation(wc: WestConfig): (r: Result<(string, string), string>)
    ensures r.Failure? <==> wc.Unreadable?
    ensures r.Failure? ==> r.error == wc.reason
    ensures r.Success? && ("manifest" !in wc.sections || "path" !in wc.sections["manifest"]) ==> r.value.0 == "."
    ensures r.Success? && ("manifest" !in wc.sections || "file" !in wc.sections["manifest"]) ==> r.value.1 == "west.yml"
    ensures r.Success? && "manifest" in wc.sections && "path" in wc.sections["manifest"] ==>
      r.value.0 == wc.sections["manifest"]["path"]
    ensures r.Success? && "manifest" in wc.sections && "file" in wc.sections["manifest"] ==>
      r.value.1 == wc.sections["manifest"]["file"]
  {
    match wc
    case Unreadable(reason) => Failure(reason)
    case Sections(sections) =>
      Success((ConfigGet(sections, "manifest", "path", "."), ConfigGet(sections, "manifest", "file", "west.yml")))
  }

  /** `(topdir / mpath / mfile).resolve()` */
  function ManifestPath(topdir: Path, mpath: string, mfile: string): Path {
    Normalize(Append(Append(topdir, mpath), mfile))
  }

  /** With the default location, the manifest is `west.yml` directly in the workspace. */
  lemma DefaultManifestPath(topdir: Path)
    requires Resolved(topdir)
    ensures ManifestPath(topdir, ".", "west.yml") == topdir + ["west.yml"]
  {
    AppendDot(topdir);
    assert IsName("west.yml");
    AppendName(topdir, "west.yml");
    var cs := topdir + ["west.yml"];
    assert Resolved(cs) by {
      assert forall i :: 0 <= i < |topdir| ==> cs[i] == topdir[i];
    }
    NormalizeResolved(cs);
  }

  /** Below a resolved workspace, the manifest path resolves to proper names only, wherever it points. */
  lemma ManifestPathResolved(topdir: Path, mpath: string, mfile: string)
    requires Resolved(topdir)
    ensures Resolved(ManifestPath(topdir, mpath, mfile))
  {
    var inner := Append(topdir, mpath);
    var cs := Append(inner, mfile);
    AppendPieces(topdir, mpath);
    AppendPieces(inner, mfile);
    NormalizePieces(cs);
    var manifest := ManifestPath(topdir, mpath, mfile);
    forall i | 0 <= i < |manifest| ensures IsName(manifest[i]) {
      var c := manifest[i];
      assert c in Normalize(cs);
      if c in topdir {
        var j :| 0 <= j < |topdir| && topdir[j] == c;
      }
    }
  }

  const WestDirMissing := ".west directory not found"

  /** The manifest problem, if any: an unreadable `.west/config`, or a manifest path that is not a file. */
  function ManifestProblem(h: Host): (problem: Option<string>)
    ensures problem.None? <==>
      h.westConfig.Sections? &&
      ManifestPath(h.topdir, ReadManifestLocation(h.westConfig).value.0, ReadManifestLocation(h.westConfig).value.1) in h.files
    ensures h.westConfig.Unreadable? ==> problem == Some("failed to read .west/config: " + h.westConfig.reason)
    ensures h.westConfig.Sections? && problem.Some? ==>
      problem.value == "manifest not found at " + Text(ManifestPath(h.topdir,
        ReadManifestLocation(h.westConfig).value.0, ReadManifestLocation(h.westConfig).value.1))
    ensures problem.Some? ==> problem.value != WestDirMissing
  {
    match ReadManifestLocation(h.westConfig)
    case Failure(e) =>
      var problem := "failed to read .west/config: " + e;
      assert problem[0] != WestDirMissing[0];
      Some(problem)
    case Success((mpath, mfile)) =>
      var manifest := ManifestPath(h.topdir, mpath, mfile);
      var problem := "manifest not found at " + Text(manifest);
      assert problem[0] != WestDirMissing[0];
      if manifest in h.files then None else Some(problem)
  }

  /** Every problem `validate_workspace_layout` finds, in the order it finds them. */
  function WorkspaceProblems(h: Host): (problems: seq<string>)
    ensures |problems| <= 2
    ensures problems == [] <==> h.topdir + [".west"] in h.dirs && ManifestProblem(h).None?
    ensures h.topdir + [".west"] !in h.dirs ==> problems[0] == WestDirMissing
    ensures ManifestProblem(h).Some? ==> problems[|problems| - 1] == ManifestProblem(h).value
    ensures |problems| == (if h.topdir + [".west"] in h.dirs then 0 else 1) + (if ManifestProblem(h).Some? then 1 else 0)
    ensures WestDirMissing in problems <==> h.topdir + [".west"] !in h.dirs
  {
    (if h.topdir + [".west"] in h.dirs then [] else [WestDirMissing])
    + (match ManifestProblem(h) case Some(p) => [p] case None => [])
  }

  /** Both checks run: a workspace missing `.west` and its manifest has exactly two problems. */
  lemma BothProblemsReported(h: Host)
    requires h.topdir + [".west"] !in h.dirs
    requires h.westConfig.Sections?
    requires ManifestPath(h.topdir, ReadManifestLocation(h.westConfig).value.0,
                          ReadManifestLocation(h.westConfig).value.1) !in h.files
    ensures |WorkspaceProblems(h)| == 2
    ensures WorkspaceProblems(h)[0] == WestDirMissing
  {
  }

  /** The closing hint, written in two pieces so that the proof of `HintLine` works on short literals. */
  const Hint := "Hint: ensure west init was run" + " and the workspace is intact."

  /** One `"  - <problem>"` line per problem. */
  function Bullets(problems: seq<string>): (lines: seq<string>)
    ensures |lines| == |problems|
    ensures forall i :: 0 <= i < |problems| ==> lines[i] == "  - " + problems[i]
    decreases |problems|
  {
    if |problems| == 0 then [] else ["  - " + problems[0]] + Bullets(problems[1..])
  }

  const Heading := "FATAL: invalid west workspace"

  /** A line of text ended by a newline, then the rest. */
  function Line(text: string, rest: string): string {
    text + "\n" + rest
  }

  /** A report under `heading`, with `hint` at its foot, line after line. */
  function Report(heading: string, hint: string, topdir: Path, problems: seq<string>): string {
    Line(heading,
    Line("West topdir: " + Text(topdir),
    Line("Problems:",
    Line(Join(Bullets(problems), "\n"),
    Line("",
    Line(hint, ""))))))
  }

  /** The message of the `SystemExit` raised for an invalid workspace. */
  function FatalReport(topdir: Path, problems: seq<string>): string {
    Report(Heading, Hint, topdir, problems)
  }

  /** The lines of a report: heading, topdir, "Problems:", the bullets, a blank line, the hint, and the empty piece after the last newline. */
  function ReportLineList(heading: string, hint: string, topdir: Path, problems: seq<string>): seq<string> {
    [heading, "West topdir: " + Text(topdir), "Problems:"] + (Bullets(problems) + ["", hint, ""])
  }

  /** A line of text: no newline inside. */
  predicate OneLine(s: string) {
    '\n' !in s
  }

  /** A line followed by a newline splits off as one piece. */
  lemma SplitLine(line: string, rest: string)
    requires OneLine(line)
    ensures Split(Line(line, rest), '\n') == [line] + Split(rest, '\n')
  {
    SplitWithout(line, '\n');
    SplitAround(line, '\n', rest);
  }

  /** Two single lines put together make one. */
  lemma LinesConcat(a: string, b: string)
    requires OneLine(a) && OneLine(b)
    ensures OneLine(a + b)
  {
  }

  /** The heading is a single line. */
  lemma HeadingLine()
    ensures OneLine(Heading)
  {
  }

  /** The hint is a single line. */
  lemma HintLine()
    ensures OneLine(Hint)
  {
    assert OneLine("Hint: ensure west init was run");
    assert OneLine(" and the workspace is intact.");
    LinesConcat("Hint: ensure west init was run", " and the workspace is intact.");
  }

  /** The fixed labels of the report are single lines. */
  lemma FixedLines()
    ensures OneLine("Problems:") && OneLine("West topdir: ") && OneLine("  - ")
  {
  }

  /** A bullet is one line when its problem is. */
  lemma BulletLine(problem: string)
    requires OneLine(problem)
    ensures OneLine("  - " + problem)
  {
    FixedLines();
    LinesConcat("  - ", problem);
  }

  /** Each bullet is one line when its problem is. */
  lemma BulletsOneLine(problems: seq<string>)
    requires forall i :: 0 <= i < |problems| ==> OneLine(problems[i])
    ensures forall i :: 0 <= i < |Bullets(problems)| ==> OneLine(Bullets(problems)[i])
  {
    var bullets := Bullets(problems);
    forall i | 0 <= i < |bullets|
      ensures OneLine(bullets[i])
    {
      BulletLine(problems[i]);
    }
  }

  /** A blank line and the hint, each ended by a newline. */
  lemma SplitHintTail(hint: string)
    requires OneLine(hint)
    ensures Split(Line("", Line(hint, "")), '\n') == ["", hint, ""]
  {
    SplitLine(hint, "");
    assert Split("", '\n') == [""];
    SplitLine("", Line(hint, ""));
  }

  /** Lines joined by newlines, then a newline, split off ahead of the rest. */
  lemma SplitJoinedLines(lines: seq<string>, rest: string)
    requires |lines| > 0 && forall i :: 0 <= i < |lines| ==> OneLine(lines[i])
    ensures Split(Line(Join(lines, "\n"), rest), '\n') == lines + Split(rest, '\n')
  {
    SplitJoin(lines, '\n');
    SplitAround(Join(lines, "\n"), '\n', rest);
  }

  /** Three header lines, each ended by a newline, split off ahead of the rest. */
  lemma SplitReportHead(heading: string, topLine: string, section: string, rest: string)
    requires OneLine(heading) && OneLine(topLine) && OneLine(section)
    ensures Split(Line(heading, Line(topLine, Line(section, rest))), '\n') == [heading, topLine, section] + Split(rest, '\n')
  {
    SplitLine(section, rest);
    SplitLine(topLine, Line(section, rest));
    SplitLine(heading, Line(topLine, Line(section, rest)));
  }

  /** Six stretches of text, each ended by a newline, split back into their lines. */
  lemma SplitReportShape(heading: string, topLine: string, section: string, bullets: seq<string>, hint: string)
    requires OneLine(heading) && OneLine(topLine) && OneLine(section) && OneLine(hint)
    requires |bullets| > 0 && forall i :: 0 <= i < |bullets| ==> OneLine(bullets[i])
    ensures Split(Line(heading, Line(topLine, Line(section, Line(Join(bullets, "\n"), Line("", Line(hint, "")))))), '\n')
      == [heading, topLine, section] + (bullets + ["", hint, ""])
  {
    SplitHintTail(hint);
    SplitJoinedLines(bullets, Line("", Line(hint, "")));
    SplitReportHead(heading, topLine, section, Line(Join(bullets, "\n"), Line("", Line(hint, ""))));
  }

  /**
   * Line by line, a report is its heading, the topdir, one line per
   * problem in the order found, then the hint.
   */
  lemma ReportLines(heading: string, hint: string, topdir: Path, problems: seq<string>)
    requires OneLine(heading) && OneLine(hint) && OneLine(Text(topdir))
    requires |problems| > 0 && forall i :: 0 <= i < |problems| ==> OneLine(problems[i])
    ensures Split(Report(heading, hint, topdir, problems), '\n') == ReportLineList(heading, hint, topdir, problems)
  {
    var topLine, bullets := "West topdir: " + Text(topdir), Bullets(problems);
    assert OneLine(topLine) && OneLine("Problems:") by {
      FixedLines();
      LinesConcat("West topdir: ", Text(topdir));
    }
    BulletsOneLine(problems);
    SplitReportShape(heading, topLine, "Problems:", bullets, hint);
  }

  /** Line by line, the fatal report is its heading, the topdir, one bullet per problem, then the hint. */
  lemma FatalReportLines(topdir: Path, problems: seq<string>)
    requires OneLine(Text(topdir))
    requires |problems| > 0 && forall i :: 0 <= i < |problems| ==> OneLine(problems[i])
    ensures Split(FatalReport(topdir, problems), '\n') == ReportLineList(Heading, Hint, topdir, problems)
  {
    HeadingLine();
    HintLine();
    ReportLines(Heading, Hint, topdir, problems);
  }

  /** What `validate_workspace_layout` does: nothing, or raise `SystemExit` with the report. */
  datatype Validation = Valid | Invalid(problems: seq<string>, report: string)

  /** `validate_workspace_layout()`: both checks always run; any problem aborts with all of them. */
  method ValidateWorkspaceLayout(h: Host) returns (v: Validation)
    ensures v.Valid? <==> h.topdir + [".west"] in h.dirs && ManifestProblem(h).None?
    ensures v.Invalid? ==> v.problems == WorkspaceProblems(h) && v.report == FatalReport(h.topdir, v.problems)
  {
    var topdir := h.topdir;
    var errors: seq<string> := [];

    if topdir + [".west"] !in h.dirs {
      errors := errors + [WestDirMissing];
    }

    match ReadManifestLocation(h.westConfig) {
      case Success((mpath, mfile)) =>
        var manifest := ManifestPath(topdir, mpath, mfile);
        if manifest !in h.files {
          errors := errors + ["manifest not found at " + Text(manifest)];
        }
      case Failure(e) =>
        errors := errors + ["failed to read .west/config: " + e];
    }

    if |errors| > 0 {
      v := Invalid(errors, FatalReport(topdir, errors));
    } else {
      v := Valid;
    }
  }

  /** `s.rstrip(c)` */
  function RStrip(s: string, c: char): (r: string)
    ensures |r| <= |s| && r == s[..|r|]
    ensures |r| == 0 || r[|r| - 1] != c
    ensures forall i :: |r| <= i < |s| ==> s[i] == c
    decreases |s|
  {
    if |s| > 0 && s[|s| - 1] == c then RStrip(s[..|s| - 1], c) else s
  }

  /** `s.lstrip(chars)`: removes leading characters drawn from the set, not a prefix. */
  function LStrip(s: string, chars: set<char>): (r: string)
    ensures |r| <= |s| && r == s[|s| - |r|..]
    ensures |r| == 0 || r[0] !in chars
    ensures forall i :: 0 <= i < |s| - |r| ==> s[i] in chars
    decreases |s|
  {
    if |s| > 0 && s[0] in chars then LStrip(s[1..], chars) else s
  }

  /** `f"{mpath.rstrip('/')}/{mfile}".lstrip("./")`: the manifest relative to `/work`. */
  function ManifestRel(mpath: string, mfile: string): (rel: string)
    ensures |rel| == 0 || (rel[0] != '.' && rel[0] != '/')
    ensures var joined := RStrip(mpath, '/') + "/" + mfile;
      && |rel| <= |joined| && rel == joined[|joined| - |rel|..]
      && forall i :: 0 <= i < |joined| - |rel| ==> joined[i] == '.' || joined[i] == '/'
  {
    LStrip(RStrip(mpath, '/') + "/" + mfile, DotSlash)
  }

  const DotSlash: set<char> := {'.', '/'}

  /** A string that `lstrip("./")` leaves alone. */
  predicate Plain(s: string) {
    |s| > 0 && s[0] != '.' && s[0] != '/'
  }

  /** With the default directory ".", the manifest is its file name, when that does not itself start with "." or "/". */
  lemma ManifestRelDefaultDir(mfile: string)
    requires Plain(mfile)
    ensures ManifestRel(".", mfile) == mfile
  {
    RStripPadding(".", '/', 0);
    assert "." + seq(0, _ => '/') == ".";
    assert "." + "/" + mfile == "./" + mfile;
    LStripPrefix("./", mfile, DotSlash);
  }

  /** Trailing copies of the stripped character go, and the rest is kept. */
  lemma {:induction false} RStripPadding(s: string, c: char, n: nat)
    requires |s| > 0 && s[|s| - 1] != c
    ensures RStrip(s + seq(n, _ => c), c) == s
    decreases n
  {
    var padded := s + seq(n, _ => c);
    if n > 0 {
      assert padded[..|padded| - 1] == s + seq(n - 1, _ => c);
      RStripPadding(s, c, n - 1);
    } else {
      assert padded == s;
    }
  }

  /** Leading characters from the set go, up to the first one outside it. */
  lemma {:induction false} LStripPrefix(p: string, s: string, chars: set<char>)
    requires forall i :: 0 <= i < |p| ==> p[i] in chars
    requires |s| > 0 && s[0] !in chars
    ensures LStrip(p + s, chars) == s
    decreases |p|
  {
    if |p| > 0 {
      assert (p + s)[1..] == p[1..] + s;
      LStripPrefix(p[1..], s, chars);
    } else {
      assert p + s == s;
    }
  }

  /** A plain directory without a trailing "/" gives "<dir>/<file>"; trailing slashes are dropped first. */
  lemma ManifestRelPlainDir(mpath: string, slashes: nat, mfile: string)
    requires Plain(mpath) && mpath[|mpath| - 1] != '/'
    ensures ManifestRel(mpath + seq(slashes, _ => '/'), mfile) == mpath + "/" + mfile
  {
    RStripPadding(mpath, '/', slashes);
    LStripPrefix("", mpath + "/" + mfile, DotSlash);
  }

  /** Because `lstrip` removes characters, not a prefix, a directory "../<dir>" loses its "../". */
  lemma ManifestRelDropsParent(mpath: string, mfile: string)
    requires Plain(mpath) && mpath[|mpath| - 1] != '/'
    ensures ManifestRel("../" + mpath, mfile) == mpath + "/" + mfile
  {
    var outside := "../" + mpath;
    RStripPadding(outside, '/', 0);
    assert outside + seq(0, _ => '/') == outside;
    assert outside + "/" + mfile == "../" + (mpath + "/" + mfile);
    LStripPrefix("../", mpath + "/" + mfile, DotSlash);
  }

  /** `[a for a in args if a != token]` */
  function Without(args: seq<string>, token: string): (kept: seq<string>)
    ensures token !in kept
    ensures forall a :: a != token ==> multiset(kept)[a] == multiset(args)[a]
    ensures token !in args ==> kept == args
    decreases |args|
  {
    if |args| == 0 then []
    else
      assert [args[0]] + args[1..] == args;
      (if args[0] == token then [] else [args[0]]) + Without(args[1..], token)
  }

  /** The filter keeps the order of what it keeps: it distributes over concatenation. */
  lemma {:induction false} WithoutConcat(a: seq<string>, b: seq<string>, token: string)
    ensures Without(a + b, token) == Without(a, token) + Without(b, token)
    decreases |a|
  {
    if |a| == 0 {
      assert a + b == b;
    } else {
      assert (a + b)[0] == a[0];
      assert (a + b)[1..] == a[1..] + b;
      WithoutConcat(a[1..], b, token);
    }
  }

  /** The flag that forces container mode; `do_run` drops it from the arguments it passes through. */
  const ContainerFlag := "--container"

  /** `args.container or cfg.env_type == "container"` */
  predicate UseContainer(containerFlag: bool, cfg: EnvConfig) {
    containerFlag || cfg.envType == Scalar("container")
  }

  /** The probe `_doctor_container_workspace` runs: always with docker, whatever engine is configured. */
  function VisibilityProbe(topdir: Path, image: string, manifestRel: string): (argv: seq<string>)
    ensures |argv| == 11 && argv[0] == "docker" && argv[7] == image
  {
    ["docker", "run", "--rm", "-v", Text(topdir) + ":" + Workdir, "-w", Workdir, image,
     "sh", "-c", "test -d .west && test -f '" + manifestRel + "'"]
  }

  /**
   * `_doctor_container_workspace(cfg)`: raises when `.west/config` cannot be
   * read; otherwise whether the docker probe sees `.west` and the manifest.
   */
  function WorkspaceVisible(cfg: EnvConfig, h: Host): (r: Result<bool, string>)
    ensures r.Failure? <==> h.westConfig.Unreadable?
    ensures r.Failure? ==> r.error == h.westConfig.reason
    ensures r.Success? ==>
      var (mpath, mfile) := ReadManifestLocation(h.westConfig).value;
      (r.value <==> cfg.image.Scalar? && h.Runs(VisibilityProbe(h.topdir, cfg.image.text, ManifestRel(mpath, mfile))))
  {
    match ReadManifestLocation(h.westConfig)
    case Failure(e) => Failure(e)
    case Success((mpath, mfile)) =>
      var manifestRel := ManifestRel(mpath, mfile);
      match ImageArg(cfg.image)
      case None => Success(false)
      case Some(image) => Success(h.Runs(VisibilityProbe(h.topdir, image, manifestRel)))
  }

  /** The configured engine plays no part in the visibility probe. */
  lemma VisibilityIgnoresEngine(cfg: EnvConfig, h: Host, engine: Yaml)
    ensures WorkspaceVisible(cfg, h) == WorkspaceVisible(cfg.(engine := engine), h)
  {
  }

  datatype DoctorCheck = PythonVersion | WestTool | ContainerEngineAndImage | WorkspaceVisibility

  datatype CheckRecord = CheckRecord(check: DoctorCheck, passed: bool)

  /**
   * What `_doctor` ends in: a verdict over the checks it ran, or the
   * exception from reading `.west/config` after the checks so far.
   */
  datatype DoctorOutcome = Verdict(ok: bool, checks: seq<CheckRecord>) | Crashed(checks: seq<CheckRecord>, error: string)

  /** The checks the doctor runs in a mode, in order. */
  function Applicable(useContainer: bool): seq<DoctorCheck> {
    if useContainer then [PythonVersion, WestTool, ContainerEngineAndImage, WorkspaceVisibility]
    else [PythonVersion, WestTool]
  }

  /** Whether one check passes on a host. */
  function Outcome(check: DoctorCheck, cfg: EnvConfig, h: Host): bool {
    match check
    case PythonVersion => CheckPython(h.python)
    case WestTool => CheckWest(h)
    case ContainerEngineAndImage => CheckContainer(cfg, h).Passed?
    case WorkspaceVisibility => WorkspaceVisible(cfg, h) == Success(true)
  }

  /** The records of running the given checks, in order, on a host. */
  function Expected(checks: seq<DoctorCheck>, cfg: EnvConfig, h: Host): (records: seq<CheckRecord>)
    ensures |records| == |checks|
    ensures forall i :: 0 <= i < |checks| ==> records[i] == CheckRecord(checks[i], Outcome(checks[i], cfg, h))
  {
    seq(|checks|, i requires 0 <= i < |checks| => CheckRecord(checks[i], Outcome(checks[i], cfg, h)))
  }

  predicate AllPassed(records: seq<CheckRecord>) {
    forall i :: 0 <= i < |records| ==> records[i].passed
  }

  /** Running one more check extends the records by its outcome, and the conjunction by its result. */
  lemma RunOneMore(ran: seq<DoctorCheck>, next: seq<DoctorCheck>, records: seq<CheckRecord>, r: CheckRecord, cfg: EnvConfig, h: Host)
    requires records == Expected(ran, cfg, h) && r.passed == Outcome(r.check, cfg, h)
    requires next == ran + [r.check]
    ensures records + [r] == Expected(next, cfg, h)
    ensures AllPassed(records + [r]) <==> AllPassed(records) && r.passed
  {
    assert forall i :: 0 <= i < |records| ==> (records + [r])[i] == records[i];
    assert (records + [r])[|records|] == r;
  }

  /**
   * `_doctor(cfg, use_container)`: every check of the mode runs, in order,
   * and the verdict is their conjunction.
   */
  method DoctorChecks(cfg: EnvConfig, useContainer: bool, h: Host) returns (d: DoctorOutcome)
    ensures d.Crashed? <==> useContainer && h.westConfig.Unreadable?
    ensures d.Verdict? ==> d.checks == Expected(Applicable(useContainer), cfg, h)
    ensures d.Crashed? ==> d.checks == Expected(Applicable(true)[..3], cfg, h)
    ensures d.Crashed? ==> d.error == h.westConfig.reason
    ensures d.Verdict? ==> (d.ok <==> AllPassed(d.checks))
  {
    var ok := true;
    var checks: seq<CheckRecord> := [];

    var python := CheckRecord(PythonVersion, CheckPython(h.python));
    RunOneMore([], [PythonVersion], checks, python, cfg, h);
    ok := ok && python.passed;
    checks := checks + [python];

    var west := CheckRecord(WestTool, CheckWest(h));
    RunOneMore([PythonVersion], [PythonVersion, WestTool], checks, west, cfg, h);
    ok := ok && west.passed;
    checks := checks + [west];

    if !useContainer {
      return Verdict(ok, checks);
    }
    var container := CheckRecord(ContainerEngineAndImage, CheckContainer(cfg, h).Passed?);
    RunOneMore([PythonVersion, WestTool], [PythonVersion, WestTool, ContainerEngineAndImage], checks, container, cfg, h);
    ok := ok && container.passed;
    checks := checks + [container];

    var visible := WorkspaceVisible(cfg, h);
    if visible.Failure? {
      return Crashed(checks, visible.error);
    }
    var workspace := CheckRecord(WorkspaceVisibility, visible.value);
    RunOneMore(Applicable(true)[..3], Applicable(true), checks, workspace, cfg, h);
    ok := ok && workspace.passed;
    checks := checks + [workspace];
    d := Verdict(ok, checks);
  }

  /** The doctor's verdict holds exactly when every check of its mode passes. */
  lemma DoctorVerdict(cfg: EnvConfig, useContainer: bool, h: Host, d: DoctorOutcome)
    requires d.Verdict? && d.checks == Expected(Applicable(useContainer), cfg, h)
    requires d.ok <==> AllPassed(d.checks)
    ensures d.ok <==> forall c :: c in Applicable(useContainer) ==> Outcome(c, cfg, h)
  {
    var checks := Applicable(useContainer);
    if d.ok {
      forall c | c in checks ensures Outcome(c, cfg, h) {
        var i :| 0 <= i < |checks| && checks[i] == c;
        assert d.checks[i].passed;
      }
    } else {
      var i :| 0 <= i < |d.checks| && !d.checks[i].passed;
      assert checks[i] in checks;
    }
  }

  datatype Action = Init | Build | Shell | Doctor

  /** What the container runs for an action other than `doctor`. */
  function ContainerCommand(action: Action, passthrough: seq<string>): (command: seq<string>)
    requires action != Doctor
    ensures action == Build <==> |command| >= 2 && command[..2] == ["west", "build"]
    ensures action == Build ==> command[2..] == passthrough
    ensures action == Init <==> command == ["true"]
    ensures action == Shell <==> command == ["/bin/bash"]
  {
    match action
    case Init => ["true"]
    case Build => ["west", "build"] + passthrough
    case Shell => ["/bin/bash"]
  }

  /** What one `west env` invocation ends in. */
  datatype RunOutcome =
    | ConfigFailed(configError: ConfigError)
    | NativeSelected
    | HostRan(argv: seq<string>)
    | Rejected(report: string)
    | ContainerFailed(runError: RunError)
    | ContainerRan(invocation: Invocation)
    | Diagnosed(doctor: DoctorOutcome)

  /** Container mode for this host and flag, once the configuration loads. */
  predicate ContainerMode(containerFlag: bool, h: Host) {
    LoadConfig(h.envFile).Success? && UseContainer(containerFlag, LoadConfig(h.envFile).value)
  }

  /**
   * The `--container` flag forces container mode; without it, container mode
   * is exactly an `env.type` of "container" in a configuration that loads.
   */
  lemma ContainerModeChoice(h: Host)
    ensures ContainerMode(true, h) <==> LoadConfig(h.envFile).Success?
    ensures ContainerMode(false, h) <==>
      LoadConfig(h.envFile).Success? && LoadConfig(h.envFile).value.envType == Scalar("container")
  {
  }

  /** `do_run`: validation always precedes a container run, and native mode never validates. */
  method DoRun(action: Action, containerFlag: bool, args: seq<string>, h: Host) returns (o: RunOutcome)
    ensures o.ConfigFailed? <==> LoadConfig(h.envFile).Failure?
    ensures o.ConfigFailed? ==> o.configError == LoadConfig(h.envFile).error
    ensures o.Diagnosed? <==> LoadConfig(h.envFile).Success? && action == Doctor
    ensures o.Diagnosed? ==>
      var (cfg, useContainer) := (LoadConfig(h.envFile).value, ContainerMode(containerFlag, h));
      && (o.doctor.Crashed? <==> useContainer && h.westConfig.Unreadable?)
      && (o.doctor.Crashed? ==> o.doctor.checks == Expected(Applicable(true)[..3], cfg, h))
      && (o.doctor.Crashed? ==> o.doctor.error == h.westConfig.reason)
      && (o.doctor.Verdict? ==> o.doctor.checks == Expected(Applicable(useContainer), cfg, h))
      && (o.doctor.Verdict? ==> (o.doctor.ok <==> AllPassed(o.doctor.checks)))
    ensures o.NativeSelected? <==> LoadConfig(h.envFile).Success? && action == Init && !ContainerMode(containerFlag, h)
    ensures o.HostRan? <==>
      LoadConfig(h.envFile).Success? && (action == Build || action == Shell) && !ContainerMode(containerFlag, h)
    ensures o.HostRan? ==> o.argv == (if action == Build then ["west", "build"] + Without(args, ContainerFlag) else ["bash"])
    ensures o.Rejected? <==>
      ContainerMode(containerFlag, h) && action != Doctor && WorkspaceProblems(h) != []
    ensures o.Rejected? ==> o.report == FatalReport(h.topdir, WorkspaceProblems(h))
    ensures o.ContainerRan? || o.ContainerFailed? ==>
      ContainerMode(containerFlag, h) && action != Doctor && WorkspaceProblems(h) == []
    ensures o.ContainerRan? <==>
      && ContainerMode(containerFlag, h) && action != Doctor && WorkspaceProblems(h) == []
      && GetEngine(LoadConfig(h.envFile).value.engine, h.executables).Success?
      && LoadConfig(h.envFile).value.image.Scalar?
    ensures o.ContainerFailed? ==>
      var resolved := GetEngine(LoadConfig(h.envFile).value.engine, h.executables);
      o.runError == (if resolved.Failure? then EngineFailed(resolved.error) else ImageNotAString)
    ensures o.ContainerRan? ==>
      var cfg := LoadConfig(h.envFile).value;
      && action != Doctor
      && cfg.image.Scalar?
      && GetEngine(cfg.engine, h.executables).Success?
      && o.invocation.warnedBoth == GetEngine(cfg.engine, h.executables).value.1
      && Describes(o.invocation.argv, GetEngine(cfg.engine, h.executables).value.0.name, h.topdir,
                   ContainerWd(h.topdir, h.cwd), cfg.image.text, ContainerCommand(action, Without(args, ContainerFlag)),
                   action == Shell)
  {
    var loaded := LoadConfig(h.envFile);
    if loaded.Failure? {
      return ConfigFailed(loaded.error);
    }
    var cfg := loaded.value;
    var useContainer := UseContainer(containerFlag, cfg);
    var passthrough := Without(args, ContainerFlag);

    if action == Doctor {
      var d := DoctorChecks(cfg, useContainer, h);
      return Diagnosed(d);
    }
    if !useContainer {
      match action {
        case Init => o := NativeSelected;
        case Build => o := HostRan(["west", "build"] + passthrough);
        case Shell => o := HostRan(["bash"]);
      }
      return;
    }
    var v := ValidateWorkspaceLayout(h);
    if v.Invalid? {
      return Rejected(v.report);
    }
    var run := RunContainer(cfg, ContainerCommand(action, passthrough), action == Shell, h);
    match run {
      case Success(invocation) => o := ContainerRan(invocation);
      case Failure(e) => o := ContainerFailed(e);
    }
  }
}
