/**
 The `ci-status` response: one bounded text for a list of projects with their newest
 runs. Printing and parsing are inverse to each other in both directions.
 */
module StatusResponse {
  import opened Wrappers
  import opened Text
  import opened Records
  import opened ControlLines
  import opened Names

  const MAX_RUNS := 64
  const MAX_PROJECTS := 65536

  datatype Project = Project(name: string, enabled: bool, runs: seq<RunSummary>)

  datatype Report = Report(serverEpoch: U64, projects: seq<Project>)

  // ----- printing -----------------------------------------------------------------------

  function ProjectLine(p: Project): string {
    Join(["project", p.name, if p.enabled then "enabled" else "disabled", Decimal(|p.runs|)], ' ')
  }

  function RunRecords(runs: seq<RunSummary>): seq<Option<string>> {
    seq(|runs|, i requires 0 <= i < |runs| => if Representable(runs[i]) then Some(RunLine(runs[i])) else None)
  }

  function AddProject(response: string, p: Project): Result<string, Problem> {
    if !ValidProjectName(p.name) || |p.runs| > MAX_RUNS then Failure(Unrepresentable)
    else
      match Append(response, ProjectLine(p))
      case Failure(problem) => Failure(problem)
      case Success(begun) => AddRecords(begun, RunRecords(p.runs))
  }

  function AddProjects(response: string, projects: seq<Project>): Result<string, Problem>
    decreases |projects|
  {
    if projects == [] then Success(response)
    else
      match AddProjects(response, projects[..|projects| - 1])
      case Failure(problem) => Failure(problem)
      case Success(before) => AddProject(before, projects[|projects| - 1])
  }

  function Format(report: Report): Result<string, Problem> {
    AddProjects(OkLine(report.serverEpoch, |report.projects|) + "\n", report.projects)
  }

  // ----- parsing ------------------------------------------------------------------------

  predicate Named(projects: seq<Project>, name: string) {
    exists i | 0 <= i < |projects| :: projects[i].name == name
  }

  function ParseProjectLine(line: string, projects: seq<Project>): Result<(string, bool, U64), Problem> {
    match FieldsOf(line, "project", 4)
    case Failure(problem) => Failure(problem)
    case Success(f) =>
      if !ValidProjectName(f[1]) || f[2] !in ["enabled", "disabled"] then Failure(BadIdentity)
      else if Named(projects, f[1]) then Failure(Repeated)
      else
        match ParseNumber(f[3])
        case None => Failure(BadNumber)
        case Some(count) => if count > MAX_RUNS then Failure(BadCount) else Success((f[1], f[2] == "enabled", count))
  }

  /** The newest run comes first, and run ids sort by time. */
  predicate Newer(runs: seq<RunSummary>, run: RunSummary) {
    runs == [] || Less(run.runId, runs[|runs| - 1].runId)
  }

  function ParseRuns(
      lines: seq<string>, k: nat, n: nat, project: string, runs: seq<RunSummary>)
    : Result<Read<seq<RunSummary>>, Problem>
    decreases n
  {
    if n == 0 then Success(Read(runs, k))
    else if k >= |lines| then Failure(EndsEarly)
    else
      match ParseRunLine(lines[k], project)
      case Failure(problem) => Failure(problem)
      case Success(run) =>
        if !Newer(runs, run) then Failure(OutOfOrder) else ParseRuns(lines, k + 1, n - 1, project, runs + [run])
  }

  function ParseProject(lines: seq<string>, k: nat, projects: seq<Project>): Result<Read<Project>, Problem> {
    if k >= |lines| then Failure(EndsEarly)
    else
      match ParseProjectLine(lines[k], projects)
      case Failure(problem) => Failure(problem)
      case Success((name, enabled, count)) =>
        match ParseRuns(lines, k + 1, count, name, [])
        case Failure(problem) => Failure(problem)
        case Success(read) => Success(Read(Project(name, enabled, read.value), read.k))
  }

  function ParseProjects(
      lines: seq<string>, k: nat, n: nat, projects: seq<Project>): Result<Read<seq<Project>>, Problem>
    decreases n
  {
    if n == 0 then Success(Read(projects, k))
    else
      match ParseProject(lines, k, projects)
      case Failure(problem) => Failure(problem)
      case Success(read) => ParseProjects(lines, read.k, n - 1, projects + [read.value])
  }

  function ParseLines(lines: seq<string>): Result<Report, Problem> {
    if lines == [] then Failure(EndsEarly)
    else
      match ParseOk(lines[0], MAX_PROJECTS)
      case Failure(problem) => Failure(problem)
      case Success((epoch, count)) =>
        match ParseProjects(lines, 1, count, [])
        case Failure(problem) => Failure(problem)
        case Success(read) => if read.k != |lines| then Failure(Trailing) else Success(Report(epoch, read.value))
  }

  function Parse(response: string): Result<Report, Problem> {
    match Framed(response)
    case Failure(problem) => Failure(problem)
    case Success(lines) => ParseLines(lines)
  }

  // ----- well-formed reports -------------------------------------------------------------

  predicate RunOk(run: RunSummary, project: string) {
    Representable(run) && run.project == project && run.completedSteps <= MAX_STEPS
  }

  predicate RunsOk(runs: seq<RunSummary>, project: string) {
    && (forall i | 0 <= i < |runs| :: RunOk(runs[i], project))
    && forall i | 0 < i < |runs| :: Less(runs[i].runId, runs[i - 1].runId)
  }

  predicate ProjectOk(p: Project) {
    ValidProjectName(p.name) && |p.runs| <= MAX_RUNS && RunsOk(p.runs, p.name)
  }

  predicate ProjectsOk(projects: seq<Project>) {
    && (forall i | 0 <= i < |projects| :: ProjectOk(projects[i]))
    && forall i, j | 0 <= i < j < |projects| :: projects[i].name != projects[j].name
  }

  /** Unique valid projects, each with few representable runs of its own, newest first. */
  predicate WellFormed(report: Report) {
    ProjectsOk(report.projects) && |report.projects| <= MAX_PROJECTS
  }

  // ----- lines of a report -----------------------------------------------------------------

  function RunLines(runs: seq<RunSummary>): seq<string> {
    seq(|runs|, i requires 0 <= i < |runs| => RunLine(runs[i]))
  }

  function ProjectLines(p: Project): seq<string> {
    [ProjectLine(p)] + RunLines(p.runs)
  }

  function LinesOf(projects: seq<Project>): seq<string> {
    if projects == [] then [] else ProjectLines(projects[0]) + LinesOf(projects[1..])
  }

  lemma {:induction false} LinesAppend(projects: seq<Project>, p: Project)
    ensures LinesOf(projects + [p]) == LinesOf(projects) + ProjectLines(p)
  {
    hide ProjectLines;
    if projects == [] {
      assert LinesOf([p]) == ProjectLines(p) + LinesOf([p][1..]);
    } else {
      LinesAppend(projects[1..], p);
      assert (projects + [p])[1..] == projects[1..] + [p];
    }
  }

  function AllLines(report: Report): seq<string> {
    [OkLine(report.serverEpoch, |report.projects|)] + LinesOf(report.projects)
  }

  // ----- the printer writes those lines ----------------------------------------------------

  /** What the printer demands of a project. */
  predicate Printed(p: Project) {
    ValidProjectName(p.name) && |p.runs| <= MAX_RUNS && AllRepresentable(p.runs)
  }

  predicate AllRepresentable(runs: seq<RunSummary>) {
    forall i | 0 <= i < |runs| :: Representable(runs[i])
  }

  predicate AllPrinted(projects: seq<Project>) {
    forall i | 0 <= i < |projects| :: Printed(projects[i])
  }

  lemma AddRunsIff(response: string, runs: seq<RunSummary>, out: string)
    requires |response| <= MAX_RESPONSE
    ensures AddRecords(response, RunRecords(runs)) == Success(out) <==>
            AllRepresentable(runs) && out == response + Unlines(RunLines(runs)) && |out| <= MAX_RESPONSE
  {
    hide Representable, RunLine, Unlines, AddRecords, MAX_RESPONSE;
    assert AllSome(RunRecords(runs)) <==> AllRepresentable(runs) by {
      forall i | 0 <= i < |runs|
        ensures RunRecords(runs)[i].Some? <==> Representable(runs[i])
      {
      }
    }
    AddRecordsIff(response, RunRecords(runs), RunLines(runs), out);
  }

  lemma AddProjectIff(response: string, p: Project, out: string)
    requires |response| <= MAX_RESPONSE
    ensures AddProject(response, p) == Success(out) <==>
            Printed(p) && out == response + Unlines(ProjectLines(p)) && |out| <= MAX_RESPONSE
  {
    hide RunLine, RunLines, Unlines, ValidProjectName, ProjectLine, Representable;
    var line := ProjectLine(p);
    UnlinesCons(line, RunLines(p.runs));
    var begun := response + line + "\n";
    Assoc(response, line, "\n");
    Assoc(response, line + "\n", Unlines(RunLines(p.runs)));
    AppendIff(response, line, begun);
    if |begun| <= MAX_RESPONSE {
      AddRunsIff(begun, p.runs, out);
    }
  }

  lemma {:induction false} AddProjectsIff(response: string, projects: seq<Project>, out: string)
    requires |response| <= MAX_RESPONSE
    ensures AddProjects(response, projects) == Success(out) <==>
            AllPrinted(projects) && out == response + Unlines(LinesOf(projects)) && |out| <= MAX_RESPONSE
    decreases |projects|
  {
    if projects == [] {
      assert response + "" == response;
    } else {
      hide Printed, ProjectLines, LinesOf, Unlines, AddProject;
      var init, p := projects[..|projects| - 1], projects[|projects| - 1];
      assert projects == init + [p];
      var before := response + Unlines(LinesOf(init));
      LinesAppend(init, p);
      UnlinesAppend(LinesOf(init), ProjectLines(p));
      Assoc(response, Unlines(LinesOf(init)), Unlines(ProjectLines(p)));
      AddProjectsIff(response, init, before);
      if AddProjects(response, init).Success? {
        AddProjectsIff(response, init, AddProjects(response, init).value);
      }
      if |before| <= MAX_RESPONSE {
        AddProjectIff(before, p, out);
      }
      assert AllPrinted(projects) <==> AllPrinted(init) && Printed(p);
    }
  }

  /**
   A report prints exactly when every project of it can be represented and the text
   fits, and what is printed are the lines of the report.
   */
  lemma FormatIff(report: Report, response: string)
    requires |report.projects| < U64_LIMIT
    ensures Format(report) == Success(response) <==>
            AllPrinted(report.projects) && response == Unlines(AllLines(report)) && |response| <= MAX_RESPONSE
  {
    OkIsShort(report.serverEpoch, |report.projects|);
    hide OkLine, LinesOf, Unlines, AddProjects, AllPrinted;
    UnlinesCons(OkLine(report.serverEpoch, |report.projects|), LinesOf(report.projects));
    AddProjectsIff(OkLine(report.serverEpoch, |report.projects|) + "\n", report.projects, response);
  }

  // ----- the parser reads exactly those lines ------------------------------------------------

  lemma ProjectIsField(name: string)
    requires ValidProjectName(name)
    ensures Field(name)
  {
    hide Reserved;
  }

  lemma ProjectLineIff(line: string, projects: seq<Project>, p: Project)
    requires |p.runs| <= MAX_RUNS
    ensures ParseProjectLine(line, projects) == Success((p.name, p.enabled, |p.runs|)) <==>
            line == ProjectLine(p) && ValidProjectName(p.name) && !Named(projects, p.name)
  {
    hide Decimal, ParseNumber, Join;
    var count: U64 := |p.runs|;
    var word := if p.enabled then "enabled" else "disabled";
    var parts := ["project", p.name, word, Decimal(count)];
    DecimalIsField(count);
    NumberRoundTrip(Decimal(count), count);
    if ParseProjectLine(line, projects) == Success((p.name, p.enabled, count)) {
      var f := FieldsOf(line, "project", 4).value;
      NumberRoundTrip(f[3], count);
      assert f == parts;
    }
    if ValidProjectName(p.name) {
      ProjectIsField(p.name);
      assert Field("project") && Field(word);
      hide ValidProjectName;
      LineIff(line, "project", 4, parts);
    }
  }

  lemma RunsOkStep(runs: seq<RunSummary>, run: RunSummary, project: string)
    requires RunsOk(runs, project)
    ensures RunsOk(runs + [run], project) <==> RunOk(run, project) && Newer(runs, run)
  {
    hide RunOk;
    var more := runs + [run];
    assert more[|runs|] == run;
    if RunsOk(more, project) && runs != [] {
      assert Less(more[|runs|].runId, more[|runs| - 1].runId);
    }
  }

  lemma RunsOkPrefix(all: seq<RunSummary>, n: nat, project: string)
    requires RunsOk(all, project) && n <= |all|
    ensures RunsOk(all[..n], project)
  {
    hide RunOk;
  }

  lemma RunLinesCons(runs: seq<RunSummary>)
    requires runs != []
    ensures RunLines(runs) == [RunLine(runs[0])] + RunLines(runs[1..])
  {
  }

  /** The `n` next lines read as these runs exactly when they are their lines and the runs are in order. */
  ghost predicate RunsRead(
      lines: seq<string>, k: nat, n: nat, project: string, runs: seq<RunSummary>, all: seq<RunSummary>, m: nat) {
    Extends(all, runs, n) && RunsOk(all, project) && Stretch(lines, k, m, RunLines(all[|runs|..]))
  }

  lemma {:induction false} ParseRunsIff(
      lines: seq<string>, k: nat, n: nat, project: string, runs: seq<RunSummary>, all: seq<RunSummary>, m: nat)
    requires RunsOk(runs, project) && k <= |lines|
    ensures ParseRuns(lines, k, n, project, runs) == Success(Read(all, m)) <==>
            RunsRead(lines, k, n, project, runs, all, m)
    decreases n
  {
    hide RunsOk, RunOk, Newer, ParseRunLine, RunLine, Stretch;
    if n == 0 {
      RunsDone(lines, k, project, runs, all, m);
    } else {
      if ParseRuns(lines, k, n, project, runs) == Success(Read(all, m)) {
        var run := ParseRunLine(lines[k], project).value;
        RunRead(lines[k], project, run);
        RunsOkStep(runs, run, project);
        ParseRunsIff(lines, k + 1, n - 1, project, runs + [run], all, m);
        RunsReadStep(lines, k, n, project, runs, run, all, m);
      }
      if RunsRead(lines, k, n, project, runs, all, m) {
        var run := all[|runs|];
        NextRun(lines, k, n, project, runs, all, m);
        RunRead(lines[k], project, run);
        ParseRunsIff(lines, k + 1, n - 1, project, runs + [run], all, m);
        RunsReadStep(lines, k, n, project, runs, run, all, m);
      }
    }
  }

  lemma RunsDone(lines: seq<string>, k: nat, project: string, runs: seq<RunSummary>, all: seq<RunSummary>, m: nat)
    requires RunsOk(runs, project) && k <= |lines|
    ensures RunsRead(lines, k, 0, project, runs, all, m) <==> all == runs && m == k
  {
    hide RunsOk;
    if |all| == |runs| {
      assert all[..|runs|] == all;
      assert all[|runs|..] == [];
      assert RunLines([]) == [];
    }
    if m == k {
      assert lines[k..m] == [];
    }
  }

  lemma RunsReadStep(
      lines: seq<string>, k: nat, n: nat, project: string, runs: seq<RunSummary>, run: RunSummary,
      all: seq<RunSummary>, m: nat)
    requires n > 0 && k < |lines| && lines[k] == RunLine(run)
    ensures RunsRead(lines, k + 1, n - 1, project, runs + [run], all, m) <==>
            RunsRead(lines, k, n, project, runs, all, m) && all[|runs|] == run
  {
    hide RunsOk, RunLine, RunLines, Stretch;
    ExtendsStep(all, runs, n, run);
    if Extends(all, runs, n) && all[|runs|] == run {
      var rest := all[|runs|..];
      assert rest[0] == run && rest[1..] == all[|runs + [run]|..];
      RunLinesCons(rest);
      StretchCons(lines, k, m, RunLine(run), RunLines(rest[1..]));
    }
  }

  lemma RunRead(line: string, project: string, run: RunSummary)
    ensures ParseRunLine(line, project) == Success(run) <==> line == RunLine(run) && RunOk(run, project)
  {
    hide RunLine, ParseRunLine;
    RunLineIff(line, project, run);
  }

  lemma NextRun(
      lines: seq<string>, k: nat, n: nat, project: string, runs: seq<RunSummary>, all: seq<RunSummary>, m: nat)
    requires n > 0 && RunsOk(runs, project) && RunsRead(lines, k, n, project, runs, all, m)
    ensures k < |lines| && lines[k] == RunLine(all[|runs|])
    ensures RunOk(all[|runs|], project) && Newer(runs, all[|runs|]) && RunsOk(runs + [all[|runs|]], project)
  {
    hide RunOk, Newer, RunLine, RunLines, Stretch;
    var rest := all[|runs|..];
    var run := all[|runs|];
    assert rest[0] == run;
    RunLinesCons(rest);
    StretchCons(lines, k, m, RunLine(run), RunLines(rest[1..]));
    assert all[..|runs| + 1] == runs + [run];
    RunsOkPrefix(all, |runs| + 1, project);
    hide RunsOk;
    RunsOkStep(runs, run, project);
  }

  /** One project and its runs read from `k` to `m` exactly when their lines stand there. */
  lemma ParseProjectIff(lines: seq<string>, k: nat, projects: seq<Project>, p: Project, m: nat)
    ensures ParseProject(lines, k, projects) == Success(Read(p, m)) <==>
            ProjectOk(p) && !Named(projects, p.name) && Stretch(lines, k, m, ProjectLines(p))
    ensures Stretch(lines, k, m, ProjectLines(p)) ==> m <= |lines|
  {
    hide Named, ParseProjectLine, ParseRuns, ProjectLine, RunLines, ValidProjectName, Stretch, RunsOk;
    StretchCons(lines, k, m, ProjectLine(p), RunLines(p.runs));
    StretchEnds(lines, k, m, ProjectLines(p));
    if k < |lines| {
      NoRunsOk(p.name);
      if ParseProject(lines, k, projects) == Success(Read(p, m)) {
        ProjectLineCounts(lines[k], projects);
        var count := ParseProjectLine(lines[k], projects).value.2;
        ParseRunsIff(lines, k + 1, count, p.name, [], p.runs, m);
      }
      ParseRunsIff(lines, k + 1, |p.runs|, p.name, [], p.runs, m);
      assert p.runs[0..] == p.runs;
      if |p.runs| <= MAX_RUNS {
        ProjectLineIff(lines[k], projects, p);
      }
    }
  }

  lemma NoRunsOk(project: string)
    ensures RunsOk([], project)
  {
  }

  lemma ProjectLineCounts(line: string, projects: seq<Project>)
    ensures ParseProjectLine(line, projects).Success? ==> ParseProjectLine(line, projects).value.2 <= MAX_RUNS
  {
  }

  lemma ProjectsOkStep(projects: seq<Project>, p: Project)
    requires ProjectsOk(projects)
    ensures ProjectsOk(projects + [p]) <==> ProjectOk(p) && !Named(projects, p.name)
  {
    hide ProjectOk;
    var more := projects + [p];
    assert more[|projects|] == p;
    assert forall i | 0 <= i < |projects| :: more[i] == projects[i];
  }

  lemma ProjectsOkPrefix(all: seq<Project>, n: nat)
    requires ProjectsOk(all) && n <= |all|
    ensures ProjectsOk(all[..n])
  {
    hide ProjectOk;
  }

  predicate ProjectsRead(lines: seq<string>, k: nat, n: nat, projects: seq<Project>, all: seq<Project>, m: nat) {
    Extends(all, projects, n) && ProjectsOk(all) && Stretch(lines, k, m, LinesOf(all[|projects|..]))
  }

  lemma {:induction false} ParseProjectsIff(
      lines: seq<string>, k: nat, n: nat, projects: seq<Project>, all: seq<Project>, m: nat)
    requires ProjectsOk(projects) && k <= |lines|
    ensures ParseProjects(lines, k, n, projects) == Success(Read(all, m)) <==>
            ProjectsRead(lines, k, n, projects, all, m)
    decreases n
  {
    hide ProjectsOk, ProjectOk, Named, ParseProject, ProjectLines, Stretch, LinesOf;
    if n == 0 {
      ProjectsDone(lines, k, projects, all, m);
    } else {
      if ParseProjects(lines, k, n, projects) == Success(Read(all, m)) {
        var read := ParseProject(lines, k, projects).value;
        ParseProjectIff(lines, k, projects, read.value, read.k);
        ProjectsOkStep(projects, read.value);
        ParseProjectsIff(lines, read.k, n - 1, projects + [read.value], all, m);
        ProjectsReadStep(lines, k, n, projects, read.value, all, m, read.k);
      }
      if ProjectsRead(lines, k, n, projects, all, m) {
        var p, mid := all[|projects|], k + |ProjectLines(all[|projects|])|;
        NextProject(lines, k, n, projects, all, m);
        ParseProjectIff(lines, k, projects, p, mid);
        ParseProjectsIff(lines, mid, n - 1, projects + [p], all, m);
        ProjectsReadStep(lines, k, n, projects, p, all, m, mid);
      }
    }
  }

  lemma ProjectsDone(lines: seq<string>, k: nat, projects: seq<Project>, all: seq<Project>, m: nat)
    requires ProjectsOk(projects) && k <= |lines|
    ensures ProjectsRead(lines, k, 0, projects, all, m) <==> all == projects && m == k
  {
    hide ProjectsOk;
    if |all| == |projects| {
      assert all[..|projects|] == all;
      assert all[|projects|..] == [];
    }
    if m == k {
      assert lines[k..m] == [];
    }
  }

  lemma LinesOfCons(projects: seq<Project>)
    requires projects != []
    ensures LinesOf(projects) == ProjectLines(projects[0]) + LinesOf(projects[1..])
  {
  }

  lemma ProjectsReadStep(
      lines: seq<string>, k: nat, n: nat, projects: seq<Project>, p: Project, all: seq<Project>, m: nat, mid: nat)
    requires n > 0 && Stretch(lines, k, mid, ProjectLines(p))
    ensures ProjectsRead(lines, mid, n - 1, projects + [p], all, m) <==>
            ProjectsRead(lines, k, n, projects, all, m) && all[|projects|] == p
  {
    assert mid == k + |ProjectLines(p)|;
    hide ProjectsOk, ProjectLines, LinesOf, Stretch;
    ExtendsStep(all, projects, n, p);
    if Extends(all, projects, n) && all[|projects|] == p {
      var rest := all[|projects|..];
      assert rest[0] == p && rest[1..] == all[|projects + [p]|..];
      LinesOfCons(rest);
      StretchSplit(lines, k, m, ProjectLines(p), LinesOf(rest[1..]));
    }
  }

  lemma NextProject(lines: seq<string>, k: nat, n: nat, projects: seq<Project>, all: seq<Project>, m: nat)
    requires n > 0 && ProjectsOk(projects) && ProjectsRead(lines, k, n, projects, all, m)
    ensures var p := all[|projects|];
            var mid := k + |ProjectLines(p)|;
            mid <= |lines| && Stretch(lines, k, mid, ProjectLines(p)) && ProjectOk(p) && !Named(projects, p.name) &&
            ProjectsOk(projects + [p])
  {
    hide ProjectOk, Named, ProjectLines, LinesOf;
    var p, rest := all[|projects|], all[|projects|..];
    assert rest[0] == p;
    LinesOfCons(rest);
    StretchSplit(lines, k, m, ProjectLines(p), LinesOf(rest[1..]));
    assert all[..|projects| + 1] == projects + [p];
    ProjectsOkPrefix(all, |projects| + 1);
    hide ProjectsOk;
    ProjectsOkStep(projects, p);
  }

  /** Lines read as a report exactly when they are the lines of that well-formed report. */
  lemma ParseLinesIff(lines: seq<string>, report: Report)
    ensures ParseLines(lines) == Success(report) <==> WellFormed(report) && lines == AllLines(report)
  {
    hide ParseOk, OkLine, ParseProjects, ProjectsRead, LinesOf;
    var all, count := report.projects, |report.projects|;
    if lines != [] {
      NoProjectsOk();
      if ParseLines(lines) == Success(report) {
        OkCounts(lines[0], MAX_PROJECTS);
        ParseProjectsIff(lines, 1, ParseOk(lines[0], MAX_PROJECTS).value.1, [], all, |lines|);
        AllRead(lines, ParseOk(lines[0], MAX_PROJECTS).value.1, all);
      }
      if |all| <= MAX_PROJECTS {
        ParseProjectsIff(lines, 1, count, [], all, |lines|);
        AllRead(lines, count, all);
        OkIff(lines[0], report.serverEpoch, count, MAX_PROJECTS);
        assert lines == [lines[0]] + lines[1..];
      }
    }
  }

  lemma NoProjectsOk()
    ensures ProjectsOk([])
  {
  }

  lemma AllRead(lines: seq<string>, n: nat, all: seq<Project>)
    requires lines != []
    ensures ProjectsRead(lines, 1, n, [], all, |lines|) <==> n == |all| && ProjectsOk(all) && lines[1..] == LinesOf(all)
  {
    hide ProjectsOk;
    assert all[0..] == all;
    assert all[..0] == [];
    assert lines[1..|lines|] == lines[1..];
  }

  // ----- the two are inverse to each other ---------------------------------------------------

  lemma ProjectLinePrints(p: Project)
    requires ValidProjectName(p.name)
    ensures Printable(ProjectLine(p)) && Free(ProjectLine(p), '\n')
  {
    hide Decimal, Join, ValidProjectName;
    var parts := ["project", p.name, if p.enabled then "enabled" else "disabled", Decimal(|p.runs|)];
    ProjectIsField(p.name);
    DecimalIsField(|p.runs|);
    assert Field("project") && Field(parts[2]);
    JoinPrintable(parts);
  }

  lemma RunLinesPrint(runs: seq<RunSummary>)
    requires AllRepresentable(runs)
    ensures PrintableLines(RunLines(runs))
  {
    hide RunLine, Representable, Printable;
    forall i | 0 <= i < |runs|
      ensures Printable(RunLines(runs)[i]) && Free(RunLines(runs)[i], '\n')
    {
      RunLinePrints(runs[i]);
    }
  }

  lemma {:induction false} LinesPrint(projects: seq<Project>)
    requires AllPrinted(projects)
    ensures PrintableLines(LinesOf(projects))
  {
    hide Printable, PrintableLines, RunLines, ProjectLine, AllRepresentable, ValidProjectName;
    if projects == [] {
      NoLinesPrint();
    } else {
      var p := projects[0];
      ProjectLinePrints(p);
      RunLinesPrint(p.runs);
      OneLinePrints(ProjectLine(p));
      PrintableAppend([ProjectLine(p)], RunLines(p.runs));
      LinesPrint(projects[1..]);
      PrintableAppend(ProjectLines(p), LinesOf(projects[1..]));
    }
  }

  lemma WellFormedPrints(report: Report)
    requires WellFormed(report)
    ensures AllPrinted(report.projects) && PrintableLines(AllLines(report))
  {
    hide ValidProjectName, Representable, OkLine, LinesOf, Printable, PrintableLines;
    OkPrints(report.serverEpoch, |report.projects|);
    OneLinePrints(OkLine(report.serverEpoch, |report.projects|));
    assert AllPrinted(report.projects) by {
      forall i | 0 <= i < |report.projects|
        ensures Printed(report.projects[i])
      {
        assert ProjectOk(report.projects[i]);
        var p := report.projects[i];
        assert forall j | 0 <= j < |p.runs| :: RunOk(p.runs[j], p.name);
      }
    }
    LinesPrint(report.projects);
    PrintableAppend([OkLine(report.serverEpoch, |report.projects|)], LinesOf(report.projects));
  }

  /**
   Round trip, both ways: a text is accepted as a report exactly when the report is
   well formed and prints as that very text.
   */
  lemma StatusRoundTrip(response: string, report: Report)
    ensures Parse(response) == Success(report) <==> WellFormed(report) && Format(report) == Success(response)
  {
    hide ParseLines, Lines, Unlines, AllLines, AllPrinted, PrintableLines, Format, ProjectsOk, Framed;
    if Framed(response).Success? {
      ParseLinesIff(Framed(response).value, report);
    }
    if WellFormed(report) {
      WellFormedPrints(report);
      HasLines(report);
      FormatIff(report, response);
      FramedIff(response, AllLines(report));
      ParseLinesIff(AllLines(report), report);
    }
  }

  lemma HasLines(report: Report)
    ensures |AllLines(report)| > 0
  {
  }

  // ----- the loops of the source ---------------------------------------------------------------

  method FormatProject(response: string, p: Project) returns (r: Result<string, Problem>)
    ensures r == AddProject(response, p)
  {
    hide Append, Representable, ValidProjectName, ProjectLine, RunLine;
    if !ValidProjectName(p.name) || |p.runs| > MAX_RUNS {
      return Failure(Unrepresentable);
    }
    r := Append(response, ProjectLine(p));
    if r.Failure? {
      return;
    }
    ghost var begun, records := r.value, RunRecords(p.runs);
    for i := 0 to |p.runs|
      invariant r.Success? && AddRecords(begun, records[..i]) == r
    {
      assert records[..i + 1][..i] == records[..i];
      if !Representable(p.runs[i]) {
        RecordFailure(begun, records, i + 1);
        return Failure(Unrepresentable);
      }
      r := Append(r.value, RunLine(p.runs[i]));
      if r.Failure? {
        RecordFailure(begun, records, i + 1);
        return;
      }
    }
    assert records[..|p.runs|] == records;
  }

  lemma {:induction false} ProjectFailure(response: string, projects: seq<Project>, i: nat)
    requires i <= |projects| && AddProjects(response, projects[..i]).Failure?
    ensures AddProjects(response, projects) == AddProjects(response, projects[..i])
    decreases |projects|
  {
    hide AddProject;
    if i == |projects| {
      assert projects[..i] == projects;
    } else {
      assert projects[..|projects| - 1][..i] == projects[..i];
      ProjectFailure(response, projects[..|projects| - 1], i);
    }
  }

  method FormatStatus(report: Report) returns (r: Result<string, Problem>)
    ensures r == Format(report)
  {
    hide AddProject, OkLine;
    ghost var header := OkLine(report.serverEpoch, |report.projects|) + "\n";
    r := Success(OkLine(report.serverEpoch, |report.projects|) + "\n");
    for i := 0 to |report.projects|
      invariant r.Success? && AddProjects(header, report.projects[..i]) == r
    {
      assert report.projects[..i + 1][..i] == report.projects[..i];
      r := FormatProject(r.value, report.projects[i]);
      if r.Failure? {
        ProjectFailure(header, report.projects, i + 1);
        return;
      }
    }
    assert report.projects[..|report.projects|] == report.projects;
  }

  method ReadRuns(lines: ResponseLines, ghost all: seq<string>, ghost k: nat, n: nat, project: string)
    returns (r: Result<seq<RunSummary>, Problem>)
    requires lines.Valid() && k <= |all| && lines.Rest() == all[k..]
    modifies lines
    ensures lines.Valid()
    ensures r.Failure? ==> ParseRuns(all, k, n, project, []) == Failure(r.error)
    ensures r.Success? ==>
              && k + n <= |all| && lines.Rest() == all[k + n..]
              && ParseRuns(all, k, n, project, []) == Success(Read(r.value, k + n))
  {
    hide RunOf, FieldsOf, Less;
    var runs: seq<RunSummary> := [];
    for i := 0 to n
      invariant lines.Valid() && k + i <= |all| && lines.Rest() == all[k + i..]
      invariant ParseRuns(all, k, n, project, []) == ParseRuns(all, k + i, n - i, project, runs)
    {
      var fields := lines.NextFields("run", 9);
      if fields.Failure? {
        return Failure(fields.error);
      }
      FieldsCount(all[k + i], "run", 9);
      var run := RunOf(fields.value, project);
      if run.Failure? {
        return Failure(run.error);
      }
      if runs != [] && !Less(run.value.runId, runs[|runs| - 1].runId) {
        return Failure(OutOfOrder);
      }
      runs := runs + [run.value];
    }
    return Success(runs);
  }

  method ReadProject(lines: ResponseLines, ghost all: seq<string>, ghost k: nat, projects: seq<Project>)
    returns (r: Result<Project, Problem>, ghost m: nat)
    requires lines.Valid() && k <= |all| && lines.Rest() == all[k..]
    modifies lines
    ensures lines.Valid()
    ensures r.Failure? ==> ParseProject(all, k, projects) == Failure(r.error)
    ensures r.Success? ==>
              m <= |all| && lines.Rest() == all[m..] && ParseProject(all, k, projects) == Success(Read(r.value, m))
  {
    hide FieldsOf, ValidProjectName, ParseNumber, ParseRuns;
    m := k;
    var fields := lines.NextFields("project", 4);
    if fields.Failure? {
      return Failure(fields.error), m;
    }
    FieldsCount(all[k], "project", 4);
    var name, word := fields.value[1], fields.value[2];
    if !ValidProjectName(name) || (word != "enabled" && word != "disabled") {
      return Failure(BadIdentity), m;
    }
    if Named(projects, name) {
      return Failure(Repeated), m;
    }
    var count := ParseNumber(fields.value[3]);
    if count.None? {
      return Failure(BadNumber), m;
    }
    if count.value > MAX_RUNS {
      return Failure(BadCount), m;
    }
    var runs := ReadRuns(lines, all, k + 1, count.value, name);
    if runs.Failure? {
      return Failure(runs.error), m;
    }
    return Success(Project(name, word == "enabled", runs.value)), k + 1 + count.value;
  }

  method ParseStatus(response: string) returns (r: Result<Report, Problem>)
    ensures r == Parse(response)
  {
    hide Framed, FieldsOf, ParseNumber, ParseProject, Lines;
    var framed := Framed(response);
    if framed.Failure? {
      return Failure(framed.error);
    }
    ghost var all := framed.value;
    FramedIsLines(response);
    var lines := new ResponseLines(response);
    var header := lines.NextFields("ok", 3);
    if header.Failure? {
      return Failure(header.error);
    }
    FieldsCount(all[0], "ok", 3);
    var epoch, count := ParseNumber(header.value[1]), ParseNumber(header.value[2]);
    if epoch.None? || count.None? {
      return Failure(BadNumber);
    }
    if count.value > MAX_PROJECTS {
      return Failure(BadCount);
    }
    var projects: seq<Project> := [];
    ghost var k: nat := 1;
    for i := 0 to count.value
      invariant lines.Valid() && k <= |all| && lines.Rest() == all[k..]
      invariant ParseProjects(all, 1, count.value, []) == ParseProjects(all, k, count.value - i, projects)
    {
      var p, m := ReadProject(lines, all, k, projects);
      if p.Failure? {
        return Failure(p.error);
      }
      projects := projects + [p.value];
      k := m;
    }
    var done := lines.Done();
    if !done {
      return Failure(Trailing);
    }
    return Success(Report(epoch.value, projects));
  }
}
