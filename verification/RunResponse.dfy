/**
 The `ci-run` response: one run with its detail, completed steps and artifacts. What is
 printed parses back to the same run exactly when the artifacts can be told apart by name
 and are few enough; a text prints back to itself exactly when its exit codes are canonical.
 */
module RunResponse {
  import opened Wrappers
  import opened Text
  import opened Records
  import opened ControlLines
  import opened Names
  import opened Placement

  const MAX_STEP_NAME := 256
  const MAX_NOTE := 256
  const MAX_ARTIFACTS := 4096

  datatype Artifact = Artifact(name: string, bytes: U64, sha256: string, created: U64, expires: U64, note: Bytes)

  datatype Run = Run(
    runId: string, project: string, ref: Bytes, commitId: string, status: RunStatus,
    started: U64, finished: U64, heartbeat: U64,
    runner: string, attempt: U32, detail: Bytes, steps: seq<StepResult>, artifacts: seq<Artifact>)

  datatype Report = Report(serverEpoch: U64, run: Run)

  function Summary(run: Run): RunSummary {
    RunSummary(run.runId, run.project, run.ref, run.commitId, run.status, run.started, run.finished, run.heartbeat,
        |run.steps|)
  }

  function Where(run: Run): Bytes {
    Raw(Note(Placed(run.runner, run.attempt)))
  }

  // ----- printing ---------------------------------------------------------------------------

  function DetailLine(detail: Bytes): string {
    Join(["detail", HexOrDash(detail)], ' ')
  }

  function StepFields(index: nat, exit: string, step: StepResult): seq<string> {
    ["step", Decimal(index), exit, Flag(step.timedOut), Flag(step.truncated), HexOrDash(step.name)]
  }

  function StepLine(index: nat, step: StepResult): string {
    Join(StepFields(index, Signed(step.exitCode), step), ' ')
  }

  function ShaField(sha256: string): string {
    if sha256 == "" then "-" else sha256
  }

  function ArtifactFields(a: Artifact): seq<string> {
    ["artifact", a.name, Decimal(a.bytes), ShaField(a.sha256), Decimal(a.created), Decimal(a.expires),
        HexOrDash(a.note)]
  }

  function ArtifactLine(a: Artifact): string {
    Join(ArtifactFields(a), ' ')
  }

  predicate RunSendable(run: Run) {
    Representable(Summary(run)) && |run.detail| <= MAX_DETAIL_BYTES && |run.steps| <= MAX_STEPS
  }

  predicate StepSendable(step: StepResult) {
    |step.name| <= MAX_STEP_NAME
  }

  predicate ArtifactSendable(a: Artifact) {
    ValidArtifactName(a.name) && (a.sha256 == "" || ValidSha256(a.sha256)) && |a.note| <= MAX_NOTE
  }

  function StepLines(steps: seq<StepResult>): seq<string> {
    seq(|steps|, i requires 0 <= i < |steps| => StepLine(i, steps[i]))
  }

  function ArtifactLines(artifacts: seq<Artifact>): seq<string> {
    seq(|artifacts|, i requires 0 <= i < |artifacts| => ArtifactLine(artifacts[i]))
  }

  function StepRecords(steps: seq<StepResult>): seq<Option<string>> {
    seq(|steps|, i requires 0 <= i < |steps| => if StepSendable(steps[i]) then Some(StepLine(i, steps[i])) else None)
  }

  function ArtifactRecords(artifacts: seq<Artifact>): seq<Option<string>> {
    seq(|artifacts|, i requires 0 <= i < |artifacts| =>
      if ArtifactSendable(artifacts[i]) then Some(ArtifactLine(artifacts[i])) else None)
  }

  /** The lines after the header. */
  function BodyLines(run: Run): seq<string> {
    [RunLine(Summary(run)), DetailLine(Shown(run.detail, Where(run)))]
    + StepLines(run.steps) + ArtifactLines(run.artifacts)
  }

  function BodyRecords(run: Run): seq<Option<string>> {
    [if RunSendable(run) then Some(RunLine(Summary(run))) else None, Some(DetailLine(Shown(run.detail, Where(run))))]
    + StepRecords(run.steps) + ArtifactRecords(run.artifacts)
  }

  function AllLines(report: Report): seq<string> {
    [OkLine(report.serverEpoch, |report.run.artifacts|)] + BodyLines(report.run)
  }

  function Format(report: Report): Result<string, Problem> {
    AddRecords(OkLine(report.serverEpoch, |report.run.artifacts|) + "\n", BodyRecords(report.run))
  }

  // ----- parsing ------------------------------------------------------------------------------

  function ParseFlag(field: string): Option<bool> {
    if field == "0" then Some(false) else if field == "1" then Some(true) else None
  }

  function StepOf(f: seq<string>, index: nat): Result<StepResult, Problem>
    requires |f| == 6
  {
    var number := ParseNumber(f[1]);
    if number.None? then Failure(BadNumber)
    else if number.value != index then Failure(OutOfOrder)
    else
      match ParseI32(f[2])
      case None => Failure(BadNumber)
      case Some(exitCode) =>
        match (ParseFlag(f[3]), ParseFlag(f[4]))
        case (Some(timedOut), Some(truncated)) =>
          (match DecodeText(f[5], MAX_STEP_NAME)
           case None => Failure(BadText)
           case Some(name) => Success(StepResult(name, exitCode, timedOut, truncated)))
        case _ => Failure(BadFlag)
  }

  function ParseStepLine(line: string, index: nat): Result<StepResult, Problem> {
    match FieldsOf(line, "step", 6)
    case Failure(problem) => Failure(problem)
    case Success(f) => StepOf(f, index)
  }

  predicate Named(artifacts: seq<Artifact>, name: string) {
    exists i | 0 <= i < |artifacts| :: artifacts[i].name == name
  }

  function ArtifactOf(f: seq<string>): Result<Artifact, Problem>
    requires |f| == 7
  {
    match ParseNumber(f[2])
    case None => Failure(BadNumber)
    case Some(bytes) =>
      if f[3] != "-" && !ValidSha256(f[3]) then Failure(BadText)
      else
        match (ParseNumber(f[4]), ParseNumber(f[5]))
        case (Some(created), Some(expires)) =>
          (match DecodeText(f[6], MAX_NOTE)
           case None => Failure(BadText)
           case Some(note) => Success(Artifact(f[1], bytes, if f[3] == "-" then "" else f[3], created, expires, note)))
        case _ => Failure(BadNumber)
  }

  function ParseArtifactLine(line: string, artifacts: seq<Artifact>): Result<Artifact, Problem> {
    match FieldsOf(line, "artifact", 7)
    case Failure(problem) => Failure(problem)
    case Success(f) =>
      if !ValidArtifactName(f[1]) || Named(artifacts, f[1]) then Failure(BadIdentity) else ArtifactOf(f)
  }

  /** Steps stand from line `base` on. */
  function ParseSteps(lines: seq<string>, base: nat, n: nat, steps: seq<StepResult>): Result<seq<StepResult>, Problem>
    decreases n - |steps|
  {
    if |steps| >= n then Success(steps)
    else if base + |steps| >= |lines| then Failure(EndsEarly)
    else
      match ParseStepLine(lines[base + |steps|], |steps|)
      case Failure(problem) => Failure(problem)
      case Success(step) => ParseSteps(lines, base, n, steps + [step])
  }

  function ParseArtifacts(
      lines: seq<string>, base: nat, n: nat, artifacts: seq<Artifact>): Result<seq<Artifact>, Problem>
    decreases n - |artifacts|
  {
    if |artifacts| >= n then Success(artifacts)
    else if base + |artifacts| >= |lines| then Failure(EndsEarly)
    else
      match ParseArtifactLine(lines[base + |artifacts|], artifacts)
      case Failure(problem) => Failure(problem)
      case Success(a) => ParseArtifacts(lines, base, n, artifacts + [a])
  }

  function ParseDetail(line: string): Result<Bytes, Problem> {
    match FieldsOf(line, "detail", 2)
    case Failure(problem) => Failure(problem)
    case Success(f) =>
      match DecodeText(f[1], MAX_DETAIL_BYTES)
      case None => Failure(BadText)
      case Some(detail) => Success(detail)
  }

  function RunWith(s: RunSummary, detail: Bytes, steps: seq<StepResult>, artifacts: seq<Artifact>): Run {
    Run(s.runId, s.project, s.ref, s.commitId, s.status, s.started, s.finished, s.heartbeat, "", 1, detail, steps,
        artifacts)
  }

  function ParseRest(lines: seq<string>, summary: RunSummary, count: nat): Result<Run, Problem>
    requires |lines| >= 2
  {
    if |lines| == 2 then Failure(EndsEarly)
    else
      match ParseDetail(lines[2])
      case Failure(problem) => Failure(problem)
      case Success(detail) =>
        match ParseSteps(lines, 3, summary.completedSteps, [])
        case Failure(problem) => Failure(problem)
        case Success(steps) =>
          match ParseArtifacts(lines, 3 + |steps|, count, [])
          case Failure(problem) => Failure(problem)
          case Success(artifacts) =>
            if |lines| != 3 + |steps| + |artifacts| then Failure(Trailing)
            else Success(RunWith(summary, detail, steps, artifacts))
  }

  function ParseLines(lines: seq<string>, project: string): Result<Report, Problem> {
    if lines == [] then Failure(EndsEarly)
    else
      match ParseOk(lines[0], MAX_ARTIFACTS)
      case Failure(problem) => Failure(problem)
      case Success((epoch, count)) =>
        if |lines| == 1 then Failure(EndsEarly)
        else
          match ParseRunLine(lines[1], project)
          case Failure(problem) => Failure(problem)
          case Success(summary) =>
            match ParseRest(lines, summary, count)
            case Failure(problem) => Failure(problem)
            case Success(run) => Success(Report(epoch, run))
  }

  function Parse(response: string, project: string): Result<Report, Problem> {
    match Framed(response)
    case Failure(problem) => Failure(problem)
    case Success(lines) => ParseLines(lines, project)
  }

  // ----- one line at a time ---------------------------------------------------------------------

  lemma FlagIff(field: string, b: bool)
    ensures ParseFlag(field) == Some(b) <==> field == Flag(b)
    ensures Field(Flag(b))
  {
  }

  /** The exit code as the line writes it. */
  function ExitText(line: string): string {
    var parts := Split(line, ' ');
    if |parts| > 2 then parts[2] else ""
  }

  lemma StepOfIff(f: seq<string>, index: U64, step: StepResult)
    requires |f| == 6 && f[0] == "step"
    ensures StepOf(f, index) == Success(step) <==>
            StepSendable(step) && ParseI32(f[2]) == Some(step.exitCode) && f == StepFields(index, f[2], step)
  {
    hide Decimal, HexOrDash, ParseNumber, ParseI32, DecodeText, ParseFlag, Flag;
    NumberRoundTrip(f[1], index);
    FlagIff(f[3], step.timedOut);
    FlagIff(f[4], step.truncated);
    TextField(f[5], step.name, MAX_STEP_NAME);
  }

  lemma I32IsField(s: string)
    requires ParseI32(s).Some?
    ensures Field(s)
  {
    var negative := s[0] == '-';
    var digits := if negative then s[1..] else s;
    hide Value;
    assert AllDigits(digits);
    forall i | 0 <= i < |s|
      ensures FieldByte(s[i])
    {
      if negative && i > 0 {
        assert IsDigit(digits[i - 1]);
      }
    }
  }

  lemma StepFieldsAreFields(index: nat, exit: string, step: StepResult)
    requires Field(exit)
    ensures Fieldly(StepFields(index, exit, step))
  {
    hide Decimal, HexOrDash, Flag;
    DecimalIsField(index);
    FlagIff("", step.timedOut);
    FlagIff("", step.truncated);
    HexIsField(step.name);
    assert Field("step");
  }

  /** A line reads as a step exactly when it is the step's line but for how the exit code is spelled. */
  lemma StepLineIff(line: string, index: U64, step: StepResult)
    ensures var exit := ExitText(line);
            ParseStepLine(line, index) == Success(step) <==>
            StepSendable(step) && ParseI32(exit) == Some(step.exitCode) &&
                line == Join(StepFields(index, exit, step), ' ')
  {
    hide StepOf, StepSendable, Split, Join, ParseI32;
    var exit := ExitText(line);
    var parts := StepFields(index, exit, step);
    if ParseI32(exit).Some? {
      I32IsField(exit);
      StepFieldsAreFields(index, exit, step);
      LineIff(line, "step", 6, parts);
      StepOfIff(parts, index, step);
    }
    if ParseStepLine(line, index) == Success(step) {
      StepOfIff(FieldsOf(line, "step", 6).value, index, step);
    }
  }

  lemma SignedExit(index: nat, step: StepResult)
    ensures ExitText(StepLine(index, step)) == Signed(step.exitCode)
    ensures Field(Signed(step.exitCode)) && ParseI32(Signed(step.exitCode)) == Some(step.exitCode)
  {
    hide Split, Join, Signed, ParseI32;
    var exit := Signed(step.exitCode);
    SignedRoundTrip(step.exitCode);
    I32IsField(exit);
    StepFieldsAreFields(index, exit, step);
    LineIff(StepLine(index, step), "step", 6, StepFields(index, exit, step));
  }

  lemma ShaIff(field: string, sha256: string)
    requires sha256 == "" || ValidSha256(sha256)
    ensures Field(ShaField(sha256))
    ensures field == ShaField(sha256) <==>
            (field == "-" || ValidSha256(field)) && (if field == "-" then "" else field) == sha256
  {
  }

  lemma ArtifactOfIff(f: seq<string>, a: Artifact)
    requires |f| == 7 && f[0] == "artifact" && ValidArtifactName(f[1])
    ensures ArtifactOf(f) == Success(a) <==> ArtifactSendable(a) && f == ArtifactFields(a)
  {
    if a.sha256 == "" || ValidSha256(a.sha256) {
      ShaIff(f[3], a.sha256);
    }
    hide Decimal, HexOrDash, ParseNumber, DecodeText, ShaField, ValidSha256, ValidArtifactName;
    NumberRoundTrip(f[2], a.bytes);
    NumberRoundTrip(f[4], a.created);
    NumberRoundTrip(f[5], a.expires);
    TextField(f[6], a.note, MAX_NOTE);
  }

  lemma ArtifactNameIsField(name: string)
    requires ValidArtifactName(name)
    ensures Field(name)
  {
  }

  lemma ArtifactFieldsAreFields(a: Artifact)
    requires ArtifactSendable(a)
    ensures Fieldly(ArtifactFields(a))
  {
    ShaIff("", a.sha256);
    hide Decimal, HexOrDash, ShaField, ValidSha256, ValidArtifactName;
    ArtifactNameIsField(a.name);
    DecimalIsField(a.bytes);
    DecimalIsField(a.created);
    DecimalIsField(a.expires);
    HexIsField(a.note);
    assert Field("artifact");
  }

  /** A line reads as an artifact exactly when it is the artifact's line and the name is new. */
  lemma ArtifactLineIff(line: string, artifacts: seq<Artifact>, a: Artifact)
    ensures ParseArtifactLine(line, artifacts) == Success(a) <==>
            ArtifactSendable(a) && line == ArtifactLine(a) && !Named(artifacts, a.name)
  {
    hide ArtifactOf, Join, ValidArtifactName, ValidSha256, Named, Decimal, HexOrDash, ShaField;
    if ArtifactSendable(a) {
      ArtifactFieldsAreFields(a);
      LineIff(line, "artifact", 7, ArtifactFields(a));
      ArtifactOfIff(ArtifactFields(a), a);
    }
    if ParseArtifactLine(line, artifacts) == Success(a) {
      ArtifactOfIff(FieldsOf(line, "artifact", 7).value, a);
    }
  }

  lemma DetailIff(line: string, detail: Bytes)
    ensures ParseDetail(line) == Success(detail) <==> line == DetailLine(detail) && |detail| <= MAX_DETAIL_BYTES
  {
    hide Join, DecodeText, HexOrDash;
    var parts := ["detail", HexOrDash(detail)];
    HexIsField(detail);
    assert Field("detail");
    LineIff(line, "detail", 2, parts);
    TextField(HexOrDash(detail), detail, MAX_DETAIL_BYTES);
    if ParseDetail(line) == Success(detail) {
      TextField(FieldsOf(line, "detail", 2).value[1], detail, MAX_DETAIL_BYTES);
      assert FieldsOf(line, "detail", 2).value == parts;
    }
  }

  // ----- all lines --------------------------------------------------------------------------------

  predicate StepsRead(lines: seq<string>, base: nat, steps: seq<StepResult>) {
    base + |steps| <= |lines| && forall i | 0 <= i < |steps| :: ParseStepLine(lines[base + i], i) == Success(steps[i])
  }

  lemma StepsReadStep(lines: seq<string>, base: nat, steps: seq<StepResult>, step: StepResult)
    requires StepsRead(lines, base, steps) && base + |steps| < |lines|
    ensures StepsRead(lines, base, steps + [step]) <==> ParseStepLine(lines[base + |steps|], |steps|) == Success(step)
  {
    hide ParseStepLine;
    assert (steps + [step])[|steps|] == step;
  }

  lemma StepsReadPrefix(lines: seq<string>, base: nat, steps: seq<StepResult>, n: nat)
    requires StepsRead(lines, base, steps) && n <= |steps|
    ensures StepsRead(lines, base, steps[..n])
  {
    hide ParseStepLine;
  }

  /** The step records read as these steps exactly when each line reads as its step. */
  lemma {:induction false} ParseStepsIff(
      lines: seq<string>, base: nat, n: nat, steps: seq<StepResult>, all: seq<StepResult>)
    requires StepsRead(lines, base, steps) && |steps| <= n
    ensures ParseSteps(lines, base, n, steps) == Success(all) <==>
            |all| == n && all[..|steps|] == steps && StepsRead(lines, base, all)
    decreases n - |steps|
  {
    hide ParseStepLine, StepsRead;
    if |steps| == n {
      assert |all| == n ==> all[..n] == all;
    } else {
      StepsFit(lines, base, all);
      if ParseSteps(lines, base, n, steps) == Success(all) {
        var step := ParseStepLine(lines[base + |steps|], |steps|).value;
        StepsReadStep(lines, base, steps, step);
        ParseStepsIff(lines, base, n, steps + [step], all);
        assert all[..|steps|] == all[..|steps| + 1][..|steps|] == steps;
      }
      if |all| == n && all[..|steps|] == steps && StepsRead(lines, base, all) {
        var step := all[|steps|];
        assert all[..|steps| + 1] == steps + [step];
        StepsReadPrefix(lines, base, all, |steps| + 1);
        StepsReadStep(lines, base, steps, step);
        ParseStepsIff(lines, base, n, steps + [step], all);
      }
    }
  }

  lemma StepsFit(lines: seq<string>, base: nat, steps: seq<StepResult>)
    ensures StepsRead(lines, base, steps) ==> base + |steps| <= |lines|
  {
  }

  predicate Distinct(artifacts: seq<Artifact>) {
    forall i, j | 0 <= i < j < |artifacts| :: artifacts[i].name != artifacts[j].name
  }

  predicate AllSendable(artifacts: seq<Artifact>) {
    forall i | 0 <= i < |artifacts| :: ArtifactSendable(artifacts[i])
  }

  /** The lines from `base` on are those of these artifacts, no two of one name. */
  predicate ArtifactsRead(lines: seq<string>, base: nat, artifacts: seq<Artifact>) {
    && base + |artifacts| <= |lines| && lines[base..base + |artifacts|] == ArtifactLines(artifacts)
    && AllSendable(artifacts) && Distinct(artifacts)
  }

  lemma DistinctStep(artifacts: seq<Artifact>, a: Artifact)
    ensures Distinct(artifacts + [a]) <==> Distinct(artifacts) && !Named(artifacts, a.name)
  {
    var more := artifacts + [a];
    assert more[|artifacts|] == a;
    assert forall i | 0 <= i < |artifacts| :: more[i] == artifacts[i];
  }

  lemma ArtifactsReadStep(lines: seq<string>, base: nat, artifacts: seq<Artifact>, a: Artifact)
    requires ArtifactsRead(lines, base, artifacts) && base + |artifacts| < |lines|
    ensures ArtifactsRead(lines, base, artifacts + [a]) <==>
            lines[base + |artifacts|] == ArtifactLine(a) && ArtifactSendable(a) && !Named(artifacts, a.name)
  {
    hide ArtifactLine, ArtifactSendable;
    var more, k := artifacts + [a], base + |artifacts|;
    assert more[|artifacts|] == a;
    assert lines[base..k + 1] == lines[base..k] + [lines[k]];
    assert ArtifactLines(more) == ArtifactLines(artifacts) + [ArtifactLine(a)];
    assert AllSendable(more) <==> AllSendable(artifacts) && ArtifactSendable(a);
    DistinctStep(artifacts, a);
  }

  lemma ArtifactsReadPrefix(lines: seq<string>, base: nat, artifacts: seq<Artifact>, n: nat)
    requires ArtifactsRead(lines, base, artifacts) && n <= |artifacts|
    ensures ArtifactsRead(lines, base, artifacts[..n])
  {
    hide ArtifactLine, ArtifactSendable;
    var all := lines[base..base + |artifacts|];
    assert lines[base..base + n] == all[..n];
    assert ArtifactLines(artifacts)[..n] == ArtifactLines(artifacts[..n]);
  }

  lemma ArtifactsFit(lines: seq<string>, base: nat, artifacts: seq<Artifact>)
    ensures ArtifactsRead(lines, base, artifacts) ==> base + |artifacts| <= |lines|
  {
  }

  /** The artifact records read as these artifacts exactly when the lines are theirs and the names are distinct. */
  lemma {:induction false} ParseArtifactsIff(
      lines: seq<string>, base: nat, n: nat, artifacts: seq<Artifact>, all: seq<Artifact>)
    requires ArtifactsRead(lines, base, artifacts) && |artifacts| <= n
    ensures ParseArtifacts(lines, base, n, artifacts) == Success(all) <==>
            |all| == n && all[..|artifacts|] == artifacts && ArtifactsRead(lines, base, all)
    decreases n - |artifacts|
  {
    hide ParseArtifactLine, ArtifactsRead, ArtifactLine, ArtifactSendable, Named;
    if |artifacts| == n {
      assert |all| == n ==> all[..n] == all;
    } else {
      ArtifactsFit(lines, base, all);
      if ParseArtifacts(lines, base, n, artifacts) == Success(all) {
        var a := ParseArtifactLine(lines[base + |artifacts|], artifacts).value;
        ArtifactLineIff(lines[base + |artifacts|], artifacts, a);
        ArtifactsReadStep(lines, base, artifacts, a);
        ParseArtifactsIff(lines, base, n, artifacts + [a], all);
        assert all[..|artifacts|] == all[..|artifacts| + 1][..|artifacts|] == artifacts;
      }
      if |all| == n && all[..|artifacts|] == artifacts && ArtifactsRead(lines, base, all) {
        var a := all[|artifacts|];
        assert all[..|artifacts| + 1] == artifacts + [a];
        ArtifactsReadPrefix(lines, base, all, |artifacts| + 1);
        ArtifactsReadStep(lines, base, artifacts, a);
        ArtifactLineIff(lines[base + |artifacts|], artifacts, a);
        ParseArtifactsIff(lines, base, n, artifacts + [a], all);
      }
    }
  }

  /** What the lines of a response must be for it to read as `report`. */
  predicate Reads(lines: seq<string>, project: string, report: Report) {
    var run := report.run;
    && |run.artifacts| <= MAX_ARTIFACTS && |run.steps| <= MAX_STEPS
    && |lines| == 3 + |run.steps| + |run.artifacts|
    && lines[0] == OkLine(report.serverEpoch, |run.artifacts|)
    && lines[1] == RunLine(Summary(run)) && Representable(Summary(run)) && run.project == project
    && lines[2] == DetailLine(run.detail) && |run.detail| <= MAX_DETAIL_BYTES
    && StepsRead(lines, 3, run.steps) && ArtifactsRead(lines, 3 + |run.steps|, run.artifacts)
    && run.runner == "" && run.attempt == 1
  }

  /** What the lines after the record must be for the rest to read as `run`. */
  predicate RestReads(lines: seq<string>, s: RunSummary, count: nat, run: Run) {
    && |run.steps| == s.completedSteps && |run.artifacts| == count
    && |lines| == 3 + |run.steps| + |run.artifacts|
    && lines[2] == DetailLine(run.detail) && |run.detail| <= MAX_DETAIL_BYTES
    && StepsRead(lines, 3, run.steps) && ArtifactsRead(lines, 3 + |run.steps|, run.artifacts)
    && run == RunWith(s, run.detail, run.steps, run.artifacts)
  }

  lemma RestIff(lines: seq<string>, s: RunSummary, count: nat, run: Run)
    requires |lines| >= 2
    ensures ParseRest(lines, s, count) == Success(run) <==> RestReads(lines, s, count, run)
  {
    if ParseRest(lines, s, count) == Success(run) {
      RestIsOf(lines, s, count, run);
    }
    if RestReads(lines, s, count, run) {
      RestIsRead(lines, s, count, run);
    }
  }

  lemma RestIsOf(lines: seq<string>, s: RunSummary, count: nat, run: Run)
    requires |lines| >= 2 && ParseRest(lines, s, count) == Success(run)
    ensures RestReads(lines, s, count, run)
  {
    NothingRead(lines, 3);
    hide DetailLine, ParseDetail, StepsRead, ArtifactsRead, ParseSteps, ParseArtifacts;
    DetailIff(lines[2], run.detail);
    ParseStepsIff(lines, 3, s.completedSteps, [], run.steps);
    assert run.steps[..0] == [] && run.artifacts[..0] == [];
    StepsFit(lines, 3, run.steps);
    NothingRead(lines, 3 + |run.steps|);
    ParseArtifactsIff(lines, 3 + |run.steps|, count, [], run.artifacts);
  }

  lemma RestIsRead(lines: seq<string>, s: RunSummary, count: nat, run: Run)
    requires |lines| >= 2 && RestReads(lines, s, count, run)
    ensures ParseRest(lines, s, count) == Success(run)
  {
    NothingRead(lines, 3);
    NothingRead(lines, 3 + |run.steps|);
    hide DetailLine, ParseDetail, StepsRead, ArtifactsRead, ParseSteps, ParseArtifacts;
    DetailIff(lines[2], run.detail);
    assert run.steps[..0] == [] && run.artifacts[..0] == [];
    ParseStepsIff(lines, 3, s.completedSteps, [], run.steps);
    ArtifactsFit(lines, 3 + |run.steps|, run.artifacts);
    ParseArtifactsIff(lines, 3 + |run.steps|, count, [], run.artifacts);
  }

  lemma NothingRead(lines: seq<string>, base: nat)
    ensures base <= |lines| ==> StepsRead(lines, base, []) && ArtifactsRead(lines, base, [])
  {
    assert base <= |lines| ==> lines[base..base] == [];
  }

  /** Lines read as a report exactly when they are what Reads asks for. */
  lemma ParseLinesIff(lines: seq<string>, project: string, report: Report)
    ensures ParseLines(lines, project) == Success(report) <==> Reads(lines, project, report)
  {
    hide OkLine, ParseOk, RunLine, ParseRunLine, Representable, DetailLine, StepsRead, ArtifactsRead, ParseRest;
    var run := report.run;
    if |lines| >= 2 {
      OkCounts(lines[0], MAX_ARTIFACTS);
      RunLineIff(lines[1], project, Summary(run));
      RestIff(lines, Summary(run), |run.artifacts|, run);
      if |run.artifacts| <= MAX_ARTIFACTS {
        OkIff(lines[0], report.serverEpoch, |run.artifacts|, MAX_ARTIFACTS);
      }
      if ParseLines(lines, project) == Success(report) {
        var s := ParseRunLine(lines[1], project).value;
        RunLineIff(lines[1], project, s);
        RestIff(lines, s, ParseOk(lines[0], MAX_ARTIFACTS).value.1, run);
        assert s == Summary(run);
      }
    }
  }

  // ----- what is printed ----------------------------------------------------------------------------

  predicate AllStepsSendable(steps: seq<StepResult>) {
    forall i | 0 <= i < |steps| :: StepSendable(steps[i])
  }

  predicate Sendable(run: Run) {
    RunSendable(run) && AllStepsSendable(run.steps) && AllSendable(run.artifacts)
  }

  lemma RecordsAreSome(a: seq<Option<string>>, b: seq<Option<string>>)
    ensures AllSome(a + b) <==> AllSome(a) && AllSome(b)
  {
    assert forall i | 0 <= i < |b| :: (a + b)[|a| + i] == b[i];
    assert forall i | 0 <= i < |a| :: (a + b)[i] == a[i];
  }

  lemma StepsAreSome(steps: seq<StepResult>)
    ensures AllSome(StepRecords(steps)) <==> AllStepsSendable(steps)
  {
    hide StepLine, StepSendable;
    forall i | 0 <= i < |steps|
      ensures StepRecords(steps)[i].Some? <==> StepSendable(steps[i])
    {
    }
  }

  lemma ArtifactsAreSome(artifacts: seq<Artifact>)
    ensures AllSome(ArtifactRecords(artifacts)) <==> AllSendable(artifacts)
  {
    hide ArtifactLine, ArtifactSendable;
    forall i | 0 <= i < |artifacts|
      ensures ArtifactRecords(artifacts)[i].Some? <==> ArtifactSendable(artifacts[i])
    {
    }
  }

  lemma BodyIff(run: Run)
    ensures AllSome(BodyRecords(run)) <==> Sendable(run)
    ensures |BodyRecords(run)| == |BodyLines(run)|
    ensures forall i | 0 <= i < |BodyRecords(run)| :: BodyRecords(run)[i].Some? ==>
            BodyRecords(run)[i].value == BodyLines(run)[i]
  {
    hide RunLine, DetailLine, Shown, Where, RunSendable, StepLine, StepSendable, ArtifactLine, ArtifactSendable;
    var first := if RunSendable(run) then Some(RunLine(Summary(run))) else None;
    var front := [first, Some(DetailLine(Shown(run.detail, Where(run))))];
    RecordsAreSome(front, StepRecords(run.steps));
    RecordsAreSome(front + StepRecords(run.steps), ArtifactRecords(run.artifacts));
    StepsAreSome(run.steps);
    ArtifactsAreSome(run.artifacts);
    assert AllSome(front) <==> RunSendable(run) by {
      assert front[0].Some? <==> RunSendable(run);
    }
  }

  /** A run prints exactly when it can be represented and fits; what is printed are its lines. */
  lemma FormatIff(report: Report, response: string)
    requires |report.run.artifacts| < U64_LIMIT
    ensures Format(report) == Success(response) <==>
            Sendable(report.run) && response == Unlines(AllLines(report)) && |response| <= MAX_RESPONSE
  {
    hide OkLine, Unlines, BodyLines, BodyRecords, AddRecords, Sendable;
    var header := OkLine(report.serverEpoch, |report.run.artifacts|);
    OkIsShort(report.serverEpoch, |report.run.artifacts|);
    BodyIff(report.run);
    UnlinesCons(header, BodyLines(report.run));
    AddRecordsIff(header + "\n", BodyRecords(report.run), BodyLines(report.run), response);
  }

  lemma LayOut(report: Report)
    ensures var run, lines := report.run, AllLines(report);
            && |lines| == 3 + |run.steps| + |run.artifacts|
            && lines[0] == OkLine(report.serverEpoch, |run.artifacts|)
            && lines[1] == RunLine(Summary(run))
            && lines[2] == DetailLine(Shown(run.detail, Where(run)))
            && (forall i | 0 <= i < |run.steps| :: lines[3 + i] == StepLine(i, run.steps[i]))
            && lines[3 + |run.steps|..] == ArtifactLines(run.artifacts)
  {
    hide OkLine, RunLine, DetailLine, Shown, Where, StepLine, ArtifactLine;
  }

  lemma DetailPrints(detail: Bytes)
    ensures Printable(DetailLine(detail)) && Free(DetailLine(detail), '\n')
  {
    hide HexOrDash, Join;
    HexIsField(detail);
    assert Field("detail");
    JoinPrintable(["detail", HexOrDash(detail)]);
  }

  lemma StepPrints(index: nat, step: StepResult)
    ensures Printable(StepLine(index, step)) && Free(StepLine(index, step), '\n')
  {
    SignedExit(index, step);
    StepFieldsAreFields(index, Signed(step.exitCode), step);
    assert |StepFields(index, Signed(step.exitCode), step)| == 6;
    hide StepFields;
    JoinPrintable(StepFields(index, Signed(step.exitCode), step));
  }

  lemma ArtifactPrints(a: Artifact)
    requires ArtifactSendable(a)
    ensures Printable(ArtifactLine(a)) && Free(ArtifactLine(a), '\n')
  {
    ArtifactFieldsAreFields(a);
    assert |ArtifactFields(a)| == 7;
    hide ArtifactFields;
    JoinPrintable(ArtifactFields(a));
  }

  lemma StepsPrint(lines: seq<string>, steps: seq<StepResult>)
    requires |lines| == |steps| && forall i | 0 <= i < |steps| :: lines[i] == StepLine(i, steps[i])
    ensures PrintableLines(lines)
  {
    hide StepLine, Printable;
    forall i | 0 <= i < |lines|
      ensures Printable(lines[i]) && Free(lines[i], '\n')
    {
      StepPrints(i, steps[i]);
    }
  }

  lemma ArtifactsPrint(artifacts: seq<Artifact>)
    requires AllSendable(artifacts)
    ensures PrintableLines(ArtifactLines(artifacts))
  {
    hide ArtifactLine, ArtifactSendable, Printable;
    forall i | 0 <= i < |artifacts|
      ensures Printable(ArtifactLines(artifacts)[i]) && Free(ArtifactLines(artifacts)[i], '\n')
    {
      ArtifactPrints(artifacts[i]);
    }
  }

  lemma TwoPrint(a: string, b: string)
    requires PrintableLines([a]) && PrintableLines([b])
    ensures PrintableLines([a, b])
  {
    PrintableAppend([a], [b]);
    assert [a] + [b] == [a, b];
  }

  lemma AllPrint(report: Report)
    requires Sendable(report.run)
    ensures PrintableLines(AllLines(report))
  {
    var run := report.run;
    assert Representable(Summary(run)) && AllSendable(run.artifacts);
    assert StepLines(run.steps) == seq(|run.steps|, i requires 0 <= i < |run.steps| => StepLine(i, run.steps[i]));
    var header, first := OkLine(report.serverEpoch, |run.artifacts|), RunLine(Summary(run));
    var second := DetailLine(Shown(run.detail, Where(run)));
    assert AllLines(report) == [header] + ([first, second] + StepLines(run.steps) + ArtifactLines(run.artifacts));
    hide *;
    OkPrints(report.serverEpoch, |run.artifacts|);
    RunLinePrints(Summary(run));
    DetailPrints(Shown(run.detail, Where(run)));
    OneLinePrints(header);
    OneLinePrints(first);
    OneLinePrints(second);
    TwoPrint(first, second);
    StepsPrint(StepLines(run.steps), run.steps);
    ArtifactsPrint(run.artifacts);
    PrintableAppend([first, second], StepLines(run.steps));
    PrintableAppend([first, second] + StepLines(run.steps), ArtifactLines(run.artifacts));
    PrintableAppend([header], [first, second] + StepLines(run.steps) + ArtifactLines(run.artifacts));
  }

  // ----- forth and back -------------------------------------------------------------------------------

  /** The run as its receiver sees it: the placement is only in the detail. */
  function Received(report: Report, project: string): Report {
    var run := report.run;
    Report(report.serverEpoch,
           RunWith(Summary(run).(project := project), Shown(run.detail, Where(run)), run.steps, run.artifacts))
  }

  lemma ShownIsCapped(detail: Bytes, where: Bytes)
    requires |detail| <= MAX_DETAIL_BYTES
    ensures |Shown(detail, where)| <= MAX_DETAIL_BYTES
  {
  }

  lemma RunLineOfOther(s: RunSummary, project: string)
    ensures RunLine(s.(project := project)) == RunLine(s)
    ensures Representable(s.(project := project)) <==> Representable(s)
  {
  }

  lemma SentStepsRead(report: Report)
    requires Sendable(report.run)
    ensures StepsRead(AllLines(report), 3, report.run.steps)
  {
    var steps, lines := report.run.steps, AllLines(report);
    LayOut(report);
    hide AllLines, StepLine, ParseStepLine, Sendable, StepSendable, StepFields, Join, ExitText, ParseI32, Signed;
    hide OkLine, RunLine, DetailLine, ArtifactLine, Shown, Where;
    assert AllStepsSendable(steps) && |steps| <= MAX_STEPS by {
      SendableSteps(report.run);
    }
    forall i | 0 <= i < |steps|
      ensures ParseStepLine(lines[3 + i], i) == Success(steps[i])
    {
      SignedExit(i, steps[i]);
      StepLineIff(lines[3 + i], i, steps[i]);
      StepLineIs(i, steps[i]);
    }
  }

  lemma SendableSteps(run: Run)
    requires Sendable(run)
    ensures AllStepsSendable(run.steps) && |run.steps| <= MAX_STEPS
  {
  }

  lemma StepLineIs(index: nat, step: StepResult)
    ensures StepLine(index, step) == Join(StepFields(index, Signed(step.exitCode), step), ' ')
  {
  }

  lemma SentArtifactsRead(report: Report)
    requires AllSendable(report.run.artifacts) && Distinct(report.run.artifacts)
    ensures ArtifactsRead(AllLines(report), 3 + |report.run.steps|, report.run.artifacts)
  {
    LayOut(report);
    hide OkLine, RunLine, DetailLine, Shown, Where, StepLine, ArtifactLine, ArtifactSendable, AllLines;
    var lines, base := AllLines(report), 3 + |report.run.steps|;
    assert lines[base..base + |report.run.artifacts|] == lines[base..];
  }

  lemma SentReads(report: Report, project: string)
    requires Sendable(report.run) && Distinct(report.run.artifacts) && |report.run.artifacts| <= MAX_ARTIFACTS
    ensures Reads(AllLines(report), project, Received(report, project))
  {
    var run := report.run;
    LayOut(report);
    SentStepsRead(report);
    SentArtifactsRead(report);
    RunLineOfOther(Summary(run), project);
    ShownIsCapped(run.detail, Where(run));
    hide AllLines, StepsRead, ArtifactsRead, OkLine, RunLine, DetailLine, Shown, Where, StepLine, ArtifactLine;
    hide ArtifactSendable, AllSendable, AllStepsSendable, Representable, Distinct;
  }

  lemma SameArtifacts(a: seq<Artifact>, b: seq<Artifact>)
    requires AllSendable(a) && AllSendable(b) && ArtifactLines(a) == ArtifactLines(b)
    ensures a == b
  {
    hide ArtifactLine, ArtifactSendable;
    assert |ArtifactLines(a)| == |a| && |ArtifactLines(b)| == |b|;
    forall i | 0 <= i < |a|
      ensures a[i] == b[i]
    {
      assert ArtifactLines(a)[i] == ArtifactLines(b)[i];
      ArtifactLineIff(ArtifactLine(a[i]), [], a[i]);
      ArtifactLineIff(ArtifactLine(a[i]), [], b[i]);
    }
  }

  /** The header tells the count apart. */
  lemma OkCountsApart(epoch: U64, count: U64, otherEpoch: U64, otherCount: U64)
    requires OkLine(epoch, count) == OkLine(otherEpoch, otherCount)
    ensures count == otherCount
  {
    hide *;
    OkIff(OkLine(epoch, count), epoch, count, U64_LIMIT);
    OkIff(OkLine(epoch, count), otherEpoch, otherCount, U64_LIMIT);
  }

  lemma ReadsAreDistinct(lines: seq<string>, project: string, r: Report)
    requires Reads(lines, project, r)
    ensures Distinct(r.run.artifacts) && |r.run.artifacts| <= MAX_ARTIFACTS && AllSendable(r.run.artifacts)
  {
    hide OkLine, RunLine, DetailLine, StepsRead, Representable, ArtifactLines, Distinct, AllSendable;
  }

  /** Whatever reads from the lines of a run, its artifacts are those of the run. */
  lemma ReadArtifacts(report: Report, project: string, r: Report)
    requires Sendable(report.run) && |report.run.artifacts| < U64_LIMIT && Reads(AllLines(report), project, r)
    ensures r.run.artifacts == report.run.artifacts
  {
    assert AllSendable(report.run.artifacts);
    hide *;
    LayOut(report);
    ReadsParts(AllLines(report), project, r);
    ReadsAreDistinct(AllLines(report), project, r);
    assert |r.run.artifacts| < U64_LIMIT;
    OkCountsApart(report.serverEpoch, |report.run.artifacts|, r.serverEpoch, |r.run.artifacts|);
    assert |r.run.steps| == |report.run.steps|;
    SameArtifacts(r.run.artifacts, report.run.artifacts);
  }

  /**
   What arrives: a printed run is accepted exactly when its artifacts have distinct names
   and are at most 4096, and then it is the run that was sent, the placement folded into
   its detail.
   */
  lemma RunArrives(report: Report, response: string, project: string, r: Report)
    requires |report.run.artifacts| < U64_LIMIT && Format(report) == Success(response)
    ensures Parse(response, project) == Success(r) <==>
            r == Received(report, project) && Distinct(report.run.artifacts) && |report.run.artifacts| <= MAX_ARTIFACTS
  {
    hide Format, Framed, ParseLines, Sendable, Reads, Distinct, AllLines, Unlines, PrintableLines, Received;
    FormatIff(report, response);
    AllPrint(report);
    LinesOfReport(report);
    FramedIff(response, AllLines(report));
    ParseLinesIff(AllLines(report), project, r);
    if Distinct(report.run.artifacts) && |report.run.artifacts| <= MAX_ARTIFACTS {
      SentReads(report, project);
      ParseLinesIff(AllLines(report), project, Received(report, project));
    }
    if Reads(AllLines(report), project, r) {
      ReadArtifacts(report, project, r);
      ReadsAreDistinct(AllLines(report), project, r);
    }
  }

  lemma LinesOfReport(report: Report)
    ensures |AllLines(report)| > 0
  {
  }

  // ----- back and forth -------------------------------------------------------------------------------

  /** Every step record spells its exit code the way std::to_string does. */
  predicate CanonicalExits(lines: seq<string>, steps: seq<StepResult>)
    requires |lines| >= 3 + |steps|
  {
    forall i | 0 <= i < |steps| :: ExitText(lines[3 + i]) == Signed(steps[i].exitCode)
  }

  lemma ReadsAreSendable(lines: seq<string>, project: string, r: Report)
    requires Reads(lines, project, r)
    ensures Sendable(r.run) && Shown(r.run.detail, Where(r.run)) == r.run.detail
  {
    hide ParseStepLine, StepSendable, ArtifactLine, ArtifactSendable, Representable, OkLine, RunLine, DetailLine;
    var steps := r.run.steps;
    forall i | 0 <= i < |steps|
      ensures StepSendable(steps[i])
    {
      StepLineIff(lines[3 + i], i, steps[i]);
    }
    assert Note(Placed("", 1)) == "";
  }

  lemma ReadsParts(lines: seq<string>, project: string, r: Report)
    requires Reads(lines, project, r)
    ensures var run := r.run;
            && |lines| == 3 + |run.steps| + |run.artifacts| && |run.steps| <= MAX_STEPS
            && lines[0] == OkLine(r.serverEpoch, |run.artifacts|)
            && lines[1] == RunLine(Summary(run))
            && lines[2] == DetailLine(run.detail)
            && StepsRead(lines, 3, run.steps)
            && lines[3 + |run.steps|..] == ArtifactLines(run.artifacts)
  {
    hide StepsRead, OkLine, RunLine, DetailLine, ArtifactLines, AllSendable, Distinct;
    var base := 3 + |r.run.steps|;
    assert lines[base..base + |r.run.artifacts|] == lines[base..];
  }

  lemma CanonicalStep(lines: seq<string>, steps: seq<StepResult>, i: nat)
    requires StepsRead(lines, 3, steps) && CanonicalExits(lines, steps) && i < |steps| <= MAX_STEPS
    ensures lines[3 + i] == StepLine(i, steps[i])
  {
    StepsReadAt(lines, steps, i);
    var index: U64 := i;
    assert ExitText(lines[3 + i]) == Signed(steps[i].exitCode);
    hide *;
    StepLineIff(lines[3 + i], index, steps[i]);
    StepLineIs(i, steps[i]);
  }

  lemma CanonicalLines(lines: seq<string>, project: string, r: Report)
    requires Reads(lines, project, r) && |lines| >= 3 + |r.run.steps| && CanonicalExits(lines, r.run.steps)
    ensures lines == AllLines(r)
  {
    hide *;
    ReadsAreSendable(lines, project, r);
    LayOut(r);
    ReadsParts(lines, project, r);
    var steps, base, all := r.run.steps, 3 + |r.run.steps|, AllLines(r);
    forall k | 3 <= k < base
      ensures lines[k] == all[k]
    {
      CanonicalStep(lines, steps, k - 3);
      assert lines[k] == lines[3 + (k - 3)] && all[k] == all[3 + (k - 3)];
    }
    SameLines(lines, all, base);
  }

  lemma StepsReadAt(lines: seq<string>, steps: seq<StepResult>, i: nat)
    requires StepsRead(lines, 3, steps) && i < |steps|
    ensures 3 + i < |lines| && ParseStepLine(lines[3 + i], i) == Success(steps[i])
  {
  }

  lemma SameLines(a: seq<string>, b: seq<string>, base: nat)
    requires 3 <= base <= |a| == |b| && a[base..] == b[base..]
    requires a[0] == b[0] && a[1] == b[1] && a[2] == b[2] && forall k | 3 <= k < base :: a[k] == b[k]
    ensures a == b
  {
    assert a[..base] == b[..base];
    assert a == a[..base] + a[base..];
    assert b == b[..base] + b[base..];
  }

  lemma PrintedLinesAreCanonical(r: Report)
    ensures |AllLines(r)| >= 3 + |r.run.steps| && CanonicalExits(AllLines(r), r.run.steps)
  {
    LayOut(r);
    hide AllLines, StepLine, OkLine, RunLine, DetailLine, ArtifactLine, Shown, Where, ExitText, Signed;
    forall i | 0 <= i < |r.run.steps|
      ensures ExitText(AllLines(r)[3 + i]) == Signed(r.run.steps[i].exitCode)
    {
      SignedExit(i, r.run.steps[i]);
    }
  }

  /** The other way round: an accepted text prints back to itself exactly when its exit codes are canonical. */
  lemma RunReprintsIff(response: string, project: string, r: Report)
    requires Parse(response, project) == Success(r)
    ensures |Lines(response)| >= 3 + |r.run.steps|
    ensures Format(r) == Success(response) <==> CanonicalExits(Lines(response), r.run.steps)
  {
    var lines := Framed(response).value;
    FramedIsLines(response);
    ParseLinesIff(lines, project, r);
    ReadsAreSendable(lines, project, r);
    assert |lines| >= 3 + |r.run.steps| && |r.run.artifacts| <= MAX_ARTIFACTS && |response| <= MAX_RESPONSE;
    hide Format, Framed, ParseLines, Sendable, Reads, AllLines, Unlines, PrintableLines, CanonicalExits, Lines,
        Shown, Where;
    UnlinesLines(response);
    FormatIff(r, response);
    AllPrint(r);
    if Format(r) == Success(response) {
      assert AllFree(AllLines(r), '\n') by {
        PrintableIsFree(AllLines(r));
      }
      LinesUnlines(AllLines(r));
      PrintedLinesAreCanonical(r);
    }
    if CanonicalExits(lines, r.run.steps) {
      CanonicalLines(lines, project, r);
    }
  }

  lemma PrintableIsFree(lines: seq<string>)
    requires PrintableLines(lines)
    ensures AllFree(lines, '\n')
  {
  }

  /** Not every exit code is: the parser also takes a negative zero, which nothing prints. */
  lemma NegativeZeroIsRead(index: U64, name: Bytes)
    requires |name| <= MAX_STEP_NAME
    ensures var step := StepResult(name, 0, false, false);
            var line := Join(StepFields(index, "-0", step), ' ');
            ParseStepLine(line, index) == Success(step) && StepLine(index, step) != line
  {
    var step := StepResult(name, 0, false, false);
    var parts := StepFields(index, "-0", step);
    var line := Join(parts, ' ');
    NegativeZero();
    assert StepSendable(step) && |parts| == 6 && parts[0] == "step" && parts[2] == "-0";
    hide Decimal, Split, Join, HexOrDash, ParseNumber, ParseI32, DecodeText, Value, StepOf, Signed, StepFields,
        StepLine;
    I32IsField("-0");
    StepFieldsAreFields(index, "-0", step);
    LineIff(line, "step", 6, parts);
    StepOfIff(parts, index, step);
    SignedExit(index, step);
    assert ExitText(line) == "-0" && "-0" != "0";
  }

  lemma NegativeZero()
    ensures ParseI32("-0") == Some(0) && Signed(0) == "0"
  {
    assert "-0"[1..] == "0";
    assert Value("0") == 10 * Value("0"[..0]);
  }

  // ----- with the placement response --------------------------------------------------------------------

  /**
   A client that asks for both responses has the run's own detail back, unless the note was
   cut off behind a detail that does not fill the cap or already looks like a noted one.
   */
  lemma DetailComesBackIff(report: Report, response: string, project: string, r: Report, placement: string, p: Placed)
    requires |report.run.artifacts| < U64_LIMIT
    requires Format(report) == Success(response) && Parse(response, project) == Success(r)
    requires FormatPlacement(Placed(report.run.runner, report.run.attempt)) == Success(placement)
    requires ParsePlacement(placement) == Success(p)
    ensures p == Placed(report.run.runner, report.run.attempt)
    ensures var detail, where := report.run.detail, Raw(Note(p));
            Stripped(r.run.detail, where) == detail <==>
            || where == []
            || |Noted(detail, where)| <= MAX_DETAIL_BYTES
            || (|detail| == MAX_DETAIL_BYTES && !LooksNoted(detail, where))
  {
    PlacementRoundTrip(placement, p);
    PlacementRoundTrip(placement, Placed(report.run.runner, report.run.attempt));
    RunArrives(report, response, project, r);
    FormatIff(report, response);
    StripRestoresIff(report.run.detail, Where(report.run));
  }

  // ----- the loops of the source ---------------------------------------------------------------------------

  method AddSteps(response: string, steps: seq<StepResult>, ghost header: string, ghost records: seq<Option<string>>)
    returns (r: Result<string, Problem>)
    requires |records| >= 2 + |steps| && AddRecords(header, records[..2]) == Success(response)
    requires forall i | 0 <= i < |steps| ::
               records[2 + i] == if StepSendable(steps[i]) then Some(StepLine(i, steps[i])) else None
    ensures r.Success? ==> AddRecords(header, records[..2 + |steps|]) == r
    ensures r.Failure? ==> AddRecords(header, records) == r
  {
    hide Append, StepSendable, StepLine, AddRecords;
    r := Success(response);
    for i := 0 to |steps|
      invariant r.Success? && AddRecords(header, records[..2 + i]) == r
    {
      NextRecord(header, records, 2 + i);
      if StepSendable(steps[i]) {
        r := Append(r.value, StepLine(i, steps[i]));
      } else {
        r := Failure(Unrepresentable);
      }
      if r.Failure? {
        RecordFailure(header, records, 3 + i);
        return;
      }
    }
  }

  method AddArtifacts(
      response: string, artifacts: seq<Artifact>, ghost header: string, ghost records: seq<Option<string>>,
          ghost base: nat)
    returns (r: Result<string, Problem>)
    requires |records| == base + |artifacts| && AddRecords(header, records[..base]) == Success(response)
    requires forall i | 0 <= i < |artifacts| ::
               records[base + i] == if ArtifactSendable(artifacts[i]) then Some(ArtifactLine(artifacts[i])) else None
    ensures r == AddRecords(header, records)
  {
    hide Append, ArtifactSendable, ArtifactLine, AddRecords;
    r := Success(response);
    for i := 0 to |artifacts|
      invariant r.Success? && AddRecords(header, records[..base + i]) == r
    {
      NextRecord(header, records, base + i);
      if ArtifactSendable(artifacts[i]) {
        r := Append(r.value, ArtifactLine(artifacts[i]));
      } else {
        r := Failure(Unrepresentable);
      }
      if r.Failure? {
        RecordFailure(header, records, base + i + 1);
        return;
      }
    }
    assert records[..|records|] == records;
  }

  method FormatRun(report: Report) returns (r: Result<string, Problem>)
    ensures r == Format(report)
  {
    var run := report.run;
    var header := OkLine(report.serverEpoch, |run.artifacts|) + "\n";
    ghost var records := BodyRecords(run);
    BodyParts(run);
    hide Append, RunSendable, StepSendable, ArtifactSendable, RunLine, DetailLine, StepLine, ArtifactLine, OkLine;
    hide AddRecords, BodyRecords, Shown, Where;
    NoRecords(header, records);
    NextRecord(header, records, 0);
    if RunSendable(run) {
      r := Append(header, RunLine(Summary(run)));
    } else {
      r := Failure(Unrepresentable);
    }
    if r.Failure? {
      RecordFailure(header, records, 1);
      return;
    }
    NextRecord(header, records, 1);
    r := Append(r.value, DetailLine(Shown(run.detail, Where(run))));
    if r.Failure? {
      RecordFailure(header, records, 2);
      return;
    }
    r := AddSteps(r.value, run.steps, header, records);
    if r.Success? {
      r := AddArtifacts(r.value, run.artifacts, header, records, 2 + |run.steps|);
    }
  }

  lemma BodyParts(run: Run)
    ensures var records := BodyRecords(run);
            && |records| == 2 + |run.steps| + |run.artifacts|
            && records[0] == (if RunSendable(run) then Some(RunLine(Summary(run))) else None)
            && records[1] == Some(DetailLine(Shown(run.detail, Where(run))))
            && (forall i | 0 <= i < |run.steps| ::
                  records[2 + i] == if StepSendable(run.steps[i]) then Some(StepLine(i, run.steps[i])) else None)
            && (forall i | 0 <= i < |run.artifacts| ::
                  records[2 + |run.steps| + i] ==
                  if ArtifactSendable(run.artifacts[i]) then Some(ArtifactLine(run.artifacts[i])) else None)
  {
    hide RunSendable, StepSendable, ArtifactSendable, RunLine, DetailLine, StepLine, ArtifactLine, Shown, Where;
  }

  method ReadSteps(lines: ResponseLines, ghost all: seq<string>, n: nat) returns (r: Result<seq<StepResult>, Problem>)
    requires lines.Valid() && |all| >= 3 && lines.Rest() == all[3..]
    modifies lines
    ensures lines.Valid()
    ensures r.Failure? ==> ParseSteps(all, 3, n, []) == Failure(r.error)
    ensures r.Success? ==>
              && 3 + |r.value| <= |all| && lines.Rest() == all[3 + |r.value|..]
              && |r.value| == n && ParseSteps(all, 3, n, []) == Success(r.value)
  {
    hide StepOf, FieldsOf;
    var steps: seq<StepResult> := [];
    for i := 0 to n
      invariant lines.Valid() && |steps| == i && 3 + i <= |all| && lines.Rest() == all[3 + i..]
      invariant ParseSteps(all, 3, n, []) == ParseSteps(all, 3, n, steps)
    {
      var fields := lines.NextFields("step", 6);
      if fields.Failure? {
        return Failure(fields.error);
      }
      FieldsCount(all[3 + i], "step", 6);
      var step := StepOf(fields.value, i);
      if step.Failure? {
        return Failure(step.error);
      }
      steps := steps + [step.value];
    }
    return Success(steps);
  }

  method ReadArtifactLines(lines: ResponseLines, ghost all: seq<string>, ghost base: nat, n: nat)
    returns (r: Result<seq<Artifact>, Problem>)
    requires lines.Valid() && base <= |all| && lines.Rest() == all[base..]
    modifies lines
    ensures lines.Valid()
    ensures r.Failure? ==> ParseArtifacts(all, base, n, []) == Failure(r.error)
    ensures r.Success? ==>
              && base + |r.value| <= |all| && lines.Rest() == all[base + |r.value|..]
              && ParseArtifacts(all, base, n, []) == Success(r.value)
  {
    hide ArtifactOf, FieldsOf, ValidArtifactName, Named;
    var artifacts: seq<Artifact> := [];
    for i := 0 to n
      invariant lines.Valid() && |artifacts| == i && base + i <= |all| && lines.Rest() == all[base + i..]
      invariant ParseArtifacts(all, base, n, []) == ParseArtifacts(all, base, n, artifacts)
    {
      var fields := lines.NextFields("artifact", 7);
      if fields.Failure? {
        return Failure(fields.error);
      }
      FieldsCount(all[base + i], "artifact", 7);
      if !ValidArtifactName(fields.value[1]) || Named(artifacts, fields.value[1]) {
        return Failure(BadIdentity);
      }
      var a := ArtifactOf(fields.value);
      if a.Failure? {
        return Failure(a.error);
      }
      artifacts := artifacts + [a.value];
    }
    return Success(artifacts);
  }

  method ParseRun(response: string, project: string) returns (r: Result<Report, Problem>)
    ensures r == Parse(response, project)
  {
    hide Framed, FieldsOf, ParseNumber, Lines, ParseSteps, ParseArtifacts, DecodeText, RunOf;
    var framed := Framed(response);
    if framed.Failure? {
      return Failure(framed.error);
    }
    ghost var all := framed.value;
    FramedIsLines(response);
    var lines := new ResponseLines(response);
    var header := lines.NextFields("ok", 3);
    if header.Failure? {
      return Failure(header.error);
    }
    FieldsCount(all[0], "ok", 3);
    var epoch, count := ParseNumber(header.value[1]), ParseNumber(header.value[2]);
    if epoch.None? || count.None? {
      return Failure(BadNumber);
    }
    if count.value > MAX_ARTIFACTS {
      return Failure(BadCount);
    }
    var fields := lines.NextFields("run", 9);
    if fields.Failure? {
      return Failure(fields.error);
    }
    FieldsCount(all[1], "run", 9);
    var summary := RunOf(fields.value, project);
    if summary.Failure? {
      return Failure(summary.error);
    }
    r := ReadRest(lines, all, epoch.value, summary.value, count.value);
  }

  method ReadRest(lines: ResponseLines, ghost all: seq<string>, epoch: U64, summary: RunSummary, count: nat)
    returns (r: Result<Report, Problem>)
    requires lines.Valid() && |all| >= 2 && lines.Rest() == all[2..]
    modifies lines
    ensures r == match ParseRest(all, summary, count)
                 case Failure(problem) => Failure(problem)
                 case Success(run) => Success(Report(epoch, run))
  {
    hide FieldsOf, ParseSteps, ParseArtifacts, DecodeText, RunWith;
    var fields := lines.NextFields("detail", 2);
    if fields.Failure? {
      return Failure(fields.error);
    }
    FieldsCount(all[2], "detail", 2);
    var detail := DecodeText(fields.value[1], MAX_DETAIL_BYTES);
    if detail.None? {
      return Failure(BadText);
    }
    var steps := ReadSteps(lines, all, summary.completedSteps);
    if steps.Failure? {
      return Failure(steps.error);
    }
    var artifacts := ReadArtifactLines(lines, all, 3 + |steps.value|, count);
    if artifacts.Failure? {
      return Failure(artifacts.error);
    }
    var done := lines.Done();
    if !done {
      return Failure(Trailing);
    }
    return Success(Report(epoch, RunWith(summary, detail.value, steps.value, artifacts.value)));
  }
}
