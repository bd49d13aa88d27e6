/**
 The `ci-jobs` response: the jobs of one workflow with their runs, placements and labels. The
 parser prints what it has read once more, so both directions make the same checks.
 */
module JobsResponse {
  import opened Wrappers
  import opened Text
  import opened Records
  import opened Names
  import opened Labels
  import opened ControlLines
  import opened Placement

  const MAX_JOBS := 64

  datatype JobSummary = JobSummary(
    name: string, runId: string, status: RunStatus, placed: Placed, runsOn: seq<string>)

  datatype Report = Report(parent: string, jobs: seq<JobSummary>)

  // ----- printing -----------------------------------------------------------------------

  predicate JobSendable(parent: string, job: JobSummary) {
    && ValidArtifactName(job.name) && ValidCiId(job.runId) && job.runId != parent
    && |job.runsOn| <= MAX_LABELS && AllLabels(job.runsOn) && Sendable(job.placed)
  }

  predicate NameSeen(jobs: seq<JobSummary>, name: string) {
    exists i | 0 <= i < |jobs| :: jobs[i].name == name
  }

  predicate RunSeen(jobs: seq<JobSummary>, runId: string) {
    exists i | 0 <= i < |jobs| :: jobs[i].runId == runId
  }

  function LabelField(labels: seq<string>): string {
    if labels == [] then "-" else FormatLabels(Sorted(labels))
  }

  function JobFields(job: JobSummary): seq<string> {
    ["job", job.name, job.runId, StatusName(job.status), RunnerField(job.placed.runner), Decimal(job.placed.attempt),
     LabelField(job.runsOn)]
  }

  function JobLine(job: JobSummary): string {
    Join(JobFields(job), ' ')
  }

  /** A job can be printed if it is fine by itself and neither its name nor its run came before. */
  predicate MayFollow(parent: string, before: seq<JobSummary>, job: JobSummary) {
    JobSendable(parent, job) && !NameSeen(before, job.name) && !RunSeen(before, job.runId)
  }

  function JobRecord(report: Report, i: nat): Option<string>
    requires i < |report.jobs|
  {
    if MayFollow(report.parent, report.jobs[..i], report.jobs[i]) then Some(JobLine(report.jobs[i])) else None
  }

  function JobRecords(report: Report): seq<Option<string>> {
    seq(|report.jobs|, i requires 0 <= i < |report.jobs| => JobRecord(report, i))
  }

  function HeaderFields(parent: string, count: nat): seq<string> {
    ["ok", parent, Decimal(count)]
  }

  function Header(parent: string, count: nat): string {
    Join(HeaderFields(parent, count), ' ')
  }

  function Format(report: Report): Result<string, Problem> {
    if !ValidCiId(report.parent) || |report.jobs| > MAX_JOBS then Failure(Unrepresentable)
    else AddRecords(Header(report.parent, |report.jobs|) + "\n", JobRecords(report))
  }

  // ----- parsing ------------------------------------------------------------------------

  function JobOf(f: seq<string>): Result<JobSummary, Problem>
    requires |f| == 7
  {
    var status, labels := StatusFromName(f[3]), ParseLabels(if f[6] == "-" then "" else f[6]);
    match ParseNumber(f[5])
    case None => Failure(BadNumber)
    case Some(attempt) =>
      if status.None? || labels.None? || (f[6] != "-" && FormatLabels(labels.value) != f[6]) then Failure(BadIdentity)
      else if attempt == 0 || attempt >= U32_LIMIT then Failure(BadCount)
      else Success(JobSummary(f[1], f[2], status.value, Placed(if f[4] == "-" then "" else f[4], attempt),
                              labels.value))
  }

  function ParseJob(line: string): Result<JobSummary, Problem> {
    match FieldsOf(line, "job", 7)
    case Failure(problem) => Failure(problem)
    case Success(f) => JobOf(f)
  }

  function ParseJobs(lines: seq<string>, k: nat, n: nat, jobs: seq<JobSummary>): Result<seq<JobSummary>, Problem>
    decreases n
  {
    if n == 0 then Success(jobs)
    else if k >= |lines| then Failure(EndsEarly)
    else
      match ParseJob(lines[k])
      case Failure(problem) => Failure(problem)
      case Success(job) => ParseJobs(lines, k + 1, n - 1, jobs + [job])
  }

  function ParseHeader(line: string): Result<(string, nat), Problem> {
    match FieldsOf(line, "ok", 3)
    case Failure(problem) => Failure(problem)
    case Success(f) =>
      match ParseNumber(f[2])
      case None => Failure(BadNumber)
      case Some(count) => if count > MAX_JOBS then Failure(BadCount) else Success((f[1], count))
  }

  function ParseLines(lines: seq<string>): Result<Report, Problem> {
    if lines == [] then Failure(EndsEarly)
    else
      match ParseHeader(lines[0])
      case Failure(problem) => Failure(problem)
      case Success((parent, count)) =>
        match ParseJobs(lines, 1, count, [])
        case Failure(problem) => Failure(problem)
        case Success(jobs) => if |lines| != 1 + count then Failure(Trailing) else Success(Report(parent, jobs))
  }

  function Parse(response: string): Result<Report, Problem> {
    match Framed(response)
    case Failure(problem) => Failure(problem)
    case Success(lines) =>
      match ParseLines(lines)
      case Failure(problem) => Failure(problem)
      case Success(report) =>
        match Format(report)
        case Failure(problem) => Failure(problem)
        case Success(_) => Success(report)
  }

  // ----- a job's line -----------------------------------------------------------------------

  lemma LabelsAreField(labels: seq<string>)
    requires AllLabels(labels)
    ensures Field(LabelField(labels))
    ensures LabelField(labels) == "-" <==> labels == []
  {
    if labels != [] {
      SortedLabels(labels);
      LabelTextIsField(Sorted(labels));
      assert ValidLabel(Sorted(labels)[0]);
      LabelsAreJoined(Sorted(labels));
      FirstLabel(Sorted(labels));
    }
  }

  lemma FirstLabel(labels: seq<string>)
    requires AllLabels(labels) && labels != []
    ensures Join(labels, ',') != "-"
  {
    assert ValidLabel(labels[0]);
  }

  lemma {:induction false} LabelTextIsField(labels: seq<string>)
    requires AllLabels(labels) && labels != []
    ensures Field(FormatLabels(labels))
    decreases |labels|
  {
    var init := labels[..|labels| - 1];
    LabelIsField(labels[|labels| - 1]);
    hide ValidLabel;
    if init != [] {
      LabelTextIsField(init);
    } else {
      assert FormatLabels(init) == "";
    }
  }

  lemma LabelIsField(name: string)
    requires ValidLabel(name)
    ensures Field(name)
  {
  }

  lemma NamesAreFields(name: string, runId: string)
    requires ValidArtifactName(name) && ValidCiId(runId)
    ensures Field(name) && Field(runId)
  {
  }

  lemma JobParts(parent: string, job: JobSummary)
    requires JobSendable(parent, job)
    ensures |JobFields(job)| == 7 && JobFields(job)[0] == "job" && Fieldly(JobFields(job))
  {
    NamesAreFields(job.name, job.runId);
    LabelsAreField(job.runsOn);
    PlacementParts(job.placed);
    StatusIsField(job.status);
    assert Field("job");
    hide Decimal, LabelField, RunnerField, StatusName, ValidCiId, ValidArtifactName, AllLabels;
    var parts := ["ok", RunnerField(job.placed.runner), Decimal(job.placed.attempt)];
    assert Field(parts[1]) && Field(parts[2]);
  }

  /** Seven fields read as a job exactly when they are that job's, with its labels in order. */
  lemma JobOfIff(parent: string, f: seq<string>, job: JobSummary)
    requires |f| == 7 && f[0] == "job" && "" !in f && JobSendable(parent, job)
    ensures JobOf(f) == Success(job) <==> f == JobFields(job) && InOrder(job.runsOn)
  {
    StatusIff(f[3], job.status);
    NumberRoundTrip(f[5], job.placed.attempt);
    RunnerIff(f[4], job.placed.runner);
    LabelsFieldIff(f[6], job.runsOn);
    assert job.placed.attempt != 0 && f[4] != "" && f[6] != "";
    FieldByField(f, job);
    hide Decimal, StatusName, StatusFromName, ParseNumber, ParseLabels, LabelField, RunnerField, InOrder, FormatLabels;
    hide JobSendable, JobFields;
  }

  lemma FieldByField(f: seq<string>, job: JobSummary)
    requires |f| == 7 && f[0] == "job"
    ensures f == JobFields(job) <==>
            && f[1] == job.name && f[2] == job.runId && f[3] == StatusName(job.status)
            && f[4] == RunnerField(job.placed.runner) && f[5] == Decimal(job.placed.attempt)
            && f[6] == LabelField(job.runsOn)
  {
    hide Decimal, StatusName, LabelField, RunnerField;
    assert f == [f[0], f[1], f[2], f[3], f[4], f[5], f[6]];
  }

  lemma RunnerIff(field: string, runner: string)
    requires field != "" && (runner == "" || ValidClientId(runner))
    ensures (if field == "-" then "" else field) == runner <==> field == RunnerField(runner)
  {
    if runner != "" {
      ClientIsField(runner);
    }
  }

  lemma LabelsFieldIff(field: string, labels: seq<string>)
    requires field != "" && AllLabels(labels) && |labels| <= MAX_LABELS
    ensures ParseLabels(if field == "-" then "" else field) == Some(labels) &&
            (field == "-" || FormatLabels(labels) == field) <==>
            field == LabelField(labels) && InOrder(labels)
  {
    LabelsAreField(labels);
    if labels == [] {
      OneOrNoneInOrder(labels);
    }
    if InOrder(labels) {
      SortedIsSame(labels);
    }
    LabelsRoundTrip(field, labels);
    NoLabels(labels);
    hide FormatLabels, AllLabels, InOrder, ParseLabels, Sorted;
  }

  lemma NoLabels(labels: seq<string>)
    ensures ParseLabels("") == Some(labels) <==> labels == []
    ensures FormatLabels([]) == ""
  {
  }

  /** A line reads as a job exactly when it is that job's line, with its labels in order. */
  lemma JobLineIff(parent: string, line: string, job: JobSummary)
    requires JobSendable(parent, job)
    ensures ParseJob(line) == Success(job) <==> line == JobLine(job) && InOrder(job.runsOn)
  {
    JobParts(parent, job);
    hide JobFields, JobOf, InOrder, JobSendable, Join;
    LineIff(line, "job", 7, JobFields(job));
    assert "" !in JobFields(job);
    JobOfIff(parent, JobFields(job), job);
    if FieldsOf(line, "job", 7).Success? {
      FieldsCount(line, "job", 7);
      NoEmptyField(line, "job", 7);
      JobOfIff(parent, FieldsOf(line, "job", 7).value, job);
    }
  }

  lemma NoEmptyField(line: string, keyword: string, count: nat)
    ensures FieldsOf(line, keyword, count).Success? ==> "" !in FieldsOf(line, keyword, count).value
  {
    hide Split;
  }

  // ----- reports -------------------------------------------------------------------------------

  predicate JobsOk(parent: string, jobs: seq<JobSummary>) {
    forall i | 0 <= i < |jobs| :: MayFollow(parent, jobs[..i], jobs[i])
  }

  /** What can be printed: a valid parent, few jobs, each fine and none twice. */
  predicate WellFormed(report: Report) {
    ValidCiId(report.parent) && |report.jobs| <= MAX_JOBS && JobsOk(report.parent, report.jobs)
  }

  /** The labels of every job are sorted and not repeated. */
  predicate Canonical(jobs: seq<JobSummary>) {
    forall i | 0 <= i < |jobs| :: InOrder(jobs[i].runsOn)
  }

  function JobLines(jobs: seq<JobSummary>): seq<string> {
    seq(|jobs|, i requires 0 <= i < |jobs| => JobLine(jobs[i]))
  }

  function AllLines(report: Report): seq<string> {
    [Header(report.parent, |report.jobs|)] + JobLines(report.jobs)
  }

  lemma HeaderParts(parent: string, count: nat)
    requires ValidCiId(parent)
    ensures |HeaderFields(parent, count)| == 3 && HeaderFields(parent, count)[0] == "ok"
    ensures Fieldly(HeaderFields(parent, count))
  {
    assert Field(parent) && Field("ok");
    DecimalIsField(count);
    hide Decimal, ValidCiId;
  }

  lemma HeaderIff(line: string, parent: string, count: nat)
    requires ValidCiId(parent) && count <= MAX_JOBS
    ensures ParseHeader(line) == Success((parent, count)) <==> line == Header(parent, count)
  {
    HeaderParts(parent, count);
    LineIff(line, "ok", 3, HeaderFields(parent, count));
    if FieldsOf(line, "ok", 3).Success? {
      FieldsCount(line, "ok", 3);
      NumberRoundTrip(FieldsOf(line, "ok", 3).value[2], count);
    }
    NumberRoundTrip(Decimal(count), count);
    hide Decimal, ParseNumber, FieldsOf, Join, ValidCiId;
    if ParseHeader(line) == Success((parent, count)) {
      assert FieldsOf(line, "ok", 3).value == HeaderFields(parent, count);
    }
  }

  /** This line is the job's, and the job's labels are in order. */
  predicate Reads(line: string, job: JobSummary) {
    line == JobLine(job) && InOrder(job.runsOn)
  }

  /** The lines from `k` on are those of these jobs. */
  predicate ReadsFrom(lines: seq<string>, k: nat, jobs: seq<JobSummary>) {
    k + |jobs| <= |lines| && forall i | 0 <= i < |jobs| :: Reads(lines[k..][i], jobs[i])
  }

  lemma ReadsCons(lines: seq<string>, k: nat, jobs: seq<JobSummary>)
    requires jobs != []
    ensures ReadsFrom(lines, k, jobs) <==>
            k < |lines| && Reads(lines[k], jobs[0]) && ReadsFrom(lines, k + 1, jobs[1..])
  {
    hide Reads;
    if k < |lines| {
      assert lines[k..][1..] == lines[k + 1..];
      assert jobs == [jobs[0]] + jobs[1..] && lines[k..] == [lines[k]] + lines[k + 1..];
      if ReadsFrom(lines, k + 1, jobs[1..]) && Reads(lines[k], jobs[0]) {
        forall i | 0 <= i < |jobs|
          ensures Reads(lines[k..][i], jobs[i])
        {
          if i > 0 {
            assert Reads(lines[k + 1..][i - 1], jobs[1..][i - 1]);
          }
        }
      }
      if ReadsFrom(lines, k, jobs) {
        assert Reads(lines[k..][0], jobs[0]);
        forall i | 0 <= i < |jobs[1..]|
          ensures Reads(lines[k + 1..][i], jobs[1..][i])
        {
          assert Reads(lines[k..][i + 1], jobs[i + 1]);
        }
      }
    }
  }

  lemma {:induction false} ParseJobsIff(
      parent: string, lines: seq<string>, k: nat, done: seq<JobSummary>, jobs: seq<JobSummary>)
    requires k <= |lines| && forall i | 0 <= i < |jobs| :: JobSendable(parent, jobs[i])
    ensures ParseJobs(lines, k, |jobs|, done) == Success(done + jobs) <==> ReadsFrom(lines, k, jobs)
    decreases |jobs|
  {
    hide JobSendable, ParseJob, JobLine, InOrder;
    if jobs == [] {
      assert done + jobs == done;
    } else if k < |lines| {
      var job, rest := jobs[0], jobs[1..];
      assert done + jobs == done + [job] + rest;
      JobLineIff(parent, lines[k], job);
      ReadsCons(lines, k, jobs);
      hide ReadsFrom;
      if ParseJob(lines[k]) == Success(job) {
        ParseJobsIff(parent, lines, k + 1, done + [job], rest);
      } else if ParseJobs(lines, k, |jobs|, done).Success? {
        var other := ParseJob(lines[k]).value;
        ParseJobsGrow(lines, k + 1, |rest|, done + [other]);
        assert ParseJobs(lines, k, |jobs|, done).value[|done|] == other;
      }
    }
  }

  lemma {:induction false} ParseJobsGrow(lines: seq<string>, k: nat, n: nat, jobs: seq<JobSummary>)
    requires ParseJobs(lines, k, n, jobs).Success?
    ensures Extends(ParseJobs(lines, k, n, jobs).value, jobs, n)
    decreases n
  {
    hide ParseJob;
    if n > 0 {
      var job := ParseJob(lines[k]).value;
      ParseJobsGrow(lines, k + 1, n - 1, jobs + [job]);
      ExtendsStep(ParseJobs(lines, k, n, jobs).value, jobs, n, job);
    }
  }

  lemma AllRead(lines: seq<string>, report: Report)
    requires lines != []
    ensures lines[0] == Header(report.parent, |report.jobs|) && |lines| == 1 + |report.jobs|
            && ReadsFrom(lines, 1, report.jobs) <==>
            lines == AllLines(report) && Canonical(report.jobs)
  {
    hide JobLine, InOrder, Header;
    var jobs, all := report.jobs, AllLines(report);
    if lines == all && Canonical(jobs) {
      assert lines[1..] == JobLines(jobs);
      assert forall i | 0 <= i < |jobs| :: Reads(lines[1..][i], jobs[i]);
    }
    if ReadsFrom(lines, 1, jobs) && |lines| == 1 + |jobs| && lines[0] == Header(report.parent, |jobs|) {
      assert lines[1..] == JobLines(jobs);
      assert lines == [lines[0]] + lines[1..];
      assert forall i | 0 <= i < |jobs| :: Reads(lines[1..][i], jobs[i]);
    }
  }

  /** Lines read as a report exactly when they are its lines, and its labels are in order. */
  lemma ParseLinesIff(lines: seq<string>, report: Report)
    requires WellFormed(report)
    ensures ParseLines(lines) == Success(report) <==> lines == AllLines(report) && Canonical(report.jobs)
  {
    var jobs := report.jobs;
    assert forall i | 0 <= i < |jobs| :: JobSendable(report.parent, jobs[i]) by {
      assert forall i | 0 <= i < |jobs| :: MayFollow(report.parent, jobs[..i], jobs[i]);
    }
    hide ParseHeader, Header, JobLines, JobLine, ValidCiId, JobSendable, ReadsFrom, Canonical, JobsOk;
    if lines != [] {
      HeaderIff(lines[0], report.parent, |jobs|);
      AllRead(lines, report);
      ParseJobsIff(report.parent, lines, 1, [], jobs);
      assert [] + jobs == jobs;
      if ParseLines(lines) == Success(report) {
        ParseJobsGrow(lines, 1, ParseHeader(lines[0]).value.1, []);
      }
    }
  }

  lemma HeaderIsShort(parent: string, count: U64)
    requires ValidCiId(parent)
    ensures |Header(parent, count)| <= 90
  {
    U64Length(count);
    hide Decimal;
    var parts := HeaderFields(parent, count);
    assert Join(parts, ' ') == parts[0] + " " + Join(parts[1..], ' ');
    assert Join(parts[1..], ' ') == parts[1] + " " + Join(parts[1..][1..], ' ');
    assert parts[1..][1..] == [parts[2]];
  }

  lemma RecordsAreLines(report: Report)
    ensures AllSome(JobRecords(report)) <==> JobsOk(report.parent, report.jobs)
  {
    hide MayFollow, JobLine;
    var records := JobRecords(report);
    assert forall i | 0 <= i < |records| ::
        records[i].Some? <==> MayFollow(report.parent, report.jobs[..i], report.jobs[i]);
  }

  lemma TextOfLines(report: Report)
    ensures Unlines(AllLines(report)) == Header(report.parent, |report.jobs|) + "\n" + Unlines(JobLines(report.jobs))
  {
    hide Header, JobLines;
    OneText(Header(report.parent, |report.jobs|));
    UnlinesAppend([Header(report.parent, |report.jobs|)], JobLines(report.jobs));
  }

  /** A report prints exactly when it is well formed and fits; then its text is that of its lines. */
  lemma FormatIff(report: Report, out: string)
    ensures Format(report) == Success(out) <==>
            WellFormed(report) && out == Unlines(AllLines(report)) && |out| <= MAX_RESPONSE
  {
    if ValidCiId(report.parent) && |report.jobs| <= MAX_JOBS {
      HeaderIsShort(report.parent, |report.jobs|);
      RecordsAreLines(report);
      TextOfLines(report);
      var header, lines := Header(report.parent, |report.jobs|) + "\n", JobLines(report.jobs);
      assert forall i | 0 <= i < |lines| :: JobRecords(report)[i].Some? ==> JobRecords(report)[i].value == lines[i];
      hide Header, JobLines, AllLines, JobRecords, Unlines, ValidCiId, JobsOk;
      AddRecordsIff(header, JobRecords(report), lines, out);
    }
  }

  lemma WellFormedPrints(report: Report)
    requires WellFormed(report)
    ensures PrintableLines(AllLines(report)) && |AllLines(report)| > 0
  {
    HeaderParts(report.parent, |report.jobs|);
    JoinPrintable(HeaderFields(report.parent, |report.jobs|));
    OneLinePrints(Header(report.parent, |report.jobs|));
    hide HeaderFields, Join, Printable, JobFields, JobSendable, Header;
    var lines := JobLines(report.jobs);
    forall i | 0 <= i < |lines|
      ensures Printable(lines[i]) && Free(lines[i], '\n')
    {
      assert MayFollow(report.parent, report.jobs[..i], report.jobs[i]);
      JobParts(report.parent, report.jobs[i]);
      JoinPrintable(JobFields(report.jobs[i]));
    }
    assert PrintableLines(lines);
    hide PrintableLines, JobLines;
    PrintableAppend([Header(report.parent, |report.jobs|)], JobLines(report.jobs));
  }

  /**
   Round trip, both ways: a text is accepted as a report exactly when it is printed for it and the
   labels of each job are in order.
   */
  lemma JobsRoundTrip(response: string, report: Report)
    ensures Parse(response) == Success(report) <==> Format(report) == Success(response) && Canonical(report.jobs)
  {
    if Format(report).Success? {
      FormatIff(report, Format(report).value);
    }
    FormatIff(report, response);
    if WellFormed(report) {
      WellFormedPrints(report);
      FramedIff(response, AllLines(report));
      ParseLinesIff(AllLines(report), report);
      if Framed(response).Success? {
        ParseLinesIff(Framed(response).value, report);
      }
    }
    hide Framed, ParseLines, Format, WellFormed, AllLines, Canonical, Unlines, PrintableLines;
  }

  // ----- labels out of order ---------------------------------------------------------------------

  function Tidied(report: Report): Report {
    report.(jobs := seq(|report.jobs|, i requires 0 <= i < |report.jobs| => TidiedJob(report.jobs[i])))
  }

  function TidiedJob(job: JobSummary): JobSummary {
    job.(runsOn := Sorted(job.runsOn))
  }

  lemma TidiedJobPrintsSame(parent: string, job: JobSummary)
    requires JobSendable(parent, job)
    ensures JobSendable(parent, TidiedJob(job)) && JobLine(TidiedJob(job)) == JobLine(job)
    ensures InOrder(TidiedJob(job).runsOn)
  {
    SortedLabels(job.runsOn);
    SortedHolds(job.runsOn);
    SortedIsSame(Sorted(job.runsOn));
    hide Sorted, InOrder, AllLabels, Join, Sendable, FormatLabels;
  }

  lemma TidiedIsWellFormed(report: Report)
    requires WellFormed(report)
    ensures WellFormed(Tidied(report)) && AllLines(Tidied(report)) == AllLines(report)
    ensures Canonical(Tidied(report).jobs)
  {
    hide JobSendable, JobLine, Header, InOrder, Sorted;
    var jobs, tidied := report.jobs, Tidied(report).jobs;
    forall i | 0 <= i < |jobs|
      ensures MayFollow(report.parent, tidied[..i], tidied[i]) && JobLine(tidied[i]) == JobLine(jobs[i])
      ensures InOrder(tidied[i].runsOn)
    {
      assert MayFollow(report.parent, jobs[..i], jobs[i]);
      TidiedJobPrintsSame(report.parent, jobs[i]);
      assert forall k | 0 <= k < i :: tidied[k].name == jobs[..i][k].name && tidied[k].runId == jobs[..i][k].runId;
    }
    assert JobLines(tidied) == JobLines(jobs);
  }

  /** Whatever is printed is accepted, and arrives with each job's labels sorted and not repeated. */
  lemma JobsArrive(report: Report, response: string)
    requires Format(report) == Success(response)
    ensures Parse(response) == Success(Tidied(report))
  {
    FormatIff(report, response);
    TidiedIsWellFormed(report);
    FormatIff(Tidied(report), response);
    JobsRoundTrip(response, Tidied(report));
  }

  // ----- the loops of the source ---------------------------------------------------------------

  /** A list is written, read and written again, which sorts it; the reading cannot fail. */
  method LabelText(labels: seq<string>) returns (field: string)
    requires AllLabels(labels) && |labels| <= MAX_LABELS
    ensures field == LabelField(labels)
  {
    if labels == [] {
      return "-";
    }
    LabelsReadBack(labels);
    hide ParseLabels, FormatLabels, AllLabels;
    var text := WriteLabels(labels);
    var sorted := ReadLabels(text);
    field := WriteLabels(sorted.value);
  }

  method JobText(job: JobSummary) returns (line: string)
    requires AllLabels(job.runsOn) && |job.runsOn| <= MAX_LABELS
    ensures line == JobLine(job)
  {
    hide Join, StatusName, RunnerField, Decimal, LabelField, AllLabels;
    var labels := LabelText(job.runsOn);
    line := Join(["job", job.name, job.runId, StatusName(job.status), RunnerField(job.placed.runner),
                  Decimal(job.placed.attempt), labels], ' ');
  }

  /** The names and the runs of these jobs. */
  predicate Gathered(jobs: seq<JobSummary>, names: set<string>, ids: set<string>) {
    && names == (set i | 0 <= i < |jobs| :: jobs[i].name)
    && ids == (set i | 0 <= i < |jobs| :: jobs[i].runId)
  }

  lemma GatheredMore(jobs: seq<JobSummary>, i: nat, names: set<string>, ids: set<string>)
    requires i < |jobs| && Gathered(jobs[..i], names, ids)
    ensures Gathered(jobs[..i + 1], names + {jobs[i].name}, ids + {jobs[i].runId})
  {
    assert jobs[..i + 1] == jobs[..i] + [jobs[i]];
    assert jobs[..i + 1][i] == jobs[i];
  }

  lemma GatheredTells(parent: string, before: seq<JobSummary>, names: set<string>, ids: set<string>, job: JobSummary)
    requires Gathered(before, names, ids)
    ensures MayFollow(parent, before, job) <==>
            JobSendable(parent, job) && job.name !in names && job.runId !in ids
  {
    hide JobSendable;
  }

  method FormatJobs(report: Report) returns (r: Result<string, Problem>)
    ensures r == Format(report)
  {
    var jobs := report.jobs;
    if !ValidCiId(report.parent) || |jobs| > MAX_JOBS {
      return Failure(Unrepresentable);
    }
    ghost var records := JobRecords(report);
    var header := Header(report.parent, |jobs|) + "\n";
    var names: set<string>, ids: set<string> := {}, {};
    assert Gathered(jobs[..0], names, ids);
    NoRecords(header, records);
    hide AddRecords, Append, JobSendable, MayFollow, Gathered, JobLine, Header, AllLabels, ValidCiId, JobRecords;
    r := Success(header);
    RecordsCount(report);
    for i := 0 to |jobs|
      invariant r.Success? && AddRecords(header, records[..i]) == r
      invariant Gathered(jobs[..i], names, ids)
    {
      var job := jobs[i];
      NextRecord(header, records, i);
      RecordIs(report, i);
      GatheredTells(report.parent, jobs[..i], names, ids, job);
      if !JobSendable(report.parent, job) || job.name in names || job.runId in ids {
        RecordFailure(header, records, i + 1);
        return Failure(Unrepresentable);
      }
      SendableLabels(report.parent, job);
      var line := JobText(job);
      r := Append(r.value, line);
      if r.Failure? {
        RecordFailure(header, records, i + 1);
        return;
      }
      GatheredMore(jobs, i, names, ids);
      names, ids := names + {job.name}, ids + {job.runId};
    }
    AllRecords(header, records);
  }

  lemma RecordIs(report: Report, i: nat)
    requires i < |report.jobs|
    ensures i < |JobRecords(report)| == |report.jobs| && JobRecords(report)[i] == JobRecord(report, i)
  {
    hide JobRecord;
  }

  lemma RecordsCount(report: Report)
    ensures |JobRecords(report)| == |report.jobs|
  {
    hide JobRecord;
  }

  lemma SendableLabels(parent: string, job: JobSummary)
    requires JobSendable(parent, job)
    ensures AllLabels(job.runsOn) && |job.runsOn| <= MAX_LABELS
  {
  }

  method ReadJob(f: seq<string>) returns (r: Result<JobSummary, Problem>)
    requires |f| == 7
    ensures r == JobOf(f)
  {
    hide ParseLabels, FormatLabels, ParseNumber, StatusFromName;
    var status := StatusFromName(f[3]);
    var labels := ReadLabels(if f[6] == "-" then "" else f[6]);
    var attempt := ParseNumber(f[5]);
    if attempt.None? {
      return Failure(BadNumber);
    }
    if status.None? || labels.None? {
      return Failure(BadIdentity);
    }
    var text := WriteLabels(labels.value);
    if f[6] != "-" && text != f[6] {
      return Failure(BadIdentity);
    }
    if attempt.value == 0 || attempt.value >= U32_LIMIT {
      return Failure(BadCount);
    }
    return Success(JobSummary(f[1], f[2], status.value, Placed(if f[4] == "-" then "" else f[4], attempt.value),
                              labels.value));
  }

  method ReadJobs(lines: ResponseLines, ghost all: seq<string>, n: nat) returns (r: Result<seq<JobSummary>, Problem>)
    requires lines.Valid() && all != [] && lines.Rest() == all[1..]
    modifies lines
    ensures lines.Valid()
    ensures r == ParseJobs(all, 1, n, [])
    ensures r.Success? ==> 1 + n <= |all| && lines.Rest() == all[1 + n..]
  {
    hide JobOf, FieldsOf;
    var jobs: seq<JobSummary> := [];
    for i := 0 to n
      invariant lines.Valid() && 1 + i <= |all| && lines.Rest() == all[1 + i..]
      invariant ParseJobs(all, 1, n, []) == ParseJobs(all, 1 + i, n - i, jobs)
    {
      var fields := lines.NextFields("job", 7);
      if fields.Failure? {
        return Failure(fields.error);
      }
      FieldsCount(all[1 + i], "job", 7);
      var job := ReadJob(fields.value);
      if job.Failure? {
        return Failure(job.error);
      }
      jobs := jobs + [job.value];
    }
    return Success(jobs);
  }

  method ParseReport(response: string) returns (r: Result<Report, Problem>)
    ensures r == Parse(response)
  {
    hide Framed, FieldsOf, ParseNumber, ParseJobs, Lines, Format;
    var framed := Framed(response);
    if framed.Failure? {
      return Failure(framed.error);
    }
    ghost var all := framed.value;
    FramedIsLines(response);
    var lines := new ResponseLines(response);
    var header := lines.NextFields("ok", 3);
    if header.Failure? {
      return Failure(header.error);
    }
    FieldsCount(all[0], "ok", 3);
    var count := ParseNumber(header.value[2]);
    if count.None? {
      return Failure(BadNumber);
    }
    if count.value > MAX_JOBS {
      return Failure(BadCount);
    }
    var jobs := ReadJobs(lines, all, count.value);
    if jobs.Failure? {
      return Failure(jobs.error);
    }
    var done := lines.Done();
    if !done {
      return Failure(Trailing);
    }
    var report := Report(header.value[1], jobs.value);
    var again := FormatJobs(report);
    if again.Failure? {
      return Failure(again.error);
    }
    return Success(report);
  }
}
