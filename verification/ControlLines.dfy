/**
 What all control responses share: bounded printable text in newline-terminated records
 of space-separated, non-empty fields, and the `run` record that summarizes a run.
 */
module ControlLines {
  import opened Wrappers
  import opened Text
  import opened Names
  import opened Records

  const MAX_RESPONSE := 0x4_0000
  const MAX_REF := 512

  datatype Problem =
    | Framing | UnsafeBytes | EndsEarly | EmptyLine | MalformedRecord | BadText | BadNumber | BadFlag
    | BadIdentity | BadCount | Repeated | OutOfOrder | Trailing | Unrepresentable | TooLong

  // ----- fields -----------------------------------------------------------------------

  /** A byte of a field: printable, and neither a separator nor a newline. */
  predicate FieldByte(c: char) {
    0x20 < c as int <= 0x7e
  }

  predicate Field(s: string) {
    s != "" && forall i | 0 <= i < |s| :: FieldByte(s[i])
  }

  predicate Fieldly(parts: seq<string>) {
    |parts| > 0 && forall i | 0 <= i < |parts| :: Field(parts[i])
  }

  function DecodeText(field: string, max: nat): Option<Bytes> {
    if field == "-" then Some([])
    else
      match HexDecode(field, max)
      case Some(b) => if b == [] then None else Some(b)
      case None => None
  }

  /** A text field reads as `b` exactly when it is the one way to print `b`. */
  lemma TextField(field: string, b: Bytes, max: nat)
    ensures DecodeText(field, max) == Some(b) <==> field == HexOrDash(b) && |b| <= max
  {
    HexRoundTrip(field, b, max);
    if b != [] {
      HexNotDash(b);
    }
  }

  lemma HexNotDash(b: Bytes)
    ensures HexEncode(b) != "-"
  {
    assert |HexEncode(b)| == 2 * |b|;
  }

  /** Records without newlines, each a line of fields that a keyword opens. */
  function FieldsOf(line: string, keyword: string, count: nat): Result<seq<string>, Problem> {
    if line == "" then Failure(EmptyLine)
    else
      var parts := Split(line, ' ');
      if |parts| != count || parts[0] != keyword || "" in parts then Failure(MalformedRecord) else Success(parts)
  }

  predicate Printable(s: string) {
    forall i | 0 <= i < |s| :: s[i] == '\n' || 0x20 <= s[i] as int <= 0x7e
  }

  lemma FieldFree(s: string)
    requires Field(s)
    ensures Free(s, ' ') && Free(s, '\n')
  {
  }

  lemma {:induction false} JoinPrintable(parts: seq<string>)
    requires Fieldly(parts)
    ensures Printable(Join(parts, ' ')) && Free(Join(parts, ' '), '\n') && Join(parts, ' ') != ""
  {
    FieldFree(parts[0]);
    if |parts| > 1 {
      JoinPrintable(parts[1..]);
    }
  }

  /** A line has these fields exactly when it joins them. */
  lemma LineIff(line: string, keyword: string, count: nat, parts: seq<string>)
    requires Fieldly(parts) && |parts| == count && parts[0] == keyword
    ensures FieldsOf(line, keyword, count) == Success(parts) <==> line == Join(parts, ' ')
  {
    hide Split, Join;
    JoinSplit(line, ' ');
    JoinPrintable(parts);
    assert AllFree(parts, ' ') by {
      forall i | 0 <= i < |parts|
        ensures Free(parts[i], ' ')
      {
        FieldFree(parts[i]);
      }
    }
    SplitJoin(parts, ' ');
    assert "" !in parts;
  }

  // ----- framing ----------------------------------------------------------------------

  function Framed(response: string): Result<seq<string>, Problem> {
    if |response| == 0 || |response| > MAX_RESPONSE || response[|response| - 1] != '\n' then Failure(Framing)
    else if !Printable(response) then Failure(UnsafeBytes)
    else Success(Lines(response))
  }

  predicate PrintableLines(lines: seq<string>) {
    forall i | 0 <= i < |lines| :: Printable(lines[i]) && Free(lines[i], '\n')
  }

  lemma {:induction false} UnlinesPrintable(lines: seq<string>)
    requires PrintableLines(lines)
    ensures Printable(Unlines(lines)) && Terminated(Unlines(lines))
    ensures |lines| > 0 ==> |Unlines(lines)| > 0
  {
    if lines != [] {
      UnlinesPrintable(lines[1..]);
    }
  }

  /** A response is framed as these lines exactly when it is their text, within the limit. */
  lemma FramedIff(response: string, lines: seq<string>)
    requires |lines| > 0 && PrintableLines(lines)
    ensures Framed(response) == Success(lines) <==> response == Unlines(lines) && |response| <= MAX_RESPONSE
  {
    hide Unlines, Lines;
    UnlinesPrintable(lines);
    assert AllFree(lines, '\n');
    LinesUnlines(lines);
    if Framed(response) == Success(lines) {
      UnlinesLines(response);
    }
  }

  /** Walks a framed response line by line. */
  class ResponseLines {
    const response: string
    var position: nat

    ghost predicate Valid()
      reads this
    {
      position <= |response| && Terminated(response) && Terminated(response[position..])
    }

    /** The lines not read yet. */
    ghost function Rest(): seq<string>
      reads this
      requires Valid()
    {
      Lines(response[position..])
    }

    constructor (response: string)
      requires Terminated(response)
      ensures Valid() && Rest() == Lines(response) && this.response == response
    {
      this.response := response;
      position := 0;
      new;
      assert response[0..] == response;
    }

    method Done() returns (done: bool)
      requires Valid()
      ensures done <==> Rest() == []
    {
      done := position == |response|;
    }

    method Next() returns (r: Result<string, Problem>)
      requires Valid()
      modifies this
      ensures Valid()
      ensures old(Rest()) == [] ==> r == Failure(EndsEarly)
      ensures old(Rest()) != [] ==>
                && Rest() == old(Rest())[1..]
                && r == if old(Rest())[0] == "" then Failure(EmptyLine) else Success(old(Rest())[0])
    {
      hide Find;
      if position == |response| {
        return Failure(EndsEarly);
      }
      ghost var rest := response[position..];
      var length := Find(response[position..], '\n');
      assert length < |rest|;
      var line := response[position..position + length];
      assert line == rest[..length];
      position := position + length + 1;
      assert response[position..] == rest[length + 1..];
      if line == "" {
        return Failure(EmptyLine);
      }
      return Success(line);
    }

    /** The next line's fields: exactly `count`, none empty, the first equal to `keyword`. */
    method NextFields(keyword: string, count: nat) returns (r: Result<seq<string>, Problem>)
      requires Valid()
      modifies this
      ensures Valid()
      ensures old(Rest()) == [] ==> r == Failure(EndsEarly)
      ensures old(Rest()) != [] ==> Rest() == old(Rest())[1..] && r == FieldsOf(old(Rest())[0], keyword, count)
    {
      hide Lines, Split;
      var line := Next();
      if line.Failure? {
        return Failure(line.error);
      }
      var parts := SplitFields(line.value, ' ');
      if |parts| != count || parts[0] != keyword || "" in parts {
        return Failure(MalformedRecord);
      }
      return Success(parts);
    }
  }

  // ----- the run record ------------------------------------------------------------------

  datatype RunSummary = RunSummary(
    runId: string, project: string, ref: Bytes, commitId: string, status: RunStatus,
    started: U64, finished: U64, heartbeat: U64, completedSteps: nat)

  /** What the formatter demands of a run. */
  predicate Representable(run: RunSummary) {
    ValidCiId(run.runId) && ValidObjectId(run.commitId) && |run.ref| <= MAX_REF
  }

  function RunFields(run: RunSummary): seq<string> {
    ["run", run.runId, StatusName(run.status), Decimal(run.started), Decimal(run.finished), Decimal(run.heartbeat),
     Decimal(run.completedSteps), run.commitId, HexOrDash(run.ref)]
  }

  function RunLine(run: RunSummary): string {
    Join(RunFields(run), ' ')
  }

  function RunOf(f: seq<string>, project: string): Result<RunSummary, Problem>
    requires |f| == 9
  {
    var status := StatusFromName(f[2]);
    if !ValidCiId(f[1]) || status.None? then Failure(BadIdentity)
    else
      match (ParseNumber(f[3]), ParseNumber(f[4]), ParseNumber(f[5]), ParseNumber(f[6]))
      case (Some(started), Some(finished), Some(heartbeat), Some(completed)) =>
        if completed > MAX_STEPS then Failure(BadCount)
        else if !ValidObjectId(f[7]) then Failure(BadIdentity)
        else
          (match DecodeText(f[8], MAX_REF)
           case None => Failure(BadText)
           case Some(ref) =>
             Success(RunSummary(f[1], project, ref, f[7], status.value, started, finished, heartbeat, completed)))
      case _ => Failure(BadNumber)
  }

  function ParseRunLine(line: string, project: string): Result<RunSummary, Problem> {
    match FieldsOf(line, "run", 9)
    case Failure(problem) => Failure(problem)
    case Success(fields) => RunOf(fields, project)
  }

  lemma DecimalIsField(n: nat)
    ensures Field(Decimal(n))
  {
  }

  lemma HexIsField(b: Bytes)
    ensures Field(HexOrDash(b))
  {
  }

  lemma StatusIsField(status: RunStatus)
    ensures Field(StatusName(status))
  {
  }

  lemma RunFieldsAreFields(run: RunSummary)
    requires Representable(run)
    ensures Fieldly(RunFields(run))
  {
    hide Decimal, HexOrDash, StatusName;
    StatusIsField(run.status);
    DecimalIsField(run.started);
    DecimalIsField(run.finished);
    DecimalIsField(run.heartbeat);
    DecimalIsField(run.completedSteps);
    HexIsField(run.ref);
    assert Field("run") && Field(run.runId) && Field(run.commitId);
  }

  /** Nine fields read as a run exactly when they are the fields of that run. */
  lemma RunOfIff(f: seq<string>, project: string, run: RunSummary)
    requires |f| == 9 && f[0] == "run"
    ensures RunOf(f, project) == Success(run) <==>
            f == RunFields(run) && Representable(run) && run.project == project && run.completedSteps <= MAX_STEPS
  {
    hide Decimal, HexOrDash, StatusName, StatusFromName, ParseNumber, DecodeText, ValidCiId, ValidObjectId;
    StatusIff(f[2], run.status);
    NumberRoundTrip(f[3], run.started);
    NumberRoundTrip(f[4], run.finished);
    NumberRoundTrip(f[5], run.heartbeat);
    TextField(f[8], run.ref, MAX_REF);
    if run.completedSteps <= MAX_STEPS {
      NumberRoundTrip(f[6], run.completedSteps);
    }
  }

  /** A line reads as a run exactly when it is the line of that run. */
  lemma RunLineIff(line: string, project: string, run: RunSummary)
    ensures ParseRunLine(line, project) == Success(run) <==>
            line == RunLine(run) && Representable(run) && run.project == project && run.completedSteps <= MAX_STEPS
  {
    hide RunFields, RunOf;
    if ParseRunLine(line, project).Success? {
      RunOfIff(FieldsOf(line, "run", 9).value, project, run);
    }
    if Representable(run) {
      RunFieldsAreFields(run);
      RunHead(run);
      LineIff(line, "run", 9, RunFields(run));
      RunOfIff(RunFields(run), project, run);
    }
  }

  lemma RunHead(run: RunSummary)
    ensures |RunFields(run)| == 9 && RunFields(run)[0] == "run"
  {
  }

  // ----- the ok record ---------------------------------------------------------------------

  function OkLine(epoch: U64, count: nat): string {
    Join(["ok", Decimal(epoch), Decimal(count)], ' ')
  }

  function ParseOk(line: string, limit: nat): Result<(U64, U64), Problem> {
    match FieldsOf(line, "ok", 3)
    case Failure(problem) => Failure(problem)
    case Success(f) =>
      match (ParseNumber(f[1]), ParseNumber(f[2]))
      case (Some(epoch), Some(count)) => if count > limit then Failure(BadCount) else Success((epoch, count))
      case _ => Failure(BadNumber)
  }

  lemma OkFields(epoch: U64, count: nat)
    ensures Fieldly(["ok", Decimal(epoch), Decimal(count)])
  {
    hide Decimal;
    DecimalIsField(epoch);
    DecimalIsField(count);
    assert Field("ok");
  }

  /** A line reads as a header exactly when it is the header of those two numbers. */
  lemma OkIff(line: string, epoch: U64, count: U64, limit: nat)
    requires count <= limit
    ensures ParseOk(line, limit) == Success((epoch, count)) <==> line == OkLine(epoch, count)
  {
    OkFields(epoch, count);
    hide Decimal, ParseNumber, Join;
    var parts := ["ok", Decimal(epoch), Decimal(count)];
    LineIff(line, "ok", 3, parts);
    NumberRoundTrip(Decimal(epoch), epoch);
    NumberRoundTrip(Decimal(count), count);
    if ParseOk(line, limit) == Success((epoch, count)) {
      var f := FieldsOf(line, "ok", 3).value;
      NumberRoundTrip(f[1], epoch);
      NumberRoundTrip(f[2], count);
      assert f == parts;
    }
  }

  lemma OkCounts(line: string, limit: nat)
    ensures ParseOk(line, limit).Success? ==> ParseOk(line, limit).value.1 <= limit
  {
  }

  lemma OkIsShort(epoch: U64, count: U64)
    ensures |OkLine(epoch, count)| <= 44
  {
    hide Decimal;
    U64Length(epoch);
    U64Length(count);
    var parts := ["ok", Decimal(epoch), Decimal(count)];
    assert Join(parts[1..], ' ') == parts[1] + [' '] + Join(parts[1..][1..], ' ');
  }

  lemma OkPrints(epoch: U64, count: nat)
    ensures Printable(OkLine(epoch, count)) && Free(OkLine(epoch, count), '\n')
  {
    hide Decimal, Join;
    OkFields(epoch, count);
    JoinPrintable(["ok", Decimal(epoch), Decimal(count)]);
  }

  // ----- printing -----------------------------------------------------------------------

  /** Appends a line unless the response would exceed its bound. */
  function Append(response: string, line: string): Result<string, Problem> {
    if |response| + |line| + 1 > MAX_RESPONSE then Failure(TooLong) else Success(response + line + "\n")
  }

  /** Adds records in order; one that cannot be represented ends the printing. */
  function AddRecords(response: string, records: seq<Option<string>>): Result<string, Problem>
    decreases |records|
  {
    if records == [] then Success(response)
    else
      match AddRecords(response, records[..|records| - 1])
      case Failure(problem) => Failure(problem)
      case Success(before) =>
        match records[|records| - 1]
        case None => Failure(Unrepresentable)
        case Some(line) => Append(before, line)
  }

  predicate AllSome(records: seq<Option<string>>) {
    forall i | 0 <= i < |records| :: records[i].Some?
  }

  lemma AppendIff(response: string, line: string, out: string)
    ensures Append(response, line) == Success(out) <==> out == response + line + "\n" && |out| <= MAX_RESPONSE
  {
  }

  lemma Assoc(a: string, b: string, c: string)
    ensures a + b + c == a + (b + c)
  {
  }

  lemma LastLine(response: string, lines: seq<string>)
    requires lines != []
    ensures response + Unlines(lines) == response + Unlines(lines[..|lines| - 1]) + lines[|lines| - 1] + "\n"
  {
    hide Unlines;
    var init, line := lines[..|lines| - 1], lines[|lines| - 1];
    assert lines == init + [line];
    UnlinesOne(init, line);
    Assoc(Unlines(init), line, "\n");
    Assoc(response, Unlines(init), line + "\n");
    Assoc(response + Unlines(init), line, "\n");
  }

  lemma NoText(response: string)
    ensures response + Unlines([]) == response
  {
  }

  /** Records are added exactly when each can be represented and the text fits; then their lines follow. */
  lemma {:induction false} AddRecordsIff(
      response: string, records: seq<Option<string>>, lines: seq<string>, out: string)
    requires |response| <= MAX_RESPONSE && |records| == |lines|
    requires forall i | 0 <= i < |records| :: records[i].Some? ==> records[i].value == lines[i]
    ensures AddRecords(response, records) == Success(out) <==>
            AllSome(records) && out == response + Unlines(lines) && |out| <= MAX_RESPONSE
    decreases |records|
  {
    hide Unlines, Append, MAX_RESPONSE;
    if records == [] {
      NoText(response);
    } else {
      var init, line := lines[..|lines| - 1], lines[|lines| - 1];
      var before := response + Unlines(init);
      LastLine(response, lines);
      AddRecordsIff(response, records[..|records| - 1], init, before);
      if AddRecords(response, records[..|records| - 1]).Success? {
        AddRecordsIff(response, records[..|records| - 1], init, AddRecords(response, records[..|records| - 1]).value);
      }
      AppendIff(before, line, out);
      assert AllSome(records) <==> AllSome(records[..|records| - 1]) && records[|records| - 1].Some?;
    }
  }

  lemma NoRecords(response: string, records: seq<Option<string>>)
    ensures AddRecords(response, records[..0]) == Success(response)
  {
  }

  lemma NextRecord(response: string, records: seq<Option<string>>, i: nat)
    requires i < |records|
    ensures AddRecords(response, records[..i + 1]) ==
            match AddRecords(response, records[..i])
            case Failure(problem) => Failure(problem)
            case Success(before) =>
              match records[i]
              case None => Failure(Unrepresentable)
              case Some(line) => Append(before, line)
  {
    hide Append;
    assert records[..i + 1][..i] == records[..i];
  }

  lemma AllRecords(response: string, records: seq<Option<string>>)
    ensures AddRecords(response, records[..|records|]) == AddRecords(response, records)
  {
    assert records[..|records|] == records;
  }

  /** An exception thrown for an early record is the formatter's outcome. */
  lemma {:induction false} RecordFailure(response: string, records: seq<Option<string>>, i: nat)
    requires i <= |records| && AddRecords(response, records[..i]).Failure?
    ensures AddRecords(response, records) == AddRecords(response, records[..i])
    decreases |records|
  {
    hide Append;
    if i == |records| {
      assert records[..i] == records;
    } else {
      assert records[..|records| - 1][..i] == records[..i];
      RecordFailure(response, records[..|records| - 1], i);
    }
  }

  // ----- reading --------------------------------------------------------------------------

  /** Lines from `k` on, and what was read from those before. */
  datatype Read<T> = Read(value: T, k: nat)

  /** `part` are the lines of `lines` from `k` up to `m`. */
  predicate Stretch(lines: seq<string>, k: nat, m: nat, part: seq<string>) {
    k <= m <= |lines| && lines[k..m] == part
  }

  lemma StretchSplit(lines: seq<string>, k: nat, m: nat, a: seq<string>, b: seq<string>)
    ensures Stretch(lines, k, m, a + b) <==> Stretch(lines, k, k + |a|, a) && Stretch(lines, k + |a|, m, b)
  {
    if Stretch(lines, k, m, a + b) {
      assert lines[k..k + |a|] == lines[k..m][..|a|];
      assert lines[k + |a|..m] == lines[k..m][|a|..];
    }
    if Stretch(lines, k, k + |a|, a) && Stretch(lines, k + |a|, m, b) {
      assert lines[k..m] == lines[k..k + |a|] + lines[k + |a|..m];
    }
  }

  lemma StretchEnds(lines: seq<string>, k: nat, m: nat, part: seq<string>)
    ensures Stretch(lines, k, m, part) ==> m <= |lines|
  {
  }

  lemma StretchCons(lines: seq<string>, k: nat, m: nat, line: string, rest: seq<string>)
    ensures Stretch(lines, k, m, [line] + rest) <==> k < |lines| && lines[k] == line && Stretch(lines, k + 1, m, rest)
  {
    StretchSplit(lines, k, m, [line], rest);
    if k < |lines| {
      assert lines[k..k + 1] == [lines[k]];
    }
  }

  /** `all` goes on after `done` with `n` further elements. */
  predicate Extends<T(==)>(all: seq<T>, done: seq<T>, n: nat) {
    |all| == |done| + n && all[..|done|] == done
  }

  lemma ExtendsStep<T>(all: seq<T>, done: seq<T>, n: nat, x: T)
    requires n > 0
    ensures Extends(all, done + [x], n - 1) <==> Extends(all, done, n) && all[|done|] == x
  {
    if |all| == |done| + n {
      assert all[..|done| + 1] == all[..|done|] + [all[|done|]];
    }
  }

  lemma FieldsCount(line: string, keyword: string, count: nat)
    ensures FieldsOf(line, keyword, count).Success? ==>
              |FieldsOf(line, keyword, count).value| == count > 0 && FieldsOf(line, keyword, count).value[0] == keyword
  {
    hide Split;
  }

  lemma FramedIsLines(response: string)
    requires Framed(response).Success?
    ensures Terminated(response) && Framed(response).value == Lines(response) && |Lines(response)| > 0
  {
    hide Find;
  }

  // ----- printable lines -----------------------------------------------------------------

  lemma NoLinesPrint()
    ensures PrintableLines([])
  {
  }

  lemma OneLinePrints(line: string)
    requires Printable(line) && Free(line, '\n')
    ensures PrintableLines([line])
  {
    hide Printable;
  }

  lemma PrintableAppend(a: seq<string>, b: seq<string>)
    requires PrintableLines(a) && PrintableLines(b)
    ensures PrintableLines(a + b)
  {
    hide Printable;
  }

  lemma RunLinePrints(run: RunSummary)
    requires Representable(run)
    ensures Printable(RunLine(run)) && Free(RunLine(run), '\n')
  {
    RunFieldsAreFields(run);
    RunHead(run);
    hide RunFields;
    JoinPrintable(RunFields(run));
  }
}
