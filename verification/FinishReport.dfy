/**
 The terminal report of a run: its lines of text, and the parser that takes them back.
 */
module FinishReport {
  import opened Wrappers
  import opened Text
  import opened Names
  import opened Records
  import opened SinkOrder
  import E = ExecutionReport

  const MAX_PAYLOAD := 512 * 1024
  const MAX_JOBS := 64
  const MAX_LABEL_BYTES := 256
  const MAX_EXIT := 1000
  const MAX_RETENTION_DAYS := 3650

  datatype Report = Report(
    status: RunStatus, startedEpoch: U64, detail: Bytes, steps: seq<StepResult>, outputs: seq<Output>,
    execution: Option<E.Report>)

  datatype Problem =
    | TooLarge | Malformed | BadStatus | BadNumber | BadText | BadStep | BadOutput | BadExecution | Unknown

  // ----- printing ---------------------------------------------------------------------------

  function StepParts(s: StepResult): seq<string> {
    [Signed(s.exitCode), Flag(s.timedOut), Flag(s.truncated), HexOrDash(s.name)]
  }

  function OutputParts(o: Output): seq<string> {
    [o.name, Flag(o.release), Decimal(o.retentionDays), HexOrDash(o.note)]
  }

  function StepLine(s: StepResult): string {
    "step=" + Join(StepParts(s), ',')
  }

  function OutputLine(o: Output): string {
    "output=" + Join(OutputParts(o), ',')
  }

  function StepLines(steps: seq<StepResult>): seq<string> {
    if steps == [] then [] else [StepLine(steps[0])] + StepLines(steps[1..])
  }

  function OutputLines(outputs: seq<Output>): seq<string> {
    if outputs == [] then [] else [OutputLine(outputs[0])] + OutputLines(outputs[1..])
  }

  function HeadLines(r: Report): seq<string> {
    ["status=" + StatusName(r.status), "started_epoch=" + Decimal(r.startedEpoch), "detail_hex=" + HexEncode(r.detail)]
  }

  function ExecutionLines(execution: Option<E.Report>): seq<string> {
    match execution
    case None => []
    case Some(e) => ["execution=" + Join(E.Parts(e), ',')]
  }

  function LinesOf(r: Report): seq<string> {
    HeadLines(r) + (ExecutionLines(r.execution) + (StepLines(r.steps) + OutputLines(r.outputs)))
  }

  /** The text of a report; None when formatting its execution report throws. */
  function Print(r: Report): Option<string> {
    if r.execution.Some? && E.Format(r.execution.value).Failure? then None else Some(Unlines(LinesOf(r)))
  }

  // ----- parsing ----------------------------------------------------------------------------

  /** The text after `key`, when the line begins with it. */
  function After(line: string, key: string): Option<string> {
    if |line| >= |key| && line[..|key|] == key then Some(line[|key|..]) else None
  }

  function ParseExit(s: string): Option<I32> {
    var negative := s != "" && s[0] == '-';
    match ParseU64(if negative then s[1..] else s)
    case None => None
    case Some(magnitude) =>
      if magnitude > MAX_EXIT then None else Some(if negative then 0 - magnitude else magnitude)
  }

  function ParseStep(text: string): Option<StepResult> {
    var f := Split(text, ',');
    if |f| != 4 then None
    else
      match (ParseExit(f[0]), FromHexOrDash(f[3], MAX_LABEL_BYTES))
      case (Some(exitCode), Some(name)) => Some(StepResult(name, exitCode, f[1] == "1", f[2] == "1"))
      case _ => None
  }

  function OutputOf(f: seq<string>): Option<Output>
    requires |f| == 4
  {
    match (ParseU64(f[2]), FromHexOrDash(f[3], MAX_LABEL_BYTES))
    case (Some(retention), Some(note)) =>
      // the cast to a 32-bit unsigned comes before the check
      var days := retention % U32_LIMIT;
      if !ValidArtifactName(f[0]) || days > MAX_RETENTION_DAYS then None
      else Some(Output(f[0], f[1] == "1", days, note))
    case _ => None
  }

  function ParseOutput(text: string): Option<Output> {
    var f := Split(text, ',');
    if |f| != 4 then None else OutputOf(f)
  }

  function TakeStep(r: Report, text: string): Result<Report, Problem> {
    match ParseStep(text)
    case None => Failure(BadStep)
    case Some(step) => if |r.steps| >= MAX_STEPS then Failure(BadStep) else Success(r.(steps := r.steps + [step]))
  }

  function TakeOutput(r: Report, text: string): Result<Report, Problem> {
    match ParseOutput(text)
    case None => Failure(BadOutput)
    case Some(output) =>
      if |r.outputs| >= MAX_JOBS then Failure(BadOutput) else Success(r.(outputs := r.outputs + [output]))
  }

  function TakeExecution(r: Report, text: string): Result<Report, Problem> {
    if r.execution.Some? then Failure(BadExecution)
    else
      match E.Parse(text)
      case Failure(_) => Failure(BadExecution)
      case Success(e) => Success(r.(execution := Some(e)))
  }

  function TakeLine(r: Report, line: string): Result<Report, Problem> {
    match After(line, "execution=")
    case Some(text) => TakeExecution(r, text)
    case None =>
      match After(line, "step=")
      case Some(text) => TakeStep(r, text)
      case None =>
        match After(line, "output=")
        case Some(text) => TakeOutput(r, text)
        case None => Failure(Unknown)
  }

  function TakeLines(r: Report, lines: seq<string>): Result<Report, Problem>
    decreases |lines|
  {
    if lines == [] then Success(r)
    else
      match TakeLine(r, lines[0])
      case Failure(problem) => Failure(problem)
      case Success(next) => TakeLines(next, lines[1..])
  }

  function ParseStatus(line: string): Option<RunStatus> {
    match After(line, "status=")
    case None => None
    case Some(name) =>
      match StatusFromName(name)
      case None => None
      case Some(status) => if Active(status) then None else Some(status)
  }

  function ParseHead(lines: seq<string>): Result<Report, Problem>
    requires |lines| >= 3
  {
    match (ParseStatus(lines[0]), After(lines[1], "started_epoch="), After(lines[2], "detail_hex="))
    case (None, _, _) => Failure(BadStatus)
    case (Some(status), Some(epoch), Some(hex)) =>
      (match (ParseU64(epoch), HexDecode(hex, MAX_DETAIL_BYTES))
       case (Some(started), Some(detail)) => Success(Report(status, started, detail, [], [], None))
       case (None, _) => Failure(BadNumber)
       case _ => Failure(BadText))
    case _ => Failure(Malformed)
  }

  function ParseLines(lines: seq<string>): Result<Report, Problem> {
    if |lines| < 3 then Failure(Malformed)
    else
      match ParseHead(lines)
      case Failure(problem) => Failure(problem)
      case Success(head) => TakeLines(head, lines[3..])
  }

  function Parse(payload: string): Result<Report, Problem> {
    if |payload| > MAX_PAYLOAD then Failure(TooLarge)
    else if !Terminated(payload) then Failure(Malformed)
    else ParseLines(Lines(payload))
  }

  // ----- what is accepted ---------------------------------------------------------------------

  predicate StepOk(s: StepResult) {
    -MAX_EXIT <= s.exitCode <= MAX_EXIT && |s.name| <= MAX_LABEL_BYTES
  }

  predicate OutputOk(o: Output) {
    ValidArtifactName(o.name) && o.retentionDays <= MAX_RETENTION_DAYS && |o.note| <= MAX_LABEL_BYTES
  }

  /** What every report that parses is like. */
  predicate Parses(r: Report) {
    && !Active(r.status) && |r.detail| <= MAX_DETAIL_BYTES
    && |r.steps| <= MAX_STEPS && |r.outputs| <= MAX_JOBS
    && (forall i | 0 <= i < |r.steps| :: StepOk(r.steps[i]))
    && (forall i | 0 <= i < |r.outputs| :: OutputOk(r.outputs[i]))
    && (r.execution.Some? ==> E.Printable(r.execution.value))
  }

  lemma StepIsOk(text: string)
    ensures ParseStep(text).Some? ==> StepOk(ParseStep(text).value)
  {
    hide Split, ParseU64, HexBytes;
    if ParseStep(text).Some? {
      ShortText(Split(text, ',')[3]);
    }
  }

  lemma OutputIsOk(text: string)
    ensures ParseOutput(text).Some? ==> OutputOk(ParseOutput(text).value)
  {
    hide Split, ParseU64, HexBytes, ValidArtifactName;
    if ParseOutput(text).Some? {
      ShortText(Split(text, ',')[3]);
    }
  }

  lemma ShortText(field: string)
    ensures FromHexOrDash(field, MAX_LABEL_BYTES).Some? ==>
              |FromHexOrDash(field, MAX_LABEL_BYTES).value| <= MAX_LABEL_BYTES
  {
    var decoded := HexDecode(field, MAX_LABEL_BYTES);
    if decoded.Some? {
      HexRoundTrip(field, decoded.value, MAX_LABEL_BYTES);
    }
  }

  lemma ExecutionIsOk(text: string)
    ensures E.Parse(text).Success? ==> E.Printable(E.Parse(text).value)
  {
    hide Split, ParseU64;
  }

  lemma TakenIsOk(r: Report, line: string)
    requires Parses(r) && TakeLine(r, line).Success?
    ensures Parses(TakeLine(r, line).value)
  {
    hide ParseStep, ParseOutput, StepOk, OutputOk, E.Parse, E.Printable;
    match After(line, "execution=") {
      case Some(text) => ExecutionIsOk(text);
      case None =>
        match After(line, "step=") {
          case Some(text) => StepIsOk(text);
          case None =>
            match After(line, "output=") {
              case Some(text) => OutputIsOk(text);
              case None =>
            }
        }
    }
  }

  lemma {:induction false} AllTakenIsOk(r: Report, lines: seq<string>)
    requires Parses(r) && TakeLines(r, lines).Success?
    ensures Parses(TakeLines(r, lines).value)
    decreases |lines|
  {
    hide TakeLine, Parses;
    if lines != [] {
      TakenIsOk(r, lines[0]);
      AllTakenIsOk(TakeLine(r, lines[0]).value, lines[1..]);
    }
  }

  lemma HeadIsOk(lines: seq<string>)
    requires |lines| >= 3 && ParseHead(lines).Success?
    ensures Parses(ParseHead(lines).value)
  {
    hide After, ParseU64, HexBytes, StatusFromName;
    var hex := After(lines[2], "detail_hex=").value;
    HexRoundTrip(hex, HexDecode(hex, MAX_DETAIL_BYTES).value, MAX_DETAIL_BYTES);
  }

  /** Whatever text the guest sends, a report that comes out of it is within these bounds. */
  lemma ParsedIsOk(payload: string)
    requires Parse(payload).Success?
    ensures Parses(Parse(payload).value)
  {
    hide Parses, ParseHead, TakeLines, Lines;
    var lines := Lines(payload);
    HeadIsOk(lines);
    AllTakenIsOk(ParseHead(lines).value, lines[3..]);
  }

  // ----- what is printed parses back ------------------------------------------------------------

  lemma AfterKey(key: string, text: string)
    ensures After(key + text, key) == Some(text)
  {
  }

  lemma ExitParses(e: I32)
    requires -MAX_EXIT <= e <= MAX_EXIT
    ensures ParseExit(Signed(e)) == Some(e)
  {
    var magnitude: nat := if e < 0 then 0 - e else e;
    NumberRoundTrip(Decimal(magnitude), magnitude);
    assert IsDigit(Decimal(magnitude)[0]);
    if e < 0 {
      assert Signed(e)[1..] == Decimal(magnitude);
    }
  }

  lemma FlagReads(b: bool)
    ensures (Flag(b) == "1") == b && Free(Flag(b), ',') && Free(Flag(b), '\n')
  {
  }

  lemma StepPartsFree(s: StepResult, c: char)
    requires c in [',', '\n']
    ensures AllFree(StepParts(s), c)
  {
    SignedFree(s.exitCode, c);
    HexOrDashFree(s.name, c);
    FlagReads(s.timedOut);
    FlagReads(s.truncated);
    hide Signed, HexOrDash, Flag;
  }

  lemma StepParses(s: StepResult)
    requires StepOk(s)
    ensures ParseStep(Join(StepParts(s), ',')) == Some(s)
  {
    StepPartsFree(s, ',');
    ExitParses(s.exitCode);
    FromHexOrDashInverse(s.name, MAX_LABEL_BYTES);
    FlagReads(s.timedOut);
    FlagReads(s.truncated);
    hide Signed, HexOrDash, Flag, Split, Join, ParseExit, FromHexOrDash;
    SplitJoin(StepParts(s), ',');
  }

  lemma OutputPartsFree(o: Output, c: char)
    requires c in [',', '\n'] && OutputOk(o)
    ensures AllFree(OutputParts(o), c)
  {
    DecimalFree(o.retentionDays, c);
    HexOrDashFree(o.note, c);
    FlagReads(o.release);
    hide Decimal, HexOrDash, Flag;
    assert Free(o.name, c);
  }

  lemma OutputOfParts(o: Output)
    requires OutputOk(o)
    ensures |OutputParts(o)| == 4 && OutputOf(OutputParts(o)) == Some(o)
  {
    NumberRoundTrip(Decimal(o.retentionDays), o.retentionDays);
    FromHexOrDashInverse(o.note, MAX_LABEL_BYTES);
    FlagReads(o.release);
    assert ParseU64(Decimal(o.retentionDays)) == Some(o.retentionDays);
    assert o.retentionDays % U32_LIMIT == o.retentionDays && ValidArtifactName(o.name);
    hide Decimal, HexOrDash, Flag, ParseU64, FromHexOrDash, ValidArtifactName;
  }

  lemma OutputParses(o: Output)
    requires OutputOk(o)
    ensures ParseOutput(Join(OutputParts(o), ',')) == Some(o)
  {
    OutputPartsFree(o, ',');
    OutputOfParts(o);
    hide Split, Join, OutputOf, OutputParts;
    SplitJoin(OutputParts(o), ',');
  }

  /** The key of a line tells what it is. */
  lemma Keys(text: string)
    ensures After("execution=" + text, "execution=") == Some(text)
    ensures After("step=" + text, "execution=") == None && After("step=" + text, "step=") == Some(text)
    ensures After("output=" + text, "execution=") == None && After("output=" + text, "step=") == None
    ensures After("output=" + text, "output=") == Some(text)
  {
    AfterKey("execution=", text);
    AfterKey("step=", text);
    AfterKey("output=", text);
    assert ("step=" + text)[0] == 's' && ("output=" + text)[0] == 'o' && "execution="[0] == 'e' && "step="[0] == 's';
    assert |"step=" + text| >= 10 ==> ("step=" + text)[..10][0] == 's';
    assert |"output=" + text| >= 10 ==> ("output=" + text)[..10][0] == 'o';
    assert ("output=" + text)[..5][0] == 'o';
  }

  lemma StepLineTaken(r: Report, s: StepResult)
    requires StepOk(s) && |r.steps| < MAX_STEPS
    ensures TakeLine(r, StepLine(s)) == Success(r.(steps := r.steps + [s]))
  {
    assert |StepParts(s)| == 4;
    hide After, ParseStep, Join, StepParts, TakeOutput, TakeExecution;
    Keys(Join(StepParts(s), ','));
    StepParses(s);
  }

  lemma OutputLineTaken(r: Report, o: Output)
    requires OutputOk(o) && |r.outputs| < MAX_JOBS
    ensures TakeLine(r, OutputLine(o)) == Success(r.(outputs := r.outputs + [o]))
  {
    assert |OutputParts(o)| == 4;
    hide After, ParseOutput, Join, OutputParts, TakeStep, TakeExecution;
    Keys(Join(OutputParts(o), ','));
    OutputParses(o);
  }

  lemma ExecutionTaken(r: Report, e: E.Report)
    requires E.Printable(e) && r.execution.None?
    ensures TakeLine(r, "execution=" + Join(E.Parts(e), ',')) == Success(r.(execution := Some(e)))
  {
    assert |E.Parts(e)| == E.FIELDS;
    hide After, E.Parse, Join, E.Parts, TakeStep, TakeOutput, E.Printable;
    Keys(Join(E.Parts(e), ','));
    ExecutionParses(e);
  }

  lemma ExecutionParses(e: E.Report)
    requires E.Printable(e)
    ensures E.Format(e).Success? && E.Parse(Join(E.Parts(e), ',')) == Success(e)
  {
    E.FormatSucceeds(e);
    hide E.Parse, Join, E.Parts, E.Printable;
    E.FormatParsesBack(e);
  }

  lemma {:induction false} StepsTaken(r: Report, steps: seq<StepResult>, more: seq<string>)
    requires |r.steps| + |steps| <= MAX_STEPS && forall i | 0 <= i < |steps| :: StepOk(steps[i])
    ensures TakeLines(r, StepLines(steps) + more) == TakeLines(r.(steps := r.steps + steps), more)
    decreases |steps|
  {
    hide TakeLine, StepLine, StepOk;
    if steps == [] {
      assert StepLines(steps) + more == more && r.steps + steps == r.steps;
    } else {
      var all, next := StepLines(steps) + more, r.(steps := r.steps + [steps[0]]);
      assert all[0] == StepLine(steps[0]) && all[1..] == StepLines(steps[1..]) + more;
      StepLineTaken(r, steps[0]);
      StepsTaken(next, steps[1..], more);
      assert next.steps + steps[1..] == r.steps + steps;
    }
  }

  lemma {:induction false} OutputsTaken(r: Report, outputs: seq<Output>)
    requires |r.outputs| + |outputs| <= MAX_JOBS && forall i | 0 <= i < |outputs| :: OutputOk(outputs[i])
    ensures TakeLines(r, OutputLines(outputs)) == Success(r.(outputs := r.outputs + outputs))
    decreases |outputs|
  {
    hide TakeLine, OutputLine, OutputOk;
    if outputs == [] {
      assert r.outputs + outputs == r.outputs;
    } else {
      var all, next := OutputLines(outputs), r.(outputs := r.outputs + [outputs[0]]);
      assert all[0] == OutputLine(outputs[0]) && all[1..] == OutputLines(outputs[1..]);
      OutputLineTaken(r, outputs[0]);
      hide MAX_JOBS;
      OutputsTaken(next, outputs[1..]);
      assert next.outputs + outputs[1..] == r.outputs + outputs;
    }
  }

  lemma HeadParses(r: Report, more: seq<string>)
    requires Parses(r)
    ensures ParseHead(HeadLines(r) + more) == Success(Report(r.status, r.startedEpoch, r.detail, [], [], None))
  {
    var lines := HeadLines(r) + more;
    assert lines[0] == HeadLines(r)[0] && lines[1] == HeadLines(r)[1] && lines[2] == HeadLines(r)[2];
    NumberRoundTrip(Decimal(r.startedEpoch), r.startedEpoch);
    assert ParseU64(Decimal(r.startedEpoch)) == Some(r.startedEpoch);
    hide Decimal, HexEncode, HexDecode, StatusName, StatusFromName, After, ParseU64;
    AfterKey("status=", StatusName(r.status));
    AfterKey("started_epoch=", Decimal(r.startedEpoch));
    AfterKey("detail_hex=", HexEncode(r.detail));
    StatusIff(StatusName(r.status), r.status);
    HexRoundTrip(HexEncode(r.detail), r.detail, MAX_DETAIL_BYTES);
  }

  /** The lines of a report within its bounds read as that report. */
  lemma PrintedLinesParse(r: Report)
    requires Parses(r)
    ensures ParseLines(LinesOf(r)) == Success(r)
  {
    hide ParseHead, TakeLine, HeadLines, StepLines, OutputLines, StepOk, OutputOk, E.Parts, E.Printable, Join;
    var head := Report(r.status, r.startedEpoch, r.detail, [], [], None);
    var tail := StepLines(r.steps) + OutputLines(r.outputs);
    var rest := ExecutionLines(r.execution) + tail;
    ThreeLines(r);
    HeadParses(r, rest);
    assert LinesOf(r)[3..] == rest;
    var begun := head.(execution := r.execution);
    assert TakeLines(head, rest) == TakeLines(begun, tail) by {
      if r.execution.Some? {
        ExecutionTaken(head, r.execution.value);
        assert rest[1..] == tail;
      } else {
        assert rest == tail;
      }
    }
    StepsTaken(begun, r.steps, OutputLines(r.outputs));
    assert [] + r.steps == r.steps && [] + r.outputs == r.outputs;
    OutputsTaken(begun.(steps := r.steps), r.outputs);
  }

  lemma ThreeLines(r: Report)
    ensures |HeadLines(r)| == 3
  {
  }

  lemma KeyedFree(key: string, text: string, c: char)
    requires Free(key, c) && Free(text, c)
    ensures Free(key + text, c)
  {
  }

  lemma HeadLinesFree(r: Report)
    ensures AllFree(HeadLines(r), '\n')
  {
    DecimalFree(r.startedEpoch, '\n');
    assert Free(HexEncode(r.detail), '\n');
    assert Free(StatusName(r.status), '\n');
    hide Decimal, HexEncode, StatusName;
    KeyedFree("status=", StatusName(r.status), '\n');
    KeyedFree("started_epoch=", Decimal(r.startedEpoch), '\n');
    KeyedFree("detail_hex=", HexEncode(r.detail), '\n');
  }

  lemma StepLineFree(s: StepResult)
    ensures Free(StepLine(s), '\n')
  {
    StepPartsFree(s, '\n');
    assert |StepParts(s)| == 4;
    hide StepParts, Join;
    JoinFree(StepParts(s), ',', '\n');
    KeyedFree("step=", Join(StepParts(s), ','), '\n');
  }

  lemma OutputLineFree(o: Output)
    requires OutputOk(o)
    ensures Free(OutputLine(o), '\n')
  {
    OutputPartsFree(o, '\n');
    assert |OutputParts(o)| == 4;
    hide OutputParts, Join;
    JoinFree(OutputParts(o), ',', '\n');
    KeyedFree("output=", Join(OutputParts(o), ','), '\n');
  }

  lemma {:induction false} StepLinesFree(steps: seq<StepResult>)
    ensures AllFree(StepLines(steps), '\n')
  {
    hide StepLine;
    if steps != [] {
      StepLineFree(steps[0]);
      StepLinesFree(steps[1..]);
    }
  }

  lemma {:induction false} OutputLinesFree(outputs: seq<Output>)
    requires forall i | 0 <= i < |outputs| :: OutputOk(outputs[i])
    ensures AllFree(OutputLines(outputs), '\n')
  {
    hide OutputLine, OutputOk;
    if outputs != [] {
      OutputLineFree(outputs[0]);
      OutputLinesFree(outputs[1..]);
    }
  }

  lemma ExecutionLinesFree(execution: Option<E.Report>)
    requires execution.Some? ==> E.Printable(execution.value)
    ensures AllFree(ExecutionLines(execution), '\n')
  {
    if execution.Some? {
      E.PrintableFree(execution.value, '\n');
      assert |E.Parts(execution.value)| == E.FIELDS;
      hide E.Parts, E.Printable, Join;
      JoinFree(E.Parts(execution.value), ',', '\n');
      KeyedFree("execution=", Join(E.Parts(execution.value), ','), '\n');
    }
  }

  lemma LinesFree(r: Report)
    requires Parses(r)
    ensures AllFree(LinesOf(r), '\n')
  {
    hide HeadLines, ExecutionLines, StepLines, OutputLines, StepOk, OutputOk, E.Printable;
    HeadLinesFree(r);
    ExecutionLinesFree(r.execution);
    StepLinesFree(r.steps);
    OutputLinesFree(r.outputs);
    AllFreeAppend(StepLines(r.steps), OutputLines(r.outputs), '\n');
    AllFreeAppend(ExecutionLines(r.execution), StepLines(r.steps) + OutputLines(r.outputs), '\n');
    AllFreeAppend(HeadLines(r), ExecutionLines(r.execution) + (StepLines(r.steps) + OutputLines(r.outputs)), '\n');
  }

  /** A printed report parses back to itself exactly when it is within the bounds and the payload limit. */
  lemma PrintParsesIff(r: Report)
    requires Print(r).Some?
    ensures Parse(Print(r).value) == Success(r) <==> Parses(r) && |Print(r).value| <= MAX_PAYLOAD
  {
    hide LinesOf, Unlines, Lines, ParseLines, Parses, E.Format;
    var text := Print(r).value;
    if Parse(text) == Success(r) {
      ParsedIsOk(text);
    }
    if Parses(r) {
      LinesFree(r);
      LinesUnlines(LinesOf(r));
      PrintedLinesParse(r);
    }
  }

  /** Every report within the bounds can be printed. */
  lemma ParsesPrints(r: Report)
    requires Parses(r)
    ensures Print(r).Some? && Print(r).value != ""
  {
    if r.execution.Some? {
      ExecutionParses(r.execution.value);
    }
    ThreeLines(r);
    hide HeadLines, ExecutionLines, StepLines, OutputLines, StepOk, OutputOk, E.Printable, E.Format;
  }

  // ----- how long a report is -----------------------------------------------------------------

  /** A step that ended well takes 12 bytes and twice its name. */
  lemma StepLength(s: StepResult)
    requires s.exitCode == 0 && s.name != []
    ensures |StepLine(s)| + 1 == 12 + 2 * |s.name|
  {
    assert Signed(0) == "0";
    assert |HexOrDash(s.name)| == 2 * |s.name|;
    hide HexOrDash, Signed;
    var p := StepParts(s);
    assert Join(p, ',') == p[0] + [','] + Join(p[1..], ',');
    assert Join(p[1..], ',') == p[1] + [','] + Join(p[1..][1..], ',');
    assert p[1..][1..] == p[2..];
    assert Join(p[2..], ',') == p[2] + [','] + Join(p[2..][1..], ',');
    assert p[2..][1..] == [p[3]];
    assert Join([p[3]], ',') == p[3];
  }

  lemma {:induction false} StepsLength(steps: seq<StepResult>, width: nat)
    requires width > 0 && forall i | 0 <= i < |steps| :: steps[i].exitCode == 0 && |steps[i].name| == width
    ensures |Unlines(StepLines(steps))| == (12 + 2 * width) * |steps|
    decreases |steps|
  {
    hide StepLine;
    if steps != [] {
      StepLength(steps[0]);
      StepsLength(steps[1..], width);
      UnlinesCons(StepLine(steps[0]), StepLines(steps[1..]));
      assert (12 + 2 * width) * |steps| == (12 + 2 * width) + (12 + 2 * width) * (|steps| - 1);
    }
  }

  /** So many steps under names of one length make a report at least this long. */
  lemma LongReport(r: Report, width: nat)
    requires Print(r).Some? && width > 0
    requires forall i | 0 <= i < |r.steps| :: r.steps[i].exitCode == 0 && |r.steps[i].name| == width
    ensures |Print(r).value| >= (12 + 2 * width) * |r.steps|
  {
    StepsLength(r.steps, width);
    hide HeadLines, ExecutionLines, StepLines, OutputLines, Unlines, E.Format;
    UnlinesAppend(StepLines(r.steps), OutputLines(r.outputs));
    UnlinesAppend(ExecutionLines(r.execution), StepLines(r.steps) + OutputLines(r.outputs));
    UnlinesAppend(HeadLines(r), ExecutionLines(r.execution) + (StepLines(r.steps) + OutputLines(r.outputs)));
  }
}
