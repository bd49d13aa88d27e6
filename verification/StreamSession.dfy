/**
 One live stream of a runner into its run record and step logs: the gateway's
 StreamSession as a machine on values, and as the object that updates itself.

 What the session cannot decide is in Env: whether the n-th lease renewal succeeds, how
 many bytes the disk takes when the n-th frame is written, and what the clock says then.
 */
module StreamSession {
  import opened Wrappers
  import opened Text
  import opened Records
  import ExecutionReport

  const MAX_HEADER := 4096
  const MAX_LOG_FRAME := 0x1_0000
  const MAX_NAME := 256

  datatype Env = Env(
    maxLog: U64,
    renews: nat -> bool,
    accepts: nat -> Option<nat>,  // None: the log file cannot be opened
    clock: nat -> U64)

  /** No write to a log falls short. */
  ghost predicate WritesComplete(env: Env) {
    forall n: nat :: env.accepts(n).Some? && env.accepts(n).value >= MAX_LOG_FRAME
  }

  datatype Record = Record(
    status: RunStatus, started: U64, finished: U64, detail: Bytes, steps: seq<StepResult>,
    execution: Option<ExecutionReport.Report>)

  datatype Reply = Held(index: nat, bytes: nat) | Ack(index: nat, bytes: nat) | Cancel | LeaseLost

  /** Logs hold the files that exist; `frames` counts the frames taken so far. */
  datatype Session = Session(record: Record, logs: map<nat, string>, replies: seq<Reply>, frames: nat)

  datatype Problem =
    | HeaderTooLong | MalformedLog | MalformedNumber | FrameTooLarge | UnknownStep | CannotOpenLog
    | MalformedReport | MalformedName | MalformedProgress | UnknownFrame

  /** A complete frame: a line's tokens, or a log header with its payload. */
  datatype Frame = Line(tokens: seq<string>) | Log(index: nat, offset: nat, bytes: string)

  datatype Outcome = Continue(s: Session) | Stop(s: Session) | Throw(s: Session, problem: Problem)

  // ----- log frames -----------------------------------------------------------------

  function LogOf(logs: map<nat, string>, index: nat): string {
    if index in logs then logs[index] else ""
  }

  /** The part of a frame that is not held yet and still fits under the cap. */
  function Fresh(maxLog: nat, size: nat, offset: nat, bytes: string): string
    requires offset <= size
  {
    var skip := size - offset;
    if skip < |bytes| && size < maxLog then
      var news := bytes[skip..];
      if size + |news| > maxLog then news[..maxLog - size] else news
    else ""
  }

  /** True when the session opens the log file for this frame. */
  predicate Opens(maxLog: nat, size: nat, offset: nat, bytes: string) {
    offset <= size && size - offset < |bytes| && size < maxLog
  }

  function Max(a: nat, b: nat): nat {
    if a >= b then a else b
  }

  function AppendLog(env: Env, s: Session, index: nat, offset: nat, bytes: string): Outcome {
    if index > |s.record.steps| || index > MAX_STEPS then Throw(s, UnknownStep)
    else
      var log := LogOf(s.logs, index);
      if offset > |log| then Continue(s.(replies := s.replies + [Held(index, |log|)], frames := s.frames + 1))
      else if !Opens(env.maxLog, |log|, offset, bytes) then
        Continue(s.(replies := s.replies + [Ack(index, Max(|log|, offset + |bytes|))], frames := s.frames + 1))
      else
        match env.accepts(s.frames)
        case None => Throw(s, CannotOpenLog)
        case Some(room) =>
          var news := Fresh(env.maxLog, |log|, offset, bytes);
          var stored := log + if room < |news| then news[..room] else news;
          Continue(s.(logs := s.logs[index := stored],
                      replies := s.replies + [Ack(index, Max(|stored|, offset + |bytes|))],
                      frames := s.frames + 1))
  }

  // ----- line frames ------------------------------------------------------------------

  /** static_cast<int> of a 64-bit value. */
  function Truncated(n: int): I32 {
    var low := n % 0x1_0000_0000;
    if low < I32_LIMIT then low else low - 0x1_0000_0000
  }

  /** An exit code with an optional sign; a value that does not fit is truncated, not refused. */
  function ExitCode(text: string): Option<I32> {
    var negative := |text| > 0 && text[0] == '-';
    match ParseU64(if negative then text[1..] else text)
    case None => None
    case Some(n) => Some(if negative then Truncated(0 - Truncated(n)) else Truncated(n))
  }

  function StepEnd(tokens: seq<string>): Result<StepResult, Problem>
    requires |tokens| == 6
  {
    match ExitCode(tokens[2])
    case None => Failure(MalformedNumber)
    case Some(code) =>
      match FromHexOrDash(tokens[5], MAX_NAME)
      case None => Failure(MalformedName)
      case Some(name) => Success(StepResult(name, code, tokens[3] == "1", tokens[4] == "1"))
  }

  function Took(s: Session, record: Record): Outcome {
    Continue(s.(record := record, frames := s.frames + 1))
  }

  function OnStarted(env: Env, s: Session, token: string): Outcome {
    match ParseU64(token)
    case None => Throw(s, MalformedNumber)
    case Some(n) =>
      Took(s, s.record.(status := Running, started := if n != 0 then n else env.clock(s.frames), finished := 0))
  }

  function OnExecution(s: Session, token: string): Outcome {
    if token == "-" then Took(s, s.record.(execution := None))
    else
      match ExecutionReport.Parse(token)
      case Success(report) => Took(s, s.record.(execution := Some(report)))
      case Failure(_) => Throw(s, MalformedReport)
  }

  function OnStepStart(s: Session, token: string): Outcome {
    match ParseU64(token)
    case None => Throw(s, MalformedNumber)
    case Some(index) =>
      if index == |s.record.steps|
      then Continue(s.(record := s.record.(status := Running), logs := s.logs[index := LogOf(s.logs, index)],
                       frames := s.frames + 1))
      else Took(s, s.record)
  }

  function OnStepEnd(s: Session, tokens: seq<string>): Outcome
    requires |tokens| == 6
  {
    match ParseU64(tokens[1])
    case None => Throw(s, MalformedNumber)
    case Some(index) =>
      if index == |s.record.steps| && index < MAX_STEPS then
        match StepEnd(tokens)
        case Success(step) => Took(s, s.record.(steps := s.record.steps + [step]))
        case Failure(problem) => Throw(s, problem)
      else Took(s, s.record)
  }

  function OnProgress(s: Session, token: string): Outcome {
    match FromHexOrDash(token, MAX_DETAIL_BYTES)
    case None => Throw(s, MalformedProgress)
    case Some(detail) => Took(s, s.record.(detail := detail))
  }

  function ApplyLine(env: Env, s: Session, tokens: seq<string>): Outcome
    requires |tokens| > 0
  {
    if tokens[0] == "started" && |tokens| == 2 then OnStarted(env, s, tokens[1])
    else if tokens[0] == "execution" && |tokens| == 2 then OnExecution(s, tokens[1])
    else if tokens[0] == "step-start" && |tokens| == 3 then OnStepStart(s, tokens[1])
    else if tokens[0] == "step-end" && |tokens| == 6 then OnStepEnd(s, tokens)
    else if tokens[0] == "heartbeat" && |tokens| == 1 then
      (if env.renews(s.frames) then Took(s, s.record)
       else Stop(s.(replies := s.replies + [LeaseLost], frames := s.frames + 1)))
    else if tokens[0] == "progress" && |tokens| == 2 then OnProgress(s, tokens[1])
    else Throw(s, UnknownFrame)
  }

  function Apply(env: Env, s: Session, f: Frame): Outcome
    requires f.Line? ==> |f.tokens| > 0
  {
    match f
    case Line(tokens) => ApplyLine(env, s, tokens)
    case Log(index, offset, bytes) => AppendLog(env, s, index, offset, bytes)
  }

  // ----- bytes into frames ------------------------------------------------------------

  /** The frame at the front of a buffer, how many bytes it takes, and whether more are needed. */
  datatype Front = Complete(f: Frame, size: nat) | Partial | Bad(problem: Problem)

  function LogFront(buffer: string, newline: nat, tokens: seq<string>): (r: Front)
    requires newline < |buffer|
    ensures r.Complete? ==> newline < r.size <= |buffer| && r.f.Log?
  {
    if |tokens| != 4 then Bad(MalformedLog)
    else
      match ParseU64(tokens[3])
      case None => Bad(MalformedNumber)
      case Some(length) =>
        if length > MAX_LOG_FRAME then Bad(FrameTooLarge)
        else if |buffer| < newline + 1 + length then Partial
        else
          match (ParseU64(tokens[1]), ParseU64(tokens[2]))
          case (Some(index), Some(offset)) =>
            Complete(Log(index, offset, buffer[newline + 1..newline + 1 + length]), newline + 1 + length)
          case _ => Bad(MalformedNumber)
  }

  function FrontOf(buffer: string): (r: Front)
    ensures r.Complete? ==> 0 < r.size <= |buffer| && (r.f.Line? ==> |r.f.tokens| > 0)
  {
    var newline := Find(buffer, '\n');
    if newline == |buffer| then (if |buffer| > MAX_HEADER then Bad(HeaderTooLong) else Partial)
    else
      var tokens := Split(buffer[..newline], ' ');
      if tokens[0] == "log" then LogFront(buffer, newline, tokens) else Complete(Line(tokens), newline + 1)
  }

  /** After a buffer: waiting for more with the bytes left over, or over. */
  datatype Drained = Waiting(s: Session, rest: string) | Ended(s: Session) | Broken(s: Session, problem: Problem)

  function Drain(env: Env, s: Session, buffer: string): Drained
    decreases |buffer|
  {
    match FrontOf(buffer)
    case Partial => Waiting(s, buffer)
    case Bad(problem) => Broken(s, problem)
    case Complete(f, size) =>
      match Apply(env, s, f)
      case Continue(next) => Drain(env, next, buffer[size..])
      case Stop(last) => Ended(last)
      case Throw(last, problem) => Broken(last, problem)
  }
}
