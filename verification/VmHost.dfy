/**
 The host end of the VM result protocol, as a machine that takes one guest frame at a
 time. The guest is not trusted: any frame may come at any time. Each arrival carries
 the answer the runner's sink gives if the frame ends in an acknowledgement.
 */
module VmHost {
  import opened Wrappers
  import opened Text
  import opened Records
  import opened SinkOrder
  import F = FinishReport

  const CHUNK_MAX := 0x1_0000
  const CONTROL_MAX := 256 * 1024
  const MAX_STEPS_PER_JOB := 128

  /** The payload of a Done frame: none, a finish report, or bytes no report parses from. */
  datatype Terminal = Empty | Finish(report: F.Report) | Malformed

  /** What the host reads in the payload of a Done frame. */
  function Content(payload: string): Terminal {
    if payload == "" then Empty
    else
      match F.Parse(payload)
      case Success(report) => Finish(report)
      case Failure(_) => Malformed
  }

  datatype Frame =
    | Event(text: string)
    | Chunk(bytes: string)
    | Done(content: Terminal)
    | Error(text: string)
    | Other

  datatype Reply = Ok | Cancel | LeaseLost

  /** A guest frame, and what an acknowledgement of it would say. */
  datatype Arrival = Arrival(frame: Frame, verdict: Reply)

  datatype Record = Record(status: RunStatus, startedEpoch: U64, detail: Bytes, steps: seq<StepResult>)

  /** Accounting of guest output: the value of a CiVmOutputGuard. */
  datatype Guard = Guard(logs: seq<nat>, put: seq<bool>, left: nat, open: bool)

  datatype Mode =
    | AtEvent
    | AwaitLog
    | InArtifact(artifact: Artifact, left: nat, received: string)
    | InPages(left: nat, received: string)

  datatype Host = Host(
    record: Record, started: bool, active: bool, pages: bool, cancelSent: bool,
    outputs: seq<Output>, guard: Guard, mode: Mode, calls: seq<Call>, replies: seq<Reply>)

  datatype Step = More(h: Host) | Returned(h: Host, record: Record) | Broken(h: Host)

  const LATE_CANCEL: string := "cancelled before the VM result was committed"

  // ----- the guard ----------------------------------------------------------------

  predicate Guardable(a: Assignment) {
    |a.jobs| <= F.MAX_JOBS && forall j | 0 <= j < |a.jobs| :: |a.jobs[j].steps| <= MAX_STEPS_PER_JOB
  }

  function NewGuard(a: Assignment): Guard {
    Guard(seq(|StepNames(a.jobs)|, _ => 0), seq(|a.jobs|, _ => false), 0, false)
  }

  function GuardLog(a: Assignment, g: Guard, step: nat, bytes: nat): Option<Guard> {
    if step >= |g.logs| || bytes > CHUNK_MAX || bytes > a.maxLog - g.logs[step] then None
    else Some(g.(logs := g.logs[step := g.logs[step] + bytes]))
  }

  function GuardBegin(a: Assignment, g: Guard, job: nat, size: nat): Option<Guard>
    requires |g.put| == |a.jobs|
  {
    if g.open || job >= |g.put| || g.put[job] || a.jobs[job].artifact.None? || size > a.maxArtifact then None
    else Some(g.(put := g.put[job := true], left := size, open := true))
  }

  function GuardChunk(g: Guard, bytes: nat): Option<Guard> {
    if !g.open || bytes == 0 || bytes > CHUNK_MAX || bytes > g.left then None
    else Some(g.(left := g.left - bytes))
  }

  function GuardEnd(g: Guard): Option<Guard> {
    if !g.open || g.left != 0 then None else Some(g.(open := false))
  }

  // ----- event text ----------------------------------------------------------------

  /** Space-separated fields, none of them empty. */
  function Fields(text: string): Option<seq<string>> {
    if text == "" then Some([])
    else
      var parts := Split(text, ' ');
      if "" in parts then None else Some(parts)
  }

  /** A signed number in the only spelling std::to_string gives it. */
  function ExitCode(text: string): Option<I32> {
    match ParseI32(text)
    case Some(n) => if Signed(n) == text then Some(n) else None
    case None => None
  }

  /** Free text in the only spelling hexOrDash gives it. */
  function Unhex(text: string): Option<Bytes> {
    match FromHexOrDash(text, MAX_DETAIL_BYTES)
    case Some(b) => if HexOrDash(b) == text then Some(b) else None
    case None => None
  }

  // ----- one frame -----------------------------------------------------------------

  function Start(a: Assignment): Host {
    Host(Record(Running, 0, [], []), false, false, false, false, [], NewGuard(a), AtEvent, [], [])
  }

  /** Tells the guest that its request was taken, that it must stop, or that the lease is gone. */
  function Ack(h: Host, verdict: Reply): Step {
    var told := h.(replies := h.replies + [verdict], cancelSent := h.cancelSent || verdict.Cancel?);
    if verdict.LeaseLost? then Broken(h.(replies := h.replies + [verdict])) else More(told)
  }

  /** The sink is called, then the guest is answered. */
  function Deliver(h: Host, c: Call, verdict: Reply): Step {
    Ack(h.(calls := h.calls + [c]), verdict)
  }

  predicate LastGood(steps: seq<StepResult>) {
    steps == [] || Good(steps[|steps| - 1])
  }

  function OnStarted(h: Host, part: seq<string>, verdict: Reply): Step
    requires |part| == 2
  {
    match ParseNumber(part[1])
    case None => Broken(h)
    case Some(epoch) =>
      if epoch == 0 then Broken(h)
      else Deliver(h.(record := h.record.(startedEpoch := epoch), started := true), RunStarted(epoch), verdict)
  }

  function OnStepStart(a: Assignment, h: Host, part: seq<string>, verdict: Reply): Step
    requires |part| == 2
  {
    if ParseNumber(part[1]) == Some(|h.record.steps|) && |h.record.steps| < |StepNames(a.jobs)| &&
       LastGood(h.record.steps)
    then Deliver(h.(active := true), StepStarted(|h.record.steps|), verdict)
    else Broken(h)
  }

  function OnStepEnd(a: Assignment, h: Host, part: seq<string>, verdict: Reply): Step
    requires |part| == 6
  {
    var index := |h.record.steps|;
    if ParseNumber(part[1]) != Some(index) || part[3] !in ["0", "1"] || part[4] !in ["0", "1"] then Broken(h)
    else
      match (Unhex(part[5]), ExitCode(part[2]))
      case (Some(name), Some(code)) =>
        var result := StepResult(name, code, part[3] == "1", part[4] == "1");
        if index >= |StepNames(a.jobs)| || name != StepNames(a.jobs)[index] then Broken(h)
        else Deliver(h.(record := h.record.(steps := h.record.steps + [result]), active := false),
                     StepFinished(index, result), verdict)
      case _ => Broken(h)
  }

  function OnProgress(h: Host, text: string, verdict: Reply): Step {
    match Unhex(text)
    case None => Broken(h)
    case Some(detail) => Deliver(h.(record := h.record.(detail := detail)), Progress(detail), verdict)
  }

  function OnArtifact(a: Assignment, h: Host, part: seq<string>, verdict: Reply): Step
    requires |part| == 4
    requires |h.guard.put| == |a.jobs|
  {
    match (ParseNumber(part[1]), ParseNumber(part[2]), Unhex(part[3]))
    case (Some(job), Some(size), Some(note)) =>
      (match GuardBegin(a, h.guard, job, size)
       case None => Broken(h)
       case Some(begun) =>
         var steps, last: nat := h.record.steps, job;
         var artifact := a.jobs[job].artifact.value;
         if steps == [] || |steps| < StepsThrough(a.jobs, last + 1) || !LastGood(steps) then Broken(h)
         else if note != [] && size != 0 then Broken(h)
         else if note == [] then More(h.(guard := begun, mode := InArtifact(artifact, size, "")))
         else
           match GuardEnd(begun)
           case None => Broken(h)
           case Some(ended) => Publish(a, h.(guard := ended), artifact, "", note, verdict))
    case _ => Broken(h)
  }

  function Publish(a: Assignment, h: Host, artifact: Artifact, bundle: string, note: Bytes, verdict: Reply): Step {
    Deliver(h.(outputs := h.outputs + [Output(artifact.name, a.isRelease, artifact.retentionDays, note)]),
            PutArtifact(artifact, bundle, note, a.isRelease), verdict)
  }

  function OnPages(a: Assignment, h: Host, part: seq<string>): Step
    requires |part| == 2
  {
    var steps := h.record.steps;
    if !(|steps| == |StepNames(a.jobs)| && |StepNames(a.jobs)| > 0 && LastGood(steps)) then Broken(h)
    else
      match ParseNumber(part[1])
      case None => Broken(h)
      case Some(size) => if size > MAX_PAGES_ARCHIVE then Broken(h) else More(h.(mode := InPages(size, "")))
  }

  function OnEvent(a: Assignment, h: Host, text: string, verdict: Reply): Step
    requires |h.guard.put| == |a.jobs|
  {
    match Fields(text)
    case None => Broken(h)
    case Some(part) => if part == [] then Broken(h) else Dispatch(a, h, part, verdict)
  }

  function Dispatch(a: Assignment, h: Host, part: seq<string>, verdict: Reply): Step
    requires |h.guard.put| == |a.jobs| && part != []
  {
    if part[0] == "started" && |part| == 2 && !h.started then OnStarted(h, part, verdict)
    else if part[0] == "step-start" && |part| == 2 && h.started && !h.active then OnStepStart(a, h, part, verdict)
    else if part[0] == "log" && |part| == 2 && h.active then
      (if ParseNumber(part[1]) == Some(|h.record.steps|) then More(h.(mode := AwaitLog)) else Broken(h))
    else if part[0] == "step-end" && |part| == 6 && h.active then OnStepEnd(a, h, part, verdict)
    else if part[0] == "heartbeat" && |part| == 1 && h.started then Deliver(h, Heartbeat, verdict)
    else if part[0] == "poll" && |part| == 1 && h.started then Deliver(h, Tick, verdict)
    else if part[0] == "progress" && |part| == 2 && h.started then OnProgress(h, part[1], verdict)
    else if part[0] == "artifact" && |part| == 4 && h.started && !h.active then OnArtifact(a, h, part, verdict)
    else if part[0] == "pages" && |part| == 2 && h.started && !h.active && !h.pages &&
            a.isDefaultBranch && !a.isRelease && a.hasPages then OnPages(a, h, part)
    else Broken(h)
  }

  /** The terminal report repeats what the host accumulated, and claims success only if it was one. */
  predicate Consistent(a: Assignment, h: Host, report: F.Report) {
    && (h.cancelSent ==> report.status == Cancelled)
    && !h.active && !h.guard.open
    && (h.started ==> report.startedEpoch == h.record.startedEpoch)
    && report.steps == h.record.steps
    && report.outputs == h.outputs
    && (report.status == Succeeded ==>
          h.started && |h.record.steps| == |StepNames(a.jobs)| && AllGood(h.record.steps))
  }

  /** A report out of a payload is always within its bounds; see ContentParses. */
  function OnFinish(a: Assignment, h: Host, report: F.Report, verdict: Reply): Step {
    if !F.Parses(report) || !Consistent(a, h, report) then Broken(h)
    else
      var record := Record(report.status, report.startedEpoch, report.detail, h.record.steps);
      match Ack(h.(record := record), verdict)
      case More(told) =>
        if told.cancelSent && record.status != Cancelled
        then Returned(told, record.(status := Cancelled, detail := Raw(LATE_CANCEL)))
        else Returned(told, record)
      case other => other
  }

  lemma ContentParses(payload: string)
    ensures Content(payload).Finish? ==> F.Parses(Content(payload).report)
  {
    hide F.Parses, F.Parse;
    if F.Parse(payload).Success? {
      F.ParsedIsOk(payload);
    }
  }

  function OnArtifactFrame(a: Assignment, h: Host, f: Frame, verdict: Reply): Step
    requires h.mode.InArtifact?
  {
    if h.mode.left != 0 then
      match (f, GuardChunk(h.guard, if f.Chunk? then |f.bytes| else 0))
      case (Chunk(bytes), Some(guard)) =>
        // std::uint64_t subtraction, wrapping
        More(h.(guard := guard,
                mode := h.mode.(left := (h.mode.left - |bytes|) % U64_LIMIT, received := h.mode.received + bytes)))
      case _ => Broken(h)
    else
      match (f, GuardEnd(h.guard))
      case (Done(Empty), Some(guard)) =>
        Publish(a, h.(guard := guard, mode := AtEvent), h.mode.artifact, h.mode.received, [], verdict)
      case _ => Broken(h)
  }

  function OnPagesFrame(h: Host, f: Frame, verdict: Reply): Step
    requires h.mode.InPages?
  {
    if h.mode.left != 0 then
      if f.Chunk? && f.bytes != "" && |f.bytes| <= h.mode.left then
        More(h.(mode := InPages(h.mode.left - |f.bytes|, h.mode.received + f.bytes)))
      else Broken(h)
    else if f == Done(Empty) then
      Deliver(h.(pages := true, mode := AtEvent), PutPages(h.mode.received), verdict)
    else Broken(h)
  }

  function Next(a: Assignment, h: Host, arrival: Arrival): Step
    requires |h.guard.put| == |a.jobs|
  {
    var Arrival(f, verdict) := arrival;
    match h.mode
    case AtEvent =>
      (match f
       case Event(text) => OnEvent(a, h, text, verdict)
       case Done(Finish(report)) => OnFinish(a, h, report, verdict)
       case _ => Broken(h))
    case AwaitLog =>
      (match (f, GuardLog(a, h.guard, |h.record.steps|, if f.Chunk? then |f.bytes| else 0))
       case (Chunk(bytes), Some(guard)) =>
         if bytes == "" then Broken(h)
         else Deliver(h.(guard := guard, mode := AtEvent), AppendLog(|h.record.steps|, bytes), verdict)
       case _ => Broken(h))
    case InArtifact(_, _, _) => OnArtifactFrame(a, h, f, verdict)
    case InPages(_, _) => OnPagesFrame(h, f, verdict)
  }
}
