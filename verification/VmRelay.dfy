/**
 The host's event loop and its output accounting, as the objects that update themselves
 in place. Both are proved against the machine of VmHost.
 */
module VmRelay {
  import opened Wrappers
  import opened Text
  import opened Records
  import opened SinkOrder
  import opened VmHost
  import F = FinishReport
  import opened VmHostSafety

  /** Host-owned accounting of what the guest sends. */
  class OutputGuard {
    const a: Assignment
    var logs: seq<nat>
    var artifacts: seq<bool>
    var remaining: nat
    var artifactOpen: bool

    ghost function View(): Guard
      reads this
    {
      Guard(logs, artifacts, remaining, artifactOpen)
    }

    constructor (a: Assignment)
      ensures this.a == a && View() == NewGuard(a)
    {
      this.a := a;
      logs := seq(|StepNames(a.jobs)|, _ => 0);
      artifacts := seq(|a.jobs|, _ => false);
      remaining := 0;
      artifactOpen := false;
    }

    method Log(step: nat, bytes: nat) returns (ok: bool)
      modifies this
      ensures match GuardLog(a, old(View()), step, bytes)
              case Some(g) => ok && View() == g
              case None => !ok && View() == old(View())
    {
      if step >= |logs| || bytes > CHUNK_MAX || bytes > a.maxLog - logs[step] {
        return false;
      }
      logs := logs[step := logs[step] + bytes];
      return true;
    }

    method BeginArtifact(job: nat, declared: nat) returns (artifact: Option<Artifact>)
      requires |artifacts| == |a.jobs|
      modifies this
      ensures match GuardBegin(a, old(View()), job, declared)
              case Some(g) => artifact == a.jobs[job].artifact && artifact.Some? && View() == g
              case None => artifact.None? && View() == old(View())
    {
      if artifactOpen || job >= |artifacts| || artifacts[job] || a.jobs[job].artifact.None? ||
         declared > a.maxArtifact {
        return None;
      }
      artifacts := artifacts[job := true];
      remaining := declared;
      artifactOpen := true;
      return a.jobs[job].artifact;
    }

    method ArtifactChunk(bytes: nat) returns (ok: bool)
      modifies this
      ensures match GuardChunk(old(View()), bytes)
              case Some(g) => ok && View() == g
              case None => !ok && View() == old(View())
    {
      if !artifactOpen || bytes == 0 || bytes > CHUNK_MAX || bytes > remaining {
        return false;
      }
      remaining := remaining - bytes;
      return true;
    }

    method EndArtifact() returns (ok: bool)
      modifies this
      ensures match GuardEnd(old(View()))
              case Some(g) => ok && View() == g
              case None => !ok && View() == old(View())
    {
      if !artifactOpen || remaining != 0 {
        return false;
      }
      artifactOpen := false;
      return true;
    }
  }

  /** The fields of an event; None where the source throws. */
  method EventFields(text: string) returns (r: Option<seq<string>>)
    ensures r == Fields(text)
  {
    if text == "" {
      return Some([]);
    }
    hide Split, Find;
    var parts: seq<string>, value := [], text;
    while true
      invariant Split(text, ' ') == parts + Split(value, ' ')
      invariant "" !in parts
      decreases |value|
    {
      SplitFront(parts, value, ' ');
      var space := Find(value, ' ');
      var field := value[..space];
      parts := parts + [field];
      if field == "" {
        assert parts[|parts| - 1] == "" && "" in Split(text, ' ');
        return None;
      }
      if space == |value| {
        return Some(parts);
      }
      value := value[space + 1..];
    }
  }

  /** The label of every step, job after job. */
  method CollectStepNames(a: Assignment) returns (names: seq<Bytes>)
    ensures names == StepNames(a.jobs)
  {
    names := [];
    for j := 0 to |a.jobs|
      invariant names == StepNames(a.jobs[..j])
    {
      var job := a.jobs[j];
      ghost var before := names;
      for k := 0 to |job.steps|
        invariant names == before + seq(k, i requires 0 <= i < k => ExpectedName(job, i))
      {
        names := names + [if job.steps[k] == [] then job.name else job.steps[k]];
      }
      assert a.jobs[..j + 1][..j] == a.jobs[..j];
    }
    assert a.jobs[..|a.jobs|] == a.jobs;
  }

  lemma Advance(a: Assignment, arrivals: seq<Arrival>, pos: nat, h: Host)
    requires pos < |arrivals| && Converse(a, arrivals[..pos]) == More(h)
    ensures Inv(a, h)
    ensures Converse(a, arrivals[..pos + 1]) == Next(a, h, arrivals[pos])
  {
    hide Next, Inv, Start;
    assert StepInv(a, Converse(a, arrivals[..pos]));
    assert arrivals[..pos + 1][..pos] == arrivals[..pos];
  }

  /** Once a conversation is over, later arrivals change nothing. */
  lemma {:induction false} Over(a: Assignment, arrivals: seq<Arrival>, pos: nat)
    requires pos <= |arrivals| && !Converse(a, arrivals[..pos]).More?
    ensures Converse(a, arrivals) == Converse(a, arrivals[..pos])
    decreases |arrivals|
  {
    hide Next, Inv, Start;
    if pos == |arrivals| {
      assert arrivals[..pos] == arrivals;
    } else {
      assert arrivals[..|arrivals| - 1][..pos] == arrivals[..pos];
      Over(a, arrivals[..|arrivals| - 1], pos);
    }
  }

  /** relayCiVmResults: its local variables are the fields, its event loop is Run. */
  class Relay {
    const a: Assignment
    const arrivals: seq<Arrival>
    const stepNames: seq<Bytes>
    const limits: OutputGuard
    var pos: nat
    var record: Record
    var outputs: seq<Output>
    var started: bool
    var activeStep: bool
    var pages: bool
    var cancelSent: bool
    var calls: seq<Call>
    var replies: seq<Reply>

    ghost function View(mode: Mode): Host
      reads this, limits
    {
      Host(record, started, activeStep, pages, cancelSent, outputs, limits.View(), mode, calls, replies)
    }

    /** Everything received so far has led here. */
    ghost predicate At(mode: Mode)
      reads this, limits
    {
      && limits.a == a && stepNames == StepNames(a.jobs)
      && pos <= |arrivals| && Converse(a, arrivals[..pos]) == More(View(mode))
    }

    /** The conversation has ended without a record; sink and channel saw what the machine says. */
    ghost predicate Gone()
      reads this
    {
      var s := Converse(a, arrivals);
      !s.Returned? && calls == s.h.calls && replies == s.h.replies
    }

    constructor (a: Assignment, arrivals: seq<Arrival>, limits: OutputGuard, stepNames: seq<Bytes>)
      requires limits.a == a && limits.View() == NewGuard(a) && stepNames == StepNames(a.jobs)
      ensures this.a == a && this.arrivals == arrivals && this.limits == limits && At(AtEvent)
    {
      this.a, this.arrivals, this.limits, this.stepNames := a, arrivals, limits, stepNames;
      pos, record, outputs := 0, Record(Running, 0, [], []), [];
      started, activeStep, pages, cancelSent := false, false, false, false;
      calls, replies := [], [];
      new;
      assert arrivals[..0] == [];
    }

    /** The next frame and the answer its acknowledgement will give, or None when the channel fails. */
    method Receive(ghost mode: Mode) returns (r: Option<Arrival>)
      requires At(mode)
      modifies `pos
      ensures r.None? ==> Gone() && pos == old(pos)
      ensures r.Some? ==> old(pos) < |arrivals| && pos == old(pos) + 1 && r.value == arrivals[old(pos)]
      ensures r.Some? ==> Inv(a, View(mode)) && Converse(a, arrivals[..pos]) == Next(a, View(mode), r.value)
    {
      hide Next, Inv, Start;
      if pos == |arrivals| {
        assert arrivals[..pos] == arrivals;
        return None;
      }
      Advance(a, arrivals, pos, View(mode));
      pos := pos + 1;
      return Some(arrivals[pos - 1]);
    }

    /** Answers the guest; false once the lease is lost. */
    method Ack(verdict: Reply) returns (ok: bool)
      modifies `cancelSent, `replies
      ensures match VmHost.Ack(old(View(AtEvent)), verdict)
              case More(h) => ok && View(AtEvent) == h
              case Broken(h) => !ok && calls == h.calls && replies == h.replies
    {
      replies := replies + [verdict];
      match verdict
      case LeaseLost => return false;
      case Cancel => cancelSent := true; return true;
      case Ok => return true;
    }

    method Tell(c: Call, verdict: Reply) returns (ok: bool)
      modifies `calls, `cancelSent, `replies
      ensures match Deliver(old(View(AtEvent)), c, verdict)
              case More(h) => ok && View(AtEvent) == h
              case Broken(h) => !ok && calls == h.calls && replies == h.replies
    {
      calls := calls + [c];
      ok := Ack(verdict);
    }

    /** A branch that throws, or answers and loses the lease. */
    ghost predicate Broke()
      reads this
    {
      pos <= |arrivals| &&
      var s := Converse(a, arrivals[..pos]);
      s.Broken? && calls == s.h.calls && replies == s.h.replies
    }

    lemma BrokeIsGone()
      requires Broke()
      ensures Gone()
    {
      Over(a, arrivals, pos);
    }

    method OnStarted(part: seq<string>, verdict: Reply) returns (ok: bool)
      requires |part| == 2
      requires limits.a == a && stepNames == StepNames(a.jobs)
      requires pos <= |arrivals| && Converse(a, arrivals[..pos]) == VmHost.OnStarted(View(AtEvent), part, verdict)
      modifies `record, `started, `calls, `cancelSent, `replies
      ensures if ok then At(AtEvent) else Broke()
    {
      hide Converse;
      var epoch := ParseNumber(part[1]);
      if epoch.None? || epoch.value == 0 {
        return false;
      }
      record := record.(startedEpoch := epoch.value);
      started := true;
      ok := Tell(RunStarted(epoch.value), verdict);
    }

    method OnStepStart(part: seq<string>, verdict: Reply) returns (ok: bool)
      requires |part| == 2
      requires limits.a == a && stepNames == StepNames(a.jobs)
      requires pos <= |arrivals| && Converse(a, arrivals[..pos]) == VmHost.OnStepStart(a, View(AtEvent), part, verdict)
      modifies `activeStep, `calls, `cancelSent, `replies
      ensures if ok then At(AtEvent) else Broke()
    {
      hide Converse, StepNames;
      if ParseNumber(part[1]) != Some(|record.steps|) || |record.steps| >= |stepNames| ||
         !(record.steps == [] || Good(record.steps[|record.steps| - 1])) {
        return false;
      }
      activeStep := true;
      ok := Tell(StepStarted(|record.steps|), verdict);
    }

    method OnStepEnd(part: seq<string>, verdict: Reply) returns (ok: bool)
      requires |part| == 6
      requires limits.a == a && stepNames == StepNames(a.jobs)
      requires |record.steps| < |stepNames|
      requires pos <= |arrivals| && Converse(a, arrivals[..pos]) == VmHost.OnStepEnd(a, View(AtEvent), part, verdict)
      modifies `record, `activeStep, `calls, `cancelSent, `replies
      ensures if ok then At(AtEvent) else Broke()
    {
      hide Converse, StepNames, ParseNumber, Unhex, ExitCode;
      if ParseNumber(part[1]) != Some(|record.steps|) || part[3] !in ["0", "1"] || part[4] !in ["0", "1"] {
        return false;
      }
      var name, code := Unhex(part[5]), ExitCode(part[2]);
      if name.None? || code.None? {
        return false;
      }
      var step := StepResult(name.value, code.value, part[3] == "1", part[4] == "1");
      if step.name != stepNames[|record.steps|] {
        return false;
      }
      record := record.(steps := record.steps + [step]);
      activeStep := false;
      ok := Tell(StepFinished(|record.steps| - 1, step), verdict);
    }

    method OnProgress(text: string, verdict: Reply) returns (ok: bool)
      requires limits.a == a && stepNames == StepNames(a.jobs)
      requires pos <= |arrivals|
      requires Converse(a, arrivals[..pos]) == VmHost.OnProgress(View(AtEvent), text, verdict)
      modifies `record, `calls, `cancelSent, `replies
      ensures if ok then At(AtEvent) else Broke()
    {
      hide Converse, Unhex;
      var detail := Unhex(text);
      if detail.None? {
        return false;
      }
      record := record.(detail := detail.value);
      ok := Tell(Progress(detail.value), verdict);
    }

    /** The chunk that a log event announces. */
    method ReceiveLog() returns (ok: bool)
      requires At(AwaitLog)
      modifies this, limits
      ensures pos >= old(pos)
      ensures if ok then At(AtEvent) else Gone()
    {
      hide Converse;
      var arrival := Receive(AwaitLog);
      if arrival.None? {
        return false;
      }
      var Arrival(frame, verdict) := arrival.value;
      if !frame.Chunk? || frame.bytes == "" {
        BrokeIsGone();
        return false;
      }
      var fits := limits.Log(|record.steps|, |frame.bytes|);
      if !fits {
        BrokeIsGone();
        return false;
      }
      ok := Tell(AppendLog(|record.steps|, frame.bytes), verdict);
      if !ok {
        BrokeIsGone();
      }
    }

    /** One chunk of a bundle, within what the guard still expects. */
    method BundleChunk(ghost artifact: Artifact, ghost remaining: nat, ghost received: string)
      returns (chunk: Option<string>)
      requires At(InArtifact(artifact, remaining, received)) && remaining != 0
      modifies this, limits
      ensures chunk.None? ==> Gone() && pos >= old(pos)
      ensures chunk.Some? ==> pos > old(pos)
      ensures chunk.Some? ==>
                At(InArtifact(artifact, (remaining - |chunk.value|) % U64_LIMIT, received + chunk.value))
    {
      hide Converse, StepNames, Scan, StepsThrough, Fields, Producers;
      hide VmHost.OnEvent, VmHost.OnFinish, VmHost.OnPagesFrame;
      var arrival := Receive(InArtifact(artifact, remaining, received));
      if arrival.None? {
        return None;
      }
      var frame := arrival.value.frame;
      if !frame.Chunk? || frame.bytes == "" {
        BrokeIsGone();
        return None;
      }
      var fits := limits.ArtifactChunk(|frame.bytes|);
      if !fits {
        BrokeIsGone();
        return None;
      }
      return Some(frame.bytes);
    }

    /** The end marker of a bundle; then the artifact goes to the sink. */
    method BundleEnd(artifact: Artifact, received: string) returns (ok: bool)
      requires At(InArtifact(artifact, 0, received))
      modifies this, limits
      ensures pos >= old(pos)
      ensures if ok then At(AtEvent) else Gone()
    {
      hide Converse, StepNames, Scan;
      var done := Receive(InArtifact(artifact, 0, received));
      if done.None? {
        return false;
      }
      if done.value.frame != Done(Empty) {
        BrokeIsGone();
        return false;
      }
      var ended := limits.EndArtifact();
      if !ended {
        BrokeIsGone();
        return false;
      }
      ok := PublishArtifact(artifact, received, [], done.value.verdict);
      if !ok {
        BrokeIsGone();
      }
    }

    /** Bundle bytes, counted down to the end marker. */
    method ReceiveBundle(artifact: Artifact, size: nat) returns (ok: bool)
      requires At(InArtifact(artifact, size, "")) && size < U64_LIMIT
      modifies this, limits
      ensures pos >= old(pos)
      ensures if ok then At(AtEvent) else Gone()
    {
      hide Converse, StepNames;
      var remaining: nat, received := size, "";
      while remaining != 0
        invariant At(InArtifact(artifact, remaining, received))
        invariant pos >= old(pos)
        decreases |arrivals| - pos
      {
        var chunk := BundleChunk(artifact, remaining, received);
        if chunk.None? {
          return false;
        }
        remaining := (remaining - |chunk.value|) % U64_LIMIT;
        received := received + chunk.value;
      }
      ok := BundleEnd(artifact, received);
    }

    method PublishArtifact(artifact: Artifact, bundle: string, note: Bytes, verdict: Reply) returns (ok: bool)
      requires limits.a == a && stepNames == StepNames(a.jobs) && pos <= |arrivals|
      requires Converse(a, arrivals[..pos]) == Publish(a, View(AtEvent), artifact, bundle, note, verdict)
      modifies `outputs, `calls, `cancelSent, `replies
      ensures if ok then At(AtEvent) else Broke()
    {
      hide Converse;
      outputs := outputs + [Output(artifact.name, a.isRelease, artifact.retentionDays, note)];
      ok := Tell(PutArtifact(artifact, bundle, note, a.isRelease), verdict);
    }

    method OnArtifact(part: seq<string>, verdict: Reply) returns (ok: bool)
      requires |part| == 4 && |limits.artifacts| == |a.jobs|
      requires limits.a == a && stepNames == StepNames(a.jobs) && pos <= |arrivals|
      requires Converse(a, arrivals[..pos]) == VmHost.OnArtifact(a, View(AtEvent), part, verdict)
      modifies this, limits
      ensures pos >= old(pos)
      ensures if ok then At(AtEvent) else Gone()
    {
      hide Converse, ParseNumber, Unhex, StepsThrough, Fields, Producers, StepNames, Scan;
      var job, size, note := ParseNumber(part[1]), ParseNumber(part[2]), Unhex(part[3]);
      if job.None? || size.None? || note.None? {
        BrokeIsGone();
        return false;
      }
      var slot: nat := job.value;
      var artifact := limits.BeginArtifact(slot, size.value);
      if artifact.None? {
        BrokeIsGone();
        return false;
      }
      var required := CountSteps(slot);
      if record.steps == [] || |record.steps| < required || !Good(record.steps[|record.steps| - 1]) ||
         (note.value != [] && size.value != 0) {
        BrokeIsGone();
        return false;
      }
      if note.value == [] {
        ok := ReceiveBundle(artifact.value, size.value);
      } else {
        var ended := limits.EndArtifact();
        assert ended;
        ok := PublishArtifact(artifact.value, "", note.value, verdict);
        if !ok {
          BrokeIsGone();
        }
      }
    }

    /** Steps of the jobs up to and including `job`. */
    method CountSteps(job: nat) returns (required: nat)
      requires job < |a.jobs|
      ensures required == StepsThrough(a.jobs, job + 1)
    {
      required := 0;
      for i := 0 to job + 1
        invariant required == StepsThrough(a.jobs, i)
      {
        assert a.jobs[..i + 1][..i] == a.jobs[..i];
        required := required + |a.jobs[i].steps|;
      }
    }

    method OnPages(part: seq<string>) returns (ok: bool)
      requires |part| == 2
      requires limits.a == a && stepNames == StepNames(a.jobs) && pos <= |arrivals|
      requires Converse(a, arrivals[..pos]) == VmHost.OnPages(a, View(AtEvent), part)
      modifies this, limits
      ensures pos >= old(pos)
      ensures if ok then At(AtEvent) else Gone()
    {
      hide Converse, ParseNumber, StepNames;
      var size := ParseNumber(part[1]);
      if !(|record.steps| == |stepNames| && |stepNames| > 0 && Good(record.steps[|record.steps| - 1])) ||
         size.None? || size.value > MAX_PAGES_ARCHIVE {
        BrokeIsGone();
        return false;
      }
      ok := ReceiveArchive(size.value);
    }

    /** One chunk of a Pages archive, no longer than what is left. */
    method ArchiveChunk(remaining: nat, ghost received: string) returns (chunk: Option<string>)
      requires At(InPages(remaining, received)) && remaining != 0
      modifies `pos
      ensures chunk.None? ==> Gone() && pos >= old(pos)
      ensures chunk.Some? ==> pos > old(pos) && |chunk.value| <= remaining
      ensures chunk.Some? ==> At(InPages(remaining - |chunk.value|, received + chunk.value))
    {
      hide Converse, StepNames, Scan;
      var arrival := Receive(InPages(remaining, received));
      if arrival.None? {
        return None;
      }
      var frame := arrival.value.frame;
      if !frame.Chunk? || frame.bytes == "" || |frame.bytes| > remaining {
        BrokeIsGone();
        return None;
      }
      return Some(frame.bytes);
    }

    /** The Pages archive, counted down to its end marker. */
    method ReceiveArchive(size: nat) returns (ok: bool)
      requires At(InPages(size, ""))
      modifies this
      ensures pos >= old(pos)
      ensures if ok then At(AtEvent) else Gone()
    {
      hide Converse, StepNames, Scan;
      var remaining: nat, received := size, "";
      while remaining != 0
        invariant At(InPages(remaining, received))
        invariant pos >= old(pos)
        decreases |arrivals| - pos
      {
        var chunk := ArchiveChunk(remaining, received);
        if chunk.None? {
          return false;
        }
        remaining := remaining - |chunk.value|;
        received := received + chunk.value;
      }
      ok := ArchiveEnd(received);
    }

    method ArchiveEnd(received: string) returns (ok: bool)
      requires At(InPages(0, received))
      modifies this
      ensures pos >= old(pos)
      ensures if ok then At(AtEvent) else Gone()
    {
      hide Converse, StepNames, Scan;
      var done := Receive(InPages(0, received));
      if done.None? {
        return false;
      }
      if done.value.frame != Done(Empty) {
        BrokeIsGone();
        return false;
      }
      pages := true;
      ok := Tell(PutPages(received), done.value.verdict);
      if !ok {
        BrokeIsGone();
      }
    }

    /** The comparison of the terminal report with what was recorded, field by field. */
    method ReportAgrees(report: F.Report) returns (agrees: bool)
      requires stepNames == StepNames(a.jobs)
      ensures agrees <==> Consistent(a, View(AtEvent), report)
    {
      hide StepNames;
      if cancelSent && report.status != Cancelled {
        return false;
      }
      if activeStep || limits.artifactOpen || |report.steps| != |record.steps| || |report.outputs| != |outputs| ||
         (started && report.startedEpoch != record.startedEpoch) {
        return false;
      }
      for i := 0 to |report.steps|
        invariant report.steps[..i] == record.steps[..i]
      {
        if report.steps[i] != record.steps[i] {
          return false;
        }
      }
      for i := 0 to |outputs|
        invariant report.outputs[..i] == outputs[..i]
      {
        if report.outputs[i] != outputs[i] {
          return false;
        }
      }
      assert report.steps == record.steps && report.outputs == outputs;
      if report.status == Succeeded {
        if !started || |record.steps| != |stepNames| {
          return false;
        }
        for i := 0 to |record.steps|
          invariant AllGood(record.steps[..i])
        {
          if !Good(record.steps[i]) {
            return false;
          }
        }
        assert record.steps[..|record.steps|] == record.steps;
      }
      return true;
    }

    ghost predicate Ended(result: Record)
      reads this
    {
      var s := Converse(a, arrivals);
      s.Returned? && s.record == result && calls == s.h.calls && replies == s.h.replies
    }

    method OnFinish(report: F.Report, verdict: Reply) returns (result: Option<Record>)
      requires limits.a == a && stepNames == StepNames(a.jobs) && pos <= |arrivals|
      requires Converse(a, arrivals[..pos]) == VmHost.OnFinish(a, View(AtEvent), report, verdict)
      modifies this
      ensures match result case Some(r) => Ended(r) case None => Gone()
    {
      hide Converse, StepNames, F.Parses;
      var agrees := ReportAgrees(report);
      if !F.Parses(report) || !agrees {
        BrokeIsGone();
        return None;
      }
      record := Record(report.status, report.startedEpoch, report.detail, record.steps);
      var ok := Ack(verdict);
      if !ok {
        BrokeIsGone();
        return None;
      }
      Over(a, arrivals, pos);
      // A cancellation can arrive in the last answer, too late for the guest to amend its report.
      if cancelSent && record.status != Cancelled {
        record := record.(status := Cancelled, detail := Raw(LATE_CANCEL));
      }
      return Some(record);
    }

    method OnEvent(text: string, verdict: Reply) returns (ok: bool)
      requires limits.a == a && stepNames == StepNames(a.jobs) && pos <= |arrivals|
      requires Inv(a, View(AtEvent)) && Converse(a, arrivals[..pos]) == VmHost.OnEvent(a, View(AtEvent), text, verdict)
      modifies this, limits
      ensures pos >= old(pos)
      ensures if ok then At(AtEvent) else Gone()
    {
      hide Converse, StepNames, Fields, VmHost.Dispatch;
      var fields := EventFields(text);
      if fields.None? || fields.value == [] {
        BrokeIsGone();
        return false;
      }
      ok := Dispatch(fields.value, verdict);
    }

    method Dispatch(part: seq<string>, verdict: Reply) returns (ok: bool)
      requires part != [] && |limits.artifacts| == |a.jobs| && (activeStep ==> |record.steps| < |stepNames|)
      requires limits.a == a && stepNames == StepNames(a.jobs) && pos <= |arrivals|
      requires Converse(a, arrivals[..pos]) == VmHost.Dispatch(a, View(AtEvent), part, verdict)
      modifies this, limits
      ensures pos >= old(pos)
      ensures if ok then At(AtEvent) else Gone()
    {
      hide Converse, StepNames, ParseNumber;
      hide VmHost.OnStarted, VmHost.OnStepStart, VmHost.OnStepEnd, VmHost.OnProgress, VmHost.OnArtifact, VmHost.OnPages;
      if part[0] == "log" && |part| == 2 && activeStep && ParseNumber(part[1]) == Some(|record.steps|) {
        ok := ReceiveLog();
      } else if part[0] == "artifact" && |part| == 4 && started && !activeStep {
        ok := OnArtifact(part, verdict);
      } else if part[0] == "pages" && |part| == 2 && started && !activeStep && !pages &&
                a.isDefaultBranch && !a.isRelease && a.hasPages {
        ok := OnPages(part);
      } else {
        ok := DispatchAtOnce(part, verdict);
        if !ok {
          BrokeIsGone();
        }
      }
    }

    /** The events that are answered without a further frame. */
    method DispatchAtOnce(part: seq<string>, verdict: Reply) returns (ok: bool)
      requires part != [] && |limits.artifacts| == |a.jobs| && (activeStep ==> |record.steps| < |stepNames|)
      requires limits.a == a && stepNames == StepNames(a.jobs) && pos <= |arrivals|
      requires Converse(a, arrivals[..pos]) == VmHost.Dispatch(a, View(AtEvent), part, verdict)
      requires part[0] == "log" && |part| == 2 && activeStep ==> ParseNumber(part[1]) != Some(|record.steps|)
      requires !(part[0] == "artifact" && |part| == 4 && started && !activeStep)
      requires !(part[0] == "pages" && |part| == 2 && started && !activeStep && !pages &&
                 a.isDefaultBranch && !a.isRelease && a.hasPages)
      modifies `record, `started, `activeStep, `calls, `cancelSent, `replies
      ensures if ok then At(AtEvent) else Broke()
    {
      hide Converse, StepNames, ParseNumber;
      hide VmHost.OnStarted, VmHost.OnStepStart, VmHost.OnStepEnd, VmHost.OnProgress;
      if part[0] == "started" && |part| == 2 && !started {
        ok := OnStarted(part, verdict);
      } else if part[0] == "step-start" && |part| == 2 && started && !activeStep {
        ok := OnStepStart(part, verdict);
      } else if part[0] == "step-end" && |part| == 6 && activeStep {
        ok := OnStepEnd(part, verdict);
      } else if part[0] == "heartbeat" && |part| == 1 && started {
        ok := Tell(Heartbeat, verdict);
      } else if part[0] == "poll" && |part| == 1 && started {
        ok := Tell(Tick, verdict);
      } else if part[0] == "progress" && |part| == 2 && started {
        ok := OnProgress(part[1], verdict);
      } else {
        ok := false;
      }
    }

    /** The event loop: the terminal record, or None where the source throws. */
    method Run() returns (result: Option<Record>)
      requires At(AtEvent)
      modifies this, limits
      ensures match result case Some(r) => Ended(r) case None => Gone()
    {
      hide Converse, VmHost.OnEvent, VmHost.OnFinish, Inv;
      while true
        invariant At(AtEvent)
        decreases |arrivals| - pos
      {
        var arrival := Receive(AtEvent);
        if arrival.None? {
          return None;
        }
        var Arrival(frame, verdict) := arrival.value;
        match frame
        case Event(text) =>
          var ok := OnEvent(text, verdict);
          if !ok {
            return None;
          }
        case Done(Finish(report)) =>
          result := OnFinish(report, verdict);
          return;
        case _ =>
          BrokeIsGone();
          return None;
      }
    }
  }

  /** The relay of one assignment, from the guard's own checks to the terminal record. */
  method RelayResults(a: Assignment, arrivals: seq<Arrival>)
    returns (result: Option<Record>, calls: seq<Call>, replies: seq<Reply>)
    ensures !Guardable(a) ==> result.None? && calls == [] && replies == []
    ensures Guardable(a) ==>
              var s := Converse(a, arrivals);
              && calls == s.h.calls && replies == s.h.replies
              && result == if s.Returned? then Some(s.record) else None
  {
    if |a.jobs| > F.MAX_JOBS || exists j | 0 <= j < |a.jobs| :: |a.jobs[j].steps| > MAX_STEPS_PER_JOB {
      return None, [], [];
    }
    var names := CollectStepNames(a);
    var limits := new OutputGuard(a);
    var relay := new Relay(a, arrivals, limits, names);
    result := relay.Run();
    return result, relay.calls, relay.replies;
  }
}
