/**
 Safety of the host against any guest whatsoever: the calls it makes on its sink follow
 the sink order, its accounting matches what it has passed on, and a run it returns as
 successful really was one.
 */
module VmHostSafety {
  import opened Wrappers
  import opened Text
  import opened Records
  import opened SinkOrder
  import opened VmHost
  import F = FinishReport

  /** Slots already handed out that declare `artifact`. */
  function Taken(a: Assignment, put: seq<bool>, artifact: Artifact): set<nat>
    requires |put| == |a.jobs|
  {
    set j: nat | j < |put| && put[j] && a.jobs[j].artifact == Some(artifact)
  }

  predicate AllButLastGood(steps: seq<StepResult>) {
    forall i | 0 <= i < |steps| - 1 :: Good(steps[i])
  }

  /** An artifact being received has its slot but has not reached the sink. */
  function Pending(mode: Mode, artifact: Artifact): nat {
    if mode.InArtifact? && mode.artifact == artifact then 1 else 0
  }

  ghost predicate GuardInv(a: Assignment, h: Host, v: View) {
    && |h.guard.put| == |a.jobs|
    && |h.guard.logs| == |StepNames(a.jobs)|
    && (forall i | 0 <= i < |h.guard.logs| :: h.guard.logs[i] <= a.maxLog)
    && (forall i | |h.record.steps| < i < |h.guard.logs| :: h.guard.logs[i] == 0)
    && (|h.record.steps| < |h.guard.logs| ==>
          h.guard.logs[|h.record.steps|] == if h.active then v.logged else 0)
    && (h.guard.open <==> h.mode.InArtifact?)
    && (forall x: Artifact ::
          && Taken(a, h.guard.put, x) <= Producers(a.jobs, x, |h.record.steps|)
          && v.puts[x] + Pending(h.mode, x) == |Taken(a, h.guard.put, x)|)
  }

  ghost predicate ModeInv(a: Assignment, h: Host) {
    match h.mode
    case AtEvent => true
    case AwaitLog => h.active
    case InArtifact(_, left, received) =>
      && h.started && !h.active && h.record.steps != [] && AllGood(h.record.steps)
      && left == h.guard.left && |received| + left <= a.maxArtifact
    case InPages(left, received) =>
      && h.started && !h.active && !h.pages && a.isDefaultBranch && !a.isRelease && a.hasPages
      && 0 < |h.record.steps| == |StepNames(a.jobs)| && AllGood(h.record.steps)
      && |received| + left <= MAX_PAGES_ARCHIVE
  }

  /** The host and a listener of its sink agree about the run. */
  ghost predicate Agrees(a: Assignment, h: Host, v: View) {
    && v.started == h.started && v.active == h.active && v.steps == h.record.steps
    && v.pages == h.pages && v.outputs == h.outputs
    && (h.started ==> v.epoch == h.record.startedEpoch)
    && |h.record.steps| <= |StepNames(a.jobs)|
    && (forall i | 0 <= i < |h.record.steps| :: h.record.steps[i].name == StepNames(a.jobs)[i])
    && AllButLastGood(h.record.steps)
    && (h.active ==> h.started && AllGood(h.record.steps) && |h.record.steps| < |StepNames(a.jobs)|)
    && (h.cancelSent <==> Cancel in h.replies) && LeaseLost !in h.replies
  }

  ghost predicate Inv(a: Assignment, h: Host) {
    var scan := Scan(a, h.calls);
    scan.Some? && Agrees(a, h, scan.value) && GuardInv(a, h, scan.value) && ModeInv(a, h)
  }

  /** What holds of every outcome of a step, whether or not the host goes on. */
  ghost predicate StepInv(a: Assignment, s: Step) {
    match s
    case More(h) => Inv(a, h)
    case Returned(h, _) => Inv(a, h)
    case Broken(h) => Scan(a, h.calls).Some?
  }

  lemma SubsetSize<T>(a: set<T>, b: set<T>)
    requires a <= b
    ensures |a| <= |b|
  {
    assert b == a + (b - a);
  }

  lemma StartInv(a: Assignment)
    ensures Inv(a, Start(a))
  {
    forall x: Artifact
      ensures Taken(a, Start(a).guard.put, x) == {}
    {
    }
  }

  /** Taking one more step never takes a producer away. */
  lemma ProducersGrow(a: Assignment, x: Artifact, m: nat, n: nat)
    requires m <= n
    ensures Producers(a.jobs, x, m) <= Producers(a.jobs, x, n)
  {
  }

  lemma DeliverInv(a: Assignment, before: Host, h: Host, c: Call, verdict: Reply)
    requires Inv(a, before)
    requires h.calls == before.calls && h.replies == before.replies && h.cancelSent == before.cancelSent
    requires var v := Admit(a, Scan(a, before.calls).value, c);
             v.Some? && Agrees(a, h, v.value) && GuardInv(a, h, v.value) && ModeInv(a, h)
    ensures StepInv(a, Deliver(h, c, verdict))
  {
    ScanAppend(a, before.calls, c);
  }

  lemma OnStartedInv(a: Assignment, h: Host, part: seq<string>, verdict: Reply)
    requires Inv(a, h) && h.mode.AtEvent? && !h.started && |part| == 2
    ensures StepInv(a, OnStarted(h, part, verdict))
  {
    if OnStarted(h, part, verdict) != Broken(h) {
      var epoch := ParseNumber(part[1]).value;
      DeliverInv(a, h, h.(record := h.record.(startedEpoch := epoch), started := true), RunStarted(epoch), verdict);
    }
  }

  lemma OnStepStartInv(a: Assignment, h: Host, part: seq<string>, verdict: Reply)
    requires Inv(a, h) && h.mode.AtEvent? && h.started && !h.active && |part| == 2
    ensures StepInv(a, OnStepStart(a, h, part, verdict))
  {
    if OnStepStart(a, h, part, verdict) != Broken(h) {
      DeliverInv(a, h, h.(active := true), StepStarted(|h.record.steps|), verdict);
    }
  }

  lemma OnLogInv(a: Assignment, h: Host, bytes: string, guard: Guard, verdict: Reply)
    requires Inv(a, h) && h.mode.AwaitLog?
    requires GuardLog(a, h.guard, |h.record.steps|, |bytes|) == Some(guard)
    ensures StepInv(a, Deliver(h.(guard := guard, mode := AtEvent), AppendLog(|h.record.steps|, bytes), verdict))
  {
    DeliverInv(a, h, h.(guard := guard, mode := AtEvent), AppendLog(|h.record.steps|, bytes), verdict);
  }

  lemma StepEnds(a: Assignment, h: Host, result: StepResult, verdict: Reply)
    requires Inv(a, h) && h.mode.AtEvent? && h.active
    requires result.name == StepNames(a.jobs)[|h.record.steps|] && |result.name| <= MAX_DETAIL_BYTES
    ensures StepInv(a, Deliver(h.(record := h.record.(steps := h.record.steps + [result]), active := false),
                               StepFinished(|h.record.steps|, result), verdict))
  {
    var index := |h.record.steps|;
    var ended := h.(record := h.record.(steps := h.record.steps + [result]), active := false);
    forall x: Artifact
      ensures Producers(a.jobs, x, index) <= Producers(a.jobs, x, index + 1)
    {
      ProducersGrow(a, x, index, index + 1);
    }
    DeliverInv(a, h, ended, StepFinished(index, result), verdict);
  }

  lemma OnStepEndInv(a: Assignment, h: Host, part: seq<string>, verdict: Reply)
    requires Inv(a, h) && h.mode.AtEvent? && h.active && |part| == 6
    ensures StepInv(a, OnStepEnd(a, h, part, verdict))
  {
    if OnStepEnd(a, h, part, verdict) != Broken(h) {
      UnhexBound(part[5]);
      StepEnds(a, h, StepResult(Unhex(part[5]).value, ExitCode(part[2]).value, part[3] == "1", part[4] == "1"),
          verdict);
    }
  }

  lemma UnhexBound(text: string)
    requires Unhex(text).Some?
    ensures |Unhex(text).value| <= MAX_DETAIL_BYTES
    ensures HexOrDash(Unhex(text).value) == text
  {
    if text != "-" {
      HexRoundTrip(text, Unhex(text).value, MAX_DETAIL_BYTES);
    }
  }

  /** Taking a free slot adds exactly it to the slots of its artifact. */
  lemma TakeSlot(a: Assignment, put: seq<bool>, job: nat, x: Artifact)
    requires |put| == |a.jobs| && job < |put| && !put[job] && a.jobs[job].artifact.Some?
    ensures var mine := a.jobs[job].artifact.value == x;
            && Taken(a, put[job := true], x) == Taken(a, put, x) + (if mine then {job} else {})
            && |Taken(a, put[job := true], x)| == |Taken(a, put, x)| + (if mine then 1 else 0)
  {
    assert job !in Taken(a, put, x);
    if a.jobs[job].artifact.value == x {
      assert Taken(a, put[job := true], x) == Taken(a, put, x) + {job};
    } else {
      assert Taken(a, put[job := true], x) == Taken(a, put, x);
    }
  }

  lemma ArtifactBegins(a: Assignment, h: Host, job: nat, size: nat)
    requires Inv(a, h) && h.mode.AtEvent? && h.started && !h.active
    requires GuardBegin(a, h.guard, job, size).Some?
    requires h.record.steps != [] && StepsThrough(a.jobs, job + 1) <= |h.record.steps| && LastGood(h.record.steps)
    ensures Inv(a, h.(guard := GuardBegin(a, h.guard, job, size).value,
                      mode := InArtifact(a.jobs[job].artifact.value, size, "")))
  {
    hide Scan, Taken;
    var artifact := a.jobs[job].artifact.value;
    var next := h.(guard := GuardBegin(a, h.guard, job, size).value, mode := InArtifact(artifact, size, ""));
    assert Agrees(a, next, Scan(a, h.calls).value) && ModeInv(a, next);
    assert job in Producers(a.jobs, artifact, |h.record.steps|);
    hide Producers, Agrees, ModeInv, StepNames;
    forall x: Artifact
      ensures Taken(a, h.guard.put[job := true], x) <= Producers(a.jobs, x, |h.record.steps|)
      ensures Scan(a, h.calls).value.puts[x] + Pending(InArtifact(artifact, size, ""), x) ==
              |Taken(a, h.guard.put[job := true], x)|
    {
      TakeSlot(a, h.guard.put, job, x);
    }
  }

  /** The bundle that is complete may be handed over. */
  lemma ArtifactEnds(a: Assignment, h: Host, bundle: string, note: Bytes, verdict: Reply)
    requires Inv(a, h) && h.mode.InArtifact? && GuardEnd(h.guard).Some?
    requires |bundle| <= a.maxArtifact && |note| <= MAX_DETAIL_BYTES && (note != [] ==> bundle == "")
    ensures StepInv(a, Publish(a, h.(guard := GuardEnd(h.guard).value, mode := AtEvent), h.mode.artifact, bundle,
            note, verdict))
  {
    var artifact := h.mode.artifact;
    var c := PutArtifact(artifact, bundle, note, a.isRelease);
    var v := Scan(a, h.calls).value;
    SubsetSize(Taken(a, h.guard.put, artifact), Producers(a.jobs, artifact, |h.record.steps|));
    assert MayPutArtifact(a, v, c);
    var ended := h.(guard := GuardEnd(h.guard).value, mode := AtEvent,
                    outputs := h.outputs + [Output(artifact.name, a.isRelease, artifact.retentionDays, note)]);
    var after := Admit(a, v, c).value;
    forall x: Artifact
      ensures after.puts[x] + Pending(ended.mode, x) == |Taken(a, ended.guard.put, x)|
    {
    }
    DeliverInv(a, h, ended, c, verdict);
  }

  lemma OnArtifactInv(a: Assignment, h: Host, part: seq<string>, verdict: Reply)
    requires Inv(a, h) && h.mode.AtEvent? && h.started && !h.active && |part| == 4
    ensures StepInv(a, OnArtifact(a, h, part, verdict))
  {
    if OnArtifact(a, h, part, verdict) != Broken(h) {
      var job: nat, size: nat := ParseNumber(part[1]).value, ParseNumber(part[2]).value;
      var note := Unhex(part[3]).value;
      ArtifactBegins(a, h, job, size);
      UnhexBound(part[3]);
      if note != [] {
        var begun := h.(guard := GuardBegin(a, h.guard, job, size).value,
                        mode := InArtifact(a.jobs[job].artifact.value, size, ""));
        ArtifactEnds(a, begun, "", note, verdict);
        assert begun.(guard := GuardEnd(begun.guard).value, mode := AtEvent) ==
               h.(guard := GuardEnd(begun.guard).value);
      }
    }
  }

  lemma BundleGrows(a: Assignment, h: Host, bytes: string)
    requires Inv(a, h) && h.mode.InArtifact? && GuardChunk(h.guard, |bytes|).Some?
    ensures var left := (h.mode.left - |bytes|) % U64_LIMIT;
            Inv(a, h.(guard := GuardChunk(h.guard, |bytes|).value,
                      mode := h.mode.(left := left, received := h.mode.received + bytes)))
  {
    assert h.mode.left < U64_LIMIT && (h.mode.left - |bytes|) % U64_LIMIT == h.mode.left - |bytes|;
    var next := h.(guard := GuardChunk(h.guard, |bytes|).value,
                   mode := h.mode.(left := h.mode.left - |bytes|, received := h.mode.received + bytes));
    var v := Scan(a, h.calls).value;
    assert Agrees(a, next, v);
    assert forall x: Artifact :: Pending(next.mode, x) == Pending(h.mode, x);
    assert ModeInv(a, next);
    hide Scan, Taken, Producers, StepNames, AllGood, Agrees, Pending, ModeInv;
    assert GuardInv(a, next, v);
  }

  lemma BundleIsWithin(a: Assignment, h: Host)
    requires Inv(a, h) && h.mode.InArtifact?
    ensures Scan(a, h.calls).Some? && |h.mode.received| <= a.maxArtifact
  {
    hide Scan, Agrees, GuardInv;
  }

  lemma OnArtifactFrameInv(a: Assignment, h: Host, f: Frame, verdict: Reply)
    requires Inv(a, h) && h.mode.InArtifact?
    ensures StepInv(a, OnArtifactFrame(a, h, f, verdict))
  {
    hide Scan, Inv, Publish, GuardChunk, GuardEnd;
    BundleIsWithin(a, h);
    if h.mode.left != 0 {
      if f.Chunk? && GuardChunk(h.guard, |f.bytes|).Some? {
        BundleGrows(a, h, f.bytes);
      } else {
        assert OnArtifactFrame(a, h, f, verdict) == Broken(h);
      }
    } else if f == Done(Empty) && GuardEnd(h.guard).Some? {
      ArtifactEnds(a, h, h.mode.received, [], verdict);
    } else {
      assert OnArtifactFrame(a, h, f, verdict) == Broken(h);
    }
  }

  lemma OnPagesFrameInv(a: Assignment, h: Host, f: Frame, verdict: Reply)
    requires Inv(a, h) && h.mode.InPages?
    ensures StepInv(a, OnPagesFrame(h, f, verdict))
  {
    var s := OnPagesFrame(h, f, verdict);
    if s != Broken(h) && h.mode.left == 0 {
      DeliverInv(a, h, h.(pages := true, mode := AtEvent), PutPages(h.mode.received), verdict);
    }
  }

  lemma AckInv(a: Assignment, h: Host, verdict: Reply)
    requires Inv(a, h)
    ensures StepInv(a, Ack(h, verdict))
  {
  }

  lemma OnFinishInv(a: Assignment, h: Host, report: F.Report, verdict: Reply)
    requires Inv(a, h) && h.mode.AtEvent?
    ensures StepInv(a, OnFinish(a, h, report, verdict))
  {
    if Consistent(a, h, report) {
      var filled := h.(record := Record(report.status, report.startedEpoch, report.detail, h.record.steps));
      assert Inv(a, filled);
      AckInv(a, filled, verdict);
    }
  }

  lemma OnProgressInv(a: Assignment, h: Host, text: string, verdict: Reply)
    requires Inv(a, h) && h.mode.AtEvent? && h.started
    ensures StepInv(a, OnProgress(h, text, verdict))
  {
    if Unhex(text).Some? {
      UnhexBound(text);
      var detail := Unhex(text).value;
      DeliverInv(a, h, h.(record := h.record.(detail := detail)), Progress(detail), verdict);
    }
  }

  lemma OnPagesInv(a: Assignment, h: Host, part: seq<string>)
    requires Inv(a, h) && h.mode.AtEvent? && h.started && !h.active && !h.pages && |part| == 2
    requires a.isDefaultBranch && !a.isRelease && a.hasPages
    ensures StepInv(a, OnPages(a, h, part))
  {
    hide Scan, ParseNumber, Producers, Taken;
  }

  lemma DispatchInv(a: Assignment, h: Host, part: seq<string>, verdict: Reply)
    requires Inv(a, h) && h.mode.AtEvent? && part != []
    ensures StepInv(a, Dispatch(a, h, part, verdict))
  {
    hide Scan, Unhex, ParseNumber, Producers, Taken, OnArtifact, OnStepEnd, OnPages, OnStarted, OnStepStart, OnProgress;
    if Dispatch(a, h, part, verdict) != Broken(h) {
      if part[0] == "started" && |part| == 2 && !h.started {
        OnStartedInv(a, h, part, verdict);
      } else if part[0] == "step-start" && |part| == 2 && h.started && !h.active {
        OnStepStartInv(a, h, part, verdict);
      } else if part[0] == "log" && |part| == 2 && h.active {
      } else if part[0] == "step-end" && |part| == 6 && h.active {
        OnStepEndInv(a, h, part, verdict);
      } else if part[0] == "heartbeat" && |part| == 1 && h.started {
        DeliverInv(a, h, h, Heartbeat, verdict);
      } else if part[0] == "poll" && |part| == 1 && h.started {
        DeliverInv(a, h, h, Tick, verdict);
      } else if part[0] == "progress" && |part| == 2 && h.started {
        OnProgressInv(a, h, part[1], verdict);
      } else if part[0] == "artifact" && |part| == 4 && h.started && !h.active {
        OnArtifactInv(a, h, part, verdict);
      } else {
        OnPagesInv(a, h, part);
      }
    }
  }

  lemma NextInv(a: Assignment, h: Host, arrival: Arrival)
    requires Inv(a, h)
    ensures StepInv(a, Next(a, h, arrival))
  {
    var Arrival(f, verdict) := arrival;
    match h.mode
    case AtEvent =>
      if f.Event? {
        if Next(a, h, arrival) != Broken(h) {
          DispatchInv(a, h, Fields(f.text).value, verdict);
        }
      } else if f.Done? && f.content.Finish? {
        OnFinishInv(a, h, f.content.report, verdict);
      }
    case AwaitLog =>
      if Next(a, h, arrival) != Broken(h) {
        OnLogInv(a, h, f.bytes, GuardLog(a, h.guard, |h.record.steps|, |f.bytes|).value, verdict);
      }
    case InArtifact(_, _, _) => OnArtifactFrameInv(a, h, f, verdict);
    case InPages(_, _) => OnPagesFrameInv(a, h, f, verdict);
  }

  // ----- whole conversations --------------------------------------------------------

  /** The host after every arrival; once it has returned or broken off it reads nothing more. */
  function Feed(a: Assignment, from: Step, arrivals: seq<Arrival>): (s: Step)
    requires StepInv(a, from)
    ensures StepInv(a, s)
    decreases |arrivals|
  {
    if arrivals == [] then from
    else
      match Feed(a, from, arrivals[..|arrivals| - 1])
      case More(h) => NextInv(a, h, arrivals[|arrivals| - 1]); Next(a, h, arrivals[|arrivals| - 1])
      case other => other
  }

  function Converse(a: Assignment, arrivals: seq<Arrival>): (s: Step)
    ensures StepInv(a, s)
  {
    StartInv(a);
    Feed(a, More(Start(a)), arrivals)
  }

  /** The arrival at which a conversation ended in a record. */
  lemma {:induction false} ReturnedAt(a: Assignment, arrivals: seq<Arrival>) returns (k: nat, h: Host)
    requires Converse(a, arrivals).Returned?
    ensures k < |arrivals| && Inv(a, h) && Next(a, h, arrivals[k]) == Converse(a, arrivals)
    decreases |arrivals|
  {
    hide Next, Inv;
    StartInv(a);
    var init := arrivals[..|arrivals| - 1];
    if Converse(a, init).Returned? {
      k, h := ReturnedAt(a, init);
    } else {
      k, h := |arrivals| - 1, Converse(a, init).h;
    }
  }

  /**
   Against any guest whatsoever: a run returned as successful was started, every step of
   the workflow was recorded in order under its expected name with exit code 0 and in time,
   the guest's terminal report repeats what the host had recorded and passed on, and the
   guest was never told to cancel.
   */
  lemma SuccessIsReal(a: Assignment, arrivals: seq<Arrival>)
    requires Converse(a, arrivals).Returned? && Converse(a, arrivals).record.status == Succeeded
    ensures var Returned(h, record) := Converse(a, arrivals);
            && h.started && Finished(h.calls) == record.steps
            && |record.steps| == |StepNames(a.jobs)| && AllGood(record.steps)
            && (forall i | 0 <= i < |record.steps| :: record.steps[i].name == StepNames(a.jobs)[i])
            && Cancel !in h.replies && LeaseLost !in h.replies
            && exists k, report | 0 <= k < |arrivals| && arrivals[k].frame == Done(Finish(report)) ::
                 report.status == Succeeded && report.steps == record.steps && report.outputs == Outputs(h.calls)
  {
    var k, before := ReturnedAt(a, arrivals);
    var Returned(h, record) := Converse(a, arrivals);
    EndsByReport(a, before, arrivals[k]);
    ScanTells(a, h.calls, 0);
    var report := arrivals[k].frame.content.report;
    assert arrivals[k].frame == Done(Finish(report));
  }

  lemma EndsByReport(a: Assignment, h: Host, arrival: Arrival)
    requires Inv(a, h) && Next(a, h, arrival).Returned?
    ensures arrival.frame.Done? && arrival.frame.content.Finish?
    ensures var report := arrival.frame.content.report;
            && Consistent(a, h, report)
            && var s := Next(a, h, arrival);
               && s.h.calls == h.calls && s.h.started == h.started && s.h.outputs == h.outputs
               && s.record.steps == h.record.steps
               && (s.record.status == Succeeded ==> report.status == Succeeded && !s.h.cancelSent)
  {
    hide Inv;
  }

  // ----- artifacts -------------------------------------------------------------------------

  /** Against any guest: an artifact reaches the sink only once its job, and all jobs before it, have succeeded. */
  lemma RelayedArtifactIsEarned(a: Assignment, arrivals: seq<Arrival>, i: nat) returns (j: nat)
    requires i < |Converse(a, arrivals).h.calls| && Converse(a, arrivals).h.calls[i].PutArtifact?
    ensures var calls := Converse(a, arrivals).h.calls;
            && j < |a.jobs| && a.jobs[j].artifact == Some(calls[i].artifact)
            && AllGood(Finished(calls[..i])) && StepsThrough(a.jobs, j + 1) <= |Finished(calls[..i])|
            && |calls[i].bundle| <= a.maxArtifact
  {
    hide Finished, Scan, StepsThrough;
    j := ArtifactIsEarned(a, Converse(a, arrivals).h.calls, i);
  }

  /** The bytes of the chunks among the arrivals. */
  function Sent(arrivals: seq<Arrival>): string
    decreases |arrivals|
  {
    if arrivals == [] then ""
    else
      var last := arrivals[|arrivals| - 1].frame;
      Sent(arrivals[..|arrivals| - 1]) + if last.Chunk? then last.bytes else ""
  }

  lemma ChunkCounts(a: Assignment, h: Host, arrival: Arrival)
    requires Inv(a, h) && h.mode.InArtifact?
    requires Next(a, h, arrival).More? && Next(a, h, arrival).h.mode.InArtifact?
    ensures var after := Next(a, h, arrival).h;
            && arrival.frame.Chunk? && |arrival.frame.bytes| <= h.mode.left
            && after.mode == InArtifact(h.mode.artifact, h.mode.left - |arrival.frame.bytes|,
                h.mode.received + arrival.frame.bytes)
            && after.calls == h.calls
  {
    hide Scan, Agrees;
    assert GuardInv(a, h, Scan(a, h.calls).value) && ModeInv(a, h);
    hide GuardInv;
  }

  /** The event that announces an artifact: the slot of a job that declares it, its size and its note. */
  predicate Announces(a: Assignment, f: Frame, artifact: Artifact, size: nat, note: Bytes) {
    f.Event? && Fields(f.text).Some? &&
    var part := Fields(f.text).value;
    && |part| == 4 && part[0] == "artifact" && part[2] == Decimal(size) && part[3] == HexOrDash(note)
    && ParseNumber(part[1]).Some? && ParseNumber(part[1]).value < |a.jobs|
    && a.jobs[ParseNumber(part[1]).value].artifact == Some(artifact)
  }

  predicate AllChunks(arrivals: seq<Arrival>) {
    forall i | 0 <= i < |arrivals| :: arrivals[i].frame.Chunk?
  }

  /** A bundle is opened by the event that announces it. */
  lemma OpensAsAnnounced(a: Assignment, h: Host, arrival: Arrival)
    requires |h.guard.put| == |a.jobs| && !h.mode.InArtifact?
    requires Next(a, h, arrival).More? && Next(a, h, arrival).h.mode.InArtifact?
    ensures var mode := Next(a, h, arrival).h.mode;
            mode.received == "" && Announces(a, arrival.frame, mode.artifact, mode.left, [])
  {
    hide Decimal, HexOrDash, ParseNumber, Split, StepsThrough, StepNames, F.Parses, Consistent, Fields;
    if h.mode.AtEvent? && arrival.frame.Event? {
      var part := Fields(arrival.frame.text).value;
      EventOpens(a, h, part, arrival.verdict);
    }
  }

  lemma EventOpens(a: Assignment, h: Host, part: seq<string>, verdict: Reply)
    requires |h.guard.put| == |a.jobs| && h.mode.AtEvent? && part != []
    requires Dispatch(a, h, part, verdict).More? && Dispatch(a, h, part, verdict).h.mode.InArtifact?
    ensures |part| == 4 && part[0] == "artifact" && ParseNumber(part[1]).Some? && ParseNumber(part[1]).value < |a.jobs|
    ensures var mode := Dispatch(a, h, part, verdict).h.mode;
            && mode.received == "" && part[2] == Decimal(mode.left) && part[3] == HexOrDash([])
            && a.jobs[ParseNumber(part[1]).value].artifact == Some(mode.artifact)
  {
    hide Decimal, HexOrDash, ParseNumber, Split, StepsThrough, StepNames, ExitCode, FromHexOrDash;
    if |part| == 4 && ParseNumber(part[2]).Some? {
      NumberRoundTrip(part[2], ParseNumber(part[2]).value);
    }
  }

  /** At most one call more. */
  predicate Further(before: seq<Call>, after: seq<Call>) {
    after == before || (|after| == |before| + 1 && after[..|before|] == before)
  }

  /** The call that is new, if any, hands no artifact over. */
  predicate NoPut(before: seq<Call>, after: seq<Call>) {
    Further(before, after) && (|after| > |before| ==> !after[|before|].PutArtifact?)
  }

  lemma OneCall(before: Host, h: Host, c: Call, verdict: Reply)
    requires h.calls == before.calls
    ensures var after := Deliver(h, c, verdict).h.calls;
            Further(before.calls, after) && |after| == |before.calls| + 1 && after[|before.calls|] == c
  {
  }

  lemma OtherEventPutsNothing(a: Assignment, h: Host, part: seq<string>, verdict: Reply)
    requires |h.guard.put| == |a.jobs| && part != [] && part[0] != "artifact"
    ensures NoPut(h.calls, Dispatch(a, h, part, verdict).h.calls)
  {
    hide Decimal, HexOrDash, ParseNumber, Split, StepsThrough, StepNames, ExitCode, Unhex, Deliver, NoPut, OnArtifact;
    NothingPut(h.calls);
    EachCall(h, verdict);
  }

  lemma NothingPut(calls: seq<Call>)
    ensures NoPut(calls, calls)
  {
  }

  /** Delivering any callback but an artifact puts nothing. */
  lemma EachCall(h: Host, verdict: Reply)
    ensures forall g: Host, c: Call | g.calls == h.calls && !c.PutArtifact? ::
              NoPut(h.calls, Deliver(g, c, verdict).h.calls)
  {
    forall g: Host, c: Call | g.calls == h.calls && !c.PutArtifact?
      ensures NoPut(h.calls, Deliver(g, c, verdict).h.calls)
    {
      OneCall(h, g, c, verdict);
    }
  }

  /** An artifact event calls at once only when it brings a note. */
  lemma ArtifactEventCalls(a: Assignment, h: Host, part: seq<string>, verdict: Reply)
    requires |h.guard.put| == |a.jobs| && |part| == 4
    ensures var calls := OnArtifact(a, h, part, verdict).h.calls;
            && Further(h.calls, calls)
            && (|calls| > |h.calls| ==>
                  var c := calls[|h.calls|];
                  && c.PutArtifact? && part[2] == Decimal(0) && part[3] == HexOrDash(c.note)
                  && ParseNumber(part[1]).Some? && ParseNumber(part[1]).value < |a.jobs|
                  && a.jobs[ParseNumber(part[1]).value].artifact == Some(c.artifact)
                  && c.bundle == "" && c.note != [])
  {
    hide Decimal, HexOrDash, ParseNumber, StepsThrough, FromHexOrDash;
    if ParseNumber(part[2]).Some? {
      NumberRoundTrip(part[2], ParseNumber(part[2]).value);
    }
  }

  lemma EventCalls(a: Assignment, h: Host, part: seq<string>, verdict: Reply)
    requires |h.guard.put| == |a.jobs| && h.mode.AtEvent? && part != []
    ensures var calls := Dispatch(a, h, part, verdict).h.calls;
            && Further(h.calls, calls)
            && (|calls| > |h.calls| && calls[|h.calls|].PutArtifact? ==>
                  var c := calls[|h.calls|];
                  && |part| == 4 && part[0] == "artifact" && part[2] == Decimal(0) && part[3] == HexOrDash(c.note)
                  && ParseNumber(part[1]).Some? && ParseNumber(part[1]).value < |a.jobs|
                  && a.jobs[ParseNumber(part[1]).value].artifact == Some(c.artifact)
                  && c.bundle == "" && c.note != [])
  {
    hide OnArtifact, Decimal, HexOrDash, ParseNumber;
    if part[0] != "artifact" {
      OtherEventPutsNothing(a, h, part, verdict);
      hide Dispatch;
    } else {
      NothingPut(h.calls);
      if |part| == 4 {
        ArtifactEventCalls(a, h, part, verdict);
      }
    }
  }

  /** What an artifact call came from: the end of its bundle, or its event when there is only a note. */
  predicate PutOrigin(a: Assignment, h: Host, f: Frame, c: Call)
    requires c.PutArtifact?
  {
    if h.mode.InArtifact? then
      && h.mode.left == 0 && f == Done(Empty)
      && c.artifact == h.mode.artifact && c.bundle == h.mode.received && c.note == []
    else h.mode.AtEvent? && Announces(a, f, c.artifact, 0, c.note) && c.bundle == "" && c.note != []
  }

  lemma PutComesFrom(a: Assignment, h: Host, arrival: Arrival)
    requires |h.guard.put| == |a.jobs|
    ensures var calls := Next(a, h, arrival).h.calls;
            && Further(h.calls, calls)
            && (|calls| > |h.calls| && calls[|h.calls|].PutArtifact? ==>
                  PutOrigin(a, h, arrival.frame, calls[|h.calls|]))
  {
    hide Decimal, HexOrDash, ParseNumber, Fields, Dispatch, OnFinish, OnArtifactFrame, OnPagesFrame, Deliver;
    NothingPut(h.calls);
    match h.mode {
      case AtEvent =>
        match arrival.frame {
          case Event(text) =>
            if Fields(text).Some? && Fields(text).value != [] {
              EventCalls(a, h, Fields(text).value, arrival.verdict);
            }
          case Done(content) =>
            if content.Finish? {
              FinishCallsNothing(a, h, content.report, arrival.verdict);
            }
          case _ =>
        }
      case AwaitLog =>
        EachCall(h, arrival.verdict);
      case InArtifact(_, _, _) =>
        ArtifactFrameCalls(a, h, arrival.frame, arrival.verdict);
      case InPages(_, _) =>
        PagesFrameCalls(h, arrival.frame, arrival.verdict);
    }
  }

  lemma FinishCallsNothing(a: Assignment, h: Host, report: F.Report, verdict: Reply)
    ensures OnFinish(a, h, report, verdict).h.calls == h.calls
  {
    hide F.Parses, Consistent;
  }

  lemma ArtifactFrameCalls(a: Assignment, h: Host, f: Frame, verdict: Reply)
    requires h.mode.InArtifact?
    ensures var calls := OnArtifactFrame(a, h, f, verdict).h.calls;
            && Further(h.calls, calls)
            && (|calls| > |h.calls| ==> calls[|h.calls|].PutArtifact? && PutOrigin(a, h, f, calls[|h.calls|]))
  {
    hide Announces;
  }

  lemma PagesFrameCalls(h: Host, f: Frame, verdict: Reply)
    requires h.mode.InPages?
    ensures NoPut(h.calls, OnPagesFrame(h, f, verdict).h.calls)
  {
  }

  lemma SentMore(arrivals: seq<Arrival>, last: Arrival)
    requires last.frame.Chunk?
    ensures Sent(arrivals + [last]) == Sent(arrivals) + last.frame.bytes
  {
    assert (arrivals + [last])[..|arrivals|] == arrivals;
  }

  /**
   Whenever a bundle is being received, an event of this very conversation announced it, only chunks
   have come since, and what they held and what is outstanding add up to the size it declared.
   */
  lemma {:induction false} OpenedAt(a: Assignment, arrivals: seq<Arrival>) returns (k: nat, size: nat)
    requires Converse(a, arrivals).More? && Converse(a, arrivals).h.mode.InArtifact?
    ensures var mode := Converse(a, arrivals).h.mode;
            && k < |arrivals| && Announces(a, arrivals[k].frame, mode.artifact, size, [])
            && AllChunks(arrivals[k + 1..]) && mode.received == Sent(arrivals[k + 1..])
            && |mode.received| + mode.left == size
    decreases |arrivals|
  {
    StartInv(a);
    hide Next, Inv, Announces;
    assert arrivals != [];
    var init, last := arrivals[..|arrivals| - 1], arrivals[|arrivals| - 1];
    var before := Converse(a, init);
    assert before.More? && Inv(a, before.h);
    PutSlots(a, before.h);
    assert Converse(a, arrivals) == Next(a, before.h, last);
    if before.h.mode.InArtifact? {
      ChunkCounts(a, before.h, last);
      k, size := OpenedAt(a, init);
      assert arrivals[k + 1..] == init[k + 1..] + [last] && arrivals[k] == init[k];
      SentMore(init[k + 1..], last);
    } else {
      OpensAsAnnounced(a, before.h, last);
      k, size := |arrivals| - 1, Converse(a, arrivals).h.mode.left;
      assert arrivals[k + 1..] == [];
    }
  }

  lemma PutSlots(a: Assignment, h: Host)
    requires Inv(a, h)
    ensures |h.guard.put| == |a.jobs|
  {
    hide Scan, Agrees, ModeInv;
  }

  /**
   Against any guest, every artifact that reached the sink was announced by an event of the
   conversation: its bundle is all the bytes of the chunks that followed, which were as many as
   that event declared, up to the end marker at `m`; or it is a note, and there were none.
   */
  lemma {:induction false} PutIsAsDeclared(a: Assignment, arrivals: seq<Arrival>, i: nat) returns (k: nat, m: nat)
    requires i < |Converse(a, arrivals).h.calls| && Converse(a, arrivals).h.calls[i].PutArtifact?
    ensures var c := Converse(a, arrivals).h.calls[i];
            if c.note == [] then
              && k < m < |arrivals| && Announces(a, arrivals[k].frame, c.artifact, |c.bundle|, [])
              && AllChunks(arrivals[k + 1..m]) && c.bundle == Sent(arrivals[k + 1..m])
              && arrivals[m].frame == Done(Empty)
            else
              k == m < |arrivals| && Announces(a, arrivals[k].frame, c.artifact, 0, c.note) && c.bundle == ""
    decreases |arrivals|
  {
    StartInv(a);
    hide Next, Inv, Announces;
    assert arrivals != [];
    var init, last := arrivals[..|arrivals| - 1], arrivals[|arrivals| - 1];
    var before := Converse(a, init);
    var calls := Converse(a, arrivals).h.calls;
    if before.More? {
      PutSlots(a, before.h);
      PutComesFrom(a, before.h, last);
    }
    if i < |before.h.calls| {
      assert calls[i] == before.h.calls[i] by {
        assert calls == before.h.calls || calls[..|before.h.calls|][i] == before.h.calls[i];
      }
      k, m := PutIsAsDeclared(a, init, i);
      assert arrivals[k] == init[k] && arrivals[m] == init[m] && (k < m ==> arrivals[k + 1..m] == init[k + 1..m]);
    } else {
      m := |arrivals| - 1;
      if before.h.mode.InArtifact? {
        var size;
        k, size := OpenedAt(a, init);
        assert arrivals[k] == init[k] && arrivals[k + 1..m] == init[k + 1..];
      } else {
        k := m;
      }
    }
  }
}
