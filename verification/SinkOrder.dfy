/**
 What a CI result sink may be told, and in which order: the executor publishes the
 run, then for each step its start, its output and its result, and hands over an
 artifact only once the steps that produce it have succeeded.

 The order is stated on callbacks alone. It knows nothing of frames, so both ends of
 the VM protocol can be judged against it.
 */
module SinkOrder {
  import opened Wrappers
  import opened Text
  import opened Records

  datatype Artifact = Artifact(name: string, paths: seq<string>, retentionDays: nat)

  datatype Job = Job(name: Bytes, steps: seq<Bytes>, artifact: Option<Artifact>)

  /** The prepared job together with the limits of its policy. */
  datatype Assignment = Assignment(
    jobs: seq<Job>, isRelease: bool, isDefaultBranch: bool, hasPages: bool,
    maxLog: U64, maxArtifact: U64)

  /** One output as the terminal report declares it. */
  datatype Output = Output(name: string, release: bool, retentionDays: nat, note: Bytes)

  datatype Call =
    | RunStarted(epoch: U64)
    | StepStarted(index: nat)
    | AppendLog(index: nat, bytes: string)
    | StepFinished(index: nat, result: StepResult)
    | Heartbeat
    | Tick
    | Progress(detail: Bytes)
    | PutArtifact(artifact: Artifact, bundle: string, note: Bytes, release: bool)
    | PutPages(archive: string)

  const MAX_PAGES_ARCHIVE: nat := 9 * 0x4000_0000

  function ExpectedName(job: Job, k: nat): Bytes
    requires k < |job.steps|
  {
    if job.steps[k] == [] then job.name else job.steps[k]
  }

  /** The label every step of the workflow must finish under, job after job. */
  function StepNames(jobs: seq<Job>): seq<Bytes> {
    if jobs == [] then []
    else StepNames(jobs[..|jobs| - 1]) +
         (var job := jobs[|jobs| - 1]; seq(|job.steps|, k requires 0 <= k < |job.steps| => ExpectedName(job, k)))
  }

  /** Steps of the first `n` jobs. */
  function StepsThrough(jobs: seq<Job>, n: nat): nat
    requires n <= |jobs|
  {
    |StepNames(jobs[..n])|
  }

  lemma {:induction false} StepsThroughMonotone(jobs: seq<Job>, m: nat, n: nat)
    requires m <= n <= |jobs|
    ensures StepsThrough(jobs, m) <= StepsThrough(jobs, n)
    decreases n
  {
    if m < n {
      StepsThroughMonotone(jobs, m, n - 1);
      assert jobs[..n][..n - 1] == jobs[..n - 1];
    }
  }

  /** The jobs that declare `artifact` and whose steps are among the first `finished` ones. */
  function Producers(jobs: seq<Job>, artifact: Artifact, finished: nat): set<nat> {
    set j: nat | j < |jobs| && jobs[j].artifact == Some(artifact) && StepsThrough(jobs, j + 1) <= finished
  }

  /** What a listener knows after a sequence of callbacks. */
  datatype View = View(
    started: bool, epoch: U64, active: bool, steps: seq<StepResult>, logged: nat,
    puts: multiset<Artifact>, outputs: seq<Output>, pages: bool)

  const NOTHING := View(false, 0, false, [], 0, multiset{}, [], false)

  predicate MayStartStep(a: Assignment, v: View, index: nat) {
    v.started && !v.active && index == |v.steps| < |StepNames(a.jobs)| && AllGood(v.steps)
  }

  predicate MayPutArtifact(a: Assignment, v: View, c: Call)
    requires c.PutArtifact?
  {
    && v.started && !v.active && v.steps != [] && AllGood(v.steps)
    && c.release == a.isRelease
    && v.puts[c.artifact] < |Producers(a.jobs, c.artifact, |v.steps|)|
    && |c.bundle| <= a.maxArtifact
    && |c.note| <= MAX_DETAIL_BYTES
    && (c.note != [] ==> c.bundle == "")
  }

  predicate MayPutPages(a: Assignment, v: View, archive: string) {
    && v.started && !v.active && !v.pages
    && a.isDefaultBranch && !a.isRelease && a.hasPages
    && 0 < |v.steps| == |StepNames(a.jobs)| && AllGood(v.steps)
    && |archive| <= MAX_PAGES_ARCHIVE
  }

  /** The next view, or None when the callback breaks the order. */
  function Admit(a: Assignment, v: View, c: Call): Option<View> {
    match c
    case RunStarted(epoch) =>
      if !v.started && epoch != 0 then Some(v.(started := true, epoch := epoch)) else None
    case StepStarted(index) =>
      if MayStartStep(a, v, index) then Some(v.(active := true, logged := 0)) else None
    case AppendLog(index, bytes) =>
      if v.active && index == |v.steps| && v.logged + |bytes| <= a.maxLog
      then Some(v.(logged := v.logged + |bytes|)) else None
    case StepFinished(index, result) =>
      if v.active && index == |v.steps| < |StepNames(a.jobs)| && result.name == StepNames(a.jobs)[index] &&
         |result.name| <= MAX_DETAIL_BYTES
      then Some(v.(active := false, steps := v.steps + [result])) else None
    case Heartbeat => if v.started then Some(v) else None
    case Tick => if v.started then Some(v) else None
    case Progress(detail) => if v.started && |detail| <= MAX_DETAIL_BYTES then Some(v) else None
    case PutArtifact(artifact, bundle, note, release) =>
      if MayPutArtifact(a, v, c)
      then Some(v.(puts := v.puts + multiset{artifact},
                   outputs := v.outputs + [Output(artifact.name, release, artifact.retentionDays, note)]))
      else None
    case PutPages(archive) =>
      if MayPutPages(a, v, archive) then Some(v.(pages := true)) else None
  }

  /** The view after all of `calls`, or None when one of them breaks the order. */
  function Scan(a: Assignment, calls: seq<Call>): Option<View> {
    if calls == [] then Some(NOTHING)
    else
      match Scan(a, calls[..|calls| - 1])
      case None => None
      case Some(v) => Admit(a, v, calls[|calls| - 1])
  }

  lemma ScanAppend(a: Assignment, calls: seq<Call>, c: Call)
    ensures Scan(a, calls + [c]) ==
            match Scan(a, calls) { case None => None case Some(v) => Admit(a, v, c) }
  {
    assert (calls + [c])[..|calls|] == calls;
  }

  // ----- consequences of the order ---------------------------------------------

  function Finished(calls: seq<Call>): seq<StepResult> {
    if calls == [] then []
    else
      Finished(calls[..|calls| - 1]) +
      (var c := calls[|calls| - 1]; if c.StepFinished? then [c.result] else [])
  }

  function LogOf(calls: seq<Call>, index: nat): string {
    if calls == [] then ""
    else
      LogOf(calls[..|calls| - 1], index) +
      (var c := calls[|calls| - 1]; if c.AppendLog? && c.index == index then c.bytes else "")
  }

  function Outputs(calls: seq<Call>): seq<Output> {
    if calls == [] then []
    else
      Outputs(calls[..|calls| - 1]) +
      (var c := calls[|calls| - 1];
       if c.PutArtifact? then [Output(c.artifact.name, c.release, c.artifact.retentionDays, c.note)] else [])
  }

  lemma {:induction false} ScanPrefix(a: Assignment, calls: seq<Call>, n: nat)
    requires n <= |calls| && Scan(a, calls).Some?
    ensures Scan(a, calls[..n]).Some?
    decreases |calls|
  {
    if n < |calls| {
      ScanPrefix(a, calls[..|calls| - 1], n);
      assert calls[..|calls| - 1][..n] == calls[..n];
    } else {
      assert calls[..n] == calls;
    }
  }

  /** The view is the story the callbacks tell, and step `index` stays within the log limit. */
  predicate Told(a: Assignment, calls: seq<Call>, v: View, index: nat) {
    && v.steps == Finished(calls) && v.outputs == Outputs(calls)
    && |v.steps| <= |StepNames(a.jobs)|
    && (forall i | 0 <= i < |v.steps| :: v.steps[i].name == StepNames(a.jobs)[i])
    && |LogOf(calls, index)| <= a.maxLog
    && (index == |v.steps| ==> |LogOf(calls, index)| == if v.active then v.logged else 0)
    && (index > |v.steps| ==> LogOf(calls, index) == "")
  }

  lemma LastCall(calls: seq<Call>, c: Call, index: nat)
    ensures Finished(calls + [c]) == Finished(calls) + if c.StepFinished? then [c.result] else []
    ensures Outputs(calls + [c]) == Outputs(calls) +
              if c.PutArtifact? then [Output(c.artifact.name, c.release, c.artifact.retentionDays, c.note)] else []
    ensures LogOf(calls + [c], index) ==
            LogOf(calls, index) + if c.AppendLog? && c.index == index then c.bytes else ""
  {
    assert (calls + [c])[..|calls|] == calls;
  }

  lemma AdmitTells(a: Assignment, calls: seq<Call>, v: View, c: Call, index: nat)
    requires Told(a, calls, v, index) && Admit(a, v, c).Some?
    ensures Told(a, calls + [c], Admit(a, v, c).value, index)
  {
    LastCall(calls, c, index);
    hide StepNames, Producers, MayPutPages, MayPutArtifact, Finished, Outputs, LogOf;
  }

  lemma {:induction false} ScanTells(a: Assignment, calls: seq<Call>, index: nat)
    requires Scan(a, calls).Some?
    ensures Told(a, calls, Scan(a, calls).value, index)
    decreases |calls|
  {
    if calls != [] {
      var init, c := calls[..|calls| - 1], calls[|calls| - 1];
      ScanTells(a, init, index);
      AdmitTells(a, init, Scan(a, init).value, c, index);
      assert calls == init + [c];
    }
  }

  lemma PutIsAdmitted(a: Assignment, calls: seq<Call>, i: nat)
    requires Scan(a, calls).Some? && i < |calls| && calls[i].PutArtifact?
    ensures Scan(a, calls[..i]).Some? && MayPutArtifact(a, Scan(a, calls[..i]).value, calls[i])
  {
    hide Scan, StepNames, Producers;
    ScanPrefix(a, calls, i + 1);
    assert calls[..i + 1] == calls[..i] + [calls[i]];
    ScanAppend(a, calls[..i], calls[i]);
  }

  /** No more steps than the workflow has; a running one is among them. */
  lemma {:induction false} StepsBound(a: Assignment, calls: seq<Call>)
    requires Scan(a, calls).Some?
    ensures var v := Scan(a, calls).value;
            |v.steps| <= |StepNames(a.jobs)| && (v.active ==> |v.steps| < |StepNames(a.jobs)|)
    decreases |calls|
  {
    hide StepNames, Producers;
    if calls != [] {
      StepsBound(a, calls[..|calls| - 1]);
    }
  }

  /** An artifact comes only after every step of a job declaring it, and of all earlier jobs, succeeded. */
  lemma ArtifactIsEarned(a: Assignment, calls: seq<Call>, i: nat) returns (j: nat)
    requires Scan(a, calls).Some? && i < |calls| && calls[i].PutArtifact?
    ensures j < |a.jobs| && a.jobs[j].artifact == Some(calls[i].artifact)
    ensures var done := Finished(calls[..i]);
            AllGood(done) && StepsThrough(a.jobs, j + 1) <= |done| && |calls[i].bundle| <= a.maxArtifact
  {
    hide Scan, Finished, Outputs, LogOf, StepNames, StepsThrough;
    PutIsAdmitted(a, calls, i);
    ScanTells(a, calls[..i], 0);
    var v := Scan(a, calls[..i]).value;
    j := SomeProducer(a, calls[i].artifact, |v.steps|);
  }

  lemma SomeProducer(a: Assignment, artifact: Artifact, finished: nat) returns (j: nat)
    requires |Producers(a.jobs, artifact, finished)| > 0
    ensures j < |a.jobs| && a.jobs[j].artifact == Some(artifact) && StepsThrough(a.jobs, j + 1) <= finished
  {
    hide StepNames;
    j :| j in Producers(a.jobs, artifact, finished);
  }
}
