/**
 A whole job in a virtual machine: stage, start, relay, stop, remove the workspace, publish.
 Every call may fail, and cancellation or the loss of the lease may show at every look. What
 the job did is its trace; what it may do is a machine that reads traces.
 */
module VmJob {
  import opened Wrappers
  import opened Records

  datatype Outcome = Outcome(status: RunStatus, steps: seq<StepResult>, detail: string)

  datatype Stopped = Confirmed | Unconfirmed | StopThrew

  datatype Event =
    | Workspace(ok: bool)
    | Stage(ok: bool)
    | Beat(ok: bool)
    | Lease(lost: bool)
    | Cancel(requested: bool)
    | Start(ok: bool)
    | Handshake(ok: bool)
    | Relay(result: Option<Outcome>)
    | Stop(how: Stopped)
    | ShutdownBeat(ok: bool)
    | Remove(ok: bool)
    | Finish(published: Outcome, ok: bool)

  const CANCELLED_EARLY := Outcome(Cancelled, [], "cancelled before the VM guest was ready")

  /** A cancellation seen at the end overrides the guest's result. */
  function Overridden(result: Outcome): Outcome {
    if result.status.Cancelled? then result
    else result.(status := Cancelled, detail := "cancelled before the VM result was committed")
  }

  // ----- reading a trace ------------------------------------------------------------------------

  /**
   What a trace has come to: whether a VM may be running, whether the guest was ready and
   what it reported, whether the workspace is gone, whether keeping the lease alive failed
   during shutdown, and what the looks since the last other event have shown.
   */
  datatype Seen = Seen(
    running: bool, ready: bool, result: Option<Outcome>, removed: bool, beatFailed: bool,
    held: bool, cancel: bool, finished: bool)

  const NOTHING := Seen(false, false, None, false, false, false, false, false)

  /** What is to be published, if anything is. */
  function Due(s: Seen): Option<Outcome> {
    match s.result
    case Some(result) => Some(if s.cancel then Overridden(result) else result)
    case None => if !s.ready && s.cancel then Some(CANCELLED_EARLY) else None
  }

  /** A result goes out once, after the VM never started or stopped for sure, the workspace gone and the lease held. */
  predicate MayFinish(s: Seen, outcome: Outcome) {
    !s.running && s.removed && !s.beatFailed && s.held && !s.finished && Due(s) == Some(outcome)
  }

  predicate Allowed(s: Seen, e: Event) {
    match e
    case Remove(_) => !s.running
    case Finish(outcome, _) => MayFinish(s, outcome)
    case _ => true
  }

  function Next(s: Seen, e: Event): Seen {
    match e
    case Lease(lost) => s.(held := !lost)
    case Cancel(requested) => s.(cancel := requested)
    case Finish(_, _) => s.(finished := true)
    case Start(ok) => s.(running := s.running || ok, held := false, cancel := false)
    case Handshake(ok) => s.(ready := s.ready || ok, held := false, cancel := false)
    case Relay(result) => s.(result := result, held := false, cancel := false)
    case Stop(how) => s.(running := s.running && !how.Confirmed?, held := false, cancel := false)
    case Remove(ok) => s.(removed := s.removed || ok, held := false, cancel := false)
    case ShutdownBeat(ok) => s.(beatFailed := s.beatFailed || !ok, held := false, cancel := false)
    case _ => s.(held := false, cancel := false)
  }

  function Read(trace: seq<Event>): Seen
    decreases |trace|
  {
    if trace == [] then NOTHING else Next(Read(trace[..|trace| - 1]), trace[|trace| - 1])
  }

  predicate Orderly(trace: seq<Event>) {
    forall i | 0 <= i < |trace| :: Allowed(Read(trace[..i]), trace[i])
  }

  lemma ReadMore(trace: seq<Event>, e: Event)
    ensures Read(trace + [e]) == Next(Read(trace), e)
    ensures Orderly(trace + [e]) <==> Orderly(trace) && Allowed(Read(trace), e)
  {
    hide Next, Allowed;
    var more := trace + [e];
    assert more[..|trace|] == trace && more[|trace|] == e;
    assert forall i | 0 <= i < |trace| :: more[..i] == trace[..i] && more[i] == trace[i];
  }

  lemma EmptyIsOrderly()
    ensures Orderly([]) && Read([]) == NOTHING
  {
  }

  /** Something on the way to a result failed, or a look told the job to stop. */
  predicate Hindered(trace: seq<Event>) {
    exists i | 0 <= i < |trace| :: Hindrance(trace[i])
  }

  predicate Hindrance(e: Event) {
    e in {Stage(false), Beat(false), Lease(true), Cancel(true), Start(false), Handshake(false), Relay(None)}
  }

  lemma HinderedStays(trace: seq<Event>, more: seq<Event>)
    requires Hindered(trace) && trace <= more
    ensures Hindered(more)
  {
    var i :| 0 <= i < |trace| && Hindrance(trace[i]);
    assert more[i] == trace[i];
  }

  lemma HinderedNow(trace: seq<Event>, e: Event)
    requires Hindrance(e)
    ensures Hindered(trace + [e])
  {
    assert (trace + [e])[|trace|] == e;
  }

  /** Why a job ends without publishing: each case names the last thing that happened. */
  predicate GaveUp(trace: seq<Event>) {
    trace != [] &&
    var s, last := Read(trace), trace[|trace| - 1];
    || last in {Workspace(false), Stop(Unconfirmed), Stop(StopThrew), Remove(false)}
    || (!s.running && s.removed &&
        (s.beatFailed || last == Lease(true) || (s.result.None? && Hindered(trace) &&
            (s.ready || last == Cancel(false)))))
  }

  // ----- the job ----------------------------------------------------------------------------------

  class Job {
    var trace: seq<Event>

    ghost function Sight(): Seen
      reads this
    {
      Read(trace)
    }

    constructor ()
      ensures trace == []
    {
      trace := [];
    }

    method Did(e: Event)
      requires Orderly(trace) && Allowed(Sight(), e)
      modifies this
      ensures trace == old(trace) + [e] && Orderly(trace) && Sight() == Next(old(Sight()), e)
    {
      hide Read, Orderly;
      ReadMore(trace, e);
      trace := trace + [e];
    }

    method LeaseLost() returns (lost: bool)
      requires Orderly(trace)
      modifies this
      ensures trace == old(trace) + [Lease(lost)] && Orderly(trace) && Sight() == Next(old(Sight()), Lease(lost))
    {
      hide Read, Orderly;
      lost := *;
      Did(Lease(lost));
    }

    method CancelRequested() returns (requested: bool)
      requires Orderly(trace)
      modifies this
      ensures trace == old(trace) + [Cancel(requested)] && Orderly(trace)
      ensures Sight() == Next(old(Sight()), Cancel(requested))
    {
      hide Read, Orderly;
      requested := *;
      Did(Cancel(requested));
    }

    /** The heartbeat that the long calls make on their way; None when it throws. */
    method Keep() returns (going: Option<bool>)
      requires Orderly(trace)
      modifies this
      ensures old(trace) <= trace
      ensures Orderly(trace) && Looked(old(Sight()), Sight())
      ensures going != Some(true) ==> Hindered(trace)
    {
      hide Read, Orderly, Hindered;
      var ok: bool := *;
      HinderedNow(trace, Beat(false));
      Did(Beat(ok));
      if !ok {
        return None;
      }
      HinderedNow(trace, Lease(true));
      var lost := LeaseLost();
      if lost {
        return Some(false);
      }
      HinderedNow(trace, Cancel(true));
      var requested := CancelRequested();
      return Some(!requested);
    }

    /** Any number of those heartbeats. */
    method Keeps()
      requires Orderly(trace)
      modifies this
      ensures old(trace) <= trace
      ensures Orderly(trace) && Looked(old(Sight()), Sight())
    {
      hide Read, Orderly;
      var times: nat := *;
      while times > 0
        invariant Orderly(trace) && Looked(old(Sight()), Sight()) && old(trace) <= trace
      {
        var going := Keep();
        times := times - 1;
      }
    }

    method ShutdownHeartbeat(failed: bool) returns (nowFailed: bool)
      requires Orderly(trace) && Sight().beatFailed == failed
      modifies this
      ensures old(trace) <= trace
      ensures Orderly(trace) && Sight().beatFailed == nowFailed && Rested(old(Sight()), Sight())
    {
      hide Read, Orderly;
      if failed {
        return true;
      }
      var lost := LeaseLost();
      if lost {
        return false;
      }
      var ok: bool := *;
      Did(ShutdownBeat(ok));
      return !ok;
    }

    method ShutdownHeartbeats(failed: bool) returns (nowFailed: bool)
      requires Orderly(trace) && Sight().beatFailed == failed
      modifies this
      ensures old(trace) <= trace
      ensures Orderly(trace) && Sight().beatFailed == nowFailed && Rested(old(Sight()), Sight())
    {
      hide Read, Orderly;
      nowFailed := failed;
      var times: nat := *;
      while times > 0
        invariant Orderly(trace) && Sight().beatFailed == nowFailed && Rested(old(Sight()), Sight()) &&
                  old(trace) <= trace
      {
        nowFailed := ShutdownHeartbeat(nowFailed);
        times := times - 1;
      }
    }

    /** Stage the sources and start the VM. */
    method Launch() returns (started: bool)
      requires Orderly(trace) && Looked(NOTHING, Sight())
      modifies this
      ensures old(trace) <= trace
      ensures Orderly(trace) && Looked(NOTHING.(running := started), Sight())
      ensures !started ==> Hindered(trace)
    {
      hide Read, Orderly, Hindered;
      Keeps();
      var staged: bool := *;
      HinderedNow(trace, Stage(false));
      Did(Stage(staged));
      if !staged {
        return false;
      }
      var going := Keep();
      if going != Some(true) {
        return false;
      }
      started := *;
      HinderedNow(trace, Start(false));
      Did(Start(started));
    }

    /** Launch, greet and relay; the result is missing when something threw. */
    method Attempt() returns (started: bool, ready: bool, result: Option<Outcome>)
      requires Orderly(trace) && Looked(NOTHING, Sight())
      modifies this
      ensures old(trace) <= trace
      ensures Orderly(trace) && Looked(NOTHING.(running := started, ready := ready, result := result), Sight())
      ensures result.None? ==> Hindered(trace)
    {
      hide Read, Orderly, Hindered;
      ready, result := false, None;
      started := Launch();
      if !started {
        return;
      }
      Keeps();
      ready := *;
      HinderedNow(trace, Handshake(false));
      Did(Handshake(ready));
      if !ready {
        return;
      }
      Keeps();
      result := *;
      HinderedNow(trace, Relay(None));
      Did(Relay(result));
    }

    /** Stop the VM if there is one, remove the workspace, keep the lease alive meanwhile. */
    method ShutDown(started: bool) returns (clean: bool)
      requires Orderly(trace) && Sight().running == started && !Sight().removed && !Sight().beatFailed &&
               !Sight().finished
      modifies this
      ensures old(trace) <= trace
      ensures Orderly(trace) && Sight().ready == old(Sight().ready) && Sight().result == old(Sight().result)
      ensures !Sight().finished
      ensures trace != []
      ensures !clean ==> trace[|trace| - 1] in {Stop(Unconfirmed), Stop(StopThrew), Remove(false)} || Failing(Sight())
      ensures clean <==> !Sight().running && Sight().removed && !Sight().beatFailed
    {
      hide Read, Orderly;
      var failed := false;
      if started {
        failed := ShutdownHeartbeats(failed);
        var how: Stopped := *;
        Did(Stop(how));
        if !how.Confirmed? {
          return false;
        }
      }
      failed := ShutdownHeartbeats(failed);
      var removed: bool := *;
      Did(Remove(removed));
      if !removed {
        return false;
      }
      failed := ShutdownHeartbeat(failed);
      return !failed;
    }

    /**
     runCiMacosVmJob. The trace is orderly throughout, and the job ends by publishing unless it
     had one of the reasons not to.
     */
    method Run() returns (published: Option<Outcome>)
      requires trace == []
      modifies this
      ensures Orderly(trace)
      ensures published.Some? ==> trace != [] && trace[|trace| - 1] == Finish(published.value, true)
      ensures Sight().finished ==> trace != [] && trace[|trace| - 1].Finish?
      ensures Sight().finished || GaveUp(trace)
    {
      EmptyIsOrderly();
      hide Read, Orderly, Hindered;
      published := None;
      var opens: bool := *;
      Did(Workspace(opens));
      if !opens {
        return;
      }
      var started, ready, result := Attempt();
      ghost var tried := trace;
      var clean := ShutDown(started);
      if result.None? {
        HinderedStays(tried, trace);
      }
      ghost var shut := trace;
      if !clean || (result.None? && ready) {
        return;
      }
      var lost := LeaseLost();
      if lost {
        return;
      }
      var requested := CancelRequested();
      var outcome;
      if result.Some? {
        outcome := if requested then Overridden(result.value) else result.value;
      } else if requested {
        outcome := CANCELLED_EARLY;
      } else {
        HinderedStays(shut, trace);
        return;
      }
      var ok: bool := *;
      Did(Finish(outcome, ok));
      if ok {
        published := Some(outcome);
      }
    }
  }

  /** Shut down, but the lease could not be kept alive meanwhile. */
  predicate Failing(s: Seen) {
    !s.running && s.removed && s.beatFailed
  }

  /** Only looks have happened: no call of the job itself. */
  predicate Looked(before: Seen, after: Seen) {
    after == before.(held := after.held, cancel := after.cancel)
  }

  /** The same, but for a heartbeat during shutdown that may have failed. */
  predicate Rested(before: Seen, after: Seen) {
    after == before.(held := after.held, cancel := after.cancel, beatFailed := after.beatFailed)
  }

  // ----- what orderly traces are like -------------------------------------------------------------

  lemma ReadStep(trace: seq<Event>, n: nat)
    requires n < |trace|
    ensures Read(trace[..n + 1]) == Next(Read(trace[..n]), trace[n])
  {
    hide Next;
    assert trace[..n + 1][..n] == trace[..n];
  }

  /** Between `from` and `n` the VM's stop was confirmed. */
  predicate StoppedBetween(trace: seq<Event>, from: nat, n: nat)
    requires n <= |trace|
  {
    exists k | from < k < n :: trace[k] == Stop(Confirmed)
  }

  lemma {:induction false} NotRunningMeansStopped(trace: seq<Event>, from: nat, n: nat)
    requires from < n <= |trace| && trace[from] == Start(true) && !Read(trace[..n]).running
    ensures StoppedBetween(trace, from, n)
    decreases n
  {
    hide Read;
    ReadStep(trace, n - 1);
    if trace[n - 1] == Stop(Confirmed) {
    } else {
      assert n - 1 != from;
      NotRunningMeansStopped(trace, from, n - 1);
    }
  }

  /** A workspace is never removed, nor its removal tried, while a started VM's stop is unconfirmed. */
  lemma NeverRemovedWhileRunning(trace: seq<Event>, from: nat, i: nat)
    requires Orderly(trace) && from < i < |trace| && trace[from] == Start(true) && trace[i].Remove?
    ensures StoppedBetween(trace, from, i)
  {
    hide Read;
    assert Allowed(Read(trace[..i]), trace[i]);
    NotRunningMeansStopped(trace, from, i);
  }

  lemma NextFinished(s: Seen, e: Event)
    ensures Next(s, e).finished <==> s.finished || e.Finish?
  {
  }

  lemma NextFailed(s: Seen, e: Event)
    ensures Next(s, e).beatFailed <==> s.beatFailed || e == ShutdownBeat(false)
  {
  }

  lemma {:induction false} FinishedStays(trace: seq<Event>, i: nat, n: nat)
    requires i < n <= |trace| && trace[i].Finish?
    ensures Read(trace[..n]).finished
    decreases n
  {
    hide Read, Next;
    ReadStep(trace, n - 1);
    NextFinished(Read(trace[..n - 1]), trace[n - 1]);
    if n - 1 > i {
      FinishedStays(trace, i, n - 1);
    }
  }

  /** A result is published at most once, the attempt that fails included. */
  lemma FinishedAtMostOnce(trace: seq<Event>, i: nat, j: nat)
    requires Orderly(trace) && i < |trace| && j < |trace| && trace[i].Finish? && trace[j].Finish?
    ensures i == j
  {
    hide Read;
    assert Allowed(Read(trace[..i]), trace[i]) && Allowed(Read(trace[..j]), trace[j]);
    if i < j {
      FinishedStays(trace, i, j);
    } else if j < i {
      FinishedStays(trace, j, i);
    }
  }

  lemma {:induction false} RemovedMeansRemove(trace: seq<Event>, n: nat) returns (k: nat)
    requires n <= |trace| && Read(trace[..n]).removed
    ensures k < n && trace[k] == Remove(true)
    decreases n
  {
    assert n != 0;
    ReadStep(trace, n - 1);
    hide Read;
    if trace[n - 1] == Remove(true) {
      k := n - 1;
    } else {
      k := RemovedMeansRemove(trace, n - 1);
    }
  }

  lemma {:induction false} FailedBeatStays(trace: seq<Event>, i: nat, n: nat)
    requires i < n <= |trace| && trace[i] == ShutdownBeat(false)
    ensures Read(trace[..n]).beatFailed
    decreases n
  {
    hide Read, Next;
    ReadStep(trace, n - 1);
    NextFailed(Read(trace[..n - 1]), trace[n - 1]);
    if n - 1 > i {
      FailedBeatStays(trace, i, n - 1);
    }
  }

  /** The lease was seen held at `k`, and only looks for a cancellation followed up to `n`. */
  predicate HeldLastAt(trace: seq<Event>, k: nat, n: nat)
    requires n <= |trace|
  {
    k < n && trace[k] == Lease(false) && forall m | k < m < n :: trace[m].Cancel?
  }

  lemma {:induction false} HeldMeansSeen(trace: seq<Event>, n: nat) returns (k: nat)
    requires n <= |trace| && Read(trace[..n]).held && !Read(trace[..n]).finished
    ensures HeldLastAt(trace, k, n)
    decreases n
  {
    assert n != 0;
    ReadStep(trace, n - 1);
    hide Read;
    if trace[n - 1] == Lease(false) {
      k := n - 1;
    } else {
      k := HeldMeansSeen(trace, n - 1);
    }
  }

  /**
   When a result is published: every VM that started has stopped for sure, the workspace
   is gone, no heartbeat failed during shutdown, and the last look at the lease, nothing but
   a look for cancellation since, saw it held.
   */
  lemma FinishIsSafe(trace: seq<Event>, i: nat) returns (removal: nat, look: nat)
    requires Orderly(trace) && i < |trace| && trace[i].Finish?
    ensures removal < i && trace[removal] == Remove(true)
    ensures look < i && HeldLastAt(trace, look, i)
    ensures forall from | 0 <= from < i && trace[from] == Start(true) :: StoppedBetween(trace, from, i)
    ensures forall k | 0 <= k < i :: trace[k] != ShutdownBeat(false)
  {
    hide Read;
    assert Allowed(Read(trace[..i]), trace[i]);
    removal := RemovedMeansRemove(trace, i);
    look := HeldMeansSeen(trace, i);
    forall from | 0 <= from < i && trace[from] == Start(true)
      ensures StoppedBetween(trace, from, i)
    {
      NotRunningMeansStopped(trace, from, i);
    }
    forall k | 0 <= k < i
      ensures trace[k] != ShutdownBeat(false)
    {
      if trace[k] == ShutdownBeat(false) {
        FailedBeatStays(trace, k, i);
      }
    }
  }

  /** A cancellation seen at the last look is what is published; otherwise it is what the guest reported. */
  lemma PublishedIsDue(trace: seq<Event>, i: nat)
    requires Orderly(trace) && 0 < i < |trace| && trace[i].Finish?
    ensures trace[i - 1] == Cancel(true) ==> trace[i].published.status.Cancelled?
    ensures trace[i - 1] == Cancel(false) ==> Read(trace[..i]).result == Some(trace[i].published)
  {
    ReadStep(trace, i - 1);
    hide Read;
    assert Allowed(Read(trace[..i]), trace[i]);
  }
}
