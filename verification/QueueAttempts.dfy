/**
 How often a job can be started: what the reaper's limit allows over any run, what giving a job
 back costs, and when a job that was put back can run again.
 */
module QueueAttempts {
  import opened Wrappers
  import opened Text
  import opened Records
  import opened JobQueue
  import opened QueueRuns

  // ----- attempts ---------------------------------------------------------------------------------

  function AttemptOf(q: Queue, id: string): nat {
    if id in q.spool then q.spool[id].attempt else if id in q.working then q.working[id].attempt else 0
  }

  /** The step puts the job back into the spool. */
  predicate Requeues(q: Queue, step: Step, id: string) {
    id in q.working && id !in q.spool && id in Moved(q, step).spool
  }

  function Count(b: bool): nat {
    if b then 1 else 0
  }

  /** How often the reaper, and whoever gave the job back, requeued it over a run. */
  function ReaperRequeues(w: World, steps: seq<Step>, id: string): nat
    decreases |steps|
  {
    if steps == [] then 0
    else Count(steps[0].Reap? && Requeues(w.q, steps[0], id)) + ReaperRequeues(Do(w, steps[0]), steps[1..], id)
  }

  function GivenBack(w: World, steps: seq<Step>, id: string): nat
    decreases |steps|
  {
    if steps == [] then 0
    else Count(steps[0].Abandon? && Requeues(w.q, steps[0], id)) + GivenBack(Do(w, steps[0]), steps[1..], id)
  }

  /** What one pass of the reaper does to one job. */
  lemma {:induction false} ReapAttempt(
      q: Queue, names: seq<string>, fates: map<string, Fate>, now: nat, max: nat, restarted: string, id: string)
    requires Tidy(q) && Apart(names) && Alone(q)
    ensures var after := Reaped(q, names, fates, now, max, restarted);
            InQueue(after, id) ==>
            if id in q.working && id in after.spool then
              AttemptOf(after, id) == AttemptOf(q, id) + 1 && AttemptOf(q, id) < Attempts(max)
            else AttemptOf(after, id) == AttemptOf(q, id)
    decreases |names|
  {
    if names != [] {
      var first, rest := names[0], names[1..];
      var next := ReapOne(q, first, fates, now, max, restarted);
      RequeueTidy(q, first, FateOf(fates, first), Some(Attempts(max)));
      RequeueIsLocal(q, first, FateOf(fates, first), Some(Attempts(max)));
      ReapedAlone(q, [first], fates, now, max, restarted);
      assert Reaped(next, [first][1..], fates, now, max, restarted) == next;
      if first == id {
        ReapedLater(next, rest, fates, now, max, restarted, id);
      } else {
        hide Tidy, Requeue, GoesOut, Alone;
        assert (id in next.working <==> id in q.working) && (id in next.spool <==> id in q.spool);
        ReapAttempt(next, rest, fates, now, max, restarted, id);
      }
    }
  }

  lemma ClaimAttempt(q: Queue, step: Step, id: string)
    requires Tidy(q) && Alone(q) && step.Claim? && Lists(step.claims, q.spool)
    ensures var after := Moved(q, step);
            && (InQueue(q, id) && InQueue(after, id) ==> AttemptOf(after, id) == AttemptOf(q, id))
            && (id in after.spool ==> id in q.spool)
  {
    ScanOfTidy(q, step);
    var (mid, taken) := ScanOf(q, step);
    assert Moved(q, step).spool == mid.spool;
    assert forall x | x in Moved(q, step).working :: x in mid.working && Moved(q, step).working[x] == mid.working[x];
    hide Moved, ScanOf, MayGo, TakenBy, Lists, Tidy, InOrder;
    if taken.Some? && taken.value == id {
      assert id !in mid.spool && mid.working[id] == q.spool[id];
    }
  }

  lemma AbandonAttempt(q: Queue, i: string, token: string, fate: Fate, id: string)
    requires Tidy(q) && Alone(q)
    ensures var after := Abandoned(q, i, token, fate).0;
            && (id in after.spool && id !in q.spool ==>
                  id in q.working && id !in after.working && after.spool[id].attempt == q.working[id].attempt + 1)
            && (id in after.spool && id in q.spool ==> after.spool[id] == q.spool[id])
            && (id !in after.spool && id in after.working ==>
                  id !in q.spool && id in q.working && after.working[id] == q.working[id])
  {
    RequeueIsLocal(q, i, fate, None);
    hide Tidy, Child;
  }

  /** A job that stays in the queue stays the same but for its attempt. */
  lemma StaysLike(w: World, step: Step, id: string)
    requires Inv(w) && Can(w, step) && InQueue(w.q, id) && InQueue(Do(w, step).q, id)
    ensures Like(JobOf(Do(w, step).q, id), JobOf(w.q, id))
  {
    StepKeeps(w, step);
    assert id in w.known && Do(w, step).known[id] == w.known[id];
    hide Moved, Tidy, Fit, Tokens, Can, InQueue, JobOf, Proper;
  }

  /** A job that comes, yields or is claimed, released or settled does not change a job's attempt. */
  lemma StaysPut(w: World, step: Step, id: string)
    requires Inv(w) && Can(w, step) && Alone(w.q) && InQueue(w.q, id) && InQueue(Moved(w.q, step), id)
    requires !step.Tear? && !step.Reap? && !step.Abandon?
    ensures AttemptOf(Moved(w.q, step), id) == AttemptOf(w.q, id) && !Requeues(w.q, step, id)
  {
    InKnown(w, id);
    assert Tidy(w.q);
    hide Sound, Logged;
    match step {
      case Enqueue(job) => ComingKeepsAttempt(w.q, job, id);
      case Recover(job) => ComingKeepsAttempt(w.q, job, id);
      case Overtake(job) => YieldKeepsAttempt(w.q, job, id);
      case Claim(_, _, _, _, _) => ClaimAttempt(w.q, step, id);
      case _ =>
    }
    hide Tidy, Enqueued, Yielded, Claimed, Lists;
  }

  lemma YieldKeepsAttempt(q: Queue, job: Job, id: string)
    requires Tidy(q) && InQueue(q, id) && InQueue(Yielded(q, job), id)
    ensures var after := Yielded(q, job);
            && after.working == q.working && (id in after.spool ==> id in q.spool && after.spool[id] == q.spool[id])
            && AttemptOf(after, id) <= AttemptOf(q, id) && (Alone(q) ==> AttemptOf(after, id) == AttemptOf(q, id))
  {
    YieldedTidy(q, job);
    hide Yielded;
  }

  lemma ComingKeepsAttempt(q: Queue, job: Job, id: string)
    requires Tidy(q) && InQueue(q, id) && !InQueue(q, job.id) && job.attempt >= 1 && InQueue(Enqueued(q, job), id)
    ensures var after := Enqueued(q, job);
            && after.working == q.working && (id in after.spool ==> id in q.spool && after.spool[id] == q.spool[id])
            && AttemptOf(after, id) <= AttemptOf(q, id) && (Alone(q) ==> AttemptOf(after, id) == AttemptOf(q, id))
  {
    EnqueuedTidy(q, job);
    assert id != job.id;
    hide Enqueued;
  }

  /** A step raises a job's attempt by one when it requeues it, and leaves it alone otherwise. */
  lemma StepAttempt(w: World, step: Step, id: string)
    requires Inv(w) && Can(w, step) && Alone(w.q) && !step.Tear? && InQueue(w.q, id) && InQueue(Do(w, step).q, id)
    ensures AttemptOf(Do(w, step).q, id) == AttemptOf(w.q, id) + Count(Requeues(w.q, step, id))
    ensures Requeues(w.q, step, id) ==> step.Abandon? || (step.Reap? && AttemptOf(w.q, id) < Attempts(step.max))
    ensures Requeues(w.q, step, id) ==> AttemptOf(w.q, id) <= MAX_ATTEMPT && !JobOf(w.q, id).locked
  {
    assert id in w.q.working ==> w.q.working[id].attempt <= MAX_ATTEMPT && !w.q.working[id].locked;
    assert Tidy(w.q);
    hide Sound, Logged, Finished;
    match step {
      case Reap(lapsed, fates, now, max, restarted) =>
        ReapAttempt(w.q, lapsed, fates, now, max, restarted, id);
        ReapedTidy(w.q, lapsed, fates, now, max, restarted);
        hide Reaped, Tidy, NoneNew, FewerLeases;
      case Abandon(i, token, fate) =>
        AbandonAttempt(w.q, i, token, fate, id);
        hide Abandoned;
      case _ => StaysPut(w, step, id);
    }
  }

  /** No journal puts the job back. */
  predicate NotRecovered(steps: seq<Step>, id: string) {
    forall i | 0 <= i < |steps| :: steps[i].Recover? ==> steps[i].job.id != id
  }

  /** Nothing does that to the job of a simple run. */
  lemma {:induction false} PlainIsNotRecovered(w: World, steps: seq<Step>, id: string)
    requires Inv(w) && Runs(w, steps) && id in w.known && !Child(w.known[id])
    ensures NotRecovered(steps, id)
    decreases |steps|
  {
    if steps != [] {
      StepKeeps(w, steps[0]);
      assert id in Do(w, steps[0]).known && Do(w, steps[0]).known[id] == w.known[id];
      assert steps[0].Recover? ==> steps[0].job.id != id;
      hide Inv, Can, Do;
      PlainIsNotRecovered(Do(w, steps[0]), steps[1..], id);
      assert forall i | 0 < i < |steps| :: steps[i] == steps[1..][i - 1];
    }
  }

  lemma StepNeverBack(w: World, step: Step, id: string)
    requires Inv(w) && Can(w, step) && id in w.known && !InQueue(w.q, id)
    requires step.Recover? ==> step.job.id != id
    ensures id in Do(w, step).known && !InQueue(Do(w, step).q, id) && !Requeues(w.q, step, id)
  {
    match step {
      case Enqueue(job) =>
        EnqueuedTidy(w.q, job);
        hide Enqueued, Tidy;
      case Recover(job) =>
        EnqueuedTidy(w.q, job);
        hide Enqueued, Tidy;
      case Claim(_, _, _, _, _) =>
        ClaimIsTidy(w, step);
        hide Moved, Tidy, Fit, Lists;
      case _ =>
        MoveIsTidy(w, step);
        hide Moved, Tidy, Fit;
    }
  }

  /** A job that left is not queued again, unless it is a child that its journal puts back. */
  lemma {:induction false} NeverBack(w: World, steps: seq<Step>, id: string)
    requires Inv(w) && Runs(w, steps) && id in w.known && !InQueue(w.q, id) && NotRecovered(steps, id)
    ensures !InQueue(After(w, steps).q, id) && ReaperRequeues(w, steps, id) == 0 && GivenBack(w, steps, id) == 0
    decreases |steps|
  {
    if steps != [] {
      StepNeverBack(w, steps[0], id);
      StepKeeps(w, steps[0]);
      hide Inv, Can, Do, Moved;
      assert forall i | 0 <= i < |steps[1..]| :: steps[1..][i] == steps[i + 1];
      NeverBack(Do(w, steps[0]), steps[1..], id);
    }
  }

  /** Every reap of the run is configured with at most `max` attempts. */
  predicate ReapsWithin(steps: seq<Step>, max: nat) {
    forall i | 0 <= i < |steps| :: steps[i].Reap? ==> Attempts(steps[i].max) <= max
  }

  /**
   The attempt limit: over any run without crashes the reaper requeues a job at most `max` less
   its attempt times, each time it was given back counts just the same, and a job whose attempt can
   no longer be read, or that carries a lock, is not requeued at all.
   */
  lemma {:induction false} AttemptsAreLimited(w: World, steps: seq<Step>, id: string, max: nat)
    requires Inv(w) && Alone(w.q) && Runs(w, steps) && NoTears(steps) && NotRecovered(steps, id)
    requires InQueue(w.q, id) && ReapsWithin(steps, max)
    ensures InQueue(After(w, steps).q, id) ==>
              AttemptOf(After(w, steps).q, id) ==
              AttemptOf(w.q, id) + ReaperRequeues(w, steps, id) + GivenBack(w, steps, id)
    ensures ReaperRequeues(w, steps, id) <= RequeuesLeft(w.q, id, max)
    decreases |steps|
  {
    if steps != [] {
      var next := Do(w, steps[0]);
      StepKeeps(w, steps[0]);
      StepKeepsAlone(w, steps[0]);
      assert id in w.known && id in next.known;
      assert NoTears(steps[1..]) && NotRecovered(steps[1..], id) && ReapsWithin(steps[1..], max) by {
        assert forall i | 0 <= i < |steps[1..]| :: steps[1..][i] == steps[i + 1];
      }
      if InQueue(next.q, id) {
        StepAttempt(w, steps[0], id);
        StaysLike(w, steps[0], id);
        hide Inv, Can, Do, Moved, AttemptOf, InQueue, Alone, JobOf, Requeues, NoTears, NotRecovered;
        AttemptsAreLimited(next, steps[1..], id, max);
      } else {
        NotRequeued(w, steps[0], id);
        hide Can, Do, Moved, AttemptOf, Inv, Alone, NoTears, NotRecovered, ReapsWithin;
        NeverBack(next, steps[1..], id);
      }
    }
  }

  lemma NotRequeued(w: World, step: Step, id: string)
    requires !InQueue(Do(w, step).q, id)
    ensures !Requeues(w.q, step, id)
  {
    hide Moved;
  }

  /** The requeues a limit of `max` leaves to a job on its `attempt`-th attempt, which must stay readable. */
  function Budget(attempt: nat, max: nat): nat {
    var limit := if max <= MAX_ATTEMPT then max else MAX_ATTEMPT + 1;
    if attempt < limit then limit - attempt else 0
  }

  /** A job with a lock is never claimed, so there is nothing to requeue. */
  function RequeuesLeft(q: Queue, id: string, max: nat): nat
    requires InQueue(q, id)
  {
    if JobOf(q, id).locked then 0 else Budget(AttemptOf(q, id), max)
  }

  /** So a fresh job is requeued by the reaper at most `max` - 1 times. */
  lemma FreshJobIsRequeuedWithinLimit(w: World, job: Job, steps: seq<Step>, max: nat)
    requires Inv(w) && Alone(w.q) && Can(w, Enqueue(job)) && Runs(Do(w, Enqueue(job)), steps) && NoTears(steps)
    requires max >= 1 && ReapsWithin(steps, max) && NotRecovered(steps, job.id)
    ensures ReaperRequeues(Do(w, Enqueue(job)), steps, job.id) <= max - 1
  {
    var next := Do(w, Enqueue(job));
    StepKeeps(w, Enqueue(job));
    StepKeepsAlone(w, Enqueue(job));
    assert !InQueue(w.q, job.id);
    EnqueuedTidy(w.q, job);
    hide Enqueued, Inv, Alone, Tidy;
    if InQueue(next.q, job.id) {
      AttemptsAreLimited(next, steps, job.id, max);
    } else {
      NeverBack(next, steps, job.id);
    }
  }

  // ----- with crashes -----------------------------------------------------------------------------

  /** The reaper's limit in a step, one that it crashed in included. */
  function LimitOf(step: Step): Option<nat> {
    match step
    case Reap(_, _, _, max, _) => Some(Attempts(max))
    case Tear(_, cause, _) => if cause.ByReaper? then Some(Attempts(cause.max)) else None
    case _ => None
  }

  predicate LimitsWithin(steps: seq<Step>, max: nat) {
    forall i | 0 <= i < |steps| :: LimitOf(steps[i]).Some? ==> LimitOf(steps[i]).value <= max
  }

  /** A runner gives the job back, or the process that serves it crashes in the middle of that. */
  predicate ByItsRunner(step: Step, id: string) {
    (step.Abandon? && step.id == id) || (step.Tear? && step.id == id && step.cause.ByRunner?)
  }

  function RunnerReturns(steps: seq<Step>, id: string): nat
    decreases |steps|
  {
    if steps == [] then 0 else Count(ByItsRunner(steps[0], id)) + RunnerReturns(steps[1..], id)
  }

  lemma {:induction false} ReapRaises(
      q: Queue, names: seq<string>, fates: map<string, Fate>, now: nat, max: nat, restarted: string, id: string)
    requires Tidy(q) && Apart(names) && InQueue(q, id)
    ensures var after := Reaped(q, names, fates, now, max, restarted);
            InQueue(after, id) ==>
              AttemptOf(after, id) <= AttemptOf(q, id) ||
              (AttemptOf(after, id) == AttemptOf(q, id) + 1 && AttemptOf(q, id) < Attempts(max))
    decreases |names|
  {
    if names != [] {
      var first, rest := names[0], names[1..];
      var next := ReapOne(q, first, fates, now, max, restarted);
      RequeueTidy(q, first, FateOf(fates, first), Some(Attempts(max)));
      if first == id {
        ReapedLater(next, rest, fates, now, max, restarted, id);
      } else {
        RequeueIsLocal(q, first, FateOf(fates, first), Some(Attempts(max)));
        hide Tidy, Requeue, GoesOut;
        ReapRaises(next, rest, fates, now, max, restarted, id);
      }
    }
  }

  lemma AbandonRaises(q: Queue, i: string, token: string, fate: Fate, id: string)
    requires Tidy(q) && InQueue(q, id)
    ensures var after := Abandoned(q, i, token, fate).0;
            InQueue(after, id) ==> AttemptOf(after, id) <= AttemptOf(q, id) + Count(i == id)
  {
    RequeueIsLocal(q, i, fate, None);
    hide Child;
  }

  lemma ClaimRaises(q: Queue, step: Step, id: string)
    requires Tidy(q) && step.Claim? && Lists(step.claims, q.spool) && InQueue(q, id)
    ensures InQueue(Moved(q, step), id) ==> AttemptOf(Moved(q, step), id) <= AttemptOf(q, id)
  {
    ScanOfTidy(q, step);
    ClaimMoves(q, step);
    hide Moved, ScanOf, MayGo, TakenBy, Lists;
  }

  lemma CrashRaises(q: Queue, id: string, cause: Cause, crash: Crash)
    requires Tidy(q) && CanCrash(q, id, cause, crash)
    ensures InQueue(Crashed(q, id, crash), id) ==>
              || AttemptOf(Crashed(q, id, crash), id) <= AttemptOf(q, id)
              || (AttemptOf(Crashed(q, id, crash), id) == AttemptOf(q, id) + 1 &&
                  (cause.ByRunner? || (cause.ByReaper? && AttemptOf(q, id) < Attempts(cause.max))))
  {
    hide Lapsed, Owns, Child;
  }

  /** A step raises a job's attempt by at most one: below the reaper's limit, or when its runner returns it. */
  lemma StepRaises(w: World, step: Step, id: string)
    requires Inv(w) && Can(w, step) && InQueue(w.q, id) && InQueue(Do(w, step).q, id)
    ensures var n, after := AttemptOf(w.q, id), AttemptOf(Do(w, step).q, id);
            || after <= n
            || (after == n + 1 && (ByItsRunner(step, id) || (LimitOf(step).Some? && after <= LimitOf(step).value)))
  {
    InKnown(w, id);
    assert Tidy(w.q);
    hide Sound, Logged, Finished, Reaped, Abandoned, Crashed, CanCrash, AttemptOf;
    match step {
      case Reap(lapsed, fates, now, max, restarted) =>
        ReapRaises(w.q, lapsed, fates, now, max, restarted, id);
        hide InQueue, Tidy;
      case Abandon(i, token, fate) =>
        AbandonRaises(w.q, i, token, fate, id);
        hide InQueue, Tidy;
      case Tear(i, cause, crash) => TearRaises(w.q, step, id);
      case _ => StaysOrFalls(w, step, id);
    }
  }

  lemma TearRaises(q: Queue, step: Step, id: string)
    requires Tidy(q) && step.Tear? && CanCrash(q, step.id, step.cause, step.crash)
    requires InQueue(q, id) && InQueue(Moved(q, step), id)
    ensures var n, after := AttemptOf(q, id), AttemptOf(Moved(q, step), id);
            || after <= n
            || (after == n + 1 && (ByItsRunner(step, id) || (LimitOf(step).Some? && after <= LimitOf(step).value)))
  {
    assert step.id in q.working;
    hide Crashed, CanCrash, AttemptOf, Tidy;
    if step.id == id {
      CrashRaises(q, id, step.cause, step.crash);
    } else {
      CrashIsLocal(q, step.id, step.crash, id);
    }
    hide InQueue;
  }

  lemma StaysOrFalls(w: World, step: Step, id: string)
    requires Inv(w) && Can(w, step) && InQueue(w.q, id) && InQueue(Moved(w.q, step), id)
    requires !step.Tear? && !step.Reap? && !step.Abandon?
    ensures AttemptOf(Moved(w.q, step), id) <= AttemptOf(w.q, id)
  {
    InKnown(w, id);
    assert Tidy(w.q);
    hide Sound, Logged;
    match step {
      case Enqueue(job) => ComingKeepsAttempt(w.q, job, id);
      case Recover(job) => ComingKeepsAttempt(w.q, job, id);
      case Overtake(job) => YieldKeepsAttempt(w.q, job, id);
      case Claim(_, _, _, _, _) => ClaimRaises(w.q, step, id);
      case Settle(i) => SettleFalls(w.q, i, id);
      case Release(i, token) => ReleaseFalls(w.q, i, token, id);
      case _ =>
    }
    hide Tidy, Enqueued, Yielded, Claimed, Lists, Settled, Released;
  }

  lemma SettleFalls(q: Queue, i: string, id: string)
    requires Tidy(q) && InQueue(q, id) && InQueue(Settled(q, i), id)
    ensures AttemptOf(Settled(q, i), id) <= AttemptOf(q, id)
  {
    hide Child;
  }

  lemma ReleaseFalls(q: Queue, i: string, token: string, id: string)
    requires Tidy(q) && InQueue(q, id) && InQueue(Released(q, i, token), id)
    ensures AttemptOf(Released(q, i, token), id) <= AttemptOf(q, id)
  {
  }

  lemma CrashIsLocal(q: Queue, i: string, crash: Crash, id: string)
    requires i in q.working && i != id
    ensures var after := Crashed(q, i, crash);
            InQueue(after, id) == InQueue(q, id) && AttemptOf(after, id) == AttemptOf(q, id)
  {
  }

  /**
   Over every run, crashes included, a job's attempt never exceeds the reaper's limit by more than its
   runners returned it.
   */
  lemma {:induction false} AttemptStaysWithin(w: World, steps: seq<Step>, id: string, max: nat)
    requires Inv(w) && Runs(w, steps) && NotRecovered(steps, id) && LimitsWithin(steps, max) && InQueue(w.q, id)
    ensures InQueue(After(w, steps).q, id) ==>
              AttemptOf(After(w, steps).q, id) <= Larger(AttemptOf(w.q, id), max) + RunnerReturns(steps, id)
    decreases |steps|
  {
    if steps != [] {
      var next := Do(w, steps[0]);
      StepKeeps(w, steps[0]);
      assert NotRecovered(steps[1..], id) && LimitsWithin(steps[1..], max) by {
        assert forall i | 0 <= i < |steps[1..]| :: steps[1..][i] == steps[i + 1];
      }
      InKnown(w, id);
      assert id in next.known;
      if InQueue(next.q, id) {
        StepRaises(w, steps[0], id);
        hide Inv, Can, Do, AttemptOf, InQueue, NotRecovered, ByItsRunner, LimitOf;
        AttemptStaysWithin(next, steps[1..], id, max);
        assert LimitOf(steps[0]).Some? ==> LimitOf(steps[0]).value <= max;
      } else {
        hide Can, Do, AttemptOf, Inv, NotRecovered, LimitsWithin;
        NeverBack(next, steps[1..], id);
      }
    }
  }

  function Larger(a: nat, b: nat): nat {
    if a >= b then a else b
  }

  // ----- what giving a job back costs -----------------------------------------------------------

  /**
   After a give-back the next lapse ends as it would have ended without it, whatever the attempt,
   the limit and the fate, if and only if the give-back did not use up the last attempt.
   `again` is any queue in which the job is claimed as it was put back.
   */
  lemma NextLapseIsSameIff(q: Queue, id: string, token: string, fate: Fate, again: Queue, later: Fate, max: nat)
    requires id in q.working && Owns(q, id, token) && Abandoned(q, id, token, fate).1
    requires id in again.working && again.working[id] == Abandoned(q, id, token, fate).0.spool[id]
    requires !GoesOut(q.working[id], later, None)
    ensures var limit := Attempts(max);
            Requeue(again, id, later, Some(limit)).1 == Requeue(q, id, later, Some(limit)).1 <==>
            q.working[id].attempt + 1 != limit
  {
  }

  /** Such a case: with two attempts, one give-back leaves none for a lost runner. */
  lemma GivingBackCounts(w: World, token: string, id: string)
    requires Inv(w) && id in w.q.working && w.q.working[id].attempt == 1 && Owns(w.q, id, token)
    ensures var back := Abandoned(w.q, id, token, FateOf(map[], id)).0;
            && id in back.spool && back.spool[id].attempt == 2
            && forall claimed: Queue ::
                 id in claimed.working && claimed.working[id] == back.spool[id] ==>
                 Requeue(claimed, id, FateOf(map[], id), Some(Attempts(2))).1 == Exhausted
  {
  }

  /**
   Some run without crashes and without a recovery of the job, under a limit of `max`, in which the
   reaper requeues it `k` times.
   */
  ghost predicate Possible(w: World, id: string, k: nat, max: nat) {
    exists steps :: Achieves(w, steps, id, k, max)
  }

  ghost predicate Achieves(w: World, steps: seq<Step>, id: string, k: nat, max: nat) {
    && Runs(w, steps) && NoTears(steps) && NotRecovered(steps, id) && ReapsWithin(steps, max)
    && ReaperRequeues(w, steps, id) == k
  }

  lemma {:induction false} ListingExists<V>(m: map<string, V>) returns (names: seq<string>)
    ensures Lists(names, m)
    decreases |m|
  {
    hide InOrder, Insert;
    if m == map[] {
      names := [];
      OneOrNoneInOrder([]);
    } else {
      var x :| x in m;
      assert Drop(m, x).Keys == m.Keys - {x};
      var rest := ListingExists(Drop(m, x));
      names := Insert(rest, x);
      InsertInOrder(rest, x);
      InsertHolds(rest, x);
      assert forall i | 0 <= i < |names| :: names[i] in names;
    }
  }

  lemma {:induction false} LongerThanAll(tokens: set<string>) returns (n: nat)
    ensures forall t | t in tokens :: |t| < n
    decreases |tokens|
  {
    if tokens == {} {
      n := 0;
    } else {
      var t :| t in tokens;
      var rest := LongerThanAll(tokens - {t});
      n := rest + |t| + 1;
    }
  }

  lemma FreshToken(issued: map<string, string>) returns (token: string)
    ensures token !in issued
  {
    var n := LongerThanAll(issued.Keys);
    token := seq(n, _ => 'a');
  }

  /** A job that waits in the spool can be claimed if it can be read and carries no lock. */
  lemma SomeoneClaims(w: World, id: string) returns (step: Step)
    requires Inv(w) && Alone(w.q) && id in w.q.spool
    requires w.q.spool[id].attempt <= MAX_ATTEMPT && !w.q.spool[id].locked
    ensures step.Claim? && Can(w, step) && ScanOf(w.q, step).1 == Some(id)
    ensures var after := Do(w, step).q;
            id in after.working && id !in after.spool && after.working[id] == w.q.spool[id]
  {
    var job := w.q.spool[id];
    var names := ListingExists(w.q.spool);
    var token := FreshToken(w.issued);
    var others := set n | n in w.q.spool && n != id;
    var rule := Rule(false, "any", job.runsOn, 2, 0, map[], others, {}, {}, {});
    var records := map r | r in Needed(job) :: Past(job.parent, job.commit, job.ref, Succeeded);
    step := Claim(rule, names, records, Lease("any", token, 0), Leased);
    assert job.id == id;
    AloneIsTaken(rule, records, job);
    InOrderIsApart(names);
    OthersAside(w.q, rule, names, records, id);
    TakenAlone(w, rule, names, records, id);
    ClaimTakes(w, step, id);
  }

  lemma TakenAlone(w: World, rule: Rule, names: seq<string>, records: map<RunId, Past>, id: string)
    requires Lists(names, w.q.spool) && Apart(names) && id in w.q.spool && !rule.onePerRef
    requires VerdictOf(Judged(w.q.spool, rule, names, records), id).Take?
    requires forall n | n in names && n != id :: !VerdictOf(Judged(w.q.spool, rule, names, records), n).Take?
    ensures Scan(w.q, w.q, rule, names, Judged(w.q.spool, rule, names, records)).1 == Some(id)
  {
    var verdicts := Judged(w.q.spool, rule, names, records);
    ScanLeaves(w.q, w.q, rule, names, verdicts, id);
    ReachedAlone(w.q, rule, names, verdicts, id);
    NoRule(w.q, rule, w.q.spool[id]);
    hide Scan, InOrder, Judged, MayGo, Reached, VerdictOf;
  }

  lemma ClaimTakes(w: World, step: Step, id: string)
    requires Inv(w) && step.Claim? && Lists(step.claims, w.q.spool) && ScanOf(w.q, step).1 == Some(id)
    requires step.ending == Leased
    ensures var after := Do(w, step).q;
            id in w.q.spool && id in after.working && id !in after.spool && after.working[id] == w.q.spool[id]
  {
    ScanOfTidy(w.q, step);
    hide Lists, MayGo, TakenBy, Kin, Fit, Tokens, Logged, Tidy;
  }

  lemma NoRule(q: Queue, rule: Rule, job: Job)
    requires !rule.onePerRef
    ensures MayGo(q, rule, job)
  {
  }

  function Needed(job: Job): set<RunId> {
    set n | n in job.needs :: RunId(job.project, n)
  }

  lemma AloneIsTaken(rule: Rule, records: map<RunId, Past>, job: Job)
    requires Readable(rule, job) && !job.locked && rule.cancelled == {} && rule.version >= 2 && rule.minAge == 0
    requires rule.labels == job.runsOn && rule.runner == "any"
    requires records.Keys == Needed(job)
    requires forall r | r in records :: records[r] == Past(job.parent, job.commit, job.ref, Succeeded)
    ensures Judge(rule, records, job) == Take
  {
    forall i | 0 <= i < |job.needs|
      ensures !Fails(records, job, job.needs[i]) && !Lacks(records, job, job.needs[i])
    {
      assert RunId(job.project, job.needs[i]) in Needed(job);
    }
  }

  /** When no other file can be read, the scan's verdict is that of the records it began with. */
  lemma {:induction false} OthersAside(
      q: Queue, rule: Rule, names: seq<string>, records: map<RunId, Past>, id: string)
    requires Tidy(q) && Apart(names) && id in names && id in q.spool
    requires forall n | n in names && n != id :: n in rule.unreadable
    ensures var verdicts := Judged(q.spool, rule, names, records);
            && VerdictOf(verdicts, id) == Judge(rule, records, q.spool[id])
            && forall n | n in names && n != id :: !VerdictOf(verdicts, n).Take?
    decreases |names|
  {
    var first, rest := names[0], names[1..];
    assert names == [first] + rest;
    if first == id {
      var next := Noted(records, q.spool[id], Judge(rule, records, q.spool[id]));
      forall n | n in rest
        ensures !VerdictOf(Judged(q.spool, rule, rest, next), n).Take?
      {
        if n in q.spool {
          var seen := JudgedBy(q.spool, rule, rest, next, n);
        } else {
          NotThere(q.spool, rule, rest, next, n);
        }
      }
    } else {
      OthersAside(q, rule, rest, records, id);
      if first in q.spool {
        assert Judge(rule, records, q.spool[first]) == Unreadable;
      } else {
        NotThere(q.spool, rule, names, records, first);
      }
    }
  }

  lemma {:induction false} NotThere(
      spool: map<string, Job>, rule: Rule, names: seq<string>, records: map<RunId, Past>, id: string)
    requires id !in spool
    ensures id !in Judged(spool, rule, names, records)
    decreases |names|
  {
    hide Judge, Noted;
    if names != [] {
      NotThere(spool, rule, names[1..], records, id);
      if names[0] in spool {
        var job := spool[names[0]];
        NotThere(spool, rule, names[1..], Noted(records, job, Judge(rule, records, job)), id);
      }
    }
  }

  lemma {:induction false} ReachedAlone(
      start: Queue, rule: Rule, names: seq<string>, verdicts: map<string, Verdict>, id: string)
    requires id in names && forall n | n in names && n != id :: !VerdictOf(verdicts, n).Take?
    ensures Reached(start, rule, names, verdicts, id)
    decreases |names|
  {
    hide MayGo;
    if names[0] != id {
      assert names == [names[0]] + names[1..];
      ReachedAlone(start, rule, names[1..], verdicts, id);
    }
  }

  /** A claimed job with an attempt left can lapse and be requeued. */
  lemma SomeoneIsLost(w: World, id: string, max: nat) returns (step: Step)
    requires Inv(w) && Alone(w.q) && id in w.q.working && w.q.working[id].attempt < max
    ensures step.Reap? && Can(w, step) && Attempts(step.max) == max && Requeues(w.q, step, id)
    ensures var after := Do(w, step).q;
            id in after.spool && after.spool[id] == Again(w.q.working[id])
  {
    var now := if id in w.q.leases then w.q.leases[id].expires else 0;
    step := Reap([id], map[], now, max, "");
    assert Reaped(w.q, [id], map[], now, max, "") == ReapOne(w.q, id, map[], now, max, "") by {
      assert [id][1..] == [];
    }
  }

  /** Every number of requeues within the budget can come about. */
  lemma {:induction false} BudgetIsReached(w: World, id: string, k: nat, max: nat) returns (steps: seq<Step>)
    requires Inv(w) && Alone(w.q) && InQueue(w.q, id) && k <= RequeuesLeft(w.q, id, max)
    ensures Achieves(w, steps, id, k, max)
    decreases k, if id in w.q.spool then 1 else 0
  {
    hide Tidy, Kin, Tokens, Do;
    if k == 0 {
      steps := [];
    } else if id in w.q.spool {
      var step := SomeoneClaims(w, id);
      StepKeeps(w, step);
      StepKeepsAlone(w, step);
      assert id !in w.q.working;
      var rest := BudgetIsReached(Do(w, step), id, k, max);
      steps := Then(w, step, rest, id, k, max);
    } else {
      var step := SomeoneIsLost(w, id, max);
      StepKeeps(w, step);
      StepKeepsAlone(w, step);
      var rest := BudgetIsReached(Do(w, step), id, k - 1, max);
      steps := Then(w, step, rest, id, k - 1, max);
    }
  }

  lemma Then(w: World, step: Step, rest: seq<Step>, id: string, k: nat, max: nat) returns (steps: seq<Step>)
    requires Can(w, step) && !step.Tear? && !step.Recover? && (step.Reap? ==> Attempts(step.max) <= max)
    requires Achieves(Do(w, step), rest, id, k, max)
    ensures Achieves(w, steps, id, k + Count(step.Reap? && Requeues(w.q, step, id)), max)
  {
    hide Can, Do, Requeues;
    steps := [step] + rest;
    assert steps[1..] == rest;
  }

  /**
   The reaper can requeue a job just so many times: the limit less its attempt, and no more than
   leaves it readable.
   */
  lemma PossibleIff(w: World, id: string, k: nat, max: nat)
    requires Inv(w) && Alone(w.q) && InQueue(w.q, id)
    ensures Possible(w, id, k, max) <==> k <= RequeuesLeft(w.q, id, max)
  {
    hide Inv, Alone, AttemptOf, JobOf, InQueue, Runs, ReaperRequeues, Budget;
    if Possible(w, id, k, max) {
      var steps :| Achieves(w, steps, id, k, max);
      AttemptsAreLimited(w, steps, id, max);
    }
    if k <= RequeuesLeft(w.q, id, max) {
      var steps := BudgetIsReached(w, id, k, max);
    }
  }

  /**
   Over runs: giving a job back leaves the reaper's requeues that are still possible unchanged if
   and only if none were left anyway.
   */
  lemma GivingBackIsFreeIff(w: World, id: string, token: string, fate: Fate, max: nat)
    requires Inv(w) && Alone(w.q) && id in w.q.working && Owns(w.q, id, token) && !GoesOut(w.q.working[id], fate, None)
    ensures (forall k: nat :: Possible(w, id, k, max) <==> Possible(Do(w, Abandon(id, token, fate)), id, k, max)) <==>
            w.q.working[id].attempt >= max
  {
    var n, back := w.q.working[id].attempt, Do(w, Abandon(id, token, fate));
    StepKeeps(w, Abandon(id, token, fate));
    StepKeepsAlone(w, Abandon(id, token, fate));
    assert InQueue(w.q, id) && AttemptOf(w.q, id) == n <= MAX_ATTEMPT && !JobOf(w.q, id).locked;
    assert InQueue(back.q, id) && AttemptOf(back.q, id) == n + 1 && !JobOf(back.q, id).locked;
    hide Inv, Alone, AttemptOf, InQueue, Possible, Do, GoesOut, Owns;
    forall k: nat
      ensures Possible(w, id, k, max) <==> k <= Budget(n, max)
      ensures Possible(back, id, k, max) <==> k <= Budget(n + 1, max)
    {
      PossibleIff(w, id, k, max);
      PossibleIff(back, id, k, max);
    }
    var k := Budget(n, max);
    assert n < max ==> Possible(w, id, k, max) && !Possible(back, id, k, max);
  }

  /** Giving back has no limit of its own: what is put back can be claimed again only while its attempt can be read. */
  lemma GivenBackRunsAgainIff(w: World, id: string, token: string, fate: Fate)
    requires Inv(w) && Alone(w.q) && id in w.q.working && Owns(w.q, id, token) && !GoesOut(w.q.working[id], fate, None)
    ensures var back := Do(w, Abandon(id, token, fate));
            (exists step :: Takeable(back, step, id)) <==> w.q.working[id].attempt < MAX_ATTEMPT
  {
    var back := Do(w, Abandon(id, token, fate));
    StepKeeps(w, Abandon(id, token, fate));
    StepKeepsAlone(w, Abandon(id, token, fate));
    assert id in back.q.spool && back.q.spool[id] == Again(w.q.working[id]) && !w.q.working[id].locked;
    hide Do, Inv, Alone, GoesOut, Owns;
    if w.q.working[id].attempt < MAX_ATTEMPT {
      var step := SomeoneClaims(back, id);
      assert Takeable(back, step, id);
    }
    forall step | Takeable(back, step, id)
      ensures back.q.spool[id].attempt <= MAX_ATTEMPT
    {
      TakenIsReadable(back, step, id);
    }
  }

  predicate Takeable(w: World, step: Step, id: string) {
    step.Claim? && Can(w, step) && ScanOf(w.q, step).1 == Some(id)
  }

  lemma TakenIsReadable(w: World, step: Step, id: string)
    requires Inv(w) && Takeable(w, step, id)
    ensures id in w.q.spool && w.q.spool[id].attempt <= MAX_ATTEMPT
  {
    ScanOfTidy(w.q, step);
    hide ScanOf, Tidy, MayGo, Matches, Young;
  }
}
