/**
 In which order the jobs of one project and ref come to work and finish: one workflow at a time, the
 oldest eligible job first, and exactly which steps let an older run fall behind a newer one.
 */
module QueueOrder {
  import opened Wrappers
  import opened Text
  import opened Records
  import opened JobQueue
  import opened QueueRuns

  predicate ClaimsByRule(steps: seq<Step>) {
    forall i | 0 <= i < |steps| :: steps[i].Claim? ==> steps[i].rule.onePerRef
  }

  // ----- what a claim leaves ----------------------------------------------------------------------

  /** Pushed before, for the same project and ref: the ids of runs sort by time. */
  predicate Before(a: Job, b: Job) {
    KeyOf(a) == KeyOf(b) && Less(Group(a), Group(b))
  }

  /** Why a claim passes over the job of a simple run: its lock, a label it asks for, or its age. */
  predicate HeldBack(rule: Rule, job: Job) {
    if job.locked then RunId(job.project, job.id) !in rule.cancelled
    else !Matches(rule, job) || Young(rule, job.id)
  }

  lemma PlainVerdict(rule: Rule, records: map<RunId, Past>, job: Job)
    requires !Child(job) && Proper(job) && Readable(rule, job)
    ensures var verdict := Judge(rule, records, job);
            && (verdict.Hold? <==> HeldBack(rule, job))
            && (verdict.Take? <==> !job.locked && !HeldBack(rule, job))
            && !verdict.Unreadable?
  {
  }

  /** The scan comes to every job before the one it takes, and to none behind. */
  lemma {:induction false} ReachedIsBefore(
      start: Queue, rule: Rule, names: seq<string>, verdicts: map<string, Verdict>, id: string, x: string)
    requires InOrder(names) && id in names && x in names && x != id
    requires Reached(start, rule, names, verdicts, id) && Takes(start, rule, verdicts, id)
    ensures Reached(start, rule, names, verdicts, x) <==> Less(x, id)
    decreases |names|
  {
    hide Takes, Less;
    var first, rest := names[0], names[1..];
    assert names == [first] + rest;
    if first == x {
      var k :| 0 <= k < |names| && names[k] == id;
      assert Less(names[0], names[k]);
    } else if first == id {
      var k :| 0 <= k < |names| && names[k] == x;
      assert Less(names[0], names[k]);
      LessAsymmetric(id, x);
    } else {
      assert forall i | 0 <= i < |rest| :: rest[i] == names[i + 1];
      ReachedIsBefore(start, rule, rest, verdicts, id, x);
    }
  }

  /** Of an older run and a claimed one, by the rule: the older may go just when nothing is at work there. */
  lemma OlderMayGo(q: Queue, rule: Rule, older: Job, taken: Job)
    requires rule.onePerRef && MayGo(q, rule, taken) && Before(older, taken)
    ensures MayGo(q, rule, older) <==> Busy(q, rule, KeyOf(taken)) != {Group(taken)}
  {
    var key := KeyOf(taken);
    hide Busy, Owners, Less;
    LessIrreflexive(Group(taken));
    forall g | g in Owners(q, rule, key)
      ensures !Less(g, Group(older))
    {
      if Less(g, Group(older)) {
        LessTransitive(g, Group(older), Group(taken));
      }
    }
    assert Busy(q, rule, key) == {} || Busy(q, rule, key) == {Group(taken)};
  }

  /**
   Exactly when a claim leaves an older job of the same project and ref behind. It never does that to
   a child of a workflow. A job of a simple run it passes over for a lock, a missing label or its age,
   or because another job of the claimed workflow is at work already; or it did not come to it.
   */
  lemma OlderIsLeftIff(w: World, step: Step, id: string, x: string)
    requires Inv(w) && Can(w, step) && step.Claim? && step.rule.onePerRef && ScanOf(w.q, step).1 == Some(id)
    requires id in w.q.spool && x in w.q.spool && Before(w.q.spool[x], w.q.spool[id])
    ensures Child(w.q.spool[x]) ==> !Readable(step.rule, w.q.spool[x])
    ensures var older, key := w.q.spool[x], KeyOf(w.q.spool[id]);
            x in ScanOf(w.q, step).0.spool <==>
            || Less(id, x)
            || (Readable(step.rule, older) &&
                (HeldBack(step.rule, older) || (!older.locked && Busy(w.q, step.rule, key) == {Group(w.q.spool[id])})))
  {
    var older, taken := w.q.spool[x], w.q.spool[id];
    MayGoOf(w, step, id);
    ChildIsNeverLeft(w.q, step.rule, older, taken, x);
    OlderMayGo(w.q, step.rule, older, taken);
    LessIrreflexive(Group(taken));
    OlderVerdict(w, step, x);
    assert KeyOf(older) == KeyOf(taken) && Group(older) != Group(taken);
    assert Lists(step.claims, w.q.spool) && x != id;
    hide Inv, Sound, Can, Scan, Judged, Lists, Less, HeldBack, MayGo, Busy, Group, KeyOf, ScanOf, Before, Readable;
    LeftIff(w.q, step, id, x);
  }

  lemma MayGoOf(w: World, step: Step, id: string)
    requires Inv(w) && Can(w, step) && step.Claim? && ScanOf(w.q, step).1 == Some(id)
    ensures id in w.q.spool && MayGo(w.q, step.rule, w.q.spool[id])
  {
    ScanOfTidy(w.q, step);
    hide ScanOf, Tidy, MayGo, TakenBy;
  }

  lemma OlderVerdict(w: World, step: Step, x: string)
    requires Inv(w) && Can(w, step) && step.Claim? && x in w.q.spool
    requires Child(w.q.spool[x]) ==> !Readable(step.rule, w.q.spool[x])
    ensures var verdict := VerdictOf(Judged(w.q.spool, step.rule, step.claims, step.records), x);
            var older := w.q.spool[x];
            if Readable(step.rule, older) then
              && !verdict.Unreadable? && (verdict.Hold? <==> HeldBack(step.rule, older))
              && (verdict.Take? <==> !older.locked && !HeldBack(step.rule, older))
            else verdict.Unreadable?
  {
    InOrderIsApart(step.claims);
    assert InQueue(w.q, x) && Proper(w.q.spool[x]);
    var seen := JudgedBy(w.q.spool, step.rule, step.claims, step.records, x);
    hide Inv, Tidy, Judged, Lists, HeldBack;
    if Readable(step.rule, w.q.spool[x]) {
      PlainVerdict(step.rule, seen, w.q.spool[x]);
    }
  }

  /** What is left of a claim's scan: what it did not come to, what it passed over, and what may not go. */
  lemma LeftIff(q: Queue, step: Step, id: string, x: string)
    requires step.Claim? && Lists(step.claims, q.spool) && ScanOf(q, step).1 == Some(id)
    requires id in q.spool && x in q.spool && x != id
    ensures Less(id, x) || Less(x, id)
    ensures var verdict := VerdictOf(Judged(q.spool, step.rule, step.claims, step.records), x);
            x in ScanOf(q, step).0.spool <==>
            Less(id, x) || verdict.Hold? || (verdict.Take? && !MayGo(q, step.rule, q.spool[x]))
  {
    var verdicts := Judged(q.spool, step.rule, step.claims, step.records);
    InOrderIsApart(step.claims);
    ScanLeaves(q, q, step.rule, step.claims, verdicts, id);
    ScanLeaves(q, q, step.rule, step.claims, verdicts, x);
    ReachedIsBefore(q, step.rule, step.claims, verdicts, id, x);
    LessTotal(x, id);
    if Less(x, id) {
      LessAsymmetric(x, id);
    }
    hide Scan, Reached, MayGo, InOrder, Judged, Lists, Less;
  }

  lemma ChildIsNeverLeft(q: Queue, rule: Rule, older: Job, taken: Job, x: string)
    requires rule.onePerRef && MayGo(q, rule, taken) && Before(older, taken) && x in q.spool && q.spool[x] == older
    ensures Child(older) ==> !Readable(rule, older)
  {
    hide Busy, Less, Readable;
    assert Child(older) && Readable(rule, older) ==> older.parent in Owners(q, rule, KeyOf(taken));
  }

  /** And no claim takes a job while an older workflow of its project and ref is not published yet. */
  lemma UnpublishedGoesFirst(w: World, step: Step, id: string, older: string)
    requires Inv(w) && Can(w, step) && step.Claim? && step.rule.onePerRef && ScanOf(w.q, step).1 == Some(id)
    requires id in w.q.spool && Parent(KeyOf(w.q.spool[id]), older) in step.rule.unpublished
    ensures !Less(older, Group(w.q.spool[id]))
  {
    ScanOfTidy(w.q, step);
    hide Scan, Lists, Tidy, Less, Judged, ScanOf;
    assert older in Owners(w.q, step.rule, KeyOf(w.q.spool[id]));
  }

  /** A claim that takes `id` sets a working copy of `y` aside with a spool copy that cannot be read. */
  predicate GoesAside(q: Queue, rule: Rule, id: string, y: string) {
    y in q.spool && Less(y, id) && !Readable(rule, q.spool[y])
  }

  lemma WorkIsLeftIff(w: World, step: Step, id: string, y: string)
    requires Inv(w) && Can(w, step) && step.Claim? && ScanOf(w.q, step).1 == Some(id)
    requires id in w.q.spool && y in w.q.working && y != id
    ensures y in ScanOf(w.q, step).0.working <==> !GoesAside(w.q, step.rule, id, y)
  {
    var verdicts := Judged(w.q.spool, step.rule, step.claims, step.records);
    InOrderIsApart(step.claims);
    ScanLeaves(w.q, w.q, step.rule, step.claims, verdicts, id);
    ScanLeavesWork(w.q, w.q, step.rule, step.claims, verdicts, y);
    if y in w.q.spool {
      ReachedIsBefore(w.q, step.rule, step.claims, verdicts, id, y);
      var seen := JudgedBy(w.q.spool, step.rule, step.claims, step.records, y);
      UnreadableIff(step.rule, seen, w.q.spool[y]);
    }
    hide Scan, Reached, MayGo, InOrder, Judged, Lists, Less, Readable, Inv, Can;
  }

  lemma UnreadableIff(rule: Rule, records: map<RunId, Past>, job: Job)
    ensures Judge(rule, records, job).Unreadable? <==> !Readable(rule, job)
  {
  }

  // ----- one run per ref --------------------------------------------------------------------------

  /** All jobs at work on one project and ref belong to one group. */
  predicate OneGroup(q: Queue) {
    forall i, j | i in q.working && j in q.working && KeyOf(q.working[i]) == KeyOf(q.working[j]) ::
      Group(q.working[i]) == Group(q.working[j])
  }

  /** A claim beside a job of another group, whose working file it could not read and does not set aside. */
  predicate Mixes(q: Queue, step: Step) {
    step.Claim? && step.ending != Early &&
    var taken := ScanOf(q, step).1;
    taken.Some? && taken.value in q.spool &&
    exists y | y in q.working ::
      && y != taken.value && y in step.rule.blind && !GoesAside(q, step.rule, taken.value, y)
      && KeyOf(q.working[y]) == KeyOf(q.spool[taken.value]) && Group(q.working[y]) != Group(q.spool[taken.value])
  }

  lemma FewerKeepOneGroup(after: Queue, before: Queue)
    requires OneGroup(before) && NoMoreWorking(after, before)
    ensures OneGroup(after)
  {
    hide Group, KeyOf;
  }

  /** What is at work when the scan has taken its job, compared with the job. */
  lemma TakenKeepsOneGroupIff(q: Queue, mid: Queue, rule: Rule, id: string)
    requires OneGroup(q) && rule.onePerRef && id in q.spool && MayGo(q, rule, q.spool[id])
    requires Scanned(q, mid, Some(id))
    ensures OneGroup(mid) <==>
            !exists y | y in mid.working ::
              y != id && y in rule.blind && KeyOf(q.working[y]) == KeyOf(q.spool[id]) &&
              Group(q.working[y]) != Group(q.spool[id])
  {
    var job := q.spool[id];
    hide Group, KeyOf, Owners;
    forall y | y in mid.working && y != id && y !in rule.blind && KeyOf(q.working[y]) == KeyOf(job)
      ensures Group(q.working[y]) == Group(job)
    {
      assert Group(q.working[y]) in Busy(q, rule, KeyOf(job));
    }
    assert mid.working[id] == job;
    forall y | y in mid.working && y != id && KeyOf(q.working[y]) == KeyOf(job) && Group(q.working[y]) != Group(job)
      ensures !OneGroup(mid)
    {
      assert KeyOf(mid.working[y]) == KeyOf(mid.working[id]);
    }
  }

  lemma ClaimKeepsOneGroupIff(w: World, step: Step)
    requires Inv(w) && Can(w, step) && step.Claim? && OneGroup(w.q) && step.rule.onePerRef
    ensures OneGroup(Do(w, step).q) <==> !Mixes(w.q, step)
  {
    ScanOfTidy(w.q, step);
    ClaimMoves(w.q, step);
    var (mid, taken) := ScanOf(w.q, step);
    if taken.Some? && step.ending != Early {
      ScanMixesIff(w, step, taken.value);
      SameWork(Do(w, step).q, mid);
    } else {
      assert NoMoreWorking(Do(w, step).q, w.q);
      FewerKeepOneGroup(Do(w, step).q, w.q);
    }
    hide Moved, ScanOf, MayGo, Tidy, TakenBy, Lists, OneGroup, Group, KeyOf, Sound, Logged, Finished, GoesAside;
  }

  lemma ScanMixesIff(w: World, step: Step, id: string)
    requires Inv(w) && Can(w, step) && step.Claim? && OneGroup(w.q) && step.rule.onePerRef
    requires ScanOf(w.q, step).1 == Some(id) && step.ending != Early
    ensures OneGroup(ScanOf(w.q, step).0) <==> !Mixes(w.q, step)
  {
    ScanOfTidy(w.q, step);
    var mid := ScanOf(w.q, step).0;
    forall y | y in w.q.working && y != id
      ensures y in mid.working <==> !GoesAside(w.q, step.rule, id, y)
    {
      WorkIsLeftIff(w, step, id, y);
    }
    assert id in w.q.spool && forall y | y in mid.working && y != id :: y in w.q.working;
    hide Tidy, TakenBy, MayGo, Lists, OneGroup, Group, KeyOf, Sound, Logged, Less, Readable, GoesAside, Scanned;
    TakenKeepsOneGroupIff(w.q, mid, step.rule, id);
  }

  lemma SameWork(a: Queue, b: Queue)
    requires a.working == b.working
    ensures OneGroup(a) <==> OneGroup(b)
  {
    hide Group, KeyOf;
  }

  /** A step keeps to one group for each project and ref if and only if it is no such claim. */
  lemma StepKeepsOneGroupIff(w: World, step: Step)
    requires Inv(w) && Can(w, step) && OneGroup(w.q) && (step.Claim? ==> step.rule.onePerRef)
    ensures OneGroup(Do(w, step).q) <==> !Mixes(w.q, step)
  {
    match step {
      case Claim(_, _, _, _, _) => ClaimKeepsOneGroupIff(w, step);
      case Enqueue(job) =>
        EnqueueKeepsWork(w, job);
        hide OneGroup;
        SameWork(Do(w, step).q, w.q);
      case Recover(job) =>
        EnqueueKeepsWork(w, job);
        hide OneGroup;
        SameWork(Do(w, step).q, w.q);
      case _ =>
        MoveIsTidy(w, step);
        hide OneGroup, Moved, Inv;
        FewerKeepOneGroup(Do(w, step).q, w.q);
    }
  }

  lemma EnqueueKeepsWork(w: World, job: Job)
    ensures Enqueued(w.q, job).working == w.q.working
  {
    hide Overtaken, Outdated, Branch;
  }

  predicate OneGroupThroughout(w: World, steps: seq<Step>)
    decreases |steps|
  {
    OneGroup(w.q) && (steps == [] || OneGroupThroughout(Do(w, steps[0]), steps[1..]))
  }

  predicate NeverMixes(w: World, steps: seq<Step>)
    decreases |steps|
  {
    steps == [] || (!Mixes(w.q, steps[0]) && NeverMixes(Do(w, steps[0]), steps[1..]))
  }

  /**
   While every claim goes by the rule, no two groups of one project and ref are ever at work together, if
   and only if no claim goes beside a job of another group whose working file it could not read.
   */
  lemma {:induction false} RunsKeepOneGroupIff(w: World, steps: seq<Step>)
    requires Inv(w) && OneGroup(w.q) && Runs(w, steps) && ClaimsByRule(steps)
    ensures OneGroupThroughout(w, steps) <==> NeverMixes(w, steps)
    decreases |steps|
  {
    hide Inv, Can, Do, OneGroup, Mixes;
    if steps != [] {
      StepKeeps(w, steps[0]);
      StepKeepsOneGroupIff(w, steps[0]);
      if OneGroup(Do(w, steps[0]).q) {
        RunsKeepOneGroupIff(Do(w, steps[0]), steps[1..]);
      } else {
        assert !OneGroupThroughout(Do(w, steps[0]), steps[1..]);
      }
    }
  }

  // ----- push order -------------------------------------------------------------------------------

  predicate Older(w: World, x: string, y: string) {
    x in w.known && y in w.known && Before(w.known[x], w.known[y])
  }

  /** A job that can still finish: it is in the queue, or a request is on its way to commit it. */
  predicate Open(w: World, x: string) {
    InQueue(w.q, x) || exists r | r in w.requests :: w.requests[r].id == x
  }

  /** A job that is at work, or done. */
  predicate Begun(w: World, y: string) {
    y in w.q.working || y in w.done
  }

  /** Nothing that can still finish was pushed before what is at work or done, for one project and ref. */
  ghost predicate InPushOrder(w: World) {
    forall x, y :: Open(w, x) && Begun(w, y) ==> !Older(w, x, y)
  }

  /** A job comes to the queue and stays, when a newer one is at work or done. */
  ghost predicate ComesLate(w: World, job: Job) {
    && (exists y :: Begun(w, y) && y in w.known && Before(job, w.known[y]))
    && !(Branch(job.ref) && Outdated(w.q, job))
  }

  /**
   What a claim of `id` leaves open of the older jobs: a request on its way; in the spool what is held
   back and what the scan does not come to; at work what it cannot read and does not set aside.
   */
  predicate LeftOpen(w: World, rule: Rule, id: string, x: string) {
    || (exists r | r in w.requests :: w.requests[r].id == x)
    || (x in w.q.spool &&
        (Less(id, x) || (Readable(rule, w.q.spool[x]) && HeldBack(rule, w.q.spool[x]))))
    || (x in w.q.working && x in rule.blind && !GoesAside(w.q, rule, id, x))
  }

  /**
   The steps that break push order: a claim that leaves an older job open, an older job that comes late,
   and the commit of a job that is not at work any more. Each can be told before the step.
   */
  ghost predicate Disorders(w: World, step: Step) {
    match step
    case Claim(rule, _, _, _, _) =>
      var taken := ScanOf(w.q, step).1;
      taken.Some? && exists x :: LeftOpen(w, rule, taken.value, x) && Older(w, x, taken.value)
    case Enqueue(job) => ComesLate(w, job)
    case Recover(job) => ComesLate(w, job)
    case Commit(r) => r in w.requests && exists x :: Open(w, x) && Older(w, x, w.requests[r].id)
    case _ => false
  }

  predicate SameRef(a: Job, b: Job) {
    KeyOf(a) == KeyOf(b) && Group(a) == Group(b)
  }

  lemma LikeKeepsOrder(a: Job, b: Job)
    requires Like(a, b)
    ensures SameRef(a, b)
  {
  }

  /** A job in the queue is the one that was queued, on whichever attempt. */
  lemma AsKnown(w: World, x: string)
    requires Inv(w)
    ensures x in w.q.spool ==> x in w.known && SameRef(w.q.spool[x], w.known[x])
    ensures x in w.q.working ==> x in w.known && SameRef(w.q.working[x], w.known[x])
  {
    if InQueue(w.q, x) {
      LikeKeepsOrder(JobOf(w.q, x), w.known[x]);
      AgainIsLike();
      if x in w.q.spool && x in w.q.working {
        LikeKeepsOrder(w.q.spool[x], w.q.working[x]);
      }
      hide Again, Like, KeyOf, Group, Fit, Tokens, Logged;
    }
  }

  lemma OrderIsOneGroup(w: World)
    requires Inv(w) && InPushOrder(w)
    ensures OneGroup(w.q)
  {
    forall i, j | i in w.q.working && j in w.q.working && KeyOf(w.q.working[i]) == KeyOf(w.q.working[j])
      ensures Group(w.q.working[i]) == Group(w.q.working[j])
    {
      AsKnown(w, i);
      AsKnown(w, j);
      LessTotal(Group(w.q.working[i]), Group(w.q.working[j]));
      assert InQueue(w.q, i) && InQueue(w.q, j);
      assert Open(w, i) && Open(w, j) && Begun(w, i) && Begun(w, j);
      hide Inv, KeyOf, Group, Less, Open, Begun;
    }
  }

  /** With nothing newly open and nothing newly begun, order is kept. */
  lemma NothingBegins(w: World, after: World)
    requires InPushOrder(w) && after.known == w.known
    requires forall x :: Open(after, x) ==> Open(w, x)
    requires forall y :: Begun(after, y) ==> Begun(w, y)
    ensures InPushOrder(after)
  {
    hide Open, Begun;
  }

  /** What leaves work has been at work, and what is committed has been open. */
  lemma FinishedWasOpen(w: World, step: Step, y: string)
    requires Inv(w) && Can(w, step) && y in Finished(w, step)
    ensures Open(w, y)
    ensures !step.Claim? && !step.Commit? ==> y in w.q.working
    ensures step.Claim? ==> y in w.q.working || ScanOf(w.q, step).1 == Some(y)
  {
    if step.Claim? {
      ScanOfTidy(w.q, step);
      hide ScanOf, Moved, Tidy, MayGo, TakenBy, Lists;
    }
    hide GoesOut, Lapsed, Sound, Logged;
    assert y in w.q.working ==> InQueue(w.q, y);
  }

  lemma MoveKeepsOrder(w: World, step: Step)
    requires Inv(w) && Can(w, step) && InPushOrder(w)
    requires !step.Enqueue? && !step.Claim? && !step.Recover? && !step.Commit?
    ensures InPushOrder(Do(w, step))
  {
    MoveIsTidy(w, step);
    var after := Do(w, step);
    hide Moved, InPushOrder, Tidy, Like, Sound, Logged;
    forall x | Open(after, x)
      ensures Open(w, x)
    {
      assert step.Begin? && step.id in w.q.working ==> InQueue(w.q, step.id);
      hide Finished;
    }
    forall y | Begun(after, y)
      ensures Begun(w, y)
    {
      if y in Finished(w, step) {
        FinishedWasOpen(w, step, y);
      }
      hide Finished;
    }
    NothingBegins(w, after);
  }

  /** One more job has begun. */
  lemma OneBegins(w: World, after: World, id: string)
    requires InPushOrder(w) && after.known == w.known
    requires forall x :: Open(after, x) ==> Open(w, x)
    requires forall y :: Begun(after, y) ==> Begun(w, y) || y == id
    requires Begun(after, id)
    ensures InPushOrder(after) <==> !exists x :: Open(after, x) && Older(w, x, id)
  {
    hide Open, Begun, Before;
    forall x | Open(after, x) && Older(w, x, id)
      ensures !InPushOrder(after)
    {
      assert Older(after, x, id);
    }
    if !exists x :: Open(after, x) && Older(w, x, id) {
      forall x, y | Open(after, x) && Begun(after, y)
        ensures !Older(after, x, y)
      {
        assert Older(after, x, y) <==> Older(w, x, y);
      }
    }
  }

  lemma CommitKeepsOrderIff(w: World, step: Step)
    requires Inv(w) && Can(w, step) && step.Commit? && InPushOrder(w)
    ensures InPushOrder(Do(w, step)) <==> !Disorders(w, step)
  {
    var after, id := Do(w, step), w.requests[step.request].id;
    LessIrreflexive(Group(w.known[id]));
    assert !Older(w, id, id);
    OneBegins(w, after, id);
    hide InPushOrder, Older, Inv;
    forall x | Open(w, x) && Older(w, x, id)
      ensures Open(after, x)
    {
      if !InQueue(w.q, x) {
        var r :| r in w.requests && w.requests[r].id == x;
        assert r in after.requests && after.requests[r].id == x;
      }
    }
  }

  lemma EnqueuedStaysIff(q: Queue, job: Job)
    requires !InQueue(q, job.id)
    ensures job.id in Enqueued(q, job).spool <==> !(Branch(job.ref) && Outdated(q, job))
  {
    var more := q.(spool := q.spool[job.id := job]);
    assert Outdated(more, job) <==> Outdated(q, job) by {
      hide KeyOf, Group, Less;
      assert !Outdates(job, job) && !Overtaken(job, job);
      assert more.spool[job.id] == job;
      assert forall id | id in q.spool :: more.spool[id] == q.spool[id];
    }
    assert !Overtaken(job, job);
    hide Outdated, Overtaken, Branch;
  }

  /** One more job has come. */
  lemma OneComes(w: World, after: World, job: Job)
    requires InPushOrder(w)
    requires forall x :: Open(after, x) ==> Open(w, x) || x == job.id
    requires forall y :: Begun(after, y) <==> Begun(w, y)
    requires forall x :: Open(w, x) || Begun(w, x) ==> x in w.known
    requires forall x | x in w.known :: x in after.known && SameRef(after.known[x], w.known[x])
    requires job.id in after.known && SameRef(after.known[job.id], job)
    ensures InPushOrder(after) <==>
            !(Open(after, job.id) && exists y :: Begun(w, y) && y in w.known && Before(job, w.known[y]))
  {
    hide Open, Begun, Less, KeyOf, Group;
    if Open(after, job.id) && exists y :: Begun(w, y) && y in w.known && Before(job, w.known[y]) {
      var y :| Begun(w, y) && y in w.known && Before(job, w.known[y]);
      assert Older(after, job.id, y);
    } else {
      forall x, y | Open(after, x) && Begun(after, y)
        ensures !Older(after, x, y)
      {
        assert Begun(w, y);
        if x != job.id {
          assert Older(after, x, y) ==> Older(w, x, y);
        }
      }
    }
  }

  /** What can still finish, or has begun, was queued. */
  lemma OpenIsKnown(w: World, x: string)
    requires Inv(w) && (Open(w, x) || Begun(w, x))
    ensures x in w.known
  {
    if x in w.q.working {
      assert InQueue(w.q, x);
    }
    hide Tidy, Fit, Tokens, Like;
  }

  lemma ComingKeepsOrderIff(w: World, step: Step, job: Job)
    requires Inv(w) && Can(w, step) && (step == Enqueue(job) || step == Recover(job)) && InPushOrder(w)
    ensures InPushOrder(Do(w, step)) <==> !ComesLate(w, job)
  {
    var after := Do(w, step);
    assert !InQueue(w.q, job.id) && (job.id in w.known ==> Like(job, w.known[job.id])) by {
      hide Like;
    }
    if job.id in w.known {
      LikeKeepsOrder(job, w.known[job.id]);
    }
    EnqueuedTidy(w.q, job);
    EnqueuedStaysIff(w.q, job);
    assert after.q == Enqueued(w.q, job) && after.requests == w.requests && after.done == w.done;
    assert after.known == w.known || after.known == w.known[job.id := job];
    forall x | Open(w, x) || Begun(w, x)
      ensures x in w.known
    {
      OpenIsKnown(w, x);
    }
    hide Enqueued, Tidy, Outdated, Branch, Sound, Logged, Moved, Finished, Do, Can, Like, KeyOf, Group, Before;
    assert forall y :: Begun(after, y) <==> Begun(w, y);
    forall x | Open(after, x)
      ensures Open(w, x) || x == job.id
    {
      if InQueue(after.q, x) && x != job.id {
        assert InQueue(w.q, x);
      }
    }
    OneComes(w, after, job);
    StaysOpenIff(w, after, job);
    hide InPushOrder, Begun;
    if Open(w, job.id) {
      OpenIsNotLate(w, job);
    }
  }

  lemma StaysOpenIff(w: World, after: World, job: Job)
    requires after.requests == w.requests && after.q.working == w.q.working && !InQueue(w.q, job.id)
    ensures Open(after, job.id) <==> Open(w, job.id) || job.id in after.q.spool
  {
  }

  lemma OpenIsNotLate(w: World, job: Job)
    requires InPushOrder(w) && Open(w, job.id) && job.id in w.known && SameRef(job, w.known[job.id])
    ensures !exists y :: Begun(w, y) && y in w.known && Before(job, w.known[y])
  {
    hide Open, Begun, Less, KeyOf, Group;
    forall y | Begun(w, y) && y in w.known
      ensures !Before(job, w.known[y])
    {
      assert !Older(w, job.id, y);
    }
  }

  /** Of the older jobs, those stay open that a claim leaves open. */
  lemma LeftOpenIff(w: World, step: Step, id: string, x: string)
    requires Inv(w) && Can(w, step) && step.Claim? && step.rule.onePerRef && InPushOrder(w)
    requires ScanOf(w.q, step).1 == Some(id) && Older(w, x, id)
    ensures Open(Do(w, step), x) <==> LeftOpen(w, step.rule, id, x)
  {
    var after := Do(w, step);
    assert after.requests == w.requests;
    OlderInSpool(w, step, id, x);
    OlderAtWork(w, step, id, x);
    hide Inv, Can, Do, ScanOf, HeldBack, Readable, Less, GoesAside, Older;
  }

  lemma OlderInSpool(w: World, step: Step, id: string, x: string)
    requires Inv(w) && Can(w, step) && step.Claim? && step.rule.onePerRef && InPushOrder(w)
    requires ScanOf(w.q, step).1 == Some(id) && Older(w, x, id)
    ensures x in Do(w, step).q.spool <==>
            x in w.q.spool &&
            (Less(id, x) || (Readable(step.rule, w.q.spool[x]) && HeldBack(step.rule, w.q.spool[x])))
  {
    ScanOfTidy(w.q, step);
    ClaimMoves(w.q, step);
    AsKnown(w, x);
    AsKnown(w, id);
    assert id in w.q.spool;
    assert Before(w.known[x], w.known[id]);
    hide Moved, Scanned, Tidy, MayGo, TakenBy, Sound, Logged, Lists, HeldBack, Readable, Less, KeyOf, Group, Finished;
    if x in w.q.spool {
      assert Before(w.q.spool[x], w.q.spool[id]);
      OlderIsLeftIff(w, step, id, x);
      NotBusyYet(w, step.rule, x, id);
      hide ScanOf, InPushOrder;
    } else {
      assert x !in ScanOf(w.q, step).0.spool by {
        NotScanned(w.q, ScanOf(w.q, step).0, Some(id), x);
      }
    }
  }

  lemma NotScanned(q: Queue, mid: Queue, taken: Option<string>, x: string)
    requires Scanned(q, mid, taken) && x !in q.spool
    ensures x !in mid.spool
  {
  }

  lemma OlderAtWork(w: World, step: Step, id: string, x: string)
    requires Inv(w) && Can(w, step) && step.Claim? && step.rule.onePerRef
    requires ScanOf(w.q, step).1 == Some(id) && Older(w, x, id)
    ensures x in Do(w, step).q.working <==>
            x in w.q.working && x in step.rule.blind && !GoesAside(w.q, step.rule, id, x)
  {
    ScanOfTidy(w.q, step);
    AsKnown(w, x);
    AsKnown(w, id);
    LessIrreflexive(Group(w.known[id]));
    assert x != id;
    ClaimMoves(w.q, step);
    assert x in ScanOf(w.q, step).0.working ==> x in w.q.working;
    assert Before(w.known[x], w.known[id]);
    hide Moved, ScanOf, Scanned, Tidy, MayGo, TakenBy, Sound, Logged, Lists, Readable, Less, KeyOf, Group, GoesAside;
    if x in w.q.working {
      assert Before(w.q.working[x], w.q.spool[id]);
      WorkIsLeftIff(w, step, id, x);
      WorkIsBusy(w.q, step.rule, x, w.q.spool[id]);
    }
  }

  /** In push order, no group is at work that is newer than a queued job. */
  lemma NotBusyYet(w: World, rule: Rule, x: string, id: string)
    requires Inv(w) && InPushOrder(w) && x in w.q.spool && id in w.q.spool && Older(w, x, id)
    ensures Group(w.q.spool[id]) !in Busy(w.q, rule, KeyOf(w.q.spool[id]))
  {
    AsKnown(w, x);
    AsKnown(w, id);
    assert InQueue(w.q, x) && Open(w, x);
    forall y | y in w.q.working && KeyOf(w.q.working[y]) == KeyOf(w.q.spool[id])
      ensures Group(w.q.working[y]) != Group(w.q.spool[id])
    {
      AsKnown(w, y);
      assert Begun(w, y) && !Older(w, x, y);
    }
    hide Group, KeyOf, Less;
  }

  /** An older job at work that a claim can read keeps the newer one from being taken. */
  lemma WorkIsBusy(q: Queue, rule: Rule, x: string, taken: Job)
    requires rule.onePerRef && MayGo(q, rule, taken) && x in q.working && Before(q.working[x], taken)
    ensures x in rule.blind
  {
    hide Owners, Less, KeyOf;
    LessIrreflexive(Group(taken));
    forall y | y in q.working && y !in rule.blind
      ensures Group(q.working[y]) in Busy(q, rule, KeyOf(q.working[y]))
    {
    }
  }

  lemma ClaimKeepsOrderIff(w: World, step: Step)
    requires Inv(w) && Can(w, step) && step.Claim? && step.rule.onePerRef && InPushOrder(w)
    ensures InPushOrder(Do(w, step)) <==> !Disorders(w, step)
  {
    ClaimOpensNothing(w, step);
    var after, taken := Do(w, step), ScanOf(w.q, step).1;
    if taken.None? {
      hide Do, Open, Begun, InPushOrder;
      NothingBegins(w, after);
    } else {
      var id := taken.value;
      hide Do, Open, Begun, InPushOrder, Older, LeftOpen, Inv, Can, ScanOf;
      OneBegins(w, after, id);
      forall x | Older(w, x, id)
        ensures Open(after, x) <==> LeftOpen(w, step.rule, id, x)
      {
        LeftOpenIff(w, step, id, x);
      }
    }
  }

  lemma ClaimOpensNothing(w: World, step: Step)
    requires Inv(w) && Can(w, step) && step.Claim?
    ensures var after, taken := Do(w, step), ScanOf(w.q, step).1;
            && after.known == w.known
            && (forall x :: Open(after, x) ==> Open(w, x))
            && (forall y :: Begun(after, y) ==> Begun(w, y) || taken == Some(y))
            && (taken.Some? ==> Begun(after, taken.value))
  {
    ClaimIsTidy(w, step);
    ScanOfTidy(w.q, step);
    var after, taken := Do(w, step), ScanOf(w.q, step).1;
    assert after.known == w.known && after.requests == w.requests;
    forall x | Open(after, x)
      ensures Open(w, x)
    {
      hide Do, ScanOf, Inv;
    }
    forall y | Begun(after, y)
      ensures Begun(w, y) || taken == Some(y)
    {
      if y in Finished(w, step) {
        FinishedWasOpen(w, step, y);
      }
      hide Inv, MayGo, TakenBy, Tidy, ScanOf;
    }
    hide Inv, MayGo, TakenBy, Tidy, ScanOf;
  }

  /** A step keeps push order if and only if it is none of those that break it. */
  lemma StepKeepsOrderIff(w: World, step: Step)
    requires Inv(w) && Can(w, step) && InPushOrder(w) && (step.Claim? ==> step.rule.onePerRef)
    ensures InPushOrder(Do(w, step)) <==> !Disorders(w, step)
  {
    match step {
      case Enqueue(job) =>
        ComingKeepsOrderIff(w, step, job);
        hide InPushOrder, Do, ComesLate;
      case Recover(job) =>
        ComingKeepsOrderIff(w, step, job);
        hide InPushOrder, Do, ComesLate;
      case Claim(_, _, _, _, _) => ClaimKeepsOrderIff(w, step);
      case Commit(_) => CommitKeepsOrderIff(w, step);
      case _ => MoveKeepsOrder(w, step);
    }
  }

  ghost predicate OrderedThroughout(w: World, steps: seq<Step>)
    decreases |steps|
  {
    InPushOrder(w) && (steps == [] || OrderedThroughout(Do(w, steps[0]), steps[1..]))
  }

  ghost predicate NeverDisorders(w: World, steps: seq<Step>)
    decreases |steps|
  {
    steps == [] || (!Disorders(w, steps[0]) && NeverDisorders(Do(w, steps[0]), steps[1..]))
  }

  /** A run whose claims go by the rule stays in push order if and only if none of its steps breaks it. */
  lemma {:induction false} RunsKeepPushOrderIff(w: World, steps: seq<Step>)
    requires Inv(w) && InPushOrder(w) && Runs(w, steps) && ClaimsByRule(steps)
    ensures OrderedThroughout(w, steps) <==> NeverDisorders(w, steps)
    decreases |steps|
  {
    hide Inv, Can, Do, InPushOrder, Disorders;
    if steps != [] {
      StepKeeps(w, steps[0]);
      StepKeepsOrderIff(w, steps[0]);
      if InPushOrder(Do(w, steps[0])) {
        RunsKeepPushOrderIff(Do(w, steps[0]), steps[1..]);
      } else {
        assert !OrderedThroughout(Do(w, steps[0]), steps[1..]);
      }
    }
  }

  // ----- finishing in push order --------------------------------------------------------------------

  /** A stretch of a run, with what it begins in and what it ends in. */
  lemma {:induction false} RunParts(w: World, steps: seq<Step>, n: nat)
    requires Inv(w) && InPushOrder(w) && Runs(w, steps) && ClaimsByRule(steps) && NeverDisorders(w, steps)
    requires n <= |steps|
    ensures var mid, rest := After(w, steps[..n]), steps[n..];
            && Inv(mid) && InPushOrder(mid) && Runs(mid, rest) && ClaimsByRule(rest) && NeverDisorders(mid, rest)
            && After(w, steps) == After(mid, rest)
    decreases n
  {
    hide Inv, Can, Do, InPushOrder, Disorders;
    if n == 0 {
      assert steps[..0] == [] && steps[0..] == steps;
    } else {
      StepKeeps(w, steps[0]);
      StepKeepsOrderIff(w, steps[0]);
      assert steps[..n][0] == steps[0] && steps[..n][1..] == steps[1..][..n - 1];
      assert steps[1..][n - 1..] == steps[n..];
      RunParts(Do(w, steps[0]), steps[1..], n - 1);
    }
  }

  /** What is done stays done, and what was queued stays as it was queued. */
  lemma {:induction false} DoneStays(w: World, steps: seq<Step>, y: string)
    requires Inv(w) && Runs(w, steps) && y in w.done
    ensures y in After(w, steps).done && y in w.known && y in After(w, steps).known
    ensures After(w, steps).known[y] == w.known[y]
    decreases |steps|
  {
    assert y in w.known;
    if steps != [] {
      StepKeeps(w, steps[0]);
      assert y in Do(w, steps[0]).done && Do(w, steps[0]).known[y] == w.known[y];
      hide Inv, Can, Do;
      DoneStays(Do(w, steps[0]), steps[1..], y);
    }
  }

  /**
   In a run of which no step breaks push order, whatever finishes later is not older: no result is
   committed, and no job leaves work for good, after that has happened to a newer one of its ref.
   */
  lemma FinishesInPushOrder(w: World, steps: seq<Step>, i: nat, j: nat, x: string, y: string)
    requires Inv(w) && InPushOrder(w) && Runs(w, steps) && ClaimsByRule(steps) && NeverDisorders(w, steps)
    requires i < j < |steps|
    requires y in Finished(After(w, steps[..i]), steps[i]) && x in Finished(After(w, steps[..j]), steps[j])
    ensures !Older(After(w, steps[..j]), x, y)
  {
    hide Inv, Can, Do, InPushOrder, Disorders, Finished, Older, Runs, NeverDisorders;
    RunParts(w, steps, i);
    RunParts(w, steps, j);
    NextIsThere(w, steps, i);
    NextIsThere(w, steps, j);
    var wi, wj := After(w, steps[..i]), After(w, steps[..j]);
    FinishedWasOpen(wj, steps[j], x);
    var next := Do(wi, steps[i]);
    assert y in next.done by {
      IsDone(wi, steps[i], y);
    }
    var between := steps[i + 1..j];
    assert Inv(next) && Runs(next, between) && After(next, between) == wj by {
      Between(w, steps, i, j);
    }
    DoneStays(next, between, y);
    assert Open(wj, x) && Begun(wj, y);
    InOrderSays(wj, x, y);
  }

  lemma IsDone(w: World, step: Step, y: string)
    requires y in Finished(w, step)
    ensures y in Do(w, step).done
  {
    hide Finished, Moved;
  }

  lemma InOrderSays(w: World, x: string, y: string)
    requires InPushOrder(w) && Open(w, x) && Begun(w, y)
    ensures !Older(w, x, y)
  {
  }

  /** The next step of a run can be taken. */
  lemma NextIsThere(w: World, steps: seq<Step>, n: nat)
    requires n < |steps| && Runs(After(w, steps[..n]), steps[n..])
    ensures Can(After(w, steps[..n]), steps[n])
    ensures Runs(Do(After(w, steps[..n]), steps[n]), steps[n + 1..])
  {
    assert steps[n..][0] == steps[n] && steps[n..][1..] == steps[n + 1..];
    hide Can, Do;
  }

  lemma {:induction false} AfterParts(w: World, a: seq<Step>, b: seq<Step>)
    ensures Runs(w, a + b) <==> Runs(w, a) && Runs(After(w, a), b)
    ensures After(w, a + b) == After(After(w, a), b)
    decreases |a|
  {
    hide Can, Do;
    if a == [] {
      assert a + b == b;
    } else {
      assert (a + b)[0] == a[0] && (a + b)[1..] == a[1..] + b;
      AfterParts(Do(w, a[0]), a[1..], b);
    }
  }

  lemma Between(w: World, steps: seq<Step>, i: nat, j: nat)
    requires i < j < |steps| && Inv(w) && Runs(w, steps)
    ensures var next := Do(After(w, steps[..i]), steps[i]);
            Inv(next) && Runs(next, steps[i + 1..j]) && After(next, steps[i + 1..j]) == After(w, steps[..j])
  {
    hide Can, Do, Inv;
    var front, middle, back := steps[..i], [steps[i]], steps[i + 1..j];
    assert steps == steps[..j] + steps[j..] && steps[..j] == front + middle + back;
    AfterParts(w, steps[..j], steps[j..]);
    AfterParts(w, front + middle, back);
    AfterParts(w, front, middle);
    OneMore(After(w, front), steps[i]);
    hide Runs, After;
    RunKeeps(w, front + middle);
  }

  lemma OneMore(w: World, step: Step)
    ensures After(w, [step]) == Do(w, step)
  {
    hide Do;
    assert [step][1..] == [];
  }

  // ----- the oldest job first -----------------------------------------------------------------

  /** The checks read the records of the runs a job needs, and no others. */
  lemma JudgeReadsNeeds(rule: Rule, a: map<RunId, Past>, b: map<RunId, Past>, job: Job)
    requires forall i | 0 <= i < |job.needs| ::
               var r := RunId(job.project, job.needs[i]);
               (r in a <==> r in b) && (r in a ==> a[r] == b[r])
    ensures Judge(rule, a, job) == Judge(rule, b, job)
  {
    assert forall i | 0 <= i < |job.needs| :: Fails(a, job, job.needs[i]) <==> Fails(b, job, job.needs[i]);
    assert forall i | 0 <= i < |job.needs| :: Lacks(a, job, job.needs[i]) <==> Lacks(b, job, job.needs[i]);
  }

  /** What the scan does to other jobs does not change its verdict on a job that needs none of them. */
  lemma {:induction false} JudgedAtOnce(
      q: Queue, rule: Rule, names: seq<string>, records: map<RunId, Past>, id: string)
    requires Tidy(q) && Apart(names) && id in names && id in q.spool
    requires forall i | 0 <= i < |q.spool[id].needs| :: q.spool[id].needs[i] !in q.spool
    ensures VerdictOf(Judged(q.spool, rule, names, records), id) == Judge(rule, records, q.spool[id])
    decreases |names|
  {
    hide Judge;
    var first, rest := names[0], names[1..];
    if first != id {
      assert names == [first] + rest;
      if first in q.spool {
        var next := Noted(records, q.spool[first], Judge(rule, records, q.spool[first]));
        JudgedAtOnce(q, rule, rest, next, id);
        JudgeReadsNeeds(rule, records, next, q.spool[id]);
      } else {
        JudgedAtOnce(q, rule, rest, records, id);
      }
    }
  }

  /**
   While any queued job is eligible a claim takes one, and no eligible job is older than the one it takes.
   Eligible is what passes all checks, and needs no run that is itself still queued.
   */
  lemma ClaimsOldest(w: World, step: Step, id: string)
    requires Inv(w) && Can(w, step) && step.Claim? && id in w.q.spool
    requires Judge(step.rule, step.records, w.q.spool[id]).Take? && MayGo(w.q, step.rule, w.q.spool[id])
    requires forall i | 0 <= i < |w.q.spool[id].needs| :: w.q.spool[id].needs[i] !in w.q.spool
    ensures var taken := ScanOf(w.q, step).1;
            taken.Some? && (taken.value == id || Less(taken.value, id))
  {
    InOrderIsApart(step.claims);
    JudgedAtOnce(w.q, step.rule, step.claims, step.records, id);
    TakesOldest(w.q, w.q, step.rule, step.claims, Judged(w.q.spool, step.rule, step.claims, step.records), id);
  }

  lemma {:induction false} TakesOldest(
      q: Queue, start: Queue, rule: Rule, names: seq<string>, verdicts: map<string, Verdict>, eligible: string)
    requires InOrder(names) && AsStarted(q, start, names) && eligible in names && Takes(start, rule, verdicts, eligible)
    ensures var taken := Scan(q, start, rule, names, verdicts).1;
            taken.Some? && (taken.value == eligible || Less(taken.value, eligible))
    decreases |names|
  {
    InOrderIsApart(names);
    hide Less, MayGo;
    var first, rest := names[0], names[1..];
    AsStartedOn(q, start, names);
    assert names == [first] + rest && first in names;
    if Takes(start, rule, verdicts, first) {
      if eligible != first {
        var k :| 0 < k < |names| && names[k] == eligible;
      }
    } else if VerdictOf(verdicts, first).Retire? {
      TakesOldest(q.(spool := Drop(q.spool, first)), start, rule, rest, verdicts, eligible);
    } else if VerdictOf(verdicts, first).Unreadable? {
      AsideStarted(q, start, names);
      TakesOldest(SetAside(q, first), start, rule, rest, verdicts, eligible);
    } else {
      TakesOldest(q, start, rule, rest, verdicts, eligible);
    }
  }

  // ----- what only has to wait --------------------------------------------------------------------

  /** A delay that is found is never lengthened. */
  lemma {:induction false} DelayOnlySooner(
      q: Queue, rule: Rule, names: seq<string>, records: map<RunId, Past>, found: Option<nat>)
    ensures var delay := Delay(q, rule, names, records, found);
            found.Some? ==> delay.Some? && delay.value <= found.value
    decreases |names|
  {
    hide Judge, MayGo, PassesButAge, Noted;
    if names != [] {
      if names[0] !in q.spool {
        DelayOnlySooner(q, rule, names[1..], records, found);
      } else {
        var job := q.spool[names[0]];
        var sooner := if OnlyYoung(q, rule, records, job) then Sooner(found, AgesIn(rule, job.id)) else found;
        DelayOnlySooner(q, rule, names[1..], Noted(records, job, Judge(rule, records, job)), sooner);
      }
    }
  }

  /** A delay is the wait of a job that only its age holds back, by the records the scan has at its turn. */
  lemma {:induction false} DelayIsOfOne(
      q: Queue, rule: Rule, names: seq<string>, records: map<RunId, Past>, found: Option<nat>)
    returns (id: string, seen: map<RunId, Past>)
    requires Delay(q, rule, names, records, found) != found
    ensures id in q.spool && OnlyYoung(q, rule, seen, q.spool[id])
    ensures Delay(q, rule, names, records, found) == Some(AgesIn(rule, q.spool[id].id))
    decreases |names|
  {
    hide Judge, MayGo, Noted, PassesButAge;
    if names[0] !in q.spool {
      id, seen := DelayIsOfOne(q, rule, names[1..], records, found);
    } else {
      var job := q.spool[names[0]];
      var next := Noted(records, job, Judge(rule, records, job));
      var sooner := if OnlyYoung(q, rule, records, job) then Sooner(found, AgesIn(rule, job.id)) else found;
      if Delay(q, rule, names[1..], next, sooner) == sooner {
        id, seen := names[0], records;
      } else {
        id, seen := DelayIsOfOne(q, rule, names[1..], next, sooner);
      }
    }
  }

  /** No job is taken, by the records the scan has at its turn. */
  predicate NoneTaken(q: Queue, rule: Rule, names: seq<string>, records: map<RunId, Past>)
    decreases |names|
  {
    names == [] ||
    if names[0] !in q.spool then NoneTaken(q, rule, names[1..], records)
    else
      var job, verdict := q.spool[names[0]], Judge(rule, records, q.spool[names[0]]);
      !(verdict.Take? && MayGo(q, rule, job)) && NoneTaken(q, rule, names[1..], Noted(records, job, verdict))
  }

  lemma {:induction false} ScanTakesNone(
      q: Queue, start: Queue, rule: Rule, names: seq<string>, records: map<RunId, Past>, verdicts: map<string, Verdict>)
    requires Scanning(q, start, rule, names, records, verdicts) && Scan(q, start, rule, names, verdicts).1.None?
    ensures NoneTaken(start, rule, names, records)
    decreases |names|
  {
    if names != [] {
      NextVerdict(q, start, rule, names, records, verdicts);
      NextScan(q, start, rule, names, records, verdicts);
      AtStart(q, start, names, names[0]);
      PassedNotes(q, rule, names[0], records);
      var (next, noted) := Passed(q, rule, names[0], records);
      hide Scanning, Scan, Judge, MayGo, Noted, Passed, Judged;
      ScanTakesNone(next, start, rule, names[1..], noted, verdicts);
    }
  }

  lemma {:induction false} DelayIsNoLonger(
      q: Queue, rule: Rule, names: seq<string>, records: map<RunId, Past>, found: Option<nat>, id: string)
    requires Tidy(q) && Apart(names) && id in names && id in q.spool && NoneTaken(q, rule, names, records)
    requires forall i | 0 <= i < |q.spool[id].needs| :: q.spool[id].needs[i] !in q.spool
    requires OnlyYoung(q, rule, records, q.spool[id])
    ensures var delay := Delay(q, rule, names, records, found);
            delay.Some? && delay.value <= AgesIn(rule, id)
    decreases |names|
  {
    var first, rest := names[0], names[1..];
    assert names == [first] + rest && q.spool[id].id == id;
    hide Judge, MayGo;
    if first !in q.spool {
      DelayIsNoLonger(q, rule, rest, records, found, id);
    } else {
      var job := q.spool[first];
      var next := Noted(records, job, Judge(rule, records, job));
      var sooner := if OnlyYoung(q, rule, records, job) then Sooner(found, AgesIn(rule, job.id)) else found;
      if first == id {
        DelayOnlySooner(q, rule, rest, next, sooner);
      } else {
        JudgeReadsNeeds(rule.(minAge := 0), records, next, q.spool[id]);
        DelayIsNoLonger(q, rule, rest, next, sooner, id);
      }
    }
  }

  /**
   A claim that takes nothing tells how long to wait: for each job that only its age holds back, and that
   needs no run that is itself queued, no longer than until that is old enough.
   */
  lemma DelayIsEnough(w: World, step: Step, id: string)
    requires Inv(w) && Can(w, step) && step.Claim? && ScanOf(w.q, step).1.None? && id in w.q.spool
    requires OnlyYoung(w.q, step.rule, step.records, w.q.spool[id])
    requires forall i | 0 <= i < |w.q.spool[id].needs| :: w.q.spool[id].needs[i] !in w.q.spool
    ensures var delay := Delay(w.q, step.rule, step.claims, step.records, None);
            w.q.spool[id].id == id && delay.Some? && delay.value <= AgesIn(step.rule, id)
  {
    InOrderIsApart(step.claims);
    var verdicts := Judged(w.q.spool, step.rule, step.claims, step.records);
    ScanTakesNone(w.q, w.q, step.rule, step.claims, step.records, verdicts);
    hide OnlyYoung, Scan, Judged, NoneTaken, InOrder;
    DelayIsNoLonger(w.q, step.rule, step.claims, step.records, None, id);
  }
}
