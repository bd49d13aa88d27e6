/**
 Every run of the job queue: any interleaving of queueing, claiming, renewing, reaping, giving
 back, committing and releasing, with any tokens presented by anyone, crashes in the middle of
 taking a job out of `working`, and the recovery of workflow children from their journal.
 */
module QueueRuns {
  import opened Wrappers
  import opened Text
  import opened Records
  import opened JobQueue

  /** A request to finish a job that has found its claim held, and has not committed the result yet. */
  datatype Request = Request(id: string, token: string)

  /**
   The queue, the job each token was issued for, the jobs ever queued, the requests on their way to a
   commit, and the jobs that were committed or have left work for good.
   */
  datatype World = World(
    q: Queue, issued: map<string, string>, known: map<string, Job>, requests: map<nat, Request>, done: set<string>)

  datatype Step =
    | Enqueue(job: Job)
    | Claim(rule: Rule, claims: seq<string>, records: map<RunId, Past>, lease: Lease, ending: Ending)
    | Renew(id: string, token: string, expires: nat)
    | Reap(lapsed: seq<string>, fates: map<string, Fate>, now: nat, max: nat, restarted: string)
    | Abandon(id: string, token: string, fate: Fate)
    | Release(id: string, token: string)
    | Tear(id: string, cause: Cause, crash: Crash)
    | Recover(job: Job)
    | Settle(id: string)
    | Overtake(job: Job)
    | Begin(request: nat, id: string, token: string)
    | Commit(request: nat)
    | Die(request: nat)

  const EMPTY := World(Queue(map[], map[], map[]), map[], map[], map[], {})

  function ScanOf(q: Queue, step: Step): (Queue, Option<string>)
    requires step.Claim?
  {
    Scan(q, q, step.rule, step.claims, Judged(q.spool, step.rule, step.claims, step.records))
  }

  /** The same job, on whichever attempt. */
  predicate Like(a: Job, b: Job) {
    a.(attempt := 0) == b.(attempt := 0)
  }

  predicate IsKnownChild(w: World, job: Job) {
    Child(job) && job.id in w.known && Like(job, w.known[job.id])
  }

  predicate InQueue(q: Queue, id: string) {
    id in q.spool || id in q.working
  }

  function JobOf(q: Queue, id: string): Job
    requires InQueue(q, id)
  {
    if id in q.spool then q.spool[id] else q.working[id]
  }

  /**
   Fresh ids are queued for a first attempt, tokens are drawn anew, and a claim scans the whole
   spool; a reaper that crashed has seen only some of the claimed jobs. The journal of a workflow
   puts a child back that is in neither place, on the attempt its record has. A request to finish
   looks at the claim once and commits at some later time, or dies.
   */
  predicate Can(w: World, step: Step) {
    match step
    case Enqueue(job) => job.id !in w.known && job.attempt == 1 && Proper(job)
    case Claim(_, claims, _, lease, _) => Lists(claims, w.q.spool) && lease.token !in w.issued
    case Reap(lapsed, _, _, _, _) => Apart(lapsed)
    case Tear(id, cause, crash) => CanCrash(w.q, id, cause, crash)
    case Recover(job) => IsKnownChild(w, job) && !InQueue(w.q, job.id) && job.attempt >= 1
    case Overtake(job) => IsKnownChild(w, job)
    case Begin(request, _, _) => request !in w.requests
    case Commit(request) => request in w.requests
    case _ => true
  }

  /** A child that has ended or is cancelled is taken out of the spool when nobody holds it. */
  function Settled(q: Queue, id: string): Queue {
    if id in q.spool && id !in q.working && Child(q.spool[id]) then q.(spool := Drop(q.spool, id)) else q
  }

  function Moved(q: Queue, step: Step): Queue {
    match step
    case Enqueue(job) => Enqueued(q, job)
    case Claim(rule, claims, records, lease, ending) => Claimed(q, rule, claims, records, lease, ending)
    case Renew(id, token, expires) => Renewed(q, id, token, expires)
    case Reap(lapsed, fates, now, max, restarted) => Reaped(q, lapsed, fates, now, max, restarted)
    case Abandon(id, token, fate) => Abandoned(q, id, token, fate).0
    case Release(id, token) => Released(q, id, token)
    case Tear(id, _, crash) => if id in q.working then Crashed(q, id, crash) else q
    case Recover(job) => Enqueued(q, job)
    case Settle(id) => Settled(q, id)
    case Overtake(job) => Yielded(q, job)
    case _ => q
  }

  function Requested(w: World, step: Step): map<nat, Request> {
    match step
    case Begin(request, id, token) =>
      if id in w.q.working && Owns(w.q, id, token) then w.requests[request := Request(id, token)] else w.requests
    case Commit(request) => w.requests - {request}
    case Die(request) => w.requests - {request}
    case _ => w.requests
  }

  /** The jobs that a step commits, or that leave work with it and are not put back. */
  function Finished(w: World, step: Step): set<string> {
    var q := w.q;
    match step
    case Claim(_, _, _, _, ending) =>
      (set id | id in q.working && id !in Moved(q, step).working) +
      (var taken := ScanOf(q, step).1; if taken.Some? && ending == Early then {taken.value} else {})
    case Reap(lapsed, fates, now, max, restarted) =>
      set id | id in q.working && id in lapsed && Lapsed(q, id, now, restarted) &&
               GoesOut(q.working[id], FateOf(fates, id), Some(Attempts(max)))
    case Abandon(id, token, fate) =>
      if id in q.working && Owns(q, id, token) && GoesOut(q.working[id], fate, None) then {id} else {}
    case Release(id, token) => if id in q.working && Owns(q, id, token) then {id} else {}
    case Tear(id, _, crash) => if id in q.working && crash.LeaseLeft? then {id} else {}
    case Commit(request) => if request in w.requests then {w.requests[request].id} else {}
    case _ => {}
  }

  function Do(w: World, step: Step): World {
    World(
      Moved(w.q, step),
      match step {
        case Claim(_, _, _, lease, _) =>
          (match ScanOf(w.q, step).1
           case Some(id) => w.issued[lease.token := id]
           case None => w.issued)
        case _ => w.issued
      },
      match step { case Enqueue(job) => w.known[job.id := job] case _ => w.known },
      Requested(w, step),
      w.done + Finished(w, step))
  }

  // ----- the invariant ------------------------------------------------------------------------

  /** Every job stands under its own id; where it stands twice, the spool has its next attempt. */
  predicate Tidy(q: Queue) {
    && (forall id | id in q.spool :: q.spool[id].id == id && q.spool[id].attempt >= 1)
    && (forall id | id in q.working :: q.working[id].id == id && q.working[id].attempt >= 1)
    && (forall id | id in q.spool && id in q.working :: q.spool[id] == Again(q.working[id]))
  }

  /** Only jobs that could be read and carry no lock are at work. */
  predicate Fit(q: Queue) {
    forall id | id in q.working :: q.working[id].attempt <= MAX_ATTEMPT && !q.working[id].locked
  }

  /** Whatever is in the queue was queued once. */
  ghost predicate Kin(q: Queue, known: map<string, Job>) {
    && (forall x | x in known :: Proper(known[x]) && known[x].id == x)
    && forall x :: InQueue(q, x) ==> x in known && Like(JobOf(q, x), known[x])
  }

  predicate Tokens(q: Queue, issued: map<string, string>) {
    forall id | id in q.leases :: q.leases[id].token in issued && issued[q.leases[id].token] == id
  }

  ghost predicate Sound(q: Queue, issued: map<string, string>, known: map<string, Job>) {
    Tidy(q) && Fit(q) && Kin(q, known) && Tokens(q, issued)
  }

  /** Requests and what is done are about jobs that were queued. */
  predicate Logged(w: World) {
    && (forall r | r in w.requests :: w.requests[r].id in w.known)
    && forall id | id in w.done :: id in w.known
  }

  /** Each lease's token was issued for just that job. */
  ghost predicate Inv(w: World) {
    Sound(w.q, w.issued, w.known) && Logged(w)
  }

  lemma EmptyInv()
    ensures Inv(EMPTY) && Alone(EMPTY.q)
  {
  }

  /** What the leases of one queue are compared with those of another. */
  predicate FewerLeases(after: Queue, before: Queue) {
    forall id | id in after.leases :: id in before.leases && after.leases[id].token == before.leases[id].token
  }

  /** Nothing is in the queue that was not. */
  ghost predicate NoneNew(after: Queue, before: Queue) {
    forall x :: InQueue(after, x) ==> InQueue(before, x) && Like(JobOf(after, x), JobOf(before, x))
  }

  /** `after` has nothing at work that `before` had not. */
  predicate NoMoreWorking(after: Queue, before: Queue) {
    forall id | id in after.working :: id in before.working && after.working[id] == before.working[id]
  }

  /** So a step that only moves and removes jobs keeps the invariant. */
  lemma FewerKeep(w: World, after: Queue)
    requires Inv(w) && Tidy(after) && NoneNew(after, w.q) && NoMoreWorking(after, w.q) && FewerLeases(after, w.q)
    ensures Sound(after, w.issued, w.known)
  {
    hide Tidy, InQueue, JobOf, Proper, Logged;
  }

  lemma RequeueTidy(q: Queue, id: string, fate: Fate, limit: Option<nat>)
    requires Tidy(q)
    ensures var after := Requeue(q, id, fate, limit).0;
            Tidy(after) && FewerLeases(after, q) && NoneNew(after, q) && NoMoreWorking(after, q)
  {
    OutMoves(q, id);
    if id in q.working {
      BackMoves(q, id);
    }
    hide OnlyMoved, Child, Again;
    assert OnlyMoved(Requeue(q, id, fate, limit).0, q);
    OnlyMovedParts(Requeue(q, id, fate, limit).0, q);
  }

  ghost predicate OnlyMoved(after: Queue, before: Queue) {
    Tidy(after) && NoneNew(after, before) && NoMoreWorking(after, before) && FewerLeases(after, before)
  }

  lemma OnlyMovedParts(after: Queue, before: Queue)
    requires OnlyMoved(after, before)
    ensures Tidy(after) && NoneNew(after, before) && NoMoreWorking(after, before) && FewerLeases(after, before)
  {
  }

  /** Out of `working`, and of the spool or not. */
  lemma OutMoves(q: Queue, id: string)
    requires Tidy(q)
    ensures OnlyMoved(Queue(q.spool, Drop(q.working, id), Drop(q.leases, id)), q)
    ensures OnlyMoved(Queue(Drop(q.spool, id), Drop(q.working, id), Drop(q.leases, id)), q)
  {
    hide Again;
    assert forall x | x in q.spool && x in q.working :: Like(q.spool[x], q.working[x]) by {
      AgainIsLike();
    }
  }

  lemma BackMoves(q: Queue, id: string)
    requires Tidy(q) && id in q.working
    ensures OnlyMoved(Queue(q.spool[id := Again(q.working[id])], Drop(q.working, id), Drop(q.leases, id)), q)
  {
    AgainIsLike();
  }

  lemma AgainIsLike()
    ensures forall job: Job :: Like(Again(job), job)
  {
  }

  /** A requeue concerns one job. */
  lemma RequeueIsLocal(q: Queue, id: string, fate: Fate, limit: Option<nat>)
    ensures var after := Requeue(q, id, fate, limit).0;
            && id !in after.leases
            && (forall x | x != id :: (x in after.spool <==> x in q.spool) && (x in after.working <==> x in q.working))
            && (forall x | x != id && x in q.spool :: after.spool[x] == q.spool[x])
            && (forall x | x != id && x in q.working :: after.working[x] == q.working[x])
            && (forall x | x != id && x in q.leases :: x in after.leases && after.leases[x] == q.leases[x])
  {
  }

  lemma {:induction false} ReapedTidy(
      q: Queue, names: seq<string>, fates: map<string, Fate>, now: nat, max: nat, restarted: string)
    requires Tidy(q)
    ensures var after := Reaped(q, names, fates, now, max, restarted);
            Tidy(after) && FewerLeases(after, q) && NoneNew(after, q) && NoMoreWorking(after, q)
    decreases |names|
  {
    hide Requeue, Tidy, InQueue, JobOf;
    if names != [] {
      RequeueTidy(q, names[0], FateOf(fates, names[0]), Some(Attempts(max)));
      ReapedTidy(ReapOne(q, names[0], fates, now, max, restarted), names[1..], fates, now, max, restarted);
    }
  }

  /** What a scan has done to the queue. */
  predicate Scanned(q: Queue, after: Queue, taken: Option<string>) {
    && after.leases == q.leases
    && (forall x | x in after.spool :: x in q.spool && after.spool[x] == q.spool[x])
    && (forall x | x in after.working && taken != Some(x) :: x in q.working && after.working[x] == q.working[x])
    && (forall x | x in q.working && x !in q.spool :: x in after.working)
    && (taken.Some? ==>
          var id := taken.value;
          id in q.spool && id !in after.spool && id in after.working && after.working[id] == q.spool[id])
  }

  /** A scan that goes on from a queue with one job fewer. */
  lemma ScannedOver(q: Queue, id: string, next: Queue, after: Queue, taken: Option<string>)
    requires next == q.(spool := Drop(q.spool, id)) || next == SetAside(q, id)
    requires Scanned(next, after, taken)
    ensures Scanned(q, after, taken)
    ensures taken.Some? ==> taken.value in q.spool && q.spool[taken.value] == next.spool[taken.value]
  {
  }

  lemma FewerIsTidy(q: Queue, id: string)
    requires Tidy(q)
    ensures Tidy(q.(spool := Drop(q.spool, id))) && Tidy(SetAside(q, id))
  {
    hide Again;
  }

  lemma TakenIsScanned(q: Queue, id: string)
    requires Tidy(q) && id in q.spool
    ensures var after := Queue(Drop(q.spool, id), q.working[id := q.spool[id]], q.leases);
            Tidy(after) && Scanned(q, after, Some(id))
  {
    hide Again;
  }

  lemma NothingScanned(q: Queue)
    ensures Scanned(q, q, None)
  {
  }

  lemma {:induction false} ScanTidy(
      q: Queue, start: Queue, rule: Rule, names: seq<string>, verdicts: map<string, Verdict>)
    requires Tidy(q)
    ensures var (after, taken) := Scan(q, start, rule, names, verdicts);
            && Tidy(after) && Scanned(q, after, taken) && (taken.Some? ==> taken.value in q.spool)
            && (taken.Some? ==> VerdictOf(verdicts, taken.value).Take? && MayGo(start, rule, q.spool[taken.value]))
    decreases |names|
  {
    hide MayGo, Tidy, Scanned, SetAside, VerdictOf;
    if names == [] {
      NothingScanned(q);
    } else {
      var id, rest := names[0], names[1..];
      var (after, taken) := Scan(q, start, rule, names, verdicts);
      FewerIsTidy(q, id);
      match VerdictOf(verdicts, id) {
        case Hold => ScanTidy(q, start, rule, rest, verdicts);
        case Retire(_) =>
          ScanTidy(q.(spool := Drop(q.spool, id)), start, rule, rest, verdicts);
          ScannedOver(q, id, q.(spool := Drop(q.spool, id)), after, taken);
        case Unreadable =>
          ScanTidy(SetAside(q, id), start, rule, rest, verdicts);
          ScannedOver(q, id, SetAside(q, id), after, taken);
        case Take =>
          if id in q.spool && MayGo(start, rule, q.spool[id]) {
            TakenIsScanned(q, id);
          } else {
            ScanTidy(q, start, rule, rest, verdicts);
          }
      }
    }
  }

  /** The verdict on a job is what the checks say of it, by the records the scan has then. */
  lemma {:induction false} JudgedBy(
      spool: map<string, Job>, rule: Rule, names: seq<string>, records: map<RunId, Past>, id: string)
    returns (seen: map<RunId, Past>)
    requires Apart(names) && id in names && id in spool
    ensures VerdictOf(Judged(spool, rule, names, records), id) == Judge(rule, seen, spool[id])
    decreases |names|
  {
    hide Judge, Noted;
    var first, rest := names[0], names[1..];
    if first == id {
      seen := records;
    } else {
      assert names == [first] + rest;
      if first in spool {
        seen := JudgedBy(spool, rule, rest, Noted(records, spool[first], Judge(rule, records, spool[first])), id);
      } else {
        seen := JudgedBy(spool, rule, rest, records, id);
      }
    }
  }

  /** What a claim does: it takes a queued job that is eligible, and the rest of the spool stays or goes. */
  lemma ScanOfTidy(q: Queue, step: Step)
    requires Tidy(q) && step.Claim? && Lists(step.claims, q.spool)
    ensures var (after, taken) := ScanOf(q, step);
            && Tidy(after) && Scanned(q, after, taken)
            && (taken.Some? ==>
                  var job := q.spool[taken.value];
                  MayGo(q, step.rule, job) && TakenBy(step.rule, job))
  {
    var verdicts := Judged(q.spool, step.rule, step.claims, step.records);
    ScanTidy(q, q, step.rule, step.claims, verdicts);
    InOrderIsApart(step.claims);
    hide Scan, Tidy, MayGo, InOrder, Judged;
    var taken := ScanOf(q, step).1;
    if taken.Some? {
      var seen := JudgedBy(q.spool, step.rule, step.claims, step.records, taken.value);
    }
  }

  /** What every claimed job fulfils, whatever the records are. */
  predicate TakenBy(rule: Rule, job: Job) {
    && Readable(rule, job) && !job.locked && Matches(rule, job) && !Young(rule, job.id)
    && (Child(job) ==> rule.version >= 2)
  }

  lemma YieldedTidy(q: Queue, job: Job)
    requires Tidy(q)
    ensures var after := Yielded(q, job);
            && Tidy(after) && after.leases == q.leases && after.working == q.working
            && NoneNew(after, q) && FewerLeases(after, q)
            && (forall id | id in after.spool :: id in q.spool && after.spool[id] == q.spool[id])
  {
    hide Overtaken, Outdates, Branch;
  }

  lemma EnqueuedTidy(q: Queue, job: Job)
    requires Tidy(q) && !InQueue(q, job.id) && job.attempt >= 1
    ensures var after := Enqueued(q, job);
            && Tidy(after) && after.leases == q.leases && after.working == q.working
            && (forall id | id in after.spool :: if id == job.id then after.spool[id] == job
                                                 else id in q.spool && after.spool[id] == q.spool[id])
  {
    var more := q.(spool := q.spool[job.id := job]);
    assert Tidy(more);
    YieldedTidy(more, job);
    hide Yielded, Tidy;
  }

  lemma ClaimKeepsTokens(w: World, step: Step)
    requires Inv(w) && Can(w, step) && step.Claim?
    ensures Tokens(Do(w, step).q, Do(w, step).issued)
  {
    ScanOfTidy(w.q, step);
    ClaimLeases(w.q, step);
    hide ScanOf, Lists, MayGo, Tidy, TakenBy, Kin, Fit, Moved, Logged, Finished;
  }

  lemma ClaimLeases(q: Queue, step: Step)
    requires step.Claim? && ScanOf(q, step).0.leases == q.leases
    ensures var taken, after := ScanOf(q, step).1, Moved(q, step).leases;
            if taken.None? || step.ending == Torn then after == q.leases
            else if step.ending == Leased then after == q.leases[taken.value := step.lease]
            else after == Drop(q.leases, taken.value)
  {
    hide Scan, Judged;
  }

  /** The queue when the scan has taken its job. */
  lemma ScanMoves(q: Queue, step: Step)
    requires Tidy(q) && Fit(q) && step.Claim? && Lists(step.claims, q.spool)
    ensures var mid := ScanOf(q, step).0;
            Tidy(mid) && Fit(mid) && NoneNew(mid, q)
  {
    ScanOfTidy(q, step);
    var (mid, taken) := ScanOf(q, step);
    assert Fit(mid);
    hide ScanOf, Lists, VerdictOf, MayGo, TakenBy, Like, Again, Tidy, Fit, Scanned;
    AgainIsLike();
    forall x | InQueue(mid, x)
      ensures InQueue(q, x) && Like(JobOf(mid, x), JobOf(q, x))
    {
      ScanMovesOne(q, mid, taken, x);
    }
  }

  lemma ScanMovesOne(q: Queue, mid: Queue, taken: Option<string>, x: string)
    requires Tidy(q) && InQueue(mid, x) && Scanned(q, mid, taken)
    ensures InQueue(q, x) && Like(JobOf(mid, x), JobOf(q, x))
  {
    AgainIsLike();
    hide Again;
  }

  lemma NoneNewOver(c: Queue, b: Queue, a: Queue)
    requires NoneNew(c, b) && NoneNew(b, a)
    ensures NoneNew(c, a)
  {
    hide InQueue, JobOf;
  }

  lemma ClaimIsTidy(w: World, step: Step)
    requires Inv(w) && Can(w, step) && step.Claim?
    ensures var after := Do(w, step).q;
            Tidy(after) && Fit(after) && NoneNew(after, w.q)
  {
    ScanMoves(w.q, step);
    var (mid, taken) := ScanOf(w.q, step);
    var after := Do(w, step).q;
    NothingNew(mid);
    if taken.Some? && step.ending == Early {
      OutMoves(mid, taken.value);
      assert after == Queue(mid.spool, Drop(mid.working, taken.value), Drop(mid.leases, taken.value));
    } else {
      assert after == mid.(leases := after.leases);
    }
    hide ScanOf, Lists, Like, Again, Kin, Tokens, Moved;
    NoneNewOver(after, mid, w.q);
  }

  lemma ClaimKeeps(w: World, step: Step)
    requires Inv(w) && Can(w, step) && step.Claim?
    ensures Sound(Do(w, step).q, Do(w, step).issued, Do(w, step).known)
  {
    ClaimIsTidy(w, step);
    ClaimKeepsTokens(w, step);
    hide Moved, ScanOf, Tidy, Fit, Lists, Proper, InQueue, JobOf, Tokens;
  }

  /** A job that is queued, for the first time or again, keeps the invariant. */
  lemma EnqueueKeeps(w: World, job: Job)
    requires Inv(w) && !InQueue(w.q, job.id) && job.attempt >= 1 && Proper(job)
    requires job.id in w.known ==> Like(job, w.known[job.id])
    ensures Sound(Enqueued(w.q, job), w.issued, w.known[job.id := job])
  {
    EnqueuedTidy(w.q, job);
    hide Enqueued, Proper, Child, Logged;
    EnqueuedKin(w.q, Enqueued(w.q, job), w.known, job);
    hide Kin, Tidy;
  }

  lemma EnqueuedKin(q: Queue, after: Queue, known: map<string, Job>, job: Job)
    requires Tidy(q) && Kin(q, known) && Proper(job) && !InQueue(q, job.id)
    requires job.id in known ==> Like(job, known[job.id])
    requires after.working == q.working
    requires forall id | id in after.spool :: if id == job.id then after.spool[id] == job
                                              else id in q.spool && after.spool[id] == q.spool[id]
    ensures Kin(after, known[job.id := job])
  {
    hide Proper, Again;
    AgainIsLike();
    var more := known[job.id := job];
    forall x | InQueue(after, x)
      ensures x in more && Like(JobOf(after, x), more[x])
    {
      if x != job.id {
        assert InQueue(q, x) && Like(JobOf(after, x), JobOf(q, x));
      }
    }
  }

  lemma KnownAgain(q: Queue, known: map<string, Job>, job: Job)
    requires Kin(q, known[job.id := job]) && job.id in known && Like(job, known[job.id])
    requires forall x | x in known :: Proper(known[x]) && known[x].id == x
    ensures Kin(q, known)
  {
    var more := known[job.id := job];
    forall x | InQueue(q, x)
      ensures x in known && Like(JobOf(q, x), known[x])
    {
      assert x in more && Like(JobOf(q, x), more[x]);
    }
  }

  lemma RecoverKeeps(w: World, job: Job)
    requires Inv(w) && Can(w, Recover(job))
    ensures Sound(Enqueued(w.q, job), w.issued, w.known)
  {
    EnqueueKeeps(w, job);
    hide Enqueued, Tidy, Fit, Tokens;
    KnownAgain(Enqueued(w.q, job), w.known, job);
  }

  /** Whatever is finished was queued. */
  lemma FinishedAreKnown(w: World, step: Step)
    requires Inv(w) && Can(w, step)
    ensures forall id | id in Finished(w, step) :: id in w.known
  {
    forall id | id in Finished(w, step)
      ensures id in w.known
    {
      if step.Claim? {
        ScanOfTidy(w.q, step);
        hide ScanOf, Moved, Tidy, MayGo, TakenBy, Lists;
        assert InQueue(w.q, id);
      } else if !step.Commit? {
        hide GoesOut, Lapsed;
        assert InQueue(w.q, id);
      }
    }
  }

  lemma LoggedStays(w: World, step: Step)
    requires Inv(w) && Can(w, step)
    ensures Logged(Do(w, step))
  {
    FinishedAreKnown(w, step);
    if step.Begin? && step.id in w.q.working {
      assert InQueue(w.q, step.id);
    }
    hide Moved, Finished, Tidy, Fit, Tokens, ScanOf, Like;
  }

  lemma StepKeeps(w: World, step: Step)
    requires Inv(w) && Can(w, step)
    ensures Inv(Do(w, step))
  {
    LoggedStays(w, step);
    hide Logged, Finished;
    match step {
      case Enqueue(job) =>
        hide Enqueued, Tidy, Fit, Like;
        EnqueueKeeps(w, job);
      case Claim(_, _, _, _, _) => ClaimKeeps(w, step);
      case Recover(job) => RecoverKeeps(w, job);
      case _ =>
        MoveIsTidy(w, step);
        FewerKeep(w, Moved(w.q, step));
        hide Moved, Tidy;
    }
  }

  lemma ReleaseMoves(q: Queue, id: string, token: string)
    requires Tidy(q)
    ensures OnlyMoved(Released(q, id, token), q)
  {
  }

  lemma RenewMoves(q: Queue, id: string, token: string, expires: nat)
    requires Tidy(q)
    ensures OnlyMoved(Renewed(q, id, token, expires), q)
  {
    assert Tidy(Renewed(q, id, token, expires));
    hide Tidy, Like;
    NothingNew(q);
  }

  lemma NothingNew(q: Queue)
    ensures NoneNew(q, q)
  {
  }

  lemma CrashMoves(q: Queue, id: string, crash: Crash)
    requires Tidy(q) && id in q.working
    ensures OnlyMoved(Crashed(q, id, crash), q)
  {
  }

  lemma SettleMoves(q: Queue, id: string)
    requires Tidy(q)
    ensures OnlyMoved(Settled(q, id), q)
  {
    hide Child;
  }

  /** All other steps only move and remove jobs. */
  lemma MoveIsTidy(w: World, step: Step)
    requires Inv(w) && Can(w, step) && !step.Enqueue? && !step.Claim? && !step.Recover?
    ensures var after := Moved(w.q, step);
            Tidy(after) && NoneNew(after, w.q) && NoMoreWorking(after, w.q) && FewerLeases(after, w.q)
  {
    hide Reaped, Requeue, Yielded, Released, Renewed, Crashed, Settled, Tidy, NoneNew, Kin, Tokens, Fit, Caused;
    match step {
      case Renew(id, token, expires) => RenewMoves(w.q, id, token, expires);
      case Reap(lapsed, fates, now, max, restarted) => ReapedTidy(w.q, lapsed, fates, now, max, restarted);
      case Abandon(id, _, fate) =>
        RequeueTidy(w.q, id, fate, None);
        NothingNew(w.q);
      case Release(id, token) => ReleaseMoves(w.q, id, token);
      case Tear(id, _, crash) =>
        NothingNew(w.q);
        if id in w.q.working {
          CrashMoves(w.q, id, crash);
        }
      case Settle(id) => SettleMoves(w.q, id);
      case Overtake(job) => YieldedTidy(w.q, job);
      case _ => NothingNew(w.q);
    }
  }

  // ----- superseded tokens -------------------------------------------------------------------

  /** A token that was issued and no longer holds a lease. */
  predicate Superseded(w: World, token: string) {
    token in w.issued && forall id | id in w.q.leases :: w.q.leases[id].token != token
  }

  lemma StaysSuperseded(w: World, step: Step, token: string)
    requires Inv(w) && Can(w, step) && Superseded(w, token)
    ensures Superseded(Do(w, step), token)
  {
    match step {
      case Enqueue(job) => ComingKeepsLeases(w, job);
      case Recover(job) => ComingKeepsLeases(w, job);
      case Claim(_, _, _, _, _) =>
        ScanOfTidy(w.q, step);
        ClaimLeases(w.q, step);
      case _ => MoveIsTidy(w, step);
    }
    hide Moved, ScanOf, MayGo, TakenBy, Tidy, NoneNew, NoMoreWorking, Sound, Logged, Finished, Lists, Enqueued, Like;
  }

  lemma ComingKeepsLeases(w: World, job: Job)
    ensures Enqueued(w.q, job).leases == w.q.leases
  {
    hide Overtaken, Outdated, Branch;
  }

  predicate Runs(w: World, steps: seq<Step>)
    decreases |steps|
  {
    steps == [] || (Can(w, steps[0]) && Runs(Do(w, steps[0]), steps[1..]))
  }

  function After(w: World, steps: seq<Step>): World
    decreases |steps|
  {
    if steps == [] then w else After(Do(w, steps[0]), steps[1..])
  }

  /** In every reachable state a job holds at most one lease, whose token is its alone. */
  lemma {:induction false} RunKeeps(w: World, steps: seq<Step>)
    requires Inv(w) && Runs(w, steps)
    ensures Inv(After(w, steps))
    decreases |steps|
  {
    hide Inv, Can, Do;
    if steps != [] {
      StepKeeps(w, steps[0]);
      RunKeeps(Do(w, steps[0]), steps[1..]);
    }
  }

  /** A superseded token stays so for ever: nothing presented under it, for any job, changes the queue. */
  lemma {:induction false} SupersededForever(
      w: World, steps: seq<Step>, token: string, id: string, expires: nat, fate: Fate)
    requires Inv(w) && Runs(w, steps) && Superseded(w, token)
    ensures var q := After(w, steps).q;
            && Superseded(After(w, steps), token)
            && Renewed(q, id, token, expires) == q
            && Abandoned(q, id, token, fate) == (q, false)
            && Released(q, id, token) == q
            && forall runner, version :: !Held(q, runner, id, token, version)
    decreases |steps|
  {
    if steps != [] {
      hide Inv, Can, Do, Superseded;
      StepKeeps(w, steps[0]);
      StaysSuperseded(w, steps[0], token);
      SupersededForever(Do(w, steps[0]), steps[1..], token, id, expires, fate);
    }
  }

  /** A token that has lost its lease, to another claim, a reap or a give-back, is superseded. */
  lemma LostIsSuperseded(w: World, step: Step, id: string)
    requires Inv(w) && Can(w, step) && id in w.q.leases
    ensures var token, after := w.q.leases[id].token, Do(w, step);
            Owns(after.q, id, token) || Superseded(after, token)
  {
    StepKeeps(w, step);
    hide Moved;
    var token, after := w.q.leases[id].token, Do(w, step);
    IssuedIsKept(w, step, token);
    forall x | x in after.q.leases && after.q.leases[x].token == token
      ensures x == id
    {
      assert after.issued[token] == x;
    }
  }

  lemma IssuedIsKept(w: World, step: Step, token: string)
    requires Can(w, step) && token in w.issued
    ensures token in Do(w, step).issued && Do(w, step).issued[token] == w.issued[token]
  {
    hide Moved, Scan, Lists;
  }

  // ----- one place, and crashes ----------------------------------------------------------------

  /** A job is in at most one of spool and working. */
  predicate Alone(q: Queue) {
    forall id | id in q.spool :: id !in q.working
  }

  predicate NoTears(steps: seq<Step>) {
    forall i | 0 <= i < |steps| :: !steps[i].Tear?
  }

  lemma {:induction false} ReapedAlone(
      q: Queue, names: seq<string>, fates: map<string, Fate>, now: nat, max: nat, restarted: string)
    requires Tidy(q) && Alone(q)
    ensures Alone(Reaped(q, names, fates, now, max, restarted))
    decreases |names|
  {
    if names != [] {
      var next := ReapOne(q, names[0], fates, now, max, restarted);
      RequeueTidy(q, names[0], FateOf(fates, names[0]), Some(Attempts(max)));
      RequeueKeepsAlone(q, names[0], FateOf(fates, names[0]), Some(Attempts(max)));
      hide Requeue, Tidy, Alone;
      ReapedAlone(next, names[1..], fates, now, max, restarted);
    }
  }

  lemma StepKeepsAlone(w: World, step: Step)
    requires Inv(w) && Can(w, step) && Alone(w.q) && !step.Tear?
    ensures Alone(Do(w, step).q)
  {
    assert Tidy(w.q);
    match step {
      case Enqueue(job) =>
        assert !InQueue(w.q, job.id);
        EnqueuedTidy(w.q, job);
      case Recover(job) => EnqueuedTidy(w.q, job);
      case Claim(_, _, _, _, _) =>
        ScanOfTidy(w.q, step);
        ClaimMoves(w.q, step);
        ScanKeepsAlone(w.q, ScanOf(w.q, step).0, ScanOf(w.q, step).1);
      case Reap(lapsed, fates, now, max, restarted) => ReapedAlone(w.q, lapsed, fates, now, max, restarted);
      case Abandon(id, _, fate) => RequeueKeepsAlone(w.q, id, fate, None);
      case Overtake(job) => YieldedTidy(w.q, job);
      case _ =>
    }
    hide Sound, Logged, Finished, Tidy, Enqueued, Yielded, Claimed, ScanOf, Scanned, Reaped, Requeue, MayGo, TakenBy;
    hide Lists, NoneNew, FewerLeases, Like;
  }

  lemma ScanKeepsAlone(q: Queue, mid: Queue, taken: Option<string>)
    requires Alone(q) && Scanned(q, mid, taken)
    ensures Alone(mid)
  {
  }

  lemma RequeueKeepsAlone(q: Queue, id: string, fate: Fate, limit: Option<nat>)
    requires Alone(q)
    ensures Alone(Requeue(q, id, fate, limit).0)
  {
    hide Child, Again;
  }

  /** Without a crash in between, a job is never in the spool and in `working` at once. */
  lemma {:induction false} RunKeepsAlone(w: World, steps: seq<Step>)
    requires Inv(w) && Alone(w.q) && Runs(w, steps) && NoTears(steps)
    ensures Alone(After(w, steps).q)
    decreases |steps|
  {
    hide Inv, Can, Do, Alone;
    if steps != [] {
      StepKeeps(w, steps[0]);
      StepKeepsAlone(w, steps[0]);
      RunKeepsAlone(Do(w, steps[0]), steps[1..]);
    }
  }

  /**
   A crash in the middle of a requeue loses nothing: the job is in the spool for its next
   attempt. The next claim of it replaces a working copy that was left, with its lease.
   */
  lemma CrashIsRepaired(w: World, id: string, cause: Cause, crash: Crash, step: Step)
    requires Inv(w) && Can(w, Tear(id, cause, crash)) && !crash.LeaseLeft?
    requires step.Claim? && step.ending == Leased && Can(Do(w, Tear(id, cause, crash)), step)
    requires ScanOf(Moved(w.q, Tear(id, cause, crash)), step).1 == Some(id)
    ensures var torn := Do(w, Tear(id, cause, crash)).q;
            id in torn.spool && torn.spool[id] == Again(w.q.working[id])
    ensures var after := Do(Do(w, Tear(id, cause, crash)), step).q;
            && id !in after.spool && id in after.working && after.working[id] == Again(w.q.working[id])
            && id in after.leases && after.leases[id] == step.lease
  {
    var torn := Do(w, Tear(id, cause, crash));
    StepKeeps(w, Tear(id, cause, crash));
    BackAgain(w.q, id, cause, crash);
    hide Inv, Can, CanCrash, Crashed, ScanOf;
    LeasedIs(torn, step, id);
  }

  lemma BackAgain(q: Queue, id: string, cause: Cause, crash: Crash)
    requires CanCrash(q, id, cause, crash) && !crash.LeaseLeft?
    ensures id in q.working && id in Crashed(q, id, crash).spool
    ensures Crashed(q, id, crash).spool[id] == Again(q.working[id])
  {
    hide Lapsed, GoesOut, Again;
  }

  lemma LeasedIs(w: World, step: Step, id: string)
    requires Inv(w) && Can(w, step) && step.Claim? && step.ending == Leased && ScanOf(w.q, step).1 == Some(id)
    ensures var after := Do(w, step).q;
            && id in w.q.spool && id !in after.spool && id in after.working && after.working[id] == w.q.spool[id]
            && id in after.leases && after.leases[id] == step.lease
  {
    ScanOfTidy(w.q, step);
    ClaimMoves(w.q, step);
    ClaimLeases(w.q, step);
    hide Moved, ScanOf, MayGo, TakenBy, Lists, Sound, Logged, Tidy, Finished;
  }

  // ----- how a job leaves the queue ----------------------------------------------------------

  /** The scan takes this job when it comes to it. */
  predicate Takes(start: Queue, rule: Rule, verdicts: map<string, Verdict>, id: string) {
    VerdictOf(verdicts, id).Take? && id in start.spool && MayGo(start, rule, start.spool[id])
  }

  /** The scan comes to this job: no job before it in the order is taken. */
  predicate Reached(start: Queue, rule: Rule, names: seq<string>, verdicts: map<string, Verdict>, id: string)
    decreases |names|
  {
    names != [] &&
    (names[0] == id || (!Takes(start, rule, verdicts, names[0]) && Reached(start, rule, names[1..], verdicts, id)))
  }

  predicate Ends(verdict: Verdict) {
    verdict.Retire? || verdict.Unreadable?
  }

  /** Given back, it is gone from everywhere it stands. */
  predicate OutOfAll(q: Queue, id: string, fate: Fate, limit: Option<nat>)
    requires id in q.working
  {
    var job := q.working[id];
    GoesOut(job, fate, limit) && (id in q.spool ==> !fate.broken && ((Child(job) && fate.settled) || fate.cancelled))
  }

  /**
   The only ways out: giving way to a newer run, an outcome of the scan, the reaper giving up, an
   action under the current token, and a crash in the course of one.
   */
  predicate Leaves(q: Queue, step: Step, id: string) {
    match step
    case Enqueue(job) => id in q.spool && id !in q.working && Branch(job.ref) && Overtaken(q.spool[id], job)
    case Claim(rule, claims, records, _, ending) =>
      var verdicts := Judged(q.spool, rule, claims, records);
      && id in q.spool && Reached(q, rule, claims, verdicts, id)
      && (match VerdictOf(verdicts, id)
          case Hold => false
          case Retire(_) => id !in q.working
          case Unreadable => true
          case Take => MayGo(q, rule, q.spool[id]) && ending == Early)
    case Reap(lapsed, fates, now, max, restarted) =>
      && id in q.working && id in lapsed && Lapsed(q, id, now, restarted)
      && OutOfAll(q, id, FateOf(fates, id), Some(Attempts(max)))
    case Abandon(i, token, fate) => i == id && id in q.working && Owns(q, id, token) && OutOfAll(q, id, fate, None)
    case Release(i, token) => i == id && id in q.working && Owns(q, id, token) && id !in q.spool
    case Tear(i, _, crash) => i == id && id in q.working && crash.LeaseLeft? && id !in q.spool
    case Recover(job) => id in q.spool && id !in q.working && Branch(job.ref) && Overtaken(q.spool[id], job)
    case Settle(i) => i == id && id in q.spool && id !in q.working && Child(q.spool[id])
    case Overtake(job) =>
      && id in q.spool && id !in q.working && Branch(job.ref)
      && (Overtaken(q.spool[id], job) || (id == job.id && Outdated(q, job)))
    case _ => false
  }

  lemma {:induction false} NotReached(
      start: Queue, rule: Rule, names: seq<string>, verdicts: map<string, Verdict>, id: string)
    requires id !in names
    ensures !Reached(start, rule, names, verdicts, id)
    decreases |names|
  {
    hide Takes;
    if names != [] {
      NotReached(start, rule, names[1..], verdicts, id);
    }
  }

  /** What the scan does to one job. */
  lemma {:induction false} ScanLeaves(
      q: Queue, start: Queue, rule: Rule, names: seq<string>, verdicts: map<string, Verdict>, id: string)
    requires Apart(names) && AsStarted(q, start, names)
    ensures var (after, taken) := Scan(q, start, rule, names, verdicts);
            && (id in q.spool && !Ended(start, rule, names, verdicts, id) && taken != Some(id) ==> id in after.spool)
            && (id in q.spool && Ended(start, rule, names, verdicts, id) ==> id !in after.spool && taken != Some(id))
            && (id !in q.spool ==> id !in after.spool && taken != Some(id))
            && (taken == Some(id) <==> Reached(start, rule, names, verdicts, id) && Takes(start, rule, verdicts, id))
    decreases |names|
  {
    hide MayGo;
    if names != [] {
      var first, rest := names[0], names[1..];
      AsStartedOn(q, start, names);
      NotReached(start, rule, rest, verdicts, first);
      assert first in names;
      match VerdictOf(verdicts, first) {
        case Retire(_) => ScanLeaves(q.(spool := Drop(q.spool, first)), start, rule, rest, verdicts, id);
        case Unreadable =>
          AsideStarted(q, start, names);
          ScanLeaves(SetAside(q, first), start, rule, rest, verdicts, id);
        case _ => ScanLeaves(q, start, rule, rest, verdicts, id);
      }
    }
  }

  lemma AsideStarted(q: Queue, start: Queue, names: seq<string>)
    requires names != [] && Apart(names) && AsStarted(q, start, names)
    ensures AsStarted(SetAside(q, names[0]), start, names[1..])
  {
    AsStartedOn(q, start, names);
  }

  /** A working copy goes only with a spool copy that cannot be read. */
  lemma {:induction false} ScanLeavesWork(
      q: Queue, start: Queue, rule: Rule, names: seq<string>, verdicts: map<string, Verdict>, id: string)
    requires Apart(names) && AsStarted(q, start, names) && id in q.working
    ensures id in Scan(q, start, rule, names, verdicts).0.working <==>
            !(id in q.spool && Reached(start, rule, names, verdicts, id) && VerdictOf(verdicts, id).Unreadable?)
    decreases |names|
  {
    hide MayGo;
    if names != [] {
      var first, rest := names[0], names[1..];
      AsStartedOn(q, start, names);
      NotReached(start, rule, rest, verdicts, first);
      assert first in names;
      match VerdictOf(verdicts, first) {
        case Retire(_) => ScanLeavesWork(q.(spool := Drop(q.spool, first)), start, rule, rest, verdicts, id);
        case Unreadable =>
          AsideStarted(q, start, names);
          if first == id && id in q.spool {
            NotBack(SetAside(q, id), start, rule, rest, verdicts, id);
          } else {
            ScanLeavesWork(SetAside(q, first), start, rule, rest, verdicts, id);
          }
        case _ => ScanLeavesWork(q, start, rule, rest, verdicts, id);
      }
    }
  }

  lemma {:induction false} NotBack(
      q: Queue, start: Queue, rule: Rule, names: seq<string>, verdicts: map<string, Verdict>, id: string)
    requires id !in q.spool && id !in q.working
    ensures id !in Scan(q, start, rule, names, verdicts).0.working
    decreases |names|
  {
    hide MayGo;
    if names != [] {
      NotBack(q, start, rule, names[1..], verdicts, id);
      NotBack(q.(spool := Drop(q.spool, names[0])), start, rule, names[1..], verdicts, id);
      NotBack(SetAside(q, names[0]), start, rule, names[1..], verdicts, id);
    }
  }

  /** The scan comes to this job and ends it in the spool. */
  predicate Ended(start: Queue, rule: Rule, names: seq<string>, verdicts: map<string, Verdict>, id: string) {
    Reached(start, rule, names, verdicts, id) && Ends(VerdictOf(verdicts, id))
  }

  lemma ClaimLeaves(q: Queue, step: Step, id: string)
    requires Tidy(q) && step.Claim? && Lists(step.claims, q.spool) && InQueue(q, id)
    ensures InQueue(Moved(q, step), id) <==> !Leaves(q, step, id)
  {
    var verdicts := Judged(q.spool, step.rule, step.claims, step.records);
    InOrderIsApart(step.claims);
    ScanLeaves(q, q, step.rule, step.claims, verdicts, id);
    ScanTidy(q, q, step.rule, step.claims, verdicts);
    if id in q.working {
      ScanLeavesWork(q, q, step.rule, step.claims, verdicts, id);
    }
    ClaimMoves(q, step);
    hide Scan, ScanOf, Reached, MayGo, Lists, Tidy, InOrder, Judged, Moved;
    assert ScanOf(q, step) == Scan(q, q, step.rule, step.claims, verdicts) by {
      ScanIs(q, step);
    }
  }

  lemma ScanIs(q: Queue, step: Step)
    requires step.Claim?
    ensures ScanOf(q, step) ==
            Scan(q, q, step.rule, step.claims, Judged(q.spool, step.rule, step.claims, step.records))
  {
  }

  /** Where a claim leaves the jobs, after its scan. */
  lemma ClaimMoves(q: Queue, step: Step)
    requires step.Claim?
    ensures var (mid, taken) := ScanOf(q, step);
            && Moved(q, step).spool == mid.spool
            && Moved(q, step).working ==
               if taken.Some? && step.ending == Early then Drop(mid.working, taken.value) else mid.working
  {
    hide Scan, Judged;
    var (mid, taken) := ScanOf(q, step);
    if taken.Some? && step.ending == Early {
      assert Moved(q, step) == Queue(mid.spool, Drop(mid.working, taken.value), Drop(mid.leases, taken.value));
    }
  }

  lemma {:induction false} ReapLeaves(
      q: Queue, names: seq<string>, fates: map<string, Fate>, now: nat, max: nat, restarted: string, id: string)
    requires Tidy(q) && InQueue(q, id) && Apart(names)
    ensures InQueue(Reaped(q, names, fates, now, max, restarted), id) <==>
            !(id in q.working && id in names && Lapsed(q, id, now, restarted) &&
              OutOfAll(q, id, FateOf(fates, id), Some(Attempts(max))))
    decreases |names|
  {
    if names != [] {
      var first, rest := names[0], names[1..];
      var next := ReapOne(q, first, fates, now, max, restarted);
      RequeueTidy(q, first, FateOf(fates, first), Some(Attempts(max)));
      RequeueIsLocal(q, first, FateOf(fates, first), Some(Attempts(max)));
      assert names == [first] + rest;
      RequeueLeaves(q, first, FateOf(fates, first), Some(Attempts(max)), id);
      hide Tidy, Requeue, OutOfAll, NoneNew, NoMoreWorking, FewerLeases;
      if first == id {
        ReapedLater(next, rest, fates, now, max, restarted, id);
      } else {
        assert InQueue(next, id) && (id in next.working <==> id in q.working);
        SameOut(q, next, id, FateOf(fates, id), Some(Attempts(max)));
        ReapLeaves(next, rest, fates, now, max, restarted, id);
      }
    }
  }

  lemma SameOut(q: Queue, next: Queue, id: string, fate: Fate, limit: Option<nat>)
    requires (id in next.spool <==> id in q.spool) && (id in next.working <==> id in q.working)
    requires id in q.working ==> next.working[id] == q.working[id]
    ensures id in q.working ==> (OutOfAll(next, id, fate, limit) <==> OutOfAll(q, id, fate, limit))
  {
    hide GoesOut;
  }

  /** A name that is not in the list is not touched. */
  lemma {:induction false} ReapedLater(
      q: Queue, names: seq<string>, fates: map<string, Fate>, now: nat, max: nat, restarted: string, id: string)
    requires Tidy(q) && id !in names
    ensures var after := Reaped(q, names, fates, now, max, restarted);
            (id in after.spool <==> id in q.spool) && (id in after.working <==> id in q.working)
    ensures id in q.spool ==> Reaped(q, names, fates, now, max, restarted).spool[id] == q.spool[id]
    ensures id in q.working ==> Reaped(q, names, fates, now, max, restarted).working[id] == q.working[id]
    decreases |names|
  {
    if names != [] {
      RequeueTidy(q, names[0], FateOf(fates, names[0]), Some(Attempts(max)));
      RequeueIsLocal(q, names[0], FateOf(fates, names[0]), Some(Attempts(max)));
      hide Tidy, Requeue;
      ReapedLater(ReapOne(q, names[0], fates, now, max, restarted), names[1..], fates, now, max, restarted, id);
    }
  }

  lemma YieldLeaves(q: Queue, job: Job, id: string)
    requires InQueue(q, id)
    ensures InQueue(Yielded(q, job), id) <==>
            !(id in q.spool && id !in q.working && Branch(job.ref) &&
              (Overtaken(q.spool[id], job) || (id == job.id && Outdated(q, job))))
  {
    hide Overtaken, Outdated, Branch;
  }

  lemma EnqueueLeaves(q: Queue, job: Job, id: string)
    requires InQueue(q, id) && id != job.id
    ensures InQueue(Enqueued(q, job), id) <==>
            !(id in q.spool && id !in q.working && Branch(job.ref) && Overtaken(q.spool[id], job))
  {
    YieldLeaves(q.(spool := q.spool[job.id := job]), job, id);
    hide Yielded, Overtaken, Outdated, Branch;
  }

  /** A queued job is gone after a step exactly when the step is one of those ways out. */
  lemma LeavesOnlySo(w: World, step: Step, id: string)
    requires Inv(w) && Can(w, step) && InQueue(w.q, id)
    ensures InQueue(Do(w, step).q, id) <==> !Leaves(w.q, step, id)
  {
    assert Tidy(w.q);
    InKnown(w, id);
    match step {
      case Claim(_, _, _, _, _) => ClaimLeaves(w.q, step, id);
      case Enqueue(_) => ComingLeaves(w, step, id);
      case Recover(_) => ComingLeaves(w, step, id);
      case Overtake(_) => ComingLeaves(w, step, id);
      case _ => GoingLeaves(w.q, step, id);
    }
    hide Sound, Logged, Finished, Tidy, Moved, Leaves, InQueue, Lists;
  }

  lemma ComingLeaves(w: World, step: Step, id: string)
    requires Can(w, step) && (step.Enqueue? || step.Recover? || step.Overtake?) && InQueue(w.q, id) && id in w.known
    ensures InQueue(Moved(w.q, step), id) <==> !Leaves(w.q, step, id)
  {
    hide Enqueued, Yielded, Overtaken, Outdated, Branch, Like;
    match step {
      case Enqueue(job) => EnqueueLeaves(w.q, job, id);
      case Recover(job) => EnqueueLeaves(w.q, job, id);
      case Overtake(job) => YieldLeaves(w.q, job, id);
    }
  }

  lemma GoingLeaves(q: Queue, step: Step, id: string)
    requires Tidy(q) && InQueue(q, id) && !step.Claim? && !step.Enqueue? && !step.Recover? && !step.Overtake?
    requires step.Reap? ==> Apart(step.lapsed)
    requires step.Tear? ==> step.id in q.working
    ensures InQueue(Moved(q, step), id) <==> !Leaves(q, step, id)
  {
    match step {
      case Reap(lapsed, fates, now, max, restarted) => ReapLeaves(q, lapsed, fates, now, max, restarted, id);
      case Abandon(i, token, fate) => RequeueLeaves(q, i, fate, None, id);
      case Release(i, token) => ReleaseLeaves(q, i, token, id);
      case Tear(i, cause, crash) => CrashLeaves(q, i, crash, id);
      case _ =>
    }
    hide Tidy, Reaped, Requeue, Released, Crashed, OutOfAll, Lapsed;
  }

  lemma RequeueLeaves(q: Queue, i: string, fate: Fate, limit: Option<nat>, id: string)
    requires Tidy(q) && InQueue(q, id)
    ensures InQueue(Requeue(q, i, fate, limit).0, id) <==> !(i == id && id in q.working && OutOfAll(q, id, fate, limit))
  {
    hide Child, Again;
  }

  lemma ReleaseLeaves(q: Queue, i: string, token: string, id: string)
    requires InQueue(q, id)
    ensures InQueue(Released(q, i, token), id) <==>
            !(i == id && id in q.working && Owns(q, id, token) && id !in q.spool)
  {
  }

  lemma CrashLeaves(q: Queue, i: string, crash: Crash, id: string)
    requires InQueue(q, id) && i in q.working
    ensures InQueue(Crashed(q, i, crash), id) <==> !(i == id && crash.LeaseLeft? && id !in q.spool)
  {
  }

  lemma InKnown(w: World, id: string)
    requires Inv(w) && InQueue(w.q, id)
    ensures id in w.known
  {
  }
}
