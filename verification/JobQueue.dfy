/**
 The job queue that several runners share: a job waits in the spool, or is claimed in
 `working` under a lease whose random token every later request must present. Each of the
 store's operations holds the spool lock; a gateway request takes it once for each.
 */
module JobQueue {
  import opened Wrappers
  import opened Text
  import opened Records

  /** A job file whose attempt is above this is refused when it is read. */
  const MAX_ATTEMPT := 1000

  /**
   Of a job, what its way through the queue depends on. A child job names its parent run and the
   sibling runs it needs; a job that is `locked` carries a dependency lock.
   */
  datatype Job = Job(
    id: string, attempt: nat, project: string, ref: string, parent: string, autoCancel: bool,
    commit: string, needs: seq<string>, runsOn: seq<string>, locked: bool)

  datatype Lease = Lease(runner: string, token: string, expires: nat)

  datatype Queue = Queue(spool: map<string, Job>, working: map<string, Job>, leases: map<string, Lease>)

  /** What the scan for a claim makes of a queued job: passed over, ended in the spool, set aside, or eligible. */
  datatype Verdict = Hold | Retire(status: RunStatus) | Unreadable | Take

  /** What is known of a claimed job when it is given back: its file, its child run's record, a cancel request. */
  datatype Fate = Fate(broken: bool, settled: bool, cancelled: bool)

  datatype Outcome = Requeued | Exhausted | CancelledOut | Gone

  /** Runs of one project and ref compete; the jobs of one workflow are a group. */
  datatype Key = Key(project: string, ref: string)

  datatype Parent = Parent(key: Key, id: string)

  datatype RunId = RunId(project: string, id: string)

  /** A recorded run: whose it is, and how far it has come. */
  datatype Past = Past(parent: string, commit: string, ref: string, status: RunStatus)

  /**
   Who claims and how, and what the claim finds on disk besides the jobs and the run records: how long
   a job file has waited, which cannot be read in the spool and which in `working` (`blind`), which runs
   are to be cancelled, and the parents whose results are not published yet.
   */
  datatype Rule = Rule(
    onePerRef: bool, runner: string, labels: seq<string>, version: nat, minAge: nat, ages: map<string, int>,
    unreadable: set<string>, blind: set<string>, cancelled: set<RunId>, unpublished: set<Parent>)

  predicate Child(job: Job) {
    job.parent != ""
  }

  /** What may be queued: only a child needs others. */
  predicate Proper(job: Job) {
    Child(job) || job.needs == []
  }

  function Group(job: Job): string {
    if Child(job) then job.parent else job.id
  }

  function KeyOf(job: Job): Key {
    Key(job.project, job.ref)
  }

  function Drop<V>(m: map<string, V>, id: string): map<string, V> {
    m - {id}
  }

  // ----- queueing a job -------------------------------------------------------------------------

  predicate Branch(ref: string) {
    |ref| >= 11 && ref[..11] == "refs/heads/"
  }

  predicate Competes(a: Job, b: Job) {
    KeyOf(a) == KeyOf(b) && a.id != b.id && Group(a) != Group(b)
  }

  /** A queued job that gives way to a newer request. */
  predicate Overtaken(other: Job, request: Job) {
    && Competes(other, request) && other.attempt <= MAX_ATTEMPT
    && !Less(Group(request), Group(other)) && request.autoCancel
  }

  /** A job that is newer than the request that came late. */
  predicate Outdates(other: Job, request: Job) {
    && Competes(other, request) && other.attempt <= MAX_ATTEMPT
    && Less(Group(request), Group(other)) && other.autoCancel
  }

  predicate Outdated(q: Queue, request: Job) {
    || (exists id | id in q.spool :: Outdates(q.spool[id], request))
    || (exists id | id in q.working :: Outdates(q.working[id], request))
  }

  /** On a branch older runs give way to a job, or the job does if it is the older one. */
  function Yielded(q: Queue, job: Job): Queue {
    if !Branch(job.ref) then q
    else
      var left := map id | id in q.spool && !Overtaken(q.spool[id], job) :: q.spool[id];
      q.(spool := if Outdated(q, job) then Drop(left, job.id) else left)
  }

  /** The queue with a job put in. */
  function Enqueued(q: Queue, job: Job): Queue {
    Yielded(q.(spool := q.spool[job.id := job]), job)
  }

  // ----- giving a job back ------------------------------------------------------------------------

  /** Whether a claimed job that is given back leaves the queue instead of going back to the spool. */
  predicate GoesOut(job: Job, fate: Fate, limit: Option<nat>) {
    fate.broken || (Child(job) && fate.settled) || fate.cancelled || (limit.Some? && job.attempt >= limit.value)
  }

  function Again(job: Job): Job {
    job.(attempt := job.attempt + 1)
  }

  function Requeue(q: Queue, id: string, fate: Fate, limit: Option<nat>): (Queue, Outcome) {
    if id !in q.working || fate.broken then (Queue(q.spool, Drop(q.working, id), Drop(q.leases, id)), Gone)
    else
      var job := q.working[id];
      if Child(job) && fate.settled then (Queue(Drop(q.spool, id), Drop(q.working, id), Drop(q.leases, id)), Gone)
      else if fate.cancelled then (Queue(Drop(q.spool, id), Drop(q.working, id), Drop(q.leases, id)), CancelledOut)
      else if limit.Some? && job.attempt >= limit.value then
        (Queue(q.spool, Drop(q.working, id), Drop(q.leases, id)), Exhausted)
      else (Queue(q.spool[id := Again(job)], Drop(q.working, id), Drop(q.leases, id)), Requeued)
  }

  predicate Lapsed(q: Queue, id: string, now: nat, restarted: string) {
    id !in q.leases || q.leases[id].expires <= now || (restarted != "" && q.leases[id].runner == restarted)
  }

  function FateOf(fates: map<string, Fate>, id: string): Fate {
    if id in fates then fates[id] else Fate(false, false, false)
  }

  function Attempts(max: nat): nat {
    if max == 0 then 1 else max
  }

  function ReapOne(q: Queue, id: string, fates: map<string, Fate>, now: nat, max: nat, restarted: string): Queue {
    if Lapsed(q, id, now, restarted) then Requeue(q, id, FateOf(fates, id), Some(Attempts(max))).0 else q
  }

  function Reaped(
      q: Queue, names: seq<string>, fates: map<string, Fate>, now: nat, max: nat, restarted: string): Queue
    decreases |names|
  {
    if names == [] then q
    else Reaped(ReapOne(q, names[0], fates, now, max, restarted), names[1..], fates, now, max, restarted)
  }

  // ----- claiming a job ---------------------------------------------------------------------------

  predicate Readable(rule: Rule, job: Job) {
    job.id !in rule.unreadable && job.attempt <= MAX_ATTEMPT
  }

  /** A job without labels runs on any ordinary runner, others only where every label is offered. */
  predicate Matches(rule: Rule, job: Job) {
    && (job.runsOn == [] ==> "windows" !in rule.labels && rule.runner != "macos-vm" && "macos-vm" !in rule.labels)
    && forall i | 0 <= i < |job.runsOn| :: job.runsOn[i] == rule.runner || job.runsOn[i] in rule.labels
  }

  predicate Young(rule: Rule, id: string) {
    rule.minAge > 0 && id in rule.ages && rule.ages[id] < rule.minAge
  }

  /** A needed run that is another's, or ended without success. */
  predicate Fails(records: map<RunId, Past>, job: Job, need: string) {
    RunId(job.project, need) in records &&
    var past := records[RunId(job.project, need)];
    || past.parent != job.parent || past.commit != job.commit || past.ref != job.ref
    || (!Active(past.status) && past.status != Succeeded)
  }

  /** A needed run that is not recorded, or has not ended. */
  predicate Lacks(records: map<RunId, Past>, job: Job, need: string) {
    RunId(job.project, need) !in records || Active(records[RunId(job.project, need)].status)
  }

  /** The source's checks of a queued job in their order, but for the rule of one run per ref. */
  function Judge(rule: Rule, records: map<RunId, Past>, job: Job): Verdict {
    if !Readable(rule, job) then Unreadable
    else if (Child(job) || job.locked) && RunId(job.project, job.id) in rule.cancelled then Retire(Cancelled)
    else if job.locked then Hold
    else if exists i | 0 <= i < |job.needs| :: Fails(records, job, job.needs[i]) then Retire(Skipped)
    else if exists i | 0 <= i < |job.needs| :: Lacks(records, job, job.needs[i]) then Hold
    else if !Matches(rule, job) || (Child(job) && rule.version < 2) || Young(rule, job.id) then Hold
    else Take
  }

  /** A job that is ended in the spool leaves a record of its own. */
  function Noted(records: map<RunId, Past>, job: Job, verdict: Verdict): map<RunId, Past> {
    if verdict.Retire?
    then records[RunId(job.project, job.id) := Past(job.parent, job.commit, job.ref, verdict.status)]
    else records
  }

  /** What the scan makes of each job when it comes to it: a job ended before may be one that is needed. */
  function Judged(
      spool: map<string, Job>, rule: Rule, names: seq<string>, records: map<RunId, Past>): map<string, Verdict>
    decreases |names|
  {
    if names == [] then map[]
    else if names[0] !in spool then Judged(spool, rule, names[1..], records)
    else
      var job := spool[names[0]];
      var verdict := Judge(rule, records, job);
      Judged(spool, rule, names[1..], Noted(records, job, verdict))[names[0] := verdict]
  }

  /** The run records as a claim leaves them. */
  function Recorded(q: Queue, rule: Rule, names: seq<string>, records: map<RunId, Past>): map<RunId, Past>
    decreases |names|
  {
    if names == [] then records
    else if names[0] !in q.spool then Recorded(q, rule, names[1..], records)
    else
      var job := q.spool[names[0]];
      var verdict := Judge(rule, records, job);
      if verdict.Take? && MayGo(q, rule, job) then records
      else Recorded(q, rule, names[1..], Noted(records, job, verdict))
  }

  function VerdictOf(verdicts: map<string, Verdict>, id: string): Verdict {
    if id in verdicts then verdicts[id] else Hold
  }

  /** The groups that a claim sees at work on a project and ref. */
  function Busy(q: Queue, rule: Rule, key: Key): set<string> {
    set id | id in q.working && id !in rule.blind && KeyOf(q.working[id]) == key :: Group(q.working[id])
  }

  /** The workflows that still own their place there: with a child queued, or not published yet. */
  function Owners(q: Queue, rule: Rule, key: Key): set<string> {
    (set id | id in q.spool && Child(q.spool[id]) && Readable(rule, q.spool[id]) &&
              KeyOf(q.spool[id]) == key :: q.spool[id].parent)
    + (set p | p in rule.unpublished && p.key == key :: p.id)
  }

  /** The rule of one run per ref, judged on the queue as the scan began. */
  predicate MayGo(q: Queue, rule: Rule, job: Job) {
    rule.onePerRef ==>
      && Busy(q, rule, KeyOf(job)) <= {Group(job)}
      && forall g | g in Owners(q, rule, KeyOf(job)) :: !Less(g, Group(job))
  }

  /** A file that cannot be read replaces a working copy of its name, and goes where nothing reads it. */
  function SetAside(q: Queue, id: string): Queue {
    if id in q.spool then Queue(Drop(q.spool, id), Drop(q.working, id), q.leases) else q
  }

  /** The scan of the spool in the order of the names, up to the first job taken. */
  function Scan(
      q: Queue, start: Queue, rule: Rule, names: seq<string>, verdicts: map<string, Verdict>): (Queue, Option<string>)
    decreases |names|
  {
    if names == [] then (q, None)
    else
      var id := names[0];
      match VerdictOf(verdicts, id)
      case Hold => Scan(q, start, rule, names[1..], verdicts)
      case Retire(_) => Scan(q.(spool := Drop(q.spool, id)), start, rule, names[1..], verdicts)
      case Unreadable => Scan(SetAside(q, id), start, rule, names[1..], verdicts)
      case Take =>
        if id in q.spool && MayGo(start, rule, q.spool[id])
        then (Queue(Drop(q.spool, id), q.working[id := q.spool[id]], q.leases), Some(id))
        else Scan(q, start, rule, names[1..], verdicts)
  }

  /** How a claim goes on: leased, interrupted before the lease is stored, or ended at once without running. */
  datatype Ending = Leased | Torn | Early

  function Claimed(
      q: Queue, rule: Rule, names: seq<string>, records: map<RunId, Past>, lease: Lease, ending: Ending): Queue
  {
    var (after, taken) := Scan(q, q, rule, names, Judged(q.spool, rule, names, records));
    match taken
    case None => after
    case Some(id) =>
      match ending
      case Leased => after.(leases := after.leases[id := lease])
      case Torn => after
      case Early => Queue(after.spool, Drop(after.working, id), Drop(after.leases, id))
  }

  // ----- under a token ----------------------------------------------------------------------------

  predicate Owns(q: Queue, id: string, token: string) {
    id in q.leases && q.leases[id].token == token
  }

  function Renewed(q: Queue, id: string, token: string, expires: nat): Queue {
    if id in q.working && Owns(q, id, token) then q.(leases := q.leases[id := q.leases[id].(expires := expires)]) else q
  }

  function Released(q: Queue, id: string, token: string): Queue {
    if Owns(q, id, token) then Queue(q.spool, Drop(q.working, id), Drop(q.leases, id)) else q
  }

  function Abandoned(q: Queue, id: string, token: string, fate: Fate): (Queue, bool) {
    if Owns(q, id, token) then
      var (after, outcome) := Requeue(q, id, fate, None);
      (after, outcome == Requeued)
    else (q, false)
  }

  /** The claim behind a runner's request: its own, under its token, and not a child job it cannot handle. */
  predicate Held(q: Queue, runner: string, id: string, token: string, version: nat) {
    && id in q.working && Owns(q, id, token) && q.leases[id].runner == runner
    && (Child(q.working[id]) ==> version >= 2)
  }

  // ----- crashes ----------------------------------------------------------------------------------

  /** Where a process died while it took a job out of `working`: files are written and removed one by one. */
  datatype Crash = InSpool | OutOfWorking | LeaseLeft

  /** What made it take the job out. */
  datatype Cause =
    | ByReaper(fate: Fate, now: nat, max: nat, restarted: string)
    | ByRunner(token: string, fate: Fate)
    | ByRelease(token: string)

  /** The job would go back to the spool, or out, for this cause. */
  predicate Caused(q: Queue, id: string, cause: Cause, back: bool) {
    id in q.working &&
    match cause
    case ByReaper(fate, now, max, restarted) =>
      Lapsed(q, id, now, restarted) && (back <==> !GoesOut(q.working[id], fate, Some(Attempts(max))))
    case ByRunner(token, fate) => Owns(q, id, token) && (back <==> !GoesOut(q.working[id], fate, None))
    case ByRelease(token) => Owns(q, id, token) && !back
  }

  predicate CanCrash(q: Queue, id: string, cause: Cause, crash: Crash) {
    Caused(q, id, cause, !crash.LeaseLeft?)
  }

  /** What is left: the job queued twice, or out of `working` with its lease still there. */
  function Crashed(q: Queue, id: string, crash: Crash): Queue
    requires id in q.working
  {
    match crash
    case InSpool => q.(spool := q.spool[id := Again(q.working[id])])
    case OutOfWorking => q.(spool := q.spool[id := Again(q.working[id])], working := Drop(q.working, id))
    case LeaseLeft => q.(working := Drop(q.working, id))
  }

  // ----- the store's methods -----------------------------------------------------------------------

  /** The names of a directory in order, each once. */
  predicate Lists<V>(names: seq<string>, m: map<string, V>) {
    && (forall i | 0 <= i < |names| :: names[i] in m)
    && (forall id | id in m :: id in names)
    && InOrder(names)
  }

  /** Passes every check but that of its age. */
  predicate PassesButAge(rule: Rule, records: map<RunId, Past>, job: Job) {
    Judge(rule.(minAge := 0), records, job).Take?
  }

  /** Held back by nothing but its age. */
  predicate OnlyYoung(q: Queue, rule: Rule, records: map<RunId, Past>, job: Job) {
    PassesButAge(rule, records, job) && Young(rule, job.id) && MayGo(q, rule, job)
  }

  function AgesIn(rule: Rule, id: string): nat
    requires Young(rule, id)
  {
    rule.minAge - rule.ages[id]
  }

  function Sooner(found: Option<nat>, n: nat): Option<nat> {
    if found.Some? && found.value <= n then found else Some(n)
  }

  /** How long until the earliest job that the scan comes to and that only its age holds back is old enough. */
  function Delay(
      q: Queue, rule: Rule, names: seq<string>, records: map<RunId, Past>, found: Option<nat>): Option<nat>
    decreases |names|
  {
    if names == [] then found
    else if names[0] !in q.spool then Delay(q, rule, names[1..], records, found)
    else
      var job := q.spool[names[0]];
      var verdict := Judge(rule, records, job);
      if verdict.Take? && MayGo(q, rule, job) then found
      else
        var sooner := if OnlyYoung(q, rule, records, job) then Sooner(found, AgesIn(rule, job.id)) else found;
        Delay(q, rule, names[1..], Noted(records, job, verdict), sooner)
  }

  predicate Apart(names: seq<string>) {
    forall i, j | 0 <= i < j < |names| :: names[i] != names[j]
  }

  lemma InOrderIsApart(names: seq<string>)
    requires InOrder(names)
    ensures Apart(names)
  {
    hide Less;
    forall i, j | 0 <= i < j < |names|
      ensures names[i] != names[j]
    {
      LessIrreflexive(names[i]);
    }
  }

  /** The queue the scan is at still has the names ahead as they were. */
  predicate AsStarted(q: Queue, start: Queue, names: seq<string>) {
    forall n | n in names :: (n in q.spool <==> n in start.spool) && (n in q.spool ==> q.spool[n] == start.spool[n])
  }

  lemma AsStartedOn(q: Queue, start: Queue, names: seq<string>)
    requires names != [] && Apart(names) && AsStarted(q, start, names)
    ensures Apart(names[1..]) && names[0] !in names[1..] && AsStarted(q, start, names[1..])
    ensures AsStarted(q.(spool := Drop(q.spool, names[0])), start, names[1..])
  {
    assert forall n | n in names[1..] :: n in names;
  }

  /** Two judgements agree on these names. */
  predicate SameVerdicts(a: map<string, Verdict>, b: map<string, Verdict>, names: seq<string>) {
    forall n | n in names :: VerdictOf(a, n) == VerdictOf(b, n)
  }

  /** The queue and the records when the scan goes on behind the first name without taking it. */
  function Passed(q: Queue, rule: Rule, id: string, records: map<RunId, Past>): (Queue, map<RunId, Past>) {
    if id !in q.spool then (q, records)
    else
      var verdict := Judge(rule, records, q.spool[id]);
      (if verdict.Retire? then q.(spool := Drop(q.spool, id)) else if verdict.Unreadable? then SetAside(q, id) else q,
       Noted(records, q.spool[id], verdict))
  }

  lemma PassedNotes(q: Queue, rule: Rule, id: string, records: map<RunId, Past>)
    ensures Passed(q, rule, id, records).1 ==
            if id in q.spool then Noted(records, q.spool[id], Judge(rule, records, q.spool[id])) else records
  {
    hide Judge, Noted;
  }

  /** The scan is at `q` with `names` ahead, judging by these verdicts. */
  predicate Scanning(
      q: Queue, start: Queue, rule: Rule, names: seq<string>, records: map<RunId, Past>, verdicts: map<string, Verdict>)
  {
    && Apart(names) && AsStarted(q, start, names)
    && SameVerdicts(verdicts, Judged(start.spool, rule, names, records), names)
  }

  lemma NextVerdict(
      q: Queue, start: Queue, rule: Rule, names: seq<string>, records: map<RunId, Past>, verdicts: map<string, Verdict>)
    requires names != [] && Scanning(q, start, rule, names, records, verdicts)
    ensures VerdictOf(verdicts, names[0]) ==
            if names[0] in q.spool then Judge(rule, records, q.spool[names[0]]) else Hold
    ensures var (next, noted) := Passed(q, rule, names[0], records);
            Scanning(next, start, rule, names[1..], noted, verdicts)
  {
    AsStartedOn(q, start, names);
    hide AsStarted, Judge, Apart, Noted;
    var (next, noted) := Passed(q, rule, names[0], records);
    assert names[0] in names;
    assert names[0] in q.spool <==> names[0] in start.spool by {
      AtStart(q, start, names, names[0]);
    }
    NotJudged(start.spool, rule, names[1..], noted, names[0]);
    AtStart(q, start, names, names[0]);
    forall n | n in names[1..]
      ensures VerdictOf(verdicts, n) == VerdictOf(Judged(start.spool, rule, names[1..], noted), n)
    {
      assert n in names && n != names[0];
    }
  }

  lemma AtStart(q: Queue, start: Queue, names: seq<string>, n: string)
    requires AsStarted(q, start, names) && n in names
    ensures (n in q.spool <==> n in start.spool) && (n in q.spool ==> q.spool[n] == start.spool[n])
  {
  }

  lemma {:induction false} NotJudged(
      spool: map<string, Job>, rule: Rule, names: seq<string>, records: map<RunId, Past>, id: string)
    requires id !in names
    ensures id !in Judged(spool, rule, names, records)
    decreases |names|
  {
    hide Judge, Noted;
    if names != [] {
      NotJudged(spool, rule, names[1..], records, id);
      if names[0] in spool {
        var job := spool[names[0]];
        NotJudged(spool, rule, names[1..], Noted(records, job, Judge(rule, records, job)), id);
      }
    }
  }

  /** The scan takes the first job, or goes on behind it. */
  lemma NextScan(
      q: Queue, start: Queue, rule: Rule, names: seq<string>, records: map<RunId, Past>, verdicts: map<string, Verdict>)
    requires names != [] && Scanning(q, start, rule, names, records, verdicts)
    ensures var id := names[0];
            if id in q.spool && Judge(rule, records, q.spool[id]).Take? && MayGo(start, rule, q.spool[id]) then
              && Scan(q, start, rule, names, verdicts)
                 == (Queue(Drop(q.spool, id), q.working[id := q.spool[id]], q.leases), Some(id))
              && Recorded(start, rule, names, records) == records
            else
              var (next, noted) := Passed(q, rule, id, records);
              && Scan(q, start, rule, names, verdicts) == Scan(next, start, rule, names[1..], verdicts)
              && Recorded(start, rule, names, records) == Recorded(start, rule, names[1..], noted)
  {
    NextVerdict(q, start, rule, names, records, verdicts);
    AtStart(q, start, names, names[0]);
    hide Judge, MayGo, AsStarted, SameVerdicts, Apart, Judged, VerdictOf;
  }

  /** The scan of all names has come to `q` and `recorded`, with the names from `i` on ahead. */
  predicate Underway(
      start: Queue, rule: Rule, names: seq<string>, records: map<RunId, Past>, i: nat, q: Queue,
      recorded: map<RunId, Past>)
    requires i <= |names|
  {
    var verdicts := Judged(start.spool, rule, names, records);
    && Scanning(q, start, rule, names[i..], recorded, verdicts)
    && Recorded(start, rule, names, records) == Recorded(start, rule, names[i..], recorded)
    && Scan(start, start, rule, names, verdicts) == Scan(q, start, rule, names[i..], verdicts)
  }

  lemma ScanBegins(start: Queue, rule: Rule, names: seq<string>, records: map<RunId, Past>)
    requires InOrder(names)
    ensures Underway(start, rule, names, records, 0, start, records)
  {
    InOrderIsApart(names);
    assert names[0..] == names;
  }

  lemma ScanGoesOn(
      start: Queue, rule: Rule, names: seq<string>, records: map<RunId, Past>, i: nat, q: Queue,
      recorded: map<RunId, Past>)
    requires i < |names| && Underway(start, rule, names, records, i, q, recorded)
    ensures var id := names[i];
            if id in q.spool && Judge(rule, recorded, q.spool[id]).Take? && MayGo(start, rule, q.spool[id]) then
              && Scan(start, start, rule, names, Judged(start.spool, rule, names, records))
                 == (Queue(Drop(q.spool, id), q.working[id := q.spool[id]], q.leases), Some(id))
              && Recorded(start, rule, names, records) == recorded
            else
              var (next, noted) := Passed(q, rule, id, recorded);
              Underway(start, rule, names, records, i + 1, next, noted)
  {
    var verdicts := Judged(start.spool, rule, names, records);
    assert names[i..][0] == names[i] && names[i..][1..] == names[i + 1..];
    NextVerdict(q, start, rule, names[i..], recorded, verdicts);
    NextScan(q, start, rule, names[i..], recorded, verdicts);
    hide Scanning, Judged, Judge, Scan, Recorded, MayGo;
  }

  /** The delay of all names is that of the names from `i` on, after what was found before them. */
  predicate Delayed(
      start: Queue, rule: Rule, names: seq<string>, records: map<RunId, Past>, i: nat, recorded: map<RunId, Past>,
      found: Option<nat>)
    requires i <= |names|
  {
    Delay(start, rule, names, records, None) == Delay(start, rule, names[i..], recorded, found)
  }

  lemma DelayGoesOn(
      start: Queue, rule: Rule, names: seq<string>, records: map<RunId, Past>, i: nat, q: Queue,
      recorded: map<RunId, Past>, found: Option<nat>)
    requires i < |names| && Underway(start, rule, names, records, i, q, recorded)
    requires Delayed(start, rule, names, records, i, recorded, found)
    ensures var id := names[i];
            if id !in q.spool then Delayed(start, rule, names, records, i + 1, recorded, found)
            else
              var job, verdict := q.spool[id], Judge(rule, recorded, q.spool[id]);
              if verdict.Take? && MayGo(start, rule, job) then Delay(start, rule, names, records, None) == found
              else
                var young := OnlyYoung(start, rule, recorded, job);
                var sooner := if young then Sooner(found, AgesIn(rule, job.id)) else found;
                Delayed(start, rule, names, records, i + 1, Noted(recorded, job, verdict), sooner)
  {
    assert names[i..][0] == names[i] && names[i..][1..] == names[i + 1..];
    AtStart(q, start, names[i..], names[i]);
    hide AsStarted, SameVerdicts, Apart, Judged, Judge, Scan, Recorded, MayGo, OnlyYoung, Noted;
  }

  lemma ScanEnds(
      start: Queue, rule: Rule, names: seq<string>, records: map<RunId, Past>, q: Queue, recorded: map<RunId, Past>)
    requires Underway(start, rule, names, records, |names|, q, recorded)
    ensures Scan(start, start, rule, names, Judged(start.spool, rule, names, records)) == (q, None)
    ensures Recorded(start, rule, names, records) == recorded
  {
    assert names[|names|..] == [];
    hide Scanning, Judged;
  }

  lemma DelayEnds(
      start: Queue, rule: Rule, names: seq<string>, records: map<RunId, Past>, recorded: map<RunId, Past>,
      found: Option<nat>)
    requires Delayed(start, rule, names, records, |names|, recorded, found)
    ensures Delay(start, rule, names, records, None) == found
  {
    assert names[|names|..] == [];
  }

  function Lookup(m: map<Key, set<string>>, key: Key): set<string> {
    if key in m then m[key] else {}
  }

  /** The rule of one run per ref, by what was collected before the scan. */
  predicate LetsGo(rule: Rule, busy: map<Key, set<string>>, pending: map<Key, set<string>>, job: Job) {
    rule.onePerRef ==>
      && Lookup(busy, KeyOf(job)) <= {Group(job)}
      && forall g | g in Lookup(pending, KeyOf(job)) :: !Less(g, Group(job))
  }

  ghost predicate Collected(q: Queue, rule: Rule, busy: map<Key, set<string>>, pending: map<Key, set<string>>) {
    rule.onePerRef ==>
      && (forall key :: Lookup(busy, key) == Busy(q, rule, key))
      && forall key :: Lookup(pending, key) == Owners(q, rule, key)
  }

  lemma LetsGoIsRule(
      q: Queue, rule: Rule, busy: map<Key, set<string>>, pending: map<Key, set<string>>, job: Job)
    requires Collected(q, rule, busy, pending)
    ensures LetsGo(rule, busy, pending, job) <==> MayGo(q, rule, job)
  {
    hide Lookup, Busy, Owners, Less;
  }

  /** One turn of the scan: whether the job is claimed, and queue, records and delay after it. */
  function Considered(
      q: Queue, rule: Rule, busy: map<Key, set<string>>, pending: map<Key, set<string>>, records: map<RunId, Past>,
      id: string, found: Option<nat>): (bool, Queue, map<RunId, Past>, Option<nat>)
  {
    if id !in q.spool then (false, q, records, found)
    else
      var job := q.spool[id];
      var goes := LetsGo(rule, busy, pending, job);
      if goes && Judge(rule, records, job).Take?
      then (true, Queue(Drop(q.spool, id), q.working[id := job], q.leases), records, found)
      else
        var (next, noted) := Passed(q, rule, id, records);
        var young := goes && PassesButAge(rule, records, job) && Young(rule, job.id);
        (false, next, noted, if young then Sooner(found, AgesIn(rule, job.id)) else found)
  }

  /** Where the scan of all names has come to: queue, records and delay, with the names from `i` on ahead. */
  predicate Midway(
      start: Queue, rule: Rule, names: seq<string>, records: map<RunId, Past>, i: nat, q: Queue,
      recorded: map<RunId, Past>, found: Option<nat>)
    requires i <= |names|
  {
    Underway(start, rule, names, records, i, q, recorded) && Delayed(start, rule, names, records, i, recorded, found)
  }

  lemma TurnsBegin(start: Queue, rule: Rule, names: seq<string>, records: map<RunId, Past>)
    requires InOrder(names)
    ensures Midway(start, rule, names, records, 0, start, records, None)
  {
    ScanBegins(start, rule, names, records);
    assert names[0..] == names;
    hide Underway, Delay;
  }

  lemma TurnGoesOn(
      start: Queue, rule: Rule, names: seq<string>, records: map<RunId, Past>, i: nat, q: Queue,
      recorded: map<RunId, Past>, found: Option<nat>, busy: map<Key, set<string>>, pending: map<Key, set<string>>)
    requires i < |names| && Midway(start, rule, names, records, i, q, recorded, found)
    requires Collected(start, rule, busy, pending)
    ensures var (claimed, next, noted, delay) := Considered(q, rule, busy, pending, recorded, names[i], found);
            if claimed then
              && Scan(start, start, rule, names, Judged(start.spool, rule, names, records)) == (next, Some(names[i]))
              && Recorded(start, rule, names, records) == noted
              && Delay(start, rule, names, records, None) == delay
            else Midway(start, rule, names, records, i + 1, next, noted, delay)
  {
    ScanGoesOn(start, rule, names, records, i, q, recorded);
    DelayGoesOn(start, rule, names, records, i, q, recorded, found);
    PassedNotes(q, rule, names[i], recorded);
    PassedMissing(q, rule, names[i], recorded);
    if names[i] in q.spool {
      LetsGoIsRule(start, rule, busy, pending, q.spool[names[i]]);
    }
    hide Collected, Judge, Judged, Scan, Recorded, Underway, MayGo, LetsGo, Passed, Delay, Delayed, PassesButAge, Noted;
  }

  lemma PassedMissing(q: Queue, rule: Rule, id: string, records: map<RunId, Past>)
    ensures id !in q.spool ==> Passed(q, rule, id, records) == (q, records)
  {
  }

  lemma TurnsEnd(
      start: Queue, rule: Rule, names: seq<string>, records: map<RunId, Past>, q: Queue, recorded: map<RunId, Past>,
      found: Option<nat>)
    requires Midway(start, rule, names, records, |names|, q, recorded, found)
    ensures Scan(start, start, rule, names, Judged(start.spool, rule, names, records)) == (q, None)
    ensures Recorded(start, rule, names, records) == recorded && Delay(start, rule, names, records, None) == found
  {
    ScanEnds(start, rule, names, records, q, recorded);
    DelayEnds(start, rule, names, records, recorded, found);
    hide Underway, Delayed, Scan, Judged, Recorded, Delay;
  }

  function Added(m: map<Key, set<string>>, key: Key, group: string): map<Key, set<string>> {
    m[key := Lookup(m, key) + {group}]
  }

  function BusyAmong(working: map<string, Job>, rule: Rule, names: seq<string>, key: Key): set<string> {
    set id | id in names && id in working && id !in rule.blind && KeyOf(working[id]) == key :: Group(working[id])
  }

  function OwnersAmong(spool: map<string, Job>, rule: Rule, names: seq<string>, key: Key): set<string> {
    set id | id in names && id in spool && Child(spool[id]) && Readable(rule, spool[id]) &&
             KeyOf(spool[id]) == key :: spool[id].parent
  }

  function Unpublished(parents: set<Parent>, key: Key): set<string> {
    set p | p in parents && p.key == key :: p.id
  }

  lemma NoneAmong(jobs: map<string, Job>, rule: Rule)
    ensures forall key :: Lookup(map[], key) == BusyAmong(jobs, rule, [], key)
  {
  }

  lemma NonePending(spool: map<string, Job>, rule: Rule)
    ensures forall key :: Lookup(map[], key) == OwnersAmong(spool, rule, [], key)
  {
  }

  lemma ListedIsThere<V>(names: seq<string>, m: map<string, V>, i: nat)
    requires Lists(names, m) && i < |names|
    ensures names[i] in m
  {
    hide InOrder;
  }

  lemma BusyMore(
      busy: map<Key, set<string>>, working: map<string, Job>, rule: Rule, names: seq<string>, id: string)
    requires id in working && forall key :: Lookup(busy, key) == BusyAmong(working, rule, names, key)
    ensures var after := if id in rule.blind then busy else Added(busy, KeyOf(working[id]), Group(working[id]));
            forall key :: Lookup(after, key) == BusyAmong(working, rule, names + [id], key)
  {
    hide Group, KeyOf;
    var after := if id in rule.blind then busy else Added(busy, KeyOf(working[id]), Group(working[id]));
    forall key
      ensures Lookup(after, key) == BusyAmong(working, rule, names + [id], key)
    {
      var more, before := BusyAmong(working, rule, names + [id], key), BusyAmong(working, rule, names, key);
      assert more == before + if id !in rule.blind && KeyOf(working[id]) == key then {Group(working[id])} else {};
      assert Lookup(busy, key) == before;
    }
  }

  lemma PendingMore(
      pending: map<Key, set<string>>, spool: map<string, Job>, rule: Rule, names: seq<string>,
      id: string)
    requires id in spool && forall key :: Lookup(pending, key) == OwnersAmong(spool, rule, names, key)
    ensures var counts := Child(spool[id]) && Readable(rule, spool[id]);
            var after := if counts then Added(pending, KeyOf(spool[id]), spool[id].parent) else pending;
            forall key :: Lookup(after, key) == OwnersAmong(spool, rule, names + [id], key)
  {
    hide KeyOf, Child, Readable;
    var counts := Child(spool[id]) && Readable(rule, spool[id]);
    var after := if counts then Added(pending, KeyOf(spool[id]), spool[id].parent) else pending;
    forall key
      ensures Lookup(after, key) == OwnersAmong(spool, rule, names + [id], key)
    {
      var more, before := OwnersAmong(spool, rule, names + [id], key), OwnersAmong(spool, rule, names, key);
      assert more == before + if counts && KeyOf(spool[id]) == key then {spool[id].parent} else {};
      assert Lookup(pending, key) == before;
    }
  }

  lemma NoneUnpublished(pending: map<Key, set<string>>)
    ensures forall key :: Lookup(pending, key) == Lookup(pending, key) + Unpublished({}, key)
  {
    hide Lookup;
  }

  lemma UnpublishedMore(
      pending: map<Key, set<string>>, spool: map<string, Job>, rule: Rule, names: seq<string>,
      done: set<Parent>, p: Parent)
    requires forall key :: Lookup(pending, key) == OwnersAmong(spool, rule, names, key) + Unpublished(done, key)
    ensures forall key :: Lookup(Added(pending, p.key, p.id), key) ==
              OwnersAmong(spool, rule, names, key) + Unpublished(done + {p}, key)
  {
    hide OwnersAmong;
    forall key
      ensures Lookup(Added(pending, p.key, p.id), key) ==
              OwnersAmong(spool, rule, names, key) + Unpublished(done + {p}, key)
    {
      assert Unpublished(done + {p}, key) == Unpublished(done, key) + if p.key == key then {p.id} else {};
      assert Lookup(pending, key) == OwnersAmong(spool, rule, names, key) + Unpublished(done, key);
    }
  }

  lemma AllBusy(q: Queue, rule: Rule, names: seq<string>)
    requires Lists(names, q.working)
    ensures forall key :: BusyAmong(q.working, rule, names, key) == Busy(q, rule, key)
  {
    hide InOrder, Group, KeyOf;
  }

  lemma AllPending(q: Queue, rule: Rule, names: seq<string>)
    requires Lists(names, q.spool)
    ensures forall key :: OwnersAmong(q.spool, rule, names, key) + Unpublished(rule.unpublished, key) ==
              Owners(q, rule, key)
  {
    hide InOrder, KeyOf, Child, Readable;
    forall key
      ensures OwnersAmong(q.spool, rule, names, key) + Unpublished(rule.unpublished, key) ==
              Owners(q, rule, key)
    {
      assert forall id :: id in names <==> id in q.spool;
    }
  }

  class Store {
    var spool: map<string, Job>
    var working: map<string, Job>
    var leases: map<string, Lease>

    ghost function Value(): Queue
      reads this
    {
      Queue(spool, working, leases)
    }

    constructor ()
      ensures Value() == Queue(map[], map[], map[])
    {
      spool, working, leases := map[], map[], map[];
    }

    /** The project/ref pairs that have a run in progress, with its groups; what cannot be read is skipped. */
    method BusyGroups(names: seq<string>, rule: Rule) returns (busy: map<Key, set<string>>)
      requires Lists(names, working)
      ensures forall key :: Lookup(busy, key) == Busy(Value(), rule, key)
    {
      hide Lists, Lookup, Added, BusyAmong, Busy;
      busy := map[];
      NoneAmong(working, rule);
      for i := 0 to |names|
        invariant forall key :: Lookup(busy, key) == BusyAmong(working, rule, names[..i], key)
      {
        ListedIsThere(names, working, i);
        var job := working[names[i]];
        assert names[..i + 1] == names[..i] + [names[i]];
        BusyMore(busy, working, rule, names[..i], names[i]);
        if names[i] !in rule.blind {
          busy := Added(busy, KeyOf(job), Group(job));
        }
      }
      assert names[..|names|] == names;
      AllBusy(Value(), rule, names);
    }

    /** The workflows that own a place: those with a queued child, and the unpublished ones. */
    method PendingGroups(names: seq<string>, rule: Rule)
      returns (pending: map<Key, set<string>>)
      requires Lists(names, spool)
      ensures forall key :: Lookup(pending, key) == Owners(Value(), rule, key)
    {
      hide Lists, Lookup, Added, OwnersAmong, Owners, Unpublished;
      pending := map[];
      NonePending(spool, rule);
      for i := 0 to |names|
        invariant forall key :: Lookup(pending, key) == OwnersAmong(spool, rule, names[..i], key)
      {
        ListedIsThere(names, spool, i);
        var job := spool[names[i]];
        assert names[..i + 1] == names[..i] + [names[i]];
        PendingMore(pending, spool, rule, names[..i], names[i]);
        if Readable(rule, job) && Child(job) {
          pending := Added(pending, KeyOf(job), job.parent);
        }
      }
      assert names[..|names|] == names;
      var parents := rule.unpublished;
      NoneUnpublished(pending);
      assert rule.unpublished - parents == {};
      while parents != {}
        invariant parents <= rule.unpublished
        invariant forall key :: Lookup(pending, key) ==
                    OwnersAmong(spool, rule, names, key) + Unpublished(rule.unpublished - parents, key)
        decreases |parents|
      {
        var p :| p in parents;
        UnpublishedMore(pending, spool, rule, names, rule.unpublished - parents, p);
        assert rule.unpublished - (parents - {p}) == (rule.unpublished - parents) + {p};
        pending := Added(pending, p.key, p.id);
        parents := parents - {p};
      }
      assert rule.unpublished - parents == rule.unpublished;
      AllPending(Value(), rule, names);
    }

    /** The runs a job needs: whether one cannot succeed any more, and whether one is still awaited. */
    method CheckNeeds(job: Job, records: map<RunId, Past>) returns (failed: bool, waiting: bool)
      ensures failed <==> exists i | 0 <= i < |job.needs| :: Fails(records, job, job.needs[i])
      ensures !failed ==> (waiting <==> exists i | 0 <= i < |job.needs| :: Lacks(records, job, job.needs[i]))
    {
      failed, waiting := false, false;
      for i := 0 to |job.needs|
        invariant failed <==> exists k | 0 <= k < i :: Fails(records, job, job.needs[k])
        invariant waiting <==> exists k | 0 <= k < i :: Lacks(records, job, job.needs[k])
      {
        var need := RunId(job.project, job.needs[i]);
        if need !in records {
          waiting := true;
          continue;
        }
        var past := records[need];
        if past.parent != job.parent || past.commit != job.commit || past.ref != job.ref {
          assert Fails(records, job, job.needs[i]);
          failed := true;
          break;
        }
        if Active(past.status) {
          waiting := true;
        } else if past.status != Succeeded {
          failed := true;
        }
      }
    }

    /** The checks of one queued job before it is claimed; `young` when it is held back by its age at last. */
    method Decide(rule: Rule, records: map<RunId, Past>, job: Job) returns (verdict: Verdict, young: bool)
      ensures verdict == Judge(rule, records, job)
      ensures young <==> PassesButAge(rule, records, job) && Young(rule, job.id)
    {
      if !Readable(rule, job) {
        return Unreadable, false;
      }
      if (Child(job) || job.locked) && RunId(job.project, job.id) in rule.cancelled {
        return Retire(Cancelled), false;
      }
      if job.locked {
        return Hold, false;
      }
      var failed, waiting := CheckNeeds(job, records);
      if failed {
        return Retire(Skipped), false;
      }
      if waiting || !Matches(rule, job) || (Child(job) && rule.version < 2) {
        return Hold, false;
      }
      if Young(rule, job.id) {
        return Hold, true;
      }
      return Take, false;
    }

    /** What the rule of one run per ref needs to know before the scan. */
    method Collect(rule: Rule, names: seq<string>, claimed: seq<string>)
      returns (busy: map<Key, set<string>>, pending: map<Key, set<string>>)
      requires Lists(names, spool) && Lists(claimed, working)
      ensures Collected(Value(), rule, busy, pending)
    {
      hide Lists, Lookup, Busy, Owners;
      busy, pending := map[], map[];
      if rule.onePerRef {
        busy := BusyGroups(claimed, rule);
        pending := PendingGroups(names, rule);
      }
    }

    /** One turn of the scan: the job is claimed, ended, set aside or passed over. */
    method Consider(
        rule: Rule, busy: map<Key, set<string>>, pending: map<Key, set<string>>, records: map<RunId, Past>, id: string,
        found: Option<nat>)
      returns (claimed: bool, recorded: map<RunId, Past>, delay: Option<nat>)
      modifies `spool, `working
      ensures (claimed, Value(), recorded, delay) ==
              Considered(old(Value()), rule, busy, pending, records, id, found)
    {
      hide Judge, LetsGo, Noted, PassesButAge;
      delay := found;
      if id !in spool {
        return false, records, delay;
      }
      var job := spool[id];
      var verdict, young := Decide(rule, records, job);
      if LetsGo(rule, busy, pending, job) {
        if verdict.Take? {
          working := working[id := job];
          spool := Drop(spool, id);
          return true, records, delay;
        }
        if young {
          delay := Sooner(found, AgesIn(rule, job.id));
        }
      }
      if verdict.Retire? {
        spool := Drop(spool, id);
      } else if verdict.Unreadable? {
        spool, working := Drop(spool, id), Drop(working, id);
      }
      return false, Noted(records, job, verdict), delay;
    }

    /** The scan itself. */
    method ScanSpool(rule: Rule, names: seq<string>, claimed: seq<string>, records: map<RunId, Past>)
      returns (taken: Option<string>, recorded: map<RunId, Past>, delay: Option<nat>)
      requires Lists(names, spool) && Lists(claimed, working)
      modifies `spool, `working
      ensures (Value(), taken) ==
              old(Scan(Value(), Value(), rule, names, Judged(spool, rule, names, records)))
      ensures recorded == old(Recorded(Value(), rule, names, records))
      ensures delay == old(Delay(Value(), rule, names, records, None))
    {
      ghost var before := Value();
      var busy, pending := Collect(rule, names, claimed);
      TurnsBegin(before, rule, names, records);
      hide Collected, Lists, Judged, Scan, Recorded, Midway, InOrder, Delay, Considered;
      recorded, delay := records, None;
      for i := 0 to |names|
        invariant Midway(before, rule, names, records, i, Value(), recorded, delay)
      {
        TurnGoesOn(before, rule, names, records, i, Value(), recorded, delay, busy, pending);
        var found: bool;
        found, recorded, delay := Consider(rule, busy, pending, recorded, names[i], delay);
        if found {
          return Some(names[i]), recorded, delay;
        }
      }
      TurnsEnd(before, rule, names, records, Value(), recorded, delay);
      return None, recorded, delay;
    }

    /**
     claimCiJob: the oldest eligible job, what the scan ended on its way and the records of that, and how
     long until a job that only its age holds back is old enough.
     */
    method Claim(rule: Rule, names: seq<string>, claimed: seq<string>, records: map<RunId, Past>, lease: Lease)
      returns (taken: Option<string>, recorded: map<RunId, Past>, delay: Option<nat>)
      requires Lists(names, spool) && Lists(claimed, working)
      modifies this
      ensures taken == old(Scan(Value(), Value(), rule, names, Judged(spool, rule, names, records))).1
      ensures Value() == old(Claimed(Value(), rule, names, records, lease, Leased))
      ensures recorded == old(Recorded(Value(), rule, names, records))
      ensures delay == old(Delay(Value(), rule, names, records, None))
    {
      hide Lists, Scan, Judged, Recorded, Delay;
      taken, recorded, delay := ScanSpool(rule, names, claimed, records);
      if taken.Some? {
        leases := leases[taken.value := lease];
      }
    }

    method RequeueLocked(id: string, fate: Fate, limit: Option<nat>) returns (outcome: Outcome)
      modifies this
      ensures (Value(), outcome) == Requeue(old(Value()), id, fate, limit)
    {
      if id !in working || fate.broken {
        working, leases := Drop(working, id), Drop(leases, id);
        return Gone;
      }
      var job := working[id];
      if Child(job) && fate.settled {
        spool, working, leases := Drop(spool, id), Drop(working, id), Drop(leases, id);
        return Gone;
      }
      if fate.cancelled {
        spool := Drop(spool, id);
        working, leases := Drop(working, id), Drop(leases, id);
        return CancelledOut;
      }
      if limit.Some? && job.attempt >= limit.value {
        working, leases := Drop(working, id), Drop(leases, id);
        return Exhausted;
      }
      spool := spool[id := Again(job)];
      working, leases := Drop(working, id), Drop(leases, id);
      return Requeued;
    }

    /** reapCiLeases: every lapsed lease in turn. */
    method Reap(names: seq<string>, fates: map<string, Fate>, now: nat, max: nat, restarted: string)
      returns (requeued: seq<string>, failed: seq<string>, cancelled: seq<string>)
      modifies this
      ensures Value() == Reaped(old(Value()), names, fates, now, max, restarted)
    {
      requeued, failed, cancelled := [], [], [];
      ghost var before := Value();
      for i := 0 to |names|
        invariant Reaped(before, names, fates, now, max, restarted) ==
                  Reaped(Value(), names[i..], fates, now, max, restarted)
      {
        var id := names[i];
        assert names[i..][1..] == names[i + 1..];
        if id !in leases || leases[id].expires <= now || (restarted != "" && leases[id].runner == restarted) {
          var outcome := RequeueLocked(id, FateOf(fates, id), Some(Attempts(max)));
          match outcome {
            case Requeued => requeued := requeued + [id];
            case Exhausted => failed := failed + [id];
            case CancelledOut => cancelled := cancelled + [id];
            case Gone =>
          }
        }
      }
    }

    method Renew(id: string, token: string, expires: nat) returns (ok: bool)
      modifies this
      ensures Value() == Renewed(old(Value()), id, token, expires)
      ensures ok <==> old(id in working && Owns(Value(), id, token))
    {
      if id !in working || id !in leases || leases[id].token != token {
        return false;
      }
      leases := leases[id := leases[id].(expires := expires)];
      return true;
    }

    method Abandon(id: string, token: string, fate: Fate) returns (ok: bool)
      modifies this
      ensures (Value(), ok) == Abandoned(old(Value()), id, token, fate)
    {
      if id !in leases || leases[id].token != token {
        return false;
      }
      var outcome := RequeueLocked(id, fate, None);
      return outcome == Requeued;
    }

    method Release(id: string, token: string) returns (ok: bool)
      modifies this
      ensures Value() == Released(old(Value()), id, token)
      ensures ok <==> old(Owns(Value(), id, token))
    {
      if id !in leases || leases[id].token != token {
        return false;
      }
      working, leases := Drop(working, id), Drop(leases, id);
      return true;
    }

    // ----- the gateway's requests ------------------------------------------------------------------

    /** Anything other processes do to the queue between two operations of this one. */
    method Others()
      modifies this
    {
      spool, working, leases := *, *, *;
    }

    method HeldClaim(runner: string, id: string, token: string, version: nat) returns (held: bool)
      ensures held <==> Held(Value(), runner, id, token, version)
    {
      if id !in working || id !in leases || leases[id].token != token || leases[id].runner != runner {
        return false;
      }
      return !(Child(working[id]) && version < 2);
    }

    /**
     The claim is looked at, then renewed under a lock of its own: whatever the others did to the
     queue in between (`mid`), a lease is only ever extended under its current token.
     */
    method Heartbeat(runner: string, id: string, token: string, version: nat, expires: nat)
      returns (ok: bool, ghost mid: Queue)
      modifies this
      ensures var held := old(Held(Value(), runner, id, token, version));
              && (ok <==> held && id in mid.working && Owns(mid, id, token))
              && (held ==> Value() == Renewed(mid, id, token, expires))
              && (!held ==> Value() == mid == old(Value()))
    {
      mid := Value();
      ok := HeldClaim(runner, id, token, version);
      if ok {
        Others();
        mid := Value();
        ok := Renew(id, token, expires);
      }
    }

    /**
     The claim is looked at, the run committed, and only then the job released, if the token
     still holds it. The runner is told it went well either way; `commits` says whether parsing
     and committing succeed.
     */
    method Finish(runner: string, id: string, token: string, version: nat, commits: bool)
      returns (ok: bool, ghost mid: Queue)
      modifies this
      ensures ok <==> old(Held(Value(), runner, id, token, version)) && commits
      ensures ok ==> Value() == Released(mid, id, token)
      ensures !ok ==> Value() == mid
      ensures !old(Held(Value(), runner, id, token, version)) ==> mid == old(Value())
    {
      mid := Value();
      ok := HeldClaim(runner, id, token, version);
      if !ok {
        return;
      }
      Others();
      mid := Value();
      if !commits {
        return false, mid;
      }
      var released := Release(id, token);
    }

    method GiveBack(runner: string, id: string, token: string, version: nat, fate: Fate)
      returns (ok: bool, ghost mid: Queue)
      modifies this
      ensures var held := old(Held(Value(), runner, id, token, version));
              && (held ==> (Value(), ok) == Abandoned(mid, id, token, fate))
              && (!held ==> !ok && Value() == mid == old(Value()))
    {
      mid := Value();
      ok := HeldClaim(runner, id, token, version);
      if ok {
        Others();
        mid := Value();
        ok := Abandon(id, token, fate);
      }
    }
  }
}
