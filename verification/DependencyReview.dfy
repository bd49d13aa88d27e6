/**
 All interleavings of registering, deciding and admitting, each file write a step of its
 own, under the locks the operations take: the project's lock exclusively to register and
 shared otherwise, the request's lock shared to admit and exclusively otherwise. A process
 may stop between any two steps.
 */
module DependencyReview {
  import opened Wrappers
  import opened Text
  import opened Names
  import opened DependencyJournal
  import opened DependencyStore

  /** What a process that holds its locks is about. */
  datatype Job =
    | Registering(digest: string, bytes: string, commit: string, lockDone: bool)
    | Deciding(digest: string, package: string, action: Action)
    | Admitting(digest: string, commit: string, platform: string, architecture: string, seen: Request)

  datatype Store = Store(files: map<string, Files>, jobs: map<nat, Job>)

  const EMPTY := Store(map[], map[])

  datatype Step =
    | Begin(p: nat, job: Job)
    | WriteLock(p: nat)
    | WriteCommits(p: nat)
    | WriteJournal(p: nat, now: int, uid: U64)
    | End(p: nat)

  /** The locks of two jobs can be held at the same time. */
  predicate Compatible(a: Job, b: Job) {
    && !a.Registering? && !b.Registering?
    && (a.digest != b.digest || (a.Admitting? && b.Admitting?))
  }

  predicate LocksFree(s: Store, job: Job) {
    forall p | p in s.jobs :: Compatible(s.jobs[p], job)
  }

  /** What an operation checks before it goes on, its locks held. */
  predicate Starts(parse: Parser, s: Store, job: Job) {
    match job
    case Registering(digest, bytes, commit, lockDone) =>
      && (commit == "" || ValidObjectId(commit)) && parse(bytes).Some? && parse(bytes).value.sha256 == digest &&
          !lockDone
    case Deciding(digest, _, _) => digest in s.files
    case Admitting(digest, commit, platform, architecture, seen) =>
      digest in s.files && Load(parse, s.files[digest], digest) == Success(seen) &&
          Admissible(seen, commit, platform, architecture)
  }

  /** What a deciding process writes. */
  function Decided(parse: Parser, s: Store, j: Job, now: int, uid: U64): Result<Files, Fault>
    requires j.Deciding?
  {
    WithDecision(parse, FilesOf(s, j.digest), j.digest, j.package, j.action, now, uid)
  }

  predicate Can(parse: Parser, s: Store, step: Step) {
    match step
    case Begin(p, job) => p !in s.jobs && LocksFree(s, job) && Starts(parse, s, job)
    case WriteLock(p) =>
      p in s.jobs && s.jobs[p].Registering? && !s.jobs[p].lockDone &&
          WithLock(FilesOf(s, s.jobs[p].digest), s.jobs[p].bytes).Success?
    case WriteCommits(p) =>
      && p in s.jobs && s.jobs[p].Registering? && s.jobs[p].lockDone
      && WithCommit(parse, FilesOf(s, s.jobs[p].digest), s.jobs[p].digest, s.jobs[p].commit).Success?
    case WriteJournal(p, now, uid) =>
      && p in s.jobs && s.jobs[p].Deciding? && now < U64_LIMIT
      && Decided(parse, s, s.jobs[p], now, uid).Success?
    case End(p) => p in s.jobs
  }

  function FilesOf(s: Store, digest: string): Files {
    if digest in s.files then s.files[digest] else NO_FILES
  }

  function Without(jobs: map<nat, Job>, p: nat): map<nat, Job> {
    map q | q in jobs && q != p :: jobs[q]
  }

  function Do(parse: Parser, s: Store, step: Step): Store
    requires Can(parse, s, step)
  {
    match step
    case Begin(p, job) =>
      // registering creates the request's directory
      Store(if job.Registering? then s.files[job.digest := FilesOf(s, job.digest)] else s.files, s.jobs[p := job])
    case WriteLock(p) =>
      var j := s.jobs[p];
      Store(s.files[j.digest := WithLock(FilesOf(s, j.digest), j.bytes).value], s.jobs[p := j.(lockDone := true)])
    case WriteCommits(p) =>
      var j := s.jobs[p];
      Store(s.files[j.digest := WithCommit(parse, FilesOf(s, j.digest), j.digest, j.commit).value], Without(s.jobs, p))
    case WriteJournal(p, now, uid) =>
      var j := s.jobs[p];
      Store(s.files[j.digest := Decided(parse, s, j, now, uid).value], Without(s.jobs, p))
    case End(p) => Store(s.files, Without(s.jobs, p))
  }

  // ----- the invariant ------------------------------------------------------------------------

  /** The request whose journal the step writes while the clock stands before 1970, if it does. */
  function Spoils(s: Store, step: Step): set<string> {
    if step.WriteJournal? && step.p in s.jobs && step.now < 0 then {s.jobs[step.p].digest} else {}
  }

  /**
   A request's files load, unless its first lock was never stored; once a decision was written with
   such a clock, they never do.
   */
  predicate Sound(parse: Parser, files: Files, digest: string, spoilt: bool) {
    if spoilt then files.lock != "" && Load(parse, files, digest).Failure?
    else files == NO_FILES || Load(parse, files, digest).Success?
  }

  predicate JobOk(parse: Parser, s: Store, job: Job) {
    && job.digest in s.files
    && match job
       case Registering(digest, bytes, commit, lockDone) =>
         && (commit == "" || ValidObjectId(commit)) && parse(bytes).Some? && parse(bytes).value.sha256 == digest
         && (lockDone ==> s.files[digest].lock == bytes)
       case Deciding(_, _, _) => true
       case Admitting(digest, commit, platform, architecture, seen) =>
         Load(parse, s.files[digest], digest) == Success(seen) && Admissible(seen, commit, platform, architecture)
  }

  predicate Inv(parse: Parser, s: Store, spoilt: set<string>) {
    && (forall d | d in s.files :: Sound(parse, s.files[d], d, d in spoilt))
    && (forall d | d in spoilt :: d in s.files)
    && (forall p | p in s.jobs :: JobOk(parse, s, s.jobs[p]))
    && (forall p, q | p in s.jobs && q in s.jobs && p != q :: Compatible(s.jobs[p], s.jobs[q]))
  }

  lemma EmptyInv(parse: Parser)
    ensures Inv(parse, EMPTY, {})
  {
  }

  /** A request's files only ever grow: the lock's bytes stay, rows and commits are added behind. */
  predicate Grown(a: Files, b: Files) {
    (a.lock != "" ==> b.lock == a.lock) && a.journal <= b.journal && a.commits <= b.commits
  }

  /** So between two states that load, the decisions and the commits are kept, new ones behind them. */
  lemma GrownLoads(parse: Parser, a: Files, b: Files, digest: string)
    requires GoodParser(parse) && Grown(a, b) && Load(parse, a, digest).Success? && Load(parse, b, digest).Success?
    ensures var x, y := Load(parse, a, digest).value, Load(parse, b, digest).value;
            && y.lock == x.lock
            && |x.history| <= |y.history| && y.history[..|x.history|] == x.history
            && |x.commits| <= |y.commits| && y.commits[..|x.commits|] == x.commits
  {
    NoLockNoLoad(parse, a, digest);
    var x, y := Load(parse, a, digest).value, Load(parse, b, digest).value;
    LoadParts(parse, a, digest, x);
    LoadParts(parse, b, digest, y);
    LoadedIsBounded(parse, a, digest, x);
    hide Load, History, Commits, GoodParser, PackageNames, Contiguous, CommitsOk;
    HistoryPrefix(a.journal, b.journal, PackageNames(x.lock), x.history, y.history);
    CommitsPrefix(a.commits, b.commits, x.commits, y.commits);
  }

  lemma HistoryPrefix(a: string, b: string, names: set<string>, x: seq<Decision>, y: seq<Decision>)
    requires a <= b && Contiguous(x, names)
    requires History(a, names, []) == Success(x) && History(b, names, []) == Success(y)
    ensures |x| <= |y| && y[..|x|] == x
  {
    hide *;
    var rows := b[|a|..];
    assert b == a + rows;
    HistoryGoesOn(a, rows, names, [], x);
    HistoryIsContiguous(rows, names, x, y);
  }

  lemma CommitsPrefix(a: string, b: string, x: seq<string>, y: seq<string>)
    requires a <= b && Commits(a, []) == Success(x) && Commits(b, []) == Success(y) && CommitsOk(x)
    ensures |x| <= |y| && y[..|x|] == x
  {
    hide Commits, CommitsOk, Unlines;
    var more := b[|a|..];
    assert b == a + more;
    CommitsGoOn(a, more, [], x);
    CommitsIff(more, x, y);
  }

  lemma NoLockNoLoad(parse: Parser, files: Files, digest: string)
    requires GoodParser(parse) && Load(parse, files, digest).Success?
    ensures files.lock != ""
  {
    hide History, Commits;
  }

  /** What each write makes of a record. */
  lemma LockGrows(parse: Parser, files: Files, bytes: string, spoilt: bool)
    requires GoodParser(parse) && parse(bytes).Some? && Sound(parse, files, parse(bytes).value.sha256, spoilt)
    requires WithLock(files, bytes).Success?
    ensures var digest, after := parse(bytes).value.sha256, WithLock(files, bytes).value;
            Sound(parse, after, digest, spoilt) && after.lock == bytes && Grown(files, after)
  {
    var digest := parse(bytes).value.sha256;
    if files == NO_FILES && !spoilt {
      NewLockLoads(parse, bytes);
    } else if !spoilt {
      NoLockNoLoad(parse, files, digest);
      assert WithLock(files, bytes).value == files;
    } else {
      assert WithLock(files, bytes).value == files;
    }
  }

  lemma CommitGrows(parse: Parser, files: Files, digest: string, commit: string)
    requires GoodParser(parse) && (commit == "" || ValidObjectId(commit))
    requires WithCommit(parse, files, digest, commit).Success?
    ensures var after := WithCommit(parse, files, digest, commit).value;
            Load(parse, files, digest).Success? && Load(parse, after, digest).Success? && Grown(files, after)
  {
    hide Load, ValidObjectId, GoodParser;
    CommitLoads(parse, files, digest, commit, Load(parse, files, digest).value);
    assert files.commits + commit + "\n" == files.commits + (commit + "\n");
  }

  lemma DecisionGrows(parse: Parser, files: Files, digest: string, package: string, action: Action, now: int, uid: U64)
    requires GoodParser(parse) && now < U64_LIMIT
    requires WithDecision(parse, files, digest, package, action, now, uid).Success?
    ensures var after := WithDecision(parse, files, digest, package, action, now, uid).value;
            && Load(parse, files, digest).Success? && Sound(parse, after, digest, now < 0) && Grown(files, after)
  {
    NoLockHere(parse, files, digest);
    hide Load, Row, GoodParser;
    var request := Load(parse, files, digest).value;
    DecisionLoadsIff(parse, files, digest, package, action, now, uid, request);
    var row := Row(|request.history| + 1, now, uid, package, action);
    assert files.journal + row + "\n" == files.journal + (row + "\n");
  }

  lemma NoLockHere(parse: Parser, files: Files, digest: string)
    requires GoodParser(parse)
    ensures Load(parse, files, digest).Success? ==> files.lock != ""
  {
    if Load(parse, files, digest).Success? {
      NoLockNoLoad(parse, files, digest);
    }
  }

  /** The request a step writes to, if any. */
  function Target(s: Store, step: Step): Option<string> {
    match step
    case Begin(_, _) => None
    case End(_) => None
    case WriteLock(p) => if p in s.jobs then Some(s.jobs[p].digest) else None
    case WriteCommits(p) => if p in s.jobs then Some(s.jobs[p].digest) else None
    case WriteJournal(p, _, _) => if p in s.jobs then Some(s.jobs[p].digest) else None
  }

  /** One step changes at most its target, which has only grown and is as sound as it can be. */
  lemma StepWrites(parse: Parser, s: Store, step: Step, spoilt: set<string>, digest: string)
    requires GoodParser(parse) && Inv(parse, s, spoilt) && Can(parse, s, step)
    ensures var before, after := FilesOf(s, digest), FilesOf(Do(parse, s, step), digest);
            && (Target(s, step) != Some(digest) ==> after == before)
            && Grown(before, after)
            && Sound(parse, after, digest, digest in spoilt + Spoils(s, step))
  {
    hide Load, WithLock, WithCommit, WithDecision, GoodParser, Grown, ValidObjectId, Admissible;
    GrownReflexive(FilesOf(s, digest));
    if digest in s.files {
      assert Sound(parse, s.files[digest], digest, digest in spoilt);
    }
    if Target(s, step) == Some(digest) {
      var j := s.jobs[step.p];
      assert JobOk(parse, s, j);
      match step {
        case WriteLock(_) => LockGrows(parse, s.files[digest], j.bytes, digest in spoilt);
        case WriteCommits(_) => CommitGrows(parse, s.files[digest], digest, j.commit);
        case WriteJournal(_, now, uid) => DecisionGrows(parse, s.files[digest], digest, j.package, j.action, now, uid);
        case _ =>
      }
    }
  }

  lemma GrownReflexive(a: Files)
    ensures Grown(a, a)
  {
  }

  lemma GrownTransitive(a: Files, b: Files, c: Files)
    requires Grown(a, b) && Grown(b, c)
    ensures Grown(a, c)
  {
  }

  /** Nobody writes to a request that is being admitted. */
  lemma AdmissionIsLeftAlone(parse: Parser, s: Store, step: Step, spoilt: set<string>, p: nat)
    requires Inv(parse, s, spoilt) && Can(parse, s, step) && p in s.jobs && s.jobs[p].Admitting?
    ensures Target(s, step) != Some(s.jobs[p].digest)
  {
    hide Load, WithLock, WithCommit, WithDecision, Sound, JobOk;
    if Target(s, step).Some? {
      assert step.p != p;
      assert Compatible(s.jobs[step.p], s.jobs[p]);
    }
  }

  lemma StepKeepsFiles(parse: Parser, s: Store, step: Step, spoilt: set<string>)
    requires GoodParser(parse) && Inv(parse, s, spoilt) && Can(parse, s, step)
    ensures var after := Do(parse, s, step);
            && (forall d | d in after.files :: Sound(parse, after.files[d], d, d in spoilt + Spoils(s, step)))
            && (forall d | d in s.files :: d in after.files)
            && (forall d | d in spoilt + Spoils(s, step) :: d in after.files)
  {
    hide Load, WithLock, WithCommit, WithDecision, GoodParser, Grown, Starts, Sound;
    var after := Do(parse, s, step);
    forall d | d in after.files
      ensures Sound(parse, after.files[d], d, d in spoilt + Spoils(s, step))
    {
      StepWrites(parse, s, step, spoilt, d);
      assert FilesOf(after, d) == after.files[d];
    }
  }

  /** A job that goes on is as it was, or has just taken its own step. */
  lemma StepKeepsJob(parse: Parser, s: Store, step: Step, spoilt: set<string>, p: nat)
    requires GoodParser(parse) && Inv(parse, s, spoilt) && Can(parse, s, step) && p in Do(parse, s, step).jobs
    ensures JobOk(parse, Do(parse, s, step), Do(parse, s, step).jobs[p])
  {
    if step.Begin? && step.p == p {
      BeginOk(parse, s, step);
    } else if step.WriteLock? && step.p == p {
      WroteLock(parse, s, step, spoilt);
    } else {
      OthersKept(parse, s, step, spoilt, p);
    }
  }

  lemma BeginOk(parse: Parser, s: Store, step: Step)
    requires Can(parse, s, step) && step.Begin?
    ensures JobOk(parse, Do(parse, s, step), step.job)
  {
    hide Load, Admissible, ValidObjectId;
  }

  lemma WroteLock(parse: Parser, s: Store, step: Step, spoilt: set<string>)
    requires GoodParser(parse) && Inv(parse, s, spoilt) && Can(parse, s, step) && step.WriteLock?
    ensures JobOk(parse, Do(parse, s, step), Do(parse, s, step).jobs[step.p])
  {
    hide Load, Admissible, ValidObjectId, WithLock, GoodParser, Grown;
    var j := s.jobs[step.p];
    assert JobOk(parse, s, j) && Sound(parse, s.files[j.digest], j.digest, j.digest in spoilt);
    LockGrows(parse, s.files[j.digest], j.bytes, j.digest in spoilt);
  }

  lemma OthersKept(parse: Parser, s: Store, step: Step, spoilt: set<string>, p: nat)
    requires GoodParser(parse) && Inv(parse, s, spoilt) && Can(parse, s, step) && p in Do(parse, s, step).jobs
    requires !(step.p == p && (step.Begin? || step.WriteLock?))
    ensures p in s.jobs && step.p != p && Do(parse, s, step).jobs[p] == s.jobs[p]
    ensures JobOk(parse, Do(parse, s, step), s.jobs[p])
  {
    hide Load, Admissible, ValidObjectId, WithLock, WithCommit, WithDecision, GoodParser, Grown, Starts, LocksFree;
    hide Sound;
    var after, j := Do(parse, s, step), s.jobs[p];
    assert JobOk(parse, s, j);
    if step.p in s.jobs {
      assert Compatible(s.jobs[step.p], j);
    }
    StepWrites(parse, s, step, spoilt, j.digest);
    assert j.digest in after.files && FilesOf(after, j.digest) == after.files[j.digest];
    if j.Admitting? {
      AdmissionIsLeftAlone(parse, s, step, spoilt, p);
    }
    if j.Registering? {
      assert Target(s, step) != Some(j.digest);
    }
  }

  lemma StepKeepsLocks(parse: Parser, s: Store, step: Step, spoilt: set<string>)
    requires Inv(parse, s, spoilt) && Can(parse, s, step)
    ensures var jobs := Do(parse, s, step).jobs;
            forall p, q | p in jobs && q in jobs && p != q :: Compatible(jobs[p], jobs[q])
  {
    hide Load, Admissible, WithLock, WithCommit, WithDecision, Starts, Sound, JobOk;
  }

  lemma StepKeeps(parse: Parser, s: Store, step: Step, spoilt: set<string>)
    requires GoodParser(parse) && Inv(parse, s, spoilt) && Can(parse, s, step)
    ensures Inv(parse, Do(parse, s, step), spoilt + Spoils(s, step))
  {
    hide Can, Do, JobOk, Sound, Compatible, GoodParser, Spoils;
    StepKeepsFiles(parse, s, step, spoilt);
    StepKeepsLocks(parse, s, step, spoilt);
    var after := Do(parse, s, step);
    forall p | p in after.jobs
      ensures JobOk(parse, after, after.jobs[p])
    {
      StepKeepsJob(parse, s, step, spoilt, p);
    }
  }

  // ----- runs -----------------------------------------------------------------------------------

  predicate Runs(parse: Parser, s: Store, steps: seq<Step>)
    decreases |steps|
  {
    steps == [] || (Can(parse, s, steps[0]) && Runs(parse, Do(parse, s, steps[0]), steps[1..]))
  }

  function After(parse: Parser, s: Store, steps: seq<Step>): Store
    requires Runs(parse, s, steps)
    decreases |steps|
  {
    if steps == [] then s else After(parse, Do(parse, s, steps[0]), steps[1..])
  }

  /** The requests about which some decision of the run was written while the clock stood before 1970. */
  function SpoiltIn(parse: Parser, s: Store, steps: seq<Step>): set<string>
    requires Runs(parse, s, steps)
    decreases |steps|
  {
    if steps == [] then {} else Spoils(s, steps[0]) + SpoiltIn(parse, Do(parse, s, steps[0]), steps[1..])
  }

  /** Over every run each request's lock bytes, rows and commits are kept, new ones added behind. */
  lemma {:induction false} RunKeeps(parse: Parser, s: Store, steps: seq<Step>, spoilt: set<string>, digest: string)
    requires GoodParser(parse) && Inv(parse, s, spoilt) && Runs(parse, s, steps)
    ensures Inv(parse, After(parse, s, steps), spoilt + SpoiltIn(parse, s, steps))
    ensures Grown(FilesOf(s, digest), FilesOf(After(parse, s, steps), digest))
    decreases |steps|
  {
    hide Inv, Can, Do, Grown, GoodParser, FilesOf, Spoils;
    if steps == [] {
      GrownReflexive(FilesOf(s, digest));
      assert spoilt + {} == spoilt;
    } else {
      var next := Do(parse, s, steps[0]);
      StepKeeps(parse, s, steps[0], spoilt);
      StepWrites(parse, s, steps[0], spoilt, digest);
      RunKeeps(parse, next, steps[1..], spoilt + Spoils(s, steps[0]), digest);
      GrownTransitive(FilesOf(s, digest), FilesOf(next, digest), FilesOf(After(parse, s, steps), digest));
      assert spoilt + SpoiltIn(parse, s, steps) == spoilt + Spoils(s, steps[0]) + SpoiltIn(parse, next, steps[1..]);
    }
  }

  /**
   Whatever happened before, a record on disk loads if and only if none of the decisions written to
   it found the clock before 1970; then it is within its bounds and numbered without a gap.
   */
  lemma RecordLoadsIff(parse: Parser, steps: seq<Step>, digest: string)
    requires GoodParser(parse) && Runs(parse, EMPTY, steps)
    requires FilesOf(After(parse, EMPTY, steps), digest) != NO_FILES
    ensures var files := FilesOf(After(parse, EMPTY, steps), digest);
            && (Load(parse, files, digest).Success? <==> digest !in SpoiltIn(parse, EMPTY, steps))
            && (Load(parse, files, digest).Success? ==>
                  var request := Load(parse, files, digest).value;
                  Contiguous(request.history, PackageNames(request.lock)) && CommitsOk(request.commits))
  {
    hide Load, GoodParser, Grown, Can, Do, Contiguous, CommitsOk, Runs, After, SpoiltIn, PackageNames;
    EmptyInv(parse);
    RunKeeps(parse, EMPTY, steps, {}, digest);
    assert {} + SpoiltIn(parse, EMPTY, steps) == SpoiltIn(parse, EMPTY, steps);
    var files := FilesOf(After(parse, EMPTY, steps), digest);
    assert Sound(parse, files, digest, digest in SpoiltIn(parse, EMPTY, steps));
    if Load(parse, files, digest).Success? {
      LoadedIsBounded(parse, files, digest, Load(parse, files, digest).value);
    }
  }

  predicate Continues(steps: seq<Step>, p: nat) {
    forall i | 0 <= i < |steps| :: steps[i] != End(p)
  }

  /**
   An admission transaction is alone with its review: from the check until the process ends
   it, however the others interleave, the files do not change, so every package stays
   approved by its latest decision and the commit and the target stay the ones asked for.
   */
  lemma {:induction false} AdmissionHolds(parse: Parser, s: Store, steps: seq<Step>, spoilt: set<string>, p: nat)
    requires GoodParser(parse) && Inv(parse, s, spoilt) && Runs(parse, s, steps)
    requires p in s.jobs && s.jobs[p].Admitting? && Continues(steps, p)
    ensures var after, job := After(parse, s, steps), s.jobs[p];
            && p in after.jobs && after.jobs[p] == job
            && FilesOf(after, job.digest) == FilesOf(s, job.digest)
            && Load(parse, FilesOf(after, job.digest), job.digest) == Success(job.seen)
            && IsApproved(job.seen) && job.commit in job.seen.commits
            && job.seen.lock.platform == job.platform && job.seen.lock.architecture == job.architecture
    decreases |steps|
  {
    if steps == [] {
      AdmissionNow(parse, s, spoilt, p);
    } else {
      hide Load, Can, Do, GoodParser, Inv, FilesOf, IsApproved;
      StepKeeps(parse, s, steps[0], spoilt);
      AdmissionStays(parse, s, steps[0], spoilt, p);
      AdmissionHolds(parse, Do(parse, s, steps[0]), steps[1..], spoilt + Spoils(s, steps[0]), p);
    }
  }

  lemma AdmissionNow(parse: Parser, s: Store, spoilt: set<string>, p: nat)
    requires Inv(parse, s, spoilt) && p in s.jobs && s.jobs[p].Admitting?
    ensures var job := s.jobs[p];
            Load(parse, FilesOf(s, job.digest), job.digest) == Success(job.seen) &&
            Admissible(job.seen, job.commit, job.platform, job.architecture)
  {
    hide Load, Admissible, Sound;
    assert JobOk(parse, s, s.jobs[p]);
  }

  lemma AdmissionStays(parse: Parser, s: Store, step: Step, spoilt: set<string>, p: nat)
    requires GoodParser(parse) && Inv(parse, s, spoilt) && Can(parse, s, step) && step != End(p)
    requires p in s.jobs && s.jobs[p].Admitting?
    ensures p in Do(parse, s, step).jobs && Do(parse, s, step).jobs[p] == s.jobs[p]
    ensures FilesOf(Do(parse, s, step), s.jobs[p].digest) == FilesOf(s, s.jobs[p].digest)
  {
    AdmissionIsLeftAlone(parse, s, step, spoilt, p);
    StepWrites(parse, s, step, spoilt, s.jobs[p].digest);
    hide Load, WithLock, WithCommit, WithDecision, GoodParser, Inv, FilesOf, Starts, LocksFree, Grown, Sound;
  }

  /** A package whose latest decision is not an approval keeps every admission of its lock out. */
  lemma UnapprovedIsRefused(parse: Parser, s: Store, p: nat, job: Job, i: nat)
    requires job.Admitting? && Can(parse, s, Begin(p, job)) && i < |job.seen.lock.packages|
    ensures var request := Load(parse, s.files[job.digest], job.digest).value;
            request == job.seen && Latest(request.history, request.lock.packages[i].name) == Some(Approve)
  {
    hide Load, Latest, ValidSha256;
    assert LatestIs(job.seen, i, Approve);
  }
}
