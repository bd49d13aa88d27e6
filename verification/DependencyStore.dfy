/**
 The review store of dependency locks: what one request's files load as, how registering
 and deciding rewrite them, and when a review counts as approved.
 */
module DependencyStore {
  import opened Wrappers
  import opened Text
  import opened Names
  import D = DependencyLock
  import opened DependencyJournal

  const MAX_LOCK := 256 * 1024
  const MAX_JOURNAL := 1024 * 1024
  const MAX_COMMITS_FILE := 16 * 1024

  datatype Lock = Lock(sha256: string, platform: string, architecture: string, packages: seq<D.Package>)

  datatype Request = Request(lock: Lock, history: seq<Decision>, commits: seq<string>)

  /** The files of one request; a file that is missing reads as empty. */
  datatype Files = Files(lock: string, journal: string, commits: string)

  const NO_FILES := Files("", "", "")

  datatype Fault =
    | TooBig | BadLock | Mismatch | BadHistory(journal: Problem) | BadList(commits: Problem)
    | Collision | NoPackage | Full | NotApproved | Disk

  /** parseCiDependencyLock, the digest it computes included. */
  type Parser = string -> Option<Lock>

  /** What the lock parser promises of whatever it accepts. */
  ghost predicate GoodParser(parse: Parser) {
    && parse("").None?
    && forall text :: parse(text).Some? ==>
         && |text| <= MAX_LOCK
         && ValidSha256(parse(text).value.sha256)
         && parse(text).value.packages != []
         && forall i | 0 <= i < |parse(text).value.packages| :: D.SafeToken(parse(text).value.packages[i].name)
  }

  function PackageNames(lock: Lock): set<string> {
    set p | p in lock.packages :: p.name
  }

  function Load(parse: Parser, files: Files, expected: string): Result<Request, Fault> {
    if |files.lock| > MAX_LOCK then Failure(TooBig)
    else
      match parse(files.lock)
      case None => Failure(BadLock)
      case Some(lock) =>
        if lock.sha256 != expected then Failure(Mismatch)
        else if |files.journal| > MAX_JOURNAL then Failure(TooBig)
        else
          match History(files.journal, PackageNames(lock), [])
          case Failure(problem) => Failure(BadHistory(problem))
          case Success(history) =>
            if |files.commits| > MAX_COMMITS_FILE then Failure(TooBig)
            else
              match Commits(files.commits, [])
              case Failure(problem) => Failure(BadList(problem))
              case Success(commits) => Success(Request(lock, history, commits))
  }

  // ----- review status ---------------------------------------------------------------------

  datatype Status = Pending | Rejected | Approved

  /** The last decision about a package. */
  function Latest(history: seq<Decision>, package: string): Option<Action>
    decreases |history|
  {
    if history == [] then None
    else if history[|history| - 1].package == package then Some(history[|history| - 1].action)
    else Latest(history[..|history| - 1], package)
  }

  predicate LatestIs(request: Request, i: nat, action: Action)
    requires i < |request.lock.packages|
  {
    Latest(request.history, request.lock.packages[i].name) == Some(action)
  }

  predicate Reviewable(request: Request) {
    request.lock.packages != [] && ValidSha256(request.lock.sha256)
  }

  predicate IsApproved(request: Request) {
    Reviewable(request) && forall i | 0 <= i < |request.lock.packages| :: LatestIs(request, i, Approve)
  }

  predicate IsRejected(request: Request) {
    Reviewable(request) && exists i | 0 <= i < |request.lock.packages| :: LatestIs(request, i, Reject)
  }

  /** ciDependencyApprovalStatus: the table of latest decisions, then one pass over the packages. */
  method ApprovalStatus(request: Request) returns (status: Status)
    ensures status == Approved <==> IsApproved(request)
    ensures status == Rejected <==> IsRejected(request)
  {
    hide ValidSha256;
    var packages, history := request.lock.packages, request.history;
    if packages == [] || !ValidSha256(request.lock.sha256) {
      return Pending;
    }
    var latest: map<string, Action> := map[];
    for i := 0 to |history|
      invariant forall name :: (if name in latest then Some(latest[name]) else None) == Latest(history[..i], name)
    {
      assert history[..i + 1][..i] == history[..i];
      latest := latest[history[i].package := history[i].action];
    }
    assert history[..|history|] == history;
    var pending := false;
    for i := 0 to |packages|
      invariant forall k | 0 <= k < i :: !LatestIs(request, k, Reject)
      invariant pending <==> exists k | 0 <= k < i :: !LatestIs(request, k, Approve)
    {
      var name := packages[i].name;
      if name in latest && latest[name] == Reject {
        assert LatestIs(request, i, Reject) && !LatestIs(request, i, Approve);
        return Rejected;
      }
      if name !in latest || latest[name] != Approve {
        assert !LatestIs(request, i, Approve);
        pending := true;
      }
    }
    return if pending then Pending else Approved;
  }

  /** A decision about one package settles that package and no other. */
  lemma DecisionSettles(history: seq<Decision>, d: Decision, package: string)
    ensures Latest(history + [d], package) == if package == d.package then Some(d.action) else Latest(history, package)
  {
    assert (history + [d])[..|history|] == history;
  }

  /**
   A decision about a package of the lock: the review is approved afterwards exactly when this
   approves and every other package was approved last, and rejected exactly when this rejects or
   some other package was rejected last.
   */
  lemma DecisionDecides(request: Request, d: Decision, k: nat)
    requires k < |request.lock.packages| && request.lock.packages[k].name == d.package
    ensures var after, packages := request.(history := request.history + [d]), request.lock.packages;
            && (IsApproved(after) <==>
                  Reviewable(request) && d.action == Approve &&
                  forall i | 0 <= i < |packages| && packages[i].name != d.package :: LatestIs(request, i, Approve))
            && (IsRejected(after) <==>
                  Reviewable(request) &&
                  (d.action == Reject ||
                   exists i | 0 <= i < |packages| :: packages[i].name != d.package && LatestIs(request, i, Reject)))
  {
    hide ValidSha256;
    var after, packages := request.(history := request.history + [d]), request.lock.packages;
    forall i, x | 0 <= i < |packages|
      ensures LatestIs(after, i, x) <==>
              if packages[i].name == d.package then d.action == x else LatestIs(request, i, x)
    {
      DecisionSettles(request.history, d, packages[i].name);
    }
    hide LatestIs;
    assert LatestIs(after, k, d.action) && (LatestIs(after, k, Approve) <==> d.action == Approve);
    if d.action != Reject && IsRejected(request) {
      forall i | 0 <= i < |packages| && packages[i].name != d.package && LatestIs(request, i, Reject)
        ensures LatestIs(after, i, Reject)
      {
      }
    }
  }

  // ----- what the operations write ---------------------------------------------------------------

  /** The lock file, written once and never replaced. */
  function WithLock(files: Files, bytes: string): Result<Files, Fault> {
    if |files.lock| > MAX_LOCK then Failure(TooBig)
    else if files.lock != "" && files.lock != bytes then Failure(Collision)
    else Success(files.(lock := bytes))
  }

  function WithCommit(parse: Parser, files: Files, digest: string, commit: string): Result<Files, Fault> {
    match Load(parse, files, digest)
    case Failure(fault) => Failure(fault)
    case Success(request) =>
      if commit == "" || commit in request.commits then Success(files)
      else if |request.commits| >= MAX_COMMITS then Failure(Full)
      else Success(files.(commits := files.commits + commit + "\n"))
  }

  function WithDecision(
      parse: Parser, files: Files, digest: string, package: string, action: Action, now: int, uid: U64)
    : Result<Files, Fault>
  {
    match Load(parse, files, digest)
    case Failure(fault) => Failure(fault)
    case Success(request) =>
      if package !in PackageNames(request.lock) then Failure(NoPackage)
      else if |request.history| >= MAX_DECISIONS then Failure(Full)
      else
        var journal := files.journal + Row(|request.history| + 1, now, uid, package, action) + "\n";
        if |journal| > MAX_JOURNAL then Failure(Full) else Success(files.(journal := journal))
  }

  /** The check of an admission. */
  predicate Admissible(request: Request, commit: string, platform: string, architecture: string) {
    IsApproved(request) && commit in request.commits && request.lock.platform == platform &&
        request.lock.architecture == architecture
  }

  // ----- what is written loads again ----------------------------------------------------------------

  lemma SafeIsPlain(name: string)
    requires D.SafeToken(name)
    ensures Plain(name)
  {
  }

  lemma LoadParts(parse: Parser, files: Files, digest: string, request: Request)
    ensures Load(parse, files, digest) == Success(request) <==>
            && |files.lock| <= MAX_LOCK && |files.journal| <= MAX_JOURNAL && |files.commits| <= MAX_COMMITS_FILE
            && parse(files.lock) == Some(request.lock) && request.lock.sha256 == digest
            && History(files.journal, PackageNames(request.lock), []) == Success(request.history)
            && Commits(files.commits, []) == Success(request.commits)
  {
    hide History, Commits, PackageNames;
  }

  /** What every record that loads is like. */
  lemma LoadedIsBounded(parse: Parser, files: Files, digest: string, request: Request)
    requires Load(parse, files, digest) == Success(request)
    ensures Contiguous(request.history, PackageNames(request.lock))
    ensures CommitsOk(request.commits) && files.commits == Unlines(request.commits)
  {
    hide History, Commits, Unlines;
    HistoryIsContiguous(files.journal, PackageNames(request.lock), [], request.history);
    NothingYet();
    CommitsIff(files.commits, [], request.commits);
    assert request.commits[0..] == request.commits;
  }

  lemma NothingYet()
    ensures CommitsOk([])
  {
  }

  /** The first lock file of a request makes a record that loads, without decisions or commits. */
  lemma NewLockLoads(parse: Parser, bytes: string)
    requires GoodParser(parse) && parse(bytes).Some?
    ensures WithLock(NO_FILES, bytes) == Success(Files(bytes, "", ""))
    ensures Load(parse, Files(bytes, "", ""), parse(bytes).value.sha256) == Success(Request(parse(bytes).value, [], []))
  {
  }

  /** Registering a commit leaves a record that loads as before, the commit added if it was new. */
  lemma CommitLoads(parse: Parser, files: Files, digest: string, commit: string, request: Request)
    requires Load(parse, files, digest) == Success(request) && (commit == "" || ValidObjectId(commit))
    ensures var r := WithCommit(parse, files, digest, commit);
            && (r.Failure? <==> commit != "" && commit !in request.commits && |request.commits| == MAX_COMMITS)
            && (r.Success? ==>
                  Load(parse, r.value, digest) ==
                  Success(request.(commits := if commit == "" || commit in request.commits then
                      request.commits else request.commits + [commit])))
  {
    hide History, Commits, PackageNames, Unlines;
    LoadedIsBounded(parse, files, digest, request);
    if commit != "" && commit !in request.commits && |request.commits| < MAX_COMMITS {
      CommitsAppend(files.commits, request.commits, commit);
      CommitsFit(request.commits);
      LoadParts(parse, files, digest, request);
    }
  }

  lemma CommitsFit(commits: seq<string>)
    requires CommitsOk(commits) && |commits| < MAX_COMMITS
    ensures |Unlines(commits)| + 65 <= MAX_COMMITS_FILE
  {
    hide HexText;
    CommitsAreShort(commits);
  }

  /**
   A decision that is written leaves a record that loads exactly when the clock does not
   stand before 1970; then the history has gained that decision and nothing else changed.
   */
  lemma DecisionLoadsIff(
      parse: Parser, files: Files, digest: string, package: string, action: Action, now: int, uid: U64,
      request: Request)
    requires GoodParser(parse) && Load(parse, files, digest) == Success(request) && now < U64_LIMIT
    requires WithDecision(parse, files, digest, package, action, now, uid).Success?
    ensures var after := Load(parse, WithDecision(parse, files, digest, package, action, now, uid).value, digest);
            && (after.Success? <==> now >= 0)
            && (after.Success? ==>
                  var d := Decision(|request.history| + 1, now, uid, package, action);
                  after.value == request.(history := request.history + [d]))
  {
    hide History, Commits, Row, Plain, D.SafeToken;
    PlainPackage(parse, files.lock, package);
    LoadParts(parse, files, digest, request);
    JournalAppend(files.journal, PackageNames(request.lock), request.history, now, uid, package, action);
  }

  lemma PlainPackage(parse: Parser, bytes: string, package: string)
    requires GoodParser(parse) && parse(bytes).Some? && package in PackageNames(parse(bytes).value)
    ensures Plain(package)
  {
    hide Plain, D.SafeToken;
    var packages := parse(bytes).value.packages;
    var i :| 0 <= i < |packages| && packages[i].name == package;
    SafeIsPlain(packages[i].name);
  }

  // ----- the operations -----------------------------------------------------------------------------------

  /** How replacing a file can end: stored, not stored, or stored with a failure reported all the same. */
  datatype Written = Stored | Refused | StoredLate

  /** One request's directory, under its exclusive lock. */
  class Directory {
    var lock: string
    var journal: string
    var commits: string

    ghost function Value(): Files
      reads this
    {
      Files(lock, journal, commits)
    }

    constructor ()
      ensures Value() == NO_FILES
    {
      lock, journal, commits := "", "", "";
    }

    method LoadRequest(parse: Parser, expected: string) returns (r: Result<Request, Fault>)
      ensures r == Load(parse, Value(), expected)
    {
      hide History, Commits;
      if |lock| > MAX_LOCK {
        return Failure(TooBig);
      }
      var parsed := parse(lock);
      if parsed.None? {
        return Failure(BadLock);
      }
      if parsed.value.sha256 != expected {
        return Failure(Mismatch);
      }
      if |journal| > MAX_JOURNAL {
        return Failure(TooBig);
      }
      var events := ReadHistory(journal, PackageNames(parsed.value));
      if events.Failure? {
        return Failure(BadHistory(events.error));
      }
      if |commits| > MAX_COMMITS_FILE {
        return Failure(TooBig);
      }
      var list := ReadCommits(commits);
      if list.Failure? {
        return Failure(BadList(list.error));
      }
      return Success(Request(parsed.value, events.value, list.value));
    }

    /** Writes the lock unless it is there, then adds the commit unless it is listed; every write may fail. */
    method Register(parse: Parser, bytes: string, commit: string, onLock: Written, onCommits: Written)
      returns (r: Result<string, Fault>)
      requires parse(bytes).Some?
      modifies this
      ensures var digest := parse(bytes).value.sha256;
              var first := if old(lock) == "" &&
                  onLock.Refused? then Success(old(Value())) else WithLock(old(Value()), bytes);
              if first.Failure? then r == Failure(first.error) && Value() == old(Value())
              else if old(lock) == "" && !onLock.Stored? then r == Failure(Disk) && Value() == first.value
              else
                var second := WithCommit(parse, first.value, digest, commit);
                if second.Failure? then r == Failure(second.error) && Value() == first.value
                else if second.value != first.value && !onCommits.Stored? then
                  r == Failure(Disk) && Value() == if onCommits.Refused? then first.value else second.value
                else r == Success(digest) && Value() == second.value
    {
      hide Load;
      var digest := parse(bytes).value.sha256;
      if |lock| > MAX_LOCK {
        return Failure(TooBig);
      }
      if lock != "" && lock != bytes {
        return Failure(Collision);
      }
      if lock == "" {
        if !onLock.Refused? {
          lock := bytes;
        }
        if !onLock.Stored? {
          return Failure(Disk);
        }
      }
      var record := LoadRequest(parse, digest);
      if record.Failure? {
        return Failure(record.error);
      }
      if commit != "" && commit !in record.value.commits {
        if |record.value.commits| >= MAX_COMMITS {
          return Failure(Full);
        }
        assert commits + commit + "\n" != commits by {
          assert |commits + commit + "\n"| > |commits|;
        }
        if !onCommits.Refused? {
          commits := commits + commit + "\n";
        }
        if !onCommits.Stored? {
          return Failure(Disk);
        }
      }
      return Success(digest);
    }

    method Decide(
        parse: Parser, digest: string, package: string, action: Action, now: int, uid: U64, onJournal: Written)
      returns (r: Result<(), Fault>)
      modifies this
      ensures var after := WithDecision(parse, old(Value()), digest, package, action, now, uid);
              if after.Failure? then r == Failure(after.error) && Value() == old(Value())
              else
                && (r.Success? <==> onJournal.Stored?)
                && Value() == if onJournal.Refused? then old(Value()) else after.value
    {
      hide Load, Row;
      var record := LoadRequest(parse, digest);
      if record.Failure? {
        return Failure(record.error);
      }
      if package !in PackageNames(record.value.lock) {
        return Failure(NoPackage);
      }
      if |record.value.history| >= MAX_DECISIONS {
        return Failure(Full);
      }
      var bytes := journal + Row(|record.value.history| + 1, now, uid, package, action) + "\n";
      if |bytes| > MAX_JOURNAL {
        return Failure(Full);
      }
      if !onJournal.Refused? {
        journal := bytes;
      }
      return if onJournal.Stored? then Success(()) else Failure(Disk);
    }
  }
}
