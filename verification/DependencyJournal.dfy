/**
 The two text files of a dependency review: the journal of decisions, one tab-separated
 row each, and the list of commits that asked for the review. What the store appends
 always reads back as what was there and the new entry.
 */
module DependencyJournal {
  import opened Wrappers
  import opened Text
  import opened Names

  const MAX_DECISIONS := 4096
  const MAX_COMMITS := 128

  datatype Action = Approve | Reject | Revoke

  datatype Decision = Decision(sequence: nat, epoch: U64, uid: U64, package: string, action: Action)

  datatype Problem = Truncated | BadNumber | BadJournal | BadDecision | BadCommits | BadCommit

  function ActionName(action: Action): string {
    match action
    case Approve => "approve"
    case Reject => "reject"
    case Revoke => "revoke"
  }

  function ActionFromName(name: string): Option<Action> {
    if name == "approve" then Some(Approve)
    else if name == "reject" then Some(Reject)
    else if name == "revoke" then Some(Revoke)
    else None
  }

  // ----- the journal ------------------------------------------------------------------------

  /** Reads the row that stands behind `index` decisions. */
  function RowOf(row: string, names: set<string>, index: nat): Result<Decision, Problem> {
    var f := Split(row, '\t');
    if |f| != 5 || index >= MAX_DECISIONS then Failure(BadJournal)
    else
      match (ParseU64(f[0]), ParseU64(f[1]), ParseU64(f[2]))
      case (Some(sequence), Some(epoch), Some(uid)) =>
        var action := ActionFromName(f[4]);
        if sequence != index + 1 || f[3] !in names || action.None? then Failure(BadDecision)
        else Success(Decision(sequence, epoch, uid, f[3], action.value))
      case _ => Failure(BadNumber)
  }

  function History(bytes: string, names: set<string>, done: seq<Decision>): Result<seq<Decision>, Problem>
    decreases |bytes|
  {
    if bytes == "" then Success(done)
    else
      var end := Find(bytes, '\n');
      if end == |bytes| then Failure(Truncated)
      else
        match RowOf(bytes[..end], names, |done|)
        case Failure(problem) => Failure(problem)
        case Success(d) => History(bytes[end + 1..], names, done + [d])
  }

  /** A row as a decision writes it; the clock and the user may be any integer. */
  function Row(sequence: nat, now: int, uid: nat, package: string, action: Action): string {
    Join([Decimal(sequence), Signed(now), Decimal(uid), package, ActionName(action)], '\t')
  }

  predicate Contiguous(history: seq<Decision>, names: set<string>) {
    && |history| <= MAX_DECISIONS
    && forall i | 0 <= i < |history| :: history[i].sequence == i + 1 && history[i].package in names
  }

  lemma RowIsNext(row: string, names: set<string>, index: nat)
    requires RowOf(row, names, index).Success?
    ensures var d := RowOf(row, names, index).value;
            d.sequence == index + 1 <= MAX_DECISIONS && d.package in names
  {
    hide Split, ParseU64, ActionFromName;
  }

  /**
   Whatever journal loads: its decisions are numbered from 1 without a gap, and each is about a
   package of the lock.
   */
  lemma {:induction false} HistoryIsContiguous(
      bytes: string, names: set<string>, done: seq<Decision>, all: seq<Decision>)
    requires Contiguous(done, names) && History(bytes, names, done) == Success(all)
    ensures Contiguous(all, names) && |done| <= |all| && all[..|done|] == done
    decreases |bytes|
  {
    hide RowOf;
    if bytes != "" {
      var end := Find(bytes, '\n');
      var d := RowOf(bytes[..end], names, |done|).value;
      RowIsNext(bytes[..end], names, |done|);
      HistoryIsContiguous(bytes[end + 1..], names, done + [d], all);
      assert all[..|done|] == all[..|done| + 1][..|done|];
    }
  }

  lemma FindMore(a: string, c: char, b: string)
    ensures Find(a, c) < |a| ==> Find(a + b, c) == Find(a, c)
  {
    var i, j := Find(a, c), Find(a + b, c);
    if i < |a| {
      assert (a + b)[i] == c;
      assert forall k | 0 <= k < i :: (a + b)[k] == a[k];
    }
  }

  /** A journal that loads can be read on from its end. */
  lemma {:induction false} HistoryGoesOn(
      a: string, b: string, names: set<string>, done: seq<Decision>, all: seq<Decision>)
    requires History(a, names, done) == Success(all)
    ensures History(a + b, names, done) == History(b, names, all)
    decreases |a|
  {
    hide RowOf;
    if a == "" {
      assert a + b == b;
    } else {
      var end := Find(a, '\n');
      FindMore(a, '\n', b);
      assert (a + b)[..end] == a[..end];
      assert (a + b)[end + 1..] == a[end + 1..] + b;
      HistoryGoesOn(a[end + 1..], b, names, done + [RowOf(a[..end], names, |done|).value], all);
    }
  }

  lemma OneRow(row: string, names: set<string>, done: seq<Decision>)
    requires Free(row, '\n')
    ensures History(row + "\n", names, done) ==
            match RowOf(row, names, |done|)
            case Failure(problem) => Failure(problem)
            case Success(d) => Success(done + [d])
  {
    hide RowOf;
    FindIn(row, '\n', "");
    var s := row + "\n";
    assert row + ['\n'] + "" == s;
    assert s[..|row|] == row && s[|row| + 1..] == "";
  }

  /** A package name that can be a field of a row. */
  predicate Plain(name: string) {
    Free(name, '\t') && Free(name, '\n')
  }

  lemma RowParts(sequence: nat, now: int, uid: nat, package: string, action: Action)
    requires Plain(package)
    ensures var parts := [Decimal(sequence), Signed(now), Decimal(uid), package, ActionName(action)];
            AllFree(parts, '\t') && AllFree(parts, '\n')
  {
    hide Decimal, Signed;
    DecimalFree(sequence, '\t');
    DecimalFree(sequence, '\n');
    SignedFree(now, '\t');
    SignedFree(now, '\n');
    DecimalFree(uid, '\t');
    DecimalFree(uid, '\n');
  }

  lemma U64OfDecimal(n: U64)
    ensures ParseU64(Decimal(n)) == Some(n)
  {
    NumberRoundTrip(Decimal(n), n);
  }

  lemma U64OfSigned(now: int)
    requires now < U64_LIMIT
    ensures ParseU64(Signed(now)) == if now >= 0 then Some(now) else None
  {
    if now >= 0 {
      U64OfDecimal(now);
    } else {
      assert Signed(now)[0] == '-';
    }
  }

  lemma ActionRoundTrip(action: Action)
    ensures ActionFromName(ActionName(action)) == Some(action)
  {
  }

  /**
   The written row reads back as the decision, next in number, exactly when the journal has
   room and the clock does not stand before 1970.
   */
  lemma RowReadsBack(now: int, uid: U64, package: string, action: Action, names: set<string>, index: nat)
    requires Plain(package) && package in names && now < U64_LIMIT && index <= MAX_DECISIONS
    ensures var r := RowOf(Row(index + 1, now, uid, package, action), names, index);
            && (r.Success? <==> index < MAX_DECISIONS && now >= 0)
            && (r.Success? ==> r.value == Decision(index + 1, now, uid, package, action))
  {
    var parts := [Decimal(index + 1), Signed(now), Decimal(uid), package, ActionName(action)];
    hide Decimal, Signed, Split, Join, ParseU64, ActionName, ActionFromName;
    RowParts(index + 1, now, uid, package, action);
    SplitJoin(parts, '\t');
    U64OfDecimal(index + 1);
    U64OfDecimal(uid);
    U64OfSigned(now);
    ActionRoundTrip(action);
  }

  lemma RowIsOneLine(sequence: nat, now: int, uid: nat, package: string, action: Action)
    requires Plain(package)
    ensures Free(Row(sequence, now, uid, package, action), '\n')
  {
    hide Decimal, Signed, Join, ActionName;
    RowParts(sequence, now, uid, package, action);
    JoinFree([Decimal(sequence), Signed(now), Decimal(uid), package, ActionName(action)], '\t', '\n');
  }

  /** The old journal and one written row load as the old history and that decision -- or not at all. */
  lemma JournalAppend(
      bytes: string, names: set<string>, history: seq<Decision>, now: int, uid: U64, package: string, action: Action)
    requires History(bytes, names, []) == Success(history)
    requires Plain(package) && package in names && now < U64_LIMIT && |history| <= MAX_DECISIONS
    ensures var r := History(bytes + Row(|history| + 1, now, uid, package, action) + "\n", names, []);
            && (r.Success? <==> |history| < MAX_DECISIONS && now >= 0)
            && (r.Success? ==> r.value == history + [Decision(|history| + 1, now, uid, package, action)])
  {
    hide RowOf, Row, History;
    var row := Row(|history| + 1, now, uid, package, action);
    RowIsOneLine(|history| + 1, now, uid, package, action);
    HistoryGoesOn(bytes, row + "\n", names, [], history);
    assert bytes + row + "\n" == bytes + (row + "\n");
    OneRow(row, names, history);
    RowReadsBack(now, uid, package, action, names, |history|);
  }

  // ----- the commits -----------------------------------------------------------------------------

  function Commits(bytes: string, done: seq<string>): Result<seq<string>, Problem>
    decreases |bytes|
  {
    if bytes == "" then Success(done)
    else
      var end := Find(bytes, '\n');
      if end == |bytes| || |done| >= MAX_COMMITS then Failure(BadCommits)
      else if !ValidObjectId(bytes[..end]) || bytes[..end] in done then Failure(BadCommit)
      else Commits(bytes[end + 1..], done + [bytes[..end]])
  }

  predicate CommitsOk(commits: seq<string>) {
    && |commits| <= MAX_COMMITS
    && (forall i | 0 <= i < |commits| :: ValidObjectId(commits[i]))
    && forall i, j | 0 <= i < j < |commits| :: commits[i] != commits[j]
  }

  /** `bytes` are the lines of `all` after those of `done`. */
  predicate Listed(bytes: string, done: seq<string>, all: seq<string>) {
    |done| <= |all| && all[..|done|] == done && CommitsOk(all) && bytes == Unlines(all[|done|..])
  }

  /** A list of commits loads exactly when it is one object id a line, all distinct and at most 128. */
  lemma {:induction false} CommitsIff(bytes: string, done: seq<string>, all: seq<string>)
    requires CommitsOk(done)
    ensures Commits(bytes, done) == Success(all) <==> Listed(bytes, done, all)
    decreases |bytes|
  {
    hide ValidObjectId, Listed, CommitsOk, Find;
    if bytes == "" {
      NoneListed(done, all);
    } else {
      var end := Find(bytes, '\n');
      if Commits(bytes, done) == Success(all) {
        CommitsOkStep(done, bytes[..end]);
        CommitsIff(bytes[end + 1..], done + [bytes[..end]], all);
        CommitTaken(bytes, done, all);
      }
      if Listed(bytes, done, all) {
        CommitNext(bytes, done, all);
        CommitsIff(bytes[end + 1..], done + [bytes[..end]], all);
      }
    }
  }

  lemma NoneListed(done: seq<string>, all: seq<string>)
    requires CommitsOk(done)
    ensures Listed("", done, all) <==> all == done
  {
    hide CommitsOk;
    if Listed("", done, all) {
      assert all[|done|..] == [];
    }
    assert all == done ==> all[|done|..] == [];
  }

  lemma CommitsOkStep(done: seq<string>, commit: string)
    requires CommitsOk(done)
    ensures CommitsOk(done + [commit]) <==> |done| < MAX_COMMITS && ValidObjectId(commit) && commit !in done
  {
    hide ValidObjectId;
    var more := done + [commit];
    assert more[|done|] == commit;
    assert forall i | 0 <= i < |done| :: more[i] == done[i];
  }

  lemma LineInFront(bytes: string, end: nat, all: seq<string>, n: nat)
    requires end < |bytes| && bytes[end] == '\n' && n < |all| && all[n] == bytes[..end]
    requires bytes[end + 1..] == Unlines(all[n + 1..])
    ensures bytes == Unlines(all[n..])
  {
    hide *;
    var line, rest := all[n], all[n + 1..];
    assert all[n..] == [line] + rest;
    UnlinesCons(line, rest);
    CutAt(bytes, end);
  }

  lemma PrefixTaken(done: seq<string>, commit: string, all: seq<string>)
    requires |done| < |all| && all[..|done| + 1] == done + [commit]
    ensures all[..|done|] == done && all[|done|] == commit
  {
    hide *;
    assert all[..|done|] == all[..|done| + 1][..|done|];
    assert all[|done|] == all[..|done| + 1][|done|];
  }

  lemma CommitTaken(bytes: string, done: seq<string>, all: seq<string>)
    requires bytes != "" && Find(bytes, '\n') < |bytes|
    requires Listed(bytes[Find(bytes, '\n') + 1..], done + [bytes[..Find(bytes, '\n')]], all)
    ensures Listed(bytes, done, all)
  {
    hide CommitsOk, Find, Unlines;
    var end := Find(bytes, '\n');
    PrefixTaken(done, bytes[..end], all);
    LineInFront(bytes, end, all, |done|);
  }

  lemma HexHasNoNewline(s: string)
    requires ValidObjectId(s)
    ensures Free(s, '\n')
  {
  }

  /** The first line of a text of lines. */
  lemma FirstLine(line: string, rest: seq<string>)
    requires Free(line, '\n')
    ensures var bytes := Unlines([line] + rest);
            var end := Find(bytes, '\n');
            end < |bytes| && bytes[..end] == line && bytes[end + 1..] == Unlines(rest)
  {
    hide Unlines;
    UnlinesCons(line, rest);
    FindIn(line, '\n', Unlines(rest));
    assert line + "\n" + Unlines(rest) == line + ['\n'] + Unlines(rest);
  }

  lemma CommitsOkPrefix(all: seq<string>, n: nat)
    requires CommitsOk(all) && n < |all|
    ensures CommitsOk(all[..n]) && CommitsOk(all[..n + 1]) && ValidObjectId(all[n])
  {
    hide ValidObjectId;
  }

  lemma ListedGoesOn(bytes: string, done: seq<string>, all: seq<string>)
    requires bytes != "" && Listed(bytes, done, all)
    ensures |all| > |done|
  {
    hide CommitsOk;
    assert all[|done|..] != [];
  }

  lemma CommitNextText(bytes: string, all: seq<string>, n: nat)
    requires n < |all| && bytes == Unlines(all[n..]) && Free(all[n], '\n')
    ensures var end := Find(bytes, '\n');
            end < |bytes| && bytes[..end] == all[n] && bytes[end + 1..] == Unlines(all[n + 1..])
  {
    hide *;
    var line, rest := all[n], all[n + 1..];
    assert all[n..] == [line] + rest;
    FirstLine(line, rest);
  }

  lemma CommitNextOk(done: seq<string>, all: seq<string>)
    requires |done| < |all| && all[..|done|] == done && CommitsOk(all)
    ensures var commit := all[|done|];
            && CommitsOk(done + [commit]) && all[..|done| + 1] == done + [commit]
            && |done| < MAX_COMMITS && ValidObjectId(commit) && commit !in done
  {
    hide CommitsOk, ValidObjectId;
    CommitsOkPrefix(all, |done|);
    assert all[..|done| + 1] == done + [all[|done|]];
    CommitsOkStep(done, all[|done|]);
  }

  lemma CommitNext(bytes: string, done: seq<string>, all: seq<string>)
    requires bytes != "" && Listed(bytes, done, all)
    ensures var end := Find(bytes, '\n');
            && end < |bytes| && CommitsOk(done + [bytes[..end]])
            && |done| < MAX_COMMITS && ValidObjectId(bytes[..end]) && bytes[..end] !in done
            && Listed(bytes[end + 1..], done + [bytes[..end]], all)
  {
    hide CommitsOk, ValidObjectId, Find, Unlines, Free;
    ListedGoesOn(bytes, done, all);
    CommitNextOk(done, all);
    HexHasNoNewline(all[|done|]);
    CommitNextText(bytes, all, |done|);
  }

  /** A new commit at the end of a list that loads. */
  lemma CommitsAppend(bytes: string, commits: seq<string>, commit: string)
    requires Commits(bytes, []) == Success(commits) && ValidObjectId(commit) && commit !in commits &&
             |commits| < MAX_COMMITS
    ensures Commits(bytes + commit + "\n", []) == Success(commits + [commit])
  {
    hide ValidObjectId, Unlines;
    var more := commits + [commit];
    assert CommitsOk([]);
    hide CommitsOk;
    assert commits[0..] == commits && more[0..] == more;
    CommitsIff(bytes, [], commits);
    CommitsIff(bytes + commit + "\n", [], more);
    CommitsOkStep(commits, commit);
    UnlinesOne(commits, commit);
  }

  /** A list of commits that loads can be read on from its end. */
  lemma {:induction false} CommitsGoOn(a: string, b: string, done: seq<string>, all: seq<string>)
    requires Commits(a, done) == Success(all)
    ensures Commits(a + b, done) == Commits(b, all)
    decreases |a|
  {
    hide ValidObjectId;
    if a == "" {
      assert a + b == b;
    } else {
      var end := Find(a, '\n');
      FindMore(a, '\n', b);
      assert (a + b)[..end] == a[..end];
      assert (a + b)[end + 1..] == a[end + 1..] + b;
      CommitsGoOn(a[end + 1..], b, done + [a[..end]], all);
    }
  }

  lemma {:induction false} CommitsAreShort(commits: seq<string>)
    requires forall i | 0 <= i < |commits| :: |commits[i]| <= 64
    ensures |Unlines(commits)| <= 65 * |commits|
  {
    if commits != [] {
      CommitsAreShort(commits[1..]);
    }
  }

  // ----- the loops of the source --------------------------------------------------------------------

  method ReadHistory(bytes: string, names: set<string>) returns (r: Result<seq<Decision>, Problem>)
    ensures r == History(bytes, names, [])
  {
    hide RowOf, Find;
    var rest, result := bytes, [];
    while rest != ""
      invariant History(bytes, names, []) == History(rest, names, result)
      decreases |rest|
    {
      var end := Find(rest, '\n');
      if end == |rest| {
        return Failure(Truncated);
      }
      var d := ReadRow(rest[..end], names, |result|);
      if d.Failure? {
        return Failure(d.error);
      }
      rest, result := rest[end + 1..], result + [d.value];
    }
    return Success(result);
  }

  method ReadRow(row: string, names: set<string>, index: nat) returns (r: Result<Decision, Problem>)
    ensures r == RowOf(row, names, index)
  {
    hide Split, ParseU64, ActionFromName;
    var f := SplitFields(row, '\t');
    if |f| != 5 || index >= MAX_DECISIONS {
      return Failure(BadJournal);
    }
    var sequence, epoch, uid := ParseU64(f[0]), ParseU64(f[1]), ParseU64(f[2]);
    if sequence.None? || epoch.None? || uid.None? {
      return Failure(BadNumber);
    }
    var action := ActionFromName(f[4]);
    if sequence.value != index + 1 || f[3] !in names || action.None? {
      return Failure(BadDecision);
    }
    return Success(Decision(sequence.value, epoch.value, uid.value, f[3], action.value));
  }

  method ReadCommits(bytes: string) returns (r: Result<seq<string>, Problem>)
    ensures r == Commits(bytes, [])
  {
    hide ValidObjectId, Find;
    var rest, commits, unique := bytes, [], {};
    while rest != ""
      invariant Commits(bytes, []) == Commits(rest, commits)
      invariant forall c :: c in unique <==> c in commits
      decreases |rest|
    {
      var end := Find(rest, '\n');
      if end == |rest| || |commits| >= MAX_COMMITS {
        return Failure(BadCommits);
      }
      var commit := rest[..end];
      if !ValidObjectId(commit) || commit in unique {
        return Failure(BadCommit);
      }
      commits, unique := commits + [commit], unique + {commit};
      rest := rest[end + 1..];
    }
    return Success(commits);
  }
}
