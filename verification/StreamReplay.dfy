/**
 Reconnecting and resending change nothing: a run whose frames reach the host in order,
 with any number of broken connections and any amount of resending, ends with the record
 and the logs of one undisturbed delivery.
 */
module StreamReplay {
  import opened Wrappers
  import opened Text
  import opened Records
  import opened StreamSession
  import ExecutionReport

  /** No short writes, and no lost lease. */
  ghost predicate Healthy(env: Env) {
    && WritesComplete(env)
    && (forall n: nat :: env.renews(n))
  }

  predicate Sound(f: Frame) {
    match f
    case Line(tokens) => |tokens| > 0
    case Log(_, _, bytes) => |bytes| <= MAX_LOG_FRAME
  }

  /** The part of the state that only ever grows. */
  datatype Grown = Grown(status: RunStatus, finished: U64, steps: seq<StepResult>, logs: map<nat, string>)

  function GrownOf(s: Session): Grown {
    Grown(s.record.status, s.record.finished, s.record.steps, s.logs)
  }

  /** The kinds of line that change something. */
  datatype Kind = Started(epoch: U64) | StepStart(index: U64) | StepEnd(index: U64) | Report | Detail | Neutral

  function KindOf(f: Frame): Kind
    requires f.Line? ==> |f.tokens| > 0
  {
    match f
    case Log(_, _, _) => Neutral
    case Line(t) =>
      if t[0] == "started" && |t| == 2 && ParseU64(t[1]).Some? then Started(ParseU64(t[1]).value)
      else if t[0] == "execution" && |t| == 2 then Report
      else if t[0] == "step-start" && |t| == 3 && ParseU64(t[1]).Some? then StepStart(ParseU64(t[1]).value)
      else if t[0] == "step-end" && |t| == 6 && ParseU64(t[1]).Some? then StepEnd(ParseU64(t[1]).value)
      else if t[0] == "progress" && |t| == 2 then Detail
      else Neutral
  }

  /** A frame that follows on what the session already has: no step and no byte is skipped. */
  predicate FollowsOn(s: Session, f: Frame)
    requires Sound(f)
  {
    match f
    case Log(index, offset, _) => offset <= |LogOf(s.logs, index)|
    case Line(_) =>
      match KindOf(f)
      case Started(epoch) => epoch != 0
      case StepStart(index) => index <= |s.record.steps|
      case StepEnd(index) => index <= |s.record.steps|
      case _ => true
  }

  /** A frame whose growth has happened: another delivery adds nothing. */
  predicate Settled(maxLog: nat, g: Grown, f: Frame)
    requires Sound(f)
  {
    match f
    case Log(index, offset, bytes) =>
      var size := |LogOf(g.logs, index)|;
      index <= |g.steps| && index <= MAX_STEPS && offset <= size && !Opens(maxLog, size, offset, bytes)
    case Line(_) =>
      match KindOf(f)
      case Started(_) => g.status == Running && g.finished == 0
      case StepStart(index) => index < |g.steps| || (index == |g.steps| && g.status == Running && index in g.logs)
      case StepEnd(index) => index < |g.steps| || |g.steps| >= MAX_STEPS
      case _ => true
  }

  /** What a frame does to the growing part, when it follows on. */
  function Grow(maxLog: nat, g: Grown, f: Frame): Grown
    requires Sound(f)
  {
    match f
    case Log(index, offset, bytes) =>
      var log := LogOf(g.logs, index);
      if Opens(maxLog, |log|, offset, bytes)
      then g.(logs := g.logs[index := log + Fresh(maxLog, |log|, offset, bytes)]) else g
    case Line(t) =>
      match KindOf(f)
      case Started(_) => g.(status := Running, finished := 0)
      case StepStart(index) =>
        if index == |g.steps| then g.(status := Running, logs := g.logs[index := LogOf(g.logs, index)]) else g
      case StepEnd(index) =>
        if index == |g.steps| < MAX_STEPS && StreamSession.StepEnd(t).Success?
        then g.(steps := g.steps + [StreamSession.StepEnd(t).value]) else g
      case _ => g
  }

  lemma ApplyGrows(env: Env, s: Session, f: Frame)
    requires Healthy(env) && Sound(f) && Apply(env, s, f).Continue?
    ensures GrownOf(Apply(env, s, f).s) == Grow(env.maxLog, GrownOf(s), f)
  {
    hide ParseU64, FromHexOrDash, ExecutionReport.Parse, StreamSession.StepEnd;
    if f.Log? && f.offset <= |LogOf(s.logs, f.index)| {
      var log := LogOf(s.logs, f.index);
      assert |Fresh(env.maxLog, |log|, f.offset, f.bytes)| <= MAX_LOG_FRAME;
    }
  }

  /** Once delivered in its place, a frame is settled. */
  lemma GrowSettles(env: Env, s: Session, f: Frame)
    requires Healthy(env) && Sound(f) && FollowsOn(s, f) && Apply(env, s, f).Continue?
    ensures Settled(env.maxLog, Grow(env.maxLog, GrownOf(s), f), f)
  {
    hide ParseU64, FromHexOrDash, ExecutionReport.Parse, StreamSession.StepEnd;
  }

  /** A settled frame stays settled whatever comes. */
  lemma SettledStays(maxLog: nat, g: Grown, f: Frame, other: Frame)
    requires Sound(f) && Sound(other) && Settled(maxLog, g, f)
    ensures Settled(maxLog, Grow(maxLog, g, other), f)
  {
    hide ParseU64, StreamSession.StepEnd;
  }

  /** A settled frame grows nothing, and the session takes it without fault. */
  lemma SettledIsAbsorbed(maxLog: nat, g: Grown, f: Frame)
    requires Sound(f) && Settled(maxLog, g, f)
    ensures Grow(maxLog, g, f) == g
  {
    hide ParseU64, StreamSession.StepEnd;
    if f.Line? && KindOf(f).StepStart? && KindOf(f).index == |g.steps| {
      var index: nat := KindOf(f).index;
      assert g.logs[index := LogOf(g.logs, index)] == g.logs;
    }
  }

  /** Whether a session takes a frame depends on the growing part alone. */
  lemma SameGrowthSameFate(env: Env, x: Session, y: Session, f: Frame)
    requires Healthy(env) && Sound(f) && GrownOf(x) == GrownOf(y)
    ensures Apply(env, x, f).Continue? <==> Apply(env, y, f).Continue?
  {
    hide ParseU64, FromHexOrDash, ExecutionReport.Parse, StreamSession.StepEnd;
  }

  lemma SettledIsTaken(env: Env, x: Session, y: Session, f: Frame)
    requires Healthy(env) && Sound(f) && Settled(env.maxLog, GrownOf(x), f)
    requires Apply(env, y, f).Continue?
    ensures Apply(env, x, f).Continue?
  {
    hide ParseU64, FromHexOrDash, ExecutionReport.Parse, StreamSession.StepEnd;
  }

  // ----- the fields where the last word counts ------------------------------------------

  function EpochOf(f: Frame): Option<U64>
    requires Sound(f)
  {
    if KindOf(f).Started? && KindOf(f).epoch != 0 then Some(KindOf(f).epoch) else None
  }

  function ReportOf(f: Frame): Option<Option<ExecutionReport.Report>>
    requires Sound(f)
  {
    if !KindOf(f).Report? then None
    else if f.tokens[1] == "-" then Some(None)
    else
      match ExecutionReport.Parse(f.tokens[1])
      case Success(report) => Some(Some(report))
      case Failure(_) => None
  }

  function DetailOf(f: Frame): Option<Bytes>
    requires Sound(f)
  {
    if KindOf(f).Detail? then FromHexOrDash(f.tokens[1], MAX_DETAIL_BYTES) else None
  }

  function Or<T>(news: Option<T>, before: T): T {
    if news.Some? then news.value else before
  }

  predicate Says(before: Record, f: Frame, after: Record)
    requires Sound(f)
  {
    && after.started == Or(EpochOf(f), before.started)
    && after.execution == Or(ReportOf(f), before.execution)
    && after.detail == Or(DetailOf(f), before.detail)
  }

  lemma ApplySays(env: Env, s: Session, f: Frame)
    requires Sound(f) && (KindOf(f).Started? ==> KindOf(f).epoch != 0) && Apply(env, s, f).Continue?
    ensures Says(s.record, f, Apply(env, s, f).s.record)
  {
    hide ParseU64, FromHexOrDash, ExecutionReport.Parse, StreamSession.StepEnd;
  }

  // ----- histories ----------------------------------------------------------------------

  predicate AllSound(h: seq<Frame>) {
    forall i | 0 <= i < |h| :: Sound(h[i])
  }

  /** The session after one undisturbed delivery of `h`. */
  function After(env: Env, s: Session, h: seq<Frame>): Session
    requires AllSound(h)
    decreases |h|
  {
    if h == [] then s else Apply(env, After(env, s, h[..|h| - 1]), h[|h| - 1]).s
  }

  /** Undisturbed, every frame is taken, and none skips a step or a byte. */
  ghost predicate GapFree(env: Env, s: Session, h: seq<Frame>)
    requires AllSound(h)
  {
    forall k | 0 <= k < |h| :: TakenInOrder(env, s, h, k)
  }

  ghost predicate TakenInOrder(env: Env, s: Session, h: seq<Frame>, k: nat)
    requires AllSound(h) && k < |h|
  {
    var before := After(env, s, h[..k]);
    FollowsOn(before, h[k]) && Apply(env, before, h[k]).Continue?
  }

  lemma AfterOneMore(env: Env, s: Session, h: seq<Frame>, k: nat)
    requires AllSound(h) && k < |h|
    ensures After(env, s, h[..k + 1]) == Apply(env, After(env, s, h[..k]), h[k]).s
  {
    assert h[..k + 1][..k] == h[..k];
  }

  /** Every frame delivered so far is settled. */
  lemma {:induction false} SettledAfter(env: Env, s: Session, h: seq<Frame>, k: nat, r: nat)
    requires Healthy(env) && AllSound(h) && GapFree(env, s, h) && k < r <= |h|
    ensures Settled(env.maxLog, GrownOf(After(env, s, h[..r])), h[k])
    decreases r
  {
    hide Settled, Apply, FollowsOn, After, Grow, Sound, Healthy;
    assert TakenInOrder(env, s, h, r - 1);
    var before := After(env, s, h[..r - 1]);
    AfterOneMore(env, s, h, r - 1);
    ApplyGrows(env, before, h[r - 1]);
    if k == r - 1 {
      GrowSettles(env, before, h[k]);
    } else {
      SettledAfter(env, s, h, k, r - 1);
      SettledStays(env.maxLog, GrownOf(before), h[k], h[r - 1]);
    }
  }

  // ----- broken connections -------------------------------------------------------------

  /** The session and the frame the runner sends next. */
  datatype Link = Link(s: Session, at: nat)

  /** The next frame arrives, or the connection breaks and the runner resumes at an earlier one. */
  datatype Move = Deliver | Resume(from: nat)

  /** A new session loads the stored record; every change of it was stored at once. */
  function Reopened(s: Session): Session {
    s.(replies := [])
  }

  function Go(env: Env, h: seq<Frame>, l: Link, m: Move): Option<Link>
    requires AllSound(h)
  {
    match m
    case Resume(from) => if from <= l.at then Some(Link(Reopened(l.s), from)) else None
    case Deliver =>
      if l.at >= |h| then None
      else
        match Apply(env, l.s, h[l.at])
        case Continue(next) => Some(Link(next, l.at + 1))
        case _ => None
  }

  function Travel(env: Env, h: seq<Frame>, l: Link, moves: seq<Move>): Option<Link>
    requires AllSound(h)
    decreases |moves|
  {
    if moves == [] then Some(l)
    else
      match Travel(env, h, l, moves[..|moves| - 1])
      case None => None
      case Some(before) => Go(env, h, before, moves[|moves| - 1])
  }

  /** The growing part has reached some point of the undisturbed run, not behind the next frame. */
  ghost predicate Reached(env: Env, s: Session, h: seq<Frame>, l: Link, r: nat)
    requires AllSound(h)
  {
    l.at <= r <= |h| && GrownOf(l.s) == GrownOf(After(env, s, h[..r]))
  }

  ghost predicate Epoch(env: Env, s: Session, h: seq<Frame>, l: Link, r: nat)
    requires AllSound(h)
  {
    l.at <= r <= |h| && l.s.record.started == After(env, s, h[..r]).record.started
  }

  ghost predicate Execution(env: Env, s: Session, h: seq<Frame>, l: Link, r: nat)
    requires AllSound(h)
  {
    l.at <= r <= |h| && l.s.record.execution == After(env, s, h[..r]).record.execution
  }

  ghost predicate DetailAt(env: Env, s: Session, h: seq<Frame>, l: Link, r: nat)
    requires AllSound(h)
  {
    l.at <= r <= |h| && l.s.record.detail == After(env, s, h[..r]).record.detail
  }

  ghost predicate Grows(env: Env, s: Session, h: seq<Frame>, l: Link)
    requires AllSound(h)
  {
    exists r :: Reached(env, s, h, l, r)
  }

  /** Resending may be behind or ahead in each of the four parts separately, but never behind the next frame. */
  ghost predicate OnTrack(env: Env, s: Session, h: seq<Frame>, l: Link)
    requires AllSound(h)
  {
    && Grows(env, s, h, l)
    && (exists r :: Epoch(env, s, h, l, r))
    && (exists r :: Execution(env, s, h, l, r))
    && (exists r :: DetailAt(env, s, h, l, r))
  }

  /** A frame delivered on track is taken, in whatever state resending has left the session. */
  lemma DeliveredIsTaken(env: Env, s: Session, h: seq<Frame>, l: Link)
    requires Healthy(env) && AllSound(h) && GapFree(env, s, h) && Grows(env, s, h, l) && l.at < |h|
    ensures Apply(env, l.s, h[l.at]).Continue?
    ensures Grows(env, s, h, Link(Apply(env, l.s, h[l.at]).s, l.at + 1))
  {
    hide Settled, Apply, After, Grow, Healthy;
    var r :| Reached(env, s, h, l, r);
    var k, f := l.at, h[l.at];
    var before := After(env, s, h[..k]);
    assert TakenInOrder(env, s, h, k);
    AfterOneMore(env, s, h, k);
    ApplyGrows(env, before, f);
    if r == k {
      SameGrowthSameFate(env, l.s, before, f);
      ApplyGrows(env, l.s, f);
      assert Reached(env, s, h, Link(Apply(env, l.s, f).s, k + 1), k + 1);
    } else {
      SettledAfter(env, s, h, k, r);
      SettledIsTaken(env, l.s, before, f);
      ApplyGrows(env, l.s, f);
      SettledIsAbsorbed(env.maxLog, GrownOf(l.s), f);
      assert Reached(env, s, h, Link(Apply(env, l.s, f).s, k + 1), r);
    }
  }

  /** What the next frame says to the session, and what it said to the undisturbed one. */
  lemma SaidTwice(env: Env, s: Session, h: seq<Frame>, l: Link)
    requires AllSound(h) && GapFree(env, s, h) && OnTrack(env, s, h, l) && l.at < |h|
    requires Apply(env, l.s, h[l.at]).Continue?
    ensures Says(l.s.record, h[l.at], Apply(env, l.s, h[l.at]).s.record)
    ensures Says(After(env, s, h[..l.at]).record, h[l.at], After(env, s, h[..l.at + 1]).record)
  {
    hide Apply, After, EpochOf, ReportOf, DetailOf, ParseU64, Sound;
    assert TakenInOrder(env, s, h, l.at);
    AfterOneMore(env, s, h, l.at);
    ApplySays(env, After(env, s, h[..l.at]), h[l.at]);
    ApplySays(env, l.s, h[l.at]);
  }

  // The fields where the last word counts keep up with the next frame.

  lemma EpochKeepsUp(env: Env, s: Session, h: seq<Frame>, l: Link) returns (r: nat)
    requires AllSound(h) && GapFree(env, s, h) && OnTrack(env, s, h, l) && l.at < |h|
    requires Apply(env, l.s, h[l.at]).Continue?
    ensures Epoch(env, s, h, Link(Apply(env, l.s, h[l.at]).s, l.at + 1), r)
  {
    SaidTwice(env, s, h, l);
    hide Apply, After, EpochOf, ParseU64, Sound, Healthy;
    r :| Epoch(env, s, h, l, r);
    if r == l.at || EpochOf(h[l.at]).Some? {
      r := l.at + 1;
    }
  }

  lemma ExecutionKeepsUp(env: Env, s: Session, h: seq<Frame>, l: Link) returns (r: nat)
    requires AllSound(h) && GapFree(env, s, h) && OnTrack(env, s, h, l) && l.at < |h|
    requires Apply(env, l.s, h[l.at]).Continue?
    ensures Execution(env, s, h, Link(Apply(env, l.s, h[l.at]).s, l.at + 1), r)
  {
    SaidTwice(env, s, h, l);
    hide Apply, After, ReportOf, ParseU64, Sound, Healthy;
    r :| Execution(env, s, h, l, r);
    if r == l.at || ReportOf(h[l.at]).Some? {
      r := l.at + 1;
    }
  }

  lemma DetailKeepsUp(env: Env, s: Session, h: seq<Frame>, l: Link) returns (r: nat)
    requires AllSound(h) && GapFree(env, s, h) && OnTrack(env, s, h, l) && l.at < |h|
    requires Apply(env, l.s, h[l.at]).Continue?
    ensures DetailAt(env, s, h, Link(Apply(env, l.s, h[l.at]).s, l.at + 1), r)
  {
    SaidTwice(env, s, h, l);
    hide Apply, After, DetailOf, ParseU64, Sound, Healthy;
    r :| DetailAt(env, s, h, l, r);
    if r == l.at || DetailOf(h[l.at]).Some? {
      r := l.at + 1;
    }
  }

  /** Resuming earlier asks for less. */
  lemma ResumedStaysOnTrack(env: Env, s: Session, h: seq<Frame>, l: Link, from: nat)
    requires AllSound(h) && OnTrack(env, s, h, l) && from <= l.at
    ensures OnTrack(env, s, h, Link(Reopened(l.s), from))
  {
    hide After;
    var back := Link(Reopened(l.s), from);
    var r :| Reached(env, s, h, l, r);
    assert Reached(env, s, h, back, r);
    var b :| Epoch(env, s, h, l, b);
    assert Epoch(env, s, h, back, b);
    var e :| Execution(env, s, h, l, e);
    assert Execution(env, s, h, back, e);
    var d :| DetailAt(env, s, h, l, d);
    assert DetailAt(env, s, h, back, d);
  }

  lemma StartsOnTrack(env: Env, s: Session, h: seq<Frame>)
    requires AllSound(h)
    ensures OnTrack(env, s, h, Link(s, 0))
  {
    assert After(env, s, h[..0]) == s;
    assert Reached(env, s, h, Link(s, 0), 0) && Epoch(env, s, h, Link(s, 0), 0);
    assert Execution(env, s, h, Link(s, 0), 0) && DetailAt(env, s, h, Link(s, 0), 0);
  }

  lemma {:induction false} TravelsOnTrack(env: Env, s: Session, h: seq<Frame>, moves: seq<Move>)
    requires Healthy(env) && AllSound(h) && GapFree(env, s, h)
    requires Travel(env, h, Link(s, 0), moves).Some?
    ensures OnTrack(env, s, h, Travel(env, h, Link(s, 0), moves).value)
    decreases |moves|
  {
    hide Apply, After, OnTrack, GapFree, Healthy;
    if moves == [] {
      StartsOnTrack(env, s, h);
    } else {
      TravelsOnTrack(env, s, h, moves[..|moves| - 1]);
      var before := Travel(env, h, Link(s, 0), moves[..|moves| - 1]).value;
      match moves[|moves| - 1] {
        case Resume(from) => ResumedStaysOnTrack(env, s, h, before, from);
        case Deliver => DeliveredStaysOnTrack(env, s, h, before);
      }
    }
  }

  lemma DeliveredStaysOnTrack(env: Env, s: Session, h: seq<Frame>, l: Link)
    requires Healthy(env) && AllSound(h) && GapFree(env, s, h) && OnTrack(env, s, h, l) && l.at < |h|
    ensures Apply(env, l.s, h[l.at]).Continue?
    ensures OnTrack(env, s, h, Link(Apply(env, l.s, h[l.at]).s, l.at + 1))
  {
    hide Apply, After, Reached, Epoch, Execution, DetailAt, GapFree;
    DeliveredIsTaken(env, s, h, l);
    var b := EpochKeepsUp(env, s, h, l);
    var e := ExecutionKeepsUp(env, s, h, l);
    var d := DetailKeepsUp(env, s, h, l);
  }

  /**
   Any number of broken connections, each resumed anywhere at or before the frame it broke
   off at: once the last frame has been delivered, the record and the logs are those of one
   undisturbed delivery.
   */
  lemma ReplayConverges(env: Env, s: Session, h: seq<Frame>, moves: seq<Move>)
    requires Healthy(env) && AllSound(h) && GapFree(env, s, h)
    requires Travel(env, h, Link(s, 0), moves).Some? && Travel(env, h, Link(s, 0), moves).value.at == |h|
    ensures var l := Travel(env, h, Link(s, 0), moves).value;
            l.s.record == After(env, s, h).record && l.s.logs == After(env, s, h).logs
  {
    hide Apply, After, Travel, GapFree, Healthy, OnTrack;
    TravelsOnTrack(env, s, h, moves);
    Arrived(env, s, h, Travel(env, h, Link(s, 0), moves).value);
  }

  lemma Arrived(env: Env, s: Session, h: seq<Frame>, l: Link)
    requires AllSound(h) && OnTrack(env, s, h, l) && l.at == |h|
    ensures l.s.record == After(env, s, h).record && l.s.logs == After(env, s, h).logs
  {
    hide Apply, After;
    assert h[..|h|] == h;
    var r :| Reached(env, s, h, l, r);
    var b :| Epoch(env, s, h, l, b);
    var e :| Execution(env, s, h, l, e);
    var d :| DetailAt(env, s, h, l, d);
    var x, y := l.s.record, After(env, s, h).record;
    assert x.started == y.started && x.execution == y.execution && x.detail == y.detail;
  }

  /** And the next frame is never refused, so the last one can always be reached. */
  lemma ReplayIsNeverStuck(env: Env, s: Session, h: seq<Frame>, moves: seq<Move>)
    requires Healthy(env) && AllSound(h) && GapFree(env, s, h)
    requires Travel(env, h, Link(s, 0), moves).Some? && Travel(env, h, Link(s, 0), moves).value.at < |h|
    ensures Travel(env, h, Link(s, 0), moves + [Deliver]).Some?
  {
    TravelsOnTrack(env, s, h, moves);
    hide Apply, After, GapFree, Healthy, OnTrack;
    var l := Travel(env, h, Link(s, 0), moves).value;
    DeliveredStaysOnTrack(env, s, h, l);
    assert (moves + [Deliver])[..|moves|] == moves;
  }
}
