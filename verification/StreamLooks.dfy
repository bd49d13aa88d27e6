/**
 The loop around a live stream: between the reads it looks once a second whether a cancel was
 asked for and whether the lease is still this runner's. What the looks do to a session is
 told apart from what the reads do.
 */
module StreamLooks {
  import opened Wrappers
  import opened Text
  import opened StreamSession
  import opened StreamChunks

  datatype Event = Read(bytes: string) | Look(cancel: bool, held: bool)

  /** `told`: the cancel was passed on to the runner. */
  datatype Serving = Serving(d: Drained, told: bool)

  function Answered(s: Session, cancel: bool, held: bool): Session {
    s.(replies := s.replies + (if cancel then [Cancel] else []) + if held then [] else [LeaseLost])
  }

  function Turn(env: Env, x: Serving, e: Event): Serving {
    if !x.d.Waiting? then x
    else
      match e
      case Read(bytes) => x.(d := Drain(env, x.d.s, x.d.rest + bytes))
      case Look(cancel, held) =>
        var s := Answered(x.d.s, cancel && !x.told, held);
        Serving(if held then Waiting(s, x.d.rest) else Ended(s), x.told || cancel)
  }

  function Served(env: Env, s: Session, told: bool, events: seq<Event>): Serving {
    if events == [] then Serving(Waiting(s, ""), told)
    else Turn(env, Served(env, s, told, events[..|events| - 1]), events[|events| - 1])
  }

  lemma {:induction false} ServedOver(env: Env, s: Session, told: bool, events: seq<Event>, n: nat)
    requires n <= |events| && !Served(env, s, told, events[..n]).d.Waiting?
    ensures Served(env, s, told, events) == Served(env, s, told, events[..n])
    decreases |events|
  {
    hide Drain, Answered;
    if n == |events| {
      assert events[..n] == events;
    } else {
      assert events[..|events| - 1][..n] == events[..n];
      ServedOver(env, s, told, events[..|events| - 1], n);
    }
  }

  // ----- what the looks leave alone -----------------------------------------------------------

  /** The replies without the cancels. */
  function Plain(replies: seq<Reply>): (r: seq<Reply>)
    ensures |r| <= |replies|
  {
    if replies == [] then []
    else
      var last := replies[|replies| - 1];
      Plain(replies[..|replies| - 1]) + if last == Cancel then [] else [last]
  }

  function Quiet(s: Session): Session {
    s.(replies := Plain(s.replies))
  }

  function Cancels(s: Session): nat {
    |s.replies| - |Plain(s.replies)|
  }

  lemma PlainLast(replies: seq<Reply>, last: Reply)
    ensures Plain(replies + [last]) == if last == Cancel then Plain(replies) else Plain(replies) + [last]
  {
    assert (replies + [last])[..|replies|] == replies;
  }

  function QuietOutcome(o: Outcome): Outcome {
    match o
    case Continue(s) => Continue(Quiet(s))
    case Stop(s) => Stop(Quiet(s))
    case Throw(s, problem) => Throw(Quiet(s), problem)
  }

  function QuietDrained(d: Drained): Drained {
    match d
    case Waiting(s, rest) => Waiting(Quiet(s), rest)
    case Ended(s) => Ended(Quiet(s))
    case Broken(s, problem) => Broken(Quiet(s), problem)
  }

  /** Both sides of an outcome: what it says, and that it cancels nothing. */
  predicate Blind(o: Outcome, quiet: Outcome, s: Session) {
    quiet == QuietOutcome(o) && Cancels(o.s) == Cancels(s)
  }

  lemma LogIsBlind(env: Env, s: Session, index: nat, offset: nat, bytes: string)
    ensures Blind(AppendLog(env, s, index, offset, bytes), AppendLog(env, Quiet(s), index, offset, bytes), s)
  {
    hide Plain, Fresh, Opens, Max, LogOf;
    forall last: Reply | last != Cancel
      ensures Plain(s.replies + [last]) == Plain(s.replies) + [last]
    {
      PlainLast(s.replies, last);
    }
  }

  lemma LineIsBlind(env: Env, s: Session, tokens: seq<string>)
    requires |tokens| > 0
    ensures Blind(ApplyLine(env, s, tokens), ApplyLine(env, Quiet(s), tokens), s)
  {
    hide Plain, ParseU64, FromHexOrDash, StepEnd, ExecutionReport.Parse, LogOf;
    PlainLast(s.replies, LeaseLost);
  }

  lemma ApplyIsBlind(env: Env, s: Session, f: Frame)
    requires f.Line? ==> |f.tokens| > 0
    ensures Blind(Apply(env, s, f), Apply(env, Quiet(s), f), s)
  {
    hide AppendLog, ApplyLine, Blind;
    match f
    case Line(tokens) => LineIsBlind(env, s, tokens);
    case Log(index, offset, bytes) => LogIsBlind(env, s, index, offset, bytes);
  }

  lemma {:induction false} DrainIsBlind(env: Env, s: Session, buffer: string)
    ensures Drain(env, Quiet(s), buffer) == QuietDrained(Drain(env, s, buffer))
    ensures Cancels(Drain(env, s, buffer).s) == Cancels(s)
    decreases |buffer|
  {
    hide Apply, FrontOf, Quiet, Cancels;
    match FrontOf(buffer)
    case Complete(f, size) =>
      ApplyIsBlind(env, s, f);
      var o := Apply(env, s, f);
      if o.Continue? {
        DrainIsBlind(env, o.s, buffer[size..]);
      }
    case _ =>
  }

  // ----- the loop and its reads alone ---------------------------------------------------------

  /** The first look that finds the lease lost, or the end. */
  function FirstLoss(events: seq<Event>): (k: nat)
    ensures k <= |events|
    ensures k < |events| ==> events[k].Look? && !events[k].held
    ensures forall i | 0 <= i < k :: events[i].Look? ==> events[i].held
  {
    if events == [] then 0
    else
      var k := FirstLoss(events[..|events| - 1]);
      if k < |events| - 1 || (events[k].Look? && !events[k].held) then k else k + 1
  }

  function Chunks(events: seq<Event>): seq<string> {
    if events == [] then []
    else
      var last := events[|events| - 1];
      Chunks(events[..|events| - 1]) + if last.Read? then [last.bytes] else []
  }

  /** The reads up to the loss of the lease, and that loss if they leave the session alive. */
  function Undisturbed(env: Env, s: Session, events: seq<Event>): Drained {
    var k := FirstLoss(events);
    var d := Reads(env, s, Chunks(events[..k]));
    if d.Waiting? && k < |events| then Ended(Answered(d.s, false, false)) else d
  }

  /**
   Looking changes nothing but what is sent: records, logs and all other answers are those of the
   reads alone, up to the look that finds the lease lost.
   */
  lemma {:induction false} LooksOnlyAnswer(env: Env, s: Session, told: bool, events: seq<Event>)
    ensures QuietDrained(Served(env, s, told, events).d) == Undisturbed(env, Quiet(s), events)
    decreases |events|
  {
    hide Drain;
    if events == [] {
    } else {
      var init, last := events[..|events| - 1], events[|events| - 1];
      LooksOnlyAnswer(env, s, told, init);
      var x, k := Served(env, s, told, init), FirstLoss(init);
      if k < |init| {
        assert events[..k] == init[..k];
      } else {
        assert init[..k] == init;
        match last
        case Read(bytes) =>
          assert events[..k + 1] == events;
          var chunks := Chunks(init);
          assert (chunks + [bytes])[..|chunks|] == chunks;
          if x.d.Waiting? {
            DrainIsBlind(env, x.d.s, x.d.rest + bytes);
          }
        case Look(cancel, held) =>
          if x.d.Waiting? {
            AnsweredQuiet(x.d.s, cancel && !x.told, held);
          }
          if held {
            assert events[..k + 1] == events && Chunks(events) == Chunks(init);
          } else {
            assert events[..k] == init;
          }
      }
    }
  }

  lemma AnsweredQuiet(s: Session, cancel: bool, held: bool)
    ensures Quiet(Answered(s, cancel, held)) == if held then Quiet(s) else Answered(Quiet(s), false, false)
    ensures Cancels(Answered(s, cancel, held)) == Cancels(s) + if cancel then 1 else 0
  {
    var replies := s.replies + if cancel then [Cancel] else [];
    PlainLast(s.replies, Cancel);
    PlainLast(replies, LeaseLost);
    assert replies + [] == replies && s.replies + [] == s.replies;
    assert Plain(s.replies) + [] == Plain(s.replies) && Plain(s.replies) + [] + [] == Plain(s.replies);
  }

  /** The runner hears of a cancel once, and exactly when a look at its live session has seen one. */
  lemma {:induction false} CancelIsToldOnce(env: Env, s: Session, events: seq<Event>)
    ensures var x := Served(env, s, false, events);
            && Cancels(x.d.s) == Cancels(s) + (if x.told then 1 else 0)
            && (x.told <==> exists i :: 0 <= i < |events| && events[i].Look? && events[i].cancel
                                     && Served(env, s, false, events[..i]).d.Waiting?)
    decreases |events|
  {
    hide Drain, Answered, Cancels;
    if events != [] {
      var n := |events| - 1;
      var init, last := events[..n], events[n];
      CancelIsToldOnce(env, s, init);
      forall i | 0 <= i < n ensures init[..i] == events[..i] {
      }
      var x := Served(env, s, false, init);
      if x.d.Waiting? {
        match last
        case Read(bytes) => DrainIsBlind(env, x.d.s, x.d.rest + bytes);
        case Look(cancel, held) => AnsweredQuiet(x.d.s, cancel && !x.told, held);
      }
      var y := Served(env, s, false, events);
      if y.told {
        var i := if x.told then
          var i :| 0 <= i < n && init[i].Look? && init[i].cancel && Served(env, s, false, init[..i]).d.Waiting?; i
          else n;
        assert events[i].Look? && events[i].cancel && Served(env, s, false, events[..i]).d.Waiting?;
      }
    }
  }
}
