/**
 The stream session as the object the gateway keeps for one connection. Its record lives
 twice, in memory and in the store; the logs live in files only.
 */
module StreamRelay {
  import opened Wrappers
  import opened Text
  import opened Records
  import opened StreamSession
  import opened StreamChunks
  import opened StreamLooks
  import ExecutionReport

  /** How a frame, or a whole buffer, ends: read on, end the session, or the source throws. */
  datatype Verdict = GoOn | EndNow | Fault(problem: Problem)

  /** What a new connection is told: the size of every step log that exists. */
  function Greeting(logs: map<nat, string>, steps: nat): seq<Reply> {
    (if steps == 0 then [] else Greeting(logs, steps - 1)) + if steps in logs then [Held(steps, |logs[steps]|)] else []
  }

  lemma {:induction false} GreetingTellsSizes(logs: map<nat, string>, steps: nat, r: Reply)
    ensures r in Greeting(logs, steps) <==> r.Held? && r.index <= steps && r.index in logs && r.bytes == |logs[r.index]|
  {
    if steps > 0 {
      GreetingTellsSizes(logs, steps - 1, r);
    }
  }

  class Session {
    const env: Env
    var record: Record
    var stored: Record
    var logs: map<nat, string>
    var replies: seq<Reply>
    var frames: nat
    var cancelSent: bool

    /** What another process, or the next connection, would find. */
    ghost function View(): StreamSession.Session
      reads this
    {
      StreamSession.Session(stored, logs, replies, frames)
    }

    ghost predicate Valid()
      reads this
    {
      record == stored
    }

    ghost predicate Did(o: Outcome, v: Verdict)
      reads this
    {
      match o
      case Continue(s) => v == GoOn && View() == s && Valid()
      case Stop(s) => v == EndNow && View() == s
      case Throw(s, problem) => v == Fault(problem) && View() == s
    }

    constructor (env: Env, stored: Record, logs: map<nat, string>, frames: nat)
      ensures Valid() && this.env == env && View() == StreamSession.Session(stored, logs, [], frames) && !cancelSent
    {
      this.env, this.record, this.stored, this.logs, this.replies, this.frames := env, stored, stored, logs, [], frames;
      this.cancelSent := false;
    }

    method Greet()
      requires Valid()
      modifies `replies
      ensures Valid() && replies == old(replies) + Greeting(logs, |record.steps|)
    {
      ghost var before := replies;
      for index := 0 to |record.steps| + 1
        invariant replies == before + if index == 0 then [] else Greeting(logs, index - 1)
      {
        if index in logs {
          replies := replies + [Held(index, |logs[index]|)];
        }
      }
    }

    /** Writes until everything is stored or the disk takes no more; `room` is what it can still take. */
    method WriteAll(index: nat, bytes: string, room: nat)
      modifies `logs
      ensures logs == old(logs)[index := LogOf(old(logs), index) + if room < |bytes| then bytes[..room] else bytes]
    {
      ghost var before := LogOf(logs, index);
      logs := logs[index := LogOf(logs, index)];
      assert before + bytes[..0] == before;
      var done := 0;
      while done < |bytes|
        invariant done <= |bytes| && done <= room
        invariant logs == old(logs)[index := before + bytes[..done]]
        decreases |bytes| - done
      {
        var most := if room < |bytes| then room - done else |bytes| - done;
        var written: nat :| written <= most && (most > 0 ==> written > 0);
        if written == 0 {
          break;
        }
        assert (before + bytes[..done]) + bytes[done..done + written] == before + bytes[..done + written];
        logs := logs[index := LogOf(logs, index) + bytes[done..done + written]];
        done := done + written;
      }
      assert done == |bytes| ==> bytes[..done] == bytes;
    }

    method AppendLog(index: nat, offset: nat, bytes: string) returns (v: Verdict)
      requires Valid()
      modifies `record, `stored, `logs, `replies, `frames
      ensures Did(StreamSession.AppendLog(env, old(View()), index, offset, bytes), v)
    {
      if index > |record.steps| || index > MAX_STEPS {
        return Fault(UnknownStep);
      }
      var size := |LogOf(logs, index)|;
      if offset > size {
        replies := replies + [Held(index, size)];
        frames := frames + 1;
        return GoOn;
      }
      var skip := size - offset;
      if skip < |bytes| && size < env.maxLog {
        var room := env.accepts(frames);
        if room.None? {
          return Fault(CannotOpenLog);
        }
        var news := bytes[skip..];
        if size + |news| > env.maxLog {
          news := news[..env.maxLog - size];
        }
        WriteAll(index, news, room.value);
      }
      replies := replies + [Ack(index, Max(|LogOf(logs, index)|, offset + |bytes|))];
      frames := frames + 1;
      return GoOn;
    }

    method Store()
      modifies `stored, `frames
      ensures stored == record && frames == old(frames) + 1
    {
      stored := record;
      frames := frames + 1;
    }

    method OnStarted(token: string) returns (v: Verdict)
      requires Valid()
      modifies `record, `stored, `logs, `replies, `frames
      ensures Did(StreamSession.OnStarted(env, old(View()), token), v)
    {
      hide ParseU64;
      record := record.(status := Running);
      var started := ParseU64(token);
      if started.None? {
        return Fault(MalformedNumber);
      }
      record := record.(started := if started.value != 0 then started.value else env.clock(frames), finished := 0);
      Store();
      return GoOn;
    }

    method OnExecution(token: string) returns (v: Verdict)
      requires Valid()
      modifies `record, `stored, `logs, `replies, `frames
      ensures Did(StreamSession.OnExecution(old(View()), token), v)
    {
      hide ExecutionReport.Parse;
      if token == "-" {
        record := record.(execution := None);
      } else {
        match ExecutionReport.Parse(token) {
          case Success(report) => record := record.(execution := Some(report));
          case Failure(_) => return Fault(MalformedReport);
        }
      }
      Store();
      return GoOn;
    }

    method OnStepStart(token: string) returns (v: Verdict)
      requires Valid()
      modifies `record, `stored, `logs, `replies, `frames
      ensures Did(StreamSession.OnStepStart(old(View()), token), v)
    {
      hide ParseU64;
      var index := ParseU64(token);
      if index.None? {
        return Fault(MalformedNumber);
      }
      if index.value == |record.steps| {
        logs := logs[index.value := LogOf(logs, index.value)];
        record := record.(status := Running);
      }
      Store();
      return GoOn;
    }

    method OnStepEnd(tokens: seq<string>) returns (v: Verdict)
      requires Valid() && |tokens| == 6
      modifies `record, `stored, `logs, `replies, `frames
      ensures Did(StreamSession.OnStepEnd(old(View()), tokens), v)
    {
      hide ParseU64, FromHexOrDash;
      var index := ParseU64(tokens[1]);
      if index.None? {
        return Fault(MalformedNumber);
      }
      if index.value == |record.steps| && index.value < MAX_STEPS {
        var code := ExitCode(tokens[2]);
        if code.None? {
          return Fault(MalformedNumber);
        }
        var name := FromHexOrDash(tokens[5], MAX_NAME);
        if name.None? {
          return Fault(MalformedName);
        }
        var step := StepResult(name.value, code.value, tokens[3] == "1", tokens[4] == "1");
        record := record.(steps := record.steps + [step]);
      }
      Store();
      return GoOn;
    }

    method OnHeartbeat() returns (v: Verdict)
      requires Valid()
      modifies `record, `stored, `logs, `replies, `frames
      ensures Did(if env.renews(old(frames)) then Took(old(View()), old(record))
                  else Stop(old(View()).(replies := old(replies) + [LeaseLost], frames := old(frames) + 1)), v)
    {
      if !env.renews(frames) {
        replies := replies + [LeaseLost];
        frames := frames + 1;
        return EndNow;
      }
      Store();
      return GoOn;
    }

    method OnProgress(token: string) returns (v: Verdict)
      requires Valid()
      modifies `record, `stored, `logs, `replies, `frames
      ensures Did(StreamSession.OnProgress(old(View()), token), v)
    {
      hide FromHexOrDash;
      var detail := FromHexOrDash(token, MAX_DETAIL_BYTES);
      if detail.None? {
        return Fault(MalformedProgress);
      }
      record := record.(detail := detail.value);
      Store();
      return GoOn;
    }

    method OnLine(tokens: seq<string>) returns (v: Verdict)
      requires Valid() && |tokens| > 0
      modifies `record, `stored, `logs, `replies, `frames
      ensures Did(ApplyLine(env, old(View()), tokens), v)
    {
      hide StreamSession.OnStarted, StreamSession.OnExecution, StreamSession.OnStepStart, StreamSession.OnStepEnd;
      hide StreamSession.OnProgress;
      if tokens[0] == "started" && |tokens| == 2 {
        v := OnStarted(tokens[1]);
      } else if tokens[0] == "execution" && |tokens| == 2 {
        v := OnExecution(tokens[1]);
      } else if tokens[0] == "step-start" && |tokens| == 3 {
        v := OnStepStart(tokens[1]);
      } else if tokens[0] == "step-end" && |tokens| == 6 {
        v := OnStepEnd(tokens);
      } else if tokens[0] == "heartbeat" && |tokens| == 1 {
        v := OnHeartbeat();
      } else if tokens[0] == "progress" && |tokens| == 2 {
        v := OnProgress(tokens[1]);
      } else {
        v := Fault(UnknownFrame);
      }
    }

    /** Takes the complete frames of `buffer`; `rest` is what the connection keeps for the next read. */
    method Consume(buffer: string) returns (v: Verdict, rest: string)
      requires Valid()
      modifies `record, `stored, `logs, `replies, `frames
      ensures match Drain(env, old(View()), buffer)
              case Waiting(s, left) => v == GoOn && View() == s && rest == left && Valid()
              case Ended(s) => v == EndNow && View() == s
              case Broken(s, problem) => v == Fault(problem) && View() == s
    {
      hide ApplyLine, Apply, FrontOf;
      rest := buffer;
      while true
        invariant Valid() && Drain(env, old(View()), buffer) == Drain(env, View(), rest)
        decreases |rest|
      {
        ghost var before := View();
        var f, size, wait, problem := TakeFrame(rest);
        if wait {
          return GoOn, rest;
        }
        if problem.Some? {
          return Fault(problem.value), rest;
        }
        match f {
          case Log(index, offset, bytes) => v := AppendLog(index, offset, bytes);
          case Line(tokens) => v := OnLine(tokens);
        }
        Handled(before, f, v);
        rest := rest[size..];
        if v != GoOn {
          return;
        }
      }
    }

    /** The look once a second: `cancel` and `held` are what the store says. */
    method Check(cancel: bool, held: bool) returns (alive: bool)
      modifies `replies, `cancelSent
      ensures alive == held && cancelSent == (old(cancelSent) || cancel)
      ensures View() == Answered(old(View()), cancel && !old(cancelSent), held)
    {
      if !cancelSent && cancel {
        replies := replies + [Cancel];
        cancelSent := true;
      }
      if !held {
        replies := replies + [LeaseLost];
        return false;
      }
      return true;
    }

    lemma Handled(before: StreamSession.Session, f: Frame, v: Verdict)
      requires f.Line? ==> |f.tokens| > 0 && Did(ApplyLine(env, before, f.tokens), v)
      requires f.Log? ==> Did(StreamSession.AppendLog(env, before, f.index, f.offset, f.bytes), v)
      ensures Did(Apply(env, before, f), v)
    {
    }
  }

  /** Finds the frame at the front of the buffer: header first, then, for a log, its payload. */
  method TakeFrame(buffer: string) returns (f: Frame, size: nat, wait: bool, problem: Option<Problem>)
    ensures match FrontOf(buffer)
            case Complete(frame, n) => f == frame && size == n && !wait && problem.None?
            case Partial => wait
            case Bad(p) => !wait && problem == Some(p)
  {
    hide ParseU64, Split;
    f, size, wait, problem := Line([""]), 0, false, None;
    var newline := Find(buffer, '\n');
    if newline == |buffer| {
      if |buffer| > MAX_HEADER {
        problem := Some(HeaderTooLong);
      } else {
        wait := true;
      }
      return;
    }
    var tokens := SplitFields(buffer[..newline], ' ');
    if tokens[0] != "log" {
      f, size := Line(tokens), newline + 1;
      return;
    }
    if |tokens| != 4 {
      problem := Some(MalformedLog);
      return;
    }
    var length := ParseU64(tokens[3]);
    if length.None? {
      problem := Some(MalformedNumber);
      return;
    }
    if length.value > MAX_LOG_FRAME {
      problem := Some(FrameTooLarge);
      return;
    }
    if |buffer| < newline + 1 + length.value {
      wait := true;
      return;
    }
    var index, offset := ParseU64(tokens[1]), ParseU64(tokens[2]);
    if index.None? || offset.None? {
      problem := Some(MalformedNumber);
      return;
    }
    size := newline + 1 + length.value;
    f := Log(index.value, offset.value, buffer[newline + 1..size]);
  }

  /** The gateway's loop over one connection: consume what was kept and each read, look once a second. */
  method Serve(session: Session, events: seq<StreamLooks.Event>) returns (v: Verdict, kept: string)
    requires session.Valid()
    modifies session
    ensures match Served(session.env, old(session.View()), old(session.cancelSent), events).d
            case Waiting(s, rest) => v == GoOn && session.View() == s && kept == rest
            case Ended(s) => v == EndNow && session.View() == s
            case Broken(s, problem) => v == Fault(problem) && session.View() == s
  {
    hide Drain, Answered;
    v, kept := GoOn, "";
    for i := 0 to |events|
      invariant session.Valid() && v == GoOn
      invariant Served(session.env, old(session.View()), old(session.cancelSent), events[..i])
             == Serving(Waiting(session.View(), kept), session.cancelSent)
    {
      assert events[..i + 1][..i] == events[..i];
      match events[i] {
        case Read(bytes) => v, kept := session.Consume(kept + bytes);
        case Look(cancel, held) =>
          var alive := session.Check(cancel, held);
          v := if alive then GoOn else EndNow;
      }
      if v != GoOn {
        ServedOver(session.env, old(session.View()), old(session.cancelSent), events, i + 1);
        return;
      }
    }
    assert events[..|events|] == events;
  }
}
