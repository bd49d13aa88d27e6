/**
 Step logs on the host: always a prefix of what the runner wrote, never past the cap,
 whatever frames come in whatever order and however little the disk takes; and complete
 once the runner follows the answers.
 */
module StreamLogs {
  import opened Wrappers
  import opened Text
  import opened Records
  import opened StreamSession

  predicate PrefixOf(x: string, y: string) {
    |x| <= |y| && y[..|x|] == x
  }

  /** A log frame cut from the runner's own output of that step, at any offset. */
  predicate Genuine(output: nat -> string, f: Frame) {
    f.Log? ==>
      && f.offset + |f.bytes| <= |output(f.index)|
      && f.bytes == output(f.index)[f.offset..f.offset + |f.bytes|]
  }

  predicate Faithful(env: Env, s: Session, output: nat -> string) {
    forall i | i in s.logs :: PrefixOf(s.logs[i], output(i)) && |s.logs[i]| <= env.maxLog
  }

  /** The bytes a frame adds continue the output where the log ends. */
  lemma FreshContinues(maxLog: nat, log: string, offset: nat, bytes: string, output: string)
    requires PrefixOf(log, output) && offset <= |log| && |log| <= maxLog
    requires offset + |bytes| <= |output| && bytes == output[offset..offset + |bytes|]
    ensures var news := Fresh(maxLog, |log|, offset, bytes);
            PrefixOf(log + news, output) && |log + news| <= maxLog
  {
    var skip := |log| - offset;
    if skip < |bytes| {
      assert bytes[skip..] == output[|log|..offset + |bytes|];
    }
  }

  lemma ShortWrite(log: string, news: string, room: nat, output: string)
    requires PrefixOf(log + news, output) && room <= |news|
    ensures PrefixOf(log + news[..room], output)
  {
    assert (log + news)[..|log| + room] == log + news[..room];
  }

  /** A log frame leaves the logs alone, or one of them a longer prefix. */
  lemma LogGrows(env: Env, s: Session, index: nat, offset: nat, bytes: string, output: string) returns (stored: string)
    requires PrefixOf(LogOf(s.logs, index), output) && |LogOf(s.logs, index)| <= env.maxLog
    requires offset + |bytes| <= |output| && bytes == output[offset..offset + |bytes|]
    ensures PrefixOf(stored, output) && |stored| <= env.maxLog
    ensures var after := AppendLog(env, s, index, offset, bytes).s.logs;
            after == s.logs || after == s.logs[index := stored]
  {
    var log := LogOf(s.logs, index);
    stored := log;
    if offset <= |log| && env.accepts(s.frames).Some? {
      FreshContinues(env.maxLog, log, offset, bytes, output);
      var news, room := Fresh(env.maxLog, |log|, offset, bytes), env.accepts(s.frames).value;
      if room < |news| {
        ShortWrite(log, news, room, output);
        stored := log + news[..room];
      } else {
        stored := log + news;
      }
      hide Fresh, Opens, PrefixOf;
    }
  }

  /**
   Duplicated, overlapping, reordered or gapped log frames and short writes leave every
   log a prefix of the runner's output within the cap.
   */
  lemma LogStaysPrefix(env: Env, s: Session, f: Frame, output: nat -> string)
    requires (f.Line? ==> |f.tokens| > 0) && Genuine(output, f) && Faithful(env, s, output)
    ensures Faithful(env, Apply(env, s, f).s, output)
  {
    if f.Log? {
      var index, log := f.index, LogOf(s.logs, f.index);
      assert PrefixOf(log, output(index)) && |log| <= env.maxLog;
      var stored := LogGrows(env, s, index, f.offset, f.bytes, output(index));
      hide AppendLog, LogOf, PrefixOf;
    } else {
      hide ParseU64, FromHexOrDash, ExecutionReport.Parse;
      LineKeepsLogs(env, s, f.tokens);
    }
  }

  lemma LineKeepsLogs(env: Env, s: Session, tokens: seq<string>)
    requires |tokens| > 0
    ensures var after := ApplyLine(env, s, tokens).s.logs;
            forall i | i in after :: after[i] == LogOf(s.logs, i)
  {
    hide ParseU64, FromHexOrDash, ExecutionReport.Parse;
  }

  /** The frames of a buffer, as the parser would see them. */
  ghost predicate GenuineStream(env: Env, s: Session, buffer: string, output: nat -> string)
    decreases |buffer|
  {
    match FrontOf(buffer)
    case Complete(f, size) =>
      Genuine(output, f) &&
      (match Apply(env, s, f)
       case Continue(next) => GenuineStream(env, next, buffer[size..], output)
       case _ => true)
    case _ => true
  }

  lemma {:induction false} DrainStaysPrefix(env: Env, s: Session, buffer: string, output: nat -> string)
    requires GenuineStream(env, s, buffer, output) && Faithful(env, s, output)
    ensures Faithful(env, Drain(env, s, buffer).s, output)
    decreases |buffer|
  {
    hide FrontOf, Apply, Faithful, Genuine;
    match FrontOf(buffer) {
      case Complete(f, size) =>
        LogStaysPrefix(env, s, f, output);
        match Apply(env, s, f) {
          case Continue(next) => DrainStaysPrefix(env, next, buffer[size..], output);
          case _ =>
        }
      case _ =>
    }
  }

  // ----- acknowledgements -----------------------------------------------------------------

  /** The write this frame causes, if any, is taken completely. */
  predicate Written(env: Env, s: Session, f: Frame)
    requires f.Log?
  {
    var log := LogOf(s.logs, f.index);
    Opens(env.maxLog, |log|, f.offset, f.bytes) ==>
      match env.accepts(s.frames)
      case None => false
      case Some(room) => |Fresh(env.maxLog, |log|, f.offset, f.bytes)| <= room
  }

  /**
   An acknowledgement names the stored size exactly when the frame ends within what was
   stored already, or within the cap and was written completely. A short write makes it
   run ahead of the file.
   */
  lemma AckIsExactIff(env: Env, s: Session, f: Frame)
    requires f.Log? && Apply(env, s, f).Continue? && f.offset <= |LogOf(s.logs, f.index)|
    ensures var after := Apply(env, s, f).s;
            var log := LogOf(s.logs, f.index);
            var end := f.offset + |f.bytes|;
            && |after.replies| == |s.replies| + 1 && after.replies[|s.replies|].Ack?
            && (after.replies[|s.replies|] == Ack(f.index, |LogOf(after.logs, f.index)|) <==>
                  end <= |log| || (end <= env.maxLog && Written(env, s, f)))
  {
  }

  /** A short write: of two bytes one was stored, and two are acknowledged. */
  lemma ShortWriteRunsAhead(env: Env, s: Session, index: nat)
    requires index <= |s.record.steps| && index <= MAX_STEPS && LogOf(s.logs, index) == ""
    requires env.maxLog >= 2 && env.accepts(s.frames) == Some(1)
    ensures var after := Apply(env, s, Log(index, 0, "ab")).s;
            LogOf(after.logs, index) == "a" && after.replies == s.replies + [Ack(index, 2)]
  {
  }

  /** A frame past the cap: of two bytes one was kept, and two are acknowledged. */
  lemma CappedLogRunsAhead(env: Env, s: Session, index: nat)
    requires index <= |s.record.steps| && index <= MAX_STEPS && LogOf(s.logs, index) == ""
    requires env.maxLog == 1 && env.accepts(s.frames) == Some(MAX_LOG_FRAME)
    ensures var after := Apply(env, s, Log(index, 0, "ab")).s;
            LogOf(after.logs, index) == "a" && after.replies == s.replies + [Ack(index, 2)]
  {
  }

  // ----- delivery ---------------------------------------------------------------------------

  /** The next frame of a runner that has sent `sent` bytes of a step's output. */
  function NextLog(index: nat, output: string, sent: nat): (f: Frame)
    requires sent <= |output|
    ensures f.Log?
  {
    var n := if |output| - sent <= MAX_LOG_FRAME then |output| - sent else MAX_LOG_FRAME;
    Log(index, sent, output[sent..sent + n])
  }

  lemma NextLogStored(env: Env, s: Session, index: nat, output: string, sent: nat)
    requires WritesComplete(env) && |output| <= env.maxLog
    requires index <= |s.record.steps| && index <= MAX_STEPS && PrefixOf(LogOf(s.logs, index), output)
    requires sent < |output|
    ensures var log := LogOf(s.logs, index);
            var f := NextLog(index, output, sent);
            var o := Apply(env, s, f);
            && o.Continue? && o.s.record == s.record && PrefixOf(LogOf(o.s.logs, index), output)
            && (sent > |log| ==> o.s.logs == s.logs && o.s.replies == s.replies + [Held(index, |log|)])
            && (sent <= |log| ==>
                  && |LogOf(o.s.logs, index)| == Max(|log|, sent + |f.bytes|)
                  && o.s.replies == s.replies + [Ack(index, |LogOf(o.s.logs, index)|)])
  {
    var log := LogOf(s.logs, index);
    var f := NextLog(index, output, sent);
    if sent <= |log| {
      FreshContinues(env.maxLog, log, sent, f.bytes, output);
    }
  }

  /**
   One frame of the delivery, from `sent` to `next` as the answer says: an acknowledgement is the size
   stored then and further on than before; a gap leads back to what is held.
   */
  predicate Delivers(env: Env, s: Session, sent: nat, t: Session, next: nat, index: nat, output: string) {
    && sent < |output| && Apply(env, s, NextLog(index, output, sent)) == Continue(t)
    && |t.replies| == |s.replies| + 1 && t.replies[..|s.replies|] == s.replies
    && var reply := t.replies[|s.replies|];
       if sent > |LogOf(s.logs, index)| then
         reply == Held(index, next) && next == |LogOf(s.logs, index)| && t.logs == s.logs
       else
         reply == Ack(index, next) && next == |LogOf(t.logs, index)| && sent < next <= |output|
  }

  lemma NextDelivers(env: Env, s: Session, index: nat, output: string, sent: nat)
    requires WritesComplete(env) && |output| <= env.maxLog
    requires index <= |s.record.steps| && index <= MAX_STEPS && PrefixOf(LogOf(s.logs, index), output)
    requires sent < |output|
    ensures var o := Apply(env, s, NextLog(index, output, sent));
            && o.Continue? && o.s.record == s.record && PrefixOf(LogOf(o.s.logs, index), output)
            && |o.s.replies| == |s.replies| + 1
            && var reply := o.s.replies[|s.replies|];
               (reply.Held? || reply.Ack?) && Delivers(env, s, sent, o.s, reply.bytes, index, output)
  {
    NextLogStored(env, s, index, output, sent);
    hide Apply, NextLog, WritesComplete;
  }

  /** Frame after frame, with the sessions and the runner's marks in between. */
  ghost predicate Delivery(
      env: Env, visited: seq<Session>, marks: seq<nat>, index: nat, output: string)
  {
    && |visited| == |marks| > 0
    && (forall j | 0 <= j < |visited| - 1 ::
          Delivers(env, visited[j], marks[j], visited[j + 1], marks[j + 1], index, output))
    && (forall j | 0 < j < |visited| :: marks[j] <= |LogOf(visited[j].logs, index)|)
  }

  /**
   The runner's side of one step log: it sends from where it believes the host is and goes on from each
   answer. Every acknowledgement is the size stored when it is given, the bytes not yet sent decrease with
   each, only the first answer can be a gap, and in the end all of the output is stored -- unless the runner
   believed from the start that it was, and sends nothing.
   */
  method DeliverLog(env: Env, start: Session, index: nat, output: string, acked: nat)
    returns (s: Session, ghost visited: seq<Session>, ghost marks: seq<nat>)
    requires WritesComplete(env) && |output| <= env.maxLog
    requires index <= |start.record.steps| && index <= MAX_STEPS
    requires PrefixOf(LogOf(start.logs, index), output) && acked <= |output|
    ensures Delivery(env, visited, marks, index, output)
    ensures visited[0] == start && marks[0] == acked && visited[|visited| - 1] == s && marks[|marks| - 1] == |output|
    ensures s.record == start.record
    ensures if acked < |output| then LogOf(s.logs, index) == output else s == start
  {
    hide Apply, NextLog, WritesComplete;
    s := start;
    var sent: nat := acked;
    visited, marks := [start], [acked];
    while sent < |output|
      invariant sent <= |output| && s.record == start.record
      invariant PrefixOf(LogOf(s.logs, index), output)
      invariant Delivery(env, visited, marks, index, output)
      invariant visited[0] == start && marks[0] == acked
      invariant visited[|visited| - 1] == s && marks[|marks| - 1] == sent
      invariant if |visited| == 1 then s == start && sent == acked
                else acked < |output| && sent <= |LogOf(s.logs, index)|
      decreases sent > |LogOf(s.logs, index)|, |output| - sent
    {
      NextDelivers(env, s, index, output, sent);
      ghost var was := |s.replies|;
      s := Apply(env, s, NextLog(index, output, sent)).s;
      sent := s.replies[|s.replies| - 1].bytes;
      visited, marks := visited + [s], marks + [sent];
    }
  }
}
