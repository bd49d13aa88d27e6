/**
 The guest's result sink as the object the executor calls: every method sends the
 requests of VmGuest for its callback, waits for each answer, and remembers what the
 answers said.
 */
module VmGuestSink {
  import opened Wrappers
  import opened Text
  import opened Records
  import opened SinkOrder
  import opened VmHost
  import F = FinishReport
  import opened VmGuest

  function Frames(requests: seq<Request>): seq<Frame> {
    if requests == [] then [] else Frames(requests[..|requests| - 1]) + requests[|requests| - 1]
  }

  lemma FramesSnoc(requests: seq<Request>, r: Request)
    ensures Frames(requests + [r]) == Frames(requests) + r
  {
    assert (requests + [r])[..|requests|] == requests;
  }

  lemma FramesOne(r: Request)
    ensures Frames([r]) == r && [r][..1] == [r]
  {
    FramesSnoc([], r);
    assert [] + [r] == [r] && [] + r == r;
  }

  lemma FramesAfter(sent: seq<Frame>, done: seq<Request>, r: Request)
    ensures sent + Frames(done) + r == sent + Frames(done + [r])
  {
    FramesSnoc(done, r);
    assert sent + Frames(done) + r == sent + (Frames(done) + r);
  }

  /** A log request in front of the requests for the rest of the bytes. */
  lemma LogHead(index: nat, bytes: string, n: nat)
    requires bytes != "" && n == if |bytes| <= CHUNK_MAX then |bytes| else CHUNK_MAX
    ensures LogRequests(index, bytes) ==
            [[Event("log " + Decimal(index)), Chunk(bytes[..n])]] + LogRequests(index, bytes[n..])
  {
    if |bytes| <= CHUNK_MAX {
      assert bytes[..n] == bytes && bytes[n..] == "";
    }
  }

  /**
   From (sent0, answered0) to (sent, answered) all requests went out whole and were answered,
   or those before one that did not go out whole or was not answered.
   */
  predicate SaidIn(
      sent0: seq<Frame>, answered0: nat, requests: seq<Request>, sent: seq<Frame>, answered: nat, ok: bool) {
    && answered0 <= answered
    && var n := answered - answered0;
       if ok then n == |requests| && sent == sent0 + Frames(requests) && AllFitIn(requests)
       else n < |requests| && sent == sent0 + Frames(requests[..n]) + Sent(requests[n])
  }

  predicate AllFitIn(requests: seq<Request>) {
    forall i | 0 <= i < |requests| :: AllFit(requests[i])
  }

  /** The flags afterwards say what they said before and what the answers `news` said. */
  predicate HeardIn(cancelled0: bool, lost0: bool, cancelled: bool, lost: bool, news: seq<Option<Reply>>) {
    && (cancelled <==> cancelled0 || Some(Cancel) in news)
    && (lost <==> lost0 || Some(LeaseLost) in news)
    && None !in news
  }

  lemma HeardNothing(cancelled: bool, lost: bool, news: seq<Option<Reply>>)
    requires news == []
    ensures HeardIn(cancelled, lost, cancelled, lost, news)
  {
  }

  lemma SaidNothing(sent: seq<Frame>, answered: nat)
    ensures SaidIn(sent, answered, [], sent, answered, true)
  {
  }

  /** One request that went out as far as it fits, and was answered if `ok`. */
  lemma SaidOne(sent: seq<Frame>, answered: nat, request: Request, ok: bool)
    requires ok ==> AllFit(request)
    ensures SaidIn(sent, answered, [request], sent + Sent(request), if ok then answered + 1 else answered, ok)
  {
    SentWhole(request);
    FramesOne(request);
    hide Sent, AllFit;
    assert [request][..0] == [] && sent + Frames([]) == sent;
  }

  /** One more request after requests that went through; `all` continues with `more`. */
  lemma SaidOn(
      sent0: seq<Frame>, answered0: nat, done: seq<Request>, sent1: seq<Frame>, answered1: nat, request: Request,
      sent2: seq<Frame>, answered2: nat, ok: bool, all: seq<Request>, more: seq<Request>)
    requires SaidIn(sent0, answered0, done, sent1, answered1, true)
    requires SaidIn(sent1, answered1, [request], sent2, answered2, ok)
    requires all == done + ([request] + more)
    ensures all == (done + [request]) + more
    ensures if ok then SaidIn(sent0, answered0, done + [request], sent2, answered2, true)
            else SaidIn(sent0, answered0, all, sent2, answered2, false)
  {
    hide Frames, Sent, AllFit;
    NoFrames();
    FramesOne(request);
    FramesAfter(sent0, done, request);
    if ok {
      assert [request][0] == request;
    } else {
      assert all[..|done|] == done && all[|done|] == request && [request][..0] == [];
      assert sent1 + [] == sent1;
    }
  }

  lemma NoFrames()
    ensures Frames([]) == []
  {
  }

  lemma SentOne(f: Frame)
    ensures Sent([f]) == if Fits(f) then [f] else []
    ensures AllFit([f]) <==> Fits(f)
  {
    assert [f][1..] == [];
  }

  lemma SentTwo(f: Frame, g: Frame)
    ensures Sent([f, g]) == if !Fits(f) then [] else if !Fits(g) then [f] else [f, g]
    ensures AllFit([f, g]) <==> Fits(f) && Fits(g)
  {
    assert [f, g][1..] == [g];
    SentOne(g);
    hide Fits;
    assert [f] + [g] == [f, g];
    assert AllFit([f, g]) ==> Fits([f, g][0]) && Fits([f, g][1]);
  }

  /** Of an upload only the header can be too long. */
  lemma UploadFits(header: string, bytes: string)
    ensures var request := VmGuest.Upload(header, bytes);
            && (AllFit(request) <==> Fits(Event(header)))
            && Sent(request) == if Fits(Event(header)) then request else []
  {
    hide Fits, Chunks;
    var request := VmGuest.Upload(header, bytes);
    ChunksFit(bytes);
    EmptyFits();
    assert request[0] == Event(header);
    if Fits(Event(header)) {
      assert AllFit(request);
      hide VmGuest.Upload, Sent, AllFit;
      SentWhole(request);
    }
  }

  lemma MoreFrames(sent: seq<Frame>, done: seq<Frame>, f: Frame, more: seq<Frame>)
    ensures sent + done + [f] == sent + (done + [f])
    ensures done + ([f] + more) == (done + [f]) + more
  {
  }

  lemma EmptyFits()
    ensures Fits(Done(Empty))
  {
  }

  lemma HeardOn(c0: bool, l0: bool, answered0: nat, c1: bool, l1: bool, answered1: nat, c2: bool, l2: bool,
                answered2: nat, answers: seq<Option<Reply>>)
    requires answered0 <= answered1 <= answered2 <= |answers|
    requires HeardIn(c0, l0, c1, l1, answers[answered0..answered1])
    requires HeardIn(c1, l1, c2, l2, answers[answered1..answered2])
    ensures HeardIn(c0, l0, c2, l2, answers[answered0..answered2])
  {
    assert answers[answered0..answered2] == answers[answered0..answered1] + answers[answered1..answered2];
  }

  /** The guest's side of the socket: what it sent, and the answers waiting for it. */
  class Channel {
    // None stands for anything that is not an acknowledgement.
    const answers: seq<Option<Reply>>
    var sent: seq<Frame>
    var answered: nat
    var failed: bool

    constructor (answers: seq<Option<Reply>>)
      ensures this.answers == answers && sent == [] && answered == 0 && !failed
    {
      this.answers, sent, answered, failed := answers, [], 0, false;
    }

    /** A frame the encoder refuses ends the channel. */
    method Send(f: Frame) returns (ok: bool)
      modifies `sent, `failed
      ensures ok <==> Fits(f)
      ensures sent == if ok then old(sent) + [f] else old(sent)
    {
      if !Fits(f) {
        failed := true;
        return false;
      }
      sent := sent + [f];
      return true;
    }
  }

  class Sink {
    const a: Assignment
    const channel: Channel
    var cancelled: bool
    var leaseLost: bool
    var artifacts: seq<bool>
    var outputs: seq<Output>

    ghost predicate Valid()
      reads this, channel
    {
      |artifacts| == |a.jobs| && channel.answered <= |channel.answers|
    }

    constructor (a: Assignment, channel: Channel)
      requires channel.answered <= |channel.answers|
      ensures this.a == a && this.channel == channel && Valid()
      ensures !cancelled && !leaseLost && outputs == [] && artifacts == NewGuard(a).put
    {
      this.a, this.channel := a, channel;
      cancelled, leaseLost, outputs := false, false, [];
      artifacts := seq(|a.jobs|, _ => false);
    }

    /** All requests were sent and answered; or they were sent up to one that was not answered properly. */
    ghost predicate Said(sent: seq<Frame>, answered: nat, requests: seq<Request>, ok: bool)
      reads this, channel
    {
      SaidIn(sent, answered, requests, channel.sent, channel.answered, ok)
    }

    /** The flags say what the answers from `answered` on said. */
    ghost predicate Heard(cancelled: bool, leaseLost: bool, answered: nat)
      reads this, channel
    {
      answered <= channel.answered <= |channel.answers| &&
      HeardIn(cancelled, leaseLost, this.cancelled, this.leaseLost, channel.answers[answered..channel.answered])
    }

    lemma OneAnswer(answers: seq<Option<Reply>>, n: nat)
      requires n < |answers|
      ensures answers[n..n + 1] == [answers[n]]
    {
    }

    method Acknowledge() returns (ok: bool)
      requires Valid()
      modifies `cancelled, `leaseLost, channel`answered, channel`failed
      ensures Valid() && channel.answered == old(channel.answered) + if ok then 1 else 0
      ensures Heard(old(cancelled), old(leaseLost), old(channel.answered))
      ensures !ok ==> old(channel.answered) == |channel.answers| || channel.answers[old(channel.answered)].None?
    {
      if channel.answered == |channel.answers| || channel.answers[channel.answered].None? {
        channel.failed := true;
        return false;
      }
      match channel.answers[channel.answered].value {
        case Cancel => cancelled := true;
        case LeaseLost => leaseLost := true;
        case Ok =>
      }
      OneAnswer(channel.answers, channel.answered);
      channel.answered := channel.answered + 1;
      return true;
    }

    method Ask(f: Frame) returns (ok: bool)
      requires Valid()
      modifies `cancelled, `leaseLost, channel
      ensures Valid() && Said(old(channel.sent), old(channel.answered), [[f]], ok)
      ensures Heard(old(cancelled), old(leaseLost), old(channel.answered))
    {
      ghost var sent := channel.sent;
      ok := channel.Send(f);
      if ok {
        ok := Acknowledge();
      }
      SentOne(f);
      SaidOne(sent, old(channel.answered), [f], ok);
      if !ok && !Fits(f) {
        assert channel.answers[channel.answered..channel.answered] == [];
      }
    }

    method RunStarted(epoch: U64) returns (ok: bool)
      requires Valid()
      modifies `cancelled, `leaseLost, channel
      ensures Valid() && Heard(old(cancelled), old(leaseLost), old(channel.answered))
      ensures Said(old(channel.sent), old(channel.answered), Requests(a, artifacts, Call.RunStarted(epoch)).value, ok)
    {
      ok := Ask(Event("started " + Decimal(epoch)));
    }

    method StepStarted(index: nat) returns (ok: bool)
      requires Valid()
      modifies `cancelled, `leaseLost, channel
      ensures Valid() && Heard(old(cancelled), old(leaseLost), old(channel.answered))
      ensures Said(old(channel.sent), old(channel.answered), Requests(a, artifacts, Call.StepStarted(index)).value, ok)
    {
      ok := Ask(Event("step-start " + Decimal(index)));
    }

    /** One announced piece of a step's output. */
    method SendPiece(index: nat, piece: string) returns (ok: bool)
      requires Valid()
      modifies `cancelled, `leaseLost, channel
      ensures Valid() && Heard(old(cancelled), old(leaseLost), old(channel.answered))
      ensures Said(old(channel.sent), old(channel.answered), [[Event("log " + Decimal(index)), Chunk(piece)]], ok)
    {
      hide Frames, Sent, AllFit, SaidIn;
      ghost var sent := channel.sent;
      assert channel.answers[channel.answered..channel.answered] == [];
      ghost var request := [Event("log " + Decimal(index)), Chunk(piece)];
      SentTwo(request[0], request[1]);
      ok := channel.Send(Event("log " + Decimal(index)));
      if ok {
        ok := channel.Send(Chunk(piece));
      }
      if ok {
        ok := Acknowledge();
      }
      assert sent + [] == sent && sent + [request[0]] + [request[1]] == sent + request;
      SaidOne(sent, old(channel.answered), request, ok);
    }

    method AppendLog(index: nat, bytes: string) returns (ok: bool)
      requires Valid()
      modifies `cancelled, `leaseLost, channel
      ensures Valid() && Heard(old(cancelled), old(leaseLost), old(channel.answered))
      ensures var requests := Requests(a, artifacts, Call.AppendLog(index, bytes)).value;
              Said(old(channel.sent), old(channel.answered), requests, ok)
    {
      var rest := bytes;
      ghost var done: seq<Request> := [];
      ghost var all := LogRequests(index, bytes);
      assert LogRequests(index, "") == [];
      hide LogRequests, Frames, HeardIn, SaidIn;
      HeardNothing(cancelled, leaseLost, channel.answers[channel.answered..channel.answered]);
      SaidNothing(channel.sent, channel.answered);
      while rest != ""
        invariant Valid() && old(channel.answered) <= channel.answered
        invariant Heard(old(cancelled), old(leaseLost), old(channel.answered))
        invariant Said(old(channel.sent), old(channel.answered), done, true)
        invariant all == done + LogRequests(index, rest)
        decreases |rest|
      {
        var count := if |rest| <= CHUNK_MAX then |rest| else CHUNK_MAX;
        ghost var request := [Event("log " + Decimal(index)), Chunk(rest[..count])];
        ghost var sent, answered, c, l := channel.sent, channel.answered, cancelled, leaseLost;
        LogHead(index, rest, count);
        var heard := SendPiece(index, rest[..count]);
        SaidOn(old(channel.sent), old(channel.answered), done, sent, answered, request, channel.sent,
            channel.answered, heard, all,
               LogRequests(index, rest[count..]));
        HeardOn(old(cancelled), old(leaseLost), old(channel.answered), c, l, answered, cancelled, leaseLost,
                channel.answered, channel.answers);
        if !heard {
          return false;
        }
        done := done + [request];
        rest := rest[count..];
      }
      assert done == all;
      return true;
    }

    method StepFinished(steps: seq<StepResult>, index: nat) returns (ok: bool)
      requires Valid()
      modifies `cancelled, `leaseLost, channel
      ensures Valid()
      ensures |steps| != index + 1 ==> !ok && channel.sent == old(channel.sent)
      ensures |steps| == index + 1 ==>
                && Heard(old(cancelled), old(leaseLost), old(channel.answered))
                && Said(old(channel.sent), old(channel.answered),
                        Requests(a, artifacts, Call.StepFinished(index, steps[index])).value, ok)
    {
      if |steps| != index + 1 {
        return false;
      }
      ok := Ask(Event(StepEndText(index, steps[index])));
    }

    method Heartbeat() returns (ok: bool)
      requires Valid()
      modifies `cancelled, `leaseLost, channel
      ensures Valid() && Heard(old(cancelled), old(leaseLost), old(channel.answered))
      ensures Said(old(channel.sent), old(channel.answered), Requests(a, artifacts, Call.Heartbeat).value, ok)
    {
      ok := Ask(Event("heartbeat"));
    }

    /** Polls only when a second has passed since the last poll; `due` is that clock reading. */
    method Tick(due: bool) returns (ok: bool)
      requires Valid()
      modifies `cancelled, `leaseLost, channel
      ensures Valid() && Heard(old(cancelled), old(leaseLost), old(channel.answered))
      ensures var requests := if due then Requests(a, artifacts, Call.Tick).value else [];
              Said(old(channel.sent), old(channel.answered), requests, ok)
    {
      if due {
        ok := Ask(Event("poll"));
      } else {
        assert channel.answers[channel.answered..channel.answered] == [];
        ok := true;
      }
    }

    method Progress(detail: Bytes) returns (ok: bool)
      requires Valid()
      modifies `cancelled, `leaseLost, channel
      ensures Valid() && Heard(old(cancelled), old(leaseLost), old(channel.answered))
      ensures Said(old(channel.sent), old(channel.answered), Requests(a, artifacts, Call.Progress(detail)).value, ok)
    {
      ok := Ask(Event("progress " + HexOrDash(detail)));
    }

    /** The bytes of a bundle, in chunks counted down to none. */
    method SendChunks(bytes: string)
      modifies channel`sent, channel`failed
      ensures channel.sent == old(channel.sent) + Chunks(bytes)
    {
      assert Chunks("") == [];
      hide Chunks;
      var rest := bytes;
      ghost var done: seq<Frame> := [];
      while rest != ""
        invariant channel.sent == old(channel.sent) + done
        invariant Chunks(bytes) == done + Chunks(rest)
        decreases |rest|
      {
        var count := if |rest| <= CHUNK_MAX then |rest| else CHUNK_MAX;
        ChunksHead(rest);
        var piece := rest[..count];
        MoreFrames(old(channel.sent), done, Chunk(piece), Chunks(rest[count..]));
        var taken := channel.Send(Chunk(piece));
        assert taken;
        done := done + [Chunk(piece)];
        rest := rest[count..];
      }
    }

    method Upload(header: string, bytes: string) returns (ok: bool)
      requires Valid()
      modifies `cancelled, `leaseLost, channel
      ensures Valid() && Heard(old(cancelled), old(leaseLost), old(channel.answered))
      ensures Said(old(channel.sent), old(channel.answered), [VmGuest.Upload(header, bytes)], ok)
    {
      hide Chunks, Frames, AllFit, Sent, SaidIn;
      ghost var request := VmGuest.Upload(header, bytes);
      ghost var sent := channel.sent;
      assert channel.answers[channel.answered..channel.answered] == [];
      UploadFits(header, bytes);
      ok := channel.Send(Event(header));
      if ok {
        SendChunks(bytes);
        var ended := channel.Send(Done(Empty));
        assert ended && channel.sent == sent + request;
        hide VmGuest.Upload, HeardIn;
        ok := Acknowledge();
      }
      assert sent + [] == sent;
      SaidOne(sent, old(channel.answered), request, ok);
    }

    method PutArtifact(artifact: Artifact, bundle: string, note: Bytes, release: bool) returns (ok: bool)
      requires Valid()
      modifies this, channel
      ensures Valid()
      ensures var c := Call.PutArtifact(artifact, bundle, note, release);
              && artifacts == TakenAfter(a, old(artifacts), c)
              && match Requests(a, old(artifacts), c)
                 case None => !ok && channel.sent == old(channel.sent) && outputs == old(outputs)
                 case Some(requests) =>
                   && Heard(old(cancelled), old(leaseLost), old(channel.answered))
                   && Said(old(channel.sent), old(channel.answered), requests, ok)
                   && outputs == old(outputs) +
                      if ok then [Output(artifact.name, release, artifact.retentionDays, note)] else []
    {
      if release != a.isRelease {
        return false;
      }
      var index := 0;
      while index < |artifacts| && !(!artifacts[index] && a.jobs[index].artifact == Some(artifact))
        invariant index <= |artifacts|
        invariant Slot(a, artifacts, artifact, index) == Slot(a, artifacts, artifact, 0)
      {
        index := index + 1;
      }
      if index == |artifacts| {
        return false;
      }
      artifacts := artifacts[index := true];
      var size := if note == [] then |bundle| else 0;
      if size > a.maxArtifact {
        return false;
      }
      if note == [] {
        ok := Upload(ArtifactText(index, size, note), bundle);
      } else {
        ok := Ask(Event(ArtifactText(index, size, note)));
      }
      if ok {
        outputs := outputs + [Output(artifact.name, release, artifact.retentionDays, note)];
      }
    }

    /** `archive` is the packed site; packing itself and its polls are not part of this method. */
    method PutPagesSite(archive: string) returns (ok: bool)
      requires Valid()
      modifies `cancelled, `leaseLost, channel
      ensures Valid()
      ensures match Requests(a, artifacts, PutPages(archive))
              case None => !ok && channel.sent == old(channel.sent)
              case Some(requests) =>
                && Heard(old(cancelled), old(leaseLost), old(channel.answered))
                && Said(old(channel.sent), old(channel.answered), requests, ok)
    {
      if !a.isDefaultBranch || a.isRelease || !a.hasPages {
        return false;
      }
      ok := Upload("pages " + Decimal(|archive|), archive);
    }

    /** The terminal report declares the outputs that went through; a report too long for a frame is never sent. */
    method Finish(record: Record, execution: Option<F.E.Report>) returns (ok: bool)
      requires Valid()
      modifies `cancelled, `leaseLost, channel
      ensures Valid()
      ensures var report := F.Report(
                record.status, record.startedEpoch, record.detail, record.steps, outputs, execution);
              match FinishFrame(report)
              case None => !ok && channel.sent == old(channel.sent)
              case Some(frame) =>
                && Heard(old(cancelled), old(leaseLost), old(channel.answered))
                && Said(old(channel.sent), old(channel.answered), [[frame]], ok)
    {
      hide F.Print, Content;
      var text := F.Print(
        F.Report(record.status, record.startedEpoch, record.detail, record.steps, outputs, execution));
      if text.None? {
        return false;
      }
      if |text.value| > CONTROL_MAX {
        channel.failed := true;
        return false;
      }
      ok := Ask(Done(Content(text.value)));
    }
  }
}
