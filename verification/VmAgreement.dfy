/**
 Guest and host together. Every callback sequence in the sink order goes through the
 protocol without either end getting stuck, and comes out at the host's sink with the
 same callbacks and the same log and artifact bytes.
 */
module VmAgreement {
  import opened Wrappers
  import opened Text
  import opened Records
  import opened SinkOrder
  import opened VmHost
  import F = FinishReport
  import opened VmHostSafety
  import opened VmGuest

  /** Callbacks with every log write cut into single bytes: how output is split stops mattering. */
  function Flat(calls: seq<Call>): seq<Call> {
    if calls == [] then [] else Flat(calls[..|calls| - 1]) + FlatCall(calls[|calls| - 1])
  }

  function FlatCall(c: Call): seq<Call> {
    if c.AppendLog? then seq(|c.bytes|, k requires 0 <= k < |c.bytes| => AppendLog(c.index, [c.bytes[k]])) else [c]
  }

  /** Frames arriving while the sink wants the run to go on. */
  function Arriving(frames: seq<Frame>): seq<Arrival> {
    seq(|frames|, k requires 0 <= k < |frames| => Arrival(frames[k], Ok))
  }

  /** The host at rest between requests. */
  ghost predicate Ready(a: Assignment, h: Host) {
    Inv(a, h) && h.mode.AtEvent? && !h.cancelSent
  }

  /** The host takes the frames one by one without answering any. */
  ghost predicate Quiet(a: Assignment, h: Host, frames: seq<Frame>)
    requires Inv(a, h)
  {
    forall k | 0 <= k <= |frames| ::
      var s := Feed(a, More(h), Arriving(frames[..k]));
      s.More? && s.h.replies == h.replies
  }

  /** The host answers `request` once, after its last frame and not before, and is then at `after`. */
  ghost predicate Lockstep(a: Assignment, h: Host, request: Request, after: Host)
    requires Inv(a, h)
  {
    && request != [] && Quiet(a, h, request[..|request| - 1])
    && Feed(a, More(h), Arriving(request)) == More(after)
    && after.replies == h.replies + [Ok]
  }

  // ----- feeding -------------------------------------------------------------------

  lemma FeedSnoc(a: Assignment, from: Step, frames: seq<Frame>, f: Frame)
    requires StepInv(a, from)
    ensures Feed(a, from, Arriving(frames + [f])) ==
            match Feed(a, from, Arriving(frames)) { case More(h) => Next(a, h, Arrival(f, Ok)) case other => other }
  {
    hide Next, Scan;
    assert Arriving(frames + [f])[..|frames|] == Arriving(frames);
  }

  lemma FeedNone(a: Assignment, from: Step)
    requires StepInv(a, from)
    ensures Feed(a, from, Arriving([])) == from
  {
    assert Arriving([]) == [];
  }

  lemma {:induction false} FeedConcat(a: Assignment, from: Step, xs: seq<Frame>, ys: seq<Frame>)
    requires StepInv(a, from)
    ensures Feed(a, from, Arriving(xs + ys)) == Feed(a, Feed(a, from, Arriving(xs)), Arriving(ys))
  {
    hide *;
    if ys == [] {
      assert xs + ys == xs;
      FeedNone(a, Feed(a, from, Arriving(xs)));
    } else {
      var init, last := ys[..|ys| - 1], ys[|ys| - 1];
      FeedConcat(a, from, xs, init);
      assert xs + ys == (xs + init) + [last];
      FeedSnoc(a, from, xs + init, last);
      assert ys == init + [last];
      FeedSnoc(a, Feed(a, from, Arriving(xs)), init, last);
    }
  }

  lemma QuietConcat(a: Assignment, h: Host, xs: seq<Frame>, middle: Host, ys: seq<Frame>)
    requires Inv(a, h) && Quiet(a, h, xs) && Feed(a, More(h), Arriving(xs)) == More(middle)
    requires Inv(a, middle) && Quiet(a, middle, ys)
    ensures Quiet(a, h, xs + ys)
  {
    hide Next, Scan, Feed;
    assert xs[..|xs|] == xs;
    forall k | 0 <= k <= |xs + ys|
      ensures var s := Feed(a, More(h), Arriving((xs + ys)[..k])); s.More? && s.h.replies == h.replies
    {
      if k <= |xs| {
        assert (xs + ys)[..k] == xs[..k];
      } else {
        assert (xs + ys)[..k] == xs + ys[..k - |xs|];
        FeedConcat(a, More(h), xs, ys[..k - |xs|]);
      }
    }
  }

  lemma QuietNone(a: Assignment, h: Host)
    requires Inv(a, h)
    ensures Quiet(a, h, [])
  {
    FeedNone(a, More(h));
  }

  lemma QuietOne(a: Assignment, h: Host, f: Frame, after: Host)
    requires Inv(a, h) && Next(a, h, Arrival(f, Ok)) == More(after) && after.replies == h.replies
    ensures Quiet(a, h, [f]) && Feed(a, More(h), Arriving([f])) == More(after)
  {
    hide Next, Scan, Feed;
    FeedNone(a, More(h));
    FeedSnoc(a, More(h), [], f);
    assert [] + [f] == [f];
    forall k | 0 <= k <= 1
      ensures var s := Feed(a, More(h), Arriving([f][..k])); s.More? && s.h.replies == h.replies
    {
      assert [f][..k] == if k == 0 then [] else [f];
    }
  }

  /** Frames taken in silence and one that is answered make a request. */
  lemma Answered(a: Assignment, h: Host, frames: seq<Frame>, middle: Host, f: Frame, after: Host)
    requires Inv(a, h) && Quiet(a, h, frames) && Feed(a, More(h), Arriving(frames)) == More(middle)
    requires Inv(a, middle) && Next(a, middle, Arrival(f, Ok)) == More(after)
    requires after.replies == h.replies + [Ok]
    ensures Lockstep(a, h, frames + [f], after)
  {
    hide Next, Scan, Feed, Quiet, Arriving;
    FeedSnoc(a, More(h), frames, f);
    assert (frames + [f])[..|frames|] == frames;
  }

  lemma AnsweredAtOnce(a: Assignment, h: Host, f: Frame, after: Host)
    requires Inv(a, h) && Next(a, h, Arrival(f, Ok)) == More(after) && after.replies == h.replies + [Ok]
    ensures Lockstep(a, h, [f], after)
  {
    QuietNone(a, h);
    FeedNone(a, More(h));
    Answered(a, h, [], h, f, after);
    assert [] + [f] == [f];
  }

  // ----- event text ------------------------------------------------------------------

  lemma FieldsJoin(parts: seq<string>)
    requires |parts| > 0 && "" !in parts && AllFree(parts, ' ')
    ensures Fields(Join(parts, ' ')) == Some(parts)
  {
    SplitJoin(parts, ' ');
    assert Join(parts, ' ') != "" by {
      assert parts[0] != "";
    }
  }

  lemma Fields1(keyword: string)
    requires keyword != "" && Free(keyword, ' ')
    ensures Fields(keyword) == Some([keyword])
  {
    FieldsJoin([keyword]);
  }

  lemma Fields2(keyword: string, x: string)
    requires keyword != "" && Free(keyword, ' ') && x != "" && Free(x, ' ')
    ensures Fields(keyword + " " + x) == Some([keyword, x])
  {
    FieldsJoin([keyword, x]);
    assert [keyword, x][1..] == [x];
    assert keyword + " " + x == keyword + [' '] + x;
  }

  lemma UnhexOf(b: Bytes)
    requires |b| <= MAX_DETAIL_BYTES
    ensures Unhex(HexOrDash(b)) == Some(b)
  {
    FromHexOrDashInverse(b, MAX_DETAIL_BYTES);
  }

  lemma FieldsOfArtifact(slot: nat, size: nat, note: Bytes)
    ensures Fields(ArtifactText(slot, size, note)) ==
            Some(["artifact", Decimal(slot), Decimal(size), HexOrDash(note)])
  {
    var parts := ["artifact", Decimal(slot), Decimal(size), HexOrDash(note)];
    FieldsJoin(parts);
    JoinFour(parts[0], parts[1], parts[2], parts[3]);
    assert "artifact " == "artifact" + " ";
  }

  lemma JoinFour(p: string, q: string, r: string, s: string)
    ensures Join([p, q, r, s], ' ') == p + " " + q + " " + r + " " + s
  {
    JoinCons(p, [q, r, s]);
    JoinCons(q, [r, s]);
    JoinCons(r, [s]);
    assert [p] + [q, r, s] == [p, q, r, s] && [q] + [r, s] == [q, r, s] && [r] + [s] == [r, s];
  }

  lemma JoinCons(p: string, parts: seq<string>)
    requires parts != []
    ensures Join([p] + parts, ' ') == p + " " + Join(parts, ' ')
  {
    assert ([p] + parts)[1..] == parts;
  }

  lemma JoinSix(p: string, q: string, r: string, s: string, t: string, u: string)
    ensures Join([p, q, r, s, t, u], ' ') == p + " " + q + " " + (r + " " + s + " " + t + " " + u)
  {
    JoinCons(p, [q, r, s, t, u]);
    JoinCons(q, [r, s, t, u]);
    JoinFour(r, s, t, u);
    assert [p] + [q, r, s, t, u] == [p, q, r, s, t, u] && [q] + [r, s, t, u] == [q, r, s, t, u];
    var tail := r + " " + s + " " + t + " " + u;
    assert p + " " + (q + " " + tail) == p + " " + q + " " + tail;
  }

  lemma FieldsOfStepEnd(index: nat, r: StepResult)
    ensures Fields(StepEndText(index, r)) ==
            Some(["step-end", Decimal(index), Signed(r.exitCode), Flag(r.timedOut), Flag(r.truncated),
                  HexOrDash(r.name)])
  {
    var d, code, name := Decimal(index), Signed(r.exitCode), HexOrDash(r.name);
    SignedFree(r.exitCode, ' ');
    FieldsOfSix(d, code, Flag(r.timedOut), Flag(r.truncated), name);
  }

  lemma FieldsOfSix(d: string, code: string, t: string, u: string, name: string)
    requires AllFree([d, code, t, u, name], ' ') && "" !in [d, code, t, u, name]
    ensures Fields("step-end " + d + " " + (code + " " + t + " " + u + " " + name)) ==
            Some(["step-end", d, code, t, u, name])
  {
    var parts := ["step-end", d, code, t, u, name];
    assert parts == ["step-end"] + [d, code, t, u, name];
    FieldsJoin(parts);
    JoinSix("step-end", d, code, t, u, name);
    assert "step-end" + " " + d == "step-end " + d;
  }

  // ----- one callback ---------------------------------------------------------------

  /** The host after all requests, or None if one end would wait for the other. */
  ghost function Settle(a: Assignment, h: Host, requests: seq<Request>): (r: Option<Host>)
    requires Inv(a, h)
    ensures r.Some? ==> Inv(a, r.value)
    decreases |requests|
  {
    if requests == [] then Some(h)
    else
      var s := Feed(a, More(h), Arriving(requests[0]));
      if s.More? && Lockstep(a, h, requests[0], s.h) then Settle(a, s.h, requests[1..]) else None
  }

  lemma SettleOne(a: Assignment, h: Host, request: Request, after: Host)
    requires Inv(a, h) && Lockstep(a, h, request, after)
    ensures Inv(a, after) && Settle(a, h, [request]) == Some(after)
  {
    assert [request][1..] == [];
  }

  /** Both ends have been through `calls`: the same view, the same bytes, the same slots. */
  ghost predicate Linked(a: Assignment, calls: seq<Call>, taken: seq<bool>, h: Host) {
    && Ready(a, h) && |taken| == |a.jobs| && taken == h.guard.put
    && Scan(a, calls).Some? && Scan(a, calls) == Scan(a, h.calls)
    && Flat(calls) == Flat(h.calls)
  }

  lemma FlatAppend(calls: seq<Call>, c: Call)
    ensures Flat(calls + [c]) == Flat(calls) + FlatCall(c)
  {
    assert (calls + [c])[..|calls|] == calls;
  }

  /** The host passes on exactly the callback the guest was given. */
  lemma PassedOn(a: Assignment, calls: seq<Call>, taken: seq<bool>, h: Host, c: Call, after: Host)
    requires Linked(a, calls, taken, h) && Scan(a, calls + [c]).Some?
    requires Inv(a, after) && after.mode.AtEvent? && !after.cancelSent && after.calls == h.calls + [c]
    requires after.guard.put == TakenAfter(a, taken, c)
    ensures Linked(a, calls + [c], TakenAfter(a, taken, c), after)
  {
    ScanAppend(a, calls, c);
    ScanAppend(a, h.calls, c);
    FlatAppend(calls, c);
    FlatAppend(h.calls, c);
  }

  /** The requests go through and leave both ends having been through `c` as well. */
  ghost predicate Served(a: Assignment, calls: seq<Call>, taken: seq<bool>, h: Host, c: Call, requests: seq<Request>)
    requires Inv(a, h) && |taken| == |a.jobs|
  {
    var after := Settle(a, h, requests);
    after.Some? && Linked(a, calls + [c], TakenAfter(a, taken, c), after.value)
  }

  lemma OneFrame(a: Assignment, calls: seq<Call>, taken: seq<bool>, h: Host, c: Call, f: Frame, ready: Host)
    requires Linked(a, calls, taken, h) && Scan(a, calls + [c]).Some?
    requires Next(a, h, Arrival(f, Ok)) == Deliver(ready, c, Ok)
    requires ready.calls == h.calls && ready.replies == h.replies && ready.mode.AtEvent? && !ready.cancelSent
    requires ready.guard.put == TakenAfter(a, taken, c)
    ensures Served(a, calls, taken, h, c, [[f]])
  {
    var after := Deliver(ready, c, Ok).h;
    NextInv(a, h, Arrival(f, Ok));
    AnsweredAtOnce(a, h, f, after);
    SettleOne(a, h, [f], after);
    PassedOn(a, calls, taken, h, c, after);
  }

  lemma {:induction false} StepNamesBound(jobs: seq<Job>)
    requires forall j | 0 <= j < |jobs| :: |jobs[j].steps| <= MAX_STEPS_PER_JOB
    ensures |StepNames(jobs)| <= MAX_STEPS_PER_JOB * |jobs|
  {
    if jobs != [] {
      StepNamesBound(jobs[..|jobs| - 1]);
    }
  }

  lemma Indices(a: Assignment)
    requires Guardable(a)
    ensures |StepNames(a.jobs)| < U64_LIMIT && |a.jobs| < U64_LIMIT
  {
    StepNamesBound(a.jobs);
  }

  // How the host reads the text of each event; nothing here needs the invariant.

  lemma ReadStarted(a: Assignment, h: Host, epoch: U64)
    requires |h.guard.put| == |a.jobs| && h.mode.AtEvent? && !h.started && epoch != 0
    ensures Next(a, h, Arrival(Event("started " + Decimal(epoch)), Ok)) ==
            Deliver(h.(record := h.record.(startedEpoch := epoch), started := true), RunStarted(epoch), Ok)
  {
    hide Fields, ParseNumber, Decimal, Unhex, HexOrDash, StepNames, StepEndText, ArtifactText;
    Fields2("started", Decimal(epoch));
    assert "started" + " " + Decimal(epoch) == "started " + Decimal(epoch);
    NumberRoundTrip(Decimal(epoch), epoch);
  }

  lemma ReadStepStart(a: Assignment, h: Host, index: U64)
    requires |h.guard.put| == |a.jobs| && h.mode.AtEvent? && h.started && !h.active
    requires index == |h.record.steps| < |StepNames(a.jobs)| && LastGood(h.record.steps)
    ensures Next(a, h, Arrival(Event("step-start " + Decimal(index)), Ok)) ==
            Deliver(h.(active := true), StepStarted(index), Ok)
  {
    hide Fields, ParseNumber, Decimal, Unhex, HexOrDash, StepNames, StepEndText, ArtifactText;
    Fields2("step-start", Decimal(index));
    assert "step-start" + " " + Decimal(index) == "step-start " + Decimal(index);
    NumberRoundTrip(Decimal(index), index);
  }

  lemma ReadLog(a: Assignment, h: Host, index: U64)
    requires |h.guard.put| == |a.jobs| && h.mode.AtEvent? && h.active && index == |h.record.steps|
    ensures Next(a, h, Arrival(Event("log " + Decimal(index)), Ok)) == More(h.(mode := AwaitLog))
  {
    hide Fields, ParseNumber, Decimal, Unhex, HexOrDash, StepNames, StepEndText, ArtifactText;
    Fields2("log", Decimal(index));
    assert "log" + " " + Decimal(index) == "log " + Decimal(index);
    NumberRoundTrip(Decimal(index), index);
  }

  lemma ReadStepEnd(a: Assignment, h: Host, index: U64, r: StepResult)
    requires |h.guard.put| == |a.jobs| && h.mode.AtEvent? && h.active
    requires index == |h.record.steps| < |StepNames(a.jobs)| && r.name == StepNames(a.jobs)[index]
    requires |r.name| <= MAX_DETAIL_BYTES
    ensures Next(a, h, Arrival(Event(StepEndText(index, r)), Ok)) ==
            Deliver(h.(record := h.record.(steps := h.record.steps + [r]), active := false), StepFinished(index, r), Ok)
  {
    hide Fields, ParseNumber, Decimal, Unhex, HexOrDash, StepNames, StepEndText, ArtifactText;
    FieldsOfStepEnd(index, r);
    NumberRoundTrip(Decimal(index), index);
    SignedRoundTrip(r.exitCode);
    UnhexOf(r.name);
    StepEndParts(a, h, index, r);
  }

  lemma StepEndParts(a: Assignment, h: Host, index: U64, r: StepResult)
    requires ParseNumber(Decimal(index)) == Some(index) && ParseI32(Signed(r.exitCode)) == Some(r.exitCode)
    requires Unhex(HexOrDash(r.name)) == Some(r.name)
    requires index == |h.record.steps| < |StepNames(a.jobs)| && r.name == StepNames(a.jobs)[index]
    ensures var part := ["step-end", Decimal(index), Signed(r.exitCode), Flag(r.timedOut), Flag(r.truncated),
                         HexOrDash(r.name)];
            OnStepEnd(a, h, part, Ok) ==
            Deliver(h.(record := h.record.(steps := h.record.steps + [r]), active := false), StepFinished(index, r), Ok)
  {
    hide Decimal, Signed, HexOrDash, ParseNumber, ParseI32, Unhex, StepNames;
    assert Flag(r.timedOut) in ["0", "1"] && Flag(r.truncated) in ["0", "1"];
  }

  lemma ReadHeartbeat(a: Assignment, h: Host)
    requires |h.guard.put| == |a.jobs| && h.mode.AtEvent? && h.started
    ensures Next(a, h, Arrival(Event("heartbeat"), Ok)) == Deliver(h, Heartbeat, Ok)
  {
    hide Fields, ParseNumber, Decimal, Unhex, HexOrDash, StepNames, StepEndText, ArtifactText;
    Fields1("heartbeat");
  }

  lemma ReadPoll(a: Assignment, h: Host)
    requires |h.guard.put| == |a.jobs| && h.mode.AtEvent? && h.started
    ensures Next(a, h, Arrival(Event("poll"), Ok)) == Deliver(h, Tick, Ok)
  {
    hide Fields, ParseNumber, Decimal, Unhex, HexOrDash, StepNames, StepEndText, ArtifactText;
    Fields1("poll");
  }

  lemma ReadProgress(a: Assignment, h: Host, detail: Bytes)
    requires |h.guard.put| == |a.jobs| && h.mode.AtEvent? && h.started && |detail| <= MAX_DETAIL_BYTES
    ensures Next(a, h, Arrival(Event("progress " + HexOrDash(detail)), Ok)) ==
            Deliver(h.(record := h.record.(detail := detail)), Progress(detail), Ok)
  {
    hide Fields, ParseNumber, Decimal, Unhex, HexOrDash, StepNames, StepEndText, ArtifactText;
    var text := HexOrDash(detail);
    Fields2("progress", text);
    assert "progress" + " " + text == "progress " + text;
    UnhexOf(detail);
  }

  lemma ReadArtifact(a: Assignment, h: Host, slot: U64, size: U64, note: Bytes)
    requires |h.guard.put| == |a.jobs| && h.mode.AtEvent? && h.started && !h.active && |note| <= MAX_DETAIL_BYTES
    ensures Next(a, h, Arrival(Event(ArtifactText(slot, size, note)), Ok)) ==
            OnArtifact(a, h, ["artifact", Decimal(slot), Decimal(size), HexOrDash(note)], Ok)
    ensures ParseNumber(Decimal(slot)) == Some(slot) && ParseNumber(Decimal(size)) == Some(size)
    ensures Unhex(HexOrDash(note)) == Some(note)
  {
    hide Fields, ParseNumber, Decimal, Unhex, HexOrDash, StepNames, StepEndText, ArtifactText;
    FieldsOfArtifact(slot, size, note);
    NumberRoundTrip(Decimal(slot), slot);
    NumberRoundTrip(Decimal(size), size);
    UnhexOf(note);
  }

  lemma ReadPages(a: Assignment, h: Host, size: U64)
    requires |h.guard.put| == |a.jobs| && h.mode.AtEvent? && h.started && !h.active && !h.pages
    requires a.isDefaultBranch && !a.isRelease && a.hasPages && size <= MAX_PAGES_ARCHIVE
    requires 0 < |h.record.steps| == |StepNames(a.jobs)| && LastGood(h.record.steps)
    ensures Next(a, h, Arrival(Event("pages " + Decimal(size)), Ok)) == More(h.(mode := InPages(size, "")))
  {
    hide Fields, ParseNumber, Decimal, Unhex, HexOrDash, StepNames, StepEndText, ArtifactText;
    Fields2("pages", Decimal(size));
    assert "pages" + " " + Decimal(size) == "pages " + Decimal(size);
    NumberRoundTrip(Decimal(size), size);
  }

  lemma StartedServed(a: Assignment, calls: seq<Call>, taken: seq<bool>, h: Host, epoch: U64)
    requires Linked(a, calls, taken, h) && Scan(a, calls + [RunStarted(epoch)]).Some?
    ensures Served(a, calls, taken, h, RunStarted(epoch), [[Event("started " + Decimal(epoch))]])
  {
    hide Next, Feed, Lockstep, Flat, Scan, Settle;
    ScanAppend(a, calls, RunStarted(epoch));
    ReadStarted(a, h, epoch);
    OneFrame(a, calls, taken, h, RunStarted(epoch), Event("started " + Decimal(epoch)),
             h.(record := h.record.(startedEpoch := epoch), started := true));
  }

  lemma StepStartServed(a: Assignment, calls: seq<Call>, taken: seq<bool>, h: Host, index: nat)
    requires Guardable(a) && Linked(a, calls, taken, h) && Scan(a, calls + [StepStarted(index)]).Some?
    ensures Served(a, calls, taken, h, StepStarted(index), [[Event("step-start " + Decimal(index))]])
  {
    hide Next, Feed, Lockstep, Flat, Scan, Settle;
    ScanAppend(a, calls, StepStarted(index));
    Indices(a);
    ReadStepStart(a, h, index);
    OneFrame(a, calls, taken, h, StepStarted(index), Event("step-start " + Decimal(index)), h.(active := true));
  }

  lemma StepEndServed(a: Assignment, calls: seq<Call>, taken: seq<bool>, h: Host, index: nat, r: StepResult)
    requires Guardable(a) && Linked(a, calls, taken, h) && Scan(a, calls + [StepFinished(index, r)]).Some?
    ensures Served(a, calls, taken, h, StepFinished(index, r), [[Event(StepEndText(index, r))]])
  {
    hide Next, Feed, Lockstep, Flat, Scan, Settle;
    ScanAppend(a, calls, StepFinished(index, r));
    Indices(a);
    ReadStepEnd(a, h, index, r);
    OneFrame(a, calls, taken, h, StepFinished(index, r), Event(StepEndText(index, r)),
             h.(record := h.record.(steps := h.record.steps + [r]), active := false));
  }

  lemma HeartbeatServed(a: Assignment, calls: seq<Call>, taken: seq<bool>, h: Host)
    requires Linked(a, calls, taken, h) && Scan(a, calls + [Heartbeat]).Some?
    ensures Served(a, calls, taken, h, Heartbeat, [[Event("heartbeat")]])
  {
    hide Next, Feed, Lockstep, Flat, Scan, Settle;
    ScanAppend(a, calls, Heartbeat);
    ReadHeartbeat(a, h);
    OneFrame(a, calls, taken, h, Heartbeat, Event("heartbeat"), h);
  }

  lemma TickServed(a: Assignment, calls: seq<Call>, taken: seq<bool>, h: Host)
    requires Linked(a, calls, taken, h) && Scan(a, calls + [Tick]).Some?
    ensures Served(a, calls, taken, h, Tick, [[Event("poll")]])
  {
    hide Next, Feed, Lockstep, Flat, Scan, Settle;
    ScanAppend(a, calls, Tick);
    ReadPoll(a, h);
    OneFrame(a, calls, taken, h, Tick, Event("poll"), h);
  }

  lemma ProgressServed(a: Assignment, calls: seq<Call>, taken: seq<bool>, h: Host, detail: Bytes)
    requires Linked(a, calls, taken, h) && Scan(a, calls + [Progress(detail)]).Some?
    ensures Served(a, calls, taken, h, Progress(detail), [[Event("progress " + HexOrDash(detail))]])
  {
    hide Next, Feed, Lockstep, Flat, Scan, Settle;
    ScanAppend(a, calls, Progress(detail));
    ReadProgress(a, h, detail);
    OneFrame(a, calls, taken, h, Progress(detail), Event("progress " + HexOrDash(detail)),
             h.(record := h.record.(detail := detail)));
  }

  // ----- output in pieces -------------------------------------------------------------

  /** One log request: the header is taken in silence, the piece is answered. */
  lemma PieceServed(a: Assignment, calls: seq<Call>, taken: seq<bool>, h: Host, index: nat, piece: string)
    requires Guardable(a) && Linked(a, calls, taken, h) && Scan(a, calls + [AppendLog(index, piece)]).Some?
    requires 0 < |piece| <= CHUNK_MAX
    ensures Served(a, calls, taken, h, AppendLog(index, piece), [[Event("log " + Decimal(index)), Chunk(piece)]])
  {
    hide Feed, Lockstep, Flat, Scan, Settle, Quiet;
    var c := AppendLog(index, piece);
    ScanAppend(a, calls, c);
    Indices(a);
    var header, waiting := Event("log " + Decimal(index)), h.(mode := AwaitLog);
    assert Next(a, h, Arrival(header, Ok)) == More(waiting) by { ReadLog(a, h, index); }
    NextInv(a, h, Arrival(header, Ok));
    QuietOne(a, h, header, waiting);
    var guard := GuardLog(a, h.guard, index, |piece|).value;
    var after := Deliver(waiting.(guard := guard, mode := AtEvent), c, Ok).h;
    assert Next(a, waiting, Arrival(Chunk(piece), Ok)) == More(after);
    NextInv(a, waiting, Arrival(Chunk(piece), Ok));
    Answered(a, h, [header], waiting, Chunk(piece), after);
    assert [header] + [Chunk(piece)] == [header, Chunk(piece)];
    SettleOne(a, h, [header, Chunk(piece)], after);
    PassedOn(a, calls, taken, h, c, after);
  }

  /** Writing two pieces one after the other is writing their concatenation. */
  lemma JoinWritesScan(a: Assignment, calls: seq<Call>, index: nat, x: string, y: string)
    requires Scan(a, calls + [AppendLog(index, x + y)]).Some?
    ensures Scan(a, calls + [AppendLog(index, x)]).Some?
    ensures Scan(a, calls + [AppendLog(index, x)] + [AppendLog(index, y)]) == Scan(a, calls + [AppendLog(index, x + y)])
  {
    hide Scan;
    ScanAppend(a, calls, AppendLog(index, x + y));
    ScanAppend(a, calls, AppendLog(index, x));
    ScanAppend(a, calls + [AppendLog(index, x)], AppendLog(index, y));
  }

  lemma JoinWritesFlat(calls: seq<Call>, index: nat, x: string, y: string)
    ensures Flat(calls + [AppendLog(index, x)] + [AppendLog(index, y)]) == Flat(calls + [AppendLog(index, x + y)])
  {
    hide Flat;
    FlatAppend(calls, AppendLog(index, x + y));
    FlatAppend(calls, AppendLog(index, x));
    FlatAppend(calls + [AppendLog(index, x)], AppendLog(index, y));
    assert FlatCall(AppendLog(index, x)) + FlatCall(AppendLog(index, y)) == FlatCall(AppendLog(index, x + y));
  }

  lemma {:induction false} LogServed(
      a: Assignment, calls: seq<Call>, taken: seq<bool>, h: Host, index: nat, bytes: string)
    requires Guardable(a) && Linked(a, calls, taken, h) && Scan(a, calls + [AppendLog(index, bytes)]).Some?
    ensures Served(a, calls, taken, h, AppendLog(index, bytes), LogRequests(index, bytes))
    decreases |bytes|
  {
    hide Scan, Flat, Feed, Next, Lockstep, StepInv;
    var c := AppendLog(index, bytes);
    if bytes == "" {
      ScanAppend(a, calls, c);
      FlatAppend(calls, c);
    } else if |bytes| <= CHUNK_MAX {
      PieceServed(a, calls, taken, h, index, bytes);
    } else {
      var x, y := bytes[..CHUNK_MAX], bytes[CHUNK_MAX..];
      var first := [Event("log " + Decimal(index)), Chunk(x)];
      assert bytes == x + y;
      JoinWritesScan(a, calls, index, x, y);
      JoinWritesFlat(calls, index, x, y);
      PieceServed(a, calls, taken, h, index, x);
      var middle := Settle(a, h, [first]).value;
      LogServed(a, calls + [AppendLog(index, x)], taken, middle, index, y);
      SettleMore(a, h, first, LogRequests(index, y));
    }
  }

  lemma SettleMore(a: Assignment, h: Host, first: Request, rest: seq<Request>)
    requires Inv(a, h) && Settle(a, h, [first]).Some?
    ensures Settle(a, h, [first] + rest) == Settle(a, Settle(a, h, [first]).value, rest)
  {
    assert ([first] + rest)[1..] == rest && [first][1..] == [];
  }

  // ----- bundles ----------------------------------------------------------------------

  /** The host after it has received all of the bytes it still waits for. */
  function Received(h: Host, bytes: string): Host
    requires h.mode.InArtifact? || h.mode.InPages?
  {
    match h.mode
    case InArtifact(artifact, _, received) =>
      h.(guard := h.guard.(left := 0), mode := InArtifact(artifact, 0, received + bytes))
    case InPages(_, received) => h.(mode := InPages(0, received + bytes))
  }

  /** The host after one chunk of an upload. */
  function AfterChunk(h: Host, x: string): Host
    requires (h.mode.InArtifact? || h.mode.InPages?) && |x| <= h.mode.left
  {
    match h.mode
    case InArtifact(artifact, left, received) =>
      h.(guard := h.guard.(left := left - |x|), mode := InArtifact(artifact, left - |x|, received + x))
    case InPages(left, received) => h.(mode := InPages(left - |x|, received + x))
  }

  lemma ChunkTaken(a: Assignment, h: Host, x: string)
    requires Inv(a, h) && (h.mode.InArtifact? || h.mode.InPages?) && 0 < |x| <= h.mode.left && |x| <= CHUNK_MAX
    ensures Next(a, h, Arrival(Chunk(x), Ok)) == More(AfterChunk(h, x))
  {
    hide Scan;
    if h.mode.InArtifact? {
      assert h.mode.left < U64_LIMIT && (h.mode.left - |x|) % U64_LIMIT == h.mode.left - |x|;
    }
  }

  lemma {:induction false} ChunksTaken(a: Assignment, h: Host, bytes: string)
    requires Inv(a, h) && (h.mode.InArtifact? || h.mode.InPages?) && h.mode.left == |bytes|
    ensures Quiet(a, h, Chunks(bytes))
    ensures Feed(a, More(h), Arriving(Chunks(bytes))) == More(Received(h, bytes))
    decreases |bytes|
  {
    hide Next, Feed, Quiet, Arriving, Scan;
    if bytes == "" {
      QuietNone(a, h);
      FeedNone(a, More(h));
      NothingReceived(a, h);
    } else {
      var n := if |bytes| <= CHUNK_MAX then |bytes| else CHUNK_MAX;
      var x, y := bytes[..n], bytes[n..];
      ChunksHead(bytes);
      ChunkTaken(a, h, x);
      var middle := AfterChunk(h, x);
      ChunkKeepsInv(a, h, x);
      QuietOne(a, h, Chunk(x), middle);
      ChunksTaken(a, middle, y);
      FeedConcat(a, More(h), [Chunk(x)], Chunks(y));
      QuietConcat(a, h, [Chunk(x)], middle, Chunks(y));
      ReceivedTwice(h, x, y);
      assert x + y == bytes;
    }
  }

  lemma ChunkKeepsInv(a: Assignment, h: Host, x: string)
    requires Inv(a, h) && (h.mode.InArtifact? || h.mode.InPages?) && 0 < |x| <= h.mode.left && |x| <= CHUNK_MAX
    ensures Inv(a, AfterChunk(h, x))
  {
    hide Next, Scan;
    ChunkTaken(a, h, x);
    NextInv(a, h, Arrival(Chunk(x), Ok));
  }

  lemma NothingReceived(a: Assignment, h: Host)
    requires Inv(a, h) && (h.mode.InArtifact? || h.mode.InPages?) && h.mode.left == 0
    ensures Received(h, "") == h
  {
    assert h.mode.received + "" == h.mode.received;
  }

  lemma ReceivedTwice(h: Host, x: string, y: string)
    requires (h.mode.InArtifact? || h.mode.InPages?) && |x| <= h.mode.left
    ensures Received(AfterChunk(h, x), y) == Received(h, x + y)
  {
    assert h.mode.received + x + y == h.mode.received + (x + y);
  }

  /** An upload is taken in silence up to its end marker, which is answered. */
  lemma UploadServed(a: Assignment, h: Host, header: string, bytes: string, open: Host, after: Host)
    requires Inv(a, h) && Next(a, h, Arrival(Event(header), Ok)) == More(open)
    requires open.replies == h.replies && (open.mode.InArtifact? || open.mode.InPages?)
    requires open.mode.left == |bytes| && open.mode.received == "" && |open.guard.put| == |a.jobs|
    requires Next(a, Received(open, bytes), Arrival(Done(Empty), Ok)) == More(after)
    requires after.replies == h.replies + [Ok]
    ensures Inv(a, after) && Settle(a, h, [Upload(header, bytes)]) == Some(after)
  {
    hide Next, Feed, Quiet, Arriving, Lockstep, Settle, Scan;
    NextInv(a, h, Arrival(Event(header), Ok));
    QuietOne(a, h, Event(header), open);
    ChunksTaken(a, open, bytes);
    FeedConcat(a, More(h), [Event(header)], Chunks(bytes));
    QuietConcat(a, h, [Event(header)], open, Chunks(bytes));
    var frames := [Event(header)] + Chunks(bytes);
    FeedKeepsInv(a, open, Chunks(bytes), Received(open, bytes));
    NextInv(a, Received(open, bytes), Arrival(Done(Empty), Ok));
    Answered(a, h, frames, Received(open, bytes), Done(Empty), after);
    SettleOne(a, h, frames + [Done(Empty)], after);
  }

  lemma FeedKeepsInv(a: Assignment, h: Host, frames: seq<Frame>, after: Host)
    requires Inv(a, h) && Feed(a, More(h), Arriving(frames)) == More(after)
    ensures Inv(a, after)
  {
    hide Next, Inv, Scan;
    assert StepInv(a, Feed(a, More(h), Arriving(frames)));
  }

  /** A free slot whose job has finished exists whenever the order admits the artifact. */
  lemma SlotExists(a: Assignment, h: Host, v: View, c: Call)
    requires Inv(a, h) && h.mode.AtEvent? && Scan(a, h.calls) == Some(v) && c.PutArtifact? && MayPutArtifact(a, v, c)
    ensures var slot := Slot(a, h.guard.put, c.artifact, 0);
            slot < |a.jobs| && StepsThrough(a.jobs, slot + 1) <= |h.record.steps|
  {
    var taken := Taken(a, h.guard.put, c.artifact);
    var producers := Producers(a.jobs, c.artifact, |h.record.steps|);
    if producers <= taken {
      SubsetSize(producers, taken);
      assert false;
    }
    var j :| j in producers && j !in taken;
    assert FreeSlot(a, h.guard.put, c.artifact, j);
    var slot := Slot(a, h.guard.put, c.artifact, 0);
    assert slot <= j;
    StepsThroughMonotone(a.jobs, slot + 1, j + 1);
  }

  /** The host once it has handed the artifact of `slot` over. */
  function Handed(a: Assignment, h: Host, slot: nat, c: Call): Host
    requires slot < |h.guard.put| && c.PutArtifact?
  {
    h.(guard := h.guard.(put := h.guard.put[slot := true], left := 0, open := false),
       outputs := h.outputs + [Output(c.artifact.name, a.isRelease, c.artifact.retentionDays, c.note)])
  }

  lemma BundleServed(a: Assignment, h: Host, slot: U64, c: Call)
    requires Inv(a, h) && h.mode.AtEvent? && h.started && !h.active && c.PutArtifact? && c.note == []
    requires slot < |a.jobs| && !h.guard.put[slot] && a.jobs[slot].artifact == Some(c.artifact)
    requires h.record.steps != [] && StepsThrough(a.jobs, slot as int + 1) <= |h.record.steps| &&
             LastGood(h.record.steps)
    requires |c.bundle| <= a.maxArtifact && c.release == a.isRelease
    ensures var after := Ack(Handed(a, h, slot, c).(calls := h.calls + [c]), Ok).h;
            Inv(a, after) && Settle(a, h, [Upload(ArtifactText(slot, |c.bundle|, []), c.bundle)]) == Some(after)
  {
    hide Feed, Lockstep, Scan, Settle, Quiet, Producers;
    var size := |c.bundle|;
    ReadArtifact(a, h, slot, size, []);
    var begun := h.guard.(put := h.guard.put[slot := true], left := size, open := true);
    var open := h.(guard := begun, mode := InArtifact(c.artifact, size, ""));
    var after := Ack(Handed(a, h, slot, c).(calls := h.calls + [c]), Ok).h;
    assert "" + c.bundle == c.bundle;
    UploadServed(a, h, ArtifactText(slot, size, []), c.bundle, open, after);
  }

  lemma NoteServed(a: Assignment, h: Host, slot: U64, c: Call)
    requires Inv(a, h) && h.mode.AtEvent? && h.started && !h.active && c.PutArtifact? && c.note != []
    requires slot < |a.jobs| && !h.guard.put[slot] && a.jobs[slot].artifact == Some(c.artifact)
    requires h.record.steps != [] && StepsThrough(a.jobs, slot as int + 1) <= |h.record.steps| &&
             LastGood(h.record.steps)
    requires |c.note| <= MAX_DETAIL_BYTES && c.bundle == "" && c.release == a.isRelease
    ensures Next(a, h, Arrival(Event(ArtifactText(slot, 0, c.note)), Ok)) == Deliver(Handed(a, h, slot, c), c, Ok)
  {
    hide Feed, Scan, Producers, Next;
    ReadArtifact(a, h, slot, 0, c.note);
  }

  lemma ArtifactServed(a: Assignment, calls: seq<Call>, taken: seq<bool>, h: Host, c: Call)
    requires Guardable(a) && Linked(a, calls, taken, h) && Scan(a, calls + [c]).Some? && c.PutArtifact?
    ensures var requests := Requests(a, taken, c);
            requests.Some? && Served(a, calls, taken, h, c, requests.value)
  {
    hide Feed, Lockstep, Flat, Scan, Settle, Quiet, Next, Producers;
    ScanAppend(a, calls, c);
    Indices(a);
    SlotExists(a, h, Scan(a, calls).value, c);
    var slot := Slot(a, taken, c.artifact, 0);
    assert FreeSlot(a, taken, c.artifact, slot);
    if c.note == [] {
      BundleServed(a, h, slot, c);
      PassedOn(a, calls, taken, h, c, Ack(Handed(a, h, slot, c).(calls := h.calls + [c]), Ok).h);
    } else {
      NoteServed(a, h, slot, c);
      OneFrame(a, calls, taken, h, c, Event(ArtifactText(slot, 0, c.note)), Handed(a, h, slot, c));
    }
  }

  lemma PagesServed(a: Assignment, calls: seq<Call>, taken: seq<bool>, h: Host, archive: string)
    requires Linked(a, calls, taken, h) && Scan(a, calls + [PutPages(archive)]).Some?
    ensures var requests := Requests(a, taken, PutPages(archive));
            requests.Some? && Served(a, calls, taken, h, PutPages(archive), requests.value)
  {
    hide Feed, Lockstep, Flat, Scan, Settle, Quiet;
    var c := PutPages(archive);
    ScanAppend(a, calls, c);
    ReadPages(a, h, |archive|);
    var open := h.(mode := InPages(|archive|, ""));
    assert "" + archive == archive;
    var after := Deliver(h.(pages := true), c, Ok).h;
    UploadServed(a, h, "pages " + Decimal(|archive|), archive, open, after);
    PassedOn(a, calls, taken, h, c, after);
  }

  // ----- whole runs -------------------------------------------------------------------

  lemma CallServed(a: Assignment, calls: seq<Call>, taken: seq<bool>, h: Host, c: Call)
    requires Guardable(a) && Linked(a, calls, taken, h) && Scan(a, calls + [c]).Some?
    ensures var requests := Requests(a, taken, c);
            requests.Some? && Served(a, calls, taken, h, c, requests.value)
  {
    hide Linked, Scan, Feed, Settle, LogRequests;
    match c
    case RunStarted(epoch) => StartedServed(a, calls, taken, h, epoch);
    case StepStarted(index) => StepStartServed(a, calls, taken, h, index);
    case AppendLog(index, bytes) => LogServed(a, calls, taken, h, index, bytes);
    case StepFinished(index, result) => StepEndServed(a, calls, taken, h, index, result);
    case Heartbeat => HeartbeatServed(a, calls, taken, h);
    case Tick => TickServed(a, calls, taken, h);
    case Progress(detail) => ProgressServed(a, calls, taken, h, detail);
    case PutArtifact(_, _, _, _) => ArtifactServed(a, calls, taken, h, c);
    case PutPages(archive) => PagesServed(a, calls, taken, h, archive);
  }

  /** Guest slots and host after the guest was given `calls`, or None if either end got stuck. */
  ghost function Serve(a: Assignment, calls: seq<Call>): (r: Option<(seq<bool>, Host)>)
    ensures r.Some? ==> |r.value.0| == |a.jobs| && Inv(a, r.value.1)
    decreases |calls|
  {
    hide Next, Scan, Feed, Settle;
    if calls == [] then
      StartInv(a);
      Some((NewGuard(a).put, Start(a)))
    else
      match Serve(a, calls[..|calls| - 1])
      case None => None
      case Some((taken, h)) =>
        var c := calls[|calls| - 1];
        match Requests(a, taken, c)
        case None => None
        case Some(requests) =>
          match Settle(a, h, requests)
          case None => None
          case Some(after) => Some((TakenAfter(a, taken, c), after))
  }

  /**
   Callbacks in the sink order, given to the guest one after the other, all come through:
   neither end gets stuck, and the host's sink is called with the same callbacks carrying
   the same log and artifact bytes.
   */
  lemma {:induction false} Faithful(a: Assignment, calls: seq<Call>)
    requires Guardable(a) && Scan(a, calls).Some?
    ensures var r := Serve(a, calls);
            && r.Some? && Linked(a, calls, r.value.0, r.value.1)
            && Flat(r.value.1.calls) == Flat(calls)
    decreases |calls|
  {
    hide Next, Inv, Feed, Settle;
    if calls == [] {
      StartInv(a);
    } else {
      var init, c := calls[..|calls| - 1], calls[|calls| - 1];
      assert calls == init + [c];
      Faithful(a, init);
      var r := Serve(a, init).value;
      CallServed(a, init, r.0, r.1, c);
    }
  }

  /** A terminal report that says what the callbacks said. */
  predicate Honest(a: Assignment, v: View, report: F.Report) {
    && !v.active && report.steps == v.steps && report.outputs == v.outputs
    && (v.started ==> report.startedEpoch == v.epoch)
    && (report.status == Succeeded ==> v.started && |v.steps| == |StepNames(a.jobs)| && AllGood(v.steps))
  }

  // ----- everything the guest sends fits into frames --------------------------------------------

  lemma HexOrDashLength(b: Bytes)
    ensures |HexOrDash(b)| <= 1 + 2 * |b|
  {
  }

  lemma SignedLength(n: I32)
    ensures |Signed(n)| <= 21
  {
    var magnitude: int := if n < 0 then 0 - n else n;
    U64Length(magnitude);
  }

  predicate RequestsFit(requests: seq<Request>) {
    forall i | 0 <= i < |requests| :: AllFit(requests[i])
  }

  lemma OneFits(text: string)
    requires |text| <= CONTROL_MAX
    ensures RequestsFit([[Event(text)]])
  {
  }

  lemma UploadFits(header: string, bytes: string)
    requires |header| <= CONTROL_MAX
    ensures RequestsFit([Upload(header, bytes)])
  {
    ChunksFit(bytes);
  }

  lemma {:induction false} LogFits(index: U64, bytes: string)
    ensures RequestsFit(LogRequests(index, bytes))
    decreases |bytes|
  {
    U64Length(index);
    if |bytes| > CHUNK_MAX {
      LogFits(index, bytes[CHUNK_MAX..]);
    }
  }

  lemma StepEndFits(index: U64, r: StepResult)
    requires |r.name| <= MAX_DETAIL_BYTES
    ensures |StepEndText(index, r)| <= CONTROL_MAX
  {
    hide Decimal, HexOrDash, Signed;
    U64Length(index);
    SignedLength(r.exitCode);
    HexOrDashLength(r.name);
  }

  lemma ArtifactFits(slot: U64, size: U64, note: Bytes)
    requires |note| <= MAX_DETAIL_BYTES
    ensures |ArtifactText(slot, size, note)| <= CONTROL_MAX
  {
    hide Decimal, HexOrDash;
    U64Length(slot);
    U64Length(size);
    HexOrDashLength(note);
  }

  /** The numbers and texts of a callback that its frames carry. */
  predicate Bounded(c: Call) {
    match c
    case StepStarted(index) => index < U64_LIMIT
    case AppendLog(index, _) => index < U64_LIMIT
    case StepFinished(index, result) => index < U64_LIMIT && |result.name| <= MAX_DETAIL_BYTES
    case Progress(detail) => |detail| <= MAX_DETAIL_BYTES
    case PutArtifact(_, _, note, _) => |note| <= MAX_DETAIL_BYTES
    case PutPages(archive) => |archive| < U64_LIMIT
    case _ => true
  }

  lemma AdmittedIsBounded(a: Assignment, calls: seq<Call>, c: Call)
    requires Guardable(a) && Scan(a, calls + [c]).Some?
    ensures Bounded(c)
  {
    ScanAppend(a, calls, c);
    StepNamesBound(a.jobs);
    StepsBound(a, calls);
    hide Scan, StepNames, Producers, AllGood;
  }

  lemma JobsBound(a: Assignment)
    requires Guardable(a)
    ensures |a.jobs| < U64_LIMIT
  {
  }

  /** Every frame of an admitted callback is within the frame encoder's limits: only the report can be too long. */
  lemma CallsFit(a: Assignment, calls: seq<Call>, taken: seq<bool>, c: Call)
    requires Guardable(a) && |taken| == |a.jobs| && Scan(a, calls + [c]).Some? && Requests(a, taken, c).Some?
    ensures RequestsFit(Requests(a, taken, c).value)
  {
    AdmittedIsBounded(a, calls, c);
    JobsBound(a);
    hide Scan, Decimal, HexOrDash, Signed, RequestsFit, LogRequests, Upload, StepEndText, ArtifactText, Guardable;
    match c {
      case RunStarted(epoch) =>
        U64Length(epoch);
        OneFits("started " + Decimal(epoch));
      case StepStarted(index) =>
        U64Length(index);
        OneFits("step-start " + Decimal(index));
      case AppendLog(index, bytes) => LogFits(index, bytes);
      case StepFinished(index, result) =>
        StepEndFits(index, result);
        OneFits(StepEndText(index, result));
      case Heartbeat => OneFits("heartbeat");
      case Tick => OneFits("poll");
      case Progress(detail) =>
        HexOrDashLength(detail);
        OneFits("progress " + HexOrDash(detail));
      case PutArtifact(artifact, bundle, note, _) =>
        var slot, size: nat := Slot(a, taken, artifact, 0), if note == [] then |bundle| else 0;
        ArtifactFits(slot, size, note);
        OneFits(ArtifactText(slot, size, note));
        UploadFits(ArtifactText(slot, size, note), bundle);
      case PutPages(archive) =>
        U64Length(|archive|);
        UploadFits("pages " + Decimal(|archive|), archive);
    }
  }

  // ----- the terminal report ----------------------------------------------------------------------

  lemma ReadFinish(a: Assignment, h: Host, report: F.Report)
    requires |h.guard.put| == |a.jobs| && h.mode.AtEvent? && !h.cancelSent && F.Parses(report)
    ensures var s := Next(a, h, Arrival(Done(Finish(report)), Ok));
            && (s.Returned? <==> Consistent(a, h, report))
            && (s.Returned? ==>
                  && s.h.replies == h.replies + [Ok]
                  && s.record == Record(report.status, report.startedEpoch, report.detail, report.steps))
  {
    hide F.Parses;
  }

  /** What the callbacks say, an idle host that heard them agrees with. */
  lemma HonestIsConsistent(a: Assignment, calls: seq<Call>, report: F.Report)
    requires Guardable(a) && Scan(a, calls).Some? && Honest(a, Scan(a, calls).value, report)
    ensures Serve(a, calls).Some?
    ensures var h := Serve(a, calls).value.1;
            && |h.guard.put| == |a.jobs| && h.mode.AtEvent? && !h.cancelSent && Consistent(a, h, report)
            && h.outputs == report.outputs
  {
    hide Next, Scan, Feed, Serve;
    Faithful(a, calls);
  }

  /** The host returned what the report says. */
  predicate Returns(s: Step, report: F.Report) {
    s.Returned? && s.record == Record(report.status, report.startedEpoch, report.detail, report.steps)
  }

  /**
   After such callbacks an honest terminal report is sent, acknowledged and returned as it is
   if and only if it is within the parser's bounds and its text fits into a frame.
   */
  lemma FinishReturnedIff(a: Assignment, calls: seq<Call>, report: F.Report)
    requires Guardable(a) && Scan(a, calls).Some? && Honest(a, Scan(a, calls).value, report)
    ensures Serve(a, calls).Some?
    ensures var h, frame := Serve(a, calls).value.1, FinishFrame(report);
            && |h.guard.put| == |a.jobs|
            && ((frame.Some? && Returns(Next(a, h, Arrival(frame.value, Ok)), report)) <==>
                  F.Parses(report) && F.Print(report).Some? && |F.Print(report).value| <= CONTROL_MAX)
  {
    HonestIsConsistent(a, calls, report);
    hide Scan, Serve, Consistent, F.Parses, F.Print, F.Parse, Honest;
    var h := Serve(a, calls).value.1;
    if F.Print(report).Some? && |F.Print(report).value| <= CONTROL_MAX {
      var text := F.Print(report).value;
      F.PrintParsesIff(report);
      ContentParses(text);
      if F.Parses(report) {
        F.ParsesPrints(report);
        assert Content(text) == Finish(report);
        hide Next, Content;
        ReadFinish(a, h, report);
      } else if Content(text).Finish? {
        var read := Content(text).report;
        hide Content;
        ReadFinish(a, h, read);
        if Returns(Next(a, h, Arrival(Done(Finish(read)), Ok)), report) {
          SameButExecution(a, h, read, report);
        }
      }
    }
  }

  /** A report that reads with the same steps, outputs and detail is within its bounds for the same reasons. */
  lemma SameButExecution(a: Assignment, h: Host, read: F.Report, report: F.Report)
    requires F.Parses(read) && Consistent(a, h, read) && h.outputs == report.outputs && F.Print(report).Some?
    requires read.status == report.status && read.detail == report.detail && read.steps == report.steps
    ensures F.Parses(report)
  {
    if report.execution.Some? {
      F.E.FormatSucceeds(report.execution.value);
    }
    hide F.E.Format, F.LinesOf, Unlines, F.StepOk, F.OutputOk, F.E.Printable;
  }

  // ----- a run whose report is lost ------------------------------------------------------------------

  /** Jobs of 128 unnamed steps each, which are reported under their job's name. */
  function WideJobs(names: seq<Bytes>): seq<Job> {
    seq(|names|, j requires 0 <= j < |names| => Job(names[j], seq(MAX_STEPS_PER_JOB, _ => []), None))
  }

  predicate AllWide(names: seq<Bytes>, width: nat) {
    forall i | 0 <= i < |names| :: |names[i]| == width
  }

  lemma {:induction false} WideNames(names: seq<Bytes>, width: nat)
    requires AllWide(names, width)
    ensures var all := StepNames(WideJobs(names));
            |all| == MAX_STEPS_PER_JOB * |names| && AllWide(all, width)
    decreases |names|
  {
    if names != [] {
      var init := names[..|names| - 1];
      assert WideJobs(names)[..|names| - 1] == WideJobs(init);
      WideNames(init, width);
    }
  }

  function Success(name: Bytes): StepResult {
    StepResult(name, 0, false, false)
  }

  function Successes(a: Assignment, n: nat): seq<StepResult>
    requires n <= |StepNames(a.jobs)|
  {
    seq(n, i requires 0 <= i < n => Success(StepNames(a.jobs)[i]))
  }

  /** The run starts and its first `n` steps succeed, silently. */
  function QuietRun(a: Assignment, n: nat): seq<Call>
    requires n <= |StepNames(a.jobs)|
  {
    if n == 0 then [RunStarted(1)]
    else QuietRun(a, n - 1) + [StepStarted(n - 1)] + [StepFinished(n - 1, Success(StepNames(a.jobs)[n - 1]))]
  }

  function QuietView(a: Assignment, n: nat): View
    requires n <= |StepNames(a.jobs)|
  {
    NOTHING.(started := true, epoch := 1, steps := Successes(a, n))
  }

  /** One more step of such a run. */
  lemma QuietStep(a: Assignment, n: nat)
    requires n < |StepNames(a.jobs)| && |StepNames(a.jobs)[n]| <= MAX_DETAIL_BYTES
    ensures var begun := Admit(a, QuietView(a, n), StepStarted(n));
            && begun == Some(QuietView(a, n).(active := true, logged := 0))
            && Admit(a, begun.value, StepFinished(n, Success(StepNames(a.jobs)[n]))) == Some(QuietView(a, n + 1))
  {
    hide StepNames;
    assert Successes(a, n + 1) == Successes(a, n) + [Success(StepNames(a.jobs)[n])];
  }

  lemma {:induction false} QuietRunIsAdmitted(a: Assignment, n: nat)
    requires n <= |StepNames(a.jobs)|
    requires forall i | 0 <= i < |StepNames(a.jobs)| :: |StepNames(a.jobs)[i]| <= MAX_DETAIL_BYTES
    ensures Scan(a, QuietRun(a, n)) == Some(QuietView(a, n))
  {
    if n == 0 {
      QuietStart(a);
    } else {
      hide Scan, Admit, QuietView, Success, StepNames;
      QuietRunIsAdmitted(a, n - 1);
      QuietStep(a, n - 1);
      var begun := QuietRun(a, n - 1) + [StepStarted(n - 1)];
      ScanAppend(a, QuietRun(a, n - 1), StepStarted(n - 1));
      ScanAppend(a, begun, StepFinished(n - 1, Success(StepNames(a.jobs)[n - 1])));
    }
  }

  lemma QuietStart(a: Assignment)
    ensures Scan(a, [RunStarted(1)]) == Some(QuietView(a, 0))
  {
    hide StepNames;
    ScanAppend(a, [], RunStarted(1));
    assert [] + [RunStarted(1)] == [RunStarted(1)];
    assert Successes(a, 0) == [];
  }

  /** The report of such a run. */
  function QuietReport(a: Assignment, n: nat): F.Report
    requires n <= |StepNames(a.jobs)|
  {
    F.Report(Succeeded, 1, [], Successes(a, n), [], None)
  }

  lemma QuietReportIsFine(a: Assignment, width: nat)
    requires AllWide(StepNames(a.jobs), width) && width <= F.MAX_LABEL_BYTES && |StepNames(a.jobs)| <= MAX_STEPS
    ensures var n := |StepNames(a.jobs)|;
            F.Parses(QuietReport(a, n)) && Honest(a, QuietView(a, n), QuietReport(a, n))
  {
    hide StepNames, F.E.Printable;
  }

  lemma QuietReportIsLong(a: Assignment, width: nat)
    requires AllWide(StepNames(a.jobs), width) && width > 0
    ensures var r := QuietReport(a, |StepNames(a.jobs)|);
            F.Print(r).Some? ==> |F.Print(r).value| >= (12 + 2 * width) * |StepNames(a.jobs)|
  {
    var r := QuietReport(a, |StepNames(a.jobs)|);
    hide StepNames, F.Print;
    if F.Print(r).Some? {
      F.LongReport(r, width);
    }
  }

  /**
   Not every run's report fits: fifteen jobs of 128 unnamed steps, under job names of 64 bytes,
   all of them successful. Each callback comes through and the report is honest and within the
   parser's bounds, but its 1920 lines of 140 bytes are more than a frame takes, so it is never sent.
   */
  lemma ReportIsLost(a: Assignment, names: seq<Bytes>)
    requires |names| == 15 && AllWide(names, 64) && a.jobs == WideJobs(names)
    ensures Guardable(a) && |StepNames(a.jobs)| == 1920
    ensures var calls, report := QuietRun(a, 1920), QuietReport(a, 1920);
            && Scan(a, calls).Some? && Serve(a, calls).Some?
            && Honest(a, Scan(a, calls).value, report) && F.Parses(report)
            && FinishFrame(report) == None
  {
    assert Guardable(a);
    WideNames(names, 64);
    hide *;
    assert forall i | 0 <= i < 1920 :: |StepNames(a.jobs)[i]| <= MAX_DETAIL_BYTES by {
      WideIsShort(StepNames(a.jobs));
    }
    QuietRunIsAdmitted(a, 1920);
    Faithful(a, QuietRun(a, 1920));
    QuietReportIsFine(a, 64);
    QuietReportIsLong(a, 64);
    F.ParsesPrints(QuietReport(a, 1920));
    TooLongForAFrame(QuietReport(a, 1920));
  }

  lemma WideIsShort(names: seq<Bytes>)
    requires AllWide(names, 64)
    ensures forall i | 0 <= i < |names| :: |names[i]| <= MAX_DETAIL_BYTES
  {
  }

  lemma TooLongForAFrame(report: F.Report)
    requires F.Print(report).Some? && |F.Print(report).value| >= 140 * 1920
    ensures FinishFrame(report) == None
  {
    hide F.Print;
  }
}
