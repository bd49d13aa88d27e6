/**
 The guest end of the VM result protocol: every callback of the executor becomes
 requests, and each request is a run of frames after which the guest waits for one
 answer of the host.
 */
module VmGuest {
  import opened Wrappers
  import opened Text
  import opened Records
  import opened SinkOrder
  import opened VmHost
  import F = FinishReport

  type Request = seq<Frame>

  function Chunks(bytes: string): seq<Frame> {
    if bytes == "" then []
    else if |bytes| <= CHUNK_MAX then [Chunk(bytes)]
    else [Chunk(bytes[..CHUNK_MAX])] + Chunks(bytes[CHUNK_MAX..])
  }

  lemma ChunksHead(bytes: string)
    requires bytes != ""
    ensures var n := if |bytes| <= CHUNK_MAX then |bytes| else CHUNK_MAX;
            Chunks(bytes) == [Chunk(bytes[..n])] + Chunks(bytes[n..])
  {
    if |bytes| <= CHUNK_MAX {
      assert bytes[..|bytes|] == bytes && bytes[|bytes|..] == "";
    }
  }

  lemma {:induction false} ChunksFit(bytes: string)
    ensures AllFit(Chunks(bytes))
  {
    if |bytes| > CHUNK_MAX {
      ChunksFit(bytes[CHUNK_MAX..]);
    }
  }

  function Upload(header: string, bytes: string): Request {
    [Event(header)] + Chunks(bytes) + [Done(Empty)]
  }

  /** One request per piece of at most CHUNK_MAX bytes; nothing for no output. */
  function LogRequests(index: nat, bytes: string): seq<Request> {
    if bytes == "" then []
    else if |bytes| <= CHUNK_MAX then [[Event("log " + Decimal(index)), Chunk(bytes)]]
    else [[Event("log " + Decimal(index)), Chunk(bytes[..CHUNK_MAX])]] + LogRequests(index, bytes[CHUNK_MAX..])
  }

  /** The frame encoder takes the payload; that of a report is measured as text, in FinishFrame. */
  predicate Fits(f: Frame) {
    match f
    case Event(text) => |text| <= CONTROL_MAX
    case Chunk(bytes) => |bytes| <= CHUNK_MAX
    case _ => true
  }

  predicate AllFit(request: Request) {
    forall i | 0 <= i < |request| :: Fits(request[i])
  }

  /** What goes out of a request: everything before a frame the encoder refuses. */
  function Sent(request: Request): Request {
    if request == [] || !Fits(request[0]) then [] else [request[0]] + Sent(request[1..])
  }

  lemma {:induction false} SentWhole(request: Request)
    ensures AllFit(request) ==> Sent(request) == request
  {
    if request != [] {
      SentWhole(request[1..]);
    }
  }

  /** The frame of a terminal report; None when formatting throws or the text is too long for a frame. */
  function FinishFrame(report: F.Report): Option<Frame> {
    match F.Print(report)
    case None => None
    case Some(text) => if |text| > CONTROL_MAX then None else Some(Done(Content(text)))
  }

  function StepEndText(index: nat, r: StepResult): string {
    "step-end " + Decimal(index) + " " +
    (Signed(r.exitCode) + " " + Flag(r.timedOut) + " " + Flag(r.truncated) + " " + HexOrDash(r.name))
  }

  function ArtifactText(slot: nat, size: nat, note: Bytes): string {
    "artifact " + Decimal(slot) + " " + Decimal(size) + " " + HexOrDash(note)
  }

  predicate FreeSlot(a: Assignment, taken: seq<bool>, artifact: Artifact, j: nat)
    requires |taken| == |a.jobs|
  {
    j < |taken| && !taken[j] && a.jobs[j].artifact == Some(artifact)
  }

  /** The first free slot from `j` on that declares the artifact, or |taken|. */
  function Slot(a: Assignment, taken: seq<bool>, artifact: Artifact, j: nat): (s: nat)
    requires |taken| == |a.jobs| && j <= |taken|
    ensures j <= s <= |taken|
    ensures s < |taken| ==> FreeSlot(a, taken, artifact, s)
    ensures forall k | j <= k < s :: !FreeSlot(a, taken, artifact, k)
    decreases |taken| - j
  {
    if j == |taken| || FreeSlot(a, taken, artifact, j) then j else Slot(a, taken, artifact, j + 1)
  }

  /** What the guest sends for a callback, or None when it refuses to send anything. */
  function Requests(a: Assignment, taken: seq<bool>, c: Call): Option<seq<Request>>
    requires |taken| == |a.jobs|
  {
    match c
    case RunStarted(epoch) => Some([[Event("started " + Decimal(epoch))]])
    case StepStarted(index) => Some([[Event("step-start " + Decimal(index))]])
    case AppendLog(index, bytes) => Some(LogRequests(index, bytes))
    case StepFinished(index, result) => Some([[Event(StepEndText(index, result))]])
    case Heartbeat => Some([[Event("heartbeat")]])
    case Tick => Some([[Event("poll")]])
    case Progress(detail) => Some([[Event("progress " + HexOrDash(detail))]])
    case PutArtifact(artifact, bundle, note, release) =>
      var slot := Slot(a, taken, artifact, 0);
      var size := if note == [] then |bundle| else 0;
      if release != a.isRelease || slot == |taken| || size > a.maxArtifact then None
      else if note == [] then Some([Upload(ArtifactText(slot, size, note), bundle)])
      else Some([[Event(ArtifactText(slot, size, note))]])
    case PutPages(archive) =>
      if a.isDefaultBranch && !a.isRelease && a.hasPages
      then Some([Upload("pages " + Decimal(|archive|), archive)]) else None
  }

  /** The slots in use after the callback; an artifact over the limit keeps the slot it was refused in. */
  function TakenAfter(a: Assignment, taken: seq<bool>, c: Call): (after: seq<bool>)
    requires |taken| == |a.jobs|
    ensures |after| == |taken|
  {
    if c.PutArtifact? && c.release == a.isRelease && Slot(a, taken, c.artifact, 0) < |taken|
    then taken[Slot(a, taken, c.artifact, 0) := true] else taken
  }
}
