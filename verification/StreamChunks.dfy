/**
 How the bytes of a stream are split across reads does not matter to the frame parser,
 as long as no header line is too long; and what it keeps between reads stays small.
 */
module StreamChunks {
  import opened Wrappers
  import opened Text
  import opened StreamSession

  const READ_SIZE := 0x1_0000

  function Concat(chunks: seq<string>): string {
    if chunks == [] then "" else Concat(chunks[..|chunks| - 1]) + chunks[|chunks| - 1]
  }

  /** One more read: the bytes join those left over. */
  function Then(env: Env, d: Drained, bytes: string): Drained {
    match d
    case Waiting(s, rest) => Drain(env, s, rest + bytes)
    case other => other
  }

  /** The reads of a whole connection, one Drain for each. */
  function Reads(env: Env, s: Session, chunks: seq<string>): Drained {
    if chunks == [] then Waiting(s, "") else Then(env, Reads(env, s, chunks[..|chunks| - 1]), chunks[|chunks| - 1])
  }

  predicate LongHeader(buffer: string) {
    var newline := Find(buffer, '\n');
    newline < |buffer| && newline > MAX_HEADER
  }

  /** Every header line the parser reaches in this stream is at most MAX_HEADER bytes long. */
  predicate ShortHeaders(env: Env, s: Session, buffer: string)
    decreases |buffer|
  {
    && !LongHeader(buffer)
    && match FrontOf(buffer)
       case Complete(f, size) =>
         (match Apply(env, s, f)
          case Continue(next) => ShortHeaders(env, next, buffer[size..])
          case _ => true)
       case _ => true
  }

  lemma {:induction false} FindExtends(x: string, c: char, y: string)
    ensures Find(x, c) < |x| ==> Find(x + y, c) == Find(x, c)
    ensures Find(x, c) == |x| ==> Find(x + y, c) == |x| + Find(y, c)
  {
    if x == "" {
      assert x + y == y;
    } else if x[0] != c {
      assert (x + y)[1..] == x[1..] + y;
      FindExtends(x[1..], c, y);
    }
  }

  /** A frame that is complete, or refused, stays so when more bytes follow. */
  lemma FrontExtends(x: string, y: string)
    requires !LongHeader(x + y)
    ensures FrontOf(x).Complete? ==> FrontOf(x + y) == FrontOf(x)
    ensures FrontOf(x).Bad? ==> FrontOf(x + y) == FrontOf(x)
  {
    hide Split, Find, ParseU64;
    FindExtends(x, '\n', y);
    var newline := Find(x, '\n');
    if newline < |x| {
      assert (x + y)[..newline] == x[..newline];
      var tokens := Split(x[..newline], ' ');
      if tokens[0] == "log" {
        LogFrontExtends(x, y, newline, tokens);
      }
    }
  }

  lemma LogFrontExtends(x: string, y: string, newline: nat, tokens: seq<string>)
    requires newline < |x|
    ensures !LogFront(x, newline, tokens).Partial? ==> LogFront(x + y, newline, tokens) == LogFront(x, newline, tokens)
  {
    hide ParseU64;
    var front := LogFront(x, newline, tokens);
    if front.Complete? {
      assert (x + y)[newline + 1..front.size] == x[newline + 1..front.size];
    }
  }

  /** Draining in two steps is draining at once. */
  lemma {:induction false} DrainSplit(env: Env, s: Session, x: string, y: string)
    requires ShortHeaders(env, s, x + y)
    ensures Then(env, Drain(env, s, x), y) == Drain(env, s, x + y)
    decreases |x|
  {
    hide FrontOf, Apply, LongHeader;
    FrontExtends(x, y);
    match FrontOf(x) {
      case Complete(f, size) =>
        match Apply(env, s, f) {
          case Continue(next) =>
            assert (x + y)[size..] == x[size..] + y;
            DrainSplit(env, next, x[size..], y);
          case _ =>
        }
      case _ =>
    }
  }

  lemma {:induction false} ShortPrefix(env: Env, s: Session, x: string, y: string)
    requires ShortHeaders(env, s, x + y)
    ensures ShortHeaders(env, s, x)
    decreases |x|
  {
    assert !LongHeader(x) by {
      FindExtends(x, '\n', y);
    }
    hide FrontOf, Apply, LongHeader;
    FrontExtends(x, y);
    match FrontOf(x) {
      case Complete(f, size) =>
        match Apply(env, s, f) {
          case Continue(next) =>
            assert (x + y)[size..] == x[size..] + y;
            ShortPrefix(env, next, x[size..], y);
          case _ =>
        }
      case _ =>
    }
  }

  /** With short headers every way of cutting the stream into reads has the result of one read. */
  lemma {:induction false} ReadsAreOne(env: Env, s: Session, chunks: seq<string>)
    requires ShortHeaders(env, s, Concat(chunks))
    ensures Reads(env, s, chunks) == Drain(env, s, Concat(chunks))
  {
    hide Drain, ShortHeaders;
    if chunks == [] {
      DrainNothing(env, s);
    } else {
      var init, last := chunks[..|chunks| - 1], chunks[|chunks| - 1];
      ShortPrefix(env, s, Concat(init), last);
      ReadsAreOne(env, s, init);
      DrainSplit(env, s, Concat(init), last);
    }
  }

  lemma DrainNothing(env: Env, s: Session)
    ensures Drain(env, s, "") == Waiting(s, "")
  {
  }

  // ----- exactly then ---------------------------------------------------------------

  lemma FramesCount(env: Env, s: Session, f: Frame)
    requires f.Line? ==> |f.tokens| > 0
    ensures Apply(env, s, f).Continue? ==> Apply(env, s, f).s.frames == s.frames + 1
  {
    hide ParseU64, FromHexOrDash, ExecutionReport.Parse, StepEnd;
  }

  lemma {:induction false} DrainCounts(env: Env, s: Session, buffer: string)
    ensures match Drain(env, s, buffer) case Broken(last, _) => last.frames >= s.frames case _ => true
    decreases |buffer|
  {
    hide Find, FrontOf, Apply;
    match FrontOf(buffer) {
      case Complete(f, size) =>
        FramesCount(env, s, f);
        match Apply(env, s, f) {
          case Continue(next) => DrainCounts(env, next, buffer[size..]);
          case Throw(last, _) => ThrowKeeps(env, s, f);
          case _ =>
        }
      case _ =>
    }
  }

  lemma ThrowKeeps(env: Env, s: Session, f: Frame)
    requires f.Line? ==> |f.tokens| > 0
    ensures Apply(env, s, f).Throw? ==> Apply(env, s, f).s == s && Apply(env, s, f).problem != HeaderTooLong
  {
    hide ParseU64, FromHexOrDash, ExecutionReport.Parse;
  }

  /** Where a reached header is too long, a read that ends inside it gives another result. */
  lemma {:induction false} LongHeaderTells(env: Env, s: Session, buffer: string) returns (cut: nat)
    requires !ShortHeaders(env, s, buffer)
    ensures cut <= |buffer|
    ensures Then(env, Drain(env, s, buffer[..cut]), buffer[cut..]) != Drain(env, s, buffer)
    decreases |buffer|
  {
    hide Drain, Apply, FrontOf;
    if LongHeader(buffer) {
      cut := MAX_HEADER + 1;
      CutHeader(env, s, buffer);
      NotTooLong(env, s, buffer);
    } else {
      var front := FrontOf(buffer);
      var next := Apply(env, s, front.f).s;
      var later := LongHeaderTells(env, next, buffer[front.size..]);
      cut := front.size + later;
      CutBehind(env, s, buffer, later);
    }
  }

  lemma CutHeader(env: Env, s: Session, buffer: string)
    requires LongHeader(buffer)
    ensures Drain(env, s, buffer[..MAX_HEADER + 1]) == Broken(s, HeaderTooLong)
  {
    hide Split;
    var x := buffer[..MAX_HEADER + 1];
    FindExtends(x, '\n', buffer[MAX_HEADER + 1..]);
    assert x + buffer[MAX_HEADER + 1..] == buffer;
  }

  lemma NotTooLong(env: Env, s: Session, buffer: string)
    requires LongHeader(buffer)
    ensures Drain(env, s, buffer) != Broken(s, HeaderTooLong)
  {
    assert FrontOf(buffer) != Bad(HeaderTooLong);
    hide FrontOf, Apply;
    match FrontOf(buffer) {
      case Complete(f, size) =>
        FramesCount(env, s, f);
        ThrowKeeps(env, s, f);
        match Apply(env, s, f) {
          case Continue(next) => DrainCounts(env, next, buffer[size..]);
          case _ =>
        }
      case _ =>
    }
  }

  lemma CutBehind(env: Env, s: Session, buffer: string, later: nat)
    requires FrontOf(buffer).Complete? && Apply(env, s, FrontOf(buffer).f).Continue? && !LongHeader(buffer)
    requires later <= |buffer| - FrontOf(buffer).size
    requires var tail := buffer[FrontOf(buffer).size..];
             var next := Apply(env, s, FrontOf(buffer).f).s;
             Then(env, Drain(env, next, tail[..later]), tail[later..]) != Drain(env, next, tail)
    ensures var cut := FrontOf(buffer).size + later;
            Then(env, Drain(env, s, buffer[..cut]), buffer[cut..]) != Drain(env, s, buffer)
  {
    hide FrontOf, Apply, Drain;
    var size := FrontOf(buffer).size;
    FrontShrinks(buffer, size + later);
    CutSlices(buffer, size, later);
    DrainStep(env, s, buffer);
    DrainStep(env, s, buffer[..size + later]);
  }

  lemma CutSlices(buffer: string, size: nat, later: nat)
    requires size + later <= |buffer|
    ensures buffer[size + later..] == buffer[size..][later..] &&
            buffer[..size + later][size..] == buffer[size..][..later]
  {
  }

  lemma DrainStep(env: Env, s: Session, buffer: string)
    requires FrontOf(buffer).Complete? && Apply(env, s, FrontOf(buffer).f).Continue?
    ensures Drain(env, s, buffer) == Drain(env, Apply(env, s, FrontOf(buffer).f).s, buffer[FrontOf(buffer).size..])
  {
    hide FrontOf, Apply;
  }

  /** The frame at the front needs only its own bytes. */
  lemma FrontShrinks(buffer: string, cut: nat)
    requires FrontOf(buffer).Complete? && FrontOf(buffer).size <= cut <= |buffer|
    ensures FrontOf(buffer[..cut]) == FrontOf(buffer)
  {
    hide Split, ParseU64;
    var x, front := buffer[..cut], FrontOf(buffer);
    FindExtends(x, '\n', buffer[cut..]);
    assert x + buffer[cut..] == buffer;
    var newline := Find(buffer, '\n');
    hide Find;
    assert x[..newline] == buffer[..newline];
    assert x[newline + 1..front.size] == buffer[newline + 1..front.size];
  }

  /** The parser is indifferent to chunking exactly for the streams whose reached headers are short. */
  lemma ChunkingIsIrrelevantIff(env: Env, s: Session, stream: string)
    ensures (forall chunks: seq<string> | Concat(chunks) == stream :: Reads(env, s, chunks) == Drain(env, s, stream))
            <==> ShortHeaders(env, s, stream)
  {
    hide Drain, ShortHeaders;
    if ShortHeaders(env, s, stream) {
      forall chunks: seq<string> | Concat(chunks) == stream
        ensures Reads(env, s, chunks) == Drain(env, s, stream)
      {
        ReadsAreOne(env, s, chunks);
      }
    } else {
      var cut := LongHeaderTells(env, s, stream);
      TwoReads(env, s, stream[..cut], stream[cut..]);
      assert stream[..cut] + stream[cut..] == stream;
    }
  }

  lemma TwoReads(env: Env, s: Session, x: string, y: string)
    ensures Concat([x, y]) == x + y
    ensures Reads(env, s, [x, y]) == Then(env, Drain(env, s, x), y)
  {
    assert [x, y][..1] == [x] && [x][..0] == [];
    assert Concat([x]) == x;
    assert "" + x == x;
    assert Reads(env, s, [x]) == Drain(env, s, x) by {
      hide Drain;
    }
  }

  // ----- what is kept between reads ---------------------------------------------------

  const MAX_KEPT_HEADER: nat := MAX_HEADER + READ_SIZE - 1
  const MAX_KEPT: nat := MAX_KEPT_HEADER + MAX_LOG_FRAME

  /** Too few bytes for a frame: an unfinished header, or a log header without all of its payload. */
  predicate Kept(rest: string) {
    && FrontOf(rest).Partial?
    && Find(rest, '\n') <= MAX_KEPT_HEADER
  }

  lemma KeptIsSmall(rest: string)
    requires Kept(rest)
    ensures |rest| <= MAX_KEPT
  {
    hide Split, ParseU64;
  }

  /** What a drain leaves over is a part of the buffer that starts no complete frame. */
  lemma {:induction false} Leftover(env: Env, s: Session, buffer: string)
    requires Drain(env, s, buffer).Waiting?
    ensures var rest := Drain(env, s, buffer).rest;
            && FrontOf(rest).Partial?
            && |rest| <= |buffer| && buffer[|buffer| - |rest|..] == rest
            && (rest != buffer ==> FrontOf(buffer).Complete? && |rest| <= |buffer| - FrontOf(buffer).size)
    decreases |buffer|
  {
    hide FrontOf, Apply;
    match FrontOf(buffer) {
      case Complete(f, size) =>
        var next := Apply(env, s, f).s;
        Leftover(env, next, buffer[size..]);
      case Partial =>
        assert buffer[0..] == buffer;
      case Bad(_) =>
    }
  }

  /** The first frame of what was kept and a new read ends in the new read. */
  lemma FrameEndsLater(kept: string, bytes: string)
    requires Kept(kept) && FrontOf(kept + bytes).Complete?
    ensures FrontOf(kept + bytes).size > |kept|
  {
    hide Split, ParseU64;
    FindExtends(kept, '\n', bytes);
    var newline := Find(kept, '\n');
    if newline < |kept| {
      assert (kept + bytes)[..newline] == kept[..newline];
    }
  }

  /** Between reads of at most READ_SIZE bytes the session never keeps more than MAX_KEPT bytes. */
  lemma KeepsLittle(env: Env, s: Session, kept: string, bytes: string)
    requires Kept(kept) && |bytes| <= READ_SIZE && Drain(env, s, kept + bytes).Waiting?
    ensures Kept(Drain(env, s, kept + bytes).rest)
  {
    var buffer := kept + bytes;
    var rest := Drain(env, s, buffer).rest;
    Leftover(env, s, buffer);
    FindExtends(kept, '\n', bytes);
    if rest == buffer {
      hide FrontOf;
      if Find(kept, '\n') == |kept| {
        assert |kept| <= MAX_HEADER by { NoNewlineKept(kept); }
      }
    } else {
      FrameEndsLater(kept, bytes);
      assert |rest| < READ_SIZE;
    }
  }

  lemma NoNewlineKept(kept: string)
    requires Kept(kept) && Find(kept, '\n') == |kept|
    ensures |kept| <= MAX_HEADER
  {
    hide Split;
  }

  lemma {:induction false} KeptIsBounded(env: Env, s: Session, chunks: seq<string>)
    requires forall i | 0 <= i < |chunks| :: |chunks[i]| <= READ_SIZE
    requires Reads(env, s, chunks).Waiting?
    ensures Kept(Reads(env, s, chunks).rest) && |Reads(env, s, chunks).rest| <= MAX_KEPT
  {
    hide Drain;
    if chunks != [] {
      var init := chunks[..|chunks| - 1];
      KeptIsBounded(env, s, init);
      var d := Reads(env, s, init);
      KeepsLittle(env, d.s, d.rest, chunks[|chunks| - 1]);
    }
    KeptIsSmall(Reads(env, s, chunks).rest);
  }
}
