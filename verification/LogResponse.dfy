/** The `ci-log` response: a stretch of one step's log, answering just the offset that was asked for. */
module LogResponse {
  import opened Wrappers
  import opened Text
  import opened ControlLines

  const MAX_CHUNK := 112 * 1024

  datatype Chunk = Chunk(offset: U64, bytes: Bytes, complete: bool)

  function State(complete: bool): string {
    if complete then "end" else "more"
  }

  function HeaderFields(c: Chunk): seq<string> {
    ["ok", State(c.complete), Decimal(c.offset), Decimal(|c.bytes|)]
  }

  function AllLines(c: Chunk): seq<string> {
    [Join(HeaderFields(c), ' ')] + if c.bytes == [] then [] else [HexEncode(c.bytes)]
  }

  function Format(c: Chunk): Result<string, Problem> {
    if |c.bytes| > MAX_CHUNK then Failure(TooLong)
    else
      var header := Join(HeaderFields(c), ' ') + "\n";
      Success(if c.bytes == [] then header else header + HexEncode(c.bytes) + "\n")
  }

  function HeaderOf(f: seq<string>, requested: U64): Result<(bool, U64), Problem>
    requires |f| == 4
  {
    if f[1] != "more" && f[1] != "end" then Failure(BadFlag)
    else
      match ParseNumber(f[2])
      case None => Failure(BadNumber)
      case Some(offset) =>
        if offset != requested then Failure(OutOfOrder)
        else
          match ParseNumber(f[3])
          case None => Failure(BadNumber)
          case Some(size) => if size > MAX_CHUNK then Failure(BadCount) else Success((f[1] == "end", size))
  }

  function ParseBody(lines: seq<string>, requested: U64, complete: bool, size: nat): Result<Chunk, Problem>
    requires lines != []
  {
    if size == 0 then
      if |lines| > 1 then Failure(Trailing) else Success(Chunk(requested, [], complete))
    else if |lines| == 1 then Failure(EndsEarly)
    else if lines[1] == "" then Failure(EmptyLine)
    else
      match HexDecode(lines[1], size)
      case None => Failure(BadText)
      case Some(bytes) =>
        if |bytes| != size then Failure(BadText)
        else if |lines| > 2 then Failure(Trailing)
        else Success(Chunk(requested, bytes, complete))
  }

  function ParseLines(lines: seq<string>, requested: U64): Result<Chunk, Problem> {
    if lines == [] then Failure(EndsEarly)
    else
      match FieldsOf(lines[0], "ok", 4)
      case Failure(problem) => Failure(problem)
      case Success(f) =>
        match HeaderOf(f, requested)
        case Failure(problem) => Failure(problem)
        case Success((complete, size)) => ParseBody(lines, requested, complete, size)
  }

  function Parse(response: string, requested: U64): Result<Chunk, Problem> {
    match Framed(response)
    case Failure(problem) => Failure(problem)
    case Success(lines) => ParseLines(lines, requested)
  }

  lemma HeaderParts(c: Chunk)
    ensures Fieldly(HeaderFields(c))
  {
    hide Decimal;
    DecimalIsField(c.offset);
    DecimalIsField(|c.bytes|);
    assert Field("ok") && Field(State(c.complete));
  }

  /** Four fields read as a header exactly when they are the fields of that header, and its offset was asked for. */
  lemma HeaderOfIff(f: seq<string>, requested: U64, c: Chunk)
    requires |f| == 4 && f[0] == "ok" && |c.bytes| <= MAX_CHUNK && c.offset == requested
    ensures HeaderOf(f, requested) == Success((c.complete, |c.bytes|)) <==> f == HeaderFields(c)
  {
    hide Decimal, ParseNumber;
    NumberRoundTrip(f[2], c.offset);
    NumberRoundTrip(f[3], |c.bytes|);
  }

  lemma SizeFits(f: seq<string>, requested: U64)
    requires |f| == 4
    ensures HeaderOf(f, requested).Success? ==> HeaderOf(f, requested).value.1 <= MAX_CHUNK
  {
  }

  lemma BodyIff(lines: seq<string>, requested: U64, c: Chunk, complete: bool, size: nat)
    requires lines != []
    ensures ParseBody(lines, requested, complete, size) == Success(c) <==>
            && c.offset == requested && c.complete == complete && |c.bytes| == size
            && lines[1..] == if c.bytes == [] then [] else [HexEncode(c.bytes)]
  {
    if |lines| > 1 {
      HexRoundTrip(lines[1], c.bytes, size);
    }
    hide HexEncode, HexDecode;
    if |lines| == 2 {
      assert lines[1..] == [lines[1]];
    }
    if lines[1..] == [HexEncode(c.bytes)] && c.bytes != [] {
      assert lines[1] == lines[1..][0];
      assert |HexEncode(c.bytes)| == 2 * |c.bytes|;
    }
  }

  lemma ParseLinesIff(lines: seq<string>, requested: U64, c: Chunk)
    ensures ParseLines(lines, requested) == Success(c) <==>
            c.offset == requested && |c.bytes| <= MAX_CHUNK && lines == AllLines(c)
  {
    hide HeaderOf, ParseBody, FieldsOf, HexEncode, Join;
    HeaderParts(c);
    HeaderHead(c);
    hide HeaderFields;
    if lines != [] {
      LineIff(lines[0], "ok", 4, HeaderFields(c));
      if FieldsOf(lines[0], "ok", 4).Success? {
        FieldsCount(lines[0], "ok", 4);
        var f := FieldsOf(lines[0], "ok", 4).value;
        SizeFits(f, requested);
        if |c.bytes| <= MAX_CHUNK && c.offset == requested {
          HeaderOfIff(f, requested, c);
        }
        if HeaderOf(f, requested).Success? {
          BodyIff(lines, requested, c, HeaderOf(f, requested).value.0, HeaderOf(f, requested).value.1);
        }
      }
      assert lines == [lines[0]] + lines[1..];
    }
  }

  lemma HeaderHead(c: Chunk)
    ensures |HeaderFields(c)| == 4 && HeaderFields(c)[0] == "ok"
  {
  }

  lemma LinesPrint(c: Chunk)
    ensures PrintableLines(AllLines(c))
  {
    HeaderParts(c);
    HeaderHead(c);
    JoinPrintable(HeaderFields(c));
    assert Printable(HexEncode(c.bytes)) && Free(HexEncode(c.bytes), '\n');
    hide HeaderFields, Join, HexEncode, Printable;
    OneLinePrints(Join(HeaderFields(c), ' '));
    if c.bytes != [] {
      OneLinePrints(HexEncode(c.bytes));
      PrintableAppend([Join(HeaderFields(c), ' ')], [HexEncode(c.bytes)]);
    }
  }

  lemma HeaderIsShort(c: Chunk)
    requires |c.bytes| <= MAX_CHUNK
    ensures |Join(HeaderFields(c), ' ')| <= 49
  {
    hide Decimal;
    U64Length(c.offset);
    U64Length(|c.bytes|);
    var parts := HeaderFields(c);
    assert Join(parts, ' ') == parts[0] + " " + Join(parts[1..], ' ');
    assert Join(parts[1..], ' ') == parts[1] + " " + Join(parts[1..][1..], ' ');
    assert parts[1..][1..] == parts[2..];
    assert Join(parts[2..], ' ') == parts[2] + " " + Join(parts[2..][1..], ' ');
    assert parts[2..][1..] == [parts[3]];
  }

  lemma FormatText(c: Chunk)
    requires |c.bytes| <= MAX_CHUNK
    ensures Format(c) == Success(Unlines(AllLines(c))) && |Unlines(AllLines(c))| <= MAX_RESPONSE
  {
    HeaderIsShort(c);
    var header, body := Join(HeaderFields(c), ' '), HexEncode(c.bytes);
    UnlinesOne([], header);
    assert [] + [header] == [header] && Unlines([]) == "" && "" + header == header;
    hide HeaderFields, Join, HexEncode, Unlines;
    if c.bytes != [] {
      UnlinesOne([header], body);
    } else {
      assert [header] + [] == [header];
    }
  }

  /**
   Round trip, both ways: a text is accepted as a chunk exactly when it is printed for it and its
   offset was asked for.
   */
  lemma LogRoundTrip(response: string, requested: U64, c: Chunk)
    ensures Parse(response, requested) == Success(c) <==> Format(c) == Success(response) && c.offset == requested
  {
    hide Framed, ParseLines, AllLines, Format, Unlines, Lines, PrintableLines;
    if Framed(response).Success? {
      ParseLinesIff(Framed(response).value, requested, c);
    }
    TooLongFails(c);
    if |c.bytes| <= MAX_CHUNK {
      LinesPrint(c);
      FormatText(c);
      HasLines(c);
      FramedIff(response, AllLines(c));
      ParseLinesIff(AllLines(c), requested, c);
    }
  }

  lemma TooLongFails(c: Chunk)
    ensures |c.bytes| > MAX_CHUNK ==> Format(c).Failure?
  {
  }

  lemma HasLines(c: Chunk)
    ensures |AllLines(c)| > 0
  {
  }
}
