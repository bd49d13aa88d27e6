/**
 The runner-reported execution properties and their one-line, comma-separated form.
 */
module ExecutionReport {
  import opened Wrappers
  import opened Text


  datatype Report = Report(
    platform: string, architecture: string, isolation: string, network: string,
    memoryBytes: U64, processLimit: U32, timeoutSeconds: U32)

  datatype Problem = TooLarge | Malformed | UnknownValue | Mismatch | BadLimit

  const MAX_BYTES := 256
  const FIELDS := 8

  const PLATFORMS := ["windows", "linux", "macos"]
  const ARCHITECTURES := ["x64", "arm64", "x86"]
  const ISOLATIONS := ["lpac", "hyperv-hcs", "linux-namespaces", "seatbelt", "none"]
  const NETWORKS := ["denied", "loopback-only", "unrestricted"]

  predicate KnownValues(fields: seq<string>)
    requires |fields| == FIELDS
  {
    && fields[0] == "1"
    && fields[1] in PLATFORMS
    && fields[2] in ARCHITECTURES
    && fields[3] in ISOLATIONS
    && fields[4] in NETWORKS
  }

  predicate Matching(platform: string, isolation: string) {
    && (isolation in ["lpac", "hyperv-hcs"] ==> platform == "windows")
    && (isolation == "linux-namespaces" ==> platform == "linux")
    && (isolation == "seatbelt" ==> platform == "macos")
  }

  function Interpret(fields: seq<string>): Result<Report, Problem>
    requires |fields| == FIELDS
  {
    if !KnownValues(fields) then Failure(UnknownValue)
    else if !Matching(fields[1], fields[3]) then Failure(Mismatch)
    else
      match (ParseU64(fields[5]), ParseU64(fields[6]), ParseU64(fields[7]))
      case (Some(memory), Some(processes), Some(timeout)) =>
        if processes < U32_LIMIT && timeout < U32_LIMIT
        then Success(Report(fields[1], fields[2], fields[3], fields[4], memory, processes, timeout))
        else Failure(BadLimit)
      case _ => Failure(BadLimit)
  }

  /** Exactly eight fields, each of them understood. */
  function Parse(text: string): Result<Report, Problem> {
    if |text| > MAX_BYTES then Failure(TooLarge)
    else
      var fields := Split(text, ',');
      if |fields| != FIELDS then Failure(Malformed) else Interpret(fields)
  }

  function Parts(r: Report): seq<string> {
    ["1", r.platform, r.architecture, r.isolation, r.network,
     Decimal(r.memoryBytes), Decimal(r.processLimit), Decimal(r.timeoutSeconds)]
  }

  /** The printed report, refused unless it parses. */
  function Format(r: Report): Result<string, Problem> {
    var text := Join(Parts(r), ',');
    match Parse(text)
    case Success(_) => Success(text)
    case Failure(problem) => Failure(problem)
  }

  /** The loop of the parser: eight fields are cut off the front, a comma after each but the last. */
  method CutFields(input: string) returns (r: Option<seq<string>>)
    ensures var fields := Split(input, ','); r == if |fields| == FIELDS then Some(fields) else None
  {
    hide Split, Find;
    var text, fields: seq<string> := input, [];
    for i := 0 to FIELDS
      invariant |fields| == i
      invariant Split(input, ',') == if i < FIELDS then fields + Split(text, ',') else fields
    {
      SplitFront(fields, text, ',');
      var comma := Find(text, ',');
      var field := text[..comma];
      assert comma == |text| ==> field == text;
      if (i + 1 < FIELDS) != (comma < |text|) {
        assert |Split(input, ',')| == i + 1 < FIELDS || |Split(input, ',')| > i + 1 == FIELDS;
        return None;
      }
      fields := fields + [field];
      if comma < |text| {
        text := text[comma + 1..];
      }
    }
    return Some(fields);
  }

  /** The reports that can be printed at all. */
  predicate Printable(r: Report) {
    KnownValues(Parts(r)) && Matching(r.platform, r.isolation)
  }

  lemma NumbersParse(r: Report)
    ensures ParseU64(Decimal(r.memoryBytes)) == Some(r.memoryBytes)
    ensures ParseU64(Decimal(r.processLimit)) == Some(r.processLimit)
    ensures ParseU64(Decimal(r.timeoutSeconds)) == Some(r.timeoutSeconds)
  {
    ValueDecimal(r.memoryBytes);
    ValueDecimal(r.processLimit);
    ValueDecimal(r.timeoutSeconds);
  }

  /**
   Whatever the text fields hold, commas and digits included: if formatting succeeds, the
   text parses back to exactly that report. A comma inside a field would have made the
   number of fields wrong.
   */
  lemma FormatParsesBack(r: Report)
    requires Format(r).Success?
    ensures Parse(Format(r).value) == Success(r)
  {
    hide Decimal, KnownValues, Matching;
    var parts := Parts(r);
    SplitJoinCount(parts, ',');
    SplitJoin(parts, ',');
    NumbersParse(r);
  }

  lemma PrintableLength(r: Report)
    requires Printable(r)
    ensures |Join(Parts(r), ',')| <= MAX_BYTES
  {
    U64Length(r.memoryBytes);
    U64Length(r.processLimit);
    U64Length(r.timeoutSeconds);
    hide Decimal;
    assert |r.platform| <= 7 && |r.architecture| <= 5 && |r.isolation| <= 16 && |r.network| <= 13;
    JoinLength(Parts(r));
  }

  lemma JoinLength(p: seq<string>)
    requires |p| == FIELDS
    ensures |Join(p, ',')| == |p[0]| + |p[1]| + |p[2]| + |p[3]| + |p[4]| + |p[5]| + |p[6]| + |p[7]| + 7
  {
    JoinTail(p, 0); JoinTail(p, 1); JoinTail(p, 2); JoinTail(p, 3);
    JoinTail(p, 4); JoinTail(p, 5); JoinTail(p, 6);
    assert p[0..] == p;
  }

  lemma JoinTail(p: seq<string>, i: nat)
    requires i + 1 < |p|
    ensures |Join(p[i..], ',')| == |p[i]| + 1 + |Join(p[i + 1..], ',')|
    ensures i + 2 == |p| ==> |Join(p[i + 1..], ',')| == |p[i + 1]|
  {
    assert p[i..][1..] == p[i + 1..];
  }

  /** Formatting succeeds exactly for the reports whose values are known and agree with each other. */
  lemma FormatSucceeds(r: Report)
    ensures Format(r).Success? <==> Printable(r)
  {
    hide Decimal, Join, Split;
    var parts := Parts(r);
    NumbersParse(r);
    if Printable(r) {
      PrintableLength(r);
      PrintableFree(r, ',');
      SplitJoin(parts, ',');
      hide KnownValues, Matching, ParseU64;
    } else if Format(r).Success? {
      hide KnownValues, Matching, ParseU64;
      SplitJoinCount(parts, ',');
      SplitJoin(parts, ',');
    }
  }

  lemma PrintableFree(r: Report, c: char)
    requires Printable(r) && c in [',', '\n']
    ensures AllFree(Parts(r), c)
  {
    DecimalFree(r.memoryBytes, c);
    DecimalFree(r.processLimit, c);
    DecimalFree(r.timeoutSeconds, c);
    WordsFree(c);
    hide Decimal, Matching;
    hide PLATFORMS, ARCHITECTURES, ISOLATIONS, NETWORKS;
    WordFree(r.platform, PLATFORMS, c);
    WordFree(r.architecture, ARCHITECTURES, c);
    WordFree(r.isolation, ISOLATIONS, c);
    WordFree(r.network, NETWORKS, c);
  }

  lemma WordsFree(c: char)
    requires c in [',', '\n']
    ensures AllFree(PLATFORMS, c) && AllFree(ARCHITECTURES, c) && AllFree(ISOLATIONS, c) && AllFree(NETWORKS, c)
  {
  }

  lemma WordFree(word: string, words: seq<string>, c: char)
    requires word in words && AllFree(words, c)
    ensures Free(word, c)
  {
  }

  predicate Canonical(s: string) {
    |s| > 1 ==> s[0] != '0'
  }

  /** The parser takes leading zeros, so reprinting restores the text exactly when there are none. */
  lemma ReprintsWhenCanonical(text: string)
    requires Parse(text).Success?
    ensures var fields := Split(text, ',');
            |fields| == FIELDS &&
            (Format(Parse(text).value) == Success(text) <==>
               Canonical(fields[5]) && Canonical(fields[6]) && Canonical(fields[7]))
  {
    hide Split, Decimal, Value;
    var fields := Split(text, ',');
    var r := Parse(text).value;
    JoinSplit(text, ',');
    FormatSucceeds(r);
    Reprinted(fields[5]);
    Reprinted(fields[6]);
    Reprinted(fields[7]);
    if Format(r) == Success(text) {
      SplitJoinCount(Parts(r), ',');
      FormatParsesBack(r);
      SplitJoin(Parts(r), ',');
      assert fields == Parts(r);
    } else {
      assert Parts(r) != fields;
    }
  }

  /** A number reprints as itself exactly when it has no leading zero. */
  lemma Reprinted(s: string)
    requires ParseU64(s).Some?
    ensures Decimal(ParseU64(s).value) == s <==> Canonical(s)
  {
    if Canonical(s) {
      DecimalValue(s);
    } else {
      ValueDecimal(ParseU64(s).value);
    }
  }

  /** Such a text: a zero written twice is accepted and never printed. */
  lemma LeadingZeroIsRead(r: Report)
    requires Printable(r) && r.memoryBytes == 0
    ensures var text := Join(Parts(r)[5 := "00"], ',');
            Parse(text) == Success(r) && Format(r) != Success(text)
  {
    var parts, printed := Parts(r)[5 := "00"], Parts(r);
    DoubleZero();
    PrintableFree(r, ',');
    ShortWithZeros(r);
    NumbersParse(r);
    assert KnownValues(parts);
    hide Decimal, ParseU64, KnownValues, Matching, Split, Join;
    SplitJoin(parts, ',');
    SplitJoin(printed, ',');
    assert printed[5] != parts[5];
  }

  lemma ShortWithZeros(r: Report)
    requires Printable(r)
    ensures |Join(Parts(r)[5 := "00"], ',')| <= MAX_BYTES
  {
    U64Length(r.processLimit);
    U64Length(r.timeoutSeconds);
    assert |r.platform| <= 7 && |r.architecture| <= 5 && |r.isolation| <= 16 && |r.network| <= 13;
    hide Decimal, KnownValues, Matching, Join;
    JoinLength(Parts(r)[5 := "00"]);
  }

  lemma DoubleZero()
    ensures ParseU64("00") == Some(0) && Decimal(0) == "0"
  {
    assert "00"[..1] == "0" && "0"[..0] == "";
    assert Value("") == 0 && Value("0") == 0 && Value("00") == 0;
  }
}
