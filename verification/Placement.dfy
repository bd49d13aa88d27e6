/**
 Where a run executes: the note folded into its detail for old clients, how new clients
 take the note off again, and the placement response that tells them what it was.
 */
module Placement {
  import opened Wrappers
  import opened Text
  import opened Records
  import opened ControlLines
  import opened Names

  const PRIMARY := "primary"

  datatype Placed = Placed(runner: string, attempt: U32)

  function Note(p: Placed): string {
    if p.runner in ["", PRIMARY] && p.attempt <= 1 then ""
    else
      var where := if p.runner == "" then "queued" else "on " + p.runner;
      if p.attempt > 1 then where + ", attempt " + Decimal(p.attempt) else where
  }

  /** The note as it follows a detail of the run's own. */
  function Suffix(where: Bytes): (b: Bytes)
    ensures |b| == |where| + 3
  {
    Raw(" (") + where + Raw(")")
  }

  /** The detail with the note, before the cap. */
  function Noted(detail: Bytes, where: Bytes): Bytes {
    if where == [] then detail else if detail == [] then where else detail + Suffix(where)
  }

  /** The detail as a run response carries it. */
  function Shown(detail: Bytes, where: Bytes): Bytes {
    var noted := Noted(detail, where);
    if where != [] && |noted| > MAX_DETAIL_BYTES then noted[..MAX_DETAIL_BYTES] else noted
  }

  predicate EndsWith(text: Bytes, tail: Bytes) {
    |text| >= |tail| && text[|text| - |tail|..] == tail
  }

  /** The detail is the note, or ends in it behind some text. */
  predicate LooksNoted(detail: Bytes, where: Bytes) {
    detail == where || (|detail| > |Suffix(where)| && EndsWith(detail, Suffix(where)))
  }

  function Stripped(detail: Bytes, where: Bytes): Bytes {
    if where == [] then detail
    else if detail == where then []
    else
      var suffix := Suffix(where);
      if |detail| > |suffix| && EndsWith(detail, suffix) then detail[..|detail| - |suffix|] else detail
  }

  /**
   Stripping restores the detail exactly when the note was not cut off by the cap, or
   when the detail fills the cap by itself without already looking like a noted one.
   */
  lemma StripRestoresIff(detail: Bytes, where: Bytes)
    requires |detail| <= MAX_DETAIL_BYTES
    ensures Stripped(Shown(detail, where), where) == detail <==>
            || where == []
            || |Noted(detail, where)| <= MAX_DETAIL_BYTES
            || (|detail| == MAX_DETAIL_BYTES && !LooksNoted(detail, where))
  {
    var suffix, noted, shown := Suffix(where), Noted(detail, where), Shown(detail, where);
    hide Suffix;
    if where != [] && detail != [] {
      assert noted[..|detail|] == detail && noted[|detail|..] == suffix;
      if |noted| > MAX_DETAIL_BYTES {
        assert shown[..|detail|] == detail;
        assert |detail| == MAX_DETAIL_BYTES ==> shown == detail;
        if |detail| < MAX_DETAIL_BYTES {
          assert |Stripped(shown, where)| in [0, MAX_DETAIL_BYTES - |suffix|, MAX_DETAIL_BYTES];
        }
      }
    }
  }

  /** A detail that only mimics a note loses its own end once the note itself is cut off. */
  lemma CutNoteLosesText(where: Bytes, start: Bytes)
    requires where != [] && start != [] && |start + Suffix(where)| == MAX_DETAIL_BYTES
    ensures Stripped(Shown(start + Suffix(where), where), where) == start
  {
    hide Suffix;
    var suffix := Suffix(where);
    var detail := start + suffix;
    assert Noted(detail, where)[..MAX_DETAIL_BYTES] == detail;
    assert detail[|start|..] == suffix && detail[..|start|] == start;
  }

  // ----- the placement response ---------------------------------------------------------------

  function RunnerField(runner: string): string {
    if runner == "" then "-" else runner
  }

  function PlacementLine(p: Placed): string {
    Join(["ok", RunnerField(p.runner), Decimal(p.attempt)], ' ')
  }

  predicate Sendable(p: Placed) {
    (p.runner == "" || ValidClientId(p.runner)) && p.attempt != 0
  }

  function FormatPlacement(p: Placed): Result<string, Problem> {
    if !Sendable(p) then Failure(Unrepresentable) else Success(PlacementLine(p) + "\n")
  }

  function ParsePlacementFields(f: seq<string>): Result<Placed, Problem>
    requires |f| == 3
  {
    if f[1] != "-" && !ValidClientId(f[1]) then Failure(BadIdentity)
    else
      match ParseNumber(f[2])
      case None => Failure(BadNumber)
      case Some(attempt) =>
        if attempt == 0 || attempt >= U32_LIMIT then Failure(BadCount)
        else Success(Placed(if f[1] == "-" then "" else f[1], attempt))
  }

  function ParsePlacement(response: string): Result<Placed, Problem> {
    match Framed(response)
    case Failure(problem) => Failure(problem)
    case Success(lines) =>
      if lines == [] then Failure(EndsEarly)
      else
        match FieldsOf(lines[0], "ok", 3)
        case Failure(problem) => Failure(problem)
        case Success(f) => if |lines| != 1 then Failure(Trailing) else ParsePlacementFields(f)
  }

  lemma ClientIsField(id: string)
    requires ValidClientId(id)
    ensures Field(id) && id != "-"
  {
  }

  lemma PlacementFieldsIff(f: seq<string>, p: Placed)
    requires |f| == 3 && f[0] == "ok"
    ensures ParsePlacementFields(f) == Success(p) <==>
            Sendable(p) && f == ["ok", RunnerField(p.runner), Decimal(p.attempt)]
  {
    hide Decimal, ParseNumber;
    NumberRoundTrip(f[2], p.attempt);
    if ValidClientId(p.runner) {
      ClientIsField(p.runner);
    }
    if ValidClientId(f[1]) {
      ClientIsField(f[1]);
    }
  }

  lemma PlacementParts(p: Placed)
    requires Sendable(p)
    ensures Fieldly(["ok", RunnerField(p.runner), Decimal(p.attempt)])
  {
    hide Decimal;
    DecimalIsField(p.attempt);
    if p.runner != "" {
      ClientIsField(p.runner);
    }
    hide ValidClientId;
    assert Field("ok") && Field("-");
  }

  lemma PlacementIsShort(p: Placed)
    requires Sendable(p)
    ensures |PlacementLine(p)| < MAX_RESPONSE
  {
    hide Decimal;
    U64Length(p.attempt);
    var parts := ["ok", RunnerField(p.runner), Decimal(p.attempt)];
    assert Join(parts[1..], ' ') == parts[1] + [' '] + Join(parts[1..][1..], ' ');
  }

  /** Round trip, both ways: a text is accepted as a placement exactly when it is printed for it. */
  lemma PlacementRoundTrip(response: string, p: Placed)
    ensures ParsePlacement(response) == Success(p) <==> FormatPlacement(p) == Success(response)
  {
    hide Decimal, Join, Framed, FieldsOf, ParsePlacementFields, Unlines, RunnerField, ValidClientId;
    var parts := ["ok", RunnerField(p.runner), Decimal(p.attempt)];
    if ParsePlacement(response).Success? {
      var f := FieldsOf(Framed(response).value[0], "ok", 3).value;
      FieldsCount(Framed(response).value[0], "ok", 3);
      PlacementFieldsIff(f, p);
    }
    if Sendable(p) {
      PlacementParts(p);
      PlacementIsShort(p);
      JoinPrintable(parts);
      OneLinePrints(PlacementLine(p));
      FramedIff(response, [PlacementLine(p)]);
      OneText(PlacementLine(p));
      PlacementFieldsIff(parts, p);
      LineIff(PlacementLine(p), "ok", 3, parts);
      if ParsePlacement(response) == Success(p) {
        LineIff(Framed(response).value[0], "ok", 3, parts);
        assert Framed(response).value == [PlacementLine(p)];
      }
    }
  }

  lemma OneText(line: string)
    ensures Unlines([line]) == line + "\n"
  {
    UnlinesOne([], line);
    assert [] + [line] == [line];
    assert Unlines([]) + line == line;
  }
}
