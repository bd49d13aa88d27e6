/**
 Verification of a provisioned tree against its manifest: a text of sorted entries, one
 line each, compared with everything a walk of the tree finds. Success means the two list
 the same paths, each of the declared kind and mode and, for files, digest.
 */
module Inventory {
  import opened Wrappers
  import opened Text
  import opened Names

  const MAX_MANIFEST := 64 * 1024 * 1024
  const MAX_LINE := 4096
  const MAX_LINES := 1000006
  const MAX_PATH := 1024

  datatype Entry = Entry(directory: bool, digest: string, mode: nat)

  datatype Row = Row(path: string, entry: Entry)

  datatype Problem = BadIdentity | BadText | BadLine | BadTarget | BadEntry | BadMode | Unlisted | WrongKind |
      WrongMode | WrongDigest | Missing

  // ----- lines ----------------------------------------------------------------------------

  predicate LinesFit(lines: seq<string>) {
    |lines| <= MAX_LINES && forall i | 0 <= i < |lines| :: 0 < |lines[i]| <= MAX_LINE
  }

  function ManifestLines(input: string): Result<seq<string>, Problem> {
    if input == "" || |input| > MAX_MANIFEST || input[|input| - 1] != '\n' then Failure(BadText)
    else if !LinesFit(Lines(input)) then Failure(BadLine)
    else Success(Lines(input))
  }

  /** The loop that cuts line after line off the front. */
  method ReadLines(input: string) returns (r: Result<seq<string>, Problem>)
    ensures r == ManifestLines(input)
  {
    if input == "" || |input| > MAX_MANIFEST || input[|input| - 1] != '\n' {
      return Failure(BadText);
    }
    hide Find;
    var rest, result := input, [];
    while rest != ""
      invariant Terminated(rest) && Lines(input) == result + Lines(rest) && LinesFit(result)
      decreases |rest|
    {
      var end := Find(rest, '\n');
      var line := rest[..end];
      assert Lines(rest) == [line] + Lines(rest[end + 1..]);
      if line == "" || |line| > MAX_LINE || |result| >= MAX_LINES {
        assert Lines(input)[|result|] == line && |Lines(input)| > |result|;
        return Failure(BadLine);
      }
      result, rest := result + [line], rest[end + 1..];
    }
    assert result + [] == result;
    return Success(result);
  }

  // ----- entries ----------------------------------------------------------------------------

  predicate PathByte(c: char) {
    c as int >= 0x20 && c as int != 0x7f && c != '\\'
  }

  predicate Component(s: string) {
    s != "" && s != "." && s != ".." && forall i | 0 <= i < |s| :: PathByte(s[i])
  }

  /** A safe relative path without a trailing slash. */
  predicate SafePath(path: string) {
    |path| <= MAX_PATH && forall part | part in Split(path, '/') :: Component(part)
  }

  predicate OctalDigit(c: char) {
    '0' <= c <= '7'
  }

  function OctalValue(s: string): nat
    requires forall i | 0 <= i < |s| :: OctalDigit(s[i])
  {
    if s == "" then 0
    else
      assert OctalDigit(s[|s| - 1]);
      OctalValue(s[..|s| - 1]) * 8 + (s[|s| - 1] as int - '0' as int)
  }

  function ParseMode(s: string): Option<nat> {
    if |s| != 4 || s[0] != '0' || exists i | 0 <= i < |s| :: !OctalDigit(s[i]) then None else Some(OctalValue(s))
  }

  function Octal(d: nat): char
    requires d < 8
  {
    '0' + d as char
  }

  function ModeText(mode: nat): string {
    ['0', Octal(mode / 64 % 8), Octal(mode / 8 % 8), Octal(mode % 8)]
  }

  /** Neither the group nor others may write. */
  predicate Protected(mode: nat) {
    mode / 16 % 2 == 0 && mode / 2 % 2 == 0
  }

  function EntryOf(line: string): Result<Row, Problem> {
    var f := Split(line, '\t');
    if |f| != 4 || |f[0]| != 1 then Failure(BadEntry)
    else
      match ParseMode(f[2])
      case None => Failure(BadMode)
      case Some(mode) =>
        if !SafePath(f[3]) || f[0] !in ["D", "F"] || !Protected(mode) then Failure(BadEntry)
        else if !(if f[0] == "D" then f[1] == "-" else ValidSha256(f[1])) then Failure(BadEntry)
        else Success(Row(f[3], Entry(f[0] == "D", f[1], mode)))
  }

  /** The digit loop of the source. */
  method ReadMode(text: string) returns (r: Option<nat>)
    ensures r == ParseMode(text)
  {
    if |text| != 4 || text[0] != '0' {
      return None;
    }
    var mode := 0;
    for i := 0 to |text|
      invariant forall k | 0 <= k < i :: OctalDigit(text[k])
      invariant mode == OctalValue(text[..i])
    {
      if !OctalDigit(text[i]) {
        return None;
      }
      assert text[..i + 1][..i] == text[..i];
      mode := mode * 8 + (text[i] as int - '0' as int);
    }
    assert text[..|text|] == text;
    return Some(mode);
  }

  method ReadEntry(line: string) returns (r: Result<Row, Problem>)
    ensures r == EntryOf(line)
  {
    hide Split, SafePath, ValidSha256, ParseMode, Protected;
    var f := SplitFields(line, '\t');
    if |f| != 4 || |f[0]| != 1 {
      return Failure(BadEntry);
    }
    var kind, digest, path := f[0], f[1], f[3];
    var mode := ReadMode(f[2]);
    if mode.None? {
      return Failure(BadMode);
    }
    if !SafePath(path) || (kind != "D" && kind != "F") || !Protected(mode.value) ||
       !(if kind == "D" then digest == "-" else ValidSha256(digest)) {
      return Failure(BadEntry);
    }
    return Success(Row(path, Entry(kind == "D", digest, mode.value)));
  }

  function RowFields(row: Row): seq<string> {
    [if row.entry.directory then "D" else "F", row.entry.digest, ModeText(row.entry.mode), row.path]
  }

  function RowLine(row: Row): string {
    Join(RowFields(row), '\t')
  }

  predicate RowOk(row: Row) {
    && SafePath(row.path) && row.entry.mode < 512 && Protected(row.entry.mode)
    && (if row.entry.directory then row.entry.digest == "-" else ValidSha256(row.entry.digest))
  }

  lemma ModeIff(text: string, mode: nat)
    ensures ParseMode(text) == Some(mode) <==> text == ModeText(mode) && mode < 512
  {
    if mode < 512 {
      ModeTextValue(mode);
    }
    hide OctalValue, ModeText;
    if |text| == 4 && text[0] == '0' && forall i | 0 <= i < |text| :: OctalDigit(text[i]) {
      FourDigits(text);
    }
  }

  lemma ModeTextValue(mode: nat)
    requires mode < 512
    ensures ParseMode(ModeText(mode)) == Some(mode)
  {
    var a, b, c := mode / 64 % 8, mode / 8 % 8, mode % 8;
    assert mode == (a * 8 + b) * 8 + c;
    var t := ModeText(mode);
    assert t == ['0', Octal(a), Octal(b), Octal(c)];
    assert forall i | 0 <= i < |t| :: OctalDigit(t[i]);
    hide OctalValue, ModeText;
    FourDigits(t);
  }

  lemma FourDigits(s: string)
    requires |s| == 4 && s[0] == '0' && forall i | 0 <= i < |s| :: OctalDigit(s[i])
    ensures OctalValue(s) ==
            (s[1] as int - '0' as int) * 64 + (s[2] as int - '0' as int) * 8 + (s[3] as int - '0' as int)
    ensures ModeText(OctalValue(s)) == s && OctalValue(s) < 512
  {
    var a, b, c := s[1] as int - '0' as int, s[2] as int - '0' as int, s[3] as int - '0' as int;
    assert s[..3][..2] == s[..2] && s[..2][..1] == s[..1] && s[..1][..0] == "";
    assert OctalValue(s[..1]) == 0;
    assert OctalValue(s[..2]) == a;
    assert OctalValue(s[..3]) == a * 8 + b;
    assert OctalValue(s) == (a * 8 + b) * 8 + c;
    Digits(a, b, c);
  }

  lemma Digits(a: nat, b: nat, c: nat)
    requires a < 8 && b < 8 && c < 8
    ensures var m := (a * 8 + b) * 8 + c; m / 64 % 8 == a && m / 8 % 8 == b && m % 8 == c && m < 512
  {
  }

  lemma {:induction false} PathIsPlain(path: string)
    requires SafePath(path)
    ensures Free(path, '\t') && path != "" && Free(path, '\n')
  {
    hide Split, Join;
    JoinSplit(path, '/');
    var parts := Split(path, '/');
    assert parts[0] in parts;
    JoinLacks(parts, '\t');
    JoinLacks(parts, '\n');
  }

  lemma {:induction false} JoinLacks(parts: seq<string>, c: char)
    requires |parts| > 0 && c as int < 0x20 && forall part | part in parts :: Component(part)
    ensures Free(Join(parts, '/'), c) && Join(parts, '/') != ""
  {
    assert Component(parts[0]);
    if |parts| > 1 {
      JoinLacks(parts[1..], c);
    }
  }

  lemma RowFieldsFree(row: Row)
    requires RowOk(row)
    ensures AllFree(RowFields(row), '\t')
  {
    hide SafePath, Protected;
    PathIsPlain(row.path);
    assert Free(row.entry.digest, '\t');
  }

  /** A line reads as an entry exactly when it is that entry's line. */
  lemma EntryIff(line: string, row: Row)
    ensures EntryOf(line) == Success(row) <==> line == RowLine(row) && RowOk(row)
  {
    hide Split, Join, SafePath, Protected, ValidSha256, ParseMode, ModeText;
    var f := Split(line, '\t');
    JoinSplit(line, '\t');
    if |f| == 4 {
      ModeIff(f[2], row.entry.mode);
    }
    if EntryOf(line) == Success(row) {
      assert f == RowFields(row);
    }
    if RowOk(row) {
      RowFieldsFree(row);
      SplitJoin(RowFields(row), '\t');
      ModeIff(ModeText(row.entry.mode), row.entry.mode);
    }
  }

  predicate Sorted(rows: seq<Row>) {
    forall i | 0 < i < |rows| :: Less(rows[i - 1].path, rows[i].path)
  }

  function Rows(data: seq<string>, done: seq<Row>): Result<seq<Row>, Problem>
    decreases |data|
  {
    if data == [] then Success(done)
    else
      match EntryOf(data[0])
      case Failure(problem) => Failure(problem)
      case Success(row) =>
        if done != [] && !Less(done[|done| - 1].path, row.path) then Failure(BadEntry)
        else Rows(data[1..], done + [row])
  }

  predicate RowsOk(rows: seq<Row>) {
    Sorted(rows) && forall i | 0 <= i < |rows| :: RowOk(rows[i])
  }

  function RowLines(rows: seq<Row>): seq<string> {
    seq(|rows|, i requires 0 <= i < |rows| => RowLine(rows[i]))
  }

  lemma RowsOkStep(rows: seq<Row>, row: Row)
    requires RowsOk(rows)
    ensures RowsOk(rows + [row]) <==> RowOk(row) && (rows == [] || Less(rows[|rows| - 1].path, row.path))
  {
    hide RowOk;
    var more := rows + [row];
    assert more[|rows|] == row;
    if Sorted(more) && rows != [] {
      assert Less(more[|rows| - 1].path, more[|rows|].path);
    }
  }

  lemma RowsOkPrefix(rows: seq<Row>, n: nat)
    requires RowsOk(rows) && n <= |rows|
    ensures RowsOk(rows[..n])
  {
    hide RowOk;
  }

  predicate RowsAre(data: seq<string>, done: seq<Row>, all: seq<Row>) {
    |done| <= |all| && all[..|done|] == done && RowsOk(all) && data == RowLines(all[|done|..])
  }

  /** Lines read as these entries exactly when they are their lines, the paths strictly increasing. */
  lemma {:induction false} RowsIff(data: seq<string>, done: seq<Row>, all: seq<Row>)
    requires RowsOk(done)
    ensures Rows(data, done) == Success(all) <==> RowsAre(data, done, all)
    decreases |data|
  {
    hide EntryOf, RowLine, RowOk, RowsOk, RowsAre;
    if data == [] {
      NoRows(done, all);
    } else {
      if Rows(data, done) == Success(all) {
        var row := EntryOf(data[0]).value;
        EntryIff(data[0], row);
        RowsOkStep(done, row);
        RowsIff(data[1..], done + [row], all);
        RowTaken(data, done, row, all);
      }
      if RowsAre(data, done, all) {
        NextRow(data, done, all);
        var row := all[|done|];
        EntryIff(data[0], row);
        RowsOkStep(done, row);
        RowsIff(data[1..], done + [row], all);
      }
    }
  }

  lemma NoRows(done: seq<Row>, all: seq<Row>)
    requires RowsOk(done)
    ensures RowsAre([], done, all) <==> all == done
  {
    hide RowsOk, RowLine;
    if |all| == |done| {
      assert all[..|done|] == all;
    }
  }

  lemma RowTaken(data: seq<string>, done: seq<Row>, row: Row, all: seq<Row>)
    requires data != [] && data[0] == RowLine(row) && RowsAre(data[1..], done + [row], all)
    ensures RowsAre(data, done, all)
  {
    hide RowsOk, RowLine;
    var rest := all[|done|..];
    assert all[..|done|] == all[..|done| + 1][..|done|];
    assert rest[0] == all[..|done| + 1][|done|] == row && rest[1..] == all[|done| + 1..];
    assert RowLines(rest) == [RowLine(row)] + RowLines(rest[1..]);
    assert data == [data[0]] + data[1..];
  }

  lemma NextRow(data: seq<string>, done: seq<Row>, all: seq<Row>)
    requires data != [] && RowsAre(data, done, all)
    ensures |all| > |done| && data[0] == RowLine(all[|done|]) && RowsAre(data[1..], done + [all[|done|]], all)
    ensures RowsOk(done + [all[|done|]])
  {
    hide RowsOk, RowLine;
    var rest := all[|done|..];
    assert |data| == |rest|;
    assert all[..|done| + 1] == done + [all[|done|]];
    assert RowLines(rest)[1..] == RowLines(rest[1..]);
    assert rest[1..] == all[|done| + 1..];
    RowsOkPrefix(all, |done| + 1);
  }

  // ----- the manifest ------------------------------------------------------------------------

  datatype Target = Target(lock: string, platform: string, architecture: string, abi: string)

  predicate TargetOk(t: Target) {
    ValidLabel(t.abi) && t.platform == "macos" && t.architecture in ["arm64", "x64"]
  }

  function Header(t: Target): seq<string> {
    ["ckgit-inventory-v1", "lock=" + t.lock, "platform=" + t.platform, "architecture=" + t.architecture, "abi=" + t.abi]
  }

  function Manifest(input: string, t: Target): Result<seq<Row>, Problem> {
    match ManifestLines(input)
    case Failure(problem) => Failure(problem)
    case Success(data) =>
      if |data| < 6 || data[..5] != Header(t) || !TargetOk(t) then Failure(BadTarget) else Rows(data[5..], [])
  }

  /** A manifest is accepted exactly when it is the text of its header and of sorted entries, within the limits. */
  lemma ManifestIff(input: string, t: Target, rows: seq<Row>)
    requires ValidSha256(t.lock)
    ensures Manifest(input, t) == Success(rows) <==>
            && TargetOk(t) && rows != [] && RowsOk(rows) && LinesFit(Header(t) + RowLines(rows))
            && input == Unlines(Header(t) + RowLines(rows)) && |input| <= MAX_MANIFEST
  {
    hide Header, Lines, Unlines, LinesFit, RowLine, RowOk, RowsOk, Rows, TargetOk;
    HeaderHasFive(t);
    var lines := Header(t) + RowLines(rows);
    NoRowsOk();
    if Manifest(input, t) == Success(rows) {
      var data := Lines(input);
      RowsIff(data[5..], [], rows);
      assert rows[0..] == rows;
      assert data == data[..5] + data[5..];
      UnlinesLines(input);
    }
    if TargetOk(t) && RowsOk(rows) && rows != [] && input == Unlines(lines) {
      HeaderIsFree(t);
      RowLinesAreFree(rows);
      assert AllFree(lines, '\n') by {
        AllFreeAppend(Header(t), RowLines(rows), '\n');
      }
      LinesUnlines(lines);
      TextEnds(lines);
      assert lines[..5] == Header(t) && lines[5..] == RowLines(rows);
      RowsIff(lines[5..], [], rows);
      assert rows[0..] == rows && rows[..0] == [];
    }
  }

  lemma HeaderIsFree(t: Target)
    requires ValidSha256(t.lock) && TargetOk(t)
    ensures AllFree(Header(t), '\n')
  {
    assert Free(t.lock, '\n') && Free(t.platform, '\n') && Free(t.architecture, '\n') && Free(t.abi, '\n');
    hide ValidSha256, TargetOk;
    Prefixed("lock=", t.lock);
    Prefixed("platform=", t.platform);
    Prefixed("architecture=", t.architecture);
    Prefixed("abi=", t.abi);
  }

  lemma Prefixed(name: string, value: string)
    requires Free(name, '\n') && Free(value, '\n')
    ensures Free(name + value, '\n')
  {
  }

  lemma HeaderHasFive(t: Target)
    ensures |Header(t)| == 5
  {
  }

  lemma NoRowsOk()
    ensures RowsOk([])
  {
  }

  lemma TextEnds(lines: seq<string>)
    requires lines != [] && AllFree(lines, '\n')
    ensures Unlines(lines) != "" && Unlines(lines)[|Unlines(lines)| - 1] == '\n'
  {
    LinesUnlines(lines);
  }

  lemma RowLineIsFree(row: Row)
    requires RowOk(row)
    ensures Free(RowLine(row), '\n')
  {
    PathIsPlain(row.path);
    assert Free(row.entry.digest, '\n');
    hide SafePath, Protected, Join;
    assert AllFree(RowFields(row), '\n');
    JoinFree(RowFields(row), '\t', '\n');
  }

  lemma RowLinesAreFree(rows: seq<Row>)
    requires RowsOk(rows)
    ensures AllFree(RowLines(rows), '\n')
  {
    hide RowLine, RowOk;
    forall i | 0 <= i < |rows|
      ensures Free(RowLines(rows)[i], '\n')
    {
      RowLineIsFree(rows[i]);
    }
  }

  // ----- the tree -------------------------------------------------------------------------------

  /** What a walk finds at a path; `safe` when ownership, links, volume and attributes are as they must be. */
  datatype Node = Node(path: string, directory: bool, regular: bool, safe: bool, mode: nat, digest: string)

  predicate Matches(node: Node, entry: Entry) {
    && (if entry.directory then node.directory else node.regular)
    && node.safe && node.mode == entry.mode && (entry.directory || node.digest == entry.digest)
  }

  predicate Listed(rows: seq<Row>, path: string) {
    exists i | 0 <= i < |rows| :: rows[i].path == path
  }

  predicate Found(nodes: seq<Node>, path: string) {
    exists i | 0 <= i < |nodes| :: nodes[i].path == path
  }

  predicate AsListed(rows: seq<Row>, node: Node) {
    exists i | 0 <= i < |rows| :: rows[i].path == node.path && Matches(node, rows[i].entry)
  }

  /** The tree is what the manifest says: nothing more, nothing less, each entry as declared. */
  predicate Faithful(rows: seq<Row>, nodes: seq<Node>) {
    && (forall i | 0 <= i < |rows| :: Found(nodes, rows[i].path))
    && (forall j | 0 <= j < |nodes| :: AsListed(rows, nodes[j]))
  }

  predicate Apart(nodes: seq<Node>) {
    forall i, j | 0 <= i < j < |nodes| :: nodes[i].path != nodes[j].path
  }

  lemma {:induction false} SortedIncreases(rows: seq<Row>, i: nat, j: nat)
    requires Sorted(rows) && i < j < |rows|
    ensures Less(rows[i].path, rows[j].path)
    decreases j - i
  {
    if i + 1 < j {
      hide Less;
      SortedIncreases(rows, i, j - 1);
      LessTransitive(rows[i].path, rows[j - 1].path, rows[j].path);
    }
  }

  lemma SortedIsApart(rows: seq<Row>)
    requires Sorted(rows)
    ensures forall i, j | 0 <= i < j < |rows| :: rows[i].path != rows[j].path
  {
    hide Less;
    forall i, j | 0 <= i < j < |rows|
      ensures rows[i].path != rows[j].path
    {
      SortedIncreases(rows, i, j);
      LessIrreflexive(rows[i].path);
    }
  }

  function PathsOf(rows: seq<Row>): seq<string> {
    seq(|rows|, i requires 0 <= i < |rows| => rows[i].path)
  }

  function PathsIn(nodes: seq<Node>): seq<string> {
    seq(|nodes|, j requires 0 <= j < |nodes| => nodes[j].path)
  }

  function Paths(paths: seq<string>): set<string> {
    set p | p in paths
  }

  lemma {:induction false} DistinctCount(paths: seq<string>)
    requires forall i, j | 0 <= i < j < |paths| :: paths[i] != paths[j]
    ensures |Paths(paths)| == |paths|
  {
    if paths == [] {
      assert Paths(paths) == {};
    } else {
      var init, last := paths[..|paths| - 1], paths[|paths| - 1];
      DistinctCount(init);
      assert paths == init + [last];
      assert Paths(paths) == Paths(init) + {last};
      assert last !in init;
    }
  }

  /** Distinct paths that are all listed are all of the listed ones as soon as there are as many. */
  lemma AllFound(rows: seq<Row>, nodes: seq<Node>)
    requires Sorted(rows) && Apart(nodes) && |nodes| == |rows|
    requires forall j | 0 <= j < |nodes| :: Listed(rows, nodes[j].path)
    ensures forall i | 0 <= i < |rows| :: Found(nodes, rows[i].path)
  {
    hide Sorted;
    var listed, found := PathsOf(rows), PathsIn(nodes);
    SortedIsApart(rows);
    DistinctCount(listed);
    DistinctCount(found);
    assert Paths(found) <= Paths(listed) by {
      forall p | p in Paths(found)
        ensures p in Paths(listed)
      {
        var j :| 0 <= j < |nodes| && nodes[j].path == p;
        assert Listed(rows, nodes[j].path);
        var i :| 0 <= i < |rows| && rows[i].path == p;
        assert listed[i] == p;
      }
    }
    SubsetOfSameSize(Paths(found), Paths(listed));
    forall i | 0 <= i < |rows|
      ensures Found(nodes, rows[i].path)
    {
      assert listed[i] in Paths(found);
    }
  }

  lemma SubsetOfSameSize(a: set<string>, b: set<string>)
    requires a <= b && |a| == |b|
    ensures a == b
  {
    assert |b - a| == 0;
  }

  lemma FoundIsListed(rows: seq<Row>, nodes: seq<Node>, p: string)
    requires Faithful(rows, nodes) && p in PathsIn(nodes)
    ensures p in PathsOf(rows)
  {
    hide Matches;
    var j :| 0 <= j < |nodes| && nodes[j].path == p;
    assert AsListed(rows, nodes[j]);
    var i :| 0 <= i < |rows| && rows[i].path == p;
    assert PathsOf(rows)[i] == p;
  }

  lemma ListedIsFound(rows: seq<Row>, nodes: seq<Node>, p: string)
    requires Faithful(rows, nodes) && p in PathsOf(rows)
    ensures p in PathsIn(nodes)
  {
    hide AsListed;
    var i :| 0 <= i < |rows| && rows[i].path == p;
    assert Found(nodes, rows[i].path);
    var j :| 0 <= j < |nodes| && nodes[j].path == p;
    assert PathsIn(nodes)[j] == p;
  }

  /** A faithful tree has as many paths as the manifest has entries. */
  lemma FaithfulCount(rows: seq<Row>, nodes: seq<Node>)
    requires Sorted(rows) && Apart(nodes) && Faithful(rows, nodes)
    ensures |nodes| == |rows|
  {
    SortedIsApart(rows);
    hide Sorted, Faithful;
    DistinctCount(PathsOf(rows));
    DistinctCount(PathsIn(nodes));
    hide PathsOf, PathsIn;
    forall p
      ensures p in PathsIn(nodes) <==> p in PathsOf(rows)
    {
      if p in PathsIn(nodes) {
        FoundIsListed(rows, nodes, p);
      }
      if p in PathsOf(rows) {
        ListedIsFound(rows, nodes, p);
      }
    }
    assert Paths(PathsIn(nodes)) == Paths(PathsOf(rows));
    assert |PathsIn(nodes)| == |PathsOf(rows)|;
    SameLengths(rows, nodes);
  }

  lemma SameLengths(rows: seq<Row>, nodes: seq<Node>)
    ensures |PathsOf(rows)| == |rows| && |PathsIn(nodes)| == |nodes|
  {
  }

  /** The walk of the tree: each path must be listed and match, and the count must come out. */
  method CompareTree(rows: seq<Row>, entries: map<string, Entry>, nodes: seq<Node>) returns (r: Result<nat, Problem>)
    requires Sorted(rows) && Apart(nodes)
    requires forall p :: p in entries <==> Listed(rows, p)
    requires forall i | 0 <= i < |rows| :: rows[i].path in entries && entries[rows[i].path] == rows[i].entry
    ensures r.Success? <==> Faithful(rows, nodes)
    ensures r.Success? ==> r.value == |rows|
  {
    EntryCount(rows, entries);
    hide Sorted;
    var seen := 0;
    for j := 0 to |nodes|
      invariant seen == j
      invariant forall k | 0 <= k < j :: AsListed(rows, nodes[k])
    {
      var node := nodes[j];
      if node.path !in entries {
        assert !AsListed(rows, node);
        return Failure(Unlisted);
      }
      var entry := entries[node.path];
      assert AsListed(rows, node) <==> Matches(node, entry) by {
        assert Listed(rows, node.path);
      }
      if !(if entry.directory then node.directory else node.regular) || !node.safe {
        return Failure(WrongKind);
      }
      if node.mode != entry.mode {
        return Failure(WrongMode);
      }
      if !entry.directory && node.digest != entry.digest {
        return Failure(WrongDigest);
      }
      seen := seen + 1;
    }
    if seen != |entries| {
      if Faithful(rows, nodes) {
        FaithfulCount(rows, nodes);
      }
      return Failure(Missing);
    }
    assert forall j | 0 <= j < |nodes| :: Listed(rows, nodes[j].path) by {
      assert forall j | 0 <= j < |nodes| :: AsListed(rows, nodes[j]);
    }
    AllFound(rows, nodes);
    return Success(seen);
  }

  lemma EntryCount(rows: seq<Row>, entries: map<string, Entry>)
    requires Sorted(rows) && forall p :: p in entries <==> Listed(rows, p)
    ensures |entries| == |rows|
  {
    hide Sorted;
    var listed := PathsOf(rows);
    SortedIsApart(rows);
    DistinctCount(listed);
    forall p
      ensures p in entries.Keys <==> p in Paths(listed)
    {
      if p in entries {
        assert Listed(rows, p);
        var i :| 0 <= i < |rows| && rows[i].path == p;
        assert listed[i] == p;
      }
      if p in listed {
        assert Listed(rows, p);
      }
    }
    assert entries.Keys == Paths(listed);
  }

  /** The entry loop: rows in strictly increasing order go into the table. */
  method ReadEntries(data: seq<string>) returns (r: Result<(seq<Row>, map<string, Entry>), Problem>)
    ensures r.Failure? ==> Rows(data, []) == Failure(r.error)
    ensures r.Success? ==> Rows(data, []) == Success(r.value.0) && Tabled(r.value.0, r.value.1)
  {
    hide EntryOf, Less;
    var rows: seq<Row>, entries: map<string, Entry> := [], map[];
    NothingSorted();
    var previous := "";
    for k := 0 to |data|
      invariant Rows(data, []) == Rows(data[k..], rows)
      invariant Tabled(rows, entries)
      invariant if rows == [] then previous == "" else previous == rows[|rows| - 1].path && previous != ""
    {
      assert data[k..][1..] == data[k + 1..];
      var row := ReadEntry(data[k]);
      if row.Failure? {
        return Failure(row.error);
      }
      PathIsThere(data[k]);
      if previous != "" && !Less(previous, row.value.path) {
        return Failure(BadEntry);
      }
      TableMore(rows, entries, row.value);
      rows := rows + [row.value];
      previous := row.value.path;
      entries := entries[previous := row.value.entry];
    }
    return Success((rows, entries));
  }

  ghost predicate Tabled(rows: seq<Row>, entries: map<string, Entry>) {
    && Sorted(rows)
    && (forall p :: p in entries <==> Listed(rows, p))
    && (forall i | 0 <= i < |rows| :: rows[i].path in entries && entries[rows[i].path] == rows[i].entry)
  }

  lemma NothingSorted()
    ensures Tabled([], map[])
  {
  }

  lemma PathIsThere(line: string)
    ensures EntryOf(line).Success? ==> EntryOf(line).value.path != ""
  {
    if EntryOf(line).Success? {
      PathIsPlain(EntryOf(line).value.path);
    }
  }

  lemma TableMore(rows: seq<Row>, entries: map<string, Entry>, row: Row)
    requires Tabled(rows, entries) && (rows == [] || Less(rows[|rows| - 1].path, row.path))
    ensures Tabled(rows + [row], entries[row.path := row.entry])
  {
    hide Less;
    var more := rows + [row];
    assert more[|rows|] == row;
    assert Sorted(more);
    SortedIsApart(more);
    forall p
      ensures p in entries[row.path := row.entry] <==> Listed(more, p)
    {
      if Listed(rows, p) {
        var i :| 0 <= i < |rows| && rows[i].path == p;
        assert more[i].path == p;
      }
    }
  }

  /**
   verifyCiProvisionedInventory, for a walk that yields each path once: it succeeds exactly
   when the identities fit, the manifest is well formed for the target, and the tree is what
   the manifest says. `sha256` is the digest of the manifest.
   */
  method Verify(manifest: string, sha256: string, expected: string, t: Target, nodes: seq<Node>)
    returns (r: Result<nat, Problem>)
    requires Apart(nodes)
    ensures r.Success? <==>
              && ValidSha256(expected) && ValidSha256(t.lock) && sha256 == expected
              && Manifest(manifest, t).Success? && Faithful(Manifest(manifest, t).value, nodes)
    ensures r.Success? ==> r.value == |nodes| == |Manifest(manifest, t).value|
  {
    hide ManifestLines, Rows, TargetOk, Header, ValidSha256, Apart;
    if !ValidSha256(expected) || !ValidSha256(t.lock) || sha256 != expected {
      return Failure(BadIdentity);
    }
    var data := ReadLines(manifest);
    if data.Failure? {
      return Failure(data.error);
    }
    if |data.value| < 6 || data.value[..5] != Header(t) || !TargetOk(t) {
      return Failure(BadTarget);
    }
    var entries := ReadEntries(data.value[5..]);
    if entries.Failure? {
      return Failure(entries.error);
    }
    r := CompareTree(entries.value.0, entries.value.1, nodes);
    if r.Success? {
      FaithfulCount(entries.value.0, nodes);
    }
  }
}
