/**
 Text as the wire protocols use it: separator-joined fields, canonical decimals,
 lower-case hexadecimal, and the byte order in which std::string compares.
 A string is a sequence of single-byte characters; free text that travels
 hex-encoded is a sequence of bytes.
 */
module Text {
  import opened Wrappers

  newtype Byte = x: int | 0 <= x < 256
  type Bytes = seq<Byte>

  const U64_LIMIT := 0x1_0000_0000_0000_0000
  type U64 = n: nat | n < U64_LIMIT
  const U32_LIMIT := 0x1_0000_0000
  type U32 = n: nat | n < U32_LIMIT
  const I32_LIMIT := 0x8000_0000
  type I32 = n: int | -I32_LIMIT <= n < I32_LIMIT

  // ----- separators -----------------------------------------------------------

  /** Index of the first `c` in `s`, or |s| (std::string_view::find with npos read as the end). */
  function Find(s: string, c: char): (i: nat)
    ensures i <= |s|
    ensures forall k | 0 <= k < i :: s[k] != c
    ensures i < |s| ==> s[i] == c
  {
    if s == [] || s[0] == c then 0 else 1 + Find(s[1..], c)
  }

  function Split(s: string, sep: char): (parts: seq<string>)
    ensures |parts| > 0
    decreases |s|
  {
    var i := Find(s, sep);
    if i == |s| then [s] else [s[..i]] + Split(s[i + 1..], sep)
  }

  lemma SplitOnce(s: string, sep: char)
    ensures var i := Find(s, sep);
            Split(s, sep) == if i == |s| then [s] else [s[..i]] + Split(s[i + 1..], sep)
  {
    hide Find;
  }

  /** Split, one field at a time, with the fields cut off so far in front. */
  lemma SplitFront(done: seq<string>, s: string, sep: char)
    ensures var i := Find(s, sep);
            && (i < |s| ==> done + Split(s, sep) == done + [s[..i]] + Split(s[i + 1..], sep))
            && (i == |s| ==> s[..i] == s && done + Split(s, sep) == done + [s])
  {
    hide Split, Find;
    SplitOnce(s, sep);
    var i := Find(s, sep);
    if i < |s| {
      var rest := Split(s[i + 1..], sep);
      assert done + ([s[..i]] + rest) == done + [s[..i]] + rest;
    }
  }

  function Join(parts: seq<string>, sep: char): string
    requires |parts| > 0
  {
    if |parts| == 1 then parts[0] else parts[0] + [sep] + Join(parts[1..], sep)
  }

  predicate Free(s: string, c: char) {
    c !in s
  }

  predicate AllFree(parts: seq<string>, c: char) {
    forall i | 0 <= i < |parts| :: Free(parts[i], c)
  }

  lemma FindIn(a: string, c: char, b: string)
    requires Free(a, c)
    ensures Find(a + [c] + b, c) == |a|
  {
    var s := a + [c] + b;
    assert s[|a|] == c;
    assert forall k | 0 <= k < |a| :: s[k] == a[k] && a[k] in a;
  }

  lemma {:induction false} JoinSplit(s: string, sep: char)
    ensures Join(Split(s, sep), sep) == s
    ensures AllFree(Split(s, sep), sep)
    decreases |s|
  {
    var i := Find(s, sep);
    if i < |s| {
      JoinSplit(s[i + 1..], sep);
      assert s == s[..i] + [sep] + s[i + 1..];
      assert Split(s, sep)[1..] == Split(s[i + 1..], sep);
    }
  }

  /** Split by its first separator. */
  lemma SplitAt(a: string, sep: char, b: string)
    requires Free(a, sep)
    ensures Split(a + [sep] + b, sep) == [a] + Split(b, sep)
  {
    FindIn(a, sep, b);
    var s := a + [sep] + b;
    assert s[..|a|] == a && s[|a| + 1..] == b;
  }

  lemma {:induction false} SplitJoin(parts: seq<string>, sep: char)
    requires |parts| > 0 && AllFree(parts, sep)
    ensures Split(Join(parts, sep), sep) == parts
  {
    if |parts| > 1 {
      SplitAt(parts[0], sep, Join(parts[1..], sep));
      SplitJoin(parts[1..], sep);
    } else {
      assert Find(parts[0], sep) == |parts[0]|;
    }
  }

  lemma CutAt(s: string, i: nat)
    requires i < |s|
    ensures s == s[..i] + [s[i]] + s[i + 1..]
  {
  }

  lemma Regroup(p: string, q: string, r: string, s: string, t: string)
    ensures (p + q + r) + s + t == p + q + (r + s + t)
  {
  }

  lemma SplitConcatStep(head: string, sep: char, tail: string, b: string)
    requires Free(head, sep) && Split(tail + [sep] + b, sep) == Split(tail, sep) + Split(b, sep)
    ensures Split(head + [sep] + tail + [sep] + b, sep) == Split(head + [sep] + tail, sep) + Split(b, sep)
  {
    hide Split;
    SplitAt(head, sep, tail);
    SplitAt(head, sep, tail + [sep] + b);
    Regroup(head, [sep], tail, [sep], b);
    assert [head] + (Split(tail, sep) + Split(b, sep)) == [head] + Split(tail, sep) + Split(b, sep);
  }

  lemma {:induction false} SplitConcat(a: string, sep: char, b: string)
    ensures Split(a + [sep] + b, sep) == Split(a, sep) + Split(b, sep)
    decreases |a|
  {
    if Free(a, sep) {
      SplitAt(a, sep, b);
      SplitFree(a, sep);
    } else {
      hide Split;
      FindFree(a, sep);
      var i := Find(a, sep);
      SplitConcat(a[i + 1..], sep, b);
      SplitConcatStep(a[..i], sep, a[i + 1..], b);
      CutAt(a, i);
    }
  }

  lemma SplitFree(a: string, sep: char)
    requires Free(a, sep)
    ensures Split(a, sep) == [a]
  {
  }

  lemma FindFree(a: string, c: char)
    requires !Free(a, c)
    ensures Find(a, c) < |a| && Free(a[..Find(a, c)], c)
  {
    var k :| 0 <= k < |a| && a[k] == c;
  }

  lemma SplitSingle(s: string, sep: char)
    ensures |Split(s, sep)| == 1 <==> Free(s, sep)
  {
    var i := Find(s, sep);
    assert i < |s| ==> s[i] in s;
    assert !Free(s, sep) ==> exists k | 0 <= k < |s| :: s[k] == sep;
  }

  /** Joining never loses a separator: the number of fields survives only if no field contains one. */
  lemma {:induction false} SplitJoinCount(parts: seq<string>, sep: char)
    requires |parts| > 0
    ensures |Split(Join(parts, sep), sep)| >= |parts|
    ensures |Split(Join(parts, sep), sep)| == |parts| ==> AllFree(parts, sep)
  {
    SplitSingle(parts[0], sep);
    if |parts| > 1 {
      SplitConcat(parts[0], sep, Join(parts[1..], sep));
      SplitJoinCount(parts[1..], sep);
    }
  }

  lemma {:induction false} JoinFree(parts: seq<string>, sep: char, c: char)
    requires |parts| > 0 && AllFree(parts, c) && sep != c
    ensures Free(Join(parts, sep), c)
  {
    assert Free(parts[0], c);
    if |parts| > 1 {
      JoinFree(parts[1..], sep, c);
    }
  }

  lemma AllFreeAppend(a: seq<string>, b: seq<string>, c: char)
    requires AllFree(a, c) && AllFree(b, c)
    ensures AllFree(a + b, c)
  {
  }

  /** The splitting loop every parser of the source repeats. */
  method SplitFields(s: string, sep: char) returns (parts: seq<string>)
    ensures parts == Split(s, sep)
  {
    hide Split, Find;
    parts := [];
    var rest := s;
    while true
      invariant Split(s, sep) == parts + Split(rest, sep)
      decreases |rest|
    {
      SplitFront(parts, rest, sep);
      var i := Find(rest, sep);
      if i == |rest| {
        return parts + [rest];
      }
      parts := parts + [rest[..i]];
      rest := rest[i + 1..];
    }
  }

  // ----- newline-terminated lines ----------------------------------------------

  /** The text of a sequence of lines, each closed by a newline. */
  function Unlines(lines: seq<string>): string {
    if lines == [] then "" else lines[0] + "\n" + Unlines(lines[1..])
  }

  predicate Terminated(s: string) {
    |s| > 0 ==> s[|s| - 1] == '\n'
  }

  function Lines(s: string): seq<string>
    requires Terminated(s)
    decreases |s|
  {
    if |s| == 0 then []
    else
      var i := Find(s, '\n');
      assert i < |s|;
      [s[..i]] + Lines(s[i + 1..])
  }

  lemma {:induction false} UnlinesLines(s: string)
    requires Terminated(s)
    ensures Unlines(Lines(s)) == s
    decreases |s|
  {
    if |s| > 0 {
      hide Unlines, Find;
      var i := Find(s, '\n');
      var tail := Lines(s[i + 1..]);
      UnlinesLines(s[i + 1..]);
      UnlinesCons(s[..i], tail);
      CutAt(s, i);
    }
  }

  lemma UnlinesCons(head: string, tail: seq<string>)
    ensures Unlines([head] + tail) == head + "\n" + Unlines(tail)
  {
    assert ([head] + tail)[1..] == tail;
  }

  lemma {:induction false} LinesAreFree(s: string)
    requires Terminated(s)
    ensures AllFree(Lines(s), '\n')
    decreases |s|
  {
    if s != "" {
      var i := Find(s, '\n');
      LinesAreFree(s[i + 1..]);
      assert Free(s[..i], '\n');
    }
  }

  lemma {:induction false} LinesUnlines(lines: seq<string>)
    requires AllFree(lines, '\n')
    ensures Terminated(Unlines(lines)) && Lines(Unlines(lines)) == lines
  {
    if lines != [] {
      var rest := Unlines(lines[1..]);
      LinesUnlines(lines[1..]);
      FindIn(lines[0], '\n', rest);
      var s := lines[0] + "\n" + rest;
      assert s == lines[0] + ['\n'] + rest;
      assert s[..|lines[0]|] == lines[0] && s[|lines[0]| + 1..] == rest;
    }
  }

  lemma {:induction false} UnlinesAppend(a: seq<string>, b: seq<string>)
    ensures Unlines(a + b) == Unlines(a) + Unlines(b)
  {
    if a == [] {
      assert a + b == b;
    } else {
      UnlinesAppend(a[1..], b);
      assert (a + b)[1..] == a[1..] + b;
    }
  }

  lemma UnlinesOne(lines: seq<string>, line: string)
    ensures Unlines(lines + [line]) == Unlines(lines) + line + "\n"
  {
    UnlinesAppend(lines, [line]);
    UnlinesCons(line, []);
    assert [line] + [] == [line];
  }

  // ----- decimals -------------------------------------------------------------

  predicate IsDigit(c: char) {
    '0' <= c <= '9'
  }

  function Digit(d: nat): (c: char)
    requires d < 10
    ensures IsDigit(c)
  {
    '0' + d as char
  }

  /** std::to_string of an unsigned value. */
  function Decimal(n: nat): (s: string)
    ensures |s| > 0
    ensures forall i | 0 <= i < |s| :: IsDigit(s[i])
  {
    if n < 10 then [Digit(n)] else Decimal(n / 10) + [Digit(n % 10)]
  }

  function Value(s: string): nat
    requires forall i | 0 <= i < |s| :: IsDigit(s[i])
  {
    if s == [] then 0
    else
      assert IsDigit(s[|s| - 1]);
      10 * Value(s[..|s| - 1]) + (s[|s| - 1] as int - '0' as int)
  }

  predicate AllDigits(s: string) {
    |s| > 0 && forall i | 0 <= i < |s| :: IsDigit(s[i])
  }

  /** std::from_chars into std::uint64_t, the whole text consumed. */
  function ParseU64(s: string): (r: Option<U64>) {
    if AllDigits(s) && Value(s) < U64_LIMIT then Some(Value(s)) else None
  }

  /** ParseU64 that also refuses leading zeros: the text is what std::to_string prints. */
  function ParseNumber(s: string): (r: Option<U64>) {
    if |s| > 1 && s[0] == '0' then None else ParseU64(s)
  }

  lemma {:induction false} ValueDecimal(n: nat)
    ensures Value(Decimal(n)) == n
    ensures Decimal(n)[0] == '0' ==> n == 0
  {
    if n >= 10 {
      ValueDecimal(n / 10);
      var s := Decimal(n);
      assert s[..|s| - 1] == Decimal(n / 10);
    }
  }

  lemma {:induction false} DecimalValue(s: string)
    requires AllDigits(s) && (|s| > 1 ==> s[0] != '0')
    ensures Decimal(Value(s)) == s
    ensures s[0] != '0' ==> Value(s) > 0
  {
    var init := s[..|s| - 1];
    var last := s[|s| - 1] as int - '0' as int;
    assert s == init + [s[|s| - 1]];
    if |s| > 1 {
      DecimalValue(init);
      assert Value(s) == 10 * Value(init) + last;
      assert Value(s) / 10 == Value(init) && Value(s) % 10 == last;
    } else {
      assert Value(init) == 0;
    }
  }

  function Power10(k: nat): nat {
    if k == 0 then 1 else 10 * Power10(k - 1)
  }

  lemma {:induction false} DecimalLength(n: nat, k: nat)
    requires k > 0 && n < Power10(k)
    ensures |Decimal(n)| <= k
  {
    if n >= 10 {
      assert k > 1;
      DecimalLength(n / 10, k - 1);
    }
  }

  lemma U64Length(n: U64)
    ensures |Decimal(n)| <= 20
  {
    var p5 := 10 * Power10(4);
    assert Power10(4) == 10000;
    assert Power10(8) == 10000 * Power10(4);
    assert Power10(12) == 10000 * Power10(8);
    assert Power10(16) == 10000 * Power10(12);
    assert Power10(20) == 10000 * Power10(16);
    DecimalLength(n, 20);
  }

  /** Printing and parsing a 64-bit number are inverse to each other. */
  lemma NumberRoundTrip(s: string, n: U64)
    ensures ParseNumber(s) == Some(n) <==> s == Decimal(n)
  {
    ValueDecimal(n);
    if s != Decimal(n) && AllDigits(s) && (|s| > 1 ==> s[0] != '0') {
      DecimalValue(s);
    }
    if |Decimal(n)| > 1 && n == 0 {
      assert false;
    }
  }

  /** std::to_string and std::from_chars on a signed 32-bit value. */
  function Signed(n: int): string {
    if n < 0 then "-" + Decimal(-n) else Decimal(n)
  }

  function ParseI32(s: string): (r: Option<I32>) {
    var negative := |s| > 0 && s[0] == '-';
    var digits := if negative then s[1..] else s;
    if !AllDigits(digits) then None
    else
      var n: int := if negative then 0 - Value(digits) else Value(digits);
      if -I32_LIMIT <= n < I32_LIMIT then Some(n) else None
  }

  lemma SignedRoundTrip(n: I32)
    ensures ParseI32(Signed(n)) == Some(n)
  {
    var magnitude: int := if n < 0 then 0 - n else n;
    ValueDecimal(magnitude);
    if n < 0 {
      assert Signed(n)[1..] == Decimal(magnitude);
    }
  }

  /** Digits and a sign never collide with a separator. */
  lemma DecimalFree(n: nat, c: char)
    requires !IsDigit(c)
    ensures Free(Decimal(n), c)
  {
  }

  lemma SignedFree(n: int, c: char)
    requires !IsDigit(c) && c != '-'
    ensures Free(Signed(n), c)
  {
    DecimalFree(if n < 0 then -n else n, c);
  }

  /** Text as the bytes it consists of. */
  function Raw(s: string): (b: Bytes)
    ensures |b| == |s|
  {
    seq(|s|, i requires 0 <= i < |s| => (s[i] as int % 256) as Byte)
  }

  /** A truth value in the wire protocols. */
  function Flag(b: bool): string {
    if b then "1" else "0"
  }

  // ----- hexadecimal ------------------------------------------------------------

  function HexDigit(d: nat): (c: char)
    requires d < 16
    ensures '0' <= c <= '9' || 'a' <= c <= 'f'
  {
    if d < 10 then '0' + d as char else 'a' + (d - 10) as char
  }

  /** The value of a lower-case hexadecimal digit. */
  function Nibble(c: char): (d: Option<nat>)
    ensures d.Some? ==> d.value < 16 && HexDigit(d.value) == c
    ensures d.None? ==> forall n: nat | n < 16 :: HexDigit(n) != c
  {
    if '0' <= c <= '9' then Some(c as int - '0' as int)
    else if 'a' <= c <= 'f' then Some(c as int - 'a' as int + 10)
    else None
  }

  function HexEncode(b: Bytes): (s: string)
    ensures |s| == 2 * |b|
    ensures forall i | 0 <= i < |s| :: '0' <= s[i] <= '9' || 'a' <= s[i] <= 'f'
  {
    if b == [] then ""
    else [HexDigit(b[0] as int / 16), HexDigit(b[0] as int % 16)] + HexEncode(b[1..])
  }

  function HexBytes(s: string): Option<Bytes> {
    if s == "" then Some([])
    else if |s| == 1 then None
    else
      match (Nibble(s[0]), Nibble(s[1]), HexBytes(s[2..]))
      case (Some(high), Some(low), Some(rest)) => Some([(16 * high + low) as Byte] + rest)
      case _ => None
  }

  /** Strict inverse of HexEncode for at most `cap` bytes. */
  function HexDecode(s: string, cap: nat): Option<Bytes> {
    if |s| % 2 != 0 || |s| / 2 > cap then None else HexBytes(s)
  }

  lemma {:induction false} HexBytesOfEncode(b: Bytes)
    ensures HexBytes(HexEncode(b)) == Some(b)
  {
    if b != [] {
      HexBytesOfEncode(b[1..]);
      assert HexEncode(b)[2..] == HexEncode(b[1..]);
      assert Nibble(HexDigit(b[0] as int / 16)) == Some(b[0] as int / 16);
      assert Nibble(HexDigit(b[0] as int % 16)) == Some(b[0] as int % 16);
      assert b == [b[0]] + b[1..];
    }
  }

  lemma {:induction false} HexEncodeOfBytes(s: string)
    requires HexBytes(s).Some?
    ensures HexEncode(HexBytes(s).value) == s
    decreases |s|
  {
    if s != "" {
      HexEncodeOfBytes(s[2..]);
      var b := HexBytes(s).value;
      assert b[1..] == HexBytes(s[2..]).value;
      assert s == [s[0], s[1]] + s[2..];
    }
  }

  lemma HexDecodeEncode(b: Bytes, cap: nat)
    ensures HexDecode(HexEncode(b), cap) == if |b| <= cap then Some(b) else None
  {
    hide HexBytes, HexEncode;
    HexBytesOfEncode(b);
    var n := |HexEncode(b)|;
    assert n == 2 * |b|;
    assert n % 2 == 0 && n / 2 == |b|;
  }

  /** Encoding and decoding text of at most `cap` bytes are inverse to each other. */
  lemma HexRoundTrip(s: string, b: Bytes, cap: nat)
    ensures HexDecode(s, cap) == Some(b) <==> s == HexEncode(b) && |b| <= cap
  {
    hide HexBytes, HexEncode;
    HexDecodeEncode(b, cap);
    if HexDecode(s, cap).Some? {
      HexEncodeOfBytes(s);
      HexDecodeEncode(HexDecode(s, cap).value, cap);
    }
  }

  /** Free text as one non-empty token: hexadecimal, or "-" when empty. */
  function HexOrDash(b: Bytes): (s: string)
    ensures |s| > 0
    ensures forall i | 0 <= i < |s| :: '0' <= s[i] <= '9' || 'a' <= s[i] <= 'f' || s[i] == '-'
  {
    if b == [] then "-" else HexEncode(b)
  }

  /** The tolerant inverse: it also reads an empty token as empty text. */
  function FromHexOrDash(s: string, cap: nat): Option<Bytes> {
    if s == "-" then Some([]) else HexDecode(s, cap)
  }

  lemma FromHexOrDashInverse(b: Bytes, cap: nat)
    requires |b| <= cap
    ensures FromHexOrDash(HexOrDash(b), cap) == Some(b)
  {
    HexRoundTrip(HexEncode(b), b, cap);
    if b != [] {
      assert |HexEncode(b)| == 2 * |b|;
    }
  }

  lemma HexOrDashFree(b: Bytes, c: char)
    requires c < '-' || '9' < c < 'a' || 'f' < c
    ensures Free(HexOrDash(b), c)
  {
  }

  // ----- order ------------------------------------------------------------------

  /** std::string_view's `<`: byte by byte, a proper prefix first. */
  predicate Less(a: string, b: string) {
    b != "" && (a == "" || a[0] < b[0] || (a[0] == b[0] && Less(a[1..], b[1..])))
  }

  lemma {:induction false} LessTransitive(a: string, b: string, c: string)
    requires Less(a, b) && Less(b, c)
    ensures Less(a, c)
  {
    if a != "" && a[0] == b[0] == c[0] {
      LessTransitive(a[1..], b[1..], c[1..]);
    }
  }

  lemma LessTotal(a: string, b: string)
    ensures a == b || Less(a, b) || Less(b, a)
  {
    if a != "" && b != "" && a[0] == b[0] {
      LessTotal(a[1..], b[1..]);
      assert a == [a[0]] + a[1..] && b == [b[0]] + b[1..];
    }
  }

  lemma LessAsymmetric(a: string, b: string)
    requires Less(a, b)
    ensures !Less(b, a)
  {
    if Less(b, a) {
      LessTransitive(a, b, a);
      LessIrreflexive(a);
    }
  }

  lemma {:induction false} LessIrreflexive(a: string)
    ensures !Less(a, a)
  {
    if a != "" {
      LessIrreflexive(a[1..]);
    }
  }

  // ----- sorting ----------------------------------------------------------------------------

  predicate InOrder(names: seq<string>) {
    forall i, j | 0 <= i < j < |names| :: Less(names[i], names[j])
  }

  /** Puts a name in its place, once. */
  function Insert(names: seq<string>, x: string): seq<string>
    decreases |names|
  {
    if names == [] then [x]
    else if x == names[0] then names
    else if Less(x, names[0]) then [x] + names
    else [names[0]] + Insert(names[1..], x)
  }

  /** Sorted, without repetitions. */
  function Sorted(names: seq<string>): seq<string>
    decreases |names|
  {
    if names == [] then [] else Insert(Sorted(names[..|names| - 1]), names[|names| - 1])
  }

  lemma {:induction false} InsertHolds(names: seq<string>, x: string)
    ensures |Insert(names, x)| <= |names| + 1
    ensures forall n :: n in Insert(names, x) <==> n in names || n == x
    decreases |names|
  {
    hide Less;
    if names != [] {
      assert names == [names[0]] + names[1..];
      InsertHolds(names[1..], x);
    }
  }

  lemma {:induction false} InsertInOrder(names: seq<string>, x: string)
    requires InOrder(names)
    ensures InOrder(Insert(names, x))
    decreases |names|
  {
    hide Less;
    if names != [] && x != names[0] {
      LessTotal(x, names[0]);
      if Less(x, names[0]) {
        forall i | 0 < i < |names|
          ensures Less(x, names[i])
        {
          LessTransitive(x, names[0], names[i]);
        }
      } else {
        var rest := Insert(names[1..], x);
        InsertInOrder(names[1..], x);
        InsertHolds(names[1..], x);
        forall i | 0 <= i < |rest|
          ensures Less(names[0], rest[i])
        {
          if rest[i] != x {
            assert rest[i] in rest;
            var k :| 0 <= k < |names[1..]| && names[1..][k] == rest[i];
            assert names[k + 1] == rest[i];
          }
        }
      }
    }
  }

  lemma {:induction false} SortedHolds(names: seq<string>)
    ensures InOrder(Sorted(names)) && |Sorted(names)| <= |names|
    ensures forall n :: n in Sorted(names) <==> n in names
    decreases |names|
  {
    hide InOrder;
    if names == [] {
      assert InOrder([]) by {
        OneOrNoneInOrder([]);
      }
    } else {
      var init, last := names[..|names| - 1], names[|names| - 1];
      assert names == init + [last];
      SortedHolds(init);
      InsertInOrder(Sorted(init), last);
      InsertHolds(Sorted(init), last);
    }
  }

  lemma OneOrNoneInOrder(names: seq<string>)
    requires |names| <= 1
    ensures InOrder(names)
  {
  }

  /** There is one way to sort. */
  lemma {:induction false} InOrderIsUnique(a: seq<string>, b: seq<string>)
    requires InOrder(a) && InOrder(b) && forall n :: n in a <==> n in b
    ensures a == b
    decreases |a|
  {
    assert b != [] ==> b[0] in a;
    if a != [] {
      assert a[0] in a && a[0] in b;
      assert b[0] in b && b[0] in a;
      SameFirst(a, b);
      RestOf(a);
      RestOf(b);
      InOrderIsUnique(a[1..], b[1..]);
      assert a == [a[0]] + a[1..] && b == [b[0]] + b[1..];
    }
  }

  lemma SameFirst(a: seq<string>, b: seq<string>)
    requires InOrder(a) && InOrder(b) && a != [] && b != [] && a[0] in b && b[0] in a
    ensures a[0] == b[0]
  {
    hide Less;
    if a[0] != b[0] {
      var i :| 0 <= i < |b| && b[i] == a[0];
      var j :| 0 <= j < |a| && a[j] == b[0];
      assert Less(b[0], b[i]) && Less(a[0], a[j]);
      LessAsymmetric(a[0], b[0]);
    }
  }

  lemma RestOf(a: seq<string>)
    requires InOrder(a) && a != []
    ensures InOrder(a[1..]) && a[0] !in a[1..] && forall n :: n in a[1..] <==> n in a && n != a[0]
  {
    hide Less;
    assert a == [a[0]] + a[1..];
    LessIrreflexive(a[0]);
    forall i | 0 <= i < |a[1..]|
      ensures a[1..][i] != a[0]
    {
      assert Less(a[0], a[i + 1]);
    }
  }

  lemma SortedIsSame(names: seq<string>)
    requires InOrder(names)
    ensures Sorted(names) == names
  {
    SortedHolds(names);
    InOrderIsUnique(Sorted(names), names);
  }
}
