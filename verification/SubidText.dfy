/** The text of /etc/subuid and /etc/subgid: reading it, and the lines that reserve gaps for root. */
module SubidText {
  import opened Types
  import S = Subids

  const MAX_LINES: nat := 16384
  const MAX_BYTES: nat := 1048576

  // ---------- Characters and numbers ----------

  predicate Whitespace(c: char) {
    || '\t' <= c <= '\r' || c == ' ' || c == '\U{85}' || c == '\U{A0}' || c == '\U{1680}'
    || '\U{2000}' <= c <= '\U{200A}' || c == '\U{2028}' || c == '\U{2029}'
    || c == '\U{202F}' || c == '\U{205F}' || c == '\U{3000}'
  }

  function CharBytes(c: char): nat {
    if c < '\U{80}' then 1 else if c < '\U{800}' then 2 else if c < '\U{10000}' then 3 else 4
  }

  /** String length in UTF-8 bytes. */
  function Bytes(s: string): nat {
    if s == "" then 0 else CharBytes(s[0]) + Bytes(s[1..])
  }

  predicate Digit(c: char) {
    '0' <= c <= '9'
  }

  predicate AllDigits(s: string) {
    forall i :: 0 <= i < |s| ==> Digit(s[i])
  }

  function Decimal(s: string): nat
    requires AllDigits(s)
  {
    if s == "" then 0 else Decimal(s[..|s| - 1]) * 10 + (s[|s| - 1] - '0') as nat
  }

  function Print(n: nat): (r: string)
    ensures r != "" && AllDigits(r)
  {
    if n < 10 then ['0' + n as char] else Print(n / 10) + ['0' + (n % 10) as char]
  }

  lemma {:induction false} DecimalPrint(n: nat)
    ensures Decimal(Print(n)) == n
  {
    if n >= 10 {
      DecimalPrint(n / 10);
      assert Print(n)[..|Print(n)| - 1] == Print(n / 10);
    } else {
      assert Print(n)[..0] == "";
    }
  }

  /** u32::from_str: digits with an optional plus sign, within range. */
  function ParseU32(s: string): Option<nat> {
    var digits := if |s| > 1 && s[0] == '+' then s[1..] else s;
    if digits == "" || !AllDigits(digits) || Decimal(digits) > S.U32_MAX then None else Some(Decimal(digits))
  }

  // ---------- Lines and fields ----------

  function LineEnd(s: string): (i: nat)
    ensures i <= |s| && (i < |s| ==> s[i] == '\n') && '\n' !in s[..i]
  {
    if s == "" || s[0] == '\n' then 0 else
    var i := LineEnd(s[1..]) + 1;
    assert s[..i] == [s[0]] + s[1..][..i - 1];
    i
  }

  /** A carriage return directly before the line feed belongs to the line ending. */
  function StripCr(s: string): string {
    if s != "" && s[|s| - 1] == '\r' then s[..|s| - 1] else s
  }

  function Lines(s: string): seq<string>
    decreases |s|
  {
    if s == "" then [] else
    var i := LineEnd(s);
    if i == |s| then [s] else [StripCr(s[..i])] + Lines(s[i + 1..])
  }

  /** Blank lines and comments. */
  predicate Skipped(line: string) {
    if line == "" then true
    else if Whitespace(line[0]) then Skipped(line[1..])
    else line[0] == '#'
  }

  function Split(s: string): (r: seq<string>)
    ensures |r| >= 1
  {
    if s == "" then [""] else
    var r := Split(s[1..]);
    if s[0] == ':' then [""] + r else [[s[0]] + r[0]] + r[1..]
  }

  function ParseLine(line: string): Option<S.Range> {
    var fields := Split(line);
    if |fields| != 3 || fields[0] == "" || Bytes(fields[0]) > 256
       || (exists i :: 0 <= i < |fields[0]| && Whitespace(fields[0][i])) then None else
    var start, count := ParseU32(fields[1]), ParseU32(fields[2]);
    if start.None? || count.None? || count.value == 0 then None else
    var end := start.value + count.value - 1;
    if end > S.U32_MAX || start.value == 0 || end == S.U32_MAX then None else
    Some(S.Range(start.value, end, fields[0] == "root" || fields[0] == "0"))
  }

  /** The ranges of all lines that are neither blank nor comments, or None if one is malformed. */
  function Entries(lines: seq<string>): Option<seq<S.Range>> {
    if lines == [] then Some([]) else
    var rest := Entries(lines[1..]);
    if rest.None? then None else
    if Skipped(lines[0]) then rest else
    var r := ParseLine(lines[0]);
    if r.None? then None else Some([r.value] + rest.value)
  }

  function ParseText(s: string): Result<seq<S.Range>> {
    var entries := Entries(Lines(s));
    if entries.None? || |entries.value| > MAX_LINES then Err(InvalidInput) else Ok(entries.value)
  }

  lemma {:induction false} EntriesAppend(a: seq<string>, b: seq<string>)
    ensures Entries(a + b) == if Entries(a).None? || Entries(b).None? then None
                              else Some(Entries(a).value + Entries(b).value)
  {
    hide ParseLine;
    if a == [] {
      assert a + b == b;
      if Entries(b).Some? {
        assert [] + Entries(b).value == Entries(b).value;
      }
    } else {
      EntriesAppend(a[1..], b);
      assert (a + b)[1..] == a[1..] + b;
      var rest, r := Entries(a[1..]), ParseLine(a[0]);
      if rest.Some? && Entries(b).Some? && r.Some? {
        assert [r.value] + (rest.value + Entries(b).value) == [r.value] + rest.value + Entries(b).value;
      }
    }
  }

  lemma {:induction false} ParsedRanges(lines: seq<string>)
    requires Entries(lines).Some?
    ensures S.U32Ranges(Entries(lines).value)
  {
    if lines != [] {
      ParsedRanges(lines[1..]);
    }
  }

  lemma {:induction false} EntriesOne(line: string)
    ensures Entries([line]) == if Skipped(line) then Some([]) else if ParseLine(line).None? then None
                               else Some([ParseLine(line).value])
  {
    assert [line][1..] == [];
    if ParseLine(line).Some? {
      assert [ParseLine(line).value] + [] == [ParseLine(line).value];
    }
  }

  /** One more line is read; a line that cannot be read, or one too many, decides the whole text. */
  lemma {:induction false} EntriesNext(lines: seq<string>, k: nat)
    requires k < |lines| && Entries(lines[..k]).Some?
    ensures Entries(lines[..k + 1]) ==
      if Skipped(lines[k]) then Entries(lines[..k]) else if ParseLine(lines[k]).None? then None
      else Some(Entries(lines[..k]).value + [ParseLine(lines[k]).value])
    ensures Entries(lines).Some? ==>
      Entries(lines[..k + 1]).Some? && |Entries(lines[..k + 1]).value| <= |Entries(lines).value|
  {
    hide ParseLine, Skipped;
    EntriesAppend(lines[..k], [lines[k]]);
    EntriesOne(lines[k]);
    assert lines[..k] + [lines[k]] == lines[..k + 1];
    if Skipped(lines[k]) {
      assert Entries(lines[..k]).value + [] == Entries(lines[..k]).value;
    }
    EntriesAppend(lines[..k + 1], lines[k + 1..]);
    assert lines[..k + 1] + lines[k + 1..] == lines;
  }

  /** The reading loop: lines are taken one by one until one is malformed or there are too many. */
  method Parse(value: string) returns (r: Result<seq<S.Range>>)
    ensures r == ParseText(value)
  {
    hide ParseLine, Skipped;
    var lines := Lines(value);
    var ranges: seq<S.Range> := [];
    for k := 0 to |lines|
      invariant Entries(lines[..k]) == Some(ranges) && |ranges| <= MAX_LINES
    {
      EntriesNext(lines, k);
      if !Skipped(lines[k]) {
        if |ranges| >= MAX_LINES {
          return Err(InvalidInput);
        }
        var range := ParseLine(lines[k]);
        if range.None? {
          return Err(InvalidInput);
        }
        ranges := ranges + [range.value];
      }
    }
    assert lines[..|lines|] == lines;
    r := Ok(ranges);
  }

  // ---------- Appending lines ----------

  predicate Terminated(s: string) {
    s == "" || s[|s| - 1] == '\n'
  }

  lemma {:induction false} LineEndAppend(a: string, b: string)
    requires LineEnd(a) < |a|
    ensures LineEnd(a + b) == LineEnd(a)
  {
    if a[0] != '\n' {
      assert (a + b)[1..] == a[1..] + b;
      LineEndAppend(a[1..], b);
    }
  }

  lemma {:induction false} HasBreak(a: string)
    requires a != "" && Terminated(a)
    ensures LineEnd(a) < |a|
  {
    if a[0] != '\n' {
      HasBreak(a[1..]);
    }
  }

  lemma {:induction false} LinesStep(s: string)
    requires LineEnd(s) < |s|
    ensures Lines(s) == [StripCr(s[..LineEnd(s)])] + Lines(s[LineEnd(s) + 1..])
  {
    hide StripCr;
  }

  lemma {:induction false} FirstLine(s: string, t: string)
    requires LineEnd(s) < |s|
    ensures Lines(s + t) == [StripCr(s[..LineEnd(s)])] + Lines(s[LineEnd(s) + 1..] + t)
  {
    hide StripCr;
    LineEndAppend(s, t);
    LinesStep(s + t);
    SplitAppend(s, t, LineEnd(s));
  }

  lemma {:induction false} SplitAppend(s: string, t: string, i: nat)
    requires i < |s|
    ensures (s + t)[..i] == s[..i] && (s + t)[i + 1..] == s[i + 1..] + t
  {
  }

  /** The lines of a text, for proofs that must not unfold how they are found. */
  function LinesOf(s: string): seq<string> {
    Lines(s)
  }

  lemma {:induction false} LinesOfStep(a: string, b: string)
    requires LineEnd(a) < |a|
    ensures var i := LineEnd(a);
      && LinesOf(a) == [StripCr(a[..i])] + LinesOf(a[i + 1..])
      && LinesOf(a + b) == [StripCr(a[..i])] + LinesOf(a[i + 1..] + b)
  {
    hide StripCr;
    LinesStep(a);
    FirstLine(a, b);
  }

  lemma {:induction false} LinesOfAppend(a: string, b: string)
    requires Terminated(a)
    ensures LinesOf(a + b) == LinesOf(a) + LinesOf(b)
    decreases |a|
  {
    if a == "" {
      assert a + b == b && LinesOf(a) == [];
    } else {
      hide StripCr, LinesOf;
      var i := LineEnd(a);
      HasBreak(a);
      LinesOfAppend(a[i + 1..], b);
      LinesOfStep(a, b);
      Regroup(StripCr(a[..i]), LinesOf(a[i + 1..]), LinesOf(b));
    }
  }

  lemma {:induction false} LinesAppend(a: string, b: string)
    requires Terminated(a)
    ensures Lines(a + b) == Lines(a) + Lines(b)
  {
    LinesOfAppend(a, b);
  }

  lemma {:induction false} Regroup(line: string, a: seq<string>, b: seq<string>)
    ensures [line] + (a + b) == ([line] + a) + b
  {
  }

  function FixLast(lines: seq<string>): seq<string>
    requires lines != []
  {
    lines[..|lines| - 1] + [StripCr(lines[|lines| - 1])]
  }

  lemma {:induction false} FixLastCons(line: string, rest: seq<string>)
    requires rest != []
    ensures FixLast([line] + rest) == [line] + FixLast(rest)
  {
    hide StripCr;
    assert ([line] + rest)[..|rest|] == [line] + rest[..|rest| - 1];
  }

  lemma {:induction false} FixLastOne(line: string)
    ensures FixLast([line]) == [StripCr(line)]
  {
    assert [line][..0] == [];
  }

  /** Ending the last line can only drop a carriage return from it. */
  lemma {:induction false} LinesTerminate(s: string)
    requires !Terminated(s)
    ensures Lines(s) != [] && Lines(s + "\n") == FixLast(Lines(s))
    decreases |s|
  {
    hide StripCr, Terminated, FixLast;
    var i := LineEnd(s);
    Unterminated(s, i);
    if i == |s| {
      LastLine(s);
      FixLastOne(s);
    } else {
      LinesTerminate(s[i + 1..]);
      FirstLine(s, "\n");
      FirstLine(s, "");
      assert s + "" == s && s[i + 1..] + "" == s[i + 1..];
      FixLastCons(StripCr(s[..i]), Lines(s[i + 1..]));
    }
  }

  lemma {:induction false} Unterminated(s: string, i: nat)
    requires !Terminated(s) && i <= |s| && (i < |s| ==> s[i] == '\n')
    ensures s != ""
    ensures i < |s| ==> i + 1 < |s| && !Terminated(s[i + 1..])
  {
  }

  lemma {:induction false} LastLine(s: string)
    requires s != "" && LineEnd(s) == |s|
    ensures Lines(s) == [s] && Lines(s + "\n") == [StripCr(s)]
  {
    hide StripCr;
    var t := s + "\n";
    NoLineEnd(s);
    assert t[..|s|] == s && t[|s| + 1..] == "";
  }

  lemma {:induction false} NoLineEnd(s: string)
    requires LineEnd(s) == |s|
    ensures LineEnd(s + "\n") == |s|
  {
    if s != "" {
      assert (s + "\n")[1..] == s[1..] + "\n";
      NoLineEnd(s[1..]);
    }
  }

  lemma {:induction false} SkippedStrip(line: string)
    requires Skipped(line)
    ensures Skipped(StripCr(line))
  {
    if line != "" && Whitespace(line[0]) {
      SkippedStrip(line[1..]);
      if |line| > 1 {
        assert StripCr(line)[1..] == StripCr(line[1..]);
      }
    }
  }

  lemma {:induction false} SplitLast(s: string)
    ensures var r := Split(s); var last := r[|r| - 1]; last != "" ==> s != "" && last[|last| - 1] == s[|s| - 1]
  {
    if s != "" {
      SplitLast(s[1..]);
    }
  }

  lemma {:induction false} ParsedStrip(line: string)
    requires ParseLine(line).Some?
    ensures StripCr(line) == line
  {
    var count := Split(line)[2];
    SplitLast(line);
    assert ParseU32(count).Some?;
    assert Digit(count[|count| - 1]) by {
      if |count| > 1 && count[0] == '+' {
        assert count[1..][|count| - 2] == count[|count| - 1];
      }
    }
  }

  /** Adding the missing final newline does not change what is read. */
  lemma {:induction false} TerminateEntries(s: string)
    requires !Terminated(s) && Entries(Lines(s)).Some?
    ensures Entries(Lines(s + "\n")) == Entries(Lines(s))
  {
    hide ParseLine, Skipped, StripCr;
    LinesTerminate(s);
    var before := Lines(s);
    var front, last := before[..|before| - 1], before[|before| - 1];
    assert before == front + [last];
    EntriesAppend(front, [last]);
    EntriesAppend(front, [StripCr(last)]);
    EntriesOne(last);
    EntriesOne(StripCr(last));
    if Skipped(last) {
      SkippedStrip(last);
    } else {
      ParsedStrip(last);
    }
  }

  // ---------- The reserved lines ----------

  function GapLine(g: S.Segment): string
    requires g.0 <= g.1
  {
    "0:" + Print(g.0) + ":" + Print(g.1 - g.0 + 1)
  }

  function GapText(gaps: seq<S.Segment>): string
    requires S.Disjoint(gaps)
  {
    if gaps == [] then "" else
    GapText(gaps[..|gaps| - 1]) + GapLine(gaps[|gaps| - 1]) + "\n"
  }

  function GapRanges(gaps: seq<S.Segment>): seq<S.Range> {
    seq(|gaps|, i requires 0 <= i < |gaps| => S.Range(gaps[i].0, gaps[i].1, true))
  }

  lemma {:induction false} SplitField(field: string, rest: string)
    requires ':' !in field
    ensures Split(field) == [field] && Split(field + ":" + rest) == [field] + Split(rest)
  {
    if field == "" {
      assert field + ":" + rest == ":" + rest && (":" + rest)[1..] == rest;
    } else {
      SplitField(field[1..], rest);
      var s := field + ":" + rest;
      assert s[1..] == field[1..] + ":" + rest;
      assert [s[0]] + field[1..] == field;
    }
  }

  lemma {:induction false} PrintReads(n: nat)
    requires n <= S.U32_MAX
    ensures ParseU32(Print(n)) == Some(n) && ':' !in Print(n) && '\n' !in Print(n) && '\r' !in Print(n)
  {
    DecimalPrint(n);
    assert Digit(Print(n)[0]);
  }

  lemma {:induction false} GapFields(g: S.Segment)
    requires 1 <= g.0 <= g.1 < S.U32_MAX
    ensures Split(GapLine(g)) == ["0", Print(g.0), Print(g.1 - g.0 + 1)]
  {
    hide Print, ParseU32;
    var first, count := Print(g.0), Print(g.1 - g.0 + 1);
    PrintReads(g.0);
    PrintReads(g.1 - g.0 + 1);
    SplitField("0", first + ":" + count);
    SplitField(first, count);
    SplitField(count, "");
    assert GapLine(g) == "0" + ":" + (first + ":" + count);
  }

  lemma {:induction false} GapReads(g: S.Segment)
    requires 1 <= g.0 <= g.1 < S.U32_MAX
    ensures ParseLine(GapLine(g)) == Some(S.Range(g.0, g.1, true)) && !Skipped(GapLine(g))
  {
    hide Print, ParseU32, Split;
    PrintReads(g.0);
    PrintReads(g.1 - g.0 + 1);
    GapFields(g);
    assert Bytes("0") == 1;
    assert GapLine(g)[0] == '0';
  }

  lemma {:induction false} GapIsOneLine(g: S.Segment)
    requires 1 <= g.0 <= g.1 < S.U32_MAX
    ensures '\n' !in GapLine(g) && StripCr(GapLine(g)) == GapLine(g)
  {
    hide Print, ParseU32;
    var count := Print(g.1 - g.0 + 1);
    PrintReads(g.0);
    PrintReads(g.1 - g.0 + 1);
    assert GapLine(g)[|GapLine(g)| - 1] == count[|count| - 1];
  }

  lemma {:induction false} OneLine(line: string)
    requires '\n' !in line && StripCr(line) == line
    ensures Lines(line + "\n") == [line]
  {
    var t := line + "\n";
    if line == "" {
      assert t[1..] == "";
    } else {
      NoBreak(line);
      NoLineEnd(line);
      assert t[..|line|] == line && t[|line| + 1..] == "";
    }
  }

  lemma {:induction false} NoBreak(line: string)
    requires '\n' !in line
    ensures LineEnd(line) == |line|
  {
  }

  function GapLines(gaps: seq<S.Segment>): seq<string>
    requires S.Disjoint(gaps)
  {
    if gaps == [] then [] else GapLines(gaps[..|gaps| - 1]) + [GapLine(gaps[|gaps| - 1])]
  }

  ghost predicate Reservable(gaps: seq<S.Segment>) {
    S.Disjoint(gaps) && forall i :: 0 <= i < |gaps| ==> 1 <= gaps[i].0 && gaps[i].1 < S.U32_MAX
  }

  lemma {:induction false} GapTextLines(gaps: seq<S.Segment>)
    requires Reservable(gaps)
    ensures Terminated(GapText(gaps)) && Lines(GapText(gaps)) == GapLines(gaps)
  {
    if gaps != [] {
      hide GapLine, StripCr;
      var front, last := gaps[..|gaps| - 1], gaps[|gaps| - 1];
      GapTextLines(front);
      GapIsOneLine(last);
      OneLine(GapLine(last));
      LinesAppend(GapText(front), GapLine(last) + "\n");
      assert GapText(gaps) == GapText(front) + (GapLine(last) + "\n");
    }
  }

  lemma {:induction false} GapLinesRead(gaps: seq<S.Segment>)
    requires Reservable(gaps)
    ensures Entries(GapLines(gaps)) == Some(GapRanges(gaps))
  {
    hide ParseLine, Skipped, GapLine, GapRanges;
    GapRangesLast(gaps);
    if gaps != [] {
      var front, last := gaps[..|gaps| - 1], gaps[|gaps| - 1];
      GapLinesRead(front);
      GapReads(last);
      EntriesAppend(GapLines(front), [GapLine(last)]);
      EntriesOne(GapLine(last));
    }
  }

  lemma {:induction false} GapRangesLast(gaps: seq<S.Segment>)
    ensures gaps == [] ==> GapRanges(gaps) == []
    ensures gaps != [] ==> var last := gaps[|gaps| - 1];
      GapRanges(gaps) == GapRanges(gaps[..|gaps| - 1]) + [S.Range(last.0, last.1, true)]
  {
  }

  function Ended(content: string): string {
    if Terminated(content) then content else content + "\n"
  }

  /** The rewritten text reads back as the old ranges followed by the gaps, held by root. */
  lemma {:induction false} ReservedReads(content: string, gaps: seq<S.Segment>)
    requires Entries(Lines(content)).Some?
    requires Reservable(gaps)
    ensures Entries(Lines(Ended(content) + GapText(gaps))) == Some(Entries(Lines(content)).value + GapRanges(gaps))
  {
    hide ParseLine, Skipped;
    if !Terminated(content) {
      TerminateEntries(content);
    }
    LinesAppend(Ended(content), GapText(gaps));
    GapTextLines(gaps);
    GapLinesRead(gaps);
    EntriesAppend(Lines(Ended(content)), Lines(GapText(gaps)));
  }

  /** Claiming the gaps covers what was covered before and the gaps, and nothing else. */
  lemma {:induction false} GapsCover(ranges: seq<S.Range>, gaps: seq<S.Segment>, x: int)
    ensures S.Covered(ranges + GapRanges(gaps), x) <==> S.Covered(ranges, x) || S.Inside(gaps, x)
  {
    var all := ranges + GapRanges(gaps);
    if S.Covered(ranges, x) {
      var i :| 0 <= i < |ranges| && ranges[i].start <= x <= ranges[i].end;
      assert all[i] == ranges[i];
    } else if S.Inside(gaps, x) {
      var i :| 0 <= i < |gaps| && S.Within(gaps[i], x);
      assert all[|ranges| + i] == S.Range(gaps[i].0, gaps[i].1, true);
    }
  }

  /** The unclaimed ids of [min, max], as ascending segments that do not touch a claimed id. */
  ghost predicate Unclaimed(ranges: seq<S.Range>, min: nat, max: nat, gaps: seq<S.Segment>) {
    Reservable(gaps) && forall x: int :: S.Inside(gaps, x) <==> min <= x <= max && !S.Covered(ranges, x)
  }

  /** The lines that claim the gaps for root are added one by one, after ending the last line. */
  method AppendGaps(content: string, gaps: seq<S.Segment>) returns (text: string)
    requires Reservable(gaps)
    ensures text == Ended(content) + GapText(gaps)
  {
    hide GapLine;
    text := Ended(content);
    for k := 0 to |gaps|
      invariant text == Ended(content) + GapText(gaps[..k])
    {
      assert gaps[..k + 1][..k] == gaps[..k];
      text := text + (GapLine(gaps[k]) + "\n");
    }
    assert gaps[..|gaps|] == gaps;
  }

  /**
    Reserve every unclaimed id of [min, max] for root; `text` is what the file holds afterwards. The old text stays in
    front, and what is written reads back as the old ranges followed by exactly the gaps. A rewritten text beyond the
    byte limit is not written; one with too many lines is written and then refused.
   */
  method Reserve(content: string, min: nat, max: nat) returns (text: string, r: Result<seq<S.Range>>, ghost gaps: seq<S.Segment>)
    requires 1 <= min <= max < S.U32_MAX
    ensures ParseText(content).Err? ==> r == Err(InvalidInput) && text == content
    ensures ParseText(content).Ok? ==> Unclaimed(ParseText(content).value, min, max, gaps)
    ensures ParseText(content).Ok? ==>
      var rewritten := Ended(content) + GapText(gaps);
      if gaps == [] then text == content && r == ParseText(content)
      else if Bytes(rewritten) > MAX_BYTES then text == content && r == Err(InvalidInput)
      else text == rewritten && r == ParseText(text)
    ensures r.Ok? ==>
      && content <= text && ParseText(text) == r && r.value == ParseText(content).value + GapRanges(gaps)
      && forall x: int :: S.Covered(r.value, x) <==> S.Covered(ParseText(content).value, x) || min <= x <= max
  {
    hide ParseLine, Lines, Skipped, GapText, GapRanges, S.Covered, S.Inside;
    text, gaps := content, [];
    r := Parse(content);
    if r.Err? {
      return;
    }
    var ranges := r.value;
    ParsedRanges(Lines(content));
    var missing := S.Missing(min, max, ranges);
    gaps := missing;
    GapBounds(missing, ranges, min, max);
    forall x: int ensures S.Covered(ranges + GapRanges(gaps), x) <==> S.Covered(ranges, x) || min <= x <= max {
      GapsCover(ranges, gaps, x);
    }
    if missing == [] {
      GapRangesLast(gaps);
      assert ranges + GapRanges(gaps) == ranges;
      return;
    }
    var rewritten := AppendGaps(content, missing);
    if Bytes(rewritten) > MAX_BYTES {
      r := Err(InvalidInput);
      return;
    }
    ReservedReads(content, gaps);
    text := rewritten;
    r := Parse(text);
  }

  lemma {:induction false} GapBounds(gaps: seq<S.Segment>, ranges: seq<S.Range>, min: nat, max: nat)
    requires S.Disjoint(gaps)
    requires forall x: int :: S.Inside(gaps, x) <==> min <= x <= max && !S.Covered(ranges, x)
    ensures forall i :: 0 <= i < |gaps| ==> min <= gaps[i].0 && gaps[i].1 <= max
  {
    forall i | 0 <= i < |gaps| ensures min <= gaps[i].0 && gaps[i].1 <= max {
      assert S.Within(gaps[i], gaps[i].0) && S.Within(gaps[i], gaps[i].1);
      assert S.Inside(gaps, gaps[i].0) && S.Inside(gaps, gaps[i].1);
    }
  }
}
