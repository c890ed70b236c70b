/** HTTP byte ranges: what the Range header is read as, and how that compares with the standard. */
module RangeHeader {
  import opened Types
  import opened SubidText
  import opened JournalRecords

  datatype ByteRange = ByteRange(start: nat, end: nat)

  /** None: the header is ignored; Unsatisfiable is answered as such. */
  datatype Answer = Ignored | Unsatisfiable | Partial(range: ByteRange)

  // ---------- Text ----------

  function TrimStart(s: string): string {
    if s != "" && Whitespace(s[0]) then TrimStart(s[1..]) else s
  }

  function TrimEnd(s: string): string {
    if s != "" && Whitespace(s[|s| - 1]) then TrimEnd(s[..|s| - 1]) else s
  }

  function Trim(s: string): string {
    TrimEnd(TrimStart(s))
  }

  /** u64::from_str: digits with an optional plus sign, within range. */
  function ParseU64(s: string): Option<nat> {
    var digits := if |s| > 1 && s[0] == '+' then s[1..] else s;
    if digits == "" || !AllDigits(digits) || Decimal(digits) > U64_MAX then None else Some(Decimal(digits))
  }

  const UNIT := "bytes="

  function DashAt(s: string): (i: nat)
    ensures i <= |s| && (i < |s| ==> s[i] == '-') && '-' !in s[..i]
  {
    if s == "" || s[0] == '-' then 0 else
    var i := DashAt(s[1..]) + 1;
    assert s[..i] == [s[0]] + s[1..][..i - 1];
    i
  }

  function ParseRange(header: string, size: nat): Answer {
    var s := Trim(header);
    if |s| < |UNIT| || s[..|UNIT|] != UNIT then Ignored else
    var part := s[|UNIT|..];
    var dash := DashAt(part);
    if dash == |part| then Ignored else
    var first, last := Trim(part[..dash]), Trim(part[dash + 1..]);
    if first == "" then
      var suffix := ParseU64(last);
      if suffix.None? then Ignored
      else if suffix.value == 0 || size == 0 then Unsatisfiable
      else Partial(ByteRange(SatSub(size, suffix.value), size - 1))
    else
      var start := ParseU64(first);
      if start.None? then Ignored
      else if start.value >= size then Unsatisfiable
      else if last != "" && ParseU64(last).None? then Ignored
      else
        var end := if last == "" then size - 1 else Min(ParseU64(last).value, size - 1);
        if start.value > end then Unsatisfiable else Partial(ByteRange(start.value, end))
  }

  // ---------- The reference: sections 14.1.1 and 14.1.2 of RFC 9110 ----------

  function LowerChar(c: char): char {
    if 'A' <= c <= 'Z' then c - 'A' + 'a' else c
  }

  function LowerText(s: string): string {
    seq(|s|, i requires 0 <= i < |s| => LowerChar(s[i]))
  }

  /**
    A single range specifier: the unit name in any case, "=", then digits, a dash and digits, of any length
    and value, where one of the two numbers may be missing.
   */
  predicate Spells(header: string, first: string, last: string) {
    && |header| >= 6 && LowerText(header[..5]) == "bytes" && header[5] == '='
    && header[6..] == first + "-" + last
    && Numbers(first, last)
  }

  predicate Numbers(first: string, last: string) {
    AllDigits(first) && AllDigits(last) && (first != "" || last != "")
  }

  /** A last position before the first one makes the specifier invalid, however well it is spelled. */
  predicate Backward(first: string, last: string)
    requires Numbers(first, last)
  {
    first != "" && last != "" && Decimal(last) < Decimal(first)
  }

  ghost predicate WellFormed(header: string) {
    exists first, last :: Spells(header, first, last)
  }

  /** The byte positions that a specifier asks for. */
  predicate Selects(first: string, last: string, size: nat, p: nat)
    requires Numbers(first, last)
  {
    p < size &&
    if first == "" then p + Decimal(last) >= size
    else Decimal(first) <= p && (last == "" || p <= Decimal(last))
  }

  /** The answer is exactly the selected positions, or says that there are none. */
  ghost predicate Answers(answer: Answer, first: string, last: string, size: nat)
    requires Numbers(first, last)
  {
    match answer
    case Partial(r) => r.start <= r.end < size && forall p: nat :: Selects(first, last, size, p) <==> r.start <= p <= r.end
    case Unsatisfiable => forall p: nat :: !Selects(first, last, size, p)
    case Ignored => false
  }

  /** A well-formed header is answered, an invalid one ignored or rejected, a malformed one ignored. */
  ghost predicate FollowsReference(answer: Answer, header: string, size: nat) {
    && (forall first, last :: Spells(header, first, last) ==>
          if Backward(first, last) then !answer.Partial? else Answers(answer, first, last, size))
    && (!WellFormed(header) ==> answer == Ignored)
  }

  // ---------- Where the code departs from it ----------

  /** The numbers that decide the answer fit u64; the last one does not matter if the first is past the end. */
  predicate Readable(first: string, last: string, size: nat)
    requires Numbers(first, last)
  {
    if first == "" then Decimal(last) <= U64_MAX
    else Decimal(first) <= U64_MAX && (size <= Decimal(first) || last == "" || Decimal(last) <= U64_MAX)
  }

  function Unsigned(s: string): string {
    if |s| > 1 && s[0] == '+' then s[1..] else s
  }

  /** What is left around the first dash when blanks and one plus sign each are removed. */
  function Cleaned(header: string): Option<(string, string)> {
    var s := Trim(header);
    if |s| < |UNIT| || s[..|UNIT|] != UNIT || DashAt(s[|UNIT|..]) == |s| - |UNIT| then None else
    var part := s[|UNIT|..];
    Some((Unsigned(Trim(part[..DashAt(part)])), Unsigned(Trim(part[DashAt(part) + 1..]))))
  }

  predicate PastEnd(first: string, size: nat) {
    first != "" && AllDigits(first) && size <= Decimal(first) <= U64_MAX
  }

  /**
    The headers on which the code follows the reference: invalid ones; well-formed ones whose unit is in lower case and
    whose numbers fit; malformed ones, unless removing blanks and signs makes them readable or their start is past the end.
   */
  ghost predicate Conforming(header: string, size: nat) {
    if WellFormed(header) then
      forall first, last :: Spells(header, first, last) ==>
        Backward(first, last) || (header[..5] == "bytes" && Readable(first, last, size))
    else
      match Cleaned(header)
      case None => true
      case Some((first, last)) =>
        if Numbers(first, last) then !Readable(first, last, size) else !PastEnd(first, size)
  }

  lemma {:induction false} DashAtFirst(first: string, rest: string)
    requires '-' !in first
    ensures DashAt(first + "-" + rest) == |first|
  {
    if first != "" {
      assert (first + "-" + rest)[1..] == first[1..] + "-" + rest;
      DashAtFirst(first[1..], rest);
    }
  }

  lemma {:induction false} TrimNothing(s: string)
    requires s != "" ==> !Whitespace(s[0]) && !Whitespace(s[|s| - 1])
    ensures Trim(s) == s
  {
  }

  lemma {:induction false} DigitsPlain(s: string)
    requires AllDigits(s)
    ensures Trim(s) == s && '-' !in s && Unsigned(s) == s
  {
    hide Trim;
    TrimNothing(s);
  }

  /** A specifier has one reading, and the code finds the same parts. */
  lemma {:induction false} SpelledParts(header: string, first: string, last: string)
    requires Spells(header, first, last)
    ensures Trim(header) == header
    ensures header[..|UNIT|] == UNIT <==> header[..5] == "bytes"
    ensures DashAt(header[|UNIT|..]) == |first| < |header| - |UNIT|
    ensures header[|UNIT|..][..|first|] == first && header[|UNIT|..][|first| + 1..] == last
  {
    hide Trim;
    DigitsPlain(first);
    DigitsPlain(last);
    DashAtFirst(first, last);
    PlainHeader(header, first, last);
    assert header[..6] == header[..5] + [header[5]];
  }

  lemma {:induction false} PlainHeader(header: string, first: string, last: string)
    requires Spells(header, first, last)
    ensures Trim(header) == header
  {
    hide Trim;
    assert LowerText(header[..5])[0] == 'b';
    assert header[..5][0] == header[0];
    var end := header[|header| - 1];
    assert header[6..][|header| - 7] == end;
    if last != "" {
      assert end == last[|last| - 1];
    } else {
      assert end == '-';
    }
    TrimNothing(header);
  }

  lemma {:induction false} OneReading(header: string, a: string, b: string, c: string, d: string)
    requires Spells(header, a, b) && Spells(header, c, d)
    ensures a == c && b == d
  {
    hide Trim;
    SpelledParts(header, a, b);
    SpelledParts(header, c, d);
  }

  /** The answer depends on the cleaned parts only. */
  function AnswerFor(first: string, last: string, size: nat): Answer {
    if first == "" then
      if last == "" || !AllDigits(last) || Decimal(last) > U64_MAX then Ignored
      else if Decimal(last) == 0 || size == 0 then Unsatisfiable
      else Partial(ByteRange(SatSub(size, Decimal(last)), size - 1))
    else if !AllDigits(first) || Decimal(first) > U64_MAX then Ignored
    else if Decimal(first) >= size then Unsatisfiable
    else if last == "" then Partial(ByteRange(Decimal(first), size - 1))
    else if !AllDigits(last) || Decimal(last) > U64_MAX then Ignored
    else if Decimal(first) > Decimal(last) then Unsatisfiable
    else Partial(ByteRange(Decimal(first), Min(Decimal(last), size - 1)))
  }

  lemma {:induction false} CleanedDecides(header: string, size: nat)
    ensures ParseRange(header, size) ==
      match Cleaned(header)
      case None => Ignored
      case Some((first, last)) => AnswerFor(first, last, size)
  {
    hide Trim, AllDigits;
  }

  lemma {:induction false} ReadableAnswered(first: string, last: string, size: nat)
    requires Numbers(first, last)
    ensures if Readable(first, last, size) then Answers(AnswerFor(first, last, size), first, last, size)
            else AnswerFor(first, last, size) == Ignored
  {
    hide AllDigits;
  }

  lemma {:induction false} SpelledCleaned(header: string, first: string, last: string)
    requires Spells(header, first, last)
    ensures Cleaned(header) == if header[..5] == "bytes" then Some((first, last)) else None
  {
    hide Trim;
    SpelledParts(header, first, last);
    DigitsPlain(first);
    DigitsPlain(last);
  }

  lemma {:induction false} WellFormedIff(header: string, first: string, last: string, size: nat)
    requires Spells(header, first, last)
    ensures FollowsReference(ParseRange(header, size), header, size)
      <==> Backward(first, last) || (header[..5] == "bytes" && Readable(first, last, size))
  {
    hide Cleaned, ParseRange, AnswerFor, Answers, Readable, Spells, Backward;
    CleanedDecides(header, size);
    SpelledCleaned(header, first, last);
    SpelledNumbers(header, first, last);
    BackwardNeverPartial(first, last, size);
    ReadableAnswered(first, last, size);
    NeverIgnored(first, last, size);
    forall a, b | Spells(header, a, b) ensures a == first && b == last {
      OneReading(header, a, b, first, last);
    }
  }

  lemma {:induction false} SpelledNumbers(header: string, first: string, last: string)
    requires Spells(header, first, last)
    ensures Numbers(first, last) && |header| >= 6
  {
  }

  lemma {:induction false} BackwardNeverPartial(first: string, last: string, size: nat)
    requires Numbers(first, last)
    ensures Backward(first, last) ==> !AnswerFor(first, last, size).Partial?
  {
  }

  lemma {:induction false} NeverIgnored(first: string, last: string, size: nat)
    requires Numbers(first, last)
    ensures !Answers(Ignored, first, last, size)
  {
  }

  lemma {:induction false} MalformedIff(first: string, last: string, size: nat)
    ensures AnswerFor(first, last, size) == Ignored
      <==> if Numbers(first, last) then !Readable(first, last, size) else !PastEnd(first, size)
  {
  }

  /** On every header: the code follows the reference if and only if the header is a conforming one. */
  lemma {:induction false} RangeFollowsReference(header: string, size: nat)
    ensures FollowsReference(ParseRange(header, size), header, size) <==> Conforming(header, size)
  {
    hide Cleaned, ParseRange, AnswerFor, Answers, Readable, Spells, Numbers, PastEnd, Backward;
    if WellFormed(header) {
      var first, last :| Spells(header, first, last);
      WellFormedIff(header, first, last, size);
      forall a, b | Spells(header, a, b) ensures a == first && b == last {
        OneReading(header, a, b, first, last);
      }
    } else {
      CleanedDecides(header, size);
      if Cleaned(header).Some? {
        MalformedIff(Cleaned(header).value.0, Cleaned(header).value.1, size);
      }
    }
  }

  /**
    What happens to a malformed header: without the unit or a dash it is ignored; otherwise it gets the answer of
    its cleaned numbers if it has them, and is unsatisfiable exactly when only its start can be read and is past the end.
   */
  lemma {:induction false} MalformedAnswer(header: string, size: nat)
    requires !WellFormed(header)
    ensures match Cleaned(header)
      case None => ParseRange(header, size) == Ignored
      case Some((first, last)) =>
        if Numbers(first, last) then
          if Readable(first, last, size) then Answers(ParseRange(header, size), first, last, size)
          else ParseRange(header, size) == Ignored
        else ParseRange(header, size) == if PastEnd(first, size) then Unsatisfiable else Ignored
  {
    hide Cleaned, ParseRange, Answers;
    CleanedDecides(header, size);
    if Cleaned(header).Some? {
      var first, last := Cleaned(header).value.0, Cleaned(header).value.1;
      if Numbers(first, last) {
        ReadableAnswered(first, last, size);
      }
    }
  }

  // ---------- One header for each departure ----------

  lemma {:induction false} TextParts(first: string, last: string)
    requires '-' !in first && (last != "" ==> !Whitespace(last[|last| - 1]))
    ensures Cleaned(UNIT + first + "-" + last) == Some((Unsigned(Trim(first)), Unsigned(Trim(last))))
  {
    hide Trim;
    var s := UNIT + first + "-" + last;
    var part := first + "-" + last;
    assert s == UNIT + part && s[|s| - 1] == part[|part| - 1];
    TrimNothing(s);
    assert s[..|UNIT|] == UNIT && s[|UNIT|..] == part;
    DashAtFirst(first, last);
    assert part[..|first|] == first && part[|first| + 1..] == last;
  }

  lemma {:induction false} PartsSpelled(first: string, last: string, a: string, b: string)
    requires '-' !in first && Spells(UNIT + first + "-" + last, a, b)
    ensures a == first && b == last
  {
    hide Trim, Numbers;
    var part := first + "-" + last;
    assert UNIT + first + "-" + last == UNIT + part;
    assert (UNIT + part)[|UNIT|..] == part;
    SpelledParts(UNIT + part, a, b);
    DashAtFirst(first, last);
    assert part[..|first|] == first && part[|first| + 1..] == last;
  }

  lemma {:induction false} NotSpelled(first: string, last: string)
    requires '-' !in first && !Numbers(first, last)
    ensures !WellFormed(UNIT + first + "-" + last)
  {
    hide Trim;
    forall a, b ensures !Spells(UNIT + first + "-" + last, a, b) {
      if Spells(UNIT + first + "-" + last, a, b) {
        PartsSpelled(first, last, a, b);
      }
    }
  }

  lemma {:induction false} OneDigit(c: char)
    requires Digit(c)
    ensures AllDigits([c]) && Decimal([c]) == (c - '0') as nat
  {
    assert [c][..0] == "";
  }

  /** A plus sign, which the grammar does not have, is accepted. */
  lemma {:induction false} SignedStart()
    ensures !WellFormed("bytes=+0-1") && ParseRange("bytes=+0-1", 9) == Partial(ByteRange(0, 1))
    ensures !Conforming("bytes=+0-1", 9)
  {
    hide WellFormed, Trim;
    assert "bytes=+0-1" == UNIT + "+0" + "-" + "1";
    assert !AllDigits("+0") by {
      assert !Digit("+0"[0]);
    }
    NotSpelled("+0", "1");
    TrimNothing("+0");
    TrimNothing("1");
    TextParts("+0", "1");
    assert "+0"[1..] == "0";
    OneDigit('0');
    OneDigit('1');
    CleanedDecides("bytes=+0-1", 9);
  }

  /** Blanks around a number are accepted. */
  lemma {:induction false} BlankStart()
    ensures !WellFormed("bytes= 0-1") && ParseRange("bytes= 0-1", 9) == Partial(ByteRange(0, 1))
    ensures !Conforming("bytes= 0-1", 9)
  {
    assert "bytes= 0-1" == UNIT + " 0" + "-" + "1";
    assert !AllDigits(" 0") by {
      assert !Digit(" 0"[0]);
    }
    NotSpelled(" 0", "1");
    assert " 0"[1..] == "0";
    assert Trim(" 0") == "0";
    TrimNothing("1");
    TextParts(" 0", "1");
    OneDigit('0');
    OneDigit('1');
    CleanedDecides("bytes= 0-1", 9);
  }

  /** A unit name in upper case is ignored. */
  lemma {:induction false} UpperUnit()
    ensures WellFormed("Bytes=0-1") && ParseRange("Bytes=0-1", 9) == Ignored && !Conforming("Bytes=0-1", 9)
  {
    var h := "Bytes=0-1";
    assert h[..5] == "Bytes";
    assert LowerText("Bytes") == "bytes";
    assert h[6..] == "0" + "-" + "1";
    OneDigit('0');
    OneDigit('1');
    assert Spells(h, "0", "1");
    SpelledCleaned(h, "0", "1");
    CleanedDecides(h, 9);
  }

  /** A last position above the range of u64 is ignored, although it selects every byte. */
  lemma {:induction false} HugeEnd()
    ensures var h := UNIT + "0" + "-" + Print(U64_MAX + 1);
      WellFormed(h) && ParseRange(h, 9) == Ignored && !Conforming(h, 9)
  {
    hide Print;
    var last := Print(U64_MAX + 1);
    var h := UNIT + "0" + "-" + last;
    DecimalPrint(U64_MAX + 1);
    OneDigit('0');
    assert h[..5] == "bytes" && LowerText("bytes") == "bytes" && h[5] == '=';
    assert h[6..] == "0" + "-" + last;
    assert Spells(h, "0", last);
    SpelledCleaned(h, "0", last);
    CleanedDecides(h, 9);
    assert !Readable("0", last, 9);
  }

  /** A malformed header is answered as unsatisfiable as soon as its start is past the end. */
  lemma {:induction false} MalformedPastEnd()
    ensures !WellFormed("bytes=9-x") && ParseRange("bytes=9-x", 9) == Unsatisfiable && !Conforming("bytes=9-x", 9)
    ensures ParseRange("bytes=9-x", 10) == Ignored && Conforming("bytes=9-x", 10)
  {
    assert "bytes=9-x" == UNIT + "9" + "-" + "x";
    assert !AllDigits("x") by {
      assert !Digit("x"[0]);
    }
    NotSpelled("9", "x");
    TrimNothing("9");
    TrimNothing("x");
    TextParts("9", "x");
    OneDigit('9');
    CleanedDecides("bytes=9-x", 9);
    CleanedDecides("bytes=9-x", 10);
  }
}
