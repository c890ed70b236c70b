/** Ranges of subordinate ids: gaps between them and the allocator's candidate order. */
module Subids {
  import opened Types

  const U32_MAX: nat := 0xffff_ffff

  datatype Range = Range(start: nat, end: nat, root: bool)

  type Segment = (nat, nat)

  predicate Within(s: Segment, x: int) {
    s.0 <= x <= s.1
  }

  predicate Covered(ranges: seq<Range>, x: int) {
    exists i :: 0 <= i < |ranges| && ranges[i].start <= x <= ranges[i].end
  }

  predicate Inside(segments: seq<Segment>, x: int) {
    exists i :: 0 <= i < |segments| && Within(segments[i], x)
  }

  /** Ascending, disjoint, never empty, and made of u32 values. */
  predicate Disjoint(segments: seq<Segment>) {
    && (forall i :: 0 <= i < |segments| ==> segments[i].0 <= segments[i].1 <= U32_MAX)
    && (forall i, j :: 0 <= i < j < |segments| ==> segments[i].1 < segments[j].0)
  }

  predicate U32Ranges(ranges: seq<Range>) {
    forall i :: 0 <= i < |ranges| ==> ranges[i].start <= ranges[i].end <= U32_MAX
  }

  // ---------- Sorting ----------

  predicate PairLe(a: Segment, b: Segment) {
    a.0 < b.0 || (a.0 == b.0 && a.1 <= b.1)
  }

  predicate Sorted(s: seq<Segment>) {
    forall i, j :: 0 <= i < j < |s| ==> PairLe(s[i], s[j])
  }

  function InsertPair(s: seq<Segment>, x: Segment): (r: seq<Segment>)
    ensures multiset(r) == multiset(s) + multiset{x}
  {
    if s == [] || PairLe(x, s[0]) then [x] + s else
    assert s == [s[0]] + s[1..];
    [s[0]] + InsertPair(s[1..], x)
  }

  /** The library sort of a vector of pairs. */
  function SortPairs(s: seq<Segment>): (r: seq<Segment>)
    ensures multiset(r) == multiset(s)
  {
    if s == [] then [] else
    assert s == [s[0]] + s[1..];
    InsertPair(SortPairs(s[1..]), s[0])
  }

  lemma {:induction false} InsertKeepsOrder(s: seq<Segment>, x: Segment)
    requires Sorted(s)
    ensures Sorted(InsertPair(s, x))
  {
    if s != [] && !PairLe(x, s[0]) {
      var rest := InsertPair(s[1..], x);
      InsertKeepsOrder(s[1..], x);
      forall y | y in rest ensures PairLe(s[0], y) {
        assert y in multiset(rest);
      }
    }
  }

  lemma {:induction false} SortSorts(s: seq<Segment>)
    ensures Sorted(SortPairs(s))
  {
    if s != [] {
      SortSorts(s[1..]);
      InsertKeepsOrder(SortPairs(s[1..]), s[0]);
    }
  }

  lemma {:induction false} SortInside(s: seq<Segment>, x: int)
    ensures Inside(SortPairs(s), x) <==> Inside(s, x)
  {
    var t := SortPairs(s);
    if i :| 0 <= i < |t| && Within(t[i], x) {
      assert t[i] in multiset(t);
      assert t[i] in s;
    }
    if i :| 0 <= i < |s| && Within(s[i], x) {
      assert s[i] in multiset(s);
      assert s[i] in t;
    }
  }

  // ---------- Gaps ----------

  /** The ranges that meet [min, max], cut down to it. */
  function Clip(min: nat, max: nat, ranges: seq<Range>): (r: seq<Segment>) {
    if ranges == [] then [] else
    var r := ranges[0];
    if r.end >= min && r.start <= max
    then [(Max(r.start, min), Min(r.end, max))] + Clip(min, max, ranges[1..])
    else Clip(min, max, ranges[1..])
  }

  lemma {:induction false} ClipExact(min: nat, max: nat, ranges: seq<Range>, x: int)
    requires min <= x <= max
    ensures Inside(Clip(min, max, ranges), x) <==> Covered(ranges, x)
  {
    if ranges != [] {
      var clipped := Clip(min, max, ranges);
      ClipExact(min, max, ranges[1..], x);
      CoveredHead(ranges, x);
      if ranges[0].end >= min && ranges[0].start <= max {
        InsideHead(clipped, x);
        assert clipped[1..] == Clip(min, max, ranges[1..]);
      }
    }
  }

  lemma {:induction false} ClipBounds(min: nat, max: nat, ranges: seq<Range>, s: Segment)
    requires s in Clip(min, max, ranges)
    requires min <= U32_MAX && max <= U32_MAX && U32Ranges(ranges)
    ensures min <= s.0 <= U32_MAX && s.1 <= max && s.0 <= Max(min, s.1)
  {
    if ranges != [] && !(ranges[0].end >= min && ranges[0].start <= max && s == Clip(min, max, ranges)[0]) {
      ClipBounds(min, max, ranges[1..], s);
    }
  }

  function Occupied(min: nat, max: nat, ranges: seq<Range>): seq<Segment> {
    SortPairs(Clip(min, max, ranges))
  }

  /**
    The free ids of [min, max] as ascending gaps: one pass over the sorted ranges, where `next`
    is the first id not yet decided. No step leaves the u32 range.
   */
  method Missing(min: nat, max: nat, ranges: seq<Range>) returns (gaps: seq<Segment>)
    requires min <= U32_MAX && max <= U32_MAX && U32Ranges(ranges)
    ensures Disjoint(gaps)
    ensures forall x: int :: Inside(gaps, x) <==> min <= x <= max && !Covered(ranges, x)
  {
    hide Inside, Covered, Occupied, U32Ranges;
    var occupied := Occupied(min, max, ranges);
    OccupiedOk(min, max, ranges);
    var next := min;
    gaps := [];
    for k := 0 to |occupied|
      invariant min <= next <= Max(min, max + 1) && Disjoint(gaps)
      invariant PassedAll(gaps, next) && forall i :: 0 <= i < |gaps| ==> min <= gaps[i].0
      invariant forall i :: 0 <= i < |gaps| && k < |occupied| ==> gaps[i].1 < occupied[k].0
      invariant forall x: int :: min <= x < next ==> (Inside(gaps, x) <==> !Inside(occupied[..k], x))
      invariant PassedAll(occupied[..k], next)
    {
      ghost var before, decided := gaps, next;
      var start, end := occupied[k].0, occupied[k].1;
      if start > next {
        gaps := gaps + [(next, start - 1)];
      }
      next := Max(next, end + 1);
      assert occupied[..k + 1] == occupied[..k] + [(start, end)];
      forall x: int | min <= x < next ensures Inside(gaps, x) <==> !Inside(occupied[..k + 1], x) {
        GapStep(before, decided, occupied[..k], (start, end), x);
      }
    }
    assert occupied[..|occupied|] == occupied;
    ghost var decided := gaps;
    if next <= max {
      gaps := gaps + [(next, max)];
    }
    LastGap(min, max, ranges, decided, next, gaps);
  }

  lemma {:induction false} OccupiedOk(min: nat, max: nat, ranges: seq<Range>)
    requires min <= U32_MAX && max <= U32_MAX && U32Ranges(ranges)
    ensures var occupied := Occupied(min, max, ranges);
      && (forall i :: 0 <= i < |occupied| ==>
            min <= occupied[i].0 <= U32_MAX && occupied[i].1 <= max && occupied[i].0 <= Max(min, occupied[i].1))
      && (forall i, j :: 0 <= i < j < |occupied| ==> occupied[i].0 <= occupied[j].0)
  {
    var clipped := Clip(min, max, ranges);
    var occupied := SortPairs(clipped);
    SortSorts(clipped);
    forall i | 0 <= i < |occupied|
      ensures min <= occupied[i].0 <= U32_MAX && occupied[i].1 <= max && occupied[i].0 <= Max(min, occupied[i].1)
    {
      assert occupied[i] in multiset(occupied);
      assert occupied[i] in clipped;
      ClipBounds(min, max, ranges, occupied[i]);
    }
  }

  lemma {:induction false} LastGap(min: nat, max: nat, ranges: seq<Range>, gaps: seq<Segment>, next: nat,
                                   all: seq<Segment>)
    requires min <= next <= Max(min, max + 1) && all == if next <= max then gaps + [(next, max)] else gaps
    requires PassedAll(gaps, next) && forall i :: 0 <= i < |gaps| ==> min <= gaps[i].0
    requires var occupied := Occupied(min, max, ranges);
      PassedAll(occupied, next) && forall x: int :: min <= x < next ==> (Inside(gaps, x) <==> !Inside(occupied, x))
    ensures forall x: int :: Inside(all, x) <==> min <= x <= max && !Covered(ranges, x)
  {
    hide Covered, Inside;
    var occupied := Occupied(min, max, ranges);
    forall x: int ensures Inside(all, x) <==> min <= x <= max && !Covered(ranges, x) {
      if next <= max {
        InsideLast(all, x);
        assert all[..|gaps|] == gaps;
      }
      Undecided(gaps, next, x);
      Undecided(occupied, next, x);
      Low(gaps, min, x);
      if min <= x <= max {
        ClipExact(min, max, ranges, x);
        SortInside(Clip(min, max, ranges), x);
      }
    }
  }

  ghost predicate PassedAll(s: seq<Segment>, next: nat) {
    forall i :: 0 <= i < |s| ==> s[i].1 < next
  }

  /** One step of the pass decides the ids up to the end of the next range. */
  lemma {:induction false} GapStep(gaps: seq<Segment>, next: nat, done: seq<Segment>, s: Segment, x: int)
    requires PassedAll(gaps, next) && PassedAll(done, next)
    requires forall i :: 0 <= i < |gaps| ==> gaps[i].1 < s.0
    requires x < next ==> (Inside(gaps, x) <==> !Inside(done, x))
    requires x < Max(next, s.1 + 1)
    ensures Inside(if s.0 > next then gaps + [(next, s.0 - 1)] else gaps, x) <==> !Inside(done + [s], x)
  {
    InsideLast(done + [s], x);
    assert (done + [s])[..|done|] == done;
    Undecided(gaps, next, x);
    Undecided(done, next, x);
    if s.0 > next {
      var grown := gaps + [(next, s.0 - 1)];
      InsideLast(grown, x);
      assert grown[..|gaps|] == gaps;
    } else if Within(s, x) && x < next {
      Undecided(gaps, s.0, x);
    }
    if Within(s, x) {
      Undecided(gaps, s.0, x);
    }
  }

  lemma {:induction false} Undecided(gaps: seq<Segment>, next: nat, x: int)
    requires forall i :: 0 <= i < |gaps| ==> gaps[i].1 < next
    ensures x >= next ==> !Inside(gaps, x)
  {
  }

  lemma {:induction false} Low(gaps: seq<Segment>, min: nat, x: int)
    requires forall i :: 0 <= i < |gaps| ==> min <= gaps[i].0
    ensures x < min ==> !Inside(gaps, x)
  {
  }

  lemma {:induction false} InsideLast(s: seq<Segment>, x: int)
    requires s != []
    ensures Inside(s, x) <==> Inside(s[..|s| - 1], x) || Within(s[|s| - 1], x)
  {
    var front := s[..|s| - 1];
    if i :| 0 <= i < |s| && Within(s[i], x) {
      if i < |front| {
        assert front[i] == s[i];
      }
    }
    if i :| 0 <= i < |front| && Within(front[i], x) {
      assert s[i] == front[i];
    }
  }

  lemma {:induction false} CoveredHead(ranges: seq<Range>, x: int)
    requires ranges != []
    ensures Covered(ranges, x) <==> ranges[0].start <= x <= ranges[0].end || Covered(ranges[1..], x)
  {
    if Covered(ranges[1..], x) {
      var i :| 0 <= i < |ranges[1..]| && ranges[1..][i].start <= x <= ranges[1..][i].end;
      assert ranges[i + 1].start <= x <= ranges[i + 1].end;
    }
  }

  lemma {:induction false} InsideHead(s: seq<Segment>, x: int)
    requires s != []
    ensures Inside(s, x) <==> Within(s[0], x) || Inside(s[1..], x)
  {
    if Inside(s[1..], x) {
      var i :| 0 <= i < |s[1..]| && Within(s[1..][i], x);
      assert Within(s[i + 1], x);
    }
  }

  /** The same pass over the ranges that others may map, which the allocator must avoid. */
  method FreeSegments(min: nat, max: nat, blocked: seq<Segment>) returns (segments: seq<Segment>)
    requires min <= U32_MAX && max <= U32_MAX
    requires forall i :: 0 <= i < |blocked| ==> blocked[i].0 <= blocked[i].1 <= U32_MAX
    ensures Disjoint(segments)
    ensures forall x: int :: Inside(segments, x) <==> min <= x <= max && !Inside(blocked, x)
  {
    var ranges := seq(|blocked|, i requires 0 <= i < |blocked| => Range(blocked[i].0, blocked[i].1, false));
    segments := Missing(min, max, ranges);
    forall x: int ensures Covered(ranges, x) <==> Inside(blocked, x) {
      if i :| 0 <= i < |ranges| && ranges[i].start <= x <= ranges[i].end {
        assert Within(blocked[i], x);
      }
      if i :| 0 <= i < |blocked| && Within(blocked[i], x) {
        assert ranges[i].start <= x <= ranges[i].end;
      }
    }
  }

  // ---------- The allocator's candidate order ----------

  function Span(first: nat, last: nat): seq<nat>
    requires first <= last + 1
  {
    seq(last + 1 - first, i requires 0 <= i < last + 1 - first => first + i)
  }

  function UpperPart(segment: Segment, start: nat): seq<nat> {
    var (first, end) := segment;
    if end >= start && first <= end then Span(Max(first, start), end) else []
  }

  function LowerPart(segment: Segment, start: nat): seq<nat> {
    var (first, end) := segment;
    if first < start && first <= end then Span(first, Min(end, start - 1)) else []
  }

  /** The free ids from the cursor upwards. */
  function FromCursor(segments: seq<Segment>, start: nat): seq<nat> {
    if segments == [] then [] else UpperPart(segments[0], start) + FromCursor(segments[1..], start)
  }

  /** The free ids below the cursor. */
  function BelowCursor(segments: seq<Segment>, start: nat): seq<nat> {
    if segments == [] then [] else LowerPart(segments[0], start) + BelowCursor(segments[1..], start)
  }

  function Candidates(segments: seq<Segment>, start: nat): seq<nat> {
    FromCursor(segments, start) + BelowCursor(segments, start)
  }

  predicate Ascending(s: seq<nat>) {
    forall i, j :: 0 <= i < j < |s| ==> s[i] < s[j]
  }

  lemma {:induction false} DisjointTail(segments: seq<Segment>)
    requires Disjoint(segments) && segments != []
    ensures Disjoint(segments[1..])
    ensures forall x: int :: Inside(segments[1..], x) ==> x > segments[0].1
  {
  }

  lemma {:induction false} SpanExact(first: nat, last: nat, x: nat)
    requires first <= last + 1
    ensures Ascending(Span(first, last))
    ensures x in Span(first, last) <==> first <= x <= last
  {
    if first <= x <= last {
      assert Span(first, last)[x - first] == x;
    }
  }

  /** Putting the ids of one segment, all at most `last`, in front of later ones. */
  lemma {:induction false} Prepend(head: seq<nat>, tail: seq<nat>, last: nat)
    requires Ascending(head) && Ascending(tail)
    requires (forall x :: x in head ==> x <= last) && (forall x :: x in tail ==> x > last)
    ensures Ascending(head + tail)
  {
    var all := head + tail;
    forall i, j | 0 <= i < j < |all| ensures all[i] < all[j] {
      assert i < |head| ==> all[i] in head;
      assert j >= |head| ==> all[j] == tail[j - |head|] && all[j] in tail;
      assert i >= |head| ==> all[i] == tail[i - |head|];
    }
  }

  /** The ids of all segments that a condition picks, in order, from those of the first and those of the rest. */
  lemma {:induction false} PrependPart(segments: seq<Segment>, keep: nat -> bool, head: seq<nat>, tail: seq<nat>)
    requires Disjoint(segments) && segments != []
    requires Ascending(head) && forall x: nat :: x in head <==> Within(segments[0], x) && keep(x)
    requires Ascending(tail) && forall x: nat :: x in tail <==> Inside(segments[1..], x) && keep(x)
    ensures Ascending(head + tail) && forall x: nat :: x in head + tail <==> Inside(segments, x) && keep(x)
  {
    hide Inside, Ascending, Disjoint;
    DisjointTail(segments);
    Prepend(head, tail, segments[0].1);
    forall x: nat ensures x in head + tail <==> Inside(segments, x) && keep(x) {
      InsideHead(segments, x);
    }
  }

  lemma {:induction false} PartsExact(segment: Segment, start: nat)
    ensures Ascending(UpperPart(segment, start)) && Ascending(LowerPart(segment, start))
    ensures forall x: nat :: x in UpperPart(segment, start) <==> Within(segment, x) && x >= start
    ensures forall x: nat :: x in LowerPart(segment, start) <==> Within(segment, x) && x < start
  {
    hide Span, Ascending;
    var (first, end) := segment;
    forall x: nat
      ensures x in UpperPart(segment, start) <==> Within(segment, x) && x >= start
      ensures x in LowerPart(segment, start) <==> Within(segment, x) && x < start
    {
      PartAt(segment, start, x);
    }
    PartAt(segment, start, 0);
  }

  lemma {:induction false} PartAt(segment: Segment, start: nat, x: nat)
    ensures Ascending(UpperPart(segment, start)) && Ascending(LowerPart(segment, start))
    ensures x in UpperPart(segment, start) <==> Within(segment, x) && x >= start
    ensures x in LowerPart(segment, start) <==> Within(segment, x) && x < start
  {
    hide Span;
    var (first, end) := segment;
    if end >= start && first <= end {
      SpanExact(Max(first, start), end, x);
    }
    if first < start && first <= end {
      SpanExact(first, Min(end, start - 1), x);
    }
  }

  lemma {:induction false} FromCursorExact(segments: seq<Segment>, start: nat)
    requires Disjoint(segments)
    ensures Ascending(FromCursor(segments, start))
    ensures forall x: nat :: x in FromCursor(segments, start) <==> Inside(segments, x) && x >= start
  {
    if segments != [] {
      hide Inside, Ascending, Disjoint, UpperPart;
      DisjointTail(segments);
      FromCursorExact(segments[1..], start);
      PartsExact(segments[0], start);
      PrependPart(segments, x => x >= start, UpperPart(segments[0], start), FromCursor(segments[1..], start));
    }
  }

  lemma {:induction false} BelowCursorExact(segments: seq<Segment>, start: nat)
    requires Disjoint(segments)
    ensures Ascending(BelowCursor(segments, start))
    ensures forall x: nat :: x in BelowCursor(segments, start) <==> Inside(segments, x) && x < start
  {
    if segments != [] {
      hide Inside, Ascending, Disjoint, LowerPart;
      DisjointTail(segments);
      BelowCursorExact(segments[1..], start);
      PartsExact(segments[0], start);
      PrependPart(segments, x => x < start, LowerPart(segments[0], start), BelowCursor(segments[1..], start));
    }
  }

  /** Distance from the cursor when ids wrap around after `max`. */
  function Distance(start: nat, max: nat, x: nat): int {
    if x >= start then x - start else x + max + 1 - start
  }

  predicate ByDistance(s: seq<nat>, start: nat, max: nat) {
    forall i, j :: 0 <= i < j < |s| ==> Distance(start, max, s[i]) < Distance(start, max, s[j])
  }

  lemma {:induction false} TwoParts(up: seq<nat>, down: seq<nat>, start: nat, max: nat)
    requires Ascending(up) && Ascending(down) && start <= max
    requires (forall x :: x in up ==> start <= x <= max) && (forall x :: x in down ==> x < start)
    ensures ByDistance(up + down, start, max)
  {
    var c := up + down;
    forall i, j | 0 <= i < j < |c| ensures Distance(start, max, c[i]) < Distance(start, max, c[j]) {
      assert if i < |up| then c[i] in up else c[i] == down[i - |up|] && c[i] in down;
      assert if j < |up| then c[j] in up else c[j] == down[j - |up|] && c[j] in down;
    }
  }

  /** Every free id is a candidate exactly once, in cyclic order beginning at the cursor. */
  lemma {:induction false} CandidateOrder(segments: seq<Segment>, start: nat, max: nat)
    requires Disjoint(segments) && start <= max && forall x: int :: Inside(segments, x) ==> x <= max
    ensures forall x: nat :: x in Candidates(segments, start) <==> Inside(segments, x)
    ensures ByDistance(Candidates(segments, start), start, max)
  {
    hide Inside, Disjoint, Ascending, ByDistance;
    FromCursorExact(segments, start);
    BelowCursorExact(segments, start);
    TwoParts(FromCursor(segments, start), BelowCursor(segments, start), start, max);
  }
}
