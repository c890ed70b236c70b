/** The audit log: a live file and numbered archives that rotation shifts in place by renaming. */
module AuditSink {
  import opened Types

  /** A regular file of whole lines; a line's length is its number of bytes. */
  datatype LogFile = LogFile(lines: seq<string>, modified: nat)

  datatype SinkConfig = SinkConfig(maxFileBytes: nat, maxArchives: nat, retentionHours: Option<nat>)

  /** The directory: 0 is the live file, k is archive ".k". */
  type Slots = map<nat, LogFile>

  function Size(lines: seq<string>): nat {
    if lines == [] then 0 else |lines[0]| + Size(lines[1..])
  }

  lemma {:induction false} SizePositive(lines: seq<string>)
    requires lines != [] && lines[0] != ""
    ensures Size(lines) > 0
  {
  }

  lemma {:induction false} SizeAppend(lines: seq<string>, line: string)
    ensures Size(lines + [line]) == Size(lines) + |line|
  {
    if lines == [] {
      assert lines + [line] == [line];
      assert [line][1..] == [];
    } else {
      SizeAppend(lines[1..], line);
      assert (lines + [line])[1..] == lines[1..] + [line];
    }
  }

  /** The file respects the size limit or holds a single event; no line is empty, since each ends in a newline. */
  predicate FitsCap(f: LogFile, c: SinkConfig) {
    (Size(f.lines) <= c.maxFileBytes || |f.lines| <= 1) && forall i :: 0 <= i < |f.lines| ==> f.lines[i] != ""
  }

  predicate AllFit(slots: Slots, c: SinkConfig) {
    forall k :: k in slots ==> FitsCap(slots[k], c)
  }

  predicate Expired(f: LogFile, c: SinkConfig, now: nat) {
    c.retentionHours.Some? && now >= f.modified && now - f.modified > c.retentionHours.value * 3600
  }

  predicate Removed(k: nat, f: LogFile, c: SinkConfig, now: nat) {
    k != 0 && (k > c.maxArchives || Expired(f, c, now))
  }

  function Pruned(slots: Slots, c: SinkConfig, now: nat): Slots {
    map k | k in slots && !Removed(k, slots[k], c, now) :: slots[k]
  }

  /** A scan that looks at some of the archives and then stops. */
  function Scanned(slots: Slots, visited: set<nat>, c: SinkConfig, now: nat): Slots {
    map k | k in slots && !(k in visited && Removed(k, slots[k], c, now)) :: slots[k]
  }

  /** Scans are at least this many seconds apart. */
  const PRUNE_SECONDS: nat := 60

  // ---------- What the directory holds, oldest to newest ----------

  function LinesAt(slots: Slots, k: nat): seq<string> {
    if k in slots then slots[k].lines else []
  }

  /** Archives n down to 1, then the live file. */
  function Joined(slots: Slots, n: nat): seq<string> {
    if n == 0 then LinesAt(slots, 0) else LinesAt(slots, n) + Joined(slots, n - 1)
  }

  predicate Suffix(s: seq<string>, t: seq<string>) {
    |s| <= |t| && t[|t| - |s|..] == s
  }

  predicate UpTo(slots: Slots, n: nat) {
    forall k :: k in slots ==> k <= n
  }

  predicate Retains(slots: Slots, n: nat, emitted: seq<string>) {
    Suffix(Joined(slots, n), emitted)
  }

  /** Higher archives were written earlier. */
  predicate Ordered(slots: Slots, now: nat) {
    && (forall i, k :: i in slots && k in slots && i < k ==> slots[k].modified <= slots[i].modified)
    && (forall k :: k in slots ==> slots[k].modified <= now)
  }

  lemma {:induction false} SuffixTrans(a: seq<string>, b: seq<string>, c: seq<string>)
    requires Suffix(a, b) && Suffix(b, c)
    ensures Suffix(a, c)
  {
    assert c[|c| - |a|..] == c[|c| - |b|..][|b| - |a|..];
  }

  lemma {:induction false} SuffixOfSum(a: seq<string>, b: seq<string>, more: seq<string>)
    requires Suffix(a, b)
    ensures Suffix(a, more + b)
  {
    assert (more + b)[|more + b| - |a|..] == b[|b| - |a|..];
  }

  lemma {:induction false} SameBelow(a: Slots, b: Slots, n: nat)
    requires forall k :: 0 <= k <= n ==> LinesAt(a, k) == LinesAt(b, k)
    ensures Joined(a, n) == Joined(b, n)
  {
    if n > 0 {
      SameBelow(a, b, n - 1);
    }
  }

  lemma {:induction false} JoinedBeyond(slots: Slots, n: nat, m: nat)
    requires UpTo(slots, n) && n <= m
    ensures Joined(slots, m) == Joined(slots, n)
  {
    if n < m {
      JoinedBeyond(slots, n, m - 1);
      assert LinesAt(slots, m) == [];
    }
  }

  function Moved(slots: Slots, from: nat): Slots
    requires from in slots
  {
    (slots - {from})[from + 1 := slots[from]]
  }

  /** Renaming into a free slot directly above keeps the contents and their order. */
  lemma {:induction false} MoveKeeps(slots: Slots, from: nat, n: nat)
    requires from in slots && from + 1 !in slots && from + 1 <= n
    ensures Joined(Moved(slots, from), n) == Joined(slots, n)
    decreases n
  {
    var e := Moved(slots, from);
    if n > from + 1 {
      MoveKeeps(slots, from, n - 1);
    } else if from > 0 {
      SameBelow(slots, e, from - 1);
      assert Joined(e, n) == slots[from].lines + ([] + Joined(e, from - 1));
      assert Joined(slots, n) == [] + (slots[from].lines + Joined(slots, from - 1));
    } else {
      assert Joined(e, 1) == slots[0].lines + [];
      assert Joined(slots, 1) == [] + slots[0].lines;
    }
  }

  /** Renaming over the topmost archive forgets only the oldest lines. */
  lemma {:induction false} MoveTop(slots: Slots, from: nat)
    requires from in slots && UpTo(slots, from + 1)
    ensures Suffix(Joined(Moved(slots, from), from + 1), Joined(slots, from + 1))
  {
    var rest := slots - {from + 1};
    MoveKeeps(rest, from, from + 1);
    assert Moved(rest, from) == Moved(slots, from);
    SameBelow(rest, slots, from);
    assert Joined(rest, from + 1) == [] + Joined(rest, from);
    SuffixOfSum(Joined(slots, from), Joined(slots, from), LinesAt(slots, from + 1));
  }

  /** Pruning removes a whole tail of the oldest archives. */
  lemma {:induction false} PruneSuffix(slots: Slots, c: SinkConfig, now: nat, n: nat)
    requires Ordered(slots, now)
    ensures Suffix(Joined(Pruned(slots, c, now), n), Joined(slots, n))
  {
    hide Ordered, Pruned, Suffix;
    var e := Pruned(slots, c, now);
    if n == 0 || n in e {
      if n in e {
        KeptBelow(slots, c, now, n);
      } else {
        PrunedLive(slots, c, now);
      }
      SameBelow(slots, e, n);
      SuffixSelf(Joined(slots, n));
    } else {
      PruneSuffix(slots, c, now, n - 1);
      assert Joined(e, n) == [] + Joined(e, n - 1) == Joined(e, n - 1);
      SuffixOfSum(Joined(e, n - 1), Joined(slots, n - 1), LinesAt(slots, n));
    }
  }

  lemma {:induction false} PrunedLive(slots: Slots, c: SinkConfig, now: nat)
    ensures LinesAt(Pruned(slots, c, now), 0) == LinesAt(slots, 0)
  {
  }

  lemma {:induction false} SuffixSelf(s: seq<string>)
    ensures Suffix(s, s)
  {
  }

  lemma {:induction false} KeptBelow(slots: Slots, c: SinkConfig, now: nat, n: nat)
    requires Ordered(slots, now) && n in Pruned(slots, c, now)
    ensures forall k :: 0 <= k <= n ==> LinesAt(slots, k) == LinesAt(Pruned(slots, c, now), k)
  {
    forall k | 0 <= k <= n && k in slots ensures !Removed(k, slots[k], c, now) {
    }
  }

  // ---------- Scans that fail half-way ----------

  /** The archives below an index, with the live file. */
  function Head(slots: Slots, n: nat): Slots {
    map k | k in slots && k < n :: slots[k]
  }

  /** From an index on, there is nothing left that retention would keep. */
  predicate GivenUp(slots: Slots, n: nat, c: SinkConfig, now: nat) {
    forall k :: k in slots && k >= n ==> Removed(k, slots[k], c, now)
  }

  /** What a scan leaves that stopped somewhere: some of the archives to be removed are gone, and no others. */
  predicate PartlyPruned(before: Slots, after: Slots, c: SinkConfig, now: nat) {
    && (forall k :: k in after ==> k in before && after[k] == before[k])
    && (forall k :: k in before && k !in after ==> Removed(k, before[k], c, now))
  }

  lemma {:induction false} HeadSuffix(slots: Slots, a: nat, b: nat, n: nat)
    requires a <= b
    ensures Suffix(Joined(Head(slots, a), n), Joined(Head(slots, b), n))
  {
    if n < a {
      SameBelow(Head(slots, a), Head(slots, b), n);
    } else if n > 0 {
      HeadSuffix(slots, a, b, n - 1);
      assert Joined(Head(slots, a), n) == [] + Joined(Head(slots, a), n - 1);
      SuffixOfSum(Joined(Head(slots, a), n - 1), Joined(Head(slots, b), n - 1), LinesAt(Head(slots, b), n));
    }
  }

  /** Archives to be removed are the oldest ones: above one of them there are only others. */
  lemma {:induction false} RemovedAbove(slots: Slots, c: SinkConfig, now: nat, n: nat)
    requires Ordered(slots, now) && n in slots && Removed(n, slots[n], c, now)
    ensures GivenUp(slots, n, c, now)
  {
  }

  lemma {:induction false} GivenUpLater(slots: Slots, n: nat, c: SinkConfig, a: nat, b: nat)
    requires GivenUp(slots, n, c, a) && a <= b
    ensures GivenUp(slots, n, c, b)
  {
  }

  /** Below the first archive that the scan may have removed, the log is as unbroken as it was. */
  lemma {:induction false} PartScan(before: Slots, after: Slots, c: SinkConfig, now: nat, n: nat, sound: nat, emitted: seq<string>)
    returns (next: nat)
    requires Ordered(before, now) && 1 <= sound && Retains(Head(before, sound), n, emitted) && PartlyPruned(before, after, c, now)
    ensures 1 <= next <= sound && Retains(Head(after, next), n, emitted)
    ensures next < sound || GivenUp(before, sound, c, now) ==> GivenUp(after, next, c, now)
  {
    next := 1;
    while next < sound && !(next in before && Removed(next, before[next], c, now))
      invariant 1 <= next <= sound
      invariant forall k :: 0 <= k < next && k in before ==> !Removed(k, before[k], c, now)
    {
      next := next + 1;
    }
    if next < sound {
      RemovedAbove(before, c, now, next);
    }
    assert Head(after, next) == Head(before, next);
    HeadSuffix(before, next, sound, n);
    SuffixTrans(Joined(Head(before, next), n), Joined(Head(before, sound), n), emitted);
  }

  predicate Distinct(lines: seq<string>) {
    forall i, j :: 0 <= i < j < |lines| ==> lines[i] != lines[j]
  }

  /** No archive is gone below one that is still there. */
  predicate Unbroken(before: Slots, after: Slots, n: nat) {
    forall i, k :: 0 <= i < k <= n && LinesAt(after, k) != [] && LinesAt(before, i) != [] ==> LinesAt(after, i) != []
  }

  lemma {:induction false} PartShorter(before: Slots, after: Slots, c: SinkConfig, now: nat, n: nat)
    requires PartlyPruned(before, after, c, now)
    ensures |Joined(after, n)| <= |Joined(before, n)|
    ensures |Joined(after, n)| == |Joined(before, n)| ==> forall k :: 0 <= k <= n ==> LinesAt(after, k) == LinesAt(before, k)
  {
    hide Removed;
    if n > 0 {
      PartShorter(before, after, c, now, n - 1);
    }
  }

  /** With distinct events, what a scan that stopped leaves is a suffix of the log exactly if it left no hole. */
  lemma {:induction false} PartScanIff(before: Slots, after: Slots, c: SinkConfig, now: nat, n: nat)
    requires PartlyPruned(before, after, c, now) && Distinct(Joined(before, n))
    ensures Suffix(Joined(after, n), Joined(before, n)) <==> Unbroken(before, after, n)
  {
    if n > 0 {
      hide Suffix, Unbroken, PartlyPruned;
      DistinctRest(LinesAt(before, n), Joined(before, n - 1));
      PartScanIff(before, after, c, now, n - 1);
      if LinesAt(after, n) == [] {
        TopGone(before, after, c, now, n);
      } else {
        TopKept(before, after, c, now, n);
      }
    } else {
      SameLive(before, after, c, now);
    }
  }

  lemma {:induction false} DistinctRest(lines: seq<string>, rest: seq<string>)
    requires Distinct(lines + rest)
    ensures Distinct(rest)
  {
    assert forall i :: 0 <= i < |rest| ==> rest[i] == (lines + rest)[|lines| + i];
  }

  lemma {:induction false} SameLive(before: Slots, after: Slots, c: SinkConfig, now: nat)
    requires PartlyPruned(before, after, c, now)
    ensures Suffix(Joined(after, 0), Joined(before, 0)) && Unbroken(before, after, 0)
  {
    var lines := LinesAt(before, 0);
    assert lines[|lines| - |LinesAt(after, 0)|..] == LinesAt(after, 0);
  }

  lemma {:induction false} TopGone(before: Slots, after: Slots, c: SinkConfig, now: nat, n: nat)
    requires n > 0 && PartlyPruned(before, after, c, now) && LinesAt(after, n) == []
    requires Suffix(Joined(after, n - 1), Joined(before, n - 1)) <==> Unbroken(before, after, n - 1)
    ensures Suffix(Joined(after, n), Joined(before, n)) <==> Unbroken(before, after, n)
  {
    hide Suffix, PartlyPruned;
    PartShorter(before, after, c, now, n - 1);
    assert Joined(after, n) == [] + Joined(after, n - 1) == Joined(after, n - 1);
    SuffixOfLonger(Joined(after, n - 1), Joined(before, n - 1), LinesAt(before, n));
  }

  lemma {:induction false} TopKept(before: Slots, after: Slots, c: SinkConfig, now: nat, n: nat)
    requires n > 0 && PartlyPruned(before, after, c, now) && LinesAt(after, n) != [] && Distinct(Joined(before, n))
    ensures Suffix(Joined(after, n), Joined(before, n)) <==> Unbroken(before, after, n)
  {
    hide Removed, Distinct;
    PartShorter(before, after, c, now, n - 1);
    FullTop(LinesAt(before, n), Joined(after, n - 1), Joined(before, n - 1));
    if Unbroken(before, after, n) {
      SameBelow(before, after, n);
    }
  }

  lemma {:induction false} SuffixOfLonger(a: seq<string>, b: seq<string>, more: seq<string>)
    requires |a| <= |b|
    ensures Suffix(a, more + b) <==> Suffix(a, b)
  {
    assert (more + b)[|more + b| - |a|..] == b[|b| - |a|..];
  }

  /** Something kept on top of distinct lines is a suffix only if nothing below it is gone. */
  lemma {:induction false} FullTop(lines: seq<string>, a: seq<string>, b: seq<string>)
    requires lines != [] && |a| <= |b| && Distinct(lines + b)
    ensures Suffix(lines + a, lines + b) ==> |a| == |b|
  {
    if |a| < |b| {
      var k := |b| - |a|;
      assert (lines + b)[k..][0] == (lines + b)[k] && (lines + a)[0] == (lines + b)[0];
    }
  }

  /** No archive that is to be removed lies below another: neither holds nothing. */
  predicate OldestOnly(slots: Slots, c: SinkConfig, now: nat, n: nat) {
    forall i, k :: 0 < i < k <= n && LinesAt(slots, i) != [] && LinesAt(slots, k) != [] ==> !Removed(i, slots[i], c, now)
  }

  lemma {:induction false} OldestUnbroken(slots: Slots, visited: set<nat>, c: SinkConfig, now: nat, n: nat)
    requires OldestOnly(slots, c, now, n)
    ensures Unbroken(slots, Scanned(slots, visited, c, now), n)
  {
    hide Removed;
    LiveStays(slots, c, now);
    var after := Scanned(slots, visited, c, now);
    forall i, k | 0 <= i < k <= n && LinesAt(after, k) != [] && LinesAt(slots, i) != [] ensures LinesAt(after, i) != [] {
      assert LinesAt(slots, k) != [];
    }
  }

  lemma {:induction false} PartIsScan(before: Slots, after: Slots, c: SinkConfig, now: nat)
    requires PartlyPruned(before, after, c, now)
    ensures after == Scanned(before, before.Keys - after.Keys, c, now)
  {
    hide Removed;
  }

  lemma {:induction false} ScannedPart(slots: Slots, visited: set<nat>, c: SinkConfig, now: nat)
    ensures PartlyPruned(slots, Scanned(slots, visited, c, now), c, now)
  {
    hide Removed;
  }

  /**
    With distinct events: wherever the scan stops, what it leaves is a suffix of the log, if and only if of the archives
    it is to remove only the oldest one can have anything older above it.
   */
  lemma {:induction false} StoppedScanIff(slots: Slots, c: SinkConfig, now: nat, n: nat)
    requires Distinct(Joined(slots, n))
    ensures (forall visited: set<nat> :: Suffix(Joined(Scanned(slots, visited, c, now), n), Joined(slots, n)))
      <==> OldestOnly(slots, c, now, n)
  {
    hide Distinct, Suffix, Removed;
    if OldestOnly(slots, c, now, n) {
      forall visited: set<nat> ensures Suffix(Joined(Scanned(slots, visited, c, now), n), Joined(slots, n)) {
        ScannedPart(slots, visited, c, now);
        PartScanIff(slots, Scanned(slots, visited, c, now), c, now, n);
        OldestUnbroken(slots, visited, c, now, n);
      }
    } else {
      var i, k :| 0 < i < k <= n && LinesAt(slots, i) != [] && LinesAt(slots, k) != [] && Removed(i, slots[i], c, now);
      var after := Scanned(slots, {i}, c, now);
      ScannedPart(slots, {i}, c, now);
      PartScanIff(slots, after, c, now, n);
      assert LinesAt(after, k) == LinesAt(slots, k) && LinesAt(after, i) == [];
      assert !Suffix(Joined(after, n), Joined(slots, n));
    }
  }

  lemma {:induction false} RetainPruneHead(slots: Slots, c: SinkConfig, now: nat, n: nat, sound: nat, emitted: seq<string>)
    requires Ordered(slots, now) && Retains(Head(slots, sound), n, emitted)
    ensures Retains(Head(Pruned(slots, c, now), sound), n, emitted) && Ordered(Pruned(slots, c, now), now)
    ensures GivenUp(slots, sound, c, now) ==> Below(Pruned(slots, c, now), sound)
  {
    RetainPrune(Head(slots, sound), c, now, n, emitted);
    assert Pruned(Head(slots, sound), c, now) == Head(Pruned(slots, c, now), sound);
  }

  predicate Below(slots: Slots, n: nat) {
    forall k :: k in slots ==> k < n
  }

  lemma {:induction false} HeadOfAll(slots: Slots, n: nat)
    requires Below(slots, n)
    ensures Head(slots, n) == slots
  {
  }

  /** How far the log is unbroken after a file moved up by one. */
  function Raised(sound: nat, from: nat): nat {
    if from + 1 == sound then sound + 1 else sound
  }

  lemma {:induction false} HeadMoved(slots: Slots, from: nat, sound: nat)
    requires from in slots
    ensures from < sound ==> Head(Moved(slots, from), Raised(sound, from)) == Moved(Head(slots, sound), from)
    ensures from >= sound ==> Head(Moved(slots, from), Raised(sound, from)) == Head(slots, sound)
    ensures Below(slots, sound) ==> Below(Moved(slots, from), Raised(sound, from))
  {
  }

  lemma {:induction false} RetainMoveHead(slots: Slots, from: nat, cap: nat, sound: nat, emitted: seq<string>)
    requires from in slots && from <= cap && UpTo(slots, cap + 1) && (from < cap ==> from + 1 !in slots)
    requires Retains(Head(slots, sound), cap + 1, emitted)
    ensures Retains(Head(Moved(slots, from), Raised(sound, from)), cap + 1, emitted)
  {
    HeadMoved(slots, from, sound);
    if from < sound {
      RetainMove(Head(slots, sound), from, cap, emitted);
    }
  }

  lemma {:induction false} GivenUpMove(slots: Slots, from: nat, c: SinkConfig, now: nat, sound: nat)
    requires from in slots && GivenUp(slots, sound, c, now)
    ensures GivenUp(Moved(slots, from), Raised(sound, from), c, now)
  {
  }

  // ---------- Rotation as an exact shift ----------

  /** After the loop has passed index i, everything above i has moved up by one. */
  predicate ShiftedAbove(old0: Slots, new0: Slots, cap: nat, i: nat) {
    && i <= cap
    && (forall k :: 0 <= k <= i ==> (k in new0 <==> k in old0))
    && (forall k :: 0 <= k <= i && k in old0 ==> new0[k] == old0[k])
    && (i < cap ==> i + 1 !in new0)
    && (forall k :: i < k < cap ==> (k + 1 in new0 <==> k in old0))
    && (forall k :: i < k < cap && k in old0 ==> new0[k + 1] == old0[k])
    && UpTo(new0, cap + 1)
  }

  /** Archive k + 1 is the old archive k, archive 1 is the old live file, and nothing lies above the cap. */
  function Rotated(slots: Slots, c: SinkConfig, now: nat): Slots {
    map k: nat | 0 <= k <= c.maxArchives && Arrives(slots, c, now, k) :: if k == 0 then LogFile([], now) else slots[k - 1]
  }

  predicate Arrives(slots: Slots, c: SinkConfig, now: nat, k: nat) {
    k == 0 || (k - 1 in slots && !Expired(slots[k - 1], c, now))
  }

  // ---------- A whole successful call ----------

  function PrunedNow(slots: Slots, lastPrune: Option<nat>, c: SinkConfig, now: nat): Slots {
    if lastPrune.Some? && now - lastPrune.value < PRUNE_SECONDS then slots else Pruned(slots, c, now)
  }

  predicate Overflows(slots: Slots, c: SinkConfig, line: string)
    requires 0 in slots
  {
    Size(slots[0].lines) > 0 && Size(slots[0].lines) + |line| > c.maxFileBytes
  }

  /** What the directory holds after one event was emitted without an error. */
  function AfterEmit(slots: Slots, lastPrune: Option<nat>, c: SinkConfig, line: string, now: nat): Slots
    requires 0 in slots
    ensures 0 in AfterEmit(slots, lastPrune, c, line, now)
  {
    var pruned := PrunedNow(slots, lastPrune, c, now);
    var ready := if Overflows(pruned, c, line) then Rotated(pruned, c, now) else pruned;
    ready[0 := LogFile(ready[0].lines + [line], now)]
  }

  lemma {:induction false} ShiftOne(old0: Slots, slots: Slots, cap: nat, i: nat)
    requires ShiftedAbove(old0, slots, cap, i) && 1 <= i
    ensures i in slots ==> ShiftedAbove(old0, Moved(slots, i), cap, i - 1)
    ensures i !in slots ==> ShiftedAbove(old0, slots, cap, i - 1)
  {
    if i in slots {
      var e := Moved(slots, i);
      assert i !in e && i + 1 in e && e[i + 1] == old0[i];
    }
  }

  lemma {:induction false} RetainMove(slots: Slots, from: nat, cap: nat, emitted: seq<string>)
    requires from in slots && from <= cap && UpTo(slots, cap + 1) && (from < cap ==> from + 1 !in slots)
    requires Retains(slots, cap + 1, emitted)
    ensures Retains(Moved(slots, from), cap + 1, emitted)
  {
    hide Suffix, Moved, LinesAt;
    if from < cap {
      MoveKeeps(slots, from, cap + 1);
    } else {
      MoveTop(slots, from);
      SuffixTrans(Joined(Moved(slots, from), cap + 1), Joined(slots, cap + 1), emitted);
    }
  }

  lemma {:induction false} OrderMove(slots: Slots, from: nat, cap: nat, now: nat)
    requires Ordered(slots, now) && from in slots && from <= cap && UpTo(slots, cap + 1)
    requires from < cap ==> from + 1 !in slots
    ensures Ordered(Moved(slots, from), now) && UpTo(Moved(slots, from), cap + 1)
  {
  }

  lemma {:induction false} RetainPrune(slots: Slots, c: SinkConfig, now: nat, n: nat, emitted: seq<string>)
    requires Ordered(slots, now) && Retains(slots, n, emitted)
    ensures Retains(Pruned(slots, c, now), n, emitted) && Ordered(Pruned(slots, c, now), now)
  {
    PruneSuffix(slots, c, now, n);
    SuffixTrans(Joined(Pruned(slots, c, now), n), Joined(slots, n), emitted);
  }

  /** Starting a fresh live file, when the old one has become archive 1. */
  lemma {:induction false} RetainFresh(slots: Slots, now: nat, n: nat, sound: nat, emitted: seq<string>)
    requires 0 !in slots && 1 <= sound && Retains(Head(slots, sound), n, emitted)
    ensures Retains(Head(slots[0 := LogFile([], now)], sound), n, emitted)
  {
    SameBelow(Head(slots, sound), Head(slots[0 := LogFile([], now)], sound), n);
  }

  lemma {:induction false} RetainAppend(slots: Slots, n: nat, sound: nat, emitted: seq<string>, line: string, now: nat)
    requires 0 in slots && 1 <= sound && Retains(Head(slots, sound), n, emitted)
    ensures Retains(Head(slots[0 := LogFile(slots[0].lines + [line], now)], sound), n, emitted + [line])
  {
    var head := Head(slots, sound);
    JoinedAppend(head, n, line, now);
    assert Head(slots[0 := LogFile(slots[0].lines + [line], now)], sound) == head[0 := LogFile(slots[0].lines + [line], now)];
    var s := Joined(head, n);
    assert (emitted + [line])[|emitted| - |s|..] == emitted[|emitted| - |s|..] + [line];
  }

  lemma {:induction false} JoinedAppend(slots: Slots, n: nat, line: string, now: nat)
    requires 0 in slots
    ensures Joined(slots[0 := LogFile(slots[0].lines + [line], now)], n) == Joined(slots, n) + [line]
  {
    var e := slots[0 := LogFile(slots[0].lines + [line], now)];
    if n > 0 {
      JoinedAppend(slots, n - 1, line, now);
      assert LinesAt(e, n) == LinesAt(slots, n);
    }
  }

  lemma {:induction false} RotationEnds(old0: Slots, slots: Slots, c: SinkConfig, now: nat)
    requires 0 in old0 && ShiftedAbove(old0, slots, c.maxArchives, 0)
    ensures 0 in slots && Pruned(Moved(slots, 0)[0 := LogFile([], now)], c, now) == Rotated(old0, c, now)
  {
    var e := Moved(slots, 0)[0 := LogFile([], now)];
    forall k | 0 <= k < c.maxArchives
      ensures k + 1 in e <==> k in old0
      ensures k in old0 ==> e[k + 1] == old0[k]
    {
    }
    var pruned, rotated := Pruned(e, c, now), Rotated(old0, c, now);
    forall k: nat ensures k in pruned <==> k in rotated {
      assert k >= 1 ==> (k - 1) + 1 == k;
    }
    forall k | k in pruned ensures pruned[k] == rotated[k] {
      assert k >= 1 ==> (k - 1) + 1 == k;
    }
  }

  // ---------- The writer ----------

  /** Whether one call to the file system succeeds. */
  method Attempt() returns (ok: bool) {
    ok := *;
  }

  class Writer {
    var slots: Slots
    var config: SinkConfig
    var lastPrune: Option<nat>
    ghost var emitted: seq<string>
    ghost var top: nat
    ghost var clock: nat
    ghost var sound: nat
    ghost var steady: bool

    /**
      The files below `sound`, oldest archive to live file, are a suffix of everything that was ever written. Above it a
      scan may have stopped half-way; as long as the limits have not been changed since, retention keeps nothing there.
     */
    ghost predicate Valid()
      reads this
    {
      && 0 in slots && 1 <= sound && UpTo(slots, top) && config.maxArchives + 1 <= top
      && Retains(Head(slots, sound), top, emitted) && Ordered(slots, clock)
      && (steady ==> GivenUp(slots, sound, config, clock))
      && (lastPrune.Some? ==> lastPrune.value <= clock && UpTo(slots, config.maxArchives + 1))
    }

    /** The whole directory is unbroken. */
    ghost predicate Complete()
      reads this
    {
      Below(slots, sound)
    }

    lemma {:induction false} CompleteRetains()
      requires Valid() && Complete()
      ensures Retains(slots, top, emitted)
    {
      HeadOfAll(slots, sound);
    }

    constructor (c: SinkConfig, now: nat)
      ensures Valid() && Complete() && steady && config == c && emitted == [] && slots == map[0 := LogFile([], now)] && clock == now
      ensures lastPrune.None?
    {
      slots, config, lastPrune := map[0 := LogFile([], now)], c, None;
      emitted, top, clock, sound, steady := [], c.maxArchives + 1, now, c.maxArchives + 2, true;
      new;
      HeadOfAll(slots, sound);
      SameBelow(slots, map[], top);
      NothingJoined(top);
    }

    /** Publishing new limits for the same path. */
    method Apply(c: SinkConfig)
      requires Valid()
      modifies this
      ensures Valid() && config == c && slots == old(slots) && emitted == old(emitted) && clock == old(clock) && lastPrune.None?
      ensures old(Complete()) ==> Complete() && steady
    {
      hide Ordered;
      config, lastPrune := c, None;
      JoinedBeyond(Head(slots, sound), top, Max(top, c.maxArchives + 1));
      top := Max(top, c.maxArchives + 1);
      steady := GivenUp(slots, sound, c, clock);
    }

    /** The directory scan: every archive above the cap or past its age is removed, unless the scan stops with an error. */
    method RemoveOld(now: nat) returns (ok: bool)
      modifies this`slots
      ensures ok ==> slots == Pruned(old(slots), config, now)
      ensures PartlyPruned(old(slots), slots, config, now)
    {
      hide Removed;
      LiveStays(slots, config, now);
      ok := Attempt();
      if !ok {
        return;
      }
      var rest := slots.Keys - {0};
      while rest != {}
        invariant rest <= slots.Keys && 0 !in rest
        invariant forall k :: k in slots <==> k in old(slots) && (k in rest || !Removed(k, old(slots)[k], config, now))
        invariant forall k :: k in slots ==> slots[k] == old(slots)[k]
        modifies this`slots
        decreases |rest|
      {
        var index :| index in rest;
        ok := Attempt();
        if !ok {
          return;
        }
        if Removed(index, slots[index], config, now) {
          ok := Attempt();
          if !ok {
            return;
          }
          slots := slots - {index};
        }
        rest := rest - {index};
      }
      ok := true;
    }

    /** A completed scan mends what an earlier one left, if the limits are still the same. */
    method Prune(force: bool, now: nat) returns (ok: bool, ghost visited: set<nat>)
      requires Valid() && clock <= now
      modifies this
      ensures Valid() && clock == now && (ok ==> lastPrune.Some?)
      ensures config == old(config) && emitted == old(emitted) && steady == old(steady) && sound <= old(sound)
      ensures ok && force ==> slots == Pruned(old(slots), config, now) && (steady ==> Complete())
      ensures ok && !force ==> slots == PrunedNow(old(slots), old(lastPrune), config, now)
      ensures ok ==> sound == old(sound) && (slots == old(slots) || slots == Pruned(old(slots), config, now))
      ensures ok && old(Complete()) ==> Complete()
      ensures slots == Scanned(old(slots), visited, config, now) && PartlyPruned(old(slots), slots, config, now)
    {
      hide Retains, Ordered, Pruned, GivenUp, Removed, Head;
      LaterClock(slots, clock, now);
      if steady {
        GivenUpLater(slots, sound, config, clock, now);
      }
      clock := now;
      visited := {};
      if !force && lastPrune.Some? && now - lastPrune.value < PRUNE_SECONDS {
        assert slots == Scanned(slots, {}, config, now);
        return true, visited;
      }
      RetainPruneHead(slots, config, now, top, sound, emitted);
      PrunedBound(slots, config, now);
      ghost var before := slots;
      ok := RemoveOld(now);
      visited := before.Keys - slots.Keys;
      PartIsScan(before, slots, config, now);
      PartFacts(before, slots, config, now);
      if ok {
        lastPrune := Some(now);
        PrunedBelow(before, config, now, sound);
      } else {
        sound := PartScan(before, slots, config, now, top, sound, emitted);
      }
    }

    /** Shifts every archive up, from the highest down; a failed rename leaves everything readable in order. */
    method Shift(now: nat) returns (ok: bool)
      requires Valid() && UpTo(slots, config.maxArchives + 1) && clock <= now
      modifies this
      ensures Valid() && config == old(config) && emitted == old(emitted) && clock == now && steady == old(steady)
      ensures UpTo(slots, config.maxArchives + 1)
      ensures lastPrune == old(lastPrune) && slots[0] == old(slots)[0]
      ensures AllFit(old(slots), config) ==> AllFit(slots, config)
      ensures old(Complete()) ==> Complete()
      ensures ok ==> ShiftedAbove(old(slots), slots, config.maxArchives, 0)
    {
      hide Retains, Ordered, ShiftedAbove, Moved, AllFit, Head, GivenUp, Below, Raised;
      LaterClock(slots, clock, now);
      if steady {
        GivenUpLater(slots, sound, config, clock, now);
      }
      clock := now;
      ghost var cap := config.maxArchives;
      NarrowHead(slots, cap + 1, top, sound, emitted);
      var index := config.maxArchives;
      ShiftStart(slots, cap);
      while index >= 1
        invariant 0 <= index <= cap == config.maxArchives && ShiftedAbove(old(slots), slots, cap, index)
        invariant 0 in slots && slots[0] == old(slots)[0] && UpTo(slots, cap + 1) && 1 <= sound
        invariant Retains(Head(slots, sound), cap + 1, emitted) && Ordered(slots, now)
        invariant steady ==> GivenUp(slots, sound, config, now)
        invariant AllFit(old(slots), config) ==> AllFit(slots, config)
        invariant old(Complete()) ==> Complete()
        modifies this`slots, this`sound
      {
        ShiftOne(old(slots), slots, cap, index);
        if index in slots {
          ok := Attempt();
          if !ok {
            WidenHead(slots, cap + 1, top, sound, emitted);
            return false;
          }
          ShiftFree(old(slots), slots, cap, index);
          MoveStep(slots, index, config, now, sound, emitted);
          slots := (slots - {index})[index + 1 := slots[index]];
          sound := Raised(sound, index);
        }
        index := index - 1;
      }
      WidenHead(slots, cap + 1, top, sound, emitted);
      ok := true;
    }

    /** The live file becomes archive 1 and a fresh one takes its place; if that fails, it is put back. */
    method Replace(now: nat) returns (ok: bool)
      requires Valid() && UpTo(slots, config.maxArchives + 1) && clock == now && (0 < config.maxArchives ==> 1 !in slots)
      modifies this
      ensures Valid() && config == old(config) && emitted == old(emitted) && clock == now && steady == old(steady)
      ensures AllFit(old(slots), config) ==> AllFit(slots, config)
      ensures old(Complete()) ==> Complete()
      ensures ok ==> slots == Moved(old(slots), 0)[0 := LogFile([], now)] && UpTo(slots, config.maxArchives + 1)
      ensures !ok ==> slots[0] == old(slots)[0]
    {
      hide Retains, Ordered, AllFit, Head, GivenUp, Below, Raised;
      ghost var cap, shifted := config.maxArchives, slots;
      NarrowHead(slots, cap + 1, top, sound, emitted);
      ok := Attempt();
      if !ok {
        return;
      }
      MoveStep(slots, 0, config, now, sound, emitted);
      var live := slots[0];
      slots := (slots - {0})[1 := live];
      assert slots == Moved(shifted, 0);
      ok := Attempt();
      if !ok {
        RollBack(shifted, config, emitted, now, sound);
        slots := (slots - {1})[0 := live];
        assert slots == shifted - {1};
        WidenHead(slots, cap + 1, top, sound, emitted);
        return;
      }
      sound := Raised(sound, 0);
      FreshStep(slots, config, now, sound, emitted);
      slots := slots[0 := LogFile([], now)];
      WidenHead(slots, cap + 1, top, sound, emitted);
    }

    /** On success every file has moved up by one; an error leaves the old live file live, or kept as archive 1. */
    method Rotate(now: nat) returns (ok: bool)
      requires Valid() && UpTo(slots, config.maxArchives + 1) && clock <= now
      modifies this
      ensures Valid() && config == old(config) && emitted == old(emitted) && clock == now && steady == old(steady)
      ensures ok ==> slots == Rotated(old(slots), config, now) && slots[0] == LogFile([], now)
      ensures ok ==> lastPrune.Some? && (steady ==> Complete())
      ensures !ok ==> slots[0] == old(slots)[0] || slots[0] == LogFile([], now)
      ensures !ok && slots[0] != old(slots)[0] && 0 < config.maxArchives && !Expired(old(slots)[0], config, now) ==>
        1 in slots && slots[1] == old(slots)[0]
      ensures AllFit(old(slots), config) ==> AllFit(slots, config)
      ensures ok && old(Complete()) ==> Complete()
    {
      hide Retains, Ordered, Rotated, Pruned, AllFit, Head, GivenUp, Below, Scanned;
      ok := Shift(now);
      if !ok {
        return;
      }
      ghost var shifted := slots;
      RotationEnds(old(slots), shifted, config, now);
      ok := Replace(now);
      if !ok {
        return;
      }
      ghost var replaced := slots;
      ghost var visited;
      ok, visited := Prune(true, now);
      if AllFit(replaced, config) {
        PartFit(replaced, slots, config, now);
      }
    }

    /**
      Appends one event, after rotating if it would not fit; an event is never split. A write that fails may leave the
      beginning of the event behind, and `emitted` is everything that was ever written.
     */
    method Emit(line: string, now: nat) returns (ok: bool)
      requires Valid() && clock <= now && line != ""
      modifies this
      ensures Valid() && config == old(config) && clock == now && steady == old(steady)
      ensures ok ==> emitted == old(emitted) + [line] && slots == AfterEmit(old(slots), old(lastPrune), config, line, now)
      ensures ok ==> lastPrune.Some?
      ensures !ok ==> emitted == old(emitted) || exists part :: part != "" && part <= line && emitted == old(emitted) + [part]
      ensures AllFit(old(slots), config) ==> AllFit(slots, config)
      ensures ok && old(Complete()) ==> Complete()
    {
      hide Retains, Ordered, Pruned, AllFit, Head, GivenUp, Below, PartlyPruned, UpTo, Rotated, Expired, Scanned, PrunedNow;
      ghost var before, visited := slots, {};
      ok, visited := Prune(false, now);
      if AllFit(before, config) {
        PartFit(before, slots, config, now);
      }
      if !ok {
        return;
      }
      var size := Size(slots[0].lines);
      if size > 0 && size + |line| > config.maxFileBytes {
        ok := Rotate(now);
        if !ok {
          return;
        }
      }
      var written := PartWritten(line);
      if written > 0 {
        Append(line[..written], now);
      }
      ok := written == |line|;
      if ok {
        var flushed := Attempt();
        assert line[..written] == line;
        ok := flushed;
      }
    }

    method Append(part: string, now: nat)
      requires Valid() && clock == now && part != ""
      modifies this`slots, this`emitted
      ensures Valid() && emitted == old(emitted) + [part] && slots == old(slots)[0 := LogFile(old(slots)[0].lines + [part], now)]
      ensures AllFit(old(slots), config) && (Size(old(slots)[0].lines) > 0 ==> Size(old(slots)[0].lines) + |part| <= config.maxFileBytes) ==>
        AllFit(slots, config)
      ensures old(Complete()) ==> Complete()
    {
      hide Retains, Ordered, AllFit, Head, GivenUp, Below, UpTo;
      RetainAppend(slots, top, sound, emitted, part, now);
      AppendOrder(slots, part, now);
      AppendStays(slots, part, config, now, sound);
      if AllFit(slots, config) && (Size(slots[0].lines) > 0 ==> Size(slots[0].lines) + |part| <= config.maxFileBytes) {
        AppendFit(slots, part, config, now);
      }
      slots := slots[0 := LogFile(slots[0].lines + [part], now)];
      emitted := emitted + [part];
    }
  }

  /** How much of the event reaches the file. */
  method PartWritten(line: string) returns (n: nat)
    ensures n <= |line|
  {
    n := *;
    if n > |line| {
      n := |line|;
    }
  }

  // ---------- A hole that the writer reaches ----------

  /** Two bytes in a file, three archives, no age limit; then only one archive. */
  const THREE := SinkConfig(2, 3, None)
  const ONE := SinkConfig(2, 1, None)

  /** A new log, and what the writer leaves after one, two, three and four events, all in the first second. */
  const DIR0: Slots := map[0 := LogFile([], 0)]
  const DIR1: Slots := AfterEmit(DIR0, None, THREE, "a\n", 0)
  const DIR2: Slots := AfterEmit(DIR1, Some(0), THREE, "b\n", 0)
  const DIR3: Slots := AfterEmit(DIR2, Some(0), THREE, "c\n", 0)
  const DIR4: Slots := AfterEmit(DIR3, Some(0), THREE, "d\n", 0)

  /** One more event within the first second. */
  method EmitEarly(w: Writer, line: string) returns (ok: bool)
    requires w.Valid() && w.clock == 0 && line != ""
    modifies w
    ensures w.Valid() && w.clock == 0 && w.config == old(w.config)
    ensures ok ==> w.emitted == old(w.emitted) + [line] && w.lastPrune == Some(0)
    ensures ok ==> w.slots == AfterEmit(old(w.slots), old(w.lastPrune), w.config, line, 0)
  {
    hide AfterEmit, Retains, Ordered, UpTo, GivenUp, Head, AllFit, Below;
    ok := w.Emit(line, 0);
  }

  /** A writer whose calls succeed gets there, and is then given a cap of one archive. */
  method FourEvents() returns (w: Writer, ok: bool)
    ensures ok ==> w.Valid() && w.slots == DIR4 && w.config == ONE && w.lastPrune.None? && w.emitted == ["a\n", "b\n", "c\n", "d\n"]
  {
    hide AfterEmit, Writer.Valid, Writer.Complete;
    w := new Writer(THREE, 0);
    ok := EmitEarly(w, "a\n");
    if ok {
      ok := EmitEarly(w, "b\n");
    }
    if ok {
      ok := EmitEarly(w, "c\n");
    }
    if ok {
      ok := EmitEarly(w, "d\n");
    }
    w.Apply(ONE);
  }

  /** An event that does not fit any more: every file moves up. */
  lemma {:induction false} EmitFull(slots: Slots, line: string)
    requires 0 in slots && |line| == 2 && (forall k :: k in slots ==> k <= 2) && |slots[0].lines| == 1 && |slots[0].lines[0]| == 2
    ensures var e := AfterEmit(slots, Some(0), THREE, line, 0);
      && e[0] == LogFile([line], 0) && (forall k :: k in e <==> k == 0 || (1 <= k && k - 1 in slots))
      && forall k :: 1 <= k && k - 1 in slots ==> e[k] == slots[k - 1]
  {
    hide Pruned;
    assert Size(slots[0].lines) == 2 by {
      assert slots[0].lines[1..] == [];
    }
    var rotated := Rotated(slots, THREE, 0);
    assert PrunedNow(slots, Some(0), THREE, 0) == slots && rotated[0].lines + [line] == [line];
    assert AfterEmit(slots, Some(0), THREE, line, 0) == rotated[0 := LogFile([line], 0)];
  }

  /** Four events, each in a file of its own. */
  lemma {:induction false} FourFiles()
    ensures DIR4 == map[
      0 := LogFile(["d\n"], 0), 1 := LogFile(["c\n"], 0), 2 := LogFile(["b\n"], 0), 3 := LogFile(["a\n"], 0)]
  {
    hide AfterEmit;
    FirstEvent("a\n");
    EmitFull(DIR1, "b\n");
    assert DIR2 == map[0 := LogFile(["b\n"], 0), 1 := LogFile(["a\n"], 0)];
    EmitFull(DIR2, "c\n");
    assert DIR3 == map[0 := LogFile(["c\n"], 0), 1 := LogFile(["b\n"], 0), 2 := LogFile(["a\n"], 0)];
    EmitFull(DIR3, "d\n");
  }

  lemma {:induction false} FirstEvent(line: string)
    ensures AfterEmit(DIR0, None, THREE, line, 0) == map[0 := LogFile([line], 0)]
  {
    assert Pruned(DIR0, THREE, 0) == DIR0;
    assert DIR0[0].lines + [line] == [line];
  }

  /**
    The writer emits four events and is then given a cap of one archive: a scan that looks at archive 2 and stops leaves
    the first, the third and the fourth event.
   */
  lemma {:induction false} ScanCanLeaveHole()
    ensures var after := Scanned(DIR4, {2}, ONE, 0);
      && !OldestOnly(DIR4, ONE, 0, 3) && Joined(DIR4, 3) == ["a\n", "b\n", "c\n", "d\n"] && Joined(after, 3) == ["a\n", "c\n", "d\n"]
      && !Suffix(Joined(after, 3), Joined(DIR4, 3))
  {
    hide AfterEmit;
    FourFiles();
    var slots, after := DIR4, Scanned(DIR4, {2}, ONE, 0);
    assert after == map[0 := LogFile(["d\n"], 0), 1 := LogFile(["c\n"], 0), 3 := LogFile(["a\n"], 0)];
    assert Joined(slots, 0) == ["d\n"] && Joined(slots, 1) == ["c\n", "d\n"] && Joined(slots, 2) == ["b\n", "c\n", "d\n"];
    assert Joined(after, 0) == ["d\n"] && Joined(after, 1) == ["c\n", "d\n"];
    assert Joined(after, 2) == LinesAt(after, 2) + Joined(after, 1) && LinesAt(after, 2) == [];
    assert LinesAt(slots, 2) != [] && LinesAt(slots, 3) != [] && Removed(2, slots[2], ONE, 0);
  }

  /** One rename: everything that the writer relies on goes along. */
  lemma {:induction false} MoveStep(slots: Slots, from: nat, c: SinkConfig, now: nat, sound: nat, emitted: seq<string>)
    requires from in slots && from <= c.maxArchives && UpTo(slots, c.maxArchives + 1) && (from < c.maxArchives ==> from + 1 !in slots)
    requires Retains(Head(slots, sound), c.maxArchives + 1, emitted) && Ordered(slots, now) && 1 <= sound
    ensures var e, next := Moved(slots, from), Raised(sound, from);
      && e == (slots - {from})[from + 1 := slots[from]] && 1 <= next
      && (from > 0 && 0 in slots ==> 0 in e && e[0] == slots[0])
      && Retains(Head(e, next), c.maxArchives + 1, emitted) && Ordered(e, now) && UpTo(e, c.maxArchives + 1)
      && (GivenUp(slots, sound, c, now) ==> GivenUp(e, next, c, now))
      && (Below(slots, sound) ==> Below(e, next)) && (AllFit(slots, c) ==> AllFit(e, c))
  {
    hide Retains, Ordered, Head, GivenUp, Below, AllFit;
    RetainMoveHead(slots, from, c.maxArchives, sound, emitted);
    OrderMove(slots, from, c.maxArchives, now);
    HeadMoved(slots, from, sound);
    if GivenUp(slots, sound, c, now) {
      GivenUpMove(slots, from, c, now, sound);
    }
    if AllFit(slots, c) {
      MovedFit(slots, from, c);
    }
  }

  lemma {:induction false} FreshStep(slots: Slots, c: SinkConfig, now: nat, sound: nat, emitted: seq<string>)
    requires 0 !in slots && 1 <= sound && Retains(Head(slots, sound), c.maxArchives + 1, emitted) && Ordered(slots, now)
    ensures var e := slots[0 := LogFile([], now)];
      && Retains(Head(e, sound), c.maxArchives + 1, emitted) && Ordered(e, now)
      && (GivenUp(slots, sound, c, now) ==> GivenUp(e, sound, c, now))
      && (Below(slots, sound) ==> Below(e, sound)) && (AllFit(slots, c) ==> AllFit(e, c))
  {
    hide Retains, Head;
    RetainFresh(slots, now, c.maxArchives + 1, sound, emitted);
    OrderFresh(slots, now);
  }

  lemma {:induction false} PartFacts(before: Slots, after: Slots, c: SinkConfig, now: nat)
    requires PartlyPruned(before, after, c, now) && 0 in before
    ensures 0 in after && after[0] == before[0]
    ensures forall n :: UpTo(before, n) ==> UpTo(after, n)
    ensures Ordered(before, now) ==> Ordered(after, now)
  {
  }

  lemma {:induction false} PartFit(before: Slots, after: Slots, c: SinkConfig, now: nat)
    requires PartlyPruned(before, after, c, now) && AllFit(before, c)
    ensures AllFit(after, c)
  {
    hide FitsCap;
  }

  lemma {:induction false} PrunedBelow(slots: Slots, c: SinkConfig, now: nat, sound: nat)
    ensures Below(slots, sound) ==> Below(Pruned(slots, c, now), sound)
    ensures GivenUp(slots, sound, c, now) ==> Below(Pruned(slots, c, now), sound) && GivenUp(Pruned(slots, c, now), sound, c, now)
  {
  }

  lemma {:induction false} AppendStays(slots: Slots, line: string, c: SinkConfig, now: nat, sound: nat)
    requires 0 in slots && 1 <= sound
    ensures var e := slots[0 := LogFile(slots[0].lines + [line], now)];
      && (GivenUp(slots, sound, c, now) ==> GivenUp(e, sound, c, now)) && (Below(slots, sound) ==> Below(e, sound))
      && forall n :: UpTo(slots, n) ==> UpTo(e, n)
  {
  }

  lemma {:induction false} MovedFit(slots: Slots, from: nat, c: SinkConfig)
    requires from in slots && AllFit(slots, c)
    ensures AllFit(Moved(slots, from), c)
  {
    hide FitsCap;
  }

  lemma {:induction false} LiveStays(slots: Slots, c: SinkConfig, now: nat)
    ensures 0 in slots ==> !Removed(0, slots[0], c, now)
  {
  }

  /** Putting the live file back: archive 1 was free, or it was the topmost archive and is gone. */
  lemma {:induction false} RollBack(slots: Slots, c: SinkConfig, emitted: seq<string>, now: nat, sound: nat)
    requires 0 in slots && Retains(Head(slots, sound), c.maxArchives + 1, emitted) && Ordered(slots, now) && UpTo(slots, c.maxArchives + 1)
    requires 0 < c.maxArchives ==> 1 !in slots
    requires 1 <= sound
    ensures var e := slots - {1};
      && Retains(Head(e, sound), c.maxArchives + 1, emitted) && Ordered(e, now) && UpTo(e, c.maxArchives + 1)
      && (GivenUp(slots, sound, c, now) ==> GivenUp(e, sound, c, now)) && (Below(slots, sound) ==> Below(e, sound))
      && (AllFit(slots, c) ==> AllFit(e, c))
  {
    if 0 < c.maxArchives {
      assert slots - {1} == slots;
    } else {
      hide FitsCap, Removed, Retains;
      RetainTop(slots, sound, emitted);
    }
  }

  lemma {:induction false} RetainTop(slots: Slots, sound: nat, emitted: seq<string>)
    requires 1 <= sound && Retains(Head(slots, sound), 1, emitted)
    ensures Retains(Head(slots - {1}, sound), 1, emitted)
  {
    var d, e := Head(slots, sound), Head(slots - {1}, sound);
    SameBelow(d, e, 0);
    assert Joined(e, 1) == [] + Joined(e, 0);
    SuffixOfSum(Joined(e, 0), Joined(d, 0), LinesAt(d, 1));
    SuffixTrans(Joined(e, 1), Joined(d, 1), emitted);
  }

  lemma {:induction false} AppendFit(slots: Slots, line: string, c: SinkConfig, now: nat)
    requires 0 in slots && AllFit(slots, c) && line != ""
    requires Size(slots[0].lines) > 0 ==> Size(slots[0].lines) + |line| <= c.maxFileBytes
    ensures AllFit(slots[0 := LogFile(slots[0].lines + [line], now)], c)
  {
    var lines := slots[0].lines;
    assert FitsCap(slots[0], c);
    SizeAppend(lines, line);
    if lines != [] {
      SizePositive(lines);
    }
  }

  lemma {:induction false} NothingJoined(n: nat)
    ensures Joined(map[], n) == []
  {
    if n > 0 {
      NothingJoined(n - 1);
    }
  }

  lemma {:induction false} LaterClock(slots: Slots, a: nat, b: nat)
    requires Ordered(slots, a) && a <= b
    ensures Ordered(slots, b)
  {
  }

  lemma {:induction false} PrunedBound(slots: Slots, c: SinkConfig, now: nat)
    ensures UpTo(Pruned(slots, c, now), c.maxArchives)
    ensures 0 in slots ==> 0 in Pruned(slots, c, now) && Pruned(slots, c, now)[0] == slots[0]
  {
  }

  lemma {:induction false} NarrowHead(slots: Slots, n: nat, m: nat, sound: nat, emitted: seq<string>)
    requires UpTo(slots, n) && n <= m && Retains(Head(slots, sound), m, emitted)
    ensures Retains(Head(slots, sound), n, emitted)
  {
    JoinedBeyond(Head(slots, sound), n, m);
  }

  lemma {:induction false} WidenHead(slots: Slots, n: nat, m: nat, sound: nat, emitted: seq<string>)
    requires UpTo(slots, n) && n <= m && Retains(Head(slots, sound), n, emitted)
    ensures Retains(Head(slots, sound), m, emitted)
  {
    JoinedBeyond(Head(slots, sound), n, m);
  }

  lemma {:induction false} ShiftStart(slots: Slots, cap: nat)
    requires UpTo(slots, cap + 1)
    ensures ShiftedAbove(slots, slots, cap, cap)
  {
  }

  lemma {:induction false} ShiftFree(old0: Slots, slots: Slots, cap: nat, i: nat)
    requires ShiftedAbove(old0, slots, cap, i)
    ensures UpTo(slots, cap + 1) && i <= cap && (i < cap ==> i + 1 !in slots)
    ensures i in slots <==> i in old0
  {
  }

  lemma {:induction false} OrderFresh(slots: Slots, now: nat)
    requires Ordered(slots, now)
    ensures Ordered(slots[0 := LogFile([], now)], now)
  {
  }

  lemma {:induction false} AppendOrder(slots: Slots, line: string, now: nat)
    requires 0 in slots && Ordered(slots, now)
    ensures Ordered(slots[0 := LogFile(slots[0].lines + [line], now)], now)
  {
  }
}
