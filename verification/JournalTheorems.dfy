/** What holds over every run of the operation journal. */
module JournalTheorems {
  import opened Types
  import opened Uuids
  import opened JournalRecords
  import opened JournalOps
  import opened JournalInvariant
  import opened JournalPreservation
  import Tables
  import SubidText

  // ---------- Undo is claimed once and settled once ----------

  ghost predicate Claims(j: Journal, ev: Event, id: Uuid) {
    ev.EvClaim? &&
    var r := ClaimUndo(j, ev.c, ev.d, ev.claim, ev.fits, ev.drawn).result;
    r.Ok? && r.value.id == id
  }

  ghost predicate Settles(j: Journal, ev: Event, id: Uuid) {
    ev.EvFinishUndo? &&
    var r := FinishUndo(j, ev.record, ev.success, ev.at, ev.fits).result;
    r.Ok? && r.value.id == id
  }

  ghost function ClaimCount(j: Journal, run: seq<Event>, id: Uuid): nat
    decreases |run|
  {
    if run == [] then 0
    else (if Claims(j, run[0], id) then 1 else 0) + ClaimCount(After(j, run[0]), run[1..], id)
  }

  ghost function SettleCount(j: Journal, run: seq<Event>, id: Uuid): nat
    decreases |run|
  {
    if run == [] then 0
    else (if Settles(j, run[0], id) then 1 else 0) + SettleCount(After(j, run[0]), run[1..], id)
  }

  /** No record of this operation is left that could still be claimed. */
  predicate Spent(j: Journal, id: Uuid) {
    id in j.used && forall k :: k in j.records && k.id == id ==> j.records[k].undo.Some?
  }

  predicate Closed(j: Journal, id: Uuid) {
    Spent(j, id) && forall k :: k in j.records && k.id == id ==> j.records[k].undo != Some(Pending)
  }

  predicate NoneUnderway(j: Journal, id: Uuid) {
    forall k :: k in j.records && k.id == id ==> j.records[k].undo != Some(Pending)
  }

  lemma {:induction false} SpentStays(j: Journal, e: Journal, id: Uuid)
    requires Later(j, e)
    ensures Spent(j, id) ==> Spent(e, id)
    ensures Closed(j, id) ==> Closed(e, id)
  {
    hide SameOperation, RangeLater, TokensLater, EpochLater;
  }

  lemma {:induction false} ClaimSpends(j: Journal, ev: Event, id: Uuid)
    requires Inv(j) && Admissible(j, ev) && Claims(j, ev, id)
    ensures !Spent(j, id) && Spent(After(j, ev), id)
  {
    hide RecordOk, StagingOk, TrashOk, TokensMatch, EpochOk, ClaimCheck, ExpiresAt;
    RowIds(j);
    var k := Named(j, ClaimCheck(ev.c, ev.d, ev.claim).value, ev.claim.operation).value;
    assert k.id == id && j.records[k].undo.None?;
  }

  lemma {:induction false} RowIds(j: Journal)
    requires Inv(j)
    ensures forall k :: k in j.records ==> k.id in j.used && KeyOf(j.records[k]) == k
  {
    hide StagingShape, TrashPath, TokensMatch;
  }

  lemma {:induction false} SettleCloses(j: Journal, ev: Event, id: Uuid)
    requires Inv(j) && Settles(j, ev, id)
    ensures !Closed(j, id) && !NoneUnderway(j, id) && Closed(After(j, ev), id)
  {
    hide RecordOk, StagingOk, TrashOk, TokensMatch, EpochOk;
    RowIds(j);
    assert j.records[KeyOf(ev.record)].undo == Some(Pending);
  }

  /** Only a claim starts an undo. */
  lemma {:induction false} OnlyClaimsStart(j: Journal, ev: Event, id: Uuid)
    requires Inv(j) && Admissible(j, ev) && NoneUnderway(j, id) && !Claims(j, ev, id)
    ensures NoneUnderway(After(j, ev), id)
  {
    hide Inv, Begin, Finish, ClaimUndo;
    match ev {
      case EvBegin(c, d, start, draw) => BeginStartsNone(j, c, d, start, draw, id);
      case EvFinish(record, reply, at, fits) => FinishStartsNone(j, record, reply, at, fits, id);
      case EvClaim(c, d, claim, fits, drawn) => OtherClaim(j, ev, id);
      case _ =>
    }
  }

  lemma {:induction false} BeginStartsNone(j: Journal, c: Config, d: Tables.Db, s: Start, w: Draw, id: Uuid)
    requires Inv(j) && NoneUnderway(j, id)
    ensures NoneUnderway(Begin(j, c, d, s, w).journal, id)
  {
    hide Inv, Begin;
    forall k | k in Begin(j, c, d, s, w).journal.records && k.id == id
      ensures Begin(j, c, d, s, w).journal.records[k].undo != Some(Pending)
    {
      BeginRow(j, c, d, s, w, k);
    }
  }

  /** A row after begin_operation is an old row, at most taken up again, or the new record. */
  lemma {:induction false} BeginRow(j: Journal, c: Config, d: Tables.Db, s: Start, w: Draw, k: Key)
    requires k in Begin(j, c, d, s, w).journal.records
    ensures var r := Begin(j, c, d, s, w).journal.records[k];
            || (k in j.records && r == j.records[k].(status := r.status, updated := r.updated))
            || (k.id == w.id && k.account == s.account && r.id == w.id && r.undo.None?)
  {
    hide BeginCheck, Insert, Resumable;
    if Begin(j, c, d, s, w) == Insert(j, c, s, w) {
      InsertRowOrOld(j, c, s, w, k);
    }
  }

  lemma {:induction false} InsertRowOrOld(j: Journal, c: Config, s: Start, w: Draw, k: Key)
    requires k in Insert(j, c, s, w).journal.records
    ensures var r := Insert(j, c, s, w).journal.records[k];
            || (k in j.records && r == j.records[k])
            || (k.id == w.id && k.account == s.account && r.id == w.id && r.undo.None?)
  {
    hide Full, AddToken, Oldest, Cutoff, StagingPath, TargetPath, ActionOf;
    if Insert(j, c, s, w).result.Ok? {
      var base := WithEpoch(j, w.epoch);
      var r := NewRecord(s.request, s.account, s.generation, s.at, w.id, EpochOf(j, w.epoch));
      var room := Room(j.records, s.account, c, s.at, w.drop).value;
      TokenLeavesRows(base.(records := room[KeyOf(r) := r], used := base.used + {w.id}), r, c);
    }
  }

  lemma {:induction false} TokenLeavesRows(j: Journal, r: Record, c: Config)
    requires AddToken(j, r, c).Ok?
    ensures AddToken(j, r, c).value.records == j.records
  {
    hide TokensFull;
  }

  lemma {:induction false} FinishStartsNone(j: Journal, record: Record, reply: Option<Reply>, at: nat, fits: bool, id: Uuid)
    requires Inv(j) && NoneUnderway(j, id)
    ensures NoneUnderway(Finish(j, record, reply, at, fits).journal, id)
  {
    hide Text, TrashPath, RecordOk, StagingOk, TrashOk, TokensMatch, Refresh, TrashAfter, Delivered;
  }

  lemma {:induction false} OtherClaim(j: Journal, ev: Event, id: Uuid)
    requires Inv(j) && NoneUnderway(j, id) && ev.EvClaim? && !Claims(j, ev, id)
    ensures NoneUnderway(After(j, ev), id)
  {
    hide RecordOk, StagingOk, TrashOk, TokensMatch, EpochOk, ClaimCheck, Unavailable;
    RowIds(j);
  }

  lemma {:induction false} NoneAfter(j: Journal, run: seq<Event>, id: Uuid)
    requires Inv(j) && AdmissibleRun(j, run)
    ensures Spent(j, id) ==> ClaimCount(j, run, id) == 0
    ensures Closed(j, id) ==> SettleCount(j, run, id) == 0
    decreases |run|
  {
    hide Inv, Later, After, Admissible, Claims, Settles, Spent, Closed;
    if run != [] {
      var e := After(j, run[0]);
      StepKeeps(j, run[0]);
      SpentStays(j, e, id);
      NoneAfter(e, run[1..], id);
      if Claims(j, run[0], id) {
        ClaimSpends(j, run[0], id);
      }
      if Settles(j, run[0], id) {
        SettleCloses(j, run[0], id);
      }
    }
  }

  /** Over any run an operation is claimed for undo at most once, and that undo is settled at most once. */
  lemma {:induction false} UndoOnce(j: Journal, run: seq<Event>, id: Uuid)
    requires Inv(j) && AdmissibleRun(j, run)
    ensures ClaimCount(j, run, id) <= 1 && SettleCount(j, run, id) <= 1
    ensures NoneUnderway(j, id) ==> SettleCount(j, run, id) <= ClaimCount(j, run, id)
    decreases |run|
  {
    hide Inv, Later, After, Admissible, Claims, Settles, Spent, Closed, NoneUnderway;
    if run != [] {
      var e := After(j, run[0]);
      StepKeeps(j, run[0]);
      UndoOnce(e, run[1..], id);
      NoneAfter(e, run[1..], id);
      if Claims(j, run[0], id) {
        ClaimSpends(j, run[0], id);
      } else if NoneUnderway(j, id) {
        OnlyClaimsStart(j, run[0], id);
      }
      if Settles(j, run[0], id) {
        SettleCloses(j, run[0], id);
      }
    }
  }

  // ---------- The restore fence ----------

  /** The operation belongs to an epoch that has been replaced. */
  predicate Fenced(j: Journal, id: Uuid) {
    && id in j.used
    && forall k :: k in j.records && k.id == id ==>
         j.records[k].epoch.Some? && j.records[k].epoch.value in j.used && j.epoch.Some? && j.records[k].epoch != j.epoch
  }

  lemma {:induction false} FencedStays(j: Journal, e: Journal, id: Uuid)
    requires Later(j, e) && Fenced(j, id)
    ensures Fenced(e, id)
  {
    hide RangeLater, TokensLater, UndoLater;
  }

  lemma {:induction false} FencedNotClaimed(j: Journal, ev: Event, id: Uuid)
    requires Inv(j) && Fenced(j, id)
    ensures !Claims(j, ev, id)
  {
    hide RecordOk, StagingOk, TrashOk, TokensMatch, EpochOk, ClaimCheck, ExpiresAt;
    RowIds(j);
  }

  lemma {:induction false} RestoreFences(j: Journal, drawn: Uuid, k: Key)
    requires Inv(j) && drawn !in j.used && k in j.records
    ensures Fenced(Restore(j, Tables.Root, drawn), k.id)
  {
    hide StagingShape, TrashPath, TokensMatch;
  }

  /** No operation written down before a restore is claimed by any run after it. */
  lemma {:induction false} NoClaimAcrossRestore(j: Journal, drawn: Uuid, k: Key, run: seq<Event>)
    requires Inv(j) && drawn !in j.used && k in j.records
    requires AdmissibleRun(Restore(j, Tables.Root, drawn), run)
    ensures ClaimCount(Restore(j, Tables.Root, drawn), run, k.id) == 0
  {
    hide Inv, Keeps, Fenced;
    NewEpoch(j, drawn);
    RestoreFences(j, drawn, k);
    assert Inv(Restore(j, Tables.Root, drawn)) by {
      KeepsInv(j, Restore(j, Tables.Root, drawn));
    }
    FencedRun(Restore(j, Tables.Root, drawn), run, k.id);
  }

  lemma {:induction false} FencedRun(j: Journal, run: seq<Event>, id: Uuid)
    requires Inv(j) && AdmissibleRun(j, run) && Fenced(j, id)
    ensures ClaimCount(j, run, id) == 0
    decreases |run|
  {
    hide Inv, Later, After, Admissible, Claims, Fenced;
    if run != [] {
      StepKeeps(j, run[0]);
      FencedNotClaimed(j, run[0], id);
      FencedStays(j, After(j, run[0]), id);
      FencedRun(After(j, run[0]), run[1..], id);
    }
  }
}
