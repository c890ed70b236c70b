/** Each journal event keeps the invariant and moves every surviving row forward only. */
module JournalPreservation {
  import opened Types
  import opened Uuids
  import opened JournalRecords
  import opened JournalOps
  import opened JournalInvariant
  import Tables
  import SubidText

  // ---------- begin_operation ----------

  /** Begin writes the very path that stage_target accepts for this record, with its destination. */
  lemma {:induction false} StagedPathAccepted(q: Request, account: Id, generation: nat, at: nat, id: Uuid, epoch: Uuid)
    requires StagingPath(q, id).Some?
    ensures var r := NewRecord(q, account, generation, at, id, epoch);
            StagingShape(r) && StageTarget(r) == Ok((StagingPath(q, id).value, Destination(q).value))
  {
    hide Text, Parent;
    var stem := StagingStem(Destination(q).value, id);
    assert stem + "" == stem;
  }

  lemma {:induction false} TrashPathAccepted(r: Record)
    requires r.target == Some(TrashPath(r.id))
    ensures TrashTarget(r) == Ok(TrashPath(r.id))
  {
    hide Text, Parse;
    ParseText(r.id);
    assert TrashPath(r.id)[|TRASH_PREFIX|..] == Text(r.id);
  }

  lemma {:induction false} NewRecordOk(q: Request, account: Id, generation: nat, at: nat, id: Uuid, epoch: Uuid, used: set<Uuid>)
    requires id in used && epoch in used
    requires q.command.ReadFileRange? ==> q.offset.Some?
    ensures RecordOk(used, NewRecord(q, account, generation, at, id, epoch))
  {
    hide StageTarget, Text, Parent, StagingStem, TrashPath;
    if StagingPath(q, id).Some? {
      StagedPathAccepted(q, account, generation, at, id, epoch);
    }
  }

  lemma {:induction false} RecordsInsert(used: set<Uuid>, records: map<Key, Record>, r: Record)
    requires RecordsOk(used, records) && r.id !in used && RecordOk(used + {r.id}, r)
    requires forall k :: k in records ==> RecordOk(used + {r.id}, records[k])
    ensures RecordsOk(used + {r.id}, records[KeyOf(r) := r])
    ensures RecordsLater(used, records, records[KeyOf(r) := r])
  {
    hide StagingShape, TrashPath;
  }

  lemma {:induction false} MatchInsert(used: set<Uuid>, records: map<Key, Record>, tokens: map<Token, Record>, r: Record)
    requires TokensMatch(records, tokens) && r.id !in used
    requires forall t :: t in tokens ==> t.id in used
    requires forall k :: k in records ==> k.id in used
    ensures TokensMatch(records[KeyOf(r) := r], tokens)
    ensures TokensMatch(records[KeyOf(r) := r], tokens[TokenOf(r) := r])
  {
  }

  lemma {:induction false} TokenIds(j: Journal)
    requires Inv(j)
    ensures forall t :: t in j.staging ==> t.id in j.used
    ensures forall t :: t in j.trash ==> t.id in j.used
    ensures forall k :: k in j.records ==> k.id in j.used
  {
    hide StagingShape, TrashPath, TokensMatch;
  }

  lemma {:induction false} UsedMonotone(used: set<Uuid>, more: set<Uuid>, records: map<Key, Record>)
    requires used <= more
    requires forall k :: k in records ==> RecordOk(used, records[k])
    ensures forall k :: k in records ==> RecordOk(more, records[k])
  {
    hide StagingShape, TrashPath;
  }

  /** A new row with a new id, and no token. */
  lemma {:induction false} InsertRow(j: Journal, r: Record)
    requires Inv(j) && j.epoch.Some? && r.id !in j.used && RecordOk(j.used + {r.id}, r)
    ensures Keeps(j, j.(records := j.records[KeyOf(r) := r], used := j.used + {r.id}))
  {
    hide RecordOk, TokensMatch, StagingOk, TrashOk, TokensLater, RecordsLater, StagingShape;
    Still(j);
    TokenIds(j);
    MoreUsed(j, j.used + {r.id});
    UsedMonotone(j.used, j.used + {r.id}, j.records);
    RecordsInsert(j.used, j.records, r);
    MatchInsert(j.used, j.records, j.staging, r);
    MatchInsert(j.used, j.records, j.trash, r);
  }

  /** A token for a row that was written in the same transaction. */
  lemma {:induction false} InsertStaging(j: Journal, e: Journal, r: Record)
    requires Inv(j) && Keeps(j, e) && r.id !in j.used
    requires KeyOf(r) in e.records && e.records[KeyOf(r)] == r && RecordOk(e.used, r) && r.staging.Some? && r.status.Pending?
    ensures Keeps(j, e.(staging := e.staging[TokenOf(r) := r]))
  {
    hide RecordOk, RecordsLater, UndoLater, RangeLater, TrashOk;
    TokenIds(j);
    assert TokensMatch(e.records, e.staging[TokenOf(r) := r]);
  }

  lemma {:induction false} InsertTrash(j: Journal, e: Journal, r: Record)
    requires Inv(j) && Keeps(j, e) && r.id !in j.used
    requires KeyOf(r) in e.records && e.records[KeyOf(r)] == r && RecordOk(e.used, r) && r.action.TrashAction? && r.status.Pending?
    ensures Keeps(j, e.(trash := e.trash[TokenOf(r) := r]))
  {
    hide RecordOk, RecordsLater, UndoLater, RangeLater, StagingOk;
    TokenIds(j);
    assert TokensMatch(e.records, e.trash[TokenOf(r) := r]);
  }

  lemma {:induction false} AddTokenKeeps(j: Journal, e: Journal, r: Record, c: Config)
    requires Inv(j) && Keeps(j, e) && r.id !in j.used
    requires KeyOf(r) in e.records && e.records[KeyOf(r)] == r && RecordOk(e.used, r) && r.status.Pending?
    ensures AddToken(e, r, c).Ok? ==> Keeps(j, AddToken(e, r, c).value)
  {
    hide RecordOk, Keeps, Inv, TokensFull;
    if AddToken(e, r, c).Ok? {
      if r.action.TrashAction? {
        InsertTrash(j, e, r);
      } else if r.staging.Some? {
        InsertStaging(j, e, r);
      }
    }
  }

  lemma {:induction false} InsertKeeps(j: Journal, c: Config, s: Start, w: Draw)
    requires Inv(j) && w.id !in j.used && w.epoch !in j.used && w.id != w.epoch
    requires s.request.command.ReadFileRange? ==> s.request.offset.Some?
    ensures Keeps(j, Insert(j, c, s, w).journal)
  {
    hide Inv, Keeps, RecordOk, AddToken, NewRecord, Full, Oldest, Cutoff;
    EpochKeeps(j, w.epoch);
    var base := WithEpoch(j, w.epoch);
    if Insert(j, c, s, w).result.Ok? {
      var r := NewRecord(s.request, s.account, s.generation, s.at, w.id, EpochOf(j, w.epoch));
      var room := Room(j.records, s.account, c, s.at, w.drop).value;
      InsertedRow(j, s, w, room);
      AddTokenKeeps(j, base.(records := room[KeyOf(r) := r], used := base.used + {w.id}), r, c);
    }
  }

  lemma {:induction false} InsertedRow(j: Journal, s: Start, w: Draw, room: map<Key, Record>)
    requires Inv(j) && w.id !in j.used && w.epoch !in j.used && w.id != w.epoch
    requires s.request.command.ReadFileRange? ==> s.request.offset.Some?
    requires forall k :: k in room ==> k in j.records && room[k] == j.records[k]
    ensures var base := WithEpoch(j, w.epoch);
            var r := NewRecord(s.request, s.account, s.generation, s.at, w.id, EpochOf(j, w.epoch));
            && r.id == w.id && r.status.Pending? && RecordOk(base.used + {w.id}, r)
            && Keeps(j, base.(records := room[KeyOf(r) := r], used := base.used + {w.id}))
  {
    hide RecordOk, RecordsOk, TokensMatch, StagingOk, TrashOk, RecordsLater, TokensLater;
    var base := WithEpoch(j, w.epoch);
    var r := NewRecord(s.request, s.account, s.generation, s.at, w.id, EpochOf(j, w.epoch));
    EpochKeeps(j, w.epoch);
    ShrinkKeeps(base, base.(records := room));
    KeepsTrans(j, base, base.(records := room));
    NewRecordOk(s.request, s.account, s.generation, s.at, w.id, EpochOf(j, w.epoch), base.used + {w.id});
    InsertRow(base.(records := room), r);
    KeepsTrans(j, base.(records := room), base.(records := room[KeyOf(r) := r], used := base.used + {w.id}));
  }

  lemma {:induction false} ResumeKeeps(j: Journal, k: Key, s: Start, fits: bool)
    requires Inv(j) && k in j.records
    ensures Keeps(j, Resume(j, k, s, fits).journal)
  {
    hide Keeps, StageTarget, TokensMatch, TrashPath;
    Idle(j);
    if Resume(j, k, s, fits).result.Ok? {
      PutKeeps(j, k, j.records[k].(status := Pending, updated := s.at));
    }
  }

  lemma {:induction false} BeginKeeps(j: Journal, c: Config, d: Tables.Db, s: Start, w: Draw)
    requires Inv(j) && w.id !in j.used && w.epoch !in j.used && w.id != w.epoch
    ensures Keeps(j, Begin(j, c, d, s, w).journal)
  {
    hide Inv, Keeps, Insert, Resume, SubidText.Bytes, Tables.Authorized;
    Idle(j);
    if BeginCheck(c, d, s).Ok? {
      var latest := Latest(j.records, s.account, s.request.id);
      if s.request.command.ReadFileRange? && latest.Some? {
        ResumeKeeps(j, latest.value, s, w.fits);
      } else {
        InsertKeeps(j, c, s, w);
      }
    }
  }

  // ---------- finish_operation ----------

  /** The temporary path depends only on what begin_operation fixed. */
  lemma {:induction false} ShapeStays(r: Record, s: Record)
    requires SameOperation(r, s) && StagingShape(r)
    ensures StagingShape(s)
  {
    hide StagingStem;
  }

  lemma {:induction false} SettleLater(r: Record, reply: Option<Reply>, at: nat)
    requires r.action.TrashAction? ==> r.target == Some(TrashPath(r.id))
    requires Settle(r, reply, at).Ok?
    ensures RecordLater(r, Settle(r, reply, at).value) && !Settle(r, reply, at).value.status.Pending?
    ensures Settle(r, reply, at).value.undo == r.undo
    ensures r.next.Some? && r.bytesRead <= r.next.value ==>
      Settle(r, reply, at).value.bytesRead <= Settle(r, reply, at).value.next.value
  {
    hide TrashPath, Text;
  }

  lemma {:induction false} SettleOk(used: set<Uuid>, r: Record, reply: Option<Reply>, at: nat)
    requires RecordOk(used, r) && r.status.Pending? && Settle(r, reply, at).Ok?
    ensures var s := Settle(r, reply, at).value; RecordOk(used, s) && RecordLater(r, s) && !s.status.Pending?
  {
    hide TrashPath, StagingShape, Settle;
    SettleLater(r, reply, at);
    ShapeStays(r, Settle(r, reply, at).value);
  }

  lemma {:induction false} StagingAfterKeeps(j: Journal, r: Record)
    requires Inv(j) && KeyOf(r) in j.records && j.records[KeyOf(r)] == r && r.staging.Some?
    ensures Keeps(j, j.(staging := Refresh(j.staging, r, r.status.Success?)))
  {
    hide Keeps, RecordOk, StagingOk, TrashOk;
    if r.status.Success? {
      ShrinkKeeps(j, j.(staging := j.staging - {TokenOf(r)}));
    } else if TokenOf(r) in j.staging {
      StagingKeeps(j, r);
    } else {
      Idle(j);
    }
  }

  lemma {:induction false} TrashAfterKeeps(j: Journal, r: Record, source: string)
    requires Inv(j) && KeyOf(r) in j.records && j.records[KeyOf(r)] == r
    ensures Keeps(j, j.(trash := TrashAfter(j.trash, r, source)))
  {
    hide Keeps, RecordOk, StagingOk, TrashOk, NamedTrash;
    if r.action.TrashAction? && !r.status.Failed? && TokenOf(r) in j.trash {
      TrashKeeps(j, r);
    } else {
      ShrinkKeeps(j, j.(trash := TrashAfter(j.trash, r, source)));
    }
  }

  lemma {:induction false} FinishKeeps(j: Journal, record: Record, reply: Option<Reply>, at: nat, fits: bool)
    requires Inv(j)
    ensures Keeps(j, Finish(j, record, reply, at, fits).journal)
  {
    hide RecordOk, StagingOk, TrashOk, Later, TrashAfter, Refresh, Settle, RecordLater, TokensMatch, EpochOk;
    Idle(j);
    if Finish(j, record, reply, at, fits).result.Ok? {
      var k := KeyOf(record);
      SettleOk(j.used, j.records[k], reply, at);
      var r := Settle(j.records[k], reply, at).value;
      assert KeyOf(r) == k by {
        SettledKey(j.records[k], r);
      }
      var a := j.(records := j.records[k := r]);
      PutKeeps(j, k, r);
      var b := a.(trash := TrashAfter(a.trash, r, record.source));
      TrashAfterKeeps(a, r, record.source);
      KeepsTrans(j, a, b);
      if r.staging.Some? {
        StagingAfterKeeps(b, r);
        KeepsTrans(j, b, b.(staging := Refresh(b.staging, r, r.status.Success?)));
      }
    }
  }

  lemma {:induction false} SettledKey(r: Record, s: Record)
    requires RecordLater(r, s)
    ensures KeyOf(r) == KeyOf(s) && TokenOf(r) == TokenOf(s)
  {
  }

  // ---------- Expiry, undo and cleanup ----------

  lemma {:induction false} ExpireKeeps(j: Journal, c: Config, k: Key, at: nat)
    requires Inv(j)
    ensures Keeps(j, Expire(j, c, k, at).journal)
  {
    hide Inv, Keeps, ConfigOk;
    Idle(j);
    ShrinkKeeps(j, j.(records := j.records - {k}));
  }

  lemma {:induction false} ClaimedOk(used: set<Uuid>, r: Record, hours: nat, epoch: Uuid, at: nat)
    requires RecordOk(used, r) && Unavailable(r, hours, epoch, at).None?
    ensures RecordOk(used, r.(undo := Some(Pending))) && RecordLater(r, r.(undo := Some(Pending)))
  {
    hide StageTarget, TrashPath, ExpiresAt;
  }

  lemma {:induction false} ClaimKeeps(j: Journal, c: Config, d: Tables.Db, q: Claim, fits: bool, drawn: Uuid)
    requires Inv(j) && drawn !in j.used
    ensures Keeps(j, ClaimUndo(j, c, d, q, fits, drawn).journal)
  {
    hide Later, RecordOk, RecordLater, StagingOk, TrashOk, TokensMatch, EpochOk, ClaimCheck, Unavailable;
    Idle(j);
    if ClaimUndo(j, c, d, q, fits, drawn).result.Ok? {
      var actor := ClaimCheck(c, d, q).value;
      var k := Named(j, actor, q.operation).value;
      var hours := if actor in d.accounts then d.accounts[actor].undoHours else None;
      ClaimedOk(j.used, j.records[k], EffectiveHours(hours, c), EpochOf(j, drawn), q.at);
      var claimed := j.records[k].(undo := Some(Pending));
      var a := j.(records := j.records[k := claimed]);
      PutKeeps(j, k, claimed);
      EpochKeeps(a, drawn);
      KeepsTrans(j, a, WithEpoch(a, drawn));
      assert WithEpoch(a, drawn) == WithEpoch(j, drawn).(records := a.records);
    }
  }

  lemma {:induction false} SettledUndoOk(used: set<Uuid>, r: Record, outcome: Status, at: nat)
    requires RecordOk(used, r) && r.undo == Some(Pending)
    ensures var s := r.(undo := Some(outcome), updated := at); RecordOk(used, s) && RecordLater(r, s)
  {
    hide StageTarget, TrashPath;
  }

  lemma {:induction false} FinishUndoKeeps(j: Journal, record: Record, success: Option<bool>, at: nat, fits: bool)
    requires Inv(j)
    ensures Keeps(j, FinishUndo(j, record, success, at, fits).journal)
  {
    hide Later, RecordOk, RecordLater, StagingOk, TrashOk, TokensMatch, EpochOk;
    Idle(j);
    if FinishUndo(j, record, success, at, fits).result.Ok? {
      var k := KeyOf(record);
      var r := FinishUndo(j, record, success, at, fits).result.value;
      SettledUndoOk(j.used, j.records[k], r.undo.value, at);
      var a := j.(records := j.records[k := r]);
      PutKeeps(j, k, r);
      ShrinkKeeps(a, a.(trash := a.trash - {TokenOf(r)}));
      KeepsTrans(j, a, a.(trash := a.trash - {TokenOf(r)}));
    }
  }

  lemma {:induction false} ReviewOk(used: set<Uuid>, r: Record)
    requires RecordOk(used, r)
    ensures RecordOk(used, r.(trashReview := true)) && SameOperation(r, r.(trashReview := true))
    ensures RecordOk(used, r.(stagingReview := true)) && SameOperation(r, r.(stagingReview := true))
  {
    hide StagingShape, TrashPath;
    ShapeStays(r, r.(trashReview := true));
    ShapeStays(r, r.(stagingReview := true));
  }

  lemma {:induction false} CleanTrashKeeps(j: Journal, d: Tables.Db, l: Lifecycle, t: Token, at: nat, worker: bool, fits: bool)
    requires Inv(j)
    ensures Keeps(j, CleanTrash(j, d, l, t, at, worker, fits).journal)
  {
    hide Keeps, RecordOk, TrashSweep, RecordsOk, StagingOk, TokensMatch;
    Idle(j);
    ShrinkKeeps(j, j.(trash := j.trash - {t}));
    if t in j.trash {
      ReviewOk(j.used, j.trash[t]);
      TrashKeeps(j, j.trash[t].(trashReview := true));
    }
  }

  lemma {:induction false} CleanStagingKeeps(j: Journal, d: Tables.Db, t: Token, worker: bool, fits: bool)
    requires Inv(j)
    ensures Keeps(j, CleanStaging(j, d, t, worker, fits).journal)
  {
    hide Keeps, RecordOk, StagingSweep, RecordsOk, TrashOk, TokensMatch;
    Idle(j);
    ShrinkKeeps(j, j.(staging := j.staging - {t}));
    if t in j.staging {
      ReviewOk(j.used, j.staging[t]);
      StagingKeeps(j, j.staging[t].(stagingReview := true));
    }
  }

  // ---------- Every event, every run ----------

  lemma {:induction false} StepKeeps(j: Journal, ev: Event)
    requires Inv(j) && Admissible(j, ev)
    ensures Keeps(j, After(j, ev))
  {
    hide Inv, Keeps, Begin, Finish, Expire, ClaimUndo, FinishUndo, CleanTrash, CleanStaging, DropOk;
    match ev {
      case EvBegin(c, d, start, draw) => BeginKeeps(j, c, d, start, draw);
      case EvFinish(record, reply, at, fits) => FinishKeeps(j, record, reply, at, fits);
      case EvExpire(c, key, at) => ExpireKeeps(j, c, key, at);
      case EvClaim(c, d, claim, fits, drawn) => ClaimKeeps(j, c, d, claim, fits, drawn);
      case EvFinishUndo(record, success, at, fits) => FinishUndoKeeps(j, record, success, at, fits);
      case EvRestore(authority, drawn) => Idle(j); NewEpoch(j, drawn);
      case EvCleanTrash(d, l, token, at, worker, fits) => CleanTrashKeeps(j, d, l, token, at, worker, fits);
      case EvCleanStaging(d, token, worker, fits) => CleanStagingKeeps(j, d, token, worker, fits);
    }
  }

  lemma {:induction false} RunKeeps(j: Journal, run: seq<Event>)
    requires Inv(j) && AdmissibleRun(j, run)
    ensures Keeps(j, Final(j, run))
    decreases |run|
  {
    hide Inv, Later, After, Admissible;
    if run == [] {
      Idle(j);
    } else {
      StepKeeps(j, run[0]);
      RunKeeps(After(j, run[0]), run[1..]);
      KeepsTrans(j, After(j, run[0]), Final(j, run));
    }
  }
}
