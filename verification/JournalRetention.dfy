/** What rotation, expiry and cleanup may remove, how many rows remain, and what a range record counts. */
module JournalRetention {
  import opened Types
  import opened Uuids
  import opened JournalRecords
  import opened JournalOps
  import opened JournalInvariant
  import opened JournalPreservation
  import opened JournalTheorems
  import Tables

  // ---------- Which rows disappear ----------

  /** Expired by age, or the oldest finished row that no preference could still undo. */
  ghost predicate Removable(j: Journal, c: Config, s: Start, drop: set<Key>, k: Key) {
    && k in j.records && k.account == s.account
    && (j.records[k].created < Cutoff(s.at, c.retentionHours)
        || (Full(j.records - drop, s.account, c) && Evictable(j.records[k], s.account, Cutoff(s.at, c.undoMaxHours))
            && Oldest(j.records - drop, s.account, Cutoff(s.at, c.undoMaxHours)) == Some(k)))
  }

  /** begin_operation takes away only rows of the caller, and only removable ones. */
  lemma {:induction false} BeginRemoves(j: Journal, c: Config, d: Tables.Db, s: Start, w: Draw, k: Key)
    requires Inv(j) && DropOk(j, c, s, w.drop)
    requires k in j.records && k !in Begin(j, c, d, s, w).journal.records
    ensures ConfigOk(c) && Removable(j, c, s, w.drop, k)
  {
    hide Inv, Insert, Resumable, ConfigOk, Removable;
    var room := InsertRemoves(j, c, d, s, w, k);
    RoomRemoves(j, c, s, w.drop, k);
  }

  lemma {:induction false} InsertRemoves(j: Journal, c: Config, d: Tables.Db, s: Start, w: Draw, k: Key)
    returns (room: map<Key, Record>)
    requires k in j.records && k !in Begin(j, c, d, s, w).journal.records
    ensures ConfigOk(c) && Room(j.records, s.account, c, s.at, w.drop) == Ok(room) && k !in room
  {
    hide ConfigOk, Room, AddToken, NewRecord, Resumable;
    room := Room(j.records, s.account, c, s.at, w.drop).value;
    var base := WithEpoch(j, w.epoch);
    var r := NewRecord(s.request, s.account, s.generation, s.at, w.id, EpochOf(j, w.epoch));
    TokenLeavesRows(base.(records := room[KeyOf(r) := r], used := base.used + {w.id}), r, c);
  }

  lemma {:induction false} RoomRemoves(j: Journal, c: Config, s: Start, drop: set<Key>, k: Key)
    requires DropOk(j, c, s, drop) && k in j.records
    requires Room(j.records, s.account, c, s.at, drop).Ok? && k !in Room(j.records, s.account, c, s.at, drop).value
    ensures Removable(j, c, s, drop, k)
  {
    hide Full, Cutoff, Evictable;
    if k in drop {
      assert k in ExpiredKeys(j.records, s.account, Cutoff(s.at, c.retentionHours));
    }
  }

  lemma {:induction false} AgedOut(r: Record, hours: Option<nat>, c: Config, epoch: Uuid, at: nat)
    requires ConfigOk(c) && r.created < Cutoff(at, c.undoMaxHours)
    ensures !Undoable(r, hours, c, epoch, at)
  {
    var h := EffectiveHours(hours, c);
    assert h * 3600 <= c.undoMaxHours * 3600;
  }

  lemma {:induction false} RetentionOutlastsUndo(c: Config, at: nat)
    requires ConfigOk(c)
    ensures Cutoff(at, c.retentionHours) <= Cutoff(at, c.undoMaxHours)
  {
    assert c.undoMaxHours * 3600 <= c.retentionHours * 3600;
  }

  function TimeOf(ev: Event): nat
    requires ev.EvBegin? || ev.EvExpire?
  {
    if ev.EvBegin? then ev.start.at else ev.at
  }

  /**
    Whatever event removes a record, it is rotation or expiry, and at that moment no user preference
    would have allowed the operation to be undone.
   */
  lemma {:induction false} RemovedWasNotUndoable(j: Journal, ev: Event, k: Key, hours: Option<nat>, epoch: Uuid)
    requires Inv(j) && Admissible(j, ev) && k in j.records && k !in After(j, ev).records
    ensures (ev.EvBegin? || ev.EvExpire?) && !Undoable(j.records[k], hours, ev.c, epoch, TimeOf(ev))
  {
    hide Inv, ConfigOk, Begin, Finish, ClaimUndo, Undoable, FinishUndo, CleanTrash, CleanStaging, Cutoff, DropOk;
    assert ev.EvBegin? || ev.EvExpire? by {
      OnlyTwoRemove(j, ev, k);
    }
    RetentionGap(j, ev, k);
    if j.records[k].created < Cutoff(TimeOf(ev), ev.c.undoMaxHours) {
      AgedOut(j.records[k], hours, ev.c, epoch, TimeOf(ev));
    } else {
      Irreversible(j.records[k], hours, ev.c, epoch, TimeOf(ev));
    }
  }

  lemma {:induction false} Irreversible(r: Record, hours: Option<nat>, c: Config, epoch: Uuid, at: nat)
    requires !Reversible(r.action)
    ensures !Undoable(r, hours, c, epoch, at)
  {
  }

  lemma {:induction false} OnlyTwoRemove(j: Journal, ev: Event, k: Key)
    requires k in j.records && k !in After(j, ev).records
    ensures ev.EvBegin? || ev.EvExpire?
  {
    hide Begin, Settle, TrashAfter, Refresh, Undoable, TrashSweep, StagingSweep, ClaimCheck;
  }

  lemma {:induction false} RetentionGap(j: Journal, ev: Event, k: Key)
    requires Inv(j) && Admissible(j, ev) && (ev.EvBegin? || ev.EvExpire?)
    requires k in j.records && k !in After(j, ev).records
    ensures ConfigOk(ev.c)
    ensures j.records[k].created < Cutoff(TimeOf(ev), ev.c.undoMaxHours) || !Reversible(j.records[k].action)
  {
    hide Inv, ConfigOk, Begin, DropOk, Cutoff, Full, Oldest;
    if ev.EvBegin? {
      BeginRemoves(j, ev.c, ev.d, ev.start, ev.draw, k);
    }
    RetentionOutlastsUndo(ev.c, TimeOf(ev));
  }

  /** A row that has not aged out leaves only after it succeeded or failed: pending and unknown rows stay. */
  lemma {:induction false} UnfinishedRowsStay(j: Journal, c: Config, d: Tables.Db, s: Start, w: Draw, k: Key)
    requires Inv(j) && DropOk(j, c, s, w.drop) && k in j.records
    requires j.records[k].status.Pending? || j.records[k].status.Unknown?
    requires j.records[k].created >= Cutoff(s.at, c.retentionHours)
    ensures k in Begin(j, c, d, s, w).journal.records
  {
    hide Inv, Begin, DropOk, Cutoff, Full, Oldest;
    if k !in Begin(j, c, d, s, w).journal.records {
      BeginRemoves(j, c, d, s, w, k);
    }
  }

  /** begin_operation leaves every other account's rows exactly as they were, and writes none for them. */
  lemma {:induction false} BeginSparesOthers(j: Journal, c: Config, d: Tables.Db, s: Start, w: Draw, k: Key)
    requires Inv(j) && DropOk(j, c, s, w.drop) && k.account != s.account
    ensures k in j.records <==> k in Begin(j, c, d, s, w).journal.records
    ensures k in j.records ==> Begin(j, c, d, s, w).journal.records[k] == j.records[k]
  {
    hide Inv, DropOk, Insert, Cutoff, Full, Oldest, Resumable, BeginCheck;
    if k in j.records && k !in Begin(j, c, d, s, w).journal.records {
      BeginRemoves(j, c, d, s, w, k);
    }
    if k in Begin(j, c, d, s, w).journal.records {
      BeginRow(j, c, d, s, w, k);
      if Begin(j, c, d, s, w) == Insert(j, c, s, w) {
        InsertRowOrOld(j, c, s, w, k);
      }
    }
  }
}
