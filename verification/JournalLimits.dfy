/** Row counts: how many records and tokens one account, and all accounts together, may hold. */
module JournalLimits {
  import opened Types
  import opened Sums
  import opened Uuids
  import opened JournalRecords
  import opened JournalOps
  import opened JournalTheorems
  import Tables

  /** The sizes that the limits are compared with. */
  ghost predicate NoMore(a: map<Key, Record>, b: map<Key, Record>, owner: Id, c: Config) {
    && |Owned(b, owner)| <= Max(|Owned(a, owner)|, c.maxPerAccount)
    && |b| <= Max(|a|, c.maxTotal)
  }

  lemma {:induction false} OwnedShrinks(a: map<Key, Record>, b: map<Key, Record>, owner: Id)
    requires b.Keys <= a.Keys
    ensures |Owned(b, owner)| <= |Owned(a, owner)| && |b| <= |a|
  {
    SubsetSize(Owned(b, owner), Owned(a, owner));
    SubsetSize(b.Keys, a.Keys);
  }

  lemma {:induction false} OneMore<T>(a: set<T>, b: set<T>, x: T)
    requires b <= a + {x}
    ensures |b| <= |a| + 1
  {
    SubsetSize(b, a + {x});
  }

  lemma {:induction false} OwnedInsert(a: map<Key, Record>, r: Record, owner: Id)
    ensures |a[KeyOf(r) := r]| <= |a| + 1
    ensures |Owned(a[KeyOf(r) := r], owner)| <= |Owned(a, owner)| + if r.account == owner then 1 else 0
  {
    var b := a[KeyOf(r) := r];
    OneMore(a.Keys, b.Keys, KeyOf(r));
    if r.account == owner {
      OneMore(Owned(a, owner), Owned(b, owner), KeyOf(r));
    } else {
      SubsetSize(Owned(b, owner), Owned(a, owner));
    }
  }

  lemma {:induction false} OwnedEvict(a: map<Key, Record>, k: Key)
    requires k in a
    ensures |Owned(a - {k}, k.account)| == |Owned(a, k.account)| - 1 && |a - {k}| == |a| - 1
  {
    assert Owned(a - {k}, k.account) == Owned(a, k.account) - {k};
    assert (a - {k}).Keys == a.Keys - {k};
  }

  lemma {:induction false} SwapCounts(kept: map<Key, Record>, victim: Key, r: Record, owner: Id)
    requires victim in kept && victim.account == r.account
    ensures |Owned((kept - {victim})[KeyOf(r) := r], owner)| <= |Owned(kept, owner)|
    ensures |(kept - {victim})[KeyOf(r) := r]| <= |kept|
  {
    hide Owned;
    OwnedEvict(kept, victim);
    OwnedShrinks(kept, kept - {victim}, owner);
    OwnedInsert(kept - {victim}, r, owner);
  }

  lemma {:induction false} OldestOwned(records: map<Key, Record>, account: Id, cutoff: nat)
    requires Oldest(records, account, cutoff).Some?
    ensures Oldest(records, account, cutoff).value in records
    ensures Oldest(records, account, cutoff).value.account == account
  {
    hide Evictable;
  }

  lemma {:induction false} FreeCounts(records: map<Key, Record>, kept: map<Key, Record>, c: Config, r: Record, owner: Id)
    requires kept.Keys <= records.Keys && !Full(kept, r.account, c)
    ensures NoMore(records, kept[KeyOf(r) := r], owner, c)
  {
    hide Owned;
    OwnedShrinks(records, kept, owner);
    OwnedInsert(kept, r, owner);
  }

  lemma {:induction false} EvictCounts(records: map<Key, Record>, kept: map<Key, Record>, c: Config, victim: Key, r: Record, owner: Id)
    requires kept.Keys <= records.Keys && victim in kept && victim.account == r.account
    ensures NoMore(records, (kept - {victim})[KeyOf(r) := r], owner, c)
  {
    hide Owned;
    OwnedShrinks(records, kept, owner);
    SwapCounts(kept, victim, r, owner);
  }

  /** Making room and inserting never pushes a count past its limit, or past where it already was. */
  lemma {:induction false} RoomCounts(records: map<Key, Record>, c: Config, at: nat, drop: set<Key>, r: Record, owner: Id)
    requires Room(records, r.account, c, at, drop).Ok?
    ensures NoMore(records, Room(records, r.account, c, at, drop).value[KeyOf(r) := r], owner, c)
  {
    hide Oldest, Cutoff, Full, NoMore;
    var kept := records - drop;
    if Full(kept, r.account, c) {
      OldestOwned(kept, r.account, Cutoff(at, c.undoMaxHours));
      EvictCounts(records, kept, c, Oldest(kept, r.account, Cutoff(at, c.undoMaxHours)).value, r, owner);
    } else {
      FreeCounts(records, kept, c, r, owner);
    }
  }

  lemma {:induction false} StillCounts(records: map<Key, Record>, e: map<Key, Record>, owner: Id, c: Config)
    requires e.Keys <= records.Keys
    ensures NoMore(records, e, owner, c)
  {
    hide Owned;
    OwnedShrinks(records, e, owner);
  }

  lemma {:induction false} InsertCounts(j: Journal, c: Config, s: Start, w: Draw, owner: Id)
    ensures NoMore(j.records, Insert(j, c, s, w).journal.records, owner, c)
    ensures NoMoreTokens(j.staging, Insert(j, c, s, w).journal.staging, owner, c)
    ensures NoMoreTokens(j.trash, Insert(j, c, s, w).journal.trash, owner, c)
  {
    hide Room, AddToken, NoMore, NoMoreTokens, StagingPath, TargetPath, ActionOf;
    StillCounts(j.records, j.records, owner, c);
    StillTokens(j.staging, owner, c);
    StillTokens(j.trash, owner, c);
    if Insert(j, c, s, w).result.Ok? {
      var base := WithEpoch(j, w.epoch);
      var r := NewRecord(s.request, s.account, s.generation, s.at, w.id, EpochOf(j, w.epoch));
      var room := Room(j.records, s.account, c, s.at, w.drop).value;
      var with := base.(records := room[KeyOf(r) := r], used := base.used + {w.id});
      TokenLeavesRows(with, r, c);
      RoomCounts(j.records, c, s.at, w.drop, r, owner);
      AddTokenCounts(with, r, c, owner);
    }
  }

  lemma {:induction false} BeginCounts(j: Journal, c: Config, d: Tables.Db, s: Start, w: Draw, owner: Id)
    ensures NoMore(j.records, Begin(j, c, d, s, w).journal.records, owner, c)
    ensures NoMoreTokens(j.staging, Begin(j, c, d, s, w).journal.staging, owner, c)
    ensures NoMoreTokens(j.trash, Begin(j, c, d, s, w).journal.trash, owner, c)
  {
    hide BeginCheck, Insert, Resumable, NoMore, NoMoreTokens;
    InsertCounts(j, c, s, w, owner);
    StillCounts(j.records, j.records, owner, c);
    StillTokens(j.staging, owner, c);
    StillTokens(j.trash, owner, c);
    var e := Begin(j, c, d, s, w);
    if e != Insert(j, c, s, w) {
      StillCounts(j.records, e.journal.records, owner, c);
    }
  }

  // ---------- Tokens ----------

  ghost predicate NoMoreTokens(a: map<Token, Record>, b: map<Token, Record>, owner: Id, c: Config) {
    && |OwnedTokens(b, owner)| <= Max(|OwnedTokens(a, owner)|, c.maxPerAccount)
    && |b| <= Max(|a|, c.maxTotal)
  }

  lemma {:induction false} TokensShrink(a: map<Token, Record>, b: map<Token, Record>, owner: Id)
    requires b.Keys <= a.Keys
    ensures |OwnedTokens(b, owner)| <= |OwnedTokens(a, owner)| && |b| <= |a|
  {
    SubsetSize(OwnedTokens(b, owner), OwnedTokens(a, owner));
    SubsetSize(b.Keys, a.Keys);
  }

  lemma {:induction false} TokenInsert(a: map<Token, Record>, r: Record, owner: Id, c: Config)
    requires !TokensFull(a, r.account, c)
    ensures NoMoreTokens(a, a[TokenOf(r) := r], owner, c)
  {
    var b := a[TokenOf(r) := r];
    OneMore(a.Keys, b.Keys, TokenOf(r));
    if r.account == owner {
      OneMore(OwnedTokens(a, owner), OwnedTokens(b, owner), TokenOf(r));
    } else {
      SubsetSize(OwnedTokens(b, owner), OwnedTokens(a, owner));
    }
  }

  lemma {:induction false} AddTokenCounts(j: Journal, r: Record, c: Config, owner: Id)
    requires AddToken(j, r, c).Ok?
    ensures NoMoreTokens(j.staging, AddToken(j, r, c).value.staging, owner, c)
    ensures NoMoreTokens(j.trash, AddToken(j, r, c).value.trash, owner, c)
  {
    if r.action.TrashAction? {
      TokenInsert(j.trash, r, owner, c);
    } else if r.staging.Some? {
      TokenInsert(j.staging, r, owner, c);
    }
  }

  lemma {:induction false} StillTokens(tokens: map<Token, Record>, owner: Id, c: Config)
    ensures NoMoreTokens(tokens, tokens, owner, c)
  {
    hide OwnedTokens;
  }

  // ---------- Whole runs ----------

  ghost predicate Within(j: Journal, c: Config) {
    && |j.records| <= c.maxTotal && |j.staging| <= c.maxTotal && |j.trash| <= c.maxTotal
    && forall owner ::
         && |Owned(j.records, owner)| <= c.maxPerAccount
         && |OwnedTokens(j.staging, owner)| <= c.maxPerAccount
         && |OwnedTokens(j.trash, owner)| <= c.maxPerAccount
  }

  lemma {:induction false} FinishAddsNothing(j: Journal, record: Record, reply: Option<Reply>, at: nat, fits: bool)
    ensures var e := Finish(j, record, reply, at, fits).journal;
            e.records.Keys == j.records.Keys && e.staging.Keys <= j.staging.Keys && e.trash.Keys <= j.trash.Keys
  {
    hide Settle, NamedTrash;
  }

  /** Every other event only rewrites or removes rows and tokens. */
  lemma {:induction false} OthersAddNothing(j: Journal, ev: Event)
    requires !ev.EvBegin?
    ensures var e := After(j, ev);
            e.records.Keys <= j.records.Keys && e.staging.Keys <= j.staging.Keys && e.trash.Keys <= j.trash.Keys
  {
    hide Begin, Finish, Expire, ClaimUndo, FinishUndo, CleanTrash, CleanStaging;
    if ev.EvFinish? {
      FinishAddsNothing(j, ev.record, ev.reply, ev.at, ev.fits);
    } else if ev.EvCleanTrash? || ev.EvCleanStaging? {
      SweepAddsNothing(j, ev);
    } else {
      UndoAddsNothing(j, ev);
    }
  }

  lemma {:induction false} SweepAddsNothing(j: Journal, ev: Event)
    requires ev.EvCleanTrash? || ev.EvCleanStaging?
    ensures var e := After(j, ev);
            e.records.Keys <= j.records.Keys && e.staging.Keys <= j.staging.Keys && e.trash.Keys <= j.trash.Keys
  {
    hide Unavailable, TrashSweep, StagingSweep, Begin, Finish, Expire, ClaimUndo, FinishUndo;
  }

  lemma {:induction false} UndoAddsNothing(j: Journal, ev: Event)
    requires ev.EvExpire? || ev.EvClaim? || ev.EvFinishUndo? || ev.EvRestore?
    ensures var e := After(j, ev);
            e.records.Keys <= j.records.Keys && e.staging.Keys <= j.staging.Keys && e.trash.Keys <= j.trash.Keys
  {
    hide ClaimCheck, Begin, Finish, CleanTrash, CleanStaging;
  }

  lemma {:induction false} StepWithin(j: Journal, ev: Event, c: Config)
    requires Within(j, c) && (ev.EvBegin? ==> ev.c == c)
    ensures Within(After(j, ev), c)
  {
    hide Begin, Finish, Expire, ClaimUndo, FinishUndo, CleanTrash, CleanStaging, Owned, OwnedTokens;
    var e := After(j, ev);
    if ev.EvBegin? {
      BeginCounts(j, c, ev.d, ev.start, ev.draw, RootOwner);
      forall owner
        ensures |Owned(e.records, owner)| <= c.maxPerAccount
        ensures |OwnedTokens(e.staging, owner)| <= c.maxPerAccount && |OwnedTokens(e.trash, owner)| <= c.maxPerAccount
      {
        BeginCounts(j, c, ev.d, ev.start, ev.draw, owner);
      }
    } else {
      OthersAddNothing(j, ev);
      SubsetSize(e.records.Keys, j.records.Keys);
      SubsetSize(e.staging.Keys, j.staging.Keys);
      SubsetSize(e.trash.Keys, j.trash.Keys);
      forall owner
        ensures |Owned(e.records, owner)| <= c.maxPerAccount
        ensures |OwnedTokens(e.staging, owner)| <= c.maxPerAccount && |OwnedTokens(e.trash, owner)| <= c.maxPerAccount
      {
        OwnedShrinks(j.records, e.records, owner);
        TokensShrink(j.staging, e.staging, owner);
        TokensShrink(j.trash, e.trash, owner);
      }
    }
  }

  /** Under one configuration no run ever holds more rows or tokens than its limits. */
  lemma {:induction false} LimitsHold(j: Journal, run: seq<Event>, c: Config)
    requires Within(j, c)
    requires forall i :: 0 <= i < |run| && run[i].EvBegin? ==> run[i].c == c
    ensures Within(Final(j, run), c)
    decreases |run|
  {
    hide Within, After;
    if run != [] {
      StepWithin(j, run[0], c);
      LimitsHold(After(j, run[0]), run[1..], c);
    }
  }
}
