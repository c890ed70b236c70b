/** The store's journal methods: the queries are loops over rows, each transaction commits as a whole. */
module JournalStore {
  import opened Types
  import opened Uuids
  import opened JournalRecords
  import opened JournalOps
  import opened JournalInvariant
  import opened JournalPreservation
  import opened JournalOutcomes
  import opened JournalTokens
  import Tables
  import SubidText

  // ---------- Queries ----------

  lemma {:induction false} NoneLatest(records: map<Key, Record>, account: Id, request: nat)
    requires forall k :: k in records ==> !(k.account == account && records[k].request == request)
    ensures Latest(records, account, request) == None
  {
  }

  /** ORDER BY key DESC LIMIT 1 over the rows of one request. */
  method FindLatest(records: map<Key, Record>, account: Id, request: nat) returns (found: Option<Key>)
    ensures found == Latest(records, account, request) && (found.Some? ==> found.value in records)
  {
    found := None;
    var rest := records.Keys;
    while rest != {}
      invariant rest <= records.Keys
      invariant found.None? ==> forall o :: o in records.Keys - rest ==> !(o.account == account && records[o].request == request)
      invariant found.Some? ==> found.value in records.Keys - rest && found.value.account == account
      invariant found.Some? ==> records[found.value].request == request
      invariant found.Some? ==> forall o :: o in records.Keys - rest && o != found.value ==>
        o.account == account && records[o].request == request ==> Before(o, found.value)
      decreases |rest|
    {
      var k :| k in rest;
      rest := rest - {k};
      if k.account == account && records[k].request == request && (found.None? || Before(found.value, k)) {
        found := Some(k);
      }
    }
    if found.None? {
      NoneLatest(records, account, request);
    } else {
      LatestIs(records, account, request, found.value);
    }
  }

  lemma {:induction false} OldestIs(records: map<Key, Record>, account: Id, cutoff: nat, k: Key)
    requires IsOldest(records, account, cutoff, k)
    ensures Oldest(records, account, cutoff) == Some(k)
  {
    hide Evictable;
    var o := Oldest(records, account, cutoff).value;
    assert IsOldest(records, account, cutoff, o);
    assert o != k ==> Before(o, k) && Before(k, o);
  }

  /** ORDER BY key LIMIT 1 over the rows that may be given up for space. */
  method FindOldest(records: map<Key, Record>, account: Id, cutoff: nat) returns (found: Option<Key>)
    ensures found == Oldest(records, account, cutoff)
  {
    found := None;
    var rest := records.Keys;
    while rest != {}
      invariant rest <= records.Keys
      invariant found.None? ==> forall o :: o in records.Keys - rest ==> !(o.account == account && Evictable(records[o], account, cutoff))
      invariant found.Some? ==> found.value in records.Keys - rest && found.value.account == account
      invariant found.Some? ==> Evictable(records[found.value], account, cutoff)
      invariant found.Some? ==> forall o :: o in records.Keys - rest && o != found.value ==>
        o.account == account && Evictable(records[o], account, cutoff) ==> Before(found.value, o)
      decreases |rest|
    {
      var k :| k in rest;
      rest := rest - {k};
      if k.account == account && Evictable(records[k], account, cutoff) && (found.None? || Before(k, found.value)) {
        found := Some(k);
      }
    }
    if found.Some? {
      OldestIs(records, account, cutoff, found.value);
    }
  }

  /** DELETE, one by one, of the rows that a LIMITed query over expired rows returned. */
  method DropExpired(records: map<Key, Record>, account: Id, cutoff: nat) returns (kept: map<Key, Record>, ghost drop: set<Key>)
    ensures kept == records - drop && drop <= ExpiredKeys(records, account, cutoff)
    ensures |drop| == Min(|ExpiredKeys(records, account, cutoff)|, BEGIN_EXPIRY_LIMIT)
    ensures forall k :: k in kept ==> k in records && kept[k] == records[k]
    ensures forall k :: k in records && k !in kept ==> k.account == account && records[k].created < cutoff
    ensures |kept| + Min(|ExpiredKeys(records, account, cutoff)|, BEGIN_EXPIRY_LIMIT) == |records|
  {
    hide ExpiredKeys, Splits;
    Unsplit(ExpiredKeys(records, account, cutoff));
    var rest := ExpiredKeys(records, account, cutoff);
    ghost var expired := rest;
    var taken := 0;
    kept, drop := records, {};
    while rest != {} && taken < BEGIN_EXPIRY_LIMIT
      invariant Splits(expired, rest, drop) && |drop| == taken <= BEGIN_EXPIRY_LIMIT
      invariant kept == records - drop
      decreases |rest|
    {
      var k :| k in rest;
      DropOne(records, expired, rest, drop, k);
      kept := kept - {k};
      rest, drop, taken := rest - {k}, drop + {k}, taken + 1;
    }
    Dropped(records, account, cutoff, rest, drop);
  }

  predicate Splits(all: set<Key>, rest: set<Key>, drop: set<Key>) {
    rest + drop == all && rest !! drop
  }

  lemma {:induction false} Unsplit(all: set<Key>)
    ensures Splits(all, all, {})
  {
  }

  lemma {:induction false} DropOne(records: map<Key, Record>, expired: set<Key>, rest: set<Key>, drop: set<Key>, k: Key)
    requires Splits(expired, rest, drop) && k in rest
    ensures Splits(expired, rest - {k}, drop + {k}) && |drop + {k}| == |drop| + 1
    ensures records - drop - {k} == records - (drop + {k})
    ensures |rest - {k}| < |rest|
  {
  }

  lemma {:induction false} Dropped(records: map<Key, Record>, account: Id, cutoff: nat, rest: set<Key>, drop: set<Key>)
    requires Splits(ExpiredKeys(records, account, cutoff), rest, drop)
    requires |drop| <= BEGIN_EXPIRY_LIMIT && (rest == {} || |drop| == BEGIN_EXPIRY_LIMIT)
    ensures |drop| == Min(|ExpiredKeys(records, account, cutoff)|, BEGIN_EXPIRY_LIMIT)
    ensures |records - drop| + |drop| == |records|
    ensures drop <= ExpiredKeys(records, account, cutoff)
    ensures forall k :: k in records && k in drop ==> k.account == account && records[k].created < cutoff
  {
    hide ExpiredKeys;
    ExpiredFacts(records, account, cutoff);
    KeptSize(records, drop);
    assert |rest + drop| == |rest| + |drop|;
  }

  lemma {:induction false} ExpiredFacts(records: map<Key, Record>, account: Id, cutoff: nat)
    ensures forall k :: k in ExpiredKeys(records, account, cutoff) ==>
      k in records && k.account == account && records[k].created < cutoff
  {
  }

  lemma {:induction false} KeptSize(records: map<Key, Record>, drop: set<Key>)
    requires drop <= records.Keys
    ensures |records - drop| + |drop| == |records|
  {
    assert (records - drop).Keys + drop == records.Keys;
  }

  lemma {:induction false} SubsetOf<T>(s: set<T>, n: nat) returns (t: set<T>)
    requires n <= |s|
    ensures t <= s && |t| == n
  {
    if n == 0 {
      t := {};
    } else {
      var x :| x in s;
      t := SubsetOf(s - {x}, n - 1);
      t := t + {x};
    }
  }

  /** A begin that fails early never looks at expired rows: any choice of them describes it. */
  lemma {:induction false} AnyDrop(j: Journal, c: Config, s: Start) returns (drop: set<Key>)
    ensures DropOk(j, c, s, drop)
  {
    var expired := ExpiredKeys(j.records, s.account, Cutoff(s.at, c.retentionHours));
    drop := SubsetOf(expired, Min(|expired|, BEGIN_EXPIRY_LIMIT));
  }

  lemma {:induction false} CheckedOffset(c: Config, d: Tables.Db, s: Start)
    requires BeginCheck(c, d, s).Ok?
    ensures s.request.command.ReadFileRange? ==> s.request.offset.Some?
  {
    hide ConfigOk, SubidText.Bytes, Tables.Authorized;
  }

  ghost predicate RunsTo(j: Journal, run: seq<Event>, e: Journal) {
    AdmissibleRun(j, run) && e == Final(j, run)
  }

  lemma {:induction false} Extend(j: Journal, run: seq<Event>, e: Journal, ev: Event)
    requires RunsTo(j, run, e) && Admissible(e, ev)
    ensures RunsTo(j, run + [ev], After(e, ev))
    decreases |run|
  {
    hide After, Admissible;
    if run == [] {
      assert run + [ev] == [ev] && [ev][1..] == [];
      assert RunsTo(After(j, ev), [ev][1..], After(j, ev));
    } else {
      Extend(After(j, run[0]), run[1..], e, ev);
      assert (run + [ev])[1..] == run[1..] + [ev];
    }
  }

  lemma {:induction false} Take<T>(all: set<T>, rest: set<T>, gone: set<T>, x: T)
    requires rest !! gone && rest + gone == all && x in rest
    ensures rest - {x} !! gone + {x} && (rest - {x}) + (gone + {x}) == all && |gone + {x}| == |gone| + 1
    ensures |all| == |rest| + |gone|
  {
  }

  lemma {:induction false} NamedOnce(j: Journal, account: Id, operation: string, k: Key)
    requires RecordsOk(j.used, j.records) && Names(j, account, operation, k)
    ensures Named(j, account, operation) == Some(k)
  {
    hide Text, RecordOk;
    var o := Named(j, account, operation).value;
    assert Names(j, account, operation, o);
    TextInjective(o.id, k.id);
  }

  method FindNamed(j: Journal, account: Id, operation: string) returns (found: Option<Key>)
    requires RecordsOk(j.used, j.records)
    ensures found == Named(j, account, operation) && (found.Some? ==> found.value in j.records)
  {
    hide RecordsOk, Text;
    var rest := j.records.Keys;
    while rest != {}
      invariant rest <= j.records.Keys
      invariant forall o :: o in j.records.Keys - rest ==> !Names(j, account, operation, o)
      decreases |rest|
    {
      var k :| k in rest;
      rest := rest - {k};
      if k.account == account && Text(k.id) == operation {
        NamedOnce(j, account, operation, k);
        return Some(k);
      }
    }
    found := None;
  }

  /** At most `limit` of the selected tokens. */
  method SelectTokens(tokens: map<Token, Record>, selected: set<Token>, limit: nat) returns (rows: seq<Token>)
    requires selected <= tokens.Keys
    ensures |rows| == Min(limit, |selected|)
    ensures forall i :: 0 <= i < |rows| ==> rows[i] in selected
    ensures forall i, k :: 0 <= i < k < |rows| ==> rows[i] != rows[k]
  {
    rows := [];
    var rest := selected;
    ghost var gone: set<Token> := {};
    while rest != {} && |rows| < limit
      invariant rest !! gone && rest + gone == selected
      invariant |rows| == |gone| <= limit
      invariant forall i :: 0 <= i < |rows| ==> rows[i] in gone
      invariant forall i, k :: 0 <= i < k < |rows| ==> rows[i] != rows[k]
      decreases |rest|
    {
      var t :| t in rest;
      Take(selected, rest, gone, t);
      rest, gone := rest - {t}, gone + {t};
      rows := rows + [t];
    }
    assert |selected| == |rest| + |gone|;
  }

  datatype CleanupResult = CleanupResult(cleaned: nat, skipped: nat)

  /** A worker's exit status, the record's encoded size and the run's time budget are not under the store's control. */
  method Environment() returns (worker: bool, fits: bool, timeLeft: bool) {
    worker, fits, timeLeft := *, *, *;
  }

  /** Whether the ledger file of a row could be removed. */
  method LedgerRemoved() returns (ok: bool) {
    ok := *;
  }

  class OperationJournal {
    var journal: Journal

    ghost predicate Valid()
      reads this
    {
      Inv(journal)
    }

    constructor ()
      ensures Valid() && journal == EMPTY
    {
      journal := EMPTY;
      EmptyInv();
    }

    /** The insertion transaction of begin_operation, on rows that already have their epoch. */
    method InsertRow(tx: Journal, c: Config, s: Start, r: Record)
      returns (e: Result<Journal>, ghost drop: set<Key>)
      requires Cutoff(s.at, c.retentionHours) <= I64_MAX && r.account == s.account
      ensures DropOk(tx, c, s, drop)
      ensures var room := Room(tx.records, s.account, c, s.at, drop);
              e == if room.Err? then Err(room.error)
                   else AddToken(tx.(records := room.value[KeyOf(r) := r], used := tx.used + {r.id}), r, c)
    {
      hide Oldest;
      var kept;
      kept, drop := DropExpired(tx.records, s.account, Cutoff(s.at, c.retentionHours));
      var count, global := |Owned(kept, s.account)|, |kept|;
      if count >= c.maxPerAccount || global >= c.maxTotal {
        if Cutoff(s.at, c.undoMaxHours) > I64_MAX {
          return Err(InvalidInput), drop;
        }
        var victim := FindOldest(kept, s.account, Cutoff(s.at, c.undoMaxHours));
        if victim.None? {
          return Err(QuotaExceeded), drop;
        }
        kept := kept - {victim.value};
      }
      e := AddToken(tx.(records := kept[KeyOf(r) := r], used := tx.used + {r.id}), r, c);
    }

    method BeginOperation(c: Config, d: Tables.Db, s: Start, id: Uuid, epoch: Uuid, fits: bool)
      returns (r: Result<Record>, ghost drop: set<Key>)
      requires Valid() && id !in journal.used && epoch !in journal.used && id != epoch
      modifies this
      ensures Valid() && DropOk(old(journal), c, s, drop)
      ensures Turn(journal, r) == Begin(old(journal), c, d, s, Draw(id, epoch, fits, drop))
    {
      hide Inv, Keeps, BeginCheck, Latest, Room, AddToken, StagingPath, TargetPath, Resumable;
      drop := AnyDrop(journal, c, s);
      var check := BeginCheck(c, d, s);
      if check.Err? {
        return Err(check.error), drop;
      }
      if s.request.command.ReadFileRange? {
        var latest := FindLatest(journal.records, s.account, s.request.id);
        if latest.Some? {
          ResumeKeeps(journal, latest.value, s, fits);
          var turn := Resume(journal, latest.value, s, fits);
          KeepsInv(journal, turn.journal);
          journal := turn.journal;
          return turn.result, drop;
        }
      }
      CheckedOffset(c, d, s);
      r, drop := InsertOperation(c, s, id, epoch, fits);
    }

    /** The part of begin_operation that draws an id, fixes the record and runs the insertion transaction. */
    method InsertOperation(c: Config, s: Start, id: Uuid, epoch: Uuid, fits: bool)
      returns (r: Result<Record>, ghost drop: set<Key>)
      requires Valid() && id !in journal.used && epoch !in journal.used && id != epoch
      requires s.request.command.ReadFileRange? ==> s.request.offset.Some?
      modifies this
      ensures Valid() && DropOk(old(journal), c, s, drop)
      ensures Turn(journal, r) == Insert(old(journal), c, s, Draw(id, epoch, fits, drop))
    {
      hide Inv, Keeps, Room, AddToken, StagingPath, TargetPath, ActionOf;
      ghost var before := journal;
      drop := AnyDrop(journal, c, s);
      EpochKeeps(journal, epoch);
      KeepsInv(journal, WithEpoch(journal, epoch));
      var record := NewRecord(s.request, s.account, s.generation, s.at, id, EpochOf(journal, epoch));
      journal := WithEpoch(journal, epoch);
      if !fits || Cutoff(s.at, c.retentionHours) > I64_MAX {
        return Err(InvalidInput), drop;
      }
      var inserted;
      inserted, drop := InsertRow(journal, c, s, record);
      if inserted.Err? {
        return Err(inserted.error), drop;
      }
      InsertKeeps(before, c, s, Draw(id, epoch, fits, drop));
      KeepsInv(before, inserted.value);
      journal := inserted.value;
      r := Ok(record);
    }

    method FinishOperation(record: Record, reply: Option<Reply>, at: nat, fits: bool) returns (r: Result<Record>)
      requires Valid()
      modifies this
      ensures Valid() && Turn(journal, r) == Finish(old(journal), record, reply, at, fits)
      ensures r.Ok? ==>
        && (r.value.status.Success? <==> reply.Some? && reply.value.success)
        && (r.value.status.Failed? <==> reply.Some? && !reply.value.success)
        && (r.value.status.Unknown? <==> reply.None?)
    {
      hide Inv, Keeps, Settle, NamedTrash;
      var tx := journal;
      FinishKeeps(tx, record, reply, at, fits);
      KeepsInv(tx, Finish(tx, record, reply, at, fits).journal);
      var k := KeyOf(record);
      if k !in tx.records {
        return Err(NotFound);
      }
      var current := tx.records[k];
      if current.id != record.id || current.account != record.account || !current.status.Pending? {
        return Err(Conflict);
      }
      var settled := Settle(current, reply, at);
      if settled.Err? {
        return Err(settled.error);
      }
      if !fits {
        return Err(InvalidInput);
      }
      ReplyDecides(current, reply, at);
      current := settled.value;
      tx := tx.(records := tx.records[k := current]);
      if current.action.TrashAction? {
        tx := tx.(trash := Refresh(tx.trash, current, current.status.Failed?));
      }
      if current.staging.Some? {
        tx := tx.(staging := Refresh(tx.staging, current, current.status.Success?));
      }
      if current.status.Success? && (current.action.DeleteAction? || current.action.RestoreAction?) {
        var id := NamedTrash(record.source);
        if id.Some? {
          tx := tx.(trash := tx.trash - {Token(current.account, id.value)});
        }
      }
      journal := tx;
      r := Ok(current);
    }

    /** The maintenance sweep: up to 500 expired rows, each deleted on its own; a failure keeps what was done before it. */
    method GcOperations(c: Config, d: Tables.Db, at: nat) returns (r: Result<nat>, ghost run: seq<Event>, ghost gone: set<Key>)
      requires Valid()
      modifies this
      ensures Valid() && RunsTo(old(journal), run, journal)
      ensures journal == old(journal).(records := old(journal).records - gone)
      ensures gone <= AllExpired(old(journal).records, Cutoff(at, c.retentionHours)) && |gone| == |run| <= GC_LIMIT
      ensures r.Ok? ==> r.value == |gone| == Min(GC_LIMIT, |AllExpired(old(journal).records, Cutoff(at, c.retentionHours))|)
    {
      hide Inv, Keeps, ConfigOk, Cutoff, Admissible, After, RunsTo, AllExpired;
      run, gone := [], {};
      assert RunsTo(journal, [], journal) by {
        NoRun(journal);
      }
      assert journal.records - {} == journal.records;
      if !ConfigOk(c) || Cutoff(at, c.retentionHours) > I64_MAX {
        return Err(InvalidInput), [], {};
      }
      var cutoff := Cutoff(at, c.retentionHours);
      var rest := AllExpired(journal.records, cutoff);
      ghost var expired := rest;
      var removed := 0;
      while rest != {} && removed < GC_LIMIT
        invariant Valid() && RunsTo(old(journal), run, journal)
        invariant journal == old(journal).(records := old(journal).records - gone)
        invariant removed == |run| == |gone| <= GC_LIMIT
        invariant rest !! gone && rest + gone == expired
        decreases |rest|
      {
        var k :| k in rest;
        if k.account !in d.accounts {
          return Err(NotFound), run, gone;
        }
        var unlinked := LedgerRemoved();
        if !unlinked {
          return Err(Database), run, gone;
        }
        Take(expired, rest, gone, k);
        ExpiredRow(old(journal).records, cutoff, k);
        Always(journal, EvExpire(c, k, at));
        Extend(old(journal), run, journal, EvExpire(c, k, at));
        assert old(journal).records - (gone + {k}) == old(journal).records - gone - {k};
        ExpireRow(c, k, at);
        run, gone := run + [EvExpire(c, k, at)], gone + {k};
        removed := removed + 1;
        rest := rest - {k};
      }
      assert |expired| == |rest| + |gone|;
      r := Ok(removed);
    }

    method ClaimUndo(c: Config, d: Tables.Db, q: Claim, fits: bool, epoch: Uuid) returns (r: Result<Record>)
      requires Valid() && epoch !in journal.used
      modifies this
      ensures Valid() && Turn(journal, r) == JournalOps.ClaimUndo(old(journal), c, d, q, fits, epoch)
    {
      hide RecordsOk, StagingOk, TrashOk, TokensMatch, EpochOk, Later, ClaimCheck, Unavailable, Named;
      ClaimKeeps(journal, c, d, q, fits, epoch);
      KeepsInv(journal, JournalOps.ClaimUndo(journal, c, d, q, fits, epoch).journal);
      var actor := ClaimCheck(c, d, q);
      if actor.Err? {
        return Err(actor.error);
      }
      var k := FindNamed(journal, actor.value, q.operation);
      if k.None? {
        return Err(NotFound);
      }
      var record := journal.records[k.value];
      var hours := if actor.value in d.accounts then d.accounts[actor.value].undoHours else None;
      if Unavailable(record, EffectiveHours(hours, c), EpochOf(journal, epoch), q.at).Some?
         || record.after.None? || record.after.value.digest != q.expected {
        return Err(Conflict);
      }
      record := record.(undo := Some(Pending));
      if !fits {
        return Err(InvalidInput);
      }
      journal := WithEpoch(journal, epoch).(records := journal.records[k.value := record]);
      r := Ok(record);
    }

    method FinishUndo(record: Record, success: Option<bool>, at: nat, fits: bool) returns (r: Result<Record>)
      requires Valid()
      modifies this
      ensures Valid() && Turn(journal, r) == JournalOps.FinishUndo(old(journal), record, success, at, fits)
    {
      hide Inv, Later;
      FinishUndoKeeps(journal, record, success, at, fits);
      KeepsInv(journal, JournalOps.FinishUndo(journal, record, success, at, fits).journal);
      var tx := journal;
      var k := KeyOf(record);
      if k !in tx.records {
        return Err(Database);
      }
      var current := tx.records[k];
      if current.id != record.id || current.account != record.account || current.undo != Some(Pending) {
        return Err(Conflict);
      }
      current := current.(undo := Some(if success.None? then Unknown else if success.value then Success else Failed));
      current := current.(updated := at);
      if current.action.TrashAction? && current.undo == Some(Success) {
        tx := tx.(trash := tx.trash - {TokenOf(current)});
      }
      if !fits {
        return Err(InvalidInput);
      }
      journal := tx.(records := tx.records[k := current]);
      r := Ok(current);
    }

    /** The journal's part of an offline restore. */
    method InvalidateRestored(authority: Tables.Authority, epoch: Uuid) returns (r: Result<()>)
      requires Valid() && epoch !in journal.used
      modifies this
      ensures Valid() && journal == Restore(old(journal), authority, epoch)
      ensures r == if authority == Tables.Root then Ok(()) else Err(Forbidden)
    {
      hide Inv, Later;
      if authority != Tables.Root {
        return Err(Forbidden);
      }
      NewEpoch(journal, epoch);
      KeepsInv(journal, Restore(journal, authority, epoch));
      journal := journal.(epoch := Some(epoch), used := journal.used + {epoch});
      r := Ok(());
    }

    /** staging::cleanup: every selected token is dropped, marked for review or kept, one row at a time. */
    method CleanupStaging(c: Config, l: Lifecycle, d: Tables.Db, at: nat)
      returns (r: Result<CleanupResult>, ghost run: seq<Event>)
      requires Valid()
      modifies this
      ensures Valid() && RunsTo(old(journal), run, journal)
      ensures |run| <= l.maxPerRun || run == []
      ensures forall i :: 0 <= i < |run| ==> run[i].EvCleanStaging? && run[i].d == d
      ensures forall i :: 0 <= i < |run| ==> SelectedStaging(old(journal), run[i].token, Cutoff(at, l.stagingHours))
    {
      hide Inv, Cutoff, Admissible, After, RunsTo, StagingSelected;
      run := [];
      NoRun(journal);
      if !LifecycleOk(l) {
        return Err(InvalidInput), [];
      }
      if !c.enabled || !l.stagingEnabled {
        return Ok(CleanupResult(0, 0)), [];
      }
      var cutoff := Cutoff(at, l.stagingHours);
      if cutoff > I64_MAX {
        return Err(InvalidInput), [];
      }
      var selected := set t | t in journal.staging && StagingSelected(journal.staging[t], cutoff);
      var rows := SelectTokens(journal.staging, selected, l.maxPerRun);
      var cleaned, skipped, i := 0, 0, 0;
      while i < |rows|
        invariant Valid() && RunsTo(old(journal), run, journal) && 0 <= i == |run| <= |rows|
        invariant forall n :: 0 <= n < |run| ==> run[n].EvCleanStaging? && run[n].d == d && run[n].token == rows[n]
      {
        var worker, fits, timeLeft := Environment();
        if !timeLeft {
          break;
        }
        Always(journal, EvCleanStaging(d, rows[i], worker, fits));
        Extend(old(journal), run, journal, EvCleanStaging(d, rows[i], worker, fits));
        run := run + [EvCleanStaging(d, rows[i], worker, fits)];
        var swept := CleanOneStaging(d, rows[i], worker, fits);
        if swept.Err? {
          return Err(swept.error), run;
        }
        if swept.value == Drop {
          cleaned := cleaned + 1;
        } else if swept.value != Forget {
          skipped := skipped + 1;
        }
        i := i + 1;
      }
      r := Ok(CleanupResult(cleaned, skipped));
    }

    method CleanOneStaging(d: Tables.Db, t: Token, worker: bool, fits: bool) returns (r: Result<Sweep>)
      requires Valid()
      modifies this
      ensures Valid() && journal == After(old(journal), EvCleanStaging(d, t, worker, fits))
    {
      hide Inv, Later;
      CleanStagingKeeps(journal, d, t, worker, fits);
      KeepsInv(journal, CleanStaging(journal, d, t, worker, fits).journal);
      if t !in journal.staging {
        return Err(Database);
      }
      var record := journal.staging[t];
      r := StagingSweep(d, record, worker);
      if r.Ok? && (r.value.Forget? || r.value.Drop?) {
        journal := journal.(staging := journal.staging - {t});
      } else if r.Ok? && r.value.Review? {
        if !fits {
          return Err(InvalidInput);
        }
        journal := journal.(staging := journal.staging[t := record.(stagingReview := true)]);
      }
    }

    /** lifecycle::cleanup: the same sweep over trash tokens, where a kept token is one that is not yet due. */
    method CleanupTrash(c: Config, l: Lifecycle, d: Tables.Db, at: nat)
      returns (r: Result<CleanupResult>, ghost run: seq<Event>)
      requires Valid()
      modifies this
      ensures Valid() && RunsTo(old(journal), run, journal)
      ensures |run| <= l.maxPerRun || run == []
      ensures forall i :: 0 <= i < |run| ==> run[i].EvCleanTrash? && run[i].d == d && run[i].l == l && run[i].at == at
      ensures forall i :: 0 <= i < |run| ==> SelectedTrash(old(journal), run[i].token, Cutoff(at, l.trashHours))
    {
      hide Inv, Cutoff, Admissible, After, RunsTo, TrashSelected;
      run := [];
      NoRun(journal);
      if !LifecycleOk(l) {
        return Err(InvalidInput), [];
      }
      if !c.enabled || !l.trashEnabled {
        return Ok(CleanupResult(0, 0)), [];
      }
      var cutoff := Cutoff(at, l.trashHours);
      if cutoff > I64_MAX {
        return Err(InvalidInput), [];
      }
      var selected := set t | t in journal.trash && TrashSelected(journal.trash[t], cutoff);
      var rows := SelectTokens(journal.trash, selected, l.maxPerRun);
      var cleaned, skipped, i := 0, 0, 0;
      while i < |rows|
        invariant Valid() && RunsTo(old(journal), run, journal) && 0 <= i == |run| <= |rows|
        invariant forall n :: 0 <= n < |run| ==> run[n].EvCleanTrash? && run[n].d == d && run[n].l == l && run[n].at == at
        invariant forall n :: 0 <= n < |run| ==> run[n].token == rows[n]
      {
        var worker, fits, timeLeft := Environment();
        if !timeLeft {
          break;
        }
        Always(journal, EvCleanTrash(d, l, rows[i], at, worker, fits));
        Extend(old(journal), run, journal, EvCleanTrash(d, l, rows[i], at, worker, fits));
        run := run + [EvCleanTrash(d, l, rows[i], at, worker, fits)];
        var swept := CleanOneTrash(d, l, rows[i], at, worker, fits);
        if swept.Err? {
          return Err(swept.error), run;
        }
        if swept.value == Drop {
          cleaned := cleaned + 1;
        } else if swept.value != Forget {
          skipped := skipped + 1;
        }
        i := i + 1;
      }
      r := Ok(CleanupResult(cleaned, skipped));
    }

    method CleanOneTrash(d: Tables.Db, l: Lifecycle, t: Token, at: nat, worker: bool, fits: bool) returns (r: Result<Sweep>)
      requires Valid()
      modifies this
      ensures Valid() && journal == After(old(journal), EvCleanTrash(d, l, t, at, worker, fits))
    {
      hide Inv, Later, TrashDue;
      CleanTrashKeeps(journal, d, l, t, at, worker, fits);
      KeepsInv(journal, CleanTrash(journal, d, l, t, at, worker, fits).journal);
      if t !in journal.trash {
        return Err(Database);
      }
      var record := journal.trash[t];
      r := TrashSweep(d, l, record, at, worker);
      if r.Ok? && (r.value.Forget? || r.value.Drop?) {
        journal := journal.(trash := journal.trash - {t});
      } else if r.Ok? && r.value.Review? {
        if !fits {
          return Err(InvalidInput);
        }
        journal := journal.(trash := journal.trash[t := record.(trashReview := true)]);
      }
    }

    method ExpireRow(c: Config, k: Key, at: nat)
      requires Valid() && ConfigOk(c) && Cutoff(at, c.retentionHours) <= I64_MAX
      requires k in journal.records && journal.records[k].created < Cutoff(at, c.retentionHours)
      modifies this
      ensures Valid() && journal == After(old(journal), EvExpire(c, k, at))
      ensures journal == old(journal).(records := old(journal).records - {k})
    {
      hide Inv, Keeps, ConfigOk;
      ExpireKeeps(journal, c, k, at);
      KeepsInv(journal, Expire(journal, c, k, at).journal);
      journal := journal.(records := journal.records - {k});
    }
  }

  predicate SelectedStaging(j: Journal, t: Token, cutoff: nat) {
    t in j.staging && StagingSelected(j.staging[t], cutoff)
  }

  predicate SelectedTrash(j: Journal, t: Token, cutoff: nat) {
    t in j.trash && TrashSelected(j.trash[t], cutoff)
  }

  lemma {:induction false} ExpiredRow(records: map<Key, Record>, cutoff: nat, k: Key)
    requires k in AllExpired(records, cutoff)
    ensures k in records && records[k].created < cutoff
  {
  }

  lemma {:induction false} NoRun(j: Journal)
    ensures RunsTo(j, [], j)
  {
  }

  lemma {:induction false} Always(j: Journal, ev: Event)
    requires ev.EvExpire? || ev.EvCleanStaging? || ev.EvCleanTrash?
    ensures Admissible(j, ev)
  {
  }

  function AllExpired(records: map<Key, Record>, cutoff: nat): set<Key> {
    set k | k in records && records[k].created < cutoff
  }
}
