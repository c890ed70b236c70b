/** What the journal writes down: outcomes come from the replies, and claims from what was observed. */
module JournalOutcomes {
  import opened Types
  import opened Uuids
  import opened JournalRecords
  import opened JournalOps
  import opened JournalInvariant
  import opened JournalPreservation
  import opened JournalTheorems
  import Tables
  import SubidText

  // ---------- Finishing ----------

  /** The recorded outcome is that of the reply; what the reply does not speak of stays. */
  lemma {:induction false} ReplyDecides(r: Record, reply: Option<Reply>, at: nat)
    requires Settle(r, reply, at).Ok?
    ensures var s := Settle(r, reply, at).value;
      && (s.status.Success? <==> reply.Some? && reply.value.success)
      && (s.status.Failed? <==> reply.Some? && !reply.value.success)
      && (s.status.Unknown? <==> reply.None?)
      && s.updated == at && s.undo == r.undo && s.trashReview == r.trashReview && s.stagingReview == r.stagingReview
      && TokenOf(s) == TokenOf(r) && KeyOf(s) == KeyOf(r) && s.staging == r.staging && s.action == r.action
      && s.source == r.source && s.root == r.root && s.request == r.request && s.generation == r.generation && s.epoch == r.epoch
    ensures var s := Settle(r, reply, at).value;
      if reply.None? then s == r.(updated := at, status := Unknown) else
      && s.bytesWritten == reply.value.bytesWritten
      && (r.next.None? ==> s.bytesRead == reply.value.bytesRead && s.next.None?)
      && (if reply.value.observed.Some? then
            s.oldMode == reply.value.observed.value.oldMode && s.before == reply.value.observed.value.before
            && s.after == reply.value.observed.value.after
          else s.oldMode == r.oldMode && s.before == r.before && s.after == r.after)
  {
    hide Text, TrashPath;
  }

  /** After an accepted answer: the record says what the reply said, and every other record is as it was. */
  lemma {:induction false} OutcomeRecorded(j: Journal, ev: Event, other: Key)
    requires ev.EvFinish? && Finish(j, ev.record, ev.reply, ev.at, ev.fits).result.Ok?
    ensures var e, k := After(j, ev), KeyOf(ev.record);
      && k in j.records && j.records[k].status.Pending? && k in e.records
      && Finish(j, ev.record, ev.reply, ev.at, ev.fits).result == Ok(e.records[k])
      && (e.records[k].status.Success? <==> ev.reply.Some? && ev.reply.value.success)
      && (e.records[k].status.Failed? <==> ev.reply.Some? && !ev.reply.value.success)
      && (e.records[k].status.Unknown? <==> ev.reply.None?)
      && (other != k ==> (other in e.records <==> other in j.records)
                         && (other in j.records ==> e.records[other] == j.records[other]))
  {
    hide Settle, TrashAfter, Refresh;
    ReplyDecides(j.records[KeyOf(ev.record)], ev.reply, ev.at);
  }

  /** Only pending records are finished, and a refused answer changes nothing. */
  lemma {:induction false} FinishAccepted(j: Journal, ev: Event)
    requires Inv(j) && ev.EvFinish?
    ensures Finish(j, ev.record, ev.reply, ev.at, ev.fits).result.Err? ==> After(j, ev) == j
    ensures var k := KeyOf(ev.record);
      Finish(j, ev.record, ev.reply, ev.at, ev.fits).result.Ok? <==>
        k in j.records && j.records[k].status.Pending? && ev.fits && Settle(j.records[k], ev.reply, ev.at).Ok?
  {
    hide Settle, TrashAfter, Refresh, StagingOk, TrashOk, TokensMatch, EpochOk, RecordOk;
  }

  /** The operation ended without success; its record says so for as long as it exists. */
  predicate Unsuccessful(j: Journal, id: Uuid) {
    id in j.used && forall k :: k in j.records && k.id == id ==> j.records[k].status.Failed? || j.records[k].status.Unknown?
  }

  lemma {:induction false} UnsuccessfulNotClaimed(j: Journal, ev: Event, id: Uuid)
    requires Inv(j) && Unsuccessful(j, id)
    ensures !Claims(j, ev, id)
  {
    hide RecordOk, StagingOk, TrashOk, TokensMatch, EpochOk, ClaimCheck, ExpiresAt;
    RowIds(j);
  }

  lemma {:induction false} FinishOthers(j: Journal, ev: Event, id: Uuid)
    requires Inv(j) && ev.EvFinish? && Unsuccessful(j, id)
    ensures Unsuccessful(After(j, ev), id)
  {
    hide Settle, TrashAfter, Refresh, RecordOk, StagingOk, TrashOk, TokensMatch, EpochOk;
  }

  lemma {:induction false} BeginOthers(j: Journal, ev: Event, id: Uuid)
    requires Inv(j) && Admissible(j, ev) && ev.EvBegin? && Unsuccessful(j, id)
    ensures Unsuccessful(After(j, ev), id)
  {
    hide Inv, Begin, DropOk, Later;
    StepKeeps(j, ev);
    UsedStays(j, After(j, ev), id);
    forall k | k in After(j, ev).records && k.id == id
      ensures After(j, ev).records[k].status.Failed? || After(j, ev).records[k].status.Unknown?
    {
      BeginStatus(j, ev.c, ev.d, ev.start, ev.draw, k);
    }
  }

  lemma {:induction false} UsedStays(j: Journal, e: Journal, id: Uuid)
    requires Later(j, e) && id in j.used
    ensures id in e.used
  {
    hide RecordsLater, TokensLater, EpochLater;
  }

  /** A record that begin leaves is new, resumed after a success, or as it was. */
  lemma {:induction false} BeginStatus(j: Journal, c: Config, d: Tables.Db, s: Start, w: Draw, k: Key)
    requires k in Begin(j, c, d, s, w).journal.records
    ensures k.id == w.id || (k in j.records && (j.records[k].status.Success? || Begin(j, c, d, s, w).journal.records[k] == j.records[k]))
  {
    hide BeginCheck, Insert;
    if Begin(j, c, d, s, w) == Insert(j, c, s, w) {
      InsertRowOrOld(j, c, s, w, k);
    }
  }

  lemma {:induction false} StaysUnsuccessful(j: Journal, ev: Event, id: Uuid)
    requires Inv(j) && Admissible(j, ev) && Unsuccessful(j, id)
    ensures Unsuccessful(After(j, ev), id)
  {
    hide Inv, Begin, Finish, ClaimUndo, Admissible;
    match ev {
      case EvBegin(_, _, _, _) => BeginOthers(j, ev, id);
      case EvFinish(_, _, _, _) => FinishOthers(j, ev, id);
      case EvClaim(_, _, _, _, _) => ClaimOthers(j, ev, id);
      case _ =>
    }
  }

  lemma {:induction false} ClaimOthers(j: Journal, ev: Event, id: Uuid)
    requires Inv(j) && ev.EvClaim? && Unsuccessful(j, id)
    ensures Unsuccessful(After(j, ev), id)
  {
    hide RecordOk, StagingOk, TrashOk, TokensMatch, EpochOk, ClaimCheck, Unavailable;
  }

  lemma {:induction false} UnsuccessfulRun(j: Journal, run: seq<Event>, id: Uuid)
    requires Inv(j) && AdmissibleRun(j, run) && Unsuccessful(j, id)
    ensures ClaimCount(j, run, id) == 0
    decreases |run|
  {
    hide Inv, Later, After, Admissible, Claims, Unsuccessful;
    if run != [] {
      StepKeeps(j, run[0]);
      UnsuccessfulNotClaimed(j, run[0], id);
      StaysUnsuccessful(j, run[0], id);
      UnsuccessfulRun(After(j, run[0]), run[1..], id);
    }
  }

  /** An operation whose answer was not a success is claimed in no run after it, and its staging token outlives that answer. */
  lemma {:induction false} FailureNotUndone(j: Journal, ev: Event, run: seq<Event>, t: Token)
    requires Inv(j) && ev.EvFinish? && Finish(j, ev.record, ev.reply, ev.at, ev.fits).result.Ok?
    requires !(ev.reply.Some? && ev.reply.value.success) && AdmissibleRun(After(j, ev), run)
    ensures ClaimCount(After(j, ev), run, ev.record.id) == 0
    ensures t in j.staging ==> t in After(j, ev).staging
  {
    hide Inv, Later, After, AdmissibleRun, Unsuccessful;
    StepKeeps(j, ev);
    FailureRecorded(j, ev);
    FailureKeepsTokens(j, ev, t);
    UnsuccessfulRun(After(j, ev), run, ev.record.id);
  }

  lemma {:induction false} FailureRecorded(j: Journal, ev: Event)
    requires Inv(j) && ev.EvFinish? && Finish(j, ev.record, ev.reply, ev.at, ev.fits).result.Ok?
    requires !(ev.reply.Some? && ev.reply.value.success)
    ensures Unsuccessful(After(j, ev), ev.record.id)
  {
    hide Settle, TrashAfter, Refresh, RecordOk, StagingOk, TrashOk, TokensMatch, EpochOk;
    RowIds(j);
    ReplyDecides(j.records[KeyOf(ev.record)], ev.reply, ev.at);
  }

  lemma {:induction false} FailureKeepsTokens(j: Journal, ev: Event, t: Token)
    requires ev.EvFinish? && Finish(j, ev.record, ev.reply, ev.at, ev.fits).result.Ok?
    requires !(ev.reply.Some? && ev.reply.value.success)
    ensures t in j.staging ==> t in After(j, ev).staging
  {
    hide Settle, TrashAfter;
    ReplyDecides(j.records[KeyOf(ev.record)], ev.reply, ev.at);
  }

  // ---------- Claiming an undo ----------

  /** The operations that a claim may undo: finished, reversible, unclaimed, of this epoch, in time and observed as they are named. */
  predicate Claimable(r: Record, hours: nat, epoch: Uuid, at: nat, expected: string) {
    && r.status.Success? && (r.action.MoveAction? || r.action.RenameAction? || r.action.TrashAction? || r.action.ChmodAction?)
    && r.undo.None? && r.epoch == Some(epoch) && at < r.created + hours * 3600 && at < U64_MAX
    && r.before.Some? && r.after.Some? && r.after.value.digest == expected
    && if r.action.ChmodAction? then r.oldMode.Some? && r.oldMode.value < 512
       else r.target.Some? && r.before.value.FullyObserved() && r.after.value.FullyObserved()
            && r.before.value.device == r.after.value.device && r.before.value.inode == r.after.value.inode
            && r.before.value.kind == r.after.value.kind
  }

  /** The undo window of an account: its own choice within the configured maximum. */
  function Window(c: Config, d: Tables.Db, account: Id): nat {
    var chosen := if account in d.accounts then d.accounts[account].undoHours else None;
    if chosen.Some? && chosen.value < c.undoMaxHours then chosen.value else c.undoMaxHours
  }

  lemma {:induction false} ClaimableIff(r: Record, c: Config, d: Tables.Db, account: Id, epoch: Uuid, at: nat, expected: string)
    requires ConfigOk(c)
    ensures Claimable(r, Window(c, d, account), epoch, at, expected) <==>
      && Undoable(r, if account in d.accounts then d.accounts[account].undoHours else None, c, epoch, at)
      && r.after.Some? && r.after.value.digest == expected
  {
    var hours := if account in d.accounts then d.accounts[account].undoHours else None;
    assert EffectiveHours(hours, c) == Window(c, d, account);
    assert Window(c, d, account) * 3600 <= 876000 * 3600;
  }

  lemma {:induction false} OneRecord(j: Journal, account: Id, operation: string, k: Key)
    requires Inv(j) && Names(j, account, operation, k)
    ensures Named(j, account, operation) == Some(k)
  {
    hide Text, Parse, RecordOk, StagingOk, TrashOk, TokensMatch, EpochOk;
    var o := Named(j, account, operation).value;
    ParseText(k.id);
    ParseText(o.id);
  }

  /** A claim of one's own operation is accepted exactly if it is claimable and names the state that was observed. */
  lemma {:induction false} ClaimDecided(j: Journal, ev: Event, actor: Id, k: Key)
    requires Inv(j) && ev.EvClaim? && ClaimCheck(ev.c, ev.d, ev.claim) == Ok(actor)
    requires k in j.records && k.account == actor && Text(k.id) == ev.claim.operation
    ensures var turn := ClaimUndo(j, ev.c, ev.d, ev.claim, ev.fits, ev.drawn);
      && (turn.result.Ok? <==>
            ev.fits && Claimable(j.records[k], Window(ev.c, ev.d, actor), EpochOf(j, ev.drawn), ev.claim.at, ev.claim.expected))
      && (turn.result.Ok? ==>
            && turn.result.value == j.records[k].(undo := Some(Pending))
            && turn.journal.records == j.records[k := turn.result.value]
            && turn.journal.staging == j.staging && turn.journal.trash == j.trash)
  {
    hide Inv, Text, Parse, ConfigOk, IsDigest, Tables.Authorized, Undoable, Claimable, Window;
    OneRecord(j, actor, ev.claim.operation, k);
    ClaimableIff(j.records[k], ev.c, ev.d, actor, EpochOf(j, ev.drawn), ev.claim.at, ev.claim.expected);
  }

  /** Which claims are looked at: a well-formed operation id and digest, from a live account. */
  lemma {:induction false} ClaimNeeds(j: Journal, ev: Event)
    requires ev.EvClaim?
    ensures ClaimCheck(ev.c, ev.d, ev.claim).Ok? <==>
      && ConfigOk(ev.c) && Parse(ev.claim.operation).Some?
      && |ev.claim.expected| == 64 && (forall i :: 0 <= i < 64 ==> DigitValue(ev.claim.expected[i]).Some?)
      && ev.claim.authority.Account? && ev.claim.authority.id in ev.d.accounts
      && var row := ev.d.accounts[ev.claim.authority.id];
         row.generation == ev.claim.authority.generation && row.login && row.status.Active?
    ensures ClaimCheck(ev.c, ev.d, ev.claim).Ok? ==> ClaimCheck(ev.c, ev.d, ev.claim) == Ok(ev.claim.authority.id)
    ensures ClaimCheck(ev.c, ev.d, ev.claim).Err? ==> After(j, ev) == j
  {
    hide ConfigOk, Parse, DigitValue, Undoable;
  }

  /** Who may claim: the live account whose operation it is; nobody reaches another account's records. */
  lemma {:induction false} ClaimsOwn(j: Journal, ev: Event, id: Uuid)
    requires Inv(j) && Claims(j, ev, id)
    ensures ev.claim.authority.Account? && Tables.Authorized(ev.d, ev.claim.authority).Ok?
    ensures exists k :: k in j.records && k.id == id && k.account == ev.claim.authority.id && Text(id) == ev.claim.operation
  {
    hide Undoable, RecordOk, StagingOk, TrashOk, TokensMatch, EpochOk, Text, Parse, IsDigest, ConfigOk;
    RowIds(j);
    var k := Named(j, ev.claim.authority.id, ev.claim.operation).value;
    assert k in j.records && k.id == id;
  }

  // ---------- Settling an undo ----------

  function UndoOutcome(success: Option<bool>): Status {
    if success == Some(true) then Success else if success == Some(false) then Failed else Unknown
  }

  /** The undo's outcome is the worker's; its trash token goes exactly with a trash operation that is undone. */
  lemma {:induction false} UndoRecorded(j: Journal, ev: Event, other: Key, t: Token)
    requires ev.EvFinishUndo? && FinishUndo(j, ev.record, ev.success, ev.at, ev.fits).result.Ok?
    ensures var e, k := After(j, ev), KeyOf(ev.record);
      && k in j.records && j.records[k].undo == Some(Pending) && k in e.records
      && e.records[k].undo == Some(UndoOutcome(ev.success)) && e.records[k].status == j.records[k].status
      && e.staging == j.staging
      && (t in e.trash <==> t in j.trash && !(j.records[k].action.TrashAction? && ev.success == Some(true) && t == TokenOf(j.records[k])))
      && (t in e.trash ==> e.trash[t] == j.trash[t])
      && (other != k ==> (other in e.records <==> other in j.records)
                         && (other in j.records ==> e.records[other] == j.records[other]))
  {
  }

  /** Once settled, the outcome of an undo is never rewritten. */
  lemma {:induction false} UndoOutcomeLasts(j: Journal, ev: Event, run: seq<Event>)
    requires Inv(j) && ev.EvFinishUndo? && FinishUndo(j, ev.record, ev.success, ev.at, ev.fits).result.Ok?
    requires AdmissibleRun(After(j, ev), run) && KeyOf(ev.record) in Final(After(j, ev), run).records
    ensures Final(After(j, ev), run).records[KeyOf(ev.record)].undo == Some(UndoOutcome(ev.success))
  {
    hide Inv, AdmissibleRun, Final, After, SameOperation, RangeLater, TokensLater, EpochLater;
    StepKeeps(j, ev);
    UndoRecorded(j, ev, KeyOf(ev.record), TokenOf(ev.record));
    RunKeeps(After(j, ev), run);
    RowIds(After(j, ev));
  }

  // ---------- Beginning ----------

  /** A new record is pending and says what was asked for, and for which commands it can ever be undone. */
  predicate Describes(r: Record, s: Start, id: Uuid, epoch: Uuid) {
    var q := s.request;
    && r.id == id && r.account == s.account && r.generation == s.generation
    && r.created == s.at && r.updated == s.at && r.request == q.id && r.root == q.root && r.source == q.source
    && r.status.Pending? && r.undo.None? && r.before.None? && r.after.None? && r.bytesRead == 0 && r.bytesWritten == 0
    && r.epoch == Some(epoch) && !r.stagingReview && !r.trashReview
    && (r.next.Some? <==> q.command.ReadFileRange? && q.offset.Some?) && (r.next.Some? ==> r.next == q.offset)
    && (Reversible(r.action) <==> q.command.Move? || q.command.Rename? || q.command.MoveToTrash? || q.command.Chmod?)
    && (r.action.TrashAction? <==> q.command.MoveToTrash?)
    && (q.command.MoveToTrash? ==> r.target == Some(TrashPath(id)))
    && (r.staging.Some? <==> Staged(q.command) && Destination(q).Some?)
  }

  lemma {:induction false} NewRecordDescribes(s: Start, id: Uuid, epoch: Uuid)
    ensures Describes(NewRecord(s.request, s.account, s.generation, s.at, id, epoch), s, id, epoch)
  {
    hide StagingStem, TrashPath, Under;
  }

  lemma {:induction false} InsertWrites(j: Journal, c: Config, s: Start, w: Draw)
    requires Insert(j, c, s, w).result.Ok?
    ensures var e, r := Insert(j, c, s, w).journal, Insert(j, c, s, w).result.value;
      && r == NewRecord(s.request, s.account, s.generation, s.at, w.id, EpochOf(j, w.epoch))
      && KeyOf(r) in e.records && e.records[KeyOf(r)] == r && e.epoch == Some(EpochOf(j, w.epoch))
      && (r.action.TrashAction? ==> TokenOf(r) in e.trash && e.trash[TokenOf(r)] == r)
      && (r.staging.Some? && !r.action.TrashAction? ==> TokenOf(r) in e.staging && e.staging[TokenOf(r)] == r)
  {
    hide Room, TokensFull, NewRecord;
  }

  lemma {:induction false} BeginRecorded(j: Journal, ev: Event)
    requires ev.EvBegin? && Begin(j, ev.c, ev.d, ev.start, ev.draw).result.Ok?
    requires !ev.start.request.command.ReadFileRange? || Latest(j.records, ev.start.account, ev.start.request.id).None?
    ensures var e, r := After(j, ev), Begin(j, ev.c, ev.d, ev.start, ev.draw).result.value;
      && e.epoch.Some? && (j.epoch.Some? ==> e.epoch == j.epoch) && Describes(r, ev.start, ev.draw.id, e.epoch.value)
      && KeyOf(r) in e.records && e.records[KeyOf(r)] == r
      && (r.action.TrashAction? ==> TokenOf(r) in e.trash && e.trash[TokenOf(r)] == r)
      && (r.staging.Some? && !r.action.TrashAction? ==> TokenOf(r) in e.staging && e.staging[TokenOf(r)] == r)
  {
    hide BeginCheck, Insert, NewRecord, Describes, Latest;
    InsertWrites(j, ev.c, ev.start, ev.draw);
    NewRecordDescribes(ev.start, ev.draw.id, EpochOf(j, ev.draw.epoch));
  }

  /** Who may begin what: a live account, its own identity, a tracked command and paths of bounded length. */
  lemma {:induction false} BeginNeeds(j: Journal, ev: Event)
    requires ev.EvBegin?
    ensures BeginCheck(ev.c, ev.d, ev.start).Ok? <==>
      && ConfigOk(ev.c) && ev.c.enabled && !ev.start.request.command.OtherCommand? && ev.start.matching
      && SubidText.Bytes(ev.start.request.source) <= 4096
      && (ev.start.request.target.Some? ==> SubidText.Bytes(ev.start.request.target.value) <= 4096)
      && ev.start.account in ev.d.accounts
      && var row := ev.d.accounts[ev.start.account];
         row.generation == ev.start.generation && row.login && row.status.Active?
         && (ev.start.request.command.ReadFileRange? ==> ev.start.request.offset.Some? && ev.start.request.chunk > 0)
    ensures BeginCheck(ev.c, ev.d, ev.start).Err? ==> After(j, ev) == j && Begin(j, ev.c, ev.d, ev.start, ev.draw).result.Err?
  {
    hide ConfigOk, SubidText.Bytes, Insert, Latest, Resumable;
  }

  // ---------- Sweeps ----------

  lemma {:induction false} TokenAccount(j: Journal, t: Token)
    requires Inv(j)
    ensures t in j.staging ==> j.staging[t].account == t.account
    ensures t in j.trash ==> j.trash[t].account == t.account
  {
    hide RecordOk, RecordsOk, TokensMatch, EpochOk;
  }

  /** A cleanup removes a staging token when the worker has cleaned up for a live account, or the account is purged. */
  lemma {:induction false} StagingSwept(j: Journal, d: Tables.Db, token: Token, worker: bool, fits: bool, other: Token)
    requires Inv(j) && CleanStaging(j, d, token, worker, fits).result.Ok?
    ensures token in j.staging && token.account in d.accounts
    ensures var e, status := CleanStaging(j, d, token, worker, fits).journal, d.accounts[token.account].status;
      && e == j.(staging := e.staging)
      && (other != token ==> (other in e.staging <==> other in j.staging) && (other in e.staging ==> e.staging[other] == j.staging[other]))
      && (token !in e.staging <==> (status.Deleted? && token.account in d.purged) || (status.Active? && worker))
      && (token in e.staging ==>
            e.staging[token] == j.staging[token].(stagingReview := j.staging[token].stagingReview || (status.Active? && !worker)))
  {
    hide Inv;
    TokenAccount(j, token);
  }

  /** Trash that may be expired: an operation that succeeded, is not undone, was seen as it is and is old enough. */
  predicate Aged(r: Record, hours: nat, at: nat) {
    && r.action.TrashAction? && r.status.Success? && (r.undo.None? || r.undo == Some(Failed))
    && (r.created + hours * 3600 <= at || r.created == 0)
    && r.after.Some? && (r.after.value.kind.RegularFile? || (r.after.value.kind.Directory? && r.after.value.tree.Some?))
    && TrashTarget(r).Ok?
  }

  lemma {:induction false} DueIsAged(l: Lifecycle, r: Record, at: nat)
    requires LifecycleOk(l)
    ensures TrashDue(r, l.trashHours, at) <==> Aged(r, l.trashHours, at)
  {
    hide TrashTarget;
    assert l.trashHours * 3600 <= 876000 * 3600;
  }

  lemma {:induction false} TrashSwept(j: Journal, d: Tables.Db, l: Lifecycle, token: Token, at: nat, worker: bool, fits: bool,
                                      other: Token)
    requires Inv(j) && LifecycleOk(l) && CleanTrash(j, d, l, token, at, worker, fits).result.Ok?
    ensures token in j.trash && token.account in d.accounts
    ensures var e, status := CleanTrash(j, d, l, token, at, worker, fits).journal, d.accounts[token.account].status;
      var expire := l.trashEnabled && Aged(j.trash[token], l.trashHours, at) && status.Active?;
      && e == j.(trash := e.trash)
      && (other != token ==> (other in e.trash <==> other in j.trash) && (other in e.trash ==> e.trash[other] == j.trash[other]))
      && (token !in e.trash <==> (status.Deleted? && token.account in d.purged) || (expire && worker))
      && (token in e.trash ==> e.trash[token] == j.trash[token].(trashReview := j.trash[token].trashReview || (expire && !worker)))
  {
    hide Inv, TrashDue, Aged;
    TokenAccount(j, token);
    if token in j.trash {
      DueIsAged(l, j.trash[token], at);
    }
  }

  // ---------- Ages ----------

  /** What the sweeps select: rows that are old enough and not left for review. */
  lemma {:induction false} SelectedIsOld(r: Record, hours: nat, at: nat)
    ensures StagingSelected(r, Cutoff(at, hours)) <==> !r.stagingReview && (r.created + hours * 3600 <= at || r.created == 0)
    ensures TrashSelected(r, Cutoff(at, hours)) <==>
      !r.trashReview && r.action.TrashAction? && r.status.Success? && (r.created + hours * 3600 <= at || r.created == 0)
  {
  }

  /** Expired rows are those whose retention has fully passed. */
  lemma {:induction false} ExpiredIsOld(j: Journal, c: Config, account: Id, at: nat, k: Key)
    ensures k in ExpiredKeys(j.records, account, Cutoff(at, c.retentionHours)) <==>
      k in j.records && k.account == account && j.records[k].created + c.retentionHours * 3600 < at
    ensures Expire(j, c, k, at).result.Ok? <==>
      ConfigOk(c) && k in j.records && j.records[k].created + c.retentionHours * 3600 < at && at - c.retentionHours * 3600 <= I64_MAX
    ensures Expire(j, c, k, at).result.Ok? ==> Expire(j, c, k, at).journal == j.(records := j.records - {k})
    ensures Expire(j, c, k, at).result.Err? ==> Expire(j, c, k, at).journal == j
  {
    hide ConfigOk;
  }
}
