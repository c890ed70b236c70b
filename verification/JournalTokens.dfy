/** Cleanup tokens outlive their records, and range records count one unbroken stretch. */
module JournalTokens {
  import opened Types
  import opened Uuids
  import opened JournalRecords
  import opened JournalOps
  import opened JournalInvariant
  import opened JournalPreservation
  import opened JournalTheorems
  import opened JournalOutcomes
  import Tables
  import SubidText

  // ---------- Staging tokens ----------

  /** The operation succeeded, its leftovers were cleaned, or its account was purged. */
  ghost predicate Releases(j: Journal, ev: Event, t: Token) {
    match ev
    case EvFinish(record, reply, at, fits) =>
      TokenOf(record) == t && reply.Some? && reply.value.success && Finish(j, record, reply, at, fits).result.Ok?
    case EvCleanStaging(d, token, worker, fits) =>
      token == t && t.account in d.accounts &&
      (worker || (d.accounts[t.account].status.Deleted? && t.account in d.purged))
    case _ => false
  }

  ghost predicate Unreleased(j: Journal, run: seq<Event>, t: Token)
    decreases |run|
  {
    run != [] ==> !Releases(j, run[0], t) && Unreleased(After(j, run[0]), run[1..], t)
  }

  lemma {:induction false} FinishHoldsToken(j: Journal, record: Record, reply: Option<Reply>, at: nat, fits: bool, t: Token)
    requires t in j.staging && !Releases(j, EvFinish(record, reply, at, fits), t)
    ensures t in Finish(j, record, reply, at, fits).journal.staging
  {
    hide Settle, TrashAfter;
    if KeyOf(record) in j.records && Settle(j.records[KeyOf(record)], reply, at).Ok? {
      ReplyDecides(j.records[KeyOf(record)], reply, at);
    }
  }

  lemma {:induction false} BeginHoldsToken(j: Journal, c: Config, d: Tables.Db, s: Start, w: Draw, t: Token)
    requires t in j.staging
    ensures t in Begin(j, c, d, s, w).journal.staging
  {
    hide BeginCheck, Room, Resumable, TokensFull, NewRecord;
  }

  lemma {:induction false} ClaimHoldsToken(j: Journal, c: Config, d: Tables.Db, q: Claim, fits: bool, drawn: Uuid)
    ensures ClaimUndo(j, c, d, q, fits, drawn).journal.staging == j.staging
  {
    hide ClaimCheck, Unavailable;
  }

  lemma {:induction false} TokenHeld(j: Journal, ev: Event, t: Token)
    requires Inv(j) && t in j.staging && !Releases(j, ev, t)
    ensures t in After(j, ev).staging
  {
    hide Begin, Finish, ClaimUndo, RecordOk, RecordsOk, TrashOk, TokensMatch, TrashSweep, EpochOk;
    match ev {
      case EvClaim(c, d, claim, fits, drawn) => ClaimHoldsToken(j, c, d, claim, fits, drawn);
      case EvBegin(c, d, start, draw) => BeginHoldsToken(j, c, d, start, draw, t);
      case EvFinish(record, reply, at, fits) => FinishHoldsToken(j, record, reply, at, fits, t);
      case _ =>
    }
  }

  lemma {:induction false} TokenPersists(j: Journal, run: seq<Event>, t: Token)
    requires Inv(j) && AdmissibleRun(j, run) && t in j.staging && Unreleased(j, run, t)
    ensures t in Final(j, run).staging && SameOperation(j.staging[t], Final(j, run).staging[t])
    decreases |run|
  {
    hide Inv, After, Admissible, Releases, SameOperation;
    RunKeeps(j, run);
    if run == [] {
      assert SameOperation(j.staging[t], j.staging[t]) by {
        Unchanged(j.staging[t]);
      }
    } else {
      TokenHeld(j, run[0], t);
      StepKeeps(j, run[0]);
      TokenPersists(After(j, run[0]), run[1..], t);
    }
  }

  lemma {:induction false} Unchanged(r: Record)
    ensures SameOperation(r, r)
  {
  }

  /** In every journal that a run reaches, stage_target accepts every staging token and answers with its path. */
  lemma {:induction false} TokenAccepted(run: seq<Event>, t: Token)
    requires AdmissibleRun(EMPTY, run) && t in Final(EMPTY, run).staging
    ensures var r := Final(EMPTY, run).staging[t]; StageTarget(r).Ok? && Some(StageTarget(r).value.0) == r.staging
  {
    hide Inv, Later, AdmissibleRun, Final, StageTarget;
    EmptyInv();
    RunKeeps(EMPTY, run);
    TokenStaged(Final(EMPTY, run), t);
  }

  lemma {:induction false} TokenStaged(j: Journal, t: Token)
    requires Inv(j) && t in j.staging
    ensures StageTarget(j.staging[t]).Ok? && Some(StageTarget(j.staging[t]).value.0) == j.staging[t].staging
  {
    hide StagingStem, RecordsOk, TrashOk, TokensMatch, EpochOk, TrashPath;
    assert RecordOk(j.used, j.staging[t]);
  }

  lemma {:induction false} SameTarget(r: Record, s: Record)
    requires SameOperation(r, s) && StageTarget(r).Ok? && StageTarget(s).Ok?
    ensures StageTarget(r) == StageTarget(s)
  {
    hide StagingStem;
  }

  lemma {:induction false} BeginWritesToken(j: Journal, c: Config, d: Tables.Db, s: Start, w: Draw)
    requires Begin(j, c, d, s, w).result.Ok? && StagingPath(s.request, w.id).Some?
    ensures var e := Begin(j, c, d, s, w);
            && TokenOf(e.result.value) == Token(s.account, w.id) && Token(s.account, w.id) in e.journal.staging
            && e.journal.staging[Token(s.account, w.id)] == e.result.value
            && e.result.value == NewRecord(s.request, s.account, s.generation, s.at, w.id, EpochOf(j, w.epoch))
  {
    hide BeginCheck, Room, Resumable, TokensFull, TargetPath, StagingStem;
    assert !s.request.command.ReadFileRange?;
  }

  /**
    From the moment a staged operation begins until it succeeds, is cleaned up or its account is purged,
    its token is there, whatever happens to its record, and names the path that begin_operation chose.
   */
  lemma {:induction false} StagingTokenUntilReleased(j: Journal, c: Config, d: Tables.Db, s: Start, w: Draw, run: seq<Event>)
    requires Inv(j) && Admissible(j, EvBegin(c, d, s, w))
    requires Begin(j, c, d, s, w).result.Ok? && StagingPath(s.request, w.id).Some?
    requires AdmissibleRun(Begin(j, c, d, s, w).journal, run)
    requires Unreleased(Begin(j, c, d, s, w).journal, run, Token(s.account, w.id))
    ensures var e, t := Final(Begin(j, c, d, s, w).journal, run), Token(s.account, w.id);
            t in e.staging && StageTarget(e.staging[t]) == Ok((StagingPath(s.request, w.id).value, Destination(s.request).value))
  {
    hide Inv, Begin, StageTarget, NewRecord, SameOperation, StagingShape, Later;
    StepKeeps(j, EvBegin(c, d, s, w));
    BeginWritesToken(j, c, d, s, w);
    var b, t := Begin(j, c, d, s, w), Token(s.account, w.id);
    StagedPathAccepted(s.request, s.account, s.generation, s.at, w.id, EpochOf(j, w.epoch));
    TokenPersists(b.journal, run, t);
    RunKeeps(b.journal, run);
    TokenStaged(Final(b.journal, run), t);
    SameTarget(b.result.value, Final(b.journal, run).staging[t]);
  }

  /** Every trash token allows exactly the trash path of its own operation. */
  lemma {:induction false} TrashTokenTarget(run: seq<Event>, t: Token)
    requires AdmissibleRun(EMPTY, run) && t in Final(EMPTY, run).trash
    ensures TrashTarget(Final(EMPTY, run).trash[t]) == Ok(TrashPath(t.id))
  {
    hide Inv, Later, AdmissibleRun, Final, TrashTarget, TrashPath;
    EmptyInv();
    RunKeeps(EMPTY, run);
    TokenTrashed(Final(EMPTY, run), t);
  }

  lemma {:induction false} TokenTrashed(j: Journal, t: Token)
    requires Inv(j) && t in j.trash
    ensures TrashTarget(j.trash[t]) == Ok(TrashPath(t.id))
  {
    hide StagingShape, RecordsOk, StagingOk, TokensMatch, EpochOk, TrashPath;
    TrashPathAccepted(j.trash[t]);
  }

  // ---------- Ranges ----------

  datatype Piece = Piece(offset: nat, length: nat)

  /** The stretch that one event delivers for the record at k, if it delivers one. */
  ghost function Delivers(j: Journal, ev: Event, k: Key): Option<Piece> {
    if ev.EvFinish? && k in j.records && j.records[k].next.Some? && KeyOf(ev.record) == k
       && Finish(j, ev.record, ev.reply, ev.at, ev.fits).result.Ok? && ev.reply.Some? && ev.reply.value.success
       && ev.reply.value.payload.FileRange?
    then Some(Piece(ev.reply.value.payload.offset, ev.reply.value.payload.length)) else None
  }

  ghost function Pieces(j: Journal, run: seq<Event>, k: Key): seq<Piece>
    decreases |run|
  {
    if run == [] then [] else
    var rest := Pieces(After(j, run[0]), run[1..], k);
    match Delivers(j, run[0], k)
    case Some(p) => [p] + rest
    case None => rest
  }

  /** Each piece starts where the previous one ended. */
  predicate Contiguous(start: nat, pieces: seq<Piece>, end: nat)
    decreases |pieces|
  {
    if pieces == [] then start == end
    else pieces[0].offset == start && Contiguous(start + pieces[0].length, pieces[1..], end)
  }

  predicate RangeAt(j: Journal, k: Key, next: nat) {
    k in j.records && j.records[k].next == Some(next)
  }

  lemma {:induction false} SettledNext(r: Record, reply: Option<Reply>, at: nat)
    requires r.next.Some? && Settle(r, reply, at).Ok?
    ensures Settle(r, reply, at).value.next ==
            Some(r.next.value + if reply.Some? && reply.value.success && reply.value.payload.FileRange?
                                then reply.value.payload.length else 0)
    ensures reply.Some? && reply.value.success ==>
      reply.value.payload.FileRange? && reply.value.payload.offset == r.next.value
  {
    hide Text, TrashPath;
  }

  lemma {:induction false} FinishRange(j: Journal, ev: Event, k: Key, next: nat)
    requires Inv(j) && ev.EvFinish? && RangeAt(j, k, next) && k in After(j, ev).records
    ensures match Delivers(j, ev, k)
            case Some(p) => p.offset == next && RangeAt(After(j, ev), k, next + p.length)
            case None => RangeAt(After(j, ev), k, next)
  {
    hide Inv, Settle, TrashAfter, Refresh;
    if Finish(j, ev.record, ev.reply, ev.at, ev.fits).result.Ok? && KeyOf(ev.record) == k {
      SettledNext(j.records[k], ev.reply, ev.at);
    }
  }

  lemma {:induction false} OtherRange(j: Journal, ev: Event, k: Key, next: nat)
    requires Inv(j) && Admissible(j, ev) && !ev.EvFinish? && RangeAt(j, k, next) && k in After(j, ev).records
    ensures RangeAt(After(j, ev), k, next)
  {
    hide Begin, Unavailable, ClaimCheck, TrashSweep, StagingSweep, RecordsOk, StagingOk, TrashOk, TokensMatch, DropOk;
    if ev.EvBegin? {
      RowIds(j);
      BeginRow(j, ev.c, ev.d, ev.start, ev.draw, k);
    }
  }

  lemma {:induction false} RangeStep(j: Journal, ev: Event, k: Key, next: nat)
    requires Inv(j) && Admissible(j, ev) && RangeAt(j, k, next) && k in After(j, ev).records
    ensures match Delivers(j, ev, k)
            case Some(p) => p.offset == next && RangeAt(After(j, ev), k, next + p.length)
            case None => RangeAt(After(j, ev), k, next)
  {
    hide Inv, RangeAt, Finish, Begin;
    if ev.EvFinish? {
      FinishRange(j, ev, k, next);
    } else {
      OtherRange(j, ev, k, next);
    }
  }

  /** Once a row is gone its key never comes back. */
  lemma {:induction false} GoneStaysGone(j: Journal, e: Journal, k: Key)
    requires Later(j, e) && k.id in j.used && k !in j.records
    ensures k !in e.records
  {
    hide RecordLater;
  }

  lemma {:induction false} PresentThroughout(j: Journal, run: seq<Event>, k: Key)
    requires Inv(j) && AdmissibleRun(j, run) && run != [] && k in j.records && k in Final(j, run).records
    ensures k in After(j, run[0]).records
  {
    hide Inv, Later, After, Admissible;
    StepKeeps(j, run[0]);
    RunKeeps(After(j, run[0]), run[1..]);
    RowIds(j);
    assert k.id in After(j, run[0]).used by {
      UsedGrows(j, After(j, run[0]));
    }
    if k !in After(j, run[0]).records {
      GoneStaysGone(After(j, run[0]), Final(j, run), k);
    }
  }

  lemma {:induction false} UsedGrows(j: Journal, e: Journal)
    requires Later(j, e)
    ensures j.used <= e.used
  {
    hide RecordsLater, TokensLater, EpochLater;
  }

  /** While a range record lasts, what has been delivered is one unbroken stretch, in order and without overlap. */
  lemma {:induction false} PiecesContiguous(j: Journal, run: seq<Event>, k: Key)
    requires Inv(j) && AdmissibleRun(j, run)
    requires k in j.records && j.records[k].next.Some? && k in Final(j, run).records
    ensures Final(j, run).records[k].next.Some?
    ensures Contiguous(j.records[k].next.value, Pieces(j, run, k), Final(j, run).records[k].next.value)
    decreases |run|
  {
    hide Inv, Later, After, Admissible, Delivers;
    if run != [] {
      StepKeeps(j, run[0]);
      PresentThroughout(j, run, k);
      RangeStep(j, run[0], k, j.records[k].next.value);
      PiecesContiguous(After(j, run[0]), run[1..], k);
      var rest := Pieces(After(j, run[0]), run[1..], k);
      match Delivers(j, run[0], k) {
        case Some(p) => assert Pieces(j, run, k)[1..] == rest;
        case None =>
      }
    }
  }

  /** The bytes counted by a range record are its next offset minus the offset it began at. */
  lemma {:induction false} RangeCountsBytes(j: Journal, c: Config, d: Tables.Db, s: Start, w: Draw, run: seq<Event>)
    requires Inv(j) && Admissible(j, EvBegin(c, d, s, w)) && s.request.command.ReadFileRange?
    requires Begin(j, c, d, s, w).result.Ok? && Latest(j.records, s.account, s.request.id).None?
    requires AdmissibleRun(Begin(j, c, d, s, w).journal, run)
    ensures var e, k := Final(Begin(j, c, d, s, w).journal, run), KeyOf(Begin(j, c, d, s, w).result.value);
            k in e.records ==> e.records[k].next.Some? && s.request.offset.Some?
                               && e.records[k].bytesRead == e.records[k].next.value - s.request.offset.value
  {
    hide Inv, Begin, TokensLater, EpochLater;
    StepKeeps(j, EvBegin(c, d, s, w));
    FirstRange(j, c, d, s, w);
    RunKeeps(Begin(j, c, d, s, w).journal, run);
    RowIds(Begin(j, c, d, s, w).journal);
  }

  lemma {:induction false} FirstRange(j: Journal, c: Config, d: Tables.Db, s: Start, w: Draw)
    requires s.request.command.ReadFileRange? && Begin(j, c, d, s, w).result.Ok?
    requires Latest(j.records, s.account, s.request.id).None?
    ensures var e := Begin(j, c, d, s, w);
            && KeyOf(e.result.value) in e.journal.records && e.journal.records[KeyOf(e.result.value)] == e.result.value
            && e.result.value.next == s.request.offset && s.request.offset.Some? && e.result.value.bytesRead == 0
  {
    hide Room, TokensFull, TargetPath, StagingStem, SubidText.Bytes, Tables.Authorized, ConfigOk;
  }

  /**
    A range request that continues a known one is taken up exactly at the recorded next offset, while
    nothing is underway; replays, gaps and overlapping requests are conflicts that change nothing.
   */
  lemma {:induction false} RangeResumesExactly(j: Journal, c: Config, d: Tables.Db, s: Start, w: Draw, k: Key)
    requires Inv(j) && BeginCheck(c, d, s).Ok? && s.request.command.ReadFileRange?
    requires IsLatest(j.records, s.account, s.request.id, k)
    ensures Begin(j, c, d, s, w).result.Ok? ==>
      && j.records[k].status.Success? && j.records[k].next == s.request.offset
      && KeyOf(Begin(j, c, d, s, w).result.value) == k && Begin(j, c, d, s, w).journal.records[k].status.Pending?
    ensures j.records[k].next.Some? && s.request.offset.Some? && s.request.offset.value < j.records[k].next.value ==>
      Begin(j, c, d, s, w) == Turn(j, Err(Conflict))
    ensures j.records[k].next.Some? && s.request.offset.Some? && s.request.offset.value > j.records[k].next.value ==>
      Begin(j, c, d, s, w) == Turn(j, Err(Conflict))
    ensures j.records[k].status.Pending? ==> Begin(j, c, d, s, w) == Turn(j, Err(Conflict))
    ensures Begin(j, c, d, s, w).result.Ok? <==>
      var r, q := j.records[k], s.request;
      && w.fits && r.generation == s.generation && r.root == q.root && r.source == q.source && r.action.DownloadAction?
      && r.status.Success? && r.next == q.offset && s.at <= r.updated + 300
    ensures Begin(j, c, d, s, w).result.Ok? ==>
      Begin(j, c, d, s, w).journal == j.(records := j.records[k := j.records[k].(status := Pending, updated := s.at)])
  {
    hide BeginCheck, RecordOk, StagingOk, TrashOk, TokensMatch, EpochOk;
    LatestIs(j.records, s.account, s.request.id, k);
  }

  lemma {:induction false} LatestIs(records: map<Key, Record>, account: Id, request: nat, k: Key)
    requires IsLatest(records, account, request, k)
    ensures Latest(records, account, request) == Some(k)
  {
    var o := Latest(records, account, request).value;
    assert IsLatest(records, account, request, o);
    assert o != k ==> Before(o, k) && Before(k, o);
  }
}
