/** Streaming a byte range, and the journal's view of the same stream. */
module RangeStream {
  import opened Types
  import SubidText
  import opened RangeHeader
  import opened JournalRecords
  import opened JournalOps
  import opened JournalInvariant
  import opened JournalPreservation
  import opened JournalTheorems
  import opened JournalTokens
  import opened JournalLimits
  import Tables
  import Uuids

  // ---------- The stream ----------

  const STREAM_CHUNK: nat := 1048576

  /** A helper read: nothing on failure, otherwise at most what was asked for, from where it was asked. */
  method ReadRange(file: seq<char>, offset: nat, limit: nat) returns (data: Option<seq<char>>)
    ensures data.Some? ==> offset + |data.value| <= |file| && |data.value| <= limit
    ensures data.Some? ==> data.value == file[offset..offset + |data.value|]
  {
    var length: int := *;
    var ok: bool := *;
    if !ok || length < 0 || length > limit || offset + length > |file| {
      return None;
    }
    data := Some(file[offset..offset + length]);
  }

  /** Whether the session still exists and the transfer has not been cancelled. */
  method Alive() returns (ok: bool) {
    ok := *;
  }

  /**
    The body is the file from start on, in order and without a gap; without an error it is exactly the
    requested length. The loop ends because the remaining count falls with every piece.
   */
  method Stream(file: seq<char>, range: ByteRange, chunk: nat) returns (body: seq<char>, ok: bool, ghost pieces: seq<Piece>)
    requires range.start <= range.end < |file|
    ensures range.start + |body| <= range.end + 1 && body == file[range.start..range.start + |body|]
    ensures ok ==> body == file[range.start..range.end + 1]
    ensures Contiguous(range.start, pieces, range.start + |body|)
    ensures forall i :: 0 <= i < |pieces| ==> 0 < pieces[i].length <= STREAM_CHUNK && pieces[i].length <= chunk
  {
    var offset: nat, remaining: nat := range.start, range.end - range.start + 1;
    body, ok, pieces := [], true, [];
    while remaining != 0
      invariant offset == range.start + |body| && offset + remaining == range.end + 1
      invariant body == file[range.start..offset] && ok
      invariant Contiguous(range.start, pieces, offset)
      invariant forall i :: 0 <= i < |pieces| ==> 0 < pieces[i].length <= STREAM_CHUNK && pieces[i].length <= chunk
      decreases remaining
    {
      var alive := Alive();
      if !alive {
        return body, false, pieces;
      }
      var data := ReadRange(file, offset, Min(Min(STREAM_CHUNK, chunk), remaining));
      if data.None? || data.value == [] {
        return body, false, pieces;
      }
      ContiguousAppend(range.start, pieces, offset, |data.value|);
      pieces := pieces + [Piece(offset, |data.value|)];
      body := body + data.value;
      offset, remaining := offset + |data.value|, remaining - |data.value|;
    }
  }

  lemma {:induction false} ContiguousAppend(start: nat, pieces: seq<Piece>, end: nat, length: nat)
    requires Contiguous(start, pieces, end)
    ensures Contiguous(start, pieces + [Piece(end, length)], end + length)
    decreases |pieces|
  {
    if pieces == [] {
      assert pieces + [Piece(end, length)] == [Piece(end, length)];
      assert [Piece(end, length)][1..] == [];
    } else {
      ContiguousAppend(start + pieces[0].length, pieces[1..], end, length);
      assert (pieces + [Piece(end, length)])[1..] == pieces[1..] + [Piece(end, length)];
    }
  }

  // ---------- The journal accepts exactly this stream ----------

  /**
    One read of the stream: its length, the times at which the journal begins and finishes it, the accounts it is checked
    against, and what else happens to the journal before it and while it is underway.
   */
  datatype Chunk = Chunk(length: nat, beginAt: nat, finishAt: nat, d: Tables.Db, before: seq<Event>, between: seq<Event>)

  function Asking(s: Start, offset: nat, at: nat): Start {
    s.(request := s.request.(offset := Some(offset)), at := at)
  }

  function Arrived(offset: nat, length: nat): Reply {
    Reply(true, FileRange(offset, length), length, 0, None)
  }

  ghost function Began(j: Journal, c: Config, s: Start, w: Draw, offset: nat, chunk: Chunk): Turn {
    Begin(Final(j, chunk.before), c, chunk.d, Asking(s, offset, chunk.beginAt), w)
  }

  ghost function Finished(j: Journal, record: Record, w: Draw, offset: nat, chunk: Chunk): Turn {
    Finish(Final(j, chunk.between), record, Some(Arrived(offset, chunk.length)), chunk.finishAt, w.fits)
  }

  /** Begin and finish every chunk in turn, among everything else; None as soon as the journal refuses one. */
  ghost function Drive(j: Journal, c: Config, s: Start, w: Draw, offset: nat, chunks: seq<Chunk>): Option<Journal>
    decreases |chunks|
  {
    if chunks == [] then Some(j) else
    var b := Began(j, c, s, w, offset, chunks[0]);
    if b.result.Err? then None else
    var f := Finished(b.journal, b.result.value, w, offset, chunks[0]);
    if f.result.Err? then None else Drive(f.journal, c, s, w, offset + chunks[0].length, chunks[1..])
  }

  // ---------- What else may happen ----------

  /** Any event but a begin for the same request and a finish of this very record. */
  predicate Foreign(s: Start, k: Key, ev: Event) {
    && (ev.EvBegin? ==> ev.start.account != s.account || ev.start.request.id != s.request.id)
    && (ev.EvFinish? ==> KeyOf(ev.record) != k)
  }

  /** Foreign events that leave the record there: it is neither rotated out nor expired. */
  ghost predicate Aside(j: Journal, run: seq<Event>, s: Start, k: Key) {
    && AdmissibleRun(j, run) && k in Final(j, run).records
    && forall i :: 0 <= i < |run| ==> Foreign(s, k, run[i])
  }

  /** Nothing that happens around the reads of a stream concerns its record. */
  ghost predicate Undisturbed(j: Journal, c: Config, s: Start, w: Draw, k: Key, offset: nat, chunks: seq<Chunk>)
    decreases |chunks|
  {
    chunks != [] ==>
      && Aside(j, chunks[0].before, s, k)
      && var b := Began(j, c, s, w, offset, chunks[0]);
         b.result.Ok? ==>
           && Aside(b.journal, chunks[0].between, s, k)
           && Undisturbed(Finished(b.journal, b.result.value, w, offset, chunks[0]).journal, c, s, w, k, offset + chunks[0].length, chunks[1..])
  }

  ghost predicate Checked(c: Config, s: Start, chunks: seq<Chunk>) {
    forall i :: 0 <= i < |chunks| ==> BeginCheck(c, chunks[i].d, s).Ok?
  }

  /** Such an event leaves the record as it is, and the latest of its request. */
  lemma {:induction false} ForeignKeeps(j: Journal, ev: Event, s: Start, k: Key)
    requires Inv(j) && Admissible(j, ev) && Foreign(s, k, ev) && k in After(j, ev).records
    requires IsLatest(j.records, s.account, s.request.id, k) && j.records[k].action.DownloadAction?
    ensures After(j, ev).records[k] == j.records[k] && IsLatest(After(j, ev).records, s.account, s.request.id, k)
  {
    hide Inv, Begin, Finish, Expire, ClaimUndo, FinishUndo, CleanTrash, CleanStaging, Restore, IsLatest, Keeps;
    LatestRow(j.records, s, k);
    match ev
    case EvBegin(c, d, start, draw) => ForeignBegin(j, c, d, start, draw, s, k);
    case _ =>
      StepKeeps(j, ev);
      SameRequests(j, After(j, ev));
      OthersAddNothing(j, ev);
      RowStays(j, ev, s, k);
      LatestAmong(j.records, After(j, ev).records, s.account, s.request.id, k);
  }

  lemma {:induction false} SameRequests(j: Journal, e: Journal)
    requires Inv(j) && Keeps(j, e)
    ensures forall o :: o in j.records && o in e.records ==> e.records[o].request == j.records[o].request
  {
    hide Inv, TokensLater, EpochLater, UndoLater, RangeLater;
    RowIds(j);
  }

  /** Fewer rows, or rows changed only outside the request, leave the latest row of a request the latest. */
  lemma {:induction false} LatestAmong(before: map<Key, Record>, after: map<Key, Record>, account: Id, request: nat, k: Key)
    requires IsLatest(before, account, request, k) && k in after && after[k] == before[k]
    requires forall o :: o in after ==> o in before && after[o].request == before[o].request
    ensures IsLatest(after, account, request, k)
  {
    hide Before;
  }

  lemma {:induction false} RowStays(j: Journal, ev: Event, s: Start, k: Key)
    requires Inv(j) && !ev.EvBegin? && Foreign(s, k, ev)
    requires k in j.records && k in After(j, ev).records && j.records[k].action.DownloadAction?
    ensures After(j, ev).records[k] == j.records[k]
  {
    hide Begin, Inv, Finish, Expire, ClaimUndo, FinishUndo, CleanTrash, CleanStaging;
    if ev.EvFinish? {
      FinishRow(j, ev, k);
    } else if ev.EvClaim? {
      ClaimRow(j, ev, k);
    } else if ev.EvFinishUndo? {
      UndoRow(j, ev, k);
    } else if ev.EvExpire? {
      ExpireRow(j, ev);
    } else if ev.EvCleanTrash? || ev.EvCleanStaging? {
      SweepRows(j, ev);
    }
  }

  lemma {:induction false} FinishRow(j: Journal, ev: Event, k: Key)
    requires ev.EvFinish? && KeyOf(ev.record) != k && k in j.records
    ensures k in After(j, ev).records && After(j, ev).records[k] == j.records[k]
  {
    hide Settle, TrashAfter, Refresh, TrashPath;
  }

  /** A download is never undone, so no claim concerns it. */
  lemma {:induction false} ClaimRow(j: Journal, ev: Event, k: Key)
    requires ev.EvClaim? && k in j.records && j.records[k].action.DownloadAction?
    ensures k in After(j, ev).records && After(j, ev).records[k] == j.records[k]
  {
    hide ClaimCheck, EffectiveHours, Undoable, Named;
    NoUndoOfDownloads(j.records[k]);
  }

  lemma {:induction false} NoUndoOfDownloads(r: Record)
    requires r.action.DownloadAction?
    ensures forall hours, c, epoch, at :: !Undoable(r, hours, c, epoch, at)
  {
    hide EffectiveHours, ExpiresAt;
  }

  lemma {:induction false} UndoRow(j: Journal, ev: Event, k: Key)
    requires Inv(j) && ev.EvFinishUndo? && k in j.records && j.records[k].action.DownloadAction?
    ensures k in After(j, ev).records && After(j, ev).records[k] == j.records[k]
  {
    hide StagingShape, StagingOk, TrashOk, TokensMatch, EpochOk, TrashPath;
    assert RecordOk(j.used, j.records[k]);
  }

  lemma {:induction false} ExpireRow(j: Journal, ev: Event)
    requires ev.EvExpire?
    ensures forall o :: o in After(j, ev).records ==> o in j.records && After(j, ev).records[o] == j.records[o]
  {
  }

  lemma {:induction false} SweepRows(j: Journal, ev: Event)
    requires ev.EvCleanTrash? || ev.EvCleanStaging?
    ensures After(j, ev).records == j.records
  {
    hide TrashSweep, StagingSweep;
  }

  /** A row after a begin is an old row, or one of the request that begins. */
  lemma {:induction false} BeginRowOf(j: Journal, c: Config, d: Tables.Db, start: Start, w: Draw, o: Key)
    requires o in Begin(j, c, d, start, w).journal.records
    ensures var r := Begin(j, c, d, start, w).journal.records[o];
      (o in j.records && r == j.records[o]) || (o.account == start.account && r.request == start.request.id)
  {
    hide BeginCheck, Resumable, Full, Oldest, Cutoff, AddToken;
    AddedRows(j, c, start, w);
  }

  lemma {:induction false} AddedRows(j: Journal, c: Config, start: Start, w: Draw)
    ensures forall o :: o in Insert(j, c, start, w).journal.records ==>
      var r := Insert(j, c, start, w).journal.records[o];
      (o in j.records && r == j.records[o]) || (o.account == start.account && r.request == start.request.id)
  {
    hide Room, Cutoff, NewRecord, AddToken;
    NewRecordOf(start.request, start.account, start.generation, start.at, w.id, EpochOf(j, w.epoch));
    var room := Room(j.records, start.account, c, start.at, w.drop);
    if room.Ok? {
      forall o | o in room.value ensures o in j.records && room.value[o] == j.records[o] {
        RoomRows(j, start, c, start.at, w.drop, o);
      }
      var r := NewRecord(start.request, start.account, start.generation, start.at, w.id, EpochOf(j, w.epoch));
      var based := WithEpoch(j, w.epoch);
      TokenRows(based.(records := room.value[KeyOf(r) := r], used := based.used + {w.id}), r, c);
    }
  }

  lemma {:induction false} NewRecordOf(request: Request, account: Id, generation: nat, at: nat, id: Uuids.Uuid, epoch: Uuids.Uuid)
    ensures var r := NewRecord(request, account, generation, at, id, epoch); r.account == account && r.request == request.id
  {
    hide StagingPath, TargetPath;
  }

  lemma {:induction false} TokenRows(j: Journal, r: Record, c: Config)
    ensures AddToken(j, r, c).Ok? ==> AddToken(j, r, c).value.records == j.records
  {
    hide TokensFull;
  }

  lemma {:induction false} ForeignBegin(j: Journal, c: Config, d: Tables.Db, start: Start, w: Draw, s: Start, k: Key)
    requires Inv(j) && Admissible(j, EvBegin(c, d, start, w)) && k in Begin(j, c, d, start, w).journal.records
    requires start.account != s.account || start.request.id != s.request.id
    requires IsLatest(j.records, s.account, s.request.id, k)
    ensures var records := Begin(j, c, d, start, w).journal.records;
      records[k] == j.records[k] && IsLatest(records, s.account, s.request.id, k)
  {
    hide Inv, Begin, Before, DropOk;
    RowIds(j);
    BeginRow(j, c, d, start, w, k);
    BeginRowOf(j, c, d, start, w, k);
    var records := Begin(j, c, d, start, w).journal.records;
    forall o | o in records && o.account == s.account && records[o].request == s.request.id && o != k ensures Before(o, k) {
      BeginRowOf(j, c, d, start, w, o);
    }
  }

  /** A whole run of them. */
  lemma {:induction false} AsideKeeps(j: Journal, run: seq<Event>, s: Start, k: Key)
    requires Inv(j) && Aside(j, run, s, k)
    requires IsLatest(j.records, s.account, s.request.id, k) && j.records[k].action.DownloadAction?
    ensures Inv(Final(j, run)) && Final(j, run).records[k] == j.records[k]
    ensures IsLatest(Final(j, run).records, s.account, s.request.id, k)
    decreases |run|
  {
    hide Inv, After, Admissible, IsLatest, Foreign, Keeps;
    if run != [] {
      LatestRow(j.records, s, k);
      PresentThroughout(j, run, k);
      assert Foreign(s, k, run[0]);
      ForeignKeeps(j, run[0], s, k);
      StepKeeps(j, run[0]);
      KeepsInv(j, After(j, run[0]));
      assert forall i :: 0 <= i < |run[1..]| ==> run[1..][i] == run[i + 1];
      AsideKeeps(After(j, run[0]), run[1..], s, k);
    }
  }

  lemma {:induction false} LatestRow(records: map<Key, Record>, s: Start, k: Key)
    requires IsLatest(records, s.account, s.request.id, k)
    ensures k in records
  {
  }

  // ---------- One read after the other ----------

  /** No pause between two reads exceeds the resume window. */
  predicate Timely(updated: nat, chunks: seq<Chunk>)
    decreases |chunks|
  {
    chunks != [] ==> SatSub(chunks[0].beginAt, updated) <= RESUME_SECONDS && Timely(chunks[0].finishAt, chunks[1..])
  }

  function TotalLength(chunks: seq<Chunk>): nat
    decreases |chunks|
  {
    if chunks == [] then 0 else chunks[0].length + TotalLength(chunks[1..])
  }

  /** The request's latest record is this one, it has succeeded so far, and expects the given offset next. */
  ghost predicate Awaits(j: Journal, s: Start, k: Key, offset: nat) {
    && IsLatest(j.records, s.account, s.request.id, k)
    && var r := j.records[k];
       r.generation == s.generation && r.root == s.request.root && r.source == s.request.source
       && r.action.DownloadAction? && r.status.Success? && r.next == Some(offset) && r.bytesRead <= offset
  }

  lemma {:induction false} PutLatest(records: map<Key, Record>, account: Id, request: nat, k: Key, r: Record)
    requires IsLatest(records, account, request, k) && r.request == records[k].request
    ensures IsLatest(records[k := r], account, request, k)
  {
  }

  lemma {:induction false} AskingChecked(c: Config, d: Tables.Db, s: Start, offset: nat, at: nat)
    requires BeginCheck(c, d, s).Ok? && s.request.command.ReadFileRange?
    ensures BeginCheck(c, d, Asking(s, offset, at)).Ok?
  {
    hide ConfigOk, SubidText.Bytes, Tables.Authorized;
  }

  lemma {:induction false} ChunkBegins(j: Journal, c: Config, d: Tables.Db, s: Start, w: Draw, k: Key, offset: nat, at: nat)
    requires BeginCheck(c, d, s).Ok? && s.request.command.ReadFileRange? && w.fits
    requires Awaits(j, s, k, offset) && SatSub(at, j.records[k].updated) <= RESUME_SECONDS
    ensures var b := Begin(j, c, d, Asking(s, offset, at), w);
            var r := j.records[k].(status := Pending, updated := at);
            b == Turn(j.(records := j.records[k := r]), Ok(r))
  {
    hide BeginCheck, IsLatest, Insert;
    AskingChecked(c, d, s, offset, at);
    LatestIs(j.records, s.account, s.request.id, k);
  }

  lemma {:induction false} ChunkSettles(r: Record, offset: nat, length: nat, at: nat)
    requires r.next == Some(offset) && r.bytesRead <= offset && offset + length <= U64_MAX && r.action.DownloadAction?
    ensures Settle(r, Some(Arrived(offset, length)), at) ==
            Ok(r.(updated := at, status := Success, next := Some(offset + length), bytesRead := r.bytesRead + length, bytesWritten := 0))
  {
  }

  lemma {:induction false} LatestKey(j: Journal, s: Start, k: Key)
    requires Inv(j) && IsLatest(j.records, s.account, s.request.id, k)
    ensures k in j.records && KeyOf(j.records[k]) == k && j.records[k].request == s.request.id
  {
    hide RecordOk, StagingOk, TrashOk, TokensMatch, EpochOk;
  }

  /** The record that a begin has made pending is settled, whatever else the journal holds by then. */
  lemma {:induction false} ChunkFinishes(j: Journal, s: Start, w: Draw, k: Key, offset: nat, chunk: Chunk)
    requires Inv(j) && w.fits && Underway(j, s, k, offset) && offset + chunk.length <= U64_MAX
    ensures var f := Finish(j, j.records[k], Some(Arrived(offset, chunk.length)), chunk.finishAt, w.fits);
      && f.result.Ok? && Inv(f.journal) && Awaits(f.journal, s, k, offset + chunk.length)
      && f.journal.records[k].updated == chunk.finishAt && f.journal.records[k].bytesRead == j.records[k].bytesRead + chunk.length
  {
    hide Inv, Keeps, Settle, IsLatest;
    LatestKey(j, s, k);
    var r := j.records[k];
    ChunkSettles(r, offset, chunk.length, chunk.finishAt);
    FinishKeeps(j, r, Some(Arrived(offset, chunk.length)), chunk.finishAt, w.fits);
    var f := Finish(j, r, Some(Arrived(offset, chunk.length)), chunk.finishAt, w.fits);
    KeepsInv(j, f.journal);
    PutLatest(j.records, s.account, s.request.id, k, f.result.value);
  }

  /** The record is the latest of its request and expects the answer at the given offset. */
  ghost predicate Underway(j: Journal, s: Start, k: Key, offset: nat) {
    && IsLatest(j.records, s.account, s.request.id, k)
    && var r := j.records[k];
       r.generation == s.generation && r.root == s.request.root && r.source == s.request.source
       && r.action.DownloadAction? && r.status.Pending? && r.next == Some(offset) && r.bytesRead <= offset
  }

  /** Other events while a read is underway, and then its end. */
  lemma {:induction false} ChunkEnds(j: Journal, s: Start, w: Draw, k: Key, offset: nat, chunk: Chunk)
    requires Inv(j) && w.fits && Underway(j, s, k, offset) && Aside(j, chunk.between, s, k) && offset + chunk.length <= U64_MAX
    ensures var f := Finished(j, j.records[k], w, offset, chunk);
      && f.result.Ok? && Inv(f.journal) && Awaits(f.journal, s, k, offset + chunk.length)
      && f.journal.records[k].updated == chunk.finishAt && f.journal.records[k].bytesRead == j.records[k].bytesRead + chunk.length
  {
    hide Inv, IsLatest, Finish, Aside, Final, Arrived;
    AsideKeeps(j, chunk.between, s, k);
    ChunkFinishes(Final(j, chunk.between), s, w, k, offset, chunk);
  }

  /** Other events before a read, and then its beginning. */
  lemma {:induction false} ChunkStarts(j: Journal, c: Config, s: Start, w: Draw, k: Key, offset: nat, chunk: Chunk)
    requires Inv(j) && BeginCheck(c, chunk.d, s).Ok? && s.request.command.ReadFileRange? && w.fits && Aside(j, chunk.before, s, k)
    requires Awaits(j, s, k, offset) && SatSub(chunk.beginAt, j.records[k].updated) <= RESUME_SECONDS
    ensures var b := Began(j, c, s, w, offset, chunk);
      && b.result.Ok? && Inv(b.journal) && Underway(b.journal, s, k, offset) && b.result.value == b.journal.records[k]
      && b.journal.records[k].bytesRead == j.records[k].bytesRead
  {
    hide Inv, IsLatest, Begin, Aside, Final, BeginCheck, Keeps;
    AsideKeeps(j, chunk.before, s, k);
    var e := Final(j, chunk.before);
    ChunkBegins(e, c, chunk.d, s, w, k, offset, chunk.beginAt);
    LatestKey(e, s, k);
    ResumeKeeps(e, k, Asking(s, offset, chunk.beginAt), w.fits);
    KeepsInv(e, Began(j, c, s, w, offset, chunk).journal);
    PutLatest(e.records, s.account, s.request.id, k, Began(j, c, s, w, offset, chunk).result.value);
  }

  /** The later reads of a stream are accepted one after the other, whatever else goes on in the journal. */
  lemma {:induction false} StreamContinues(j: Journal, c: Config, s: Start, w: Draw, k: Key, offset: nat, chunks: seq<Chunk>)
    requires Inv(j) && Checked(c, s, chunks) && s.request.command.ReadFileRange? && w.fits
    requires Awaits(j, s, k, offset) && Timely(j.records[k].updated, chunks) && offset + TotalLength(chunks) <= U64_MAX
    requires Undisturbed(j, c, s, w, k, offset, chunks)
    ensures var e := Drive(j, c, s, w, offset, chunks);
            && e.Some? && k in e.value.records && Awaits(e.value, s, k, offset + TotalLength(chunks))
            && e.value.records[k].bytesRead == j.records[k].bytesRead + TotalLength(chunks)
    decreases |chunks|
  {
    hide Inv, Began, Finished, BeginCheck, Aside, IsLatest;
    if chunks == [] {
      LatestKey(j, s, k);
    } else {
      ChunkStarts(j, c, s, w, k, offset, chunks[0]);
      var b := Began(j, c, s, w, offset, chunks[0]);
      ChunkEnds(b.journal, s, w, k, offset, chunks[0]);
      var f := Finished(b.journal, b.result.value, w, offset, chunks[0]);
      StreamContinues(f.journal, c, s, w, k, offset + chunks[0].length, chunks[1..]);
    }
  }

  // ---------- From the first read on ----------

  /** If any row carries the request, one of them is the latest. */
  lemma {:induction false} LatestExists(records: map<Key, Record>, account: Id, request: nat, keys: set<Key>)
    requires keys != {} && forall k :: k in keys ==> k in records && k.account == account && records[k].request == request
    ensures exists k :: k in keys && forall o :: o in keys && o != k ==> Before(o, k)
    decreases |keys|
  {
    var k :| k in keys;
    var rest := keys - {k};
    if rest == {} {
      assert forall o :: o in keys && o != k ==> o in rest;
    } else {
      LatestExists(records, account, request, rest);
      var m :| m in rest && forall o :: o in rest && o != m ==> Before(o, m);
      assert forall o :: o in keys && o != k ==> o in rest;
      var last := if Before(k, m) then m else k;
      assert Before(k, m) || Before(m, k);
      assert forall o :: o in keys && o != last ==> Before(o, last);
    }
  }

  lemma {:induction false} UnknownRequest(records: map<Key, Record>, account: Id, request: nat, k: Key)
    requires Latest(records, account, request).None? && k in records && k.account == account
    ensures records[k].request != request
  {
    if records[k].request == request {
      var keys := set o | o in records && o.account == account && records[o].request == request;
      assert k in keys;
      LatestExists(records, account, request, keys);
      var m :| m in keys && forall o :: o in keys && o != m ==> Before(o, m);
      assert IsLatest(records, account, request, m);
    }
  }

  /** The conditions under which the journal takes a new range request at all: a clock in range, and room. */
  ghost predicate Admits(j: Journal, c: Config, s: Start, w: Draw, at: nat) {
    && Latest(j.records, s.account, s.request.id).None? && Cutoff(at, c.retentionHours) <= I64_MAX
    && Room(j.records, s.account, c, at, w.drop).Ok?
  }

  function FirstRecord(j: Journal, s: Start, w: Draw, offset: nat, at: nat): Record {
    NewRecord(Asking(s, offset, at).request, s.account, s.generation, at, w.id, EpochOf(j, w.epoch))
  }

  lemma {:induction false} FirstRecordIs(j: Journal, s: Start, w: Draw, offset: nat, at: nat)
    requires s.request.command.ReadFileRange?
    ensures var r := FirstRecord(j, s, w, offset, at);
      && r.id == w.id && r.account == s.account && r.request == s.request.id && r.generation == s.generation
      && r.root == s.request.root && r.source == s.request.source && r.action.DownloadAction? && r.status.Pending?
      && r.next == Some(offset) && r.bytesRead == 0 && r.staging.None?
  {
    hide StagingStem, TrashPath;
  }

  lemma {:induction false} FirstBegins(j: Journal, c: Config, d: Tables.Db, s: Start, w: Draw, offset: nat, at: nat)
    requires BeginCheck(c, d, s).Ok? && s.request.command.ReadFileRange? && w.fits && Admits(j, c, s, w, at)
    ensures var b, r := Begin(j, c, d, Asking(s, offset, at), w), FirstRecord(j, s, w, offset, at);
      && b.result == Ok(r)
      && b.journal.records == Room(j.records, s.account, c, at, w.drop).value[KeyOf(r) := r]
  {
    hide BeginCheck, Latest, Room, NewRecord, Resume;
    AskingChecked(c, d, s, offset, at);
    FirstRecordIs(j, s, w, offset, at);
  }

  lemma {:induction false} RoomRows(j: Journal, s: Start, c: Config, at: nat, drop: set<Key>, k: Key)
    requires Room(j.records, s.account, c, at, drop).Ok? && k in Room(j.records, s.account, c, at, drop).value
    ensures k in j.records && Room(j.records, s.account, c, at, drop).value[k] == j.records[k]
  {
    hide Full, Oldest, Cutoff;
  }

  /** The new record is the only row of its request. */
  lemma {:induction false} FirstIsLatest(j: Journal, c: Config, s: Start, w: Draw, offset: nat, at: nat)
    requires s.request.command.ReadFileRange? && Admits(j, c, s, w, at)
    ensures var r := FirstRecord(j, s, w, offset, at);
      IsLatest(Room(j.records, s.account, c, at, w.drop).value[KeyOf(r) := r], s.account, s.request.id, KeyOf(r))
  {
    hide Room, Latest, FirstRecord, Before;
    FirstRecordIs(j, s, w, offset, at);
    var room := Room(j.records, s.account, c, at, w.drop).value;
    forall k | k in room && k.account == s.account ensures room[k].request != s.request.id {
      RoomRows(j, s, c, at, w.drop, k);
      UnknownRequest(j.records, s.account, s.request.id, k);
    }
  }

  /** The first read of a request begins: there is one new record, and it is underway. */
  lemma {:induction false} FirstStarts(j: Journal, c: Config, s: Start, w: Draw, offset: nat, chunk: Chunk)
    requires BeginCheck(c, chunk.d, s).Ok? && s.request.command.ReadFileRange? && w.fits
    requires var e := Final(j, chunk.before);
      Inv(e) && w.id !in e.used && w.epoch !in e.used && w.id != w.epoch && Admits(e, c, s, w, chunk.beginAt)
    ensures var b, k := Began(j, c, s, w, offset, chunk), Key(s.account, chunk.beginAt, w.id);
      && b.result.Ok? && Inv(b.journal) && Underway(b.journal, s, k, offset) && b.result.value == b.journal.records[k]
      && b.journal.records[k].bytesRead == 0
  {
    hide Begin, Inv, Keeps, IsLatest, BeginCheck, Admits, FirstRecord, Room, Final;
    var e := Final(j, chunk.before);
    FirstKey(e, s, w, offset, chunk.beginAt);
    FirstRecordIs(e, s, w, offset, chunk.beginAt);
    FirstBegins(e, c, chunk.d, s, w, offset, chunk.beginAt);
    FirstIsLatest(e, c, s, w, offset, chunk.beginAt);
    BeginKeeps(e, c, chunk.d, Asking(s, offset, chunk.beginAt), w);
    KeepsInv(e, Began(j, c, s, w, offset, chunk).journal);
  }

  /**
    What a stream asks of its surroundings: room for its first read, no pause too long, accounts that allow every read,
    and nothing else that concerns its record.
   */
  ghost predicate Streamable(j: Journal, c: Config, s: Start, w: Draw, offset: nat, chunks: seq<Chunk>) {
    && chunks != [] && Checked(c, s, chunks) && s.request.command.ReadFileRange? && w.fits
    && Timely(chunks[0].finishAt, chunks[1..]) && offset + TotalLength(chunks) <= U64_MAX
    && AdmissibleRun(j, chunks[0].before)
    && var e, k := Final(j, chunks[0].before), Key(s.account, chunks[0].beginAt, w.id);
       && w.id !in e.used && w.epoch !in e.used && w.id != w.epoch && Admits(e, c, s, w, chunks[0].beginAt)
       && var b := Began(j, c, s, w, offset, chunks[0]);
          b.result.Ok? ==>
            && Aside(b.journal, chunks[0].between, s, k)
            && Undisturbed(Finished(b.journal, b.result.value, w, offset, chunks[0]).journal, c, s, w, k, offset + chunks[0].length, chunks[1..])
  }

  /**
    A whole stream, from its first read on: every read is accepted at its offset, among any other events, and the record
    ends up counting the streamed bytes.
   */
  lemma {:induction false} StreamIsAccepted(j: Journal, c: Config, s: Start, w: Draw, offset: nat, chunks: seq<Chunk>)
    requires Inv(j) && Streamable(j, c, s, w, offset, chunks)
    ensures var e, k := Drive(j, c, s, w, offset, chunks), Key(s.account, chunks[0].beginAt, w.id);
            && e.Some? && k in e.value.records
            && e.value.records[k].next == Some(offset + TotalLength(chunks))
            && e.value.records[k].bytesRead == TotalLength(chunks)
  {
    hide Inv, Began, Finished, BeginCheck, Admits, Aside, Keeps, IsLatest;
    var k := Key(s.account, chunks[0].beginAt, w.id);
    RunKeeps(j, chunks[0].before);
    KeepsInv(j, Final(j, chunks[0].before));
    FirstStarts(j, c, s, w, offset, chunks[0]);
    var b := Began(j, c, s, w, offset, chunks[0]);
    ChunkEnds(b.journal, s, w, k, offset, chunks[0]);
    var f := Finished(b.journal, b.result.value, w, offset, chunks[0]);
    StreamContinues(f.journal, c, s, w, k, offset + chunks[0].length, chunks[1..]);
  }

  lemma {:induction false} FirstKey(j: Journal, s: Start, w: Draw, offset: nat, at: nat)
    ensures KeyOf(FirstRecord(j, s, w, offset, at)) == Key(s.account, at, w.id)
  {
    hide StagingPath, TargetPath;
  }

  /** The pieces of a body, each with the times at which the journal begins and finishes it. */
  predicate Reads(pieces: seq<Piece>, chunks: seq<Chunk>) {
    |pieces| == |chunks| && forall i :: 0 <= i < |pieces| ==> chunks[i].length == pieces[i].length
  }

  lemma {:induction false} PiecesAddUp(start: nat, pieces: seq<Piece>, end: nat, chunks: seq<Chunk>)
    requires Contiguous(start, pieces, end) && Reads(pieces, chunks)
    ensures start + TotalLength(chunks) == end
    decreases |pieces|
  {
    if pieces != [] {
      PiecesAddUp(start + pieces[0].length, pieces[1..], end, chunks[1..]);
    }
  }

  /** What `Stream` delivered is what the journal counted: the pieces of its body are accepted, and add up to it. */
  lemma {:induction false} BodyIsCounted(j: Journal, c: Config, s: Start, w: Draw, start: nat, body: seq<char>, pieces: seq<Piece>,
                                         chunks: seq<Chunk>)
    requires Inv(j) && Contiguous(start, pieces, start + |body|) && Reads(pieces, chunks) && Streamable(j, c, s, w, start, chunks)
    ensures var e, k := Drive(j, c, s, w, start, chunks), Key(s.account, chunks[0].beginAt, w.id);
      e.Some? && k in e.value.records && e.value.records[k].bytesRead == |body|
  {
    hide Inv, Undisturbed, Began, Finished, Checked, Admits, Aside;
    PiecesAddUp(start, pieces, start + |body|, chunks);
    StreamIsAccepted(j, c, s, w, start, chunks);
  }
}
