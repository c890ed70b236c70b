/** What every journal transaction keeps, and how records and tokens may change from step to step. */
module JournalInvariant {
  import opened Types
  import opened Uuids
  import opened JournalRecords
  import opened JournalOps
  import Tables

  // ---------- The invariant ----------

  /** The temporary path is the one that the record's own destination and id determine. */
  predicate StagingShape(r: Record) {
    r.staging.Some? ==>
      && (r.action.WriteAction? || r.action.UploadAction? || r.action.CopyAction? || r.action.ArchiveAction?
          || r.action.ExtractAction?)
      && StageTarget(r.(status := Pending)).Ok?
  }

  predicate RecordOk(used: set<Uuid>, r: Record) {
    && r.id in used && r.epoch.Some? && r.epoch.value in used
    && (r.undo.Some? ==> r.status.Success? && Reversible(r.action))
    && (r.next.Some? ==> r.action.DownloadAction? && r.bytesRead <= r.next.value)
    && (r.action.TrashAction? ==> r.target == Some(TrashPath(r.id)) && r.staging.None?)
    && StagingShape(r)
  }

  predicate RecordsOk(used: set<Uuid>, records: map<Key, Record>) {
    && (forall k :: k in records ==> KeyOf(records[k]) == k && RecordOk(used, records[k]))
    && (forall k, o :: k in records && o in records && k.id == o.id ==> k == o)
  }

  predicate StagingOk(used: set<Uuid>, staging: map<Token, Record>) {
    forall t :: t in staging ==>
      && TokenOf(staging[t]) == t && RecordOk(used, staging[t])
      && staging[t].staging.Some? && !staging[t].status.Success?
  }

  predicate TrashOk(used: set<Uuid>, trash: map<Token, Record>) {
    forall t :: t in trash ==>
      TokenOf(trash[t]) == t && RecordOk(used, trash[t]) && trash[t].action.TrashAction? && !trash[t].status.Failed?
  }

  predicate EpochOk(j: Journal) {
    && (j.epoch.Some? ==> j.epoch.value in j.used)
    && (j.records != map[] ==> j.epoch.Some?)
  }

  /** A record and its token describe the same operation. */
  predicate TokensMatch(records: map<Key, Record>, tokens: map<Token, Record>) {
    forall k :: k in records && Token(k.account, k.id) in tokens ==>
      SameOperation(records[k], tokens[Token(k.account, k.id)])
  }

  predicate Inv(j: Journal) {
    && RecordsOk(j.used, j.records) && StagingOk(j.used, j.staging) && TrashOk(j.used, j.trash) && EpochOk(j)
    && TokensMatch(j.records, j.staging) && TokensMatch(j.records, j.trash)
  }

  // ---------- How one row may change ----------

  /** Everything that begin_operation fixes for good. */
  predicate SameOperation(r: Record, s: Record) {
    && s.id == r.id && s.request == r.request && s.account == r.account && s.generation == r.generation
    && s.created == r.created && s.action == r.action && s.root == r.root && s.source == r.source
    && s.target == r.target && s.epoch == r.epoch && s.staging == r.staging
  }

  /** An undo is claimed once, then settled once. */
  predicate UndoLater(a: Option<Status>, b: Option<Status>) {
    a == b || a.None? || (a == Some(Pending) && b.Some?)
  }

  /** A range record's start, next offset minus bytes read, never moves, and its next offset never moves back. */
  predicate RangeLater(r: Record, s: Record) {
    && (r.next.Some? <==> s.next.Some?)
    && (r.next.Some? ==> s.next.value - s.bytesRead == r.next.value - r.bytesRead && r.next.value <= s.next.value)
  }

  predicate RecordLater(r: Record, s: Record) {
    SameOperation(r, s) && UndoLater(r.undo, s.undo) && RangeLater(r, s)
  }

  predicate RecordsLater(used: set<Uuid>, a: map<Key, Record>, b: map<Key, Record>) {
    forall k :: k in b ==> if k in a then RecordLater(a[k], b[k]) else k.id !in used
  }

  predicate TokensLater(used: set<Uuid>, a: map<Token, Record>, b: map<Token, Record>) {
    forall t :: t in b ==> if t in a then SameOperation(a[t], b[t]) else t.id !in used
  }

  predicate EpochLater(j: Journal, e: Journal) {
    e.epoch == j.epoch || (e.epoch.Some? && e.epoch.value !in j.used)
  }

  predicate Later(j: Journal, e: Journal) {
    && j.used <= e.used && EpochLater(j, e)
    && RecordsLater(j.used, j.records, e.records)
    && TokensLater(j.used, j.staging, e.staging) && TokensLater(j.used, j.trash, e.trash)
  }

  predicate Keeps(j: Journal, e: Journal) {
    Inv(e) && Later(j, e)
  }

  lemma {:induction false} EmptyInv()
    ensures Inv(EMPTY)
  {
  }

  lemma {:induction false} LaterTrans(a: Journal, b: Journal, c: Journal)
    requires Inv(a) && Inv(b) && Later(a, b) && Later(b, c)
    ensures Later(a, c)
  {
    hide StageTarget, Undoable, Text, TrashPath;
    forall k | k in c.records
      ensures if k in a.records then RecordLater(a.records[k], c.records[k]) else k.id !in a.used
    {
    }
  }

  // ---------- One table at a time ----------

  lemma {:induction false} Still(j: Journal)
    ensures RecordsLater(j.used, j.records, j.records)
    ensures TokensLater(j.used, j.staging, j.staging) && TokensLater(j.used, j.trash, j.trash)
  {
  }

  lemma {:induction false} MoreUsed(j: Journal, more: set<Uuid>)
    requires Inv(j) && j.used <= more
    ensures RecordsOk(more, j.records) && StagingOk(more, j.staging) && TrashOk(more, j.trash)
  {
    hide StagingShape, TrashPath, SameOperation;
  }

  lemma {:induction false} RecordsShrink(used: set<Uuid>, a: map<Key, Record>, b: map<Key, Record>)
    requires RecordsOk(used, a) && forall k :: k in b ==> k in a && b[k] == a[k]
    ensures RecordsOk(used, b) && RecordsLater(used, a, b)
  {
    hide RecordOk;
  }

  lemma {:induction false} MatchShrink(a: map<Key, Record>, b: map<Key, Record>, x: map<Token, Record>, y: map<Token, Record>)
    requires TokensMatch(a, x)
    requires forall k :: k in b ==> k in a && b[k] == a[k]
    requires forall t :: t in y ==> t in x && y[t] == x[t]
    ensures TokensMatch(b, y)
  {
    hide SameOperation;
  }

  lemma {:induction false} RecordsPut(used: set<Uuid>, a: map<Key, Record>, k: Key, r: Record)
    requires RecordsOk(used, a) && k in a && RecordOk(used, r) && RecordLater(a[k], r)
    ensures RecordsOk(used, a[k := r]) && RecordsLater(used, a, a[k := r])
  {
    hide RecordOk;
  }

  lemma {:induction false} MatchPut(a: map<Key, Record>, x: map<Token, Record>, k: Key, r: Record)
    requires TokensMatch(a, x) && k in a && SameOperation(a[k], r)
    ensures TokensMatch(a[k := r], x)
  {
  }

  lemma {:induction false} MatchToken(a: map<Key, Record>, x: map<Token, Record>, t: Token, r: Record)
    requires TokensMatch(a, x) && t in x && SameOperation(x[t], r)
    ensures TokensMatch(a, x[t := r])
  {
  }

  // ---------- Preservation ----------

  lemma {:induction false} Idle(j: Journal)
    requires Inv(j)
    ensures Keeps(j, j)
  {
    hide RecordsLater, TokensLater, RecordsOk, StagingOk, TrashOk, TokensMatch;
    Still(j);
  }

  lemma {:induction false} NewEpoch(j: Journal, drawn: Uuid)
    requires Inv(j) && drawn !in j.used
    ensures Keeps(j, j.(epoch := Some(drawn), used := j.used + {drawn}))
  {
    hide RecordsLater, TokensLater, RecordsOk, StagingOk, TrashOk, TokensMatch;
    Still(j);
    MoreUsed(j, j.used + {drawn});
  }

  lemma {:induction false} EpochKeeps(j: Journal, drawn: Uuid)
    requires Inv(j) && drawn !in j.used
    ensures Keeps(j, WithEpoch(j, drawn)) && WithEpoch(j, drawn).epoch == Some(EpochOf(j, drawn))
  {
    hide Keeps, Inv;
    if j.epoch.None? {
      NewEpoch(j, drawn);
    } else {
      Idle(j);
    }
  }

  /** Dropping rows and tokens is always allowed. */
  lemma {:induction false} ShrinkKeeps(j: Journal, e: Journal)
    requires Inv(j) && e.used == j.used && e.epoch == j.epoch
    requires forall k :: k in e.records ==> k in j.records && e.records[k] == j.records[k]
    requires forall t :: t in e.staging ==> t in j.staging && e.staging[t] == j.staging[t]
    requires forall t :: t in e.trash ==> t in j.trash && e.trash[t] == j.trash[t]
    ensures Keeps(j, e)
  {
    hide RecordOk, SameOperation, RecordsOk, RecordsLater, TokensMatch, StagingOk, TrashOk, TokensLater;
    RecordsShrink(j.used, j.records, e.records);
    MatchShrink(j.records, e.records, j.staging, e.staging);
    MatchShrink(j.records, e.records, j.trash, e.trash);
    TokensShrink(j, e);
    if e.records != map[] {
      var k :| k in e.records;
      assert k in j.records;
    }
  }

  lemma {:induction false} TokensShrink(j: Journal, e: Journal)
    requires StagingOk(j.used, j.staging) && TrashOk(j.used, j.trash)
    requires forall t :: t in e.staging ==> t in j.staging && e.staging[t] == j.staging[t]
    requires forall t :: t in e.trash ==> t in j.trash && e.trash[t] == j.trash[t]
    ensures StagingOk(j.used, e.staging) && TrashOk(j.used, e.trash)
    ensures TokensLater(j.used, j.staging, e.staging) && TokensLater(j.used, j.trash, e.trash)
  {
    hide RecordOk;
  }

  /** Rewriting one row in place. */
  lemma {:induction false} PutKeeps(j: Journal, k: Key, r: Record)
    requires Inv(j) && k in j.records && RecordOk(j.used, r) && RecordLater(j.records[k], r)
    ensures Keeps(j, j.(records := j.records[k := r]))
  {
    hide RecordOk, SameOperation, RecordsOk, RecordsLater, TokensLater, TokensMatch, StagingOk, TrashOk, UndoLater, RangeLater;
    Still(j);
    RecordsPut(j.used, j.records, k, r);
    MatchPut(j.records, j.staging, k, r);
    MatchPut(j.records, j.trash, k, r);
  }

  /** Rewriting one token in place. */
  lemma {:induction false} StagingKeeps(j: Journal, r: Record)
    requires Inv(j) && TokenOf(r) in j.staging && RecordOk(j.used, r) && !r.status.Success?
    requires SameOperation(j.staging[TokenOf(r)], r)
    ensures Keeps(j, j.(staging := j.staging[TokenOf(r) := r]))
  {
    hide RecordOk, RecordsOk, RecordsLater, TokensMatch, TrashOk;
    Still(j);
    MatchToken(j.records, j.staging, TokenOf(r), r);
  }

  lemma {:induction false} TrashKeeps(j: Journal, r: Record)
    requires Inv(j) && TokenOf(r) in j.trash && RecordOk(j.used, r) && !r.status.Failed?
    requires SameOperation(j.trash[TokenOf(r)], r)
    ensures Keeps(j, j.(trash := j.trash[TokenOf(r) := r]))
  {
    hide RecordOk, RecordsOk, RecordsLater, TokensMatch, StagingOk;
    Still(j);
    MatchToken(j.records, j.trash, TokenOf(r), r);
  }

  lemma {:induction false} KeepsInv(j: Journal, e: Journal)
    requires Keeps(j, e)
    ensures Inv(e) && Later(j, e)
  {
    hide Inv, Later;
  }

  lemma {:induction false} KeepsTrans(a: Journal, b: Journal, c: Journal)
    requires Inv(a) && Keeps(a, b) && Keeps(b, c)
    ensures Keeps(a, c)
  {
    hide Inv, Later;
    LaterTrans(a, b, c);
  }
}
