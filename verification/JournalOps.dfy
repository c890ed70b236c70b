/** The operation journal as a state machine: every transaction is an event over three tables. */
module JournalOps {
  import opened Types
  import opened Uuids
  import opened JournalRecords
  import Tables
  import SubidText

  /** "operation_v1:{account}:{created:020}:{id}"; fixed width makes text order the order of the parts. */
  datatype Key = Key(account: Id, created: nat, id: Uuid)

  /** "trash_expiry_v1:{account}:{id}" and "staging_expiry_v1:{account}:{id}". */
  datatype Token = Token(account: Id, id: Uuid)

  /** `used` is a history variable: every UUID that has been written down so far. */
  datatype Journal = Journal(
    records: map<Key, Record>,
    trash: map<Token, Record>,
    staging: map<Token, Record>,
    epoch: Option<Uuid>,
    used: set<Uuid>)

  const EMPTY: Journal := Journal(map[], map[], map[], None, {})

  function KeyOf(r: Record): Key {
    Key(r.account, r.created, r.id)
  }

  function TokenOf(r: Record): Token {
    Token(r.account, r.id)
  }

  predicate Before(a: Key, b: Key) {
    a.created < b.created || (a.created == b.created && a.id < b.id)
  }

  function Owned(records: map<Key, Record>, account: Id): set<Key> {
    set k | k in records && k.account == account
  }

  function OwnedTokens(tokens: map<Token, Record>, account: Id): set<Token> {
    set t | t in tokens && t.account == account
  }

  /** A transaction's effect and answer. */
  datatype Turn = Turn(journal: Journal, result: Result<Record>)

  function Fail(j: Journal, e: StoreError): Turn {
    Turn(j, Err(e))
  }

  // ---------- begin_operation ----------

  /** The caller's account row as the request names it; `matching` compares uid, gid and user name. */
  datatype Start = Start(account: Id, generation: nat, matching: bool, request: Request, at: nat)

  /** What the environment draws: new UUIDs, whether the record's text fits, and which expired rows LIMIT picks. */
  datatype Draw = Draw(id: Uuid, epoch: Uuid, fits: bool, drop: set<Key>)

  const PATH_LIMIT: nat := 4096
  const BEGIN_EXPIRY_LIMIT: nat := 2000
  const RESUME_SECONDS: nat := 300

  function BeginCheck(c: Config, d: Tables.Db, s: Start): (r: Result<()>) {
    if !ConfigOk(c) then Err(InvalidInput) else
    if !c.enabled || !Tracked(s.request.command) || !s.matching
       || SubidText.Bytes(s.request.source) > PATH_LIMIT
       || (s.request.target.Some? && SubidText.Bytes(s.request.target.value) > PATH_LIMIT)
    then Err(InvalidInput) else
    var actor :- Tables.Authorized(d, Tables.Account(s.account, s.generation));
    if s.request.command.ReadFileRange? && (s.request.offset.None? || s.request.chunk == 0)
    then Err(InvalidInput) else Ok(())
  }

  ghost predicate IsLatest(records: map<Key, Record>, account: Id, request: nat, k: Key) {
    && k in records && k.account == account && records[k].request == request
    && forall o :: o in records && o.account == account && records[o].request == request && o != k ==> Before(o, k)
  }

  ghost function Latest(records: map<Key, Record>, account: Id, request: nat): Option<Key> {
    if exists k :: IsLatest(records, account, request, k)
    then var k :| IsLatest(records, account, request, k); Some(k) else None
  }

  predicate Resumable(r: Record, s: Start) {
    && r.generation == s.generation && r.root == s.request.root && r.source == s.request.source
    && r.action.DownloadAction? && r.status.Success? && r.next == s.request.offset
    && SatSub(s.at, r.updated) <= RESUME_SECONDS
  }

  function Resume(j: Journal, k: Key, s: Start, fits: bool): Turn
    requires k in j.records
  {
    var r := j.records[k];
    if !Resumable(r, s) then Fail(j, Conflict)
    else if !fits then Fail(j, InvalidInput)
    else
      var again := r.(status := Pending, updated := s.at);
      Turn(j.(records := j.records[k := again]), Ok(again))
  }

  function EpochOf(j: Journal, drawn: Uuid): Uuid {
    if j.epoch.Some? then j.epoch.value else drawn
  }

  function WithEpoch(j: Journal, drawn: Uuid): Journal {
    if j.epoch.Some? then j else j.(epoch := Some(drawn), used := j.used + {drawn})
  }

  function Cutoff(at: nat, hours: nat): nat {
    SatSub(at, hours * 3600)
  }

  function ExpiredKeys(records: map<Key, Record>, account: Id, cutoff: nat): set<Key> {
    set k | k in records && k.account == account && records[k].created < cutoff
  }

  predicate Evictable(r: Record, account: Id, cutoff: nat) {
    r.account == account && (r.status.Success? || r.status.Failed?) && (!Reversible(r.action) || r.created < cutoff)
  }

  ghost predicate IsOldest(records: map<Key, Record>, account: Id, cutoff: nat, k: Key) {
    && k in records && k.account == account && Evictable(records[k], account, cutoff)
    && forall o :: o in records && o.account == account && Evictable(records[o], account, cutoff) && o != k ==> Before(k, o)
  }

  ghost function Oldest(records: map<Key, Record>, account: Id, cutoff: nat): Option<Key> {
    if exists k :: IsOldest(records, account, cutoff, k)
    then var k :| IsOldest(records, account, cutoff, k); Some(k) else None
  }

  predicate Full(records: map<Key, Record>, account: Id, c: Config) {
    |Owned(records, account)| >= c.maxPerAccount || |records| >= c.maxTotal
  }

  predicate TokensFull(tokens: map<Token, Record>, account: Id, c: Config) {
    |OwnedTokens(tokens, account)| >= c.maxPerAccount || |tokens| >= c.maxTotal
  }

  /** Rows left after expiry and, where the limits require it, after giving up the oldest finished row. */
  ghost function Room(records: map<Key, Record>, account: Id, c: Config, at: nat, drop: set<Key>)
    : Result<map<Key, Record>>
  {
    var kept := records - drop;
    if !Full(kept, account, c) then Ok(kept) else
    if Cutoff(at, c.undoMaxHours) > I64_MAX then Err(InvalidInput) else
    var victim := Oldest(kept, account, Cutoff(at, c.undoMaxHours));
    if victim.None? then Err(QuotaExceeded) else Ok(kept - {victim.value})
  }

  function AddToken(j: Journal, r: Record, c: Config): Result<Journal> {
    if r.action.TrashAction? then
      if TokensFull(j.trash, r.account, c) then Err(QuotaExceeded)
      else Ok(j.(trash := j.trash[TokenOf(r) := r]))
    else if r.staging.Some? then
      if TokensFull(j.staging, r.account, c) then Err(QuotaExceeded)
      else Ok(j.(staging := j.staging[TokenOf(r) := r]))
    else Ok(j)
  }

  ghost function Insert(j: Journal, c: Config, s: Start, w: Draw): Turn {
    var based := WithEpoch(j, w.epoch);
    var r := NewRecord(s.request, s.account, s.generation, s.at, w.id, EpochOf(j, w.epoch));
    if !w.fits || Cutoff(s.at, c.retentionHours) > I64_MAX then Fail(based, InvalidInput) else
    var room := Room(j.records, s.account, c, s.at, w.drop);
    if room.Err? then Fail(based, room.error) else
    var added := AddToken(based.(records := room.value[KeyOf(r) := r], used := based.used + {w.id}), r, c);
    if added.Err? then Fail(based, added.error) else Turn(added.value, Ok(r))
  }

  ghost function Begin(j: Journal, c: Config, d: Tables.Db, s: Start, w: Draw): Turn {
    var check := BeginCheck(c, d, s);
    if check.Err? then Fail(j, check.error) else
    var latest := Latest(j.records, s.account, s.request.id);
    if s.request.command.ReadFileRange? && latest.Some? then Resume(j, latest.value, s, w.fits)
    else Insert(j, c, s, w)
  }

  // ---------- finish_operation ----------

  datatype Payload = FileRange(offset: nat, length: nat) | TrashEntry(trashId: string) | OtherPayload
  datatype Observed = Observed(oldMode: Option<nat>, before: Option<FileState>, after: Option<FileState>)
  datatype Reply = Reply(success: bool, payload: Payload, bytesRead: nat, bytesWritten: nat, observed: Option<Observed>)

  function Delivered(r: Record, p: Reply): Result<nat>
    requires r.next.Some?
  {
    if p.success && p.payload.FileRange? && p.payload.offset == r.next.value then Ok(p.payload.length)
    else if !p.success then Ok(0)
    else Err(InvalidInput)
  }

  /** Byte counters after one answer: a range adds what arrived at its expected offset. */
  function Counted(r: Record, p: Reply): Result<Record> {
    if r.next.None? then Ok(r.(bytesRead := p.bytesRead, bytesWritten := p.bytesWritten)) else
    var delivered :- Delivered(r, p);
    if r.next.value + delivered > U64_MAX || r.bytesRead + delivered > U64_MAX then Err(InvalidInput)
    else Ok(r.(next := Some(r.next.value + delivered), bytesRead := r.bytesRead + delivered,
               bytesWritten := p.bytesWritten))
  }

  function Settle(r: Record, reply: Option<Reply>, at: nat): Result<Record> {
    if reply.None? then Ok(r.(updated := at, status := Unknown)) else
    var p := reply.value;
    var named := r.action.TrashAction? && p.success && p.payload.TrashEntry?;
    if named && p.payload.trashId != Text(r.id) then Err(InvalidInput) else
    var target := if named then Some(TrashPath(r.id)) else r.target;
    var counted :- Counted(r, p);
    var seen := if p.observed.None? then counted else
      counted.(oldMode := p.observed.value.oldMode, before := p.observed.value.before, after := p.observed.value.after);
    Ok(seen.(updated := at, target := target, status := if p.success then Success else Failed))
  }

  /** A token that is already gone is not written again. */
  function Refresh(tokens: map<Token, Record>, r: Record, retired: bool): map<Token, Record> {
    if retired then tokens - {TokenOf(r)}
    else if TokenOf(r) in tokens then tokens[TokenOf(r) := r]
    else tokens
  }

  /** The trash entry that a successful delete or restore names, if its path names one. */
  function NamedTrash(source: string): Option<Uuid> {
    Parse(if |source| >= |TRASH_PREFIX| && source[..|TRASH_PREFIX|] == TRASH_PREFIX
          then source[|TRASH_PREFIX|..] else source)
  }

  function TrashAfter(trash: map<Token, Record>, r: Record, source: string): map<Token, Record> {
    if r.action.TrashAction? then Refresh(trash, r, r.status.Failed?)
    else if r.status.Success? && (r.action.DeleteAction? || r.action.RestoreAction?) && NamedTrash(source).Some?
    then trash - {Token(r.account, NamedTrash(source).value)}
    else trash
  }

  function Finish(j: Journal, record: Record, reply: Option<Reply>, at: nat, fits: bool): Turn {
    var k := KeyOf(record);
    if k !in j.records then Fail(j, NotFound) else
    var current := j.records[k];
    if current.id != record.id || current.account != record.account || !current.status.Pending?
    then Fail(j, Conflict) else
    var settled := Settle(current, reply, at);
    if settled.Err? then Fail(j, settled.error) else
    if !fits then Fail(j, InvalidInput) else
    var r := settled.value;
    Turn(j.(records := j.records[k := r],
            trash := TrashAfter(j.trash, r, record.source),
            staging := if r.staging.Some? then Refresh(j.staging, r, r.status.Success?) else j.staging),
         Ok(r))
  }

  // ---------- gc_operations ----------

  const GC_LIMIT: nat := 500

  /** One row of the maintenance sweep; each row is deleted on its own. */
  function Expire(j: Journal, c: Config, k: Key, at: nat): Turn {
    if !ConfigOk(c) || Cutoff(at, c.retentionHours) > I64_MAX then Fail(j, InvalidInput)
    else if k !in j.records || j.records[k].created >= Cutoff(at, c.retentionHours) then Fail(j, NotFound)
    else Turn(j.(records := j.records - {k}), Ok(j.records[k]))
  }

  // ---------- undo ----------

  predicate IsDigest(s: string) {
    |s| == 64 && forall i :: 0 <= i < |s| ==> DigitValue(s[i]).Some?
  }

  ghost predicate Names(j: Journal, account: Id, operation: string, k: Key) {
    k in j.records && k.account == account && Text(k.id) == operation
  }

  ghost function Named(j: Journal, account: Id, operation: string): Option<Key> {
    if exists k :: Names(j, account, operation, k)
    then var k :| Names(j, account, operation, k); Some(k) else None
  }

  datatype Claim = Claim(authority: Tables.Authority, operation: string, expected: string, at: nat)

  function ClaimCheck(c: Config, d: Tables.Db, q: Claim): Result<Id> {
    if !ConfigOk(c) || Parse(q.operation).None? || !IsDigest(q.expected) then Err(InvalidInput) else
    var actor :- Tables.Authorized(d, q.authority);
    if actor.None? then Err(Forbidden) else Ok(actor.value)
  }

  ghost function ClaimUndo(j: Journal, c: Config, d: Tables.Db, q: Claim, fits: bool, drawn: Uuid): Turn {
    var actor := ClaimCheck(c, d, q);
    if actor.Err? then Fail(j, actor.error) else
    var k := Named(j, actor.value, q.operation);
    if k.None? then Fail(j, NotFound) else
    var r := j.records[k.value];
    var hours := if actor.value in d.accounts then d.accounts[actor.value].undoHours else None;
    if !Undoable(r, hours, c, EpochOf(j, drawn), q.at) || r.after.None? || r.after.value.digest != q.expected
    then Fail(j, Conflict)
    else if !fits then Fail(j, InvalidInput)
    else
      var claimed := r.(undo := Some(Pending));
      Turn(WithEpoch(j, drawn).(records := j.records[k.value := claimed]), Ok(claimed))
  }

  function FinishUndo(j: Journal, record: Record, success: Option<bool>, at: nat, fits: bool): Turn {
    var k := KeyOf(record);
    if k !in j.records then Fail(j, Database) else
    var current := j.records[k];
    if current.id != record.id || current.account != record.account || current.undo != Some(Pending)
    then Fail(j, Conflict)
    else if !fits then Fail(j, InvalidInput)
    else
      var outcome := match success case None => Unknown case Some(ok) => if ok then Success else Failed;
      var r := current.(undo := Some(outcome), updated := at);
      Turn(j.(records := j.records[k := r],
              trash := if r.action.TrashAction? && outcome.Success? then j.trash - {TokenOf(r)} else j.trash),
           Ok(r))
  }

  /** invalidate_restored_sessions: the undo epoch is replaced by a new one. */
  function Restore(j: Journal, authority: Tables.Authority, drawn: Uuid): Journal {
    if authority != Tables.Root then j else j.(epoch := Some(drawn), used := j.used + {drawn})
  }

  // ---------- lifecycle::cleanup and staging::cleanup, one token each ----------

  datatype Lifecycle = Lifecycle(trashEnabled: bool, stagingEnabled: bool, trashHours: nat, stagingHours: nat, maxPerRun: nat)

  predicate LifecycleOk(l: Lifecycle) {
    1 <= l.trashHours <= 876000 && 1 <= l.stagingHours <= 876000 && 1 <= l.maxPerRun <= 1000
  }

  /** The rows that one cleanup run may select. */
  predicate StagingSelected(r: Record, cutoff: nat) {
    !r.stagingReview && r.created <= cutoff
  }

  predicate TrashSelected(r: Record, cutoff: nat) {
    !r.trashReview && r.action.TrashAction? && r.status.Success? && r.created <= cutoff
  }

  /** What happens to a token: kept, forgotten with its purged account, dropped after cleaning, or left for review. */
  datatype Sweep = Keep | Forget | Drop | Review

  function TrashSweep(d: Tables.Db, l: Lifecycle, r: Record, at: nat, worker: bool): Result<Sweep> {
    if r.account !in d.accounts then Err(NotFound)
    else if d.accounts[r.account].status.Deleted? && r.account in d.purged then Ok(Forget)
    else if !l.trashEnabled || !TrashDue(r, l.trashHours, at) || !d.accounts[r.account].status.Active? then Ok(Keep)
    else Ok(if worker then Drop else Review)
  }

  function StagingSweep(d: Tables.Db, r: Record, worker: bool): Result<Sweep> {
    if r.account !in d.accounts then Err(NotFound)
    else if d.accounts[r.account].status.Deleted? && r.account in d.purged then Ok(Forget)
    else if !d.accounts[r.account].status.Active? then Ok(Keep)
    else Ok(if worker then Drop else Review)
  }

  function CleanTrash(j: Journal, d: Tables.Db, l: Lifecycle, t: Token, at: nat, worker: bool, fits: bool): Turn {
    if t !in j.trash then Fail(j, Database) else
    var r := j.trash[t];
    match TrashSweep(d, l, r, at, worker)
    case Err(e) => Fail(j, e)
    case Ok(Keep) => Turn(j, Ok(r))
    case Ok(Forget) | Ok(Drop) => Turn(j.(trash := j.trash - {t}), Ok(r))
    case Ok(Review) =>
      if !fits then Fail(j, InvalidInput)
      else Turn(j.(trash := j.trash[t := r.(trashReview := true)]), Ok(r))
  }

  function CleanStaging(j: Journal, d: Tables.Db, t: Token, worker: bool, fits: bool): Turn {
    if t !in j.staging then Fail(j, Database) else
    var r := j.staging[t];
    match StagingSweep(d, r, worker)
    case Err(e) => Fail(j, e)
    case Ok(Keep) => Turn(j, Ok(r))
    case Ok(Forget) | Ok(Drop) => Turn(j.(staging := j.staging - {t}), Ok(r))
    case Ok(Review) =>
      if !fits then Fail(j, InvalidInput)
      else Turn(j.(staging := j.staging[t := r.(stagingReview := true)]), Ok(r))
  }

  // ---------- Events and runs ----------

  /** Every event carries the account database it runs against, so accounts may change freely in between. */
  datatype Event =
    | EvBegin(c: Config, d: Tables.Db, start: Start, draw: Draw)
    | EvFinish(record: Record, reply: Option<Reply>, at: nat, fits: bool)
    | EvExpire(c: Config, key: Key, at: nat)
    | EvClaim(c: Config, d: Tables.Db, claim: Claim, fits: bool, drawn: Uuid)
    | EvFinishUndo(record: Record, success: Option<bool>, at: nat, fits: bool)
    | EvRestore(authority: Tables.Authority, drawn: Uuid)
    | EvCleanTrash(d: Tables.Db, l: Lifecycle, token: Token, at: nat, worker: bool, fits: bool)
    | EvCleanStaging(d: Tables.Db, token: Token, worker: bool, fits: bool)

  ghost function After(j: Journal, ev: Event): Journal {
    match ev
    case EvBegin(c, d, start, draw) => Begin(j, c, d, start, draw).journal
    case EvFinish(record, reply, at, fits) => Finish(j, record, reply, at, fits).journal
    case EvExpire(c, key, at) => Expire(j, c, key, at).journal
    case EvClaim(c, d, claim, fits, drawn) => ClaimUndo(j, c, d, claim, fits, drawn).journal
    case EvFinishUndo(record, success, at, fits) => FinishUndo(j, record, success, at, fits).journal
    case EvRestore(authority, drawn) => Restore(j, authority, drawn)
    case EvCleanTrash(d, l, token, at, worker, fits) => CleanTrash(j, d, l, token, at, worker, fits).journal
    case EvCleanStaging(d, token, worker, fits) => CleanStaging(j, d, token, worker, fits).journal
  }

  ghost predicate DropOk(j: Journal, c: Config, s: Start, drop: set<Key>) {
    var expired := ExpiredKeys(j.records, s.account, Cutoff(s.at, c.retentionHours));
    drop <= expired && |drop| == Min(|expired|, BEGIN_EXPIRY_LIMIT)
  }

  /** What the environment guarantees: drawn UUIDs are new, and LIMIT returns as many expired rows as there are. */
  ghost predicate Admissible(j: Journal, ev: Event) {
    match ev
    case EvBegin(c, _, start, draw) =>
      draw.id !in j.used && draw.epoch !in j.used && draw.id != draw.epoch && DropOk(j, c, start, draw.drop)
    case EvClaim(_, _, _, _, drawn) => drawn !in j.used
    case EvRestore(_, drawn) => drawn !in j.used
    case _ => true
  }

  ghost function Final(j: Journal, run: seq<Event>): Journal
    decreases |run|
  {
    if run == [] then j else Final(After(j, run[0]), run[1..])
  }

  ghost predicate AdmissibleRun(j: Journal, run: seq<Event>)
    decreases |run|
  {
    run != [] ==> Admissible(j, run[0]) && AdmissibleRun(After(j, run[0]), run[1..])
  }
}
