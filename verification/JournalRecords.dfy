/** Operation records: what a request writes down, and the decisions taken on one record. */
module JournalRecords {
  import opened Types
  import opened Uuids

  const U64_MAX: nat := 0xffff_ffff_ffff_ffff

  function SatSub(a: nat, b: nat): nat {
    if a >= b then a - b else 0
  }

  function SatAdd(a: nat, b: nat): nat {
    Min(a + b, U64_MAX)
  }

  function SatMul(a: nat, b: nat): nat {
    Min(a * b, U64_MAX)
  }

  datatype Config = Config(
    enabled: bool, retentionHours: nat, undoMaxHours: nat,
    maxPerAccount: nat, maxTotal: nat, maxRecordBytes: nat)

  predicate ConfigOk(c: Config) {
    && 1 <= c.retentionHours <= 876000
    && 1 <= c.undoMaxHours <= c.retentionHours
    && 100 <= c.maxPerAccount <= 100000
    && c.maxPerAccount <= c.maxTotal <= 1000000
    && 4096 <= c.maxRecordBytes <= 32768
  }

  datatype Command =
    | WriteFile | UploadCommit | CreateFolder | Rename | Move | Copy | MoveToTrash | RestoreFromTrash
    | DeletePermanently | Chmod | CompressZip | CompressTarGz | ExtractArchive
    | ReadTextFile | DownloadFile | ReadFileRange | OtherCommand

  datatype Action =
    | WriteAction | UploadAction | FolderAction | RenameAction | MoveAction | CopyAction | TrashAction
    | RestoreAction | DeleteAction | ChmodAction | ArchiveAction | ExtractAction | ReadTextAction
    | DownloadAction | ReadAction

  function ActionOf(c: Command): Action {
    match c
    case WriteFile => WriteAction
    case UploadCommit => UploadAction
    case CreateFolder => FolderAction
    case Rename => RenameAction
    case Move => MoveAction
    case Copy => CopyAction
    case MoveToTrash => TrashAction
    case RestoreFromTrash => RestoreAction
    case DeletePermanently => DeleteAction
    case Chmod => ChmodAction
    case CompressZip | CompressTarGz => ArchiveAction
    case ExtractArchive => ExtractAction
    case ReadTextFile => ReadTextAction
    case DownloadFile | ReadFileRange => DownloadAction
    case OtherCommand => ReadAction
  }

  predicate Tracked(c: Command) {
    !c.OtherCommand?
  }

  predicate Reversible(a: Action) {
    a.MoveAction? || a.RenameAction? || a.TrashAction? || a.ChmodAction?
  }

  datatype FileKind = RegularFile | Directory | OtherKind

  datatype FileState = FileState(
    kind: FileKind, digest: string, content: Option<string>, tree: Option<string>, device: nat, inode: nat)
  {
    predicate FullyObserved() {
      match kind
      case RegularFile => content.Some?
      case Directory => tree.Some?
      case OtherKind => false
    }

    predicate SameInode(other: FileState) {
      device == other.device && inode == other.inode && kind == other.kind
    }
  }

  datatype Status = Pending | Success | Failed | Unknown

  datatype Record = Record(
    id: Uuid, request: nat, account: Id, generation: nat, created: nat, updated: nat,
    action: Action, root: string, source: string, target: Option<string>,
    oldMode: Option<nat>, before: Option<FileState>, after: Option<FileState>,
    status: Status, bytesRead: nat, bytesWritten: nat, next: Option<nat>,
    epoch: Option<Uuid>, undo: Option<Status>, staging: Option<string>,
    trashReview: bool, stagingReview: bool)

  datatype Request = Request(
    command: Command, id: nat, root: string, source: string, target: Option<string>,
    offset: Option<nat>, chunk: nat)

  // ---------- Paths ----------

  /** Everything before the last slash, or nothing. */
  function Parent(path: string): (r: string)
    ensures |r| <= |path| && r == path[..|r|]
    ensures r != "" ==> |r| < |path| && path[|r|] == '/' && '/' !in path[|r| + 1..]
    ensures r == "" && path != "" ==> '/' !in path[1..]
  {
    if path == "" then ""
    else if path[|path| - 1] == '/' then path[..|path| - 1]
    else
      var r := Parent(path[..|path| - 1]);
      assert r != "" ==> path[|r| + 1..] == path[..|path| - 1][|r| + 1..] + [path[|path| - 1]];
      r
  }

  function Under(parent: string, name: string): string {
    if parent == "" then name else parent + "/" + name
  }

  const STAGING_PREFIX := ".tdrv-transaction-"
  const TRASH_PREFIX := ".tealdrive-trash/files/"

  function TrashPath(id: Uuid): string {
    TRASH_PREFIX + Text(id)
  }

  predicate Staged(c: Command) {
    || c.WriteFile? || c.UploadCommit? || c.Copy? || c.CompressZip? || c.CompressTarGz? || c.ExtractArchive?
  }

  function Destination(q: Request): Option<string> {
    if q.command.WriteFile? || q.command.UploadCommit? then Some(q.source) else q.target
  }

  function Suffix(c: Command): string {
    match c
    case CompressZip => ".zip"
    case CompressTarGz => ".tar.gz"
    case _ => ""
  }

  function StagingStem(destination: string, id: Uuid): string {
    Under(Parent(destination), STAGING_PREFIX + Text(id))
  }

  function StagingPath(q: Request, id: Uuid): Option<string> {
    if !Staged(q.command) || Destination(q).None? then None
    else Some(StagingStem(Destination(q).value, id) + Suffix(q.command))
  }

  function TargetPath(q: Request, id: Uuid): Option<string> {
    if q.command.MoveToTrash? then Some(TrashPath(id))
    else if q.command.Rename? && q.target.Some? then Some(Under(Parent(q.source), q.target.value))
    else q.target
  }

  function NewRecord(q: Request, account: Id, generation: nat, at: nat, id: Uuid, epoch: Uuid): Record {
    Record(id, q.id, account, generation, at, at, ActionOf(q.command), q.root, q.source, TargetPath(q, id),
           None, None, None, Pending, 0, 0, if q.command.ReadFileRange? then q.offset else None,
           Some(epoch), None, StagingPath(q, id), false, false)
  }

  // ---------- The staging and trash workers' view of a token ----------

  /** lifecycle::stage_target: the temporary path and the destination a staging token allows. */
  function StageTarget(r: Record): Result<(string, string)> {
    if r.staging.None? then Err(InvalidInput) else
    var destination := if r.action.WriteAction? || r.action.UploadAction? then Some(r.source) else r.target;
    if destination.None? then Err(InvalidInput) else
    var stem := StagingStem(destination.value, r.id);
    if r.staging.value != stem && r.staging.value != stem + ".zip" && r.staging.value != stem + ".tar.gz"
    then Err(InvalidInput)
    else if !(r.action.WriteAction? || r.action.UploadAction? || r.action.CopyAction? || r.action.ArchiveAction?
              || r.action.ExtractAction?) || r.status.Success?
    then Err(Forbidden)
    else Ok((r.staging.value, destination.value))
  }

  /** lifecycle::target: the trash path a trash token allows. */
  function TrashTarget(r: Record): Result<string> {
    if r.target.None? || |r.target.value| < |TRASH_PREFIX| || r.target.value[..|TRASH_PREFIX|] != TRASH_PREFIX
    then Err(InvalidInput)
    else if Parse(r.target.value[|TRASH_PREFIX|..]).None? then Err(InvalidInput)
    else Ok(r.target.value)
  }

  predicate TrashDue(r: Record, retentionHours: nat, at: nat) {
    && r.action.TrashAction? && r.status.Success? && (r.undo.None? || r.undo == Some(Failed))
    && r.created <= SatSub(at, SatMul(retentionHours, 3600))
    && r.after.Some? && (r.after.value.kind.RegularFile? || r.after.value.FullyObserved())
    && TrashTarget(r).Ok?
  }

  // ---------- Undo ----------

  datatype Reason =
    | Incomplete | Unsupported | AlreadyClaimed | RestoredBackup | Expired | MissingState | UnsupportedMode
    | PartialObservation

  function EffectiveHours(hours: Option<nat>, c: Config): nat {
    Min(ValueOr(hours, c.undoMaxHours), c.undoMaxHours)
  }

  function ExpiresAt(r: Record, effectiveHours: nat): nat {
    SatAdd(r.created, SatMul(effectiveHours, 3600))
  }

  /** undo::candidate: why the operation cannot be undone, or None if it can. */
  function Unavailable(r: Record, effectiveHours: nat, epoch: Uuid, at: nat): Option<Reason> {
    if !r.status.Success? then Some(Incomplete)
    else if !Reversible(r.action) then Some(Unsupported)
    else if r.undo.Some? then Some(AlreadyClaimed)
    else if r.epoch != Some(epoch) then Some(RestoredBackup)
    else if at >= ExpiresAt(r, effectiveHours) then Some(Expired)
    else if r.after.None? || r.before.None? then Some(MissingState)
    else if r.action.ChmodAction? && (r.oldMode.None? || r.oldMode.value >= 512) then Some(UnsupportedMode)
    else if !r.action.ChmodAction?
            && (r.target.None? || !r.before.value.FullyObserved() || !r.after.value.FullyObserved()
                || !r.before.value.SameInode(r.after.value)) then Some(PartialObservation)
    else None
  }

  predicate Undoable(r: Record, hours: Option<nat>, c: Config, epoch: Uuid, at: nat) {
    Unavailable(r, EffectiveHours(hours, c), epoch, at).None?
  }
}
