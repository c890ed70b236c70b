/** The proof steps of the provisioning protocol: which writes and commits are safe, and when. */
module HostSteps {
  import opened Types
  import opened Sums
  import opened Tables
  import opened Ops
  import opened Invariant
  import opened Preservation
  import opened Evolution
  import opened Runs
  import opened Native
  import opened NativeCommits
  import opened NativeRequests

  // ---------- Input checks ----------

  /** The least quota that leaves room for the journal and the directory itself. */
  function MinimumQuota(cfg: Config): nat {
    if cfg.journalEnabled then Max(65536, (cfg.maxRecordBytes + 4095) / 4096 * 8192 + 8192)
    else if cfg.userQuota then 4096
    else 1
  }

  predicate Lower(c: char) {
    'a' <= c <= 'z'
  }

  predicate NameOk(name: string) {
    && 0 < |name| <= 64 && Lower(name[0])
    && forall i :: 0 <= i < |name| ==> Lower(name[i]) || '0' <= name[i] <= '9' || name[i] in "_.-"
  }

  function ValidateInput(cfg: Config, name: string, quota: nat, rootAdmin: bool): (r: Result<()>)
    ensures r.Ok? <==>
      && cfg.enabled && cfg.hasTemplate && NameOk(name) && MinimumQuota(cfg) <= quota <= I64_MAX
      && (name in cfg.reservedNames ==> rootAdmin && name == "tealdrive")
      && (cfg.userQuota ==> quota >= CHILD_MINIMUM && quota % 1024 == 0)
    ensures r.Err? ==> r == Err(if !cfg.enabled || !cfg.hasTemplate then Forbidden else InvalidInput)
  {
    if !cfg.enabled || !cfg.hasTemplate then Err(Forbidden) else
    if !NameOk(name) || quota < MinimumQuota(cfg) || quota > I64_MAX
       || (name in cfg.reservedNames && !(rootAdmin && name == "tealdrive")) then Err(InvalidInput) else
    if cfg.userQuota && (quota < 4096 || quota % 1024 != 0) then Err(InvalidInput) else Ok(())
  }

  // ---------- Steps of the protocol ----------

  lemma {:induction false} TraceInv(cfg: Config, trace: seq<Sys>, d: Db, native: map<nat, nat>)
    requires trace != [] && trace[|trace| - 1] == Sys(d, native)
    requires AllSafe(cfg, trace)
    ensures SysInv(cfg, Sys(d, native)) && Inv(d) && (cfg.userQuota ==> NativeOk(cfg, d, native) && Floored(d))
  {
    hide Inv, NativeOk, Floored;
  }

  /** The kernel holds exactly the limit that the database grants. */
  ghost predicate Synced(cfg: Config, d: Db, native: map<nat, nat>, id: Id) {
    cfg.userQuota && IsVirtual(d, id) ==>
      d.accounts[id].uid in native && native[d.accounts[id].uid] == KernelLimit(cfg, Limit(d, id))
  }

  lemma {:induction false} AccountWrite(cfg: Config, d: Db, native: map<nat, nat>, id: Id, bytes: nat)
    requires Inv(d) && (cfg.userQuota ==> NativeOk(cfg, d, native)) && id in d.accounts && bytes <= Limit(d, id)
    ensures cfg.userQuota ==> NativeOk(cfg, d, native[d.accounts[id].uid := KernelLimit(cfg, bytes)])
  {
    hide Inv, NativeOk, Limit, KernelLimit;
    if cfg.userQuota {
      WriteAccount(cfg, d, native, id, bytes);
    }
  }

  /** A kernel limit fits a new number of bytes if it was just set to it, or did not have to shrink. */
  lemma {:induction false} ShrunkNow(cfg: Config, d: Db, native: map<nat, nat>, id: Id, bytes: nat)
    requires id in d.accounts && (cfg.userQuota ==> NativeOk(cfg, d, native))
    requires IsVirtual(d, id) && bytes < Limit(d, id) && cfg.userQuota ==>
      d.accounts[id].uid in native && native[d.accounts[id].uid] == KernelLimit(cfg, bytes)
    ensures cfg.userQuota ==> Shrunk(cfg, d, native, id, bytes)
  {
    hide Limit, KernelLimit, Assigned;
    if cfg.userQuota && IsVirtual(d, id) && Limit(d, id) <= bytes {
      assert AccountSafe(cfg, d, native, id);
      KernelMonotone(cfg, Limit(d, id), bytes);
    }
  }

  /** Every live virtual account of the second state was one in the first. */
  predicate NoNewIdentity(d: Db, e: Db) {
    forall id :: id in e.accounts && Live(e, id) ==> id in d.accounts && Live(d, id) && d.accounts[id].uid == e.accounts[id].uid
  }

  lemma {:induction false} FollowsOn(cfg: Config, d: Db, e: Db, native: map<nat, nat>)
    requires SysInv(cfg, Sys(e, native)) && NoNewIdentity(d, e)
    ensures Follows(cfg, Sys(d, native), Sys(e, native))
  {
    hide SysInv;
    if Covered(d, native) {
      CoveredCommit(d, e, native);
    }
  }

  lemma {:induction false} BudgetCommit(cfg: Config, d: Db, native: map<nat, nat>, id: Id, bytes: nat)
    requires Inv(d) && (cfg.userQuota ==> NativeOk(cfg, d, native) && Floored(d)) && SetAdminBudget(d, Root, id, bytes).Ok?
    requires cfg.userQuota ==> Shrunk(cfg, d, native, id, SetAdminBudget(d, Root, id, bytes).value.remaining)
    ensures var Prepared(e, remaining) := SetAdminBudget(d, Root, id, bytes).value;
      && Follows(cfg, Sys(d, native), Sys(e, native)) && Inv(e) && (cfg.userQuota ==> NativeOk(cfg, e, native))
      && id in d.accounts && id in e.accounts && e.accounts[id] == d.accounts[id]
      && (IsVirtual(d, id) ==> Limit(e, id) == remaining)
  {
    hide Inv, NativeOk, Limit, KernelLimit, Shrunk;
    SetAdminBudgetKeeps(d, Root, id, bytes);
    if cfg.userQuota {
      BudgetNative(cfg, d, native, Root, id, bytes);
    }
    BudgetLimit(d, id, bytes);
    FollowsOn(cfg, d, SetAdminBudget(d, Root, id, bytes).value.db, native);
  }

  lemma {:induction false} BudgetLimit(d: Db, id: Id, bytes: nat)
    requires Inv(d) && SetAdminBudget(d, Root, id, bytes).Ok?
    ensures var Prepared(e, remaining) := SetAdminBudget(d, Root, id, bytes).value;
      id in d.accounts && e.accounts == d.accounts && (IsVirtual(d, id) ==> Limit(e, id) == remaining)
  {
    hide Total, ChildRows, PendingRows, KeysOk, PurgedOk, IntentsOk, LedgerOk, ProofRowsOk, ProofCapsOk;
    assert ShapeOk(d.accounts, d.accounts[id]);
  }

  lemma {:induction false} OwnRemaining(d: Db, id: Id, bytes: nat)
    requires SetAdminOwn(d, Root, id, bytes).Ok?
    ensures SetAdminOwn(d, Root, id, bytes).value.remaining == bytes
  {
    hide Total, ChildRows, PendingRows;
  }

  lemma {:induction false} OwnCommit(cfg: Config, d: Db, native: map<nat, nat>, id: Id, bytes: nat)
    requires Inv(d) && (cfg.userQuota ==> NativeOk(cfg, d, native) && Floored(d)) && SetAdminOwn(d, Root, id, bytes).Ok?
    requires cfg.userQuota ==> Shrunk(cfg, d, native, id, bytes)
    ensures var e := SetAdminOwn(d, Root, id, bytes).value.db;
      && Follows(cfg, Sys(d, native), Sys(e, native)) && Inv(e) && (cfg.userQuota ==> NativeOk(cfg, e, native))
      && id in e.accounts && IsVirtual(d, id) && IsVirtual(e, id) && Limit(e, id) == bytes
  {
    hide Inv, NativeOk, KernelLimit, Shrunk, Children, Pending;
    SetAdminOwnKeeps(d, Root, id, bytes);
    if cfg.userQuota {
      OwnNative(cfg, d, native, Root, id, bytes);
    }
    FollowsOn(cfg, d, SetAdminOwn(d, Root, id, bytes).value.db, native);
  }

  lemma {:induction false} ChildOfOwner(d: Db, id: Id)
    requires Inv(d) && id in d.accounts && IsChild(d.accounts[id])
    ensures d.accounts[id].owner.Some? && d.accounts[id].owner.value in d.accounts
    ensures d.accounts[id].uid != d.accounts[d.accounts[id].owner.value].uid
    ensures IsVirtual(d, id) && Limit(d, id) == QuotaOf(d.accounts[id])
  {
    hide KeysOk, PurgedOk, IntentsOk, LedgerOk, ProofRowsOk, ProofCapsOk;
    ChildOwnerShape(d, id);
  }

  /** What an owner keeps after a child's quota changes, compared with what it had. */
  lemma {:induction false} ChildRemaining(d: Db, actor: Authority, id: Id, generation: nat, bytes: nat)
    requires Inv(d) && SetChildQuota(d, actor, id, generation, bytes).Ok?
    ensures id in d.accounts && IsChild(d.accounts[id]) && d.accounts[id].owner.Some?
    ensures var owner := d.accounts[id].owner.value; var remaining := SetChildQuota(d, actor, id, generation, bytes).value.remaining;
      owner in d.accounts && (IsVirtual(d, owner) ==>
        remaining == if owner in d.own then Limit(d, owner) else Limit(d, owner) + QuotaOf(d.accounts[id]) - bytes)
  {
    hide Inv, Total, ChildRows, PendingRows, Manage;
    ChildOwnerShape(d, id);
  }

  lemma {:induction false} QuotaCommit(cfg: Config, d: Db, native: map<nat, nat>, actor: Authority, id: Id, generation: nat, bytes: nat)
    requires Inv(d) && (cfg.userQuota ==> NativeOk(cfg, d, native) && Floored(d)) && SetChildQuota(d, actor, id, generation, bytes).Ok?
    requires cfg.userQuota ==> Shrunk(cfg, d, native, id, bytes) && bytes >= CHILD_MINIMUM
    requires cfg.userQuota && Parent(d, id).Some? ==>
      Shrunk(cfg, d, native, Parent(d, id).value, SetChildQuota(d, actor, id, generation, bytes).value.remaining)
    ensures var Prepared(e, remaining) := SetChildQuota(d, actor, id, generation, bytes).value;
      && Follows(cfg, Sys(d, native), Sys(e, native)) && Inv(e) && (cfg.userQuota ==> NativeOk(cfg, e, native))
      && id in d.accounts && e.accounts.Keys == d.accounts.Keys
      && (forall i :: i in d.accounts ==> e.accounts[i].uid == d.accounts[i].uid && e.accounts[i].kind == d.accounts[i].kind)
      && IsVirtual(e, id) && Limit(e, id) == bytes
      && Parent(d, id).Some? && Parent(d, id).value in e.accounts
      && (IsVirtual(d, Parent(d, id).value) ==> Limit(e, Parent(d, id).value) == remaining)
  {
    hide Inv, NativeOk, Floored, KernelLimit, Shrunk, Limit, SetChildQuota;
    SetChildQuotaKeeps(d, actor, id, generation, bytes);
    QuotaRows(d, actor, id, generation, bytes);
    if cfg.userQuota {
      ChildQuotaNative(cfg, d, native, actor, id, generation, bytes);
    } else {
      QuotaLimits(d, actor, id, generation, bytes);
    }
    FollowsOn(cfg, d, SetChildQuota(d, actor, id, generation, bytes).value.db, native);
  }

  /** Only the child's row changes, and neither who it is nor whether it lives. */
  lemma {:induction false} QuotaRows(d: Db, actor: Authority, id: Id, generation: nat, bytes: nat)
    requires SetChildQuota(d, actor, id, generation, bytes).Ok?
    ensures var e := SetChildQuota(d, actor, id, generation, bytes).value.db;
      && id in d.accounts && IsChild(d.accounts[id]) && e.purged == d.purged && e.accounts.Keys == d.accounts.Keys
      && (forall i :: i in d.accounts ==> e.accounts[i].uid == d.accounts[i].uid && e.accounts[i].kind == d.accounts[i].kind)
      && (Floored(d) && bytes >= CHILD_MINIMUM ==> Floored(e))
  {
    hide Children, Pending, BudgetOf, Manage;
  }

  lemma {:induction false} QuotaLimits(d: Db, actor: Authority, id: Id, generation: nat, bytes: nat)
    requires Inv(d) && SetChildQuota(d, actor, id, generation, bytes).Ok?
    ensures var Prepared(e, remaining) := SetChildQuota(d, actor, id, generation, bytes).value;
      && Limit(e, id) == bytes && Parent(d, id).Some? && Parent(d, id).value in d.accounts
      && (IsVirtual(d, Parent(d, id).value) ==> Limit(e, Parent(d, id).value) == remaining)
  {
    hide Inv, Total, ChildRows, PendingRows, Children, Pending, BudgetOf, OwnOf, Limit, Manage;
    ChildOwnerShape(d, id);
    var owner := d.accounts[id].owner.value;
    var r := Bump(d.accounts[id]).(quota := Some(bytes));
    RequotaLimits(d, id, r, owner, owner);
  }

  // ---------- Requests ----------

  lemma {:induction false} RequestWrite(cfg: Config, d: Db, native: map<nat, nat>, key: Key, bytes: nat)
    requires Inv(d) && (cfg.userQuota ==> NativeOk(cfg, d, native)) && Open(d, key) && bytes <= d.intents[key].quota
    ensures cfg.userQuota ==> NativeOk(cfg, d, native[d.intents[key].uid := KernelLimit(cfg, bytes)])
  {
    hide Inv, NativeOk, KernelLimit;
    if cfg.userQuota {
      WriteRequest(cfg, d, native, key, bytes);
    }
  }

  lemma {:induction false} CursorCommit(cfg: Config, d: Db, native: map<nat, nat>, cursor: Option<nat>)
    requires Inv(d) && (cfg.userQuota ==> NativeOk(cfg, d, native) && Floored(d))
    ensures var e := d.(cursor := cursor); Follows(cfg, Sys(d, native), Sys(e, native)) && Later(d, e)
  {
    hide Total, ChildRows, PendingRows, RowsOk, KeysOk, PurgedOk, IntentsOk, ProofRowsOk, ProofCapsOk, Assigned, NativeOk;
    var e := d.(cursor := cursor);
    LedgerSame(d, e);
    SameAssigned(d, e);
    if cfg.userQuota {
      CursorNative(cfg, d, native, cursor);
    }
    FollowsOn(cfg, d, e, native);
  }

  lemma {:induction false} CursorNative(cfg: Config, d: Db, native: map<nat, nat>, cursor: Option<nat>)
    requires NativeOk(cfg, d, native) && Floored(d)
    ensures NativeOk(cfg, d.(cursor := cursor), native) && Floored(d.(cursor := cursor))
  {
    hide Limit, KernelLimit, Assigned;
    var e := d.(cursor := cursor);
    SameAssigned(d, e);
    forall id | id in e.accounts ensures AccountSafe(cfg, e, native, id) {
      assert AccountSafe(cfg, d, native, id);
      CursorLimit(d, cursor, id);
    }
    KeepRequests(cfg, d, e, native);
  }

  lemma {:induction false} CursorLimit(d: Db, cursor: Option<nat>, id: Id)
    ensures Limit(d.(cursor := cursor), id) == Limit(d, id)
    ensures Assigned(d.(cursor := cursor)) == Assigned(d)
  {
    hide Total, ChildRows, PendingRows;
  }

  /** What reserving a child's bytes does to the owner's own limit. */
  lemma {:induction false} ReserveRemaining(d: Db, owner: Id, generation: nat, key: Key, name: string, quota: nat, uid: nat)
    requires Inv(d) && ReserveChild(d, owner, generation, key, name, quota, uid).Ok?
    ensures owner in d.accounts && key !in d.intents
    ensures var n := Intent(owner, name, quota, uid, None);
      && ReserveChild(d, owner, generation, key, name, quota, uid).value == Reserved(d, key, n)
      && Children(d, owner) + Pending(d, owner) + quota <= BudgetOf(d, owner)
      && (IsVirtual(d, owner) ==>
            Limit(Reserved(d, key, n), owner) == if owner in d.own then Limit(d, owner) else Limit(d, owner) - quota)
  {
    hide Inv, Total, ChildRows, PendingRows;
    ReservedLimit(d, key, Intent(owner, name, quota, uid, None), owner);
    AdminRow(d, owner);
  }

  lemma {:induction false} AdminRow(d: Db, id: Id)
    requires Inv(d) && id in d.accounts && d.accounts[id].role == Admin
    ensures !IsChild(d.accounts[id]) && id != RootOwner
  {
    hide KeysOk, PurgedOk, IntentsOk, LedgerOk, ProofRowsOk, ProofCapsOk;
  }

  lemma {:induction false} ReserveCommit(cfg: Config, d: Db, native: map<nat, nat>, owner: Id, generation: nat, key: Key,
                                         name: string, quota: nat, uid: nat)
    requires Inv(d) && (cfg.userQuota ==> NativeOk(cfg, d, native) && Floored(d) && quota >= CHILD_MINIMUM) && uid !in Assigned(d)
    requires ReserveChild(d, owner, generation, key, name, quota, uid).Ok?
    requires cfg.userQuota && IsVirtual(d, owner) ==>
      Shrunk(cfg, d, native, owner, Limit(ReserveChild(d, owner, generation, key, name, quota, uid).value, owner))
    ensures var e := ReserveChild(d, owner, generation, key, name, quota, uid).value;
      Follows(cfg, Sys(d, native), Sys(e, native)) && Later(d, e) && e.used == d.used
  {
    hide Inv, Later, NativeOk, ReserveChild, Limit, KernelLimit, Assigned, Reserved;
    ReserveChildKeeps(d, owner, generation, key, name, quota, uid);
    ReserveRemaining(d, owner, generation, key, name, quota, uid);
    var n := Intent(owner, name, quota, uid, None);
    ReservedIs(d, key, n);
    ReserveLater(d, key, n);
    if cfg.userQuota {
      ReserveNative(cfg, d, native, key, n);
    }
    FollowsOn(cfg, d, d.(intents := d.intents[key := n]), native);
  }

  lemma {:induction false} ReservedIs(d: Db, key: Key, n: Intent)
    ensures Reserved(d, key, n) == d.(intents := d.intents[key := n])
  {
  }

  lemma {:induction false} ReserveAdminCommit(cfg: Config, d: Db, native: map<nat, nat>, key: Key, name: string, budget: nat, uid: nat)
    requires Inv(d) && (cfg.userQuota ==> NativeOk(cfg, d, native) && Floored(d) && budget >= CHILD_MINIMUM) && uid !in Assigned(d)
    requires ReserveAdmin(d, key, name, budget, uid).Ok?
    ensures var e := ReserveAdmin(d, key, name, budget, uid).value;
      Follows(cfg, Sys(d, native), Sys(e, native)) && Later(d, e) && e.used == d.used
  {
    hide Inv, Later, NativeOk, Limit, KernelLimit, Assigned, Pending, Delegated;
    ReserveAdminKeeps(d, key, name, budget, uid);
    var n := Intent(RootOwner, name, budget, uid, None);
    ReserveLater(d, key, n);
    RootNoAccount(d);
    if cfg.userQuota {
      ReserveNative(cfg, d, native, key, n);
    }
    FollowsOn(cfg, d, d.(intents := d.intents[key := n]), native);
  }

  lemma {:induction false} RootNoAccount(d: Db)
    requires Inv(d)
    ensures RootOwner !in d.accounts
  {
    hide KeysOk, PurgedOk, IntentsOk, LedgerOk, ProofRowsOk, ProofCapsOk;
  }

  lemma {:induction false} FinalizeIs(d: Db, actor: Authority, input: NewAccount, hash: Option<string>, key: Key, id: Id)
    requires Open(d, key) && input.kind == Virtual && input.uid == d.intents[key].uid
    requires input.role == User ==> input.owner == Some(d.intents[key].owner) && input.quota == Some(d.intents[key].quota)
    ensures Finalize(d, actor, input, hash, key, id) == CreateRecord(d, actor, input, hash, Some(Request(key, d.intents[key])), id)
  {
    hide CreateRecord;
  }

  lemma {:induction false} CursorStep(d: Db, cursor: Option<nat>)
    requires Inv(d)
    ensures Later(d, d.(cursor := cursor)) && Assigned(d.(cursor := cursor)) == Assigned(d)
  {
    hide Inv, AccountsLater;
    ProofsStay(d);
    StillLater(d, d.(cursor := cursor));
  }

  lemma {:induction false} ClosedRequest(d: Db, key: Key)
    requires Inv(d) && key in d.intents && d.intents[key].account.Some?
    ensures d.intents[key].account.value in d.accounts && d.accounts[d.intents[key].account.value].uid == d.intents[key].uid
    ensures RootOwner !in d.accounts
  {
    hide KeysOk, PurgedOk, LedgerOk, ProofRowsOk, ProofCapsOk;
    assert IntentOk(d.accounts, d.intents[key]);
  }

  lemma {:induction false} FinalizeCommit(cfg: Config, d: Db, native: map<nat, nat>, actor: Authority, input: NewAccount,
                                          hash: Option<string>, key: Key, id: Id)
    requires Inv(d) && (cfg.userQuota ==> NativeOk(cfg, d, native) && Floored(d)) && Unused(d, id)
    requires Finalize(d, actor, input, hash, key, id).Ok? && input.kind == Virtual
    requires cfg.userQuota && key in d.intents ==> d.intents[key].uid in native
    ensures var e := Finalize(d, actor, input, hash, key, id).value;
      && Follows(cfg, Sys(d, native), Sys(e, native)) && Later(d, e)
      && id !in d.accounts && e.accounts == d.accounts[id := NewRow(input, hash)]
      && e.intents == d.intents[key := d.intents[key].(account := Some(id))]
  {
    hide Inv, Later, NativeOk, Finalize, Floored, Covered;
    FinalizeStep(d, actor, input, hash, key, id);
    FinalizeTables(d, actor, input, hash, key, id);
    if cfg.userQuota {
      FinalizeFloor(d, actor, input, hash, key, id);
      FinalizeNative(cfg, d, native, actor, input, hash, key, id);
      FinalizeCovers(d, native, actor, input, hash, key, id);
    }
  }

  /** The new account has its limit in the kernel if the request had, and nobody else's limit moved. */
  lemma {:induction false} FinalizeSynced(cfg: Config, d: Db, native: map<nat, nat>, actor: Authority, input: NewAccount,
                                          hash: Option<string>, key: Key, id: Id, other: Id)
    requires Inv(d) && Unused(d, id) && Finalize(d, actor, input, hash, key, id).Ok? && input.kind == Virtual && key in d.intents
    ensures var e, uid := Finalize(d, actor, input, hash, key, id).value, d.intents[key].uid;
      && (cfg.userQuota ==> uid in native && native[uid] == KernelLimit(cfg, d.intents[key].quota)) ==> Synced(cfg, e, native, id)
    ensures other in d.accounts && Synced(cfg, d, native, other) ==> Synced(cfg, Finalize(d, actor, input, hash, key, id).value, native, other)
  {
    hide Inv, Finalize, Limit, KernelLimit;
    FinalizeNew(d, actor, input, hash, key, id);
    if other in d.accounts {
      FinalizeOld(d, actor, input, hash, key, id, other);
    }
  }

  /** A request's UID is nobody's yet, so its kernel limit is nobody else's. */
  lemma {:induction false} RequestApart(cfg: Config, d: Db, native: map<nat, nat>, key: Key, limit: nat, other: Id)
    requires Inv(d) && Open(d, key) && other in d.accounts && Synced(cfg, d, native, other)
    ensures Synced(cfg, d, native[d.intents[key].uid := limit], other)
  {
    hide KeysOk, PurgedOk, LedgerOk, ProofRowsOk, ProofCapsOk, Limit, KernelLimit;
    assert IntentOk(d.accounts, d.intents[key]);
  }

  /** The new child takes over its request's quota. */
  lemma {:induction false} FinalizeFloor(d: Db, actor: Authority, input: NewAccount, hash: Option<string>, key: Key, id: Id)
    requires Inv(d) && Unused(d, id) && Finalize(d, actor, input, hash, key, id).Ok? && Floored(d)
    ensures Floored(Finalize(d, actor, input, hash, key, id).value)
  {
    hide Inv, CreateRecord;
    FinalizeTables(d, actor, input, hash, key, id);
  }

  lemma {:induction false} CancelFloor(d: Db, key: Key)
    requires CancelPending(d, key).Ok? && Floored(d)
    ensures Floored(CancelPending(d, key).value)
  {
  }

  lemma {:induction false} PurgeFloor(d: Db, id: Id)
    requires Floored(d)
    ensures BeginPurge(d, id).Ok? ==> Floored(BeginPurge(d, id).value)
    ensures FinishPurge(d, id).Ok? ==> Floored(FinishPurge(d, id).value)
  {
  }

  lemma {:induction false} CancelIdentities(d: Db, key: Key)
    requires CancelPending(d, key).Ok?
    ensures NoNewIdentity(d, CancelPending(d, key).value)
  {
  }

  lemma {:induction false} BeginPurgeIdentities(d: Db, id: Id)
    requires BeginPurge(d, id).Ok?
    ensures NoNewIdentity(d, BeginPurge(d, id).value)
  {
  }

  lemma {:induction false} FinishPurgeIdentities(d: Db, id: Id)
    requires FinishPurge(d, id).Ok?
    ensures NoNewIdentity(d, FinishPurge(d, id).value)
  {
  }

  lemma {:induction false} CancelIs(d: Db, key: Key)
    ensures Open(d, key) ==>
      CancelPending(d, key) == Ok(d.(intents := d.intents - {key}, retired := d.retired + {d.intents[key].uid}))
    ensures CancelPending(d, key).Ok? ==> key in d.intents
  {
  }

  lemma {:induction false} CancelCommit(cfg: Config, d: Db, native: map<nat, nat>, key: Key)
    requires Inv(d) && (cfg.userQuota ==> NativeOk(cfg, d, native) && Floored(d)) && CancelPending(d, key).Ok?
    ensures Follows(cfg, Sys(d, native), Sys(CancelPending(d, key).value, native)) && Later(d, CancelPending(d, key).value)
  {
    hide Inv, Later, NativeOk, CancelPending, Floored;
    CancelPendingKeeps(d, key);
    CancelLater(d, key);
    if cfg.userQuota {
      CancelFloor(d, key);
      CancelNative(cfg, d, native, key);
    }
    CancelIdentities(d, key);
    FollowsOn(cfg, d, CancelPending(d, key).value, native);
  }

  lemma {:induction false} BeginPurgeCommit(cfg: Config, d: Db, native: map<nat, nat>, id: Id)
    requires Inv(d) && (cfg.userQuota ==> NativeOk(cfg, d, native) && Floored(d)) && BeginPurge(d, id).Ok?
    ensures Follows(cfg, Sys(d, native), Sys(BeginPurge(d, id).value, native)) && Later(d, BeginPurge(d, id).value)
  {
    hide Inv, Later, NativeOk, BeginPurge, Floored;
    BeginPurgeKeeps(d, id);
    BeginPurgeLater(d, id);
    if cfg.userQuota {
      PurgeFloor(d, id);
      BeginPurgeNative(cfg, d, native, id);
    }
    BeginPurgeIdentities(d, id);
    FollowsOn(cfg, d, BeginPurge(d, id).value, native);
  }

  lemma {:induction false} FinishPurgeCommit(cfg: Config, d: Db, native: map<nat, nat>, id: Id)
    requires Inv(d) && (cfg.userQuota ==> NativeOk(cfg, d, native) && Floored(d)) && FinishPurge(d, id).Ok?
    ensures Follows(cfg, Sys(d, native), Sys(FinishPurge(d, id).value, native)) && Later(d, FinishPurge(d, id).value)
  {
    hide Inv, Later, NativeOk, FinishPurge, Floored;
    FinishPurgeKeeps(d, id);
    FinishPurgeLater(d, id);
    if cfg.userQuota {
      PurgeFloor(d, id);
      FinishPurgeNative(cfg, d, native, id);
    }
    FinishPurgeIdentities(d, id);
    FollowsOn(cfg, d, FinishPurge(d, id).value, native);
  }

  /** Writing one account's limit leaves every other account's kernel limit alone. */
  lemma {:induction false} OthersStaySynced(cfg: Config, d: Db, native: map<nat, nat>, id: Id, limit: nat, other: Id)
    requires Inv(d) && id in d.accounts && other in d.accounts && other != id && Synced(cfg, d, native, other)
    ensures Synced(cfg, d, native[d.accounts[id].uid := limit], other)
  {
    hide KeysOk, PurgedOk, IntentsOk, LedgerOk, ProofRowsOk, ProofCapsOk, Limit, KernelLimit;
  }
}
