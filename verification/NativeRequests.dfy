/** Kernel limits across provisioning requests, purges and background transactions. */
module NativeRequests {
  import opened Types
  import opened Sums
  import opened Tables
  import opened Ops
  import opened Invariant
  import opened Preservation
  import opened Evolution
  import opened Runs
  import opened Native
  import opened NativeCommits

  /** An own-file limit depends on one row, the tables of its id and two sums. */
  lemma {:induction false} SameLimit(d: Db, e: Db, i: Id)
    requires i in d.accounts && i in e.accounts
    requires IsChild(e.accounts[i]) == IsChild(d.accounts[i]) && e.accounts[i].quota == d.accounts[i].quota
    requires (i in e.own <==> i in d.own) && OwnOf(e, i) == OwnOf(d, i) && BudgetOf(e, i) == BudgetOf(d, i)
    ensures Children(e, i) + Pending(e, i) == Children(d, i) + Pending(d, i) ==> Limit(e, i) == Limit(d, i)
    ensures Children(e, i) + Pending(e, i) <= Children(d, i) + Pending(d, i) ==> Limit(e, i) >= Limit(d, i)
  {
    hide Children, Pending;
  }

  // ---------- Opening and cancelling a request ----------

  ghost function Reserved(d: Db, key: Key, n: Intent): Db {
    d.(intents := d.intents[key := n])
  }

  lemma {:induction false} ReservedLimit(d: Db, key: Key, n: Intent, i: Id)
    requires key !in d.intents && n.account.None? && i in d.accounts
    requires n.owner in d.accounts ==>
      Children(d, n.owner) + Pending(d, n.owner) + n.quota <= BudgetOf(d, n.owner)
    ensures i != n.owner ==> Limit(Reserved(d, key, n), i) == Limit(d, i)
    ensures i == n.owner && (IsChild(d.accounts[i]) || i in d.own) ==> Limit(Reserved(d, key, n), i) == Limit(d, i)
    ensures i == n.owner && !IsChild(d.accounts[i]) && i !in d.own ==> Limit(Reserved(d, key, n), i) == Limit(d, i) - n.quota
  {
    hide Children, Pending, BudgetOf;
    ReservedSums(d, key, n, i);
  }

  lemma {:induction false} ReservedSums(d: Db, key: Key, n: Intent, i: Id)
    requires key !in d.intents && n.account.None?
    ensures var e := Reserved(d, key, n);
      && Children(e, i) == Children(d, i) && BudgetOf(e, i) == BudgetOf(d, i)
      && Pending(e, i) == Pending(d, i) + if i == n.owner then n.quota else 0
  {
    hide Total, ChildRows, PendingRows;
    PendingPut(d.intents, key, n, i);
  }

  lemma {:induction false} ReserveNative(cfg: Config, d: Db, native: map<nat, nat>, key: Key, n: Intent)
    requires NativeOk(cfg, d, native) && key !in d.intents && n.account.None? && n.uid !in Assigned(d)
    requires n.owner in d.accounts ==>
      && Children(d, n.owner) + Pending(d, n.owner) + n.quota <= BudgetOf(d, n.owner)
      && Shrunk(cfg, d, native, n.owner, Limit(Reserved(d, key, n), n.owner))
    ensures NativeOk(cfg, Reserved(d, key, n), native)
  {
    hide Limit, KernelLimit, Children, Pending, Assigned;
    var e := Reserved(d, key, n);
    ReservedUids(d, key, n);
    StillKnown(cfg, d, e, native);
    forall i | i in e.accounts ensures AccountSafe(cfg, e, native, i) {
      assert AccountSafe(cfg, d, native, i);
      ReservedLimit(d, key, n, i);
    }
    forall k | k in e.intents ensures RequestSafe(cfg, e, native, k) {
      if k != key {
        assert RequestSafe(cfg, d, native, k);
      }
    }
  }

  lemma {:induction false} ReservedUids(d: Db, key: Key, n: Intent)
    requires key !in d.intents
    ensures Assigned(d) <= Assigned(Reserved(d, key, n))
  {
    var e := Reserved(d, key, n);
    forall u | u in Assigned(d) ensures u in Assigned(e) {
      if k :| k in d.intents && d.intents[k].uid == u {
        assert e.intents[k].uid == u;
      }
    }
  }

  lemma {:induction false} CancelUids(d: Db, key: Key)
    requires CancelPending(d, key).Ok?
    ensures Assigned(d) <= Assigned(CancelPending(d, key).value)
  {
    var e := CancelPending(d, key).value;
    forall u | u in Assigned(d) ensures u in Assigned(e) {
      if k :| k in d.intents && d.intents[k].uid == u {
        if k != key {
          assert e.intents[k].uid == u;
        }
      }
    }
  }

  lemma {:induction false} CancelNative(cfg: Config, d: Db, native: map<nat, nat>, key: Key)
    requires NativeOk(cfg, d, native) && CancelPending(d, key).Ok?
    ensures NativeOk(cfg, CancelPending(d, key).value, native)
  {
    hide Limit, KernelLimit, Children, Pending, Assigned, Total, PendingRows;
    var e := CancelPending(d, key).value;
    CancelUids(d, key);
    forall i | i in e.accounts ensures Limit(d, i) <= Limit(e, i) {
      CancelSums(d, key, i);
      SameLimit(d, e, i);
    }
    forall i | i in e.accounts ensures AccountSafe(cfg, e, native, i) {
      assert AccountSafe(cfg, d, native, i);
      KernelMonotone(cfg, Limit(d, i), Limit(e, i));
    }
    forall k | k in e.intents ensures RequestSafe(cfg, e, native, k) {
      assert RequestSafe(cfg, d, native, k);
    }
    StillKnown(cfg, d, e, native);
  }

  lemma {:induction false} CancelSums(d: Db, key: Key, i: Id)
    requires CancelPending(d, key).Ok?
    ensures var e := CancelPending(d, key).value; Children(e, i) + Pending(e, i) <= Children(d, i) + Pending(d, i)
  {
    hide Total, PendingRows, ChildRows;
    PendingClose(d.intents, key, d.intents[key].(account := Some(RootOwner)), i);
    PendingSplit(d.intents, i, key);
  }

  // ---------- Finalising a request ----------

  lemma {:induction false} FinalizeOld(d: Db, actor: Authority, input: NewAccount, hash: Option<string>, key: Key, id: Id, i: Id)
    requires Inv(d) && Unused(d, id) && i in d.accounts && Finalize(d, actor, input, hash, key, id).Ok?
    ensures var e := Finalize(d, actor, input, hash, key, id).value;
      && i in e.accounts && e.accounts[i] == d.accounts[i] && Limit(d, i) <= Limit(e, i)
      && (input.kind == Virtual ==> Limit(e, i) == Limit(d, i))
  {
    hide Inv, CreateRecord, RootRoom, Total, ChildRows, PendingRows, Limit, HasUsername, UidTaken, Assigned;
    if input.kind == Virtual && input.role == Admin {
      AdminRequest(d, actor, input, hash, key, id);
    }
    var request := Some(Request(key, d.intents[key]));
    var e := Finalize(d, actor, input, hash, key, id).value;
    FreshAccountId(d, id);
    CreateChecks(d, actor, input, hash, request, id);
    CreatedPending(d, input, hash, request, id, RootRoom(d, input, request).value, i);
    PendingSplit(d.intents, i, key);
    ChildPut(d.accounts, id, NewRow(input, hash), i);
    CreatedShape(d, actor, input, hash, request, id);
    SameLimit(d, e, i);
  }

  /** A virtual administrator comes out of a request of root, which is no account. */
  lemma {:induction false} AdminRequest(d: Db, actor: Authority, input: NewAccount, hash: Option<string>, key: Key, id: Id)
    requires Inv(d) && Finalize(d, actor, input, hash, key, id).Ok? && input.kind == Virtual && input.role == Admin
    ensures d.intents[key].owner == RootOwner && RootOwner !in d.accounts
  {
    hide KeysOk, PurgedOk, IntentsOk, LedgerOk, ProofRowsOk, ProofCapsOk, HasUsername, UidTaken, Assigned, Delegated, Pending, Authorized;
  }

  lemma {:induction false} FinalizeNew(d: Db, actor: Authority, input: NewAccount, hash: Option<string>, key: Key, id: Id)
    requires Inv(d) && Unused(d, id) && Finalize(d, actor, input, hash, key, id).Ok? && input.kind == Virtual
    ensures var e := Finalize(d, actor, input, hash, key, id).value;
      id in e.accounts && e.accounts[id].uid == d.intents[key].uid && Limit(e, id) == d.intents[key].quota
  {
    hide Inv, Total, ChildRows, PendingRows, HasUsername, UidTaken, Assigned, Delegated;
    var request := Some(Request(key, d.intents[key]));
    FreshAccountId(d, id);
    FreshOwnerEmpty(d, id);
    CreateChecks(d, actor, input, hash, request, id);
    CreatedPending(d, input, hash, request, id, RootRoom(d, input, request).value, id);
    ChildPut(d.accounts, id, NewRow(input, hash), id);
    CreatedShape(d, actor, input, hash, request, id);
  }

  /** The account is limited exactly if the request was: its kernel limit has to be set before. */
  lemma {:induction false} FinalizeCovers(d: Db, native: map<nat, nat>, actor: Authority, input: NewAccount, hash: Option<string>,
                                          key: Key, id: Id)
    requires Inv(d) && Unused(d, id) && Finalize(d, actor, input, hash, key, id).Ok? && input.kind == Virtual
    ensures key in d.intents
    ensures Covered(Finalize(d, actor, input, hash, key, id).value, native) <==> Covered(d, native) && d.intents[key].uid in native
  {
    hide Inv, CreateRecord, Limit, Assigned, Later;
    var e := Finalize(d, actor, input, hash, key, id).value;
    FinalizeTables(d, actor, input, hash, key, id);
    FinalizeNew(d, actor, input, hash, key, id);
    NewAccountLive(d, actor, input, hash, key, id);
    forall i | i in d.accounts ensures i in e.accounts && e.accounts[i] == d.accounts[i] {
      FinalizeOld(d, actor, input, hash, key, id, i);
    }
    if Covered(e, native) {
      forall i | i in d.accounts && Live(d, i) ensures d.accounts[i].uid in native {
        assert Live(e, i);
      }
    }
  }

  lemma {:induction false} NewAccountLive(d: Db, actor: Authority, input: NewAccount, hash: Option<string>, key: Key, id: Id)
    requires Inv(d) && Unused(d, id) && Finalize(d, actor, input, hash, key, id).Ok? && input.kind == Virtual
    ensures Live(Finalize(d, actor, input, hash, key, id).value, id)
  {
    hide CreateRecord, KeysOk, IntentsOk, LedgerOk, ProofRowsOk, ProofCapsOk, RowsOk;
    FinalizeTables(d, actor, input, hash, key, id);
  }

  /** The kernel limit set for a request carries over to the account it becomes. */
  lemma {:induction false} FinalizeNative(cfg: Config, d: Db, native: map<nat, nat>, actor: Authority, input: NewAccount,
                                          hash: Option<string>, key: Key, id: Id)
    requires Inv(d) && NativeOk(cfg, d, native) && Unused(d, id)
    requires Finalize(d, actor, input, hash, key, id).Ok? && input.kind == Virtual
    ensures var e := Finalize(d, actor, input, hash, key, id).value;
      && NativeOk(cfg, e, native) && id in e.accounts && e.accounts[id].uid == d.intents[key].uid && Limit(e, id) == d.intents[key].quota
  {
    hide Inv, CreateRecord, Limit, KernelLimit, Assigned, Later;
    var e := Finalize(d, actor, input, hash, key, id).value;
    FinalizeTables(d, actor, input, hash, key, id);
    FinalizeStep(d, actor, input, hash, key, id);
    LaterUids(d, e);
    StillKnown(cfg, d, e, native);
    FinalizeNew(d, actor, input, hash, key, id);
    assert RequestSafe(cfg, d, native, key);
    forall i | i in e.accounts ensures AccountSafe(cfg, e, native, i) {
      if i != id {
        FinalizeOld(d, actor, input, hash, key, id, i);
        assert AccountSafe(cfg, d, native, i);
        KernelMonotone(cfg, Limit(d, i), Limit(e, i));
      }
    }
    forall k | k in e.intents ensures RequestSafe(cfg, e, native, k) {
      if k != key {
        assert RequestSafe(cfg, d, native, k);
      }
    }
  }

  lemma {:induction false} FinalizeTables(d: Db, actor: Authority, input: NewAccount, hash: Option<string>, key: Key, id: Id)
    requires Inv(d) && Unused(d, id) && Finalize(d, actor, input, hash, key, id).Ok?
    ensures var e := Finalize(d, actor, input, hash, key, id).value;
      && id !in d.accounts && e.accounts == d.accounts[id := NewRow(input, hash)]
      && e.intents == d.intents[key := d.intents[key].(account := Some(id))]
      && e.purged == d.purged
  {
    hide Inv, ChildRoom, RootRoom, HasUsername, UidTaken, Assigned;
    FreshAccountId(d, id);
  }

  lemma {:induction false} LaterUids(d: Db, e: Db)
    requires Later(d, e)
    ensures Assigned(d) <= Assigned(e)
  {
    hide Assigned, AccountsLater, GrantsLater, EnrollmentLater;
  }

  // ---------- Purging a deleted child ----------

  lemma {:induction false} BeginPurgeNative(cfg: Config, d: Db, native: map<nat, nat>, id: Id)
    requires NativeOk(cfg, d, native) && BeginPurge(d, id).Ok?
    ensures NativeOk(cfg, BeginPurge(d, id).value, native)
  {
    hide Total, ChildRows, PendingRows, KernelLimit, Assigned;
    var e := BeginPurge(d, id).value;
    SameAssigned(d, e);
    StillKnown(cfg, d, e, native);
    forall i | i in e.accounts ensures AccountSafe(cfg, e, native, i) {
      assert AccountSafe(cfg, d, native, i);
    }
    KeepRequests(cfg, d, e, native);
  }

  lemma {:induction false} FinishPurgeLimit(d: Db, id: Id, i: Id)
    requires Inv(d) && FinishPurge(d, id).Ok? && i in d.accounts && i != id
    ensures var e := FinishPurge(d, id).value; i in e.accounts && e.accounts[i] == d.accounts[i] && Limit(d, i) <= Limit(e, i)
  {
    hide Inv, Total, ChildRows, PendingRows, Limit;
    var e := FinishPurge(d, id).value;
    ChildPut(d.accounts, id, e.accounts[id], i);
    ChildOwnerShape(d, id);
    SameLimit(d, e, i);
  }

  lemma {:induction false} FinishPurgeNative(cfg: Config, d: Db, native: map<nat, nat>, id: Id)
    requires Inv(d) && NativeOk(cfg, d, native) && FinishPurge(d, id).Ok?
    ensures NativeOk(cfg, FinishPurge(d, id).value, native)
  {
    hide Inv, Limit, KernelLimit, Assigned, Later;
    var e := FinishPurge(d, id).value;
    FinishPurgeLater(d, id);
    LaterUids(d, e);
    StillKnown(cfg, d, e, native);
    forall i | i in e.accounts ensures AccountSafe(cfg, e, native, i) {
      if i != id {
        FinishPurgeLimit(d, id, i);
        assert AccountSafe(cfg, d, native, i);
        KernelMonotone(cfg, Limit(d, i), Limit(e, i));
      }
    }
    KeepRequests(cfg, d, e, native);
  }
}
