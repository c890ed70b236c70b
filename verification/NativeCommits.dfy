/** Which commits are safe for the kernel limits that are in force when they happen. */
module NativeCommits {
  import opened Types
  import opened Sums
  import opened Tables
  import opened Ops
  import opened Invariant
  import opened Preservation
  import opened Evolution
  import opened Runs
  import opened Native

  /** The kernel limit of one account, if set, already fits the given number of bytes. */
  ghost predicate Shrunk(cfg: Config, d: Db, native: map<nat, nat>, id: Id, bytes: nat) {
    Live(d, id) && d.accounts[id].uid in native ==> native[d.accounts[id].uid] <= KernelLimit(cfg, bytes)
  }

  lemma {:induction false} PoolNative(cfg: Config, d: Db, native: map<nat, nat>, pool: nat)
    requires NativeOk(cfg, d, native)
    ensures NativeOk(cfg, d.(pool := pool), native)
  {
    hide Total, ChildRows, PendingRows, KernelLimit, Assigned;
    var e := d.(pool := pool);
    SameAssigned(d, e);
    forall id | id in e.accounts ensures AccountSafe(cfg, e, native, id) {
      assert AccountSafe(cfg, d, native, id);
    }
    forall key | key in e.intents ensures RequestSafe(cfg, e, native, key) {
      assert RequestSafe(cfg, d, native, key);
    }
  }

  lemma {:induction false} SameAssigned(d: Db, e: Db)
    requires e.accounts == d.accounts && e.intents == d.intents && d.retired <= e.retired
    ensures Assigned(d) <= Assigned(e)
  {
  }

  lemma {:induction false} BudgetNative(cfg: Config, d: Db, native: map<nat, nat>, actor: Authority, id: Id, bytes: nat)
    requires Inv(d) && NativeOk(cfg, d, native) && SetAdminBudget(d, actor, id, bytes).Ok?
    requires Shrunk(cfg, d, native, id, SetAdminBudget(d, actor, id, bytes).value.remaining)
    ensures var Prepared(e, remaining) := SetAdminBudget(d, actor, id, bytes).value;
      NativeOk(cfg, e, native) && (IsVirtual(d, id) ==> Limit(e, id) == remaining)
  {
    hide Total, ChildRows, PendingRows, KernelLimit, Assigned, KeysOk, PurgedOk, IntentsOk, LedgerOk, ProofRowsOk, ProofCapsOk;
    var e := SetAdminBudget(d, actor, id, bytes).value.db;
    SameAssigned(d, e);
    assert ShapeOk(d.accounts, d.accounts[id]);
    forall i | i in e.accounts
      ensures (Live(d, i) && d.accounts[i].uid == e.accounts[i].uid && Limit(d, i) <= Limit(e, i))
        || AccountSafe(cfg, e, native, i)
    {
      assert i != id ==> Limit(e, i) == Limit(d, i);
    }
    KeepRequests(cfg, d, e, native);
    CommitSafe(cfg, d, e, native);
  }

  lemma {:induction false} KeepRequests(cfg: Config, d: Db, e: Db, native: map<nat, nat>)
    requires e.intents == d.intents && NativeOk(cfg, d, native)
    ensures forall key :: key in e.intents ==> RequestSafe(cfg, e, native, key)
  {
    hide Assigned, KernelLimit;
    forall key | key in e.intents ensures RequestSafe(cfg, e, native, key) {
      assert RequestSafe(cfg, d, native, key);
    }
  }

  lemma {:induction false} OwnNative(cfg: Config, d: Db, native: map<nat, nat>, actor: Authority, id: Id, bytes: nat)
    requires Inv(d) && NativeOk(cfg, d, native) && SetAdminOwn(d, actor, id, bytes).Ok? && Shrunk(cfg, d, native, id, bytes)
    ensures var e := SetAdminOwn(d, actor, id, bytes).value.db; NativeOk(cfg, e, native) && Limit(e, id) == bytes
  {
    hide Inv, KernelLimit, Assigned, Children, Pending, Limit, BudgetOf;
    var mid := PutRow(d, id, Bump(d.accounts[id]));
    var e := SetAdminOwn(d, actor, id, bytes).value.db;
    assert e == mid.(own := mid.own[id := bytes]);
    BumpKeeps(d, id);
    BumpUids(d, id);
    QuietNative(cfg, d, mid, native);
    OwnLimits(mid, id, bytes);
    SameAssigned(mid, e);
    OwnSafe(cfg, mid, native, id, bytes);
    KeepRequests(cfg, mid, e, native);
    StillKnown(cfg, mid, e, native);
  }

  lemma {:induction false} OwnSafe(cfg: Config, d: Db, native: map<nat, nat>, id: Id, bytes: nat)
    requires NativeOk(cfg, d, native) && Shrunk(cfg, d, native, id, bytes) && id in d.accounts && IsVirtualAdmin(d.accounts[id])
    ensures var e := d.(own := d.own[id := bytes]); forall i :: i in e.accounts ==> AccountSafe(cfg, e, native, i)
  {
    hide KernelLimit, Assigned, Limit;
    OwnLimits(d, id, bytes);
    forall i | i in d.accounts ensures AccountSafe(cfg, d.(own := d.own[id := bytes]), native, i) {
      assert AccountSafe(cfg, d, native, i);
    }
  }

  lemma {:induction false} OwnLimits(d: Db, id: Id, bytes: nat)
    requires id in d.accounts && IsVirtualAdmin(d.accounts[id])
    ensures var e := d.(own := d.own[id := bytes]);
      Limit(e, id) == bytes && forall i :: i in d.accounts && i != id ==> Limit(e, i) == Limit(d, i)
  {
    hide Total, ChildRows, PendingRows;
  }

  lemma {:induction false} BumpUids(d: Db, id: Id)
    requires id in d.accounts
    ensures Assigned(d) <= Assigned(PutRow(d, id, Bump(d.accounts[id])))
  {
    hide Assigned, Touches;
    var e := PutRow(d, id, Bump(d.accounts[id]));
    BumpAccounts(d, id);
    SameUids(d, e);
  }

  lemma {:induction false} BumpAccounts(d: Db, id: Id)
    requires id in d.accounts
    ensures AccountsLater(d, PutRow(d, id, Bump(d.accounts[id])))
  {
    TouchAccounts(d, PutRow(d, id, Bump(d.accounts[id])), id);
  }

  /** Changing a child's quota moves only the child's own limit and its owner's remainder. */
  lemma {:induction false} RequotaLimits(d: Db, id: Id, r: Row, owner: Id, i: Id)
    requires Inv(d) && Requoted(d, id, r) && r.owner == Some(owner) && i in d.accounts
    requires Children(d, owner) + Pending(d, owner) <= BudgetOf(d, owner)
    requires QuotaOf(r) <= BudgetOf(d, owner) - (Children(d, owner) + Pending(d, owner) - QuotaOf(d.accounts[id])) - OwnOf(d, owner)
    ensures var e := PutRow(d, id, r);
      && Limit(e, id) == QuotaOf(r)
      && (i != id && i != owner ==> Limit(e, i) == Limit(d, i))
      && (i == owner && i != id && !IsChild(d.accounts[i]) && i in d.own ==> Limit(e, i) == d.own[i])
      && (i == owner && i != id && !IsChild(d.accounts[i]) && i !in d.own ==>
            Limit(e, i) == BudgetOf(d, i) - (Children(d, i) + Pending(d, i)) + QuotaOf(d.accounts[id]) - QuotaOf(r))
  {
    hide Inv, Total, ChildRows, PendingRows;
    ChildPut(d.accounts, id, r, i);
    ChildPut(d.accounts, id, r, owner);
  }

  lemma {:induction false} ChildQuotaNative(cfg: Config, d: Db, native: map<nat, nat>, actor: Authority, id: Id,
                                            generation: nat, bytes: nat)
    requires Inv(d) && NativeOk(cfg, d, native) && SetChildQuota(d, actor, id, generation, bytes).Ok?
    requires Shrunk(cfg, d, native, id, bytes)
    requires Parent(d, id).Some? ==>
      Shrunk(cfg, d, native, Parent(d, id).value, SetChildQuota(d, actor, id, generation, bytes).value.remaining)
    ensures var Prepared(e, remaining) := SetChildQuota(d, actor, id, generation, bytes).value;
      && NativeOk(cfg, e, native) && Limit(e, id) == bytes
      && Parent(d, id).Some? && Parent(d, id).value in d.accounts
      && (IsVirtual(d, Parent(d, id).value) ==> Limit(e, Parent(d, id).value) == remaining)
  {
    hide Inv, Total, ChildRows, PendingRows, Children, Pending, BudgetOf, OwnOf, KernelLimit, Assigned, Limit, Manage;
    ChildOwnerShape(d, id);
    var owner := d.accounts[id].owner.value;
    var Prepared(e, remaining) := SetChildQuota(d, actor, id, generation, bytes).value;
    var r := Bump(d.accounts[id]).(quota := Some(bytes));
    RequotaUids(d, id, r);
    forall i | i in e.accounts ensures AccountSafe(cfg, e, native, i) {
      assert AccountSafe(cfg, d, native, i);
      RequotaLimits(d, id, r, owner, i);
    }
    RequotaLimits(d, id, r, owner, owner);
    KeepRequests(cfg, d, e, native);
    StillKnown(cfg, d, e, native);
  }

  lemma {:induction false} StillKnown(cfg: Config, d: Db, e: Db, native: map<nat, nat>)
    requires NativeOk(cfg, d, native) && Assigned(d) <= Assigned(e)
    ensures native.Keys <= Assigned(e)
  {
    hide Assigned;
  }

  lemma {:induction false} ChildOwnerShape(d: Db, id: Id)
    requires Inv(d) && id in d.accounts && IsChild(d.accounts[id])
    ensures d.accounts[id].owner.Some?
    ensures var owner := d.accounts[id].owner.value;
      && owner in d.accounts && owner != id && !IsChild(d.accounts[owner])
      && Children(d, owner) + Pending(d, owner) + OwnOf(d, owner) <= BudgetOf(d, owner)
      && QuotaOf(d.accounts[id]) <= Children(d, owner)
  {
    hide KeysOk, PurgedOk, IntentsOk, ProofRowsOk, ProofCapsOk, Total;
    assert ShapeOk(d.accounts, d.accounts[id]);
    var owner := d.accounts[id].owner.value;
    assert ShapeOk(d.accounts, d.accounts[owner]);
    assert BudgetHolds(d, owner);
    TotalMember(ChildRows(d.accounts, owner), id);
  }

  lemma {:induction false} RequotaUids(d: Db, id: Id, r: Row)
    requires id in d.accounts && r.uid == d.accounts[id].uid
    ensures Assigned(d) <= Assigned(PutRow(d, id, r))
  {
    var e := PutRow(d, id, r);
    forall u | u in Assigned(d) ensures u in Assigned(e) {
      if i :| i in d.accounts && d.accounts[i].uid == u {
        assert e.accounts[i].uid == u;
      }
    }
  }
}
