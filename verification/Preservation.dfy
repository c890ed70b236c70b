/** Every transaction of the store keeps the invariant. */
module Preservation {
  import opened Types
  import opened Sums
  import opened Tables
  import opened Ops
  import opened Invariant

  // ---------- How one changed row moves the sums ----------

  lemma {:induction false} ChildPut(accounts: map<Id, Row>, id: Id, r: Row, owner: Id)
    requires id in accounts ==> accounts[id].owner == r.owner
    ensures r.owner == Some(owner) ==>
      Total(ChildRows(accounts[id := r], owner)) + (if id in accounts then QuotaOf(accounts[id]) else 0)
        == Total(ChildRows(accounts, owner)) + QuotaOf(r)
    ensures r.owner != Some(owner) ==> ChildRows(accounts[id := r], owner) == ChildRows(accounts, owner)
  {
    var rows, after := ChildRows(accounts, owner), ChildRows(accounts[id := r], owner);
    if r.owner == Some(owner) {
      assert after == rows[id := QuotaOf(r)];
      TotalPut(rows, id, QuotaOf(r));
      if id in rows {
        TotalRemove(rows, id);
      } else {
        TotalAbsent(rows, id);
      }
    } else {
      assert after == rows;
    }
  }

  lemma {:induction false} PendingPut(intents: map<Key, Intent>, key: Key, n: Intent, owner: Id)
    requires key !in intents && n.account.None?
    ensures Total(PendingRows(intents[key := n], owner, None))
         == Total(PendingRows(intents, owner, None)) + if n.owner == owner then n.quota else 0
  {
    PendingSplit(intents[key := n], owner, key);
    assert PendingRows(intents[key := n], owner, Some(key)) == PendingRows(intents, owner, None);
  }

  /** Closing a request, by finalising or by deleting it, releases exactly its own bytes. */
  lemma {:induction false} PendingClose(intents: map<Key, Intent>, key: Key, n: Intent, owner: Id)
    requires n.account.Some?
    ensures Total(PendingRows(intents[key := n], owner, None)) == Total(PendingRows(intents, owner, Some(key)))
    ensures Total(PendingRows(intents - {key}, owner, None)) == Total(PendingRows(intents, owner, Some(key)))
  {
    assert PendingRows(intents[key := n], owner, None) == PendingRows(intents, owner, Some(key));
    assert PendingRows(intents - {key}, owner, None) == PendingRows(intents, owner, Some(key));
  }

  lemma {:induction false} DelegatedPut(d: Db, id: Id, b: nat)
    ensures Total(d.budgets[id := b]) == Delegated(d) - BudgetOf(d, id) + b
  {
    TotalPut(d.budgets, id, b);
    if id in d.budgets {
      TotalRemove(d.budgets, id);
    } else {
      TotalAbsent(d.budgets, id);
    }
  }

  lemma {:induction false} LedgerSame(d: Db, e: Db)
    requires e.accounts == d.accounts && e.pool == d.pool && e.budgets == d.budgets
    requires e.intents == d.intents && e.own == d.own
    ensures LedgerOk(d) ==> LedgerOk(e)
  {
    hide Total, ChildRows, PendingRows;
    if LedgerOk(d) {
      forall owner | owner in e.accounts ensures BudgetHolds(e, owner) {
        assert BudgetHolds(d, owner);
      }
    }
  }

  // ---------- Pool, budgets and quotas ----------

  lemma {:induction false} SetPoolKeeps(d: Db, actor: Authority, bytes: nat)
    requires Inv(d)
    ensures SetPool(d, actor, bytes).Ok? ==> Inv(SetPool(d, actor, bytes).value)
  {
    hide Total, RowsOk, KeysOk, PurgedOk, IntentsOk, ProofRowsOk, ProofCapsOk;
    if SetPool(d, actor, bytes).Ok? {
      var e := SetPool(d, actor, bytes).value;
      forall owner | owner in e.accounts ensures BudgetHolds(e, owner) {
        assert BudgetHolds(d, owner);
      }
    }
  }

  lemma {:induction false} KeysPut(d: Db, id: Id, b: nat)
    requires KeysOk(d.accounts, d.budgets, d.own) && id in d.accounts
    ensures KeysOk(d.accounts, d.budgets[id := b], d.own)
    ensures IsVirtualAdmin(d.accounts[id]) && b > 0 ==> KeysOk(d.accounts, d.budgets, d.own[id := b])
  {
  }

  lemma {:induction false} SetAdminBudgetKeeps(d: Db, actor: Authority, id: Id, bytes: nat)
    requires Inv(d)
    ensures SetAdminBudget(d, actor, id, bytes).Ok? ==> Inv(SetAdminBudget(d, actor, id, bytes).value.db)
  {
    hide Total, ChildRows, PendingRows, RowsOk, KeysOk, PurgedOk, IntentsOk, ProofRowsOk, ProofCapsOk;
    if SetAdminBudget(d, actor, id, bytes).Ok? {
      var e := SetAdminBudget(d, actor, id, bytes).value.db;
      KeysPut(d, id, bytes);
      DelegatedPut(d, id, bytes);
      forall owner | owner in e.accounts ensures BudgetHolds(e, owner) {
        assert BudgetHolds(d, owner);
      }
    }
  }

  lemma {:induction false} OwnLedger(d: Db, id: Id, b: nat)
    requires LedgerOk(d) && b <= BudgetOf(d, id) - Children(d, id) - Pending(d, id)
    ensures LedgerOk(d.(own := d.own[id := b]))
  {
    hide Total, ChildRows, PendingRows;
    var e := d.(own := d.own[id := b]);
    forall owner | owner in e.accounts ensures BudgetHolds(e, owner) {
      assert BudgetHolds(d, owner);
    }
  }

  lemma {:induction false} BumpKeeps(d: Db, id: Id)
    requires Inv(d) && id in d.accounts
    ensures Quiet(d, PutRow(d, id, Bump(d.accounts[id])))
    ensures Inv(PutRow(d, id, Bump(d.accounts[id])))
  {
    hide Inv;
    QuietInv(d, PutRow(d, id, Bump(d.accounts[id])));
  }

  lemma {:induction false} SetAdminOwnKeeps(d: Db, actor: Authority, id: Id, bytes: nat)
    requires Inv(d)
    ensures SetAdminOwn(d, actor, id, bytes).Ok? ==> Inv(SetAdminOwn(d, actor, id, bytes).value.db)
  {
    hide Total, ChildRows, PendingRows, RowsOk, KeysOk, PurgedOk, IntentsOk, LedgerOk, ProofRowsOk, ProofCapsOk, Quiet;
    if SetAdminOwn(d, actor, id, bytes).Ok? {
      var mid := PutRow(d, id, Bump(d.accounts[id]));
      BumpKeeps(d, id);
      QuietSums(d, mid);
      KeysPut(mid, id, bytes);
      OwnLedger(mid, id, bytes);
    }
  }

  /** A row whose identity columns stay put keeps everything that is not about bytes. */
  predicate Requoted(d: Db, id: Id, r: Row) {
    && id in d.accounts && IsChild(d.accounts[id]) && r.quota.Some?
    && r == d.accounts[id].(generation := r.generation, quota := r.quota, hash := r.hash)
    && r.generation >= d.accounts[id].generation
  }

  lemma {:induction false} RequotaRows(d: Db, id: Id, r: Row)
    requires RowsOk(d.accounts, d.used) && Requoted(d, id, r)
    ensures RowsOk(d.accounts[id := r], d.used)
  {
    var rows := d.accounts[id := r];
    forall i | i in rows ensures ShapeOk(rows, rows[i]) {
      assert ShapeOk(d.accounts, d.accounts[i]);
    }
  }

  lemma {:induction false} RequotaKeys(d: Db, id: Id, r: Row)
    requires KeysOk(d.accounts, d.budgets, d.own) && PurgedOk(d.accounts, d.purged) && Requoted(d, id, r)
    requires id in d.purged ==> PurgedRow(r)
    ensures KeysOk(d.accounts[id := r], d.budgets, d.own) && PurgedOk(d.accounts[id := r], d.purged)
    ensures PurgedRow(r) ==> PurgedOk(d.accounts[id := r], d.purged + {id})
  {
  }

  lemma {:induction false} RequotaIntents(d: Db, id: Id, r: Row)
    requires IntentsOk(d.accounts, d.intents) && Requoted(d, id, r)
    ensures IntentsOk(d.accounts[id := r], d.intents)
  {
    var rows := d.accounts[id := r];
    forall k | k in d.intents ensures IntentOk(rows, d.intents[k]) {
      assert IntentOk(d.accounts, d.intents[k]);
    }
  }

  lemma {:induction false} RequotaProofs(d: Db, id: Id, r: Row)
    requires ProofRowsOk(d.accounts, d.grants, d.enrollment, d.used) && Requoted(d, id, r)
    ensures ProofRowsOk(d.accounts[id := r], d.grants, d.enrollment, d.used)
  {
  }

  lemma {:induction false} RequotaLedger(d: Db, id: Id, r: Row)
    requires LedgerOk(d) && id in d.accounts && r.owner.Some? && r.owner == d.accounts[id].owner
    requires QuotaOf(r) <= BudgetOf(d, r.owner.value) - (Children(d, r.owner.value) + Pending(d, r.owner.value)
                             - QuotaOf(d.accounts[id])) - OwnOf(d, r.owner.value)
    ensures LedgerOk(PutRow(d, id, r))
  {
    hide Total;
    var e := PutRow(d, id, r);
    forall owner | owner in e.accounts ensures BudgetHolds(e, owner) {
      assert BudgetHolds(d, owner);
      ChildPut(d.accounts, id, r, owner);
    }
  }

  lemma {:induction false} RequotaKeeps(d: Db, id: Id, r: Row)
    requires Inv(d) && Requoted(d, id, r) && r.owner.Some? && (id in d.purged ==> PurgedRow(r))
    requires QuotaOf(r) <= BudgetOf(d, r.owner.value) - (Children(d, r.owner.value) + Pending(d, r.owner.value)
                             - QuotaOf(d.accounts[id])) - OwnOf(d, r.owner.value)
    ensures Inv(PutRow(d, id, r))
    ensures PurgedRow(r) ==> PurgedOk(d.accounts[id := r], d.purged + {id})
  {
    hide Total, ChildRows, PendingRows, RowsOk, KeysOk, PurgedOk, IntentsOk, LedgerOk, ProofRowsOk, ProofCapsOk;
    RequotaRows(d, id, r);
    RequotaKeys(d, id, r);
    RequotaIntents(d, id, r);
    RequotaProofs(d, id, r);
    RequotaLedger(d, id, r);
  }

  lemma {:induction false} SetChildQuotaKeeps(d: Db, actor: Authority, id: Id, generation: nat, bytes: nat)
    requires Inv(d)
    ensures SetChildQuota(d, actor, id, generation, bytes).Ok? ==>
      Inv(SetChildQuota(d, actor, id, generation, bytes).value.db)
  {
    hide Total, ChildRows, PendingRows, RowsOk, KeysOk, IntentsOk, LedgerOk, ProofRowsOk, ProofCapsOk;
    if SetChildQuota(d, actor, id, generation, bytes).Ok? {
      RequotaKeeps(d, id, Bump(d.accounts[id]).(quota := Some(bytes)));
    }
  }

  lemma {:induction false} ChildOwner(d: Db, id: Id)
    requires Inv(d) && id in d.accounts && IsChild(d.accounts[id])
    ensures d.accounts[id].owner.Some? && d.accounts[id].owner.value in d.accounts
    ensures BudgetHolds(d, d.accounts[id].owner.value)
  {
    hide Total, ChildRows, PendingRows, KeysOk, PurgedOk, IntentsOk, ProofRowsOk, ProofCapsOk;
    assert ShapeOk(d.accounts, d.accounts[id]);
  }

  lemma {:induction false} FinishPurgeKeeps(d: Db, id: Id)
    requires Inv(d)
    ensures FinishPurge(d, id).Ok? ==> Inv(FinishPurge(d, id).value)
  {
    hide Total, ChildRows, PendingRows, RowsOk, KeysOk, PurgedOk, IntentsOk, LedgerOk, ProofRowsOk, ProofCapsOk;
    if FinishPurge(d, id).Ok? {
      var r := Bump(d.accounts[id]).(quota := Some(0), hash := None);
      ChildOwner(d, id);
      RequotaKeeps(d, id, r);
      var mid := PutRow(d, id, r);
      var e := FinishPurge(d, id).value;
      LedgerSame(mid, e);
      FewerProofRows(mid, e);
      FewerProofCaps(mid, e);
    }
  }

  // ---------- Provisioning requests ----------

  /** A new open request: its owner exists and its UID was never seen before. */
  lemma {:induction false} ReserveShape(d: Db, key: Key, n: Intent)
    requires Inv(d) && key !in d.intents && n.account.None?
    requires OwnerOk(d.accounts, n.owner) && n.uid !in Assigned(d)
    ensures IntentsOk(d.accounts, d.intents[key := n])
  {
    hide Total, RowsOk, KeysOk, PurgedOk, LedgerOk, ProofRowsOk, ProofCapsOk;
  }

  lemma {:induction false} ReserveLedger(d: Db, key: Key, n: Intent)
    requires Inv(d) && key !in d.intents && n.account.None?
    requires if n.owner == RootOwner then n.quota <= d.pool - Delegated(d) - Pending(d, RootOwner)
             else n.quota <= BudgetOf(d, n.owner) - Children(d, n.owner) - Pending(d, n.owner) - OwnOf(d, n.owner)
    ensures LedgerOk(d.(intents := d.intents[key := n]))
  {
    hide Total, ChildRows, PendingRows, KeysOk, PurgedOk, IntentsOk, ProofRowsOk, ProofCapsOk;
    var e := d.(intents := d.intents[key := n]);
    PendingPut(d.intents, key, n, RootOwner);
    forall owner | owner in e.accounts ensures BudgetHolds(e, owner) {
      assert BudgetHolds(d, owner);
      PendingPut(d.intents, key, n, owner);
    }
  }

  lemma {:induction false} ReserveChildKeeps(d: Db, owner: Id, generation: nat, key: Key, name: string, quota: nat, uid: nat)
    requires Inv(d) && uid !in Assigned(d)
    ensures ReserveChild(d, owner, generation, key, name, quota, uid).Ok? ==>
      Inv(ReserveChild(d, owner, generation, key, name, quota, uid).value)
  {
    hide Total, KeysOk, PurgedOk, IntentsOk, LedgerOk, ProofRowsOk, ProofCapsOk;
    if ReserveChild(d, owner, generation, key, name, quota, uid).Ok? {
      var n := Intent(owner, name, quota, uid, None);
      assert ShapeOk(d.accounts, d.accounts[owner]);
      ReserveShape(d, key, n);
      ReserveLedger(d, key, n);
    }
  }

  lemma {:induction false} ReserveAdminKeeps(d: Db, key: Key, name: string, budget: nat, uid: nat)
    requires Inv(d) && uid !in Assigned(d)
    ensures ReserveAdmin(d, key, name, budget, uid).Ok? ==> Inv(ReserveAdmin(d, key, name, budget, uid).value)
  {
    hide Total, RowsOk, KeysOk, PurgedOk, IntentsOk, ProofRowsOk, ProofCapsOk, LedgerOk;
    if ReserveAdmin(d, key, name, budget, uid).Ok? {
      var n := Intent(RootOwner, name, budget, uid, None);
      ReserveShape(d, key, n);
      ReserveLedger(d, key, n);
    }
  }

  lemma {:induction false} CancelPendingKeeps(d: Db, key: Key)
    requires Inv(d)
    ensures CancelPending(d, key).Ok? ==> Inv(CancelPending(d, key).value)
  {
    hide Total, RowsOk, KeysOk, PurgedOk, ProofRowsOk, ProofCapsOk;
    if CancelPending(d, key).Ok? {
      var e := CancelPending(d, key).value;
      var closed := d.intents[key].(account := Some(RootOwner));
      PendingClose(d.intents, key, closed, RootOwner);
      PendingSplit(d.intents, RootOwner, key);
      forall owner | owner in e.accounts ensures BudgetHolds(e, owner) {
        assert BudgetHolds(d, owner);
        PendingClose(d.intents, key, closed, owner);
        PendingSplit(d.intents, owner, key);
      }
    }
  }

  lemma {:induction false} BeginPurgeKeeps(d: Db, id: Id)
    requires Inv(d)
    ensures BeginPurge(d, id).Ok? ==> Inv(BeginPurge(d, id).value)
  {
    hide Total, RowsOk, KeysOk, PurgedOk, IntentsOk, ProofRowsOk, ProofCapsOk;
    if BeginPurge(d, id).Ok? {
      var e := BeginPurge(d, id).value;
      forall owner | owner in e.accounts ensures BudgetHolds(e, owner) {
        assert BudgetHolds(d, owner);
      }
    }
  }

  // ---------- Creating accounts ----------

  /**
    A creation is admissible when its id is fresh and, without a request, its UID is unknown;
    with a request, it finalises the open intent stored under that key.
   */
  ghost predicate Creatable(d: Db, input: NewAccount, request: Option<Request>, id: Id) {
    && id !in d.used && id != RootOwner
    && (request.None? ==> input.uid !in Assigned(d))
    && (request.Some? ==>
          var Request(key, intent) := request.value;
          && key in d.intents && d.intents[key] == intent && intent.account.None?
          && input.uid == intent.uid
          && (input.kind == Virtual && input.role == User ==>
                input.owner == Some(intent.owner) && input.quota == Some(intent.quota)))
  }

  ghost function Closed(intents: map<Key, Intent>, request: Option<Request>, id: Id): map<Key, Intent> {
    if request.Some?
    then intents[request.value.key := request.value.intent.(account := Some(id))]
    else intents
  }

  lemma {:induction false} CreateRows(d: Db, input: NewAccount, hash: Option<string>, id: Id)
    requires Inv(d) && id !in d.used && id != RootOwner
    requires !HasUsername(d, input.username) && !UidTaken(d, input.uid)
    requires ShapeOk(d.accounts, NewRow(input, hash))
    ensures RowsOk(d.accounts[id := NewRow(input, hash)], d.used + {id})
  {
    hide Total, KeysOk, PurgedOk, LedgerOk, IntentsOk, ProofRowsOk, ProofCapsOk;
    var rows := d.accounts[id := NewRow(input, hash)];
    forall i | i in rows ensures ShapeOk(rows, rows[i]) {
      if i != id {
        assert ShapeOk(d.accounts, d.accounts[i]);
      }
    }
  }

  lemma {:induction false} CreateIntents(d: Db, r: Row, request: Option<Request>, id: Id)
    requires IntentsOk(d.accounts, d.intents) && id !in d.accounts
    requires request.None? ==> r.uid !in Assigned(d)
    requires request.Some? ==>
      var Request(key, intent) := request.value;
      key in d.intents && d.intents[key] == intent && intent.account.None? && r.uid == intent.uid
    ensures IntentsOk(d.accounts[id := r], Closed(d.intents, request, id))
  {
    var rows, closed := d.accounts[id := r], Closed(d.intents, request, id);
    forall k | k in closed ensures IntentOk(rows, closed[k]) {
      assert IntentOk(d.accounts, d.intents[k]);
    }
  }

  /** A fresh account starts with no children, no requests and no fixed quota. */
  lemma {:induction false} FreshOwnerEmpty(d: Db, id: Id)
    requires Inv(d) && id !in d.accounts && id != RootOwner
    ensures Children(d, id) == 0 && Pending(d, id) == 0 && id !in d.own && id !in d.budgets
  {
    hide PurgedOk, LedgerOk, ProofRowsOk, ProofCapsOk;
    forall i | i in d.accounts ensures d.accounts[i].owner != Some(id) {
      assert ShapeOk(d.accounts, d.accounts[i]);
    }
    assert ChildRows(d.accounts, id) == map[];
    forall k | k in d.intents ensures d.intents[k].owner != id {
      assert OwnerOk(d.accounts, d.intents[k].owner);
    }
    assert PendingRows(d.intents, id, None) == map[];
  }

  ghost function Created(d: Db, input: NewAccount, hash: Option<string>, request: Option<Request>,
                         id: Id, budget: Option<nat>): Db {
    PutRow(d, id, NewRow(input, hash)).(
      budgets := if budget.Some? then d.budgets[id := budget.value] else d.budgets,
      intents := Closed(d.intents, request, id))
  }

  lemma {:induction false} CreatedPending(d: Db, input: NewAccount, hash: Option<string>, request: Option<Request>,
                       id: Id, budget: Option<nat>, owner: Id)
    requires Inv(d) && Creatable(d, input, request, id)
    ensures Pending(Created(d, input, hash, request, id, budget), owner)
         == Pending(d, owner, KeyOf(request)) <= Pending(d, owner)
  {
    hide Total, RowsOk, KeysOk, PurgedOk, IntentsOk, ProofRowsOk, ProofCapsOk, LedgerOk, ChildRows, PendingRows;
    if request.Some? {
      PendingClose(d.intents, request.value.key, request.value.intent.(account := Some(id)), owner);
      PendingSplit(d.intents, owner, request.value.key);
    }
  }

  lemma {:induction false} CreatedBudgets(d: Db, input: NewAccount, hash: Option<string>, request: Option<Request>,
                       id: Id, budget: Option<nat>, owner: Id)
    requires Inv(d) && Creatable(d, input, request, id) && owner in d.accounts
    requires input.owner == Some(owner) ==>
      QuotaOf(NewRow(input, hash)) <= BudgetOf(d, owner) - Children(d, owner)
        - Pending(d, owner, KeyOf(request)) - OwnOf(d, owner)
    ensures BudgetHolds(Created(d, input, hash, request, id, budget), owner)
  {
    hide Total, KeysOk, PurgedOk, IntentsOk, ProofRowsOk, ProofCapsOk, ChildRows, PendingRows;
    assert BudgetHolds(d, owner);
    CreatedPending(d, input, hash, request, id, budget, owner);
    ChildPut(d.accounts, id, NewRow(input, hash), owner);
  }

  lemma {:induction false} CreatedFresh(d: Db, input: NewAccount, hash: Option<string>, request: Option<Request>,
                     id: Id, budget: Option<nat>)
    requires Inv(d) && Creatable(d, input, request, id) && input.owner != Some(id)
    ensures BudgetHolds(Created(d, input, hash, request, id, budget), id)
  {
    hide Total, KeysOk, PurgedOk, IntentsOk, ProofRowsOk, ProofCapsOk, ChildRows, PendingRows, LedgerOk;
    FreshOwnerEmpty(d, id);
    CreatedPending(d, input, hash, request, id, budget, id);
    ChildPut(d.accounts, id, NewRow(input, hash), id);
  }

  lemma {:induction false} CreatedLedger(d: Db, input: NewAccount, hash: Option<string>, request: Option<Request>,
                      id: Id, budget: Option<nat>)
    requires Inv(d) && Creatable(d, input, request, id)
    requires input.owner.Some? ==>
      && input.owner.value in d.accounts
      && QuotaOf(NewRow(input, hash)) <= BudgetOf(d, input.owner.value) - Children(d, input.owner.value)
        - Pending(d, input.owner.value, KeyOf(request)) - OwnOf(d, input.owner.value)
    requires budget.Some? ==>
      && request.Some?
      && budget.value <= d.pool - Delegated(d) - Pending(d, RootOwner, Some(request.value.key))
    ensures LedgerOk(Created(d, input, hash, request, id, budget))
  {
    hide Total, KeysOk, PurgedOk, IntentsOk, ProofRowsOk, ProofCapsOk, ChildRows, PendingRows;
    var e := Created(d, input, hash, request, id, budget);
    FreshOwnerEmpty(d, id);
    CreatedPending(d, input, hash, request, id, budget, RootOwner);
    if budget.Some? {
      DelegatedPut(d, id, budget.value);
    }
    forall owner | owner in e.accounts ensures BudgetHolds(e, owner) {
      if owner == id {
        CreatedFresh(d, input, hash, request, id, budget);
      } else {
        CreatedBudgets(d, input, hash, request, id, budget, owner);
      }
    }
  }

  lemma {:induction false} CreatedShape(d: Db, actor: Authority, input: NewAccount, hash: Option<string>,
                     request: Option<Request>, id: Id)
    requires Inv(d) && CreateRecord(d, actor, input, hash, request, id).Ok?
    ensures ShapeOk(d.accounts, NewRow(input, hash))
    ensures input.owner.Some? ==> input.owner.value in d.accounts
  {
    hide Total, KeysOk, PurgedOk, IntentsOk, ProofRowsOk, ProofCapsOk, LedgerOk;
    if input.owner.Some? {
      assert ShapeOk(d.accounts, d.accounts[input.owner.value]);
    }
  }

  lemma {:induction false} CreateProofs(d: Db, id: Id, r: Row)
    requires ProofRowsOk(d.accounts, d.grants, d.enrollment, d.used) && id !in d.accounts
    ensures ProofRowsOk(d.accounts[id := r], d.grants, d.enrollment, d.used + {id})
  {
  }

  lemma {:induction false} CreateKeys(d: Db, id: Id, r: Row, budget: Option<nat>)
    requires KeysOk(d.accounts, d.budgets, d.own) && PurgedOk(d.accounts, d.purged) && id !in d.accounts
    ensures KeysOk(d.accounts[id := r], if budget.Some? then d.budgets[id := budget.value] else d.budgets, d.own)
    ensures PurgedOk(d.accounts[id := r], d.purged)
  {
  }

  /** What the checks of a successful creation have established about quotas and budgets. */
  lemma {:induction false} CreateChecks(d: Db, actor: Authority, input: NewAccount, hash: Option<string>,
                                        request: Option<Request>, id: Id)
    requires CreateRecord(d, actor, input, hash, request, id).Ok?
    ensures RootRoom(d, input, request).Ok?
    ensures var budget := RootRoom(d, input, request).value;
      CreateRecord(d, actor, input, hash, request, id).value ==
        Created(d, input, hash, request, id, budget).(
          used := d.used + {id},
          mustChange := CreateRecord(d, actor, input, hash, request, id).value.mustChange)
    ensures RootRoom(d, input, request).value.Some? ==>
      && request.Some?
      && RootRoom(d, input, request).value.value
           <= d.pool - Delegated(d) - Pending(d, RootOwner, Some(request.value.key))
    ensures input.owner.Some? ==>
      && input.owner.value in d.accounts
      && QuotaOf(NewRow(input, hash)) <= BudgetOf(d, input.owner.value) - Children(d, input.owner.value)
           - Pending(d, input.owner.value, KeyOf(request)) - OwnOf(d, input.owner.value)
    ensures !HasUsername(d, input.username) && !UidTaken(d, input.uid)
  {
    hide Total, ChildRows, PendingRows;
  }

  lemma {:induction false} CreateRecordKeeps(d: Db, actor: Authority, input: NewAccount, hash: Option<string>,
                                             request: Option<Request>, id: Id)
    requires Inv(d) && Creatable(d, input, request, id)
    ensures CreateRecord(d, actor, input, hash, request, id).Ok? ==>
      Inv(CreateRecord(d, actor, input, hash, request, id).value)
  {
    hide Total, ChildRows, PendingRows, RowsOk, KeysOk, PurgedOk, IntentsOk, LedgerOk, ProofRowsOk, ProofCapsOk;
    hide CreateRecord, RootRoom, Creatable, HasUsername, UidTaken, ShapeOk;
    var outcome := CreateRecord(d, actor, input, hash, request, id);
    if outcome.Ok? {
      CreateChecks(d, actor, input, hash, request, id);
      CreatedShape(d, actor, input, hash, request, id);
      var budget := RootRoom(d, input, request).value;
      CreatedKeeps(d, input, hash, request, id, budget);
      LedgerSame(Created(d, input, hash, request, id, budget).(used := d.used + {id}), outcome.value);
    }
  }

  lemma {:induction false} CreatedKeeps(d: Db, input: NewAccount, hash: Option<string>, request: Option<Request>,
                                        id: Id, budget: Option<nat>)
    requires Inv(d) && Creatable(d, input, request, id)
    requires ShapeOk(d.accounts, NewRow(input, hash))
    requires !HasUsername(d, input.username) && !UidTaken(d, input.uid)
    requires input.owner.Some? ==>
      && input.owner.value in d.accounts
      && QuotaOf(NewRow(input, hash)) <= BudgetOf(d, input.owner.value) - Children(d, input.owner.value)
        - Pending(d, input.owner.value, KeyOf(request)) - OwnOf(d, input.owner.value)
    requires budget.Some? ==>
      && request.Some?
      && budget.value <= d.pool - Delegated(d) - Pending(d, RootOwner, Some(request.value.key))
    ensures Inv(Created(d, input, hash, request, id, budget).(used := d.used + {id}))
  {
    hide Total, ChildRows, PendingRows, KeysOk, PurgedOk, IntentsOk, ProofRowsOk, ProofCapsOk, LedgerOk, HasUsername, UidTaken, Assigned;
    assert id !in d.accounts;
    CreateRows(d, input, hash, id);
    CreateIntents(d, NewRow(input, hash), request, id);
    CreatedLedger(d, input, hash, request, id, budget);
    CreateProofs(d, id, NewRow(input, hash));
    CreateKeys(d, id, NewRow(input, hash), budget);
    LedgerSame(Created(d, input, hash, request, id, budget),
               Created(d, input, hash, request, id, budget).(used := d.used + {id}));
  }
}
