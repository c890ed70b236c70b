/**
  The invariant of the account database, and its preservation by every transaction.
  Its centre is two-level conservation: administrator budgets and open Root requests fit
  the pool; children, open requests and the fixed own quota fit each budget.
 */
module Invariant {
  import opened Types
  import opened Sums
  import opened Tables
  import opened Ops

  // ---------- The invariant ----------

  /** The row shapes of the schema; owners are themselves unowned, so ownership has depth two. */
  predicate ShapeOk(accounts: map<Id, Row>, r: Row) {
    && r.generation >= 1
    && (!IsChild(r) ==> r.owner.None? && r.quota.None?)
    && (IsChild(r) ==>
          && r.quota.Some? && r.owner.Some?
          && r.owner.value in accounts && accounts[r.owner.value].owner.None?)
  }

  ghost predicate RowsOk(accounts: map<Id, Row>, used: set<Id>) {
    && RootOwner !in accounts
    && accounts.Keys <= used
    && (forall id :: id in accounts ==> ShapeOk(accounts, accounts[id]))
    && (forall i, j {:trigger accounts[i].username, accounts[j].username} ::
          i in accounts && j in accounts && accounts[i].username == accounts[j].username ==> i == j)
    && (forall i, j {:trigger accounts[i].uid, accounts[j].uid} ::
          i in accounts && j in accounts && accounts[i].uid == accounts[j].uid ==> i == j)
  }

  ghost predicate KeysOk(accounts: map<Id, Row>, budgets: map<Id, nat>, own: map<Id, nat>) {
    && budgets.Keys <= accounts.Keys
    && (forall id :: id in own ==> id in accounts && IsVirtualAdmin(accounts[id]) && own[id] > 0)
  }

  predicate PurgedRow(r: Row) {
    IsChild(r) && r.status == Deleted && r.quota == Some(0) && r.hash.None?
  }

  ghost predicate PurgedOk(accounts: map<Id, Row>, purged: set<Id>) {
    forall id :: id in purged ==> id in accounts && PurgedRow(accounts[id])
  }

  predicate OwnerOk(accounts: map<Id, Row>, owner: Id) {
    owner == RootOwner || (owner in accounts && accounts[owner].owner.None?)
  }

  /** A finalised request carries the UID of its account; an open one carries a UID of its own. */
  ghost predicate IntentOk(accounts: map<Id, Row>, n: Intent) {
    && OwnerOk(accounts, n.owner)
    && (n.account.Some? ==> n.account.value in accounts && accounts[n.account.value].uid == n.uid)
    && (n.account.None? ==> forall id :: id in accounts ==> accounts[id].uid != n.uid)
  }

  ghost predicate IntentsOk(accounts: map<Id, Row>, intents: map<Key, Intent>) {
    && (forall k :: k in intents ==> IntentOk(accounts, intents[k]))
    && (forall k, l {:trigger intents[k].uid, intents[l].uid} ::
          k in intents && l in intents && intents[k].uid == intents[l].uid ==> k == l)
  }

  ghost predicate BudgetHolds(d: Db, owner: Id) {
    Children(d, owner) + Pending(d, owner) + OwnOf(d, owner) <= BudgetOf(d, owner)
  }

  ghost predicate LedgerOk(d: Db) {
    && d.pool <= I64_MAX
    && Delegated(d) + Pending(d, RootOwner) <= d.pool
    && forall owner {:trigger BudgetHolds(d, owner)} :: owner in d.accounts ==> BudgetHolds(d, owner)
  }

  ghost predicate ProofRowsOk(accounts: map<Id, Row>, grants: map<Id, Grant>,
                              enrollment: map<Id, Enrollment>, used: set<Id>) {
    && grants.Keys <= used
    && enrollment.Keys <= used
    && (forall n :: n in grants ==>
          grants[n].account in accounts && grants[n].generation <= accounts[grants[n].account].generation)
  }

  ghost predicate ProofCapsOk(grants: map<Id, Grant>, enrollment: map<Id, Enrollment>) {
    && |grants.Keys| <= MAX_GRANTS
    && (forall id: Id :: |GrantsOf(grants, id)| <= MAX_ACCOUNT_GRANTS)
    && |enrollment.Keys| <= MAX_ENROLLMENTS
  }

  ghost predicate Inv(d: Db) {
    && RowsOk(d.accounts, d.used)
    && KeysOk(d.accounts, d.budgets, d.own)
    && PurgedOk(d.accounts, d.purged)
    && IntentsOk(d.accounts, d.intents)
    && LedgerOk(d)
    && ProofRowsOk(d.accounts, d.grants, d.enrollment, d.used)
    && ProofCapsOk(d.grants, d.enrollment)
  }

  lemma {:induction false} EmptyInv()
    ensures Inv(EMPTY)
  {
    var noRequests := PendingRows(EMPTY.intents, RootOwner, None);
    assert noRequests == map[];
    forall id: Id ensures |GrantsOf(EMPTY.grants, id)| <= MAX_ACCOUNT_GRANTS {
      assert GrantsOf(EMPTY.grants, id) == {};
    }
  }

  // ---------- Consequences used by every quota check ----------

  /** A pending request of one owner is part of the owner's reserved bytes. */
  lemma {:induction false} PendingSplit(intents: map<Key, Intent>, owner: Id, key: Key)
    ensures Total(PendingRows(intents, owner, None)) == Total(PendingRows(intents, owner, Some(key)))
      + if key in intents && intents[key].owner == owner && intents[key].account.None? then intents[key].quota else 0
  {
    var all := PendingRows(intents, owner, None);
    assert all - {key} == PendingRows(intents, owner, Some(key));
    if key in all {
      TotalRemove(all, key);
    } else {
      TotalAbsent(all, key);
    }
  }

  lemma {:induction false} BudgetInPool(d: Db, id: Id)
    requires LedgerOk(d)
    ensures BudgetOf(d, id) <= Delegated(d) <= d.pool
  {
    if id in d.budgets {
      TotalMember(d.budgets, id);
    }
  }

  /** No i64 operation of the quota checks can overflow, whichever account is asked about. */
  lemma {:induction false} QuotaArithmeticFits(d: Db, id: Id)
    requires Inv(d) && id in d.accounts
    ensures Fits(Children(d, id) + Pending(d, id)) && Fits(Children(d, id) + Pending(d, id) + OwnOf(d, id))
    ensures 0 <= BudgetOf(d, id) - Children(d, id) - Pending(d, id) - OwnOf(d, id) <= I64_MAX
    ensures Fits(Delegated(d) + Pending(d, RootOwner))
    ensures 0 <= d.pool - Delegated(d) - Pending(d, RootOwner) <= I64_MAX
    ensures 0 <= d.pool - (Delegated(d) - BudgetOf(d, id)) - Pending(d, RootOwner) <= I64_MAX
  {
    BudgetInPool(d, id);
    assert BudgetHolds(d, id);
  }

  // ---------- Transactions that leave every quota-bearing column alone ----------

  predicate SameLedgerRow(r: Row, s: Row) {
    && s.username == r.username && s.uid == r.uid && s.kind == r.kind && s.owner == r.owner
    && s.quota == r.quota && s.generation >= r.generation
    && (r.kind == Virtual ==> s.role == r.role)
    && (r.status == Deleted ==> s.status == Deleted && s.hash == r.hash)
  }

  ghost predicate Quiet(d: Db, e: Db) {
    && e.pool == d.pool && e.budgets == d.budgets && e.intents == d.intents && e.own == d.own
    && e.retired == d.retired && e.purged == d.purged && d.used <= e.used
    && e.accounts.Keys == d.accounts.Keys
    && forall id :: id in d.accounts ==> SameLedgerRow(d.accounts[id], e.accounts[id])
  }

  lemma {:induction false} QuietSums(d: Db, e: Db)
    requires Quiet(d, e)
    ensures forall o: Id :: Children(e, o) == Children(d, o) && Pending(e, o) == Pending(d, o)
    ensures forall o: Id :: OwnOf(e, o) == OwnOf(d, o) && BudgetOf(e, o) == BudgetOf(d, o)
  {
    forall o: Id ensures Children(e, o) == Children(d, o) {
      assert ChildRows(e.accounts, o) == ChildRows(d.accounts, o);
    }
  }

  lemma {:induction false} QuietRows(d: Db, e: Db)
    requires Quiet(d, e) && RowsOk(d.accounts, d.used)
    ensures RowsOk(e.accounts, e.used)
  {
    forall id | id in e.accounts ensures ShapeOk(e.accounts, e.accounts[id]) {
      assert ShapeOk(d.accounts, d.accounts[id]);
    }
  }

  lemma {:induction false} QuietKeys(d: Db, e: Db)
    requires Quiet(d, e) && KeysOk(d.accounts, d.budgets, d.own) && PurgedOk(d.accounts, d.purged)
    ensures KeysOk(e.accounts, e.budgets, e.own) && PurgedOk(e.accounts, e.purged)
  {
  }

  lemma {:induction false} QuietIntents(d: Db, e: Db)
    requires Quiet(d, e) && IntentsOk(d.accounts, d.intents)
    ensures IntentsOk(e.accounts, e.intents)
  {
    forall k | k in e.intents ensures IntentOk(e.accounts, e.intents[k]) {
      assert IntentOk(d.accounts, d.intents[k]);
    }
  }

  lemma {:induction false} QuietLedger(d: Db, e: Db)
    requires Quiet(d, e) && LedgerOk(d)
    ensures LedgerOk(e)
  {
    QuietSums(d, e);
    forall owner | owner in e.accounts ensures BudgetHolds(e, owner) {
      assert BudgetHolds(d, owner);
    }
  }

  /** Grants and proofs only shrink in these transactions, so their caps carry over. */
  ghost predicate FewerProofs(d: Db, e: Db) {
    && (forall n :: n in e.grants ==>
          && n in d.grants && e.grants[n].account == d.grants[n].account
          && e.grants[n].generation == d.grants[n].generation)
    && e.enrollment.Keys <= d.enrollment.Keys
  }

  lemma {:induction false} FewerProofRows(d: Db, e: Db)
    requires ProofRowsOk(d.accounts, d.grants, d.enrollment, d.used) && FewerProofs(d, e)
    requires d.used <= e.used
    requires forall id :: id in d.accounts ==> id in e.accounts && e.accounts[id].generation >= d.accounts[id].generation
    ensures ProofRowsOk(e.accounts, e.grants, e.enrollment, e.used)
  {
  }

  lemma {:induction false} FewerProofCaps(d: Db, e: Db)
    requires ProofCapsOk(d.grants, d.enrollment) && FewerProofs(d, e)
    ensures ProofCapsOk(e.grants, e.enrollment)
  {
    SubsetSize(e.grants.Keys, d.grants.Keys);
    SubsetSize(e.enrollment.Keys, d.enrollment.Keys);
    forall id: Id ensures |GrantsOf(e.grants, id)| <= MAX_ACCOUNT_GRANTS {
      SubsetSize(GrantsOf(e.grants, id), GrantsOf(d.grants, id));
    }
  }

  lemma {:induction false} QuietInv(d: Db, e: Db)
    requires Inv(d) && Quiet(d, e) && FewerProofs(d, e)
    ensures Inv(e)
  {
    QuietRows(d, e);
    QuietKeys(d, e);
    QuietIntents(d, e);
    QuietLedger(d, e);
    FewerProofRows(d, e);
    FewerProofCaps(d, e);
  }
}
