/** What kernel limits add up to, what other transactions do to them, and where the protocol needs care. */
module NativeTheorems {
  import opened Types
  import opened Sums
  import opened Tables
  import opened Ops
  import opened Invariant
  import opened Preservation
  import opened Evolution
  import opened Runs
  import opened Native
  import opened NativeCommits
  import opened NativeRequests
  import opened HostSteps

  // ---------- Transactions outside the provisioning lock ----------

  /** Transactions that do not take the provisioning lock; accounts they create are Linux accounts. */
  predicate Background(ev: Event) {
    match ev
    case EvSetAdminBudget(_, _, _) => false
    case EvSetAdminOwn(_, _, _) => false
    case EvSetChildQuota(_, _, _, _) => false
    case EvReserveChild(_, _, _, _, _, _) => false
    case EvReserveAdmin(_, _, _, _) => false
    case EvFinalize(_, _, _, _, _) => false
    case EvCancelPending(_) => false
    case EvBeginPurge(_) => false
    case EvFinishPurge(_) => false
    case EvCreate(_, input, _, _) => input.kind == Linux
    case _ => true
  }

  lemma {:induction false} SameQuotaTables(cfg: Config, d: Db, e: Db, native: map<nat, nat>)
    requires NativeOk(cfg, d, native) && e.accounts == d.accounts && e.intents == d.intents && d.retired <= e.retired
    requires e.budgets == d.budgets && e.own == d.own && e.purged == d.purged
    ensures NativeOk(cfg, e, native) && (Floored(d) ==> Floored(e))
  {
    hide Total, ChildRows, PendingRows, KernelLimit, Assigned;
    SameAssigned(d, e);
    forall id | id in e.accounts ensures AccountSafe(cfg, e, native, id) {
      assert AccountSafe(cfg, d, native, id);
    }
    KeepRequests(cfg, d, e, native);
  }

  lemma {:induction false} NewLinuxRow(cfg: Config, d: Db, e: Db, native: map<nat, nat>, id: Id)
    requires NativeOk(cfg, d, native) && id !in d.accounts && Assigned(d) <= Assigned(e)
    requires id in e.accounts && e.accounts == d.accounts[id := e.accounts[id]]
    requires e.accounts[id].kind == Linux && e.accounts[id].owner.None?
    requires e.intents == d.intents && e.budgets == d.budgets && e.own == d.own && e.purged == d.purged
    ensures NativeOk(cfg, e, native) && (Floored(d) ==> Floored(e))
  {
    hide Total, PendingRows, KernelLimit, Assigned, Limit, Floored;
    forall i | i in e.accounts ensures AccountSafe(cfg, e, native, i) {
      if i != id {
        assert AccountSafe(cfg, d, native, i);
        assert ChildRows(e.accounts, i) == ChildRows(d.accounts, i);
        SameLimit(d, e, i);
      }
    }
    KeepRequests(cfg, d, e, native);
    StillKnown(cfg, d, e, native);
    LinuxFloor(d, e, id);
  }

  lemma {:induction false} LinuxFloor(d: Db, e: Db, id: Id)
    requires id in e.accounts && e.accounts == d.accounts[id := e.accounts[id]] && e.accounts[id].kind == Linux
    requires e.intents == d.intents && e.purged == d.purged
    ensures Floored(d) ==> Floored(e)
  {
  }

  lemma {:induction false} LinuxCreate(d: Db, actor: Authority, input: NewAccount, hash: Option<string>, id: Id)
    requires input.kind == Linux && CreateRecord(d, actor, input, hash, None, id).Ok?
    ensures var e := CreateRecord(d, actor, input, hash, None, id).value;
      && e.accounts == d.accounts[id := NewRow(input, hash)] && NewRow(input, hash).owner.None?
      && e.intents == d.intents && e.budgets == d.budgets && e.own == d.own && e.purged == d.purged
  {
    hide ChildRoom, HasUsername, UidTaken;
  }

  /** A quota transaction never runs beside another, and every other transaction keeps the kernel limits safe. */
  lemma {:induction false} BackgroundKeepsLimits(cfg: Config, s: Sys, ev: Event)
    requires SysInv(cfg, s) && Admissible(s.db, ev) && Background(ev)
    ensures SysInv(cfg, Sys(After(s.db, ev), s.native))
  {
    hide Inv, NativeOk, Floored, Later, Step, Admissible, Quiet, FewerProofs;
    var d, e := s.db, After(s.db, ev);
    StepKeeps(d, ev);
    LaterUids(d, e);
    if Step(d, ev).Ok? && cfg.userQuota {
      match ev
      case EvSetPool(actor, bytes) => PoolStep(cfg, d, s.native, ev);
      case EvCreate(actor, input, hash, id) => CreateLinuxStep(cfg, d, s.native, ev);
      case EvIssueGrant(_, _, _, _, _, _) => ProofStep(cfg, d, s.native, ev);
      case EvBeginEnrollment(_, _, _, _, _) => ProofStep(cfg, d, s.native, ev);
      case EvCompleteEnrollment(_, _, _, _, _, _) => EnrollStep(cfg, d, s.native, ev);
      case _ =>
        QuietStep(d, ev);
        QuietNative(cfg, d, e, s.native);
        QuietFloor(d, e);
    }
  }

  lemma {:induction false} QuietFloor(d: Db, e: Db)
    requires Quiet(d, e) && Floored(d)
    ensures Floored(e)
  {
  }

  lemma {:induction false} PoolStep(cfg: Config, d: Db, native: map<nat, nat>, ev: Event)
    requires ev.EvSetPool? && Step(d, ev).Ok? && NativeOk(cfg, d, native)
    ensures NativeOk(cfg, After(d, ev), native) && (Floored(d) ==> Floored(After(d, ev)))
  {
    hide NativeOk, Pending, Delegated;
    PoolNative(cfg, d, native, After(d, ev).pool);
  }

  lemma {:induction false} ProofStep(cfg: Config, d: Db, native: map<nat, nat>, ev: Event)
    requires (ev.EvIssueGrant? || ev.EvBeginEnrollment?) && Step(d, ev).Ok? && NativeOk(cfg, d, native)
    ensures NativeOk(cfg, After(d, ev), native) && (Floored(d) ==> Floored(After(d, ev)))
  {
    hide NativeOk, Floored, LiveGrants, GrantsOf, EnrollmentsKept, FindUsername, MayEnroll, ValidIdentity;
    SameQuotaTables(cfg, d, After(d, ev), native);
  }

  lemma {:induction false} CreateLinuxStep(cfg: Config, d: Db, native: map<nat, nat>, ev: Event)
    requires ev.EvCreate? && ev.input.kind == Linux && Inv(d) && Admissible(d, ev)
    requires Step(d, ev).Ok? && NativeOk(cfg, d, native) && Assigned(d) <= Assigned(After(d, ev))
    ensures NativeOk(cfg, After(d, ev), native) && (Floored(d) ==> Floored(After(d, ev)))
  {
    hide Inv, NativeOk, Floored, CreateRecord, UidTaken, Assigned, NewRow;
    FreshAccountId(d, ev.freshId);
    LinuxCreate(d, ev.actor, ev.input, ev.hash, ev.freshId);
    NewRowKind(ev.input, ev.hash);
    NewLinuxRow(cfg, d, After(d, ev), native, ev.freshId);
  }

  lemma {:induction false} NewRowKind(input: NewAccount, hash: Option<string>)
    ensures NewRow(input, hash).kind == input.kind
  {
  }

  lemma {:induction false} EnrollStep(cfg: Config, d: Db, native: map<nat, nat>, ev: Event)
    requires ev.EvCompleteEnrollment? && Inv(d) && Admissible(d, ev)
    requires Step(d, ev).Ok? && NativeOk(cfg, d, native) && Assigned(d) <= Assigned(After(d, ev))
    ensures NativeOk(cfg, After(d, ev), native) && (Floored(d) ==> Floored(After(d, ev)))
  {
    hide Inv, NativeOk, Floored, UidTaken, Assigned, FindUsername, CompleteEnrollment, Quiet, FewerProofs, Later;
    if FindUsername(d, ev.identity.username).Some? {
      EnrollQuiet(d, ev.token, ev.caller, ev.identity, ev.hash, ev.at, ev.freshId);
      QuietNative(cfg, d, After(d, ev), native);
      if Floored(d) {
        QuietFloor(d, After(d, ev));
      }
    } else {
      FreshAccountId(d, ev.freshId);
      EnrolledTables(d, ev.token, ev.caller, ev.identity, ev.hash, ev.at, ev.freshId);
      NewLinuxRow(cfg, d, After(d, ev), native, ev.freshId);
    }
  }

  /** Enrolling an unknown user adds one Linux row and leaves every quota table alone. */
  lemma {:induction false} EnrolledTables(d: Db, token: Id, caller: Caller, identity: Identity, hash: Option<string>, at: nat, id: Id)
    requires CompleteEnrollment(d, token, caller, identity, hash, at, id).Ok? && FindUsername(d, identity.username).None?
    ensures var e := CompleteEnrollment(d, token, caller, identity, hash, at, id).value;
      && id in e.accounts && e.accounts == d.accounts[id := e.accounts[id]]
      && e.accounts[id].kind == Linux && e.accounts[id].owner.None?
      && e.intents == d.intents && e.budgets == d.budgets && e.own == d.own && e.purged == d.purged
  {
    hide FindUsername, UidTaken, ProofLive;
  }

  // ---------- What the kernel grants one administrator and its children ----------

  /** Kernel limits of the administrator's live children. */
  function NativeChildren(d: Db, native: map<nat, nat>, admin: Id): map<Id, nat> {
    map id | id in d.accounts && d.accounts[id].owner == Some(admin) && Live(d, id) && d.accounts[id].uid in native
      :: native[d.accounts[id].uid]
  }

  /** Kernel limits of the administrator's open requests. */
  function NativePending(d: Db, native: map<nat, nat>, admin: Id): map<Key, nat> {
    map k | k in d.intents && d.intents[k].owner == admin && Open(d, k) && d.intents[k].uid in native
      :: native[d.intents[k].uid]
  }

  /** Every live account under one administrator, itself included if it is virtual, has a limit in the kernel. */
  predicate LimitedUnder(d: Db, native: map<nat, nat>, admin: Id) {
    forall id :: id in d.accounts && Live(d, id) && (id == admin || d.accounts[id].owner == Some(admin)) ==> d.accounts[id].uid in native
  }

  /**
    Everything the kernel allows under one administrator: its own limit if it is virtual, its children, its requests.
    There is no bound while one of the accounts has no limit. A request is nobody's identity yet.
   */
  ghost function Granted(d: Db, native: map<nat, nat>, admin: Id): Option<nat>
    requires admin in d.accounts
  {
    if LimitedUnder(d, native, admin) then Some(Recorded(d, native, admin)) else None
  }

  ghost function Recorded(d: Db, native: map<nat, nat>, admin: Id): nat
    requires admin in d.accounts
  {
    (if Live(d, admin) && d.accounts[admin].uid in native then native[d.accounts[admin].uid] else 0)
    + Total(NativeChildren(d, native, admin)) + Total(NativePending(d, native, admin))
  }

  /** Row by row no larger, so no larger in total. */
  lemma {:induction false} TotalLe<K>(a: map<K, nat>, b: map<K, nat>)
    requires forall k :: k in a ==> a[k] <= if k in b then b[k] else 0
    ensures Total(a) <= Total(b)
    decreases |a|
  {
    if a != map[] {
      var k :| k in a;
      TotalRemove(a, k);
      TotalLe(a - {k}, b - {k});
      if k in b {
        TotalRemove(b, k);
      } else {
        TotalAbsent(b, k);
      }
    }
  }

  lemma {:induction false} ChildrenWithin(cfg: Config, d: Db, native: map<nat, nat>, admin: Id)
    requires Inv(d) && NativeOk(cfg, d, native) && Floored(d)
    ensures Total(NativeChildren(d, native, admin)) <= Children(d, admin)
    ensures Total(NativePending(d, native, admin)) <= Pending(d, admin)
  {
    hide KeysOk, PurgedOk, IntentsOk, LedgerOk, ProofRowsOk, ProofCapsOk, Total, Assigned;
    var children, rows := NativeChildren(d, native, admin), ChildRows(d.accounts, admin);
    forall id | id in children ensures id in rows && children[id] <= rows[id] {
      assert AccountSafe(cfg, d, native, id);
      assert ShapeOk(d.accounts, d.accounts[id]);
    }
    TotalLe(children, rows);
    var requests, pending := NativePending(d, native, admin), PendingRows(d.intents, admin, None);
    forall k | k in requests ensures k in pending && requests[k] <= pending[k] {
      assert RequestSafe(cfg, d, native, k);
    }
    TotalLe(requests, pending);
  }

  /** The accounts that have a budget of their own: Linux and virtual administrators, not children. */
  predicate Budgeted(d: Db, admin: Id) {
    admin in d.accounts && !IsChild(d.accounts[admin])
  }

  /**
    In a safe host state the kernel bounds an administrator and everything under it by the budget, exactly if every
    account concerned has a limit. A virtual administrator's own limit must itself be one the kernel can express.
   */
  lemma {:induction false} GrantedWithinBudget(cfg: Config, s: Sys, admin: Id)
    requires SysInv(cfg, s) && cfg.userQuota && Budgeted(s.db, admin)
    requires Live(s.db, admin) ==> Limit(s.db, admin) >= KERNEL_MINIMUM
    ensures var granted := Granted(s.db, s.native, admin);
      LimitedUnder(s.db, s.native, admin) <==> granted.Some? && granted.value <= BudgetOf(s.db, admin)
    ensures Enforced(cfg, s) ==> LimitedUnder(s.db, s.native, admin)
  {
    hide KeysOk, PurgedOk, IntentsOk, ProofRowsOk, ProofCapsOk, Total, Assigned, ChildRows, PendingRows, NativeChildren, NativePending,
      Floored;
    ChildrenWithin(cfg, s.db, s.native, admin);
    assert AccountSafe(cfg, s.db, s.native, admin);
    assert BudgetHolds(s.db, admin);
  }

  ghost predicate AllSynced(cfg: Config, d: Db, native: map<nat, nat>, admin: Id) {
    && (forall id :: id in d.accounts && Live(d, id) ==> Synced(cfg, d, native, id))
    && (forall k :: k in d.intents && d.intents[k].owner == admin && Open(d, k) ==>
          d.intents[k].uid in native && native[d.intents[k].uid] == KernelLimit(cfg, d.intents[k].quota))
  }

  lemma {:induction false} ChildRowInFull(cfg: Config, d: Db, native: map<nat, nat>, admin: Id, id: Id)
    requires RowsOk(d.accounts, d.used) && PurgedOk(d.accounts, d.purged)
    requires cfg.userQuota && cfg.ceiling.None? && id in d.accounts && d.accounts[id].owner == Some(admin)
    requires Live(d, id) ==> Synced(cfg, d, native, id)
    ensures var children := NativeChildren(d, native, admin);
      QuotaOf(d.accounts[id]) <= if id in children then children[id] else 0
  {
    assert ShapeOk(d.accounts, d.accounts[id]);
  }

  lemma {:induction false} ChildrenInFull(cfg: Config, d: Db, native: map<nat, nat>, admin: Id)
    requires Inv(d) && cfg.userQuota && cfg.ceiling.None? && AllSynced(cfg, d, native, admin)
    ensures Children(d, admin) <= Total(NativeChildren(d, native, admin))
    ensures Pending(d, admin) <= Total(NativePending(d, native, admin))
  {
    hide RowsOk, PurgedOk, KeysOk, IntentsOk, LedgerOk, ProofRowsOk, ProofCapsOk, Total, Assigned, NativeChildren, Synced, Limit;
    var children, rows := NativeChildren(d, native, admin), ChildRows(d.accounts, admin);
    forall id | id in rows ensures rows[id] <= if id in children then children[id] else 0 {
      ChildRowInFull(cfg, d, native, admin, id);
    }
    TotalLe(rows, children);
    TotalLe(PendingRows(d.intents, admin, None), NativePending(d, native, admin));
  }

  /** On a synchronised host without a template ceiling the kernel allows exactly the reserved bytes, and the floor. */
  lemma {:induction false} GrantedExactly(cfg: Config, s: Sys, admin: Id)
    requires SysInv(cfg, s) && cfg.userQuota && cfg.ceiling.None? && AllSynced(cfg, s.db, s.native, admin)
    requires Budgeted(s.db, admin) && Live(s.db, admin)
    ensures Granted(s.db, s.native, admin) ==
      Some(Max(Limit(s.db, admin), KERNEL_MINIMUM) + Children(s.db, admin) + Pending(s.db, admin))
  {
    hide Inv, NativeOk, Floored, Total, Assigned, ChildRows, PendingRows, NativeChildren, NativePending, Limit;
    ChildrenWithin(cfg, s.db, s.native, admin);
    ChildrenInFull(cfg, s.db, s.native, admin);
    assert Synced(cfg, s.db, s.native, admin);
  }

  /**
    Exactly when the bound holds there: for an administrator in remainder mode, if and only if the remainder is
    at least the 1 KiB below which no kernel limit can be set.
   */
  lemma {:induction false} BudgetIffRemainderAboveFloor(cfg: Config, s: Sys, admin: Id)
    requires SysInv(cfg, s) && cfg.userQuota && cfg.ceiling.None? && AllSynced(cfg, s.db, s.native, admin)
    requires Budgeted(s.db, admin) && Live(s.db, admin) && admin !in s.db.own
    ensures Granted(s.db, s.native, admin).Some?
    ensures Granted(s.db, s.native, admin).value <= BudgetOf(s.db, admin) <==> Limit(s.db, admin) >= KERNEL_MINIMUM
  {
    hide KeysOk, PurgedOk, IntentsOk, ProofRowsOk, ProofCapsOk, Total, Assigned, ChildRows, PendingRows, NativeChildren, NativePending,
      NativeOk, Floored, Granted;
    GrantedExactly(cfg, s, admin);
    assert BudgetHolds(s.db, admin);
  }

  const ADMIN: Id := Uuid(1)
  const CHILD: Id := Uuid(2)

  /** A virtual administrator with a budget and one child. */
  function Family(budget: nat, quota: nat, generation: nat): Db {
    EMPTY.(
      accounts := map[
        ADMIN := Row("admin", 100000, 100000, "/a", Virtual, Admin, None, Active, true, 1, None, None, None, None, false),
        CHILD := Row("child", 100001, 100001, "/b", Virtual, User, Some(ADMIN), Active, true, generation, None, Some(quota), None, None, false)],
      pool := budget, budgets := map[ADMIN := budget], used := {ADMIN, CHILD})
  }

  lemma {:induction false} FamilyRows(budget: nat, quota: nat, generation: nat)
    requires generation >= 1
    ensures var d := Family(budget, quota, generation); RowsOk(d.accounts, d.used) && KeysOk(d.accounts, d.budgets, d.own)
  {
    var rows := Family(budget, quota, generation).accounts;
    assert ShapeOk(rows, rows[ADMIN]) && ShapeOk(rows, rows[CHILD]);
  }

  lemma {:induction false} FamilySums(budget: nat, quota: nat, generation: nat)
    ensures var d := Family(budget, quota, generation);
      && Delegated(d) == budget && Children(d, ADMIN) == quota && Children(d, CHILD) == 0
      && forall o: Id :: Pending(d, o) == 0
  {
    hide Total;
    var d := Family(budget, quota, generation);
    OneRow(ADMIN, budget);
    assert ChildRows(d.accounts, ADMIN) == map[CHILD := quota];
    OneRow(CHILD, quota);
    NoRows(ChildRows(d.accounts, CHILD));
    forall o: Id ensures Pending(d, o) == 0 {
      NoRows(PendingRows(d.intents, o, None));
    }
  }

  lemma {:induction false} FamilyInv(budget: nat, quota: nat, generation: nat)
    requires generation >= 1 && quota <= budget <= I64_MAX
    ensures Inv(Family(budget, quota, generation))
  {
    hide RowsOk, KeysOk, Children, Pending, Delegated;
    var d := Family(budget, quota, generation);
    FamilyRows(budget, quota, generation);
    FamilySums(budget, quota, generation);
    assert BudgetHolds(d, ADMIN) && BudgetHolds(d, CHILD);
    forall id: Id ensures |GrantsOf(d.grants, id)| <= MAX_ACCOUNT_GRANTS {
      assert GrantsOf(d.grants, id) == {};
    }
  }

  /** The whole budget of 4 KiB is reserved by the child. */
  const EXHAUSTED: Db := Family(4096, 4096, 1)

  const FLOOR: map<nat, nat> := FamilyLimits(4096, 4096)

  /** What a synchronised kernel without a ceiling holds for a family. */
  function FamilyLimits(budget: nat, quota: nat): map<nat, nat>
    requires quota <= budget
  {
    map[100000 := Max(budget - quota, KERNEL_MINIMUM), 100001 := Max(quota, KERNEL_MINIMUM)]
  }

  lemma {:induction false} FamilyNative(cfg: Config, budget: nat, quota: nat, generation: nat)
    requires cfg.ceiling.None? && quota <= budget
    ensures var d, native := Family(budget, quota, generation), FamilyLimits(budget, quota); NativeOk(cfg, d, native) && Covered(d, native)
  {
    hide Total, Assigned, ChildRows, PendingRows, Children, Pending;
    var d := Family(budget, quota, generation);
    FamilySums(budget, quota, generation);
    KnownUid(d, ADMIN);
    KnownUid(d, CHILD);
  }

  /** The property fails there: the administrator's kernel limit cannot go below 1 KiB. */
  lemma {:induction false} FloorExceedsBudget(cfg: Config)
    requires cfg.userQuota && cfg.ceiling.None?
    ensures SysInv(cfg, Sys(EXHAUSTED, FLOOR)) && Enforced(cfg, Sys(EXHAUSTED, FLOOR))
    ensures Granted(EXHAUSTED, FLOOR, ADMIN) == Some(5120) && BudgetOf(EXHAUSTED, ADMIN) == 4096
  {
    hide Total, Inv, NativeOk, NativeChildren, NativePending;
    FamilyInv(4096, 4096, 1);
    FamilyNative(cfg, 4096, 4096, 1);
    ExhaustedGrants();
  }

  lemma {:induction false} ExhaustedGrants()
    ensures Total(NativeChildren(EXHAUSTED, FLOOR, ADMIN)) == 4096 && Total(NativePending(EXHAUSTED, FLOOR, ADMIN)) == 0
  {
    hide Total;
    assert NativeChildren(EXHAUSTED, FLOOR, ADMIN) == map[CHILD := 4096];
    OneRow(CHILD, 4096);
    NoRows(NativePending(EXHAUSTED, FLOOR, ADMIN));
  }

  lemma {:induction false} OneRow<K>(k: K, v: nat)
    ensures Total(map[k := v]) == v
  {
    TotalRemove(map[k := v], k);
    assert map[k := v] - {k} == map[];
  }

  lemma {:induction false} NoRows<K>(m: map<K, nat>)
    requires m == map[]
    ensures Total(m) == 0
  {
  }

  lemma {:induction false} KnownUid(d: Db, id: Id)
    requires id in d.accounts
    ensures d.accounts[id].uid in Assigned(d)
  {
  }
}
