/**
  The account store as code: transactions that read, check and rewrite tables.
  Every method is proved to do exactly what its transaction in `Ops` says, and no i64
  operation it performs can overflow in a state that satisfies the invariant.
 */
module Store {
  import opened Types
  import opened Sums
  import opened Tables
  import opened Ops
  import opened Invariant
  import opened Preservation
  import opened Evolution
  import opened Runs

  /** What a transaction leaves behind: the specified contents, or an error and no change. */
  ghost predicate Outcome(before: Db, after: Db, r: Result<()>, spec: Result<Db>) {
    if spec.Ok? then r == Ok(()) && after == spec.value else r == Err(spec.error) && after == before
  }

  // ---------- Aggregates ----------

  method SumChildren(d: Db, owner: Id) returns (total: nat)
    ensures total == Children(d, owner)
  {
    total := SumRows(ChildRows(d.accounts, owner));
  }

  method SumPending(d: Db, owner: Id, exclude: Option<Key>) returns (total: nat)
    ensures total == Pending(d, owner, exclude)
  {
    total := SumRows(PendingRows(d.intents, owner, exclude));
  }

  method SumBudgets(d: Db) returns (total: nat)
    ensures total == Delegated(d)
  {
    total := SumRows(d.budgets);
  }

  /** The own-file limit, read from one snapshot. */
  method ReadEffectiveQuota(d: Db, id: Id) returns (r: Result<Option<nat>>)
    requires Inv(d)
    ensures r == EffectiveQuota(d, id)
  {
    hide Inv, Children, Pending, Delegated;
    if id !in d.accounts {
      return Err(NotFound);
    }
    var target := d.accounts[id];
    if target.kind == Linux {
      return Ok(None);
    }
    if target.role == User {
      return Ok(target.quota);
    }
    QuotaArithmeticFits(d, id);
    var budget := BudgetOf(d, id);
    var children := SumChildren(d, id);
    var pending := SumPending(d, id, None);
    var taken := Plus(children, pending);
    if taken > budget {
      return Err(QuotaExceeded);
    }
    if id in d.own && d.own[id] > Minus(budget, taken) {
      return Err(QuotaExceeded);
    }
    r := Ok(Some(if id in d.own then d.own[id] else Minus(budget, taken)));
  }

  method ReadBudget(d: Db, id: Id) returns (r: Result<BudgetView>)
    requires Inv(d)
    ensures r == Budget(d, id)
  {
    hide Inv, Children, Pending, Delegated;
    if id !in d.accounts {
      return Err(NotFound);
    }
    if d.accounts[id].role != Admin {
      return Err(Forbidden);
    }
    QuotaArithmeticFits(d, id);
    var limit := BudgetOf(d, id);
    var children := SumChildren(d, id);
    var pending := SumPending(d, id, None);
    var reserved := Plus(children, pending);
    if Plus(reserved, OwnOf(d, id)) > limit {
      return Err(QuotaExceeded);
    }
    r := Ok(BudgetView(limit, reserved, Minus(Minus(limit, reserved), OwnOf(d, id)),
                       if id in d.own then Some(d.own[id]) else None));
  }

  // ---------- Checked quota changes, up to the commit ----------

  method PrepareAdminBudget(d: Db, actor: Authority, id: Id, bytes: nat) returns (r: Result<Prepared>)
    requires Inv(d)
    ensures r == SetAdminBudget(d, actor, id, bytes)
  {
    hide Inv, Children, Pending, Delegated, BudgetHolds, BudgetOf;
    if actor != Root {
      return Err(Forbidden);
    }
    if id !in d.accounts {
      return Err(NotFound);
    }
    var target := d.accounts[id];
    if target.role != Admin || target.status != Active {
      return Err(Forbidden);
    }
    QuotaArithmeticFits(d, id);
    PoolArithmetic(d, id);
    var taken := SumBudgets(d);
    var own := SumChildren(d, id);
    var pending := SumPending(d, id, None);
    var rootPending := SumPending(d, RootOwner, None);
    var children := Plus(own, pending);
    if bytes > I64_MAX {
      return Err(InvalidInput);
    }
    if bytes < Plus(children, OwnOf(d, id))
       || bytes > Minus(Minus(d.pool, Minus(taken, BudgetOf(d, id))), rootPending) {
      return Err(QuotaExceeded);
    }
    r := Ok(Prepared(d.(budgets := d.budgets[id := bytes]),
                     if id in d.own then d.own[id] else Minus(bytes, children)));
  }

  lemma {:induction false} PoolArithmetic(d: Db, id: Id)
    requires Inv(d)
    ensures BudgetOf(d, id) <= Delegated(d) <= I64_MAX && d.pool <= I64_MAX
    ensures Delegated(d) + Pending(d, RootOwner) <= d.pool
  {
    BudgetInPool(d, id);
  }

  method PrepareAdminOwn(d: Db, actor: Authority, id: Id, bytes: nat) returns (r: Result<Prepared>)
    requires Inv(d)
    ensures r == SetAdminOwn(d, actor, id, bytes)
  {
    hide Inv, Children, Pending, Delegated;
    if actor != Root {
      return Err(Forbidden);
    }
    if bytes > I64_MAX || bytes == 0 {
      return Err(InvalidInput);
    }
    if id !in d.accounts {
      return Err(NotFound);
    }
    var target := d.accounts[id];
    if !IsVirtualAdmin(target) || target.status != Active {
      return Err(Forbidden);
    }
    QuotaArithmeticFits(d, id);
    var children := SumChildren(d, id);
    var pending := SumPending(d, id, None);
    if bytes > Minus(Minus(BudgetOf(d, id), children), pending) {
      return Err(QuotaExceeded);
    }
    r := Ok(Prepared(PutRow(d, id, Bump(target)).(own := d.own[id := bytes]), bytes));
  }

  method PrepareChildQuota(d: Db, actor: Authority, id: Id, generation: nat, bytes: nat) returns (r: Result<Prepared>)
    requires Inv(d)
    ensures r == SetChildQuota(d, actor, id, generation, bytes)
  {
    hide Inv, Children, Pending, Delegated, Manage, BudgetHolds, BudgetOf, PutRow, Bump;
    if bytes == 0 {
      return Err(InvalidInput);
    }
    if id !in d.accounts {
      return Err(NotFound);
    }
    var target := d.accounts[id];
    var managed := Manage(d, actor, target);
    if managed.Err? {
      return Err(managed.error);
    }
    if !IsChild(target) || target.status == Deleted || target.generation != generation {
      return Err(Conflict);
    }
    if target.owner.None? {
      return Err(Forbidden);
    }
    var owner := target.owner.value;
    ChildOwner(d, id);
    ChildInSum(d, id);
    QuotaArithmeticFits(d, owner);
    var limit := BudgetOf(d, owner);
    var children := SumChildren(d, owner);
    var pending := SumPending(d, owner, None);
    var taken := Plus(children, pending);
    if bytes > I64_MAX {
      return Err(InvalidInput);
    }
    var before := QuotaOf(target);
    if bytes > Minus(Minus(limit, Minus(taken, before)), OwnOf(d, owner)) {
      return Err(QuotaExceeded);
    }
    r := Ok(Prepared(PutRow(d, id, Bump(target).(quota := Some(bytes))),
                     if owner in d.own then d.own[owner] else Minus(Plus(Minus(limit, taken), before), bytes)));
  }

  lemma {:induction false} ChildInSum(d: Db, id: Id)
    requires id in d.accounts && d.accounts[id].owner.Some?
    ensures QuotaOf(d.accounts[id]) <= Children(d, d.accounts[id].owner.value)
  {
    TotalMember(ChildRows(d.accounts, d.accounts[id].owner.value), id);
  }

  method PrepareChildRequest(d: Db, owner: Id, generation: nat, key: Key, name: string, quota: nat, uid: nat)
    returns (r: Result<Db>)
    requires Inv(d)
    ensures r == ReserveChild(d, owner, generation, key, name, quota, uid)
  {
    hide Inv, Children, Pending, Delegated;
    var live := Authorized(d, Account(owner, generation));
    if live.Err? {
      return Err(live.error);
    }
    if d.accounts[owner].role != Admin {
      return Err(Forbidden);
    }
    QuotaArithmeticFits(d, owner);
    var taken := SumChildren(d, owner);
    var pending := SumPending(d, owner, None);
    if quota > I64_MAX {
      return Err(InvalidInput);
    }
    if quota > Minus(Minus(Minus(BudgetOf(d, owner), taken), pending), OwnOf(d, owner)) {
      return Err(QuotaExceeded);
    }
    if key in d.intents {
      return Err(Database);
    }
    r := Ok(d.(intents := d.intents[key := Intent(owner, name, quota, uid, None)]));
  }

  method PrepareAdminRequest(d: Db, key: Key, name: string, budget: nat, uid: nat) returns (r: Result<Db>)
    requires Inv(d)
    ensures r == ReserveAdmin(d, key, name, budget, uid)
  {
    hide Inv, Children, Pending, Delegated;
    PoolArithmetic(d, RootOwner);
    var taken := SumBudgets(d);
    var pending := SumPending(d, RootOwner, None);
    if budget > I64_MAX {
      return Err(InvalidInput);
    }
    if budget > Minus(Minus(d.pool, taken), pending) {
      return Err(QuotaExceeded);
    }
    if key in d.intents {
      return Err(Database);
    }
    r := Ok(d.(intents := d.intents[key := Intent(RootOwner, name, budget, uid, None)]));
  }

  // ---------- Creating an account ----------

  method CheckChildRoom(d: Db, input: NewAccount, exclude: Option<Key>) returns (r: Result<()>)
    requires Inv(d)
    ensures r == ChildRoom(d, input, exclude)
  {
    hide Inv, Children, Pending, Delegated;
    if input.quota.None? || input.quota.value == 0 || input.owner.None? {
      return Err(InvalidInput);
    }
    var owner := input.owner.value;
    if owner !in d.accounts {
      return Err(NotFound);
    }
    var row := d.accounts[owner];
    if row.role != Admin || row.status != Active {
      return Err(Forbidden);
    }
    if owner !in d.budgets {
      return Err(QuotaExceeded);
    }
    QuotaArithmeticFits(d, owner);
    PoolArithmetic(d, owner);
    FewerPending(d, owner, exclude);
    var taken := SumChildren(d, owner);
    var pending := SumPending(d, owner, exclude);
    if input.quota.value > I64_MAX {
      return Err(InvalidInput);
    }
    if input.quota.value > Minus(Minus(Minus(d.budgets[owner], taken), pending), OwnOf(d, owner)) {
      return Err(QuotaExceeded);
    }
    r := Ok(());
  }

  lemma {:induction false} FewerPending(d: Db, owner: Id, exclude: Option<Key>)
    ensures Pending(d, owner, exclude) <= Pending(d, owner)
  {
    if exclude.Some? {
      PendingSplit(d.intents, owner, exclude.value);
    }
  }

  method CheckRootRoom(d: Db, input: NewAccount, request: Option<Request>) returns (r: Result<Option<nat>>)
    requires Inv(d)
    ensures r == RootRoom(d, input, request)
  {
    hide Inv, Children, Pending, Delegated;
    if input.kind != Virtual || input.role != Admin || request.None? {
      return Ok(None);
    }
    var Request(key, intent) := request.value;
    if intent.owner != RootOwner || key.owner != RootOwner {
      return Err(Forbidden);
    }
    PoolArithmetic(d, RootOwner);
    FewerPending(d, RootOwner, Some(key));
    var taken := SumBudgets(d);
    var pending := SumPending(d, RootOwner, Some(key));
    if intent.quota > I64_MAX {
      return Err(InvalidInput);
    }
    if intent.quota > Minus(Minus(d.pool, taken), pending) {
      return Err(QuotaExceeded);
    }
    r := Ok(Some(intent.quota));
  }

  method CheckRecord(d: Db, actor: Authority, input: NewAccount, request: Option<Request>) returns (r: Result<Option<nat>>)
    requires Inv(d)
    ensures r == CreateCheck(d, actor, input, request)
  {
    hide Inv, Children, Pending, Delegated, ChildRoom, RootRoom, ValidIdentity, HasUsername, UidTaken, KeyOf;
    if !ValidIdentity(input.username, input.uid, input.gid, input.home) {
      return Err(InvalidInput);
    }
    var live := Authorized(d, actor);
    if live.Err? {
      return Err(live.error);
    }
    var caller := live.value;
    if caller.Some? && (input.kind != Virtual || input.role != User || input.owner != caller
                        || d.accounts[caller.value].role != Admin) {
      return Err(Forbidden);
    }
    if input.kind == Virtual && input.role == Admin {
      if caller.Some? || input.owner.Some? || input.quota.Some? {
        return Err(Forbidden);
      }
    } else if input.kind == Virtual {
      var room := CheckChildRoom(d, input, KeyOf(request));
      if room.Err? {
        return Err(room.error);
      }
    } else if input.owner.Some? || input.quota.Some? {
      return Err(InvalidInput);
    }
    r := CheckRootRoom(d, input, request);
    if r.Err? {
      return;
    }
    // INSERT fails on the unique username and uid columns.
    var same := LookupUsername(d, input.username);
    if same.Some? || UidTaken(d, input.uid) {
      return Err(Database);
    }
  }

  method PrepareRecord(d: Db, actor: Authority, input: NewAccount, hash: Option<string>, request: Option<Request>, id: Id)
    returns (r: Result<Db>)
    requires Inv(d)
    ensures r == CreateRecord(d, actor, input, hash, request, id)
  {
    hide Inv, CreateCheck, NewRow;
    var checked := CheckRecord(d, actor, input, request);
    if checked.Err? {
      return Err(checked.error);
    }
    var budgets, mustChange, intents := d.budgets, d.mustChange, d.intents;
    if checked.value.Some? {
      budgets := budgets[id := checked.value.value];
    }
    if hash.Some? && actor.Account? {
      mustChange := mustChange + {id};
    }
    if request.Some? {
      intents := intents[request.value.key := request.value.intent.(account := Some(id))];
    }
    r := Ok(d.(accounts := d.accounts[id := NewRow(input, hash)], used := d.used + {id},
               budgets := budgets, mustChange := mustChange, intents := intents));
  }
}
