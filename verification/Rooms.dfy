/** Where the bytes go: how much room each transaction takes or gives back, and what the readers then answer. */
module Rooms {
  import opened Types
  import opened Sums
  import opened Tables
  import opened Ops
  import opened Invariant
  import opened Preservation
  import opened Evolution
  import opened Runs
  import opened Theorems
  import opened Columns

  /** What an account can still promise out of its budget, and Root out of the pool. */
  ghost function Room(d: Db, owner: Id): int {
    if owner == RootOwner then d.pool - Delegated(d) - Pending(d, RootOwner)
    else BudgetOf(d, owner) - Children(d, owner) - Pending(d, owner) - OwnOf(d, owner)
  }

  function If(c: bool, bytes: int): int {
    if c then bytes else 0
  }

  /** The bytes that an accepted call moves into (or, negative, out of) the room of one owner. */
  function Flow(d: Db, ev: Event, owner: Id): int {
    match ev
    case EvSetPool(_, bytes) => If(owner == RootOwner, bytes - d.pool)
    case EvSetAdminBudget(_, id, bytes) =>
      If(id == owner, bytes - BudgetOf(d, id)) - If(owner == RootOwner, bytes - BudgetOf(d, id))
    case EvSetAdminOwn(_, id, bytes) => If(id == owner, OwnOf(d, id) - bytes)
    case EvSetChildQuota(_, id, _, bytes) =>
      if id in d.accounts then If(d.accounts[id].owner == Some(owner), QuotaOf(d.accounts[id]) - bytes) else 0
    case EvReserveChild(holder, _, _, _, bytes, _) => -If(holder == owner, bytes)
    case EvReserveAdmin(_, _, bytes, _) => -If(owner == RootOwner, bytes)
    case EvCreate(_, input, _, _) => -If(input.owner == Some(owner), ValueOr(input.quota, 0))
    case EvFinalize(_, input, _, key, _) =>
      if key !in d.intents then 0 else
      If(d.intents[key].owner == owner, d.intents[key].quota)
      - If(input.owner == Some(owner), ValueOr(input.quota, 0))
      - If(owner == RootOwner && input.kind.Virtual? && input.role.Admin?, d.intents[key].quota)
    case EvCancelPending(key) =>
      if key in d.intents then If(d.intents[key].owner == owner, d.intents[key].quota) else 0
    case EvFinishPurge(id) =>
      if id in d.accounts then If(d.accounts[id].owner == Some(owner), QuotaOf(d.accounts[id])) else 0
    case _ => 0
  }

  /** Root, or an account: whoever can have room. */
  predicate Owner(d: Db, owner: Id) {
    owner == RootOwner || owner in d.accounts
  }

  lemma {:induction false} PoolFlow(d: Db, ev: Event, owner: Id)
    requires Step(d, ev).Ok? && ev.EvSetPool?
    ensures Room(After(d, ev), owner) == Room(d, owner) + Flow(d, ev, owner)
  {
    hide Total, ChildRows, PendingRows;
  }

  lemma {:induction false} BudgetFlow(d: Db, actor: Authority, id: Id, bytes: nat, owner: Id)
    requires RootOwner !in d.accounts && SetAdminBudget(d, actor, id, bytes).Ok?
    ensures Room(SetAdminBudget(d, actor, id, bytes).value.db, owner) ==
      Room(d, owner) + If(id == owner, bytes - BudgetOf(d, id)) - If(owner == RootOwner, bytes - BudgetOf(d, id))
  {
    hide Total, ChildRows, PendingRows;
    DelegatedPut(d, id, bytes);
  }

  lemma {:induction false} OwnFlow(d: Db, actor: Authority, id: Id, bytes: nat, owner: Id)
    requires Inv(d) && SetAdminOwn(d, actor, id, bytes).Ok?
    ensures Room(SetAdminOwn(d, actor, id, bytes).value.db, owner) == Room(d, owner) + If(id == owner, OwnOf(d, id) - bytes)
  {
    hide Inv, Children, Pending, Delegated, BudgetOf, Quiet;
    var mid := PutRow(d, id, Bump(d.accounts[id]));
    BumpKeeps(d, id);
    QuietSums(d, mid);
    RootIsNoAccount(d);
    OwnRoom(mid, id, bytes, owner);
    QuietRoom(d, mid, owner);
  }

  lemma {:induction false} RootIsNoAccount(d: Db)
    requires Inv(d)
    ensures RootOwner !in d.accounts && RootOwner !in d.own
  {
    hide PurgedOk, IntentsOk, LedgerOk, ProofRowsOk, ProofCapsOk;
  }

  lemma {:induction false} OwnRoom(d: Db, id: Id, bytes: nat, owner: Id)
    requires id != RootOwner
    ensures Room(d.(own := d.own[id := bytes]), owner) == Room(d, owner) + If(id == owner, OwnOf(d, id) - bytes)
  {
    hide Total, ChildRows, PendingRows;
  }

  /** Where no quota-bearing column moves, no room does. */
  lemma {:induction false} QuietRoom(d: Db, e: Db, owner: Id)
    requires Quiet(d, e)
    ensures Room(e, owner) == Room(d, owner)
  {
    hide Total, PendingRows, ChildRows;
    QuietSums(d, e);
  }

  /** A rewritten child row moves its owner's room by the difference of the two quotas. */
  lemma {:induction false} RowRoom(d: Db, e: Db, id: Id, r: Row, owner: Id)
    requires id in d.accounts && id != RootOwner && r.owner == d.accounts[id].owner && r.owner != Some(RootOwner)
    requires e.accounts == d.accounts[id := r]
    requires e.pool == d.pool && e.budgets == d.budgets && e.own == d.own && e.intents == d.intents
    ensures Room(e, owner) == Room(d, owner) + If(r.owner == Some(owner), QuotaOf(d.accounts[id]) - QuotaOf(r))
  {
    hide Total, ChildRows, PendingRows, QuotaOf;
    ChildPut(d.accounts, id, r, owner);
  }

  lemma {:induction false} ChildQuotaFlow(d: Db, actor: Authority, id: Id, generation: nat, bytes: nat, owner: Id)
    requires Inv(d) && SetChildQuota(d, actor, id, generation, bytes).Ok?
    ensures id in d.accounts
    ensures Room(SetChildQuota(d, actor, id, generation, bytes).value.db, owner) ==
      Room(d, owner) + If(d.accounts[id].owner == Some(owner), QuotaOf(d.accounts[id]) - bytes)
  {
    hide Inv, Children, Pending, BudgetOf, OwnOf, Manage, Room;
    ChildOfAccount(d, id);
    RowRoom(d, SetChildQuota(d, actor, id, generation, bytes).value.db, id, Bump(d.accounts[id]).(quota := Some(bytes)), owner);
  }

  lemma {:induction false} ChildOfAccount(d: Db, id: Id)
    requires Inv(d) && id in d.accounts
    ensures id != RootOwner && d.accounts[id].owner != Some(RootOwner)
  {
    hide KeysOk, PurgedOk, IntentsOk, LedgerOk, ProofRowsOk, ProofCapsOk;
    assert ShapeOk(d.accounts, d.accounts[id]);
  }

  lemma {:induction false} PurgeFlow(d: Db, id: Id, owner: Id)
    requires Inv(d) && FinishPurge(d, id).Ok?
    ensures id in d.accounts
    ensures Room(FinishPurge(d, id).value, owner) == Room(d, owner) + If(d.accounts[id].owner == Some(owner), QuotaOf(d.accounts[id]))
  {
    hide Inv, Room;
    ChildOfAccount(d, id);
    RowRoom(d, FinishPurge(d, id).value, id, Bump(d.accounts[id]).(quota := Some(0), hash := None), owner);
  }

  lemma {:induction false} ReserveFlow(d: Db, key: Key, n: Intent, owner: Id)
    requires key !in d.intents && n.account.None?
    ensures Room(d.(intents := d.intents[key := n]), owner) == Room(d, owner) - If(n.owner == owner, n.quota)
  {
    hide Total, ChildRows, PendingRows;
    PendingPut(d.intents, key, n, owner);
  }

  lemma {:induction false} CancelFlow(d: Db, key: Key, owner: Id)
    requires CancelPending(d, key).Ok?
    ensures key in d.intents
    ensures Room(CancelPending(d, key).value, owner) == Room(d, owner) + If(d.intents[key].owner == owner, d.intents[key].quota)
  {
    hide Total, ChildRows, PendingRows;
    PendingClose(d.intents, key, d.intents[key].(account := Some(RootOwner)), owner);
    PendingSplit(d.intents, owner, key);
  }

  /** Creating takes the child's quota from its owner, and turns a request into what it was for. */
  lemma {:induction false} CreateFlow(d: Db, actor: Authority, input: NewAccount, hash: Option<string>,
                                      request: Option<Request>, id: Id, owner: Id)
    requires Inv(d) && Creatable(d, input, request, id) && CreateRecord(d, actor, input, hash, request, id).Ok?
    requires Owner(d, owner)
    ensures Room(CreateRecord(d, actor, input, hash, request, id).value, owner) ==
      Room(d, owner)
      + (if request.Some? then If(request.value.intent.owner == owner, request.value.intent.quota) else 0)
      - If(input.owner == Some(owner), ValueOr(input.quota, 0))
      - (if request.Some? && input.kind.Virtual? && input.role.Admin? then If(owner == RootOwner, request.value.intent.quota)
         else 0)
  {
    hide Inv, Creatable, Room, Created, CreateRecord, RootRoom;
    BudgetGranted(d, actor, input, hash, request, id);
    var budget := RootRoom(d, input, request).value;
    NewId(d, input, request, id);
    CreateChecks(d, actor, input, hash, request, id);
    CreatedOwner(d, actor, input, hash, request, id);
    FreshOwnerEmpty(d, id);
    CreatedRoom(d, input, hash, request, id, budget, owner);
    SameRoom(Created(d, input, hash, request, id, budget), CreateRecord(d, actor, input, hash, request, id).value, owner);
  }

  lemma {:induction false} SameRoom(d: Db, e: Db, owner: Id)
    requires e.accounts == d.accounts && e.pool == d.pool && e.budgets == d.budgets && e.own == d.own && e.intents == d.intents
    ensures Room(e, owner) == Room(d, owner)
  {
    hide Total, ChildRows, PendingRows;
  }

  lemma {:induction false} CreatedRoom(d: Db, input: NewAccount, hash: Option<string>, request: Option<Request>,
                                       id: Id, budget: Option<nat>, owner: Id)
    requires Inv(d) && Creatable(d, input, request, id) && Owner(d, owner)
    requires id !in d.accounts && id !in d.budgets && id != RootOwner && RootOwner !in d.own && RootOwner !in d.budgets
    requires request.Some? ==> request.value.key in d.intents && d.intents[request.value.key] == request.value.intent
                               && request.value.intent.account.None?
    requires input.owner != Some(RootOwner)
    ensures Room(Created(d, input, hash, request, id, budget), owner) ==
      Room(d, owner) + (if request.Some? then If(request.value.intent.owner == owner, request.value.intent.quota) else 0)
      - If(input.owner == Some(owner), ValueOr(input.quota, 0))
      - (if budget.Some? then If(owner == RootOwner, budget.value) else 0)
  {
    hide Inv, Creatable, Total, ChildRows, PendingRows;
    CreatedPending(d, input, hash, request, id, budget, owner);
    ChildPut(d.accounts, id, NewRow(input, hash), owner);
    DelegatedPut(d, id, if budget.Some? then budget.value else 0);
    if request.Some? {
      PendingSplit(d.intents, owner, request.value.key);
    }
  }

  lemma {:induction false} NewId(d: Db, input: NewAccount, request: Option<Request>, id: Id)
    requires Inv(d) && Creatable(d, input, request, id)
    ensures id !in d.accounts && id != RootOwner && RootOwner !in d.accounts && RootOwner !in d.own && RootOwner !in d.budgets
    ensures request.Some? ==>
      request.value.key in d.intents && d.intents[request.value.key] == request.value.intent && request.value.intent.account.None?
  {
    hide PurgedOk, IntentsOk, LedgerOk, ProofRowsOk, ProofCapsOk, Assigned;
  }

  lemma {:induction false} CreatedOwner(d: Db, actor: Authority, input: NewAccount, hash: Option<string>,
                                        request: Option<Request>, id: Id)
    requires Inv(d) && CreateRecord(d, actor, input, hash, request, id).Ok?
    ensures input.owner.Some? ==> input.owner.value in d.accounts && input.quota.Some?
  {
    hide Inv, Children, Pending, Delegated, BudgetOf, HasUsername, UidTaken, Authorized;
  }

  lemma {:induction false} BudgetGranted(d: Db, actor: Authority, input: NewAccount, hash: Option<string>,
                                         request: Option<Request>, id: Id)
    requires CreateRecord(d, actor, input, hash, request, id).Ok?
    ensures RootRoom(d, input, request).Ok?
    ensures RootRoom(d, input, request).value ==
      if request.Some? && input.kind.Virtual? && input.role.Admin? then Some(request.value.intent.quota) else None
  {
    hide Children, Pending, Delegated, ChildRoom, HasUsername, UidTaken, Authorized;
  }

  lemma {:induction false} LedgerFlow(d: Db, ev: Event, owner: Id)
    requires Inv(d) && Step(d, ev).Ok?
    requires ev.EvSetPool? || ev.EvSetAdminBudget? || ev.EvSetAdminOwn? || ev.EvSetChildQuota?
    ensures Room(After(d, ev), owner) == Room(d, owner) + Flow(d, ev, owner)
  {
    hide Inv, Room, SetAdminBudget, SetAdminOwn, SetChildQuota;
    RootIsNoAccount(d);
    match ev {
      case EvSetPool(_, _) => PoolFlow(d, ev, owner);
      case EvSetAdminBudget(actor, id, bytes) => BudgetFlow(d, actor, id, bytes, owner);
      case EvSetAdminOwn(actor, id, bytes) => OwnFlow(d, actor, id, bytes, owner);
      case EvSetChildQuota(actor, id, generation, bytes) => ChildQuotaFlow(d, actor, id, generation, bytes, owner);
    }
  }

  lemma {:induction false} RequestFlow(d: Db, ev: Event, owner: Id)
    requires Inv(d) && Step(d, ev).Ok? && (ev.EvReserveChild? || ev.EvReserveAdmin? || ev.EvCancelPending?)
    ensures Room(After(d, ev), owner) == Room(d, owner) + Flow(d, ev, owner)
  {
    hide Inv, Room, CancelPending, Children, Pending, Delegated, BudgetOf, OwnOf, Authorized, Assigned;
    match ev {
      case EvReserveChild(holder, _, key, name, bytes, uid) => ReserveFlow(d, key, Intent(holder, name, bytes, uid, None), owner);
      case EvReserveAdmin(key, name, bytes, uid) => ReserveFlow(d, key, Intent(RootOwner, name, bytes, uid, None), owner);
      case EvCancelPending(key) => CancelFlow(d, key, owner);
    }
  }

  lemma {:induction false} AccountFlow(d: Db, ev: Event, owner: Id)
    requires Inv(d) && Admissible(d, ev) && Step(d, ev).Ok? && Owner(d, owner)
    requires ev.EvCreate? || ev.EvFinalize? || ev.EvFinishPurge?
    ensures Room(After(d, ev), owner) == Room(d, owner) + Flow(d, ev, owner)
  {
    hide Inv, Room, CreateRecord, FinishPurge, UidTaken, Assigned;
    match ev {
      case EvCreate(actor, input, hash, id) =>
        KnownUid(d, ev);
        CreateFlow(d, actor, input, hash, None, id, owner);
      case EvFinalize(actor, input, hash, key, id) =>
        CreateFlow(d, actor, input, hash, Some(Request(key, d.intents[key])), id, owner);
      case EvFinishPurge(id) => PurgeFlow(d, id, owner);
    }
  }

  /** A creation that succeeds had an unknown UID. */
  lemma {:induction false} KnownUid(d: Db, ev: Event)
    requires ev.EvCreate? && Step(d, ev).Ok? && Admissible(d, ev)
    ensures ev.input.uid !in Assigned(d)
  {
    hide Assigned, UidTaken, HasUsername, ChildRoom, RootRoom, Authorized;
  }

  lemma {:induction false} IssueRoom(d: Db, id: Id, generation: nat, caller: Caller, at: nat, lifetime: nat, nonce: Id, owner: Id)
    requires IssueGrant(d, id, generation, caller, at, lifetime, nonce).Ok?
    ensures Room(IssueGrant(d, id, generation, caller, at, lifetime, nonce).value, owner) == Room(d, owner)
  {
    hide LiveGrants, GrantsOf, ValidCaller, Room;
    SameRoom(d, IssueGrant(d, id, generation, caller, at, lifetime, nonce).value, owner);
  }

  lemma {:induction false} BeginRoom(d: Db, identity: Identity, caller: Caller, at: nat, lifetime: nat, token: Id, owner: Id)
    requires BeginEnrollment(d, identity, caller, at, lifetime, token).Ok?
    ensures Room(BeginEnrollment(d, identity, caller, at, lifetime, token).value, owner) == Room(d, owner)
  {
    hide FindUsername, MayEnroll, ValidIdentity, ValidCaller, EnrollmentsKept, Room;
    SameRoom(d, BeginEnrollment(d, identity, caller, at, lifetime, token).value, owner);
  }

  lemma {:induction false} PurgeRoom(d: Db, id: Id, owner: Id)
    requires BeginPurge(d, id).Ok?
    ensures Room(BeginPurge(d, id).value, owner) == Room(d, owner)
  {
    hide Room;
    SameRoom(d, BeginPurge(d, id).value, owner);
  }

  /** A new Linux account has no owner and no budget. */
  lemma {:induction false} EnrollRoom(d: Db, token: Id, caller: Caller, identity: Identity, hash: Option<string>, at: nat,
                                      drawn: Id, owner: Id)
    requires CompleteEnrollment(d, token, caller, identity, hash, at, drawn).Ok? && drawn !in d.accounts
    ensures Room(CompleteEnrollment(d, token, caller, identity, hash, at, drawn).value, owner) == Room(d, owner)
  {
    hide CompleteEnrollment, FindUsername, Room, ChildRows;
    EnrolledRow(d, token, caller, identity, hash, at, drawn);
    var e, found := CompleteEnrollment(d, token, caller, identity, hash, at, drawn).value, FindUsername(d, identity.username);
    if found.Some? {
      RowChildren(d.accounts, found.value, Enrolled(d.accounts[found.value], hash.value), owner);
    } else {
      RowChildren(d.accounts, drawn, Enrolled(FreshLinuxRow(identity), hash.value), owner);
    }
    SameChildren(d, e, owner);
  }

  lemma {:induction false} RowChildren(accounts: map<Id, Row>, id: Id, r: Row, owner: Id)
    requires if id in accounts then r.owner == accounts[id].owner && r.quota == accounts[id].quota else r.owner.None?
    ensures ChildRows(accounts[id := r], owner) == ChildRows(accounts, owner)
  {
  }

  lemma {:induction false} SameChildren(d: Db, e: Db, owner: Id)
    requires ChildRows(e.accounts, owner) == ChildRows(d.accounts, owner)
    requires e.pool == d.pool && e.budgets == d.budgets && e.own == d.own && e.intents == d.intents
    ensures Room(e, owner) == Room(d, owner)
  {
    hide Total, PendingRows, ChildRows;
  }

  lemma {:induction false} ProofFlow(d: Db, ev: Event, owner: Id)
    requires Inv(d) && Admissible(d, ev) && Step(d, ev).Ok?
    requires ev.EvIssueGrant? || ev.EvBeginEnrollment? || ev.EvBeginPurge? || ev.EvCompleteEnrollment?
    ensures Room(After(d, ev), owner) == Room(d, owner)
  {
    hide Inv, Room, IssueGrant, BeginEnrollment, BeginPurge, CompleteEnrollment, UidTaken, Assigned;
    match ev {
      case EvIssueGrant(id, generation, caller, at, lifetime, nonce) =>
        IssueRoom(d, id, generation, caller, at, lifetime, nonce, owner);
      case EvBeginEnrollment(identity, caller, at, lifetime, token) =>
        BeginRoom(d, identity, caller, at, lifetime, token, owner);
      case EvBeginPurge(id) => PurgeRoom(d, id, owner);
      case EvCompleteEnrollment(token, caller, identity, hash, at, id) =>
        FreshEnrollmentId(d, ev);
        EnrollRoom(d, token, caller, identity, hash, at, id, owner);
    }
  }

  /** Every accepted transaction moves every owner's room by exactly what it takes or gives back. */
  lemma {:induction false} RoomMoves(d: Db, ev: Event, owner: Id)
    requires Inv(d) && Admissible(d, ev) && Step(d, ev).Ok? && Owner(d, owner)
    ensures Room(After(d, ev), owner) == Room(d, owner) + Flow(d, ev, owner)
  {
    hide Inv, Admissible, Step, Flow, Room, QuietLater;
    if ev.EvSetPool? || ev.EvSetAdminBudget? || ev.EvSetAdminOwn? || ev.EvSetChildQuota? {
      LedgerFlow(d, ev, owner);
    } else if ev.EvReserveChild? || ev.EvReserveAdmin? || ev.EvCancelPending? {
      RequestFlow(d, ev, owner);
    } else if ev.EvCreate? || ev.EvFinalize? || ev.EvFinishPurge? {
      AccountFlow(d, ev, owner);
    } else {
      NoFlow(d, ev, owner);
      if ev.EvIssueGrant? || ev.EvBeginEnrollment? || ev.EvBeginPurge? || ev.EvCompleteEnrollment? {
        ProofFlow(d, ev, owner);
      } else {
        QuietStep(d, ev);
        QuietFlow(d, After(d, ev), owner);
      }
    }
  }

  lemma {:induction false} NoFlow(d: Db, ev: Event, owner: Id)
    requires !ev.EvSetPool? && !ev.EvSetAdminBudget? && !ev.EvSetAdminOwn? && !ev.EvSetChildQuota? && !ev.EvReserveChild?
    requires !ev.EvReserveAdmin? && !ev.EvCancelPending? && !ev.EvCreate? && !ev.EvFinalize? && !ev.EvFinishPurge?
    ensures Flow(d, ev, owner) == 0
  {
  }

  lemma {:induction false} QuietFlow(d: Db, e: Db, owner: Id)
    requires QuietLater(d, e)
    ensures Room(e, owner) == Room(d, owner)
  {
    hide Room, Quiet;
    QuietRoom(d, e, owner);
  }

  // ---------- What the readers answer ----------

  /** A budget view shows the limit, the fixed own quota and exactly the room that is left. */
  lemma {:induction false} RoomIsRemaining(d: Db, id: Id)
    requires Inv(d) && id in d.accounts && d.accounts[id].role.Admin?
    ensures Budget(d, id).Ok? && 0 <= Room(d, id)
    ensures var view := Budget(d, id).value;
      && view.limit == BudgetOf(d, id) && view.own == Look(d.own, id) && view.remaining == Room(d, id)
      && view.reserved + view.remaining + OwnOf(d, id) == view.limit
  {
    hide Total, RowsOk, KeysOk, LedgerOk, PurgedOk, IntentsOk, ProofRowsOk, ProofCapsOk, ChildRows, PendingRows;
    QuotaArithmeticFits(d, id);
    RootIsNoAccount(d);
  }

  /** What two states must agree on for the readers of one account to agree. */
  ghost predicate SameLedger(d: Db, e: Db, id: Id) {
    && id in d.accounts && id in e.accounts && id != RootOwner
    && e.accounts[id].kind == d.accounts[id].kind && e.accounts[id].role == d.accounts[id].role
    && e.accounts[id].quota == d.accounts[id].quota
    && Look(e.own, id) == Look(d.own, id) && Look(e.budgets, id) == Look(d.budgets, id) && Room(e, id) == Room(d, id)
  }

  lemma {:induction false} SameAnswers(d: Db, e: Db, id: Id)
    requires SameLedger(d, e, id)
    ensures Budget(e, id) == Budget(d, id) && EffectiveQuota(e, id) == EffectiveQuota(d, id)
  {
    hide Total, ChildRows, PendingRows;
    assert Children(e, id) + Pending(e, id) == Children(d, id) + Pending(d, id);
  }

  /** An accepted budget is the one that is asked for, for every kind of administrator and own-quota mode. */
  lemma {:induction false} BudgetStored(d: Db, actor: Authority, id: Id, bytes: nat, other: Id)
    requires Inv(d) && Step(d, EvSetAdminBudget(actor, id, bytes)).Ok?
    ensures var e := After(d, EvSetAdminBudget(actor, id, bytes));
      && Budget(d, id).Ok? && Budget(e, id).Ok? && Budget(e, id).value.limit == bytes
      && Budget(e, id).value.own == Budget(d, id).value.own && Budget(e, id).value.reserved == Budget(d, id).value.reserved
      && (other in d.accounts && other != id ==>
            Budget(e, other) == Budget(d, other) && EffectiveQuota(e, other) == EffectiveQuota(d, other))
      && Room(e, RootOwner) == Room(d, RootOwner) + Budget(d, id).value.limit - bytes && e.accounts == d.accounts
  {
    hide Inv, Room, SetAdminBudget, Budget, EffectiveQuota, SameLedger;
    var ev := EvSetAdminBudget(actor, id, bytes);
    BudgetRow(d, actor, id, bytes);
    RootIsNoAccount(d);
    StepKeeps(d, ev) by {
      hide Step;
    }
    RoomIsRemaining(d, id);
    RoomIsRemaining(After(d, ev), id);
    BudgetFlow(d, actor, id, bytes, RootOwner);
    BudgetFlow(d, actor, id, bytes, id);
    if other in d.accounts && other != id {
      BudgetFlow(d, actor, id, bytes, other);
      BudgetElsewhere(d, actor, id, bytes, other);
      SameAnswers(d, After(d, ev), other);
    }
  }

  /** The readers of a database that one of these calls commits. */
  lemma {:induction false} BudgetAnswered(d: Db, actor: Authority, id: Id, bytes: nat)
    requires Inv(d)
    ensures var r := Step(d, EvSetAdminBudget(actor, id, bytes));
      r.Ok? ==> Budget(r.value, id).Ok? && Budget(r.value, id).value.limit == bytes
  {
    hide Inv, Budget, Step;
    if Step(d, EvSetAdminBudget(actor, id, bytes)).Ok? {
      BudgetStored(d, actor, id, bytes, id);
    }
  }

  lemma {:induction false} BudgetRow(d: Db, actor: Authority, id: Id, bytes: nat)
    requires SetAdminBudget(d, actor, id, bytes).Ok?
    ensures var e := SetAdminBudget(d, actor, id, bytes).value.db;
      && id in d.accounts && d.accounts[id].role.Admin? && e.accounts == d.accounts && e.own == d.own
      && e.budgets == d.budgets[id := bytes]
  {
    hide Children, Pending, Delegated, BudgetOf, OwnOf;
  }

  lemma {:induction false} BudgetElsewhere(d: Db, actor: Authority, id: Id, bytes: nat, other: Id)
    requires SetAdminBudget(d, actor, id, bytes).Ok? && other in d.accounts && other != id && other != RootOwner
    requires Room(SetAdminBudget(d, actor, id, bytes).value.db, other) == Room(d, other)
    ensures SameLedger(d, SetAdminBudget(d, actor, id, bytes).value.db, other)
  {
    hide Room, SetAdminBudget;
    BudgetRow(d, actor, id, bytes);
  }

  /** The pool is what Root asked for: the next administrator's budget has to fit what is left of it. */
  lemma {:induction false} PoolStored(d: Db, actor: Authority, bytes: nat, other: Id)
    requires Inv(d) && Step(d, EvSetPool(actor, bytes)).Ok?
    ensures var e := After(d, EvSetPool(actor, bytes));
      && e.pool == bytes && Room(e, RootOwner) == bytes - Delegated(d) - Pending(d, RootOwner)
      && (other in d.accounts ==>
            Budget(e, other) == Budget(d, other) && EffectiveQuota(e, other) == EffectiveQuota(d, other))
      && e.accounts == d.accounts
  {
    hide Total, RowsOk, KeysOk, LedgerOk, PurgedOk, IntentsOk, ProofRowsOk, ProofCapsOk, ChildRows, PendingRows;
  }

  /** A fixed own quota is answered as it was asked for, and nobody else's limit moves. */
  lemma {:induction false} OwnStored(d: Db, actor: Authority, id: Id, bytes: nat, other: Id)
    requires Inv(d) && Step(d, EvSetAdminOwn(actor, id, bytes)).Ok?
    ensures var e := After(d, EvSetAdminOwn(actor, id, bytes));
      && EffectiveQuota(e, id) == Ok(Some(bytes))
      && Budget(d, id).Ok? && Budget(e, id).Ok? && Budget(e, id).value.own == Some(bytes)
      && Budget(e, id).value.limit == Budget(d, id).value.limit && Budget(e, id).value.reserved == Budget(d, id).value.reserved
      && (other in d.accounts && other != id ==>
            Budget(e, other) == Budget(d, other) && EffectiveQuota(e, other) == EffectiveQuota(d, other))
  {
    hide Inv, Room, Step, Budget, EffectiveQuota, SameLedger, ViewOf;
    var ev := EvSetAdminOwn(actor, id, bytes);
    OwnTarget(d, ev);
    StepKeeps(d, ev);
    OwnViews(d, ev, id);
    RoomIsRemaining(d, id);
    RoomIsRemaining(After(d, ev), id);
    BudgetReadersAgree(After(d, ev), id);
    RoomMoves(d, ev, id);
    if other in d.accounts && other != id {
      RootIsNoAccount(d);
      RoomMoves(d, ev, other);
      OwnViews(d, ev, other);
      ViewLedger(d, After(d, ev), other);
      SameAnswers(d, After(d, ev), other);
    }
  }

  lemma {:induction false} OwnAnswered(d: Db, id: Id, bytes: nat)
    requires Inv(d)
    ensures var r := Step(d, EvSetAdminOwn(Root, id, bytes));
      r.Ok? ==> EffectiveQuota(r.value, id) == Ok(Some(bytes))
  {
    hide Inv, EffectiveQuota, Budget, Step;
    if Step(d, EvSetAdminOwn(Root, id, bytes)).Ok? {
      OwnStored(d, Root, id, bytes, id);
    }
  }

  lemma {:induction false} OwnTarget(d: Db, ev: Event)
    requires ev.EvSetAdminOwn? && Step(d, ev).Ok?
    ensures ev.id in d.accounts && IsVirtualAdmin(d.accounts[ev.id])
  {
    hide Children, Pending, BudgetOf;
  }

  lemma {:induction false} OwnViews(d: Db, ev: Event, id: Id)
    requires Inv(d) && ev.EvSetAdminOwn? && Step(d, ev).Ok? && id in d.accounts
    ensures id in After(d, ev).accounts
    ensures var v := ViewOf(d, id);
      ViewOf(After(d, ev), id) ==
        (if id == ev.id then v.(row := v.row.(generation := v.row.generation + 1), own := Some(ev.bytes)) else v)
      && After(d, ev).accounts[id] == ViewOf(After(d, ev), id).row && d.accounts[id] == v.row
      && BudgetOf(After(d, ev), id) == BudgetOf(d, id)
      && Look(After(d, ev).own, id) == if id == ev.id then Some(ev.bytes) else Look(d.own, id)
  {
    hide Inv, Step;
    EventShows(d, ev, id);
  }

  lemma {:induction false} ViewLedger(d: Db, e: Db, id: Id)
    requires id in d.accounts && id in e.accounts && id != RootOwner && Room(e, id) == Room(d, id)
    requires var v := ViewOf(d, id); ViewOf(e, id) == v.(row := ViewOf(e, id).row)
    requires d.accounts[id].kind == e.accounts[id].kind && d.accounts[id].role == e.accounts[id].role
    requires d.accounts[id].quota == e.accounts[id].quota
    ensures SameLedger(d, e, id)
  {
    hide Room;
  }

  /** A child's quota is answered as it was asked for; besides it only its owner's remainder moves, by the difference. */
  lemma {:induction false} ChildQuotaStored(d: Db, actor: Authority, id: Id, generation: nat, bytes: nat, other: Id)
    requires Inv(d) && Step(d, EvSetChildQuota(actor, id, generation, bytes)).Ok?
    ensures var e := After(d, EvSetChildQuota(actor, id, generation, bytes));
      && EffectiveQuota(e, id) == Ok(Some(bytes))
      && (other in d.accounts && other != id && Some(other) != d.accounts[id].owner ==>
            Budget(e, other) == Budget(d, other) && EffectiveQuota(e, other) == EffectiveQuota(d, other))
      && (other in d.accounts && Some(other) == d.accounts[id].owner && d.accounts[other].role.Admin? ==>
            && Budget(d, other).Ok? && Budget(e, other).Ok?
            && Budget(e, other).value.remaining == Budget(d, other).value.remaining + QuotaOf(d.accounts[id]) - bytes
            && Budget(e, other).value.limit == Budget(d, other).value.limit
            && Budget(e, other).value.own == Budget(d, other).value.own)
  {
    hide Inv, Room, Step, Budget, SameLedger, ViewOf;
    var ev := EvSetChildQuota(actor, id, generation, bytes);
    ChildTarget(d, ev);
    StepKeeps(d, ev);
    ChildViews(d, ev, id);
    if other in d.accounts && other != id {
      RootIsNoAccount(d);
      RoomMoves(d, ev, other);
      ChildViews(d, ev, other);
      if Some(other) != d.accounts[id].owner {
        ViewLedger(d, After(d, ev), other);
        SameAnswers(d, After(d, ev), other);
      } else if d.accounts[other].role.Admin? {
        RoomIsRemaining(d, other);
        RoomIsRemaining(After(d, ev), other);
      }
    }
  }

  lemma {:induction false} ChildQuotaAnswered(d: Db, actor: Authority, id: Id, generation: nat, bytes: nat)
    requires Inv(d)
    ensures var r := Step(d, EvSetChildQuota(actor, id, generation, bytes));
      r.Ok? ==> EffectiveQuota(r.value, id) == Ok(Some(bytes))
  {
    hide Inv, EffectiveQuota, Budget, Step;
    if Step(d, EvSetChildQuota(actor, id, generation, bytes)).Ok? {
      ChildQuotaStored(d, actor, id, generation, bytes, id);
    }
  }

  lemma {:induction false} ChildTarget(d: Db, ev: Event)
    requires Inv(d) && ev.EvSetChildQuota? && Step(d, ev).Ok?
    ensures ev.id in d.accounts && IsChild(d.accounts[ev.id]) && d.accounts[ev.id].owner != Some(ev.id)
  {
    hide Children, Pending, BudgetOf, Manage, KeysOk, PurgedOk, IntentsOk, LedgerOk, ProofRowsOk, ProofCapsOk;
    assert ShapeOk(d.accounts, d.accounts[ev.id]);
  }

  lemma {:induction false} ChildViews(d: Db, ev: Event, id: Id)
    requires Inv(d) && ev.EvSetChildQuota? && Step(d, ev).Ok? && id in d.accounts
    ensures id in After(d, ev).accounts
    ensures var v := ViewOf(d, id);
      && ViewOf(After(d, ev), id) ==
         (if id == ev.id then v.(row := v.row.(generation := v.row.generation + 1, quota := Some(ev.bytes))) else v)
      && After(d, ev).accounts[id] == ViewOf(After(d, ev), id).row && d.accounts[id] == v.row
      && BudgetOf(After(d, ev), id) == BudgetOf(d, id) && Look(After(d, ev).own, id) == Look(d.own, id)
  {
    hide Inv, Step;
    EventShows(d, ev, id);
  }

  // ---------- What is accepted ----------

  /** The account of an authority is live: its row still has that generation and may log in. */
  predicate LiveAdmin(d: Db, id: Id, generation: nat) {
    && id in d.accounts && d.accounts[id].role.Admin? && d.accounts[id].status.Active? && d.accounts[id].login
    && d.accounts[id].generation == generation
  }

  /** Root, or the administrator who owns this virtual account. */
  predicate MayManage(d: Db, actor: Authority, id: Id)
    requires id in d.accounts
  {
    actor.Root? || (LiveAdmin(d, actor.id, actor.generation) && d.accounts[id].owner == Some(actor.id) && d.accounts[id].kind.Virtual?)
  }

  /** The remaining bytes of a budget are exactly the requests that it still accepts. */
  lemma {:induction false} ChildRequestAccepted(d: Db, owner: Id, generation: nat, key: Key, name: string, bytes: nat, uid: nat)
    requires Inv(d)
    ensures Step(d, EvReserveChild(owner, generation, key, name, bytes, uid)).Ok? <==>
      LiveAdmin(d, owner, generation) && key !in d.intents && uid !in Assigned(d)
      && Budget(d, owner).Ok? && bytes <= Budget(d, owner).value.remaining
  {
    hide Total, RowsOk, KeysOk, LedgerOk, PurgedOk, IntentsOk, ProofRowsOk, ProofCapsOk, ChildRows, PendingRows, Assigned;
    if owner in d.accounts {
      QuotaArithmeticFits(d, owner);
    }
  }

  lemma {:induction false} AdminRequestAccepted(d: Db, key: Key, name: string, bytes: nat, uid: nat)
    requires Inv(d)
    ensures Step(d, EvReserveAdmin(key, name, bytes, uid)).Ok? <==>
      key !in d.intents && uid !in Assigned(d) && bytes <= Room(d, RootOwner)
  {
    hide Total, RowsOk, KeysOk, PurgedOk, IntentsOk, ProofRowsOk, ProofCapsOk, ChildRows, PendingRows, Assigned;
  }

  lemma {:induction false} PoolAccepted(d: Db, actor: Authority, bytes: nat)
    requires Inv(d)
    ensures Step(d, EvSetPool(actor, bytes)).Ok? <==> actor.Root? && d.pool - Room(d, RootOwner) <= bytes <= I64_MAX
  {
    hide Total, RowsOk, KeysOk, PurgedOk, IntentsOk, ProofRowsOk, ProofCapsOk, ChildRows, PendingRows;
  }

  /** A budget may fall to what is promised out of it and rise by the room that is left in the pool. */
  lemma {:induction false} BudgetAccepted(d: Db, actor: Authority, id: Id, bytes: nat)
    requires Inv(d)
    ensures Step(d, EvSetAdminBudget(actor, id, bytes)).Ok? <==>
      && actor.Root? && id in d.accounts && d.accounts[id].role.Admin? && d.accounts[id].status.Active?
      && Budget(d, id).Ok?
      && var view := Budget(d, id).value; view.limit - view.remaining <= bytes <= view.limit + Room(d, RootOwner)
  {
    hide Total, RowsOk, KeysOk, LedgerOk, PurgedOk, IntentsOk, ProofRowsOk, ProofCapsOk, ChildRows, PendingRows;
    if id in d.accounts {
      QuotaArithmeticFits(d, id);
      BudgetInPool(d, id) by {
        LedgerHolds(d);
      }
    }
  }

  lemma {:induction false} LedgerHolds(d: Db)
    requires Inv(d)
    ensures LedgerOk(d)
  {
    hide LedgerOk, RowsOk, KeysOk, PurgedOk, IntentsOk, ProofRowsOk, ProofCapsOk;
  }

  lemma {:induction false} OwnAccepted(d: Db, actor: Authority, id: Id, bytes: nat)
    requires Inv(d)
    ensures Step(d, EvSetAdminOwn(actor, id, bytes)).Ok? <==>
      && actor.Root? && id in d.accounts && IsVirtualAdmin(d.accounts[id]) && d.accounts[id].status.Active?
      && Budget(d, id).Ok? && 1 <= bytes <= Budget(d, id).value.remaining + ValueOr(Budget(d, id).value.own, 0)
  {
    hide Total, RowsOk, KeysOk, LedgerOk, PurgedOk, IntentsOk, ProofRowsOk, ProofCapsOk, ChildRows, PendingRows;
    if id in d.accounts {
      QuotaArithmeticFits(d, id);
    }
  }

  /** A child may grow into exactly what its owner has left. */
  lemma {:induction false} ChildQuotaAccepted(d: Db, actor: Authority, id: Id, generation: nat, bytes: nat)
    requires Inv(d)
    ensures Step(d, EvSetChildQuota(actor, id, generation, bytes)).Ok? <==>
      && id in d.accounts && IsChild(d.accounts[id]) && !d.accounts[id].status.Deleted?
      && d.accounts[id].generation == generation && MayManage(d, actor, id) && d.accounts[id].owner.Some?
      && 1 <= bytes <= Room(d, d.accounts[id].owner.value) + QuotaOf(d.accounts[id])
  {
    hide Total, RowsOk, KeysOk, LedgerOk, PurgedOk, IntentsOk, ProofRowsOk, ProofCapsOk, ChildRows, PendingRows, QuotaOf;
    if id in d.accounts && IsChild(d.accounts[id]) {
      var owner := ChildLedger(d, id);
      QuotaArithmeticFits(d, owner);
    }
  }

  lemma {:induction false} ChildLedger(d: Db, id: Id) returns (owner: Id)
    requires Inv(d) && id in d.accounts && IsChild(d.accounts[id])
    ensures d.accounts[id].owner == Some(owner) && owner in d.accounts && owner != RootOwner
    ensures QuotaOf(d.accounts[id]) <= Children(d, owner)
  {
    hide KeysOk, LedgerOk, PurgedOk, IntentsOk, ProofRowsOk, ProofCapsOk, Total;
    assert ShapeOk(d.accounts, d.accounts[id]);
    owner := d.accounts[id].owner.value;
    TotalMember(ChildRows(d.accounts, owner), id);
  }

  /** An opened request is pending under its key with the owner, name, bytes and UID asked for, and no other request changes. */
  lemma {:induction false} RequestStored(d: Db, ev: Event, other: Key)
    requires (ev.EvReserveChild? || ev.EvReserveAdmin?) && Step(d, ev).Ok?
    ensures var e := After(d, ev);
      && ev.key in e.intents
      && e.intents[ev.key].owner == (if ev.EvReserveChild? then ev.owner else RootOwner)
      && e.intents[ev.key].name == ev.name && e.intents[ev.key].quota == ev.bytes && e.intents[ev.key].uid == ev.uid
      && e.intents[ev.key].account.None? && ev.key !in d.intents
      && (other != ev.key ==> (other in e.intents <==> other in d.intents)
                              && (other in e.intents ==> e.intents[other] == d.intents[other]))
  {
    hide Children, Pending, Delegated, BudgetOf, OwnOf, Assigned, Authorized;
  }

  // ---------- Creating accounts ----------

  /** Names and numbers that no account has yet, in the form that a creation demands. */
  ghost predicate Nameable(d: Db, input: NewAccount) {
    && ValidIdentity(input.username, input.uid, input.gid, input.home)
    && !HasUsername(d, input.username) && !UidTaken(d, input.uid)
  }

  /** Root creates everything; an administrator its own virtual users. */
  predicate MayCreate(d: Db, actor: Authority, input: NewAccount) {
    actor.Root?
    || (input.kind.Virtual? && input.role.User? && input.owner == Some(actor.id) && LiveAdmin(d, actor.id, actor.generation))
  }

  predicate ActiveAdmin(d: Db, id: Id) {
    id in d.accounts && d.accounts[id].role.Admin? && d.accounts[id].status.Active?
  }

  lemma {:induction false} CheckAccepted(d: Db, actor: Authority, input: NewAccount, request: Option<Request>)
    ensures CreateCheck(d, actor, input, request).Ok? <==>
      && Nameable(d, input) && MayCreate(d, actor, input) && RootRoom(d, input, request).Ok?
      && if input.kind.Virtual? && input.role.User? then ChildRoom(d, input, KeyOf(request)).Ok?
         else input.owner.None? && input.quota.None?
  {
    hide ValidIdentity, HasUsername, UidTaken, ChildRoom, RootRoom;
  }

  /** Without a request, a virtual user needs its quota in what its owner's budget has left. */
  lemma {:induction false} CreateAccepted(d: Db, ev: Event)
    requires Inv(d) && ev.EvCreate?
    ensures Step(d, ev).Ok? <==>
      && Nameable(d, ev.input) && MayCreate(d, ev.actor, ev.input)
      && if ev.input.kind.Virtual? && ev.input.role.User? then
           && ev.input.owner.Some? && ActiveAdmin(d, ev.input.owner.value)
           && ev.input.quota.Some? && 1 <= ev.input.quota.value <= Room(d, ev.input.owner.value)
         else ev.input.owner.None? && ev.input.quota.None?
  {
    hide Inv, ValidIdentity, HasUsername, UidTaken, Room, ChildRoom, CreateCheck, MayCreate;
    CheckAccepted(d, ev.actor, ev.input, None);
    RootIsNoAccount(d);
    RoomForChild(d, ev.input, None);
  }

  /** Room for a child: what the owner's budget has left, counting the child's own request as its own. */
  lemma {:induction false} RoomForChild(d: Db, input: NewAccount, exclude: Option<Key>)
    requires Inv(d)
    ensures ChildRoom(d, input, exclude).Ok? <==>
      && input.owner.Some? && input.owner.value != RootOwner && ActiveAdmin(d, input.owner.value) && input.quota.Some? && input.quota.value >= 1
      && input.quota.value <= Room(d, input.owner.value) + Pending(d, input.owner.value) - Pending(d, input.owner.value, exclude)
  {
    hide RowsOk, KeysOk, LedgerOk, PurgedOk, IntentsOk, ProofRowsOk, ProofCapsOk, Total, ChildRows, PendingRows;
    RootIsNoAccount(d);
    if input.owner.Some? && input.owner.value in d.accounts {
      var owner := input.owner.value;
      QuotaArithmeticFits(d, owner);
      BudgetInPool(d, owner) by {
        LedgerHolds(d);
      }
      PoolFits(d);
      if exclude.Some? {
        PendingSplit(d.intents, owner, exclude.value);
      }
    }
  }

  lemma {:induction false} PoolFits(d: Db)
    requires Inv(d)
    ensures d.pool <= I64_MAX && Delegated(d) + Pending(d, RootOwner) <= d.pool
  {
    hide RowsOk, KeysOk, PurgedOk, IntentsOk, ProofRowsOk, ProofCapsOk, Total, PendingRows;
  }

  /** The request that a finalising call names is open, and the call repeats what it reserved. */
  predicate Matching(d: Db, key: Key, input: NewAccount) {
    && key in d.intents && d.intents[key].account.None? && input.uid == d.intents[key].uid
    && (input.kind.Virtual? && input.role.User? ==>
          input.owner == Some(d.intents[key].owner) && input.quota == Some(d.intents[key].quota) && d.intents[key].quota >= 1)
    && (input.kind.Virtual? && input.role.Admin? ==> d.intents[key].owner == RootOwner && key.owner == RootOwner)
  }

  /** The bytes of an open request are reserved: finalising it never fails for lack of room, whatever happened since. */
  lemma {:induction false} FinalizeAccepted(d: Db, ev: Event)
    requires Inv(d) && ev.EvFinalize?
    ensures Step(d, ev).Ok? <==>
      && Matching(d, ev.key, ev.input) && MayCreate(d, ev.actor, ev.input)
      && ValidIdentity(ev.input.username, ev.input.uid, ev.input.gid, ev.input.home) && !HasUsername(d, ev.input.username)
      && if ev.input.kind.Virtual? && ev.input.role.User? then ActiveAdmin(d, ev.input.owner.value)
         else ev.input.owner.None? && ev.input.quota.None?
  {
    hide Inv, ValidIdentity, HasUsername, UidTaken, Room, ChildRoom, RootRoom, CreateCheck, MayCreate;
    RootIsNoAccount(d);
    if ev.key in d.intents && d.intents[ev.key].account.None? {
      CheckAccepted(d, ev.actor, ev.input, Some(Request(ev.key, d.intents[ev.key])));
      assert KeyOf(Some(Request(ev.key, d.intents[ev.key]))) == Some(ev.key);
      RoomForRequest(d, ev.input, ev.key);
    }
  }

  lemma {:induction false} RoomForRequest(d: Db, input: NewAccount, key: Key)
    requires Inv(d) && key in d.intents && d.intents[key].account.None?
    ensures input.uid == d.intents[key].uid ==> !UidTaken(d, input.uid)
    ensures RootRoom(d, input, Some(Request(key, d.intents[key]))).Ok? <==>
      (input.kind.Virtual? && input.role.Admin? ==> d.intents[key].owner == RootOwner && key.owner == RootOwner)
    ensures input.owner == Some(d.intents[key].owner) && input.quota == Some(d.intents[key].quota) ==>
      (ChildRoom(d, input, Some(key)).Ok? <==> d.intents[key].quota >= 1 && ActiveAdmin(d, d.intents[key].owner))
  {
    hide Inv, UidTaken, Room, ChildRoom, RootRoom;
    RootIsNoAccount(d);
    OpenRequest(d, key);
    RoomForAdmin(d, input, key);
    if input.owner == Some(d.intents[key].owner) {
      RoomForChild(d, input, Some(key));
    }
  }

  /** An open request has a UID that no account has, and its bytes are part of what is reserved. */
  lemma {:induction false} OpenRequest(d: Db, key: Key)
    requires Inv(d) && key in d.intents && d.intents[key].account.None?
    ensures !UidTaken(d, d.intents[key].uid)
    ensures var owner := d.intents[key].owner;
      && Pending(d, owner) == Pending(d, owner, Some(key)) + d.intents[key].quota
      && (owner == RootOwner || owner in d.accounts) && (owner in d.accounts ==> 0 <= Room(d, owner))
  {
    hide RowsOk, KeysOk, LedgerOk, PurgedOk, ProofRowsOk, ProofCapsOk, Total, ChildRows, PendingRows;
    assert IntentOk(d.accounts, d.intents[key]);
    PendingSplit(d.intents, d.intents[key].owner, key);
    RootIsNoAccount(d);
    if d.intents[key].owner in d.accounts {
      QuotaArithmeticFits(d, d.intents[key].owner);
    }
  }

  lemma {:induction false} RoomForAdmin(d: Db, input: NewAccount, key: Key)
    requires Inv(d) && key in d.intents && d.intents[key].account.None?
    ensures RootRoom(d, input, Some(Request(key, d.intents[key]))).Ok? <==>
      (input.kind.Virtual? && input.role.Admin? ==> d.intents[key].owner == RootOwner && key.owner == RootOwner)
  {
    hide Inv, Total, ChildRows, PendingRows, Room;
    OpenRequest(d, key);
    PoolFits(d);
  }
}
