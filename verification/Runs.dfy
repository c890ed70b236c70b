/** The account store as one state machine: every public transaction is an event. */
module Runs {
  import opened Types
  import opened Sums
  import opened Tables
  import opened Ops
  import opened Invariant
  import opened Preservation
  import opened Evolution

  /** Arguments of one call; ids, nonces and tokens that the call draws are named `fresh...`. */
  datatype Event =
    | EvSetPool(actor: Authority, bytes: nat)
    | EvSetAdminBudget(actor: Authority, id: Id, bytes: nat)
    | EvSetAdminOwn(actor: Authority, id: Id, bytes: nat)
    | EvSetChildQuota(actor: Authority, id: Id, generation: nat, bytes: nat)
    | EvCreate(actor: Authority, input: NewAccount, hash: Option<string>, freshId: Id)
    | EvReserveChild(owner: Id, generation: nat, key: Key, name: string, bytes: nat, uid: nat)
    | EvReserveAdmin(key: Key, name: string, bytes: nat, uid: nat)
    | EvFinalize(actor: Authority, input: NewAccount, hash: Option<string>, key: Key, freshId: Id)
    | EvCancelPending(key: Key)
    | EvBeginPurge(id: Id)
    | EvFinishPurge(id: Id)
    | EvSetPanelScope(actor: Authority, id: Id, global: bool)
    | EvSetRole(actor: Authority, id: Id, role: Role)
    | EvRestore(actor: Authority)
    | EvCopyCredentials(actor: Authority, source: Id, sourceGeneration: nat, id: Id, generation: nat)
    | EvRequirePasswordChange(actor: Authority, id: Id)
    | EvSetPassword(actor: Authority, id: Id, hash: Option<string>, matchesOld: bool)
    | EvTransition(actor: Authority, id: Id, status: Status, allowAdminDelete: bool, expected: Option<nat>, at: nat)
    | EvSetPolicy(actor: Authority, id: Id, generation: nat, layer: Layer, rules: seq<string>, wellFormed: bool)
    | EvSetUndoPreferences(actor: Authority, maximum: nat, hours: Option<nat>, revision: nat)
    | EvIssueGrant(id: Id, generation: nat, caller: Caller, at: nat, lifetime: nat, freshNonce: Id)
    | EvRevokeGrant(grant: SessionGrant, caller: Caller, at: nat)
    | EvBeginEnrollment(identity: Identity, caller: Caller, at: nat, lifetime: nat, freshToken: Id)
    | EvCompleteEnrollment(token: Id, caller: Caller, identity: Identity, hash: Option<string>, at: nat, freshId: Id)

  function DbOf(p: Result<Prepared>): Result<Db> {
    if p.Ok? then Ok(p.value.db) else Err(p.error)
  }

  /** Finalising creates the account of an open request, with the arguments that request fixed. */
  ghost function Finalize(d: Db, actor: Authority, input: NewAccount, hash: Option<string>, key: Key, id: Id): Result<Db> {
    if key !in d.intents || d.intents[key].account.Some? || input.uid != d.intents[key].uid
       || (IsChild(NewRow(input, hash))
           && (input.owner != Some(d.intents[key].owner) || input.quota != Some(d.intents[key].quota)))
    then Err(Forbidden)
    else CreateRecord(d, actor, input, hash, Some(Request(key, d.intents[key])), id)
  }

  ghost function Step(d: Db, ev: Event): Result<Db> {
    match ev
    case EvSetPool(actor, bytes) => SetPool(d, actor, bytes)
    case EvSetAdminBudget(actor, id, bytes) => DbOf(SetAdminBudget(d, actor, id, bytes))
    case EvSetAdminOwn(actor, id, bytes) => DbOf(SetAdminOwn(d, actor, id, bytes))
    case EvSetChildQuota(actor, id, generation, bytes) => DbOf(SetChildQuota(d, actor, id, generation, bytes))
    case EvCreate(actor, input, hash, id) => CreateRecord(d, actor, input, hash, None, id)
    case EvReserveChild(owner, generation, key, name, bytes, uid) =>
      if uid in Assigned(d) then Err(QuotaExceeded) else ReserveChild(d, owner, generation, key, name, bytes, uid)
    case EvReserveAdmin(key, name, bytes, uid) =>
      if uid in Assigned(d) then Err(QuotaExceeded) else ReserveAdmin(d, key, name, bytes, uid)
    case EvFinalize(actor, input, hash, key, id) => Finalize(d, actor, input, hash, key, id)
    case EvCancelPending(key) => CancelPending(d, key)
    case EvBeginPurge(id) => BeginPurge(d, id)
    case EvFinishPurge(id) => FinishPurge(d, id)
    case EvSetPanelScope(actor, id, global) => SetPanelScope(d, actor, id, global)
    case EvSetRole(actor, id, role) => SetRole(d, actor, id, role)
    case EvRestore(actor) => InvalidateRestored(d, actor)
    case EvCopyCredentials(actor, source, sourceGeneration, id, generation) =>
      CopyCredentials(d, actor, source, sourceGeneration, id, generation)
    case EvRequirePasswordChange(actor, id) => RequirePasswordChange(d, actor, id)
    case EvSetPassword(actor, id, hash, matchesOld) => SetPassword(d, actor, id, hash, matchesOld)
    case EvTransition(actor, id, status, allow, expected, at) => Transition(d, actor, id, status, allow, expected, at)
    case EvSetPolicy(actor, id, generation, layer, rules, wellFormed) =>
      SetPolicy(d, actor, id, generation, layer, rules, wellFormed)
    case EvSetUndoPreferences(actor, maximum, hours, revision) => SetUndoPreferences(d, actor, maximum, hours, revision)
    case EvIssueGrant(id, generation, caller, at, lifetime, nonce) =>
      IssueGrant(d, id, generation, caller, at, lifetime, nonce)
    case EvRevokeGrant(grant, caller, at) => RevokeGrant(d, grant, caller, at)
    case EvBeginEnrollment(identity, caller, at, lifetime, token) =>
      BeginEnrollment(d, identity, caller, at, lifetime, token)
    case EvCompleteEnrollment(token, caller, identity, hash, at, id) =>
      CompleteEnrollment(d, token, caller, identity, hash, at, id)
  }

  ghost function After(d: Db, ev: Event): Db {
    if Step(d, ev).Ok? then Step(d, ev).value else d
  }

  ghost predicate Unused(d: Db, id: Id) {
    id !in d.used && id != RootOwner
  }

  /**
    What the environment guarantees: drawn UUIDs are new, and a Linux identity never has a UID
    of the virtual range, so never one that the allocator has handed out or retired.
   */
  ghost predicate Admissible(d: Db, ev: Event) {
    match ev
    case EvCreate(_, input, _, id) => Unused(d, id) && (UidTaken(d, input.uid) || input.uid !in Assigned(d))
    case EvFinalize(_, _, _, _, id) => Unused(d, id)
    case EvIssueGrant(_, _, _, _, _, nonce) => Unused(d, nonce)
    case EvBeginEnrollment(_, _, _, _, token) => Unused(d, token)
    case EvCompleteEnrollment(_, _, identity, _, _, id) =>
      Unused(d, id) && (UidTaken(d, identity.uid) || identity.uid !in Assigned(d))
    case _ => true
  }

  ghost function Final(d: Db, run: seq<Event>): Db
    decreases |run|
  {
    if run == [] then d else Final(After(d, run[0]), run[1..])
  }

  ghost predicate AdmissibleRun(d: Db, run: seq<Event>)
    decreases |run|
  {
    run != [] ==> Admissible(d, run[0]) && AdmissibleRun(After(d, run[0]), run[1..])
  }

  // ---------- Quiet events ----------

  ghost predicate QuietLater(d: Db, e: Db) {
    Quiet(d, e) && FewerProofs(d, e) && Later(d, e)
  }

  predicate PutAt<V(==)>(m: map<Id, V>, n: map<Id, V>, id: Id) {
    n == m || (id in n && n == m[id := n[id]])
  }

  /** One row is rewritten with a new generation; side tables move at most at the same id. */
  ghost predicate Rewrites(d: Db, e: Db, id: Id) {
    && id in d.accounts && id in e.accounts && e.accounts == d.accounts[id := e.accounts[id]]
    && SameLedgerRow(d.accounts[id], e.accounts[id]) && RowLater(d.accounts[id], e.accounts[id])
    && e.accounts[id].generation > d.accounts[id].generation
    && e == d.(accounts := e.accounts, scopes := e.scopes, mustChange := e.mustChange,
               policies := e.policies, enrollment := e.enrollment)
    && PutAt(d.scopes, e.scopes, id) && PutAt(d.policies, e.policies, id)
    && (e.mustChange == d.mustChange || e.mustChange == d.mustChange + {id} || e.mustChange == d.mustChange - {id})
    && (e.enrollment == d.enrollment || e.enrollment == WithoutUser(d.enrollment, d.accounts[id].username)
        || exists t :: t in d.enrollment && e.enrollment == Consume(d.enrollment, t))
  }

  function Consume(enrollment: map<Id, Enrollment>, t: Id): map<Id, Enrollment>
    requires t in enrollment
  {
    enrollment[t := enrollment[t].(consumed := true)]
  }

  lemma {:induction false} RewriteTouches(d: Db, e: Db, id: Id)
    requires Rewrites(d, e, id)
    ensures Touches(d, e, id) && Quiet(d, e)
  {
    hide WithoutUser, Consume;
  }

  lemma {:induction false} RewriteProofs(d: Db, e: Db, id: Id)
    requires Rewrites(d, e, id)
    ensures FewerProofs(d, e) && EnrollmentLater(d.used, d.enrollment, e.enrollment)
  {
    hide RowLater, SameLedgerRow, PutAt;
  }

  lemma {:induction false} RewriteQuiet(d: Db, e: Db, id: Id)
    requires Rewrites(d, e, id)
    ensures QuietLater(d, e)
  {
    hide Assigned, Touches, Quiet, FewerProofs, EnrollmentLater;
    RewriteTouches(d, e, id);
    RewriteProofs(d, e, id);
    TouchLater(d, e, id);
  }

  lemma {:induction false} ScopeQuiet(d: Db, actor: Authority, id: Id, global: bool)
    requires SetPanelScope(d, actor, id, global).Ok?
    ensures QuietLater(d, SetPanelScope(d, actor, id, global).value)
  {
    hide QuietLater, WithoutUser;
    RewriteQuiet(d, SetPanelScope(d, actor, id, global).value, id);
  }

  lemma {:induction false} RoleQuiet(d: Db, actor: Authority, id: Id, role: Role)
    requires SetRole(d, actor, id, role).Ok?
    ensures QuietLater(d, SetRole(d, actor, id, role).value)
  {
    hide QuietLater, WithoutUser;
    RewriteQuiet(d, SetRole(d, actor, id, role).value, id);
  }

  lemma {:induction false} RestoreQuiet(d: Db, actor: Authority)
    requires InvalidateRestored(d, actor).Ok?
    ensures QuietLater(d, InvalidateRestored(d, actor).value)
  {
    hide Assigned;
    SameUids(d, InvalidateRestored(d, actor).value);
  }

  lemma {:induction false} CopyQuiet(d: Db, actor: Authority, source: Id, sg: nat, target: Id, tg: nat)
    requires CopyCredentials(d, actor, source, sg, target, tg).Ok?
    ensures QuietLater(d, CopyCredentials(d, actor, source, sg, target, tg).value)
  {
    hide QuietLater, WithoutUser;
    RewriteQuiet(d, CopyCredentials(d, actor, source, sg, target, tg).value, target);
  }

  lemma {:induction false} RequireQuiet(d: Db, actor: Authority, id: Id)
    requires RequirePasswordChange(d, actor, id).Ok?
    ensures QuietLater(d, RequirePasswordChange(d, actor, id).value)
  {
    hide QuietLater, WithoutUser;
    RewriteQuiet(d, RequirePasswordChange(d, actor, id).value, id);
  }

  lemma {:induction false} PasswordQuiet(d: Db, actor: Authority, id: Id, hash: Option<string>, matchesOld: bool)
    requires SetPassword(d, actor, id, hash, matchesOld).Ok?
    ensures QuietLater(d, SetPassword(d, actor, id, hash, matchesOld).value)
  {
    hide QuietLater, WithoutUser;
    RewriteQuiet(d, SetPassword(d, actor, id, hash, matchesOld).value, id);
  }

  lemma {:induction false} TransitionQuiet(d: Db, actor: Authority, id: Id, status: Status, allow: bool,
                                           expected: Option<nat>, at: nat)
    requires Transition(d, actor, id, status, allow, expected, at).Ok?
    ensures QuietLater(d, Transition(d, actor, id, status, allow, expected, at).value)
  {
    hide QuietLater, WithoutUser;
    RewriteQuiet(d, Transition(d, actor, id, status, allow, expected, at).value, id);
  }

  lemma {:induction false} PolicyQuiet(d: Db, actor: Authority, id: Id, generation: nat, layer: Layer,
                                       rules: seq<string>, wellFormed: bool)
    requires SetPolicy(d, actor, id, generation, layer, rules, wellFormed).Ok?
    ensures QuietLater(d, SetPolicy(d, actor, id, generation, layer, rules, wellFormed).value)
  {
    hide QuietLater, WithoutUser;
    RewriteQuiet(d, SetPolicy(d, actor, id, generation, layer, rules, wellFormed).value, id);
  }

  lemma {:induction false} PreferencesQuiet(d: Db, actor: Authority, maximum: nat, hours: Option<nat>, revision: nat)
    requires SetUndoPreferences(d, actor, maximum, hours, revision).Ok?
    ensures QuietLater(d, SetUndoPreferences(d, actor, maximum, hours, revision).value)
  {
    hide Assigned, Quiet, AccountsLater;
    var e := SetUndoPreferences(d, actor, maximum, hours, revision).value;
    PreferencesRows(d, e, actor.id);
    PreferencesAuthority(d, e, actor.id);
    SameUids(d, e);
  }

  ghost predicate OnlyPreferences(d: Db, e: Db, id: Id) {
    && id in d.accounts && id in e.accounts
    && e.accounts[id] == d.accounts[id].(undoHours := e.accounts[id].undoHours)
    && e == PutRow(d, id, e.accounts[id]).(revisions := e.revisions)
  }

  lemma {:induction false} PreferencesRows(d: Db, e: Db, id: Id)
    requires OnlyPreferences(d, e, id)
    ensures Quiet(d, e)
  {
  }

  lemma {:induction false} PreferencesAuthority(d: Db, e: Db, id: Id)
    requires OnlyPreferences(d, e, id)
    ensures AccountsLater(d, e)
  {
    forall i | i in d.accounts ensures AccountLater(d, e, i) {
      assert RowLater(d.accounts[i], e.accounts[i]);
    }
  }

  lemma {:induction false} RevokeQuiet(d: Db, grant: SessionGrant, caller: Caller, at: nat)
    requires RevokeGrant(d, grant, caller, at).Ok?
    ensures QuietLater(d, RevokeGrant(d, grant, caller, at).value)
  {
    hide Assigned;
    StillLater(d, RevokeGrant(d, grant, caller, at).value);
  }

  lemma {:induction false} EnrollQuiet(d: Db, token: Id, caller: Caller, identity: Identity, hash: Option<string>,
                                       at: nat, id: Id)
    requires CompleteEnrollment(d, token, caller, identity, hash, at, id).Ok?
    requires FindUsername(d, identity.username).Some?
    ensures QuietLater(d, CompleteEnrollment(d, token, caller, identity, hash, at, id).value)
  {
    hide QuietLater, WithoutUser;
    var e := CompleteEnrollment(d, token, caller, identity, hash, at, id).value;
    assert e.enrollment == Consume(d.enrollment, token);
    RewriteQuiet(d, e, FindUsername(d, identity.username).value);
  }

  // ---------- Events that move quotas, requests, accounts or proofs ----------

  lemma {:induction false} ProofsStay(d: Db)
    ensures GrantsLater(d.used, d.grants, d.grants) && EnrollmentLater(d.used, d.enrollment, d.enrollment)
  {
  }

  lemma {:induction false} PoolLater(d: Db, actor: Authority, bytes: nat)
    requires SetPool(d, actor, bytes).Ok?
    ensures Later(d, SetPool(d, actor, bytes).value)
  {
    hide Pending, Delegated, Later;
    ProofsStay(d);
    StillLater(d, SetPool(d, actor, bytes).value);
  }

  lemma {:induction false} BudgetLater(d: Db, actor: Authority, id: Id, bytes: nat)
    requires SetAdminBudget(d, actor, id, bytes).Ok?
    ensures Later(d, SetAdminBudget(d, actor, id, bytes).value.db)
  {
    hide Pending, Children, Delegated, Later;
    ProofsStay(d);
    StillLater(d, SetAdminBudget(d, actor, id, bytes).value.db);
  }

  lemma {:induction false} OwnLater(d: Db, actor: Authority, id: Id, bytes: nat)
    requires SetAdminOwn(d, actor, id, bytes).Ok?
    ensures Later(d, SetAdminOwn(d, actor, id, bytes).value.db)
  {
    hide Pending, Children, Later;
    ProofsStay(d);
    TouchLater(d, SetAdminOwn(d, actor, id, bytes).value.db, id);
  }

  lemma {:induction false} ChildQuotaLater(d: Db, actor: Authority, id: Id, generation: nat, bytes: nat)
    requires SetChildQuota(d, actor, id, generation, bytes).Ok?
    ensures Later(d, SetChildQuota(d, actor, id, generation, bytes).value.db)
  {
    hide Pending, Children, Later;
    ProofsStay(d);
    TouchLater(d, SetChildQuota(d, actor, id, generation, bytes).value.db, id);
  }

  lemma {:induction false} ReserveLater(d: Db, key: Key, n: Intent)
    requires key !in d.intents
    ensures Later(d, d.(intents := d.intents[key := n]))
  {
    hide Later;
    ProofsStay(d);
    StillLater(d, d.(intents := d.intents[key := n]));
  }

  lemma {:induction false} CancelLater(d: Db, key: Key)
    requires CancelPending(d, key).Ok?
    ensures Later(d, CancelPending(d, key).value)
  {
    hide Later;
    ProofsStay(d);
    StillLater(d, CancelPending(d, key).value);
  }

  lemma {:induction false} BeginPurgeLater(d: Db, id: Id)
    requires BeginPurge(d, id).Ok?
    ensures Later(d, BeginPurge(d, id).value)
  {
    hide Later;
    ProofsStay(d);
    StillLater(d, BeginPurge(d, id).value);
  }

  lemma {:induction false} FinishPurgeLater(d: Db, id: Id)
    requires FinishPurge(d, id).Ok?
    ensures Later(d, FinishPurge(d, id).value)
  {
    hide Later;
    TouchLater(d, FinishPurge(d, id).value, id);
  }

  lemma {:induction false} CreateLater(d: Db, actor: Authority, input: NewAccount, hash: Option<string>,
                                       request: Option<Request>, id: Id)
    requires Inv(d) && Creatable(d, input, request, id)
    requires CreateRecord(d, actor, input, hash, request, id).Ok?
    ensures Later(d, CreateRecord(d, actor, input, hash, request, id).value)
  {
    hide Later, ChildRoom, RootRoom, Assigned, KeysOk, PurgedOk, IntentsOk, LedgerOk, ProofRowsOk, ProofCapsOk;
    ProofsStay(d);
    GrowLater(d, CreateRecord(d, actor, input, hash, request, id).value, id);
  }

  lemma {:induction false} IssueProofs(d: Db, id: Id, generation: nat, caller: Caller, at: nat, lifetime: nat, nonce: Id)
    requires ProofRowsOk(d.accounts, d.grants, d.enrollment, d.used) && Unused(d, nonce)
    requires IssueGrant(d, id, generation, caller, at, lifetime, nonce).Ok?
    ensures var e := IssueGrant(d, id, generation, caller, at, lifetime, nonce).value;
      ProofRowsOk(e.accounts, e.grants, e.enrollment, e.used) && GrantsLater(d.used, d.grants, e.grants)
  {
  }

  /** What issuing checks, and the table it leaves. */
  lemma {:induction false} IssuedTable(d: Db, id: Id, generation: nat, caller: Caller, at: nat, lifetime: nat, nonce: Id)
    requires IssueGrant(d, id, generation, caller, at, lifetime, nonce).Ok?
    ensures var e, kept := IssueGrant(d, id, generation, caller, at, lifetime, nonce).value, LiveGrants(d, at);
      && nonce in e.grants && e.grants == kept[nonce := e.grants[nonce]] && e.grants[nonce].account == id
      && |kept| < MAX_GRANTS && |GrantsOf(kept, id)| < MAX_ACCOUNT_GRANTS && e.enrollment == d.enrollment
  {
    hide LiveGrants, GrantsOf;
  }

  lemma {:induction false} IssueCaps(d: Db, id: Id, generation: nat, caller: Caller, at: nat, lifetime: nat, nonce: Id)
    requires ProofCapsOk(d.grants, d.enrollment)
    requires IssueGrant(d, id, generation, caller, at, lifetime, nonce).Ok?
    ensures var e := IssueGrant(d, id, generation, caller, at, lifetime, nonce).value;
      ProofCapsOk(e.grants, e.enrollment)
  {
    hide GrantStale, IssueGrant, GrantsOf;
    var kept := LiveGrants(d, at);
    var e := IssueGrant(d, id, generation, caller, at, lifetime, nonce).value;
    IssuedTable(d, id, generation, caller, at, lifetime, nonce);
    assert e.grants.Keys == kept.Keys + {nonce};
    forall i: Id ensures |GrantsOf(e.grants, i)| <= MAX_ACCOUNT_GRANTS {
      OneMoreGrant(d.grants, kept, e.grants, nonce, id, i);
    }
  }

  lemma {:induction false} OneMoreGrant(before: map<Id, Grant>, kept: map<Id, Grant>, after: map<Id, Grant>, nonce: Id, id: Id, i: Id)
    requires forall n :: n in kept ==> n in before && kept[n] == before[n]
    requires nonce in after && after == kept[nonce := after[nonce]] && after[nonce].account == id
    requires |GrantsOf(kept, id)| < MAX_ACCOUNT_GRANTS && |GrantsOf(before, i)| <= MAX_ACCOUNT_GRANTS
    ensures |GrantsOf(after, i)| <= MAX_ACCOUNT_GRANTS
  {
    if i == id {
      SubsetSize(GrantsOf(after, i), GrantsOf(kept, i) + {nonce});
    } else {
      SubsetSize(GrantsOf(after, i), GrantsOf(before, i));
    }
  }

  lemma {:induction false} IssueKeeps(d: Db, id: Id, generation: nat, caller: Caller, at: nat, lifetime: nat, nonce: Id)
    requires Inv(d) && Unused(d, nonce)
    requires IssueGrant(d, id, generation, caller, at, lifetime, nonce).Ok?
    ensures var e := IssueGrant(d, id, generation, caller, at, lifetime, nonce).value; Inv(e) && Later(d, e)
  {
    hide Later, RowsOk, KeysOk, PurgedOk, IntentsOk, LedgerOk, ProofRowsOk, ProofCapsOk, LiveGrants, GrantsOf;
    var e := IssueGrant(d, id, generation, caller, at, lifetime, nonce).value;
    IssueProofs(d, id, generation, caller, at, lifetime, nonce);
    IssueCaps(d, id, generation, caller, at, lifetime, nonce);
    MoreUsed(d, e);
    LedgerSame(d, e);
    ProofsStay(d);
    StillLater(d, e);
  }

  lemma {:induction false} MoreUsed(d: Db, e: Db)
    requires RowsOk(d.accounts, d.used) && e.accounts == d.accounts && d.used <= e.used
    ensures RowsOk(e.accounts, e.used)
  {
  }

  lemma {:induction false} BeginCaps(d: Db, identity: Identity, caller: Caller, at: nat, lifetime: nat, token: Id)
    requires ProofCapsOk(d.grants, d.enrollment)
    requires BeginEnrollment(d, identity, caller, at, lifetime, token).Ok?
    ensures var e := BeginEnrollment(d, identity, caller, at, lifetime, token).value; ProofCapsOk(e.grants, e.enrollment)
  {
    hide FindUsername, ValidIdentity, MayEnroll, EnrollmentsKept;
    var e := BeginEnrollment(d, identity, caller, at, lifetime, token).value;
    assert e.enrollment.Keys == EnrollmentsKept(d.enrollment, identity, caller, at).Keys + {token};
  }

  lemma {:induction false} BeginProofs(d: Db, identity: Identity, caller: Caller, at: nat, lifetime: nat, token: Id)
    requires ProofRowsOk(d.accounts, d.grants, d.enrollment, d.used) && Unused(d, token)
    requires BeginEnrollment(d, identity, caller, at, lifetime, token).Ok?
    ensures var e := BeginEnrollment(d, identity, caller, at, lifetime, token).value;
      ProofRowsOk(e.accounts, e.grants, e.enrollment, e.used) && EnrollmentLater(d.used, d.enrollment, e.enrollment)
  {
    hide FindUsername, ValidIdentity, MayEnroll;
  }

  lemma {:induction false} BeginKeeps(d: Db, identity: Identity, caller: Caller, at: nat, lifetime: nat, token: Id)
    requires Inv(d) && Unused(d, token) && BeginEnrollment(d, identity, caller, at, lifetime, token).Ok?
    ensures var e := BeginEnrollment(d, identity, caller, at, lifetime, token).value; Inv(e) && Later(d, e)
  {
    hide Later, RowsOk, KeysOk, PurgedOk, IntentsOk, LedgerOk, ProofRowsOk, ProofCapsOk, EnrollmentsKept, FindUsername;
    var e := BeginEnrollment(d, identity, caller, at, lifetime, token).value;
    BeginProofs(d, identity, caller, at, lifetime, token);
    BeginCaps(d, identity, caller, at, lifetime, token);
    MoreUsed(d, e);
    LedgerSame(d, e);
    ProofsStay(d);
    StillLater(d, e);
  }

  /** Completing a proof for an unknown username creates a Linux account and then enrolls it. */
  lemma {:induction false} EnrollNewKeeps(d: Db, token: Id, caller: Caller, identity: Identity, hash: Option<string>,
                                          at: nat, id: Id)
    requires Inv(d) && Unused(d, id) && (UidTaken(d, identity.uid) || identity.uid !in Assigned(d))
    requires CompleteEnrollment(d, token, caller, identity, hash, at, id).Ok?
    requires FindUsername(d, identity.username).None?
    ensures var e := CompleteEnrollment(d, token, caller, identity, hash, at, id).value; Inv(e) && Later(d, e)
  {
    hide Inv, Later, Assigned, QuietLater, FindUsername, UidTaken;
    var e := CompleteEnrollment(d, token, caller, identity, hash, at, id).value;
    var mid := PutRow(d, id, FreshLinuxRow(identity)).(used := d.used + {id});
    EnrollNewRow(d, identity, id);
    assert e.enrollment == Consume(mid.enrollment, token);
    RewriteQuiet(mid, e, id);
    EnrollNewFinish(d, mid, e);
  }

  lemma {:induction false} EnrollNewRow(d: Db, identity: Identity, id: Id)
    requires Inv(d) && Unused(d, id) && !UidTaken(d, identity.uid) && identity.uid !in Assigned(d)
    requires !HasUsername(d, identity.username)
    ensures var mid := PutRow(d, id, FreshLinuxRow(identity)).(used := d.used + {id}); Inv(mid) && Later(d, mid)
  {
    hide Inv, Later, Assigned, HasUsername, UidTaken;
    var input := NewAccount(identity.username, identity.uid, identity.gid, identity.home, Linux, User, None, None);
    FreshAccountId(d, id);
    CreatedKeeps(d, input, None, None, id, None);
    var mid := PutRow(d, id, FreshLinuxRow(identity)).(used := d.used + {id});
    assert mid == Created(d, input, None, None, id, None).(used := d.used + {id});
    ProofsStay(d);
    GrowLater(d, mid, id);
  }

  lemma {:induction false} EnrollNewFinish(d: Db, mid: Db, e: Db)
    requires Later(d, mid) && Inv(mid) && QuietLater(mid, e)
    ensures Inv(e) && Later(d, e)
  {
    hide Inv, Later, Quiet, FewerProofs;
    QuietInv(mid, e);
    LaterTransitive(d, mid, e);
  }

  lemma {:induction false} FreshAccountId(d: Db, id: Id)
    requires Inv(d) && Unused(d, id)
    ensures id !in d.accounts
  {
  }

  // ---------- Every event ----------

  lemma {:induction false} QuietDone(d: Db, e: Db)
    requires Inv(d) && QuietLater(d, e)
    ensures Inv(e) && Later(d, e)
  {
    hide Inv, Later, Quiet, FewerProofs;
    QuietInv(d, e);
  }

  lemma {:induction false} LedgerStep(d: Db, ev: Event)
    requires Inv(d) && Admissible(d, ev) && Step(d, ev).Ok?
    requires ev.EvSetPool? || ev.EvSetAdminBudget? || ev.EvSetAdminOwn? || ev.EvSetChildQuota?
      || ev.EvReserveChild? || ev.EvReserveAdmin? || ev.EvCancelPending? || ev.EvBeginPurge? || ev.EvFinishPurge?
    ensures Inv(Step(d, ev).value) && Later(d, Step(d, ev).value)
  {
    hide Inv, Later, SetPool, SetAdminBudget, SetAdminOwn, SetChildQuota, CancelPending, BeginPurge, FinishPurge, Assigned;
    match ev
    case EvSetPool(actor, bytes) =>
      SetPoolKeeps(d, actor, bytes);
      PoolLater(d, actor, bytes);
    case EvSetAdminBudget(actor, id, bytes) =>
      SetAdminBudgetKeeps(d, actor, id, bytes);
      BudgetLater(d, actor, id, bytes);
    case EvSetAdminOwn(actor, id, bytes) =>
      SetAdminOwnKeeps(d, actor, id, bytes);
      OwnLater(d, actor, id, bytes);
    case EvSetChildQuota(actor, id, generation, bytes) =>
      SetChildQuotaKeeps(d, actor, id, generation, bytes);
      ChildQuotaLater(d, actor, id, generation, bytes);
    case EvReserveChild(owner, generation, key, name, bytes, uid) =>
      ReserveChildKeeps(d, owner, generation, key, name, bytes, uid);
      ReserveLater(d, key, Intent(owner, name, bytes, uid, None));
    case EvReserveAdmin(key, name, bytes, uid) =>
      ReserveAdminKeeps(d, key, name, bytes, uid);
      ReserveLater(d, key, Intent(RootOwner, name, bytes, uid, None));
    case EvCancelPending(key) =>
      CancelPendingKeeps(d, key);
      CancelLater(d, key);
    case EvBeginPurge(id) =>
      BeginPurgeKeeps(d, id);
      BeginPurgeLater(d, id);
    case EvFinishPurge(id) =>
      FinishPurgeKeeps(d, id);
      FinishPurgeLater(d, id);
  }

  lemma {:induction false} QuietStep(d: Db, ev: Event)
    requires Step(d, ev).Ok?
    requires ev.EvSetPanelScope? || ev.EvSetRole? || ev.EvRestore? || ev.EvCopyCredentials?
      || ev.EvRequirePasswordChange? || ev.EvSetPassword? || ev.EvTransition? || ev.EvSetPolicy?
      || ev.EvSetUndoPreferences? || ev.EvRevokeGrant?
    ensures QuietLater(d, Step(d, ev).value)
  {
    hide QuietLater, SetPanelScope, SetRole, InvalidateRestored, CopyCredentials, RequirePasswordChange, SetPassword,
      Transition, SetPolicy, SetUndoPreferences, RevokeGrant;
    match ev
    case EvSetPanelScope(actor, id, global) => ScopeQuiet(d, actor, id, global);
    case EvSetRole(actor, id, role) => RoleQuiet(d, actor, id, role);
    case EvRestore(actor) => RestoreQuiet(d, actor);
    case EvCopyCredentials(actor, source, sg, id, generation) => CopyQuiet(d, actor, source, sg, id, generation);
    case EvRequirePasswordChange(actor, id) => RequireQuiet(d, actor, id);
    case EvSetPassword(actor, id, hash, matchesOld) => PasswordQuiet(d, actor, id, hash, matchesOld);
    case EvTransition(actor, id, status, allow, expected, at) => TransitionQuiet(d, actor, id, status, allow, expected, at);
    case EvSetPolicy(actor, id, generation, layer, rules, ok) => PolicyQuiet(d, actor, id, generation, layer, rules, ok);
    case EvSetUndoPreferences(actor, maximum, hours, revision) => PreferencesQuiet(d, actor, maximum, hours, revision);
    case EvRevokeGrant(grant, caller, at) => RevokeQuiet(d, grant, caller, at);
  }

  lemma {:induction false} FinalizeStep(d: Db, actor: Authority, input: NewAccount, hash: Option<string>, key: Key, id: Id)
    requires Inv(d) && Unused(d, id) && Finalize(d, actor, input, hash, key, id).Ok?
    ensures Inv(Finalize(d, actor, input, hash, key, id).value)
    ensures Later(d, Finalize(d, actor, input, hash, key, id).value)
  {
    hide Inv, Later, CreateRecord, Assigned;
    var request := Some(Request(key, d.intents[key]));
    CreateRecordKeeps(d, actor, input, hash, request, id);
    CreateLater(d, actor, input, hash, request, id);
  }

  lemma {:induction false} CreateStep(d: Db, actor: Authority, input: NewAccount, hash: Option<string>, id: Id)
    requires Inv(d) && Unused(d, id) && (UidTaken(d, input.uid) || input.uid !in Assigned(d))
    requires CreateRecord(d, actor, input, hash, None, id).Ok?
    ensures Inv(CreateRecord(d, actor, input, hash, None, id).value)
    ensures Later(d, CreateRecord(d, actor, input, hash, None, id).value)
  {
    hide Inv, Later, ChildRoom, RootRoom, Assigned;
    CreateRecordKeeps(d, actor, input, hash, None, id);
    CreateLater(d, actor, input, hash, None, id);
  }

  /** The step lemma: every admissible event keeps the invariant and only moves time forward. */
  lemma {:induction false} StepKeeps(d: Db, ev: Event)
    requires Inv(d) && Admissible(d, ev)
    ensures Inv(After(d, ev)) && Later(d, After(d, ev))
  {
    hide Inv, Later, CreateRecord, Finalize, IssueGrant, BeginEnrollment, CompleteEnrollment, FindUsername, UidTaken, Assigned,
      SetPool, SetAdminBudget, SetAdminOwn, SetChildQuota, CancelPending, BeginPurge, FinishPurge, ReserveChild, ReserveAdmin,
      SetPanelScope, SetRole, InvalidateRestored, CopyCredentials, RequirePasswordChange, SetPassword,
      Transition, SetPolicy, SetUndoPreferences, RevokeGrant, QuietLater;
    if Step(d, ev).Err? {
      LaterReflexive(d);
      return;
    }
    match ev
    case EvCreate(actor, input, hash, id) => CreateStep(d, actor, input, hash, id);
    case EvFinalize(actor, input, hash, key, id) => FinalizeStep(d, actor, input, hash, key, id);
    case EvIssueGrant(id, generation, caller, at, lifetime, nonce) =>
      IssueKeeps(d, id, generation, caller, at, lifetime, nonce);
    case EvBeginEnrollment(identity, caller, at, lifetime, token) =>
      BeginKeeps(d, identity, caller, at, lifetime, token);
    case EvCompleteEnrollment(token, caller, identity, hash, at, id) =>
      if FindUsername(d, identity.username).Some? {
        EnrollQuiet(d, token, caller, identity, hash, at, id);
        QuietDone(d, After(d, ev));
      } else {
        EnrollNewKeeps(d, token, caller, identity, hash, at, id);
      }
    case _ =>
      if ev.EvSetPool? || ev.EvSetAdminBudget? || ev.EvSetAdminOwn? || ev.EvSetChildQuota?
         || ev.EvReserveChild? || ev.EvReserveAdmin? || ev.EvCancelPending? || ev.EvBeginPurge? || ev.EvFinishPurge? {
        LedgerStep(d, ev);
      } else {
        QuietStep(d, ev);
        QuietDone(d, After(d, ev));
      }
  }

  /** Two-level conservation and every other part of the invariant hold at the end of every run. */
  lemma {:induction false} RunKeeps(d: Db, run: seq<Event>)
    requires Inv(d) && AdmissibleRun(d, run)
    ensures Inv(Final(d, run)) && Later(d, Final(d, run))
    decreases |run|
  {
    hide Inv, Later, After, Admissible;
    if run == [] {
      LaterReflexive(d);
    } else {
      var e := After(d, run[0]);
      StepKeeps(d, run[0]);
      RunKeeps(e, run[1..]);
      LaterTransitive(d, e, Final(e, run[1..]));
    }
  }
}
