/**
  What accepted transactions leave in the columns of each account. The store is projected onto one
  account at a time: whatever else a run does, the account holds what the accepted requests for it asked.
 */
module Columns {
  import opened Types
  import opened Tables
  import opened Ops
  import opened Invariant
  import opened Evolution
  import opened Runs
  import opened Theorems

  /** One account with everything that the side tables say about it. */
  datatype View = View(
    row: Row, flag: bool, scope: Option<bool>, rules: Rules, revision: nat, budget: Option<nat>, own: Option<nat>)

  function Look<V>(m: map<Id, V>, id: Id): Option<V> {
    if id in m then Some(m[id]) else None
  }

  function ViewOf(d: Db, id: Id): View
    requires id in d.accounts
  {
    View(d.accounts[id], id in d.mustChange, Look(d.scopes, id), RulesOf(d, id),
         if id in d.revisions then d.revisions[id] else 0, Look(d.budgets, id), Look(d.own, id))
  }

  /** One policy layer replaced. */
  function Layered(r: Rules, layer: Layer, rules: seq<string>): Rules {
    Rules(if layer.RootLayer? then rules else r.root,
          if layer.AdminLayer? then rules else r.admin,
          if layer.PersonalLayer? then rules else r.personal)
  }

  /** The requests for one account that give its row a new generation. */
  predicate Targets(ev: Event) {
    || ev.EvSetAdminOwn? || ev.EvSetChildQuota? || ev.EvFinishPurge? || ev.EvSetPanelScope? || ev.EvSetRole?
    || ev.EvCopyCredentials? || ev.EvRequirePasswordChange? || ev.EvSetPassword? || ev.EvTransition? || ev.EvSetPolicy?
  }

  function Rewritten(d: Db, ev: Event, v: View): View
    requires Targets(ev)
  {
    var r := v.row.(generation := v.row.generation + 1);
    match ev
    case EvSetAdminOwn(_, _, bytes) => v.(row := r, own := Some(bytes))
    case EvSetChildQuota(_, _, _, bytes) => v.(row := r.(quota := Some(bytes)))
    case EvFinishPurge(_) => v.(row := r.(quota := Some(0), hash := None))
    case EvSetPanelScope(_, _, global) => v.(row := r, scope := Some(global))
    case EvSetRole(_, _, role) => v.(row := r.(role := role), scope := Some(role.Admin?))
    case EvCopyCredentials(_, source, _, _, _) =>
      if source !in d.accounts then v else
      v.(row := r.(hash := d.accounts[source].hash), flag := source in d.mustChange)
    case EvRequirePasswordChange(_, _) => v.(row := r, flag := true)
    case EvSetPassword(_, _, hash, _) => v.(row := r.(hash := hash), flag := false)
    case EvTransition(actor, id, status, _, _, at) =>
      var ownRevoke := actor.Account? && actor.id == id && r.kind.Linux? && status.Revoked?;
      v.(row := r.(status := status, login := status.Active?, denyEnrollment := !status.Active? && !ownRevoke,
                   deletedAt := if status.Deleted? then Some(at) else None))
    case EvSetPolicy(_, _, _, layer, rules, _) =>
      v.(row := r, rules := Layered(v.rules, layer, rules))
  }

  /** What an accepted call makes of one account, which may not be the one it is about. */
  function Asked(d: Db, ev: Event, id: Id, v: View): View {
    match ev
    case EvSetAdminBudget(_, i, bytes) => if i == id then v.(budget := Some(bytes)) else v
    case EvSetUndoPreferences(actor, _, hours, _) =>
      if actor.Account? && actor.id == id then v.(row := v.row.(undoHours := hours), revision := v.revision + 1) else v
    case EvRestore(_) => v.(row := v.row.(generation := v.row.generation + 1))
    case EvCompleteEnrollment(_, _, identity, hash, _, _) =>
      if identity.username != v.row.username then v else
      v.(row := v.row.(generation := v.row.generation + 1, hash := hash, status := Active, login := true,
                       denyEnrollment := false))
    case _ => if Targets(ev) && ev.id == id then Rewritten(d, ev, v) else v
  }

  // ---------- One event ----------

  /** The events that may add an account. */
  predicate Creates(ev: Event) {
    ev.EvCreate? || ev.EvFinalize? || ev.EvCompleteEnrollment?
  }

  predicate Shows(d: Db, ev: Event, e: Db, id: Id) {
    if id in d.accounts then id in e.accounts && ViewOf(e, id) == Asked(d, ev, id, ViewOf(d, id))
    else Creates(ev) || id !in e.accounts
  }

  /** The target's columns are written in one place, and no other account's are. */
  ghost predicate Wrote(d: Db, e: Db, id: Id, v: View) {
    && id in d.accounts && e.accounts.Keys == d.accounts.Keys && ViewOf(e, id) == v
    && forall i :: i in d.accounts && i != id ==> ViewOf(e, i) == ViewOf(d, i)
  }

  lemma {:induction false} BudgetWrites(d: Db, actor: Authority, id: Id, bytes: nat)
    requires SetAdminBudget(d, actor, id, bytes).Ok?
    ensures id in d.accounts
    ensures Wrote(d, SetAdminBudget(d, actor, id, bytes).value.db, id, ViewOf(d, id).(budget := Some(bytes)))
  {
    hide Children, Pending, Delegated, BudgetOf, OwnOf;
  }

  lemma {:induction false} OwnWrites(d: Db, actor: Authority, id: Id, bytes: nat)
    requires SetAdminOwn(d, actor, id, bytes).Ok?
    ensures id in d.accounts
    ensures var v := ViewOf(d, id);
      Wrote(d, SetAdminOwn(d, actor, id, bytes).value.db, id,
            v.(row := v.row.(generation := v.row.generation + 1), own := Some(bytes)))
  {
    hide Children, Pending, Delegated, BudgetOf, OwnOf;
  }

  lemma {:induction false} ChildQuotaWrites(d: Db, actor: Authority, id: Id, generation: nat, bytes: nat)
    requires SetChildQuota(d, actor, id, generation, bytes).Ok?
    ensures id in d.accounts
    ensures var v := ViewOf(d, id);
      Wrote(d, SetChildQuota(d, actor, id, generation, bytes).value.db, id,
            v.(row := v.row.(generation := v.row.generation + 1, quota := Some(bytes))))
  {
    hide Children, Pending, Delegated, BudgetOf, OwnOf, Manage;
  }

  lemma {:induction false} PurgeWrites(d: Db, id: Id)
    requires FinishPurge(d, id).Ok?
    ensures id in d.accounts
    ensures var v := ViewOf(d, id);
      Wrote(d, FinishPurge(d, id).value, id,
            v.(row := v.row.(generation := v.row.generation + 1, quota := Some(0), hash := None)))
  {
  }

  lemma {:induction false} ScopeWrites(d: Db, actor: Authority, id: Id, global: bool)
    requires SetPanelScope(d, actor, id, global).Ok?
    ensures id in d.accounts
    ensures var v := ViewOf(d, id);
      Wrote(d, SetPanelScope(d, actor, id, global).value, id,
            v.(row := v.row.(generation := v.row.generation + 1), scope := Some(global)))
  {
    hide WithoutUser;
  }

  lemma {:induction false} RoleWrites(d: Db, actor: Authority, id: Id, role: Role)
    requires SetRole(d, actor, id, role).Ok?
    ensures id in d.accounts
    ensures var v := ViewOf(d, id);
      Wrote(d, SetRole(d, actor, id, role).value, id,
            v.(row := v.row.(generation := v.row.generation + 1, role := role), scope := Some(role.Admin?)))
  {
    hide WithoutUser;
  }

  lemma {:induction false} FlaggedWrites(d: Db, id: Id, r: Row, flags: set<Id>)
    requires id in d.accounts && forall i :: i != id ==> (i in flags <==> i in d.mustChange)
    ensures Wrote(d, PutRow(d, id, r).(mustChange := flags), id, ViewOf(d, id).(row := r, flag := id in flags))
  {
  }

  lemma {:induction false} CopyWrites(d: Db, actor: Authority, source: Id, sg: nat, id: Id, tg: nat)
    requires CopyCredentials(d, actor, source, sg, id, tg).Ok?
    ensures id in d.accounts && source in d.accounts
    ensures var v := ViewOf(d, id);
      Wrote(d, CopyCredentials(d, actor, source, sg, id, tg).value, id,
            v.(row := v.row.(generation := v.row.generation + 1, hash := d.accounts[source].hash),
               flag := source in d.mustChange))
  {
    hide Wrote, PutRow;
    FlaggedWrites(d, id, Bump(d.accounts[id]).(hash := d.accounts[source].hash),
                  if source in d.mustChange then d.mustChange + {id} else d.mustChange - {id});
  }

  lemma {:induction false} RequireWrites(d: Db, actor: Authority, id: Id)
    requires RequirePasswordChange(d, actor, id).Ok?
    ensures id in d.accounts
    ensures var v := ViewOf(d, id);
      Wrote(d, RequirePasswordChange(d, actor, id).value, id,
            v.(row := v.row.(generation := v.row.generation + 1), flag := true))
  {
  }

  lemma {:induction false} PasswordWrites(d: Db, actor: Authority, id: Id, hash: Option<string>, matchesOld: bool)
    requires SetPassword(d, actor, id, hash, matchesOld).Ok?
    ensures id in d.accounts
    ensures var v := ViewOf(d, id);
      Wrote(d, SetPassword(d, actor, id, hash, matchesOld).value, id,
            v.(row := v.row.(generation := v.row.generation + 1, hash := hash), flag := false))
  {
    hide Manage, Authorized;
  }

  lemma {:induction false} TransitionWrites(d: Db, actor: Authority, id: Id, status: Status, allow: bool,
                                            expected: Option<nat>, at: nat)
    requires Transition(d, actor, id, status, allow, expected, at).Ok?
    ensures id in d.accounts
    ensures var v := ViewOf(d, id);
      var ownRevoke := actor.Account? && actor.id == id && v.row.kind.Linux? && status.Revoked?;
      Wrote(d, Transition(d, actor, id, status, allow, expected, at).value, id,
            v.(row := v.row.(generation := v.row.generation + 1, status := status, login := status.Active?,
                             denyEnrollment := !status.Active? && !ownRevoke,
                             deletedAt := if status.Deleted? then Some(at) else None)))
  {
    hide WithoutUser, Manage, Authorized;
  }

  lemma {:induction false} PolicyWrites(d: Db, actor: Authority, id: Id, generation: nat, layer: Layer,
                                        rules: seq<string>, wellFormed: bool)
    requires SetPolicy(d, actor, id, generation, layer, rules, wellFormed).Ok?
    ensures id in d.accounts
    ensures var v := ViewOf(d, id);
      Wrote(d, SetPolicy(d, actor, id, generation, layer, rules, wellFormed).value, id,
            v.(row := v.row.(generation := v.row.generation + 1), rules := Layered(v.rules, layer, rules)))
  {
    hide WithoutUser, Manage, Authorized;
  }

  lemma {:induction false} PreferencesWrites(d: Db, actor: Authority, maximum: nat, hours: Option<nat>, revision: nat)
    requires SetUndoPreferences(d, actor, maximum, hours, revision).Ok?
    ensures actor.Account? && actor.id in d.accounts
    ensures var v := ViewOf(d, actor.id);
      Wrote(d, SetUndoPreferences(d, actor, maximum, hours, revision).value, actor.id,
            v.(row := v.row.(undoHours := hours), revision := revision + 1))
      && v.revision == revision
  {
  }

  /** The events that write one account's columns show at that account, and nowhere else. */
  lemma {:induction false} RewriteShows(d: Db, ev: Event, id: Id)
    requires Step(d, ev).Ok? && Targets(ev)
    ensures Shows(d, ev, After(d, ev), id)
  {
    hide Step, Shows;
    if ev.EvSetAdminOwn? || ev.EvSetChildQuota? || ev.EvFinishPurge? {
      QuotaShows(d, ev, id);
    } else if ev.EvSetPassword? || ev.EvTransition? || ev.EvSetPolicy? {
      ManagedShows(d, ev, id);
    } else {
      RootShows(d, ev, id);
    }
  }

  lemma {:induction false} QuotaShows(d: Db, ev: Event, id: Id)
    requires Step(d, ev).Ok? && (ev.EvSetAdminOwn? || ev.EvSetChildQuota? || ev.EvFinishPurge?)
    ensures Shows(d, ev, After(d, ev), id)
  {
    hide SetPool, SetAdminBudget, SetAdminOwn, SetChildQuota, CreateRecord, ReserveChild, ReserveAdmin, Finalize,
      CancelPending, BeginPurge, FinishPurge, SetPanelScope, SetRole, InvalidateRestored, CopyCredentials,
      RequirePasswordChange, SetPassword, Transition, SetPolicy, SetUndoPreferences, IssueGrant, RevokeGrant,
      BeginEnrollment, CompleteEnrollment, ViewOf;
    match ev {
      case EvSetAdminOwn(actor, i, bytes) => OwnWrites(d, actor, i, bytes);
      case EvSetChildQuota(actor, i, generation, bytes) => ChildQuotaWrites(d, actor, i, generation, bytes);
      case EvFinishPurge(i) => PurgeWrites(d, i);
    }
  }

  lemma {:induction false} ManagedShows(d: Db, ev: Event, id: Id)
    requires Step(d, ev).Ok? && (ev.EvSetPassword? || ev.EvTransition? || ev.EvSetPolicy?)
    ensures Shows(d, ev, After(d, ev), id)
  {
    hide SetPool, SetAdminBudget, SetAdminOwn, SetChildQuota, CreateRecord, ReserveChild, ReserveAdmin, Finalize,
      CancelPending, BeginPurge, FinishPurge, SetPanelScope, SetRole, InvalidateRestored, CopyCredentials,
      RequirePasswordChange, SetPassword, Transition, SetPolicy, SetUndoPreferences, IssueGrant, RevokeGrant,
      BeginEnrollment, CompleteEnrollment, ViewOf;
    match ev {
      case EvSetPassword(actor, i, hash, matchesOld) => PasswordWrites(d, actor, i, hash, matchesOld);
      case EvTransition(actor, i, status, allow, expected, at) => TransitionWrites(d, actor, i, status, allow, expected, at);
      case EvSetPolicy(actor, i, generation, layer, rules, ok) => PolicyWrites(d, actor, i, generation, layer, rules, ok);
    }
  }

  lemma {:induction false} RootShows(d: Db, ev: Event, id: Id)
    requires Step(d, ev).Ok?
    requires ev.EvSetPanelScope? || ev.EvSetRole? || ev.EvCopyCredentials? || ev.EvRequirePasswordChange?
    ensures Shows(d, ev, After(d, ev), id)
  {
    hide SetPool, SetAdminBudget, SetAdminOwn, SetChildQuota, CreateRecord, ReserveChild, ReserveAdmin, Finalize,
      CancelPending, BeginPurge, FinishPurge, SetPanelScope, SetRole, InvalidateRestored, CopyCredentials,
      RequirePasswordChange, SetPassword, Transition, SetPolicy, SetUndoPreferences, IssueGrant, RevokeGrant,
      BeginEnrollment, CompleteEnrollment, ViewOf;
    match ev {
      case EvSetPanelScope(actor, i, global) => ScopeWrites(d, actor, i, global);
      case EvSetRole(actor, i, role) => RoleWrites(d, actor, i, role);
      case EvCopyCredentials(actor, source, sg, i, tg) => CopyWrites(d, actor, source, sg, i, tg);
      case EvRequirePasswordChange(actor, i) => RequireWrites(d, actor, i);
    }
  }

  lemma {:induction false} LedgerShows(d: Db, ev: Event, id: Id)
    requires Step(d, ev).Ok? && (ev.EvSetAdminBudget? || ev.EvSetUndoPreferences?)
    ensures Shows(d, ev, After(d, ev), id)
  {
    hide SetPool, SetAdminBudget, SetAdminOwn, SetChildQuota, CreateRecord, ReserveChild, ReserveAdmin, Finalize,
      CancelPending, BeginPurge, FinishPurge, SetPanelScope, SetRole, InvalidateRestored, CopyCredentials,
      RequirePasswordChange, SetPassword, Transition, SetPolicy, SetUndoPreferences, IssueGrant, RevokeGrant,
      BeginEnrollment, CompleteEnrollment, ViewOf;
    match ev {
      case EvSetAdminBudget(actor, i, bytes) => BudgetWrites(d, actor, i, bytes);
      case EvSetUndoPreferences(actor, maximum, hours, revision) => PreferencesWrites(d, actor, maximum, hours, revision);
    }
  }

  lemma {:induction false} RestoreShows(d: Db, ev: Event, id: Id)
    requires Step(d, ev).Ok? && ev.EvRestore?
    ensures Shows(d, ev, After(d, ev), id)
  {
    hide SetPool, SetAdminBudget, SetAdminOwn, SetChildQuota, CreateRecord, ReserveChild, ReserveAdmin, Finalize,
      CancelPending, BeginPurge, FinishPurge, SetPanelScope, SetRole, CopyCredentials, RequirePasswordChange, SetPassword,
      Transition, SetPolicy, SetUndoPreferences, IssueGrant, RevokeGrant, BeginEnrollment, CompleteEnrollment;
  }

  /** Every table that a view reads is untouched. */
  ghost predicate SameTables(d: Db, e: Db) {
    && e.accounts == d.accounts && e.mustChange == d.mustChange && e.scopes == d.scopes && e.policies == d.policies
    && e.revisions == d.revisions && e.budgets == d.budgets && e.own == d.own
  }

  /** Nothing but the pool, the requests and the retired or purging identities moves. */
  ghost predicate OnlyRequests(d: Db, e: Db) {
    e == d.(pool := e.pool, intents := e.intents, retired := e.retired, purging := e.purging)
  }

  lemma {:induction false} PoolOnly(d: Db, actor: Authority, bytes: nat)
    requires SetPool(d, actor, bytes).Ok?
    ensures OnlyRequests(d, SetPool(d, actor, bytes).value)
  {
    hide Pending, Delegated;
  }

  lemma {:induction false} ReserveChildOnly(d: Db, owner: Id, generation: nat, key: Key, name: string, quota: nat, uid: nat)
    requires ReserveChild(d, owner, generation, key, name, quota, uid).Ok?
    ensures OnlyRequests(d, ReserveChild(d, owner, generation, key, name, quota, uid).value)
  {
    hide Children, Pending, BudgetOf, OwnOf, Authorized;
  }

  lemma {:induction false} ReserveAdminOnly(d: Db, key: Key, name: string, budget: nat, uid: nat)
    requires ReserveAdmin(d, key, name, budget, uid).Ok?
    ensures OnlyRequests(d, ReserveAdmin(d, key, name, budget, uid).value)
  {
    hide Pending, Delegated;
  }

  lemma {:induction false} CancelOnly(d: Db, key: Key)
    requires CancelPending(d, key).Ok?
    ensures OnlyRequests(d, CancelPending(d, key).value)
  {
  }

  lemma {:induction false} BeginPurgeOnly(d: Db, id: Id)
    requires BeginPurge(d, id).Ok?
    ensures OnlyRequests(d, BeginPurge(d, id).value)
  {
  }

  lemma {:induction false} RequestOnly(d: Db, ev: Event)
    requires Step(d, ev).Ok?
    requires ev.EvSetPool? || ev.EvReserveChild? || ev.EvReserveAdmin? || ev.EvCancelPending? || ev.EvBeginPurge?
    ensures OnlyRequests(d, After(d, ev))
  {
    hide SetPool, SetAdminBudget, SetAdminOwn, SetChildQuota, CreateRecord, ReserveChild, ReserveAdmin, Finalize,
      CancelPending, BeginPurge, FinishPurge, SetPanelScope, SetRole, InvalidateRestored, CopyCredentials,
      RequirePasswordChange, SetPassword, Transition, SetPolicy, SetUndoPreferences, IssueGrant, RevokeGrant,
      BeginEnrollment, CompleteEnrollment, OnlyRequests, Assigned;
    match ev {
      case EvSetPool(actor, bytes) => PoolOnly(d, actor, bytes);
      case EvReserveChild(owner, generation, key, name, bytes, uid) =>
        ReserveChildOnly(d, owner, generation, key, name, bytes, uid);
      case EvReserveAdmin(key, name, bytes, uid) => ReserveAdminOnly(d, key, name, bytes, uid);
      case EvCancelPending(key) => CancelOnly(d, key);
      case EvBeginPurge(id) => BeginPurgeOnly(d, id);
    }
  }

  lemma {:induction false} RequestTables(d: Db, ev: Event)
    requires ev.EvSetPool? || ev.EvReserveChild? || ev.EvReserveAdmin? || ev.EvCancelPending? || ev.EvBeginPurge?
    ensures SameTables(d, After(d, ev))
  {
    hide Step;
    if Step(d, ev).Ok? {
      RequestOnly(d, ev);
    }
  }

  lemma {:induction false} IssueTables(d: Db, id: Id, generation: nat, caller: Caller, at: nat, lifetime: nat, nonce: Id)
    requires IssueGrant(d, id, generation, caller, at, lifetime, nonce).Ok?
    ensures SameTables(d, IssueGrant(d, id, generation, caller, at, lifetime, nonce).value)
  {
    hide LiveGrants, GrantsOf, ValidCaller;
  }

  lemma {:induction false} BeginTables(d: Db, identity: Identity, caller: Caller, at: nat, lifetime: nat, token: Id)
    requires BeginEnrollment(d, identity, caller, at, lifetime, token).Ok?
    ensures SameTables(d, BeginEnrollment(d, identity, caller, at, lifetime, token).value)
  {
    hide FindUsername, MayEnroll, ValidIdentity, ValidCaller, EnrollmentsKept;
  }

  lemma {:induction false} ProofTables(d: Db, ev: Event)
    requires ev.EvIssueGrant? || ev.EvRevokeGrant? || ev.EvBeginEnrollment?
    ensures SameTables(d, After(d, ev))
  {
    hide SetPool, SetAdminBudget, SetAdminOwn, SetChildQuota, CreateRecord, ReserveChild, ReserveAdmin, Finalize,
      CancelPending, BeginPurge, FinishPurge, SetPanelScope, SetRole, InvalidateRestored, CopyCredentials,
      RequirePasswordChange, SetPassword, Transition, SetPolicy, SetUndoPreferences, IssueGrant, BeginEnrollment,
      CompleteEnrollment, VerifyRestricted;
    if Step(d, ev).Ok? {
      match ev {
        case EvIssueGrant(id, generation, caller, at, lifetime, nonce) =>
          IssueTables(d, id, generation, caller, at, lifetime, nonce);
        case EvBeginEnrollment(identity, caller, at, lifetime, token) =>
          BeginTables(d, identity, caller, at, lifetime, token);
        case _ =>
      }
    }
  }

  lemma {:induction false} SameView(d: Db, e: Db, id: Id)
    requires SameTables(d, e) && id in d.accounts
    ensures id in e.accounts && ViewOf(e, id) == ViewOf(d, id)
  {
  }

  lemma {:induction false} NothingAsked(d: Db, ev: Event, id: Id, v: View)
    requires !Targets(ev) && !ev.EvSetAdminBudget? && !ev.EvSetUndoPreferences? && !ev.EvRestore? && !ev.EvCompleteEnrollment?
    ensures Asked(d, ev, id, v) == v
  {
  }

  lemma {:induction false} TablesShow(d: Db, ev: Event, id: Id)
    requires ev.EvSetPool? || ev.EvReserveChild? || ev.EvReserveAdmin? || ev.EvCancelPending? || ev.EvBeginPurge?
      || ev.EvIssueGrant? || ev.EvRevokeGrant? || ev.EvBeginEnrollment?
    ensures Shows(d, ev, After(d, ev), id)
  {
    hide After, Step, ViewOf, Asked;
    if ev.EvIssueGrant? || ev.EvRevokeGrant? || ev.EvBeginEnrollment? {
      ProofTables(d, ev);
    } else {
      RequestTables(d, ev);
    }
    if id in d.accounts {
      NothingAsked(d, ev, id, ViewOf(d, id));
      SameView(d, After(d, ev), id);
    }
  }

  lemma {:induction false} CreateLeaves(d: Db, actor: Authority, input: NewAccount, hash: Option<string>,
                                        request: Option<Request>, drawn: Id, id: Id)
    requires CreateRecord(d, actor, input, hash, request, drawn).Ok? && drawn !in d.accounts && id in d.accounts
    ensures var e := CreateRecord(d, actor, input, hash, request, drawn).value;
      id in e.accounts && ViewOf(e, id) == ViewOf(d, id)
  {
    hide CreateCheck;
  }

  lemma {:induction false} CreateShows(d: Db, ev: Event, id: Id)
    requires Inv(d) && Admissible(d, ev) && Step(d, ev).Ok? && (ev.EvCreate? || ev.EvFinalize?)
    ensures Shows(d, ev, After(d, ev), id)
  {
    hide Inv, UidTaken, Assigned, Asked, ViewOf, CreateRecord;
    FreshAccountId(d, ev.freshId);
    if id in d.accounts {
      NothingAsked(d, ev, id, ViewOf(d, id));
      if ev.EvCreate? {
        CreateLeaves(d, ev.actor, ev.input, ev.hash, None, ev.freshId, id);
      } else {
        CreateLeaves(d, ev.actor, ev.input, ev.hash, Some(Request(ev.key, d.intents[ev.key])), ev.freshId, id);
      }
    }
  }

  lemma {:induction false} OneUser(d: Db, id: Id, name: string)
    requires RowsOk(d.accounts, d.used) && id in d.accounts
    ensures d.accounts[id].username == name <==> FindUsername(d, name) == Some(id)
  {
    hide ShapeOk;
  }

  /** What completing leaves: one row, that of the user's account if there is one. */
  lemma {:induction false} EnrolledRow(d: Db, token: Id, caller: Caller, identity: Identity, hash: Option<string>, at: nat,
                                       drawn: Id)
    requires CompleteEnrollment(d, token, caller, identity, hash, at, drawn).Ok?
    ensures hash.Some? && token in d.enrollment
    ensures var e, found := CompleteEnrollment(d, token, caller, identity, hash, at, drawn).value, FindUsername(d, identity.username);
      && e.accounts == (if found.Some? then d.accounts[found.value := Enrolled(d.accounts[found.value], hash.value)]
                        else d.accounts[drawn := Enrolled(FreshLinuxRow(identity), hash.value)])
      && e == d.(accounts := e.accounts, enrollment := Consume(d.enrollment, token), used := e.used)
  {
    hide MayEnroll, UidTaken, FindUsername, Enrolled, FreshLinuxRow;
    var tx := d.(enrollment := Consume(d.enrollment, token));
    var found := FindUsername(d, identity.username);
    if found.Some? {
      PutTables(d, tx, found.value, Enrolled(d.accounts[found.value], hash.value), d.used);
    } else {
      PutTables(d, tx, drawn, Enrolled(FreshLinuxRow(identity), hash.value), d.used + {drawn});
    }
  }

  lemma {:induction false} PutTables(d: Db, tx: Db, id: Id, r: Row, used: set<Id>)
    requires tx == d.(enrollment := tx.enrollment)
    ensures PutRow(tx, id, r).(used := used).accounts == d.accounts[id := r]
    ensures PutRow(tx, id, r).(used := used) == d.(accounts := d.accounts[id := r], enrollment := tx.enrollment, used := used)
    ensures PutRow(tx, id, r).(used := d.used) == PutRow(tx, id, r)
  {
  }

  lemma {:induction false} EnrollWrites(d: Db, token: Id, caller: Caller, identity: Identity, hash: Option<string>, at: nat,
                                        drawn: Id, id: Id)
    requires RowsOk(d.accounts, d.used) && drawn !in d.accounts && id in d.accounts
    requires CompleteEnrollment(d, token, caller, identity, hash, at, drawn).Ok?
    ensures var v, e := ViewOf(d, id), CompleteEnrollment(d, token, caller, identity, hash, at, drawn).value;
      id in e.accounts
      && ViewOf(e, id) ==
         if d.accounts[id].username != identity.username then v else
         v.(row := v.row.(generation := v.row.generation + 1, hash := hash, status := Active, login := true,
                          denyEnrollment := false))
  {
    hide RowsOk, FindUsername, CompleteEnrollment;
    EnrolledRow(d, token, caller, identity, hash, at, drawn);
    OneUser(d, id, identity.username);
  }

  lemma {:induction false} EnrollShows(d: Db, ev: Event, id: Id)
    requires Inv(d) && Admissible(d, ev) && Step(d, ev).Ok? && ev.EvCompleteEnrollment?
    ensures Shows(d, ev, After(d, ev), id)
  {
    hide RowsOk, KeysOk, PurgedOk, IntentsOk, LedgerOk, ProofRowsOk, ProofCapsOk, CompleteEnrollment, UidTaken, Assigned;
    FreshEnrollmentId(d, ev);
    if id in d.accounts {
      EnrollWrites(d, ev.token, ev.caller, ev.identity, ev.hash, ev.at, ev.freshId, id);
    }
  }

  /** Every accepted event makes of every account exactly what it asked for that account. */
  lemma {:induction false} EventShows(d: Db, ev: Event, id: Id)
    requires Inv(d) && Admissible(d, ev) && Step(d, ev).Ok?
    ensures Shows(d, ev, After(d, ev), id)
  {
    hide Inv, Admissible, Step, Shows;
    if Targets(ev) {
      RewriteShows(d, ev, id);
    } else if ev.EvCreate? || ev.EvFinalize? {
      CreateShows(d, ev, id);
    } else if ev.EvCompleteEnrollment? {
      EnrollShows(d, ev, id);
    } else if ev.EvSetAdminBudget? || ev.EvSetUndoPreferences? {
      LedgerShows(d, ev, id);
    } else if ev.EvRestore? {
      RestoreShows(d, ev, id);
    } else {
      TablesShow(d, ev, id);
    }
  }

  // ---------- New accounts ----------

  /** The row that a creation request describes, active and without a history. */
  predicate BornAs(r: Row, input: NewAccount, hash: Option<string>) {
    && r.username == input.username && r.uid == input.uid && r.gid == input.gid && r.home == input.home
    && r.kind == input.kind && r.role == input.role && r.owner == input.owner && r.quota == input.quota
    && r.status.Active? && r.login && !r.denyEnrollment && r.deletedAt.None? && r.undoHours.None?
    && r.generation == 1 && r.hash == hash
  }

  /** The request that a creation completes, if it completes one. */
  function Completed(d: Db, ev: Event): Option<Request> {
    if ev.EvFinalize? && ev.key in d.intents then Some(Request(ev.key, d.intents[ev.key])) else None
  }

  lemma {:induction false} CreateBears(d: Db, actor: Authority, input: NewAccount, hash: Option<string>,
                                       request: Option<Request>, id: Id)
    requires CreateRecord(d, actor, input, hash, request, id).Ok?
    ensures var e := CreateRecord(d, actor, input, hash, request, id).value;
      && e.accounts.Keys == d.accounts.Keys + {id} && BornAs(e.accounts[id], input, hash)
      && (id in e.mustChange <==> id in d.mustChange || (hash.Some? && actor.Account?))
      && Look(e.scopes, id) == Look(d.scopes, id) && RulesOf(e, id) == RulesOf(d, id) && e.own == d.own
      && Look(e.budgets, id) == if request.Some? && input.kind.Virtual? && input.role.Admin?
                                then Some(request.value.intent.quota) else Look(d.budgets, id)
  {
    hide ChildRoom, HasUsername, UidTaken, ValidIdentity, Authorized;
  }

  /** An account comes into being only by creation or enrollment, and is then exactly what was asked for. */
  lemma {:induction false} Born(d: Db, ev: Event, id: Id)
    requires Inv(d) && Admissible(d, ev) && Step(d, ev).Ok?
    requires id !in d.accounts && id in After(d, ev).accounts
    ensures (ev.EvCreate? || ev.EvFinalize? || ev.EvCompleteEnrollment?) && id == ev.freshId
    ensures var v := ViewOf(After(d, ev), id);
      if ev.EvCompleteEnrollment? then
        && v.row.username == ev.identity.username && v.row.uid == ev.identity.uid && v.row.gid == ev.identity.gid
        && v.row.home == ev.identity.home && v.row.kind.Linux? && v.row.role.User? && v.row.owner.None? && v.row.quota.None?
        && v.row.status.Active? && v.row.login && !v.row.denyEnrollment && v.row.deletedAt.None? && v.row.hash == ev.hash
      else
        && BornAs(v.row, ev.input, ev.hash) && v.own.None?
        && (v.flag <==> id in d.mustChange || (ev.hash.Some? && ev.actor.Account?))
        && v.budget == if ev.EvFinalize? && v.row.kind.Virtual? && v.row.role.Admin? && ev.key in d.intents
                       then Some(d.intents[ev.key].quota) else None
  {
    hide Inv, Admissible, Step, BornAs, Asked;
    if ev.EvCreate? || ev.EvFinalize? {
      CreationBears(d, ev, id);
    } else if ev.EvCompleteEnrollment? {
      EnrollmentBears(d, ev, id);
    } else {
      EventShows(d, ev, id);
    }
  }

  lemma {:induction false} CreationBears(d: Db, ev: Event, id: Id)
    requires Inv(d) && Step(d, ev).Ok? && (ev.EvCreate? || ev.EvFinalize?)
    requires id !in d.accounts && id in After(d, ev).accounts
    ensures id == ev.freshId
    ensures var v := ViewOf(After(d, ev), id);
      && BornAs(v.row, ev.input, ev.hash) && v.own.None?
      && (v.flag <==> id in d.mustChange || (ev.hash.Some? && ev.actor.Account?))
      && v.budget == if ev.EvFinalize? && v.row.kind.Virtual? && v.row.role.Admin? && ev.key in d.intents
                     then Some(d.intents[ev.key].quota) else None
  {
    hide RowsOk, PurgedOk, IntentsOk, LedgerOk, ProofRowsOk, ProofCapsOk, CreateRecord;
    CreateBears(d, ev.actor, ev.input, ev.hash, Completed(d, ev), ev.freshId);
  }

  lemma {:induction false} EnrollmentBears(d: Db, ev: Event, id: Id)
    requires Step(d, ev).Ok? && ev.EvCompleteEnrollment? && id !in d.accounts && id in After(d, ev).accounts
    ensures id == ev.freshId
    ensures var r := After(d, ev).accounts[id];
      && r.username == ev.identity.username && r.uid == ev.identity.uid && r.gid == ev.identity.gid
      && r.home == ev.identity.home && r.kind.Linux? && r.role.User? && r.owner.None? && r.quota.None?
      && r.status.Active? && r.login && !r.denyEnrollment && r.deletedAt.None? && r.hash == ev.hash
  {
    hide CompleteEnrollment, FindUsername;
    EnrolledRow(d, ev.token, ev.caller, ev.identity, ev.hash, ev.at, ev.freshId);
  }

  // ---------- Whole runs ----------

  /** The accepted requests of a run, applied in order to one account alone. */
  ghost function Replay(d: Db, run: seq<Event>, id: Id, v: View): View
    decreases |run|
  {
    if run == [] then v
    else Replay(After(d, run[0]), run[1..], id, if Step(d, run[0]).Ok? then Asked(d, run[0], id, v) else v)
  }

  /** After every run, an account is what the accepted requests for it make of it. */
  lemma {:induction false} RunShows(d: Db, run: seq<Event>, id: Id)
    requires Inv(d) && AdmissibleRun(d, run) && id in d.accounts
    ensures id in Final(d, run).accounts && ViewOf(Final(d, run), id) == Replay(d, run, id, ViewOf(d, id))
    decreases |run|
  {
    hide Inv, Later, Admissible, Step, Asked, ViewOf;
    if run != [] {
      StepKeeps(d, run[0]);
      if Step(d, run[0]).Ok? {
        EventShows(d, run[0], id);
      }
      RunShows(After(d, run[0]), run[1..], id);
    }
  }
}
