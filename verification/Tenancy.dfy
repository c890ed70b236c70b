/** Tenants: who owns whom, and what a tenant's transactions can reach. */
module Tenancy {
  import opened Types
  import opened Tables
  import opened Ops
  import opened Invariant
  import opened Evolution
  import opened Runs

  /** In every state that a run reaches, ownership is a forest of depth at most two. */
  lemma {:induction false} OwnershipForest(run: seq<Event>, id: Id)
    requires AdmissibleRun(EMPTY, run) && id in Final(EMPTY, run).accounts
    ensures var accounts := Final(EMPTY, run).accounts;
      && (accounts[id].owner.Some? <==> IsChild(accounts[id]))
      && (accounts[id].owner.Some? ==>
            var owner := accounts[id].owner.value;
            owner in accounts && owner != id && accounts[owner].owner.None? && !IsChild(accounts[owner]))
  {
    hide Inv, Later, AdmissibleRun, Final;
    EmptyInv();
    RunKeeps(EMPTY, run);
    ForestShape(Final(EMPTY, run), id);
  }

  /** Exactly the virtual users have an owner, and owners have none. */
  lemma {:induction false} ForestShape(d: Db, id: Id)
    requires Inv(d) && id in d.accounts
    ensures d.accounts[id].owner.Some? <==> IsChild(d.accounts[id])
    ensures d.accounts[id].owner.Some? ==>
      var owner := d.accounts[id].owner.value;
      owner in d.accounts && owner != id && d.accounts[owner].owner.None? && !IsChild(d.accounts[owner])
  {
    hide KeysOk, PurgedOk, IntentsOk, LedgerOk, ProofRowsOk, ProofCapsOk;
    assert ShapeOk(d.accounts, d.accounts[id]);
    if d.accounts[id].owner.Some? {
      assert ShapeOk(d.accounts, d.accounts[d.accounts[id].owner.value]);
    }
  }

  function ActorOf(actor: Authority): Option<Id> {
    if actor.Account? then Some(actor.id) else None
  }

  /** The account whose authority an event exercises, if it is not a Root or system event. */
  function ActsAs(ev: Event): Option<Id> {
    match ev
    case EvReserveChild(owner, _, _, _, _, _) => Some(owner)
    case EvSetPool(actor, _) => ActorOf(actor)
    case EvSetAdminBudget(actor, _, _) => ActorOf(actor)
    case EvSetAdminOwn(actor, _, _) => ActorOf(actor)
    case EvSetChildQuota(actor, _, _, _) => ActorOf(actor)
    case EvCreate(actor, _, _, _) => ActorOf(actor)
    case EvFinalize(actor, _, _, _, _) => ActorOf(actor)
    case EvSetPanelScope(actor, _, _) => ActorOf(actor)
    case EvSetRole(actor, _, _) => ActorOf(actor)
    case EvRestore(actor) => ActorOf(actor)
    case EvCopyCredentials(actor, _, _, _, _) => ActorOf(actor)
    case EvRequirePasswordChange(actor, _) => ActorOf(actor)
    case EvSetPassword(actor, _, _, _) => ActorOf(actor)
    case EvTransition(actor, _, _, _, _, _) => ActorOf(actor)
    case EvSetPolicy(actor, _, _, _, _, _) => ActorOf(actor)
    case EvSetUndoPreferences(actor, _, _, _) => ActorOf(actor)
    case _ => None
  }

  predicate Outside(d: Db, tenants: set<Id>, id: Id) {
    id in d.accounts && id !in tenants && (d.accounts[id].owner.Some? ==> d.accounts[id].owner.value !in tenants)
  }

  /** Everything that one account's authority rests on is literally unchanged. */
  predicate Untouched(d: Db, e: Db, id: Id) {
    && id in d.accounts && id in e.accounts && e.accounts[id] == d.accounts[id]
    && RulesOf(e, id) == RulesOf(d, id)
    && (id in e.mustChange <==> id in d.mustChange)
  }

  /** An account row that a tenant's event may rewrite is its own or one of its children's. */
  lemma {:induction false} WrittenRow(d: Db, actor: Authority, target: Id)
    requires actor.Account? && target in d.accounts
    requires Authorized(d, actor).Ok?
    requires target == actor.id || Manage(d, actor, d.accounts[target]).Ok?
    ensures !Outside(d, {actor.id}, target)
  {
  }

  lemma {:induction false} ReachOfQuota(d: Db, ev: Event, a: Id, id: Id)
    requires ev.EvSetChildQuota? || ev.EvReserveChild? || ev.EvSetPool? || ev.EvSetAdminBudget? || ev.EvSetAdminOwn?
    requires Step(d, ev).Ok? && ActsAs(ev) == Some(a) && Outside(d, {a}, id)
    ensures Untouched(d, After(d, ev), id)
  {
    hide Children, Pending, Delegated, Assigned, CreateRecord, Finalize, SetPassword, Transition, SetPolicy, CompleteEnrollment,
      BeginEnrollment, IssueGrant, RevokeGrant, FinishPurge, BeginPurge, CancelPending, CopyCredentials;
    if ev.EvSetChildQuota? {
      WrittenRow(d, ev.actor, ev.id);
    }
  }

  lemma {:induction false} ReachOfCreate(d: Db, ev: Event, a: Id, id: Id)
    requires Inv(d) && Admissible(d, ev) && (ev.EvCreate? || ev.EvFinalize?)
    requires Step(d, ev).Ok? && ActsAs(ev) == Some(a)
    ensures id in d.accounts ==> Untouched(d, After(d, ev), id)
    ensures id in After(d, ev).accounts && id !in d.accounts ==>
      IsChild(After(d, ev).accounts[id]) && After(d, ev).accounts[id].owner == Some(a)
  {
    hide ChildRoom, RootRoom, HasUsername, UidTaken, Assigned, Inv;
    CreatedIdFresh(d, ev);
  }

  lemma {:induction false} CreatedIdFresh(d: Db, ev: Event)
    requires Inv(d) && Admissible(d, ev) && (ev.EvCreate? || ev.EvFinalize?)
    ensures ev.freshId !in d.accounts
  {
    hide Inv, UidTaken, Assigned;
    FreshAccountId(d, ev.freshId);
  }

  lemma {:induction false} ReachOfSecrets(d: Db, ev: Event, a: Id, id: Id)
    requires ev.EvSetPassword? || ev.EvTransition? || ev.EvSetPolicy? || ev.EvSetUndoPreferences?
    requires Step(d, ev).Ok? && ActsAs(ev) == Some(a) && Outside(d, {a}, id)
    ensures Untouched(d, After(d, ev), id)
  {
    hide Step, Outside, Untouched;
    match ev {
      case EvSetPassword(_, _, _, _) => ReachOfPassword(d, ev, a, id);
      case EvTransition(_, _, _, _, _, _) => ReachOfTransition(d, ev, a, id);
      case EvSetPolicy(_, _, _, _, _, _) => ReachOfPolicy(d, ev, a, id);
      case _ => ReachOfPreferences(d, ev, a, id);
    }
  }

  lemma {:induction false} ReachOfPassword(d: Db, ev: Event, a: Id, id: Id)
    requires ev.EvSetPassword? && Step(d, ev).Ok? && ActsAs(ev) == Some(a) && Outside(d, {a}, id)
    ensures Untouched(d, After(d, ev), id)
  {
    hide SetPassword, Outside, Untouched;
    PasswordRows(d, ev.actor, ev.id, ev.hash, ev.matchesOld, id);
  }

  lemma {:induction false} PasswordRows(d: Db, actor: Authority, target: Id, hash: Option<string>, matchesOld: bool, id: Id)
    requires actor.Account? && SetPassword(d, actor, target, hash, matchesOld).Ok? && Outside(d, {actor.id}, id)
    ensures Untouched(d, SetPassword(d, actor, target, hash, matchesOld).value, id)
  {
    hide Outside, Untouched, Manage, Bump, PutRow;
    WrittenRow(d, actor, target);
    OutsideKnown(d, {actor.id}, id);
    RowElsewhere(d, target, Bump(d.accounts[target]).(hash := hash), id);
  }

  lemma {:induction false} RowElsewhere(d: Db, target: Id, r: Row, id: Id)
    requires id in d.accounts && id != target
    ensures Untouched(d, PutRow(d, target, r).(mustChange := d.mustChange - {target}), id)
  {
  }

  lemma {:induction false} ReachOfTransition(d: Db, ev: Event, a: Id, id: Id)
    requires ev.EvTransition? && Step(d, ev).Ok? && ActsAs(ev) == Some(a) && Outside(d, {a}, id)
    ensures Untouched(d, After(d, ev), id)
  {
    hide WithoutUser;
    WrittenRow(d, ev.actor, ev.id);
  }

  lemma {:induction false} ReachOfPolicy(d: Db, ev: Event, a: Id, id: Id)
    requires ev.EvSetPolicy? && Step(d, ev).Ok? && ActsAs(ev) == Some(a) && Outside(d, {a}, id)
    ensures Untouched(d, After(d, ev), id)
  {
    hide WithoutUser;
    WrittenRow(d, ev.actor, ev.id);
  }

  lemma {:induction false} ReachOfPreferences(d: Db, ev: Event, a: Id, id: Id)
    requires ev.EvSetUndoPreferences? && Step(d, ev).Ok? && ActsAs(ev) == Some(a) && Outside(d, {a}, id)
    ensures Untouched(d, After(d, ev), id)
  {
  }

  /** Root-only events change nothing when an account tries them. */
  lemma {:induction false} RootOnly(d: Db, ev: Event)
    requires ev.EvSetPool? || ev.EvSetAdminBudget? || ev.EvSetAdminOwn? || ev.EvSetPanelScope? || ev.EvSetRole?
      || ev.EvRestore? || ev.EvCopyCredentials? || ev.EvRequirePasswordChange?
    requires ActsAs(ev).Some?
    ensures Step(d, ev) == Err(Forbidden)
  {
    hide Children, Pending, Delegated, WithoutUser, CreateRecord, Finalize, SetChildQuota, ReserveChild, ReserveAdmin,
      CancelPending, BeginPurge, FinishPurge, SetPassword, Transition, SetPolicy, SetUndoPreferences, IssueGrant, RevokeGrant,
      BeginEnrollment, CompleteEnrollment;
  }

  /** One step by account `a` leaves every account outside `a` and its children as it was. */
  lemma {:induction false} TenantIsolation(d: Db, ev: Event, a: Id, id: Id)
    requires Inv(d) && Admissible(d, ev) && ActsAs(ev) == Some(a) && Outside(d, {a}, id)
    ensures Untouched(d, After(d, ev), id)
  {
    hide Inv, Admissible, Step, Outside;
    OutsideKnown(d, {a}, id);
    if Step(d, ev).Ok? {
      if ev.EvCreate? || ev.EvFinalize? {
        ReachOfCreate(d, ev, a, id);
      } else if ev.EvSetPassword? || ev.EvTransition? || ev.EvSetPolicy? || ev.EvSetUndoPreferences? {
        ReachOfSecrets(d, ev, a, id);
      } else if ev.EvSetChildQuota? || ev.EvReserveChild? {
        ReachOfQuota(d, ev, a, id);
      } else {
        RootOnly(d, ev);
      }
    }
  }

  lemma {:induction false} OutsideKnown(d: Db, tenants: set<Id>, id: Id)
    requires Outside(d, tenants, id)
    ensures id in d.accounts
    ensures forall a :: a in tenants ==> Outside(d, {a}, id)
  {
  }

  lemma {:induction false} OutsideStays(d: Db, e: Db, tenants: set<Id>, id: Id)
    requires Outside(d, tenants, id) && Untouched(d, e, id)
    ensures Outside(e, tenants, id)
  {
  }

  ghost predicate TenantRun(run: seq<Event>, tenants: set<Id>) {
    forall k :: 0 <= k < |run| ==> ActsAs(run[k]).Some? && ActsAs(run[k]).value in tenants
  }

  /** Whatever a set of tenants does, together and in any order, other tenants are not affected. */
  lemma {:induction false} TenantsAreIsolated(d: Db, run: seq<Event>, tenants: set<Id>, id: Id)
    requires Inv(d) && AdmissibleRun(d, run) && TenantRun(run, tenants) && Outside(d, tenants, id)
    ensures Untouched(d, Final(d, run), id)
    decreases |run|
  {
    hide Inv, Later, Admissible, After, Outside, ActsAs;
    OutsideKnown(d, tenants, id);
    if run != [] {
      var e := After(d, run[0]);
      StepKeeps(d, run[0]);
      TenantIsolation(d, run[0], ActsAs(run[0]).value, id);
      OutsideStays(d, e, tenants, id);
      TenantsAreIsolated(e, run[1..], tenants, id);
    }
  }

  /** Root policy layers change only in Root steps. */
  lemma {:induction false} RootLayersNeedRoot(d: Db, ev: Event, id: Id)
    requires ActsAs(ev).Some?
    ensures RulesOf(After(d, ev), id).root == RulesOf(d, id).root
  {
    hide Step, RulesOf, Outside, Untouched;
    if Step(d, ev).Ok? {
      if ev.EvSetPolicy? {
        TenantPolicy(d, ev, id);
      } else {
        PoliciesStay(d, ev);
        SamePolicies(d, After(d, ev), id);
      }
    }
  }

  lemma {:induction false} SamePolicies(d: Db, e: Db, id: Id)
    requires e.policies == d.policies
    ensures RulesOf(e, id) == RulesOf(d, id)
  {
  }

  lemma {:induction false} TenantPolicy(d: Db, ev: Event, id: Id)
    requires ev.EvSetPolicy? && ActsAs(ev).Some? && Step(d, ev).Ok?
    ensures RulesOf(After(d, ev), id).root == RulesOf(d, id).root
  {
    hide Manage, WithoutUser;
  }

  lemma {:induction false} PoliciesStay(d: Db, ev: Event)
    requires !ev.EvSetPolicy? && ActsAs(ev).Some?
    ensures After(d, ev).policies == d.policies
  {
    hide SetPool, SetAdminBudget, SetAdminOwn, SetPanelScope, SetRole, InvalidateRestored, CopyCredentials, RequirePasswordChange,
      ReserveAdmin, CancelPending, BeginPurge, FinishPurge, SetPolicy, IssueGrant, RevokeGrant, BeginEnrollment, CompleteEnrollment,
      SetChildQuota, CreateRecord, ReserveChild, Finalize, SetPassword, Transition, SetUndoPreferences, Assigned;
    if ev.EvSetPool? || ev.EvSetAdminBudget? || ev.EvSetAdminOwn? || ev.EvSetPanelScope? || ev.EvSetRole?
       || ev.EvRestore? || ev.EvCopyCredentials? || ev.EvRequirePasswordChange? {
      RootOnly(d, ev);
    } else if ev.EvCreate? || ev.EvFinalize? {
      CreatePolicies(d, ev);
    } else {
      RowPolicies(d, ev);
    }
  }

  lemma {:induction false} CreatePolicies(d: Db, ev: Event)
    requires ev.EvCreate? || ev.EvFinalize?
    ensures After(d, ev).policies == d.policies
  {
    hide ChildRoom, RootRoom, HasUsername, UidTaken, Authorized, Manage;
  }

  lemma {:induction false} RowPolicies(d: Db, ev: Event)
    requires ActsAs(ev).Some? && (ev.EvSetChildQuota? || ev.EvReserveChild? || ev.EvSetPassword? || ev.EvTransition? || ev.EvSetUndoPreferences?)
    ensures After(d, ev).policies == d.policies
  {
    hide Children, Pending, BudgetOf, OwnOf, WithoutUser, Assigned, Authorized, Manage;
  }
}
