/** What holds over whole runs of the account store. */
module Theorems {
  import opened Types
  import opened Sums
  import opened Tables
  import opened Ops
  import opened Invariant
  import opened Preservation
  import opened Evolution
  import opened Runs

  // ---------- Quota ledger ----------

  /** From an empty store, no run of transactions ever promises more bytes than it holds. */
  lemma {:induction false} Conservation(run: seq<Event>)
    requires AdmissibleRun(EMPTY, run)
    ensures var d := Final(EMPTY, run);
      && Delegated(d) + Pending(d, RootOwner) <= d.pool <= I64_MAX
      && forall owner :: owner in d.accounts ==>
           Children(d, owner) + Pending(d, owner) + OwnOf(d, owner) <= BudgetOf(d, owner) <= I64_MAX
  {
    hide Total, Later, AdmissibleRun, Final, RowsOk, KeysOk, PurgedOk, IntentsOk, ProofRowsOk, ProofCapsOk, ChildRows, PendingRows;
    EmptyInv();
    RunKeeps(EMPTY, run);
    var d := Final(EMPTY, run);
    forall owner | owner in d.accounts
      ensures Children(d, owner) + Pending(d, owner) + OwnOf(d, owner) <= BudgetOf(d, owner) <= I64_MAX
    {
      assert BudgetHolds(d, owner);
      BudgetInPool(d, owner);
    }
  }

  /** The two readers of a budget never fail on quota grounds, and they agree with each other. */
  lemma {:induction false} BudgetReadersAgree(d: Db, id: Id)
    requires Inv(d) && id in d.accounts && d.accounts[id].role == Admin
    ensures Budget(d, id).Ok? && EffectiveQuota(d, id).Ok?
    ensures var view := Budget(d, id).value;
      view.reserved + view.remaining + ValueOr(view.own, 0) == view.limit == BudgetOf(d, id)
    ensures d.accounts[id].kind == Virtual ==>
      EffectiveQuota(d, id).value == if Budget(d, id).value.own.Some? then Budget(d, id).value.own
                                     else Some(Budget(d, id).value.remaining)
    ensures d.accounts[id].kind == Linux ==> EffectiveQuota(d, id).value.None?
  {
    hide Total, RowsOk, KeysOk, LedgerOk, PurgedOk, IntentsOk, ProofRowsOk, ProofCapsOk, ChildRows, PendingRows;
    QuotaArithmeticFits(d, id);
  }

  /** Bytes move from "pending" to "children" when a request is finalised; the parent's own limit stays. */
  lemma {:induction false} FinalizeKeepsParent(d: Db, actor: Authority, input: NewAccount, hash: Option<string>,
                                               key: Key, id: Id, parent: Id)
    requires Inv(d) && Unused(d, id) && parent in d.accounts
    requires Finalize(d, actor, input, hash, key, id).Ok? && IsChild(NewRow(input, hash))
    ensures var e := Finalize(d, actor, input, hash, key, id).value;
      && Children(e, parent) + Pending(e, parent) == Children(d, parent) + Pending(d, parent)
      && EffectiveQuota(e, parent) == EffectiveQuota(d, parent)
  {
    hide Inv, CreateRecord, RootRoom, Children, Pending, BudgetOf, HasUsername, UidTaken, Assigned;
    var e := Finalize(d, actor, input, hash, key, id).value;
    FinalizeSums(d, actor, input, hash, key, id, parent);
  }

  lemma {:induction false} FinalizeSums(d: Db, actor: Authority, input: NewAccount, hash: Option<string>,
                                        key: Key, id: Id, parent: Id)
    requires Inv(d) && Unused(d, id) && parent in d.accounts
    requires Finalize(d, actor, input, hash, key, id).Ok? && IsChild(NewRow(input, hash))
    ensures var e := Finalize(d, actor, input, hash, key, id).value;
      && parent in e.accounts && e.accounts[parent] == d.accounts[parent]
      && e.own == d.own && e.budgets == d.budgets && BudgetOf(e, parent) == BudgetOf(d, parent)
      && Children(e, parent) + Pending(e, parent) == Children(d, parent) + Pending(d, parent)
  {
    hide Inv, CreateRecord, Total, ChildRows, PendingRows, HasUsername, UidTaken, Assigned;
    var request := Some(Request(key, d.intents[key]));
    FreshAccountId(d, id);
    CreateChecks(d, actor, input, hash, request, id);
    CreatedPending(d, input, hash, request, id, None, parent);
    PendingSplit(d.intents, parent, key);
    ChildPut(d.accounts, id, NewRow(input, hash), parent);
  }

  // ---------- Sessions ----------

  lemma {:induction false} LaterVerifies(d: Db, e: Db, g: SessionGrant, caller: Caller, at: nat, later: nat)
    requires Inv(d) && Later(d, e) && g.nonce in d.used && at <= later
    ensures VerifyRestricted(e, g, caller, later).Ok? ==> VerifyRestricted(d, g, caller, at).Ok?
    ensures VerifyGrant(e, g, caller, later).Ok? ==> VerifyGrant(d, g, caller, at).Ok?
  {
    hide RowsOk, KeysOk, PurgedOk, IntentsOk, LedgerOk, ProofCapsOk, Assigned, EnrollmentLater;
    if VerifyRestricted(e, g, caller, later).Ok? {
      assert g.nonce in d.grants && TokenOf(d, g.nonce) == g;
      assert AccountLater(d, e, g.account);
    }
  }

  /**
    No resurrection: a grant that was issued at some point and fails verification now fails at
    every later time, whatever transactions run in between.
   */
  lemma {:induction false} NoResurrection(d: Db, run: seq<Event>, g: SessionGrant, caller: Caller, at: nat, later: nat)
    requires Inv(d) && AdmissibleRun(d, run) && g.nonce in d.used && at <= later
    ensures VerifyRestricted(d, g, caller, at).Err? ==> VerifyRestricted(Final(d, run), g, caller, later).Err?
    ensures VerifyGrant(d, g, caller, at).Err? ==> VerifyGrant(Final(d, run), g, caller, later).Err?
  {
    hide Inv, Later, AdmissibleRun, Final, VerifyRestricted, VerifyGrant;
    RunKeeps(d, run);
    LaterVerifies(d, Final(d, run), g, caller, at, later);
  }

  /** However many grants are issued, the table never holds more than its caps allow. */
  lemma {:induction false} GrantsBounded(run: seq<Event>, id: Id)
    requires AdmissibleRun(EMPTY, run)
    ensures |Final(EMPTY, run).grants| <= 8192 && |GrantsOf(Final(EMPTY, run).grants, id)| <= 64
    ensures |Final(EMPTY, run).enrollment| <= MAX_ENROLLMENTS
  {
    hide Later, AdmissibleRun, Final, RowsOk, KeysOk, PurgedOk, IntentsOk, LedgerOk, ProofRowsOk, GrantsOf;
    EmptyInv();
    RunKeeps(EMPTY, run);
  }

  /** The events that revoke authority: after one of them on `id`, no older grant of `id` verifies. */
  predicate RevokesAuthority(d: Db, ev: Event, id: Id) {
    match ev
    case EvTransition(_, i, _, _, _, _) => i == id
    case EvSetRole(_, i, _) => i == id
    case EvSetPanelScope(_, i, _) => i == id
    case EvSetPolicy(_, i, _, _, _, _) => i == id
    case EvSetPassword(_, i, _, _) => i == id
    case EvRequirePasswordChange(_, i) => i == id
    case EvCopyCredentials(_, _, _, i, _) => i == id
    case EvSetAdminOwn(_, i, _) => i == id
    case EvSetChildQuota(_, i, _, _) => i == id
    case EvFinishPurge(i) => i == id
    case EvRestore(_) => id in d.accounts
    case _ => false
  }

  lemma {:induction false} RevocationBumps(d: Db, ev: Event, id: Id)
    requires RevokesAuthority(d, ev, id) && Step(d, ev).Ok?
    ensures id in d.accounts && id in After(d, ev).accounts
    ensures After(d, ev).accounts[id].generation > d.accounts[id].generation
  {
    hide Step;
    if ev.EvSetAdminOwn? || ev.EvSetChildQuota? || ev.EvFinishPurge? {
      QuotaBumps(d, ev, id);
    } else if ev.EvTransition? || ev.EvSetPolicy? || ev.EvSetPassword? {
      ManagedBumps(d, ev, id);
    } else {
      RootBumps(d, ev, id);
    }
  }

  lemma {:induction false} QuotaBumps(d: Db, ev: Event, id: Id)
    requires RevokesAuthority(d, ev, id) && Step(d, ev).Ok? && (ev.EvSetAdminOwn? || ev.EvSetChildQuota? || ev.EvFinishPurge?)
    ensures id in d.accounts && id in After(d, ev).accounts
    ensures After(d, ev).accounts[id].generation > d.accounts[id].generation
  {
    hide Children, Pending, BudgetOf, OwnOf, Manage;
  }

  lemma {:induction false} ManagedBumps(d: Db, ev: Event, id: Id)
    requires RevokesAuthority(d, ev, id) && Step(d, ev).Ok? && (ev.EvTransition? || ev.EvSetPolicy? || ev.EvSetPassword?)
    ensures id in d.accounts && id in After(d, ev).accounts
    ensures After(d, ev).accounts[id].generation > d.accounts[id].generation
  {
    hide WithoutUser, RulesOf, ReplaceLayer, Authorized, Manage;
  }

  lemma {:induction false} RootBumps(d: Db, ev: Event, id: Id)
    requires RevokesAuthority(d, ev, id) && Step(d, ev).Ok?
    requires ev.EvSetRole? || ev.EvSetPanelScope? || ev.EvRequirePasswordChange? || ev.EvCopyCredentials? || ev.EvRestore?
    ensures id in d.accounts && id in After(d, ev).accounts
    ensures After(d, ev).accounts[id].generation > d.accounts[id].generation
  {
    hide WithoutUser, SetPool, SetAdminBudget, SetAdminOwn, SetChildQuota, CreateRecord, ReserveChild, ReserveAdmin, Finalize, CancelPending,
      BeginPurge, FinishPurge, SetPassword, Transition, SetPolicy, SetUndoPreferences, IssueGrant, RevokeGrant, BeginEnrollment,
      CompleteEnrollment, Assigned;
  }

  lemma {:induction false} RevocationIsFinal(d: Db, ev: Event, run: seq<Event>, g: SessionGrant, caller: Caller, later: nat)
    requires Inv(d) && AdmissibleRun(d, [ev] + run) && Step(d, ev).Ok?
    requires g.nonce in d.used && RevokesAuthority(d, ev, g.account)
    ensures VerifyRestricted(Final(d, [ev] + run), g, caller, later).Err?
  {
    hide Inv, Later, Step, Admissible, VerifyRestricted, RevokesAuthority;
    var e := After(d, ev);
    assert ([ev] + run)[1..] == run;
    assert Final(d, [ev] + run) == Final(e, run);
    StepKeeps(d, ev);
    RevocationBumps(d, ev, g.account);
    RevokedNow(d, e, g, caller, later);
    RunKeeps(e, run);
    UsedGrows(d, e, g.nonce);
    LaterVerifies(e, Final(e, run), g, caller, later, later);
  }

  lemma {:induction false} UsedGrows(d: Db, e: Db, n: Id)
    requires Later(d, e) && n in d.used
    ensures n in e.used
  {
  }

  /** Grants never run ahead of their account, so a grown generation fences them off. */
  lemma {:induction false} RevokedNow(d: Db, e: Db, g: SessionGrant, caller: Caller, at: nat)
    requires Inv(d) && Later(d, e) && g.nonce in d.used
    requires g.account in d.accounts && g.account in e.accounts
    requires e.accounts[g.account].generation > d.accounts[g.account].generation
    ensures VerifyRestricted(e, g, caller, at).Err?
  {
    hide RowsOk, KeysOk, PurgedOk, IntentsOk, LedgerOk, ProofCapsOk, Assigned, EnrollmentLater, AccountsLater;
  }

  // ---------- Enrollment ----------

  predicate ByUser(d: Db, id: Id, username: string) {
    id in d.accounts && d.accounts[id].username == username
  }

  /** Events that must void an outstanding enrollment proof of `username`. */
  predicate Fences(d: Db, ev: Event, username: string, token: Id) {
    match ev
    case EvTransition(_, id, _, _, _, _) => ByUser(d, id, username)
    case EvSetRole(_, id, _) => ByUser(d, id, username)
    case EvSetPanelScope(_, id, _) => ByUser(d, id, username)
    case EvSetPolicy(_, id, _, _, _, _) => ByUser(d, id, username)
    case EvRestore(_) => true
    case EvCompleteEnrollment(t, _, _, _, _, _) => t == token
    case _ => false
  }

  predicate Spent(d: Db, token: Id) {
    token !in d.enrollment || d.enrollment[token].consumed
  }

  /** The administrative events delete every outstanding proof of the account they touch. */
  lemma {:induction false} FenceDeletes(d: Db, ev: Event)
    requires ev.EvTransition? || ev.EvSetRole? || ev.EvSetPanelScope? || ev.EvSetPolicy?
    requires Step(d, ev).Ok?
    ensures ev.id in d.accounts && After(d, ev).enrollment == WithoutUser(d.enrollment, d.accounts[ev.id].username)
  {
    hide WithoutUser, RulesOf, ReplaceLayer, Authorized, Manage, Bump;
    hide SetPool, SetAdminBudget, SetAdminOwn, SetChildQuota, CreateRecord, Finalize, ReserveChild, ReserveAdmin, CancelPending,
      BeginPurge, FinishPurge, CopyCredentials, RequirePasswordChange, SetPassword, SetUndoPreferences, IssueGrant,
      RevokeGrant, BeginEnrollment, CompleteEnrollment, InvalidateRestored;
  }

  lemma {:induction false} FenceSpends(d: Db, ev: Event, username: string, token: Id)
    requires Step(d, ev).Ok? && Fences(d, ev, username, token)
    requires token in d.enrollment ==> d.enrollment[token].identity.username == username
    ensures Spent(After(d, ev), token)
  {
    hide Step;
    if ev.EvTransition? || ev.EvSetRole? || ev.EvSetPanelScope? || ev.EvSetPolicy? {
      FenceDeletes(d, ev);
    } else if ev.EvRestore? {
      RestoreSpends(d, ev, token);
    } else {
      CompletionSpends(d, ev);
    }
  }

  lemma {:induction false} RestoreSpends(d: Db, ev: Event, token: Id)
    requires Step(d, ev).Ok? && ev.EvRestore?
    ensures Spent(After(d, ev), token)
  {
  }

  lemma {:induction false} CompletionSpends(d: Db, ev: Event)
    requires Step(d, ev).Ok? && ev.EvCompleteEnrollment?
    ensures Spent(After(d, ev), ev.token)
  {
    hide Step;
    CompleteIsStep(d, ev);
    CompletionConsumes(d, ev.token, ev.caller, ev.identity, ev.hash, ev.at, ev.freshId);
  }

  lemma {:induction false} PutSpent(d: Db, id: Id, r: Row, token: Id)
    requires token in d.enrollment && d.enrollment[token].consumed
    ensures Spent(PutRow(d, id, r), token)
  {
  }

  lemma {:induction false} SameProofs(d: Db, used: set<Id>, token: Id)
    requires Spent(d, token)
    ensures Spent(d.(used := used), token)
  {
  }

  lemma {:induction false} CompletionConsumes(d: Db, token: Id, caller: Caller, identity: Identity, hash: Option<string>,
                                              at: nat, id: Id)
    requires CompleteEnrollment(d, token, caller, identity, hash, at, id).Ok?
    ensures Spent(CompleteEnrollment(d, token, caller, identity, hash, at, id).value, token)
  {
    hide FindUsername, MayEnroll, UidTaken, Enrolled, FreshLinuxRow, Spent;
    var tx := d.(enrollment := Consume(d.enrollment, token));
    var existing := FindUsername(d, identity.username);
    if existing.Some? {
      PutSpent(tx, existing.value, Enrolled(d.accounts[existing.value], hash.value), token);
    } else {
      PutSpent(tx, id, Enrolled(FreshLinuxRow(identity), hash.value), token);
      SameProofs(PutRow(tx, id, Enrolled(FreshLinuxRow(identity), hash.value)), d.used + {id}, token);
    }
  }

  lemma {:induction false} SpentForever(d: Db, run: seq<Event>, token: Id)
    requires Inv(d) && AdmissibleRun(d, run) && token in d.used && Spent(d, token)
    ensures Spent(Final(d, run), token)
  {
    hide Inv, AdmissibleRun, Final, AccountsLater, GrantsLater, Assigned;
    RunKeeps(d, run);
  }

  /** Once issued, a proof keeps the identity it was issued for as long as it exists. */
  lemma {:induction false} ProofKeepsIdentity(d: Db, run: seq<Event>, token: Id)
    requires Inv(d) && AdmissibleRun(d, run) && token in d.used && token in Final(d, run).enrollment
    ensures token in d.enrollment && Final(d, run).enrollment[token].identity == d.enrollment[token].identity
  {
    hide Inv, AdmissibleRun, Final, AccountsLater, GrantsLater, Assigned;
    RunKeeps(d, run);
  }

  lemma {:induction false} FinalSplit(d: Db, a: seq<Event>, b: seq<Event>)
    ensures Final(d, a + b) == Final(Final(d, a), b)
    ensures AdmissibleRun(d, a + b) <==> AdmissibleRun(d, a) && AdmissibleRun(Final(d, a), b)
    decreases |a|
  {
    hide After, Admissible;
    if a == [] {
      assert a + b == b;
    } else {
      FinalSplit(After(d, a[0]), a[1..], b);
      assert (a + b)[1..] == a[1..] + b;
    }
  }

  /**
    The enrollment fence. Between issuing a proof and completing it, none of the events that
    void it can have succeeded: `before` runs up to such an event, `after` from it to completion.
   */
  lemma {:induction false} EnrollmentFence(d: Db, issue: Event, before: seq<Event>, ev: Event, after: seq<Event>, complete: Event)
    requires Inv(d) && issue.EvBeginEnrollment? && complete.EvCompleteEnrollment? && complete.token == issue.freshToken
    requires AdmissibleRun(d, [issue] + before + [ev] + after + [complete]) && Step(d, issue).Ok?
    requires Step(Final(d, [issue] + before), ev).Ok?
    requires Fences(Final(d, [issue] + before), ev, issue.identity.username, issue.freshToken)
    ensures Step(Final(d, [issue] + before + [ev] + after), complete).Err?
  {
    hide Inv, Admissible, Step, Fences, Later, Final, AdmissibleRun;
    var token := issue.freshToken;
    var upto := [issue] + before;
    RunSplits(d, [issue], before, [ev], after, [complete]);
    var d1 := Final(d, [issue]);
    Issued(d, issue);
    RunKeeps(d, [issue]);
    RunKeeps(d1, before);
    var d2 := Final(d1, before);
    UsedGrows(d1, d2, token);
    if token in d2.enrollment {
      ProofKeepsIdentity(d1, before, token);
    }
    FenceSpends(d2, ev, issue.identity.username, token);
    OneStep(d2, ev);
    RunKeeps(d2, [ev]);
    var d3 := Final(d2, [ev]);
    UsedGrows(d2, d3, token);
    SpentForever(d3, after, token);
    SpentFails(Final(d3, after), complete);
  }

  lemma {:induction false} OneStep(d: Db, ev: Event)
    ensures Final(d, [ev]) == After(d, ev)
    ensures AdmissibleRun(d, [ev]) <==> Admissible(d, ev)
  {
    hide After, Admissible;
    assert [ev][1..] == [];
  }

  lemma {:induction false} RunSplits(d: Db, a: seq<Event>, b: seq<Event>, c: seq<Event>, e: seq<Event>, f: seq<Event>)
    requires AdmissibleRun(d, a + b + c + e + f)
    ensures var d1 := Final(d, a); var d2 := Final(d1, b); var d3 := Final(d2, c);
      && AdmissibleRun(d, a) && AdmissibleRun(d1, b) && AdmissibleRun(d2, c) && AdmissibleRun(d3, e)
      && Final(d, a + b) == d2 && Final(d, a + b + c + e) == Final(d3, e)
  {
    hide Final, AdmissibleRun;
    FinalSplit(d, a, b);
    FinalSplit(d, a + b, c);
    FinalSplit(d, a + b + c, e);
    FinalSplit(d, a + b + c + e, f);
  }

  lemma {:induction false} Issued(d: Db, issue: Event)
    requires issue.EvBeginEnrollment? && Step(d, issue).Ok?
    ensures var e := Final(d, [issue]);
      && issue.freshToken in e.used && issue.freshToken in e.enrollment
      && e.enrollment[issue.freshToken].identity == issue.identity
  {
    hide FindUsername, MayEnroll, ValidIdentity, EnrollmentsKept;
    OneStep(d, issue);
  }

  lemma {:induction false} SpentFails(d: Db, complete: Event)
    requires complete.EvCompleteEnrollment? && Spent(d, complete.token)
    ensures Step(d, complete).Err?
  {
    hide FindUsername, MayEnroll;
  }

  /** Completion never turns a suspended, deleted or administratively denied account active. */
  lemma {:induction false} EnrollmentNeverReactivates(d: Db, ev: Event, id: Id)
    requires Inv(d) && Admissible(d, ev) && ev.EvCompleteEnrollment? && id in d.accounts
    requires d.accounts[id].denyEnrollment || d.accounts[id].status == Suspended || d.accounts[id].status == Deleted
    ensures id in After(d, ev).accounts && After(d, ev).accounts[id] == d.accounts[id]
  {
    hide KeysOk, PurgedOk, IntentsOk, LedgerOk, ProofCapsOk, ProofRowsOk, Assigned, RowsOk, Admissible, Step;

    FreshEnrollmentId(d, ev);
    EnrollmentRows(d, ev.token, ev.caller, ev.identity, ev.hash, ev.at, ev.freshId, id);
    CompleteIsStep(d, ev);
  }

  lemma {:induction false} FreshEnrollmentId(d: Db, ev: Event)
    requires Inv(d) && Admissible(d, ev) && ev.EvCompleteEnrollment?
    ensures ev.freshId !in d.accounts
  {
    hide Inv, UidTaken, Assigned;
    FreshAccountId(d, ev.freshId);
  }

  lemma {:induction false} CompleteIsStep(d: Db, ev: Event)
    requires ev.EvCompleteEnrollment?
    ensures Step(d, ev) == CompleteEnrollment(d, ev.token, ev.caller, ev.identity, ev.hash, ev.at, ev.freshId)
  {
    hide CompleteEnrollment;
  }

  lemma {:induction false} EnrollmentRows(d: Db, token: Id, caller: Caller, identity: Identity, hash: Option<string>,
                                          at: nat, drawn: Id, id: Id)
    requires id in d.accounts && drawn !in d.accounts
    requires d.accounts[id].denyEnrollment || d.accounts[id].status == Suspended || d.accounts[id].status == Deleted
    ensures var r := CompleteEnrollment(d, token, caller, identity, hash, at, drawn);
      r.Ok? ==> id in r.value.accounts && r.value.accounts[id] == d.accounts[id]
  {
    hide UidTaken, HasUsername, SameIdentity;
    var r := CompleteEnrollment(d, token, caller, identity, hash, at, drawn);
    var existing := FindUsername(d, identity.username);
    if r.Ok? && existing.Some? {
      assert MayEnroll(d.accounts[existing.value], identity);
      assert existing.value != id;
    }
  }

  /** Deletion is absorbing, and identity columns never change, over every run. */
  lemma {:induction false} DeletedForever(d: Db, run: seq<Event>, id: Id)
    requires Inv(d) && AdmissibleRun(d, run) && id in d.accounts
    ensures var e := Final(d, run);
      && id in e.accounts
      && (d.accounts[id].status == Deleted ==> e.accounts[id].status == Deleted)
      && e.accounts[id].uid == d.accounts[id].uid && e.accounts[id].username == d.accounts[id].username
      && e.accounts[id].owner == d.accounts[id].owner && e.accounts[id].kind == d.accounts[id].kind
      && e.accounts[id].generation >= d.accounts[id].generation
  {
    hide Inv, AdmissibleRun, Final, GrantsLater, EnrollmentLater, Assigned;
    RunKeeps(d, run);
    assert AccountLater(d, Final(d, run), id);
  }

  // ---------- UIDs ----------

  predicate Allocates(ev: Event, uid: nat) {
    (ev.EvReserveChild? || ev.EvReserveAdmin?) && ev.uid == uid
  }

  /** A UID handed out once is never handed out again: not after finalising, cancelling or purging. */
  lemma {:induction false} UidNeverReused(d: Db, first: Event, run: seq<Event>, second: Event, uid: nat)
    requires Inv(d) && AdmissibleRun(d, [first] + run)
    requires Allocates(first, uid) && Step(d, first).Ok? && Allocates(second, uid)
    ensures Step(Final(d, [first] + run), second).Err?
  {
    hide Inv, Admissible, Later, AccountsLater, Final, AdmissibleRun;
    FinalSplit(d, [first], run);
    OneStep(d, first);
    var e := Final(d, [first]);
    Allocated(d, first, uid);
    RunKeeps(d, [first]);
    RunKeeps(e, run);
    AssignedGrows(e, Final(e, run), uid);
  }

  lemma {:induction false} Allocated(d: Db, ev: Event, uid: nat)
    requires Allocates(ev, uid) && Step(d, ev).Ok?
    ensures uid in Assigned(After(d, ev))
  {
    hide Children, Pending, Delegated;
    assert After(d, ev).intents[ev.key].uid == uid;
  }

  lemma {:induction false} AssignedGrows(d: Db, e: Db, uid: nat)
    requires Later(d, e) && uid in Assigned(d)
    ensures uid in Assigned(e)
  {
    hide AccountsLater;
  }

  /** In every state that a run reaches, two holders of one UID are the same identity: one account, or a request and its account. */
  lemma {:induction false} OneHolderPerUid(run: seq<Event>, id: Id, other: Id, key: Key)
    requires AdmissibleRun(EMPTY, run) && id in Final(EMPTY, run).accounts
    ensures var d := Final(EMPTY, run);
      && (other in d.accounts && d.accounts[other].uid == d.accounts[id].uid ==> other == id)
      && (key in d.intents && d.intents[key].uid == d.accounts[id].uid ==> d.intents[key].account == Some(id))
  {
    hide Inv, Later, AdmissibleRun, Final;
    EmptyInv();
    RunKeeps(EMPTY, run);
    OneHolder(Final(EMPTY, run), id, other, key);
  }

  lemma {:induction false} OneHolder(d: Db, id: Id, other: Id, key: Key)
    requires Inv(d) && id in d.accounts
    ensures other in d.accounts && d.accounts[other].uid == d.accounts[id].uid ==> other == id
    ensures key in d.intents && d.intents[key].uid == d.accounts[id].uid ==> d.intents[key].account == Some(id)
  {
    hide KeysOk, PurgedOk, LedgerOk, ProofCapsOk, ProofRowsOk;
    if key in d.intents {
      assert IntentOk(d.accounts, d.intents[key]);
    }
  }
}
