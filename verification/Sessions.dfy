/** How long a session or an enrollment proof is good for: exactly until something ends it. */
module Sessions {
  import opened Types
  import opened Tables
  import opened Ops
  import opened Invariant
  import opened Evolution
  import opened Runs
  import opened Theorems
  import opened Columns

  // ---------- Session grants ----------

  predicate Bumps(d: Db, ev: Event, id: Id) {
    RevokesAuthority(d, ev, id) || (ev.EvCompleteEnrollment? && ByUser(d, id, ev.identity.username))
  }

  /**
    What ends a session: an event that gives its account a new generation, its own revocation, or the clean-up
    when another grant is issued at a time when it has already expired.
   */
  ghost predicate Ends(d: Db, ev: Event, g: SessionGrant) {
    Step(d, ev).Ok? &&
    (Bumps(d, ev, g.account) || (ev.EvRevokeGrant? && ev.grant == g) || (ev.EvIssueGrant? && g.expires <= ev.at))
  }

  /** The database side of a session: its row, unrevoked, and its account at that generation. */
  predicate Holds(d: Db, g: SessionGrant) {
    && g.nonce in d.grants && TokenOf(d, g.nonce) == g && !d.grants[g.nonce].revoked
    && VerifyGeneration(d, g.account, g.generation).Ok?
  }

  /** A grant is good for its own caller, until it expires, while the database holds it. */
  lemma {:induction false} GoodWhileHeld(d: Db, g: SessionGrant, caller: Caller, at: nat)
    ensures VerifyRestricted(d, g, caller, at).Ok? <==> Holds(d, g) && caller == g.caller && at < g.expires
  {
  }

  lemma {:induction false} RewrittenGeneration(d: Db, ev: Event, v: View)
    requires Targets(ev) && (ev.EvCopyCredentials? ==> ev.source in d.accounts)
    ensures Rewritten(d, ev, v).row.generation == v.row.generation + 1
  {
    hide Layered;
  }

  lemma {:induction false} WhoseGeneration(d: Db, ev: Event, id: Id)
    requires id in d.accounts
    ensures Targets(ev) ==> (Bumps(d, ev, id) <==> ev.id == id)
    ensures ev.EvRestore? ==> Bumps(d, ev, id)
    ensures ev.EvCompleteEnrollment? ==> (Bumps(d, ev, id) <==> d.accounts[id].username == ev.identity.username)
    ensures !Targets(ev) && !ev.EvRestore? && !ev.EvCompleteEnrollment? ==> !Bumps(d, ev, id)
  {
  }

  lemma {:induction false} AskedGeneration(d: Db, ev: Event, id: Id, v: View)
    requires id in d.accounts && v.row == d.accounts[id] && (ev.EvCopyCredentials? ==> ev.source in d.accounts)
    ensures var r, s := d.accounts[id], Asked(d, ev, id, v).row;
      && s.generation == r.generation + (if Bumps(d, ev, id) then 1 else 0)
      && (!Bumps(d, ev, id) ==> s == r.(undoHours := s.undoHours))
  {
    hide Rewritten, Bumps;
    WhoseGeneration(d, ev, id);
    if Targets(ev) {
      RewrittenGeneration(d, ev, v);
    }
  }

  lemma {:induction false} SourceExists(d: Db, ev: Event)
    requires ev.EvCopyCredentials? && Step(d, ev).Ok?
    ensures ev.source in d.accounts
  {
  }

  /** Generations move at exactly the events that are meant to move them, and without one the row's authority stays. */
  lemma {:induction false} GenerationMoves(d: Db, ev: Event, id: Id)
    requires Inv(d) && Admissible(d, ev) && Step(d, ev).Ok? && id in d.accounts
    ensures id in After(d, ev).accounts
    ensures var r, s := d.accounts[id], After(d, ev).accounts[id];
      && s.generation == r.generation + (if Bumps(d, ev, id) then 1 else 0)
      && (!Bumps(d, ev, id) ==> s == r.(undoHours := s.undoHours))
  {
    hide Inv, Admissible, Step, Asked, Bumps;
    if ev.EvCopyCredentials? {
      SourceExists(d, ev);
    }
    EventShows(d, ev, id);
    AskedGeneration(d, ev, id, ViewOf(d, id));
    assert After(d, ev).accounts[id] == ViewOf(After(d, ev), id).row;
  }

  // ---------- Grants over one event ----------

  lemma {:induction false} IssueKeepsGrant(d: Db, id: Id, generation: nat, caller: Caller, at: nat, lifetime: nat, nonce: Id,
                                           g: SessionGrant)
    requires IssueGrant(d, id, generation, caller, at, lifetime, nonce).Ok? && g.nonce != nonce && Holds(d, g)
    ensures Holds(IssueGrant(d, id, generation, caller, at, lifetime, nonce).value, g) <==> at < g.expires
  {
    hide GrantsOf, ValidCaller;
  }

  lemma {:induction false} RevokeKeepsGrant(d: Db, h: SessionGrant, caller: Caller, at: nat, g: SessionGrant)
    requires RevokeGrant(d, h, caller, at).Ok? && Holds(d, g)
    ensures Holds(RevokeGrant(d, h, caller, at).value, g) <==> h != g
  {
  }

  lemma {:induction false} QuotaProofs(d: Db, ev: Event)
    requires Step(d, ev).Ok?
    requires ev.EvSetPool? || ev.EvSetAdminBudget? || ev.EvSetAdminOwn? || ev.EvSetChildQuota?
    ensures After(d, ev).grants == d.grants && After(d, ev).enrollment == d.enrollment
  {
    hide CreateRecord, ReserveChild, ReserveAdmin, Finalize, CancelPending, BeginPurge, FinishPurge, SetPanelScope,
      SetRole, InvalidateRestored, CopyCredentials, RequirePasswordChange, SetPassword, Transition, SetPolicy,
      SetUndoPreferences, IssueGrant, RevokeGrant, BeginEnrollment, CompleteEnrollment, Children, Pending, Delegated,
      BudgetOf, OwnOf, Manage;
  }

  lemma {:induction false} RequestProofs(d: Db, ev: Event)
    requires Step(d, ev).Ok?
    requires ev.EvReserveChild? || ev.EvReserveAdmin? || ev.EvCancelPending? || ev.EvBeginPurge?
    ensures After(d, ev).grants == d.grants && After(d, ev).enrollment == d.enrollment
  {
    hide Step, After;
    RequestOnly(d, ev);
  }

  lemma {:induction false} CreateProofs(d: Db, ev: Event)
    requires Step(d, ev).Ok?
    requires ev.EvCreate? || ev.EvFinalize?
    ensures After(d, ev).grants == d.grants && After(d, ev).enrollment == d.enrollment
  {
    hide SetPool, SetAdminBudget, SetAdminOwn, SetChildQuota, ReserveChild, ReserveAdmin, CancelPending, BeginPurge,
      FinishPurge, SetPanelScope, SetRole, InvalidateRestored, CopyCredentials, RequirePasswordChange, SetPassword,
      Transition, SetPolicy, SetUndoPreferences, IssueGrant, RevokeGrant, BeginEnrollment, CompleteEnrollment, CreateCheck;
  }

  /** Neither grants nor proofs move. */
  ghost predicate SameProofTables(d: Db, e: Db) {
    e.grants == d.grants && e.enrollment == d.enrollment
  }

  lemma {:induction false} CopyProofs(d: Db, actor: Authority, source: Id, sg: nat, target: Id, tg: nat)
    requires CopyCredentials(d, actor, source, sg, target, tg).Ok?
    ensures SameProofTables(d, CopyCredentials(d, actor, source, sg, target, tg).value)
  {
  }

  lemma {:induction false} SetPasswordProofs(d: Db, actor: Authority, id: Id, hash: Option<string>, matchesOld: bool)
    requires SetPassword(d, actor, id, hash, matchesOld).Ok?
    ensures SameProofTables(d, SetPassword(d, actor, id, hash, matchesOld).value)
  {
    hide Authorized, Manage;
  }

  lemma {:induction false} RequireProofs(d: Db, actor: Authority, id: Id)
    requires RequirePasswordChange(d, actor, id).Ok?
    ensures SameProofTables(d, RequirePasswordChange(d, actor, id).value)
  {
  }

  lemma {:induction false} PreferencesProofs(d: Db, actor: Authority, maximum: nat, hours: Option<nat>, revision: nat)
    requires SetUndoPreferences(d, actor, maximum, hours, revision).Ok?
    ensures SameProofTables(d, SetUndoPreferences(d, actor, maximum, hours, revision).value)
  {
    hide Authorized;
  }

  lemma {:induction false} PasswordProofs(d: Db, ev: Event)
    requires Step(d, ev).Ok?
    requires ev.EvCopyCredentials? || ev.EvRequirePasswordChange? || ev.EvSetPassword? || ev.EvSetUndoPreferences?
    ensures After(d, ev).grants == d.grants && After(d, ev).enrollment == d.enrollment
  {
    hide SetPool, SetAdminBudget, SetAdminOwn, SetChildQuota, CreateRecord, ReserveChild, ReserveAdmin, Finalize,
      CancelPending, BeginPurge, FinishPurge, SetPanelScope, SetRole, InvalidateRestored, CopyCredentials,
      RequirePasswordChange, SetPassword, Transition, SetPolicy, SetUndoPreferences, IssueGrant, RevokeGrant,
      BeginEnrollment, CompleteEnrollment;
    match ev {
      case EvCopyCredentials(actor, source, sg, id, tg) => CopyProofs(d, actor, source, sg, id, tg);
      case EvRequirePasswordChange(actor, id) => RequireProofs(d, actor, id);
      case EvSetPassword(actor, id, hash, matchesOld) => SetPasswordProofs(d, actor, id, hash, matchesOld);
      case EvSetUndoPreferences(actor, maximum, hours, revision) => PreferencesProofs(d, actor, maximum, hours, revision);
    }
  }

  lemma {:induction false} FenceProofs(d: Db, ev: Event)
    requires Step(d, ev).Ok?
    requires ev.EvTransition? || ev.EvSetRole? || ev.EvSetPanelScope? || ev.EvSetPolicy?
    ensures After(d, ev).grants == d.grants
  {
    hide SetPool, SetAdminBudget, SetAdminOwn, SetChildQuota, CreateRecord, ReserveChild, ReserveAdmin, Finalize,
      CancelPending, BeginPurge, FinishPurge, InvalidateRestored, CopyCredentials, RequirePasswordChange, SetPassword,
      SetUndoPreferences, IssueGrant, RevokeGrant, BeginEnrollment, CompleteEnrollment, Authorized, Manage, WithoutUser,
      RulesOf, ReplaceLayer;
  }

  lemma {:induction false} EnrollmentGrants(d: Db, ev: Event)
    requires Step(d, ev).Ok? && (ev.EvBeginEnrollment? || ev.EvCompleteEnrollment?)
    ensures After(d, ev).grants == d.grants
  {
    hide BeginEnrollment, CompleteEnrollment, FindUsername;
    if ev.EvCompleteEnrollment? {
      EnrolledRow(d, ev.token, ev.caller, ev.identity, ev.hash, ev.at, ev.freshId);
    } else {
      BegunTables(d, ev.identity, ev.caller, ev.at, ev.lifetime, ev.freshToken);
    }
  }

  lemma {:induction false} BegunTables(d: Db, identity: Identity, caller: Caller, at: nat, lifetime: nat, token: Id)
    requires BeginEnrollment(d, identity, caller, at, lifetime, token).Ok?
    ensures var e := BeginEnrollment(d, identity, caller, at, lifetime, token).value;
      && e.grants == d.grants
      && e.enrollment == EnrollmentsKept(d.enrollment, identity, caller, at)[
           token := Enrollment(identity, caller, at + lifetime, false)]
  {
    hide FindUsername, MayEnroll, ValidIdentity, ValidCaller, EnrollmentsKept;
  }

  lemma {:induction false} PurgedGrants(d: Db, id: Id, g: SessionGrant)
    requires FinishPurge(d, id).Ok? && Holds(d, g) && id != g.account
    ensures var e := FinishPurge(d, id).value; g.nonce in e.grants && e.grants[g.nonce] == d.grants[g.nonce]
  {
  }

  /** The grant table keeps the row of a session, unless the event is one that drops or marks grants. */
  lemma {:induction false} GrantRow(d: Db, ev: Event, g: SessionGrant)
    requires Step(d, ev).Ok? && Holds(d, g) && !Bumps(d, ev, g.account) && !ev.EvIssueGrant? && !ev.EvRevokeGrant?
    ensures g.nonce in After(d, ev).grants && After(d, ev).grants[g.nonce] == d.grants[g.nonce]
  {
    hide Step;
    if ev.EvSetPool? || ev.EvSetAdminBudget? || ev.EvSetAdminOwn? || ev.EvSetChildQuota? {
      QuotaProofs(d, ev);
    } else if ev.EvReserveChild? || ev.EvReserveAdmin? || ev.EvCancelPending? || ev.EvBeginPurge? {
      RequestProofs(d, ev);
    } else if ev.EvCreate? || ev.EvFinalize? {
      CreateProofs(d, ev);
    } else if ev.EvCopyCredentials? || ev.EvRequirePasswordChange? || ev.EvSetPassword? || ev.EvSetUndoPreferences? {
      PasswordProofs(d, ev);
    } else if ev.EvTransition? || ev.EvSetRole? || ev.EvSetPanelScope? || ev.EvSetPolicy? {
      FenceProofs(d, ev);
    } else if ev.EvBeginEnrollment? || ev.EvCompleteEnrollment? {
      EnrollmentGrants(d, ev);
    } else {
      PurgeRow(d, ev, g);
    }
  }

  lemma {:induction false} PurgeRow(d: Db, ev: Event, g: SessionGrant)
    requires Step(d, ev).Ok? && Holds(d, g) && ev.EvFinishPurge? && ev.id != g.account
    ensures g.nonce in After(d, ev).grants && After(d, ev).grants[g.nonce] == d.grants[g.nonce]
  {
    hide FinishPurge, Holds;
    PurgedGrants(d, ev.id, g);
  }

  lemma {:induction false} HeldOn(d: Db, e: Db, g: SessionGrant)
    requires Holds(d, g) && g.nonce in e.grants && e.grants[g.nonce] == d.grants[g.nonce] && g.account in e.accounts
    requires var s := e.accounts[g.account]; s == d.accounts[g.account].(undoHours := s.undoHours)
    ensures Holds(e, g)
  {
  }

  lemma {:induction false} FreshNonce(d: Db, ev: Event, g: SessionGrant)
    requires Inv(d) && Admissible(d, ev) && ev.EvIssueGrant? && g.nonce in d.grants
    ensures g.nonce != ev.freshNonce
  {
    hide RowsOk, KeysOk, PurgedOk, IntentsOk, LedgerOk, ProofCapsOk, UidTaken, Assigned;
  }

  lemma {:induction false} GrantTableStep(d: Db, ev: Event, g: SessionGrant)
    requires Inv(d) && Admissible(d, ev) && Step(d, ev).Ok? && Holds(d, g) && (ev.EvIssueGrant? || ev.EvRevokeGrant?)
    ensures Holds(After(d, ev), g) <==> !Ends(d, ev, g)
  {
    hide Inv, Admissible, Holds, IssueGrant, RevokeGrant;
    if ev.EvIssueGrant? {
      HeldNonce(d, g);
      FreshNonce(d, ev, g);
      IssueKeepsGrant(d, ev.id, ev.generation, ev.caller, ev.at, ev.lifetime, ev.freshNonce, g);
    } else {
      RevokeKeepsGrant(d, ev.grant, ev.caller, ev.at, g);
    }
  }

  lemma {:induction false} HeldNonce(d: Db, g: SessionGrant)
    requires Holds(d, g)
    ensures g.nonce in d.grants && g.account in d.accounts && d.accounts[g.account].generation == g.generation
  {
  }

  /** One event ends a session if and only if it is meant to. */
  lemma {:induction false} SessionStep(d: Db, ev: Event, g: SessionGrant)
    requires Inv(d) && Admissible(d, ev) && Holds(d, g)
    ensures Holds(After(d, ev), g) <==> !Ends(d, ev, g)
  {
    hide Inv, Admissible, Step, Holds, Bumps, TokenOf;
    if Step(d, ev).Ok? {
      HeldNonce(d, g);
      GenerationMoves(d, ev, g.account);
      if Bumps(d, ev, g.account) {
        if Holds(After(d, ev), g) {
          HeldNonce(After(d, ev), g);
        }
      } else if ev.EvIssueGrant? || ev.EvRevokeGrant? {
        GrantTableStep(d, ev, g);
      } else {
        GrantRow(d, ev, g);
        HeldOn(d, After(d, ev), g);
      }
    }
  }

  ghost predicate Undisturbed(d: Db, run: seq<Event>, g: SessionGrant)
    decreases |run|
  {
    run != [] ==> !Ends(d, run[0], g) && Undisturbed(After(d, run[0]), run[1..], g)
  }

  /** A session that is gone is gone, whatever follows. */
  lemma {:induction false} GoneForGood(d: Db, run: seq<Event>, g: SessionGrant)
    requires Inv(d) && AdmissibleRun(d, run) && g.nonce in d.used && !Holds(d, g)
    ensures !Holds(Final(d, run), g)
  {
    hide Inv, Later, AdmissibleRun, Final, Holds;
    RunKeeps(d, run);
    if Holds(Final(d, run), g) {
      HeldBefore(d, Final(d, run), g);
    }
  }

  lemma {:induction false} HeldBefore(d: Db, e: Db, g: SessionGrant)
    requires Inv(d) && Later(d, e) && g.nonce in d.used && Holds(e, g)
    ensures Holds(d, g)
  {
    hide RowsOk, KeysOk, PurgedOk, IntentsOk, LedgerOk, ProofCapsOk, Assigned, EnrollmentLater;
    assert AccountLater(d, e, g.account);
  }

  /**
    A session lasts exactly until it expires or something ends it: over every run, a grant that is good now is good
    later if and only if it has not expired by then and no event of the run ended it.
   */
  lemma {:induction false} SessionLasts(d: Db, run: seq<Event>, g: SessionGrant, caller: Caller, at: nat, later: nat)
    requires Inv(d) && AdmissibleRun(d, run) && at <= later && VerifyRestricted(d, g, caller, at).Ok?
    ensures VerifyRestricted(Final(d, run), g, caller, later).Ok? <==> later < g.expires && Undisturbed(d, run, g)
  {
    hide Inv, AdmissibleRun, Final, Holds, VerifyRestricted, Undisturbed;
    GoodWhileHeld(d, g, caller, at);
    GoodWhileHeld(Final(d, run), g, caller, later);
    HeldThrough(d, run, g);
  }

  lemma {:induction false} HeldThrough(d: Db, run: seq<Event>, g: SessionGrant)
    requires Inv(d) && AdmissibleRun(d, run) && Holds(d, g)
    ensures Holds(Final(d, run), g) <==> Undisturbed(d, run, g)
    decreases |run|
  {
    hide Inv, Later, Admissible, Holds, Ends, Step, After;
    if run != [] {
      var e := After(d, run[0]);
      SessionStep(d, run[0], g);
      StepKeeps(d, run[0]);
      if Holds(e, g) {
        HeldThrough(e, run[1..], g);
      } else {
        HeldUsed(d, e, g);
        GoneForGood(e, run[1..], g);
      }
    }
  }

  lemma {:induction false} HeldUsed(d: Db, e: Db, g: SessionGrant)
    requires Inv(d) && Later(d, e) && Holds(d, g)
    ensures g.nonce in e.used
  {
    hide RowsOk, KeysOk, PurgedOk, IntentsOk, LedgerOk, ProofCapsOk, AccountsLater, GrantsLater, EnrollmentLater, Assigned;
  }

  /** After its revocation a grant is refused for good, and every other grant that was good still is. */
  lemma {:induction false} RevocationEnds(d: Db, ev: Event, run: seq<Event>, caller: Caller, later: nat, other: SessionGrant)
    requires Inv(d) && AdmissibleRun(d, [ev] + run) && ev.EvRevokeGrant? && Step(d, ev).Ok?
    ensures VerifyRestricted(Final(d, [ev] + run), ev.grant, caller, later).Err?
    ensures VerifyGrant(Final(d, [ev] + run), ev.grant, caller, later).Err?
    ensures other != ev.grant && VerifyRestricted(d, other, caller, later).Ok? ==>
      VerifyRestricted(After(d, ev), other, caller, later).Ok?
  {
    hide Inv, Step, Admissible, Final, Holds, VerifyRestricted, Bumps;
    var e := After(d, ev);
    FinalSplit(d, [ev], run);
    OneStep(d, ev);
    StepKeeps(d, ev) by {
      hide Later;
    }
    RevokedGrant(d, ev);
    SessionStep(d, ev, ev.grant);
    HeldUsed(d, e, ev.grant) by {
      hide Later;
    }
    GoneForGood(e, run, ev.grant);
    GoodWhileHeld(Final(e, run), ev.grant, caller, later);
    if other != ev.grant && VerifyRestricted(d, other, caller, later).Ok? {
      GoodWhileHeld(d, other, caller, later);
      RevokeIsQuiet(d, ev, other.account);
      SessionStep(d, ev, other);
      GoodWhileHeld(e, other, caller, later);
    }
  }

  lemma {:induction false} RevokeIsQuiet(d: Db, ev: Event, id: Id)
    requires ev.EvRevokeGrant?
    ensures !Bumps(d, ev, id)
  {
  }

  /** Only a grant that is good can be revoked. */
  lemma {:induction false} RevokedGrant(d: Db, ev: Event)
    requires ev.EvRevokeGrant? && Step(d, ev).Ok?
    ensures Holds(d, ev.grant)
  {
    hide Holds;
    GoodWhileHeld(d, ev.grant, ev.caller, ev.at);
  }

  /** An issued grant is good for exactly one caller, one account, one generation and one lifetime. */
  lemma {:induction false} IssuedIsGood(d: Db, ev: Event, g: SessionGrant, caller: Caller, later: nat)
    requires ev.EvIssueGrant? && Step(d, ev).Ok? && g.nonce == ev.freshNonce
    ensures VerifyRestricted(After(d, ev), g, caller, later).Ok? <==>
      && g == SessionGrant(ev.freshNonce, ev.id, ev.generation, ev.caller, ev.at + ev.lifetime)
      && caller == ev.caller && later < ev.at + ev.lifetime
    ensures VerifyGrant(After(d, ev), g, caller, later).Ok? <==>
      VerifyRestricted(After(d, ev), g, caller, later).Ok? && ev.id !in d.mustChange
  {
    hide LiveGrants, GrantsOf, ValidCaller;
  }

  /** The grants that still count against the caps: unexpired, not revoked, at their account's generation. */
  function Counting(d: Db, at: nat): set<Id> {
    set n | n in d.grants && at < d.grants[n].expires && !d.grants[n].revoked && d.grants[n].account in d.accounts
            && d.accounts[d.grants[n].account].generation == d.grants[n].generation
  }

  /** A session is given to every live account with a valid caller, up to 64 of its own and 8192 in all. */
  lemma {:induction false} IssueAccepted(d: Db, ev: Event)
    requires ev.EvIssueGrant?
    ensures Step(d, ev).Ok? <==>
      && ValidCaller(ev.caller) && 1 <= ev.lifetime <= 43200 && ev.at + ev.lifetime <= I64_MAX
      && ev.id in d.accounts && d.accounts[ev.id].status.Active? && d.accounts[ev.id].login
      && d.accounts[ev.id].generation == ev.generation
      && |Counting(d, ev.at)| < 8192 && |set n | n in Counting(d, ev.at) && d.grants[n].account == ev.id| < 64
  {
    hide ValidCaller;
    var kept := LiveGrants(d, ev.at);
    assert kept.Keys == Counting(d, ev.at);
    assert GrantsOf(kept, ev.id) == set n | n in Counting(d, ev.at) && d.grants[n].account == ev.id;
    assert |kept| == |kept.Keys|;
  }

  // ---------- Enrollment proofs ----------

  /** The database side of a proof: its row, not consumed. */
  predicate Unspent(d: Db, t: Id) {
    t in d.enrollment && !d.enrollment[t].consumed
  }

  predicate Replaces(ev: Event, p: Enrollment)
    requires ev.EvBeginEnrollment?
  {
    || p.expires <= ev.at
    || (p.identity.username == ev.identity.username && p.caller.uid == ev.caller.uid && p.caller.pid == ev.caller.pid)
  }

  /**
    What voids a proof: the administrative events on its user's account, a restore, its own completion, a new proof
    for the same user and process, and the clean-up at a time when it has expired.
   */
  ghost predicate Voids(d: Db, ev: Event, t: Id)
    requires t in d.enrollment
  {
    && Step(d, ev).Ok?
    && (Fences(d, ev, d.enrollment[t].identity.username, t) || (ev.EvBeginEnrollment? && Replaces(ev, d.enrollment[t])))
  }

  predicate Fencing(ev: Event) {
    ev.EvTransition? || ev.EvSetRole? || ev.EvSetPanelScope? || ev.EvSetPolicy?
  }

  /** Fencing removes the proofs of one user and leaves the others as they are. */
  lemma {:induction false} FenceLeaves(d: Db, ev: Event, t: Id)
    requires Fencing(ev) && Step(d, ev).Ok? && t in d.enrollment
    ensures Fences(d, ev, d.enrollment[t].identity.username, t) <==> t !in After(d, ev).enrollment
    ensures t in After(d, ev).enrollment ==> After(d, ev).enrollment[t] == d.enrollment[t]
  {
    hide Step, After;
    FenceDeletes(d, ev);
  }

  lemma {:induction false} BeginLeaves(d: Db, ev: Event, t: Id)
    requires ev.EvBeginEnrollment? && Step(d, ev).Ok? && Unspent(d, t) && t != ev.freshToken
    ensures Replaces(ev, d.enrollment[t]) <==> t !in After(d, ev).enrollment
    ensures t in After(d, ev).enrollment ==> After(d, ev).enrollment[t] == d.enrollment[t]
  {
    hide BeginEnrollment;
    BegunTables(d, ev.identity, ev.caller, ev.at, ev.lifetime, ev.freshToken);
  }

  lemma {:induction false} CompletionLeaves(d: Db, ev: Event, t: Id)
    requires ev.EvCompleteEnrollment? && Step(d, ev).Ok? && t in d.enrollment && t != ev.token
    ensures t in After(d, ev).enrollment && After(d, ev).enrollment[t] == d.enrollment[t]
  {
    hide CompleteEnrollment, FindUsername;
    EnrolledRow(d, ev.token, ev.caller, ev.identity, ev.hash, ev.at, ev.freshId);
  }

  lemma {:induction false} GrantProofs(d: Db, ev: Event)
    requires Step(d, ev).Ok? && (ev.EvIssueGrant? || ev.EvRevokeGrant? || ev.EvFinishPurge?)
    ensures After(d, ev).enrollment == d.enrollment
  {
    hide SetPool, SetAdminBudget, SetAdminOwn, SetChildQuota, CreateRecord, ReserveChild, ReserveAdmin, Finalize,
      CancelPending, BeginPurge, SetPanelScope, SetRole, InvalidateRestored, CopyCredentials, RequirePasswordChange,
      SetPassword, Transition, SetPolicy, SetUndoPreferences, BeginEnrollment, CompleteEnrollment, LiveGrants, GrantsOf,
      ValidCaller, VerifyRestricted;
  }

  lemma {:induction false} OtherwiseLeaves(d: Db, ev: Event)
    requires Step(d, ev).Ok? && !Fencing(ev) && !ev.EvBeginEnrollment? && !ev.EvCompleteEnrollment? && !ev.EvRestore?
    ensures After(d, ev).enrollment == d.enrollment
  {
    hide Step, After;
    if ev.EvSetPool? || ev.EvSetAdminBudget? || ev.EvSetAdminOwn? || ev.EvSetChildQuota? {
      QuotaProofs(d, ev);
    } else if ev.EvReserveChild? || ev.EvReserveAdmin? || ev.EvCancelPending? || ev.EvBeginPurge? {
      RequestProofs(d, ev);
    } else if ev.EvCreate? || ev.EvFinalize? {
      CreateProofs(d, ev);
    } else if ev.EvCopyCredentials? || ev.EvRequirePasswordChange? || ev.EvSetPassword? || ev.EvSetUndoPreferences? {
      PasswordProofs(d, ev);
    } else {
      GrantProofs(d, ev);
    }
  }

  lemma {:induction false} FreshToken(d: Db, ev: Event, t: Id)
    requires Inv(d) && Admissible(d, ev) && ev.EvBeginEnrollment? && t in d.enrollment
    ensures t != ev.freshToken
  {
    hide RowsOk, KeysOk, PurgedOk, IntentsOk, LedgerOk, ProofCapsOk, UidTaken, Assigned;
  }

  /** One event voids a proof if and only if it is meant to, and otherwise leaves it as it is. */
  lemma {:induction false} ProofStep(d: Db, ev: Event, t: Id)
    requires Inv(d) && Admissible(d, ev) && Unspent(d, t)
    ensures Unspent(After(d, ev), t) <==> !Voids(d, ev, t)
    ensures Unspent(After(d, ev), t) ==> After(d, ev).enrollment[t] == d.enrollment[t]
  {
    hide Inv, Admissible, Step, Replaces, ByUser;
    if Step(d, ev).Ok? {
      if Fencing(ev) {
        FenceLeaves(d, ev, t);
      } else if ev.EvBeginEnrollment? {
        FreshToken(d, ev, t);
        BeginLeaves(d, ev, t);
      } else if ev.EvRestore? {
        RestoreSpends(d, ev, t);
      } else if ev.EvCompleteEnrollment? {
        if t == ev.token {
          CompletionSpends(d, ev);
        } else {
          CompletionLeaves(d, ev, t);
        }
      } else {
        OtherwiseLeaves(d, ev);
      }
    }
  }

  ghost predicate Unvoided(d: Db, run: seq<Event>, t: Id)
    decreases |run|
  {
    run != [] ==> t in d.enrollment && !Voids(d, run[0], t) && Unvoided(After(d, run[0]), run[1..], t)
  }

  lemma {:induction false} UnspentThrough(d: Db, run: seq<Event>, t: Id)
    requires Inv(d) && AdmissibleRun(d, run) && Unspent(d, t)
    ensures Unspent(Final(d, run), t) <==> Unvoided(d, run, t)
    ensures Unspent(Final(d, run), t) ==> Final(d, run).enrollment[t] == d.enrollment[t]
    decreases |run|
  {
    hide Inv, Later, Admissible, Voids, Step, After;
    if run != [] {
      var e := After(d, run[0]);
      ProofStep(d, run[0], t);
      StepKeeps(d, run[0]);
      if Unspent(e, t) {
        UnspentThrough(e, run[1..], t);
      } else {
        TokenUsed(d, e, t);
        SpentForever(e, run[1..], t);
      }
    }
  }

  lemma {:induction false} TokenUsed(d: Db, e: Db, t: Id)
    requires Inv(d) && Later(d, e) && t in d.enrollment
    ensures t in e.used
  {
    hide RowsOk, KeysOk, PurgedOk, IntentsOk, LedgerOk, ProofCapsOk, AccountsLater, GrantsLater, EnrollmentLater, Assigned;
  }

  /** A proof lasts exactly until it expires or something voids it, over every run. */
  lemma {:induction false} ProofLasts(d: Db, run: seq<Event>, t: Id, caller: Caller, at: nat, later: nat)
    requires Inv(d) && AdmissibleRun(d, run) && at <= later && ProofLive(d, t, caller, at)
    ensures ProofLive(Final(d, run), t, caller, later) <==> later < d.enrollment[t].expires && Unvoided(d, run, t)
  {
    hide Inv, AdmissibleRun, Final, Unvoided;
    UnspentThrough(d, run, t);
  }

  /** A new proof is live for its own caller and lifetime, and carries the identity it was asked for. */
  lemma {:induction false} BegunIsLive(d: Db, ev: Event, caller: Caller, later: nat)
    requires ev.EvBeginEnrollment? && Step(d, ev).Ok?
    ensures var e := After(d, ev);
      && (ProofLive(e, ev.freshToken, caller, later) <==> caller == ev.caller && later < ev.at + ev.lifetime)
      && ev.freshToken in e.enrollment && e.enrollment[ev.freshToken].identity == ev.identity
  {
    hide BeginEnrollment;
    BegunTables(d, ev.identity, ev.caller, ev.at, ev.lifetime, ev.freshToken);
  }

  /** The account of this user, if there is one, is a Linux account of the same identity that may (still or again) enroll. */
  ghost predicate Enrollable(d: Db, identity: Identity) {
    forall id :: id in d.accounts && d.accounts[id].username == identity.username ==>
      var r := d.accounts[id];
      r.kind.Linux? && r.uid == identity.uid && r.gid == identity.gid && r.home == identity.home
      && !r.denyEnrollment && !r.status.Suspended? && !r.status.Deleted? && (r.hash.None? || r.status.Revoked?)
  }

  /** A live proof is completed exactly for its own identity, and where the account may enroll or can be created. */
  lemma {:induction false} CompletionAccepted(d: Db, ev: Event)
    requires Inv(d) && ev.EvCompleteEnrollment?
    ensures Step(d, ev).Ok? <==>
      && ProofLive(d, ev.token, ev.caller, ev.at) && d.enrollment[ev.token].identity == ev.identity && ev.hash.Some?
      && Enrollable(d, ev.identity)
      && (HasUsername(d, ev.identity.username) || !UidTaken(d, ev.identity.uid))
  {
    hide KeysOk, PurgedOk, IntentsOk, LedgerOk, ProofRowsOk, ProofCapsOk, UidTaken, Enrolled, FreshLinuxRow;
    CompleteIsStep(d, ev);
  }
}
