/** What accounts may do after a call: status, passwords, forced changes, panel scope and policy, as their readers answer. */
module Standing {
  import opened Types
  import opened Tables
  import opened Ops
  import opened Invariant
  import opened Evolution
  import opened Runs
  import opened Theorems
  import opened Columns
  import opened Sessions
  import opened Tenancy
  import opened Rooms

  // ---------- Readers ----------

  /** verify_password; `accepts` is the verdict on the typed password for every stored hash. */
  ghost function VerifyPassword(d: Db, name: string, accepts: string -> bool): Result<Id> {
    var found := FindUsername(d, name);
    if found.None? then Err(InvalidCredentials) else
    var r := d.accounts[found.value];
    if r.hash.Some? && accepts(r.hash.value) && r.login && r.status.Active? then Ok(found.value) else Err(InvalidCredentials)
  }

  /** policy: the rules of an account, for itself and for whoever may manage it. */
  function ReadPolicy(d: Db, actor: Authority, id: Id): Result<Rules> {
    var target :- Get(d, id);
    var caller :- Authorized(d, actor);
    var _ :- (if caller.Some? && caller.value != id then Manage(d, actor, target) else Ok(()));
    Ok(RulesOf(d, id))
  }

  // ---------- Status ----------

  /** The account may not log in. */
  predicate Shut(d: Db, id: Id) {
    id in d.accounts && !d.accounts[id].status.Active? && !d.accounts[id].login
  }

  /** Nobody is let in: no session is issued or accepted, no authority is live and no password verifies. */
  lemma {:induction false} ShutMeansOut(d: Db, id: Id, ev: Event, g: SessionGrant, caller: Caller, at: nat,
                                        generation: nat, accepts: string -> bool)
    requires Inv(d) && Shut(d, id)
    ensures ev.EvIssueGrant? && ev.id == id ==> Step(d, ev).Err?
    ensures g.account == id ==> VerifyRestricted(d, g, caller, at).Err? && VerifyGrant(d, g, caller, at).Err?
    ensures Authorized(d, Account(id, generation)).Err?
    ensures VerifyPassword(d, d.accounts[id].username, accepts).Err?
  {
    hide KeysOk, PurgedOk, IntentsOk, LedgerOk, ProofRowsOk, ProofCapsOk, LiveGrants, GrantsOf, ValidCaller;
    OneUser(d, id, d.accounts[id].username);
  }

  /** A transition leaves the status that was asked for, login exactly with Active, and every other account alone. */
  lemma {:induction false} StatusAsked(d: Db, ev: Event, other: Id)
    requires ev.EvTransition? && Step(d, ev).Ok?
    ensures ev.id in d.accounts && ev.id in After(d, ev).accounts
    ensures var r := After(d, ev).accounts[ev.id];
      && r.status == ev.status && (r.login <==> ev.status.Active?)
      && r.deletedAt == (if ev.status.Deleted? then Some(ev.at) else None)
      && (r.denyEnrollment <==> !ev.status.Active? && !(ev.status.Revoked? && r.kind.Linux? && ActorOf(ev.actor) == Some(ev.id)))
    ensures other in d.accounts && other != ev.id ==>
      other in After(d, ev).accounts && After(d, ev).accounts[other] == d.accounts[other]
  {
    hide WithoutUser, Manage;
  }

  /** What can open an account again: a transition to Active, or a completed enrollment of its user. */
  ghost predicate Reopens(d: Db, ev: Event, id: Id) {
    Step(d, ev).Ok? &&
    ((ev.EvTransition? && ev.id == id && ev.status.Active?) || (ev.EvCompleteEnrollment? && ByUser(d, id, ev.identity.username)))
  }

  lemma {:induction false} AskedShut(d: Db, ev: Event, id: Id, v: View)
    requires id in d.accounts && v.row == d.accounts[id] && !v.row.status.Active? && !v.row.login
    requires !(ev.EvTransition? && ev.id == id && ev.status.Active?)
    requires !(ev.EvCompleteEnrollment? && ByUser(d, id, ev.identity.username))
    ensures var r := Asked(d, ev, id, v).row; !r.status.Active? && !r.login
  {
    hide Layered;
  }

  lemma {:induction false} StaysShut(d: Db, ev: Event, id: Id)
    requires Inv(d) && Admissible(d, ev) && Shut(d, id) && !Reopens(d, ev, id)
    ensures Shut(After(d, ev), id)
  {
    hide Inv, Admissible, Step, Asked, ByUser;
    if Step(d, ev).Ok? {
      EventShows(d, ev, id);
      AskedShut(d, ev, id, ViewOf(d, id));
      assert After(d, ev).accounts[id] == ViewOf(After(d, ev), id).row;
    }
  }

  ghost predicate NeverReopened(d: Db, run: seq<Event>, id: Id)
    decreases |run|
  {
    run != [] ==> !Reopens(d, run[0], id) && NeverReopened(After(d, run[0]), run[1..], id)
  }

  lemma {:induction false} ShutThrough(d: Db, run: seq<Event>, id: Id)
    requires Inv(d) && AdmissibleRun(d, run) && Shut(d, id) && NeverReopened(d, run, id)
    ensures Inv(Final(d, run)) && Shut(Final(d, run), id)
    decreases |run|
  {
    hide Inv, Later, Admissible, Shut, Reopens, After;
    if run != [] {
      StaysShut(d, run[0], id);
      StepKeeps(d, run[0]);
      ShutThrough(After(d, run[0]), run[1..], id);
    }
  }

  /**
    From a transition away from Active until the account is opened again nobody gets in: whatever runs in between,
    no session of any generation is issued or accepted, no authority of the account is live and no password verifies.
   */
  lemma {:induction false} ShutUntilReopened(d: Db, ev: Event, run: seq<Event>, issue: Event, g: SessionGrant, caller: Caller,
                                             at: nat, generation: nat, accepts: string -> bool)
    requires Inv(d) && AdmissibleRun(d, [ev] + run) && ev.EvTransition? && !ev.status.Active? && Step(d, ev).Ok?
    requires NeverReopened(After(d, ev), run, ev.id)
    ensures var e := Final(d, [ev] + run);
      && ev.id in e.accounts
      && (issue.EvIssueGrant? && issue.id == ev.id ==> Step(e, issue).Err?)
      && (g.account == ev.id ==> VerifyRestricted(e, g, caller, at).Err? && VerifyGrant(e, g, caller, at).Err?)
      && Authorized(e, Account(ev.id, generation)).Err?
      && VerifyPassword(e, e.accounts[ev.id].username, accepts).Err?
  {
    hide Inv, Later, Step, Admissible, Final, AdmissibleRun, VerifyRestricted, VerifyGrant, VerifyPassword, Authorized, NeverReopened;
    FinalSplit(d, [ev], run);
    OneStep(d, ev);
    StepKeeps(d, ev);
    StatusAsked(d, ev, ev.id);
    ShutThrough(After(d, ev), run, ev.id);
    ShutMeansOut(Final(d, [ev] + run), ev.id, issue, g, caller, at, generation, accepts);
  }

  /** A denied account: shut, and its enrollment is refused. */
  predicate Denied(d: Db, id: Id) {
    Shut(d, id) && d.accounts[id].denyEnrollment
  }

  lemma {:induction false} AskedDenied(d: Db, ev: Event, id: Id, v: View)
    requires id in d.accounts && v.row == d.accounts[id] && !v.row.status.Active? && !v.row.login && v.row.denyEnrollment
    requires !(ev.EvTransition? && ev.id == id && ev.status.Active?)
    requires ev.EvTransition? && ev.id == id && ev.actor.Account? ==> ev.actor.id != id
    requires !(ev.EvCompleteEnrollment? && ByUser(d, id, ev.identity.username))
    ensures var r := Asked(d, ev, id, v).row; !r.status.Active? && !r.login && r.denyEnrollment
  {
    hide Layered;
  }

  /** Nothing but an accepted transition to Active opens a denied account: not even an enrollment of its user. */
  lemma {:induction false} StaysDenied(d: Db, ev: Event, id: Id)
    requires Inv(d) && Admissible(d, ev) && Denied(d, id)
    requires !(ev.EvTransition? && ev.id == id && ev.status.Active? && Step(d, ev).Ok?)
    ensures Denied(After(d, ev), id)
  {
    hide Inv, Admissible, Step, Asked, ByUser;
    if Step(d, ev).Ok? {
      DeniedActs(d, ev, id);
      EventShows(d, ev, id);
      AskedDenied(d, ev, id, ViewOf(d, id));
      assert After(d, ev).accounts[id] == ViewOf(After(d, ev), id).row;
    }
  }

  /** A denied account neither acts for itself nor completes an enrollment. */
  lemma {:induction false} DeniedActs(d: Db, ev: Event, id: Id)
    requires Inv(d) && Denied(d, id) && Step(d, ev).Ok?
    ensures ev.EvTransition? && ev.actor.Account? ==> ev.actor.id != id
    ensures !(ev.EvCompleteEnrollment? && ByUser(d, id, ev.identity.username))
  {
    hide Inv, Step;
    if ev.EvCompleteEnrollment? {
      CompletionAccepted(d, ev);
    } else if ev.EvTransition? {
      LiveActor(d, ev);
    }
  }

  lemma {:induction false} LiveActor(d: Db, ev: Event)
    requires ev.EvTransition? && Step(d, ev).Ok?
    ensures ev.actor.Account? ==> ev.actor.id in d.accounts && d.accounts[ev.actor.id].status.Active?
  {
    hide WithoutUser, Manage;
  }

  ghost predicate NeverActivated(d: Db, run: seq<Event>, id: Id)
    decreases |run|
  {
    run != [] ==>
      && !(run[0].EvTransition? && run[0].id == id && run[0].status.Active? && Step(d, run[0]).Ok?)
      && NeverActivated(After(d, run[0]), run[1..], id)
  }

  /** A suspended, deleted or administratively revoked account stays shut until it is made active, in every run. */
  lemma {:induction false} DeniedThrough(d: Db, run: seq<Event>, id: Id)
    requires Inv(d) && AdmissibleRun(d, run) && Denied(d, id) && NeverActivated(d, run, id)
    ensures Denied(Final(d, run), id)
    decreases |run|
  {
    hide Inv, Later, Admissible, Denied, Step, After;
    if run != [] {
      StaysDenied(d, run[0], id);
      StepKeeps(d, run[0]);
      DeniedThrough(After(d, run[0]), run[1..], id);
    }
  }

  /** In every state that a run reaches, login, deletion time and enrollment denial say what the status says. */
  predicate RowCoherent(r: Row) {
    && (r.login <==> r.status.Active?) && (r.deletedAt.Some? <==> r.status.Deleted?)
    && (r.status.Active? ==> !r.denyEnrollment) && (r.status.Suspended? || r.status.Deleted? ==> r.denyEnrollment)
  }

  ghost predicate Coherent(d: Db) {
    forall id :: id in d.accounts ==> RowCoherent(d.accounts[id])
  }

  lemma {:induction false} AskedCoherent(d: Db, ev: Event, id: Id, v: View)
    requires RowCoherent(v.row) && (ev.EvCompleteEnrollment? && ev.identity.username == v.row.username ==> !v.row.status.Deleted?)
    ensures RowCoherent(Asked(d, ev, id, v).row)
  {
    hide Layered;
  }

  lemma {:induction false} EnrollsLive(d: Db, ev: Event, id: Id)
    requires Inv(d) && ev.EvCompleteEnrollment? && Step(d, ev).Ok? && ByUser(d, id, ev.identity.username)
    ensures !d.accounts[id].status.Deleted?
  {
    hide Inv, Step;
    CompletionAccepted(d, ev);
  }

  lemma {:induction false} CoherentRow(d: Db, ev: Event, id: Id)
    requires Inv(d) && Admissible(d, ev) && Coherent(d) && Step(d, ev).Ok? && id in After(d, ev).accounts
    ensures RowCoherent(After(d, ev).accounts[id])
  {
    hide Inv, Admissible, Step, After, Asked;
    if id in d.accounts {
      assert RowCoherent(d.accounts[id]);
      if ev.EvCompleteEnrollment? && ev.identity.username == d.accounts[id].username {
        EnrollsLive(d, ev, id);
      }
      EventShows(d, ev, id);
      AskedCoherent(d, ev, id, ViewOf(d, id));
      assert After(d, ev).accounts[id] == ViewOf(After(d, ev), id).row;
    } else {
      Born(d, ev, id);
    }
  }

  lemma {:induction false} CoherentRun(d: Db, run: seq<Event>)
    requires Inv(d) && AdmissibleRun(d, run) && Coherent(d)
    ensures Coherent(Final(d, run))
    decreases |run|
  {
    hide Inv, Later, Admissible, RowCoherent, Step;
    if run != [] {
      var e := After(d, run[0]);
      forall id | id in e.accounts ensures RowCoherent(e.accounts[id]) {
        if Step(d, run[0]).Ok? {
          CoherentRow(d, run[0], id);
        }
      }
      StepKeeps(d, run[0]);
      CoherentRun(e, run[1..]);
    }
  }

  lemma {:induction false} StatusSaysAll(run: seq<Event>, id: Id)
    requires AdmissibleRun(EMPTY, run) && id in Final(EMPTY, run).accounts
    ensures RowCoherent(Final(EMPTY, run).accounts[id])
  {
    hide Inv, AdmissibleRun, Final, RowCoherent;
    EmptyInv();
    CoherentRun(EMPTY, run);
  }

  // ---------- Passwords ----------

  /** The events that write the stored password of an account. */
  predicate WritesPassword(d: Db, ev: Event, id: Id) {
    match ev
    case EvSetPassword(_, i, _, _) => i == id
    case EvCopyCredentials(_, _, _, i, _) => i == id
    case EvFinishPurge(i) => i == id
    case EvCompleteEnrollment(_, _, identity, _, _, _) => ByUser(d, id, identity.username)
    case _ => false
  }

  lemma {:induction false} AskedPassword(d: Db, ev: Event, id: Id, v: View)
    requires id in d.accounts && v.row == d.accounts[id]
    ensures !WritesPassword(d, ev, id) ==> Asked(d, ev, id, v).row.hash == v.row.hash
    ensures ev.EvSetPassword? && ev.id == id ==> Asked(d, ev, id, v).row.hash == ev.hash && !Asked(d, ev, id, v).flag
    ensures ev.EvCompleteEnrollment? && ByUser(d, id, ev.identity.username) ==> Asked(d, ev, id, v).row.hash == ev.hash
    ensures ev.EvFinishPurge? && ev.id == id ==> Asked(d, ev, id, v).row.hash.None?
    ensures ev.EvCopyCredentials? && ev.id == id && ev.source in d.accounts ==>
      Asked(d, ev, id, v).row.hash == d.accounts[ev.source].hash && (Asked(d, ev, id, v).flag <==> ev.source in d.mustChange)
    ensures Asked(d, ev, id, v).row.username == v.row.username
  {
    hide Layered;
  }

  /** What became of the stored password of one account, and of its flag. */
  predicate PasswordAfter(d: Db, ev: Event, e: Db, id: Id) {
    && id in d.accounts && id in e.accounts
    && var r, s := d.accounts[id], e.accounts[id];
    && s.username == r.username
    && (!WritesPassword(d, ev, id) ==> s.hash == r.hash)
    && (ev.EvSetPassword? && ev.id == id ==> s.hash == ev.hash && id !in e.mustChange)
    && (ev.EvCompleteEnrollment? && ByUser(d, id, ev.identity.username) ==> s.hash == ev.hash)
    && (ev.EvFinishPurge? && ev.id == id ==> s.hash.None?)
    && (ev.EvCopyCredentials? && ev.id == id && ev.source in d.accounts ==>
          s.hash == d.accounts[ev.source].hash && (id in e.mustChange <==> ev.source in d.mustChange))
  }

  lemma {:induction false} PasswordMoves(d: Db, ev: Event, id: Id)
    requires Inv(d) && Admissible(d, ev) && Step(d, ev).Ok? && id in d.accounts
    ensures PasswordAfter(d, ev, After(d, ev), id)
  {
    hide Inv, Admissible, Step, Asked, WritesPassword, ByUser;
    EventShows(d, ev, id);
    AskedPassword(d, ev, id, ViewOf(d, id));
    assert After(d, ev).accounts[id] == ViewOf(After(d, ev), id).row;
  }

  /** Which passwords verify depends on one row, that of the user. */
  lemma {:induction false} VerifiesByRow(d: Db, id: Id, accepts: string -> bool)
    requires Inv(d) && id in d.accounts
    ensures var r := d.accounts[id];
      VerifyPassword(d, r.username, accepts) ==
      if r.hash.Some? && accepts(r.hash.value) && r.login && r.status.Active? then Ok(id) else Err(InvalidCredentials)
  {
    hide KeysOk, PurgedOk, IntentsOk, LedgerOk, ProofRowsOk, ProofCapsOk, FindUsername;
    OneUser(d, id, d.accounts[id].username);
  }

  ghost predicate PasswordKept(d: Db, run: seq<Event>, id: Id)
    decreases |run|
  {
    run != [] ==>
      !(WritesPassword(d, run[0], id) && Step(d, run[0]).Ok?) && PasswordKept(After(d, run[0]), run[1..], id)
  }

  lemma {:induction false} HashStays(d: Db, run: seq<Event>, id: Id)
    requires Inv(d) && AdmissibleRun(d, run) && id in d.accounts && PasswordKept(d, run, id)
    ensures id in Final(d, run).accounts && Final(d, run).accounts[id].hash == d.accounts[id].hash
    ensures Final(d, run).accounts[id].username == d.accounts[id].username
    decreases |run|
  {
    hide Inv, Later, Admissible, WritesPassword, Step;
    if run != [] {
      if Step(d, run[0]).Ok? {
        PasswordMoves(d, run[0], id);
      }
      StepKeeps(d, run[0]);
      HashStays(After(d, run[0]), run[1..], id);
    }
  }

  /**
    From the moment a password is set until another event writes one, exactly the passwords that its hash accepts
    verify, as long as the account may log in.
   */
  lemma {:induction false} PasswordStored(d: Db, ev: Event, run: seq<Event>, accepts: string -> bool)
    requires Inv(d) && AdmissibleRun(d, [ev] + run) && ev.EvSetPassword? && Step(d, ev).Ok?
    requires PasswordKept(After(d, ev), run, ev.id)
    ensures var e := Final(d, [ev] + run);
      && ev.id in d.accounts && ev.id in e.accounts && ev.hash.Some?
      && VerifyPassword(e, d.accounts[ev.id].username, accepts) ==
         (if accepts(ev.hash.value) && e.accounts[ev.id].login && e.accounts[ev.id].status.Active? then Ok(ev.id)
          else Err(InvalidCredentials))
  {
    hide Inv, Step, Admissible, Final, AdmissibleRun, VerifyPassword, PasswordKept, WritesPassword;
    FinalSplit(d, [ev], run);
    OneStep(d, ev);
    StepKeeps(d, ev) by {
      hide Later;
    }
    RunKeeps(After(d, ev), run) by {
      hide Later;
    }
    PasswordTarget(d, ev);
    PasswordMoves(d, ev, ev.id);
    HashStays(After(d, ev), run, ev.id);
    VerifiesByRow(Final(d, [ev] + run), ev.id, accepts);
  }

  lemma {:induction false} PasswordTarget(d: Db, ev: Event)
    requires ev.EvSetPassword? && Step(d, ev).Ok?
    ensures ev.id in d.accounts && ev.hash.Some?
  {
    hide Manage, Authorized;
  }

  /** A migrated administrator verifies exactly the source's passwords, and has to change them if the source had to. */
  lemma {:induction false} CredentialsCopied(d: Db, ev: Event, accepts: string -> bool)
    requires Inv(d) && Coherent(d) && ev.EvCopyCredentials? && Step(d, ev).Ok?
    ensures var e := After(d, ev);
      && ev.source in d.accounts && ev.id in d.accounts && ev.id in e.accounts
      && (VerifyPassword(e, d.accounts[ev.id].username, accepts).Ok? <==>
            VerifyPassword(d, d.accounts[ev.source].username, accepts).Ok?)
      && (ev.id in e.mustChange <==> ev.source in d.mustChange)
  {
    hide Inv, Step, VerifyPassword, WritesPassword;
    CopyTarget(d, ev);
    assert RowCoherent(d.accounts[ev.source]) && RowCoherent(d.accounts[ev.id]);
    StepKeeps(d, ev) by {
      hide Later;
    }
    PasswordMoves(d, ev, ev.id);
    CopyLeavesLogin(d, ev);
    VerifiesByRow(d, ev.source, accepts);
    VerifiesByRow(After(d, ev), ev.id, accepts);
  }

  lemma {:induction false} CopyTarget(d: Db, ev: Event)
    requires ev.EvCopyCredentials? && Step(d, ev).Ok?
    ensures ev.source in d.accounts && ev.id in d.accounts && d.accounts[ev.source].hash.Some?
    ensures d.accounts[ev.source].status.Active? && d.accounts[ev.id].status.Active?
  {
  }

  lemma {:induction false} CopyLeavesLogin(d: Db, ev: Event)
    requires ev.EvCopyCredentials? && Step(d, ev).Ok?
    ensures ev.id in d.accounts && ev.id in After(d, ev).accounts
    ensures var r, s := d.accounts[ev.id], After(d, ev).accounts[ev.id]; s.status == r.status && s.login == r.login
  {
  }

  // ---------- Forced password changes ----------

  lemma {:induction false} AskedFlag(d: Db, ev: Event, id: Id, v: View)
    requires v.flag && !(ev.EvSetPassword? && ev.id == id) && !(ev.EvCopyCredentials? && ev.id == id)
    ensures Asked(d, ev, id, v).flag
  {
    hide Layered;
  }

  ghost predicate NotChanged(d: Db, run: seq<Event>, id: Id)
    decreases |run|
  {
    run != [] ==>
      && !(((run[0].EvSetPassword? && run[0].id == id) || (run[0].EvCopyCredentials? && run[0].id == id)) && Step(d, run[0]).Ok?)
      && NotChanged(After(d, run[0]), run[1..], id)
  }

  lemma {:induction false} FlagStays(d: Db, run: seq<Event>, id: Id)
    requires Inv(d) && AdmissibleRun(d, run) && id in d.accounts && id in d.mustChange && NotChanged(d, run, id)
    ensures id in Final(d, run).mustChange
    decreases |run|
  {
    hide Inv, Later, Admissible, Step, Asked;
    if run != [] {
      if Step(d, run[0]).Ok? {
        EventShows(d, run[0], id);
        AskedFlag(d, run[0], id, ViewOf(d, id));
        assert id in After(d, run[0]).mustChange <==> ViewOf(After(d, run[0]), id).flag;
      }
      StepKeeps(d, run[0]);
      FlagStays(After(d, run[0]), run[1..], id);
    }
  }

  lemma {:induction false} FlagSet(d: Db, ev: Event)
    requires ev.EvRequirePasswordChange? && Step(d, ev).Ok?
    ensures ev.id in d.accounts && ev.id in After(d, ev).accounts && ev.id in After(d, ev).mustChange
  {
  }

  /**
    Once Root asks for a new password, every session of the account, old or new, is refused for normal use until
    the password is changed; a session issued meanwhile is still good for changing it.
   */
  lemma {:induction false} RestrictedUntilChanged(d: Db, ev: Event, run: seq<Event>, issue: Event, g: SessionGrant, caller: Caller,
                                                  at: nat)
    requires Inv(d) && AdmissibleRun(d, [ev] + run) && ev.EvRequirePasswordChange? && Step(d, ev).Ok?
    requires NotChanged(After(d, ev), run, ev.id)
    ensures var e := Final(d, [ev] + run);
      && (g.account == ev.id ==> VerifyGrant(e, g, caller, at).Err?)
      && (issue.EvIssueGrant? && issue.id == ev.id && Step(e, issue).Ok? && g.nonce == issue.freshNonce ==>
            && VerifyGrant(After(e, issue), g, caller, at).Err?
            && (g == SessionGrant(issue.freshNonce, ev.id, issue.generation, issue.caller, issue.at + issue.lifetime)
                && caller == issue.caller && at < issue.at + issue.lifetime ==>
                  VerifyRestricted(After(e, issue), g, caller, at).Ok?))
  {
    hide Inv, Later, Step, Admissible, Final, AdmissibleRun, VerifyRestricted, VerifyGrant, After, NotChanged;
    FinalSplit(d, [ev], run);
    OneStep(d, ev);
    StepKeeps(d, ev);
    FlagSet(d, ev);
    FlagStays(After(d, ev), run, ev.id);
    var e := Final(d, [ev] + run);
    if g.account == ev.id {
      FlagRefuses(e, g, caller, at);
    }
    if issue.EvIssueGrant? && issue.id == ev.id && Step(e, issue).Ok? && g.nonce == issue.freshNonce {
      IssuedIsGood(e, issue, g, caller, at);
    }
  }

  lemma {:induction false} FlagRefuses(d: Db, g: SessionGrant, caller: Caller, at: nat)
    requires g.account in d.mustChange
    ensures VerifyGrant(d, g, caller, at).Err?
  {
    hide VerifyRestricted;
  }

  // ---------- Panel scope, role and policy ----------

  /** Root's choice of panel scope and role is what is read back; a role change resets the scope to the role's. */
  lemma {:induction false} ScopeStored(d: Db, ev: Event)
    requires (ev.EvSetPanelScope? || ev.EvSetRole?) && Step(d, ev).Ok?
    ensures ev.id in d.accounts && ev.id in After(d, ev).accounts
    ensures ev.EvSetPanelScope? ==> (GlobalAdmin(After(d, ev), ev.id) <==> ev.global)
    ensures ev.EvSetRole? ==>
      After(d, ev).accounts[ev.id].role == ev.role && (GlobalAdmin(After(d, ev), ev.id) <==> ev.role.Admin?)
  {
    hide WithoutUser;
  }

  /** The layer that was written reads back as it was written, the other two layers and other accounts as before. */
  lemma {:induction false} PolicyStored(d: Db, ev: Event, other: Id)
    requires ev.EvSetPolicy? && Step(d, ev).Ok?
    ensures ev.id in d.accounts && ReadPolicy(d, Root, ev.id).Ok? && ReadPolicy(After(d, ev), Root, ev.id).Ok?
    ensures var before, after := ReadPolicy(d, Root, ev.id).value, ReadPolicy(After(d, ev), Root, ev.id).value;
      && after.root == (if ev.layer.RootLayer? then ev.rules else before.root)
      && after.admin == (if ev.layer.AdminLayer? then ev.rules else before.admin)
      && after.personal == (if ev.layer.PersonalLayer? then ev.rules else before.personal)
    ensures other != ev.id ==> ReadPolicy(After(d, ev), Root, other) == ReadPolicy(d, Root, other)
  {
    hide WithoutUser, Manage, RulesFit;
  }

  // ---------- Calls that name a generation ----------

  /** The account and generation that a call says it has seen. */
  predicate Names(ev: Event, id: Id, generation: nat) {
    match ev
    case EvSetChildQuota(_, i, g, _) => i == id && g == generation
    case EvTransition(_, i, _, _, expected, _) => i == id && expected == Some(generation)
    case EvSetPolicy(_, i, g, _, _, _) => i == id && g == generation
    case EvCopyCredentials(_, source, sg, i, g) => (i == id && g == generation) || (source == id && sg == generation)
    case EvIssueGrant(i, g, _, _, _, _) => i == id && g == generation
    case EvReserveChild(i, g, _, _, _, _) => i == id && g == generation
    case _ => false
  }

  /** The authority that a call is made with. */
  predicate ActsWith(ev: Event, id: Id, generation: nat) {
    match ev
    case EvSetChildQuota(actor, _, _, _) => actor == Account(id, generation)
    case EvCreate(actor, _, _, _) => actor == Account(id, generation)
    case EvFinalize(actor, _, _, _, _) => actor == Account(id, generation)
    case EvSetPassword(actor, _, _, _) => actor == Account(id, generation)
    case EvTransition(actor, _, _, _, _, _) => actor == Account(id, generation)
    case EvSetPolicy(actor, _, _, _, _, _) => actor == Account(id, generation)
    case EvSetUndoPreferences(actor, _, _, _) => actor == Account(id, generation)
    case _ => false
  }

  lemma {:induction false} StaleRefused(d: Db, ev: Event, id: Id, generation: nat)
    requires id in d.accounts ==> d.accounts[id].generation != generation
    requires Names(ev, id, generation) || ActsWith(ev, id, generation)
    ensures Step(d, ev).Err?
  {
    hide Step, Names, ActsWith;
    if ev.EvSetChildQuota? || ev.EvReserveChild? || ev.EvIssueGrant? {
      StaleQuota(d, ev, id, generation);
    } else if ev.EvCreate? || ev.EvFinalize? {
      StaleCreate(d, ev, id, generation);
    } else {
      StaleManage(d, ev, id, generation);
    }
  }

  lemma {:induction false} StaleQuota(d: Db, ev: Event, id: Id, generation: nat)
    requires id in d.accounts ==> d.accounts[id].generation != generation
    requires Names(ev, id, generation) || ActsWith(ev, id, generation)
    requires ev.EvSetChildQuota? || ev.EvReserveChild? || ev.EvIssueGrant?
    ensures Step(d, ev).Err?
  {
    hide SetPool, SetAdminBudget, SetAdminOwn, CreateRecord, ReserveAdmin, Finalize, CancelPending, BeginPurge,
      FinishPurge, SetPanelScope, SetRole, InvalidateRestored, CopyCredentials, RequirePasswordChange, SetPassword,
      Transition, SetPolicy, SetUndoPreferences, RevokeGrant, BeginEnrollment, CompleteEnrollment, Children, Pending,
      BudgetOf, OwnOf, LiveGrants, GrantsOf, ValidCaller, Assigned;
  }

  lemma {:induction false} StaleCreate(d: Db, ev: Event, id: Id, generation: nat)
    requires id in d.accounts ==> d.accounts[id].generation != generation
    requires Names(ev, id, generation) || ActsWith(ev, id, generation)
    requires ev.EvCreate? || ev.EvFinalize?
    ensures Step(d, ev).Err?
  {
    hide SetPool, SetAdminBudget, SetAdminOwn, SetChildQuota, ReserveChild, ReserveAdmin, CancelPending, BeginPurge,
      FinishPurge, SetPanelScope, SetRole, InvalidateRestored, CopyCredentials, RequirePasswordChange, SetPassword,
      Transition, SetPolicy, SetUndoPreferences, IssueGrant, RevokeGrant, BeginEnrollment, CompleteEnrollment, ChildRoom,
      RootRoom, HasUsername, UidTaken, ValidIdentity;
  }

  lemma {:induction false} StaleManage(d: Db, ev: Event, id: Id, generation: nat)
    requires id in d.accounts ==> d.accounts[id].generation != generation
    requires Names(ev, id, generation) || ActsWith(ev, id, generation)
    requires !ev.EvSetChildQuota? && !ev.EvReserveChild? && !ev.EvIssueGrant? && !ev.EvCreate? && !ev.EvFinalize?
    ensures Step(d, ev).Err?
  {
    hide SetPool, SetAdminBudget, SetAdminOwn, SetChildQuota, CreateRecord, ReserveChild, ReserveAdmin, Finalize,
      CancelPending, BeginPurge, FinishPurge, SetPanelScope, SetRole, InvalidateRestored, RequirePasswordChange,
      IssueGrant, RevokeGrant, BeginEnrollment, CompleteEnrollment, WithoutUser, RulesOf, ReplaceLayer, Bump;
  }

  /** No lost updates: what named a generation, or acted with one, fails for good once an accepted event has moved it on. */
  lemma {:induction false} StaleForGood(d: Db, ev: Event, run: seq<Event>, id: Id, generation: nat, stale: Event)
    requires Inv(d) && AdmissibleRun(d, [ev] + run) && Step(d, ev).Ok?
    requires id in d.accounts && Bumps(d, ev, id) && generation <= d.accounts[id].generation
    requires Names(stale, id, generation) || ActsWith(stale, id, generation)
    ensures Step(Final(d, [ev] + run), stale).Err?
  {
    hide Inv, Later, Step, Admissible, Final, AdmissibleRun, Names, ActsWith, Bumps;
    FinalSplit(d, [ev], run);
    OneStep(d, ev);
    StepKeeps(d, ev);
    GenerationMoves(d, ev, id);
    DeletedForever(After(d, ev), run, id);
    StaleRefused(Final(d, [ev] + run), stale, id, generation);
  }

  // ---------- Undo preferences ----------

  function RevisionOf(d: Db, id: Id): nat {
    if id in d.revisions then d.revisions[id] else 0
  }

  lemma {:induction false} AskedRevision(d: Db, ev: Event, id: Id, v: View)
    ensures Asked(d, ev, id, v).revision >= v.revision
    ensures ev.EvSetUndoPreferences? && ActorOf(ev.actor) == Some(id) ==>
      Asked(d, ev, id, v) == v.(row := v.row.(undoHours := ev.hours), revision := v.revision + 1)
  {
    hide Layered;
  }

  lemma {:induction false} RevisionMoves(d: Db, ev: Event, id: Id)
    requires Inv(d) && Admissible(d, ev) && id in d.accounts
    ensures RevisionOf(After(d, ev), id) >= RevisionOf(d, id)
    ensures ev.EvSetUndoPreferences? && ActorOf(ev.actor) == Some(id) && Step(d, ev).Ok? ==>
      && RevisionOf(After(d, ev), id) == RevisionOf(d, id) + 1 && id in After(d, ev).accounts
      && After(d, ev).accounts[id] == d.accounts[id].(undoHours := ev.hours)
  {
    hide Inv, Admissible, Step, Asked;
    if Step(d, ev).Ok? {
      EventShows(d, ev, id);
      AskedRevision(d, ev, id, ViewOf(d, id));
      assert ViewOf(d, id).revision == RevisionOf(d, id) && ViewOf(d, id).row == d.accounts[id];
      assert ViewOf(After(d, ev), id).revision == RevisionOf(After(d, ev), id);
      assert ViewOf(After(d, ev), id).row == After(d, ev).accounts[id];
    }
  }

  lemma {:induction false} RevisionGrows(d: Db, run: seq<Event>, id: Id)
    requires Inv(d) && AdmissibleRun(d, run) && id in d.accounts
    ensures RevisionOf(Final(d, run), id) >= RevisionOf(d, id)
    decreases |run|
  {
    hide Inv, Later, Admissible, Step, After, RevisionOf;
    if run != [] {
      RevisionMoves(d, run[0], id);
      StepKeeps(d, run[0]);
      StillThere(d, After(d, run[0]), id);
      RevisionGrows(After(d, run[0]), run[1..], id);
    }
  }

  lemma {:induction false} StillThere(d: Db, e: Db, id: Id)
    requires Later(d, e) && id in d.accounts
    ensures id in e.accounts
  {
    hide GrantsLater, EnrollmentLater, Assigned;
    assert AccountLater(d, e, id);
  }

  lemma {:induction false} PreferencesTarget(d: Db, ev: Event)
    requires ev.EvSetUndoPreferences? && Step(d, ev).Ok?
    ensures ev.actor.Account? && ev.actor.id in d.accounts && ev.revision == RevisionOf(d, ev.actor.id)
    ensures ev.hours.Some? ==> 1 <= ev.hours.value <= ev.maximum
  {
  }

  /** The stored window is the one asked for, sessions go on, and a second call with the same revision fails for good. */
  lemma {:induction false} PreferencesStored(d: Db, ev: Event, run: seq<Event>, again: Event)
    requires Inv(d) && AdmissibleRun(d, [ev] + run) && ev.EvSetUndoPreferences? && Step(d, ev).Ok?
    requires again.EvSetUndoPreferences? && ActorOf(again.actor) == ActorOf(ev.actor) && again.revision <= ev.revision
    ensures ev.actor.Account? && ev.actor.id in d.accounts && ev.actor.id in After(d, ev).accounts
    ensures After(d, ev).accounts[ev.actor.id] == d.accounts[ev.actor.id].(undoHours := ev.hours)
    ensures Step(Final(d, [ev] + run), again).Err?
  {
    hide Inv, Later, Step, Admissible, Final, AdmissibleRun, RevisionOf;
    FinalSplit(d, [ev], run);
    OneStep(d, ev);
    StepKeeps(d, ev);
    PreferencesTarget(d, ev);
    RevisionMoves(d, ev, ev.actor.id);
    RevisionGrows(After(d, ev), run, ev.actor.id);
    if Step(Final(d, [ev] + run), again).Ok? {
      PreferencesTarget(Final(d, [ev] + run), again);
    }
  }

  // ---------- Who may ----------

  /** A live account with this generation. */
  predicate LiveAccount(d: Db, id: Id, generation: nat) {
    id in d.accounts && d.accounts[id].status.Active? && d.accounts[id].login && d.accounts[id].generation == generation
  }

  /** Root may change every status but that of a deleted account; an owner those of its accounts; a Linux user may revoke itself. */
  lemma {:induction false} TransitionAccepted(d: Db, ev: Event)
    requires ev.EvTransition?
    ensures Step(d, ev).Ok? <==>
      && ev.id in d.accounts && !d.accounts[ev.id].status.Deleted?
      && (ev.expected.Some? ==> ev.expected.value == d.accounts[ev.id].generation)
      && (ev.actor.Root?
          || (&& (MayManage(d, ev.actor, ev.id)
                  || (ev.status.Revoked? && ev.actor.id == ev.id && d.accounts[ev.id].kind.Linux?
                      && LiveAccount(d, ev.id, ev.actor.generation)))
              && (ev.status.Deleted? ==> ev.allowAdminDelete)))
  {
    hide WithoutUser;
  }

  /** A password is set by its owner, its administrator or Root; a forced change needs a new one. */
  lemma {:induction false} PasswordAccepted(d: Db, ev: Event)
    requires ev.EvSetPassword?
    ensures Step(d, ev).Ok? <==>
      && ev.hash.Some? && ev.id in d.accounts && !d.accounts[ev.id].status.Deleted?
      && (ev.actor.Root? || MayManage(d, ev.actor, ev.id)
          || (ev.actor.id == ev.id && LiveAccount(d, ev.id, ev.actor.generation)))
      && (ev.id in d.mustChange ==> d.accounts[ev.id].hash.Some? && !ev.matchesOld)
  {
  }

  /** Root writes any layer, an owner the administrative layer of its accounts, everybody their own personal layer. */
  lemma {:induction false} PolicyAccepted(d: Db, ev: Event)
    requires ev.EvSetPolicy?
    ensures Step(d, ev).Ok? <==>
      && ev.id in d.accounts && !d.accounts[ev.id].status.Deleted? && d.accounts[ev.id].generation == ev.generation
      && (ev.actor.Root? || (ev.layer.AdminLayer? && MayManage(d, ev.actor, ev.id))
          || (ev.layer.PersonalLayer? && ev.actor.id == ev.id && LiveAccount(d, ev.id, ev.actor.generation)))
      && ev.wellFormed && |ev.rules| <= 512
      && (ev.layer.RootLayer? || |RulesOf(d, ev.id).root| <= 512)
      && (ev.layer.AdminLayer? || |RulesOf(d, ev.id).admin| <= 512)
      && (ev.layer.PersonalLayer? || |RulesOf(d, ev.id).personal| <= 512)
  {
    hide WithoutUser, RulesOf;
  }

  /** What only Root does, and to whom. */
  lemma {:induction false} RootAccepted(d: Db, ev: Event)
    requires ev.EvSetPanelScope? || ev.EvSetRole? || ev.EvRequirePasswordChange? || ev.EvCopyCredentials?
    ensures Step(d, ev).Ok? <==>
      && ev.actor.Root? && ev.id in d.accounts && d.accounts[ev.id].status.Active?
      && (ev.EvSetPanelScope? ==> d.accounts[ev.id].role.Admin?)
      && (ev.EvSetRole? ==> d.accounts[ev.id].kind.Linux?)
      && (ev.EvCopyCredentials? ==>
            && d.accounts[ev.id].kind.Virtual? && d.accounts[ev.id].role.Admin? && d.accounts[ev.id].generation == ev.generation
            && ev.source in d.accounts && d.accounts[ev.source].kind.Linux? && d.accounts[ev.source].role.Admin?
            && d.accounts[ev.source].status.Active? && d.accounts[ev.source].hash.Some?
            && d.accounts[ev.source].generation == ev.sourceGeneration)
  {
    hide SetPool, SetAdminBudget, SetAdminOwn, SetChildQuota, CreateRecord, ReserveChild, ReserveAdmin, Finalize,
      CancelPending, BeginPurge, FinishPurge, InvalidateRestored, SetPassword, Transition, SetPolicy, SetUndoPreferences,
      IssueGrant, RevokeGrant, BeginEnrollment, CompleteEnrollment, WithoutUser;
  }

  // ---------- Purges ----------

  /** A purged account keeps no bytes, no password and no session, and is not purged again. */
  lemma {:induction false} PurgeStored(d: Db, id: Id, n: Id)
    requires Step(d, EvFinishPurge(id)).Ok?
    ensures var e := After(d, EvFinishPurge(id));
      && id in e.accounts && EffectiveQuota(e, id) == Ok(Some(0)) && e.accounts[id].hash.None? && id in e.purged
      && Step(e, EvFinishPurge(id)).Err? && Step(e, EvBeginPurge(id)).Err?
      && (n in e.grants <==> n in d.grants && d.grants[n].account != id)
      && (n in e.grants ==> e.grants[n] == d.grants[n])
  {
  }
}
