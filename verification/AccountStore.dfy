/** The store object: one connection, whose tables every method rewrites in a single transaction. */
module AccountStores {
  import opened Types
  import opened Tables
  import opened Ops
  import opened Invariant
  import opened Evolution
  import opened Runs
  import opened Store
  import Rooms

  class AccountStore {
    var db: Db

    ghost predicate Valid()
      reads this
    {
      Inv(db)
    }

    constructor ()
      ensures Valid() && db == EMPTY
    {
      hide Inv;
      db := EMPTY;
      new;
      EmptyInv();
    }

    method SetPool(actor: Authority, bytes: nat) returns (r: Result<()>)
      requires Valid()
      modifies this
      ensures Valid() && Outcome(old(db), db, r, Step(old(db), EvSetPool(actor, bytes)))
    {
      hide Inv, Later, Pending, Delegated;
      StepKeeps(db, EvSetPool(actor, bytes));
      if actor != Root {
        return Err(Forbidden);
      }
      PoolArithmetic(db, RootOwner);
      var delegated := SumBudgets(db);
      var pending := SumPending(db, RootOwner, None);
      var taken := Plus(delegated, pending);
      if bytes > I64_MAX {
        return Err(InvalidInput);
      }
      if bytes < taken {
        return Err(QuotaExceeded);
      }
      db := db.(pool := bytes);
      return Ok(());
    }

    method SetAdminBudget(actor: Authority, id: Id, bytes: nat) returns (r: Result<()>)
      requires Valid()
      modifies this
      ensures Valid() && Outcome(old(db), db, r, Step(old(db), EvSetAdminBudget(actor, id, bytes)))
      ensures r.Ok? ==> Budget(db, id).Ok? && Budget(db, id).value.limit == bytes
    {
      hide Inv, Later, Ops.SetAdminBudget, Budget;
      Rooms.BudgetAnswered(db, actor, id, bytes);
      StepKeeps(db, EvSetAdminBudget(actor, id, bytes));
      var prepared := PrepareAdminBudget(db, actor, id, bytes);
      if prepared.Err? {
        return Err(prepared.error);
      }
      db := prepared.value.db;
      return Ok(());
    }

    method Create(actor: Authority, input: NewAccount, hash: Option<string>, freshId: Id) returns (r: Result<()>)
      requires Valid() && Admissible(db, EvCreate(actor, input, hash, freshId))
      modifies this
      ensures Valid() && Outcome(old(db), db, r, Step(old(db), EvCreate(actor, input, hash, freshId)))
    {
      hide Inv, Later, CreateRecord, UidTaken, Assigned;
      StepKeeps(db, EvCreate(actor, input, hash, freshId));
      var prepared := PrepareRecord(db, actor, input, hash, None, freshId);
      if prepared.Err? {
        return Err(prepared.error);
      }
      db := prepared.value;
      return Ok(());
    }

    method SetPanelScope(actor: Authority, id: Id, global: bool) returns (r: Result<()>)
      requires Valid()
      modifies this
      ensures Valid() && Outcome(old(db), db, r, Step(old(db), EvSetPanelScope(actor, id, global)))
    {
      hide Inv, Later, WithoutUser;
      StepKeeps(db, EvSetPanelScope(actor, id, global));
      if actor != Root {
        return Err(Forbidden);
      }
      if id !in db.accounts {
        return Err(NotFound);
      }
      var target := db.accounts[id];
      if target.role != Admin || target.status != Active {
        return Err(Forbidden);
      }
      var scopes := db.scopes[id := global];
      var accounts := db.accounts[id := Bump(target)];
      db := db.(accounts := accounts, scopes := scopes, enrollment := WithoutUser(db.enrollment, target.username));
      return Ok(());
    }

    method SetRole(actor: Authority, id: Id, role: Role) returns (r: Result<()>)
      requires Valid()
      modifies this
      ensures Valid() && Outcome(old(db), db, r, Step(old(db), EvSetRole(actor, id, role)))
    {
      hide Inv, Later, WithoutUser;
      StepKeeps(db, EvSetRole(actor, id, role));
      if actor != Root {
        return Err(Forbidden);
      }
      if id !in db.accounts {
        return Err(NotFound);
      }
      var target := db.accounts[id];
      if target.kind != Linux || target.status != Active {
        return Err(Forbidden);
      }
      var accounts := db.accounts[id := Bump(target).(role := role)];
      var scopes := db.scopes[id := role == Admin];
      db := db.(accounts := accounts, scopes := scopes, enrollment := WithoutUser(db.enrollment, target.username));
      return Ok(());
    }

    method InvalidateRestoredSessions(actor: Authority) returns (r: Result<()>)
      requires Valid()
      modifies this
      ensures Valid() && Outcome(old(db), db, r, Step(old(db), EvRestore(actor)))
    {
      hide Inv, Later;
      StepKeeps(db, EvRestore(actor));
      if actor != Root {
        return Err(Forbidden);
      }
      var accounts := map id | id in db.accounts :: Bump(db.accounts[id]);
      db := db.(grants := map[], enrollment := map[], accounts := accounts);
      return Ok(());
    }

    method CopyAdminCredentials(actor: Authority, source: Id, sourceGeneration: nat, target: Id, targetGeneration: nat)
      returns (r: Result<()>)
      requires Valid()
      modifies this
      ensures Valid()
      ensures Outcome(old(db), db, r,
                      Step(old(db), EvCopyCredentials(actor, source, sourceGeneration, target, targetGeneration)))
    {
      hide Inv, Later;
      StepKeeps(db, EvCopyCredentials(actor, source, sourceGeneration, target, targetGeneration));
      if actor != Root {
        return Err(Forbidden);
      }
      if source !in db.accounts || target !in db.accounts {
        return Err(NotFound);
      }
      var from, to := db.accounts[source], db.accounts[target];
      if from.kind != Linux || to.kind != Virtual || from.role != Admin || to.role != Admin
         || from.status != Active || to.status != Active || from.hash.None?
         || from.generation != sourceGeneration || to.generation != targetGeneration {
        return Err(Forbidden);
      }
      var flags := db.mustChange - {target};
      if source in db.mustChange {
        flags := flags + {target};
      }
      assert source in db.mustChange ==> flags == db.mustChange + {target};
      db := db.(accounts := db.accounts[target := Bump(to).(hash := from.hash)], mustChange := flags);
      return Ok(());
    }

    method RequirePasswordChange(actor: Authority, id: Id) returns (r: Result<()>)
      requires Valid()
      modifies this
      ensures Valid() && Outcome(old(db), db, r, Step(old(db), EvRequirePasswordChange(actor, id)))
    {
      hide Inv, Later;
      StepKeeps(db, EvRequirePasswordChange(actor, id));
      if actor != Root {
        return Err(Forbidden);
      }
      if id !in db.accounts {
        return Err(NotFound);
      }
      var target := db.accounts[id];
      if target.status != Active {
        return Err(Forbidden);
      }
      db := db.(accounts := db.accounts[id := Bump(target)], mustChange := db.mustChange + {id});
      return Ok(());
    }

    method SetPassword(actor: Authority, id: Id, hash: Option<string>, matchesOld: bool) returns (r: Result<()>)
      requires Valid()
      modifies this
      ensures Valid() && Outcome(old(db), db, r, Step(old(db), EvSetPassword(actor, id, hash, matchesOld)))
    {
      hide Inv, Later, Manage;
      StepKeeps(db, EvSetPassword(actor, id, hash, matchesOld));
      if hash.None? {
        return Err(PasswordHash);
      }
      if id !in db.accounts {
        return Err(NotFound);
      }
      var target := db.accounts[id];
      var caller := Authorized(db, actor);
      if caller.Err? {
        return Err(caller.error);
      }
      if caller.value.Some? && caller.value.value != id {
        var managed := Manage(db, actor, target);
        if managed.Err? {
          return Err(managed.error);
        }
      }
      if target.status == Deleted {
        return Err(Forbidden);
      }
      if id in db.mustChange {
        if target.hash.None? {
          return Err(Database);
        }
        if matchesOld {
          return Err(InvalidInput);
        }
      }
      db := db.(accounts := db.accounts[id := Bump(target).(hash := hash)], mustChange := db.mustChange - {id});
      return Ok(());
    }

    method TransitionChecked(actor: Authority, id: Id, status: Status, allowAdminDelete: bool, expected: Option<nat>, at: nat)
      returns (r: Result<()>)
      requires Valid()
      modifies this
      ensures Valid()
      ensures Outcome(old(db), db, r, Step(old(db), EvTransition(actor, id, status, allowAdminDelete, expected, at)))
      ensures r.Ok? ==>
        id in db.accounts && db.accounts[id].status == status && (db.accounts[id].login <==> status == Active)
    {
      hide Inv, Later, Manage, WithoutUser;
      StepKeeps(db, EvTransition(actor, id, status, allowAdminDelete, expected, at));
      if id !in db.accounts {
        return Err(NotFound);
      }
      var target := db.accounts[id];
      if expected.Some? && expected.value != target.generation {
        return Err(Conflict);
      }
      var caller := Authorized(db, actor);
      if caller.Err? {
        return Err(caller.error);
      }
      if caller.value.Some? {
        var ownLinuxRevoke := caller.value.value == id && target.kind == Linux && status == Revoked;
        if !ownLinuxRevoke {
          var managed := Manage(db, actor, target);
          if managed.Err? {
            return Err(managed.error);
          }
        }
        if status == Deleted && !allowAdminDelete {
          return Err(Forbidden);
        }
      }
      if target.status == Deleted {
        return Err(Conflict);
      }
      var row := Bump(target).(
        status := status, login := status == Active,
        deletedAt := if status == Deleted then Some(at) else None,
        denyEnrollment := status != Active && !SelfRevoke(actor, id, target, status));
      db := db.(accounts := db.accounts[id := row], enrollment := WithoutUser(db.enrollment, target.username));
      return Ok(());
    }

    method SetPolicy(actor: Authority, id: Id, expected: nat, layer: Layer, rules: seq<string>, wellFormed: bool)
      returns (r: Result<()>)
      requires Valid()
      modifies this
      ensures Valid() && Outcome(old(db), db, r, Step(old(db), EvSetPolicy(actor, id, expected, layer, rules, wellFormed)))
    {
      hide Inv, Later, Manage, WithoutUser;
      StepKeeps(db, EvSetPolicy(actor, id, expected, layer, rules, wellFormed));
      if id !in db.accounts {
        return Err(NotFound);
      }
      var target := db.accounts[id];
      var caller := Authorized(db, actor);
      if caller.Err? {
        return Err(caller.error);
      }
      if caller.value.Some? {
        match layer
        case RootLayer => return Err(Forbidden);
        case PersonalLayer =>
          if caller.value.value != id {
            return Err(Forbidden);
          }
        case AdminLayer =>
          var managed := Manage(db, actor, target);
          if managed.Err? {
            return Err(managed.error);
          }
      }
      if target.generation != expected || target.status == Deleted {
        return Err(Conflict);
      }
      var replaced := ReplaceLayer(RulesOf(db, id), layer, rules);
      if !RulesFit(replaced) || !wellFormed {
        return Err(InvalidInput);
      }
      db := db.(policies := db.policies[id := replaced], accounts := db.accounts[id := Bump(target)],
                enrollment := WithoutUser(db.enrollment, target.username));
      return Ok(());
    }

    method SetUndoPreferences(actor: Authority, maximum: nat, hours: Option<nat>, expected: nat) returns (r: Result<()>)
      requires Valid()
      modifies this
      ensures Valid() && Outcome(old(db), db, r, Step(old(db), EvSetUndoPreferences(actor, maximum, hours, expected)))
    {
      hide Inv, Later;
      StepKeeps(db, EvSetUndoPreferences(actor, maximum, hours, expected));
      if hours.Some? && !(1 <= hours.value <= maximum) {
        return Err(InvalidInput);
      }
      var caller := Authorized(db, actor);
      if caller.Err? {
        return Err(caller.error);
      }
      if caller.value.None? {
        return Err(Forbidden);
      }
      var id := caller.value.value;
      var revision := if id in db.revisions then db.revisions[id] else 0;
      if revision != expected || revision + 1 > I64_MAX {
        return Err(Conflict);
      }
      db := db.(accounts := db.accounts[id := db.accounts[id].(undoHours := hours)],
                revisions := db.revisions[id := revision + 1]);
      return Ok(());
    }

    method IssueGrant(id: Id, generation: nat, caller: Caller, at: nat, lifetime: nat, freshNonce: Id)
      returns (r: Result<()>)
      requires Valid() && Admissible(db, EvIssueGrant(id, generation, caller, at, lifetime, freshNonce))
      modifies this
      ensures Valid()
      ensures Outcome(old(db), db, r, Step(old(db), EvIssueGrant(id, generation, caller, at, lifetime, freshNonce)))
    {
      hide Inv, Later, LiveGrants, GrantsOf, ValidCaller;
      StepKeeps(db, EvIssueGrant(id, generation, caller, at, lifetime, freshNonce));
      if !ValidCaller(caller) || lifetime == 0 || lifetime > 43200 || at + lifetime > I64_MAX {
        return Err(InvalidInput);
      }
      if id !in db.accounts {
        return Err(NotFound);
      }
      var target := db.accounts[id];
      if target.generation != generation || target.status != Active || !target.login {
        return Err(Forbidden);
      }
      var grants := LiveGrants(db, at);
      if |grants| >= MAX_GRANTS || |GrantsOf(grants, id)| >= MAX_ACCOUNT_GRANTS {
        return Err(Conflict);
      }
      grants := grants[freshNonce := Grant(id, generation, caller, at + lifetime, false)];
      db := db.(grants := grants, used := db.used + {freshNonce});
      return Ok(());
    }

    method RevokeGrant(g: SessionGrant, caller: Caller, at: nat) returns (r: Result<()>)
      requires Valid()
      modifies this
      ensures Valid() && Outcome(old(db), db, r, Step(old(db), EvRevokeGrant(g, caller, at)))
      ensures r.Ok? ==> forall c, later :: VerifyRestricted(db, g, c, later).Err?
    {
      hide Inv, Later;
      StepKeeps(db, EvRevokeGrant(g, caller, at));
      var checked := VerifyRestricted(db, g, caller, at);
      if checked.Err? {
        return Err(checked.error);
      }
      db := db.(grants := db.grants[g.nonce := db.grants[g.nonce].(revoked := true)]);
      return Ok(());
    }

    method BeginEnrollment(identity: Identity, caller: Caller, at: nat, lifetime: nat, freshToken: Id) returns (r: Result<()>)
      requires Valid() && Admissible(db, EvBeginEnrollment(identity, caller, at, lifetime, freshToken))
      modifies this
      ensures Valid()
      ensures Outcome(old(db), db, r, Step(old(db), EvBeginEnrollment(identity, caller, at, lifetime, freshToken)))
    {
      hide Inv, Later, HasUsername, MayEnroll, EnrollmentsKept, ValidIdentity, ValidCaller;
      StepKeeps(db, EvBeginEnrollment(identity, caller, at, lifetime, freshToken));
      if !ValidIdentity(identity.username, identity.uid, identity.gid, identity.home)
         || !ValidCaller(caller) || lifetime == 0 || lifetime > 300 || at + lifetime > I64_MAX {
        return Err(InvalidInput);
      }
      var existing := Lookup(db, identity.username);
      if existing.Some? && !MayEnroll(db.accounts[existing.value], identity) {
        return Err(Forbidden);
      }
      var proofs := EnrollmentsKept(db.enrollment, identity, caller, at);
      if |proofs| >= MAX_ENROLLMENTS {
        return Err(Conflict);
      }
      proofs := proofs[freshToken := Enrollment(identity, caller, at + lifetime, false)];
      db := db.(enrollment := proofs, used := db.used + {freshToken});
      return Ok(());
    }

    method CompleteEnrollment(token: Id, caller: Caller, current: Identity, hash: Option<string>, at: nat, freshId: Id)
      returns (r: Result<()>)
      requires Valid() && Admissible(db, EvCompleteEnrollment(token, caller, current, hash, at, freshId))
      modifies this
      ensures Valid()
      ensures Outcome(old(db), db, r, Step(old(db), EvCompleteEnrollment(token, caller, current, hash, at, freshId)))
    {
      hide Inv, Later, HasUsername, MayEnroll, UidTaken, Assigned, Enrolled, FreshLinuxRow;
      StepKeeps(db, EvCompleteEnrollment(token, caller, current, hash, at, freshId));
      if !ProofLive(db, token, caller, at) {
        return Err(InvalidCredentials);
      }
      var proof := db.enrollment[token];
      if proof.identity != current {
        return Err(Forbidden);
      }
      if hash.None? {
        return Err(PasswordHash);
      }
      var proofs := db.enrollment[token := proof.(consumed := true)];
      var existing := Lookup(db, current.username);
      if existing.Some? {
        var row := db.accounts[existing.value];
        if !MayEnroll(row, current) {
          return Err(Forbidden);
        }
        db := db.(enrollment := proofs, accounts := db.accounts[existing.value := Enrolled(row, hash.value)]);
      } else {
        if UidTaken(db, current.uid) {
          return Err(Database);
        }
        var row := FreshLinuxRow(current);
        db := db.(enrollment := proofs, used := db.used + {freshId},
                  accounts := db.accounts[freshId := Enrolled(row, hash.value)]);
      }
      return Ok(());
    }
  }

  /** Usernames are unique, so scanning the table finds the one row that the query names. */
  method Lookup(d: Db, name: string) returns (r: Option<Id>)
    requires Inv(d)
    ensures r == FindUsername(d, name)
  {
    hide KeysOk, PurgedOk, IntentsOk, LedgerOk, ProofRowsOk, ProofCapsOk;
    r := LookupUsername(d, name);
  }
}
