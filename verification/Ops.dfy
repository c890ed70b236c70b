/**
  What one transaction of the store does to the database: either the complete new
  contents, or the error that leaves the contents as they were.
 */
module Ops {
  import opened Types
  import opened Tables
  import Uuids
  import opened Sums

  datatype NewAccount = NewAccount(
    username: string, uid: nat, gid: nat, home: string,
    kind: Kind, role: Role, owner: Option<Id>, quota: Option<nat>)

  /** The request key and intent that a provisioning run finalises. */
  datatype Request = Request(key: Key, intent: Intent)

  /** A checked quota change: the database to commit, and the own-file limit it leaves. */
  datatype Prepared = Prepared(db: Db, remaining: nat)

  datatype SessionGrant = SessionGrant(
    nonce: Id, account: Id, generation: nat, caller: Caller, expires: nat)

  const MAX_GRANTS := 8192
  const MAX_ACCOUNT_GRANTS := 64
  const MAX_ENROLLMENTS := 1024

  // ---------- Quota pool, budgets and reservations ----------

  ghost function SetPool(d: Db, actor: Authority, bytes: nat): Result<Db> {
    if actor != Root then Err(Forbidden) else
    var committed :- CheckedAdd(Delegated(d), Pending(d, RootOwner));
    var b :- Number(bytes);
    if b < committed then Err(QuotaExceeded) else Ok(d.(pool := b))
  }

  ghost function SetAdminBudget(d: Db, actor: Authority, id: Id, bytes: nat): Result<Prepared> {
    if actor != Root then Err(Forbidden) else
    var target :- Get(d, id);
    if target.role != Admin || target.status != Active then Err(Forbidden) else
    var children :- CheckedAdd(Children(d, id), Pending(d, id));
    var b :- Number(bytes);
    var floor :- CheckedAdd(children, OwnOf(d, id));
    if b < floor || b > d.pool - (Delegated(d) - BudgetOf(d, id)) - Pending(d, RootOwner)
    then Err(QuotaExceeded) else
    Ok(Prepared(d.(budgets := d.budgets[id := b]), if id in d.own then d.own[id] else b - children))
  }

  ghost function SetAdminOwn(d: Db, actor: Authority, id: Id, bytes: nat): Result<Prepared> {
    if actor != Root then Err(Forbidden) else
    var b :- Number(bytes);
    if b == 0 then Err(InvalidInput) else
    var target :- Get(d, id);
    if !IsVirtualAdmin(target) || target.status != Active then Err(Forbidden) else
    if b > BudgetOf(d, id) - Children(d, id) - Pending(d, id) then Err(QuotaExceeded) else
    Ok(Prepared(PutRow(d, id, Bump(target)).(own := d.own[id := b]), b))
  }

  ghost function SetChildQuota(d: Db, actor: Authority, id: Id, generation: nat, bytes: nat): Result<Prepared> {
    if bytes == 0 then Err(InvalidInput) else
    var target :- Get(d, id);
    var _ :- Manage(d, actor, target);
    if !IsChild(target) || target.status == Deleted || target.generation != generation
    then Err(Conflict) else
    if target.owner.None? then Err(Forbidden) else
    var owner := target.owner.value;
    var committed :- CheckedAdd(Children(d, owner), Pending(d, owner));
    var b :- Number(bytes);
    var before := QuotaOf(target);
    if b > BudgetOf(d, owner) - (committed - before) - OwnOf(d, owner) then Err(QuotaExceeded) else
    Ok(Prepared(PutRow(d, id, Bump(target).(quota := Some(b))),
                if owner in d.own then d.own[owner] else BudgetOf(d, owner) - committed + before - b))
  }

  /** The own-file limit of an account: none for Linux, a quota for a child, the rest of a budget. */
  ghost function EffectiveQuota(d: Db, id: Id): Result<Option<nat>> {
    var target :- Get(d, id);
    if target.kind == Linux then Ok(None) else
    if target.role == User then Ok(target.quota) else
    var committed :- CheckedAdd(Children(d, id), Pending(d, id));
    if committed > BudgetOf(d, id) then Err(QuotaExceeded) else
    if id in d.own then
      if d.own[id] > BudgetOf(d, id) - committed then Err(QuotaExceeded) else Ok(Some(d.own[id]))
    else Ok(Some(BudgetOf(d, id) - committed))
  }

  datatype BudgetView = BudgetView(limit: nat, reserved: nat, remaining: nat, own: Option<nat>)

  ghost function Budget(d: Db, id: Id): Result<BudgetView> {
    var target :- Get(d, id);
    if target.role != Admin then Err(Forbidden) else
    var reserved :- CheckedAdd(Children(d, id), Pending(d, id));
    var taken :- CheckedAdd(reserved, OwnOf(d, id));
    if taken > BudgetOf(d, id) then Err(QuotaExceeded) else
    Ok(BudgetView(BudgetOf(d, id), reserved, BudgetOf(d, id) - taken,
                  if id in d.own then Some(d.own[id]) else None))
  }

  // ---------- Creating accounts ----------

  ghost function ChildRoom(d: Db, input: NewAccount, exclude: Option<Key>): Result<()> {
    if input.quota.None? || input.quota.value == 0 || input.owner.None? then Err(InvalidInput) else
    var owner := input.owner.value;
    var row :- Get(d, owner);
    if row.role != Admin || row.status != Active then Err(Forbidden) else
    if owner !in d.budgets then Err(QuotaExceeded) else
    var quota :- Number(input.quota.value);
    if quota > d.budgets[owner] - Children(d, owner) - Pending(d, owner, exclude) - OwnOf(d, owner)
    then Err(QuotaExceeded) else Ok(())
  }

  /** The budget a new virtual administrator starts with, if it comes from a Root request. */
  ghost function RootRoom(d: Db, input: NewAccount, request: Option<Request>): Result<Option<nat>> {
    if input.kind != Virtual || input.role != Admin || request.None? then Ok(None) else
    var Request(key, intent) := request.value;
    if intent.owner != RootOwner || key.owner != RootOwner then Err(Forbidden) else
    var budget :- Number(intent.quota);
    if budget > d.pool - Delegated(d) - Pending(d, RootOwner, Some(key)) then Err(QuotaExceeded)
    else Ok(Some(budget))
  }

  function NewRow(input: NewAccount, hash: Option<string>): Row {
    Row(input.username, input.uid, input.gid, input.home, input.kind, input.role, input.owner,
        Active, true, 1, hash, input.quota, None, None, false)
  }

  function KeyOf(request: Option<Request>): Option<Key> {
    if request.Some? then Some(request.value.key) else None
  }

  predicate UidTaken(d: Db, uid: nat) {
    exists id :: id in d.accounts && d.accounts[id].uid == uid
  }

  /** Everything that is checked before a row is inserted; yields the new administrator's budget. */
  ghost function CreateCheck(d: Db, actor: Authority, input: NewAccount, request: Option<Request>): Result<Option<nat>> {
    if !ValidIdentity(input.username, input.uid, input.gid, input.home) then Err(InvalidInput) else
    var caller :- Authorized(d, actor);
    if caller.Some? && (!(input.kind == Virtual && input.role == User) || input.owner != caller
                        || caller.value !in d.accounts || d.accounts[caller.value].role != Admin)
    then Err(Forbidden) else
    var _ :- (if input.kind == Virtual && input.role == Admin then
                if caller.Some? || input.owner.Some? || input.quota.Some? then Err(Forbidden) else Ok(())
              else if input.kind == Virtual then
                ChildRoom(d, input, KeyOf(request))
              else if input.owner.Some? || input.quota.Some? then Err(InvalidInput) else Ok(()));
    var budget :- RootRoom(d, input, request);
    if HasUsername(d, input.username) || UidTaken(d, input.uid) then Err(Database) else Ok(budget)
  }

  ghost function CreateRecord(d: Db, actor: Authority, input: NewAccount, hash: Option<string>,
                              request: Option<Request>, id: Id): Result<Db> {
    var budget :- CreateCheck(d, actor, input, request);
    Ok(d.(accounts := d.accounts[id := NewRow(input, hash)],
          used := d.used + {id},
          budgets := if budget.Some? then d.budgets[id := budget.value] else d.budgets,
          mustChange := if hash.Some? && actor.Account? then d.mustChange + {id} else d.mustChange,
          intents := if request.Some?
                     then d.intents[request.value.key := request.value.intent.(account := Some(id))]
                     else d.intents))
  }

  // ---------- Provisioning requests ----------

  ghost function ReserveChild(d: Db, owner: Id, generation: nat, key: Key, name: string,
                              quota: nat, uid: nat): Result<Db> {
    var caller :- Authorized(d, Account(owner, generation));
    var row :- Get(d, owner);
    if row.role != Admin then Err(Forbidden) else
    var q :- Number(quota);
    if q > BudgetOf(d, owner) - Children(d, owner) - Pending(d, owner) - OwnOf(d, owner)
    then Err(QuotaExceeded) else
    if key in d.intents then Err(Database) else
    Ok(d.(intents := d.intents[key := Intent(owner, name, quota, uid, None)]))
  }

  ghost function ReserveAdmin(d: Db, key: Key, name: string, budget: nat, uid: nat): Result<Db> {
    var b :- Number(budget);
    if b > d.pool - Delegated(d) - Pending(d, RootOwner) then Err(QuotaExceeded) else
    if key in d.intents then Err(Database) else
    Ok(d.(intents := d.intents[key := Intent(RootOwner, name, budget, uid, None)]))
  }

  function CancelPending(d: Db, key: Key): Result<Db> {
    if key !in d.intents then Err(Database) else
    if d.intents[key].account.Some? then Err(Forbidden) else
    Ok(d.(intents := d.intents - {key}, retired := d.retired + {d.intents[key].uid}))
  }

  predicate Purgeable(d: Db, id: Id) {
    id in d.accounts && IsChild(d.accounts[id]) && d.accounts[id].status == Deleted && id !in d.purged
  }

  /** The durable purge intent: the UID is retired before any content is removed. */
  function BeginPurge(d: Db, id: Id): Result<Db> {
    if !Purgeable(d, id) || id in d.purging then Err(Database) else
    Ok(d.(purging := d.purging + {id}, retired := d.retired + {d.accounts[id].uid}))
  }

  function FinishPurge(d: Db, id: Id): Result<Db> {
    if !Purgeable(d, id) then Err(Database) else
    var row := d.accounts[id];
    Ok(PutRow(d, id, Bump(row).(quota := Some(0), hash := None)).(
       retired := d.retired + {row.uid},
       purged := d.purged + {id},
       grants := map n | n in d.grants && d.grants[n].account != id :: d.grants[n]))
  }

  // ---------- Authority, passwords and policy ----------

  function SetPanelScope(d: Db, actor: Authority, id: Id, global: bool): Result<Db> {
    if actor != Root then Err(Forbidden) else
    var target :- Get(d, id);
    if target.role != Admin || target.status != Active then Err(Forbidden) else
    Ok(PutRow(d, id, Bump(target)).(
       scopes := d.scopes[id := global],
       enrollment := WithoutUser(d.enrollment, target.username)))
  }

  function SetRole(d: Db, actor: Authority, id: Id, role: Role): Result<Db> {
    if actor != Root then Err(Forbidden) else
    var target :- Get(d, id);
    if target.kind != Linux || target.status != Active then Err(Forbidden) else
    Ok(PutRow(d, id, Bump(target).(role := role)).(
       scopes := d.scopes[id := role == Admin],
       enrollment := WithoutUser(d.enrollment, target.username)))
  }

  /** Panel scope as read back: an explicit scope wins, otherwise Linux administrators are global. */
  predicate GlobalAdmin(d: Db, id: Id)
    requires id in d.accounts
  {
    d.accounts[id].role == Admin
    && if id in d.scopes then d.scopes[id] else d.accounts[id].kind == Linux
  }

  function InvalidateRestored(d: Db, actor: Authority): Result<Db> {
    if actor != Root then Err(Forbidden) else
    Ok(d.(grants := map[], enrollment := map[],
          accounts := map id | id in d.accounts :: Bump(d.accounts[id])))
  }

  function CopyCredentials(d: Db, actor: Authority, source: Id, sourceGeneration: nat,
                           target: Id, targetGeneration: nat): Result<Db> {
    if actor != Root then Err(Forbidden) else
    var from :- Get(d, source);
    var to :- Get(d, target);
    if from.kind != Linux || to.kind != Virtual || from.role != Admin || to.role != Admin
       || from.status != Active || to.status != Active || from.hash.None?
       || from.generation != sourceGeneration || to.generation != targetGeneration
    then Err(Forbidden) else
    Ok(PutRow(d, target, Bump(to).(hash := from.hash)).(
       mustChange := if source in d.mustChange then d.mustChange + {target} else d.mustChange - {target}))
  }

  function RequirePasswordChange(d: Db, actor: Authority, id: Id): Result<Db> {
    if actor != Root then Err(Forbidden) else
    var target :- Get(d, id);
    if target.status != Active then Err(Forbidden) else
    Ok(PutRow(d, id, Bump(target)).(mustChange := d.mustChange + {id}))
  }

  /** `hash` is None when the password is refused; `matchesOld` is the verdict on the old hash. */
  function SetPassword(d: Db, actor: Authority, id: Id, hash: Option<string>, matchesOld: bool): Result<Db> {
    if hash.None? then Err(PasswordHash) else
    var target :- Get(d, id);
    var caller :- Authorized(d, actor);
    var _ :- (if caller.Some? && caller.value != id then Manage(d, actor, target) else Ok(()));
    if target.status == Deleted then Err(Forbidden) else
    if id in d.mustChange && target.hash.None? then Err(Database) else
    if id in d.mustChange && matchesOld then Err(InvalidInput) else
    Ok(PutRow(d, id, Bump(target).(hash := hash)).(mustChange := d.mustChange - {id}))
  }

  predicate SelfRevoke(actor: Authority, id: Id, target: Row, status: Status) {
    actor.Account? && actor.id == id && target.kind == Linux && status == Revoked
  }

  function Transition(d: Db, actor: Authority, id: Id, status: Status, allowAdminDelete: bool,
                      expected: Option<nat>, at: nat): Result<Db> {
    var target :- Get(d, id);
    if expected.Some? && expected.value != target.generation then Err(Conflict) else
    var caller :- Authorized(d, actor);
    var _ :- (if caller.Some? && !SelfRevoke(actor, id, target, status)
              then Manage(d, actor, target) else Ok(()));
    if caller.Some? && status == Deleted && !allowAdminDelete then Err(Forbidden) else
    if target.status == Deleted then Err(Conflict) else
    Ok(PutRow(d, id, Bump(target).(
         status := status,
         login := status == Active,
         deletedAt := if status == Deleted then Some(at) else None,
         denyEnrollment := status != Active && !SelfRevoke(actor, id, target, status))).(
       enrollment := WithoutUser(d.enrollment, target.username)))
  }

  function RulesOf(d: Db, id: Id): Rules {
    if id in d.policies then d.policies[id] else Rules([], [], [])
  }

  function ReplaceLayer(r: Rules, layer: Layer, rules: seq<string>): Rules {
    match layer
    case RootLayer => r.(root := rules)
    case AdminLayer => r.(admin := rules)
    case PersonalLayer => r.(personal := rules)
  }

  predicate RulesFit(r: Rules) {
    |r.root| <= 512 && |r.admin| <= 512 && |r.personal| <= 512
  }

  /** `wellFormed` is the verdict of the access-policy validator on the replaced rules. */
  function SetPolicy(d: Db, actor: Authority, id: Id, expected: nat, layer: Layer,
                     rules: seq<string>, wellFormed: bool): Result<Db> {
    var target :- Get(d, id);
    var caller :- Authorized(d, actor);
    var _ :- (if caller.None? then Ok(()) else
              match layer
              case RootLayer => Err(Forbidden)
              case PersonalLayer => if caller.value == id then Ok(()) else Err(Forbidden)
              case AdminLayer => Manage(d, actor, target));
    if target.generation != expected || target.status == Deleted then Err(Conflict) else
    var replaced := ReplaceLayer(RulesOf(d, id), layer, rules);
    if !RulesFit(replaced) || !wellFormed then Err(InvalidInput) else
    Ok(PutRow(d, id, Bump(target)).(
       policies := d.policies[id := replaced],
       enrollment := WithoutUser(d.enrollment, target.username)))
  }

  /** Personal undo window; login authority is deliberately left alone. */
  function SetUndoPreferences(d: Db, actor: Authority, maximum: nat, hours: Option<nat>,
                              expectedRevision: nat): Result<Db> {
    if hours.Some? && !(1 <= hours.value <= maximum) then Err(InvalidInput) else
    var caller :- Authorized(d, actor);
    if caller.None? then Err(Forbidden) else
    var id := caller.value;
    var row :- Get(d, id);
    var current := if id in d.revisions then d.revisions[id] else 0;
    if current != expectedRevision || current + 1 > I64_MAX then Err(Conflict) else
    Ok(PutRow(d, id, row.(undoHours := hours)).(revisions := d.revisions[id := current + 1]))
  }

  // ---------- Session grants and enrollment ----------

  predicate ValidCaller(c: Caller) {
    c.pid != 0 && 0 < c.start <= I64_MAX && Uuids.Parse(c.boot).Some?
  }

  predicate GrantStale(d: Db, g: Grant, at: nat) {
    g.expires <= at || g.revoked
    || g.account !in d.accounts || d.accounts[g.account].generation != g.generation
  }

  function LiveGrants(d: Db, at: nat): map<Id, Grant> {
    map n | n in d.grants && !GrantStale(d, d.grants[n], at) :: d.grants[n]
  }

  function GrantsOf(grants: map<Id, Grant>, id: Id): set<Id> {
    set n | n in grants && grants[n].account == id
  }

  function IssueGrant(d: Db, id: Id, generation: nat, caller: Caller, at: nat, lifetime: nat,
                      nonce: Id): Result<Db> {
    if !ValidCaller(caller) || lifetime == 0 || lifetime > 43200 || at + lifetime > I64_MAX
    then Err(InvalidInput) else
    var target :- Get(d, id);
    if target.generation != generation || target.status != Active || !target.login
    then Err(Forbidden) else
    var kept := LiveGrants(d, at);
    if |kept| >= MAX_GRANTS || |GrantsOf(kept, id)| >= MAX_ACCOUNT_GRANTS then Err(Conflict) else
    Ok(d.(grants := kept[nonce := Grant(id, generation, caller, at + lifetime, false)],
          used := d.used + {nonce}))
  }

  function TokenOf(d: Db, nonce: Id): SessionGrant
    requires nonce in d.grants
  {
    var g := d.grants[nonce];
    SessionGrant(nonce, g.account, g.generation, g.caller, g.expires)
  }

  function VerifyGeneration(d: Db, id: Id, generation: nat): Result<Row> {
    var row :- Get(d, id);
    if row.generation != generation || !row.login || row.status != Active then Err(Forbidden) else Ok(row)
  }

  function VerifyRestricted(d: Db, g: SessionGrant, caller: Caller, at: nat): Result<Row> {
    if g.caller != caller || g.expires <= at then Err(Forbidden) else
    if g.nonce !in d.grants || TokenOf(d, g.nonce) != g || d.grants[g.nonce].revoked
    then Err(Forbidden) else
    VerifyGeneration(d, g.account, g.generation)
  }

  function VerifyGrant(d: Db, g: SessionGrant, caller: Caller, at: nat): Result<Row> {
    var row :- VerifyRestricted(d, g, caller, at);
    if g.account in d.mustChange then Err(Forbidden) else Ok(row)
  }

  function RevokeGrant(d: Db, g: SessionGrant, caller: Caller, at: nat): Result<Db> {
    var _ :- VerifyRestricted(d, g, caller, at);
    if g.nonce !in d.grants then Err(Forbidden) else
    Ok(d.(grants := d.grants[g.nonce := d.grants[g.nonce].(revoked := true)]))
  }

  function EnrollmentsKept(enrollment: map<Id, Enrollment>, identity: Identity, caller: Caller,
                           at: nat): map<Id, Enrollment> {
    map t | t in enrollment && !(enrollment[t].expires <= at || enrollment[t].consumed
            || (enrollment[t].identity.username == identity.username
                && enrollment[t].caller.uid == caller.uid && enrollment[t].caller.pid == caller.pid))
      :: enrollment[t]
  }

  predicate SameIdentity(row: Row, identity: Identity) {
    row.kind == Linux && row.uid == identity.uid && row.gid == identity.gid && row.home == identity.home
  }

  /** An existing Linux account that may still enroll: never denied, suspended or deleted. */
  predicate MayEnroll(row: Row, identity: Identity) {
    && SameIdentity(row, identity)
    && !row.denyEnrollment
    && row.status != Suspended && row.status != Deleted
    && (row.hash.Some? ==> row.status == Revoked)
  }

  ghost function BeginEnrollment(d: Db, identity: Identity, caller: Caller, at: nat, lifetime: nat,
                                 token: Id): Result<Db> {
    if !ValidIdentity(identity.username, identity.uid, identity.gid, identity.home)
       || !ValidCaller(caller) || lifetime == 0 || lifetime > 300 || at + lifetime > I64_MAX
    then Err(InvalidInput) else
    var existing := FindUsername(d, identity.username);
    if existing.Some? && !MayEnroll(d.accounts[existing.value], identity) then Err(Forbidden) else
    var kept := EnrollmentsKept(d.enrollment, identity, caller, at);
    if |kept| >= MAX_ENROLLMENTS then Err(Conflict) else
    Ok(d.(enrollment := kept[token := Enrollment(identity, caller, at + lifetime, false)],
          used := d.used + {token}))
  }

  predicate ProofLive(d: Db, token: Id, caller: Caller, at: nat) {
    token in d.enrollment && d.enrollment[token].caller == caller
    && d.enrollment[token].expires > at && !d.enrollment[token].consumed
  }

  function FreshLinuxRow(identity: Identity): Row {
    Row(identity.username, identity.uid, identity.gid, identity.home, Linux, User, None,
        Active, true, 1, None, None, None, None, false)
  }

  function Enrolled(row: Row, hash: string): Row {
    Bump(row).(hash := Some(hash), status := Active, login := true, denyEnrollment := false)
  }

  ghost function CompleteEnrollment(d: Db, token: Id, caller: Caller, current: Identity,
                                    hash: Option<string>, at: nat, id: Id): Result<Db> {
    if !ProofLive(d, token, caller, at) then Err(InvalidCredentials) else
    var proof := d.enrollment[token];
    if proof.identity != current then Err(Forbidden) else
    if hash.None? then Err(PasswordHash) else
    var tx := d.(enrollment := d.enrollment[token := proof.(consumed := true)]);
    var existing := FindUsername(d, current.username);
    if existing.Some? then
      var row := d.accounts[existing.value];
      if !MayEnroll(row, current) then Err(Forbidden) else
      Ok(PutRow(tx, existing.value, Enrolled(row, hash.value)))
    else if UidTaken(d, current.uid) then Err(Database) else
      Ok(PutRow(tx, id, Enrolled(FreshLinuxRow(current), hash.value)).(used := d.used + {id}))
  }
}
