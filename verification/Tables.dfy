/** The protected account database as a value: one field for each table or key family. */
module Tables {
  import opened Types
  import opened Sums
  import SubidText

  datatype Kind = Linux | Virtual
  datatype Role = User | Admin
  datatype Status = Active | Suspended | Revoked | Deleted

  datatype Row = Row(
    username: string, uid: nat, gid: nat, home: string,
    kind: Kind, role: Role, owner: Option<Id>,
    status: Status, login: bool, generation: nat,
    hash: Option<string>, quota: Option<nat>, undoHours: Option<nat>,
    deletedAt: Option<nat>, denyEnrollment: bool)

  /** A provisioning request; it is pending until it names the account it became. */
  datatype Intent = Intent(owner: Id, name: string, quota: nat, uid: nat, account: Option<Id>)

  /** "virtual_create_v1:{owner}:{request}"; both parts have fixed width, so the text is injective. */
  datatype Key = Key(owner: Id, request: Id)

  datatype Caller = Caller(uid: nat, pid: nat, start: nat, boot: string)
  datatype Grant = Grant(account: Id, generation: nat, caller: Caller, expires: nat, revoked: bool)
  datatype Identity = Identity(username: string, uid: nat, gid: nat, home: string)
  datatype Enrollment = Enrollment(identity: Identity, caller: Caller, expires: nat, consumed: bool)
  datatype Rules = Rules(root: seq<string>, admin: seq<string>, personal: seq<string>)
  datatype Layer = RootLayer | AdminLayer | PersonalLayer

  datatype Authority = Root | Account(id: Id, generation: nat)

  /** `used` is a history variable: every UUID handed out so far (ids, nonces, tokens). */
  datatype Db = Db(
    accounts: map<Id, Row>,
    pool: nat,
    budgets: map<Id, nat>,
    intents: map<Key, Intent>,
    own: map<Id, nat>,
    retired: set<nat>,
    purging: set<Id>,
    purged: set<Id>,
    cursor: Option<nat>,
    scopes: map<Id, bool>,
    mustChange: set<Id>,
    grants: map<Id, Grant>,
    enrollment: map<Id, Enrollment>,
    policies: map<Id, Rules>,
    revisions: map<Id, nat>,
    used: set<Id>)

  const EMPTY: Db :=
    Db(map[], 0, map[], map[], map[], {}, {}, {}, None, map[], {}, map[], map[], map[], map[], {})

  function QuotaOf(r: Row): nat {
    ValueOr(r.quota, 0)
  }

  function ChildRows(accounts: map<Id, Row>, owner: Id): map<Id, nat> {
    map id | id in accounts && accounts[id].owner == Some(owner) :: QuotaOf(accounts[id])
  }

  /** Pending intents of one owner, without the excluded request key. */
  function PendingRows(intents: map<Key, Intent>, owner: Id, exclude: Option<Key>): map<Key, nat> {
    map k | k in intents && Some(k) != exclude && intents[k].owner == owner && intents[k].account.None?
      :: intents[k].quota
  }

  ghost function Children(d: Db, owner: Id): nat {
    Total(ChildRows(d.accounts, owner))
  }

  ghost function Pending(d: Db, owner: Id, exclude: Option<Key> := None): nat {
    Total(PendingRows(d.intents, owner, exclude))
  }

  ghost function Delegated(d: Db): nat {
    Total(d.budgets)
  }

  function BudgetOf(d: Db, id: Id): nat {
    if id in d.budgets then d.budgets[id] else 0
  }

  function OwnOf(d: Db, id: Id): nat {
    if id in d.own then d.own[id] else 0
  }

  predicate IsChild(r: Row) {
    r.kind == Virtual && r.role == User
  }

  predicate IsVirtualAdmin(r: Row) {
    r.kind == Virtual && r.role == Admin
  }

  function Get(d: Db, id: Id): (r: Result<Row>) {
    if id in d.accounts then Ok(d.accounts[id]) else Err(NotFound)
  }

  /** The acting account if the authority is still live; Root acts without an account. */
  function Authorized(d: Db, actor: Authority): (r: Result<Option<Id>>) {
    match actor
    case Root => Ok(None)
    case Account(id, generation) =>
      var row :- Get(d, id);
      if row.generation != generation || !row.login || row.status != Active
      then Err(Forbidden) else Ok(Some(id))
  }

  function Manage(d: Db, actor: Authority, target: Row): (r: Result<()>) {
    var caller :- Authorized(d, actor);
    if caller.None? then Ok(()) else
    if caller.value !in d.accounts then Err(NotFound) else
    if d.accounts[caller.value].role != Admin || target.owner != caller || target.kind != Virtual
    then Err(Forbidden) else Ok(())
  }

  function Bump(r: Row): Row {
    r.(generation := r.generation + 1)
  }

  function PutRow(d: Db, id: Id, r: Row): Db {
    d.(accounts := d.accounts[id := r])
  }

  /** Enrollment proofs left after every proof for one username is deleted. */
  function WithoutUser(enrollment: map<Id, Enrollment>, username: string): map<Id, Enrollment> {
    map t | t in enrollment && enrollment[t].identity.username != username :: enrollment[t]
  }

  predicate HasParentComponent(path: string) {
    exists i :: 0 <= i < |path| - 1 && path[i] == '.' && path[i + 1] == '.'
      && (i == 0 || path[i - 1] == '/') && (i + 2 == |path| || path[i + 2] == '/')
  }

  /** A slash, or a component that is a single dot. */
  predicate Skippable(path: string, i: nat)
    requires i < |path|
  {
    path[i] == '/'
    || (path[i] == '.' && (i == 0 || path[i - 1] == '/') && (i + 1 == |path| || path[i + 1] == '/'))
  }

  /** Equal to "/" as a path. */
  predicate BareRoot(path: string) {
    forall i :: 0 <= i < |path| ==> Skippable(path, i)
  }

  predicate ValidIdentity(username: string, uid: nat, gid: nat, home: string) {
    && username != "" && SubidText.Bytes(username) <= 256
    && '/' !in username && '\\' !in username && '\0' !in username
    && uid != 0 && gid != 0
    && 0 < |home| && home[0] == '/' && !BareRoot(home) && !HasParentComponent(home)
  }

  /** UIDs that the allocator must never hand out again. */
  function Assigned(d: Db): set<nat> {
    (set id | id in d.accounts :: d.accounts[id].uid)
    + (set k | k in d.intents :: d.intents[k].uid)
    + d.retired
  }

  ghost predicate HasUsername(d: Db, name: string) {
    exists id :: id in d.accounts && d.accounts[id].username == name
  }

  /** SELECT id FROM accounts WHERE username = name. */
  ghost function FindUsername(d: Db, name: string): (r: Option<Id>)
    ensures r.Some? ==> r.value in d.accounts && d.accounts[r.value].username == name
    ensures r.None? ==> !HasUsername(d, name)
  {
    if HasUsername(d, name) then
      var id :| id in d.accounts && d.accounts[id].username == name;
      Some(id)
    else None
  }

  method LookupUsername(d: Db, name: string) returns (r: Option<Id>)
    ensures r.Some? ==> r.value in d.accounts && d.accounts[r.value].username == name
    ensures r.Some? <==> HasUsername(d, name)
  {
    var rest := d.accounts.Keys;
    while rest != {}
      invariant rest <= d.accounts.Keys
      invariant forall id :: id in d.accounts && id !in rest ==> d.accounts[id].username != name
      decreases |rest|
    {
      var id :| id in rest;
      if d.accounts[id].username == name {
        return Some(id);
      }
      rest := rest - {id};
    }
    return None;
  }
}
