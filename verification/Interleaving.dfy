/**
  The provisioning lock excludes other quota changes, not other transactions. Here those run between any two effects of
  the lock's holder, which decides each effect by what it read when it took the lock or after its own last effect.
 */
module Interleaving {
  import opened Types
  import opened Sums
  import opened Tables
  import opened Ops
  import opened Invariant
  import opened Preservation
  import opened Evolution
  import opened Runs
  import opened Native
  import opened NativeCommits
  import opened NativeRequests
  import opened HostSteps
  import opened NativeTheorems
  import QuotaCalls

  /** What the holder does: one kernel write for an account or a request, or one transaction. */
  datatype Effect = SetAccount(id: Id, bytes: nat) | SetRequest(key: Key, bytes: nat) | Transact(ev: Event)

  datatype Action = Own(effect: Effect) | Other(ev: Event)

  /**
    One call under the lock: the kernel writes before its transaction, the transaction, and the writes after it, which
    depend on whether it committed.
   */
  datatype Plan = Plan(lower: seq<Effect>, ev: Event, raise: seq<Effect>, undo: seq<Effect>)

  // ---------- What each effect needs ----------

  /** What an owner keeps when a child's quota changes. */
  ghost function OwnerKeeps(d: Db, owner: Id, before: nat, after: nat): nat {
    if owner in d.own then d.own[owner] else
    var rest := Limit(d, owner) + before - after;
    if rest >= 0 then rest else 0
  }

  ghost function BudgetKeeps(d: Db, id: Id, bytes: nat): nat {
    if id in d.own then d.own[id] else
    var rest := bytes - Children(d, id) - Pending(d, id);
    if rest >= 0 then rest else 0
  }

  /** Whoever loses bytes by a transaction has lost them in the kernel already, and a new account is limited there. */
  ghost predicate Lowers(cfg: Config, s: Sys, ev: Event) {
    match ev
    case EvSetAdminBudget(_, id, bytes) => Shrunk(cfg, s.db, s.native, id, BudgetKeeps(s.db, id, bytes))
    case EvSetAdminOwn(_, id, bytes) => Shrunk(cfg, s.db, s.native, id, bytes)
    case EvSetChildQuota(_, id, _, bytes) =>
      && bytes >= CHILD_MINIMUM && Shrunk(cfg, s.db, s.native, id, bytes)
      && (Parent(s.db, id).Some? ==>
            var owner := Parent(s.db, id).value;
            Shrunk(cfg, s.db, s.native, owner, OwnerKeeps(s.db, owner, QuotaOf(s.db.accounts[id]), bytes)))
    case EvReserveChild(owner, _, _, _, bytes, _) =>
      bytes >= CHILD_MINIMUM && Shrunk(cfg, s.db, s.native, owner, OwnerKeeps(s.db, owner, 0, bytes))
    case EvReserveAdmin(_, _, bytes, _) => bytes >= CHILD_MINIMUM
    case EvFinalize(_, input, _, key, _) => input.kind == Virtual && (key in s.db.intents ==> s.db.intents[key].uid in s.native)
    case EvCancelPending(_) => true
    case EvBeginPurge(_) => true
    case EvFinishPurge(_) => true
    case _ => false
  }

  ghost predicate Guard(cfg: Config, s: Sys, e: Effect) {
    match e
    case SetAccount(id, bytes) => IsVirtual(s.db, id) && bytes <= Limit(s.db, id)
    case SetRequest(key, bytes) => Open(s.db, key) && bytes <= s.db.intents[key].quota
    case Transact(ev) => cfg.userQuota ==> Lowers(cfg, s, ev)
  }

  ghost function Perform(cfg: Config, s: Sys, e: Effect): Sys {
    match e
    case SetAccount(id, bytes) =>
      if cfg.userQuota && id in s.db.accounts then Sys(s.db, s.native[s.db.accounts[id].uid := KernelLimit(cfg, bytes)]) else s
    case SetRequest(key, bytes) =>
      if cfg.userQuota && key in s.db.intents then Sys(s.db, s.native[s.db.intents[key].uid := KernelLimit(cfg, bytes)]) else s
    case Transact(ev) => Sys(After(s.db, ev), s.native)
  }

  // ---------- What other transactions leave alone ----------

  /** Everything that quotas are computed from is the same; accounts that are new are Linux accounts. */
  ghost predicate Drift(d: Db, e: Db) {
    && e.intents == d.intents && e.own == d.own && e.budgets == d.budgets && e.purged == d.purged
    && (forall id :: id in d.accounts ==> id in e.accounts && SameQuota(d.accounts[id], e.accounts[id]))
    && (forall id :: id in e.accounts && id !in d.accounts ==> e.accounts[id].kind == Linux && e.accounts[id].owner.None?)
  }

  predicate SameQuota(r: Row, t: Row) {
    t.uid == r.uid && t.kind == r.kind && t.owner == r.owner && t.quota == r.quota && (r.kind == Virtual ==> t.role == r.role)
  }

  lemma {:induction false} DriftTransitive(d: Db, e: Db, f: Db)
    requires Drift(d, e) && Drift(e, f)
    ensures Drift(d, f)
  {
  }

  lemma {:induction false} DriftSums(d: Db, e: Db, o: Id)
    requires Drift(d, e)
    ensures Children(e, o) == Children(d, o) && Pending(e, o) == Pending(d, o)
  {
    hide Total;
    assert ChildRows(e.accounts, o) == ChildRows(d.accounts, o);
  }

  lemma {:induction false} DriftLimit(d: Db, e: Db, id: Id)
    requires Drift(d, e)
    ensures id in d.accounts ==> Limit(e, id) == Limit(d, id)
    ensures IsVirtual(e, id) <==> IsVirtual(d, id)
    ensures Live(e, id) <==> Live(d, id)
  {
    hide Children, Pending;
    DriftSums(d, e, id);
  }

  lemma {:induction false} DriftShrunk(cfg: Config, d: Db, e: Db, native: map<nat, nat>, id: Id, bytes: nat)
    requires Drift(d, e)
    ensures Shrunk(cfg, e, native, id, bytes) <==> Shrunk(cfg, d, native, id, bytes)
  {
    hide KernelLimit;
  }

  lemma {:induction false} BackgroundDrift(d: Db, ev: Event)
    requires Inv(d) && Admissible(d, ev) && Background(ev)
    ensures Drift(d, After(d, ev))
  {
    hide Inv, Later, Step, Quiet, FewerProofs;
    if Step(d, ev).Ok? {
      match ev
      case EvSetPool(_, _) => DriftPool(d, ev);
      case EvCreate(_, _, _, _) => DriftCreate(d, ev);
      case EvIssueGrant(_, _, _, _, _, _) => DriftProof(d, ev);
      case EvBeginEnrollment(_, _, _, _, _) => DriftProof(d, ev);
      case EvCompleteEnrollment(_, _, _, _, _, _) => DriftEnroll(d, ev);
      case _ =>
        QuietStep(d, ev);
        QuietDrift(d, After(d, ev));
    }
  }

  /** A transaction outside the lock keeps recorded limits safe, and every account limited. */
  lemma {:induction false} BackgroundFollows(cfg: Config, s: Sys, ev: Event)
    requires SysInv(cfg, s) && Admissible(s.db, ev) && Background(ev)
    ensures Follows(cfg, s, Sys(After(s.db, ev), s.native))
  {
    hide Inv, NativeOk, Floored, Admissible, After;
    BackgroundKeepsLimits(cfg, s, ev);
    BackgroundDrift(s.db, ev);
    DriftIdentities(s.db, After(s.db, ev));
    FollowsOn(cfg, s.db, After(s.db, ev), s.native);
  }

  lemma {:induction false} DriftIdentities(d: Db, e: Db)
    requires Drift(d, e)
    ensures NoNewIdentity(d, e)
  {
  }

  lemma {:induction false} QuietDrift(d: Db, e: Db)
    requires Quiet(d, e) && Later(d, e)
    ensures Drift(d, e)
  {
  }

  lemma {:induction false} DriftPool(d: Db, ev: Event)
    requires ev.EvSetPool? && Step(d, ev).Ok?
    ensures Drift(d, After(d, ev))
  {
    hide Pending, Delegated;
  }

  lemma {:induction false} DriftProof(d: Db, ev: Event)
    requires (ev.EvIssueGrant? || ev.EvBeginEnrollment?) && Step(d, ev).Ok?
    ensures Drift(d, After(d, ev))
  {
    hide LiveGrants, GrantsOf, EnrollmentsKept, FindUsername, MayEnroll, ValidIdentity;
  }

  lemma {:induction false} DriftCreate(d: Db, ev: Event)
    requires Inv(d) && Admissible(d, ev) && ev.EvCreate? && ev.input.kind == Linux && Step(d, ev).Ok?
    ensures Drift(d, After(d, ev))
  {
    hide Inv, CreateRecord, UidTaken, Assigned, NewRow;
    FreshAccountId(d, ev.freshId);
    LinuxCreate(d, ev.actor, ev.input, ev.hash, ev.freshId);
    NewRowKind(ev.input, ev.hash);
  }

  lemma {:induction false} DriftEnroll(d: Db, ev: Event)
    requires Inv(d) && Admissible(d, ev) && ev.EvCompleteEnrollment? && Step(d, ev).Ok?
    ensures Drift(d, After(d, ev))
  {
    hide Inv, UidTaken, Assigned, FindUsername, CompleteEnrollment, Quiet, FewerProofs, Later;
    if FindUsername(d, ev.identity.username).Some? {
      EnrollQuiet(d, ev.token, ev.caller, ev.identity, ev.hash, ev.at, ev.freshId);
      QuietDrift(d, After(d, ev));
    } else {
      FreshAccountId(d, ev.freshId);
      EnrolledTables(d, ev.token, ev.caller, ev.identity, ev.hash, ev.at, ev.freshId);
    }
  }

  /** What the holder found out stays true while other transactions run. */
  lemma {:induction false} GuardSurvives(cfg: Config, s: Sys, t: Sys, e: Effect)
    requires Inv(s.db) && Drift(s.db, t.db) && t.native == s.native && Guard(cfg, s, e)
    ensures Guard(cfg, t, e)
  {
    hide Inv, Limit, Shrunk, Children, Pending, KernelLimit;
    match e
    case SetAccount(id, bytes) => DriftLimit(s.db, t.db, id);
    case SetRequest(key, bytes) =>
    case Transact(ev) =>
      if cfg.userQuota {
        LowersSurvives(cfg, s, t, ev);
      }
  }

  lemma {:induction false} LowersSurvives(cfg: Config, s: Sys, t: Sys, ev: Event)
    requires Inv(s.db) && Drift(s.db, t.db) && t.native == s.native && Lowers(cfg, s, ev)
    ensures Lowers(cfg, t, ev)
  {
    hide Inv, Limit, Shrunk, Children, Pending, KernelLimit;
    match ev
    case EvSetAdminBudget(_, id, bytes) =>
      DriftSums(s.db, t.db, id);
      DriftShrunk(cfg, s.db, t.db, s.native, id, BudgetKeeps(s.db, id, bytes));
    case EvSetAdminOwn(_, id, bytes) => DriftShrunk(cfg, s.db, t.db, s.native, id, bytes);
    case EvSetChildQuota(_, id, _, bytes) =>
      DriftShrunk(cfg, s.db, t.db, s.native, id, bytes);
      if Parent(t.db, id).Some? {
        var owner := Parent(t.db, id).value;
        OwnerShrunk(cfg, s.db, t.db, s.native, owner, QuotaOf(s.db.accounts[id]), bytes);
      }
    case EvReserveChild(owner, _, _, _, bytes, _) => OwnerShrunk(cfg, s.db, t.db, s.native, owner, 0, bytes);
    case _ =>
  }

  lemma {:induction false} OwnerShrunk(cfg: Config, d: Db, e: Db, native: map<nat, nat>, owner: Id, before: nat, after: nat)
    requires Drift(d, e) && Shrunk(cfg, d, native, owner, OwnerKeeps(d, owner, before, after))
    ensures Shrunk(cfg, e, native, owner, OwnerKeeps(e, owner, before, after))
  {
    hide Limit, KernelLimit;
    DriftLimit(d, e, owner);
  }

  // ---------- One effect is safe ----------

  lemma {:induction false} EffectSafe(cfg: Config, s: Sys, e: Effect)
    requires SysInv(cfg, s) && Guard(cfg, s, e) && (e.Transact? ==> Admissible(s.db, e.ev))
    ensures Follows(cfg, s, Perform(cfg, s, e))
  {
    hide Inv, NativeOk, Floored, Limit, KernelLimit, Lowers, Admissible, After;
    match e
    case SetAccount(id, bytes) => AccountWrite(cfg, s.db, s.native, id, bytes);
    case SetRequest(key, bytes) => RequestWrite(cfg, s.db, s.native, key, bytes);
    case Transact(ev) => TransactSafe(cfg, s, ev);
  }

  lemma {:induction false} TransactSafe(cfg: Config, s: Sys, ev: Event)
    requires SysInv(cfg, s) && (cfg.userQuota ==> Lowers(cfg, s, ev)) && Admissible(s.db, ev)
    ensures Follows(cfg, s, Sys(After(s.db, ev), s.native))
  {
    hide Inv, NativeOk, Floored, Limit, KernelLimit, Shrunk, SetAdminBudget, SetAdminOwn, SetChildQuota, ReserveChild, ReserveAdmin,
      Finalize, CancelPending, BeginPurge, FinishPurge, Later, Assigned, OwnerKeeps, BudgetKeeps;
    if !cfg.userQuota {
      StepKeeps(s.db, ev);
    } else if Step(s.db, ev).Ok? {
      match ev
      case EvSetAdminBudget(actor, id, bytes) => BudgetSafe(cfg, s, actor, id, bytes);
      case EvSetAdminOwn(actor, id, bytes) => OwnSafe(cfg, s, actor, id, bytes);
      case EvSetChildQuota(actor, id, generation, bytes) => QuotaSafe(cfg, s, actor, id, generation, bytes);
      case EvReserveChild(owner, generation, key, name, bytes, uid) => ReserveSafe(cfg, s, ev);
      case EvReserveAdmin(key, name, bytes, uid) => ReserveAdminCommit(cfg, s.db, s.native, key, name, bytes, uid);
      case EvFinalize(actor, input, hash, key, id) => FinalizeCommit(cfg, s.db, s.native, actor, input, hash, key, id);
      case EvCancelPending(key) => CancelCommit(cfg, s.db, s.native, key);
      case EvBeginPurge(id) => BeginPurgeCommit(cfg, s.db, s.native, id);
      case EvFinishPurge(id) => FinishPurgeCommit(cfg, s.db, s.native, id);
    }
  }

  lemma {:induction false} BudgetSafe(cfg: Config, s: Sys, actor: Authority, id: Id, bytes: nat)
    requires SysInv(cfg, s) && SetAdminBudget(s.db, actor, id, bytes).Ok?
    requires Shrunk(cfg, s.db, s.native, id, BudgetKeeps(s.db, id, bytes))
    ensures Follows(cfg, s, Sys(SetAdminBudget(s.db, actor, id, bytes).value.db, s.native))
  {
    hide Inv, NativeOk, Floored, Limit, KernelLimit, Shrunk, Children, Pending, Delegated;
    BudgetCommit(cfg, s.db, s.native, id, bytes);
  }

  lemma {:induction false} OwnSafe(cfg: Config, s: Sys, actor: Authority, id: Id, bytes: nat)
    requires SysInv(cfg, s) && SetAdminOwn(s.db, actor, id, bytes).Ok? && Shrunk(cfg, s.db, s.native, id, bytes)
    ensures Follows(cfg, s, Sys(SetAdminOwn(s.db, actor, id, bytes).value.db, s.native))
  {
    hide Inv, NativeOk, Floored, Limit, KernelLimit, Shrunk, Children, Pending;
    OwnCommit(cfg, s.db, s.native, id, bytes);
  }

  lemma {:induction false} QuotaSafe(cfg: Config, s: Sys, actor: Authority, id: Id, generation: nat, bytes: nat)
    requires SysInv(cfg, s) && SetChildQuota(s.db, actor, id, generation, bytes).Ok?
    requires Lowers(cfg, s, EvSetChildQuota(actor, id, generation, bytes))
    ensures Follows(cfg, s, Sys(SetChildQuota(s.db, actor, id, generation, bytes).value.db, s.native))
  {
    hide Inv, NativeOk, Floored, Limit, KernelLimit, SetChildQuota;
    ChildRemaining(s.db, actor, id, generation, bytes);
    LimitOfFixed(s.db, Parent(s.db, id).value);
    QuotaCommit(cfg, s.db, s.native, actor, id, generation, bytes);
  }

  lemma {:induction false} LimitOfFixed(d: Db, id: Id)
    requires Inv(d)
    ensures IsVirtual(d, id) && id in d.own ==> Limit(d, id) == d.own[id]
  {
    hide RowsOk, PurgedOk, IntentsOk, LedgerOk, ProofRowsOk, ProofCapsOk;
  }

  lemma {:induction false} ReserveSafe(cfg: Config, s: Sys, ev: Event)
    requires SysInv(cfg, s) && ev.EvReserveChild? && Step(s.db, ev).Ok? && Lowers(cfg, s, ev)
    ensures Follows(cfg, s, Sys(After(s.db, ev), s.native))
  {
    hide Inv, NativeOk, Floored, Limit, KernelLimit, ReserveChild, Assigned, Later, Reserved, Children, Pending;
    ReserveRemaining(s.db, ev.owner, ev.generation, ev.key, ev.name, ev.bytes, ev.uid);
    LimitOfFixed(s.db, ev.owner);
    ReserveCommit(cfg, s.db, s.native, ev.owner, ev.generation, ev.key, ev.name, ev.bytes, ev.uid);
  }

  // ---------- Whole calls, interleaved ----------

  ghost function Next(cfg: Config, s: Sys, a: Action): Sys {
    match a
    case Own(e) => Perform(cfg, s, e)
    case Other(ev) => Sys(After(s.db, ev), s.native)
  }

  /** Every state of a run, the first one included. */
  ghost function States(cfg: Config, s: Sys, run: seq<Action>): seq<Sys>
    decreases |run|
  {
    if run == [] then [s] else [s] + States(cfg, Next(cfg, s, run[0]), run[1..])
  }

  ghost predicate OtherOk(s: Sys, ev: Event) {
    Background(ev) && Admissible(s.db, ev)
  }

  /** The rest of a call: the given kernel writes in order, any of which may be refused; it may stop anywhere. */
  ghost predicate Writing(cfg: Config, s: Sys, todo: seq<Effect>, run: seq<Action>)
    decreases |run|, |todo|
  {
    run == [] || (
      match run[0]
      case Other(ev) => OtherOk(s, ev) && Writing(cfg, Next(cfg, s, run[0]), todo, run[1..])
      case Own(e) =>
        todo != [] &&
        ((e == todo[0] && Writing(cfg, Next(cfg, s, run[0]), todo[1..], run[1..])) || Writing(cfg, s, todo[1..], run)))
  }

  /** A call that still has writes before its transaction to do: if one is refused, the call is undone. */
  ghost predicate Calling(cfg: Config, s: Sys, p: Plan, todo: seq<Effect>, run: seq<Action>)
    decreases |run|
  {
    || Writing(cfg, s, p.undo, run)
    || (run != [] &&
        match run[0]
        case Other(ev) => OtherOk(s, ev) && Calling(cfg, Next(cfg, s, run[0]), p, todo, run[1..])
        case Own(e) =>
          if todo != [] then e == todo[0] && Calling(cfg, Next(cfg, s, run[0]), p, todo[1..], run[1..])
          else
            && e == Transact(p.ev) && Admissible(s.db, p.ev)
            && Writing(cfg, Next(cfg, s, run[0]), if Step(s.db, p.ev).Ok? then p.raise else p.undo, run[1..]))
  }

  // ---------- When a plan is sound ----------

  /** Writes that what the holder read allows. */
  ghost predicate Allowed(cfg: Config, s: Sys, writes: seq<Effect>) {
    forall i :: 0 <= i < |writes| ==> !writes[i].Transact? && Guard(cfg, s, writes[i])
  }

  /** A write that was made is still in force. */
  ghost predicate InForce(cfg: Config, s: Sys, e: Effect) {
    cfg.userQuota ==>
      match e
      case SetAccount(id, bytes) =>
        id in s.db.accounts && s.db.accounts[id].uid in s.native && s.native[s.db.accounts[id].uid] == KernelLimit(cfg, bytes)
      case SetRequest(key, bytes) =>
        key in s.db.intents && s.db.intents[key].uid in s.native && s.native[s.db.intents[key].uid] == KernelLimit(cfg, bytes)
      case Transact(_) => true
  }

  /** A state in which the transaction may run: others have moved on, and the writes before it are made. */
  ghost predicate Ready(cfg: Config, view: Sys, p: Plan, t: Sys) {
    Drift(view.db, t.db) && SysInv(cfg, t) && forall i :: 0 <= i < |p.lower| ==> InForce(cfg, t, p.lower[i])
  }

  ghost predicate Sound(cfg: Config, view: Sys, p: Plan) {
    && |p.lower| <= 1 && Allowed(cfg, view, p.lower) && Allowed(cfg, view, p.undo)
    && (forall t: Sys :: Ready(cfg, view, p, t) ==> Guard(cfg, t, Transact(p.ev)))
    && (forall t: Sys :: Ready(cfg, view, p, t) && Step(t.db, p.ev).Ok? ==> Allowed(cfg, Next(cfg, t, Own(Transact(p.ev))), p.raise))
  }

  lemma {:induction false} StatesSafe(cfg: Config, s: Sys, run: seq<Action>)
    requires SysInv(cfg, s)
    requires run != [] ==>
      Follows(cfg, s, Next(cfg, s, run[0])) && SafeThroughout(cfg, States(cfg, Next(cfg, s, run[0]), run[1..]))
    ensures SafeThroughout(cfg, States(cfg, s, run))
  {
    hide SysInv, Next, Enforced;
    if run != [] {
      var rest := States(cfg, Next(cfg, s, run[0]), run[1..]);
      FirstState(cfg, Next(cfg, s, run[0]), run[1..]);
      SafePrepend(cfg, s, rest);
    }
  }

  lemma {:induction false} FirstState(cfg: Config, s: Sys, run: seq<Action>)
    ensures States(cfg, s, run) != [] && States(cfg, s, run)[0] == s
  {
  }

  lemma {:induction false} SafePrepend(cfg: Config, s: Sys, rest: seq<Sys>)
    requires SysInv(cfg, s) && rest != [] && Follows(cfg, s, rest[0]) && SafeThroughout(cfg, rest)
    ensures SafeThroughout(cfg, [s] + rest)
  {
    hide SysInv, Enforced;
    var all := [s] + rest;
    forall i, j | 0 <= i <= j < |all| && Enforced(cfg, all[i]) ensures Enforced(cfg, all[j]) {
      if i == 0 && j > 0 {
        assert Enforced(cfg, rest[0]) ==> Enforced(cfg, rest[j - 1]);
      } else if i > 0 {
        assert Enforced(cfg, rest[i - 1]) ==> Enforced(cfg, rest[j - 1]);
      }
    }
  }

  lemma {:induction false} AllowedDrift(cfg: Config, s: Sys, t: Sys, writes: seq<Effect>)
    requires Drift(s.db, t.db) && Allowed(cfg, s, writes)
    ensures Allowed(cfg, t, writes)
  {
    hide Limit;
    forall i | 0 <= i < |writes| ensures Guard(cfg, t, writes[i]) {
      if writes[i].SetAccount? {
        DriftLimit(s.db, t.db, writes[i].id);
      }
    }
  }

  lemma {:induction false} OtherStep(cfg: Config, view: Sys, s: Sys, ev: Event)
    requires SysInv(cfg, s) && Drift(view.db, s.db) && OtherOk(s, ev)
    ensures Follows(cfg, s, Next(cfg, s, Other(ev))) && Drift(view.db, Next(cfg, s, Other(ev)).db)
  {
    hide Inv, NativeOk, Floored, Drift, Admissible, After;
    BackgroundFollows(cfg, s, ev);
    BackgroundDrift(s.db, ev);
    DriftTransitive(view.db, s.db, After(s.db, ev));
  }

  lemma {:induction false} OwnWrite(cfg: Config, view: Sys, s: Sys, e: Effect)
    requires SysInv(cfg, s) && Drift(view.db, s.db) && Allowed(cfg, view, [e])
    ensures Follows(cfg, s, Next(cfg, s, Own(e))) && Next(cfg, s, Own(e)).db == s.db && InForce(cfg, Next(cfg, s, Own(e)), e)
  {
    hide SysInv, Drift, KernelLimit, Limit;
    AllowedDrift(cfg, view, s, [e]);
    assert Guard(cfg, s, [e][0]);
    EffectSafe(cfg, s, e);
  }

  /** Writes that were allowed once stay safe whatever runs between them. */
  lemma {:induction false} WritingSafe(cfg: Config, view: Sys, s: Sys, todo: seq<Effect>, run: seq<Action>)
    requires SysInv(cfg, s) && Drift(view.db, s.db) && Allowed(cfg, view, todo) && Writing(cfg, s, todo, run)
    ensures SafeThroughout(cfg, States(cfg, s, run))
    decreases |run|, |todo|
  {
    hide SysInv, Drift, Guard, SafeThroughout, OtherOk, Next;
    if run != [] {
      if run[0].Other? {
        OtherStep(cfg, view, s, run[0].ev);
        WritingSafe(cfg, view, Next(cfg, s, run[0]), todo, run[1..]);
      } else if run[0].effect == todo[0] && Writing(cfg, Next(cfg, s, run[0]), todo[1..], run[1..]) {
        OwnWrite(cfg, view, s, todo[0]);
        WritingSafe(cfg, view, Next(cfg, s, run[0]), todo[1..], run[1..]);
      } else {
        WritingSafe(cfg, view, s, todo[1..], run);
        return;
      }
    }
    StatesSafe(cfg, s, run);
  }

  lemma {:induction false} ReadyStays(cfg: Config, view: Sys, p: Plan, s: Sys, ev: Event)
    requires Ready(cfg, view, p, s) && OtherOk(s, ev)
    ensures Ready(cfg, view, p, Next(cfg, s, Other(ev)))
  {
    hide Inv, NativeOk, Floored, KernelLimit, OtherOk, Admissible, After;
    OtherStep(cfg, view, s, ev);
    OtherStep(cfg, s, s, ev) by {
      DriftSame(s.db);
    }
  }

  lemma {:induction false} DriftSame(d: Db)
    ensures Drift(d, d)
  {
  }

  lemma {:induction false} TransactStep(cfg: Config, view: Sys, s: Sys, p: Plan, run: seq<Action>)
    requires Sound(cfg, view, p) && Ready(cfg, view, p, s) && Admissible(s.db, p.ev)
    requires Writing(cfg, Next(cfg, s, Own(Transact(p.ev))), if Step(s.db, p.ev).Ok? then p.raise else p.undo, run)
    ensures Follows(cfg, s, Next(cfg, s, Own(Transact(p.ev))))
    ensures SafeThroughout(cfg, States(cfg, Next(cfg, s, Own(Transact(p.ev))), run))
  {
    hide SysInv, Drift, Guard, Allowed, SafeThroughout, InForce, Admissible, Step, Writing;
    EffectSafe(cfg, s, Transact(p.ev));
    var t := Next(cfg, s, Own(Transact(p.ev)));
    if Step(s.db, p.ev).Ok? {
      DriftSame(t.db);
      WritingSafe(cfg, t, t, p.raise, run);
    } else {
      WritingSafe(cfg, view, t, p.undo, run);
    }
  }

  lemma {:induction false} CallingSafe(cfg: Config, view: Sys, s: Sys, p: Plan, todo: seq<Effect>, run: seq<Action>)
    requires Sound(cfg, view, p) && SysInv(cfg, s) && Drift(view.db, s.db) && Calling(cfg, s, p, todo, run)
    requires todo == p.lower || (todo == [] && Ready(cfg, view, p, s))
    ensures SafeThroughout(cfg, States(cfg, s, run))
    decreases |run|
  {
    hide SysInv, Drift, Guard, Allowed, SafeThroughout, OtherOk, Next, InForce, Writing, Admissible;
    if Writing(cfg, s, p.undo, run) {
      WritingSafe(cfg, view, s, p.undo, run);
      return;
    }
    if run[0].Other? {
      OtherStep(cfg, view, s, run[0].ev);
      if todo == [] {
        ReadyStays(cfg, view, p, s, run[0].ev);
      }
      CallingSafe(cfg, view, Next(cfg, s, run[0]), p, todo, run[1..]);
    } else if todo != [] {
      assert p.lower == [todo[0]] && todo[1..] == [];
      OwnWrite(cfg, view, s, todo[0]);
      CallingSafe(cfg, view, Next(cfg, s, run[0]), p, [], run[1..]);
    } else {
      TransactStep(cfg, view, s, p, run[1..]);
    }
    StatesSafe(cfg, s, run);
  }

  /** A sound plan, started in a safe state, passes through safe states only, however other transactions interleave. */
  lemma {:induction false} InterleavedSafe(cfg: Config, s: Sys, p: Plan, run: seq<Action>)
    requires SysInv(cfg, s) && Sound(cfg, s, p) && Calling(cfg, s, p, p.lower, run)
    ensures SafeThroughout(cfg, States(cfg, s, run))
  {
    hide SysInv, Sound, Calling, SafeThroughout;
    DriftSame(s.db);
    CallingSafe(cfg, s, s, p, p.lower, run);
  }

  // ---------- The calls ----------

  /** set_budget, and with a fixed own-file quota set_own_quota: the limit shrinks before the commit, or grows after it. */
  ghost function LimitPlan(d: Db, id: Id, keeps: nat, ev: Event): Plan {
    if !IsVirtual(d, id) then Plan([], ev, [], []) else
    Plan(if keeps < Limit(d, id) then [SetAccount(id, keeps)] else [], ev, [SetAccount(id, keeps)], [SetAccount(id, Limit(d, id))])
  }

  /** set_quota: child and owner pass bytes to each other. */
  ghost function QuotaPlan(d: Db, actor: Authority, id: Id, generation: nat, bytes: nat): Plan
    requires id in d.accounts && IsChild(d.accounts[id]) && d.accounts[id].owner.Some?
  {
    var owner, now := d.accounts[id].owner.value, QuotaOf(d.accounts[id]);
    var keeps := OwnerKeeps(d, owner, now, bytes);
    var lower, undo :=
      if bytes > now && IsVirtual(d, owner) then [SetAccount(owner, keeps)] else if bytes < now then [SetAccount(id, bytes)] else [],
      if bytes < now then [SetAccount(id, now)] else
      if bytes > now && IsVirtual(d, owner) then [SetAccount(owner, Limit(d, owner))] else [];
    Plan(lower, EvSetChildQuota(actor, id, generation, bytes),
         [SetAccount(id, bytes)] + if IsVirtual(d, owner) then [SetAccount(owner, keeps)] else [], undo)
  }

  /** provision, first half: a virtual owner gives up the child's bytes before the request is recorded. */
  ghost function ReservePlan(d: Db, owner: Id, generation: nat, key: Key, name: string, quota: nat, uid: nat): Plan {
    var ev := EvReserveChild(owner, generation, key, name, quota, uid);
    if !IsVirtual(d, owner) then Plan([], ev, [], []) else
    Plan([SetAccount(owner, OwnerKeeps(d, owner, 0, quota))], ev, [], [SetAccount(owner, Limit(d, owner))])
  }

  /** provision and create_admin, second half: the request's kernel limit, then the account. */
  function FinishPlan(d: Db, actor: Authority, input: NewAccount, hash: Option<string>, key: Key, id: Id): Plan
    requires key in d.intents
  {
    Plan([SetRequest(key, d.intents[key].quota)], EvFinalize(actor, input, hash, key, id), [], [])
  }

  lemma {:induction false} ShrunkInForce(cfg: Config, view: Sys, t: Sys, id: Id, keeps: nat)
    requires Inv(view.db) && SysInv(cfg, t) && cfg.userQuota && Drift(view.db, t.db)
    requires IsVirtual(view.db, id) && keeps < Limit(view.db, id) ==> InForce(cfg, t, SetAccount(id, keeps))
    ensures Shrunk(cfg, t.db, t.native, id, keeps)
  {
    hide Inv, NativeOk, Floored, Limit, KernelLimit;
    DriftLimit(view.db, t.db, id);
    if IsVirtual(view.db, id) {
      ShrunkNow(cfg, t.db, t.native, id, keeps);
    }
  }

  lemma {:induction false} BudgetPlanSound(cfg: Config, s: Sys, id: Id, bytes: nat)
    requires SysInv(cfg, s)
    ensures Sound(cfg, s, LimitPlan(s.db, id, BudgetKeeps(s.db, id, bytes), EvSetAdminBudget(Root, id, bytes)))
  {
    hide Inv, NativeOk, Floored, Limit, KernelLimit, Drift, Shrunk, SetAdminBudget, BudgetKeeps;
    var keeps := BudgetKeeps(s.db, id, bytes);
    var p := LimitPlan(s.db, id, keeps, EvSetAdminBudget(Root, id, bytes));
    forall t: Sys | Ready(cfg, s, p, t) ensures Guard(cfg, t, Transact(p.ev)) {
      if cfg.userQuota {
        assert p.lower != [] ==> InForce(cfg, t, p.lower[0]);
        ShrunkInForce(cfg, s, t, id, keeps);
        BudgetKeepsDrift(s.db, t.db, id, bytes);
      }
    }
    forall t: Sys | Ready(cfg, s, p, t) && Step(t.db, p.ev).Ok? ensures Allowed(cfg, Next(cfg, t, Own(Transact(p.ev))), p.raise) {
      BudgetLimit(t.db, id, bytes);
      BudgetKeepsDrift(s.db, t.db, id, bytes);
      BudgetRemaining(t.db, id, bytes);
      DriftLimit(s.db, t.db, id);
    }
  }

  lemma {:induction false} BudgetKeepsDrift(d: Db, e: Db, id: Id, bytes: nat)
    requires Drift(d, e)
    ensures BudgetKeeps(e, id, bytes) == BudgetKeeps(d, id, bytes)
  {
    hide Children, Pending;
    DriftSums(d, e, id);
  }

  lemma {:induction false} BudgetRemaining(d: Db, id: Id, bytes: nat)
    requires SetAdminBudget(d, Root, id, bytes).Ok?
    ensures SetAdminBudget(d, Root, id, bytes).value.remaining == BudgetKeeps(d, id, bytes)
  {
    hide Children, Pending, Delegated;
  }

  lemma {:induction false} OwnPlanSound(cfg: Config, s: Sys, id: Id, bytes: nat)
    requires SysInv(cfg, s)
    ensures Sound(cfg, s, LimitPlan(s.db, id, bytes, EvSetAdminOwn(Root, id, bytes)))
  {
    hide Inv, NativeOk, Floored, Limit, KernelLimit, Drift, Shrunk, SetAdminOwn;
    var p := LimitPlan(s.db, id, bytes, EvSetAdminOwn(Root, id, bytes));
    forall t: Sys | Ready(cfg, s, p, t) ensures Guard(cfg, t, Transact(p.ev)) {
      if cfg.userQuota {
        assert p.lower != [] ==> InForce(cfg, t, p.lower[0]);
        ShrunkInForce(cfg, s, t, id, bytes);
      }
    }
    forall t: Sys | Ready(cfg, s, p, t) && Step(t.db, p.ev).Ok? ensures Allowed(cfg, Next(cfg, t, Own(Transact(p.ev))), p.raise) {
      OwnLimitAfter(t.db, id, bytes);
    }
  }

  lemma {:induction false} OwnLimitAfter(d: Db, id: Id, bytes: nat)
    requires SetAdminOwn(d, Root, id, bytes).Ok?
    ensures var e := SetAdminOwn(d, Root, id, bytes).value.db; IsVirtual(e, id) && Limit(e, id) == bytes
  {
    hide Children, Pending;
  }

  /** An owner that was there keeps the same, whatever others do in between. */
  lemma {:induction false} OwnerKeepsDrift(d: Db, e: Db, owner: Id, before: nat, after: nat)
    requires Drift(d, e) && owner in d.accounts
    ensures OwnerKeeps(e, owner, before, after) == OwnerKeeps(d, owner, before, after)
  {
    hide Limit;
    DriftLimit(d, e, owner);
  }

  lemma {:induction false} QuotaPlanLowers(cfg: Config, s: Sys, t: Sys, actor: Authority, id: Id, generation: nat, bytes: nat)
    requires Inv(s.db) && id in s.db.accounts && IsChild(s.db.accounts[id]) && s.db.accounts[id].owner.Some?
    requires cfg.userQuota && bytes >= CHILD_MINIMUM && Ready(cfg, s, QuotaPlan(s.db, actor, id, generation, bytes), t)
    ensures Lowers(cfg, t, EvSetChildQuota(actor, id, generation, bytes))
  {
    hide Inv, NativeOk, Floored, Limit, KernelLimit, Shrunk, OwnerKeeps;
    var p := QuotaPlan(s.db, actor, id, generation, bytes);
    var owner, now := s.db.accounts[id].owner.value, QuotaOf(s.db.accounts[id]);
    assert p.lower != [] ==> InForce(cfg, t, p.lower[0]);
    ChildOfOwner(s.db, id);
    ShrunkInForce(cfg, s, t, id, bytes);
    if IsVirtual(s.db, owner) {
      OwnerKeepsBounds(s.db, owner, now, bytes);
    }
    ShrunkInForce(cfg, s, t, owner, OwnerKeeps(s.db, owner, now, bytes));
    OwnerKeepsDrift(s.db, t.db, owner, now, bytes);
  }

  lemma {:induction false} QuotaPlanRaises(cfg: Config, s: Sys, t: Sys, actor: Authority, id: Id, generation: nat, bytes: nat)
    requires Inv(s.db) && id in s.db.accounts && IsChild(s.db.accounts[id]) && s.db.accounts[id].owner.Some?
    requires Ready(cfg, s, QuotaPlan(s.db, actor, id, generation, bytes), t)
    requires SetChildQuota(t.db, actor, id, generation, bytes).Ok?
    ensures Allowed(cfg, Sys(SetChildQuota(t.db, actor, id, generation, bytes).value.db, t.native),
                    QuotaPlan(s.db, actor, id, generation, bytes).raise)
  {
    hide Inv, NativeOk, Floored, InForce, KernelLimit, Limit, SetChildQuota;
    var owner, now := s.db.accounts[id].owner.value, QuotaOf(s.db.accounts[id]);
    ChildOfOwner(s.db, id);
    ChildRemaining(t.db, actor, id, generation, bytes);
    QuotaLimits(t.db, actor, id, generation, bytes);
    QuotaCalls.AcceptedRows(t.db, QuotaCalls.Call(actor, id, 0, generation, bytes));
    OwnerKeepsDrift(s.db, t.db, owner, now, bytes);
    LimitOfFixed(t.db, owner);
  }

  lemma {:induction false} QuotaPlanSound(cfg: Config, s: Sys, actor: Authority, id: Id, generation: nat, bytes: nat)
    requires SysInv(cfg, s) && id in s.db.accounts && IsChild(s.db.accounts[id]) && s.db.accounts[id].owner.Some?
    requires cfg.userQuota ==> bytes >= CHILD_MINIMUM
    ensures Sound(cfg, s, QuotaPlan(s.db, actor, id, generation, bytes))
  {
    hide Inv, NativeOk, Floored, Limit, KernelLimit, Drift, Shrunk, SetChildQuota, OwnerKeeps, Ready, Lowers;
    var p := QuotaPlan(s.db, actor, id, generation, bytes);
    ChildOfOwner(s.db, id);
    if IsVirtual(s.db, s.db.accounts[id].owner.value) {
      OwnerKeepsBounds(s.db, s.db.accounts[id].owner.value, QuotaOf(s.db.accounts[id]), bytes);
    }
    forall t: Sys | Ready(cfg, s, p, t) ensures Guard(cfg, t, Transact(p.ev)) {
      if cfg.userQuota {
        QuotaPlanLowers(cfg, s, t, actor, id, generation, bytes);
      }
    }
    forall t: Sys | Ready(cfg, s, p, t) && Step(t.db, p.ev).Ok? ensures Allowed(cfg, Next(cfg, t, Own(Transact(p.ev))), p.raise) {
      QuotaPlanRaises(cfg, s, t, actor, id, generation, bytes);
    }
  }

  lemma {:induction false} OwnerKeepsBounds(d: Db, owner: Id, before: nat, after: nat)
    requires Inv(d) && IsVirtual(d, owner)
    ensures after >= before ==> OwnerKeeps(d, owner, before, after) <= Limit(d, owner)
    ensures after <= before ==> OwnerKeeps(d, owner, before, after) >= Limit(d, owner)
  {
    hide Inv, Limit;
    LimitOfFixed(d, owner);
  }

  lemma {:induction false} ReservePlanSound(cfg: Config, s: Sys, owner: Id, generation: nat, key: Key, name: string, quota: nat, uid: nat)
    requires SysInv(cfg, s) && (cfg.userQuota ==> quota >= CHILD_MINIMUM)
    ensures Sound(cfg, s, ReservePlan(s.db, owner, generation, key, name, quota, uid))
  {
    hide Inv, NativeOk, Floored, Limit, KernelLimit, Drift, Shrunk, ReserveChild, OwnerKeeps;
    var p := ReservePlan(s.db, owner, generation, key, name, quota, uid);
    if IsVirtual(s.db, owner) {
      OwnerKeepsBounds(s.db, owner, 0, quota);
    }
    forall t: Sys | Ready(cfg, s, p, t) ensures Guard(cfg, t, Transact(p.ev)) {
      if cfg.userQuota {
        assert p.lower != [] ==> InForce(cfg, t, p.lower[0]);
        ShrunkInForce(cfg, s, t, owner, OwnerKeeps(s.db, owner, 0, quota));
        OwnerShrunk(cfg, s.db, t.db, t.native, owner, 0, quota) by {
          DriftShrunk(cfg, s.db, t.db, t.native, owner, OwnerKeeps(s.db, owner, 0, quota));
        }
      }
    }
  }

  lemma {:induction false} FinishPlanSound(cfg: Config, s: Sys, actor: Authority, input: NewAccount, hash: Option<string>, key: Key, id: Id)
    requires Open(s.db, key) && input.kind == Virtual
    ensures Sound(cfg, s, FinishPlan(s.db, actor, input, hash, key, id))
  {
    hide SysInv, KernelLimit, Finalize;
    var p := FinishPlan(s.db, actor, input, hash, key, id);
    forall t: Sys | Ready(cfg, s, p, t) ensures Guard(cfg, t, Transact(p.ev)) {
      assert InForce(cfg, t, p.lower[0]);
    }
  }

  // ---------- In short ----------

  /** set_quota with a current view of the child, interleaved with anything that does not take the lock. */
  lemma {:induction false} QuotaCallInterleaved(cfg: Config, s: Sys, actor: Authority, id: Id, generation: nat, bytes: nat, run: seq<Action>)
    requires SysInv(cfg, s) && id in s.db.accounts && IsChild(s.db.accounts[id]) && s.db.accounts[id].owner.Some?
    requires cfg.userQuota ==> bytes >= CHILD_MINIMUM
    requires var p := QuotaPlan(s.db, actor, id, generation, bytes); Calling(cfg, s, p, p.lower, run)
    ensures SafeThroughout(cfg, States(cfg, s, run))
  {
    hide SysInv, Sound, Calling, SafeThroughout, QuotaPlan;
    QuotaPlanSound(cfg, s, actor, id, generation, bytes);
    InterleavedSafe(cfg, s, QuotaPlan(s.db, actor, id, generation, bytes), run);
  }

  /** set_budget and set_own_quota. */
  lemma {:induction false} LimitCallInterleaved(cfg: Config, s: Sys, id: Id, bytes: nat, own: bool, run: seq<Action>)
    requires SysInv(cfg, s)
    requires var p := if own then LimitPlan(s.db, id, bytes, EvSetAdminOwn(Root, id, bytes))
      else LimitPlan(s.db, id, BudgetKeeps(s.db, id, bytes), EvSetAdminBudget(Root, id, bytes));
      Calling(cfg, s, p, p.lower, run)
    ensures SafeThroughout(cfg, States(cfg, s, run))
  {
    hide SysInv, Sound, Calling, SafeThroughout, LimitPlan;
    if own {
      OwnPlanSound(cfg, s, id, bytes);
      InterleavedSafe(cfg, s, LimitPlan(s.db, id, bytes, EvSetAdminOwn(Root, id, bytes)), run);
    } else {
      BudgetPlanSound(cfg, s, id, bytes);
      InterleavedSafe(cfg, s, LimitPlan(s.db, id, BudgetKeeps(s.db, id, bytes), EvSetAdminBudget(Root, id, bytes)), run);
    }
  }

  /** provision, until the request is recorded. */
  lemma {:induction false} ReserveCallInterleaved(cfg: Config, s: Sys, owner: Id, generation: nat, key: Key, name: string, quota: nat,
                                                  uid: nat, run: seq<Action>)
    requires SysInv(cfg, s) && (cfg.userQuota ==> quota >= CHILD_MINIMUM)
    requires var p := ReservePlan(s.db, owner, generation, key, name, quota, uid); Calling(cfg, s, p, p.lower, run)
    ensures SafeThroughout(cfg, States(cfg, s, run))
  {
    hide SysInv, Sound, Calling, SafeThroughout, ReservePlan;
    ReservePlanSound(cfg, s, owner, generation, key, name, quota, uid);
    InterleavedSafe(cfg, s, ReservePlan(s.db, owner, generation, key, name, quota, uid), run);
  }

  /** provision and create_admin, from the recorded request to the account. */
  lemma {:induction false} FinishCallInterleaved(cfg: Config, s: Sys, actor: Authority, input: NewAccount, hash: Option<string>, key: Key,
                                                 id: Id, run: seq<Action>)
    requires SysInv(cfg, s) && Open(s.db, key) && input.kind == Virtual
    requires var p := FinishPlan(s.db, actor, input, hash, key, id); Calling(cfg, s, p, p.lower, run)
    ensures SafeThroughout(cfg, States(cfg, s, run))
  {
    hide SysInv, Sound, Calling, SafeThroughout, FinishPlan;
    FinishPlanSound(cfg, s, actor, input, hash, key, id);
    InterleavedSafe(cfg, s, FinishPlan(s.db, actor, input, hash, key, id), run);
  }

  /** create_admin's reservation, cancel_pending and both commits of a purge write nothing before they commit. */
  lemma {:induction false} BareCallInterleaved(cfg: Config, s: Sys, ev: Event, run: seq<Action>)
    requires SysInv(cfg, s) && Calling(cfg, s, Plan([], ev, [], []), [], run)
    requires ev.EvCancelPending? || ev.EvBeginPurge? || ev.EvFinishPurge?
      || (ev.EvReserveAdmin? && (cfg.userQuota ==> ev.bytes >= CHILD_MINIMUM))
    ensures SafeThroughout(cfg, States(cfg, s, run))
  {
    hide SysInv, Calling, SafeThroughout, Ready;
    InterleavedSafe(cfg, s, Plan([], ev, [], []), run);
  }

  /** The refresh after a cancelled request or a finished purge: the owner's limit as read then. */
  lemma {:induction false} RefreshInterleaved(cfg: Config, s: Sys, id: Id, run: seq<Action>)
    requires SysInv(cfg, s) && IsVirtual(s.db, id) && Writing(cfg, s, [SetAccount(id, Limit(s.db, id))], run)
    ensures SafeThroughout(cfg, States(cfg, s, run))
  {
    hide SysInv, Writing, SafeThroughout, Limit;
    DriftSame(s.db);
    WritingSafe(cfg, s, s, [SetAccount(id, Limit(s.db, id))], run);
  }
}
