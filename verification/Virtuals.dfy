/**
  Virtual identities on a host: provisioning and quota changes as sequences of kernel writes and
  commits, each of which may fail. `trace` records the host after every single write or commit;
  `Valid` says that all of them satisfied `SysInv`, so a crash at any point leaves a safe host.
 */
module Virtuals {
  import opened Types
  import opened Sums
  import opened Tables
  import opened Ops
  import opened Invariant
  import opened Preservation
  import opened Evolution
  import opened Runs
  import opened Store
  import opened Native
  import opened NativeCommits
  import opened NativeRequests
  import opened HostSteps
  import opened NativeTheorems
  import opened QuotaCalls
  import opened Interleaving
  import Rooms
  import S = Subids
  import SubidText

  /** A check on the operating system, whose answer the store does not control. */
  method Probe() returns (ok: bool) {
    ok := *;
  }

  /** Measured usage of a home directory. */
  method Measure() returns (used: Result<nat>) {
    used := *;
  }

  /** Two rows of one account, read at different times: these are the columns that no transaction ever changes. */
  predicate SameAccount(r: Row, t: Row) {
    r.username == t.username && r.uid == t.uid && r.kind == t.kind && r.owner == t.owner && (r.kind == Virtual ==> r.role == t.role)
  }

  predicate Expired(d: Db, id: Id, deadline: nat) {
    Purgeable(d, id) && d.accounts[id].deletedAt.Some? && d.accounts[id].deletedAt.value <= deadline
  }

  /** Purging one account leaves every other row, and every other purge, as it was. */
  predicate OthersStay(d: Db, e: Db, id: Id) {
    && e.accounts.Keys == d.accounts.Keys && (forall i :: i in d.accounts && i != id ==> e.accounts[i] == d.accounts[i])
    && e.purged - {id} == d.purged - {id}
  }

  /** One more of the due accounts is purged, and the ones after it still can be. */
  lemma {:induction false} NextPurge(d: Db, e: Db, due: seq<Id>, k: nat)
    requires k < |due| && (forall i, j :: 0 <= i < j < |due| ==> due[i] != due[j])
    requires forall i :: k <= i < |due| ==> Purgeable(d, due[i])
    requires OthersStay(d, e, due[k]) && due[k] in e.purged && d.purged <= e.purged <= d.purged + {due[k]}
    ensures forall i :: k < i < |due| ==> Purgeable(e, due[i])
    ensures |e.purged| == |d.purged| + 1
  {
    assert e.purged == d.purged + {due[k]};
  }

  lemma {:induction false} QuotaStep(d: Db, actor: Authority, id: Id, generation: nat, bytes: nat)
    ensures Step(d, EvSetChildQuota(actor, id, generation, bytes)) == DbOf(SetChildQuota(d, actor, id, generation, bytes))
  {
    hide SetChildQuota;
  }

  lemma {:induction false} AbortsWhen(cfg: Config, d: Db, q: Call, a: Answers, p: Result<Prepared>)
    requires IsOwned(d, q.id) && p == SetChildQuota(d, q.authority, q.id, q.generation, q.bytes)
    ensures Aborts(cfg, d, q, a) <==>
      p.Err? || (IsVirtual(d, OwnerOf(d, q.id)) && p.value.remaining < a.ownerUsed) || LoweringFails(cfg, d, q, p.value.remaining, a)
  {
    hide SetChildQuota, LoweringFails;
  }

  lemma {:induction false} Regroup(a: seq<Sys>, b: seq<Sys>, c: seq<Sys>, d: seq<Sys>)
    ensures a + b + c + d == a + (b + c + d)
  {
  }

  lemma {:induction false} BudgetStep(d: Db, id: Id, bytes: nat)
    ensures Step(d, EvSetAdminBudget(Root, id, bytes)) == DbOf(SetAdminBudget(d, Root, id, bytes))
  {
    hide SetAdminBudget;
  }

  lemma {:induction false} OwnStep(d: Db, id: Id, bytes: nat)
    ensures Step(d, EvSetAdminOwn(Root, id, bytes)) == DbOf(SetAdminOwn(d, Root, id, bytes))
  {
    hide SetAdminOwn;
  }

  /** A prepared change of one limit is safe to commit once the kernel holds no more than what remains. */
  ghost predicate CommitReady(cfg: Config, d: Db, id: Id, p: Prepared) {
    && id in d.accounts && id in p.db.accounts && p.db.accounts[id].uid == d.accounts[id].uid
    && (IsVirtual(p.db, id) <==> IsVirtual(d, id)) && (IsVirtual(d, id) ==> Limit(p.db, id) == p.remaining)
    && forall n: map<nat, nat> :: SysInv(cfg, Sys(d, n)) && (cfg.userQuota ==> Shrunk(cfg, d, n, id, p.remaining)) ==>
         Follows(cfg, Sys(d, n), Sys(p.db, n))
  }

  lemma {:induction false} ReadyCommits(cfg: Config, d: Db, native: map<nat, nat>, id: Id, p: Prepared)
    requires CommitReady(cfg, d, id, p) && SysInv(cfg, Sys(d, native)) && (cfg.userQuota ==> Shrunk(cfg, d, native, id, p.remaining))
    ensures Follows(cfg, Sys(d, native), Sys(p.db, native))
    ensures id in d.accounts && id in p.db.accounts && p.db.accounts[id].uid == d.accounts[id].uid
    ensures (IsVirtual(p.db, id) <==> IsVirtual(d, id)) && (IsVirtual(d, id) ==> Limit(p.db, id) == p.remaining)
  {
    hide SysInv, Follows, Shrunk, Limit;
  }

  lemma {:induction false} BudgetReady(cfg: Config, d: Db, id: Id, bytes: nat)
    requires Inv(d) && SetAdminBudget(d, Root, id, bytes).Ok?
    ensures CommitReady(cfg, d, id, SetAdminBudget(d, Root, id, bytes).value)
  {
    hide Inv, NativeOk, Floored, Limit, Shrunk, SetAdminBudget, Follows;
    var p := SetAdminBudget(d, Root, id, bytes).value;
    BudgetLimit(d, id, bytes);
    forall n: map<nat, nat> | SysInv(cfg, Sys(d, n)) && (cfg.userQuota ==> Shrunk(cfg, d, n, id, p.remaining))
      ensures Follows(cfg, Sys(d, n), Sys(p.db, n))
    {
      BudgetCommit(cfg, d, n, id, bytes);
    }
  }

  lemma {:induction false} OwnReady(cfg: Config, d: Db, id: Id, bytes: nat)
    requires Inv(d) && SetAdminOwn(d, Root, id, bytes).Ok?
    ensures CommitReady(cfg, d, id, SetAdminOwn(d, Root, id, bytes).value)
  {
    hide Inv, NativeOk, Floored, Limit, Shrunk, SetAdminOwn, Follows;
    var p := SetAdminOwn(d, Root, id, bytes).value;
    OwnRemaining(d, id, bytes);
    OwnRow(d, id, bytes);
    forall n: map<nat, nat> | SysInv(cfg, Sys(d, n)) && (cfg.userQuota ==> Shrunk(cfg, d, n, id, p.remaining))
      ensures Follows(cfg, Sys(d, n), Sys(p.db, n))
    {
      OwnCommit(cfg, d, n, id, bytes);
    }
  }

  lemma {:induction false} OwnRow(d: Db, id: Id, bytes: nat)
    requires SetAdminOwn(d, Root, id, bytes).Ok?
    ensures var e := SetAdminOwn(d, Root, id, bytes).value.db;
      id in d.accounts && id in e.accounts && e.accounts[id].uid == d.accounts[id].uid && IsVirtual(d, id) && IsVirtual(e, id) && Limit(e, id) == bytes
  {
    hide Children, Pending;
  }

  lemma {:induction false} AcceptedLimit(cfg: Config, d: Db, id: Id, p: Result<Prepared>, a: LimitAnswers)
    requires !LimitAborts(cfg, d, id, p, a)
    ensures p.Ok?
  {
  }

  lemma {:induction false} RefusedWrite(cfg: Config, s: Sys, uid: nat, bytes: nat, ok: bool)
    requires Refuses(cfg, bytes, ok)
    ensures Wrote(cfg, s, uid, bytes, ok) == []
  {
  }

  lemma {:induction false} QuotaIdentities(d: Db, q: Call, native: map<nat, nat>)
    requires Inv(d) && IsOwned(d, q.id) && SetChildQuota(d, q.authority, q.id, q.generation, q.bytes).Ok?
    ensures Covered(d, native) ==> Covered(SetChildQuota(d, q.authority, q.id, q.generation, q.bytes).value.db, native)
  {
    hide Inv, SetChildQuota;
    AcceptedRows(d, q);
  }

  /** The kernel holds for a virtual owner exactly what it keeps when `quota` more bytes are reserved. */
  ghost predicate Gave(cfg: Config, d: Db, native: map<nat, nat>, owner: Id, quota: nat) {
    cfg.userQuota && IsVirtual(d, owner) ==>
      d.accounts[owner].uid in native && native[d.accounts[owner].uid] == KernelLimit(cfg, OwnerKeeps(d, owner, 0, quota))
  }

  lemma {:induction false} ReserveReady(cfg: Config, d: Db, native: map<nat, nat>, owner: Id, generation: nat, key: Key, name: string,
                                        quota: nat, uid: nat)
    requires Inv(d) && ReserveChild(d, owner, generation, key, name, quota, uid).Ok? && Gave(cfg, d, native, owner, quota)
    ensures var e := ReserveChild(d, owner, generation, key, name, quota, uid).value;
      && key !in d.intents && e == Reserved(d, key, Intent(owner, name, quota, uid, None)) && Synced(cfg, e, native, owner)
      && (cfg.userQuota && IsVirtual(d, owner) ==> Shrunk(cfg, d, native, owner, Limit(e, owner)))
  {
    hide Inv, ReserveChild, KernelLimit, Limit, Children, Pending;
    ReserveRemaining(d, owner, generation, key, name, quota, uid);
    LimitOfFixed(d, owner);
  }

  lemma {:induction false} SyncedCovers(cfg: Config, d: Db, native: map<nat, nat>)
    requires cfg.userQuota && forall id :: id in d.accounts && Live(d, id) ==> Synced(cfg, d, native, id)
    ensures Covered(d, native)
  {
    hide Limit, KernelLimit;
  }

  class Host {
    const cfg: Config
    var db: Db
    var native: map<nat, nat>
    ghost var trace: seq<Sys>

    /** The trace ends in the present state, and never loses the limits of an account. */
    ghost predicate Coherent()
      reads this
    {
      trace != [] && trace[|trace| - 1] == Sys(db, native) && StaysEnforced(cfg, trace)
    }

    ghost predicate Valid()
      reads this
    {
      Coherent() && AllSafe(cfg, trace)
    }

    /** A host in step with its database: every recorded limit is safe and every live virtual account has one. */
    constructor (cfg: Config, db: Db, native: map<nat, nat>)
      requires SysInv(cfg, Sys(db, native)) && Enforced(cfg, Sys(db, native))
      ensures Valid() && Enforced(cfg, Sys(db, native)) && this.cfg == cfg && this.db == db && this.native == native
    {
      this.cfg, this.db, this.native := cfg, db, native;
      trace := [Sys(db, native)];
    }

    /** A host where enforcement was only just switched on: accounts may have no limit yet. */
    constructor Unsynced(cfg: Config, db: Db, native: map<nat, nat>)
      requires SysInv(cfg, Sys(db, native))
      ensures Valid() && this.cfg == cfg && this.db == db && this.native == native
    {
      this.cfg, this.db, this.native := cfg, db, native;
      trace := [Sys(db, native)];
    }

    /** COMMIT: the database changes at once, the kernel not at all; a commit that fails changes nothing. */
    method Commit(e: Db) returns (ok: bool)
      requires Valid() && Follows(cfg, Sys(db, native), Sys(e, native))
      modifies this`db, this`trace
      ensures Valid() && db == (if ok then e else old(db))
      ensures trace == old(trace) + if ok then [Sys(e, native)] else []
    {
      hide SysInv, Enforced, StaysEnforced;
      ok := Probe();
      if ok {
        EnforcedAppend(cfg, trace, Sys(e, native));
        db := e;
        trace := trace + [Sys(e, native)];
      }
    }

    /** One kernel write; a refused write changes nothing. */
    method KernelWrite(uid: nat, bytes: nat) returns (r: Result<()>, ghost ok: bool)
      requires Coherent()
      modifies this`native, this`trace
      ensures Coherent() && trace == old(trace) + Wrote(cfg, Sys(db, old(native)), uid, bytes, ok)
      ensures Sys(db, native) == Latest(Sys(db, old(native)), Wrote(cfg, Sys(db, old(native)), uid, bytes, ok))
      ensures r.Err? <==> Refuses(cfg, bytes, ok)
      ensures native == if r.Ok? && cfg.userQuota then old(native)[uid := KernelLimit(cfg, bytes)] else old(native)
    {
      hide KernelLimit, StaysEnforced;
      if !cfg.userQuota {
        return Ok(()), true;
      }
      var answer := Probe();
      if !answer || Capped(cfg, bytes) % 1024 != 0 {
        return Err(Forbidden), answer;
      }
      EnforcedAppend(cfg, trace, Sys(db, native[uid := KernelLimit(cfg, bytes)]));
      native := native[uid := KernelLimit(cfg, bytes)];
      trace := trace + [Sys(db, native)];
      return Ok(()), answer;
    }

    /** A kernel write that is known to be safe. */
    method NativeSet(uid: nat, bytes: nat) returns (r: Result<()>, ghost ok: bool)
      requires Valid() && (cfg.userQuota ==> NativeOk(cfg, db, native[uid := KernelLimit(cfg, bytes)]))
      modifies this`native, this`trace
      ensures Valid() && old(trace) <= trace && trace == old(trace) + Wrote(cfg, Sys(db, old(native)), uid, bytes, ok)
      ensures Sys(db, native) == Latest(Sys(db, old(native)), Wrote(cfg, Sys(db, old(native)), uid, bytes, ok))
      ensures r.Err? <==> Refuses(cfg, bytes, ok)
      ensures native == if r.Ok? && cfg.userQuota then old(native)[uid := KernelLimit(cfg, bytes)] else old(native)
    {
      hide Inv, NativeOk, Floored, KernelLimit, Refuses, StaysEnforced;
      Facts();
      r, ok := KernelWrite(uid, bytes);
    }

    /** Usage of a virtual administrator's own files, measured while its quota lock is held. */
    method OwnReservation(id: Id) returns (r: Result<Option<nat>>)
      requires Valid()
      ensures r.Ok? ==> id in db.accounts && (r.value.Some? <==> IsVirtual(db, id))
    {
      if id !in db.accounts {
        return Err(NotFound);
      }
      if db.accounts[id].kind != Virtual {
        return Ok(None);
      }
      var rooted := Probe();
      if !rooted {
        return Err(Forbidden);
      }
      var used := Measure();
      if used.Err? {
        return Err(used.error);
      }
      return Ok(Some(used.value));
    }

    method OwnLimit(id: Id) returns (r: Result<nat>)
      requires Valid() && id in db.accounts
      ensures r == Ok(ParentLimit(db, id))
    {
      hide SysInv, Limit;
      TraceInv(cfg, trace, db, native);
      var limit := ReadEffectiveQuota(db, id);
      if IsVirtual(db, id) {
        LimitIsEffective(db, id);
      }
      return Ok(if limit.value.Some? then limit.value.value else 0);
    }

    lemma Facts()
      requires Valid()
      ensures SysInv(cfg, Sys(db, native)) && Inv(db) && (cfg.userQuota ==> NativeOk(cfg, db, native) && Floored(db))
    {
      hide Inv, NativeOk, Floored;
    }

    /**
      From any point on at which every live virtual account has a limit, and so in every call of a host that starts in
      step, the kernel bounds an administrator and everything under it by the budget.
     */
    lemma {:induction false} WithinBudget(k: nat, i: nat, admin: Id)
      requires Valid() && cfg.userQuota && k <= i < |trace| && Enforced(cfg, trace[k]) && Budgeted(trace[i].db, admin)
      requires Live(trace[i].db, admin) ==> Limit(trace[i].db, admin) >= KERNEL_MINIMUM
      ensures var granted := Granted(trace[i].db, trace[i].native, admin);
        granted.Some? && granted.value <= BudgetOf(trace[i].db, admin)
    {
      hide SysInv, Granted, Limit, BudgetOf, Enforced;
      GrantedWithinBudget(cfg, trace[i], admin);
    }

    /** Every live virtual account is limited from then on, and never by more than its metadata limit. */
    lemma {:induction false} LimitedEverAfter(k: nat, i: nat, id: Id)
      requires Valid() && cfg.userQuota && k <= i < |trace| && Enforced(cfg, trace[k]) && Live(trace[i].db, id)
      ensures var s := trace[i]; var uid := s.db.accounts[id].uid;
        uid in s.native && s.native[uid] <= KernelLimit(cfg, Limit(s.db, id))
    {
      hide Inv, Floored, Limit, KernelLimit, Assigned;
      assert SysInv(cfg, trace[i]) && Enforced(cfg, trace[i]);
      assert AccountSafe(cfg, trace[i].db, trace[i].native, id);
    }

    /** Before a commit: a limit that is about to shrink is lowered in the kernel first. */
    method ShrinkFirst(id: Id, limit: nat, remaining: nat, used: Option<nat>) returns (r: Result<()>, ghost ok: bool)
      requires Valid() && id in db.accounts && (used.Some? <==> IsVirtual(db, id)) && limit == ParentLimit(db, id)
      modifies this`native, this`trace
      ensures Valid() && old(trace) <= trace
      ensures r.Ok? && cfg.userQuota ==> Shrunk(cfg, db, native, id, remaining)
      ensures r.Err? <==> used.Some? && (remaining < used.value || (remaining < limit && Refuses(cfg, remaining, ok)))
      ensures var s := Sys(db, old(native));
        var lowered := if r.Ok? && used.Some? && remaining < limit then Wrote(cfg, s, db.accounts[id].uid, remaining, ok) else [];
        trace == old(trace) + lowered && Sys(db, native) == Latest(s, lowered)
    {
      hide Valid, SysInv, Inv, NativeOk, Floored, Limit, KernelLimit, Refuses, Wrote;
      Facts();
      ok := true;
      if used.Some? && remaining < used.value {
        return Err(QuotaExceeded), ok;
      }
      if used.Some? && remaining < limit {
        AccountWrite(cfg, db, native, id, remaining);
        r, ok := NativeSet(db.accounts[id].uid, remaining);
        if r.Err? {
          RefusedWrite(cfg, Sys(db, native), db.accounts[id].uid, remaining, ok);
          return;
        }
        Facts();
      }
      ShrunkNow(cfg, db, native, id, remaining);
      r := Ok(());
    }

    /** After a commit, or to undo an attempt: the kernel is set to what the database grants. */
    method SetToLimit(id: Id, limit: nat, held: bool) returns (r: Result<()>, ghost ok: bool)
      requires Valid() && id in db.accounts && (held <==> IsVirtual(db, id)) && (held ==> limit == Limit(db, id))
      modifies this`native, this`trace
      ensures Valid() && old(trace) <= trace
      ensures trace == old(trace) + if held then Wrote(cfg, Sys(db, old(native)), db.accounts[id].uid, limit, ok) else []
      ensures r.Ok? ==> Synced(cfg, db, native, id)
    {
      hide Valid, SysInv, Inv, NativeOk, Floored, Limit, KernelLimit, Refuses, Wrote;
      Facts();
      if held {
        AccountWrite(cfg, db, native, id, limit);
        r, ok := NativeSet(db.accounts[id].uid, limit);
      } else {
        r, ok := Ok(()), true;
      }
    }

    /**
      Root changes a budget: a smaller own limit reaches the kernel before the commit, a larger one after. `a` are the
      answers that the system gives on the way.
     */
    method SetBudget(id: Id, bytes: nat) returns (r: Result<()>, ghost a: LimitAnswers)
      requires Valid()
      modifies this
      ensures Valid() && old(trace) <= trace
      ensures trace == old(trace) + if id !in old(db).accounts then [] else
        LimitCall(cfg, Sys(old(db), old(native)), id, SetAdminBudget(old(db), Root, id, bytes), a)
      ensures db == old(db) || Step(old(db), EvSetAdminBudget(Root, id, bytes)) == Ok(db)
      ensures r.Ok? ==> Step(old(db), EvSetAdminBudget(Root, id, bytes)) == Ok(db) && Synced(cfg, db, native, id)
      ensures r.Ok? ==> Budget(db, id).Ok? && Budget(db, id).value.limit == bytes
    {
      hide Valid, SysInv, Inv, NativeOk, Floored, SetAdminBudget, Budget, Limit, KernelLimit, Synced, Shrunk, Wrote, Refuses, Latest, Step;
      Facts();
      BudgetStep(db, id, bytes);
      Rooms.BudgetAnswered(db, Root, id, bytes);
      a := LimitAnswers(false, 0, false, false, false);
      if id !in db.accounts {
        return Err(NotFound), a;
      }
      if cfg.userQuota && bytes % 1024 != 0 {
        return Err(InvalidInput), a;
      }
      var held := OwnReservation(id);
      if held.Err? {
        return Err(held.error), a;
      }
      var limit := OwnLimit(id);
      var prepared := PrepareAdminBudget(db, Root, id, bytes);
      if prepared.Ok? {
        BudgetReady(cfg, db, id, bytes);
      }
      r, a := ChangeLimit(id, prepared, limit.value, held.value);
    }

    /** Root fixes a virtual administrator's own-file quota, with the same order of effects. */
    method SetOwnQuota(id: Id, bytes: nat) returns (r: Result<()>, ghost a: LimitAnswers)
      requires Valid()
      modifies this
      ensures Valid() && old(trace) <= trace
      ensures trace == old(trace) + if id !in old(db).accounts then [] else
        LimitCall(cfg, Sys(old(db), old(native)), id, SetAdminOwn(old(db), Root, id, bytes), a)
      ensures db == old(db) || Step(old(db), EvSetAdminOwn(Root, id, bytes)) == Ok(db)
      ensures r.Ok? ==> Step(old(db), EvSetAdminOwn(Root, id, bytes)) == Ok(db) && Synced(cfg, db, native, id)
      ensures r.Ok? ==> EffectiveQuota(db, id) == Ok(Some(bytes))
    {
      hide Valid, SysInv, Inv, NativeOk, Floored, SetAdminOwn, EffectiveQuota, Limit, KernelLimit, Synced, Shrunk, Wrote, Refuses, Latest, Step;
      Facts();
      OwnStep(db, id, bytes);
      Rooms.OwnAnswered(db, id, bytes);
      a := LimitAnswers(false, 0, false, false, false);
      if cfg.userQuota && bytes % 1024 != 0 {
        return Err(InvalidInput), a;
      }
      if id !in db.accounts {
        return Err(NotFound), a;
      }
      if !IsVirtualAdmin(db.accounts[id]) {
        return Err(Forbidden), a;
      }
      var held := OwnReservation(id);
      if held.Err? {
        return Err(held.error), a;
      }
      var limit := OwnLimit(id);
      var prepared := PrepareAdminOwn(db, Root, id, bytes);
      if prepared.Ok? {
        OwnReady(cfg, db, id, bytes);
      }
      r, a := ChangeLimit(id, prepared, limit.value, held.value);
    }

    /** Inside the transaction of either call. */
    method LowerLimit(id: Id, prepared: Result<Prepared>, limit: nat, used: Option<nat>) returns (r: Result<()>, ghost a: LimitAnswers)
      requires Valid() && id in db.accounts && (used.Some? <==> IsVirtual(db, id)) && limit == ParentLimit(db, id)
      modifies this`native, this`trace
      ensures Valid() && a.entered && (r.Err? <==> LimitAborts(cfg, db, id, prepared, a))
      ensures r.Ok? && cfg.userQuota ==> Shrunk(cfg, db, native, id, prepared.value.remaining)
      ensures trace == old(trace) + LimitLowered(cfg, Sys(db, old(native)), id, prepared, a)
      ensures Sys(db, native) == Latest(Sys(db, old(native)), LimitLowered(cfg, Sys(db, old(native)), id, prepared, a))
    {
      hide Valid, Limit, Shrunk, Wrote, Refuses;
      ghost var lowered := true;
      if prepared.Err? {
        r := Err(prepared.error);
      } else {
        r, lowered := ShrinkFirst(id, limit, prepared.value.remaining, used);
      }
      a := LimitAnswers(true, ValueOr(used, 0), lowered, false, false);
    }

    /** The transaction of either call, with its kernel writes. */
    method ChangeLimit(id: Id, prepared: Result<Prepared>, limit: nat, used: Option<nat>) returns (r: Result<()>, ghost a: LimitAnswers)
      requires Valid() && id in db.accounts && (used.Some? <==> IsVirtual(db, id)) && limit == ParentLimit(db, id)
      requires prepared.Ok? ==> CommitReady(cfg, db, id, prepared.value)
      modifies this
      ensures Valid() && old(trace) <= trace && a.entered
      ensures trace == old(trace) + LimitCall(cfg, Sys(old(db), old(native)), id, prepared, a)
      ensures db == old(db) || (prepared.Ok? && db == prepared.value.db)
      ensures r.Ok? ==> prepared.Ok? && db == prepared.value.db && Synced(cfg, db, native, id)
    {
      hide Valid, SysInv, Inv, NativeOk, Floored, Limit, KernelLimit, Synced, Shrunk, Wrote, Refuses, Latest, Follows, LimitLowered,
        LimitAborts, LimitCall, CommitReady;
      ghost var s, b := Sys(db, native), LimitAnswers(true, 0, false, false, false);
      r, b := LowerLimit(id, prepared, limit, used);
      ghost var lowered, answer := LimitLowered(cfg, s, id, prepared, b), true;
      var committed := false;
      if r.Ok? {
        Facts();
        AcceptedLimit(cfg, db, id, prepared, b);
        ReadyCommits(cfg, db, native, id, prepared.value);
        committed := Commit(prepared.value.db);
      }
      ghost var middle := Sys(db, native);
      var was := r;
      r, answer := SetToLimit(id, if committed then prepared.value.remaining else limit, used.Some?);
      if !committed {
        r := if was.Err? then was else Err(Database);
      }
      a := b.(commits := committed, placed := answer);
      LimitAnswersLater(cfg, s, id, prepared, b, a);
      LimitCallParts(cfg, s, id, prepared, a);
      Regroup(old(trace), lowered, if committed then [middle] else [],
              if used.Some? then Wrote(cfg, middle, s.db.accounts[id].uid, if committed then prepared.value.remaining else limit, answer) else []);
    }

    /**
      A child's quota moves: whoever loses bytes, child or owner, loses them in the kernel before the commit; whoever
      gains them gains them after it. `row` was read before the provisioning lock was taken: only the columns that never
      change must still be those of the table. `a` are the answers that the system gives on the way.
     */
    method SetQuota(authority: Authority, id: Id, row: Row, generation: nat, bytes: nat) returns (r: Result<()>, ghost a: Answers)
      requires Valid() && id in db.accounts && SameAccount(row, db.accounts[id])
      modifies this
      ensures Coherent() && (IsChild(row) <==> IsOwned(old(db), id))
      ensures trace == old(trace) + if IsChild(row) then
        QuotaCall(cfg, Sys(old(db), old(native)), Call(authority, id, QuotaOf(row), generation, bytes), a) else []
      ensures Valid() <==> IsChild(row) ==>
        QuotaCallSafe(cfg, Sys(old(db), old(native)), Call(authority, id, QuotaOf(row), generation, bytes), a)
      ensures QuotaOf(row) == QuotaOf(old(db).accounts[id]) ==> Valid()
      ensures db == old(db) || Step(old(db), EvSetChildQuota(authority, id, generation, bytes)) == Ok(db)
      ensures r.Ok? ==>
        && Step(old(db), EvSetChildQuota(authority, id, generation, bytes)) == Ok(db)
        && row.owner.Some? && Synced(cfg, db, native, id) && Synced(cfg, db, native, row.owner.value)
        && EffectiveQuota(db, id) == Ok(Some(bytes))
    {
      hide SysInv, AllSafe, Inv, NativeOk, Floored, SetChildQuota, Limit, Synced, ValidateInput, QuotaCallSafe, QuotaCall,
        EffectiveQuota;
      Facts();
      Rooms.ChildQuotaAnswered(db, authority, id, generation, bytes);
      a := Answers(false, 0, 0, false, false, false, false, false);
      if !IsChild(row) {
        var allowed := ValidateInput(cfg, row.username, bytes, false);
        return if allowed.Err? then allowed else Err(Forbidden), a;
      }
      ChildOfOwner(db, id);
      ghost var s, q := Sys(db, native), Call(authority, id, QuotaOf(row), generation, bytes);
      r, a := ChangeQuota(authority, id, row, generation, bytes);
      QuotaCallIff(cfg, s, q, a);
      SafeSum(cfg, old(trace), QuotaCall(cfg, s, q, a));
      if q.seen == QuotaOf(s.db.accounts[id]) {
        CurrentViewSafe(cfg, s, q, a);
      }
    }

    method ChangeQuota(authority: Authority, id: Id, row: Row, generation: nat, bytes: nat) returns (r: Result<()>, ghost a: Answers)
      requires Valid() && IsOwned(db, id) && SameAccount(row, db.accounts[id])
      modifies this
      ensures Coherent() && trace == old(trace) +
        QuotaCall(cfg, Sys(old(db), old(native)), Call(authority, id, QuotaOf(row), generation, bytes), a)
      ensures db == old(db) || Step(old(db), EvSetChildQuota(authority, id, generation, bytes)) == Ok(db)
      ensures r.Ok? ==>
        && Step(old(db), EvSetChildQuota(authority, id, generation, bytes)) == Ok(db)
        && Synced(cfg, db, native, id) && Synced(cfg, db, native, row.owner.value)
    {
      hide AllSafe, SysInv, Inv, NativeOk, Floored, SetChildQuota, Limit, Synced, Undone, Lowered, Raised, LoweringFails, Entered,
        Latest, QuotaCall, ParentLimit;
      Facts();
      ghost var s := Sys(db, native);
      ghost var q := Call(authority, id, QuotaOf(row), generation, bytes);
      var owner := row.owner.value;
      var held, parent;
      held, parent, a := CheckQuota(q, id, row, owner, bytes);
      if held.Err? {
        RefusedCall(cfg, s, q, a);
        return Err(held.error), a;
      }
      r, a := TransactQuota(q, a, id, owner, QuotaOf(row), bytes, authority, generation, parent, held.value);
    }

    /** The transaction with its kernel writes, once the call has entered. */
    method TransactQuota(ghost q: Call, ghost checked: Answers, id: Id, owner: Id, seen: nat, bytes: nat, authority: Authority,
                         generation: nat, parent: nat, used: Option<nat>) returns (r: Result<()>, ghost a: Answers)
      requires Coherent() && Inv(db) && IsOwned(db, id) && owner == OwnerOf(db, id) && q == Call(authority, id, seen, generation, bytes)
      requires Entered(cfg, db, q, checked) && checked.ownerUsed == ValueOr(used, 0)
      requires (used.Some? <==> IsVirtual(db, owner)) && parent == ParentLimit(db, owner)
      modifies this
      ensures Coherent() && trace == old(trace) + QuotaCall(cfg, Sys(old(db), old(native)), q, a)
      ensures db == old(db) || Step(old(db), EvSetChildQuota(authority, id, generation, bytes)) == Ok(db)
      ensures r.Ok? ==>
        && Step(old(db), EvSetChildQuota(authority, id, generation, bytes)) == Ok(db)
        && Synced(cfg, db, native, id) && Synced(cfg, db, native, owner)
    {
      hide Inv, SetChildQuota, Limit, Synced, Undone, Lowered, Raised, LoweringFails, Entered, Latest, QuotaCall, ParentLimit, Step,
        Coherent, Settled, Refuses, Aborts;
      QuotaStep(db, authority, id, generation, bytes);
      ghost var s := Sys(db, native);
      var prepared := PrepareChildQuota(db, authority, id, generation, bytes);
      ghost var b;
      r, b := BeginQuota(q, checked, id, owner, seen, bytes, prepared, used);
      if r.Err? {
        ghost var answer := RestoreLoser(q, b, id, owner, parent, seen, bytes, used.Some?);
        a := b.(undone := answer);
        AbortedCall(cfg, s, q, checked, b, a);
        return;
      }
      AcceptedByAbort(cfg, db, q, b);
      ghost var lowered := Lowered(cfg, s, q, prepared.value.remaining, b);
      r, a := SettleQuota(q, b, id, owner, seen, bytes, prepared.value, parent, used.Some?);
      SettledCall(cfg, s, q, checked, b, a);
      Regroup(old(trace), lowered, [], Settled(cfg, Latest(s, lowered), q, prepared.value, a));
    }

    /** The transaction up to its commit. */
    method BeginQuota(ghost q: Call, ghost checked: Answers, id: Id, owner: Id, seen: nat, bytes: nat, prepared: Result<Prepared>,
                      used: Option<nat>) returns (r: Result<()>, ghost b: Answers)
      requires Coherent() && IsOwned(db, id) && owner == OwnerOf(db, id) && q.id == id && q.seen == seen && q.bytes == bytes
      requires prepared == SetChildQuota(db, q.authority, id, q.generation, bytes)
      requires (used.Some? <==> IsVirtual(db, owner)) && checked.ownerUsed == ValueOr(used, 0)
      modifies this`native, this`trace
      ensures Coherent() && b == checked.(lowered := b.lowered) && (r.Err? <==> Aborts(cfg, db, q, b))
      ensures r.Err? ==> trace == old(trace) && native == old(native)
      ensures r.Ok? ==> prepared.Ok? && trace == old(trace) + Lowered(cfg, Sys(db, old(native)), q, prepared.value.remaining, b)
      ensures r.Ok? ==>
        Sys(db, native) == Latest(Sys(db, old(native)), Lowered(cfg, Sys(db, old(native)), q, prepared.value.remaining, b))
    {
      hide SetChildQuota, Lowered, LoweringFails, Latest, Coherent, Refuses, Aborts;
      ghost var answer := false;
      if prepared.Err? {
        r := Err(prepared.error);
      } else {
        r, answer := LowerLoser(q, checked, id, owner, seen, bytes, prepared.value.remaining, used);
      }
      b := checked.(lowered := answer);
      AbortsWhen(cfg, db, q, b, prepared);
    }

    /** The commit, which may fail, and the kernel writes after it. */
    method SettleQuota(ghost q: Call, ghost b: Answers, id: Id, owner: Id, seen: nat, bytes: nat, prepared: Prepared, parent: nat, held: bool)
      returns (r: Result<()>, ghost a: Answers)
      requires Coherent() && Inv(db) && IsOwned(db, id) && owner == OwnerOf(db, id) && q.id == id && q.seen == seen && q.bytes == bytes
      requires SetChildQuota(db, q.authority, id, q.generation, bytes) == Ok(prepared)
      requires (held <==> IsVirtual(db, owner)) && parent == ParentLimit(db, owner)
      modifies this
      ensures Coherent() && a == b.(commits := a.commits, undone := a.undone, childSet := a.childSet, ownerSet := a.ownerSet)
      ensures trace == old(trace) + Settled(cfg, Sys(old(db), old(native)), q, prepared, a)
      ensures db == if a.commits then prepared.db else old(db)
      ensures r.Ok? ==> a.commits && Synced(cfg, db, native, id) && Synced(cfg, db, native, owner)
    {
      hide Inv, SetChildQuota, Limit, Synced, Undone, Raised, ParentLimit, Coherent;
      var committing := Probe();
      if committing {
        r, a := CommitQuota(q, b.(commits := true), id, owner, bytes, prepared, held);
      } else {
        ghost var answer := RestoreLoser(q, b.(commits := false), id, owner, parent, seen, bytes, held);
        a := b.(commits := false, undone := answer);
        r := Err(Database);
      }
    }

    /** Everything that is looked at before the transaction; on success the owner's usage, if it is virtual, and limit. */
    method CheckQuota(ghost q: Call, id: Id, row: Row, owner: Id, bytes: nat)
      returns (held: Result<Option<nat>>, parent: nat, ghost a: Answers)
      requires Valid() && IsOwned(db, id) && SameAccount(row, db.accounts[id]) && owner == OwnerOf(db, id)
      requires q.id == id && q.seen == QuotaOf(row) && q.bytes == bytes
      ensures held.Ok? <==> Entered(cfg, db, q, a)
      ensures held.Ok? ==>
        && (held.value.Some? <==> IsVirtual(db, owner)) && a.ownerUsed == ValueOr(held.value, 0) && parent == ParentLimit(db, owner)
    {
      hide Valid, Limit, ValidateInput;
      parent, a := 0, Answers(false, 0, 0, false, false, false, false, false);
      var allowed := ValidateInput(cfg, row.username, bytes, false);
      if allowed.Err? {
        return Err(allowed.error), parent, a;
      }
      held := OwnReservation(owner);
      if held.Err? {
        return;
      }
      var rooted := Probe();
      var used := Measure();
      if !rooted || used.Err? {
        return Err(Forbidden), parent, a;
      }
      a := a.(reachable := true, used := used.value, ownerUsed := ValueOr(held.value, 0));
      if bytes < used.value {
        return Err(QuotaExceeded), parent, a;
      }
      var limit := OwnLimit(owner);
      parent := limit.value;
      var next := if owner in db.own then parent else parent + QuotaOf(row) - bytes;
      if next < 0 || (held.value.Some? && next < held.value.value) {
        return Err(QuotaExceeded), parent, a;
      }
    }

    /** Inside the transaction. */
    method LowerLoser(ghost q: Call, ghost a: Answers, id: Id, owner: Id, seen: nat, bytes: nat, remaining: nat, used: Option<nat>)
      returns (r: Result<()>, ghost ok: bool)
      requires Coherent() && IsOwned(db, id) && owner == OwnerOf(db, id) && q.id == id && q.seen == seen && q.bytes == bytes
      requires (used.Some? <==> IsVirtual(db, owner)) && a.ownerUsed == ValueOr(used, 0)
      modifies this`native, this`trace
      ensures Coherent()
      ensures r.Err? <==> (IsVirtual(db, owner) && remaining < a.ownerUsed) || LoweringFails(cfg, db, q, remaining, a.(lowered := ok))
      ensures trace == old(trace) + if r.Err? then [] else Lowered(cfg, Sys(db, old(native)), q, remaining, a.(lowered := ok))
      ensures r.Ok? ==> Sys(db, native) == Latest(Sys(db, old(native)), Lowered(cfg, Sys(db, old(native)), q, remaining, a.(lowered := ok)))
      ensures r.Err? ==> native == old(native)
    {
      hide KernelLimit, Refuses, Coherent;
      ok := false;
      if used.Some? {
        if remaining < used.value {
          return Err(QuotaExceeded), ok;
        }
        if bytes > seen {
          r, ok := KernelWrite(db.accounts[owner].uid, remaining);
          return;
        }
      }
      if bytes < seen {
        r, ok := KernelWrite(db.accounts[id].uid, bytes);
        return;
      }
      return Ok(()), ok;
    }

    /** After a failed transaction; whether the write succeeds is not looked at. */
    method RestoreLoser(ghost q: Call, ghost a: Answers, id: Id, owner: Id, parent: nat, seen: nat, bytes: nat, held: bool)
      returns (ghost ok: bool)
      requires Coherent() && IsOwned(db, id) && owner == OwnerOf(db, id) && q.id == id && q.seen == seen && q.bytes == bytes
      requires (held <==> IsVirtual(db, owner)) && parent == ParentLimit(db, owner)
      modifies this`native, this`trace
      ensures Coherent() && trace == old(trace) + Undone(cfg, Sys(db, old(native)), q, a.(undone := ok))
    {
      hide KernelLimit, Refuses, ParentLimit, Coherent;
      ok := false;
      var ignored: Result<()>;
      if bytes < seen {
        ignored, ok := KernelWrite(db.accounts[id].uid, seen);
      }
      if bytes > seen && held {
        ignored, ok := KernelWrite(db.accounts[owner].uid, parent);
      }
    }

    method CommitQuota(ghost q: Call, ghost a: Answers, id: Id, owner: Id, bytes: nat, prepared: Prepared, held: bool)
      returns (r: Result<()>, ghost b: Answers)
      requires Coherent() && Inv(db) && IsOwned(db, id) && owner == OwnerOf(db, id) && q.id == id && q.bytes == bytes
      requires SetChildQuota(db, q.authority, id, q.generation, bytes) == Ok(prepared) && (held <==> IsVirtual(db, owner))
      modifies this
      ensures Coherent() && db == prepared.db && b == a.(childSet := b.childSet, ownerSet := b.ownerSet)
      ensures var committed := Sys(prepared.db, old(native));
        trace == old(trace) + [committed] + Raised(cfg, old(db), committed, q, prepared.remaining, b)
      ensures r.Ok? ==> Synced(cfg, db, native, id) && Synced(cfg, db, native, owner)
    {
      hide Inv, KernelLimit, Limit, SetChildQuota, Raised, StaysEnforced, Covered;
      AcceptedRows(db, q);
      QuotaLimits(db, q.authority, id, q.generation, bytes);
      AcceptedFacts(db, q);
      OwnerFacts(db, id);
      EnforcedAppend(cfg, trace, Sys(prepared.db, native)) by {
        QuotaIdentities(db, q, native);
      }
      ghost var before := db;
      var childUid, ownerUid := db.accounts[id].uid, db.accounts[owner].uid;
      db := prepared.db;
      trace := trace + [Sys(db, native)];
      r, b := RaiseGainers(before, q, a, childUid, ownerUid, bytes, prepared.remaining, held);
    }

    method RaiseGainers(ghost d: Db, ghost q: Call, ghost a: Answers, childUid: nat, ownerUid: nat, bytes: nat, remaining: nat, held: bool)
      returns (r: Result<()>, ghost b: Answers)
      requires Coherent() && IsOwned(d, q.id) && q.bytes == bytes && (held <==> IsVirtual(d, OwnerOf(d, q.id)))
      requires childUid == d.accounts[q.id].uid != ownerUid == d.accounts[OwnerOf(d, q.id)].uid
      modifies this`native, this`trace
      ensures Coherent() && b == a.(childSet := b.childSet, ownerSet := b.ownerSet)
      ensures trace == old(trace) + Raised(cfg, d, Sys(db, old(native)), q, remaining, b)
      ensures r.Ok? && cfg.userQuota ==> childUid in native && native[childUid] == KernelLimit(cfg, bytes)
      ensures r.Ok? && cfg.userQuota && held ==> ownerUid in native && native[ownerUid] == KernelLimit(cfg, remaining)
    {
      hide KernelLimit, Refuses, Wrote, Latest, Coherent;
      b := a;
      ghost var ok;
      r, ok := KernelWrite(childUid, bytes);
      b := b.(childSet := ok);
      if r.Ok? && held {
        r, ok := KernelWrite(ownerUid, remaining);
        b := b.(ownerSet := ok);
      }
    }

    /** Root repair: afterwards every live virtual account has exactly its limit in the kernel. */
    method SyncLimits() returns (r: Result<()>)
      requires Valid()
      modifies this`native, this`trace
      ensures Valid() && old(trace) <= trace
      ensures r.Ok? ==> cfg.userQuota && forall id :: id in db.accounts && Live(db, id) ==> Synced(cfg, db, native, id)
      ensures r.Ok? ==> Covered(db, native)
    {
      hide Valid, SysInv, Inv, NativeOk, Floored, Limit, KernelLimit, Synced;
      if !cfg.userQuota {
        return Err(InvalidInput);
      }
      var rest := set id | id in db.accounts && db.accounts[id].kind == Virtual;
      while rest != {}
        invariant Valid() && old(trace) <= trace && rest <= db.accounts.Keys
        invariant forall id :: id in rest ==> IsVirtual(db, id)
        invariant forall id :: id in db.accounts && Live(db, id) && id !in rest ==> Synced(cfg, db, native, id)
        decreases |rest|
      {
        var id :| id in rest;
        rest := rest - {id};
        if id !in db.purged {
          var rooted := Probe();
          if !rooted {
            return Err(Forbidden);
          }
          var limit := OwnLimit(id);
          r := SetOne(id, limit.value);
          if r.Err? {
            return;
          }
        }
      }
      SyncedCovers(cfg, db, native);
      return Ok(());
    }

    method SetOne(id: Id, limit: nat) returns (r: Result<()>)
      requires Valid() && IsVirtual(db, id) && limit == Limit(db, id)
      modifies this`native, this`trace
      ensures Valid() && old(trace) <= trace
      ensures r.Ok? ==> Synced(cfg, db, native, id)
      ensures forall i :: i in db.accounts && i != id && Synced(cfg, db, old(native), i) ==> Synced(cfg, db, native, i)
    {
      hide Valid, SysInv, Inv, NativeOk, Floored, Limit, KernelLimit;
      Facts();
      AccountWrite(cfg, db, native, id, limit);
      ghost var before, ok := native, true;
      r, ok := NativeSet(db.accounts[id].uid, limit);
      forall i | i in db.accounts && i != id && Synced(cfg, db, before, i) ensures Synced(cfg, db, native, i) {
        OthersStaySynced(cfg, db, before, id, KernelLimit(cfg, limit), i);
      }
    }

    /** An abandoned request gives its bytes back; its UID stays retired for ever. */
    method CancelRequest(key: Key) returns (r: Result<()>)
      requires Valid()
      modifies this
      ensures Valid() && old(trace) <= trace
      ensures db == old(db) || CancelPending(old(db), key) == Ok(db)
      ensures r.Ok? ==> CancelPending(old(db), key) == Ok(db)
      ensures r.Ok? && old(db).intents[key].owner in db.accounts ==> Synced(cfg, db, native, old(db).intents[key].owner)
    {
      hide Valid, SysInv, Inv, NativeOk, Floored, Limit, KernelLimit, Synced, Later, CancelPending;
      CancelIs(db, key);
      if key !in db.intents {
        return Err(Database);
      }
      var intent := db.intents[key];
      if intent.account.Some? || intent.uid < cfg.minUid || intent.uid > cfg.maxUid {
        return Err(Forbidden);
      }
      var unused := Probe();
      if !unused {
        return Err(Conflict);
      }
      var held := Ok(None);
      if intent.owner != RootOwner {
        held := OwnReservation(intent.owner);
        if held.Err? {
          return Err(held.error);
        }
      }
      Facts();
      RootNoAccount(db);
      CancelCommit(cfg, db, native, key);
      var committed := Commit(db.(intents := db.intents - {key}, retired := db.retired + {intent.uid}));
      if !committed {
        return Err(Database);
      }
      r := Ok(());
      if intent.owner != RootOwner {
        r := Refresh(intent.owner, held.value.Some?);
      }
    }

    /** Reads an account's limit again and hands it to the kernel. */
    method Refresh(id: Id, held: bool) returns (r: Result<()>)
      requires Valid() && id in db.accounts && (held <==> IsVirtual(db, id))
      modifies this`native, this`trace
      ensures Valid() && old(trace) <= trace
      ensures r.Ok? ==> Synced(cfg, db, native, id)
    {
      hide Valid, SysInv, Limit, Synced;
      var limit := OwnLimit(id);
      ghost var ok;
      r, ok := SetToLimit(id, limit.value, held);
    }

    /** One deleted child: a durable intent first, then its content, then its quota goes back to the owner. */
    method PurgeOne(id: Id) returns (r: Result<()>)
      requires Valid() && Purgeable(db, id)
      modifies this
      ensures Valid() && old(trace) <= trace && Later(old(db), db)
      ensures r.Ok? ==> id in db.purged && (Parent(db, id).Some? ==> Synced(cfg, db, native, Parent(db, id).value))
      ensures old(db).purged <= db.purged <= old(db).purged + {id}
      ensures OthersStay(old(db), db, id)
    {
      hide Valid, SysInv, Inv, NativeOk, Floored, Limit, KernelLimit, Synced, Later;
      Facts();
      LaterReflexive(db);
      ChildOfOwner(db, id);
      var owner := db.accounts[id].owner.value;
      var held := OwnReservation(owner);
      if held.Err? {
        return Err(held.error);
      }
      var homeExists := Probe();
      if !homeExists && id !in db.purging {
        return Err(Forbidden);
      }
      if homeExists {
        var rooted := Probe();
        if !rooted {
          return Err(Forbidden);
        }
        if id !in db.purging {
          BeginPurgeCommit(cfg, db, native, id);
          var begun := Commit(db.(purging := db.purging + {id}, retired := db.retired + {db.accounts[id].uid}));
          if !begun {
            return Err(Database);
          }
        }
        var cleared := Probe();
        if !cleared {
          return Err(Forbidden);
        }
      }
      var removed := Probe();
      if !removed {
        return Err(Forbidden);
      }
      label cleaned:
      r := FinishOne(id, owner, held.value.Some?);
      LaterTransitive(old(db), old@cleaned(db), db);
    }

    method FinishOne(id: Id, owner: Id, held: bool) returns (r: Result<()>)
      requires Valid() && Purgeable(db, id) && owner in db.accounts && db.accounts[id].owner == Some(owner) && owner != id
      requires held <==> IsVirtual(db, owner)
      modifies this
      ensures Valid() && old(trace) <= trace && Later(old(db), db)
      ensures r.Ok? ==> id in db.purged && (Parent(db, id).Some? ==> Synced(cfg, db, native, Parent(db, id).value))
      ensures old(db).purged <= db.purged <= old(db).purged + {id}
      ensures OthersStay(old(db), db, id)
    {
      hide Valid, SysInv, Inv, NativeOk, Floored, Limit, KernelLimit, Synced, Later, Follows;
      Facts();
      LaterReflexive(db);
      FinishPurgeCommit(cfg, db, native, id);
      var row := db.accounts[id];
      var accounts := db.accounts[id := Bump(row).(quota := Some(0), hash := None)];
      var grants := map n | n in db.grants && db.grants[n].account != id :: db.grants[n];
      var finished := Commit(db.(accounts := accounts, retired := db.retired + {row.uid}, purged := db.purged + {id}, grants := grants));
      if !finished {
        return Err(Database);
      }
      r := Refresh(owner, held);
    }

    /** The children whose retention has run out, at most one hundred of them. */
    method DueForPurge(deadline: nat) returns (due: seq<Id>)
      ensures forall i :: 0 <= i < |due| ==> Expired(db, due[i], deadline)
      ensures forall i, j :: 0 <= i < j < |due| ==> due[i] != due[j]
      ensures |due| <= 100
      ensures |due| < 100 ==> forall id :: Expired(db, id, deadline) ==> id in due
    {
      due := [];
      var rest := db.accounts.Keys;
      while rest != {} && |due| < 100
        invariant rest <= db.accounts.Keys && |due| <= 100
        invariant forall i :: 0 <= i < |due| ==> Expired(db, due[i], deadline) && due[i] !in rest
        invariant forall i, j :: 0 <= i < j < |due| ==> due[i] != due[j]
        invariant forall id :: Expired(db, id, deadline) && id !in rest ==> id in due
        decreases |rest|
      {
        var id :| id in rest;
        rest := rest - {id};
        if Expired(db, id, deadline) {
          due := due + [id];
        }
      }
    }

    /** Only children whose retention had run out are purged, and all of them unless there are a hundred or more. */
    method PurgeDeleted(deadline: nat) returns (r: Result<nat>)
      requires Valid()
      modifies this
      ensures Valid() && old(trace) <= trace && Later(old(db), db) && old(db).purged <= db.purged
      ensures forall id :: id in db.purged && id !in old(db).purged ==> Expired(old(db), id, deadline)
      ensures r.Ok? ==> |db.purged| == |old(db).purged| + r.value && r.value <= 100
      ensures r.Ok? && r.value < 100 ==> forall id :: Expired(old(db), id, deadline) ==> id in db.purged
    {
      hide Valid, SysInv, Later, Synced, Parent, OthersStay, Purgeable;
      LaterReflexive(db);
      var due := DueForPurge(deadline);
      var completed := 0;
      while completed < |due|
        invariant 0 <= completed <= |due| && Valid() && old(trace) <= trace && Later(old(db), db)
        invariant forall i :: completed <= i < |due| ==> Purgeable(db, due[i])
        invariant |db.purged| == |old(db).purged| + completed
        invariant old(db).purged <= db.purged && forall i :: 0 <= i < completed ==> due[i] in db.purged
        invariant forall id :: id in db.purged ==> id in old(db).purged || id in due
      {
        label L:
        var one := PurgeOne(due[completed]);
        LaterTransitive(old(db), old@L(db), db);
        if one.Err? {
          return Err(one.error);
        }
        NextPurge(old@L(db), db, due, completed);
        completed := completed + 1;
      }
      return Ok(completed);
    }

    // ---------- Allocating a UID ----------

    /**
      The first usable id in cyclic order from the cursor, among the first 1024 candidates.
      `blocked` are the id ranges that other accounts may map, `taken` the ids known to the system.
     */
    method Allocate(blocked: seq<S.Segment>, taken: set<nat>) returns (r: Result<nat>)
      requires Valid()
      requires forall i :: 0 <= i < |blocked| ==> blocked[i].0 <= blocked[i].1 <= S.U32_MAX
      modifies this`db, this`trace
      ensures Valid() && old(trace) <= trace && db == old(db).(cursor := db.cursor)
      ensures r.Err? ==> db == old(db)
      ensures r.Ok? ==>
        && Usable(cfg, db, blocked, taken, r.value) && r.value !in Assigned(old(db))
        && db.cursor == Some(if r.value == cfg.maxUid then cfg.minUid else r.value + 1)
        && forall x :: Usable(cfg, old(db), blocked, taken, x) ==>
             S.Distance(Cursor(cfg, old(db)), cfg.maxUid, r.value) <= S.Distance(Cursor(cfg, old(db)), cfg.maxUid, x)
      ensures r == Err(QuotaExceeded) ==> exists segments :: Exhausted(cfg, old(db), blocked, taken, segments)
    {
      hide Valid, SysInv, Inv, NativeOk, Floored, Assigned, Later, S.Inside, S.Candidates, S.ByDistance;
      Facts();
      if cfg.minUid == 0 || cfg.maxUid < cfg.minUid || cfg.maxUid >= S.U32_MAX {
        return Err(Forbidden);
      }
      var start := Cursor(cfg, db);
      if start < cfg.minUid || start > cfg.maxUid {
        return Err(InvalidInput);
      }
      var segments := S.FreeSegments(cfg.minUid, cfg.maxUid, blocked);
      S.CandidateOrder(segments, start, cfg.maxUid);
      var candidates := S.Candidates(segments, start);
      var k := 0;
      while k < |candidates| && k < 1024
        invariant 0 <= k <= |candidates|
        invariant forall j :: 0 <= j < k ==> !Usable(cfg, db, blocked, taken, candidates[j])
      {
        var uid := candidates[k];
        assert uid in candidates && S.Inside(segments, uid);
        if uid !in Assigned(db) && uid !in taken {
          FirstUsable(cfg, db, blocked, taken, candidates, start, k);
          CursorCommit(cfg, db, native, Some(if uid == cfg.maxUid then cfg.minUid else uid + 1));
          CursorLimit(db, Some(if uid == cfg.maxUid then cfg.minUid else uid + 1), RootOwner);
          var saved := Commit(db.(cursor := Some(if uid == cfg.maxUid then cfg.minUid else uid + 1)));
          return if saved then Ok(uid) else Err(Database);
        }
        k := k + 1;
      }
      assert Exhausted(cfg, db, blocked, taken, segments);
      return Err(QuotaExceeded);
    }

    // ---------- Provisioning ----------

    /** Reserves bytes and a UID for a new child; a virtual owner's own limit shrinks in the kernel first. */
    method OpenChildRequest(owner: Id, generation: nat, key: Key, name: string, quota: nat, used: Option<nat>,
                            blocked: seq<S.Segment>, taken: set<nat>) returns (r: Result<()>)
      requires Valid() && owner in db.accounts && (used.Some? <==> IsVirtual(db, owner)) && key !in db.intents
      requires cfg.userQuota ==> quota >= CHILD_MINIMUM
      requires forall i :: 0 <= i < |blocked| ==> blocked[i].0 <= blocked[i].1 <= S.U32_MAX
      modifies this
      ensures Valid() && old(trace) <= trace && Later(old(db), db)
      ensures db.used == old(db).used && db.accounts == old(db).accounts
      ensures r.Err? ==> db.intents == old(db).intents
      ensures r.Ok? ==>
        && key in db.intents && db.intents == old(db).intents[key := db.intents[key]]
        && db.intents[key] == Intent(owner, name, quota, db.intents[key].uid, None)
        && db.intents[key].uid !in Assigned(old(db)) && Synced(cfg, db, native, owner)
    {
      hide Valid, SysInv, Inv, NativeOk, Floored, Limit, KernelLimit, Later, ReserveChild, Assigned, Shrunk, Synced, Usable, Exhausted, HasUsername, PendingName, LiveCount, Budget;
      Facts();
      LaterReflexive(db);
      r := AdmitChild(owner, name, quota);
      if r.Err? {
        return;
      }
      var uid := Allocate(blocked, taken);
      if uid.Err? {
        return Err(uid.error);
      }
      CursorStep(old(db), db.cursor);
      label taken:
      r := ReserveBytes(owner, generation, key, name, quota, uid.value, used);
      if r.Ok? {
        LaterTransitive(old(db), old@taken(db), db);
      }
    }

    method AdmitChild(owner: Id, name: string, quota: nat) returns (r: Result<()>)
      requires Valid()
      ensures r.Ok? ==>
        && !HasUsername(db, name) && !PendingName(db, name) && LiveCount(db) < cfg.maxAccounts
        && Budget(db, owner).Ok? && quota <= Budget(db, owner).value.remaining
    {
      hide Valid, SysInv, Inv, NativeOk, Floored, HasUsername, PendingName, LiveCount, Budget;
      Facts();
      var free := NameFree(name, true);
      if !free {
        return Err(Conflict);
      }
      if LiveCount(db) >= cfg.maxAccounts {
        return Err(QuotaExceeded);
      }
      var budget := ReadBudget(db, owner);
      if budget.Err? {
        return Err(budget.error);
      }
      if budget.value.remaining < quota {
        return Err(QuotaExceeded);
      }
      return Ok(());
    }

    method ReserveBytes(owner: Id, generation: nat, key: Key, name: string, quota: nat, uid: nat, used: Option<nat>)
      returns (r: Result<()>)
      requires Valid() && owner in db.accounts && (used.Some? <==> IsVirtual(db, owner)) && uid !in Assigned(db)
      requires cfg.userQuota ==> quota >= CHILD_MINIMUM
      modifies this
      ensures Valid() && old(trace) <= trace
      ensures r.Err? ==> db == old(db)
      ensures r.Ok? ==>
        && key !in old(db).intents && db == Reserved(old(db), key, Intent(owner, name, quota, uid, None))
        && Later(old(db), db) && Synced(cfg, db, native, owner)
    {
      hide Valid, SysInv, Inv, NativeOk, Floored, Limit, KernelLimit, Later, ReserveChild, Assigned, Synced, Follows, Wrote, OwnerKeeps,
        Shrunk, Reserved;
      var limit := OwnLimit(owner);
      r := LowerOwner(owner, quota, limit.value, used);
      if r.Err? {
        return;
      }
      Facts();
      var prepared := PrepareChildRequest(db, owner, generation, key, name, quota, uid);
      var reserved := false;
      if prepared.Ok? {
        ReserveReady(cfg, db, native, owner, generation, key, name, quota, uid);
        ReserveCommit(cfg, db, native, owner, generation, key, name, quota, uid);
        reserved := Commit(prepared.value);
      }
      if !reserved {
        if used.Some? {
          var _, _ := SetToLimit(owner, limit.value, true);
        }
        return Err(if prepared.Err? then prepared.error else Database);
      }
      return Ok(());
    }

    /** A virtual owner gives up the child's bytes in the kernel before they are reserved. */
    method LowerOwner(owner: Id, quota: nat, limit: nat, used: Option<nat>) returns (r: Result<()>)
      requires Valid() && owner in db.accounts && (used.Some? <==> IsVirtual(db, owner)) && limit == ParentLimit(db, owner)
      modifies this`native, this`trace
      ensures Valid() && old(trace) <= trace
      ensures r.Ok? ==> Gave(cfg, db, native, owner, quota)
    {
      hide Valid, SysInv, Inv, NativeOk, Floored, Limit, KernelLimit, Wrote, Refuses, Latest;
      Facts();
      if used.Some? {
        LimitOfFixed(db, owner);
        var next := if owner in db.own then limit else limit - quota;
        if next < 0 || next < used.value {
          return Err(QuotaExceeded);
        }
        AccountWrite(cfg, db, native, owner, next);
        ghost var ok;
        r, ok := NativeSet(db.accounts[owner].uid, next);
      } else {
        r := Ok(());
      }
    }

    /** Nobody uses the name, and nobody is about to. */
    method NameFree(name: string, checkSystem: bool) returns (free: bool)
      ensures free ==> !HasUsername(db, name) && !PendingName(db, name)
    {
      hide HasUsername;
      var account := LookupUsername(db, name);
      var known := false;
      if checkSystem {
        known := Probe();
      }
      free := account.None? && !known && !PendingName(db, name);
    }

    /** The OS identity of a request, with the request's quota as its kernel limit. */
    method EnsureIdentity(key: Key) returns (r: Result<()>)
      requires Valid() && Open(db, key)
      modifies this`native, this`trace
      ensures Valid() && old(trace) <= trace
      ensures r.Ok? && cfg.userQuota ==>
        db.intents[key].uid in native && native[db.intents[key].uid] == KernelLimit(cfg, db.intents[key].quota)
      ensures forall i :: i in db.accounts && Synced(cfg, db, old(native), i) ==> Synced(cfg, db, native, i)
    {
      hide Valid, SysInv, Inv, NativeOk, Floored, KernelLimit, Synced;
      Facts();
      forall i | i in db.accounts && Synced(cfg, db, native, i)
        ensures Synced(cfg, db, native[db.intents[key].uid := KernelLimit(cfg, db.intents[key].quota)], i)
      {
        RequestApart(cfg, db, native, key, KernelLimit(cfg, db.intents[key].quota), i);
      }
      var created := Probe();
      if !created {
        return Err(Forbidden);
      }
      RequestWrite(cfg, db, native, key, db.intents[key].quota);
      ghost var ok;
      r, ok := NativeSet(db.intents[key].uid, db.intents[key].quota);
      if r.Err? {
        return;
      }
      var owned := Probe();
      if !owned {
        return Err(Database);
      }
    }

    method FinishRequest(actor: Authority, input: NewAccount, hash: Option<string>, key: Key, freshId: Id) returns (r: Result<Id>)
      requires Valid() && Open(db, key) && Unused(db, freshId) && input.kind == Virtual && input.uid == db.intents[key].uid
      requires input.role == User ==> input.owner == Some(db.intents[key].owner) && input.quota == Some(db.intents[key].quota)
      modifies this
      ensures Valid() && old(trace) <= trace
      ensures r.Err? ==> db == old(db)
      ensures r.Ok? ==>
        && r.value == freshId && Finalize(old(db), actor, input, hash, key, freshId) == Ok(db)
        && freshId !in old(db).accounts && db.accounts == old(db).accounts[freshId := NewRow(input, hash)]
        && db.intents == old(db).intents[key := old(db).intents[key].(account := Some(freshId))]
        && Later(old(db), db) && Synced(cfg, db, native, freshId)
      ensures r.Ok? ==> forall i :: i in old(db).accounts && Synced(cfg, old(db), old(native), i) ==> Synced(cfg, db, native, i)
    {
      hide Valid, SysInv, Inv, NativeOk, Floored, KernelLimit, CreateRecord, Later, NewRow, Synced, Finalize, Follows;
      var identity := EnsureIdentity(key);
      if identity.Err? {
        return Err(identity.error);
      }
      Facts();
      var prepared := PrepareRecord(db, actor, input, hash, Some(Request(key, db.intents[key])), freshId);
      if prepared.Err? {
        return Err(prepared.error);
      }
      FinalizeIs(db, actor, input, hash, key, freshId);
      FinalizeCommit(cfg, db, native, actor, input, hash, key, freshId);
      forall i ensures i in db.accounts && Synced(cfg, db, native, i) ==> Synced(cfg, prepared.value, native, i) {
        FinalizeSynced(cfg, db, native, actor, input, hash, key, freshId, i);
      }
      FinalizeSynced(cfg, db, native, actor, input, hash, key, freshId, freshId);
      var created := Commit(prepared.value);
      return if created then Ok(freshId) else Err(Database);
    }

    /**
      An administrator creates a child. The call can be repeated with the same request after any
      failure: it resumes the open request, and once the account exists it only names it.
     */
    method Provision(actorId: Id, actor: Row, name: string, quota: nat, hash: Option<string>, request: Id,
                     blocked: seq<S.Segment>, taken: set<nat>, freshId: Id) returns (r: Result<Id>)
      requires Valid() && Unused(db, freshId) && actorId in db.accounts && actor.kind == db.accounts[actorId].kind
      requires forall i :: 0 <= i < |blocked| ==> blocked[i].0 <= blocked[i].1 <= S.U32_MAX
      modifies this
      ensures Valid() && old(trace) <= trace && Later(old(db), db)
      ensures r.Ok? ==> Fulfilled(db, Key(actorId, request), actorId, name, quota, r.value)
      ensures r.Ok? && !Closes(old(db), Key(actorId, request)) ==> Synced(cfg, db, native, r.value) && Synced(cfg, db, native, actorId)
      ensures Closes(old(db), Key(actorId, request)) ==> db == old(db) && native == old(native)
      ensures r.Err? ==> db.accounts == old(db).accounts
      ensures forall k :: k != Key(actorId, request) ==>
        (k in db.intents <==> k in old(db).intents) && (k in db.intents ==> db.intents[k] == old(db).intents[k])
    {
      hide Valid, SysInv, Inv, NativeOk, Floored, Later, ValidateInput, Finalize, Assigned, Synced, Home, KernelLimit, Limit;
      LaterReflexive(db);
      Facts();
      RootNoAccount(db);
      var allowed := ValidateInput(cfg, name, quota, false);
      if allowed.Err? {
        return Err(allowed.error);
      }
      if actor.role != Admin {
        return Err(Forbidden);
      }
      if hash.None? {
        return Err(PasswordHash);
      }
      var key := Key(actorId, request);
      var done;
      done, r := Replay(key, actorId, name, quota);
      if done {
        return;
      }
      var held := OwnReservation(actorId);
      if held.Err? {
        return Err(held.error);
      }
      var begun: Result<()>;
      if key in db.intents {
        begun := Resume(actorId, held.value);
      } else {
        begun := OpenChildRequest(actorId, actor.generation, key, name, quota, held.value, blocked, taken);
      }
      if begun.Err? {
        return Err(begun.error);
      }
      label ready:
      var uid := db.intents[key].uid;
      r := FinishRequest(
        Account(actorId, actor.generation),
        NewAccount(name, uid, uid, Home(uid), Virtual, User, Some(actorId), Some(quota)), hash, key, freshId);
      if r.Ok? {
        LaterTransitive(old(db), old@ready(db), db);
      }
    }

    /** Before resuming, the owner's kernel limit is set again to what the open request left it. */
    method Resume(owner: Id, used: Option<nat>) returns (r: Result<()>)
      requires Valid() && owner in db.accounts && (used.Some? <==> IsVirtual(db, owner))
      modifies this`native, this`trace
      ensures Valid() && old(trace) <= trace
      ensures r.Ok? ==> Synced(cfg, db, native, owner)
    {
      hide Valid, SysInv, Limit, Synced;
      var limit := OwnLimit(owner);
      if used.Some? && limit.value < used.value {
        return Err(QuotaExceeded);
      }
      ghost var ok;
      r, ok := SetToLimit(owner, limit.value, used.Some?);
    }

    /** A request seen before must repeat its arguments; once closed, it only names its account. */
    method Replay(key: Key, owner: Id, name: string, quota: nat) returns (done: bool, r: Result<Id>)
      requires Valid()
      ensures done && r.Ok? ==> Fulfilled(db, key, owner, name, quota, r.value)
      ensures !done && key in db.intents ==> db.intents[key] == Intent(owner, name, quota, db.intents[key].uid, None)
      ensures Closes(db, key) ==> done
      ensures done ==> key in db.intents
    {
      hide Valid, SysInv, Inv, NativeOk, Floored;
      r := Err(Conflict);
      if key !in db.intents {
        return false, r;
      }
      var saved := db.intents[key];
      if saved.owner != owner || saved.name != name || saved.quota != quota {
        return true, Err(Conflict);
      }
      if saved.account.None? {
        return false, r;
      }
      Facts();
      ClosedRequest(db, key);
      var id := saved.account.value;
      var row := db.accounts[id];
      if row.kind != Virtual || row.owner != (if owner == RootOwner then None else Some(owner))
         || (owner == RootOwner && row.role != Admin) {
        return true, Err(Forbidden);
      }
      return true, Ok(id);
    }

    /** Root creates an unowned virtual administrator whose budget comes out of the pool. */
    method CreateAdmin(name: string, budget: nat, hash: Option<string>, request: Id,
                       blocked: seq<S.Segment>, taken: set<nat>, freshId: Id) returns (r: Result<Id>)
      requires Valid() && Unused(db, freshId)
      requires forall i :: 0 <= i < |blocked| ==> blocked[i].0 <= blocked[i].1 <= S.U32_MAX
      modifies this
      ensures Valid() && old(trace) <= trace && Later(old(db), db)
      ensures r.Ok? ==> Fulfilled(db, Key(RootOwner, request), RootOwner, name, budget, r.value)
      ensures r.Ok? && !Closes(old(db), Key(RootOwner, request)) ==> Synced(cfg, db, native, r.value)
      ensures Closes(old(db), Key(RootOwner, request)) ==> db == old(db) && native == old(native)
      ensures r.Err? ==> db.accounts == old(db).accounts
      ensures forall k :: k != Key(RootOwner, request) ==>
        (k in db.intents <==> k in old(db).intents) && (k in db.intents ==> db.intents[k] == old(db).intents[k])
    {
      hide Valid, SysInv, Inv, NativeOk, Floored, Later, ValidateInput, Finalize, Assigned, Synced;
      LaterReflexive(db);
      var allowed := ValidateInput(cfg, name, budget, true);
      if allowed.Err? {
        return Err(allowed.error);
      }
      if !cfg.webAccounts {
        return Err(Forbidden);
      }
      if hash.None? {
        return Err(PasswordHash);
      }
      var key := Key(RootOwner, request);
      var done;
      done, r := Replay(key, RootOwner, name, budget);
      if done {
        return;
      }
      if key !in db.intents {
        var begun := OpenAdminRequest(key, name, budget, blocked, taken);
        if begun.Err? {
          return Err(begun.error);
        }
      }
      label ready:
      var uid := db.intents[key].uid;
      r := FinishRequest(Root, NewAccount(name, uid, uid, Home(uid), Virtual, Admin, None, None), hash, key, freshId);
      if r.Ok? {
        LaterTransitive(old(db), old@ready(db), db);
      }
    }

    method OpenAdminRequest(key: Key, name: string, budget: nat, blocked: seq<S.Segment>, taken: set<nat>) returns (r: Result<()>)
      requires Valid() && key !in db.intents && (cfg.userQuota ==> budget >= CHILD_MINIMUM)
      requires forall i :: 0 <= i < |blocked| ==> blocked[i].0 <= blocked[i].1 <= S.U32_MAX
      modifies this
      ensures Valid() && old(trace) <= trace && Later(old(db), db)
      ensures db.used == old(db).used && db.accounts == old(db).accounts
      ensures r.Err? ==> db.intents == old(db).intents
      ensures r.Ok? ==>
        && key in db.intents && db.intents == old(db).intents[key := db.intents[key]]
        && db.intents[key] == Intent(RootOwner, name, budget, db.intents[key].uid, None)
        && db.intents[key].uid !in Assigned(old(db))
    {
      hide Valid, SysInv, Inv, NativeOk, Floored, Later, Assigned, Delegated, Pending;
      Facts();
      LaterReflexive(db);
      var free := NameFree(name, name != "tealdrive");
      if !free {
        return Err(Conflict);
      }
      if LiveCount(db) >= cfg.maxAccounts {
        return Err(QuotaExceeded);
      }
      var uid := Allocate(blocked, taken);
      if uid.Err? {
        return Err(uid.error);
      }
      Facts();
      CursorStep(old(db), db.cursor);
      label reserved:
      var prepared := PrepareAdminRequest(db, key, name, budget, uid.value);
      if prepared.Err? {
        return Err(prepared.error);
      }
      ReserveAdminCommit(cfg, db, native, key, name, budget, uid.value);
      var saved := Commit(prepared.value);
      if !saved {
        return Err(Database);
      }
      LaterTransitive(old(db), old@reserved(db), db);
      return Ok(());
    }
  }

  predicate PendingName(d: Db, name: string) {
    exists k :: k in d.intents && d.intents[k].name == name && d.intents[k].account.None?
  }

  /** Virtual accounts that are not deleted, and open requests. */
  function LiveCount(d: Db): nat {
    |set id | id in d.accounts && d.accounts[id].kind == Virtual && d.accounts[id].status != Deleted|
    + |set k | k in d.intents && d.intents[k].account.None?|
  }

  function Home(uid: nat): string {
    "/home/tealdrive/virtual-homes/tdv_" + SubidText.Print(uid)
  }

  predicate Closes(d: Db, key: Key) {
    key in d.intents && d.intents[key].account.Some?
  }

  /** The request names this account, which carries the request's UID and belongs to its owner. */
  predicate Fulfilled(d: Db, key: Key, owner: Id, name: string, quota: nat, id: Id) {
    && key in d.intents && id in d.accounts
    && d.intents[key] == Intent(owner, name, quota, d.accounts[id].uid, Some(id))
    && d.accounts[id].kind == Virtual
    && d.accounts[id].owner == if owner == RootOwner then None else Some(owner)
  }

  /** A candidate list whose first 1024 entries are all in use. */
  ghost predicate Exhausted(cfg: Config, d: Db, blocked: seq<S.Segment>, taken: set<nat>, segments: seq<S.Segment>) {
    && S.Disjoint(segments)
    && (forall x: int :: S.Inside(segments, x) <==> cfg.minUid <= x <= cfg.maxUid && !S.Inside(blocked, x))
    && var candidates := S.Candidates(segments, Cursor(cfg, d));
       forall j :: 0 <= j < |candidates| && j < 1024 ==> !Usable(cfg, d, blocked, taken, candidates[j])
  }

  function Cursor(cfg: Config, d: Db): nat {
    ValueOr(d.cursor, cfg.minUid)
  }

  /** In range, mapped by nobody else, unknown to the system, and never handed out before. */
  predicate Usable(cfg: Config, d: Db, blocked: seq<S.Segment>, taken: set<nat>, x: nat) {
    cfg.minUid <= x <= cfg.maxUid && !S.Inside(blocked, x) && x !in taken && x !in Assigned(d)
  }

  lemma {:induction false} FirstUsable(cfg: Config, d: Db, blocked: seq<S.Segment>, taken: set<nat>, candidates: seq<nat>,
                                       start: nat, k: nat)
    requires k < |candidates| && S.ByDistance(candidates, start, cfg.maxUid)
    requires forall j :: 0 <= j < k ==> !Usable(cfg, d, blocked, taken, candidates[j])
    requires forall x: nat :: cfg.minUid <= x <= cfg.maxUid && !S.Inside(blocked, x) ==> x in candidates
    ensures forall x :: Usable(cfg, d, blocked, taken, x) ==>
      S.Distance(start, cfg.maxUid, candidates[k]) <= S.Distance(start, cfg.maxUid, x)
  {
    hide Assigned, S.Inside;
    forall x | Usable(cfg, d, blocked, taken, x)
      ensures S.Distance(start, cfg.maxUid, candidates[k]) <= S.Distance(start, cfg.maxUid, x)
    {
      assert x in candidates;
      var j :| 0 <= j < |candidates| && candidates[j] == x;
      assert j >= k;
    }
  }
}
