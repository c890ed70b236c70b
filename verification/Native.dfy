/**
  Kernel quota limits beside the database. A host state pairs the committed database with the
  per-UID limits that the kernel enforces; `SysInv` is what must hold between any two writes.
 */
module Native {
  import opened Types
  import opened Sums
  import opened Tables
  import opened Ops
  import opened Invariant
  import opened Preservation
  import opened Evolution
  import opened Runs

  /** The root-owned settings that provisioning reads; `ceiling` is the template's own quota. */
  datatype Config = Config(
    webAccounts: bool, enabled: bool, hasTemplate: bool, userQuota: bool, ceiling: Option<nat>,
    minUid: nat, maxUid: nat, maxAccounts: nat,
    journalEnabled: bool, maxRecordBytes: nat, reservedNames: set<string>)

  datatype Sys = Sys(db: Db, native: map<nat, nat>)

  const KERNEL_MINIMUM: nat := 1024

  /** The least quota that a child or a request may have where the kernel enforces quotas. */
  const CHILD_MINIMUM: nat := 4096

  function Capped(cfg: Config, bytes: nat): nat {
    if cfg.ceiling.Some? then Min(bytes, cfg.ceiling.value) else bytes
  }

  /** The hard limit the kernel ends up with: zero would mean unlimited, so it is never below 1 KiB. */
  function KernelLimit(cfg: Config, bytes: nat): (r: nat)
    ensures KERNEL_MINIMUM <= r <= Max(bytes, KERNEL_MINIMUM)
    ensures cfg.ceiling.Some? ==> r <= Max(cfg.ceiling.value, KERNEL_MINIMUM)
    ensures KERNEL_MINIMUM <= bytes && (cfg.ceiling.Some? ==> bytes <= cfg.ceiling.value) ==> r == bytes
  {
    Max(Capped(cfg, bytes), KERNEL_MINIMUM)
  }

  lemma {:induction false} KernelMonotone(cfg: Config, a: nat, b: nat)
    requires a <= b
    ensures KernelLimit(cfg, a) <= KernelLimit(cfg, b)
  {
  }

  predicate IsVirtual(d: Db, id: Id) {
    id in d.accounts && d.accounts[id].kind == Virtual
  }

  function Parent(d: Db, id: Id): Option<Id> {
    if id in d.accounts then d.accounts[id].owner else None
  }

  /** The metadata limit of a virtual account. */
  ghost function Limit(d: Db, id: Id): nat {
    if id !in d.accounts then 0 else
    if IsChild(d.accounts[id]) then QuotaOf(d.accounts[id]) else
    if id in d.own then d.own[id] else
    var rest := BudgetOf(d, id) - Children(d, id) - Pending(d, id);
    if rest >= 0 then rest else 0
  }

  lemma {:induction false} LimitIsEffective(d: Db, id: Id)
    requires Inv(d) && id in d.accounts && d.accounts[id].kind == Virtual
    ensures EffectiveQuota(d, id) == Ok(Some(Limit(d, id)))
  {
    hide Total, KeysOk, PurgedOk, IntentsOk, ProofRowsOk, ProofCapsOk, LedgerOk, ChildRows, PendingRows;
    QuotaArithmeticFits(d, id);
    assert ShapeOk(d.accounts, d.accounts[id]);
  }

  predicate Live(d: Db, id: Id) {
    IsVirtual(d, id) && id !in d.purged
  }

  predicate Open(d: Db, key: Key) {
    key in d.intents && d.intents[key].account.None?
  }

  ghost predicate AccountSafe(cfg: Config, d: Db, native: map<nat, nat>, id: Id) {
    Live(d, id) && d.accounts[id].uid in native ==> native[d.accounts[id].uid] <= KernelLimit(cfg, Limit(d, id))
  }

  predicate RequestSafe(cfg: Config, d: Db, native: map<nat, nat>, key: Key) {
    Open(d, key) && d.intents[key].uid in native ==> native[d.intents[key].uid] <= KernelLimit(cfg, d.intents[key].quota)
  }

  ghost predicate NativeOk(cfg: Config, d: Db, native: map<nat, nat>) {
    && native.Keys <= Assigned(d)
    && (forall id {:trigger AccountSafe(cfg, d, native, id)} :: id in d.accounts ==> AccountSafe(cfg, d, native, id))
    && (forall key {:trigger RequestSafe(cfg, d, native, key)} :: key in d.intents ==> RequestSafe(cfg, d, native, key))
  }

  /** Every live child and every open request is large enough for the kernel to enforce. */
  predicate Floored(d: Db) {
    && (forall id :: id in d.accounts && IsChild(d.accounts[id]) && Live(d, id) ==> QuotaOf(d.accounts[id]) >= CHILD_MINIMUM)
    && (forall key :: key in d.intents && Open(d, key) ==> d.intents[key].quota >= CHILD_MINIMUM)
  }

  /** Kernel limits are only kept in step when the enforcement mode is per-user quota. */
  ghost predicate SysInv(cfg: Config, s: Sys) {
    Inv(s.db) && (cfg.userQuota ==> NativeOk(cfg, s.db, s.native) && Floored(s.db))
  }

  /** Every live virtual account has a limit in the kernel; without one the kernel does not limit it at all. */
  predicate Covered(d: Db, native: map<nat, nat>) {
    forall id :: id in d.accounts && Live(d, id) ==> d.accounts[id].uid in native
  }

  predicate Enforced(cfg: Config, s: Sys) {
    cfg.userQuota ==> Covered(s.db, s.native)
  }

  /** One effect later: recorded limits are safe, and where every account was limited, every account still is. */
  ghost predicate Follows(cfg: Config, s: Sys, t: Sys) {
    SysInv(cfg, t) && (Enforced(cfg, s) ==> Enforced(cfg, t))
  }

  ghost predicate AllSafe(cfg: Config, states: seq<Sys>) {
    forall i :: 0 <= i < |states| ==> SysInv(cfg, states[i])
  }

  /** Once every account is limited, every account is limited ever after. */
  predicate StaysEnforced(cfg: Config, states: seq<Sys>) {
    forall i, j {:trigger Enforced(cfg, states[i]), Enforced(cfg, states[j])} ::
      0 <= i <= j < |states| && Enforced(cfg, states[i]) ==> Enforced(cfg, states[j])
  }

  ghost predicate SafeThroughout(cfg: Config, states: seq<Sys>) {
    AllSafe(cfg, states) && StaysEnforced(cfg, states)
  }

  lemma {:induction false} EnforcedAppend(cfg: Config, states: seq<Sys>, t: Sys)
    requires states != [] && StaysEnforced(cfg, states) && (Enforced(cfg, states[|states| - 1]) ==> Enforced(cfg, t))
    ensures StaysEnforced(cfg, states + [t])
  {
    hide Enforced;
    var all := states + [t];
    forall i, j | 0 <= i <= j < |all| && Enforced(cfg, all[i]) ensures Enforced(cfg, all[j]) {
      if j == |states| && i < j {
        assert Enforced(cfg, states[i]) ==> Enforced(cfg, states[|states| - 1]);
      }
    }
  }

  /** Kernel writes only add limits. */
  lemma {:induction false} CoveredWrite(d: Db, native: map<nat, nat>, uid: nat, limit: nat)
    requires Covered(d, native)
    ensures Covered(d, native[uid := limit])
  {
  }

  /** A commit that brings no new identity leaves every account limited. */
  lemma {:induction false} CoveredCommit(d: Db, e: Db, native: map<nat, nat>)
    requires Covered(d, native)
    requires forall id :: id in e.accounts && Live(e, id) ==> id in d.accounts && Live(d, id) && d.accounts[id].uid == e.accounts[id].uid
    ensures Covered(e, native)
  {
  }

  // ---------- Single native writes ----------

  lemma {:induction false} WriteAccount(cfg: Config, d: Db, native: map<nat, nat>, id: Id, bytes: nat)
    requires Inv(d) && NativeOk(cfg, d, native) && id in d.accounts && bytes <= Limit(d, id)
    ensures NativeOk(cfg, d, native[d.accounts[id].uid := KernelLimit(cfg, bytes)])
  {
    hide KeysOk, PurgedOk, LedgerOk, ProofRowsOk, ProofCapsOk, Limit, KernelLimit;
    var after := native[d.accounts[id].uid := KernelLimit(cfg, bytes)];
    KernelMonotone(cfg, bytes, Limit(d, id));
    forall i | i in d.accounts ensures AccountSafe(cfg, d, after, i) {
      assert AccountSafe(cfg, d, native, i);
    }
    forall key | key in d.intents ensures RequestSafe(cfg, d, after, key) {
      assert RequestSafe(cfg, d, native, key);
      assert IntentOk(d.accounts, d.intents[key]);
    }
  }

  lemma {:induction false} WriteRequest(cfg: Config, d: Db, native: map<nat, nat>, key: Key, bytes: nat)
    requires Inv(d) && NativeOk(cfg, d, native) && Open(d, key) && bytes <= d.intents[key].quota
    ensures NativeOk(cfg, d, native[d.intents[key].uid := KernelLimit(cfg, bytes)])
  {
    hide RowsOk, KeysOk, PurgedOk, LedgerOk, ProofRowsOk, ProofCapsOk, Limit, KernelLimit;
    var after := native[d.intents[key].uid := KernelLimit(cfg, bytes)];
    assert IntentOk(d.accounts, d.intents[key]);
    KernelMonotone(cfg, bytes, d.intents[key].quota);
    forall i | i in d.accounts ensures AccountSafe(cfg, d, after, i) {
      assert AccountSafe(cfg, d, native, i);
    }
    forall k | k in d.intents ensures RequestSafe(cfg, d, after, k) {
      assert RequestSafe(cfg, d, native, k);
    }
  }

  // ---------- Commits ----------

  /**
    A commit is safe if every limit it lowers had been lowered in the kernel before, and every
    identity it introduces brings its limit along.
   */
  lemma {:induction false} CommitSafe(cfg: Config, d: Db, e: Db, native: map<nat, nat>)
    requires NativeOk(cfg, d, native) && Assigned(d) <= Assigned(e)
    requires forall id :: id in e.accounts ==>
      (Live(d, id) && d.accounts[id].uid == e.accounts[id].uid && Limit(d, id) <= Limit(e, id))
      || AccountSafe(cfg, e, native, id)
    requires forall key :: key in e.intents ==>
      (Open(d, key) && e.intents[key] == d.intents[key]) || RequestSafe(cfg, e, native, key)
    ensures NativeOk(cfg, e, native)
  {
    hide Assigned, Limit, KernelLimit;
    forall id | id in e.accounts ensures AccountSafe(cfg, e, native, id) {
      if Live(d, id) && d.accounts[id].uid == e.accounts[id].uid && Limit(d, id) <= Limit(e, id) {
        assert AccountSafe(cfg, d, native, id);
        KernelMonotone(cfg, Limit(d, id), Limit(e, id));
      }
    }
    forall key | key in e.intents ensures RequestSafe(cfg, e, native, key) {
      if Open(d, key) && e.intents[key] == d.intents[key] {
        assert RequestSafe(cfg, d, native, key);
      }
    }
  }

  lemma {:induction false} QuietLimit(d: Db, e: Db, id: Id)
    requires Quiet(d, e) && id in d.accounts
    ensures id in e.accounts && (d.accounts[id].kind == Virtual ==> Limit(e, id) == Limit(d, id))
  {
    hide Children, Pending, BudgetOf, OwnOf;
    QuietSums(d, e);
  }

  lemma {:induction false} QuietNative(cfg: Config, d: Db, e: Db, native: map<nat, nat>)
    requires NativeOk(cfg, d, native) && Quiet(d, e) && Assigned(d) <= Assigned(e)
    ensures NativeOk(cfg, e, native)
  {
    hide Assigned, Limit, KernelLimit;
    forall id | id in e.accounts ensures AccountSafe(cfg, e, native, id) {
      QuietLimit(d, e, id);
      assert AccountSafe(cfg, d, native, id);
    }
    forall key | key in e.intents ensures RequestSafe(cfg, e, native, key) {
      assert RequestSafe(cfg, d, native, key);
    }
  }
}
