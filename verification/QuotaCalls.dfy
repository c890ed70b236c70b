/**
  One call that changes a child's quota, as the list of host states it passes through. The caller's view of the
  child may be out of date: it is read before the provisioning lock is taken.
 */
module QuotaCalls {
  import opened Types
  import opened Sums
  import opened Tables
  import opened Ops
  import opened Invariant
  import opened Preservation
  import opened Evolution
  import opened Runs
  import opened Native
  import opened NativeCommits
  import opened NativeRequests
  import opened HostSteps
  import opened NativeTheorems

  /** What the call learns from the system: whether homes and usage can be read, usages, and which writes and commits succeed. */
  datatype Answers = Answers(
    reachable: bool, used: nat, ownerUsed: nat, lowered: bool, commits: bool, undone: bool, childSet: bool, ownerSet: bool)

  /** What the call is given; `seen` is the quota in the caller's row of the child. */
  datatype Call = Call(authority: Authority, id: Id, seen: nat, generation: nat, bytes: nat)

  predicate IsOwned(d: Db, id: Id) {
    && id in d.accounts && IsChild(d.accounts[id])
    && d.accounts[id].owner.Some? && d.accounts[id].owner.value in d.accounts
  }

  function OwnerOf(d: Db, id: Id): Id
    requires IsOwned(d, id)
  {
    d.accounts[id].owner.value
  }

  /** The owner's own limit as the call reads it: nothing for a Linux owner. */
  ghost function ParentLimit(d: Db, owner: Id): nat {
    if IsVirtual(d, owner) then Limit(d, owner) else 0
  }

  // ---------- The effects ----------

  predicate Refuses(cfg: Config, bytes: nat, ok: bool) {
    cfg.userQuota && !(ok && Capped(cfg, bytes) % 1024 == 0)
  }

  /** The states that one kernel write adds: one if it happens, none if it is refused or not called for. */
  function Wrote(cfg: Config, s: Sys, uid: nat, bytes: nat, ok: bool): seq<Sys> {
    if cfg.userQuota && !Refuses(cfg, bytes, ok) then [Sys(s.db, s.native[uid := KernelLimit(cfg, bytes)])] else []
  }

  function Latest(s: Sys, states: seq<Sys>): Sys {
    if states == [] then s else states[|states| - 1]
  }

  /** The checks before the transaction: input, usage, and room as computed from the quota the caller saw. */
  ghost predicate Entered(cfg: Config, d: Db, q: Call, a: Answers)
    requires IsOwned(d, q.id)
  {
    var owner := OwnerOf(d, q.id);
    && ValidateInput(cfg, d.accounts[q.id].username, q.bytes, false).Ok? && a.reachable && a.used <= q.bytes
    && (owner !in d.own ==> q.bytes <= ParentLimit(d, owner) + q.seen)
    && (IsVirtual(d, owner) ==>
          a.ownerUsed <= if owner in d.own then ParentLimit(d, owner) else ParentLimit(d, owner) + q.seen - q.bytes)
  }

  /** The write inside the transaction: a growing quota lowers a virtual owner, a shrinking one the child. */
  ghost function Lowered(cfg: Config, s: Sys, q: Call, remaining: nat, a: Answers): seq<Sys>
    requires IsOwned(s.db, q.id)
  {
    var owner := OwnerOf(s.db, q.id);
    if q.bytes > q.seen && IsVirtual(s.db, owner) then Wrote(cfg, s, s.db.accounts[owner].uid, remaining, a.lowered)
    else if q.bytes < q.seen then Wrote(cfg, s, s.db.accounts[q.id].uid, q.bytes, a.lowered)
    else []
  }

  predicate LoweringFails(cfg: Config, d: Db, q: Call, remaining: nat, a: Answers)
    requires IsOwned(d, q.id)
  {
    if q.bytes > q.seen && IsVirtual(d, OwnerOf(d, q.id)) then Refuses(cfg, remaining, a.lowered)
    else q.bytes < q.seen && Refuses(cfg, q.bytes, a.lowered)
  }

  /** After a failed transaction: the child is set back to the quota the caller saw, or the owner to its limit. */
  ghost function Undone(cfg: Config, s: Sys, q: Call, a: Answers): seq<Sys>
    requires IsOwned(s.db, q.id)
  {
    var owner := OwnerOf(s.db, q.id);
    if q.bytes < q.seen then Wrote(cfg, s, s.db.accounts[q.id].uid, q.seen, a.undone)
    else if q.bytes > q.seen && IsVirtual(s.db, owner) then
      Wrote(cfg, s, s.db.accounts[owner].uid, ParentLimit(s.db, owner), a.undone)
    else []
  }

  /** After the commit: the child is set to its new quota, then a virtual owner to what remains. */
  ghost function Raised(cfg: Config, d: Db, s: Sys, q: Call, remaining: nat, a: Answers): seq<Sys>
    requires IsOwned(d, q.id)
  {
    var owner := OwnerOf(d, q.id);
    var child := Wrote(cfg, s, d.accounts[q.id].uid, q.bytes, a.childSet);
    if Refuses(cfg, q.bytes, a.childSet) || !IsVirtual(d, owner) then child
    else child + Wrote(cfg, Latest(s, child), d.accounts[owner].uid, remaining, a.ownerSet)
  }

  /** The transaction is refused, finds the owner too full, or the write inside it fails. */
  ghost predicate Aborts(cfg: Config, d: Db, q: Call, a: Answers)
    requires IsOwned(d, q.id)
  {
    var p := SetChildQuota(d, q.authority, q.id, q.generation, q.bytes);
    || p.Err? || (IsVirtual(d, OwnerOf(d, q.id)) && p.value.remaining < a.ownerUsed)
    || LoweringFails(cfg, d, q, p.value.remaining, a)
  }

  /** What follows the write inside the transaction: the commit and the writes after it, or the undoing. */
  ghost function Settled(cfg: Config, t: Sys, q: Call, p: Prepared, a: Answers): seq<Sys>
    requires IsOwned(t.db, q.id)
  {
    if !a.commits then Undone(cfg, t, q, a) else
    var committed := Sys(p.db, t.native);
    [committed] + Raised(cfg, t.db, committed, q, p.remaining, a)
  }

  /** Every state the host passes through during the call, after the one it starts in. */
  ghost function QuotaCall(cfg: Config, s: Sys, q: Call, a: Answers): seq<Sys>
    requires IsOwned(s.db, q.id)
  {
    if !Entered(cfg, s.db, q, a) then [] else
    if Aborts(cfg, s.db, q, a) then Undone(cfg, s, q, a) else
    var p := SetChildQuota(s.db, q.authority, q.id, q.generation, q.bytes).value;
    var lowered := Lowered(cfg, s, q, p.remaining, a);
    lowered + Settled(cfg, Latest(s, lowered), q, p, a)
  }

  lemma {:induction false} RefusedCall(cfg: Config, s: Sys, q: Call, a: Answers)
    requires IsOwned(s.db, q.id) && !Entered(cfg, s.db, q, a)
    ensures QuotaCall(cfg, s, q, a) == []
  {
  }

  /** How the whole call follows from its parts, where later answers are only known later. */
  lemma {:induction false} AbortedCall(cfg: Config, s: Sys, q: Call, a: Answers, b: Answers, c: Answers)
    requires IsOwned(s.db, q.id) && Entered(cfg, s.db, q, a) && b == a.(lowered := b.lowered) && c == b.(undone := c.undone)
    requires Aborts(cfg, s.db, q, b)
    ensures QuotaCall(cfg, s, q, c) == Undone(cfg, s, q, c)
  {
    hide SetChildQuota, ValidateInput, Limit, Refuses, Undone, Lowered, Raised;
  }

  lemma {:induction false} SettledCall(cfg: Config, s: Sys, q: Call, a: Answers, b: Answers, c: Answers)
    requires IsOwned(s.db, q.id) && Entered(cfg, s.db, q, a) && b == a.(lowered := b.lowered)
    requires c == b.(commits := c.commits, undone := c.undone, childSet := c.childSet, ownerSet := c.ownerSet)
    requires !Aborts(cfg, s.db, q, b)
    ensures var p := SetChildQuota(s.db, q.authority, q.id, q.generation, q.bytes).value;
      var lowered := Lowered(cfg, s, q, p.remaining, b);
      && Latest(s, lowered).db == s.db && QuotaCall(cfg, s, q, c) == lowered + Settled(cfg, Latest(s, lowered), q, p, c)
  {
    hide SetChildQuota, ValidateInput, Limit, Refuses, Settled, KernelLimit;
  }

  // ---------- Budgets and own quotas ----------

  /** What a change of an administrator's budget or own quota learns from the system. */
  datatype LimitAnswers = LimitAnswers(entered: bool, used: nat, lowered: bool, commits: bool, placed: bool)

  /** The transaction is refused, finds more in use than remains, or the write inside it fails. */
  ghost predicate LimitAborts(cfg: Config, d: Db, id: Id, p: Result<Prepared>, a: LimitAnswers) {
    || p.Err?
    || (IsVirtual(d, id) && (p.value.remaining < a.used || (p.value.remaining < Limit(d, id) && Refuses(cfg, p.value.remaining, a.lowered))))
  }

  /** The states of the write inside the transaction: only a limit that shrinks is written there. */
  ghost function LimitLowered(cfg: Config, s: Sys, id: Id, p: Result<Prepared>, a: LimitAnswers): seq<Sys>
    requires id in s.db.accounts
  {
    if !LimitAborts(cfg, s.db, id, p, a) && IsVirtual(s.db, id) && p.value.remaining < Limit(s.db, id)
    then Wrote(cfg, s, s.db.accounts[id].uid, p.value.remaining, a.lowered) else []
  }

  lemma {:induction false} LimitAnswersLater(cfg: Config, s: Sys, id: Id, p: Result<Prepared>, a: LimitAnswers, b: LimitAnswers)
    requires id in s.db.accounts && b == a.(commits := b.commits, placed := b.placed)
    ensures LimitAborts(cfg, s.db, id, p, b) == LimitAborts(cfg, s.db, id, p, a)
    ensures LimitLowered(cfg, s, id, p, b) == LimitLowered(cfg, s, id, p, a)
  {
    hide Limit, Refuses, Wrote;
  }

  /** Every state of such a call: then the commit, and the limit as the tables have it at the end. */
  ghost function LimitCall(cfg: Config, s: Sys, id: Id, p: Result<Prepared>, a: LimitAnswers): seq<Sys>
    requires id in s.db.accounts
  {
    if !a.entered then [] else
    var uid, lowered := s.db.accounts[id].uid, LimitLowered(cfg, s, id, p, a);
    var t := Latest(s, lowered);
    if LimitAborts(cfg, s.db, id, p, a) || !a.commits then
      lowered + if IsVirtual(s.db, id) then Wrote(cfg, t, uid, Limit(s.db, id), a.placed) else []
    else
      var committed := Sys(p.value.db, t.native);
      lowered + [committed] + if IsVirtual(s.db, id) then Wrote(cfg, committed, uid, p.value.remaining, a.placed) else []
  }

  /** The same as three lists: what is lowered, the commit if there is one, and the last write. */
  lemma {:induction false} LimitCallParts(cfg: Config, s: Sys, id: Id, p: Result<Prepared>, a: LimitAnswers)
    requires id in s.db.accounts && a.entered && (a.commits ==> !LimitAborts(cfg, s.db, id, p, a))
    ensures var uid, lowered := s.db.accounts[id].uid, LimitLowered(cfg, s, id, p, a);
      var t := if a.commits then Sys(p.value.db, Latest(s, lowered).native) else Latest(s, lowered);
      LimitCall(cfg, s, id, p, a) == lowered + (if a.commits then [t] else [])
        + if IsVirtual(s.db, id) then Wrote(cfg, t, uid, if a.commits then p.value.remaining else Limit(s.db, id), a.placed) else []
  {
    hide Limit, Refuses, Wrote, LimitLowered, Latest;
  }

  // ---------- When all of them are safe ----------

  /** The kernel limit in force, if there is one, is within what a number of bytes allows. */
  predicate Within(cfg: Config, s: Sys, id: Id, bytes: nat)
    requires id in s.db.accounts
  {
    s.db.accounts[id].uid in s.native ==> s.native[s.db.accounts[id].uid] <= KernelLimit(cfg, bytes)
  }

  /** Setting the child back to the quota the caller saw gives it no more than it has now. */
  ghost predicate UndoSafe(cfg: Config, d: Db, q: Call, a: Answers)
    requires IsOwned(d, q.id)
  {
    q.bytes < q.seen && !Refuses(cfg, q.seen, a.undone) && Live(d, q.id) ==>
      KernelLimit(cfg, q.seen) <= KernelLimit(cfg, QuotaOf(d.accounts[q.id]))
  }

  /** Whoever is lowered inside the transaction is really the one to lose. */
  ghost predicate LoweringSafe(cfg: Config, d: Db, q: Call, remaining: nat)
    requires IsOwned(d, q.id)
  {
    && (q.bytes < q.seen ==> KernelLimit(cfg, q.bytes) <= KernelLimit(cfg, QuotaOf(d.accounts[q.id])))
    && (q.bytes > q.seen && IsVirtual(d, OwnerOf(d, q.id)) ==>
          KernelLimit(cfg, remaining) <= KernelLimit(cfg, ParentLimit(d, OwnerOf(d, q.id))))
  }

  /**
    In terms of the child's present quota, the quota the caller saw and the new one. Aborted: the child may only be set
    back to at most its present quota. Failed at the commit: that, and whoever was lowered must really have lost.
    Committed: whoever is lowered first must lose, and whoever is not must already be within its new limit.
   */
  ghost predicate QuotaCallSafe(cfg: Config, s: Sys, q: Call, a: Answers)
    requires IsOwned(s.db, q.id)
  {
    var d, owner := s.db, OwnerOf(s.db, q.id);
    if !cfg.userQuota || !Entered(cfg, d, q, a) then true else
    if Aborts(cfg, d, q, a) then UndoSafe(cfg, d, q, a) else
    var remaining := SetChildQuota(d, q.authority, q.id, q.generation, q.bytes).value.remaining;
    && LoweringSafe(cfg, d, q, remaining)
    && if !a.commits then UndoSafe(cfg, d, q, a) else
       && (q.bytes >= q.seen ==> Within(cfg, s, q.id, q.bytes))
       && (q.bytes <= q.seen && IsVirtual(d, owner) ==> Within(cfg, s, owner, remaining))
  }

  /** A kernel write to a live account is safe exactly when it is within the account's limit. */
  lemma {:induction false} WriteIff(cfg: Config, s: Sys, id: Id, bytes: nat)
    requires SysInv(cfg, s) && cfg.userQuota && IsVirtual(s.db, id)
    ensures SysInv(cfg, Sys(s.db, s.native[s.db.accounts[id].uid := KernelLimit(cfg, bytes)]))
      <==> (Live(s.db, id) ==> KernelLimit(cfg, bytes) <= KernelLimit(cfg, Limit(s.db, id)))
  {
    hide KernelLimit, Limit, Assigned, KeysOk, PurgedOk, LedgerOk, ProofRowsOk, ProofCapsOk, Floored;
    var d, after := s.db, s.native[s.db.accounts[id].uid := KernelLimit(cfg, bytes)];
    if Live(d, id) ==> KernelLimit(cfg, bytes) <= KernelLimit(cfg, Limit(d, id)) {
      forall i | i in d.accounts ensures AccountSafe(cfg, d, after, i) {
        assert AccountSafe(cfg, d, s.native, i);
      }
      forall k | k in d.intents ensures RequestSafe(cfg, d, after, k) {
        assert RequestSafe(cfg, d, s.native, k);
        assert IntentOk(d.accounts, d.intents[k]);
      }
      KnownUid(d, id);
    } else {
      assert !AccountSafe(cfg, d, after, id);
    }
  }

  lemma {:induction false} SafeOne(cfg: Config, s: Sys)
    ensures AllSafe(cfg, [s]) <==> SysInv(cfg, s)
  {
    hide SysInv;
    assert [s][0] == s;
  }

  lemma {:induction false} SafeSum(cfg: Config, a: seq<Sys>, b: seq<Sys>)
    ensures AllSafe(cfg, a + b) <==> AllSafe(cfg, a) && AllSafe(cfg, b)
  {
    hide SysInv;
    forall i | 0 <= i < |b| ensures (a + b)[|a| + i] == b[i] {
    }
    if AllSafe(cfg, a + b) {
      forall i | 0 <= i < |a| ensures SysInv(cfg, a[i]) {
        assert (a + b)[i] == a[i];
      }
      forall i | 0 <= i < |b| ensures SysInv(cfg, b[i]) {
        assert (a + b)[|a| + i] == b[i];
      }
    }
  }

  lemma {:induction false} WroteIff(cfg: Config, s: Sys, id: Id, bytes: nat, ok: bool)
    requires SysInv(cfg, s) && cfg.userQuota && IsVirtual(s.db, id)
    ensures AllSafe(cfg, Wrote(cfg, s, s.db.accounts[id].uid, bytes, ok))
      <==> (!Refuses(cfg, bytes, ok) && Live(s.db, id) ==> KernelLimit(cfg, bytes) <= KernelLimit(cfg, Limit(s.db, id)))
  {
    hide SysInv, KernelLimit, Limit, Refuses;
    WriteIff(cfg, s, id, bytes);
    SafeOne(cfg, Sys(s.db, s.native[s.db.accounts[id].uid := KernelLimit(cfg, bytes)]));
  }

  /** A child is live unless purged, and purged accounts are children: an owner is never purged. */
  lemma {:induction false} OwnerFacts(d: Db, id: Id)
    requires Inv(d) && IsOwned(d, id)
    ensures var owner := OwnerOf(d, id);
      && owner != id && d.accounts[owner].uid != d.accounts[id].uid && (IsVirtual(d, owner) ==> Live(d, owner))
      && IsVirtual(d, id) && Limit(d, id) == QuotaOf(d.accounts[id])
  {
    hide KeysOk, IntentsOk, LedgerOk, ProofRowsOk, ProofCapsOk;
    ChildOwnerShape(d, id);
  }

  lemma {:induction false} UndoneIff(cfg: Config, s: Sys, q: Call, a: Answers)
    requires SysInv(cfg, s) && cfg.userQuota && IsOwned(s.db, q.id)
    ensures AllSafe(cfg, Undone(cfg, s, q, a)) <==> UndoSafe(cfg, s.db, q, a)
  {
    hide Inv, NativeOk, Floored, KernelLimit, Limit, Refuses, Wrote;
    OwnerFacts(s.db, q.id);
    var owner := OwnerOf(s.db, q.id);
    if q.bytes < q.seen {
      WroteIff(cfg, s, q.id, q.seen, a.undone);
    } else if q.bytes > q.seen && IsVirtual(s.db, owner) {
      WroteIff(cfg, s, owner, Limit(s.db, owner), a.undone);
    }
  }

  /** With the transaction accepted, the child is live and the answer says what remains for the owner. */
  lemma {:induction false} AcceptedFacts(d: Db, q: Call)
    requires Inv(d) && IsOwned(d, q.id) && SetChildQuota(d, q.authority, q.id, q.generation, q.bytes).Ok?
    ensures Live(d, q.id) && Parent(d, q.id) == Some(OwnerOf(d, q.id))
  {
    hide KeysOk, IntentsOk, LedgerOk, ProofRowsOk, ProofCapsOk, Children, Pending, BudgetOf, Manage;
  }

  lemma {:induction false} LoweredIff(cfg: Config, s: Sys, q: Call, remaining: nat, a: Answers)
    requires SysInv(cfg, s) && cfg.userQuota && IsOwned(s.db, q.id) && Live(s.db, q.id) && !LoweringFails(cfg, s.db, q, remaining, a)
    ensures AllSafe(cfg, Lowered(cfg, s, q, remaining, a)) <==> LoweringSafe(cfg, s.db, q, remaining)
  {
    hide Inv, NativeOk, Floored, KernelLimit, Limit, Refuses, Wrote;
    OwnerFacts(s.db, q.id);
    var owner := OwnerOf(s.db, q.id);
    if q.bytes > q.seen && IsVirtual(s.db, owner) {
      WroteIff(cfg, s, owner, remaining, a.lowered);
    } else if q.bytes < q.seen {
      WroteIff(cfg, s, q.id, q.bytes, a.lowered);
    }
  }

  /** What the kernel holds when the transaction commits. */
  lemma {:induction false} LoweredNative(cfg: Config, s: Sys, q: Call, remaining: nat, a: Answers)
    requires Inv(s.db) && cfg.userQuota && IsOwned(s.db, q.id) && Live(s.db, q.id) && !LoweringFails(cfg, s.db, q, remaining, a)
    ensures var owner, t := OwnerOf(s.db, q.id), Latest(s, Lowered(cfg, s, q, remaining, a));
      && t.db == s.db
      && (Shrunk(cfg, t.db, t.native, q.id, q.bytes) <==> q.bytes < q.seen || Within(cfg, s, q.id, q.bytes))
      && (IsVirtual(s.db, owner) ==>
            (Shrunk(cfg, t.db, t.native, owner, remaining) <==> q.bytes > q.seen || Within(cfg, s, owner, remaining)))
  {
    hide Inv, KernelLimit;
    OwnerFacts(s.db, q.id);
  }

  /** The commit is safe exactly when child and owner already fit their new limits. */
  lemma {:induction false} CommittedIff(cfg: Config, s: Sys, q: Call)
    requires SysInv(cfg, s) && cfg.userQuota && IsOwned(s.db, q.id) && q.bytes >= CHILD_MINIMUM
    requires SetChildQuota(s.db, q.authority, q.id, q.generation, q.bytes).Ok?
    ensures var Prepared(e, remaining) := SetChildQuota(s.db, q.authority, q.id, q.generation, q.bytes).value;
      && (SysInv(cfg, Sys(e, s.native)) <==>
            && Shrunk(cfg, s.db, s.native, q.id, q.bytes)
            && (IsVirtual(s.db, OwnerOf(s.db, q.id)) ==> Shrunk(cfg, s.db, s.native, OwnerOf(s.db, q.id), remaining)))
  {
    hide Inv, Floored, Limit, KernelLimit, SetChildQuota, Assigned;
    var Prepared(e, remaining) := SetChildQuota(s.db, q.authority, q.id, q.generation, q.bytes).value;
    var owner := OwnerOf(s.db, q.id);
    AcceptedFacts(s.db, q);
    OwnerFacts(s.db, q.id);
    AcceptedRows(s.db, q);
    QuotaLimits(s.db, q.authority, q.id, q.generation, q.bytes);
    if SysInv(cfg, Sys(e, s.native)) {
      assert AccountSafe(cfg, e, s.native, q.id) && AccountSafe(cfg, e, s.native, owner);
    }
    if Shrunk(cfg, s.db, s.native, q.id, q.bytes)
       && (IsVirtual(s.db, owner) ==> Shrunk(cfg, s.db, s.native, owner, remaining)) {
      QuotaCommit(cfg, s.db, s.native, q.authority, q.id, q.generation, q.bytes);
    }
  }

  lemma {:induction false} AcceptedRows(d: Db, q: Call)
    requires Inv(d) && IsOwned(d, q.id) && SetChildQuota(d, q.authority, q.id, q.generation, q.bytes).Ok?
    ensures var e := SetChildQuota(d, q.authority, q.id, q.generation, q.bytes).value.db;
      && e.purged == d.purged && e.accounts.Keys == d.accounts.Keys
      && forall i :: i in d.accounts ==> e.accounts[i].uid == d.accounts[i].uid && e.accounts[i].kind == d.accounts[i].kind
  {
    hide Inv, SetChildQuota;
    QuotaRows(d, q.authority, q.id, q.generation, q.bytes);
  }

  lemma {:induction false} WroteLatest(cfg: Config, s: Sys, uid: nat, bytes: nat, ok: bool)
    requires SysInv(cfg, s) && AllSafe(cfg, Wrote(cfg, s, uid, bytes, ok))
    ensures SysInv(cfg, Latest(s, Wrote(cfg, s, uid, bytes, ok))) && Latest(s, Wrote(cfg, s, uid, bytes, ok)).db == s.db
  {
    hide SysInv, KernelLimit, Refuses;
  }

  /** After a safe commit nothing more can go wrong: both writes give exactly what the tables now allow. */
  lemma {:induction false} RaisedSafe(cfg: Config, d: Db, s: Sys, q: Call, remaining: nat, a: Answers)
    requires SysInv(cfg, s) && cfg.userQuota && Inv(d) && IsOwned(d, q.id)
    requires SetChildQuota(d, q.authority, q.id, q.generation, q.bytes) == Ok(Prepared(s.db, remaining))
    ensures AllSafe(cfg, Raised(cfg, d, s, q, remaining, a))
  {
    hide Inv, SysInv, KernelLimit, Limit, Refuses, Wrote, AllSafe, SetChildQuota;
    var owner := OwnerOf(d, q.id);
    AcceptedFacts(d, q);
    AcceptedRows(d, q);
    QuotaLimits(d, q.authority, q.id, q.generation, q.bytes);
    OwnerFacts(d, q.id);
    WroteIff(cfg, s, q.id, q.bytes, a.childSet);
    var child := Wrote(cfg, s, d.accounts[q.id].uid, q.bytes, a.childSet);
    WroteLatest(cfg, s, d.accounts[q.id].uid, q.bytes, a.childSet);
    if IsVirtual(d, owner) {
      var t := Latest(s, child);
      WroteIff(cfg, t, owner, remaining, a.ownerSet);
      SafeSum(cfg, child, Wrote(cfg, t, d.accounts[owner].uid, remaining, a.ownerSet));
    }
  }

  lemma {:induction false} LoweredLatest(cfg: Config, s: Sys, q: Call, remaining: nat, a: Answers)
    requires SysInv(cfg, s) && IsOwned(s.db, q.id) && AllSafe(cfg, Lowered(cfg, s, q, remaining, a))
    ensures SysInv(cfg, Latest(s, Lowered(cfg, s, q, remaining, a)))
    ensures Latest(s, Lowered(cfg, s, q, remaining, a)).db == s.db
  {
    hide SysInv, KernelLimit, Refuses;
  }

  /** The committed call, in parts: the write inside the transaction, the commit, and the writes after it. */
  lemma {:induction false} CommittedCallIff(cfg: Config, s: Sys, q: Call, a: Answers)
    requires SysInv(cfg, s) && cfg.userQuota && IsOwned(s.db, q.id) && q.bytes >= CHILD_MINIMUM
    requires Entered(cfg, s.db, q, a) && !Aborts(cfg, s.db, q, a) && a.commits
    ensures AllSafe(cfg, QuotaCall(cfg, s, q, a)) <==> QuotaCallSafe(cfg, s, q, a)
  {
    hide Inv, NativeOk, Floored, KernelLimit, Limit, Refuses, Wrote, AllSafe, SetChildQuota, Entered, Shrunk, Raised, Within, Lowered;
    var Prepared(e, remaining) := SetChildQuota(s.db, q.authority, q.id, q.generation, q.bytes).value;
    var lowered := Lowered(cfg, s, q, remaining, a);
    var before := Latest(s, lowered);
    var committed := Sys(e, before.native);
    AcceptedFacts(s.db, q);
    LoweredIff(cfg, s, q, remaining, a);
    LoweredNative(cfg, s, q, remaining, a);
    SafeOne(cfg, committed);
    SafeSum(cfg, [committed], Raised(cfg, s.db, committed, q, remaining, a));
    SafeSum(cfg, lowered, [committed] + Raised(cfg, s.db, committed, q, remaining, a));
    if AllSafe(cfg, lowered) {
      LoweredLatest(cfg, s, q, remaining, a);
      CommittedIff(cfg, before, q);
      if SysInv(cfg, committed) {
        RaisedSafe(cfg, s.db, committed, q, remaining, a);
      }
    }
  }

  /** The call whose commit fails: the write inside the transaction, and the one that takes it back. */
  lemma {:induction false} FailedCallIff(cfg: Config, s: Sys, q: Call, a: Answers)
    requires SysInv(cfg, s) && cfg.userQuota && IsOwned(s.db, q.id)
    requires Entered(cfg, s.db, q, a) && !Aborts(cfg, s.db, q, a) && !a.commits
    ensures AllSafe(cfg, QuotaCall(cfg, s, q, a)) <==> QuotaCallSafe(cfg, s, q, a)
  {
    hide Inv, NativeOk, Floored, KernelLimit, Limit, Refuses, Wrote, AllSafe, SetChildQuota, Entered, Raised, Lowered, LoweringSafe,
      UndoSafe, Undone;
    var remaining := SetChildQuota(s.db, q.authority, q.id, q.generation, q.bytes).value.remaining;
    var lowered := Lowered(cfg, s, q, remaining, a);
    AcceptedFacts(s.db, q);
    LoweredIff(cfg, s, q, remaining, a);
    SettledCall(cfg, s, q, a, a, a);
    SafeSum(cfg, lowered, Undone(cfg, Latest(s, lowered), q, a));
    if AllSafe(cfg, lowered) {
      LoweredLatest(cfg, s, q, remaining, a);
      UndoneIff(cfg, Latest(s, lowered), q, a);
    }
  }

  /** Without kernel enforcement there is nothing to write, and the call is one transaction. */
  lemma {:induction false} UnenforcedCall(cfg: Config, s: Sys, q: Call, a: Answers)
    requires SysInv(cfg, s) && !cfg.userQuota && IsOwned(s.db, q.id)
    ensures AllSafe(cfg, QuotaCall(cfg, s, q, a))
  {
    hide Inv, Entered, Aborts, SetChildQuota, KernelLimit, Refuses, Limit;
    if Entered(cfg, s.db, q, a) && !Aborts(cfg, s.db, q, a) {
      AcceptedByAbort(cfg, s.db, q, a);
      SetChildQuotaKeeps(s.db, q.authority, q.id, q.generation, q.bytes);
    }
  }

  lemma {:induction false} AcceptedByAbort(cfg: Config, d: Db, q: Call, a: Answers)
    requires IsOwned(d, q.id) && !Aborts(cfg, d, q, a)
    ensures SetChildQuota(d, q.authority, q.id, q.generation, q.bytes).Ok?
  {
    hide SetChildQuota;
  }

  /**
    A call with any view of the child keeps every state on the way safe exactly when `QuotaCallSafe` holds, for every
    host state, every outcome of the transaction and every answer of the system.
   */
  lemma {:induction false} QuotaCallIff(cfg: Config, s: Sys, q: Call, a: Answers)
    requires SysInv(cfg, s) && IsOwned(s.db, q.id)
    ensures AllSafe(cfg, QuotaCall(cfg, s, q, a)) <==> QuotaCallSafe(cfg, s, q, a)
  {
    hide Inv, NativeOk, Floored, KernelLimit, Limit, Refuses, Wrote, AllSafe, SetChildQuota, Aborts, Undone, Raised, Lowered, Within,
      ValidateInput;
    if !cfg.userQuota {
      UnenforcedCall(cfg, s, q, a);
    } else if !Entered(cfg, s.db, q, a) {
      NoStates(cfg);
    } else if Aborts(cfg, s.db, q, a) {
      UndoneIff(cfg, s, q, a);
    } else if a.commits {
      CommittedCallIff(cfg, s, q, a);
    } else {
      FailedCallIff(cfg, s, q, a);
    }
  }

  lemma {:induction false} NoStates(cfg: Config)
    ensures AllSafe(cfg, [])
  {
  }

  // ---------- The two ends: a current view, and a stale one ----------

  /** With the child's present quota in the caller's row every call is safe, whatever happens on the way. */
  lemma {:induction false} CurrentViewSafe(cfg: Config, s: Sys, q: Call, a: Answers)
    requires SysInv(cfg, s) && IsOwned(s.db, q.id) && q.seen == QuotaOf(s.db.accounts[q.id])
    ensures QuotaCallSafe(cfg, s, q, a) && AllSafe(cfg, QuotaCall(cfg, s, q, a))
  {
    hide Inv, Floored, KernelLimit, Limit, Refuses, AllSafe, SetChildQuota, QuotaCall, ValidateInput, Assigned;
    var d, owner := s.db, OwnerOf(s.db, q.id);
    QuotaCallIff(cfg, s, q, a);
    if cfg.userQuota && Entered(cfg, d, q, a) && !Aborts(cfg, d, q, a) {
      AcceptedFacts(d, q);
      OwnerFacts(d, q.id);
      ChildRemaining(d, q.authority, q.id, q.generation, q.bytes);
      assert AccountSafe(cfg, d, s.native, q.id) && AccountSafe(cfg, d, s.native, owner);
      var remaining := SetChildQuota(d, q.authority, q.id, q.generation, q.bytes).value.remaining;
      KernelMonotone(cfg, Min(q.bytes, q.seen), Max(q.bytes, q.seen));
      KernelMonotone(cfg, Min(remaining, ParentLimit(d, owner)), Max(remaining, ParentLimit(d, owner)));
    }
  }

  /** The owner's own limit is a remainder, and large enough for a smaller one to show in the kernel. */
  ghost predicate OwnerGives(d: Db, owner: Id) {
    IsVirtual(d, owner) && owner !in d.own && Limit(d, owner) > KERNEL_MINIMUM
  }

  /** The owner's own limit is a remainder, and large enough after the change for a larger one to show. */
  ghost predicate OwnerGains(d: Db, owner: Id, now: nat, bytes: nat) {
    IsVirtual(d, owner) && owner !in d.own && Limit(d, owner) + now - bytes > KERNEL_MINIMUM
  }

  /**
    In numbers, on a host whose kernel limits are exactly those of the tables and not capped: an aborted call is safe
    exactly when it does not restore more than the child has; a committed one when the caller saw the change in the
    direction it really has.
   */
  lemma {:induction false} StaleCallInNumbers(cfg: Config, s: Sys, q: Call, a: Answers)
    requires SysInv(cfg, s) && IsOwned(s.db, q.id) && cfg.userQuota && cfg.ceiling.None?
    requires Live(s.db, q.id) && Synced(cfg, s.db, s.native, q.id) && Synced(cfg, s.db, s.native, OwnerOf(s.db, q.id))
    requires Entered(cfg, s.db, q, a)
    ensures var now := QuotaOf(s.db.accounts[q.id]);
      AllSafe(cfg, QuotaCall(cfg, s, q, a)) <==>
        if Aborts(cfg, s.db, q, a) then q.bytes < q.seen && !Refuses(cfg, q.seen, a.undone) ==> q.seen <= now
        else if !a.commits then
          && (q.bytes < q.seen ==> q.bytes <= now && (!Refuses(cfg, q.seen, a.undone) ==> q.seen <= now))
          && (q.bytes > q.seen && OwnerGains(s.db, OwnerOf(s.db, q.id), now, q.bytes) ==> now <= q.bytes)
        else
          && (q.bytes < q.seen ==> q.bytes <= now) && (q.bytes > q.seen ==> now <= q.bytes)
          && (q.bytes == q.seen ==> now <= q.bytes && (OwnerGives(s.db, OwnerOf(s.db, q.id)) ==> now == q.bytes))
  {
    hide Inv, NativeOk, Limit, Refuses, AllSafe, SetChildQuota, QuotaCall, Assigned;
    var d, owner := s.db, OwnerOf(s.db, q.id);
    QuotaCallIff(cfg, s, q, a);
    OwnerFacts(d, q.id);
    if !Aborts(cfg, d, q, a) {
      AcceptedFacts(d, q);
      ChildRemaining(d, q.authority, q.id, q.generation, q.bytes);
    }
  }

  /** Every answer of the system is favourable, and nothing is used yet. */
  const WILLING := Answers(true, 0, 0, true, true, true, true, true)

  predicate Plain(cfg: Config) {
    && cfg.enabled && cfg.hasTemplate && cfg.userQuota && cfg.ceiling.None? && !cfg.journalEnabled
    && "child" !in cfg.reservedNames
  }

  lemma {:induction false} FamilyShape(budget: nat, quota: nat, generation: nat)
    requires quota <= budget
    ensures var d := Family(budget, quota, generation);
      && IsOwned(d, CHILD) && OwnerOf(d, CHILD) == ADMIN && IsVirtual(d, ADMIN) && Live(d, CHILD)
      && ParentLimit(d, ADMIN) == budget - quota && QuotaOf(d.accounts[CHILD]) == quota
  {
    hide Children, Pending, Delegated;
    FamilySums(budget, quota, generation);
  }

  /** Root may give the child any multiple of 1 KiB that the budget holds, if it names the generation. */
  lemma {:induction false} FamilyQuota(budget: nat, quota: nat, generation: nat, named: nat, bytes: nat)
    requires generation >= 1 && quota <= budget <= I64_MAX && 0 < bytes <= budget
    ensures SetChildQuota(Family(budget, quota, generation), Root, CHILD, named, bytes) ==
      if named == generation then Ok(Prepared(Family(budget, bytes, generation + 1), budget - bytes)) else Err(Conflict)
  {
    hide Children, Pending, Delegated;
    FamilySums(budget, quota, generation);
    if named == generation {
      var d := Family(budget, quota, generation);
      assert PutRow(d, CHILD, Bump(d.accounts[CHILD]).(quota := Some(bytes))).accounts == Family(budget, bytes, generation + 1).accounts;
    }
  }

  lemma {:induction false} FamilyEnters(cfg: Config, quota: nat, generation: nat, q: Call)
    requires Plain(cfg) && quota <= 65536 && q.id == CHILD && CHILD_MINIMUM <= q.bytes <= q.seen <= 65536 && q.bytes % 1024 == 0
    ensures IsOwned(Family(65536, quota, generation), CHILD) && Entered(cfg, Family(65536, quota, generation), q, WILLING)
  {
    FamilyShape(65536, quota, generation);
    var name := "child";
    assert Family(65536, quota, generation).accounts[CHILD].username == name && NameOk(name);
  }

  /** A child of 16 KiB on a synchronised host. */
  const BEFORE := Sys(Family(65536, 16384, 1), FamilyLimits(65536, 16384))

  /** One caller gives it 4 KiB; the other read its row before that and now asks for 8 KiB. */
  const FIRST := Call(Root, CHILD, 16384, 1, 4096)
  const SECOND := Call(Root, CHILD, 16384, 1, 8192)

  lemma {:induction false} BeforeIsSafe(cfg: Config)
    requires Plain(cfg)
    ensures SysInv(cfg, BEFORE) && Enforced(cfg, BEFORE)
  {
    hide Inv, NativeOk, Covered;
    FamilyInv(65536, 16384, 1);
    FamilyNative(cfg, 65536, 16384, 1);
  }

  /** The first call, made with a current row, is safe at every point and leaves 4 KiB in the tables. */
  lemma {:induction false} FirstCall(cfg: Config)
    requires Plain(cfg)
    ensures IsOwned(BEFORE.db, CHILD) && AllSafe(cfg, QuotaCall(cfg, BEFORE, FIRST, WILLING))
    ensures var s := Latest(BEFORE, QuotaCall(cfg, BEFORE, FIRST, WILLING)); SysInv(cfg, s) && s.db == Family(65536, 4096, 2)
  {
    hide Inv, SysInv, KernelLimit, Entered, Family, SetChildQuota, Limit;
    BeforeIsSafe(cfg);
    FamilyShape(65536, 16384, 1);
    FamilyQuota(65536, 16384, 1, 1, 4096);
    FamilyEnters(cfg, 16384, 1, FIRST);
    CurrentViewSafe(cfg, BEFORE, FIRST, WILLING);
  }

  /**
    The second call then fails: with the generation it saw it is refused as a conflict and gives the child its 16 KiB
    back in the kernel; with the present generation it is accepted, after the kernel was given 8 KiB instead of 4.
   */
  lemma {:induction false} StaleCallExceeds(cfg: Config, generation: nat)
    requires Plain(cfg)
    ensures IsOwned(BEFORE.db, CHILD)
    ensures var s := Latest(BEFORE, QuotaCall(cfg, BEFORE, FIRST, WILLING));
      && SysInv(cfg, s) && IsOwned(s.db, CHILD)
      && !AllSafe(cfg, QuotaCall(cfg, s, SECOND.(generation := generation), WILLING))
  {
    hide Inv, SysInv, Entered, Family, SetChildQuota, Limit, AllSafe, QuotaCall;
    var q := SECOND.(generation := generation);
    FirstCall(cfg);
    var s := Latest(BEFORE, QuotaCall(cfg, BEFORE, FIRST, WILLING));
    FamilyShape(65536, 4096, 2);
    FamilyQuota(65536, 4096, 2, generation, 8192);
    FamilyEnters(cfg, 4096, 2, q);
    QuotaCallIff(cfg, s, q, WILLING);
  }
}
