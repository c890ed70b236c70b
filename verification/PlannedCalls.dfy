/** The calls of a host are the plans that other transactions may interleave with: run alone, they pass through the same states. */
module PlannedCalls {
  import opened Types
  import opened Sums
  import opened Tables
  import opened Ops
  import opened Invariant
  import opened Preservation
  import opened Evolution
  import opened Runs
  import opened Native
  import opened NativeCommits
  import opened NativeRequests
  import opened HostSteps
  import opened NativeTheorems
  import opened QuotaCalls
  import opened Interleaving

  /** No other transaction takes part. */
  predicate Alone(run: seq<Action>) {
    forall i :: 0 <= i < |run| ==> run[i].Own?
  }

  /** A run of the plan alone that passes through the given states. */
  ghost predicate Performs(cfg: Config, s: Sys, p: Plan, states: seq<Sys>, run: seq<Action>) {
    Alone(run) && Calling(cfg, s, p, p.lower, run) && States(cfg, s, run) == [s] + states
  }

  lemma {:induction false} StatesCons(cfg: Config, s: Sys, a: Action, run: seq<Action>)
    ensures States(cfg, s, [a] + run) == [s] + States(cfg, Next(cfg, s, a), run)
  {
    assert ([a] + run)[1..] == run;
  }

  /** One write of a list is made or refused; a refused one is passed over. */
  lemma {:induction false} WriteOnce(cfg: Config, s: Sys, id: Id, bytes: nat, ok: bool, rest: seq<Effect>, tail: seq<Action>) returns (run: seq<Action>)
    requires cfg.userQuota && id in s.db.accounts && Alone(tail)
    requires var t := Latest(s, Wrote(cfg, s, s.db.accounts[id].uid, bytes, ok)); Writing(cfg, t, rest, tail)
    ensures var writes := Wrote(cfg, s, s.db.accounts[id].uid, bytes, ok);
      && Alone(run) && Writing(cfg, s, [SetAccount(id, bytes)] + rest, run)
      && States(cfg, s, run) == (if writes == [] then [] else [s]) + States(cfg, Latest(s, writes), tail)
  {
    hide KernelLimit;
    var todo := [SetAccount(id, bytes)] + rest;
    assert todo[1..] == rest;
    if Refuses(cfg, bytes, ok) {
      run := tail;
    } else {
      run := [Own(SetAccount(id, bytes))] + tail;
      assert run[1..] == tail;
    }
  }

  lemma {:induction false} WritesNothing(cfg: Config, s: Sys, todo: seq<Effect>)
    ensures Writing(cfg, s, todo, []) && States(cfg, s, []) == [s]
  {
  }

  /** A list of one write, or of none. */
  lemma {:induction false} WriteLast(cfg: Config, s: Sys, id: Id, bytes: nat, ok: bool) returns (run: seq<Action>)
    requires cfg.userQuota && id in s.db.accounts
    ensures Alone(run) && Writing(cfg, s, [SetAccount(id, bytes)], run)
    ensures States(cfg, s, run) == [s] + Wrote(cfg, s, s.db.accounts[id].uid, bytes, ok)
  {
    hide KernelLimit, Writing, States;
    var writes := Wrote(cfg, s, s.db.accounts[id].uid, bytes, ok);
    WritesNothing(cfg, Latest(s, writes), []);
    run := WriteOnce(cfg, s, id, bytes, ok, [], []);
    assert [SetAccount(id, bytes)] + [] == [SetAccount(id, bytes)];
  }

  // ---------- Putting a call together ----------

  /** Nothing, or only the undoing: the call was refused on the way in or in its transaction. */
  lemma {:induction false} Refused(cfg: Config, s: Sys, p: Plan, states: seq<Sys>, run: seq<Action>)
    requires Alone(run) && Writing(cfg, s, p.undo, run) && States(cfg, s, run) == [s] + states
    ensures Performs(cfg, s, p, states, run)
  {
    hide Writing, States;
  }

  /** The transaction and what follows it, once the writes before it are made. */
  lemma {:induction false} Transacted(cfg: Config, s: Sys, p: Plan, e: Db, tail: seq<Action>) returns (run: seq<Action>)
    requires Alone(tail) && Admissible(s.db, p.ev) && Step(s.db, p.ev) == Ok(e) && Writing(cfg, Sys(e, s.native), p.raise, tail)
    ensures Alone(run) && Calling(cfg, s, p, [], run) && States(cfg, s, run) == [s] + States(cfg, Sys(e, s.native), tail)
  {
    hide Writing, Admissible, Step;
    run := [Own(Transact(p.ev))] + tail;
    assert run[1..] == tail;
    StatesCons(cfg, s, Own(Transact(p.ev)), tail);
  }

  lemma {:induction false} CallingUndo(cfg: Config, s: Sys, p: Plan, run: seq<Action>)
    requires Writing(cfg, s, p.undo, run)
    ensures Calling(cfg, s, p, [], run)
  {
    hide Writing;
  }

  /** The write before the transaction, if the plan has one, is made. */
  lemma {:induction false} AfterLowering(cfg: Config, s: Sys, p: Plan, lowered: seq<Sys>, states: seq<Sys>, tail: seq<Action>)
    returns (run: seq<Action>)
    requires |p.lower| <= 1 && Alone(tail) && Calling(cfg, Latest(s, lowered), p, [], tail)
    requires States(cfg, Latest(s, lowered), tail) == [Latest(s, lowered)] + states
    requires p.lower == [] ==> lowered == []
    requires p.lower != [] ==> lowered == [Next(cfg, s, Own(p.lower[0]))]
    ensures Performs(cfg, s, p, lowered + states, run)
  {
    hide Writing, Next;
    if p.lower == [] {
      run := tail;
      assert lowered + states == states;
    } else {
      run := [Own(p.lower[0])] + tail;
      assert run[1..] == tail && p.lower[1..] == [];
      StatesCons(cfg, s, Own(p.lower[0]), tail);
    }
  }

  // ---------- Budgets and own quotas ----------

  lemma {:induction false} LimitCallPlanned(cfg: Config, s: Sys, id: Id, pr: Result<Prepared>, ev: Event, keeps: nat, a: LimitAnswers)
    returns (run: seq<Action>)
    requires cfg.userQuota && id in s.db.accounts && Admissible(s.db, ev) && Step(s.db, ev) == DbOf(pr)
    requires pr.Ok? ==> pr.value.remaining == keeps && id in pr.value.db.accounts && pr.value.db.accounts[id].uid == s.db.accounts[id].uid
    ensures Performs(cfg, s, LimitPlan(s.db, id, keeps, ev), LimitCall(cfg, s, id, pr, a), run)
  {
    hide Limit, KernelLimit, Writing, States, Calling, Admissible, Step, Refuses, LimitLowered, LimitAborts, Next, LimitCall, Performs,
      Latest, Wrote;
    LimitCallCases(cfg, s, id, pr, a);
    var p := LimitPlan(s.db, id, keeps, ev);
    var lowered := LimitLowered(cfg, s, id, pr, a);
    var t := Latest(s, lowered);
    LoweredPlanned(cfg, s, id, pr, ev, keeps, a);
    if !a.entered {
      WritesNothing(cfg, s, p.undo);
      run := [];
      Refused(cfg, s, p, [], run);
    } else if LimitAborts(cfg, s.db, id, pr, a) {
      run := UndoLimit(cfg, s, id, keeps, ev, a);
      Refused(cfg, s, p, LimitCall(cfg, s, id, pr, a), run);
    } else {
      var states, tail := LimitTail(cfg, t, id, pr.value, ev, a);
      run := AfterLowering(cfg, s, p, lowered, states, tail);
    }
  }

  lemma {:induction false} LimitCallCases(cfg: Config, s: Sys, id: Id, pr: Result<Prepared>, a: LimitAnswers)
    requires id in s.db.accounts
    ensures var uid, lowered := s.db.accounts[id].uid, LimitLowered(cfg, s, id, pr, a);
      var t := Latest(s, lowered);
      LimitCall(cfg, s, id, pr, a) ==
        if !a.entered then [] else
        if LimitAborts(cfg, s.db, id, pr, a) then (if IsVirtual(s.db, id) then Wrote(cfg, s, uid, Limit(s.db, id), a.placed) else []) else
        lowered + ((if a.commits then [Sys(pr.value.db, t.native)] else []) + if !IsVirtual(s.db, id) then [] else
          if a.commits then Wrote(cfg, Sys(pr.value.db, t.native), uid, pr.value.remaining, a.placed)
          else Wrote(cfg, t, uid, Limit(s.db, id), a.placed))
  {
    hide Limit, Refuses, Wrote;
  }

  /** What follows the lowering: the commit and the last write, or the undoing. */
  lemma {:induction false} LimitTail(cfg: Config, t: Sys, id: Id, pr: Prepared, ev: Event, a: LimitAnswers)
    returns (states: seq<Sys>, tail: seq<Action>)
    requires cfg.userQuota && id in t.db.accounts && Admissible(t.db, ev) && Step(t.db, ev) == Ok(pr.db)
    requires id in pr.db.accounts && pr.db.accounts[id].uid == t.db.accounts[id].uid
    ensures states == (if a.commits then [Sys(pr.db, t.native)] else []) + if !IsVirtual(t.db, id) then [] else
      if a.commits then Wrote(cfg, Sys(pr.db, t.native), t.db.accounts[id].uid, pr.remaining, a.placed)
      else Wrote(cfg, t, t.db.accounts[id].uid, Limit(t.db, id), a.placed)
    ensures Alone(tail) && States(cfg, t, tail) == [t] + states
    ensures Calling(cfg, t, LimitPlan(t.db, id, pr.remaining, ev), [], tail)
  {
    hide Limit, KernelLimit, Writing, States, Calling, Admissible, Step, Refuses, Wrote;
    var p := LimitPlan(t.db, id, pr.remaining, ev);
    if !a.commits {
      tail := UndoLimit(cfg, t, id, pr.remaining, ev, a);
      states := if IsVirtual(t.db, id) then Wrote(cfg, t, t.db.accounts[id].uid, Limit(t.db, id), a.placed) else [];
      CallingUndo(cfg, t, p, tail);
    } else {
      var committed := Sys(pr.db, t.native);
      var last := RaiseLimit(cfg, committed, t.db, id, pr.remaining, ev, a);
      tail := Transacted(cfg, t, p, pr.db, last);
      states := [committed] + if IsVirtual(t.db, id) then Wrote(cfg, committed, t.db.accounts[id].uid, pr.remaining, a.placed) else [];
    }
  }

  lemma {:induction false} LoweredPlanned(cfg: Config, s: Sys, id: Id, pr: Result<Prepared>, ev: Event, keeps: nat, a: LimitAnswers)
    requires cfg.userQuota && id in s.db.accounts && (pr.Ok? ==> pr.value.remaining == keeps)
    ensures var p, lowered := LimitPlan(s.db, id, keeps, ev), LimitLowered(cfg, s, id, pr, a);
      && |p.lower| <= 1 && Latest(s, lowered).db == s.db
      && (LimitAborts(cfg, s.db, id, pr, a) ==> lowered == [])
      && (!LimitAborts(cfg, s.db, id, pr, a) && p.lower == [] ==> lowered == [])
      && (!LimitAborts(cfg, s.db, id, pr, a) && p.lower != [] ==> lowered == [Next(cfg, s, Own(p.lower[0]))])
    ensures !LimitAborts(cfg, s.db, id, pr, a) ==> pr.Ok?
  {
    hide Limit, KernelLimit;
  }

  lemma {:induction false} UndoLimit(cfg: Config, s: Sys, id: Id, keeps: nat, ev: Event, a: LimitAnswers) returns (run: seq<Action>)
    requires cfg.userQuota && id in s.db.accounts
    ensures Alone(run) && Writing(cfg, s, LimitPlan(s.db, id, keeps, ev).undo, run)
    ensures States(cfg, s, run) ==
      [s] + if IsVirtual(s.db, id) then Wrote(cfg, s, s.db.accounts[id].uid, Limit(s.db, id), a.placed) else []
  {
    hide Limit, KernelLimit, Writing, States;
    if IsVirtual(s.db, id) {
      run := WriteLast(cfg, s, id, Limit(s.db, id), a.placed);
    } else {
      run := [];
      WritesNothing(cfg, s, []);
    }
  }

  lemma {:induction false} RaiseLimit(cfg: Config, s: Sys, d: Db, id: Id, keeps: nat, ev: Event, a: LimitAnswers) returns (run: seq<Action>)
    requires cfg.userQuota && id in d.accounts && id in s.db.accounts && s.db.accounts[id].uid == d.accounts[id].uid
    ensures Alone(run) && Writing(cfg, s, LimitPlan(d, id, keeps, ev).raise, run)
    ensures States(cfg, s, run) == [s] + if IsVirtual(d, id) then Wrote(cfg, s, d.accounts[id].uid, keeps, a.placed) else []
  {
    hide Limit, KernelLimit, Writing, States;
    if IsVirtual(d, id) {
      run := WriteLast(cfg, s, id, keeps, a.placed);
    } else {
      run := [];
      WritesNothing(cfg, s, []);
    }
  }

  /** set_budget, run alone, is its plan. */
  lemma {:induction false} BudgetCallPlanned(cfg: Config, s: Sys, id: Id, bytes: nat, a: LimitAnswers) returns (run: seq<Action>)
    requires cfg.userQuota && Inv(s.db) && id in s.db.accounts
    ensures Performs(cfg, s, LimitPlan(s.db, id, BudgetKeeps(s.db, id, bytes), EvSetAdminBudget(Root, id, bytes)),
                     LimitCall(cfg, s, id, SetAdminBudget(s.db, Root, id, bytes), a), run)
  {
    hide Inv, Performs, LimitPlan, LimitCall, BudgetKeeps, Limit;
    if SetAdminBudget(s.db, Root, id, bytes).Ok? {
      BudgetLimit(s.db, id, bytes);
      BudgetRemaining(s.db, id, bytes);
    }
    hide SetAdminBudget;
    run := LimitCallPlanned(cfg, s, id, SetAdminBudget(s.db, Root, id, bytes), EvSetAdminBudget(Root, id, bytes),
                            BudgetKeeps(s.db, id, bytes), a);
  }

  /** set_own_quota, run alone, is its plan. */
  lemma {:induction false} OwnCallPlanned(cfg: Config, s: Sys, id: Id, bytes: nat, a: LimitAnswers) returns (run: seq<Action>)
    requires cfg.userQuota && id in s.db.accounts
    ensures Performs(cfg, s, LimitPlan(s.db, id, bytes, EvSetAdminOwn(Root, id, bytes)),
                     LimitCall(cfg, s, id, SetAdminOwn(s.db, Root, id, bytes), a), run)
  {
    hide Performs, LimitPlan, LimitCall, Limit, Children, Pending;
    run := LimitCallPlanned(cfg, s, id, SetAdminOwn(s.db, Root, id, bytes), EvSetAdminOwn(Root, id, bytes), bytes, a);
  }

  // ---------- Quotas ----------

  lemma {:induction false} UndoQuota(cfg: Config, s: Sys, q: Call, a: Answers) returns (run: seq<Action>)
    requires cfg.userQuota && IsOwned(s.db, q.id) && q.seen == QuotaOf(s.db.accounts[q.id])
    ensures Alone(run) && Writing(cfg, s, QuotaPlan(s.db, q.authority, q.id, q.generation, q.bytes).undo, run)
    ensures States(cfg, s, run) == [s] + Undone(cfg, s, q, a)
  {
    hide Limit, KernelLimit, Writing, States, OwnerKeeps, Wrote;
    var owner := OwnerOf(s.db, q.id);
    if q.bytes < q.seen {
      run := WriteLast(cfg, s, q.id, q.seen, a.undone);
    } else if q.bytes > q.seen && IsVirtual(s.db, owner) {
      run := WriteLast(cfg, s, owner, Limit(s.db, owner), a.undone);
    } else {
      run := [];
      WritesNothing(cfg, s, []);
    }
  }

  /** The child first, then the owner, unless the child's write is refused. */
  lemma {:induction false} RaiseQuota(cfg: Config, s: Sys, d: Db, q: Call, keeps: nat, a: Answers) returns (run: seq<Action>)
    requires cfg.userQuota && IsOwned(d, q.id) && SameUids(d, s.db, q.id) && SameUids(d, s.db, OwnerOf(d, q.id))
    ensures var owner := OwnerOf(d, q.id);
      Alone(run) && Writing(cfg, s, [SetAccount(q.id, q.bytes)] + if IsVirtual(d, owner) then [SetAccount(owner, keeps)] else [], run)
    ensures States(cfg, s, run) == [s] + Raised(cfg, d, s, q, keeps, a)
  {
    hide KernelLimit, Writing, States;
    var owner, uid := OwnerOf(d, q.id), d.accounts[q.id].uid;
    var child := Wrote(cfg, s, uid, q.bytes, a.childSet);
    var t := Latest(s, child);
    if !IsVirtual(d, owner) {
      run := WriteLast(cfg, s, q.id, q.bytes, a.childSet);
      assert [SetAccount(q.id, q.bytes)] + [] == [SetAccount(q.id, q.bytes)];
    } else if Refuses(cfg, q.bytes, a.childSet) {
      run := [];
      WritesNothing(cfg, s, [SetAccount(q.id, q.bytes)] + [SetAccount(owner, keeps)]);
    } else {
      var tail := WriteLast(cfg, t, owner, keeps, a.ownerSet);
      run := WriteOnce(cfg, s, q.id, q.bytes, a.childSet, [SetAccount(owner, keeps)], tail);
    }
  }

  predicate SameUids(d: Db, e: Db, id: Id) {
    id in d.accounts && id in e.accounts && e.accounts[id].uid == d.accounts[id].uid
  }

  /** set_quota with a current view, run alone, is its plan. */
  lemma {:induction false} QuotaCallPlanned(cfg: Config, s: Sys, q: Call, a: Answers) returns (run: seq<Action>)
    requires cfg.userQuota && Inv(s.db) && IsOwned(s.db, q.id) && q.seen == QuotaOf(s.db.accounts[q.id])
    ensures Performs(cfg, s, QuotaPlan(s.db, q.authority, q.id, q.generation, q.bytes), QuotaCall(cfg, s, q, a), run)
  {
    hide Inv, Limit, KernelLimit, Writing, States, Calling, SetChildQuota, Entered, Undone, Lowered, Settled, Performs, QuotaPlan, Aborts;
    var p := QuotaPlan(s.db, q.authority, q.id, q.generation, q.bytes);
    if !Entered(cfg, s.db, q, a) {
      RefusedCall(cfg, s, q, a);
      WritesNothing(cfg, s, p.undo);
      run := [];
      Refused(cfg, s, p, [], run);
    } else if Aborts(cfg, s.db, q, a) {
      AbortedCall(cfg, s, q, a, a, a);
      run := UndoQuota(cfg, s, q, a);
      Refused(cfg, s, p, Undone(cfg, s, q, a), run);
    } else {
      AcceptedByAbort(cfg, s.db, q, a);
      SettledCall(cfg, s, q, a, a, a);
      var pr := SetChildQuota(s.db, q.authority, q.id, q.generation, q.bytes).value;
      var lowered := Lowered(cfg, s, q, pr.remaining, a);
      QuotaLoweredPlanned(cfg, s, q, a);
      var tail := QuotaTail(cfg, Latest(s, lowered), q, a);
      run := AfterLowering(cfg, s, p, lowered, Settled(cfg, Latest(s, lowered), q, pr, a), tail);
    }
  }

  lemma {:induction false} QuotaLoweredPlanned(cfg: Config, s: Sys, q: Call, a: Answers)
    requires cfg.userQuota && Inv(s.db) && IsOwned(s.db, q.id) && q.seen == QuotaOf(s.db.accounts[q.id]) && !Aborts(cfg, s.db, q, a)
    ensures SetChildQuota(s.db, q.authority, q.id, q.generation, q.bytes).Ok?
    ensures var p := QuotaPlan(s.db, q.authority, q.id, q.generation, q.bytes);
      var lowered := Lowered(cfg, s, q, SetChildQuota(s.db, q.authority, q.id, q.generation, q.bytes).value.remaining, a);
      && |p.lower| <= 1 && (p.lower == [] ==> lowered == []) && (p.lower != [] ==> lowered == [Next(cfg, s, Own(p.lower[0]))])
  {
    hide Inv, Limit, KernelLimit, SetChildQuota, OwnerKeeps;
    KeptIsRemaining(s.db, q);
  }

  lemma {:induction false} KeptIsRemaining(d: Db, q: Call)
    requires Inv(d) && IsOwned(d, q.id) && SetChildQuota(d, q.authority, q.id, q.generation, q.bytes).Ok?
    ensures IsVirtual(d, OwnerOf(d, q.id)) ==>
      SetChildQuota(d, q.authority, q.id, q.generation, q.bytes).value.remaining
        == OwnerKeeps(d, OwnerOf(d, q.id), QuotaOf(d.accounts[q.id]), q.bytes)
  {
    hide Inv, Limit, SetChildQuota;
    ChildRemaining(d, q.authority, q.id, q.generation, q.bytes);
    LimitOfFixed(d, OwnerOf(d, q.id));
  }

  /** What follows the lowering: the commit and both writes, or the undoing. */
  lemma {:induction false} QuotaTail(cfg: Config, t: Sys, q: Call, a: Answers) returns (tail: seq<Action>)
    requires cfg.userQuota && Inv(t.db) && IsOwned(t.db, q.id) && q.seen == QuotaOf(t.db.accounts[q.id])
    requires SetChildQuota(t.db, q.authority, q.id, q.generation, q.bytes).Ok?
    ensures Alone(tail) && Calling(cfg, t, QuotaPlan(t.db, q.authority, q.id, q.generation, q.bytes), [], tail)
    ensures var pr := SetChildQuota(t.db, q.authority, q.id, q.generation, q.bytes).value;
      States(cfg, t, tail) == [t] + Settled(cfg, t, q, pr, a)
  {
    hide Inv, Limit, KernelLimit, Writing, States, Calling, SetChildQuota, OwnerKeeps, Undone, Raised;
    var p := QuotaPlan(t.db, q.authority, q.id, q.generation, q.bytes);
    var pr := SetChildQuota(t.db, q.authority, q.id, q.generation, q.bytes).value;
    if !a.commits {
      tail := UndoQuota(cfg, t, q, a);
      CallingUndo(cfg, t, p, tail);
    } else {
      AcceptedRows(t.db, q);
      KeptIsRemaining(t.db, q);
      var last := RaiseQuota(cfg, Sys(pr.db, t.native), t.db, q, pr.remaining, a);
      tail := Transacted(cfg, t, p, pr.db, last);
    }
  }
}
