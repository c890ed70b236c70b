/**
  What can happen to the database over time. `Later(d, e)` relates a state to any state that
  later transactions can reach; it is reflexive and transitive, so it holds across whole runs.
 */
module Evolution {
  import opened Types
  import opened Tables
  import opened Ops
  import opened Invariant
  import opened Preservation

  // ---------- The relation ----------

  /** Identity columns never change, generations only grow, and deletion is final. */
  predicate RowLater(r: Row, s: Row) {
    && s.username == r.username && s.uid == r.uid && s.gid == r.gid && s.home == r.home
    && s.kind == r.kind && s.owner == r.owner
    && (r.kind == Virtual ==> s.role == r.role)
    && s.generation >= r.generation
    && (r.status == Deleted ==> s.status == Deleted)
    && (s.generation == r.generation ==> s == r.(undoHours := s.undoHours))
  }

  /** Columns outside the row that also carry authority: password flag, panel scope, policy. */
  predicate SameAuthority(d: Db, e: Db, id: Id) {
    && (id in d.mustChange <==> id in e.mustChange)
    && (id in d.scopes <==> id in e.scopes)
    && (id in d.scopes && id in e.scopes ==> d.scopes[id] == e.scopes[id])
    && RulesOf(d, id) == RulesOf(e, id)
  }

  predicate AccountLater(d: Db, e: Db, id: Id)
    requires id in d.accounts
  {
    && id in e.accounts
    && RowLater(d.accounts[id], e.accounts[id])
    && (e.accounts[id].generation == d.accounts[id].generation ==> SameAuthority(d, e, id))
  }

  ghost predicate AccountsLater(d: Db, e: Db) {
    forall id :: id in d.accounts ==> AccountLater(d, e, id)
  }

  /** A nonce that was handed out before may only lose its row, or have it revoked. */
  ghost predicate GrantsLater(used: set<Id>, before: map<Id, Grant>, after: map<Id, Grant>) {
    forall n :: n in used && n in after ==>
      && n in before
      && after[n] == before[n].(revoked := after[n].revoked)
      && (before[n].revoked ==> after[n].revoked)
  }

  ghost predicate EnrollmentLater(used: set<Id>, before: map<Id, Enrollment>, after: map<Id, Enrollment>) {
    forall t :: t in used && t in after ==>
      && t in before
      && after[t] == before[t].(consumed := after[t].consumed)
      && (before[t].consumed ==> after[t].consumed)
  }

  ghost predicate Later(d: Db, e: Db) {
    && d.used <= e.used
    && AccountsLater(d, e)
    && GrantsLater(d.used, d.grants, e.grants)
    && EnrollmentLater(d.used, d.enrollment, e.enrollment)
    && Assigned(d) <= Assigned(e)
  }

  lemma {:induction false} LaterReflexive(d: Db)
    ensures Later(d, d)
  {
  }

  lemma {:induction false} AccountsTransitive(d: Db, e: Db, f: Db)
    requires AccountsLater(d, e) && AccountsLater(e, f)
    ensures AccountsLater(d, f)
  {
    forall id | id in d.accounts ensures AccountLater(d, f, id) {
      assert AccountLater(d, e, id) && AccountLater(e, f, id);
    }
  }

  lemma {:induction false} LaterTransitive(d: Db, e: Db, f: Db)
    requires Later(d, e) && Later(e, f)
    ensures Later(d, f)
  {
    hide AccountsLater, Assigned;
    AccountsTransitive(d, e, f);
  }

  // ---------- One touched row ----------

  /** A transaction that rewrites one row with a new generation and what hangs on that id. */
  ghost predicate Touches(d: Db, e: Db, id: Id) {
    && id in d.accounts && e.accounts.Keys == d.accounts.Keys
    && RowLater(d.accounts[id], e.accounts[id]) && e.accounts[id].generation > d.accounts[id].generation
    && forall i :: i in d.accounts && i != id ==> e.accounts[i] == d.accounts[i] && SameAuthority(d, e, i)
  }

  lemma {:induction false} TouchAccounts(d: Db, e: Db, id: Id)
    requires Touches(d, e, id)
    ensures AccountsLater(d, e)
  {
  }

  lemma {:induction false} SameUids(d: Db, e: Db)
    requires AccountsLater(d, e) && d.retired <= e.retired
    requires forall k :: k in d.intents ==> k in e.intents && e.intents[k].uid == d.intents[k].uid
    ensures Assigned(d) <= Assigned(e)
  {
    forall u | u in Assigned(d) ensures u in Assigned(e) {
      if i :| i in d.accounts && d.accounts[i].uid == u {
        assert AccountLater(d, e, i);
        assert e.accounts[i].uid == u;
      } else if k :| k in d.intents && d.intents[k].uid == u {
        assert e.intents[k].uid == u;
      }
    }
  }

  lemma {:induction false} TouchLater(d: Db, e: Db, id: Id)
    requires Touches(d, e, id)
    requires e.used == d.used && e.intents == d.intents && d.retired <= e.retired
    requires GrantsLater(d.used, d.grants, e.grants) && EnrollmentLater(d.used, d.enrollment, e.enrollment)
    ensures Later(d, e)
  {
    hide Touches, Assigned;
    TouchAccounts(d, e, id);
    SameUids(d, e);
  }

  /** Rows stay; only proofs, requests or quota tables move. */
  lemma {:induction false} StillLater(d: Db, e: Db)
    requires e.accounts == d.accounts && d.used <= e.used && d.retired <= e.retired
    requires e.mustChange == d.mustChange && e.scopes == d.scopes && e.policies == d.policies
    requires forall k :: k in d.intents ==>
      if k in e.intents then e.intents[k].uid == d.intents[k].uid else d.intents[k].uid in e.retired
    requires GrantsLater(d.used, d.grants, e.grants) && EnrollmentLater(d.used, d.enrollment, e.enrollment)
    ensures Later(d, e)
  {
    forall u | u in Assigned(d) ensures u in Assigned(e) {
      if k :| k in d.intents && d.intents[k].uid == u {
        if k in e.intents {
          assert e.intents[k].uid == u;
        }
      }
    }
  }

  /** One new account row; every older row and its authority stay as they were. */
  lemma {:induction false} GrowLater(d: Db, e: Db, id: Id)
    requires id !in d.accounts && id in e.accounts && e.accounts == d.accounts[id := e.accounts[id]]
    requires d.used <= e.used && d.retired <= e.retired
    requires forall i :: i in d.accounts ==> SameAuthority(d, e, i)
    requires forall k :: k in d.intents ==> k in e.intents && e.intents[k].uid == d.intents[k].uid
    requires GrantsLater(d.used, d.grants, e.grants) && EnrollmentLater(d.used, d.enrollment, e.enrollment)
    ensures Later(d, e)
  {
    hide Assigned, SameAuthority;
    SameUids(d, e);
  }
}
