/** Login attempts: slots are reserved before a password is checked, and refunded to the window they came from. */
module LoginLimits {
  import opened Types
  import opened Sums
  import SubidText

  /** The scope and the text whose hash is stored; the hash is taken to be injective. */
  datatype LimitKey = AccountScope(name: string) | GlobalScope | IpScope(address: string)

  datatype Window = Window(failures: nat, until: nat)

  /** One reserved slot, tagged with the deadline of the window it was taken from. */
  datatype Ticket = Ticket(key: LimitKey, until: nat)

  /** `address` is None without a client address, and Some(None) for text that is no IP address. */
  datatype Attempt = Attempt(username: string, address: Option<Option<string>>, maxFailures: nat, lockSeconds: nat, at: nat)

  datatype Scope = Scope(key: LimitKey, max: nat)

  const MAX_ROWS: nat := 10000
  const NAME_LIMIT: nat := 256

  function MaxFor(k: LimitKey, maxFailures: nat): nat {
    match k
    case AccountScope(_) => maxFailures
    case GlobalScope => maxFailures * 40
    case IpScope(_) => maxFailures * 5
  }

  function ScopeOf(k: LimitKey, maxFailures: nat): Scope {
    Scope(k, MaxFor(k, maxFailures))
  }

  function Scopes(a: Attempt): (r: seq<Scope>)
    requires a.address != Some(None)
    ensures forall i, k :: 0 <= i < k < |r| ==> r[i].key != r[k].key
    ensures forall i :: 0 <= i < |r| ==> r[i] == ScopeOf(r[i].key, a.maxFailures)
  {
    [ScopeOf(AccountScope(a.username), a.maxFailures), ScopeOf(GlobalScope, a.maxFailures)]
    + if a.address.Some? then [ScopeOf(IpScope(a.address.value.value), a.maxFailures)] else []
  }

  function Live(rows: map<LimitKey, Window>, at: nat): map<LimitKey, Window> {
    map k | k in rows && rows[k].until > at :: rows[k]
  }

  function Deadline(rows: map<LimitKey, Window>, k: LimitKey, until: nat): nat {
    if k in rows then rows[k].until else until
  }

  function Failures(rows: map<LimitKey, Window>, k: LimitKey): nat {
    if k in rows then rows[k].failures else 0
  }

  // ---------- Specification ----------

  /** Every scope still has a slot, and every new row fits the table. */
  predicate Admits(live: map<LimitKey, Window>, scopes: seq<Scope>) {
    forall i :: 0 <= i < |scopes| ==>
      Failures(live, scopes[i].key) < scopes[i].max && (scopes[i].key in live || |live| + i < MAX_ROWS)
  }

  function KeysUpTo(scopes: seq<Scope>, n: nat): set<LimitKey>
    requires n <= |scopes|
  {
    set i | 0 <= i < n :: scopes[i].key
  }

  function KeysOf(scopes: seq<Scope>): set<LimitKey> {
    KeysUpTo(scopes, |scopes|)
  }

  function Charged(live: map<LimitKey, Window>, keys: set<LimitKey>, until: nat): map<LimitKey, Window> {
    map k | k in live.Keys + keys ::
      if k in keys then Window(Failures(live, k) + 1, Deadline(live, k, until)) else live[k]
  }

  function TicketsFor(live: map<LimitKey, Window>, scopes: seq<Scope>, until: nat): seq<Ticket> {
    seq(|scopes|, i requires 0 <= i < |scopes| => Ticket(scopes[i].key, Deadline(live, scopes[i].key, until)))
  }

  function AttemptCheck(a: Attempt): Result<()> {
    if SubidText.Bytes(a.username) > NAME_LIMIT || a.maxFailures == 0 || a.lockSeconds == 0 then Err(InvalidInput)
    else if a.at > I64_MAX || a.lockSeconds > I64_MAX || a.at + a.lockSeconds > I64_MAX then Err(InvalidInput)
    else if a.address == Some(None) then Err(InvalidInput)
    else Ok(())
  }

  /** The table, with every ticket ever issued and those not yet refunded as history. */
  datatype Limits = Limits(rows: map<LimitKey, Window>, outstanding: multiset<Ticket>, issued: set<Ticket>, clock: nat)

  const EMPTY: Limits := Limits(map[], multiset{}, {}, 0)

  function Reserve(l: Limits, a: Attempt): Result<Limits> {
    var _ :- AttemptCheck(a);
    var live := Live(l.rows, a.at);
    if !Admits(live, Scopes(a)) then Err(RateLimited) else
    var tickets := TicketsFor(live, Scopes(a), a.at + a.lockSeconds);
    Ok(Limits(Charged(live, KeysOf(Scopes(a)), a.at + a.lockSeconds),
              l.outstanding + multiset(tickets), l.issued + (set t | t in tickets), a.at))
  }

  /** A refund lowers a row by the tickets that carry its own deadline. */
  function Refunded(rows: map<LimitKey, Window>, tickets: seq<Ticket>): map<LimitKey, Window> {
    map k | k in rows ::
      var spent := multiset(tickets)[Ticket(k, rows[k].until)];
      Window(if rows[k].failures >= spent then rows[k].failures - spent else 0, rows[k].until)
  }

  function Refund(l: Limits, tickets: seq<Ticket>): Limits {
    l.(rows := Refunded(l.rows, tickets), outstanding := l.outstanding - multiset(tickets))
  }

  // ---------- Invariant ----------

  predicate Counts(rows: map<LimitKey, Window>, outstanding: multiset<Ticket>) {
    forall k :: k in rows ==> rows[k].failures == outstanding[Ticket(k, rows[k].until)]
  }

  /** No ticket carries a deadline beyond its key's open window, or beyond now if none is open. */
  predicate Dated(l: Limits) {
    forall t :: t in l.issued ==> if t.key in l.rows then t.until <= l.rows[t.key].until else t.until <= l.clock
  }

  predicate Inv(l: Limits) {
    && Counts(l.rows, l.outstanding) && Dated(l) && |l.rows| <= MAX_ROWS
    && forall t :: t in l.outstanding ==> t in l.issued
  }

  predicate Distinct(scopes: seq<Scope>) {
    forall i, k :: 0 <= i < k < |scopes| ==> scopes[i].key != scopes[k].key
  }

  lemma {:induction false} KeysNext(scopes: seq<Scope>, n: nat)
    requires n < |scopes|
    ensures KeysUpTo(scopes, n + 1) == KeysUpTo(scopes, n) + {scopes[n].key}
    ensures Distinct(scopes) ==> scopes[n].key !in KeysUpTo(scopes, n)
  {
  }

  lemma {:induction false} NoKeys(scopes: seq<Scope>)
    ensures KeysUpTo(scopes, 0) == {}
  {
  }

  lemma {:induction false} TicketCount(live: map<LimitKey, Window>, scopes: seq<Scope>, until: nat, n: nat, t: Ticket)
    requires Distinct(scopes) && n <= |scopes|
    ensures multiset(TicketsFor(live, scopes, until)[..n])[t]
            == if t.key in KeysUpTo(scopes, n) && t.until == Deadline(live, t.key, until) then 1 else 0
  {
    hide Deadline, KeysUpTo, Distinct;
    if n == 0 {
      NoKeys(scopes);
    } else {
      var all := TicketsFor(live, scopes, until);
      TicketCount(live, scopes, until, n - 1, t);
      KeysNext(scopes, n - 1);
      assert all[..n] == all[..n - 1] + [all[n - 1]];
    }
  }

  lemma {:induction false} Checked(a: Attempt)
    requires AttemptCheck(a).Ok?
    ensures a.lockSeconds > 0 && a.address != Some(None)
  {
  }

  /** No ticket of a closed window is dated after now. */
  predicate Closed(rows: map<LimitKey, Window>, tickets: multiset<Ticket>, at: nat) {
    forall t :: t in tickets && t.key !in Live(rows, at) ==> t.until <= at
  }

  lemma {:induction false} ChargeCounts(rows: map<LimitKey, Window>, outstanding: multiset<Ticket>, at: nat, scopes: seq<Scope>, until: nat)
    requires Distinct(scopes)
    requires Counts(rows, outstanding) && at < until && Closed(rows, outstanding, at)
    ensures Counts(Charged(Live(rows, at), KeysOf(scopes), until),
                   outstanding + multiset(TicketsFor(Live(rows, at), scopes, until)))
  {
    hide TicketsFor, KeysUpTo, Distinct;
    var live := Live(rows, at);
    assert TicketsFor(live, scopes, until)[..|scopes|] == TicketsFor(live, scopes, until) by {
      WholeTickets(live, scopes, until);
    }
    var e := Charged(live, KeysOf(scopes), until);
    forall k | k in e
      ensures e[k].failures == (outstanding + multiset(TicketsFor(live, scopes, until)))[Ticket(k, e[k].until)]
    {
      TicketCount(live, scopes, until, |scopes|, Ticket(k, e[k].until));
    }
  }

  lemma {:induction false} WholeTickets(live: map<LimitKey, Window>, scopes: seq<Scope>, until: nat)
    ensures |TicketsFor(live, scopes, until)| == |scopes|
    ensures TicketsFor(live, scopes, until)[..|scopes|] == TicketsFor(live, scopes, until)
  {
  }

  lemma {:induction false} ReserveCounts(l: Limits, a: Attempt)
    requires Inv(l) && a.at >= l.clock && Reserve(l, a).Ok?
    ensures Counts(Reserve(l, a).value.rows, Reserve(l, a).value.outstanding)
  {
    hide Scopes, TicketsFor, KeysOf, AttemptCheck, Admits, Counts, Charged;
    Checked(a);
    ChargeCounts(l.rows, l.outstanding, a.at, Scopes(a), a.at + a.lockSeconds);
  }

  lemma {:induction false} TicketFields(live: map<LimitKey, Window>, scopes: seq<Scope>, until: nat, t: Ticket)
    requires t in TicketsFor(live, scopes, until)
    ensures t.key in KeysOf(scopes) && t.until == Deadline(live, t.key, until)
  {
  }

  lemma {:induction false} ChargeDated(l: Limits, at: nat, scopes: seq<Scope>, until: nat, t: Ticket)
    requires Dated(l) && l.clock <= at < until
    requires t in l.issued || t in TicketsFor(Live(l.rows, at), scopes, until)
    ensures var e := Charged(Live(l.rows, at), KeysOf(scopes), until);
            if t.key in e then t.until <= e[t.key].until else t.until <= at
  {
    hide TicketsFor, KeysOf;
    if t !in l.issued {
      TicketFields(Live(l.rows, at), scopes, until, t);
    }
  }

  lemma {:induction false} ReserveDated(l: Limits, a: Attempt)
    requires Inv(l) && a.at >= l.clock && Reserve(l, a).Ok?
    ensures Dated(Reserve(l, a).value)
    ensures forall t :: t in Reserve(l, a).value.outstanding ==> t in Reserve(l, a).value.issued
  {
    hide Scopes, TicketsFor, KeysOf, AttemptCheck, Admits, Counts, Charged, Live;
    Checked(a);
    var e := Reserve(l, a).value;
    forall t | t in e.issued
      ensures if t.key in e.rows then t.until <= e.rows[t.key].until else t.until <= e.clock
    {
      ChargeDated(l, a.at, Scopes(a), a.at + a.lockSeconds, t);
    }
  }

  lemma {:induction false} AdmittedRows(live: set<LimitKey>, scopes: seq<Scope>, n: nat)
    requires forall i :: 0 <= i < |scopes| ==> scopes[i].key in live || |live| + i < MAX_ROWS
    requires |live| <= MAX_ROWS && n <= |scopes|
    ensures |live + KeysUpTo(scopes, n)| <= MAX_ROWS && |live + KeysUpTo(scopes, n)| <= |live| + n
  {
    hide KeysUpTo;
    if n == 0 {
      NoKeys(scopes);
      assert live + {} == live;
    } else {
      AdmittedRows(live, scopes, n - 1);
      KeysNext(scopes, n - 1);
      var fewer := live + KeysUpTo(scopes, n - 1);
      assert live + KeysUpTo(scopes, n) == fewer + {scopes[n - 1].key};
      assert scopes[n - 1].key in live ==> fewer + {scopes[n - 1].key} == fewer;
    }
  }

  lemma {:induction false} ReserveRows(l: Limits, a: Attempt)
    requires Inv(l) && Reserve(l, a).Ok?
    ensures |Reserve(l, a).value.rows| <= MAX_ROWS
  {
    hide Scopes, TicketsFor, KeysUpTo, AttemptCheck, Failures, Counts, Dated;
    var live := Live(l.rows, a.at);
    SubsetSize(live.Keys, l.rows.Keys);
    Checked(a);
    AdmittedRows(live.Keys, Scopes(a), |Scopes(a)|);
    assert Reserve(l, a).value.rows.Keys == live.Keys + KeysOf(Scopes(a));
  }

  lemma {:induction false} ReserveKeeps(l: Limits, a: Attempt)
    requires Inv(l) && a.at >= l.clock && Reserve(l, a).Ok?
    ensures Inv(Reserve(l, a).value)
  {
    hide Counts, Dated, Reserve;
    ReserveCounts(l, a);
    ReserveDated(l, a);
    ReserveRows(l, a);
  }

  lemma {:induction false} RefundKeeps(l: Limits, tickets: seq<Ticket>)
    requires Inv(l) && multiset(tickets) <= l.outstanding
    ensures Inv(Refund(l, tickets))
  {
    assert Refunded(l.rows, tickets).Keys == l.rows.Keys;
  }

  // ---------- Runs ----------

  datatype Event = EvReserve(attempt: Attempt) | EvRefund(tickets: seq<Ticket>)

  function After(l: Limits, ev: Event): Limits {
    match ev
    case EvReserve(a) => if Reserve(l, a).Ok? then Reserve(l, a).value else l
    case EvRefund(tickets) => Refund(l, tickets)
  }

  /** The clock does not run backwards, and a reservation is handed back by its owner at most once. */
  predicate Admissible(l: Limits, ev: Event) {
    match ev
    case EvReserve(a) => a.at >= l.clock
    case EvRefund(tickets) => multiset(tickets) <= l.outstanding
  }

  function Final(l: Limits, run: seq<Event>): Limits
    decreases |run|
  {
    if run == [] then l else Final(After(l, run[0]), run[1..])
  }

  predicate AdmissibleRun(l: Limits, run: seq<Event>)
    decreases |run|
  {
    run != [] ==> Admissible(l, run[0]) && AdmissibleRun(After(l, run[0]), run[1..])
  }

  lemma {:induction false} StepKeeps(l: Limits, ev: Event)
    requires Inv(l) && Admissible(l, ev)
    ensures Inv(After(l, ev))
  {
    hide Inv, Reserve, Refund;
    match ev {
      case EvReserve(a) =>
        if Reserve(l, a).Ok? {
          ReserveKeeps(l, a);
        }
      case EvRefund(tickets) => RefundKeeps(l, tickets);
    }
  }

  /** Every counter equals the unrefunded reservations of its own window, in every reachable table. */
  lemma {:induction false} CountersAreReservations(run: seq<Event>, k: LimitKey)
    requires AdmissibleRun(EMPTY, run) && k in Final(EMPTY, run).rows
    ensures var l := Final(EMPTY, run); l.rows[k].failures == l.outstanding[Ticket(k, l.rows[k].until)]
  {
    hide After, Admissible, Counts;
    assert Inv(EMPTY) by {
      EmptyInv();
    }
    RunKeeps(EMPTY, run);
    Counted(Final(EMPTY, run), k);
  }

  lemma {:induction false} EmptyInv()
    ensures Inv(EMPTY)
  {
  }

  lemma {:induction false} Counted(l: Limits, k: LimitKey)
    requires Counts(l.rows, l.outstanding) && k in l.rows
    ensures l.rows[k].failures == l.outstanding[Ticket(k, l.rows[k].until)]
  {
  }

  lemma {:induction false} RunKeeps(l: Limits, run: seq<Event>)
    requires Inv(l) && AdmissibleRun(l, run)
    ensures Inv(Final(l, run))
    decreases |run|
  {
    hide Inv, After, Admissible;
    if run != [] {
      StepKeeps(l, run[0]);
      RunKeeps(After(l, run[0]), run[1..]);
    }
  }

  predicate WithinMax(l: Limits, maxFailures: nat) {
    forall k :: k in l.rows ==> l.rows[k].failures <= MaxFor(k, maxFailures)
  }

  lemma {:induction false} StepWithin(l: Limits, ev: Event, maxFailures: nat)
    requires WithinMax(l, maxFailures) && (ev.EvReserve? ==> ev.attempt.maxFailures == maxFailures)
    ensures WithinMax(After(l, ev), maxFailures)
  {
    hide MaxFor, Scopes, TicketsFor, AttemptCheck;
  }

  /** While the configured maximum does not change, no window ever counts more attempts than its scope allows. */
  lemma {:induction false} NeverAboveMaximum(l: Limits, run: seq<Event>, maxFailures: nat)
    requires WithinMax(l, maxFailures)
    requires forall i :: 0 <= i < |run| && run[i].EvReserve? ==> run[i].attempt.maxFailures == maxFailures
    ensures WithinMax(Final(l, run), maxFailures)
    decreases |run|
  {
    hide WithinMax, After;
    if run != [] {
      StepWithin(l, run[0], maxFailures);
      NeverAboveMaximum(After(l, run[0]), run[1..], maxFailures);
    }
  }

  /** A window that opens gets a deadline after that of every ticket ever issued for its key. */
  lemma {:induction false} WindowsMoveForward(l: Limits, ev: Event, k: LimitKey, t: Ticket)
    requires Inv(l) && Admissible(l, ev) && k in After(l, ev).rows && t in l.issued && t.key == k
    requires k !in l.rows || l.rows[k].until != After(l, ev).rows[k].until
    ensures t.until < After(l, ev).rows[k].until
  {
    hide Scopes, TicketsFor, KeysOf, Admits, Counts, AttemptCheck;
    if ev.EvReserve? && Reserve(l, ev.attempt).Ok? {
      Checked(ev.attempt);
    }
  }

  /** A refund leaves a later window alone, and never has to be clamped at zero. */
  lemma {:induction false} RefundsReachTheirWindow(l: Limits, tickets: seq<Ticket>, k: LimitKey)
    requires Inv(l) && multiset(tickets) <= l.outstanding && k in l.rows
    ensures multiset(tickets)[Ticket(k, l.rows[k].until)] <= l.rows[k].failures
    ensures (forall t :: t in tickets && t.key == k ==> t.until < l.rows[k].until) ==>
              Refund(l, tickets).rows[k] == l.rows[k]
  {
    hide Dated;
    assert Ticket(k, l.rows[k].until) in multiset(tickets) ==> Ticket(k, l.rows[k].until) in tickets;
  }

  // ---------- What one attempt costs ----------

  /** The three counters that an attempt is held against: its user, everybody, and its address if there is one. */
  predicate Concerns(a: Attempt, k: LimitKey) {
    k == AccountScope(a.username) || k == GlobalScope || (k.IpScope? && a.address == Some(Some(k.address)))
  }

  /** The attempts that count now: those of a window whose deadline has not passed. */
  function Counting(l: Limits, k: LimitKey, at: nat): nat {
    if k in l.rows && at < l.rows[k].until then l.rows[k].failures else 0
  }

  predicate OpenWindow(l: Limits, k: LimitKey, at: nat) {
    k in l.rows && at < l.rows[k].until
  }

  lemma {:induction false} ConcernedKeys(a: Attempt, k: LimitKey)
    requires a.address != Some(None)
    ensures k in KeysOf(Scopes(a)) <==> Concerns(a, k)
  {
    var s := Scopes(a);
    assert s[0].key == AccountScope(a.username) && s[1].key == GlobalScope;
    if a.address.Some? {
      assert s[2].key == IpScope(a.address.value.value);
    }
  }

  /** An accepted attempt takes one slot in each of its counters, opens the windows that are missing, and touches no other. */
  lemma {:induction false} AttemptCharged(l: Limits, a: Attempt, k: LimitKey)
    requires Reserve(l, a).Ok?
    ensures var e := Reserve(l, a).value;
      && (Concerns(a, k) ==>
            k in e.rows && e.rows[k].failures == Counting(l, k, a.at) + 1
            && e.rows[k].until == if OpenWindow(l, k, a.at) then l.rows[k].until else a.at + a.lockSeconds)
      && (!Concerns(a, k) ==> (k in e.rows <==> OpenWindow(l, k, a.at)) && (k in e.rows ==> e.rows[k] == l.rows[k]))
  {
    hide Scopes, TicketsFor, KeysUpTo, Admits;
    ConcernedKeys(a, k);
  }

  /** The slots an accepted attempt hands back: one for each of its counters. */
  lemma {:induction false} HandedBack(l: Limits, a: Attempt, tickets: seq<Ticket>, k: LimitKey)
    requires Reserve(l, a).Ok? && tickets == TicketsFor(Live(l.rows, a.at), Scopes(a), a.at + a.lockSeconds)
    requires k in Reserve(l, a).value.rows
    ensures Refund(Reserve(l, a).value, tickets).rows[k].failures == Counting(l, k, a.at)
    ensures Refund(Reserve(l, a).value, tickets).rows[k].until == Reserve(l, a).value.rows[k].until
  {
    hide Scopes, TicketsFor, KeysUpTo, Admits, Counting, Charged, Reserve;
    Accepted(l, a);
    var live := Live(l.rows, a.at);
    var e := Reserve(l, a).value;
    AttemptCharged(l, a, k);
    ConcernedKeys(a, k);
    WholeTickets(live, Scopes(a), a.at + a.lockSeconds);
    DeadlineKept(l, a, k);
    TicketCount(live, Scopes(a), a.at + a.lockSeconds, |Scopes(a)|, Ticket(k, e.rows[k].until));
    if !Concerns(a, k) {
      StillCounting(l, a, k);
    }
  }

  lemma {:induction false} Accepted(l: Limits, a: Attempt)
    requires Reserve(l, a).Ok?
    ensures AttemptCheck(a).Ok? && a.address != Some(None)
  {
  }

  lemma {:induction false} DeadlineKept(l: Limits, a: Attempt, k: LimitKey)
    requires Reserve(l, a).Ok? && k in Reserve(l, a).value.rows
    ensures Reserve(l, a).value.rows[k].until == Deadline(Live(l.rows, a.at), k, a.at + a.lockSeconds)
  {
    hide Scopes, TicketsFor, KeysUpTo, Admits, AttemptCheck;
  }

  lemma {:induction false} StillCounting(l: Limits, a: Attempt, k: LimitKey)
    requires Reserve(l, a).Ok? && k in Reserve(l, a).value.rows && !Concerns(a, k)
    ensures Counting(l, k, a.at) == Reserve(l, a).value.rows[k].failures
  {
    AttemptCharged(l, a, k);
  }

  /** An attempt is refused exactly if one of its counters is full, a new window does not fit the table, or it is malformed. */
  lemma {:induction false} AttemptAccepted(l: Limits, a: Attempt)
    ensures Reserve(l, a).Ok? <==>
      && SubidText.Bytes(a.username) <= 256 && a.maxFailures >= 1 && a.lockSeconds >= 1
      && a.at + a.lockSeconds <= I64_MAX && a.address != Some(None)
      && var account, open := AccountScope(a.username), |Live(l.rows, a.at)|;
         && Counting(l, account, a.at) < a.maxFailures && (OpenWindow(l, account, a.at) || open < 10000)
         && Counting(l, GlobalScope, a.at) < 40 * a.maxFailures && (OpenWindow(l, GlobalScope, a.at) || open + 1 < 10000)
         && (a.address.Some? && a.address.value.Some? ==>
               var ip := IpScope(a.address.value.value);
               Counting(l, ip, a.at) < 5 * a.maxFailures && (OpenWindow(l, ip, a.at) || open + 2 < 10000))
  {
    hide SubidText.Bytes, TicketsFor, Charged, KeysUpTo;
    if AttemptCheck(a).Ok? {
      var s, live := Scopes(a), Live(l.rows, a.at);
      assert s[0] == Scope(AccountScope(a.username), a.maxFailures) && s[1] == Scope(GlobalScope, 40 * a.maxFailures);
      if a.address.Some? {
        assert s[2] == Scope(IpScope(a.address.value.value), 5 * a.maxFailures);
      }
      assert forall k :: k in live <==> OpenWindow(l, k, a.at);
    }
  }

  // ---------- The store's methods ----------

  lemma {:induction false} ChargeOne(live: map<LimitKey, Window>, keys: set<LimitKey>, k: LimitKey, until: nat)
    requires k !in keys
    ensures Charged(live, keys + {k}, until) ==
            Charged(live, keys, until)[k := Window(Failures(live, k) + 1, Deadline(live, k, until))]
    ensures k in Charged(live, keys, until) <==> k in live
    ensures k in live ==> Charged(live, keys, until)[k] == live[k]
  {
  }

  lemma {:induction false} ChargeNone(live: map<LimitKey, Window>, until: nat)
    ensures Charged(live, {}, until) == live
  {
  }

  lemma {:induction false} RefundOne(rows: map<LimitKey, Window>, tickets: seq<Ticket>, t: Ticket)
    ensures var before := Refunded(rows, tickets);
            Refunded(rows, tickets + [t]) ==
            if t.key in before && before[t.key].until == t.until
            then before[t.key := Window(if before[t.key].failures > 0 then before[t.key].failures - 1 else 0, t.until)]
            else before
  {
    assert multiset(tickets + [t]) == multiset(tickets) + multiset{t};
  }

  lemma {:induction false} ChargeNext(live: map<LimitKey, Window>, scopes: seq<Scope>, until: nat, i: nat)
    requires Distinct(scopes) && i < |scopes| && |TicketsFor(live, scopes, until)| == |scopes|
    ensures var tx, k := Charged(live, KeysUpTo(scopes, i), until), scopes[i].key;
      && Failures(tx, k) == Failures(live, k) && Deadline(tx, k, until) == Deadline(live, k, until)
      && (k in tx <==> k in live)
      && Charged(live, KeysUpTo(scopes, i + 1), until) == tx[k := Window(Failures(live, k) + 1, Deadline(live, k, until))]
    ensures TicketsFor(live, scopes, until)[..i + 1] ==
            TicketsFor(live, scopes, until)[..i] + [Ticket(scopes[i].key, Deadline(live, scopes[i].key, until))]
  {
    hide Charged, KeysUpTo, Distinct;
    KeysNext(scopes, i);
    ChargeOne(live, KeysUpTo(scopes, i), scopes[i].key, until);
  }

  class LoginStore {
    var rows: map<LimitKey, Window>
    ghost var log: Limits

    ghost predicate Valid()
      reads this
    {
      log.rows == rows && Inv(log)
    }

    constructor ()
      ensures Valid() && log == EMPTY
    {
      rows, log := map[], EMPTY;
      new;
      EmptyInv();
    }

    /** One slot in every scope, or none in any. */
    method ReserveLogin(a: Attempt) returns (r: Result<seq<Ticket>>)
      requires Valid() && a.at >= log.clock
      modifies this
      ensures Valid()
      ensures Reserve(old(log), a).Err? ==> r == Err(Reserve(old(log), a).error) && log == old(log)
      ensures Reserve(old(log), a).Ok? ==>
        && log == Reserve(old(log), a).value
        && r == Ok(TicketsFor(Live(old(rows), a.at), Scopes(a), a.at + a.lockSeconds))
    {
      hide Counts, Dated, Scopes, AttemptCheck, KeysUpTo, Charged;
      var check := AttemptCheck(a);
      if check.Err? {
        return Err(check.error);
      }
      Checked(a);
      var scopes, until := Scopes(a), a.at + a.lockSeconds;
      var live := Live(rows, a.at);
      var charged := ChargeScopes(live, scopes, until);
      if charged.None? {
        return Err(RateLimited);
      }
      ReserveKeeps(log, a);
      rows := charged.value.0;
      log := Reserve(log, a).value;
      r := Ok(charged.value.1);
    }

    /** The loop of the transaction: it stops at the first scope without a slot. */
    static method ChargeScopes(live: map<LimitKey, Window>, scopes: seq<Scope>, until: nat)
      returns (r: Option<(map<LimitKey, Window>, seq<Ticket>)>)
      requires Distinct(scopes)
      ensures r.Some? <==> Admits(live, scopes)
      ensures r.Some? ==> r.value == (Charged(live, KeysOf(scopes), until), TicketsFor(live, scopes, until))
    {
      hide Charged, KeysUpTo, Distinct, Failures, Deadline, TicketsFor;
      var tx, reserved: seq<Ticket>, i := live, [], 0;
      ChargeNone(live, until);
      NoKeys(scopes);
      WholeTickets(live, scopes, until);
      while i < |scopes|
        invariant 0 <= i <= |scopes| && tx == Charged(live, KeysUpTo(scopes, i), until)
        invariant reserved == TicketsFor(live, scopes, until)[..i]
        invariant forall n :: 0 <= n < i ==>
          Failures(live, scopes[n].key) < scopes[n].max && (scopes[n].key in live || |live| + n < MAX_ROWS)
      {
        var k := scopes[i].key;
        ChargeNext(live, scopes, until, i);
        var failures, deadline := Failures(tx, k), Deadline(tx, k, until);
        if failures >= scopes[i].max || (k !in tx && |live| + |reserved| >= MAX_ROWS) {
          return None;
        }
        tx := tx[k := Window(failures + 1, deadline)];
        reserved := reserved + [Ticket(k, deadline)];
        i := i + 1;
      }
      r := Some((tx, reserved));
    }

    /** Hands back exactly the slots of this attempt. */
    method FinishLogin(tickets: seq<Ticket>)
      requires Valid() && multiset(tickets) <= log.outstanding
      modifies this
      ensures Valid() && log == Refund(old(log), tickets)
    {
      hide Inv, Refunded;
      RefundKeeps(log, tickets);
      var i := 0;
      RefundNone(rows);
      while i < |tickets|
        invariant 0 <= i <= |tickets| && rows == Refunded(old(rows), tickets[..i])
        invariant log == old(log)
      {
        var t := tickets[i];
        RefundOne(old(rows), tickets[..i], t);
        assert tickets[..i + 1] == tickets[..i] + [t];
        if t.key in rows && rows[t.key].until == t.until {
          rows := rows[t.key := Window(if rows[t.key].failures > 0 then rows[t.key].failures - 1 else 0, t.until)];
        }
        i := i + 1;
      }
      assert tickets[..|tickets|] == tickets;
      log := Refund(log, tickets);
    }
  }

  lemma {:induction false} RefundNone(rows: map<LimitKey, Window>)
    ensures Refunded(rows, []) == rows
  {
  }
}
