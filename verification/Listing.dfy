/** Keyset pagination over the account table. */
module Listing {
  import opened Types
  import opened Tables
  import opened Ops
  import opened Runs
  import SubidText

  // ---------- The order of user names ----------

  /** SQLite's default order on text: the first differing character decides, and a prefix comes first. */
  predicate Less(a: string, b: string)
    decreases |a|
  {
    b != "" && (a == "" || a[0] < b[0] || (a[0] == b[0] && Less(a[1..], b[1..])))
  }

  lemma {:induction false} LessIrreflexive(a: string)
    ensures !Less(a, a)
    decreases |a|
  {
    if a != "" {
      LessIrreflexive(a[1..]);
    }
  }

  lemma {:induction false} LessTransitive(a: string, b: string, c: string)
    requires Less(a, b) && Less(b, c)
    ensures Less(a, c)
    decreases |a|
  {
    if a != "" && a[0] == b[0] && b[0] == c[0] {
      LessTransitive(a[1..], b[1..], c[1..]);
    }
  }

  lemma {:induction false} LessTotal(a: string, b: string)
    requires a != b
    ensures Less(a, b) || Less(b, a)
    decreases |a|
  {
    if a != "" && b != "" && a[0] == b[0] {
      assert a == [a[0]] + a[1..] && b == [b[0]] + b[1..];
      LessTotal(a[1..], b[1..]);
    }
  }

  // ---------- Sorted lists of accounts ----------

  predicate UniqueNames(rows: map<Id, Row>) {
    forall a, b :: a in rows && b in rows && rows[a].username == rows[b].username ==> a == b
  }

  predicate Precedes(rows: map<Id, Row>, a: Id, b: Id)
    requires a in rows && b in rows
  {
    Less(rows[a].username, rows[b].username)
  }

  /** Every account of the set once, in strictly increasing order of user names. */
  predicate IsListing(rows: map<Id, Row>, ids: set<Id>, list: seq<Id>)
    requires ids <= rows.Keys
  {
    && (forall i :: 0 <= i < |list| ==> list[i] in ids)
    && (forall id :: id in ids ==> id in list)
    && forall i, k :: 0 <= i < k < |list| ==> Precedes(rows, list[i], list[k])
  }

  lemma {:induction false} EmptyListing(rows: map<Id, Row>, ids: set<Id>, a: seq<Id>)
    requires ids <= rows.Keys && IsListing(rows, ids, a)
    ensures a == [] <==> ids == {}
  {
    if a != [] {
      assert a[0] in ids;
    }
  }

  /** There is at most one such list. */
  lemma {:induction false} ListingUnique(rows: map<Id, Row>, ids: set<Id>, a: seq<Id>, b: seq<Id>)
    requires ids <= rows.Keys && IsListing(rows, ids, a) && IsListing(rows, ids, b)
    ensures a == b
    decreases |a|
  {
    EmptyListing(rows, ids, a);
    EmptyListing(rows, ids, b);
    if ids != {} {
      SameHead(rows, ids, a, b);
      TailListing(rows, ids, a);
      TailListing(rows, ids, b);
      ListingUnique(rows, ids - {a[0]}, a[1..], b[1..]);
      assert a == [a[0]] + a[1..] && b == [b[0]] + b[1..];
    }
  }

  lemma {:induction false} SameHead(rows: map<Id, Row>, ids: set<Id>, a: seq<Id>, b: seq<Id>)
    requires ids <= rows.Keys && IsListing(rows, ids, a) && IsListing(rows, ids, b) && a != [] && b != []
    ensures a[0] == b[0]
  {
    var i :| 0 <= i < |b| && b[i] == a[0];
    var k :| 0 <= k < |a| && a[k] == b[0];
    if i > 0 && k > 0 {
      LessTransitive(rows[a[0]].username, rows[b[0]].username, rows[a[0]].username);
      LessIrreflexive(rows[a[0]].username);
    }
  }

  lemma {:induction false} TailListing(rows: map<Id, Row>, ids: set<Id>, a: seq<Id>)
    requires ids <= rows.Keys && IsListing(rows, ids, a) && a != []
    ensures IsListing(rows, ids - {a[0]}, a[1..])
  {
    forall i | 0 <= i < |a[1..]| ensures a[1..][i] != a[0] {
      assert Precedes(rows, a[0], a[i + 1]);
      LessIrreflexive(rows[a[0]].username);
    }
  }

  lemma {:induction false} LeastExists(rows: map<Id, Row>, ids: set<Id>)
    requires ids <= rows.Keys && ids != {} && UniqueNames(rows)
    ensures exists m :: IsLeast(rows, ids, m)
  {
    var x :| x in ids;
    assert forall o :: o in ids && o != x ==> o in ids - {x};
    if ids - {x} == {} {
      assert IsLeast(rows, ids, x);
    } else {
      LeastExists(rows, ids - {x});
      var m :| IsLeast(rows, ids - {x}, m);
      LessTotal(rows[x].username, rows[m].username);
      if Precedes(rows, x, m) {
        forall o | o in ids && o != x ensures Precedes(rows, x, o) {
          if o != m {
            LessTransitive(rows[x].username, rows[m].username, rows[o].username);
          }
        }
        assert IsLeast(rows, ids, x);
      } else {
        assert IsLeast(rows, ids, m);
      }
    }
  }

  predicate IsLeast(rows: map<Id, Row>, ids: set<Id>, m: Id)
    requires ids <= rows.Keys
  {
    m in ids && forall o :: o in ids && o != m ==> Precedes(rows, m, o)
  }

  ghost function Least(rows: map<Id, Row>, ids: set<Id>): (m: Id)
    requires ids <= rows.Keys && ids != {} && UniqueNames(rows)
    ensures IsLeast(rows, ids, m)
  {
    LeastExists(rows, ids);
    var m :| IsLeast(rows, ids, m);
    m
  }

  ghost function Listed(rows: map<Id, Row>, ids: set<Id>): (list: seq<Id>)
    requires ids <= rows.Keys && UniqueNames(rows)
    ensures IsListing(rows, ids, list)
  {
    if ids == {} then [] else
    var m := Least(rows, ids);
    var rest := Listed(rows, ids - {m});
    assert forall id :: id in ids ==> id in [m] + rest;
    [m] + rest
  }

  /** Everything after position n of a listing is the listing of what lies beyond its user name. */
  lemma {:induction false} ListedBeyond(rows: map<Id, Row>, ids: set<Id>, n: nat)
    requires ids <= rows.Keys && UniqueNames(rows) && 0 < n <= |Listed(rows, ids)|
    ensures Listed(rows, Beyond(rows, ids, Some(rows[Listed(rows, ids)[n - 1]].username))) == Listed(rows, ids)[n..]
  {
    hide UniqueNames;
    var list := Listed(rows, ids);
    var beyond := Beyond(rows, ids, Some(rows[list[n - 1]].username));
    forall i | 0 <= i < |list| ensures list[i] in beyond <==> i >= n {
      BeyondIndex(rows, ids, list, n - 1, i);
    }
    assert IsListing(rows, beyond, list[n..]) by {
      DropListing(rows, ids, beyond, list, n);
    }
    ListingUnique(rows, beyond, Listed(rows, beyond), list[n..]);
  }

  lemma {:induction false} BeyondIndex(rows: map<Id, Row>, ids: set<Id>, list: seq<Id>, n: nat, i: nat)
    requires ids <= rows.Keys && IsListing(rows, ids, list) && n < |list| && i < |list|
    ensures list[i] in Beyond(rows, ids, Some(rows[list[n]].username)) <==> i > n
  {
    var a, b := rows[list[n]].username, rows[list[i]].username;
    if i < n {
      assert Precedes(rows, list[i], list[n]);
      if Less(a, b) {
        LessTransitive(a, b, a);
      }
      LessIrreflexive(a);
    } else if i == n {
      LessIrreflexive(a);
    } else {
      assert Precedes(rows, list[n], list[i]);
    }
  }

  lemma {:induction false} DropListing(rows: map<Id, Row>, ids: set<Id>, beyond: set<Id>, list: seq<Id>, n: nat)
    requires ids <= rows.Keys && IsListing(rows, ids, list) && beyond <= ids && n <= |list|
    requires forall i :: 0 <= i < |list| ==> (list[i] in beyond <==> i >= n)
    ensures IsListing(rows, beyond, list[n..])
  {
    hide Precedes;
    forall id | id in beyond ensures id in list[n..] {
      var i :| 0 <= i < |list| && list[i] == id;
      assert list[n..][i - n] == id;
    }
  }

  function Beyond(rows: map<Id, Row>, ids: set<Id>, cursor: Option<string>): set<Id>
    requires ids <= rows.Keys
  {
    if cursor.None? then ids else set id | id in ids && Less(cursor.value, rows[id].username)
  }

  // ---------- One page ----------

  datatype Query = Query(
    limit: nat, cursor: Option<string>, filter: Option<string>, status: Option<Status>, enrolled: Option<bool>)

  datatype Page = Page(items: seq<Id>, next: Option<string>, more: bool)

  const MAX_LIMIT: nat := 200
  const MAX_ACCOUNTS: nat := 100000

  /** char::is_control: Unicode category Cc. */
  predicate Control(c: char) {
    c < ' ' || '\U{7F}' <= c < '\U{A0}'
  }

  predicate TextOk(s: string, limit: nat) {
    SubidText.Bytes(s) <= limit && forall i :: 0 <= i < |s| ==> !Control(s[i])
  }

  predicate CursorOk(s: string) {
    TextOk(s, 256)
  }

  function LowerChar(c: char): char {
    if 'A' <= c <= 'Z' then c - 'A' + 'a' else c
  }

  function Lower(s: string): string {
    seq(|s|, i requires 0 <= i < |s| => LowerChar(s[i]))
  }

  predicate Contains(s: string, part: string) {
    exists i :: 0 <= i <= |s| && part <= s[i..]
  }

  /** Who asks, and whether the query is acceptable; None stands for root. */
  function PageCheck(d: Db, authority: Authority, kind: Kind, q: Query): Result<Option<Id>> {
    if !(1 <= q.limit <= MAX_LIMIT) || (q.cursor.Some? && !CursorOk(q.cursor.value))
       || (q.filter.Some? && !TextOk(q.filter.value, 128))
    then Err(InvalidInput) else
    var actor :- Authorized(d, authority);
    if actor.Some? && (actor.value !in d.accounts || !d.accounts[actor.value].role.Admin? || kind.Linux?)
    then Err(Forbidden) else Ok(actor)
  }

  predicate Matches(r: Row, kind: Kind, owner: Option<Id>, q: Query) {
    && r.kind == kind && (owner.Some? ==> r.owner == owner)
    && (q.filter.Some? ==> Contains(Lower(r.username), Lower(q.filter.value)))
    && (q.status.Some? ==> r.status == q.status.value)
    && (q.enrolled.Some? ==> (r.hash.Some? <==> q.enrolled.value))
  }

  function Selected(d: Db, kind: Kind, owner: Option<Id>, q: Query): (ids: set<Id>)
    ensures ids <= d.accounts.Keys
  {
    set id | id in d.accounts && Matches(d.accounts[id], kind, owner, q)
  }

  /** The full answer to a query: every matching account beyond its cursor, in order. */
  ghost function Answer(d: Db, kind: Kind, owner: Option<Id>, q: Query): seq<Id>
    requires UniqueNames(d.accounts)
  {
    Listed(d.accounts, Beyond(d.accounts, Selected(d, kind, owner, q), q.cursor))
  }

  ghost function PageOf(d: Db, authority: Authority, kind: Kind, q: Query): Result<Page>
    requires UniqueNames(d.accounts)
  {
    var owner :- PageCheck(d, authority, kind, q);
    var all := Answer(d, kind, owner, q);
    if |all| <= q.limit then Ok(Page(all, None, false))
    else Ok(Page(all[..q.limit], Some(d.accounts[all[q.limit - 1]].username), true))
  }

  /** One step of ORDER BY. */
  method TakeLeast(rows: map<Id, Row>, ids: set<Id>) returns (m: Id)
    requires ids <= rows.Keys && ids != {} && UniqueNames(rows)
    ensures IsLeast(rows, ids, m)
  {
    m :| m in ids;
    var rest := ids - {m};
    while rest != {}
      invariant rest <= ids - {m} && IsLeast(rows, ids - rest, m)
      decreases |rest|
    {
      var x :| x in rest;
      LessTotal(rows[x].username, rows[m].username);
      assert ids - (rest - {x}) == ids - rest + {x};
      rest := rest - {x};
      if Less(rows[x].username, rows[m].username) {
        forall o | o in ids - rest && o != x ensures Precedes(rows, x, o) {
          if o != m {
            LessTransitive(rows[x].username, rows[m].username, rows[o].username);
          }
        }
        m := x;
      }
    }
    assert ids - {} == ids;
  }

  lemma {:induction false} LeastFirst(rows: map<Id, Row>, ids: set<Id>, m: Id)
    requires ids <= rows.Keys && UniqueNames(rows) && IsLeast(rows, ids, m)
    ensures Listed(rows, ids) == [m] + Listed(rows, ids - {m})
  {
    var n := Least(rows, ids);
    if n != m {
      LessTransitive(rows[m].username, rows[n].username, rows[m].username);
      LessIrreflexive(rows[m].username);
    }
  }

  /** SELECT ... ORDER BY username LIMIT n. */
  method SelectSorted(rows: map<Id, Row>, ids: set<Id>, limit: nat) returns (items: seq<Id>)
    requires ids <= rows.Keys && UniqueNames(rows)
    ensures items == Listed(rows, ids)[..Min(limit, |Listed(rows, ids)|)]
  {
    hide UniqueNames, IsLeast, IsListing;
    items := [];
    var rest := ids;
    while rest != {} && |items| < limit
      invariant rest <= ids && |items| <= limit && Listed(rows, ids) == items + Listed(rows, rest)
      decreases |rest|
    {
      var m := TakeLeast(rows, rest);
      LeastFirst(rows, rest, m);
      LeastIn(rows, rest, m);
      items := items + [m];
      rest := rest - {m};
    }
  }

  lemma {:induction false} LeastIn(rows: map<Id, Row>, ids: set<Id>, m: Id)
    requires ids <= rows.Keys && IsLeast(rows, ids, m)
    ensures m in ids
  {
    hide Precedes;
  }

  /** One more row than the limit is read, to learn whether there is a next page, and then dropped. */
  method ListPage(d: Db, authority: Authority, kind: Kind, q: Query) returns (r: Result<Page>)
    requires UniqueNames(d.accounts)
    ensures r == PageOf(d, authority, kind, q)
    ensures r.Ok? && authority.Account? ==> forall i :: 0 <= i < |r.value.items| ==>
      r.value.items[i] in d.accounts && d.accounts[r.value.items[i]].kind.Virtual?
      && d.accounts[r.value.items[i]].owner == Some(authority.id)
  {
    hide UniqueNames, Selected, IsListing, PageCheck;
    var check := PageCheck(d, authority, kind, q);
    if check.Err? {
      return Err(check.error);
    }
    PositiveLimit(d, authority, kind, q);
    var ids := Beyond(d.accounts, Selected(d, kind, check.value, q), q.cursor);
    var items := SelectSorted(d.accounts, ids, q.limit + 1);
    ghost var all := Answer(d, kind, check.value, q);
    var more := |items| > q.limit;
    if more {
      items := items[..|items| - 1];
      assert items == all[..q.limit];
    } else {
      assert items == all;
    }
    NamedItems(d.accounts, ids);
    var next := if more then Some(d.accounts[items[|items| - 1]].username) else None;
    r := Ok(Page(items, next, more));
    if authority.Account? {
      OwnItems(d, authority, kind, q);
    }
  }

  lemma {:induction false} OwnItems(d: Db, authority: Authority, kind: Kind, q: Query)
    requires UniqueNames(d.accounts) && PageOf(d, authority, kind, q).Ok? && authority.Account?
    ensures forall i :: 0 <= i < |PageOf(d, authority, kind, q).value.items| ==>
      var id := PageOf(d, authority, kind, q).value.items[i];
      id in d.accounts && d.accounts[id].kind.Virtual? && d.accounts[id].owner == Some(authority.id)
  {
    hide UniqueNames, PageOf, NameHas, Less;
    forall i: nat | i < |PageOf(d, authority, kind, q).value.items|
      ensures var id := PageOf(d, authority, kind, q).value.items[i];
        id in d.accounts && d.accounts[id].kind.Virtual? && d.accounts[id].owner == Some(authority.id)
    {
      PageShowsOwn(d, authority, kind, q, i);
    }
  }

  lemma {:induction false} NamedItems(rows: map<Id, Row>, ids: set<Id>)
    requires ids <= rows.Keys && UniqueNames(rows)
    ensures forall i :: 0 <= i < |Listed(rows, ids)| ==> Listed(rows, ids)[i] in rows
  {
    hide Precedes, UniqueNames;
  }

  lemma {:induction false} PositiveLimit(d: Db, authority: Authority, kind: Kind, q: Query)
    requires PageCheck(d, authority, kind, q).Ok?
    ensures 1 <= q.limit
  {
  }

  // ---------- All pages ----------

  /** The set of accounts beyond the next cursor is strictly smaller. */
  lemma {:induction false} CursorAdvances(d: Db, authority: Authority, kind: Kind, q: Query)
    requires UniqueNames(d.accounts) && PageOf(d, authority, kind, q).Ok? && PageOf(d, authority, kind, q).value.more
    ensures var owner, next := PageCheck(d, authority, kind, q).value, q.(cursor := PageOf(d, authority, kind, q).value.next);
            && Answer(d, kind, owner, next) == Answer(d, kind, owner, q)[q.limit..]
            && 1 <= q.limit < |Answer(d, kind, owner, q)|
  {
    hide UniqueNames, IsListing, Matches, PageCheck;
    PositiveLimit(d, authority, kind, q);
    var owner := PageCheck(d, authority, kind, q).value;
    var ids := Beyond(d.accounts, Selected(d, kind, owner, q), q.cursor);
    var all := Answer(d, kind, owner, q);
    NamedItems(d.accounts, ids);
    ListedBeyond(d.accounts, ids, q.limit);
    var name := d.accounts[all[q.limit - 1]].username;
    BeyondTwice(d, kind, owner, q, name) by {
      LastBeyond(d.accounts, Selected(d, kind, owner, q), q.cursor, all, q.limit - 1);
    }
  }

  lemma {:induction false} LastBeyond(rows: map<Id, Row>, ids: set<Id>, cursor: Option<string>, all: seq<Id>, i: nat)
    requires ids <= rows.Keys && UniqueNames(rows) && all == Listed(rows, Beyond(rows, ids, cursor)) && i < |all|
    ensures all[i] in rows && (cursor.Some? ==> Less(cursor.value, rows[all[i]].username))
  {
    hide Precedes, UniqueNames;
    assert all[i] in Beyond(rows, ids, cursor);
  }

  /** A later cursor alone decides what lies beyond it. */
  lemma {:induction false} BeyondTwice(d: Db, kind: Kind, owner: Option<Id>, q: Query, name: string)
    requires q.cursor.Some? ==> Less(q.cursor.value, name)
    ensures var ids := Selected(d, kind, owner, q);
            && Selected(d, kind, owner, q.(cursor := Some(name))) == ids
            && Beyond(d.accounts, Beyond(d.accounts, ids, q.cursor), Some(name)) == Beyond(d.accounts, ids, Some(name))
  {
    var ids := Selected(d, kind, owner, q);
    if q.cursor.Some? {
      forall id | id in ids && Less(name, d.accounts[id].username) ensures Less(q.cursor.value, d.accounts[id].username) {
        LessTransitive(q.cursor.value, name, d.accounts[id].username);
      }
    }
  }

  /** Following next cursors to the end; the number of remaining accounts falls with every page. */
  ghost function FollowAll(d: Db, authority: Authority, kind: Kind, q: Query): Result<seq<Id>>
    requires UniqueNames(d.accounts)
    decreases var c := PageCheck(d, authority, kind, q); if c.Ok? then |Answer(d, kind, c.value, q)| + 1 else 0
  {
    var page := PageOf(d, authority, kind, q);
    if page.Err? then Err(page.error)
    else if !page.value.more then Ok(page.value.items)
    else
      CursorAdvances(d, authority, kind, q);
      SameOwner(d, authority, kind, q, page.value.next);
      var rest := FollowAll(d, authority, kind, q.(cursor := page.value.next));
      if rest.Err? then Err(rest.error) else Ok(page.value.items + rest.value)
  }

  lemma {:induction false} SameOwner(d: Db, authority: Authority, kind: Kind, q: Query, cursor: Option<string>)
    requires PageCheck(d, authority, kind, q).Ok?
    ensures PageCheck(d, authority, kind, q.(cursor := cursor)) ==
            if cursor.Some? && !CursorOk(cursor.value) then Err(InvalidInput) else PageCheck(d, authority, kind, q)
  {
    hide TextOk, Authorized;
  }

  /** Every page but the last ends in a user name that the next request may carry as its cursor. */
  predicate EndsOk(rows: map<Id, Row>, all: seq<Id>, limit: nat)
    requires 1 <= limit && forall i :: 0 <= i < |all| ==> all[i] in rows
    decreases |all|
  {
    |all| <= limit || (CursorOk(rows[all[limit - 1]].username) && EndsOk(rows, all[limit..], limit))
  }

  lemma {:induction false} AnswerNamed(d: Db, kind: Kind, owner: Option<Id>, q: Query)
    requires UniqueNames(d.accounts)
    ensures forall i :: 0 <= i < |Answer(d, kind, owner, q)| ==> Answer(d, kind, owner, q)[i] in d.accounts
  {
    hide UniqueNames, IsListing;
    NamedItems(d.accounts, Beyond(d.accounts, Selected(d, kind, owner, q), q.cursor));
  }

  /**
    Following cursors yields exactly the full sorted answer, with nothing missed or repeated, if and only if
    every page ends in a name that is a valid cursor; otherwise the walk stops with InvalidInput.
   */
  lemma {:induction false} PagesMakeTheList(d: Db, authority: Authority, kind: Kind, q: Query)
    requires UniqueNames(d.accounts) && PageCheck(d, authority, kind, q).Ok?
    ensures var all := Answer(d, kind, PageCheck(d, authority, kind, q).value, q);
            && 1 <= q.limit && (forall i :: 0 <= i < |all| ==> all[i] in d.accounts)
            && FollowAll(d, authority, kind, q) == if EndsOk(d.accounts, all, q.limit) then Ok(all) else Err(InvalidInput)
    decreases |Answer(d, kind, PageCheck(d, authority, kind, q).value, q)|
  {
    hide UniqueNames, PageCheck, Answer, CursorOk;
    PositiveLimit(d, authority, kind, q);
    var owner := PageCheck(d, authority, kind, q).value;
    var all := Answer(d, kind, owner, q);
    AnswerNamed(d, kind, owner, q);
    if |all| > q.limit {
      CursorAdvances(d, authority, kind, q);
      var next := q.(cursor := PageOf(d, authority, kind, q).value.next);
      SameOwner(d, authority, kind, q, next.cursor);
      if CursorOk(next.cursor.value) {
        PagesMakeTheList(d, authority, kind, next);
        assert all == all[..q.limit] + all[q.limit..];
      }
    }
  }

  /** If no user name holds a control character, every page size works. */
  lemma {:induction false} PlainNamesSuffice(rows: map<Id, Row>, all: seq<Id>, limit: nat)
    requires 1 <= limit && forall i :: 0 <= i < |all| ==> all[i] in rows && CursorOk(rows[all[i]].username)
    ensures EndsOk(rows, all, limit)
    decreases |all|
  {
    hide CursorOk;
    if |all| > limit {
      PlainNamesSuffice(rows, all[limit..], limit);
    }
  }

  /** Everything that a walk from this query on still yields. */
  ghost function Walk(d: Db, authority: Authority, kind: Kind, q: Query): Result<seq<Id>>
    requires UniqueNames(d.accounts)
  {
    FollowAll(d, authority, kind, q)
  }

  lemma {:induction false} WalkStep(d: Db, authority: Authority, kind: Kind, q: Query)
    requires UniqueNames(d.accounts)
    ensures var page := PageOf(d, authority, kind, q);
            Walk(d, authority, kind, q) ==
            if page.Err? then Err(page.error) else if !page.value.more then Ok(page.value.items)
            else
              var rest := Walk(d, authority, kind, q.(cursor := page.value.next));
              if rest.Err? then Err(rest.error) else Ok(page.value.items + rest.value)
  {
    hide UniqueNames, PageOf;
  }

  /** Root helpers read everything in pages of 200, and give up beyond 100000 accounts. */
  method AllAccounts(d: Db, authority: Authority, kind: Kind) returns (r: Result<seq<Id>>)
    requires UniqueNames(d.accounts)
    ensures var all := Walk(d, authority, kind, FirstPage());
            if all.Ok? && |all.value| <= MAX_ACCOUNTS then r == all else r.Err?
  {
    hide UniqueNames, PageOf, Walk, Remaining;
    var q := FirstPage();
    var result: seq<Id> := [];
    ghost var all := Walk(d, authority, kind, q);
    while true
      invariant all.Ok? <==> Walk(d, authority, kind, q).Ok?
      invariant all.Ok? ==> all.value == result + Walk(d, authority, kind, q).value
      invariant |result| <= MAX_ACCOUNTS
      decreases Remaining(d, authority, kind, q)
    {
      WalkStep(d, authority, kind, q);
      var page := ListPage(d, authority, kind, q);
      if page.Err? {
        return Err(page.error);
      }
      result := result + page.value.items;
      if |result| > MAX_ACCOUNTS {
        return Err(InvalidInput);
      }
      if !page.value.more {
        break;
      }
      StillFewer(d, authority, kind, q);
      q := q.(cursor := page.value.next);
    }
    r := Ok(result);
  }

  function FirstPage(): Query {
    Query(MAX_LIMIT, None, None, None, None)
  }

  ghost function Remaining(d: Db, authority: Authority, kind: Kind, q: Query): nat
    requires UniqueNames(d.accounts)
  {
    var c := PageCheck(d, authority, kind, q);
    if c.Ok? then |Answer(d, kind, c.value, q)| + 1 else 0
  }

  lemma {:induction false} StillFewer(d: Db, authority: Authority, kind: Kind, q: Query)
    requires UniqueNames(d.accounts) && PageOf(d, authority, kind, q).Ok? && PageOf(d, authority, kind, q).value.more
    ensures Remaining(d, authority, kind, q.(cursor := PageOf(d, authority, kind, q).value.next)) < Remaining(d, authority, kind, q)
  {
    hide UniqueNames, PageCheck, Answer, CursorOk;
    CursorAdvances(d, authority, kind, q);
    SameOwner(d, authority, kind, q, PageOf(d, authority, kind, q).value.next);
  }

  // ---------- Who is on the list ----------

  /** The filter occurs in the user name, where ASCII letters match in either case. */
  ghost predicate NameHas(name: string, filter: string) {
    exists i: nat :: OccursAt(name, filter, i)
  }

  predicate OccursAt(name: string, filter: string, i: nat) {
    i + |filter| <= |name| && forall k :: 0 <= k < |filter| ==> LowerChar(name[i + k]) == LowerChar(filter[k])
  }

  lemma {:induction false} FilterIff(name: string, filter: string)
    ensures Contains(Lower(name), Lower(filter)) <==> NameHas(name, filter)
  {
    var a, b := Lower(name), Lower(filter);
    if i :| 0 <= i <= |a| && b <= a[i..] {
      forall k | 0 <= k < |filter| ensures LowerChar(name[i + k]) == LowerChar(filter[k]) {
        assert a[i..][k] == b[k];
      }
      assert OccursAt(name, filter, i);
    }
    if i: nat :| OccursAt(name, filter, i) {
      forall k | 0 <= k < |b| ensures a[i..][k] == b[k] {
        assert LowerChar(name[i + k]) == LowerChar(filter[k]);
      }
      assert b <= a[i..];
    }
  }

  /** An accepted account authority sees virtual accounts only, and asks for itself. */
  lemma {:induction false} AskedBy(d: Db, authority: Authority, kind: Kind, q: Query)
    requires PageCheck(d, authority, kind, q).Ok?
    ensures authority.Root? ==> PageCheck(d, authority, kind, q).value.None?
    ensures authority.Account? ==> PageCheck(d, authority, kind, q).value == Some(authority.id) && kind.Virtual?
  {
    hide TextOk;
  }

  /** Pages hold 1 to 200 accounts; Root may ask for every kind, a live administrator for its own virtual accounts. */
  lemma {:induction false} PageAccepted(d: Db, authority: Authority, kind: Kind, q: Query)
    requires UniqueNames(d.accounts)
    ensures PageOf(d, authority, kind, q).Ok? <==>
      && 1 <= q.limit <= 200
      && (q.cursor.Some? ==> SubidText.Bytes(q.cursor.value) <= 256 && forall i :: 0 <= i < |q.cursor.value| ==> !Control(q.cursor.value[i]))
      && (q.filter.Some? ==> SubidText.Bytes(q.filter.value) <= 128 && forall i :: 0 <= i < |q.filter.value| ==> !Control(q.filter.value[i]))
      && (authority.Root?
          || (&& kind.Virtual? && authority.id in d.accounts && d.accounts[authority.id].role.Admin?
              && d.accounts[authority.id].status.Active? && d.accounts[authority.id].login
              && d.accounts[authority.id].generation == authority.generation))
  {
    hide UniqueNames, Answer, SubidText.Bytes, Control;
  }

  lemma {:induction false} AnswerRows(d: Db, kind: Kind, owner: Option<Id>, q: Query, id: Id)
    requires UniqueNames(d.accounts)
    ensures id in Answer(d, kind, owner, q) <==>
      && id in d.accounts && d.accounts[id].kind == kind && (owner.Some? ==> d.accounts[id].owner == owner)
      && (q.status.Some? ==> d.accounts[id].status == q.status.value)
      && (q.enrolled.Some? ==> (d.accounts[id].hash.Some? <==> q.enrolled.value))
      && (q.filter.Some? ==> NameHas(d.accounts[id].username, q.filter.value))
      && (q.cursor.Some? ==> Less(q.cursor.value, d.accounts[id].username))
  {
    hide UniqueNames, Contains, NameHas, Lower, Precedes;
    if q.filter.Some? && id in d.accounts {
      FilterIff(d.accounts[id].username, q.filter.value);
    }
  }

  /**
    What a page may show: to an administrator only virtual accounts that it owns itself, to everybody only accounts of
    the kind, status, enrollment and name that were asked for, beyond the cursor.
   */
  lemma {:induction false} PageShowsOwn(d: Db, authority: Authority, kind: Kind, q: Query, i: nat)
    requires UniqueNames(d.accounts) && PageOf(d, authority, kind, q).Ok? && i < |PageOf(d, authority, kind, q).value.items|
    ensures var id := PageOf(d, authority, kind, q).value.items[i];
      && id in d.accounts && d.accounts[id].kind == kind
      && (authority.Account? ==> d.accounts[id].kind.Virtual? && d.accounts[id].owner == Some(authority.id))
      && (q.status.Some? ==> d.accounts[id].status == q.status.value)
      && (q.enrolled.Some? ==> (d.accounts[id].hash.Some? <==> q.enrolled.value))
      && (q.filter.Some? ==> NameHas(d.accounts[id].username, q.filter.value))
      && (q.cursor.Some? ==> Less(q.cursor.value, d.accounts[id].username))
  {
    hide UniqueNames, NameHas, Answer, PageCheck;
    AskedBy(d, authority, kind, q);
    AnswerRows(d, kind, PageCheck(d, authority, kind, q).value, q, PageOf(d, authority, kind, q).value.items[i]);
  }

  /** A complete walk names an account if and only if it is one that was asked for and the asker may see. */
  lemma {:induction false} WalkShowsExactly(d: Db, authority: Authority, kind: Kind, q: Query, id: Id)
    requires UniqueNames(d.accounts) && FollowAll(d, authority, kind, q).Ok?
    ensures id in FollowAll(d, authority, kind, q).value <==>
      && id in d.accounts && d.accounts[id].kind == kind
      && (authority.Account? ==> d.accounts[id].kind.Virtual? && d.accounts[id].owner == Some(authority.id))
      && (q.status.Some? ==> d.accounts[id].status == q.status.value)
      && (q.enrolled.Some? ==> (d.accounts[id].hash.Some? <==> q.enrolled.value))
      && (q.filter.Some? ==> NameHas(d.accounts[id].username, q.filter.value))
      && (q.cursor.Some? ==> Less(q.cursor.value, d.accounts[id].username))
  {
    hide UniqueNames, NameHas, Answer, PageCheck, FollowAll, EndsOk;
    WalkChecked(d, authority, kind, q);
    AskedBy(d, authority, kind, q);
    PagesMakeTheList(d, authority, kind, q);
    AnswerRows(d, kind, PageCheck(d, authority, kind, q).value, q, id);
  }

  lemma {:induction false} WalkChecked(d: Db, authority: Authority, kind: Kind, q: Query)
    requires UniqueNames(d.accounts) && FollowAll(d, authority, kind, q).Ok?
    ensures PageCheck(d, authority, kind, q).Ok?
  {
    hide UniqueNames, Answer, PageCheck;
  }

  // ---------- A name that breaks the walk ----------

  const LINE_BREAK := "a\n"

  /** Account creation accepts a line break in a user name, but no cursor may contain one. */
  lemma {:induction false} LineBreakIsCreatable()
    ensures ValidIdentity(LINE_BREAK, 1000, 1000, "/home") && !CursorOk(LINE_BREAK)
  {
    assert LINE_BREAK[1] == '\n' && Control(LINE_BREAK[1]);
    HomeIsPath();
    BytesOfTwo();
  }

  lemma {:induction false} HomeIsPath()
    ensures !BareRoot("/home") && !HasParentComponent("/home")
  {
    Component("/home", 1);
  }

  lemma {:induction false} Component(path: string, i: nat)
    requires i < |path| && path[i] != '/' && path[i] != '.'
    ensures !BareRoot(path)
  {
    assert !Skippable(path, i);
  }

  lemma {:induction false} BytesOfTwo()
    ensures SubidText.Bytes(LINE_BREAK) == 2
  {
    assert LINE_BREAK[1..] == "\n" && "\n"[1..] == "";
  }

  function LinuxAccount(name: string, uid: nat): NewAccount {
    NewAccount(name, uid, uid, "/home", Linux, User, None, None)
  }

  /** Root registers two Linux accounts. */
  const TWO_ACCOUNTS: seq<Event> := [
    EvCreate(Root, LinuxAccount(LINE_BREAK, 1000), None, Uuid(1)),
    EvCreate(Root, LinuxAccount("b", 1001), None, Uuid(2))]

  lemma {:induction false} FirstCreated()
    ensures Step(EMPTY, TWO_ACCOUNTS[0]) ==
      Ok(EMPTY.(accounts := map[Uuid(1) := NewRow(LinuxAccount(LINE_BREAK, 1000), None)], used := {Uuid(1)}))
    ensures Admissible(EMPTY, TWO_ACCOUNTS[0])
  {
    hide ValidIdentity, ChildRoom, CursorOk;
    LineBreakIsCreatable();
    assert !HasUsername(EMPTY, LINE_BREAK) && !UidTaken(EMPTY, 1000);
    assert Assigned(EMPTY) == {};
    var row := NewRow(LinuxAccount(LINE_BREAK, 1000), None);
    assert EMPTY.accounts[Uuid(1) := row] == map[Uuid(1) := row] && EMPTY.used + {Uuid(1)} == {Uuid(1)};
  }

  lemma {:induction false} PlainIsCreatable()
    ensures ValidIdentity("b", 1001, 1001, "/home")
  {
    HomeIsPath();
    assert "b"[1..] == "";
  }

  /** The state after the first creation, and after both. */
  const ONE_LISTED: Db := EMPTY.(accounts := map[Uuid(1) := NewRow(LinuxAccount(LINE_BREAK, 1000), None)], used := {Uuid(1)})
  const TWO_LISTED: Db := EMPTY.(
    accounts := map[Uuid(1) := NewRow(LinuxAccount(LINE_BREAK, 1000), None), Uuid(2) := NewRow(LinuxAccount("b", 1001), None)],
    used := {Uuid(1), Uuid(2)})

  lemma {:induction false} SecondCreated()
    ensures Step(ONE_LISTED, TWO_ACCOUNTS[1]) == Ok(TWO_LISTED) && Admissible(ONE_LISTED, TWO_ACCOUNTS[1])
  {
    hide ValidIdentity, ChildRoom;
    PlainIsCreatable();
    assert !HasUsername(ONE_LISTED, "b") && !UidTaken(ONE_LISTED, 1001);
    assert 1001 !in Assigned(ONE_LISTED);
    assert ONE_LISTED.accounts[Uuid(2) := NewRow(LinuxAccount("b", 1001), None)] == TWO_LISTED.accounts;
    assert ONE_LISTED.used + {Uuid(2)} == TWO_LISTED.used;
  }

  lemma {:induction false} TwoAreReachable()
    ensures AdmissibleRun(EMPTY, TWO_ACCOUNTS) && Final(EMPTY, TWO_ACCOUNTS) == TWO_LISTED
  {
    hide Step, Admissible;
    FirstCreated();
    SecondCreated();
    var rest := TWO_ACCOUNTS[1..];
    assert rest[0] == TWO_ACCOUNTS[1] && rest[1..] == [];
    assert After(EMPTY, TWO_ACCOUNTS[0]) == ONE_LISTED;
    assert Final(ONE_LISTED, rest) == Final(TWO_LISTED, []);
    assert AdmissibleRun(ONE_LISTED, rest);
  }

  lemma {:induction false} TwoUnique()
    ensures UniqueNames(TWO_LISTED.accounts)
  {
    BreakFirst();
  }

  /** Two creations from the empty store, and pages of one, are enough for the walk to fail. */
  lemma {:induction false} LineBreakStopsTheWalk()
    ensures AdmissibleRun(EMPTY, TWO_ACCOUNTS)
    ensures var d := Final(EMPTY, TWO_ACCOUNTS);
            && UniqueNames(d.accounts)
            && FollowAll(d, Root, Linux, Query(1, None, None, None, None)) == Err(InvalidInput)
  {
    hide CursorOk, Less, Step, Admissible, Final, AdmissibleRun;
    var d := TWO_LISTED;
    var q := Query(1, None, None, None, None);
    TwoAreReachable();
    TwoUnique();
    LineBreakIsCreatable();
    BreakFirst();
    assert Selected(d, Linux, None, q) == {Uuid(1), Uuid(2)};
    var all := [Uuid(1), Uuid(2)];
    assert IsListing(d.accounts, {Uuid(1), Uuid(2)}, all);
    ListingUnique(d.accounts, {Uuid(1), Uuid(2)}, Listed(d.accounts, {Uuid(1), Uuid(2)}), all);
    assert Answer(d, Linux, None, q) == all;
    PagesMakeTheList(d, Root, Linux, q);
  }

  lemma {:induction false} BreakFirst()
    ensures Less(LINE_BREAK, "b") && LINE_BREAK != "b"
  {
  }
}
