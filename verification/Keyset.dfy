/** Keyset pagination: ORDER BY created_at DESC, id DESC with a cursor, walked while rows are being inserted. */
module Keyset {
  import opened Types
  import opened Ordering

  /** A listed row: its index key, and columns that filters look at (event type or job status; owner; client address). */
  datatype Row = Row(key: Key, kind: nat, user: UserId, address: nat)

  /** id is the primary key. */
  ghost predicate Keyed(rows: set<Row>) { forall r, q :: r in rows && q in rows && r.key.id == q.key.id ==> r == q }

  predicate IsNewest(rows: set<Row>, r: Row) { r in rows && forall q :: q in rows && q != r ==> Less(q.key, r.key) }

  lemma {:induction false} NewestExists(rows: set<Row>)
    requires Keyed(rows) && rows != {}
    ensures exists r :: IsNewest(rows, r)
  {
    var q :| q in rows;
    var rest := rows - {q};
    if rest == {} {
      assert rows == {q};
      assert IsNewest(rows, q);
    } else {
      NewestExists(rest);
      var m :| IsNewest(rest, m);
      assert q.key != m.key;
      assert IsNewest(rows, if Less(m.key, q.key) then q else m);
    }
  }

  function Newest(rows: set<Row>): (r: Row)
    requires Keyed(rows) && rows != {}
    ensures IsNewest(rows, r)
  {
    NewestExists(rows);
    var r :| IsNewest(rows, r);
    r
  }

  /** ORDER BY created_at DESC, id DESC. */
  function Sorted(rows: set<Row>): seq<Row>
    requires Keyed(rows)
    decreases |rows|
  {
    if rows == {} then [] else [Newest(rows)] + Sorted(rows - {Newest(rows)})
  }

  ghost predicate Descending(s: seq<Row>) { forall i, k :: 0 <= i < k < |s| ==> Less(s[k].key, s[i].key) }

  lemma {:induction false} SortedLists(rows: set<Row>)
    requires Keyed(rows)
    ensures |Sorted(rows)| == |rows| && (forall r :: r in Sorted(rows) <==> r in rows) && Descending(Sorted(rows))
    decreases |rows|
  {
    if rows != {} {
      SortedLists(rows - {Newest(rows)});
    }
  }

  lemma HasMember(s: seq<Row>)
    requires s != []
    ensures exists r :: r in s
  {
    assert s[0] in s;
  }

  /** Strictly descending lists of the same rows are equal: the sorted list is the only one. */
  lemma {:induction false} DescendingIsUnique(a: seq<Row>, b: seq<Row>)
    requires Descending(a) && Descending(b) && forall r :: r in a <==> r in b
    ensures a == b
    decreases |a|
  {
    if a != [] {
      assert a[0] in b && b[0] in a;
      assert a[0] == b[0];
      forall r ensures r in a[1..] <==> r in b[1..] {
        if r in a[1..] { assert r in b; }
        if r in b[1..] { assert r in a; }
      }
      DescendingIsUnique(a[1..], b[1..]);
    } else if b != [] {
      HasMember(b);
    }
  }

  /** The WHERE clause: the filter, and strictly after the cursor in the order. */
  function Matching(rows: set<Row>, filter: Row -> bool, cursor: Option<Key>): set<Row> {
    set r | r in rows && filter(r) && (cursor.Some? ==> Less(r.key, cursor.value))
  }

  function Take(s: seq<Row>, limit: nat): seq<Row> { if |s| <= limit then s else s[..limit] }

  /** One page: the query with its LIMIT. */
  function Page(rows: set<Row>, filter: Row -> bool, cursor: Option<Key>, limit: nat): seq<Row>
    requires Keyed(rows)
  {
    Take(Sorted(Matching(rows, filter, cursor)), limit)
  }

  /** next_cursor: the last row's key if the page is full. */
  function NextCursor(page: seq<Row>, limit: nat): Option<Key> {
    if |page| == limit && page != [] then Some(page[|page| - 1].key) else None
  }

  function OfUser(user: UserId, status: Option<nat>): Row -> bool {
    (r: Row) => r.user == user && (status.Some? ==> r.kind == status.value)
  }

  /** Later created, or at the same time with the larger identifier. */
  predicate Newer(r: Row, q: Row) { q.key.at < r.key.at || (q.key.at == r.key.at && q.key.id < r.key.id) }

  /** A page lists each row after all newer ones of the page. */
  ghost predicate NewestFirst(page: seq<Row>) { forall i, k :: 0 <= i < k < |page| ==> Newer(page[i], page[k]) }

  /** The page consists of the newest of the wanted rows, up to the limit. */
  ghost predicate ListsNewest(page: seq<Row>, wanted: set<Row>, limit: nat) {
    && NewestFirst(page) && |page| <= limit
    && (forall r :: r in page ==> r in wanted)
    && (forall r :: r in wanted ==> r in page || (|page| == limit && forall q :: q in page ==> Newer(q, r)))
  }

  lemma TakenAreNewest(wanted: set<Row>, limit: nat)
    requires Keyed(wanted)
    ensures ListsNewest(Take(Sorted(wanted), limit), wanted, limit)
  {
    SortedLists(wanted);
    hide Sorted, Keyed;
    forall r | r in wanted { TakenBefore(Sorted(wanted), limit, r); }
  }

  lemma TakenBefore(all: seq<Row>, limit: nat, r: Row)
    requires Descending(all) && r in all
    ensures r in Take(all, limit) || (|Take(all, limit)| == limit && forall q :: q in Take(all, limit) ==> Newer(q, r))
  {
    var page := Take(all, limit);
    var i :| 0 <= i < |all| && all[i] == r;
    if i < |page| {
      assert page[i] == r;
    } else {
      forall q | q in page ensures Newer(q, r) {
        var k :| 0 <= k < |page| && page[k] == q;
        assert all[k] == q;
      }
    }
  }

  /** Strictly after the cursor: created before it, or at its time with the smaller identifier. */
  predicate AfterCursor(r: Row, cursor: Option<Key>) {
    cursor.Some? ==> r.key.at < cursor.value.at || (r.key.at == cursor.value.at && r.key.id < cursor.value.id)
  }

  /** The user's rows, of the wanted status if one is given, after the cursor. */
  ghost function UserRows(rows: set<Row>, user: UserId, status: Option<nat>, cursor: Option<Key>): set<Row> {
    set r | r in rows && r.user == user && (status == None || status.value == r.kind) && AfterCursor(r, cursor)
  }

  /** A user's jobs: the query is built up clause by clause, then sorted and cut. */
  method ListForUser(rows: set<Row>, user: UserId, status: Option<nat>, cursor: Option<Key>, limit: nat)
    returns (page: seq<Row>, next: Option<Key>)
    requires Keyed(rows) && limit > 0
    ensures page == Page(rows, OfUser(user, status), cursor, limit) && next == NextCursor(page, limit)
    ensures ListsNewest(page, UserRows(rows, user, status, cursor), limit)
    ensures next == if |page| == limit then Some(page[limit - 1].key) else None
  {
    var stmt := set r | r in rows && r.user == user;
    if status.Some? {
      stmt := set r | r in stmt && r.kind == status.value;
    }
    if cursor.Some? {
      stmt := set r | r in stmt && (r.key.at < cursor.value.at || (r.key.at == cursor.value.at && r.key.id < cursor.value.id));
    }
    assert stmt == Matching(rows, OfUser(user, status), cursor);
    assert stmt == UserRows(rows, user, status, cursor);
    TakenAreNewest(stmt, limit);
    page := Take(Sorted(stmt), limit);
    next := if |page| == limit then Some(page[|page| - 1].key) else None;
  }

  /** The filters of the audit list; an e-mail query is whatever set of users it matches. */
  datatype AuditQuery = AuditQuery(kind: Option<nat>, users: Option<set<UserId>>, address: Option<nat>, since: Option<Time>, until: Option<Time>)

  predicate AsksColumns(q: AuditQuery, r: Row) {
    && (q.kind.Some? ==> r.kind == q.kind.value)
    && (q.users.Some? ==> r.user in q.users.value)
    && (q.address.Some? ==> r.address == q.address.value)
  }

  predicate AsksTimes(q: AuditQuery, r: Row) {
    && (q.since.Some? ==> q.since.value <= r.key.at)
    && (q.until.Some? ==> r.key.at <= q.until.value)
  }

  function Asked(q: AuditQuery): Row -> bool { (r: Row) => AsksColumns(q, r) && AsksTimes(q, r) }

  lemma AsksAre(q: AuditQuery, r: Row)
    ensures AsksColumns(q, r) && AsksTimes(q, r) <==>
      && (q.kind == None || q.kind.value == r.kind) && (q.address == None || q.address.value == r.address)
      && (q.users == None || r.user in q.users.value)
      && (q.since == None || q.since.value <= r.key.at) && (q.until == None || r.key.at <= q.until.value)
  {}

  method WhereColumns(rows: set<Row>, q: AuditQuery) returns (stmt: set<Row>)
    ensures forall r :: r in stmt <==> r in rows && AsksColumns(q, r)
  {
    stmt := rows;
    if q.kind.Some? { stmt := set r | r in stmt && r.kind == q.kind.value; }
    if q.users.Some? { stmt := set r | r in stmt && r.user in q.users.value; }
    if q.address.Some? { stmt := set r | r in stmt && r.address == q.address.value; }
  }

  method WhereTimes(rows: set<Row>, q: AuditQuery) returns (stmt: set<Row>)
    ensures forall r :: r in stmt <==> r in rows && AsksTimes(q, r)
  {
    stmt := rows;
    if q.since.Some? { stmt := set r | r in stmt && q.since.value <= r.key.at; }
    if q.until.Some? { stmt := set r | r in stmt && r.key.at <= q.until.value; }
  }

  /** The rows that meet every condition given, after the cursor. */
  ghost function AuditRows(rows: set<Row>, q: AuditQuery, cursor: Option<Key>): set<Row> {
    set r | r in rows && AfterCursor(r, cursor)
      && (q.kind == None || q.kind.value == r.kind) && (q.address == None || q.address.value == r.address)
      && (q.users == None || r.user in q.users.value)
      && (q.since == None || q.since.value <= r.key.at) && (q.until == None || r.key.at <= q.until.value)
  }

  /** A row inserted at or above a cursor is on no page below it. */
  lemma InsertAboveKeepsPage(rows: set<Row>, r: Row, filter: Row -> bool, cursor: Key, limit: nat)
    requires Keyed(rows) && Keyed(rows + {r}) && !Less(r.key, cursor)
    ensures Page(rows + {r}, filter, Some(cursor), limit) == Page(rows, filter, Some(cursor), limit)
  {
    assert Matching(rows + {r}, filter, Some(cursor)) == Matching(rows, filter, Some(cursor));
  }

  /** The audit list as the server keeps it: reading a page inserts the row that records the reading. */
  class AuditTable {
    var rows: set<Row>

    ghost predicate Valid() reads this { Keyed(rows) }

    constructor ()
      ensures Valid() && rows == {}
    {
      rows := {};
    }

    /** The query, clause by clause. */
    method ListFiltered(q: AuditQuery, cursor: Option<Key>, limit: nat) returns (page: seq<Row>)
      requires Valid()
      ensures page == Page(rows, Asked(q), cursor, limit)
      ensures ListsNewest(page, AuditRows(rows, q, cursor), limit)
    {
      var stmt := WhereColumns(rows, q);
      stmt := WhereTimes(stmt, q);
      if cursor.Some? {
        stmt := set r | r in stmt && (r.key.at < cursor.value.at || (r.key.at == cursor.value.at && r.key.id < cursor.value.id));
      }
      assert stmt == Matching(rows, Asked(q), cursor);
      assert stmt == AuditRows(rows, q, cursor) by {
        forall r ensures r in stmt <==> r in AuditRows(rows, q, cursor) { AsksAre(q, r); }
      }
      TakenAreNewest(stmt, limit);
      page := Take(Sorted(stmt), limit);
    }

    /** Reads a page, then inserts the row that records the reading, which changes no page below a cursor that it does not
        sort under. */
    method ListEvents(q: AuditQuery, cursor: Option<Key>, limit: nat, viewed: Row)
      returns (page: seq<Row>, next: Option<Key>)
      requires Valid() && limit > 0
      requires forall r :: r in rows ==> r.key.id != viewed.key.id
      modifies this
      ensures Valid()
      ensures page == Page(old(rows), Asked(q), cursor, limit) && next == NextCursor(page, limit)
      ensures ListsNewest(page, AuditRows(old(rows), q, cursor), limit)
      ensures next == if |page| == limit then Some(page[limit - 1].key) else None
      ensures rows == old(rows) + {viewed}
      ensures forall f, c, l :: !Less(viewed.key, c) ==> Page(rows, f, Some(c), l) == Page(old(rows), f, Some(c), l)
    {
      page := ListFiltered(q, cursor, limit);
      next := if |page| == limit then Some(page[|page| - 1].key) else None;
      rows := rows + {viewed};
      forall f, c, l | !Less(viewed.key, c) ensures Page(rows, f, Some(c), l) == Page(old(rows), f, Some(c), l) {
        InsertAboveKeepsPage(old(rows), viewed, f, c, l);
      }
    }
  }

  // ---------------------------------------------------------------- following next_cursor

  /** A client that follows next_cursor: what it got, where it stands, and whether it was told that this is the end. */
  datatype Client = Client(got: seq<Row>, cursor: Option<Key>, done: bool)

  const NEW_CLIENT := Client([], None, false)

  function Ask(c: Client, rows: set<Row>, filter: Row -> bool, limit: nat): Client
    requires Keyed(rows)
  {
    if c.done then c
    else
      var page := Page(rows, filter, c.cursor, limit);
      Client(c.got + page, NextCursor(page, limit), NextCursor(page, limit) == None)
  }

  /** The client after one request to each table in turn. */
  function Walk(tables: seq<set<Row>>, filter: Row -> bool, limit: nat): Client
    requires forall i :: 0 <= i < |tables| ==> Keyed(tables[i])
    decreases |tables|
  {
    if tables == [] then NEW_CLIENT
    else Ask(Walk(tables[..|tables| - 1], filter, limit), tables[|tables| - 1], filter, limit)
  }

  // ---------------------------------------------------------------- whatever is inserted

  /** The tables of a walk keep the rows of the start; anything may be inserted anywhere. */
  ghost predicate Keeping(tables: seq<set<Row>>) {
    |tables| > 0 && forall i :: 0 <= i < |tables| ==> Keyed(tables[i]) && tables[0] <= tables[i]
  }

  /** The client's rows descend to its cursor, and every matching row of the start is there or still below the cursor. */
  ghost predicate Complete(c: Client, start: set<Row>, filter: Row -> bool) {
    && Descending(c.got)
    && (!c.done ==> c.cursor == if c.got == [] then None else Some(c.got[|c.got| - 1].key))
    && (forall r :: r in c.got ==> filter(r))
    && (forall r :: r in start && filter(r) ==> r in c.got || (!c.done && (c.cursor.Some? ==> Less(r.key, c.cursor.value))))
  }

  /** The rows of a page, and those that follow it. */
  lemma PageSplits(rows: set<Row>, filter: Row -> bool, cursor: Option<Key>, limit: nat, r: Row)
    requires Keyed(rows) && limit > 0
    ensures var page := Page(rows, filter, cursor, limit);
      && Descending(page) && |page| <= limit
      && (r in page ==> r in Matching(rows, filter, cursor))
      && (r in Matching(rows, filter, cursor) ==> r in page || (|page| == limit && Less(r.key, page[|page| - 1].key)))
  {
    SortedLists(Matching(rows, filter, cursor));
  }

  lemma DescendingConcat(a: seq<Row>, b: seq<Row>)
    requires Descending(a) && Descending(b)
    requires a != [] ==> forall r :: r in b ==> Less(r.key, a[|a| - 1].key)
    ensures Descending(a + b)
  {}

  lemma AskKeepsComplete(c: Client, start: set<Row>, later: set<Row>, filter: Row -> bool, limit: nat)
    requires Keyed(later) && start <= later && limit > 0 && Complete(c, start, filter)
    ensures Complete(Ask(c, later, filter, limit), start, filter)
  {
    if !c.done {
      forall r { PageSplits(later, filter, c.cursor, limit, r); }
      DescendingConcat(c.got, Page(later, filter, c.cursor, limit));
    }
  }

  /** Whatever rows are inserted between the requests, anywhere in the order: a client that was told of the end has got
      every matching row of the start, and what it got matches and strictly descends, so each row came once. */
  lemma {:induction false} WalkMissesNothing(tables: seq<set<Row>>, filter: Row -> bool, limit: nat)
    requires Keeping(tables) && limit > 0
    ensures var c := Walk(tables, filter, limit);
      && Complete(c, tables[0], filter)
      && (c.done ==> forall r :: r in tables[0] && filter(r) ==> r in c.got)
    decreases |tables|
  {
    var init, last := tables[..|tables| - 1], tables[|tables| - 1];
    if init != [] {
      assert init[0] == tables[0];
      WalkMissesNothing(init, filter, limit);
    } else {
      assert Walk(init, filter, limit) == NEW_CLIENT;
    }
    AskKeepsComplete(Walk(init, filter, limit), tables[0], last, filter, limit);
  }

  // ---------------------------------------------------------------- only newer rows inserted

  /** The table a request finds: the rows of the start, and rows inserted since, which sort before all of them. */
  ghost predicate OnlyNewer(start: set<Row>, later: set<Row>) {
    start <= later && forall r, q :: r in later - start && q in start ==> Less(q.key, r.key)
  }

  /** The whole sorted list. */
  function Listing(rows: set<Row>, filter: Row -> bool): seq<Row>
    requires Keyed(rows)
  {
    Sorted(Matching(rows, filter, None))
  }

  /** What follows the cursor is what follows it in the list of the start. */
  lemma BelowIsRest(start: set<Row>, later: set<Row>, filter: Row -> bool, all: seq<Row>, p: nat, r: Row)
    requires Keyed(start) && Keyed(later) && OnlyNewer(start, later)
    requires (forall q :: q in all <==> q in Matching(start, filter, None)) && Descending(all) && 0 < p <= |all|
    ensures r in all[p..] <==> r in Matching(later, filter, Some(all[p - 1].key))
  {
    assert all[p - 1] in all;
    if r in all[p..] { RestIsBelow(all, p, r); }
    if r in Matching(later, filter, Some(all[p - 1].key)) {
      assert r in all;
      var i :| 0 <= i < |all| && all[i] == r;
      assert i >= p;
      assert all[p..][i - p] == r;
    }
  }

  /** The rows below a position of the sorted list are the rest of the list. */
  lemma MatchingIsRest(start: set<Row>, later: set<Row>, filter: Row -> bool, all: seq<Row>, p: nat)
    requires Keyed(start) && Keyed(later) && OnlyNewer(start, later)
    requires all == Listing(start, filter) && 0 < p <= |all|
    ensures Sorted(Matching(later, filter, Some(all[p - 1].key))) == all[p..]
  {
    var below := Matching(later, filter, Some(all[p - 1].key));
    SortedLists(Matching(start, filter, None));
    SortedLists(below);
    forall r { BelowIsRest(start, later, filter, all, p, r); }
    DescendingIsUnique(Sorted(below), all[p..]);
  }

  lemma RestIsBelow(all: seq<Row>, p: nat, r: Row)
    requires Descending(all) && 0 < p <= |all| && r in all[p..]
    ensures r in all && Less(r.key, all[p - 1].key)
  {}

  /** Where the client stands after the requests that could have brought p rows. */
  ghost predicate Stands(c: Client, all: seq<Row>, p: nat) {
    if p <= |all| then
      !c.done && c.got == all[..p] && c.cursor == (if p == 0 then None else Some(all[p - 1].key))
    else c.done && c.got == all
  }

  lemma AskAdvances(c: Client, start: set<Row>, later: set<Row>, filter: Row -> bool, p: nat, limit: nat)
    requires Keyed(start) && Keyed(later) && OnlyNewer(start, later) && limit > 0 && (p == 0 ==> later == start)
    requires Stands(c, Listing(start, filter), p)
    ensures Stands(Ask(c, later, filter, limit), Listing(start, filter), p + limit)
  {
    var all := Listing(start, filter);
    if p <= |all| {
      assert Sorted(Matching(later, filter, c.cursor)) == all[p..] by {
        if p > 0 { MatchingIsRest(start, later, filter, all, p); }
      }
      var page := Page(later, filter, c.cursor, limit);
      if p + limit <= |all| {
        assert page == all[p..p + limit];
        assert all[..p] + page == all[..p + limit];
      } else {
        assert page == all[p..];
        assert all[..p] + page == all;
      }
    }
  }

  /** The tables of a walk: each keyed, and grown by newer rows only. */
  ghost predicate Growing(tables: seq<set<Row>>) {
    && |tables| > 0 && Keyed(tables[0])
    && forall i :: 0 <= i < |tables| ==> Keyed(tables[i]) && OnlyNewer(tables[0], tables[i])
  }

  lemma {:induction false} WalkStands(tables: seq<set<Row>>, filter: Row -> bool, limit: nat)
    requires Growing(tables) && limit > 0
    ensures 0 <= |tables| * limit
    ensures Stands(Walk(tables, filter, limit), Listing(tables[0], filter), |tables| * limit)
    decreases |tables|
  {
    var init, last := tables[..|tables| - 1], tables[|tables| - 1];
    if init == [] {
      assert Walk(init, filter, limit) == NEW_CLIENT;
      AskAdvances(NEW_CLIENT, tables[0], last, filter, 0, limit);
    } else {
      assert init[0] == tables[0];
      WalkStands(init, filter, limit);
      assert |init| * limit > 0;
      assert |tables| * limit == |init| * limit + limit;
      AskAdvances(Walk(init, filter, limit), tables[0], last, filter, |init| * limit, limit);
    }
  }

  lemma MulMono(a: nat, b: nat, c: nat)
    requires a <= b
    ensures a * c <= b * c
  {
    assert (b - a) * c >= 0;
  }

  lemma LastRequest(n: nat, k: nat, limit: nat)
    requires limit > 0
    ensures k * limit > n <==> k >= n / limit + 1
  {
    var q := n / limit;
    assert q * limit <= n < (q + 1) * limit;
    if k >= q + 1 { MulMono(q + 1, k, limit); } else { MulMono(k, q, limit); }
  }

  /** Following next_cursor to the end: the client is told of the end by request floor(n / limit) + 1 and not before, and
      has then got exactly the matching rows of the start, sorted, each once, whatever newer rows came in between. */
  lemma WalkListsStart(tables: seq<set<Row>>, filter: Row -> bool, limit: nat)
    requires Growing(tables) && limit > 0
    ensures var all, c := Listing(tables[0], filter), Walk(tables, filter, limit);
      && (c.done <==> |tables| >= |all| / limit + 1)
      && (c.done ==> c.got == all)
      && c.got <= all
  {
    WalkStands(tables, filter, limit);
    LastRequest(|Listing(tables[0], filter)|, |tables|, limit);
  }

  /** The tables that successive page reads of the audit list find: each read inserts one row. */
  ghost predicate EachReadInserts(tables: seq<set<Row>>, viewed: seq<Row>) {
    && |tables| == |viewed|
    && forall i :: 0 <= i < |tables| - 1 ==> tables[i + 1] == tables[i] + {viewed[i]}
  }

  lemma {:induction false} InsertedAreNewer(tables: seq<set<Row>>, viewed: seq<Row>, i: nat)
    requires EachReadInserts(tables, viewed) && i < |tables|
    requires forall k, q :: 0 <= k < |viewed| && q in tables[0] ==> Less(q.key, viewed[k].key)
    ensures OnlyNewer(tables[0], tables[i])
    decreases i
  {
    if i > 0 {
      InsertedAreNewer(tables, viewed, i - 1);
      assert tables[i] == tables[i - 1] + {viewed[i - 1]};
    }
  }

  lemma {:induction false} InsertedAreKept(tables: seq<set<Row>>, viewed: seq<Row>, i: nat)
    requires EachReadInserts(tables, viewed) && i < |tables|
    ensures tables[0] <= tables[i]
    decreases i
  {
    if i > 0 {
      InsertedAreKept(tables, viewed, i - 1);
      assert tables[i] == tables[i - 1] + {viewed[i - 1]};
    }
  }

  /** The audit list itself, which inserts a row on every page read, still lists all that was there at the start, each
      row once, wherever its own rows sort; and if they sort after the rows of the start, it lists nothing else and ends
      with request floor(n / limit) + 1. */
  lemma AuditWalkListsStart(tables: seq<set<Row>>, viewed: seq<Row>, filter: Row -> bool, limit: nat)
    requires |tables| > 0 && limit > 0 && EachReadInserts(tables, viewed)
    requires forall i :: 0 <= i < |tables| ==> Keyed(tables[i])
    ensures var all, c := Listing(tables[0], filter), Walk(tables, filter, limit);
      && Descending(c.got)
      && (c.done ==> forall r :: r in tables[0] && filter(r) ==> r in c.got)
      && ((forall k, q :: 0 <= k < |viewed| && q in tables[0] ==> Less(q.key, viewed[k].key)) ==>
            (c.done <==> |tables| >= |all| / limit + 1) && (c.done ==> c.got == all))
  {
    forall i | 0 <= i < |tables| ensures tables[0] <= tables[i] { InsertedAreKept(tables, viewed, i); }
    WalkMissesNothing(tables, filter, limit);
    if forall k, q :: 0 <= k < |viewed| && q in tables[0] ==> Less(q.key, viewed[k].key) {
      forall i | 0 <= i < |tables| ensures OnlyNewer(tables[0], tables[i]) { InsertedAreNewer(tables, viewed, i); }
      WalkListsStart(tables, filter, limit);
    }
  }
}
