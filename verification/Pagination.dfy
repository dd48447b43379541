/**
 The snapshot walk over the indexed users: pages in ID order, one row more than the
 limit to see whether there is a next page, and a cursor that carries the last ID and
 the time of the first request.
 */
module Pagination {
  import opened Prelude
  import opened Cursor

  /** When each account was first seen. */
  type Owners = map<int, int>

  datatype Request = Request(limit: Option<int>, cursor: string, afterID: Option<int>)

  datatype Query = Query(afterID: int, limit: int, snapshot: Option<int>)

  datatype Page = Page(users: seq<int>, hasMore: bool, cursor: Option<string>)

  // ------------------------------------------------------------ ordered lists

  lemma HasLeastElement(s: set<int>)
    requires s != {}
    ensures exists m :: m in s && forall x :: x in s ==> m <= x
  {
    var m := HasLeast(s);
  }

  function Least(s: set<int>): (m: int)
    requires s != {}
    ensures m in s && forall x :: x in s ==> m <= x
  {
    HasLeastElement(s);
    var m :| m in s && forall x :: x in s ==> m <= x;
    m
  }

  /** The elements in ascending order. */
  function Ascending(s: set<int>): (r: seq<int>)
    ensures |r| == |s|
  {
    if s == {} then [] else [Least(s)] + Ascending(s - {Least(s)})
  }

  lemma {:induction false} AscendingElements(s: set<int>)
    ensures Elements(Ascending(s)) == s
  {
    if s != {} {
      var m := Least(s);
      AscendingElements(s - {m});
      Prepended(m, Ascending(s - {m}));
      assert s == {m} + (s - {m});
    }
  }

  lemma Prepended(m: int, rest: seq<int>)
    ensures Elements([m] + rest) == {m} + Elements(rest)
  {
    forall x ensures x in [m] + rest <==> x == m || x in rest {
      if x in rest {
        var i :| 0 <= i < |rest| && rest[i] == x;
        assert ([m] + rest)[i + 1] == x;
      }
      assert ([m] + rest)[0] == m;
    }
  }

  ghost predicate Increasing(r: seq<int>) { forall i, j :: 0 <= i < j < |r| ==> r[i] < r[j] }

  lemma {:induction false} AscendingSorted(s: set<int>)
    ensures Increasing(Ascending(s))
  {
    if s != {} {
      var m := Least(s);
      var rest := Ascending(s - {m});
      AscendingSorted(s - {m});
      AscendingElements(s - {m});
      forall i | 0 <= i < |rest| ensures m < rest[i] { assert rest[i] in Elements(rest); }
    }
  }

  /** Whatever is above the n-th element is exactly what follows it. */
  lemma {:induction false} AscendingSuffix(s: set<int>, n: nat)
    requires 1 <= n <= |s|
    ensures var r := Ascending(s); r[n - 1] in s && Ascending(Above(s, r[n - 1])) == r[n..]
  {
    var m := Least(s);
    var rest := s - {m};
    if n == 1 {
      assert Above(s, m) == rest;
    } else {
      AscendingSuffix(rest, n - 1);
      var last := Ascending(rest)[n - 2];
      assert Above(s, last) == Above(rest, last);
    }
  }

  function Above(s: set<int>, x: int): set<int> { set y | y in s && y > x }

  // ------------------------------------------------------------------- a page

  function Eligible(owners: Owners, snapshot: int, afterID: int): set<int> {
    set id | id in owners && id > afterID && owners[id] <= snapshot
  }

  function Take(s: seq<int>, n: nat): seq<int> { if |s| <= n then s else s[..n] }

  /** ListIndexedUsers. */
  function ListIndexed(owners: Owners, afterID: int, snapshot: int, limit: nat): seq<int> {
    Take(Ascending(Eligible(owners, snapshot, afterID)), limit)
  }

  /** parsePagination: the limit is 1 to 200, and a cursor excludes an explicit start. */
  function Parse(request: Request): Option<Query> {
    var limit := if request.limit.Some? then request.limit.value else 100;
    if limit < 1 || limit > 200 then None
    else if request.cursor != "" && request.afterID.Some? then None
    else if request.cursor != "" then
      match Decode(request.cursor)
      case None => None
      case Some(p) => Some(Query(p.afterID, limit, Some(p.snapshot)))
    else if request.afterID.Some? && request.afterID.value < 0 then None
    else Some(Query(if request.afterID.Some? then request.afterID.value else 0, limit, None))
  }

  ghost predicate IDsOk(owners: Owners) { forall id :: id in owners ==> 1 <= id < TWO63 }

  /** The users handler; `now` is the database's statement time. */
  method Users(owners: Owners, request: Request, now: int) returns (page: Option<Page>)
    requires IDsOk(owners) && EARLIEST <= now < LATEST
    ensures page.None? <==> Parse(request).None?
    ensures page.Some? ==>
              var q := Parse(request).value;
              var snapshot := if q.snapshot.Some? then q.snapshot.value else now;
              var all := Ascending(Eligible(owners, snapshot, q.afterID));
              && page.value.users == Take(all, q.limit)
              && (page.value.hasMore <==> |all| > q.limit)
              && (page.value.cursor.Some? <==> page.value.hasMore)
              && (page.value.hasMore ==>
                    && |page.value.users| == q.limit && InRange(Position(page.value.users[q.limit - 1], snapshot))
                    && page.value.cursor == Some(Encode(Position(page.value.users[q.limit - 1], snapshot))))
  {
    var query := Parse(request);
    if query.None? { return None; }
    var q := query.value;
    if request.cursor != "" { AcceptsOnlyPayloads(request.cursor); }
    var snapshot := if q.snapshot.Some? then q.snapshot.value else now;
    var users := ListIndexed(owners, q.afterID, snapshot, q.limit + 1);
    var hasMore := |users| > q.limit;
    if hasMore { users := users[..q.limit]; }
    var cursor: Option<string> := None;
    if hasMore && |users| > 0 {
      var last := users[|users| - 1];
      ListedID(owners, q.afterID, snapshot, q.limit - 1);
      cursor := Some(Encode(Position(last, snapshot)));
    }
    page := Some(Page(users, hasMore, cursor));
  }

  lemma ListedID(owners: Owners, afterID: int, snapshot: int, k: nat)
    requires IDsOk(owners) && k < |Ascending(Eligible(owners, snapshot, afterID))|
    ensures 1 <= Ascending(Eligible(owners, snapshot, afterID))[k] < TWO63
  {
    var e := Eligible(owners, snapshot, afterID);
    AscendingElements(e);
    assert Ascending(e)[k] in Elements(Ascending(e));
  }

  // ------------------------------------------------------------------- the walk

  /** Between two requests owners only appear, later than the snapshot; none is forgotten. */
  ghost predicate Evolves(before: Owners, after: Owners, snapshot: int) {
    && (forall id :: id in before ==> id in after && after[id] == before[id])
    && (forall id :: id in after && id !in before ==> after[id] > snapshot)
  }

  lemma {:induction false} SameEligible(tables: nat -> Owners, snapshot: int, k: nat, afterID: int)
    requires forall n: nat :: n < k ==> Evolves(tables(n), tables(n + 1), snapshot)
    ensures Eligible(tables(k), snapshot, afterID) == Eligible(tables(0), snapshot, afterID)
  {
    if k > 0 {
      SameEligible(tables, snapshot, k - 1, afterID);
      assert Evolves(tables(k - 1), tables(k - 1 + 1), snapshot);
    }
  }

  /**
   Following the cursor from the first page to the end, while new owners appear between
   the requests, lists every owner of the snapshot exactly once, in ID order.
   */
  method Walk(tables: nat -> Owners, limit: int, now: int) returns (seen: seq<int>)
    requires 1 <= limit <= 200 && EARLIEST <= now < LATEST
    requires forall k: nat :: IDsOk(tables(k))
    requires forall k: nat :: Evolves(tables(k), tables(k + 1), now)
    ensures Elements(seen) == set id | id in tables(0) && tables(0)[id] <= now
    ensures Increasing(seen)
  {
    ghost var all := Ascending(Eligible(tables(0), now, 0));
    var page := Users(tables(0), Request(Some(limit), "", None), now);
    seen := page.value.users;
    var k := 0;
    while page.value.hasMore
      invariant page.Some? && Progress(all, seen, page.value, now)
      decreases |all| - |seen|, if page.value.hasMore then 1 else 0
    {
      k := k + 1;
      NextPage(tables, now, k, |seen|);
      page := Follow(tables(k), page.value.cursor.value, Position(seen[|seen| - 1], now), limit, now);
      seen := seen + page.value.users;
    }
    AscendingSorted(Eligible(tables(0), now, 0));
    AscendingElements(Eligible(tables(0), now, 0));
    AllPositive(tables(0), now);
  }

  lemma AllPositive(owners: Owners, now: int)
    requires IDsOk(owners)
    ensures Eligible(owners, now, 0) == set id | id in owners && owners[id] <= now
  {
  }

  /** One request with a cursor handed out before. */
  method Follow(owners: Owners, cursor: string, ghost at: Position, limit: int, now: int) returns (page: Option<Page>)
    requires IDsOk(owners) && 1 <= limit <= 200 && EARLIEST <= now < LATEST && InRange(at) && at.snapshot == now && cursor == Encode(at)
    ensures page.Some?
    ensures var rest := Ascending(Eligible(owners, now, at.afterID));
            page.value.users == Take(rest, limit) && (page.value.hasMore <==> |rest| > limit)
    ensures page.value.hasMore ==>
              && |page.value.users| == limit && InRange(Position(page.value.users[limit - 1], now))
              && page.value.cursor == Some(Encode(Position(page.value.users[limit - 1], now)))
  {
    RoundTrip(at);
    page := Users(owners, Request(Some(limit), cursor, None), now);
  }

  /** Seen is a prefix of the snapshot, and the cursor stands at its end. */
  ghost predicate Progress(all: seq<int>, seen: seq<int>, page: Page, now: int) {
    && |seen| <= |all| && seen == all[..|seen|]
    && (page.hasMore ==>
          && 1 <= |seen| && page.cursor.Some? && InRange(Position(seen[|seen| - 1], now))
          && page.cursor == Some(Encode(Position(seen[|seen| - 1], now))))
    && (!page.hasMore ==> seen == all)
  }

  /** What lies beyond the last ID seen is the rest of the snapshot, whatever was added since. */
  lemma NextPage(tables: nat -> Owners, snapshot: int, k: nat, n: nat)
    requires forall m: nat :: Evolves(tables(m), tables(m + 1), snapshot)
    requires 1 <= n <= |Ascending(Eligible(tables(0), snapshot, 0))|
    ensures var all := Ascending(Eligible(tables(0), snapshot, 0));
            Ascending(Eligible(tables(k), snapshot, all[n - 1])) == all[n..]
  {
    var s := Eligible(tables(0), snapshot, 0);
    var last := Ascending(s)[n - 1];
    AscendingSuffix(s, n);
    SameEligible(tables, snapshot, k, last);
    assert Eligible(tables(0), snapshot, last) == Above(s, last);
  }
}
