/**
 One page of the ascending user listing and the decision the enumeration worker
 takes from it.

 The listing is a fixed set of IDs.  A page answers the request "IDs after
 `since`"; its link is modelled by the `since` value it carries, which is also
 what a shard's stored URL encodes.
 */
module EnumerationPage {
  import opened Prelude

  datatype Listing = Listing(all: set<int>, users: set<int>)

  /** `user` is false for an organisation or for an entry without a node ID. */
  datatype Object = Object(id: int, user: bool)

  datatype Link = NoLink | BadLink | Since(id: int)

  datatype Page = Page(objects: seq<Object>, link: Link)

  datatype PlanError = NonMonotonic | MissingLink | BadCursor

  datatype Plan = Advance(candidates: seq<int>, next: int, reached: bool) | Reject(error: PlanError)

  function LastID(since: int, objects: seq<Object>): int {
    if |objects| == 0 then since else objects[|objects| - 1].id
  }

  predicate Ascending(since: int, objects: seq<Object>) {
    |objects| > 0 ==>
      var front := objects[..|objects| - 1];
      Ascending(since, front) && LastID(since, front) < objects[|objects| - 1].id
  }

  /** The users of a page up to the shard's upper bound, in page order. */
  function Candidates(objects: seq<Object>, upper: int): seq<int> {
    if |objects| == 0 then []
    else
      var front := Candidates(objects[..|objects| - 1], upper);
      var o := objects[|objects| - 1];
      if o.id <= upper && o.user then front + [o.id] else front
  }

  function PlanOf(next: int, upper: int, page: Page): Plan {
    if next >= upper then Advance([], upper, true)
    else if !Ascending(next, page.objects) then Reject(NonMonotonic)
    else
      var last := LastID(next, page.objects);
      var candidates := Candidates(page.objects, upper);
      if last >= upper then Advance(candidates, upper, true)
      else match page.link
        case NoLink => Reject(MissingLink)
        case BadLink => Reject(BadCursor)
        case Since(k) =>
          if k <= next || k < last then Reject(BadCursor)
          else if k >= upper then Advance(candidates, upper, true)
          else Advance(candidates, k, false)
  }

  // ------------------------------------------------------ the server's promise

  /** What the page covers completely: the IDs after `since` up to this bound. */
  function Through(since: int, page: Page): int {
    var last := LastID(since, page.objects);
    if page.link.Since? then Max(last, page.link.id) else last
  }

  /** The page is a prefix of the listing after `since`, and its link skips no listed ID. */
  ghost predicate Honest(listing: Listing, since: int, page: Page) {
    && Ascending(since, page.objects)
    && (forall o :: o in page.objects ==> o.id in listing.all && (o.user <==> o.id in listing.users))
    && (forall x :: x in listing.all && since < x <= Through(since, page) ==> exists o :: o in page.objects && o.id == x)
  }

  ghost predicate WellFormed(listing: Listing) { listing.users <= listing.all }

  // ------------------------------------------------------------------- facts

  lemma {:induction false} AscendingPrefix(since: int, objects: seq<Object>, n: nat)
    requires Ascending(since, objects) && n <= |objects|
    ensures Ascending(since, objects[..n])
  {
    if n < |objects| {
      var front := objects[..|objects| - 1];
      AscendingPrefix(since, front, n);
      assert front[..n] == objects[..n];
    } else {
      assert objects[..n] == objects;
    }
  }

  ghost predicate Increasing(ids: seq<int>) {
    forall i, j :: 0 <= i < j < |ids| ==> ids[i] < ids[j]
  }

  lemma {:induction false} CandidatesExact(since: int, objects: seq<Object>, upper: int)
    requires Ascending(since, objects)
    ensures var c := Candidates(objects, upper);
            && (forall x :: x in c <==> exists o :: o in objects && o.id == x && o.user && x <= upper)
            && Increasing(c)
            && (forall x :: x in c ==> since < x <= LastID(since, objects))
  {
    if |objects| > 0 {
      var front, o := objects[..|objects| - 1], objects[|objects| - 1];
      CandidatesExact(since, front, upper);
      assert objects == front + [o];
      var c := Candidates(objects, upper);
      forall x | x in c
        ensures since < x <= LastID(since, objects) && exists p :: p in objects && p.id == x && p.user && x <= upper
      {
        if x in Candidates(front, upper) {
          var p :| p in front && p.id == x && p.user && x <= upper;
          assert p in objects;
        } else {
          assert x == o.id && o in objects;
          LastNotBefore(since, front);
        }
      }
      var fc := Candidates(front, upper);
      forall i, j | 0 <= i < j < |c|
        ensures c[i] < c[j]
      {
        assert fc[i] in fc && c[i] == fc[i];
        if j < |fc| { assert c[j] == fc[j]; }
      }
      forall p | p in objects && p.user && p.id <= upper
        ensures p.id in c
      {
        if p in front { assert p.id in Candidates(front, upper); }
      }
    }
  }

  lemma {:induction false} LastNotBefore(since: int, objects: seq<Object>)
    requires Ascending(since, objects)
    ensures since <= LastID(since, objects)
  {
    if |objects| > 0 { LastNotBefore(since, objects[..|objects| - 1]); }
  }

  /**
   An accepted honest page yields exactly the users between the old and the new
   checkpoint, in strictly ascending order, and the checkpoint moves forward
   without passing the shard's upper bound.
   */
  lemma PlanExact(listing: Listing, next: int, upper: int, page: Page)
    requires WellFormed(listing) && Honest(listing, next, page) && next < upper
    requires PlanOf(next, upper, page).Advance?
    ensures var p := PlanOf(next, upper, page);
            && next < p.next <= upper && (p.reached <==> p.next == upper)
            && (forall x :: x in p.candidates <==> x in listing.users && next < x <= p.next)
            && Increasing(p.candidates)
  {
    var p := PlanOf(next, upper, page);
    CandidatesExact(next, page.objects, upper);
    forall x | x in listing.users && next < x <= p.next
      ensures x in p.candidates
    {
      assert x <= Through(next, page);
      var o :| o in page.objects && o.id == x;
    }
    forall x | x in p.candidates
      ensures x in listing.users && next < x <= p.next
    {
      var o :| o in page.objects && o.id == x && o.user && x <= upper;
    }
  }

  /** An honest page is refused only when it neither reaches the bound nor links forward. */
  lemma PlanRefusesOnlyDeadEnds(listing: Listing, next: int, upper: int, page: Page)
    requires Honest(listing, next, page)
    ensures PlanOf(next, upper, page).Reject? <==>
            && next < upper && LastID(next, page.objects) < upper
            && !(page.link.Since? && page.link.id > next && page.link.id >= LastID(next, page.objects))
  {
  }

  // ----------------------------------------------------------- the worker's loop

  method PlanEnumerationPage(next: int, upper: int, page: Page) returns (plan: Plan)
    ensures plan == PlanOf(next, upper, page)
  {
    if next >= upper { return Advance([], upper, true); }
    var candidates: seq<int> := [];
    var previous := next;
    var crossedBoundary := false;
    var i := 0;
    while i < |page.objects|
      invariant 0 <= i <= |page.objects|
      invariant Ascending(next, page.objects[..i])
      invariant previous == LastID(next, page.objects[..i])
      invariant crossedBoundary <==> previous > upper
      invariant candidates == Candidates(page.objects[..i], upper)
    {
      var entry := page.objects[i];
      assert page.objects[..i + 1][..i] == page.objects[..i];
      if entry.id <= previous {
        if Ascending(next, page.objects) { AscendingPrefix(next, page.objects, i + 1); }
        return Reject(NonMonotonic);
      }
      previous := entry.id;
      if entry.id > upper {
        crossedBoundary := true;
      } else {
        // An in-range ID after the boundary was crossed would not be ascending.
        assert !crossedBoundary;
        if entry.user { candidates := candidates + [entry.id]; }
      }
      i := i + 1;
    }
    assert page.objects[..i] == page.objects;
    if crossedBoundary || previous >= upper { return Advance(candidates, upper, true); }
    match page.link
    case NoLink => return Reject(MissingLink);
    case BadLink => return Reject(BadCursor);
    case Since(k) =>
      if k <= next || k < previous { return Reject(BadCursor); }
      if k >= upper { return Advance(candidates, upper, true); }
      return Advance(candidates, k, false);
  }
}
