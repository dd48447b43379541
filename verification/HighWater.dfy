/**
 The search for the greatest account ID: double a bound until nothing lies beyond
 it, then bisect.  Machine integers are 64 bits wide; every sum and product is
 written with its wrap-around, and the wrap-around is proved not to happen where
 it would matter.
 */
module HighWater {
  import opened Prelude

  const TWO62: int := 0x4000_0000_0000_0000
  const TWO63: int := 0x8000_0000_0000_0000
  const TWO64: int := 0x1_0000_0000_0000_0000

  predicate IsInt64(x: int) { -TWO63 <= x < TWO63 }

  /** Two's complement. */
  function Wrap(x: int): (r: int)
    ensures IsInt64(r) && (IsInt64(x) ==> r == x)
  {
    (x + TWO63) % TWO64 - TWO63
  }

  datatype Found = Found(id: int) | OutOfRange

  /** One request: is there an account after `x`? */
  predicate HasAfter(ids: set<int>, x: int) { exists id :: id in ids && id > x }

  ghost predicate Greatest(ids: set<int>, floor: int, id: int) {
    && id >= floor && (id == floor || id in ids)
    && forall x :: x in ids ==> x <= id
  }

  /** The last bound tried before the search gives up. */
  function LastBound(high: int): int
    requires high >= 1
    decreases TWO62 - high
  {
    if high >= TWO62 then high else LastBound(2 * high)
  }

  /** The first bound tried. */
  function FirstBound(low: int): int {
    if low >= TWO62 then low + 1 else Max(1, 2 * low)
  }

  lemma LastBoundFacts(high: int)
    requires 1 <= high < TWO63
    ensures high <= LastBound(high) < TWO63 && LastBound(high) >= TWO62
    decreases TWO62 - high
  {
    if high < TWO62 { LastBoundFacts(2 * high); }
  }

  /** At most one ID is the greatest. */
  lemma GreatestUnique(ids: set<int>, floor: int, a: int, b: int)
    requires Greatest(ids, floor, a) && Greatest(ids, floor, b)
    ensures a == b
  {
  }

  /**
   discoverUserHighwater, for a fixed set of account IDs: the greatest of the start and
   all IDs, unless an ID lies beyond the last bound that can be doubled.
   */
  method Discover(ids: set<int>, start: int) returns (r: Found)
    requires IsInt64(start) && forall x :: x in ids ==> IsInt64(x)
    ensures r.Found? ==> Greatest(ids, Max(0, start), r.id)
    ensures r.OutOfRange? <==>
              HasAfter(ids, Max(0, start)) && HasAfter(ids, LastBound(FirstBound(Max(0, start))))
  {
    var low := Max(0, start);
    var hasAfterLow := HasAfter(ids, low);
    if !hasAfterLow { return Found(low); }
    ghost var floor := low;
    var high := Max(1, Wrap(low * 2));
    if high <= low { high := Wrap(low + 1); }
    assert high == FirstBound(low) by { FirstBoundIs(ids, low); }
    high, low := Double(ids, low, high);
    if high < 0 { return OutOfRange; }
    while high - low > 1
      invariant floor <= low < high && IsInt64(high) && HasAfter(ids, low) && !HasAfter(ids, high)
      invariant !HasAfter(ids, LastBound(FirstBound(floor)))
    {
      var middle := low + Wrap(high - low) / 2;
      if HasAfter(ids, middle) { low := middle; } else { high := middle; }
    }
    var x :| x in ids && x > low;
    assert x == high;
    r := Found(high);
  }

  lemma FirstBoundIs(ids: set<int>, low: int)
    requires 0 <= low < TWO63 && HasAfter(ids, low) && forall x :: x in ids ==> IsInt64(x)
    ensures var high := Max(1, Wrap(low * 2)); FirstBound(low) == if high <= low then Wrap(low + 1) else high
    ensures low < FirstBound(low) < TWO63
  {
    var x :| x in ids && x > low;
  }

  /** The doubling loop; a negative bound stands for the range error. */
  method Double(ids: set<int>, start: int, first: int) returns (high: int, low: int)
    requires 0 <= start < first < TWO63 && HasAfter(ids, start)
    ensures if HasAfter(ids, LastBound(first)) then high < 0
            else start <= low < high < TWO63 && HasAfter(ids, low) && !HasAfter(ids, high)
  {
    high, low := first, start;
    LastBoundFacts(first);
    while HasAfter(ids, high)
      invariant start <= low < high < TWO63 && HasAfter(ids, low)
      invariant high <= LastBound(high) == LastBound(first)
      decreases TWO63 - high
    {
      low := high;
      if high > TWO62 - 1 { return -1, low; }
      high := Wrap(high * 2);
      LastBoundFacts(high);
    }
    assert !HasAfter(ids, LastBound(first)) by {
      forall id | id in ids ensures id <= LastBound(first) { assert id <= high; }
    }
  }
}
