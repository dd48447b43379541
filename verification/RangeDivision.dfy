/**
 The four integer range splitters: the primary shards of a run, the repair
 shards, the mid-flight split of an owned shard, and the shards of a sweep run.

 A piece (lo, hi) stands for the IDs lo < id <= hi.  The sweep's inclusive
 ranges [lo, hi-1] use the same boundaries shifted by one.
 */
module RangeDivision {
  import opened Prelude

  datatype Piece = Piece(lo: int, hi: int)

  const INT64_MAX: int := 0x7fff_ffff_ffff_ffff

  predicate Consecutive(pieces: seq<Piece>) {
    && (forall i :: 0 <= i < |pieces| ==> pieces[i].lo < pieces[i].hi)
    && (forall i :: 0 < i < |pieces| ==> pieces[i - 1].hi == pieces[i].lo)
  }

  /** The pieces are non-empty, follow each other and cut lo..hi without remainder. */
  predicate Tiles(pieces: seq<Piece>, lo: int, hi: int) {
    && Consecutive(pieces)
    && (if |pieces| == 0 then lo == hi else pieces[0].lo == lo && pieces[|pieces| - 1].hi == hi)
  }

  predicate Inside(p: Piece, x: int) { p.lo < x <= p.hi }

  /** Boundaries of a consecutive list only grow. */
  lemma {:induction false} BoundsGrow(pieces: seq<Piece>, i: nat, j: nat)
    requires Consecutive(pieces) && i < j < |pieces|
    ensures pieces[i].hi <= pieces[j].lo
  {
    if i + 1 < j { BoundsGrow(pieces, i, j - 1); }
  }

  lemma {:induction false} FindPiece(pieces: seq<Piece>, lo: int, hi: int, x: int) returns (k: nat)
    requires Tiles(pieces, lo, hi) && lo < x <= hi
    ensures k < |pieces| && Inside(pieces[k], x)
  {
    k := |pieces| - 1;
    while !(pieces[k].lo < x)
      invariant k < |pieces| && x <= pieces[k].hi
      decreases k
    {
      k := k - 1;
    }
  }

  /** Every piece lies in the range. */
  lemma PieceWithin(pieces: seq<Piece>, lo: int, hi: int, k: nat)
    requires Tiles(pieces, lo, hi) && k < |pieces|
    ensures lo <= pieces[k].lo < pieces[k].hi <= hi
  {
    if 0 < k { BoundsGrow(pieces, 0, k); }
    if k < |pieces| - 1 { BoundsGrow(pieces, k, |pieces| - 1); }
  }

  /** Tiling is exact: an ID lies in the range iff it lies in a piece, and then in only one. */
  lemma TilesExactly(pieces: seq<Piece>, lo: int, hi: int, x: int)
    requires Tiles(pieces, lo, hi) && lo <= hi
    ensures lo < x <= hi <==> exists k :: 0 <= k < |pieces| && Inside(pieces[k], x)
    ensures forall i, j :: 0 <= i < |pieces| && 0 <= j < |pieces| && Inside(pieces[i], x) && Inside(pieces[j], x) ==> i == j
  {
    if lo < x <= hi {
      var k := FindPiece(pieces, lo, hi, x);
    }
    forall k | 0 <= k < |pieces| && Inside(pieces[k], x)
      ensures lo < x <= hi
    {
      if 0 < k { BoundsGrow(pieces, 0, k); }
      if k < |pieces| - 1 { BoundsGrow(pieces, k, |pieces| - 1); }
    }
    forall i, j | 0 <= i < |pieces| && 0 <= j < |pieces| && Inside(pieces[i], x) && Inside(pieces[j], x)
      ensures i == j
    {
      if i < j { BoundsGrow(pieces, i, j); }
      if j < i { BoundsGrow(pieces, j, i); }
    }
  }

  // ------------------------------------------------------- primary shards

  function PrimarySpan(next: int, cutoff: int, count: int): int
    requires count >= 1
  {
    if (cutoff - next) / count < 1 then 1 else (cutoff - next) / count
  }

  /** The shards still to be cut when `index` shards have been cut up to `lower`. */
  function PrimaryFrom(lower: int, cutoff: int, span: int, index: int, count: int): seq<Piece>
    decreases count - index
  {
    if index < count && lower < cutoff then
      var upper := if index == count - 1 || lower + span > cutoff then cutoff else lower + span;
      [Piece(lower, upper)] + PrimaryFrom(upper, cutoff, span, index + 1, count)
    else []
  }

  function PrimaryPieces(next: int, cutoff: int, count: int): seq<Piece>
    requires count >= 1
  {
    PrimaryFrom(next, cutoff, PrimarySpan(next, cutoff, count), 0, count)
  }

  lemma {:induction false} PrimaryFromTiles(lower: int, cutoff: int, span: int, index: int, count: int)
    requires 1 <= span && lower <= cutoff && 0 <= index <= count
    requires index == count ==> lower == cutoff
    ensures Tiles(PrimaryFrom(lower, cutoff, span, index, count), lower, cutoff)
    ensures |PrimaryFrom(lower, cutoff, span, index, count)| <= count - index
    decreases count - index
  {
    if index < count && lower < cutoff {
      var upper := if index == count - 1 || lower + span > cutoff then cutoff else lower + span;
      PrimaryFromTiles(upper, cutoff, span, index + 1, count);
    }
  }

  lemma PrimaryTiles(next: int, cutoff: int, count: int)
    requires next < cutoff && count >= 2
    ensures Tiles(PrimaryPieces(next, cutoff, count), next, cutoff)
    ensures 1 <= |PrimaryPieces(next, cutoff, count)| <= count
  {
    PrimaryFromTiles(next, cutoff, PrimarySpan(next, cutoff, count), 0, count);
  }

  // ------------------------------------ proportional: repair and sweep shards

  function Boundary(lo: int, hi: int, count: int, i: int): int
    requires count >= 1
  {
    lo + (hi - lo) * i / count
  }

  function ProportionalPieces(lo: int, hi: int, count: int): (r: seq<Piece>)
    requires count >= 1
  {
    seq(count, i => Piece(Boundary(lo, hi, count, i), Boundary(lo, hi, count, i + 1)))
  }

  lemma {:induction false} PositiveProduct(a: int, b: int)
    requires a >= 1 && b >= 0
    ensures a * b >= b
  {
    assert a * b == (a - 1) * b + b;
    assert (a - 1) * b >= 0;
  }

  /** A quotient is fixed by any decomposition with a proper remainder. */
  lemma UniqueQuotient(n: int, d: int, m: int, count: int)
    requires count >= 1 && 0 <= m < count && n == d * count + m
    ensures n / count == d
  {
    var d', m' := n / count, n % count;
    assert n == d' * count + m';
    assert (d - d') * count == d * count - d' * count;
    assert (d' - d) * count == d' * count - d * count;
    if d > d' { PositiveProduct(d - d', count); }
    if d < d' { PositiveProduct(d' - d, count); }
  }

  /** A proportional piece has the floor or the ceiling of the mean size. */
  lemma ProportionalStep(lo: int, hi: int, count: int, i: int)
    requires count >= 1 && lo <= hi && 0 <= i < count
    ensures (hi - lo) / count <= Boundary(lo, hi, count, i + 1) - Boundary(lo, hi, count, i) <= (hi - lo) / count + 1
  {
    QuotientStep(hi - lo, i, count);
  }

  lemma QuotientStep(span: int, i: int, count: int)
    requires count >= 1
    ensures span / count <= span * (i + 1) / count - span * i / count <= span / count + 1
  {
    var q, r := span / count, span % count;
    var n := span * i;
    var d, m := n / count, n % count;
    assert span * (i + 1) == n + span;
    assert n + span == (d + q) * count + (m + r) by {
      assert n == d * count + m && span == q * count + r;
      assert (d + q) * count == d * count + q * count;
    }
    if m + r < count {
      UniqueQuotient(n + span, d + q, m + r, count);
    } else {
      assert (d + q + 1) * count == (d + q) * count + count;
      UniqueQuotient(n + span, d + q + 1, m + r - count, count);
    }
  }

  lemma BoundaryEnds(lo: int, hi: int, count: int)
    requires count >= 1
    ensures Boundary(lo, hi, count, 0) == lo && Boundary(lo, hi, count, count) == hi
  {
    UniqueQuotient((hi - lo) * count, hi - lo, 0, count);
    assert (hi - lo) * 0 == 0;
  }

  lemma MeanAtLeastOne(span: int, count: int)
    requires 1 <= count <= span
    ensures span / count >= 1
  {
    var d, m := span / count, span % count;
    assert span == d * count + m;
  }

  /** Repair and sweep shards: exact, non-empty, of sizes that differ by at most one. */
  lemma ProportionalTiles(lo: int, hi: int, count: int)
    requires 1 <= count <= hi - lo
    ensures Tiles(ProportionalPieces(lo, hi, count), lo, hi)
    ensures |ProportionalPieces(lo, hi, count)| == count
    ensures var p := ProportionalPieces(lo, hi, count);
            forall i, j :: 0 <= i < count && 0 <= j < count ==>
              -1 <= (p[i].hi - p[i].lo) - (p[j].hi - p[j].lo) <= 1
  {
    var p := ProportionalPieces(lo, hi, count);
    BoundaryEnds(lo, hi, count);
    MeanAtLeastOne(hi - lo, count);
    forall i | 0 <= i < count
      ensures (hi - lo) / count <= p[i].hi - p[i].lo <= (hi - lo) / count + 1
    {
      ProportionalStep(lo, hi, count, i);
    }
  }

  // --------------------------------------- splitting a shard while it is owned

  function RebalanceBoundary(next: int, upper: int, pieces: int, i: int): int
    requires pieces >= 1
  {
    if i == pieces then upper else next + (upper - next) / pieces * i
  }

  function RebalancePieces(next: int, upper: int, pieces: int): seq<Piece>
    requires pieces >= 1
  {
    seq(pieces, i => Piece(RebalanceBoundary(next, upper, pieces, i), RebalanceBoundary(next, upper, pieces, i + 1)))
  }

  lemma RebalanceTiles(next: int, upper: int, pieces: int)
    requires pieces >= 1 && upper - next >= pieces * 100
    ensures Tiles(RebalancePieces(next, upper, pieces), next, upper)
    ensures |RebalancePieces(next, upper, pieces)| == pieces
    ensures var p := RebalancePieces(next, upper, pieces); forall i :: 0 <= i < pieces ==> p[i].hi - p[i].lo >= 100
  {
    var step := (upper - next) / pieces;
    var rem := (upper - next) % pieces;
    assert upper - next == step * pieces + rem;
    assert step >= 100 by {
      if step <= 99 { MulMono(pieces, step, 99); }
    }
    var p := RebalancePieces(next, upper, pieces);
    assert next + step * 0 == next;
    forall i | 0 <= i < pieces
      ensures p[i].hi - p[i].lo >= 100
    {
      assert step * (i + 1) == step * i + step;
      if i == pieces - 1 { assert step * pieces == step * (pieces - 1) + step; }
    }
  }

  // ------------------------------------------------------- machine arithmetic

  /**
   For IDs below 2^54 no product or sum formed by the splitters leaves int64:
   a repair uses at most 64 shards, a sweep at most 4 * 64, a split at most the
   configured number of workers.
   */
  lemma FitsInt64(lo: int, hi: int, count: int, i: int)
    requires 0 <= lo <= hi < 0x40_0000_0000_0000 && 1 <= count <= 256 && 0 <= i <= count
    ensures 0 <= (hi - lo) * i <= INT64_MAX && lo <= Boundary(lo, hi, count, i) <= hi
    ensures 0 <= (hi - lo) / count * i <= hi - lo
    ensures lo + PrimarySpan(lo, hi, count) <= INT64_MAX
  {
    ShareBounds(hi - lo, count, i);
    MulMono(hi - lo, i, 256);
  }

  lemma ShareBounds(span: int, count: int, i: int)
    requires 0 <= span && 1 <= count && 0 <= i <= count
    ensures 0 <= span * i <= span * count
    ensures 0 <= span * i / count <= span
    ensures 0 <= span / count <= span && 0 <= span / count * i <= span
  {
    MulMono(span, i, count);
    MulMono(span, 0, i);
    DivMono(span * i, span * count, count);
    UniqueQuotient(span * count, span, 0, count);
    FloorShare(span, count, i);
  }

  lemma FloorShare(span: int, count: int, i: int)
    requires 0 <= span && 1 <= count && 0 <= i <= count
    ensures 0 <= span / count <= span && 0 <= span / count * i <= span
  {
    var d, m := span / count, span % count;
    assert span == d * count + m;
    DivMono(0, span, count);
    MulMono(d, 0, i);
    MulMono(d, i, count);
    MulMono(d, 1, count);
  }

  lemma MulMono(a: int, b: int, c: int)
    requires a >= 0 && b <= c
    ensures a * b <= a * c
  {
    assert a * c - a * b == a * (c - b);
  }

  lemma DivMono(a: int, b: int, count: int)
    requires 0 <= a <= b && count >= 1
    ensures 0 <= a / count <= b / count
  {
    var p, q := a / count, b / count;
    assert a == p * count + a % count && b == q * count + b % count;
    assert (p - q) * count == p * count - q * count;
    if q < p { PositiveProduct(p - q, count); }
    assert p * count == (p + 1) * count - count;
  }
}
