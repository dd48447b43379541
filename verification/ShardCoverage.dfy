/**
 The shard rows of a run, whatever their status, cover every range the run was ever
 cut from: rows are never removed, and a split hands over exactly what it takes.
 Without repairs nothing is added to those ranges once the run has a shard.
 */
module ShardCoverage {
  import opened Prelude
  import opened RangeDivision
  import opened EnumerationPage
  import opened WorkTables
  import opened WorkProtocol
  import opened ShardProofs
  import opened WorkTheorems

  /** The ID lies in the range of some shard row of the run. */
  ghost predicate Cut(shards: map<nat, Shard>, run: nat, x: int) {
    exists s :: s in shards && shards[s].run == run && shards[s].lower < x <= shards[s].upper
  }

  ghost predicate Covering(shards: map<nat, Shard>, seeded: map<nat, set<Piece>>) {
    forall r, x :: r in seeded && Seeded(seeded[r], x) ==> Cut(shards, r, x)
  }

  /** Rows stay where they are; others may be added. */
  ghost predicate SameRanges(shards: map<nat, Shard>, shards': map<nat, Shard>) {
    forall s :: s in shards ==>
      && s in shards' && shards'[s].run == shards[s].run
      && shards'[s].lower == shards[s].lower && shards'[s].upper == shards[s].upper
  }

  lemma StaysCut(shards: map<nat, Shard>, shards': map<nat, Shard>, r: nat, x: int)
    requires SameRanges(shards, shards') && Cut(shards, r, x)
    ensures Cut(shards', r, x)
  {
    var s :| s in shards && shards[s].run == r && shards[s].lower < x <= shards[s].upper;
    assert s in shards' && shards'[s].run == r;
  }

  // ------------------------------------------------------------- new ranges

  lemma NewlyCut(shards: map<nat, Shard>, unused: nat, run: nat, repair: bool, pieces: seq<Piece>, lo: int, hi: int, x: int)
    requires (forall s :: s in shards ==> s < unused) && Tiles(pieces, lo, hi) && lo < x <= hi
    ensures Cut(AddShards(shards, unused, run, repair, pieces), run, x)
  {
    var k := FindPiece(pieces, lo, hi, x);
    var shards' := AddShards(shards, unused, run, repair, pieces);
    assert unused + k in shards' && shards'[unused + k] == NewShard(run, repair, pieces[k]);
  }

  lemma SeededCovering(shards: map<nat, Shard>, unused: nat, run: nat, repair: bool, pieces: seq<Piece>, lo: int, hi: int,
                       seeded: map<nat, set<Piece>>)
    requires (forall s :: s in shards ==> s < unused) && Tiles(pieces, lo, hi)
    requires Covering(shards, seeded) && run in seeded
    ensures Covering(AddShards(shards, unused, run, repair, pieces), seeded[run := seeded[run] + {Piece(lo, hi)}])
  {
    var shards' := AddShards(shards, unused, run, repair, pieces);
    var seeded' := seeded[run := seeded[run] + {Piece(lo, hi)}];
    forall r, x | r in seeded' && Seeded(seeded'[r], x)
      ensures Cut(shards', r, x)
    {
      var p :| p in seeded'[r] && Inside(p, x);
      if p in seeded[r] {
        assert Seeded(seeded[r], x);
        StaysCut(shards, shards', r, x);
      } else {
        NewlyCut(shards, unused, run, repair, pieces, lo, hi, x);
      }
    }
  }

  lemma SplitCut(shards: map<nat, Shard>, s: nat, pieces: seq<Piece>, unused: nat, r: nat, x: int)
    requires s in shards && |pieces| > 0 && (forall t :: t in shards ==> t < unused)
    requires Tiles(pieces, shards[s].next, shards[s].upper) && Cut(shards, r, x)
    ensures Cut(SplitShards(shards, s, pieces, unused), r, x)
  {
    var shards' := SplitShards(shards, s, pieces, unused);
    var t :| t in shards && shards[t].run == r && shards[t].lower < x <= shards[t].upper;
    if t != s || x <= pieces[0].hi {
      assert t in shards' && shards'[t].run == r;
    } else {
      var k := FindPiece(pieces, shards[s].next, shards[s].upper, x);
      assert unused + (k - 1) in shards' && shards'[unused + (k - 1)] == NewShard(r, shards[s].repair, pieces[k]);
    }
  }

  lemma SplitCovering(shards: map<nat, Shard>, s: nat, pieces: seq<Piece>, unused: nat, seeded: map<nat, set<Piece>>)
    requires s in shards && |pieces| > 0 && (forall t :: t in shards ==> t < unused)
    requires Tiles(pieces, shards[s].next, shards[s].upper) && Covering(shards, seeded)
    ensures Covering(SplitShards(shards, s, pieces, unused), seeded)
  {
    forall r, x | r in seeded && Seeded(seeded[r], x)
      ensures Cut(SplitShards(shards, s, pieces, unused), r, x)
    {
      SplitCut(shards, s, pieces, unused, r, x);
    }
  }

  // -------------------------------------------------------------- every step

  lemma OwnedShard(listing: Listing, w: World, worker: nat)
    requires Inv(listing, w) && worker in w.owned
    ensures LocalOk(w.db.shards, w.owned[worker])
  {
  }

  lemma PrimaryCovering(listing: Listing, w: World, run: nat, count: int)
    requires Inv(listing, w) && Covering(w.db.shards, w.past.seeded)
    ensures var w' := StepSeedPrimary(w, run, count); Covering(w'.db.shards, w'.past.seeded)
  {
    if StepSeedPrimary(w, run, count) != w {
      RunFact(listing, w, run);
      var lo, hi := w.db.runs[run].nextSince, w.db.runs[run].cutoff.value;
      PrimaryTiles(lo, hi, count);
      SeededCovering(w.db.shards, w.db.unused, run, false, PrimaryPieces(lo, hi, count), lo, hi, w.past.seeded);
    }
  }

  lemma RepairCovering(listing: Listing, w: World, run: nat, lower: int, upper: int, count: int)
    requires Inv(listing, w) && Covering(w.db.shards, w.past.seeded)
    ensures var w' := StepAddRepair(w, run, lower, upper, count); Covering(w'.db.shards, w'.past.seeded)
  {
    if !RepairRefused(w.db, run, lower, upper, count) {
      RunFact(listing, w, run);
      ProportionalTiles(lower, upper, count);
      SeededCovering(w.db.shards, w.db.unused, run, true, ProportionalPieces(lower, upper, count), lower, upper, w.past.seeded);
    }
  }

  lemma OwnerCovering(listing: Listing, w: World, worker: nat, desired: int)
    requires Inv(listing, w) && Covering(w.db.shards, w.past.seeded)
    ensures var w' := StepSplit(w, worker, desired); Covering(w'.db.shards, w'.past.seeded)
  {
    if Owns(w, worker) {
      OwnedShard(listing, w, worker);
      var pieces := SplitCases(w, worker, desired);
      if |pieces| > 0 { SplitCovering(w.db.shards, w.owned[worker].shard, pieces, w.db.unused, w.past.seeded); }
    }
  }

  predicate RangeOp(op: Op) { op.SeedPrimary? || op.AddRepair? || op.SplitOwned? }

  lemma RecoveredRanges(db: Db, now: int)
    ensures SameRanges(db.shards, Recover(db, now).shards)
  {
  }

  lemma PageRanges(w: World, worker: nat, page: Page)
    ensures SameRanges(w.db.shards, StepTakePage(w, worker, page).db.shards)
    ensures StepTakePage(w, worker, page).past.seeded == w.past.seeded
  {
  }

  lemma OtherOpRanges(w: World, op: Op)
    requires ShardOp(op) && !RangeOp(op) && !op.StartRun?
    ensures SameRanges(w.db.shards, Step(w, op).db.shards) && Step(w, op).past.seeded == w.past.seeded
  {
    if op.Restart? { RecoveredRanges(w.db, op.now); } else if op.TakePage? { PageRanges(w, op.worker, op.page); }
  }

  lemma OtherCovering(w: World, op: Op)
    requires Covering(w.db.shards, w.past.seeded) && !RangeOp(op)
    ensures Covering(Step(w, op).db.shards, Step(w, op).past.seeded)
  {
    if op.StartRun? {
    } else if ShardOp(op) {
      OtherOpRanges(w, op);
    } else {
      QueueOpShards(w, op);
    }
  }

  lemma StepCovering(listing: Listing, w: World, op: Op)
    requires Inv(listing, w) && Covering(w.db.shards, w.past.seeded)
    ensures Covering(Step(w, op).db.shards, Step(w, op).past.seeded)
  {
    if op.SeedPrimary? {
      PrimaryCovering(listing, w, op.run, op.count);
    } else if op.AddRepair? {
      RepairCovering(listing, w, op.run, op.lower, op.upper, op.count);
    } else if op.SplitOwned? {
      OwnerCovering(listing, w, op.worker, op.desired);
    } else {
      OtherCovering(w, op);
    }
  }

  lemma {:induction false} EveryRunCovers(listing: Listing, anomalies: map<int, Option<nat>>, unused: nat, ops: seq<Op>)
    requires WellFormed(listing) && Legal(listing, Init(anomalies, unused), ops)
    ensures var w := Execute(Init(anomalies, unused), ops); Covering(w.db.shards, w.past.seeded)
  {
    if |ops| > 0 {
      EveryRunCovers(listing, anomalies, unused, ops[..|ops| - 1]);
      EveryRunKeeps(listing, anomalies, unused, ops[..|ops| - 1]);
      StepCovering(listing, Execute(Init(anomalies, unused), ops[..|ops| - 1]), ops[|ops| - 1]);
    }
  }

  lemma ReachableCovers(listing: Listing, w: World)
    requires WellFormed(listing) && Reachable(listing, w)
    ensures Covering(w.db.shards, w.past.seeded)
  {
    var anomalies, unused, ops :| Legal(listing, Init(anomalies, unused), ops) && w == Execute(Init(anomalies, unused), ops);
    EveryRunCovers(listing, anomalies, unused, ops);
  }

  /** In every reachable state the shard rows of a run cover exactly the ranges it was cut from. */
  lemma RowsCoverExactly(listing: Listing, w: World, run: nat, x: int)
    requires WellFormed(listing) && Reachable(listing, w) && run in w.db.runs
    ensures run in w.past.seeded && (Cut(w.db.shards, run, x) <==> Seeded(w.past.seeded[run], x))
  {
    ReachableCovers(listing, w);
    ReachableInv(listing, w);
    RunFact(listing, w, run);
  }

  // ------------------------------------------------------ without repairs

  lemma SplitRemains(w: World, worker: nat, desired: int, s: nat)
    requires s in w.db.shards && worker in w.owned && LocalOk(w.db.shards, w.owned[worker])
    ensures var shards' := StepSplit(w, worker, desired).db.shards; s in shards' && shards'[s].run == w.db.shards[s].run
  {
    if Owns(w, worker) {
      var pieces := SplitCases(w, worker, desired);
    }
  }

  lemma SeedRemains(w: World, op: Op)
    requires op.SeedPrimary? || op.AddRepair? || op.StartRun?
    ensures SameRanges(w.db.shards, Step(w, op).db.shards)
  {
  }

  lemma ShardRemains(listing: Listing, w: World, op: Op, s: nat)
    requires Inv(listing, w) && s in w.db.shards
    ensures s in Step(w, op).db.shards && Step(w, op).db.shards[s].run == w.db.shards[s].run
  {
    if op.SplitOwned? {
      if op.worker in w.owned {
        OwnedShard(listing, w, op.worker);
        SplitRemains(w, op.worker, op.desired, s);
      }
    } else if op.SeedPrimary? || op.AddRepair? || op.StartRun? {
      SeedRemains(w, op);
    } else if ShardOp(op) {
      OtherOpRanges(w, op);
    } else {
      QueueOpShards(w, op);
    }
  }

  lemma ShardsRemain(listing: Listing, w: World, op: Op, run: nat)
    requires Inv(listing, w) && HasShards(w.db.shards, run)
    ensures HasShards(Step(w, op).db.shards, run)
  {
    var s :| s in w.db.shards && w.db.shards[s].run == run;
    ShardRemains(listing, w, op, s);
  }

  lemma SeededSame(w: World, op: Op, run: nat)
    requires HasShards(w.db.shards, run) && run in w.past.seeded && run < w.db.unused && !Repairs(op, run)
    ensures run in Step(w, op).past.seeded && Step(w, op).past.seeded[run] == w.past.seeded[run]
  {
    if op.StartRun? || RangeOp(op) {
    } else if ShardOp(op) {
      OtherOpRanges(w, op);
    } else {
      QueueOpShards(w, op);
    }
  }

  lemma StepAddsNothing(listing: Listing, w: World, op: Op, run: nat)
    requires Inv(listing, w) && run in w.db.runs && HasShards(w.db.shards, run) && !Repairs(op, run)
    ensures run in Step(w, op).db.runs && HasShards(Step(w, op).db.shards, run)
    ensures run in w.past.seeded && run in Step(w, op).past.seeded && Step(w, op).past.seeded[run] == w.past.seeded[run]
  {
    RunFact(listing, w, run);
    RunsStay(w, op, run);
    ShardsRemain(listing, w, op, run);
    SeededSame(w, op, run);
  }

  lemma {:induction false} NothingAdded(listing: Listing, w: World, ops: seq<Op>, run: nat)
    requires Inv(listing, w) && Legal(listing, w, ops) && run in w.db.runs && HasShards(w.db.shards, run)
    requires forall k :: 0 <= k < |ops| ==> !Repairs(ops[k], run)
    ensures run in Execute(w, ops).db.runs && HasShards(Execute(w, ops).db.shards, run)
    ensures run in w.past.seeded && run in Execute(w, ops).past.seeded
    ensures Execute(w, ops).past.seeded[run] == w.past.seeded[run]
  {
    if |ops| == 0 {
      RunFact(listing, w, run);
    } else {
      NothingAdded(listing, w, ops[..|ops| - 1], run);
      Onwards(listing, w, ops[..|ops| - 1]);
      StepAddsNothing(listing, Execute(w, ops[..|ops| - 1]), ops[|ops| - 1], run);
    }
  }

  // ------------------------------------------------ exactly when a gap remains

  /** Every user up to the cutoff lies in the range of some shard row of the run. */
  ghost predicate UsersCut(listing: Listing, shards: map<nat, Shard>, run: nat, cutoff: int) {
    forall x :: x in listing.users && 0 < x <= cutoff ==> Cut(shards, run, x)
  }

  /** What EnsureEnumerationShards does to that: it makes it true, or the run has shards and it stays as it is. */
  lemma PrimaryCuts(listing: Listing, w: World, run: nat, count: int, cutoff: int)
    requires WellFormed(listing) && Reachable(listing, w)
    requires run in w.db.runs && w.db.runs[run].cutoff == Some(cutoff) && count >= 2
    ensures UsersCut(listing, StepSeedPrimary(w, run, count).db.shards, run, cutoff)
            <==> !HasShards(w.db.shards, run) || UsersCut(listing, w.db.shards, run, cutoff)
    ensures HasShards(StepSeedPrimary(w, run, count).db.shards, run) <==> cutoff > 0 || HasShards(w.db.shards, run)
  {
    ReachableInv(listing, w);
    RunFact(listing, w, run);
    var w' := StepSeedPrimary(w, run, count);
    if !HasShards(w.db.shards, run) && cutoff > 0 {
      PrimaryTiles(0, cutoff, count);
      assert EnsureEnumerationShards(w.db, run, count).unused > w.db.unused;
      forall x | 0 < x <= cutoff ensures Cut(w'.db.shards, run, x) {
        NewlyCut(w.db.shards, w.db.unused, run, false, PrimaryPieces(0, cutoff, count), 0, cutoff, x);
      }
      assert Cut(w'.db.shards, run, cutoff);
    }
  }

  /**
   Exactly when every user up to the cutoff is listed.  Whatever happens after
   EnsureEnumerationShards short of another repair of the run, once all shards of the
   run are completed every user up to the cutoff was enqueued if and only if each of
   them lies in the range of some shard row right after that call; in terms of the
   table right before it: the run has no shard yet, or its shards cover them.
   */
  lemma GapIff(listing: Listing, w: World, run: nat, count: int, cutoff: int, ops: seq<Op>)
    requires WellFormed(listing) && Reachable(listing, w)
    requires run in w.db.runs && w.db.runs[run].cutoff == Some(cutoff) && count >= 2
    requires Legal(listing, StepSeedPrimary(w, run, count), ops)
    requires forall k :: 0 <= k < |ops| ==> !Repairs(ops[k], run)
    requires !Unfinished(Execute(StepSeedPrimary(w, run, count), ops).db.shards, run)
    ensures run in Execute(StepSeedPrimary(w, run, count), ops).past.enqueued
    ensures (forall x :: x in listing.users && 0 < x <= cutoff ==>
               x in Execute(StepSeedPrimary(w, run, count), ops).past.enqueued[run])
            <==> UsersCut(listing, StepSeedPrimary(w, run, count).db.shards, run, cutoff)
    ensures UsersCut(listing, StepSeedPrimary(w, run, count).db.shards, run, cutoff)
            <==> !HasShards(w.db.shards, run) || UsersCut(listing, w.db.shards, run, cutoff)
  {
    var w1 := StepSeedPrimary(w, run, count);
    var w' := Execute(w1, ops);
    PrimaryCuts(listing, w, run, count, cutoff);
    Reach(listing, w, SeedPrimary(run, count));
    ReachableInv(listing, w1);
    SeededForGood(listing, w1, ops, run);
    Onwards(listing, w1, ops);
    RunFact(listing, w', run);
    EnqueuedExactly(listing, run, w'.db.runs[run], w'.db.shards, w'.past.enqueued, w'.past.seeded);
    if cutoff > 0 {
      NothingAdded(listing, w1, ops, run);
      forall x ensures Cut(w1.db.shards, run, x) <==> Seeded(w'.past.seeded[run], x) {
        RowsCoverExactly(listing, w1, run, x);
      }
    }
  }
}
