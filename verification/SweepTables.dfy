/** The sweep's tables as the store updates them. */
module SweepTables {
  import opened Prelude
  import opened RangeDivision
  import opened Sweep

  class Tables {
    var runs: seq<Run>
    var shards: seq<Shard>
    var highwater: int
    var tokens: nat

    function Database(): Db
      reads this
    {
      Db(runs, shards, highwater, tokens)
    }

    constructor ()
      ensures Database() == Db([], [], 0, 0)
    {
      runs, shards, highwater, tokens := [], [], 0, 0;
    }

    /** EnsureEntitySweepRun: nothing while a run is active or none is due, otherwise the next run and its shards. */
    method EnsureSweepRun(shardCount: int, batchSize: int, elapsed: bool) returns (created: bool)
      modifies this`runs, this`shards
      ensures Database() == EnsureRun(old(Database()), shardCount, batchSize, elapsed)
      ensures created <==> NextRange(old(Database()), elapsed).Some?
    {
      var workers := shardCount;
      if workers < 1 { workers := 1; }
      if workers > 64 { workers := 64; }
      var batch := Min(Max(batchSize, 25), 250);
      if Active(runs) || highwater < 1 { return false; }
      var maximumUpper := MaxUpper(runs);
      var lowerID := 1;
      if maximumUpper == 0 {
      } else if maximumUpper < highwater {
        lowerID := maximumUpper + 1;
      } else if FullSweepDone(runs) && !elapsed {
        return false;
      }
      var total := highwater - lowerID + 1;
      var pieces := Min(workers * 4, total);
      InsertShards(|runs|, lowerID, total, pieces, batch);
      runs := runs + [Run(lowerID, highwater, true)];
      created := true;
    }

    method InsertShards(run: nat, lowerID: int, total: int, pieces: int, batch: int)
      requires 1 <= pieces
      modifies this`shards
      ensures shards == old(shards) + NewShards(run, ProportionalPieces(lowerID - 1, lowerID - 1 + total, pieces), batch)
    {
      ghost var ps := ProportionalPieces(lowerID - 1, lowerID - 1 + total, pieces);
      var part := 0;
      assert ps[..0] == [] && NewShards(run, [], batch) == [];
      while part < pieces
        invariant 0 <= part <= pieces
        invariant shards == old(shards) + NewShards(run, ps[..part], batch)
      {
        var lower, upper := ShardBounds(lowerID, total, pieces, part);
        shards := shards + [Shard(run, lower, upper, lower, Pending, None, None, batch)];
        assert NewShards(run, ps[..part + 1], batch) == NewShards(run, ps[..part], batch) + [NewShard(run, ps[part], batch)];
        part := part + 1;
      }
      assert ps[..part] == ps;
    }

    /** Inclusive bounds of one shard. */
    method ShardBounds(lowerID: int, total: int, pieces: int, part: int) returns (lower: int, upper: int)
      requires 0 <= part < pieces
      ensures Piece(lower - 1, upper) == ProportionalPieces(lowerID - 1, lowerID - 1 + total, pieces)[part]
    {
      lower := lowerID + total * part / pieces;
      upper := lowerID + total * (part + 1) / pieces - 1;
    }

    /** ClaimEntitySweepShard: of the claimable shards the one with the least next ID, the oldest of equals. */
    method ClaimShard(now: int) returns (claim: Option<Local>)
      modifies this`shards, this`tokens
      ensures claim.None? ==> Database() == old(Database()) && forall s: nat :: !Claimable(old(Database()), s)
      ensures claim.Some? ==>
                && Claimable(old(Database()), claim.value.shard)
                && Database() == Claim(old(Database()), claim.value.shard, now)
                && claim.value.token == old(tokens) && claim.value.next == old(shards)[claim.value.shard].next
                && (forall s: nat :: Claimable(old(Database()), s) ==> claim.value.next <= old(shards)[s].next)
    {
      var best: Option<nat> := None;
      var s := 0;
      while s < |shards|
        invariant 0 <= s <= |shards|
        invariant best.None? ==> forall t: nat :: t < s ==> !Claimable(Database(), t)
        invariant best.Some? ==> best.value < s && Claimable(Database(), best.value)
        invariant best.Some? ==> forall t: nat :: t < s && Claimable(Database(), t) ==> shards[best.value].next <= shards[t].next
      {
        if Claimable(Database(), s) && (best.None? || shards[s].next < shards[best.value].next) { best := Some(s); }
        s := s + 1;
      }
      if best.None? { return None; }
      var shard := shards[best.value];
      claim := Some(Local(best.value, shard.run, shard.upper, shard.next, shard.batch, tokens, Ready));
      shards := shards[best.value := shard.(status := Running, token := Some(tokens), lease := Some(now + LEASE))];
      tokens := tokens + 1;
    }

    /** AdvanceEntitySweepShard. */
    method AdvanceShard(l: Local, nextID: int, batchSize: int, now: int) returns (ok: bool)
      modifies this`shards, this`runs
      ensures Database() == Advance(old(Database()), l, nextID, batchSize, now)
      ensures ok <==> !AdvanceRefused(old(Database()), l, nextID)
    {
      if nextID <= l.next || nextID > l.upper + 1 { return false; }
      if l.shard >= |shards| { return false; }
      var shard := shards[l.shard];
      if shard.token != Some(l.token) || !shard.status.Running? || shard.next != l.next { return false; }
      shard := shard.(next := nextID, batch := Min(Max(batchSize, 25), 250));
      if nextID == l.upper + 1 {
        shard := shard.(status := Completed, token := None, lease := None);
      } else {
        shard := shard.(lease := Some(now + LEASE));
      }
      shards := shards[l.shard := shard];
      if l.run < |runs| && !Unfinished(shards, l.run) {
        runs := runs[l.run := runs[l.run].(running := false)];
      }
      ok := true;
    }

    method RequeueShard(l: Local, batchSize: int) returns (ok: bool)
      modifies this`shards
      ensures Database() == Requeue(old(Database()), l, batchSize)
      ensures ok <==> Holds(old(Database()), l)
    {
      if l.shard >= |shards| || shards[l.shard].token != Some(l.token) || !shards[l.shard].status.Running? { return false; }
      shards := shards[l.shard := shards[l.shard].(status := Retry, token := None, lease := None, batch := Min(Max(batchSize, 25), 250))];
      ok := true;
    }

    method ReapExpired(now: int) returns (count: nat)
      modifies this`shards
      ensures Database() == Reap(old(Database()), now)
    {
      count := 0;
      var s := 0;
      while s < |shards|
        invariant 0 <= s <= |shards| == |old(shards)|
        invariant forall t :: 0 <= t < s ==> shards[t] == Reap(old(Database()), now).shards[t]
        invariant forall t :: s <= t < |shards| ==> shards[t] == old(shards)[t]
      {
        if shards[s].status.Running? && shards[s].lease.Some? && shards[s].lease.value < now {
          shards := shards[s := shards[s].(status := Retry, token := None, lease := None)];
          count := count + 1;
        }
        s := s + 1;
      }
      assert shards == Reap(old(Database()), now).shards;
    }
  }

  /** A claimed shard, or one whose checkpoint just moved, survives every reaping within two hours and none later. */
  lemma LeaseHolds(db: Db, s: nat, l: Local, nextID: int, batch: int, now: int, later: int)
    requires Claimable(db, s) && !AdvanceRefused(db, l, nextID)
    ensures Reap(Claim(db, s, now), later).shards[s].status.Running? <==> later <= now + LEASE
    ensures nextID <= l.upper ==>
              (Reap(Advance(db, l, nextID, batch, now), later).shards[l.shard].status.Running? <==> later <= now + LEASE)
  {
  }
}
