/**
 Cutting, claiming, splitting and returning enumeration shards keeps the invariant.

 Each kind of step has its own way through it:
 - new shards, primary or repair: what was ahead stays ahead, the new range is ahead in
   full (SeedAhead), and the monitor hears of a repair (SeedMonitor);
 - claims, returns and restarts change statuses only (RestatusStep); a shard in progress
   keeps one owner, whose copy is current (ClaimOwners, ReleaseOwners);
 - a split hands the IDs beyond the first piece to new shards, so nothing that was ahead
   is lost (SplitAhead), and shortens the owner's copy (SplitOwners);
 - runs that learn their cutoff or close move no shard (RunRowsKeep), and a new run starts
   without any (StartRunShards).

 None of these steps touches rows or counters (ShardStepKeeps), except a restart, which
 voids all claims.
 */
module ShardProofs {
  import opened Prelude
  import opened RangeDivision
  import opened EnumerationPage
  import opened WorkTables
  import opened WorkProtocol
  import opened WorkProofs
  import O = OverflowScan

  // ----------------------------------------------------------------- shards

  lemma SeedShards(listing: Listing, runs: map<nat, Run>, runs': map<nat, Run>, shards: map<nat, Shard>, owned: map<nat, Local>,
                   enqueued: map<nat, set<int>>, seeded: map<nat, set<Piece>>, unused: nat,
                   run: nat, repair: bool, pieces: seq<Piece>, lo: int, hi: int)
    requires ShardInv(listing, runs, shards, owned, enqueued, seeded, unused)
    requires run in runs && Tiles(pieces, lo, hi) && lo < hi
    requires runs'.Keys == runs.Keys && !runs'[run].enumerationComplete && runs'[run].nextSince == runs[run].nextSince
    requires forall r :: r in runs && r != run ==> runs'[r] == runs[r]
    ensures run in seeded
    ensures ShardInv(listing, runs', AddShards(shards, unused, run, repair, pieces), owned,
                     enqueued, seeded[run := seeded[run] + {Piece(lo, hi)}], unused + |pieces|)
  {
    assert RunOk(listing, run, runs[run], shards, enqueued, seeded);
    SeedShardsOk(runs, runs', shards, seeded, unused, run, repair, pieces, lo, hi);
    SeedRunsOk(listing, runs, runs', shards, enqueued, seeded, unused, run, repair, pieces, lo, hi);
  }

  lemma SeedShardsOk(runs: map<nat, Run>, runs': map<nat, Run>, shards: map<nat, Shard>, seeded: map<nat, set<Piece>>,
                     unused: nat,
                     run: nat, repair: bool, pieces: seq<Piece>, lo: int, hi: int)
    requires ShardsOk(runs, shards, seeded, unused) && run in runs && run in seeded && Tiles(pieces, lo, hi) && runs'.Keys == runs.Keys
    ensures ShardsOk(runs', AddShards(shards, unused, run, repair, pieces), seeded[run := seeded[run] + {Piece(lo, hi)}], unused + |pieces|)
  {
    var shards' := AddShards(shards, unused, run, repair, pieces);
    var seeded' := seeded[run := seeded[run] + {Piece(lo, hi)}];
    forall s | s in shards'
      ensures s < unused + |pieces| && ShardOk(runs', shards'[s], seeded')
    {
      if s in shards {
        assert ShardOk(runs, shards[s], seeded);
      } else {
        PieceWithin(pieces, lo, hi, s - unused);
        assert Piece(lo, hi) in seeded'[run];
      }
    }
  }

  lemma SeedRunsOk(listing: Listing, runs: map<nat, Run>, runs': map<nat, Run>, shards: map<nat, Shard>,
                   enqueued: map<nat, set<int>>, seeded: map<nat, set<Piece>>, unused: nat,
                   run: nat, repair: bool, pieces: seq<Piece>, lo: int, hi: int)
    requires RunsOk(listing, runs, shards, enqueued, seeded, unused) && run in seeded && forall s :: s in shards ==> s < unused
    requires run in runs && Tiles(pieces, lo, hi) && lo < hi
    requires runs'.Keys == runs.Keys && !runs'[run].enumerationComplete && runs'[run].nextSince == runs[run].nextSince
    requires forall r :: r in runs && r != run ==> runs'[r] == runs[r]
    ensures RunsOk(listing, runs', AddShards(shards, unused, run, repair, pieces), enqueued,
                   seeded[run := seeded[run] + {Piece(lo, hi)}], unused + |pieces|)
  {
    forall r | r in runs'
      ensures r < unused + |pieces|
      ensures RunOk(listing, r, runs'[r], AddShards(shards, unused, run, repair, pieces), enqueued, seeded[run := seeded[run] + {Piece(lo, hi)}])
    {
      assert RunOk(listing, r, runs[r], shards, enqueued, seeded);
      SeedRunOk(listing, r, runs[r], runs'[r], shards, enqueued, seeded, unused, run, repair, pieces, lo, hi);
    }
  }

  lemma SeedAhead(shards: map<nat, Shard>, unused: nat, run: nat, repair: bool, pieces: seq<Piece>, lo: int, hi: int,
                  r: nat, x: int)
    requires forall s :: s in shards ==> s < unused
    requires Tiles(pieces, lo, hi)
    ensures Ahead(shards, r, x) ==> Ahead(AddShards(shards, unused, run, repair, pieces), r, x)
    ensures lo < x <= hi ==> Ahead(AddShards(shards, unused, run, repair, pieces), run, x)
  {
    var shards' := AddShards(shards, unused, run, repair, pieces);
    if Ahead(shards, r, x) {
      var s :| s in shards && shards[s].run == r && !shards[s].status.Completed? && shards[s].next < x <= shards[s].upper;
      assert s in shards' && shards'[s] == shards[s];
    }
    if lo < x <= hi {
      var k := FindPiece(pieces, lo, hi, x);
      assert unused + k in shards' && shards'[unused + k] == NewShard(run, repair, pieces[k]);
    }
  }

  lemma SeedOthers(shards: map<nat, Shard>, unused: nat, run: nat, repair: bool, pieces: seq<Piece>, r: nat)
    ensures HasShards(shards, r) ==> HasShards(AddShards(shards, unused, run, repair, pieces), r)
    ensures r != run && Unfinished(AddShards(shards, unused, run, repair, pieces), r) ==> Unfinished(shards, r)
    ensures r != run && HasShards(AddShards(shards, unused, run, repair, pieces), r) ==> HasShards(shards, r)
  {
    var shards' := AddShards(shards, unused, run, repair, pieces);
    if r != run && HasShards(shards', r) {
      var s :| s in shards' && shards'[s].run == r;
      assert s in shards;
    }
    if HasShards(shards, r) {
      var s :| s in shards && shards[s].run == r;
      assert s in shards' && shards'[s].run == r;
    }
    if r != run && Unfinished(shards', r) {
      var s :| s in shards' && shards'[s].run == r && !shards'[s].status.Completed?;
      assert s in shards;
    }
  }

  lemma SeedUnfinished(shards: map<nat, Shard>, unused: nat, run: nat, repair: bool, pieces: seq<Piece>, r: nat)
    requires forall s :: s in shards ==> s < unused
    ensures Unfinished(shards, r) || (|pieces| > 0 && r == run) ==> Unfinished(AddShards(shards, unused, run, repair, pieces), r)
  {
    var shards' := AddShards(shards, unused, run, repair, pieces);
    if Unfinished(shards, r) {
      var s :| s in shards && shards[s].run == r && !shards[s].status.Completed?;
      assert s in shards' && shards'[s] == shards[s];
    } else if |pieces| > 0 {
      assert unused in shards' && shards'[unused] == NewShard(run, repair, pieces[0]);
    }
  }

  lemma SeedRunOk(listing: Listing, r: nat, row: Run, row': Run, shards: map<nat, Shard>,
                  enqueued: map<nat, set<int>>, seeded: map<nat, set<Piece>>, unused: nat,
                  run: nat, repair: bool, pieces: seq<Piece>, lo: int, hi: int)
    requires RunOk(listing, r, row, shards, enqueued, seeded) && run in seeded
    requires forall s :: s in shards ==> s < unused
    requires Tiles(pieces, lo, hi) && lo < hi
    requires row'.nextSince == row.nextSince && (if r == run then !row'.enumerationComplete else row' == row)
    ensures RunOk(listing, r, row', AddShards(shards, unused, run, repair, pieces), enqueued,
                  seeded[run := seeded[run] + {Piece(lo, hi)}])
  {
    var shards' := AddShards(shards, unused, run, repair, pieces);
    var seeded' := seeded[run := seeded[run] + {Piece(lo, hi)}];
    SeedOthers(shards, unused, run, repair, pieces, r);
    SeedUnfinished(shards, unused, run, repair, pieces, r);
    forall x | x in listing.users && Seeded(seeded'[r], x)
      ensures x in enqueued[r] || Ahead(shards', r, x)
    {
      var p :| p in seeded'[r] && Inside(p, x);
      SeedAhead(shards, unused, run, repair, pieces, lo, hi, r, x);
      if p in seeded[r] { assert Seeded(seeded[r], x); }
    }
    forall x | x in enqueued[r]
      ensures Seeded(seeded'[r], x)
    {
      var p :| p in seeded[r] && Inside(p, x);
      assert p in seeded'[r];
    }
  }

  lemma RestatusKeeps(listing: Listing, runs: map<nat, Run>, shards: map<nat, Shard>, shards': map<nat, Shard>,
                      enqueued: map<nat, set<int>>, seeded: map<nat, set<Piece>>, unused: nat)
    requires ShardsOk(runs, shards, seeded, unused) && RunsOk(listing, runs, shards, enqueued, seeded, unused)
    requires SameWork(shards, shards')
    ensures ShardsOk(runs, shards', seeded, unused) && RunsOk(listing, runs, shards', enqueued, seeded, unused)
  {
    forall t | t in shards'
      ensures t < unused && ShardOk(runs, shards'[t], seeded)
    {
      assert ShardOk(runs, shards[t], seeded);
    }
    forall r | r in runs
      ensures r < unused && RunOk(listing, r, runs[r], shards', enqueued, seeded)
    {
    }
  }

  /** Unfinished shards keep their place, whatever their status. */
  ghost predicate SameWork(shards: map<nat, Shard>, shards': map<nat, Shard>) {
    && shards'.Keys == shards.Keys
    && forall s :: s in shards ==>
         && shards'[s] == shards[s].(status := shards'[s].status)
         && (shards'[s].status.Completed? <==> shards[s].status.Completed?)
  }

  // ------------------------------------------------------------ whole states

  ghost predicate SameCounters(a: Run, b: Run) {
    && a.enumerated == b.enumerated && a.attempted == b.attempted && a.processed == b.processed
    && a.zero == b.zero && a.owner == b.owner && a.inaccessible == b.inaccessible && a.errors == b.errors
  }

  /** Steps that touch shards and the progress of runs, but neither queue nor counters. */
  lemma ShardStepKeeps(listing: Listing, w: World, w': World)
    requires Inv(listing, w)
    requires w'.db.queue == w.db.queue && w'.db.anomalies == w.db.anomalies && w'.ow == w.ow
    requires w'.past == w.past.(seeded := w'.past.seeded) && w.db.unused <= w'.db.unused
    requires w'.db.runs.Keys == w.db.runs.Keys && CountInv(w'.db.runs, w'.db.queue)
    requires ShardInv(listing, w'.db.runs, w'.db.shards, w'.owned, w'.past.enqueued, w'.past.seeded, w'.db.unused)
    requires MonitorInv(w'.monitor, w'.past.sound, w'.db, w'.ow.scans)
    ensures Inv(listing, w')
  {
  }

  lemma CountRuns(runs: map<nat, Run>, runs': map<nat, Run>, queue: Queue)
    requires CountInv(runs, queue) && runs'.Keys == runs.Keys
    requires forall r :: r in runs ==> SameCounters(runs[r], runs'[r])
    ensures CountInv(runs', queue)
  {
    forall r | r in runs'
      ensures CountOk(r, runs'[r], queue)
    {
      assert CountOk(r, runs[r], queue);
    }
  }

  lemma SeedPrimaryKeeps(listing: Listing, w: World, run: nat, count: int)
    requires Inv(listing, w)
    ensures Inv(listing, StepSeedPrimary(w, run, count))
  {
    var w' := StepSeedPrimary(w, run, count);
    if w' != w {
      var r := w.db.runs[run];
      assert RunOk(listing, run, r, w.db.shards, w.past.enqueued, w.past.seeded);
      var pieces := PrimaryPieces(r.nextSince, r.cutoff.value, count);
      PrimaryTiles(r.nextSince, r.cutoff.value, count);
      SeedShards(listing, w.db.runs, w.db.runs, w.db.shards, w.owned, w.past.enqueued, w.past.seeded, w.db.unused,
                 run, false, pieces, r.nextSince, r.cutoff.value);
      SeedMonitor(w, w', run, false, pieces);
      ShardStepKeeps(listing, w, w');
    }
  }

  /** New shards disturb no run that is finished or drained, unless it is the one they are for. */
  lemma SeedQuiet(db: Db, db': Db, run: nat, repair: bool, pieces: seq<Piece>, s: O.Scans)
    requires db'.shards == AddShards(db.shards, db.unused, run, repair, pieces)
    requires db'.queue == db.queue && db'.anomalies == db.anomalies && db'.runs.Keys == db.runs.Keys
    ensures forall r: nat :: r != run && Drained(r, db) ==> Drained(r, db')
    ensures forall r: nat :: r != run && Clear(r, db, s) ==> Clear(r, db', s)
  {
    forall r: nat | r != run && Drained(r, db)
      ensures Drained(r, db')
    {
      SeedOthers(db.shards, db.unused, run, repair, pieces, r);
    }
  }

  lemma SeedMonitor(w: World, w': World, run: nat, repair: bool, pieces: seq<Piece>)
    requires MonitorInv(w.monitor, w.past.sound, w.db, w.ow.scans)
    requires w'.db.shards == AddShards(w.db.shards, w.db.unused, run, repair, pieces)
    requires w'.db.queue == w.db.queue && w'.db.anomalies == w.db.anomalies && w'.ow == w.ow
    requires w'.db.runs.Keys == w.db.runs.Keys && forall r :: r in w.db.runs ==> w'.db.runs[r].running == w.db.runs[r].running
    requires w'.past.sound == w.past.sound
    requires w'.monitor == Reseed(w.monitor, run) || (w'.monitor == w.monitor && !Drained(run, w.db))
    requires run in w.db.runs && (w.db.runs[run].running || !Drained(run, w.db))
    ensures MonitorInv(w'.monitor, w'.past.sound, w'.db, w'.ow.scans)
  {
    SeedQuiet(w.db, w'.db, run, repair, pieces, w.ow.scans);
  }

  lemma AddRepairKeeps(listing: Listing, w: World, run: nat, lower: int, upper: int, count: int)
    requires Inv(listing, w)
    ensures Inv(listing, StepAddRepair(w, run, lower, upper, count))
  {
    if !RepairRefused(w.db, run, lower, upper, count) {
      var w' := StepAddRepair(w, run, lower, upper, count);
      RepairShards(listing, w.db, w.owned, w.past.enqueued, w.past.seeded, run, lower, upper, count);
      RepairCounts(w.db, run, lower, upper, count);
      RepairMonitor(w, run, lower, upper, count);
      ShardStepKeeps(listing, w, w');
    }
  }

  lemma RepairShards(listing: Listing, db: Db, owned: map<nat, Local>, enqueued: map<nat, set<int>>,
                     seeded: map<nat, set<Piece>>,
                     run: nat, lower: int, upper: int, count: int)
    requires ShardInv(listing, db.runs, db.shards, owned, enqueued, seeded, db.unused)
    requires !RepairRefused(db, run, lower, upper, count)
    ensures run in seeded
    ensures var db' := SeedRepair(db, run, lower, upper, count);
            ShardInv(listing, db'.runs, db'.shards, owned, enqueued, seeded[run := seeded[run] + {Piece(lower, upper)}], db'.unused)
  {
    assert RunOk(listing, run, db.runs[run], db.shards, enqueued, seeded);
    ProportionalTiles(lower, upper, count);
    SeedShards(listing, db.runs, SeedRepair(db, run, lower, upper, count).runs, db.shards, owned, enqueued, seeded, db.unused,
               run, true, ProportionalPieces(lower, upper, count), lower, upper);
  }

  lemma RepairCounts(db: Db, run: nat, lower: int, upper: int, count: int)
    requires CountInv(db.runs, db.queue) && !RepairRefused(db, run, lower, upper, count)
    ensures CountInv(SeedRepair(db, run, lower, upper, count).runs, db.queue)
  {
    CountRuns(db.runs, SeedRepair(db, run, lower, upper, count).runs, db.queue);
  }

  lemma RepairMonitor(w: World, run: nat, lower: int, upper: int, count: int)
    requires MonitorInv(w.monitor, w.past.sound, w.db, w.ow.scans) && !RepairRefused(w.db, run, lower, upper, count)
    ensures var w' := StepAddRepair(w, run, lower, upper, count); MonitorInv(w'.monitor, w'.past.sound, w'.db, w'.ow.scans)
  {
    SeedMonitor(w, StepAddRepair(w, run, lower, upper, count), run, true, ProportionalPieces(lower, upper, count));
  }

  lemma SetShardSameWork(shards: map<nat, Shard>, s: nat, status: ShardStatus)
    requires s in shards && !shards[s].status.Completed? && !status.Completed?
    ensures SameWork(shards, shards[s := shards[s].(status := status)])
  {
  }

  lemma RestatusMonitor(w: World, db': Db)
    requires MonitorInv(w.monitor, w.past.sound, w.db, w.ow.scans)
    requires SameWork(w.db.shards, db'.shards) && db' == w.db.(shards := db'.shards)
    ensures MonitorInv(w.monitor, w.past.sound, db', w.ow.scans)
  {
    MonitorFrame(w.monitor, w.past.sound, w.db, db', w.ow.scans, w.ow.scans);
  }

  lemma RestatusStep(listing: Listing, w: World, shards': map<nat, Shard>, owned': map<nat, Local>)
    requires Inv(listing, w) && SameWork(w.db.shards, shards') && OwnersOk(shards', owned')
    ensures Inv(listing, w.(db := w.db.(shards := shards'), owned := owned'))
  {
    RestatusKeeps(listing, w.db.runs, w.db.shards, shards', w.past.enqueued, w.past.seeded, w.db.unused);
    RestatusMonitor(w, w.db.(shards := shards'));
    ShardStepKeeps(listing, w, w.(db := w.db.(shards := shards'), owned := owned'));
  }

  lemma ClaimOwners(shards: map<nat, Shard>, owned: map<nat, Local>, worker: nat, s: nat)
    requires OwnersOk(shards, owned) && s in shards && !shards[s].status.Working?
    ensures OwnersOk(shards[s := shards[s].(status := Working)],
                     owned[worker := Local(s, shards[s].run, shards[s].next, shards[s].upper)])
  {
    var owned' := owned[worker := Local(s, shards[s].run, shards[s].next, shards[s].upper)];
    forall k | k in owned'
      ensures LocalOk(shards[s := shards[s].(status := Working)], owned'[k])
    {
      if k != worker { assert LocalOk(shards, owned[k]); }
    }
  }

  lemma ReleaseOwners(shards: map<nat, Shard>, owned: map<nat, Local>, worker: nat)
    requires OwnersOk(shards, owned) && worker in owned
    ensures var s := owned[worker].shard;
            s in shards && !shards[s].status.Completed? && OwnersOk(shards[s := shards[s].(status := Again)], owned - {worker})
  {
    assert LocalOk(shards, owned[worker]);
    var s := owned[worker].shard;
    forall k | k in owned - {worker}
      ensures LocalOk(shards[s := shards[s].(status := Again)], owned[k])
    {
      assert LocalOk(shards, owned[k]);
    }
  }

  lemma ClaimShardKeeps(listing: Listing, w: World, worker: nat, shard: nat)
    requires Inv(listing, w)
    ensures Inv(listing, StepClaimShard(w, worker, shard))
  {
    if ShardClaimable(w, worker, shard) {
      var w' := StepClaimShard(w, worker, shard);
      SetShardSameWork(w.db.shards, shard, Working);
      ClaimOwners(w.db.shards, w.owned, worker, shard);
      RestatusStep(listing, w, w'.db.shards, w'.owned);
      assert w' == w.(db := w.db.(shards := w'.db.shards), owned := w'.owned);
    }
  }

  lemma GiveBackKeeps(listing: Listing, w: World, worker: nat)
    requires Inv(listing, w)
    ensures Inv(listing, StepGiveBack(w, worker))
  {
    if Owns(w, worker) {
      var w' := StepGiveBack(w, worker);
      ReleaseOwners(w.db.shards, w.owned, worker);
      SetShardSameWork(w.db.shards, w.owned[worker].shard, Again);
      RestatusStep(listing, w, w'.db.shards, w'.owned);
      assert w' == w.(db := w.db.(shards := w'.db.shards), owned := w'.owned);
    }
  }

  // --------------------------------------------------- splitting an owned shard

  /** What remains of the shard is either kept or handed to the new shards. */
  lemma SplitAhead(shards: map<nat, Shard>, s: nat, pieces: seq<Piece>, unused: nat, r: nat, x: int)
    requires s in shards && !shards[s].status.Completed? && |pieces| > 0
    requires forall t :: t in shards ==> t < unused
    requires Tiles(pieces, shards[s].next, shards[s].upper) && Ahead(shards, r, x)
    ensures Ahead(AddShards(shards[s := shards[s].(upper := pieces[0].hi)], unused, shards[s].run, shards[s].repair, pieces[1..]), r, x)
  {
    var shards1 := shards[s := shards[s].(upper := pieces[0].hi)];
    var shards' := AddShards(shards1, unused, shards[s].run, shards[s].repair, pieces[1..]);
    var t :| t in shards && shards[t].run == r && !shards[t].status.Completed? && shards[t].next < x <= shards[t].upper;
    if t != s {
      assert t in shards' && shards'[t] == shards[t];
    } else {
      var k := FindPiece(pieces, shards[s].next, shards[s].upper, x);
      if k == 0 {
        assert s in shards' && shards'[s] == shards1[s];
      } else {
        assert unused + (k - 1) in shards' && shards'[unused + (k - 1)] == NewShard(r, shards[s].repair, pieces[k]);
      }
    }
  }

  lemma SplitRunOk(listing: Listing, r: nat, row: Run, shards: map<nat, Shard>, s: nat, pieces: seq<Piece>,
                   enqueued: map<nat, set<int>>, seeded: map<nat, set<Piece>>, unused: nat)
    requires s in shards && !shards[s].status.Completed? && |pieces| > 0
    requires forall t :: t in shards ==> t < unused
    requires Tiles(pieces, shards[s].next, shards[s].upper)
    requires RunOk(listing, r, row, shards, enqueued, seeded)
    ensures RunOk(listing, r, row, AddShards(shards[s := shards[s].(upper := pieces[0].hi)], unused, shards[s].run, shards[s].repair, pieces[1..]), enqueued, seeded)
  {
    var shards1 := shards[s := shards[s].(upper := pieces[0].hi)];
    var shards' := AddShards(shards1, unused, shards[s].run, shards[s].repair, pieces[1..]);
    forall x | Ahead(shards, r, x)
      ensures Ahead(shards', r, x)
    {
      SplitAhead(shards, s, pieces, unused, r, x);
    }
    SplitOthers(shards, s, pieces, unused, r);
  }

  lemma SplitOthers(shards: map<nat, Shard>, s: nat, pieces: seq<Piece>, unused: nat, r: nat)
    requires s in shards && !shards[s].status.Completed? && |pieces| > 0
    ensures var shards' := AddShards(shards[s := shards[s].(upper := pieces[0].hi)], unused, shards[s].run, shards[s].repair, pieces[1..]);
            && (HasShards(shards, r) ==> HasShards(shards', r))
            && (Unfinished(shards', r) <==> Unfinished(shards, r))
            && (HasShards(shards', r) ==> HasShards(shards, r))
  {
    var shards' := AddShards(shards[s := shards[s].(upper := pieces[0].hi)], unused, shards[s].run, shards[s].repair, pieces[1..]);
    if HasShards(shards, r) {
      var t :| t in shards && shards[t].run == r;
      assert t in shards' && shards'[t].run == r;
    }
    if HasShards(shards', r) {
      var t :| t in shards' && shards'[t].run == r;
      assert shards[if t in shards then t else s].run == r;
    }
    if Unfinished(shards', r) {
      var t :| t in shards' && shards'[t].run == r && !shards'[t].status.Completed?;
      assert shards[if t in shards then t else s].run == r;
    }
    if Unfinished(shards, r) {
      var t :| t in shards && shards[t].run == r && !shards[t].status.Completed?;
      assert t in shards' && shards'[t].run == r && !shards'[t].status.Completed?;
    }
  }

  lemma SplitShardsOk(runs: map<nat, Run>, shards: map<nat, Shard>, s: nat, pieces: seq<Piece>,
                      seeded: map<nat, set<Piece>>, unused: nat)
    requires s in shards && !shards[s].status.Completed? && |pieces| > 0
    requires Tiles(pieces, shards[s].next, shards[s].upper)
    requires ShardsOk(runs, shards, seeded, unused)
    ensures ShardsOk(runs, SplitShards(shards, s, pieces, unused),
                     seeded, unused + |pieces| - 1)
  {
    var shards' := AddShards(shards[s := shards[s].(upper := pieces[0].hi)], unused, shards[s].run, shards[s].repair, pieces[1..]);
    assert ShardOk(runs, shards[s], seeded);
    var p :| p in seeded[shards[s].run] && p.lo <= shards[s].lower && shards[s].upper <= p.hi;
    PieceWithin(pieces, shards[s].next, shards[s].upper, 0);
    forall t | t in shards'
      ensures t < unused + |pieces| - 1 && ShardOk(runs, shards'[t], seeded)
    {
      if t in shards {
        assert ShardOk(runs, shards[t], seeded);
      } else {
        PieceWithin(pieces, shards[s].next, shards[s].upper, t - unused + 1);
      }
    }
  }

  /** What a split does: nothing, or cut the remaining range of the owned shard into tiling pieces. */
  lemma SplitCases(w: World, worker: nat, desired: int) returns (pieces: seq<Piece>)
    requires Owns(w, worker) && LocalOk(w.db.shards, w.owned[worker])
    ensures var s := w.owned[worker].shard;
            if |pieces| == 0 then StepSplit(w, worker, desired) == w
            else
              && Tiles(pieces, w.db.shards[s].next, w.db.shards[s].upper)
              && StepSplit(w, worker, desired) == SplitWorld(w, worker, pieces)
  {
    var s := w.owned[worker].shard;
    var shard := w.db.shards[s];
    var n := RebalancePieceCount(w.db, s, desired);
    pieces := [];
    if n > 1 && !RebalanceConflicts(w.db, s, RebalancePieces(shard.next, shard.upper, n)) {
      pieces := RebalancePieces(shard.next, shard.upper, n);
      RebalanceTiles(shard.next, shard.upper, n);
    }
  }

  function SplitWorld(w: World, worker: nat, pieces: seq<Piece>): World
    requires worker in w.owned && w.owned[worker].shard in w.db.shards && |pieces| > 0
  {
    w.(db := w.db.(shards := SplitShards(w.db.shards, w.owned[worker].shard, pieces, w.db.unused), unused := w.db.unused + |pieces| - 1),
       owned := w.owned[worker := w.owned[worker].(upper := pieces[0].hi)])
  }

  lemma SplitKeeps(listing: Listing, w: World, worker: nat, desired: int)
    requires Inv(listing, w)
    ensures Inv(listing, StepSplit(w, worker, desired))
  {
    if Owns(w, worker) {
      var pieces := SplitCases(w, worker, desired);
      if |pieces| > 0 { SplitWith(listing, w, worker, pieces); }
    }
  }

  function SplitShards(shards: map<nat, Shard>, s: nat, pieces: seq<Piece>, unused: nat): map<nat, Shard>
    requires s in shards && |pieces| > 0
  {
    AddShards(shards[s := shards[s].(upper := pieces[0].hi)], unused, shards[s].run, shards[s].repair, pieces[1..])
  }

  lemma SplitWith(listing: Listing, w: World, worker: nat, pieces: seq<Piece>)
    requires Inv(listing, w) && worker in w.owned && |pieces| > 0
    requires w.owned[worker].shard in w.db.shards
    requires Tiles(pieces, w.db.shards[w.owned[worker].shard].next, w.db.shards[w.owned[worker].shard].upper)
    ensures Inv(listing, SplitWorld(w, worker, pieces))
  {
    var w' := SplitWorld(w, worker, pieces);
    SplitShardInv(listing, w.db, w.owned, worker, pieces, w.past.enqueued, w.past.seeded);
    SplitMonitor(w, worker, pieces);
    ShardStepKeeps(listing, w, w');
  }

  lemma SplitShardInv(listing: Listing, db: Db, owned: map<nat, Local>, worker: nat, pieces: seq<Piece>,
                      enqueued: map<nat, set<int>>, seeded: map<nat, set<Piece>>)
    requires ShardInv(listing, db.runs, db.shards, owned, enqueued, seeded, db.unused)
    requires worker in owned && |pieces| > 0 && owned[worker].shard in db.shards
    requires Tiles(pieces, db.shards[owned[worker].shard].next, db.shards[owned[worker].shard].upper)
    ensures ShardInv(listing, db.runs, SplitShards(db.shards, owned[worker].shard, pieces, db.unused),
                     owned[worker := owned[worker].(upper := pieces[0].hi)], enqueued, seeded, db.unused + |pieces| - 1)
  {
    var s := owned[worker].shard;
    assert LocalOk(db.shards, owned[worker]);
    SplitShardsOk(db.runs, db.shards, s, pieces, seeded, db.unused);
    SplitRunsOk(listing, db.runs, db.shards, s, pieces, enqueued, seeded, db.unused);
    SplitOwners(db.shards, owned, worker, pieces, db.unused);
  }

  lemma SplitMonitor(w: World, worker: nat, pieces: seq<Piece>)
    requires MonitorInv(w.monitor, w.past.sound, w.db, w.ow.scans) && worker in w.owned && |pieces| > 0
    requires LocalOk(w.db.shards, w.owned[worker])
    ensures MonitorInv(w.monitor, w.past.sound, SplitWorld(w, worker, pieces).db, w.ow.scans)
  {
    var db' := SplitWorld(w, worker, pieces).db;
    SplitQuiet(w.db, db', w.owned[worker].shard, pieces, w.ow.scans);
    MonitorFrame(w.monitor, w.past.sound, w.db, db', w.ow.scans, w.ow.scans);
  }

  lemma SplitRunsOk(listing: Listing, runs: map<nat, Run>, shards: map<nat, Shard>, s: nat, pieces: seq<Piece>,
                    enqueued: map<nat, set<int>>, seeded: map<nat, set<Piece>>, unused: nat)
    requires s in shards && !shards[s].status.Completed? && |pieces| > 0
    requires ShardsOk(runs, shards, seeded, unused) && RunsOk(listing, runs, shards, enqueued, seeded, unused)
    requires Tiles(pieces, shards[s].next, shards[s].upper)
    ensures RunsOk(listing, runs, SplitShards(shards, s, pieces, unused),
                   enqueued, seeded, unused + |pieces| - 1)
  {
    var shards' := AddShards(shards[s := shards[s].(upper := pieces[0].hi)], unused, shards[s].run, shards[s].repair, pieces[1..]);
    forall r | r in runs
      ensures r < unused + |pieces| - 1 && RunOk(listing, r, runs[r], shards', enqueued, seeded)
    {
      SplitRunOk(listing, r, runs[r], shards, s, pieces, enqueued, seeded, unused);
    }
  }

  lemma SplitOwners(shards: map<nat, Shard>, owned: map<nat, Local>, worker: nat, pieces: seq<Piece>, unused: nat)
    requires OwnersOk(shards, owned) && worker in owned && owned[worker].shard in shards && |pieces| > 0
    ensures OwnersOk(SplitShards(shards, owned[worker].shard, pieces, unused), owned[worker := owned[worker].(upper := pieces[0].hi)])
  {
    var shards' := SplitShards(shards, owned[worker].shard, pieces, unused);
    var owned' := owned[worker := owned[worker].(upper := pieces[0].hi)];
    forall k | k in owned'
      ensures LocalOk(shards', owned'[k])
    {
      assert LocalOk(shards, owned[k]);
    }
  }

  lemma SplitQuiet(db: Db, db': Db, s: nat, pieces: seq<Piece>, scans: O.Scans)
    requires s in db.shards && !db.shards[s].status.Completed? && |pieces| > 0
    requires db'.shards == AddShards(db.shards[s := db.shards[s].(upper := pieces[0].hi)], db.unused, db.shards[s].run, db.shards[s].repair, pieces[1..])
    requires db'.runs == db.runs && db'.anomalies == db.anomalies && db'.queue == db.queue
    ensures Quiet(db, db', scans, scans)
  {
    forall r: nat | Drained(r, db)
      ensures Drained(r, db')
    {
      SplitOthers(db.shards, s, pieces, db.unused, r);
    }
  }

  // -------------------------------------------------------- restart, new runs

  lemma RestartKeeps(listing: Listing, w: World, now: int)
    requires Inv(listing, w)
    ensures Inv(listing, StepRestart(w, now))
  {
    var w1 := w.(db := w.db.(queue := Recover(w.db, now).queue));
    RestartQueue(listing, w, now);
    RestartScans(listing, w1, now);
    RestartShards(listing, w1.(ow := O.Recover(w.ow, now)), now);
  }

  lemma RestartQueue(listing: Listing, w: World, now: int)
    requires Inv(listing, w)
    ensures Inv(listing, w.(db := w.db.(queue := Recover(w.db, now).queue)))
  {
    RecoveredRows(w.db, now, w.db.runs.Keys, w.past.enqueued, w.past.issued, w.ow.log.finalized);
    QueueStepKeeps(listing, w, w.(db := w.db.(queue := Recover(w.db, now).queue)));
  }

  lemma RestartScans(listing: Listing, w: World, now: int)
    requires Inv(listing, w)
    ensures Inv(listing, w.(ow := O.Recover(w.ow, now)))
  {
    O.ReapKeeps(w.ow, now);
    OverflowStepKeeps(listing, w, w.(ow := O.Recover(w.ow, now)));
  }

  lemma RecoverSameWork(db: Db, now: int)
    ensures SameWork(db.shards, Recover(db, now).shards)
  {
  }

  lemma RestartShards(listing: Listing, w: World, now: int)
    requires Inv(listing, w)
    ensures Inv(listing, w.(db := w.db.(shards := Recover(w.db, now).shards), owned := map[], monitor := Idle))
  {
    var shards' := Recover(w.db, now).shards;
    RecoverSameWork(w.db, now);
    RestatusStep(listing, w, shards', map[]);
    IdleKeeps(listing, w.(db := w.db.(shards := shards'), owned := map[]));
  }

  lemma IdleKeeps(listing: Listing, w: World)
    requires Inv(listing, w)
    ensures Inv(listing, w.(monitor := Idle))
  {
  }

  lemma StartTailKeeps(listing: Listing, w: World, cutoff: int)
    requires Inv(listing, w)
    ensures Inv(listing, w.(db := InitializeLiveTail(w.db, cutoff)))
  {
    TailRows(w.db, cutoff);
    RunRowsKeep(listing, w, InitializeLiveTail(w.db, cutoff));
  }

  lemma TailRows(db: Db, cutoff: int)
    ensures var db' := InitializeLiveTail(db, cutoff);
            && db'.shards == db.shards && db'.queue == db.queue && db'.anomalies == db.anomalies && db'.unused == db.unused
            && RunRowsOk(db.runs, db'.runs)
  {
  }

  /** Runs may close or learn their cutoff at any time. */
  lemma RunRowsKeep(listing: Listing, w: World, db': Db)
    requires Inv(listing, w)
    requires db'.shards == w.db.shards && db'.queue == w.db.queue && db'.anomalies == w.db.anomalies && db'.unused == w.db.unused
    requires RunRowsOk(w.db.runs, db'.runs)
    ensures Inv(listing, w.(db := db'))
  {
    ShardFrame(listing, w.db.runs, db'.runs, w.db.shards, w.owned, w.past.enqueued, w.past.seeded, w.db.unused, w.db.unused);
    CountRuns(w.db.runs, db'.runs, w.db.queue);
    RunRowsMonitor(w, db');
    ShardStepKeeps(listing, w, w.(db := db'));
  }

  ghost predicate RunRowsOk(runs: map<nat, Run>, runs': map<nat, Run>) {
    && runs'.Keys == runs.Keys
    && forall r :: r in runs ==>
         && SameCounters(runs[r], runs'[r]) && (runs'[r].running ==> runs[r].running)
         && runs'[r].enumerationComplete == runs[r].enumerationComplete && runs'[r].nextSince == runs[r].nextSince
  }

  lemma RunRowsMonitor(w: World, db': Db)
    requires MonitorInv(w.monitor, w.past.sound, w.db, w.ow.scans) && RunRowsOk(w.db.runs, db'.runs)
    requires db'.shards == w.db.shards && db'.queue == w.db.queue && db'.anomalies == w.db.anomalies
    ensures MonitorInv(w.monitor, w.past.sound, db', w.ow.scans)
  {
    QuietFrame(w.db, db', w.ow.scans, w.ow.scans);
    MonitorFrame(w.monitor, w.past.sound, w.db, db', w.ow.scans, w.ow.scans);
  }

  lemma CommitKeeps(listing: Listing, w: World)
    requires Inv(listing, w)
    ensures Inv(listing, StepCommitRun(w))
  {
    if w.monitor.SawClear? && w.monitor.run in w.db.runs {
      var w1 := w.(db := CloseRun(w.db, w.monitor.run));
      RunRowsKeep(listing, w, w1.db);
    }
  }

  lemma ReadKeeps(listing: Listing, w: World, run: nat)
    requires Inv(listing, w)
    ensures Inv(listing, StepReadRun(w, run)) && Inv(listing, StepReadPending(w))
  {
    if run in w.db.runs && LooksDrained(w.db.runs[run]) {
      assert CountOk(run, w.db.runs[run], w.db.queue);
      assert RunOk(listing, run, w.db.runs[run], w.db.shards, w.past.enqueued, w.past.seeded);
      assert Drained(run, w.db);
    }
  }

  lemma StartRunKeeps(listing: Listing, w: World)
    requires Inv(listing, w)
    ensures Inv(listing, StepStartRun(w))
  {
    var w' := StepStartRun(w);
    if w' != w {
      StartRunShards(listing, w, w');
      QuietFrame(w.db, w'.db, w.ow.scans, w.ow.scans);
    }
  }

  lemma StartRunShards(listing: Listing, w: World, w': World)
    requires Inv(listing, w) && w' == StepStartRun(w) && w' != w
    ensures ShardInv(listing, w'.db.runs, w'.db.shards, w'.owned, w'.past.enqueued, w'.past.seeded, w'.db.unused)
  {
    forall s | s in w'.db.shards
      ensures s < w'.db.unused && ShardOk(w'.db.runs, w'.db.shards[s], w'.past.seeded)
    {
      assert ShardOk(w.db.runs, w.db.shards[s], w.past.seeded);
    }
    forall r | r in w'.db.runs
      ensures r < w'.db.unused && RunOk(listing, r, w'.db.runs[r], w'.db.shards, w'.past.enqueued, w'.past.seeded)
    {
      if r in w.db.runs { assert RunOk(listing, r, w.db.runs[r], w.db.shards, w.past.enqueued, w.past.seeded); }
    }
  }
}
