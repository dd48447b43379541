/**
 Two ways a repair defeats the guarantees of a run, shown on concrete traces.  Exactly
 when each happens is in ShardCoverage and WorkTheorems.
 */
module RepairHazards {
  // A repair seeded before the primary shards makes the run look divided already, so
  // the primary shards are never cut and users outside the repair are never listed.
  // A repair seeded between the monitor's reads and its commit is closed over.

  import opened Prelude
  import opened RangeDivision
  import opened EnumerationPage
  import opened WorkTables
  import opened WorkProtocol
  import opened WorkTheorems
  import opened ShardCoverage
  import P = Publication
  import O = OverflowScan

  // -------------------------------------------------- a repair before the run

  const ONE_USER := Listing({7}, {7})

  function NewRunTables(): Db {
    Db(map[0 := Run(true, true, Some(10), 0, false, 0, 0, 0, 0, 0, 0, 0)], map[], map[], map[], {}, 10, true, false, false, 1)
  }

  function NewRunHistory(): History { History(map[0 := {}], map[0 := {}], map[], {}, map[], {}) }

  function NewRun(): World { Init(map[], 0).(db := NewRunTables(), past := NewRunHistory()) }

  lemma Started(listing: Listing)
    ensures Reachable(listing, NewRun())
  {
    var w := Init(map[], 0);
    assert Legal(listing, w, []) && w == Execute(w, []);
    Reach(listing, w, StartRun);
    var w1 := Step(w, StartRun);
    assert w1.db == Init(map[], 0).db.(runs := map[0 := Run(true, true, None, 0, false, 0, 0, 0, 0, 0, 0, 0)], unused := 1);
    assert w1.past == NewRunHistory();
    Reach(listing, w1, StartTail(10));
    assert Step(w1, StartTail(10)).db.runs == NewRunTables().runs;
    assert Step(w1, StartTail(10)) == NewRun();
  }

  /** What the gap theorem asks for is met by a run that was just given its cutoff. */
  lemma PrimaryStillPossible(listing: Listing)
    ensures Reachable(listing, NewRun()) && 0 in NewRun().db.runs && NewRun().db.runs[0].cutoff == Some(10)
    ensures !HasShards(NewRun().db.shards, 0) && Legal(listing, StepSeedPrimary(NewRun(), 0, 2), [])
  {
    Started(listing);
  }

  /** A run whose only shard is the repair (0, u], and how far it got. */
  function Repaired(u: int, next: int, status: ShardStatus, complete: bool): World {
    var db := NewRunTables();
    NewRun().(
      db := db.(shards := map[1 := Shard(0, true, 0, u, next, status)],
                runs := map[0 := db.runs[0].(nextSince := next, enumerationComplete := complete)],
                repairs := {(0, 0, u, 1)}, unused := 2, initialEnumerated := complete),
      past := NewRunHistory().(seeded := map[0 := {Piece(0, u)}]))
  }

  lemma RepairAccepted(u: int)
    requires 1 <= u <= 10
    ensures StepAddRepair(NewRun(), 0, 0, u, 1) == Repaired(u, 0, Waiting, false)
  {
    var w := NewRun();
    assert ProportionalPieces(0, u, 1) == [Piece(0, u)];
    assert !RepairRefused(w.db, 0, 0, u, 1);
    var w' := StepAddRepair(w, 0, 0, u, 1);
    assert Range(1, 1) == {1};
    assert w'.db.shards == Repaired(u, 0, Waiting, false).db.shards;
    assert w'.db.runs == Repaired(u, 0, Waiting, false).db.runs;
    assert {} + {Piece(0, u)} == {Piece(0, u)};
    assert w'.past == Repaired(u, 0, Waiting, false).past;
    assert w'.db == Repaired(u, 0, Waiting, false).db;
  }

  /** Claimed, then listed up to its end by one page without users for it. */
  lemma RepairTaken(u: int, page: Page)
    requires 1 <= u <= 10 && PlanOf(0, u, page) == Advance([], u, true)
    ensures var w1 := StepClaimShard(Repaired(u, 0, Waiting, false), 0, 1);
            && w1 == Repaired(u, 0, Working, false).(owned := map[0 := Local(1, 0, 0, u)])
            && StepTakePage(w1, 0, page) == Repaired(u, u, Completed, true)
  {
    var w1 := Repaired(u, 0, Working, false).(owned := map[0 := Local(1, 0, 0, u)]);
    var done := Repaired(u, u, Completed, true);
    assert map[1 := Shard(0, true, 0, u, 0, Waiting)][1 := Shard(0, true, 0, u, 0, Working)] == map[1 := Shard(0, true, 0, u, 0, Working)];
    assert StepClaimShard(Repaired(u, 0, Waiting, false), 0, 1) == w1;
    var db := ApplyShardPage(w1.db, 1, [], u, true);
    assert Insert(w1.db.queue, w1.db.unused, Some(0), Global, []) == Inserted(w1.db.queue, w1.db.unused, []);
    assert db.shards == done.db.shards;
    assert !Unfinished(db.shards, 0);
    assert db.runs == done.db.runs && db == done.db;
    assert Elements<nat>([]) == {} && Elements<int>([]) == {};
    assert w1.past.enqueued[0 := {}] == done.past.enqueued;
    assert w1.owned - {0} == map[];
    var w2 := StepTakePage(w1, 0, page);
    assert Owns(w1, 0);
    assert w2.db == db;
    assert w2.owned == map[];
    assert w2.past.created == {};
    assert w2.past == done.past;
    assert w2 == done;
  }

  lemma RepairFirst(listing: Listing, u: int)
    requires 1 <= u <= 10
    ensures Reachable(listing, Repaired(u, 0, Waiting, false))
  {
    Started(listing);
    Reach(listing, NewRun(), AddRepair(0, 0, u, 1));
    RepairAccepted(u);
  }

  lemma RepairListed(listing: Listing, u: int, page: Page)
    requires 1 <= u <= 10 && Honest(listing, 0, page) && PlanOf(0, u, page) == Advance([], u, true)
    ensures Reachable(listing, Repaired(u, u, Completed, true))
  {
    RepairFirst(listing, u);
    var w := Repaired(u, 0, Waiting, false);
    Reach(listing, w, ClaimShard(0, 1));
    RepairTaken(u, page);
    Reach(listing, StepClaimShard(w, 0, 1), TakePage(0, page));
  }

  /** An early repair that reaches the cutoff leaves no gap, although the primary shards are refused. */
  lemma EarlyRepairOfAll(listing: Listing)
    ensures var w := Repaired(10, 0, Waiting, false);
            && Reachable(listing, w) && 0 in w.db.runs && w.db.runs[0].cutoff == Some(10)
            && HasShards(w.db.shards, 0) && StepSeedPrimary(w, 0, 2) == w && UsersCut(listing, w.db.shards, 0, 10)
  {
    RepairFirst(listing, 10);
    var shards := Repaired(10, 0, Waiting, false).db.shards;
    assert 1 in shards && shards[1].run == 0;
    forall x | 0 < x <= 10 ensures Cut(shards, 0, x) { assert shards[1].lower < x <= shards[1].upper; }
  }

  /**
   The gap.  After a repair (0, 5] the primary shards of a run with cutoff 10 are
   refused, the run counts as enumerated, and user 7 was never enqueued.
   */
  lemma EarlyRepairGap() returns (w: World)
    ensures Reachable(ONE_USER, w) && WellFormed(ONE_USER)
    ensures 0 in w.db.runs && w.db.runs[0].cutoff == Some(10) && w.db.runs[0].enumerationComplete && !Unfinished(w.db.shards, 0)
    ensures StepSeedPrimary(w, 0, 2) == w && StepSeedPrimary(Repaired(5, 0, Waiting, false), 0, 2) == Repaired(5, 0, Waiting, false)
    ensures !UsersCut(ONE_USER, Repaired(5, 0, Waiting, false).db.shards, 0, 10)
    ensures 7 in ONE_USER.users && 0 in w.past.enqueued && w.past.enqueued[0] == {} && w.db.queue == map[]
  {
    w := Repaired(5, 5, Completed, true);
    var page := Page([Object(7, true)], NoLink);
    assert page.objects[..0] == [];
    assert Ascending(0, page.objects) && Candidates(page.objects, 5) == [];
    assert Object(7, true) in page.objects;
    RepairListed(ONE_USER, 5, page);
    assert 1 in w.db.shards && w.db.shards[1].run == 0;
    assert 1 in Repaired(5, 0, Waiting, false).db.shards && Repaired(5, 0, Waiting, false).db.shards[1].run == 0;
  }

  // ------------------------------------------- a repair under the monitor's eyes

  /** A repair accepted right before the commit is always closed over. */
  lemma RepairBeforeCommit(w: World, run: nat, lower: int, upper: int, count: int, reseeded: bool)
    requires w.monitor == SawClear(run, reseeded) && !RepairRefused(w.db, run, lower, upper, count)
    requires forall s :: s in w.db.shards ==> s < w.db.unused
    ensures var w' := StepCommitRun(StepAddRepair(w, run, lower, upper, count));
            run in w'.db.runs && !w'.db.runs[run].running && Unfinished(w'.db.shards, run)
  {
    var w' := StepCommitRun(StepAddRepair(w, run, lower, upper, count));
    assert w.db.unused in w'.db.shards && w'.db.shards[w.db.unused].run == run && w'.db.shards[w.db.unused].status.Waiting?;
  }

  /** Such a state is reachable: a closed run with a shard nobody will finish. */
  lemma EarlyCompletion() returns (w: World)
    ensures Reachable(Listing({}, {}), w)
    ensures 0 in w.db.runs && !w.db.runs[0].running && Unfinished(w.db.shards, 0)
  {
    var listing := Listing({}, {});
    var page := Page([], Since(10));
    assert Candidates([], 10) == [] && PlanOf(0, 10, page) == Advance([], 10, true);
    RepairListed(listing, 10, page);
    var w0 := Repaired(10, 10, Completed, true);
    MonitorReads(w0);
    Reach(listing, w0, ReadRun(0));
    Reach(listing, w0.(monitor := SawRun(0, false)), ReadPending);
    var w2 := w0.(monitor := SawClear(0, false));
    SecondRepair(w2.db);
    Reach(listing, w2, AddRepair(0, 0, 5, 1));
    Reach(listing, StepAddRepair(w2, 0, 0, 5, 1), CommitRun);
    RepairBeforeCommit(w2, 0, 0, 5, 1, false);
    w := StepCommitRun(StepAddRepair(w2, 0, 0, 5, 1));
  }

  lemma MonitorReads(w: World)
    requires w == Repaired(10, 10, Completed, true)
    ensures StepReadRun(w, 0) == w.(monitor := SawRun(0, false))
    ensures StepReadPending(w.(monitor := SawRun(0, false))) == w.(monitor := SawClear(0, false))
  {
  }

  lemma SecondRepair(db: Db)
    requires db == Repaired(10, 10, Completed, true).db
    ensures !RepairRefused(db, 0, 0, 5, 1)
  {
    assert ProportionalPieces(0, 5, 1) == [Piece(0, 5)];
    assert !Taken(db.shards, 0, Piece(0, 5));
  }
}
