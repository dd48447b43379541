/**
 What the work protocol guarantees in every state it can reach, and the two
 places where a repair defeats the guarantee.
 */
module WorkTheorems {
  import opened Prelude
  import opened RangeDivision
  import opened EnumerationPage
  import P = Publication
  import opened WorkTables
  import opened WorkProtocol
  import opened WorkProofs
  import opened ShardProofs
  import opened QueueProofs
  import opened PageProofs
  import opened CompletionProofs
  import O = OverflowScan

  // ------------------------------------------------------- every run, every step

  predicate ShardOp(op: Op) {
    op.StartRun? || op.StartTail? || op.SeedPrimary? || op.AddRepair? || op.ClaimShard? || op.TakePage? || op.SplitOwned?
    || op.GiveBackShard? || op.AbandonShard? || op.Restart?
  }

  predicate ArrivalOp(op: Op) { op.AddAccounts? || op.ExtendTail? || op.StageFederation? }

  predicate AccountOp(op: Op) {
    op.ClaimAccounts? || op.FreeAccounts? || op.MarkAttempts? || op.CountAttempts? || op.CompleteAccounts? || op.CompleteGone? || op.ReapLeases?
  }

  lemma ShardOpKeeps(listing: Listing, w: World, op: Op)
    requires Inv(listing, w) && Possible(listing, w, op) && ShardOp(op)
    ensures Inv(listing, Step(w, op))
  {
    match op
    case StartRun => StartRunKeeps(listing, w);
    case StartTail(cutoff) => StartTailKeeps(listing, w, cutoff);
    case SeedPrimary(run, count) => SeedPrimaryKeeps(listing, w, run, count);
    case AddRepair(run, lower, upper, count) => AddRepairKeeps(listing, w, run, lower, upper, count);
    case ClaimShard(worker, shard) => ClaimShardKeeps(listing, w, worker, shard);
    case TakePage(worker, page) => TakePageKeeps(listing, w, worker, page);
    case SplitOwned(worker, desired) => SplitKeeps(listing, w, worker, desired);
    case GiveBackShard(worker) => GiveBackKeeps(listing, w, worker);
    case AbandonShard(worker) =>
    case Restart(now) => RestartKeeps(listing, w, now);
  }

  lemma ArrivalOpKeeps(listing: Listing, w: World, op: Op)
    requires Inv(listing, w) && Possible(listing, w, op) && ArrivalOp(op)
    ensures Inv(listing, Step(w, op))
  {
    match op
    case AddAccounts(source, accounts) => AddKeeps(listing, w, source, accounts, w.db.highwater);
    case ExtendTail(accounts, highwater) => AddKeeps(listing, w, Tail, accounts, Max(w.db.highwater, highwater));
    case StageFederation(accounts, now) => StageStepKeeps(listing, w, accounts, now);
  }

  lemma AccountOpKeeps(listing: Listing, w: World, op: Op)
    requires Inv(listing, w) && Possible(listing, w, op) && AccountOp(op)
    ensures Inv(listing, Step(w, op))
  {
    match op
    case ClaimAccounts(picked, from, now) => ClaimAccountsKeeps(listing, w, picked, from, now);
    case FreeAccounts(jobs, to, due) => FreeKeeps(listing, w, jobs, to, due);
    case MarkAttempts(jobs) => MarkKeeps(listing, w, jobs);
    case CountAttempts(jobs) => CountAttemptsKeeps(listing, w, jobs);
    case CompleteAccounts(jobs, results, now, stages) => CompleteKeeps(listing, w, jobs, results, now, stages);
    case CompleteGone(job, now) => GoneKeeps(listing, w, job, now);
    case ReapLeases(now) => ReapKeeps(listing, w, now);
  }

  lemma ScanOpKeeps(listing: Listing, w: World, op: Op)
    requires Inv(listing, w) && Possible(listing, w, op) && !ShardOp(op) && !ArrivalOp(op) && !AccountOp(op)
    ensures Inv(listing, Step(w, op))
  {
    match op
    case ClaimOverflow(id, now) => ClaimOverflowKeeps(listing, w, id, now);
    case OverflowPage(job, page, now, stages) => OverflowPageKeeps(listing, w, job, page, now, stages);
    case OverflowRestart(job, now) => OverflowOtherKeeps(listing, w, job, now, 0);
    case OverflowRequeue(job, due) => OverflowOtherKeeps(listing, w, job, 0, due);
    case OverflowREST(job, keys, now, stages) => OverflowRESTKeeps(listing, w, job, keys, now, stages);
    case ReadRun(run) => ReadKeeps(listing, w, run);
    case ReadPending => ReadKeeps(listing, w, 0);
    case CommitRun => CommitKeeps(listing, w);
  }

  /** Whatever a worker, the monitor or a crash does next, the invariant survives it. */
  lemma StepKeeps(listing: Listing, w: World, op: Op)
    requires Inv(listing, w) && Possible(listing, w, op)
    ensures Inv(listing, Step(w, op))
  {
    if ShardOp(op) {
      ShardOpKeeps(listing, w, op);
    } else if ArrivalOp(op) {
      ArrivalOpKeeps(listing, w, op);
    } else if AccountOp(op) {
      AccountOpKeeps(listing, w, op);
    } else {
      ScanOpKeeps(listing, w, op);
    }
  }

  /** The invariant holds in every state of every run. */
  lemma {:induction false} EveryRunKeeps(listing: Listing, anomalies: map<int, Option<nat>>, unused: nat, ops: seq<Op>)
    requires WellFormed(listing) && Legal(listing, Init(anomalies, unused), ops)
    ensures Inv(listing, Execute(Init(anomalies, unused), ops))
  {
    if |ops| == 0 {
    } else {
      EveryRunKeeps(listing, anomalies, unused, ops[..|ops| - 1]);
      StepKeeps(listing, Execute(Init(anomalies, unused), ops[..|ops| - 1]), ops[|ops| - 1]);
    }
  }

  ghost predicate Reachable(listing: Listing, w: World) {
    exists anomalies, unused, ops :: Legal(listing, Init(anomalies, unused), ops) && w == Execute(Init(anomalies, unused), ops)
  }

  lemma Onward(listing: Listing, w: World, ops: seq<Op>, op: Op)
    ensures Execute(w, ops + [op]) == Step(Execute(w, ops), op)
    ensures Legal(listing, w, ops + [op]) <==> Legal(listing, w, ops) && Possible(listing, Execute(w, ops), op)
  {
    assert (ops + [op])[..|ops + [op]| - 1] == ops;
  }

  lemma Reach(listing: Listing, w: World, op: Op)
    requires Reachable(listing, w) && Possible(listing, w, op)
    ensures Reachable(listing, Step(w, op))
  {
    var anomalies, unused, ops :| Legal(listing, Init(anomalies, unused), ops) && w == Execute(Init(anomalies, unused), ops);
    Onward(listing, Init(anomalies, unused), ops, op);
    assert Legal(listing, Init(anomalies, unused), ops + [op]);
  }

  lemma ReachableInv(listing: Listing, w: World)
    requires WellFormed(listing) && Reachable(listing, w)
    ensures Inv(listing, w)
  {
    var anomalies, unused, ops :| Legal(listing, Init(anomalies, unused), ops) && w == Execute(Init(anomalies, unused), ops);
    EveryRunKeeps(listing, anomalies, unused, ops);
  }

  lemma {:induction false} Onwards(listing: Listing, w: World, ops: seq<Op>)
    requires Inv(listing, w) && Legal(listing, w, ops)
    ensures Inv(listing, Execute(w, ops))
  {
    if |ops| > 0 {
      Onwards(listing, w, ops[..|ops| - 1]);
      StepKeeps(listing, Execute(w, ops[..|ops| - 1]), ops[|ops| - 1]);
    }
  }

  // -------------------------------------------------------- no enumeration gap

  lemma RunFact(listing: Listing, w: World, r: nat)
    requires Inv(listing, w) && r in w.db.runs
    ensures RunOk(listing, r, w.db.runs[r], w.db.shards, w.past.enqueued, w.past.seeded) && r < w.db.unused
  {
  }

  lemma EnqueuedExactly(listing: Listing, r: nat, run: Run, shards: map<nat, Shard>, enqueued: map<nat, set<int>>,
                        seeded: map<nat, set<Piece>>)
    requires RunOk(listing, r, run, shards, enqueued, seeded) && !Unfinished(shards, r)
    ensures enqueued[r] == (set x | x in listing.users && Seeded(seeded[r], x))
  {
    forall x
      ensures x in enqueued[r] <==> x in listing.users && Seeded(seeded[r], x)
    {
    }
    var exact := set x | x in listing.users && Seeded(seeded[r], x);
    assert forall x :: x in enqueued[r] <==> x in exact;
  }

  /** Once all shards of a run are completed, exactly the users in the ranges it was cut from were enqueued. */
  lemma NoGap(listing: Listing, w: World, r: nat)
    requires WellFormed(listing) && Reachable(listing, w)
    requires r in w.db.runs && !Unfinished(w.db.shards, r)
    ensures r in w.past.enqueued && r in w.past.seeded
    ensures w.past.enqueued[r] == (set x | x in listing.users && Seeded(w.past.seeded[r], x))
  {
    ReachableInv(listing, w);
    RunFact(listing, w, r);
    EnqueuedExactly(listing, r, w.db.runs[r], w.db.shards, w.past.enqueued, w.past.seeded);
  }

  /** Cutting the primary shards covers everything up to the cutoff, unless the run has shards already; then nothing is cut. */
  lemma PrimaryCoversAll(listing: Listing, w: World, run: nat, count: int)
    requires WellFormed(listing) && Reachable(listing, w)
    requires run in w.db.runs && w.db.runs[run].cutoff.Some? && w.db.runs[run].cutoff.value > 0 && count >= 2
    ensures var w' := StepSeedPrimary(w, run, count);
            if HasShards(w.db.shards, run) then w' == w
            else run in w'.past.seeded && Piece(0, w.db.runs[run].cutoff.value) in w'.past.seeded[run]
  {
    ReachableInv(listing, w);
    RunFact(listing, w, run);
  }

  /** A run stays, and outside CountAttempts so does its number of attempts. */
  ghost predicate RunKept(runs: map<nat, Run>, runs': map<nat, Run>, r: nat) {
    r in runs' && (r in runs ==> runs'[r].attempted == runs[r].attempted)
  }

  lemma RunTransactionsKeepRuns(db: Db, run: nat, count: int, lower: int, upper: int, r: nat)
    requires r in db.runs && r < db.unused
    ensures RunKept(db.runs, EnsureMainRun(db).runs, r) && RunKept(db.runs, InitializeLiveTail(db, upper).runs, r)
    ensures run in db.runs ==> RunKept(db.runs, EnsureEnumerationShards(db, run, count).runs, r)
    ensures RunKept(db.runs, SeedRepair(db, run, lower, upper, count).runs, r)
  {
  }

  lemma ShardTransactionsKeepRuns(db: Db, s: nat, desired: int, status: ShardStatus, accounts: seq<int>, next: int,
                                  complete: bool, r: nat)
    requires s in db.shards && r in db.runs
    ensures RunKept(db.runs, SetShard(db, s, status).runs, r) && RunKept(db.runs, Rebalance(db, s, desired).runs, r)
    ensures db.shards[s].run in db.runs ==> RunKept(db.runs, ApplyShardPage(db, s, accounts, next, complete).runs, r)
  {
  }

  lemma ShardOpRuns(w: World, op: Op, r: nat)
    requires ShardOp(op) && r in w.db.runs && r < w.db.unused
    ensures RunKept(w.db.runs, Step(w, op).db.runs, r)
  {
    match op
    case StartRun => RunTransactionsKeepRuns(w.db, 0, 0, 0, 0, r);
    case StartTail(cutoff) => RunTransactionsKeepRuns(w.db, 0, 0, 0, cutoff, r);
    case SeedPrimary(run, count) => RunTransactionsKeepRuns(w.db, run, count, 0, 0, r);
    case AddRepair(run, lower, upper, count) => RunTransactionsKeepRuns(w.db, run, count, lower, upper, r);
    case ClaimShard(worker, shard) => if ShardClaimable(w, worker, shard) { ShardTransactionsKeepRuns(w.db, shard, 0, Working, [], 0, false, r); }
    case SplitOwned(worker, desired) => if Owns(w, worker) { ShardTransactionsKeepRuns(w.db, w.owned[worker].shard, desired, Again, [], 0, false, r); }
    case GiveBackShard(worker) => if Owns(w, worker) { ShardTransactionsKeepRuns(w.db, w.owned[worker].shard, 0, Again, [], 0, false, r); }
    case TakePage(worker, page) =>
      if Owns(w, worker) {
        var p := PlanOf(w.owned[worker].next, w.owned[worker].upper, page);
        if p.Advance? {
          ShardTransactionsKeepRuns(w.db, w.owned[worker].shard, 0, Again, p.candidates, p.next, p.reached, r);
        } else {
          ShardTransactionsKeepRuns(w.db, w.owned[worker].shard, 0, Again, [], 0, false, r);
        }
      }
    case AbandonShard(worker) =>
    case Restart(now) =>
  }

  lemma SettlingRuns(w: World, op: Op, r: nat)
    requires SettlingOp(op) && r in w.db.runs
    ensures RunKept(w.db.runs, Step(w, op).db.runs, r)
  {
  }

  lemma AccountOpRuns(w: World, op: Op, r: nat)
    requires AccountOp(op) && r in w.db.runs
    ensures r in Step(w, op).db.runs
    ensures !op.CountAttempts? ==> RunKept(w.db.runs, Step(w, op).db.runs, r)
  {
    if SettlingOp(op) { SettlingRuns(w, op, r); }
  }

  lemma OtherOpRuns(w: World, op: Op, r: nat)
    requires !ShardOp(op) && !AccountOp(op) && r in w.db.runs
    ensures RunKept(w.db.runs, Step(w, op).db.runs, r)
  {
  }

  lemma RunsStay(w: World, op: Op, r: nat)
    requires r in w.db.runs && r < w.db.unused
    ensures r in Step(w, op).db.runs
    ensures !op.CountAttempts? ==> Step(w, op).db.runs[r].attempted == w.db.runs[r].attempted
  {
    if ShardOp(op) { ShardOpRuns(w, op, r); } else if AccountOp(op) { AccountOpRuns(w, op, r); } else { OtherOpRuns(w, op, r); }
  }

  predicate SettlingOp(op: Op) { op.CompleteAccounts? || op.CompleteGone? }

  lemma SettlingShards(w: World, op: Op)
    requires SettlingOp(op)
    ensures Step(w, op).db.shards == w.db.shards && Step(w, op).past.seeded == w.past.seeded
  {
  }

  lemma AccountOpShards(w: World, op: Op)
    requires AccountOp(op)
    ensures Step(w, op).db.shards == w.db.shards && Step(w, op).past.seeded == w.past.seeded
  {
    if SettlingOp(op) { SettlingShards(w, op); }
  }

  lemma QueueOpShards(w: World, op: Op)
    requires !ShardOp(op)
    ensures Step(w, op).db.shards == w.db.shards && Step(w, op).past.seeded == w.past.seeded
  {
    if AccountOp(op) { AccountOpShards(w, op); }
  }

  lemma SeededStep(w: World, op: Op, r: nat)
    requires r in w.past.seeded && r < w.db.unused
    ensures r in Step(w, op).past.seeded && w.past.seeded[r] <= Step(w, op).past.seeded[r]
  {
    if !ShardOp(op) { QueueOpShards(w, op); }
  }

  lemma {:induction false} SeededForGood(listing: Listing, w: World, ops: seq<Op>, r: nat)
    requires Inv(listing, w) && Legal(listing, w, ops) && r in w.db.runs
    ensures r in Execute(w, ops).db.runs && r in w.past.seeded && r in Execute(w, ops).past.seeded
    ensures w.past.seeded[r] <= Execute(w, ops).past.seeded[r]
  {
    RunFact(listing, w, r);
    if |ops| > 0 {
      var w1 := Execute(w, ops[..|ops| - 1]);
      SeededForGood(listing, w, ops[..|ops| - 1], r);
      Onwards(listing, w, ops[..|ops| - 1]);
      RunFact(listing, w1, r);
      RunsStay(w1, ops[|ops| - 1], r);
      SeededStep(w1, ops[|ops| - 1], r);
    }
  }

  /**
   No gap: if the primary shards were cut before any repair, then however claims,
   pages, splits, requeues, restarts and recoveries interleave, once all shards of
   the run are completed every user up to the cutoff was enqueued, and every
   account that was enqueued is still queued for the run or was settled for it.
   */
  lemma NoEnumerationGap(listing: Listing, w: World, run: nat, count: int, ops: seq<Op>, x: int)
    requires WellFormed(listing) && Reachable(listing, w)
    requires run in w.db.runs && w.db.runs[run].cutoff.Some? && count >= 2 && !HasShards(w.db.shards, run)
    requires Legal(listing, StepSeedPrimary(w, run, count), ops)
    requires x in listing.users && 0 < x <= w.db.runs[run].cutoff.value
    ensures var w' := Execute(StepSeedPrimary(w, run, count), ops);
            !Unfinished(w'.db.shards, run) ==>
              && run in w'.past.enqueued && x in w'.past.enqueued[run]
              && (Queued(w'.db.queue, Some(run), Global, x) || HasSettled(w'.past.settled, run, x))
  {
    var w1 := StepSeedPrimary(w, run, count);
    PrimaryCoversAll(listing, w, run, count);
    ReachableInv(listing, w);
    SeedPrimaryKeeps(listing, w, run, count);
    SeededForGood(listing, w1, ops, run);
    Onwards(listing, w1, ops);
    var w' := Execute(w1, ops);
    if !Unfinished(w'.db.shards, run) {
      RunFact(listing, w', run);
      EnqueuedExactly(listing, run, w'.db.runs[run], w'.db.shards, w'.past.enqueued, w'.past.seeded);
      assert Inside(Piece(0, w.db.runs[run].cutoff.value), x);
    }
  }

  // ------------------------------------------------------------ sound completion

  lemma SoundGrows(w: World, op: Op)
    ensures w.past.sound <= Step(w, op).past.sound
  {
  }

  lemma {:induction false} SoundForGood(w: World, ops: seq<Op>)
    ensures w.past.sound <= Execute(w, ops).past.sound
  {
    if |ops| > 0 {
      SoundForGood(w, ops[..|ops| - 1]);
      SoundGrows(Execute(w, ops[..|ops| - 1]), ops[|ops| - 1]);
    }
  }

  predicate Repairs(op: Op, run: nat) { op.AddRepair? && op.run == run }

  ghost predicate NotReseeded(m: Monitor, run: nat) { m.Idle? || m.run != run || !m.reseeded }

  lemma {:induction false} NoRepairNoReseed(w: World, ops: seq<Op>, run: nat)
    requires NotReseeded(w.monitor, run)
    requires forall k :: 0 <= k < |ops| ==> !Repairs(ops[k], run)
    ensures NotReseeded(Execute(w, ops).monitor, run)
  {
    if |ops| > 0 {
      var front, op := Execute(w, ops[..|ops| - 1]), ops[|ops| - 1];
      NoRepairNoReseed(w, ops[..|ops| - 1], run);
      if ShardOp(op) {
      } else if ArrivalOp(op) || AccountOp(op) {
      } else {
      }
    }
  }

  /**
   Sound completion, although the monitor reads in three separate steps: if no
   repair of the run is seeded since its first read, then when its commit closes the
   run, every shard of the run is completed and no account, overflow or anomaly row
   of the run exists, then or in any later state.
   */
  lemma CompletionIsSound(listing: Listing, w: World, ops: seq<Op>, run: nat, later: seq<Op>)
    requires WellFormed(listing) && Reachable(listing, w) && Legal(listing, w, ops)
    requires NotReseeded(w.monitor, run)
    requires forall k :: 0 <= k < |ops| ==> !Repairs(ops[k], run)
    requires run in Execute(w, ops).db.runs && Execute(w, ops).db.runs[run].running
    requires !StepCommitRun(Execute(w, ops)).db.runs[run].running
    requires Legal(listing, StepCommitRun(Execute(w, ops)), later)
    ensures var w' := Execute(StepCommitRun(Execute(w, ops)), later);
            Clear(run, w'.db, w'.ow.scans) && !w'.db.runs[run].running
  {
    ReachableInv(listing, w);
    Onwards(listing, w, ops);
    NoRepairNoReseed(w, ops, run);
    var w1 := Execute(w, ops);
    var w2 := StepCommitRun(w1);
    CommitKeeps(listing, w1);
    assert run in w2.past.sound;
    SoundForGood(w2, later);
    Onwards(listing, w2, later);
  }

  /** What the monitor's two reads would say of a run now. */
  predicate StillDone(w: World, run: nat) {
    && run in w.db.runs && w.db.runs[run].enumerationComplete && w.db.runs[run].processed >= w.db.runs[run].enumerated
    && !OverflowPending(w.ow.scans, run) && !AnomalyPending(w.db, run)
  }

  /**
   Exactly when a commit is right, repairs or not: all shards of the run are completed
   and nothing of it is pending after the commit iff the monitor's checks, repeated
   right before it, still pass.
   */
  lemma CommitRightIff(listing: Listing, w: World, run: nat, reseeded: bool)
    requires WellFormed(listing) && Reachable(listing, w)
    requires w.monitor == SawClear(run, reseeded) && run in w.db.runs
    ensures Clear(run, StepCommitRun(w).db, StepCommitRun(w).ow.scans) <==> StillDone(w, run)
  {
    ReachableInv(listing, w);
    RunFact(listing, w, run);
    CountRow(listing, w, run);
    CommitKeepsClear(w, run, reseeded);
  }

  lemma CommitKeepsClear(w: World, run: nat, reseeded: bool)
    requires w.monitor == SawClear(run, reseeded) && run in w.db.runs
    ensures Clear(run, StepCommitRun(w).db, StepCommitRun(w).ow.scans) <==> Clear(run, w.db, w.ow.scans)
  {
  }

  lemma CountRow(listing: Listing, w: World, run: nat)
    requires Inv(listing, w) && run in w.db.runs
    ensures w.db.runs[run].processed >= w.db.runs[run].enumerated <==> RowsOf(w.db.queue, run) == {}
  {
    assert CountOk(run, w.db.runs[run], w.db.queue);
  }

  lemma SettledFact(listing: Listing, w: World, i: nat)
    requires Inv(listing, w) && i in w.past.settled
    ensures SettledOk(w.past.settled[i], w.ow)
  {
  }

  lemma SettledOf(queue: Queue, enqueued: map<nat, set<int>>, settled: map<nat, Settlement>, r: nat, x: int) returns (i: nat)
    requires Accounted(queue, enqueued, settled) && r in enqueued && x in enqueued[r] && RowsOf(queue, r) == {}
    ensures i in settled && settled[i].job.run == Some(r) && settled[i].job.account == x
  {
    forall k | k in queue
      ensures queue[k].run != Some(r)
    {
      assert k !in RowsOf(queue, r);
    }
    i :| i in settled && settled[i].job.run == Some(r) && settled[i].job.account == x;
  }

  /** In a soundly closed run every user of its ranges was settled, and whatever had keys was published. */
  lemma ClosedRunSettledAll(listing: Listing, w: World, r: nat, x: int) returns (i: nat)
    requires WellFormed(listing) && Reachable(listing, w) && r in w.past.sound
    requires r in w.past.seeded && x in listing.users && Seeded(w.past.seeded[r], x)
    ensures i in w.past.settled && w.past.settled[i].job.run == Some(r) && w.past.settled[i].job.account == x
    ensures var s := w.past.settled[i];
            s.outcome.Published? || s.outcome.Overflowed? ==> s.job.scan in w.ow.log.finalized
  {
    ReachableInv(listing, w);
    RunFact(listing, w, r);
    EnqueuedExactly(listing, r, w.db.runs[r], w.db.shards, w.past.enqueued, w.past.seeded);
    i := SettledOf(w.db.queue, w.past.enqueued, w.past.settled, r, x);
    SettledFact(listing, w, i);
  }
}
