/**
 Claims, leases and counters over whole runs: old tokens are harmless, nothing is
 lost, and the counters of a run follow its queue.
 */
module Fencing {
  import opened Prelude
  import opened EnumerationPage
  import opened WorkTables
  import opened WorkProtocol
  import opened WorkProofs
  import opened QueueProofs
  import opened CompletionProofs
  import opened WorkTheorems
  import O = OverflowScan

  // ----------------------------------------------------------------- claims

  /** A row is in progress iff it has a token and a lease; the claim with its token says what the row says; no two rows share a token. */
  lemma ClaimExact(listing: Listing, w: World, i: nat)
    requires WellFormed(listing) && Reachable(listing, w) && i in w.db.queue
    ensures var a := w.db.queue[i];
            && (InProgress(a.status) <==> a.token.Some?) && (InProgress(a.status) <==> a.lease.Some?)
            && (a.token.Some? ==> a.token.value in w.past.issued && w.past.issued[a.token.value] == JobOf(i, a, a.token.value))
            && (forall j :: j in w.db.queue && a.token.Some? && w.db.queue[j].token == a.token ==> j == i)
  {
    ReachableInv(listing, w);
    var a := w.db.queue[i];
    forall j | j in w.db.queue
      ensures a.token.Some? && w.db.queue[j].token == a.token ==> j == i
      ensures AccountOk(j, w.db.queue[j], w.db.runs.Keys, w.past.enqueued, w.past.issued, w.ow.log.finalized, w.db.unused)
    {
    }
  }

  /** The claims an operation acts under. */
  function Claims(op: Op): seq<Job> {
    match op
    case FreeAccounts(jobs, _, _) => jobs
    case MarkAttempts(jobs) => jobs
    case CountAttempts(jobs) => jobs
    case CompleteAccounts(jobs, _, _, _) => jobs
    case CompleteGone(job, _) => [job]
    case _ => []
  }

  predicate Acts(op: Op) { op.FreeAccounts? || op.MarkAttempts? || op.CountAttempts? || op.CompleteAccounts? || op.CompleteGone? }

  /** Holders of other tokens never touch a row: not one column of it, whatever they attempt and whatever else their batch holds. */
  lemma OldTokenHarmless(w: World, op: Op, i: nat)
    requires Acts(op) && i in w.db.queue
    requires forall k :: 0 <= k < |Claims(op)| ==> !(Claims(op)[k].id == i && w.db.queue[i].token == Some(Claims(op)[k].token))
    ensures i in Step(w, op).db.queue && Step(w, op).db.queue[i] == w.db.queue[i]
  {
    NotTouched(w.db.queue, Claims(op), i);
    match op
    case FreeAccounts(jobs, to, due) => Untouched(w.db, jobs, to, due, i);
    case MarkAttempts(jobs) => Untouched(w.db, jobs, Retry, 0, i);
    case CountAttempts(jobs) => Untouched(w.db, jobs, Retry, 0, i);
    case CompleteAccounts(jobs, results, now, stages) =>
    case CompleteGone(job, now) => assert Claims(op)[0] == job;
  }

  lemma Untouched(db: Db, jobs: seq<Job>, to: AccountStatus, due: int, i: nat)
    requires i in db.queue && i !in Matched(db.queue, jobs)
    ensures i in FreeRows(db, jobs, to, due).queue && FreeRows(db, jobs, to, due).queue[i] == db.queue[i]
    ensures i in MarkAttempted(db, jobs).queue && MarkAttempted(db, jobs).queue[i] == db.queue[i]
    ensures i in CountAttempted(db, jobs).queue && CountAttempted(db, jobs).queue[i] == db.queue[i]
  {
  }

  lemma NotTouched(queue: Queue, jobs: seq<Job>, i: nat)
    requires i in queue
    requires forall k :: 0 <= k < |jobs| ==> !(jobs[k].id == i && queue[i].token == Some(jobs[k].token))
    ensures i !in Matched(queue, jobs)
  {
  }

  /** A batch completes whole or not at all. */
  lemma AllOrNothing(w: World, jobs: seq<Job>, results: seq<Result>, now: int, stages: nat)
    ensures var w' := StepComplete(w, jobs, results, now, stages);
            || w' == w
            || (&& (forall k :: 0 <= k < |jobs| ==> Held(w.db.queue, jobs[k]) && jobs[k].id !in w'.db.queue && jobs[k].id in w'.past.settled)
                && (forall i :: i in w.db.queue ==> i in w'.db.queue || exists k :: 0 <= k < |jobs| && jobs[k].id == i)
                && (forall i :: i in w'.db.queue ==> i in w.db.queue && w'.db.queue[i] == w.db.queue[i]))
  {
    if !BatchRefused(w.db, w.ow, jobs, results) {
      AllHeld(w.db.queue, jobs);
      SettlementsAt(Owners(w.ow), jobs, results);
      forall k | 0 <= k < |jobs|
        ensures jobs[k].id in Matched(w.db.queue, jobs)
      {
        assert jobs[k] in jobs && Held(w.db.queue, jobs[k]);
      }
    }
  }

  /** A row leaves the queue only under its own current claim, in the step that settles it. */
  lemma LeavesOnlySettled(listing: Listing, w: World, op: Op, i: nat)
    requires WellFormed(listing) && Reachable(listing, w) && Possible(listing, w, op)
    requires i in w.db.queue && i !in Step(w, op).db.queue
    ensures op.CompleteAccounts? || op.CompleteGone?
    ensures i in Step(w, op).past.settled
    ensures var job := Step(w, op).past.settled[i].job;
            w.db.queue[i].token == Some(job.token) && job == JobOf(i, w.db.queue[i], job.token)
  {
    ReachableInv(listing, w);
    LeavesUnderClaim(listing, w, op, i);
  }

  lemma LeavesUnderClaim(listing: Listing, w: World, op: Op, i: nat)
    requires Inv(listing, w) && Possible(listing, w, op) && i in w.db.queue && i !in Step(w, op).db.queue
    ensures op.CompleteAccounts? || op.CompleteGone?
    ensures i in Step(w, op).past.settled
    ensures var job := Step(w, op).past.settled[i].job;
            w.db.queue[i].token == Some(job.token) && job == JobOf(i, w.db.queue[i], job.token)
  {
    if !op.CompleteAccounts? && !op.CompleteGone? { RowStays(listing, w, op, i); }
    if op.CompleteAccounts? {
      BatchLeaves(listing, w, op.jobs, op.results, op.now, op.stages, i);
    } else {
      GoneLeaves(listing, w, op.job, op.now, i);
    }
  }

  lemma RowStays(listing: Listing, w: World, op: Op, i: nat)
    requires Inv(listing, w) && i in w.db.queue && !op.CompleteAccounts? && !op.CompleteGone?
    ensures i in Step(w, op).db.queue && SameRow(w.db.queue[i], Step(w, op).db.queue[i])
  {
    RowsOld(listing, w);
    RowStaysIn(w, op, i);
  }

  lemma RowStaysIn(w: World, op: Op, i: nat)
    requires i in w.db.queue && !op.CompleteAccounts? && !op.CompleteGone?
    requires forall j :: j in w.db.queue ==> j < w.db.unused
    ensures i in Step(w, op).db.queue && SameRow(w.db.queue[i], Step(w, op).db.queue[i])
  {
    if op.CountAttempts? { CountingStays(w.db, op.jobs, i); } else { RowsPersist(w, op); }
  }

  lemma CountingStays(db: Db, jobs: seq<Job>, i: nat)
    requires i in db.queue
    ensures i in CountAttempted(db, jobs).queue && SameRow(db.queue[i], CountAttempted(db, jobs).queue[i])
  {
  }

  lemma GoneLeaves(listing: Listing, w: World, job: Job, now: int, i: nat)
    requires Inv(listing, w) && Known(w, [job]) && i in w.db.queue && i !in StepGone(w, job, now).db.queue
    ensures i in StepGone(w, job, now).past.settled && StepGone(w, job, now).past.settled[i].job == job
    ensures w.db.queue[i].token == Some(job.token) && job == JobOf(i, w.db.queue[i], job.token)
  {
    assert [job][0] == job;
    assert AccountOk(i, w.db.queue[i], w.db.runs.Keys, w.past.enqueued, w.past.issued, w.ow.log.finalized, w.db.unused);
  }

  lemma BatchLeaves(listing: Listing, w: World, jobs: seq<Job>, results: seq<Result>, now: int, stages: nat, i: nat)
    requires Inv(listing, w) && Known(w, jobs) && i in w.db.queue && i !in StepComplete(w, jobs, results, now, stages).db.queue
    ensures i in StepComplete(w, jobs, results, now, stages).past.settled
    ensures var job := StepComplete(w, jobs, results, now, stages).past.settled[i].job;
            w.db.queue[i].token == Some(job.token) && job == JobOf(i, w.db.queue[i], job.token)
  {
    AllHeld(w.db.queue, jobs);
    KnownTrue(w.db.queue, jobs, w.db.runs.Keys, w.past.enqueued, w.past.issued, w.ow.log.finalized, w.db.unused);
    SettlementsAt(Owners(w.ow), jobs, results);
    SettledKeys(w.db.queue, jobs, results, Owners(w.ow));
    var k :| 0 <= k < |jobs| && jobs[k].id == i;
  }

  /** Rows stay, about the same account and counted as they were. */
  ghost predicate Persist(q: Queue, q': Queue) {
    forall i :: i in q ==> i in q' && q'[i].counted == q[i].counted && SameRow(q[i], q'[i])
  }

  lemma ArrivalRows(w: World, op: Op)
    requires op.TakePage? || ArrivalOp(op)
    requires forall j :: j in w.db.queue ==> j < w.db.unused
    ensures Persist(w.db.queue, Step(w, op).db.queue)
  {
    match op
    case TakePage(worker, page) =>
      if Owns(w, worker) && PlanOf(w.owned[worker].next, w.owned[worker].upper, page).Advance? {
        InsertGrows(w.db.queue, w.db.unused, Some(w.owned[worker].run), Global, PlanOf(w.owned[worker].next, w.owned[worker].upper, page).candidates);
      }
    case AddAccounts(source, accounts) => InsertGrows(w.db.queue, w.db.unused, None, source, accounts);
    case ExtendTail(accounts, _) => InsertGrows(w.db.queue, w.db.unused, None, Tail, accounts);
    case StageFederation(accounts, now) => StageGrows(w.db.queue, w.db.unused, accounts, now);
  }

  lemma ShardTransactions(db: Db, s: nat, desired: int, status: ShardStatus)
    requires s in db.shards
    ensures SetShard(db, s, status).queue == db.queue && Rebalance(db, s, desired).queue == db.queue
  {
  }

  lemma ShardRows(w: World, op: Op)
    requires ShardOp(op) && !op.TakePage? && !op.Restart?
    ensures Step(w, op).db.queue == w.db.queue
  {
    match op
    case StartRun =>
    case StartTail(cutoff) =>
    case SeedPrimary(run, count) =>
    case AddRepair(run, lower, upper, count) =>
    case ClaimShard(worker, shard) => if ShardClaimable(w, worker, shard) { ShardTransactions(w.db, shard, 0, Working); }
    case SplitOwned(worker, desired) => if Owns(w, worker) { ShardTransactions(w.db, w.owned[worker].shard, desired, Again); }
    case GiveBackShard(worker) => if Owns(w, worker) { ShardTransactions(w.db, w.owned[worker].shard, 0, Again); }
    case AbandonShard(worker) =>
  }

  lemma Claiming(db: Db, picked: seq<nat>, to: AccountStatus, now: int)
    ensures Persist(db.queue, ClaimRows(db, picked, to, now).queue)
  {
  }

  lemma AccountRows(w: World, op: Op)
    requires op.Restart? || (AccountOp(op) && !op.CompleteAccounts? && !op.CompleteGone? && !op.CountAttempts?)
    ensures Persist(w.db.queue, Step(w, op).db.queue)
  {
    if op.Restart? {
    } else {
      match op
      case ReapLeases(now) =>
      case FreeAccounts(jobs, to, due) =>
      case MarkAttempts(jobs) =>
      case ClaimAccounts(picked, from, now) =>
        if PickOk(w.db.queue, picked, from, now) {
          Claiming(w.db, picked, if from.Fallback? then FallbackRunning else Running, now);
        } else {
          assert Step(w, op).db.queue == w.db.queue;
        }
    }
  }

  lemma ScanRows(w: World, op: Op)
    requires !ShardOp(op) && !ArrivalOp(op) && !AccountOp(op)
    ensures Step(w, op).db.queue == w.db.queue
  {
  }

  lemma RowsPersist(w: World, op: Op)
    requires !op.CompleteAccounts? && !op.CompleteGone? && !op.CountAttempts?
    requires forall j :: j in w.db.queue ==> j < w.db.unused
    ensures Persist(w.db.queue, Step(w, op).db.queue)
  {
    if op.TakePage? || ArrivalOp(op) {
      ArrivalRows(w, op);
    } else if op.Restart? || AccountOp(op) {
      AccountRows(w, op);
    } else if ShardOp(op) {
      ShardRows(w, op);
    } else {
      ScanRows(w, op);
    }
  }

  /** Nothing is lost: every row ever created is queued or settled, never both, and what was settled as overflow is still scanned for the same run or was published. */
  lemma NoLostWork(listing: Listing, w: World)
    requires WellFormed(listing) && Reachable(listing, w)
    ensures w.past.created == w.db.queue.Keys + w.past.settled.Keys && w.db.queue.Keys !! w.past.settled.Keys
    ensures forall i :: i in w.past.settled && w.past.settled[i].outcome.Published? ==> w.past.settled[i].job.scan in w.ow.log.finalized
    ensures forall i :: i in w.past.settled && w.past.settled[i].outcome.Overflowed? ==>
              w.past.settled[i].job.scan in w.ow.log.finalized || StillScanned(w.past.settled[i].job, w.ow.scans)
  {
    ReachableInv(listing, w);
    forall i | i in w.past.settled ensures SettledOk(w.past.settled[i], w.ow) { SettledFact(listing, w, i); }
  }

  // --------------------------------------------------------------- counters

  /** Counters: what is not processed is queued, every processed account has one classification, the backlog is never negative. */
  lemma CountersConserved(listing: Listing, w: World, r: nat)
    requires WellFormed(listing) && Reachable(listing, w) && r in w.db.runs
    ensures var run := w.db.runs[r];
            && run.enumerated - run.processed == |RowsOf(w.db.queue, r)|
            && run.processed == run.zero + run.owner + run.inaccessible + run.errors
            && 0 <= run.attempted <= run.enumerated && 0 <= run.enumerated - run.processed
  {
    ReachableInv(listing, w);
    assert CountOk(r, w.db.runs[r], w.db.queue);
  }

  /** The rows of a run that a step counts as attempted. */
  function NewlyCounted(q: Queue, q': Queue, r: nat): set<nat> {
    set i | i in UncountedOf(q, r) && i in q' && q'[i].counted
  }

  /** Attempts are counted exactly once: the counter moves by the rows that become counted, and a counted row stays counted. */
  lemma AttemptsExact(listing: Listing, w: World, op: Op, r: nat)
    requires WellFormed(listing) && Reachable(listing, w) && r in w.db.runs
    ensures r in Step(w, op).db.runs
    ensures Step(w, op).db.runs[r].attempted == w.db.runs[r].attempted + |NewlyCounted(w.db.queue, Step(w, op).db.queue, r)|
    ensures forall i :: i in w.db.queue && i in Step(w, op).db.queue && w.db.queue[i].counted ==> Step(w, op).db.queue[i].counted
  {
    ReachableInv(listing, w);
    RowsOld(listing, w);
    RunFact(listing, w, r);
    if op.CountAttempts? {
      AttemptsCounted(w.db, op.jobs, r);
    } else {
      CountedSame(w, op);
      RunsStay(w, op, r);
      assert NewlyCounted(w.db.queue, Step(w, op).db.queue, r) == {};
    }
  }

  lemma AttemptsCounted(db: Db, jobs: seq<Job>, r: nat)
    requires CountInv(db.runs, db.queue) && r in db.runs
    ensures var db' := CountAttempted(db, jobs);
            && r in db'.runs && db'.runs[r].attempted == db.runs[r].attempted + |NewlyCounted(db.queue, db'.queue, r)|
            && (forall i :: i in db.queue ==> i in db'.queue && (db.queue[i].counted ==> db'.queue[i].counted))
  {
    if AllMatched(db.queue, jobs) {
      NoClip(db, jobs, r);
      assert NewlyCounted(db.queue, CountAttempted(db, jobs).queue, r) == Matched(db.queue, jobs) * UncountedOf(db.queue, r);
    } else {
      assert NewlyCounted(db.queue, db.queue, r) == {};
    }
  }

  lemma CountedSame(w: World, op: Op)
    requires !op.CountAttempts? && forall j :: j in w.db.queue ==> j < w.db.unused
    ensures SameCounted(w.db.queue, Step(w, op).db.queue)
  {
    if !op.CompleteAccounts? && !op.CompleteGone? { RowsPersist(w, op); }
  }

  // ----------------------------------------------------------- leases and lanes

  /**
   A claim made at `now` survives every reaping within two hours; any later reaping frees
   the row, in the lane it was claimed from, and nobody holds it.
   */
  lemma ClaimLasts(w: World, picked: seq<nat>, from: AccountStatus, now: int, later: int, i: nat)
    requires PickOk(w.db.queue, picked, from, now) && i in picked && i in w.db.queue
    ensures var w1 := StepClaimAccounts(w, picked, from, now);
            var q := ReapAccounts(w1.db, later).queue;
            && i in w1.db.queue && InProgress(w1.db.queue[i].status) && i in q
            && (later <= now + LEASE ==> q[i] == w1.db.queue[i])
            && (later > now + LEASE ==>
                  && q[i].token == None && q[i].status == (if from.Fallback? then Fallback else Retry)
                  && forall job: Job :: job.id == i ==> !Held(q, job))
  {
  }

  /** A row returned by its holder is not claimed before it is due. */
  lemma RequeuedWaits(w: World, jobs: seq<Job>, to: AccountStatus, due: int, picked: seq<nat>, from: AccountStatus,
                      now: int, k: nat)
    requires k < |jobs| && Held(w.db.queue, jobs[k]) && now < due
    ensures PickOk(FreeRows(w.db, jobs, to, due).queue, picked, from, now) ==> jobs[k].id !in picked
  {
    assert jobs[k] in jobs;
    assert jobs[k].id in Matched(w.db.queue, jobs);
  }

  predicate InFallback(s: AccountStatus) { s.Fallback? || s.FallbackRunning? }

  ghost predicate SameLane(q: Queue, q': Queue) {
    forall i :: i in q && i in q' ==> (InFallback(q'[i].status) <==> InFallback(q[i].status))
  }

  lemma LanesReleased(db: Db, now: int)
    ensures SameLane(db.queue, ReapAccounts(db, now).queue) && SameLane(db.queue, Recover(db, now).queue)
  {
  }

  lemma LanesClaimed(db: Db, picked: seq<nat>, from: AccountStatus, now: int)
    requires PickOk(db.queue, picked, from, now)
    ensures SameLane(db.queue, ClaimRows(db, picked, if from.Fallback? then FallbackRunning else Running, now).queue)
  {
  }

  lemma LanesArrived(w: World, op: Op)
    requires op.TakePage? || ArrivalOp(op)
    requires forall j :: j in w.db.queue ==> j < w.db.unused
    ensures SameLane(w.db.queue, Step(w, op).db.queue)
  {
    match op
    case TakePage(worker, page) =>
      if Owns(w, worker) && PlanOf(w.owned[worker].next, w.owned[worker].upper, page).Advance? {
        InsertGrows(w.db.queue, w.db.unused, Some(w.owned[worker].run), Global, PlanOf(w.owned[worker].next, w.owned[worker].upper, page).candidates);
      }
    case AddAccounts(source, accounts) => InsertGrows(w.db.queue, w.db.unused, None, source, accounts);
    case ExtendTail(accounts, _) => InsertGrows(w.db.queue, w.db.unused, None, Tail, accounts);
    case StageFederation(accounts, now) => StageGrows(w.db.queue, w.db.unused, accounts, now);
  }

  lemma LanesWorked(w: World, op: Op)
    requires AccountOp(op) && !op.FreeAccounts?
    ensures SameLane(w.db.queue, Step(w, op).db.queue)
  {
    match op
    case ReapLeases(now) => LanesReleased(w.db, now);
    case ClaimAccounts(picked, from, now) => if PickOk(w.db.queue, picked, from, now) { LanesClaimed(w.db, picked, from, now); }
    case MarkAttempts(jobs) =>
    case CountAttempts(jobs) =>
    case CompleteAccounts(_, _, _, _) =>
    case CompleteGone(_, _) =>
  }

  lemma LanesKept(w: World, op: Op)
    requires !op.FreeAccounts? && forall j :: j in w.db.queue ==> j < w.db.unused
    ensures SameLane(w.db.queue, Step(w, op).db.queue)
  {
    if op.TakePage? || ArrivalOp(op) {
      LanesArrived(w, op);
    } else if op.Restart? {
      LanesReleased(w.db, op.now);
    } else if AccountOp(op) {
      LanesWorked(w, op);
    } else if ShardOp(op) {
      ShardRows(w, op);
    } else {
      ScanRows(w, op);
    }
  }

  /** Only its holder moves a row between the primary and the fallback lane; claims, leases, crashes and reaping leave it where it is. */
  lemma LaneChangesOnlyByHolder(listing: Listing, w: World, op: Op, i: nat)
    requires WellFormed(listing) && Reachable(listing, w)
    requires i in w.db.queue && i in Step(w, op).db.queue
    requires InFallback(Step(w, op).db.queue[i].status) != InFallback(w.db.queue[i].status)
    ensures op.FreeAccounts? && exists k :: 0 <= k < |op.jobs| && op.jobs[k].id == i && w.db.queue[i].token == Some(op.jobs[k].token)
  {
    ReachableInv(listing, w);
    RowsOld(listing, w);
    if op.FreeAccounts? {
      if forall k :: 0 <= k < |op.jobs| ==> !(op.jobs[k].id == i && w.db.queue[i].token == Some(op.jobs[k].token)) {
        OldTokenHarmless(w, op, i);
      }
    } else {
      LanesKept(w, op);
    }
  }
}
