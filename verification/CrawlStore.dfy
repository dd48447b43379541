/**
 The crawl tables as the store updates them: loops over shards, candidates and
 claims, with a rollback where the transaction finds out late that it must not
 commit.  Every method is proved to be the transaction of WorkTables it implements.
 */
module CrawlStore {
  import opened Prelude
  import opened RangeDivision
  import opened WorkTables
  import P = Publication
  import O = OverflowScan
  import Q = OverflowQueue

  class Store {
    var runs: map<nat, Run>
    var shards: map<nat, Shard>
    var queue: Queue
    var anomalies: map<int, Option<nat>>
    var repairs: set<(nat, int, int, int)>
    var highwater: int
    var liveTail: bool
    var initialComplete: bool
    var initialEnumerated: bool
    var unused: nat
    const overflow: Q.OverflowTables

    function Database(): Db
      reads this
    {
      Db(runs, shards, queue, anomalies, repairs, highwater, liveTail, initialComplete, initialEnumerated, unused)
    }

    ghost predicate Valid()
      reads this
    {
      && (forall s :: s in shards ==> s < unused)
      && (forall i :: i in queue ==> i < unused)
    }

    constructor ()
      ensures Valid() && Database() == Db(map[], map[], map[], map[], {}, 0, false, false, false, 0)
      ensures fresh(overflow) && fresh(overflow.index)
    {
      runs, shards, queue, anomalies, repairs := map[], map[], map[], map[], {};
      highwater, liveTail, initialComplete, initialEnumerated, unused := 0, false, false, false, 0;
      overflow := new Q.OverflowTables();
    }

    // ---------------------------------------------------------------- runs

    method EnsureRun() returns (created: bool)
      requires Valid()
      modifies this`runs, this`unused
      ensures Valid() && Database() == EnsureMainRun(old(Database()))
      ensures created <==> ActiveRuns(old(Database())) == {}
    {
      if ActiveRuns(Database()) != {} { return false; }
      var cutoff := if initialComplete then Some(highwater) else None;
      runs := runs[unused := Run(!initialComplete, true, cutoff, 0, false, 0, 0, 0, 0, 0, 0, 0)];
      unused := unused + 1;
      created := true;
    }

    method InitializeTail(cutoff: int) returns (initialized: bool)
      requires Valid()
      modifies this`runs, this`highwater, this`liveTail
      ensures Valid() && Database() == InitializeLiveTail(old(Database()), cutoff) && initialized == !old(liveTail)
      ensures runs.Keys == old(runs).Keys && forall r :: r in runs && runs[r] != old(runs)[r] ==> old(runs)[r].cutoff.None?
      ensures initialized ==> highwater == cutoff && forall r :: r in runs && runs[r].initial && runs[r].running ==> runs[r].cutoff.Some?
    {
      if liveTail { return false; }
      runs := map r | r in runs ::
        if runs[r].initial && runs[r].running && runs[r].cutoff.None? then runs[r].(cutoff := Some(cutoff)) else runs[r];
      highwater := cutoff;
      liveTail := true;
      initialized := true;
    }

    /** The last step of MaybeCompleteMain. */
    method CompleteRun(run: nat)
      requires Valid() && run in runs
      modifies this`runs, this`initialComplete
      ensures Valid() && Database() == CloseRun(old(Database()), run)
      ensures ActiveRuns(Database()) == ActiveRuns(old(Database())) - {run}
      ensures runs.Keys == old(runs).Keys && forall r :: r in runs && r != run ==> runs[r] == old(runs)[r]
      ensures initialComplete <==> old(initialComplete) || runs[run].initial
    {
      if runs[run].initial { initialComplete := true; }
      runs := runs[run := runs[run].(running := false)];
    }

    // -------------------------------------------------------------- shards

    method InsertShard(run: nat, repair: bool, lower: int, upper: int)
      modifies this`shards, this`unused
      ensures unused == old(unused) + 1
      ensures shards == old(shards)[old(unused) := NewShard(run, repair, Piece(lower, upper))]
    {
      shards := shards[unused := Shard(run, repair, lower, upper, lower, Waiting)];
      unused := unused + 1;
    }

    method EnsureShards(run: nat, count: int)
      requires Valid() && run in runs
      modifies this`shards, this`unused
      ensures Valid() && Database() == EnsureEnumerationShards(old(Database()), run, count)
    {
      var row := runs[run];
      if row.cutoff.None? || row.cutoff.value <= row.nextSince || count < 2 { return; }
      if HasShards(shards, run) { return; }
      CutPrimary(run, row.nextSince, row.cutoff.value, count);
    }

    method CutPrimary(run: nat, nextSince: int, cutoff: int, count: int)
      requires Valid() && count >= 1 && nextSince < cutoff
      modifies this`shards, this`unused
      ensures Valid() && unused == old(unused) + |PrimaryPieces(nextSince, cutoff, count)|
      ensures shards == AddShards(old(shards), old(unused), run, false, PrimaryPieces(nextSince, cutoff, count))
    {
      var span := (cutoff - nextSince) / count;
      if span < 1 { span := 1; }
      var lower := nextSince;
      var index := 0;
      ghost var cut: seq<Piece> := [];
      AddNone(shards, unused, run, false);
      while index < count && lower < cutoff
        invariant 0 <= index <= count
        invariant cut + PrimaryFrom(lower, cutoff, span, index, count) == PrimaryPieces(nextSince, cutoff, count)
        invariant shards == AddShards(old(shards), old(unused), run, false, cut) && unused == old(unused) + |cut|
        decreases count - index
      {
        var upper := lower + span;
        if index == count - 1 || upper > cutoff { upper := cutoff; }
        AddOne(old(shards), old(unused), run, false, cut, Piece(lower, upper));
        OneMoreCut(cut, lower, upper, cutoff, span, index, count);
        InsertShard(run, false, lower, upper);
        cut := cut + [Piece(lower, upper)];
        lower := upper;
        index := index + 1;
      }
      assert cut == PrimaryPieces(nextSince, cutoff, count);
      AddedValid(old(shards), old(unused), run, false, cut);
    }

    /** SeedEnumerationRepair. */
    method AddRepairShards(run: nat, lowerID: int, upperID: int, count: int) returns (ok: bool)
      requires Valid()
      modifies this
      ensures Valid() && Database() == SeedRepair(old(Database()), run, lowerID, upperID, count)
      ensures ok <==> !RepairRefused(old(Database()), run, lowerID, upperID, count)
    {
      if lowerID < 0 || upperID <= lowerID || count < 1 || count > 64 || count > upperID - lowerID { return false; }
      if run !in runs || !runs[run].running || runs[run].cutoff.None? || upperID > runs[run].cutoff.value { return false; }
      if (run, lowerID, upperID, count) in repairs { return false; }
      var savedShards, savedUnused := shards, unused;
      var inserted := InsertPieces(run, lowerID, upperID, count);
      if inserted != count {
        shards, unused := savedShards, savedUnused;
        return false;
      }
      runs := runs[run := runs[run].(enumerationComplete := false)];
      repairs := repairs + {(run, lowerID, upperID, count)};
      initialEnumerated := false;
      ok := true;
    }

    method RepairBounds(lowerID: int, upperID: int, count: int, index: int) returns (lower: int, upper: int)
      requires 0 <= index < count
      ensures Piece(lower, upper) == ProportionalPieces(lowerID, upperID, count)[index]
    {
      var span := upperID - lowerID;
      lower := lowerID + span * index / count;
      upper := lowerID + span * (index + 1) / count;
    }

    method SplitBounds(nextSince: int, originalUpper: int, pieces: int, part: int) returns (lower: int, upper: int)
      requires 1 <= part < pieces
      ensures Piece(lower, upper) == RebalancePieces(nextSince, originalUpper, pieces)[part]
    {
      var step := (originalUpper - nextSince) / pieces;
      lower := nextSince + step * part;
      upper := nextSince + step * (part + 1);
      if part == pieces - 1 { upper := originalUpper; }
    }

    /** A piece already in use is skipped; the caller notices from the count. */
    method InsertPieces(run: nat, lowerID: int, upperID: int, count: int) returns (inserted: int)
      requires Valid() && 1 <= count <= upperID - lowerID
      modifies this`shards, this`unused
      ensures inserted != count <==> !NoneTaken(old(shards), run, ProportionalPieces(lowerID, upperID, count))
      ensures inserted == count ==>
                && Valid() && unused == old(unused) + count
                && shards == AddShards(old(shards), old(unused), run, true, ProportionalPieces(lowerID, upperID, count))
    {
      ghost var pieces := ProportionalPieces(lowerID, upperID, count);
      ProportionalTiles(lowerID, upperID, count);
      inserted := 0;
      var index := 0;
      AddNone(shards, unused, run, true);
      assert pieces[..0] == [];
      while index < count
        invariant 0 <= index <= count
        invariant Inserting(old(shards), old(unused), run, pieces[..index], inserted, shards, unused)
      {
        var lower, upper := RepairBounds(lowerID, upperID, count, index);
        assert pieces[..index + 1] == pieces[..index] + [pieces[index]];
        InsertingNext(old(shards), old(unused), run, pieces, lowerID, upperID, index, inserted, shards, unused);
        if !Taken(shards, run, Piece(lower, upper)) {
          InsertShard(run, true, lower, upper);
          inserted := inserted + 1;
        }
        index := index + 1;
      }
      assert pieces[..index] == pieces;
      AddedValid(old(shards), old(unused), run, true, pieces);
    }

    /** RebalanceOwnedEnumerationShard; any conflict undoes the whole split. */
    method RebalanceOwned(s: nat, desired: int) returns (newUpper: int)
      requires Valid() && s in shards && shards[s].lower <= shards[s].next
      modifies this`shards, this`unused
      ensures Valid() && Database() == Rebalance(old(Database()), s, desired)
      ensures s in shards && newUpper == shards[s].upper
    {
      var shard := shards[s];
      if desired < 2 || !shard.status.Working? { return shard.upper; }
      var active := |set t | t in shards && shards[t].run == shard.run && !shards[t].status.Completed?|;
      var missing := desired - active;
      if missing <= 0 { return shard.upper; }
      var pieces := missing + 1;
      var remaining := shard.upper - shard.next;
      if remaining < pieces * 100 { return shard.upper; }
      ghost var before := Database();
      var ok := SplitOwned(s, pieces);
      newUpper := shards[s].upper;
      SplitAsSpecified(before, s, desired, pieces, RebalancePieces(shard.next, shard.upper, pieces), shards, unused);
    }

    method SplitOwned(s: nat, pieces: int) returns (ok: bool)
      requires Valid() && s in shards && shards[s].lower <= shards[s].next && pieces >= 2 && shards[s].upper - shards[s].next >= pieces * 100
      modifies this`shards, this`unused
      ensures Valid() && s in shards
      ensures var ps := RebalancePieces(old(shards[s].next), old(shards[s].upper), pieces);
              if RebalanceConflicts(old(Database()), s, ps) then !ok && shards == old(shards) && unused == old(unused)
              else ok && Splitting(old(shards), old(unused), s, ps, pieces, shards, unused)
    {
      var shard := shards[s];
      var savedShards, savedUnused := shards, unused;
      ghost var ps := RebalancePieces(shard.next, shard.upper, pieces);
      RebalanceTiles(shard.next, shard.upper, pieces);
      var step := (shard.upper - shard.next) / pieces;
      var newUpper := shard.next + step;
      RebalancePieceAt(shard.next, shard.upper, pieces);
      if Taken(shards - {s}, shard.run, Piece(shard.lower, newUpper)) { return false; }
      shards := shards[s := shard.(upper := newUpper)];
      SplittingStart(savedShards, savedUnused, s, ps);
      ok := InsertParts(s, shard, pieces, savedShards, savedUnused);
      if ok {
        SplittingValid(savedShards, savedUnused, s, ps, shards, unused);
      } else {
        shards, unused := savedShards, savedUnused;
      }
    }

    /** The pieces after the first become new shards, until one conflicts. */
    method InsertParts(s: nat, shard: Shard, pieces: int, ghost before: map<nat, Shard>, ghost first: nat) returns (ok: bool)
      requires pieces >= 2 && (forall t :: t in before ==> t < first) && s in before && before[s] == shard
      requires shard.lower <= shard.next && Tiles(RebalancePieces(shard.next, shard.upper, pieces), shard.next, shard.upper)
      requires Splitting(before, first, s, RebalancePieces(shard.next, shard.upper, pieces), 1, shards, unused)
      modifies this`shards, this`unused
      ensures var ps := RebalancePieces(shard.next, shard.upper, pieces);
              if exists k :: 0 < k < |ps| && Taken(before - {s}, shard.run, ps[k]) then !ok
              else ok && Splitting(before, first, s, ps, pieces, shards, unused)
    {
      ghost var ps := RebalancePieces(shard.next, shard.upper, pieces);
      var part := 1;
      while part < pieces
        invariant 1 <= part <= pieces
        invariant Splitting(before, first, s, ps, part, shards, unused)
      {
        var lower, upper := SplitBounds(shard.next, shard.upper, pieces, part);
        SplittingNext(before, first, s, ps, part, shards, unused);
        if Taken(shards, shard.run, Piece(lower, upper)) { return false; }
        InsertShard(shard.run, shard.repair, lower, upper);
        part := part + 1;
      }
      ok := true;
    }

    method ClaimShard(s: nat) returns (ok: bool)
      requires Valid()
      modifies this`shards
      ensures Valid()
      ensures ok <==> s in old(shards) && (old(shards)[s].status.Waiting? || old(shards)[s].status.Again?)
      ensures Database() == if ok then SetShard(old(Database()), s, Working) else old(Database())
    {
      if s !in shards || !(shards[s].status.Waiting? || shards[s].status.Again?) { return false; }
      shards := shards[s := shards[s].(status := Working)];
      ok := true;
    }

    method RequeueShard(s: nat)
      requires Valid() && s in shards
      modifies this`shards
      ensures Valid() && Database() == SetShard(old(Database()), s, Again)
    {
      shards := shards[s := shards[s].(status := Again)];
    }

    // ------------------------------------------------------------- arrivals

    /** INSERT ... ON CONFLICT DO NOTHING RETURNING id, for one candidate. */
    method InsertAccount(run: Option<nat>, source: Source, account: int, ids: seq<nat>) returns (more: seq<nat>)
      modifies this`queue, this`unused
      ensures Inserted(queue, unused, more) == InsertOne(Inserted(old(queue), old(unused), ids), run, source, account)
    {
      if Queued(queue, run, source, account) { return ids; }
      more := ids + [unused];
      queue := queue[unused := NewAccount(run, source, account, unused + 1)];
      unused := unused + 2;
    }

    method EnqueuePage(run: Option<nat>, source: Source, accounts: seq<int>) returns (ids: seq<nat>)
      requires Valid()
      modifies this`queue, this`unused
      ensures Valid() && unused >= old(unused) && Inserted(queue, unused, ids) == Insert(old(queue), old(unused), run, source, accounts)
    {
      ids := [];
      var i := 0;
      assert accounts[..0] == [];
      while i < |accounts|
        invariant 0 <= i <= |accounts|
        invariant Inserted(queue, unused, ids) == Insert(old(queue), old(unused), run, source, accounts[..i])
      {
        InsertNext(old(queue), old(unused), run, source, accounts, i);
        ids := InsertAccount(run, source, accounts[i], ids);
        i := i + 1;
      }
      assert accounts[..i] == accounts;
      InsertBelow(old(queue), old(unused), run, source, accounts);
    }

    /** ApplyEnumerationShardPage. */
    method ApplyPage(s: nat, accounts: seq<int>, nextSince: int, complete: bool)
      requires Valid() && s in shards && shards[s].run in runs
      modifies this
      ensures Valid() && Database() == ApplyShardPage(old(Database()), s, accounts, nextSince, complete)
    {
      var run := shards[s].run;
      var inserted := EnqueuePage(Some(run), Global, accounts);
      shards := shards[s := shards[s].(next := nextSince, status := if complete then Completed else Working)];
      var row := runs[run];
      row := row.(nextSince := Max(row.nextSince, nextSince), enumerated := row.enumerated + |inserted|);
      if !Unfinished(shards, run) { row := row.(enumerationComplete := true); }
      runs := runs[run := row];
      if complete && !Unfinished(shards, run) { initialEnumerated := true; }
    }

    /** StageEntitySweepResults: rows born with a claim. */
    method StageResults(accounts: seq<int>, now: int) returns (ids: seq<nat>)
      requires Valid()
      modifies this`queue, this`unused
      ensures Valid() && Inserted(queue, unused, ids) == Stage(old(queue), old(unused), accounts, now)
    {
      ids := [];
      var i := 0;
      assert accounts[..0] == [];
      while i < |accounts|
        invariant 0 <= i <= |accounts| && Valid()
        invariant Inserted(queue, unused, ids) == Stage(old(queue), old(unused), accounts[..i], now)
      {
        assert accounts[..i + 1][..i] == accounts[..i];
        if !Queued(queue, None, Federation, accounts[i]) {
          queue := queue[unused := StagedAccount(accounts[i], unused + 1, unused + 2, now)];
          ids := ids + [unused];
          unused := unused + 3;
        }
        i := i + 1;
      }
      assert accounts[..i] == accounts;
    }

    // ------------------------------------------------------- claims and leases

    /** An autocommit update: rows that match are released even when others no longer do. */
    method Release(jobs: seq<Job>, to: AccountStatus, due: int) returns (ok: bool)
      requires Valid()
      modifies this`queue
      ensures Valid() && Database() == FreeRows(old(Database()), jobs, to, due)
      ensures ok <==> AllMatched(old(queue), jobs)
    {
      var before := queue;
      var affected: set<nat> := {};
      var i := 0;
      while i < |jobs|
        invariant 0 <= i <= |jobs|
        invariant affected == Matched(before, jobs[..i]) && queue == SetFreed(before, affected, to, due)
      {
        MatchedNext(before, jobs, i);
        FreedNext(before, affected, jobs[i].id, to, due);
        var job := jobs[i];
        if job.id in before && before[job.id].token == Some(job.token) {
          queue := queue[job.id := Freed(before[job.id], to, due)];
          affected := affected + {job.id};
        }
        i := i + 1;
      }
      assert jobs[..i] == jobs;
      ok := |affected| == |jobs|;
    }

    method ReapExpired(now: int)
      requires Valid()
      modifies this`queue, overflow
      ensures Valid() && Database() == ReapAccounts(old(Database()), now)
      ensures queue.Keys == old(queue).Keys
      ensures forall i :: i in queue && InProgress(queue[i].status) && queue[i].lease.Some? ==> now <= queue[i].lease.value
      ensures forall i :: i in queue && queue[i] != old(queue)[i] ==>
                InProgress(old(queue)[i].status) && queue[i].token == None && queue[i].due == now && SameRow(old(queue)[i], queue[i])
      ensures overflow.State() == O.Reap(old(overflow.State()), now)
    {
      queue := map i | i in queue ::
        if InProgress(queue[i].status) && queue[i].lease.Some? && queue[i].lease.value < now
        then Freed(queue[i], AfterLoss(queue[i].status), now) else queue[i];
      overflow.ReapExpired(now);
    }

    method RecoverAll(now: int)
      requires Valid()
      modifies this`queue, this`shards, overflow
      ensures Valid() && Database() == Recover(old(Database()), now)
      ensures queue.Keys == old(queue).Keys && shards.Keys == old(shards).Keys
      ensures forall i :: i in queue ==> !InProgress(queue[i].status) && SameRow(old(queue)[i], queue[i])
      ensures forall i :: i in queue && queue[i] != old(queue)[i] ==> InProgress(old(queue)[i].status) && queue[i].token == None
      ensures forall s :: s in shards ==> !shards[s].status.Working? && shards[s].next == old(shards)[s].next
      ensures overflow.State() == O.Recover(old(overflow.State()), now)
    {
      queue := map i | i in queue ::
        if InProgress(queue[i].status) then Freed(queue[i], AfterLoss(queue[i].status), now) else queue[i];
      overflow.RecoverAll(now);
      shards := map s | s in shards :: if shards[s].status.Working? then shards[s].(status := Again) else shards[s];
    }

    // ------------------------------------------------------------- attempts

    /** First transaction of MarkAccountsAttempted. */
    method MarkPhase(jobs: seq<Job>) returns (ok: bool)
      requires Valid()
      modifies this`queue
      ensures Valid() && Database() == MarkAttempted(old(Database()), jobs)
      ensures ok <==> AllMatched(old(queue), jobs)
    {
      var before := queue;
      var affected: set<nat> := {};
      var i := 0;
      while i < |jobs|
        invariant 0 <= i <= |jobs| && Valid()
        invariant affected == Matched(before, jobs[..i]) && queue == SetAttempted(before, affected)
      {
        MatchedNext(before, jobs, i);
        var job := jobs[i];
        if job.id in before && before[job.id].token == Some(job.token) {
          queue := queue[job.id := queue[job.id].(attempted := true)];
          affected := affected + {job.id};
        }
        i := i + 1;
      }
      assert jobs[..i] == jobs;
      ok := |affected| == |jobs|;
      if !ok { queue := before; }
    }

    /** The rows still claimed, those of them not counted yet, and how many of those each run has. */
    method TallyClaims(jobs: seq<Job>) returns (matched: set<nat>, uncounted: set<nat>, runCounts: map<nat, nat>)
      ensures matched == Matched(queue, jobs)
      ensures Tallied(queue, matched, uncounted, runCounts)
    {
      var rows := queue;
      matched, uncounted, runCounts := {}, {}, map[];
      var i := 0;
      while i < |jobs|
        invariant 0 <= i <= |jobs|
        invariant matched == Matched(rows, jobs[..i]) && Tallied(rows, matched, uncounted, runCounts)
      {
        MatchedNext(rows, jobs, i);
        var id := jobs[i].id;
        if id in rows && rows[id].token == Some(jobs[i].token) && id !in matched {
          OneMoreTallied(rows, matched, uncounted, runCounts, id);
          matched := matched + {id};
          if !rows[id].counted {
            uncounted := uncounted + {id};
            if rows[id].run.Some? {
              runCounts := OneUp(runCounts, rows[id].run.value);
            }
          }
        }
        i := i + 1;
      }
      assert jobs[..i] == jobs;
    }

    method AddRunCounts(runCounts: map<nat, nat>)
      modifies this`runs
      ensures runs.Keys == old(runs).Keys
      ensures forall r :: r in runs ==> runs[r] == AddAttempts(old(runs)[r], CountAt(runCounts, r))
    {
      var rest := runCounts.Keys * runs.Keys;
      while rest != {}
        invariant rest <= runCounts.Keys * old(runs).Keys && runs.Keys == old(runs).Keys
        invariant forall r :: r in runs && r in rest ==> runs[r] == old(runs)[r]
        invariant forall r :: r in runs && r !in rest ==>
          runs[r] == AddAttempts(old(runs)[r], CountAt(runCounts, r))
      {
        var r :| r in rest;
        if runCounts[r] > 0 {
          runs := runs[r := runs[r].(attempted := Min(runs[r].enumerated, runs[r].attempted + runCounts[r]))];
        }
        rest := rest - {r};
      }
    }

    /** Second transaction of MarkAccountsAttempted: count what was not counted, run by run. */
    method CountPhase(jobs: seq<Job>) returns (ok: bool)
      requires Valid()
      modifies this`queue, this`runs
      ensures Valid() && Database() == CountAttempted(old(Database()), jobs)
      ensures ok <==> AllMatched(old(queue), jobs)
    {
      var matched, uncounted, runCounts := TallyClaims(jobs);
      if |matched| != |jobs| { return false; }
      AddRunCounts(runCounts);
      MarkCounted(matched, uncounted);
      CountedEverywhere(old(Database()), Database(), jobs, runCounts);
      ok := true;
    }

    method MarkCounted(ghost matched: set<nat>, uncounted: set<nat>)
      requires forall q :: q in uncounted <==> q in matched && q in queue && !queue[q].counted
      modifies this`queue
      ensures queue == SetCounted(old(queue), matched) && queue.Keys == old(queue).Keys
    {
      queue := map q | q in queue :: if q in uncounted then queue[q].(counted := true) else queue[q];
    }

    // ------------------------------------------------------------ completion

    /** Settle one result; nothing is done for an account without keys that was no owner. */
    method SettleJob(job: Job, result: Result, ownerExists: bool, now: int, stages: nat, id: nat, ghost known: set<int>)
      requires ownerExists <==> job.account in known
      modifies overflow, overflow.index
      ensures overflow.State() == SettleOne(old(overflow.State()), known, job, result, now, stages, id)
    {
      if |result.keys| > 0 || ownerExists {
        overflow.index.Upsert(job.account, now);
        if result.hasMore {
          overflow.OpenScan(id, job.run, job.source, job.account, job.scan, now, O.KeyPage(result.keys, true, result.next, result.total));
        } else {
          overflow.PublishDirect(job.account, job.scan, now, result.keys, stages);
        }
      }
    }

    /** The loop over the batch; it stops where a result cannot be continued. */
    method SettleJobs(jobs: seq<Job>, results: seq<Result>, now: int, stages: nat) returns (ok: bool, completed: set<int>)
      requires |jobs| == |results|
      modifies overflow, overflow.index
      ensures ok <==> !(exists k :: 0 <= k < |jobs| && DeadEnd(old(Owners(overflow.State())), jobs[k], results[k]))
      ensures ok ==> overflow.State() == SettleAll(old(overflow.State()), old(Owners(overflow.State())), jobs, results, now, stages, unused)
      ensures ok ==> completed == Finished(jobs, results)
    {
      var ownerIDs := overflow.index.owners.Keys;
      completed := {};
      var index := 0;
      while index < |jobs|
        invariant 0 <= index <= |jobs|
        invariant forall k :: 0 <= k < index ==> !DeadEnd(ownerIDs, jobs[k], results[k])
        invariant overflow.State() == SettleAll(old(overflow.State()), ownerIDs, jobs[..index], results[..index], now, stages, unused)
        invariant completed == Finished(jobs[..index], results[..index])
      {
        var job, result := jobs[index], results[index];
        SettleNext(old(overflow.State()), ownerIDs, jobs, results, now, stages, unused, index);
        var ownerExists := job.account in ownerIDs;
        if (|result.keys| > 0 || ownerExists) && result.hasMore && result.next == "" { return false, completed; }
        SettleJob(job, result, ownerExists, now, stages, unused + index, ownerIDs);
        if !result.hasMore { completed := completed + {job.account}; }
        index := index + 1;
      }
      assert jobs[..index] == jobs && results[..index] == results;
      ok := true;
    }

    /** How many accounts of each run had no keys, and how many had some. */
    method Classify(jobs: seq<Job>, results: seq<Result>) returns (zeros: map<nat, nat>, owners: map<nat, nat>)
      requires |jobs| == |results|
      ensures TalliedJobs(jobs, results, zeros, owners)
    {
      zeros, owners := map[], map[];
      var index := 0;
      while index < |jobs|
        invariant 0 <= index <= |jobs|
        invariant TalliedJobs(jobs[..index], results[..index], zeros, owners)
      {
        assert jobs[..index + 1][..index] == jobs[..index] && results[..index + 1][..index] == results[..index];
        if jobs[index].run.Some? {
          var run := jobs[index].run.value;
          if |results[index].keys| > 0 { owners := OneUp(owners, run); } else { zeros := OneUp(zeros, run); }
        }
        index := index + 1;
      }
      assert jobs[..index] == jobs && results[..index] == results;
    }

    method AddClassified(zeros: map<nat, nat>, owners: map<nat, nat>)
      modifies this`runs
      ensures runs.Keys == old(runs).Keys
      ensures forall r :: r in runs ==> runs[r] == Classified(old(runs)[r], CountAt(zeros, r), CountAt(owners, r))
    {
      var rest := (zeros.Keys + owners.Keys) * runs.Keys;
      while rest != {}
        invariant rest <= (zeros.Keys + owners.Keys) * old(runs).Keys && runs.Keys == old(runs).Keys
        invariant forall r :: r in runs && r in rest ==> runs[r] == old(runs)[r]
        invariant forall r :: r in runs && r !in rest ==> runs[r] == Classified(old(runs)[r], CountAt(zeros, r), CountAt(owners, r))
      {
        var r :| r in rest;
        runs := runs[r := Classified(runs[r], CountAt(zeros, r), CountAt(owners, r))];
        rest := rest - {r};
      }
    }

    /** DELETE ... USING the claims; returns how many rows went. */
    method DeleteClaimed(jobs: seq<Job>) returns (affected: nat)
      requires Valid()
      modifies this`queue
      ensures Valid() && queue == old(queue) - Matched(old(queue), jobs) && affected == |Matched(old(queue), jobs)|
    {
      var before := queue;
      var gone: set<nat> := {};
      var i := 0;
      while i < |jobs|
        invariant 0 <= i <= |jobs|
        invariant gone == Matched(before, jobs[..i])
      {
        MatchedNext(before, jobs, i);
        if jobs[i].id in before && before[jobs[i].id].token == Some(jobs[i].token) { gone := gone + {jobs[i].id}; }
        i := i + 1;
      }
      assert jobs[..i] == jobs;
      queue := before - gone;
      affected := |gone|;
    }

    /** CompleteAccountsScheduled: a stale claim shows only when the rows are deleted, and then everything is undone. */
    method CompleteAccounts(jobs: seq<Job>, results: seq<Result>, now: int, stages: nat) returns (ok: bool)
      requires Valid()
      modifies this, overflow, overflow.index
      ensures Valid() && Database() == Complete(old(Database()), old(overflow.State()), jobs, results)
      ensures overflow.State() == CompleteScans(old(Database()), old(overflow.State()), jobs, results, now, stages)
      ensures ok <==> !BatchRefused(old(Database()), old(overflow.State()), jobs, results)
    {
      if |jobs| != |results| { return false; }
      var savedRows, savedStaging := overflow.rows, overflow.staging;
      var savedOwners, savedKeys := overflow.index.owners, overflow.index.keys;
      ghost var savedLog := overflow.log;
      var savedQueue := queue;
      var settled, completed := SettleJobs(jobs, results, now, stages);
      if settled {
        var affected := DeleteClaimed(jobs);
        if affected == |jobs| {
          FinishBatch(jobs, results, completed);
          return true;
        }
      }
      queue := savedQueue;
      overflow.rows, overflow.staging := savedRows, savedStaging;
      overflow.index.owners, overflow.index.keys := savedOwners, savedKeys;
      overflow.log := savedLog;
      ok := false;
    }

    /** Anomalies of finished accounts go, and the runs learn what their accounts were. */
    method FinishBatch(jobs: seq<Job>, results: seq<Result>, completed: set<int>)
      requires |jobs| == |results|
      modifies this`anomalies, this`runs, this`unused
      ensures anomalies == old(anomalies) - completed && runs == Counted(old(runs), jobs, results) && unused == old(unused) + |jobs|
    {
      anomalies := anomalies - completed;
      var zeros, owners := Classify(jobs, results);
      AddClassified(zeros, owners);
      ClassifiedEverywhere(old(runs), runs, jobs, results, zeros, owners);
      unused := unused + |jobs|;
    }

    method CompleteGone(job: Job, now: int) returns (ok: bool)
      requires Valid()
      modifies this, overflow, overflow.index
      ensures Valid() && Database() == CompleteInaccessible(old(Database()), job)
      ensures ok <==> Held(old(queue), job)
      ensures overflow.State() == if ok then O.Hide(old(overflow.State()), job.account, now) else old(overflow.State())
    {
      var savedOwners, savedKeys := overflow.index.owners, overflow.index.keys;
      overflow.index.Hide(job.account, now);
      if job.id !in queue || queue[job.id].token != Some(job.token) {
        overflow.index.owners, overflow.index.keys := savedOwners, savedKeys;
        return false;
      }
      queue := queue - {job.id};
      if job.run.Some? && job.run.value in runs {
        var row := runs[job.run.value];
        runs := runs[job.run.value := row.(processed := row.processed + 1, inaccessible := row.inaccessible + 1)];
      }
      anomalies := anomalies - {job.account};
      ok := true;
    }
  }

  /** A result with more keys but no cursor to continue from. */
  predicate DeadEnd(known: set<int>, job: Job, result: Result) {
    OutcomeOf(known, job, result).Overflowed? && result.next == ""
  }

  lemma SettleNext(w: O.World, known: set<int>, jobs: seq<Job>, results: seq<Result>, now: int, stages: nat, id: nat, i: nat)
    requires |jobs| == |results| && i < |jobs|
    ensures SettleAll(w, known, jobs[..i + 1], results[..i + 1], now, stages, id) ==
            SettleOne(SettleAll(w, known, jobs[..i], results[..i], now, stages, id), known, jobs[i], results[i], now, stages, id + i)
    ensures Finished(jobs[..i + 1], results[..i + 1]) ==
            Finished(jobs[..i], results[..i]) + (if results[i].hasMore then {} else {jobs[i].account})
  {
    assert jobs[..i + 1][..i] == jobs[..i] && results[..i + 1][..i] == results[..i];
  }

  function CountAt(counts: map<nat, nat>, r: nat): nat { if r in counts then counts[r] else 0 }

  function Classified(r: Run, z: nat, o: nat): Run {
    r.(processed := r.processed + z + o, zero := r.zero + z, owner := r.owner + o)
  }

  ghost predicate TalliedJobs(jobs: seq<Job>, results: seq<Result>, zeros: map<nat, nat>, owners: map<nat, nat>)
    requires |jobs| == |results|
  {
    forall r: nat :: CountAt(zeros, r) == Tally(jobs, results, r, false) && CountAt(owners, r) == Tally(jobs, results, r, true)
  }

  lemma ClassifiedEverywhere(before: map<nat, Run>, after: map<nat, Run>, jobs: seq<Job>, results: seq<Result>,
                             zeros: map<nat, nat>, owners: map<nat, nat>)
    requires |jobs| == |results| && TalliedJobs(jobs, results, zeros, owners) && after.Keys == before.Keys
    requires forall r :: r in after ==> after[r] == Classified(before[r], CountAt(zeros, r), CountAt(owners, r))
    ensures after == Counted(before, jobs, results)
  {
  }

  /** The tally of uncounted rows per run; a run without any has no entry. */
  ghost predicate CountsOf(queue: Queue, rows: set<nat>, counts: map<nat, nat>) {
    forall r: nat :: CountAt(counts, r) == |rows * UncountedOf(queue, r)|
  }

  ghost predicate Tallied(queue: Queue, rows: set<nat>, uncounted: set<nat>, counts: map<nat, nat>) {
    && (forall q :: q in uncounted <==> q in rows && q in queue && !queue[q].counted)
    && CountsOf(queue, rows, counts)
  }

  lemma UncountedMeet(queue: Queue, rows: set<nat>, i: nat, r: nat)
    requires i !in rows
    ensures |(rows + {i}) * UncountedOf(queue, r)| == |rows * UncountedOf(queue, r)| + (if i in UncountedOf(queue, r) then 1 else 0)
  {
    var u := UncountedOf(queue, r);
    MeetWithOneMore(u, rows, i);
    assert u * (rows + {i}) == (rows + {i}) * u && u * rows == rows * u;
  }

  function OneUp(counts: map<nat, nat>, r: nat): map<nat, nat> { counts[r := CountAt(counts, r) + 1] }

  lemma OneMoreTallied(queue: Queue, rows: set<nat>, uncounted: set<nat>, counts: map<nat, nat>, i: nat)
    requires Tallied(queue, rows, uncounted, counts) && i in queue && i !in rows
    ensures Tallied(queue, rows + {i}, if queue[i].counted then uncounted else uncounted + {i},
                    if !queue[i].counted && queue[i].run.Some? then OneUp(counts, queue[i].run.value) else counts)
  {
    forall r: nat { UncountedMeet(queue, rows, i, r); }
  }

  lemma CountedEverywhere(db: Db, db': Db, jobs: seq<Job>, counts: map<nat, nat>)
    requires AllMatched(db.queue, jobs) && CountsOf(db.queue, Matched(db.queue, jobs), counts)
    requires db' == db.(queue := SetCounted(db.queue, Matched(db.queue, jobs)), runs := db'.runs) && db'.runs.Keys == db.runs.Keys
    requires forall r :: r in db'.runs ==> db'.runs[r] == AddAttempts(db.runs[r], CountAt(counts, r))
    ensures db' == CountAttempted(db, jobs)
  {
  }

  lemma RebalancePieceAt(next: int, upper: int, pieces: int)
    requires pieces >= 2
    ensures var ps, step := RebalancePieces(next, upper, pieces), (upper - next) / pieces;
            && ps[0] == Piece(next, next + step)
            && (forall k :: 1 <= k < pieces ==> ps[k] == Piece(next + step * k, if k == pieces - 1 then upper else next + step * (k + 1)))
  {
    var step := (upper - next) / pieces;
    assert step * 0 == 0 && step * 1 == step;
  }

  /** The first `part` pieces are in place: the shrunken shard and new shards for the others. */
  ghost predicate Splitting(before: map<nat, Shard>, first: nat, s: nat, ps: seq<Piece>, part: nat,
                            shards: map<nat, Shard>, unused: nat) {
    && s in before && 1 <= part <= |ps| && unused == first + part - 1
    && (forall k :: 1 <= k < part ==> !Taken(before - {s}, before[s].run, ps[k]))
    && shards == AddShards(before[s := before[s].(upper := ps[0].hi)], first, before[s].run, before[s].repair, ps[1..part])
  }

  lemma SplittingValid(before: map<nat, Shard>, first: nat, s: nat, ps: seq<Piece>, shards: map<nat, Shard>, unused: nat)
    requires Splitting(before, first, s, ps, |ps|, shards, unused)
    requires forall t :: t in before ==> t < first
    ensures first <= unused && forall t :: t in shards ==> t < unused
  {
  }

  lemma SplitAsSpecified(db: Db, s: nat, desired: int, n: int, ps: seq<Piece>, shards: map<nat, Shard>, unused: nat)
    requires s in db.shards && n == RebalancePieceCount(db, s, desired) && n > 1
    requires ps == RebalancePieces(db.shards[s].next, db.shards[s].upper, n) && |ps| == n
    requires if RebalanceConflicts(db, s, ps) then shards == db.shards && unused == db.unused
             else Splitting(db.shards, db.unused, s, ps, n, shards, unused)
    ensures db.(shards := shards, unused := unused) == Rebalance(db, s, desired)
  {
    assert ps[1..n] == ps[1..];
  }

  lemma SplittingStart(before: map<nat, Shard>, first: nat, s: nat, ps: seq<Piece>)
    requires s in before && |ps| > 0
    ensures Splitting(before, first, s, ps, 1, before[s := before[s].(upper := ps[0].hi)], first)
  {
    assert ps[1..1] == [];
    AddNone(before[s := before[s].(upper := ps[0].hi)], first, before[s].run, before[s].repair);
  }

  lemma SplittingNext(before: map<nat, Shard>, first: nat, s: nat, ps: seq<Piece>, part: nat, shards: map<nat, Shard>,
                      unused: nat)
    requires Splitting(before, first, s, ps, part, shards, unused) && part < |ps| && forall t :: t in before ==> t < first
    requires Tiles(ps, before[s].next, before[s].upper) && before[s].lower <= before[s].next
    ensures Taken(shards, before[s].run, ps[part]) <==> Taken(before - {s}, before[s].run, ps[part])
    ensures !Taken(shards, before[s].run, ps[part]) ==>
              Splitting(before, first, s, ps, part + 1, shards[unused := NewShard(before[s].run, before[s].repair, ps[part])], unused + 1)
  {
    SplitTaken(before, first, s, ps, part);
    assert ps[1..part + 1] == ps[1..part] + [ps[part]];
    AddOne(before[s := before[s].(upper := ps[0].hi)], first, before[s].run, before[s].repair, ps[1..part], ps[part]);
  }

  /** The shrunken shard and the pieces already inserted do not stand in the way of the next piece. */
  lemma SplitTaken(shards: map<nat, Shard>, unused: nat, s: nat, ps: seq<Piece>, k: nat)
    requires s in shards && (forall t :: t in shards ==> t < unused) && 0 < k < |ps|
    requires Tiles(ps, shards[s].next, shards[s].upper) && shards[s].lower <= shards[s].next
    ensures var kept := shards[s := shards[s].(upper := ps[0].hi)];
            Taken(AddShards(kept, unused, shards[s].run, shards[s].repair, ps[1..k]), shards[s].run, ps[k]) <==>
            Taken(shards - {s}, shards[s].run, ps[k])
  {
    var run := shards[s].run;
    var kept := shards[s := shards[s].(upper := ps[0].hi)];
    var more := AddShards(kept, unused, run, shards[s].repair, ps[1..k]);
    forall j | 0 <= j < k ensures ps[j].hi <= ps[k].lo { BoundsGrow(ps, j, k); }
    if Taken(shards - {s}, run, ps[k]) {
      var t :| t in shards - {s} && shards[t].run == run && shards[t].lower == ps[k].lo && shards[t].upper == ps[k].hi;
      assert t in more && more[t] == shards[t];
    }
    forall t | t in more && t !in shards
      ensures more[t].lower < ps[k].lo
    {
      assert more[t].lower == ps[1..k][t - unused].lo == ps[t - unused + 1].lo;
    }
    if Taken(more, run, ps[k]) {
      var t :| t in more && more[t].run == run && more[t].lower == ps[k].lo && more[t].upper == ps[k].hi;
      assert t in shards - {s} && (shards - {s})[t] == more[t];
    }
  }

  /** The first pieces have been tried and `inserted` of them fitted. */
  ghost predicate Inserting(before: map<nat, Shard>, first: nat, run: nat, pieces: seq<Piece>, inserted: int,
                            shards: map<nat, Shard>, unused: nat) {
    && 0 <= inserted <= |pieces|
    && (inserted == |pieces| <==> NoneTaken(before, run, pieces))
    && (inserted == |pieces| ==> shards == AddShards(before, first, run, true, pieces) && unused == first + |pieces|)
  }

  lemma InsertingNext(before: map<nat, Shard>, first: nat, run: nat, pieces: seq<Piece>, lo: int, hi: int, k: nat,
                      inserted: int, shards: map<nat, Shard>, unused: nat)
    requires Tiles(pieces, lo, hi) && k < |pieces| && forall s :: s in before ==> s < first
    requires Inserting(before, first, run, pieces[..k], inserted, shards, unused)
    ensures Taken(shards, run, pieces[k]) ==> Inserting(before, first, run, pieces[..k] + [pieces[k]], inserted, shards, unused)
    ensures !Taken(shards, run, pieces[k]) ==>
              Inserting(before, first, run, pieces[..k] + [pieces[k]], inserted + 1, shards[unused := NewShard(run, true, pieces[k])], unused + 1)
  {
    NextTaken(before, run, pieces[..k], pieces[k]);
    if inserted == k {
      TakenSame(before, first, run, true, pieces, lo, hi, k);
      AddOne(before, first, run, true, pieces[..k], pieces[k]);
    }
  }

  ghost predicate NoneTaken(shards: map<nat, Shard>, run: nat, pieces: seq<Piece>) {
    forall p :: p in pieces ==> !Taken(shards, run, p)
  }

  lemma NextTaken(shards: map<nat, Shard>, run: nat, pieces: seq<Piece>, p: Piece)
    ensures NoneTaken(shards, run, pieces + [p]) <==> NoneTaken(shards, run, pieces) && !Taken(shards, run, p)
  {
    assert p in pieces + [p];
  }

  lemma FreedNext(queue: Queue, rows: set<nat>, i: nat, to: AccountStatus, due: int)
    ensures i in queue ==> SetFreed(queue, rows, to, due)[i := Freed(queue[i], to, due)] == SetFreed(queue, rows + {i}, to, due)
  {
  }

  lemma {:induction false} InsertBelow(queue: Queue, unused: nat, run: Option<nat>, source: Source, accounts: seq<int>)
    requires forall i :: i in queue ==> i < unused
    ensures var r := Insert(queue, unused, run, source, accounts);
            unused <= r.unused && forall i :: i in r.queue ==> i < r.unused
  {
    if |accounts| > 0 { InsertBelow(queue, unused, run, source, accounts[..|accounts| - 1]); }
  }

  lemma InsertNext(queue: Queue, unused: nat, run: Option<nat>, source: Source, accounts: seq<int>, i: nat)
    requires i < |accounts|
    ensures Insert(queue, unused, run, source, accounts[..i + 1]) ==
            InsertOne(Insert(queue, unused, run, source, accounts[..i]), run, source, accounts[i])
  {
    assert accounts[..i + 1][..i] == accounts[..i];
  }

  lemma MatchedNext(queue: Queue, jobs: seq<Job>, i: nat)
    requires i < |jobs|
    ensures Matched(queue, jobs[..i + 1]) == Matched(queue, jobs[..i]) + (if Held(queue, jobs[i]) then {jobs[i].id} else {})
  {
    assert jobs[..i + 1] == jobs[..i] + [jobs[i]];
  }

  lemma AddedValid(shards: map<nat, Shard>, unused: nat, run: nat, repair: bool, pieces: seq<Piece>)
    requires forall s :: s in shards ==> s < unused
    ensures forall s :: s in AddShards(shards, unused, run, repair, pieces) ==> s < unused + |pieces|
  {
  }

  lemma AddNone(shards: map<nat, Shard>, unused: nat, run: nat, repair: bool)
    ensures AddShards(shards, unused, run, repair, []) == shards
  {
  }

  lemma OneMoreCut(cut: seq<Piece>, lower: int, upper: int, cutoff: int, span: int, index: int, count: int)
    requires index < count && lower < cutoff
    requires upper == if index == count - 1 || lower + span > cutoff then cutoff else lower + span
    ensures cut + PrimaryFrom(lower, cutoff, span, index, count) ==
            (cut + [Piece(lower, upper)]) + PrimaryFrom(upper, cutoff, span, index + 1, count)
  {
  }

  lemma AddOne(shards: map<nat, Shard>, unused: nat, run: nat, repair: bool, pieces: seq<Piece>, p: Piece)
    requires forall s :: s in shards ==> s < unused
    ensures AddShards(shards, unused, run, repair, pieces)[unused + |pieces| := NewShard(run, repair, p)] ==
            AddShards(shards, unused, run, repair, pieces + [p])
  {
  }

  /** The pieces inserted so far do not stand in the way of the next. */
  lemma TakenSame(shards: map<nat, Shard>, unused: nat, run: nat, repair: bool, pieces: seq<Piece>, lo: int, hi: int, k: nat)
    requires Tiles(pieces, lo, hi) && k < |pieces| && forall s :: s in shards ==> s < unused
    ensures Taken(AddShards(shards, unused, run, repair, pieces[..k]), run, pieces[k]) <==> Taken(shards, run, pieces[k])
  {
    var more := AddShards(shards, unused, run, repair, pieces[..k]);
    if Taken(shards, run, pieces[k]) {
      var s :| s in shards && shards[s].run == run && shards[s].lower == pieces[k].lo && shards[s].upper == pieces[k].hi;
      assert s in more && more[s] == shards[s];
    }
    forall j | 0 <= j < k ensures pieces[j].hi <= pieces[k].lo { BoundsGrow(pieces, j, k); }
  }
}
