/**
 Settling accounts keeps the invariant: counters follow the queue, and every row
 that leaves is published, handed to the overflow scans, empty or gone.

 A batch whose DELETE reports as many rows as it has claims held each of them, on a row
 of its own (AllHeld).  Then by induction over the batch: the tallies are the rows deleted
 (TallyRows, CompletedCounts), each account is settled as its result says (SettleAllAs),
 and the history records how each row left (SettlementsAt, SettledFate).
 */
module CompletionProofs {
  import opened Prelude
  import opened RangeDivision
  import opened EnumerationPage
  import P = Publication
  import opened WorkTables
  import opened WorkProtocol
  import opened WorkProofs
  import opened ShardProofs
  import opened QueueProofs
  import O = OverflowScan

  // --------------------------------------------------------------- attempts

  lemma UncountedAfter(queue: Queue, rows: set<nat>, r: nat)
    ensures UncountedOf(SetCounted(queue, rows), r) == UncountedOf(queue, r) - rows
    ensures RowsOf(SetCounted(queue, rows), r) == RowsOf(queue, r)
  {
  }

  lemma UncountedSplit(queue: Queue, rows: set<nat>, r: nat)
    ensures |UncountedOf(queue, r)| == |rows * UncountedOf(queue, r)| + |UncountedOf(SetCounted(queue, rows), r)|
  {
    var u := UncountedOf(queue, r);
    UncountedAfter(queue, rows, r);
    assert rows * u == u * rows;
  }

  /** The limit on `attempted` never takes effect. */
  lemma NoClip(db: Db, jobs: seq<Job>, r: nat)
    requires CountInv(db.runs, db.queue) && r in db.runs && AllMatched(db.queue, jobs)
    ensures CountAttempted(db, jobs).runs[r].attempted ==
            db.runs[r].attempted + |Matched(db.queue, jobs) * UncountedOf(db.queue, r)|
  {
    UncountedSplit(db.queue, Matched(db.queue, jobs), r);
    assert CountOk(r, db.runs[r], db.queue);
  }

  lemma AttemptCounts(db: Db, jobs: seq<Job>)
    requires CountInv(db.runs, db.queue) && AllMatched(db.queue, jobs)
    ensures CountInv(CountAttempted(db, jobs).runs, SetCounted(db.queue, Matched(db.queue, jobs)))
  {
    var rows := Matched(db.queue, jobs);
    forall r | r in db.runs
      ensures CountOk(r, CountAttempted(db, jobs).runs[r], SetCounted(db.queue, rows))
    {
      assert CountOk(r, db.runs[r], db.queue);
      UncountedAfter(db.queue, rows, r);
      UncountedSplit(db.queue, rows, r);
      NoClip(db, jobs, r);
    }
  }

  /** Counters and the bookkeeping of rows may move together when the rows stay and the runs keep their progress. */
  lemma CountersKeep(listing: Listing, w: World, db': Db)
    requires Inv(listing, w)
    requires db' == w.db.(queue := db'.queue, runs := db'.runs)
    requires SameRows(w.db.queue, db'.queue) && CountInv(db'.runs, db'.queue)
    requires RowsOk(db'.queue, w.db.runs.Keys, w.past.enqueued, w.past.issued, w.ow.log.finalized, w.db.unused)
    requires db'.runs.Keys == w.db.runs.Keys && SameProgress(w.db.runs, db'.runs)
    ensures Inv(listing, w.(db := db'))
  {
    assert SameStage(w.db.runs, db'.runs);
    ShardFrame(listing, w.db.runs, db'.runs, w.db.shards, w.owned, w.past.enqueued, w.past.seeded, w.db.unused, w.db.unused);
    CountersMonitor(w, db');
  }

  ghost predicate SameProgress(runs: map<nat, Run>, runs': map<nat, Run>) {
    forall r :: r in runs && r in runs' ==>
      && runs'[r].enumerationComplete == runs[r].enumerationComplete && runs'[r].nextSince == runs[r].nextSince
      && runs'[r].running == runs[r].running
  }

  lemma CountersMonitor(w: World, db': Db)
    requires MonitorInv(w.monitor, w.past.sound, w.db, w.ow.scans)
    requires db' == w.db.(queue := db'.queue, runs := db'.runs)
    requires SameRows(w.db.queue, db'.queue) && db'.runs.Keys == w.db.runs.Keys && SameProgress(w.db.runs, db'.runs)
    ensures MonitorInv(w.monitor, w.past.sound, db', w.ow.scans)
  {
    forall r ensures RowsOf(db'.queue, r) == RowsOf(w.db.queue, r) { SameRowsOf(w.db.queue, db'.queue, r); }
    QuietFrame(w.db, db', w.ow.scans, w.ow.scans);
    MonitorFrame(w.monitor, w.past.sound, w.db, db', w.ow.scans, w.ow.scans);
  }

  lemma CountAttemptsKeeps(listing: Listing, w: World, jobs: seq<Job>)
    requires Inv(listing, w)
    ensures Inv(listing, w.(db := CountAttempted(w.db, jobs)))
  {
    if AllMatched(w.db.queue, jobs) {
      AttemptCounts(w.db, jobs);
      AttemptProgress(w.db, jobs);
      MarkedRows(w.db.queue, Matched(w.db.queue, jobs), w.db.runs.Keys, w.past.enqueued, w.past.issued, w.ow.log.finalized, w.db.unused);
      CountersKeep(listing, w, CountAttempted(w.db, jobs));
    }
  }

  lemma AttemptProgress(db: Db, jobs: seq<Job>)
    ensures CountAttempted(db, jobs).runs.Keys == db.runs.Keys && SameProgress(db.runs, CountAttempted(db, jobs).runs)
  {
    if AllMatched(db.queue, jobs) {
      var rows := Matched(db.queue, jobs);
      forall r | r in db.runs { AttemptsOnly(db.runs[r], |rows * UncountedOf(db.queue, r)|); }
    }
  }

  lemma AttemptsOnly(r: Run, n: nat)
    ensures AddAttempts(r, n) == r.(attempted := AddAttempts(r, n).attempted)
  {
  }

  // --------------------------------------------------------- whole batches

  lemma {:induction false} MatchedSize(queue: Queue, jobs: seq<Job>)
    ensures |Matched(queue, jobs)| <= |jobs|
  {
    if |jobs| > 0 {
      var front := jobs[..|jobs| - 1];
      MatchedSize(queue, front);
      MatchedSnoc(queue, front, jobs[|jobs| - 1]);
      assert front + [jobs[|jobs| - 1]] == jobs;
    }
  }

  lemma MatchedSnoc(queue: Queue, front: seq<Job>, job: Job)
    ensures Matched(queue, front + [job]) == Matched(queue, front) + (if Held(queue, job) then {job.id} else {})
  {
  }

  ghost predicate Batch(queue: Queue, jobs: seq<Job>) {
    && (forall k :: 0 <= k < |jobs| ==> Held(queue, jobs[k]))
    && (forall j, k :: 0 <= j < k < |jobs| ==> jobs[j].id != jobs[k].id)
  }

  /** The count of updated rows equals the batch only if every claim is held, each on its own row. */
  lemma {:induction false} AllHeld(queue: Queue, jobs: seq<Job>)
    requires AllMatched(queue, jobs)
    ensures Batch(queue, jobs)
  {
    if |jobs| > 0 {
      var front, job := jobs[..|jobs| - 1], jobs[|jobs| - 1];
      MatchedSize(queue, front);
      MatchedSnoc(queue, front, job);
      assert front + [job] == jobs;
      AllHeld(queue, front);
      OneMoreHeld(queue, front, job);
    }
  }

  lemma OneMoreHeld(queue: Queue, front: seq<Job>, job: Job)
    requires Batch(queue, front) && Held(queue, job) && job.id !in Matched(queue, front)
    ensures Batch(queue, front + [job])
  {
    forall k | 0 <= k < |front|
      ensures front[k].id != job.id
    {
      assert front[k] in front && Held(queue, front[k]);
    }
  }

  lemma FewerJobs(queue: Queue, jobs: seq<Job>, n: nat)
    requires Batch(queue, jobs) && JobsTrue(queue, jobs) && n <= |jobs|
    ensures Batch(queue, jobs[..n]) && JobsTrue(queue, jobs[..n])
  {
  }

  /** Each job speaks of the row it holds. */
  ghost predicate JobsTrue(queue: Queue, jobs: seq<Job>) {
    forall k :: 0 <= k < |jobs| ==> jobs[k].id in queue && jobs[k] == JobOf(jobs[k].id, queue[jobs[k].id], jobs[k].token)
  }

  lemma KnownTrue(queue: Queue, jobs: seq<Job>, runs: set<nat>, enqueued: map<nat, set<int>>, issued: map<nat, Job>,
                  finalized: set<nat>, unused: nat)
    requires RowsOk(queue, runs, enqueued, issued, finalized, unused) && Batch(queue, jobs)
    requires forall k :: 0 <= k < |jobs| ==> jobs[k].token in issued && issued[jobs[k].token] == jobs[k]
    ensures JobsTrue(queue, jobs)
  {
    forall k | 0 <= k < |jobs|
      ensures jobs[k].id in queue && jobs[k] == JobOf(jobs[k].id, queue[jobs[k].id], jobs[k].token)
    {
      assert AccountOk(jobs[k].id, queue[jobs[k].id], runs, enqueued, issued, finalized, unused);
    }
  }

  lemma MatchedMore(queue: Queue, front: seq<Job>, job: Job, r: nat)
    requires Batch(queue, front + [job]) && JobsTrue(queue, front + [job])
    ensures |RowsOf(queue, r) * Matched(queue, front + [job])| ==
            |RowsOf(queue, r) * Matched(queue, front)| + (if job.run == Some(r) then 1 else 0)
  {
    var jobs := front + [job];
    assert jobs[|front|] == job;
    assert forall k :: 0 <= k < |front| ==> jobs[k] == front[k];
    MatchedSnoc(queue, front, job);
    MeetWithOneMore(RowsOf(queue, r), Matched(queue, front), job.id);
    assert job.id in RowsOf(queue, r) <==> job.run == Some(r);
  }

  lemma {:induction false} TallyRows(queue: Queue, jobs: seq<Job>, results: seq<Result>, r: nat)
    requires |jobs| == |results| && Batch(queue, jobs) && JobsTrue(queue, jobs)
    ensures |RowsOf(queue, r) * Matched(queue, jobs)| == Tally(jobs, results, r, false) + Tally(jobs, results, r, true)
  {
    if |jobs| > 0 {
      var n := |jobs| - 1;
      FewerJobs(queue, jobs, n);
      TallyRows(queue, jobs[..n], results[..n], r);
      assert jobs[..n] + [jobs[n]] == jobs;
      MatchedMore(queue, jobs[..n], jobs[n], r);
    }
  }

  lemma Removed(queue: Queue, gone: set<nat>, r: nat)
    ensures |RowsOf(queue, r)| == |RowsOf(queue - gone, r)| + |RowsOf(queue, r) * gone|
    ensures |UncountedOf(queue - gone, r)| <= |RowsOf(queue - gone, r)|
    ensures |UncountedOf(queue - gone, r)| <= |UncountedOf(queue, r)|
  {
    assert RowsOf(queue - gone, r) == RowsOf(queue, r) - gone;
    assert RowsOf(queue, r) == (RowsOf(queue, r) - gone) + (RowsOf(queue, r) * gone);
    SubsetSize(UncountedOf(queue - gone, r), RowsOf(queue - gone, r));
    SubsetSize(UncountedOf(queue - gone, r), UncountedOf(queue, r));
  }

  lemma CompletedCounts(runs: map<nat, Run>, queue: Queue, jobs: seq<Job>, results: seq<Result>)
    requires CountInv(runs, queue) && |jobs| == |results| && Batch(queue, jobs) && JobsTrue(queue, jobs)
    ensures CountInv(Counted(runs, jobs, results), queue - Matched(queue, jobs))
  {
    forall r | r in runs
      ensures CountOk(r, Counted(runs, jobs, results)[r], queue - Matched(queue, jobs))
    {
      assert CountOk(r, runs[r], queue);
      TallyRows(queue, jobs, results, r);
      Removed(queue, Matched(queue, jobs), r);
    }
  }

  // ------------------------------------------------------- settling the scans

  /** The scans of the jobs are new to the overflow tables and to each other. */
  ghost predicate NewScans(w: O.World, jobs: seq<Job>, id: nat) {
    && (forall k :: 0 <= k < |jobs| ==> jobs[k].scan !in w.log.finalized)
    && (forall k, i :: 0 <= k < |jobs| && i in w.scans.rows ==> w.scans.rows[i].scan != jobs[k].scan)
    && (forall j, k :: 0 <= j < k < |jobs| ==> jobs[j].scan != jobs[k].scan)
    && (forall i :: i in w.scans.rows ==> i < id)
  }

  ghost predicate ResultsOk(results: seq<Result>) { forall k :: 0 <= k < |results| ==> ResultOk(results[k]) }

  /** What settling a batch did to the overflow tables. */
  ghost predicate SettledAs(w: O.World, w': O.World, known: set<int>, jobs: seq<Job>, results: seq<Result>, id: nat)
    requires |jobs| == |results|
  {
    && O.Inv(w') && w'.log.issued == w.log.issued
    && w.log.finalized <= w'.log.finalized
    && (forall s :: s in w'.log.finalized ==> s in w.log.finalized || exists k :: 0 <= k < |jobs| && jobs[k].scan == s)
    && (forall i :: i in w.scans.rows ==> i in w'.scans.rows && w'.scans.rows[i] == w.scans.rows[i])
    && (forall i :: i in w'.scans.rows && i !in w.scans.rows ==>
          id <= i < id + |jobs| && w'.scans.rows[i].scan == jobs[i - id].scan && w'.scans.rows[i].run == jobs[i - id].run)
    && (forall k :: 0 <= k < |jobs| ==> OutcomeIs(w', OutcomeOf(known, jobs[k], results[k]), jobs[k], id + k))
  }

  ghost predicate OutcomeIs(w: O.World, outcome: Outcome, job: Job, row: nat) {
    match outcome
    case Published => job.scan in w.log.finalized
    case Overflowed => row in w.scans.rows && w.scans.rows[row].scan == job.scan && w.scans.rows[row].run == job.run
    case _ => true
  }

  lemma SettleOneAs(w: O.World, known: set<int>, job: Job, result: Result, now: int, stages: nat, row: nat)
    requires O.Inv(w) && ResultOk(result)
    requires job.scan !in w.log.finalized && (forall i :: i in w.scans.rows ==> w.scans.rows[i].scan != job.scan)
    requires row !in w.scans.rows
    ensures var w' := SettleOne(w, known, job, result, now, stages, row);
            && O.Inv(w') && w'.log.issued == w.log.issued
            && w.log.finalized <= w'.log.finalized <= w.log.finalized + {job.scan}
            && (forall i :: i in w.scans.rows ==> i in w'.scans.rows && w'.scans.rows[i] == w.scans.rows[i])
            && (forall i :: i in w'.scans.rows && i !in w.scans.rows ==> i == row && w'.scans.rows[i].scan == job.scan && w'.scans.rows[i].run == job.run)
            && OutcomeIs(w', OutcomeOf(known, job, result), job, row)
  {
    O.TouchKeeps(w, job.account, now);
    var w1 := O.Touch(w, job.account, now);
    if !OutcomeOf(known, job, result).ZeroKeys? {
      if result.hasMore {
        O.OpenKeeps(w1, row, job.run, job.source, job.account, job.scan, now, O.KeyPage(result.keys, true, result.next, result.total));
      } else {
        O.DirectKeeps(w1, job.account, job.scan, now, Elements(result.keys), stages);
      }
    }
  }

  lemma {:induction false} SettleAllAs(w: O.World, known: set<int>, jobs: seq<Job>, results: seq<Result>, now: int,
                                       stages: nat, id: nat)
    requires |jobs| == |results| && O.Inv(w) && NewScans(w, jobs, id) && ResultsOk(results)
    ensures SettledAs(w, SettleAll(w, known, jobs, results, now, stages, id), known, jobs, results, id)
  {
    if |jobs| > 0 {
      var n := |jobs| - 1;
      FewerScans(w, jobs, n, id);
      SettleAllAs(w, known, jobs[..n], results[..n], now, stages, id);
      SettleNextAs(w, SettleAll(w, known, jobs[..n], results[..n], now, stages, id), known, jobs, results, now, stages, id);
    }
  }

  lemma FewerScans(w: O.World, jobs: seq<Job>, n: nat, id: nat)
    requires NewScans(w, jobs, id) && n <= |jobs|
    ensures NewScans(w, jobs[..n], id)
  {
  }

  lemma SettleNextAs(w: O.World, w1: O.World, known: set<int>, jobs: seq<Job>, results: seq<Result>, now: int,
                     stages: nat, id: nat)
    requires |jobs| == |results| > 0 && NewScans(w, jobs, id) && ResultsOk(results)
    requires SettledAs(w, w1, known, jobs[..|jobs| - 1], results[..|jobs| - 1], id)
    ensures var n := |jobs| - 1;
            SettledAs(w, SettleOne(w1, known, jobs[n], results[n], now, stages, id + n), known, jobs, results, id)
  {
    var n := |jobs| - 1;
    SettleOneAs(w1, known, jobs[n], results[n], now, stages, id + n);
    SettledMore(w, w1, SettleOne(w1, known, jobs[n], results[n], now, stages, id + n), known, jobs, results, id);
  }

  lemma SettledMore(w: O.World, w1: O.World, w': O.World, known: set<int>, jobs: seq<Job>, results: seq<Result>, id: nat)
    requires |jobs| == |results| > 0
    requires var n := |jobs| - 1;
             && SettledAs(w, w1, known, jobs[..n], results[..n], id)
             && O.Inv(w') && w'.log.issued == w1.log.issued
             && w1.log.finalized <= w'.log.finalized <= w1.log.finalized + {jobs[n].scan}
             && (forall i :: i in w1.scans.rows ==> i in w'.scans.rows && w'.scans.rows[i] == w1.scans.rows[i])
             && (forall i :: i in w'.scans.rows && i !in w1.scans.rows ==> i == id + n && w'.scans.rows[i].scan == jobs[n].scan && w'.scans.rows[i].run == jobs[n].run)
             && OutcomeIs(w', OutcomeOf(known, jobs[n], results[n]), jobs[n], id + n)
    ensures SettledAs(w, w', known, jobs, results, id)
  {
    var n := |jobs| - 1;
    forall k | 0 <= k < |jobs|
      ensures OutcomeIs(w', OutcomeOf(known, jobs[k], results[k]), jobs[k], id + k)
    {
      if k < n {
        assert OutcomeIs(w1, OutcomeOf(known, jobs[..n][k], results[..n][k]), jobs[..n][k], id + k);
      }
    }
    forall s | s in w'.log.finalized && s !in w.log.finalized
      ensures exists k :: 0 <= k < |jobs| && jobs[k].scan == s
    {
      if s in w1.log.finalized {
        var k :| 0 <= k < n && jobs[..n][k].scan == s;
        assert jobs[k].scan == s;
      }
    }
  }

  // --------------------------------------------------------------- the batch

  /** The scans of held rows are new to the overflow tables. */
  lemma HeldScansNew(queue: Queue, jobs: seq<Job>, ow: O.World, runs: set<nat>, enqueued: map<nat, set<int>>,
                     issued: map<nat, Job>, unused: nat)
    requires Sound(queue, ow, runs, enqueued, issued, unused) && Batch(queue, jobs) && JobsTrue(queue, jobs)
    ensures NewScans(ow, jobs, unused)
  {
    forall k | 0 <= k < |jobs|
      ensures jobs[k].scan !in ow.log.finalized
      ensures forall i :: i in ow.scans.rows ==> ow.scans.rows[i].scan != jobs[k].scan
    {
      assert AccountOk(jobs[k].id, queue[jobs[k].id], runs, enqueued, issued, ow.log.finalized, unused);
    }
    forall j, k | 0 <= j < k < |jobs|
      ensures jobs[j].scan != jobs[k].scan
    {
      assert queue[jobs[j].id].scan != queue[jobs[k].id].scan;
    }
  }

  /** Rows left in the queue have other scans than the settled ones. */
  lemma OtherScans(queue: Queue, jobs: seq<Job>, i: nat, k: nat)
    requires QueueUnique(queue) && Batch(queue, jobs) && JobsTrue(queue, jobs) && k < |jobs|
    requires i in queue && i !in Matched(queue, jobs)
    ensures queue[i].scan != jobs[k].scan
  {
    assert Held(queue, jobs[k]) && jobs[k] in jobs;
    assert jobs[k].id in Matched(queue, jobs);
  }

  lemma SettledRows(queue: Queue, jobs: seq<Job>, results: seq<Result>, ow: O.World, ow': O.World, known: set<int>,
                    runs: set<nat>, enqueued: map<nat, set<int>>, issued: map<nat, Job>, unused: nat)
    requires Sound(queue, ow, runs, enqueued, issued, unused) && Batch(queue, jobs) && JobsTrue(queue, jobs)
    requires |jobs| == |results| && SettledAs(ow, ow', known, jobs, results, unused)
    ensures QueueInv(queue - Matched(queue, jobs), runs, enqueued, issued, ow'.log.finalized, unused + |jobs|)
  {
    var q := queue - Matched(queue, jobs);
    forall i | i in q
      ensures AccountOk(i, q[i], runs, enqueued, issued, ow'.log.finalized, unused + |jobs|)
    {
      assert AccountOk(i, queue[i], runs, enqueued, issued, ow.log.finalized, unused);
      forall k | 0 <= k < |jobs| ensures queue[i].scan != jobs[k].scan { OtherScans(queue, jobs, i, k); }
    }
  }

  lemma SettledLinks(queue: Queue, jobs: seq<Job>, results: seq<Result>, ow: O.World, ow': O.World, known: set<int>,
                     runs: set<nat>, enqueued: map<nat, set<int>>, issued: map<nat, Job>, unused: nat)
    requires Sound(queue, ow, runs, enqueued, issued, unused) && Batch(queue, jobs) && JobsTrue(queue, jobs)
    requires |jobs| == |results| && SettledAs(ow, ow', known, jobs, results, unused)
    ensures ScanLinks(queue - Matched(queue, jobs), ow', runs, unused + |jobs|)
  {
    forall k | 0 <= k < |jobs|
      ensures jobs[k].scan < unused && (jobs[k].run.Some? ==> jobs[k].run.value in runs)
    {
      assert AccountOk(jobs[k].id, queue[jobs[k].id], runs, enqueued, issued, ow.log.finalized, unused);
    }
    var q := queue - Matched(queue, jobs);
    forall i, j | i in q && j in ow'.scans.rows
      ensures q[i].scan != ow'.scans.rows[j].scan
    {
      if j !in ow.scans.rows { OtherScans(queue, jobs, i, j - unused); }
    }
    forall s | s in ow'.log.finalized
      ensures s < unused + |jobs|
    {
    }
  }

  lemma {:induction false} SettlementsAt(known: set<int>, jobs: seq<Job>, results: seq<Result>)
    requires |jobs| == |results| && forall j, k :: 0 <= j < k < |jobs| ==> jobs[j].id != jobs[k].id
    ensures forall k :: 0 <= k < |jobs| ==>
              jobs[k].id in Settlements(known, jobs, results)
              && Settlements(known, jobs, results)[jobs[k].id] == Settlement(jobs[k], OutcomeOf(known, jobs[k], results[k]))
    ensures forall i :: i in Settlements(known, jobs, results) ==> exists k :: 0 <= k < |jobs| && jobs[k].id == i
  {
    if |jobs| > 0 {
      var n := |jobs| - 1;
      SettlementsAt(known, jobs[..n], results[..n]);
      forall i | i in Settlements(known, jobs, results)
        ensures exists k :: 0 <= k < |jobs| && jobs[k].id == i
      {
        if i in Settlements(known, jobs[..n], results[..n]) {
          var k :| 0 <= k < n && jobs[..n][k].id == i;
          assert jobs[k].id == i;
        } else {
          assert jobs[n].id == i;
        }
      }
    }
  }

  lemma SettledFate(queue: Queue, jobs: seq<Job>, results: seq<Result>, ow: O.World, ow': O.World, known: set<int>,
                    created: set<nat>, settled: map<nat, Settlement>, unused: nat, unused': nat)
    requires FateInv(queue.Keys, created, settled, ow, unused) && Batch(queue, jobs) && unused <= unused'
    requires |jobs| == |results| && SettledAs(ow, ow', known, jobs, results, unused)
    ensures FateInv((queue - Matched(queue, jobs)).Keys, created, settled + Settlements(known, jobs, results), ow', unused')
  {
    var more := Settlements(known, jobs, results);
    SettlementsAt(known, jobs, results);
    SettledKeys(queue, jobs, results, known);
    forall i | i in settled + more
      ensures SettledOk((settled + more)[i], ow')
    {
      if i in more {
        var k :| 0 <= k < |jobs| && jobs[k].id == i;
        assert OutcomeIs(ow', OutcomeOf(known, jobs[k], results[k]), jobs[k], unused + k);
      } else {
      }
    }
  }

  /** A row that leaves takes its account into the settlements. */
  lemma SettledAccounted(queue: Queue, enqueued: map<nat, set<int>>, settled: map<nat, Settlement>, gone: set<nat>,
                         more: map<nat, Settlement>)
    requires Accounted(queue, enqueued, settled) && more.Keys !! settled.Keys
    requires forall i :: i in gone && i in queue ==> i in more && more[i].job.run == queue[i].run && more[i].job.account == queue[i].account
    ensures Accounted(queue - gone, enqueued, settled + more)
  {
    forall r, x | r in enqueued && x in enqueued[r] && !Queued(queue - gone, Some(r), Global, x)
      ensures HasSettled(settled + more, r, x)
    {
      if HasSettled(settled, r, x) {
        var i :| i in settled && settled[i].job.run == Some(r) && settled[i].job.account == x;
        assert (settled + more)[i] == settled[i];
      } else {
        var i :| i in queue && queue[i].run == Some(r) && queue[i].source == Global && queue[i].account == x;
        assert i in queue - gone <==> i !in gone;
        assert (settled + more)[i] == more[i];
      }
    }
  }

  lemma BatchAccounted(queue: Queue, enqueued: map<nat, set<int>>, settled: map<nat, Settlement>,
                       jobs: seq<Job>, results: seq<Result>, known: set<int>)
    requires Accounted(queue, enqueued, settled) && queue.Keys !! settled.Keys
    requires |jobs| == |results| && Batch(queue, jobs) && JobsTrue(queue, jobs)
    ensures Accounted(queue - Matched(queue, jobs), enqueued, settled + Settlements(known, jobs, results))
  {
    var more := Settlements(known, jobs, results);
    SettlementsAt(known, jobs, results);
    SettledKeys(queue, jobs, results, known);
    forall i | i in Matched(queue, jobs)
      ensures i in more && i in queue && more[i].job.run == queue[i].run && more[i].job.account == queue[i].account
    {
      var k :| 0 <= k < |jobs| && jobs[k].id == i;
      assert jobs[k] == JobOf(jobs[k].id, queue[jobs[k].id], jobs[k].token);
    }
    SettledAccounted(queue, enqueued, settled, Matched(queue, jobs), more);
  }

  lemma SettledKeys(queue: Queue, jobs: seq<Job>, results: seq<Result>, known: set<int>)
    requires Batch(queue, jobs) && |jobs| == |results|
    ensures Settlements(known, jobs, results).Keys == Matched(queue, jobs)
  {
    SettlementsAt(known, jobs, results);
    forall k | 0 <= k < |jobs|
      ensures jobs[k].id in Matched(queue, jobs)
    {
      assert jobs[k] in jobs && Held(queue, jobs[k]);
    }
  }

  ghost predicate FewerAnomalies(db: Db, db': Db) {
    db'.anomalies.Keys <= db.anomalies.Keys && forall a :: a in db'.anomalies ==> db'.anomalies[a] == db.anomalies[a]
  }

  lemma CompletedMonitor(m: Monitor, sound: set<nat>, db: Db, db': Db, ow: O.World, ow': O.World, known: set<int>,
                         jobs: seq<Job>, results: seq<Result>)
    requires MonitorInv(m, sound, db, ow.scans)
    requires |jobs| == |results| && SettledAs(ow, ow', known, jobs, results, db.unused) && JobsTrue(db.queue, jobs)
    requires db'.shards == db.shards && db'.queue == db.queue - Matched(db.queue, jobs)
    requires db'.runs.Keys == db.runs.Keys && SameProgress(db.runs, db'.runs)
    requires FewerAnomalies(db, db')
    ensures MonitorInv(m, sound, db', ow'.scans)
  {
    forall r: nat | RowsOf(db.queue, r) == {}
      ensures RowsOf(db'.queue, r) == {}
      ensures !OverflowPending(ow.scans, r) ==> !OverflowPending(ow'.scans, r)
    {
      forall i | i in ow'.scans.rows && i !in ow.scans.rows
        ensures ow'.scans.rows[i].run != Some(r)
      {
        assert ow'.scans.rows[i].run == jobs[i - db.unused].run;
        assert jobs[i - db.unused].id !in RowsOf(db.queue, r);
      }
    }
    QuietFrame(db, db', ow.scans, ow'.scans);
    MonitorFrame(m, sound, db, db', ow.scans, ow'.scans);
  }

  lemma CompletedShards(listing: Listing, db: Db, owned: map<nat, Local>, enqueued: map<nat, set<int>>,
                        seeded: map<nat, set<Piece>>,
                        jobs: seq<Job>, results: seq<Result>, unused': nat)
    requires ShardInv(listing, db.runs, db.shards, owned, enqueued, seeded, db.unused) && |jobs| == |results| && db.unused <= unused'
    ensures ShardInv(listing, Counted(db.runs, jobs, results), db.shards, owned, enqueued, seeded, unused')
  {
    ShardFrame(listing, db.runs, Counted(db.runs, jobs, results), db.shards, owned, enqueued, seeded, db.unused, unused');
  }

  lemma CompleteKeeps(listing: Listing, w: World, jobs: seq<Job>, results: seq<Result>, now: int, stages: nat)
    requires Inv(listing, w) && Known(w, jobs) && ResultsOk(results)
    ensures Inv(listing, StepComplete(w, jobs, results, now, stages))
  {
    if !BatchRefused(w.db, w.ow, jobs, results) {
      AllHeld(w.db.queue, jobs);
      KnownTrue(w.db.queue, jobs, w.db.runs.Keys, w.past.enqueued, w.past.issued, w.ow.log.finalized, w.db.unused);
      RowsOld(listing, w);
      HeldScansNew(w.db.queue, jobs, w.ow, w.db.runs.Keys, w.past.enqueued, w.past.issued, w.db.unused);
      SettleAllAs(w.ow, Owners(w.ow), jobs, results, now, stages, w.db.unused);
      BatchKeeps(listing, w, StepComplete(w, jobs, results, now, stages), jobs, results);
    }
  }

  lemma BatchKeeps(listing: Listing, w: World, w': World, jobs: seq<Job>, results: seq<Result>)
    requires Inv(listing, w) && |jobs| == |results| && Batch(w.db.queue, jobs) && JobsTrue(w.db.queue, jobs)
    requires SettledAs(w.ow, w'.ow, Owners(w.ow), jobs, results, w.db.unused)
    requires w'.db == Completed(w.db, jobs, results)
    requires w'.past == w.past.(settled := w.past.settled + Settlements(Owners(w.ow), jobs, results))
    requires w'.owned == w.owned && w'.monitor == w.monitor
    ensures Inv(listing, w')
  {
    CompletedShards(listing, w.db, w.owned, w.past.enqueued, w.past.seeded, jobs, results, w'.db.unused);
    RowsOld(listing, w);
    SettledSound(w.db.queue, jobs, results, w.ow, w'.ow, Owners(w.ow), w.db.runs.Keys, w.past.enqueued, w.past.issued, w.db.unused);
    SettledFate(w.db.queue, jobs, results, w.ow, w'.ow, Owners(w.ow), w.past.created, w.past.settled, w.db.unused, w'.db.unused);
    CompletedCounts(w.db.runs, w.db.queue, jobs, results);
    BatchAccounted(w.db.queue, w.past.enqueued, w.past.settled, jobs, results, Owners(w.ow));
    CompletedProgress(w.db, jobs, results);
    CompletedMonitor(w.monitor, w.past.sound, w.db, w'.db, w.ow, w'.ow, Owners(w.ow), jobs, results);
  }

  function Completed(db: Db, jobs: seq<Job>, results: seq<Result>): Db
    requires |jobs| == |results|
  {
    db.(queue := db.queue - Matched(db.queue, jobs), anomalies := db.anomalies - Finished(jobs, results),
        runs := Counted(db.runs, jobs, results), unused := db.unused + |jobs|)
  }

  lemma CompletedProgress(db: Db, jobs: seq<Job>, results: seq<Result>)
    requires |jobs| == |results|
    ensures var db' := Completed(db, jobs, results);
            db'.runs.Keys == db.runs.Keys && SameProgress(db.runs, db'.runs) && FewerAnomalies(db, db')
  {
  }

  lemma SettledSound(queue: Queue, jobs: seq<Job>, results: seq<Result>, ow: O.World, ow': O.World, known: set<int>,
                     runs: set<nat>, enqueued: map<nat, set<int>>, issued: map<nat, Job>, unused: nat)
    requires Sound(queue, ow, runs, enqueued, issued, unused) && Batch(queue, jobs) && JobsTrue(queue, jobs)
    requires |jobs| == |results| && SettledAs(ow, ow', known, jobs, results, unused)
    ensures Sound(queue - Matched(queue, jobs), ow', runs, enqueued, issued, unused + |jobs|)
  {
    SettledRows(queue, jobs, results, ow, ow', known, runs, enqueued, issued, unused);
    SettledLinks(queue, jobs, results, ow, ow', known, runs, enqueued, issued, unused);
  }

  // ---------------------------------------------------- inaccessible accounts

  lemma GoneCounts(db: Db, job: Job)
    requires CountInv(db.runs, db.queue) && Held(db.queue, job) && db.queue[job.id].run == job.run
    requires job.run.Some? ==> job.run.value in db.runs
    ensures CountInv(CompleteInaccessible(db, job).runs, db.queue - {job.id})
  {
    forall r | r in db.runs
      ensures CountOk(r, CompleteInaccessible(db, job).runs[r], db.queue - {job.id})
    {
      assert CountOk(r, db.runs[r], db.queue);
      Removed(db.queue, {job.id}, r);
      MeetWithOneMore(RowsOf(db.queue, r), {}, job.id);
      assert {} + {job.id} == {job.id};
      assert job.id in RowsOf(db.queue, r) <==> job.run == Some(r);
    }
  }

  lemma GoneMonitor(m: Monitor, sound: set<nat>, db: Db, job: Job, s: O.Scans, s': O.Scans)
    requires MonitorInv(m, sound, db, s) && s'.rows == s.rows
    ensures MonitorInv(m, sound, CompleteInaccessible(db, job), s')
  {
    var db' := CompleteInaccessible(db, job);
    forall r: nat | RowsOf(db.queue, r) == {}
      ensures RowsOf(db'.queue, r) == {}
    {
      assert RowsOf(db'.queue, r) <= RowsOf(db.queue, r);
    }
    QuietFrame(db, db', s, s');
    MonitorFrame(m, sound, db, db', s, s');
  }

  lemma GoneKeeps(listing: Listing, w: World, job: Job, now: int)
    requires Inv(listing, w) && Known(w, [job])
    ensures Inv(listing, StepGone(w, job, now))
  {
    if Held(w.db.queue, job) {
      assert [job][0] == job;
      assert AccountOk(job.id, w.db.queue[job.id], w.db.runs.Keys, w.past.enqueued, w.past.issued, w.ow.log.finalized, w.db.unused);
      GoneFate(w.db.queue, job, w.past.created, w.past.settled, w.ow, O.Hide(w.ow, job.account, now), w.db.unused, w.past.enqueued);
      GoneRuns(listing, w, StepGone(w, job, now), job);
      O.HideKeeps(w.ow, job.account, now);
    }
  }

  lemma GoneStage(db: Db, job: Job)
    ensures SameStage(db.runs, CompleteInaccessible(db, job).runs)
  {
  }

  lemma GoneRuns(listing: Listing, w: World, w': World, job: Job)
    requires Inv(listing, w) && Held(w.db.queue, job) && job.token in w.past.issued && w.past.issued[job.token] == job
    requires w'.db == CompleteInaccessible(w.db, job) && w'.ow.scans.rows == w.ow.scans.rows
    ensures ShardInv(listing, w'.db.runs, w'.db.shards, w.owned, w.past.enqueued, w.past.seeded, w'.db.unused)
    ensures CountInv(w'.db.runs, w'.db.queue)
    ensures MonitorInv(w.monitor, w.past.sound, w'.db, w'.ow.scans)
  {
    assert AccountOk(job.id, w.db.queue[job.id], w.db.runs.Keys, w.past.enqueued, w.past.issued, w.ow.log.finalized, w.db.unused);
    GoneCounts(w.db, job);
    GoneMonitor(w.monitor, w.past.sound, w.db, job, w.ow.scans, w'.ow.scans);
    GoneStage(w.db, job);
    ShardFrame(listing, w.db.runs, w'.db.runs, w.db.shards, w.owned, w.past.enqueued, w.past.seeded, w.db.unused, w.db.unused);
  }

  lemma GoneFate(queue: Queue, job: Job, created: set<nat>, settled: map<nat, Settlement>, ow: O.World, ow': O.World,
                 unused: nat,
                 enqueued: map<nat, set<int>>)
    requires FateInv(queue.Keys, created, settled, ow, unused) && Accounted(queue, enqueued, settled)
    requires job.id in queue && job.run == queue[job.id].run && job.account == queue[job.id].account
    requires ow'.log == ow.log && ow'.scans.rows == ow.scans.rows
    ensures var settled' := settled[job.id := Settlement(job, Gone)];
            FateInv((queue - {job.id}).Keys, created, settled', ow', unused) && Accounted(queue - {job.id}, enqueued, settled')
  {
    var settled' := settled[job.id := Settlement(job, Gone)];
    SettledAccounted(queue, enqueued, settled, {job.id}, map[job.id := Settlement(job, Gone)]);
    assert settled' == settled + map[job.id := Settlement(job, Gone)];
    forall i | i in settled'
      ensures SettledOk(settled'[i], ow')
    {
    }
  }
}
