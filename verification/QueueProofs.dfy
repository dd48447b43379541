/**
 Rows entering the queue: enumeration pages, tail and source insertions, staged
 federation results.

 One row at a time, as the transactions insert them:
 - a new row has an identifier and a scan nobody used, and is the only one with its unique
   key (InsertOneKeeps);
 - the rows of its run, and those not counted yet, become one more (AddCounts).

 Lists by induction: inserting grows the queue by exactly the rows reported (InsertGrows,
 InsertCounts), and afterwards every account of the list has a row, new or old
 (InsertQueues).  Staged rows are born with a claim, each under a token of its own
 (StageKeeps), and belong to no run (StageCounts).
 */
module QueueProofs {
  import opened Prelude
  import opened RangeDivision
  import opened EnumerationPage
  import P = Publication
  import opened WorkTables
  import opened WorkProtocol
  import opened WorkProofs
  import opened ShardProofs
  import O = OverflowScan

  // ------------------------------------------------------------- one new row

  /** What is known of the queue, taken together, so that rows can be added one by one. */
  ghost predicate Sound(queue: Queue, ow: O.World, runs: set<nat>, enqueued: map<nat, set<int>>,
                        issued: map<nat, Job>, unused: nat) {
    && QueueInv(queue, runs, enqueued, issued, ow.log.finalized, unused)
    && ScanLinks(queue, ow, runs, unused)
  }

  lemma AddCounts(queue: Queue, i: nat, a: Account, r: nat)
    requires i !in queue
    ensures |RowsOf(queue[i := a], r)| == |RowsOf(queue, r)| + (if a.run == Some(r) then 1 else 0)
    ensures |UncountedOf(queue[i := a], r)| == |UncountedOf(queue, r)| + (if a.run == Some(r) && !a.counted then 1 else 0)
  {
    var q := queue[i := a];
    if a.run == Some(r) {
      assert RowsOf(q, r) == RowsOf(queue, r) + {i};
      if !a.counted { assert UncountedOf(q, r) == UncountedOf(queue, r) + {i}; } else { assert UncountedOf(q, r) == UncountedOf(queue, r); }
    } else {
      assert RowsOf(q, r) == RowsOf(queue, r);
      assert UncountedOf(q, r) == UncountedOf(queue, r);
    }
  }

  // ------------------------------------------------------------- insertions

  /** `r` is `queue` with new rows `ids`, the rest as it was. */
  ghost predicate Grown(queue: Queue, unused: nat, r: Inserted) {
    && unused <= r.unused
    && (forall i :: i in queue ==> i in r.queue && r.queue[i] == queue[i])
    && (forall i :: i in r.queue <==> i in queue || i in r.ids)
    && (forall i :: i in r.ids ==> unused <= i < r.unused)
  }

  lemma {:induction false} InsertGrows(queue: Queue, unused: nat, run: Option<nat>, source: Source, accounts: seq<int>)
    requires forall i :: i in queue ==> i < unused
    ensures Grown(queue, unused, Insert(queue, unused, run, source, accounts))
  {
    if |accounts| > 0 { InsertGrows(queue, unused, run, source, accounts[..|accounts| - 1]); }
  }

  lemma InsertOneKeeps(r: Inserted, run: Option<nat>, source: Source, account: int,
                       ow: O.World, runs: set<nat>, enqueued: map<nat, set<int>>, issued: map<nat, Job>)
    requires Sound(r.queue, ow, runs, enqueued, issued, r.unused)
    requires source.Global? <==> run.Some?
    requires run.Some? ==> run.value in runs && run.value in enqueued && account in enqueued[run.value]
    ensures var r' := InsertOne(r, run, source, account); Sound(r'.queue, ow, runs, enqueued, issued, r'.unused)
  {
    var r' := InsertOne(r, run, source, account);
    if Queued(r.queue, run, source, account) {
      assert r' == r;
    } else {
      var queue := r.queue[r.unused := NewAccount(run, source, account, r.unused + 1)];
      assert r' == Inserted(queue, r.unused + 2, r.ids + [r.unused]);
    }
    assert Sound(r'.queue, ow, runs, enqueued, issued, r'.unused);
  }

  lemma {:induction false} InsertKeeps(queue: Queue, unused: nat, run: Option<nat>, source: Source, accounts: seq<int>,
                    ow: O.World, runs: set<nat>, enqueued: map<nat, set<int>>, issued: map<nat, Job>)
    requires Sound(queue, ow, runs, enqueued, issued, unused)
    requires source.Global? <==> run.Some?
    requires run.Some? ==> run.value in runs && run.value in enqueued && forall x :: x in accounts ==> x in enqueued[run.value]
    ensures var r := Insert(queue, unused, run, source, accounts); Sound(r.queue, ow, runs, enqueued, issued, r.unused)
  {
    if |accounts| > 0 {
      InsertKeeps(queue, unused, run, source, accounts[..|accounts| - 1], ow, runs, enqueued, issued);
      InsertOneKeeps(Insert(queue, unused, run, source, accounts[..|accounts| - 1]), run, source, accounts[|accounts| - 1],
                     ow, runs, enqueued, issued);
    }
  }

  /** The counts of a run grow by the rows created for it. */
  lemma {:induction false} InsertCounts(queue: Queue, unused: nat, run: Option<nat>, source: Source, accounts: seq<int>, r: nat)
    requires forall i :: i in queue ==> i < unused
    ensures var q := Insert(queue, unused, run, source, accounts);
            && |RowsOf(q.queue, r)| == |RowsOf(queue, r)| + (if run == Some(r) then |q.ids| else 0)
            && |UncountedOf(q.queue, r)| == |UncountedOf(queue, r)| + (if run == Some(r) then |q.ids| else 0)
  {
    if |accounts| > 0 {
      var front := Insert(queue, unused, run, source, accounts[..|accounts| - 1]);
      InsertCounts(queue, unused, run, source, accounts[..|accounts| - 1], r);
      InsertGrows(queue, unused, run, source, accounts[..|accounts| - 1]);
      AddCounts(front.queue, front.unused, NewAccount(run, source, accounts[|accounts| - 1], front.unused + 1), r);
    }
  }

  lemma StaysQueued(q: Queue, q': Queue, run: Option<nat>, source: Source, x: int)
    requires Queued(q, run, source, x) && forall i :: i in q ==> i in q' && q'[i] == q[i]
    ensures Queued(q', run, source, x)
  {
    var i :| i in q && q[i].run == run && q[i].source == source && q[i].account == x;
    assert i in q' && q'[i] == q[i];
  }

  /** Every account is queued afterwards. */
  lemma {:induction false} InsertQueues(queue: Queue, unused: nat, run: Option<nat>, source: Source, accounts: seq<int>, x: int)
    requires forall i :: i in queue ==> i < unused
    requires x in accounts || Queued(queue, run, source, x)
    ensures Queued(Insert(queue, unused, run, source, accounts).queue, run, source, x)
  {
    if |accounts| > 0 {
      InsertGrows(queue, unused, run, source, accounts[..|accounts| - 1]);
      if x in accounts[..|accounts| - 1] || Queued(queue, run, source, x) {
        InsertQueues(queue, unused, run, source, accounts[..|accounts| - 1], x);
      }
      InsertOneQueues(Insert(queue, unused, run, source, accounts[..|accounts| - 1]), run, source, accounts[|accounts| - 1], x);
    }
  }

  lemma InsertOneQueues(r: Inserted, run: Option<nat>, source: Source, account: int, x: int)
    requires r.unused !in r.queue && (x == account || Queued(r.queue, run, source, x))
    ensures Queued(InsertOne(r, run, source, account).queue, run, source, x)
  {
    var q := InsertOne(r, run, source, account).queue;
    if Queued(r.queue, run, source, x) {
      StaysQueued(r.queue, q, run, source, x);
    } else {
      assert q[r.unused].account == x;
    }
  }

  // ---------------------------------------------------------------- staging

  lemma {:induction false} StageGrows(queue: Queue, unused: nat, accounts: seq<int>, now: int)
    requires forall i :: i in queue ==> i < unused
    ensures Grown(queue, unused, Stage(queue, unused, accounts, now))
  {
    if |accounts| > 0 { StageGrows(queue, unused, accounts[..|accounts| - 1], now); }
  }

  lemma {:induction false} StageCounts(queue: Queue, unused: nat, accounts: seq<int>, now: int, r: nat)
    requires forall i :: i in queue ==> i < unused
    ensures var q := Stage(queue, unused, accounts, now).queue; RowsOf(q, r) == RowsOf(queue, r) && UncountedOf(q, r) == UncountedOf(queue, r)
  {
    if |accounts| > 0 {
      StageGrows(queue, unused, accounts[..|accounts| - 1], now);
      StageCounts(queue, unused, accounts[..|accounts| - 1], now, r);
    }
  }

  lemma StageOneKeeps(r: Inserted, account: int, now: int,
                      ow: O.World, runs: set<nat>, enqueued: map<nat, set<int>>, issued: map<nat, Job>)
    requires Sound(r.queue, ow, runs, enqueued, issued, r.unused) && !Queued(r.queue, None, Federation, account)
    ensures var r' := StageOne(r, account, now);
            var job := JobOf(r.unused, r'.queue[r.unused], r.unused + 2);
            Sound(r'.queue, ow, runs, enqueued, issued[r.unused + 2 := job], r'.unused)
  {
    var a := StagedAccount(account, r.unused + 1, r.unused + 2, now);
    var issued' := issued[r.unused + 2 := JobOf(r.unused, a, r.unused + 2)];
    AddIssued(r.queue, ow, runs, enqueued, issued', r.unused, r.unused + 3, r.unused, a);
  }

  lemma AddIssued(queue: Queue, ow: O.World, runs: set<nat>, enqueued: map<nat, set<int>>, issued: map<nat, Job>, unused: nat,
                  unused': nat, i: nat, a: Account)
    requires RowsOk(queue, runs, enqueued, issued, ow.log.finalized, unused) && QueueUnique(queue) && ScanLinks(queue, ow, runs, unused)
    requires TokensOld(issued, unused')
    requires unused <= i < unused' && unused <= a.scan < unused'
    requires AccountOk(i, a, runs, enqueued, issued, {}, unused')
    requires !Queued(queue, a.run, a.source, a.account)
    ensures Sound(queue[i := a], ow, runs, enqueued, issued, unused')
  {
    var q := queue[i := a];
    forall j | j in queue
      ensures queue[j].scan < unused && j < unused
    {
      assert AccountOk(j, queue[j], runs, enqueued, issued, ow.log.finalized, unused);
    }
    forall j | j in q
      ensures AccountOk(j, q[j], runs, enqueued, issued, ow.log.finalized, unused')
    {
      if j != i { assert AccountOk(j, queue[j], runs, enqueued, issued, ow.log.finalized, unused); }
    }
  }

  /** StagedJobs reads only the staged rows. */
  lemma {:induction false} StagedJobsFrame(queue: Queue, queue': Queue, ids: seq<nat>)
    requires forall i :: i in ids ==> i in queue && i in queue' && queue'[i] == queue[i]
    ensures StagedJobs(queue, ids) == StagedJobs(queue', ids)
  {
    if |ids| > 0 { StagedJobsFrame(queue, queue', ids[..|ids| - 1]); }
  }

  /** The claims of a longer staging are those of the shorter one and the new row's. */
  lemma StagedMore(r: Inserted, account: int, now: int)
    requires !Queued(r.queue, None, Federation, account)
    requires forall i :: i in r.ids ==> i in r.queue && i != r.unused
    ensures var r' := StageOne(r, account, now);
            StagedJobs(r'.queue, r'.ids) == StagedJobs(r.queue, r.ids)[r.unused + 2 := JobOf(r.unused, r'.queue[r.unused], r.unused + 2)]
  {
    var r' := StageOne(r, account, now);
    assert r'.ids[..|r'.ids| - 1] == r.ids;
    StagedJobsFrame(r.queue, r'.queue, r.ids);
  }

  lemma {:induction false} StageKeeps(queue: Queue, unused: nat, accounts: seq<int>, now: int,
                   ow: O.World, runs: set<nat>, enqueued: map<nat, set<int>>, issued: map<nat, Job>)
    requires Sound(queue, ow, runs, enqueued, issued, unused)
    ensures var r := Stage(queue, unused, accounts, now);
            Sound(r.queue, ow, runs, enqueued, issued + StagedJobs(r.queue, r.ids), r.unused)
  {
    if |accounts| == 0 {
      assert issued + map[] == issued;
    } else {
      StageKeeps(queue, unused, accounts[..|accounts| - 1], now, ow, runs, enqueued, issued);
      StageGrows(queue, unused, accounts[..|accounts| - 1], now);
      StageNextKeeps(Stage(queue, unused, accounts[..|accounts| - 1], now), accounts[|accounts| - 1], now, ow, runs, enqueued, issued);
    }
  }

  lemma StageNextKeeps(r: Inserted, account: int, now: int,
                       ow: O.World, runs: set<nat>, enqueued: map<nat, set<int>>, issued: map<nat, Job>)
    requires Sound(r.queue, ow, runs, enqueued, issued + StagedJobs(r.queue, r.ids), r.unused)
    requires forall i :: i in r.ids ==> i in r.queue && i < r.unused
    ensures var r' := StageOne(r, account, now);
            Sound(r'.queue, ow, runs, enqueued, issued + StagedJobs(r'.queue, r'.ids), r'.unused)
  {
    if !Queued(r.queue, None, Federation, account) {
      StageOneKeeps(r, account, now, ow, runs, enqueued, issued + StagedJobs(r.queue, r.ids));
      StagedIssued(r, account, now, issued);
    }
  }

  lemma StagedIssued(r: Inserted, account: int, now: int, issued: map<nat, Job>)
    requires !Queued(r.queue, None, Federation, account)
    requires forall i :: i in r.ids ==> i in r.queue && i < r.unused
    ensures var r' := StageOne(r, account, now);
            issued + StagedJobs(r'.queue, r'.ids) ==
            (issued + StagedJobs(r.queue, r.ids))[r.unused + 2 := JobOf(r.unused, r'.queue[r.unused], r.unused + 2)]
  {
    StagedMore(r, account, now);
  }

  // -------------------------------------------------- rows outside any run

  lemma {:induction false} InsertOutside(queue: Queue, unused: nat, source: Source, accounts: seq<int>, r: nat)
    requires forall i :: i in queue ==> i < unused
    ensures var q := Insert(queue, unused, None, source, accounts).queue; RowsOf(q, r) == RowsOf(queue, r) && UncountedOf(q, r) == UncountedOf(queue, r)
  {
    if |accounts| > 0 {
      InsertGrows(queue, unused, None, source, accounts[..|accounts| - 1]);
      InsertOutside(queue, unused, source, accounts[..|accounts| - 1], r);
    }
  }

  ghost predicate SameRuns(q: Queue, q': Queue) {
    forall r: nat :: RowsOf(q', r) == RowsOf(q, r) && UncountedOf(q', r) == UncountedOf(q, r)
  }

  lemma GrownFate(queue: Queue, r: Inserted, created: set<nat>, settled: map<nat, Settlement>, ow: O.World, unused: nat)
    requires FateInv(queue.Keys, created, settled, ow, unused) && Grown(queue, unused, r)
    ensures FateInv(r.queue.Keys, created + Elements(r.ids), settled, ow, r.unused)
  {
    forall i | i in settled
      ensures i !in r.queue && i in created
    {
      assert i in created;
    }
  }

  lemma RowsMonitor(m: Monitor, sound: set<nat>, db: Db, db': Db, s: O.Scans)
    requires MonitorInv(m, sound, db, s) && SameRuns(db.queue, db'.queue)
    requires db'.shards == db.shards && db'.runs == db.runs && db'.anomalies == db.anomalies
    ensures MonitorInv(m, sound, db', s)
  {
    QuietFrame(db, db', s, s);
    MonitorFrame(m, sound, db, db', s, s);
  }

  lemma AddStepKeeps(listing: Listing, w: World, w': World, r: Inserted)
    requires Inv(listing, w)
    requires w'.db == w.db.(queue := r.queue, unused := r.unused, highwater := w'.db.highwater)
    requires w'.past == w.past.(created := w.past.created + Elements(r.ids), issued := w'.past.issued)
    requires w'.ow == w.ow && w'.owned == w.owned && w'.monitor == w.monitor
    requires Grown(w.db.queue, w.db.unused, r) && SameRuns(w.db.queue, r.queue)
    requires Sound(r.queue, w.ow, w.db.runs.Keys, w.past.enqueued, w'.past.issued, r.unused)
    ensures Inv(listing, w')
  {
    ShardFrame(listing, w.db.runs, w.db.runs, w.db.shards, w.owned, w.past.enqueued, w.past.seeded, w.db.unused, r.unused);
    GrownFate(w.db.queue, r, w.past.created, w.past.settled, w.ow, w.db.unused);
    RowsMonitor(w.monitor, w.past.sound, w.db, w'.db, w.ow.scans);
  }

  lemma RowsOld(listing: Listing, w: World)
    requires Inv(listing, w)
    ensures Sound(w.db.queue, w.ow, w.db.runs.Keys, w.past.enqueued, w.past.issued, w.db.unused)
    ensures forall i :: i in w.db.queue ==> i < w.db.unused
  {
    forall i | i in w.db.queue
      ensures i < w.db.unused
    {
      assert AccountOk(i, w.db.queue[i], w.db.runs.Keys, w.past.enqueued, w.past.issued, w.ow.log.finalized, w.db.unused);
    }
  }

  lemma AddKeeps(listing: Listing, w: World, source: Source, accounts: seq<int>, highwater: int)
    requires Inv(listing, w) && !source.Global?
    ensures var r := Insert(w.db.queue, w.db.unused, None, source, accounts);
            Inv(listing, StepAdd(w, Enqueue(w.db, source, accounts).(highwater := highwater), r.ids))
  {
    var r := Insert(w.db.queue, w.db.unused, None, source, accounts);
    RowsOld(listing, w);
    InsertGrows(w.db.queue, w.db.unused, None, source, accounts);
    InsertKeeps(w.db.queue, w.db.unused, None, source, accounts, w.ow, w.db.runs.Keys, w.past.enqueued, w.past.issued);
    forall n: nat
      ensures RowsOf(r.queue, n) == RowsOf(w.db.queue, n) && UncountedOf(r.queue, n) == UncountedOf(w.db.queue, n)
    {
      InsertOutside(w.db.queue, w.db.unused, source, accounts, n);
    }
    AddStepKeeps(listing, w, StepAdd(w, Enqueue(w.db, source, accounts).(highwater := highwater), r.ids), r);
  }

  lemma StageStepKeeps(listing: Listing, w: World, accounts: seq<int>, now: int)
    requires Inv(listing, w)
    ensures Inv(listing, StepStage(w, accounts, now))
  {
    var r := Stage(w.db.queue, w.db.unused, accounts, now);
    RowsOld(listing, w);
    StageGrows(w.db.queue, w.db.unused, accounts, now);
    StageKeeps(w.db.queue, w.db.unused, accounts, now, w.ow, w.db.runs.Keys, w.past.enqueued, w.past.issued);
    forall n: nat
      ensures RowsOf(r.queue, n) == RowsOf(w.db.queue, n) && UncountedOf(r.queue, n) == UncountedOf(w.db.queue, n)
    {
      StageCounts(w.db.queue, w.db.unused, accounts, now, n);
    }
    AddStepKeeps(listing, w, StepStage(w, accounts, now), r);
  }
}
