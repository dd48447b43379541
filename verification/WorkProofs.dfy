/**
 Steps on rows that are already queued, and on overflow scans, keep the invariant.

 First what a step does not disturb:
 - counters follow the queue as long as rows stay with their runs (CountFrame);
 - shards and owners do not see the queue (ShardFrame);
 - what the monitor saw stays true while no run gains work (QuietFrame, MonitorFrame).

 Then the steps themselves.  A row is in progress iff it has a token and a lease, and its
 token names exactly this row; so the steps differ in what they do to these columns:
 - requeues and moves to the fallback lane give up a claim (FreedRows);
 - reaping gives up the expired ones (ReapedRows), recovery all of them (RecoveredRows);
 - claims draw a new token for each row (ClaimedRows, NewTokens);
 - attempt marks leave them alone (MarkedRows).
 */
module WorkProofs {
  import opened Prelude
  import opened RangeDivision
  import opened EnumerationPage
  import P = Publication
  import opened WorkTables
  import opened WorkProtocol
  import O = OverflowScan

  // ----------------------------------------------------------------- frames

  ghost predicate SameRows(q: Queue, q': Queue) {
    q'.Keys == q.Keys && forall i :: i in q ==> SameRow(q[i], q'[i])
  }

  ghost predicate SameCounted(q: Queue, q': Queue) {
    forall i :: i in q && i in q' ==> q[i].counted == q'[i].counted
  }

  lemma CountFrame(runs: map<nat, Run>, q: Queue, q': Queue)
    requires CountInv(runs, q) && SameRows(q, q') && SameCounted(q, q')
    ensures CountInv(runs, q')
  {
    forall r | r in runs
      ensures CountOk(r, runs[r], q')
    {
      assert CountOk(r, runs[r], q);
      assert RowsOf(q', r) == RowsOf(q, r);
      assert UncountedOf(q', r) == UncountedOf(q, r);
    }
  }

  lemma SameRowsOf(q: Queue, q': Queue, r: nat)
    requires SameRows(q, q')
    ensures RowsOf(q', r) == RowsOf(q, r)
  {
  }

  /** The runs are the same and none made progress. */
  ghost predicate SameStage(runs: map<nat, Run>, runs': map<nat, Run>) {
    && runs'.Keys == runs.Keys
    && forall r :: r in runs ==> runs'[r].enumerationComplete == runs[r].enumerationComplete && runs'[r].nextSince == runs[r].nextSince
  }

  lemma ShardFrame(listing: Listing, runs: map<nat, Run>, runs': map<nat, Run>, shards: map<nat, Shard>, owned: map<nat, Local>,
                   enqueued: map<nat, set<int>>, seeded: map<nat, set<Piece>>, unused: nat, unused': nat)
    requires ShardInv(listing, runs, shards, owned, enqueued, seeded, unused) && unused <= unused'
    requires SameStage(runs, runs')
    ensures ShardInv(listing, runs', shards, owned, enqueued, seeded, unused')
  {
    forall s | s in shards
      ensures s < unused' && ShardOk(runs', shards[s], seeded)
    {
      assert ShardOk(runs, shards[s], seeded);
    }
    forall r | r in runs'
      ensures r < unused' && RunOk(listing, r, runs'[r], shards, enqueued, seeded)
    {
      assert RunOk(listing, r, runs[r], shards, enqueued, seeded);
    }
  }

  /** What the monitor relies on is stable: drained runs stay drained, clear runs stay clear, closed runs stay closed. */
  ghost predicate Quiet(db: Db, db': Db, s: O.Scans, s': O.Scans) {
    && (forall r: nat :: Drained(r, db) ==> Drained(r, db'))
    && (forall r: nat :: Clear(r, db, s) ==> Clear(r, db', s'))
    && (forall r: nat :: r in db.runs && r in db'.runs && db'.runs[r].running ==> db.runs[r].running)
  }

  lemma MonitorFrame(m: Monitor, sound: set<nat>, db: Db, db': Db, s: O.Scans, s': O.Scans)
    requires MonitorInv(m, sound, db, s) && Quiet(db, db', s, s')
    ensures MonitorInv(m, sound, db', s')
  {
  }

  lemma QuietFrame(db: Db, db': Db, s: O.Scans, s': O.Scans)
    requires db'.shards == db.shards && db.runs.Keys <= db'.runs.Keys && db'.anomalies.Keys <= db.anomalies.Keys
    requires forall a :: a in db'.anomalies ==> db'.anomalies[a] == db.anomalies[a]
    requires forall r :: r in db.runs ==> (db'.runs[r].running ==> db.runs[r].running)
    requires forall r: nat :: RowsOf(db.queue, r) == {} ==> RowsOf(db'.queue, r) == {}
    requires forall r: nat :: RowsOf(db.queue, r) == {} && !OverflowPending(s, r) ==> !OverflowPending(s', r)
    ensures Quiet(db, db', s, s')
  {
    forall r: nat | Drained(r, db)
      ensures Drained(r, db')
    {
      assert RowsOf(db'.queue, r) == {};
    }
  }

  /** Claims, requeues, moves, leases and restarts change only the bookkeeping of rows. */
  lemma QueueStepKeeps(listing: Listing, w: World, w': World)
    requires Inv(listing, w)
    requires w' == w.(db := w.db.(queue := w'.db.queue, unused := w'.db.unused), past := w.past.(issued := w'.past.issued))
    requires w.db.unused <= w'.db.unused
    requires SameRows(w.db.queue, w'.db.queue) && SameCounted(w.db.queue, w'.db.queue)
    requires RowsOk(w'.db.queue, w.db.runs.Keys, w.past.enqueued, w'.past.issued, w.ow.log.finalized, w'.db.unused)
    requires TokensOld(w'.past.issued, w'.db.unused)
    ensures Inv(listing, w')
  {
    CountFrame(w.db.runs, w.db.queue, w'.db.queue);
    ShardFrame(listing, w.db.runs, w.db.runs, w.db.shards, w.owned, w.past.enqueued, w.past.seeded, w.db.unused, w'.db.unused);
    forall r ensures RowsOf(w'.db.queue, r) == RowsOf(w.db.queue, r) { SameRowsOf(w.db.queue, w'.db.queue, r); }
    QuietFrame(w.db, w'.db, w.ow.scans, w.ow.scans);
  }

  ghost predicate Extends(issued: map<nat, Job>, issued': map<nat, Job>) {
    forall t :: t in issued ==> t in issued' && issued'[t] == issued[t]
  }

  /** The k-th picked row was given token unused + k. */
  ghost predicate Given(issued: map<nat, Job>, queue: Queue, picked: seq<nat>, unused: nat)
    requires forall k :: 0 <= k < |picked| ==> picked[k] in queue
  {
    forall t: nat :: unused <= t < unused + |picked| ==>
      t in issued && issued[t] == JobOf(picked[t - unused], queue[picked[t - unused]], t)
  }

  lemma FreedRows(db: Db, jobs: seq<Job>, to: AccountStatus, due: int, runs: set<nat>, enqueued: map<nat, set<int>>,
                  issued: map<nat, Job>, finalized: set<nat>)
    requires RowsOk(db.queue, runs, enqueued, issued, finalized, db.unused) && (to.Retry? || to.Fallback?)
    ensures var q := FreeRows(db, jobs, to, due).queue;
            RowsOk(q, runs, enqueued, issued, finalized, db.unused) && SameRows(db.queue, q) && SameCounted(db.queue, q)
  {
    var q := FreeRows(db, jobs, to, due).queue;
    forall i | i in q
      ensures AccountOk(i, q[i], runs, enqueued, issued, finalized, db.unused)
      ensures SameRow(db.queue[i], q[i]) && db.queue[i].counted == q[i].counted
    {
      assert AccountOk(i, db.queue[i], runs, enqueued, issued, finalized, db.unused);
    }
  }

  lemma MarkedRows(queue: Queue, rows: set<nat>, runs: set<nat>, enqueued: map<nat, set<int>>, issued: map<nat, Job>,
                   finalized: set<nat>, unused: nat)
    requires RowsOk(queue, runs, enqueued, issued, finalized, unused)
    ensures var q := SetAttempted(queue, rows);
            RowsOk(q, runs, enqueued, issued, finalized, unused) && SameRows(queue, q) && SameCounted(queue, q)
    ensures var q := SetCounted(queue, rows);
            RowsOk(q, runs, enqueued, issued, finalized, unused) && SameRows(queue, q)
  {
  }

  lemma ReapedRows(db: Db, now: int, runs: set<nat>, enqueued: map<nat, set<int>>, issued: map<nat, Job>, finalized: set<nat>)
    requires RowsOk(db.queue, runs, enqueued, issued, finalized, db.unused)
    ensures var q := ReapAccounts(db, now).queue;
            RowsOk(q, runs, enqueued, issued, finalized, db.unused) && SameRows(db.queue, q) && SameCounted(db.queue, q)
  {
    var q := ReapAccounts(db, now).queue;
    forall i | i in q
      ensures AccountOk(i, q[i], runs, enqueued, issued, finalized, db.unused)
      ensures SameRow(db.queue[i], q[i]) && db.queue[i].counted == q[i].counted
    {
      assert AccountOk(i, db.queue[i], runs, enqueued, issued, finalized, db.unused);
    }
  }

  lemma RecoveredRows(db: Db, now: int, runs: set<nat>, enqueued: map<nat, set<int>>, issued: map<nat, Job>,
                      finalized: set<nat>)
    requires RowsOk(db.queue, runs, enqueued, issued, finalized, db.unused)
    ensures var q := Recover(db, now).queue;
            RowsOk(q, runs, enqueued, issued, finalized, db.unused) && SameRows(db.queue, q) && SameCounted(db.queue, q)
  {
    var q := Recover(db, now).queue;
    forall i | i in q
      ensures AccountOk(i, q[i], runs, enqueued, issued, finalized, db.unused)
      ensures SameRow(db.queue[i], q[i]) && db.queue[i].counted == q[i].counted
    {
      assert AccountOk(i, db.queue[i], runs, enqueued, issued, finalized, db.unused);
    }
  }

  lemma ClaimedRows(db: Db, picked: seq<nat>, to: AccountStatus, now: int, runs: set<nat>, enqueued: map<nat, set<int>>,
                    issued: map<nat, Job>, issued': map<nat, Job>, finalized: set<nat>)
    requires RowsOk(db.queue, runs, enqueued, issued, finalized, db.unused) && InProgress(to)
    requires forall k :: 0 <= k < |picked| ==> picked[k] in db.queue
    requires TokensOld(issued, db.unused)
    requires Extends(issued, issued')
    requires Given(issued', db.queue, picked, db.unused)
    ensures var q := ClaimRows(db, picked, to, now).queue;
            RowsOk(q, runs, enqueued, issued', finalized, db.unused + |picked|) && SameRows(db.queue, q) && SameCounted(db.queue, q)
  {
    var q := ClaimRows(db, picked, to, now).queue;
    forall i | i in q
      ensures AccountOk(i, q[i], runs, enqueued, issued', finalized, db.unused + |picked|)
    {
      assert AccountOk(i, db.queue[i], runs, enqueued, issued, finalized, db.unused);
      if i in picked {
        var k := Position(picked, i);
        assert issued'[db.unused + k] == JobOf(i, db.queue[i], db.unused + k);
      }
    }
  }

  lemma FreeKeeps(listing: Listing, w: World, jobs: seq<Job>, to: AccountStatus, due: int)
    requires Inv(listing, w) && (to.Retry? || to.Fallback?)
    ensures Inv(listing, w.(db := FreeRows(w.db, jobs, to, due)))
  {
    FreedRows(w.db, jobs, to, due, w.db.runs.Keys, w.past.enqueued, w.past.issued, w.ow.log.finalized);
    QueueStepKeeps(listing, w, w.(db := FreeRows(w.db, jobs, to, due)));
  }

  lemma MarkKeeps(listing: Listing, w: World, jobs: seq<Job>)
    requires Inv(listing, w)
    ensures Inv(listing, w.(db := MarkAttempted(w.db, jobs)))
  {
    if AllMatched(w.db.queue, jobs) {
      var q := SetAttempted(w.db.queue, Matched(w.db.queue, jobs));
      MarkedRows(w.db.queue, Matched(w.db.queue, jobs), w.db.runs.Keys, w.past.enqueued, w.past.issued, w.ow.log.finalized, w.db.unused);
      QueueStepKeeps(listing, w, w.(db := w.db.(queue := q)));
    }
  }

  lemma ClaimAccountsKeeps(listing: Listing, w: World, picked: seq<nat>, from: AccountStatus, now: int)
    requires Inv(listing, w)
    ensures Inv(listing, StepClaimAccounts(w, picked, from, now))
  {
    if PickOk(w.db.queue, picked, from, now) {
      PickedRows(w.db, picked, from, now, w.db.runs.Keys, w.past.enqueued, w.past.issued, w.ow.log.finalized);
      QueueStepKeeps(listing, w, StepClaimAccounts(w, picked, from, now));
    }
  }

  lemma PickedRows(db: Db, picked: seq<nat>, from: AccountStatus, now: int, runs: set<nat>, enqueued: map<nat, set<int>>,
                   issued: map<nat, Job>, finalized: set<nat>)
    requires RowsOk(db.queue, runs, enqueued, issued, finalized, db.unused) && TokensOld(issued, db.unused)
    requires PickOk(db.queue, picked, from, now)
    ensures var issued' := issued + ClaimedJobs(db.queue, picked, db.unused);
            var q := ClaimRows(db, picked, if from.Fallback? then FallbackRunning else Running, now).queue;
            && RowsOk(q, runs, enqueued, issued', finalized, db.unused + |picked|) && SameRows(db.queue, q) && SameCounted(db.queue, q)
            && TokensOld(issued', db.unused + |picked|)
  {
    NewTokens(db.queue, picked, db.unused, issued);
    ClaimedRows(db, picked, if from.Fallback? then FallbackRunning else Running, now, runs, enqueued, issued,
                issued + ClaimedJobs(db.queue, picked, db.unused), finalized);
  }

  lemma NewTokens(queue: Queue, picked: seq<nat>, unused: nat, issued: map<nat, Job>)
    requires forall k :: 0 <= k < |picked| ==> picked[k] in queue
    requires TokensOld(issued, unused)
    ensures var issued' := issued + ClaimedJobs(queue, picked, unused);
            && Extends(issued, issued')
            && TokensOld(issued', unused + |picked|)
            && Given(issued', queue, picked, unused)
  {
  }

  // --------------------------------------------------------------- overflow

  /** The overflow tables may move on their own when they open no scan. */
  lemma OverflowStepKeeps(listing: Listing, w: World, w': World)
    requires Inv(listing, w) && O.Inv(w'.ow)
    requires w' == w.(db := w.db.(unused := w'.db.unused), ow := w'.ow) && w.db.unused <= w'.db.unused
    requires O.Continues(w.ow, w'.ow)
    requires forall t :: t in w'.ow.log.issued ==> t < w'.db.unused
    ensures Inv(listing, w')
  {
    ShardFrame(listing, w.db.runs, w.db.runs, w.db.shards, w.owned, w.past.enqueued, w.past.seeded, w.db.unused, w'.db.unused);
    forall i | i in w'.db.queue
      ensures AccountOk(i, w'.db.queue[i], w.db.runs.Keys, w.past.enqueued, w.past.issued, w'.ow.log.finalized, w'.db.unused)
    {
      assert AccountOk(i, w.db.queue[i], w.db.runs.Keys, w.past.enqueued, w.past.issued, w.ow.log.finalized, w.db.unused);
    }
    forall i | i in w'.past.settled
      ensures SettledOk(w'.past.settled[i], w'.ow)
    {
    }
    forall r | !OverflowPending(w.ow.scans, r)
      ensures !OverflowPending(w'.ow.scans, r)
    {
    }
    QuietFrame(w.db, w'.db, w.ow.scans, w'.ow.scans);
  }

  lemma ClaimOverflowKeeps(listing: Listing, w: World, id: nat, now: int)
    requires Inv(listing, w)
    ensures Inv(listing, StepClaimOverflow(w, id, now))
  {
    if O.Claimable(w.ow.scans, id, now) {
      O.ClaimKeeps(w.ow, id, w.db.unused, now);
      OverflowStepKeeps(listing, w, StepClaimOverflow(w, id, now));
    }
  }

  lemma OverflowPageKeeps(listing: Listing, w: World, job: O.Job, page: O.KeyPage, now: int, stages: nat)
    requires Inv(listing, w) && O.Issued(w.ow, job)
    ensures Inv(listing, Resolve(w, O.ApplyPage(w.ow, job, page, now, stages), job))
  {
    O.ApplyPageKeeps(w.ow, job, page, now, stages);
    O.PageContinues(w.ow, job, page, now, stages);
    OverflowStepKeeps(listing, w, w.(ow := O.ApplyPage(w.ow, job, page, now, stages)));
  }

  lemma OverflowOtherKeeps(listing: Listing, w: World, job: O.Job, now: int, due: int)
    requires Inv(listing, w) && O.Issued(w.ow, job)
    ensures Inv(listing, w.(ow := O.Restart(w.ow, job, now)))
    ensures Inv(listing, w.(ow := O.Requeue(w.ow, job, due)))
  {
    O.RestartContinues(w.ow, job, now, due);
    O.RestartKeeps(w.ow, job, now);
    OverflowStepKeeps(listing, w, w.(ow := O.Restart(w.ow, job, now)));
    O.RequeueKeeps(w.ow, job, due);
    OverflowStepKeeps(listing, w, w.(ow := O.Requeue(w.ow, job, due)));
  }

  lemma OverflowRESTKeeps(listing: Listing, w: World, job: O.Job, keys: set<P.Fingerprint>, now: int, stages: nat)
    requires Inv(listing, w) && O.Issued(w.ow, job)
    ensures Inv(listing, Resolve(w, O.FromREST(w.ow, job, now, keys, stages), job))
  {
    O.FromRESTKeeps(w.ow, job, now, keys, stages);
    OverflowStepKeeps(listing, w, w.(ow := O.FromREST(w.ow, job, now, keys, stages)));
  }

  lemma ReapKeeps(listing: Listing, w: World, now: int)
    requires Inv(listing, w)
    ensures Inv(listing, w.(db := ReapAccounts(w.db, now), ow := O.Reap(w.ow, now)))
  {
    var w1 := w.(db := ReapAccounts(w.db, now));
    ReapedRows(w.db, now, w.db.runs.Keys, w.past.enqueued, w.past.issued, w.ow.log.finalized);
    QueueStepKeeps(listing, w, w1);
    O.ReapKeeps(w.ow, now);
    OverflowStepKeeps(listing, w1, w1.(ow := O.Reap(w.ow, now)));
  }
}
