/**
 The published keys over whole runs of the crawl: history is permanent, every scan
 publishes at most once, and an overflow scan only after two agreeing passes.
 */
module KeyHistory {
  import opened Prelude
  import E = EnumerationPage
  import opened P = Publication
  import T = WorkTables
  import opened WorkProtocol
  import opened WorkTheorems
  import O = OverflowScan

  lemma PublishHistory(t: Tables, account: int, scan: nat, now: int, fs: set<Fingerprint>, stages: nat)
    requires account in t.owners
    ensures HistoryKept(t, Publish(t, account, scan, now, fs, stages))
  {
  }

  lemma {:induction false} SettleAllHistory(w: O.World, known: set<int>, jobs: seq<T.Job>, results: seq<T.Result>,
                                            now: int, stages: nat, id: nat)
    requires |jobs| == |results|
    ensures HistoryKept(w.scans.index, T.SettleAll(w, known, jobs, results, now, stages, id).scans.index)
  {
    if |jobs| > 0 {
      var n := |jobs| - 1;
      var front := T.SettleAll(w, known, jobs[..n], results[..n], now, stages, id);
      SettleAllHistory(w, known, jobs[..n], results[..n], now, stages, id);
    }
  }

  lemma PageHistory(w: O.World, job: O.Job, page: O.KeyPage, now: int, stages: nat)
    ensures HistoryKept(w.scans.index, O.ApplyPage(w, job, page, now, stages).scans.index)
  {
    if !O.Refused(w.scans, job, page) {
      var st := O.Stage(w.scans.staging[job.scan], O.PassOf(job), page.keys);
      PublishHistory(w.scans.index, job.account, job.scan, now, st.pass2, stages);
    }
  }

  predicate Publishes(op: Op) { op.CompleteAccounts? || op.CompleteGone? || op.OverflowPage? || op.OverflowREST? }

  lemma AccountOpIndex(w: World, op: Op)
    requires AccountOp(op) && !Publishes(op)
    ensures Step(w, op).ow.scans.index == w.ow.scans.index
  {
  }

  lemma RunOpIndex(w: World, op: Op)
    requires ShardOp(op) || ArrivalOp(op)
    ensures Step(w, op).ow.scans.index == w.ow.scans.index
  {
  }

  lemma ScanOpIndex(w: World, op: Op)
    requires !ShardOp(op) && !ArrivalOp(op) && !AccountOp(op) && !Publishes(op)
    ensures Step(w, op).ow.scans.index == w.ow.scans.index
  {
  }

  lemma PublishingHistory(w: World, op: Op)
    requires Publishes(op)
    ensures HistoryKept(w.ow.scans.index, Step(w, op).ow.scans.index)
  {
    match op
    case CompleteAccounts(jobs, results, now, stages) =>
      if !T.BatchRefused(w.db, w.ow, jobs, results) {
        SettleAllHistory(w.ow, T.Owners(w.ow), jobs, results, now, stages, w.db.unused);
      }
    case CompleteGone(job, now) =>
    case OverflowPage(job, page, now, stages) => PageHistory(w.ow, job, page, now, stages);
    case OverflowREST(job, keys, now, stages) =>
  }

  lemma StepHistory(w: World, op: Op)
    ensures HistoryKept(w.ow.scans.index, Step(w, op).ow.scans.index)
  {
    if Publishes(op) {
      PublishingHistory(w, op);
    } else if AccountOp(op) {
      AccountOpIndex(w, op);
    } else if ShardOp(op) || ArrivalOp(op) {
      RunOpIndex(w, op);
    } else {
      ScanOpIndex(w, op);
    }
  }

  /** No association and no owner is ever removed, and none forgets when it was first seen. */
  lemma {:induction false} HistoryPermanent(w: World, ops: seq<Op>)
    ensures HistoryKept(w.ow.scans.index, Execute(w, ops).ow.scans.index)
  {
    if |ops| > 0 {
      var w1 := Execute(w, ops[..|ops| - 1]);
      HistoryPermanent(w, ops[..|ops| - 1]);
      StepHistory(w1, ops[|ops| - 1]);
    }
  }

  /** removed_at is null iff the key is present, each scan was published at most once, and no key of an open scan shows. */
  lemma PublishedOnce(listing: E.Listing, w: World)
    requires E.WellFormed(listing) && Reachable(listing, w)
    ensures var t := w.ow.scans.index; forall k :: k in t.keys ==> (t.keys[k].removedAt.None? <==> t.keys[k].present)
    ensures |w.ow.log.finalized| == w.ow.log.publications
    ensures forall i, k :: i in w.ow.scans.rows && k in w.ow.scans.index.keys ==>
              w.ow.scans.index.keys[k].lastScan != w.ow.scans.rows[i].scan && w.ow.scans.index.keys[k].changedScan != w.ow.scans.rows[i].scan
  {
    ReachableInv(listing, w);
    forall i, k | i in w.ow.scans.rows && k in w.ow.scans.index.keys
      ensures w.ow.scans.index.keys[k].lastScan != w.ow.scans.rows[i].scan
      ensures w.ow.scans.index.keys[k].changedScan != w.ow.scans.rows[i].scan
    {
      O.OpenScanInvisible(w.ow, i, k);
    }
  }

  /** In any reachable state a page publishes an overflow scan only when both passes hold the same keys, as many as every page said. */
  lemma TwoPassSafety(listing: E.Listing, w: World, job: O.Job, page: O.KeyPage, now: int, stages: nat)
    requires E.WellFormed(listing) && Reachable(listing, w) && O.Issued(w.ow, job)
    requires O.Published(w.ow, O.ApplyPage(w.ow, job, page, now, stages), job)
    ensures job.scan in w.ow.scans.staging && job.scan in w.ow.log.totals
    ensures var st := w.ow.scans.staging[job.scan];
            && O.Holds(w.ow.scans, job) && w.ow.scans.rows[job.id].pass == 2 && !page.hasMore
            && st.pass1 == st.pass2 + Elements(page.keys) && |st.pass1| == page.total && w.ow.log.totals[job.scan] == {page.total}
            && Present(O.ApplyPage(w.ow, job, page, now, stages).scans.index, job.account) == st.pass1
  {
    ReachableInv(listing, w);
    O.PublishesOnlyVerified(w.ow, job, page, now, stages);
  }
}
