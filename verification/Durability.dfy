/**
 A queue row, once written, is never lost: in every later state it is still queued
 for the same account, or it was settled under a claim on it.  In particular the
 accounts the federation sweep stages before it moves its checkpoint.
 */
module Durability {
  import opened Prelude
  import opened EnumerationPage
  import opened WorkTables
  import opened WorkProtocol
  import opened WorkProofs
  import opened QueueProofs
  import opened CompletionProofs
  import opened WorkTheorems
  import opened Fencing

  /** What became of a row that said `a`. */
  ghost predicate Durable(w: World, i: nat, a: Account) {
    || (i in w.db.queue && SameRow(a, w.db.queue[i]))
    || (i in w.past.settled && var job := w.past.settled[i].job;
          job.run == a.run && job.source == a.source && job.account == a.account && job.scan == a.scan)
  }

  lemma FateFact(listing: Listing, w: World, i: nat)
    requires Inv(listing, w) && i in w.past.settled
    ensures i !in w.db.queue
  {
  }

  lemma SettledOtherwise(w: World, op: Op, i: nat)
    requires i in w.past.settled && i !in w.db.queue && !op.CompleteAccounts?
    ensures i in Step(w, op).past.settled && Step(w, op).past.settled[i] == w.past.settled[i]
  {
  }

  lemma SettledInBatch(listing: Listing, w: World, jobs: seq<Job>, results: seq<Result>, now: int, stages: nat, i: nat)
    requires Inv(listing, w) && i in w.past.settled
    ensures var w' := StepComplete(w, jobs, results, now, stages); i in w'.past.settled && w'.past.settled[i] == w.past.settled[i]
  {
    FateFact(listing, w, i);
    if !BatchRefused(w.db, w.ow, jobs, results) {
      AllHeld(w.db.queue, jobs);
      SettledKeys(w.db.queue, jobs, results, Owners(w.ow));
    }
  }

  lemma SettledStays(listing: Listing, w: World, op: Op, i: nat)
    requires Inv(listing, w) && i in w.past.settled
    ensures i in Step(w, op).past.settled && Step(w, op).past.settled[i] == w.past.settled[i]
  {
    if op.CompleteAccounts? {
      SettledInBatch(listing, w, op.jobs, op.results, op.now, op.stages, i);
    } else {
      FateFact(listing, w, i);
      SettledOtherwise(w, op, i);
    }
  }

  lemma SameRowAfter(listing: Listing, w: World, op: Op, i: nat)
    requires Inv(listing, w) && i in w.db.queue && i in Step(w, op).db.queue
    ensures SameRow(w.db.queue[i], Step(w, op).db.queue[i])
  {
    if !op.CompleteAccounts? && !op.CompleteGone? { RowStays(listing, w, op, i); }
  }

  lemma DurableStep(listing: Listing, w: World, op: Op, i: nat, a: Account)
    requires Inv(listing, w) && Possible(listing, w, op) && Durable(w, i, a)
    ensures Durable(Step(w, op), i, a)
  {
    if i in w.past.settled {
      FateFact(listing, w, i);
      SettledStays(listing, w, op, i);
    } else if i in Step(w, op).db.queue {
      SameRowAfter(listing, w, op, i);
    } else {
      LeavesUnderClaim(listing, w, op, i);
    }
  }

  /** In every later state. */
  lemma {:induction false} RowForGood(listing: Listing, w: World, ops: seq<Op>, i: nat, a: Account)
    requires Inv(listing, w) && Legal(listing, w, ops) && Durable(w, i, a)
    ensures Durable(Execute(w, ops), i, a)
  {
    if |ops| > 0 {
      RowForGood(listing, w, ops[..|ops| - 1], i, a);
      Onwards(listing, w, ops[..|ops| - 1]);
      DurableStep(listing, Execute(w, ops[..|ops| - 1]), ops[|ops| - 1], i, a);
    }
  }

  lemma {:induction false} StageQueues(queue: Queue, unused: nat, accounts: seq<int>, now: int, x: int)
    requires forall i :: i in queue ==> i < unused
    requires x in accounts || Queued(queue, None, Federation, x)
    ensures Queued(Stage(queue, unused, accounts, now).queue, None, Federation, x)
  {
    if |accounts| > 0 {
      var n := |accounts| - 1;
      StageGrows(queue, unused, accounts[..n], now);
      if x in accounts[..n] || Queued(queue, None, Federation, x) { StageQueues(queue, unused, accounts[..n], now, x); }
      StageOneQueues(Stage(queue, unused, accounts[..n], now), accounts[n], now, x);
    }
  }

  lemma StageOneQueues(r: Inserted, account: int, now: int, x: int)
    requires r.unused !in r.queue && (x == account || Queued(r.queue, None, Federation, x))
    ensures Queued(StageOne(r, account, now).queue, None, Federation, x)
  {
    var q := StageOne(r, account, now).queue;
    if Queued(r.queue, None, Federation, x) {
      StaysQueued(r.queue, q, None, Federation, x);
    } else {
      assert q[r.unused].account == x;
    }
  }

  /** Every staged account has a durable federation row, new or already there: queued or settled in every later state. */
  lemma StagedForGood(listing: Listing, w: World, accounts: seq<int>, now: int, ops: seq<Op>, x: int) returns (i: nat,
                      a: Account)
    requires WellFormed(listing) && Reachable(listing, w) && x in accounts
    requires Legal(listing, StepStage(w, accounts, now), ops)
    ensures a.run == None && a.source == Federation && a.account == x
    ensures Durable(Execute(StepStage(w, accounts, now), ops), i, a)
  {
    ReachableInv(listing, w);
    RowsOld(listing, w);
    StageStepKeeps(listing, w, accounts, now);
    StageQueues(w.db.queue, w.db.unused, accounts, now, x);
    var w1 := StepStage(w, accounts, now);
    i :| i in w1.db.queue && w1.db.queue[i].run == None && w1.db.queue[i].source == Federation && w1.db.queue[i].account == x;
    a := w1.db.queue[i];
    RowForGood(listing, w1, ops, i, a);
  }
}
