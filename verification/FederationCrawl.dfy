/**
 The federation sweep and the account queue as one system: an ID below a checkpoint was
 fetched at some moment m, and if it was due then, its account had a queue row at a
 later moment n, and that row was not lost since.
 */
module FederationCrawl {
  // The worker of a sweep shard resolves a batch of IDs, stages a queue row for every
  // account of the batch that has keys or is a known owner, and only then moves its
  // checkpoint.  Everything else the sweep does, and everything the crawl does, may happen
  // in between; reaping and restarting act on both.  A joint step is a step of the sweep,
  // a step of the crawl, or one of each.

  import opened Prelude
  import opened RangeDivision
  import opened EnumerationPage
  import S = Sweep
  import W = WorkProtocol
  import opened WorkTables
  import opened QueueProofs
  import opened WorkTheorems
  import opened Durability

  datatype Joint = Joint(sweep: S.World, work: W.World)

  datatype Op =
    | Sweeping(sweepOp: S.Op)
    | Crawling(workOp: W.Op)
    | Select(worker: nat, users: set<int>, holders: set<int>)   // the accounts found, and those of them with keys
    | StageBatch(worker: nat, accounts: seq<int>, now: int)
    | ReapLeases(now: int)
    | Restart(now: int)

  predicate SweepAlone(op: S.Op) { !op.Resolve? && !op.Stage? && !op.ReapLeases? && !op.Restart? }

  predicate CrawlAlone(op: W.Op) { !op.StageFederation? && !op.ReapLeases? && !op.Restart? }

  /** Accounts without keys are recorded only if they are known owners. */
  function ToRecord(work: W.World, users: set<int>, holders: set<int>): set<int> { holders + users * Owners(work.ow) }

  /** The worker stages exactly the accounts due. */
  predicate StageReady(w: S.World, worker: nat, accounts: seq<int>) {
    worker in w.locals && w.locals[worker].phase.Resolved? && Elements(accounts) == w.locals[worker].phase.due
  }

  function SweepOp(j: Joint, op: Op): Option<S.Op> {
    match op
    case Sweeping(o) => if SweepAlone(o) then Some(o) else None
    case Crawling(_) => None
    case Select(worker, users, holders) => Some(S.Resolve(worker, ToRecord(j.work, users, holders)))
    case StageBatch(worker, accounts, _) => if StageReady(j.sweep, worker, accounts) then Some(S.Stage(worker)) else None
    case ReapLeases(now) => Some(S.ReapLeases(now))
    case Restart(_) => Some(S.Restart)
  }

  function WorkOp(j: Joint, op: Op): Option<W.Op> {
    match op
    case Sweeping(_) => None
    case Crawling(o) => if CrawlAlone(o) then Some(o) else None
    case Select(_, _, _) => None
    case StageBatch(worker, accounts, now) =>
      if StageReady(j.sweep, worker, accounts) then Some(W.StageFederation(accounts, now)) else None
    case ReapLeases(now) => Some(W.ReapLeases(now))
    case Restart(now) => Some(W.Restart(now))
  }

  function SweepNext(w: S.World, op: Option<S.Op>): S.World { if op.Some? then S.Step(w, op.value) else w }

  function WorkNext(w: W.World, op: Option<W.Op>): W.World { if op.Some? then W.Step(w, op.value) else w }

  function Step(j: Joint, op: Op): Joint { Joint(SweepNext(j.sweep, SweepOp(j, op)), WorkNext(j.work, WorkOp(j, op))) }

  function Start(anomalies: map<int, Option<nat>>, unused: nat): Joint { Joint(S.Init(), W.Init(anomalies, unused)) }

  function Execute(start: Joint, ops: seq<Op>): Joint {
    if |ops| == 0 then start else Step(Execute(start, ops[..|ops| - 1]), ops[|ops| - 1])
  }

  ghost predicate Possible(listing: Listing, j: Joint, op: Op) {
    WorkOp(j, op).Some? ==> W.Possible(listing, j.work, WorkOp(j, op).value)
  }

  ghost predicate Legal(listing: Listing, start: Joint, ops: seq<Op>) {
    |ops| > 0 ==>
      Legal(listing, start, ops[..|ops| - 1]) && Possible(listing, Execute(start, ops[..|ops| - 1]), ops[|ops| - 1])
  }

  // ------------------------------------------------------------ the two sides

  lemma SweepOnward(ops: seq<S.Op>, op: Option<S.Op>) returns (ops': seq<S.Op>)
    ensures S.Execute(ops') == SweepNext(S.Execute(ops), op)
  {
    ops' := ops;
    if op.Some? {
      ops' := ops + [op.value];
      assert ops'[..|ops'| - 1] == ops;
    }
  }

  /** The sweep's side of a joint run is a run of the sweep. */
  lemma {:induction false} SweepSide(anomalies: map<int, Option<nat>>, unused: nat, ops: seq<Op>)
      returns (sweepOps: seq<S.Op>)
    ensures Execute(Start(anomalies, unused), ops).sweep == S.Execute(sweepOps)
  {
    sweepOps := [];
    if |ops| > 0 {
      var front := ops[..|ops| - 1];
      sweepOps := SweepSide(anomalies, unused, front);
      sweepOps := SweepOnward(sweepOps, SweepOp(Execute(Start(anomalies, unused), front), ops[|ops| - 1]));
    }
  }

  lemma StartReachable(listing: Listing, anomalies: map<int, Option<nat>>, unused: nat)
    ensures Reachable(listing, W.Init(anomalies, unused))
  {
    var w := W.Init(anomalies, unused);
    assert W.Legal(listing, w, []) && W.Execute(w, []) == w;
  }

  /** The crawl's side of a legal joint run is a legal run of the crawl. */
  lemma {:induction false} WorkSide(listing: Listing, anomalies: map<int, Option<nat>>, unused: nat, ops: seq<Op>)
    requires Legal(listing, Start(anomalies, unused), ops)
    ensures Reachable(listing, Execute(Start(anomalies, unused), ops).work)
  {
    if |ops| == 0 {
      StartReachable(listing, anomalies, unused);
    } else {
      WorkSide(listing, anomalies, unused, ops[..|ops| - 1]);
      var j, op := Execute(Start(anomalies, unused), ops[..|ops| - 1]), ops[|ops| - 1];
      if WorkOp(j, op).Some? { Reach(listing, j.work, WorkOp(j, op).value); }
    }
  }

  lemma SweepInv(anomalies: map<int, Option<nat>>, unused: nat, ops: seq<Op>)
    ensures S.Inv(Execute(Start(anomalies, unused), ops).sweep)
  {
    var sweepOps := SweepSide(anomalies, unused, ops);
    S.EveryRunKeeps(sweepOps);
  }

  // ------------------------------------------------------ moments of a run

  /** The state before the n-th step. */
  function At(start: Joint, ops: seq<Op>, n: nat): Joint
    requires n <= |ops|
  {
    Execute(start, ops[..n])
  }

  predicate InBatch(l: S.Local, r: nat, x: int) { l.run == r && l.next <= x < l.next + S.BatchSize(l) }

  /** The step selects from a batch of run r that holds ID x; `due` says whether x is one to be recorded. */
  predicate SelectsNow(j: Joint, op: Op, r: nat, x: int, due: bool) {
    && op.Select? && op.worker in j.sweep.locals && j.sweep.locals[op.worker].phase.Ready?
    && j.sweep.locals[op.worker].next <= j.sweep.locals[op.worker].upper && InBatch(j.sweep.locals[op.worker], r, x)
    && (due <==> x in ToRecord(j.work, op.users, op.holders))
  }

  /** The step stages x for run r. */
  predicate StagesNow(j: Joint, op: Op, r: nat, x: int) {
    op.StageBatch? && StageReady(j.sweep, op.worker, op.accounts) && j.sweep.locals[op.worker].run == r && x in op.accounts
  }

  predicate FederationRow(queue: Queue, i: nat, x: int) {
    i in queue && queue[i].run == None && queue[i].source.Federation? && queue[i].account == x
  }

  predicate Fetched(start: Joint, ops: seq<Op>, m: nat, r: nat, x: int, due: bool) {
    m < |ops| && SelectsNow(At(start, ops, m), ops[m], r, x, due)
  }

  /** Step n staged x; the federation row i it found or made is still queued, or was settled under a claim on it. */
  ghost predicate KeptSince(start: Joint, ops: seq<Op>, n: nat, i: nat, r: nat, x: int) {
    && n < |ops| && StagesNow(At(start, ops, n), ops[n], r, x)
    && FederationRow(At(start, ops, n + 1).work.db.queue, i, x)
    && Durable(Execute(start, ops).work, i, At(start, ops, n + 1).work.db.queue[i])
  }

  ghost predicate KeptAfter(start: Joint, ops: seq<Op>, m: nat, r: nat, x: int) {
    exists n: nat, i: nat :: m < n && KeptSince(start, ops, n, i, r, x)
  }

  /** Fetched once when it was not due. */
  ghost predicate Spared(start: Joint, ops: seq<Op>, r: nat, x: int) {
    exists m: nat :: Fetched(start, ops, m, r, x, false)
  }

  ghost predicate Due(start: Joint, ops: seq<Op>, r: nat, x: int) {
    exists m: nat :: Fetched(start, ops, m, r, x, true)
  }

  /** Fetched when it was due, then staged, and kept since. */
  ghost predicate Secured(start: Joint, ops: seq<Op>, r: nat, x: int) {
    exists m: nat :: Fetched(start, ops, m, r, x, true) && KeptAfter(start, ops, m, r, x)
  }

  ghost predicate Handled(start: Joint, ops: seq<Op>, r: nat, x: int) {
    Spared(start, ops, r, x) || Secured(start, ops, r, x)
  }

  // ------------------------------------------------- what was so remains so

  lemma Onward(start: Joint, ops: seq<Op>, op: Op)
    ensures Execute(start, ops + [op]) == Step(Execute(start, ops), op)
    ensures forall n: nat :: n <= |ops| ==> At(start, ops + [op], n) == At(start, ops, n)
    ensures At(start, ops, |ops|) == Execute(start, ops) && At(start, ops + [op], |ops| + 1) == Execute(start, ops + [op])
  {
    assert (ops + [op])[..|ops|] == ops && ops[..|ops|] == ops && (ops + [op])[..|ops| + 1] == ops + [op];
    forall n: nat | n <= |ops|
      ensures At(start, ops + [op], n) == At(start, ops, n)
    {
      assert (ops + [op])[..n] == ops[..n];
    }
  }

  lemma FetchedStays(start: Joint, ops: seq<Op>, op: Op, m: nat, r: nat, x: int, due: bool)
    requires Fetched(start, ops, m, r, x, due)
    ensures Fetched(start, ops + [op], m, r, x, due)
  {
    Onward(start, ops, op);
  }

  lemma KeptStays(listing: Listing, start: Joint, ops: seq<Op>, op: Op, n: nat, i: nat, r: nat, x: int)
    requires W.Inv(listing, Execute(start, ops).work) && Possible(listing, Execute(start, ops), op)
    requires KeptSince(start, ops, n, i, r, x)
    ensures KeptSince(start, ops + [op], n, i, r, x)
  {
    Onward(start, ops, op);
    var j := Execute(start, ops);
    if WorkOp(j, op).Some? { DurableStep(listing, j.work, WorkOp(j, op).value, i, At(start, ops, n + 1).work.db.queue[i]); }
  }

  lemma FactsStay(listing: Listing, start: Joint, ops: seq<Op>, op: Op, r: nat, x: int)
    requires W.Inv(listing, Execute(start, ops).work) && Possible(listing, Execute(start, ops), op)
    ensures Spared(start, ops, r, x) ==> Spared(start, ops + [op], r, x)
    ensures Due(start, ops, r, x) ==> Due(start, ops + [op], r, x)
    ensures Secured(start, ops, r, x) ==> Secured(start, ops + [op], r, x)
  {
    if Spared(start, ops, r, x) {
      var m: nat :| Fetched(start, ops, m, r, x, false);
      FetchedStays(start, ops, op, m, r, x, false);
    }
    if Due(start, ops, r, x) {
      var m: nat :| Fetched(start, ops, m, r, x, true);
      FetchedStays(start, ops, op, m, r, x, true);
    }
    if Secured(start, ops, r, x) { SecuredStays(listing, start, ops, op, r, x); }
  }

  lemma SecuredStays(listing: Listing, start: Joint, ops: seq<Op>, op: Op, r: nat, x: int)
    requires W.Inv(listing, Execute(start, ops).work) && Possible(listing, Execute(start, ops), op)
    requires Secured(start, ops, r, x)
    ensures Secured(start, ops + [op], r, x)
  {
    var m: nat :| Fetched(start, ops, m, r, x, true) && KeptAfter(start, ops, m, r, x);
    var n: nat, i: nat :| m < n && KeptSince(start, ops, n, i, r, x);
    FetchedStays(start, ops, op, m, r, x, true);
    KeptStays(listing, start, ops, op, n, i, r, x);
    assert KeptAfter(start, ops + [op], m, r, x);
  }

  // --------------------------------------------------------------- invariant

  /** What is known of the IDs of a batch in work. */
  ghost predicate Known(start: Joint, ops: seq<Op>, l: S.Local, x: int)
    requires !l.phase.Ready?
  {
    if x !in l.phase.due then Spared(start, ops, l.run, x)
    else if l.phase.Resolved? then Due(start, ops, l.run, x)
    else Secured(start, ops, l.run, x)
  }

  ghost predicate BatchKnown(start: Joint, ops: seq<Op>, l: S.Local) {
    !l.phase.Ready? ==>
      && (forall x :: l.next <= x < l.next + l.phase.size ==> Known(start, ops, l, x))
      && (forall x :: x in l.phase.due ==> l.next <= x < l.next + l.phase.size)
  }

  ghost predicate BatchesKnown(start: Joint, ops: seq<Op>, locals: map<nat, S.Local>) {
    forall k :: k in locals ==> BatchKnown(start, ops, locals[k])
  }

  /** Every ID below a checkpoint was handled. */
  ghost predicate ShardHandled(start: Joint, ops: seq<Op>, s: S.Shard) {
    forall x :: s.lower <= x < s.next ==> Handled(start, ops, s.run, x)
  }

  ghost predicate ShardsHandled(start: Joint, ops: seq<Op>, shards: seq<S.Shard>) {
    forall s :: 0 <= s < |shards| ==> ShardHandled(start, ops, shards[s])
  }

  ghost predicate PassedSecured(start: Joint, ops: seq<Op>, passed: set<(nat, int)>) {
    forall t :: t in passed ==> Secured(start, ops, t.0, t.1)
  }

  ghost predicate Told(start: Joint, ops: seq<Op>, w: S.World) {
    ShardsHandled(start, ops, w.db.shards) && BatchesKnown(start, ops, w.locals) && PassedSecured(start, ops, w.passed)
  }

  lemma ToldLater(listing: Listing, start: Joint, ops: seq<Op>, op: Op, w: S.World)
    requires W.Inv(listing, Execute(start, ops).work) && Possible(listing, Execute(start, ops), op)
    requires Told(start, ops, w)
    ensures Told(start, ops + [op], w)
  {
    forall s | 0 <= s < |w.db.shards|
      ensures ShardHandled(start, ops + [op], w.db.shards[s])
    {
      assert ShardHandled(start, ops, w.db.shards[s]);
      forall x | w.db.shards[s].lower <= x < w.db.shards[s].next
        ensures Handled(start, ops + [op], w.db.shards[s].run, x)
      {
        assert Handled(start, ops, w.db.shards[s].run, x);
        FactsStay(listing, start, ops, op, w.db.shards[s].run, x);
      }
    }
    forall k | k in w.locals
      ensures BatchKnown(start, ops + [op], w.locals[k])
    {
      BatchLater(listing, start, ops, op, w.locals[k]);
    }
    forall t | t in w.passed
      ensures Secured(start, ops + [op], t.0, t.1)
    {
      FactsStay(listing, start, ops, op, t.0, t.1);
    }
  }

  lemma BatchLater(listing: Listing, start: Joint, ops: seq<Op>, op: Op, l: S.Local)
    requires W.Inv(listing, Execute(start, ops).work) && Possible(listing, Execute(start, ops), op)
    requires BatchKnown(start, ops, l)
    ensures BatchKnown(start, ops + [op], l)
  {
    if !l.phase.Ready? {
      forall x | l.next <= x < l.next + l.phase.size
        ensures Known(start, ops + [op], l, x)
      {
        assert Known(start, ops, l, x);
        FactsStay(listing, start, ops, op, l.run, x);
      }
    }
  }

  // ------------------------------------------------------- steps of the sweep

  /** Nothing but a fetch, a staging and a checkpoint touches batches, checkpoints or what was passed. */
  ghost predicate Quiet(w: S.World, w': S.World) {
    && w'.passed == w.passed
    && (forall k :: k in w'.locals ==> w'.locals[k].phase.Ready? || (k in w.locals && w'.locals[k] == w.locals[k]))
    && (forall s :: 0 <= s < |w'.db.shards| ==> SamePlace(w.db.shards, w'.db.shards, s))
  }

  ghost predicate SamePlace(shards: seq<S.Shard>, shards': seq<S.Shard>, s: nat)
    requires s < |shards'|
  {
    || shards'[s].next == shards'[s].lower
    || (&& s < |shards| && shards'[s].run == shards[s].run
        && shards'[s].lower == shards[s].lower && shards'[s].next == shards[s].next)
  }

  lemma QuietTold(start: Joint, ops: seq<Op>, w: S.World, w': S.World)
    requires Told(start, ops, w) && Quiet(w, w')
    ensures Told(start, ops, w')
  {
    forall s | 0 <= s < |w'.db.shards|
      ensures ShardHandled(start, ops, w'.db.shards[s])
    {
      assert SamePlace(w.db.shards, w'.db.shards, s);
      if s < |w.db.shards| { assert ShardHandled(start, ops, w.db.shards[s]); }
    }
  }

  lemma QuietStep(w: S.World, op: S.Op)
    requires !op.Resolve? && !op.Stage? && !op.Checkpoint?
    ensures Quiet(w, S.Step(w, op))
  {
  }

  lemma SelectTold(start: Joint, ops: seq<Op>, op: Op)
    requires op.Select? && Told(start, ops + [op], Execute(start, ops).sweep)
    ensures Told(start, ops + [op], Step(Execute(start, ops), op).sweep)
  {
    var j := Execute(start, ops);
    var w' := Step(j, op).sweep;
    if w' != j.sweep {
      var l := j.sweep.locals[op.worker];
      Onward(start, ops, op);
      forall x | l.next <= x < l.next + S.BatchSize(l)
        ensures Known(start, ops + [op], w'.locals[op.worker], x)
      {
        assert SelectsNow(j, op, l.run, x, x in ToRecord(j.work, op.users, op.holders));
        assert Fetched(start, ops + [op], |ops|, l.run, x, x in w'.locals[op.worker].phase.due);
      }
    }
  }

  /** Staging finds or makes a row for every account due. */
  lemma StagedRow(listing: Listing, j: Joint, op: Op, x: int) returns (i: nat)
    requires W.Inv(listing, j.work) && op.StageBatch? && StageReady(j.sweep, op.worker, op.accounts) && x in op.accounts
    ensures FederationRow(Step(j, op).work.db.queue, i, x)
  {
    RowsOld(listing, j.work);
    StageQueues(j.work.db.queue, j.work.db.unused, op.accounts, op.now, x);
    var queue := Stage(j.work.db.queue, j.work.db.unused, op.accounts, op.now).queue;
    assert Step(j, op).work.db.queue == queue;
    i :| i in queue && queue[i].run == None && queue[i].source == Federation && queue[i].account == x;
  }

  lemma StageSecures(start: Joint, ops: seq<Op>, op: Op, x: int, i: nat)
    requires op.StageBatch? && StageReady(Execute(start, ops).sweep, op.worker, op.accounts) && x in op.accounts
    requires Due(start, ops, Execute(start, ops).sweep.locals[op.worker].run, x)
    requires FederationRow(Step(Execute(start, ops), op).work.db.queue, i, x)
    ensures Secured(start, ops + [op], Execute(start, ops).sweep.locals[op.worker].run, x)
  {
    var j := Execute(start, ops);
    var r := j.sweep.locals[op.worker].run;
    Onward(start, ops, op);
    assert Durable(Step(j, op).work, i, Step(j, op).work.db.queue[i]);
    assert KeptSince(start, ops + [op], |ops|, i, r, x);
    var m: nat :| Fetched(start, ops, m, r, x, true);
    FetchedStays(start, ops, op, m, r, x, true);
    assert KeptAfter(start, ops + [op], m, r, x);
  }

  lemma StageTold(listing: Listing, start: Joint, ops: seq<Op>, op: Op)
    requires op.StageBatch? && W.Inv(listing, Execute(start, ops).work)
    requires Told(start, ops, Execute(start, ops).sweep) && Told(start, ops + [op], Execute(start, ops).sweep)
    ensures Told(start, ops + [op], Step(Execute(start, ops), op).sweep)
  {
    var j := Execute(start, ops);
    var w' := Step(j, op).sweep;
    if StageReady(j.sweep, op.worker, op.accounts) {
      var l := j.sweep.locals[op.worker];
      assert BatchKnown(start, ops, l) && BatchKnown(start, ops + [op], l);
      forall x | l.next <= x < l.next + l.phase.size
        ensures Known(start, ops + [op], w'.locals[op.worker], x)
      {
        assert Known(start, ops, l, x) && Known(start, ops + [op], l, x);
        if x in l.phase.due {
          assert x in Elements(op.accounts);
          var i := StagedRow(listing, j, op, x);
          StageSecures(start, ops, op, x, i);
        }
      }
    }
  }

  /** An accepted checkpoint passes only IDs of the worker's own batch. */
  lemma CheckpointTold(start: Joint, ops: seq<Op>, w: S.World, worker: nat, batch: int, now: int)
    requires Told(start, ops, w) && (worker in w.locals ==> S.LocalOk(w.locals[worker], w.db, w.resolved))
    ensures Told(start, ops, S.StepCheckpoint(w, worker, batch, now))
  {
    if worker in w.locals && w.locals[worker].phase.Staged? {
      var l := w.locals[worker];
      var w' := S.StepCheckpoint(w, worker, batch, now);
      assert BatchKnown(start, ops, l);
      forall x | l.next <= x < l.next + l.phase.size
        ensures Handled(start, ops, l.run, x)
      {
        assert Known(start, ops, l, x);
      }
      forall t | t in w'.passed
        ensures Secured(start, ops, t.0, t.1)
      {
        if t !in w.passed { assert Known(start, ops, l, t.1); }
      }
      forall s | 0 <= s < |w'.db.shards|
        ensures ShardHandled(start, ops, w'.db.shards[s])
      {
        assert ShardHandled(start, ops, w.db.shards[s]);
      }
    }
  }

  lemma LocalFacts(w: S.World)
    requires S.Inv(w)
    ensures S.LocalsOk(w.locals, w.db, w.resolved)
  {
  }

  lemma StepTold(listing: Listing, start: Joint, ops: seq<Op>, op: Op)
    requires WellFormed(listing) && Reachable(listing, Execute(start, ops).work) && S.Inv(Execute(start, ops).sweep)
    requires Possible(listing, Execute(start, ops), op) && Told(start, ops, Execute(start, ops).sweep)
    ensures Told(start, ops + [op], Execute(start, ops + [op]).sweep)
  {
    var j := Execute(start, ops);
    ReachableInv(listing, j.work);
    Onward(start, ops, op);
    ToldLater(listing, start, ops, op, j.sweep);
    if op.Select? {
      SelectTold(start, ops, op);
    } else if op.StageBatch? {
      StageTold(listing, start, ops, op);
    } else if SweepOp(j, op).Some? {
      var o := SweepOp(j, op).value;
      if o.Checkpoint? {
        LocalFacts(j.sweep);
        CheckpointTold(start, ops + [op], j.sweep, o.worker, o.batch, o.now);
      } else {
        QuietStep(j.sweep, o);
        QuietTold(start, ops + [op], j.sweep, S.Step(j.sweep, o));
      }
    }
  }

  lemma {:induction false} EveryRunTold(listing: Listing, anomalies: map<int, Option<nat>>, unused: nat, ops: seq<Op>)
    requires WellFormed(listing) && Legal(listing, Start(anomalies, unused), ops)
    ensures Told(Start(anomalies, unused), ops, Execute(Start(anomalies, unused), ops).sweep)
  {
    if |ops| > 0 {
      var front := ops[..|ops| - 1];
      EveryRunTold(listing, anomalies, unused, front);
      WorkSide(listing, anomalies, unused, front);
      SweepInv(anomalies, unused, front);
      StepTold(listing, Start(anomalies, unused), front, ops[|ops| - 1]);
      assert ops == front + [ops[|ops| - 1]];
    }
  }

  // -------------------------------------------------------------- guarantees

  /**
   Durable before the checkpoint passes: each ID a checkpoint has passed as due was
   fetched at some moment m as having keys or a known owner, had a federation row i in
   the queue at a later moment n, and that row is still queued or was settled under a
   claim on it; settled as published it is published, settled as overflowing it is
   published or still scanned.
   */
  lemma PassedIsKept(listing: Listing, anomalies: map<int, Option<nat>>, unused: nat, ops: seq<Op>, r: nat, x: int)
      returns (m: nat, n: nat, i: nat)
    requires WellFormed(listing) && Legal(listing, Start(anomalies, unused), ops)
    requires (r, x) in Execute(Start(anomalies, unused), ops).sweep.passed
    ensures Fetched(Start(anomalies, unused), ops, m, r, x, true) && m < n
    ensures KeptSince(Start(anomalies, unused), ops, n, i, r, x)
    ensures var w := Execute(Start(anomalies, unused), ops).work;
            i in w.past.settled ==> W.SettledOk(w.past.settled[i], w.ow)
  {
    var start := Start(anomalies, unused);
    EveryRunTold(listing, anomalies, unused, ops);
    assert Secured(start, ops, (r, x).0, (r, x).1);
    m :| Fetched(start, ops, m, r, x, true) && KeptAfter(start, ops, m, r, x);
    n, i :| m < n && KeptSince(start, ops, n, i, r, x);
    WorkSide(listing, anomalies, unused, ops);
    SettledWell(listing, Execute(start, ops).work);
  }

  lemma SettledWell(listing: Listing, w: W.World)
    requires WellFormed(listing) && Reachable(listing, w)
    ensures forall i :: i in w.past.settled ==> W.SettledOk(w.past.settled[i], w.ow)
  {
    ReachableInv(listing, w);
    forall i | i in w.past.settled ensures W.SettledOk(w.past.settled[i], w.ow) { SettledFact(listing, w, i); }
  }

  /**
   A finished sweep run: every ID of its range was fetched, and either it was not to be
   recorded then, or it was staged afterwards and its row was not lost since.
   */
  lemma FinishedRunHandled(listing: Listing, anomalies: map<int, Option<nat>>, unused: nat, ops: seq<Op>, r: nat, x: int)
    requires WellFormed(listing) && Legal(listing, Start(anomalies, unused), ops)
    requires var db := Execute(Start(anomalies, unused), ops).sweep.db;
             r < |db.runs| && !db.runs[r].running && db.runs[r].lower <= x <= db.runs[r].upper
    ensures Handled(Start(anomalies, unused), ops, r, x)
  {
    var w := Execute(Start(anomalies, unused), ops).sweep;
    EveryRunTold(listing, anomalies, unused, ops);
    SweepInv(anomalies, unused, ops);
    assert S.InShard(w.db.shards, r, x);
    var s :| 0 <= s < |w.db.shards| && w.db.shards[s].run == r && w.db.shards[s].lower <= x <= w.db.shards[s].upper;
    assert S.ShardOk(w.db.shards[s], w.db.runs, w.db.tokens, w.resolved);
    assert !S.Unfinished(w.db.shards, r);
    assert ShardHandled(Start(anomalies, unused), ops, w.db.shards[s]);
  }

  /** No hole and nothing dropped: when no sweep run is active, this holds of every ID up to the greatest upper bound. */
  lemma SweepHandledAll(listing: Listing, anomalies: map<int, Option<nat>>, unused: nat, ops: seq<Op>, x: int)
      returns (r: nat)
    requires WellFormed(listing) && Legal(listing, Start(anomalies, unused), ops)
    requires var runs := Execute(Start(anomalies, unused), ops).sweep.db.runs; !S.Active(runs) && 1 <= x <= S.MaxUpper(runs)
    ensures Handled(Start(anomalies, unused), ops, r, x)
  {
    var w := Execute(Start(anomalies, unused), ops).sweep;
    SweepInv(anomalies, unused, ops);
    assert S.InRun(w.db.runs, x);
    r :| 0 <= r < |w.db.runs| && w.db.runs[r].lower <= x <= w.db.runs[r].upper;
    FinishedRunHandled(listing, anomalies, unused, ops, r, x);
  }

  // ------------------------------------------------------------- an example

  /** One ID, one shard, claimed by worker 0. */
  function Example(next: int, phase: S.Phase): S.World {
    S.World(S.Db([S.Run(1, 1, true)], [S.Shard(0, 1, 1, next, S.Running, Some(0), Some(LEASE), 25)], 1, 1),
            map[0 := S.Local(0, 0, 1, next, 25, 0, phase)], {}, {})
  }

  lemma ExampleCut()
    ensures S.Step(S.Step(S.Step(S.Init(), S.RaiseHighwater(1)), S.StartRun(1, 25, false)), S.ClaimShard(0, 0, 0)) == Example(1, S.Ready)
  {
    assert S.MaxUpper([]) == 0;
    assert ProportionalPieces(0, 1, 1) == [Piece(0, 1)];
    var db := S.Db([], [], 1, 0);
    assert S.NextRange(db, false) == Some(Piece(0, 1));
    var cut := S.EnsureRun(db, 1, 25, false);
    assert cut == S.Db([S.Run(1, 1, true)], [S.NewShard(0, Piece(0, 1), 25)], 1, 0);
    assert S.Claimable(cut, 0);
    assert S.Claim(cut, 0, 0).shards == Example(1, S.Ready).db.shards;
  }

  lemma ExampleFetched(work: W.World)
    ensures ToRecord(work, {1}, {1}) == {1}
    ensures S.StepResolve(Example(1, S.Ready), 0, {1}) == Example(1, S.Resolved(1, {1})).(resolved := {(0, 1)})
  {
    var w := S.StepResolve(Example(1, S.Ready), 0, {1});
    assert S.IDs(0, 1, 1) == {(0, 1)};
    assert w.locals[0].phase.due == {1};
    assert w.locals == Example(1, S.Resolved(1, {1})).locals;
  }

  lemma ExamplePassed()
    ensures StageReady(Example(1, S.Resolved(1, {1})).(resolved := {(0, 1)}), 0, [1])
    ensures var w := S.StepStage(Example(1, S.Resolved(1, {1})).(resolved := {(0, 1)}), 0);
            (0, 1) in S.StepCheckpoint(w, 0, 25, 0).passed
  {
    var w := S.StepStage(Example(1, S.Resolved(1, {1})).(resolved := {(0, 1)}), 0);
    assert w.locals[0] == S.Local(0, 0, 1, 1, 25, 0, S.Staged(1, {1}));
    assert !S.AdvanceRefused(w.db, w.locals[0], 2);
    assert (0, 1) in S.Tagged(0, {1});
  }

  lemma {:induction false} ExampleRun(listing: Listing, ops: seq<Op>, op: Op)
    requires Legal(listing, Start(map[], 0), ops) && Possible(listing, Execute(Start(map[], 0), ops), op)
    ensures Legal(listing, Start(map[], 0), ops + [op])
    ensures Execute(Start(map[], 0), ops + [op]) == Step(Execute(Start(map[], 0), ops), op)
  {
    assert (ops + [op])[..|ops|] == ops;
  }

  /** IDs do get passed as due. */
  lemma PassedHappens(listing: Listing) returns (ops: seq<Op>)
    ensures Legal(listing, Start(map[], 0), ops) && (0, 1) in Execute(Start(map[], 0), ops).sweep.passed
  {
    ops := [];
    ExampleRun(listing, ops, Sweeping(S.RaiseHighwater(1)));
    ops := ops + [Sweeping(S.RaiseHighwater(1))];
    ExampleRun(listing, ops, Sweeping(S.StartRun(1, 25, false)));
    ops := ops + [Sweeping(S.StartRun(1, 25, false))];
    ExampleRun(listing, ops, Sweeping(S.ClaimShard(0, 0, 0)));
    ops := ops + [Sweeping(S.ClaimShard(0, 0, 0))];
    ExampleCut();
    assert Execute(Start(map[], 0), ops).sweep == Example(1, S.Ready);
    ops := ExampleEnd(listing, ops);
  }

  lemma ExampleEnd(listing: Listing, front: seq<Op>) returns (ops: seq<Op>)
    requires Legal(listing, Start(map[], 0), front) && Execute(Start(map[], 0), front).sweep == Example(1, S.Ready)
    ensures Legal(listing, Start(map[], 0), ops) && (0, 1) in Execute(Start(map[], 0), ops).sweep.passed
  {
    ExampleFetched(Execute(Start(map[], 0), front).work);
    ExamplePassed();
    ExampleRun(listing, front, Select(0, {1}, {1}));
    ops := front + [Select(0, {1}, {1})];
    ExampleRun(listing, ops, StageBatch(0, [1], 0));
    ops := ops + [StageBatch(0, [1], 0)];
    ExampleRun(listing, ops, Sweeping(S.Checkpoint(0, 25, 0)));
    ops := ops + [Sweeping(S.Checkpoint(0, 25, 0))];
  }
}
