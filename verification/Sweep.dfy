/**
 The federation sweep: a dense range of numeric IDs is cut into shards, claimed
 under leases and fencing tokens, resolved batch by batch, and checkpointed.
 */
module Sweep {
  // One run follows another: the first covers 1..highwater, later ones what was added
  // since, or everything again.
  //
  // `resolved` and `passed` are history: which IDs a run resolved, and which due IDs a
  // checkpoint has moved past.  Where the due IDs are recorded is the other half of the
  // protocol; FederationCrawl puts the two together.

  import opened Prelude
  import opened RangeDivision

  datatype Run = Run(lower: int, upper: int, running: bool)

  datatype Status = Pending | Running | Retry | Completed

  /** One row of entity_sweep_shards; IDs lower..upper, of which those below `next` are done. */
  datatype Shard = Shard(run: nat, lower: int, upper: int, next: int, status: Status, token: Option<nat>, lease: Option<int>, batch: int)

  /** Row identifiers are positions; every claim draws the next token. */
  datatype Db = Db(runs: seq<Run>, shards: seq<Shard>, highwater: int, tokens: nat)

  /** What a worker is doing with the batch next..next+size-1 of the shard it claimed. */
  datatype Phase = Ready | Resolved(size: int, due: set<int>) | Staged(size: int, due: set<int>)

  datatype Local = Local(shard: nat, run: nat, upper: int, next: int, batch: int, token: nat, phase: Phase)

  datatype World = World(db: Db, locals: map<nat, Local>, resolved: set<(nat, int)>, passed: set<(nat, int)>)

  // ------------------------------------------------------------ transactions

  function Clamp(x: int, lo: int, hi: int): int { Min(Max(x, lo), hi) }

  function MaxUpper(runs: seq<Run>): (m: int)
    ensures m >= 0
  {
    if |runs| == 0 then 0 else Max(MaxUpper(runs[..|runs| - 1]), runs[|runs| - 1].upper)
  }

  predicate Active(runs: seq<Run>) { exists r :: 0 <= r < |runs| && runs[r].running }

  predicate FullSweepDone(runs: seq<Run>) { exists r :: 0 <= r < |runs| && runs[r].lower == 1 && !runs[r].running }

  /** The range of the next run, if one is due; `elapsed` says that the last full sweep is old. */
  function NextRange(db: Db, elapsed: bool): (range: Option<Piece>)
    ensures range.Some? ==> 0 <= range.value.lo < range.value.hi == db.highwater
  {
    var maximum := MaxUpper(db.runs);
    if Active(db.runs) || db.highwater < 1 then None
    else if maximum == 0 then Some(Piece(0, db.highwater))
    else if maximum < db.highwater then Some(Piece(maximum, db.highwater))
    else if !FullSweepDone(db.runs) || elapsed then Some(Piece(0, db.highwater))
    else None
  }

  function NewShard(run: nat, p: Piece, batch: int): Shard { Shard(run, p.lo + 1, p.hi, p.lo + 1, Pending, None, None, batch) }

  function NewShards(run: nat, pieces: seq<Piece>, batch: int): seq<Shard> {
    seq(|pieces|, k requires 0 <= k < |pieces| => NewShard(run, pieces[k], batch))
  }

  function PieceCount(shardCount: int, total: int): int { Min(Clamp(shardCount, 1, 64) * 4, total) }

  /** EnsureEntitySweepRun. */
  function EnsureRun(db: Db, shardCount: int, batch: int, elapsed: bool): Db {
    match NextRange(db, elapsed)
    case None => db
    case Some(range) =>
      var pieces := ProportionalPieces(range.lo, range.hi, PieceCount(shardCount, range.hi - range.lo));
      db.(runs := db.runs + [Run(range.lo + 1, range.hi, true)],
          shards := db.shards + NewShards(|db.runs|, pieces, Clamp(batch, 25, 250)))
  }

  predicate Claimable(db: Db, s: nat) {
    && s < |db.shards| && (db.shards[s].status.Pending? || db.shards[s].status.Retry?)
    && db.shards[s].run < |db.runs| && db.runs[db.shards[s].run].running
  }

  function Claim(db: Db, s: nat, now: int): Db
    requires s < |db.shards|
  {
    db.(shards := db.shards[s := db.shards[s].(status := Running, token := Some(db.tokens), lease := Some(now + LEASE))],
        tokens := db.tokens + 1)
  }

  predicate Holds(db: Db, l: Local) {
    l.shard < |db.shards| && db.shards[l.shard].token == Some(l.token) && db.shards[l.shard].status.Running?
  }

  predicate Unfinished(shards: seq<Shard>, run: nat) {
    exists s :: 0 <= s < |shards| && shards[s].run == run && !shards[s].status.Completed?
  }

  predicate AdvanceRefused(db: Db, l: Local, nextID: int) {
    nextID <= l.next || nextID > l.upper + 1 || !Holds(db, l) || db.shards[l.shard].next != l.next
  }

  /** AdvanceEntitySweepShard: move the checkpoint, and close the run with its last shard. */
  function Advance(db: Db, l: Local, nextID: int, batch: int, now: int): Db {
    if AdvanceRefused(db, l, nextID) then db
    else
      var done := nextID == l.upper + 1;
      var shard := db.shards[l.shard].(
        next := nextID, batch := Clamp(batch, 25, 250), status := if done then Completed else Running,
        token := if done then None else Some(l.token), lease := if done then None else Some(now + LEASE));
      var shards := db.shards[l.shard := shard];
      var runs := if l.run < |db.runs| && !Unfinished(shards, l.run) then db.runs[l.run := db.runs[l.run].(running := false)] else db.runs;
      db.(shards := shards, runs := runs)
  }

  function Freed(s: Shard): Shard { s.(status := Retry, token := None, lease := None) }

  function Requeue(db: Db, l: Local, batch: int): Db {
    if !Holds(db, l) then db
    else db.(shards := db.shards[l.shard := Freed(db.shards[l.shard]).(batch := Clamp(batch, 25, 250))])
  }

  function Reap(db: Db, now: int): Db {
    db.(shards := seq(|db.shards|, s requires 0 <= s < |db.shards| =>
      if db.shards[s].status.Running? && db.shards[s].lease.Some? && db.shards[s].lease.value < now
      then Freed(db.shards[s]) else db.shards[s]))
  }

  function Recover(db: Db): Db {
    db.(shards := seq(|db.shards|, s requires 0 <= s < |db.shards| =>
      if db.shards[s].status.Running? then Freed(db.shards[s]) else db.shards[s]))
  }

  // ------------------------------------------------------------------- steps

  datatype Op =
    | RaiseHighwater(id: int)
    | StartRun(shardCount: int, batch: int, elapsed: bool)
    | ClaimShard(worker: nat, shard: nat, now: int)
    | Resolve(worker: nat, found: set<int>)      // the accounts with keys or a known owner
    | Stage(worker: nat)
    | Checkpoint(worker: nat, batch: int, now: int)
    | GiveBack(worker: nat, batch: int)
    | ReapLeases(now: int)
    | Restart

  function IDs(run: nat, lo: int, n: int): set<(nat, int)> { set x | lo <= x < lo + n :: (run, x) }

  function Tagged(run: nat, ids: set<int>): set<(nat, int)> { set x | x in ids :: (run, x) }

  function BatchSize(l: Local): int { Min(l.batch, l.upper - l.next + 1) }

  function StepClaim(w: World, worker: nat, s: nat, now: int): World {
    if worker in w.locals || !Claimable(w.db, s) then w
    else
      var shard := w.db.shards[s];
      w.(db := Claim(w.db, s, now),
         locals := w.locals[worker := Local(s, shard.run, shard.upper, shard.next, shard.batch, w.db.tokens, Ready)])
  }

  /** A response for every ID of the batch; those found are due to be recorded. */
  function StepResolve(w: World, worker: nat, found: set<int>): World {
    if worker !in w.locals || !w.locals[worker].phase.Ready? || w.locals[worker].next > w.locals[worker].upper then w
    else
      var l := w.locals[worker];
      var n := BatchSize(l);
      w.(locals := w.locals[worker := l.(phase := Resolved(n, set x | x in found && l.next <= x < l.next + n))],
         resolved := w.resolved + IDs(l.run, l.next, n))
  }

  /** StageEntitySweepResults has ensured a queue row for every due account. */
  function StepStage(w: World, worker: nat): World {
    if worker !in w.locals || !w.locals[worker].phase.Resolved? then w
    else
      var l := w.locals[worker];
      w.(locals := w.locals[worker := l.(phase := Staged(l.phase.size, l.phase.due))])
  }

  function StepCheckpoint(w: World, worker: nat, batch: int, now: int): World {
    if worker !in w.locals || !w.locals[worker].phase.Staged? then w
    else
      var l := w.locals[worker];
      var nextID := l.next + l.phase.size;
      if AdvanceRefused(w.db, l, nextID) then w.(locals := w.locals - {worker})
      else
        w.(db := Advance(w.db, l, nextID, batch, now),
           passed := w.passed + Tagged(l.run, l.phase.due),
           locals := if nextID > l.upper then w.locals - {worker}
                     else w.locals[worker := l.(next := nextID, batch := Clamp(batch, 25, 250), phase := Ready)])
  }

  function StepGiveBack(w: World, worker: nat, batch: int): World {
    if worker !in w.locals then w
    else w.(db := Requeue(w.db, w.locals[worker], batch), locals := w.locals - {worker})
  }

  function Step(w: World, op: Op): World {
    match op
    case RaiseHighwater(id) => w.(db := w.db.(highwater := Max(w.db.highwater, id)))
    case StartRun(shardCount, batch, elapsed) => w.(db := EnsureRun(w.db, shardCount, batch, elapsed))
    case ClaimShard(worker, shard, now) => StepClaim(w, worker, shard, now)
    case Resolve(worker, found) => StepResolve(w, worker, found)
    case Stage(worker) => StepStage(w, worker)
    case Checkpoint(worker, batch, now) => StepCheckpoint(w, worker, batch, now)
    case GiveBack(worker, batch) => StepGiveBack(w, worker, batch)
    case ReapLeases(now) => w.(db := Reap(w.db, now))
    case Restart => w.(db := Recover(w.db), locals := map[])
  }

  function Init(): World { World(Db([], [], 0, 0), map[], {}, {}) }

  function Execute(ops: seq<Op>): World {
    if |ops| == 0 then Init() else Step(Execute(ops[..|ops| - 1]), ops[|ops| - 1])
  }

  // -------------------------------------------------------------- invariants

  ghost predicate ShardOk(s: Shard, runs: seq<Run>, tokens: nat, resolved: set<(nat, int)>) {
    && s.run < |runs| && runs[s.run].lower <= s.lower <= s.upper <= runs[s.run].upper
    && s.lower <= s.next <= s.upper + 1 && (s.status.Completed? <==> s.next == s.upper + 1)
    && (s.status.Running? <==> s.token.Some?) && (s.token.Some? <==> s.lease.Some?)
    && (s.token.Some? ==> s.token.value < tokens)
    && 25 <= s.batch <= 250
    && (forall x :: s.lower <= x < s.next ==> (s.run, x) in resolved)
  }

  ghost predicate InShard(shards: seq<Shard>, r: nat, x: int) {
    exists s :: 0 <= s < |shards| && shards[s].run == r && shards[s].lower <= x <= shards[s].upper
  }

  ghost predicate InRun(runs: seq<Run>, x: int) {
    exists r :: 0 <= r < |runs| && runs[r].lower <= x <= runs[r].upper
  }

  /** The shards of a run leave no ID of it out. */
  ghost predicate Covered(shards: seq<Shard>, r: nat, run: Run) {
    forall x :: run.lower <= x <= run.upper ==> InShard(shards, r, x)
  }

  /** Shards of one run share no ID, and no two shards share a token. */
  ghost predicate Apart(shards: seq<Shard>) {
    && (forall s, t :: 0 <= s < |shards| && 0 <= t < |shards| && s != t && shards[s].run == shards[t].run ==>
          shards[s].upper < shards[t].lower || shards[t].upper < shards[s].lower)
    && (forall s, t :: 0 <= s < |shards| && 0 <= t < |shards| && s != t && shards[s].token.Some? ==> shards[t].token != shards[s].token)
  }

  ghost predicate ShardsOk(db: Db, resolved: set<(nat, int)>) {
    && (forall s :: 0 <= s < |db.shards| ==> ShardOk(db.shards[s], db.runs, db.tokens, resolved))
    && (forall r :: 0 <= r < |db.runs| ==> Covered(db.shards, r, db.runs[r]))
    && Apart(db.shards)
  }

  /** The runs cover everything up to the greatest upper bound; at most one is active, and only because of an unfinished shard. */
  ghost predicate RunsOk(db: Db) {
    && (forall r :: 0 <= r < |db.runs| ==> 1 <= db.runs[r].lower <= db.runs[r].upper <= db.highwater)
    && (forall r :: 0 <= r < |db.runs| ==> (db.runs[r].running <==> Unfinished(db.shards, r)))
    && (forall q, r :: 0 <= q < |db.runs| && 0 <= r < |db.runs| && db.runs[q].running && db.runs[r].running ==> q == r)
    && (forall x :: 1 <= x <= MaxUpper(db.runs) ==> InRun(db.runs, x))
  }

  ghost predicate LocalOk(l: Local, db: Db, resolved: set<(nat, int)>) {
    && l.shard < |db.shards| && db.shards[l.shard].run == l.run && db.shards[l.shard].upper == l.upper && l.token < db.tokens
    && l.batch >= 1
    && (!l.phase.Ready? ==>
          && l.phase.size >= 1 && l.next + l.phase.size <= l.upper + 1
          && (forall x :: l.next <= x < l.next + l.phase.size ==> (l.run, x) in resolved))
  }

  ghost predicate LocalsOk(locals: map<nat, Local>, db: Db, resolved: set<(nat, int)>) {
    forall k :: k in locals ==> LocalOk(locals[k], db, resolved)
  }

  ghost predicate Inv(w: World) {
    ShardsOk(w.db, w.resolved) && RunsOk(w.db) && LocalsOk(w.locals, w.db, w.resolved)
  }

  // ----------------------------------------------------------- cutting a run

  lemma NewShardsOk(runs: seq<Run>, r: nat, pieces: seq<Piece>, batch: int, lo: int, hi: int, tokens: nat,
                    resolved: set<(nat, int)>)
    requires Tiles(pieces, lo, hi) && r < |runs| && runs[r].lower == lo + 1 && runs[r].upper == hi && 25 <= batch <= 250
    ensures forall k :: 0 <= k < |pieces| ==> ShardOk(NewShards(r, pieces, batch)[k], runs, tokens, resolved)
  {
    forall k | 0 <= k < |pieces|
      ensures ShardOk(NewShards(r, pieces, batch)[k], runs, tokens, resolved)
    {
      PieceWithin(pieces, lo, hi, k);
    }
  }

  lemma NewCovered(shards: seq<Shard>, r: nat, pieces: seq<Piece>, batch: int, lo: int, hi: int)
    requires Tiles(pieces, lo, hi)
    ensures Covered(shards + NewShards(r, pieces, batch), r, Run(lo + 1, hi, true))
  {
    forall x | lo + 1 <= x <= hi
      ensures InShard(shards + NewShards(r, pieces, batch), r, x)
    {
      var k := FindPiece(pieces, lo, hi, x);
      assert (shards + NewShards(r, pieces, batch))[|shards| + k] == NewShard(r, pieces[k], batch);
    }
  }

  lemma OldCovered(shards: seq<Shard>, more: seq<Shard>, r: nat, run: Run)
    requires Covered(shards, r, run)
    ensures Covered(shards + more, r, run)
  {
    forall x | run.lower <= x <= run.upper
      ensures InShard(shards + more, r, x)
    {
      assert InShard(shards, r, x);
      var s :| 0 <= s < |shards| && shards[s].run == r && shards[s].lower <= x <= shards[s].upper;
      assert (shards + more)[s] == shards[s];
    }
  }

  lemma NewApart(shards: seq<Shard>, r: nat, pieces: seq<Piece>, batch: int, lo: int, hi: int)
    requires Apart(shards) && Tiles(pieces, lo, hi) && forall s :: 0 <= s < |shards| ==> shards[s].run < r
    ensures Apart(shards + NewShards(r, pieces, batch))
  {
    forall j, k | 0 <= j < k < |pieces|
      ensures pieces[j].hi <= pieces[k].lo
    {
      BoundsGrow(pieces, j, k);
    }
  }

  lemma NewUnfinished(shards: seq<Shard>, r: nat, pieces: seq<Piece>, batch: int, q: nat)
    requires |pieces| > 0
    ensures var all := shards + NewShards(r, pieces, batch); Unfinished(all, q) <==> Unfinished(shards, q) || q == r
  {
    var all := shards + NewShards(r, pieces, batch);
    if Unfinished(shards, q) {
      var s :| 0 <= s < |shards| && shards[s].run == q && !shards[s].status.Completed?;
      assert all[s] == shards[s];
    }
    if q == r { assert all[|shards|] == NewShard(r, pieces[0], batch); }
    if Unfinished(all, q) && q != r {
      var s :| 0 <= s < |all| && all[s].run == q && !all[s].status.Completed?;
      assert s < |shards| && all[s] == shards[s];
    }
  }

  lemma StartKeeps(w: World, shardCount: int, batch: int, elapsed: bool)
    requires Inv(w)
    ensures Inv(Step(w, StartRun(shardCount, batch, elapsed)))
  {
    var range := NextRange(w.db, elapsed);
    if range.Some? {
      var lo, hi := range.value.lo, range.value.hi;
      var count := PieceCount(shardCount, hi - lo);
      ProportionalTiles(lo, hi, count);
      StartedKeeps(w, ProportionalPieces(lo, hi, count), lo, hi, Clamp(batch, 25, 250), elapsed);
      assert EnsureRun(w.db, shardCount, batch, elapsed) == Started(w.db, ProportionalPieces(lo, hi, count), lo, hi, Clamp(batch, 25, 250));
    }
  }

  lemma StartedKeeps(w: World, pieces: seq<Piece>, lo: int, hi: int, batch: int, elapsed: bool)
    requires Inv(w) && Tiles(pieces, lo, hi) && NextRange(w.db, elapsed) == Some(Piece(lo, hi)) && 25 <= batch <= 250
    ensures Inv(w.(db := Started(w.db, pieces, lo, hi, batch)))
  {
    StartShards(w.db, w.resolved, pieces, lo, hi, batch);
    forall s | 0 <= s < |w.db.shards| ensures w.db.shards[s].run < |w.db.runs| {
      assert ShardOk(w.db.shards[s], w.db.runs, w.db.tokens, w.resolved);
    }
    StartRuns(w.db, pieces, lo, hi, batch, elapsed);
  }

  function Started(db: Db, pieces: seq<Piece>, lo: int, hi: int, batch: int): Db {
    db.(runs := db.runs + [Run(lo + 1, hi, true)], shards := db.shards + NewShards(|db.runs|, pieces, batch))
  }

  lemma StartShards(db: Db, resolved: set<(nat, int)>, pieces: seq<Piece>, lo: int, hi: int, batch: int)
    requires ShardsOk(db, resolved) && Tiles(pieces, lo, hi) && lo < hi && 25 <= batch <= 250
    ensures ShardsOk(Started(db, pieces, lo, hi, batch), resolved)
  {
    var r := |db.runs|;
    var db' := Started(db, pieces, lo, hi, batch);
    var more := NewShards(r, pieces, batch);
    NewShardsOk(db'.runs, r, pieces, batch, lo, hi, db.tokens, resolved);
    forall s | 0 <= s < |db'.shards|
      ensures ShardOk(db'.shards[s], db'.runs, db'.tokens, resolved)
    {
      if s < |db.shards| {
        assert ShardOk(db.shards[s], db.runs, db.tokens, resolved);
        assert db'.shards[s] == db.shards[s] && db'.runs[db.shards[s].run] == db.runs[db.shards[s].run];
      } else {
        assert db'.shards[s] == more[s - |db.shards|];
      }
    }
    NewCovered(db.shards, r, pieces, batch, lo, hi);
    forall q | 0 <= q < |db'.runs|
      ensures Covered(db'.shards, q, db'.runs[q])
    {
      if q < r { OldCovered(db.shards, more, q, db.runs[q]); }
    }
    NewApart(db.shards, r, pieces, batch, lo, hi);
  }

  lemma StartRuns(db: Db, pieces: seq<Piece>, lo: int, hi: int, batch: int, elapsed: bool)
    requires RunsOk(db) && Tiles(pieces, lo, hi) && NextRange(db, elapsed) == Some(Piece(lo, hi))
    requires forall s :: 0 <= s < |db.shards| ==> db.shards[s].run < |db.runs|
    ensures RunsOk(Started(db, pieces, lo, hi, batch))
  {
    var r := |db.runs|;
    var db' := Started(db, pieces, lo, hi, batch);
    forall q | 0 <= q < |db'.runs|
      ensures db'.runs[q].running <==> Unfinished(db'.shards, q)
    {
      NewUnfinished(db.shards, r, pieces, batch, q);
      if q < r { assert db'.runs[q] == db.runs[q]; }
    }
    forall x | 1 <= x <= MaxUpper(db'.runs)
      ensures InRun(db'.runs, x)
    {
      if x <= MaxUpper(db.runs) {
        assert InRun(db.runs, x);
        var q :| 0 <= q < |db.runs| && db.runs[q].lower <= x <= db.runs[q].upper;
        assert db'.runs[q] == db.runs[q];
      } else {
        assert db'.runs[r] == Run(lo + 1, hi, true);
      }
    }
  }

  // --------------------------------------------------- claims and releases

  /** The cut stays; so does what is finished. */
  ghost predicate SameCut(shards: seq<Shard>, shards': seq<Shard>) {
    |shards'| == |shards| && forall s :: 0 <= s < |shards| ==>
      && shards'[s].run == shards[s].run && shards'[s].lower == shards[s].lower && shards'[s].upper == shards[s].upper
  }

  ghost predicate SameFinished(shards: seq<Shard>, shards': seq<Shard>) {
    |shards'| == |shards| && forall s :: 0 <= s < |shards| ==> (shards'[s].status.Completed? <==> shards[s].status.Completed?)
  }

  lemma CoveredFrame(shards: seq<Shard>, shards': seq<Shard>, r: nat, run: Run)
    requires Covered(shards, r, run) && SameCut(shards, shards')
    ensures Covered(shards', r, run)
  {
    forall x | run.lower <= x <= run.upper
      ensures InShard(shards', r, x)
    {
      assert InShard(shards, r, x);
      var s :| 0 <= s < |shards| && shards[s].run == r && shards[s].lower <= x <= shards[s].upper;
      assert shards'[s].run == r;
    }
  }

  lemma UnfinishedFrame(shards: seq<Shard>, shards': seq<Shard>, r: nat)
    requires SameCut(shards, shards') && SameFinished(shards, shards')
    ensures Unfinished(shards', r) <==> Unfinished(shards, r)
  {
    if Unfinished(shards, r) {
      var s :| 0 <= s < |shards| && shards[s].run == r && !shards[s].status.Completed?;
      assert shards'[s].run == r;
    }
    if Unfinished(shards', r) {
      var s :| 0 <= s < |shards'| && shards'[s].run == r && !shards'[s].status.Completed?;
      assert shards[s].run == r;
    }
  }

  /** Claims and releases change only who works on a shard. */
  lemma LeaseStepKeeps(w: World, w': World)
    requires Inv(w) && w' == w.(db := w.db.(shards := w'.db.shards, tokens := w'.db.tokens), locals := w'.locals) && w.db.tokens <= w'.db.tokens
    requires SameCut(w.db.shards, w'.db.shards) && SameFinished(w.db.shards, w'.db.shards) && Apart(w'.db.shards)
    requires forall s :: 0 <= s < |w.db.shards| ==> ShardOk(w'.db.shards[s], w.db.runs, w'.db.tokens, w.resolved)
    requires LocalsOk(w'.locals, w'.db, w.resolved)
    ensures Inv(w')
  {
    forall r | 0 <= r < |w.db.runs|
      ensures Covered(w'.db.shards, r, w.db.runs[r])
      ensures w.db.runs[r].running <==> Unfinished(w'.db.shards, r)
    {
      CoveredFrame(w.db.shards, w'.db.shards, r, w.db.runs[r]);
      UnfinishedFrame(w.db.shards, w'.db.shards, r);
    }
  }

  lemma LocalsLater(locals: map<nat, Local>, db: Db, db': Db, resolved: set<(nat, int)>)
    requires LocalsOk(locals, db, resolved) && SameCut(db.shards, db'.shards) && db.tokens <= db'.tokens
    ensures LocalsOk(locals, db', resolved)
  {
    forall k | k in locals
      ensures LocalOk(locals[k], db', resolved)
    {
      assert LocalOk(locals[k], db, resolved);
    }
  }

  lemma ClaimedShards(db: Db, s: nat, now: int, resolved: set<(nat, int)>)
    requires ShardsOk(db, resolved) && Claimable(db, s)
    ensures var db' := Claim(db, s, now);
            && SameCut(db.shards, db'.shards) && SameFinished(db.shards, db'.shards) && Apart(db'.shards)
            && (forall t :: 0 <= t < |db.shards| ==> ShardOk(db'.shards[t], db.runs, db'.tokens, resolved))
  {
    forall t | 0 <= t < |db.shards|
      ensures ShardOk(Claim(db, s, now).shards[t], db.runs, db.tokens + 1, resolved)
    {
      assert ShardOk(db.shards[t], db.runs, db.tokens, resolved);
    }
  }

  lemma ClaimKeeps(w: World, worker: nat, s: nat, now: int)
    requires Inv(w)
    ensures Inv(StepClaim(w, worker, s, now))
  {
    if worker !in w.locals && Claimable(w.db, s) {
      var w' := StepClaim(w, worker, s, now);
      assert ShardOk(w.db.shards[s], w.db.runs, w.db.tokens, w.resolved);
      ClaimedShards(w.db, s, now, w.resolved);
      LocalsLater(w.locals, w.db, w'.db, w.resolved);
      LeaseStepKeeps(w, w');
    }
  }

  /** Any set of running shards may be given back at once. */
  lemma ReleaseKeeps(w: World, w': World)
    requires Inv(w) && w' == w.(db := w.db.(shards := w'.db.shards), locals := w'.locals)
    requires |w'.db.shards| == |w.db.shards|
    requires forall s :: 0 <= s < |w.db.shards| ==> Released(w.db.shards[s], w'.db.shards[s])
    requires w'.locals.Keys <= w.locals.Keys && forall k :: k in w'.locals ==> w'.locals[k] == w.locals[k]
    ensures Inv(w')
  {
    forall t | 0 <= t < |w.db.shards|
      ensures ShardOk(w'.db.shards[t], w.db.runs, w'.db.tokens, w.resolved)
    {
      assert ShardOk(w.db.shards[t], w.db.runs, w.db.tokens, w.resolved) && Released(w.db.shards[t], w'.db.shards[t]);
    }
    LocalsLater(w.locals, w.db, w'.db, w.resolved);
    LeaseStepKeeps(w, w');
  }

  ghost predicate Released(s: Shard, s': Shard) {
    s' == s || (s.status.Running? && s' == Freed(s).(batch := s'.batch) && 25 <= s'.batch <= 250)
  }

  lemma GiveBackKeeps(w: World, worker: nat, batch: int)
    requires Inv(w)
    ensures Inv(StepGiveBack(w, worker, batch))
  {
    if worker in w.locals { ReleaseKeeps(w, StepGiveBack(w, worker, batch)); }
  }

  lemma FreeKeeps(w: World, now: int)
    requires Inv(w)
    ensures Inv(w.(db := Reap(w.db, now))) && Inv(w.(db := Recover(w.db), locals := map[]))
  {
    forall s | 0 <= s < |w.db.shards|
      ensures ShardOk(w.db.shards[s], w.db.runs, w.db.tokens, w.resolved)
    {
    }
    ReleaseKeeps(w, w.(db := Reap(w.db, now)));
    ReleaseKeeps(w, w.(db := Recover(w.db), locals := map[]));
  }

  // ------------------------------------------------------- the worker's batch

  lemma MoreResolved(w: World, resolved: set<(nat, int)>)
    requires Inv(w) && w.resolved <= resolved
    ensures Inv(w.(resolved := resolved))
  {
    forall s | 0 <= s < |w.db.shards|
      ensures ShardOk(w.db.shards[s], w.db.runs, w.db.tokens, resolved)
    {
      assert ShardOk(w.db.shards[s], w.db.runs, w.db.tokens, w.resolved);
    }
    forall k | k in w.locals
      ensures LocalOk(w.locals[k], w.db, resolved)
    {
      assert LocalOk(w.locals[k], w.db, w.resolved);
    }
  }

  lemma ResolveKeeps(w: World, worker: nat, found: set<int>)
    requires Inv(w)
    ensures Inv(StepResolve(w, worker, found))
  {
    var w' := StepResolve(w, worker, found);
    if w' != w {
      assert LocalOk(w.locals[worker], w.db, w.resolved);
      MoreResolved(w, w'.resolved);
    }
  }

  lemma StageKeeps(w: World, worker: nat)
    requires Inv(w)
    ensures Inv(StepStage(w, worker))
  {
    var w' := StepStage(w, worker);
    if w' != w {
      assert LocalOk(w.locals[worker], w.db, w.resolved);
    }
  }

  lemma LeaveKeeps(w: World, worker: nat)
    requires Inv(w)
    ensures Inv(w.(locals := w.locals - {worker}))
  {
  }

  lemma CheckpointKeeps(w: World, worker: nat, batch: int, now: int)
    requires Inv(w)
    ensures Inv(StepCheckpoint(w, worker, batch, now))
  {
    if worker in w.locals && w.locals[worker].phase.Staged? {
      if AdvanceRefused(w.db, w.locals[worker], BatchEnd(w.locals[worker])) {
        LeaveKeeps(w, worker);
      } else {
        assert LocalOk(w.locals[worker], w.db, w.resolved);
        AcceptedKeeps(w, worker, batch, now);
        PassedKeeps(w, worker, batch, now);
      }
    }
  }

  lemma PassedKeeps(w: World, worker: nat, batch: int, now: int)
    requires worker in w.locals && w.locals[worker].phase.Staged?
    requires !AdvanceRefused(w.db, w.locals[worker], BatchEnd(w.locals[worker]))
    requires LocalsOk(w.locals, w.db, w.resolved)
    requires var db' := Advance(w.db, w.locals[worker], BatchEnd(w.locals[worker]), batch, now);
             ShardsOk(db', w.resolved) && RunsOk(db') && SameCut(w.db.shards, db'.shards) && db'.tokens == w.db.tokens
    ensures Inv(StepCheckpoint(w, worker, batch, now))
  {
    var l := w.locals[worker];
    var db' := Advance(w.db, l, BatchEnd(l), batch, now);
    assert LocalOk(l, w.db, w.resolved);
    AdvanceLocals(w.locals, w.db, db', w.resolved, worker, BatchEnd(l), batch);
    var w' := StepCheckpoint(w, worker, batch, now);
    assert w'.db == db' && w'.resolved == w.resolved;
  }

  function BatchEnd(l: Local): int
    requires !l.phase.Ready?
  {
    l.next + l.phase.size
  }

  lemma AcceptedKeeps(w: World, worker: nat, batch: int, now: int)
    requires ShardsOk(w.db, w.resolved) && RunsOk(w.db) && worker in w.locals && w.locals[worker].phase.Staged?
    requires !AdvanceRefused(w.db, w.locals[worker], BatchEnd(w.locals[worker]))
    requires LocalOk(w.locals[worker], w.db, w.resolved)
    ensures var db' := Advance(w.db, w.locals[worker], BatchEnd(w.locals[worker]), batch, now);
            ShardsOk(db', w.resolved) && RunsOk(db') && SameCut(w.db.shards, db'.shards) && db'.tokens == w.db.tokens
  {
    var l := w.locals[worker];
    assert ShardOk(w.db.shards[l.shard], w.db.runs, w.db.tokens, w.resolved);
    AdvanceShards(w.db, w.resolved, l, BatchEnd(l), batch, now);
    AdvanceRuns(w.db, l, BatchEnd(l), batch, now);
  }

  lemma AdvanceLocals(locals: map<nat, Local>, db: Db, db': Db, resolved: set<(nat, int)>,
                      worker: nat, nextID: int, batch: int)
    requires LocalsOk(locals, db, resolved) && SameCut(db.shards, db'.shards) && db'.tokens == db.tokens && worker in locals
    ensures LocalsOk(locals - {worker}, db', resolved)
    ensures LocalsOk(locals[worker := locals[worker].(next := nextID, batch := Clamp(batch, 25, 250), phase := Ready)], db', resolved)
  {
    LocalsLater(locals, db, db', resolved);
  }

  lemma AdvanceShards(db: Db, resolved: set<(nat, int)>, l: Local, nextID: int, batch: int, now: int)
    requires ShardsOk(db, resolved) && !AdvanceRefused(db, l, nextID)
    requires db.shards[l.shard].run == l.run && db.shards[l.shard].upper == l.upper
    requires forall x :: l.next <= x < nextID ==> (l.run, x) in resolved
    ensures ShardsOk(Advance(db, l, nextID, batch, now), resolved)
    ensures SameCut(db.shards, Advance(db, l, nextID, batch, now).shards)
  {
    var db' := Advance(db, l, nextID, batch, now);
    forall s | 0 <= s < |db.shards|
      ensures ShardOk(db'.shards[s], db'.runs, db'.tokens, resolved)
    {
      assert ShardOk(db.shards[s], db.runs, db.tokens, resolved);
    }
    forall r | 0 <= r < |db.runs|
      ensures Covered(db'.shards, r, db'.runs[r])
    {
      CoveredFrame(db.shards, db'.shards, r, db.runs[r]);
    }
  }

  lemma AdvanceRuns(db: Db, l: Local, nextID: int, batch: int, now: int)
    requires RunsOk(db) && !AdvanceRefused(db, l, nextID) && db.shards[l.shard].run == l.run < |db.runs|
    ensures RunsOk(Advance(db, l, nextID, batch, now))
  {
    var db' := Advance(db, l, nextID, batch, now);
    forall r | 0 <= r < |db.runs|
      ensures db'.runs[r].running <==> Unfinished(db'.shards, r)
    {
      AdvanceUnfinished(db, l, nextID, batch, now, r);
    }
    SameBounds(db.runs, db'.runs);
    forall x | 1 <= x <= MaxUpper(db'.runs)
      ensures InRun(db'.runs, x)
    {
      assert InRun(db.runs, x);
      var r :| 0 <= r < |db.runs| && db.runs[r].lower <= x <= db.runs[r].upper;
      assert db'.runs[r].lower == db.runs[r].lower;
    }
  }

  lemma AdvanceUnfinished(db: Db, l: Local, nextID: int, batch: int, now: int, r: nat)
    requires !AdvanceRefused(db, l, nextID) && db.shards[l.shard].run == l.run
    ensures r != l.run ==> (Unfinished(Advance(db, l, nextID, batch, now).shards, r) <==> Unfinished(db.shards, r))
    ensures Unfinished(db.shards, l.run)
  {
    var shards' := Advance(db, l, nextID, batch, now).shards;
    if r != l.run && Unfinished(db.shards, r) {
      var s :| 0 <= s < |db.shards| && db.shards[s].run == r && !db.shards[s].status.Completed?;
      assert shards'[s] == db.shards[s];
    }
    if r != l.run && Unfinished(shards', r) {
      var s :| 0 <= s < |shards'| && shards'[s].run == r && !shards'[s].status.Completed?;
      assert shards'[s] == db.shards[s];
    }
  }

  lemma {:induction false} SameBounds(runs: seq<Run>, runs': seq<Run>)
    requires |runs'| == |runs| && forall r :: 0 <= r < |runs| ==> runs'[r].upper == runs[r].upper
    ensures MaxUpper(runs') == MaxUpper(runs)
  {
    if |runs| > 0 { SameBounds(runs[..|runs| - 1], runs'[..|runs| - 1]); }
  }

  // ----------------------------------------------------------- whole histories

  lemma StepKeeps(w: World, op: Op)
    requires Inv(w)
    ensures Inv(Step(w, op))
  {
    match op
    case RaiseHighwater(id) => LocalsLater(w.locals, w.db, Step(w, op).db, w.resolved);
    case StartRun(shardCount, batch, elapsed) => StartKeeps(w, shardCount, batch, elapsed);
    case ClaimShard(worker, shard, now) => ClaimKeeps(w, worker, shard, now);
    case Resolve(worker, found) => ResolveKeeps(w, worker, found);
    case Stage(worker) => StageKeeps(w, worker);
    case Checkpoint(worker, batch, now) => CheckpointKeeps(w, worker, batch, now);
    case GiveBack(worker, batch) => GiveBackKeeps(w, worker, batch);
    case ReapLeases(now) => FreeKeeps(w, now);
    case Restart => FreeKeeps(w, 0);
  }

  lemma {:induction false} EveryRunKeeps(ops: seq<Op>)
    ensures Inv(Execute(ops))
  {
    if |ops| > 0 {
      EveryRunKeeps(ops[..|ops| - 1]);
      StepKeeps(Execute(ops[..|ops| - 1]), ops[|ops| - 1]);
    }
  }

  // -------------------------------------------------------------- guarantees

  /** A run that is no longer active resolved every ID of its range. */
  lemma FinishedRunResolvedAll(ops: seq<Op>, r: nat, x: int)
    requires r < |Execute(ops).db.runs| && !Execute(ops).db.runs[r].running
    requires Execute(ops).db.runs[r].lower <= x <= Execute(ops).db.runs[r].upper
    ensures (r, x) in Execute(ops).resolved
  {
    var w := Execute(ops);
    EveryRunKeeps(ops);
    assert InShard(w.db.shards, r, x);
    var s :| 0 <= s < |w.db.shards| && w.db.shards[s].run == r && w.db.shards[s].lower <= x <= w.db.shards[s].upper;
    assert ShardOk(w.db.shards[s], w.db.runs, w.db.tokens, w.resolved);
    assert !Unfinished(w.db.shards, r);
  }

  /** No hole: whatever crashes, lost leases and restarts came before, when no run is active every ID up to the greatest upper bound was resolved. */
  lemma SweepHasNoHole(ops: seq<Op>, x: int) returns (r: nat)
    requires !Active(Execute(ops).db.runs) && 1 <= x <= MaxUpper(Execute(ops).db.runs)
    ensures (r, x) in Execute(ops).resolved
  {
    var w := Execute(ops);
    EveryRunKeeps(ops);
    assert InRun(w.db.runs, x);
    r :| 0 <= r < |w.db.runs| && w.db.runs[r].lower <= x <= w.db.runs[r].upper;
    FinishedRunResolvedAll(ops, r, x);
  }

  /** The checkpoint the status page reports: just before the next ID of the lowest unfinished shard. */
  ghost predicate ContiguousCheckpoint(db: Db, r: nat, c: int)
    requires r < |db.runs|
  {
    if Unfinished(db.shards, r) then
      exists s :: 0 <= s < |db.shards| && Lowest(db.shards, r, s) && c == db.shards[s].next - 1
    else c == db.runs[r].upper
  }

  ghost predicate Lowest(shards: seq<Shard>, r: nat, s: nat) {
    && s < |shards| && shards[s].run == r && !shards[s].status.Completed?
    && forall t :: 0 <= t < |shards| && shards[t].run == r && !shards[t].status.Completed? ==> shards[s].lower <= shards[t].lower
  }

  /** It bounds a prefix of the run that was resolved completely. */
  lemma CheckpointBoundsPrefix(ops: seq<Op>, r: nat, c: int, x: int)
    requires r < |Execute(ops).db.runs| && ContiguousCheckpoint(Execute(ops).db, r, c)
    requires Execute(ops).db.runs[r].lower <= x <= c
    ensures (r, x) in Execute(ops).resolved
  {
    var w := Execute(ops);
    EveryRunKeeps(ops);
    if !Unfinished(w.db.shards, r) {
      FinishedRunResolvedAll(ops, r, x);
    } else {
      var u :| 0 <= u < |w.db.shards| && Lowest(w.db.shards, r, u) && c == w.db.shards[u].next - 1;
      PrefixResolved(w, r, u, x);
    }
  }

  lemma PrefixResolved(w: World, r: nat, u: nat, x: int)
    requires ShardsOk(w.db, w.resolved) && r < |w.db.runs| && Lowest(w.db.shards, r, u)
    requires w.db.runs[r].lower <= x < w.db.shards[u].next
    ensures (r, x) in w.resolved
  {
    assert ShardOk(w.db.shards[u], w.db.runs, w.db.tokens, w.resolved);
    assert InShard(w.db.shards, r, x);
    var t :| 0 <= t < |w.db.shards| && w.db.shards[t].run == r && w.db.shards[t].lower <= x <= w.db.shards[t].upper;
    assert ShardOk(w.db.shards[t], w.db.runs, w.db.tokens, w.resolved);
  }

  /** A worker whose token was replaced, or whose checkpoint was overtaken, changes no shard and no run. */
  lemma StaleWorkerHarmless(w: World, worker: nat, batch: int, now: int)
    requires worker in w.locals && !Holds(w.db, w.locals[worker])
    ensures StepCheckpoint(w, worker, batch, now).db == w.db && StepGiveBack(w, worker, batch).db == w.db
  {
  }
}
