/**
 The tables of the durable work protocol and its transactions, each a function
 from database to database: crawl runs, enumeration shards, the account queue and
 the anomaly list.  Every transaction is one atomic step.

 `unused` stands for the sequences and random UUIDs: no identifier at or above it
 is in use.
 */
module WorkTables {
  import opened Prelude
  import opened RangeDivision
  import opened Publication
  import O = OverflowScan

  datatype Run = Run(
    initial: bool, running: bool, cutoff: Option<int>, nextSince: int, enumerationComplete: bool,
    enumerated: int, attempted: int, processed: int, zero: int, owner: int, inaccessible: int, errors: int)

  datatype ShardStatus = Waiting | Working | Again | Completed

  /** The stored URL of a shard is modelled by the `since` value it encodes, which is `next`. */
  datatype Shard = Shard(run: nat, repair: bool, lower: int, upper: int, next: int, status: ShardStatus)

  datatype AccountStatus = Pending | Running | Retry | Fallback | FallbackRunning

  /** One row of account_queue. */
  datatype Account = Account(
    run: Option<nat>, source: Source, account: int, scan: nat,
    status: AccountStatus, token: Option<nat>, lease: Option<int>, due: int,
    attempts: nat, fallbackAttempts: nat, attempted: bool, counted: bool)

  /** What a worker was told when it claimed a row. */
  datatype Job = Job(id: nat, token: nat, run: Option<nat>, source: Source, account: int, scan: nat)

  /** What GitHub reported about a claimed account. */
  datatype Result = Result(keys: seq<Fingerprint>, hasMore: bool, next: string, total: int)

  type Queue = map<nat, Account>

  datatype Db = Db(
    runs: map<nat, Run>, shards: map<nat, Shard>, queue: Queue,
    anomalies: map<int, Option<nat>>,         // account -> run
    repairs: set<(nat, int, int, int)>,       // repairs already seeded: run, lower, upper, count
    highwater: int, liveTail: bool, initialComplete: bool, initialEnumerated: bool,
    unused: nat)

  /** What a row says about its account never changes while it is queued. */
  predicate SameRow(a: Account, b: Account) {
    a.run == b.run && a.source == b.source && a.account == b.account && a.scan == b.scan
  }

  function JobOf(id: nat, a: Account, token: nat): Job { Job(id, token, a.run, a.source, a.account, a.scan) }

  predicate InProgress(s: AccountStatus) { s.Running? || s.FallbackRunning? }

  predicate Unfinished(shards: map<nat, Shard>, run: nat) {
    exists s :: s in shards && shards[s].run == run && !shards[s].status.Completed?
  }

  predicate HasShards(shards: map<nat, Shard>, run: nat) {
    exists s :: s in shards && shards[s].run == run
  }

  // ------------------------------------------------------------------ runs

  function ActiveRuns(db: Db): set<nat> { set r | r in db.runs && db.runs[r].running }

  function EnsureMainRun(db: Db): Db {
    if ActiveRuns(db) != {} then db
    else
      var run := Run(!db.initialComplete, true, if db.initialComplete then Some(db.highwater) else None,
                     0, false, 0, 0, 0, 0, 0, 0, 0);
      db.(runs := db.runs[db.unused := run], unused := db.unused + 1)
  }

  function InitializeLiveTail(db: Db, cutoff: int): Db {
    if db.liveTail then db
    else db.(
      runs := map r | r in db.runs ::
        if db.runs[r].initial && db.runs[r].running && db.runs[r].cutoff.None?
        then db.runs[r].(cutoff := Some(cutoff)) else db.runs[r],
      highwater := cutoff, liveTail := true)
  }

  // ---------------------------------------------------------------- shards

  function NewShard(run: nat, repair: bool, p: Piece): Shard { Shard(run, repair, p.lo, p.hi, p.lo, Waiting) }

  function AddShards(shards: map<nat, Shard>, unused: nat, run: nat, repair: bool, pieces: seq<Piece>): map<nat, Shard> {
    map s | s in shards.Keys + Range(unused, |pieces|) ::
      if s in shards then shards[s] else NewShard(run, repair, pieces[s - unused])
  }

  function EnsureEnumerationShards(db: Db, run: nat, count: int): Db
    requires run in db.runs
  {
    var r := db.runs[run];
    if r.cutoff.None? || r.cutoff.value <= r.nextSince || count < 2 || HasShards(db.shards, run) then db
    else
      var pieces := PrimaryPieces(r.nextSince, r.cutoff.value, count);
      db.(shards := AddShards(db.shards, db.unused, run, false, pieces), unused := db.unused + |pieces|)
  }

  predicate RepairRequestOk(lower: int, upper: int, count: int) {
    0 <= lower < upper && 1 <= count <= 64 && count <= upper - lower
  }

  predicate Taken(shards: map<nat, Shard>, run: nat, p: Piece) {
    exists s :: s in shards && shards[s].run == run && shards[s].lower == p.lo && shards[s].upper == p.hi
  }

  /** The repair is refused: bad range, no run with that cutoff, seeded before, or boundaries in use. */
  predicate RepairRefused(db: Db, run: nat, lower: int, upper: int, count: int) {
    || !RepairRequestOk(lower, upper, count)
    || run !in db.runs || !db.runs[run].running
    || db.runs[run].cutoff.None? || upper > db.runs[run].cutoff.value
    || (run, lower, upper, count) in db.repairs
    || (exists p :: p in ProportionalPieces(lower, upper, count) && Taken(db.shards, run, p))
  }

  function SeedRepair(db: Db, run: nat, lower: int, upper: int, count: int): Db {
    if RepairRefused(db, run, lower, upper, count) then db
    else
      db.(shards := AddShards(db.shards, db.unused, run, true, ProportionalPieces(lower, upper, count)),
          runs := db.runs[run := db.runs[run].(enumerationComplete := false)],
          repairs := db.repairs + {(run, lower, upper, count)},
          initialEnumerated := false,
          unused := db.unused + count)
  }

  function SetShard(db: Db, s: nat, status: ShardStatus): Db
    requires s in db.shards
  {
    db.(shards := db.shards[s := db.shards[s].(status := status)])
  }

  /** How many pieces the owner of shard `s` cuts its remaining range into; 1 means it keeps it whole. */
  function RebalancePieceCount(db: Db, s: nat, desired: int): int
    requires s in db.shards
  {
    var shard := db.shards[s];
    var active := |set t | t in db.shards && db.shards[t].run == shard.run && !db.shards[t].status.Completed?|;
    var pieces := desired - active + 1;
    if desired < 2 || !shard.status.Working? || desired <= active || shard.upper - shard.next < pieces * 100 then 1 else pieces
  }

  predicate RebalanceConflicts(db: Db, s: nat, pieces: seq<Piece>)
    requires s in db.shards && |pieces| > 0
  {
    var shard := db.shards[s];
    var others := db.shards - {s};
    || Taken(others, shard.run, Piece(shard.lower, pieces[0].hi))
    || (exists k :: 0 < k < |pieces| && Taken(others, shard.run, pieces[k]))
  }

  /** The owner of a shard keeps the first piece; the others become new shards. */
  function Rebalance(db: Db, s: nat, desired: int): Db
    requires s in db.shards
  {
    var n := RebalancePieceCount(db, s, desired);
    if n <= 1 then db
    else
      var shard := db.shards[s];
      var pieces := RebalancePieces(shard.next, shard.upper, n);
      if RebalanceConflicts(db, s, pieces) then db
      else
        db.(shards := AddShards(db.shards[s := shard.(upper := pieces[0].hi)], db.unused, shard.run, shard.repair, pieces[1..]),
            unused := db.unused + n - 1)
  }

  // ------------------------------------------------------------- enqueueing

  /** The unique key of a queue row: (run, account) for the crawl itself, (source, account) otherwise. */
  predicate Queued(queue: Queue, run: Option<nat>, source: Source, account: int) {
    exists i :: i in queue && queue[i].run == run && queue[i].source == source && queue[i].account == account
  }

  function NewAccount(run: Option<nat>, source: Source, account: int, scan: nat): Account {
    Account(run, source, account, scan, Pending, None, None, 0, 0, 0, false, false)
  }

  datatype Inserted = Inserted(queue: Queue, unused: nat, ids: seq<nat>)

  /** INSERT ... ON CONFLICT DO NOTHING; the row's scan is the identifier after its own. */
  function InsertOne(r: Inserted, run: Option<nat>, source: Source, account: int): Inserted {
    if Queued(r.queue, run, source, account) then r
    else Inserted(r.queue[r.unused := NewAccount(run, source, account, r.unused + 1)], r.unused + 2, r.ids + [r.unused])
  }

  /** Candidate by candidate; `ids` are the rows created. */
  function Insert(queue: Queue, unused: nat, run: Option<nat>, source: Source, accounts: seq<int>): Inserted {
    if |accounts| == 0 then Inserted(queue, unused, [])
    else InsertOne(Insert(queue, unused, run, source, accounts[..|accounts| - 1]), run, source, accounts[|accounts| - 1])
  }

  function Enqueue(db: Db, source: Source, accounts: seq<int>): Db {
    var r := Insert(db.queue, db.unused, None, source, accounts);
    db.(queue := r.queue, unused := r.unused)
  }

  /** New accounts found past the tail; the high-water mark never falls. */
  function ApplyTailPage(db: Db, accounts: seq<int>, highwater: int): Db {
    Enqueue(db, Tail, accounts).(highwater := Max(db.highwater, highwater))
  }

  /** ApplyEnumerationShardPage: enqueue the page, move the checkpoint, count, and see whether the run is enumerated. */
  function ApplyShardPage(db: Db, s: nat, accounts: seq<int>, next: int, complete: bool): Db
    requires s in db.shards && db.shards[s].run in db.runs
  {
    var run := db.shards[s].run;
    var r := Insert(db.queue, db.unused, Some(run), Global, accounts);
    var shards := db.shards[s := db.shards[s].(next := next, status := if complete then Completed else Working)];
    var done := !Unfinished(shards, run);
    var row := db.runs[run];
    db.(queue := r.queue, unused := r.unused, shards := shards,
        runs := db.runs[run := row.(nextSince := Max(row.nextSince, next), enumerated := row.enumerated + |r.ids|,
                                    enumerationComplete := row.enumerationComplete || done)],
        initialEnumerated := db.initialEnumerated || (complete && done))
  }

  /** One staged federation result: a row that is born claimed. */
  function StagedAccount(account: int, scan: nat, token: nat, now: int): Account {
    Account(None, Federation, account, scan, Running, Some(token), Some(now + LEASE), 0, 1, 0, true, false)
  }

  function StageOne(r: Inserted, account: int, now: int): Inserted {
    if Queued(r.queue, None, Federation, account) then r
    else
      Inserted(r.queue[r.unused := StagedAccount(account, r.unused + 1, r.unused + 2, now)], r.unused + 3, r.ids + [r.unused])
  }

  /** StageEntitySweepResults; `ids` are the rows it created, already claimed. */
  function Stage(queue: Queue, unused: nat, accounts: seq<int>, now: int): Inserted {
    if |accounts| == 0 then Inserted(queue, unused, [])
    else StageOne(Stage(queue, unused, accounts[..|accounts| - 1], now), accounts[|accounts| - 1], now)
  }

  // ------------------------------------------------------- claims and leases

  predicate Held(queue: Queue, job: Job) { job.id in queue && queue[job.id].token == Some(job.token) }

  /** The rows an UPDATE or DELETE joined on (id, token) touches. */
  function Matched(queue: Queue, jobs: seq<Job>): set<nat> {
    set j | j in jobs && Held(queue, j) :: j.id
  }

  predicate AllMatched(queue: Queue, jobs: seq<Job>) { |Matched(queue, jobs)| == |jobs| }

  predicate Claimable(queue: Queue, i: nat, from: AccountStatus, now: int) {
    i in queue && queue[i].status == from && queue[i].due <= now
  }

  function Claimed(a: Account, to: AccountStatus, token: nat, now: int): Account {
    a.(status := to, token := Some(token), lease := Some(now + LEASE),
       attempts := if to.Running? then a.attempts + 1 else a.attempts,
       fallbackAttempts := if to.Running? then a.fallbackAttempts else a.fallbackAttempts + 1)
  }

  function Freed(a: Account, to: AccountStatus, due: int): Account {
    a.(status := to, token := None, lease := None, due := due)
  }

  /** Rows `picked` are claimed; the k-th gets token unused + k. */
  function ClaimRows(db: Db, picked: seq<nat>, to: AccountStatus, now: int): Db {
    db.(queue := map i | i in db.queue ::
          if i in picked then Claimed(db.queue[i], to, db.unused + Position(picked, i), now) else db.queue[i],
        unused := db.unused + |picked|)
  }

  function Position(s: seq<nat>, x: nat): (k: nat)
    requires x in s
    ensures k < |s| && s[k] == x
  {
    if s[0] == x then 0 else 1 + Position(s[1..], x)
  }

  /** Requeue, or move to the fallback lane: an autocommit update of whatever still matches. */
  function FreeRows(db: Db, jobs: seq<Job>, to: AccountStatus, due: int): Db {
    db.(queue := SetFreed(db.queue, Matched(db.queue, jobs), to, due))
  }

  function SetFreed(queue: Queue, rows: set<nat>, to: AccountStatus, due: int): Queue {
    map i | i in queue :: if i in rows then Freed(queue[i], to, due) else queue[i]
  }

  function AfterLoss(s: AccountStatus): AccountStatus { if s.FallbackRunning? then Fallback else Retry }

  function ReapAccounts(db: Db, now: int): Db {
    db.(queue := map i | i in db.queue ::
      if InProgress(db.queue[i].status) && db.queue[i].lease.Some? && db.queue[i].lease.value < now
      then Freed(db.queue[i], AfterLoss(db.queue[i].status), now) else db.queue[i])
  }

  /** Recover: every claim is void after a restart. */
  function Recover(db: Db, now: int): Db {
    db.(queue := map i | i in db.queue ::
          if InProgress(db.queue[i].status) then Freed(db.queue[i], AfterLoss(db.queue[i].status), now) else db.queue[i],
        shards := map s | s in db.shards ::
          if db.shards[s].status.Working? then db.shards[s].(status := Again) else db.shards[s])
  }

  // ------------------------------------------------------------- attempts

  /** First phase: remember on the row that it was attempted. */
  function MarkAttempted(db: Db, jobs: seq<Job>): Db {
    if !AllMatched(db.queue, jobs) then db
    else db.(queue := SetAttempted(db.queue, Matched(db.queue, jobs)))
  }

  function SetAttempted(queue: Queue, rows: set<nat>): Queue {
    map i | i in queue :: if i in rows then queue[i].(attempted := true) else queue[i]
  }

  function SetCounted(queue: Queue, rows: set<nat>): Queue {
    map i | i in queue :: if i in rows then queue[i].(counted := true) else queue[i]
  }

  function RowsOf(queue: Queue, run: nat): set<nat> { set i | i in queue && queue[i].run == Some(run) }

  function UncountedOf(queue: Queue, run: nat): set<nat> {
    set i | i in queue && queue[i].run == Some(run) && !queue[i].counted
  }

  /** Second phase: add the rows not counted yet to their runs, never past what was enumerated. */
  function CountAttempted(db: Db, jobs: seq<Job>): Db {
    if !AllMatched(db.queue, jobs) then db
    else
      var rows := Matched(db.queue, jobs);
      db.(queue := SetCounted(db.queue, rows),
          runs := map r | r in db.runs :: AddAttempts(db.runs[r], |rows * UncountedOf(db.queue, r)|))
  }

  function AddAttempts(r: Run, n: nat): Run {
    if n == 0 then r else r.(attempted := Min(r.enumerated, r.attempted + n))
  }

  // ------------------------------------------------------------- completion

  /** What became of an account. */
  datatype Outcome = Published | Overflowed | ZeroKeys | Gone

  /** `known` are the accounts that were owners when the transaction began. */
  function OutcomeOf(known: set<int>, job: Job, result: Result): Outcome {
    if |result.keys| > 0 || job.account in known then (if result.hasMore then Overflowed else Published)
    else ZeroKeys
  }

  function SettleOne(w: O.World, known: set<int>, job: Job, result: Result, now: int, stages: nat, id: nat): O.World {
    if OutcomeOf(known, job, result).ZeroKeys? then w
    else
      var w1 := O.Touch(w, job.account, now);
      if result.hasMore then
        O.Open(w1, id, job.run, job.source, job.account, job.scan, now, O.KeyPage(result.keys, true, result.next, result.total))
      else
        O.Direct(w1, job.account, job.scan, now, Elements(result.keys), stages)
  }

  /** The k-th job may open an overflow row with identifier `id` + k. */
  function SettleAll(w: O.World, known: set<int>, jobs: seq<Job>, results: seq<Result>, now: int, stages: nat, id: nat): O.World
    requires |jobs| == |results|
  {
    if |jobs| == 0 then w
    else
      var n := |jobs| - 1;
      SettleOne(SettleAll(w, known, jobs[..n], results[..n], now, stages, id), known, jobs[n], results[n], now, stages, id + n)
  }

  function Owners(w: O.World): set<int> { w.scans.index.owners.Keys }

  /** How many jobs of a run had keys (`owner`) or had none. */
  function Tally(jobs: seq<Job>, results: seq<Result>, run: nat, owner: bool): nat
    requires |jobs| == |results|
  {
    if |jobs| == 0 then 0
    else
      var n := |jobs| - 1;
      Tally(jobs[..n], results[..n], run, owner) +
      (if jobs[n].run == Some(run) && (|results[n].keys| > 0) == owner then 1 else 0)
  }

  /** The batch rolls back: a result without a cursor to continue from, or a claim that is no longer held. */
  predicate BatchRefused(db: Db, w: O.World, jobs: seq<Job>, results: seq<Result>) {
    || |jobs| != |results|
    || (exists k :: 0 <= k < |jobs| && OutcomeOf(Owners(w), jobs[k], results[k]).Overflowed? && results[k].next == "")
    || !AllMatched(db.queue, jobs)
  }

  /** The accounts whose keys fit their first page. */
  function Finished(jobs: seq<Job>, results: seq<Result>): set<int>
    requires |jobs| == |results|
  {
    if |jobs| == 0 then {}
    else
      var n := |jobs| - 1;
      Finished(jobs[..n], results[..n]) + (if results[n].hasMore then {} else {jobs[n].account})
  }

  function Counted(runs: map<nat, Run>, jobs: seq<Job>, results: seq<Result>): map<nat, Run>
    requires |jobs| == |results|
  {
    map r | r in runs ::
      var z, o := Tally(jobs, results, r, false), Tally(jobs, results, r, true);
      runs[r].(processed := runs[r].processed + z + o, zero := runs[r].zero + z, owner := runs[r].owner + o)
  }

  function Complete(db: Db, w: O.World, jobs: seq<Job>, results: seq<Result>): Db {
    if BatchRefused(db, w, jobs, results) then db
    else
      db.(queue := db.queue - Matched(db.queue, jobs),
          anomalies := db.anomalies - Finished(jobs, results),
          runs := Counted(db.runs, jobs, results),
          unused := db.unused + |jobs|)
  }

  function CompleteScans(db: Db, w: O.World, jobs: seq<Job>, results: seq<Result>, now: int, stages: nat): O.World {
    if BatchRefused(db, w, jobs, results) then w else SettleAll(w, Owners(w), jobs, results, now, stages, db.unused)
  }

  function CompleteInaccessible(db: Db, job: Job): Db {
    if !Held(db.queue, job) then db
    else
      db.(queue := db.queue - {job.id},
          anomalies := db.anomalies - {job.account},
          runs := if job.run.None? || job.run.value !in db.runs then db.runs
                  else
                    var r := db.runs[job.run.value];
                    db.runs[job.run.value := r.(processed := r.processed + 1, inaccessible := r.inaccessible + 1)])
  }

  // ------------------------------------------------------------- completion of the run

  /** What MaybeCompleteMain reads first. */
  predicate LooksDrained(r: Run) { r.running && r.enumerationComplete && r.processed >= r.enumerated }

  predicate OverflowPending(s: O.Scans, run: nat) { exists i :: i in s.rows && s.rows[i].run == Some(run) }

  predicate AnomalyPending(db: Db, run: nat) { exists a :: a in db.anomalies && db.anomalies[a] == Some(run) }

  function CloseRun(db: Db, run: nat): Db
    requires run in db.runs
  {
    db.(runs := db.runs[run := db.runs[run].(running := false)],
        initialComplete := db.initialComplete || db.runs[run].initial)
  }
}
