/**
 The crawl as a state machine.  Enumeration workers, key workers, the run monitor
 and the schedulers interleave; each step is one transaction, or one read of the
 monitor.  Workers may stop, lose their lease, or act on claims they lost long ago;
 the process may restart at any point.
 */
module WorkProtocol {
  import opened Prelude
  import opened RangeDivision
  import opened EnumerationPage
  import P = Publication
  import opened WorkTables
  import O = OverflowScan

  /** An enumeration worker's copy of the shard it owns. */
  datatype Local = Local(shard: nat, run: nat, next: int, upper: int)

  /**
   MaybeCompleteMain reads the run row, then the overflow and anomaly tables, then
   commits.  `reseeded` records whether a repair was added to the run after the first read.
   */
  datatype Monitor = Idle | SawRun(run: nat, reseeded: bool) | SawClear(run: nat, reseeded: bool)

  datatype Settlement = Settlement(job: Job, outcome: Outcome)

  /** What happened so far; not stored by the program. */
  datatype History = History(
    enqueued: map<nat, set<int>>,         // per run: the accounts its enumeration ever enqueued
    seeded: map<nat, set<Piece>>,         // per run: the ranges cut into shards
    issued: map<nat, Job>,                // every account claim, by token
    created: set<nat>,                    // every queue row ever inserted
    settled: map<nat, Settlement>,        // how rows left the queue
    sound: set<nat>)                      // runs closed without a repair slipping in between

  datatype World = World(db: Db, ow: O.World, past: History, owned: map<nat, Local>, monitor: Monitor)

  datatype Op =
    | StartRun
    | StartTail(cutoff: int)
    | SeedPrimary(run: nat, count: int)
    | AddRepair(run: nat, lower: int, upper: int, count: int)
    | ClaimShard(worker: nat, shard: nat)
    | TakePage(worker: nat, page: Page)
    | SplitOwned(worker: nat, desired: int)
    | GiveBackShard(worker: nat)
    | AbandonShard(worker: nat)
    | Restart(now: int)
    | AddAccounts(source: Source, accounts: seq<int>)
    | ExtendTail(accounts: seq<int>, highwater: int)
    | StageFederation(accounts: seq<int>, now: int)
    | ClaimAccounts(picked: seq<nat>, from: AccountStatus, now: int)
    | FreeAccounts(jobs: seq<Job>, to: AccountStatus, due: int)
    | MarkAttempts(jobs: seq<Job>)
    | CountAttempts(jobs: seq<Job>)
    | CompleteAccounts(jobs: seq<Job>, results: seq<Result>, now: int, stages: nat)
    | CompleteGone(job: Job, now: int)
    | ReapLeases(now: int)
    | ClaimOverflow(id: nat, now: int)
    | OverflowPage(ojob: O.Job, kpage: O.KeyPage, now: int, stages: nat)
    | OverflowRestart(ojob: O.Job, now: int)
    | OverflowRequeue(ojob: O.Job, due: int)
    | OverflowREST(ojob: O.Job, keys: set<P.Fingerprint>, now: int, stages: nat)
    | ReadRun(run: nat)
    | ReadPending
    | CommitRun

  // ------------------------------------------------------------------ steps

  function Init(anomalies: map<int, Option<nat>>, unused: nat): World {
    World(Db(map[], map[], map[], anomalies, {}, 0, false, false, false, unused),
          O.World(O.Scans(map[], map[], P.Tables(map[], map[])), O.Log(map[], {}, 0, map[])),
          History(map[], map[], map[], {}, map[], {}), map[], Idle)
  }

  function StepStartRun(w: World): World {
    var db := EnsureMainRun(w.db);
    if db == w.db then w
    else w.(db := db, past := w.past.(enqueued := w.past.enqueued[w.db.unused := {}], seeded := w.past.seeded[w.db.unused := {}]))
  }

  function AddSeed(past: History, run: nat, p: Piece): History {
    past.(seeded := past.seeded[run := (if run in past.seeded then past.seeded[run] else {}) + {p}])
  }

  function StepSeedPrimary(w: World, run: nat, count: int): World {
    if run !in w.db.runs then w
    else
      var db := EnsureEnumerationShards(w.db, run, count);
      if db == w.db || db.runs[run].cutoff.None? then w
      else w.(db := db, past := AddSeed(w.past, run, Piece(w.db.runs[run].nextSince, db.runs[run].cutoff.value)))
  }

  function Reseed(m: Monitor, run: nat): Monitor {
    if !m.Idle? && m.run == run then m.(reseeded := true) else m
  }

  function StepAddRepair(w: World, run: nat, lower: int, upper: int, count: int): World {
    if RepairRefused(w.db, run, lower, upper, count) then w
    else
      w.(db := SeedRepair(w.db, run, lower, upper, count),
         past := AddSeed(w.past, run, Piece(lower, upper)),
         monitor := Reseed(w.monitor, run))
  }

  predicate ShardClaimable(w: World, worker: nat, shard: nat) {
    && worker !in w.owned && shard in w.db.shards
    && (w.db.shards[shard].status.Waiting? || w.db.shards[shard].status.Again?)
  }

  function StepClaimShard(w: World, worker: nat, shard: nat): World {
    if !ShardClaimable(w, worker, shard) then w
    else
      var s := w.db.shards[shard];
      w.(db := SetShard(w.db, shard, Working), owned := w.owned[worker := Local(shard, s.run, s.next, s.upper)])
  }

  predicate Owns(w: World, worker: nat) {
    && worker in w.owned && w.owned[worker].shard in w.db.shards
    && w.db.shards[w.owned[worker].shard].run == w.owned[worker].run && w.owned[worker].run in w.db.runs
  }

  function StepTakePage(w: World, worker: nat, page: Page): World {
    if !Owns(w, worker) then w
    else
      var l := w.owned[worker];
      match PlanOf(l.next, l.upper, page)
      case Reject(_) => w.(db := SetShard(w.db, l.shard, Again), owned := w.owned - {worker})
      case Advance(candidates, next, reached) =>
        var db := ApplyShardPage(w.db, l.shard, candidates, next, reached);
        var ids := Insert(w.db.queue, w.db.unused, Some(l.run), Global, candidates).ids;
        w.(db := db,
           owned := if reached then w.owned - {worker} else w.owned[worker := l.(next := next)],
           past := w.past.(
             created := w.past.created + Elements(ids),
             enqueued := w.past.enqueued[l.run := (if l.run in w.past.enqueued then w.past.enqueued[l.run] else {}) + Elements(candidates)]))
  }

  function StepSplit(w: World, worker: nat, desired: int): World {
    if !Owns(w, worker) then w
    else
      var l := w.owned[worker];
      var db := Rebalance(w.db, l.shard, desired);
      w.(db := db, owned := w.owned[worker := l.(upper := if l.shard in db.shards then db.shards[l.shard].upper else l.upper)])
  }

  function StepGiveBack(w: World, worker: nat): World {
    if !Owns(w, worker) then w
    else w.(db := SetShard(w.db, w.owned[worker].shard, Again), owned := w.owned - {worker})
  }

  /** A crash forgets what workers and monitor knew; Recover voids every claim. */
  function StepRestart(w: World, now: int): World {
    w.(db := Recover(w.db, now), ow := O.Recover(w.ow, now), owned := map[], monitor := Idle)
  }

  function StepAdd(w: World, db: Db, ids: seq<nat>): World {
    w.(db := db, past := w.past.(created := w.past.created + Elements(ids)))
  }

  function StepStage(w: World, accounts: seq<int>, now: int): World {
    var r := Stage(w.db.queue, w.db.unused, accounts, now);
    w.(db := w.db.(queue := r.queue, unused := r.unused),
       past := w.past.(created := w.past.created + Elements(r.ids),
                       issued := w.past.issued + StagedJobs(r.queue, r.ids)))
  }

  /** A staged row's token is drawn right after its scan. */
  function StagedJobs(queue: Queue, ids: seq<nat>): map<nat, Job> {
    if |ids| == 0 then map[]
    else
      var id := ids[|ids| - 1];
      var front := StagedJobs(queue, ids[..|ids| - 1]);
      if id in queue then front[id + 2 := JobOf(id, queue[id], id + 2)] else front
  }

  predicate PickOk(queue: Queue, picked: seq<nat>, from: AccountStatus, now: int) {
    && (from.Pending? || from.Retry? || from.Fallback?)
    && (forall k :: 0 <= k < |picked| ==> Claimable(queue, picked[k], from, now))
    && (forall j, k :: 0 <= j < k < |picked| ==> picked[j] != picked[k])
  }

  function StepClaimAccounts(w: World, picked: seq<nat>, from: AccountStatus, now: int): World {
    if !PickOk(w.db.queue, picked, from, now) then w
    else
      var unused := w.db.unused;
      var db := ClaimRows(w.db, picked, if from.Fallback? then FallbackRunning else Running, now);
      w.(db := db, past := w.past.(issued := w.past.issued + ClaimedJobs(w.db.queue, picked, unused)))
  }

  function ClaimedJobs(queue: Queue, picked: seq<nat>, unused: nat): map<nat, Job>
    requires forall k :: 0 <= k < |picked| ==> picked[k] in queue
  {
    map t | t in Range(unused, |picked|) :: JobOf(picked[t - unused], queue[picked[t - unused]], t)
  }

  function StepComplete(w: World, jobs: seq<Job>, results: seq<Result>, now: int, stages: nat): World {
    if BatchRefused(w.db, w.ow, jobs, results) then w
    else
      w.(db := Complete(w.db, w.ow, jobs, results),
         ow := CompleteScans(w.db, w.ow, jobs, results, now, stages),
         past := w.past.(settled := w.past.settled + Settlements(Owners(w.ow), jobs, results)))
  }

  function Settlements(known: set<int>, jobs: seq<Job>, results: seq<Result>): map<nat, Settlement>
    requires |jobs| == |results|
  {
    if |jobs| == 0 then map[]
    else
      var n := |jobs| - 1;
      Settlements(known, jobs[..n], results[..n])[jobs[n].id := Settlement(jobs[n], OutcomeOf(known, jobs[n], results[n]))]
  }

  function StepGone(w: World, job: Job, now: int): World {
    if !Held(w.db.queue, job) then w
    else
      w.(db := CompleteInaccessible(w.db, job), ow := O.Hide(w.ow, job.account, now),
         past := w.past.(settled := w.past.settled[job.id := Settlement(job, Gone)]))
  }

  function StepClaimOverflow(w: World, id: nat, now: int): World {
    if !O.Claimable(w.ow.scans, id, now) then w
    else w.(ow := O.Claim(w.ow, id, w.db.unused, now), db := w.db.(unused := w.db.unused + 1))
  }

  /** Publishing an overflow scan also settles the account's anomaly. */
  function Resolve(w: World, ow: O.World, job: O.Job): World {
    w.(ow := ow,
       db := if job.id in w.ow.scans.rows && job.id !in ow.scans.rows then w.db.(anomalies := w.db.anomalies - {job.account}) else w.db)
  }

  function StepReadRun(w: World, run: nat): World {
    w.(monitor := if run in w.db.runs && LooksDrained(w.db.runs[run]) then SawRun(run, false) else Idle)
  }

  function StepReadPending(w: World): World {
    match w.monitor
    case SawRun(r, reseeded) =>
      w.(monitor := if OverflowPending(w.ow.scans, r) || AnomalyPending(w.db, r) then Idle else SawClear(r, reseeded))
    case _ => w
  }

  function StepCommitRun(w: World): World {
    match w.monitor
    case SawClear(r, reseeded) =>
      if r !in w.db.runs then w
      else
        w.(db := CloseRun(w.db, r), monitor := Idle,
           past := if reseeded then w.past else w.past.(sound := w.past.sound + {r}))
    case _ => w
  }

  function Step(w: World, op: Op): World {
    match op
    case StartRun => StepStartRun(w)
    case StartTail(cutoff) => w.(db := InitializeLiveTail(w.db, cutoff))
    case SeedPrimary(run, count) => StepSeedPrimary(w, run, count)
    case AddRepair(run, lower, upper, count) => StepAddRepair(w, run, lower, upper, count)
    case ClaimShard(worker, shard) => StepClaimShard(w, worker, shard)
    case TakePage(worker, page) => StepTakePage(w, worker, page)
    case SplitOwned(worker, desired) => StepSplit(w, worker, desired)
    case GiveBackShard(worker) => StepGiveBack(w, worker)
    case AbandonShard(worker) => w.(owned := w.owned - {worker})
    case Restart(now) => StepRestart(w, now)
    case AddAccounts(source, accounts) =>
      StepAdd(w, Enqueue(w.db, source, accounts), Insert(w.db.queue, w.db.unused, None, source, accounts).ids)
    case ExtendTail(accounts, highwater) =>
      StepAdd(w, ApplyTailPage(w.db, accounts, highwater), Insert(w.db.queue, w.db.unused, None, Tail, accounts).ids)
    case StageFederation(accounts, now) => StepStage(w, accounts, now)
    case ClaimAccounts(picked, from, now) => StepClaimAccounts(w, picked, from, now)
    case FreeAccounts(jobs, to, due) => w.(db := FreeRows(w.db, jobs, to, due))
    case MarkAttempts(jobs) => w.(db := MarkAttempted(w.db, jobs))
    case CountAttempts(jobs) => w.(db := CountAttempted(w.db, jobs))
    case CompleteAccounts(jobs, results, now, stages) => StepComplete(w, jobs, results, now, stages)
    case CompleteGone(job, now) => StepGone(w, job, now)
    case ReapLeases(now) => w.(db := ReapAccounts(w.db, now), ow := O.Reap(w.ow, now))
    case ClaimOverflow(id, now) => StepClaimOverflow(w, id, now)
    case OverflowPage(job, page, now, stages) => Resolve(w, O.ApplyPage(w.ow, job, page, now, stages), job)
    case OverflowRestart(job, now) => w.(ow := O.Restart(w.ow, job, now))
    case OverflowRequeue(job, due) => w.(ow := O.Requeue(w.ow, job, due))
    case OverflowREST(job, keys, now, stages) => Resolve(w, O.FromREST(w.ow, job, now, keys, stages), job)
    case ReadRun(run) => StepReadRun(w, run)
    case ReadPending => StepReadPending(w)
    case CommitRun => StepCommitRun(w)
  }

  // ----------------------------------------------- what the environment promises

  ghost predicate Known(w: World, jobs: seq<Job>) {
    forall k :: 0 <= k < |jobs| ==> jobs[k].token in w.past.issued && w.past.issued[jobs[k].token] == jobs[k]
  }

  /** Any page may arrive, but one that looks continuous skips nothing. */
  ghost predicate Trusted(listing: Listing, l: Local, page: Page) {
    PlanOf(l.next, l.upper, page).Advance? ==> Honest(listing, l.next, page)
  }

  ghost predicate ResultOk(r: Result) { |r.keys| <= r.total }

  /**
   Workers only present claims they were given; a page that is not refused is honest;
   a result counts at least the keys it lists.
   */
  ghost predicate Possible(listing: Listing, w: World, op: Op) {
    match op
    case TakePage(worker, page) => worker in w.owned ==> Trusted(listing, w.owned[worker], page)
    case AddAccounts(source, accounts) => !source.Global?
    case FreeAccounts(jobs, to, due) => Known(w, jobs) && (to.Retry? || to.Fallback?)
    case MarkAttempts(jobs) => Known(w, jobs)
    case CountAttempts(jobs) => Known(w, jobs)
    case CompleteAccounts(jobs, results, now, stages) =>
      Known(w, jobs) && forall k :: 0 <= k < |results| ==> ResultOk(results[k])
    case CompleteGone(job, now) => Known(w, [job])
    case OverflowPage(job, page, now, stages) => O.Issued(w.ow, job)
    case OverflowRestart(job, now) => O.Issued(w.ow, job)
    case OverflowRequeue(job, due) => O.Issued(w.ow, job)
    case OverflowREST(job, keys, now, stages) => O.Issued(w.ow, job)
    case _ => true
  }

  function Execute(w: World, ops: seq<Op>): World {
    if |ops| == 0 then w else Step(Execute(w, ops[..|ops| - 1]), ops[|ops| - 1])
  }

  ghost predicate Legal(listing: Listing, w: World, ops: seq<Op>) {
    |ops| > 0 ==>
      Legal(listing, w, ops[..|ops| - 1]) && Possible(listing, Execute(w, ops[..|ops| - 1]), ops[|ops| - 1])
  }

  // -------------------------------------------------------------- invariants

  ghost predicate Seeded(pieces: set<Piece>, x: int) { exists p :: p in pieces && Inside(p, x) }

  /** The ID lies in the part of an unfinished shard that is still to be listed. */
  ghost predicate Ahead(shards: map<nat, Shard>, run: nat, x: int) {
    exists s :: s in shards && shards[s].run == run && !shards[s].status.Completed? && shards[s].next < x <= shards[s].upper
  }

  ghost predicate ShardOk(runs: map<nat, Run>, s: Shard, seeded: map<nat, set<Piece>>) {
    && s.run in runs && s.lower <= s.next <= s.upper && (s.status.Completed? ==> s.next == s.upper)
    && s.run in seeded && (exists p :: p in seeded[s.run] && p.lo <= s.lower && s.upper <= p.hi)
  }

  ghost predicate LocalOk(shards: map<nat, Shard>, l: Local) {
    && l.shard in shards
    && shards[l.shard].status.Working? && shards[l.shard].run == l.run
    && shards[l.shard].next == l.next && shards[l.shard].upper == l.upper
  }

  /** Every seeded user of the run was enqueued or is still ahead of some shard; nothing else was enqueued. */
  ghost predicate RunOk(listing: Listing, r: nat, run: Run, shards: map<nat, Shard>, enqueued: map<nat, set<int>>,
                        seeded: map<nat, set<Piece>>) {
    && r in enqueued && r in seeded
    && (forall x :: x in listing.users && Seeded(seeded[r], x) ==> x in enqueued[r] || Ahead(shards, r, x))
    && (forall x :: x in enqueued[r] ==> x in listing.users && Seeded(seeded[r], x))
    && (run.enumerationComplete <==> HasShards(shards, r) && !Unfinished(shards, r))
    && (!HasShards(shards, r) ==> run.nextSince == 0)
  }

  ghost predicate ShardsOk(runs: map<nat, Run>, shards: map<nat, Shard>, seeded: map<nat, set<Piece>>, unused: nat) {
    forall s :: s in shards ==> s < unused && ShardOk(runs, shards[s], seeded)
  }

  ghost predicate RunsOk(listing: Listing, runs: map<nat, Run>, shards: map<nat, Shard>,
                         enqueued: map<nat, set<int>>, seeded: map<nat, set<Piece>>, unused: nat)
  {
    forall r :: r in runs ==> r < unused && RunOk(listing, r, runs[r], shards, enqueued, seeded)
  }

  /** A shard in progress has one owner, whose copy is current. */
  ghost predicate OwnersOk(shards: map<nat, Shard>, owned: map<nat, Local>) {
    && (forall k :: k in owned ==> LocalOk(shards, owned[k]))
    && (forall j, k :: j in owned && k in owned && j != k ==> owned[j].shard != owned[k].shard)
  }

  ghost predicate ShardInv(listing: Listing, runs: map<nat, Run>, shards: map<nat, Shard>, owned: map<nat, Local>,
                           enqueued: map<nat, set<int>>, seeded: map<nat, set<Piece>>, unused: nat)
  {
    && ShardsOk(runs, shards, seeded, unused)
    && RunsOk(listing, runs, shards, enqueued, seeded, unused)
    && OwnersOk(shards, owned)
  }

  /** A row is in progress iff it has a token and a lease, and its token names exactly this row. */
  ghost predicate AccountOk(i: nat, a: Account, runs: set<nat>, enqueued: map<nat, set<int>>, issued: map<nat, Job>,
                            finalized: set<nat>, unused: nat) {
    && i < unused && a.scan < unused && a.scan !in finalized
    && (InProgress(a.status) <==> a.token.Some?) && (a.token.Some? <==> a.lease.Some?)
    && (a.token.Some? ==> a.token.value in issued && issued[a.token.value] == JobOf(i, a, a.token.value))
    && (a.source.Global? <==> a.run.Some?)
    && (a.run.Some? ==> a.run.value in runs && a.run.value in enqueued && a.account in enqueued[a.run.value])
  }

  ghost predicate RowsOk(queue: Queue, runs: set<nat>, enqueued: map<nat, set<int>>, issued: map<nat, Job>,
                         finalized: set<nat>, unused: nat) {
    forall i :: i in queue ==> AccountOk(i, queue[i], runs, enqueued, issued, finalized, unused)
  }

  ghost predicate TokensOld(issued: map<nat, Job>, unused: nat) { forall t :: t in issued ==> t < unused }

  ghost predicate QueueUnique(queue: Queue) {
    && (forall i, j :: i in queue && j in queue && i != j ==> queue[i].scan != queue[j].scan)
    && (forall i, j :: i in queue && j in queue && i != j ==>
          !(queue[i].run == queue[j].run && queue[i].source == queue[j].source && queue[i].account == queue[j].account))
  }

  ghost predicate QueueInv(queue: Queue, runs: set<nat>, enqueued: map<nat, set<int>>, issued: map<nat, Job>,
                           finalized: set<nat>, unused: nat) {
    RowsOk(queue, runs, enqueued, issued, finalized, unused) && QueueUnique(queue) && TokensOld(issued, unused)
  }

  /** The queue and the overflow scans share no scan, and the overflow tables use only issued identifiers. */
  ghost predicate ScanLinks(queue: Queue, ow: O.World, runs: set<nat>, unused: nat) {
    && (forall i, j :: i in queue && j in ow.scans.rows ==> queue[i].scan != ow.scans.rows[j].scan)
    && (forall j :: j in ow.scans.rows ==>
          j < unused && ow.scans.rows[j].scan < unused && (ow.scans.rows[j].run.Some? ==> ow.scans.rows[j].run.value in runs))
    && (forall s :: s in ow.log.finalized ==> s < unused)
    && (forall t :: t in ow.log.issued ==> t < unused)
  }

  ghost predicate CountOk(r: nat, run: Run, queue: Queue) {
    && run.enumerated == run.processed + |RowsOf(queue, r)|
    && run.processed == run.zero + run.owner + run.inaccessible + run.errors
    && 0 <= run.attempted && run.attempted + |UncountedOf(queue, r)| <= run.enumerated
    && 0 <= run.zero && 0 <= run.owner && 0 <= run.inaccessible && 0 <= run.errors
  }

  ghost predicate CountInv(runs: map<nat, Run>, queue: Queue) {
    forall r :: r in runs ==> CountOk(r, runs[r], queue)
  }

  /** The scan waits in the overflow queue, still on account of the same run. */
  ghost predicate StillScanned(job: Job, s: O.Scans) {
    exists j :: j in s.rows && s.rows[j].scan == job.scan && s.rows[j].run == job.run
  }

  ghost predicate SettledOk(s: Settlement, ow: O.World) {
    && (s.outcome.Published? ==> s.job.scan in ow.log.finalized)
    && (s.outcome.Overflowed? ==> s.job.scan in ow.log.finalized || StillScanned(s.job, ow.scans))
  }

  /** Every row ever created is in the queue or was settled; what was settled as overflow is still scanned or published. */
  ghost predicate FateInv(rows: set<nat>, created: set<nat>, settled: map<nat, Settlement>, ow: O.World, unused: nat) {
    && created == rows + settled.Keys && rows !! settled.Keys
    && (forall i :: i in created ==> i < unused)
    && (forall i :: i in settled ==> SettledOk(settled[i], ow))
  }

  ghost predicate HasSettled(settled: map<nat, Settlement>, r: nat, x: int) {
    exists i :: i in settled && settled[i].job.run == Some(r) && settled[i].job.account == x
  }

  /** Whatever a run enqueued is queued for it or was settled for it. */
  ghost predicate Accounted(queue: Queue, enqueued: map<nat, set<int>>, settled: map<nat, Settlement>) {
    forall r, x :: r in enqueued && x in enqueued[r] ==> Queued(queue, Some(r), Global, x) || HasSettled(settled, r, x)
  }

  ghost predicate Drained(run: nat, db: Db) {
    && run in db.runs && HasShards(db.shards, run) && !Unfinished(db.shards, run) && RowsOf(db.queue, run) == {}
  }

  ghost predicate Clear(run: nat, db: Db, s: O.Scans) {
    Drained(run, db) && !OverflowPending(s, run) && !AnomalyPending(db, run)
  }

  ghost predicate MonitorInv(m: Monitor, sound: set<nat>, db: Db, s: O.Scans) {
    && (m.SawRun? && !m.reseeded ==> Drained(m.run, db))
    && (m.SawClear? && !m.reseeded ==> Clear(m.run, db, s))
    && (forall r :: r in sound ==> Clear(r, db, s) && !db.runs[r].running)
  }

  ghost predicate Inv(listing: Listing, w: World) {
    && WellFormed(listing)
    && ShardInv(listing, w.db.runs, w.db.shards, w.owned, w.past.enqueued, w.past.seeded, w.db.unused)
    && QueueInv(w.db.queue, w.db.runs.Keys, w.past.enqueued, w.past.issued, w.ow.log.finalized, w.db.unused)
    && ScanLinks(w.db.queue, w.ow, w.db.runs.Keys, w.db.unused)
    && CountInv(w.db.runs, w.db.queue)
    && FateInv(w.db.queue.Keys, w.past.created, w.past.settled, w.ow, w.db.unused)
    && Accounted(w.db.queue, w.past.enqueued, w.past.settled)
    && MonitorInv(w.monitor, w.past.sound, w.db, w.ow.scans)
    && O.Inv(w.ow)
  }
}
