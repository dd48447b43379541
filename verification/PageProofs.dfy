/**
 An enumeration page keeps the invariant: what it lists is enqueued before the
 checkpoint passes it.

 The page of an honest listing holds exactly the users between the old and the new
 checkpoint (PlanCovers), and its effect is followed through the parts of the state:
 - a user that was ahead of the shard is ahead still, or on the page (MovedAhead), for the
   run of the page (OwnRunOk) and for every other run (OtherRunOk);
 - the users of the page have a row for the run afterwards (PageAccounted), new rows are
   sound (PageQueue), and the run counts exactly the rows that are new (PageCounts);
 - a run counts as enumerated only with its last shard (PageShardInv).

 A refused page gives the shard back and changes nothing else.
 */
module PageProofs {
  import opened Prelude
  import opened RangeDivision
  import opened EnumerationPage
  import P = Publication
  import opened WorkTables
  import opened WorkProtocol
  import opened WorkProofs
  import opened ShardProofs
  import opened QueueProofs
  import O = OverflowScan

  /** What the worker takes from a page: exactly the users up to the new checkpoint. */
  ghost predicate Covers(listing: Listing, from: int, upper: int, candidates: seq<int>, next: int, reached: bool) {
    && from <= next <= upper && (reached <==> next == upper)
    && (forall x :: x in candidates <==> x in listing.users && from < x <= next)
  }

  lemma PlanCovers(listing: Listing, next: int, upper: int, page: Page)
    requires WellFormed(listing) && next <= upper && Honest(listing, next, page) && PlanOf(next, upper, page).Advance?
    ensures var p := PlanOf(next, upper, page); Covers(listing, next, upper, p.candidates, p.next, p.reached)
  {
    if next < upper { PlanExact(listing, next, upper, page); }
  }

  function Moved(shards: map<nat, Shard>, s: nat, next: int, complete: bool): map<nat, Shard>
    requires s in shards
  {
    shards[s := shards[s].(next := next, status := if complete then Completed else Working)]
  }

  function More(enqueued: map<nat, set<int>>, run: nat, candidates: seq<int>): map<nat, set<int>> {
    enqueued[run := (if run in enqueued then enqueued[run] else {}) + Elements(candidates)]
  }

  lemma MovedShards(runs: map<nat, Run>, runs': map<nat, Run>, shards: map<nat, Shard>, s: nat, next: int,
                    complete: bool, seeded: map<nat, set<Piece>>, unused: nat, unused': nat)
    requires ShardsOk(runs, shards, seeded, unused) && runs'.Keys == runs.Keys && unused <= unused'
    requires s in shards && shards[s].next <= next <= shards[s].upper && (complete <==> next == shards[s].upper)
    ensures ShardsOk(runs', Moved(shards, s, next, complete), seeded, unused')
  {
    forall t | t in shards
      ensures t < unused' && ShardOk(runs', Moved(shards, s, next, complete)[t], seeded)
    {
      assert ShardOk(runs, shards[t], seeded);
    }
  }

  lemma MovedAhead(listing: Listing, shards: map<nat, Shard>, s: nat, candidates: seq<int>, next: int, complete: bool,
                   r: nat, x: int)
    requires s in shards && Covers(listing, shards[s].next, shards[s].upper, candidates, next, complete)
    requires x in listing.users && Ahead(shards, r, x)
    ensures Ahead(Moved(shards, s, next, complete), r, x) || (r == shards[s].run && x in candidates)
  {
    var shards' := Moved(shards, s, next, complete);
    var t :| t in shards && shards[t].run == r && !shards[t].status.Completed? && shards[t].next < x <= shards[t].upper;
    assert t in shards' && shards'[t].run == r;
  }

  lemma MovedOthers(shards: map<nat, Shard>, s: nat, next: int, complete: bool, r: nat)
    requires s in shards
    ensures HasShards(Moved(shards, s, next, complete), r) <==> HasShards(shards, r)
    ensures r != shards[s].run ==> (Unfinished(Moved(shards, s, next, complete), r) <==> Unfinished(shards, r))
  {
    var shards' := Moved(shards, s, next, complete);
    if HasShards(shards, r) {
      var t :| t in shards && shards[t].run == r;
      assert t in shards' && shards'[t].run == r;
    }
    if r != shards[s].run && Unfinished(shards, r) {
      var t :| t in shards && shards[t].run == r && !shards[t].status.Completed?;
      assert shards'[t] == shards[t];
    }
  }

  /** The run the page belongs to. */
  lemma OwnRunOk(listing: Listing, run: Run, run': Run, shards: map<nat, Shard>, s: nat, candidates: seq<int>,
                 next: int, complete: bool,
                 enqueued: map<nat, set<int>>, seeded: map<nat, set<Piece>>, runs: map<nat, Run>)
    requires s in shards && shards[s].status.Working? && ShardOk(runs, shards[s], seeded)
    requires RunOk(listing, shards[s].run, run, shards, enqueued, seeded)
    requires Covers(listing, shards[s].next, shards[s].upper, candidates, next, complete)
    requires run'.enumerationComplete == (run.enumerationComplete || !Unfinished(Moved(shards, s, next, complete), shards[s].run))
    ensures RunOk(listing, shards[s].run, run', Moved(shards, s, next, complete), More(enqueued, shards[s].run, candidates), seeded)
  {
    var r := shards[s].run;
    var shards' := Moved(shards, s, next, complete);
    var enqueued' := More(enqueued, r, candidates);
    MovedOthers(shards, s, next, complete, r);
    assert Unfinished(shards, r) && HasShards(shards, r);
    forall x | x in listing.users && Seeded(seeded[r], x)
      ensures x in enqueued'[r] || Ahead(shards', r, x)
    {
      if x !in enqueued[r] { MovedAhead(listing, shards, s, candidates, next, complete, r, x); }
    }
    forall x | x in enqueued'[r]
      ensures x in listing.users && Seeded(seeded[r], x)
    {
      if x !in enqueued[r] {
        var p :| p in seeded[r] && p.lo <= shards[s].lower && shards[s].upper <= p.hi;
        assert Inside(p, x);
      }
    }
  }

  lemma OtherRunOk(listing: Listing, r: nat, run: Run, shards: map<nat, Shard>, s: nat, candidates: seq<int>,
                   next: int, complete: bool,
                   enqueued: map<nat, set<int>>, seeded: map<nat, set<Piece>>)
    requires s in shards && r != shards[s].run
    requires RunOk(listing, r, run, shards, enqueued, seeded)
    requires Covers(listing, shards[s].next, shards[s].upper, candidates, next, complete)
    ensures RunOk(listing, r, run, Moved(shards, s, next, complete), More(enqueued, shards[s].run, candidates), seeded)
  {
    MovedOthers(shards, s, next, complete, r);
    var shards' := Moved(shards, s, next, complete);
    forall x | x in listing.users && Seeded(seeded[r], x)
      ensures x in enqueued[r] || Ahead(shards', r, x)
    {
      if x !in enqueued[r] { MovedAhead(listing, shards, s, candidates, next, complete, r, x); }
    }
  }

  lemma PageRuns(listing: Listing, runs: map<nat, Run>, runs': map<nat, Run>, shards: map<nat, Shard>, s: nat,
                 candidates: seq<int>, next: int, complete: bool,
                 enqueued: map<nat, set<int>>, seeded: map<nat, set<Piece>>, unused: nat, unused': nat)
    requires ShardsOk(runs, shards, seeded, unused) && RunsOk(listing, runs, shards, enqueued, seeded, unused)
    requires s in shards && shards[s].status.Working? && unused <= unused'
    requires Covers(listing, shards[s].next, shards[s].upper, candidates, next, complete)
    requires runs'.Keys == runs.Keys && forall r :: r in runs && r != shards[s].run ==> runs'[r] == runs[r]
    requires shards[s].run in runs
    requires runs'[shards[s].run].enumerationComplete ==
             (runs[shards[s].run].enumerationComplete || !Unfinished(Moved(shards, s, next, complete), shards[s].run))
    ensures RunsOk(listing, runs', Moved(shards, s, next, complete), More(enqueued, shards[s].run, candidates), seeded, unused')
  {
    assert ShardOk(runs, shards[s], seeded);
    forall r | r in runs'
      ensures r < unused' && RunOk(listing, r, runs'[r], Moved(shards, s, next, complete), More(enqueued, shards[s].run, candidates), seeded)
    {
      assert RunOk(listing, r, runs[r], shards, enqueued, seeded);
      if r == shards[s].run {
        OwnRunOk(listing, runs[r], runs'[r], shards, s, candidates, next, complete, enqueued, seeded, runs);
      } else {
        OtherRunOk(listing, r, runs[r], shards, s, candidates, next, complete, enqueued, seeded);
      }
    }
  }

  lemma PageOwners(shards: map<nat, Shard>, owned: map<nat, Local>, worker: nat, next: int, complete: bool)
    requires OwnersOk(shards, owned) && worker in owned
    ensures owned[worker].shard in shards
    ensures OwnersOk(Moved(shards, owned[worker].shard, next, complete),
                     if complete then owned - {worker} else owned[worker := owned[worker].(next := next)])
  {
    var shards' := Moved(shards, owned[worker].shard, next, complete);
    var owned' := if complete then owned - {worker} else owned[worker := owned[worker].(next := next)];
    forall k | k in owned'
      ensures LocalOk(shards', owned'[k])
    {
      assert LocalOk(shards, owned[k]) && LocalOk(shards, owned[worker]);
    }
  }

  // -------------------------------------------------------------- the page

  lemma PageQueue(queue: Queue, ow: O.World, runs: set<nat>, enqueued: map<nat, set<int>>, issued: map<nat, Job>, unused: nat,
                  run: nat, candidates: seq<int>)
    requires Sound(queue, ow, runs, enqueued, issued, unused) && run in runs
    ensures var r := Insert(queue, unused, Some(run), Global, candidates);
            Sound(r.queue, ow, runs, More(enqueued, run, candidates), issued, r.unused)
  {
    InsertKeeps(queue, unused, Some(run), Global, candidates, ow, runs, More(enqueued, run, candidates), issued);
  }

  /** The users of the page are queued before the checkpoint passes them. */
  lemma PageAccounted(queue: Queue, unused: nat, run: nat, candidates: seq<int>, enqueued: map<nat, set<int>>,
                      settled: map<nat, Settlement>)
    requires Accounted(queue, enqueued, settled) && forall i :: i in queue ==> i < unused
    ensures Accounted(Insert(queue, unused, Some(run), Global, candidates).queue, More(enqueued, run, candidates), settled)
  {
    var r := Insert(queue, unused, Some(run), Global, candidates);
    InsertGrows(queue, unused, Some(run), Global, candidates);
    var enqueued' := More(enqueued, run, candidates);
    forall n, x | n in enqueued' && x in enqueued'[n] && !HasSettled(settled, n, x)
      ensures Queued(r.queue, Some(n), Global, x)
    {
      if n == run && x in candidates {
        InsertQueues(queue, unused, Some(run), Global, candidates, x);
      } else {
        StaysQueued(queue, r.queue, Some(n), Global, x);
      }
    }
  }

  lemma PageCounts(runs: map<nat, Run>, runs': map<nat, Run>, queue: Queue, unused: nat, run: nat, candidates: seq<int>)
    requires CountInv(runs, queue) && run in runs && (forall i :: i in queue ==> i < unused)
    requires runs'.Keys == runs.Keys && forall r :: r in runs && r != run ==> runs'[r] == runs[r]
    requires SameCounters(runs'[run].(enumerated := runs[run].enumerated), runs[run])
    requires runs'[run].enumerated == runs[run].enumerated + |Insert(queue, unused, Some(run), Global, candidates).ids|
    ensures CountInv(runs', Insert(queue, unused, Some(run), Global, candidates).queue)
  {
    forall r | r in runs'
      ensures CountOk(r, runs'[r], Insert(queue, unused, Some(run), Global, candidates).queue)
    {
      assert CountOk(r, runs[r], queue);
      InsertCounts(queue, unused, Some(run), Global, candidates, r);
    }
  }

  lemma PageMonitor(m: Monitor, sound: set<nat>, db: Db, s: O.Scans, shard: nat, candidates: seq<int>, next: int,
                    complete: bool)
    requires MonitorInv(m, sound, db, s) && (forall i :: i in db.queue ==> i < db.unused)
    requires shard in db.shards && db.shards[shard].status.Working? && db.shards[shard].run in db.runs
    ensures MonitorInv(m, sound, ApplyShardPage(db, shard, candidates, next, complete), s)
  {
    var run := db.shards[shard].run;
    var db' := ApplyShardPage(db, shard, candidates, next, complete);
    assert Unfinished(db.shards, run);
    forall r: nat | Drained(r, db)
      ensures Drained(r, db')
    {
      MovedOthers(db.shards, shard, next, complete, r);
      InsertCounts(db.queue, db.unused, Some(run), Global, candidates, r);
    }
    MonitorFrame(m, sound, db, db', s, s);
  }

  lemma PageShardInv(listing: Listing, db: Db, owned: map<nat, Local>, worker: nat, candidates: seq<int>, next: int,
                     complete: bool,
                     enqueued: map<nat, set<int>>, seeded: map<nat, set<Piece>>)
    requires ShardInv(listing, db.runs, db.shards, owned, enqueued, seeded, db.unused)
    requires worker in owned && owned[worker].shard in db.shards && owned[worker].run in db.runs
    requires Covers(listing, owned[worker].next, owned[worker].upper, candidates, next, complete)
    requires Grown(db.queue, db.unused, Insert(db.queue, db.unused, Some(owned[worker].run), Global, candidates))
    ensures db.shards[owned[worker].shard].run == owned[worker].run
    ensures var db' := ApplyShardPage(db, owned[worker].shard, candidates, next, complete);
            ShardInv(listing, db'.runs, db'.shards,
                     if complete then owned - {worker} else owned[worker := owned[worker].(next := next)],
                     More(enqueued, owned[worker].run, candidates), seeded, db'.unused)
  {
    var l := owned[worker];
    assert LocalOk(db.shards, l);
    var db' := ApplyShardPage(db, l.shard, candidates, next, complete);
    MovedShards(db.runs, db'.runs, db.shards, l.shard, next, complete, seeded, db.unused, db'.unused);
    PageRuns(listing, db.runs, db'.runs, db.shards, l.shard, candidates, next, complete, enqueued, seeded, db.unused, db'.unused);
    PageOwners(db.shards, owned, worker, next, complete);
  }

  /** The state after an accepted page. */
  function PageWorld(w: World, worker: nat, candidates: seq<int>, next: int, complete: bool): World
    requires worker in w.owned && w.owned[worker].shard in w.db.shards && w.db.shards[w.owned[worker].shard].run in w.db.runs
  {
    var l := w.owned[worker];
    w.(db := ApplyShardPage(w.db, l.shard, candidates, next, complete),
       owned := if complete then w.owned - {worker} else w.owned[worker := l.(next := next)],
       past := w.past.(
         created := w.past.created + Elements(Insert(w.db.queue, w.db.unused, Some(l.run), Global, candidates).ids),
         enqueued := More(w.past.enqueued, l.run, candidates)))
  }

  lemma PageWorldKeeps(listing: Listing, w: World, worker: nat, candidates: seq<int>, next: int, complete: bool)
    requires Inv(listing, w) && Owns(w, worker)
    requires Covers(listing, w.owned[worker].next, w.owned[worker].upper, candidates, next, complete)
    ensures Inv(listing, PageWorld(w, worker, candidates, next, complete))
  {
    var l := w.owned[worker];
    var w' := PageWorld(w, worker, candidates, next, complete);
    var r := Insert(w.db.queue, w.db.unused, Some(l.run), Global, candidates);
    RowsOld(listing, w);
    InsertGrows(w.db.queue, w.db.unused, Some(l.run), Global, candidates);
    PageShardInv(listing, w.db, w.owned, worker, candidates, next, complete, w.past.enqueued, w.past.seeded);
    PageRows(listing, w, worker, candidates, next, complete);
    GrownFate(w.db.queue, r, w.past.created, w.past.settled, w.ow, w.db.unused);
    PageAccounted(w.db.queue, w.db.unused, l.run, candidates, w.past.enqueued, w.past.settled);
    assert w'.db.queue == r.queue && w'.db.unused == r.unused;
  }

  lemma PageRows(listing: Listing, w: World, worker: nat, candidates: seq<int>, next: int, complete: bool)
    requires Inv(listing, w) && Owns(w, worker)
    ensures var w' := PageWorld(w, worker, candidates, next, complete);
            && Sound(w'.db.queue, w'.ow, w'.db.runs.Keys, w'.past.enqueued, w'.past.issued, w'.db.unused)
            && CountInv(w'.db.runs, w'.db.queue)
            && MonitorInv(w'.monitor, w'.past.sound, w'.db, w'.ow.scans)
  {
    var l := w.owned[worker];
    var w' := PageWorld(w, worker, candidates, next, complete);
    RowsOld(listing, w);
    PageQueue(w.db.queue, w.ow, w.db.runs.Keys, w.past.enqueued, w.past.issued, w.db.unused, l.run, candidates);
    PageCounts(w.db.runs, w'.db.runs, w.db.queue, w.db.unused, l.run, candidates);
    assert LocalOk(w.db.shards, l);
    PageMonitor(w.monitor, w.past.sound, w.db, w.ow.scans, l.shard, candidates, next, complete);
    assert w'.db.runs.Keys == w.db.runs.Keys;
  }

  lemma AdvanceKeeps(listing: Listing, w: World, worker: nat, page: Page)
    requires Inv(listing, w) && Owns(w, worker)
    requires PlanOf(w.owned[worker].next, w.owned[worker].upper, page).Advance?
    requires Honest(listing, w.owned[worker].next, page)
    ensures Inv(listing, StepTakePage(w, worker, page))
  {
    var l := w.owned[worker];
    var p := PlanOf(l.next, l.upper, page);
    assert LocalOk(w.db.shards, l) && ShardOk(w.db.runs, w.db.shards[l.shard], w.past.seeded);
    PlanCovers(listing, l.next, l.upper, page);
    PageWorldKeeps(listing, w, worker, p.candidates, p.next, p.reached);
    assert StepTakePage(w, worker, page) == PageWorld(w, worker, p.candidates, p.next, p.reached);
  }

  lemma TakePageKeeps(listing: Listing, w: World, worker: nat, page: Page)
    requires Inv(listing, w) && (worker in w.owned ==> Trusted(listing, w.owned[worker], page))
    ensures Inv(listing, StepTakePage(w, worker, page))
  {
    if Owns(w, worker) {
      if PlanOf(w.owned[worker].next, w.owned[worker].upper, page).Advance? {
        AdvanceKeeps(listing, w, worker, page);
      } else {
        GiveBackKeeps(listing, w, worker);
      }
    }
  }
}
