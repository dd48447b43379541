/**
 Accounts with more keys than one page holds: the key list is read twice, page by
 page, into staging, and published only when both passes agree.

 A transaction is one function from world to world.  The log is history that the
 code does not store; it exists to state what happened before.
 */
module OverflowScan {
  import opened Prelude
  import opened Publication

  datatype Status = Pending | Running | Retry

  /** One row of overflow_queue. */
  datatype Row = Row(
    run: Option<nat>, source: Source, account: int, scan: nat,
    status: Status, token: Option<nat>, lease: Option<int>, due: int, attempts: nat,
    cursor: string, expected: int, observed: nat, pass: nat)

  /** The staged fingerprints of one scan. */
  datatype Staging = Staging(pass1: set<Fingerprint>, pass2: set<Fingerprint>)

  /** What a worker knows about the row it claimed. */
  datatype Job = Job(id: nat, token: nat, account: int, scan: nat, cursor: string, expected: int, observed: nat, pass: nat)

  /** One page of an account's key list. */
  datatype KeyPage = KeyPage(keys: seq<Fingerprint>, hasMore: bool, next: string, total: int)

  datatype Scans = Scans(rows: map<nat, Row>, staging: map<nat, Staging>, index: Tables)

  datatype Log = Log(
    issued: map<nat, Job>,            // every claim ever handed out, by token
    finalized: set<nat>,              // scans whose keys were published
    publications: nat,                // how many publications there were
    totals: map<nat, set<int>>)       // totals on the pages accepted since the scan last restarted

  datatype World = World(scans: Scans, log: Log)

  function JobOf(id: nat, r: Row, token: nat): Job {
    Job(id, token, r.account, r.scan, r.cursor, r.expected, r.observed, r.pass)
  }

  function Staged(st: Staging, pass: nat): set<Fingerprint> { if pass == 2 then st.pass2 else st.pass1 }

  function Stage(st: Staging, pass: nat, keys: seq<Fingerprint>): Staging {
    if pass == 2 then st.(pass2 := st.pass2 + Elements(keys)) else st.(pass1 := st.pass1 + Elements(keys))
  }

  predicate Holds(s: Scans, job: Job) {
    job.id in s.rows && s.rows[job.id].token == Some(job.token)
  }

  function Released(r: Row, status: Status, due: int): Row {
    r.(status := status, token := None, lease := None, due := due)
  }

  // ---------------------------------------------------------- transitions

  /** The first page of an account with more keys opens the scan (CompleteAccountsScheduled). */
  function Open(w: World, id: nat, run: Option<nat>, source: Source, account: int, scan: nat, now: int, page: KeyPage): World {
    var row := Row(run, source, account, scan, Pending, None, None, now, 0, page.next, page.total, |page.keys|, 1);
    World(w.scans.(rows := w.scans.rows[id := row], staging := w.scans.staging[scan := Staging(Elements(page.keys), {})]),
          w.log.(totals := w.log.totals[scan := {page.total}]))
  }

  predicate Claimable(s: Scans, id: nat, now: int) {
    id in s.rows && !s.rows[id].status.Running? && s.rows[id].due <= now
  }

  function Claim(w: World, id: nat, token: nat, now: int): World
    requires id in w.scans.rows
  {
    var row := w.scans.rows[id].(status := Running, token := Some(token), lease := Some(now + LEASE),
                                 attempts := w.scans.rows[id].attempts + 1);
    World(w.scans.(rows := w.scans.rows[id := row]),
          w.log.(issued := w.log.issued[token := JobOf(id, row, token)]))
  }

  /** Drop everything staged and start again from the first page. */
  function Restart(w: World, job: Job, now: int): World {
    if !Holds(w.scans, job) || job.scan !in w.scans.staging then w
    else
      var row := Released(w.scans.rows[job.id], Pending, now + 60).(pass := 1, expected := -1, observed := 0, cursor := "");
      World(w.scans.(rows := w.scans.rows[job.id := row], staging := w.scans.staging[job.scan := Staging({}, {})]),
            w.log.(totals := w.log.totals[job.scan := {}]))
  }

  function Requeue(w: World, job: Job, due: int): World {
    if !Holds(w.scans, job) then w
    else w.(scans := w.scans.(rows := w.scans.rows[job.id := Released(w.scans.rows[job.id], Retry, due)]))
  }

  predicate Expired(r: Row, now: int) { r.status.Running? && r.lease.Some? && r.lease.value < now }

  /** Claims whose lease ran out return to the queue. */
  function Reap(w: World, now: int): World {
    w.(scans := w.scans.(rows := map i | i in w.scans.rows ::
      if Expired(w.scans.rows[i], now) then Released(w.scans.rows[i], Retry, now) else w.scans.rows[i]))
  }

  /** After a restart of the crawler nobody works on anything. */
  function Recover(w: World, now: int): World {
    w.(scans := w.scans.(rows := map i | i in w.scans.rows ::
      if w.scans.rows[i].status.Running? then Released(w.scans.rows[i], Retry, now) else w.scans.rows[i]))
  }

  function Expected(job: Job, total: int): int {
    if job.expected < 0 && job.cursor == "" then total else job.expected
  }

  function PassOf(job: Job): nat { if job.pass == 1 || job.pass == 2 then job.pass else 1 }

  /** The transaction rolls back: the page cannot be accepted under this claim. */
  predicate Refused(s: Scans, job: Job, page: KeyPage) {
    || !Holds(s, job)
    || job.scan !in s.staging
    || page.total != Expected(job, page.total)
    || job.observed + |page.keys| > page.total
    || (page.hasMore && (page.next == "" || page.next == job.cursor))
    || (!page.hasMore && job.observed + |page.keys| != page.total)
    || job.account !in s.index.owners
  }

  /** The scan's table rows are settled: publish, then delete the queue row and its staging. */
  function Settle(w: World, job: Job, now: int, keys: set<Fingerprint>, stages: nat): World
    requires job.account in w.scans.index.owners
  {
    World(
      Scans(w.scans.rows - {job.id}, w.scans.staging - {job.scan},
            Publish(w.scans.index, job.account, job.scan, now, keys, stages)),
      w.log.(finalized := w.log.finalized + {job.scan}, publications := w.log.publications + 1))
  }

  /** The page is staged and its total recorded; the queue row is still as it was. */
  function Accept(w: World, job: Job, page: KeyPage): World
    requires job.scan in w.scans.staging
  {
    WithScan(w, job.scan, Stage(w.scans.staging[job.scan], PassOf(job), page.keys),
             (if job.scan in w.log.totals then w.log.totals[job.scan] else {}) + {page.total})
  }

  function WithScan(w: World, scan: nat, st: Staging, totals: set<int>): World {
    World(w.scans.(staging := w.scans.staging[scan := st]), w.log.(totals := w.log.totals[scan := totals]))
  }

  /** CompleteOverflowPageScheduled. */
  function ApplyPage(w: World, job: Job, page: KeyPage, now: int, stages: nat): World {
    if Refused(w.scans, job, page) then w
    else
      var st := Stage(w.scans.staging[job.scan], PassOf(job), page.keys);
      var row := Released(w.scans.rows[job.id], Pending, now);
      var w1 := Accept(w, job, page);
      if page.hasMore then
        Replace(w1, job.id, row.(cursor := page.next, observed := job.observed + |page.keys|, expected := page.total))
      else if |Staged(st, PassOf(job))| != page.total then Restart(w1, job, now)
      else if PassOf(job) == 1 then
        Replace(w1, job.id, row.(pass := 2, cursor := "", observed := 0, expected := page.total))
      else if st.pass1 != st.pass2 then Restart(w1, job, now)
      else Settle(w1, job, now, st.pass2, stages)
  }

  function Replace(w: World, id: nat, row: Row): World {
    w.(scans := w.scans.(rows := w.scans.rows[id := row]))
  }

  /** CompleteOverflowFromREST: one complete REST snapshot replaces the unfinished scan. */
  function FromREST(w: World, job: Job, now: int, keys: set<Fingerprint>, stages: nat): World {
    if !Holds(w.scans, job) then w
    else Settle(w.(scans := w.scans.(index := UpsertOwner(w.scans.index, job.account, now))), job, now, keys, stages)
  }

  /** An account whose keys fit one page is published at once. */
  function Direct(w: World, account: int, scan: nat, now: int, keys: set<Fingerprint>, stages: nat): World
    requires account in w.scans.index.owners
  {
    World(w.scans.(index := Publish(w.scans.index, account, scan, now, keys, stages)),
          w.log.(finalized := w.log.finalized + {scan}, publications := w.log.publications + 1))
  }

  function Touch(w: World, account: int, now: int): World {
    w.(scans := w.scans.(index := UpsertOwner(w.scans.index, account, now)))
  }

  function Hide(w: World, account: int, now: int): World {
    w.(scans := w.scans.(index := MarkInaccessible(w.scans.index, account, now)))
  }

  // ------------------------------------------------------------ invariant

  /** Staging, counters and history of one open scan agree. */
  ghost predicate ScanConsistent(r: Row, st: Staging, totals: set<int>) {
    && (r.pass == 1 || r.pass == 2)
    && (r.pass == 1 ==> st.pass2 == {} && |st.pass1| <= r.observed)
    && (r.pass == 2 ==> 0 <= r.expected == |st.pass1| && |st.pass2| <= r.observed)
    && (r.expected >= 0 ==> totals == {r.expected})
    && (r.expected < 0 ==> r.pass == 1 && r.observed == 0 && r.cursor == "" && st.pass1 == {} && totals == {})
  }

  ghost predicate RowInv(w: World, i: nat)
    requires i in w.scans.rows
  {
    var r := w.scans.rows[i];
    && (r.status.Running? <==> r.token.Some?) && (r.token.Some? <==> r.lease.Some?)
    && (r.token.Some? ==> r.token.value in w.log.issued && w.log.issued[r.token.value] == JobOf(i, r, r.token.value))
    && r.account in w.scans.index.owners
    && r.scan in w.scans.staging && r.scan in w.log.totals && r.scan !in w.log.finalized
    && ScanConsistent(r, w.scans.staging[r.scan], w.log.totals[r.scan])
  }

  ghost predicate Inv(w: World) {
    && (forall i :: i in w.scans.rows ==> RowInv(w, i))
    && (forall i, j :: i in w.scans.rows && j in w.scans.rows && i != j ==> w.scans.rows[i].scan != w.scans.rows[j].scan)
    && WellFormed(w.scans.index) && MarksWithin(w.scans.index, w.log.finalized)
    && |w.log.finalized| == w.log.publications
  }

  // ------------------------------------------------------- what it implies

  /** No key of an open scan is visible: no association was written by it. */
  lemma OpenScanInvisible(w: World, i: nat, k: Key)
    requires Inv(w) && i in w.scans.rows && k in w.scans.index.keys
    ensures w.scans.index.keys[k].lastScan != w.scans.rows[i].scan
    ensures w.scans.index.keys[k].changedScan != w.scans.rows[i].scan
  {
    assert RowInv(w, i);
  }

  /** While a claim is current, the worker's copy of the row is current too. */
  lemma JobCurrent(w: World, job: Job)
    requires Inv(w) && Holds(w.scans, job) && job.token in w.log.issued && w.log.issued[job.token] == job
    ensures job == JobOf(job.id, w.scans.rows[job.id], job.token)
    ensures RowInv(w, job.id) && PassOf(job) == job.pass
  {
    assert RowInv(w, job.id);
  }

  ghost predicate Issued(w: World, job: Job) {
    job.token in w.log.issued && w.log.issued[job.token] == job
  }

  ghost predicate Published(w: World, w': World, job: Job) {
    job.scan !in w.log.finalized && job.scan in w'.log.finalized
  }

  /**
   Two-pass safety.  A page publishes its scan only as the last page of pass 2,
   when the staged sets of both passes are equal, their size is the total
   reported on this page and on every page accepted since the last restart; then
   exactly that set is present, and the queue row and its staging are gone.
   */
  lemma PublishesOnlyVerified(w: World, job: Job, page: KeyPage, now: int, stages: nat)
    requires Inv(w) && Issued(w, job)
    requires Published(w, ApplyPage(w, job, page, now, stages), job)
    ensures var w' := ApplyPage(w, job, page, now, stages);
            && Holds(w.scans, job) && w.scans.rows[job.id].pass == 2 && !page.hasMore
            && job.scan in w.scans.staging && job.scan in w.log.totals
            && var st := w.scans.staging[job.scan];
            && st.pass1 == st.pass2 + Elements(page.keys)
            && |st.pass1| == page.total && w.log.totals[job.scan] == {page.total}
            && Present(w'.scans.index, job.account) == st.pass1
            && job.id !in w'.scans.rows && job.scan !in w'.scans.staging
  {
    if !Refused(w.scans, job, page) {
      AcceptedPage(w, job, page);
      var st := Stage(w.scans.staging[job.scan], job.pass, page.keys);
      SettlePublishes(w, st, w.log.totals[job.scan] + {page.total}, job, now, st.pass2, stages);
    }
  }

  /** It does publish when the last page of pass 2 completes an equal set. */
  lemma VerifiedScanPublishes(w: World, job: Job, page: KeyPage, now: int, stages: nat)
    requires Inv(w) && Issued(w, job) && Holds(w.scans, job) && job.pass == 2 && !page.hasMore
    requires page.total == job.expected == job.observed + |page.keys|
    requires var st := w.scans.staging[w.scans.rows[job.id].scan]; st.pass1 == st.pass2 + Elements(page.keys)
    ensures Published(w, ApplyPage(w, job, page, now, stages), job)
  {
    JobCurrent(w, job);
  }

  /** An outdated claim changes nothing. */
  lemma StaleClaimHarmless(w: World, job: Job, page: KeyPage, now: int, stages: nat, due: int)
    requires !Holds(w.scans, job)
    ensures ApplyPage(w, job, page, now, stages) == w
    ensures Restart(w, job, now) == w && Requeue(w, job, due) == w && FromREST(w, job, now, Elements(page.keys), stages) == w
  {
  }

  /** A claim survives every reaping within two hours and none later; a restarted scan rests for a minute. */
  lemma LeaseAndRest(w: World, id: nat, token: nat, now: int, later: int, job: Job)
    requires Claimable(w.scans, id, now)
    ensures id in Reap(Claim(w, id, token, now), later).scans.rows
    ensures Reap(Claim(w, id, token, now), later).scans.rows[id].token == (if later <= now + LEASE then Some(token) else None)
    ensures Holds(w.scans, job) && job.scan in w.scans.staging && later < now + 60 ==> !Claimable(Restart(w, job, now).scans, job.id, later)
  {
  }

  // ----------------------------------------------------------- preservation

  /** A row is undisturbed when nothing it speaks of changed. */
  lemma RowFrame(w: World, w': World, i: nat)
    requires i in w.scans.rows && RowInv(w, i)
    requires i in w'.scans.rows && w'.scans.rows[i] == w.scans.rows[i]
    requires var s := w.scans.rows[i].scan;
             && s in w'.scans.staging && w'.scans.staging[s] == w.scans.staging[s]
             && s in w'.log.totals && w'.log.totals[s] == w.log.totals[s]
             && s !in w'.log.finalized
    requires forall t :: t in w.log.issued ==> t in w'.log.issued && w'.log.issued[t] == w.log.issued[t]
    requires w.scans.index.owners.Keys <= w'.scans.index.owners.Keys
    ensures RowInv(w', i)
  {
  }

  lemma OpenKeeps(w: World, id: nat, run: Option<nat>, source: Source, account: int, scan: nat, now: int, page: KeyPage)
    requires Inv(w) && id !in w.scans.rows && scan !in w.log.finalized && account in w.scans.index.owners
    requires forall i :: i in w.scans.rows ==> w.scans.rows[i].scan != scan
    requires page.total >= |page.keys|
    ensures Inv(Open(w, id, run, source, account, scan, now, page))
  {
    var w' := Open(w, id, run, source, account, scan, now, page);
    ElementsSize(page.keys);
    forall i | i in w'.scans.rows
      ensures RowInv(w', i)
    {
      if i != id { RowFrame(w, w', i); }
    }
  }

  lemma ClaimKeeps(w: World, id: nat, token: nat, now: int)
    requires Inv(w) && Claimable(w.scans, id, now) && token !in w.log.issued
    ensures Inv(Claim(w, id, token, now)) && Issued(Claim(w, id, token, now), Claim(w, id, token, now).log.issued[token])
  {
    var w' := Claim(w, id, token, now);
    assert RowInv(w, id);
    forall i | i in w'.scans.rows
      ensures RowInv(w', i)
    {
      if i != id { RowFrame(w, w', i); }
    }
  }

  lemma RestartKeeps(w: World, job: Job, now: int)
    requires Inv(w) && Issued(w, job)
    ensures Inv(Restart(w, job, now))
  {
    if Holds(w.scans, job) && job.scan in w.scans.staging {
      JobCurrent(w, job);
    }
  }

  lemma RequeueKeeps(w: World, job: Job, due: int)
    requires Inv(w)
    ensures Inv(Requeue(w, job, due))
  {
    if Holds(w.scans, job) {
      assert RowInv(w, job.id);
    }
  }

  /** Any number of claims may be released at once. */
  lemma ReleaseKeeps(w: World, w': World, now: int)
    requires Inv(w) && w' == w.(scans := w.scans.(rows := w'.scans.rows)) && w'.scans.rows.Keys == w.scans.rows.Keys
    requires forall i :: i in w.scans.rows ==>
               w'.scans.rows[i] == w.scans.rows[i] || w'.scans.rows[i] == Released(w.scans.rows[i], Retry, now)
    ensures Inv(w')
  {
    forall i | i in w'.scans.rows
      ensures RowInv(w', i)
    {
      assert RowInv(w, i);
    }
  }

  /** Whatever was staged last, settling a scan leaves the other scans intact. */
  lemma SettleKeeps(w: World, st: Staging, totals: set<int>, job: Job, now: int, keys: set<Fingerprint>, stages: nat)
    requires Inv(w) && Holds(w.scans, job) && Issued(w, job) && job.account in w.scans.index.owners
    ensures var w' := Settle(WithScan(w, job.scan, st, totals), job, now, keys, stages);
            Inv(w') && Published(w, w', job)
  {
    JobCurrent(w, job);
    var w' := Settle(WithScan(w, job.scan, st, totals), job, now, keys, stages);
    PublishKeeps(w.scans.index, job.account, job.scan, now, keys, stages, w.log.finalized);
    forall i | i in w'.scans.rows
      ensures RowInv(w', i)
    {
      RowFrame(w, w', i);
    }
  }

  lemma SettlePublishes(w: World, st: Staging, totals: set<int>, job: Job, now: int, keys: set<Fingerprint>, stages: nat)
    requires Inv(w) && Holds(w.scans, job) && Issued(w, job) && job.account in w.scans.index.owners
    ensures var w' := Settle(WithScan(w, job.scan, st, totals), job, now, keys, stages);
            && Present(w'.scans.index, job.account) == keys
            && HistoryKept(w.scans.index, w'.scans.index) && OthersKept(w.scans.index, w'.scans.index, job.account)
  {
    JobCurrent(w, job);
    PublishExact(w.scans.index, job.account, job.scan, now, keys, stages, w.log.finalized);
  }

  /** Staging more of the current pass, with the total of the page on record. */
  lemma AcceptedPage(w: World, job: Job, page: KeyPage)
    requires Inv(w) && Issued(w, job) && !Refused(w.scans, job, page)
    ensures var st := Stage(w.scans.staging[job.scan], job.pass, page.keys);
            && RowInv(w, job.id) && PassOf(job) == job.pass
            && job == JobOf(job.id, w.scans.rows[job.id], job.token)
            && |Staged(st, job.pass)| <= job.observed + |page.keys|
            && page.total >= 0
            && (w.log.totals[job.scan] + {page.total} == {page.total})
            && (job.expected < 0 || job.expected == page.total)
  {
    JobCurrent(w, job);
    ElementsSize(page.keys);
    UnionSize(Staged(w.scans.staging[job.scan], job.pass), Elements(page.keys));
  }

  lemma MorePagesKeep(w: World, job: Job, page: KeyPage, now: int, stages: nat)
    requires Inv(w) && Issued(w, job) && !Refused(w.scans, job, page) && page.hasMore
    ensures Inv(ApplyPage(w, job, page, now, stages))
  {
    AcceptedPage(w, job, page);
  }

  lemma DriftRestarts(w: World, st: Staging, totals: set<int>, job: Job, now: int)
    requires Inv(w) && Holds(w.scans, job) && Issued(w, job)
    ensures Inv(Restart(WithScan(w, job.scan, st, totals), job, now))
  {
    JobCurrent(w, job);
  }

  lemma EndOfPassKeeps(w: World, job: Job, page: KeyPage, now: int, stages: nat)
    requires Inv(w) && Issued(w, job) && !Refused(w.scans, job, page) && !page.hasMore
    ensures Inv(ApplyPage(w, job, page, now, stages))
  {
    JobCurrent(w, job);
    var st := Stage(w.scans.staging[job.scan], job.pass, page.keys);
    var totals := w.log.totals[job.scan] + {page.total};
    if |Staged(st, job.pass)| != page.total || (job.pass == 2 && st.pass1 != st.pass2) {
      DriftRestarts(w, st, totals, job, now);
    } else if job.pass == 1 {
    } else {
      SettleKeeps(w, st, totals, job, now, st.pass2, stages);
    }
  }

  lemma ApplyPageKeeps(w: World, job: Job, page: KeyPage, now: int, stages: nat)
    requires Inv(w) && Issued(w, job)
    ensures Inv(ApplyPage(w, job, page, now, stages))
  {
    if !Refused(w.scans, job, page) {
      if page.hasMore { MorePagesKeep(w, job, page, now, stages); } else { EndOfPassKeeps(w, job, page, now, stages); }
    }
  }

  lemma TouchKeeps(w: World, account: int, now: int)
    requires Inv(w)
    ensures Inv(Touch(w, account, now))
  {
  }

  lemma HideKeeps(w: World, account: int, now: int)
    requires Inv(w)
    ensures Inv(Hide(w, account, now))
  {
    InaccessibleExact(w.scans.index, account, now, w.log.finalized);
  }

  lemma FromRESTKeeps(w: World, job: Job, now: int, keys: set<Fingerprint>, stages: nat)
    requires Inv(w) && Issued(w, job)
    ensures var w' := FromREST(w, job, now, keys, stages);
            && Inv(w')
            && (Holds(w.scans, job) ==>
                  Published(w, w', job) && Present(w'.scans.index, job.account) == keys && job.id !in w'.scans.rows)
  {
    if Holds(w.scans, job) {
      var w1 := Touch(w, job.account, now);
      TouchKeeps(w, job.account, now);
      JobCurrent(w1, job);
      SettleKeeps(w1, w1.scans.staging[job.scan], w1.log.totals[job.scan], job, now, keys, stages);
      SettlePublishes(w1, w1.scans.staging[job.scan], w1.log.totals[job.scan], job, now, keys, stages);
      assert WithScan(w1, job.scan, w1.scans.staging[job.scan], w1.log.totals[job.scan]) == w1;
    }
  }

  lemma DirectKeeps(w: World, account: int, scan: nat, now: int, keys: set<Fingerprint>, stages: nat)
    requires Inv(w) && account in w.scans.index.owners && scan !in w.log.finalized
    requires forall i :: i in w.scans.rows ==> w.scans.rows[i].scan != scan
    ensures Inv(Direct(w, account, scan, now, keys, stages))
    ensures Present(Direct(w, account, scan, now, keys, stages).scans.index, account) == keys
  {
    var w' := Direct(w, account, scan, now, keys, stages);
    PublishExact(w.scans.index, account, scan, now, keys, stages, w.log.finalized);
    forall i | i in w'.scans.rows
      ensures RowInv(w', i)
    {
      RowFrame(w, w', i);
    }
  }

  // ------------------------------------------------- what a step may do at all

  /** No scan appears from nowhere; a row that disappears was published; only open scans get published. */
  ghost predicate Continues(w: World, w': World) {
    && w'.scans.rows.Keys <= w.scans.rows.Keys
    && (forall i :: i in w'.scans.rows ==> w'.scans.rows[i].scan == w.scans.rows[i].scan && w'.scans.rows[i].run == w.scans.rows[i].run)
    && (forall i :: i in w.scans.rows && i !in w'.scans.rows ==> w.scans.rows[i].scan in w'.log.finalized)
    && w.log.finalized <= w'.log.finalized
    && (forall s :: s in w'.log.finalized && s !in w.log.finalized ==> exists i :: i in w.scans.rows && w.scans.rows[i].scan == s)
  }

  lemma PageContinues(w: World, job: Job, page: KeyPage, now: int, stages: nat)
    requires Inv(w) && Issued(w, job)
    ensures Continues(w, ApplyPage(w, job, page, now, stages))
    ensures ApplyPage(w, job, page, now, stages).log.issued == w.log.issued
  {
    if !Refused(w.scans, job, page) {
      JobCurrent(w, job);
      PageShape(w, job, page, now, stages);
    }
  }

  /** A page either rewrites its own row within the same scan, or removes it and publishes. */
  lemma PageShape(w: World, job: Job, page: KeyPage, now: int, stages: nat)
    requires !Refused(w.scans, job, page) && w.scans.rows[job.id].scan == job.scan
    ensures var w' := ApplyPage(w, job, page, now, stages);
            Continues(w, w') && w'.log.issued == w.log.issued
  {
    var w1 := Accept(w, job, page);
    var w' := ApplyPage(w, job, page, now, stages);
    var st := Stage(w.scans.staging[job.scan], PassOf(job), page.keys);
    if !page.hasMore && |Staged(st, PassOf(job))| == page.total && PassOf(job) != 1 && st.pass1 == st.pass2 {
    } else {
      assert w'.scans.rows == w.scans.rows[job.id := w'.scans.rows[job.id]];
      assert w'.log.finalized == w.log.finalized;
      assert w'.scans.rows[job.id].scan == job.scan && w'.scans.rows[job.id].run == w.scans.rows[job.id].run;
    }
  }

  lemma RestartContinues(w: World, job: Job, now: int, due: int)
    requires Inv(w)
    ensures Continues(w, Restart(w, job, now)) && Continues(w, Requeue(w, job, due))
    ensures Restart(w, job, now).log.issued == w.log.issued && Requeue(w, job, due).log == w.log
  {
  }

  lemma ReapKeeps(w: World, now: int)
    requires Inv(w)
    ensures Inv(Reap(w, now)) && Continues(w, Reap(w, now)) && Inv(Recover(w, now)) && Continues(w, Recover(w, now))
  {
    ReleaseKeeps(w, Reap(w, now), now);
    ReleaseKeeps(w, Recover(w, now), now);
  }
}
