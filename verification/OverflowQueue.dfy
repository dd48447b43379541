/**
 The overflow tables as the store updates them: every transaction works in place
 and rolls back when it turns out, often at its very end, that the claim is stale.
 */
module OverflowQueue {
  import opened Prelude
  import opened Publication
  import opened OverflowScan

  class OverflowTables {
    var rows: map<nat, Row>
    var staging: map<nat, Staging>
    const index: KeyIndex
    ghost var log: Log

    ghost function State(): World
      reads this, index
    {
      World(Scans(rows, staging, index.State()), log)
    }

    predicate Claimed(job: Job)
      reads this
    {
      job.id in rows && rows[job.id].token == Some(job.token)
    }

    constructor ()
      ensures State() == World(Scans(map[], map[], Tables(map[], map[])), Log(map[], {}, 0, map[]))
      ensures fresh(index)
    {
      rows, staging := map[], map[];
      index := new KeyIndex();
      log := Log(map[], {}, 0, map[]);
    }

    /** ClaimOverflow, for the row it picked. */
    method Claim(id: nat, token: nat, now: int) returns (job: Option<Job>)
      modifies this
      ensures if Claimable(old(State()).scans, id, now)
              then State() == OverflowScan.Claim(old(State()), id, token, now) && job == Some(JobOf(id, rows[id], token))
              else State() == old(State()) && job == None
    {
      if id !in rows || rows[id].status.Running? || rows[id].due > now { return None; }
      rows := rows[id := rows[id].(status := Running, token := Some(token), lease := Some(now + LEASE), attempts := rows[id].attempts + 1)];
      job := Some(JobOf(id, rows[id], token));
      log := log.(issued := log.issued[token := job.value]);
    }

    /** The first page of an account with more keys: an attempt, its staged keys and a queue row. */
    method OpenScan(id: nat, run: Option<nat>, source: Source, account: int, scan: nat, now: int, page: KeyPage)
      modifies this
      ensures State() == Open(old(State()), id, run, source, account, scan, now, page)
    {
      staging := staging[scan := Staging({}, {})];
      StageKeys(scan, 1, page.keys);
      assert {} + Elements(page.keys) == Elements(page.keys);
      rows := rows[id := Row(run, source, account, scan, Pending, None, None, now, 0, page.next, page.total, |page.keys|, 1)];
      log := log.(totals := log.totals[scan := {page.total}]);
    }

    /** An account whose keys fit one page. */
    method PublishDirect(account: int, scan: nat, now: int, keys: seq<Fingerprint>, stages: nat)
      requires account in index.owners
      modifies this, index
      ensures State() == Direct(old(State()), account, scan, now, Elements(keys), stages)
    {
      index.PublishScan(account, scan, now, keys, stages);
      log := log.(finalized := log.finalized + {scan}, publications := log.publications + 1);
    }

    /** Keys staged twice are stored once. */
    method StageKeys(scan: nat, pass: nat, keys: seq<Fingerprint>)
      requires scan in staging
      modifies this`staging
      ensures staging == old(staging)[scan := Stage(old(staging)[scan], pass, keys)]
    {
      var i := 0;
      assert Elements(keys[..0]) == {};
      assert Stage(staging[scan], pass, keys[..0]) == staging[scan] by {
        assert staging[scan].pass1 + {} == staging[scan].pass1 && staging[scan].pass2 + {} == staging[scan].pass2;
      }
      while i < |keys|
        invariant 0 <= i <= |keys|
        invariant staging == old(staging)[scan := Stage(old(staging)[scan], pass, keys[..i])]
      {
        assert Elements(keys[..i + 1]) == Elements(keys[..i]) + {keys[i]};
        var st := staging[scan];
        var more := if pass == 2 then st.(pass2 := st.pass2 + {keys[i]}) else st.(pass1 := st.pass1 + {keys[i]});
        assert more == Stage(old(staging)[scan], pass, keys[..i + 1]);
        staging := staging[scan := more];
        i := i + 1;
      }
      assert keys[..i] == keys;
    }

    /** restartOverflowScanTx: the staged keys are deleted first; without the claim that is undone. */
    method RestartScan(job: Job, now: int) returns (ok: bool)
      requires Claimed(job) ==> job.scan in staging
      modifies this
      ensures State() == Restart(old(State()), job, now)
      ensures ok <==> old(Claimed(job))
    {
      var saved := staging;
      staging := staging[job.scan := Staging({}, {})];
      if job.id !in rows || rows[job.id].token != Some(job.token) {
        staging := saved;
        return false;
      }
      var row := rows[job.id];
      rows := rows[job.id := Row(row.run, row.source, row.account, row.scan, Pending, None, None, now + 60, row.attempts, "", -1, 0, 1)];
      log := log.(totals := log.totals[job.scan := {}]);
      ok := true;
    }

    /** An autocommit update: a mismatch is reported, and nothing was changed. */
    method RequeueJob(job: Job, due: int) returns (ok: bool)
      modifies this
      ensures State() == Requeue(old(State()), job, due)
      ensures ok <==> old(Claimed(job))
    {
      if job.id !in rows || rows[job.id].token != Some(job.token) { return false; }
      rows := rows[job.id := rows[job.id].(status := Retry, token := None, lease := None, due := due)];
      ok := true;
    }

    method ReapExpired(now: int)
      modifies this
      ensures State() == Reap(old(State()), now)
    {
      rows := map i | i in rows :: if Expired(rows[i], now) then Released(rows[i], Retry, now) else rows[i];
    }

    method RecoverAll(now: int)
      modifies this
      ensures State() == Recover(old(State()), now)
    {
      rows := map i | i in rows :: if rows[i].status.Running? then Released(rows[i], Retry, now) else rows[i];
    }

    /** CompleteOverflowPageScheduled. */
    method CompletePage(job: Job, page: KeyPage, now: int, stages: nat) returns (ok: bool)
      requires Inv(State()) && Issued(State(), job)
      modifies this, index
      ensures State() == ApplyPage(old(State()), job, page, now, stages)
      ensures ok <==> !Refused(old(State()).scans, job, page)
    {
      ghost var w := State();
      if Claimed(job) { JobCurrent(w, job); }
      var saved := staging;
      var pass := if job.pass == 1 || job.pass == 2 then job.pass else 1;
      var expected := job.expected;
      if expected < 0 && job.cursor == "" { expected := page.total; }
      if page.total != expected { return false; }
      if job.scan !in staging { staging := staging[job.scan := Staging({}, {})]; }
      StageKeys(job.scan, pass, page.keys);
      var observed := job.observed + |page.keys|;
      if observed > expected {
        staging := saved;
        return false;
      }
      if page.hasMore {
        if page.next == "" || page.next == job.cursor || !Claimed(job) {
          staging := saved;
          return false;
        }
        log := log.(totals := log.totals[job.scan := log.totals[job.scan] + {page.total}]);
        rows := rows[job.id := Released(rows[job.id], Pending, now).(cursor := page.next, observed := observed, expected := expected)];
        return true;
      }
      if observed != expected {
        staging := saved;
        return false;
      }
      ok := EndOfPass(job, page, pass, now, stages, w);
      if !ok { staging := saved; }
    }

    /** The page was the last of its pass and is staged. */
    method EndOfPass(job: Job, page: KeyPage, pass: nat, now: int, stages: nat, ghost w: World) returns (ok: bool)
      requires !page.hasMore && pass == PassOf(job) && job.scan in staging
      requires Claimed(job) ==> !Refused(w.scans, job, page) && job.scan in w.log.totals && State() == w.(scans := Accept(w, job, page).scans)
      requires rows == w.scans.rows && index.State() == w.scans.index && log == w.log
      modifies this, index
      ensures ok <==> old(Claimed(job))
      ensures ok ==> State() == ApplyPage(w, job, page, now, stages)
      ensures !ok ==> rows == w.scans.rows && index.State() == w.scans.index && log == w.log
    {
      var st := staging[job.scan];
      var expected := page.total;
      if |Staged(st, pass)| != expected {
        ok := RestartScan(job, now);
        return;
      }
      if pass == 1 {
        if !Claimed(job) { return false; }
        rows := rows[job.id := Released(rows[job.id], Pending, now).(pass := 2, cursor := "", observed := 0, expected := expected)];
        log := log.(totals := log.totals[job.scan := log.totals[job.scan] + {page.total}]);
        return true;
      }
      if st.pass1 != st.pass2 {
        ok := RestartScan(job, now);
        return;
      }
      ok := PublishVerified(job, st.pass2, expected, now, stages);
      if ok { log := log.(totals := log.totals[job.scan := log.totals[job.scan] + {page.total}]); }
    }

    /** Publish the verified set, then delete the row; only then does a stale claim show, and everything is undone. */
    method PublishVerified(job: Job, keys: set<Fingerprint>, expected: nat, now: int, stages: nat) returns (ok: bool)
      requires |keys| == expected && (Claimed(job) ==> job.account in index.owners)
      modifies this, index
      ensures ok <==> old(Claimed(job))
      ensures ok ==> old(job.account in index.owners) && State() == Settle(old(State()), job, now, keys, stages)
      ensures !ok ==> State() == old(State())
    {
      var verified := ReadBack(keys);
      if |verified| != expected || job.account !in index.owners { return false; }
      var savedOwners, savedKeys := index.owners, index.keys;
      index.PublishScan(job.account, job.scan, now, verified, stages);
      if !Claimed(job) {
        index.owners, index.keys := savedOwners, savedKeys;
        return false;
      }
      rows, staging := rows - {job.id}, staging - {job.scan};
      log := log.(finalized := log.finalized + {job.scan}, publications := log.publications + 1);
      ok := true;
    }

    /** The verified rows are read back one by one, in some order. */
    method ReadBack(keys: set<Fingerprint>) returns (verified: seq<Fingerprint>)
      ensures Elements(verified) == keys && |verified| == |keys|
    {
      verified := [];
      var rest := keys;
      while rest != {}
        invariant Elements(verified) + rest == keys && |verified| + |rest| == |keys|
      {
        var f :| f in rest;
        assert Elements(verified + [f]) == Elements(verified) + {f};
        verified := verified + [f];
        rest := rest - {f};
      }
    }

    /** CompleteOverflowFromREST. */
    method CompleteFromREST(job: Job, now: int, keys: seq<Fingerprint>, stages: nat) returns (ok: bool)
      modifies this, index
      ensures State() == FromREST(old(State()), job, now, Elements(keys), stages)
      ensures ok <==> old(Claimed(job))
    {
      var savedOwners, savedKeys := index.owners, index.keys;
      index.Upsert(job.account, now);
      index.PublishScan(job.account, job.scan, now, keys, stages);
      if !Claimed(job) {
        index.owners, index.keys := savedOwners, savedKeys;
        return false;
      }
      rows, staging := rows - {job.id}, staging - {job.scan};
      log := log.(finalized := log.finalized + {job.scan}, publications := log.publications + 1);
      ok := true;
    }
  }
}
