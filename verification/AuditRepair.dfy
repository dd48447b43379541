/**
 The coverage audit with the accounts it lists: what a resolved range guarantees of
 them, and exactly when a range under repair can still be resolved.
 */
module AuditRepair {
  // Staging a range records its accounts and queues a reconcile row for each one not yet
  // successful, unless the account has such a row already, perhaps for another range or
  // another generation; with no new row the range is resolved at once.  Settling the last
  // listed account resolves it later.  So a resolved range need not have settled accounts.

  import opened Prelude
  import A = Audit

  type Listed = map<nat, map<int, bool>>

  type Queued = map<int, Option<nat>>

  type Scans = map<nat, (int, Option<nat>)>

  /**
   `listed` is coverage_partition_ids: range, account, resolved flag.  `queued` are the
   reconcile rows of account_queue, of which there is at most one for an account, and
   `scans` the overflow rows such accounts move to; both name the range they are for,
   or none if it belongs to another generation.  `elsewhere` is history: the accounts
   of a range settled for another generation since the range was staged.
   */
  datatype World = World(
    audit: A.World, listed: Listed, queued: Queued, scans: Scans,
    successful: set<int>, inaccessible: set<int>, elsewhere: set<(nat, int)>)

  datatype Op =
    | Auditing(op: A.Op)                       // any step of the audit but staging and settling
    | StageRange(accounts: seq<int>)
    | QueueElsewhere(account: int)             // another generation queues the account
    | Complete(account: int, gone: bool)       // its reconcile row is completed, or the account was inaccessible
    | Overflow(account: int, id: nat)          // its keys need an overflow scan
    | FinishScan(id: nat)
    | Mark(account: int, gone: bool)           // the crawl settles the account otherwise

  function Flags(accounts: seq<int>, successful: set<int>): map<int, bool> { map x | x in accounts :: x in successful }

  /** The accounts that get a new row. */
  function Missing(w: World, accounts: seq<int>): set<int> {
    set x | x in accounts && x !in w.successful && x !in w.queued
  }

  /** StageCoveragePartition. */
  function StepStage(w: World, accounts: seq<int>, cutoff: int, generation: int): World {
    if w.audit.current.None? || w.audit.current.value >= |w.audit.parts| then w
    else
      var p, added := w.audit.current.value, Missing(w, accounts);
      w.(audit := A.Step(w.audit, A.Stage(added != {}), cutoff, generation),
         listed := w.listed[p := Flags(accounts, w.successful)],
         elsewhere := (set t | t in w.elsewhere && t.0 != p),
         queued := w.queued + (map x | x in added :: Some(p)))
  }

  function Marked(w: World, x: int, gone: bool): World {
    if gone then w.(inaccessible := w.inaccessible + {x}) else w.(successful := w.successful + {x})
  }

  predicate AllFlagged(flags: map<int, bool>) { forall x :: x in flags ==> flags[x] }

  /** Account x is settled on behalf of a range. */
  function Settled(w: World, part: Option<nat>, x: int, gone: bool, cutoff: int, generation: int): World {
    match part
    case None => w.(elsewhere := w.elsewhere + set p | p in w.listed && x in w.listed[p] :: (p, x))
    case Some(p) =>
      if p !in w.listed || x !in w.listed[p] then Marked(w, x, gone)
      else
        var flags := w.listed[p][x := true];
        Marked(w, x, gone).(
          listed := w.listed[p := flags],
          audit := if AllFlagged(flags) then A.Step(w.audit, A.Settle(p), cutoff, generation) else w.audit)
  }

  function Step(w: World, op: Op, cutoff: int, generation: int): World {
    match op
    case Auditing(o) => if o.Stage? || o.Settle? then w else w.(audit := A.Step(w.audit, o, cutoff, generation))
    case StageRange(accounts) => StepStage(w, accounts, cutoff, generation)
    case QueueElsewhere(x) => if x in w.queued then w else w.(queued := w.queued[x := None])
    case Complete(x, gone) =>
      if x !in w.queued then w else Settled(w.(queued := w.queued - {x}), w.queued[x], x, gone, cutoff, generation)
    case Overflow(x, id) =>
      if x !in w.queued || id in w.scans then w else w.(queued := w.queued - {x}, scans := w.scans[id := (x, w.queued[x])])
    case FinishScan(id) =>
      if id !in w.scans then w
      else Settled(w.(scans := w.scans - {id}), w.scans[id].1, w.scans[id].0, false, cutoff, generation)
    case Mark(x, gone) => Marked(w, x, gone)
  }

  function Init(cutoff: int): World { World(A.World(A.Seed([], cutoff), None, A.Auditing), map[], map[], map[], {}, {}, {}) }

  function Run(w: World, ops: seq<Op>, cutoff: int, generation: int): World {
    if |ops| == 0 then w else Step(Run(w, ops[..|ops| - 1], cutoff, generation), ops[|ops| - 1], cutoff, generation)
  }

  function Execute(ops: seq<Op>, cutoff: int, generation: int): World { Run(Init(cutoff), ops, cutoff, generation) }

  // -------------------------------------------------------------- invariants

  predicate Staged(parts: seq<A.Part>, p: nat) { p < |parts| && (parts[p].status.Repairing? || parts[p].status.Resolved?) }

  predicate Scanned(scans: Scans, x: int, part: Option<nat>) { exists i :: i in scans && scans[i] == (x, part) }

  /** A row or a scan of the account is under way for the range. */
  predicate Outstanding(queued: Queued, scans: Scans, x: int, part: Option<nat>) {
    (x in queued && queued[x] == part) || Scanned(scans, x, part)
  }

  ghost predicate UnderWay(queued: Queued, scans: Scans, x: int) { exists part :: Outstanding(queued, scans, x, part) }

  /** Listed for the range and not settled there. */
  predicate Open(listed: Listed, p: nat, x: int) { p in listed && x in listed[p] && !listed[p][x] }

  /** What is under way for a range is open there, and under way only once. */
  ghost predicate JobsOk(listed: Listed, queued: Queued, scans: Scans) {
    && (forall x, p: nat :: Outstanding(queued, scans, x, Some(p)) ==> Open(listed, p, x))
    && (forall x :: x in queued && queued[x].Some? ==> !Scanned(scans, x, queued[x]))
    && (forall i, j :: i in scans && j in scans && i != j && scans[i].1.Some? ==> scans[i] != scans[j])
  }

  predicate HasBit(w: World, x: int) { x in w.successful || x in w.inaccessible }

  /** A listed account has its bit, or work on it is under way, or it was settled for another generation since. */
  ghost predicate AccountKept(w: World, p: nat, x: int) {
    HasBit(w, x) || UnderWay(w.queued, w.scans, x) || (p, x) in w.elsewhere
  }

  ghost predicate FlagOk(w: World, p: nat, x: int) {
    p in w.listed && x in w.listed[p] ==> AccountKept(w, p, x) && (w.listed[p][x] ==> HasBit(w, x))
  }

  ghost predicate FlagsOk(w: World) { forall p: nat, x :: FlagOk(w, p, x) }

  /** A staged range with a list, under repair as long as an account is open for it. */
  ghost predicate RangeOk(parts: seq<A.Part>, listed: Listed, queued: Queued, scans: Scans, p: nat) {
    && (p in listed <==> Staged(parts, p))
    && (p in listed && parts[p].status.Repairing? ==> !AllFlagged(listed[p]))
    && (p in listed && parts[p].status.Resolved? ==> forall x :: !Outstanding(queued, scans, x, Some(p)))
  }

  ghost predicate RangesOk(parts: seq<A.Part>, listed: Listed, queued: Queued, scans: Scans) {
    forall p: nat :: RangeOk(parts, listed, queued, scans, p)
  }

  ghost predicate Inv(w: World, cutoff: int) {
    && A.Inv(w.audit, cutoff) && JobsOk(w.listed, w.queued, w.scans) && FlagsOk(w)
    && RangesOk(w.audit.parts, w.listed, w.queued, w.scans)
  }

  // --------------------------------------------------------------- settling

  /** The row of x is gone, and what became of x is not yet recorded. */
  ghost predicate Removed(w: World, part: Option<nat>, x: int) {
    && JobsOk(w.listed, w.queued, w.scans) && RangesOk(w.audit.parts, w.listed, w.queued, w.scans)
    && (forall p: nat, y :: y != x ==> FlagOk(w, p, y))
    && (forall p: nat :: p in w.listed && x in w.listed[p] && w.listed[p][x] ==> HasBit(w, x))
    && (part.Some? ==>
          && Open(w.listed, part.value, x) && !Outstanding(w.queued, w.scans, x, part)
          && Staged(w.audit.parts, part.value) && w.audit.parts[part.value].status.Repairing?)
  }

  lemma SettledFlags(w: World, part: Option<nat>, x: int, gone: bool, cutoff: int, generation: int)
    requires Removed(w, part, x)
    ensures FlagsOk(Settled(w, part, x, gone, cutoff, generation))
  {
    var w' := Settled(w, part, x, gone, cutoff, generation);
    assert w'.queued == w.queued && w'.scans == w.scans;
    forall p: nat, y
      ensures FlagOk(w', p, y)
    {
      assert y != x ==> FlagOk(w, p, y);
    }
  }

  lemma SettledAudit(audit: A.World, p: nat, cutoff: int, generation: int)
    requires A.Inv(audit, cutoff) && p < |audit.parts| && audit.parts[p].status.Repairing?
    ensures var after := A.Step(audit, A.Settle(p), cutoff, generation);
            && A.Inv(after, cutoff) && |after.parts| == |audit.parts| && after.parts[p].status.Resolved?
            && (forall q: nat :: q < |audit.parts| && q != p ==> after.parts[q] == audit.parts[q])
  {
    A.StepKeeps(audit, A.Settle(p), cutoff, generation);
  }

  lemma FlaggedJobs(listed: Listed, queued: Queued, scans: Scans, p: nat, x: int)
    requires JobsOk(listed, queued, scans) && Open(listed, p, x) && !Outstanding(queued, scans, x, Some(p))
    ensures JobsOk(listed[p := listed[p][x := true]], queued, scans)
  {
    var listed' := listed[p := listed[p][x := true]];
    forall y, q: nat | Outstanding(queued, scans, y, Some(q))
      ensures Open(listed', q, y)
    {
      assert Open(listed, q, y);
    }
  }

  lemma FlaggedRanges(parts: seq<A.Part>, parts': seq<A.Part>, listed: Listed, queued: Queued, scans: Scans, p: nat, x: int)
    requires Open(listed, p, x) && p < |parts| == |parts'| && parts[p].status.Repairing?
    requires RangesOk(parts, listed, queued, scans) && JobsOk(listed[p := listed[p][x := true]], queued, scans)
    requires forall q: nat :: q < |parts| && q != p ==> parts'[q] == parts[q]
    requires if AllFlagged(listed[p][x := true]) then parts'[p].status.Resolved? else parts'[p] == parts[p]
    ensures RangesOk(parts', listed[p := listed[p][x := true]], queued, scans)
  {
    var listed' := listed[p := listed[p][x := true]];
    forall q: nat
      ensures RangeOk(parts', listed', queued, scans, q)
    {
      assert RangeOk(parts, listed, queued, scans, q);
      if q == p && parts'[p].status.Resolved? {
        assert forall y :: Outstanding(queued, scans, y, Some(p)) ==> Open(listed', p, y);
      }
    }
  }

  lemma SettledKeeps(w: World, part: Option<nat>, x: int, gone: bool, cutoff: int, generation: int)
    requires A.Inv(w.audit, cutoff) && Removed(w, part, x)
    ensures Inv(Settled(w, part, x, gone, cutoff, generation), cutoff)
  {
    var w' := Settled(w, part, x, gone, cutoff, generation);
    SettledFlags(w, part, x, gone, cutoff, generation);
    assert w'.queued == w.queued && w'.scans == w.scans;
    if part.Some? {
      var p := part.value;
      assert w'.listed == w.listed[p := w.listed[p][x := true]];
      SettledAudit(w.audit, p, cutoff, generation);
      FlaggedJobs(w.listed, w.queued, w.scans, p, x);
      FlaggedRanges(w.audit.parts, w'.audit.parts, w.listed, w.queued, w.scans, p, x);
    }
  }

  // ------------------------------------------------------------- other steps

  /** Work on other accounts stays, and none is new. */
  ghost predicate OthersWork(queued: Queued, scans: Scans, queued': Queued, scans': Scans, x: int) {
    && (forall y, q :: Outstanding(queued', scans', y, q) ==> Outstanding(queued, scans, y, q))
    && (forall y, q :: Outstanding(queued, scans, y, q) && y != x ==> Outstanding(queued', scans', y, q))
  }

  lemma UnderWayStays(queued: Queued, scans: Scans, queued': Queued, scans': Scans, x: int, y: int)
    requires OthersWork(queued, scans, queued', scans', x) && y != x && UnderWay(queued, scans, y)
    ensures UnderWay(queued', scans', y)
  {
    var q :| Outstanding(queued, scans, y, q);
    assert Outstanding(queued', scans', y, q);
  }

  lemma RemovedRow(w: World, queued': Queued, scans': Scans, x: int, part: Option<nat>)
    requires JobsOk(w.listed, w.queued, w.scans) && JobsOk(w.listed, queued', scans')
    requires FlagsOk(w) && RangesOk(w.audit.parts, w.listed, w.queued, w.scans)
    requires Outstanding(w.queued, w.scans, x, part) && OthersWork(w.queued, w.scans, queued', scans', x)
    requires part.Some? ==> !Outstanding(queued', scans', x, part)
    ensures Removed(w.(queued := queued', scans := scans'), part, x)
  {
    var w' := w.(queued := queued', scans := scans');
    forall p: nat, y | y != x
      ensures FlagOk(w', p, y)
    {
      assert FlagOk(w, p, y);
      if UnderWay(w.queued, w.scans, y) { UnderWayStays(w.queued, w.scans, queued', scans', x, y); }
    }
    forall p: nat
      ensures RangeOk(w.audit.parts, w.listed, queued', scans', p)
      ensures p in w.listed && x in w.listed[p] && w.listed[p][x] ==> HasBit(w', x)
    {
      assert RangeOk(w.audit.parts, w.listed, w.queued, w.scans, p) && FlagOk(w, p, x);
    }
    if part.Some? { assert RangeOk(w.audit.parts, w.listed, w.queued, w.scans, part.value); }
  }

  lemma FewerJobs(listed: Listed, queued: Queued, scans: Scans, x: int, id: nat)
    requires JobsOk(listed, queued, scans)
    ensures JobsOk(listed, queued - {x}, scans) && JobsOk(listed, queued, scans - {id})
    ensures OthersWork(queued, scans, queued - {x}, scans, x)
    ensures x in queued ==> (queued[x].Some? ==> !Outstanding(queued - {x}, scans, x, queued[x]))
    ensures id in scans ==> OthersWork(queued, scans, queued, scans - {id}, scans[id].0)
    ensures id in scans ==> (scans[id].1.Some? ==> !Outstanding(queued, scans - {id}, scans[id].0, scans[id].1))
  {
    if id in scans {
      assert Scanned(scans, scans[id].0, scans[id].1);
      forall y, q | Scanned(scans, y, q) && y != scans[id].0
        ensures Scanned(scans - {id}, y, q)
      {
        var i :| i in scans && scans[i] == (y, q);
        assert i in scans - {id} && (scans - {id})[i] == (y, q);
      }
    }
    forall y, q | Scanned(scans - {id}, y, q)
      ensures Scanned(scans, y, q)
    {
      var i :| i in scans - {id} && (scans - {id})[i] == (y, q);
      assert i in scans && scans[i] == (y, q);
    }
  }

  lemma CompleteKeeps(w: World, x: int, gone: bool, cutoff: int, generation: int)
    requires Inv(w, cutoff)
    ensures Inv(Step(w, Complete(x, gone), cutoff, generation), cutoff)
  {
    if x in w.queued {
      assert Outstanding(w.queued, w.scans, x, w.queued[x]);
      FewerJobs(w.listed, w.queued, w.scans, x, 0);
      RemovedRow(w, w.queued - {x}, w.scans, x, w.queued[x]);
      SettledKeeps(w.(queued := w.queued - {x}), w.queued[x], x, gone, cutoff, generation);
    }
  }

  lemma FinishKeeps(w: World, id: nat, cutoff: int, generation: int)
    requires Inv(w, cutoff)
    ensures Inv(Step(w, FinishScan(id), cutoff, generation), cutoff)
  {
    if id in w.scans {
      assert Scanned(w.scans, w.scans[id].0, w.scans[id].1);
      FewerJobs(w.listed, w.queued, w.scans, 0, id);
      RemovedRow(w, w.queued, w.scans - {id}, w.scans[id].0, w.scans[id].1);
      SettledKeeps(w.(scans := w.scans - {id}), w.scans[id].1, w.scans[id].0, false, cutoff, generation);
    }
  }

  /** Lists stay, bits only come, and the ranges have the same work. */
  lemma MoreKeeps(w: World, w': World, cutoff: int)
    requires Inv(w, cutoff) && w'.audit == w.audit && w'.listed == w.listed && w'.elsewhere == w.elsewhere
    requires w.successful <= w'.successful && w.inaccessible <= w'.inaccessible
    requires JobsOk(w'.listed, w'.queued, w'.scans)
    requires forall y, q :: Outstanding(w.queued, w.scans, y, q) ==> Outstanding(w'.queued, w'.scans, y, q)
    requires forall y, p: nat :: Outstanding(w'.queued, w'.scans, y, Some(p)) ==> Outstanding(w.queued, w.scans, y, Some(p))
    ensures Inv(w', cutoff)
  {
    forall p: nat, y
      ensures FlagOk(w', p, y)
    {
      assert FlagOk(w, p, y);
      if UnderWay(w.queued, w.scans, y) {
        var q :| Outstanding(w.queued, w.scans, y, q);
        assert Outstanding(w'.queued, w'.scans, y, q);
      }
    }
    forall p: nat
      ensures RangeOk(w'.audit.parts, w'.listed, w'.queued, w'.scans, p)
    {
      assert RangeOk(w.audit.parts, w.listed, w.queued, w.scans, p);
    }
  }

  lemma MovedJobs(listed: Listed, queued: Queued, scans: Scans, x: int, id: nat)
    requires JobsOk(listed, queued, scans) && x in queued && id !in scans
    ensures var queued', scans' := queued - {x}, scans[id := (x, queued[x])];
            && JobsOk(listed, queued', scans')
            && (forall y, q :: Outstanding(queued', scans', y, q) <==> Outstanding(queued, scans, y, q))
  {
    var queued', scans' := queued - {x}, scans[id := (x, queued[x])];
    forall y, q
      ensures Scanned(scans', y, q) <==> Scanned(scans, y, q) || (y, q) == (x, queued[x])
    {
      if Scanned(scans, y, q) {
        var i :| i in scans && scans[i] == (y, q);
        assert i in scans' && scans'[i] == (y, q);
      }
      if (y, q) == (x, queued[x]) { assert id in scans' && scans'[id] == (y, q); }
    }
    forall i, j | i in scans' && j in scans' && i != j && scans'[i].1.Some?
      ensures scans'[i] != scans'[j]
    {
      if queued[x].Some? { assert !Scanned(scans, x, queued[x]); }
    }
  }

  lemma OverflowKeeps(w: World, x: int, id: nat, cutoff: int, generation: int)
    requires Inv(w, cutoff)
    ensures Inv(Step(w, Overflow(x, id), cutoff, generation), cutoff)
  {
    if x in w.queued && id !in w.scans {
      MovedJobs(w.listed, w.queued, w.scans, x, id);
      MoreKeeps(w, Step(w, Overflow(x, id), cutoff, generation), cutoff);
    }
  }

  lemma QueueKeeps(w: World, x: int, cutoff: int, generation: int)
    requires Inv(w, cutoff)
    ensures Inv(Step(w, QueueElsewhere(x), cutoff, generation), cutoff)
  {
    MoreKeeps(w, Step(w, QueueElsewhere(x), cutoff, generation), cutoff);
  }

  lemma AuditSide(audit: A.World, op: A.Op, cutoff: int, generation: int)
    requires A.Inv(audit, cutoff) && !op.Stage? && !op.Settle?
    ensures var after := A.Step(audit, op, cutoff, generation);
            && (forall p: nat :: Staged(after.parts, p) <==> Staged(audit.parts, p))
            && (forall p: nat :: Staged(audit.parts, p) ==> after.parts[p] == audit.parts[p])
  {
    if op.SeedUpTo? {
      A.SeedAgain(audit.parts, cutoff);
    } else if (op.Retry? || op.Agree? || op.SplitCurrent?) && audit.current.Some? {
      HandledSide(audit.parts, audit.current.value, op, generation);
    }
  }

  lemma HandledSide(parts: seq<A.Part>, i: nat, op: A.Op, generation: int)
    requires i < |parts| && parts[i].status.Enumerating? && (op.Retry? || op.Agree? || op.SplitCurrent?)
    ensures var after := A.Handle(parts, i, op, generation);
            && (forall p: nat :: Staged(after, p) <==> Staged(parts, p))
            && (forall p: nat :: Staged(parts, p) ==> after[p] == parts[p])
  {
  }

  lemma AuditKeeps(w: World, op: A.Op, cutoff: int, generation: int)
    requires Inv(w, cutoff) && !op.Stage? && !op.Settle?
    ensures Inv(w.(audit := A.Step(w.audit, op, cutoff, generation)), cutoff)
  {
    var w' := w.(audit := A.Step(w.audit, op, cutoff, generation));
    A.StepKeeps(w.audit, op, cutoff, generation);
    AuditSide(w.audit, op, cutoff, generation);
    forall p: nat
      ensures RangeOk(w'.audit.parts, w'.listed, w'.queued, w'.scans, p)
    {
      assert RangeOk(w.audit.parts, w.listed, w.queued, w.scans, p);
    }
    forall p: nat, y
      ensures FlagOk(w', p, y)
    {
      assert FlagOk(w, p, y);
    }
  }

  lemma StagedJobs(w: World, p: nat, accounts: seq<int>)
    requires JobsOk(w.listed, w.queued, w.scans) && p !in w.listed
    ensures var queued' := w.queued + (map x | x in Missing(w, accounts) :: Some(p));
            && JobsOk(w.listed[p := Flags(accounts, w.successful)], queued', w.scans)
            && (forall y, q :: Outstanding(w.queued, w.scans, y, q) ==> Outstanding(queued', w.scans, y, q))
            && (forall y :: Outstanding(queued', w.scans, y, Some(p)) <==> y in Missing(w, accounts))
            && (forall y, q: nat :: q != p && Outstanding(queued', w.scans, y, Some(q)) ==>
                  Outstanding(w.queued, w.scans, y, Some(q)))
  {
    var listed' := w.listed[p := Flags(accounts, w.successful)];
    var queued' := w.queued + (map x | x in Missing(w, accounts) :: Some(p));
    forall y
      ensures !Outstanding(w.queued, w.scans, y, Some(p)) && !Scanned(w.scans, y, Some(p))
    {
      assert Outstanding(w.queued, w.scans, y, Some(p)) ==> Open(w.listed, p, y);
    }
    forall y, part | Outstanding(queued', w.scans, y, part)
      ensures if part == Some(p) then y in Missing(w, accounts) && Open(listed', p, y)
              else Outstanding(w.queued, w.scans, y, part)
    {
      if y in queued' && y !in Missing(w, accounts) { assert queued'[y] == w.queued[y]; }
    }
    forall y | y in Missing(w, accounts)
      ensures Outstanding(queued', w.scans, y, Some(p))
    {
      assert queued'[y] == Some(p);
    }
    forall y, q: nat | Outstanding(queued', w.scans, y, Some(q))
      ensures Open(listed', q, y)
    {
      if q != p { assert Open(w.listed, q, y); }
    }
    forall y | y in queued' && queued'[y].Some?
      ensures !Scanned(w.scans, y, queued'[y])
    {
      if y !in Missing(w, accounts) { assert !Scanned(w.scans, y, w.queued[y]); }
    }
  }

  lemma StageKeeps(w: World, accounts: seq<int>, cutoff: int, generation: int)
    requires Inv(w, cutoff)
    ensures Inv(StepStage(w, accounts, cutoff, generation), cutoff)
  {
    if w.audit.current.Some? {
      var p := w.audit.current.value;
      var w' := StepStage(w, accounts, cutoff, generation);
      A.StepKeeps(w.audit, A.Stage(Missing(w, accounts) != {}), cutoff, generation);
      assert RangeOk(w.audit.parts, w.listed, w.queued, w.scans, p);
      StagedJobs(w, p, accounts);
      StagedFlags(w, w', p, accounts);
      StagedRanges(w, w', p, accounts);
    }
  }

  lemma StagedFlags(w: World, w': World, p: nat, accounts: seq<int>)
    requires FlagsOk(w) && w'.successful == w.successful && w'.inaccessible == w.inaccessible && w'.scans == w.scans
    requires w'.listed == w.listed[p := Flags(accounts, w.successful)]
    requires w'.queued == w.queued + (map x | x in Missing(w, accounts) :: Some(p))
    requires forall t :: t in w.elsewhere && t.0 != p ==> t in w'.elsewhere
    requires forall y, q :: Outstanding(w.queued, w.scans, y, q) ==> Outstanding(w'.queued, w.scans, y, q)
    ensures FlagsOk(w')
  {
    forall q: nat, y
      ensures FlagOk(w', q, y)
    {
      assert FlagOk(w, q, y);
      if UnderWay(w.queued, w.scans, y) {
        var part :| Outstanding(w.queued, w.scans, y, part);
        assert Outstanding(w'.queued, w'.scans, y, part);
      }
      if q == p && y in accounts && y !in w.successful { assert Outstanding(w'.queued, w'.scans, y, w'.queued[y]); }
    }
  }

  lemma StagedRanges(w: World, w': World, p: nat, accounts: seq<int>)
    requires RangesOk(w.audit.parts, w.listed, w.queued, w.scans) && p < |w.audit.parts|
    requires w'.audit.parts == A.SetStatus(w.audit.parts, p, if Missing(w, accounts) != {} then A.Repairing else A.Resolved)
    requires w'.listed == w.listed[p := Flags(accounts, w.successful)] && w'.scans == w.scans
    requires forall y :: Outstanding(w'.queued, w.scans, y, Some(p)) <==> y in Missing(w, accounts)
    requires forall y, q: nat :: q != p && Outstanding(w'.queued, w.scans, y, Some(q)) ==>
               Outstanding(w.queued, w.scans, y, Some(q))
    ensures RangesOk(w'.audit.parts, w'.listed, w'.queued, w'.scans)
  {
    forall q: nat
      ensures RangeOk(w'.audit.parts, w'.listed, w'.queued, w'.scans, q)
    {
      assert RangeOk(w.audit.parts, w.listed, w.queued, w.scans, q);
      if q == p && Missing(w, accounts) != {} {
        HasElement(Missing(w, accounts));
        var x :| x in Missing(w, accounts);
        assert !w'.listed[p][x];
      }
    }
  }

  lemma StepKeeps(w: World, op: Op, cutoff: int, generation: int)
    requires Inv(w, cutoff)
    ensures Inv(Step(w, op, cutoff, generation), cutoff)
  {
    match op
    case Auditing(o) => if !o.Stage? && !o.Settle? { AuditKeeps(w, o, cutoff, generation); }
    case StageRange(accounts) => StageKeeps(w, accounts, cutoff, generation);
    case QueueElsewhere(x) => QueueKeeps(w, x, cutoff, generation);
    case Complete(x, gone) => CompleteKeeps(w, x, gone, cutoff, generation);
    case Overflow(x, id) => OverflowKeeps(w, x, id, cutoff, generation);
    case FinishScan(id) => FinishKeeps(w, id, cutoff, generation);
    case Mark(x, gone) => MoreKeeps(w, Marked(w, x, gone), cutoff);
  }

  lemma InitKeeps(cutoff: int)
    ensures Inv(Init(cutoff), cutoff)
  {
    A.SeedKeeps(cutoff);
    if cutoff >= 0 { A.SeedPending(cutoff, cutoff / A.DAY + 1); }
  }

  lemma {:induction false} Onwards(w: World, ops: seq<Op>, cutoff: int, generation: int)
    requires Inv(w, cutoff)
    ensures Inv(Run(w, ops, cutoff, generation), cutoff)
  {
    if |ops| > 0 {
      Onwards(w, ops[..|ops| - 1], cutoff, generation);
      StepKeeps(Run(w, ops[..|ops| - 1], cutoff, generation), ops[|ops| - 1], cutoff, generation);
    }
  }

  lemma EveryRunKeeps(ops: seq<Op>, cutoff: int, generation: int)
    ensures Inv(Execute(ops, cutoff, generation), cutoff)
  {
    InitKeeps(cutoff);
    Onwards(Init(cutoff), ops, cutoff, generation);
  }

  // -------------------------------------------------------------- guarantees

  /**
   Nothing listed is forgotten: each account listed for a range has its bit in this
   generation, or a row or scan of it is under way, or it was settled for another
   generation since the range was staged; and it is flagged only with its bit.
   */
  lemma ListedKept(ops: seq<Op>, cutoff: int, generation: int, p: nat, x: int)
    requires p in Execute(ops, cutoff, generation).listed && x in Execute(ops, cutoff, generation).listed[p]
    ensures AccountKept(Execute(ops, cutoff, generation), p, x)
    ensures Execute(ops, cutoff, generation).listed[p][x] ==> HasBit(Execute(ops, cutoff, generation), x)
  {
    EveryRunKeeps(ops, cutoff, generation);
    assert FlagOk(Execute(ops, cutoff, generation), p, x);
  }

  /**
   What a reconciled generation means: each of its seconds lies in a range whose counts
   agreed, or in a resolved one, of which every listed account is kept in that sense.
   */
  lemma ReconciledMeans(ops: seq<Op>, cutoff: int, generation: int, t: int) returns (j: nat)
    requires 0 <= t <= cutoff && Execute(ops, cutoff, generation).audit.verdict.CountReconciled?
    ensures var w := Execute(ops, cutoff, generation);
            && j < |w.audit.parts| && A.Within(w.audit.parts[j].range, t)
            && (w.audit.parts[j].status.CountConsistent?
                || (&& w.audit.parts[j].status.Resolved? && j in w.listed
                    && forall x :: x in w.listed[j] ==> AccountKept(w, j, x)))
  {
    EveryRunKeeps(ops, cutoff, generation);
    var w := Execute(ops, cutoff, generation);
    j := A.CoveredIn(w.audit, cutoff, t);
    assert RangeOk(w.audit.parts, w.listed, w.queued, w.scans, j);
    if w.audit.parts[j].status.Resolved? {
      assert Staged(w.audit.parts, j);
      forall x | x in w.listed[j] ensures AccountKept(w, j, x) { assert FlagOk(w, j, x); }
    }
  }

  lemma RunMore(w: World, ops: seq<Op>, op: Op, cutoff: int, generation: int)
    ensures Run(w, ops + [op], cutoff, generation) == Step(Run(w, ops, cutoff, generation), op, cutoff, generation)
  {
    assert (ops + [op])[..|ops|] == ops;
  }

  const FIRST_DAY := A.Range(0, 0)

  function OneRange(status: A.Status, current: Option<nat>, verdict: A.Verdict): A.World {
    A.World([A.Part(FIRST_DAY, false, status)], current, verdict)
  }

  lemma FirstDay()
    ensures Init(0).audit == OneRange(A.Pending, None, A.Auditing)
  {
    assert A.SeedDays([], 0, 1) == A.Insert(A.SeedDays([], 0, 0), A.DayRange(0, 0), false);
  }

  /** Account 7 is queued by another generation, and the range in hand is the only one. */
  function Rival(): World {
    World(OneRange(A.Enumerating, Some(0), A.Auditing), map[], map[7 := None], map[], {}, {}, {})
  }

  lemma RivalReached() returns (ops: seq<Op>)
    ensures Execute(ops, 0, 1) == Rival()
  {
    FirstDay();
    ops := [QueueElsewhere(7), Auditing(A.Claim(0))];
    assert ops == [] + [QueueElsewhere(7)] + [Auditing(A.Claim(0))];
    RunMore(Init(0), [], QueueElsewhere(7), 0, 1);
    RunMore(Init(0), [] + [QueueElsewhere(7)], Auditing(A.Claim(0)), 0, 1);
  }

  /** Yet a generation can be reconciled although a listed account was settled by nobody. */
  lemma ReconciledUnsettled() returns (ops: seq<Op>)
    ensures var w := Execute(ops, 0, 1);
            && w.audit == OneRange(A.Resolved, None, A.CountReconciled)
            && w.listed == map[0 := map[7 := false]] && !HasBit(w, 7) && w.elsewhere == {}
  {
    var before := RivalReached();
    ops := before + [StageRange([7])] + [Auditing(A.Finalize)];
    RunMore(Init(0), before, StageRange([7]), 0, 1);
    RunMore(Init(0), before + [StageRange([7])], Auditing(A.Finalize), 0, 1);
    var w := StepStage(Rival(), [7], 0, 1);
    assert Missing(Rival(), [7]) == {} && Flags([7], {}) == map[7 := false];
    assert w.audit == OneRange(A.Resolved, None, A.Auditing);
    assert w.listed == map[0 := map[7 := false]];
    assert A.Step(w.audit, A.Finalize, 0, 1) == OneRange(A.Resolved, None, A.CountReconciled);
  }

  // ---------------------------------------------- what can still be resolved

  /** The account is open for a range under repair, and nothing under way will settle it there. */
  ghost predicate Stuck(w: World, p: nat, x: int) {
    && p < |w.audit.parts| && w.audit.parts[p].status.Repairing?
    && Open(w.listed, p, x) && !Outstanding(w.queued, w.scans, x, Some(p))
  }

  lemma SettledStuck(w: World, part: Option<nat>, y: int, gone: bool, cutoff: int, generation: int, p: nat, x: int)
    requires Stuck(w, p, x) && (part == Some(p) ==> y != x)
    ensures Stuck(Settled(w, part, y, gone, cutoff, generation), p, x)
  {
    var w' := Settled(w, part, y, gone, cutoff, generation);
    assert w'.queued == w.queued && w'.scans == w.scans;
    if part.Some? && part.value in w.listed && y in w.listed[part.value] {
      var flags := w.listed[part.value][y := true];
      if part.value == p { assert x in flags && !flags[x]; }
      assert w'.listed == w.listed[part.value := flags];
    }
  }

  lemma FewerScans(scans: Scans, id: nat, x: int, part: Option<nat>)
    requires Scanned(scans - {id}, x, part)
    ensures Scanned(scans, x, part)
  {
    var i :| i in scans - {id} && (scans - {id})[i] == (x, part);
    assert i in scans && scans[i] == (x, part);
  }

  lemma FewerStuck(w: World, p: nat, x: int, y: int, id: nat)
    requires Stuck(w, p, x)
    ensures Stuck(w.(queued := w.queued - {y}), p, x) && (y in w.queued && w.queued[y] == Some(p) ==> y != x)
    ensures Stuck(w.(scans := w.scans - {id}), p, x) && (id in w.scans && w.scans[id].1 == Some(p) ==> w.scans[id].0 != x)
  {
    if id in w.scans && w.scans[id].1 == Some(p) { assert Scanned(w.scans, w.scans[id].0, Some(p)); }
    assert Scanned(w.scans - {id}, x, Some(p)) ==> Scanned(w.scans, x, Some(p)) by {
      if Scanned(w.scans - {id}, x, Some(p)) { FewerScans(w.scans, id, x, Some(p)); }
    }
  }

  lemma CompleteStuck(w: World, y: int, gone: bool, cutoff: int, generation: int, p: nat, x: int)
    requires Stuck(w, p, x)
    ensures Stuck(Step(w, Complete(y, gone), cutoff, generation), p, x)
  {
    if y in w.queued {
      FewerStuck(w, p, x, y, 0);
      SettledStuck(w.(queued := w.queued - {y}), w.queued[y], y, gone, cutoff, generation, p, x);
    }
  }

  lemma FinishStuck(w: World, id: nat, cutoff: int, generation: int, p: nat, x: int)
    requires Stuck(w, p, x)
    ensures Stuck(Step(w, FinishScan(id), cutoff, generation), p, x)
  {
    if id in w.scans {
      FewerStuck(w, p, x, 0, id);
      SettledStuck(w.(scans := w.scans - {id}), w.scans[id].1, w.scans[id].0, false, cutoff, generation, p, x);
    }
  }

  lemma StageStuck(w: World, accounts: seq<int>, cutoff: int, generation: int, p: nat, x: int)
    requires JobsOk(w.listed, w.queued, w.scans) && RangesOk(w.audit.parts, w.listed, w.queued, w.scans) && Stuck(w, p, x)
    requires w.audit.current.Some? ==>
               var c := w.audit.current.value; c < |w.audit.parts| && w.audit.parts[c].status.Enumerating?
    ensures Stuck(StepStage(w, accounts, cutoff, generation), p, x)
  {
    if w.audit.current.Some? {
      var c := w.audit.current.value;
      assert RangeOk(w.audit.parts, w.listed, w.queued, w.scans, c);
      StagedJobs(w, c, accounts);
    }
  }

  lemma OverflowStuck(w: World, y: int, id: nat, cutoff: int, generation: int, p: nat, x: int)
    requires JobsOk(w.listed, w.queued, w.scans) && Stuck(w, p, x)
    ensures Stuck(Step(w, Overflow(y, id), cutoff, generation), p, x)
  {
    if y in w.queued && id !in w.scans { MovedJobs(w.listed, w.queued, w.scans, y, id); }
  }

  lemma AuditStuck(w: World, op: A.Op, cutoff: int, generation: int, p: nat, x: int)
    requires A.Inv(w.audit, cutoff) && Stuck(w, p, x)
    ensures Stuck(Step(w, Auditing(op), cutoff, generation), p, x)
  {
    if !op.Stage? && !op.Settle? {
      AuditSide(w.audit, op, cutoff, generation);
      assert Staged(w.audit.parts, p);
    }
  }

  lemma CurrentFact(w: World, cutoff: int)
    requires Inv(w, cutoff) && w.audit.current.Some?
    ensures w.audit.current.value < |w.audit.parts| && w.audit.parts[w.audit.current.value].status.Enumerating?
  {
  }

  lemma StuckStep(w: World, op: Op, cutoff: int, generation: int, p: nat, x: int)
    requires Inv(w, cutoff) && Stuck(w, p, x)
    ensures Stuck(Step(w, op, cutoff, generation), p, x)
  {
    match op
    case Auditing(o) => AuditStuck(w, o, cutoff, generation, p, x);
    case StageRange(accounts) =>
      if w.audit.current.Some? { CurrentFact(w, cutoff); }
      StageStuck(w, accounts, cutoff, generation, p, x);
    case QueueElsewhere(_) =>
    case Complete(y, gone) => CompleteStuck(w, y, gone, cutoff, generation, p, x);
    case Overflow(y, id) => OverflowStuck(w, y, id, cutoff, generation, p, x);
    case FinishScan(id) => FinishStuck(w, id, cutoff, generation, p, x);
    case Mark(_, _) =>
  }

  lemma {:induction false} StuckForGood(w: World, later: seq<Op>, cutoff: int, generation: int, p: nat, x: int)
    requires Inv(w, cutoff) && Stuck(w, p, x)
    ensures Stuck(Run(w, later, cutoff, generation), p, x)
  {
    if |later| > 0 {
      StuckForGood(w, later[..|later| - 1], cutoff, generation, p, x);
      Onwards(w, later[..|later| - 1], cutoff, generation);
      StuckStep(Run(w, later[..|later| - 1], cutoff, generation), later[|later| - 1], cutoff, generation, p, x);
    }
  }

  /** Every account open for the range has work under way that will settle it there. */
  ghost predicate AllWorkedOn(w: World, p: nat) {
    forall x :: Open(w.listed, p, x) ==> Outstanding(w.queued, w.scans, x, Some(p))
  }

  function OpenAccounts(listed: Listed, p: nat): set<int>
    requires p in listed
  {
    set x | x in listed[p] && !listed[p][x]
  }

  /** The step that settles an account of the range. */
  lemma SettleNext(w: World, p: nat, x: int, cutoff: int, generation: int) returns (op: Op)
    requires Inv(w, cutoff) && p in w.listed && x in w.listed[p] && Outstanding(w.queued, w.scans, x, Some(p))
    ensures var w' := Step(w, op, cutoff, generation);
            && w'.listed == w.listed[p := w.listed[p][x := true]]
            && (forall y :: y != x && Outstanding(w.queued, w.scans, y, Some(p)) ==>
                  Outstanding(w'.queued, w'.scans, y, Some(p)))
  {
    if x in w.queued && w.queued[x] == Some(p) {
      op := Complete(x, false);
      FewerJobs(w.listed, w.queued, w.scans, x, 0);
    } else {
      var id :| id in w.scans && w.scans[id] == (x, Some(p));
      op := FinishScan(id);
      FewerJobs(w.listed, w.queued, w.scans, 0, id);
    }
  }

  lemma {:induction false} RunCons(w: World, op: Op, later: seq<Op>, cutoff: int, generation: int)
    ensures Run(w, [op] + later, cutoff, generation) == Run(Step(w, op, cutoff, generation), later, cutoff, generation)
  {
    if |later| == 0 {
      RunMore(w, [], op, cutoff, generation);
      assert [op] + later == [] + [op];
    } else {
      var n := |later| - 1;
      RunCons(w, op, later[..n], cutoff, generation);
      RunMore(w, [op] + later[..n], later[n], cutoff, generation);
      assert [op] + later == [op] + later[..n] + [later[n]];
    }
  }

  predicate IsResolved(w: World, p: nat) { p < |w.audit.parts| && w.audit.parts[p].status.Resolved? }

  /** Settling what is under way for a range, account by account, resolves it. */
  lemma {:induction false} FinishRange(w: World, p: nat, cutoff: int, generation: int) returns (later: seq<Op>)
    requires Inv(w, cutoff) && p in w.listed && AllWorkedOn(w, p)
    ensures IsResolved(Run(w, later, cutoff, generation), p)
    decreases |OpenAccounts(w.listed, p)|
  {
    assert RangeOk(w.audit.parts, w.listed, w.queued, w.scans, p);
    later := [];
    if w.audit.parts[p].status.Repairing? {
      var x :| x in w.listed[p] && !w.listed[p][x];
      assert Open(w.listed, p, x);
      var op := SettleNext(w, p, x, cutoff, generation);
      var w' := Step(w, op, cutoff, generation);
      StepKeeps(w, op, cutoff, generation);
      assert OpenAccounts(w'.listed, p) == OpenAccounts(w.listed, p) - {x};
      later := FinishRange(w', p, cutoff, generation);
      RunCons(w, op, later, cutoff, generation);
      later := [op] + later;
    }
  }

  ghost predicate CanResolve(w: World, p: nat, cutoff: int, generation: int) {
    exists later :: IsResolved(Run(w, later, cutoff, generation), p)
  }

  /** A range under repair can still be resolved if and only if every account open for it has a row or scan of its own. */
  lemma CanResolveIff(w: World, p: nat, cutoff: int, generation: int)
    requires Inv(w, cutoff) && p < |w.audit.parts| && w.audit.parts[p].status.Repairing?
    ensures CanResolve(w, p, cutoff, generation) <==> AllWorkedOn(w, p)
  {
    assert RangeOk(w.audit.parts, w.listed, w.queued, w.scans, p) && Staged(w.audit.parts, p);
    if AllWorkedOn(w, p) {
      var later := FinishRange(w, p, cutoff, generation);
    } else {
      var x :| Open(w.listed, p, x) && !Outstanding(w.queued, w.scans, x, Some(p));
      forall later
        ensures !IsResolved(Run(w, later, cutoff, generation), p)
      {
        StuckForGood(w, later, cutoff, generation, p, x);
      }
    }
  }

  /** A listed account without its bit has a reconcile row already. */
  predicate Contested(w: World, accounts: seq<int>) { exists x :: x in accounts && x !in w.successful && x in w.queued }

  /**
   What staging decides, readable from the tables before the call.  With no account to
   queue the range is resolved at once, and then every listed account was successful if
   and only if none was contested.  Otherwise it is under repair, and can ever be resolved
   if and only if no listed account was contested.
   */
  lemma StagingDecides(ops: seq<Op>, cutoff: int, generation: int, accounts: seq<int>)
    requires Execute(ops, cutoff, generation).audit.current.Some?
    ensures var w := Execute(ops, cutoff, generation);
            var p, w' := w.audit.current.value, StepStage(w, accounts, cutoff, generation);
            && p in w'.listed && p < |w'.audit.parts|
            && (if Missing(w, accounts) == {} then
                  && w'.audit.parts[p].status.Resolved?
                  && ((forall x :: x in accounts ==> x in w.successful) <==> !Contested(w, accounts))
                else
                  && w'.audit.parts[p].status.Repairing?
                  && (CanResolve(w', p, cutoff, generation) <==> !Contested(w, accounts)))
  {
    var w := Execute(ops, cutoff, generation);
    EveryRunKeeps(ops, cutoff, generation);
    StageKeeps(w, accounts, cutoff, generation);
    CurrentFact(w, cutoff);
    assert RangeOk(w.audit.parts, w.listed, w.queued, w.scans, w.audit.current.value);
    StagedOpen(w, accounts, cutoff, generation);
    if Missing(w, accounts) != {} {
      CanResolveIff(StepStage(w, accounts, cutoff, generation), w.audit.current.value, cutoff, generation);
    }
  }

  lemma StagedOpen(w: World, accounts: seq<int>, cutoff: int, generation: int)
    requires JobsOk(w.listed, w.queued, w.scans) && w.audit.current.Some? && w.audit.current.value < |w.audit.parts|
    requires w.audit.current.value !in w.listed
    ensures var p, w' := w.audit.current.value, StepStage(w, accounts, cutoff, generation);
            && p < |w'.audit.parts| && p in w'.listed
            && w'.audit.parts[p].status == (if Missing(w, accounts) == {} then A.Resolved else A.Repairing)
            && (AllWorkedOn(w', p) <==> !Contested(w, accounts))
    ensures Missing(w, accounts) == {} ==> ((forall x :: x in accounts ==> x in w.successful) <==> !Contested(w, accounts))
  {
    var p, w' := w.audit.current.value, StepStage(w, accounts, cutoff, generation);
    StagedJobs(w, p, accounts);
    assert forall x :: Open(w'.listed, p, x) <==> x in accounts && x !in w.successful;
    assert forall x :: x in Missing(w, accounts) <==> x in accounts && x !in w.successful && x !in w.queued;
  }
}
