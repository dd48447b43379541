/**
 The coverage audit of one generation: days since the audit epoch are cut into ranges
 of whole seconds, both ends included.
 */
module Audit {
  // A range too full to list is split in two; ranges whose counts agree may add a
  // one-minute sample.  Inserting a range that exists already changes nothing.

  import opened Prelude

  const DAY: int := 86400

  datatype Range = Range(start: int, end: int)

  datatype Status = Pending | Enumerating | CountConsistent | Splitting | Repairing | Resolved | Unresolved

  datatype Part = Part(range: Range, sample: bool, status: Status)

  datatype Verdict = Auditing | CountReconciled | HasUnresolved

  /** `current` is the range the audit worker holds. */
  datatype World = World(parts: seq<Part>, current: Option<nat>, verdict: Verdict)

  // ------------------------------------------------------------ transactions

  predicate Exists(parts: seq<Part>, r: Range) { exists i :: 0 <= i < |parts| && parts[i].range == r }

  /** INSERT ... ON CONFLICT DO NOTHING. */
  function Insert(parts: seq<Part>, r: Range, sample: bool): seq<Part> {
    if Exists(parts, r) then parts else parts + [Part(r, sample, Pending)]
  }

  function DayRange(d: int, cutoff: int): Range { Range(d * DAY, Min(d * DAY + DAY - 1, cutoff)) }

  /** The first n days. */
  function SeedDays(parts: seq<Part>, cutoff: int, n: nat): seq<Part> {
    if n == 0 then parts else Insert(SeedDays(parts, cutoff, n - 1), DayRange(n - 1, cutoff), false)
  }

  /** EnsureCoveragePartitions: one range a day from the epoch to the cutoff. */
  function Seed(parts: seq<Part>, cutoff: int): seq<Part> {
    if cutoff < 0 then parts else SeedDays(parts, cutoff, cutoff / DAY + 1)
  }

  function SetStatus(parts: seq<Part>, i: nat, status: Status): seq<Part>
    requires i < |parts|
  {
    parts[i := parts[i].(status := status)]
  }

  function Middle(r: Range): int { r.start + (r.end - r.start) / 2 }

  function Left(r: Range): Range { Range(r.start, Middle(r)) }

  function Right(r: Range): Range { Range(Middle(r) + 1, r.end) }

  /** SplitCoveragePartition; a single second cannot be split. */
  function Split(parts: seq<Part>, i: nat): seq<Part>
    requires i < |parts|
  {
    var r := parts[i].range;
    if r.end - r.start < 1 then SetStatus(parts, i, Unresolved)
    else SetStatus(Insert(Insert(parts, Left(r), parts[i].sample), Right(r), parts[i].sample), i, Splitting)
  }

  /** The sampled minute of a consistent range, for one day in a hundred. */
  function SampleOf(p: Part, generation: int): Option<Range> {
    var day := p.range.start / DAY;
    var start := p.range.start + (day * 1103515245 + generation) % 1440 * 60;
    if p.sample || (day + generation) % 100 != 0 || start >= p.range.end then None
    else Some(Range(start, Min(start + 59, p.range.end)))
  }

  /** MarkCoverageCountConsistent. */
  function Consistent(parts: seq<Part>, i: nat, generation: int): seq<Part>
    requires i < |parts|
  {
    var marked := SetStatus(parts, i, CountConsistent);
    match SampleOf(parts[i], generation)
    case None => marked
    case Some(r) => Insert(marked, r, true)
  }

  predicate Active(parts: seq<Part>) {
    exists i :: 0 <= i < |parts| && (parts[i].status.Pending? || parts[i].status.Enumerating? || parts[i].status.Repairing?)
  }

  predicate AnyUnresolved(parts: seq<Part>) { exists i :: 0 <= i < |parts| && parts[i].status.Unresolved? }

  // ------------------------------------------------------------------- steps

  datatype Op =
    | SeedUpTo
    | Claim(part: nat)
    | Retry
    | Agree
    | SplitCurrent
    | Stage(missing: bool)
    | Settle(part: nat)              // the last account listed for a range was completed
    | Crash
    | Finalize

  /** How the worker finishes with the range it holds. */
  function Handle(parts: seq<Part>, i: nat, op: Op, generation: int): seq<Part>
    requires i < |parts|
  {
    match op
    case Retry => SetStatus(parts, i, Pending)
    case Agree => Consistent(parts, i, generation)
    case SplitCurrent => Split(parts, i)
    case Stage(missing) => SetStatus(parts, i, if missing then Repairing else Resolved)
    case _ => parts
  }

  /** What happens to a generation with a fixed cutoff. */
  function Step(w: World, op: Op, cutoff: int, generation: int): World {
    match op
    case SeedUpTo => w.(parts := Seed(w.parts, cutoff))
    case Claim(i) =>
      if w.current.Some? || i >= |w.parts| || !w.parts[i].status.Pending? then w
      else w.(parts := SetStatus(w.parts, i, Enumerating), current := Some(i))
    case Settle(i) =>
      if i < |w.parts| && w.parts[i].status.Repairing? then w.(parts := SetStatus(w.parts, i, Resolved)) else w
    case Crash => w.(current := None)
    case Finalize =>
      if Active(w.parts) then w else w.(verdict := if AnyUnresolved(w.parts) then HasUnresolved else CountReconciled)
    case _ =>
      if w.current.None? || w.current.value >= |w.parts| then w
      else
        World(Handle(w.parts, w.current.value, op, generation), None, w.verdict)
  }

  /** The audit of a generation begins by seeding its days. */
  function Execute(ops: seq<Op>, cutoff: int, generation: int): World {
    if |ops| == 0 then World(Seed([], cutoff), None, Auditing)
    else Step(Execute(ops[..|ops| - 1], cutoff, generation), ops[|ops| - 1], cutoff, generation)
  }

  // -------------------------------------------------------------- invariants

  predicate Within(r: Range, t: int) { r.start <= t <= r.end }

  ghost predicate PartOk(p: Part, parts: seq<Part>, cutoff: int) {
    && 0 <= p.range.start <= p.range.end <= cutoff
    && (p.status.Splitting? ==> p.range.start < p.range.end && Exists(parts, Left(p.range)) && Exists(parts, Right(p.range)))
  }

  /** Rows are never deleted, so a range that exists once exists for good. */
  ghost predicate DaysSeeded(parts: seq<Part>, cutoff: int) {
    forall d :: 0 <= d && d * DAY <= cutoff ==> Exists(parts, DayRange(d, cutoff))
  }

  ghost predicate PartsOk(parts: seq<Part>, cutoff: int) {
    && (forall i :: 0 <= i < |parts| ==> PartOk(parts[i], parts, cutoff))
    && (forall i, j :: 0 <= i < j < |parts| ==> parts[i].range != parts[j].range)
  }

  ghost predicate Inv(w: World, cutoff: int) {
    && PartsOk(w.parts, cutoff) && DaysSeeded(w.parts, cutoff) && AllRooted(w.parts, cutoff)
    && (w.current.Some? ==> w.current.value < |w.parts| && w.parts[w.current.value].status.Enumerating?)
    && (w.verdict.CountReconciled? ==> !Active(w.parts) && !AnyUnresolved(w.parts))
  }

  /** What splitting a range, and its halves again, can produce. */
  ghost function Tree(r: Range): set<Range>
    decreases r.end - r.start
  {
    if r.end - r.start < 1 then {r} else {r} + Tree(Left(r)) + Tree(Right(r))
  }

  /** A range comes from splitting a day, a sample from splitting a minute. */
  ghost predicate Rooted(p: Part, cutoff: int) {
    if p.sample then exists minute: Range :: minute.end - minute.start <= 59 && p.range in Tree(minute)
    else exists d: nat :: d * DAY <= cutoff && p.range in Tree(DayRange(d, cutoff))
  }

  ghost predicate AllRooted(parts: seq<Part>, cutoff: int) {
    forall i :: 0 <= i < |parts| ==> Rooted(parts[i], cutoff)
  }

  /** A range of n seconds yields at most 2n - 1 ranges, itself included. */
  lemma {:induction false} TreeSize(r: Range)
    requires r.start <= r.end
    ensures |Tree(r)| <= 2 * (r.end - r.start + 1) - 1
    decreases r.end - r.start
  {
    if r.end - r.start >= 1 {
      TreeSize(Left(r));
      TreeSize(Right(r));
      UnionSize({r}, Tree(Left(r)));
      UnionSize({r} + Tree(Left(r)), Tree(Right(r)));
    }
  }

  lemma {:induction false} HalvesInTree(root: Range, r: Range)
    requires r in Tree(root) && r.end - r.start >= 1
    ensures Left(r) in Tree(root) && Right(r) in Tree(root)
    decreases root.end - root.start
  {
    if root.end - root.start >= 1 {
      if r == root {
      } else if r in Tree(Left(root)) {
        HalvesInTree(Left(root), r);
      } else {
        HalvesInTree(Right(root), r);
      }
    }
  }

  // ------------------------------------------------------------ preservation

  lemma InsertFacts(parts: seq<Part>, r: Range, sample: bool)
    ensures var more := Insert(parts, r, sample);
            && |parts| <= |more| <= |parts| + 1 && more[..|parts|] == parts && Exists(more, r)
            && (|more| > |parts| ==> more[|parts|] == Part(r, sample, Pending) && !Exists(parts, r))
            && (forall q :: Exists(parts, q) ==> Exists(more, q))
  {
    var more := Insert(parts, r, sample);
    if !Exists(parts, r) { assert more[|parts|].range == r; }
    forall q | Exists(parts, q)
      ensures Exists(more, q)
    {
      var i :| 0 <= i < |parts| && parts[i].range == q;
      assert more[i].range == q;
    }
  }

  lemma InsertKeeps(parts: seq<Part>, r: Range, sample: bool, cutoff: int)
    requires PartsOk(parts, cutoff) && 0 <= r.start <= r.end <= cutoff
    ensures PartsOk(Insert(parts, r, sample), cutoff)
  {
    var more := Insert(parts, r, sample);
    InsertFacts(parts, r, sample);
    forall i | 0 <= i < |more|
      ensures PartOk(more[i], more, cutoff)
    {
      if i < |parts| { assert more[i] == parts[i] && PartOk(parts[i], parts, cutoff); }
    }
  }

  lemma SetStatusKeeps(parts: seq<Part>, i: nat, status: Status, cutoff: int)
    requires PartsOk(parts, cutoff) && i < |parts|
    requires status.Splitting? ==>
               var r := parts[i].range; r.start < r.end && Exists(parts, Left(r)) && Exists(parts, Right(r))
    ensures PartsOk(SetStatus(parts, i, status), cutoff)
  {
    var after := SetStatus(parts, i, status);
    forall q | Exists(parts, q)
      ensures Exists(after, q)
    {
      var k :| 0 <= k < |parts| && parts[k].range == q;
      assert after[k].range == q;
    }
    forall k | 0 <= k < |after|
      ensures PartOk(after[k], after, cutoff)
    {
      assert PartOk(parts[k], parts, cutoff);
    }
  }

  lemma {:induction false} SeedDaysKeeps(parts: seq<Part>, cutoff: int, n: nat)
    requires PartsOk(parts, cutoff) && (n - 1) * DAY <= cutoff
    ensures PartsOk(SeedDays(parts, cutoff, n), cutoff)
    ensures forall d :: 0 <= d < n ==> Exists(SeedDays(parts, cutoff, n), DayRange(d, cutoff))
    ensures var more := SeedDays(parts, cutoff, n); |parts| <= |more| && more[..|parts|] == parts
  {
    if n > 0 {
      SeedDaysKeeps(parts, cutoff, n - 1);
      InsertKeeps(SeedDays(parts, cutoff, n - 1), DayRange(n - 1, cutoff), false, cutoff);
      InsertFacts(SeedDays(parts, cutoff, n - 1), DayRange(n - 1, cutoff), false);
    }
  }

  lemma SplitKeeps(parts: seq<Part>, i: nat, cutoff: int)
    requires PartsOk(parts, cutoff) && i < |parts|
    ensures PartsOk(Split(parts, i), cutoff)
  {
    var r := parts[i].range;
    assert PartOk(parts[i], parts, cutoff);
    if r.end - r.start < 1 {
      SetStatusKeeps(parts, i, Unresolved, cutoff);
    } else {
      var one := Insert(parts, Left(r), parts[i].sample);
      InsertKeeps(parts, Left(r), parts[i].sample, cutoff);
      InsertFacts(parts, Left(r), parts[i].sample);
      InsertKeeps(one, Right(r), parts[i].sample, cutoff);
      InsertFacts(one, Right(r), parts[i].sample);
      assert Insert(one, Right(r), parts[i].sample)[i] == parts[i];
      SetStatusKeeps(Insert(one, Right(r), parts[i].sample), i, Splitting, cutoff);
    }
  }

  lemma ConsistentKeeps(parts: seq<Part>, i: nat, generation: int, cutoff: int)
    requires PartsOk(parts, cutoff) && i < |parts|
    ensures PartsOk(Consistent(parts, i, generation), cutoff)
  {
    assert PartOk(parts[i], parts, cutoff);
    SetStatusKeeps(parts, i, CountConsistent, cutoff);
    var sample := SampleOf(parts[i], generation);
    if sample.Some? { InsertKeeps(SetStatus(parts, i, CountConsistent), sample.value, true, cutoff); }
  }

  lemma HandleKeeps(parts: seq<Part>, i: nat, op: Op, generation: int, cutoff: int)
    requires PartsOk(parts, cutoff) && i < |parts|
    ensures PartsOk(Handle(parts, i, op, generation), cutoff)
  {
    match op
    case Retry => SetStatusKeeps(parts, i, Pending, cutoff);
    case Agree => ConsistentKeeps(parts, i, generation, cutoff);
    case SplitCurrent => SplitKeeps(parts, i, cutoff);
    case Stage(missing) => SetStatusKeeps(parts, i, if missing then Repairing else Resolved, cutoff);
    case _ =>
  }

  ghost predicate Grows(parts: seq<Part>, more: seq<Part>) { forall q :: Exists(parts, q) ==> Exists(more, q) }

  lemma SetStatusGrows(parts: seq<Part>, i: nat, status: Status)
    requires i < |parts|
    ensures Grows(parts, SetStatus(parts, i, status))
  {
    forall q | Exists(parts, q)
      ensures Exists(SetStatus(parts, i, status), q)
    {
      var k :| 0 <= k < |parts| && parts[k].range == q;
      assert SetStatus(parts, i, status)[k].range == q;
    }
  }

  lemma HandleGrows(parts: seq<Part>, i: nat, op: Op, generation: int)
    requires i < |parts|
    ensures Grows(parts, Handle(parts, i, op, generation))
  {
    forall status: Status { SetStatusGrows(parts, i, status); }
    match op
    case Agree =>
      if SampleOf(parts[i], generation).Some? {
        InsertFacts(SetStatus(parts, i, CountConsistent), SampleOf(parts[i], generation).value, true);
      }
    case SplitCurrent =>
      var r := parts[i].range;
      var one := Insert(parts, Left(r), parts[i].sample);
      InsertFacts(parts, Left(r), parts[i].sample);
      InsertFacts(one, Right(r), parts[i].sample);
      SetStatusGrows(Insert(one, Right(r), parts[i].sample), i, Splitting);
    case _ =>
  }

  lemma StatusRooted(parts: seq<Part>, i: nat, status: Status, cutoff: int)
    requires AllRooted(parts, cutoff) && i < |parts|
    ensures AllRooted(SetStatus(parts, i, status), cutoff)
  {
    forall k | 0 <= k < |parts|
      ensures Rooted(SetStatus(parts, i, status)[k], cutoff)
    {
      assert Rooted(parts[k], cutoff);
    }
  }

  lemma HalvesRooted(p: Part, cutoff: int)
    requires Rooted(p, cutoff) && p.range.end - p.range.start >= 1
    ensures Rooted(Part(Left(p.range), p.sample, Pending), cutoff) && Rooted(Part(Right(p.range), p.sample, Pending), cutoff)
  {
    if p.sample {
      var minute: Range :| minute.end - minute.start <= 59 && p.range in Tree(minute);
      HalvesInTree(minute, p.range);
    } else {
      var d: nat :| d * DAY <= cutoff && p.range in Tree(DayRange(d, cutoff));
      HalvesInTree(DayRange(d, cutoff), p.range);
    }
  }

  lemma HandleRooted(parts: seq<Part>, i: nat, op: Op, generation: int, cutoff: int)
    requires AllRooted(parts, cutoff) && i < |parts|
    ensures AllRooted(Handle(parts, i, op, generation), cutoff)
  {
    forall status: Status { StatusRooted(parts, i, status, cutoff); }
    assert Rooted(parts[i], cutoff);
    match op
    case Agree =>
      var sample := SampleOf(parts[i], generation);
      if sample.Some? {
      }
    case SplitCurrent =>
      var r := parts[i].range;
      if r.end - r.start >= 1 {
        HalvesRooted(parts[i], cutoff);
        var one := Insert(parts, Left(r), parts[i].sample);
        InsertFacts(parts, Left(r), parts[i].sample);
        InsertFacts(one, Right(r), parts[i].sample);
        StatusRooted(Insert(one, Right(r), parts[i].sample), i, Splitting, cutoff);
      }
    case _ =>
  }

  lemma {:induction false} SeedRooted(parts: seq<Part>, cutoff: int, n: nat)
    requires AllRooted(parts, cutoff) && (n - 1) * DAY <= cutoff
    ensures AllRooted(SeedDays(parts, cutoff, n), cutoff)
  {
    if n > 0 {
      SeedRooted(parts, cutoff, n - 1);
    }
  }

  lemma StepKeeps(w: World, op: Op, cutoff: int, generation: int)
    requires Inv(w, cutoff)
    ensures Inv(Step(w, op, cutoff, generation), cutoff)
  {
    match op
    case SeedUpTo => SeedAgain(w.parts, cutoff);
    case Claim(i) =>
      if i < |w.parts| { StatusKeeps(w.parts, i, Enumerating, cutoff); }
    case Settle(i) =>
      if i < |w.parts| && w.parts[i].status.Repairing? { StatusKeeps(w.parts, i, Resolved, cutoff); }
    case Crash =>
    case Finalize =>
    case _ =>
      if w.current.Some? {
        HandleKeeps(w.parts, w.current.value, op, generation, cutoff);
        HandleGrows(w.parts, w.current.value, op, generation);
        HandleRooted(w.parts, w.current.value, op, generation, cutoff);
      }
  }

  lemma StatusKeeps(parts: seq<Part>, i: nat, status: Status, cutoff: int)
    requires PartsOk(parts, cutoff) && DaysSeeded(parts, cutoff) && AllRooted(parts, cutoff) && i < |parts| && !status.Splitting?
    ensures var after := SetStatus(parts, i, status); PartsOk(after, cutoff) && DaysSeeded(after, cutoff) && AllRooted(after, cutoff)
  {
    SetStatusKeeps(parts, i, status, cutoff);
    SetStatusGrows(parts, i, status);
    StatusRooted(parts, i, status, cutoff);
  }

  lemma SeedKeeps(cutoff: int)
    ensures Inv(World(Seed([], cutoff), None, Auditing), cutoff)
  {
    if cutoff >= 0 {
      var n := cutoff / DAY + 1;
      assert (n - 1) * DAY <= cutoff < n * DAY;
      SeedDaysKeeps([], cutoff, n);
      SeedRooted([], cutoff, n);
      forall d | 0 <= d && d * DAY <= cutoff ensures Exists(Seed([], cutoff), DayRange(d, cutoff)) { assert d < n; }
    }
  }

  /** Seeding a second time adds nothing. */
  lemma {:induction false} SeedAgainDays(parts: seq<Part>, cutoff: int, n: nat)
    requires DaysSeeded(parts, cutoff) && (n - 1) * DAY <= cutoff
    ensures SeedDays(parts, cutoff, n) == parts
  {
    if n > 0 {
      SeedAgainDays(parts, cutoff, n - 1);
      assert Exists(parts, DayRange(n - 1, cutoff));
    }
  }

  lemma SeedAgain(parts: seq<Part>, cutoff: int)
    requires DaysSeeded(parts, cutoff)
    ensures Seed(parts, cutoff) == parts
  {
    if cutoff >= 0 { SeedAgainDays(parts, cutoff, cutoff / DAY + 1); }
  }

  lemma {:induction false} EveryRunKeeps(ops: seq<Op>, cutoff: int, generation: int)
    ensures Inv(Execute(ops, cutoff, generation), cutoff)
  {
    if |ops| == 0 {
      SeedKeeps(cutoff);
    } else {
      EveryRunKeeps(ops[..|ops| - 1], cutoff, generation);
      StepKeeps(Execute(ops[..|ops| - 1], cutoff, generation), ops[|ops| - 1], cutoff, generation);
    }
  }

  // -------------------------------------------------------------- guarantees

  /** Below every range, split or not, a range that is not split holds each of its seconds. */
  lemma {:induction false} Descend(parts: seq<Part>, i: nat, t: int, cutoff: int) returns (j: nat)
    requires PartsOk(parts, cutoff) && i < |parts| && Within(parts[i].range, t)
    ensures j < |parts| && !parts[j].status.Splitting? && Within(parts[j].range, t)
    decreases parts[i].range.end - parts[i].range.start
  {
    j := i;
    if parts[i].status.Splitting? {
      var r := parts[i].range;
      assert PartOk(parts[i], parts, cutoff);
      var half := if t <= Middle(r) then Left(r) else Right(r);
      var k :| 0 <= k < |parts| && parts[k].range == half;
      j := Descend(parts, k, t, cutoff);
    }
  }

  lemma CoveredIn(w: World, cutoff: int, t: int) returns (j: nat)
    requires Inv(w, cutoff) && 0 <= t <= cutoff
    ensures j < |w.parts| && Within(w.parts[j].range, t) && !w.parts[j].status.Splitting?
    ensures w.verdict.CountReconciled? ==> w.parts[j].status.CountConsistent? || w.parts[j].status.Resolved?
  {
    var d := t / DAY;
    assert Exists(w.parts, DayRange(d, cutoff));
    var i :| 0 <= i < |w.parts| && w.parts[i].range == DayRange(d, cutoff);
    j := Descend(w.parts, i, t, cutoff);
  }

  /**
   The audit tiles time: whatever was split, sampled or retried, every second up to the
   cutoff lies in a range that is not split.
   */
  lemma EverySecondCovered(ops: seq<Op>, cutoff: int, generation: int, t: int) returns (j: nat)
    requires 0 <= t <= cutoff
    ensures var parts := Execute(ops, cutoff, generation).parts;
            j < |parts| && !parts[j].status.Splitting? && Within(parts[j].range, t)
  {
    EveryRunKeeps(ops, cutoff, generation);
    j := CoveredIn(Execute(ops, cutoff, generation), cutoff, t);
  }

  /**
   A generation is reconciled only when each of its seconds lies in a range whose counts
   agreed or that is resolved; AuditRepair has what that says of its accounts.
   */
  lemma ReconciledEverywhere(ops: seq<Op>, cutoff: int, generation: int, t: int) returns (j: nat)
    requires 0 <= t <= cutoff && Execute(ops, cutoff, generation).verdict.CountReconciled?
    ensures var parts := Execute(ops, cutoff, generation).parts;
            j < |parts| && Within(parts[j].range, t) && (parts[j].status.CountConsistent? || parts[j].status.Resolved?)
  {
    EveryRunKeeps(ops, cutoff, generation);
    j := CoveredIn(Execute(ops, cutoff, generation), cutoff, t);
  }

  // ------------------------------------------------- a range lost in a crash

  /** Nobody holds the range, and it is not pending. */
  ghost predicate Abandoned(w: World, i: nat) {
    i < |w.parts| && w.parts[i].status.Enumerating? && w.current != Some(i)
  }

  lemma AbandonedStep(w: World, op: Op, cutoff: int, generation: int, i: nat)
    requires Inv(w, cutoff) && Abandoned(w, i)
    ensures Abandoned(Step(w, op, cutoff, generation), i) && Step(w, op, cutoff, generation).verdict == w.verdict
  {
    match op
    case SeedUpTo => SeedAgain(w.parts, cutoff);
    case Claim(_) =>
    case Settle(_) =>
    case Crash =>
    case Finalize => assert Active(w.parts);
    case _ => if w.current.Some? { OthersKept(w.parts, w.current.value, op, generation, i); }
  }

  lemma OthersKept(parts: seq<Part>, i: nat, op: Op, generation: int, k: nat)
    requires i < |parts| && k < |parts| && k != i
    ensures k < |Handle(parts, i, op, generation)| && Handle(parts, i, op, generation)[k] == parts[k]
  {
  }

  /**
   A crash while the worker holds a range leaves it enumerating for good: no later step
   claims, splits or settles it, and the generation never gets another verdict.
   */
  lemma {:induction false} CrashStrandsRange(ops: seq<Op>, later: seq<Op>, cutoff: int, generation: int, i: nat)
    requires Execute(ops, cutoff, generation).current == Some(i)
    ensures var w := Execute(ops + [Crash] + later, cutoff, generation);
            Abandoned(w, i) && w.verdict == Execute(ops, cutoff, generation).verdict
  {
    if |later| == 0 {
      assert ops + [Crash] + later == ops + [Crash];
      EveryRunKeeps(ops, cutoff, generation);
    } else {
      var n := |later| - 1;
      var front := ops + [Crash] + later[..n];
      assert ops + [Crash] + later == front + [later[n]];
      CrashStrandsRange(ops, later[..n], cutoff, generation, i);
      EveryRunKeeps(front, cutoff, generation);
      AbandonedStep(Execute(front, cutoff, generation), later[n], cutoff, generation, i);
    }
  }

  /** Every range being enumerated is in the worker's hands. */
  ghost predicate Attended(w: World) {
    forall i :: 0 <= i < |w.parts| && w.parts[i].status.Enumerating? ==> w.current == Some(i)
  }

  lemma AttendedStep(w: World, op: Op, cutoff: int, generation: int)
    requires Inv(w, cutoff) && Attended(w) && (op.Crash? ==> w.current.None?)
    ensures Attended(Step(w, op, cutoff, generation))
  {
    match op
    case SeedUpTo => SeedAgain(w.parts, cutoff);
    case Claim(_) =>
    case Settle(_) =>
    case Crash =>
    case Finalize =>
    case _ => if w.current.Some? { HandledAttended(w.parts, w.current.value, op, generation); }
  }

  lemma HandledAttended(parts: seq<Part>, i: nat, op: Op, generation: int)
    requires i < |parts| && forall k :: 0 <= k < |parts| && parts[k].status.Enumerating? ==> k == i
    requires op.Retry? || op.Agree? || op.SplitCurrent? || op.Stage?
    ensures var after := Handle(parts, i, op, generation);
            forall k :: 0 <= k < |after| ==> !after[k].status.Enumerating?
  {
  }

  lemma SeedPending(cutoff: int, n: nat)
    ensures forall k :: 0 <= k < |SeedDays([], cutoff, n)| ==> SeedDays([], cutoff, n)[k].status.Pending?
  {
  }

  /** Exactly when it cannot happen: no range is stranded iff no crash comes while the worker holds one. */
  lemma {:induction false} StrandedIff(ops: seq<Op>, cutoff: int, generation: int)
    ensures Attended(Execute(ops, cutoff, generation)) <==>
              forall k :: 0 <= k < |ops| && ops[k].Crash? ==> Execute(ops[..k], cutoff, generation).current.None?
  {
    if forall k :: 0 <= k < |ops| && ops[k].Crash? ==> Execute(ops[..k], cutoff, generation).current.None? {
      CarefulCrashes(ops, cutoff, generation);
    } else {
      var k :| 0 <= k < |ops| && ops[k].Crash? && Execute(ops[..k], cutoff, generation).current.Some?;
      StrandedBy(ops, cutoff, generation, k);
    }
  }

  lemma StrandedBy(ops: seq<Op>, cutoff: int, generation: int, k: nat)
    requires k < |ops| && ops[k].Crash? && Execute(ops[..k], cutoff, generation).current.Some?
    ensures !Attended(Execute(ops, cutoff, generation))
  {
    var i := Execute(ops[..k], cutoff, generation).current.value;
    assert ops == ops[..k] + [Crash] + ops[k + 1..];
    CrashStrandsRange(ops[..k], ops[k + 1..], cutoff, generation, i);
    assert Abandoned(Execute(ops, cutoff, generation), i);
  }

  lemma {:induction false} CarefulCrashes(ops: seq<Op>, cutoff: int, generation: int)
    requires forall k :: 0 <= k < |ops| && ops[k].Crash? ==> Execute(ops[..k], cutoff, generation).current.None?
    ensures Attended(Execute(ops, cutoff, generation))
  {
    if |ops| == 0 {
      if cutoff >= 0 { SeedPending(cutoff, cutoff / DAY + 1); }
    } else {
      var n := |ops| - 1;
      var front := ops[..n];
      forall k | 0 <= k < n && front[k].Crash?
        ensures Execute(front[..k], cutoff, generation).current.None?
      {
        assert front[..k] == ops[..k];
      }
      CarefulCrashes(front, cutoff, generation);
      EveryRunKeeps(front, cutoff, generation);
      AttendedStep(Execute(front, cutoff, generation), ops[n], cutoff, generation);
    }
  }

  lemma {:induction false} SeedFirst(cutoff: int, n: nat)
    requires n >= 1
    ensures var parts := SeedDays([], cutoff, n); |parts| >= 1 && parts[0] == Part(DayRange(0, cutoff), false, Pending)
  {
    if n > 1 { SeedFirst(cutoff, n - 1); }
  }

  /** The first claim of any audit can be stranded so. */
  lemma FirstClaimHolds(cutoff: int, generation: int)
    requires cutoff >= 0
    ensures Execute([Claim(0)], cutoff, generation).current == Some(0)
  {
    SeedFirst(cutoff, cutoff / DAY + 1);
    assert [] + [Claim(0)] == [Claim(0)];
  }

  ghost function RowsIn(parts: seq<Part>, tree: set<Range>): set<int> {
    set i | 0 <= i < |parts| && parts[i].range in tree
  }

  ghost function RangesIn(parts: seq<Part>, tree: set<Range>): set<Range> {
    set i | 0 <= i < |parts| && parts[i].range in tree :: parts[i].range
  }

  lemma OneMoreRow(front: seq<Part>, p: Part, tree: set<Range>)
    ensures RowsIn(front + [p], tree) == RowsIn(front, tree) + (if p.range in tree then {|front|} else {})
    ensures RangesIn(front + [p], tree) == RangesIn(front, tree) + (if p.range in tree then {p.range} else {})
  {
    var parts := front + [p];
    forall r | r in RangesIn(front, tree)
      ensures r in RangesIn(parts, tree)
    {
      var i :| 0 <= i < |front| && front[i].range in tree && front[i].range == r;
      assert parts[i].range == r;
    }
    if p.range in tree { assert parts[|front|].range == p.range; }
  }

  lemma {:induction false} DistinctRows(parts: seq<Part>, tree: set<Range>)
    requires forall i, j :: 0 <= i < j < |parts| ==> parts[i].range != parts[j].range
    ensures |RowsIn(parts, tree)| == |RangesIn(parts, tree)|
  {
    if |parts| == 0 {
      assert RowsIn(parts, tree) == {} && RangesIn(parts, tree) == {};
    } else {
      var n := |parts| - 1;
      DistinctRows(parts[..n], tree);
      OneMoreRow(parts[..n], parts[n], tree);
      assert parts[..n] + [parts[n]] == parts;
      NotAmong(parts[..n], parts[n], tree);
    }
  }

  lemma NotAmong(front: seq<Part>, p: Part, tree: set<Range>)
    requires forall i :: 0 <= i < |front| ==> front[i].range != p.range
    ensures |front| !in RowsIn(front, tree) && p.range !in RangesIn(front, tree)
  {
  }

  /** All rows that splitting a range of n seconds can account for are at most 2n - 1; and every row is accounted for by a day or a sampled minute. */
  lemma FewRows(ops: seq<Op>, cutoff: int, generation: int, root: Range)
    requires root.start <= root.end
    ensures |RowsIn(Execute(ops, cutoff, generation).parts, Tree(root))| <= 2 * (root.end - root.start + 1) - 1
    ensures AllRooted(Execute(ops, cutoff, generation).parts, cutoff)
  {
    EveryRunKeeps(ops, cutoff, generation);
    var parts := Execute(ops, cutoff, generation).parts;
    DistinctRows(parts, Tree(root));
    TreeSize(root);
    SubsetSize(RangesIn(parts, Tree(root)), Tree(root));
  }

  // --------------------------------------------------------------- the table

  class Partitions {
    var parts: seq<Part>

    constructor ()
      ensures parts == []
    {
      parts := [];
    }

    method InsertRange(r: Range, sample: bool)
      modifies this
      ensures parts == Insert(old(parts), r, sample)
    {
      if !Exists(parts, r) { parts := parts + [Part(r, sample, Pending)]; }
    }

    method SeedAll(cutoff: int)
      modifies this
      ensures parts == Seed(old(parts), cutoff)
    {
      if cutoff < 0 { return; }
      var day := 0;
      while day * DAY <= cutoff
        invariant 0 <= day <= cutoff / DAY + 1
        invariant parts == SeedDays(old(parts), cutoff, day)
        decreases cutoff / DAY + 1 - day
      {
        InsertRange(Range(day * DAY, Min(day * DAY + DAY - 1, cutoff)), false);
        day := day + 1;
      }
    }

    /** SplitCoveragePartition: both halves, then the range itself. */
    method SplitPart(i: nat) returns (split: bool)
      requires i < |parts|
      modifies this
      ensures parts == Split(old(parts), i)
      ensures split <==> old(parts)[i].range.end - old(parts)[i].range.start >= 1
    {
      var part := parts[i];
      var seconds := part.range.end - part.range.start;
      if seconds < 1 {
        parts := parts[i := part.(status := Unresolved)];
        return false;
      }
      var middle := part.range.start + seconds / 2;
      var bounds := [Range(part.range.start, middle), Range(middle + 1, part.range.end)];
      var k := 0;
      while k < 2
        invariant 0 <= k <= 2 && i < |parts|
        invariant parts == (if k == 0 then old(parts) else if k == 1 then Insert(old(parts), Left(part.range), part.sample)
                            else Insert(Insert(old(parts), Left(part.range), part.sample), Right(part.range), part.sample))
        invariant parts[i] == part
      {
        InsertRange(bounds[k], part.sample);
        k := k + 1;
      }
      parts := parts[i := part.(status := Splitting)];
      split := true;
    }

    method MarkConsistent(i: nat, generation: int)
      requires i < |parts| && parts[i].range.start >= 0
      modifies this
      ensures parts == Consistent(old(parts), i, generation)
    {
      var part := parts[i];
      parts := parts[i := part.(status := CountConsistent)];
      var dayIndex := part.range.start / DAY;
      if !part.sample && (dayIndex + generation) % 100 == 0 {
        var minute := (dayIndex * 1103515245 + generation) % 1440;
        var start := part.range.start + minute * 60;
        if start < part.range.end {
          var end := start + 59;
          if end > part.range.end { end := part.range.end; }
          InsertRange(Range(start, end), true);
        }
      }
    }
  }
}
