/**
 Request pacing for one credential: reservations spaced by an interval that
 doubles with every secondary rate limit and recovers slowly.

 Times and durations are nanoseconds; the clock starts far after time zero, which
 stands for an unset time.
 */
module Pacer {
  import opened Prelude

  const SECOND: int := 1_000_000_000
  const MINUTE: int := 60 * SECOND
  const HOUR: int := 60 * MINUTE

  datatype State = State(
    base: int, interval: int, next: int, cooldown: int, reserve: int, strikes: int, successes: int, lastSecondary: int)

  /** x times two to the k, for k up to 3. */
  function Doubled(x: int, k: int): int { if k <= 0 then x else if k == 1 then 2 * x else if k == 2 then 4 * x else 8 * x }

  function New(perHour: int, reserve: int): State {
    var interval := HOUR / Max(perHour, 1);
    State(interval, interval, 0, 0, reserve, 0, 0, 0)
  }

  /** When a reservation made now would start. */
  function Ready(s: State, notBefore: int, now: int): int { Max(Max(Max(s.next, now), s.cooldown), notBefore) }

  function Reserved(s: State, notBefore: int, now: int): State { s.(next := Ready(s, notBefore, now) + s.interval) }

  function Cooled(s: State, wait: int, now: int): State {
    if wait <= 0 then s else s.(cooldown := Max(s.cooldown, now + wait))
  }

  /** A success; a thousand of them take back one strike. */
  function Succeeded(s: State): State {
    if s.strikes <= 0 then s
    else if s.successes + 1 < 1000 then s.(successes := s.successes + 1)
    else s.(strikes := s.strikes - 1, successes := 0, interval := Doubled(s.base, s.strikes - 1))
  }

  function Observed(s: State, limit: int, remaining: int, resetAt: Option<int>, now: int): State {
    var s1 := Succeeded(s);
    if limit == 0 || remaining > s.reserve || resetAt.None? then s1 else Cooled(s1, resetAt.value - now + SECOND, now)
  }

  /** A secondary limit; hits within 30 seconds count as one strike. */
  function Hit(s: State, minimumWait: int, now: int): State {
    var strike := now - s.lastSecondary >= 30 * SECOND;
    var strikes := if strike && s.strikes < 3 then s.strikes + 1 else s.strikes;
    s.(strikes := strikes, lastSecondary := if strike then now else s.lastSecondary, successes := 0,
       interval := Doubled(s.base, strikes),
       cooldown := Max(s.cooldown, now + Min(Doubled(Max(minimumWait, MINUTE), Max(1, strikes) - 1), 15 * MINUTE)))
  }

  function Charge(s: State, cost: int): int { if cost <= 1 then 0 else (cost - 1) * s.interval }

  function Charged(s: State, cost: int): State { s.(next := s.next + Charge(s, cost)) }

  // --------------------------------------------------------------- whole runs

  datatype Op =
    | Reserve(notBefore: int, now: int)
    | Observe(limit: int, remaining: int, resetAt: Option<int>, now: int)
    | SecondaryLimit(minimumWait: int, now: int)
    | ExtraCost(cost: int)
    | Cooldown(wait: int, now: int)

  /** A reservation: its start, the extra cost charged before it, and the cooldown then in force. */
  datatype Slot = Slot(at: int, charged: int, cooldown: int)

  datatype Log = Log(state: State, slots: seq<Slot>, charged: int)

  function Step(l: Log, op: Op): Log {
    match op
    case Reserve(notBefore, now) =>
      l.(state := Reserved(l.state, notBefore, now),
         slots := l.slots + [Slot(Ready(l.state, notBefore, now), l.charged, l.state.cooldown)])
    case Observe(limit, remaining, resetAt, now) => l.(state := Observed(l.state, limit, remaining, resetAt, now))
    case SecondaryLimit(wait, now) => l.(state := Hit(l.state, wait, now))
    case ExtraCost(cost) => l.(state := Charged(l.state, cost), charged := l.charged + Charge(l.state, cost))
    case Cooldown(wait, now) => l.(state := Cooled(l.state, wait, now))
  }

  function Run(start: State, ops: seq<Op>): Log {
    if |ops| == 0 then Log(start, [], 0) else Step(Run(start, ops[..|ops| - 1]), ops[|ops| - 1])
  }

  // ----------------------------------------------------------------- the state

  ghost predicate Ok(s: State) {
    && s.base >= 0 && 0 <= s.strikes <= 3 && 0 <= s.successes < 1000 && s.interval == Doubled(s.base, s.strikes)
  }

  /** The interval is always the base times two to the number of strikes, of which there are at most three. */
  lemma StepOk(l: Log, op: Op)
    requires Ok(l.state)
    ensures Ok(Step(l, op).state) && Step(l, op).state.base == l.state.base
    ensures l.state.base <= l.state.interval
    ensures l.state.cooldown <= Step(l, op).state.cooldown
    ensures Step(l, op).charged >= l.charged
  {
  }

  /** A limit pauses the credential for a minute at least and, unless something longer is in force, fifteen at most. */
  lemma HitPauses(s: State, minimumWait: int, now: int)
    requires Ok(s)
    ensures now + MINUTE <= Hit(s, minimumWait, now).cooldown
    ensures Hit(s, minimumWait, now).cooldown <= Max(s.cooldown, now + 15 * MINUTE)
    ensures now + Min(minimumWait, 15 * MINUTE) <= Hit(s, minimumWait, now).cooldown
  {
  }

  // ------------------------------------------------------------- the guarantee

  ghost predicate LogOk(l: Log, base: int) {
    && Ok(l.state) && l.state.base == base
    && (forall k :: 0 <= k < |l.slots| ==> l.slots[k].cooldown <= l.slots[k].at)
    && (forall k :: 0 <= k < |l.slots| - 1 ==>
          l.slots[k].at + base + (l.slots[k + 1].charged - l.slots[k].charged) <= l.slots[k + 1].at
          && l.slots[k].charged <= l.slots[k + 1].charged)
    && (|l.slots| > 0 ==>
          var last := l.slots[|l.slots| - 1]; last.at + base + (l.charged - last.charged) <= l.state.next && last.charged <= l.charged)
  }

  lemma StepLog(l: Log, op: Op, base: int)
    requires LogOk(l, base)
    ensures LogOk(Step(l, op), base)
  {
    StepOk(l, op);
    match op
    case Reserve(notBefore, now) =>
    case _ => assert Step(l, op).slots == l.slots;
  }

  lemma {:induction false} RunOk(start: State, ops: seq<Op>)
    requires Ok(start)
    ensures LogOk(Run(start, ops), start.base)
  {
    if |ops| > 0 {
      var l := Run(start, ops[..|ops| - 1]);
      RunOk(start, ops[..|ops| - 1]);
      StepLog(l, ops[|ops| - 1], start.base);
    }
  }

  /** Reservations i and j are at least (j - i) base intervals apart, plus all extra cost charged between them. */
  lemma {:induction false} Spacing(start: State, ops: seq<Op>, i: nat, j: nat)
    requires Ok(start) && i <= j < |Run(start, ops).slots|
    ensures var s := Run(start, ops).slots;
            s[j].at - s[i].at >= (j - i) * start.base + (s[j].charged - s[i].charged) && s[i].charged <= s[j].charged
  {
    RunOk(start, ops);
    if i < j {
      Spacing(start, ops, i, j - 1);
      assert (j - i) * start.base == (j - 1 - i) * start.base + start.base;
    } else {
      assert (j - i) * start.base == 0;
    }
  }

  /** Any window of length T holds at most ceil(T / base) reservations. */
  lemma WindowBound(start: State, ops: seq<Op>, i: nat, j: nat, t: int, T: int)
    requires Ok(start) && start.base >= 1 && i <= j < |Run(start, ops).slots|
    requires t <= Run(start, ops).slots[i].at && Run(start, ops).slots[j].at < t + T
    ensures j - i + 1 <= (T + start.base - 1) / start.base
  {
    Spacing(start, ops, i, j);
    Ceiling(j - i, start.base, T);
  }

  lemma Ceiling(n: int, b: int, T: int)
    requires b >= 1 && n * b < T
    ensures n + 1 <= (T + b - 1) / b
  {
    var q := (T + b - 1) / b;
    assert T + b - 1 == q * b + (T + b - 1) % b;
  }

  lemma {:induction false} CooldownsGrow(start: State, ops: seq<Op>, n: nat)
    requires Ok(start) && n <= |ops|
    ensures Run(start, ops[..n]).state.cooldown <= Run(start, ops).state.cooldown
    ensures |Run(start, ops[..n]).slots| <= |Run(start, ops).slots|
    ensures forall k :: |Run(start, ops[..n]).slots| <= k < |Run(start, ops).slots| ==>
              Run(start, ops[..n]).state.cooldown <= Run(start, ops).slots[k].cooldown
  {
    if n == |ops| {
      assert ops[..n] == ops;
    } else {
      var front := ops[..|ops| - 1];
      CooldownsGrow(start, front, n);
      assert front[..n] == ops[..n];
      RunOk(start, front);
      StepOk(Run(start, front), ops[|ops| - 1]);
    }
  }

  /** The answer says that only the reserve is left until a time still to come. */
  predicate SpentUntil(s: State, op: Op) {
    op.Observe? && op.limit != 0 && op.remaining <= s.reserve && op.resetAt.Some? && op.now < op.resetAt.value + SECOND
  }

  /**
   No reservation made after a cooldown was set starts inside it, whether it was asked
   for, follows a secondary limit, or waits for the limit to reset once the reserve is reached.
   */
  lemma CooldownRespected(start: State, ops: seq<Op>, n: nat, k: nat)
    requires Ok(start) && n < |ops| && |Run(start, ops[..n + 1]).slots| <= k < |Run(start, ops).slots|
    ensures ops[n].Cooldown? && ops[n].wait > 0 ==> ops[n].now + ops[n].wait <= Run(start, ops).slots[k].at
    ensures ops[n].SecondaryLimit? ==> ops[n].now + MINUTE <= Run(start, ops).slots[k].at
    ensures ops[n].Observe? && SpentUntil(Run(start, ops[..n]).state, ops[n]) ==>
              ops[n].resetAt.value + SECOND <= Run(start, ops).slots[k].at
  {
    CooldownsGrow(start, ops, n + 1);
    RunOk(start, ops);
    RunOk(start, ops[..n]);
    assert ops[..n + 1][..n] == ops[..n];
    if ops[n].SecondaryLimit? { HitPauses(Run(start, ops[..n]).state, ops[n].minimumWait, ops[n].now); }
  }

  // ----------------------------------------------------------------- the object

  class Lane {
    var baseInterval: int
    var interval: int
    var next: int
    var cooldown: int
    var reserve: int
    var secondaryStrikes: int
    var successesSinceHit: int
    var lastSecondary: int

    function Pacing(): State
      reads this
    {
      State(baseInterval, interval, next, cooldown, reserve, secondaryStrikes, successesSinceHit, lastSecondary)
    }

    constructor (perHour: int, reserve: int)
      ensures Pacing() == New(perHour, reserve) && Ok(Pacing())
    {
      var hourly := if perHour < 1 then 1 else perHour;
      var spacing := HOUR / hourly;
      baseInterval, interval := spacing, spacing;
      next, cooldown, secondaryStrikes, successesSinceHit, lastSecondary := 0, 0, 0, 0, 0;
      this.reserve := reserve;
      new;
    }

    method ReadyAt(notBefore: int, now: int) returns (at: int)
      ensures at == Ready(Pacing(), notBefore, now)
    {
      at := next;
      if at < now { at := now; }
      if at < cooldown { at := cooldown; }
      if at < notBefore { at := notBefore; }
    }

    method ReserveAfter(notBefore: int, now: int) returns (at: int)
      modifies this
      ensures at == Ready(old(Pacing()), notBefore, now)
      ensures Pacing() == Reserved(old(Pacing()), notBefore, now)
    {
      at := ReadyAt(notBefore, now);
      next := at + interval;
    }

    method CoolDown(wait: int, now: int)
      modifies this
      ensures Pacing() == Cooled(old(Pacing()), wait, now)
    {
      if wait <= 0 { return; }
      var until := now + wait;
      if until > cooldown { cooldown := until; }
    }

    method ObserveRate(limit: int, remaining: int, resetAt: Option<int>, now: int)
      modifies this
      ensures Pacing() == Observed(old(Pacing()), limit, remaining, resetAt, now)
    {
      if secondaryStrikes > 0 {
        successesSinceHit := successesSinceHit + 1;
        if successesSinceHit >= 1000 {
          secondaryStrikes := secondaryStrikes - 1;
          successesSinceHit := 0;
          interval := Doubled(baseInterval, secondaryStrikes);
        }
      }
      if limit == 0 || remaining > reserve || resetAt.None? { return; }
      CoolDown(resetAt.value - now + SECOND, now);
    }

    method TakeHit(minimumWait: int, now: int)
      modifies this
      ensures Pacing() == Hit(old(Pacing()), minimumWait, now)
    {
      var wait := if minimumWait < MINUTE then MINUTE else minimumWait;
      if now - lastSecondary >= 30 * SECOND {
        if secondaryStrikes < 3 { secondaryStrikes := secondaryStrikes + 1; }
        lastSecondary := now;
      }
      successesSinceHit := 0;
      interval := Doubled(baseInterval, secondaryStrikes);
      wait := Doubled(wait, Max(1, secondaryStrikes) - 1);
      if wait > 15 * MINUTE { wait := 15 * MINUTE; }
      var until := now + wait;
      if until > cooldown { cooldown := until; }
    }

    method AddCost(cost: int)
      modifies this
      ensures Pacing() == Charged(old(Pacing()), cost) && Pacing().(next := old(next)) == old(Pacing())
      ensures Ok(old(Pacing())) ==> Ok(Pacing()) && old(next) <= next
      ensures cost > 1 ==> next - old(next) == (cost - 1) * interval
    {
      if cost <= 1 { return; }
      next := next + (cost - 1) * interval;
    }
  }
}
