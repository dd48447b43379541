/**
 One pacer per credential: the pool reserves on the lane that can start first, and
 opens a global breaker only for limits that hit several lanes together.
 */
module LanePool {
  import opened Prelude
  import opened Pacer

  /** How far a lane is from the round-robin position. */
  function Turn(next: int, n: int, lane: int): int { if lane >= next then lane - next else lane - next + n }

  /** The lane an offset after the round-robin position. */
  function LaneOf(next: int, n: int, offset: int): int
    requires n > 0
  {
    (next + offset) % n
  }

  lemma TurnOf(next: int, n: int, offset: int)
    requires 0 <= next < n && 0 <= offset < n
    ensures 0 <= LaneOf(next, n, offset) < n && Turn(next, n, LaneOf(next, n, offset)) == offset
  {
  }

  /** Every lane has its turn. */
  lemma LaneAt(next: int, n: int, lane: int)
    requires 0 <= next < n && 0 <= lane < n
    ensures 0 <= Turn(next, n, lane) < n && LaneOf(next, n, Turn(next, n, lane)) == lane
  {
  }

  class Pool {
    const lanes: seq<Lane>
    var next: int
    var globalCooldown: int
    var secondaryHitAt: seq<int>
    ghost var hits: seq<Option<int>>      // when each lane was last limited, if ever

    ghost predicate Valid()
      reads this
    {
      && |lanes| > 0 && 0 <= next < |lanes| && |secondaryHitAt| == |lanes| == |hits|
      && (forall i, j :: 0 <= i < j < |lanes| ==> lanes[i] != lanes[j])
      && (forall i :: 0 <= i < |lanes| ==> secondaryHitAt[i] == if hits[i].Some? then hits[i].value else 0)
    }

    ghost function ReadyOf(i: int, now: int): int
      reads this, lanes
    {
      if 0 <= i < |lanes| then Ready(lanes[i].Pacing(), globalCooldown, now) else 0
    }

    constructor (count: int, perHour: int, reserve: int)
      ensures Valid() && |lanes| == Max(count, 1) && next == 0 && globalCooldown == 0
      ensures forall i :: 0 <= i < |lanes| ==> lanes[i].Pacing() == New(perHour, reserve) && fresh(lanes[i])
      ensures forall i :: 0 <= i < |lanes| ==> hits[i] == None
    {
      var n := if count < 1 then 1 else count;
      var all: seq<Lane> := [];
      var index := 0;
      while index < n
        invariant 0 <= index <= n && |all| == index
        invariant forall i :: 0 <= i < index ==> all[i].Pacing() == New(perHour, reserve) && fresh(all[i])
        invariant forall i, j :: 0 <= i < j < index ==> all[i] != all[j]
      {
        var lane := new Lane(perHour, reserve);
        all := all + [lane];
        index := index + 1;
      }
      lanes := all;
      next, globalCooldown := 0, 0;
      secondaryHitAt := seq(n, _ => 0);
      hits := seq(n, _ => None);
    }

    /**
     Wait, with the clock fixed during the call.  The earliest start over all active
     lanes is reserved, the first of equals in round-robin order, never before the
     global cooldown; other lanes keep their pacing.  -1 when no lane is active.
     */
    method Wait(active: seq<bool>, now: int) returns (chosen: int, at: int)
      requires Valid() && |active| == |lanes|
      modifies this`next, lanes
      ensures Valid()
      ensures chosen < 0 <==> forall i :: 0 <= i < |lanes| ==> !active[i]
      ensures chosen < 0 ==> next == old(next) && forall i :: 0 <= i < |lanes| ==> lanes[i].Pacing() == old(lanes[i].Pacing())
      ensures chosen >= 0 ==>
                && chosen < |lanes| && active[chosen] && next == (chosen + 1) % |lanes|
                && at == Ready(old(lanes[chosen].Pacing()), globalCooldown, now) && at >= globalCooldown && at >= now
                && lanes[chosen].Pacing() == Reserved(old(lanes[chosen].Pacing()), globalCooldown, now)
      ensures chosen >= 0 ==> forall i :: 0 <= i < |lanes| && active[i] ==>
                var ready := Ready(old(lanes[i].Pacing()), globalCooldown, now);
                at < ready || (at == ready && Turn(old(next), |lanes|, chosen) <= Turn(old(next), |lanes|, i))
      ensures forall i :: 0 <= i < |lanes| && i != chosen ==> lanes[i].Pacing() == old(lanes[i].Pacing())
    {
      var n := |lanes|;
      chosen := -1;
      var earliest := 0;
      var offset := 0;
      while offset < n
        modifies {}
        invariant 0 <= offset <= n && -1 <= chosen < n
        invariant chosen < 0 ==> forall o :: 0 <= o < offset ==> !Taking(active, LaneOf(next, n, o))
        invariant chosen >= 0 ==>
          && active[chosen] && Turn(next, n, chosen) < offset && earliest == Ready(lanes[chosen].Pacing(), globalCooldown, now)
        invariant chosen >= 0 ==> forall o :: 0 <= o < offset && Taking(active, LaneOf(next, n, o)) ==>
          Before(earliest, Turn(next, n, chosen), ReadyOf(LaneOf(next, n, o), now), o)
      {
        var index := LaneOf(next, n, offset);
        TurnOf(next, n, offset);
        if active[index] {
          var ready := lanes[index].ReadyAt(globalCooldown, now);
          if chosen < 0 || ready < earliest { chosen, earliest := index, ready; }
        }
        offset := offset + 1;
      }
      forall i | 0 <= i < n
        ensures 0 <= Turn(next, n, i) < n && LaneOf(next, n, Turn(next, n, i)) == i
        ensures chosen < 0 ==> !active[i]
      {
        LaneAt(next, n, i);
        assert chosen < 0 ==> !Taking(active, LaneOf(next, n, Turn(next, n, i)));
      }
      if chosen < 0 { return -1, 0; }
      at := lanes[chosen].ReserveAfter(globalCooldown, now);
      next := (chosen + 1) % n;
    }

    /** WaitLane: a worker stays on its lane. */
    method WaitLane(lane: int, active: seq<bool>, now: int) returns (ok: bool, at: int)
      requires Valid() && |active| == |lanes|
      modifies lanes
      ensures ok <==> 0 <= lane < |lanes| && active[lane]
      ensures ok ==> at == Ready(old(lanes[lane].Pacing()), globalCooldown, now) && at >= globalCooldown
      ensures ok ==> lanes[lane].Pacing() == Reserved(old(lanes[lane].Pacing()), globalCooldown, now)
      ensures forall i :: 0 <= i < |lanes| && !(ok && i == lane) ==> lanes[i].Pacing() == old(lanes[i].Pacing())
    {
      if lane < 0 || lane >= |lanes| || !active[lane] { return false, 0; }
      at := lanes[lane].ReserveAfter(globalCooldown, now);
      ok := true;
    }

    /**
     SecondaryLimit.  The global breaker moves only when another lane was limited within
     the last 30 seconds, and then lasts a minute at least.
     */
    method SecondaryLimit(lane: int, wait: int, now: int)
      requires Valid() && now > 30 * SECOND
      modifies this`globalCooldown, this`secondaryHitAt, this`hits, lanes
      ensures Valid()
      ensures forall i :: 0 <= i < |lanes| ==>
                lanes[i].Pacing() == if i == lane then Hit(old(lanes[i].Pacing()), wait, now) else old(lanes[i].Pacing())
      ensures hits == if 0 <= lane < |lanes| then old(hits)[lane := Some(now)] else old(hits)
      ensures globalCooldown == if Correlated(old(hits), lane, now) then Max(old(globalCooldown), now + Max(wait, MINUTE)) else old(globalCooldown)
    {
      if lane < 0 || lane >= |lanes| { return; }
      lanes[lane].TakeHit(wait, now);
      secondaryHitAt := secondaryHitAt[lane := now];
      var correlated := 0;
      var index := 0;
      while index < |lanes|
        invariant 0 <= index <= |lanes| && correlated >= 0
        invariant correlated > 0 <==> exists i :: 0 <= i < index && i != lane && RecentHit(hits[i], now)
      {
        if index != lane && now - secondaryHitAt[index] <= 30 * SECOND { correlated := correlated + 1; }
        index := index + 1;
      }
      hits := hits[lane := Some(now)];
      if correlated > 0 {
        var until := now + (if wait < MINUTE then MINUTE else wait);
        if until > globalCooldown { globalCooldown := until; }
      }
    }
  }

  predicate Taking(active: seq<bool>, i: int) { 0 <= i < |active| && active[i] }

  predicate Before(at: int, turn: int, ready: int, offset: int) { at < ready || (at == ready && turn <= offset) }

  predicate RecentHit(hit: Option<int>, now: int) { hit.Some? && now - hit.value <= 30 * SECOND }

  /** Some other lane was limited within the last 30 seconds. */
  ghost predicate Correlated(hits: seq<Option<int>>, lane: int, now: int) {
    0 <= lane < |hits| && exists i :: 0 <= i < |hits| && i != lane && RecentHit(hits[i], now)
  }
}
