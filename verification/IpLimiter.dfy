/**
 The per-client limiter of the API: fixed windows, and a clean-up that forgets
 expired windows once many clients are known.

 A limiter that never forgets is the reference; the clean-up is proved invisible.
 */
module IpLimiter {
  import opened Prelude

  /** Times are nanoseconds; a client without an entry has the zero window. */
  datatype Window = Window(start: int, count: nat)

  type Items = map<string, Window>

  datatype Call = Call(key: string, now: int)

  const MANY: nat := 10_000

  // --------------------------------------------------------------- reference

  /** The window a call falls into. */
  function Current(items: Items, key: string, now: int, window: int): Window {
    if key !in items || now - items[key].start >= window then Window(now, 0) else items[key]
  }

  function Counted(items: Items, c: Call, window: int): Items {
    var w := Current(items, c.key, c.now, window);
    items[c.key := w.(count := w.count + 1)]
  }

  function Granted(items: Items, c: Call, limit: int, window: int): bool {
    Current(items, c.key, c.now, window).count + 1 <= limit
  }

  function Remembered(calls: seq<Call>, window: int): Items {
    if |calls| == 0 then map[] else Counted(Remembered(calls[..|calls| - 1], window), calls[|calls| - 1], window)
  }

  // ---------------------------------------------------------------- eviction

  function Evicted(items: Items, now: int, window: int): Items {
    if |items| <= MANY then items else map k | k in items && now - items[k].start < window :: items[k]
  }

  function Kept(calls: seq<Call>, window: int): Items {
    if |calls| == 0 then map[]
    else
      var c := calls[|calls| - 1];
      Evicted(Counted(Kept(calls[..|calls| - 1], window), c, window), c.now, window)
  }

  ghost predicate Monotone(calls: seq<Call>) {
    forall i, j :: 0 <= i < j < |calls| ==> calls[i].now <= calls[j].now
  }

  /** What was forgotten had expired; what is kept is the same. */
  ghost predicate Agree(full: Items, kept: Items, now: int, window: int) {
    && (forall k :: k in kept ==> k in full && full[k] == kept[k])
    && (forall k :: k in full && k !in kept ==> now - full[k].start >= window)
  }

  lemma CallAgrees(full: Items, kept: Items, before: int, c: Call, window: int)
    requires Agree(full, kept, before, window) && before <= c.now
    ensures Current(full, c.key, c.now, window) == Current(kept, c.key, c.now, window)
    ensures Agree(Counted(full, c, window), Evicted(Counted(kept, c, window), c.now, window), c.now, window)
  {
  }

  lemma {:induction false} Agreement(calls: seq<Call>, window: int)
    requires Monotone(calls)
    ensures |calls| > 0 ==> Agree(Remembered(calls, window), Kept(calls, window), calls[|calls| - 1].now, window)
  {
    if |calls| > 0 {
      var n := |calls| - 1;
      var front, c := calls[..n], calls[n];
      Agreement(front, window);
      var before := if n == 0 then c.now else calls[n - 1].now;
      assert n > 0 ==> front[n - 1] == calls[n - 1];
      CallAgrees(Remembered(front, window), Kept(front, window), before, c, window);
    }
  }

  /** Eviction is invisible: after any calls on a monotone clock, the next call is answered as if nothing had been forgotten. */
  lemma EvictionInvisible(calls: seq<Call>, c: Call, limit: int, window: int)
    requires Monotone(calls + [c])
    ensures Granted(Kept(calls, window), c, limit, window) == Granted(Remembered(calls, window), c, limit, window)
  {
    forall i, j | 0 <= i < j < |calls|
      ensures calls[i].now <= calls[j].now
    {
      assert (calls + [c])[i] == calls[i] && (calls + [c])[j] == calls[j];
    }
    if |calls| > 0 {
      assert (calls + [c])[|calls| - 1] == calls[|calls| - 1] && (calls + [c])[|calls|] == c;
      Agreement(calls, window);
      CallAgrees(Remembered(calls, window), Kept(calls, window), calls[|calls| - 1].now, c, window);
    }
  }

  lemma KeptNext(calls: seq<Call>, c: Call, window: int)
    ensures Kept(calls + [c], window) == Evicted(Counted(Kept(calls, window), c, window), c.now, window)
  {
    assert (calls + [c])[..|calls|] == calls;
  }

  // --------------------------------------------------------- grants per window

  /** The calls of a client granted in its current window. */
  function GrantedNow(calls: seq<Call>, key: string, limit: int, window: int): nat {
    if |calls| == 0 then 0
    else
      var front, c := calls[..|calls| - 1], calls[|calls| - 1];
      var items := Remembered(front, window);
      if c.key != key then GrantedNow(front, key, limit, window)
      else
        (if Current(items, key, c.now, window).count == 0 then 0 else GrantedNow(front, key, limit, window))
        + (if Granted(items, c, limit, window) then 1 else 0)
  }

  /** Exactly the first `limit` calls of a window are granted. */
  lemma {:induction false} GrantsBounded(calls: seq<Call>, key: string, limit: int, window: int)
    ensures GrantedNow(calls, key, limit, window) <= Max(limit, 0)
    ensures key in Remembered(calls, window) ==>
              GrantedNow(calls, key, limit, window) == Min(Remembered(calls, window)[key].count, Max(limit, 0))
    ensures key !in Remembered(calls, window) ==> GrantedNow(calls, key, limit, window) == 0
    ensures key in Remembered(calls, window) ==> Remembered(calls, window)[key].count >= 1
  {
    if |calls| > 0 { GrantsBounded(calls[..|calls| - 1], key, limit, window); }
  }

  /** A client's next window starts only when its last one is over. */
  lemma WindowsDisjoint(items: Items, c: Call, window: int)
    requires c.key in items
    ensures var w := Counted(items, c, window)[c.key];
            w.start == items[c.key].start || (w.start == c.now && w.start >= items[c.key].start + window && w.count == 1)
  {
  }

  // ----------------------------------------------------------------- the object

  class Limiter {
    const limit: int
    const window: int
    var items: Items
    ghost var calls: seq<Call>

    ghost predicate Valid()
      reads this
    {
      Monotone(calls) && items == Kept(calls, window)
    }

    constructor (limit: int, window: int)
      ensures Valid() && calls == [] && this.limit == limit && this.window == window
    {
      this.limit, this.window := limit, window;
      items, calls := map[], [];
    }

    /** allow: the answer is that of a limiter that never forgets. */
    method Allow(key: string, now: int) returns (allowed: bool)
      requires Valid() && (|calls| > 0 ==> calls[|calls| - 1].now <= now)
      modifies this
      ensures Valid() && calls == old(calls) + [Call(key, now)]
      ensures allowed == Granted(Remembered(old(calls), window), Call(key, now), limit, window)
    {
      ghost var before := calls;
      var item := if key in items then items[key] else Window(now, 0);
      if now - item.start >= window { item := Window(now, 0); }
      item := item.(count := item.count + 1);
      items := items[key := item];
      assert items == Counted(Kept(before, window), Call(key, now), window);
      if |items| > MANY { items := Sweep(items, now); }
      calls := calls + [Call(key, now)];
      KeptNext(before, Call(key, now), window);
      EvictionInvisible(before, Call(key, now), limit, window);
      allowed := item.count <= limit;
    }

    method Sweep(all: Items, now: int) returns (live: Items)
      ensures live == map k | k in all && now - all[k].start < window :: all[k]
    {
      live := all;
      var rest := all.Keys;
      while rest != {}
        invariant rest <= all.Keys
        invariant live == map k | k in all && (k in rest || now - all[k].start < window) :: all[k]
      {
        var candidate :| candidate in rest;
        if now - all[candidate].start >= window { live := live - {candidate}; }
        rest := rest - {candidate};
      }
    }
  }
}
