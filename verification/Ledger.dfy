/**
 The coverage ledger of one generation: bitmaps in chunks of 8192 bits, a counter
 for each, and successful accounts per creation day.
 */
module Ledger {
  import opened Prelude

  const CHUNK: int := 8192
  const DAY: int := 86400

  type Chunks = map<int, seq<bool>>

  function Blank(): seq<bool> { seq(CHUNK, _ => false) }

  ghost predicate ChunksOk(chunks: Chunks) { forall c :: c in chunks ==> c >= 0 && |chunks[c]| == CHUNK }

  /** The set a bitmap stands for. */
  ghost function IdsOf(chunks: Chunks): set<int> {
    set c, o | c in chunks && 0 <= o < |chunks[c]| && chunks[c][o] :: c * CHUNK + o
  }

  ghost predicate Bit(chunks: Chunks, c: int, o: int) { c in chunks && 0 <= o < |chunks[c]| && chunks[c][o] }

  lemma IdsIff(chunks: Chunks, x: int)
    requires ChunksOk(chunks) && x >= 0
    ensures x in IdsOf(chunks) <==> Bit(chunks, x / CHUNK, x % CHUNK)
  {
    if x in IdsOf(chunks) {
      var c, o :| c in chunks && 0 <= o < |chunks[c]| && chunks[c][o] && c * CHUNK + o == x;
      assert c == x / CHUNK && o == x % CHUNK;
    }
    if Bit(chunks, x / CHUNK, x % CHUNK) { assert x / CHUNK * CHUNK + x % CHUNK == x; }
  }

  ghost predicate Distinct(s: seq<int>) { forall i, j :: 0 <= i < j < |s| ==> s[i] != s[j] }

  /** `changed` lists exactly the new elements of `ids`, once each. */
  ghost predicate ListsNew(changed: seq<int>, ids: set<int>, before: set<int>) {
    Elements(changed) == ids - before && Distinct(changed)
  }

  lemma NewSize(changed: seq<int>, ids: set<int>, before: set<int>)
    requires ListsNew(changed, ids, before)
    ensures |before + ids| == |before| + |changed|
  {
    DistinctSize(changed);
    assert before + ids == before + (ids - before);
  }

  lemma NewFacts(changed: seq<int>, ids: set<int>, before: set<int>)
    requires ListsNew(changed, ids, before)
    ensures Distinct(changed) && |before + ids| == |before| + |changed|
    ensures forall x :: x in changed <==> x in ids && x !in before
  {
    NewSize(changed, ids, before);
    forall x ensures x in changed <==> x in ids && x !in before { assert x in Elements(changed) <==> x in ids - before; }
  }

  lemma AppendElement(s: seq<int>, x: int)
    ensures Elements(s + [x]) == Elements(s) + {x}
  {
  }

  class Bitmap {
    var chunks: Chunks

    ghost predicate Valid()
      reads this
    {
      ChunksOk(chunks)
    }

    ghost function Ids(): set<int>
      reads this
    {
      IdsOf(chunks)
    }

    constructor ()
      ensures Valid() && Ids() == {}
    {
      chunks := map[];
    }

    /** The row is created with all bits clear when it is missing. */
    method EnsureChunk(chunk: int)
      requires Valid() && chunk >= 0
      modifies this
      ensures Valid() && Ids() == old(Ids()) && chunk in chunks
    {
      if chunk !in chunks {
        EmptyChunk(chunks, chunk);
        chunks := chunks[chunk := Blank()];
      }
    }

    /** One chunk: its bits are copied out, set, and written back. */
    method SetChunk(chunk: int, ids: seq<int>) returns (changed: seq<int>)
      requires Valid() && forall x :: x in ids ==> x > 0 && x / CHUNK == chunk
      requires chunk >= 0
      modifies this
      ensures Valid() && Ids() == old(Ids()) + Elements(ids)
      ensures ListsNew(changed, Elements(ids), old(Ids()))
    {
      EnsureChunk(chunk);
      ghost var before := chunks;
      var current := chunks[chunk];
      var updated := new bool[8192](o requires 0 <= o < 8192 => current[o]);
      changed := [];
      var k := 0;
      while k < |ids|
        modifies updated
        invariant 0 <= k <= |ids|
        invariant forall o :: 0 <= o < 8192 ==> (updated[o] <==> current[o] || chunk * CHUNK + o in ids[..k])
        invariant ListsNew(changed, Elements(ids[..k]), IdsOf(before))
      {
        var id := ids[k];
        assert id in ids;
        var offset := id % CHUNK;
        IdsIff(before, id);
        assert chunk * CHUNK + offset == id;
        if !updated[offset] {
          AppendElement(changed, id);
          assert id !in Elements(changed);
          updated[offset] := true;
          changed := changed + [id];
        } else {
          assert id in IdsOf(before) || id in Elements(ids[..k]);
        }
        k := k + 1;
      }
      assert ids[..k] == ids;
      var bits := updated[..];
      WrittenBack(before, chunk, bits, ids);
      chunks := chunks[chunk := bits];
    }

    /** Set the bits of a list of IDs, chunk by chunk in ascending order; an ID that is not positive refuses the whole list. */
    method SetBits(ids: seq<int>) returns (ok: bool, changed: seq<int>)
      requires Valid()
      modifies this
      ensures Valid()
      ensures ok <==> forall x :: x in ids ==> x > 0
      ensures ok ==> Ids() == old(Ids()) + Elements(ids) && ListsNew(changed, Elements(ids), old(Ids()))
      ensures !ok ==> Ids() == old(Ids()) && changed == []
    {
      var grouped, groups := Group(ids);
      changed := [];
      if !grouped { return false, []; }
      var rest := groups.Keys;
      while rest != {}
        invariant rest <= groups.Keys && Valid()
        invariant Ids() == old(Ids()) + InGroups(ids, groups.Keys - rest)
        invariant ListsNew(changed, InGroups(ids, groups.Keys - rest), old(Ids()))
      {
        ghost var least := HasLeast(rest);
        var chunk :| chunk in rest && forall c :: c in rest ==> chunk <= c;
        ghost var seen := Ids();
        var more := SetChunk(chunk, groups[chunk]);
        JoinNew(changed, more, InGroups(ids, groups.Keys - rest), Elements(groups[chunk]), old(Ids()), seen);
        changed := changed + more;
        rest := rest - {chunk};
      }
      assert groups.Keys - rest == groups.Keys;
      ok := true;
    }

    method Group(ids: seq<int>) returns (ok: bool, groups: map<int, seq<int>>)
      ensures ok <==> forall x :: x in ids ==> x > 0
      ensures ok ==> Grouped(ids, groups)
    {
      groups := map[];
      var i := 0;
      while i < |ids|
        invariant 0 <= i <= |ids|
        invariant forall x :: x in ids[..i] ==> x > 0
        invariant Grouped(ids[..i], groups)
      {
        var id := ids[i];
        if id <= 0 {
          assert id in ids;
          return false, map[];
        }
        assert ids[..i + 1] == ids[..i] + [id];
        var chunk := id / CHUNK;
        groups := groups[chunk := (if chunk in groups then groups[chunk] else []) + [id]];
        i := i + 1;
      }
      assert ids[..i] == ids;
      ok := true;
    }
  }

  lemma EmptyChunk(chunks: Chunks, chunk: int)
    requires ChunksOk(chunks) && chunk !in chunks && chunk >= 0
    ensures var more := chunks[chunk := Blank()]; ChunksOk(more) && IdsOf(more) == IdsOf(chunks)
  {
    var more := chunks[chunk := Blank()];
    forall x: int | x >= 0
      ensures x in IdsOf(chunks) <==> x in IdsOf(more)
    {
      IdsIff(chunks, x);
      IdsIff(more, x);
    }
  }

  lemma WrittenBack(before: Chunks, chunk: int, bits: seq<bool>, ids: seq<int>)
    requires ChunksOk(before) && chunk in before && |bits| == CHUNK
    requires forall x :: x in ids ==> x > 0 && x / CHUNK == chunk
    requires forall o :: 0 <= o < CHUNK ==> (bits[o] <==> before[chunk][o] || chunk * CHUNK + o in ids)
    ensures ChunksOk(before[chunk := bits]) && IdsOf(before[chunk := bits]) == IdsOf(before) + Elements(ids)
  {
    var after := before[chunk := bits];
    forall x: int | x >= 0
      ensures x in IdsOf(after) <==> x in IdsOf(before) || x in ids
    {
      IdsIff(before, x);
      IdsIff(after, x);
      assert x / CHUNK * CHUNK + x % CHUNK == x;
    }
  }

  ghost predicate Grouped(ids: seq<int>, groups: map<int, seq<int>>) {
    && (forall c :: c in groups ==> forall x :: x in groups[c] ==> x in ids && x / CHUNK == c && x > 0)
    && (forall x :: x in ids ==> x / CHUNK in groups && x in groups[x / CHUNK])
    && (forall c :: c in groups ==> c >= 0)
  }

  ghost function InGroups(ids: seq<int>, done: set<int>): set<int> { set x | x in ids && x / CHUNK in done }

  lemma JoinNew(a: seq<int>, b: seq<int>, x: set<int>, y: set<int>, before: set<int>, middle: set<int>)
    requires ListsNew(a, x, before) && ListsNew(b, y, middle) && middle == before + x && x !! y
    ensures ListsNew(a + b, x + y, before)
  {
    assert Elements(a + b) == Elements(a) + Elements(b);
    forall i, j | 0 <= i < j < |a + b|
      ensures (a + b)[i] != (a + b)[j]
    {
      if i < |a| <= j { assert a[i] in Elements(a) && b[j - |a|] in Elements(b); }
    }
  }

  // ---------------------------------------------------------------- counters

  ghost function Born(days: map<int, int>, d: int): set<int> { set x | x in days && days[x] == d }

  ghost function Sum(counts: map<int, nat>, keys: set<int>): nat
    requires keys <= counts.Keys
  {
    if keys == {} then 0
    else
      HasElement(keys);
      var k :| k in keys;
      counts[k] + Sum(counts, keys - {k})
  }

  /** Accounts born on a day of `keys` are as many as the counts of these days add up to. */
  lemma {:induction false} SumIsSize(counts: map<int, nat>, days: map<int, int>, keys: set<int>)
    requires keys <= counts.Keys && forall d :: d in counts ==> counts[d] == |Born(days, d)|
    ensures Sum(counts, keys) == |set x | x in days && days[x] in keys|
  {
    if keys == {} {
      assert (set x | x in days && days[x] in keys) == {};
    } else {
      HasElement(keys);
      var k :| k in keys && Sum(counts, keys) == counts[k] + Sum(counts, keys - {k});
      SumIsSize(counts, days, keys - {k});
      var rest := set x | x in days && days[x] in keys - {k};
      assert (set x | x in days && days[x] in keys) == Born(days, k) + rest;
      assert Born(days, k) !! rest;
    }
  }

  /** The discovered or the inaccessible accounts of a generation. */
  class CountedBitmap {
    const bits: Bitmap
    var accounts: nat

    ghost predicate Valid()
      reads this, bits
    {
      bits.Valid() && accounts == |bits.Ids()|
    }

    constructor ()
      ensures Valid() && bits.Ids() == {} && fresh(bits)
    {
      bits := new Bitmap();
      accounts := 0;
    }

    /** markCoverageDiscoveredTx and markCoverageInaccessibleTx. */
    method Mark(ids: seq<int>) returns (ok: bool)
      requires Valid()
      modifies this, bits
      ensures Valid()
      ensures ok <==> forall x :: x in ids ==> x > 0
      ensures bits.Ids() == if ok then old(bits.Ids()) + Elements(ids) else old(bits.Ids())
    {
      var changed;
      ok, changed := bits.SetBits(ids);
      if ok {
        NewSize(changed, Elements(ids), old(bits.Ids()));
        accounts := accounts + |changed|;
      }
    }
  }

  /** The successful accounts of a generation, which are also counted per creation day. */
  class DatedBitmap {
    const bits: Bitmap
    var accounts: nat
    var dayCounts: map<int, nat>
    ghost var days: map<int, int>        // the creation day each account was counted under

    ghost predicate Valid()
      reads this, bits
    {
      bits.Valid() && accounts == |bits.Ids()| && DaysOk(dayCounts, days) && days.Keys == bits.Ids()
    }

    constructor ()
      ensures Valid() && bits.Ids() == {} && fresh(bits)
    {
      bits := new Bitmap();
      accounts, dayCounts, days := 0, map[], map[];
      new;
      assert forall d :: Born(map[], d) == {};
    }

    /**
     markCoverageSuccessfulTx.  `createdAt` gives the creation second of each account, or
     None for an unset time, which undoes the transaction when the account is new.
     */
    method Mark(createdAt: map<int, Option<nat>>) returns (ok: bool)
      requires Valid()
      modifies this, bits
      ensures Valid()
      ensures ok <==> (forall x :: x in createdAt ==> x > 0) && Dated(createdAt, old(bits.Ids()))
      ensures bits.Ids() == if ok then old(bits.Ids()) + createdAt.Keys else old(bits.Ids())
      ensures !ok ==> dayCounts == old(dayCounts)
      ensures ok ==> forall x :: x in createdAt && x !in old(bits.Ids()) ==> days[x] == createdAt[x].value / DAY
    {
      var ids := Listed(createdAt.Keys);
      var savedChunks := bits.chunks;
      var changed;
      ok, changed := bits.SetBits(ids);
      if !ok { return false; }
      ok := CountNew(changed, createdAt, old(bits.Ids()));
      if !ok { bits.chunks := savedChunks; }
    }

    /** The bits are set; the counters follow, unless an account has no creation time. */
    method CountNew(changed: seq<int>, createdAt: map<int, Option<nat>>, ghost before: set<int>) returns (ok: bool)
      requires ListsNew(changed, createdAt.Keys, before) && accounts == |before| && DaysOk(dayCounts, days) && days.Keys == before
      modifies this
      ensures ok <==> Dated(createdAt, before)
      ensures !ok ==> accounts == old(accounts) && dayCounts == old(dayCounts) && days == old(days)
      ensures ok ==> accounts == |before + createdAt.Keys| && DaysOk(dayCounts, days) && days.Keys == before + createdAt.Keys
      ensures ok ==> forall x :: x in createdAt && x !in before ==> days[x] == createdAt[x].value / DAY
    {
      NewFacts(changed, createdAt.Keys, before);
      ok := RecordDays(changed, createdAt);
      if ok {
        BornKeys(changed, createdAt, createdAt.Keys - before);
        accounts := accounts + |changed|;
      }
    }

    /** Count the new accounts under their creation days, unless one has no creation time. */
    method RecordDays(changed: seq<int>, createdAt: map<int, Option<nat>>) returns (ok: bool)
      requires Distinct(changed) && forall x :: x in changed ==> x in createdAt && x !in days
      requires DaysOk(dayCounts, days)
      modifies this`dayCounts, this`days
      ensures ok <==> forall x :: x in changed ==> createdAt[x].Some?
      ensures !ok ==> dayCounts == old(dayCounts) && days == old(days)
      ensures ok ==> DaysOk(dayCounts, days) && days == old(days) + BornDays(changed, createdAt)
    {
      var perDay;
      ok, perDay := CountDays(changed, createdAt);
      if ok {
        AddDays(perDay);
        DaysAdded(old(dayCounts), dayCounts, days, BornDays(changed, createdAt), perDay);
        days := days + BornDays(changed, createdAt);
      }
    }

    /** Keys of a Go map, in some order. */
    method Listed(keys: set<int>) returns (ids: seq<int>)
      ensures Elements(ids) == keys && forall x :: x in ids <==> x in keys
    {
      ids := [];
      var rest := keys;
      while rest != {}
        invariant Elements(ids) + rest == keys
      {
        HasElement(rest);
        var x :| x in rest;
        AppendElement(ids, x);
        ids := ids + [x];
        rest := rest - {x};
      }
      forall x ensures x in ids <==> x in keys { assert x in ids <==> x in Elements(ids); }
    }

    method CountDays(changed: seq<int>, createdAt: map<int, Option<nat>>) returns (ok: bool, perDay: map<int, nat>)
      requires Distinct(changed) && forall x :: x in changed ==> x in createdAt
      ensures ok <==> forall x :: x in changed ==> createdAt[x].Some?
      ensures ok ==> DaysOk(perDay, BornDays(changed, createdAt))
    {
      perDay := map[];
      var i := 0;
      ghost var days: map<int, int> := map[];
      assert forall d :: Born(map[], d) == {};
      while i < |changed|
        invariant 0 <= i <= |changed|
        invariant forall x :: x in changed[..i] ==> createdAt[x].Some?
        invariant days.Keys == Elements(changed[..i]) && forall x :: x in days ==> createdAt[x].Some? && days[x] == createdAt[x].value / DAY
        invariant DaysOk(perDay, days)
      {
        var id := changed[i];
        if createdAt[id].None? { return false, map[]; }
        var day := createdAt[id].value / DAY;
        OneMoreBorn(perDay, days, id, day);
        perDay := perDay[day := (if day in perDay then perDay[day] else 0) + 1];
        days := days[id := day];
        i := i + 1;
      }
      assert changed[..i] == changed;
      assert days == BornDays(changed, createdAt);
      ok := true;
    }

    method AddDays(perDay: map<int, nat>)
      modifies this`dayCounts
      ensures dayCounts.Keys == old(dayCounts).Keys + perDay.Keys
      ensures forall d :: d in dayCounts ==> dayCounts[d] == CountOn(old(dayCounts), d) + CountOn(perDay, d)
    {
      var rest := perDay.Keys;
      while rest != {}
        invariant rest <= perDay.Keys && dayCounts.Keys == old(dayCounts).Keys + (perDay.Keys - rest)
        invariant forall d :: d in dayCounts ==>
          dayCounts[d] == CountOn(old(dayCounts), d) + (if d in rest then 0 else CountOn(perDay, d))
      {
        HasElement(rest);
        var day :| day in rest;
        dayCounts := dayCounts[day := (if day in dayCounts then dayCounts[day] else 0) + perDay[day]];
        rest := rest - {day};
      }
    }

    /** What the per-day rows of a generation add up to. */
    lemma DaysSumToSuccessful()
      requires Valid()
      ensures Sum(dayCounts, dayCounts.Keys) == accounts
    {
      SumIsSize(dayCounts, days, dayCounts.Keys);
      forall x | x in days ensures days[x] in dayCounts { assert x in Born(days, days[x]); }
      assert (set x | x in days && days[x] in dayCounts.Keys) == days.Keys;
    }
  }

  ghost function BornDays(ids: seq<int>, createdAt: map<int, Option<nat>>): map<int, int>
    requires forall x :: x in ids ==> x in createdAt && createdAt[x].Some?
  {
    map x | x in ids :: createdAt[x].value / DAY
  }

  lemma BornKeys(changed: seq<int>, createdAt: map<int, Option<nat>>, ids: set<int>)
    requires forall x :: x in changed ==> x in createdAt && createdAt[x].Some?
    requires forall x :: x in changed <==> x in ids
    ensures BornDays(changed, createdAt).Keys == ids
  {
    forall x ensures x in BornDays(changed, createdAt) <==> x in ids { assert x in changed <==> x in ids; }
  }

  /** Every account not counted before has a creation time. */
  ghost predicate Dated(createdAt: map<int, Option<nat>>, before: set<int>) {
    forall x :: x in createdAt && x !in before ==> createdAt[x].Some?
  }

  function CountOn(counts: map<int, nat>, d: int): nat { if d in counts then counts[d] else 0 }

  /** Each day's count is the number of accounts born on it. */
  ghost predicate DaysOk(counts: map<int, nat>, days: map<int, int>) {
    forall d :: CountOn(counts, d) == |Born(days, d)|
  }

  lemma OneMoreBornOn(days: map<int, int>, id: int, day: int, d: int)
    requires id !in days
    ensures |Born(days[id := day], d)| == |Born(days, d)| + (if d == day then 1 else 0)
  {
    assert Born(days[id := day], d) == Born(days, d) + (if d == day then {id} else {});
  }

  lemma OneMoreBorn(counts: map<int, nat>, days: map<int, int>, id: int, day: int)
    requires DaysOk(counts, days) && id !in days
    ensures DaysOk(counts[day := CountOn(counts, day) + 1], days[id := day])
  {
    var counts', days' := counts[day := CountOn(counts, day) + 1], days[id := day];
    forall d
      ensures CountOn(counts', d) == |Born(days', d)|
    {
      OneMoreBornOn(days, id, day, d);
      assert CountOn(counts, d) == |Born(days, d)|;
    }
  }

  lemma BornTogether(days: map<int, int>, more: map<int, int>, d: int)
    requires days.Keys !! more.Keys
    ensures |Born(days + more, d)| == |Born(days, d)| + |Born(more, d)|
  {
    assert Born(days + more, d) == Born(days, d) + Born(more, d);
    assert Born(days, d) !! Born(more, d);
  }

  lemma DaysAdded(before: map<int, nat>, after: map<int, nat>, days: map<int, int>, more: map<int, int>, perDay: map<int, nat>)
    requires DaysOk(before, days) && DaysOk(perDay, more) && days.Keys !! more.Keys
    requires after.Keys == before.Keys + perDay.Keys
    requires forall d :: d in after ==> after[d] == CountOn(before, d) + CountOn(perDay, d)
    ensures DaysOk(after, days + more)
  {
    forall d
      ensures CountOn(after, d) == |Born(days + more, d)|
    {
      BornTogether(days, more, d);
      assert CountOn(before, d) == |Born(days, d)| && CountOn(perDay, d) == |Born(more, d)|;
    }
  }
}
