/**
 Publication of an account's key set: the permanent history of (account, key)
 associations, the set of keys currently present, and the adaptive refresh stage.
 */
module Publication {
  import opened Prelude

  type Fingerprint = string

  /** One row of github_owner_keys. */
  datatype Assoc = Assoc(firstSeen: int, present: bool, removedAt: Option<int>, lastScan: nat, changedScan: nat)

  /** One row of github_owners. */
  datatype Owner = Owner(firstSeen: int, stage: nat, inaccessible: bool)

  type Key = (int, Fingerprint)

  datatype Tables = Tables(owners: map<int, Owner>, keys: map<Key, Assoc>)

  function Present(t: Tables, account: int): set<Fingerprint> {
    set k | k in t.keys && k.0 == account && t.keys[k].present :: k.1
  }

  // ---------------------------------------------------------- transitions

  function UpsertOwner(t: Tables, account: int, now: int): Tables {
    var owner := if account in t.owners then t.owners[account].(inaccessible := false) else Owner(now, 0, false);
    t.(owners := t.owners[account := owner])
  }

  function Observed(a: Assoc, scan: nat): Assoc {
    a.(present := true, removedAt := None, lastScan := scan,
       changedScan := if a.present then a.changedScan else scan)
  }

  /** Every key of the set is observed once, in any order. */
  function ObserveKeys(keys: map<Key, Assoc>, account: int, scan: nat, now: int, fs: set<Fingerprint>): map<Key, Assoc> {
    map k | k in keys.Keys + (set f | f in fs :: (account, f)) ::
      if k.0 == account && k.1 in fs
      then (if k in keys then Observed(keys[k], scan) else Assoc(now, true, None, scan, scan))
      else keys[k]
  }

  function Swept(a: Assoc, now: int): Assoc {
    a.(present := false, removedAt := if a.removedAt.Some? then a.removedAt else Some(now))
  }

  /** Whatever this scan did not see is no longer present. */
  function SweepUnseen(keys: map<Key, Assoc>, account: int, scan: nat, now: int): map<Key, Assoc> {
    map k | k in keys ::
      if k.0 == account && keys[k].present && keys[k].lastScan != scan
      then Swept(keys[k], now).(changedScan := scan) else keys[k]
  }

  predicate Changed(keys: map<Key, Assoc>, account: int, scan: nat) {
    exists k :: k in keys && k.0 == account && keys[k].changedScan == scan
  }

  function NextStage(stage: nat, changed: bool, stages: nat): nat {
    if changed then 0 else if stage + 1 < stages then stage + 1 else stage
  }

  function Finalize(t: Tables, account: int, scan: nat, now: int, stages: nat): Tables
    requires account in t.owners
  {
    var keys := SweepUnseen(t.keys, account, scan, now);
    var o := t.owners[account];
    Tables(t.owners[account := o.(stage := NextStage(o.stage, Changed(keys, account, scan), stages))], keys)
  }

  function Publish(t: Tables, account: int, scan: nat, now: int, fs: set<Fingerprint>, stages: nat): Tables
    requires account in t.owners
  {
    Finalize(t.(keys := ObserveKeys(t.keys, account, scan, now, fs)), account, scan, now, stages)
  }

  /** An account GitHub no longer serves: nothing is present, nothing is forgotten. */
  function MarkInaccessible(t: Tables, account: int, now: int): Tables {
    Tables(
      if account in t.owners then t.owners[account := t.owners[account].(inaccessible := true)] else t.owners,
      map k | k in t.keys ::
        if k.0 == account && t.keys[k].present then Swept(t.keys[k], now) else t.keys[k])
  }

  // ----------------------------------------------------------- invariants

  ghost predicate WellFormed(t: Tables) {
    && (forall k :: k in t.keys ==> (t.keys[k].removedAt.None? <==> t.keys[k].present))
    && (forall k :: k in t.keys ==> k.0 in t.owners)
  }

  /** The scans that have written to the history. */
  ghost predicate MarksWithin(t: Tables, scans: set<nat>) {
    forall k :: k in t.keys ==> t.keys[k].lastScan in scans && t.keys[k].changedScan in scans
  }

  /** History only grows: no association is removed and none forgets when it was first seen. */
  ghost predicate HistoryKept(before: Tables, after: Tables) {
    && before.owners.Keys <= after.owners.Keys
    && (forall a :: a in before.owners ==> after.owners[a].firstSeen == before.owners[a].firstSeen)
    && (forall k :: k in before.keys ==> k in after.keys && after.keys[k].firstSeen == before.keys[k].firstSeen)
  }

  /** Nothing about other accounts moved. */
  ghost predicate OthersKept(before: Tables, after: Tables, account: int) {
    && (forall a :: a != account ==> (a in before.owners <==> a in after.owners))
    && (forall a :: a != account && a in before.owners ==> after.owners[a] == before.owners[a])
    && (forall k: Key :: k.0 != account ==> (k in before.keys <==> k in after.keys))
    && (forall k: Key :: k.0 != account && k in before.keys ==> after.keys[k] == before.keys[k])
  }

  /** The rows after observing and sweeping, stated without the two passes. */
  function RowAfter(keys: map<Key, Assoc>, account: int, scan: nat, now: int, seen: bool, k: Key): Assoc
    requires k in keys || seen
  {
    if seen then (if k in keys then Observed(keys[k], scan) else Assoc(now, true, None, scan, scan))
    else if k.0 == account && keys[k].present then Swept(keys[k], now).(changedScan := scan)
    else keys[k]
  }

  lemma SweptRows(keys: map<Key, Assoc>, account: int, scan: nat, now: int, fs: set<Fingerprint>)
    requires forall k :: k in keys ==> keys[k].lastScan != scan
    ensures var r := SweepUnseen(ObserveKeys(keys, account, scan, now, fs), account, scan, now);
            && (forall k :: k in r <==> k in keys || (k.0 == account && k.1 in fs))
            && (forall k :: k in r ==> r[k] == RowAfter(keys, account, scan, now, k.0 == account && k.1 in fs, k))
  {
  }

  /**
   Publishing a scan makes exactly its keys present, keeps every association ever
   made, leaves other accounts alone, and moves the refresh stage: back to 0 iff
   the present set changed, otherwise one step up to the last stage.
   */
  lemma PublishExact(t: Tables, account: int, scan: nat, now: int, fs: set<Fingerprint>, stages: nat, scans: set<nat>)
    requires WellFormed(t) && account in t.owners && MarksWithin(t, scans) && scan !in scans
    ensures var r := Publish(t, account, scan, now, fs, stages);
            && WellFormed(r) && MarksWithin(r, scans + {scan})
            && Present(r, account) == fs
            && HistoryKept(t, r) && OthersKept(t, r, account) && r.owners.Keys == t.owners.Keys
            && r.owners[account].stage == (
                 if Present(t, account) != fs then 0
                 else if t.owners[account].stage < stages - 1 then t.owners[account].stage + 1
                 else t.owners[account].stage)
  {
    PublishKeeps(t, account, scan, now, fs, stages, scans);
    PresentAfter(t, account, scan, now, fs);
    ChangedIff(t, account, scan, now, fs);
    PresentReadsKeys(Publish(t, account, scan, now, fs, stages), t.owners, account);
  }

  lemma PresentReadsKeys(t: Tables, owners: map<int, Owner>, account: int)
    ensures Present(t, account) == Present(t.(owners := owners), account)
  {
  }

  lemma PublishKeeps(t: Tables, account: int, scan: nat, now: int, fs: set<Fingerprint>, stages: nat, scans: set<nat>)
    requires WellFormed(t) && account in t.owners && MarksWithin(t, scans) && scan !in scans
    ensures var r := Publish(t, account, scan, now, fs, stages);
            && WellFormed(r) && MarksWithin(r, scans + {scan}) && HistoryKept(t, r) && OthersKept(t, r, account)
            && r.owners.Keys == t.owners.Keys
  {
    SweptRows(t.keys, account, scan, now, fs);
  }

  lemma PresentAfter(t: Tables, account: int, scan: nat, now: int, fs: set<Fingerprint>)
    requires forall k :: k in t.keys ==> t.keys[k].lastScan != scan
    ensures var keys := SweepUnseen(ObserveKeys(t.keys, account, scan, now, fs), account, scan, now);
            Present(Tables(t.owners, keys), account) == fs
  {
    SweptRows(t.keys, account, scan, now, fs);
    var r := Tables(t.owners, SweepUnseen(ObserveKeys(t.keys, account, scan, now, fs), account, scan, now));
    forall f | f in fs
      ensures f in Present(r, account)
    {
      assert (account, f) in r.keys;
    }
  }

  lemma ChangedIff(t: Tables, account: int, scan: nat, now: int, fs: set<Fingerprint>)
    requires forall k :: k in t.keys ==> t.keys[k].lastScan != scan && t.keys[k].changedScan != scan
    ensures var keys := SweepUnseen(ObserveKeys(t.keys, account, scan, now, fs), account, scan, now);
            Changed(keys, account, scan) <==> Present(t, account) != fs
  {
    SweptRows(t.keys, account, scan, now, fs);
    var keys := SweepUnseen(ObserveKeys(t.keys, account, scan, now, fs), account, scan, now);
    forall k | k in keys && k.0 == account
      ensures keys[k].changedScan == scan <==> (k.1 in fs) != (k.1 in Present(t, account))
    {
      assert k.1 in Present(t, account) <==> k in t.keys && t.keys[k].present by {
        if k.1 in Present(t, account) {
          var k' :| k' in t.keys && k'.0 == account && t.keys[k'].present && k'.1 == k.1;
          assert k' == k;
        }
      }
    }
    if Present(t, account) != fs {
      var f :| (f in Present(t, account)) != (f in fs);
      assert (account, f) in keys;
    }
  }

  lemma InaccessibleExact(t: Tables, account: int, now: int, scans: set<nat>)
    requires WellFormed(t) && MarksWithin(t, scans)
    ensures var r := MarkInaccessible(t, account, now);
            && WellFormed(r) && MarksWithin(r, scans) && HistoryKept(t, r) && OthersKept(t, r, account)
            && Present(r, account) == {}
            && r.owners.Keys == t.owners.Keys
  {
  }

  lemma UpsertKeeps(t: Tables, account: int, now: int, scans: set<nat>)
    requires WellFormed(t) && MarksWithin(t, scans)
    ensures var r := UpsertOwner(t, account, now);
            && WellFormed(r) && MarksWithin(r, scans) && HistoryKept(t, r) && OthersKept(t, r, account)
            && account in r.owners && r.keys == t.keys
  {
  }

  lemma ObserveNext(keys: map<Key, Assoc>, account: int, scan: nat, now: int, seen: set<Fingerprint>, f: Fingerprint)
    ensures var observed, k := ObserveKeys(keys, account, scan, now, seen), (account, f);
            ObserveKeys(keys, account, scan, now, seen + {f}) ==
            observed[k := if k in observed then Observed(observed[k], scan) else Assoc(now, true, None, scan, scan)]
  {
  }

  // ------------------------------------------------------------ the tables

  class KeyIndex {
    var owners: map<int, Owner>
    var keys: map<Key, Assoc>

    function State(): Tables
      reads this
    {
      Tables(owners, keys)
    }

    constructor ()
      ensures State() == Tables(map[], map[])
    {
      owners, keys := map[], map[];
    }

    method Upsert(account: int, now: int)
      modifies this
      ensures State() == UpsertOwner(old(State()), account, now)
    {
      if account in owners {
        owners := owners[account := owners[account].(inaccessible := false)];
      } else {
        owners := owners[account := Owner(now, 0, false)];
      }
    }

    /** observeKey for each key of a list. */
    method Observe(account: int, scan: nat, now: int, fs: seq<Fingerprint>)
      modifies this`keys
      ensures keys == ObserveKeys(old(keys), account, scan, now, Elements(fs))
    {
      var i := 0;
      while i < |fs|
        invariant 0 <= i <= |fs|
        invariant keys == ObserveKeys(old(keys), account, scan, now, Elements(fs[..i]))
      {
        assert Elements(fs[..i + 1]) == Elements(fs[..i]) + {fs[i]};
        ObserveNext(old(keys), account, scan, now, Elements(fs[..i]), fs[i]);
        var k := (account, fs[i]);
        if k in keys {
          var a := keys[k];
          keys := keys[k := Assoc(a.firstSeen, true, None, scan, if !a.present then scan else a.changedScan)];
        } else {
          keys := keys[k := Assoc(now, true, None, scan, scan)];
        }
        i := i + 1;
      }
      assert fs[..i] == fs;
    }

    /** finalizeObservation: sweep what was not seen, then advance or reset the stage. */
    method FinalizeObservation(account: int, scan: nat, now: int, stages: nat)
      requires account in owners
      modifies this
      ensures State() == Finalize(old(State()), account, scan, now, stages)
    {
      keys := map k | k in keys ::
        if k.0 == account && keys[k].present && keys[k].lastScan != scan
        then Swept(keys[k], now).(changedScan := scan) else keys[k];
      var changed := Changed(keys, account, scan);
      var nextStage := owners[account].stage;
      if changed {
        nextStage := 0;
      } else if nextStage + 1 < stages {
        nextStage := nextStage + 1;
      }
      owners := owners[account := owners[account].(stage := nextStage)];
    }

    method PublishScan(account: int, scan: nat, now: int, fs: seq<Fingerprint>, stages: nat)
      requires account in owners
      modifies this
      ensures State() == Publish(old(State()), account, scan, now, Elements(fs), stages)
    {
      Observe(account, scan, now, fs);
      FinalizeObservation(account, scan, now, stages);
    }

    method Hide(account: int, now: int)
      modifies this
      ensures State() == MarkInaccessible(old(State()), account, now)
      ensures Present(State(), account) == {}
      ensures HistoryKept(old(State()), State()) && OthersKept(old(State()), State(), account)
    {
      if account in owners {
        owners := owners[account := owners[account].(inaccessible := true)];
      }
      keys := map k | k in keys :: if k.0 == account && keys[k].present then Swept(keys[k], now) else keys[k];
    }
  }
}
