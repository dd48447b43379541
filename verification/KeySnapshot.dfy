/**
 What a worker makes of GitHub's answers before it settles an account: key lists
 without duplicates, two REST passes that must agree, and batches that failed.
 */
module KeySnapshot {
  import opened Prelude
  import opened WorkTables

  type Text = string

  /** A key as listed: the fingerprint GitHub gave, and what the key parses to. */
  datatype Listed = Listed(fingerprint: Text, parsed: Option<Text>)

  ghost predicate Distinct(keys: seq<Text>) { forall i, j :: 0 <= i < j < |keys| ==> keys[i] != keys[j] }

  /** Every key parses and has the fingerprint GitHub gave for it. */
  ghost predicate Genuine(raw: seq<Listed>) {
    forall i :: 0 <= i < |raw| ==> raw[i].parsed.Some? && raw[i].fingerprint != "" && raw[i].fingerprint == raw[i].parsed.value
  }

  ghost predicate NoDuplicate(raw: seq<Listed>) {
    forall i, j :: 0 <= i < j < |raw| ==> raw[i].fingerprint != raw[j].fingerprint
  }

  /** normalizeKeys: the listed fingerprints in order, or nothing at all. */
  method NormalizeKeys(raw: seq<Listed>) returns (keys: Option<seq<Text>>)
    ensures keys.Some? <==> Genuine(raw) && NoDuplicate(raw)
    ensures keys.Some? ==> Distinct(keys.value) && |keys.value| == |raw| && forall i :: 0 <= i < |raw| ==> keys.value[i] == raw[i].fingerprint
  {
    var result: seq<Text> := [];
    var seen: set<Text> := {};
    var i := 0;
    while i < |raw|
      invariant 0 <= i <= |raw| && |result| == i
      invariant Genuine(raw[..i]) && NoDuplicate(raw[..i])
      invariant forall k :: 0 <= k < i ==> result[k] == raw[k].fingerprint && result[k] in seen
      invariant forall t :: t in seen ==> exists k :: 0 <= k < i && raw[k].fingerprint == t
    {
      var key := raw[i];
      if key.parsed.None? || key.fingerprint == "" || key.fingerprint != key.parsed.value || key.parsed.value in seen {
        return None;
      }
      seen := seen + {key.parsed.value};
      result := result + [key.parsed.value];
      i := i + 1;
    }
    assert raw[..i] == raw;
    keys := Some(result);
  }

  /** sameKeySet: the left list is remembered, the right one looked up. */
  function SameKeySet(left: seq<Text>, right: seq<Text>): bool { |left| == |right| && Elements(right) <= Elements(left) }

  method CompareKeySets(left: seq<Text>, right: seq<Text>) returns (same: bool)
    ensures same == SameKeySet(left, right)
  {
    if |left| != |right| { return false; }
    var seen: set<Text> := {};
    var i := 0;
    while i < |left|
      invariant 0 <= i <= |left| && seen == Elements(left[..i])
    {
      assert left[..i + 1] == left[..i] + [left[i]];
      seen := seen + {left[i]};
      i := i + 1;
    }
    assert left[..i] == left;
    i := 0;
    while i < |right|
      invariant 0 <= i <= |right| && Elements(right[..i]) <= seen
    {
      if right[i] !in seen {
        assert right[i] in Elements(right);
        return false;
      }
      assert right[..i + 1] == right[..i] + [right[i]];
      i := i + 1;
    }
    assert right[..i] == right;
    same := true;
  }

  /** For lists without duplicates it decides equality of the sets; normalised lists have none. */
  lemma SameKeySetExact(left: seq<Text>, right: seq<Text>)
    requires Distinct(left) && Distinct(right)
    ensures SameKeySet(left, right) <==> Elements(left) == Elements(right)
  {
    DistinctSize(left);
    DistinctSize(right);
    if SameKeySet(left, right) { SubsetOfSameSize(Elements(right), Elements(left)); }
  }

  lemma SubsetOfSameSize(a: set<Text>, b: set<Text>)
    requires a <= b && |a| == |b|
    ensures a == b
  {
    assert b == a + (b - a);
    assert |b - a| == 0;
  }

  /** With duplicates it would not. */
  lemma SameKeySetNeedsDistinct()
    ensures SameKeySet(["a", "b"], ["a", "a"]) && Elements(["a", "b"]) != Elements(["a", "a"])
  {
    assert "b" in ["a", "b"];
    assert "b" !in Elements(["a", "a"]);
    assert "a" in Elements(["a", "b"]);
  }

  // ------------------------------------------------------- the REST fallback

  /** A key text listed over REST: what it parses to, if it does. */
  type Parsed = Option<Text>

  /** Every key parses, and no two to the same fingerprint. */
  ghost predicate Normal(raw: seq<Parsed>) {
    && (forall i :: 0 <= i < |raw| ==> raw[i].Some?)
    && (forall i, j :: 0 <= i < j < |raw| ==> raw[i] != raw[j])
  }

  ghost predicate TextsOf(keys: seq<Text>, raw: seq<Parsed>) {
    |keys| == |raw| && forall i :: 0 <= i < |raw| ==> raw[i] == Some(keys[i])
  }

  /** normalizeRESTKeys: the fingerprints in order, or nothing at all. */
  method NormalizeRESTKeys(raw: seq<Parsed>) returns (keys: Option<seq<Text>>)
    ensures keys.Some? <==> Normal(raw)
    ensures keys.Some? ==> Distinct(keys.value) && TextsOf(keys.value, raw)
  {
    var result: seq<Text> := [];
    var seen: set<Text> := {};
    var i := 0;
    while i < |raw|
      invariant 0 <= i <= |raw| && TextsOf(result, raw[..i]) && Distinct(result) && seen == Elements(result)
    {
      if raw[i].None? { return None; }
      if raw[i].value in seen {
        var k :| 0 <= k < i && result[k] == raw[i].value;
        assert raw[..i][k] == raw[i];
        return None;
      }
      assert Elements(result + [raw[i].value]) == Elements(result) + {raw[i].value};
      seen := seen + {raw[i].value};
      result := result + [raw[i].value];
      i := i + 1;
    }
    assert raw[..i] == raw;
    keys := Some(result);
  }

  /** The keys read a second time, in whatever order, are those read the first time. */
  ghost predicate SameKeys(first: seq<Parsed>, second: seq<Parsed>) { forall k :: k in first <==> k in second }

  /**
   fetchRESTSnapshot: a list of several pages is read twice.  It is accepted exactly when
   each reading is normal and, if there are two, they list the same keys; the result is
   the last reading.
   */
  method RESTSnapshot(first: seq<Parsed>, pages: nat, second: seq<Parsed>) returns (keys: Option<seq<Text>>)
    ensures keys.Some? <==> Normal(first) && (pages > 1 ==> Normal(second) && SameKeys(first, second))
    ensures keys.Some? ==> Distinct(keys.value) && TextsOf(keys.value, if pages > 1 then second else first)
  {
    keys := NormalizeRESTKeys(first);
    if keys.None? || pages <= 1 { return; }
    var again := NormalizeRESTKeys(second);
    if again.None? { return None; }
    var same := CompareKeySets(keys.value, again.value);
    SameKeySetExact(keys.value, again.value);
    SameTexts(first, keys.value, second, again.value);
    if !same { return None; }
    keys := again;
  }

  lemma SameTexts(first: seq<Parsed>, left: seq<Text>, second: seq<Parsed>, right: seq<Text>)
    requires TextsOf(left, first) && TextsOf(right, second)
    ensures Elements(left) == Elements(right) <==> SameKeys(first, second)
  {
    if SameKeys(first, second) {
      forall t: Text ensures t in left <==> t in right { assert Some(t) in first <==> Some(t) in second; }
      assert forall t :: t in Elements(left) <==> t in Elements(right);
    } else {
      var k :| !(k in first <==> k in second);
      assert k.Some? && !(k.value in Elements(left) <==> k.value in Elements(right));
    }
  }

  // ------------------------------------------------------- key connections

  /** What the response check demands of an account's key connection. */
  predicate ConnectionOk(r: Result) {
    && |r.keys| <= r.total
    && (!r.hasMore ==> r.total == |r.keys|)
    && (r.hasMore ==> r.total > |r.keys| && r.next != "")
  }

  /**
   An account is settled as having no keys although GitHub counts some exactly when
   it was no owner and its first page is empty but continues.
   */
  lemma ZeroKeysExactly(known: set<int>, job: Job, r: Result)
    requires ConnectionOk(r)
    ensures OutcomeOf(known, job, r).ZeroKeys? && r.total > 0 <==> r.keys == [] && r.hasMore && job.account !in known
  {
  }

  /** Such an answer passes the check. */
  lemma EmptyFirstPageIsLost(job: Job)
    ensures var r := Result([], true, "cursor", 5);
            ConnectionOk(r) && OutcomeOf({}, job, r).ZeroKeys? && r.total > 0
  {
  }

  // ----------------------------------------------------------- failed batches

  /** splitFailedGraphQLBatch; `attempts` are those of the jobs, `wait` an error that is not the batch's fault. */
  method SplitFailedBatch(jobs: seq<Job>, attempts: seq<nat>, wait: bool) returns (fallback: seq<Job>, retry: seq<Job>)
    requires |jobs| == |attempts|
    ensures multiset(fallback) + multiset(retry) == multiset(jobs)
    ensures wait ==> fallback == []
    ensures !wait ==> forall j :: j in fallback ==> exists k :: 0 <= k < |jobs| && jobs[k] == j && attempts[k] >= 3
    ensures !wait ==> forall j :: j in retry ==> exists k :: 0 <= k < |jobs| && jobs[k] == j && attempts[k] < 3
  {
    if wait { return [], jobs; }
    fallback, retry := [], [];
    var i := 0;
    while i < |jobs|
      invariant 0 <= i <= |jobs|
      invariant multiset(fallback) + multiset(retry) == multiset(jobs[..i])
      invariant forall j :: j in fallback ==> exists k :: 0 <= k < i && jobs[k] == j && attempts[k] >= 3
      invariant forall j :: j in retry ==> exists k :: 0 <= k < i && jobs[k] == j && attempts[k] < 3
    {
      assert jobs[..i + 1] == jobs[..i] + [jobs[i]];
      if attempts[i] >= 3 { fallback := fallback + [jobs[i]]; } else { retry := retry + [jobs[i]]; }
      i := i + 1;
    }
    assert jobs[..i] == jobs;
  }
}
