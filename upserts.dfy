/**
 * An upsert loop over a keyed table, read as a value: walk the input in order,
 * skip the elements a filter rejects, and for every other element write its
 * value under its key, replacing whatever was there. Both store operations of
 * the ingestion code (candlesticks and exchange metadata) are instances.
 */
module Upserts {
  import opened Wrappers

  /** The table after upserting, in order, every element of xs that keep admits. */
  function Apply<K(==), V, X>(m: map<K, V>, xs: seq<X>, keep: X -> bool, key: X -> K, val: X -> V): map<K, V>
    decreases |xs|
  {
    if xs == [] then m
    else
      var prior := Apply(m, xs[..|xs| - 1], keep, key, val);
      var x := xs[|xs| - 1];
      if keep(x) then prior[key(x) := val(x)] else prior
  }

  /** How many elements of xs keep admits: the number of saves the loop performs. */
  function Kept<X>(xs: seq<X>, keep: X -> bool): (n: nat)
    ensures n <= |xs|
  {
    if xs == [] then 0
    else Kept(xs[..|xs| - 1], keep) + (if keep(xs[|xs| - 1]) then 1 else 0)
  }

  /** Element i of xs is written under key k. */
  predicate WritesAt<K(==), X>(xs: seq<X>, keep: X -> bool, key: X -> K, k: K, i: int)
    requires 0 <= i < |xs|
  {
    keep(xs[i]) && key(xs[i]) == k
  }

  /** The position of the last element of xs written under k, if any. */
  function LastWrite<K(==), X>(xs: seq<X>, keep: X -> bool, key: X -> K, k: K): (r: Option<nat>)
    ensures r.Some? ==> r.value < |xs| && WritesAt(xs, keep, key, k, r.value)
    ensures r.Some? ==> forall j :: r.value < j < |xs| ==> !WritesAt(xs, keep, key, k, j)
    ensures r.None? ==> forall j :: 0 <= j < |xs| ==> !WritesAt(xs, keep, key, k, j)
  {
    if xs == [] then None
    else if WritesAt(xs, keep, key, k, |xs| - 1) then Some(|xs| - 1)
    else
      var r := LastWrite(xs[..|xs| - 1], keep, key, k);
      assert forall j :: 0 <= j < |xs| - 1 ==> (WritesAt(xs, keep, key, k, j) <==> WritesAt(xs[..|xs| - 1], keep, key, k, j));
      r
  }

  /**
   * What the table holds under k after the loop: the value of the last element
   * written under k, or the old entry when no element is; and k is present
   * exactly when it was before or some element was written under it.
   */
  lemma {:induction false} ApplyAt<K, V, X>(m: map<K, V>, xs: seq<X>, keep: X -> bool, key: X -> K, val: X -> V, k: K)
    ensures k in Apply(m, xs, keep, key, val) <==> k in m || LastWrite(xs, keep, key, k).Some?
    ensures k in Apply(m, xs, keep, key, val) ==>
      Apply(m, xs, keep, key, val)[k] ==
        match LastWrite(xs, keep, key, k)
        case Some(i) => val(xs[i])
        case None => m[k]
    decreases |xs|
  {
    if xs != [] {
      var p := xs[..|xs| - 1];
      ApplyAt(m, p, keep, key, val, k);
      if !WritesAt(xs, keep, key, k, |xs| - 1) {
        var r := LastWrite(p, keep, key, k);
        assert LastWrite(xs, keep, key, k) == r;
        if r.Some? {
          assert xs[r.value] == p[r.value];
        }
      }
    }
  }

  /** A key no admitted element is written under keeps its old entry, or stays absent. */
  lemma ApplyUntouched<K, V, X>(m: map<K, V>, xs: seq<X>, keep: X -> bool, key: X -> K, val: X -> V, k: K)
    requires forall i :: 0 <= i < |xs| ==> !WritesAt(xs, keep, key, k, i)
    ensures k in Apply(m, xs, keep, key, val) <==> k in m
    ensures k in m ==> Apply(m, xs, keep, key, val)[k] == m[k]
  {
    ApplyAt(m, xs, keep, key, val, k);
  }

  /** Element i, when admitted and the last one written under its key, is what the table holds there. */
  lemma ApplyLastWins<K, V, X>(m: map<K, V>, xs: seq<X>, keep: X -> bool, key: X -> K, val: X -> V, i: nat)
    requires i < |xs| && keep(xs[i])
    requires forall j :: i < j < |xs| ==> !WritesAt(xs, keep, key, key(xs[i]), j)
    ensures key(xs[i]) in Apply(m, xs, keep, key, val)
    ensures Apply(m, xs, keep, key, val)[key(xs[i])] == val(xs[i])
  {
    var k := key(xs[i]);
    ApplyAt(m, xs, keep, key, val, k);
    var r := LastWrite(xs, keep, key, k);
    assert WritesAt(xs, keep, key, k, i);
    assert r.Some? && r.value == i;
  }

  /** Running the loop a second time over the same input leaves the table as the first run left it. */
  lemma ApplyIdempotent<K, V, X>(m: map<K, V>, xs: seq<X>, keep: X -> bool, key: X -> K, val: X -> V)
    ensures Apply(Apply(m, xs, keep, key, val), xs, keep, key, val) == Apply(m, xs, keep, key, val)
  {
    var once := Apply(m, xs, keep, key, val);
    var twice := Apply(once, xs, keep, key, val);
    forall k
      ensures k in twice <==> k in once
      ensures k in once ==> twice[k] == once[k]
    {
      ApplyAt(m, xs, keep, key, val, k);
      ApplyAt(once, xs, keep, key, val, k);
    }
    SameEntries(twice, once);
  }

  lemma SameEntries<K, V>(a: map<K, V>, b: map<K, V>)
    requires forall k :: k in a <==> k in b
    requires forall k :: k in b ==> a[k] == b[k]
    ensures a == b
  {
  }

  /** The positions of the elements of xs that keep admits. */
  function KeptPositions<X>(xs: seq<X>, keep: X -> bool): set<int> {
    set i | 0 <= i < |xs| && keep(xs[i])
  }

  /** The save counter equals the number of positions whose element is admitted. */
  lemma {:induction false} KeptCountsPositions<X>(xs: seq<X>, keep: X -> bool)
    ensures Kept(xs, keep) == |KeptPositions(xs, keep)|
    decreases |xs|
  {
    if xs != [] {
      var n := |xs| - 1;
      var p := xs[..n];
      KeptCountsPositions(p, keep);
      var before := KeptPositions(p, keep);
      var all := KeptPositions(xs, keep);
      if keep(xs[n]) {
        assert all == before + {n};
        assert n !in before;
      } else {
        assert all == before;
      }
    }
  }
}
