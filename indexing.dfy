/**
 * Building a Go map from a slice by inserting every element under its key in
 * slice order: where keys repeat, the last element wins.
 */
module Indexing {

  /** The element at i is the last one in xs with its key. */
  predicate LastWithKey<T>(xs: seq<T>, key: T -> string, i: int)
    requires 0 <= i < |xs|
  {
    forall j :: i < j < |xs| ==> key(xs[j]) != key(xs[i])
  }

  /** The map obtained by `for _, x := range xs { m[key(x)] = val(x) }` on an empty map. */
  function IndexBy<T, V>(xs: seq<T>, key: T -> string, val: T -> V): map<string, V> {
    if xs == [] then map[]
    else IndexBy(xs[..|xs| - 1], key, val)[key(xs[|xs| - 1]) := val(xs[|xs| - 1])]
  }

  /** The keys of the map are exactly the keys of the elements. */
  lemma {:induction false} IndexByKeys<T, V>(xs: seq<T>, key: T -> string, val: T -> V)
    ensures forall k :: k in IndexBy(xs, key, val) <==> exists i :: 0 <= i < |xs| && key(xs[i]) == k
  {
    if xs != [] {
      var init := xs[..|xs| - 1];
      IndexByKeys(init, key, val);
      assert forall i :: 0 <= i < |init| ==> init[i] == xs[i];
      forall k | exists i :: 0 <= i < |xs| && key(xs[i]) == k
        ensures k in IndexBy(xs, key, val)
      {
        var i :| 0 <= i < |xs| && key(xs[i]) == k;
        if i < |init| {
          assert key(init[i]) == k;
        }
      }
    }
  }

  /** Each entry of the map is the value of the last element with that key. */
  lemma {:induction false} IndexByOrigin<T, V>(xs: seq<T>, key: T -> string, val: T -> V, k: string)
    requires k in IndexBy(xs, key, val)
    ensures exists i :: 0 <= i < |xs| && key(xs[i]) == k && LastWithKey(xs, key, i) && IndexBy(xs, key, val)[k] == val(xs[i])
  {
    var init, x := xs[..|xs| - 1], xs[|xs| - 1];
    assert forall i :: 0 <= i < |init| ==> init[i] == xs[i];
    if k == key(x) {
      assert key(xs[|xs| - 1]) == k && LastWithKey(xs, key, |xs| - 1);
    } else {
      IndexByOrigin(init, key, val, k);
      var i :| 0 <= i < |init| && key(init[i]) == k && LastWithKey(init, key, i) && IndexBy(init, key, val)[k] == val(init[i]);
      assert key(xs[i]) == k && LastWithKey(xs, key, i);
    }
  }

  /** Every element that is the last with its key is what the map holds for that key. */
  lemma IndexByLast<T, V>(xs: seq<T>, key: T -> string, val: T -> V, i: int)
    requires 0 <= i < |xs| && LastWithKey(xs, key, i)
    ensures key(xs[i]) in IndexBy(xs, key, val)
    ensures IndexBy(xs, key, val)[key(xs[i])] == val(xs[i])
  {
    IndexByKeys(xs, key, val);
    var k := key(xs[i]);
    IndexByOrigin(xs, key, val, k);
    var j :| 0 <= j < |xs| && key(xs[j]) == k && LastWithKey(xs, key, j) && IndexBy(xs, key, val)[k] == val(xs[j]);
    assert j == i;
  }

  /** Inserting one more element updates the map at that element's key. */
  lemma IndexBySnoc<T, V>(xs: seq<T>, x: T, key: T -> string, val: T -> V)
    ensures IndexBy(xs + [x], key, val) == IndexBy(xs, key, val)[key(x) := val(x)]
  {
    assert (xs + [x])[..|xs|] == xs;
  }

  /** vs holds the values stored under the keys in seen, each once. */
  ghost predicate Collected<V>(m: map<string, V>, key: V -> string, vs: seq<V>, seen: set<string>) {
    && seen <= m.Keys
    && |vs| == |seen|
    && (forall i :: 0 <= i < |vs| ==> key(vs[i]) in seen && m[key(vs[i])] == vs[i])
    && (forall k :: k in seen ==> m[k] in vs)
    && (forall i, j :: 0 <= i < j < |vs| ==> key(vs[i]) != key(vs[j]))
  }

  /** Collecting one more key keeps the collection exact. */
  lemma CollectOne<V>(m: map<string, V>, key: V -> string, vs: seq<V>, seen: set<string>, k: string)
    requires forall k :: k in m ==> key(m[k]) == k
    requires Collected(m, key, vs, seen) && k in m && k !in seen
    ensures Collected(m, key, vs + [m[k]], seen + {k})
  {
    var vs' := vs + [m[k]];
    assert forall i :: 0 <= i < |vs| ==> vs'[i] == vs[i];
    assert vs'[|vs|] == m[k];
  }

  /** A subset as large as its superset is the superset. */
  lemma {:induction false} SubsetOfSameSize<T>(a: set<T>, b: set<T>)
    requires a <= b && |a| == |b|
    ensures a == b
  {
    if a != b {
      var x :| x in b && x !in a;
      assert a <= b - {x};
      SubsetCard(a, b - {x});
    }
  }

  /** A subset is no larger than its superset. */
  lemma SubsetCard<T>(a: set<T>, b: set<T>)
    requires a <= b
    ensures |a| <= |b|
  {
    assert b == a + (b - a);
  }

  /** A collection of every key is the map's values, each once. */
  lemma CollectedAll<V>(m: map<string, V>, key: V -> string, vs: seq<V>)
    requires Collected(m, key, vs, m.Keys)
    ensures |vs| == |m|
    ensures forall i :: 0 <= i < |vs| ==> key(vs[i]) in m && m[key(vs[i])] == vs[i]
    ensures forall k :: k in m ==> m[k] in vs
    ensures forall i, j :: 0 <= i < j < |vs| ==> key(vs[i]) != key(vs[j])
  {
    assert |m.Keys| == |m|;
  }

  /**
   * The values of a map whose entries are stored under their own keys,
   * collected by ranging over the map: each exactly once, in an arbitrary order.
   */
  method Values<V>(m: map<string, V>, key: V -> string) returns (vs: seq<V>)
    requires forall k :: k in m ==> key(m[k]) == k
    ensures |vs| == |m|
    ensures forall i :: 0 <= i < |vs| ==> key(vs[i]) in m && m[key(vs[i])] == vs[i]
    ensures forall k :: k in m ==> m[k] in vs
    ensures forall i, j :: 0 <= i < j < |vs| ==> key(vs[i]) != key(vs[j])
  {
    vs := [];
    var seen: set<string> := {};
    while |vs| < |m|
      invariant Collected(m, key, vs, seen)
      decreases |m| - |vs|
    {
      assert exists k :: k in m && k !in seen by {
        assert |m.Keys| == |m|;
        if m.Keys <= seen {
          SubsetCard(m.Keys, seen);
        }
      }
      var k :| k in m && k !in seen;
      CollectOne(m, key, vs, seen, k);
      vs := vs + [m[k]];
      seen := seen + {k};
    }
    assert seen == m.Keys by {
      assert |m.Keys| == |m|;
      SubsetCard(seen, m.Keys);
      SubsetOfSameSize(seen, m.Keys);
    }
    CollectedAll(m, key, vs);
  }
}
