/**
 * Python's `defaultdict(list)` filled by `groups[key(x)].append(x)` over a list: a dictionary
 * whose keys keep the order in which they were first seen.
 */
module Grouping {
  import opened Sorting

  /** The keys in insertion order, and the list under each key. */
  datatype Groups<K, V> = Groups(order: seq<K>, lists: map<K, seq<V>>)

  /** The dictionary after appending every element of `xs` under its key. */
  function GroupBy<K(==, !new), V>(xs: seq<V>, key: V -> K): (g: Groups<K, V>)
    ensures NoDuplicates(g.order)
    ensures forall k :: k in g.lists <==> k in g.order
    ensures forall k :: k in g.lists ==> g.lists[k] != []
  {
    if xs == [] then Groups([], map[])
    else
      var g := GroupBy(xs[..|xs| - 1], key);
      var x := xs[|xs| - 1];
      var k := key(x);
      if k in g.lists then Groups(g.order, g.lists[k := g.lists[k] + [x]])
      else Groups(g.order + [k], g.lists[k := [x]])
  }

  /** The elements of `xs` whose key is `k`, in order: `[x for x in xs if key(x) == k]`. */
  function Members<K(==, !new), V>(xs: seq<V>, key: V -> K, k: K): seq<V>
  {
    if xs == [] then []
    else Members(xs[..|xs| - 1], key, k) + (if key(xs[|xs| - 1]) == k then [xs[|xs| - 1]] else [])
  }

  /** Some element of `xs` has key `k`. */
  predicate HasKey<K(==, !new), V>(xs: seq<V>, key: V -> K, k: K)
  {
    exists i :: 0 <= i < |xs| && key(xs[i]) == k
  }

  /**
   * The dictionary has a key for exactly the keys that occur, and under each the elements with
   * that key in their original order.
   */
  lemma {:induction false} GroupByMembers<K(!new), V>(xs: seq<V>, key: V -> K, k: K)
    ensures Members(xs, key, k) != [] <==> HasKey(xs, key, k)
    ensures k in GroupBy(xs, key).lists <==> HasKey(xs, key, k)
    ensures k in GroupBy(xs, key).lists ==> GroupBy(xs, key).lists[k] == Members(xs, key, k)
  {
    if xs != [] {
      var prefix := xs[..|xs| - 1];
      GroupByMembers(prefix, key, k);
      assert forall i :: 0 <= i < |prefix| ==> prefix[i] == xs[i];
      if HasKey(xs, key, k) && !HasKey(prefix, key, k) {
        assert key(xs[|xs| - 1]) == k;
      }
      if HasKey(prefix, key, k) {
        var i :| 0 <= i < |prefix| && key(prefix[i]) == k;
        assert key(xs[i]) == k;
      }
    }
  }

  /** Members with a key are exactly the elements with that key, with their multiplicity. */
  lemma {:induction false} MembersCount<K(!new), V>(xs: seq<V>, key: V -> K, k: K)
    ensures forall x :: x in Members(xs, key, k) ==> x in xs && key(x) == k
    ensures |Members(xs, key, k)| <= |xs|
  {
    if xs != [] {
      MembersCount(xs[..|xs| - 1], key, k);
    }
  }

  /** The distinct keys of `xs`: `{key(x) for x in xs}`. */
  function KeySet<K(==, !new), V>(xs: seq<V>, key: V -> K): set<K>
  {
    set i | 0 <= i < |xs| :: key(xs[i])
  }

  /** A sequence without repeats has as many elements as the set of its elements. */
  lemma {:induction false} DistinctCount<T>(xs: seq<T>)
    requires NoDuplicates(xs)
    ensures |set i | 0 <= i < |xs| :: xs[i]| == |xs|
  {
    if xs != [] {
      var prefix := xs[..|xs| - 1];
      var last := xs[|xs| - 1];
      DistinctCount(prefix);
      var before := set i | 0 <= i < |prefix| :: prefix[i];
      var after := set i | 0 <= i < |xs| :: xs[i];
      assert last !in before;
      assert after == before + {last} by {
        forall x | x in after
          ensures x in before + {last}
        {
          var i :| 0 <= i < |xs| && xs[i] == x;
          if i < |prefix| {
            assert prefix[i] == x;
          }
        }
        forall x | x in before
          ensures x in after
        {
          var i :| 0 <= i < |prefix| && prefix[i] == x;
          assert xs[i] == x;
        }
        assert xs[|xs| - 1] in after;
      }
    }
  }

  /** The dictionary has exactly one key per distinct key of `xs`. */
  lemma GroupOrderCount<K(!new), V>(xs: seq<V>, key: V -> K)
    ensures |GroupBy(xs, key).order| == |KeySet(xs, key)|
    ensures forall k :: k in GroupBy(xs, key).order <==> k in KeySet(xs, key)
  {
    var g := GroupBy(xs, key);
    forall k
      ensures k in g.order <==> k in KeySet(xs, key)
    {
      GroupByMembers(xs, key, k);
      if k in KeySet(xs, key) {
        var i :| 0 <= i < |xs| && key(xs[i]) == k;
        assert HasKey(xs, key, k);
      }
    }
    DistinctCount(g.order);
    assert (set i | 0 <= i < |g.order| :: g.order[i]) == KeySet(xs, key);
  }

  /** `[f(k, vs) for k, vs in groups.items()]`: one result per key, in insertion order. */
  function MapGroups<K, V, R>(g: Groups<K, V>, f: (K, seq<V>) -> R): (rs: seq<R>)
    requires forall k :: k in g.order ==> k in g.lists
    ensures |rs| == |g.order|
  {
    seq(|g.order|, i requires 0 <= i < |g.order| => f(g.order[i], g.lists[g.order[i]]))
  }

  /**
   * When the key of each result can be read back from it, the results of a grouping are exactly
   * one per distinct key, each computed from all elements with that key, in order.
   */
  lemma GroupResults<K(!new), V, R>(xs: seq<V>, key: V -> K, f: (K, seq<V>) -> R, keyOf: R -> K, k: K)
    requires forall k', vs :: keyOf(f(k', vs)) == k'
    ensures k in KeySet(xs, key) <==> exists r :: r in MapGroups(GroupBy(xs, key), f) && keyOf(r) == k
    ensures forall r :: r in MapGroups(GroupBy(xs, key), f) && keyOf(r) == k ==> r == f(k, Members(xs, key, k))
  {
    var g := GroupBy(xs, key);
    var rs := MapGroups(g, f);
    GroupOrderCount(xs, key);
    GroupByMembers(xs, key, k);
    forall r | r in rs && keyOf(r) == k
      ensures r == f(k, Members(xs, key, k))
    {
      var i :| 0 <= i < |rs| && rs[i] == r;
      assert keyOf(f(g.order[i], g.lists[g.order[i]])) == g.order[i];
    }
    if k in KeySet(xs, key) {
      var i :| 0 <= i < |g.order| && g.order[i] == k;
      assert rs[i] in rs && keyOf(rs[i]) == k;
    }
  }

  /** Appending the next element of `full` to a prefix of it gives the next prefix. */
  lemma PrefixExtend<T>(full: seq<T>, prefix: seq<T>, j: nat, x: T)
    requires j < |full| && prefix == full[..j] && full[j] == x
    ensures full[..j + 1] == prefix + [x]
  {
  }
}
