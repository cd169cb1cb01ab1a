/**
 * The two collection idioms the billing code leans on: keeping the values of
 * the entries that produced one (`filter_map`, or a loop that pushes only when
 * a condition holds), and building a map by inserting entries in order
 * (`collect::<HashMap<_, _>>()`, or a loop of `insert`), where a later entry
 * for a key replaces an earlier one.
 */
module Collections {
  import opened Wrappers

  /** The values held by the `Some` entries of `xs`, in order. */
  function Somes<T>(xs: seq<Option<T>>): seq<T>
    decreases |xs|
  {
    if xs == [] then []
    else Somes(xs[..|xs| - 1]) + (if xs[|xs| - 1].Some? then [xs[|xs| - 1].value] else [])
  }

  /** The positions of the `Some` entries of `xs`, in increasing order. */
  function SomeIndices<T>(xs: seq<Option<T>>): seq<nat>
    decreases |xs|
  {
    if xs == [] then []
    else SomeIndices(xs[..|xs| - 1]) + (if xs[|xs| - 1].Some? then [|xs| - 1] else [])
  }

  lemma SomesSnoc<T>(xs: seq<Option<T>>, i: nat)
    requires i < |xs|
    ensures Somes(xs[..i + 1]) == Somes(xs[..i]) + (if xs[i].Some? then [xs[i].value] else [])
  {
    assert xs[..i + 1][..i] == xs[..i];
  }

  lemma {:induction false} SomeIndicesAscending<T>(xs: seq<Option<T>>)
    ensures forall k :: 0 <= k < |SomeIndices(xs)| ==> SomeIndices(xs)[k] < |xs| && xs[SomeIndices(xs)[k]].Some?
    ensures forall k, l :: 0 <= k < l < |SomeIndices(xs)| ==> SomeIndices(xs)[k] < SomeIndices(xs)[l]
    decreases |xs|
  {
    if xs != [] {
      var n := |xs| - 1;
      SomeIndicesAscending(xs[..n]);
      assert forall i :: 0 <= i < n ==> xs[..n][i] == xs[i];
    }
  }

  lemma {:induction false} SomeIndicesComplete<T>(xs: seq<Option<T>>)
    ensures forall i :: 0 <= i < |xs| && xs[i].Some? ==> i in SomeIndices(xs)
    decreases |xs|
  {
    if xs != [] {
      var n := |xs| - 1;
      SomeIndicesComplete(xs[..n]);
      forall i | 0 <= i < |xs| && xs[i].Some? ensures i in SomeIndices(xs) {
        if i < n {
          assert xs[..n][i] == xs[i];
        }
      }
    }
  }

  lemma {:induction false} SomesAtIndices<T>(xs: seq<Option<T>>)
    ensures |Somes(xs)| == |SomeIndices(xs)|
    ensures forall k :: 0 <= k < |SomeIndices(xs)| ==>
      SomeIndices(xs)[k] < |xs| && xs[SomeIndices(xs)[k]].Some? && Somes(xs)[k] == xs[SomeIndices(xs)[k]].value
    decreases |xs|
  {
    if xs != [] {
      var n := |xs| - 1;
      SomesAtIndices(xs[..n]);
      assert forall i :: 0 <= i < n ==> xs[..n][i] == xs[i];
    }
  }

  /**
   * `Somes` keeps exactly the `Some` entries, each once and in their original
   * order: its k-th value is the value at the k-th `Some` position, and the
   * positions listed are increasing and are exactly those holding a value.
   */
  lemma SomesExact<T>(xs: seq<Option<T>>)
    ensures |Somes(xs)| == |SomeIndices(xs)|
    ensures forall k :: 0 <= k < |SomeIndices(xs)| ==>
      SomeIndices(xs)[k] < |xs| && xs[SomeIndices(xs)[k]].Some? && Somes(xs)[k] == xs[SomeIndices(xs)[k]].value
    ensures forall k, l :: 0 <= k < l < |SomeIndices(xs)| ==> SomeIndices(xs)[k] < SomeIndices(xs)[l]
    ensures forall i :: 0 <= i < |xs| && xs[i].Some? ==> i in SomeIndices(xs)
  {
    SomeIndicesAscending(xs);
    SomeIndicesComplete(xs);
    SomesAtIndices(xs);
  }

  /** A property every present value has, every kept value has. */
  lemma SomesHold<T>(xs: seq<Option<T>>, p: T -> bool)
    requires forall i :: 0 <= i < |xs| && xs[i].Some? ==> p(xs[i].value)
    ensures forall k :: 0 <= k < |Somes(xs)| ==> p(Somes(xs)[k])
  {
    SomesAtIndices(xs);
  }

  /** The map obtained by inserting `entries` one after the other into an empty map. */
  function Collect<K, V>(entries: seq<(K, V)>): map<K, V>
    decreases |entries|
  {
    if entries == [] then map[]
    else Collect(entries[..|entries| - 1])[entries[|entries| - 1].0 := entries[|entries| - 1].1]
  }

  lemma CollectSnoc<K, V>(entries: seq<(K, V)>, i: nat)
    requires i < |entries|
    ensures Collect(entries[..i + 1]) == Collect(entries[..i])[entries[i].0 := entries[i].1]
  {
    assert entries[..i + 1][..i] == entries[..i];
  }

  /** Entry `i` is the last of `entries` with key `k`. */
  ghost predicate LastWithKey<K, V>(entries: seq<(K, V)>, i: int, k: K) {
    0 <= i < |entries| && entries[i].0 == k && forall j :: i < j < |entries| ==> entries[j].0 != k
  }

  /**
   * The keys of the collected map are exactly the keys of the entries, and the
   * value under a key is the one of the LAST entry with that key.
   */
  lemma {:induction false} CollectLastWins<K, V>(entries: seq<(K, V)>)
    ensures forall k :: k in Collect(entries) <==> exists i :: 0 <= i < |entries| && entries[i].0 == k
    ensures forall k :: k in Collect(entries) ==>
      exists i :: LastWithKey(entries, i, k) && entries[i].1 == Collect(entries)[k]
    decreases |entries|
  {
    if entries != [] {
      var prefix := entries[..|entries| - 1];
      var last := entries[|entries| - 1];
      CollectLastWins(prefix);
      assert forall i :: 0 <= i < |prefix| ==> prefix[i] == entries[i];
      forall k | k in Collect(entries)
        ensures exists i :: LastWithKey(entries, i, k) && entries[i].1 == Collect(entries)[k]
      {
        if k == last.0 {
          assert LastWithKey(entries, |entries| - 1, k);
        } else {
          assert Collect(entries) == Collect(prefix)[last.0 := last.1];
          assert k in Collect(prefix);
          var i :| LastWithKey(prefix, i, k) && prefix[i].1 == Collect(prefix)[k];
          assert LastWithKey(entries, i, k);
        }
      }
    }
  }

  /** A key that the last entries never name keeps the value an earlier entry gave it. */
  lemma CollectValue<K, V>(entries: seq<(K, V)>, i: int, k: K)
    requires LastWithKey(entries, i, k)
    ensures k in Collect(entries) && Collect(entries)[k] == entries[i].1
  {
    CollectLastWins(entries);
    var i' :| LastWithKey(entries, i', k) && entries[i'].1 == Collect(entries)[k];
    assert i' == i;
  }

  lemma CollectAppendOne<K, V>(entries: seq<(K, V)>, e: (K, V))
    ensures Collect(entries + [e]) == Collect(entries)[e.0 := e.1]
  {
    assert (entries + [e])[..|entries|] == entries;
  }

  /** Entry `i` is the last `Some` entry of `xs` whose key is `k`. */
  ghost predicate LastSomeWithKey<K, V>(xs: seq<Option<(K, V)>>, i: int, k: K) {
    0 <= i < |xs| && xs[i].Some? && xs[i].value.0 == k
    && forall j :: i < j < |xs| && xs[j].Some? ==> xs[j].value.0 != k
  }

  /**
   * Collecting the entries that are present (`filter_map` then `collect`):
   * the keys are those of the present entries, and each value is the one of
   * the last present entry with that key.
   */
  lemma {:induction false} CollectSomesLastWins<K, V>(xs: seq<Option<(K, V)>>)
    ensures forall k :: k in Collect(Somes(xs)) <==> exists i :: 0 <= i < |xs| && xs[i].Some? && xs[i].value.0 == k
    ensures forall k :: k in Collect(Somes(xs)) ==>
      exists i :: LastSomeWithKey(xs, i, k) && xs[i].value.1 == Collect(Somes(xs))[k]
    decreases |xs|
  {
    if xs != [] {
      var n := |xs| - 1;
      var prefix := xs[..n];
      CollectSomesLastWins(prefix);
      assert forall i :: 0 <= i < n ==> prefix[i] == xs[i];
      var m := Collect(Somes(prefix));
      if xs[n].Some? {
        var e := xs[n].value;
        CollectAppendOne(Somes(prefix), e);
        assert Collect(Somes(xs)) == m[e.0 := e.1];
        forall k | k in Collect(Somes(xs))
          ensures exists i :: LastSomeWithKey(xs, i, k) && xs[i].value.1 == Collect(Somes(xs))[k]
        {
          if k == e.0 {
            assert LastSomeWithKey(xs, n, k);
          } else {
            var i :| LastSomeWithKey(prefix, i, k) && prefix[i].value.1 == m[k];
            assert LastSomeWithKey(xs, i, k);
          }
        }
      } else {
        assert Somes(xs) == Somes(prefix) + [];
        assert Somes(prefix) + [] == Somes(prefix);
        assert Collect(Somes(xs)) == m;
        forall k | k in Collect(Somes(xs))
          ensures exists i :: LastSomeWithKey(xs, i, k) && xs[i].value.1 == Collect(Somes(xs))[k]
        {
          var i :| LastSomeWithKey(prefix, i, k) && prefix[i].value.1 == m[k];
          assert LastSomeWithKey(xs, i, k);
        }
      }
    }
  }

  /** The value a present entry leaves when no later present entry has its key. */
  lemma CollectSomesValue<K, V>(xs: seq<Option<(K, V)>>, i: int, k: K)
    requires LastSomeWithKey(xs, i, k)
    ensures k in Collect(Somes(xs)) && Collect(Somes(xs))[k] == xs[i].value.1
  {
    CollectSomesLastWins(xs);
    var i' :| LastSomeWithKey(xs, i', k) && xs[i'].value.1 == Collect(Somes(xs))[k];
    assert i' == i;
  }

  /** The position of the first element satisfying `p` (Rust's `iter().position`, and `find`). */
  function FirstIndex<T>(xs: seq<T>, p: T -> bool): (r: Option<nat>)
    ensures r.Some? <==> exists i :: 0 <= i < |xs| && p(xs[i])
    ensures r.Some? ==> r.value < |xs| && p(xs[r.value]) && forall j :: 0 <= j < r.value ==> !p(xs[j])
    decreases |xs|
  {
    if xs == [] then None
    else if p(xs[0]) then Some(0)
    else
      var rest := FirstIndex(xs[1..], p);
      assert forall i :: 1 <= i < |xs| ==> xs[i] == xs[1..][i - 1];
      if rest.Some? then Some(rest.value + 1) else None
  }

  /** A property every present value has is had by every value of the collected map. */
  lemma CollectSomesValues<K, V>(xs: seq<Option<(K, V)>>, p: ((K, V)) -> bool)
    requires forall i :: 0 <= i < |xs| && xs[i].Some? ==> p(xs[i].value)
    ensures forall k :: k in Collect(Somes(xs)) ==> p((k, Collect(Somes(xs))[k]))
  {
    CollectSomesLastWins(xs);
    forall k | k in Collect(Somes(xs)) ensures p((k, Collect(Somes(xs))[k])) {
      var i :| LastSomeWithKey(xs, i, k) && xs[i].value.1 == Collect(Somes(xs))[k];
      assert xs[i].value == (k, Collect(Somes(xs))[k]);
    }
  }

  /** Appending each entry's value to the list under its key (`entry(k).or_default().push(x)`). */
  function GroupBy<K, X>(entries: seq<(K, X)>): map<K, seq<X>>
    decreases |entries|
  {
    if entries == [] then map[]
    else
      var m := GroupBy(entries[..|entries| - 1]);
      var e := entries[|entries| - 1];
      m[e.0 := (if e.0 in m then m[e.0] else []) + [e.1]]
  }

  lemma GroupBySnoc<K, X>(entries: seq<(K, X)>, i: nat)
    requires i < |entries|
    ensures var m := GroupBy(entries[..i]);
      GroupBy(entries[..i + 1]) == m[entries[i].0 := (if entries[i].0 in m then m[entries[i].0] else []) + [entries[i].1]]
  {
    assert entries[..i + 1][..i] == entries[..i];
  }

  lemma GroupByAppendOne<K, X>(entries: seq<(K, X)>, e: (K, X))
    ensures var m := GroupBy(entries);
      GroupBy(entries + [e]) == m[e.0 := (if e.0 in m then m[e.0] else []) + [e.1]]
  {
    assert (entries + [e])[..|entries|] == entries;
  }

  /** The entries with key `k`, as present values, in order. */
  ghost function WithKey<K, X>(entries: seq<(K, X)>, k: K): (r: seq<Option<X>>)
    ensures |r| == |entries|
    ensures forall i :: 0 <= i < |entries| ==> r[i] == if entries[i].0 == k then Some(entries[i].1) else None
  {
    seq(|entries|, i requires 0 <= i < |entries| => if entries[i].0 == k then Some(entries[i].1) else None)
  }

  /**
   * A key has a list iff some entry has that key, and its list holds the values
   * of exactly the entries with that key, in entry order.
   */
  lemma {:induction false} GroupByExact<K, X>(entries: seq<(K, X)>)
    ensures forall k :: k in GroupBy(entries) <==> exists i :: 0 <= i < |entries| && entries[i].0 == k
    ensures forall k :: k in GroupBy(entries) ==> GroupBy(entries)[k] == Somes(WithKey(entries, k))
    decreases |entries|
  {
    if entries != [] {
      var n := |entries| - 1;
      var prefix := entries[..n];
      GroupByExact(prefix);
      assert forall i :: 0 <= i < n ==> prefix[i] == entries[i];
      forall k | k in GroupBy(entries) ensures GroupBy(entries)[k] == Somes(WithKey(entries, k)) {
        assert WithKey(entries, k)[..n] == WithKey(prefix, k);
        if k !in GroupBy(prefix) {
          assert forall i :: 0 <= i < n ==> WithKey(prefix, k)[i].None?;
          SomesOfNones(WithKey(prefix, k));
        }
      }
    }
  }

  lemma {:induction false} SomesOfNones<T>(xs: seq<Option<T>>)
    requires forall i :: 0 <= i < |xs| ==> xs[i].None?
    ensures Somes(xs) == []
    decreases |xs|
  {
    if xs != [] {
      SomesOfNones(xs[..|xs| - 1]);
    }
  }

  /** Every entry's value is in the list under its key. */
  lemma GroupByHoldsEvery<K, X>(entries: seq<(K, X)>)
    ensures forall i :: 0 <= i < |entries| ==>
      entries[i].0 in GroupBy(entries) && entries[i].1 in GroupBy(entries)[entries[i].0]
  {
    GroupByExact(entries);
    forall i | 0 <= i < |entries|
      ensures entries[i].0 in GroupBy(entries) && entries[i].1 in GroupBy(entries)[entries[i].0]
    {
      var k := entries[i].0;
      SomesExact(WithKey(entries, k));
      var ks := SomeIndices(WithKey(entries, k));
      assert i in ks;
      var p :| 0 <= p < |ks| && ks[p] == i;
      assert Somes(WithKey(entries, k))[p] == entries[i].1;
    }
  }
}
