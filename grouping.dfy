/**
 * The two-level counting reduction that `groupingBy(k1, groupingBy(k2,
 * counting()))` performs: every element contributes its pair of keys,
 * and the result maps the first key to a map from the second key to the
 * number of elements carrying that pair.
 */
module Grouping {

  /** Adds one element with keys (a, b): get-or-insert-zero, then increment. */
  function Increment<A, B>(m: map<A, map<B, nat>>, a: A, b: B): map<A, map<B, nat>>
  {
    var inner := if a in m then m[a] else map[];
    var n := if b in inner then inner[b] else 0;
    m[a := inner[b := n + 1]]
  }

  /** Folds the key pairs, in order, into the two-level count map. */
  function GroupCount<A, B>(pairs: seq<(A, B)>): map<A, map<B, nat>>
  {
    if pairs == [] then map[]
    else Increment(GroupCount(pairs[..|pairs| - 1]), pairs[|pairs| - 1].0, pairs[|pairs| - 1].1)
  }

  /** One more element at the end of the input is one more Increment of the result. */
  lemma GroupCountSnoc<A, B>(pairs: seq<(A, B)>, a: A, b: B)
    ensures GroupCount(pairs + [(a, b)]) == Increment(GroupCount(pairs), a, b)
  {
    assert (pairs + [(a, b)])[..|pairs|] == pairs;
  }

  /**
   * Counts are exact: the pair (a, b) has an entry exactly when some
   * element carries it, and the entry is the number of such elements.
   * So every entry is at least 1 and no entry stands for zero elements.
   */
  lemma {:induction false} GroupCountExact<A, B>(pairs: seq<(A, B)>, a: A, b: B)
    ensures var m := GroupCount(pairs);
      (a in m && b in m[a]) <==> (a, b) in multiset(pairs)
    ensures var m := GroupCount(pairs);
      a in m && b in m[a] ==> m[a][b] == multiset(pairs)[(a, b)]
  {
    if pairs != [] {
      var init, last := pairs[..|pairs| - 1], pairs[|pairs| - 1];
      assert pairs == init + [last];
      assert multiset(pairs) == multiset(init) + multiset{last};
      GroupCountExact(init, a, b);
    }
  }

  /** An outer key is present exactly when some element carries it, and its inner map is never empty. */
  lemma {:induction false} GroupCountOuterKeys<A, B>(pairs: seq<(A, B)>, a: A)
    ensures var m := GroupCount(pairs);
      a in m <==> exists i :: 0 <= i < |pairs| && pairs[i].0 == a
    ensures var m := GroupCount(pairs);
      a in m ==> |m[a]| > 0
  {
    if pairs != [] {
      var init, last := pairs[..|pairs| - 1], pairs[|pairs| - 1];
      GroupCountOuterKeys(init, a);
      var m := GroupCount(pairs);
      if a in GroupCount(init) {
        var i :| 0 <= i < |init| && init[i].0 == a;
        assert pairs[i].0 == a;
      }
      if a == last.0 {
        assert last.1 in m[a];
      } else if exists i :: 0 <= i < |pairs| && pairs[i].0 == a {
        var i :| 0 <= i < |pairs| && pairs[i].0 == a;
        assert i < |init| && init[i].0 == a;
      }
    }
  }

  /**
   * The result depends only on the multiset of key pairs, not on the
   * order in which the elements arrive.
   */
  lemma GroupCountPermutation<A, B>(p: seq<(A, B)>, q: seq<(A, B)>)
    requires multiset(p) == multiset(q)
    ensures GroupCount(p) == GroupCount(q)
  {
    var mp, mq := GroupCount(p), GroupCount(q);
    forall a | a in mp
      ensures a in mq && mp[a] == mq[a]
    {
      GroupCountOuterKeys(p, a);
      var b :| b in mp[a];
      GroupCountExact(p, a, b);
      GroupCountExact(q, a, b);
      forall b' | b' in mp[a]
        ensures b' in mq[a] && mp[a][b'] == mq[a][b']
      {
        GroupCountExact(p, a, b');
        GroupCountExact(q, a, b');
      }
      forall b' | b' in mq[a]
        ensures b' in mp[a]
      {
        GroupCountExact(p, a, b');
        GroupCountExact(q, a, b');
      }
    }
    forall a | a in mq
      ensures a in mp
    {
      GroupCountOuterKeys(q, a);
      var b :| b in mq[a];
      GroupCountExact(p, a, b);
      GroupCountExact(q, a, b);
    }
  }

  /** The sum of the values of a count map. */
  ghost function Sum<K>(m: map<K, nat>): nat
    decreases |m|
  {
    if m == map[] then 0
    else
      var k :| k in m;
      assert |m - {k}| < |m| by { assert m.Keys - {k} < m.Keys; }
      m[k] + Sum(m - {k})
  }

  /** The per-outer-key sums of a two-level count map. */
  ghost function InnerSums<A, B>(m: map<A, map<B, nat>>): map<A, nat>
  {
    map a | a in m :: Sum(m[a])
  }

  /** The sum of all leaf counts of a two-level count map. */
  ghost function Total<A, B>(m: map<A, map<B, nat>>): nat
  {
    Sum(InnerSums(m))
  }

  /** Sum does not depend on which key it takes apart first. */
  lemma {:induction false} SumRemove<K>(m: map<K, nat>, k: K)
    requires k in m
    ensures Sum(m) == m[k] + Sum(m - {k})
    decreases |m|
  {
    var j :| j in m && Sum(m) == m[j] + Sum(m - {j});
    if j != k {
      assert m.Keys - {j} < m.Keys;
      assert m.Keys - {k} < m.Keys;
      SumRemove(m - {j}, k);
      SumRemove(m - {k}, j);
      assert m - {j} - {k} == m - {k} - {j};
    }
  }

  /** Replacing the value at one key changes the sum by the difference. */
  lemma SumUpdate<K>(m: map<K, nat>, k: K, v: nat)
    ensures Sum(m[k := v]) == Sum(m - {k}) + v
    ensures Sum(m) == Sum(m - {k}) + (if k in m then m[k] else 0)
  {
    SumRemove(m[k := v], k);
    assert m[k := v] - {k} == m - {k};
    if k in m {
      SumRemove(m, k);
    } else {
      assert m - {k} == m;
    }
  }

  /** Adding one element adds one to the total. */
  lemma TotalIncrement<A, B>(m: map<A, map<B, nat>>, a: A, b: B)
    ensures Total(Increment(m, a, b)) == Total(m) + 1
  {
    var inner: map<B, nat> := if a in m then m[a] else map[];
    var n := if b in inner then inner[b] else 0;
    var inner' := inner[b := n + 1];
    SumUpdate(inner, b, n + 1);
    assert Sum(inner') == Sum(inner) + 1;
    var m' := Increment(m, a, b);
    var sums, sums' := InnerSums(m), InnerSums(m');
    assert sums' == sums[a := Sum(inner')];
    SumUpdate(sums, a, Sum(inner'));
    var none: map<B, nat> := map[];
    assert Sum(none) == 0;
  }

  /** Every element is counted exactly once: the leaf counts add up to the number of elements. */
  lemma {:induction false} GroupCountTotal<A, B>(pairs: seq<(A, B)>)
    ensures Total(GroupCount(pairs)) == |pairs|
  {
    if pairs == [] {
      assert InnerSums(GroupCount(pairs)) == map[];
    } else {
      var init, last := pairs[..|pairs| - 1], pairs[|pairs| - 1];
      GroupCountTotal(init);
      TotalIncrement(GroupCount(init), last.0, last.1);
    }
  }

  /** The positions of s that hold x. */
  ghost function Positions<T>(s: seq<T>, x: T): set<nat> {
    set i: nat | i < |s| && s[i] == x
  }

  /** The multiplicity of x in s is the number of positions holding x. */
  lemma {:induction false} MultiplicityIsPositionCount<T>(s: seq<T>, x: T)
    ensures multiset(s)[x] == |Positions(s, x)|
  {
    if s != [] {
      var init, last := s[..|s| - 1], s[|s| - 1];
      MultiplicityIsPositionCount(init, x);
      assert s == init + [last];
      assert multiset(s) == multiset(init) + multiset{last};
      var before := Positions(init, x);
      var here: set<nat> := if last == x then {|s| - 1} else {};
      assert Positions(s, x) == before + here;
      assert before !! here;
    }
  }

  /** Taking out the element at position j takes one copy of it out of the multiset. */
  lemma RemoveAt<T>(s: seq<T>, j: nat)
    requires j < |s|
    ensures multiset(s) == multiset(s[..j] + s[j + 1..]) + multiset{s[j]}
  {
    assert s == s[..j] + [s[j]] + s[j + 1..];
  }

  /**
   * Keying two arrangements of the same elements, where equal elements get
   * equal keys, gives two arrangements of the same keys.
   */
  lemma {:induction false} KeysOfPermutation<T, U>(s: seq<T>, t: seq<T>, ks: seq<U>, kt: seq<U>)
    requires multiset(s) == multiset(t)
    requires |ks| == |s| && |kt| == |t|
    requires forall i, j :: 0 <= i < |s| && 0 <= j < |t| && s[i] == t[j] ==> ks[i] == kt[j]
    ensures multiset(ks) == multiset(kt)
    decreases |s|
  {
    if s == [] {
      assert |t| == |multiset(t)| == 0;
    } else {
      var n := |s| - 1;
      RemoveAt(s, n);
      assert s[n] in multiset(t);
      var j :| 0 <= j < |t| && t[j] == s[n];
      var t', kt' := t[..j] + t[j + 1..], kt[..j] + kt[j + 1..];
      RemoveAt(t, j);
      RemoveAt(kt, j);
      RemoveAt(ks, n);
      assert s[..n] + s[n + 1..] == s[..n];
      assert ks[..n] + ks[n + 1..] == ks[..n];
      assert multiset(s[..n]) == multiset(s) - multiset{s[n]};
      assert multiset(t') == multiset(t) - multiset{t[j]};
      assert |t'| == |t| - 1;
      forall i, j' | 0 <= i < n && 0 <= j' < |t'| && s[..n][i] == t'[j']
        ensures ks[..n][i] == kt'[j']
      {
        var k := if j' < j then j' else j' + 1;
        assert t'[j'] == t[k] && kt'[j'] == kt[k];
      }
      KeysOfPermutation(s[..n], t', ks[..n], kt');
      assert ks[n] == kt[j];
    }
  }
}
