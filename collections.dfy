/** The array and record idioms the components use: `filter`, `filter(...).length`,
    `slice(0, n)`, and `reduce` into a `Record<key, number>` histogram. */
module Collections {

  /** `Array.prototype.filter`: keeps the elements that satisfy `p`, in their original order. */
  function Filter<T>(s: seq<T>, p: T -> bool): (r: seq<T>)
    ensures |r| <= |s|
    ensures forall i :: 0 <= i < |r| ==> p(r[i])
    ensures forall i :: 0 <= i < |r| ==> r[i] in s
    ensures forall i :: 0 <= i < |s| ==> (s[i] in r <==> p(s[i]))
  {
    if s == [] then []
    else if p(s[0]) then [s[0]] + Filter(s[1..], p)
    else Filter(s[1..], p)
  }

  /** Filtering distributes over concatenation, so it keeps the relative order of what it keeps. */
  lemma {:induction false} FilterAppend<T>(a: seq<T>, b: seq<T>, p: T -> bool)
    ensures Filter(a + b, p) == Filter(a, p) + Filter(b, p)
  {
    if a != [] {
      assert (a + b)[0] == a[0] && (a + b)[1..] == a[1..] + b;
      FilterAppend(a[1..], b, p);
      if p(a[0]) {
        assert Filter(a + b, p) == [a[0]] + Filter(a[1..] + b, p);
      } else {
        assert Filter(a + b, p) == Filter(a[1..] + b, p);
      }
    } else {
      assert a + b == b;
    }
  }

  /** A filter that every element passes returns its input unchanged. */
  lemma {:induction false} FilterAllPass<T>(s: seq<T>, p: T -> bool)
    requires forall i :: 0 <= i < |s| ==> p(s[i])
    ensures Filter(s, p) == s
  {
    if s != [] {
      FilterAllPass(s[1..], p);
    }
  }

  /** A filter that no element passes returns the empty sequence. */
  lemma {:induction false} FilterNonePass<T>(s: seq<T>, p: T -> bool)
    requires forall i :: 0 <= i < |s| ==> !p(s[i])
    ensures Filter(s, p) == []
  {
    if s != [] {
      FilterNonePass(s[1..], p);
    }
  }

  /** Two predicates that agree on every element filter alike. */
  lemma {:induction false} FilterSame<T>(s: seq<T>, p: T -> bool, q: T -> bool)
    requires forall i :: 0 <= i < |s| ==> p(s[i]) == q(s[i])
    ensures Filter(s, p) == Filter(s, q)
  {
    if s != [] {
      FilterSame(s[1..], p, q);
    }
  }

  /** `filter(p).length`. */
  function Count<T>(s: seq<T>, p: T -> bool): (n: nat)
    ensures n <= |s|
  {
    |Filter(s, p)|
  }

  /** Counting the elements that pass a stronger predicate never gives more. */
  lemma {:induction false} CountMonotone<T>(s: seq<T>, p: T -> bool, q: T -> bool)
    requires forall i :: 0 <= i < |s| ==> p(s[i]) ==> q(s[i])
    ensures Count(s, p) <= Count(s, q)
  {
    if s != [] {
      CountMonotone(s[1..], p, q);
    }
  }

  /** The elements that pass `p` and those that pass its complement `q` add up to the whole
      sequence. */
  lemma {:induction false} CountSplit<T>(s: seq<T>, p: T -> bool, q: T -> bool)
    requires forall i :: 0 <= i < |s| ==> q(s[i]) == !p(s[i])
    ensures Count(s, p) + Count(s, q) == |s|
  {
    if s != [] {
      CountSplit(s[1..], p, q);
    }
  }

  /** Every element passes exactly when all of them are counted. */
  lemma {:induction false} CountAll<T>(s: seq<T>, p: T -> bool)
    ensures Count(s, p) == |s| <==> forall i :: 0 <= i < |s| ==> p(s[i])
  {
    if s != [] {
      CountAll(s[1..], p);
      assert forall i :: 1 <= i < |s| ==> s[i] == s[1..][i - 1];
      if forall i :: 0 <= i < |s[1..]| ==> p(s[1..][i]) {
        assert forall i :: 0 <= i < |s| ==> p(s[i]) <==> i == 0 ==> p(s[0]);
      }
    }
  }

  /** No element passes exactly when none is counted. */
  lemma CountNone<T>(s: seq<T>, p: T -> bool)
    ensures Count(s, p) == 0 <==> forall i :: 0 <= i < |s| ==> !p(s[i])
  {
    if Count(s, p) > 0 {
      var r := Filter(s, p);
      assert r[0] in s;
    }
  }

  /** Two predicates that no element satisfies together count at most every element once. */
  lemma {:induction false} CountDisjoint<T>(s: seq<T>, p: T -> bool, q: T -> bool)
    requires forall i :: 0 <= i < |s| ==> !(p(s[i]) && q(s[i]))
    ensures Count(s, p) + Count(s, q) <= |s|
  {
    if s != [] {
      CountDisjoint(s[1..], p, q);
    }
  }

  /** `slice(0, n)`. */
  function Take<T>(s: seq<T>, n: nat): (r: seq<T>)
    ensures |r| <= n && |r| <= |s|
    ensures |r| == if n < |s| then n else |s|
    ensures r == s[..|r|]
  {
    if n < |s| then s[..n] else s
  }

  /** The number of times `k` occurs in `keys`. */
  function Occurrences<K(==)>(keys: seq<K>, k: K): (n: nat)
    ensures n <= |keys|
    ensures n > 0 <==> k in keys
  {
    if keys == [] then 0
    else (if keys[0] == k then 1 else 0) + Occurrences(keys[1..], k)
  }

  lemma {:induction false} OccurrencesAppend<K>(keys: seq<K>, x: K, k: K)
    ensures Occurrences(keys + [x], k) == Occurrences(keys, k) + (if x == k then 1 else 0)
  {
    if keys != [] {
      assert (keys + [x])[1..] == keys[1..] + [x];
      OccurrencesAppend(keys[1..], x, k);
    }
  }

  /** The sum of the values of a map, in no particular order. */
  ghost function SumOf<K>(m: map<K, nat>): nat
    decreases |m|
  {
    if m == map[] then 0
    else
      var k :| k in m;
      m[k] + SumOf(m - {k})
  }

  /** Any key can be taken out first: the sum does not depend on the order of the keys. */
  lemma {:induction false} SumOfRemove<K>(m: map<K, nat>, k: K)
    requires k in m
    ensures SumOf(m) == m[k] + SumOf(m - {k})
    decreases |m|
  {
    var j :| j in m && SumOf(m) == m[j] + SumOf(m - {j});
    if j != k {
      var mj := m - {j};
      var mk := m - {k};
      assert |mj| < |m| by { assert |mj.Keys| == |m.Keys| - 1; }
      assert |mk| < |m| by { assert |mk.Keys| == |m.Keys| - 1; }
      SumOfRemove(mj, k);
      SumOfRemove(mk, j);
      assert mj - {k} == mk - {j};
    }
  }

  /** Raising one entry by one (or adding it with value one) raises the sum by one. */
  lemma SumOfIncrement<K>(m: map<K, nat>, k: K)
    ensures SumOf(m[k := if k in m then m[k] + 1 else 1]) == SumOf(m) + 1
  {
    var m' := m[k := if k in m then m[k] + 1 else 1];
    SumOfRemove(m', k);
    assert m' - {k} == m - {k};
    if k in m {
      SumOfRemove(m, k);
    } else {
      assert m - {k} == m;
    }
  }

  /** `acc` is the histogram of `keys`: its keys are exactly the values that occur, each maps
      to its number of occurrences, and the counts add up to the length of `keys`. */
  ghost predicate IsTally<K>(acc: map<K, nat>, keys: seq<K>) {
    && acc.Keys == KeySet(keys)
    && (forall k :: k in acc ==> acc[k] == Occurrences(keys, k))
    && SumOf(acc) == |keys|
  }

  /** One step of the reduction: counting one more key. */
  function Bump<K>(acc: map<K, nat>, key: K): map<K, nat> {
    acc[key := if key in acc then acc[key] + 1 else 1]
  }

  lemma TallyStep<K>(acc: map<K, nat>, keys: seq<K>, key: K)
    requires IsTally(acc, keys)
    ensures IsTally(Bump(acc, key), keys + [key])
  {
    forall k ensures Occurrences(keys + [key], k) == Occurrences(keys, k) + (if key == k then 1 else 0) {
      OccurrencesAppend(keys, key, k);
    }
    SumOfIncrement(acc, key);
    KeySetAppend(keys, key);
  }

  /** The distinct values of a sequence. */
  ghost function KeySet<K>(keys: seq<K>): set<K> {
    set i | 0 <= i < |keys| :: keys[i]
  }

  lemma KeySetAppend<K>(keys: seq<K>, key: K)
    ensures KeySet(keys + [key]) == KeySet(keys) + {key}
  {
    var keys' := keys + [key];
    forall x | x in KeySet(keys') ensures x in KeySet(keys) + {key} {
      var i :| 0 <= i < |keys'| && keys'[i] == x;
      if i < |keys| { assert keys[i] == x; }
    }
    forall x | x in KeySet(keys) ensures x in KeySet(keys') {
      var i :| 0 <= i < |keys| && keys[i] == x;
      assert keys'[i] == x;
    }
    assert keys'[|keys|] == key;
  }

  /** `keys.reduce((acc, k) => { acc[k] = (acc[k] || 0) + 1; return acc }, {})`. */
  method Tally<K>(keys: seq<K>) returns (acc: map<K, nat>)
    ensures IsTally(acc, keys)
  {
    acc := map[];
    var i := 0;
    while i < |keys|
      invariant 0 <= i <= |keys|
      invariant IsTally(acc, keys[..i])
    {
      TallyStep(acc, keys[..i], keys[i]);
      assert keys[..i + 1] == keys[..i] + [keys[i]];
      acc := Bump(acc, keys[i]);
      i := i + 1;
    }
    assert keys[..i] == keys;
  }
}
