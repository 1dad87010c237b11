/** Sums over sequences and over finite maps. */
module Sums {

  function SumOf<T>(f: T -> nat, s: seq<T>): nat {
    if s == [] then 0 else SumOf(f, s[..|s| - 1]) + f(s[|s| - 1])
  }

  lemma {:induction false} SumPush<T>(f: T -> nat, s: seq<T>, x: T)
    ensures SumOf(f, s + [x]) == SumOf(f, s) + f(x)
  {
    assert (s + [x])[..|s|] == s;
  }

  lemma {:induction false} SumConcat<T>(f: T -> nat, s: seq<T>, t: seq<T>)
    ensures SumOf(f, s + t) == SumOf(f, s) + SumOf(f, t)
  {
    if t == [] {
      assert s + t == s;
    } else {
      var u := t[..|t| - 1];
      SumConcat(f, s, u);
      assert (s + t)[..|s + t| - 1] == s + u;
    }
  }

  lemma {:induction false} SumCons<T>(f: T -> nat, x: T, s: seq<T>)
    ensures SumOf(f, [x] + s) == f(x) + SumOf(f, s)
  {
    SumConcat(f, [x], s);
    SumPush(f, [], x);
    assert [] + [x] == [x];
  }

  lemma {:induction false} SumRemove<T>(f: T -> nat, s: seq<T>, i: nat)
    requires i < |s|
    ensures SumOf(f, s) == f(s[i]) + SumOf(f, s[..i] + s[i + 1..])
  {
    assert s == s[..i] + ([s[i]] + s[i + 1..]);
    SumConcat(f, s[..i], [s[i]] + s[i + 1..]);
    SumCons(f, s[i], s[i + 1..]);
    SumConcat(f, s[..i], s[i + 1..]);
  }

  /** A part of a collection never sums to more than the whole, whatever the order. */
  lemma {:induction false} SubMultisetSum<T>(f: T -> nat, part: seq<T>, whole: seq<T>)
    requires multiset(part) <= multiset(whole)
    ensures SumOf(f, part) <= SumOf(f, whole)
  {
    if part != [] {
      var init, x := part[..|part| - 1], part[|part| - 1];
      assert part == init + [x];
      assert x in multiset(part);
      assert x in whole;
      var i :| 0 <= i < |whole| && whole[i] == x;
      var rest := whole[..i] + whole[i + 1..];
      assert whole == whole[..i] + [x] + whole[i + 1..];
      assert multiset(whole) == multiset(rest) + multiset{x};
      assert multiset(part) == multiset(init) + multiset{x};
      assert multiset(init) <= multiset(rest) by {
        forall y ensures multiset(init)[y] <= multiset(rest)[y] {
          assert multiset(part)[y] <= multiset(whole)[y];
        }
      }
      SubMultisetSum(f, init, rest);
      SumRemove(f, whole, i);
    }
  }

  lemma {:induction false} SumSame<T>(f: T -> nat, g: T -> nat, s: seq<T>)
    requires forall x | x in s :: f(x) == g(x)
    ensures SumOf(f, s) == SumOf(g, s)
  {
    if s != [] {
      SumSame(f, g, s[..|s| - 1]);
    }
  }

  lemma {:induction false} SumAtMost<T>(f: T -> nat, g: T -> nat, s: seq<T>)
    requires forall x | x in s :: f(x) <= g(x)
    ensures SumOf(f, s) <= SumOf(g, s)
  {
    if s != [] {
      SumAtMost(f, g, s[..|s| - 1]);
    }
  }

  lemma {:induction false} SumZero<T>(f: T -> nat, s: seq<T>)
    requires forall x | x in s :: f(x) == 0
    ensures SumOf(f, s) == 0
  {
    if s != [] {
      SumZero(f, s[..|s| - 1]);
    }
  }

  /** The sum over a set, taken in any order. */
  ghost function SumSet<K>(f: K -> int, s: set<K>): int {
    if s == {} then 0 else
      var k :| k in s;
      f(k) + SumSet(f, s - {k})
  }

  lemma {:induction false} SumSetRemove<K>(f: K -> int, s: set<K>, k: K)
    requires k in s
    ensures SumSet(f, s) == f(k) + SumSet(f, s - {k})
    decreases |s|
  {
    var j :| j in s && SumSet(f, s) == f(j) + SumSet(f, s - {j});
    if j != k {
      SumSetRemove(f, s - {j}, k);
      SumSetRemove(f, s - {k}, j);
      assert s - {j} - {k} == s - {k} - {j};
    }
  }

  lemma {:induction false} SumSetSame<K>(f: K -> int, g: K -> int, s: set<K>)
    requires forall k | k in s :: f(k) == g(k)
    ensures SumSet(f, s) == SumSet(g, s)
    decreases |s|
  {
    if s != {} {
      var k :| k in s;
      SumSetRemove(f, s, k);
      SumSetRemove(g, s, k);
      SumSetSame(f, g, s - {k});
    }
  }

  ghost function SumMap<K, V>(w: V -> nat, m: map<K, V>): int {
    SumSet(k => if k in m then w(m[k]) else 0, m.Keys)
  }

  /** Storing `v` at `k` moves the total by exactly what `k` contributed before and contributes now. */
  lemma SumMapUpdate<K, V>(w: V -> nat, m: map<K, V>, k: K, v: V)
    ensures SumMap(w, m[k := v]) == SumMap(w, m) - (if k in m then w(m[k]) else 0) + w(v)
  {
    var m' := m[k := v];
    var f := (j: K) => if j in m then w(m[j]) else 0;
    var g := (j: K) => if j in m' then w(m'[j]) else 0;
    SumSetRemove(g, m'.Keys, k);
    if k in m {
      SumSetRemove(f, m.Keys, k);
    } else {
      assert m.Keys - {k} == m.Keys;
    }
    assert m'.Keys - {k} == m.Keys - {k};
    SumSetSame(f, g, m.Keys - {k});
  }

  lemma {:induction false} SumSetNonNegative<K>(f: K -> int, s: set<K>)
    requires forall k | k in s :: f(k) >= 0
    ensures SumSet(f, s) >= 0
    decreases |s|
  {
    if s != {} {
      var k :| k in s && SumSet(f, s) == f(k) + SumSet(f, s - {k});
      SumSetNonNegative(f, s - {k});
    }
  }

  lemma SumMapAtLeastOne<K, V>(w: V -> nat, m: map<K, V>, a: K)
    requires a in m
    ensures w(m[a]) <= SumMap(w, m)
  {
    var f := (j: K) => if j in m then w(m[j]) else 0;
    SumSetRemove(f, m.Keys, a);
    SumSetNonNegative(f, m.Keys - {a});
  }

  /** Two different entries of a map together contribute at most the total. */
  lemma SumMapAtLeastTwo<K, V>(w: V -> nat, m: map<K, V>, a: K, b: K)
    requires a in m && b in m && a != b
    ensures w(m[a]) + w(m[b]) <= SumMap(w, m)
  {
    var f := (j: K) => if j in m then w(m[j]) else 0;
    SumSetRemove(f, m.Keys, a);
    SumSetRemove(f, m.Keys - {a}, b);
    SumSetNonNegative(f, m.Keys - {a} - {b});
  }
}
