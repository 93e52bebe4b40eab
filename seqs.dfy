/** Folds over sequences of records that the calculators use: plain totals, totals restricted to
    one grouping key, and the distinct keys in order of first appearance (the order in which a
    JavaScript object keyed by those strings enumerates its values). */
module Seqs {

  predicate Distinct<T(==)>(s: seq<T>) {
    forall i, j :: 0 <= i < j < |s| ==> s[i] != s[j]
  }

  /** `s.reduce((sum, x) => sum + val(x), 0)`, accumulated left to right. */
  function Total<T>(s: seq<T>, val: T -> real): real
    decreases |s|
  {
    if s == [] then 0.0 else Total(s[..|s| - 1], val) + val(s[|s| - 1])
  }

  /** The total of `val` over the elements whose key is `k`. */
  function TotalWhere<T, K(==, !new)>(s: seq<T>, key: T -> K, k: K, val: T -> real): real
    decreases |s|
  {
    if s == [] then 0.0
    else TotalWhere(s[..|s| - 1], key, k, val) + (if key(s[|s| - 1]) == k then val(s[|s| - 1]) else 0.0)
  }

  /** `new Set(s.map(key))`, as a set. */
  function KeySet<T, K(==, !new)>(s: seq<T>, key: T -> K): set<K> {
    set i | 0 <= i < |s| :: key(s[i])
  }

  /** Number of positions of `ks` holding `k`. */
  function Count<K(==, !new)>(ks: seq<K>, k: K): nat
    decreases |ks|
  {
    if ks == [] then 0 else Count(ks[..|ks| - 1], k) + (if ks[|ks| - 1] == k then 1 else 0)
  }

  /** Sum, over the keys `ks`, of the per-key totals of `s`. */
  function SumOverKeys<T, K(==, !new)>(ks: seq<K>, s: seq<T>, key: T -> K, val: T -> real): real
    decreases |ks|
  {
    if ks == [] then 0.0
    else SumOverKeys(ks[..|ks| - 1], s, key, val) + TotalWhere(s, key, ks[|ks| - 1], val)
  }

  lemma KeySetSnoc<T, K(!new)>(s: seq<T>, x: T, key: T -> K)
    ensures KeySet(s + [x], key) == KeySet(s, key) + {key(x)}
  {
    var t := s + [x];
    forall k | k in KeySet(t, key) ensures k in KeySet(s, key) + {key(x)} {
      var i :| 0 <= i < |t| && key(t[i]) == k;
      if i < |s| { assert t[i] == s[i]; }
    }
    forall k | k in KeySet(s, key) + {key(x)} ensures k in KeySet(t, key) {
      if k == key(x) {
        assert t[|s|] == x;
      } else {
        var i :| 0 <= i < |s| && key(s[i]) == k;
        assert t[i] == s[i];
      }
    }
  }

  /** The distinct keys of `s`, each placed where it first occurs. */
  function FirstSeenKeys<T, K(==, !new)>(s: seq<T>, key: T -> K): (ks: seq<K>)
    ensures Distinct(ks)
    ensures forall k :: k in ks <==> k in KeySet(s, key)
    decreases |s|
  {
    if s == [] then []
    else
      var p := FirstSeenKeys(s[..|s| - 1], key);
      KeySetSnoc(s[..|s| - 1], s[|s| - 1], key);
      assert s[..|s| - 1] + [s[|s| - 1]] == s;
      if key(s[|s| - 1]) in p then p else p + [key(s[|s| - 1])]
  }

  lemma {:induction false} DistinctCount<K(!new)>(ks: seq<K>, k: K)
    requires Distinct(ks)
    ensures Count(ks, k) == if k in ks then 1 else 0
    decreases |ks|
  {
    if ks != [] {
      var p := ks[..|ks| - 1];
      assert ks == p + [ks[|ks| - 1]];
      DistinctCount(p, k);
      if ks[|ks| - 1] == k {
        assert k !in p;
      }
    }
  }

  lemma {:induction false} SumOverKeysSnoc<T, K(!new)>(ks: seq<K>, s: seq<T>, x: T, key: T -> K, val: T -> real)
    ensures SumOverKeys(ks, s + [x], key, val) == SumOverKeys(ks, s, key, val) + (Count(ks, key(x)) as real) * val(x)
    decreases |ks|
  {
    assert (s + [x])[..|s|] == s;
    if ks != [] {
      SumOverKeysSnoc(ks[..|ks| - 1], s, x, key, val);
    }
  }

  lemma {:induction false} SumOverKeysEmpty<T, K(!new)>(ks: seq<K>, key: T -> K, val: T -> real)
    ensures SumOverKeys(ks, [], key, val) == 0.0
    decreases |ks|
  {
    if ks != [] { SumOverKeysEmpty(ks[..|ks| - 1], key, val); }
  }

  /** Grouping by key partitions the elements: when `ks` lists every key of `s` once, the
      per-key totals add up to the overall total. */
  lemma {:induction false} PartitionTotal<T, K(!new)>(ks: seq<K>, s: seq<T>, key: T -> K, val: T -> real)
    requires Distinct(ks)
    requires forall k :: k in KeySet(s, key) ==> k in ks
    ensures SumOverKeys(ks, s, key, val) == Total(s, val)
    decreases |s|
  {
    if s == [] {
      SumOverKeysEmpty(ks, key, val);
    } else {
      var p, x := s[..|s| - 1], s[|s| - 1];
      assert s == p + [x];
      KeySetSnoc(p, x, key);
      PartitionTotal(ks, p, key, val);
      SumOverKeysSnoc(ks, p, x, key, val);
      DistinctCount(ks, key(x));
    }
  }

  /** A key that no element carries has total zero. */
  lemma {:induction false} TotalWhereAbsent<T, K(!new)>(s: seq<T>, key: T -> K, k: K, val: T -> real)
    requires k !in KeySet(s, key)
    ensures TotalWhere(s, key, k, val) == 0.0
    decreases |s|
  {
    if s != [] {
      var p := s[..|s| - 1];
      assert s == p + [s[|s| - 1]];
      KeySetSnoc(p, s[|s| - 1], key);
      TotalWhereAbsent(p, key, k, val);
    }
  }

  /** The number of distinct keys (the size of the JavaScript `Set`) is the number of keys in
      first-seen order. */
  lemma {:induction false} KeySetSize<T, K(!new)>(s: seq<T>, key: T -> K)
    ensures |KeySet(s, key)| == |FirstSeenKeys(s, key)|
  {
    var ks := FirstSeenKeys(s, key);
    DistinctCard(ks);
    assert (set k | k in ks) == KeySet(s, key);
  }

  lemma {:induction false} DistinctCard<K(!new)>(ks: seq<K>)
    requires Distinct(ks)
    ensures |set k | k in ks| == |ks|
    decreases |ks|
  {
    if ks != [] {
      var p := ks[..|ks| - 1];
      assert ks == p + [ks[|ks| - 1]];
      DistinctCard(p);
      assert (set k | k in ks) == (set k | k in p) + {ks[|ks| - 1]};
    }
  }

  /** The first element of `s` whose key is `k`. */
  function FirstWith<T, K(==, !new)>(s: seq<T>, key: T -> K, k: K): (x: T)
    requires k in KeySet(s, key)
    ensures x in s && key(x) == k
    decreases |s|
  {
    if key(s[0]) == k then s[0]
    else
      assert k in KeySet(s[1..], key) by {
        var i :| 0 <= i < |s| && key(s[i]) == k;
        assert s[1..][i - 1] == s[i];
      }
      FirstWith(s[1..], key, k)
  }

  /** Appending an element changes the first element of a key only for a key not seen before. */
  lemma {:induction false} FirstWithSnoc<T, K(!new)>(s: seq<T>, x: T, key: T -> K, k: K)
    requires k in KeySet(s + [x], key)
    ensures k in KeySet(s, key) ==> FirstWith(s + [x], key, k) == FirstWith(s, key, k)
    ensures k !in KeySet(s, key) ==> FirstWith(s + [x], key, k) == x
    decreases |s|
  {
    KeySetSnoc(s, x, key);
    if s == [] {
      assert s + [x] == [x];
    } else {
      assert (s + [x])[0] == s[0];
      assert (s + [x])[1..] == s[1..] + [x];
      if key(s[0]) != k {
        assert s == [s[0]] + s[1..];
        KeySetSnoc(s[1..], x, key);
        assert k in KeySet(s, key) ==> k in KeySet(s[1..], key) by {
          if k in KeySet(s, key) {
            var i :| 0 <= i < |s| && key(s[i]) == k;
            assert s[1..][i - 1] == s[i];
          }
        }
        FirstWithSnoc(s[1..], x, key, k);
      }
    }
  }

  /** The vector `acc` with the values of `x` added component-wise. */
  function AddValues<T>(acc: seq<real>, x: T, vals: seq<T -> real>): (r: seq<real>)
    requires |acc| == |vals|
    ensures |r| == |vals| && forall j :: 0 <= j < |vals| ==> r[j] == acc[j] + vals[j](x)
  {
    seq(|vals|, j requires 0 <= j < |vals| => acc[j] + vals[j](x))
  }

  /** What the grouping pass knows after the elements `s`: the keys in order of first
      appearance, the element that created each key's accumulator, and each accumulator holding
      the per-key totals of the value functions. */
  ghost predicate Grouped<T, K(!new)>(s: seq<T>, key: T -> K, vals: seq<T -> real>,
                                      order: seq<K>, firsts: map<K, T>, sums: map<K, seq<real>>)
  {
    && order == FirstSeenKeys(s, key)
    && (forall k :: k in firsts <==> k in KeySet(s, key))
    && (forall k :: k in sums <==> k in KeySet(s, key))
    && (forall k :: k in firsts ==> firsts[k] == FirstWith(s, key, k))
    && (forall k :: k in sums ==>
          |sums[k]| == |vals| && forall j :: 0 <= j < |vals| ==> sums[k][j] == TotalWhere(s, key, k, vals[j]))
  }

  /** Folding in an element whose key has an accumulator already. */
  lemma GroupedSeen<T, K(!new)>(s: seq<T>, x: T, key: T -> K, vals: seq<T -> real>,
                                order: seq<K>, firsts: map<K, T>, sums: map<K, seq<real>>)
    requires Grouped(s, key, vals, order, firsts, sums)
    requires key(x) in sums
    ensures Grouped(s + [x], key, vals, order, firsts, sums[key(x) := AddValues(sums[key(x)], x, vals)])
  {
    var k := key(x);
    KeySetSnoc(s, x, key);
    assert (s + [x])[..|s|] == s;
    forall k' | k' in firsts ensures firsts[k'] == FirstWith(s + [x], key, k') {
      FirstWithSnoc(s, x, key, k');
    }
  }

  /** Folding in an element whose key is met for the first time. */
  lemma GroupedFresh<T, K(!new)>(s: seq<T>, x: T, key: T -> K, vals: seq<T -> real>,
                                 order: seq<K>, firsts: map<K, T>, sums: map<K, seq<real>>)
    requires Grouped(s, key, vals, order, firsts, sums)
    requires key(x) !in sums
    ensures Grouped(s + [x], key, vals, order + [key(x)], firsts[key(x) := x],
                    sums[key(x) := AddValues(seq(|vals|, _ => 0.0), x, vals)])
  {
    var k := key(x);
    KeySetSnoc(s, x, key);
    assert (s + [x])[..|s|] == s;
    forall j | 0 <= j < |vals| ensures TotalWhere(s, key, k, vals[j]) == 0.0 {
      TotalWhereAbsent(s, key, k, vals[j]);
    }
    forall k' | k' in firsts[k := x] ensures firsts[k := x][k'] == FirstWith(s + [x], key, k') {
      FirstWithSnoc(s, x, key, k');
    }
  }

  /** One pass over `s` that adds every element's values into the accumulator of its key,
      creating the accumulator (and remembering the element that created it) the first time
      the key is met: the `forEach` that fills an object keyed by a grouping key. */
  method GroupTotals<T, K(==, !new)>(s: seq<T>, key: T -> K, vals: seq<T -> real>)
    returns (order: seq<K>, firsts: map<K, T>, sums: map<K, seq<real>>)
    ensures order == FirstSeenKeys(s, key)
    ensures forall k :: k in firsts <==> k in KeySet(s, key)
    ensures forall k :: k in sums <==> k in KeySet(s, key)
    ensures forall k :: k in firsts ==> firsts[k] == FirstWith(s, key, k)
    ensures forall k :: k in sums ==>
              |sums[k]| == |vals| && forall j :: 0 <= j < |vals| ==> sums[k][j] == TotalWhere(s, key, k, vals[j])
  {
    order, firsts, sums := [], map[], map[];
    var i := 0;
    while i < |s|
      invariant 0 <= i <= |s|
      invariant Grouped(s[..i], key, vals, order, firsts, sums)
    {
      var x := s[i];
      var k := key(x);
      assert s[..i + 1] == s[..i] + [x];
      if k !in sums {
        GroupedFresh(s[..i], x, key, vals, order, firsts, sums);
        order := order + [k];
        firsts := firsts[k := x];
        sums := sums[k := seq(|vals|, _ => 0.0)];
      } else {
        GroupedSeen(s[..i], x, key, vals, order, firsts, sums);
      }
      sums := sums[k := AddValues(sums[k], x, vals)];
      i := i + 1;
    }
    assert s[..i] == s;
  }

  /** Totals of two sequences agree when their terms agree position by position. */
  lemma {:induction false} TotalPointwise<A, B>(a: seq<A>, b: seq<B>, va: A -> real, vb: B -> real)
    requires |a| == |b|
    requires forall i :: 0 <= i < |a| ==> va(a[i]) == vb(b[i])
    ensures Total(a, va) == Total(b, vb)
    decreases |a|
  {
    if a != [] {
      TotalPointwise(a[..|a| - 1], b[..|b| - 1], va, vb);
    }
  }

  /** Dividing by a non-zero number and multiplying back gives the number. */
  lemma QuotientTimes(a: real, c: real)
    requires c != 0.0
    ensures (a / c) * c == a
  {
  }

  /** `n * c`, written as repeated addition so that proofs about it stay linear. */
  function Times(n: nat, c: real): real
    decreases n
  {
    if n == 0 then 0.0 else Times(n - 1, c) + c
  }

  lemma {:induction false} TimesIsProduct(n: nat, c: real)
    ensures Times(n, c) == (n as real) * c
    decreases n
  {
    if n > 0 {
      TimesIsProduct(n - 1, c);
      assert (n as real) * c == ((n - 1) as real) * c + c;
    }
  }

  /** Adding a constant to every term adds it once per term to the total. */
  lemma {:induction false} TotalPlusConst<A>(a: seq<A>, v: A -> real, w: A -> real, c: real)
    requires forall i :: 0 <= i < |a| ==> v(a[i]) == w(a[i]) + c
    ensures Total(a, v) == Total(a, w) + Times(|a|, c)
    decreases |a|
  {
    if a != [] {
      TotalPlusConst(a[..|a| - 1], v, w, c);
    }
  }

  /** The total of a difference is the difference of the totals. */
  lemma {:induction false} TotalMinus<A>(a: seq<A>, v: A -> real, w: A -> real, d: A -> real)
    requires forall i :: 0 <= i < |a| ==> d(a[i]) == v(a[i]) - w(a[i])
    ensures Total(a, d) == Total(a, v) - Total(a, w)
    decreases |a|
  {
    if a != [] {
      TotalMinus(a[..|a| - 1], v, w, d);
    }
  }

  /** Restricted to one key, the total of a difference is still the difference of the totals. */
  lemma {:induction false} TotalWhereMinus<T, K(!new)>(s: seq<T>, key: T -> K, k: K, v: T -> real, w: T -> real, d: T -> real)
    requires forall i :: 0 <= i < |s| ==> d(s[i]) == v(s[i]) - w(s[i])
    ensures TotalWhere(s, key, k, d) == TotalWhere(s, key, k, v) - TotalWhere(s, key, k, w)
    decreases |s|
  {
    if s != [] {
      TotalWhereMinus(s[..|s| - 1], key, k, v, w, d);
    }
  }

  /** The per-key totals, summed over keys, as a plain total over the key sequence. */
  lemma {:induction false} SumOverKeysIsTotal<T, K(!new)>(ks: seq<K>, s: seq<T>, key: T -> K, val: T -> real, w: K -> real)
    requires forall i :: 0 <= i < |ks| ==> w(ks[i]) == TotalWhere(s, key, ks[i], val)
    ensures SumOverKeys(ks, s, key, val) == Total(ks, w)
    decreases |ks|
  {
    if ks != [] {
      SumOverKeysIsTotal(ks[..|ks| - 1], s, key, val, w);
    }
  }

  /** Grouping partitions: when `ks` lists every key once and `w` gives each key's total, the
      totals over the keys add up to the total over all elements. */
  lemma PartitionTotalBy<T, K(!new)>(ks: seq<K>, s: seq<T>, key: T -> K, val: T -> real, w: K -> real)
    requires Distinct(ks)
    requires forall k :: k in KeySet(s, key) ==> k in ks
    requires forall i :: 0 <= i < |ks| ==> w(ks[i]) == TotalWhere(s, key, ks[i], val)
    ensures Total(ks, w) == Total(s, val)
  {
    SumOverKeysIsTotal(ks, s, key, val, w);
    PartitionTotal(ks, s, key, val);
  }

  /** Scaling the values of the elements with key `k` (and keeping every key) scales that key's
      total. */
  lemma {:induction false} TotalWhereScaled<T, K(!new)>(s: seq<T>, t: seq<T>, key: T -> K, k: K, val: T -> real, c: real)
    requires |s| == |t|
    requires forall i :: 0 <= i < |s| ==> key(t[i]) == key(s[i])
    requires forall i :: 0 <= i < |s| && key(s[i]) == k ==> val(t[i]) == c * val(s[i])
    ensures TotalWhere(t, key, k, val) == c * TotalWhere(s, key, k, val)
    decreases |s|
  {
    if s != [] {
      var n := |s| - 1;
      TotalWhereScaled(s[..n], t[..n], key, k, val, c);
      var a := TotalWhere(s[..n], key, k, val);
      var x := if key(s[n]) == k then val(s[n]) else 0.0;
      assert c * (a + x) == c * a + c * x;
    }
  }

  /** Scaling every value scales the total. */
  lemma {:induction false} TotalScaled<T>(s: seq<T>, val: T -> real, w: T -> real, c: real)
    requires forall x :: w(x) == c * val(x)
    ensures Total(s, w) == c * Total(s, val)
    decreases |s|
  {
    if s != [] {
      var n := |s| - 1;
      TotalScaled(s[..n], val, w, c);
      var a := Total(s[..n], val);
      assert c * (a + val(s[n])) == c * a + c * val(s[n]);
    }
  }

  lemma TotalSnoc<T>(s: seq<T>, x: T, val: T -> real)
    ensures Total(s + [x], val) == Total(s, val) + val(x)
  {
    assert (s + [x])[..|s|] == s;
  }
}
