/**
 Sums over rows and over groups of rows: what one pass that fills several grouping maps computes,
 independent of the order of the rows and of how they are split.
 */
module Grouping {
  import opened Options

  datatype Agg = Agg(requests: int, prompt: int, completion: int, cache: int, cost: real, revenue: real)

  const ZERO := Agg(0, 0, 0, 0, 0.0, 0.0)

  function Plus(a: Agg, b: Agg): Agg {
    Agg(a.requests + b.requests, a.prompt + b.prompt, a.completion + b.completion, a.cache + b.cache,
        a.cost + b.cost, a.revenue + b.revenue)
  }

  function Total<T>(xs: seq<T>, val: T -> Agg): Agg {
    if xs == [] then ZERO else Plus(Total(xs[..|xs| - 1], val), val(xs[|xs| - 1]))
  }

  /** The part of the total that falls under key k; rows without a key fall under none. */
  function KeyTotal<T, K(==)>(xs: seq<T>, key: T -> Option<K>, val: T -> Agg, k: K): Agg {
    if xs == [] then ZERO
    else Plus(KeyTotal(xs[..|xs| - 1], key, val, k),
              if key(xs[|xs| - 1]) == Some(k) then val(xs[|xs| - 1]) else ZERO)
  }

  /** The total of the rows that have a key. */
  function KeyedTotal<T, K>(xs: seq<T>, key: T -> Option<K>, val: T -> Agg): Agg {
    if xs == [] then ZERO
    else Plus(KeyedTotal(xs[..|xs| - 1], key, val), if key(xs[|xs| - 1]).Some? then val(xs[|xs| - 1]) else ZERO)
  }

  ghost function Keys<T, K>(xs: seq<T>, key: T -> Option<K>): set<K> {
    set x | x in xs && key(x).Some? :: key(x).value
  }

  /** m holds one entry per key that occurs, with that key's total. */
  ghost predicate Groups<T, K>(m: map<K, Agg>, xs: seq<T>, key: T -> Option<K>, val: T -> Agg) {
    m.Keys == Keys(xs, key) && forall k :: k in m ==> m[k] == KeyTotal(xs, key, val, k)
  }

  function Entry<K(==)>(m: map<K, Agg>, k: K): Agg {
    if k in m then m[k] else ZERO
  }

  /** One more row: its key's entry is created or increased. */
  function Added<T, K(==)>(m: map<K, Agg>, x: T, key: T -> Option<K>, val: T -> Agg): map<K, Agg> {
    match key(x)
    case None => m
    case Some(k) => m[k := Plus(Entry(m, k), val(x))]
  }

  lemma {:induction false} AbsentKey<T, K>(xs: seq<T>, key: T -> Option<K>, val: T -> Agg, k: K)
    requires k !in Keys(xs, key)
    ensures KeyTotal(xs, key, val, k) == ZERO
  {
    if xs != [] {
      var ys := xs[..|xs| - 1];
      assert xs == ys + [xs[|xs| - 1]];
      KeysSnoc(ys, xs[|xs| - 1], key);
      AbsentKey(ys, key, val, k);
    }
  }

  lemma KeysSnoc<T, K>(xs: seq<T>, x: T, key: T -> Option<K>)
    ensures Keys(xs + [x], key) == Keys(xs, key) + (if key(x).Some? then {key(x).value} else {})
  {
    assert x in xs + [x];
    assert forall y :: y in xs + [x] <==> y in xs || y == x;
  }

  /** The step of the single pass. */
  lemma GroupsSnoc<T, K>(m: map<K, Agg>, xs: seq<T>, x: T, key: T -> Option<K>, val: T -> Agg)
    requires Groups(m, xs, key, val)
    ensures Groups(Added(m, x, key, val), xs + [x], key, val)
  {
    KeysSnoc(xs, x, key);
    var all := xs + [x];
    assert all[..|all| - 1] == xs;
    forall k | k in Added(m, x, key, val)
      ensures Added(m, x, key, val)[k] == KeyTotal(all, key, val, k)
    {
      if k !in m {
        AbsentKey(xs, key, val, k);
      }
    }
  }

  lemma PrefixSnoc<T>(xs: seq<T>, i: nat)
    requires i < |xs|
    ensures xs[..i + 1] == xs[..i] + [xs[i]]
  {
  }

  lemma TotalSnoc<T>(xs: seq<T>, x: T, val: T -> Agg)
    ensures Total(xs + [x], val) == Plus(Total(xs, val), val(x))
  {
    assert (xs + [x])[..|xs|] == xs;
  }

  // ----- conservation -----

  /** The sum of a column. */
  function Sum<T>(xs: seq<T>, column: T -> int): int {
    if xs == [] then 0 else Sum(xs[..|xs| - 1], column) + column(xs[|xs| - 1])
  }

  /** No element occurs twice. */
  predicate Distinct<K(==)>(ks: seq<K>) {
    ks == [] || (ks[|ks| - 1] !in ks[..|ks| - 1] && Distinct(ks[..|ks| - 1]))
  }

  /** The slice a grouping map is poured into: every key once, in any order. */
  ghost predicate Listing<K(!new)>(ks: seq<K>, keys: set<K>) {
    Distinct(ks) && forall k :: k in ks <==> k in keys
  }

  function SumEntries<K(==)>(m: map<K, Agg>, ks: seq<K>): Agg {
    if ks == [] then ZERO else Plus(SumEntries(m, ks[..|ks| - 1]), Entry(m, ks[|ks| - 1]))
  }

  function SumKeys<T, K(==)>(ks: seq<K>, xs: seq<T>, key: T -> Option<K>, val: T -> Agg): Agg {
    if ks == [] then ZERO
    else Plus(SumKeys(ks[..|ks| - 1], xs, key, val), KeyTotal(xs, key, val, ks[|ks| - 1]))
  }

  lemma {:induction false} SumKeysEmpty<T, K>(ks: seq<K>, key: T -> Option<K>, val: T -> Agg)
    ensures SumKeys<T, K>(ks, [], key, val) == ZERO
  {
    if ks != [] {
      SumKeysEmpty(ks[..|ks| - 1], key, val);
    }
  }

  lemma KeyTotalSnoc<T, K>(xs: seq<T>, x: T, key: T -> Option<K>, val: T -> Agg, k: K)
    ensures KeyTotal(xs + [x], key, val, k)
         == Plus(KeyTotal(xs, key, val, k), if key(x) == Some(k) then val(x) else ZERO)
  {
    assert (xs + [x])[..|xs|] == xs;
  }

  lemma SumKeysMore<T, K>(ks: seq<K>, k: K, xs: seq<T>, key: T -> Option<K>, val: T -> Agg)
    ensures SumKeys(ks + [k], xs, key, val) == Plus(SumKeys(ks, xs, key, val), KeyTotal(xs, key, val, k))
  {
    assert (ks + [k])[..|ks|] == ks;
  }

  /** What a row adds to the sum over the keys ks. */
  function Share<T, K(==)>(ks: seq<K>, x: T, key: T -> Option<K>, val: T -> Agg): Agg {
    if key(x).Some? && key(x).value in ks then val(x) else ZERO
  }

  lemma ShareMore<T, K>(ks: seq<K>, k: K, x: T, key: T -> Option<K>, val: T -> Agg)
    requires k !in ks
    ensures Share(ks + [k], x, key, val) == Plus(Share(ks, x, key, val), if key(x) == Some(k) then val(x) else ZERO)
  {
  }

  lemma SumKeysStep<T, K>(ks: seq<K>, k: K, xs: seq<T>, ys: seq<T>, x: T, key: T -> Option<K>, val: T -> Agg)
    requires k !in ks && ys == xs + [x]
    requires SumKeys(ks, ys, key, val) == Plus(SumKeys(ks, xs, key, val), Share(ks, x, key, val))
    ensures SumKeys(ks + [k], ys, key, val) == Plus(SumKeys(ks + [k], xs, key, val), Share(ks + [k], x, key, val))
  {
    KeyTotalSnoc(xs, x, key, val, k);
    ShareMore(ks, k, x, key, val);
    SumKeysMore(ks, k, xs, key, val);
    SumKeysMore(ks, k, ys, key, val);
  }

  /** A row counts once over all the keys. */
  lemma {:induction false} SumKeysSnoc<T, K>(ks: seq<K>, xs: seq<T>, x: T, key: T -> Option<K>, val: T -> Agg)
    requires Distinct(ks)
    ensures SumKeys(ks, xs + [x], key, val) == Plus(SumKeys(ks, xs, key, val), Share(ks, x, key, val))
  {
    if ks != [] {
      var js, k := ks[..|ks| - 1], ks[|ks| - 1];
      SumKeysSnoc(js, xs, x, key, val);
      SumKeysStep(js, k, xs, xs + [x], x, key, val);
      assert ks == js + [k];
    }
  }

  lemma {:induction false} SumKeysTotal<T, K>(ks: seq<K>, xs: seq<T>, key: T -> Option<K>, val: T -> Agg)
    requires Distinct(ks) && Keys(xs, key) <= set k | k in ks
    ensures SumKeys(ks, xs, key, val) == KeyedTotal(xs, key, val)
  {
    if xs == [] {
      SumKeysEmpty(ks, key, val);
    } else {
      var n := |xs| - 1;
      assert xs == xs[..n] + [xs[n]];
      KeysSnoc(xs[..n], xs[n], key);
      SumKeysTotal(ks, xs[..n], key, val);
      SumKeysSnoc(ks, xs[..n], xs[n], key, val);
    }
  }

  lemma {:induction false} SumEntriesKeys<T, K>(m: map<K, Agg>, ks: seq<K>, xs: seq<T>, key: T -> Option<K>, val: T -> Agg)
    requires Groups(m, xs, key, val) && forall k :: k in ks ==> k in m
    ensures SumEntries(m, ks) == SumKeys(ks, xs, key, val)
  {
    if ks != [] {
      assert ks[|ks| - 1] in ks;
      SumEntriesKeys(m, ks[..|ks| - 1], xs, key, val);
    }
  }

  /** However its entries are listed, a grouping map sums to the total of the rows it groups. */
  lemma Conserved<T, K(!new)>(m: map<K, Agg>, ks: seq<K>, xs: seq<T>, key: T -> Option<K>, val: T -> Agg)
    requires Groups(m, xs, key, val) && Listing(ks, m.Keys)
    ensures SumEntries(m, ks) == KeyedTotal(xs, key, val)
  {
    SumEntriesKeys(m, ks, xs, key, val);
    SumKeysTotal(ks, xs, key, val);
  }

  lemma {:induction false} AllKeyed<T, K>(xs: seq<T>, key: T -> Option<K>, val: T -> Agg)
    requires forall i :: 0 <= i < |xs| ==> key(xs[i]).Some?
    ensures KeyedTotal(xs, key, val) == Total(xs, val)
  {
    if xs != [] {
      AllKeyed(xs[..|xs| - 1], key, val);
    }
  }

  // ----- order and splitting -----

  /** A key function under which the key total is an ordinary total. */
  function Under<T, K(==)>(key: T -> Option<K>, val: T -> Agg, k: K): T -> Agg {
    (x: T) => if key(x) == Some(k) then val(x) else ZERO
  }

  lemma {:induction false} KeyTotalIsTotal<T, K>(xs: seq<T>, key: T -> Option<K>, val: T -> Agg, k: K)
    ensures KeyTotal(xs, key, val, k) == Total(xs, Under(key, val, k))
  {
    if xs != [] {
      KeyTotalIsTotal(xs[..|xs| - 1], key, val, k);
    }
  }

  lemma {:induction false} TotalConcat<T>(xs: seq<T>, ys: seq<T>, val: T -> Agg)
    ensures Total(xs + ys, val) == Plus(Total(xs, val), Total(ys, val))
    decreases |ys|
  {
    if ys == [] {
      assert xs + ys == xs;
    } else {
      var n := |ys| - 1;
      assert (xs + ys)[..|xs + ys| - 1] == xs + ys[..n];
      TotalConcat(xs, ys[..n], val);
    }
  }

  lemma RemoveAt<T>(ys: seq<T>, i: nat)
    requires i < |ys|
    ensures multiset(ys[..i] + ys[i + 1..]) == multiset(ys) - multiset{ys[i]}
  {
    assert ys == ys[..i] + [ys[i]] + ys[i + 1..];
  }

  lemma TotalInsert<T>(ys: seq<T>, a: seq<T>, y: T, b: seq<T>, val: T -> Agg)
    requires ys == (a + [y]) + b
    ensures Total(ys, val) == Plus(Total(a + b, val), val(y))
  {
    TotalConcat(a + [y], b, val);
    TotalSnoc(a, y, val);
    TotalConcat(a, b, val);
  }

  lemma SplitAt<T>(ys: seq<T>, i: nat)
    requires i < |ys|
    ensures ys == (ys[..i] + [ys[i]]) + ys[i + 1..]
  {
  }

  lemma TotalRemoveAt<T>(ys: seq<T>, i: nat, val: T -> Agg)
    requires i < |ys|
    ensures Total(ys, val) == Plus(Total(ys[..i] + ys[i + 1..], val), val(ys[i]))
  {
    SplitAt(ys, i);
    TotalInsert(ys, ys[..i], ys[i], ys[i + 1..], val);
  }

  lemma {:induction false} TotalPermuted<T>(xs: seq<T>, ys: seq<T>, val: T -> Agg)
    requires multiset(xs) == multiset(ys)
    ensures Total(xs, val) == Total(ys, val)
    decreases |xs|
  {
    if xs == [] {
      assert |multiset(ys)| == 0;
    } else {
      var n := |xs| - 1;
      assert xs[n] in multiset(ys);
      var i :| 0 <= i < |ys| && ys[i] == xs[n];
      RemoveAt(xs, n);
      assert xs[..n] + xs[n + 1..] == xs[..n];
      RemoveAt(ys, i);
      TotalPermuted(xs[..n], ys[..i] + ys[i + 1..], val);
      TotalRemoveAt(ys, i, val);
    }
  }

  lemma KeyTotalPermuted<T, K>(xs: seq<T>, ys: seq<T>, key: T -> Option<K>, val: T -> Agg, k: K)
    requires multiset(xs) == multiset(ys)
    ensures KeyTotal(xs, key, val, k) == KeyTotal(ys, key, val, k)
  {
    KeyTotalIsTotal(xs, key, val, k);
    KeyTotalIsTotal(ys, key, val, k);
    TotalPermuted(xs, ys, Under(key, val, k));
  }

  lemma KeysPermuted<T, K>(xs: seq<T>, ys: seq<T>, key: T -> Option<K>)
    requires multiset(xs) == multiset(ys)
    ensures Keys(xs, key) == Keys(ys, key)
  {
    assert forall x :: x in xs ==> x in multiset(xs);
    assert forall y :: y in ys ==> y in multiset(ys);
  }

  /** Two passes over the same rows in different orders end with the same map. */
  lemma GroupsPermuted<T, K>(m: map<K, Agg>, m': map<K, Agg>, xs: seq<T>, ys: seq<T>, key: T -> Option<K>, val: T -> Agg)
    requires Groups(m, xs, key, val) && Groups(m', ys, key, val) && multiset(xs) == multiset(ys)
    ensures m == m'
  {
    KeysPermuted(xs, ys, key);
    forall k | k in m ensures m[k] == m'[k] {
      KeyTotalPermuted(xs, ys, key, val, k);
    }
  }

  /** The pointwise merge of two groupings is the grouping of the two row sets together. */
  lemma GroupsMerge<T, K>(m: map<K, Agg>, m1: map<K, Agg>, m2: map<K, Agg>,
                          xs: seq<T>, ys: seq<T>, zs: seq<T>, key: T -> Option<K>, val: T -> Agg)
    requires multiset(xs) == multiset(ys) + multiset(zs)
    requires Groups(m, xs, key, val) && Groups(m1, ys, key, val) && Groups(m2, zs, key, val)
    ensures m.Keys == m1.Keys + m2.Keys
    ensures forall k :: k in m ==> m[k] == Plus(Entry(m1, k), Entry(m2, k))
  {
    assert multiset(xs) == multiset(ys + zs);
    KeysPermuted(xs, ys + zs, key);
    KeysConcat(ys, zs, key);
    forall k | k in m ensures m[k] == Plus(Entry(m1, k), Entry(m2, k)) {
      KeyTotalPermuted(xs, ys + zs, key, val, k);
      KeyTotalIsTotal(ys + zs, key, val, k);
      TotalConcat(ys, zs, Under(key, val, k));
      KeyTotalIsTotal(ys, key, val, k);
      KeyTotalIsTotal(zs, key, val, k);
      EntryIsTotal(m1, ys, key, val, k);
      EntryIsTotal(m2, zs, key, val, k);
    }
  }

  lemma EntryIsTotal<T, K>(m: map<K, Agg>, xs: seq<T>, key: T -> Option<K>, val: T -> Agg, k: K)
    requires Groups(m, xs, key, val)
    ensures Entry(m, k) == KeyTotal(xs, key, val, k)
  {
    if k !in m {
      AbsentKey(xs, key, val, k);
    }
  }

  lemma KeysConcat<T, K>(xs: seq<T>, ys: seq<T>, key: T -> Option<K>)
    ensures Keys(xs + ys, key) == Keys(xs, key) + Keys(ys, key)
  {
    assert forall z :: z in xs + ys <==> z in xs || z in ys;
  }

  // ----- queries -----

  /** The rows of a table that a WHERE clause keeps. */
  function Select<T>(xs: seq<T>, p: T -> bool): seq<T> {
    if xs == [] then [] else
      Select(xs[..|xs| - 1], p) + (if p(xs[|xs| - 1]) then [xs[|xs| - 1]] else [])
  }

  /** A query result: the kept rows in whatever order the database returns them. */
  ghost predicate Returned<T>(result: seq<T>, table: seq<T>, p: T -> bool) {
    multiset(result) == multiset(Select(table, p))
  }

  lemma {:induction false} SelectSplit<T>(xs: seq<T>, p: T -> bool, p1: T -> bool, p2: T -> bool)
    requires forall i :: 0 <= i < |xs| ==> (p(xs[i]) <==> p1(xs[i]) || p2(xs[i])) && !(p1(xs[i]) && p2(xs[i]))
    ensures multiset(Select(xs, p)) == multiset(Select(xs, p1)) + multiset(Select(xs, p2))
  {
    if xs != [] {
      SelectSplit(xs[..|xs| - 1], p, p1, p2);
    }
  }

  lemma {:induction false} SelectMember<T>(xs: seq<T>, p: T -> bool, x: T)
    ensures x in Select(xs, p) <==> x in xs && p(x)
  {
    if xs != [] {
      SelectMember(xs[..|xs| - 1], p, x);
      assert xs == xs[..|xs| - 1] + [xs[|xs| - 1]];
    }
  }

  lemma PlusZero(a: Agg)
    ensures Plus(a, ZERO) == a
  {
  }

  /** A condition in the value instead of the query. */
  function Where<T>(p: T -> bool, val: T -> Agg): T -> Agg {
    (x: T) => if p(x) then val(x) else ZERO
  }

  lemma SelectsMore<T>(kept: seq<T>, x: T, sum: Agg, val: T -> Agg, p: T -> bool)
    requires sum == Total(kept, val)
    ensures Plus(sum, Where(p, val)(x)) == Total(kept + (if p(x) then [x] else []), val)
  {
    if p(x) {
      TotalSnoc(kept, x, val);
    } else {
      assert kept + [] == kept;
      PlusZero(sum);
    }
  }

  lemma {:induction false} TotalSelects<T>(xs: seq<T>, val: T -> Agg, p: T -> bool)
    ensures Total(xs, Where(p, val)) == Total(Select(xs, p), val)
  {
    if xs != [] {
      var n := |xs| - 1;
      TotalSelects(xs[..n], val, p);
      SelectsMore(Select(xs[..n], p), xs[n], Total(xs[..n], Where(p, val)), val, p);
    }
  }

  lemma {:induction false} TotalSame<T>(xs: seq<T>, f: T -> Agg, g: T -> Agg)
    requires forall i :: 0 <= i < |xs| ==> f(xs[i]) == g(xs[i])
    ensures Total(xs, f) == Total(xs, g)
  {
    if xs != [] {
      TotalSame(xs[..|xs| - 1], f, g);
    }
  }

  /** A key's total is the total of the rows that a condition on the key selects. */
  lemma KeyTotalSelects<T, K>(xs: seq<T>, key: T -> Option<K>, val: T -> Agg, k: K, p: T -> bool)
    requires forall i :: 0 <= i < |xs| ==> (p(xs[i]) <==> key(xs[i]) == Some(k))
    ensures KeyTotal(xs, key, val, k) == Total(Select(xs, p), val)
  {
    KeyTotalIsTotal(xs, key, val, k);
    TotalSame(xs, Under(key, val, k), Where(p, val));
    TotalSelects(xs, val, p);
  }

  lemma SelectSnoc<T>(xs: seq<T>, x: T, p: T -> bool)
    ensures Select(xs + [x], p) == if p(x) then Select(xs, p) + [x] else Select(xs, p)
  {
    assert (xs + [x])[..|xs|] == xs;
    assert Select(xs, p) + [] == Select(xs, p);
  }

  lemma {:induction false} SelectConcat<T>(a: seq<T>, b: seq<T>, p: T -> bool)
    ensures Select(a + b, p) == Select(a, p) + Select(b, p)
    decreases |b|
  {
    if b == [] {
      assert a + b == a;
    } else {
      var c, x := b[..|b| - 1], b[|b| - 1];
      assert (a + c) + [x] == a + b && c + [x] == b;
      SelectConcat(a, c, p);
      SelectSnoc(a + c, x, p);
      SelectSnoc(c, x, p);
      assert Select(a, p) + (Select(c, p) + [x]) == (Select(a, p) + Select(c, p)) + [x];
    }
  }
}
