/**
 * Keyed sums: the "look up the key, start it at 0, add the amount" dictionary
 * fill that the source uses for per-category and per-month totals, stated once
 * over a sequence of (key, amount) items.
 */
module Grouping {

  /** Sum of all amounts. */
  function Total<K>(xs: seq<(K, real)>): real {
    if xs == [] then 0.0 else Total(xs[..|xs| - 1]) + xs[|xs| - 1].1
  }

  /** Sum of the amounts filed under key `k`. */
  function TotalFor<K(==)>(xs: seq<(K, real)>, k: K): real {
    if xs == [] then 0.0
    else TotalFor(xs[..|xs| - 1], k) + (if xs[|xs| - 1].0 == k then xs[|xs| - 1].1 else 0.0)
  }

  lemma TotalForSnoc<K>(xs: seq<(K, real)>, x: (K, real), k: K)
    ensures TotalFor(xs + [x], k) == TotalFor(xs, k) + (if x.0 == k then x.1 else 0.0)
  {
    assert (xs + [x])[..|xs|] == xs;
  }

  function KeysOf<K>(xs: seq<(K, real)>): set<K> {
    set i | 0 <= i < |xs| :: xs[i].0
  }

  lemma KeysOfSnoc<K>(xs: seq<(K, real)>)
    requires xs != []
    ensures KeysOf(xs) == KeysOf(xs[..|xs| - 1]) + {xs[|xs| - 1].0}
  {
    var init := xs[..|xs| - 1];
    forall k | k in KeysOf(xs) ensures k in KeysOf(init) + {xs[|xs| - 1].0} {
      var i :| 0 <= i < |xs| && xs[i].0 == k;
      if i < |xs| - 1 { assert init[i].0 == k; }
    }
    forall k | k in KeysOf(init) ensures k in KeysOf(xs) {
      var i :| 0 <= i < |init| && init[i].0 == k;
      assert xs[i].0 == k;
    }
  }

  /** One step of the dictionary fill: `if k not in d: d[k] = 0` then `d[k] += amount`. */
  function Accumulate<K>(m: map<K, real>, x: (K, real)): map<K, real> {
    var start := if x.0 in m then m[x.0] else 0.0;
    m[x.0 := start + x.1]
  }

  /** The dictionary the fill leaves behind after all items, in order. */
  function GroupTotals<K>(xs: seq<(K, real)>): map<K, real> {
    if xs == [] then map[] else Accumulate(GroupTotals(xs[..|xs| - 1]), xs[|xs| - 1])
  }

  lemma GroupTotalsSnoc<K>(xs: seq<(K, real)>, x: (K, real))
    ensures GroupTotals(xs + [x]) == Accumulate(GroupTotals(xs), x)
  {
    assert (xs + [x])[..|xs|] == xs;
  }

  /** The filled dictionary holds exactly the keys that occur, each with its own total. */
  lemma {:induction false} GroupTotalsSpec<K>(xs: seq<(K, real)>)
    ensures GroupTotals(xs).Keys == KeysOf(xs)
    ensures forall k :: k in GroupTotals(xs) ==> GroupTotals(xs)[k] == TotalFor(xs, k)
  {
    if xs != [] {
      var init := xs[..|xs| - 1];
      GroupTotalsSpec(init);
      KeysOfSnoc(xs);
      forall k | k in GroupTotals(xs) ensures GroupTotals(xs)[k] == TotalFor(xs, k) {
        if k != xs[|xs| - 1].0 && k !in KeysOf(init) {
          assert false;
        }
        if k !in KeysOf(init) {
          TotalForAbsent(init, k);
        }
      }
    }
  }

  lemma {:induction false} TotalForAbsent<K>(xs: seq<(K, real)>, k: K)
    requires k !in KeysOf(xs)
    ensures TotalFor(xs, k) == 0.0
  {
    if xs != [] {
      var init := xs[..|xs| - 1];
      KeysOfSnoc(xs);
      TotalForAbsent(init, k);
      assert xs[|xs| - 1].0 in KeysOf(xs);
    }
  }

  predicate Distinct<K(==)>(ks: seq<K>) {
    forall i, j :: 0 <= i < j < |ks| ==> ks[i] != ks[j]
  }

  /** Sum of the per-key totals over the listed keys. */
  function SumOver<K(==)>(ks: seq<K>, xs: seq<(K, real)>): real {
    if ks == [] then 0.0 else TotalFor(xs, ks[0]) + SumOver(ks[1..], xs)
  }

  lemma {:induction false} SumOverSnoc<K>(ks: seq<K>, xs: seq<(K, real)>, x: (K, real))
    requires Distinct(ks)
    ensures SumOver(ks, xs + [x]) == SumOver(ks, xs) + (if x.0 in ks then x.1 else 0.0)
  {
    if ks != [] {
      assert (xs + [x])[..|xs + [x]| - 1] == xs;
      assert Distinct(ks[1..]) by {
        forall i, j | 0 <= i < j < |ks[1..]| ensures ks[1..][i] != ks[1..][j] {
          assert ks[1..][i] == ks[i + 1] && ks[1..][j] == ks[j + 1];
        }
      }
      SumOverSnoc(ks[1..], xs, x);
      if x.0 == ks[0] {
        assert x.0 !in ks[1..] by {
          forall i | 0 <= i < |ks[1..]| ensures ks[1..][i] != ks[0] {
            assert ks[1..][i] == ks[i + 1];
          }
        }
      }
      assert x.0 in ks <==> x.0 == ks[0] || x.0 in ks[1..];
    }
  }

  /**
   * Summing the per-key totals over any duplicate-free list of keys that covers
   * every key that occurs gives the grand total: grouping loses nothing and
   * counts nothing twice.
   */
  lemma {:induction false} SumOverKeys<K>(ks: seq<K>, xs: seq<(K, real)>)
    requires Distinct(ks)
    requires KeysOf(xs) <= set k | k in ks
    ensures SumOver(ks, xs) == Total(xs)
  {
    if xs == [] {
      SumOverEmpty(ks);
    } else {
      var init := xs[..|xs| - 1];
      var x := xs[|xs| - 1];
      assert init + [x] == xs;
      KeysOfSnoc(xs);
      SumOverKeys(ks, init);
      SumOverSnoc(ks, init, x);
      assert x.0 in KeysOf(xs);
    }
  }

  lemma {:induction false} SumOverEmpty<K>(ks: seq<K>)
    ensures SumOver(ks, []) == 0.0
  {
    if ks != [] {
      SumOverEmpty(ks[1..]);
    }
  }

  /** Sum of a map's values over the listed keys. */
  function SumValues<K>(m: map<K, real>, ks: seq<K>): real
    requires forall i :: 0 <= i < |ks| ==> ks[i] in m
  {
    if ks == [] then 0.0 else m[ks[0]] + SumValues(m, ks[1..])
  }

  /**
   * The values of the filled dictionary, each key taken once, add up to the
   * total of all items.
   */
  lemma {:induction false} GroupTotalsSumToTotal<K>(xs: seq<(K, real)>, ks: seq<K>)
    requires Distinct(ks)
    requires (set k | k in ks) == GroupTotals(xs).Keys
    ensures forall i :: 0 <= i < |ks| ==> ks[i] in GroupTotals(xs)
    ensures SumValues(GroupTotals(xs), ks) == Total(xs)
  {
    GroupTotalsSpec(xs);
    assert forall i :: 0 <= i < |ks| ==> ks[i] in GroupTotals(xs) by {
      forall i | 0 <= i < |ks| ensures ks[i] in GroupTotals(xs) {
        assert ks[i] in set k | k in ks;
      }
    }
    SumValuesIsSumOver(GroupTotals(xs), ks, xs);
    SumOverKeys(ks, xs);
  }

  lemma {:induction false} SumValuesIsSumOver<K>(m: map<K, real>, ks: seq<K>, xs: seq<(K, real)>)
    requires forall i :: 0 <= i < |ks| ==> ks[i] in m && m[ks[i]] == TotalFor(xs, ks[i])
    ensures SumValues(m, ks) == SumOver(ks, xs)
  {
    if ks != [] {
      SumValuesIsSumOver(m, ks[1..], xs);
    }
  }

  /** Concatenating item lists adds their totals. */
  lemma {:induction false} TotalAppend<K>(xs: seq<(K, real)>, ys: seq<(K, real)>)
    ensures Total(xs + ys) == Total(xs) + Total(ys)
  {
    if ys != [] {
      var init := ys[..|ys| - 1];
      assert (xs + ys)[..|xs + ys| - 1] == xs + init;
      TotalAppend(xs, init);
    } else {
      assert xs + ys == xs;
    }
  }
}
