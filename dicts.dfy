/**
 * Python dictionaries from string keys to numbers. A Python dict keeps its keys in
 * insertion order and iterates in that order, and never holds a key twice; a `RealDict`
 * is the sequence of its entries in that order.
 */
module Dicts {
  import opened Wrappers

  type Entry = (string, real)

  ghost predicate UniqueKeys(d: seq<Entry>) {
    forall i, j :: 0 <= i < j < |d| ==> d[i].0 != d[j].0
  }

  /** A `dict` with `str` keys and numeric values, entries in insertion order. */
  type RealDict = d: seq<Entry> | UniqueKeys(d) witness []

  /** The key set of a dict: `d.keys()`. */
  function Keys(d: seq<Entry>): set<string> {
    set i | 0 <= i < |d| :: d[i].0
  }

  /** `d.get(k)`: the value stored under `k`, or `None` when `k` is not a key. */
  function Get(d: seq<Entry>, k: string): (r: Option<real>)
    ensures r.None? <==> k !in Keys(d)
    ensures r.Some? ==> exists i :: 0 <= i < |d| && d[i] == (k, r.value)
  {
    if d == [] then None
    else if d[0].0 == k then Some(d[0].1)
    else
      assert Keys(d) == {d[0].0} + Keys(d[1..]);
      var r := Get(d[1..], k);
      assert r.Some? ==> exists i :: 0 <= i < |d[1..]| && d[1..][i] == (k, r.value);
      r
  }

  /** The sum of `term(e)` over the entries `e` of `d`, in order. */
  function SumBy(d: seq<Entry>, term: Entry -> real): real {
    if d == [] then 0.0 else term(d[0]) + SumBy(d[1..], term)
  }

  function ValueOf(e: Entry): real {
    e.1
  }

  /** `sum(d.values())`. */
  function Total(d: seq<Entry>): real {
    SumBy(d, ValueOf)
  }

  lemma {:induction false} SumByAppend(a: seq<Entry>, b: seq<Entry>, term: Entry -> real)
    ensures SumBy(a + b, term) == SumBy(a, term) + SumBy(b, term)
  {
    if a == [] {
      assert a + b == b;
    } else {
      assert (a + b)[1..] == a[1..] + b;
      SumByAppend(a[1..], b, term);
    }
  }

  /** Taking one entry out of the sum, wherever it stands. */
  lemma {:induction false} SumByRemove(d: seq<Entry>, i: nat, term: Entry -> real)
    requires i < |d|
    ensures SumBy(d, term) == term(d[i]) + SumBy(d[..i] + d[i + 1..], term)
  {
    assert d == d[..i] + ([d[i]] + d[i + 1..]);
    SumByAppend(d[..i], [d[i]] + d[i + 1..], term);
    SumByAppend(d[..i], d[i + 1..], term);
    assert ([d[i]] + d[i + 1..])[1..] == d[i + 1..];
  }

  /** A sum over the entries of a dict does not depend on the order they were inserted in. */
  lemma {:induction false} SumByPermutation(a: seq<Entry>, b: seq<Entry>, term: Entry -> real)
    requires multiset(a) == multiset(b)
    ensures SumBy(a, term) == SumBy(b, term)
  {
    if a == [] {
      assert |b| == |multiset(b)| == 0;
    } else {
      assert a[0] in multiset(b);
      var i :| 0 <= i < |b| && b[i] == a[0];
      var rest := b[..i] + b[i + 1..];
      SumByRemove(b, i, term);
      assert multiset(a[1..]) == multiset(rest) by {
        assert a == [a[0]] + a[1..];
        assert b == b[..i] + [b[i]] + b[i + 1..];
        assert multiset(a) == multiset{a[0]} + multiset(a[1..]);
        assert multiset(b) == multiset(b[..i]) + multiset{b[i]} + multiset(b[i + 1..]);
        assert multiset(rest) == multiset(b[..i]) + multiset(b[i + 1..]);
        assert multiset(a[1..]) == multiset(a) - multiset{a[0]};
        assert multiset(rest) == multiset(b) - multiset{b[i]};
      }
      SumByPermutation(a[1..], rest, term);
    }
  }

  /** `len(d)` is the number of distinct keys. */
  lemma {:induction false} KeysCount(d: RealDict)
    ensures |Keys(d)| == |d|
  {
    if d != [] {
      var rest: RealDict := d[1..];
      KeysCount(rest);
      assert Keys(d) == {d[0].0} + Keys(rest);
      assert d[0].0 !in Keys(rest);
    }
  }
}
