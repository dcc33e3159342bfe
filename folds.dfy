/** The two array operations the ledger code chains: `filter` and a summing `reduce`. */
module Folds {

  /** `s.filter(keep)`: the elements of `s` that satisfy `keep`, each as often as in `s`, in
      their original order (FilterAppend and FilterSingle pin the order down). */
  function Filter<T>(s: seq<T>, keep: T -> bool): (r: seq<T>)
    ensures |r| <= |s|
    ensures forall i :: 0 <= i < |r| ==> r[i] in s && keep(r[i])
    ensures forall i :: 0 <= i < |s| && keep(s[i]) ==> s[i] in r
    decreases |s|
  {
    if s == [] then []
    else
      var rest := Filter(s[1..], keep);
      if keep(s[0]) then [s[0]] + rest else rest
  }

  /** The sum of `value` over `s`, by structural recursion. */
  function Sum<T>(s: seq<T>, value: T -> int): int
    decreases |s|
  {
    if s == [] then 0 else value(s[0]) + Sum(s[1..], value)
  }

  /** `s.reduce((acc, x) => acc + value(x), acc)`: a left fold that adds each element's value
      to the running total, first element first. */
  function Reduce<T>(s: seq<T>, value: T -> int, acc: int): (r: int)
    ensures r == acc + Sum(s, value)
    decreases |s|
  {
    if s == [] then acc else Reduce(s[1..], value, acc + value(s[0]))
  }

  lemma SumCons<T>(x: T, rest: seq<T>, value: T -> int)
    ensures Sum([x] + rest, value) == value(x) + Sum(rest, value)
  {
    assert ([x] + rest)[1..] == rest;
  }

  /** Filtering keeps every kept value as many times as `s` holds it, and no other value. */
  lemma {:induction false} FilterMultiset<T>(s: seq<T>, keep: T -> bool)
    ensures forall x :: multiset(Filter(s, keep))[x] == if keep(x) then multiset(s)[x] else 0
    decreases |s|
  {
    if s != [] {
      FilterMultiset(s[1..], keep);
      assert s == [s[0]] + s[1..];
      assert multiset(s) == multiset{s[0]} + multiset(s[1..]);
    }
  }

  /** Filtering a single element keeps it exactly when `keep` holds. */
  lemma FilterSingle<T>(x: T, keep: T -> bool)
    ensures Filter([x], keep) == if keep(x) then [x] else []
  {
    assert [x][1..] == [];
  }

  /** Filtering distributes over concatenation, so the kept elements stay in input order. */
  lemma {:induction false} FilterAppend<T>(a: seq<T>, b: seq<T>, keep: T -> bool)
    ensures Filter(a + b, keep) == Filter(a, keep) + Filter(b, keep)
    decreases |a|
  {
    if a == [] {
      assert a + b == b;
    } else {
      assert (a + b)[1..] == a[1..] + b;
      FilterAppend(a[1..], b, keep);
    }
  }

  lemma {:induction false} SumAppend<T>(a: seq<T>, b: seq<T>, value: T -> int)
    ensures Sum(a + b, value) == Sum(a, value) + Sum(b, value)
    decreases |a|
  {
    if a == [] {
      assert a + b == b;
    } else {
      assert (a + b)[1..] == a[1..] + b;
      SumAppend(a[1..], b, value);
    }
  }
}
