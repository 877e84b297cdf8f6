/** Sums over finite sets and maps, whose value does not depend on the order of summation. */
module Sums {
  import opened GoPrimitives

  ghost function Sum(keys: set<string>, f: string -> int): int {
    if keys == {} then 0
    else
      var x :| x in keys;
      f(x) + Sum(keys - {x}, f)
  }

  lemma {:induction false} SmallerSet(a: set<string>, b: set<string>)
    requires a <= b
    ensures |a| <= |b|
    ensures a != b ==> |a| < |b|
  {
    if a != {} {
      var x :| x in a;
      SmallerSet(a - {x}, b - {x});
    }
  }

  lemma {:induction false} SumTakeOut(keys: set<string>, f: string -> int, x: string)
    requires x in keys
    ensures Sum(keys, f) == f(x) + Sum(keys - {x}, f)
    decreases |keys|
  {
    var y :| y in keys && Sum(keys, f) == f(y) + Sum(keys - {y}, f);
    if y != x {
      SumTakeOut(keys - {y}, f, x);
      SumTakeOut(keys - {x}, f, y);
      assert keys - {y} - {x} == keys - {x} - {y};
    }
  }

  lemma {:induction false} SumSame(keys: set<string>, f: string -> int, g: string -> int)
    requires forall x | x in keys :: f(x) == g(x)
    ensures Sum(keys, f) == Sum(keys, g)
    decreases |keys|
  {
    if keys != {} {
      var x :| x in keys;
      SumTakeOut(keys, f, x);
      SumTakeOut(keys, g, x);
      SumSame(keys - {x}, f, g);
    }
  }

  /** Changing one summand moves the sum by as much. */
  lemma SumChangedAt(keys: set<string>, f: string -> int, g: string -> int, x: string)
    requires x in keys
    requires forall y | y in keys && y != x :: f(y) == g(y)
    ensures Sum(keys, g) - Sum(keys, f) == g(x) - f(x)
  {
    SumTakeOut(keys, f, x);
    SumTakeOut(keys, g, x);
    SumSame(keys - {x}, f, g);
  }

  function At(m: map<string, int>, k: string): int {
    if k in m then m[k] else 0
  }

  ghost function SumValues(m: map<string, int>): int {
    Sum(m.Keys, k => At(m, k))
  }

  lemma SumValuesAdd(m: map<string, int>, k: string, v: int)
    requires k !in m
    ensures SumValues(m[k := v]) == SumValues(m) + v
  {
    var m' := m[k := v];
    SumTakeOut(m'.Keys, x => At(m', x), k);
    assert m'.Keys - {k} == m.Keys;
    SumSame(m.Keys, x => At(m', x), x => At(m, x));
  }

  /** Each key x picks, through g, a value of m of its own that is at least f(x). */
  ghost predicate Picks(keys: set<string>, f: string -> int, g: string -> string, m: map<string, int>) {
    && (forall x | x in keys :: PicksFor(f, g, m, x))
    && (forall x, y | x in keys && y in keys && g(x) == g(y) :: x == y)
  }

  predicate PicksFor(f: string -> int, g: string -> string, m: map<string, int>, x: string) {
    g(x) in m && f(x) <= m[g(x)]
  }

  lemma PicksWithout(keys: set<string>, f: string -> int, g: string -> string, m: map<string, int>, x: string)
    requires Picks(keys, f, g, m) && x in keys
    ensures Picks(keys - {x}, f, g, m - {g(x)})
  {
    forall y | y in keys - {x}
      ensures PicksFor(f, g, m - {g(x)}, y)
    {
      assert PicksFor(f, g, m, y) && g(y) != g(x);
    }
  }

  /** Values picked along an injection sum to no more than all values, when none is negative. */
  lemma {:induction false} SumThroughInjection(keys: set<string>, f: string -> int, g: string -> string,
        m: map<string, int>)
    requires (forall k | k in m :: m[k] >= 0) && Picks(keys, f, g, m)
    ensures Sum(keys, f) <= SumValues(m)
    decreases |keys|
  {
    if keys == {} {
      NonNegativeValues(m);
    } else {
      var x :| x in keys;
      assert PicksFor(f, g, m, x);
      PicksWithout(keys, f, g, m, x);
      SumThroughInjection(keys - {x}, f, g, m - {g(x)});
      OneMorePick(keys, f, x, m, g(x));
    }
  }

  lemma NonNegativeValues(m: map<string, int>)
    requires forall k | k in m :: m[k] >= 0
    ensures 0 <= SumValues(m)
  {
    NonNegativeSum(m.Keys, k => At(m, k));
  }

  lemma OneMorePick(keys: set<string>, f: string -> int, x: string, m: map<string, int>, key: string)
    requires x in keys && key in m && f(x) <= m[key] && Sum(keys - {x}, f) <= SumValues(m - {key})
    ensures Sum(keys, f) <= SumValues(m)
  {
    SumTakeOut(keys, f, x);
    SumValuesAdd(m - {key}, key, m[key]);
    assert m == (m - {key})[key := m[key]];
  }

  lemma {:induction false} NonNegativeSum(keys: set<string>, f: string -> int)
    requires forall x | x in keys :: f(x) >= 0
    ensures Sum(keys, f) >= 0
    decreases |keys|
  {
    if keys != {} {
      var x :| x in keys;
      SumTakeOut(keys, f, x);
      NonNegativeSum(keys - {x}, f);
    }
  }

  // ----- sums along a run -----

  /** f(0) + ... + f(k - 1) */
  function Total(f: nat -> int, k: nat): int {
    if k == 0 then 0 else Total(f, k - 1) + f(k - 1)
  }

  /** As int32, step i moves `value` by f(i) less g(i). */
  predicate Balances(f: nat -> int, g: nat -> int, value: nat -> int, i: nat) {
    Wrap32(f(i)) == Wrap32(value(i + 1) - value(i) + g(i))
  }

  predicate BalancesExactly(f: nat -> int, g: nat -> int, value: nat -> int, i: nat) {
    f(i) == value(i + 1) - value(i) + g(i)
  }

  lemma {:induction false} TotalsBalance(f: nat -> int, g: nat -> int, value: nat -> int, k: nat)
    requires forall i: nat | i < k :: Balances(f, g, value, i)
    ensures Wrap32(Total(f, k)) == Wrap32(value(k) - value(0) + Total(g, k))
  {
    if k > 0 {
      TotalsBalance(f, g, value, k - 1);
      assert Balances(f, g, value, k - 1);
      var before, step := value(k - 1) - value(0) + Total(g, k - 1), value(k) - value(k - 1) + g(k - 1);
      WrapSum(Total(f, k - 1), before, f(k - 1), step);
      assert before + step == value(k) - value(0) + Total(g, k);
    }
  }

  lemma {:induction false} TotalsBalanceExactly(f: nat -> int, g: nat -> int, value: nat -> int, k: nat)
    requires forall i: nat | i < k :: BalancesExactly(f, g, value, i)
    ensures Total(f, k) == value(k) - value(0) + Total(g, k)
  {
    if k > 0 {
      TotalsBalanceExactly(f, g, value, k - 1);
      assert BalancesExactly(f, g, value, k - 1);
    }
  }

  /** The same, with names for the totals and the values at both ends. */
  lemma SumsBalance(f: nat -> int, g: nat -> int, value: nat -> int, k: nat, total: int, first: int, last: int,
        leaks: int)
    requires forall i: nat | i < k :: Balances(f, g, value, i)
    requires total == Total(f, k) && first == value(0) && last == value(k) && leaks == Total(g, k)
    ensures Wrap32(total) == Wrap32(last - first + leaks)
  {
    TotalsBalance(f, g, value, k);
  }
}
