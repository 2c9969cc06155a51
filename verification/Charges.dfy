/** Amounts charged against a pending budget, split by who they are charged for, and their sums over
    maps. The program itself only keeps the two totals; the split is what its limits are about. */
module Charges {

  /** Bytes and items charged for uplink writes, for downlink DATA and for control frames. */
  datatype Kind = UpCost | UpItems | DownCost | DownItems | ControlCost | ControlItems

  datatype Amount = Amount(cost: int, items: int)

  /** One amount of each class. */
  datatype Split = Split(up: Amount, down: Amount, control: Amount)
  {
    function Cost(): int { up.cost + down.cost + control.cost }
    function Items(): int { up.items + down.items + control.items }
  }

  const NOTHING := Split(Amount(0, 0), Amount(0, 0), Amount(0, 0))

  function Part(s: Split, k: Kind): int {
    match k
    case UpCost => s.up.cost
    case UpItems => s.up.items
    case DownCost => s.down.cost
    case DownItems => s.down.items
    case ControlCost => s.control.cost
    case ControlItems => s.control.items
  }

  predicate NonNegative(s: Split) {
    && s.up.cost >= 0 && s.up.items >= 0 && s.down.cost >= 0 && s.down.items >= 0
    && s.control.cost >= 0 && s.control.items >= 0
  }

  predicate NonPositive(s: Split) {
    && s.up.cost <= 0 && s.up.items <= 0 && s.down.cost <= 0 && s.down.items <= 0
    && s.control.cost <= 0 && s.control.items <= 0
  }

  /** `whole` is `a` and `b` together. */
  predicate Together(whole: Split, a: Split, b: Split) {
    && whole.up.cost == a.up.cost + b.up.cost && whole.up.items == a.up.items + b.up.items
    && whole.down.cost == a.down.cost + b.down.cost && whole.down.items == a.down.items + b.down.items
    && whole.control.cost == a.control.cost + b.control.cost
    && whole.control.items == a.control.items + b.control.items
  }

  // --------------------------------------------------------------- sums over maps

  /** What the entries of `m` amount to, in one kind. */
  ghost function Sum<T>(m: map<nat, T>, f: (T, Kind) -> int, k: Kind): int
    decreases |m|, 1
  {
    SumOfSome(m, f, k)
  }

  /** The sum, entry by entry; apart from `Sum`, which proofs use through the lemmas below. */
  ghost function SumOfSome<T>(m: map<nat, T>, f: (T, Kind) -> int, k: Kind): int
    decreases |m|, 0
  {
    if m == map[] then 0
    else
      var i :| i in m;
      f(m[i], k) + Sum(m - {i}, f, k)
  }

  lemma {:induction false} SumTakeOut<T>(m: map<nat, T>, f: (T, Kind) -> int, k: Kind, i: nat)
    requires i in m
    ensures Sum(m, f, k) == f(m[i], k) + Sum(m - {i}, f, k)
    decreases |m|
  {
    assert Sum(m, f, k) == SumOfSome(m, f, k);
    var j :| j in m && Sum(m, f, k) == f(m[j], k) + Sum(m - {j}, f, k);
    if j != i {
      var mj, mi := m - {j}, m - {i};
      assert i in mj && j in mi;
      SumTakeOut(mj, f, k, i);
      SumTakeOut(mi, f, k, j);
      assert mj - {i} == mi - {j};
    }
  }

  function At<T>(m: map<nat, T>, f: (T, Kind) -> int, k: Kind, i: nat): int {
    if i in m then f(m[i], k) else 0
  }

  lemma SumUpdate<T>(m: map<nat, T>, f: (T, Kind) -> int, k: Kind, i: nat, v: T)
    ensures Sum(m[i := v], f, k) == Sum(m, f, k) - At(m, f, k, i) + f(v, k)
  {
    var n := m[i := v];
    SumTakeOut(n, f, k, i);
    assert n - {i} == m - {i};
    if i in m {
      SumTakeOut(m, f, k, i);
    } else {
      assert m - {i} == m;
    }
  }

  lemma SumRemove<T>(m: map<nat, T>, f: (T, Kind) -> int, k: Kind, i: nat)
    ensures Sum(m - {i}, f, k) == Sum(m, f, k) - At(m, f, k, i)
  {
    if i in m {
      SumTakeOut(m, f, k, i);
    } else {
      assert m - {i} == m;
    }
  }

  /** Every entry of a map of nonnegative amounts is part of the sum. */
  lemma {:induction false} SumCovers<T>(m: map<nat, T>, f: (T, Kind) -> int, k: Kind)
    requires forall i :: i in m ==> f(m[i], k) >= 0
    ensures Sum(m, f, k) >= 0
    ensures forall i :: i in m ==> f(m[i], k) <= Sum(m, f, k)
    decreases |m|
  {
    forall i | i in m
      ensures 0 <= f(m[i], k) <= Sum(m, f, k)
    {
      SumTakeOut(m, f, k, i);
      SumCovers(m - {i}, f, k);
    }
    if i :| i in m {
    } else {
      assert m == map[];
    }
  }

  lemma {:induction false} SumOfNothing<T>(m: map<nat, T>, f: (T, Kind) -> int, k: Kind)
    requires forall i :: i in m ==> f(m[i], k) == 0
    ensures Sum(m, f, k) == 0
    decreases |m|
  {
    if i :| i in m {
      SumTakeOut(m, f, k, i);
      SumOfNothing(m - {i}, f, k);
    } else {
      assert m == map[];
    }
  }

  /** Two kinds of one measure, summed together as one kind of another. */
  lemma {:induction false} SumsTogether<T>(m: map<nat, T>, f: (T, Kind) -> int, a: Kind, b: Kind, g: (T,
      Kind) -> int, k: Kind)
    requires forall i :: i in m ==> g(m[i], k) == f(m[i], a) + f(m[i], b)
    ensures Sum(m, g, k) == Sum(m, f, a) + Sum(m, f, b)
    decreases |m|
  {
    if i :| i in m {
      SumTakeOut(m, f, a, i);
      SumTakeOut(m, f, b, i);
      SumTakeOut(m, g, k, i);
      SumsTogether(m - {i}, f, a, b, g, k);
    } else {
      assert m == map[];
    }
  }
}
