/** Counters kept beside a collection, one per name: how the manager counts sessions, streams, dials and
    bootstraps per address and per profile (`internal/session/manager.go`). */
module Tallies {

  /** The entries of `m` that `key` names `name`. */
  ghost function Those<K, T>(m: map<K, T>, key: T -> string, name: string): set<K> {
    set i | i in m && key(m[i]) == name
  }

  ghost function Tally<K, T>(m: map<K, T>, key: T -> string, name: string): nat {
    |Those(m, key, name)|
  }

  /** Go's lookup of a missing key yields zero. */
  function Lookup(counters: map<string, int>, name: string): int {
    if name in counters then counters[name] else 0
  }

  /** The counters are exactly the tallies, and none is kept at zero. */
  ghost predicate Counts<K, T>(counters: map<string, int>, m: map<K, T>, key: T -> string) {
    forall name :: Lookup(counters, name) == Tally(m, key, name) && (name in counters ==> counters[name] > 0)
  }

  function Incremented(counters: map<string, int>, name: string): map<string, int> {
    counters[name := Lookup(counters, name) + 1]
  }

  /** Decrement, and delete a counter that reaches zero. */
  function Decremented(counters: map<string, int>, name: string): map<string, int> {
    var left := Lookup(counters, name) - 1;
    if left == 0 then counters - {name} else counters[name := left]
  }

  lemma TallyAdd<K, T>(m: map<K, T>, key: T -> string, name: string, i: K, v: T)
    requires i !in m
    ensures Tally(m[i := v], key, name) == Tally(m, key, name) + (if key(v) == name then 1 else 0)
  {
    var n := m[i := v];
    assert Those(n, key, name) == Those(m, key, name) + (if key(v) == name then {i} else {});
  }

  lemma TallyRemove<K, T>(m: map<K, T>, key: T -> string, name: string, i: K)
    requires i in m
    ensures Tally(m - {i}, key, name) == Tally(m, key, name) - (if key(m[i]) == name then 1 else 0)
  {
    assert Those(m - {i}, key, name) == Those(m, key, name) - (if key(m[i]) == name then {i} else {});
  }

  lemma CountsAdd<K, T>(counters: map<string, int>, m: map<K, T>, key: T -> string, i: K, v: T)
    requires Counts(counters, m, key) && i !in m
    ensures Counts(Incremented(counters, key(v)), m[i := v], key)
  {
    hide Tally;
    forall name
      ensures Tally(m[i := v], key, name) == Tally(m, key, name) + (if key(v) == name then 1 else 0)
    {
      TallyAdd(m, key, name, i, v);
    }
  }

  lemma CountsRemove<K, T>(counters: map<string, int>, m: map<K, T>, key: T -> string, i: K)
    requires Counts(counters, m, key) && i in m
    ensures Lookup(counters, key(m[i])) > 0
    ensures Counts(Decremented(counters, key(m[i])), m - {i}, key)
  {
    assert i in Those(m, key, key(m[i]));
    hide Tally;
    forall name
      ensures Tally(m - {i}, key, name) == Tally(m, key, name) - (if key(m[i]) == name then 1 else 0)
    {
      TallyRemove(m, key, name, i);
    }
  }

  /** An entry that changes without changing its name. */
  lemma CountsSame<K, T>(counters: map<string, int>, m: map<K, T>, n: map<K, T>, key: T -> string)
    requires Counts(counters, m, key) && n.Keys == m.Keys && forall i :: i in m ==> key(n[i]) == key(m[i])
    ensures Counts(counters, n, key)
  {
    forall name
      ensures Tally(n, key, name) == Tally(m, key, name)
    {
      assert Those(n, key, name) == Those(m, key, name);
    }
  }

  lemma Named<K, T>(m: map<K, T>, key: T -> string, i: K)
    requires i in m
    ensures Tally(m, key, key(m[i])) > 0
  {
    assert i in Those(m, key, key(m[i]));
  }

  /** All counters together. */
  ghost function Total(counters: map<string, int>): int
    decreases |counters|
  {
    if counters == map[] then 0
    else
      var name :| name in counters;
      counters[name] + Total(counters - {name})
  }

  lemma NamedIsCounted<K, T>(counters: map<string, int>, m: map<K, T>, key: T -> string, i: K)
    requires Counts(counters, m, key) && i in m
    ensures key(m[i]) in counters
  {
    Named(m, key, i);
    assert Lookup(counters, key(m[i])) == Tally(m, key, key(m[i]));
  }

  /** The counters add up to the number of entries. */
  lemma {:induction false} TotalIsSize<K, T>(counters: map<string, int>, m: map<K, T>, key: T -> string)
    requires Counts(counters, m, key)
    ensures Total(counters) == |m|
    decreases |counters|
  {
    if counters == map[] {
      if m != map[] {
        var i :| i in m;
        NamedIsCounted(counters, m, key, i);
        assert false;
      }
    } else {
      var name :| name in counters && Total(counters) == counters[name] + Total(counters - {name});
      var named := Those(m, key, name);
      var others := m - named;
      forall other
        ensures Lookup(counters - {name}, other) == Tally(others, key, other)
      {
        if other == name {
          assert Those(others, key, other) == {};
        } else {
          assert Those(others, key, other) == Those(m, key, other);
        }
        assert Lookup(counters, other) == Tally(m, key, other);
      }
      TotalIsSize(counters - {name}, others, key);
      assert m.Keys == others.Keys + named;
      assert Lookup(counters, name) == Tally(m, key, name);
    }
  }

  lemma LookupIncremented(counters: map<string, int>, name: string)
    ensures forall other ::
      Lookup(Incremented(counters, name), other) == Lookup(counters, other) + (if other == name then 1 else 0)
  {
  }

  lemma LookupDecremented(counters: map<string, int>, name: string)
    ensures forall other ::
      Lookup(Decremented(counters, name), other) == Lookup(counters, other) - (if other == name then 1 else 0)
  {
  }
}
