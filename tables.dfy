/**
 * An ordered dictionary from account names to integer tenths of a bit.
 * Python dicts keep insertion order, and the ledger's order is observable
 * (the leaderboard breaks ties by it), so a table is its keys in insertion
 * order together with the values.
 */
module Tables {

  datatype Table = Table(keys: seq<string>, vals: map<string, int>)
  {
    /** No key twice, and the key list and the value map agree. */
    ghost predicate Valid()
    {
      NoDup(keys) && (forall k :: k in vals <==> k in keys)
    }
  }

  /** No element occurs twice (stated from the end, the way keys are added). */
  ghost predicate NoDup(s: seq<string>)
  {
    s == [] || (s[|s| - 1] !in s[..|s| - 1] && NoDup(s[..|s| - 1]))
  }

  const Empty: Table := Table([], map[])

  /** `d[k] = v`: an existing key keeps its position, a new key goes last. */
  function Put(t: Table, k: string, v: int): (r: Table)
    ensures r.vals == t.vals[k := v]
    ensures t.keys <= r.keys
  {
    Table(if k in t.vals then t.keys else t.keys + [k], t.vals[k := v])
  }

  /** `d[k] = v` keeps a dictionary well formed and adds a key exactly when `k` is new. */
  lemma PutValid(t: Table, k: string, v: int)
    requires t.Valid()
    ensures Put(t, k, v).Valid()
    ensures |Put(t, k, v).keys| == if k in t.vals then |t.keys| else |t.keys| + 1
  {
    assert (t.keys + [k])[..|t.keys|] == t.keys;
  }

  /** Sum of the values of `keys`, added in key order (in a well-formed table every key has a value). */
  function Sum(keys: seq<string>, vals: map<string, int>): int
  {
    if keys == [] then 0
    else Sum(keys[..|keys| - 1], vals) + (if keys[|keys| - 1] in vals then vals[keys[|keys| - 1]] else 0)
  }

  /** `sum(d.values())`. */
  function Total(t: Table): int
  {
    Sum(t.keys, t.vals)
  }

  /** Changing a value outside the summed keys does not change the sum. */
  lemma {:induction false} SumFrame(keys: seq<string>, vals: map<string, int>, k: string, v: int)
    requires k !in keys
    ensures Sum(keys, vals[k := v]) == Sum(keys, vals)
  {
    if keys != [] {
      SumFrame(keys[..|keys| - 1], vals, k, v);
    }
  }

  /** Changing the value of a key listed once changes the sum by the difference. */
  lemma {:induction false} SumUpdate(keys: seq<string>, vals: map<string, int>, k: string, v: int)
    requires NoDup(keys)
    requires k in keys && k in vals
    ensures Sum(keys, vals[k := v]) == Sum(keys, vals) - vals[k] + v
  {
    var init := keys[..|keys| - 1];
    var last := keys[|keys| - 1];
    if last == k {
      SumFrame(init, vals, k, v);
    } else {
      assert k in init by {
        var i :| 0 <= i < |keys| && keys[i] == k;
        assert i < |keys| - 1;
        assert init[i] == k;
      }
      SumUpdate(init, vals, k, v);
    }
  }

  /** The total after `d[k] = v`. */
  lemma TotalPut(t: Table, k: string, v: int)
    requires t.Valid()
    ensures Total(Put(t, k, v)) == Total(t) - (if k in t.vals then t.vals[k] else 0) + v
  {
    var r := Put(t, k, v);
    if k in t.vals {
      SumUpdate(t.keys, t.vals, k, v);
    } else {
      assert r.keys[..|r.keys| - 1] == t.keys;
      SumFrame(t.keys, t.vals, k, v);
    }
  }

  /** Sums over the same keys of maps that agree on those keys are equal. */
  lemma {:induction false} SumAgree(keys: seq<string>, a: map<string, int>, b: map<string, int>)
    requires forall x :: x in keys ==> x in a && x in b && a[x] == b[x]
    ensures Sum(keys, a) == Sum(keys, b)
  {
    if keys != [] {
      SumAgree(keys[..|keys| - 1], a, b);
    }
  }

  /** A list without repeats has as many elements as distinct members. */
  lemma {:induction false} DistinctCard(s: seq<string>)
    requires NoDup(s)
    ensures |set x | x in s| == |s|
  {
    if s != [] {
      var init := s[..|s| - 1];
      DistinctCard(init);
      assert s == init + [s[|s| - 1]];
      assert (set x | x in s) == (set x | x in init) + {s[|s| - 1]};
    }
  }

  /** A well-formed table has one key per entry. */
  lemma KeysCard(t: Table)
    requires t.Valid()
    ensures |t.keys| == |t.vals.Keys|
  {
    DistinctCard(t.keys);
    assert (set x | x in t.keys) == t.vals.Keys;
  }

  /** A well-formed table that extends another with the same accounts has the same key order. */
  lemma SameKeysOfPrefix(a: Table, b: Table)
    requires a.Valid() && b.Valid() && a.keys <= b.keys && a.vals.Keys == b.vals.Keys
    ensures a.keys == b.keys
  {
    KeysCard(a);
    KeysCard(b);
  }

  /** A well-formed table that extends another by exactly one new account lists that account last. */
  lemma ExtendByOne(a: Table, b: Table, k: string)
    requires a.Valid() && b.Valid() && a.keys <= b.keys
    requires k !in a.vals && b.vals.Keys == a.vals.Keys + {k}
    ensures b.keys == a.keys + [k]
    ensures Total(b) == Sum(a.keys, b.vals) + b.vals[k]
  {
    KeysCard(a);
    KeysCard(b);
    var n := |a.keys|;
    assert |b.keys| == n + 1;
    var last := b.keys[n];
    assert b.keys[..n] == a.keys;
    assert b.keys == a.keys + [last];
    assert last in b.vals;
    assert last !in a.keys;
  }
}
