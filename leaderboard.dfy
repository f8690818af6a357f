/**
 * get_leaderboard: the accounts sorted by balance, richest first, with
 * accounts of equal balance in ledger order, then one page of that ranking.
 */
module Leaderboard {
  import opened Tables

  type Entry = (string, int)

  /** `balances.items()`: the accounts in ledger order with their balances. */
  function Items(t: Table): (r: seq<Entry>)
    ensures |r| == |t.keys|
    ensures t.Valid() ==> forall i :: 0 <= i < |r| ==> r[i] == (t.keys[i], t.vals[t.keys[i]])
  {
    ItemsOf(t.keys, t.vals)
  }

  function ItemsOf(keys: seq<string>, vals: map<string, int>): (r: seq<Entry>)
    ensures |r| == |keys|
    ensures forall i :: 0 <= i < |r| ==> r[i].0 == keys[i] && (keys[i] in vals ==> r[i].1 == vals[keys[i]])
  {
    if keys == [] then []
    else
      var k := keys[|keys| - 1];
      ItemsOf(keys[..|keys| - 1], vals) + [(k, if k in vals then vals[k] else 0)]
  }

  /** Richest first. */
  ghost predicate Descending(s: seq<Entry>)
  {
    forall i, j :: 0 <= i < j < |s| ==> s[i].1 >= s[j].1
  }

  /** Places `x` before the first entry that is not richer, so `x` stays ahead of entries of equal balance. */
  function InsertDesc(x: Entry, s: seq<Entry>): (r: seq<Entry>)
    ensures |r| == |s| + 1
  {
    if s == [] then [x]
    else if x.1 >= s[0].1 then [x] + s
    else [s[0]] + InsertDesc(x, s[1..])
  }

  /** `sorted(items, key=balance, reverse=True)`, which is stable. */
  function SortDesc(s: seq<Entry>): (r: seq<Entry>)
    ensures |r| == |s|
  {
    if s == [] then [] else InsertDesc(s[0], SortDesc(s[1..]))
  }

  /** The entries with balance `v`, in order. */
  function WithBalance(s: seq<Entry>, v: int): seq<Entry>
  {
    if s == [] then []
    else (if s[0].1 == v then [s[0]] else []) + WithBalance(s[1..], v)
  }

  lemma {:induction false} InsertDescPerm(x: Entry, s: seq<Entry>)
    ensures multiset(InsertDesc(x, s)) == multiset(s) + multiset{x}
  {
    if s != [] && x.1 < s[0].1 {
      InsertDescPerm(x, s[1..]);
      assert s == [s[0]] + s[1..];
    }
  }

  /** Sorting only reorders the entries. */
  lemma {:induction false} SortDescPerm(s: seq<Entry>)
    ensures multiset(SortDesc(s)) == multiset(s)
  {
    if s != [] {
      SortDescPerm(s[1..]);
      InsertDescPerm(s[0], SortDesc(s[1..]));
      assert s == [s[0]] + s[1..];
    }
  }

  lemma {:induction false} InsertDescSorted(x: Entry, s: seq<Entry>)
    requires Descending(s)
    ensures Descending(InsertDesc(x, s))
  {
    if s != [] && x.1 < s[0].1 {
      var t := s[1..];
      InsertDescSorted(x, t);
      InsertDescPerm(x, t);
      var r := InsertDesc(x, s);
      assert r == [s[0]] + InsertDesc(x, t);
      forall i, j | 0 <= i < j < |r| ensures r[i].1 >= r[j].1 {
        if i == 0 {
          var e := InsertDesc(x, t)[j - 1];
          assert e in multiset(InsertDesc(x, t));
          assert e == x || e in t;
        }
      }
    }
  }

  /** The ranking is richest first. */
  lemma {:induction false} SortDescSorted(s: seq<Entry>)
    ensures Descending(SortDesc(s))
  {
    if s != [] {
      SortDescSorted(s[1..]);
      InsertDescSorted(s[0], SortDesc(s[1..]));
    }
  }

  /** Inserting `x` into a ranking puts it first among the entries of its balance. */
  lemma {:induction false} InsertDescStable(x: Entry, s: seq<Entry>, v: int)
    requires Descending(s)
    ensures WithBalance(InsertDesc(x, s), v) == if x.1 == v then [x] + WithBalance(s, v) else WithBalance(s, v)
  {
    if s != [] {
      if x.1 >= s[0].1 {
        assert ([x] + s)[1..] == s;
      } else {
        InsertDescStable(x, s[1..], v);
        assert ([s[0]] + InsertDesc(x, s[1..]))[1..] == InsertDesc(x, s[1..]);
        if s[0].1 == v {
          assert x.1 != v;
        }
      }
    }
  }

  /** The sort is stable: the accounts of any one balance keep their ledger order. */
  lemma {:induction false} SortDescStable(s: seq<Entry>, v: int)
    ensures WithBalance(SortDesc(s), v) == WithBalance(s, v)
  {
    if s != [] {
      SortDescStable(s[1..], v);
      SortDescSorted(s[1..]);
      InsertDescStable(s[0], SortDesc(s[1..]), v);
    }
  }

  /** `ranking[offset:offset + amount]` for a non-negative offset and amount. */
  function Page(s: seq<Entry>, offset: nat, amount: nat): (r: seq<Entry>)
    ensures |r| == if offset >= |s| then 0 else if offset + amount <= |s| then amount else |s| - offset
    ensures forall i :: 0 <= i < |r| ==> r[i] == s[offset + i]
  {
    if offset >= |s| then []
    else if offset + amount <= |s| then s[offset..offset + amount]
    else s[offset..]
  }

  /** get_leaderboard(amount, offset). */
  function GetLeaderboard(t: Table, amount: nat, offset: nat): seq<Entry>
  {
    Page(SortDesc(Items(t)), offset, amount)
  }

  /** Nothing below the first page of a ranking is richer than anything on it. */
  lemma PageTop(s: seq<Entry>, amount: nat)
    requires Descending(s)
    ensures forall e :: e in s && e !in Page(s, 0, amount) ==> forall f :: f in Page(s, 0, amount) ==> e.1 <= f.1
  {
    var r := Page(s, 0, amount);
    forall e, f | e in s && e !in r && f in r ensures e.1 <= f.1 {
      var j :| 0 <= j < |s| && s[j] == e;
      var i :| 0 <= i < |r| && r[i] == f;
      assert s[i] == f;
      assert i < j;
    }
  }

  /**
   * The first page of the leaderboard lists at most `amount` accounts with
   * their balances, richest first, and no account left off it is richer
   * than any account on it.
   */
  lemma LeaderboardTop(t: Table, amount: nat)
    ensures var r := GetLeaderboard(t, amount, 0);
      && |r| == (if amount <= |t.keys| then amount else |t.keys|)
      && Descending(r)
      && (forall e :: e in r ==> e in Items(t))
      && (forall e :: e in Items(t) && e !in r ==> forall f :: f in r ==> e.1 <= f.1)
  {
    var s := SortDesc(Items(t));
    var r := GetLeaderboard(t, amount, 0);
    SortDescSorted(Items(t));
    SortDescPerm(Items(t));
    PageTop(s, amount);
    assert forall e :: e in Items(t) <==> e in multiset(s);
  }
}
