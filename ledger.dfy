/**
 * The ledger: balances in integer tenths of a bit, the append-only
 * transaction log, the replay that recomputes what every balance should be,
 * and the integrity verifier that compares the two (data.py).
 */
module Ledger {
  import opened Names
  import opened Tables

  /** 100.0 bits: the balance of an account the first time it is read. */
  const Initial: int := 1000

  /** One line of the transaction log; names are stored as the caller gave them. */
  datatype Tx = Tx(timestamp: int, from: string, to: string, amount: int)

  /** What get_balance reports for `u`: its stored balance, or 100.0 for an account not yet created. */
  function BalanceOf(t: Table, u: string): int
  {
    if u in t.vals then t.vals[u] else Initial
  }

  /** The side effect of get_balance: an absent account is stored at 100.0, nothing else changes. */
  function Touch(t: Table, u: string): (r: Table)
    ensures r.vals.Keys == t.vals.Keys + {u}
    ensures t.keys <= r.keys
  {
    if u in t.vals then t else Put(t, u, Initial)
  }

  // ---------------------------------------------------------------------
  // Ordering the log: sorted(transactions, key=timestamp), a stable sort.

  /** Sorted by timestamp, earliest first. */
  ghost predicate ByTime(s: seq<Tx>)
  {
    forall i, j :: 0 <= i < j < |s| ==> s[i].timestamp <= s[j].timestamp
  }

  /** Inserts `x` before the first entry that is not earlier, so ties keep their log order. */
  function InsertByTime(x: Tx, s: seq<Tx>): (r: seq<Tx>)
    ensures |r| == |s| + 1
  {
    if s == [] then [x]
    else if x.timestamp <= s[0].timestamp then [x] + s
    else [s[0]] + InsertByTime(x, s[1..])
  }

  /** `sorted(transactions, key=lambda x: x["timestamp"])`. */
  function SortByTime(s: seq<Tx>): (r: seq<Tx>)
    ensures |r| == |s|
  {
    if s == [] then []
    else InsertByTime(s[0], SortByTime(s[1..]))
  }

  /** Inserting adds exactly the one transaction. */
  lemma {:induction false} InsertByTimePerm(x: Tx, s: seq<Tx>)
    ensures multiset(InsertByTime(x, s)) == multiset(s) + multiset{x}
  {
    if s != [] && x.timestamp > s[0].timestamp {
      InsertByTimePerm(x, s[1..]);
      assert s == [s[0]] + s[1..];
    }
  }

  /** Sorting keeps exactly the logged transactions. */
  lemma {:induction false} SortByTimePerm(s: seq<Tx>)
    ensures multiset(SortByTime(s)) == multiset(s)
  {
    if s != [] {
      SortByTimePerm(s[1..]);
      InsertByTimePerm(s[0], SortByTime(s[1..]));
      assert s == [s[0]] + s[1..];
    }
  }

  /** Inserting into a sorted log keeps it sorted. */
  lemma {:induction false} InsertByTimeSorted(x: Tx, s: seq<Tx>)
    requires ByTime(s)
    ensures ByTime(InsertByTime(x, s))
    ensures InsertByTime(x, s)[0] == x || (s != [] && InsertByTime(x, s)[0] == s[0])
  {
    if s != [] && x.timestamp > s[0].timestamp {
      var t := InsertByTime(x, s[1..]);
      var r := [s[0]] + t;
      InsertByTimeSorted(x, s[1..]);
      assert InsertByTime(x, s) == r;
      assert s[0].timestamp <= t[0].timestamp by {
        if |s| > 1 {
          assert s[1..][0] == s[1];
        }
      }
      forall i, j | 0 <= i < j < |r| ensures r[i].timestamp <= r[j].timestamp {
        assert r[j] == t[j - 1];
        if i > 0 {
          assert r[i] == t[i - 1];
        } else if j > 1 {
          assert t[0].timestamp <= t[j - 1].timestamp;
        }
      }
    }
  }

  /** The replay order is sorted by timestamp. */
  lemma {:induction false} SortByTimeSorted(s: seq<Tx>)
    ensures ByTime(SortByTime(s))
  {
    if s != [] {
      SortByTimeSorted(s[1..]);
      InsertByTimeSorted(s[0], SortByTime(s[1..]));
    }
  }

  // ---------------------------------------------------------------------
  // Net flow: what the log says each account gained or lost.

  /** What one transaction does to account `u`; names go through fix_name as in the replay. */
  function Delta(tx: Tx, u: string): int
  {
    (if FixName(tx.to) == u then tx.amount else 0) - (if FixName(tx.from) == u then tx.amount else 0)
  }

  /** Net amount the log moved into `u`. */
  function Net(txs: seq<Tx>, u: string): int
  {
    if txs == [] then 0 else Delta(txs[0], u) + Net(txs[1..], u)
  }

  /** Every account named by the log, normalised. */
  function Parties(txs: seq<Tx>): set<string>
  {
    (set tx | tx in txs :: FixName(tx.from)) + (set tx | tx in txs :: FixName(tx.to))
  }

  lemma PartiesCons(txs: seq<Tx>)
    requires txs != []
    ensures Parties(txs) == {FixName(txs[0].from), FixName(txs[0].to)} + Parties(txs[1..])
  {
    assert txs == [txs[0]] + txs[1..];
    assert forall tx :: tx in txs <==> tx == txs[0] || tx in txs[1..];
  }

  lemma PartiesAppend(txs: seq<Tx>, tx: Tx)
    ensures Parties(txs + [tx]) == Parties(txs) + {FixName(tx.from), FixName(tx.to)}
  {
    assert forall t :: t in txs + [tx] <==> t in txs || t == tx;
  }

  /** The parties depend only on which transactions are logged, not on their order. */
  lemma PartiesPerm(a: seq<Tx>, b: seq<Tx>)
    requires multiset(a) == multiset(b)
    ensures Parties(a) == Parties(b)
  {
    assert forall tx :: tx in a <==> tx in b by {
      forall tx ensures tx in a <==> tx in b {
        assert tx in a <==> tx in multiset(a);
        assert tx in b <==> tx in multiset(b);
      }
    }
  }

  lemma {:induction false} NetAppend(a: seq<Tx>, b: seq<Tx>, u: string)
    ensures Net(a + b, u) == Net(a, u) + Net(b, u)
  {
    if a == [] {
      assert a + b == b;
    } else {
      assert (a + b)[0] == a[0];
      assert (a + b)[1..] == a[1..] + b;
      NetAppend(a[1..], b, u);
    }
  }

  /** An account the log never names has net flow zero. */
  lemma {:induction false} NetNonParty(txs: seq<Tx>, u: string)
    requires u !in Parties(txs)
    ensures Net(txs, u) == 0
  {
    if txs != [] {
      PartiesCons(txs);
      NetNonParty(txs[1..], u);
    }
  }

  /** Taking the first transaction out of `a` and one equal to it out of `b` keeps the two logs permutations of each other. */
  lemma RemoveAt(a: seq<Tx>, b: seq<Tx>, i: int)
    requires multiset(a) == multiset(b) && a != [] && 0 <= i < |b| && b[i] == a[0]
    ensures multiset(b[..i] + b[i + 1..]) == multiset(a[1..])
    ensures b == b[..i] + [a[0]] + b[i + 1..]
  {
    var x := a[0];
    var rest := b[..i] + b[i + 1..];
    assert b == b[..i] + [x] + b[i + 1..];
    assert a == [x] + a[1..];
    calc {
      multiset(rest);
      multiset(b[..i]) + multiset(b[i + 1..]);
      multiset(b[..i] + [x] + b[i + 1..]) - multiset{x};
      multiset(a) - multiset{x};
      multiset(a[1..]);
    }
  }

  /** Net flow depends only on which transactions are logged, not on their order. */
  lemma {:induction false} NetPerm(a: seq<Tx>, b: seq<Tx>, u: string)
    requires multiset(a) == multiset(b)
    ensures Net(a, u) == Net(b, u)
    decreases |a|
  {
    if a == [] {
      assert |b| == |multiset(b)| == 0;
    } else {
      var x := a[0];
      assert x in multiset(a);
      var i :| 0 <= i < |b| && b[i] == x;
      var rest := b[..i] + b[i + 1..];
      RemoveAt(a, b, i);
      NetPerm(a[1..], rest, u);
      NetAppend(b[..i] + [x], b[i + 1..], u);
      NetAppend(b[..i], [x], u);
      NetAppend(b[..i], b[i + 1..], u);
    }
  }

  // ---------------------------------------------------------------------
  // The replay of _compute_expected_balances.

  /**
   * One iteration of the replay loop for a transaction between the normalised
   * names `s` and `d`: both get a 100.0 entry if they have none, then `s` is
   * debited and `d` credited.
   */
  function Apply(t: Table, s: string, d: string, amount: int): (r: Table)
  {
    var t1 := Touch(Touch(t, s), d);
    var t2 := Put(t1, s, t1.vals[s] - amount);
    Put(t2, d, t2.vals[d] + amount)
  }

  function ReplayStep(t: Table, tx: Tx): Table
  {
    Apply(t, FixName(tx.from), FixName(tx.to), tx.amount)
  }

  /** The replay loop over `txs` in the given order. */
  function Replay(t: Table, txs: seq<Tx>): Table
    decreases |txs|
  {
    if txs == [] then t else Replay(ReplayStep(t, txs[0]), txs[1..])
  }

  /** `{user: 100.0 for user in current_balances}`. */
  function Baseline(bal: Table): Table
  {
    Table(bal.keys, map k | k in bal.vals :: Initial)
  }

  /** `_compute_expected_balances(balances, transactions)`. */
  function ExpectedBalances(bal: Table, txs: seq<Tx>): Table
  {
    Replay(Baseline(bal), SortByTime(txs))
  }

  lemma TouchValid(t: Table, u: string)
    requires t.Valid()
    ensures Touch(t, u).Valid()
    ensures |Touch(t, u).keys| == if u in t.vals then |t.keys| else |t.keys| + 1
  {
    if u !in t.vals {
      PutValid(t, u, Initial);
    }
  }

  /** Creating an account keeps the table well formed and adds one entry of 100.0. */
  lemma TouchTotal(t: Table, u: string)
    requires t.Valid()
    ensures Touch(t, u).Valid()
    ensures Total(Touch(t, u)) - Initial * |Touch(t, u).keys| == Total(t) - Initial * |t.keys|
  {
    TouchValid(t, u);
    if u !in t.vals {
      TotalPut(t, u, Initial);
    }
  }

  /** Writing an existing entry keeps the table well formed and its length, and shifts the total. */
  lemma PutExisting(t: Table, k: string, v: int)
    requires t.Valid() && k in t.vals
    ensures Put(t, k, v).Valid()
    ensures |Put(t, k, v).keys| == |t.keys|
    ensures Total(Put(t, k, v)) == Total(t) - t.vals[k] + v
  {
    PutValid(t, k, v);
    TotalPut(t, k, v);
  }

  /** One step keeps the expected table well formed and adds 100.0 per entry it creates. */
  lemma ApplyTotal(t: Table, s: string, d: string, amount: int)
    requires t.Valid()
    ensures Apply(t, s, d, amount).Valid()
    ensures Total(Apply(t, s, d, amount)) - Initial * |Apply(t, s, d, amount).keys| == Total(t) - Initial * |t.keys|
  {
    var t0 := Touch(t, s);
    var t1 := Touch(t0, d);
    var t2 := Put(t1, s, t1.vals[s] - amount);
    var t3 := Put(t2, d, t2.vals[d] + amount);
    assert Apply(t, s, d, amount) == t3;
    TouchTotal(t, s);
    TouchTotal(t0, d);
    ShiftTotal(t1, s, d, amount);
  }

  /** The debit and credit of one step, on a table holding both accounts, keep its length and its total. */
  lemma ShiftTotal(t1: Table, s: string, d: string, amount: int)
    requires t1.Valid() && s in t1.vals && d in t1.vals
    ensures var t2 := Put(t1, s, t1.vals[s] - amount);
      var t3 := Put(t2, d, t2.vals[d] + amount);
      t3.Valid() && Total(t3) == Total(t1) && |t3.keys| == |t1.keys|
  {
    var t2 := Put(t1, s, t1.vals[s] - amount);
    PutExisting(t1, s, t1.vals[s] - amount);
    PutExisting(t2, d, t2.vals[d] + amount);
  }

  /** The replay keeps the table well formed and adds 100.0 to the total per entry it creates. */
  lemma {:induction false} ReplayTotal(t: Table, txs: seq<Tx>)
    requires t.Valid()
    ensures Replay(t, txs).Valid()
    ensures Total(Replay(t, txs)) - Initial * |Replay(t, txs).keys| == Total(t) - Initial * |t.keys|
    decreases |txs|
  {
    if txs != [] {
      var tx := txs[0];
      ApplyTotal(t, FixName(tx.from), FixName(tx.to), tx.amount);
      ReplayTotal(ReplayStep(t, tx), txs[1..]);
    }
  }

  /** The replay keeps the existing accounts in their order. */
  lemma {:induction false} ReplayPrefix(t: Table, txs: seq<Tx>)
    ensures t.keys <= Replay(t, txs).keys
    decreases |txs|
  {
    if txs != [] {
      ReplayPrefix(ReplayStep(t, txs[0]), txs[1..]);
    }
  }

  /** The replay creates exactly the accounts the log names. */
  lemma {:induction false} ReplayHas(t: Table, txs: seq<Tx>, u: string)
    ensures u in Replay(t, txs).vals <==> u in t.vals || u in Parties(txs)
    decreases |txs|
  {
    if txs != [] {
      ReplayHas(ReplayStep(t, txs[0]), txs[1..], u);
      PartiesCons(txs);
    }
  }

  /** One step moves the amount from the sender's entry to the receiver's. */
  lemma ApplyAt(t: Table, s: string, d: string, amount: int, u: string)
    ensures BalanceOf(Apply(t, s, d, amount), u) ==
              BalanceOf(t, u) + (if d == u then amount else 0) - (if s == u then amount else 0)
  {
  }

  /** The replay in closed form: every account ends at its start value plus its net flow. */
  lemma {:induction false} ReplayAt(t: Table, txs: seq<Tx>, u: string)
    ensures BalanceOf(Replay(t, txs), u) == BalanceOf(t, u) + Net(txs, u)
    decreases |txs|
  {
    if txs != [] {
      var tx := txs[0];
      ApplyAt(t, FixName(tx.from), FixName(tx.to), tx.amount, u);
      ReplayAt(ReplayStep(t, tx), txs[1..], u);
    }
  }

  /**
   * The expected table: an entry for every stored account and every
   * transaction party, each at 100.0 plus its net flow in the log, stored
   * accounts first and in their order.
   */
  lemma ExpectedClosedForm(bal: Table, txs: seq<Tx>)
    ensures ExpectedBalances(bal, txs).vals.Keys == bal.vals.Keys + Parties(txs)
    ensures bal.keys <= ExpectedBalances(bal, txs).keys
    ensures forall u :: u in ExpectedBalances(bal, txs).vals ==>
              ExpectedBalances(bal, txs).vals[u] == Initial + Net(txs, u)
  {
    var base := Baseline(bal);
    var sorted := SortByTime(txs);
    var e := Replay(base, sorted);
    ReplayPrefix(base, sorted);
    SortByTimePerm(txs);
    PartiesPerm(sorted, txs);
    forall u ensures u in e.vals <==> u in bal.vals || u in Parties(txs) {
      ReplayHas(base, sorted, u);
    }
    forall u | u in e.vals ensures e.vals[u] == Initial + Net(txs, u) {
      NetPerm(sorted, txs, u);
      ReplayAt(base, sorted, u);
    }
  }

  lemma {:induction false} BaselineTotal(keys: seq<string>, vals: map<string, int>)
    requires forall k :: k in keys ==> k in vals && vals[k] == Initial
    ensures Sum(keys, vals) == Initial * |keys|
  {
    if keys != [] {
      BaselineTotal(keys[..|keys| - 1], vals);
    }
  }

  /** The expected table is well formed and totals 100.0 per entry. */
  lemma ExpectedTotal(bal: Table, txs: seq<Tx>)
    requires bal.Valid()
    ensures ExpectedBalances(bal, txs).Valid()
    ensures Total(ExpectedBalances(bal, txs)) == Initial * |ExpectedBalances(bal, txs).keys|
  {
    var base := Baseline(bal);
    ReplayTotal(base, SortByTime(txs));
    BaselineTotal(base.keys, base.vals);
  }

  // ---------------------------------------------------------------------
  // verify_balance_integrity

  /** Every stored account holds exactly 100.0 plus what the log moved into it. */
  ghost predicate Consistent(bal: Table, txs: seq<Tx>)
  {
    AgreesOn(bal.keys, bal.vals, txs)
  }

  /** Each account of `keys` holds 100.0 plus its net flow (stated key by key, from the end). */
  ghost predicate AgreesOn(keys: seq<string>, vals: map<string, int>, txs: seq<Tx>)
  {
    keys == [] ||
    (var u := keys[|keys| - 1];
     u in vals && vals[u] == Initial + Net(txs, u) && AgreesOn(keys[..|keys| - 1], vals, txs))
  }

  lemma {:induction false} AgreesOnIff(keys: seq<string>, vals: map<string, int>, txs: seq<Tx>)
    ensures AgreesOn(keys, vals, txs) <==> forall u :: u in keys ==> u in vals && vals[u] == Initial + Net(txs, u)
  {
    if keys != [] {
      var init := keys[..|keys| - 1];
      AgreesOnIff(init, vals, txs);
      assert keys == init + [keys[|keys| - 1]];
    }
  }

  /** Agreement account by account. */
  lemma ConsistentIff(bal: Table, txs: seq<Tx>)
    requires bal.Valid()
    ensures Consistent(bal, txs) <==> forall u :: u in bal.vals ==> bal.vals[u] == Initial + Net(txs, u)
  {
    AgreesOnIff(bal.keys, bal.vals, txs);
  }

  /** What the verifier reports, and the balances it leaves. */
  datatype Verdict = Verdict(ok: bool, balances: Table)

  /**
   * The repair loop: every account of `keys` set to its expected value,
   * `expected.get(user, 100.0)` (mismatched accounts change, the others
   * already hold that value).
   */
  function HealVals(keys: seq<string>, vals: map<string, int>, expected: Table): map<string, int>
  {
    if keys == [] then vals
    else
      var u := keys[|keys| - 1];
      HealVals(keys[..|keys| - 1], vals, expected)[u := BalanceOf(expected, u)]
  }

  function Heal(bal: Table, expected: Table): Table
  {
    Table(bal.keys, HealVals(bal.keys, bal.vals, expected))
  }

  /** The repair loop sets exactly the listed accounts and adds none that were not listed. */
  lemma {:induction false} HealAt(keys: seq<string>, vals: map<string, int>, expected: Table, u: string)
    ensures u in HealVals(keys, vals, expected) <==> u in vals || u in keys
    ensures u in keys ==> HealVals(keys, vals, expected)[u] == BalanceOf(expected, u)
    ensures u !in keys && u in vals ==> HealVals(keys, vals, expected)[u] == vals[u]
  {
    if keys != [] {
      var init := keys[..|keys| - 1];
      HealAt(init, vals, expected, u);
      assert keys == init + [keys[|keys| - 1]];
    }
  }

  /** Repairing a well-formed ledger keeps its accounts and sets each to its expected value. */
  lemma HealEffect(bal: Table, expected: Table)
    requires bal.Valid()
    ensures Heal(bal, expected).Valid()
    ensures Heal(bal, expected).vals.Keys == bal.vals.Keys
    ensures forall u :: u in bal.vals ==> Heal(bal, expected).vals[u] == BalanceOf(expected, u)
  {
    forall u ensures u in Heal(bal, expected).vals <==> u in bal.vals {
      HealAt(bal.keys, bal.vals, expected, u);
    }
    forall u | u in bal.vals ensures Heal(bal, expected).vals[u] == BalanceOf(expected, u) {
      HealAt(bal.keys, bal.vals, expected, u);
    }
  }

  /**
   * verify_balance_integrity: an anomaly (stored total above the expected
   * total) leaves the balances alone and reports False; otherwise every
   * stored account is reset to its expected value and True is reported.
   */
  function Verify(bal: Table, txs: seq<Tx>): Verdict
  {
    var expected := ExpectedBalances(bal, txs);
    if Total(bal) > Total(expected) then Verdict(false, bal)
    else Verdict(true, Heal(bal, expected))
  }

  /**
   * What verify_balance_integrity reports and leaves behind, for every
   * ledger and log: it passes exactly when the stored total is at most 100.0
   * per account the ledger or the log knows; a failure changes nothing; a pass
   * keeps the accounts and their order and leaves every one of them at 100.0
   * plus its net flow.
   */
  lemma VerifyOutcome(bal: Table, txs: seq<Tx>)
    requires bal.Valid()
    ensures Verify(bal, txs).ok <==> Total(bal) <= Initial * |bal.vals.Keys + Parties(txs)|
    ensures !Verify(bal, txs).ok ==> Verify(bal, txs).balances == bal
    ensures Verify(bal, txs).ok ==>
              Verify(bal, txs).balances.keys == bal.keys &&
              Verify(bal, txs).balances.vals.Keys == bal.vals.Keys &&
              Consistent(Verify(bal, txs).balances, txs)
  {
    var e := ExpectedBalances(bal, txs);
    ExpectedTotal(bal, txs);
    ExpectedClosedForm(bal, txs);
    KeysCard(e);
    HealEffect(bal, e);
    ConsistentIff(Heal(bal, e), txs);
  }

  /** For a log naming only stored accounts, the replay creates no account and keeps the order. */
  lemma ExpectedSameKeys(bal: Table, txs: seq<Tx>)
    requires bal.Valid() && Parties(txs) <= bal.vals.Keys
    ensures ExpectedBalances(bal, txs).vals.Keys == bal.vals.Keys
    ensures ExpectedBalances(bal, txs).keys == bal.keys
  {
    ExpectedClosedForm(bal, txs);
    ExpectedTotal(bal, txs);
    SameKeysOfPrefix(bal, ExpectedBalances(bal, txs));
  }

  /** For a ledger that agrees with a log naming only stored accounts, the replay rebuilds the ledger exactly. */
  lemma ExpectedOfConsistent(bal: Table, txs: seq<Tx>)
    requires bal.Valid() && Consistent(bal, txs) && Parties(txs) <= bal.vals.Keys
    ensures ExpectedBalances(bal, txs) == bal
  {
    var e := ExpectedBalances(bal, txs);
    ExpectedSameKeys(bal, txs);
    ConsistentIff(bal, txs);
    ExpectedClosedForm(bal, txs);
    assert e.vals == bal.vals;
  }

  /** A ledger that agrees with a log naming only stored accounts passes and is left as it is. */
  lemma VerifyAcceptsConsistent(bal: Table, txs: seq<Tx>)
    requires bal.Valid() && Consistent(bal, txs) && Parties(txs) <= bal.vals.Keys
    ensures Verify(bal, txs) == Verdict(true, bal)
  {
    ExpectedOfConsistent(bal, txs);
    HealEffect(bal, bal);
    assert Heal(bal, bal).vals == bal.vals;
  }

  /**
   * On a ledger that agrees with a log naming only stored accounts, one
   * unlogged write to a stored account is healed away when it lowers the
   * balance, and kept and reported as an anomaly when it raises it.
   */
  lemma VerifyAfterOneWrite(bal: Table, txs: seq<Tx>, u: string, v: int)
    requires bal.Valid() && Consistent(bal, txs) && Parties(txs) <= bal.vals.Keys && u in bal.vals
    ensures Verify(Put(bal, u, v), txs) ==
              if v <= bal.vals[u] then Verdict(true, bal) else Verdict(false, Put(bal, u, v))
  {
    ExpectedOfConsistent(bal, txs);
    VerifyAfterWrite(bal, txs, u, v);
  }

  /** The same, for any ledger the replay rebuilds exactly. */
  lemma VerifyAfterWrite(bal: Table, txs: seq<Tx>, u: string, v: int)
    requires bal.Valid() && ExpectedBalances(bal, txs) == bal && u in bal.vals
    ensures Verify(Put(bal, u, v), txs) ==
              if v <= bal.vals[u] then Verdict(true, bal) else Verdict(false, Put(bal, u, v))
  {
    var w := Put(bal, u, v);
    PutValid(bal, u, v);
    ExpectedIgnoresValues(w, bal, txs);
    TotalPut(bal, u, v);
    if v <= bal.vals[u] {
      HealEffect(w, bal);
      assert Heal(w, bal).vals == bal.vals;
    }
  }

  /** The replay reads only which accounts are stored, not what they hold. */
  lemma ExpectedIgnoresValues(a: Table, b: Table, txs: seq<Tx>)
    requires a.keys == b.keys && a.vals.Keys == b.vals.Keys
    ensures ExpectedBalances(a, txs) == ExpectedBalances(b, txs)
  {
    assert Baseline(a) == Baseline(b);
  }

  /**
   * An account that the log names but the ledger never stores (the "mint"
   * source of !print) still gets a 100.0 entry in the expected table, so a
   * ledger that agrees with its log passes exactly while that account's net
   * outflow is at most 100.0.
   */
  lemma SentinelFlagged(bal: Table, txs: seq<Tx>, s: string)
    requires bal.Valid() && Consistent(bal, txs)
    requires s !in bal.vals && s in Parties(txs) && Parties(txs) <= bal.vals.Keys + {s}
    ensures Verify(bal, txs).ok <==> -Net(txs, s) <= Initial
  {
    var e := ExpectedBalances(bal, txs);
    ExpectedClosedForm(bal, txs);
    ExpectedTotal(bal, txs);
    ExtendByOne(bal, e, s);
    ConsistentIff(bal, txs);
    SumAgree(bal.keys, bal.vals, e.vals);
    assert Total(e) == Total(bal) + Initial + Net(txs, s);
  }

  /**
   * The verifier with the total compared over the stored accounts only: the
   * expected value of an account that is never stored does not count.
   */
  function VerifyStored(bal: Table, txs: seq<Tx>): Verdict
  {
    var healed := Heal(bal, ExpectedBalances(bal, txs));
    if Total(bal) > Total(healed) then Verdict(false, bal)
    else Verdict(true, healed)
  }

  /** Every ledger that agrees with its log passes the corrected verifier unchanged, whatever accounts the log names. */
  lemma VerifyStoredAcceptsConsistent(bal: Table, txs: seq<Tx>)
    requires bal.Valid() && Consistent(bal, txs)
    ensures VerifyStored(bal, txs) == Verdict(true, bal)
  {
    var e := ExpectedBalances(bal, txs);
    ExpectedClosedForm(bal, txs);
    ConsistentIff(bal, txs);
    HealEffect(bal, e);
    assert Heal(bal, e).vals == bal.vals;
  }

  /** The corrected verifier reports failure without touching the ledger, and a pass leaves every stored account in agreement with the log. */
  lemma VerifyStoredOutcome(bal: Table, txs: seq<Tx>)
    requires bal.Valid()
    ensures !VerifyStored(bal, txs).ok ==> VerifyStored(bal, txs).balances == bal
    ensures VerifyStored(bal, txs).ok ==>
              VerifyStored(bal, txs).balances.keys == bal.keys &&
              VerifyStored(bal, txs).balances.vals.Keys == bal.vals.Keys &&
              Consistent(VerifyStored(bal, txs).balances, txs)
  {
    var e := ExpectedBalances(bal, txs);
    ExpectedClosedForm(bal, txs);
    HealEffect(bal, e);
    ConsistentIff(Heal(bal, e), txs);
  }

  /** When the log names only stored accounts, the correction makes no difference. */
  lemma VerifyStoredAgrees(bal: Table, txs: seq<Tx>)
    requires bal.Valid() && Parties(txs) <= bal.vals.Keys
    ensures VerifyStored(bal, txs) == Verify(bal, txs)
  {
    var e := ExpectedBalances(bal, txs);
    ExpectedSameKeys(bal, txs);
    HealEffect(bal, e);
    SumAgree(bal.keys, Heal(bal, e).vals, e.vals);
  }

  // ---------------------------------------------------------------------
  // Transfers: the get_balance / set_balance sequences of the commands.

  /**
   * Debit `from`, then read `to` and credit it. Between two different
   * accounts this is exactly what the commands do; when they are the same
   * account the two writes cancel.
   */
  function Move(bal: Table, from: string, to: string, amount: int): (r: Table)
    ensures r.vals.Keys == bal.vals.Keys + {from, to}
    ensures bal.keys <= r.keys
  {
    var b1 := Put(bal, from, BalanceOf(bal, from) - amount);
    Put(b1, to, BalanceOf(b1, to) + amount)
  }

  /**
   * The commands as written: both balances are read before either write, so
   * the credit overwrites the debit when `from == to`.
   */
  function MoveAsWritten(bal: Table, from: string, to: string, amount: int): (r: Table)
    ensures r.vals.Keys == bal.vals.Keys + {from, to}
  {
    Put(Put(bal, from, BalanceOf(bal, from) - amount), to, BalanceOf(bal, to) + amount)
  }

  /** A move takes `amount` from `from`, gives it to `to` and changes nobody else. */
  lemma MoveAt(bal: Table, from: string, to: string, amount: int, u: string)
    ensures BalanceOf(Move(bal, from, to, amount), u) ==
              BalanceOf(bal, u) + (if u == to then amount else 0) - (if u == from then amount else 0)
  {
  }

  /** A move keeps a well-formed ledger well formed. */
  lemma MoveValid(bal: Table, from: string, to: string, amount: int)
    requires bal.Valid()
    ensures Move(bal, from, to, amount).Valid()
  {
    var b1 := Put(bal, from, BalanceOf(bal, from) - amount);
    PutValid(bal, from, BalanceOf(bal, from) - amount);
    PutValid(b1, to, BalanceOf(b1, to) + amount);
  }

  /** Between stored accounts a move neither creates nor destroys bits and keeps the key order. */
  lemma MoveConserves(bal: Table, from: string, to: string, amount: int)
    requires bal.Valid() && from in bal.vals && to in bal.vals
    ensures Move(bal, from, to, amount).keys == bal.keys
    ensures Total(Move(bal, from, to, amount)) == Total(bal)
  {
    var v1 := BalanceOf(bal, from) - amount;
    var b1 := Put(bal, from, v1);
    var v2 := BalanceOf(b1, to) + amount;
    PutExisting(bal, from, v1);
    PutExisting(b1, to, v2);
    assert Move(bal, from, to, amount) == Put(b1, to, v2);
  }

  /** Between two different accounts the written order and the corrected order agree. */
  lemma MoveAsWrittenAgrees(bal: Table, from: string, to: string, amount: int)
    requires from != to
    ensures MoveAsWritten(bal, from, to, amount) == Move(bal, from, to, amount)
  {
  }

  /** Moving bits from a stored account to itself as written adds `amount` out of nothing; the corrected move is a no-op. */
  lemma MoveAsWrittenSelfInflates(bal: Table, u: string, amount: int)
    requires bal.Valid() && u in bal.vals
    ensures BalanceOf(MoveAsWritten(bal, u, u, amount), u) == BalanceOf(bal, u) + amount
    ensures Total(MoveAsWritten(bal, u, u, amount)) == Total(bal) + amount
    ensures Move(bal, u, u, amount) == bal
  {
    var v1 := bal.vals[u] - amount;
    var v2 := bal.vals[u] + amount;
    var b1 := Put(bal, u, v1);
    PutExisting(bal, u, v1);
    PutExisting(b1, u, v2);
    assert MoveAsWritten(bal, u, u, amount) == Put(b1, u, v2);
    assert Move(bal, u, u, amount).vals == bal.vals;
  }

  /** A logged move between stored, normalised accounts keeps the ledger in agreement with its log. */
  lemma MoveKeepsConsistent(bal: Table, txs: seq<Tx>, from: string, to: string, amount: int, now: int)
    requires bal.Valid() && Consistent(bal, txs)
    requires from in bal.vals && to in bal.vals && IsFixed(from) && IsFixed(to)
    ensures Consistent(Move(bal, from, to, amount), txs + [Tx(now, from, to, amount)])
  {
    var tx := Tx(now, from, to, amount);
    var m := Move(bal, from, to, amount);
    ConsistentIff(bal, txs);
    MoveValid(bal, from, to, amount);
    ConsistentIff(m, txs + [tx]);
    FixNameFixedPoint(from);
    FixNameFixedPoint(to);
    forall u | u in m.vals ensures m.vals[u] == Initial + Net(txs + [tx], u) {
      MoveAt(bal, from, to, amount, u);
      NetAppend(txs, [tx], u);
      assert Net([tx], u) == Delta(tx, u);
    }
  }

  /** Creating an account the log never names keeps the ledger in agreement with its log. */
  lemma TouchKeepsConsistent(bal: Table, txs: seq<Tx>, u: string)
    requires bal.Valid() && Consistent(bal, txs) && u !in Parties(txs)
    ensures Consistent(Touch(bal, u), txs)
  {
    ConsistentIff(bal, txs);
    TouchValid(bal, u);
    ConsistentIff(Touch(bal, u), txs);
    NetNonParty(txs, u);
  }

  // ---------------------------------------------------------------------
  // set_balance with its integrity hook (data.py:86).

  /** The ledger, the log and whether an anomaly has been reported (the backups are then locked). */
  datatype Hooked = Hooked(balances: Table, txs: seq<Tx>, frozen: bool)

  /** set_balance as data.py writes it: the write, then verify_balance_integrity against the log so far. */
  function SetHooked(h: Hooked, u: string, v: int): (r: Hooked)
    ensures r.txs == h.txs
    ensures h.frozen ==> r.frozen
  {
    var w := Verify(Put(h.balances, u, v), h.txs);
    Hooked(w.balances, h.txs, h.frozen || !w.ok)
  }

  /** On a ledger that agrees with its log, a hooked write that lowers a balance is undone. */
  lemma HookedLoweringUndone(bal: Table, txs: seq<Tx>, u: string, v: int, frozen: bool)
    requires bal.Valid() && Consistent(bal, txs) && Parties(txs) <= bal.vals.Keys && u in bal.vals
    requires v <= bal.vals[u]
    ensures SetHooked(Hooked(bal, txs, frozen), u, v) == Hooked(bal, txs, frozen)
  {
    VerifyAfterOneWrite(bal, txs, u, v);
  }

  /** On a ledger that agrees with its log, a hooked write that raises a balance is kept and reported. */
  lemma HookedRaisingFlagged(bal: Table, txs: seq<Tx>, u: string, v: int, frozen: bool)
    requires bal.Valid() && Consistent(bal, txs) && Parties(txs) <= bal.vals.Keys && u in bal.vals
    requires v > bal.vals[u]
    ensures SetHooked(Hooked(bal, txs, frozen), u, v) == Hooked(Put(bal, u, v), txs, true)
  {
    VerifyAfterOneWrite(bal, txs, u, v);
  }

  /**
   * A transfer as the commands write it against the hooked set_balance: both
   * balances are read, the sender is set, then the receiver. In a ledger that
   * agrees with its log, the hook undoes the sender's debit and keeps the
   * receiver's credit and reports an anomaly, so the transfer creates
   * `amount` out of nothing.
   */
  lemma HookedTransferKeepsSenderBits(bal: Table, txs: seq<Tx>, from: string, to: string, amount: int, a: int, b: int)
    requires bal.Valid() && Consistent(bal, txs) && Parties(txs) <= bal.vals.Keys
    requires from in bal.vals && to in bal.vals && from != to && 0 < amount <= bal.vals[from]
    requires a == BalanceOf(bal, from) - amount && b == BalanceOf(bal, to) + amount
    ensures SetHooked(SetHooked(Hooked(bal, txs, false), from, a), to, b) == Hooked(Put(bal, to, b), txs, true)
    ensures Total(Put(bal, to, b)) == Total(bal) + amount
  {
    HookedLoweringUndone(bal, txs, from, a, false);
    HookedRaisingFlagged(bal, txs, to, b, false);
    PutExisting(bal, to, b);
  }

  /** Once the transfer is logged, the replay rebuilds the moved ledger exactly. */
  lemma MovedSettles(bal: Table, txs: seq<Tx>, from: string, to: string, amount: int, now: int)
    requires bal.Valid() && Consistent(bal, txs) && Parties(txs) <= bal.vals.Keys
    requires from in bal.vals && to in bal.vals && IsFixed(from) && IsFixed(to)
    ensures Move(bal, from, to, amount).Valid()
    ensures ExpectedBalances(Move(bal, from, to, amount), txs + [Tx(now, from, to, amount)]) == Move(bal, from, to, amount)
  {
    var tx := Tx(now, from, to, amount);
    MoveKeepsConsistent(bal, txs, from, to, amount, now);
    MoveValid(bal, from, to, amount);
    FixNameFixedPoint(from);
    FixNameFixedPoint(to);
    PartiesAppend(txs, tx);
    ExpectedOfConsistent(Move(bal, from, to, amount), txs + [tx]);
  }

  /** The ledger the hooked transfer leaves is the moved ledger with the sender's debit undone. */
  lemma CreditedIsMovedRaised(bal: Table, from: string, to: string, amount: int, b: int)
    requires from in bal.vals && to in bal.vals && from != to && b == bal.vals[to] + amount
    ensures Put(Move(bal, from, to, amount), from, bal.vals[from]) == Put(bal, to, b)
  {
    assert Put(Move(bal, from, to, amount), from, bal.vals[from]).vals == Put(bal, to, b).vals;
  }

  /**
   * Logging the transfer afterwards does not repair what the hooked writes
   * did: the verifier still reports the credited ledger as an anomaly.
   */
  lemma HookedAfterLog(bal: Table, txs: seq<Tx>, from: string, to: string, amount: int, now: int, b: int)
    requires bal.Valid() && Consistent(bal, txs) && Parties(txs) <= bal.vals.Keys
    requires from in bal.vals && to in bal.vals && from != to && IsFixed(from) && IsFixed(to)
    requires 0 < amount && b == bal.vals[to] + amount
    ensures !Verify(Put(bal, to, b), txs + [Tx(now, from, to, amount)]).ok
  {
    var m := Move(bal, from, to, amount);
    MovedSettles(bal, txs, from, to, amount, now);
    MoveAt(bal, from, to, amount, from);
    CreditedIsMovedRaised(bal, from, to, amount, b);
    VerifyAfterWrite(m, txs + [Tx(now, from, to, amount)], from, bal.vals[from]);
  }

  // ---------------------------------------------------------------------
  // The loops of _compute_expected_balances and verify_balance_integrity.

  /** _compute_expected_balances: a 100.0 entry per stored account, then the sorted log replayed entry by entry. */
  method ComputeExpected(bal: Table, txs: seq<Tx>) returns (e: Table)
    ensures e == ExpectedBalances(bal, txs)
  {
    e := Baseline(bal);
    var sorted := SortByTime(txs);
    ghost var goal := Replay(e, sorted);
    var i := 0;
    while i < |sorted|
      invariant 0 <= i <= |sorted|
      invariant Replay(e, sorted[i..]) == goal
    {
      ReplayCons(e, sorted, i);
      e := ReplayOne(e, sorted[i]);
      i := i + 1;
    }
    assert sorted[|sorted|..] == [];
  }

  /** One iteration of the replay loop: create missing entries at 100.0, debit the sender, credit the receiver. */
  method ReplayOne(e: Table, tx: Tx) returns (r: Table)
    ensures r == ReplayStep(e, tx)
  {
    r := e;
    var sender := FixName(tx.from);
    var receiver := FixName(tx.to);
    if sender !in r.vals {
      r := Put(r, sender, Initial);
    }
    if receiver !in r.vals {
      r := Put(r, receiver, Initial);
    }
    r := Put(r, sender, r.vals[sender] - tx.amount);
    r := Put(r, receiver, r.vals[receiver] + tx.amount);
  }

  /** Replaying the log from position `i` is one step followed by the rest. */
  lemma ReplayCons(t: Table, txs: seq<Tx>, i: int)
    requires 0 <= i < |txs|
    ensures Replay(t, txs[i..]) == Replay(ReplayStep(t, txs[i]), txs[i + 1..])
  {
    assert txs[i..][1..] == txs[i + 1..];
  }

  /**
   * The repair loop of verify_balance_integrity: every stored account whose
   * balance differs from its expected value is overwritten with it.
   */
  method HealLoop(bal: Table, expected: Table) returns (r: Table)
    requires bal.Valid()
    ensures r == Heal(bal, expected)
  {
    r := bal;
    var i := 0;
    while i < |bal.keys|
      invariant 0 <= i <= |bal.keys|
      invariant r == Table(bal.keys, HealVals(bal.keys[..i], bal.vals, expected))
    {
      var u := bal.keys[i];
      HealUnchanged(bal, expected, i);
      var want := BalanceOf(expected, u);
      if r.vals[u] != want {
        r := Put(r, u, want);
      }
      i := i + 1;
    }
    assert bal.keys[..|bal.keys|] == bal.keys;
  }

  /** An account the repair loop has not reached yet still holds its stored value. */
  lemma HealUnchanged(bal: Table, expected: Table, i: int)
    requires bal.Valid() && 0 <= i < |bal.keys|
    ensures var u := bal.keys[i];
      u in HealVals(bal.keys[..i], bal.vals, expected) &&
      HealVals(bal.keys[..i + 1], bal.vals, expected) ==
        HealVals(bal.keys[..i], bal.vals, expected)[u := BalanceOf(expected, u)]
  {
    var u := bal.keys[i];
    HealAt(bal.keys[..i], bal.vals, expected, u);
    assert bal.keys[..i + 1][..i] == bal.keys[..i];
  }
}
