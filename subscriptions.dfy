/**
 * Recurring payments between two accounts (data.py, commands.py): the
 * subscription list with its upsert, the two removals and the lookup by payer.
 */
module Subscriptions {
  import opened Wrappers

  /** The keys of CYCLE_TIMES. */
  datatype Cycle = Daily | Weekly | Monthly

  /** CYCLE_TIMES in seconds: one day, one week and thirty days. */
  function CycleSeconds(c: Cycle): (r: int)
    ensures r > 0 && r % 86400 == 0
    ensures r == 86400 * (if c == Daily then 1 else if c == Weekly then 7 else 30)
  {
    match c
    case Daily => 86400
    case Weekly => 604800
    case Monthly => 2592000
  }

  /** The word a cycle is written as. */
  function CycleName(c: Cycle): string
  {
    match c
    case Daily => "daily"
    case Weekly => "weekly"
    case Monthly => "monthly"
  }

  /** Looking a word up in CYCLE_TIMES: only the three exact keys are found. */
  function ParseCycle(s: string): (r: Option<Cycle>)
    ensures r.Some? <==> s == "daily" || s == "weekly" || s == "monthly"
    ensures r.Some? ==> CycleName(r.value) == s
  {
    if s == "daily" then Some(Daily)
    else if s == "weekly" then Some(Weekly)
    else if s == "monthly" then Some(Monthly)
    else None
  }

  /** Every cycle is found under its own name. */
  lemma ParseCycleName(c: Cycle)
    ensures ParseCycle(CycleName(c)) == Some(c)
  {
  }

  /** One subscription record; payer and payee are normalised names, the amount is in tenths. */
  datatype Sub = Sub(payer: string, payee: string, amount: int, cycle: Cycle, lastPaid: int, nextPayment: int)

  predicate Matches(s: Sub, payer: string, payee: string)
  {
    s.payer == payer && s.payee == payee
  }

  /**
   * add_subscription's list after the loop: the first entry for the pair
   * takes the new amount, cycle and timestamps in place; without one the
   * entry is appended.
   */
  function Upserted(subs: seq<Sub>, entry: Sub): seq<Sub>
  {
    if subs == [] then [entry]
    else if Matches(subs[0], entry.payer, entry.payee) then [entry] + subs[1..]
    else [subs[0]] + Upserted(subs[1..], entry)
  }

  /** The loop of add_subscription, with its `found` flag and `break`. */
  method AddSubscription(subs: seq<Sub>, entry: Sub) returns (r: seq<Sub>)
    ensures r == Upserted(subs, entry)
  {
    r := subs;
    var found := false;
    var i := 0;
    while i < |r|
      invariant 0 <= i <= |r| == |subs| && r == subs
      invariant forall j :: 0 <= j < i ==> !Matches(subs[j], entry.payer, entry.payee)
    {
      if Matches(r[i], entry.payer, entry.payee) {
        UpsertedExisting(subs, entry, i);
        r := r[i := entry];
        found := true;
        break;
      }
      i := i + 1;
    }
    if !found {
      UpsertedNew(subs, entry);
      r := r + [entry];
    }
  }

  /** With an entry for the pair, the first one is replaced and the length kept. */
  lemma {:induction false} UpsertedExisting(subs: seq<Sub>, entry: Sub, i: int)
    requires 0 <= i < |subs| && Matches(subs[i], entry.payer, entry.payee)
    requires forall j :: 0 <= j < i ==> !Matches(subs[j], entry.payer, entry.payee)
    ensures Upserted(subs, entry) == subs[i := entry]
  {
    if i > 0 {
      UpsertedExisting(subs[1..], entry, i - 1);
      assert subs[i := entry] == [subs[0]] + subs[1..][i - 1 := entry];
    }
  }

  /** Without an entry for the pair, the new entry is appended. */
  lemma {:induction false} UpsertedNew(subs: seq<Sub>, entry: Sub)
    requires forall j :: 0 <= j < |subs| ==> !Matches(subs[j], entry.payer, entry.payee)
    ensures Upserted(subs, entry) == subs + [entry]
  {
    if subs != [] {
      UpsertedNew(subs[1..], entry);
      assert subs + [entry] == [subs[0]] + (subs[1..] + [entry]);
    }
  }

  /** The list comprehension of remove_subscription: every entry except those for the pair, in order. */
  function WithoutPair(subs: seq<Sub>, payer: string, payee: string): seq<Sub>
  {
    if subs == [] then []
    else (if Matches(subs[0], payer, payee) then [] else [subs[0]]) + WithoutPair(subs[1..], payer, payee)
  }

  /** Does the list hold an entry for the pair? */
  predicate HasPair(subs: seq<Sub>, payer: string, payee: string)
  {
    exists i :: 0 <= i < |subs| && Matches(subs[i], payer, payee)
  }

  /** remove_subscription: the remaining list, and True exactly when it got shorter. */
  function RemoveSubscription(subs: seq<Sub>, payer: string, payee: string): (seq<Sub>, bool)
  {
    var kept := WithoutPair(subs, payer, payee);
    (kept, |kept| < |subs|)
  }

  /**
   * Removing a pair keeps exactly the other entries, in their order: no
   * entry for the pair remains, every other entry stays, the list shrinks
   * exactly when an entry for the pair existed, and removal distributes over
   * concatenation (so relative order is kept).
   */
  lemma {:induction false} WithoutPairSpec(subs: seq<Sub>, payer: string, payee: string)
    ensures forall x :: x in WithoutPair(subs, payer, payee) <==> x in subs && !Matches(x, payer, payee)
    ensures |WithoutPair(subs, payer, payee)| <= |subs|
    ensures |WithoutPair(subs, payer, payee)| < |subs| <==> HasPair(subs, payer, payee)
  {
    if subs != [] {
      WithoutPairSpec(subs[1..], payer, payee);
      assert forall x :: x in subs <==> x == subs[0] || x in subs[1..];
      if HasPair(subs[1..], payer, payee) {
        var i :| 0 <= i < |subs[1..]| && Matches(subs[1..][i], payer, payee);
        assert Matches(subs[i + 1], payer, payee);
      }
      if HasPair(subs, payer, payee) && !Matches(subs[0], payer, payee) {
        var i :| 0 <= i < |subs| && Matches(subs[i], payer, payee);
        assert i > 0 && Matches(subs[1..][i - 1], payer, payee);
      }
    }
  }

  /** remove_subscription reports True exactly when an entry for the pair existed. */
  lemma RemoveSubscriptionResult(subs: seq<Sub>, payer: string, payee: string)
    ensures RemoveSubscription(subs, payer, payee).1 <==> HasPair(subs, payer, payee)
    ensures !HasPair(RemoveSubscription(subs, payer, payee).0, payer, payee)
  {
    WithoutPairSpec(subs, payer, payee);
    var kept := RemoveSubscription(subs, payer, payee).0;
    forall i | 0 <= i < |kept| ensures !Matches(kept[i], payer, payee) {
      assert kept[i] in kept;
    }
  }

  /** Without an entry for the pair the list comes back as it was. */
  lemma {:induction false} WithoutPairUnchanged(subs: seq<Sub>, payer: string, payee: string)
    requires !HasPair(subs, payer, payee)
    ensures WithoutPair(subs, payer, payee) == subs
  {
    if subs != [] {
      assert !Matches(subs[0], payer, payee);
      forall i | 0 <= i < |subs[1..]| ensures !Matches(subs[1..][i], payer, payee) {
        assert subs[1..][i] == subs[i + 1];
      }
      WithoutPairUnchanged(subs[1..], payer, payee);
      assert subs == [subs[0]] + subs[1..];
    }
  }

  lemma {:induction false} WithoutPairAppend(a: seq<Sub>, b: seq<Sub>, payer: string, payee: string)
    ensures WithoutPair(a + b, payer, payee) == WithoutPair(a, payer, payee) + WithoutPair(b, payer, payee)
  {
    if a == [] {
      assert a + b == b;
    } else {
      assert (a + b)[0] == a[0];
      assert (a + b)[1..] == a[1..] + b;
      WithoutPairAppend(a[1..], b, payer, payee);
    }
  }

  /** The entries of one payer, in order (get_subscriptions_by_payer). */
  function ByPayer(subs: seq<Sub>, payer: string): seq<Sub>
  {
    if subs == [] then []
    else (if subs[0].payer == payer then [subs[0]] else []) + ByPayer(subs[1..], payer)
  }

  /** The entries of every other payer, in order. */
  function WithoutPayer(subs: seq<Sub>, payer: string): seq<Sub>
  {
    if subs == [] then []
    else (if subs[0].payer == payer then [] else [subs[0]]) + WithoutPayer(subs[1..], payer)
  }

  /** The payees of the payer's entries, in order. */
  function PayeesOf(subs: seq<Sub>, payer: string): seq<string>
  {
    if subs == [] then []
    else (if subs[0].payer == payer then [subs[0].payee] else []) + PayeesOf(subs[1..], payer)
  }

  /** remove_all_subscriptions_by_payer: the remaining list and the payees it reports. */
  function RemoveAllByPayer(subs: seq<Sub>, payer: string): (seq<Sub>, seq<string>)
  {
    var kept := WithoutPayer(subs, payer);
    (kept, if |kept| < |subs| then PayeesOf(subs, payer) else [])
  }

  /**
   * The payer's entries and the others split the list: every entry is in
   * exactly one of them, together they are as long as the list, and the
   * reported payees are those of the payer's entries, one per entry, in order.
   */
  lemma {:induction false} ByPayerSplit(subs: seq<Sub>, payer: string)
    ensures forall x :: x in ByPayer(subs, payer) <==> x in subs && x.payer == payer
    ensures forall x :: x in WithoutPayer(subs, payer) <==> x in subs && x.payer != payer
    ensures |ByPayer(subs, payer)| + |WithoutPayer(subs, payer)| == |subs|
    ensures |PayeesOf(subs, payer)| == |ByPayer(subs, payer)|
    ensures forall i :: 0 <= i < |ByPayer(subs, payer)| ==> PayeesOf(subs, payer)[i] == ByPayer(subs, payer)[i].payee
  {
    if subs != [] {
      ByPayerSplit(subs[1..], payer);
      assert forall x :: x in subs <==> x == subs[0] || x in subs[1..];
    }
  }

  /** remove_all_subscriptions_by_payer returns exactly the payees of the entries it removed, and none remain. */
  lemma RemoveAllByPayerResult(subs: seq<Sub>, payer: string)
    ensures RemoveAllByPayer(subs, payer).1 == PayeesOf(subs, payer)
    ensures forall x :: x in RemoveAllByPayer(subs, payer).0 ==> x.payer != payer
    ensures |RemoveAllByPayer(subs, payer).1| == |subs| - |RemoveAllByPayer(subs, payer).0|
  {
    ByPayerSplit(subs, payer);
    if |WithoutPayer(subs, payer)| == |subs| {
      assert |PayeesOf(subs, payer)| == 0;
    }
  }

  /** When nothing is removed the payer had no entries and the list comes back as it was. */
  lemma {:induction false} WithoutPayerUnchanged(subs: seq<Sub>, payer: string)
    requires |WithoutPayer(subs, payer)| == |subs|
    ensures WithoutPayer(subs, payer) == subs
  {
    if subs != [] {
      ByPayerSplit(subs[1..], payer);
      WithoutPayerUnchanged(subs[1..], payer);
      assert subs == [subs[0]] + subs[1..];
    }
  }
}
