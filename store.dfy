/**
 * The persisted resources the commands share (data.py): balances, the
 * transaction log, subscriptions, companies, the governance record, the
 * notification outbox and the anomaly lock. Each data-layer function loads a
 * resource, changes it and saves it back; here that is an update of one field.
 * Every method is tied to a function on a State value, which is what the
 * command specifications are built from.
 */
module Store {
  import opened Wrappers
  import opened Names
  import opened Tables
  import opened Ledger
  import opened Subscriptions
  import opened Companies
  import opened Governance

  /** Why a command was refused, one per refusal message of commands.py. */
  datatype Reason =
    | BadFormat | BadAmount | SelfTarget | NotPositive | Insufficient | BadCycle
    | NoSubscription | NoSubscriptions | CompanyExists | CompanyFailed | NoCompany
    | NotMember | AlreadyMember | AddFailed | NotPresident

  /** What a notification says, without its text and timestamp. */
  datatype Kind =
    | Rejected(reason: Reason)
    | Received(from: string, amount: int)
    | Sent(to: string, amount: int)
    | SubscribedBy(payer: string, amount: int, cycle: Cycle)
    | SubscribedTo(payee: string, amount: int, cycle: Cycle)
    | CancelledBy(payer: string)
    | CancelledTo(payee: string)
    | CancelledAll(payees: seq<string>)
    | Founded(company: string, amount: int)
    | AddedMember(company: string, user: string)
    | AddedTo(company: string, adder: string)
    | CompanySent(company: string, amount: int)
    | SentFromCompany(company: string, to: string, amount: int)
    | Printed(amount: int)
    | Burned(amount: int)
    | TreasurySent(amount: int)
    | Spent(to: string, amount: int)
    | PaidBy(payer: string, amount: int, cycle: Cycle)
    | PaidTo(payee: string, amount: int, cycle: Cycle)
    | PaymentFailed(payee: string, amount: int)
    | PaymentFailedFrom(payer: string, amount: int)

  /** add_notification(user, message): one line appended to the user's file. */
  datatype Notice = Notice(to: string, kind: Kind)

  /** Everything the commands read and write, as one value. */
  datatype State = State(
    balances: Table, txs: seq<Tx>, subs: seq<Sub>, companies: seq<Company>,
    gov: Gov, notices: seq<Notice>, frozen: bool)

  /** What get_balance(u) reports. */
  function Bal(s: State, u: string): int
  {
    BalanceOf(s.balances, FixName(u))
  }

  /** The state after get_balance(u): an absent account now holds 100.0. */
  function Touched(s: State, u: string): State
  {
    s.(balances := Touch(s.balances, FixName(u)))
  }

  /** The state after a plain set_balance(u, v). */
  function SetBal(s: State, u: string, v: int): State
  {
    s.(balances := Put(s.balances, FixName(u), v))
  }

  /** The state after save_transaction(from, to, amount) at time `now`. */
  function Logged(s: State, from: string, to: string, amount: int, now: int): State
  {
    s.(txs := s.txs + [Tx(now, from, to, amount)])
  }

  /** The state after add_notification(u, ...). */
  function Note(s: State, u: string, k: Kind): State
  {
    s.(notices := s.notices + [Notice(FixName(u), k)])
  }

  /** A get_balance that changes nothing reports the stored balance. */
  lemma TouchedObservable(s: State, u: string, v: string)
    ensures Bal(Touched(s, u), v) == Bal(s, v)
    ensures Touched(s, u).balances.vals.Keys == s.balances.vals.Keys + {FixName(u)}
  {
  }

  class Store {
    var balances: Table
    var txs: seq<Tx>
    var subs: seq<Sub>
    var companies: seq<Company>
    var gov: Gov
    var notices: seq<Notice>
    var frozen: bool

    /** The balances file holds each account once. */
    ghost predicate Valid()
      reads this
    {
      balances.Valid()
    }

    function Snapshot(): State
      reads this
    {
      State(balances, txs, subs, companies, gov, notices, frozen)
    }

    constructor (s: State)
      ensures Snapshot() == s
      ensures Valid() == s.balances.Valid()
    {
      balances := s.balances;
      txs := s.txs;
      subs := s.subs;
      companies := s.companies;
      gov := s.gov;
      notices := s.notices;
      frozen := s.frozen;
    }

    /** get_balance: the stored balance, or 100.0 after storing it for an account not seen before. */
    method GetBalance(user: string) returns (b: int)
      modifies this`balances
      ensures b == Bal(old(Snapshot()), user)
      ensures Snapshot() == Touched(old(Snapshot()), user)
      ensures old(Valid()) ==> Valid()
    {
      var u := FixName(user);
      if u in balances.vals {
        b := balances.vals[u];
      } else {
        SetBalance(u, Initial);
        FixNameIdempotent(user);
        b := Initial;
      }
    }

    /** set_balance without its integrity hook. */
    method SetBalance(user: string, amount: int)
      modifies this`balances
      ensures Snapshot() == SetBal(old(Snapshot()), user, amount)
      ensures old(Valid()) ==> Valid()
    {
      if Valid() {
        PutValid(balances, FixName(user), amount);
      }
      balances := Put(balances, FixName(user), amount);
    }

    /**
     * verify_balance_integrity: on an anomaly the balances stay and the
     * anomaly lock is taken; otherwise every mismatched account is repaired.
     */
    method VerifyBalanceIntegrity() returns (ok: bool)
      requires Valid()
      modifies this`balances, this`frozen
      ensures Verdict(ok, balances) == Verify(old(balances), txs)
      ensures frozen == (old(frozen) || !ok)
      ensures Valid()
    {
      var expected := ComputeExpected(balances, txs);
      if Total(balances) > Total(expected) {
        frozen := true;
        return false;
      }
      HealEffect(balances, expected);
      balances := HealLoop(balances, expected);
      ok := true;
    }

    /** set_balance as data.py writes it: the write, then the integrity check against the log so far. */
    method SetBalanceHooked(user: string, amount: int)
      requires Valid()
      modifies this`balances, this`frozen
      ensures Hooked(balances, txs, frozen) == SetHooked(Hooked(old(balances), txs, old(frozen)), FixName(user), amount)
      ensures Valid()
    {
      SetBalance(user, amount);
      var _ := VerifyBalanceIntegrity();
    }

    /** save_transaction: the entry is appended with the names as given. */
    method SaveTransaction(sender: string, receiver: string, amount: int, now: int)
      modifies this`txs
      ensures Snapshot() == Logged(old(Snapshot()), sender, receiver, amount, now)
    {
      txs := txs + [Tx(now, sender, receiver, amount)];
    }

    /** add_notification. */
    method Notify(user: string, k: Kind)
      modifies this`notices
      ensures Snapshot() == Note(old(Snapshot()), user, k)
    {
      notices := notices + [Notice(FixName(user), k)];
    }

    /** add_subscription, with both names normalised. */
    method AddSubscription(payer: string, payee: string, amount: int, cycle: Cycle, lastPaid: int, nextPayment: int)
      modifies this`subs
      ensures subs == Upserted(old(subs), Sub(FixName(payer), FixName(payee), amount, cycle, lastPaid, nextPayment))
    {
      subs := Subscriptions.AddSubscription(subs, Sub(FixName(payer), FixName(payee), amount, cycle, lastPaid, nextPayment));
    }

    /** _subscriptions_save: the whole list replaced. */
    method SaveSubscriptions(list: seq<Sub>)
      modifies this`subs
      ensures Snapshot() == old(Snapshot()).(subs := list)
    {
      subs := list;
    }

    /** remove_subscription. */
    method RemoveSubscription(payer: string, payee: string) returns (removed: bool)
      modifies this`subs
      ensures (subs, removed) == Subscriptions.RemoveSubscription(old(subs), FixName(payer), FixName(payee))
    {
      var r := Subscriptions.RemoveSubscription(subs, FixName(payer), FixName(payee));
      subs, removed := r.0, r.1;
    }

    /** remove_all_subscriptions_by_payer. */
    method RemoveAllByPayer(payer: string) returns (payees: seq<string>)
      modifies this`subs
      ensures (subs, payees) == Subscriptions.RemoveAllByPayer(old(subs), FixName(payer))
    {
      var r := Subscriptions.RemoveAllByPayer(subs, FixName(payer));
      subs, payees := r.0, r.1;
    }

    /** get_company_data. */
    function CompanyDataOf(name: string): Option<Company>
      reads this`companies
    {
      CompanyData(companies, FixName(name))
    }

    /** is_company_member. */
    function IsMember(company: string, user: string): bool
      reads this`companies
    {
      IsCompanyMember(companies, FixName(company), FixName(user))
    }

    /** add_company. */
    method AddCompany(name: string, founder: string) returns (ok: bool)
      modifies this`companies
      ensures (companies, ok) == Companies.AddCompany(old(companies), FixName(name), FixName(founder))
    {
      var r := Companies.AddCompany(companies, FixName(name), FixName(founder));
      companies, ok := r.0, r.1;
    }

    /** add_company_member. */
    method AddCompanyMember(company: string, user: string) returns (ok: bool)
      modifies this`companies
      ensures (companies, ok) == MemberAdded(old(companies), FixName(company), FixName(user))
    {
      companies, ok := Companies.AddCompanyMember(companies, FixName(company), FixName(user));
    }

    /** get_current_holder. */
    function CurrentHolder(position: string): Option<string>
      reads this`gov
    {
      Holder(gov, FixName(position))
    }

    /** vote_candidate, with both names normalised. */
    method VoteCandidate(candidate: string, voter: string, now: int) returns (ok: bool)
      modifies this`gov
      ensures (gov, ok) == Vote(old(gov), FixName(candidate), FixName(voter), now)
    {
      var r := Vote(gov, FixName(candidate), FixName(voter), now);
      gov, ok := r.0, r.1;
    }

    /** check_and_update_elections. */
    method CheckAndUpdateElections(now: int)
      modifies this`gov
      ensures gov.elections.Keys == old(gov).elections.Keys
      ensures forall p :: p in old(gov).elections ==>
                gov.elections[p] == if Due(old(gov).elections[p], now) then Fresh(now) else old(gov).elections[p]
      ensures forall p :: Holder(gov, p) ==
                if p in old(gov).elections && Due(old(gov).elections[p], now) then Holder(Finalize(old(gov), p, now), p)
                else Holder(old(gov), p)
    {
      gov := CheckElections(gov, now);
    }
  }
}
