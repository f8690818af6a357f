/**
 * The comment commands of commands.py and the subscription billing tick.
 * Each command is a function from the State before to the State after (its
 * specification), written in the order the source calls into the data layer,
 * and a method on the Store that makes those calls; the lemmas below say
 * what each command does to the ledger in terms of balances, the log and
 * the notices.
 *
 * Every transfer debits the source account and then credits the receiver's
 * balance as it stands after the debit (Ledger.Move). commands.py credits
 * the balance read before the debit; the two differ only when both accounts
 * are the same, which `s`, `sub` and `sendco` refuse beforehand but `spend`
 * to the treasury and a company sending to itself do not.
 */
module Commands {
  import opened Wrappers
  import opened Names
  import opened Tables
  import opened Ledger
  import opened Subscriptions
  import opened Companies
  import opened Governance
  import opened Store

  /** One word of a comment: its text and, when `float()` accepts it, its value in tenths after `round(_, 1)`. */
  datatype Part = Part(text: string, amount: Option<int>)

  const Treasury: string := "officialtreasury"
  const Mint: string := "mint"
  const BurnSink: string := "burn"
  const CompanySuffix: string := "company"

  /** A company name is longer than its founder's. */
  lemma SuffixNonEmpty()
    ensures |FixName(CompanySuffix)| > 0
  {
    assert FixName(CompanySuffix)[0] == 'c';
  }

  /** `lstrip("!")`: every leading '!' removed. */
  function StripBang(t: string): (r: string)
    ensures |r| <= |t| && r == t[|t| - |r|..]
    ensures r == [] || r[0] != '!'
    ensures forall i :: 0 <= i < |t| - |r| ==> t[i] == '!'
  {
    if t != [] && t[0] == '!' then StripBang(t[1..]) else t
  }

  /** The command word: the first part lower-cased, leading '!' removed. */
  function Keyword(t: string): string
  {
    StripBang(LowerAll(t))
  }

  /** The command word ignores case and any number of leading '!'. */
  lemma KeywordSpec(t: string)
    ensures Keyword(LowerAll(t)) == Keyword(t)
    ensures Keyword("!" + t) == Keyword(t)
  {
    assert LowerAll(LowerAll(t)) == LowerAll(t);
    assert LowerAll("!" + t) == "!" + LowerAll(t);
    assert ("!" + LowerAll(t))[1..] == LowerAll(t);
  }

  /** A refusal: one notice to the sender, nothing else changes. */
  function Refuse(s: State, sender: string, why: Reason): State
  {
    Note(s, sender, Rejected(why))
  }

  /**
   * The debit and credit of a transfer between accounts that have both
   * been read: `amount` leaves `from` and then arrives at `to`.
   */
  function Moved(s: State, from: string, to: string, amount: int): State
  {
    s.(balances := Move(s.balances, FixName(from), FixName(to), amount))
  }

  /** A transfer as the commands make it: both accounts read, the amount moved, the entry logged. */
  function Paid(s: State, from: string, to: string, amount: int, now: int): State
  {
    Logged(Moved(Touched(Touched(s, from), to), from, to, amount), from, to, amount, now)
  }

  /** The same notice to each user in turn. */
  function NoteAll(s: State, users: seq<string>, k: Kind): State
  {
    if users == [] then s else Note(NoteAll(s, users[..|users| - 1], k), users[|users| - 1], k)
  }

  // ---------------------------------------------------------------- s

  /** `s <user> <amount>`: a transfer from the sender to another account. */
  function SendSpec(s: State, sender: string, parts: seq<Part>, now: int): State
  {
    if |parts| != 3 then Refuse(s, sender, BadFormat)
    else
      var receiver := FixName(parts[1].text);
      if parts[2].amount.None? then Refuse(s, sender, BadAmount)
      else
        var amount := parts[2].amount.value;
        if sender == receiver then Refuse(s, sender, SelfTarget)
        else if amount <= 0 then Refuse(s, sender, NotPositive)
        else
          var sb := Bal(s, sender);
          var s1 := Touched(s, sender);
          if sb < amount then Refuse(s1, sender, Insufficient)
          else
            var s2 := Paid(s, sender, receiver, amount, now);
            Note(Note(s2, receiver, Received(sender, amount)), sender, Sent(receiver, amount))
  }

  // ---------------------------------------------------------------- sub

  /** `sub <user> <amount> <cycle>`: a first payment and a standing order. */
  function SubSpec(s: State, sender: string, parts: seq<Part>, now: int): State
  {
    if |parts| != 4 then Refuse(s, sender, BadFormat)
    else
      var payee := FixName(parts[1].text);
      if parts[2].amount.None? then Refuse(s, sender, BadAmount)
      else
        var amount := parts[2].amount.value;
        var cycle := ParseCycle(LowerAll(parts[3].text));
        if cycle.None? then Refuse(s, sender, BadCycle)
        else if sender == payee then Refuse(s, sender, SelfTarget)
        else if amount <= 0 then Refuse(s, sender, NotPositive)
        else
          var sb := Bal(s, sender);
          var s1 := Touched(s, sender);
          if sb < amount then Refuse(s1, sender, Insufficient)
          else
            var s2 := Paid(s, sender, payee, amount, now);
            var entry := Sub(FixName(sender), FixName(payee), amount, cycle.value, now, now + CycleSeconds(cycle.value));
            var s3 := s2.(subs := Upserted(s2.subs, entry));
            Note(Note(s3, payee, SubscribedBy(sender, amount, cycle.value)), sender, SubscribedTo(payee, amount, cycle.value))
  }

  // ---------------------------------------------------------------- can, canall

  /** `can <user>`: the sender's standing orders to that user are cancelled. */
  function CanSpec(s: State, sender: string, parts: seq<Part>): State
  {
    if |parts| != 2 then Refuse(s, sender, BadFormat)
    else CancelPair(s, sender, FixName(parts[1].text))
  }

  /** The two-word case of `can`, for normalised names. */
  function CancelPair(s: State, sender: string, payee: string): State
  {
    var (kept, removed) := RemoveSubscription(s.subs, FixName(sender), FixName(payee));
    var s1 := s.(subs := kept);
    if removed then Note(Note(s1, payee, CancelledBy(sender)), sender, CancelledTo(payee))
    else Refuse(s1, sender, NoSubscription)
  }

  /** `canall`: all of the sender's standing orders are cancelled. */
  function CanAllSpec(s: State, sender: string, parts: seq<Part>): State
  {
    if |parts| != 1 then Refuse(s, sender, BadFormat)
    else CancelAllOf(s, sender)
  }

  /** The one-word case of `canall`, for a normalised name. */
  function CancelAllOf(s: State, sender: string): State
  {
    var (kept, payees) := RemoveAllByPayer(s.subs, FixName(sender));
    var s1 := s.(subs := kept);
    if payees != [] then Note(NoteAll(s1, payees, CancelledBy(sender)), sender, CancelledAll(payees))
    else Refuse(s1, sender, NoSubscriptions)
  }

  // ---------------------------------------------------------------- found, add

  /** `found <amount>`: the company `<sender>company` is registered and funded. */
  function FoundSpec(s: State, sender: string, parts: seq<Part>, now: int): State
  {
    if |parts| != 2 then Refuse(s, sender, BadFormat)
    else if parts[1].amount.None? then Refuse(s, sender, BadAmount)
    else
      var amount := parts[1].amount.value;
      if amount <= 0 then Refuse(s, sender, NotPositive)
      else
        var company := sender + CompanySuffix;
        if CompanyData(s.companies, FixName(company)).Some? then Refuse(s, sender, CompanyExists)
        else
          Funded(s, sender, company, amount, now)
  }

  /**
   * The founding proper, once the name is known to be free: the sender is
   * debited when the balance allows, the company account is set to the
   * amount, the transfer is logged and the company registered.
   */
  function Funded(s: State, sender: string, company: string, amount: int, now: int): State
  {
    var sb := Bal(s, sender);
    var s1 := Touched(s, sender);
    if sb < amount then Refuse(s1, sender, Insufficient)
    else
      var s2 := Logged(SetBal(SetBal(s1, sender, sb - amount), company, amount), sender, company, amount, now);
      var (cs, ok) := AddCompany(s2.companies, FixName(company), FixName(sender));
      var s3 := s2.(companies := cs);
      Note(s3, sender, if ok then Founded(company, amount) else Rejected(CompanyFailed))
  }

  /** `add <company> <user>`: a member of the company adds another. */
  function AddSpec(s: State, sender: string, parts: seq<Part>): State
  {
    if |parts| != 3 then Refuse(s, sender, BadFormat)
    else AddTo(s, sender, FixName(parts[1].text), FixName(parts[2].text))
  }

  /** The three-word case of `add`. */
  function AddTo(s: State, sender: string, company: string, user: string): State
  {
    match CompanyData(s.companies, FixName(company))
    case None => Refuse(s, sender, NoCompany)
    case Some(c) =>
      if !IsCompanyMember(s.companies, FixName(company), FixName(sender)) then Refuse(s, sender, NotMember)
      else if user in c.members then Refuse(s, sender, AlreadyMember)
      else
        var (cs, ok) := MemberAdded(s.companies, FixName(company), FixName(user));
        var s1 := Note(s.(companies := cs), sender, if ok then AddedMember(company, user) else Rejected(AddFailed));
        if ok then Note(s1, user, AddedTo(company, sender)) else s1
  }

  // ---------------------------------------------------------------- sendco

  /** `sendco <company> <user> <amount>`: a member pays out of the company account. */
  function SendCoSpec(s: State, sender: string, parts: seq<Part>, now: int): State
  {
    if |parts| != 4 then Refuse(s, sender, BadFormat)
    else
      var company := FixName(parts[1].text);
      var recipient := FixName(parts[2].text);
      if parts[3].amount.None? then Refuse(s, sender, BadAmount)
      else
        var amount := parts[3].amount.value;
        if amount <= 0 then Refuse(s, sender, NotPositive)
        else if sender == recipient then Refuse(s, sender, SelfTarget)
        else if CompanyData(s.companies, FixName(company)).None? then Refuse(s, sender, NoCompany)
        else if !IsCompanyMember(s.companies, FixName(company), FixName(sender)) then Refuse(s, sender, NotMember)
        else
          var cb := Bal(s, company);
          var s1 := Touched(s, company);
          if cb < amount then Refuse(s1, sender, Insufficient)
          else
            var s2 := Paid(s, company, recipient, amount, now);
            Note(Note(s2, recipient, CompanySent(company, amount)), sender, SentFromCompany(company, recipient, amount))
  }

  // ---------------------------------------------------------------- print, burn, spend

  /** Whether the sender holds the presidency; nobody does while the office is empty. */
  predicate IsPresident(s: State, sender: string)
  {
    Holder(s.gov, FixName(President)) == Some(sender)
  }

  /** What the president's commands demand: `n` words, the sender in office, a positive amount. */
  predicate PresidentAllowed(s: State, sender: string, parts: seq<Part>, n: nat)
  {
    |parts| == n && n >= 2 && IsPresident(s, sender) && parts[1].amount.Some? && parts[1].amount.value > 0
  }

  /**
   * The checks `print`, `burn` and `spend` share, in their order: the word
   * count, the office, the amount, its sign. The first that fails is the
   * reason for the refusal; none fails exactly when PresidentAllowed holds.
   */
  function PresidentRefusal(s: State, sender: string, parts: seq<Part>, n: nat): (r: Option<Reason>)
    requires n >= 2
    ensures r.None? <==> PresidentAllowed(s, sender, parts, n)
  {
    if |parts| != n then Some(BadFormat)
    else if !IsPresident(s, sender) then Some(NotPresident)
    else if parts[1].amount.None? then Some(BadAmount)
    else if parts[1].amount.value <= 0 then Some(NotPositive)
    else None
  }

  /** `print <amount>`: the president mints into the treasury. */
  function PrintSpec(s: State, sender: string, parts: seq<Part>, now: int): State
  {
    PrintInto(s, sender, parts, now, Treasury, Mint)
  }

  /** `print`, with the treasury account and the "mint" source as parameters. */
  function PrintInto(s: State, sender: string, parts: seq<Part>, now: int, treasury: string, mint: string): State
  {
    match PresidentRefusal(s, sender, parts, 2)
    case Some(why) => Refuse(s, sender, why)
    case None => Minted(s, sender, treasury, mint, parts[1].amount.value, now)
  }

  /** `account` raised by `amount`, the issue logged as coming from `source` ("mint"). */
  function Minted(s: State, sender: string, account: string, source: string, amount: int, now: int): State
  {
    var tb := Bal(s, account);
    var s1 := Logged(SetBal(Touched(s, account), account, tb + amount), source, account, amount, now);
    Note(s1, sender, Printed(amount))
  }

  /** `burn <amount>`: the president destroys treasury funds. */
  function BurnSpec(s: State, sender: string, parts: seq<Part>, now: int): State
  {
    BurnFromAccount(s, sender, parts, now, Treasury, BurnSink)
  }

  /** `burn`, with the treasury account and the "burn" sink as parameters. */
  function BurnFromAccount(s: State, sender: string, parts: seq<Part>, now: int, treasury: string, sink: string): State
  {
    match PresidentRefusal(s, sender, parts, 2)
    case Some(why) => Refuse(s, sender, why)
    case None => Destroyed(s, sender, treasury, sink, parts[1].amount.value, now)
  }

  /** `account` lowered by `amount` when it holds that much, the loss logged as going to `sink` ("burn"). */
  function Destroyed(s: State, sender: string, account: string, sink: string, amount: int, now: int): State
  {
    var tb := Bal(s, account);
    var s1 := Touched(s, account);
    if tb < amount then Refuse(s1, sender, Insufficient)
    else
      var s2 := Logged(SetBal(s1, account, tb - amount), account, sink, amount, now);
      Note(s2, sender, Burned(amount))
  }

  /** `spend <amount> <user>`: the president pays out of the treasury. */
  function SpendSpec(s: State, sender: string, parts: seq<Part>, now: int): State
  {
    SpendFromAccount(s, sender, parts, now, Treasury)
  }

  /** `spend`, with the treasury account as a parameter. */
  function SpendFromAccount(s: State, sender: string, parts: seq<Part>, now: int, treasury: string): State
  {
    match PresidentRefusal(s, sender, parts, 3)
    case Some(why) => Refuse(s, sender, why)
    case None => Disbursed(s, sender, treasury, FixName(parts[2].text), parts[1].amount.value, now)
  }

  /** A transfer from `account` to `target` when `account` holds enough. */
  function Disbursed(s: State, sender: string, account: string, target: string, amount: int, now: int): State
  {
    var tb := Bal(s, account);
    var s1 := Touched(s, account);
    if tb < amount then Refuse(s1, sender, Insufficient)
    else
      var s2 := Paid(s, account, target, amount, now);
      Note(Note(s2, target, TreasurySent(amount)), sender, Spent(target, amount))
  }

  // ---------------------------------------------------------------- dispatch

  /** process_comment_command: the command word picks the command; any other word changes nothing. */
  function Process(s: State, author: string, parts: seq<Part>, now: int): State
    requires |parts| > 0
  {
    var command := Keyword(parts[0].text);
    var sender := FixName(author);
    if command == "s" then SendSpec(s, sender, parts, now)
    else if command == "sub" then SubSpec(s, sender, parts, now)
    else if command == "can" then CanSpec(s, sender, parts)
    else if command == "canall" then CanAllSpec(s, sender, parts)
    else if command == "found" then FoundSpec(s, sender, parts, now)
    else if command == "add" then AddSpec(s, sender, parts)
    else if command == "sendco" then SendCoSpec(s, sender, parts, now)
    else if command == "print" then PrintSpec(s, sender, parts, now)
    else if command == "burn" then BurnSpec(s, sender, parts, now)
    else if command == "spend" then SpendSpec(s, sender, parts, now)
    else s
  }

  // ---------------------------------------------------------------- billing

  /** A paid order: last paid now, next due one cycle from now. */
  function Renew(sub: Sub, now: int): (r: Sub)
    ensures r.nextPayment > now
  {
    sub.(lastPaid := now, nextPayment := now + CycleSeconds(sub.cycle))
  }

  /**
   * One standing order at billing time, given the state so far and the
   * orders kept so far: an order not yet due is kept as it is; a due order
   * the payer can cover is paid and kept with its dates moved on; a due
   * order the payer cannot cover is dropped, with a notice to both sides.
   */
  function ChargeStep(s: State, kept: seq<Sub>, sub: Sub, now: int): (State, seq<Sub>)
  {
    if now >= sub.nextPayment then
      var pb := Bal(s, sub.payer);
      var s1 := Touched(s, sub.payer);
      if pb >= sub.amount then
        var s2 := Paid(s, sub.payer, sub.payee, sub.amount, now);
        var s3 := Note(Note(s2, sub.payee, PaidBy(sub.payer, sub.amount, sub.cycle)), sub.payer, PaidTo(sub.payee, sub.amount, sub.cycle));
        (s3, kept + [Renew(sub, now)])
      else
        (Note(Note(s1, sub.payer, PaymentFailed(sub.payee, sub.amount)), sub.payee, PaymentFailedFrom(sub.payer, sub.amount)), kept)
    else (s, kept + [sub])
  }

  /** The orders `subs` processed in turn. */
  function Charge(s: State, subs: seq<Sub>, now: int): (State, seq<Sub>)
  {
    if subs == [] then (s, [])
    else
      var (s1, kept) := Charge(s, subs[..|subs| - 1], now);
      ChargeStep(s1, kept, subs[|subs| - 1], now)
  }

  /** One pass of the subscription processor at time `now`. */
  function TickSpec(s: State, now: int): State
  {
    var (s1, kept) := Charge(s, s.subs, now);
    s1.(subs := kept)
  }

  // ================================================================ methods

  /**
   * The transfer steps of every command: the receiver is read (and so
   * created), the source debited, and the receiver credited from its
   * balance after the debit.
   */
  method Pay(st: Store, from: string, to: string, amount: int, fromBalance: int)
    requires FixName(from) in st.balances.vals && fromBalance == Bal(st.Snapshot(), from)
    modifies st
    ensures st.Snapshot() == Moved(Touched(old(st.Snapshot()), to), from, to, amount)
  {
    var _ := st.GetBalance(to);
    st.SetBalance(from, fromBalance - amount);
    var toBalance := st.GetBalance(to);
    st.SetBalance(to, toBalance + amount);
  }

  method Send(st: Store, sender: string, parts: seq<Part>, now: int)
    modifies st
    ensures st.Snapshot() == SendSpec(old(st.Snapshot()), sender, parts, now)
  {
    if |parts| != 3 {
      st.Notify(sender, Rejected(BadFormat));
      return;
    }
    var receiver := FixName(parts[1].text);
    if parts[2].amount.None? {
      st.Notify(sender, Rejected(BadAmount));
      return;
    }
    var amount := parts[2].amount.value;
    if sender == receiver {
      st.Notify(sender, Rejected(SelfTarget));
      return;
    }
    if amount <= 0 {
      st.Notify(sender, Rejected(NotPositive));
      return;
    }
    var sb := st.GetBalance(sender);
    if sb < amount {
      st.Notify(sender, Rejected(Insufficient));
      return;
    }
    Pay(st, sender, receiver, amount, sb);
    st.SaveTransaction(sender, receiver, amount, now);
    st.Notify(receiver, Received(sender, amount));
    st.Notify(sender, Sent(receiver, amount));
  }

  method Subscribe(st: Store, sender: string, parts: seq<Part>, now: int)
    modifies st
    ensures st.Snapshot() == SubSpec(old(st.Snapshot()), sender, parts, now)
  {
    if |parts| != 4 {
      st.Notify(sender, Rejected(BadFormat));
      return;
    }
    var payee := FixName(parts[1].text);
    if parts[2].amount.None? {
      st.Notify(sender, Rejected(BadAmount));
      return;
    }
    var amount := parts[2].amount.value;
    var cycle := ParseCycle(LowerAll(parts[3].text));
    if cycle.None? {
      st.Notify(sender, Rejected(BadCycle));
      return;
    }
    if sender == payee {
      st.Notify(sender, Rejected(SelfTarget));
      return;
    }
    if amount <= 0 {
      st.Notify(sender, Rejected(NotPositive));
      return;
    }
    var sb := st.GetBalance(sender);
    if sb < amount {
      st.Notify(sender, Rejected(Insufficient));
      return;
    }
    Pay(st, sender, payee, amount, sb);
    st.SaveTransaction(sender, payee, amount, now);
    st.AddSubscription(sender, payee, amount, cycle.value, now, now + CycleSeconds(cycle.value));
    st.Notify(payee, SubscribedBy(sender, amount, cycle.value));
    st.Notify(sender, SubscribedTo(payee, amount, cycle.value));
  }

  method Cancel(st: Store, sender: string, parts: seq<Part>)
    modifies st
    ensures st.Snapshot() == CanSpec(old(st.Snapshot()), sender, parts)
  {
    if |parts| != 2 {
      st.Notify(sender, Rejected(BadFormat));
      return;
    }
    var payee := FixName(parts[1].text);
    var removed := st.RemoveSubscription(sender, payee);
    if removed {
      st.Notify(payee, CancelledBy(sender));
      st.Notify(sender, CancelledTo(payee));
    } else {
      st.Notify(sender, Rejected(NoSubscription));
    }
  }

  method CancelAll(st: Store, sender: string, parts: seq<Part>)
    modifies st
    ensures st.Snapshot() == CanAllSpec(old(st.Snapshot()), sender, parts)
  {
    if |parts| != 1 {
      st.Notify(sender, Rejected(BadFormat));
      return;
    }
    var payees := st.RemoveAllByPayer(sender);
    if payees != [] {
      ghost var s1 := st.Snapshot();
      for i := 0 to |payees|
        invariant st.Snapshot() == NoteAll(s1, payees[..i], CancelledBy(sender))
      {
        assert payees[..i + 1][..i] == payees[..i];
        st.Notify(payees[i], CancelledBy(sender));
      }
      assert payees[..|payees|] == payees;
      st.Notify(sender, CancelledAll(payees));
    } else {
      st.Notify(sender, Rejected(NoSubscriptions));
    }
  }

  method Found(st: Store, sender: string, parts: seq<Part>, now: int)
    modifies st
    ensures st.Snapshot() == FoundSpec(old(st.Snapshot()), sender, parts, now)
  {
    if |parts| != 2 {
      st.Notify(sender, Rejected(BadFormat));
      return;
    }
    if parts[1].amount.None? {
      st.Notify(sender, Rejected(BadAmount));
      return;
    }
    var amount := parts[1].amount.value;
    if amount <= 0 {
      st.Notify(sender, Rejected(NotPositive));
      return;
    }
    var company := sender + CompanySuffix;
    if st.CompanyDataOf(company).Some? {
      st.Notify(sender, Rejected(CompanyExists));
      return;
    }
    FundCompany(st, sender, company, amount, now);
  }

  method FundCompany(st: Store, sender: string, company: string, amount: int, now: int)
    modifies st
    ensures st.Snapshot() == Funded(old(st.Snapshot()), sender, company, amount, now)
  {
    var sb := st.GetBalance(sender);
    if sb < amount {
      st.Notify(sender, Rejected(Insufficient));
      return;
    }
    st.SetBalance(sender, sb - amount);
    st.SetBalance(company, amount);
    st.SaveTransaction(sender, company, amount, now);
    var ok := st.AddCompany(company, sender);
    st.Notify(sender, if ok then Founded(company, amount) else Rejected(CompanyFailed));
  }

  method AddMember(st: Store, sender: string, parts: seq<Part>)
    modifies st
    ensures st.Snapshot() == AddSpec(old(st.Snapshot()), sender, parts)
  {
    if |parts| != 3 {
      st.Notify(sender, Rejected(BadFormat));
      return;
    }
    var company := FixName(parts[1].text);
    var user := FixName(parts[2].text);
    var data := st.CompanyDataOf(company);
    if data.None? {
      st.Notify(sender, Rejected(NoCompany));
      return;
    }
    if !st.IsMember(company, sender) {
      st.Notify(sender, Rejected(NotMember));
      return;
    }
    if user in data.value.members {
      st.Notify(sender, Rejected(AlreadyMember));
      return;
    }
    var ok := st.AddCompanyMember(company, user);
    st.Notify(sender, if ok then AddedMember(company, user) else Rejected(AddFailed));
    if ok {
      st.Notify(user, AddedTo(company, sender));
    }
  }

  method SendFromCompany(st: Store, sender: string, parts: seq<Part>, now: int)
    modifies st
    ensures st.Snapshot() == SendCoSpec(old(st.Snapshot()), sender, parts, now)
  {
    if |parts| != 4 {
      st.Notify(sender, Rejected(BadFormat));
      return;
    }
    var company := FixName(parts[1].text);
    var recipient := FixName(parts[2].text);
    if parts[3].amount.None? {
      st.Notify(sender, Rejected(BadAmount));
      return;
    }
    var amount := parts[3].amount.value;
    if amount <= 0 {
      st.Notify(sender, Rejected(NotPositive));
      return;
    }
    if sender == recipient {
      st.Notify(sender, Rejected(SelfTarget));
      return;
    }
    if st.CompanyDataOf(company).None? {
      st.Notify(sender, Rejected(NoCompany));
      return;
    }
    if !st.IsMember(company, sender) {
      st.Notify(sender, Rejected(NotMember));
      return;
    }
    var cb := st.GetBalance(company);
    if cb < amount {
      st.Notify(sender, Rejected(Insufficient));
      return;
    }
    Pay(st, company, recipient, amount, cb);
    st.SaveTransaction(company, recipient, amount, now);
    st.Notify(recipient, CompanySent(company, amount));
    st.Notify(sender, SentFromCompany(company, recipient, amount));
  }

  method PrintMoney(st: Store, sender: string, parts: seq<Part>, now: int)
    modifies st
    ensures st.Snapshot() == PrintSpec(old(st.Snapshot()), sender, parts, now)
  {
    if |parts| != 2 {
      st.Notify(sender, Rejected(BadFormat));
      return;
    }
    if st.CurrentHolder(President) != Some(sender) {
      st.Notify(sender, Rejected(NotPresident));
      return;
    }
    if parts[1].amount.None? {
      st.Notify(sender, Rejected(BadAmount));
      return;
    }
    var amount := parts[1].amount.value;
    if amount <= 0 {
      st.Notify(sender, Rejected(NotPositive));
      return;
    }
    MintInto(st, sender, Treasury, amount, now);
  }

  method MintInto(st: Store, sender: string, account: string, amount: int, now: int)
    modifies st
    ensures st.Snapshot() == Minted(old(st.Snapshot()), sender, account, Mint, amount, now)
  {
    var bal := st.GetBalance(account);
    st.SetBalance(account, bal + amount);
    st.SaveTransaction(Mint, account, amount, now);
    st.Notify(sender, Printed(amount));
  }

  method Burn(st: Store, sender: string, parts: seq<Part>, now: int)
    modifies st
    ensures st.Snapshot() == BurnSpec(old(st.Snapshot()), sender, parts, now)
  {
    if |parts| != 2 {
      st.Notify(sender, Rejected(BadFormat));
      return;
    }
    if st.CurrentHolder(President) != Some(sender) {
      st.Notify(sender, Rejected(NotPresident));
      return;
    }
    if parts[1].amount.None? {
      st.Notify(sender, Rejected(BadAmount));
      return;
    }
    var amount := parts[1].amount.value;
    if amount <= 0 {
      st.Notify(sender, Rejected(NotPositive));
      return;
    }
    BurnFrom(st, sender, Treasury, amount, now);
  }

  method BurnFrom(st: Store, sender: string, account: string, amount: int, now: int)
    modifies st
    ensures st.Snapshot() == Destroyed(old(st.Snapshot()), sender, account, BurnSink, amount, now)
  {
    var bal := st.GetBalance(account);
    if bal < amount {
      st.Notify(sender, Rejected(Insufficient));
      return;
    }
    st.SetBalance(account, bal - amount);
    st.SaveTransaction(account, BurnSink, amount, now);
    st.Notify(sender, Burned(amount));
  }

  method Spend(st: Store, sender: string, parts: seq<Part>, now: int)
    modifies st
    ensures st.Snapshot() == SpendSpec(old(st.Snapshot()), sender, parts, now)
  {
    if |parts| != 3 {
      st.Notify(sender, Rejected(BadFormat));
      return;
    }
    if st.CurrentHolder(President) != Some(sender) {
      st.Notify(sender, Rejected(NotPresident));
      return;
    }
    if parts[1].amount.None? {
      st.Notify(sender, Rejected(BadAmount));
      return;
    }
    var amount := parts[1].amount.value;
    if amount <= 0 {
      st.Notify(sender, Rejected(NotPositive));
      return;
    }
    var target := FixName(parts[2].text);
    SpendFrom(st, sender, Treasury, target, amount, now);
  }

  method SpendFrom(st: Store, sender: string, account: string, target: string, amount: int, now: int)
    modifies st
    ensures st.Snapshot() == Disbursed(old(st.Snapshot()), sender, account, target, amount, now)
  {
    var tb := st.GetBalance(account);
    if tb < amount {
      st.Notify(sender, Rejected(Insufficient));
      return;
    }
    Pay(st, account, target, amount, tb);
    st.SaveTransaction(account, target, amount, now);
    st.Notify(target, TreasurySent(amount));
    st.Notify(sender, Spent(target, amount));
  }

  /** process_comment_command. */
  method ProcessCommand(st: Store, author: string, parts: seq<Part>, now: int)
    requires |parts| > 0
    modifies st
    ensures st.Snapshot() == Process(old(st.Snapshot()), author, parts, now)
  {
    var command := Keyword(parts[0].text);
    var sender := FixName(author);
    if command == "s" {
      Send(st, sender, parts, now);
    } else if command == "sub" {
      Subscribe(st, sender, parts, now);
    } else if command == "can" {
      Cancel(st, sender, parts);
    } else if command == "canall" {
      CancelAll(st, sender, parts);
    } else if command == "found" {
      Found(st, sender, parts, now);
    } else if command == "add" {
      AddMember(st, sender, parts);
    } else if command == "sendco" {
      SendFromCompany(st, sender, parts, now);
    } else if command == "print" {
      PrintMoney(st, sender, parts, now);
    } else if command == "burn" {
      Burn(st, sender, parts, now);
    } else if command == "spend" {
      Spend(st, sender, parts, now);
    }
  }

  /** The body of the billing loop for one order; returns the orders kept so far. */
  method ChargeOne(st: Store, kept: seq<Sub>, sub: Sub, now: int) returns (r: seq<Sub>)
    modifies st
    ensures (st.Snapshot(), r) == ChargeStep(old(st.Snapshot()), kept, sub, now)
  {
    r := kept;
    if now >= sub.nextPayment {
      var pb := st.GetBalance(sub.payer);
      if pb >= sub.amount {
        Pay(st, sub.payer, sub.payee, sub.amount, pb);
        st.SaveTransaction(sub.payer, sub.payee, sub.amount, now);
        st.Notify(sub.payee, PaidBy(sub.payer, sub.amount, sub.cycle));
        st.Notify(sub.payer, PaidTo(sub.payee, sub.amount, sub.cycle));
        r := r + [Renew(sub, now)];
      } else {
        st.Notify(sub.payer, PaymentFailed(sub.payee, sub.amount));
        st.Notify(sub.payee, PaymentFailedFrom(sub.payer, sub.amount));
      }
    } else {
      r := r + [sub];
    }
  }

  /** One pass of subscription_processor_thread. */
  method BillingTick(st: Store, now: int)
    modifies st
    ensures st.Snapshot() == TickSpec(old(st.Snapshot()), now)
  {
    var subs := st.subs;
    ghost var s0 := st.Snapshot();
    var updated: seq<Sub> := [];
    for i := 0 to |subs|
      invariant (st.Snapshot(), updated) == Charge(s0, subs[..i], now)
    {
      assert subs[..i + 1][..i] == subs[..i];
      updated := ChargeOne(st, updated, subs[i], now);
    }
    assert subs[..|subs|] == subs;
    st.SaveSubscriptions(updated);
  }

  // ================================================================ properties

  /**
   * `r` is `s` refused: every balance reads as before, the log, the orders,
   * the companies and the offices are untouched, and the only new notice is
   * one refusal to the sender.
   */
  ghost predicate Refused(s: State, r: State, sender: string)
  {
    && (forall u :: Bal(r, u) == Bal(s, u))
    && r.txs == s.txs && r.subs == s.subs && r.companies == s.companies && r.gov == s.gov && r.frozen == s.frozen
    && |r.notices| == |s.notices| + 1 && r.notices[..|s.notices|] == s.notices
    && r.notices[|s.notices|].to == FixName(sender) && r.notices[|s.notices|].kind.Rejected?
  }

  /**
   * `r` is `s` after one logged transfer: `amount` left `from` and reached
   * `to`, every other balance reads as before, both accounts now exist, one
   * entry was appended to the log, and the offices are untouched.
   */
  ghost predicate Transferred(s: State, r: State, from: string, to: string, amount: int, now: int)
  {
    && (forall u :: Bal(r, u) == Bal(s, u) - (if FixName(u) == FixName(from) then amount else 0)
                                             + (if FixName(u) == FixName(to) then amount else 0))
    && r.balances.vals.Keys == s.balances.vals.Keys + {FixName(from), FixName(to)}
    && r.txs == s.txs + [Tx(now, from, to, amount)]
    && r.gov == s.gov && r.frozen == s.frozen
  }

  /**
   * The ledger agrees with its log and stores every account the log names;
   * the integrity check then accepts it and repairs nothing
   * (Ledger.VerifyAcceptsConsistent).
   */
  ghost predicate Balanced(s: State)
  {
    s.balances.Valid() && Consistent(s.balances, s.txs) && Parties(s.txs) <= s.balances.vals.Keys
  }

  /** A refusal, before or after the balance check, is a Refused state. */
  lemma RefusalRefuses(s: State, u: string, sender: string, why: Reason)
    ensures Refused(s, Refuse(s, sender, why), sender)
    ensures Refused(s, Refuse(Touched(s, u), sender, why), sender)
  {
    forall v ensures Bal(Touched(s, u), v) == Bal(s, v) {
      TouchedObservable(s, u, v);
    }
  }

  /** The reads, writes and log entry of a transfer make a Transferred state. */
  lemma TransferEffect(s: State, from: string, to: string, amount: int, now: int)
    ensures Transferred(s, Paid(s, from, to, amount, now), from, to, amount, now)
  {
    var b := Touched(Touched(s, from), to).balances;
    forall u ensures BalanceOf(Move(b, FixName(from), FixName(to), amount), FixName(u)) ==
                     Bal(s, u) - (if FixName(u) == FixName(from) then amount else 0) + (if FixName(u) == FixName(to) then amount else 0)
    {
      MoveAt(b, FixName(from), FixName(to), amount, FixName(u));
    }
  }

  /** Reading a balance keeps a balanced ledger balanced: an account it creates is one the log never names. */
  lemma TouchKeepsBalanced(s: State, u: string)
    requires Balanced(s)
    ensures Balanced(Touched(s, u))
  {
    var v := FixName(u);
    if v !in s.balances.vals {
      TouchKeepsConsistent(s.balances, s.txs, v);
      TouchValid(s.balances, v);
    }
  }

  /** A transfer followed by two notices, with the orders replaced by `list`: its effect, its notices, and a balanced ledger kept balanced. */
  lemma PaidNoted(s: State, r: State, from: string, to: string, amount: int, now: int, list: seq<Sub>, a: string, ka: Kind, b: string, kb: Kind)
    requires r == Note(Note(Paid(s, from, to, amount, now).(subs := list), a, ka), b, kb)
    ensures Transferred(s, r, from, to, amount, now)
    ensures r.subs == list && r.companies == s.companies
    ensures r.notices == s.notices + [Notice(FixName(a), ka), Notice(FixName(b), kb)]
    ensures Balanced(s) ==> Balanced(r)
  {
    var paid := Paid(s, from, to, amount, now);
    assert paid.notices == s.notices && paid.companies == s.companies;
    assert r.notices == paid.notices + [Notice(FixName(a), ka)] + [Notice(FixName(b), kb)];
    TransferEffect(s, from, to, amount, now);
    SameLedger(s, paid, r, from, to, amount, now);
    if Balanced(s) {
      TransferKeepsBalanced(s, from, to, amount, now);
    }
  }

  /** Transferred and Balanced speak only of the balances, the log, the offices and the lock. */
  lemma SameLedger(s: State, p: State, r: State, from: string, to: string, amount: int, now: int)
    requires r.balances == p.balances && r.txs == p.txs && r.gov == p.gov && r.frozen == p.frozen
    ensures Transferred(s, p, from, to, amount, now) ==> Transferred(s, r, from, to, amount, now)
    ensures Balanced(p) ==> Balanced(r)
  {
    assert forall u :: Bal(r, u) == Bal(p, u);
  }

  /** A move between stored accounts, logged under any spelling of their names, keeps the ledger in agreement with its log. */
  lemma MoveLogged(b: Table, txs: seq<Tx>, from: string, to: string, amount: int, now: int)
    requires b.Valid() && Consistent(b, txs) && FixName(from) in b.vals && FixName(to) in b.vals
    ensures Move(b, FixName(from), FixName(to), amount).Valid()
    ensures Consistent(Move(b, FixName(from), FixName(to), amount), txs + [Tx(now, from, to, amount)])
  {
    var f, t := FixName(from), FixName(to);
    var m := Move(b, f, t, amount);
    var tx := Tx(now, from, to, amount);
    MoveValid(b, f, t, amount);
    ConsistentIff(b, txs);
    ConsistentIff(m, txs + [tx]);
    forall u | u in m.vals ensures m.vals[u] == Initial + Net(txs + [tx], u) {
      MoveAt(b, f, t, amount, u);
      NetAppend(txs, [tx], u);
      assert Net([tx], u) == Delta(tx, u);
    }
  }

  /** A logged transfer keeps a balanced ledger balanced, whoever the two accounts are. */
  lemma TransferKeepsBalanced(s: State, from: string, to: string, amount: int, now: int)
    requires Balanced(s)
    ensures Balanced(Paid(s, from, to, amount, now))
  {
    TouchKeepsBalanced(s, from);
    var s1 := Touched(Touched(s, from), to);
    TouchKeepsBalanced(Touched(s, from), to);
    MoveLogged(s1.balances, s.txs, from, to, amount, now);
    PartiesAppend(s.txs, Tx(now, from, to, amount));
  }

  /** What `s` demands: three words, a positive amount, somebody else as receiver, and the balance to cover it. */
  predicate SendAllowed(s: State, sender: string, parts: seq<Part>)
  {
    |parts| == 3 && parts[2].amount.Some? && FixName(parts[1].text) != sender
    && parts[2].amount.value > 0 && Bal(s, sender) >= parts[2].amount.value
  }

  /**
   * `s <user> <amount>` goes through exactly when SendAllowed holds. Then
   * the amount moves from the sender to the receiver, one entry is logged
   * and both are notified; otherwise the sender is told why and nothing
   * else changes. Either way a balanced ledger stays balanced.
   */
  lemma SendOutcome(s: State, author: string, parts: seq<Part>, now: int)
    ensures var sender := FixName(author);
      var r := SendSpec(s, sender, parts, now);
      && (!SendAllowed(s, sender, parts) ==> Refused(s, r, sender))
      && (SendAllowed(s, sender, parts) ==>
            var receiver := FixName(parts[1].text);
            var amount := parts[2].amount.value;
            && Transferred(s, r, sender, receiver, amount, now)
            && r.subs == s.subs && r.companies == s.companies
            && r.notices == s.notices + [Notice(receiver, Received(sender, amount)), Notice(sender, Sent(receiver, amount))])
      && (Balanced(s) ==> Balanced(r))
  {
    if SendAllowed(s, FixName(author), parts) {
      var sender := FixName(author);
      var receiver := FixName(parts[1].text);
      var amount := parts[2].amount.value;
      SendAccepted(s, author, parts, now);
      FixNameIdempotent(author);
      FixNameIdempotent(parts[1].text);
      PaidNoted(s, SendSpec(s, sender, parts, now), sender, receiver, amount, now, s.subs, receiver, Received(sender, amount), sender, Sent(receiver, amount));
    } else {
      SendRefused(s, author, parts, now);
    }
  }

  /** When `s` goes through, its state is a transfer followed by the two notices. */
  lemma SendAccepted(s: State, author: string, parts: seq<Part>, now: int)
    requires SendAllowed(s, FixName(author), parts)
    ensures var sender := FixName(author);
      var receiver := FixName(parts[1].text);
      var amount := parts[2].amount.value;
      SendSpec(s, sender, parts, now) ==
        Note(Note(Paid(s, sender, receiver, amount, now).(subs := s.subs), receiver, Received(sender, amount)), sender, Sent(receiver, amount))
  {
    var sender := FixName(author);
    var receiver := FixName(parts[1].text);
    var amount := parts[2].amount.value;
    var paid := Paid(s, sender, receiver, amount, now);
    assert paid.(subs := s.subs) == paid;
  }

  lemma SendRefused(s: State, author: string, parts: seq<Part>, now: int)
    requires !SendAllowed(s, FixName(author), parts)
    ensures var sender := FixName(author);
      var r := SendSpec(s, sender, parts, now);
      && Refused(s, r, sender)
      && (Balanced(s) ==> Balanced(r))
  {
    var sender := FixName(author);
    FixNameIdempotent(author);
    if |parts| != 3 {
      RefusalRefuses(s, sender, sender, BadFormat);
    } else if parts[2].amount.None? {
      RefusalRefuses(s, sender, sender, BadAmount);
    } else if FixName(parts[1].text) == sender {
      RefusalRefuses(s, sender, sender, SelfTarget);
    } else if parts[2].amount.value <= 0 {
      RefusalRefuses(s, sender, sender, NotPositive);
    } else {
      RefusalRefuses(s, sender, sender, Insufficient);
      if Balanced(s) {
        TouchKeepsBalanced(s, sender);
      }
    }
  }

  /**
   * `sub <user> <amount> <cycle>` goes through exactly when SubAllowed
   * holds: then the first payment moves and is logged, the order for the
   * pair is recorded (replacing an earlier one in place) with last payment
   * now and the next one cycle later, and both sides are notified.
   */
  predicate SubAllowed(s: State, sender: string, parts: seq<Part>)
  {
    |parts| == 4 && parts[2].amount.Some? && ParseCycle(LowerAll(parts[3].text)).Some?
    && FixName(parts[1].text) != sender && parts[2].amount.value > 0 && Bal(s, sender) >= parts[2].amount.value
  }

  lemma SubOutcome(s: State, author: string, parts: seq<Part>, now: int)
    ensures var sender := FixName(author);
      var r := SubSpec(s, sender, parts, now);
      && (!SubAllowed(s, sender, parts) ==> Refused(s, r, sender))
      && (SubAllowed(s, sender, parts) ==>
            var payee := FixName(parts[1].text);
            var amount := parts[2].amount.value;
            var cycle := ParseCycle(LowerAll(parts[3].text)).value;
            && Transferred(s, r, sender, payee, amount, now)
            && r.subs == Upserted(s.subs, Sub(sender, payee, amount, cycle, now, now + CycleSeconds(cycle)))
            && r.companies == s.companies
            && r.notices == s.notices + [Notice(payee, SubscribedBy(sender, amount, cycle)), Notice(sender, SubscribedTo(payee, amount, cycle))])
      && (Balanced(s) ==> Balanced(r))
  {
    if SubAllowed(s, FixName(author), parts) {
      var sender := FixName(author);
      var payee := FixName(parts[1].text);
      var amount := parts[2].amount.value;
      var cycle := ParseCycle(LowerAll(parts[3].text)).value;
      var list := Upserted(s.subs, Sub(sender, payee, amount, cycle, now, now + CycleSeconds(cycle)));
      SubAccepted(s, author, parts, now);
      FixNameIdempotent(author);
      FixNameIdempotent(parts[1].text);
      PaidNoted(s, SubSpec(s, sender, parts, now), sender, payee, amount, now, list, payee, SubscribedBy(sender, amount, cycle), sender, SubscribedTo(payee, amount, cycle));
    } else {
      SubRefused(s, author, parts, now);
    }
  }

  /** When `sub` goes through, its state is a transfer, the recorded order and the two notices. */
  lemma SubAccepted(s: State, author: string, parts: seq<Part>, now: int)
    requires SubAllowed(s, FixName(author), parts)
    ensures var sender := FixName(author);
      var payee := FixName(parts[1].text);
      var amount := parts[2].amount.value;
      var cycle := ParseCycle(LowerAll(parts[3].text)).value;
      var list := Upserted(s.subs, Sub(sender, payee, amount, cycle, now, now + CycleSeconds(cycle)));
      SubSpec(s, sender, parts, now) ==
        Note(Note(Paid(s, sender, payee, amount, now).(subs := list), payee, SubscribedBy(sender, amount, cycle)), sender, SubscribedTo(payee, amount, cycle))
  {
    FixNameIdempotent(author);
    FixNameIdempotent(parts[1].text);
  }

  lemma SubRefused(s: State, author: string, parts: seq<Part>, now: int)
    requires !SubAllowed(s, FixName(author), parts)
    ensures var sender := FixName(author);
      var r := SubSpec(s, sender, parts, now);
      && Refused(s, r, sender)
      && (Balanced(s) ==> Balanced(r))
  {
    var sender := FixName(author);
    FixNameIdempotent(author);
    if |parts| != 4 {
      RefusalRefuses(s, sender, sender, BadFormat);
    } else if parts[2].amount.None? {
      RefusalRefuses(s, sender, sender, BadAmount);
    } else if ParseCycle(LowerAll(parts[3].text)).None? {
      RefusalRefuses(s, sender, sender, BadCycle);
    } else if FixName(parts[1].text) == sender {
      RefusalRefuses(s, sender, sender, SelfTarget);
    } else if parts[2].amount.value <= 0 {
      RefusalRefuses(s, sender, sender, NotPositive);
    } else {
      RefusalRefuses(s, sender, sender, Insufficient);
      if Balanced(s) {
        TouchKeepsBalanced(s, sender);
      }
    }
  }

  /**
   * `can <user>`: with two words the sender's orders to that user are all
   * removed and the others kept in order; the sender is refused exactly when
   * there was none. Balances and the log are never touched.
   */
  lemma CanOutcome(s: State, author: string, parts: seq<Part>)
    ensures var sender := FixName(author);
      var r := CanSpec(s, sender, parts);
      && r.balances == s.balances && r.txs == s.txs && r.companies == s.companies && r.gov == s.gov
      && (|parts| != 2 ==> Refused(s, r, sender))
      && (|parts| == 2 ==>
            var payee := FixName(parts[1].text);
            && r.subs == WithoutPair(s.subs, sender, payee)
            && !HasPair(r.subs, sender, payee)
            && (HasPair(s.subs, sender, payee) ==>
                  r.notices == s.notices + [Notice(payee, CancelledBy(sender)), Notice(sender, CancelledTo(payee))])
            && (!HasPair(s.subs, sender, payee) ==> Refused(s, r, sender)))
  {
    var sender := FixName(author);
    FixNameIdempotent(author);
    if |parts| == 2 {
      var payee := FixName(parts[1].text);
      FixNameIdempotent(parts[1].text);
      CancelPairOutcome(s, sender, payee);
    } else {
      RefusalRefuses(s, sender, sender, BadFormat);
    }
  }

  lemma CancelPairOutcome(s: State, sender: string, payee: string)
    requires FixName(sender) == sender && FixName(payee) == payee
    ensures var r := CancelPair(s, sender, payee);
      && r.balances == s.balances && r.txs == s.txs && r.companies == s.companies && r.gov == s.gov
      && r.subs == WithoutPair(s.subs, sender, payee)
      && !HasPair(r.subs, sender, payee)
      && (HasPair(s.subs, sender, payee) ==>
            r.notices == s.notices + [Notice(payee, CancelledBy(sender)), Notice(sender, CancelledTo(payee))])
      && (!HasPair(s.subs, sender, payee) ==> Refused(s, r, sender))
  {
    RemoveSubscriptionResult(s.subs, sender, payee);
    if !HasPair(s.subs, sender, payee) {
      WithoutPairUnchanged(s.subs, sender, payee);
      RefusalRefuses(s, sender, sender, NoSubscription);
    }
  }

  /** The notices NoteAll adds: one per user, in order. */
  lemma {:induction false} NoteAllNotices(s: State, users: seq<string>, k: Kind)
    ensures var r := NoteAll(s, users, k);
      && r.(notices := s.notices) == s
      && |r.notices| == |s.notices| + |users| && r.notices[..|s.notices|] == s.notices
      && forall i :: 0 <= i < |users| ==> r.notices[|s.notices| + i] == Notice(FixName(users[i]), k)
  {
    if users != [] {
      NoteAllNotices(s, users[..|users| - 1], k);
    }
  }

  /**
   * `canall`: with one word every order of the sender is removed and the
   * rest kept in order; each former payee is notified in turn and then the
   * sender, who is refused exactly when there was nothing to cancel.
   * Balances and the log are never touched.
   */
  lemma CanAllOutcome(s: State, author: string, parts: seq<Part>)
    ensures var sender := FixName(author);
      var r := CanAllSpec(s, sender, parts);
      && r.balances == s.balances && r.txs == s.txs && r.companies == s.companies && r.gov == s.gov
      && (|parts| != 1 ==> Refused(s, r, sender))
      && (|parts| == 1 ==>
            var payees := PayeesOf(s.subs, sender);
            && r.subs == WithoutPayer(s.subs, sender)
            && (forall x :: x in r.subs ==> x.payer != sender)
            && (payees == [] ==> Refused(s, r, sender))
            && (payees != [] ==>
                  && |r.notices| == |s.notices| + |payees| + 1 && r.notices[..|s.notices|] == s.notices
                  && (forall i :: 0 <= i < |payees| ==> r.notices[|s.notices| + i] == Notice(FixName(payees[i]), CancelledBy(sender)))
                  && r.notices[|s.notices| + |payees|] == Notice(sender, CancelledAll(payees))))
  {
    var sender := FixName(author);
    FixNameIdempotent(author);
    if |parts| == 1 {
      CancelAllOutcome(s, sender);
    } else {
      RefusalRefuses(s, sender, sender, BadFormat);
    }
  }

  lemma CancelAllOutcome(s: State, sender: string)
    requires FixName(sender) == sender
    ensures var r := CancelAllOf(s, sender);
      var payees := PayeesOf(s.subs, sender);
      && r.balances == s.balances && r.txs == s.txs && r.companies == s.companies && r.gov == s.gov
      && r.subs == WithoutPayer(s.subs, sender)
      && (forall x :: x in r.subs ==> x.payer != sender)
      && (payees == [] ==> Refused(s, r, sender))
      && (payees != [] ==>
            && |r.notices| == |s.notices| + |payees| + 1 && r.notices[..|s.notices|] == s.notices
            && (forall i :: 0 <= i < |payees| ==> r.notices[|s.notices| + i] == Notice(FixName(payees[i]), CancelledBy(sender)))
            && r.notices[|s.notices| + |payees|] == Notice(sender, CancelledAll(payees)))
  {
    RemoveAllByPayerResult(s.subs, sender);
    var (kept, payees) := RemoveAllByPayer(s.subs, sender);
    var s1 := s.(subs := kept);
    if payees == [] {
      WithoutPayerUnchanged(s.subs, sender);
      RefusalRefuses(s, sender, sender, NoSubscriptions);
    } else {
      NoteAllNotices(s1, payees, CancelledBy(sender));
    }
  }

  /** What `found` demands: two words, a positive amount, no company of that name yet, and the balance to cover it. */
  predicate FoundAllowed(s: State, sender: string, parts: seq<Part>)
  {
    |parts| == 2 && parts[1].amount.Some? && parts[1].amount.value > 0
    && !IsCompany(s.companies, FixName(sender + CompanySuffix)) && Bal(s, sender) >= parts[1].amount.value
  }

  /**
   * `r` is `s` after `sender` founded `company` with `amount`: the sender
   * is debited, the company account holds exactly the amount (whatever it
   * held before), every other balance is unchanged, the transfer is logged,
   * the company is registered with the sender as founder and sole member,
   * and the sender is told.
   */
  ghost predicate Founding(s: State, r: State, sender: string, company: string, amount: int, now: int)
  {
    var c := FixName(company);
    && Bal(r, sender) == Bal(s, sender) - amount && Bal(r, company) == amount
    && (forall u :: FixName(u) != FixName(sender) && FixName(u) != c ==> Bal(r, u) == Bal(s, u))
    && r.balances.vals.Keys == s.balances.vals.Keys + {FixName(sender), c}
    && r.txs == s.txs + [Tx(now, sender, company, amount)]
    && r.companies == s.companies + [Company(c, FixName(sender), [FixName(sender)])]
    && r.notices == s.notices + [Notice(FixName(sender), Founded(company, amount))]
    && r.subs == s.subs && r.gov == s.gov && r.frozen == s.frozen
  }

  /**
   * `found <amount>` goes through exactly when FoundAllowed holds, and then
   * founds `<sender>company`; otherwise the sender is told why and nothing
   * else changes.
   */
  lemma FoundOutcome(s: State, author: string, parts: seq<Part>, now: int)
    ensures var sender := FixName(author);
      var r := FoundSpec(s, sender, parts, now);
      && (!FoundAllowed(s, sender, parts) ==> Refused(s, r, sender))
      && (FoundAllowed(s, sender, parts) ==> Founding(s, r, sender, sender + CompanySuffix, parts[1].amount.value, now))
  {
    var sender := FixName(author);
    FixNameIdempotent(author);
    if FoundAllowed(s, sender, parts) {
      CompanyName(sender);
      FundedOutcome(s, sender, sender + CompanySuffix, parts[1].amount.value, now);
    } else {
      FoundRefused(s, sender, parts, now);
    }
  }

  lemma FoundRefused(s: State, sender: string, parts: seq<Part>, now: int)
    requires FixName(sender) == sender && !FoundAllowed(s, sender, parts)
    ensures Refused(s, FoundSpec(s, sender, parts, now), sender)
  {
    if |parts| != 2 {
      RefusalRefuses(s, sender, sender, BadFormat);
    } else if parts[1].amount.None? {
      RefusalRefuses(s, sender, sender, BadAmount);
    } else if parts[1].amount.value <= 0 {
      RefusalRefuses(s, sender, sender, NotPositive);
    } else if CompanyData(s.companies, FixName(sender + CompanySuffix)).Some? {
      RefusalRefuses(s, sender, sender, CompanyExists);
    } else {
      RefusalRefuses(s, sender, sender, Insufficient);
    }
  }

  /** The founding proper, for a free company name that differs from the founder's. */
  lemma FundedOutcome(s: State, sender: string, company: string, amount: int, now: int)
    requires FixName(sender) == sender && FixName(company) != sender
    requires !IsCompany(s.companies, FixName(company)) && Bal(s, sender) >= amount
    ensures Founding(s, Funded(s, sender, company, amount, now), sender, company, amount, now)
  {
    var r := Funded(s, sender, company, amount, now);
    FundedForm(s, sender, company, amount, now);
    FoundingEffect(s, r, sender, company, amount, now);
  }

  /** The state the founding builds: two writes, one log entry, one registration, one notice. */
  function FoundingState(s: State, sender: string, company: string, amount: int, now: int): State
  {
    var w := SetBal(SetBal(Touched(s, sender), sender, Bal(s, sender) - amount), company, amount);
    var founded := s.companies + [Company(FixName(company), sender, [sender])];
    Note(Logged(w, sender, company, amount, now).(companies := founded), sender, Founded(company, amount))
  }

  lemma FundedForm(s: State, sender: string, company: string, amount: int, now: int)
    requires FixName(sender) == sender
    requires !IsCompany(s.companies, FixName(company)) && Bal(s, sender) >= amount
    ensures Funded(s, sender, company, amount, now) == FoundingState(s, sender, company, amount, now)
  {
  }

  lemma FoundingEffect(s: State, r: State, sender: string, company: string, amount: int, now: int)
    requires FixName(sender) == sender && FixName(company) != sender
    requires r == FoundingState(s, sender, company, amount, now)
    ensures Founding(s, r, sender, company, amount, now)
  {
    TwoWrites(s, sender, Bal(s, sender) - amount, company, amount);
  }

  /** A read of `a`, a write to `a`, then a write to another account `b`. */
  lemma TwoWrites(s: State, a: string, x: int, b: string, y: int)
    requires FixName(a) != FixName(b)
    ensures var w := SetBal(SetBal(Touched(s, a), a, x), b, y);
      && w.balances.vals.Keys == s.balances.vals.Keys + {FixName(a), FixName(b)}
      && Bal(w, a) == x && Bal(w, b) == y
      && (forall u :: FixName(u) != FixName(a) && FixName(u) != FixName(b) ==> Bal(w, u) == Bal(s, u))
  {
  }

  /** The company of a normalised founder is the founder's name with "company" appended, so never the founder's own account. */
  lemma CompanyName(sender: string)
    requires FixName(sender) == sender
    ensures FixName(sender + CompanySuffix) == sender + FixName(CompanySuffix)
    ensures FixName(sender + CompanySuffix) != sender
  {
    FixNameAppend(sender, CompanySuffix);
    SuffixNonEmpty();
  }

  /**
   * Founding leaves the ledger out of agreement with its log: the company
   * account holds the amount, while the log, replayed from 100.0 for every
   * account, says it should hold 100.0 more; the integrity check would then
   * credit the difference.
   */
  lemma FoundDisagrees(s: State, author: string, parts: seq<Part>, now: int)
    requires Balanced(s)
    requires FoundAllowed(s, FixName(author), parts) && FixName(FixName(author) + CompanySuffix) !in s.balances.vals
    ensures var sender := FixName(author);
      var r := FoundSpec(s, sender, parts, now);
      var c := FixName(sender + CompanySuffix);
      && BalanceOf(r.balances, c) == parts[1].amount.value
      && BalanceOf(ExpectedBalances(r.balances, r.txs), c) == Initial + parts[1].amount.value
      && !Consistent(r.balances, r.txs)
  {
    var sender := FixName(author);
    var company := sender + CompanySuffix;
    var c := FixName(company);
    var amount := parts[1].amount.value;
    var r := FoundSpec(s, sender, parts, now);
    FoundOutcome(s, author, parts, now);
    FixNameIdempotent(author);
    CompanyName(sender);
    FixNameIdempotent(company);
    assert c !in Parties(s.txs);
    NetNonParty(s.txs, c);
    NetAppend(s.txs, [Tx(now, sender, company, amount)], c);
    assert Net([Tx(now, sender, company, amount)], c) == amount;
    PartiesAppend(s.txs, Tx(now, sender, company, amount));
    ExpectedClosedForm(r.balances, r.txs);
    assert r.balances.Valid() by {
      TouchValid(s.balances, sender);
      PutValid(Touch(s.balances, sender), sender, Bal(s, sender) - amount);
      PutValid(Put(Touch(s.balances, sender), sender, Bal(s, sender) - amount), c, amount);
    }
    ConsistentIff(r.balances, r.txs);
  }

  /** What `add` demands: three words, the sender a member of the company, the user not yet one. */
  predicate AddAllowed(s: State, sender: string, parts: seq<Part>)
  {
    |parts| == 3 && IsCompanyMember(s.companies, FixName(parts[1].text), sender)
    && !IsCompanyMember(s.companies, FixName(parts[1].text), FixName(parts[2].text))
  }

  /**
   * `add <company> <user>` goes through exactly when AddAllowed holds: the
   * user is appended to the company's members and both sides are told;
   * otherwise the sender is told why. Balances and the log never change,
   * and a well-formed registry stays well formed.
   */
  lemma AddOutcome(s: State, author: string, parts: seq<Part>)
    ensures var sender := FixName(author);
      var r := AddSpec(s, sender, parts);
      && r.balances == s.balances && r.txs == s.txs
      && (!AddAllowed(s, sender, parts) ==> Refused(s, r, sender))
      && (AddAllowed(s, sender, parts) ==>
            var company := FixName(parts[1].text);
            var user := FixName(parts[2].text);
            && r.companies == MemberAdded(s.companies, company, user).0
            && r.subs == s.subs && r.gov == s.gov && r.frozen == s.frozen
            && r.notices == s.notices + [Notice(sender, AddedMember(company, user)), Notice(user, AddedTo(company, sender))]
            && (WellFormed(s.companies) ==> IsCompanyMember(r.companies, company, user)))
      && (WellFormed(s.companies) ==> WellFormed(r.companies))
  {
    var sender := FixName(author);
    FixNameIdempotent(author);
    if |parts| != 3 {
      RefusalRefuses(s, sender, sender, BadFormat);
    } else {
      var company := FixName(parts[1].text);
      var user := FixName(parts[2].text);
      FixNameIdempotent(parts[1].text);
      FixNameIdempotent(parts[2].text);
      AddCase(s, sender, company, user);
      assert AddSpec(s, sender, parts) == AddTo(s, sender, company, user);
    }
  }


  lemma AddCase(s: State, sender: string, company: string, user: string)
    requires FixName(sender) == sender && FixName(company) == company && FixName(user) == user
    ensures var r := AddTo(s, sender, company, user);
      var allowed := IsCompanyMember(s.companies, company, sender) && !IsCompanyMember(s.companies, company, user);
      && r.balances == s.balances && r.txs == s.txs
      && (!allowed ==> Refused(s, r, sender))
      && (allowed ==>
            && r.companies == MemberAdded(s.companies, company, user).0
            && r.subs == s.subs && r.gov == s.gov && r.frozen == s.frozen
            && r.notices == s.notices + [Notice(sender, AddedMember(company, user)), Notice(user, AddedTo(company, sender))]
            && (WellFormed(s.companies) ==> IsCompanyMember(r.companies, company, user)))
      && (WellFormed(s.companies) ==> WellFormed(r.companies))
  {
    if IsCompanyMember(s.companies, company, sender) && !IsCompanyMember(s.companies, company, user) {
      AddAccepted(s, sender, company, user);
    } else {
      RefusalRefuses(s, sender, sender, NoCompany);
      RefusalRefuses(s, sender, sender, NotMember);
      RefusalRefuses(s, sender, sender, AlreadyMember);
    }
  }

  lemma AddAccepted(s: State, sender: string, company: string, user: string)
    requires FixName(sender) == sender && FixName(company) == company && FixName(user) == user
    requires IsCompanyMember(s.companies, company, sender) && !IsCompanyMember(s.companies, company, user)
    ensures var r := AddTo(s, sender, company, user);
      && r.balances == s.balances && r.txs == s.txs
      && r.companies == MemberAdded(s.companies, company, user).0
      && r.subs == s.subs && r.gov == s.gov && r.frozen == s.frozen
      && r.notices == s.notices + [Notice(sender, AddedMember(company, user)), Notice(user, AddedTo(company, sender))]
      && (WellFormed(s.companies) ==> IsCompanyMember(r.companies, company, user) && WellFormed(r.companies))
  {
    if WellFormed(s.companies) {
      MemberAddedSpec(s.companies, company, user);
    }
  }

  /** What `sendco` demands: four words, a positive amount, a recipient other than the sender, membership, and the company balance to cover it. */
  predicate SendCoAllowed(s: State, sender: string, parts: seq<Part>)
  {
    |parts| == 4 && parts[3].amount.Some? && parts[3].amount.value > 0 && FixName(parts[2].text) != sender
    && IsCompanyMember(s.companies, FixName(parts[1].text), sender) && Bal(s, FixName(parts[1].text)) >= parts[3].amount.value
  }

  /**
   * `sendco <company> <user> <amount>` goes through exactly when
   * SendCoAllowed holds: the amount moves from the company account to the
   * recipient, one entry is logged, and the recipient and the sender are
   * told; otherwise the sender is told why and nothing else changes. Either
   * way a balanced ledger stays balanced.
   */
  lemma SendCoOutcome(s: State, author: string, parts: seq<Part>, now: int)
    ensures var sender := FixName(author);
      var r := SendCoSpec(s, sender, parts, now);
      && (!SendCoAllowed(s, sender, parts) ==> Refused(s, r, sender))
      && (SendCoAllowed(s, sender, parts) ==>
            var company := FixName(parts[1].text);
            var recipient := FixName(parts[2].text);
            var amount := parts[3].amount.value;
            && Transferred(s, r, company, recipient, amount, now)
            && r.subs == s.subs && r.companies == s.companies
            && r.notices == s.notices + [Notice(recipient, CompanySent(company, amount)), Notice(sender, SentFromCompany(company, recipient, amount))])
      && (Balanced(s) ==> Balanced(r))
  {
    var sender := FixName(author);
    FixNameIdempotent(author);
    if SendCoAllowed(s, sender, parts) {
      var company := FixName(parts[1].text);
      var recipient := FixName(parts[2].text);
      var amount := parts[3].amount.value;
      SendCoAccepted(s, sender, parts, now);
      FixNameIdempotent(parts[2].text);
      PaidNoted(s, SendCoSpec(s, sender, parts, now), company, recipient, amount, now, s.subs,
                recipient, CompanySent(company, amount), sender, SentFromCompany(company, recipient, amount));
    } else {
      SendCoRefused(s, sender, parts, now);
    }
  }

  lemma SendCoAccepted(s: State, sender: string, parts: seq<Part>, now: int)
    requires FixName(sender) == sender && SendCoAllowed(s, sender, parts)
    ensures var company := FixName(parts[1].text);
      var recipient := FixName(parts[2].text);
      var amount := parts[3].amount.value;
      SendCoSpec(s, sender, parts, now) ==
        Note(Note(Paid(s, company, recipient, amount, now).(subs := s.subs), recipient, CompanySent(company, amount)),
             sender, SentFromCompany(company, recipient, amount))
  {
    FixNameIdempotent(parts[1].text);
    var paid := Paid(s, FixName(parts[1].text), FixName(parts[2].text), parts[3].amount.value, now);
    assert paid.(subs := s.subs) == paid;
  }

  lemma SendCoRefused(s: State, sender: string, parts: seq<Part>, now: int)
    requires FixName(sender) == sender && !SendCoAllowed(s, sender, parts)
    ensures var r := SendCoSpec(s, sender, parts, now);
      && Refused(s, r, sender)
      && (Balanced(s) ==> Balanced(r))
  {
    if |parts| != 4 {
      RefusalRefuses(s, sender, sender, BadFormat);
    } else if parts[3].amount.None? {
      RefusalRefuses(s, sender, sender, BadAmount);
    } else if parts[3].amount.value <= 0 {
      RefusalRefuses(s, sender, sender, NotPositive);
    } else if FixName(parts[2].text) == sender {
      RefusalRefuses(s, sender, sender, SelfTarget);
    } else {
      var company := FixName(parts[1].text);
      FixNameIdempotent(parts[1].text);
      RefusalRefuses(s, sender, sender, NoCompany);
      RefusalRefuses(s, sender, sender, NotMember);
      RefusalRefuses(s, company, sender, Insufficient);
      if Balanced(s) {
        TouchKeepsBalanced(s, company);
      }
    }
  }

  /**
   * `r` is `s` with the balance of `account` set to `v` (the account now
   * exists) and every other balance, the orders, the companies, the offices
   * and the lock unchanged.
   */
  ghost predicate Adjusted(s: State, r: State, account: string, v: int)
  {
    && Bal(r, account) == v
    && (forall u :: FixName(u) != FixName(account) ==> Bal(r, u) == Bal(s, u))
    && r.balances.vals.Keys == s.balances.vals.Keys + {FixName(account)}
    && r.subs == s.subs && r.companies == s.companies && r.gov == s.gov && r.frozen == s.frozen
  }

  /** Minting raises one account, logs the issue from "mint" and tells the sender. */
  lemma MintedEffect(s: State, sender: string, account: string, source: string, amount: int, now: int)
    ensures var r := Minted(s, sender, account, source, amount, now);
      && Adjusted(s, r, account, Bal(s, account) + amount)
      && r.txs == s.txs + [Tx(now, source, account, amount)]
      && r.notices == s.notices + [Notice(FixName(sender), Printed(amount))]
  {
  }

  /** Burning lowers one account that holds enough, logs the loss to "burn" and tells the sender; otherwise it is refused. */
  lemma DestroyedEffect(s: State, sender: string, account: string, sink: string, amount: int, now: int)
    ensures var r := Destroyed(s, sender, account, sink, amount, now);
      && (Bal(s, account) < amount ==> Refused(s, r, sender))
      && (Bal(s, account) >= amount ==>
            && Adjusted(s, r, account, Bal(s, account) - amount)
            && r.txs == s.txs + [Tx(now, account, sink, amount)]
            && r.notices == s.notices + [Notice(FixName(sender), Burned(amount))])
  {
    RefusalRefuses(s, account, sender, Insufficient);
  }

  /**
   * `print <amount>` goes through exactly when the president asks for a
   * positive amount: the treasury grows by it, the issue is logged as coming
   * from "mint", and the president is told; otherwise the sender is told why.
   */
  lemma PrintOutcome(s: State, author: string, parts: seq<Part>, now: int, treasury: string, mint: string)
    ensures var sender := FixName(author);
      var r := PrintInto(s, sender, parts, now, treasury, mint);
      && (!PresidentAllowed(s, sender, parts, 2) ==> Refused(s, r, sender))
      && (PresidentAllowed(s, sender, parts, 2) ==>
            var amount := parts[1].amount.value;
            && r == Minted(s, sender, treasury, mint, amount, now)
            && Adjusted(s, r, treasury, Bal(s, treasury) + amount)
            && r.txs == s.txs + [Tx(now, mint, treasury, amount)]
            && r.notices == s.notices + [Notice(sender, Printed(amount))])
  {
    var sender := FixName(author);
    FixNameIdempotent(author);
    match PresidentRefusal(s, sender, parts, 2)
    case Some(why) =>
      RefusalRefuses(s, sender, sender, why);
    case None =>
      MintedEffect(s, sender, treasury, mint, parts[1].amount.value, now);
  }

  /**
   * `burn <amount>` goes through exactly when the president asks for a
   * positive amount the treasury holds: the treasury shrinks by it, the loss
   * is logged as going to "burn", and the president is told; otherwise the
   * sender is told why.
   */
  lemma BurnOutcome(s: State, author: string, parts: seq<Part>, now: int, treasury: string, sink: string)
    ensures var sender := FixName(author);
      var r := BurnFromAccount(s, sender, parts, now, treasury, sink);
      var allowed := PresidentAllowed(s, sender, parts, 2) && Bal(s, treasury) >= parts[1].amount.value;
      && (!allowed ==> Refused(s, r, sender))
      && (allowed ==>
            var amount := parts[1].amount.value;
            && Adjusted(s, r, treasury, Bal(s, treasury) - amount)
            && r.txs == s.txs + [Tx(now, treasury, sink, amount)]
            && r.notices == s.notices + [Notice(sender, Burned(amount))])
  {
    var sender := FixName(author);
    FixNameIdempotent(author);
    match PresidentRefusal(s, sender, parts, 2)
    case Some(why) =>
      RefusalRefuses(s, sender, sender, why);
    case None =>
      DestroyedEffect(s, sender, treasury, sink, parts[1].amount.value, now);
  }

  /**
   * `spend <amount> <user>` goes through exactly when the president asks for
   * a positive amount the treasury holds: it moves from the treasury to the
   * user, one entry is logged, and both are told; otherwise the sender is
   * told why. Either way a balanced ledger stays balanced.
   */
  lemma SpendOutcome(s: State, author: string, parts: seq<Part>, now: int, treasury: string)
    ensures var sender := FixName(author);
      var r := SpendFromAccount(s, sender, parts, now, treasury);
      var allowed := PresidentAllowed(s, sender, parts, 3) && Bal(s, treasury) >= parts[1].amount.value;
      && (!allowed ==> Refused(s, r, sender))
      && (allowed ==>
            var target := FixName(parts[2].text);
            var amount := parts[1].amount.value;
            && Transferred(s, r, treasury, target, amount, now)
            && r.subs == s.subs && r.companies == s.companies
            && r.notices == s.notices + [Notice(target, TreasurySent(amount)), Notice(sender, Spent(target, amount))])
      && (Balanced(s) ==> Balanced(r))
  {
    var sender := FixName(author);
    FixNameIdempotent(author);
    if PresidentAllowed(s, sender, parts, 3) {
      var target := FixName(parts[2].text);
      FixNameIdempotent(parts[2].text);
      DisbursedOutcome(s, SpendFromAccount(s, sender, parts, now, treasury), sender, treasury, target, parts[1].amount.value, now);
    } else {
      RefusalRefuses(s, sender, sender, PresidentRefusal(s, sender, parts, 3).value);
    }
  }

  /** A payment out of `account` to a normalised `target`, made when `account` holds enough and refused otherwise. */
  lemma DisbursedOutcome(s: State, r: State, sender: string, account: string, target: string, amount: int, now: int)
    requires FixName(target) == target && r == Disbursed(s, sender, account, target, amount, now)
    ensures && (Bal(s, account) < amount ==> Refused(s, r, sender))
            && (Bal(s, account) >= amount ==>
                  && Transferred(s, r, account, target, amount, now)
                  && r.subs == s.subs && r.companies == s.companies
                  && r.notices == s.notices + [Notice(target, TreasurySent(amount)), Notice(FixName(sender), Spent(target, amount))])
            && (Balanced(s) ==> Balanced(r))
  {
    if Bal(s, account) < amount {
      RefusalRefuses(s, account, sender, Insufficient);
      if Balanced(s) {
        TouchKeepsBalanced(s, account);
      }
    } else {
      var paid := Paid(s, account, target, amount, now);
      assert paid.(subs := s.subs) == paid;
      PaidNoted(s, r, account, target, amount, now, s.subs, target, TreasurySent(amount), sender, Spent(target, amount));
    }
  }

  /**
   * One account adjusted by what one logged entry does to it, where the
   * entry's other side is an account the ledger does not store: the ledger
   * keeps agreeing with its log.
   */
  lemma AdjustLogged(b: Table, txs: seq<Tx>, a: string, tx: Tx)
    requires b.Valid() && Consistent(b, txs) && Parties(txs) <= b.vals.Keys
    requires FixName(tx.from) == a || FixName(tx.from) !in b.vals
    requires FixName(tx.to) == a || FixName(tx.to) !in b.vals
    ensures Put(Touch(b, a), a, BalanceOf(b, a) + Delta(tx, a)).Valid()
    ensures Consistent(Put(Touch(b, a), a, BalanceOf(b, a) + Delta(tx, a)), txs + [tx])
  {
    var r := Put(Touch(b, a), a, BalanceOf(b, a) + Delta(tx, a));
    TouchValid(b, a);
    PutValid(Touch(b, a), a, BalanceOf(b, a) + Delta(tx, a));
    ConsistentIff(b, txs);
    ConsistentIff(r, txs + [tx]);
    forall u | u in r.vals ensures r.vals[u] == Initial + Net(txs + [tx], u) {
      AdjustAt(b, txs, a, tx, u);
    }
  }

  lemma AdjustAt(b: Table, txs: seq<Tx>, a: string, tx: Tx, u: string)
    requires forall v :: v in b.vals ==> b.vals[v] == Initial + Net(txs, v)
    requires Parties(txs) <= b.vals.Keys
    requires FixName(tx.from) == a || FixName(tx.from) !in b.vals
    requires FixName(tx.to) == a || FixName(tx.to) !in b.vals
    requires u == a || u in b.vals
    ensures var r := Put(Touch(b, a), a, BalanceOf(b, a) + Delta(tx, a));
      r.vals[u] == Initial + Net(txs + [tx], u)
  {
    NetAppend(txs, [tx], u);
    assert Net([tx], u) == Delta(tx, u);
    if u == a && a !in b.vals {
      NetNonParty(txs, a);
    }
  }

  /**
   * One account adjusted by a logged entry whose other side is a sentinel
   * `m` the ledger never stores: the ledger keeps agreeing with its log,
   * still does not store the sentinel, and the sentinel's net flow over the
   * log is its share of that one entry.
   */
  lemma SentinelLogged(b: Table, txs: seq<Tx>, a: string, tx: Tx, m: string)
    requires b.Valid() && Consistent(b, txs) && Parties(txs) <= b.vals.Keys
    requires m !in b.vals && a != m && {FixName(tx.from), FixName(tx.to)} == {a, m}
    ensures var r := Put(Touch(b, a), a, BalanceOf(b, a) + Delta(tx, a));
      && r.Valid() && Consistent(r, txs + [tx])
      && m !in r.vals && m in Parties(txs + [tx]) && Parties(txs + [tx]) <= r.vals.Keys + {m}
      && Net(txs + [tx], m) == Delta(tx, m)
  {
    AdjustLogged(b, txs, a, tx);
    PartiesAppend(txs, tx);
    NetNonParty(txs, m);
    NetAppend(txs, [tx], m);
    assert Net([tx], m) == Delta(tx, m);
  }

  /** SentinelLogged, stated about the adjusted ledger and the longer log by name. */
  lemma SentinelLoggedAt(b: Table, txs: seq<Tx>, a: string, tx: Tx, m: string, r: Table, log: seq<Tx>)
    requires b.Valid() && Consistent(b, txs) && Parties(txs) <= b.vals.Keys
    requires m !in b.vals && a != m && {FixName(tx.from), FixName(tx.to)} == {a, m}
    requires r == Put(Touch(b, a), a, BalanceOf(b, a) + Delta(tx, a)) && log == txs + [tx]
    ensures r.Valid() && Consistent(r, log)
    ensures m !in r.vals && m in Parties(log) && Parties(log) <= r.vals.Keys + {m}
    ensures Net(log, m) == Delta(tx, m)
  {
    SentinelLogged(b, txs, a, tx, m);
  }

  /**
   * The "mint" sentinel (see Ledger.SentinelFlagged). After minting into a
   * ledger that agrees with its log and has never stored the source account,
   * as an allowed `print` does (PrintOutcome), the ledger still agrees with
   * its log and the corrected check accepts it unchanged; the check as
   * data.py writes it counts "mint" as an account holding 100.0 minus
   * everything printed, and so accepts exactly when the amount printed is at
   * most 100.0.
   */
  lemma MintedVerdict(s: State, sender: string, treasury: string, mint: string, amount: int, now: int)
    requires Balanced(s) && FixName(mint) !in s.balances.vals && FixName(treasury) != FixName(mint)
    ensures var r := Minted(s, sender, treasury, mint, amount, now);
      && r.balances.Valid() && Consistent(r.balances, r.txs)
      && VerifyStored(r.balances, r.txs) == Verdict(true, r.balances)
      && (Verify(r.balances, r.txs).ok <==> amount <= Initial)
  {
    var r := Minted(s, sender, treasury, mint, amount, now);
    MintedAgrees(s, sender, treasury, mint, amount, now);
    VerifyStoredAcceptsConsistent(r.balances, r.txs);
    SentinelFlagged(r.balances, r.txs, FixName(mint));
  }

  /** After minting, the ledger agrees with its log, the source is still unstored, and it has given out exactly the amount. */
  lemma MintedAgrees(s: State, sender: string, treasury: string, mint: string, amount: int, now: int)
    requires Balanced(s) && FixName(mint) !in s.balances.vals && FixName(treasury) != FixName(mint)
    ensures var r := Minted(s, sender, treasury, mint, amount, now);
      var m := FixName(mint);
      && r.balances.Valid() && Consistent(r.balances, r.txs)
      && m !in r.balances.vals && m in Parties(r.txs) && Parties(r.txs) <= r.balances.vals.Keys + {m}
      && Net(r.txs, m) == -amount
  {
    var r := Minted(s, sender, treasury, mint, amount, now);
    var tx := Tx(now, mint, treasury, amount);
    MintedLedger(s, sender, treasury, mint, amount, now);
    assert Delta(tx, FixName(treasury)) == amount && Delta(tx, FixName(mint)) == -amount;
    SentinelLoggedAt(s.balances, s.txs, FixName(treasury), tx, FixName(mint), r.balances, r.txs);
  }

  /**
   * The ledger after a `burn` of an amount the treasury holds: it still
   * agrees with its log, and both the corrected check and the check as
   * written accept it, since the "burn" sink only ever receives.
   */
  lemma BurnVerdict(s: State, author: string, parts: seq<Part>, now: int, treasury: string, sink: string)
    requires Balanced(s) && FixName(sink) !in s.balances.vals && FixName(treasury) != FixName(sink)
    requires PresidentAllowed(s, FixName(author), parts, 2) && Bal(s, treasury) >= parts[1].amount.value
    ensures var r := BurnFromAccount(s, FixName(author), parts, now, treasury, sink);
      && r.balances.Valid() && Consistent(r.balances, r.txs)
      && VerifyStored(r.balances, r.txs) == Verdict(true, r.balances)
      && Verify(r.balances, r.txs).ok
  {
    var amount := parts[1].amount.value;
    assert BurnFromAccount(s, FixName(author), parts, now, treasury, sink) == Destroyed(s, FixName(author), treasury, sink, amount, now);
    DestroyedVerdict(s, FixName(author), treasury, sink, amount, now);
  }

  lemma DestroyedVerdict(s: State, sender: string, treasury: string, sink: string, amount: int, now: int)
    requires Balanced(s) && FixName(sink) !in s.balances.vals && FixName(treasury) != FixName(sink)
    requires Bal(s, treasury) >= amount >= 0
    ensures var r := Destroyed(s, sender, treasury, sink, amount, now);
      && r.balances.Valid() && Consistent(r.balances, r.txs)
      && VerifyStored(r.balances, r.txs) == Verdict(true, r.balances)
      && Verify(r.balances, r.txs).ok
  {
    var r := Destroyed(s, sender, treasury, sink, amount, now);
    var tx := Tx(now, treasury, sink, amount);
    DestroyedLedger(s, sender, treasury, sink, amount, now);
    assert Delta(tx, FixName(treasury)) == -amount && Delta(tx, FixName(sink)) == amount;
    SentinelLoggedAt(s.balances, s.txs, FixName(treasury), tx, FixName(sink), r.balances, r.txs);
    VerifyStoredAcceptsConsistent(r.balances, r.txs);
    SentinelFlagged(r.balances, r.txs, FixName(sink));
  }

  /** The ledger and log after minting, at the level of the table. */
  lemma MintedLedger(s: State, sender: string, account: string, source: string, amount: int, now: int)
    ensures var r := Minted(s, sender, account, source, amount, now);
      var a := FixName(account);
      r.balances == Put(Touch(s.balances, a), a, BalanceOf(s.balances, a) + amount) && r.txs == s.txs + [Tx(now, source, account, amount)]
  {
  }

  /** The ledger and log after burning an amount the account holds, at the level of the table. */
  lemma DestroyedLedger(s: State, sender: string, account: string, sink: string, amount: int, now: int)
    requires Bal(s, account) >= amount
    ensures var r := Destroyed(s, sender, account, sink, amount, now);
      var a := FixName(account);
      r.balances == Put(Touch(s.balances, a), a, BalanceOf(s.balances, a) - amount) && r.txs == s.txs + [Tx(now, account, sink, amount)]
  {
  }

  /** The sentinels are not the treasury. */
  lemma SentinelsNotTreasury()
    ensures FixName(Mint) != FixName(Treasury) && FixName(BurnSink) != FixName(Treasury)
  {
    assert FixName(Mint)[0] == 'm';
    assert FixName(BurnSink)[0] == 'b';
    assert FixName(Treasury)[0] == 'o';
  }

  // ---------------------------------------------------------------- dispatch properties

  /**
   * Every command other than `found`, `print` and `burn` keeps a ledger
   * that agrees with its log, and names no account it does not store,
   * in that state. (`found` sets the company account without a matching
   * entry, FoundDisagrees; `print` and `burn` log a sentinel account the
   * ledger never stores, MintedVerdict and BurnVerdict.)
   */
  lemma ProcessKeepsBalanced(s: State, author: string, parts: seq<Part>, now: int)
    requires |parts| > 0 && Balanced(s)
    requires Keyword(parts[0].text) !in {"found", "print", "burn"}
    ensures Balanced(Process(s, author, parts, now))
  {
    var command := Keyword(parts[0].text);
    if command == "s" {
      SendOutcome(s, author, parts, now);
    } else if command == "sub" {
      SubOutcome(s, author, parts, now);
    } else if command == "can" {
      CanOutcome(s, author, parts);
    } else if command == "canall" {
      CanAllOutcome(s, author, parts);
    } else if command == "add" {
      AddOutcome(s, author, parts);
    } else if command == "sendco" {
      SendCoOutcome(s, author, parts, now);
    } else if command == "spend" {
      SpendOutcome(s, author, parts, now, Treasury);
    }
  }

  // ---------------------------------------------------------------- billing properties

  /** What one order becomes when billed at `now` and kept: renewed from now if it was due, as it was otherwise. */
  function Next(sub: Sub, now: int): (r: Sub)
    ensures r.nextPayment > now
    ensures now < sub.nextPayment ==> r == sub
  {
    if now >= sub.nextPayment then Renew(sub, now) else sub
  }

  /** Every order as it would be kept. */
  function NextAll(subs: seq<Sub>, now: int): (r: seq<Sub>)
    ensures |r| == |subs|
    ensures forall i :: 0 <= i < |subs| ==> r[i] == Next(subs[i], now)
  {
    if subs == [] then [] else NextAll(subs[..|subs| - 1], now) + [Next(subs[|subs| - 1], now)]
  }

  /** `a` is `b` with some entries left out, the rest in their order. */
  ghost predicate Subsequence(a: seq<Sub>, b: seq<Sub>)
    decreases |b|
  {
    if a == [] then true
    else if b == [] then false
    else (a[|a| - 1] == b[|b| - 1] && Subsequence(a[..|a| - 1], b[..|b| - 1])) || Subsequence(a, b[..|b| - 1])
  }

  lemma SubsequenceExtend(a: seq<Sub>, b: seq<Sub>, x: Sub)
    requires Subsequence(a, b)
    ensures Subsequence(a, b + [x]) && Subsequence(a + [x], b + [x])
  {
    assert (b + [x])[..|b|] == b;
    assert (a + [x])[..|a|] == a;
  }

  /**
   * One order at billing time. An order not yet due is kept as it is and
   * nothing else changes. A due order whose payer holds the amount is paid:
   * one logged transfer from payer to payee, both told, and the order kept
   * with its last payment now and its next one cycle from now (not one cycle
   * from the date it was due). A due order the payer cannot cover is dropped:
   * no balance and no log entry changes and both sides are told. Either way
   * a balanced ledger stays balanced.
   */
  lemma ChargeStepOutcome(s: State, kept: seq<Sub>, sub: Sub, now: int)
    ensures var (r, k) := ChargeStep(s, kept, sub, now);
      && (now < sub.nextPayment ==> r == s && k == kept + [sub])
      && (now >= sub.nextPayment && Bal(s, sub.payer) >= sub.amount ==>
            && Transferred(s, r, sub.payer, sub.payee, sub.amount, now)
            && k == kept + [sub.(lastPaid := now, nextPayment := now + CycleSeconds(sub.cycle))]
            && r.subs == s.subs && r.companies == s.companies
            && r.notices == s.notices + [Notice(FixName(sub.payee), PaidBy(sub.payer, sub.amount, sub.cycle)),
                                         Notice(FixName(sub.payer), PaidTo(sub.payee, sub.amount, sub.cycle))])
      && (now >= sub.nextPayment && Bal(s, sub.payer) < sub.amount ==>
            && k == kept
            && (forall u :: Bal(r, u) == Bal(s, u))
            && r.txs == s.txs && r.subs == s.subs && r.companies == s.companies && r.gov == s.gov && r.frozen == s.frozen
            && r.notices == s.notices + [Notice(FixName(sub.payer), PaymentFailed(sub.payee, sub.amount)),
                                         Notice(FixName(sub.payee), PaymentFailedFrom(sub.payer, sub.amount))])
      && (Balanced(s) ==> Balanced(r))
  {
    if now >= sub.nextPayment {
      if Bal(s, sub.payer) >= sub.amount {
        ChargePaid(s, kept, sub, now);
      } else {
        ChargeFailed(s, kept, sub, now);
      }
    }
  }

  lemma ChargePaid(s: State, kept: seq<Sub>, sub: Sub, now: int)
    requires now >= sub.nextPayment && Bal(s, sub.payer) >= sub.amount
    ensures var (r, k) := ChargeStep(s, kept, sub, now);
      && Transferred(s, r, sub.payer, sub.payee, sub.amount, now)
      && k == kept + [sub.(lastPaid := now, nextPayment := now + CycleSeconds(sub.cycle))]
      && r.subs == s.subs && r.companies == s.companies
      && r.notices == s.notices + [Notice(FixName(sub.payee), PaidBy(sub.payer, sub.amount, sub.cycle)),
                                   Notice(FixName(sub.payer), PaidTo(sub.payee, sub.amount, sub.cycle))]
      && (Balanced(s) ==> Balanced(r))
  {
    var paid := Paid(s, sub.payer, sub.payee, sub.amount, now);
    assert paid.(subs := s.subs) == paid;
    var r := Note(Note(paid, sub.payee, PaidBy(sub.payer, sub.amount, sub.cycle)), sub.payer, PaidTo(sub.payee, sub.amount, sub.cycle));
    assert ChargeStep(s, kept, sub, now).0 == r;
    PaidNoted(s, r, sub.payer, sub.payee, sub.amount, now, s.subs,
      sub.payee, PaidBy(sub.payer, sub.amount, sub.cycle), sub.payer, PaidTo(sub.payee, sub.amount, sub.cycle));
  }

  lemma ChargeFailed(s: State, kept: seq<Sub>, sub: Sub, now: int)
    requires now >= sub.nextPayment && Bal(s, sub.payer) < sub.amount
    ensures var (r, k) := ChargeStep(s, kept, sub, now);
      && k == kept
      && (forall u :: Bal(r, u) == Bal(s, u))
      && r.txs == s.txs && r.subs == s.subs && r.companies == s.companies && r.gov == s.gov && r.frozen == s.frozen
      && r.notices == s.notices + [Notice(FixName(sub.payer), PaymentFailed(sub.payee, sub.amount)),
                                   Notice(FixName(sub.payee), PaymentFailedFrom(sub.payer, sub.amount))]
      && (Balanced(s) ==> Balanced(r))
  {
    var s1 := Touched(s, sub.payer);
    forall u ensures Bal(s1, u) == Bal(s, u) {
      TouchedObservable(s, sub.payer, u);
    }
    if Balanced(s) {
      TouchKeepsBalanced(s, sub.payer);
    }
  }

  /** The orders one step keeps: the order as Next makes it, or none; an order not yet due always. */
  lemma ChargeStepKept(s: State, kept: seq<Sub>, sub: Sub, now: int)
    ensures var k := ChargeStep(s, kept, sub, now).1;
      && (k == kept + [Next(sub, now)] || k == kept)
      && (now < sub.nextPayment ==> k == kept + [sub])
  {
    ChargeStepOutcome(s, kept, sub, now);
  }

  /** What one step leaves alone, and a balanced ledger kept balanced. */
  lemma ChargeStepState(s: State, kept: seq<Sub>, sub: Sub, now: int)
    ensures var r := ChargeStep(s, kept, sub, now).0;
      && r.subs == s.subs && r.companies == s.companies && r.gov == s.gov && r.frozen == s.frozen
      && (Balanced(s) ==> Balanced(r))
  {
    ChargeStepOutcome(s, kept, sub, now);
  }

  /** The orders one billing pass over `subs` keeps are what KeptFrom allows. */
  lemma {:induction false} ChargeKept(s: State, subs: seq<Sub>, now: int)
    ensures KeptFrom(Charge(s, subs, now).1, subs, now)
  {
    if subs != [] {
      var init := subs[..|subs| - 1];
      var sub := subs[|subs| - 1];
      ChargeKept(s, init, now);
      var (s1, kept1) := Charge(s, init, now);
      ChargeStepKept(s1, kept1, sub, now);
      assert subs == init + [sub];
      KeptExtend(kept1, ChargeStep(s1, kept1, sub, now).1, init, sub, now);
    }
  }

  /**
   * `kept` is what billing `subs` may keep: the orders in their order, each
   * as Next makes it, with some due ones left out; every order not yet due
   * among them; each falling due after `now`.
   */
  ghost predicate KeptFrom(kept: seq<Sub>, subs: seq<Sub>, now: int)
  {
    && Subsequence(kept, NextAll(subs, now))
    && (forall i :: 0 <= i < |subs| && now < subs[i].nextPayment ==> subs[i] in kept)
    && (forall k :: k in kept ==> k.nextPayment > now)
  }

  /** KeptFrom grows by one order at a time. */
  lemma KeptExtend(kept1: seq<Sub>, kept: seq<Sub>, init: seq<Sub>, sub: Sub, now: int)
    requires KeptFrom(kept1, init, now)
    requires kept == kept1 + [Next(sub, now)] || kept == kept1
    requires now < sub.nextPayment ==> kept == kept1 + [sub]
    ensures KeptFrom(kept, init + [sub], now)
  {
    var subs := init + [sub];
    assert subs[..|subs| - 1] == init;
    assert NextAll(subs, now) == NextAll(init, now) + [Next(sub, now)];
    SubsequenceExtend(kept1, NextAll(init, now), Next(sub, now));
    assert forall k :: k in kept ==> k in kept1 || k == Next(sub, now);
    forall i | 0 <= i < |subs| && now < subs[i].nextPayment ensures subs[i] in kept {
      if i < |init| {
        assert subs[i] == init[i];
      }
    }
  }

  /** A billing pass leaves the orders, companies, offices and lock of the state alone, and keeps a balanced ledger balanced. */
  lemma {:induction false} ChargeState(s: State, subs: seq<Sub>, now: int)
    ensures var r := Charge(s, subs, now).0;
      && r.subs == s.subs && r.companies == s.companies && r.gov == s.gov && r.frozen == s.frozen
      && (Balanced(s) ==> Balanced(r))
  {
    if subs != [] {
      var init := subs[..|subs| - 1];
      ChargeState(s, init, now);
      var (s1, kept1) := Charge(s, init, now);
      ChargeStepState(s1, kept1, subs[|subs| - 1], now);
    }
  }

  /**
   * One pass of the subscription processor: the order list afterwards is the
   * old one in its order, each kept order renewed if it was due, with some
   * due ones dropped; no order that was not yet due is lost; every order left
   * falls due after `now`; companies, offices and lock are untouched; and a
   * balanced ledger stays balanced.
   */
  lemma TickOutcome(s: State, now: int)
    ensures var r := TickSpec(s, now);
      && Subsequence(r.subs, NextAll(s.subs, now))
      && (forall i :: 0 <= i < |s.subs| && now < s.subs[i].nextPayment ==> s.subs[i] in r.subs)
      && (forall k :: k in r.subs ==> k.nextPayment > now)
      && r.companies == s.companies && r.gov == s.gov && r.frozen == s.frozen
      && (Balanced(s) ==> Balanced(r))
  {
    ChargeKept(s, s.subs, now);
    ChargeState(s, s.subs, now);
  }
}
