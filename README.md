# ECKoins ledger, modelled in Dafny

ECKoins is a virtual currency ("bits") handed out and moved around through
comment commands. Every account starts at 100.0 bits the first time
`get_balance` sees it. The data layer (`data.py`) keeps these resources:

- the balances file;
- an append-only transaction log;
- standing orders (subscriptions);
- companies;
- a governance record that elects a president;
- rate-limit counters for the language-model client;
- one notification file per user.

The command layer (`commands.py`) parses a comment and calls into the data
layer:

- `s`, `sub`, `can`, `canall`, `found`, `add` and `sendco`, for everyone;
- `print`, `burn` and `spend`, for the president only.

A billing loop charges standing orders when they fall due. An integrity
check (`verify_balance_integrity`) replays the log from 100.0 per account.
When the stored total exceeds the replayed total, it takes the anomaly
lock. Otherwise it silently repairs mismatched accounts.

The model is split by concern:

- `names.dfy`: `fix_name`.
- `tables.dfy`: balances as an insertion-ordered table.
- `ledger.dfy`: the replay, the integrity check, transfers, and set_balance with its integrity hook.
- `subscriptions.dfy`, `companies.dfy` and `governance.dfy`: the persisted lists and records, as values.
- `ratelimit.dfy`: the rate limiter.
- `leaderboard.dfy`: the leaderboard.
- `store.dfy`: a `Store` class holding every persisted resource as a field. Its methods are the data-layer operations, each tied to a function on a `State` value.
- `commands.dfy`: each command as a specification function from `State` to `State`, plus a method on the `Store` that makes the source's calls in the source's order.

Amounts are integer tenths of a bit (`Ledger.Initial` is 1000, that is 100.0).

Some behaviours of the code that the model keeps as written:

- The billing loop reschedules a paid order one cycle from the time of the charge, not from its due date (commands.py:351-353, `Commands.ChargeStepOutcome`).
- `add` of an existing member is refused with a notice (commands.py:152-154).
- `found` sets the company account to the founding amount rather than crediting it (commands.py:131). The integrity check then expects 100.0 more there (`Commands.FoundDisagrees`).
- Election ties go to the first candidate in vote order, because that is how `max` scans the tally (data.py:737, `Governance.FirstMaxIsFirst`).
- A transfer is separate read and write calls, not one atomic update (commands.py:41-44).

A `Balanced` state is one where:

- the ledger agrees with its log;
- the ledger stores every account the log names.

The integrity check accepts such a state unchanged. Every command except `found`, `print` and `burn` keeps a balanced state balanced (`Commands.ProcessKeepsBalanced`). What `print` and `burn` do to it is stated separately (`Commands.MintedVerdict`, `Commands.BurnVerdict`).

## Model

| member | source | states |
|---|---|---|
| Names.LowerAll | data.py:45 | `.lower()` restricted to ASCII: same length, each character lowered on its own |
| Names.FixName | data.py:43-46 | the normalised name is never longer than the input |
| Names.FixNameIsFixed | data.py:44-46 | fix_name returns only characters from a-z, 0-9, '-' and '_' |
| Names.FixNameFixedPoint | data.py:43-46 | fix_name leaves a string unchanged exactly when it already consists of allowed characters |
| Names.FixNameIdempotent | data.py:43-46 | normalising a normalised name changes nothing |
| Names.FixNameCaseInsensitive | data.py:45 | lower-casing before fix_name makes no difference |
| Names.FixNameAppend | data.py:46 | fix_name of a concatenation is the concatenation of fix_name of the parts |
| Ledger.Touch | data.py:89-95 | after get_balance the stored accounts are the old ones plus the user, in the old order with the user last if new |
| Store.TouchedObservable | data.py:89-95 | get_balance creates at most the one account and leaves what every other account reads unchanged |
| Store.Store.GetBalance | data.py:89-95 | returns the stored balance, or 100.0 for an unseen account, and the new state is exactly the old one with that account stored; a ledger holding each account once still does |
| Store.Store.SetBalance | data.py:77-85 | the balance of the normalised user becomes the amount, nothing else changes, and a ledger holding each account once still does |
| Store.Store.SetBalanceHooked | data.py:77-86 | the ledger and lock after set_balance are those of the write followed by the integrity check, and the ledger still holds each account once |
| Ledger.SetHooked | data.py:77-86 | the hooked write never touches the log and never releases a taken anomaly lock |
| Ledger.HookedLoweringUndone | data.py:77-86 | on a ledger agreeing with its log, a hooked write that lowers a balance is healed away |
| Ledger.HookedRaisingFlagged | data.py:77-86 | on a ledger agreeing with its log, a hooked write that raises a balance is kept and takes the lock |
| Store.Store.SaveTransaction | data.py:169-179 | exactly one entry, with the names as given, is appended to the log |
| Store.Store.Notify | data.py:114-120 | exactly one notice to the normalised user is appended |
| Ledger.SortByTimePerm | data.py:784 | the replay order holds exactly the logged transactions |
| Ledger.SortByTimeSorted | data.py:784 | the replay order is by non-decreasing timestamp |
| Ledger.NetPerm | data.py:784 | an account's net flow does not depend on the order the log is replayed in |
| Ledger.ReplayOne | data.py:785-793 | one replay iteration creates missing sender and receiver at 100.0, debits the sender and credits the receiver |
| Ledger.ComputeExpected | data.py:782-794 | the loop computes the expected table: baseline of stored accounts, then the sorted log replayed |
| Ledger.ReplayAt | data.py:784-793 | after the replay every account holds its start value plus its net flow in the log |
| Ledger.ReplayHas | data.py:788-791 | the replay creates exactly the accounts the log names |
| Ledger.ReplayTotal | data.py:784-793 | the replay keeps the table well formed and adds 100.0 to the total per account it creates |
| Ledger.ExpectedClosedForm | data.py:782-794 | the expected table has an entry for every stored account and every log party, stored accounts first in order, each at 100.0 plus its net flow |
| Ledger.ExpectedTotal | data.py:782-794 | the expected table totals 100.0 per entry |
| Ledger.ExpectedIgnoresValues | data.py:783 | the expected table depends on which accounts are stored, not on their balances |
| Ledger.ExpectedSameKeys | data.py:782-794 | for a log naming only stored accounts, the expected table has the ledger's accounts in the ledger's order |
| Ledger.ExpectedOfConsistent | data.py:782-794 | for a ledger agreeing with a log that names only stored accounts, the replay rebuilds the ledger exactly |
| Ledger.HealLoop | data.py:836-839 | the repair loop sets every stored account to its expected value (missing ones to 100.0) |
| Ledger.HealEffect | data.py:823-839 | the repair keeps the accounts of the ledger and leaves each at its expected value |
| Ledger.VerifyOutcome | data.py:817-840 | the check passes exactly when the stored total is at most 100.0 per account known to the ledger or log; a failure changes nothing; a pass keeps the accounts and their order and leaves the ledger agreeing with the log |
| Store.Store.VerifyBalanceIntegrity | data.py:817-840 | reports and leaves the ledger the check computes; the anomaly lock is taken exactly on failure; the ledger still holds each account once |
| Ledger.VerifyAcceptsConsistent | data.py:817-840 | a ledger agreeing with a log that names only stored accounts passes and is left as it is |
| Ledger.VerifyAfterOneWrite | data.py:817-840 | after one unlogged write to such a ledger, the check heals a lowered balance and flags a raised one |
| Ledger.VerifyAfterWrite | data.py:817-840 | the same for any ledger the replay rebuilds exactly |
| Ledger.SentinelFlagged | data.py:782-794 | an account the log names but the ledger never stores gets a 100.0 entry, so a ledger agreeing with its log passes exactly while that account's net outflow is at most 100.0 |
| Ledger.VerifyStoredAcceptsConsistent | data.py:829-834 | the check with the total taken over stored accounts only accepts every ledger agreeing with its log, whatever the log names |
| Ledger.VerifyStoredOutcome | data.py:832-840 | the corrected check changes nothing on failure, and a pass leaves every stored account agreeing with the log |
| Ledger.VerifyStoredAgrees | data.py:829-834 | when the log names only stored accounts the corrected check is the check as written |
| Ledger.Move | commands.py:41-43 | after a transfer the stored accounts are the old ones plus the two parties, in the old order |
| Ledger.MoveAt | commands.py:41-43 | a transfer takes the amount from the sender, gives it to the receiver, and changes no other balance |
| Ledger.MoveValid | commands.py:41-43 | a transfer keeps the ledger well formed |
| Ledger.MoveConserves | commands.py:41-43 | between stored accounts a transfer keeps the total and the key order |
| Ledger.MoveAsWritten | commands.py:261-263 | reading both balances and then writing both leaves the old accounts plus the two parties |
| Ledger.MoveAsWrittenAgrees | commands.py:41-43 | for two different accounts, read-read-write-write is the same as the corrected transfer |
| Ledger.MoveAsWrittenSelfInflates | commands.py:257-263 | read-read-write-write from an account to itself adds the amount to it and to the total; the corrected transfer changes nothing |
| Ledger.MoveKeepsConsistent | commands.py:41-44 | a logged transfer between stored, normalised accounts keeps the ledger agreeing with the log |
| Ledger.TouchKeepsConsistent | data.py:89-95 | creating an account the log never names keeps the ledger agreeing with the log |
| Ledger.HookedTransferKeepsSenderBits | commands.py:41-43 | with set_balance's hook, a transfer's debit is healed away and its credit kept and flagged, so the total grows by the amount |
| Ledger.MovedSettles | commands.py:41-44 | a transfer whose two writes and log entry all land before the check leaves a ledger the replay rebuilds exactly |
| Ledger.HookedAfterLog | commands.py:42-44 | once the hooked writes have run, logging the transfer does not help: the check still fails |
| Subscriptions.CycleSeconds | commands.py:9-13 | daily, weekly and monthly are 1, 7 and 30 days of seconds |
| Subscriptions.ParseCycle | commands.py:59-62 | a cycle word is accepted exactly when it is "daily", "weekly" or "monthly" |
| Subscriptions.ParseCycleName | commands.py:9-13 | every cycle is found under its own name |
| Subscriptions.AddSubscription | data.py:265-287 | the loop with its found flag and break yields the upserted list |
| Subscriptions.UpsertedExisting | data.py:270-277 | with an entry for the pair, the first such entry is replaced in place |
| Subscriptions.UpsertedNew | data.py:278-286 | without an entry for the pair, the new entry is appended |
| Subscriptions.WithoutPairSpec | data.py:295 | removal keeps exactly the entries of other pairs, and shrinks the list exactly when the pair had one |
| Subscriptions.RemoveSubscriptionResult | data.py:290-299 | remove_subscription reports True exactly when the pair had an entry, and none remains |
| Subscriptions.WithoutPairUnchanged | data.py:296-299 | without an entry for the pair the list comes back unchanged |
| Subscriptions.ByPayerSplit | data.py:306-307 | the payer's entries and the others partition the list; the reported payees match the payer's entries one to one, in order |
| Subscriptions.RemoveAllByPayerResult | data.py:302-311 | the payees returned are those of the removed entries, and no entry of the payer remains |
| Subscriptions.WithoutPayerUnchanged | data.py:308-311 | when nothing is removed the list is unchanged |
| Store.Store.AddSubscription | data.py:265-287 | the order list becomes the upserted list with both names normalised |
| Store.Store.SaveSubscriptions | data.py:255-262 | the order list is replaced, nothing else changes |
| Store.Store.RemoveSubscription | data.py:290-299 | the order list and result are those of remove_subscription on normalised names |
| Store.Store.RemoveAllByPayer | data.py:302-311 | the order list and returned payees are those of remove_all_subscriptions_by_payer on the normalised payer |
| Companies.Find | data.py:384-387 | the lookup stops at the first company with the name, and finds none exactly when no company has it |
| Companies.AddCompanySpec | data.py:352-360 | add_company succeeds exactly when the name is free, appends the company with its founder as sole member, and keeps names unique |
| Companies.AddCompanyMember | data.py:363-377 | the scan over companies yields the registry add_company_member leaves and its result |
| Companies.MemberAddedSpec | data.py:363-377 | add_company_member succeeds exactly when the company exists and the user is not yet a member; afterwards the user is a member, no name or founder changes, and the registry stays well formed |
| Companies.MemberAppended | data.py:368-373 | appending a new member to the first company of a name keeps the registry well formed |
| Companies.CompaniesOfSpec | data.py:404-408 | a company is listed for a user exactly when the user is one of its members |
| Store.Store.AddCompany | data.py:352-360 | the registry and result are those of add_company on normalised names |
| Store.Store.AddCompanyMember | data.py:363-377 | the registry and result are those of add_company_member on normalised names |
| Governance.FreshTallied | data.py:706-710 | a new election has no votes and an exact (empty) tally |
| Governance.CastCounts | data.py:714-717 | a vote adds one to its candidate's tally and nothing to any other, records the voter, and lists a new candidate last |
| Governance.CastTallied | data.py:712-717 | a vote by someone who has not voted keeps every tally equal to the number of its voters |
| Governance.VoteSpec | data.py:699-719 | vote_candidate succeeds exactly when the voter has not voted this term; a refusal changes nothing; a success changes only the presidential election and keeps its tally exact |
| Governance.CandidatesAfterVote | data.py:722-728 | get_candidates after a counted vote is the old candidate list with a new candidate appended last (unchanged for one already voted for); after a refused vote it is unchanged |
| Store.Store.VoteCandidate | data.py:699-719 | the governance record and result are those of vote_candidate on normalised names |
| Governance.FirstMax | data.py:737 | the winner is a candidate whose tally no other candidate exceeds |
| Governance.FirstMaxIsFirst | data.py:737 | the winner is the first candidate in vote order with the largest tally |
| Governance.FinalizeSpec | data.py:731-744 | finalizing installs a candidate with the largest tally when there were votes, keeps the holder otherwise, restarts the election, and leaves every other position alone |
| Governance.FinalizeAt | data.py:731-744 | finalizing one position changes only that position's holder |
| Governance.CheckElections | data.py:747-756 | exactly the elections whose week is over are finalized, each position ending as one finalization would leave it; afterwards every election is active |
| Store.Store.CheckAndUpdateElections | data.py:747-756 | the same, on the stored governance record |
| RateLimits.LimitsFor | gemini_config.py:13-17 | limits exist exactly for the three configured models |
| RateLimits.RecentMembers | data.py:560-562 | pruning keeps exactly the timestamps inside the window |
| RateLimits.RecentNested | data.py:588-590 | counting the last minute in the list pruned to 24 hours counts the same as in the unpruned list |
| RateLimits.RecordApiCall | data.py:521-541 | the call time is appended to the model's global list and, for the preview model only, to the user's list; nothing else changes |
| RateLimits.CheckRateLimits | data.py:544-605 | an unknown model is refused with nothing changed; otherwise the lists are pruned as the source saves them and the call is admitted exactly when no limit, checked in the source's order, is reached |
| RateLimits.CleanLists | data.py:616-622 | the per-model loop prunes every list to the window and deletes the empty ones, and its flag is set exactly when some list changed length |
| RateLimits.CleanUsers | data.py:627-640 | the per-user loop cleans every user's lists and deletes users left without lists; its flag is set exactly when a list changed length or a user was deleted |
| RateLimits.CleanupOldUsage | data.py:608-642 | each map is replaced by its cleaned form only when its flag is set, and otherwise stays as stored |
| RateLimits.RecentFull | data.py:618 | a list that pruning does not shorten is unchanged and lies wholly inside the window |
| RateLimits.CleanedSpec | data.py:608-642 | after cleanup every stored list is the window of the old one and keeps every recent timestamp; a saved map has no empty list or user entry; an unsaved map is exactly the old one |
| RateLimits.UnsavedInWindow | data.py:616-624 | a map cleanup does not save holds only timestamps inside the window |
| Leaderboard.Items | data.py:418 | `balances.items()` lists every account once, in ledger order, with its balance |
| Leaderboard.SortDescPerm | data.py:418 | the ranking is a permutation of the accounts |
| Leaderboard.SortDescSorted | data.py:418 | the ranking is richest first |
| Leaderboard.SortDescStable | data.py:418 | accounts of equal balance keep their ledger order |
| Leaderboard.Page | data.py:419 | the slice has the length Python gives it and lists the ranking from the offset on |
| Leaderboard.PageTop | data.py:419 | no entry left off the first page of a ranking is richer than one on it |
| Leaderboard.LeaderboardTop | data.py:416-420 | the first page holds min(amount, accounts) accounts with their balances, richest first, and no account left off is richer |
| Commands.StripBang | commands.py:17 | `lstrip("!")` removes exactly the leading '!' characters |
| Commands.KeywordSpec | commands.py:17 | the command word ignores case and leading '!' |
| Commands.PresidentRefusal | commands.py:199-212 | print, burn and spend refuse, for the first failing check in the source's order, exactly when the word count, office, amount or sign is wrong |
| Commands.Renew | commands.py:351-353 | a paid order falls due next after the time of the charge |
| Commands.Pay | commands.py:41-43 | the receiver is read, the sender debited, the receiver credited: the new state is the transfer |
| Commands.RefusalRefuses | commands.py:22-24 | a refusal changes no balance, order, company or office and adds one notice to the sender |
| Commands.TransferEffect | commands.py:41-44 | a transfer moves the amount between the two accounts, changes no other balance and logs one entry |
| Commands.TouchKeepsBalanced | data.py:89-95 | reading a balance keeps a balanced state balanced |
| Commands.TransferKeepsBalanced | commands.py:41-44 | a logged transfer keeps a balanced state balanced |
| Commands.MoveLogged | commands.py:262-264 | a transfer logged under any spelling of the account names keeps the ledger agreeing with the log |
| Commands.Send | commands.py:21-47 | the Store method leaves the state `s` specifies |
| Commands.SendOutcome | commands.py:21-46 | `s` goes through exactly when the format, amount, receiver and balance allow: one transfer, one log entry, two notices; otherwise a refusal; a balanced state stays balanced |
| Commands.Subscribe | commands.py:49-83 | the Store method leaves the state `sub` specifies |
| Commands.SubOutcome | commands.py:49-82 | `sub` goes through exactly when allowed: the first payment, the upserted order due one cycle from now, two notices; otherwise a refusal |
| Commands.Cancel | commands.py:85-95 | the Store method leaves the state `can` specifies |
| Commands.CanOutcome | commands.py:85-95 | `can` removes all the sender's orders to the user and no others, and refuses exactly when there was none; balances and log untouched |
| Commands.CancelPairOutcome | commands.py:89-95 | the two-word case of `can` on normalised names |
| Commands.CancelAll | commands.py:97-108 | the Store method leaves the state `canall` specifies |
| Commands.CanAllOutcome | commands.py:97-108 | `canall` removes every order of the sender, notifies each former payee in turn and then the sender, and refuses when there was nothing to cancel |
| Commands.CancelAllOutcome | commands.py:101-108 | the one-word case of `canall` on a normalised name |
| Commands.Found | commands.py:110-137 | the Store method leaves the state `found` specifies |
| Commands.FoundOutcome | commands.py:110-137 | `found` goes through exactly when allowed and then debits the founder, sets the company account to the amount, logs it and registers the company; otherwise a refusal |
| Commands.FoundRefused | commands.py:110-129 | each failed check of `found` is a refusal |
| Commands.FundCompany | commands.py:130-137 | the Store method leaves the state of the founding proper |
| Commands.FundedOutcome | commands.py:130-137 | the founding proper, for a free company name, is a Founding state |
| Commands.CompanyName | commands.py:122 | a founder's company account is never the founder's own account |
| Commands.FoundDisagrees | commands.py:130-132 | after founding, the company account holds the amount while the replayed log says 100.0 more, so the ledger no longer agrees with its log |
| Commands.AddMember | commands.py:139-160 | the Store method leaves the state `add` specifies |
| Commands.AddOutcome | commands.py:139-160 | `add` goes through exactly when the sender is a member and the user is not: the user is appended and both are told; otherwise a refusal; balances never change and the registry stays well formed |
| Commands.AddCase | commands.py:143-160 | the three-word case of `add` on normalised names, both ways |
| Commands.AddAccepted | commands.py:155-158 | an allowed `add` appends the member and sends both notices |
| Commands.SendFromCompany | commands.py:162-196 | the Store method leaves the state `sendco` specifies |
| Commands.SendCoOutcome | commands.py:162-195 | `sendco` goes through exactly when allowed: one transfer from the company account, one log entry, two notices; otherwise a refusal; a balanced state stays balanced |
| Commands.PrintMoney | commands.py:198-216 | the Store method leaves the state `print` specifies |
| Commands.MintInto | commands.py:213-216 | the Store method raises the account, logs the issue from "mint" and tells the sender |
| Commands.MintedEffect | commands.py:213-216 | minting raises one account by the amount, changes nothing else but the log and one notice |
| Commands.PrintOutcome | commands.py:198-216 | `print` goes through exactly when the president asks for a positive amount: the treasury grows by it, one log entry from "mint", one notice; otherwise a refusal |
| Commands.MintedAgrees | commands.py:213-215 | after minting into a balanced state, the ledger agrees with its log and "mint" has given out exactly the amount |
| Commands.MintedVerdict | commands.py:213-215 | after such a mint the corrected check accepts the ledger, while the check as written accepts it exactly when the amount is at most 100.0 |
| Commands.Burn | commands.py:218-239 | the Store method leaves the state `burn` specifies |
| Commands.BurnFrom | commands.py:233-239 | the Store method lowers the account when it holds enough, logs to "burn" and tells the sender, and refuses otherwise |
| Commands.DestroyedEffect | commands.py:233-239 | burning lowers one account by the amount when it holds that much, otherwise refuses |
| Commands.BurnOutcome | commands.py:218-239 | `burn` goes through exactly when the president asks for a positive amount the treasury holds: the treasury shrinks, one log entry to "burn", one notice; otherwise a refusal |
| Commands.DestroyedVerdict | commands.py:233-238 | after burning from a balanced state the ledger agrees with its log and both checks accept it |
| Commands.BurnVerdict | commands.py:233-238 | the same, for an allowed `burn` |
| Commands.SentinelsNotTreasury | commands.py:213-215 | "mint" and "burn" are not the treasury account |
| Commands.Spend | commands.py:241-266 | the Store method leaves the state `spend` specifies |
| Commands.SpendFrom | commands.py:257-266 | the Store method makes the treasury payment when the treasury holds enough and refuses otherwise |
| Commands.SpendOutcome | commands.py:241-266 | `spend` goes through exactly when the president asks for a positive amount the treasury holds: one transfer from the treasury, one log entry, two notices; otherwise a refusal; a balanced state stays balanced |
| Commands.DisbursedOutcome | commands.py:257-266 | a payment out of an account that holds enough is a transfer with two notices, otherwise a refusal |
| Commands.ProcessCommand | commands.py:16-266 | the Store method leaves the state process_comment_command specifies |
| Commands.ProcessKeepsBalanced | commands.py:16-266 | every command other than `found`, `print` and `burn`, and every unknown word, keeps a balanced state balanced |
| Commands.Next | commands.py:340-353 | an order kept at billing time next falls due after now, and is unchanged if it was not due |
| Commands.NextAll | commands.py:334-361 | every order as it would be kept, position by position |
| Commands.ChargeOne | commands.py:335-361 | the Store method leaves the state and kept list one billing step specifies |
| Commands.ChargeStepOutcome | commands.py:340-361 | an order not due is kept and nothing changes; a due order the payer covers is paid (one transfer, two notices) and kept rescheduled from now; a due order the payer cannot cover is dropped with two notices and no balance change; a balanced state stays balanced |
| Commands.ChargePaid | commands.py:343-353 | the paid case of one billing step |
| Commands.ChargeFailed | commands.py:355-360 | the failed case of one billing step |
| Commands.ChargeStepKept | commands.py:340-361 | one step keeps the order as Next makes it or drops it, and always keeps an order that is not due |
| Commands.ChargeStepState | commands.py:340-361 | one step leaves orders, companies, offices and lock alone and keeps a balanced state balanced |
| Commands.ChargeKept | commands.py:334-361 | the orders a pass keeps are a subsequence of the renewed orders, include every order not due, and all fall due after now |
| Commands.ChargeState | commands.py:334-361 | a pass leaves orders, companies, offices and lock alone and keeps a balanced state balanced |
| Commands.BillingTick | commands.py:331-362 | the Store method leaves the state one pass of the subscription processor specifies |
| Commands.TickOutcome | commands.py:331-362 | after a pass the order list is a subsequence of the renewed orders, no order that was not due is lost, every order left falls due after now, and a balanced state stays balanced |

## Left out

- File I/O, file locks, the atomic replace of files, and the backup thread with its retention. The Store keeps each resource as a field, and loading and saving it are the identity.
- Threads, `time.sleep` and the thread loops. The comment listener, the billing loop and the election loop are modelled as one step each (`ProcessCommand`, `BillingTick`, `CheckElections`).
- The current time, which is an explicit `now` parameter. Within one command every timestamp is the same `now`.
- Floating point and `round(_, 1)`. Amounts are integer tenths.
- Parsing an amount with `float()`. `Commands.Part` carries the parsed value, or None when parsing fails.
- The text and timestamps of notifications. A notice records its recipient and what it reports.
- Reading and clearing notifications (data.py:123-128), preferences (data.py:158-166) and processed-comment ids (data.py:226-229). Clearing notifications empties a user's file, setting preferences and recording a comment id write their own files; no modelled command reads any of them, so the model's outbox only records what is sent.
- `get_politics`, `get_all_positions` and `create_leaderboard`. They only read or format.
- The language-model client and the natural-language command path (`process_natural_language_command`). The rate limiter is modelled as values (`RateLimits`) and is not a field of the Store.
- main.py and run.py are not part of this model.
- Leaderboard.Page: offsets and amounts are natural numbers, so Python's slicing with negative indices is not modelled.
- Leaderboard.GetLeaderboard: the rounding of balances to one decimal and the dictionary it returns are not modelled. The ranking is a list of (account, balance) pairs.
- Names.LowerAll: lower-cases ASCII letters only, not the rest of Unicode.
- Commands.Pay: writes balances with set_balance without its integrity hook. With the hook, every transfer creates money and takes the anomaly lock (see Findings). The hooked form is modelled on its own (`Store.Store.SetBalanceHooked`, `Ledger.SetHooked`).
- Commands.Pay: credits the receiver with the balance left after the debit. This differs from the source only for a transfer from an account to itself (see Findings).
- Store.Store.GetBalance: creates a new account with the plain write, for the reason above.
- Commands.MintInto: uses the plain write, for the same reason.
- Commands.BurnFrom: uses the plain write, for the same reason.
- Commands.FundCompany: uses the plain write for both of `found`'s writes, for the same reason. With the hook, the founder's debit is healed back, and the new company account is healed up to 100.0 (or takes the anomaly lock when funded with more than 100.0), because the log entry is written after the check.
- Commands.PrintOutcome: the treasury account and the "mint" source are parameters here. `PrintSpec` instantiates them with "officialtreasury" and "mint".
- Commands.BurnOutcome: the treasury account and the "burn" sink are parameters here. `BurnSpec` instantiates them with "officialtreasury" and "burn".
- Commands.SpendOutcome: the treasury account is a parameter here. `SpendSpec` instantiates it with "officialtreasury".
- Commands.ProcessKeepsBalanced: does not cover `print` and `burn`. Their log entries name the "mint" and "burn" sentinels, which are never stored accounts, so the state after them is not `Balanced`; `Commands.MintedVerdict` and `Commands.BurnVerdict` state what the integrity check makes of it instead. No weaker invariant that admits the sentinels is stated.
- Store.Store.VerifyBalanceIntegrity: models the check as data.py writes it. The corrected check of the third finding (`Ledger.VerifyStored`) is what the command lemmas are stated against.

## Findings

| source | as written | input that shows it | evidently intended | confidence | as-written member | corrected member |
|---|---|---|---|---|---|---|
| data.py:77-86 | every set_balance runs the integrity check, so a transfer's debit is checked before its credit and its log entry exist | on a ledger that agrees with its log, alice (100.0) sends 5.0 to bob (100.0) with `s bob 5`: the debit is healed back to 100.0, bob's credit to 105.0 is kept and flagged, and the anomaly lock is taken; logging afterwards still fails the check | both writes and the log entry land before the ledger is checked, and the transfer then settles | not executed | Ledger.HookedTransferKeepsSenderBits | Ledger.MovedSettles |
| commands.py:257-263 | the treasury and the target are both read before either is written, so a spend to the treasury itself writes the debit and then overwrites it with the credit | the president runs `spend 5 officialtreasury` with 50.0 in the treasury: the treasury ends at 55.0 and the total supply grows by 5.0 (a `sendco` from a company to its own account does the same) | a transfer from an account to itself changes nothing | not executed | Ledger.MoveAsWrittenSelfInflates | Ledger.MoveConserves |
| data.py:782-794 | the expected table gives the "mint" source of `print` a 100.0 baseline, and the expected total includes it | on a ledger that agrees with its log and has never printed, the president prints 150.0: "mint" is expected at -50.0, the stored total exceeds the expected total by 50.0, and the next integrity check takes the anomaly lock | printing, which is logged, is never reported as inflation: the totals are compared over stored accounts only | not executed | Ledger.SentinelFlagged | Ledger.VerifyStoredAcceptsConsistent |
