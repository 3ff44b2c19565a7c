# Stellar Stream Hive: a verified model

Stellar Stream Hive pays a deposit out linearly, ledger by ledger. The **stream
contract** keeps the schedules and what was withdrawn; the **vault** keeps a second,
independent set of books (a balance and a token per stream id, a total per token) and
all the money. Neither reads the other's books and nothing compares them while the
system runs. This project models both contracts, the tokens and the ledger clock as one state
machine, and proves what every run of it keeps. It also models the **registry**, whose
counters are kept incrementally beside the table they summarise.

## How it is built

| file | content |
|---|---|
| `Soroban.dfy` | machine integers, checked arithmetic, addresses, failures |
| `Sums.dfy`, `FloorDivision.dfy` | sums over finite maps; facts about floor(x / d) |
| `Accrual.dfy` | the streaming arithmetic against exact integer accrual |
| `Token.dfy` | honest tokens (SEP-41, Interface section, `transfer`), as values and as a mutable ledger |
| `Custody.dfy`, `Vault.dfy` | the vault's books, its solvency, its event log; the vault contract |
| `Protocol.dfy` | the wired system: the effect of every call, steps, runs, event replay |
| `Streams.dfy`, `Host.dfy` | the stream contract; the host that runs calls and undoes failed ones |
| `Invariants.dfy`, `Runs.dfy` | the invariant and its preservation; backing, solvency, replay, indexes over runs |
| `Conservation.dfy` | paid + refunded + owed, payees, token supply |
| `Evolution.dfy` | lifecycle, entitlement, cancel |
| `Isolation.dfy` | what one payout or creation leaves untouched |
| `Accounts.dfy` | every account's token balance, and the vault's surplus, over runs |
| `BankRun.dfy` | everyone withdrawing at once: who is paid and what is left |
| `Frontier.dfy` | where the arithmetic of a stream fails, and what lies beyond |
| `Creation.dfy` | when `create_stream` succeeds, and what can keep refusing it |
| `Noninterference.dfy` | timing of withdrawals, the pause flag |
| `Calls.dfy` | what every call answers and does, as a specification, and that the system meets it |
| `Listings.dfy` | what a party is shown of its streams |
| `Paging.dfy` | pages and the two ways a client walks them |
| `RegistryBooks.dfy`, `Registry.dfy` | the registry's effects and contract |
| `RegistryRuns.dfy`, `RegistryCalls.dfy` | its aggregates over runs; what each of its calls answers and writes |

The contracts are classes whose methods write their storage entries in the source's order
(`Vault.VaultContract`, `Streams.StreamContract`, `Registry.RegistryContract`). Each
method is proved equal to a function on values (`Custody.Deposit`, `Protocol.Withdraw`, ...)
and the theorems are about those functions. A method that fails may leave writes behind;
`Host.Ledger.Execute` restores them, as the Soroban host does, and is proved to take
exactly one `Protocol.Step`.

A run (`Protocol.Run`) is any sequence of ledger closes, possibly jumping many ledgers,
and calls signed by any set of accounts: stream calls, direct vault calls with any
arguments, and plain token transfers, including ones to the vault's address. `Runs.Initial` is a
deployment as `scripts/deploy.sh` leaves it, over any honest balances.
`Invariants.Inv` holds initially (`GenesisInv`) and after every run (`Runs.RunKeeps`), so
a lemma that requires `Inv(w)` speaks about every reachable state.

`Calls.Refusal` and `Calls.Effect` say, without the contracts' own call bodies or checked
arithmetic, why each call is refused and what it does otherwise: the exact entitlement
instead of `withdrawable_amount`, changes of balances instead of nested calls, one
specification for the stream contract, the vault and the bank together. `Calls.SystemMeets` proves that after any
run every operation does just that.

Modelling decisions:

- Contract addresses sign nothing themselves; they authorise only the calls they make
  (`Protocol.Principals`). An account may be sender and recipient of one stream. A
  recipient that is one of the two contracts can therefore never withdraw, which is why
  the liveness theorems ask for a recipient outside them.
- `deposit` is open to anyone for any id, also ids not yet created. `Runs.Donated` adds up
  what outsiders deposited along a run; backing is stated as owed plus donated.
- `total_amount * duration` is not checked at creation. Safety theorems do not assume that
  it fits in an i128. `Accrual.NeverOverflows` is the guard a caller could check;
  `AlwaysAccruesIffGuarded`, `LockedAtEndIff` and `LockedForever` give the exact frontier and what lies
  beyond it, `LockedIsReachable` shows that the contract admits such a stream, and
  `GuardedAtCreation` that a sender who checks the guard is safe whatever others create.
- A deposit on the next id fixes that id's token before the stream exists, and a refused
  creation gives its id back. `CreateExact` lists this among the reasons for a refusal;
  `ReservedUntilItsToken` states exactly how long it lasts.
- An unsigned counter at its maximum, and a `Vec` of 2^32 - 1 entries, trap
  (`overflow-checks = true` in `Cargo.toml`).
- `docs/stream.md` lines 46-57 and `CONTRIBUTING.md` lines 146-156 say the worked example
  pays 44,990 at the midpoint. The code's formula gives 45,000 (`WorkedExample`), and the
  model follows the code.
- `contracts/stream/src/types.rs` line 47 says only `Cancelled` is ever stored. The code
  also stores `Pending`, at creation; `Lifecycle` states which values occur.
- `docs/registry.md` has `initialize` run first, but `register_stream` does not require
  it. `LateInitialize` gives the exact condition under which all the aggregates agree with
  the table, then and ever after.

## Model

| member | source | states |
|---|---|---|
| Accrual.StreamedIsExact | contracts/stream/src/math.rs:23-63 | On every schedule `create_stream` accepts, live or cancelled, `streamed_amount` is floor(total·elapsed/duration) over unbounded integers, and fails with `MathOverflow` exactly when total·elapsed exceeds 2^127−1 and the stream is not a pre-cliff cancel; the final clamp never acts |
| Accrual.WithdrawableIsExact | contracts/stream/src/math.rs:68-85 | For a stream never overpaid, `withdrawable_amount` is the exact entitlement less what was withdrawn, before and after the cliff; the clamp at zero never acts |
| Accrual.EvenAccrual | contracts/stream/src/math.rs:35-62 | Any window of k ledgers inside the schedule accrues floor(total·k/d) or ceil(total·k/d), so rounding never drifts |
| Accrual.AccruedBounds | contracts/stream/src/math.rs:39-62 | Accrual lies between 0 and the deposit and equals it at exactly the ledgers from the end on |
| Accrual.AccruedMonotone | contracts/stream/src/math.rs:39-62 | Accrual never decreases with time |
| Accrual.MultiplyFirstIsTighter | contracts/stream/src/math.rs:50-58 | Multiplying before dividing never pays less than the rate-per-ledger form |
| Accrual.EntitlementGrows | contracts/stream/src/math.rs:68-85 | What the recipient has earned, cliff included, never decreases with time |
| Accrual.OverflowPersists | contracts/stream/src/math.rs:50-58 | Once the accrual of a stream overflows it overflows at every later ledger |
| Accrual.AlwaysAccruesIffGuarded | contracts/stream/src/math.rs:50-58 | A live stream is computable at every ledger if and only if total·duration fits in an i128 |
| Accrual.UnguardedStreamFails | contracts/stream/src/math.rs:215-223 | A stream the contract accepts whose accrual overflows |
| Accrual.WorkedExample | contracts/stream/src/math.rs:39-58 | The documented payroll example pays exactly half at its midpoint |
| Token.TransferConserves | contracts/vault/src/lib.rs:81-82 | A transfer succeeds exactly when the payer holds the amount, moves that and nothing else, keeps every supply, and never overflows the payee; a self-transfer moves nothing |
| Custody.DepositExact | contracts/vault/src/lib.rs:59-102 | The exact outcome of `deposit` on a solvent vault, error by error, and all it writes: balance, total, token, event and token transfer; `MathOverflow` is unreachable once the token moved |
| Custody.PayExact | contracts/vault/src/lib.rs:231-300 | The exact outcome of `release`/`refund` on a solvent vault, error by error, and all it writes; an id without a token has no balance, so the skipped token check is harmless; past the balance check nothing fails |
| Custody.DepositKeepsSolvent | contracts/vault/src/lib.rs:84-92 | A deposit keeps every per-token total equal to the sum of its streams' balances and covered by the vault's real holding |
| Custody.PayKeepsSolvent | contracts/vault/src/lib.rs:260-277 | A payout keeps the same, in particular no total goes negative |
| Custody.CheckedSubtractionIsNoGuard | contracts/vault/src/lib.rs:270-274 | On books that do not add up, the checked subtraction lets a total go below zero |
| Custody.PayKeepsReplay | contracts/vault/src/lib.rs:265-298 | The event of a payout replays to exactly the books it wrote |
| Vault.VaultContract.Deposit | contracts/vault/src/lib.rs:59-102 | The step-by-step method has exactly the effect and errors of `Custody.Deposit` |
| Vault.VaultContract.AuthorizeAndPay | contracts/vault/src/lib.rs:231-300 | The step-by-step method has exactly the effect and errors of `Custody.Pay` |
| Vault.VaultContract.Release | contracts/vault/src/lib.rs:120-137 | `release` is a payout recorded as a release |
| Vault.VaultContract.Refund | contracts/vault/src/lib.rs:154-171 | `refund` is a payout recorded as a refund |
| Streams.StreamContract.NextStreamId | contracts/stream/src/storage.rs:81-90 | Allocates the successor of the last id, or traps at the end of u64 |
| Streams.StreamContract.AddSenderStream | contracts/stream/src/storage.rs:111-119 | Appends the id to that sender's list only |
| Streams.StreamContract.AddRecipientStream | contracts/stream/src/storage.rs:128-136 | Appends the id to that recipient's list only |
| Streams.StreamContract.CreateStream | contracts/stream/src/lib.rs:58-123 | The method, nested vault call included, has exactly the effect and errors of `Protocol.CreateStream` |
| Streams.StreamContract.Withdraw | contracts/stream/src/lib.rs:162-208 | The same for `withdraw` |
| Streams.StreamContract.WithdrawMax | contracts/stream/src/lib.rs:223-235 | The same for `withdraw_max`, which asks for authorisation only when there is something to pay |
| Streams.StreamContract.CancelStream | contracts/stream/src/lib.rs:248-300 | The same for `cancel_stream` |
| Streams.StreamContract.Pause | contracts/stream/src/lib.rs:377-383 | The same for `pause` |
| Streams.StreamContract.Unpause | contracts/stream/src/lib.rs:386-392 | The same for `unpause` |
| Streams.StreamContract.Slice | contracts/stream/src/lib.rs:427-439 | The loop returns the page of the list; the saturating end never shows |
| Streams.StreamContract.Hydrate | contracts/stream/src/lib.rs:441-451 | The loop returns the stored streams of the ids in order, statuses recomputed |
| Streams.HydratesAll | contracts/stream/src/lib.rs:441-451 | On ids that are all stored, hydrating drops nothing |
| Listings.ShownIsComplete | contracts/stream/src/lib.rs:351-371 | Walking the answered pages of an index whose ids are all stored shows exactly the hydrated index |
| Host.Ledger.Execute | contracts/stream/src/lib.rs:85-107 | One transaction leaves the contracts in exactly the state of one `Protocol.Step` and answers as it does; a failed call, nested or not, leaves no trace |
| Host.Deploy | scripts/deploy.sh:154-158 | The deployed and initialised contracts are the initial state of every run |
| Calls.CallMeets | contracts/stream/src/lib.rs:58-300 | In every reachable state each of the ten calls, by whoever signed it, is refused for exactly the first reason specified and leaves no trace, or answers and changes exactly what is specified in the stream table, the indexes, the flag, both logs, the vault's books and every token balance |
| Calls.SystemMeets | contracts/stream/src/lib.rs:58-392 | The same for every operation after any run of a deployment; closing ledgers moves the clock forward to the ledger named and nothing else |
| Invariants.WithdrawExact | contracts/stream/src/lib.rs:162-208 | The exact outcome of `withdraw` in a reachable state: past the contract's own checks neither vault nor token nor arithmetic refuses |
| Invariants.CancelExact | contracts/stream/src/lib.rs:248-300 | The exact outcome of `cancel_stream` in a reachable state; the remainder is always positive and its refund never refused |
| Invariants.WithdrawKeeps | contracts/stream/src/lib.rs:162-208 | A withdrawal keeps the whole invariant and each id's backing beyond what is owed |
| Invariants.CancelKeeps | contracts/stream/src/lib.rs:248-300 | A cancel keeps the same |
| Invariants.CreateKeeps | contracts/stream/src/lib.rs:58-123 | A creation keeps the same, also for an id that was funded before it existed |
| Invariants.OnlyTheStreamContractPays | contracts/vault/src/lib.rs:244-252 | No outsider's `release` or `refund` ever succeeds, whatever its arguments |
| Runs.RunKeeps | contracts/stream/src/lib.rs:58-300 | The invariant holds after every run, and each id's surplus grows by exactly the donations to it |
| Runs.RunPersists | contracts/stream/src/storage.rs:44-90 | No modelled call, successful or not, changes who is admin, vault or stream contract, or a recorded token; ids only count up |
| Runs.Backing | contracts/vault/src/lib.rs:59-102 | After any run each id's vault balance is what the stream contract owes on it plus what outsiders deposited, in the stream's recorded token |
| Runs.Solvency | contracts/vault/src/storage.rs:66-108 | After any run every `total_locked` is the sum of its streams' balances, non-negative and really held; ids without a token have nothing |
| Runs.EventReplay | contracts/stream/src/events.rs:6-35 | After any run, folding the events of both contracts rebuilds exactly their stored tables |
| Runs.IndexAgreement | contracts/stream/src/storage.rs:81-136 | After any run each party's index is the ascending list of exactly the streams naming it |
| Conservation.StreamConservation | contracts/stream/src/lib.rs:184-290 | After any run, per stream: released + refunded + owed = deposit; inflow = deposit + donations; every payout went to the stream's own party in its own token |
| Conservation.SupplyConservation | contracts/vault/src/lib.rs:276-277 | No run changes the sum of all balances of any token |
| Accounts.AccountBalances | contracts/vault/src/lib.rs:279-298 | After any run every account's balance of every token is its initial balance, plus what the vault's events released and refunded to it, less what they say it deposited, plus its plain transfers |
| Accounts.VaultSurplus | contracts/vault/src/lib.rs:270-277 | What the vault holds beyond `total_locked` is exactly its initial holding plus the plain transfers made to it |
| Accrual.StatusIsExact | contracts/stream/src/math.rs:91-102 | `compute_status` answers the one status whose condition on cancel, start, end and ledger holds |
| Evolution.CancelledIff | contracts/stream/src/lib.rs:259-271 | After any run a stored stream is cancelled if and only if it was before or a `cancel_stream` on it succeeded along the run |
| Evolution.Lifecycle | contracts/stream/src/math.rs:91-102 | Along any run the derived status only moves forward and is one of the four exactly as the terms, the ledger and the cancels of the run say; only Pending and Cancelled are stored, a cancel precedes the end; Pending means nothing streamed, Completed means everything, unless it overflows |
| Evolution.LifecycleFromCreation | contracts/stream/src/lib.rs:58-123 | The same for a new stream, from the terms passed to `create_stream` |
| Evolution.NoOverpayment | contracts/stream/src/lib.rs:178-188 | Along any run withdrawn never exceeds the entitlement, is 0 on the near side of the cliff, and the entitlement never decreases |
| Evolution.CancelDropsStreamedIff | contracts/stream/src/math.rs:30-33 | A cancel lowers the raw streamed amount exactly when it comes before the cliff after something accrued |
| Evolution.CancelSplit | contracts/stream/src/lib.rs:265-298 | A successful cancel splits the deposit into a streamed part covering all withdrawals and a positive remainder, as its event and the vault's books say |
| Evolution.CancelledForever | contracts/stream/src/math.rs:24-33 | After a cancel, along any run, `streamed_amount` is computable and always the frozen value, bounds all withdrawals, and is reached by the next `withdraw_max` |
| Evolution.WithdrawMaxExact | contracts/stream/src/lib.rs:223-235 | The exact outcome of `withdraw_max` in a reachable state; never `ExceedsWithdrawable` |
| BankRun.BankRunPays | contracts/stream/src/lib.rs:223-235 | Any set of recipients calling `withdraw_max` in any order: each call succeeds, answers exactly the entitlement less prior withdrawals, and moves just that from the vault to that recipient |
| BankRun.BankRunBalances | contracts/vault/src/lib.rs:276-277 | After it every account holds, of every token, what it held before plus all that was due to it |
| BankRun.BankRunLeavesNoDust | contracts/vault/src/lib.rs:260-277 | Whatever other streams there are, an ended or cancelled stream that took part in a bank run is owed nothing and only donations are left on it |
| BankRun.BankRunSettlesAll | contracts/stream/src/lib.rs:223-235 | In particular a bank run over a table of guarded streams that ended or were cancelled leaves nothing owed on any |
| Frontier.LockedForever | contracts/stream/src/lib.rs:178-187 | A live stream past its cliff whose accrual overflows is never changed again by any run, and every withdrawal and cancel on it answers an error |
| Frontier.LockedAtEndIff | contracts/stream/src/lib.rs:74-82 | A live stream ends up locked if and only if total·duration exceeds 2^127−1 |
| Frontier.LockedIsReachable | contracts/stream/src/lib.rs:74-82 | A run of two steps that creates such a stream |
| Frontier.VaultNeverOverflows | contracts/vault/src/lib.rs:84-92 | In a reachable state no call of any kind answers the vault's `MathOverflow` |
| Frontier.GuardedNeverRefusedForArithmetic | contracts/stream/src/lib.rs:184-187 | A call answers the stream contract's `MathOverflow` only if it is about a stored stream that fails the guard, whatever other streams exist; the vault's never |
| Frontier.GuardedForever | contracts/stream/src/lib.rs:272-276 | Along any run no call on a guarded stream is ever refused for arithmetic |
| Frontier.GuardedAtCreation | contracts/stream/src/lib.rs:74-82 | A sender who checks total·duration before creating a stream has ruled out every later arithmetic refusal on it |
| Frontier.PaidInFull | contracts/stream/src/lib.rs:223-235 | A live guarded stream, unless its sender may and did cancel it, is paid to the last unit by its outside recipient's `withdraw_max` after any run by anyone that reaches its end ledger |
| Frontier.PaidInFullFromCreation | contracts/stream/src/lib.rs:58-123 | Guarded, non-cancellable terms with an outside recipient guarantee the whole amount at the end from the moment of creation |
| Creation.CreateExact | contracts/stream/src/lib.rs:58-123 | The exact outcome of `create_stream` in a reachable state, the record it stores, and that the pause flag stays |
| Creation.ReservedUntilItsToken | contracts/vault/src/lib.rs:73-79 | While the next id holds a deposit in one token, creations in any other are refused; along any run no id is allocated and no stream added if and only if no creation in that token succeeds, and the first that does takes the id |
| Creation.ReservationIsReachable | contracts/vault/src/lib.rs:59-79 | One unit deposited on id 1 of a fresh deployment brings that about |
| Noninterference.ScheduleIndependence | contracts/stream/src/math.rs:68-85 | Two runs with the same creation and cancel of a stream agree at every later ledger on withdrawn + withdrawable and on the final payout, however withdrawals were timed |
| Noninterference.PauseNonInterference | contracts/stream/src/lib.rs:373-383 | The pause flag changes no answer and no other state of any sequence of withdrawals, cancels, deposits, transfers, ledger closes and refused attempts at the switch |
| Noninterference.FlagStep | contracts/stream/src/lib.rs:373-392 | In every state the pause flag after a step is what the admin's own `pause` or `unpause` sets, and unchanged by every other call, creations included |
| Noninterference.SwitchExact | contracts/stream/src/lib.rs:377-392 | The exact outcome of `pause` and `unpause`: an admin who signs is never refused, the flag and one event follow the call; anyone else is refused |
| Noninterference.PausedStep | contracts/stream/src/lib.rs:386-392 | A paused contract leaves the pause at exactly the steps where the admin signed an unpause, and allocates no id at any step |
| Noninterference.PauseStopsCreation | contracts/stream/src/lib.rs:71-73 | From an admin's pause until the admin itself signs an unpause, every creation is refused and no stream appears, whatever anyone else submits |
| Isolation.WithdrawIsolated | contracts/stream/src/lib.rs:184-199 | A withdrawal moves its amount from vault to recipient and touches no other stream, token total or account |
| Isolation.CancelIsolated | contracts/stream/src/lib.rs:270-290 | A cancel moves the remainder from vault to sender and touches nothing else |
| Isolation.CreateIsolated | contracts/stream/src/lib.rs:107-107 | A creation moves the deposit from sender to vault and touches no other stream's books |
| Streams.RefreshedIsLive | contracts/stream/src/lib.rs:307-312 | What a query shows is the stored record with only the status replaced, by the one that holds now |
| Listings.PagesShowEveryStream | contracts/stream/src/lib.rs:351-371 | After any run, a party that walks the answers of its page endpoint with any positive limit is shown every stream naming it once, in creation order, as stored but under the status its terms, the ledger and its successful cancels give it |
| Paging.PageLength | contracts/stream/src/lib.rs:26-26 | A page has exactly min(limit, 50, what is left) entries |
| Paging.WalkIsComplete | contracts/stream/src/lib.rs:427-439 | Walking from where the last page ended terminates and concatenates to the list |
| Paging.StrideIsCompleteIff | contracts/stream/src/lib.rs:427-430 | Moving on by the requested limit misses nothing if and only if the limit is at most 50 or the list fits one page |
| Registry.RegistryContract.Initialize | contracts/registry/src/lib.rs:45-61 | The method has exactly the effect and errors of `RegistryBooks.Initialize` |
| Registry.RegistryContract.RegisterStream | contracts/registry/src/lib.rs:73-117 | The same for `register_stream` |
| Registry.RegistryContract.UpdateStream | contracts/registry/src/lib.rs:127-173 | The same for `update_stream` |
| Registry.RegistryContract.AddStreamId | contracts/registry/src/storage.rs:65-79 | Writes the next position of the index, or traps at the end of u32 |
| Registry.RegistryContract.GetStreamIdsPage | contracts/registry/src/storage.rs:82-94 | The loop returns the entries at the positions of the page |
| Registry.RegistryContract.GetActiveStreams | contracts/registry/src/lib.rs:206-217 | The loop returns the ids whose record is Active, in registration order |
| Registry.Execute | contracts/registry/src/lib.rs:97-113 | One transaction against the registry takes one step; a failing call is undone |
| RegistryCalls.TablesAlwaysOk | contracts/registry/src/storage.rs:65-98 | After any calls whatever, `initialize` or not, the index lists exactly the recorded ids once, each record holds its last reported value, and nothing was reported for an id without a record |
| RegistryCalls.InitializeExact | contracts/registry/src/lib.rs:45-61 | Error by error outcome; success sets the admin and zeroed statistics and nothing else |
| RegistryCalls.RegisterExact | contracts/registry/src/lib.rs:73-117 | Error by error outcome; success stores exactly the passed parties, token and amount as Active with nothing withdrawn, appends the id, moves the counters by 1, 1, the amount and 0, and logs id and amount |
| RegistryCalls.UpdateExact | contracts/registry/src/lib.rs:127-173 | Error by error outcome; success gives that one record exactly the passed value and status, adds the rise, if any, to `total_withdrawn`, moves `active_streams` with the status, and logs id and value |
| RegistryCalls.OverflowIff | contracts/registry/src/lib.rs:97-113 | In a run that began with `initialize` a call answers `MathOverflow` if and only if the sum of amounts or of upward moves would leave i128; the 64-bit counters never refuse |
| RegistryRuns.ActiveListing | contracts/registry/src/lib.rs:206-217 | `get_active_streams` answers every id whose record is Active, once, in registration order |
| RegistryRuns.UpdateKeeps | contracts/registry/src/lib.rs:136-165 | An update keeps every aggregate in step with the table; the saturating subtraction never saturates |
| RegistryRuns.RegisterKeeps | contracts/registry/src/lib.rs:88-113 | A registration keeps every aggregate and the position index in step with the table |
| RegistryRuns.RegistryCounters | contracts/registry/src/lib.rs:73-117 | In every run that begins with `initialize`: total_streams is the number of records and of index entries, the index lists exactly the recorded ids once, total_streamed is the sum of amounts, active_streams is the number of Active records and of ids `get_active_streams` lists |
| RegistryRuns.RegistryWithdrawals | contracts/registry/src/lib.rs:141-149 | In those runs, over the arguments of the accepted `update_stream` calls: each record holds the last value reported for it, total_withdrawn is the sum of all upward moves between successive reports, at least the sum of the current values, with equality if and only if no report lowered one |
| RegistryRuns.TotalWithdrawnGrows | contracts/registry/src/lib.rs:141-149 | total_withdrawn never decreases |
| RegistryRuns.RegistryPages | contracts/registry/src/lib.rs:191-193 | In those runs an answer of `get_streams_page` is the page of the full list, and walking its answers shows every id once |
| RegistryRuns.LateInitialize | contracts/registry/src/lib.rs:45-61 | After any calls before the `initialize` that succeeds and any calls after it, all aggregates agree with the table if and only if nothing had been registered before it |
| RegistryRuns.LateInitializeLosesCount | contracts/registry/src/lib.rs:51-59 | A run where it does not |

## Left out

- TTL and archival of storage entries: host storage rent; entries are permanent here.
- Argument marshalling in `contracts/stream/src/vault_client.rs`: a call to the configured vault address is a call to the modelled vault, and a call to any other address traps.
- The cryptography behind `require_auth`: who signed is an input of every step.
- `initialize` of the stream contract and the vault, `transfer_admin`, `set_stream_contract` and plain accessors: each is settled by one branch; runs start from the wired deployment, never rewire it and never hand over the admin role.
- Tokens that are not honest (fees, hooks, clawback, trustlines): the token moves exactly `amount` or traps, and each supply fits in an i128.
- Event encoding: events are values in a log; `pause` and `unpause` share one event with a flag.
- Agreement between registry and stream contract: no code calls one from the other.
- `get_all_streams` and the unpaged listings of the stream contract: the same index and loop as the paged ones.
