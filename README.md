# WhitelistPayouts, modelled in Dafny

WhitelistPayouts is a NEAR contract. A Sputnik DAO uses it to pay native value to a
recipient, but only if an allow-list oracle admits that recipient. One payout is a
chain of three calls:

1. `payout` accepts only callers whose account id ends with `.` followed by the
   factory id, and only a non-zero attached deposit. It then asks the oracle
   `is_whitelisted(account_id)` and chains `on_whitelisted` on the answer.
2. `on_whitelisted` checks the answer. If the oracle answered true, it transfers the
   deposit to the recipient and chains `on_transferred`. Otherwise it logs
   `ERR_RECEIVER_IS_NOT_WHITELISTED` and refunds the payer.
3. `on_transferred` checks the transfer. If it succeeded, it logs a
   `{amount, payer, receiver}` record. Otherwise it logs
   `ERR_TRANSFERRING_TO_RECEIVER_ACCOUNT` and refunds the payer.

The contract has no loops and never updates a field in place: its two configuration
ids are written only by `new`. So every entry point is a pure function here:

- `New` takes the two ids and returns the contract state (`Config`).
- `Payout` takes the state, what the host supplies (`Env`: predecessor, attached
  deposit, current account) and the recipient. It returns either the abort message
  or a `Step`: the unchanged state and the list of effects it issues, which is the
  promise chain it returns.
- `OnWhitelistedStep` and `OnTransferredStep` take the state, the outcome of the
  promise they were chained on and the callback's arguments. Each returns a
  `Reply`: the unchanged state, the list of effects, and its bool result.

Effect lists keep the order in which the code issues them. The effects are function
calls, continuations (`.then`), transfers and log lines.

Files:

- `accounts.dfy` (module `Accounts`): account ids, and an abstract balance ledger
  that observes where value ends up.
- `whitelist_payouts.dfy` (module `WhitelistPayouts`): the contract. It holds the
  constants, the authorization test, the three entry points and `new`. It also holds
  the filters (`Only`) used to state what each entry point issues, and the host's
  execution of the issued transfers against a ledger (`Settle`).
- `payout_chain.dfy` (module `PayoutChain`): `Run` plays the host for one whole
  chain. The theorems about the chain, and the repository's tests as instances of
  them, are here.

The host's answers are inputs to `Run`:

- the lookup's outcome: `is_promise_success()` together with the decoded
  `Result<bool, PromiseError>`;
- whether the transfer to the recipient was delivered.

Refunds to the payer are assumed to be delivered. The contract never observes
their outcome.

Points of the code worth knowing:

- The caller test is a suffix test, `ends_with("." + factory)`. So a caller need not
  be a direct child of the factory: deeper descendants such as `x.dao.sputnik` pass
  too (`DescendantAccepted`).
- The log markers are `ERR_RECEIVER_IS_NOT_WHITELISTED` (the oracle did not admit
  the recipient) and `ERR_TRANSFERRING_TO_RECEIVER_ACCOUNT` (the transfer failed).
- In the not-allow-listed branch, the code writes the log line before it issues the
  refund. The action list keeps that order.

## Model

| member | source | states |
|---|---|---|
| `Accounts.Move` | src/lib.rs:103-104 | A transfer the sender can fund takes `amt` from the sender and credits it to the receiver. Every other balance is unchanged. A transfer the sender cannot fund changes nothing. |
| `WhitelistPayouts.SubAccountIffDotted` | src/lib.rs:59-64 | The caller test (`IsFactorySubAccount`) passes exactly when the caller id is some prefix, then `.`, then the factory id. |
| `WhitelistPayouts.DescendantAccepted` | src/lib.rs:59-64 | Because the test is a suffix test, any deeper descendant also passes, e.g. `x.dao.sputnik`. |
| `WhitelistPayouts.FactoryRejected` | src/lib.rs:59-64 | The factory account itself fails the caller test. |
| `WhitelistPayouts.New` | src/lib.rs:49-55 | The state holds the two ids exactly as given. |
| `WhitelistPayouts.Payout` | src/lib.rs:57-87 | Aborts exactly when the caller fails the suffix test or the deposit is zero. The caller test is applied first. An abort carries its message and issues nothing. On success the state is unchanged, and the call issues: one `is_whitelisted(account_id)` call to the oracle with `NO_DEPOSIT` and `CHECK_CALL_GAS`; one `on_whitelisted` continuation on the contract, chained on that call, carrying `(account_id, attached deposit, predecessor)`, with `2 * CALLBACK` gas; no transfer; no log. Nothing it issues attaches a deposit. |
| `WhitelistPayouts.OnWhitelistedStep` | src/lib.rs:89-120 | Returns true exactly when the promise succeeded and its result is `Ok(true)` (the predicate `HasWhitelisted`). When true, it issues exactly one transfer of `amount` to `account_id` and one `on_transferred` continuation chained on it, carrying the same `(account_id, amount, payer)` with `CALLBACK` gas. It writes no log. When false, it writes exactly one `ERR_RECEIVER_IS_NOT_WHITELISTED` log, issues exactly one refund of `amount` to the payer and no continuation. In both cases it makes no call and leaves the state unchanged. |
| `WhitelistPayouts.OnTransferredStep` | src/lib.rs:122-144 | Returns whether the transfer succeeded. On success it writes exactly one `{amount, payer, receiver}` record and issues no transfer. On failure it writes exactly one `ERR_TRANSFERRING_TO_RECEIVER_ACCOUNT` log and issues exactly one refund of `amount` to the payer. Neither branch schedules anything, and the state is unchanged. |
| `PayoutChain.Resume` | src/lib.rs:29-45 | Resuming a continuation never changes the contract state. |
| `PayoutChain.Conservation` | src/lib.rs:57-144 | For every lookup outcome and every transfer outcome, a run aborts exactly when `payout` rejects the call, and an aborted run moves no funds. A completed run takes the deposit from the payer and credits it exactly once. It goes to the recipient when the oracle said yes and the transfer was delivered, and back to the payer otherwise. No other balance changes, the contract's own included. |
| `PayoutChain.IneligibleTrace` | src/lib.rs:97-119 | When the oracle did not admit the recipient, the whole chain issued exactly one lookup, one continuation, one refund to the payer (and no transfer to the recipient), and one `ERR_RECEIVER_IS_NOT_WHITELISTED` log. Its result is `[false]`. |
| `PayoutChain.EligibleTrace` | src/lib.rs:70-143 | When the oracle admitted the recipient, the whole chain issued exactly one lookup with `CHECK_CALL_GAS` and two continuations, with `2 * CALLBACK` and `CALLBACK` gas. It issued exactly one transfer to the recipient, plus one refund to the payer only if that transfer failed. It wrote exactly one log: the payout record on success, `ERR_TRANSFERRING_TO_RECEIVER_ACCOUNT` on failure. Its results are `[true, transferOk]`. |
| `PayoutChain.ErrorAndNoAreAlike` | src/lib.rs:97-100 | A failed lookup, an `Err` result and `Ok(false)` produce the same reply (none of them satisfies `HasWhitelisted`). |
| `PayoutChain.NotCalledByDaoAccount` | src/lib.rs:178-188 | `dao.near` calling with factory `sputnik.near` is rejected with `ERR_CALLED_ONLY_BY_FACTORY_SUB-ACCOUNT`. |
| `PayoutChain.ZeroDepositRejected` | src/lib.rs:190-200 | `dao.sputnik.near` attaching 0 is rejected with `ERR_DEPOSIT_AMOUNT_CANNOT_BE_ZERO`. |
| `PayoutChain.SuccessfulPayout` | tests/sim/main.rs:5-36 | An allow-listed `alice` ends with 11 NEAR and the DAO with 9 NEAR, and the payout record is the only log. |
| `PayoutChain.AccountIsNotWhitelisted` | tests/sim/main.rs:38-69 | For a recipient `bob` who is not allow-listed, there is exactly one log, `ERR_RECEIVER_IS_NOT_WHITELISTED`. The DAO's and bob's balances are unchanged. |
| `PayoutChain.NonExistingAccount` | tests/sim/main.rs:71-95 | For a recipient with no account, there is exactly one `ERR_RECEIVER_IS_NOT_WHITELISTED` log, and the DAO's balance is unchanged. |
| `PayoutChain.WhitelistedButDeleted` | tests/sim/main.rs:97-126 | Starting from the DAO's 10 NEAR and no `alice` account (deleted before the payout), the transfer to the allow-listed `alice` fails, `ERR_TRANSFERRING_TO_RECEIVER_ACCOUNT` is the only log, the DAO ends with its 10 NEAR and `alice` with nothing. |

## Left out

- Gas metering and fees. `CALLBACK` and `CHECK_CALL_GAS` are plain naturals. The model does not check that a budget suffices. The simulation tests' balance tolerance for gas is not modelled: balances are exact.
- Amounts and balances are unbounded naturals, not `u128`. The contract does no arithmetic on amounts, so nothing can overflow. `2 * CALLBACK` (50 TGas) fits in `u64`.
- JSON and Borsh serialisation. The `is_whitelisted` argument, the `U128` amounts and the payout record are structured values, not strings.
- `#[private]` enforcement on the two continuations is not modelled. Neither are the predecessor and deposit those calls see.
- `PromiseError` has a single constructor. The code treats every error alike.
- If a refund to the payer fails, nothing is modelled: `Run` assumes every refund is delivered, because the code never observes a refund's outcome.
- Concurrency between chains. `Run` plays one chain at a time, so another chain cannot interleave with it on the contract's balance.
- `PayoutChain.Run` requires that the caller can fund its attached deposit. That is the host's guarantee, not the contract's.
- A call that panics is taken to revert with its deposit returned. Its effects are the empty list.
- The oracle's admission rules and the simulation harness (tests/sim/utils.rs): the oracle's answer is an input.
- The check at tests/sim/main.rs:67 reads the DAO's balance where bob's is meant. `AccountIsNotWhitelisted` states bob's balance as the test intends.
