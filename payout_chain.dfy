/** One payout from start to end: `payout`, then the continuation it
    scheduled, then the continuation that one scheduled, if any. `Run` plays
    the host. It resumes each continuation exactly once, with the outcome of
    the promise it was chained on, and it executes the transfers each stage
    issues against a ledger.

    The host's outcomes are inputs. `oracle` is what the `is_whitelisted`
    lookup returned. `transferOk` says whether the transfer to the recipient
    was delivered. Refunds to the payer are taken to be delivered, because
    the contract never observes their outcome. */
module PayoutChain {
  import opened Accounts
  import opened WhitelistPayouts

  /** What `on_whitelisted` sees of the lookup: `is_promise_success()` and
      the decoded callback result. */
  datatype OracleReply = OracleReply(promiseSuccess: bool, result: Result<bool, PromiseError>)

  datatype RunOutcome =
    | Aborted(message: string, ledger: Ledger)
    | Completed(trace: seq<Action>, values: seq<bool>, ledger: Ledger)

  /** The host resumes a continuation of the contract with the outcome of
      the promise it was chained on. */
  function Resume(self: Config, current: AccountId, cb: Callback,
                  oracle: OracleReply, transferOk: bool): (r: Reply)
    ensures r.state == self
  {
    match cb
    case OnWhitelisted(accountId, amount, payer) =>
      OnWhitelistedStep(self, current, oracle.promiseSuccess, oracle.result, accountId, amount, payer)
    case OnTransferred(accountId, amount, payer) =>
      OnTransferredStep(self, transferOk, accountId, amount, payer)
  }

  /** The payout reaches the recipient only if the oracle said yes and the
      transfer was delivered. */
  predicate Delivered(oracle: OracleReply, transferOk: bool) {
    HasWhitelisted(oracle.promiseSuccess, oracle.result) && transferOk
  }

  /** The whole chain against ledger `l0`. The precondition is the host's: a
      call's attached deposit is taken from its predecessor, so the
      predecessor can pay it. A call that panics is reverted, and its deposit
      goes back to the predecessor. */
  function Run(self: Config, env: Env, recipient: AccountId,
               oracle: OracleReply, transferOk: bool, l0: Ledger): RunOutcome
    requires Bal(l0, env.predecessor) >= env.attachedDeposit
  {
    match Payout(self, env, recipient)
    case Err(e) => Aborted(e, l0)
    case Ok(s) =>
      var current := env.currentAccount;
      var l1 := Move(l0, env.predecessor, current, env.attachedDeposit);
      var r2 := Resume(self, current, Only(s.actions, IsThen)[0].callback, oracle, transferOk);
      var next := Only(r2.actions, IsThen);
      // A transfer the stage chained a continuation on is the observed one.
      var l2 := Settle(l1, current, r2.actions, if next == [] then true else transferOk);
      if next == [] then
        Completed(s.actions + r2.actions, [r2.value], l2)
      else
        var r3 := Resume(self, current, next[0].callback, oracle, transferOk);
        Completed(s.actions + r2.actions + r3.actions, [r2.value, r3.value],
                  Settle(l2, current, r3.actions, true))
  }

  /** Where the deposit ends up. */
  function Destination(env: Env, recipient: AccountId, oracle: OracleReply, transferOk: bool): AccountId {
    if Delivered(oracle, transferOk) then recipient else env.predecessor
  }

  /** Conservation. A run aborts exactly when `payout` rejects the call, and
      then no balance changes. Otherwise, for every lookup outcome and
      transfer outcome, the deposit leaves the payer and is credited exactly
      once. It goes to the recipient if delivered, else back to the payer.
      No other account changes, the contract's own included. */
  lemma Conservation(self: Config, env: Env, recipient: AccountId,
                     oracle: OracleReply, transferOk: bool, l0: Ledger)
    requires Bal(l0, env.predecessor) >= env.attachedDeposit
    ensures var o := Run(self, env, recipient, oracle, transferOk, l0);
      && (o.Aborted? <==>
           !IsFactorySubAccount(env.predecessor, self.sputnikFactory) || env.attachedDeposit == 0)
      && (o.Aborted? ==> o.ledger == l0)
      && (o.Completed? ==>
           forall a :: Bal(o.ledger, a) as int
             == Bal(l0, a)
                - (if a == env.predecessor then env.attachedDeposit else 0)
                + (if a == Destination(env, recipient, oracle, transferOk) then env.attachedDeposit else 0))
  {
    var payer, d, current := env.predecessor, env.attachedDeposit, env.currentAccount;
    var p := Payout(self, env, recipient);
    if p.Ok? {
      var l1 := Move(l0, payer, current, d);
      assert Bal(l1, current) >= d;
      assert Only(p.value.actions, IsThen)[0].callback == OnWhitelisted(recipient, d, payer);
      var r2 := OnWhitelistedStep(self, current, oracle.promiseSuccess, oracle.result, recipient, d, payer);
      if r2.value {
        SettleOnlyTransfers(l1, current, r2.actions, transferOk);
        SettleOneTransfer(l1, current, recipient, d, transferOk);
        var l2 := Settle(l1, current, r2.actions, transferOk);
        assert Only(r2.actions, IsThen)[0].callback == OnTransferred(recipient, d, payer);
        var r3 := OnTransferredStep(self, transferOk, recipient, d, payer);
        SettleOnlyTransfers(l2, current, r3.actions, true);
        if !transferOk {
          SettleOneTransfer(l2, current, payer, d, true);
        }
      } else {
        SettleOnlyTransfers(l1, current, r2.actions, true);
        SettleOneTransfer(l1, current, payer, d, true);
      }
    }
  }

  /** What a completed run issued when the oracle did not admit the
      recipient: the one lookup, the one continuation, one refund and one
      log line saying so. No transfer goes to the recipient. */
  lemma IneligibleTrace(self: Config, env: Env, recipient: AccountId,
                        oracle: OracleReply, transferOk: bool, l0: Ledger)
    requires Bal(l0, env.predecessor) >= env.attachedDeposit
    requires Run(self, env, recipient, oracle, transferOk, l0).Completed?
    requires !HasWhitelisted(oracle.promiseSuccess, oracle.result)
    ensures var o := Run(self, env, recipient, oracle, transferOk, l0);
      && Only(o.trace, IsCall)
         == [FunctionCall(self.whitelistContract, IS_WHITELISTED, recipient, NO_DEPOSIT, CHECK_CALL_GAS)]
      && Only(o.trace, IsThen)
         == [Then(env.currentAccount, OnWhitelisted(recipient, env.attachedDeposit, env.predecessor),
                  NO_DEPOSIT, 2 * CALLBACK)]
      && Only(o.trace, IsTransfer) == [Transfer(env.predecessor, env.attachedDeposit)]
      && Only(o.trace, IsLog) == [Log(Message(ERR_NOT_WHITELISTED))]
      && o.values == [false]
  {
    var s := Payout(self, env, recipient).value;
    var cb := Only(s.actions, IsThen)[0].callback;
    var r2 := Resume(self, env.currentAccount, cb, oracle, transferOk);
    assert Run(self, env, recipient, oracle, transferOk, l0).trace == s.actions + r2.actions;
    OnlyAppend(s.actions, r2.actions, IsCall);
    OnlyAppend(s.actions, r2.actions, IsThen);
    OnlyAppend(s.actions, r2.actions, IsTransfer);
    OnlyAppend(s.actions, r2.actions, IsLog);
  }

  /** What a completed run issued when the oracle admitted the recipient:
      the one lookup, the two continuations, exactly one transfer to the
      recipient, one refund only if that transfer failed, and exactly one log
      line naming how the chain ended. The continuations get 2 * CALLBACK and
      CALLBACK gas, so `on_whitelisted` keeps CALLBACK for itself after
      prepaying `on_transferred`. */
  lemma EligibleTrace(self: Config, env: Env, recipient: AccountId,
                      oracle: OracleReply, transferOk: bool, l0: Ledger)
    requires Bal(l0, env.predecessor) >= env.attachedDeposit
    requires Run(self, env, recipient, oracle, transferOk, l0).Completed?
    requires HasWhitelisted(oracle.promiseSuccess, oracle.result)
    ensures var o := Run(self, env, recipient, oracle, transferOk, l0);
      var payer, d := env.predecessor, env.attachedDeposit;
      && Only(o.trace, IsCall)
         == [FunctionCall(self.whitelistContract, IS_WHITELISTED, recipient, NO_DEPOSIT, CHECK_CALL_GAS)]
      && Only(o.trace, IsThen)
         == [Then(env.currentAccount, OnWhitelisted(recipient, d, payer), NO_DEPOSIT, 2 * CALLBACK),
             Then(env.currentAccount, OnTransferred(recipient, d, payer), NO_DEPOSIT, CALLBACK)]
      && Only(o.trace, IsTransfer)
         == [Transfer(recipient, d)] + (if transferOk then [] else [Transfer(payer, d)])
      && Only(o.trace, IsLog)
         == [if transferOk then Log(PayoutRecord(d, payer, recipient)) else Log(Message(ERR_TRANSFER_FAILED))]
      && o.values == [true, transferOk]
  {
    var payer, d, current := env.predecessor, env.attachedDeposit, env.currentAccount;
    var s := Payout(self, env, recipient).value;
    assert Only(s.actions, IsThen)[0].callback == OnWhitelisted(recipient, d, payer);
    var r2 := OnWhitelistedStep(self, current, oracle.promiseSuccess, oracle.result, recipient, d, payer);
    assert Only(r2.actions, IsThen)[0].callback == OnTransferred(recipient, d, payer);
    var r3 := OnTransferredStep(self, transferOk, recipient, d, payer);
    EligibleRunTrace(self, env, recipient, oracle, transferOk, l0);
    EligibleStagesCompose(s.actions, r2.actions, r3.actions,
      FunctionCall(self.whitelistContract, IS_WHITELISTED, recipient, NO_DEPOSIT, CHECK_CALL_GAS),
      Then(current, OnWhitelisted(recipient, d, payer), NO_DEPOSIT, 2 * CALLBACK),
      Then(current, OnTransferred(recipient, d, payer), NO_DEPOSIT, CALLBACK),
      Transfer(recipient, d), Only(r3.actions, IsTransfer), Only(r3.actions, IsLog));
  }

  lemma EligibleRunTrace(self: Config, env: Env, recipient: AccountId,
                         oracle: OracleReply, transferOk: bool, l0: Ledger)
    requires Bal(l0, env.predecessor) >= env.attachedDeposit
    requires Run(self, env, recipient, oracle, transferOk, l0).Completed?
    requires HasWhitelisted(oracle.promiseSuccess, oracle.result)
    ensures var payer, d, current := env.predecessor, env.attachedDeposit, env.currentAccount;
      var o := Run(self, env, recipient, oracle, transferOk, l0);
      && o.trace == Payout(self, env, recipient).value.actions
                    + OnWhitelistedStep(self, current, oracle.promiseSuccess, oracle.result, recipient, d, payer).actions
                    + OnTransferredStep(self, transferOk, recipient, d, payer).actions
      && o.values == [true, transferOk]
  {
    var payer, d, current := env.predecessor, env.attachedDeposit, env.currentAccount;
    var s := Payout(self, env, recipient).value;
    assert Only(s.actions, IsThen)[0].callback == OnWhitelisted(recipient, d, payer);
    var r2 := OnWhitelistedStep(self, current, oracle.promiseSuccess, oracle.result, recipient, d, payer);
    assert Only(r2.actions, IsThen)[0].callback == OnTransferred(recipient, d, payer);
  }

  /** The filters of the three stages of an eligible run, put together. */
  lemma EligibleStagesCompose(a: seq<Action>, b: seq<Action>, c: seq<Action>,
                              call: Action, cb1: Action, cb2: Action, pay: Action,
                              refunds: seq<Action>, logs: seq<Action>)
    requires Only(a, IsCall) == [call] && Only(b, IsCall) == [] && Only(c, IsCall) == []
    requires Only(a, IsThen) == [cb1] && Only(b, IsThen) == [cb2] && Only(c, IsThen) == []
    requires Only(a, IsTransfer) == [] && Only(b, IsTransfer) == [pay] && Only(c, IsTransfer) == refunds
    requires Only(a, IsLog) == [] && Only(b, IsLog) == [] && Only(c, IsLog) == logs
    ensures Only(a + b + c, IsCall) == [call]
    ensures Only(a + b + c, IsThen) == [cb1, cb2]
    ensures Only(a + b + c, IsTransfer) == [pay] + refunds
    ensures Only(a + b + c, IsLog) == logs
  {
    StagesCompose(a, b, c);
    assert [call] + [] + [] == [call];
    assert [cb1] + [cb2] + [] == [cb1, cb2];
    assert [] + [pay] + refunds == [pay] + refunds;
    assert [] + [] + logs == logs;
  }

  /** Filters of a three-stage trace are the concatenated filters of its stages. */
  lemma StagesCompose(a: seq<Action>, b: seq<Action>, c: seq<Action>)
    ensures Only(a + b + c, IsCall) == Only(a, IsCall) + Only(b, IsCall) + Only(c, IsCall)
    ensures Only(a + b + c, IsThen) == Only(a, IsThen) + Only(b, IsThen) + Only(c, IsThen)
    ensures Only(a + b + c, IsTransfer) == Only(a, IsTransfer) + Only(b, IsTransfer) + Only(c, IsTransfer)
    ensures Only(a + b + c, IsLog) == Only(a, IsLog) + Only(b, IsLog) + Only(c, IsLog)
  {
    OnlyAppend3(a, b, c, IsCall);
    OnlyAppend3(a, b, c, IsThen);
    OnlyAppend3(a, b, c, IsTransfer);
    OnlyAppend3(a, b, c, IsLog);
  }

  lemma OnlyAppend3(a: seq<Action>, b: seq<Action>, c: seq<Action>, keep: Action -> bool)
    ensures Only(a + b + c, keep) == Only(a, keep) + Only(b, keep) + Only(c, keep)
  {
    OnlyAppend(a + b, c, keep);
    OnlyAppend(a, b, keep);
  }

  /** A failed lookup, an `Err` result and `Ok(false)` are handled alike: the
      reply does not depend on which one it was. */
  lemma ErrorAndNoAreAlike(self: Config, current: AccountId, promiseSuccess: bool, e: PromiseError,
                           accountId: AccountId, amount: nat, payer: AccountId)
    ensures OnWhitelistedStep(self, current, promiseSuccess, Err(e), accountId, amount, payer)
         == OnWhitelistedStep(self, current, promiseSuccess, Ok(false), accountId, amount, payer)
         == OnWhitelistedStep(self, current, false, Ok(true), accountId, amount, payer)
  {
  }

  // ---------------------------------------------------------------------
  // The repository's tests, as instances of the lemmas above.

  const ONE_NEAR: nat := 1_000_000_000_000_000_000_000_000

  /** A caller outside the factory is rejected. */
  lemma NotCalledByDaoAccount()
    ensures Payout(New("sputnik.near", "whitelist.near"),
                   Env("dao.near", ONE_NEAR, "whitelist-payouts.near"), "alice.near")
         == Err(ERR_NOT_FACTORY_SUB_ACCOUNT)
  {
  }

  /** A DAO of the factory that attaches nothing is rejected. */
  lemma ZeroDepositRejected()
    ensures Payout(New("sputnik.near", "whitelist.near"),
                   Env("dao.sputnik.near", 0, "whitelist-payouts.near"), "alice.near")
         == Err(ERR_ZERO_DEPOSIT)
  {
    assert "dao.sputnik.near" == "dao" + "." + "sputnik.near";
    SubAccountIffDotted("dao.sputnik.near", "sputnik.near");
  }

  /** The simulated set-up: the DAO and the users start with 10 NEAR each. */
  predicate SimStart(l0: Ledger) {
    Bal(l0, "dao.sputnik") == 10 * ONE_NEAR && Bal(l0, "alice") == 10 * ONE_NEAR && Bal(l0, "bob") == 10 * ONE_NEAR
  }

  function SimConfig(): Config { New("sputnik", "smart-whitelist") }

  function SimEnv(): Env { Env("dao.sputnik", ONE_NEAR, "whitelist-payouts") }

  lemma SimCallerAccepted()
    ensures IsFactorySubAccount(SimEnv().predecessor, SimConfig().sputnikFactory)
  {
    assert "dao.sputnik" == "dao" + "." + "sputnik";
    SubAccountIffDotted("dao.sputnik", "sputnik");
  }

  /** An allow-listed recipient receives 1 NEAR and the DAO pays it. */
  lemma SuccessfulPayout(l0: Ledger)
    requires SimStart(l0)
    ensures var o := Run(SimConfig(), SimEnv(), "alice", OracleReply(true, Ok(true)), true, l0);
      && o.Completed? && Only(o.trace, IsLog) == [Log(PayoutRecord(ONE_NEAR, "dao.sputnik", "alice"))]
      && Bal(o.ledger, "alice") == 11 * ONE_NEAR && Bal(o.ledger, "dao.sputnik") == 9 * ONE_NEAR
  {
    SimCallerAccepted();
    Conservation(SimConfig(), SimEnv(), "alice", OracleReply(true, Ok(true)), true, l0);
    EligibleTrace(SimConfig(), SimEnv(), "alice", OracleReply(true, Ok(true)), true, l0);
  }

  /** A recipient the oracle does not admit: one log line, and the DAO's and
      the recipient's balances are as they were. */
  lemma AccountIsNotWhitelisted(l0: Ledger)
    requires SimStart(l0)
    ensures var o := Run(SimConfig(), SimEnv(), "bob", OracleReply(true, Ok(false)), true, l0);
      && o.Completed? && Only(o.trace, IsLog) == [Log(Message(ERR_NOT_WHITELISTED))]
      && Bal(o.ledger, "dao.sputnik") == 10 * ONE_NEAR && Bal(o.ledger, "bob") == 10 * ONE_NEAR
  {
    SimCallerAccepted();
    Conservation(SimConfig(), SimEnv(), "bob", OracleReply(true, Ok(false)), true, l0);
    IneligibleTrace(SimConfig(), SimEnv(), "bob", OracleReply(true, Ok(false)), true, l0);
  }

  /** A recipient with no account is not on the allow-list either: one log
      line, and the DAO's balance is as it was. */
  lemma NonExistingAccount(l0: Ledger)
    requires SimStart(l0)
    ensures var o := Run(SimConfig(), SimEnv(), "charlie", OracleReply(true, Ok(false)), false, l0);
      && o.Completed? && Only(o.trace, IsLog) == [Log(Message(ERR_NOT_WHITELISTED))]
      && Bal(o.ledger, "dao.sputnik") == 10 * ONE_NEAR
  {
    SimCallerAccepted();
    Conservation(SimConfig(), SimEnv(), "charlie", OracleReply(true, Ok(false)), false, l0);
    IneligibleTrace(SimConfig(), SimEnv(), "charlie", OracleReply(true, Ok(false)), false, l0);
  }

  /** An allow-listed recipient whose account was deleted before the payout:
      the transfer fails, the DAO is refunded, and nothing reaches the
      recipient. */
  lemma WhitelistedButDeleted(l0: Ledger)
    requires Bal(l0, "dao.sputnik") == 10 * ONE_NEAR && "alice" !in l0
    ensures var o := Run(SimConfig(), SimEnv(), "alice", OracleReply(true, Ok(true)), false, l0);
      && o.Completed? && Only(o.trace, IsLog) == [Log(Message(ERR_TRANSFER_FAILED))]
      && Bal(o.ledger, "dao.sputnik") == 10 * ONE_NEAR && Bal(o.ledger, "alice") == 0
  {
    SimCallerAccepted();
    Conservation(SimConfig(), SimEnv(), "alice", OracleReply(true, Ok(true)), false, l0);
    EligibleTrace(SimConfig(), SimEnv(), "alice", OracleReply(true, Ok(true)), false, l0);
  }
}
