/** The WhitelistPayouts contract: a payout from a Sputnik DAO to a recipient,
    made only if an allow-list oracle admits the recipient.

    Each entry point is a function from the contract state, the values the
    host supplies (the caller, the attached deposit, the outcome of the
    promise it resumes on) and the call's arguments to the effects it issues:
    promises (function calls, continuations, transfers) and log lines, in the
    order the code issues them, plus the value it returns. */
module WhitelistPayouts {
  import opened Accounts

  const NO_DEPOSIT: nat := 0
  /** Gas for one continuation: 25 TGas. */
  const CALLBACK: nat := 25_000_000_000_000
  /** Gas for the oracle lookup: 5 TGas. */
  const CHECK_CALL_GAS: nat := 5_000_000_000_000

  const ERR_NOT_FACTORY_SUB_ACCOUNT: string := "ERR_CALLED_ONLY_BY_FACTORY_SUB-ACCOUNT"
  const ERR_ZERO_DEPOSIT: string := "ERR_DEPOSIT_AMOUNT_CANNOT_BE_ZERO"
  const ERR_NOT_WHITELISTED: string := "ERR_RECEIVER_IS_NOT_WHITELISTED"
  const ERR_TRANSFER_FAILED: string := "ERR_TRANSFERRING_TO_RECEIVER_ACCOUNT"

  const IS_WHITELISTED: string := "is_whitelisted"

  datatype Result<+T, +E> = Ok(value: T) | Err(error: E)

  /** The error a promise result carries when the promise did not succeed. */
  datatype PromiseError = PromiseFailed

  /** The contract's persistent state: two ids fixed by `new`. */
  datatype Config = Config(sputnikFactory: AccountId, whitelistContract: AccountId)

  /** What the host tells a call about its context. */
  datatype Env = Env(predecessor: AccountId, attachedDeposit: nat, currentAccount: AccountId)

  /** A continuation on the contract itself, with the arguments it carries. */
  datatype Callback =
    | OnWhitelisted(accountId: AccountId, amount: nat, payer: AccountId)
    | OnTransferred(accountId: AccountId, amount: nat, payer: AccountId)

  /** A log line: a plain marker, or the JSON record of a completed payout. */
  datatype LogEntry =
    | Message(text: string)
    | PayoutRecord(amount: nat, payer: AccountId, receiver: AccountId)

  /** An effect issued by an entry point. `Then` chains its continuation on
      the promise issued just before it. */
  datatype Action =
    | FunctionCall(receiver: AccountId, methodName: string, accountArg: AccountId, deposit: nat, gas: nat)
    | Then(receiver: AccountId, callback: Callback, deposit: nat, gas: nat)
    | Transfer(receiver: AccountId, amount: nat)
    | Log(entry: LogEntry)

  /** What `payout` returns: the new state and the promise chain it built. */
  datatype Step = Step(state: Config, actions: seq<Action>)

  /** What a continuation returns: the new state, its effects and its bool. */
  datatype Reply = Reply(state: Config, actions: seq<Action>, value: bool)

  predicate IsCall(a: Action) { a.FunctionCall? }
  predicate IsThen(a: Action) { a.Then? }
  predicate IsTransfer(a: Action) { a.Transfer? }
  predicate IsLog(a: Action) { a.Log? }

  /** The actions of `acts` that `keep` selects, in their order. */
  function Only(acts: seq<Action>, keep: Action -> bool): (r: seq<Action>)
    ensures |r| <= |acts|
    ensures forall i :: 0 <= i < |r| ==> keep(r[i])
  {
    if acts == [] then []
    else (if keep(acts[0]) then [acts[0]] else []) + Only(acts[1..], keep)
  }

  lemma {:induction false} OnlyAppend(a: seq<Action>, b: seq<Action>, keep: Action -> bool)
    ensures Only(a + b, keep) == Only(a, keep) + Only(b, keep)
  {
    if a == [] {
      assert a + b == b;
    } else {
      assert (a + b)[1..] == a[1..] + b;
      OnlyAppend(a[1..], b, keep);
    }
  }

  /** Every continuation follows the promise it is chained on: a function
      call or a transfer. */
  predicate ChainedOnPromise(acts: seq<Action>) {
    forall i {:trigger IsThen(acts[i])} :: 0 <= i < |acts| && IsThen(acts[i]) ==> 0 < i && (IsCall(acts[i - 1]) || IsTransfer(acts[i - 1]))
  }

  /** The deposit a function call or a continuation attaches. */
  function AttachedDeposit(a: Action): nat {
    match a
    case FunctionCall(_, _, _, deposit, _) => deposit
    case Then(_, _, deposit, _) => deposit
    case _ => 0
  }

  /** No call or continuation in `acts` carries value: only transfers do. */
  predicate AttachesNoDeposit(acts: seq<Action>) {
    forall i :: 0 <= i < |acts| ==> AttachedDeposit(acts[i]) == 0
  }

  /** The host executes one action issued by `from`; `transferOk` says
      whether a transfer is delivered (a failed transfer returns its value
      to the sender, so the ledger is unchanged). */
  function Effect(l: Ledger, from: AccountId, a: Action, transferOk: bool): Ledger {
    match a
    case FunctionCall(to, _, _, deposit, _) => Move(l, from, to, deposit)
    case Then(to, _, deposit, _) => Move(l, from, to, deposit)
    case Transfer(to, amount) => if transferOk then Move(l, from, to, amount) else l
    case Log(_) => l
  }

  /** The host executes all the actions `from` issued, in order. */
  function Settle(l: Ledger, from: AccountId, acts: seq<Action>, transferOk: bool): Ledger
    decreases |acts|
  {
    if acts == [] then l
    else Settle(Effect(l, from, acts[0], transferOk), from, acts[1..], transferOk)
  }

  /** Only the transfers among unfunded calls decide how the ledger changes. */
  lemma {:induction false} SettleOnlyTransfers(l: Ledger, from: AccountId, acts: seq<Action>, transferOk: bool)
    requires AttachesNoDeposit(acts)
    ensures Settle(l, from, acts, transferOk) == Settle(l, from, Only(acts, IsTransfer), transferOk)
    decreases |acts|
  {
    if acts != [] {
      var rest := acts[1..];
      assert AttachesNoDeposit(rest) by {
        forall i | 0 <= i < |rest| ensures AttachedDeposit(rest[i]) == 0 {
          assert rest[i] == acts[i + 1];
        }
      }
      SettleOnlyTransfers(Effect(l, from, acts[0], transferOk), from, rest, transferOk);
      if IsTransfer(acts[0]) {
        var t := Only(acts, IsTransfer);
        assert t == [acts[0]] + Only(rest, IsTransfer);
        assert t[1..] == Only(rest, IsTransfer);
      } else {
        assert AttachedDeposit(acts[0]) == 0;
        assert Effect(l, from, acts[0], transferOk) == l;
        assert Only(acts, IsTransfer) == [] + Only(rest, IsTransfer);
        assert [] + Only(rest, IsTransfer) == Only(rest, IsTransfer);
        assert Settle(l, from, acts, transferOk) == Settle(l, from, rest, transferOk);
      }
    }
  }

  /** The ledger change of a single transfer. */
  lemma SettleOneTransfer(l: Ledger, from: AccountId, to: AccountId, amount: nat, transferOk: bool)
    ensures Settle(l, from, [Transfer(to, amount)], transferOk)
      == if transferOk then Move(l, from, to, amount) else l
  {
    assert [Transfer(to, amount)][1..] == [];
  }

  // ---------------------------------------------------------------------
  // Authorization

  /** Rust's `str::ends_with`. */
  predicate EndsWith(s: string, suffix: string) {
    |suffix| <= |s| && s[|s| - |suffix|..] == suffix
  }

  /** The caller test of `payout`: the id ends with "." followed by the factory id. */
  predicate IsFactorySubAccount(id: AccountId, factory: AccountId) {
    EndsWith(id, "." + factory)
  }

  /** An id passes exactly when it is some prefix, a dot and the factory id. */
  lemma SubAccountIffDotted(id: AccountId, factory: AccountId)
    ensures IsFactorySubAccount(id, factory) <==> exists p :: id == p + "." + factory
  {
    if IsFactorySubAccount(id, factory) {
      var p := id[..|id| - |factory| - 1];
      assert id == p + "." + factory by {
        assert id == id[..|id| - |factory| - 1] + id[|id| - |factory| - 1..];
      }
    }
    forall p | id == p + "." + factory ensures IsFactorySubAccount(id, factory) {
      assert id[|id| - |"." + factory|..] == "." + factory;
    }
  }

  /** The test is a suffix test: any deeper descendant of a DAO passes too. */
  lemma DescendantAccepted(x: AccountId, dao: AccountId, factory: AccountId)
    ensures IsFactorySubAccount(x + "." + dao + "." + factory, factory)
  {
    var id := x + "." + dao + "." + factory;
    assert id == (x + "." + dao) + "." + factory;
    SubAccountIffDotted(id, factory);
  }

  /** The factory itself is not one of its sub-accounts. */
  lemma FactoryRejected(factory: AccountId)
    ensures !IsFactorySubAccount(factory, factory)
  {
  }

  // ---------------------------------------------------------------------
  // Entry points

  /** `new`: both ids are stored as given; no entry point writes them later. */
  function New(sputnikFactory: AccountId, whitelistContract: AccountId): (c: Config)
    ensures c.sputnikFactory == sputnikFactory && c.whitelistContract == whitelistContract
  {
    Config(sputnikFactory, whitelistContract)
  }

  /** `payout`: checks the caller and the deposit, then asks the oracle about
      `accountId` and chains `on_whitelisted` on the answer. */
  function Payout(self: Config, env: Env, accountId: AccountId): (r: Result<Step, string>)
    ensures r.Err? <==> !IsFactorySubAccount(env.predecessor, self.sputnikFactory) || env.attachedDeposit == 0
    ensures !IsFactorySubAccount(env.predecessor, self.sputnikFactory) ==> r == Err(ERR_NOT_FACTORY_SUB_ACCOUNT)
    ensures IsFactorySubAccount(env.predecessor, self.sputnikFactory) && env.attachedDeposit == 0 ==>
      r == Err(ERR_ZERO_DEPOSIT)
    ensures r.Ok? ==>
      && r.value.state == self
      && Only(r.value.actions, IsCall)
         == [FunctionCall(self.whitelistContract, IS_WHITELISTED, accountId, NO_DEPOSIT, CHECK_CALL_GAS)]
      && Only(r.value.actions, IsThen)
         == [Then(env.currentAccount, OnWhitelisted(accountId, env.attachedDeposit, env.predecessor),
                  NO_DEPOSIT, 2 * CALLBACK)]
      && Only(r.value.actions, IsTransfer) == []
      && Only(r.value.actions, IsLog) == []
      && AttachesNoDeposit(r.value.actions)
      && ChainedOnPromise(r.value.actions)
  {
    if !IsFactorySubAccount(env.predecessor, self.sputnikFactory) then Err(ERR_NOT_FACTORY_SUB_ACCOUNT)
    else if env.attachedDeposit == 0 then Err(ERR_ZERO_DEPOSIT)
    else
      Ok(Step(self, [
        FunctionCall(self.whitelistContract, IS_WHITELISTED, accountId, NO_DEPOSIT, CHECK_CALL_GAS),
        Then(env.currentAccount, OnWhitelisted(accountId, env.attachedDeposit, env.predecessor),
             NO_DEPOSIT, CALLBACK * 2)
      ]))
  }

  /** The eligibility test of `on_whitelisted`. */
  predicate HasWhitelisted(promiseSuccess: bool, isWhitelisted: Result<bool, PromiseError>) {
    promiseSuccess && match isWhitelisted { case Ok(v) => v case _ => false }
  }

  /** `on_whitelisted`: pays the recipient and chains `on_transferred` when
      the oracle answered true, and refunds the payer otherwise. */
  function OnWhitelistedStep(self: Config, currentAccount: AccountId, promiseSuccess: bool,
                             isWhitelisted: Result<bool, PromiseError>,
                             accountId: AccountId, amount: nat, payer: AccountId): (r: Reply)
    ensures r.state == self
    ensures r.value <==> promiseSuccess && isWhitelisted == Ok(true)
    ensures AttachesNoDeposit(r.actions) && ChainedOnPromise(r.actions) && Only(r.actions, IsCall) == []
    ensures r.value ==>
      && Only(r.actions, IsTransfer) == [Transfer(accountId, amount)]
      && Only(r.actions, IsThen)
         == [Then(currentAccount, OnTransferred(accountId, amount, payer), NO_DEPOSIT, CALLBACK)]
      && Only(r.actions, IsLog) == []
    ensures !r.value ==>
      && Only(r.actions, IsLog) == [Log(Message(ERR_NOT_WHITELISTED))]
      && Only(r.actions, IsTransfer) == [Transfer(payer, amount)]
      && Only(r.actions, IsThen) == []
  {
    if HasWhitelisted(promiseSuccess, isWhitelisted) then
      Reply(self, [
        Transfer(accountId, amount),
        Then(currentAccount, OnTransferred(accountId, amount, payer), NO_DEPOSIT, CALLBACK)
      ], true)
    else
      Reply(self, [Log(Message(ERR_NOT_WHITELISTED)), Transfer(payer, amount)], false)
  }

  /** `on_transferred`: records the payout when the transfer succeeded, and
      refunds the payer otherwise. */
  function OnTransferredStep(self: Config, promiseSuccess: bool,
                             accountId: AccountId, amount: nat, payer: AccountId): (r: Reply)
    ensures r.state == self
    ensures r.value == promiseSuccess
    ensures AttachesNoDeposit(r.actions)
    ensures Only(r.actions, IsCall) == [] && Only(r.actions, IsThen) == []
    ensures r.value ==>
      && Only(r.actions, IsLog) == [Log(PayoutRecord(amount, payer, accountId))]
      && Only(r.actions, IsTransfer) == []
    ensures !r.value ==>
      && Only(r.actions, IsLog) == [Log(Message(ERR_TRANSFER_FAILED))]
      && Only(r.actions, IsTransfer) == [Transfer(payer, amount)]
  {
    if promiseSuccess then
      Reply(self, [Log(PayoutRecord(amount, payer, accountId))], true)
    else
      Reply(self, [Log(Message(ERR_TRANSFER_FAILED)), Transfer(payer, amount)], false)
  }
}
