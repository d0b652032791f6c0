/** ninja-atomic-swap/helpers.ts: the variant that funds a channel by paying
    its counterfactual address and defunds it by deploying and paying out in
    one call. Its codec, `createHashLockChannel` and `swap` are identical to
    nitro-atomic-swap/helpers.ts and are modelled there. Gas is read from
    `parseTransaction`; see `GasCounterAsWritten`. */
module NinjaHelpers {
  import opened Results
  import opened Bytes
  import opened Constants
  import opened NitroProtocol
  import opened TwoChainSetup
  import NitroHelpers

  /** Everything `fundChannel` does, in order, given the address the factory
      reports for the channel and the `value` of the first `Transfer` event
      the token emits. With a token the proposer transfers `SWAP_AMOUNT`
      tokens to the channel address; without one, `token.once` throws inside
      the promise executor, so the script sends `SWAP_AMOUNT` wei instead and
      then throws that `TypeError` when it awaits the promise. */
  function FundChannelRun(
    channelAddress: Address, token: Option<Address>, initialState: State, proposer: Address, joiner: Address,
    firstTransferValue: nat): Run<ChannelId>
  {
    var channelId := ChannelIdOf(initialState.channel);
    var payment := match token
      case Some(t) => TransferToken(t, channelAddress, SWAP_AMOUNT)
      case None => SendValue(channelAddress, SWAP_AMOUNT);
    var paid := [
      Sign(Signature(proposer, initialState)),
      Sign(Signature(joiner, initialState.(turnNum := 1))),
      payment,
      Sign(Signature(proposer, initialState.(turnNum := 2)))];
    if token.None? then Run(Threw(TypeError), paid)
    else if firstTransferValue != 0 then
      Run(Returned(channelId), paid + [Sign(Signature(joiner, initialState.(turnNum := 3)))])
    else Run(Waiting, paid)
  }

  /** `fundChannel`, charging the proposer the gas `parseTransaction` reports
      for the funding transaction. */
  method FundChannel(
    channelAddress: Address, token: Option<Address>, initialState: State, proposer: Actor, joiner: Actor,
    firstTransferValue: nat, receiptGasUsed: nat, structLogs: seq<StructLog>)
    returns (run: Run<ChannelId>)
    modifies proposer
    ensures run == FundChannelRun(channelAddress, token, initialState, proposer.signingAddress,
                                  joiner.signingAddress, firstTransferValue)
    ensures proposer.gasSpent == old(proposer.gasSpent) + receiptGasUsed
  {
    var channelId := ChannelIdOf(initialState.channel);
    var actions := [Sign(Signature(proposer.signingAddress, initialState))];
    actions := actions + [Sign(Signature(joiner.signingAddress, initialState.(turnNum := 1)))];
    if token.Some? {
      actions := actions + [TransferToken(token.value, channelAddress, SWAP_AMOUNT)];
    } else {
      actions := actions + [SendValue(channelAddress, SWAP_AMOUNT)];
    }
    var report := ParseTransaction(receiptGasUsed, structLogs);
    proposer.SpendGas(report.gasUsed);
    actions := actions + [Sign(Signature(proposer.signingAddress, initialState.(turnNum := 2)))];
    if token.None? {
      return Run(Threw(TypeError), actions);
    }
    if firstTransferValue == 0 {
      return Run(Waiting, actions);
    }
    actions := actions + [Sign(Signature(joiner.signingAddress, initialState.(turnNum := 3)))];
    run := Run(Returned(channelId), actions);
  }

  /** The payment and the three signatures before the listener fires. */
  lemma PaidProjections(
    channelAddress: Address, token: Option<Address>, initialState: State, proposer: Address, joiner: Address,
    firstTransferValue: nat)
    ensures var run := FundChannelRun(channelAddress, token, initialState, proposer, joiner, firstTransferValue);
      var paid := run.actions[..4];
      && |run.actions| >= 4
      && SignedStates(paid) == [initialState, initialState.(turnNum := 1), initialState.(turnNum := 2)]
      && Signers(paid) == [proposer, joiner, proposer]
      && ChainCalls(paid) == [paid[2]]
      && (run.completion.Returned? ==> run.actions == paid + [Sign(Signature(joiner, initialState.(turnNum := 3)))])
      && (!run.completion.Returned? ==> run.actions == paid)
  {
    var run := FundChannelRun(channelAddress, token, initialState, proposer, joiner, firstTransferValue);
    var a := run.actions;
    var paid := a[..4];
    assert paid == [a[0]] + [a[1]] + [a[2]] + [a[3]];
    ProjectionsConcat([a[0]] + [a[1]] + [a[2]], [a[3]]);
    ProjectionsConcat([a[0]] + [a[1]], [a[2]]);
    ProjectionsConcat([a[0]], [a[1]]);
  }

  /** What this funding sends: exactly one payment of the constant
      `SWAP_AMOUNT` to the channel address, whatever the outcome says and
      even when it has no slot 0, and PostFund2 is signed only after that
      payment. Without a token the script throws; with one it returns
      exactly when the first `Transfer` event carries a nonzero value,
      whoever it was sent to. */
  lemma FundChannelRunCalls(
    channelAddress: Address, token: Option<Address>, initialState: State, proposer: Address, joiner: Address,
    firstTransferValue: nat)
    ensures var run := FundChannelRun(channelAddress, token, initialState, proposer, joiner, firstTransferValue);
      && ChainCalls(run.actions) == [
           if token.Some? then TransferToken(token.value, channelAddress, SWAP_AMOUNT)
           else SendValue(channelAddress, SWAP_AMOUNT)]
      && |run.actions| >= 4 && run.actions[2] == ChainCalls(run.actions)[0]
      && run.actions[3] == Sign(Signature(proposer, initialState.(turnNum := 2)))
      && (run.completion.Returned? <==> token.Some? && firstTransferValue != 0)
      && (run.completion.Threw? <==> token.None?)
  {
    var run := FundChannelRun(channelAddress, token, initialState, proposer, joiner, firstTransferValue);
    PaidProjections(channelAddress, token, initialState, proposer, joiner, firstTransferValue);
    if run.completion.Returned? {
      ProjectionsConcat(run.actions[..4], [Sign(Signature(joiner, initialState.(turnNum := 3)))]);
    }
  }

  /** The states this funding signs: the initial state with only the turn
      changed, turns 0 (as given), 1 and 2 and then 3 exactly when the
      script returns, signed alternately by proposer and joiner. */
  lemma FundChannelRunSignatures(
    channelAddress: Address, token: Option<Address>, initialState: State, proposer: Address, joiner: Address,
    firstTransferValue: nat)
    ensures var run := FundChannelRun(channelAddress, token, initialState, proposer, joiner, firstTransferValue);
      && (forall s :: s in SignedStates(run.actions) ==> s == initialState.(turnNum := s.turnNum))
      && NitroHelpers.TurnNumbers(SignedStates(run.actions))
           == [initialState.turnNum, 1, 2] + (if run.completion.Returned? then [3] else [])
      && Signers(run.actions) == [proposer, joiner, proposer] + (if run.completion.Returned? then [joiner] else [])
  {
    var run := FundChannelRun(channelAddress, token, initialState, proposer, joiner, firstTransferValue);
    PaidProjections(channelAddress, token, initialState, proposer, joiner, firstTransferValue);
    if run.completion.Returned? {
      ProjectionsConcat(run.actions[..4], [Sign(Signature(joiner, initialState.(turnNum := 3)))]);
    }
  }

  /** Everything `defundChannel` does: the same validity check and final
      state as the nitro variant, then one `createAndPayout` on the factory
      for the channel of the unlock state. No `Concluded` event is awaited. */
  function DefundChannelRun(
    initialState: State, unlockState: State, proposer: Address, joiner: Address,
    adjudicatorFactory: Address, validTransition: NitroHelpers.ValidTransition): Run<()>
  {
    if !validTransition(GetVariablePart(initialState), GetVariablePart(unlockState), 4, 2) then
      Run(Threw(ErrorThrown), [])
    else
      var isFinal5 := NitroHelpers.Finalised(unlockState);
      var sigs := [Signature(proposer, isFinal5), Signature(joiner, isFinal5)];
      Run(Returned(()), [
        Sign(sigs[0]),
        Sign(sigs[1]),
        CreateAndPayout(
          adjudicatorFactory, ChannelIdOf(unlockState.channel), isFinal5.turnNum, GetFixedPart(isFinal5),
          HashAppPart(isFinal5), isFinal5.outcome, 1, [0, 0], sigs)])
  }

  /** `defundChannel`, charging the joiner the gas `parseTransaction`
      reports for the payout. */
  method DefundChannel(
    initialState: State, unlockState: State, proposer: Actor, joiner: Actor,
    adjudicatorFactory: Address, validTransition: NitroHelpers.ValidTransition,
    receiptGasUsed: nat, structLogs: seq<StructLog>)
    returns (run: Run<()>)
    modifies joiner
    ensures run == DefundChannelRun(initialState, unlockState, proposer.signingAddress, joiner.signingAddress,
                                    adjudicatorFactory, validTransition)
    ensures joiner.gasSpent == old(joiner.gasSpent) + if run.completion.Returned? then receiptGasUsed else 0
  {
    if !validTransition(GetVariablePart(initialState), GetVariablePart(unlockState), 4, 2) {
      return Run(Threw(ErrorThrown), []);
    }
    var isFinal5 := unlockState.(isFinal := true);
    var sigs := [Signature(proposer.signingAddress, isFinal5), Signature(joiner.signingAddress, isFinal5)];
    var actions := [Sign(sigs[0]), Sign(sigs[1])];
    actions := actions + [CreateAndPayout(
      adjudicatorFactory, ChannelIdOf(unlockState.channel), isFinal5.turnNum, GetFixedPart(isFinal5),
      HashAppPart(isFinal5), isFinal5.outcome, 1, [0, 0], sigs)];
    var report := ParseTransaction(receiptGasUsed, structLogs);
    joiner.SpendGas(report.gasUsed);
    run := Run(Returned(()), actions);
  }

  /** What this defunding promises: an invalid unlock throws before anything
      is signed or sent; otherwise the one payout names the channel of the
      unlock state and pays out the unlock state made final, turn unchanged,
      signed by proposer then joiner. */
  lemma DefundChannelRunFacts(
    initialState: State, unlockState: State, proposer: Address, joiner: Address,
    adjudicatorFactory: Address, validTransition: NitroHelpers.ValidTransition)
    ensures var run := DefundChannelRun(initialState, unlockState, proposer, joiner, adjudicatorFactory, validTransition);
      var valid := validTransition(GetVariablePart(initialState), GetVariablePart(unlockState), 4, 2);
      && (run.completion.Threw? <==> !valid)
      && (!valid ==> run.actions == [])
      && (valid ==>
        var final := unlockState.(isFinal := true);
        && Signers(run.actions) == [proposer, joiner]
        && SignedStates(run.actions) == [final, final]
        && |ChainCalls(run.actions)| == 1
        && var call := ChainCalls(run.actions)[0];
           && call.CreateAndPayout?
           && call.channelId == ChannelIdOf(unlockState.channel)
           && call.largestTurnNum == unlockState.turnNum
           && call.outcome == unlockState.outcome
           && call.numStates == 1 && call.whoSignedWhat == [0, 0]
           && call.sigs == [Signature(proposer, final), Signature(joiner, final)])
  {
    var run := DefundChannelRun(initialState, unlockState, proposer, joiner, adjudicatorFactory, validTransition);
    if run.completion.Returned? {
      var a := run.actions;
      assert a == [a[0]] + [a[1]] + [a[2]];
      ProjectionsConcat([a[0]] + [a[1]], [a[2]]);
      ProjectionsConcat([a[0]], [a[1]]);
    }
  }

  /** As written, the scripts add `Number(await parseTransaction(...))` to
      the gas counter, but `parseTransaction` resolves to `undefined`: the
      counter becomes NaN after the first charge and stays NaN, so the gas
      the receipt reports is never accounted. */
  lemma GasCounterAsWritten(gasSpent: int, receiptGasUsed: nat, structLogs: seq<StructLog>, later: seq<JsNumber>)
    ensures var charged := JsAdd(Finite(gasSpent), NumberOf(ParseTransactionAsWritten(receiptGasUsed, structLogs)));
      && charged == NaN
      && charged != Finite(gasSpent + receiptGasUsed)
      && JsSum(charged, later) == NaN
  {
    NaNAbsorbs(later);
  }

  /** Adding further amounts one by one, as later `+=` do. */
  function JsSum(start: JsNumber, amounts: seq<JsNumber>): JsNumber
  {
    if amounts == [] then start else JsAdd(JsSum(start, amounts[..|amounts| - 1]), amounts[|amounts| - 1])
  }

  lemma {:induction false} NaNAbsorbs(amounts: seq<JsNumber>)
    ensures JsSum(NaN, amounts) == NaN
  {
    if amounts != [] {
      NaNAbsorbs(amounts[..|amounts| - 1]);
    }
  }

  /** With `parseTransaction` returning the receipt's gas, as the callers
      expect, one charge adds exactly that gas. */
  lemma GasCounterCorrected(gasSpent: int, receiptGasUsed: nat, structLogs: seq<StructLog>)
    ensures JsAdd(Finite(gasSpent), Finite(ParseTransaction(receiptGasUsed, structLogs).gasUsed))
      == Finite(gasSpent + receiptGasUsed)
  {
  }
}
