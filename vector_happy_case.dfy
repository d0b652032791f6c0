/** vector-atomic-swap/happy-case.ts: the Vector version of the swap, as
    far as the script goes. The executor funds a channel on the left chain
    for the responder; the responder creates and funds a channel on the
    right chain; the conditional transfer that should lock the left funds
    is built but never signed or sent; then both channels are withdrawn
    from, the left one to the responder and the right one to the executor.
    The file carries its own copies of the helpers: its funding functions
    record the balance as going to the responder whatever the roles, and
    its defunding functions and `getMinimalProxyInitCode` are identical to
    those of vector-atomic-swap/helpers.ts (`VectorHelpers`). */
module VectorHappyCase {
  import opened Results
  import opened Bytes
  import opened Constants
  import opened TwoChainSetup
  import opened VectorHelpers

  /** The records the script builds: `leftCore`, `leftConditionalTransfer`
      and `rightCore`. */
  datatype HappyCaseRecords = HappyCaseRecords(
    leftCore: CoreChannelState, leftConditionalTransfer: CoreTransferState, rightCore: CoreChannelState)

  /** `leftConditionalTransfer`: a transfer of 1 to the executor in the left
      channel, with the channel's timeout, its id, asset id and initial state
      hash still placeholders. */
  function LeftConditionalTransfer(leftCore: CoreChannelState, leftHashLock: Address, executor: Address,
                                   responder: Address): CoreTransferState
  {
    CoreTransferState(
      channelAddress := leftCore.channelAddress, transferId := "todo", transferDefinition := leftHashLock,
      initiator := executor, responder := responder, assetId := HASH_ZERO,
      balance := Balance([1], [executor]), transferTimeout := leftCore.timeout,
      initialStateHash := StateHashBytes(HASH_ZERO))
  }

  /** The gas of each transaction of a run. */
  datatype VectorChainAnswers = VectorChainAnswers(
    leftTransferGas: nat, rightAllowanceGas: nat, rightDepositGas: nat,
    leftCreateGas: nat, leftWithdrawGas: nat, rightWithdrawGas: nat)

  /** Everything the script does, in order: the executor funds the left
      channel (paying the responder), the conditional transfer is built,
      the responder creates and funds the right channel (also paying the
      responder), the left channel is deployed and withdrawn from with the
      executor as proposer, and the right one withdrawn from with the
      responder as proposer. */
  function HappyCaseRun(left: VectorChain, right: VectorChain, leftToken: Address, rightToken: Address,
                        executor: Address, responder: Address): VectorRun<HappyCaseRecords>
  {
    var leftFund := FundChannelRun(left, executor, responder, Some(leftToken), responder);
    var leftCore := FundedCore(ChannelAddressOf(left, executor, responder), responder, executor, leftToken, responder);
    var transfer := LeftConditionalTransfer(leftCore, left.hashLock, executor, responder);
    var rightFund := CreateAndFundChannelRun(right, responder, executor, Some(rightToken), responder);
    var rightCore := FundedCore(ChannelAddressOf(right, responder, executor), responder, executor, rightToken, responder);
    var leftDefund := CreateAndDefundChannelRun(leftCore.channelAddress, executor, responder, left, Some(leftToken));
    var rightDefund := DefundChannelRun(rightCore.channelAddress, responder, executor, Some(rightToken));
    VectorRun(Returned(HappyCaseRecords(leftCore, transfer, rightCore)),
              leftFund.actions + rightFund.actions + leftDefund.actions + rightDefund.actions)
  }

  /** The script's main function, charging each actor the gas the script
      attributes to it. */
  method HappyCase(left: VectorChain, right: VectorChain, leftToken: Address, rightToken: Address,
                   executor: Actor, responder: Actor, answers: VectorChainAnswers)
    returns (run: VectorRun<HappyCaseRecords>)
    requires executor != responder
    modifies executor, responder
    ensures run == HappyCaseRun(left, right, leftToken, rightToken, executor.signingAddress, responder.signingAddress)
    ensures executor.gasSpent == old(executor.gasSpent) + answers.leftTransferGas
    ensures responder.gasSpent == old(responder.gasSpent) + answers.rightAllowanceGas + answers.rightDepositGas
      + answers.leftCreateGas + answers.leftWithdrawGas + answers.rightWithdrawGas
  {
    var e, r := executor.signingAddress, responder.signingAddress;
    var leftFund := FundChannel(left, executor, responder, Some(leftToken), r, answers.leftTransferGas);
    var leftCore := leftFund.completion.value;
    var transfer := LeftConditionalTransfer(leftCore, left.hashLock, e, r);
    var rightFund := CreateAndFundChannel(right, responder, executor, Some(rightToken), r,
                                          answers.rightAllowanceGas, answers.rightDepositGas);
    var rightCore := rightFund.completion.value;
    var leftDefund := CreateAndDefundChannel(leftCore.channelAddress, executor, responder, left, Some(leftToken),
                                             answers.leftCreateGas, answers.leftWithdrawGas);
    var rightDefund := DefundChannel(rightCore.channelAddress, responder, executor, responder, Some(rightToken),
                                     answers.rightWithdrawGas);
    run := VectorRun(Returned(HappyCaseRecords(leftCore, transfer, rightCore)),
                     leftFund.actions + rightFund.actions + leftDefund.actions + rightDefund.actions);
  }

  /** The roles of each leg and the records they give: the left channel is
      funded with the executor as proposer, so the responder is its alice;
      the right channel is created with the responder as proposer and
      alice; both record `SWAP_AMOUNT` going to the responder, with the
      default timeout; the conditional transfer lives in the left channel,
      shares its timeout, and moves 1 from the executor to the executor. */
  lemma HappyCaseRecordsFacts(left: VectorChain, right: VectorChain, leftToken: Address, rightToken: Address,
                              executor: Address, responder: Address)
    ensures var recs := HappyCaseRun(left, right, leftToken, rightToken, executor, responder).completion.value;
      && recs.leftCore == FundChannelRun(left, executor, responder, Some(leftToken), responder).completion.value
      && recs.rightCore == CreateAndFundChannelRun(right, responder, executor, Some(rightToken), responder).completion.value
      && recs.leftCore.alice == responder && recs.leftCore.bob == executor
      && recs.rightCore.alice == responder && recs.rightCore.bob == executor
      && recs.leftCore.balances == recs.rightCore.balances == [Balance([SWAP_AMOUNT], [responder])]
      && recs.leftCore.timeout == recs.rightCore.timeout == "172800"
      && recs.leftCore.nonce == recs.rightCore.nonce == 1
      && var t := recs.leftConditionalTransfer;
      && t.channelAddress == recs.leftCore.channelAddress
      && t.transferTimeout == recs.leftCore.timeout
      && t.initiator == executor && t.responder == responder
      && t.balance == Balance([1], [executor])
      && t.assetId == HASH_ZERO && t.transferId == "todo"
  {
  }

  /** The transactions of a run, in order. The left channel is deployed for
      the executor and the responder in the order its address was derived
      from when it was funded, so the funds sent there are the ones
      withdrawn. Each channel then pays out `SWAP_AMOUNT`: the left one,
      funded by the executor, to the responder; the right one, funded by
      the responder, to the executor. */
  lemma HappyCaseSwapsFunds(left: VectorChain, right: VectorChain, leftToken: Address, rightToken: Address,
                            executor: Address, responder: Address)
    ensures var run := HappyCaseRun(left, right, leftToken, rightToken, executor, responder);
      var leftAddress, rightAddress := ChannelAddressOf(left, executor, responder), ChannelAddressOf(right, responder, executor);
      var leftWithdraw := WithdrawCommitmentFor(leftAddress, executor, responder, Some(leftToken));
      var rightWithdraw := WithdrawCommitmentFor(rightAddress, responder, executor, Some(rightToken));
      && run.actions == [
           TokenTransfer(leftToken, leftAddress, SWAP_AMOUNT),
           IncreaseAllowance(rightToken, right.channelFactory, SWAP_AMOUNT),
           CreateChannelAndDepositAlice(right.channelFactory, responder, executor, rightToken, SWAP_AMOUNT),
           CreateChannel(left.channelFactory, leftAddress.first, leftAddress.second),
           WithdrawCall(leftAddress, executor, responder, Some(leftToken)),
           WithdrawCall(rightAddress, responder, executor, Some(rightToken))]
      && leftWithdraw.recipient == responder && leftWithdraw.amount == SWAP_AMOUNT && leftWithdraw.assetId == leftToken
      && rightWithdraw.recipient == executor && rightWithdraw.amount == SWAP_AMOUNT && rightWithdraw.assetId == rightToken
  {
    FundChannelRunFacts(left, executor, responder, Some(leftToken), responder);
    CreateAndFundChannelRunFacts(right, responder, executor, Some(rightToken), responder);
  }
}
