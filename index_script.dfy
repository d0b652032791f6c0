/** index.ts: the first version of the nitro swap script, on ETH rather
    than an ERC20 token. Its codec, `swap` and `defundChannel` are those of
    nitro-atomic-swap/helpers.ts (`NitroHelpers`); it differs in the amount
    each leg locks (80 ether) and in funding, which is one ETH deposit that
    carries the deposited amount as the transaction's value. */
module IndexScript {
  import opened Results
  import opened Bytes
  import opened HashLockCodec
  import opened NitroProtocol
  import opened TwoChainSetup
  import opened NitroHelpers
  import opened NitroSwapHappyCase

  /** `ethers.constants.WeiPerEther`. */
  const WEI_PER_ETHER: nat := 1_000_000_000_000_000_000

  /** The amount slot 0 of every channel locks: 80 ether, in wei. */
  const LOCKED_AMOUNT: nat := 80 * WEI_PER_ETHER

  /** index.ts's `createHashLockChannel`. */
  function CreateHashLockChannel(
    chainId: nat, challengeDuration: nat, appDefinition: Address, assetHolderAddress: Address,
    proposer: Address, joiner: Address, hash: Bytes32): State
  {
    HashLockChannel(LOCKED_AMOUNT, chainId, challengeDuration, appDefinition, assetHolderAddress, proposer, joiner, hash)
  }

  /** The turn-0 state locks 80 ether for the proposer and nothing for the
      joiner, and its app data decodes to the hash with an empty preimage. */
  lemma CreateHashLockChannelShape(
    chainId: nat, challengeDuration: nat, appDefinition: Address, assetHolderAddress: Address,
    proposer: Address, joiner: Address, hash: Bytes32)
    ensures var s := CreateHashLockChannel(chainId, challengeDuration, appDefinition, assetHolderAddress,
                                           proposer, joiner, hash);
      && s.turnNum == 0 && !s.isFinal && s.channel == Channel(chainId, 0, [proposer, joiner])
      && s.challengeDuration == challengeDuration && s.appDefinition == appDefinition
      && s.outcome == [AllocationAssetOutcome(assetHolderAddress, [
           AllocationItem(AddressToBytes32(proposer), 80_000_000_000_000_000_000),
           AllocationItem(AddressToBytes32(joiner), 0)])]
      && SlotZeroAmount(s.outcome) == Success(80_000_000_000_000_000_000)
      && Decode(s.appData) == Success(HashLockedSwapData(hash, []))
  {
    HashLockChannelShape(LOCKED_AMOUNT, chainId, challengeDuration, appDefinition, assetHolderAddress, proposer, joiner, hash);
  }

  // ---------------------------------------------------------------------
  // fundChannel, on ETH
  // ---------------------------------------------------------------------

  /** Everything index.ts's `fundChannel` does, in order: the same three
      proposal signatures as the token version, then a single deposit whose
      ETH value is the slot-0 amount it declares; the joiner's PostFund3 and
      the return wait for a `Deposited` event with nonzero holdings. */
  function FundChannelRun(
    ethAssetHolder: Address, initialState: State, proposer: Address, joiner: Address,
    destinationHoldings: nat): Run<ChannelId>
  {
    var channelId := ChannelIdOf(initialState.channel);
    var value := SlotZeroAmount(initialState.outcome);
    var completion :=
      if value.Failure? then Threw(value.error)
      else if destinationHoldings != 0 then Returned(channelId)
      else Waiting;
    Run(completion, ProposalSignatures(initialState, proposer, joiner)
                    + EthFundingCalls(ethAssetHolder, channelId, value)
                    + JoinerPostFund(initialState, joiner, completion.Returned?))
  }

  /** The ETH deposit of the slot-0 amount, when it can be read. */
  function EthFundingCalls(ethAssetHolder: Address, channelId: ChannelId, value: Result<nat, Exception>): seq<Action>
  {
    if value.Failure? then [] else [Deposit(ethAssetHolder, channelId, 0, value.value, value.value)]
  }

  /** index.ts's `fundChannel`: the proposer pays for the deposit. */
  method FundChannel(
    ethAssetHolder: Address, initialState: State, proposer: Actor, joiner: Actor,
    depositGas: nat, destinationHoldings: nat)
    returns (run: Run<ChannelId>)
    modifies proposer
    ensures run == FundChannelRun(ethAssetHolder, initialState, proposer.signingAddress, joiner.signingAddress,
                                  destinationHoldings)
    ensures proposer.gasSpent == old(proposer.gasSpent) + if run.completion.Threw? then 0 else depositGas
  {
    var channelId := ChannelIdOf(initialState.channel);
    var actions := [Sign(Signature(proposer.signingAddress, initialState))];
    actions := actions + [Sign(Signature(joiner.signingAddress, initialState.(turnNum := 1)))];
    actions := actions + [Sign(Signature(proposer.signingAddress, initialState.(turnNum := 2)))];
    var value := SlotZeroAmount(initialState.outcome);
    if value.Failure? {
      return Run(Threw(value.error), actions);
    }
    actions := actions + [Deposit(ethAssetHolder, channelId, 0, value.value, value.value)];
    proposer.SpendGas(depositGas);
    if destinationHoldings == 0 {
      return Run(Waiting, actions);
    }
    actions := actions + [Sign(Signature(joiner.signingAddress, initialState.(turnNum := 3)))];
    run := Run(Returned(channelId), actions);
  }

  /** The one transaction of ETH funding deposits the slot-0 amount into
      the channel, expecting nothing held yet, and pays exactly that amount
      with it; a missing slot 0 throws before anything is sent. */
  lemma FundChannelRunCalls(
    ethAssetHolder: Address, initialState: State, proposer: Address, joiner: Address, destinationHoldings: nat)
    ensures var run := FundChannelRun(ethAssetHolder, initialState, proposer, joiner, destinationHoldings);
      var value := SlotZeroAmount(initialState.outcome);
      && (run.completion.Threw? <==> value.Failure?)
      && (run.completion.Returned? <==> value.Success? && destinationHoldings != 0)
      && (run.completion.Returned? ==> run.completion.value == ChannelIdOf(initialState.channel))
      && (value.Failure? ==> ChainCalls(run.actions) == [])
      && (value.Success? ==>
            ChainCalls(run.actions) == [Deposit(ethAssetHolder, ChannelIdOf(initialState.channel), 0, value.value, value.value)])
  {
    var value := SlotZeroAmount(initialState.outcome);
    var returned := value.Success? && destinationHoldings != 0;
    var proposed := ProposalSignatures(initialState, proposer, joiner);
    var calls := EthFundingCalls(ethAssetHolder, ChannelIdOf(initialState.channel), value);
    var postFund := JoinerPostFund(initialState, joiner, returned);
    ProposalProjections(initialState, proposer, joiner);
    EthFundingCallsProjections(ethAssetHolder, ChannelIdOf(initialState.channel), value);
    PostFundProjections(initialState, joiner, returned);
    ProjectionsConcat(proposed, calls);
    ProjectionsConcat(proposed + calls, postFund);
    assert ChainCalls(proposed + calls) == calls;
  }

  /** The ETH deposit signs nothing and is a chain call. */
  lemma EthFundingCallsProjections(ethAssetHolder: Address, channelId: ChannelId, value: Result<nat, Exception>)
    ensures var calls := EthFundingCalls(ethAssetHolder, channelId, value);
      SignedStates(calls) == [] && Signers(calls) == [] && ChainCalls(calls) == calls
  {
    if value.Success? {
      var calls := EthFundingCalls(ethAssetHolder, channelId, value);
      assert calls[..0] == [];
    }
  }

  /** ETH funding and token funding agree on everything off chain: they end
      the same way and sign the same states in the same order, by the same
      parties; only the transactions differ. */
  lemma FundChannelRunMatchesTokenFunding(
    ethAssetHolder: Address, erc20AssetHolder: Address, token: Address, initialState: State,
    proposer: Address, joiner: Address, destinationHoldings: nat)
    ensures var eth := FundChannelRun(ethAssetHolder, initialState, proposer, joiner, destinationHoldings);
      var erc20 := NitroHelpers.FundChannelRun(erc20AssetHolder, token, initialState, proposer, joiner, destinationHoldings);
      && eth.completion == erc20.completion
      && SignedStates(eth.actions) == SignedStates(erc20.actions)
      && Signers(eth.actions) == Signers(erc20.actions)
  {
    var value := SlotZeroAmount(initialState.outcome);
    var channelId := ChannelIdOf(initialState.channel);
    var proposed := ProposalSignatures(initialState, proposer, joiner);
    var ethCalls := EthFundingCalls(ethAssetHolder, channelId, value);
    var tokenCalls := FundingCalls(erc20AssetHolder, token, channelId, value);
    var postFund := JoinerPostFund(initialState, joiner, value.Success? && destinationHoldings != 0);
    EthFundingCallsProjections(ethAssetHolder, channelId, value);
    FundingCallsProjections(erc20AssetHolder, token, channelId, value);
    ProjectionsConcat(proposed, ethCalls);
    ProjectionsConcat(proposed + ethCalls, postFund);
    ProjectionsConcat(proposed, tokenCalls);
    ProjectionsConcat(proposed + tokenCalls, postFund);
    assert SignedStates(proposed + ethCalls) == SignedStates(proposed + tokenCalls);
    assert Signers(proposed + ethCalls) == Signers(proposed + tokenCalls);
  }

  // ---------------------------------------------------------------------
  // The script run
  // ---------------------------------------------------------------------

  /** The contracts index.ts deploys on one chain, and its chain id. */
  datatype EthChainContracts = EthChainContracts(
    chainId: nat, nitroAdjudicator: Address, ethAssetHolder: Address, hashLock: Address)

  /** The same contracts in the shape the states are built from; building
      the states reads only the chain id, the hash lock and the asset
      holder, so the token slot is left at the zero address. */
  function AsChainContracts(c: EthChainContracts): ChainContracts
  {
    ChainContracts(c.chainId, c.nitroAdjudicator, c.ethAssetHolder, c.hashLock, ADDRESS_ZERO)
  }

  /** The states of index.ts: the swap states of the nitro script with 80
      ether locked in each leg. */
  function IndexStates(left: EthChainContracts, right: EthChainContracts, executor: Address, responder: Address,
                       commitment: Bytes32): (st: SwapStates)
    ensures SwapStatesOf(LOCKED_AMOUNT, AsChainContracts(left), AsChainContracts(right), executor, responder, commitment)
      == Success(st)
  {
    SwapStatesPreFunds(LOCKED_AMOUNT, AsChainContracts(left), AsChainContracts(right), executor, responder, commitment);
    SwapStatesOf(LOCKED_AMOUNT, AsChainContracts(left), AsChainContracts(right), executor, responder, commitment).value
  }

  /** What the chains answer during a run. */
  datatype EthChainAnswers = EthChainAnswers(
    leftDepositGas: nat, leftHoldings: nat, rightDepositGas: nat, rightHoldings: nat,
    rightConcludeGas: nat, leftConcludeGas: nat)

  /** Everything index.ts does with the states `st`, in order: fund the
      left leg, then the right leg, sign both unlocks, and defund the right
      leg and then the left one (`Promise.all`, taken in that order). */
  function IndexRun(
    st: SwapStates, left: EthChainContracts, right: EthChainContracts, executor: Address, responder: Address,
    validTransition: ValidTransition, answers: EthChainAnswers): Run<SwapStates>
  {
    var leftFund := FundChannelRun(left.ethAssetHolder, st.leftPreFund, executor, responder, answers.leftHoldings);
    if !leftFund.completion.Returned? then Run(Halted(leftFund.completion), leftFund.actions)
    else
      var rightFund := FundChannelRun(right.ethAssetHolder, st.rightPreFund, responder, executor, answers.rightHoldings);
      if !rightFund.completion.Returned? then Run(Halted(rightFund.completion), leftFund.actions + rightFund.actions)
      else
        var rightDefund := DefundChannelRun(st.rightPreFund, st.rightUnlock, responder, executor, right.nitroAdjudicator, validTransition);
        var leftDefund := DefundChannelRun(st.leftPreFund, st.leftUnlock, executor, responder, left.nitroAdjudicator, validTransition);
        var actions := leftFund.actions + rightFund.actions + UnlockSignatures(st, executor, responder)
          + rightDefund.actions + leftDefund.actions;
        if rightDefund.completion.Threw? then Run(Threw(rightDefund.completion.error), actions)
        else if leftDefund.completion.Threw? then Run(Threw(leftDefund.completion.error), actions)
        else Run(Returned(st), actions)
  }

  /** index.ts's main function, charging each actor the gas of the
      transactions it sends. */
  method RunScript(
    left: EthChainContracts, right: EthChainContracts, executor: Actor, responder: Actor, commitment: Bytes32,
    validTransition: ValidTransition, answers: EthChainAnswers)
    returns (run: Run<SwapStates>)
    requires executor != responder
    modifies executor, responder
    ensures run == IndexRun(IndexStates(left, right, executor.signingAddress, responder.signingAddress, commitment),
                            left, right, executor.signingAddress, responder.signingAddress, validTransition, answers)
    ensures run.completion.Returned? ==>
      && executor.gasSpent == old(executor.gasSpent) + answers.leftDepositGas + answers.rightConcludeGas
      && responder.gasSpent == old(responder.gasSpent) + answers.rightDepositGas + answers.leftConcludeGas
  {
    var e, r := executor.signingAddress, responder.signingAddress;
    SwapStatesPreFunds(LOCKED_AMOUNT, AsChainContracts(left), AsChainContracts(right), e, r, commitment);
    SafeIntegerFitsWord();
    var leftPreFund := CreateHashLockChannel(left.chainId, 60, left.hashLock, left.ethAssetHolder, e, r, commitment);
    var leftFund := FundChannel(left.ethAssetHolder, leftPreFund, executor, responder,
                                answers.leftDepositGas, answers.leftHoldings);
    if !leftFund.completion.Returned? {
      return Run(Halted(leftFund.completion), leftFund.actions);
    }
    var leftData := Decode(leftPreFund.appData).value;
    var rightPreFund := CreateHashLockChannel(right.chainId, 30, right.hashLock, right.ethAssetHolder, r, e, leftData.h);
    var rightFund := FundChannel(right.ethAssetHolder, rightPreFund, responder, executor,
                                 answers.rightDepositGas, answers.rightHoldings);
    if !rightFund.completion.Returned? {
      return Run(Halted(rightFund.completion), leftFund.actions + rightFund.actions);
    }
    DecodeEncode(CORRECT_PRE_IMAGE);
    var rightUnlock := rightPreFund.(turnNum := 4, appData := Encode(CORRECT_PRE_IMAGE), outcome := Swap(rightPreFund.outcome).value);
    var revealed := Decode(rightUnlock.appData).value;
    var leftUnlock := leftPreFund.(
      turnNum := 4,
      appData := Encode(HashLockedSwapData(revealed.h, revealed.preImage)),
      outcome := Swap(leftPreFund.outcome).value);
    var st := SwapStates(leftPreFund, rightPreFund, rightUnlock, leftUnlock);
    var unlocks := [Sign(Signature(e, rightUnlock)), Sign(Signature(r, leftUnlock))];
    var rightDefund := DefundChannel(rightPreFund, rightUnlock, responder, executor, right.nitroAdjudicator,
                                     validTransition, answers.rightConcludeGas);
    var leftDefund := DefundChannel(leftPreFund, leftUnlock, executor, responder, left.nitroAdjudicator,
                                    validTransition, answers.leftConcludeGas);
    var actions := leftFund.actions + rightFund.actions + unlocks + rightDefund.actions + leftDefund.actions;
    if rightDefund.completion.Threw? {
      run := Run(Threw(rightDefund.completion.error), actions);
    } else if leftDefund.completion.Threw? {
      run := Run(Threw(leftDefund.completion.error), actions);
    } else {
      run := Run(Returned(st), actions);
    }
  }

  /** The chain calls of a complete run, for any four states: one ETH
      deposit per leg, each paying what it declares, then the conclusion of
      the right leg and of the left leg on their finalised unlocks. */
  lemma IndexRunCalls(
    st: SwapStates, left: EthChainContracts, right: EthChainContracts, executor: Address, responder: Address,
    validTransition: ValidTransition, answers: EthChainAnswers)
    ensures var run := IndexRun(st, left, right, executor, responder, validTransition, answers);
      var vLeft, vRight := SlotZeroAmount(st.leftPreFund.outcome), SlotZeroAmount(st.rightPreFund.outcome);
      var finalRight, finalLeft := Finalised(st.rightUnlock), Finalised(st.leftUnlock);
      && (run.completion.Returned? <==>
            && vLeft.Success? && vRight.Success?
            && answers.leftHoldings != 0 && answers.rightHoldings != 0
            && validTransition(GetVariablePart(st.rightPreFund), GetVariablePart(st.rightUnlock), 4, 2)
            && validTransition(GetVariablePart(st.leftPreFund), GetVariablePart(st.leftUnlock), 4, 2))
      && (run.completion.Returned? ==> ChainCalls(run.actions) == [
            Deposit(left.ethAssetHolder, ChannelIdOf(st.leftPreFund.channel), 0, vLeft.value, vLeft.value),
            Deposit(right.ethAssetHolder, ChannelIdOf(st.rightPreFund.channel), 0, vRight.value, vRight.value),
            ConcludePushOutcomeAndTransferAll(
              right.nitroAdjudicator, st.rightUnlock.turnNum, GetFixedPart(finalRight), HashAppPart(finalRight),
              st.rightUnlock.outcome, 1, [0, 0], [Signature(responder, finalRight), Signature(executor, finalRight)]),
            ConcludePushOutcomeAndTransferAll(
              left.nitroAdjudicator, st.leftUnlock.turnNum, GetFixedPart(finalLeft), HashAppPart(finalLeft),
              st.leftUnlock.outcome, 1, [0, 0], [Signature(executor, finalLeft), Signature(responder, finalLeft)])])
  {
    var leftFund := FundChannelRun(left.ethAssetHolder, st.leftPreFund, executor, responder, answers.leftHoldings);
    var rightFund := FundChannelRun(right.ethAssetHolder, st.rightPreFund, responder, executor, answers.rightHoldings);
    FundChannelRunCalls(left.ethAssetHolder, st.leftPreFund, executor, responder, answers.leftHoldings);
    FundChannelRunCalls(right.ethAssetHolder, st.rightPreFund, responder, executor, answers.rightHoldings);
    if leftFund.completion.Returned? && rightFund.completion.Returned? {
      DefundChannelRunFacts(st.rightPreFund, st.rightUnlock, responder, executor, right.nitroAdjudicator, validTransition);
      DefundChannelRunFacts(st.leftPreFund, st.leftUnlock, executor, responder, left.nitroAdjudicator, validTransition);
      IndexRunChainCallsSplit(st, left, right, executor, responder, validTransition, answers);
    }
  }

  /** Once both legs are funded, the chain calls of a run are those of the
      two fundings and of the two defundings; the unlock signatures send
      nothing. */
  lemma IndexRunChainCallsSplit(
    st: SwapStates, left: EthChainContracts, right: EthChainContracts, executor: Address, responder: Address,
    validTransition: ValidTransition, answers: EthChainAnswers)
    requires FundChannelRun(left.ethAssetHolder, st.leftPreFund, executor, responder, answers.leftHoldings).completion.Returned?
    requires FundChannelRun(right.ethAssetHolder, st.rightPreFund, responder, executor, answers.rightHoldings).completion.Returned?
    ensures ChainCalls(IndexRun(st, left, right, executor, responder, validTransition, answers).actions)
      == ChainCalls(FundChannelRun(left.ethAssetHolder, st.leftPreFund, executor, responder, answers.leftHoldings).actions)
         + ChainCalls(FundChannelRun(right.ethAssetHolder, st.rightPreFund, responder, executor, answers.rightHoldings).actions)
         + ChainCalls(DefundChannelRun(st.rightPreFund, st.rightUnlock, responder, executor, right.nitroAdjudicator, validTransition).actions)
         + ChainCalls(DefundChannelRun(st.leftPreFund, st.leftUnlock, executor, responder, left.nitroAdjudicator, validTransition).actions)
  {
    var leftFund := FundChannelRun(left.ethAssetHolder, st.leftPreFund, executor, responder, answers.leftHoldings);
    var rightFund := FundChannelRun(right.ethAssetHolder, st.rightPreFund, responder, executor, answers.rightHoldings);
    var unlocks := UnlockSignatures(st, executor, responder);
    var rightDefund := DefundChannelRun(st.rightPreFund, st.rightUnlock, responder, executor, right.nitroAdjudicator, validTransition);
    var leftDefund := DefundChannelRun(st.leftPreFund, st.leftUnlock, executor, responder, left.nitroAdjudicator, validTransition);
    assert unlocks == [unlocks[0]] + [unlocks[1]];
    ProjectionsConcat([unlocks[0]], [unlocks[1]]);
    var a1 := leftFund.actions + rightFund.actions;
    var a2 := a1 + unlocks;
    var a3 := a2 + rightDefund.actions;
    ProjectionsConcat(leftFund.actions, rightFund.actions);
    ProjectionsConcat(a1, unlocks);
    ProjectionsConcat(a2, rightDefund.actions);
    ProjectionsConcat(a3, leftDefund.actions);
    assert ChainCalls(unlocks) == [];
    assert ChainCalls(a2) == ChainCalls(a1);
  }

  /** The facts about index.ts's states that its chain calls depend on:
      80 ether in slot 0 of both prefunds, both unlocks at turn 4, and the
      80 ether moved to the other party in each unlock. */
  lemma IndexStatesFacts(left: EthChainContracts, right: EthChainContracts, executor: Address, responder: Address,
                         commitment: Bytes32)
    ensures var st := IndexStates(left, right, executor, responder, commitment);
      && SlotZeroAmount(st.leftPreFund.outcome) == Success(LOCKED_AMOUNT)
      && SlotZeroAmount(st.rightPreFund.outcome) == Success(LOCKED_AMOUNT)
      && st.rightUnlock.turnNum == 4 && st.leftUnlock.turnNum == 4
      && st.rightUnlock.outcome == [AllocationAssetOutcome(right.ethAssetHolder, [
           AllocationItem(AddressToBytes32(responder), 0), AllocationItem(AddressToBytes32(executor), LOCKED_AMOUNT)])]
      && st.leftUnlock.outcome == [AllocationAssetOutcome(left.ethAssetHolder, [
           AllocationItem(AddressToBytes32(executor), 0), AllocationItem(AddressToBytes32(responder), LOCKED_AMOUNT)])]
  {
    var l, r := AsChainContracts(left), AsChainContracts(right);
    SwapStatesPreFunds(LOCKED_AMOUNT, l, r, executor, responder, commitment);
    SwapStatesUnlocks(LOCKED_AMOUNT, l, r, executor, responder, commitment);
    HashLockChannelShape(LOCKED_AMOUNT, left.chainId, 60, left.hashLock, left.ethAssetHolder, executor, responder, commitment);
    HashLockChannelShape(LOCKED_AMOUNT, right.chainId, 30, right.hashLock, right.ethAssetHolder, responder, executor, commitment);
  }

  /** For index.ts's own states: a complete run deposits 80 ether, paid in
      ETH, on each chain and concludes both legs at turn 4. */
  lemma IndexChainCalls(
    left: EthChainContracts, right: EthChainContracts, executor: Address, responder: Address, commitment: Bytes32,
    validTransition: ValidTransition, answers: EthChainAnswers)
    ensures var st := IndexStates(left, right, executor, responder, commitment);
      var run := IndexRun(st, left, right, executor, responder, validTransition, answers);
      var finalRight, finalLeft := Finalised(st.rightUnlock), Finalised(st.leftUnlock);
      && (run.completion.Returned? <==>
            && answers.leftHoldings != 0 && answers.rightHoldings != 0
            && validTransition(GetVariablePart(st.rightPreFund), GetVariablePart(st.rightUnlock), 4, 2)
            && validTransition(GetVariablePart(st.leftPreFund), GetVariablePart(st.leftUnlock), 4, 2))
      && (run.completion.Returned? ==> ChainCalls(run.actions) == [
            Deposit(left.ethAssetHolder, ChannelIdOf(st.leftPreFund.channel), 0, LOCKED_AMOUNT, LOCKED_AMOUNT),
            Deposit(right.ethAssetHolder, ChannelIdOf(st.rightPreFund.channel), 0, LOCKED_AMOUNT, LOCKED_AMOUNT),
            ConcludePushOutcomeAndTransferAll(
              right.nitroAdjudicator, 4, GetFixedPart(finalRight), HashAppPart(finalRight),
              st.rightUnlock.outcome, 1, [0, 0], [Signature(responder, finalRight), Signature(executor, finalRight)]),
            ConcludePushOutcomeAndTransferAll(
              left.nitroAdjudicator, 4, GetFixedPart(finalLeft), HashAppPart(finalLeft),
              st.leftUnlock.outcome, 1, [0, 0], [Signature(executor, finalLeft), Signature(responder, finalLeft)])])
  {
    var st := IndexStates(left, right, executor, responder, commitment);
    IndexStatesFacts(left, right, executor, responder, commitment);
    IndexRunCalls(st, left, right, executor, responder, validTransition, answers);
  }
}
