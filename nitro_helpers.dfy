/** nitro-atomic-swap/helpers.ts: the hash-locked channel of one swap leg,
    its funding and its collaborative defunding, and the outcome swap.
    nitro-happy-case.ts carries identical copies of these functions, and
    ninja-atomic-swap/helpers.ts and index.ts share `swap` and, apart from
    the amount, `createHashLockChannel`. */
module NitroHelpers {
  import opened Results
  import opened Bytes
  import opened Constants
  import opened HashLockCodec
  import opened NitroProtocol
  import opened TwoChainSetup

  /** The turn-0 state of a hash-locked payment from `proposer` to `joiner`:
      `slotZeroAmount` is locked for the proposer, nothing for the joiner,
      and the app data commits to `hash` with an empty preimage. */
  function HashLockChannel(
    slotZeroAmount: nat, chainId: nat, challengeDuration: nat, appDefinition: Address,
    assetHolderAddress: Address, proposer: Address, joiner: Address, hash: Bytes32): State
  {
    SafeIntegerFitsWord();
    State(
      turnNum := 0,
      isFinal := false,
      channel := Channel(chainId, 0, [proposer, joiner]),
      challengeDuration := challengeDuration,
      outcome := [AllocationAssetOutcome(assetHolderAddress, [
        AllocationItem(AddressToBytes32(proposer), slotZeroAmount),
        AllocationItem(AddressToBytes32(joiner), 0)])],
      appDefinition := appDefinition,
      appData := Encode(HashLockedSwapData(hash, [])))
  }

  /** `createHashLockChannel`, which locks `SWAP_AMOUNT`. */
  function CreateHashLockChannel(
    chainId: nat, challengeDuration: nat, appDefinition: Address, assetHolderAddress: Address,
    proposer: Address, joiner: Address, hash: Bytes32): State
  {
    HashLockChannel(SWAP_AMOUNT, chainId, challengeDuration, appDefinition, assetHolderAddress, proposer, joiner, hash)
  }

  /** What every hash-lock channel looks like at turn 0, whatever the amount:
      a fresh channel (nonce 0) between proposer and joiner, one asset entry
      paying the amount to the proposer and 0 to the joiner, and app data
      that decodes to the committed hash with an empty preimage. */
  lemma HashLockChannelShape(
    slotZeroAmount: nat, chainId: nat, challengeDuration: nat, appDefinition: Address,
    assetHolderAddress: Address, proposer: Address, joiner: Address, hash: Bytes32)
    ensures var s := HashLockChannel(slotZeroAmount, chainId, challengeDuration, appDefinition,
                                     assetHolderAddress, proposer, joiner, hash);
      && s.turnNum == 0 && !s.isFinal
      && s.channel.chainId == chainId && s.channel.channelNonce == 0
      && s.channel.participants == [proposer, joiner]
      && s.challengeDuration == challengeDuration && s.appDefinition == appDefinition
      && |s.outcome| == 1 && s.outcome[0].AllocationAssetOutcome?
      && s.outcome[0].assetHolderAddress == assetHolderAddress
      && s.outcome[0].allocationItems
           == [AllocationItem(AddressToBytes32(proposer), slotZeroAmount), AllocationItem(AddressToBytes32(joiner), 0)]
      && Decode(s.appData) == Success(HashLockedSwapData(hash, []))
  {
    DecodeEncode(HashLockedSwapData(hash, []));
  }

  /** `createHashLockChannel`'s turn-0 state: slot 0 holds `SWAP_AMOUNT` for
      the proposer, slot 1 holds 0 for the joiner. */
  lemma CreateHashLockChannelShape(
    chainId: nat, challengeDuration: nat, appDefinition: Address, assetHolderAddress: Address,
    proposer: Address, joiner: Address, hash: Bytes32)
    ensures var s := CreateHashLockChannel(chainId, challengeDuration, appDefinition, assetHolderAddress,
                                           proposer, joiner, hash);
      && s.turnNum == 0 && !s.isFinal && s.channel.channelNonce == 0
      && s.channel.participants == [proposer, joiner]
      && s.challengeDuration == challengeDuration && s.appDefinition == appDefinition
      && s.outcome == [AllocationAssetOutcome(assetHolderAddress, [
           AllocationItem(AddressToBytes32(proposer), SWAP_AMOUNT), AllocationItem(AddressToBytes32(joiner), 0)])]
      && Decode(s.appData) == Success(HashLockedSwapData(hash, []))
  {
    HashLockChannelShape(SWAP_AMOUNT, chainId, challengeDuration, appDefinition, assetHolderAddress, proposer, joiner, hash);
  }

  /** `swap`: the first asset entry with the amounts of its first two items
      exchanged. `"allocationItems" in undefined` and reading an item that is
      not there throw a `TypeError`; a guarantee entry hits `throw Error`. */
  function Swap(outcome: Outcome): (r: Result<Outcome, Exception>)
    ensures r.Success? <==>
      |outcome| >= 1 && outcome[0].AllocationAssetOutcome? && |outcome[0].allocationItems| >= 2
    ensures r.Success? ==>
      var items := outcome[0].allocationItems;
      && |r.value| == 1 && r.value[0].AllocationAssetOutcome?
      && r.value[0].assetHolderAddress == outcome[0].assetHolderAddress
      && |r.value[0].allocationItems| == 2
      && r.value[0].allocationItems[0].destination == items[0].destination
      && r.value[0].allocationItems[1].destination == items[1].destination
      && r.value[0].allocationItems[0].amount == items[1].amount
      && r.value[0].allocationItems[1].amount == items[0].amount
    ensures r.Failure? ==> (r.error == ErrorThrown <==> |outcome| >= 1 && outcome[0].GuaranteeAssetOutcome?)
  {
    if |outcome| == 0 then Failure(TypeError)
    else if !outcome[0].AllocationAssetOutcome? then Failure(ErrorThrown)
    else
      var items := outcome[0].allocationItems;
      if |items| < 2 then Failure(TypeError)
      else Success([AllocationAssetOutcome(outcome[0].assetHolderAddress, [
        AllocationItem(items[0].destination, items[1].amount),
        AllocationItem(items[1].destination, items[0].amount)])])
  }

  /** A single asset entry with exactly two allocation items, the shape every
      hash-lock channel's outcome has. */
  predicate IsTwoPartyAllocation(outcome: Outcome)
  {
    |outcome| == 1 && outcome[0].AllocationAssetOutcome? && |outcome[0].allocationItems| == 2
  }

  /** Swapping twice gives back a two-party allocation; any other outcome
      that can be swapped comes back cut down to its first entry and first
      two items. */
  lemma SwapInvolution(outcome: Outcome)
    requires Swap(outcome).Success?
    ensures IsTwoPartyAllocation(Swap(outcome).value)
    ensures Swap(Swap(outcome).value).Success?
    ensures IsTwoPartyAllocation(outcome) ==> Swap(Swap(outcome).value).value == outcome
    ensures Swap(Swap(outcome).value).value
      == [AllocationAssetOutcome(outcome[0].assetHolderAddress, outcome[0].allocationItems[..2])]
  {
    var items := outcome[0].allocationItems;
    assert items[..2] == [items[0], items[1]];
    if IsTwoPartyAllocation(outcome) {
      assert items == items[..2];
    }
  }

  /** `(initialState.outcome[0] as AllocationAssetOutcome).allocationItems[0].amount`;
      each missing piece is a `TypeError`. */
  function SlotZeroAmount(outcome: Outcome): (r: Result<nat, Exception>)
    ensures r.Success? <==>
      |outcome| >= 1 && outcome[0].AllocationAssetOutcome? && |outcome[0].allocationItems| >= 1
  {
    if |outcome| == 0 || !outcome[0].AllocationAssetOutcome? || |outcome[0].allocationItems| == 0 then Failure(TypeError)
    else Success(outcome[0].allocationItems[0].amount)
  }

  // ---------------------------------------------------------------------
  // fundChannel
  // ---------------------------------------------------------------------

  /** The proposer's PreFund0, the joiner's PreFund1 and the proposer's
      PostFund2: the initial state at turns 0 (as given), 1 and 2. */
  function ProposalSignatures(initialState: State, proposer: Address, joiner: Address): seq<Action>
  {
    [ Sign(Signature(proposer, initialState)),
      Sign(Signature(joiner, initialState.(turnNum := 1))),
      Sign(Signature(proposer, initialState.(turnNum := 2))) ]
  }

  /** The proposer's two transactions when the outcome's slot-0 amount can
      be read: raising the token allowance by that amount, then depositing
      it into the channel, expecting nothing held yet. */
  function FundingCalls(erc20AssetHolder: Address, token: Address, channelId: ChannelId,
                        value: Result<nat, Exception>): seq<Action>
  {
    if value.Failure? then []
    else [IncreaseAllowance(token, erc20AssetHolder, value.value), Deposit(erc20AssetHolder, channelId, 0, value.value, 0)]
  }

  /** The joiner's PostFund3, signed only when the script gets that far. */
  function JoinerPostFund(initialState: State, joiner: Address, signed: bool): seq<Action>
  {
    if signed then [Sign(Signature(joiner, initialState.(turnNum := 3)))] else []
  }

  /** Everything `fundChannel` does, in order. The joiner's `Deposited`
      listener fires once, after the deposit; only a nonzero
      `destinationHoldings` makes the joiner sign PostFund3 and resolve the
      awaited promise, otherwise the script waits forever. */
  function FundChannelRun(
    erc20AssetHolder: Address, token: Address, initialState: State, proposer: Address, joiner: Address,
    destinationHoldings: nat): Run<ChannelId>
  {
    var channelId := ChannelIdOf(initialState.channel);
    var value := SlotZeroAmount(initialState.outcome);
    var completion :=
      if value.Failure? then Threw(value.error)
      else if destinationHoldings != 0 then Returned(channelId)
      else Waiting;
    Run(completion, ProposalSignatures(initialState, proposer, joiner)
                    + FundingCalls(erc20AssetHolder, token, channelId, value)
                    + JoinerPostFund(initialState, joiner, completion.Returned?))
  }

  /** `fundChannel`: the proposer pays for raising the token allowance and
      for the deposit. */
  method FundChannel(
    erc20AssetHolder: Address, token: Address, initialState: State, proposer: Actor, joiner: Actor,
    increaseAllowanceGas: nat, depositGas: nat, destinationHoldings: nat)
    returns (run: Run<ChannelId>)
    modifies proposer
    ensures run == FundChannelRun(erc20AssetHolder, token, initialState, proposer.signingAddress,
                                  joiner.signingAddress, destinationHoldings)
    ensures proposer.gasSpent == old(proposer.gasSpent)
      + if run.completion.Threw? then 0 else increaseAllowanceGas + depositGas
  {
    var channelId := ChannelIdOf(initialState.channel);
    var actions := [Sign(Signature(proposer.signingAddress, initialState))];
    actions := actions + [Sign(Signature(joiner.signingAddress, initialState.(turnNum := 1)))];
    actions := actions + [Sign(Signature(proposer.signingAddress, initialState.(turnNum := 2)))];
    var value := SlotZeroAmount(initialState.outcome);
    if value.Failure? {
      return Run(Threw(value.error), actions);
    }
    actions := actions + [IncreaseAllowance(token, erc20AssetHolder, value.value)];
    proposer.SpendGas(increaseAllowanceGas);
    actions := actions + [Deposit(erc20AssetHolder, channelId, 0, value.value, 0)];
    proposer.SpendGas(depositGas);
    if destinationHoldings == 0 {
      return Run(Waiting, actions);
    }
    actions := actions + [Sign(Signature(joiner.signingAddress, initialState.(turnNum := 3)))];
    run := Run(Returned(channelId), actions);
  }

  lemma ProposalProjections(initialState: State, proposer: Address, joiner: Address)
    ensures var proposed := ProposalSignatures(initialState, proposer, joiner);
      && SignedStates(proposed) == [initialState, initialState.(turnNum := 1), initialState.(turnNum := 2)]
      && Signers(proposed) == [proposer, joiner, proposer]
      && ChainCalls(proposed) == []
  {
    var proposed := ProposalSignatures(initialState, proposer, joiner);
    assert proposed == [proposed[0], proposed[1]] + [proposed[2]];
    assert [proposed[0], proposed[1]] == [proposed[0]] + [proposed[1]];
    ProjectionsConcat([proposed[0], proposed[1]], [proposed[2]]);
    ProjectionsConcat([proposed[0]], [proposed[1]]);
  }

  /** How funding ends and which transactions it sends: the allowance is
      raised by the slot-0 amount of the outcome before exactly that amount
      is deposited into the channel, expecting nothing held yet; a missing
      slot 0 throws before any transaction is sent; the script returns the
      channel id only once the deposit shows nonzero holdings. */
  lemma FundChannelRunCalls(
    erc20AssetHolder: Address, token: Address, initialState: State, proposer: Address, joiner: Address,
    destinationHoldings: nat)
    ensures var run := FundChannelRun(erc20AssetHolder, token, initialState, proposer, joiner, destinationHoldings);
      var value := SlotZeroAmount(initialState.outcome);
      && (run.completion.Threw? <==> value.Failure?)
      && (run.completion.Returned? <==> value.Success? && destinationHoldings != 0)
      && (run.completion.Returned? ==> run.completion.value == ChannelIdOf(initialState.channel))
      && (value.Failure? ==> ChainCalls(run.actions) == [])
      && (value.Success? ==>
            && value.value == initialState.outcome[0].allocationItems[0].amount
            && ChainCalls(run.actions) == [
                 IncreaseAllowance(token, erc20AssetHolder, value.value),
                 Deposit(erc20AssetHolder, ChannelIdOf(initialState.channel), 0, value.value, 0)])
  {
    FundChannelRunPieces(erc20AssetHolder, token, initialState, proposer, joiner, destinationHoldings);
    FundChannelRunTransactions(erc20AssetHolder, token, initialState, proposer, joiner, destinationHoldings);
  }

  /** The states funding signs: the initial state at turns 0 (as given), 1,
      2 and, only when the script returns, 3, each differing from it in
      nothing but the turn, signed alternately by proposer and joiner. */
  lemma FundChannelRunSignatures(
    erc20AssetHolder: Address, token: Address, initialState: State, proposer: Address, joiner: Address,
    destinationHoldings: nat)
    ensures var run := FundChannelRun(erc20AssetHolder, token, initialState, proposer, joiner, destinationHoldings);
      var signed := SignedStates(run.actions);
      && (forall s :: s in signed ==> s == initialState.(turnNum := s.turnNum))
      && TurnNumbers(signed) == [initialState.turnNum, 1, 2] + (if run.completion.Returned? then [3] else [])
      && Signers(run.actions) == [proposer, joiner, proposer] + (if run.completion.Returned? then [joiner] else [])
  {
    FundChannelRunSignedStates(erc20AssetHolder, token, initialState, proposer, joiner, destinationHoldings);
    FundChannelRunSigners(erc20AssetHolder, token, initialState, proposer, joiner, destinationHoldings);
    var run := FundChannelRun(erc20AssetHolder, token, initialState, proposer, joiner, destinationHoldings);
    var signed := SignedStates(run.actions);
    assert TurnNumbers(signed) == [initialState.turnNum, 1, 2] + (if run.completion.Returned? then [3] else []);
  }

  /** A funding run returns exactly when the slot-0 amount can be read
      and the holdings are nonzero; its actions are the proposal
      signatures, the funding transactions and, when it returns, PostFund3. */
  lemma FundChannelRunPieces(
    erc20AssetHolder: Address, token: Address, initialState: State, proposer: Address, joiner: Address,
    destinationHoldings: nat)
    ensures var run := FundChannelRun(erc20AssetHolder, token, initialState, proposer, joiner, destinationHoldings);
      var value := SlotZeroAmount(initialState.outcome);
      var returned := value.Success? && destinationHoldings != 0;
      && run.completion.Returned? == returned
      && run.actions == ProposalSignatures(initialState, proposer, joiner)
                        + FundingCalls(erc20AssetHolder, token, ChannelIdOf(initialState.channel), value)
                        + JoinerPostFund(initialState, joiner, returned)
  {
  }

  /** The states a funding run signs. */
  lemma FundChannelRunSignedStates(
    erc20AssetHolder: Address, token: Address, initialState: State, proposer: Address, joiner: Address,
    destinationHoldings: nat)
    ensures var run := FundChannelRun(erc20AssetHolder, token, initialState, proposer, joiner, destinationHoldings);
      SignedStates(run.actions)
      == [initialState, initialState.(turnNum := 1), initialState.(turnNum := 2)]
         + (if run.completion.Returned? then [initialState.(turnNum := 3)] else [])
  {
    var value := SlotZeroAmount(initialState.outcome);
    var returned := value.Success? && destinationHoldings != 0;
    var proposed := ProposalSignatures(initialState, proposer, joiner);
    var calls := FundingCalls(erc20AssetHolder, token, ChannelIdOf(initialState.channel), value);
    var postFund := JoinerPostFund(initialState, joiner, returned);
    FundChannelRunPieces(erc20AssetHolder, token, initialState, proposer, joiner, destinationHoldings);
    ProjectionsConcat(proposed, calls);
    ProjectionsConcat(proposed + calls, postFund);
    ProposalProjections(initialState, proposer, joiner);
    FundingCallsProjections(erc20AssetHolder, token, ChannelIdOf(initialState.channel), value);
    PostFundProjections(initialState, joiner, returned);
    assert SignedStates(proposed + calls) == SignedStates(proposed);
  }

  /** Who signs in a funding run. */
  lemma FundChannelRunSigners(
    erc20AssetHolder: Address, token: Address, initialState: State, proposer: Address, joiner: Address,
    destinationHoldings: nat)
    ensures var run := FundChannelRun(erc20AssetHolder, token, initialState, proposer, joiner, destinationHoldings);
      Signers(run.actions) == [proposer, joiner, proposer] + (if run.completion.Returned? then [joiner] else [])
  {
    var value := SlotZeroAmount(initialState.outcome);
    var returned := value.Success? && destinationHoldings != 0;
    var proposed := ProposalSignatures(initialState, proposer, joiner);
    var calls := FundingCalls(erc20AssetHolder, token, ChannelIdOf(initialState.channel), value);
    var postFund := JoinerPostFund(initialState, joiner, returned);
    FundChannelRunPieces(erc20AssetHolder, token, initialState, proposer, joiner, destinationHoldings);
    ProjectionsConcat(proposed, calls);
    ProjectionsConcat(proposed + calls, postFund);
    ProposalProjections(initialState, proposer, joiner);
    FundingCallsProjections(erc20AssetHolder, token, ChannelIdOf(initialState.channel), value);
    PostFundProjections(initialState, joiner, returned);
    assert Signers(proposed + calls) == Signers(proposed);
  }

  /** The transactions of a funding run. */
  lemma FundChannelRunTransactions(
    erc20AssetHolder: Address, token: Address, initialState: State, proposer: Address, joiner: Address,
    destinationHoldings: nat)
    ensures var run := FundChannelRun(erc20AssetHolder, token, initialState, proposer, joiner, destinationHoldings);
      ChainCalls(run.actions)
      == FundingCalls(erc20AssetHolder, token, ChannelIdOf(initialState.channel), SlotZeroAmount(initialState.outcome))
  {
    var value := SlotZeroAmount(initialState.outcome);
    var returned := value.Success? && destinationHoldings != 0;
    var proposed := ProposalSignatures(initialState, proposer, joiner);
    var calls := FundingCalls(erc20AssetHolder, token, ChannelIdOf(initialState.channel), value);
    var postFund := JoinerPostFund(initialState, joiner, returned);
    FundChannelRunPieces(erc20AssetHolder, token, initialState, proposer, joiner, destinationHoldings);
    ProjectionsConcat(proposed, calls);
    ProjectionsConcat(proposed + calls, postFund);
    ProposalProjections(initialState, proposer, joiner);
    FundingCallsProjections(erc20AssetHolder, token, ChannelIdOf(initialState.channel), value);
    PostFundProjections(initialState, joiner, returned);
    assert ChainCalls(proposed + calls) == calls;
  }


  /** Funding transactions sign nothing and are all chain calls. */
  lemma FundingCallsProjections(erc20AssetHolder: Address, token: Address, channelId: ChannelId,
                                value: Result<nat, Exception>)
    ensures var calls := FundingCalls(erc20AssetHolder, token, channelId, value);
      SignedStates(calls) == [] && Signers(calls) == [] && ChainCalls(calls) == calls
  {
    if value.Success? {
      var calls := FundingCalls(erc20AssetHolder, token, channelId, value);
      assert calls == [calls[0]] + [calls[1]];
      ProjectionsConcat([calls[0]], [calls[1]]);
    }
  }

  /** PostFund3, when signed, is the joiner's signature on turn 3. */
  lemma PostFundProjections(initialState: State, joiner: Address, signed: bool)
    ensures var postFund := JoinerPostFund(initialState, joiner, signed);
      && SignedStates(postFund) == (if signed then [initialState.(turnNum := 3)] else [])
      && Signers(postFund) == (if signed then [joiner] else [])
      && ChainCalls(postFund) == []
  {
    if signed {
      SignProjections(Signature(joiner, initialState.(turnNum := 3)));
    }
  }


  function TurnNumbers(states: seq<State>): (turns: seq<nat>)
    ensures |turns| == |states| && forall i :: 0 <= i < |states| ==> turns[i] == states[i].turnNum
  {
    if states == [] then [] else [states[0].turnNum] + TurnNumbers(states[1..])
  }

  lemma TurnNumbersConcat(a: seq<State>, b: seq<State>)
    ensures TurnNumbers(a + b) == TurnNumbers(a) + TurnNumbers(b)
  {
  }

  // ---------------------------------------------------------------------
  // defundChannel
  // ---------------------------------------------------------------------

  /** The HashLockedSwap contract's `validTransition`, which is not part of
      this model: any verdict on (from, to, turnNumB, numParticipants). */
  type ValidTransition = (VariablePart, VariablePart, nat, nat) -> bool

  /** `{ ...unlockState, isFinal: true }`. */
  function Finalised(unlockState: State): State
  {
    unlockState.(isFinal := true)
  }

  /** Everything `defundChannel` does, in order: the check against the app's
      transition rule (always asked for turn 4 and two participants), the
      final state signed by the proposer and then the joiner, and the
      conclude-and-transfer call with one state signed by both. */
  function DefundChannelRun(
    initialState: State, unlockState: State, proposer: Address, joiner: Address,
    nitroAdjudicator: Address, validTransition: ValidTransition): Run<()>
  {
    if !validTransition(GetVariablePart(initialState), GetVariablePart(unlockState), 4, 2) then
      Run(Threw(ErrorThrown), [])
    else
      var isFinal5 := Finalised(unlockState);
      var sigs := [Signature(proposer, isFinal5), Signature(joiner, isFinal5)];
      Run(Returned(()), [
        Sign(sigs[0]),
        Sign(sigs[1]),
        ConcludePushOutcomeAndTransferAll(
          nitroAdjudicator, isFinal5.turnNum, GetFixedPart(isFinal5), HashAppPart(isFinal5),
          isFinal5.outcome, 1, [0, 0], sigs)])
  }

  /** `defundChannel`: the joiner pays for the conclude call. The `Concluded`
      listener resolves on the event that call emits. */
  method DefundChannel(
    initialState: State, unlockState: State, proposer: Actor, joiner: Actor,
    nitroAdjudicator: Address, validTransition: ValidTransition, gasUsed: nat)
    returns (run: Run<()>)
    modifies joiner
    ensures run == DefundChannelRun(initialState, unlockState, proposer.signingAddress, joiner.signingAddress,
                                    nitroAdjudicator, validTransition)
    ensures joiner.gasSpent == old(joiner.gasSpent) + if run.completion.Returned? then gasUsed else 0
  {
    var unlockValid := validTransition(GetVariablePart(initialState), GetVariablePart(unlockState), 4, 2);
    if !unlockValid {
      return Run(Threw(ErrorThrown), []);
    }
    var isFinal5 := unlockState.(isFinal := true);
    var sigs := [Signature(proposer.signingAddress, isFinal5), Signature(joiner.signingAddress, isFinal5)];
    var actions := [Sign(sigs[0]), Sign(sigs[1])];
    actions := actions + [ConcludePushOutcomeAndTransferAll(
      nitroAdjudicator, isFinal5.turnNum, GetFixedPart(isFinal5), HashAppPart(isFinal5),
      isFinal5.outcome, 1, [0, 0], sigs)];
    joiner.SpendGas(gasUsed);
    run := Run(Returned(()), actions);
  }

  /** What defunding promises: an invalid unlock throws before anything is
      signed or sent; a valid one is finalised without changing anything but
      `isFinal` (the turn stays that of the unlock state), signed by proposer
      then joiner, and concluded in one call that names one state signed by
      both parties and pays out the unlock state's outcome. */
  lemma DefundChannelRunFacts(
    initialState: State, unlockState: State, proposer: Address, joiner: Address,
    nitroAdjudicator: Address, validTransition: ValidTransition)
    ensures var run := DefundChannelRun(initialState, unlockState, proposer, joiner, nitroAdjudicator, validTransition);
      var valid := validTransition(GetVariablePart(initialState), GetVariablePart(unlockState), 4, 2);
      && (run.completion.Threw? <==> !valid)
      && (!valid ==> run.actions == [])
      && (valid ==>
        var final := Finalised(unlockState);
        && final.isFinal && final.(isFinal := unlockState.isFinal) == unlockState
        && final.turnNum == unlockState.turnNum
        && SignedStates(run.actions) == [final, final]
        && Signers(run.actions) == [proposer, joiner]
        && |ChainCalls(run.actions)| == 1
        && var call := ChainCalls(run.actions)[0];
           && call.ConcludePushOutcomeAndTransferAll?
           && call.adjudicator == nitroAdjudicator
           && call.largestTurnNum == unlockState.turnNum
           && call.fixedPart == GetFixedPart(unlockState)
           && call.outcome == unlockState.outcome
           && call.numStates == 1 && call.whoSignedWhat == [0, 0]
           && call.sigs == [Signature(proposer, final), Signature(joiner, final)])
  {
    var run := DefundChannelRun(initialState, unlockState, proposer, joiner, nitroAdjudicator, validTransition);
    if run.completion.Returned? {
      var a := run.actions;
      assert a == [a[0]] + [a[1]] + [a[2]];
      ProjectionsConcat([a[0]] + [a[1]], [a[2]]);
      ProjectionsConcat([a[0]], [a[1]]);
    }
  }
}
