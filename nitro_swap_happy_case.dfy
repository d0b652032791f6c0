/** nitro-atomic-swap/happy-case.ts: the two legs of the swap. The executor
    locks funds for the responder on the left chain behind a hash; the
    responder locks funds for the executor on the right chain behind the
    same hash, with a shorter challenge duration; the executor unlocks the
    right leg by revealing the preimage, and the responder reuses it to
    unlock the left leg. nitro-happy-case.ts runs the same script with the
    same helpers; index.ts runs it with ETH and another amount. */
module NitroSwapHappyCase {
  import opened Results
  import opened Bytes
  import opened Constants
  import opened HashLockCodec
  import opened NitroProtocol
  import opened TwoChainSetup
  import opened NitroHelpers

  /** `preImage`, the secret "0xdeadbeef". */
  const PRE_IMAGE: seq<Byte> := [0xde, 0xad, 0xbe, 0xef]

  /** `correctPreImage`: the secret with `h` left at HashZero. */
  const CORRECT_PRE_IMAGE: HashLockedSwapData := HashLockedSwapData(HASH_ZERO, PRE_IMAGE)

  const LEFT_CHALLENGE_DURATION: nat := 60
  const RIGHT_CHALLENGE_DURATION: nat := 30

  /** The contracts deployed on one chain, and its chain id. */
  datatype ChainContracts = ChainContracts(
    chainId: nat, nitroAdjudicator: Address, assetHolder: Address, hashLock: Address, token: Address)

  /** `_PreFund0` and `_Unlock4` on the left chain, `_preFund0` and
      `_unlock4` on the right chain. */
  datatype SwapStates = SwapStates(leftPreFund: State, rightPreFund: State, rightUnlock: State, leftUnlock: State)

  /** Why building the states could throw: decoding app data, or `swap`. */
  datatype SwapError = Decoding(reason: DecodeError) | Swapping(error: Exception)

  function DecodeAppData(data: seq<Byte>): (r: Result<HashLockedSwapData, SwapError>)
    ensures r.Success? <==> Decode(data).Success?
    ensures r.Success? ==> r.value == Decode(data).value
  {
    match Decode(data)
    case Success(d) => Success(d)
    case Failure(e) => Failure(Decoding(e))
  }

  function SwapOutcome(outcome: Outcome): (r: Result<Outcome, SwapError>)
    ensures r.Success? <==> Swap(outcome).Success?
    ensures r.Success? ==> r.value == Swap(outcome).value
  {
    match Swap(outcome)
    case Success(o) => Success(o)
    case Failure(e) => Failure(Swapping(e))
  }

  /** The four states of the swap, built as the script builds them: the left
      prefund with the executor proposing; the right prefund with the roles
      reversed, committing to the hash decoded from the left app data; the
      right unlock at turn 4 carrying the preimage and the swapped outcome;
      the left unlock at turn 4 carrying the hash and preimage decoded from
      the right unlock and the swapped outcome. */
  function SwapStatesOf(
    slotZeroAmount: nat, left: ChainContracts, right: ChainContracts, executor: Address, responder: Address,
    commitment: Bytes32): Result<SwapStates, SwapError>
  {
    SafeIntegerFitsWord();
    var leftPreFund := HashLockChannel(slotZeroAmount, left.chainId, LEFT_CHALLENGE_DURATION, left.hashLock,
                                       left.assetHolder, executor, responder, commitment);
    var leftData :- DecodeAppData(leftPreFund.appData);
    var rightPreFund := HashLockChannel(slotZeroAmount, right.chainId, RIGHT_CHALLENGE_DURATION, right.hashLock,
                                        right.assetHolder, responder, executor, leftData.h);
    var rightSwapped :- SwapOutcome(rightPreFund.outcome);
    var rightUnlock := rightPreFund.(turnNum := 4, appData := Encode(CORRECT_PRE_IMAGE), outcome := rightSwapped);
    var revealed :- DecodeAppData(rightUnlock.appData);
    var leftSwapped :- SwapOutcome(leftPreFund.outcome);
    var leftUnlock := leftPreFund.(
      turnNum := 4,
      appData := Encode(HashLockedSwapData(revealed.h, revealed.preImage)),
      outcome := leftSwapped);
    Success(SwapStates(leftPreFund, rightPreFund, rightUnlock, leftUnlock))
  }

  /** The construction never throws, and the hash flows from left to right:
      both prefunds are hash-lock channels on the same commitment, the left
      one proposed by the executor with the longer challenge duration and
      the right one proposed by the responder. */
  lemma SwapStatesPreFunds(
    slotZeroAmount: nat, left: ChainContracts, right: ChainContracts, executor: Address, responder: Address,
    commitment: Bytes32)
    ensures var r := SwapStatesOf(slotZeroAmount, left, right, executor, responder, commitment);
      && r.Success?
      && r.value.leftPreFund == HashLockChannel(slotZeroAmount, left.chainId, 60, left.hashLock, left.assetHolder,
                                                executor, responder, commitment)
      && r.value.rightPreFund == HashLockChannel(slotZeroAmount, right.chainId, 30, right.hashLock, right.assetHolder,
                                                 responder, executor, commitment)
      && r.value.leftPreFund.challengeDuration > r.value.rightPreFund.challengeDuration
  {
    HashLockChannelShape(slotZeroAmount, left.chainId, 60, left.hashLock, left.assetHolder, executor, responder, commitment);
    HashLockChannelShape(slotZeroAmount, right.chainId, 30, right.hashLock, right.assetHolder, responder, executor, commitment);
    DecodeEncode(CORRECT_PRE_IMAGE);
  }

  /** The preimage flows from right to left: the right unlock reveals
      "0xdeadbeef" (with `h` at HashZero), the left unlock carries exactly
      the same app data, and each unlock differs from its prefund only in
      the turn (4), the app data and the outcome, where the locked amount
      now goes to the other party: the executor on the right chain, the
      responder on the left chain. */
  lemma SwapStatesUnlocks(
    slotZeroAmount: nat, left: ChainContracts, right: ChainContracts, executor: Address, responder: Address,
    commitment: Bytes32)
    ensures var r := SwapStatesOf(slotZeroAmount, left, right, executor, responder, commitment);
      r.Success? &&
      var st := r.value;
      && Decode(st.rightUnlock.appData) == Success(CORRECT_PRE_IMAGE)
      && Decode(st.leftUnlock.appData) == Success(CORRECT_PRE_IMAGE)
      && Decode(st.leftUnlock.appData).value.preImage == PRE_IMAGE
      && st.leftUnlock.appData == st.rightUnlock.appData
      && st.rightUnlock == st.rightPreFund.(turnNum := 4, appData := st.rightUnlock.appData, outcome := st.rightUnlock.outcome)
      && st.leftUnlock == st.leftPreFund.(turnNum := 4, appData := st.leftUnlock.appData, outcome := st.leftUnlock.outcome)
      && st.rightUnlock.outcome == [AllocationAssetOutcome(right.assetHolder, [
           AllocationItem(AddressToBytes32(responder), 0), AllocationItem(AddressToBytes32(executor), slotZeroAmount)])]
      && st.leftUnlock.outcome == [AllocationAssetOutcome(left.assetHolder, [
           AllocationItem(AddressToBytes32(executor), 0), AllocationItem(AddressToBytes32(responder), slotZeroAmount)])]
  {
    SwapStatesPreFunds(slotZeroAmount, left, right, executor, responder, commitment);
    DecodeEncode(CORRECT_PRE_IMAGE);
    SwapStatesUnlockOutcomes(slotZeroAmount, left, right, executor, responder, commitment);
  }

  /** Each unlock is its prefund at turn 4 with new app data and the
      swapped outcome. */
  lemma SwapStatesUnlockOutcomes(
    slotZeroAmount: nat, left: ChainContracts, right: ChainContracts, executor: Address, responder: Address,
    commitment: Bytes32)
    ensures var r := SwapStatesOf(slotZeroAmount, left, right, executor, responder, commitment);
      r.Success? &&
      var st := r.value;
      && st.rightUnlock == st.rightPreFund.(turnNum := 4, appData := st.rightUnlock.appData, outcome := st.rightUnlock.outcome)
      && st.leftUnlock == st.leftPreFund.(turnNum := 4, appData := st.leftUnlock.appData, outcome := st.leftUnlock.outcome)
      && st.rightUnlock.outcome == [AllocationAssetOutcome(right.assetHolder, [
           AllocationItem(AddressToBytes32(responder), 0), AllocationItem(AddressToBytes32(executor), slotZeroAmount)])]
      && st.leftUnlock.outcome == [AllocationAssetOutcome(left.assetHolder, [
           AllocationItem(AddressToBytes32(executor), 0), AllocationItem(AddressToBytes32(responder), slotZeroAmount)])]
  {
    SwapStatesPreFunds(slotZeroAmount, left, right, executor, responder, commitment);
  }

  /** The states of the script, which uses `SWAP_AMOUNT`. */
  function SwapStatesFor(left: ChainContracts, right: ChainContracts, executor: Address, responder: Address,
                         commitment: Bytes32): (st: SwapStates)
    ensures SwapStatesOf(SWAP_AMOUNT, left, right, executor, responder, commitment) == Success(st)
  {
    SwapStatesPreFunds(SWAP_AMOUNT, left, right, executor, responder, commitment);
    SwapStatesOf(SWAP_AMOUNT, left, right, executor, responder, commitment).value
  }

  // ---------------------------------------------------------------------
  // The script run
  // ---------------------------------------------------------------------

  /** What the chains answer during a run: the gas of each transaction and
      the holdings each `Deposited` event reports. */
  datatype ChainAnswers = ChainAnswers(
    leftAllowanceGas: nat, leftDepositGas: nat, leftHoldings: nat,
    rightAllowanceGas: nat, rightDepositGas: nat, rightHoldings: nat,
    rightConcludeGas: nat, leftConcludeGas: nat)

  /** A run that stopped before returning. */
  function Halted<T, U>(c: Completion<T>): Completion<U>
    requires !c.Returned?
  {
    if c.Threw? then Threw(c.error) else Waiting
  }

  /** Everything the script does with the states `st`, in order: fund the
      left leg; only once that returns, fund the right leg; then the
      executor signs the right unlock, the responder signs the left unlock,
      and both legs are defunded, the right one with the responder as
      proposer and the left one with the executor as proposer
      (`Promise.all`, taken in that order). */
  function HappyCaseRun(
    st: SwapStates, left: ChainContracts, right: ChainContracts, executor: Address, responder: Address,
    validTransition: ValidTransition, answers: ChainAnswers): Run<SwapStates>
  {
    var leftFund := FundChannelRun(left.assetHolder, left.token, st.leftPreFund, executor, responder, answers.leftHoldings);
    if !leftFund.completion.Returned? then Run(Halted(leftFund.completion), leftFund.actions)
    else
      var rightFund := FundChannelRun(right.assetHolder, right.token, st.rightPreFund, responder, executor, answers.rightHoldings);
      if !rightFund.completion.Returned? then Run(Halted(rightFund.completion), leftFund.actions + rightFund.actions)
      else
        var rightDefund := DefundChannelRun(st.rightPreFund, st.rightUnlock, responder, executor, right.nitroAdjudicator, validTransition);
        var leftDefund := DefundChannelRun(st.leftPreFund, st.leftUnlock, executor, responder, left.nitroAdjudicator, validTransition);
        var actions := leftFund.actions + rightFund.actions + UnlockSignatures(st, executor, responder)
          + rightDefund.actions + leftDefund.actions;
        if rightDefund.completion.Threw? then Run(Threw(rightDefund.completion.error), actions)
        else if leftDefund.completion.Threw? then Run(Threw(leftDefund.completion.error), actions)
        else Run(Returned(st), actions)
  }

  /** `unlock4`, signed by the executor, and `Unlock4`, signed by the
      responder. */
  function UnlockSignatures(st: SwapStates, executor: Address, responder: Address): seq<Action>
  {
    [Sign(Signature(executor, st.rightUnlock)), Sign(Signature(responder, st.leftUnlock))]
  }

  /** The script's main function (nitro-happy-case.ts has the same one),
      charging each actor the gas of the transactions it sends. */
  method HappyCase(
    left: ChainContracts, right: ChainContracts, executor: Actor, responder: Actor, commitment: Bytes32,
    validTransition: ValidTransition, answers: ChainAnswers)
    returns (run: Run<SwapStates>)
    requires executor != responder
    modifies executor, responder
    ensures run == HappyCaseRun(SwapStatesFor(left, right, executor.signingAddress, responder.signingAddress, commitment),
                                left, right, executor.signingAddress, responder.signingAddress, validTransition, answers)
    ensures run.completion.Returned? ==>
      && executor.gasSpent == old(executor.gasSpent) + answers.leftAllowanceGas + answers.leftDepositGas + answers.rightConcludeGas
      && responder.gasSpent == old(responder.gasSpent) + answers.rightAllowanceGas + answers.rightDepositGas + answers.leftConcludeGas
  {
    var e, r := executor.signingAddress, responder.signingAddress;
    SwapStatesPreFunds(SWAP_AMOUNT, left, right, e, r, commitment);
    SafeIntegerFitsWord();
    var leftPreFund := CreateHashLockChannel(left.chainId, 60, left.hashLock, left.assetHolder, e, r, commitment);
    var leftFund := FundChannel(left.assetHolder, left.token, leftPreFund, executor, responder,
                                answers.leftAllowanceGas, answers.leftDepositGas, answers.leftHoldings);
    if !leftFund.completion.Returned? {
      return Run(Halted(leftFund.completion), leftFund.actions);
    }
    var leftData := Decode(leftPreFund.appData).value;
    var rightPreFund := CreateHashLockChannel(right.chainId, 30, right.hashLock, right.assetHolder, r, e, leftData.h);
    var rightFund := FundChannel(right.assetHolder, right.token, rightPreFund, responder, executor,
                                 answers.rightAllowanceGas, answers.rightDepositGas, answers.rightHoldings);
    if !rightFund.completion.Returned? {
      return Run(Halted(rightFund.completion), leftFund.actions + rightFund.actions);
    }
    DecodeEncode(CORRECT_PRE_IMAGE);
    var rightUnlock := rightPreFund.(turnNum := 4, appData := Encode(CORRECT_PRE_IMAGE), outcome := Swap(rightPreFund.outcome).value);
    var revealed := Decode(rightUnlock.appData).value;
    var leftUnlock := leftPreFund.(
      turnNum := 4,
      appData := Encode(HashLockedSwapData(revealed.h, revealed.preImage)),
      outcome := Swap(leftPreFund.outcome).value);
    var st := SwapStates(leftPreFund, rightPreFund, rightUnlock, leftUnlock);
    var unlocks := [Sign(Signature(e, rightUnlock)), Sign(Signature(r, leftUnlock))];
    var rightDefund := DefundChannel(rightPreFund, rightUnlock, responder, executor, right.nitroAdjudicator,
                                     validTransition, answers.rightConcludeGas);
    var leftDefund := DefundChannel(leftPreFund, leftUnlock, executor, responder, left.nitroAdjudicator,
                                    validTransition, answers.leftConcludeGas);
    var actions := leftFund.actions + rightFund.actions + unlocks + rightDefund.actions + leftDefund.actions;
    if rightDefund.completion.Threw? {
      run := Run(Threw(rightDefund.completion.error), actions);
    } else if leftDefund.completion.Threw? {
      run := Run(Threw(leftDefund.completion.error), actions);
    } else {
      run := Run(Returned(st), actions);
    }
  }

  /** The responder commits nothing before the left leg is funded: the run
      begins with the whole left funding, and unless that returns, every
      state signed belongs to the left channel and every transaction goes to
      the left chain's token or asset holder. */
  lemma HappyCaseLeftFirst(
    st: SwapStates, left: ChainContracts, right: ChainContracts, executor: Address, responder: Address,
    validTransition: ValidTransition, answers: ChainAnswers)
    ensures var run := HappyCaseRun(st, left, right, executor, responder, validTransition, answers);
      var leftFund := FundChannelRun(left.assetHolder, left.token, st.leftPreFund, executor, responder, answers.leftHoldings);
      && leftFund.actions <= run.actions
      && (!leftFund.completion.Returned? ==>
            && (forall s :: s in SignedStates(run.actions) ==> s.channel == st.leftPreFund.channel)
            && (forall c :: c in ChainCalls(run.actions) ==>
                  || (c.IncreaseAllowance? && c.token == left.token && c.spender == left.assetHolder)
                  || (c.Deposit? && c.assetHolder == left.assetHolder)))
  {
    var leftFund := FundChannelRun(left.assetHolder, left.token, st.leftPreFund, executor, responder, answers.leftHoldings);
    if !leftFund.completion.Returned? {
      FundChannelRunSignatures(left.assetHolder, left.token, st.leftPreFund, executor, responder, answers.leftHoldings);
      FundChannelRunCalls(left.assetHolder, left.token, st.leftPreFund, executor, responder, answers.leftHoldings);
    }
  }

  /** The chain calls of a complete run, in order, for any four states: the
      left allowance and deposit, the right ones, then the conclusion of the
      right leg and of the left leg, each on its own finalised unlock signed
      by that leg's proposer and joiner. */
  lemma HappyCaseRunCalls(
    st: SwapStates, left: ChainContracts, right: ChainContracts, executor: Address, responder: Address,
    validTransition: ValidTransition, answers: ChainAnswers)
    ensures var run := HappyCaseRun(st, left, right, executor, responder, validTransition, answers);
      var vLeft, vRight := SlotZeroAmount(st.leftPreFund.outcome), SlotZeroAmount(st.rightPreFund.outcome);
      var finalRight, finalLeft := Finalised(st.rightUnlock), Finalised(st.leftUnlock);
      && (run.completion.Returned? <==>
            && vLeft.Success? && vRight.Success?
            && answers.leftHoldings != 0 && answers.rightHoldings != 0
            && validTransition(GetVariablePart(st.rightPreFund), GetVariablePart(st.rightUnlock), 4, 2)
            && validTransition(GetVariablePart(st.leftPreFund), GetVariablePart(st.leftUnlock), 4, 2))
      && (run.completion.Returned? ==> ChainCalls(run.actions) == [
            IncreaseAllowance(left.token, left.assetHolder, vLeft.value),
            Deposit(left.assetHolder, ChannelIdOf(st.leftPreFund.channel), 0, vLeft.value, 0),
            IncreaseAllowance(right.token, right.assetHolder, vRight.value),
            Deposit(right.assetHolder, ChannelIdOf(st.rightPreFund.channel), 0, vRight.value, 0),
            ConcludePushOutcomeAndTransferAll(
              right.nitroAdjudicator, st.rightUnlock.turnNum, GetFixedPart(finalRight), HashAppPart(finalRight),
              st.rightUnlock.outcome, 1, [0, 0], [Signature(responder, finalRight), Signature(executor, finalRight)]),
            ConcludePushOutcomeAndTransferAll(
              left.nitroAdjudicator, st.leftUnlock.turnNum, GetFixedPart(finalLeft), HashAppPart(finalLeft),
              st.leftUnlock.outcome, 1, [0, 0], [Signature(executor, finalLeft), Signature(responder, finalLeft)])])
  {
    var leftFund := FundChannelRun(left.assetHolder, left.token, st.leftPreFund, executor, responder, answers.leftHoldings);
    var rightFund := FundChannelRun(right.assetHolder, right.token, st.rightPreFund, responder, executor, answers.rightHoldings);
    FundChannelRunCalls(left.assetHolder, left.token, st.leftPreFund, executor, responder, answers.leftHoldings);
    FundChannelRunCalls(right.assetHolder, right.token, st.rightPreFund, responder, executor, answers.rightHoldings);
    if leftFund.completion.Returned? && rightFund.completion.Returned? {
      DefundChannelRunFacts(st.rightPreFund, st.rightUnlock, responder, executor, right.nitroAdjudicator, validTransition);
      DefundChannelRunFacts(st.leftPreFund, st.leftUnlock, executor, responder, left.nitroAdjudicator, validTransition);
      HappyCaseRunChainCallsSplit(st, left, right, executor, responder, validTransition, answers);
    }
  }

  /** Once both legs are funded, the chain calls of a run are those of the
      two fundings and of the two defundings; the unlock signatures send
      nothing. */
  lemma HappyCaseRunChainCallsSplit(
    st: SwapStates, left: ChainContracts, right: ChainContracts, executor: Address, responder: Address,
    validTransition: ValidTransition, answers: ChainAnswers)
    requires FundChannelRun(left.assetHolder, left.token, st.leftPreFund, executor, responder, answers.leftHoldings)
               .completion.Returned?
    requires FundChannelRun(right.assetHolder, right.token, st.rightPreFund, responder, executor, answers.rightHoldings)
               .completion.Returned?
    ensures ChainCalls(HappyCaseRun(st, left, right, executor, responder, validTransition, answers).actions)
      == ChainCalls(FundChannelRun(left.assetHolder, left.token, st.leftPreFund, executor, responder, answers.leftHoldings).actions)
         + ChainCalls(FundChannelRun(right.assetHolder, right.token, st.rightPreFund, responder, executor, answers.rightHoldings).actions)
         + ChainCalls(DefundChannelRun(st.rightPreFund, st.rightUnlock, responder, executor, right.nitroAdjudicator, validTransition).actions)
         + ChainCalls(DefundChannelRun(st.leftPreFund, st.leftUnlock, executor, responder, left.nitroAdjudicator, validTransition).actions)
  {
    var leftFund := FundChannelRun(left.assetHolder, left.token, st.leftPreFund, executor, responder, answers.leftHoldings);
    var rightFund := FundChannelRun(right.assetHolder, right.token, st.rightPreFund, responder, executor, answers.rightHoldings);
    var unlocks := UnlockSignatures(st, executor, responder);
    var rightDefund := DefundChannelRun(st.rightPreFund, st.rightUnlock, responder, executor, right.nitroAdjudicator, validTransition);
    var leftDefund := DefundChannelRun(st.leftPreFund, st.leftUnlock, executor, responder, left.nitroAdjudicator, validTransition);
    assert unlocks == [unlocks[0]] + [unlocks[1]];
    ProjectionsConcat([unlocks[0]], [unlocks[1]]);
    var a1 := leftFund.actions + rightFund.actions;
    var a2 := a1 + unlocks;
    var a3 := a2 + rightDefund.actions;
    ProjectionsConcat(leftFund.actions, rightFund.actions);
    ProjectionsConcat(a1, unlocks);
    ProjectionsConcat(a2, rightDefund.actions);
    ProjectionsConcat(a3, leftDefund.actions);
    assert ChainCalls(unlocks) == [];
    assert ChainCalls(a2) == ChainCalls(a1);
  }

  /** For the script's own states: a run completes exactly when both
      deposits show holdings and the app accepts both unlocks, and it then
      deposits `SWAP_AMOUNT` on each chain and concludes both legs at turn
      4 on the unlocks' swapped outcomes (see `SwapStatesUnlocks`: the right
      leg pays the executor, the left leg pays the responder). */
  lemma HappyCaseChainCalls(
    left: ChainContracts, right: ChainContracts, executor: Address, responder: Address, commitment: Bytes32,
    validTransition: ValidTransition, answers: ChainAnswers)
    ensures var st := SwapStatesFor(left, right, executor, responder, commitment);
      var run := HappyCaseRun(st, left, right, executor, responder, validTransition, answers);
      var finalRight, finalLeft := Finalised(st.rightUnlock), Finalised(st.leftUnlock);
      && (run.completion.Returned? <==>
            && answers.leftHoldings != 0 && answers.rightHoldings != 0
            && validTransition(GetVariablePart(st.rightPreFund), GetVariablePart(st.rightUnlock), 4, 2)
            && validTransition(GetVariablePart(st.leftPreFund), GetVariablePart(st.leftUnlock), 4, 2))
      && (run.completion.Returned? ==> ChainCalls(run.actions) == [
            IncreaseAllowance(left.token, left.assetHolder, SWAP_AMOUNT),
            Deposit(left.assetHolder, ChannelIdOf(st.leftPreFund.channel), 0, SWAP_AMOUNT, 0),
            IncreaseAllowance(right.token, right.assetHolder, SWAP_AMOUNT),
            Deposit(right.assetHolder, ChannelIdOf(st.rightPreFund.channel), 0, SWAP_AMOUNT, 0),
            ConcludePushOutcomeAndTransferAll(
              right.nitroAdjudicator, 4, GetFixedPart(finalRight), HashAppPart(finalRight),
              st.rightUnlock.outcome, 1, [0, 0], [Signature(responder, finalRight), Signature(executor, finalRight)]),
            ConcludePushOutcomeAndTransferAll(
              left.nitroAdjudicator, 4, GetFixedPart(finalLeft), HashAppPart(finalLeft),
              st.leftUnlock.outcome, 1, [0, 0], [Signature(executor, finalLeft), Signature(responder, finalLeft)])])
  {
    var st := SwapStatesFor(left, right, executor, responder, commitment);
    ScriptStatesFacts(left, right, executor, responder, commitment);
    HappyCaseRunCalls(st, left, right, executor, responder, validTransition, answers);
  }

  /** The facts about the script's states that its chain calls depend on. */
  lemma ScriptStatesFacts(left: ChainContracts, right: ChainContracts, executor: Address, responder: Address,
                          commitment: Bytes32)
    ensures var st := SwapStatesFor(left, right, executor, responder, commitment);
      && SlotZeroAmount(st.leftPreFund.outcome) == Success(SWAP_AMOUNT)
      && SlotZeroAmount(st.rightPreFund.outcome) == Success(SWAP_AMOUNT)
      && st.rightUnlock.turnNum == 4 && st.leftUnlock.turnNum == 4
  {
    SwapStatesPreFunds(SWAP_AMOUNT, left, right, executor, responder, commitment);
    SwapStatesUnlocks(SWAP_AMOUNT, left, right, executor, responder, commitment);
    HashLockChannelShape(SWAP_AMOUNT, left.chainId, 60, left.hashLock, left.assetHolder, executor, responder, commitment);
    HashLockChannelShape(SWAP_AMOUNT, right.chainId, 30, right.hashLock, right.assetHolder, responder, executor, commitment);
  }
}
