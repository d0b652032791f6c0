/** vector-atomic-swap/helpers.ts: the records of a Vector state channel
    (its core state, its withdraw commitment, a hash-locked transfer) as the
    swap scripts build them, and the transactions that fund and defund such
    a channel. The channel contract lives at a CREATE2 address derived from
    the channel factory, the two participants, the chain id and the
    minimal-proxy creation code of the channel master copy (EIP-1167). */
module VectorHelpers {
  import opened Results
  import opened Bytes
  import opened Constants
  import opened TwoChainSetup

  // ---------------------------------------------------------------------
  // getMinimalProxyInitCode
  // ---------------------------------------------------------------------

  /** The EIP-1167 creation code up to the implementation address, as a
      `0x`-prefixed hex string. */
  const INIT_CODE_PREFIX: string := "0x3d602d80600a3d3981f3363d3d373d3d3d363d73"

  /** The EIP-1167 creation code after the implementation address. */
  const INIT_CODE_SUFFIX: string := "5af43d82803e903d91602b57fd5bf3"

  /** `String.prototype.toLowerCase` on one character, for ASCII letters. */
  function LowerChar(c: char): (r: char)
    ensures 'A' <= c <= 'Z' ==> r as int == c as int + 32
    ensures !('A' <= c <= 'Z') ==> r == c
  {
    if 'A' <= c <= 'Z' then (c as int + 32) as char else c
  }

  /** `s.toLowerCase()`. */
  function ToLowerCase(s: string): (r: string)
    ensures |r| == |s|
    ensures forall i :: 0 <= i < |s| ==> r[i] == LowerChar(s[i])
  {
    seq(|s|, i requires 0 <= i < |s| => LowerChar(s[i]))
  }

  /** `s.replace(/^0x/, '')`: one leading "0x" removed, if there is one. */
  function StripHexPrefix(s: string): string
  {
    if |s| >= 2 && s[..2] == "0x" then s[2..] else s
  }

  /** Whether `a` starts with "0x" or "0X". */
  predicate HasHexPrefix(a: string)
  {
    |a| >= 2 && a[0] == '0' && (a[1] == 'x' || a[1] == 'X')
  }

  /** `getMinimalProxyInitCode`, in both files: the creation code of a
      minimal proxy delegating to `mastercopyAddress`. The address is
      lowercased before its "0x" is stripped, so a leading "0X" goes too;
      nothing else of the address is dropped or moved. */
  function GetMinimalProxyInitCode(mastercopyAddress: string): (r: string)
    ensures |r| >= |INIT_CODE_PREFIX| + |INIT_CODE_SUFFIX|
    ensures r[..|INIT_CODE_PREFIX|] == INIT_CODE_PREFIX
    ensures r[|r| - |INIT_CODE_SUFFIX|..] == INIT_CODE_SUFFIX
    ensures r[|INIT_CODE_PREFIX|..|r| - |INIT_CODE_SUFFIX|]
      == if HasHexPrefix(mastercopyAddress) then ToLowerCase(mastercopyAddress[2..]) else ToLowerCase(mastercopyAddress)
  {
    var lower := ToLowerCase(mastercopyAddress);
    var body := StripHexPrefix(lower);
    assert HasHexPrefix(mastercopyAddress) <==> |lower| >= 2 && lower[..2] == "0x" by {
      if |lower| >= 2 {
        assert lower[..2] == [lower[0], lower[1]];
      }
    }
    assert HasHexPrefix(mastercopyAddress) ==> body == ToLowerCase(mastercopyAddress[2..]);
    var r := INIT_CODE_PREFIX + body + INIT_CODE_SUFFIX;
    assert r[..|INIT_CODE_PREFIX|] == INIT_CODE_PREFIX;
    assert r[|INIT_CODE_PREFIX|..|r| - |INIT_CODE_SUFFIX|] == body;
    r
  }

  predicate IsHexDigit(c: char)
  {
    '0' <= c <= '9' || 'a' <= c <= 'f' || 'A' <= c <= 'F'
  }

  predicate IsLowerHexDigit(c: char)
  {
    '0' <= c <= '9' || 'a' <= c <= 'f'
  }

  /** For a 42-character "0x" address, the result is 112 characters: "0x"
      followed by the 110 lowercase hex digits of the 55-byte creation code,
      with the address's 40 digits, lowercased, at characters 42 to 81. */
  lemma InitCodeOfAddress(mastercopyAddress: string)
    requires |mastercopyAddress| == 42 && HasHexPrefix(mastercopyAddress)
    requires forall i :: 2 <= i < 42 ==> IsHexDigit(mastercopyAddress[i])
    ensures var r := GetMinimalProxyInitCode(mastercopyAddress);
      && |r| == 112 && r[..2] == "0x"
      && (forall i :: 2 <= i < 112 ==> IsLowerHexDigit(r[i]))
      && r[42..82] == ToLowerCase(mastercopyAddress[2..])
  {
    var r := GetMinimalProxyInitCode(mastercopyAddress);
    var body := ToLowerCase(mastercopyAddress[2..]);
    assert r == INIT_CODE_PREFIX + body + INIT_CODE_SUFFIX by {
      assert r == r[..42] + r[42..82] + r[82..];
    }
    assert r[..2] == [r[0], r[1]] == [INIT_CODE_PREFIX[0], INIT_CODE_PREFIX[1]] == "0x";
    ConstantCodeIsLowerHex();
    forall i | 2 <= i < 112 ensures IsLowerHexDigit(r[i]) {
      if i < 42 {
        assert r[i] == INIT_CODE_PREFIX[i];
      } else if i < 82 {
        assert r[i] == body[i - 42] == LowerChar(mastercopyAddress[i - 40]);
      } else {
        assert r[i] == INIT_CODE_SUFFIX[i - 82];
      }
    }
  }

  /** The fixed parts of the creation code are lowercase hex digits. */
  lemma ConstantCodeIsLowerHex()
    ensures forall i :: 2 <= i < |INIT_CODE_PREFIX| ==> IsLowerHexDigit(INIT_CODE_PREFIX[i])
    ensures forall i :: 0 <= i < |INIT_CODE_SUFFIX| ==> IsLowerHexDigit(INIT_CODE_SUFFIX[i])
  {
  }

  /** Two "0x" addresses give the same creation code exactly when they are
      the same address up to letter case. */
  lemma InitCodeIgnoresCase(a: string, b: string)
    requires HasHexPrefix(a) && HasHexPrefix(b)
    ensures GetMinimalProxyInitCode(a) == GetMinimalProxyInitCode(b) <==> ToLowerCase(a[2..]) == ToLowerCase(b[2..])
  {
    var ra, rb := GetMinimalProxyInitCode(a), GetMinimalProxyInitCode(b);
    if ra == rb {
      assert ToLowerCase(a[2..]) == ra[|INIT_CODE_PREFIX|..|ra| - |INIT_CODE_SUFFIX|];
    } else {
      assert ra == INIT_CODE_PREFIX + ToLowerCase(a[2..]) + INIT_CODE_SUFFIX by {
        assert ra == ra[..|INIT_CODE_PREFIX|] + ra[|INIT_CODE_PREFIX|..|ra| - |INIT_CODE_SUFFIX|] + ra[|ra| - |INIT_CODE_SUFFIX|..];
      }
      assert rb == INIT_CODE_PREFIX + ToLowerCase(b[2..]) + INIT_CODE_SUFFIX by {
        assert rb == rb[..|INIT_CODE_PREFIX|] + rb[|INIT_CODE_PREFIX|..|rb| - |INIT_CODE_SUFFIX|] + rb[|rb| - |INIT_CODE_SUFFIX|..];
      }
    }
  }

  // ---------------------------------------------------------------------
  // Records
  // ---------------------------------------------------------------------

  /** The deployed Vector contracts of one chain, and its chain id; the
      master copy's address is the hex string ethers reports for it. */
  datatype VectorChain = VectorChain(chainId: nat, channelMasterCopy: string, channelFactory: Address, hashLock: Address)

  /** `ethers.utils.getCreate2Address(factory, salt, initCodeHash)` with the
      salt `solidityKeccak256(['address','address','uint256'], [first,
      second, chainId])` and the hash of the creation code; hashing is not
      part of this model, so the address is kept as the data it is derived
      from. */
  datatype ChannelAddress = Create2Address(factory: Address, first: Address, second: Address, chainId: nat, initCode: string)

  /** The address of the channel between `proposer` and `joiner`, in that
      order, on `chain`. */
  function ChannelAddressOf(chain: VectorChain, proposer: Address, joiner: Address): ChannelAddress
  {
    Create2Address(chain.channelFactory, proposer, joiner, chain.chainId, GetMinimalProxyInitCode(chain.channelMasterCopy))
  }

  /** A balance: `amount[i]` goes to `to[i]`. */
  datatype Balance = Balance(amount: seq<nat>, to: seq<Address>)

  /** The lock of a hash-locked transfer, and when it expires. */
  datatype HashlockState = HashlockState(lockHash: LockHash, expiry: string)

  /** `createlockHash(preImage)`, kept symbolic. */
  datatype LockHash = LockHashOf(preImage: Bytes32)

  /** A transfer's `initialStateHash`: given bytes, or `hashTransferState`
      of a hash-lock state, kept symbolic. */
  datatype StateHash = StateHashBytes(bytes: Bytes32) | HashOfTransferState(state: HashlockState)

  /** `CoreTransferState`. The asset id is the bytes the script gives it. */
  datatype CoreTransferState = CoreTransferState(
    channelAddress: ChannelAddress, transferId: string, transferDefinition: Address,
    initiator: Address, responder: Address, assetId: seq<Byte>, balance: Balance,
    transferTimeout: string, initialStateHash: StateHash)

  /** The Merkle root over a channel's active transfers: `''` when none is
      recorded, otherwise the root of the listed transfers, kept symbolic. */
  datatype MerkleRoot = EmptyRoot | RootOf(transfers: seq<CoreTransferState>)

  /** `CoreChannelState`. */
  datatype CoreChannelState = CoreChannelState(
    nonce: nat, channelAddress: ChannelAddress, alice: Address, bob: Address, assetIds: seq<Address>,
    balances: seq<Balance>, processedDepositsA: seq<nat>, processedDepositsB: seq<nat>,
    defundNonces: seq<nat>, timeout: string, merkleRoot: MerkleRoot)

  /** `(60 * 60 * 24 * 2).toString()`: 48 hours, in seconds. */
  const DEFAULT_TIMEOUT: string := "172800"

  /** The core state both funding functions build: nonce 1, the default
      timeout, nothing processed, no transfers, and one balance of
      `SWAP_AMOUNT` to `recipient`. */
  function FundedCore(channelAddress: ChannelAddress, alice: Address, bob: Address, assetId: Address,
                      recipient: Address): CoreChannelState
  {
    CoreChannelState(
      nonce := 1, channelAddress := channelAddress, alice := alice, bob := bob, assetIds := [assetId],
      balances := [Balance([SWAP_AMOUNT], [recipient])],
      processedDepositsA := [], processedDepositsB := [], defundNonces := [],
      timeout := DEFAULT_TIMEOUT, merkleRoot := EmptyRoot)
  }

  /** `new WithdrawCommitment(channelAddress, alice, bob, recipient,
      assetId, amount, nonce)`. */
  datatype WithdrawCommitment = WithdrawCommitment(
    channelAddress: ChannelAddress, alice: Address, bob: Address, recipient: Address,
    assetId: Address, amount: nat, nonce: string)

  /** `new ChannelSigner(key).signMessage(commitment.hashToSign())`, kept
      symbolic. */
  datatype CommitmentSignature = CommitmentSignature(signer: Address, commitment: WithdrawCommitment)

  /** The transactions the Vector scripts send. */
  datatype VectorAction =
    | TokenTransfer(token: Address, to: ChannelAddress, amount: nat)
    | SendValue(to: ChannelAddress, value: nat)
    | IncreaseAllowance(token: Address, spender: Address, amount: nat)
    | CreateChannelAndDepositAlice(factory: Address, alice: Address, bob: Address, assetId: Address, amount: nat)
    | CreateChannel(factory: Address, alice: Address, bob: Address)
    | Withdraw(channel: ChannelAddress, withdrawData: WithdrawCommitment, aliceSig: CommitmentSignature,
               bobSig: CommitmentSignature)

  /** How a script function ended, and the transactions it sent. */
  datatype VectorRun<+T> = VectorRun(completion: Completion<T>, actions: seq<VectorAction>)

  // ---------------------------------------------------------------------
  // fundChannel
  // ---------------------------------------------------------------------

  /** `fundChannel` as written: sends the channel's balance to the
      not-yet-deployed channel address, the channel recording `joiner` as
      alice and `proposer` as bob. The core state reads `token.address`
      before the token is tested, so without a token it throws a
      `TypeError` and the ETH branch is never reached. helpers.ts pays the
      balance to the joiner, happy-case.ts to the responder. */
  function FundChannelRunAsWritten(
    chain: VectorChain, proposer: Address, joiner: Address, token: Option<Address>, recipient: Address)
    : VectorRun<CoreChannelState>
  {
    var channelAddress := ChannelAddressOf(chain, proposer, joiner);
    match token
    case None => VectorRun(Threw(TypeError), [])
    case Some(t) =>
      var core := FundedCore(channelAddress, joiner, proposer, t, recipient);
      VectorRun(Returned(core), [TokenTransfer(t, channelAddress, core.balances[0].amount[0])])
  }

  /** `fundChannel` with the asset id chosen as `createAndFundChannel`
      chooses it, so that a channel without a token is funded with ETH, as
      the function's `else` branch means to. */
  function FundChannelRun(
    chain: VectorChain, proposer: Address, joiner: Address, token: Option<Address>, recipient: Address)
    : VectorRun<CoreChannelState>
  {
    var channelAddress := ChannelAddressOf(chain, proposer, joiner);
    var core := FundedCore(channelAddress, joiner, proposer, if token.Some? then token.value else ADDRESS_ZERO, recipient);
    var amount := core.balances[0].amount[0];
    match token
    case Some(t) => VectorRun(Returned(core), [TokenTransfer(t, channelAddress, amount)])
    case None => VectorRun(Returned(core), [SendValue(channelAddress, amount)])
  }

  /** As written, `fundChannel` without a token throws before sending
      anything, although its ETH branch would have funded the channel; with
      a token it does exactly what the corrected version does. */
  lemma FundChannelAsWrittenLosesEthBranch(
    chain: VectorChain, proposer: Address, joiner: Address, token: Option<Address>, recipient: Address)
    ensures var asWritten := FundChannelRunAsWritten(chain, proposer, joiner, token, recipient);
      var corrected := FundChannelRun(chain, proposer, joiner, token, recipient);
      && (token.Some? ==> asWritten == corrected)
      && (token.None? ==>
            && asWritten == VectorRun(Threw(TypeError), [])
            && corrected.completion.Returned?
            && corrected.actions == [SendValue(ChannelAddressOf(chain, proposer, joiner), SWAP_AMOUNT)])
  {
  }

  /** `fundChannel`: the proposer pays for the funding transaction. */
  method FundChannel(
    chain: VectorChain, proposer: Actor, joiner: Actor, token: Option<Address>, recipient: Address, gasUsed: nat)
    returns (run: VectorRun<CoreChannelState>)
    modifies proposer
    ensures run == FundChannelRun(chain, proposer.signingAddress, joiner.signingAddress, token, recipient)
    ensures proposer.gasSpent == old(proposer.gasSpent) + gasUsed
  {
    var channelAddress := ChannelAddressOf(chain, proposer.signingAddress, joiner.signingAddress);
    var assetId := if token.Some? then token.value else ADDRESS_ZERO;
    var core := FundedCore(channelAddress, joiner.signingAddress, proposer.signingAddress, assetId, recipient);
    var tx;
    if token.Some? {
      tx := TokenTransfer(token.value, channelAddress, core.balances[0].amount[0]);
    } else {
      tx := SendValue(channelAddress, core.balances[0].amount[0]);
    }
    proposer.SpendGas(gasUsed);
    run := VectorRun(Returned(core), [tx]);
  }

  /** Funding always succeeds and moves exactly the amount its core state
      records, `SWAP_AMOUNT`, to the channel address derived from proposer
      and joiner in that order; the core records them the other way round,
      the joiner as alice. */
  lemma FundChannelRunFacts(
    chain: VectorChain, proposer: Address, joiner: Address, token: Option<Address>, recipient: Address)
    ensures var run := FundChannelRun(chain, proposer, joiner, token, recipient);
      && run.completion.Returned?
      && var core := run.completion.value;
      && core == FundedCore(ChannelAddressOf(chain, proposer, joiner), joiner, proposer,
                            if token.Some? then token.value else ADDRESS_ZERO, recipient)
      && core.alice == joiner && core.bob == proposer
      && core.channelAddress.first == core.bob && core.channelAddress.second == core.alice
      && |run.actions| == 1
      && (token.Some? ==> run.actions[0] == TokenTransfer(token.value, core.channelAddress, core.balances[0].amount[0]))
      && (token.None? ==> run.actions[0] == SendValue(core.channelAddress, core.balances[0].amount[0]))
      && core.balances[0].amount[0] == SWAP_AMOUNT
  {
  }

  // ---------------------------------------------------------------------
  // createAndFundChannel
  // ---------------------------------------------------------------------

  /** `createAndFundChannel`: the proposer, as alice, raises the factory's
      token allowance by the channel's balance and then creates the channel
      and deposits that amount in one call. Without a token the core state
      is built (with the zero asset id) but `token.increaseAllowance` throws
      a `TypeError` before any transaction. */
  function CreateAndFundChannelRun(
    chain: VectorChain, proposer: Address, joiner: Address, token: Option<Address>, recipient: Address)
    : VectorRun<CoreChannelState>
  {
    var channelAddress := ChannelAddressOf(chain, proposer, joiner);
    var core := FundedCore(channelAddress, proposer, joiner, if token.Some? then token.value else ADDRESS_ZERO, recipient);
    var amount := core.balances[0].amount[0];
    match token
    case None => VectorRun(Threw(TypeError), [])
    case Some(t) =>
      VectorRun(Returned(core), [
        IncreaseAllowance(t, chain.channelFactory, amount),
        CreateChannelAndDepositAlice(chain.channelFactory, proposer, joiner, t, amount)])
  }

  /** `createAndFundChannel`: the proposer pays for both transactions. */
  method CreateAndFundChannel(
    chain: VectorChain, proposer: Actor, joiner: Actor, token: Option<Address>, recipient: Address,
    allowanceGas: nat, depositGas: nat)
    returns (run: VectorRun<CoreChannelState>)
    modifies proposer
    ensures run == CreateAndFundChannelRun(chain, proposer.signingAddress, joiner.signingAddress, token, recipient)
    ensures proposer.gasSpent == old(proposer.gasSpent) + if token.Some? then allowanceGas + depositGas else 0
  {
    var channelAddress := ChannelAddressOf(chain, proposer.signingAddress, joiner.signingAddress);
    var assetId := if token.Some? then token.value else ADDRESS_ZERO;
    var core := FundedCore(channelAddress, proposer.signingAddress, joiner.signingAddress, assetId, recipient);
    if token.None? {
      return VectorRun(Threw(TypeError), []);
    }
    var amount := core.balances[0].amount[0];
    var actions := [IncreaseAllowance(token.value, chain.channelFactory, amount)];
    proposer.SpendGas(allowanceGas);
    actions := actions + [CreateChannelAndDepositAlice(chain.channelFactory, proposer.signingAddress,
                                                       joiner.signingAddress, assetId, amount)];
    proposer.SpendGas(depositGas);
    run := VectorRun(Returned(core), actions);
  }

  /** With a token, the allowance is raised by exactly the amount then
      deposited, the channel's balance `SWAP_AMOUNT`, and the channel is
      created for proposer and joiner in the order its address is derived
      from; the core states of the two funding functions differ only in
      who is alice and who is bob. */
  lemma CreateAndFundChannelRunFacts(
    chain: VectorChain, proposer: Address, joiner: Address, token: Option<Address>, recipient: Address)
    ensures var run := CreateAndFundChannelRun(chain, proposer, joiner, token, recipient);
      && (run.completion.Threw? <==> token.None?)
      && (token.None? ==> run.actions == [])
      && (token.Some? ==>
            && run.completion.Returned?
            && var core := run.completion.value;
            && core.alice == proposer && core.bob == joiner
            && core.channelAddress == ChannelAddressOf(chain, core.alice, core.bob)
            && core.balances[0].amount[0] == SWAP_AMOUNT
            && run.actions == [
                 IncreaseAllowance(token.value, chain.channelFactory, SWAP_AMOUNT),
                 CreateChannelAndDepositAlice(chain.channelFactory, core.alice, core.bob, token.value, SWAP_AMOUNT)]
            && core == FundChannelRun(chain, proposer, joiner, token, recipient).completion.value.(alice := proposer, bob := joiner))
  {
  }

  // ---------------------------------------------------------------------
  // defundChannel and createAndDefundChannel
  // ---------------------------------------------------------------------

  /** The withdraw commitment both defunding functions sign: the joiner
      withdraws `SWAP_AMOUNT` of the token (or ETH, as the zero address),
      at nonce "1", from the channel between proposer (alice) and joiner
      (bob). */
  function WithdrawCommitmentFor(channelAddress: ChannelAddress, proposer: Address, joiner: Address,
                                 token: Option<Address>): WithdrawCommitment
  {
    WithdrawCommitment(channelAddress, proposer, joiner, joiner,
                       if token.Some? then token.value else ADDRESS_ZERO, SWAP_AMOUNT, "1")
  }

  /** The withdraw call: the commitment signed by alice and by bob. */
  function WithdrawCall(channelAddress: ChannelAddress, proposer: Address, joiner: Address,
                        token: Option<Address>): VectorAction
  {
    var commitment := WithdrawCommitmentFor(channelAddress, proposer, joiner, token);
    Withdraw(channelAddress, commitment, CommitmentSignature(proposer, commitment), CommitmentSignature(joiner, commitment))
  }

  /** `defundChannel`: the withdraw from an already deployed channel. */
  function DefundChannelRun(channelAddress: ChannelAddress, proposer: Address, joiner: Address,
                            token: Option<Address>): VectorRun<()>
  {
    VectorRun(Returned(()), [WithdrawCall(channelAddress, proposer, joiner, token)])
  }

  /** `defundChannel`: `gasPayer` pays for the withdraw, whoever sent it. */
  method DefundChannel(
    channelAddress: ChannelAddress, proposer: Actor, joiner: Actor, gasPayer: Actor, token: Option<Address>,
    withdrawGas: nat)
    returns (run: VectorRun<()>)
    modifies gasPayer
    ensures run == DefundChannelRun(channelAddress, proposer.signingAddress, joiner.signingAddress, token)
    ensures gasPayer.gasSpent == old(gasPayer.gasSpent) + withdrawGas
  {
    var commitment := WithdrawCommitment(channelAddress, proposer.signingAddress, joiner.signingAddress,
      joiner.signingAddress, if token.Some? then token.value else ADDRESS_ZERO, SWAP_AMOUNT, "1");
    var aliceSig := CommitmentSignature(proposer.signingAddress, commitment);
    var bobSig := CommitmentSignature(joiner.signingAddress, commitment);
    gasPayer.SpendGas(withdrawGas);
    run := VectorRun(Returned(()), [Withdraw(channelAddress, commitment, aliceSig, bobSig)]);
  }

  /** `createAndDefundChannel`: deploy the channel contract, then withdraw
      from it as `defundChannel` does. */
  function CreateAndDefundChannelRun(channelAddress: ChannelAddress, proposer: Address, joiner: Address,
                                     chain: VectorChain, token: Option<Address>): VectorRun<()>
  {
    VectorRun(Returned(()), [CreateChannel(chain.channelFactory, proposer, joiner)]
                            + DefundChannelRun(channelAddress, proposer, joiner, token).actions)
  }

  /** `createAndDefundChannel`: the joiner pays for both transactions. */
  method CreateAndDefundChannel(
    channelAddress: ChannelAddress, proposer: Actor, joiner: Actor, chain: VectorChain, token: Option<Address>,
    createGas: nat, withdrawGas: nat)
    returns (run: VectorRun<()>)
    modifies joiner
    ensures run == CreateAndDefundChannelRun(channelAddress, proposer.signingAddress, joiner.signingAddress, chain, token)
    ensures joiner.gasSpent == old(joiner.gasSpent) + createGas + withdrawGas
  {
    var create := CreateChannel(chain.channelFactory, proposer.signingAddress, joiner.signingAddress);
    joiner.SpendGas(createGas);
    var defund := DefundChannel(channelAddress, proposer, joiner, joiner, token, withdrawGas);
    run := VectorRun(Returned(()), [create] + defund.actions);
  }

  /** What defunding promises: one withdraw, from the given channel, of
      `SWAP_AMOUNT` to the joiner at nonce "1", with proposer as alice and
      joiner as bob each signing the very same commitment; deploying the
      channel first changes nothing about that withdraw. */
  lemma DefundChannelRunFacts(channelAddress: ChannelAddress, proposer: Address, joiner: Address,
                              chain: VectorChain, token: Option<Address>)
    ensures var run := DefundChannelRun(channelAddress, proposer, joiner, token);
      && run.completion.Returned? && |run.actions| == 1
      && var w := run.actions[0];
      && w.Withdraw? && w.channel == channelAddress
      && w.withdrawData.channelAddress == channelAddress
      && w.withdrawData.alice == proposer && w.withdrawData.bob == joiner
      && w.withdrawData.recipient == joiner
      && w.withdrawData.amount == SWAP_AMOUNT && w.withdrawData.nonce == "1"
      && w.withdrawData.assetId == (if token.Some? then token.value else ADDRESS_ZERO)
      && w.aliceSig.signer == proposer && w.bobSig.signer == joiner
      && w.aliceSig.commitment == w.bobSig.commitment == w.withdrawData
      && CreateAndDefundChannelRun(channelAddress, proposer, joiner, chain, token).actions
         == [CreateChannel(chain.channelFactory, proposer, joiner), w]
  {
  }

  // ---------------------------------------------------------------------
  // createAndFundChannelForDispute
  // ---------------------------------------------------------------------

  /** The hash-locked transfer of the dispute channel (the fields the
      script sets; `createTestFullHashlockTransferState` fills the others),
      its lock, and the preimage that resolves it. */
  datatype DisputeTransfer = DisputeTransfer(core: CoreTransferState, transferState: HashlockState, preImage: Bytes32)

  /** `createAndFundChannelForDispute`: a channel between alice and bob
      holding one hash-locked transfer of 1 from alice to bob, funded with
      one token unit through the factory plus one wei sent to the channel.
      The random preimage and the generated transfer id are parameters. */
  function CreateAndFundChannelForDisputeRun(
    chain: VectorChain, alice: Address, bob: Address, transferDefinition: Address, token: Address,
    preImage: Bytes32, transferId: string): VectorRun<(CoreChannelState, DisputeTransfer)>
  {
    var channelAddress := ChannelAddressOf(chain, alice, bob);
    var state := HashlockState(LockHashOf(preImage), "0");
    var transfer := CoreTransferState(
      channelAddress := channelAddress, transferId := transferId, transferDefinition := transferDefinition,
      initiator := alice, responder := bob, assetId := token, balance := Balance([1, 0], [alice, bob]),
      transferTimeout := "3", initialStateHash := HashOfTransferState(state));
    var core := CoreChannelState(
      nonce := 1, channelAddress := channelAddress, alice := alice, bob := bob, assetIds := [token],
      balances := [Balance([ZERO, ZERO], [alice, bob])],
      processedDepositsA := [], processedDepositsB := [], defundNonces := [],
      timeout := DEFAULT_TIMEOUT, merkleRoot := RootOf([transfer]));
    VectorRun(Returned((core, DisputeTransfer(transfer, state, preImage))), [
      IncreaseAllowance(token, chain.channelFactory, ONE),
      CreateChannelAndDepositAlice(chain.channelFactory, alice, bob, token, ONE),
      SendValue(channelAddress, ONE)])
  }

  /** The dispute channel holds nothing in its balances, records exactly
      its one transfer in the Merkle root, and that transfer, in the same
      channel and asset, moves 1 to alice and 0 to bob and is locked on the
      hash of the preimage it carries; the channel is funded with one unit
      of each of token and ETH. */
  lemma DisputeChannelFacts(
    chain: VectorChain, alice: Address, bob: Address, transferDefinition: Address, token: Address,
    preImage: Bytes32, transferId: string)
    ensures var run := CreateAndFundChannelForDisputeRun(chain, alice, bob, transferDefinition, token, preImage, transferId);
      && run.completion.Returned?
      && var (core, transfer) := run.completion.value;
      && core.channelAddress == ChannelAddressOf(chain, alice, bob)
      && core.alice == alice && core.bob == bob && core.nonce == 1
      && core.balances == [Balance([0, 0], [alice, bob])]
      && core.merkleRoot == RootOf([transfer.core])
      && transfer.core.channelAddress == core.channelAddress
      && [transfer.core.assetId] == core.assetIds
      && transfer.core.balance == Balance([1, 0], [alice, bob])
      && transfer.core.initiator == alice && transfer.core.responder == bob
      && transfer.transferState.lockHash == LockHashOf(transfer.preImage)
      && transfer.preImage == preImage
      && transfer.core.initialStateHash == HashOfTransferState(transfer.transferState)
      && run.actions == [
           IncreaseAllowance(token, chain.channelFactory, 1),
           CreateChannelAndDepositAlice(chain.channelFactory, alice, bob, token, 1),
           SendValue(core.channelAddress, 1)]
  {
  }
}
