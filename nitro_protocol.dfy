/** The Nitro protocol records the hash-lock scripts build, sign and submit.
    Hashing and signing stay symbolic: a channel id is the channel it was
    computed from, a signature records its signer and the state signed, and
    a chain call is a value describing the transaction sent. */
module NitroProtocol {
  import opened Bytes
  import Results

  datatype Channel = Channel(chainId: nat, channelNonce: nat, participants: seq<Address>)

  datatype AllocationItem = AllocationItem(destination: Bytes32, amount: nat)

  datatype AssetOutcome =
    | AllocationAssetOutcome(assetHolderAddress: Address, allocationItems: seq<AllocationItem>)
    | GuaranteeAssetOutcome(assetHolderAddress: Address, targetChannelId: Bytes32, destinations: seq<Bytes32>)

  type Outcome = seq<AssetOutcome>

  datatype State = State(
    turnNum: nat,
    isFinal: bool,
    channel: Channel,
    challengeDuration: nat,
    outcome: Outcome,
    appDefinition: Address,
    appData: seq<Byte>)

  /** `getChannelId`: the hash of the channel's chain id, participants and
      nonce, kept symbolic. */
  datatype ChannelId = ChannelIdOf(channel: Channel)

  /** `getVariablePart`: the part of a state that may change between turns. */
  datatype VariablePart = VariablePart(outcome: Outcome, appData: seq<Byte>)

  function GetVariablePart(s: State): VariablePart
  {
    VariablePart(s.outcome, s.appData)
  }

  /** `getFixedPart`: the part of a state fixed for the channel's life. */
  datatype FixedPart = FixedPart(
    chainId: nat,
    participants: seq<Address>,
    channelNonce: nat,
    appDefinition: Address,
    challengeDuration: nat)

  function GetFixedPart(s: State): FixedPart
  {
    FixedPart(s.channel.chainId, s.channel.participants, s.channel.channelNonce, s.appDefinition, s.challengeDuration)
  }

  /** `hashAppPart`: the hash of challenge duration, app definition and app
      data, kept symbolic. */
  datatype AppPartHash = AppPartHashOf(challengeDuration: nat, appDefinition: Address, appData: seq<Byte>)

  function HashAppPart(s: State): AppPartHash
  {
    AppPartHashOf(s.challengeDuration, s.appDefinition, s.appData)
  }

  /** `signState(state, key).signature`, kept symbolic. */
  datatype Signature = Signature(signer: Address, state: State)

  /** The observable steps of a script: a state signed for the counterparty,
      or a transaction sent to a chain. */
  datatype Action =
    | Sign(signature: Signature)
    | IncreaseAllowance(token: Address, spender: Address, amount: nat)
    | Deposit(assetHolder: Address, channelId: ChannelId, expectedHeld: nat, amount: nat, value: nat)
    | TransferToken(token: Address, to: Address, amount: nat)
    | SendValue(to: Address, value: nat)
    | ConcludePushOutcomeAndTransferAll(
        adjudicator: Address, largestTurnNum: nat, fixedPart: FixedPart, appPartHash: AppPartHash,
        outcome: Outcome, numStates: nat, whoSignedWhat: seq<nat>, sigs: seq<Signature>)
    | CreateAndPayout(
        factory: Address, channelId: ChannelId, largestTurnNum: nat, fixedPart: FixedPart,
        appPartHash: AppPartHash, outcome: Outcome, numStates: nat, whoSignedWhat: seq<nat>,
        sigs: seq<Signature>)

  /** The states signed, in order. */
  function SignedStates(actions: seq<Action>): seq<State>
  {
    if actions == [] then []
    else
      var last := actions[|actions| - 1];
      SignedStates(actions[..|actions| - 1]) + if last.Sign? then [last.signature.state] else []
  }

  /** Who signed them, in the same order. */
  function Signers(actions: seq<Action>): seq<Address>
  {
    if actions == [] then []
    else
      var last := actions[|actions| - 1];
      Signers(actions[..|actions| - 1]) + if last.Sign? then [last.signature.signer] else []
  }

  /** The transactions sent, in order. */
  function ChainCalls(actions: seq<Action>): seq<Action>
  {
    if actions == [] then []
    else
      var last := actions[|actions| - 1];
      ChainCalls(actions[..|actions| - 1]) + if last.Sign? then [] else [last]
  }

  lemma ProjectionsConcat(a: seq<Action>, b: seq<Action>)
    ensures SignedStates(a + b) == SignedStates(a) + SignedStates(b)
    ensures Signers(a + b) == Signers(a) + Signers(b)
    ensures ChainCalls(a + b) == ChainCalls(a) + ChainCalls(b)
  {
    SignedStatesConcat(a, b);
    SignersConcat(a, b);
    ChainCallsConcat(a, b);
  }

  lemma {:induction false} SignedStatesConcat(a: seq<Action>, b: seq<Action>)
    ensures SignedStates(a + b) == SignedStates(a) + SignedStates(b)
  {
    if b == [] {
      assert a + b == a;
    } else {
      assert (a + b)[..|a + b| - 1] == a + b[..|b| - 1];
      SignedStatesConcat(a, b[..|b| - 1]);
    }
  }

  lemma {:induction false} SignersConcat(a: seq<Action>, b: seq<Action>)
    ensures Signers(a + b) == Signers(a) + Signers(b)
  {
    if b == [] {
      assert a + b == a;
    } else {
      assert (a + b)[..|a + b| - 1] == a + b[..|b| - 1];
      SignersConcat(a, b[..|b| - 1]);
    }
  }

  lemma {:induction false} ChainCallsConcat(a: seq<Action>, b: seq<Action>)
    ensures ChainCalls(a + b) == ChainCalls(a) + ChainCalls(b)
  {
    if b == [] {
      assert a + b == a;
    } else {
      assert (a + b)[..|a + b| - 1] == a + b[..|b| - 1];
      ChainCallsConcat(a, b[..|b| - 1]);
    }
  }

  /** One signature: one state signed, one signer, no transaction. */
  lemma SignProjections(sig: Signature)
    ensures SignedStates([Sign(sig)]) == [sig.state]
    ensures Signers([Sign(sig)]) == [sig.signer]
    ensures ChainCalls([Sign(sig)]) == []
  {
    assert [Sign(sig)][..0] == [];
  }

  /** The steps a script function takes and how it ends. */
  datatype Run<+T> = Run(completion: Results.Completion<T>, actions: seq<Action>)
}
