# Cross-chain atomic swaps over state channels

A Dafny model of the demo scripts of statechannels/cross-chain-swaps. These scripts
swap tokens between an *executor* and a *responder* on two chains.

The Nitro scripts open one hash-locked channel on each chain:
- the left channel, where the executor locks `SWAP_AMOUNT` for the responder behind a
  hash, with challenge duration 60;
- the right channel, where the responder locks the same amount for the executor behind
  the same hash, with challenge duration 30.

Each channel is funded through its asset holder. The executor unlocks the right channel
by revealing the preimage in a turn-4 state with the outcome swapped. The responder
copies the revealed hash and preimage into the left channel's turn-4 state. Both
channels are then finalised (`isFinal := true`) and concluded.

Variants:
- `index.ts` is the same swap with 80 ether paid in ETH.
- The ninja variant funds a channel by paying its counterfactual address, and pays out
  through the adjudicator factory.
- The Vector scripts fund Connext Vector channels and build their core-state, transfer
  and withdraw-commitment records.
- The shared harness counts each actor's gas and aggregates a transaction trace per
  opcode.

Modules:
- `Results`, `Bytes`, `Constants`: result, option and completion types; byte strings and
  big-endian words; the constants of `constants.ts`.
- `HashLockCodec`: the ABI encoding of `(bytes32 h, bytes preImage)`, following the
  Solidity Contract ABI Specification ("Formal Specification of the Encoding"), as the
  ethers v5 `defaultAbiCoder` reads and writes it. Offsets and lengths are read as safe
  integers (at most 2^53 - 1). Padding bytes are not checked, and trailing data is
  ignored.
- `NitroProtocol`: channels, states, outcomes, and the script's observable actions.
  - Actions are signatures and chain calls.
  - Channel ids, signatures and app-part hashes are symbolic values.
- `NitroHelpers` (nitro-atomic-swap/helpers.ts):
  - `createHashLockChannel` and `swap`;
  - `fundChannel` and `defundChannel`, as a pure run function plus a method that
    updates the `Actor`'s gas counter.
- `NinjaHelpers` (ninja-atomic-swap/helpers.ts): that variant's `fundChannel`,
  `defundChannel` and gas accounting.
- `NitroSwapHappyCase` (nitro-atomic-swap/happy-case.ts): the construction of the four
  states, and the run of the script.
- `IndexScript` (index.ts): the 80-ether ETH variant.
- `VectorHelpers` (vector-atomic-swap/helpers.ts) and `VectorHappyCase`
  (vector-atomic-swap/happy-case.ts).
- `TwoChainSetup` (common/two-chain-setup.ts): `Actor`, `logTotalGasSpentByAll`,
  `aggregatedCostPerOpcode` and the filters of `parseTransaction`.

Several functions exist as identical copies in more than one file. Each is modelled once:
- The codec, `createHashLockChannel` and `swap` appear in:
  - nitro-atomic-swap/helpers.ts;
  - ninja-atomic-swap/helpers.ts;
  - nitro-happy-case.ts (with the same `fundChannel` and `defundChannel`).
- index.ts has the same codec, `swap` and `defundChannel`. Its `createHashLockChannel`
  and `fundChannel` differ.
- The main function of nitro-happy-case.ts equals that of
  nitro-atomic-swap/happy-case.ts.
- vector-atomic-swap/happy-case.ts carries copies of the Vector helpers:
  - `getMinimalProxyInitCode`, `defundChannel` and `createAndDefundChannel` are
    identical.
  - Its two funding functions differ only in recording the channel balance as going to
    the responder rather than to the joiner (the `recipient` parameter).

Every awaited chain interaction is an action appended to the run. Each run carries a
`Completion`:
- returned, with its value;
- threw, with the exception;
- still waiting on an event that never came.

For an event listener:
- A `Deposited` event with zero `destinationHoldings` leaves the run waiting.
- A `Transfer` event with zero `value` does the same.
- The listener's signature is recorded at the point where the script awaits the
  promise.

The final state keeps the turn of the unlock state (4) with `isFinal` set. No turn-5
state is ever built, although the local variables are named `isFinal5`; the model
follows the code.

## Model

| member | source | states |
|---|---|---|
| HashLockCodec.Encode | nitro-atomic-swap/helpers.ts:67-72 | the encoding is 128 bytes of head, length and hash words, plus the preimage padded to a multiple of 32 bytes |
| HashLockCodec.Decode | nitro-atomic-swap/helpers.ts:74-80 | input shorter than two words is rejected; a decoded preimage is never longer than the largest safe integer |
| HashLockCodec.DecodeEncode | nitro-atomic-swap/helpers.ts:67-80 | decoding an encoded `{h, preImage}` gives back the same `h` and `preImage`, for every preimage of safe length. Identical copies: ninja-atomic-swap/helpers.ts:67-80, index.ts:88-101, nitro-happy-case.ts:46-59 |
| HashLockCodec.EncodeInjective | nitro-atomic-swap/helpers.ts:67-72 | two different swap data, each with a preimage of at most 2^53 - 1 bytes, never encode to the same bytes |
| NitroHelpers.HashLockChannelShape | nitro-atomic-swap/helpers.ts:89-132 | for any slot-0 amount: turn 0, not final, nonce 0, participants `[proposer, joiner]`, the given chain id, challenge duration and app definition, one allocation (proposer gets the amount, joiner gets 0), and app data that decodes to `(hash, empty preimage)` |
| NitroHelpers.CreateHashLockChannelShape | nitro-atomic-swap/helpers.ts:89-132 | the turn-0 state locks `SWAP_AMOUNT` for the proposer and 0 for the joiner, and its app data decodes to `(hash, empty preimage)`. Identical copies: ninja-atomic-swap/helpers.ts:89-132, nitro-happy-case.ts:236-279 |
| NitroHelpers.Swap | nitro-atomic-swap/helpers.ts:263-281 | succeeds exactly on an allocation with at least two items. The result has one entry with two items: same asset holder and destinations, amounts exchanged. A guarantee outcome throws `Error`; a missing entry or item is a `TypeError`. Identical copies: ninja-atomic-swap/helpers.ts:262-280, nitro-happy-case.ts:410-428 |
| NitroHelpers.SwapInvolution | nitro-atomic-swap/helpers.ts:263-281 | swapping twice restores a one-entry, two-item allocation; any other swappable outcome comes back truncated to its first entry and first two items. Identical copy: index.ts:430-448 |
| NitroHelpers.FundChannel | nitro-atomic-swap/helpers.ts:134-208 | the method performs the funding run, and the proposer's gas grows by the allowance gas plus the deposit gas (by nothing if it throws first) |
| NitroHelpers.FundChannelRunCalls | nitro-atomic-swap/helpers.ts:184-202 | the allowance is raised and then the deposit made, both by the slot-0 amount of the initial outcome. The run returns the channel id exactly when that amount exists and the holdings are nonzero. It throws exactly when the amount is missing, with no transaction sent. Identical copy: nitro-happy-case.ts:331-349 |
| NitroHelpers.FundChannelRunSignatures | nitro-atomic-swap/helpers.ts:142-179 | every signed state is the initial state with only the turn changed. Turns are 0, 1, 2, then 3 only when the run returns, i.e. after nonzero holdings. Signers alternate proposer, joiner, proposer, joiner |
| NitroHelpers.DefundChannel | nitro-atomic-swap/helpers.ts:210-261 | the method performs the defunding run; the joiner pays the conclude gas only when it returns |
| NitroHelpers.DefundChannelRunFacts | nitro-atomic-swap/helpers.ts:218-255 | an invalid transition throws with nothing signed or sent. Otherwise the final state differs from the unlock state only in `isFinal` (same turn). Proposer then joiner sign it, and one conclude call carries that turn, numStates 1, whoSignedWhat `[0,0]`, and both signatures. Identical copies: index.ts:387-397, nitro-happy-case.ts:365-375 |
| NinjaHelpers.FundChannel | ninja-atomic-swap/helpers.ts:134-211 | corrected (see Findings): the method performs the ninja funding run, and the proposer's gas grows by the receipt's gas used, which the script as written turns into NaN |
| NinjaHelpers.FundChannelRunCalls | ninja-atomic-swap/helpers.ts:161-208 | exactly one payment of the constant `SWAP_AMOUNT` to the channel address: a token transfer, or an ETH send without a token. PostFund2 comes after it. The run returns exactly when there is a token and the first `Transfer` value is nonzero; the recipient is not checked. It throws exactly when there is no token |
| NinjaHelpers.FundChannelRunSignatures | ninja-atomic-swap/helpers.ts:146-203 | the turn-1, 2 and 3 states differ from the initial state only in the turn; turn 3 is signed, by the joiner, only when the run returns |
| NinjaHelpers.DefundChannel | ninja-atomic-swap/helpers.ts:213-260 | corrected (see Findings): the method performs the ninja defunding run; the joiner's gas grows by the payout receipt's gas used exactly when the run returns, which the script as written turns into NaN |
| NinjaHelpers.DefundChannelRunFacts | ninja-atomic-swap/helpers.ts:221-249 | an invalid transition throws before anything is signed or sent. Otherwise one `createAndPayout`, keyed by the unlock state's channel id, pays out the unlock state with only `isFinal` set, signed by proposer then joiner |
| NinjaHelpers.GasCounterAsWritten | ninja-atomic-swap/helpers.ts:194-196 | adding `Number` of what `parseTransaction` resolves to makes the counter NaN, not the old value plus the receipt's gas, and NaN stays NaN through later additions |
| NinjaHelpers.NaNAbsorbs | ninja-atomic-swap/helpers.ts:255 | once the counter is NaN, any sequence of additions leaves it NaN |
| NinjaHelpers.GasCounterCorrected | ninja-atomic-swap/helpers.ts:250-255 | if `parseTransaction` returns the receipt's gas, one charge adds exactly that gas |
| NitroSwapHappyCase.SwapStatesFor | nitro-atomic-swap/happy-case.ts:56-118 | the construction of the four states succeeds for the script's amount |
| NitroSwapHappyCase.SwapStatesPreFunds | nitro-atomic-swap/happy-case.ts:56-85 | the construction never throws. Left prefund: left chain, duration 60, executor proposing, on the commitment. Right prefund: right chain, duration 30, responder proposing, on the hash decoded from the left app data, which is the same commitment. Left duration exceeds right |
| NitroSwapHappyCase.SwapStatesUnlocks | nitro-atomic-swap/happy-case.ts:98-118 | the right unlock reveals `0xdeadbeef` with `h` = HashZero. The left unlock carries the same decoded hash and preimage. Each unlock differs from its prefund only in turn (4), app data and outcome, the locked amount moving to the other party. Identical copy: nitro-happy-case.ts:150-170 |
| NitroSwapHappyCase.HappyCase | nitro-atomic-swap/happy-case.ts:56-139 | the script's run is that of its four states. On completion, the executor paid the left allowance, left deposit and right conclude; the responder paid the right allowance, right deposit and left conclude. Identical copy: nitro-happy-case.ts:108-191 |
| NitroSwapHappyCase.HappyCaseLeftFirst | nitro-atomic-swap/happy-case.ts:67-93 | the run starts with the whole left funding. Unless that returns, every signed state is of the left channel and every transaction goes to the left token or asset holder |
| NitroSwapHappyCase.HappyCaseRunCalls | nitro-atomic-swap/happy-case.ts:122-139 | for any four states: the run completes exactly when both slot-0 amounts exist, both holdings are nonzero, and both unlocks are valid transitions. Its calls are then: left allowance and deposit, right allowance and deposit, right conclude (responder as proposer), left conclude (executor as proposer), each on its own leg's prefund and unlock. Identical copy: nitro-happy-case.ts:174-191 |
| NitroSwapHappyCase.HappyCaseChainCalls | nitro-atomic-swap/happy-case.ts:67-139 | for the script's own states: completion iff both holdings are nonzero and both unlocks are valid. Then `SWAP_AMOUNT` is approved and deposited on each chain, and both legs are concluded at turn 4 on their swapped outcomes |
| NitroSwapHappyCase.ScriptStatesFacts | nitro-atomic-swap/happy-case.ts:98-118 | both prefunds lock `SWAP_AMOUNT` in slot 0 and both unlocks are at turn 4 |
| IndexScript.CreateHashLockChannelShape | index.ts:268-311 | the turn-0 state is on nonce 0 between `[proposer, joiner]`. It locks 80 ether for the proposer and 0 for the joiner, is not final, and its app data decodes to `(hash, empty preimage)` |
| IndexScript.FundChannel | index.ts:313-377 | the method performs the ETH funding run; the proposer pays the deposit gas unless it throws first |
| IndexScript.FundChannelRunCalls | index.ts:362-371 | the one transaction deposits the slot-0 amount, expecting 0 held, with that amount as ETH value. It returns exactly on nonzero holdings and throws, sending nothing, when slot 0 is missing |
| IndexScript.FundChannelRunMatchesTokenFunding | index.ts:313-377 | ETH funding ends as token funding ends, and signs the same states with the same signers in the same order |
| IndexScript.IndexStates | index.ts:148-207 | index.ts's four states are the swap construction with 80 ether locked |
| IndexScript.IndexStatesFacts | index.ts:186-207 | both prefunds lock 80 ether; both unlocks are at turn 4 with the 80 ether moved to the other party |
| IndexScript.RunScript | index.ts:112-234 | the script's run is that of its states. On completion, the executor paid the left deposit and right conclude; the responder paid the right deposit and left conclude |
| IndexScript.IndexRunCalls | index.ts:210-227 | for any four states: completion iff both slot-0 amounts exist, holdings are nonzero and both unlocks are valid. The calls are then one ETH deposit per leg and the right then left conclusion |
| IndexScript.IndexChainCalls | index.ts:112-234 | for the script's states, a complete run deposits 80 ether in ETH on each chain and concludes both legs at turn 4 |
| TwoChainSetup.Actor.constructor | common/two-chain-setup.ts:74-105 | a new actor has the given signing address and `gasSpent` 0 |
| TwoChainSetup.Actor.SpendGas | nitro-atomic-swap/helpers.ts:193 | `gasSpent` grows by exactly the gas used |
| TwoChainSetup.TotalGasSpentConcat | common/two-chain-setup.ts:129-135 | the total over two groups of actors is the sum of their totals |
| TwoChainSetup.LogTotalGasSpentByAll | common/two-chain-setup.ts:129-135 | the loop's total is the sum of every listed actor's `gasSpent` |
| TwoChainSetup.GroupByOpDescribes | common/two-chain-setup.ts:171-179 | grouping gives one row per distinct op, each with the step count and gas sum of that op; counts add up to the number of steps and gas to the trace's total |
| TwoChainSetup.SortByGasDescendingFacts | common/two-chain-setup.ts:181 | sorting is a permutation whose gas is non-increasing; it keeps the totals |
| TwoChainSetup.SortByGasDescendingKeepsDistinct | common/two-chain-setup.ts:181 | sorting rows with distinct ops leaves the ops distinct |
| TwoChainSetup.AggregatedCostPerOpcodeCorrect | common/two-chain-setup.ts:165-182 | exactly one row per distinct op in the trace, each with that op's count (at least 1) and gas sum. Rows are in non-increasing gas order. Counts sum to the number of steps and gas to the trace's total |
| TwoChainSetup.Filter | common/two-chain-setup.ts:159-160 | a row is kept exactly when it is in the input and satisfies the predicate |
| TwoChainSetup.FilterKeepsSorted | common/two-chain-setup.ts:159-160 | filtering a gas-sorted list leaves it sorted |
| TwoChainSetup.ParseTransaction | common/two-chain-setup.ts:153-163 | corrected (see Findings): the report hands back the receipt's gas used. Big spenders are exactly the aggregated rows with gas at least 200, and refunds exactly those with negative gas. No row is in both groups, and both stay sorted |
| VectorHelpers.GetMinimalProxyInitCode | vector-atomic-swap/helpers.ts:376-379 | the result is the fixed EIP-1167 prefix, then the lowercased address without one leading `0x` (or `0X`), then the fixed suffix. Identical copy: vector-atomic-swap/happy-case.ts:392-395 |
| VectorHelpers.InitCodeOfAddress | vector-atomic-swap/helpers.ts:376-379 | for a 42-character `0x` hex address the result is 112 characters: `0x` then 110 lowercase hex digits of the 55-byte creation code, with the address's 40 digits at characters 42 to 81 |
| VectorHelpers.InitCodeIgnoresCase | vector-atomic-swap/helpers.ts:377-379 | two `0x` addresses give the same creation code exactly when they are equal up to letter case |
| VectorHelpers.FundChannelAsWrittenLosesEthBranch | vector-atomic-swap/helpers.ts:108-139 | as written, funding without a token throws a `TypeError` with nothing sent, where the ETH branch would have funded the channel; with a token the as-written and corrected runs are equal |
| VectorHelpers.FundChannel | vector-atomic-swap/helpers.ts:83-144 | the method performs the corrected funding run; the proposer's gas grows by the transaction's gas |
| VectorHelpers.FundChannelRunFacts | vector-atomic-swap/helpers.ts:108-139 | funding returns the core (alice = joiner, bob = proposer, address derived from proposer then joiner). It makes one transfer, or one ETH send without a token, of the core's balance `SWAP_AMOUNT`, which the core records as going to the given `recipient` (the joiner in helpers.ts). The copy at vector-atomic-swap/happy-case.ts:156-169 differs only in passing the responder as `recipient` |
| VectorHelpers.CreateAndFundChannel | vector-atomic-swap/helpers.ts:153-257 | the method performs the create-and-fund run; the proposer pays allowance plus deposit gas when there is a token, nothing otherwise |
| VectorHelpers.CreateAndFundChannelRunFacts | vector-atomic-swap/helpers.ts:192-252 | throws with nothing sent exactly without a token. Otherwise alice = proposer and bob = joiner, the allowance and then the create-and-deposit move `SWAP_AMOUNT`, and the core equals the funding core with alice and bob exchanged. The copy at vector-atomic-swap/happy-case.ts:226-239 differs only in passing the responder as `recipient` |
| VectorHelpers.DefundChannel | vector-atomic-swap/helpers.ts:266-308 | the method performs one withdraw, and `gasPayer` pays its gas |
| VectorHelpers.CreateAndDefundChannel | vector-atomic-swap/helpers.ts:317-373 | deploy then withdraw; the joiner pays both |
| VectorHelpers.DefundChannelRunFacts | vector-atomic-swap/helpers.ts:281-296 | one withdraw from the channel of `SWAP_AMOUNT` to the joiner at nonce "1", proposer as alice and joiner as bob, both signing the same commitment; deploying first only prepends the create call |
| VectorHelpers.DisputeChannelFacts | vector-atomic-swap/helpers.ts:418-440 | the dispute channel balances are zero and its Merkle root holds exactly its one transfer. That transfer, in the same channel and asset, moves `['1','0']` to `[alice, bob]` |
| VectorHappyCase.HappyCase | vector-atomic-swap/happy-case.ts:38-125 | the script's run is that of its records. The executor pays the left transfer; the responder pays the right allowance and deposit, the left create and withdraw, and the right withdraw |
| VectorHappyCase.HappyCaseRecordsFacts | vector-atomic-swap/happy-case.ts:61-91 | left core: executor as proposer, responder as alice. Right core: responder as proposer and alice. Both record `SWAP_AMOUNT` to the responder with timeout 172800 and nonce 1. The conditional transfer shares the left channel and timeout and moves 1 to the executor |
| VectorHappyCase.HappyCaseSwapsFunds | vector-atomic-swap/happy-case.ts:103-119 | the run's transactions in order: left transfer; right allowance and create-and-deposit; left deploy and withdraw; right withdraw. The left channel pays `SWAP_AMOUNT` to the responder and the right one to the executor |

## Left out

- Chain spin-up and teardown are not modelled: ganache servers, ports, providers, wallets, `deployContractsToChain` and the whole of vector-happy-case.ts. They are environment setup.
- Chain calls are recorded as actions with their arguments, not executed. These are `increaseAllowance`, `deposit`, `transfer`, `concludePushOutcomeAndTransferAll`, `createAndPayout`, `createChannel`, `createChannelAndDepositAlice` and `withdraw`. Their gas and the values events report are parameters.
- The hash-lock app's `validTransition` is not part of this repository. It is a function parameter. Note that the unlock app data carries `h` = HashZero.
- Cryptography is symbolic:
  - signatures, channel ids, app-part hashes, the lock hash;
  - the CREATE2 channel address of EIP-1014;
  - the withdraw commitment's hash;
  - Merkle roots.
  
  The `sha256`/`keccak256` commitment of the preimage is a parameter.
- Event listeners and `Promise.all` are taken sequentially. The two defunds run right leg first, then left. A listener that never sees a nonzero value leaves the run waiting; timing is not modelled.
- `advanceBlocktime`, `logBalances`, `chalk` colouring and the printing in `parseTransaction` are not modelled, being RPC time travel and presentation.
- The dispute scripts are not part of this model: nitro-atomic-swap/dispute.ts and vector-atomic-swap/dispute.ts. `disputeChannel`, `disputeTransfer`, `defundTransfer` and `getMerkleProof` in vector-atomic-swap/helpers.ts are chain calls only.
- Call-site type mismatches are not reproduced; participants are addresses. nitro-atomic-swap/happy-case.ts passes wallets where actors are read, and vector-atomic-swap/happy-case.ts destructures wallets the setup does not return.
- BigNumber hex strings are naturals. The Vector channel master copy address is an arbitrary string. The Vector timeout, expiry and nonce strings are kept as strings.
- `toLowerCase` is modelled on ASCII letters only.
- `createTestFullHashlockTransferState` fills default transfer fields. Only the fields the script sets are modelled, and the transfer timeout is the script's.
- Rows of the opcode aggregate are grouped in first-occurrence order, which is lodash's key order for opcode names; an object key that looks like an integer would be ordered first by JavaScript, and no opcode name does.
- The index.ts contracts have no token. `IndexScript.AsChainContracts` fills the token slot with the zero address; building the states never reads it.
- The turn progression 0 → 1 → 2 → 3 → 4 → final is stated by lemmas over the signed states, not tracked by a separate class.
- NitroSwapHappyCase.HappyCase: the gas totals are stated for a completed run only; for a halted run the run itself says which transactions were sent.
- IndexScript.RunScript: the gas totals are stated for a completed run only, as for the token script.
- HashLockCodec.DecodeEncode: requires the preimage to be at most 2^53 - 1 bytes long, the largest length ethers reads back.
- HashLockCodec.EncodeInjective: requires the same bound on both preimages, as it is proved through the round trip.
- Every transaction is taken to be mined without reverting. A revert would make `.wait()` reject and end the run with a throw; that path is not modelled, so "throws exactly when" in the run lemmas covers only the throws the scripts raise themselves.
- NinjaHelpers.FundChannelRun: without a token, the model sends `SWAP_AMOUNT` wei, signs PostFund2 and only then throws. This assumes the rejection of the joiner's promise (`token.once` throws inside its executor) stays unobserved until it is awaited, as on Node 14 and earlier; Node 15 and later end the process on an unhandled rejection, possibly before the send.
- TwoChainSetup.SortByGasDescending: the sort keeps rows of equal gas in their first-occurrence order, as lodash `sortBy` does, but no lemma states that tie order; only the permutation and the gas order are proved.

## Findings

| source | as written | input that shows it | evidently intended | confidence | as-written member | corrected member |
|---|---|---|---|---|---|---|
| ninja-atomic-swap/helpers.ts:194-196 | `gasSpent += Number(await parseTransaction(...))`, but `parseTransaction` (common/two-chain-setup.ts:153-163) returns nothing, so the counter becomes NaN | any funding or payout, e.g. a receipt of 21000 gas on a counter at 0 | the counter grows by the receipt's gas used | high, not executed | NinjaHelpers.GasCounterAsWritten | NinjaHelpers.GasCounterCorrected |
| vector-atomic-swap/helpers.ts:108-139 | the core state reads `token.address` before `if (token)`, so calling without a token throws a `TypeError` and the ETH branch is unreachable | `fundChannel(..., token = undefined, ...)` | without a token, the channel's asset is ETH (zero address) and the balance is sent as value | medium, not executed | VectorHelpers.FundChannelAsWrittenLosesEthBranch | VectorHelpers.FundChannelRunFacts |
