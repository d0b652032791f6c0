/** The shared constants of the swap scripts (amounts as numbers rather than
    their hex strings). */
module Constants {
  const ZERO: nat := 0
  const ONE: nat := 1
  /** Amount every leg locks in the hash-locked payment. */
  const SWAP_AMOUNT: nat := 2
  const LEFT_CHAIN_ID: nat := 66
  const RIGHT_CHAIN_ID: nat := 99
}
