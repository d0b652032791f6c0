/** Byte strings and 32-byte big-endian words: the units of the Solidity
    contract ABI encoding ("Formal Specification of the Encoding"). */
module Bytes {

  type Byte = b: int | 0 <= b < 256

  /** `bytes32`: exactly 32 bytes. */
  type Bytes32 = s: seq<Byte> | |s| == 32 witness Zeros(32)

  /** A 20-byte account or contract address. */
  type Address = s: seq<Byte> | |s| == 20 witness Zeros(20)

  /** `ethers.constants.AddressZero`. */
  const ADDRESS_ZERO: Address := Zeros(20)

  /** `convertAddressToBytes32`: the address left-padded with zeros to 32
      bytes, so distinct addresses give distinct destinations. */
  function AddressToBytes32(a: Address): (b: Bytes32)
    ensures b[..12] == Zeros(12) && b[12..] == a
  {
    Zeros(12) + a
  }

  /** `ethers.constants.HashZero`. */
  const HASH_ZERO: Bytes32 := Zeros(32)

  /** Largest integer a JavaScript number holds exactly (2^53 - 1); ethers'
      `BigNumber.toNumber` throws above it. */
  const MAX_SAFE_INTEGER: nat := 0x1F_FFFF_FFFF_FFFF

  function Zeros(n: nat): (z: seq<Byte>)
    ensures |z| == n
    ensures forall i :: 0 <= i < n ==> z[i] == 0
  {
    seq(n, i => 0)
  }

  function Pow256(k: nat): (p: nat)
    ensures p > 0
  {
    if k == 0 then 1 else 256 * Pow256(k - 1)
  }

  /** Exclusive upper bound of a `uint256` word. */
  const WORD_BOUND: nat := Pow256(32)

  /** The `k` low-order bytes of `n`, most significant first. */
  function ToBigEndian(n: nat, k: nat): (s: seq<Byte>)
    ensures |s| == k
  {
    if k == 0 then [] else ToBigEndian(n / 256, k - 1) + [n % 256]
  }

  /** The unsigned number whose big-endian bytes are `s`. */
  function FromBigEndian(s: seq<Byte>): (n: nat)
    ensures n < Pow256(|s|)
  {
    if s == [] then 0
    else
      var high := FromBigEndian(s[..|s| - 1]);
      assert high + 1 <= Pow256(|s| - 1);
      assert (high + 1) * 256 <= Pow256(|s| - 1) * 256;
      high * 256 + s[|s| - 1]
  }

  lemma DivBelow(n: nat, k: nat)
    requires k > 0 && n < Pow256(k)
    ensures n / 256 < Pow256(k - 1)
  {
  }

  /** Reading back the bytes of a number that fits returns the number. */
  lemma {:induction false} FromToBigEndian(n: nat, k: nat)
    requires n < Pow256(k)
    ensures FromBigEndian(ToBigEndian(n, k)) == n
  {
    if k > 0 {
      var s := ToBigEndian(n, k);
      DivBelow(n, k);
      FromToBigEndian(n / 256, k - 1);
      assert s[..|s| - 1] == ToBigEndian(n / 256, k - 1);
      assert s[|s| - 1] == n % 256;
    }
  }

  /** A `uint256` ABI word. */
  function Word(n: nat): (w: Bytes32)
    requires n < WORD_BOUND
  {
    ToBigEndian(n, 32)
  }

  lemma WordRoundTrip(n: nat)
    requires n < WORD_BOUND
    ensures FromBigEndian(Word(n)) == n
  {
    FromToBigEndian(n, 32);
  }

  /** `n` rounded up to a multiple of 32. */
  function PaddedLength(n: nat): (m: nat)
    ensures n <= m < n + 32 && m % 32 == 0
  {
    ((n + 31) / 32) * 32
  }

  /** `s` followed by zero bytes up to the next multiple of 32. */
  function RightPad(s: seq<Byte>): (r: seq<Byte>)
    ensures |r| == PaddedLength(|s|) && r[..|s|] == s
    ensures forall i :: |s| <= i < |r| ==> r[i] == 0
  {
    s + Zeros(PaddedLength(|s|) - |s|)
  }

  /** Every length a JavaScript number can hold fits in one ABI word. */
  lemma SafeIntegerFitsWord()
    ensures MAX_SAFE_INTEGER < WORD_BOUND
  {
    assert Pow256(7) == 0x100_0000_0000_0000;
    PowGrows(7, 32);
  }

  lemma {:induction false} PowGrows(j: nat, k: nat)
    requires j <= k
    ensures Pow256(j) <= Pow256(k)
  {
    if j < k {
      PowGrows(j, k - 1);
    }
  }
}
