/** The application data of the HashLockedSwap contract, ABI-encoded as the
    single argument `tuple(bytes32 h, bytes preImage)`.

    Layout (Solidity contract ABI specification, "Formal Specification of
    the Encoding"): the argument is a dynamic tuple, so the head is one word
    holding the offset of the tuple (32); the tuple's own head holds `h` and
    the offset of `preImage` relative to the tuple (64); the tail holds the
    length word of `preImage` and its bytes right-padded with zeros to a
    multiple of 32.

    Decoding follows ethers' default ABI coder: offsets and the length are
    converted with `toNumber` (which throws above 2^53 - 1), every read needs
    the padded length to be present, a slice past the end is empty, padding
    bytes are not inspected and trailing bytes are ignored. */
module HashLockCodec {
  import opened Results
  import opened Bytes

  datatype HashLockedSwapData = HashLockedSwapData(h: Bytes32, preImage: seq<Byte>)

  /** The two ways ethers' decoder throws. */
  datatype DecodeError = DataOutOfBounds | NumberOverflow

  /** Offset of the tuple in the argument head. */
  const TUPLE_OFFSET: nat := 32
  /** Offset of `preImage` from the start of the tuple: after `h` and itself. */
  const PREIMAGE_OFFSET: nat := 64

  /** `encodeHashLockedSwapData`. A `bytes` length must fit in a `uint256`. */
  function Encode(d: HashLockedSwapData): (r: seq<Byte>)
    requires |d.preImage| < WORD_BOUND
    ensures |r| == 128 + PaddedLength(|d.preImage|) && |r| % 32 == 0
  {
    Word(TUPLE_OFFSET) + d.h + Word(PREIMAGE_OFFSET) + Word(|d.preImage|) + RightPad(d.preImage)
  }

  /** `data.slice(offset)` in JavaScript: empty past the end. */
  function Tail(data: seq<Byte>, offset: nat): (t: seq<Byte>)
    ensures |t| == if offset <= |data| then |data| - offset else 0
  {
    if offset <= |data| then data[offset..] else []
  }

  /** `reader.readValue().toNumber()` at position `at`. */
  function ReadNumber(data: seq<Byte>, at: nat): (r: Result<nat, DecodeError>)
    ensures r.Success? ==> at + 32 <= |data| && r.value <= MAX_SAFE_INTEGER
    ensures r.Success? ==> r.value == FromBigEndian(data[at..at + 32])
  {
    if |data| < at + 32 then Failure(DataOutOfBounds)
    else
      var v := FromBigEndian(data[at..at + 32]);
      if v > MAX_SAFE_INTEGER then Failure(NumberOverflow) else Success(v)
  }

  /** `reader.readBytes(length)` at position `at`: the padded length must be
      present. */
  function ReadBytes(data: seq<Byte>, at: nat, length: nat): (r: Result<seq<Byte>, DecodeError>)
    ensures r.Success? <==> at + PaddedLength(length) <= |data|
    ensures r.Success? ==> r.value == data[at..at + length]
  {
    if |data| < at + PaddedLength(length) then Failure(DataOutOfBounds)
    else Success(data[at..at + length])
  }

  /** `decodeHashLockedSwapData`. */
  function Decode(data: seq<Byte>): (r: Result<HashLockedSwapData, DecodeError>)
    ensures |data| < 64 ==> r.Failure?
    ensures r.Success? ==> |r.value.preImage| <= MAX_SAFE_INTEGER
  {
    var tupleOffset :- ReadNumber(data, 0);
    var tuple := Tail(data, tupleOffset);
    var h :- ReadBytes(tuple, 0, 32);
    var preImageOffset :- ReadNumber(tuple, 32);
    var area := Tail(tuple, preImageOffset);
    var length :- ReadNumber(area, 0);
    var preImage :- ReadBytes(area, 32, length);
    Success(HashLockedSwapData(h, preImage))
  }

  /** The round-trip law the orchestration relies on: decoding an encoding
      returns the same `h` and `preImage`, for every 32-byte `h` and every
      byte string a JavaScript number can measure. */
  lemma DecodeEncode(d: HashLockedSwapData)
    requires |d.preImage| <= MAX_SAFE_INTEGER
    ensures MAX_SAFE_INTEGER < WORD_BOUND
    ensures Decode(Encode(d)) == Success(d)
  {
    SafeIntegerFitsWord();
    var len := |d.preImage|;
    var data := Encode(d);
    EncodeLayout(d);
    var tuple := Tail(data, 32);
    var area := Tail(tuple, 64);
    ReadWord(data, 0, TUPLE_OFFSET);
    ReadWord(tuple, 32, PREIMAGE_OFFSET);
    ReadWord(area, 0, len);
  }

  /** Where the parts of an encoding sit: the tuple offset word first, then
      from there `h` and the `preImage` offset word, then from there the
      length word and the padded bytes. */
  lemma EncodeLayout(d: HashLockedSwapData)
    requires |d.preImage| <= MAX_SAFE_INTEGER
    ensures MAX_SAFE_INTEGER < WORD_BOUND
    ensures var data := Encode(d);
      var tuple := Tail(data, 32);
      var area := Tail(tuple, 64);
      && |data| >= 32 && data[0..32] == Word(TUPLE_OFFSET)
      && ReadBytes(tuple, 0, 32) == Success(d.h)
      && |tuple| >= 64 && tuple[32..64] == Word(PREIMAGE_OFFSET)
      && |area| >= 32 && area[0..32] == Word(|d.preImage|)
      && ReadBytes(area, 32, |d.preImage|) == Success(d.preImage)
  {
    SafeIntegerFitsWord();
    var pad := RightPad(d.preImage);
    var len := |d.preImage|;
    SplitWords(Word(TUPLE_OFFSET), d.h, Word(PREIMAGE_OFFSET), Word(len), pad);
    var tuple := Tail(Encode(d), 32);
    assert tuple == d.h + Word(PREIMAGE_OFFSET) + Word(len) + pad;
    var area := Tail(tuple, 64);
    assert area == Word(len) + pad;
    assert area[32..32 + len] == pad[..len];
  }

  /** Where the pieces of four words followed by a tail sit. */
  lemma SplitWords<T>(a: seq<T>, b: seq<T>, c: seq<T>, l: seq<T>, p: seq<T>)
    requires |a| == |b| == |c| == |l| == 32
    ensures var data := a + b + c + l + p;
      && data[0..32] == a
      && data[32..] == b + c + l + p
      && (b + c + l + p)[0..32] == b
      && (b + c + l + p)[32..64] == c
      && (b + c + l + p)[64..] == l + p
      && (l + p)[0..32] == l
      && (l + p)[32..] == p
  {
    var data := a + b + c + l + p;
    assert data == a + (b + c + l + p);
    assert b + c + l + p == b + (c + (l + p));
    assert c + (l + p) == c + l + p;
  }

  /** A word holding a safe integer reads back as that integer. */
  lemma ReadWord(data: seq<Byte>, at: nat, n: nat)
    requires n <= MAX_SAFE_INTEGER < WORD_BOUND
    requires at + 32 <= |data| && data[at..at + 32] == Word(n)
    ensures ReadNumber(data, at) == Success(n)
  {
    WordRoundTrip(n);
  }

  /** Encoding loses nothing: different data never share an encoding. */
  lemma EncodeInjective(a: HashLockedSwapData, b: HashLockedSwapData)
    requires |a.preImage| <= MAX_SAFE_INTEGER && |b.preImage| <= MAX_SAFE_INTEGER
    requires Encode(a) == Encode(b)
    ensures a == b
  {
    DecodeEncode(a);
    DecodeEncode(b);
  }
}
