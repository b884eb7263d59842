/**
 * The ledger WAL record codec of ledger/wal/encoding.go.
 *
 * A record is one operation byte, then the state commitment as "short data"
 * (a big-endian uint16 length followed by that many bytes). An update record
 * continues with a big-endian uint32 pair count, a big-endian uint16 key
 * length shared by every key, and per pair the key bytes, a big-endian uint32
 * value length and the value bytes.
 *
 * `Decode` is modelled as written. The readers it calls (flow-go's
 * utils.ReadShortData and friends, ledger.ToRootHash and
 * encoding.DecodeTrieUpdate) are not part of this model; they are given here
 * as functions that follow the record layout above. The encoders are the
 * layout written forwards and serve as the partner of the decoder.
 */
module WalEncoding {
  import opened Wrappers
  import opened FlowTypes

  /** wal.Operation, a uint8. */
  type Operation = byte

  const OperationUpdate: Operation := 1
  const OperationDelete: Operation := 2

  /** Length of a state commitment in bytes (flow-go's hash.HashLen). */
  const HashLen: nat := 32

  /** ledger.RootHash; its Go zero value is HashLen zero bytes. */
  type RootHash = s: seq<byte> | |s| == HashLen witness Zeros(HashLen)

  const ZeroHash: RootHash := Zeros(HashLen)

  const Uint16Bound: nat := 0x1_0000
  const Uint32Bound: nat := 0x1_0000_0000

  /** ledger.TrieUpdate in the shape of the record layout: the commitment, then key/value pairs. */
  datatype TrieUpdate = TrieUpdate(rootHash: RootHash, keys: seq<seq<byte>>, values: seq<seq<byte>>)

  datatype Error =
    | TooShort(data: seq<byte>)               // "data corrupted, too short to represent operation"
    | UnknownOperation(operation: Operation)  // "unknown operation type"
    | InputTooSmall(size: nat, need: nat)     // a reader ran past the end of its input
    | WrongHashLength(size: nat)              // a commitment of the wrong size
    | CannotReadCommitment(cause: Error)      // "cannot read state commitment: %w"
    | InvalidRootHash(cause: Error)           // "invalid root hash: %w"

  /** The four named results of Decode: operation, rootHash, update (nil is None) and err. */
  datatype Decoded = Decoded(operation: Operation, rootHash: RootHash, update: Option<TrieUpdate>, err: Option<Error>)

  /** A value read from the front of an input, with the bytes that follow it. */
  datatype Parsed<+T> = Parsed(value: T, rest: seq<byte>)

  datatype Pairs = Pairs(keys: seq<seq<byte>>, values: seq<seq<byte>>)

  // ----- Big-endian integers -----

  function Uint16(hi: byte, lo: byte): nat {
    hi * 256 + lo
  }

  function Be16(n: nat): (r: seq<byte>)
    requires n < Uint16Bound
    ensures |r| == 2 && Uint16(r[0], r[1]) == n
  {
    [n / 256, n % 256]
  }

  function Be32(n: nat): (r: seq<byte>)
    requires n < Uint32Bound
    ensures |r| == 4 && Uint16(r[0], r[1]) * Uint16Bound + Uint16(r[2], r[3]) == n
  {
    Be16(n / Uint16Bound) + Be16(n % Uint16Bound)
  }

  // ----- Readers (flow-go's ledger/common/utils), following the layout -----

  function ReadUint16(input: seq<byte>): (r: Result<Parsed<nat>, Error>)
    ensures r.Ok? <==> |input| >= 2
    ensures r.Err? ==> r.error == InputTooSmall(|input|, 2)
    ensures r.Ok? ==> r.value.value < Uint16Bound && input == Be16(r.value.value) + r.value.rest
  {
    if |input| < 2 then Err(InputTooSmall(|input|, 2))
    else Ok(Parsed(Uint16(input[0], input[1]), input[2..]))
  }

  function ReadUint32(input: seq<byte>): (r: Result<Parsed<nat>, Error>)
    ensures r.Ok? <==> |input| >= 4
    ensures r.Err? ==> r.error == InputTooSmall(|input|, 4)
    ensures r.Ok? ==> r.value.value < Uint32Bound && input == Be32(r.value.value) + r.value.rest
  {
    if |input| < 4 then Err(InputTooSmall(|input|, 4))
    else
      var hi, lo := Uint16(input[0], input[1]), Uint16(input[2], input[3]);
      Be16Inverse(input[0], input[1]);
      Be16Inverse(input[2], input[3]);
      Uint32Split(hi, lo);
      assert Be32(hi * Uint16Bound + lo) == input[..4];
      Ok(Parsed(hi * Uint16Bound + lo, input[4..]))
  }

  lemma Be16Inverse(hi: byte, lo: byte)
    ensures Uint16(hi, lo) < Uint16Bound && Be16(Uint16(hi, lo)) == [hi, lo]
  {
  }

  lemma Uint32Split(hi: nat, lo: nat)
    requires hi < Uint16Bound && lo < Uint16Bound
    ensures hi * Uint16Bound + lo < Uint32Bound
    ensures (hi * Uint16Bound + lo) / Uint16Bound == hi && (hi * Uint16Bound + lo) % Uint16Bound == lo
  {
  }

  function ReadSlice(input: seq<byte>, size: nat): (r: Result<Parsed<seq<byte>>, Error>)
    ensures r.Ok? <==> size <= |input|
    ensures r.Err? ==> r.error == InputTooSmall(|input|, size)
    ensures r.Ok? ==> |r.value.value| == size && input == r.value.value + r.value.rest
  {
    if |input| < size then Err(InputTooSmall(|input|, size))
    else Ok(Parsed(input[..size], input[size..]))
  }

  /** Length-prefixed data: a big-endian uint16 length, that many bytes, and the rest. */
  function ReadShortData(input: seq<byte>): (r: Result<Parsed<seq<byte>>, Error>)
    ensures r.Ok? <==> |input| >= 2 && |input| - 2 >= Uint16(input[0], input[1])
    ensures r.Ok? ==> |r.value.value| < Uint16Bound && input == EncodeShortData(r.value.value) + r.value.rest
  {
    var size :- ReadUint16(input);
    var data :- ReadSlice(size.rest, size.value);
    Ok(data)
  }

  /** ledger.ToRootHash: a commitment must be exactly HashLen bytes. */
  function ToRootHash(data: seq<byte>): (r: Result<RootHash, Error>)
    ensures r.Ok? <==> |data| == HashLen
    ensures r.Ok? ==> r.value == data
    ensures r.Err? ==> r.error == WrongHashLength(|data|)
  {
    if |data| != HashLen then Err(WrongHashLength(|data|)) else Ok(data)
  }

  /** The `count` key/value pairs of an update record, every key `keyLength` bytes long. */
  function ReadPairs(input: seq<byte>, count: nat, keyLength: nat): (r: Result<Parsed<Pairs>, Error>)
    ensures r.Err? ==> r.error.InputTooSmall?
    ensures r.Ok? ==> |r.value.value.keys| == |r.value.value.values| == count
    ensures r.Ok? ==> KeysFit(r.value.value.keys, keyLength) && ValuesFit(r.value.value.values)
    ensures r.Ok? ==> input == EncodePairs(r.value.value.keys, r.value.value.values) + r.value.rest
    decreases count
  {
    if count == 0 then Ok(Parsed(Pairs([], []), input))
    else
      var key :- ReadSlice(input, keyLength);
      var size :- ReadUint32(key.rest);
      var value :- ReadSlice(size.rest, size.value);
      var more :- ReadPairs(value.rest, count - 1, keyLength);
      PairsCons(key.value, value.value, more.value.keys, more.value.values, keyLength);
      Associative(key.value, Be32(size.value), value.value, EncodePairs(more.value.keys, more.value.values), more.rest);
      Ok(Parsed(Pairs([key.value] + more.value.keys, [value.value] + more.value.values), more.rest))
  }

  /** encoding.DecodeTrieUpdate, given the bytes after the operation byte. */
  function DecodeTrieUpdate(input: seq<byte>): (r: Result<TrieUpdate, Error>)
    ensures r.Ok? ==> WellFormed(r.value)
  {
    var commitment :- ReadShortData(input);
    var rootHash :- ToRootHash(commitment.value);
    var count :- ReadUint32(commitment.rest);
    var keyLength :- ReadUint16(count.rest);
    var pairs :- ReadPairs(keyLength.rest, count.value, keyLength.value);
    Ok(TrieUpdate(rootHash, pairs.value.keys, pairs.value.values))
  }

  // ----- The decoder of ledger/wal/encoding.go -----

  function Decode(data: seq<byte>): (r: Decoded)
    ensures r.err.None? ==> r.operation == OperationUpdate || r.operation == OperationDelete
    ensures r.update.Some? <==> r.operation == OperationUpdate && r.err.None?
    ensures r.rootHash != ZeroHash ==> r.operation == OperationDelete && r.err.None?
  {
    if |data| < 4 then
      Decoded(0, ZeroHash, None, Some(TooShort(data)))
    else
      var operation := data[0];
      if operation == OperationUpdate then
        match DecodeTrieUpdate(data[1..])
        case Ok(update) => Decoded(operation, ZeroHash, Some(update), None)
        case Err(e) => Decoded(operation, ZeroHash, None, Some(e))
      else if operation == OperationDelete then
        match ReadShortData(data[1..])
        case Err(e) => Decoded(operation, ZeroHash, None, Some(CannotReadCommitment(e)))
        case Ok(commitment) =>
          match ToRootHash(commitment.value)
          case Err(e) => Decoded(operation, ZeroHash, None, Some(InvalidRootHash(e)))
          case Ok(rootHash) => Decoded(operation, rootHash, None, None)
      else
        Decoded(operation, ZeroHash, None, Some(UnknownOperation(operation)))
  }

  // ----- Encoders: the record layout written forwards -----

  function EncodeShortData(data: seq<byte>): seq<byte>
    requires |data| < Uint16Bound
  {
    Be16(|data|) + data
  }

  /** The key length field of an update: that of its keys, and 0 when it has none. */
  function KeyLength(u: TrieUpdate): nat {
    if |u.keys| == 0 then 0 else |u.keys[0]|
  }

  /** What the layout can represent: one value per key, all keys of one length, every size in range. */
  predicate WellFormed(u: TrieUpdate) {
    && |u.keys| == |u.values| < Uint32Bound
    && KeyLength(u) < Uint16Bound
    && KeysFit(u.keys, KeyLength(u))
    && ValuesFit(u.values)
  }

  predicate KeysFit(keys: seq<seq<byte>>, keyLength: nat) {
    forall i :: 0 <= i < |keys| ==> |keys[i]| == keyLength
  }

  predicate ValuesFit(values: seq<seq<byte>>) {
    forall i :: 0 <= i < |values| ==> |values[i]| < Uint32Bound
  }

  function EncodePairs(keys: seq<seq<byte>>, values: seq<seq<byte>>): seq<byte>
    requires |keys| == |values| && ValuesFit(values)
  {
    if keys == [] then []
    else keys[0] + Be32(|values[0]|) + values[0] + EncodePairs(keys[1..], values[1..])
  }

  lemma Associative(a: seq<byte>, b: seq<byte>, c: seq<byte>, d: seq<byte>, e: seq<byte>)
    ensures (((a + b) + c) + d) + e == a + (b + (c + (d + e)))
  {
  }

  /** Encoding one more pair in front puts its bytes in front. */
  lemma PairsCons(key: seq<byte>, value: seq<byte>, keys: seq<seq<byte>>, values: seq<seq<byte>>, keyLength: nat)
    requires |keys| == |values| && ValuesFit(values) && |value| < Uint32Bound
    ensures ValuesFit([value] + values)
    ensures KeysFit(keys, keyLength) && |key| == keyLength ==> KeysFit([key] + keys, keyLength)
    ensures EncodePairs([key] + keys, [value] + values) == key + Be32(|value|) + value + EncodePairs(keys, values)
  {
    assert ([key] + keys)[1..] == keys && ([value] + values)[1..] == values;
  }

  function EncodeTrieUpdate(u: TrieUpdate): seq<byte>
    requires WellFormed(u)
  {
    EncodeShortData(u.rootHash) + Be32(|u.keys|) + Be16(KeyLength(u)) + EncodePairs(u.keys, u.values)
  }

  function EncodeUpdate(u: TrieUpdate): seq<byte>
    requires WellFormed(u)
  {
    [OperationUpdate] + EncodeTrieUpdate(u)
  }

  function EncodeDelete(rootHash: RootHash): seq<byte> {
    [OperationDelete] + EncodeShortData(rootHash)
  }

  // ----- Properties of Decode -----

  /** Fewer than four bytes: an error, the zero operation, the zero commitment and no update. */
  lemma DecodeTooShort(data: seq<byte>)
    requires |data| < 4
    ensures Decode(data) == Decoded(0, ZeroHash, None, Some(TooShort(data)))
  {
  }

  /** An operation byte other than 1 and 2 is reported, and kept as the operation. */
  lemma DecodeUnknownOperation(data: seq<byte>)
    requires |data| >= 4 && data[0] != OperationUpdate && data[0] != OperationDelete
    ensures Decode(data) == Decoded(data[0], ZeroHash, None, Some(UnknownOperation(data[0])))
  {
  }

  /** An update record is the trie-update decoding of everything after the operation byte. */
  lemma DecodeUpdateDelegates(data: seq<byte>)
    requires |data| >= 4 && data[0] == OperationUpdate
    ensures var d := Decode(data);
      && d.operation == OperationUpdate
      && d.rootHash == ZeroHash
      && (DecodeTrieUpdate(data[1..]).Ok? ==> d.update == Some(DecodeTrieUpdate(data[1..]).value) && d.err.None?)
      && (DecodeTrieUpdate(data[1..]).Err? ==> d.update.None? && d.err == Some(DecodeTrieUpdate(data[1..]).error))
  {
  }

  /** A delete record whose declared commitment length runs past the end is rejected. */
  lemma DecodeDeleteTruncated(data: seq<byte>)
    requires |data| >= 4 && data[0] == OperationDelete
    requires |data| < 3 + Uint16(data[1], data[2])
    ensures Decode(data) == Decoded(OperationDelete, ZeroHash, None,
      Some(CannotReadCommitment(InputTooSmall(|data| - 3, Uint16(data[1], data[2])))))
  {
  }

  /** A delete record whose commitment is not HashLen bytes long is rejected. */
  lemma DecodeDeleteWrongLength(data: seq<byte>)
    requires |data| >= 4 && data[0] == OperationDelete
    requires 3 + Uint16(data[1], data[2]) <= |data| && Uint16(data[1], data[2]) != HashLen
    ensures Decode(data) == Decoded(OperationDelete, ZeroHash, None,
      Some(InvalidRootHash(WrongHashLength(Uint16(data[1], data[2])))))
  {
  }

  /** A well-formed delete record yields bytes 3 .. 3 + HashLen as the commitment; later bytes are ignored. */
  lemma DecodeDeleteCommitment(data: seq<byte>)
    requires |data| >= 4 && data[0] == OperationDelete
    requires 3 + Uint16(data[1], data[2]) <= |data| && Uint16(data[1], data[2]) == HashLen && 3 + HashLen <= |data|
    ensures Decode(data) == Decoded(OperationDelete, data[3..3 + HashLen], None, None)
  {
    var input := data[1..];
    assert input[..2] == data[1..3] && input[2..] == data[3..];
    assert ReadUint16(input) == Ok(Parsed(HashLen, data[3..]));
    assert data[3..][..HashLen] == data[3..3 + HashLen];
    assert ReadShortData(input) == Ok(Parsed(data[3..3 + HashLen], data[3 + HashLen..]));
  }

  /** Round trip: an encoded delete record, followed by anything, decodes to its commitment. */
  lemma DecodeDeleteRoundTrip(rootHash: RootHash, rest: seq<byte>)
    ensures Decode(EncodeDelete(rootHash) + rest) == Decoded(OperationDelete, rootHash, None, None)
  {
    var data := EncodeDelete(rootHash) + rest;
    assert data[1..] == Be16(HashLen) + rootHash + rest;
    assert data[3..3 + HashLen] == rootHash;
    DecodeDeleteCommitment(data);
  }

  /** Converse: a delete record that decodes without error starts with the encoding of its commitment. */
  lemma DecodeDeleteComplete(data: seq<byte>)
    requires Decode(data).err.None? && Decode(data).operation == OperationDelete
    ensures |data| >= 3 + HashLen && data[..3 + HashLen] == EncodeDelete(Decode(data).rootHash)
  {
    var commitment := ReadShortData(data[1..]).value;
    assert data[1..] == EncodeShortData(commitment.value) + commitment.rest;
    assert data == [OperationDelete] + EncodeShortData(commitment.value) + commitment.rest;
  }

  /**
   * Converse of the trie-update round trip: bytes that decode are the encoding of the returned
   * update, with the key length they declared (every key's length when there are keys), followed
   * by bytes the decoder ignored.
   */
  lemma DecodeTrieUpdateComplete(input: seq<byte>) returns (keyLength: nat, rest: seq<byte>)
    requires DecodeTrieUpdate(input).Ok?
    ensures var u := DecodeTrieUpdate(input).value;
      && keyLength < Uint16Bound
      && (|u.keys| > 0 ==> keyLength == KeyLength(u))
      && input == EncodeShortData(u.rootHash) + (Be32(|u.keys|) + (Be16(keyLength) + (EncodePairs(u.keys, u.values) + rest)))
  {
    var commitment := ReadShortData(input).value;
    var count := ReadUint32(commitment.rest).value;
    var declared := ReadUint16(count.rest).value;
    var pairs := ReadPairs(declared.rest, count.value, declared.value).value;
    var u := DecodeTrieUpdate(input).value;
    assert u == TrieUpdate(commitment.value, pairs.value.keys, pairs.value.values);
    keyLength, rest := declared.value, pairs.rest;
    if |u.keys| > 0 {
      assert |u.keys[0]| == keyLength;
    }
  }

  /** Converse of the update round trip: an update record that decodes is the encoding of its update and ignored bytes. */
  lemma DecodeUpdateComplete(data: seq<byte>) returns (keyLength: nat, rest: seq<byte>)
    requires Decode(data).update.Some?
    ensures var u := Decode(data).update.value;
      && keyLength < Uint16Bound
      && (|u.keys| > 0 ==> keyLength == KeyLength(u))
      && data == [OperationUpdate] + (EncodeShortData(u.rootHash) + (Be32(|u.keys|) + (Be16(keyLength) + (EncodePairs(u.keys, u.values) + rest))))
  {
    var u := Decode(data).update.value;
    UpdateSource(data);
    keyLength, rest := DecodeTrieUpdateComplete(data[1..]);
    Prepend(data, EncodeShortData(u.rootHash) + (Be32(|u.keys|) + (Be16(keyLength) + (EncodePairs(u.keys, u.values) + rest))));
  }

  /** The update a record yields is the trie-update decoding of the bytes after its operation byte 1. */
  lemma UpdateSource(data: seq<byte>)
    requires Decode(data).update.Some?
    ensures |data| >= 1 && data[0] == OperationUpdate && DecodeTrieUpdate(data[1..]) == Ok(Decode(data).update.value)
  {
  }

  lemma Prepend(data: seq<byte>, tail: seq<byte>)
    requires |data| >= 1 && data[0] == OperationUpdate && data[1..] == tail
    ensures data == [OperationUpdate] + tail
  {
  }

  lemma DropOperation(operation: Operation, encoded: seq<byte>, rest: seq<byte>)
    ensures ([operation] + encoded + rest)[0] == operation
    ensures ([operation] + encoded + rest)[1..] == encoded + rest
  {
  }

  lemma ReadSliceConcat(a: seq<byte>, b: seq<byte>)
    ensures ReadSlice(a + b, |a|) == Ok(Parsed(a, b))
  {
    assert (a + b)[..|a|] == a && (a + b)[|a|..] == b;
  }

  lemma ReadUint16Concat(n: nat, b: seq<byte>)
    requires n < Uint16Bound
    ensures ReadUint16(Be16(n) + b) == Ok(Parsed(n, b))
  {
    var input := Be16(n) + b;
    assert input[..2] == Be16(n) && input[2..] == b;
  }

  lemma ReadUint32Concat(n: nat, b: seq<byte>)
    requires n < Uint32Bound
    ensures ReadUint32(Be32(n) + b) == Ok(Parsed(n, b))
  {
    var input := Be32(n) + b;
    var r := ReadUint32(input).value;
    assert input[..4] == Be32(n) && input[4..] == b;
    assert input[..4] == Be32(r.value) && input[4..] == r.rest;
  }

  /** One step of ReadPairs: a key, a value length, a value, then the remaining pairs. */
  lemma ReadPairsStep(input: seq<byte>, count: nat, keyLength: nat, key: seq<byte>, value: seq<byte>,
                      afterKey: seq<byte>, afterValue: seq<byte>, more: Parsed<Pairs>)
    requires count > 0
    requires ReadSlice(input, keyLength) == Ok(Parsed(key, afterKey))
    requires ReadUint32(afterKey) == Ok(Parsed(|value|, value + afterValue))
    requires ReadPairs(afterValue, count - 1, keyLength) == Ok(more)
    ensures ReadPairs(input, count, keyLength) == Ok(Parsed(Pairs([key] + more.value.keys, [value] + more.value.values), more.rest))
  {
    ReadSliceConcat(value, afterValue);
  }

  /** Reading back one more encoded pair in front of pairs that read back. */
  lemma ReadPairsCons(key: seq<byte>, value: seq<byte>, keys: seq<seq<byte>>, values: seq<seq<byte>>,
                      keyLength: nat, rest: seq<byte>)
    requires |keys| == |values| && ValuesFit(values) && |key| == keyLength && |value| < Uint32Bound
    requires ReadPairs(EncodePairs(keys, values) + rest, |keys|, keyLength) == Ok(Parsed(Pairs(keys, values), rest))
    ensures ReadPairs(key + Be32(|value|) + value + EncodePairs(keys, values) + rest, |keys| + 1, keyLength)
         == Ok(Parsed(Pairs([key] + keys, [value] + values), rest))
  {
    var tail := EncodePairs(keys, values);
    var afterKey := Be32(|value|) + (value + (tail + rest));
    Associative(key, Be32(|value|), value, tail, rest);
    ReadSliceConcat(key, afterKey);
    ReadUint32Concat(|value|, value + (tail + rest));
    ReadPairsStep(key + afterKey, |keys| + 1, keyLength, key, value, afterKey, tail + rest,
                  Parsed(Pairs(keys, values), rest));
  }

  /** Reading back encoded pairs gives the same keys and values and leaves what followed them. */
  lemma {:induction false} ReadPairsRoundTrip(keys: seq<seq<byte>>, values: seq<seq<byte>>, keyLength: nat, rest: seq<byte>)
    requires |keys| == |values| && KeysFit(keys, keyLength) && ValuesFit(values)
    ensures ReadPairs(EncodePairs(keys, values) + rest, |keys|, keyLength) == Ok(Parsed(Pairs(keys, values), rest))
    decreases |keys|
  {
    if keys != [] {
      var key, value, moreKeys, moreValues := keys[0], values[0], keys[1..], values[1..];
      assert keys == [key] + moreKeys && values == [value] + moreValues;
      PairsCons(key, value, moreKeys, moreValues, keyLength);
      ReadPairsRoundTrip(moreKeys, moreValues, keyLength, rest);
      ReadPairsCons(key, value, moreKeys, moreValues, keyLength, rest);
      assert EncodePairs(keys, values) + rest == key + Be32(|value|) + value + EncodePairs(moreKeys, moreValues) + rest;
    } else {
      assert values == [] && EncodePairs(keys, values) + rest == rest;
    }
  }

  lemma ReadShortDataConcat(data: seq<byte>, b: seq<byte>)
    requires |data| < Uint16Bound
    ensures ReadShortData(EncodeShortData(data) + b) == Ok(Parsed(data, b))
  {
    assert EncodeShortData(data) + b == Be16(|data|) + (data + b);
    ReadUint16Concat(|data|, data + b);
    ReadSliceConcat(data, b);
  }

  /** The trie-update decoder reads back an encoded well-formed update, ignoring what follows it. */
  lemma DecodeTrieUpdateRoundTrip(u: TrieUpdate, rest: seq<byte>)
    requires WellFormed(u)
    ensures DecodeTrieUpdate(EncodeTrieUpdate(u) + rest) == Ok(u)
  {
    var pairs := EncodePairs(u.keys, u.values);
    var afterHash := Be32(|u.keys|) + (Be16(KeyLength(u)) + (pairs + rest));
    Associative(EncodeShortData(u.rootHash), Be32(|u.keys|), Be16(KeyLength(u)), pairs, rest);
    ReadShortDataConcat(u.rootHash, afterHash);
    ReadUint32Concat(|u.keys|, Be16(KeyLength(u)) + (pairs + rest));
    ReadUint16Concat(KeyLength(u), pairs + rest);
    ReadPairsRoundTrip(u.keys, u.values, KeyLength(u), rest);
  }

  /** Round trip: an encoded well-formed update, followed by anything, decodes to that update. */
  lemma DecodeUpdateRoundTrip(u: TrieUpdate, rest: seq<byte>)
    requires WellFormed(u)
    ensures Decode(EncodeUpdate(u) + rest) == Decoded(OperationUpdate, ZeroHash, Some(u), None)
  {
    var encoded := EncodeTrieUpdate(u);
    DropOperation(OperationUpdate, encoded, rest);
    DecodeTrieUpdateRoundTrip(u, rest);
  }

  /** Pairs that need more bytes than the input holds are rejected with a truncation error. */
  lemma ReadPairsNeedsBytes(input: seq<byte>, count: nat, keyLength: nat)
    requires |input| < count * (keyLength + 4)
    ensures ReadPairs(input, count, keyLength).Err?
    ensures ReadPairs(input, count, keyLength).error.InputTooSmall?
  {
    var r := ReadPairs(input, count, keyLength);
    if r.Ok? {
      EncodedPairsLength(r.value.value.keys, r.value.value.values, keyLength);
    }
  }

  /** An update record whose header declares more pair bytes than follow it is rejected rather than over-read. */
  lemma DecodeUpdateTruncated(rootHash: RootHash, count: nat, keyLength: nat, pairs: seq<byte>)
    requires count < Uint32Bound && keyLength < Uint16Bound
    requires |pairs| < count * (keyLength + 4)
    ensures var d := Decode([OperationUpdate] + (EncodeShortData(rootHash) + (Be32(count) + (Be16(keyLength) + pairs))));
      d.operation == OperationUpdate && d.update.None? && d.err.Some? && d.err.value.InputTooSmall?
  {
    var afterHash := Be32(count) + (Be16(keyLength) + pairs);
    var body := EncodeShortData(rootHash) + afterHash;
    DropOperation(OperationUpdate, body, []);
    assert [OperationUpdate] + body + [] == [OperationUpdate] + body;
    ReadShortDataConcat(rootHash, afterHash);
    ReadUint32Concat(count, Be16(keyLength) + pairs);
    ReadUint16Concat(keyLength, pairs);
    ReadPairsNeedsBytes(pairs, count, keyLength);
  }

  /** Every encoded pair takes at least its key and the four bytes of its value length. */
  lemma {:induction false} EncodedPairsLength(keys: seq<seq<byte>>, values: seq<seq<byte>>, keyLength: nat)
    requires |keys| == |values| && KeysFit(keys, keyLength) && ValuesFit(values)
    ensures |EncodePairs(keys, values)| >= |keys| * (keyLength + 4)
    decreases |keys|
  {
    if keys != [] {
      EncodedPairsLength(keys[1..], values[1..], keyLength);
      assert |EncodePairs(keys, values)| == |keys[0]| + 4 + |values[0]| + |EncodePairs(keys[1..], values[1..])|;
      MultiplySucc(|keys| - 1, keyLength + 4);
    }
  }

  lemma MultiplySucc(n: nat, m: nat)
    ensures (n + 1) * m == n * m + m
  {
  }
}
