// The key-value store the storage package writes through (ptndb.Database and
// the StoreBytes / GetBytes helpers), the values it holds and the codecs that
// turn those values into bytes. The key prefixes live in dag/constants, which
// is not part of this model, so they are a parameter of the store.

module Store {
  import opened Common
  import opened Modules

  /** TxLookupEntry: where a transaction sits, by unit hash, unit number and
      position in the unit. */
  datatype TxLookupEntry = TxLookupEntry(unitHash: Hash, unitIndex: nat, index: nat)

  /** A deployed contract: its id and code hash (both 32 bytes), its code and
      the fields nothing in this model inspects. */
  datatype Contract = Contract(id: Hash, codeHash: Hash, code: Bytes, rest: Bytes)

  /** The Go values the storage code encodes, tagged by their Go type. Decoding
      into one type and finding another is a decode error. */
  datatype Value =
    | VIndex(index: ChainIndex)
    | VString(str: string)
    | VBytes(bytes: Bytes)
    | VHashes(hashes: seq<Hash>)
    | VEntry(entry: TxLookupEntry)
    | VHeader(header: Header)
    | VOutput(output: Output)
    | VKeys(keys: seq<string>)
    | VContract(contract: Contract)
    | VUnit(unit: Unit)
    | VTx(tx: Transaction)
    | VOther(content: Bytes)

  /** The errors the storage code returns. Panicked stands for a Go runtime
      panic (a nil pointer dereference), which the code does not recover from. */
  datatype StoreError =
    | NotFound             // leveldb: not found
    | NullChainIndex       // "the saving chain_index is null."
    | EmptyTxHash          // "empty tx hash."
    | DecodeFailed         // an RLP or JSON decode error
    | MarshalFailed        // a json.Marshal error
    | BadHexHash           // common.Hash.SetHexString rejects the text
    | NoLegalData          // "not found legal data."
    | NullIndexData        // "chainIndex is null. hash(...)"
    | NoTxHash             // "hash is not exist."
    | NoIrreversibleHash   // "the irrekey ... is not found unit's hash."
    | BatchFailed          // "UpdateHeadByBatch, at least one sub function call failed."
    | WriteFailed          // an error from batch.Write
    | NullKeys             // "null keys."
    | KeyExists            // "key is already exist."
    | UnsignedJoint(msg: string) // errors.New(objJoint.Unsigned)
    | Panicked

  /** The key prefixes and fixed keys of dag/constants (and of the storage
      package's own prefix variables), as text. */
  datatype Prefixes = Prefixes(
    header: string,             // HEADER_PREFIX
    unitHashNumber: string,     // UNIT_HASH_NUMBER_Prefix
    unitNumber: string,         // UNIT_NUMBER_PREFIX
    body: string,               // BODY_PREFIX
    transaction: string,        // TRANSACTION_PREFIX
    addrTransactions: string,   // AddrTransactionsHash_Prefix
    addrOutput: string,         // AddrOutput_Prefix
    lookup: string,             // LookupPrefix
    headerCanon: string,        // HeaderCanon_Prefix
    numberSuffix: string,       // NumberSuffix
    headHeaderKey: string,      // HeadHeaderKey
    headUnitKey: string,        // HeadUnitKey
    headFastKey: string,        // HeadFastKey
    unit: string,               // UNIT_PREFIX
    contract: string,           // CONTRACT_PTEFIX
    contractTpl: string)        // CONTRACT_TPL

  /** Everything the store's code calls without its source being part of this
      model: the domain codec, RLP and JSON, and the hashes of code and contracts. */
  datatype StoreEnv = StoreEnv(
    p: Prefixes,
    c: Codec,
    rlpEncode: Value -> Bytes,                 // rlp.EncodeToBytes
    rlpDecode: Bytes -> Option<Value>,         // rlp.DecodeBytes
    jsonEncode: Value -> Bytes,                // json.Marshal, whose error is ignored where it is used
    jsonDecode: Bytes -> Option<Value>,        // json.Unmarshal
    rlpKeysFilled: Bytes -> seq<string>,       // what rlp.DecodeBytes leaves in a []string, error or not
    jsonKeysFilled: Bytes -> seq<string>,      // what json.Unmarshal leaves in a []string, error or not
    rlpEntryFilled: Bytes -> Option<TxLookupEntry>, // the *TxLookupEntry rlp.DecodeBytes leaves, None for nil
    marshalPayload: Payload -> Option<Bytes>,  // json.Marshal of a message payload
    unmarshalPayload: (MessageType, Bytes) -> Option<Payload>, // json.Unmarshal into the tag's payload type
    hexToHash: string -> Hash,                 // common.HexToHash, which never fails
    codeHash: Bytes -> Hash,                   // rlp.RlpHash of contract code
    contractHash: Contract -> Hash)            // rlp.RlpHash of a contract

  /** RLP decodes its own encodings, and an encoding is never empty. */
  ghost predicate RlpRoundTrips(e: StoreEnv)
  {
    forall v: Value :: e.rlpDecode(e.rlpEncode(v)) == Some(v) && |e.rlpEncode(v)| > 0
  }

  /** A decode that succeeds fills its target with the decoded value. (A decode
      that fails may still have filled part of it: json.Unmarshal completes what
      it can, and rlp.DecodeBytes reports trailing bytes after filling.) */
  ghost predicate FillsAgree(e: StoreEnv)
  {
    (forall b :: e.rlpDecode(b).Some? && e.rlpDecode(b).value.VKeys? ==>
                   e.rlpKeysFilled(b) == e.rlpDecode(b).value.keys)
    && (forall b :: e.jsonDecode(b).Some? && e.jsonDecode(b).value.VKeys? ==>
                      e.jsonKeysFilled(b) == e.jsonDecode(b).value.keys)
    && (forall b :: e.rlpDecode(b).Some? && e.rlpDecode(b).value.VEntry? ==>
                      e.rlpEntryFilled(b) == Some(e.rlpDecode(b).value.entry))
  }

  /** JSON decodes its own encodings. */
  ghost predicate JsonRoundTrips(e: StoreEnv)
  {
    forall v: Value :: e.jsonDecode(e.jsonEncode(v)) == Some(v)
  }

  /** The store's content under key, if any (ptndb Get: a missing key is the
      "not found" error). */
  function Lookup(kv: map<string, Bytes>, key: string): (r: Option<Bytes>)
    ensures r.Some? <==> key in kv
    ensures r.Some? ==> r.value == kv[key]
  {
    if key in kv then Some(kv[key]) else None
  }

  /** The stored bytes under key decoded by RLP: NotFound without an entry,
      DecodeFailed when the bytes do not decode. */
  function RlpValueAt(e: StoreEnv, kv: map<string, Bytes>, key: string): (r: Result<Value, StoreError>)
    ensures key !in kv ==> r == Err(NotFound)
    ensures key in kv && e.rlpDecode(kv[key]).Some? ==> r == Ok(e.rlpDecode(kv[key]).value)
    ensures key in kv && e.rlpDecode(kv[key]).None? ==> r == Err(DecodeFailed)
  {
    if key !in kv then Err(NotFound)
    else match e.rlpDecode(kv[key])
      case None => Err(DecodeFailed)
      case Some(v) => Ok(v)
  }

  /** What StoreBytes(key, v) leaves under key is read back as v. */
  lemma RlpReadBack(e: StoreEnv, kv: map<string, Bytes>, key: string, v: Value)
    requires RlpRoundTrips(e)
    ensures RlpValueAt(e, kv[key := e.rlpEncode(v)], key) == Ok(v)
  {
    assert e.rlpDecode(e.rlpEncode(v)) == Some(v);
  }

  /** The store after writing a batch of puts in order. */
  function Applied(kv: map<string, Bytes>, batch: seq<(string, Bytes)>): map<string, Bytes>
  {
    if |batch| == 0 then kv
    else Applied(kv, batch[..|batch| - 1])[batch[|batch| - 1].0 := batch[|batch| - 1].1]
  }

  /** A batch that puts one value everywhere leaves that value under each of
      its keys and every other key as it was. */
  lemma {:induction false} AppliedUniform(kv: map<string, Bytes>, batch: seq<(string, Bytes)>, v: Bytes)
    requires forall i :: 0 <= i < |batch| ==> batch[i].1 == v
    ensures forall i :: 0 <= i < |batch| ==> batch[i].0 in Applied(kv, batch) && Applied(kv, batch)[batch[i].0] == v
    ensures forall k :: (forall i :: 0 <= i < |batch| ==> batch[i].0 != k) ==>
              (k in Applied(kv, batch) <==> k in kv) && (k in kv ==> Applied(kv, batch)[k] == kv[k])
  {
    if |batch| > 0 {
      var p := batch[..|batch| - 1];
      assert forall i :: 0 <= i < |p| ==> p[i] == batch[i];
      AppliedUniform(kv, p, v);
    }
  }

  /** The underlying database with the codec the storage helpers use. */
  class Database {
    var kv: map<string, Bytes>
    const env: StoreEnv

    constructor (env: StoreEnv, initial: map<string, Bytes>)
      ensures this.env == env && kv == initial
    {
      this.env := env;
      kv := initial;
    }

    /** ptndb Put. */
    method Put(key: string, value: Bytes)
      modifies this
      ensures kv == old(kv)[key := value]
    {
      kv := kv[key := value];
    }

    /** Batch.Write: every put of the batch, in order, in one step. */
    method WriteBatch(batch: seq<(string, Bytes)>)
      modifies this
      ensures kv == Applied(old(kv), batch)
    {
      var i := 0;
      while i < |batch|
        invariant 0 <= i <= |batch|
        invariant kv == Applied(old(kv), batch[..i])
      {
        assert batch[..i + 1][..i] == batch[..i];
        kv := kv[batch[i].0 := batch[i].1];
        i := i + 1;
      }
      assert batch[..i] == batch;
    }

    /** StoreBytes / Store: the RLP encoding of the value, put under key. */
    method StoreBytes(key: string, v: Value)
      modifies this
      ensures kv == old(kv)[key := env.rlpEncode(v)]
    {
      kv := kv[key := env.rlpEncode(v)];
    }
  }
}
