// The unit database of the storage package (dag/storage/dagdb.go): the text
// keys that index units by hash and by chain index, the per-address lists of
// transactions, the transaction lookup entries, the head pointers written in
// one batch, the search for the last irreversible unit, and reading a unit
// back with its transactions.

module DagDb {
  import opened Common
  import opened Modules
  import opened Store
  import opened Saver
  import opened TransactionRlp

  // ---------------------------------------------------------------------------
  // Keys

  /** UNIT_HASH_NUMBER_Prefix ++ hash text: where a unit's chain index is kept. */
  function HashNumberKey(e: StoreEnv, uHash: Hash): string
  {
    e.p.unitHashNumber + e.c.hashString(uHash)
  }

  /** "<UNIT_NUMBER_PREFIX>_<asset>_<1 if main else 0>_<index>": where the hash of
      the unit at a chain index is kept. */
  function NumberKey(e: StoreEnv, number: ChainIndex): string
  {
    e.p.unitNumber + "_" + e.c.assetString(number.assetId) + "_"
      + (if number.isMain then "1" else "0") + "_" + FormatInt(number.index)
  }

  /** "<UNIT_NUMBER_PREFIX>_<asset>_1_": the prefix of every main-chain number key
      of one asset. */
  function IrreversiblePrefix(e: StoreEnv, assetId: Id16): (p: string)
    ensures |p| >= 3 && p[|p| - 1] == '_'
  {
    e.p.unitNumber + "_" + e.c.assetString(assetId) + "_1_"
  }

  /** "<HEADER_PREFIX><index>_<chain index text>_<hash text>". */
  function HeaderTextKey(e: StoreEnv, number: ChainIndex, uHash: Hash): string
  {
    e.p.header + FormatInt(number.index) + "_" + e.c.indexString(number) + "_" + e.c.hashString(uHash)
  }

  function BodyKey(e: StoreEnv, uHash: Hash): string
  {
    e.p.body + e.c.hashString(uHash)
  }

  function TransactionKey(e: StoreEnv, hash: Hash): string
  {
    e.p.transaction + e.c.hashString(hash)
  }

  function AddrTxKey(e: StoreEnv, addr: string): string
  {
    e.p.addrTransactions + addr
  }

  function LookupKey(e: StoreEnv, hash: Hash): string
  {
    e.p.lookup + e.c.hashString(hash)
  }

  /** big.Int.Bytes() of a non-negative number: big-endian without leading zero
      bytes, and empty for zero. */
  function MinimalBytes(n: nat): (r: Bytes)
    ensures BigEndian(r) == n
    ensures |r| > 0 ==> r[0] != 0
  {
    if n == 0 then []
    else
      var p := MinimalBytes(n / 256);
      var r := p + [(n % 256) as byte];
      assert r[..|r| - 1] == p;
      r
  }

  /** AddrOutput_Prefix ++ address ++ hash text ++ the message index's bytes. */
  function AddrOutputKey(e: StoreEnv, addr: string, hash: Hash, msgIndex: nat): string
  {
    e.p.addrOutput + addr + e.c.hashString(hash) + BytesToString(MinimalBytes(msgIndex))
  }

  /** The outputs of different messages of one transaction to one address are
      kept under different keys. */
  lemma AddrOutputKeysDiffer(e: StoreEnv, addr: string, hash: Hash, m1: nat, m2: nat)
    requires m1 != m2
    ensures AddrOutputKey(e, addr, hash, m1) != AddrOutputKey(e, addr, hash, m2)
  {
    var pre := e.p.addrOutput + addr + e.c.hashString(hash);
    if AddrOutputKey(e, addr, hash, m1) == AddrOutputKey(e, addr, hash, m2) {
      assert AddrOutputKey(e, addr, hash, m1)[|pre|..] == BytesToString(MinimalBytes(m1));
      assert AddrOutputKey(e, addr, hash, m2)[|pre|..] == BytesToString(MinimalBytes(m2));
      BytesToStringInjective(MinimalBytes(m1), MinimalBytes(m2));
    }
  }

  /** HeaderCanon_Prefix ++ the 8-byte number ++ NumberSuffix. */
  function CanonKey(e: StoreEnv, number: nat): string
    requires number < U64
  {
    e.p.headerCanon + BytesToString(EncodeBlockNumber(number)) + e.p.numberSuffix
  }

  // ---------------------------------------------------------------------------
  // Reading single entries

  /** The hash text parses back into the hash. */
  ghost predicate HashTextRoundTrips(c: Codec)
  {
    forall h: Hash :: c.parseHash(c.hashString(h)) == Some(h)
  }

  /** GetHashByNumber: the stored RLP text of the hash under NumberKey, parsed. */
  function GetHashByNumber(e: StoreEnv, kv: map<string, Bytes>, number: ChainIndex): (r: Result<Hash, StoreError>)
    ensures NumberKey(e, number) !in kv ==> r == Err(NotFound)
    ensures r.Ok? <==> NumberKey(e, number) in kv && e.rlpDecode(kv[NumberKey(e, number)]).Some?
                       && e.rlpDecode(kv[NumberKey(e, number)]).value.VString?
                       && e.c.parseHash(e.rlpDecode(kv[NumberKey(e, number)]).value.str).Some?
    ensures r.Ok? ==> e.c.parseHash(e.rlpDecode(kv[NumberKey(e, number)]).value.str) == Some(r.value)
  {
    match RlpValueAt(e, kv, NumberKey(e, number))
    case Err(x) => Err(x)
    case Ok(VString(s)) => (if e.c.parseHash(s).Some? then Ok(e.c.parseHash(s).value) else Err(BadHexHash))
    case Ok(_) => Err(DecodeFailed)
  }

  /** GetNumberWithUnitHash: NotFound without an entry, an error for empty data,
      otherwise the decoded chain index. */
  function GetNumberWithUnitHash(e: StoreEnv, kv: map<string, Bytes>, hash: Hash): (r: Result<ChainIndex, StoreError>)
    ensures HashNumberKey(e, hash) !in kv ==> r == Err(NotFound)
    ensures HashNumberKey(e, hash) in kv && |kv[HashNumberKey(e, hash)]| == 0 ==> r == Err(NullIndexData)
  {
    var key := HashNumberKey(e, hash);
    if key !in kv then Err(NotFound)
    else if |kv[key]| == 0 then Err(NullIndexData)
    else match e.rlpDecode(kv[key])
      case Some(VIndex(ci)) => Ok(ci)
      case _ => Err(DecodeFailed)
  }

  /** GetHeader: the decoded header under HeaderTextKey. */
  function GetHeader(e: StoreEnv, kv: map<string, Bytes>, hash: Hash, number: ChainIndex): (r: Result<Header, StoreError>)
    ensures HeaderTextKey(e, number, hash) !in kv ==> r == Err(NotFound)
    ensures r.Ok? <==> HeaderTextKey(e, number, hash) in kv && e.rlpDecode(kv[HeaderTextKey(e, number, hash)]).Some?
                       && e.rlpDecode(kv[HeaderTextKey(e, number, hash)]).value.VHeader?
    ensures r.Ok? ==> e.rlpDecode(kv[HeaderTextKey(e, number, hash)]) == Some(VHeader(r.value))
  {
    match RlpValueAt(e, kv, HeaderTextKey(e, number, hash))
    case Err(x) => Err(x)
    case Ok(VHeader(h)) => Ok(h)
    case Ok(_) => Err(DecodeFailed)
  }

  /** GetBody: the decoded list of transaction hashes under BodyKey. */
  function GetBody(e: StoreEnv, kv: map<string, Bytes>, hash: Hash): (r: Result<seq<Hash>, StoreError>)
    ensures BodyKey(e, hash) !in kv ==> r == Err(NotFound)
    ensures r.Ok? <==> BodyKey(e, hash) in kv && e.rlpDecode(kv[BodyKey(e, hash)]).Some?
                       && e.rlpDecode(kv[BodyKey(e, hash)]).value.VHashes?
    ensures r.Ok? ==> e.rlpDecode(kv[BodyKey(e, hash)]) == Some(VHashes(r.value))
  {
    match RlpValueAt(e, kv, BodyKey(e, hash))
    case Err(x) => Err(x)
    case Ok(VHashes(hs)) => Ok(hs)
    case Ok(_) => Err(DecodeFailed)
  }

  /** GetTxLookupEntry: empty or missing data is an error (checked before the
      read error); the data is RLP bytes holding the RLP of the entry. The inner
      decode's error is only logged: the entry it leaves is returned with no
      error, and when it leaves the pointer nil the dereference panics. */
  function GetTxLookupEntry(e: StoreEnv, kv: map<string, Bytes>, hash: Hash): (r: Result<TxLookupEntry, StoreError>)
    ensures (LookupKey(e, hash) !in kv || |kv[LookupKey(e, hash)]| == 0) ==> r == Err(NoLegalData)
    ensures r.Ok? ==> exists eb :: e.rlpDecode(kv[LookupKey(e, hash)]) == Some(VBytes(eb)) && e.rlpEntryFilled(eb) == Some(r.value)
  {
    var key := LookupKey(e, hash);
    var data := if key in kv then kv[key] else [];
    if |data| == 0 then Err(NoLegalData)
    else match e.rlpDecode(data)
      case Some(VBytes(eb)) =>
        (match e.rlpEntryFilled(eb)
         case Some(entry) => Ok(entry)
         case None => Err(Panicked))
      case _ => Err(DecodeFailed)
  }

  /** The address's transaction list as updateAddrTransactions reads it: empty
      when nothing is stored yet. */
  function AddrTxList(e: StoreEnv, kv: map<string, Bytes>, addr: string): Result<seq<Hash>, StoreError>
  {
    var key := AddrTxKey(e, addr);
    if key !in kv then Ok([])
    else match e.rlpDecode(kv[key])
      case Some(VHashes(hs)) => Ok(hs)
      case _ => Err(DecodeFailed)
  }

  // ---------------------------------------------------------------------------
  // Read-back properties of the writers below

  lemma NumberByHashReadBack(e: StoreEnv, kv: map<string, Bytes>, uHash: Hash, number: ChainIndex)
    requires RlpRoundTrips(e)
    ensures GetNumberWithUnitHash(e, kv[HashNumberKey(e, uHash) := e.rlpEncode(VIndex(number))], uHash) == Ok(number)
  {
    assert e.rlpDecode(e.rlpEncode(VIndex(number))) == Some(VIndex(number));
  }

  /** SaveHashByNumber then GetHashByNumber with the same chain index gives the
      saved hash back: both use NumberKey. */
  lemma HashByNumberReadBack(e: StoreEnv, kv: map<string, Bytes>, uHash: Hash, number: ChainIndex)
    requires RlpRoundTrips(e) && HashTextRoundTrips(e.c)
    ensures GetHashByNumber(e, kv[NumberKey(e, number) := e.rlpEncode(VString(e.c.hashString(uHash)))], number) == Ok(uHash)
  {
    var v := VString(e.c.hashString(uHash));
    assert e.rlpDecode(e.rlpEncode(v)) == Some(v);
    assert e.c.parseHash(e.c.hashString(uHash)) == Some(uHash);
  }

  /** The saved main-chain number key of an index is the irreversible prefix
      followed by the index in canonical decimal. */
  lemma MainNumberKeyIsNumbered(e: StoreEnv, assetId: Id16, n: nat)
    requires n <= Int64Max
    ensures NumberKey(e, ChainIndex(assetId, true, n)) == IrreversiblePrefix(e, assetId) + FormatInt(n)
    ensures CanonicalNumber(FormatInt(n))
  {
    ParseIntOfFormatInt(n);
  }

  // ---------------------------------------------------------------------------
  // The address transaction list

  /** The outcome of updateAddrTransactions and the store it leaves. */
  function AddrTxsUpdated(e: StoreEnv, kv: map<string, Bytes>, addr: string, hash: Hash): (Option<StoreError>, map<string, Bytes>)
  {
    if hash == ZeroHash() then (Some(EmptyTxHash), kv)
    else match AddrTxList(e, kv, addr)
      case Err(x) => (Some(x), kv)
      case Ok(hs) => (None, kv[AddrTxKey(e, addr) := e.rlpEncode(VHashes(hs + [hash]))])
  }

  /** The list only grows: a successful update reads back as the old list with
      the hash appended ([hash] on first store), nothing else in the store
      changes, and a zero hash or an undecodable list leaves the store alone. */
  lemma AddrTxsAppendOnly(e: StoreEnv, kv: map<string, Bytes>, addr: string, hash: Hash)
    requires RlpRoundTrips(e)
    ensures var (err, kv2) := AddrTxsUpdated(e, kv, addr, hash);
            (err.None? <==> hash != ZeroHash() && AddrTxList(e, kv, addr).Ok?)
            && (err.None? ==> AddrTxList(e, kv2, addr) == Ok(AddrTxList(e, kv, addr).value + [hash]))
            && (err.Some? ==> kv2 == kv)
            && (forall k :: k != AddrTxKey(e, addr) ==> (k in kv2 <==> k in kv) && (k in kv ==> kv2[k] == kv[k]))
  {
    var (err, kv2) := AddrTxsUpdated(e, kv, addr, hash);
    if err.None? {
      var hs := AddrTxList(e, kv, addr).value;
      assert e.rlpDecode(e.rlpEncode(VHashes(hs + [hash]))) == Some(VHashes(hs + [hash]));
    }
  }

  // ---------------------------------------------------------------------------
  // Transaction lookup entries

  /** The entry SaveTxLookupEntry stores for the i-th transaction of a unit. */
  function LookupEntryOf(e: StoreEnv, u: Unit, i: nat): TxLookupEntry
  {
    TxLookupEntry(HeaderHash(e.c, u.header), u.header.number.index, i)
  }

  /** What StoreBytes leaves for that entry: the RLP of its RLP bytes. */
  function LookupData(e: StoreEnv, u: Unit, i: nat): Bytes
  {
    e.rlpEncode(VBytes(e.rlpEncode(VEntry(LookupEntryOf(e, u, i)))))
  }

  /** The store after SaveTxLookupEntry has handled the first n transactions. */
  function LookupsSaved(e: StoreEnv, kv: map<string, Bytes>, u: Unit, n: nat): map<string, Bytes>
    requires n <= |u.txs|
  {
    if n == 0 then kv
    else LookupsSaved(e, kv, u, n - 1)[LookupKey(e, u.txs[n - 1].txHash) := LookupData(e, u, n - 1)]
  }

  /** The entry under a transaction's key is the one of the last transaction
      with that key. */
  lemma {:induction false} LookupsSavedAt(e: StoreEnv, kv: map<string, Bytes>, u: Unit, n: nat, j: nat)
    requires j < n <= |u.txs|
    requires forall k :: j < k < n ==> LookupKey(e, u.txs[k].txHash) != LookupKey(e, u.txs[j].txHash)
    ensures LookupKey(e, u.txs[j].txHash) in LookupsSaved(e, kv, u, n)
    ensures LookupsSaved(e, kv, u, n)[LookupKey(e, u.txs[j].txHash)] == LookupData(e, u, j)
  {
    if j < n - 1 {
      LookupsSavedAt(e, kv, u, n - 1, j);
      assert LookupKey(e, u.txs[n - 1].txHash) != LookupKey(e, u.txs[j].txHash);
    }
  }

  /** Keys of no transaction are untouched by SaveTxLookupEntry. */
  lemma {:induction false} LookupsSavedElsewhere(e: StoreEnv, kv: map<string, Bytes>, u: Unit, n: nat, key: string)
    requires n <= |u.txs|
    requires forall k :: 0 <= k < n ==> LookupKey(e, u.txs[k].txHash) != key
    ensures key in LookupsSaved(e, kv, u, n) <==> key in kv
    ensures key in kv ==> LookupsSaved(e, kv, u, n)[key] == kv[key]
  {
    if n > 0 {
      LookupsSavedElsewhere(e, kv, u, n - 1, key);
    }
  }

  /** SaveTxLookupEntry then GetTxLookupEntry of the j-th transaction (the last
      one with its key) gives the unit's hash, its number and j. */
  lemma LookupEntryReadBack(e: StoreEnv, kv: map<string, Bytes>, u: Unit, j: nat)
    requires RlpRoundTrips(e) && FillsAgree(e)
    requires j < |u.txs|
    requires forall k :: j < k < |u.txs| ==> LookupKey(e, u.txs[k].txHash) != LookupKey(e, u.txs[j].txHash)
    ensures GetTxLookupEntry(e, LookupsSaved(e, kv, u, |u.txs|), u.txs[j].txHash)
              == Ok(TxLookupEntry(HeaderHash(e.c, u.header), u.header.number.index, j))
  {
    LookupsSavedAt(e, kv, u, |u.txs|, j);
    var inner := VEntry(LookupEntryOf(e, u, j));
    assert e.rlpDecode(e.rlpEncode(inner)) == Some(inner);
    var outer := VBytes(e.rlpEncode(inner));
    assert e.rlpDecode(e.rlpEncode(outer)) == Some(outer) && |e.rlpEncode(outer)| > 0;
  }

  // ---------------------------------------------------------------------------
  // Head pointers

  /** The four puts of UpdateHeadByBatch: canonical hash, head header, head unit
      and head fast unit, all to the same hash. */
  function HeadPuts(e: StoreEnv, hash: Hash, number: nat): seq<(string, Bytes)>
    requires number < U64
  {
    [(CanonKey(e, number), hash), (e.p.headHeaderKey, hash), (e.p.headUnitKey, hash), (e.p.headFastKey, hash)]
  }

  /** The batch is all or nothing: when it succeeds each of the four keys holds
      the hash and nothing else changes. */
  lemma HeadPutsAllSame(e: StoreEnv, kv: map<string, Bytes>, hash: Hash, number: nat)
    requires number < U64
    ensures var kv2 := Applied(kv, HeadPuts(e, hash, number));
            (forall i :: 0 <= i < 4 ==> HeadPuts(e, hash, number)[i].0 in kv2 && kv2[HeadPuts(e, hash, number)[i].0] == hash)
            && (forall k :: k !in {CanonKey(e, number), e.p.headHeaderKey, e.p.headUnitKey, e.p.headFastKey} ==>
                  (k in kv2 <==> k in kv) && (k in kv ==> kv2[k] == kv[k]))
  {
    AppliedUniform(kv, HeadPuts(e, hash, number), hash);
  }

  // ---------------------------------------------------------------------------
  // Converting message payloads

  /** One message as ConvertMsg handles it: its payload goes through JSON; a
      known tag's payload is decoded into the tag's type, any other message is
      kept as it is. */
  function ConvertOne(e: StoreEnv, m: Message): (r: Result<Message, StoreError>)
    ensures r.Ok? ==> r.value.app == m.app
    ensures r.Ok? && !KnownApp(m.app) ==> r.value == m
  {
    match e.marshalPayload(m.payload)
    case None => Err(MarshalFailed)
    case Some(data) =>
      if !KnownApp(m.app) then Ok(m)
      else match e.unmarshalPayload(m.app, data)
        case None => Err(DecodeFailed)
        case Some(p) => Ok(Message(m.app, p))
  }

  /** done ++ the result r, or r's error. */
  function Prepend<T>(done: seq<T>, r: Result<seq<T>, StoreError>): Result<seq<T>, StoreError>
  {
    match r
    case Err(x) => Err(x)
    case Ok(rest) => Ok(done + rest)
  }

  lemma PrependEmpty<T>(r: Result<seq<T>, StoreError>)
    ensures Prepend([], r) == r
  {
    if r.Ok? {
      assert [] + r.value == r.value;
    }
  }

  lemma PrependStep<T>(done: seq<T>, x: T, r: Result<seq<T>, StoreError>)
    ensures Prepend(done, Prepend([x], r)) == Prepend(done + [x], r)
  {
    if r.Ok? {
      assert done + ([x] + r.value) == done + [x] + r.value;
    }
  }

  /** ConvertMsg's result: the converted messages, or the first error. */
  function Converted(e: StoreEnv, msgs: seq<Message>): (r: Result<seq<Message>, StoreError>)
    ensures r.Ok? ==> |r.value| == |msgs|
  {
    if |msgs| == 0 then Ok([])
    else match ConvertOne(e, msgs[0])
      case Err(x) => Err(x)
      case Ok(m) => Prepend([m], Converted(e, msgs[1..]))
  }

  /** On success each message is converted in place of the original, so the
      tags and their order are kept and unknown tags pass through unchanged; the
      conversion fails exactly when some message fails. */
  lemma {:induction false} ConvertedShape(e: StoreEnv, msgs: seq<Message>)
    ensures Converted(e, msgs).Ok? ==>
              forall i :: 0 <= i < |msgs| ==> ConvertOne(e, msgs[i]) == Ok(Converted(e, msgs).value[i])
    ensures Converted(e, msgs).Err? <==> exists i :: 0 <= i < |msgs| && ConvertOne(e, msgs[i]).Err?
  {
    if |msgs| > 0 {
      ConvertedShape(e, msgs[1..]);
      if ConvertOne(e, msgs[0]).Ok? && Converted(e, msgs[1..]).Ok? {
        forall i | 0 <= i < |msgs| ensures ConvertOne(e, msgs[i]) == Ok(Converted(e, msgs).value[i]) {
          if i > 0 {
            assert msgs[1..][i - 1] == msgs[i];
          }
        }
      }
      if Converted(e, msgs[1..]).Err? {
        var i :| 0 <= i < |msgs[1..]| && ConvertOne(e, msgs[1..][i]).Err?;
        assert msgs[1..][i] == msgs[i + 1];
      }
      if ConvertOne(e, msgs[0]).Ok? && Converted(e, msgs[1..]).Ok? {
        forall i | 0 <= i < |msgs| ensures ConvertOne(e, msgs[i]).Ok? {
          if i > 0 {
            assert msgs[1..][i - 1] == msgs[i];
          }
        }
      }
    }
  }

  /** JSON gives back every payload of the tag's type. */
  ghost predicate PayloadJsonRoundTrips(e: StoreEnv)
  {
    forall p: Payload :: e.marshalPayload(p).Some?
      && (forall app: MessageType :: KnownApp(app) && PayloadFits(app, p) ==>
            e.unmarshalPayload(app, e.marshalPayload(p).value) == Some(p))
  }

  /** With a JSON codec that round-trips, converting messages whose known tags
      carry payloads of their type gives the messages back. */
  lemma {:induction false} ConvertedRoundTrip(e: StoreEnv, msgs: seq<Message>)
    requires PayloadJsonRoundTrips(e)
    requires forall i :: 0 <= i < |msgs| && KnownApp(msgs[i].app) ==> PayloadFits(msgs[i].app, msgs[i].payload)
    ensures Converted(e, msgs) == Ok(msgs)
  {
    if |msgs| > 0 {
      var m := msgs[0];
      assert e.marshalPayload(m.payload).Some?;
      if KnownApp(m.app) {
        assert e.unmarshalPayload(m.app, e.marshalPayload(m.payload).value) == Some(m.payload);
      }
      ConvertedRoundTrip(e, msgs[1..]);
      assert [m] + msgs[1..] == msgs;
    }
  }

  /** ConvertMsg: each message in turn, stopping at the first error. */
  method ConvertMsg(e: StoreEnv, msgs: seq<Message>) returns (r: Result<seq<Message>, StoreError>)
    ensures r == Converted(e, msgs)
  {
    var out: seq<Message> := [];
    var i := 0;
    assert msgs[0..] == msgs;
    PrependEmpty(Converted(e, msgs));
    while i < |msgs|
      invariant 0 <= i <= |msgs|
      invariant Converted(e, msgs) == Prepend(out, Converted(e, msgs[i..]))
    {
      assert msgs[i..][0] == msgs[i] && msgs[i..][1..] == msgs[i + 1..];
      var m := msgs[i];
      var data1 := e.marshalPayload(m.payload);
      if data1.None? {
        return Err(MarshalFailed);
      }
      if KnownApp(m.app) {
        var p := e.unmarshalPayload(m.app, data1.value);
        if p.None? {
          return Err(DecodeFailed);
        }
        m := Message(m.app, p.value);
      }
      PrependStep(out, m, Converted(e, msgs[i + 1..]));
      out := out + [m];
      i := i + 1;
    }
    assert msgs[i..] == [] && out + [] == out;
    return Ok(out);
  }

  // ---------------------------------------------------------------------------
  // Reading transactions and units

  /** gettrasaction: a zero hash is an error; the transaction's JSON under
      TransactionKey is decoded and its messages converted. */
  function TransactionAt(e: StoreEnv, kv: map<string, Bytes>, hash: Hash): (r: Result<Transaction, StoreError>)
  {
    if hash == ZeroHash() then Err(NoTxHash)
    else if TransactionKey(e, hash) !in kv then Err(NotFound)
    else match e.jsonDecode(kv[TransactionKey(e, hash)])
      case Some(VTx(tx)) =>
        (match Converted(e, tx.messages)
         case Err(x) => Err(x)
         case Ok(ms) => Ok(tx.(messages := ms)))
      case _ => Err(DecodeFailed)
  }

  /** GetTransaction: nil on any error of the lookup entry or the transaction
      read, except the panic of a lookup entry that does not decode. */
  function TransactionFor(e: StoreEnv, kv: map<string, Bytes>, hash: Hash): (r: Result<Option<Transaction>, StoreError>)
    ensures r.Err? ==> r.error == Panicked
  {
    match GetTxLookupEntry(e, kv, hash)
    case Err(Panicked) => Err(Panicked)
    case Err(_) => Ok(None)
    case Ok(_) =>
      match TransactionAt(e, kv, hash)
      case Err(_) => Ok(None)
      case Ok(tx) => Ok(Some(tx))
  }

  /** The transactions GetUnitTransactions collects for a list of hashes, one
      (possibly nil) per hash. */
  function UnitTxs(e: StoreEnv, kv: map<string, Bytes>, hashes: seq<Hash>): (r: Result<seq<Option<Transaction>>, StoreError>)
    ensures r.Ok? ==> |r.value| == |hashes|
  {
    if |hashes| == 0 then Ok([])
    else match TransactionFor(e, kv, hashes[0])
      case Err(x) => Err(x)
      case Ok(t) => Prepend([t], UnitTxs(e, kv, hashes[1..]))
  }

  /** GetUnitTransactions: the body's hashes, each looked up. */
  function BodyTxs(e: StoreEnv, kv: map<string, Bytes>, hash: Hash): Result<seq<Option<Transaction>>, StoreError>
  {
    match GetBody(e, kv, hash)
    case Err(x) => Err(x)
    case Ok(hs) => UnitTxs(e, kv, hs)
  }

  /** A unit read back: its header, the hash it was asked for, and one entry per
      body hash (None where GetTransaction gave nil). */
  datatype StoredUnit = StoredUnit(header: Header, unitHash: Hash, txs: seq<Option<Transaction>>)

  /** GetUnit: chain index, then header, then transactions; the first failure
      is the result. */
  function UnitAt(e: StoreEnv, kv: map<string, Bytes>, hash: Hash): Result<StoredUnit, StoreError>
  {
    match GetNumberWithUnitHash(e, kv, hash)
    case Err(x) => Err(x)
    case Ok(height) =>
      match GetHeader(e, kv, hash, height)
      case Err(x) => Err(x)
      case Ok(h) =>
        match BodyTxs(e, kv, hash)
        case Err(x) => Err(x)
        case Ok(txs) => Ok(StoredUnit(h, hash, txs))
  }

  /** GetUnit fails when the chain index, the header or the body cannot be read,
      and on success returns the stored header, the requested hash as UnitHash
      and one transaction slot per body hash. */
  lemma UnitAtShape(e: StoreEnv, kv: map<string, Bytes>, hash: Hash)
    ensures GetNumberWithUnitHash(e, kv, hash).Err? ==> UnitAt(e, kv, hash) == Err(GetNumberWithUnitHash(e, kv, hash).error)
    ensures GetNumberWithUnitHash(e, kv, hash).Ok? && GetHeader(e, kv, hash, GetNumberWithUnitHash(e, kv, hash).value).Err? ==>
              UnitAt(e, kv, hash).Err?
    ensures GetBody(e, kv, hash).Err? ==> UnitAt(e, kv, hash).Err?
    ensures UnitAt(e, kv, hash).Ok? ==>
              var u := UnitAt(e, kv, hash).value;
              u.unitHash == hash
              && GetHeader(e, kv, hash, GetNumberWithUnitHash(e, kv, hash).value) == Ok(u.header)
              && GetBody(e, kv, hash).Ok? && |u.txs| == |GetBody(e, kv, hash).value|
  {
  }

  /** A unit whose chain index, header and body were saved under their keys
      reads back with that header and one slot per saved transaction hash,
      unless a stored lookup entry is malformed (the panic). */
  lemma UnitReadBack(e: StoreEnv, kv: map<string, Bytes>, hash: Hash, number: ChainIndex, h: Header, hs: seq<Hash>)
    requires RlpRoundTrips(e)
    requires HashNumberKey(e, hash) in kv && kv[HashNumberKey(e, hash)] == e.rlpEncode(VIndex(number))
    requires HeaderTextKey(e, number, hash) in kv && kv[HeaderTextKey(e, number, hash)] == e.rlpEncode(VHeader(h))
    requires BodyKey(e, hash) in kv && kv[BodyKey(e, hash)] == e.rlpEncode(VHashes(hs))
    ensures UnitAt(e, kv, hash).Ok? || UnitAt(e, kv, hash) == Err(Panicked)
    ensures UnitAt(e, kv, hash).Ok? ==>
              UnitAt(e, kv, hash).value.header == h && UnitAt(e, kv, hash).value.unitHash == hash
              && |UnitAt(e, kv, hash).value.txs| == |hs|
  {
    assert e.rlpDecode(e.rlpEncode(VIndex(number))) == Some(VIndex(number)) && |e.rlpEncode(VIndex(number))| > 0;
    assert e.rlpDecode(e.rlpEncode(VHeader(h))) == Some(VHeader(h));
    assert e.rlpDecode(e.rlpEncode(VHashes(hs))) == Some(VHashes(hs));
    UnitTxsOnlyPanic(e, kv, hs);
  }

  lemma {:induction false} UnitTxsOnlyPanic(e: StoreEnv, kv: map<string, Bytes>, hashes: seq<Hash>)
    ensures UnitTxs(e, kv, hashes).Err? ==> UnitTxs(e, kv, hashes).error == Panicked
  {
    if |hashes| > 0 {
      UnitTxsOnlyPanic(e, kv, hashes[1..]);
    }
  }

  // ---------------------------------------------------------------------------
  // The last irreversible unit

  /** getprefix: the entries whose key starts with prefix. */
  function PrefixScan(kv: map<string, Bytes>, prefix: string): (r: map<string, Bytes>)
    ensures forall k :: k in r <==> k in kv && |prefix| <= |k| && k[..|prefix|] == prefix
    ensures forall k :: k in r ==> r[k] == kv[k]
  {
    map k | k in kv && |prefix| <= |k| && k[..|prefix|] == prefix :: kv[k]
  }

  /** order visits every key of data exactly once (Go's map iteration order is
      unspecified, so it is a choice of the run). */
  ghost predicate Enumerates(order: seq<string>, data: map<string, Bytes>)
  {
    (forall k :: k in order <==> k in data)
    && (forall i, j :: 0 <= i < j < |order| ==> order[i] != order[j])
  }

  /** The suffixes collected from the keys in visiting order: those keys that
      strings.Split cuts into exactly two pieces around the prefix. */
  function Suffixes(prefix: string, order: seq<string>): seq<string>
    requires |prefix| > 0
  {
    if |order| == 0 then []
    else
      var sts := Split(order[|order| - 1], prefix);
      Suffixes(prefix, order[..|order| - 1]) + (if |sts| == 2 then [sts[1]] else [])
  }

  /** The running maximum of GetLastIrreversibleUnit: each suffix that parses as
      an int64 is compared, except that the one at position 0 (when it parses)
      replaces the initial 0 outright. */
  function MaxScan(vs: seq<string>): int
  {
    if |vs| == 0 then 0
    else
      var m := MaxScan(vs[..|vs| - 1]);
      match ParseInt(vs[|vs| - 1])
      case None => m
      case Some(x) => if |vs| == 1 then x else if m < x then x else m
  }

  /** The result is at least every parsed suffix, and it is one of them unless
      it is the initial 0; when the first suffix parses it is one of them. */
  lemma {:induction false} MaxScanBounds(vs: seq<string>)
    ensures forall j :: 0 <= j < |vs| && ParseInt(vs[j]).Some? ==> ParseInt(vs[j]).value <= MaxScan(vs)
    ensures MaxScan(vs) == 0 || exists j :: 0 <= j < |vs| && ParseInt(vs[j]) == Some(MaxScan(vs))
    ensures |vs| > 0 && ParseInt(vs[0]).Some? ==> exists j :: 0 <= j < |vs| && ParseInt(vs[j]) == Some(MaxScan(vs))
  {
    if |vs| > 0 {
      var p := vs[..|vs| - 1];
      MaxScanBounds(p);
      assert forall j :: 0 <= j < |p| ==> p[j] == vs[j];
      var last := |vs| - 1;
      if |vs| > 1 && ParseInt(vs[0]).Some? {
        var j :| 0 <= j < |p| && ParseInt(p[j]) == Some(MaxScan(p));
        assert ParseInt(vs[j]) == Some(MaxScan(p));
      }
      if MaxScan(p) != 0 && |p| > 0 {
        var j :| 0 <= j < |p| && ParseInt(p[j]) == Some(MaxScan(p));
        assert ParseInt(vs[j]) == Some(MaxScan(p));
      }
    }
  }

  /** The key GetLastIrreversibleUnit reads: the prefix and the maximum. */
  function IrreversibleKey(e: StoreEnv, kv: map<string, Bytes>, assetId: Id16, order: seq<string>): string
  {
    var prefix := IrreversiblePrefix(e, assetId);
    prefix + FormatInt(MaxScan(Suffixes(prefix, order)))
  }

  /** GetLastIrreversibleUnit for a given visiting order of the scanned keys. */
  function LastIrreversible(e: StoreEnv, kv: map<string, Bytes>, assetId: Id16, order: seq<string>): (r: Result<StoredUnit, StoreError>)
    ensures var k := IrreversibleKey(e, kv, assetId, order);
            (k !in kv || |kv[k]| == 0) ==> r == Err(NoIrreversibleHash)
  {
    var data := PrefixScan(kv, IrreversiblePrefix(e, assetId));
    var irreKey := IrreversibleKey(e, kv, assetId, order);
    assert irreKey in kv ==> irreKey in data by {
      var prefix := IrreversiblePrefix(e, assetId);
      assert irreKey[..|prefix|] == prefix;
    }
    if irreKey in data && |data[irreKey]| > 0 then
      match e.rlpDecode(data[irreKey])
      case Some(VString(hex)) => UnitAt(e, kv, e.hexToHash(hex))
      case _ => Err(DecodeFailed)
    else Err(NoIrreversibleHash)
  }

  /** A non-negative int64 in the form %d prints it. */
  predicate CanonicalNumber(s: string)
  {
    ParseInt(s).Some? && ParseInt(s).value >= 0 && FormatInt(ParseInt(s).value) == s
  }

  /** Split cuts prefix ++ s around the prefix into "" and s when the prefix's
      last character does not occur in s. */
  lemma PrefixedSplit(prefix: string, s: string)
    requires |prefix| > 0 && prefix[|prefix| - 1] !in s
    ensures Split(prefix + s, prefix) == ["", s]
  {
    var t := prefix + s;
    assert t[..|prefix|] == prefix;
    assert IndexOf(t, prefix) == Some(0);
    assert t[|prefix|..] == s;
    SplitFree(s, prefix);
  }

  /** A key that is the prefix followed by a canonical number splits into ""
      and that number. */
  lemma NumberedSplit(prefix: string, k: string)
    requires |prefix| > 0 && prefix[|prefix| - 1] == '_'
    requires |prefix| <= |k| && k[..|prefix|] == prefix && CanonicalNumber(k[|prefix|..])
    ensures Split(k, prefix) == ["", k[|prefix|..]]
  {
    var s := k[|prefix|..];
    assert k == prefix + s;
    assert s == Digits(ParseInt(s).value);
    assert '_' !in s;
    PrefixedSplit(prefix, s);
  }

  /** When every scanned key is the prefix followed by a canonical number, the
      suffixes are exactly those numbers, in visiting order. */
  lemma {:induction false} SuffixesOfNumbered(prefix: string, order: seq<string>)
    requires |prefix| > 0 && prefix[|prefix| - 1] == '_'
    requires forall i :: 0 <= i < |order| ==>
               |prefix| <= |order[i]| && order[i][..|prefix|] == prefix && CanonicalNumber(order[i][|prefix|..])
    ensures |Suffixes(prefix, order)| == |order|
    ensures forall i :: 0 <= i < |order| ==> Suffixes(prefix, order)[i] == order[i][|prefix|..]
  {
    if |order| > 0 {
      var p := order[..|order| - 1];
      var k := order[|order| - 1];
      SuffixesOfNumbered(prefix, p);
      NumberedSplit(prefix, k);
      assert Suffixes(prefix, order) == Suffixes(prefix, p) + [k[|prefix|..]];
      forall i | 0 <= i < |order|
        ensures Suffixes(prefix, order)[i] == order[i][|prefix|..]
      {
        if i < |p| {
          assert order[i] == p[i];
        }
      }
    }
  }

  /** Among keys that are all the prefix followed by a canonical number, the
      key built from the scan's maximum is one of them and carries the
      greatest number. */
  lemma GreatestNumbered(prefix: string, order: seq<string>)
    requires |prefix| > 0 && prefix[|prefix| - 1] == '_' && |order| > 0
    requires forall i :: 0 <= i < |order| ==>
               |prefix| <= |order[i]| && order[i][..|prefix|] == prefix && CanonicalNumber(order[i][|prefix|..])
    ensures var m := MaxScan(Suffixes(prefix, order));
            (exists j :: 0 <= j < |order| && order[j] == prefix + FormatInt(m) && ParseInt(order[j][|prefix|..]) == Some(m))
            && forall i :: 0 <= i < |order| ==> ParseInt(order[i][|prefix|..]).Some? && ParseInt(order[i][|prefix|..]).value <= m
  {
    SuffixesOfNumbered(prefix, order);
    var vs := Suffixes(prefix, order);
    MaxScanBounds(vs);
    assert ParseInt(vs[0]).Some?;
    var j :| 0 <= j < |vs| && ParseInt(vs[j]) == Some(MaxScan(vs));
    assert order[j] == prefix + vs[j];
    forall i | 0 <= i < |order| ensures ParseInt(order[i][|prefix|..]).value <= MaxScan(vs) {
      assert vs[i] == order[i][|prefix|..];
    }
  }

  /** The number after the prefix, -1 when there is none. */
  function SuffixNumber(prefix: string, k: string): int
  {
    if |prefix| <= |k| && ParseInt(k[|prefix|..]).Some? then ParseInt(k[|prefix|..]).value else -1
  }

  /** The same for any scan whose keys are all the prefix and a canonical
      number, visited in any order. */
  lemma NumberedScanGreatest(data: map<string, Bytes>, prefix: string, order: seq<string>)
    requires |prefix| > 0 && prefix[|prefix| - 1] == '_' && |order| > 0
    requires Enumerates(order, data)
    requires forall k :: k in data ==>
               |prefix| <= |k| && k[..|prefix|] == prefix && CanonicalNumber(k[|prefix|..])
    ensures var chosen := prefix + FormatInt(MaxScan(Suffixes(prefix, order)));
            chosen in data && CanonicalNumber(chosen[|prefix|..])
            && forall k :: k in data ==> SuffixNumber(prefix, k) <= SuffixNumber(prefix, chosen)
  {
    assert forall i :: 0 <= i < |order| ==> order[i] in data;
    GreatestNumbered(prefix, order);
    var m := MaxScan(Suffixes(prefix, order));
    var j :| 0 <= j < |order| && order[j] == prefix + FormatInt(m) && ParseInt(order[j][|prefix|..]) == Some(m);
    forall k | k in data ensures SuffixNumber(prefix, k) <= m {
      var i :| 0 <= i < |order| && order[i] == k;
    }
  }

  /** With only saved main-chain keys under the prefix, the key read is the
      scanned key with the greatest number, whatever the visiting order. */
  lemma IrreversibleFindsGreatest(e: StoreEnv, kv: map<string, Bytes>, assetId: Id16, order: seq<string>)
    requires Enumerates(order, PrefixScan(kv, IrreversiblePrefix(e, assetId)))
    requires |order| > 0
    requires forall k :: k in PrefixScan(kv, IrreversiblePrefix(e, assetId)) ==>
               CanonicalNumber(k[|IrreversiblePrefix(e, assetId)|..])
    ensures var prefix := IrreversiblePrefix(e, assetId);
            var chosen := IrreversibleKey(e, kv, assetId, order);
            chosen in kv && CanonicalNumber(chosen[|prefix|..])
            && forall k :: k in PrefixScan(kv, prefix) ==> SuffixNumber(prefix, k) <= SuffixNumber(prefix, chosen)
  {
    var prefix := IrreversiblePrefix(e, assetId);
    var data := PrefixScan(kv, prefix);
    NumberedScanGreatest(data, prefix, order);
  }

  /** Visiting one more key appends its suffix, if it has one. */
  lemma SuffixesSnoc(prefix: string, order: seq<string>, k: string)
    requires |prefix| > 0
    ensures var sts := Split(k, prefix);
            Suffixes(prefix, order + [k]) == Suffixes(prefix, order) + (if |sts| == 2 then [sts[1]] else [])
  {
    var next := order + [k];
    assert next[..|next| - 1] == order;
    assert next[|next| - 1] == k;
  }

  /** Visiting one more unvisited key keeps the visited keys distinct and the
      visited and remaining keys a partition of the map's keys. */
  lemma VisitStep(data: map<string, Bytes>, order: seq<string>, remaining: set<string>, k: string)
    requires remaining <= data.Keys && k in remaining
    requires forall x :: x in order <==> x in data && x !in remaining
    requires forall i, j :: 0 <= i < j < |order| ==> order[i] != order[j]
    ensures forall x :: x in order + [k] <==> x in data && x !in remaining - {k}
    ensures forall i, j :: 0 <= i < j < |order + [k]| ==> (order + [k])[i] != (order + [k])[j]
    ensures |remaining - {k}| < |remaining|
  {
    assert remaining == (remaining - {k}) + {k};
    var next := order + [k];
    assert forall x :: x in next <==> x in order || x == k;
    forall i, j | 0 <= i < j < |next|
      ensures next[i] != next[j]
    {
      if j == |order| {
        assert next[i] == order[i];
      }
    }
  }

  /** The first loop of GetLastIrreversibleUnit: every scanned key once, in
      the map's iteration order, keeping the second piece of those that Split
      cuts in two around the prefix. */
  method CollectSuffixes(data: map<string, Bytes>, key: string) returns (irreIndex: seq<string>, ghost order: seq<string>)
    requires |key| > 0
    ensures Enumerates(order, data)
    ensures irreIndex == Suffixes(key, order)
  {
    irreIndex := [];
    var remaining := data.Keys;
    order := [];
    while remaining != {}
      invariant remaining <= data.Keys
      invariant forall k :: k in order <==> k in data && k !in remaining
      invariant forall i, j :: 0 <= i < j < |order| ==> order[i] != order[j]
      invariant irreIndex == Suffixes(key, order)
      decreases |remaining|
    {
      var k :| k in remaining;
      var sts := Split(k, key);
      if |sts| == 2 {
        irreIndex := irreIndex + [sts[1]];
      }
      ghost var next := order + [k];
      SuffixesSnoc(key, order, k);
      VisitStep(data, order, remaining, k);
      order := next;
      remaining := remaining - {k};
    }
  }

  /** The second loop of GetLastIrreversibleUnit: the running maximum of the
      suffixes that parse. */
  method MaxParsed(irreIndex: seq<string>) returns (max: int)
    ensures max == MaxScan(irreIndex)
  {
    max := 0;
    var i := 0;
    while i < |irreIndex|
      invariant 0 <= i <= |irreIndex|
      invariant max == MaxScan(irreIndex[..i])
    {
      assert irreIndex[..i + 1][..i] == irreIndex[..i];
      var index := ParseInt(irreIndex[i]);
      if index.Some? {
        if i == 0 {
          max := index.value;
        } else if max < index.value {
          max := index.value;
        }
      }
      i := i + 1;
    }
    assert irreIndex[..i] == irreIndex;
  }

  // ---------------------------------------------------------------------------
  // The database

  class DagDb {
    const db: Database

    constructor (db: Database)
      ensures this.db == db
    {
      this.db := db;
    }

    /** SaveNumberByHash: the zero chain index is refused; otherwise an RLP copy
        of the index goes under HashNumberKey. */
    method SaveNumberByHash(uHash: Hash, number: ChainIndex) returns (err: Option<StoreError>)
      modifies db
      ensures number == ZeroChainIndex() ==> err == Some(NullChainIndex) && db.kv == old(db.kv)
      ensures number != ZeroChainIndex() ==>
                err.None? && db.kv == old(db.kv)[HashNumberKey(db.env, uHash) := db.env.rlpEncode(VIndex(number))]
    {
      if number == ZeroChainIndex() {
        return Some(NullChainIndex);
      }
      var index := ChainIndex(number.assetId, number.isMain, number.index);
      db.StoreBytes(HashNumberKey(db.env, uHash), VIndex(index));
      return None;
    }

    /** SaveHashByNumber: the hash's text, RLP-encoded, under NumberKey. */
    method SaveHashByNumber(uHash: Hash, number: ChainIndex)
      modifies db
      ensures db.kv == old(db.kv)[NumberKey(db.env, number) := db.env.rlpEncode(VString(db.env.c.hashString(uHash)))]
    {
      var key := NumberKey(db.env, number);
      db.StoreBytes(key, VString(db.env.c.hashString(uHash)));
    }

    /** SaveHeader: the header's RLP under HeaderTextKey. */
    method SaveHeader(uHash: Hash, h: Header)
      modifies db
      ensures db.kv == old(db.kv)[HeaderTextKey(db.env, h.number, uHash) := db.env.rlpEncode(VHeader(h))]
    {
      db.StoreBytes(HeaderTextKey(db.env, h.number, uHash), VHeader(h));
    }

    /** SaveBody: the list of transaction hashes under BodyKey. */
    method SaveBody(unitHash: Hash, txsHash: seq<Hash>)
      modifies db
      ensures db.kv == old(db.kv)[BodyKey(db.env, unitHash) := db.env.rlpEncode(VHashes(txsHash))]
    {
      db.StoreBytes(BodyKey(db.env, unitHash), VHashes(txsHash));
    }

    /** saveOutputByAddr: a zero hash is refused; otherwise the output's RLP under
        AddrOutputKey. */
    method SaveOutputByAddr(addr: string, hash: Hash, msgIndex: nat, output: Output) returns (err: Option<StoreError>)
      modifies db
      ensures hash == ZeroHash() ==> err == Some(EmptyTxHash) && db.kv == old(db.kv)
      ensures hash != ZeroHash() ==>
                err.None? && db.kv == old(db.kv)[AddrOutputKey(db.env, addr, hash, msgIndex) := db.env.rlpEncode(VOutput(output))]
    {
      if hash == ZeroHash() {
        return Some(EmptyTxHash);
      }
      var key := db.env.p.addrOutput + addr + db.env.c.hashString(hash);
      db.StoreBytes(key + BytesToString(MinimalBytes(msgIndex)), VOutput(output));
      return None;
    }

    /** updateAddrTransactions: read, append the hash, write back. */
    method UpdateAddrTransactions(addr: string, hash: Hash) returns (err: Option<StoreError>)
      modifies db
      ensures (err, db.kv) == AddrTxsUpdated(db.env, old(db.kv), addr, hash)
    {
      if hash == ZeroHash() {
        return Some(EmptyTxHash);
      }
      var hashs: seq<Hash> := [];
      var key := AddrTxKey(db.env, addr);
      if key !in db.kv {
        hashs := hashs + [hash];
        db.StoreBytes(key, VHashes(hashs));
        return None;
      }
      var decoded := db.env.rlpDecode(db.kv[key]);
      if !(decoded.Some? && decoded.value.VHashes?) {
        return Some(DecodeFailed);
      }
      hashs := decoded.value.hashes + [hash];
      db.StoreBytes(key, VHashes(hashs));
      return None;
    }

    /** SaveTxLookupEntry: for each transaction of the unit, in order, its
        lookup entry under LookupKey of its hash. */
    method SaveTxLookupEntry(u: Unit)
      modifies db
      ensures db.kv == LookupsSaved(db.env, old(db.kv), u, |u.txs|)
    {
      ghost var kv0 := db.kv;
      var i := 0;
      while i < |u.txs|
        invariant 0 <= i <= |u.txs|
        invariant db.kv == LookupsSaved(db.env, kv0, u, i)
      {
        var entry := TxLookupEntry(HeaderHash(db.env.c, u.header), u.header.number.index, i);
        var data := db.env.rlpEncode(VEntry(entry));
        assert db.env.rlpEncode(VBytes(data)) == LookupData(db.env, u, i);
        db.StoreBytes(LookupKey(db.env, u.txs[i].txHash), VBytes(data));
        assert db.kv == LookupsSaved(db.env, kv0, u, i + 1);
        i := i + 1;
      }
    }

    /** UpdateHeadByBatch: the four head puts in one batch. putFails says which
        of the batch puts report an error and writeFails whether the write does;
        any error leaves the store as it was. */
    method UpdateHeadByBatch(hash: Hash, number: nat, putFails: seq<bool>, writeFails: bool) returns (err: Option<StoreError>)
      requires number < U64 && |putFails| == 4
      modifies db
      ensures err.None? <==> (forall i :: 0 <= i < 4 ==> !putFails[i]) && !writeFails
      ensures (exists i :: 0 <= i < 4 && putFails[i]) ==> err == Some(BatchFailed)
      ensures err.None? ==> db.kv == Applied(old(db.kv), HeadPuts(db.env, hash, number))
      ensures err.Some? ==> db.kv == old(db.kv)
    {
      var puts := HeadPuts(db.env, hash, number);
      var batch: seq<(string, Bytes)> := [];
      var errors := 0;
      var i := 0;
      while i < 4
        invariant 0 <= i <= 4
        invariant errors == 0 <==> forall k :: 0 <= k < i ==> !putFails[k]
        invariant errors == 0 ==> batch == puts[..i]
      {
        if putFails[i] {
          errors := errors + 1;
        } else {
          batch := batch + [puts[i]];
        }
        i := i + 1;
      }
      if errors != 0 {
        return Some(BatchFailed);
      }
      if writeFails {
        return Some(WriteFailed);
      }
      assert batch == puts;
      db.WriteBatch(batch);
      return None;
    }

    /** gettrasaction. */
    method LoadTransaction(hash: Hash) returns (r: Result<Transaction, StoreError>)
      ensures r == TransactionAt(db.env, db.kv, hash)
    {
      if hash == ZeroHash() {
        return Err(NoTxHash);
      }
      var key := TransactionKey(db.env, hash);
      if key !in db.kv {
        return Err(NotFound);
      }
      var decoded := db.env.jsonDecode(db.kv[key]);
      if !(decoded.Some? && decoded.value.VTx?) {
        return Err(DecodeFailed);
      }
      var tx := decoded.value.tx;
      var msgs := ConvertMsg(db.env, tx.messages);
      if msgs.Err? {
        return Err(msgs.error);
      }
      return Ok(tx.(messages := msgs.value));
    }

    /** GetTransaction. */
    method GetTransaction(hash: Hash) returns (r: Result<Option<Transaction>, StoreError>)
      ensures r == TransactionFor(db.env, db.kv, hash)
    {
      var entry := GetTxLookupEntry(db.env, db.kv, hash);
      if entry.Err? {
        if entry.error == Panicked {
          return Err(Panicked);
        }
        return Ok(None);
      }
      var tx := LoadTransaction(hash);
      if tx.Err? {
        return Ok(None);
      }
      return Ok(Some(tx.value));
    }

    /** GetUnitTransactions: every body hash in turn, a nil transaction kept in
        its place. */
    method GetUnitTransactions(hash: Hash) returns (r: Result<seq<Option<Transaction>>, StoreError>)
      ensures r == BodyTxs(db.env, db.kv, hash)
    {
      var body := GetBody(db.env, db.kv, hash);
      if body.Err? {
        return Err(body.error);
      }
      var hs := body.value;
      var txs: seq<Option<Transaction>> := [];
      var i := 0;
      assert hs[0..] == hs;
      PrependEmpty(UnitTxs(db.env, db.kv, hs));
      while i < |hs|
        invariant 0 <= i <= |hs|
        invariant UnitTxs(db.env, db.kv, hs) == Prepend(txs, UnitTxs(db.env, db.kv, hs[i..]))
      {
        assert hs[i..][0] == hs[i] && hs[i..][1..] == hs[i + 1..];
        var tx := GetTransaction(hs[i]);
        if tx.Err? {
          return Err(tx.error);
        }
        PrependStep(txs, tx.value, UnitTxs(db.env, db.kv, hs[i + 1..]));
        txs := txs + [tx.value];
        i := i + 1;
      }
      assert hs[i..] == [] && txs + [] == txs;
      return Ok(txs);
    }

    /** GetUnit. */
    method GetUnit(hash: Hash) returns (r: Result<StoredUnit, StoreError>)
      ensures r == UnitAt(db.env, db.kv, hash)
    {
      var height := GetNumberWithUnitHash(db.env, db.kv, hash);
      if height.Err? {
        return Err(height.error);
      }
      var header := GetHeader(db.env, db.kv, hash, height.value);
      if header.Err? {
        return Err(header.error);
      }
      var txs := GetUnitTransactions(hash);
      if txs.Err? {
        return Err(txs.error);
      }
      return Ok(StoredUnit(header.value, hash, txs.value));
    }

    /** GetLastIrreversibleUnit: scans the main-chain number keys of the asset in
        the store's iteration order (returned as order), takes the largest
        suffix that parses, and reads the unit whose hash is stored under the
        prefix followed by that number. */
    method GetLastIrreversibleUnit(assetId: Id16) returns (r: Result<StoredUnit, StoreError>, ghost order: seq<string>)
      ensures Enumerates(order, PrefixScan(db.kv, IrreversiblePrefix(db.env, assetId)))
      ensures r == LastIrreversible(db.env, db.kv, assetId, order)
    {
      var key := IrreversiblePrefix(db.env, assetId);
      var data := PrefixScan(db.kv, key);
      var irreIndex;
      irreIndex, order := CollectSuffixes(data, key);
      var max := MaxParsed(irreIndex);
      var irreKey := key + FormatInt(max);
      if irreKey in data && |data[irreKey]| > 0 {
        var hex := db.env.rlpDecode(data[irreKey]);
        if !(hex.Some? && hex.value.VString?) {
          return Err(DecodeFailed), order;
        }
        r := GetUnit(db.env.hexToHash(hex.value.str));
        return r, order;
      }
      return Err(NoIrreversibleHash), order;
    }
  }
}
