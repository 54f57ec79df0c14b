// The ledger's domain types (units, headers, transactions, messages and their
// payloads) and the helpers of dag/modules/unit.go.

module Modules {
  import opened Common

  type Hash = Bytes
  /** IDType16: asset and unique ids, 16 bytes. */
  type Id16 = Bytes
  type Address = Bytes

  /** The application tag of a message (the App field). The numeric codes of most
      tags live in files that are not part of this model, so the tags are kept
      symbolic; AppOther stands for any code none of the named tags has. */
  datatype MessageType =
    | AppPayment
    | AppContractTpl
    | AppContractDeploy
    | AppContractInvoke
    | AppContractInvokeRequest
    | AppContractTplRequest
    | AppContractDeployRequest
    | AppContractStopRequest
    | AppConfig
    | AppText
    | AppSignature
    | AppVote
    | OpMediatorCreate
    | AppOther(code: nat)

  /** A unit's position on the chain of one asset. */
  datatype ChainIndex = ChainIndex(assetId: Id16, isMain: bool, index: nat)

  function ZeroChainIndex(): ChainIndex
  {
    ChainIndex(Zeros(16), false, 0)
  }

  datatype StateVersion = StateVersion(height: ChainIndex, txIndex: nat)

  datatype OutPoint = OutPoint(txHash: Hash, messageIndex: nat, outIndex: nat)

  datatype Asset = Asset(assetId: Id16, uniqueId: Id16, chainId: nat)

  datatype Input = Input(previousOutPoint: OutPoint, signatureScript: Bytes, extra: Bytes)

  datatype Output = Output(value: nat, pkScript: Bytes, asset: Asset)

  datatype PaymentPayload = PaymentPayload(inputs: seq<Input>, outputs: seq<Output>, lockTime: nat)

  datatype ContractTplPayload = ContractTplPayload(
    templateId: Bytes, name: string, path: string, version: string, memory: nat, bytecode: Bytes)

  /** The deploy payload; args, execution time, jury and read/write sets are
      kept as one opaque value because the parser below never sets them. */
  datatype ContractDeployPayload = ContractDeployPayload(
    templateId: Bytes, contractId: Bytes, name: string, rest: Bytes)

  datatype ContractInvokeRequestPayload = ContractInvokeRequestPayload(contractId: Bytes, args: seq<Bytes>)

  datatype SignatureSet = SignatureSet(pubKey: Bytes, signature: Bytes)

  /** A message payload. OpaquePayload stands for the payload types whose fields
      nothing in this model inspects (text, invoke, config, vote, mediator
      creation); NilPayload is a nil Payload interface. */
  datatype Payload =
    | NilPayload
    | PaymentPl(payment: PaymentPayload)
    | ContractTplPl(tpl: ContractTplPayload)
    | ContractDeployPl(deploy: ContractDeployPayload)
    | InvokeRequestPl(request: ContractInvokeRequestPayload)
    | SignaturePl(signatures: seq<SignatureSet>)
    | OpaquePayload(kind: MessageType, content: Bytes)

  datatype Message = Message(app: MessageType, payload: Payload)

  datatype Transaction = Transaction(txHash: Hash, txId: Hash, messages: seq<Message>)

  datatype Authentifier = Authentifier(content: Bytes)

  datatype Header = Header(
    parentsHash: seq<Hash>,
    assetIds: seq<Id16>,
    authors: Option<Authentifier>,
    witnesses: seq<Authentifier>,
    txRoot: Hash,
    number: ChainIndex,
    extra: Bytes,
    creationdate: int)

  datatype Unit = Unit(header: Header, txs: seq<Transaction>, unitHash: Hash)

  /** The library functions the core calls but whose code is not part of this
      model: hashing, the RLP encodings and the text forms of hashes and ids. */
  datatype Codec = Codec(
    headerRlpHash: Header -> Hash,             // rlp.RlpHash of a header
    txHash: Transaction -> Hash,               // Transaction.Hash()
    indexBytes: ChainIndex -> Bytes,           // ChainIndex.Bytes(), its RLP encoding
    indexString: ChainIndex -> string,         // ChainIndex.String(), the same bytes as text
    versionString: StateVersion -> string,     // StateVersion.String()
    decodeVersion: string -> Option<StateVersion>, // rlp.DecodeBytes into a StateVersion
    hashString: Hash -> string,                // common.Hash.String() / Hex()
    parseHash: string -> Option<Hash>,         // common.Hash.SetHexString
    assetString: Id16 -> string,               // IDType16.String()
    hashFromBytes: Bytes -> Hash,              // common.Hash.SetBytes
    idFromBytes: Bytes -> Id16,                // IDType16.SetBytes
    encodePayload: Payload -> Bytes,           // rlp.EncodeToBytes of a payload
    decodePayload: (MessageType, Bytes) -> Payload) // rlp.DecodeBytes into the tag's payload type

  /** The payload an RLP decode into the tag's payload type produces has that type. */
  predicate PayloadFits(app: MessageType, p: Payload)
  {
    match app
    case AppPayment => p.PaymentPl?
    case AppContractTpl => p.ContractTplPl?
    case AppContractDeploy => p.ContractDeployPl?
    case AppContractInvokeRequest => p.InvokeRequestPl?
    case AppSignature => p.SignaturePl?
    case AppText => p.OpaquePayload? && p.kind == AppText
    case AppContractInvoke => p.OpaquePayload? && p.kind == AppContractInvoke
    case AppConfig => p.OpaquePayload? && p.kind == AppConfig
    case AppVote => p.OpaquePayload? && p.kind == AppVote
    case OpMediatorCreate => p.OpaquePayload? && p.kind == OpMediatorCreate
    case _ => p.NilPayload?
  }

  // ---------------------------------------------------------------------------
  // Headers and units

  /** Header.Hash: the RLP hash of a copy whose Authors and Witness are cleared. */
  function HeaderHash(c: Codec, h: Header): (r: Hash)
    ensures h.authors == None && h.witnesses == [] ==> r == c.headerRlpHash(h)
  {
    c.headerRlpHash(h.(authors := None, witnesses := []))
  }

  /** Two headers that differ only in their authentication fields hash equal. */
  lemma HeaderHashIgnoresAuthentication(c: Codec, h1: Header, h2: Header)
    requires h1.(authors := None, witnesses := []) == h2.(authors := None, witnesses := [])
    ensures HeaderHash(c, h1) == HeaderHash(c, h2)
  {
  }

  /** HeaderEqual compares the first two parent hashes as an unordered pair.
      The Go code indexes both lists in the order its && operators evaluate
      them, so it panics (None) on a list too short for an index it reaches; a
      single old parent that matches neither new parent gives false without
      reaching its second index. */
  function HeaderEqual(oldh: Header, newh: Header): (r: Option<bool>)
    ensures r.None? <==> |oldh.parentsHash| == 0 || |newh.parentsHash| < 2
                         || (|oldh.parentsHash| == 1
                             && (oldh.parentsHash[0] == newh.parentsHash[0] || oldh.parentsHash[0] == newh.parentsHash[1]))
    ensures r.Some? && |oldh.parentsHash| == 1 ==> r == Some(false)
    ensures |oldh.parentsHash| >= 2 && |newh.parentsHash| >= 2 ==>
              r.Some? && (r.value <==> multiset{oldh.parentsHash[0], oldh.parentsHash[1]}
                                       == multiset{newh.parentsHash[0], newh.parentsHash[1]})
  {
    var o, n := oldh.parentsHash, newh.parentsHash;
    if |o| == 0 || |n| == 0 then None
    else if o[0] == n[0] && (|o| < 2 || |n| < 2) then None
    else if o[0] == n[0] && o[1] == n[1] then Some(true)
    else if |n| < 2 then None
    else if o[0] == n[1] && |o| < 2 then None
    else
      var r := o[0] == n[1] && o[1] == n[0];
      assert |o| >= 2 && !(o[0] == n[0] && o[1] == n[1]) && !r ==>
               (o[0] in multiset{o[0], o[1]} && multiset{o[0], o[1]}[o[0]] != multiset{n[0], n[1]}[o[0]])
               || multiset{o[0], o[1]}[o[1]] != multiset{n[0], n[1]}[o[1]];
      Some(r)
  }

  /** ContainsParent: some parent's text form equals pHash's. */
  function ContainsParent(c: Codec, parents: seq<Hash>, pHash: Hash): (r: bool)
    ensures r <==> exists k :: 0 <= k < |parents| && c.hashString(parents[k]) == c.hashString(pHash)
  {
    if |parents| == 0 then false
    else if c.hashString(parents[0]) == c.hashString(pHash) then true
    else
      var r := ContainsParent(c, parents[1..], pHash);
      assert forall k :: 1 <= k < |parents| ==> parents[k] == parents[1..][k - 1];
      r
  }

  ghost predicate HashStringInjective(c: Codec)
  {
    forall h1: Hash, h2: Hash :: c.hashString(h1) == c.hashString(h2) ==> h1 == h2
  }

  /** When the text form of a hash determines the hash, ContainsParent is membership. */
  lemma ContainsParentIsMembership(c: Codec, parents: seq<Hash>, pHash: Hash)
    requires HashStringInjective(c)
    ensures ContainsParent(c, parents, pHash) <==> pHash in parents
  {
    if pHash in parents {
      var k :| 0 <= k < |parents| && parents[k] == pHash;
      assert c.hashString(parents[k]) == c.hashString(pHash);
    }
  }

  /** Unit.Transaction: the first transaction whose TxHash is hash, if any. */
  function UnitTransaction(txs: seq<Transaction>, hash: Hash): (r: Option<Transaction>)
    ensures r.Some? ==> exists k :: 0 <= k < |txs| && txs[k] == r.value && txs[k].txHash == hash
                                    && forall j :: 0 <= j < k ==> txs[j].txHash != hash
    ensures r.None? <==> forall k :: 0 <= k < |txs| ==> txs[k].txHash != hash
  {
    if |txs| == 0 then None
    else if txs[0].txHash == hash then Some(txs[0])
    else
      var r := UnitTransaction(txs[1..], hash);
      assert forall k :: 1 <= k < |txs| ==> txs[k] == txs[1..][k - 1];
      if r.Some? then
        var k :| 0 <= k < |txs[1..]| && txs[1..][k] == r.value && txs[1..][k].txHash == hash
                 && forall j :: 0 <= j < k ==> txs[1..][j].txHash != hash;
        assert txs[k + 1] == r.value;
        r
      else r
  }

  /** Unit.IsEmpty: a nil unit or one without transactions. */
  function IsEmpty(u: Option<Unit>): (r: bool)
    ensures r <==> u == None || u.value.txs == []
  {
    u.None? || |u.value.txs| <= 0
  }

  /** An empty unit holds no transaction; a non-empty one yields its first
      transaction when asked for that transaction's hash. */
  lemma IsEmptyHasNoTransaction(u: Unit, h: Hash)
    ensures IsEmpty(Some(u)) ==> UnitTransaction(u.txs, h).None?
    ensures !IsEmpty(Some(u)) ==> UnitTransaction(u.txs, u.txs[0].txHash) == Some(u.txs[0])
  {
  }

  /** ErrUnit.Error: the codes -1 .. -6 have fixed messages, every other value the
      empty string. ErrUnit is a float64 in Go, hence the real argument. */
  function ErrUnitMessage(e: real): (r: string)
    ensures r != "" <==> e in {-1.0, -2.0, -3.0, -4.0, -5.0, -6.0}
  {
    if e == -1.0 then "Unit size error"
    else if e == -2.0 then "Unit signature error"
    else if e == -3.0 then "Unit header save error"
    else if e == -4.0 then "Unit tx size error"
    else if e == -5.0 then "Save create token transaction error"
    else if e == -6.0 then "Save config transaction error"
    else ""
  }

  /** The six error codes have six different messages. */
  lemma ErrUnitMessagesDistinct(e1: real, e2: real)
    requires ErrUnitMessage(e1) != "" && e1 != e2
    ensures ErrUnitMessage(e1) != ErrUnitMessage(e2)
  {
  }

  // ---------------------------------------------------------------------------
  // FillBytes

  /** What FillBytes produces: short data right-aligned behind zero bytes, long
      data cut to its first lenth bytes. */
  function Filled(data: Bytes, lenth: nat): (r: Bytes)
    ensures |r| == lenth
  {
    if |data| < lenth then Zeros(lenth - |data|) + data else data[..lenth]
  }

  /** FillBytes fills a fresh lenth-byte buffer (lenth is a uint8 in Go). */
  method FillBytes(data: Bytes, lenth: nat) returns (r: Bytes)
    requires lenth < 256
    ensures |r| == lenth
    ensures |data| < lenth ==> r[..lenth - |data|] == Zeros(lenth - |data|) && r[lenth - |data|..] == data
    ensures |data| >= lenth ==> r == data[..lenth]
    ensures r == Filled(data, lenth)
  {
    var newBytes := new byte[lenth];
    if |data| < lenth {
      var pad := lenth - |data|;
      var k := 0;
      while k < lenth
        invariant 0 <= k <= lenth
        invariant forall j :: 0 <= j < k ==> newBytes[j] == 0
      {
        newBytes[k] := 0;
        k := k + 1;
      }
      var i := 0;
      while i < |data|
        invariant 0 <= i <= |data|
        invariant forall j :: 0 <= j < pad ==> newBytes[j] == 0
        invariant forall j :: 0 <= j < i ==> newBytes[pad + j] == data[j]
      {
        newBytes[pad + i] := data[i];
        i := i + 1;
      }
      r := newBytes[..];
      assert r[..pad] == Zeros(pad);
      assert r[pad..] == data;
      assert r == Zeros(pad) + data;
    } else {
      r := data[..lenth];
    }
  }

  /** Left padding with zeros does not change the big-endian value, so decoding a
      filled field gives the value of the original bytes when they fit. */
  lemma {:induction false} BigEndianOfFilled(data: Bytes, lenth: nat)
    requires |data| <= lenth
    ensures BigEndian(Filled(data, lenth)) == BigEndian(data)
  {
    if |data| == lenth {
      assert Filled(data, lenth) == data;
    } else if |data| == 0 {
      assert Filled(data, lenth) == Zeros(lenth);
      ZerosValue(lenth);
    } else {
      var f := Filled(data, lenth);
      var d := data[..|data| - 1];
      assert f[..lenth - 1] == Filled(d, lenth - 1);
      BigEndianOfFilled(d, lenth - 1);
    }
  }

  lemma {:induction false} ZerosValue(n: nat)
    ensures BigEndian(Zeros(n)) == 0
  {
    if n > 0 {
      assert Zeros(n)[..n - 1] == Zeros(n - 1);
      ZerosValue(n - 1);
    }
  }

  // ---------------------------------------------------------------------------
  // Parsing payloads out of a decoded RLP value

  /** A value produced by decoding RLP into interface{}: a byte string or a list. */
  datatype RlpItem = RBytes(bytes: Bytes) | RList(items: seq<RlpItem>)

  /** Why a parse failed; Panic stands for an unchecked type assertion that fails. */
  datatype ParseError =
    | NotAList
    | WrongFieldCount
    | InvalidInputs
    | InvalidInput
    | InvalidOutpoint
    | InvalidOutpointIndex
    | InvalidSignature
    | InvalidExtra
    | InvalidOutputs
    | InvalidOutput
    | InvalidOutputValue
    | InvalidOutputScript
    | InvalidAssetId
    | InvalidUniqueId
    | InvalidChainId
    | InvalidLockTime
    | InvalidField(index: nat)
    | Panic

  /** One input: [[txHash, msgIndex, outIndex], signature, extra]. The hash field
      is asserted to be bytes without a check, so a list there panics. */
  function InputOf(c: Codec, item: RlpItem): (r: Result<Input, ParseError>)
  {
    if !item.RList? || |item.items| != 3 then Err(InvalidInput)
    else
      var op := item.items[0];
      if !op.RList? || |op.items| != 3 then Err(InvalidOutpoint)
      else if !op.items[0].RBytes? then Err(Panic)
      else if !op.items[1].RBytes? || !op.items[2].RBytes? then Err(InvalidOutpointIndex)
      else if !item.items[1].RBytes? then Err(InvalidSignature)
      else if !item.items[2].RBytes? then Err(InvalidExtra)
      else
        Ok(Input(OutPoint(c.hashFromBytes(op.items[0].bytes),
                          BigEndian(Filled(op.items[1].bytes, 4)),
                          BigEndian(Filled(op.items[2].bytes, 4))),
                 item.items[1].bytes, item.items[2].bytes))
  }

  /** One output: [value, pkScript, [assetId, uniqueId, chainId]]. */
  function OutputOf(c: Codec, item: RlpItem): (r: Result<Output, ParseError>)
  {
    if !item.RList? || |item.items| != 3 then Err(InvalidOutput)
    else if !item.items[0].RBytes? then Err(InvalidOutputValue)
    else if !item.items[1].RBytes? then Err(InvalidOutputScript)
    else
      var a := item.items[2];
      if !a.RList? || |a.items| != 3 then Err(InvalidOutputScript)
      else if !a.items[0].RBytes? then Err(InvalidAssetId)
      else if !a.items[1].RBytes? then Err(InvalidUniqueId)
      else if !a.items[2].RBytes? then Err(InvalidChainId)
      else
        Ok(Output(BigEndian(Filled(item.items[0].bytes, 8)), item.items[1].bytes,
                  Asset(c.idFromBytes(a.items[0].bytes), c.idFromBytes(a.items[1].bytes),
                        BigEndian(Filled(a.items[2].bytes, 8)))))
  }

  /** Parsing a list element by element, stopping at the first failure: the
      elements parsed before it, and the failure. */
  function ParseAll<T>(items: seq<RlpItem>, f: RlpItem -> Result<T, ParseError>): (r: (seq<T>, Option<ParseError>))
    ensures |r.0| <= |items|
    ensures r.1.None? ==> |r.0| == |items|
  {
    if |items| == 0 then ([], None)
    else
      match f(items[0])
      case Err(e) => ([], Some(e))
      case Ok(x) =>
        var rest := ParseAll(items[1..], f);
        ([x] + rest.0, rest.1)
  }

  /** Each element parsed so far is what the element parser made of its item. */
  lemma {:induction false} ParseAllElems<T>(items: seq<RlpItem>, f: RlpItem -> Result<T, ParseError>)
    ensures forall k :: 0 <= k < |ParseAll(items, f).0| ==> f(items[k]) == Ok(ParseAll(items, f).0[k])
  {
    if |items| > 0 && f(items[0]).Ok? {
      ParseAllElems(items[1..], f);
      assert forall k :: 1 <= k < |items| ==> items[k] == items[1..][k - 1];
    }
  }

  lemma {:induction false} ParseAllOk<T>(items: seq<RlpItem>, f: RlpItem -> Result<T, ParseError>)
    ensures ParseAll(items, f).1.None? <==> forall k :: 0 <= k < |items| ==> f(items[k]).Ok?
  {
    if |items| > 0 {
      ParseAllOk(items[1..], f);
      assert forall k :: 1 <= k < |items| ==> items[k] == items[1..][k - 1];
    }
  }

  /** PaymentPayload.ExtractFrInterface: the receiver after the call and the
      error. The receiver's inputs (and then outputs) are replaced by what was
      parsed before any failure, so a failed call can leave it changed. */
  function PaymentExtraction(c: Codec, pl: PaymentPayload, data: RlpItem): (PaymentPayload, Option<ParseError>)
  {
    if !data.RList? then (pl, Some(NotAList))
    else if |data.items| != 3 then (pl, Some(WrongFieldCount))
    else if !data.items[0].RList? then (pl, Some(InvalidInputs))
    else
      var ins := ParseAll(data.items[0].items, i => InputOf(c, i));
      var pl1 := pl.(inputs := ins.0);
      if ins.1.Some? then (pl1, ins.1)
      else if !data.items[1].RList? then (pl1, Some(InvalidOutputs))
      else
        var outs := ParseAll(data.items[1].items, o => OutputOf(c, o));
        var pl2 := pl1.(outputs := outs.0);
        if outs.1.Some? then (pl2, outs.1)
        else if !data.items[2].RBytes? then (pl2, Some(InvalidLockTime))
        else (pl2.(lockTime := BigEndian(Filled(data.items[2].bytes, 4))), None)
  }

  /** The shape ExtractFrInterface accepts, stated independently of its steps. */
  ghost predicate PaymentShaped(data: RlpItem)
  {
    && data.RList? && |data.items| == 3
    && data.items[0].RList?
    && (forall i :: 0 <= i < |data.items[0].items| ==> InputShaped(data.items[0].items[i]))
    && data.items[1].RList?
    && (forall o :: 0 <= o < |data.items[1].items| ==> OutputShaped(data.items[1].items[o]))
    && data.items[2].RBytes?
  }

  predicate AllBytes(items: seq<RlpItem>)
  {
    forall k :: 0 <= k < |items| ==> items[k].RBytes?
  }

  predicate InputShaped(item: RlpItem)
  {
    && item.RList? && |item.items| == 3
    && item.items[0].RList? && |item.items[0].items| == 3 && AllBytes(item.items[0].items)
    && item.items[1].RBytes? && item.items[2].RBytes?
  }

  predicate OutputShaped(item: RlpItem)
  {
    && item.RList? && |item.items| == 3
    && item.items[0].RBytes? && item.items[1].RBytes?
    && item.items[2].RList? && |item.items[2].items| == 3 && AllBytes(item.items[2].items)
  }

  lemma InputShapedOk(c: Codec, item: RlpItem)
    ensures InputOf(c, item).Ok? <==> InputShaped(item)
  {
  }

  lemma OutputShapedOk(c: Codec, item: RlpItem)
    ensures OutputOf(c, item).Ok? <==> OutputShaped(item)
  {
  }

  /** The input list parses exactly when every input is input-shaped. */
  lemma InputsParseOk(c: Codec, items: seq<RlpItem>)
    ensures ParseAll(items, i => InputOf(c, i)).1.None? <==> forall k :: 0 <= k < |items| ==> InputShaped(items[k])
  {
    ParseAllOk(items, i => InputOf(c, i));
    forall k | 0 <= k < |items| ensures InputOf(c, items[k]).Ok? <==> InputShaped(items[k]) {
      InputShapedOk(c, items[k]);
    }
  }

  /** The output list parses exactly when every output is output-shaped. */
  lemma OutputsParseOk(c: Codec, items: seq<RlpItem>)
    ensures ParseAll(items, o => OutputOf(c, o)).1.None? <==> forall k :: 0 <= k < |items| ==> OutputShaped(items[k])
  {
    ParseAllOk(items, o => OutputOf(c, o));
    forall k | 0 <= k < |items| ensures OutputOf(c, items[k]).Ok? <==> OutputShaped(items[k]) {
      OutputShapedOk(c, items[k]);
    }
  }

  /** ExtractFrInterface succeeds exactly on payment-shaped data. */
  lemma PaymentExtractionOk(c: Codec, pl: PaymentPayload, data: RlpItem)
    ensures PaymentExtraction(c, pl, data).1.None? <==> PaymentShaped(data)
  {
    if data.RList? && |data.items| == 3 && data.items[0].RList? {
      InputsParseOk(c, data.items[0].items);
      if data.items[1].RList? {
        OutputsParseOk(c, data.items[1].items);
      }
    }
  }

  /** On payment-shaped data the inputs and outputs correspond one to one, in
      order, to the listed ones, with indices and amounts read as big-endian
      numbers of their filled fields. */
  lemma PaymentExtractionFields(c: Codec, pl: PaymentPayload, data: RlpItem)
    requires PaymentShaped(data)
    ensures var r := PaymentExtraction(c, pl, data).0;
      && |r.inputs| == |data.items[0].items|
      && |r.outputs| == |data.items[1].items|
      && (forall k :: 0 <= k < |r.inputs| ==>
            var op := data.items[0].items[k].items[0].items;
            && r.inputs[k].previousOutPoint.messageIndex == BigEndian(Filled(op[1].bytes, 4))
            && r.inputs[k].previousOutPoint.outIndex == BigEndian(Filled(op[2].bytes, 4))
            && r.inputs[k].signatureScript == data.items[0].items[k].items[1].bytes)
      && (forall k :: 0 <= k < |r.outputs| ==>
            r.outputs[k].value == BigEndian(Filled(data.items[1].items[k].items[0].bytes, 8))
            && r.outputs[k].pkScript == data.items[1].items[k].items[1].bytes)
      && r.lockTime == BigEndian(Filled(data.items[2].bytes, 4))
  {
    PaymentExtractionOk(c, pl, data);
    InputsParsedFields(c, data.items[0].items);
    OutputsParsedFields(c, data.items[1].items);
  }

  /** A list of input-shaped items parses to one input per item, its fields
      read from the item. */
  lemma InputsParsedFields(c: Codec, items: seq<RlpItem>)
    requires forall k :: 0 <= k < |items| ==> InputShaped(items[k])
    ensures var r := ParseAll(items, i => InputOf(c, i)).0;
      && |r| == |items|
      && (forall k :: 0 <= k < |r| ==>
            InputShaped(items[k]) &&
            var op := items[k].items[0].items;
            && r[k].previousOutPoint.messageIndex == BigEndian(Filled(op[1].bytes, 4))
            && r[k].previousOutPoint.outIndex == BigEndian(Filled(op[2].bytes, 4))
            && r[k].signatureScript == items[k].items[1].bytes)
  {
    InputsParseOk(c, items);
    ParseAllElems(items, i => InputOf(c, i));
  }

  /** A list of output-shaped items parses to one output per item, its value
      and script read from the item. */
  lemma OutputsParsedFields(c: Codec, items: seq<RlpItem>)
    requires forall k :: 0 <= k < |items| ==> OutputShaped(items[k])
    ensures var r := ParseAll(items, o => OutputOf(c, o)).0;
      && |r| == |items|
      && (forall k :: 0 <= k < |r| ==>
            OutputShaped(items[k]) &&
            r[k].value == BigEndian(Filled(items[k].items[0].bytes, 8))
            && r[k].pkScript == items[k].items[1].bytes)
  {
    OutputsParseOk(c, items);
    ParseAllElems(items, o => OutputOf(c, o));
  }

  /** One of ExtractFrInterface's loops: parse element after element, appending
      to the list being built, and stop at the first failure. */
  method ParseList<T>(items: seq<RlpItem>, f: RlpItem -> Result<T, ParseError>) returns (xs: seq<T>, err: Option<ParseError>)
    ensures (xs, err) == ParseAll(items, f)
  {
    xs := [];
    var k := 0;
    assert items[0..] == items;
    while k < |items|
      invariant 0 <= k <= |items|
      invariant ParseAll(items, f).0 == xs + ParseAll(items[k..], f).0
      invariant ParseAll(items, f).1 == ParseAll(items[k..], f).1
    {
      var rest := items[k..];
      assert rest[1..] == items[k + 1..];
      assert rest[0] == items[k];
      var one := f(items[k]);
      if one.Err? {
        assert ParseAll(rest, f) == ([], Some(one.error));
        assert xs + [] == xs;
        return xs, Some(one.error);
      }
      assert ParseAll(rest, f).0 == [one.value] + ParseAll(items[k + 1..], f).0;
      assert xs + ([one.value] + ParseAll(items[k + 1..], f).0) == (xs + [one.value]) + ParseAll(items[k + 1..], f).0;
      xs := xs + [one.value];
      k := k + 1;
    }
    assert items[k..] == [];
    assert xs + [] == xs;
    err := None;
  }

  /** PaymentPayload.ExtractFrInterface on a receiver: the inputs are replaced
      before the outputs are read, as in the Go code. */
  method ExtractPayment(c: Codec, pl: PaymentPayload, data: RlpItem) returns (r: PaymentPayload, err: Option<ParseError>)
    ensures (r, err) == PaymentExtraction(c, pl, data)
  {
    r := pl;
    if !data.RList? { return r, Some(NotAList); }
    if |data.items| != 3 { return r, Some(WrongFieldCount); }
    if !data.items[0].RList? { return r, Some(InvalidInputs); }
    var ins, e1 := ParseList(data.items[0].items, i => InputOf(c, i));
    r := r.(inputs := ins);
    if e1.Some? { return r, e1; }
    if !data.items[1].RList? { return r, Some(InvalidOutputs); }
    var outs, e2 := ParseList(data.items[1].items, o => OutputOf(c, o));
    r := r.(outputs := outs);
    if e2.Some? { return r, e2; }
    if !data.items[2].RBytes? { return r, Some(InvalidLockTime); }
    var lock := FillBytes(data.items[2].bytes, 4);
    r := r.(lockTime := BigEndian(lock));
    err := None;
  }

  /** ContractTplPayload.ExtractFrInterface: six byte fields, all copied (memory
      as a 2-byte big-endian number); on any failure the receiver is unchanged. */
  function ExtractTpl(tpl: ContractTplPayload, data: RlpItem): (r: (ContractTplPayload, Option<ParseError>))
    ensures r.1.None? <==> data.RList? && |data.items| == 6 && AllBytes(data.items)
    ensures r.1.Some? ==> r.0 == tpl
    ensures r.1.None? ==>
      r.0 == ContractTplPayload(data.items[0].bytes, BytesToString(data.items[1].bytes),
                                BytesToString(data.items[2].bytes), BytesToString(data.items[3].bytes),
                                BigEndian(Filled(data.items[4].bytes, 2)), data.items[5].bytes)
  {
    if !data.RList? then (tpl, Some(NotAList))
    else if |data.items| != 6 then (tpl, Some(WrongFieldCount))
    else
      var f := data.items;
      var bad := FirstNonBytes(f, 0);
      if bad.Some? then (tpl, Some(InvalidField(bad.value)))
      else
        (ContractTplPayload(f[0].bytes, BytesToString(f[1].bytes), BytesToString(f[2].bytes),
                            BytesToString(f[3].bytes), BigEndian(Filled(f[4].bytes, 2)), f[5].bytes), None)
  }

  /** The first field at or after `from` that is not a byte string. */
  function FirstNonBytes(items: seq<RlpItem>, from: nat): (r: Option<nat>)
    requires from <= |items|
    ensures r.None? <==> forall k :: from <= k < |items| ==> items[k].RBytes?
    ensures r.Some? ==> from <= r.value < |items| && !items[r.value].RBytes?
                        && forall k :: from <= k < r.value ==> items[k].RBytes?
    decreases |items| - from
  {
    if from == |items| then None
    else if !items[from].RBytes? then Some(from)
    else FirstNonBytes(items, from + 1)
  }

  /** ContractDeployPayload.ExtractFrInterface: eight fields of which the first
      three must be byte strings; only TemplateId, ContractId and Name are set. */
  function ExtractDeploy(dep: ContractDeployPayload, data: RlpItem): (r: (ContractDeployPayload, Option<ParseError>))
    ensures r.1.None? <==> data.RList? && |data.items| == 8 && AllBytes(data.items[..3])
    ensures r.1.Some? ==> r.0 == dep
    ensures r.1.None? ==>
      r.0 == dep.(templateId := data.items[0].bytes, contractId := data.items[1].bytes,
                  name := BytesToString(data.items[2].bytes))
  {
    if !data.RList? then (dep, Some(NotAList))
    else if |data.items| != 8 then (dep, Some(WrongFieldCount))
    else
      var f := data.items;
      var bad := FirstNonBytes(f[..3], 0);
      if bad.Some? then (dep, Some(InvalidField(bad.value)))
      else (dep.(templateId := f[0].bytes, contractId := f[1].bytes, name := BytesToString(f[2].bytes)), None)
  }

  // ---------------------------------------------------------------------------
  // State version keys

  const VersionSeparator: string := "^*^"

  /** StateVersion.ParseStringKey as written: it checks the key and decodes the
      version, but assigns the decoded value to its local receiver pointer, so the
      caller's version is returned unchanged. */
  function ParseStringKey(c: Codec, version: StateVersion, key: string): (r: (bool, StateVersion))
    ensures r.1 == version
    ensures r.0 <==> |Split(key, VersionSeparator)| == 3
                     && c.decodeVersion(Split(key, VersionSeparator)[2]).Some?
  {
    var ss := Split(key, VersionSeparator);
    if |ss| != 3 then (false, version)
    else match c.decodeVersion(ss[2])
      case None => (false, version)
      case Some(_) => (true, version)
  }

  /** What the method evidently means to do: store the decoded version. */
  function ParseStringKeyIntended(c: Codec, version: StateVersion, key: string): (r: (bool, StateVersion))
    ensures r.0 <==> |Split(key, VersionSeparator)| == 3
                     && c.decodeVersion(Split(key, VersionSeparator)[2]).Some?
    ensures r.0 ==> Some(r.1) == c.decodeVersion(Split(key, VersionSeparator)[2])
    ensures !r.0 ==> r.1 == version
  {
    var ss := Split(key, VersionSeparator);
    if |ss| != 3 then (false, version)
    else match c.decodeVersion(ss[2])
      case None => (false, version)
      case Some(v) => (true, v)
  }

  /** The discrepancy: whenever the key holds a version other than the caller's,
      ParseStringKey reports success yet the caller does not receive it. */
  lemma ParseStringKeyLosesVersion(c: Codec, version: StateVersion, key: string)
    requires ParseStringKeyIntended(c, version, key).0
    requires ParseStringKeyIntended(c, version, key).1 != version
    ensures ParseStringKey(c, version, key).0
    ensures ParseStringKey(c, version, key).1 != ParseStringKeyIntended(c, version, key).1
  {
  }
}
