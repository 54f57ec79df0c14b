// Building a payment from the JSON of a raw transaction (ptnjson/rawtxjson.go):
// the conversion between PTN amounts (decimals) and dao (10^-8 PTN, uint64),
// and the mapping of JSON inputs and outputs to a payment payload.

module RawTxJson {
  import opened Common
  import opened Modules

  /** 10^8 dao make one PTN. */
  const DaoPerPtn: nat := 100000000

  /** decimal.IntPart: the integer part, truncated toward zero. */
  function Trunc(x: real): int
  {
    if x >= 0.0 then x.Floor else -((-x).Floor)
  }

  /** Ptn2Dao: the amount times 10^8, truncated toward zero, then the int64 to
      uint64 conversion, which keeps the low 64 bits. */
  function Ptn2Dao(ptnAmount: real): (r: nat)
    ensures r < U64
    ensures (r - Trunc(ptnAmount * DaoPerPtn as real)) % U64 == 0
    ensures 0 <= Trunc(ptnAmount * DaoPerPtn as real) < U64 ==> r == Trunc(ptnAmount * DaoPerPtn as real)
  {
    Trunc(ptnAmount * DaoPerPtn as real) % U64
  }

  /** Dao2Ptn: the exact quotient by 10^8. */
  function Dao2Ptn(amount: nat): (r: real)
    ensures r * DaoPerPtn as real == amount as real
    ensures r >= 0.0
  {
    amount as real / DaoPerPtn as real
  }

  /** Converting dao to PTN and back gives the amount, for every uint64. */
  lemma DaoRoundTrip(amount: nat)
    requires amount < U64
    ensures Ptn2Dao(Dao2Ptn(amount)) == amount
  {
    var x := Dao2Ptn(amount) * DaoPerPtn as real;
    assert x == amount as real;
    assert x.Floor == amount;
  }

  /** A non-negative amount below 2^64 dao converts to the largest whole number
      of dao it covers. */
  lemma Ptn2DaoTruncates(ptnAmount: real)
    requires 0.0 <= ptnAmount && ptnAmount * DaoPerPtn as real < U64 as real
    ensures Ptn2Dao(ptnAmount) as real <= ptnAmount * DaoPerPtn as real < Ptn2Dao(ptnAmount) as real + 1.0
  {
    var x := ptnAmount * DaoPerPtn as real;
    assert x.Floor < U64;
  }

  /** A negative amount is not rejected: one dao below zero becomes 2^64 - 1. */
  lemma NegativeAmountWraps()
    ensures Ptn2Dao(-1.0 / DaoPerPtn as real) == U64 - 1
  {
    var x := (-1.0 / DaoPerPtn as real) * DaoPerPtn as real;
    assert x == -1.0;
    assert Trunc(x) == -1;
  }

  // ---------------------------------------------------------------------------
  // ConvertRawTxJson2Paymsg

  /** One JSON input: the previous transaction's hash as hex text, the output
      index and the message index. */
  datatype TransactionInput = TransactionInput(txid: string, vout: nat, messageIndex: nat)

  /** One JSON output: an address and an amount in PTN. */
  datatype AddressAmt = AddressAmt(address: string, amount: real)

  /** RawTransactionGenParams. */
  datatype RawTransactionGenParams = RawTransactionGenParams(inputs: seq<TransactionInput>, outputs: seq<AddressAmt>, locktime: int)

  /** The library calls the conversion makes: Hash.SetHexString (whose error
      is ignored), common.StringToAddress and tokenengine.GenerateLockScript. */
  datatype JsonEnv = JsonEnv(
    hexToHash: string -> Hash,
    stringToAddress: string -> Option<Address>,
    lockScript: Address -> Bytes)

  /** The asset NewTxOut is given (nil), as the zero asset. */
  function NoAsset(): Asset
  {
    Asset(Zeros(16), Zeros(16), 0)
  }

  /** NewTxIn(NewOutPoint(hash, messageIndex, vout), nil). */
  function InputOf(env: JsonEnv, input: TransactionInput): Input
  {
    Input(OutPoint(env.hexToHash(input.txid), input.messageIndex, input.vout), [], [])
  }

  /** The output of a JSON output whose address parses. */
  function OutputOf(env: JsonEnv, addr: Address, out: AddressAmt): Output
  {
    Output(Ptn2Dao(out.amount), env.lockScript(addr), NoAsset())
  }

  /** The first output whose address does not parse, if any. */
  function FirstBadAddress(env: JsonEnv, outs: seq<AddressAmt>): (r: Option<nat>)
    ensures r.Some? ==> r.value < |outs| && env.stringToAddress(outs[r.value].address).None?
                        && forall k :: 0 <= k < r.value ==> env.stringToAddress(outs[k].address).Some?
    ensures r.None? ==> forall k :: 0 <= k < |outs| ==> env.stringToAddress(outs[k].address).Some?
  {
    if |outs| == 0 then None
    else if env.stringToAddress(outs[0].address).None? then Some(0)
    else match FirstBadAddress(env, outs[1..])
      case None => None
      case Some(k) => Some(k + 1)
  }

  /** The payload ConvertRawTxJson2Paymsg returns: one input per JSON input and
      one output per JSON output, in order, or the error of the first bad
      address. */
  function Paymsg(env: JsonEnv, raw: RawTransactionGenParams): Result<PaymentPayload, string>
  {
    match FirstBadAddress(env, raw.outputs)
    case Some(k) => Err("Invalid address:" + raw.outputs[k].address)
    case None =>
      Ok(PaymentPayload(
        seq(|raw.inputs|, k requires 0 <= k < |raw.inputs| => InputOf(env, raw.inputs[k])),
        seq(|raw.outputs|, k requires 0 <= k < |raw.outputs| =>
          OutputOf(env, env.stringToAddress(raw.outputs[k].address).value, raw.outputs[k])),
        0))
  }

  /** The conversion keeps the inputs' outpoints and the outputs' amounts in
      dao, in the JSON's order, and fails exactly when some address does not
      parse. */
  lemma PaymsgShape(env: JsonEnv, raw: RawTransactionGenParams)
    ensures Paymsg(env, raw).Err? <==> exists k :: 0 <= k < |raw.outputs| && env.stringToAddress(raw.outputs[k].address).None?
    ensures Paymsg(env, raw).Ok? ==>
              var p := Paymsg(env, raw).value;
              |p.inputs| == |raw.inputs| && |p.outputs| == |raw.outputs|
              && (forall k :: 0 <= k < |raw.inputs| ==>
                    p.inputs[k].previousOutPoint == OutPoint(env.hexToHash(raw.inputs[k].txid), raw.inputs[k].messageIndex, raw.inputs[k].vout))
              && (forall k :: 0 <= k < |raw.outputs| ==>
                    p.outputs[k].value == Ptn2Dao(raw.outputs[k].amount)
                    && p.outputs[k].pkScript == env.lockScript(env.stringToAddress(raw.outputs[k].address).value))
  {
  }

  method ConvertRawTxJson2Paymsg(env: JsonEnv, raw: RawTransactionGenParams) returns (r: Result<PaymentPayload, string>)
    ensures r == Paymsg(env, raw)
  {
    var inputs: seq<Input> := [];
    for i := 0 to |raw.inputs|
      invariant |inputs| == i
      invariant forall k :: 0 <= k < i ==> inputs[k] == InputOf(env, raw.inputs[k])
    {
      var preTxId := env.hexToHash(raw.inputs[i].txid);
      var txin := Input(OutPoint(preTxId, raw.inputs[i].messageIndex, raw.inputs[i].vout), [], []);
      inputs := inputs + [txin];
    }
    var outputs: seq<Output> := [];
    for i := 0 to |raw.outputs|
      invariant |outputs| == i
      invariant forall k :: 0 <= k < i ==> env.stringToAddress(raw.outputs[k].address).Some?
      invariant forall k :: 0 <= k < i ==> outputs[k] == OutputOf(env, env.stringToAddress(raw.outputs[k].address).value, raw.outputs[k])
    {
      var out := raw.outputs[i];
      var addr := env.stringToAddress(out.address);
      if addr.None? {
        return Err("Invalid address:" + out.address);
      }
      var lockScript := env.lockScript(addr.value);
      outputs := outputs + [Output(Ptn2Dao(out.amount), lockScript, NoAsset())];
    }
    assert FirstBadAddress(env, raw.outputs).None?;
    assert Paymsg(env, raw).value.inputs == inputs;
    assert Paymsg(env, raw).value.outputs == outputs;
    return Ok(PaymentPayload(inputs, outputs, 0));
  }

  /** ConvertRawTxJson2Tx: a new transaction with one payment message, whose
      payload is nil when the conversion failed (the error is dropped). */
  method ConvertRawTxJson2Tx(env: JsonEnv, raw: RawTransactionGenParams) returns (tx: Transaction)
    ensures |tx.messages| == 1 && tx.messages[0].app == AppPayment
    ensures tx.txHash == ZeroHash() && tx.txId == ZeroHash()
    ensures Paymsg(env, raw).Ok? ==> tx.messages[0].payload == PaymentPl(Paymsg(env, raw).value)
    ensures Paymsg(env, raw).Err? ==> tx.messages[0].payload == NilPayload
  {
    var pay := ConvertRawTxJson2Paymsg(env, raw);
    var payload := if pay.Ok? then PaymentPl(pay.value) else NilPayload;
    tx := Transaction(ZeroHash(), ZeroHash(), []);
    tx := tx.(messages := tx.messages + [Message(AppPayment, payload)]);
  }
}
