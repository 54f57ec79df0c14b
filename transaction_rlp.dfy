// The RLP shape of a transaction (dag/modules/transaction_rlp.go): each message
// is carried as its App tag and the RLP bytes of its payload, and decoding picks
// the payload type from the tag.

module TransactionRlp {
  import opened Common
  import opened Modules

  datatype MessageTemp = MessageTemp(app: MessageType, data: Bytes)

  datatype TransactionTemp = TransactionTemp(txHash: Hash, txId: Hash, messages: seq<MessageTemp>)

  /** The tags temp2Tx knows a payload type for. */
  predicate KnownApp(app: MessageType)
  {
    app in {AppPayment, AppText, AppContractInvokeRequest, AppContractInvoke, AppContractDeploy,
            AppConfig, AppContractTpl, AppSignature, AppVote, OpMediatorCreate}
  }

  /** The payload temp2Tx builds for one temp message: the tag's payload type
      decoded from the bytes (a decode error is ignored), or nil for an unknown tag. */
  function PayloadFor(c: Codec, m: MessageTemp): Payload
  {
    if KnownApp(m.app) then c.decodePayload(m.app, m.data) else NilPayload
  }

  /** What tx2Temp produces. */
  function TempOf(c: Codec, tx: Transaction): TransactionTemp
  {
    TransactionTemp(tx.txHash, tx.txId,
      seq(|tx.messages|, i requires 0 <= i < |tx.messages| =>
        MessageTemp(tx.messages[i].app, c.encodePayload(tx.messages[i].payload))))
  }

  /** What temp2Tx leaves in the transaction it is given. */
  function TxFromTemp(c: Codec, temp: TransactionTemp, tx: Transaction): Transaction
  {
    Transaction(temp.txHash, temp.txId,
      tx.messages + seq(|temp.messages|, i requires 0 <= i < |temp.messages| =>
        Message(temp.messages[i].app, PayloadFor(c, temp.messages[i]))))
  }

  /** tx2Temp: keeps TxHash and TxId and emits one temp message per message, with
      the same App in the same order and the payload's RLP bytes. */
  method Tx2Temp(c: Codec, tx: Transaction) returns (temp: TransactionTemp)
    ensures temp.txHash == tx.txHash && temp.txId == tx.txId
    ensures |temp.messages| == |tx.messages|
    ensures forall i :: 0 <= i < |tx.messages| ==>
              temp.messages[i] == MessageTemp(tx.messages[i].app, c.encodePayload(tx.messages[i].payload))
    ensures temp == TempOf(c, tx)
  {
    temp := TransactionTemp(tx.txHash, tx.txId, []);
    var k := 0;
    while k < |tx.messages|
      invariant 0 <= k <= |tx.messages|
      invariant temp.txHash == tx.txHash && temp.txId == tx.txId && |temp.messages| == k
      invariant forall i :: 0 <= i < k ==>
                  temp.messages[i] == MessageTemp(tx.messages[i].app, c.encodePayload(tx.messages[i].payload))
    {
      var m := tx.messages[k];
      var m1 := MessageTemp(m.app, c.encodePayload(m.payload));
      temp := temp.(messages := temp.messages + [m1]);
      k := k + 1;
    }
  }

  /** temp2Tx: overwrites TxId and TxHash and appends (does not replace) one
      message per temp message, in order, with the same App. */
  method Temp2Tx(c: Codec, temp: TransactionTemp, tx: Transaction) returns (r: Transaction)
    ensures r.txId == temp.txId && r.txHash == temp.txHash
    ensures |r.messages| == |tx.messages| + |temp.messages|
    ensures r.messages[..|tx.messages|] == tx.messages
    ensures forall i :: 0 <= i < |temp.messages| ==>
              r.messages[|tx.messages| + i] == Message(temp.messages[i].app, PayloadFor(c, temp.messages[i]))
    ensures r == TxFromTemp(c, temp, tx)
  {
    r := tx.(txId := temp.txId, txHash := temp.txHash);
    var k := 0;
    var n := |tx.messages|;
    while k < |temp.messages|
      invariant 0 <= k <= |temp.messages|
      invariant r.txId == temp.txId && r.txHash == temp.txHash
      invariant |r.messages| == n + k && r.messages[..n] == tx.messages
      invariant forall i :: 0 <= i < k ==>
                  r.messages[n + i] == Message(temp.messages[i].app, PayloadFor(c, temp.messages[i]))
    {
      var m := temp.messages[k];
      var payload: Payload;
      if m.app == AppPayment || m.app == AppText || m.app == AppContractInvokeRequest
         || m.app == AppContractInvoke || m.app == AppContractDeploy || m.app == AppConfig
         || m.app == AppContractTpl || m.app == AppSignature || m.app == AppVote
         || m.app == OpMediatorCreate {
        payload := c.decodePayload(m.app, m.data);
      } else {
        payload := NilPayload;
      }
      r := r.(messages := r.messages + [Message(m.app, payload)]);
      k := k + 1;
    }
  }

  /** A temp message whose tag is unknown decodes to a message with a nil payload. */
  lemma UnknownAppGivesNilPayload(c: Codec, temp: TransactionTemp, tx: Transaction, i: nat)
    requires i < |temp.messages| && !KnownApp(temp.messages[i].app)
    ensures TxFromTemp(c, temp, tx).messages[|tx.messages| + i] == Message(temp.messages[i].app, NilPayload)
  {
  }

  /** Transaction.DecodeRLP: a failed raw read is the only error; the inner decode
      of the temp form is not checked, so from any raw bytes the transaction is
      rebuilt from whatever the decoder yields. */
  function DecodeRlp(c: Codec, raw: Option<Bytes>, decodeTemp: Bytes -> TransactionTemp, tx: Transaction): (r: (bool, Transaction))
    ensures r.0 <==> raw.Some?
    ensures raw.None? ==> r.1 == tx
  {
    match raw
    case None => (false, tx)
    case Some(b) => (true, TxFromTemp(c, decodeTemp(b), tx))
  }

  /** Transaction.EncodeRLP: the RLP encoding of tx2Temp's result. */
  function EncodeRlp(c: Codec, encodeTemp: TransactionTemp -> Bytes, tx: Transaction): Bytes
  {
    encodeTemp(TempOf(c, tx))
  }

  /** EncodeRLP then DecodeRLP into an empty transaction gives the transaction
      back, when the temp codec round-trips and the payloads do. */
  lemma EncodeDecodeRoundTrip(c: Codec, encodeTemp: TransactionTemp -> Bytes, decodeTemp: Bytes -> TransactionTemp, tx: Transaction)
    requires forall t :: decodeTemp(encodeTemp(t)) == t
    requires PayloadRoundTrips(c)
    requires forall i :: 0 <= i < |tx.messages| ==>
               KnownApp(tx.messages[i].app) && PayloadFits(tx.messages[i].app, tx.messages[i].payload)
    ensures DecodeRlp(c, Some(EncodeRlp(c, encodeTemp, tx)), decodeTemp, Transaction(ZeroHash(), ZeroHash(), [])) == (true, tx)
  {
    assert decodeTemp(encodeTemp(TempOf(c, tx))) == TempOf(c, tx);
    TempRoundTripWhole(c, tx);
  }

  function Apps(msgs: seq<Message>): (r: seq<MessageType>)
    ensures |r| == |msgs| && forall i :: 0 <= i < |msgs| ==> r[i] == msgs[i].app
  {
    seq(|msgs|, i requires 0 <= i < |msgs| => msgs[i].app)
  }

  /** Decoding tx2Temp(tx) into an empty transaction keeps TxId, TxHash and the
      sequence of App tags. */
  lemma TempRoundTrip(c: Codec, tx: Transaction)
    ensures var back := TxFromTemp(c, TempOf(c, tx), Transaction(ZeroHash(), ZeroHash(), []));
            back.txId == tx.txId && back.txHash == tx.txHash && Apps(back.messages) == Apps(tx.messages)
  {
    var back := TxFromTemp(c, TempOf(c, tx), Transaction(ZeroHash(), ZeroHash(), []));
    assert |back.messages| == |tx.messages|;
    assert forall i :: 0 <= i < |tx.messages| ==> back.messages[i].app == tx.messages[i].app;
  }

  /** The payload codec decodes its own encoding for a known tag whose payload has
      the tag's type. */
  ghost predicate PayloadRoundTrips(c: Codec)
  {
    forall app: MessageType, p: Payload :: KnownApp(app) && PayloadFits(app, p) ==>
      c.decodePayload(app, c.encodePayload(p)) == p
  }

  /** With a payload codec that round-trips, a transaction whose messages all have
      known tags and fitting payloads comes back whole. */
  lemma TempRoundTripWhole(c: Codec, tx: Transaction)
    requires PayloadRoundTrips(c)
    requires forall i :: 0 <= i < |tx.messages| ==>
               KnownApp(tx.messages[i].app) && PayloadFits(tx.messages[i].app, tx.messages[i].payload)
    ensures TxFromTemp(c, TempOf(c, tx), Transaction(ZeroHash(), ZeroHash(), [])) == tx
  {
    var back := TxFromTemp(c, TempOf(c, tx), Transaction(ZeroHash(), ZeroHash(), []));
    assert |back.messages| == |tx.messages|;
    forall i | 0 <= i < |tx.messages| ensures back.messages[i] == tx.messages[i] {
      var m := tx.messages[i];
      assert c.decodePayload(m.app, c.encodePayload(m.payload)) == m.payload;
    }
  }

  /** A decoder that always produces the tag's payload type. */
  ghost predicate DecoderFits(c: Codec)
  {
    forall app: MessageType, b: Bytes :: KnownApp(app) ==> PayloadFits(app, c.decodePayload(app, b))
  }

  /** Every message temp2Tx adds carries a payload of its tag's type (nil for an
      unknown tag), so later unchecked type assertions on those tags hold. */
  lemma TxFromTempFits(c: Codec, temp: TransactionTemp, tx: Transaction)
    requires DecoderFits(c)
    ensures forall i :: |tx.messages| <= i < |TxFromTemp(c, temp, tx).messages| ==>
              PayloadFits(TxFromTemp(c, temp, tx).messages[i].app, TxFromTemp(c, temp, tx).messages[i].payload)
  {
    var r := TxFromTemp(c, temp, tx);
    forall i | |tx.messages| <= i < |r.messages|
      ensures PayloadFits(r.messages[i].app, r.messages[i].payload)
    {
      var m := temp.messages[i - |tx.messages|];
      assert r.messages[i] == Message(m.app, PayloadFor(c, m));
      if !KnownApp(m.app) {
        assert m.app.AppContractTplRequest? || m.app.AppContractDeployRequest?
               || m.app.AppContractStopRequest? || m.app.AppOther?;
      }
    }
  }
}
