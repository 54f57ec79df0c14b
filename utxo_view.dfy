// The transaction pool's UTXO overlay (dag/txspool/utxoviewpoint.go): a map
// from outpoints to unspent outputs kept in front of the UTXO database, the
// same-unit spend-ordering rule used when fetching a unit's inputs, and the
// context-free sanity check of a transaction.

module UtxoView {
  import opened Common
  import opened Modules

  /** An unspent output as the overlay stores it. The flags stand for the state
      bits Spend and SetCoinBase change; their encoding is not part of this model. */
  datatype Utxo = Utxo(amount: nat, pkScript: Bytes, asset: Asset, flags: nat)

  /** new(modules.Utxo): the zero value. */
  function NewUtxo(): Utxo
  {
    Utxo(0, [], Asset([], [], 0), 0)
  }

  /** The calls the overlay makes into code that is not part of this model. */
  datatype UtxoEnv = UtxoEnv(
    isUnspendable: Bytes -> bool,      // tokenengine.IsUnspendable
    txHash: Transaction -> Hash,       // Transaction.Hash()
    spend: nat -> nat,                 // Utxo.Spend(), on the state bits
    setCoinBase: nat -> nat)           // Utxo.SetCoinBase(), on the state bits

  /** The UTXO database: a lookup fails exactly for an outpoint it does not hold. */
  class UtxoDb {
    var utxos: map<OutPoint, Utxo>

    constructor (initial: map<OutPoint, Utxo>)
      ensures utxos == initial
    {
      utxos := initial;
    }

    function GetUtxoEntry(o: OutPoint): (r: Option<Utxo>)
      reads this
      ensures r.Some? <==> o in utxos
      ensures r.Some? ==> r.value == utxos[o]
    {
      if o in utxos then Some(utxos[o]) else None
    }

    method SaveUtxoEntity(o: OutPoint, u: Utxo)
      modifies this
      ensures utxos == old(utxos)[o := u]
    {
      utxos := utxos[o := u];
    }
  }

  // ---------------------------------------------------------------------------
  // Registering outputs

  /** The entry addTxOut leaves for outpoint o: the existing entry (or a new one)
      with amount, script and asset taken from the output. */
  function Registered(env: UtxoEnv, entries: map<OutPoint, Utxo>, o: OutPoint, out: Output, isCoinbase: bool): Utxo
  {
    var base := if o in entries then entries[o] else NewUtxo();
    var u := base.(amount := out.value, pkScript := out.pkScript, asset := out.asset);
    if isCoinbase then u.(flags := env.setCoinBase(u.flags)) else u
  }

  /** The overlay after addTxOut: unchanged for an unspendable script. */
  function Inserted(env: UtxoEnv, entries: map<OutPoint, Utxo>, o: OutPoint, out: Output, isCoinbase: bool): map<OutPoint, Utxo>
  {
    if env.isUnspendable(out.pkScript) then entries
    else entries[o := Registered(env, entries, o, out, isCoinbase)]
  }

  predicate IsPayment(m: Message)
  {
    m.app == AppPayment && m.payload.PaymentPl?
  }

  /** The overlay after AddTxOut(tx, msgIdx, txoutIdx). */
  function OneOutAdded(env: UtxoEnv, entries: map<OutPoint, Utxo>, tx: Transaction, msgIdx: nat, txoutIdx: nat): map<OutPoint, Utxo>
  {
    if msgIdx < |tx.messages| && IsPayment(tx.messages[msgIdx])
       && txoutIdx < |tx.messages[msgIdx].payload.payment.outputs| then
      Inserted(env, entries, OutPoint(env.txHash(tx), msgIdx, txoutIdx),
               tx.messages[msgIdx].payload.payment.outputs[txoutIdx], false)
    else entries
  }

  /** The overlay after registering outputs 0 .. j-1 of message i. */
  function MsgOutsAdded(env: UtxoEnv, e: map<OutPoint, Utxo>, h: Hash, i: nat, outs: seq<Output>, j: nat): map<OutPoint, Utxo>
    requires j <= |outs|
  {
    if j == 0 then e
    else Inserted(env, MsgOutsAdded(env, e, h, i, outs, j - 1), OutPoint(h, i, j - 1), outs[j - 1], false)
  }

  /** The overlay after AddTxOuts has gone through messages 0 .. i-1. */
  function TxOutsAdded(env: UtxoEnv, e: map<OutPoint, Utxo>, tx: Transaction, i: nat): map<OutPoint, Utxo>
    requires i <= |tx.messages|
  {
    if i == 0 then e
    else
      var prev := TxOutsAdded(env, e, tx, i - 1);
      var m := tx.messages[i - 1];
      if IsPayment(m) then MsgOutsAdded(env, prev, env.txHash(tx), i - 1, m.payload.payment.outputs, |m.payload.payment.outputs|)
      else prev
  }

  /** o is present in both maps with the same entry, or in neither. */
  predicate Same(e1: map<OutPoint, Utxo>, e2: map<OutPoint, Utxo>, o: OutPoint)
  {
    (o in e1 <==> o in e2) && (o in e1 ==> e1[o] == e2[o])
  }

  /** The entry registered for a spendable output carries its value, script and asset. */
  predicate Carries(entries: map<OutPoint, Utxo>, o: OutPoint, out: Output)
  {
    o in entries && entries[o].amount == out.value && entries[o].pkScript == out.pkScript
    && entries[o].asset == out.asset
  }

  lemma {:induction false} MsgOutsAddedFacts(env: UtxoEnv, e: map<OutPoint, Utxo>, h: Hash, i: nat, outs: seq<Output>, j: nat)
    requires j <= |outs|
    ensures forall o: OutPoint :: (o.txHash != h || o.messageIndex != i || o.outIndex >= j) ==> Same(e, MsgOutsAdded(env, e, h, i, outs, j), o)
    ensures forall k :: 0 <= k < j && !env.isUnspendable(outs[k].pkScript) ==>
              Carries(MsgOutsAdded(env, e, h, i, outs, j), OutPoint(h, i, k), outs[k])
    ensures forall k :: 0 <= k < j && env.isUnspendable(outs[k].pkScript) ==>
              Same(e, MsgOutsAdded(env, e, h, i, outs, j), OutPoint(h, i, k))
  {
    if j > 0 {
      MsgOutsAddedFacts(env, e, h, i, outs, j - 1);
    }
  }

  /** AddTxOuts registers, for every payment message i and each of its outputs j
      with a spendable script, an entry at (tx hash, i, j) with that output's
      value, script and asset; every other outpoint keeps its entry. */
  lemma {:induction false} TxOutsAddedFacts(env: UtxoEnv, e: map<OutPoint, Utxo>, tx: Transaction, i: nat)
    requires i <= |tx.messages|
    ensures forall o: OutPoint :: (o.txHash != env.txHash(tx) || o.messageIndex >= i) ==> Same(e, TxOutsAdded(env, e, tx, i), o)
    ensures forall m, k :: (0 <= m < i && IsPayment(tx.messages[m]) && 0 <= k < |tx.messages[m].payload.payment.outputs|
              && !env.isUnspendable(tx.messages[m].payload.payment.outputs[k].pkScript)) ==>
              Carries(TxOutsAdded(env, e, tx, i), OutPoint(env.txHash(tx), m, k), tx.messages[m].payload.payment.outputs[k])
    ensures forall m, k :: 0 <= m < i && !IsPayment(tx.messages[m]) ==>
              Same(e, TxOutsAdded(env, e, tx, i), OutPoint(env.txHash(tx), m, k))
  {
    if i > 0 {
      TxOutsAddedFacts(env, e, tx, i - 1);
      var prev := TxOutsAdded(env, e, tx, i - 1);
      var msg := tx.messages[i - 1];
      if IsPayment(msg) {
        var outs := msg.payload.payment.outputs;
        MsgOutsAddedFacts(env, prev, env.txHash(tx), i - 1, outs, |outs|);
      }
    }
  }

  // ---------------------------------------------------------------------------
  // Fetching a unit's inputs

  /** txInFlight after its loop has seen transactions 0 .. k-1. */
  function InFlight(env: UtxoEnv, txs: seq<Transaction>, k: nat): (fl: map<Hash, nat>)
    requires k <= |txs|
    ensures forall h :: h in fl ==> fl[h] < k
  {
    if k == 0 then map[]
    else InFlight(env, txs, k - 1)[env.txHash(txs[k - 1]) := k - 1]
  }

  /** Each hash maps to the last position among the first k that carries it. */
  lemma {:induction false} InFlightLast(env: UtxoEnv, txs: seq<Transaction>, k: nat, h: Hash)
    requires k <= |txs|
    ensures h in InFlight(env, txs, k) <==> exists t :: 0 <= t < k && env.txHash(txs[t]) == h
    ensures h in InFlight(env, txs, k) ==>
              var t := InFlight(env, txs, k)[h];
              env.txHash(txs[t]) == h && forall u :: t < u < k ==> env.txHash(txs[u]) != h
  {
    if k > 0 {
      InFlightLast(env, txs, k - 1, h);
    }
  }

  predicate FlightOk(fl: map<Hash, nat>, txs: seq<Transaction>)
  {
    forall h :: h in fl ==> fl[h] < |txs|
  }

  /** What FetchUnitUtxos carries through its loops: the overlay and neededSet. */
  datatype ScanState = ScanState(entries: map<OutPoint, Utxo>, needed: set<OutPoint>)

  /** The input is resolved inside the unit: its origin is in flight at a
      position no later than i, the spender's index in transactions[1:]. */
  predicate InUnit(fl: map<Hash, nat>, i: nat, op: OutPoint)
  {
    op.txHash in fl && i >= fl[op.txHash]
  }

  /** One input of the spender at index i of transactions[1:], in its message j.
      An in-unit input registers output j of message i of the origin
      transaction, as AddTxOut(originTx, uint32(i), uint32(j)) is written. */
  function InputStep(env: UtxoEnv, txs: seq<Transaction>, fl: map<Hash, nat>, i: nat, j: nat, op: OutPoint, st: ScanState): ScanState
    requires FlightOk(fl, txs)
  {
    if InUnit(fl, i, op) then ScanState(OneOutAdded(env, st.entries, txs[fl[op.txHash]], i, j), st.needed)
    else if op in st.entries then st
    else ScanState(st.entries, st.needed + {op})
  }

  function ScanInputs(env: UtxoEnv, txs: seq<Transaction>, fl: map<Hash, nat>, i: nat, j: nat, ins: seq<Input>, k: nat, st: ScanState): ScanState
    requires FlightOk(fl, txs) && k <= |ins|
  {
    if k == 0 then st
    else InputStep(env, txs, fl, i, j, ins[k - 1].previousOutPoint, ScanInputs(env, txs, fl, i, j, ins, k - 1, st))
  }

  function ScanMsgs(env: UtxoEnv, txs: seq<Transaction>, fl: map<Hash, nat>, i: nat, msgs: seq<Message>, j: nat, st: ScanState): ScanState
    requires FlightOk(fl, txs) && j <= |msgs|
  {
    if j == 0 then st
    else
      var s := ScanMsgs(env, txs, fl, i, msgs, j - 1, st);
      if IsPayment(msgs[j - 1]) then
        var ins := msgs[j - 1].payload.payment.inputs;
        ScanInputs(env, txs, fl, i, j - 1, ins, |ins|, s)
      else s
  }

  /** The state after the loop over transactions[1:] has seen its first i elements. */
  function ScanTxs(env: UtxoEnv, txs: seq<Transaction>, fl: map<Hash, nat>, i: nat, st: ScanState): ScanState
    requires FlightOk(fl, txs) && i + 1 <= |txs|
  {
    if i == 0 then st
    else ScanMsgs(env, txs, fl, i - 1, txs[i].messages, |txs[i].messages|, ScanTxs(env, txs, fl, i - 1, st))
  }

  /** The outpoints a payment input of txs[t] names that are not resolved in-unit. */
  ghost predicate Requestable(txs: seq<Transaction>, fl: map<Hash, nat>, t: nat, op: OutPoint)
  {
    && 1 <= t < |txs|
    && (exists j, k :: 0 <= j < |txs[t].messages| && IsPayment(txs[t].messages[j])
          && 0 <= k < |txs[t].messages[j].payload.payment.inputs|
          && txs[t].messages[j].payload.payment.inputs[k].previousOutPoint == op)
    && !InUnit(fl, t - 1, op)
  }

  /** Scanning only adds overlay entries, and requests only outpoints the overlay
      lacks at that moment that the spender cannot take from the unit. */
  ghost predicate ScanGrows(st: ScanState, st2: ScanState, extra: OutPoint -> bool)
  {
    && st.entries.Keys <= st2.entries.Keys
    && st.needed <= st2.needed
    && forall o :: o in st2.needed && o !in st.needed ==> o !in st.entries && extra(o)
  }

  lemma OneOutAddedGrows(env: UtxoEnv, e: map<OutPoint, Utxo>, tx: Transaction, msgIdx: nat, txoutIdx: nat)
    ensures e.Keys <= OneOutAdded(env, e, tx, msgIdx, txoutIdx).Keys
  {
  }

  lemma {:induction false} ScanInputsGrows(env: UtxoEnv, txs: seq<Transaction>, fl: map<Hash, nat>, i: nat, j: nat, ins: seq<Input>, k: nat, st: ScanState)
    requires FlightOk(fl, txs) && k <= |ins|
    ensures ScanGrows(st, ScanInputs(env, txs, fl, i, j, ins, k, st),
                      o => !InUnit(fl, i, o) && exists m :: 0 <= m < k && ins[m].previousOutPoint == o)
  {
    if k > 0 {
      ScanInputsGrows(env, txs, fl, i, j, ins, k - 1, st);
      var s := ScanInputs(env, txs, fl, i, j, ins, k - 1, st);
      var op := ins[k - 1].previousOutPoint;
      if InUnit(fl, i, op) {
        OneOutAddedGrows(env, s.entries, txs[fl[op.txHash]], i, j);
      }
    }
  }

  lemma {:induction false} ScanMsgsGrows(env: UtxoEnv, txs: seq<Transaction>, fl: map<Hash, nat>, t: nat, j: nat, st: ScanState)
    requires FlightOk(fl, txs) && 1 <= t < |txs| && j <= |txs[t].messages|
    ensures ScanGrows(st, ScanMsgs(env, txs, fl, t - 1, txs[t].messages, j, st), o => Requestable(txs, fl, t, o))
  {
    if j > 0 {
      var msgs := txs[t].messages;
      ScanMsgsGrows(env, txs, fl, t, j - 1, st);
      var s := ScanMsgs(env, txs, fl, t - 1, msgs, j - 1, st);
      if IsPayment(msgs[j - 1]) {
        var ins := msgs[j - 1].payload.payment.inputs;
        ScanInputsGrows(env, txs, fl, t - 1, j - 1, ins, |ins|, s);
        var s2 := ScanInputs(env, txs, fl, t - 1, j - 1, ins, |ins|, s);
        forall o | o in s2.needed && o !in s.needed ensures Requestable(txs, fl, t, o) {
          var m :| 0 <= m < |ins| && ins[m].previousOutPoint == o;
          assert txs[t].messages[j - 1].payload.payment.inputs[m].previousOutPoint == o;
        }
      }
    }
  }

  /** The same-unit spend-ordering rule. Every outpoint FetchUnitUtxos requests
      from the database is named by a payment input of a transaction other than
      the first, is not resolvable inside the unit by that spender, and was not in
      the overlay beforehand; the overlay only gains entries. */
  lemma {:induction false} ScanTxsRequests(env: UtxoEnv, txs: seq<Transaction>, fl: map<Hash, nat>, i: nat, st: ScanState)
    requires FlightOk(fl, txs) && i + 1 <= |txs|
    ensures var r := ScanTxs(env, txs, fl, i, st);
            && st.entries.Keys <= r.entries.Keys
            && st.needed <= r.needed
            && forall o :: o in r.needed && o !in st.needed ==>
                 o !in st.entries && exists t :: 1 <= t <= i && Requestable(txs, fl, t, o)
  {
    if i > 0 {
      ScanTxsRequests(env, txs, fl, i - 1, st);
      var s := ScanTxs(env, txs, fl, i - 1, st);
      ScanMsgsGrows(env, txs, fl, i, |txs[i].messages|, s);
      var r := ScanTxs(env, txs, fl, i, st);
      forall o | o in r.needed && o !in st.needed
        ensures o !in st.entries && exists t :: 1 <= t <= i && Requestable(txs, fl, t, o)
      {
        if o !in s.needed {
          assert Requestable(txs, fl, i, o);
        }
      }
    }
  }

  /** txInFlight sends every hash to a transaction carrying that hash. */
  predicate FlightNamed(env: UtxoEnv, fl: map<Hash, nat>, txs: seq<Transaction>)
  {
    forall h :: h in fl ==> fl[h] < |txs| && env.txHash(txs[fl[h]]) == h
  }

  lemma InFlightNamed(env: UtxoEnv, txs: seq<Transaction>)
    ensures FlightNamed(env, InFlight(env, txs, |txs|), txs)
  {
    forall h | h in InFlight(env, txs, |txs|)
      ensures env.txHash(txs[InFlight(env, txs, |txs|)[h]]) == h
    {
      InFlightLast(env, txs, |txs|, h);
    }
  }

  /** The overlay holds, at o, the output o names in the in-flight transaction
      with o's hash, whenever that transaction has such a spendable output. */
  ghost predicate OriginCarried(env: UtxoEnv, txs: seq<Transaction>, fl: map<Hash, nat>, e: map<OutPoint, Utxo>, o: OutPoint)
    requires FlightOk(fl, txs)
  {
    o.txHash in fl ==>
      var tx := txs[fl[o.txHash]];
      (o.messageIndex < |tx.messages| && IsPayment(tx.messages[o.messageIndex])
       && o.outIndex < |tx.messages[o.messageIndex].payload.payment.outputs|
       && !env.isUnspendable(tx.messages[o.messageIndex].payload.payment.outputs[o.outIndex].pkScript))
      ==> Carries(e, o, tx.messages[o.messageIndex].payload.payment.outputs[o.outIndex])
  }

  /** A later scan state keeps what an earlier one has: overlay keys, requested
      outpoints and registered in-unit outputs. */
  ghost predicate Extends(env: UtxoEnv, txs: seq<Transaction>, fl: map<Hash, nat>, st: ScanState, st2: ScanState)
    requires FlightOk(fl, txs)
  {
    && st.entries.Keys <= st2.entries.Keys
    && st.needed <= st2.needed
    && forall o :: OriginCarried(env, txs, fl, st.entries, o) ==> OriginCarried(env, txs, fl, st2.entries, o)
  }

  /** Where a payment input of the spender at index i of transactions[1:], in
      its message j, ends up: resolved in-unit with AddTxOut(originTx, i, j)'s
      output registered, or else requested or already in the overlay. */
  ghost predicate InputCovered(env: UtxoEnv, txs: seq<Transaction>, fl: map<Hash, nat>, i: nat, j: nat, op: OutPoint, st: ScanState)
    requires FlightOk(fl, txs)
  {
    if InUnit(fl, i, op) then OriginCarried(env, txs, fl, st.entries, OutPoint(op.txHash, i, j))
    else op in st.needed || op in st.entries
  }

  lemma ExtendsCovered(env: UtxoEnv, txs: seq<Transaction>, fl: map<Hash, nat>, i: nat, j: nat, op: OutPoint,
                       st: ScanState, st2: ScanState)
    requires FlightOk(fl, txs) && Extends(env, txs, fl, st, st2) && InputCovered(env, txs, fl, i, j, op, st)
    ensures InputCovered(env, txs, fl, i, j, op, st2)
  {
    if InUnit(fl, i, op) {
      assert OriginCarried(env, txs, fl, st.entries, OutPoint(op.txHash, i, j));
    }
  }

  lemma ExtendsTrans(env: UtxoEnv, txs: seq<Transaction>, fl: map<Hash, nat>, st: ScanState, st2: ScanState, st3: ScanState)
    requires FlightOk(fl, txs) && Extends(env, txs, fl, st, st2) && Extends(env, txs, fl, st2, st3)
    ensures Extends(env, txs, fl, st, st3)
  {
    forall o | OriginCarried(env, txs, fl, st.entries, o) ensures OriginCarried(env, txs, fl, st3.entries, o) {
      assert OriginCarried(env, txs, fl, st2.entries, o);
    }
  }

  /** One input: the state only grows, and the input is covered. */
  lemma InputStepCovers(env: UtxoEnv, txs: seq<Transaction>, fl: map<Hash, nat>, i: nat, j: nat, op: OutPoint, st: ScanState)
    requires FlightOk(fl, txs) && FlightNamed(env, fl, txs)
    ensures Extends(env, txs, fl, st, InputStep(env, txs, fl, i, j, op, st))
    ensures InputCovered(env, txs, fl, i, j, op, InputStep(env, txs, fl, i, j, op, st))
  {
    var r := InputStep(env, txs, fl, i, j, op, st);
    if InUnit(fl, i, op) {
      var tx := txs[fl[op.txHash]];
      var key := OutPoint(op.txHash, i, j);
      assert env.txHash(tx) == op.txHash;
      OneOutAddedGrows(env, st.entries, tx, i, j);
      forall o | OriginCarried(env, txs, fl, st.entries, o) ensures OriginCarried(env, txs, fl, r.entries, o) {
        if o != key {
          assert Same(st.entries, r.entries, o);
        }
      }
    }
  }

  lemma {:induction false} ScanInputsCovers(env: UtxoEnv, txs: seq<Transaction>, fl: map<Hash, nat>, i: nat, j: nat,
                                            ins: seq<Input>, k: nat, st: ScanState)
    requires FlightOk(fl, txs) && FlightNamed(env, fl, txs) && k <= |ins|
    ensures Extends(env, txs, fl, st, ScanInputs(env, txs, fl, i, j, ins, k, st))
    ensures forall m :: 0 <= m < k ==>
              InputCovered(env, txs, fl, i, j, ins[m].previousOutPoint, ScanInputs(env, txs, fl, i, j, ins, k, st))
  {
    if k > 0 {
      ScanInputsCovers(env, txs, fl, i, j, ins, k - 1, st);
      var s := ScanInputs(env, txs, fl, i, j, ins, k - 1, st);
      var r := ScanInputs(env, txs, fl, i, j, ins, k, st);
      InputStepCovers(env, txs, fl, i, j, ins[k - 1].previousOutPoint, s);
      ExtendsTrans(env, txs, fl, st, s, r);
      forall m | 0 <= m < k - 1 ensures InputCovered(env, txs, fl, i, j, ins[m].previousOutPoint, r) {
        ExtendsCovered(env, txs, fl, i, j, ins[m].previousOutPoint, s, r);
      }
    }
  }

  /** The payment inputs of message m of txs[t]. */
  function PaymentInputs(txs: seq<Transaction>, t: nat, m: nat): seq<Input>
    requires t < |txs| && m < |txs[t].messages| && IsPayment(txs[t].messages[m])
  {
    txs[t].messages[m].payload.payment.inputs
  }

  lemma {:induction false} ScanMsgsCovers(env: UtxoEnv, txs: seq<Transaction>, fl: map<Hash, nat>, t: nat, j: nat, st: ScanState)
    requires FlightOk(fl, txs) && FlightNamed(env, fl, txs) && 1 <= t < |txs| && j <= |txs[t].messages|
    ensures Extends(env, txs, fl, st, ScanMsgs(env, txs, fl, t - 1, txs[t].messages, j, st))
    ensures forall m, k :: 0 <= m < j && IsPayment(txs[t].messages[m]) && 0 <= k < |PaymentInputs(txs, t, m)| ==>
              InputCovered(env, txs, fl, t - 1, m, PaymentInputs(txs, t, m)[k].previousOutPoint,
                           ScanMsgs(env, txs, fl, t - 1, txs[t].messages, j, st))
  {
    if j > 0 {
      var msgs := txs[t].messages;
      ScanMsgsCovers(env, txs, fl, t, j - 1, st);
      var s := ScanMsgs(env, txs, fl, t - 1, msgs, j - 1, st);
      var r := ScanMsgs(env, txs, fl, t - 1, msgs, j, st);
      if IsPayment(msgs[j - 1]) {
        var ins := PaymentInputs(txs, t, j - 1);
        ScanInputsCovers(env, txs, fl, t - 1, j - 1, ins, |ins|, s);
        ExtendsTrans(env, txs, fl, st, s, r);
        forall m, k | 0 <= m < j - 1 && IsPayment(msgs[m]) && 0 <= k < |PaymentInputs(txs, t, m)|
          ensures InputCovered(env, txs, fl, t - 1, m, PaymentInputs(txs, t, m)[k].previousOutPoint, r)
        {
          ExtendsCovered(env, txs, fl, t - 1, m, PaymentInputs(txs, t, m)[k].previousOutPoint, s, r);
        }
      }
    }
  }

  /** The converse of ScanTxsRequests: every payment input of the first i
      transactions of transactions[1:] is resolved in-unit, with the origin's
      output registered in the overlay, or ends up requested or in the overlay. */
  lemma {:induction false} ScanTxsCovers(env: UtxoEnv, txs: seq<Transaction>, fl: map<Hash, nat>, i: nat, st: ScanState)
    requires FlightOk(fl, txs) && FlightNamed(env, fl, txs) && i + 1 <= |txs|
    ensures Extends(env, txs, fl, st, ScanTxs(env, txs, fl, i, st))
    ensures forall t, m, k ::
              (1 <= t <= i && 0 <= m < |txs[t].messages| && IsPayment(txs[t].messages[m])
               && 0 <= k < |PaymentInputs(txs, t, m)|) ==>
              InputCovered(env, txs, fl, t - 1, m, PaymentInputs(txs, t, m)[k].previousOutPoint, ScanTxs(env, txs, fl, i, st))
  {
    if i > 0 {
      ScanTxsCovers(env, txs, fl, i - 1, st);
      var s := ScanTxs(env, txs, fl, i - 1, st);
      var r := ScanTxs(env, txs, fl, i, st);
      ScanMsgsCovers(env, txs, fl, i, |txs[i].messages|, s);
      ExtendsTrans(env, txs, fl, st, s, r);
      forall t, m, k | 1 <= t < i && 0 <= m < |txs[t].messages| && IsPayment(txs[t].messages[m])
                       && 0 <= k < |PaymentInputs(txs, t, m)|
        ensures InputCovered(env, txs, fl, t - 1, m, PaymentInputs(txs, t, m)[k].previousOutPoint, r)
      {
        ExtendsCovered(env, txs, fl, t - 1, m, PaymentInputs(txs, t, m)[k].previousOutPoint, s, r);
      }
    }
  }

  /** The scan FetchUnitUtxos runs before its fetch, both ways: an outpoint it
      requests is named by a payment input of transactions[1:] that cannot be
      resolved in-unit and was not in the overlay; and every payment input of
      transactions[1:] is resolved in-unit with its origin's output registered,
      or is requested, or is in the overlay. */
  lemma UnitScanExact(env: UtxoEnv, txs: seq<Transaction>, entries: map<OutPoint, Utxo>)
    requires |txs| > 1
    ensures var fl := InFlight(env, txs, |txs|);
            var r := ScanTxs(env, txs, fl, |txs| - 1, ScanState(entries, {}));
            && (forall o :: o in r.needed ==> o !in entries && exists t :: 1 <= t < |txs| && Requestable(txs, fl, t, o))
            && forall t, m, k ::
                 (1 <= t < |txs| && 0 <= m < |txs[t].messages| && IsPayment(txs[t].messages[m])
                  && 0 <= k < |PaymentInputs(txs, t, m)|) ==>
                 InputCovered(env, txs, fl, t - 1, m, PaymentInputs(txs, t, m)[k].previousOutPoint, r)
  {
    var fl := InFlight(env, txs, |txs|);
    InFlightNamed(env, txs);
    ScanTxsRequests(env, txs, fl, |txs| - 1, ScanState(entries, {}));
    ScanTxsCovers(env, txs, fl, |txs| - 1, ScanState(entries, {}));
  }

  /** What fetchUtxosMain guarantees: it fails exactly when some needed outpoint
      is missing from the database; on success every needed outpoint carries the
      database's entry; on failure only needed outpoints changed, each to the
      database's entry. */
  ghost predicate Fetched(before: map<OutPoint, Utxo>, needed: set<OutPoint>, dbu: map<OutPoint, Utxo>,
                          after: map<OutPoint, Utxo>, err: Option<OutPoint>)
  {
    && (err.None? <==> needed <= dbu.Keys)
    && (err.Some? ==> err.value in needed && err.value !in dbu)
    && (err.None? ==> forall o :: o in needed ==> o in after && after[o] == dbu[o])
    && (forall o :: o !in needed ==> Same(before, after, o))
    && (forall o :: o in before ==> o in after)
    && (forall o :: o in needed && o in after ==> (o in dbu && after[o] == dbu[o]) || (o in before && after[o] == before[o]))
  }

  // ---------------------------------------------------------------------------
  // The overlay

  class UtxoViewpoint {
    var entries: map<OutPoint, Utxo>
    var bestHash: Hash
    const env: UtxoEnv

    /** NewUtxoViewpoint: an empty overlay. */
    constructor (env: UtxoEnv)
      ensures entries == map[] && this.env == env
    {
      entries := map[];
      bestHash := ZeroHash();
      this.env := env;
    }

    /** LookupUtxo: the entry for an outpoint, or nil. */
    function LookupUtxo(o: OutPoint): (r: Option<Utxo>)
      reads this
      ensures r.Some? <==> o in entries
      ensures r.Some? ==> r.value == entries[o]
    {
      if o in entries then Some(entries[o]) else None
    }

    /** addTxOut: an unspendable output is never inserted; for an outpoint already
        present the same entry gets the new amount, script and asset, otherwise a
        new entry is created. */
    method InsertTxOut(o: OutPoint, out: Output, isCoinbase: bool)
      modifies this`entries
      ensures entries == Inserted(env, old(entries), o, out, isCoinbase)
      ensures env.isUnspendable(out.pkScript) ==> entries == old(entries)
      ensures !env.isUnspendable(out.pkScript) ==> Carries(entries, o, out) && entries.Keys == old(entries).Keys + {o}
    {
      if env.isUnspendable(out.pkScript) {
        return;
      }
      var utxo := LookupUtxo(o);
      var u := if utxo.None? then NewUtxo() else utxo.value;
      u := u.(amount := out.value, pkScript := out.pkScript, asset := out.asset);
      if isCoinbase {
        u := u.(flags := env.setCoinBase(u.flags));
      }
      entries := entries[o := u];
    }

    /** AddTxOut: registers one output of one payment message; the overlay stays
        unchanged when msgIdx is past the messages, when that message is not a
        payment, or when txoutIdx is past its outputs. */
    method AddTxOut(tx: Transaction, msgIdx: nat, txoutIdx: nat)
      modifies this`entries
      ensures entries == OneOutAdded(env, old(entries), tx, msgIdx, txoutIdx)
      ensures (msgIdx >= |tx.messages| || !IsPayment(tx.messages[msgIdx])
               || txoutIdx >= |tx.messages[msgIdx].payload.payment.outputs|) ==> entries == old(entries)
    {
      if msgIdx >= |tx.messages| {
        return;
      }
      var msg := tx.messages[msgIdx];
      if msg.app == AppPayment && msg.payload.PaymentPl? {
        var outs := msg.payload.payment.outputs;
        if txoutIdx >= |outs| {
          return;
        }
        InsertTxOut(OutPoint(env.txHash(tx), msgIdx, txoutIdx), outs[txoutIdx], false);
      }
    }

    /** AddTxOuts: every output of every payment message. */
    method AddTxOuts(tx: Transaction)
      modifies this`entries
      ensures entries == TxOutsAdded(env, old(entries), tx, |tx.messages|)
    {
      var h := env.txHash(tx);
      var i := 0;
      while i < |tx.messages|
        invariant 0 <= i <= |tx.messages|
        invariant entries == TxOutsAdded(env, old(entries), tx, i)
      {
        var msg := tx.messages[i];
        if msg.app == AppPayment && msg.payload.PaymentPl? {
          var outs := msg.payload.payment.outputs;
          ghost var start := entries;
          var j := 0;
          while j < |outs|
            invariant 0 <= j <= |outs|
            invariant entries == MsgOutsAdded(env, start, h, i, outs, j)
          {
            InsertTxOut(OutPoint(h, i, j), outs[j], false);
            j := j + 1;
          }
        }
        i := i + 1;
      }
    }

    /** RemoveUtxo. */
    method RemoveUtxo(o: OutPoint)
      modifies this`entries
      ensures entries == old(entries) - {o}
    {
      entries := entries - {o};
    }

    /** The body of SpentUtxo's loop for one outpoint. */
    method SpendOne(db: UtxoDb, o: OutPoint)
      modifies db
      ensures db.utxos == SpentAt(env, old(db.utxos), entries, o)
    {
      var found := LookupUtxo(o);
      if found.Some? {
        db.SaveUtxoEntity(o, Spent(env, found.value));
      } else {
        var fromDb := db.GetUtxoEntry(o);
        if fromDb.Some? {
          db.SaveUtxoEntity(o, Spent(env, fromDb.value));
        }
      }
    }

    /** SpentUtxo: every given outpoint found in the overlay or, failing that, in
        the database is marked spent and saved; database misses are skipped; all
        given outpoints leave the overlay. */
    method SpentUtxo(db: UtxoDb, outpoints: set<OutPoint>)
      modifies this`entries, db
      ensures entries == old(entries) - outpoints
      ensures forall x :: SpentState(env, old(db.utxos), old(entries), db.utxos, x, outpoints)
    {
      ghost var e0, d0 := entries, db.utxos;
      ghost var handled: set<OutPoint> := {};
      var remaining := outpoints;
      while remaining != {}
        invariant forall x :: x in outpoints <==> x in handled || x in remaining
        invariant forall x :: x in handled ==> x !in remaining
        invariant forall x :: x in entries <==> x in e0 && x !in handled
        invariant forall x :: x in entries ==> entries[x] == e0[x]
        invariant forall x :: SpentState(env, d0, e0, db.utxos, x, handled)
        decreases |remaining|
      {
        var o :| o in remaining;
        ghost var before := db.utxos;
        assert SpentState(env, d0, e0, before, o, handled);
        SpendOne(db, o);
        SpentAtStep(env, d0, e0, before, entries, o, handled);
        entries := entries - {o};
        Removed(remaining, o);
        remaining := remaining - {o};
        handled := handled + {o};
      }
      assert handled == outpoints;
    }

    /** fetchUtxosMain: read every needed outpoint from the database into the
        overlay, in no particular order, stopping at the first miss. */
    method FetchUtxosMain(db: UtxoDb, needed: set<OutPoint>) returns (err: Option<OutPoint>)
      modifies this`entries
      ensures Fetched(old(entries), needed, db.utxos, entries, err)
    {
      ghost var e0 := entries;
      var remaining := needed;
      while remaining != {}
        invariant remaining <= needed
        invariant forall x :: x in needed && x !in remaining ==> x in db.utxos
        invariant forall x :: x in entries <==> x in e0 || (x in needed && x !in remaining)
        invariant forall x :: x in entries ==>
                    entries[x] == if x in needed && x !in remaining then db.utxos[x] else e0[x]
        decreases |remaining|
      {
        var o :| o in remaining;
        var u := db.GetUtxoEntry(o);
        if u.None? {
          return Some(o);
        }
        entries := entries[o := u.value];
        remaining := remaining - {o};
      }
      err := None;
    }

    /** FetchUtxos: fetch the given outpoints that the overlay does not hold. */
    method FetchUtxos(db: UtxoDb, outpoints: set<OutPoint>) returns (err: Option<OutPoint>)
      modifies this`entries
      ensures Fetched(old(entries), outpoints - old(entries).Keys, db.utxos, entries, err)
    {
      var neededSet := Missing(entries, outpoints);
      err := FetchUtxosMain(db, neededSet);
    }

    /** The txInFlight loop. */
    method BuildInFlight(txs: seq<Transaction>) returns (fl: map<Hash, nat>)
      ensures fl == InFlight(env, txs, |txs|)
    {
      fl := map[];
      var i := 0;
      while i < |txs|
        invariant 0 <= i <= |txs|
        invariant fl == InFlight(env, txs, i)
      {
        fl := fl[env.txHash(txs[i]) := i];
        i := i + 1;
      }
    }

    /** The body of FetchUnitUtxos's innermost loop for one input. */
    method ScanInput(txs: seq<Transaction>, fl: map<Hash, nat>, i: nat, j: nat, op: OutPoint, needed: set<OutPoint>)
      returns (needed': set<OutPoint>)
      requires FlightOk(fl, txs)
      modifies this`entries
      ensures ScanState(entries, needed') == InputStep(env, txs, fl, i, j, op, ScanState(old(entries), needed))
    {
      needed' := needed;
      if op.txHash in fl && i >= fl[op.txHash] {
        AddTxOut(txs[fl[op.txHash]], i, j);
      } else if op !in entries {
        needed' := needed + {op};
      }
    }

    /** FetchUnitUtxos: nothing to do for a unit with at most one transaction;
        otherwise walk the payment inputs of transactions[1:] building neededSet
        (registering in-unit origins in the overlay as it goes), then fetch it. */
    method FetchUnitUtxos(db: UtxoDb, txs: seq<Transaction>) returns (err: Option<OutPoint>)
      modifies this`entries
      ensures |txs| <= 1 ==> err.None? && entries == old(entries)
      ensures |txs| > 1 ==>
        var fl := InFlight(env, txs, |txs|);
        var st := ScanTxs(env, txs, fl, |txs| - 1, ScanState(old(entries), {}));
        Fetched(st.entries, st.needed, db.utxos, entries, err)
    {
      if |txs| <= 1 {
        return None;
      }
      var fl := BuildInFlight(txs);
      var neededSet: set<OutPoint> := {};
      var i := 0;
      while i < |txs| - 1
        invariant 0 <= i <= |txs| - 1
        invariant ScanState(entries, neededSet) == ScanTxs(env, txs, fl, i, ScanState(old(entries), {}))
      {
        var tx := txs[i + 1];
        ghost var s0 := ScanState(entries, neededSet);
        var j := 0;
        while j < |tx.messages|
          invariant 0 <= j <= |tx.messages|
          invariant ScanState(entries, neededSet) == ScanMsgs(env, txs, fl, i, tx.messages, j, s0)
        {
          var msg := tx.messages[j];
          if msg.app == AppPayment && msg.payload.PaymentPl? {
            var ins := msg.payload.payment.inputs;
            ghost var s1 := ScanState(entries, neededSet);
            var k := 0;
            while k < |ins|
              invariant 0 <= k <= |ins|
              invariant ScanState(entries, neededSet) == ScanInputs(env, txs, fl, i, j, ins, k, s1)
            {
              neededSet := ScanInput(txs, fl, i, j, ins[k].previousOutPoint, neededSet);
              k := k + 1;
            }
          }
          j := j + 1;
        }
        i := i + 1;
      }
      err := FetchUtxosMain(db, neededSet);
    }
  }

  function Spent(env: UtxoEnv, u: Utxo): Utxo
  {
    u.(flags := env.spend(u.flags))
  }

  /** The loop in FetchUtxos that collects the outpoints the overlay lacks. */
  method Missing(entries: map<OutPoint, Utxo>, outpoints: set<OutPoint>) returns (neededSet: set<OutPoint>)
    ensures neededSet == outpoints - entries.Keys
  {
    neededSet := {};
    var remaining := outpoints;
    while remaining != {}
      invariant remaining <= outpoints
      invariant forall x :: x in neededSet <==> x in outpoints && x !in remaining && x !in entries
      decreases |remaining|
    {
      var o :| o in remaining;
      if o !in entries {
        neededSet := neededSet + {o};
      }
      remaining := remaining - {o};
    }
    assert neededSet == outpoints - entries.Keys;
  }

  /** SpentUtxo's effect on the database at outpoint x, once x is handled: the
      overlay's entry marked spent, else the database's entry marked spent, else
      nothing; an outpoint not handled keeps its database entry. */
  predicate SpentState(env: UtxoEnv, d0: map<OutPoint, Utxo>, e0: map<OutPoint, Utxo>, d: map<OutPoint, Utxo>, x: OutPoint, handled: set<OutPoint>)
  {
    if x in handled && x in e0 then x in d && d[x] == Spent(env, e0[x])
    else if x in handled && x in d0 then x in d && d[x] == Spent(env, d0[x])
    else Same(d0, d, x)
  }

  /** Taking an element out of a set makes it smaller. */
  lemma Removed<T>(s: set<T>, o: T)
    requires o in s
    ensures |s - {o}| < |s|
  {
    assert s == (s - {o}) + {o};
  }

  /** The database after SpentUtxo handles o, e being the overlay. */
  function SpentAt(env: UtxoEnv, d: map<OutPoint, Utxo>, e: map<OutPoint, Utxo>, o: OutPoint): map<OutPoint, Utxo>
  {
    if o in e then d[o := Spent(env, e[o])]
    else if o in d then d[o := Spent(env, d[o])]
    else d
  }

  /** SpentAt on an overlay that still agrees with the original at o extends
      SpentState by o. */
  lemma SpentAtStep(env: UtxoEnv, d0: map<OutPoint, Utxo>, e0: map<OutPoint, Utxo>, before: map<OutPoint, Utxo>,
                    e: map<OutPoint, Utxo>, o: OutPoint, done: set<OutPoint>)
    requires forall x :: SpentState(env, d0, e0, before, x, done)
    requires o !in done && Same(e0, e, o)
    ensures forall x :: SpentState(env, d0, e0, SpentAt(env, before, e, o), x, done + {o})
  {
    var after := SpentAt(env, before, e, o);
    assert SpentState(env, d0, e0, before, o, done);
    assert SpentState(env, d0, e0, after, o, done + {o});
    SpentStep(env, d0, e0, before, after, o, done);
  }

  /** Handling one more outpoint o, changing the database at o alone, extends
      SpentState from the outpoints handled before to those and o. */
  lemma SpentStep(env: UtxoEnv, d0: map<OutPoint, Utxo>, e0: map<OutPoint, Utxo>, before: map<OutPoint, Utxo>,
                  after: map<OutPoint, Utxo>, o: OutPoint, done: set<OutPoint>)
    requires forall x :: SpentState(env, d0, e0, before, x, done)
    requires SpentState(env, d0, e0, after, o, done + {o})
    requires forall x :: x != o ==> Same(before, after, x)
    ensures forall x :: SpentState(env, d0, e0, after, x, done + {o})
  {
    forall x
      ensures SpentState(env, d0, e0, after, x, done + {o})
    {
      if x != o {
        assert SpentState(env, d0, e0, before, x, done);
        assert Same(before, after, x);
        assert (x in done + {o}) == (x in done);
      }
    }
  }

  // ---------------------------------------------------------------------------
  // CheckTransactionSanity

  datatype SanityError =
    | NoMessages          // ErrRPCRawTxString: no messages
    | TooLarge            // ErrRPCRawTxString: serialized size over the block limit
    | OutputTooLarge      // ErrBadTxOutValue: one output over MaxDao
    | TotalTooLarge       // ErrBadTxOutValue: running total over MaxDao
    | DuplicateInputs     // ErrDuplicateTxInputs

  /** The running total over the outputs from j on; the total is a uint64. */
  function OutputsCheck(outs: seq<Output>, j: nat, total: nat, maxDao: nat): Result<nat, SanityError>
    requires j <= |outs|
    decreases |outs| - j
  {
    if j == |outs| then Ok(total)
    else if outs[j].value > maxDao then Err(OutputTooLarge)
    else
      var t := (total + outs[j].value) % U64;
      if t > maxDao then Err(TotalTooLarge) else OutputsCheck(outs, j + 1, t, maxDao)
  }

  /** Some outpoint occurs twice among the inputs of one message. */
  predicate HasDuplicate(ins: seq<Input>)
  {
    exists a, b :: 0 <= a < b < |ins| && ins[a].previousOutPoint == ins[b].previousOutPoint
  }

  /** The message loop from message k on, with the total so far. Only messages
      whose payload is a payment payload are checked, whatever their App tag. */
  function SanityFrom(msgs: seq<Message>, k: nat, total: nat, maxDao: nat): Option<SanityError>
    requires k <= |msgs|
    decreases |msgs| - k
  {
    if k == |msgs| then None
    else if !msgs[k].payload.PaymentPl? then SanityFrom(msgs, k + 1, total, maxDao)
    else
      var pay := msgs[k].payload.payment;
      match OutputsCheck(pay.outputs, 0, total, maxDao)
      case Err(e) => Some(e)
      case Ok(t) => if HasDuplicate(pay.inputs) then Some(DuplicateInputs) else SanityFrom(msgs, k + 1, t, maxDao)
  }

  function SanityResult(tx: Transaction, size: nat, maxSize: nat, maxDao: nat): Option<SanityError>
  {
    if |tx.messages| == 0 then Some(NoMessages)
    else if size > maxSize then Some(TooLarge)
    else SanityFrom(tx.messages, 0, 0, maxDao)
  }

  /** The duplicate-input loop over one message, with a fresh seen-set. */
  method FindDuplicate(ins: seq<Input>) returns (dup: bool)
    ensures dup <==> HasDuplicate(ins)
  {
    var seen: set<OutPoint> := {};
    var k := 0;
    while k < |ins|
      invariant 0 <= k <= |ins|
      invariant forall x :: x in seen <==> exists a :: 0 <= a < k && ins[a].previousOutPoint == x
      invariant !exists a, b :: 0 <= a < b < k && ins[a].previousOutPoint == ins[b].previousOutPoint
    {
      var op := ins[k].previousOutPoint;
      if op in seen {
        return true;
      }
      seen := seen + {op};
      k := k + 1;
    }
    return false;
  }

  /** CheckTransactionSanity. The serialized size and the two limits (MaxDao,
      MaxBlockBaseSize) come from code that is not part of this model. */
  method CheckTransactionSanity(tx: Transaction, size: nat, maxSize: nat, maxDao: nat) returns (err: Option<SanityError>)
    ensures err == SanityResult(tx, size, maxSize, maxDao)
  {
    if |tx.messages| == 0 {
      return Some(NoMessages);
    }
    if size > maxSize {
      return Some(TooLarge);
    }
    var total: nat := 0;
    var k := 0;
    while k < |tx.messages|
      invariant 0 <= k <= |tx.messages|
      invariant SanityFrom(tx.messages, 0, 0, maxDao) == SanityFrom(tx.messages, k, total, maxDao)
    {
      var msg := tx.messages[k];
      if msg.payload.PaymentPl? {
        var outs := msg.payload.payment.outputs;
        var j := 0;
        ghost var t0 := total;
        while j < |outs|
          invariant 0 <= j <= |outs|
          invariant OutputsCheck(outs, 0, t0, maxDao) == OutputsCheck(outs, j, total, maxDao)
        {
          var satoshi := outs[j].value;
          if satoshi > maxDao {
            return Some(OutputTooLarge);
          }
          total := (total + satoshi) % U64;
          if total > maxDao {
            return Some(TotalTooLarge);
          }
          j := j + 1;
        }
        var dup := FindDuplicate(msg.payload.payment.inputs);
        if dup {
          return Some(DuplicateInputs);
        }
      }
      k := k + 1;
    }
    err := None;
  }

  /** The sum of all outputs of all messages with a payment payload. */
  function PaymentTotal(msgs: seq<Message>): nat
  {
    if |msgs| == 0 then 0
    else (if msgs[0].payload.PaymentPl? then OutputsSum(msgs[0].payload.payment.outputs) else 0) + PaymentTotal(msgs[1..])
  }

  function OutputsSum(outs: seq<Output>): nat
  {
    if |outs| == 0 then 0 else outs[0].value + OutputsSum(outs[1..])
  }

  /** Without wrap-around (MaxDao below 2^63), the output loop passes exactly
      when the running total stays within MaxDao, and it then adds the sum. */
  lemma {:induction false} OutputsCheckSum(outs: seq<Output>, j: nat, total: nat, maxDao: nat)
    requires j <= |outs| && total <= maxDao && 2 * maxDao < U64
    ensures OutputsCheck(outs, j, total, maxDao).Ok? <==> total + OutputsSum(outs[j..]) <= maxDao
    ensures OutputsCheck(outs, j, total, maxDao).Ok? ==> OutputsCheck(outs, j, total, maxDao).value == total + OutputsSum(outs[j..])
    decreases |outs| - j
  {
    if j < |outs| {
      assert outs[j..][1..] == outs[j + 1..];
      if outs[j].value <= maxDao {
        assert (total + outs[j].value) % U64 == total + outs[j].value;
        if total + outs[j].value <= maxDao {
          OutputsCheckSum(outs, j + 1, total + outs[j].value, maxDao);
        }
      }
    }
  }

  /** Each payment message has no duplicate input. */
  predicate NoDuplicateInputs(msgs: seq<Message>)
  {
    forall k :: 0 <= k < |msgs| && msgs[k].payload.PaymentPl? ==> !HasDuplicate(msgs[k].payload.payment.inputs)
  }

  lemma {:induction false} SanityFromCorrect(msgs: seq<Message>, k: nat, total: nat, maxDao: nat)
    requires k <= |msgs| && total <= maxDao && 2 * maxDao < U64
    ensures SanityFrom(msgs, k, total, maxDao).None? <==>
              total + PaymentTotal(msgs[k..]) <= maxDao && NoDuplicateInputs(msgs[k..])
    decreases |msgs| - k
  {
    if k < |msgs| {
      var rest := msgs[k..];
      assert rest[1..] == msgs[k + 1..];
      assert forall m :: 1 <= m < |rest| ==> rest[m] == msgs[k + 1..][m - 1];
      if msgs[k].payload.PaymentPl? {
        var pay := msgs[k].payload.payment;
        OutputsCheckSum(pay.outputs, 0, total, maxDao);
        assert pay.outputs[0..] == pay.outputs;
        if OutputsCheck(pay.outputs, 0, total, maxDao).Ok? && !HasDuplicate(pay.inputs) {
          SanityFromCorrect(msgs, k + 1, total + OutputsSum(pay.outputs), maxDao);
        } else if OutputsCheck(pay.outputs, 0, total, maxDao).Ok? {
          assert !NoDuplicateInputs(rest) by { assert rest[0] == msgs[k]; }
        }
      } else {
        SanityFromCorrect(msgs, k + 1, total, maxDao);
      }
    }
  }

  /** CheckTransactionSanity accepts exactly the transactions with at least one
      message, a size within the limit, no duplicate input within a payment
      message and payment outputs summing to at most MaxDao (when MaxDao is
      below 2^63, so the uint64 running total cannot wrap). */
  lemma SanityAccepts(tx: Transaction, size: nat, maxSize: nat, maxDao: nat)
    requires 2 * maxDao < U64
    ensures SanityResult(tx, size, maxSize, maxDao).None? <==>
              |tx.messages| > 0 && size <= maxSize
              && PaymentTotal(tx.messages) <= maxDao && NoDuplicateInputs(tx.messages)
  {
    if |tx.messages| > 0 && size <= maxSize {
      SanityFromCorrect(tx.messages, 0, 0, maxDao);
      assert tx.messages[0..] == tx.messages;
    }
  }
}
