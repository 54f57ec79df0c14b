// The jury's contract-transaction table (consensus/jury/service.go): merging a
// co-signature received from another mediator into the local signed
// transaction, the two-thirds quorum that releases it to the pool, the dispatch
// on the request message that starts a contract run, and the in-flight table
// `mtx` written by the event handlers and swept by the expiry loop.

module Jury {
  import opened Common
  import opened Modules

  // ---------------------------------------------------------------------------
  // Merging a received signature into the local transaction

  datatype MergeError =
    | MsgCountMismatch    // "tx msg is invalid"
    | MsgNotEqual         // "tx msg is not equal"
    | NoRecvSignature     // "not find recv sig msg"
    | NoLocalSignature    // the empty error at the end of checkAndAddTxData

  /** checkAndAddTxData's outcome: (true, nil), (false, nil), (false, err), or a
      run-time panic from an unchecked type assertion or index. */
  datatype MergeOutcome = Added | AlreadyHave | Failed(error: MergeError) | MergePanic

  /** A message at which the co-signer's transaction differs from the local one
      other than in a signature message. */
  predicate Mismatch(local: seq<Message>, recv: seq<Message>)
    requires |local| == |recv|
  {
    exists j :: 0 <= j < |local| && recv[j].app != AppSignature && local[j] != recv[j]
  }

  /** The last signature message among msgs[..i]. */
  function LastSigBefore(msgs: seq<Message>, i: nat): (r: Option<nat>)
    requires i <= |msgs|
    ensures r.Some? ==> r.value < i && msgs[r.value].app == AppSignature
                        && forall j :: r.value < j < i ==> msgs[j].app != AppSignature
    ensures r.None? ==> forall j :: 0 <= j < i ==> msgs[j].app != AppSignature
  {
    if i == 0 then None
    else if msgs[i - 1].app == AppSignature then Some(i - 1)
    else LastSigBefore(msgs, i - 1)
  }

  /** The first signature message of msgs[from..]. */
  function FirstSigFrom(msgs: seq<Message>, from: nat): (r: Option<nat>)
    requires from <= |msgs|
    ensures r.Some? ==> from <= r.value < |msgs| && msgs[r.value].app == AppSignature
                        && forall j :: from <= j < r.value ==> msgs[j].app != AppSignature
    ensures r.None? ==> forall j :: from <= j < |msgs| ==> msgs[j].app != AppSignature
    decreases |msgs| - from
  {
    if from == |msgs| then None
    else if msgs[from].app == AppSignature then Some(from)
    else FirstSigFrom(msgs, from + 1)
  }

  /** The local transaction once the received signature list `add` has been
      folded into its signature message k: the first received signature is
      appended, TxHash is zeroed and then recomputed. */
  function WithSignatures(txHash: Transaction -> Hash, local: Transaction, k: nat, sigs: seq<SignatureSet>): Transaction
    requires k < |local.messages|
  {
    var t := local.(messages := local.messages[k := local.messages[k].(payload := SignaturePl(sigs))], txHash := ZeroHash());
    t.(txHash := txHash(t))
  }

  /** checkAndAddTxData: the outcome and the local transaction afterwards. */
  function Merge(txHash: Transaction -> Hash, local: Transaction, recv: Transaction): (MergeOutcome, Transaction)
  {
    if |local.messages| != |recv.messages| then (Failed(MsgCountMismatch), local)
    else if Mismatch(local.messages, recv.messages) then (Failed(MsgNotEqual), local)
    else match LastSigBefore(recv.messages, |recv.messages|)
      case None => (Failed(NoRecvSignature), local)
      case Some(ri) =>
        match FirstSigFrom(local.messages, 0)
        case None => (Failed(NoLocalSignature), local)
        case Some(k) => MergeInto(txHash, local, k, recv.messages[ri].payload)
  }

  /** The last part of checkAndAddTxData: folding the received signature payload
      rp into the local signature message k. */
  function MergeInto(txHash: Transaction -> Hash, local: Transaction, k: nat, rp: Payload): (MergeOutcome, Transaction)
    requires k < |local.messages|
  {
    var lp := local.messages[k].payload;
    if !lp.SignaturePl? then (MergePanic, local)
    else if |lp.signatures| > 0 && (!rp.SignaturePl? || |rp.signatures| == 0) then (MergePanic, local)
    else if |lp.signatures| > 0 && rp.signatures[0] in lp.signatures then (AlreadyHave, local)
    else if !rp.SignaturePl? then (MergePanic, local)
    else (Added, WithSignatures(txHash, local, k, lp.signatures + rp.signatures[..if |rp.signatures| > 0 then 1 else 0]))
  }

  /** checkAndAddTxData, with its loops. */
  method CheckAndAddTxData(txHash: Transaction -> Hash, local: Transaction, recv: Transaction)
    returns (outcome: MergeOutcome, merged: Transaction)
    ensures (outcome, merged) == Merge(txHash, local, recv)
  {
    if |local.messages| != |recv.messages| {
      return Failed(MsgCountMismatch), local;
    }
    var recvSig: Option<nat> := None;
    var i := 0;
    while i < |local.messages|
      invariant 0 <= i <= |local.messages|
      invariant recvSig == LastSigBefore(recv.messages, i)
      invariant forall j :: 0 <= j < i ==> recv.messages[j].app == AppSignature || local.messages[j] == recv.messages[j]
    {
      if recv.messages[i].app == AppSignature {
        recvSig := Some(i);
      } else if local.messages[i] != recv.messages[i] {
        assert Mismatch(local.messages, recv.messages);
        return Failed(MsgNotEqual), local;
      }
      i := i + 1;
    }
    assert !Mismatch(local.messages, recv.messages);
    if recvSig.None? {
      return Failed(NoRecvSignature), local;
    }
    var rp := recv.messages[recvSig.value].payload;
    var k := 0;
    while k < |local.messages|
      invariant 0 <= k <= |local.messages|
      invariant FirstSigFrom(local.messages, 0) == FirstSigFrom(local.messages, k)
    {
      if local.messages[k].app == AppSignature {
        assert FirstSigFrom(local.messages, 0) == Some(k);
        outcome, merged := AddSignature(txHash, local, k, rp);
        return;
      }
      k := k + 1;
    }
    assert FirstSigFrom(local.messages, 0).None?;
    return Failed(NoLocalSignature), local;
  }

  /** checkAndAddTxData's loop over the local signatures of message k. */
  method AddSignature(txHash: Transaction -> Hash, local: Transaction, k: nat, rp: Payload)
    returns (outcome: MergeOutcome, merged: Transaction)
    requires k < |local.messages|
    ensures (outcome, merged) == MergeInto(txHash, local, k, rp)
  {
    var lp := local.messages[k].payload;
    if !lp.SignaturePl? {
      return MergePanic, local;
    }
    var sigs := lp.signatures;
    var s := 0;
    while s < |sigs|
      invariant 0 <= s <= |sigs|
      invariant s > 0 ==> rp.SignaturePl? && |rp.signatures| > 0
      invariant s > 0 ==> rp.signatures[0] !in sigs[..s]
    {
      if !rp.SignaturePl? || |rp.signatures| == 0 {
        return MergePanic, local;
      }
      if sigs[s] == rp.signatures[0] {
        return AlreadyHave, local;
      }
      assert sigs[..s + 1] == sigs[..s] + [sigs[s]];
      s := s + 1;
    }
    assert |sigs| > 0 ==> sigs[..s] == sigs;
    if !rp.SignaturePl? {
      return MergePanic, local;
    }
    var newSigs := sigs;
    if |rp.signatures| > 0 {
      newSigs := sigs + [rp.signatures[0]];
    }
    assert newSigs == sigs + rp.signatures[..if |rp.signatures| > 0 then 1 else 0];
    var t := local.(messages := local.messages[k := local.messages[k].(payload := SignaturePl(newSigs))]);
    t := t.(txHash := ZeroHash());
    t := t.(txHash := txHash(t));
    return Added, t;
  }

  /** A merge that does not add leaves the local transaction as it was. */
  lemma MergeOnlyAddedChanges(txHash: Transaction -> Hash, local: Transaction, recv: Transaction)
    ensures Merge(txHash, local, recv).0 != Added ==> Merge(txHash, local, recv).1 == local
  {
  }

  /** The merge fails exactly in the listed cases, each with its own error. */
  lemma MergeFailures(txHash: Transaction -> Hash, local: Transaction, recv: Transaction)
    ensures Merge(txHash, local, recv).0 == Failed(MsgCountMismatch) <==> |local.messages| != |recv.messages|
    ensures Merge(txHash, local, recv).0 == Failed(MsgNotEqual) <==>
              |local.messages| == |recv.messages| && Mismatch(local.messages, recv.messages)
    ensures Merge(txHash, local, recv).0 == Failed(NoRecvSignature) <==>
              |local.messages| == |recv.messages| && !Mismatch(local.messages, recv.messages)
              && forall j :: 0 <= j < |recv.messages| ==> recv.messages[j].app != AppSignature
    ensures Merge(txHash, local, recv).0 == Failed(NoLocalSignature) <==>
              |local.messages| == |recv.messages| && !Mismatch(local.messages, recv.messages)
              && (exists j :: 0 <= j < |recv.messages| && recv.messages[j].app == AppSignature)
              && forall j :: 0 <= j < |local.messages| ==> local.messages[j].app != AppSignature
  {
    var r := LastSigBefore(recv.messages, |recv.messages|);
    if r.Some? {
      assert recv.messages[r.value].app == AppSignature;
    }
    var f := FirstSigFrom(local.messages, 0);
    if f.Some? {
      assert local.messages[f.value].app == AppSignature;
    }
  }

  /** A successful merge touches only the first local signature message, whose
      list gains exactly the first received signature (when there is one). */
  lemma MergeAddsOne(txHash: Transaction -> Hash, local: Transaction, recv: Transaction)
    requires Merge(txHash, local, recv).0 == Added
    ensures var k := FirstSigFrom(local.messages, 0).value;
            var ri := LastSigBefore(recv.messages, |recv.messages|).value;
            var merged := Merge(txHash, local, recv).1;
            && |merged.messages| == |local.messages|
            && merged.txId == local.txId
            && merged.txHash == txHash(merged.(txHash := ZeroHash()))
            && (forall j :: 0 <= j < |local.messages| && j != k ==> merged.messages[j] == local.messages[j])
            && merged.messages[k].app == AppSignature
            && merged.messages[k].payload.SignaturePl?
            && recv.messages[ri].payload.SignaturePl?
            && merged.messages[k].payload.signatures ==
                 local.messages[k].payload.signatures + recv.messages[ri].payload.signatures[..if |recv.messages[ri].payload.signatures| > 0 then 1 else 0]
  {
  }

  /** Re-delivering the same co-signature is a no-op: after a merge that added
      a signature, merging the same transaction again reports AlreadyHave and
      changes nothing. */
  lemma MergeIdempotent(txHash: Transaction -> Hash, local: Transaction, recv: Transaction)
    requires Merge(txHash, local, recv).0 == Added
    requires var ri := LastSigBefore(recv.messages, |recv.messages|);
             ri.Some? && recv.messages[ri.value].payload.SignaturePl? && |recv.messages[ri.value].payload.signatures| > 0
    ensures var merged := Merge(txHash, local, recv).1;
            Merge(txHash, merged, recv) == (AlreadyHave, merged)
  {
    var merged := Merge(txHash, local, recv).1;
    var k := FirstSigFrom(local.messages, 0).value;
    var ri := LastSigBefore(recv.messages, |recv.messages|).value;
    assert merged.messages[k].app == AppSignature;
    forall j | 0 <= j < k ensures merged.messages[j].app != AppSignature {
      assert merged.messages[j] == local.messages[j];
    }
    assert FirstSigFrom(merged.messages, 0) == Some(k);
    assert !Mismatch(merged.messages, recv.messages) by {
      forall j | 0 <= j < |merged.messages| && recv.messages[j].app != AppSignature
        ensures merged.messages[j] == recv.messages[j]
      {
        assert !Mismatch(local.messages, recv.messages);
        assert local.messages[j] == recv.messages[j];
      }
    }
    var rs := recv.messages[ri].payload.signatures;
    var ms := merged.messages[k].payload.signatures;
    assert ms[|ms| - 1] == rs[0];
  }

  // ---------------------------------------------------------------------------
  // Quorum

  /** getTxSigNum: the length of the first signature message's list, 0 when
      there is none; None stands for the panic of a signature message whose
      payload is not a signature payload. */
  function TxSigNum(tx: Transaction): (r: Option<nat>)
    ensures FirstSigFrom(tx.messages, 0).None? ==> r == Some(0)
    ensures FirstSigFrom(tx.messages, 0).Some? ==>
              var p := tx.messages[FirstSigFrom(tx.messages, 0).value].payload;
              r == if p.SignaturePl? then Some(|p.signatures|) else None
  {
    match FirstSigFrom(tx.messages, 0)
    case None => Some(0)
    case Some(k) =>
      var p := tx.messages[k].payload;
      if p.SignaturePl? then Some(|p.signatures|) else None
  }

  /** The number of signatures addTx2LocalTxTool demands from cnt mediators. */
  function Quorum(cnt: nat): nat
  {
    cnt * 2 / 3 + 1
  }

  /** The quorum is the least count strictly above two thirds of the mediators:
      4 mediators need 3 signatures and 7 need 5. */
  lemma QuorumIsTwoThirdsMajority(cnt: nat)
    ensures 3 * Quorum(cnt) > 2 * cnt
    ensures forall k: nat :: 3 * k > 2 * cnt ==> k >= Quorum(cnt)
    ensures Quorum(4) == 3 && Quorum(7) == 5
  {
    var q := cnt * 2 / 3;
    assert cnt * 2 == 3 * q + cnt * 2 % 3;
    assert 3 * q <= 2 * cnt;
  }

  datatype ToolError = ToolParam | ToolSigNum | ToolPanic | ToolPool

  /** The checks addTx2LocalTxTool makes before handing the transaction to the
      pool: at least 4 mediators and a quorum of signatures. */
  function ToolCheck(tx: Transaction, cnt: nat): (r: Option<ToolError>)
  {
    if cnt < 4 then Some(ToolParam)
    else match TxSigNum(tx)
      case None => Some(ToolPanic)
      case Some(num) => if num < Quorum(cnt) then Some(ToolSigNum) else None
  }

  /** A transaction passes exactly when there are at least 4 mediators and its
      first signature list is longer than two thirds of them. */
  lemma ToolCheckPasses(tx: Transaction, cnt: nat)
    ensures ToolCheck(tx, cnt).None? <==> cnt >= 4 && TxSigNum(tx).Some? && 3 * TxSigNum(tx).value > 2 * cnt
  {
    QuorumIsTwoThirdsMajority(cnt);
  }

  /** A merge that adds a signature raises the signature count by one. */
  lemma MergeRaisesSigNum(txHash: Transaction -> Hash, local: Transaction, recv: Transaction)
    requires Merge(txHash, local, recv).0 == Added
    requires var ri := LastSigBefore(recv.messages, |recv.messages|);
             ri.Some? && recv.messages[ri.value].payload.SignaturePl? && |recv.messages[ri.value].payload.signatures| > 0
    ensures TxSigNum(local).Some?
    ensures TxSigNum(Merge(txHash, local, recv).1) == Some(TxSigNum(local).value + 1)
  {
    var merged := Merge(txHash, local, recv).1;
    var k := FirstSigFrom(local.messages, 0).value;
    assert merged.messages[k].app == AppSignature;
    forall j | 0 <= j < k ensures merged.messages[j].app != AppSignature {
      assert merged.messages[j] == local.messages[j];
    }
    assert FirstSigFrom(merged.messages, 0) == Some(k);
  }

  // ---------------------------------------------------------------------------
  // runContractCmd

  datatype CmdError =
    | NoMessages          // "Transaction or msg is nil"
    | TplUnsupported      // "not support APP_CONTRACT_TPL"
    | DeployUnsupported   // "not support APP_CONTRACT_DEPLOY"
    | StopUnsupported     // "not support APP_CONTRACT_STOP"
    | InvokeFailed        // ContractProcess failed
    | NoRequest           // "Transaction err"
    | CmdPanic            // an invoke request whose payload is not an invoke request payload

  predicate IsRequest(app: MessageType)
  {
    app == AppContractTplRequest || app == AppContractDeployRequest
    || app == AppContractInvokeRequest || app == AppContractStopRequest
  }

  /** The dispatch from message k on: the first request message decides. The
      contract runtime (ContractProcess) is the parameter `process`. */
  function RunFrom(process: (ContractInvokeRequestPayload, Transaction) -> Option<seq<Message>>, tx: Transaction, k: nat)
    : Result<(MessageType, seq<Message>), CmdError>
    requires k <= |tx.messages|
    decreases |tx.messages| - k
  {
    if k == |tx.messages| then Err(NoRequest)
    else
      var m := tx.messages[k];
      if !IsRequest(m.app) then RunFrom(process, tx, k + 1)
      else if m.app == AppContractTplRequest then Err(TplUnsupported)
      else if m.app == AppContractDeployRequest then Err(DeployUnsupported)
      else if m.app == AppContractStopRequest then Err(StopUnsupported)
      else if !m.payload.InvokeRequestPl? then Err(CmdPanic)
      else if process(m.payload.request, tx).None? then Err(InvokeFailed)
      else Ok((m.app, process(m.payload.request, tx).value))
  }

  /** The dispatch succeeds only at an invoke request with no request message
      before it, and without any request message it reports NoRequest. */
  lemma {:induction false} RunFromOutcome(process: (ContractInvokeRequestPayload, Transaction) -> Option<seq<Message>>,
                                          tx: Transaction, k: nat)
    requires k <= |tx.messages|
    ensures var r := RunFrom(process, tx, k);
            r.Ok? ==> exists j :: k <= j < |tx.messages| && tx.messages[j].app == AppContractInvokeRequest
                        && (forall i :: k <= i < j ==> !IsRequest(tx.messages[i].app))
                        && r.value.0 == AppContractInvokeRequest
    ensures (forall i :: k <= i < |tx.messages| ==> !IsRequest(tx.messages[i].app)) ==> RunFrom(process, tx, k) == Err(NoRequest)
    decreases |tx.messages| - k
  {
    if k < |tx.messages| {
      var r := RunFrom(process, tx, k);
      if !IsRequest(tx.messages[k].app) {
        RunFromOutcome(process, tx, k + 1);
        assert r == RunFrom(process, tx, k + 1);
        if r.Ok? {
          var j :| k + 1 <= j < |tx.messages| && tx.messages[j].app == AppContractInvokeRequest
                   && (forall i :: k + 1 <= i < j ==> !IsRequest(tx.messages[i].app))
                   && r.value.0 == AppContractInvokeRequest;
          assert forall i :: k <= i < j ==> !IsRequest(tx.messages[i].app);
        }
      } else if r.Ok? {
        assert tx.messages[k].app == AppContractInvokeRequest;
      }
    }
  }

  /** runContractCmd. */
  function RunContractCmd(process: (ContractInvokeRequestPayload, Transaction) -> Option<seq<Message>>, tx: Transaction)
    : (r: Result<(MessageType, seq<Message>), CmdError>)
    ensures |tx.messages| == 0 ==> r == Err(NoMessages)
  {
    if |tx.messages| == 0 then Err(NoMessages) else RunFrom(process, tx, 0)
  }

  /** The first request message decides: a template, deploy or stop request is
      refused, and an invoke request runs the contract with its own payload. */
  lemma {:induction false} RunFromFirstRequest(process: (ContractInvokeRequestPayload, Transaction) -> Option<seq<Message>>,
                                               tx: Transaction, k: nat, j: nat)
    requires k <= j < |tx.messages| && IsRequest(tx.messages[j].app)
    requires forall i :: k <= i < j ==> !IsRequest(tx.messages[i].app)
    ensures var m := tx.messages[j];
            RunFrom(process, tx, k) ==
              if m.app == AppContractTplRequest then Err(TplUnsupported)
              else if m.app == AppContractDeployRequest then Err(DeployUnsupported)
              else if m.app == AppContractStopRequest then Err(StopUnsupported)
              else if !m.payload.InvokeRequestPl? then Err(CmdPanic)
              else if process(m.payload.request, tx).None? then Err(InvokeFailed)
              else Ok((AppContractInvokeRequest, process(m.payload.request, tx).value))
    decreases j - k
  {
    if k < j {
      RunFromFirstRequest(process, tx, k + 1, j);
    }
  }

  // ---------------------------------------------------------------------------
  // The in-flight table

  /** contractTx: the active mediators when the entry was made, the local signed
      transaction and the creation time in nanoseconds. */
  datatype ContractTx = ContractTx(list: seq<Address>, tx: Transaction, tm: int)

  /** time.Second * 10 in nanoseconds. */
  const ExpiryNanos: int := 10_000_000_000

  /** The table after one pass of ContractTxDeleteLoop at time now. */
  function Swept(mtx: map<Hash, ContractTx>, now: int): map<Hash, ContractTx>
  {
    map k | k in mtx && now - mtx[k].tm <= ExpiryNanos :: mtx[k]
  }

  /** A second sweep at the same or a later time removes what a sweep at that
      later time alone would remove: sweeping is idempotent and monotone. */
  lemma SweptLater(mtx: map<Hash, ContractTx>, now1: int, now2: int)
    requires now1 <= now2
    ensures Swept(Swept(mtx, now1), now2) == Swept(mtx, now2)
  {
  }

  datatype EventError =
    | EventNil            // "param is nil"
    | NotProcessor        // the local node is not a contract processor
    | EventTxInvalid      // checkTxValid failed
    | CmdFailed(e: CmdError)
    | UnlockFailed
    | SignFailed          // GenContractSigTransctions failed

  /** The errors ProcessContractSigEvent returns; it has no success value. */
  datatype SigError =
    | SigParamNil         // nil event or no messages
    | SigTxInvalid
    | SigUnknownTx        // "local not find txid"
    | SigMerge(e: MergeError)
    | SigMergePanic
    | SigTool(t: ToolError)
    | SigDone             // the final error, returned on every other path

  /** ProcessContractSigEvent for a table entry whose local transaction is
      present: the new table, the transactions handed to the pool and the error. */
  function SigStep(txHash: Transaction -> Hash, validTx: Transaction -> bool, mtx: map<Hash, ContractTx>,
                   event: Option<Transaction>): (map<Hash, ContractTx>, seq<Transaction>, SigError)
  {
    if event.None? || |event.value.messages| < 1 then (mtx, [], SigParamNil)
    else if !validTx(event.value) then (mtx, [], SigTxInvalid)
    else if event.value.txId !in mtx then (mtx, [], SigUnknownTx)
    else
      var id := event.value.txId;
      var cx := mtx[id];
      var (outcome, merged) := Merge(txHash, cx.tx, event.value);
      match outcome
      case Failed(e) => (mtx, [], SigMerge(e))
      case MergePanic => (mtx, [], SigMergePanic)
      case AlreadyHave => (mtx, [], SigDone)
      case Added =>
        var m2 := mtx[id := cx.(tx := merged)];
        match ToolCheck(merged, |cx.list|)
        case Some(t) => (m2, [], SigTool(t))
        case None => (m2, [merged], SigDone)
  }

  /** ProcessContractSigEvent as a whole: SigStep, then txPool.AddLocal of the
      transaction it hands over; an accepted transaction's entry is deleted and
      a refused one is reported as a pool error. */
  function SigHandled(txHash: Transaction -> Hash, validTx: Transaction -> bool, poolAccepts: Transaction -> bool,
                      mtx: map<Hash, ContractTx>, event: Option<Transaction>): (map<Hash, ContractTx>, seq<Transaction>, SigError)
  {
    var step := SigStep(txHash, validTx, mtx, event);
    if step.2 == SigDone && step.1 != [] then
      if poolAccepts(step.1[0]) then (step.0 - {event.value.txId}, step.1, SigDone)
      else (step.0, step.1, SigTool(ToolPool))
    else step
  }

  class Processor {
    var mtx: map<Hash, ContractTx>
    /** The transactions handed to txPool.AddLocal, in order. */
    ghost var pool: seq<Transaction>
    /** p.local: the local mediator's address, if this node is one. */
    const local: Option<Address>
    const txHash: Transaction -> Hash                  // Transaction.Hash()
    const validTx: Transaction -> bool                 // cm.ValidateTxSig
    const poolAccepts: Transaction -> bool             // txPool.AddLocal succeeds
    const process: (ContractInvokeRequestPayload, Transaction) -> Option<seq<Message>>   // ContractProcess
    /** gen.GenContractSigTransctions. */
    const genSig: (Address, Transaction, MessageType, seq<Message>) -> Option<Transaction>

    /** NewContractProcessor: an empty table. */
    constructor (local: Option<Address>, txHash: Transaction -> Hash, validTx: Transaction -> bool,
                 poolAccepts: Transaction -> bool,
                 process: (ContractInvokeRequestPayload, Transaction) -> Option<seq<Message>>,
                 genSig: (Address, Transaction, MessageType, seq<Message>) -> Option<Transaction>)
      ensures mtx == map[] && pool == []
      ensures this.local == local && this.txHash == txHash && this.validTx == validTx
      ensures this.poolAccepts == poolAccepts && this.process == process && this.genSig == genSig
    {
      mtx := map[];
      pool := [];
      this.local := local;
      this.txHash := txHash;
      this.validTx := validTx;
      this.poolAccepts := poolAccepts;
      this.process := process;
      this.genSig := genSig;
    }

    /** ProcessContractEvent. The keystore unlock result, the active mediators
        and the clock are parameters. It fails, leaving the table and the pool
        alone, on a nil event, on a node that is no processor, on an invalid
        transaction, on a failed contract run, a failed unlock or a failed
        signing; otherwise it records the signed transaction under the request's
        TxId and hands it to the pool. */
    method ProcessContractEvent(event: Option<Transaction>, unlockOk: bool, mediators: seq<Address>, now: int)
      returns (err: Option<EventError>)
      modifies this`mtx, this`pool
      ensures event.None? ==> err == Some(EventNil)
      ensures event.Some? && local.None? ==> err == Some(NotProcessor)
      ensures event.Some? && local.Some? && !validTx(event.value) ==> err == Some(EventTxInvalid)
      ensures event.Some? && local.Some? && validTx(event.value) && RunContractCmd(process, event.value).Err? ==>
                err == Some(CmdFailed(RunContractCmd(process, event.value).error))
      ensures err.Some? ==> mtx == old(mtx) && pool == old(pool)
      ensures err.None? <==>
                && event.Some? && local.Some? && validTx(event.value) && RunContractCmd(process, event.value).Ok?
                && unlockOk
                && genSig(local.value, event.value, RunContractCmd(process, event.value).value.0,
                          RunContractCmd(process, event.value).value.1).Some?
      ensures err.None? ==>
                var run := RunContractCmd(process, event.value).value;
                var signed := genSig(local.value, event.value, run.0, run.1).value;
                mtx == old(mtx)[event.value.txId := ContractTx(mediators, signed, now)]
                && pool == old(pool) + [signed]
    {
      if event.None? {
        return Some(EventNil);
      }
      var tx := event.value;
      if local.None? {
        return Some(NotProcessor);
      }
      if !validTx(tx) {
        return Some(EventTxInvalid);
      }
      var run := RunContractCmd(process, tx);
      if run.Err? {
        return Some(CmdFailed(run.error));
      }
      if !unlockOk {
        return Some(UnlockFailed);
      }
      var signed := genSig(local.value, tx, run.value.0, run.value.1);
      if signed.None? {
        return Some(SignFailed);
      }
      mtx := mtx[tx.txId := ContractTx(mediators, signed.value, now)];
      pool := pool + [signed.value];
      err := None;
    }

    /** addTx2LocalTxTool: the checks, then txPool.AddLocal, whose outcome is
        returned. */
    method AddTx2LocalTxTool(tx: Transaction, cnt: nat) returns (err: Option<ToolError>)
      modifies this`pool
      ensures ToolCheck(tx, cnt).Some? ==> err == ToolCheck(tx, cnt) && pool == old(pool)
      ensures ToolCheck(tx, cnt).None? ==> pool == old(pool) + [tx] && (err.None? <==> poolAccepts(tx))
      ensures err.Some? && ToolCheck(tx, cnt).None? ==> err == Some(ToolPool)
    {
      var check := ToolCheck(tx, cnt);
      if check.Some? {
        return check;
      }
      pool := pool + [tx];
      if !poolAccepts(tx) {
        return Some(ToolPool);
      }
      err := None;
    }

    /** ProcessContractSigEvent for entries whose local transaction is present.
        Every path returns an error, including the one that merged the
        signature, reached the quorum and removed the entry. */
    method ProcessContractSigEvent(event: Option<Transaction>) returns (err: SigError)
      modifies this`mtx, this`pool
      ensures var h := SigHandled(txHash, validTx, poolAccepts, old(mtx), event);
              mtx == h.0 && pool == old(pool) + h.1 && err == h.2
    {
      if event.None? || |event.value.messages| < 1 {
        return SigParamNil;
      }
      var etx := event.value;
      if !validTx(etx) {
        return SigTxInvalid;
      }
      if etx.txId !in mtx {
        return SigUnknownTx;
      }
      var cx := mtx[etx.txId];
      var outcome, merged := CheckAndAddTxData(txHash, cx.tx, etx);
      match outcome {
        case Failed(e) => return SigMerge(e);
        case MergePanic => return SigMergePanic;
        case AlreadyHave => return SigDone;
        case Added =>
          mtx := mtx[etx.txId := cx.(tx := merged)];
          var terr := AddTx2LocalTxTool(merged, |cx.list|);
          if terr.Some? {
            return SigTool(terr.value);
          }
          mtx := mtx - {etx.txId};
          return SigDone;
      }
    }

    /** One pass of ContractTxDeleteLoop: remove exactly the entries older than
        ten seconds at time now. */
    method SweepExpired(now: int)
      modifies this`mtx
      ensures mtx == Swept(old(mtx), now)
    {
      ghost var m0 := mtx;
      var keys := mtx.Keys;
      while keys != {}
        invariant keys <= m0.Keys
        invariant forall k :: k in mtx <==> k in m0 && (k in keys || now - m0[k].tm <= ExpiryNanos)
        invariant forall k :: k in mtx ==> mtx[k] == m0[k]
        decreases |keys|
      {
        var k :| k in keys;
        if now - mtx[k].tm > ExpiryNanos {
          mtx := mtx - {k};
        }
        keys := keys - {k};
      }
      assert mtx == Swept(m0, now);
    }
  }

  /** The merge-and-check step keeps the table's keys: it rewrites at most the
      entry named by the event and leaves every other entry as it was. */
  lemma SigStepTouchesOnlyItsEntry(txHash: Transaction -> Hash, validTx: Transaction -> bool,
                                   mtx: map<Hash, ContractTx>, event: Option<Transaction>)
    ensures var r := SigStep(txHash, validTx, mtx, event).0;
            r.Keys == mtx.Keys
            && forall k :: k in mtx && (event.None? || k != event.value.txId) ==> r[k] == mtx[k]
  {
  }

  /** ProcessContractSigEvent only ever rewrites or removes the entry named by
      the event: the table gains no key, every other entry stays, and that entry
      is removed exactly when the merged transaction was handed to the pool and
      the pool accepted it. */
  lemma SigHandledTouchesOnlyItsEntry(txHash: Transaction -> Hash, validTx: Transaction -> bool,
                                      poolAccepts: Transaction -> bool,
                                      mtx: map<Hash, ContractTx>, event: Option<Transaction>)
    ensures var h := SigHandled(txHash, validTx, poolAccepts, mtx, event);
            && h.0.Keys <= mtx.Keys
            && (forall k :: k in mtx && (event.None? || k != event.value.txId) ==> k in h.0 && h.0[k] == mtx[k])
            && (event.Some? && event.value.txId in mtx ==>
                  (event.value.txId !in h.0 <==> h.1 != [] && poolAccepts(h.1[0])))
  {
    SigStepTouchesOnlyItsEntry(txHash, validTx, mtx, event);
  }

  /** An event for an unknown TxId is rejected and changes nothing. */
  lemma SigStepUnknown(txHash: Transaction -> Hash, validTx: Transaction -> bool,
                       mtx: map<Hash, ContractTx>, event: Option<Transaction>)
    requires event.Some? && |event.value.messages| >= 1 && validTx(event.value) && event.value.txId !in mtx
    ensures SigStep(txHash, validTx, mtx, event) == (mtx, [], SigUnknownTx)
  {
  }

  /** The merged transaction reaches the pool exactly when the merge added a
      signature and the quorum holds for the entry's mediators. */
  lemma SigStepReachesPool(txHash: Transaction -> Hash, validTx: Transaction -> bool,
                           mtx: map<Hash, ContractTx>, event: Option<Transaction>)
    ensures var s := SigStep(txHash, validTx, mtx, event);
            s.1 != [] <==>
              && event.Some? && |event.value.messages| >= 1 && validTx(event.value) && event.value.txId in mtx
              && Merge(txHash, mtx[event.value.txId].tx, event.value).0 == Added
              && ToolCheck(Merge(txHash, mtx[event.value.txId].tx, event.value).1, |mtx[event.value.txId].list|).None?
  {
  }
}
