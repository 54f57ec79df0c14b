// The transaction simulator of contracts/rwset/rwsetTxSimulator.go: guards on
// "done" and "private data queried" in front of a read/write-set builder.
// The builder (RWSetBuilder) is not part of this model; its read set and write
// set are kept as logs of the records added to them, in order.

module RwSet {
  import opened Common

  /** A state version (Version); the database that would supply one is not
      consulted by the simulator, so the model never builds one. */
  datatype Version = Version(blockNum: nat, txNum: nat)

  /** VersionedValue: a value (None is a nil []byte) and its version (None is a
      nil *Version). */
  datatype VersionedValue = VersionedValue(value: Option<Bytes>, version: Option<Version>)

  /** What AddToReadSet and AddToWriteSet are given. */
  datatype ReadRecord = ReadRecord(ns: string, key: string, version: Option<Version>)
  datatype WriteRecord = WriteRecord(ns: string, key: string, value: Option<Bytes>)

  const DoneError: string := "This instance should not be used after calling Done()"
  const PvtDataError: string := "pvtdata Queries Performed"

  /** The simulator's whole state as a value. */
  datatype SimState = SimState(
    readSet: seq<ReadRecord>,
    writeSet: seq<WriteRecord>,
    writePerformed: bool,
    pvtdataQueriesPerformed: bool,
    doneInvoked: bool)

  /** The state newBasedTxSimulator builds: empty sets, every flag false. */
  function Initial(): SimState
  {
    SimState([], [], false, false, false)
  }

  /** decomposeVersionedValue: the value and version of a versioned value,
      both nil for a nil one. */
  function DecomposeVersionedValue(vv: Option<VersionedValue>): (r: (Option<Bytes>, Option<Version>))
    ensures vv.None? ==> r == (None, None)
    ensures vv.Some? ==> VersionedValue(r.0, r.1) == vv.value
  {
    match vv
    case None => (None, None)
    case Some(v) => (v.value, v.version)
  }

  /** CheckDone on a state. */
  function CheckDoneOf(s: SimState): Result<(), string>
  {
    if s.doneInvoked then Err(DoneError) else Ok(())
  }

  /** GetState on a state: the database lookup is absent in the source, so the
      value read is always nil and the read set records a nil version. */
  function GetStateOf(s: SimState, ns: string, key: string): (SimState, Result<Option<Bytes>, string>)
  {
    if CheckDoneOf(s).Err? then (s, Err(CheckDoneOf(s).error))
    else
      var (val, ver) := DecomposeVersionedValue(None);
      (s.(readSet := s.readSet + [ReadRecord(ns, key, ver)]), Ok(val))
  }

  /** SetState on a state. */
  function SetStateOf(s: SimState, ns: string, key: string, value: Option<Bytes>): (SimState, Result<(), string>)
  {
    if CheckDoneOf(s).Err? then (s, Err(CheckDoneOf(s).error))
    else if s.pvtdataQueriesPerformed then (s, Err(PvtDataError))
    else (s.(writeSet := s.writeSet + [WriteRecord(ns, key, value)]), Ok(()))
  }

  /** CheckDone fails exactly after Done has been invoked. */
  lemma CheckDoneFailsIffDone(s: SimState)
    ensures CheckDoneOf(s).Err? <==> s.doneInvoked
    ensures CheckDoneOf(s).Err? ==> CheckDoneOf(s).error == DoneError
  {
  }

  /** GetState fails only once Done has been invoked, changing nothing; otherwise
      it returns nil, records (ns, key) with a nil version and leaves the write
      set and flags alone. */
  lemma GetStateEffect(s: SimState, ns: string, key: string)
    ensures s.doneInvoked ==> GetStateOf(s, ns, key) == (s, Err(DoneError))
    ensures !s.doneInvoked ==>
              GetStateOf(s, ns, key).1 == Ok(None)
              && GetStateOf(s, ns, key).0.readSet == s.readSet + [ReadRecord(ns, key, None)]
              && GetStateOf(s, ns, key).0.(readSet := s.readSet) == s
  {
  }

  /** SetState fails when Done was invoked or private data was queried, and then
      changes nothing; otherwise it appends (ns, key, value) to the write set and
      changes nothing else. */
  lemma SetStateEffect(s: SimState, ns: string, key: string, value: Option<Bytes>)
    ensures SetStateOf(s, ns, key, value).1.Err? <==> s.doneInvoked || s.pvtdataQueriesPerformed
    ensures SetStateOf(s, ns, key, value).1.Err? ==> SetStateOf(s, ns, key, value).0 == s
    ensures SetStateOf(s, ns, key, value).1.Ok? ==>
              SetStateOf(s, ns, key, value).0 == s.(writeSet := s.writeSet + [WriteRecord(ns, key, value)])
  {
  }

  /** The operations a caller can apply to a simulator. */
  datatype Op =
    | GetOp(ns: string, key: string)
    | SetOp(ns: string, key: string, value: Option<Bytes>)
    | DeleteOp(ns: string, key: string)
    | DoneOp

  /** One operation on a state (DeleteState is SetState with a nil value; Done
      changes nothing). */
  function Step(s: SimState, op: Op): SimState
  {
    match op
    case GetOp(ns, key) => GetStateOf(s, ns, key).0
    case SetOp(ns, key, value) => SetStateOf(s, ns, key, value).0
    case DeleteOp(ns, key) => SetStateOf(s, ns, key, None).0
    case DoneOp => s
  }

  /** The state after a sequence of operations. */
  function Run(s: SimState, ops: seq<Op>): SimState
    decreases |ops|
  {
    if |ops| == 0 then s else Run(Step(s, ops[0]), ops[1..])
  }

  /** No operation sets a flag: from a state with every flag false, any
      sequence of operations keeps them false. */
  lemma {:induction false} RunKeepsFlags(s: SimState, ops: seq<Op>)
    requires !s.doneInvoked && !s.pvtdataQueriesPerformed && !s.writePerformed
    ensures !Run(s, ops).doneInvoked && !Run(s, ops).pvtdataQueriesPerformed && !Run(s, ops).writePerformed
    decreases |ops|
  {
    if |ops| > 0 {
      RunKeepsFlags(Step(s, ops[0]), ops[1..]);
    }
  }


  /** The writes a sequence of operations asks for, in order, a delete writing
      nil. */
  function WritesOf(ops: seq<Op>): seq<WriteRecord>
  {
    if |ops| == 0 then []
    else
      match ops[0]
      case SetOp(ns, key, value) => [WriteRecord(ns, key, value)] + WritesOf(ops[1..])
      case DeleteOp(ns, key) => [WriteRecord(ns, key, None)] + WritesOf(ops[1..])
      case _ => WritesOf(ops[1..])
  }

  /** With neither guard raised, the write set grows by exactly the writes the
      operations ask for, in order. */
  lemma {:induction false} RunWrites(s: SimState, ops: seq<Op>)
    requires !s.doneInvoked && !s.pvtdataQueriesPerformed
    ensures Run(s, ops).writeSet == s.writeSet + WritesOf(ops)
    decreases |ops|
  {
    if |ops| > 0 {
      var t := Step(s, ops[0]);
      RunWrites(t, ops[1..]);
      assert s.writeSet + WritesOf(ops) == t.writeSet + WritesOf(ops[1..]);
    } else {
      assert s.writeSet + [] == s.writeSet;
    }
  }

  /** Since Done does nothing, a simulator from newBasedTxSimulator never fails
      CheckDone, every SetState it is given succeeds, and its write set is the
      writes it was asked for. */
  lemma NeverDone(ops: seq<Op>, ns: string, key: string, value: Option<Bytes>)
    ensures CheckDoneOf(Run(Initial(), ops)).Ok?
    ensures SetStateOf(Run(Initial(), ops), ns, key, value).1.Ok?
    ensures Run(Initial(), ops).writeSet == WritesOf(ops)
  {
    RunKeepsFlags(Initial(), ops);
    RunWrites(Initial(), ops);
  }

  class RwSetTxSimulator {
    const txid: string
    var readSet: seq<ReadRecord>
    var writeSet: seq<WriteRecord>
    var writePerformed: bool
    var pvtdataQueriesPerformed: bool
    var doneInvoked: bool

    function State(): SimState
      reads this
    {
      SimState(readSet, writeSet, writePerformed, pvtdataQueriesPerformed, doneInvoked)
    }

    /** newBasedTxSimulator. */
    constructor (txid: string)
      ensures this.txid == txid && State() == Initial()
    {
      this.txid := txid;
      readSet := [];
      writeSet := [];
      writePerformed := false;
      pvtdataQueriesPerformed := false;
      doneInvoked := false;
    }

    /** CheckDone. */
    function CheckDone(): (r: Result<(), string>)
      reads this
      ensures r.Err? <==> doneInvoked
      ensures r == CheckDoneOf(State())
    {
      if doneInvoked then Err(DoneError) else Ok(())
    }

    method GetState(ns: string, key: string) returns (r: Result<Option<Bytes>, string>)
      modifies this
      ensures (State(), r) == GetStateOf(old(State()), ns, key)
    {
      var err := CheckDone();
      if err.Err? {
        return Err(err.error);
      }
      var versionedValue: Option<VersionedValue> := None;
      var (val, ver) := DecomposeVersionedValue(versionedValue);
      readSet := readSet + [ReadRecord(ns, key, ver)];
      return Ok(val);
    }

    method SetState(ns: string, key: string, value: Option<Bytes>) returns (r: Result<(), string>)
      modifies this
      ensures (State(), r) == SetStateOf(old(State()), ns, key, value)
    {
      var err := CheckDone();
      if err.Err? {
        return Err(err.error);
      }
      if pvtdataQueriesPerformed {
        return Err(PvtDataError);
      }
      writeSet := writeSet + [WriteRecord(ns, key, value)];
      return Ok(());
    }

    /** DeleteState: SetState with a nil value. */
    method DeleteState(ns: string, key: string) returns (r: Result<(), string>)
      modifies this
      ensures (State(), r) == SetStateOf(old(State()), ns, key, None)
    {
      r := SetState(ns, key, None);
    }

    /** Done: no effect (the source leaves its body to do). */
    method Done()
      modifies this
      ensures State() == Step(old(State()), DoneOp)
    {
    }
  }
}
