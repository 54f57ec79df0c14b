// Peer bookkeeping of the PalletOne sub-protocol (ptn/peer.go): each peer's
// best head per asset, its bounded sets of known hashes, the set of registered
// peers, and the checks of the status message in the handshake.

module Peer {
  import opened Common
  import opened Modules

  /** maxKnownTxs and maxKnownBlocks (the group-signature set shares the block
      cap). */
  const MaxKnownTxs: nat := 32768
  const MaxKnownBlocks: nat := 1024

  /** peerMsg: a head hash and its chain index. */
  datatype PeerMsg = PeerMsg(head: Hash, number: ChainIndex)

  /** Head: the recorded head of an asset, or the zero hash and the zero chain
      index for an asset never set. */
  function HeadOf(peermsg: map<Id16, PeerMsg>, assetId: Id16): (r: (Hash, ChainIndex))
    ensures assetId !in peermsg ==> r == (ZeroHash(), ZeroChainIndex())
  {
    if assetId in peermsg then (peermsg[assetId].head, peermsg[assetId].number)
    else (ZeroHash(), ZeroChainIndex())
  }

  /** SetHead's update of the map: the entry of the index's asset takes the new
      head when there was none or the new index is strictly greater. */
  function WithHead(peermsg: map<Id16, PeerMsg>, hash: Hash, number: ChainIndex): map<Id16, PeerMsg>
  {
    var a := number.assetId;
    if a !in peermsg || number.index > peermsg[a].number.index then peermsg[a := PeerMsg(hash, number)]
    else peermsg
  }

  /** After SetHead the asset's index is the larger of the old and the new one,
      the hash changes only on a first set or a strictly greater index, and
      every other asset keeps its head. */
  lemma SetHeadKeepsMax(peermsg: map<Id16, PeerMsg>, hash: Hash, number: ChainIndex)
    ensures var a := number.assetId;
            var after := HeadOf(WithHead(peermsg, hash, number), a);
            (a !in peermsg ==> after == (hash, number))
            && (a in peermsg ==>
                  after.1.index == (if number.index > peermsg[a].number.index then number.index else peermsg[a].number.index)
                  && (after.0 == hash || after == HeadOf(peermsg, a))
                  && (number.index <= peermsg[a].number.index ==> after == HeadOf(peermsg, a)))
    ensures forall b :: b != number.assetId ==> HeadOf(WithHead(peermsg, hash, number), b) == HeadOf(peermsg, b)
  {
  }

  /** The kinds of known-hash sets. */
  datatype Known = KnownUnits | KnownTxs | KnownGroupSigs

  class Peer {
    const id: string
    const version: int
    var peermsg: map<Id16, PeerMsg>
    var knownTxs: set<Hash>
    var knownBlocks: set<Hash>
    var knownGroupSig: set<Hash>

    /** newPeer: no heads and empty known sets. */
    constructor (id: string, version: int)
      ensures this.id == id && this.version == version
      ensures peermsg == map[] && knownTxs == {} && knownBlocks == {} && knownGroupSig == {}
    {
      this.id := id;
      this.version := version;
      peermsg := map[];
      knownTxs := {};
      knownBlocks := {};
      knownGroupSig := {};
    }

    /** Whether the peer's set of the given kind holds the hash. */
    predicate Knows(kind: Known, hash: Hash)
      reads this
    {
      match kind
      case KnownUnits => hash in knownBlocks
      case KnownTxs => hash in knownTxs
      case KnownGroupSigs => hash in knownGroupSig
    }

    /** The head index of an asset, 0 when never set. */
    function HeadIndex(assetId: Id16): nat
      reads this
    {
      HeadOf(peermsg, assetId).1.index
    }

    method SetHead(hash: Hash, number: ChainIndex)
      modifies this
      ensures peermsg == WithHead(old(peermsg), hash, number)
      ensures knownTxs == old(knownTxs) && knownBlocks == old(knownBlocks) && knownGroupSig == old(knownGroupSig)
    {
      var ok := number.assetId in peermsg;
      var msg := if ok then peermsg[number.assetId] else PeerMsg(ZeroHash(), ZeroChainIndex());
      if (ok && number.index > msg.number.index) || !ok {
        msg := PeerMsg(hash, number);
      }
      peermsg := peermsg[number.assetId := msg];
    }

    method MarkUnit(hash: Hash)
      modifies this
      ensures MarkedFrom(old(knownBlocks), MaxKnownBlocks, hash, knownBlocks)
      ensures |old(knownBlocks)| < MaxKnownBlocks ==> knownBlocks == old(knownBlocks) + {hash}
      ensures knownTxs == old(knownTxs) && knownGroupSig == old(knownGroupSig) && peermsg == old(peermsg)
    {
      knownBlocks := Mark(knownBlocks, MaxKnownBlocks, hash);
    }

    method MarkGroupSig(hash: Hash)
      modifies this
      ensures MarkedFrom(old(knownGroupSig), MaxKnownBlocks, hash, knownGroupSig)
      ensures |old(knownGroupSig)| < MaxKnownBlocks ==> knownGroupSig == old(knownGroupSig) + {hash}
      ensures knownTxs == old(knownTxs) && knownBlocks == old(knownBlocks) && peermsg == old(peermsg)
    {
      knownGroupSig := Mark(knownGroupSig, MaxKnownBlocks, hash);
    }

    method MarkTransaction(hash: Hash)
      modifies this
      ensures MarkedFrom(old(knownTxs), MaxKnownTxs, hash, knownTxs)
      ensures |old(knownTxs)| < MaxKnownTxs ==> knownTxs == old(knownTxs) + {hash}
      ensures knownBlocks == old(knownBlocks) && knownGroupSig == old(knownGroupSig) && peermsg == old(peermsg)
    {
      knownTxs := Mark(knownTxs, MaxKnownTxs, hash);
    }
  }

  /** What a Mark may leave: the hash is known, the set is within its cap, and
      nothing new is known but the hash; a full set keeps exactly cap - 1 of its
      old hashes (Pop drops elements of its choosing). */
  ghost predicate MarkedFrom(s: set<Hash>, cap: nat, hash: Hash, t: set<Hash>)
  {
    hash in t && |t| <= cap && t <= s + {hash}
    && (|s| >= cap ==> exists r :: r <= s && |r| == cap - 1 && t == r + {hash})
  }

  /** The Mark* loop: Pop until the set is below the cap, then Add. */
  method Mark(s: set<Hash>, cap: nat, hash: Hash) returns (t: set<Hash>)
    requires cap > 0
    ensures MarkedFrom(s, cap, hash, t)
    ensures |s| < cap ==> t == s + {hash}
  {
    t := s;
    while |t| >= cap
      invariant t <= s
      invariant |s| < cap ==> t == s
      invariant |s| >= cap ==> |t| >= cap - 1
      decreases |t|
    {
      var x :| x in t;
      t := t - {x};
    }
    ghost var kept := t;
    t := t + {hash};
    assert |s| >= cap ==> kept <= s && |kept| == cap - 1 && t == kept + {hash};
  }

  // ---------------------------------------------------------------------------
  // The status message

  /** statusData. */
  datatype StatusData = StatusData(protocolVersion: nat, networkId: nat, index: ChainIndex, genesisUnit: Hash, currentHeader: Hash)

  /** A message as read: its code, its size and its payload if it decodes as
      statusData. */
  datatype Msg = Msg(code: nat, size: nat, status: Option<StatusData>)

  datatype HandshakeError =
    | ReadFailed
    | ErrNoStatusMsg
    | ErrMsgTooLarge
    | ErrDecode
    | ErrGenesisBlockMismatch
    | ErrNetworkIdMismatch
    | ErrProtocolVersionMismatch

  /** readStatus for the message read (None when reading fails), the status
      code and size limit of the protocol, and the local network, genesis and
      version. */
  function ReadStatus(read: Option<Msg>, statusMsg: nat, maxMsgSize: nat, network: nat, genesis: Hash, version: int): (r: Result<StatusData, HandshakeError>)
    ensures read.None? ==> r == Err(ReadFailed)
    ensures r.Ok? ==> read.Some? && read.value.status == Some(r.value)
                      && r.value.genesisUnit == genesis && r.value.networkId == network && r.value.protocolVersion == version
  {
    if read.None? then Err(ReadFailed)
    else
      var msg := read.value;
      if msg.code != statusMsg then Err(ErrNoStatusMsg)
      else if msg.size > maxMsgSize then Err(ErrMsgTooLarge)
      else if msg.status.None? then Err(ErrDecode)
      else if msg.status.value.genesisUnit != genesis then Err(ErrGenesisBlockMismatch)
      else if msg.status.value.networkId != network then Err(ErrNetworkIdMismatch)
      else if msg.status.value.protocolVersion != version then Err(ErrProtocolVersionMismatch)
      else Ok(msg.status.value)
  }

  /** The handshake accepts exactly a well-formed status message of the same
      genesis, network and version; each rejection implies that every earlier
      check passed. */
  lemma ReadStatusOrder(read: Option<Msg>, statusMsg: nat, maxMsgSize: nat, network: nat, genesis: Hash, version: int)
    ensures var r := ReadStatus(read, statusMsg, maxMsgSize, network, genesis, version);
            (r.Ok? <==> read.Some? && read.value.code == statusMsg && read.value.size <= maxMsgSize
                        && read.value.status.Some? && read.value.status.value.genesisUnit == genesis
                        && read.value.status.value.networkId == network && read.value.status.value.protocolVersion == version)
            && (r.Ok? ==> r.value == read.value.status.value)
            && (r.Err? && r.error != ReadFailed ==> read.Some?)
            && (r.Err? && r.error !in {ReadFailed, ErrNoStatusMsg} ==> read.value.code == statusMsg)
            && (r.Err? && r.error !in {ReadFailed, ErrNoStatusMsg, ErrMsgTooLarge} ==> read.value.size <= maxMsgSize)
            && (r.Err? && r.error in {ErrGenesisBlockMismatch, ErrNetworkIdMismatch, ErrProtocolVersionMismatch} ==>
                  read.value.status.Some?)
            && (r.Err? && r.error in {ErrNetworkIdMismatch, ErrProtocolVersionMismatch} ==>
                  read.value.status.value.genesisUnit == genesis)
            && (r == Err(ErrProtocolVersionMismatch) ==> read.value.status.value.networkId == network)
  {
  }

  // ---------------------------------------------------------------------------
  // The peer set

  datatype PeerSetError = ErrClosed | ErrAlreadyRegistered | ErrNotRegistered

  class PeerSet {
    var peers: map<string, Peer>
    var closed: bool

    /** Every peer is registered under its own id. */
    ghost predicate Valid()
      reads this
    {
      forall id :: id in peers ==> peers[id].id == id
    }

    /** newPeerSet. */
    constructor ()
      ensures Valid() && peers == map[] && !closed
    {
      peers := map[];
      closed := false;
    }

    method Register(p: Peer) returns (err: Option<PeerSetError>)
      requires Valid()
      modifies this
      ensures Valid()
      ensures old(closed) ==> err == Some(ErrClosed) && peers == old(peers)
      ensures !old(closed) && p.id in old(peers) ==> err == Some(ErrAlreadyRegistered) && peers == old(peers)
      ensures !old(closed) && p.id !in old(peers) ==> err.None? && peers == old(peers)[p.id := p]
      ensures closed == old(closed)
    {
      if closed {
        return Some(ErrClosed);
      }
      if p.id in peers {
        return Some(ErrAlreadyRegistered);
      }
      peers := peers[p.id := p];
      return None;
    }

    method Unregister(id: string) returns (err: Option<PeerSetError>)
      requires Valid()
      modifies this
      ensures Valid()
      ensures id !in old(peers) ==> err == Some(ErrNotRegistered) && peers == old(peers)
      ensures id in old(peers) ==> err.None? && peers == old(peers) - {id}
      ensures closed == old(closed)
    {
      if id !in peers {
        return Some(ErrNotRegistered);
      }
      peers := peers - {id};
      return None;
    }

    /** Close: every peer is dropped and the set refuses new ones. */
    method Close()
      modifies this
      ensures Valid() && peers == map[] && closed
    {
      peers := map[];
      closed := true;
    }

    /** The peers whose set of the kind lacks the hash, visited in the map's
        order; ids says under which id each was found. */
    method PeersWithout(kind: Known, hash: Hash) returns (list: seq<Peer>, ghost ids: seq<string>)
      ensures |ids| == |list|
      ensures forall i, j :: 0 <= i < j < |ids| ==> ids[i] != ids[j]
      ensures forall i :: 0 <= i < |ids| ==> ids[i] in peers && peers[ids[i]] == list[i]
      ensures forall id :: id in peers ==> (id in ids <==> !peers[id].Knows(kind, hash))
    {
      list := [];
      ids := [];
      var remaining := peers.Keys;
      while remaining != {}
        invariant remaining <= peers.Keys
        invariant |ids| == |list|
        invariant forall i, j :: 0 <= i < j < |ids| ==> ids[i] != ids[j]
        invariant forall i :: 0 <= i < |ids| ==> ids[i] in peers && ids[i] !in remaining && peers[ids[i]] == list[i]
        invariant forall id :: id in peers && id !in remaining ==> (id in ids <==> !peers[id].Knows(kind, hash))
        decreases |remaining|
      {
        var id :| id in remaining;
        var p := peers[id];
        if !p.Knows(kind, hash) {
          list := list + [p];
          ids := ids + [id];
        }
        remaining := remaining - {id};
      }
    }

    method PeersWithoutUnit(hash: Hash) returns (list: seq<Peer>, ghost ids: seq<string>)
      ensures |ids| == |list| && forall i, j :: 0 <= i < j < |ids| ==> ids[i] != ids[j]
      ensures forall i :: 0 <= i < |ids| ==> ids[i] in peers && peers[ids[i]] == list[i]
      ensures forall id :: id in peers ==> (id in ids <==> hash !in peers[id].knownBlocks)
    {
      list, ids := PeersWithout(KnownUnits, hash);
    }

    method PeersWithoutGroupSig(hash: Hash) returns (list: seq<Peer>, ghost ids: seq<string>)
      ensures |ids| == |list| && forall i, j :: 0 <= i < j < |ids| ==> ids[i] != ids[j]
      ensures forall i :: 0 <= i < |ids| ==> ids[i] in peers && peers[ids[i]] == list[i]
      ensures forall id :: id in peers ==> (id in ids <==> hash !in peers[id].knownGroupSig)
    {
      list, ids := PeersWithout(KnownGroupSigs, hash);
    }

    method PeersWithoutTx(hash: Hash) returns (list: seq<Peer>, ghost ids: seq<string>)
      ensures |ids| == |list| && forall i, j :: 0 <= i < j < |ids| ==> ids[i] != ids[j]
      ensures forall i :: 0 <= i < |ids| ==> ids[i] in peers && peers[ids[i]] == list[i]
      ensures forall id :: id in peers ==> (id in ids <==> hash !in peers[id].knownTxs)
    {
      list, ids := PeersWithout(KnownTxs, hash);
    }

    /** BestPeer: none for an empty set, otherwise a registered peer whose head
        index for the asset is at least every other peer's. */
    method BestPeer(assetId: Id16) returns (best: Option<Peer>)
      ensures best.None? <==> |peers| == 0
      ensures best.Some? ==>
                (exists id :: id in peers && peers[id] == best.value)
                && forall id :: id in peers ==> peers[id].HeadIndex(assetId) <= best.value.HeadIndex(assetId)
    {
      best := None;
      var bestTd := 0;
      ghost var bestId := "";
      var remaining := peers.Keys;
      while remaining != {}
        invariant remaining <= peers.Keys
        invariant best.None? ==> forall id :: id in peers ==> id in remaining
        invariant best.Some? ==> bestId in peers && bestId !in remaining && peers[bestId] == best.value
                                 && bestTd == best.value.HeadIndex(assetId)
        invariant forall id :: id in peers && id !in remaining ==> peers[id].HeadIndex(assetId) <= bestTd
        decreases |remaining|
      {
        var id :| id in remaining;
        var p := peers[id];
        var (_, number) := HeadOf(p.peermsg, assetId);
        if best.None? || number.index > bestTd {
          best, bestTd := Some(p), number.index;
          bestId := id;
        }
        remaining := remaining - {id};
      }
      if best.None? {
        assert peers.Keys == {};
      } else {
        assert bestId in peers.Keys;
      }
    }
  }
}
