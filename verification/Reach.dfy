/** Laws of the whole engine, over all peers, and how a change at one peer keeps them. */
module Reach {
  import opened Bytes
  import opened Geometry
  import opened Disk
  import opened Pieces
  import opened Picker
  import opened Swarm
  import opened Ledger
  import opened Receipts
  import opened Pipeline

  /* ---- the laws ---- */

  /** Tables, buffers and request lists are within their limits. */
  ghost predicate Base(c: Config, e: Engine) {
    && Sized(c, e.hist) && |e.disk| == c.meta.totalLength
    && Tables(c.meta, e.mgr) && Counted(e.mgr)
    && forall p | p in e.peers :: Within(c.meta, e.mgr.have, e.peers[p])
  }

  /** Besides, no piece lies around with all its blocks counted. */
  ghost predicate Core(c: Config, e: Engine) {
    Base(c, e) && Unfinished(e.mgr)
  }

  ghost function Outstanding(peers: map<PeerId, Member>): set<Key> {
    set p, r | p in peers && r in peers[p].out :: KeyOf(r)
  }

  /** Every requested block is on the list of some registered peer. */
  ghost predicate NoLost(e: Engine) {
    forall x: Key | StateOf(e.mgr, x) == Some(Requested) :: x in Outstanding(e.peers)
  }

  /** Exclusive assignment: no block is outstanding twice, at one peer or at two, and no outstanding block is Pending. */
  ghost predicate Sole(e: Engine) {
    && (forall p | p in e.peers :: Distinct(e.peers[p].out))
    && (forall p, q | p in e.peers && q in e.peers && p != q :: Keys(e.peers[p].out) !! Keys(e.peers[q].out))
    && forall x | x in Outstanding(e.peers) :: StateOf(e.mgr, x) != Some(Pending)
  }

  /** Every outstanding block is in the table of a piece in progress, so that nobody else will be asked for it. */
  ghost predicate Tracked(e: Engine) {
    forall x | x in Outstanding(e.peers) :: StateOf(e.mgr, x).Some?
  }

  /** Exclusive assignment in which, besides, an outstanding block that no table tracks counts as a breach. */
  ghost predicate Solo(e: Engine) {
    Sole(e) && Tracked(e)
  }

  ghost predicate AllOnRequest(e: Engine) {
    forall x | x in Outstanding(e.peers) :: StateOf(e.mgr, x) == Some(Requested)
  }

  /** The registered peers whose bitfield has piece `i`. */
  ghost function Sharers(peers: map<PeerId, Member>, i: nat): set<PeerId> {
    set p | p in peers && i in peers[p].bits
  }

  /** Each histogram cell is the number of registered peers sharing the piece. */
  ghost predicate Availability(e: Engine) {
    && |e.peers| <= UINT32_MAX
    && forall i | 0 <= i < |e.hist| :: e.hist[i] == |Sharers(e.peers, i)|
  }

  /** Piece `i` as stored has the hash the metadata gives. */
  ghost predicate Stored(c: Config, disk: seq<byte>, i: nat) {
    && i < c.meta.numPieces == |c.meta.pieceHashes|
    && 0 <= PieceStart(c.meta, i) && PieceStart(c.meta, i) + PieceLength(c.meta, i) <= |disk|
    && c.sha1(PieceSlice(disk, c.meta, i)) == c.meta.pieceHashes[i]
  }

  ghost predicate OnDisk(c: Config, e: Engine) {
    forall i | i in e.mgr.have :: Stored(c, e.disk, i)
  }

  /** The completion callback ran exactly once for each piece held. */
  ghost predicate Logged(e: Engine) {
    && (forall a, b | 0 <= a < b < |e.completed| :: e.completed[a] != e.completed[b])
    && forall i :: i in e.completed <==> i in e.mgr.have
  }

  /* ---- changes at one peer ---- */

  ghost function Others(e: Engine, p: PeerId): set<Key> {
    Outstanding(e.peers - {p})
  }

  lemma OutstandingSplit(peers: map<PeerId, Member>, p: PeerId)
    requires p in peers
    ensures Outstanding(peers) == Keys(peers[p].out) + Outstanding(peers - {p})
  {
    forall x ensures x in Outstanding(peers) <==> x in Keys(peers[p].out) || x in Outstanding(peers - {p}) {
      if x in Outstanding(peers) {
        var q, r :| q in peers && r in peers[q].out && x == KeyOf(r);
        assert q != p ==> q in peers - {p} && (peers - {p})[q] == peers[q];
      }
    }
  }

  lemma OthersSame(e: Engine, p: PeerId, t: Slot)
    ensures Others(WithSlot(e, p, t), p) == Others(e, p)
  {
    assert WithSlot(e, p, t).peers - {p} == e.peers - {p};
  }

  lemma OutstandingAt(peers: map<PeerId, Member>, p: PeerId, x: Key)
    requires p in peers && x in Keys(peers[p].out)
    ensures x in Outstanding(peers)
  {
  }

  lemma WithSlotCore(c: Config, e: Engine, p: PeerId, t: Slot)
    requires Base(c, e)
    requires SlotSound(c, t) && t.mgr.have == e.mgr.have && Counted(t.mgr)
    ensures Base(c, WithSlot(e, p, t))
    ensures Unfinished(t.mgr) ==> Core(c, WithSlot(e, p, t))
  {
    hide Within, Tables, Counted, Unfinished, Sound;
  }

  /** The ownership laws at one peer are the laws of the whole engine. */
  lemma WithSlotOwners(e: Engine, p: PeerId, t: Slot)
    requires p in e.peers
    ensures NoneLost(t.mgr, t.peer.out, Others(e, p)) ==> NoLost(WithSlot(e, p, t))
    ensures Solo(e) && Exclusive(t.mgr, t.peer.out, Others(e, p)) ==> Solo(WithSlot(e, p, t))
    ensures Sole(e) && Alone(t.mgr, t.peer.out, Others(e, p)) ==> Sole(WithSlot(e, p, t))
    ensures OnRequest(t.mgr, t.peer.out, Others(e, p)) ==> AllOnRequest(WithSlot(e, p, t))
  {
    hide StateOf, Distinct, Keys, Outstanding;
    var f := WithSlot(e, p, t);
    OthersSame(e, p, t);
    OutstandingSplit(f.peers, p);
    forall q, x | q in f.peers && q != p && x in Keys(f.peers[q].out) ensures x in Others(e, p) {
      assert q in e.peers - {p} && (e.peers - {p})[q] == f.peers[q];
      OutstandingAt(e.peers - {p}, q, x);
    }
  }

  lemma OwnersAtSlot(e: Engine, p: PeerId)
    requires p in e.peers
    ensures NoLost(e) ==> NoneLost(e.mgr, e.peers[p].out, Others(e, p))
    ensures Solo(e) ==> Exclusive(e.mgr, e.peers[p].out, Others(e, p))
    ensures Sole(e) ==> Alone(e.mgr, e.peers[p].out, Others(e, p))
    ensures AllOnRequest(e) ==> OnRequest(e.mgr, e.peers[p].out, Others(e, p))
  {
    hide StateOf, Distinct, Keys;
    OutstandingSplit(e.peers, p);
    if Sole(e) {
      forall x | x in Keys(e.peers[p].out) ensures x !in Others(e, p) {
        if x in Others(e, p) {
          var q := HolderOf(e.peers - {p}, x);
          assert false;
        }
      }
    }
  }

  lemma HolderOf(peers: map<PeerId, Member>, x: Key) returns (q: PeerId)
    requires x in Outstanding(peers)
    ensures q in peers && x in Keys(peers[q].out)
  {
    var p, r :| p in peers && r in peers[p].out && x == KeyOf(r);
    q := p;
  }

  /** `f` differs from `e` only in requests, active pieces and connection flags. */
  ghost predicate SameOutside(e: Engine, f: Engine) {
    && f.hist == e.hist && f.disk == e.disk && f.completed == e.completed && f.corrupt == e.corrupt
    && f.mgr.have == e.mgr.have && Undelivered(e.mgr, f.mgr)
    && f.peers.Keys == e.peers.Keys
    && forall q | q in e.peers :: f.peers[q].bits == e.peers[q].bits && Haves(f.peers[q].sent) == Haves(e.peers[q].sent)
  }

  lemma SharersSame(peers: map<PeerId, Member>, others: map<PeerId, Member>, i: nat)
    requires others.Keys == peers.Keys && forall q | q in peers :: others[q].bits == peers[q].bits
    ensures Sharers(others, i) == Sharers(peers, i)
  {
  }

  lemma SameOutsideKeeps(c: Config, e: Engine, f: Engine)
    requires SameOutside(e, f)
    ensures Availability(e) ==> Availability(f)
    ensures OnDisk(c, e) ==> OnDisk(c, f)
    ensures Logged(e) ==> Logged(f)
  {
    hide Stored, Undelivered, Haves;
    assert |f.peers| == |f.peers.Keys| && |e.peers| == |e.peers.Keys|;
    forall i: nat ensures Sharers(f.peers, i) == Sharers(e.peers, i) {
      SharersSame(e.peers, f.peers, i);
    }
  }

  lemma SameOutsideTransitive(e: Engine, f: Engine, g: Engine)
    requires SameOutside(e, f) && SameOutside(f, g)
    ensures SameOutside(e, g)
  {
    hide Undelivered, Haves;
    UndeliveredTransitive(e.mgr, f.mgr, g.mgr);
  }

  /** The three ownership laws, kept together by an operation. */
  ghost predicate OwnersKept(e: Engine, f: Engine) {
    && (NoLost(e) ==> NoLost(f))
    && (Solo(e) ==> Solo(f))
    && (Solo(e) && AllOnRequest(e) ==> AllOnRequest(f))
  }

  /** A change of one peer's slot and the change back. */
  lemma WithSlotBack(e: Engine, p: PeerId, t: Slot)
    requires p in e.peers
    ensures WithSlot(WithSlot(e, p, t), p, SlotOf(e, p)) == e
    ensures SlotOf(WithSlot(e, p, t), p) == t
  {
    assert e.peers[p := t.peer][p := e.peers[p]] == e.peers;
  }

  lemma WithSlotReflects(e: Engine, p: PeerId, t: Slot)
    requires p in e.peers
    ensures Solo(WithSlot(e, p, t)) ==>
              && Exclusive(t.mgr, t.peer.out, Others(e, p))
              && (Exclusive(e.mgr, e.peers[p].out, Others(e, p)) ==> Solo(e))
    ensures Sole(WithSlot(e, p, t)) ==>
              && Alone(t.mgr, t.peer.out, Others(e, p))
              && (Alone(e.mgr, e.peers[p].out, Others(e, p)) ==> Sole(e))
  {
    hide Solo, Sole, Exclusive, Alone, WithSlot, SlotOf;
    var f := WithSlot(e, p, t);
    WithSlotHas(e, p, t);
    OwnersAtSlot(f, p);
    OthersSame(e, p, t);
    WithSlotBack(e, p, t);
    WithSlotOwners(f, p, SlotOf(e, p));
  }

  lemma WithSlotHas(e: Engine, p: PeerId, t: Slot)
    ensures var f := WithSlot(e, p, t); p in f.peers && f.mgr == t.mgr && f.peers[p] == t.peer
    ensures p in e.peers ==> SlotOf(e, p).mgr == e.mgr && SlotOf(e, p).peer == e.peers[p]
  {
  }

  lemma OwnersKeptTransitive(e: Engine, f: Engine, g: Engine)
    requires OwnersKept(e, f) && OwnersKept(f, g)
    ensures OwnersKept(e, g)
  {
    hide NoLost, Solo, Sole, AllOnRequest;
  }

  lemma WithSlotSame(e: Engine, p: PeerId, t: Slot)
    requires p in e.peers && Undelivered(e.mgr, t.mgr)
    requires t.peer.bits == e.peers[p].bits && Haves(t.peer.sent) == Haves(e.peers[p].sent)
    ensures SameOutside(e, WithSlot(e, p, t))
  {
    hide Haves;
  }

  /* ---- refilling ---- */

  lemma RefillKeeps(c: Config, e: Engine, p: PeerId)
    requires Core(c, e) && p in e.peers
    ensures Core(c, Refill(c, e, p)) && SameOutside(e, Refill(c, e, p)) && OwnersKept(e, Refill(c, e, p))
  {
    hide Fill, Within, Tables, Counted, Unfinished, Sound, Haves, NoneLost, Exclusive, Alone, OnRequest, NoLost, Solo, Sole, AllOnRequest,
      Undelivered;
    var s := SlotOf(e, p);
    if e.peers[p].choking {
      SelfUndelivered(e.mgr);
    } else {
      var t := Fill(c, e.hist, s);
      FillSound(c, e.hist, s);
      UndeliveredKeepsCounts(s.mgr, t.mgr);
      WithSlotCore(c, e, p, t);
      WithSlotSame(e, p, t);
      OwnersAtSlot(e, p);
      FillKeepsOwners(c, e.hist, s, Others(e, p));
      WithSlotOwners(e, p, t);
    }
  }

  /** A refill cannot mend a breach: a stray request stays, and asking for its block again doubles it. */
  lemma RefillMendsNothing(c: Config, e: Engine, p: PeerId)
    requires Core(c, e) && p in e.peers
    ensures Solo(Refill(c, e, p)) ==> Solo(e)
    ensures Sole(Refill(c, e, p)) ==> Sole(e)
  {
    hide Fill, Within, Tables, Counted, Unfinished, Sound, Exclusive, Alone, NoneLost, OnRequest, Solo, Sole,
      WithSlot;
    if !e.peers[p].choking {
      var s := SlotOf(e, p);
      FillKeepsOwners(c, e.hist, s, Others(e, p));
      WithSlotReflects(e, p, Fill(c, e.hist, s));
    }
  }

  /* ---- choking ---- */

  lemma ReleaseTables(m: TorrentMetadata, s: Mgr, reqs: seq<Req>)
    requires Tables(m, s)
    ensures Tables(m, Release(s, reqs)) && Release(s, reqs).have == s.have
  {
    hide Shaped, Release;
    ReleaseKeepsShape(m, s, reqs);
    ReleaseUndelivered(s, reqs);
  }

  lemma ReleaseOwners(s: Mgr, out: seq<Req>, others: set<Key>)
    ensures NoneLost(s, out, others) ==> NoneLost(Release(s, out), [], others)
    ensures Exclusive(s, out, others) ==> Exclusive(Release(s, out), [], others)
    ensures Exclusive(s, out, others) && OnRequest(s, out, others) ==> OnRequest(Release(s, out), [], others)
  {
    hide StateOf, Release;
    forall x: Key
      ensures StateOf(Release(s, out), x)
           == if x in Keys(out) && StateOf(s, x) == Some(Requested) then Some(Pending) else StateOf(s, x)
    {
      ReleaseEffect(s, out, x);
    }
  }

  lemma OnChokeKeeps(c: Config, e: Engine, p: PeerId)
    requires Core(c, e) && p in e.peers
    ensures Core(c, OnChoke(e, p)) && SameOutside(e, OnChoke(e, p)) && OwnersKept(e, OnChoke(e, p))
  {
    hide Release, Tables, Counted, Unfinished, Sound, Haves, NoneLost, Exclusive, Alone, OnRequest, NoLost, Solo,
      AllOnRequest, Undelivered, Asks;
    var s := SlotOf(e, p);
    var t := Released(s.(peer := s.peer.(choking := true)));
    ReleaseTables(c.meta, s.mgr, s.peer.out);
    ReleaseUndelivered(s.mgr, s.peer.out);
    UndeliveredKeepsCounts(s.mgr, t.mgr);
    WithSlotCore(c, e, p, t);
    WithSlotSame(e, p, t);
    OwnersAtSlot(e, p);
    ReleaseOwners(s.mgr, s.peer.out, Others(e, p));
    WithSlotOwners(e, p, t);
  }

  /* ---- changes of one peer's record that leave its requests alone ---- */

  lemma PutKeeps(c: Config, e: Engine, p: PeerId, peer: Member)
    requires Core(c, e) && p in e.peers && Within(c.meta, e.mgr.have, peer)
    requires peer.out == e.peers[p].out
    ensures Core(c, Put(e, p, peer)) && OwnersKept(e, Put(e, p, peer))
    ensures peer.bits == e.peers[p].bits && Haves(peer.sent) == Haves(e.peers[p].sent) ==> SameOutside(e, Put(e, p, peer))
  {
    hide Tables, Counted, Unfinished, Sound, Haves, NoneLost, Exclusive, Alone, OnRequest, NoLost, Solo, Sole, AllOnRequest,
      Undelivered, Within;
    var t := Slot(e.mgr, peer, e.draws);
    assert Put(e, p, peer) == WithSlot(e, p, t);
    SelfUndelivered(e.mgr);
    OwnersAtSlot(e, p);
    WithSlotOwners(e, p, t);
  }

  lemma HistKeeps(c: Config, e: Engine, hist: seq<uint32>)
    requires Core(c, e) && |hist| == |e.hist|
    ensures Core(c, e.(hist := hist)) && OwnersKept(e, e.(hist := hist))
  {
    hide Tables, Counted, Unfinished, Sound, Within, StateOf;
  }

  lemma OnUnchokeKeeps(c: Config, e: Engine, p: PeerId)
    requires Core(c, e) && p in e.peers
    ensures Core(c, OnUnchoke(c, e, p)) && SameOutside(e, OnUnchoke(c, e, p)) && OwnersKept(e, OnUnchoke(c, e, p))
  {
    hide Tables, Counted, Unfinished, Sound, Haves, NoLost, Solo, Sole, AllOnRequest, Undelivered, Asks, Refill;
    var peer := e.peers[p].(choking := false);
    var f := Put(e, p, peer);
    assert Within(c.meta, e.mgr.have, peer);
    PutKeeps(c, e, p, peer);
    RefillKeeps(c, f, p);
    SameOutsideTransitive(e, f, Refill(c, f, p));
    OwnersKeptTransitive(e, f, Refill(c, f, p));
  }

  /* ---- availability ---- */

  lemma {:induction false} SubsetSize<T>(a: set<T>, b: set<T>)
    requires a <= b
    ensures |a| <= |b|
  {
    assert |b| == |a| + |b - a| by {
      assert b == a + (b - a) && a !! (b - a);
    }
  }

  lemma SharersAfterPut(peers: map<PeerId, Member>, p: PeerId, peer: Member, i: nat)
    ensures |Sharers(peers[p := peer], i)| == |Sharers(peers - {p}, i)| + if i in peer.bits then 1 else 0
  {
    assert Sharers(peers[p := peer], i) == Sharers(peers - {p}, i) + if i in peer.bits then {p} else {};
  }

  lemma SharersAtMost(peers: map<PeerId, Member>, p: PeerId, i: nat)
    requires p in peers
    ensures |Sharers(peers - {p}, i)| + 1 <= |peers|
  {
    SubsetSize(Sharers(peers - {p}, i), peers.Keys - {p});
    assert |peers.Keys| == |peers|;
  }

  lemma PutBack(peers: map<PeerId, Member>, p: PeerId)
    requires p in peers
    ensures peers[p := peers[p]] == peers
  {
  }

  lemma ReplacedCell(h: seq<uint32>, before: set<nat>, after: set<nat>, i: nat, rest: nat)
    requires i < |h| && h[i] == rest + (if i in before then 1 else 0) && rest < UINT32_MAX
    ensures Added(Removed(h, before), after)[i] == rest + if i in after then 1 else 0
  {
    hide Added, Removed, WrapAdd;
    RemovedAt(h, before, i);
    AddedAt(Removed(h, before), after);
    NoWrap(Removed(h, before)[i]);
  }

  /** Replacing a peer's bits in the histogram: the old ones really leave it and nothing wraps. */
  lemma ReplacedBits(e: Engine, p: PeerId, peer: Member)
    requires Availability(e) && p in e.peers
    ensures Availability(Put(e.(hist := Added(Removed(e.hist, e.peers[p].bits), peer.bits)), p, peer))
  {
    hide Sharers, Added, Removed;
    var f := Put(e.(hist := Added(Removed(e.hist, e.peers[p].bits), peer.bits)), p, peer);
    assert f.peers.Keys == e.peers.Keys;
    assert |f.peers| == |f.peers.Keys| && |e.peers| == |e.peers.Keys|;
    PutBack(e.peers, p);
    forall i | 0 <= i < |e.hist| ensures f.hist[i] == |Sharers(f.peers, i)| {
      SharersAfterPut(e.peers, p, e.peers[p], i);
      SharersAfterPut(e.peers, p, peer, i);
      SharersAtMost(e.peers, p, i);
      ReplacedCell(e.hist, e.peers[p].bits, peer.bits, i, |Sharers(e.peers - {p}, i)|);
    }
  }

  lemma AddedBit(e: Engine, p: PeerId, i: nat, peer: Member)
    requires Availability(e) && p in e.peers && i < |e.hist| && i !in e.peers[p].bits
    requires peer.bits == e.peers[p].bits + {i}
    ensures Availability(Put(e.(hist := Added(e.hist, {i})), p, peer))
  {
    hide Sharers, Added, WrapAdd;
    AddedAt(e.hist, {i});
    var f := Put(e.(hist := Added(e.hist, {i})), p, peer);
    assert f.peers.Keys == e.peers.Keys;
    assert |f.peers| == |f.peers.Keys| && |e.peers| == |e.peers.Keys|;
    PutBack(e.peers, p);
    forall j | 0 <= j < |e.hist| ensures f.hist[j] == |Sharers(f.peers, j)| {
      SharersAfterPut(e.peers, p, e.peers[p], j);
      SharersAfterPut(e.peers, p, peer, j);
      SharersAtMost(e.peers, p, j);
      if j == i {
        NoWrap(e.hist[j]);
      }
    }
  }

  lemma PutSameBits(e: Engine, p: PeerId, peer: Member)
    requires Availability(e) && p in e.peers && peer.bits == e.peers[p].bits
    ensures Availability(Put(e, p, peer))
  {
    hide Sharers;
    var f := Put(e, p, peer);
    assert f.peers.Keys == e.peers.Keys;
    assert |f.peers| == |f.peers.Keys| && |e.peers| == |e.peers.Keys|;
    forall i: nat ensures Sharers(f.peers, i) == Sharers(e.peers, i) {
      SharersSame(e.peers, f.peers, i);
    }
  }

  lemma RegisteredAvailability(e: Engine, p: PeerId, peer: Member)
    requires Availability(e) && p !in e.peers && peer.bits == {} && |e.peers| < UINT32_MAX
    ensures Availability(Put(e, p, peer))
  {
    hide Sharers;
    var f := Put(e, p, peer);
    assert f.peers.Keys == e.peers.Keys + {p};
    assert |f.peers| == |f.peers.Keys| && |e.peers| == |e.peers.Keys|;
    assert e.peers - {p} == e.peers;
    forall i | 0 <= i < |e.hist| ensures f.hist[i] == |Sharers(f.peers, i)| {
      SharersAfterPut(e.peers, p, peer, i);
    }
  }

  lemma UnregisteredAvailability(e: Engine, p: PeerId)
    requires Availability(e) && p in e.peers
    ensures Availability(OnUnregister(e, p))
  {
    hide Sharers;
    var f := OnUnregister(e, p);
    assert f.peers.Keys == e.peers.Keys - {p};
    assert |f.peers| == |f.peers.Keys| && |e.peers| == |e.peers.Keys|;
    PutBack(e.peers, p);
    forall i | 0 <= i < |e.hist| ensures f.hist[i] == |Sharers(f.peers, i)| {
      SharersAfterPut(e.peers, p, e.peers[p], i);
    }
  }
}
