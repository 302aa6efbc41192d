/**
 The download engine as a step system (download_coordinator.cpp over piece_manager.cpp,
 piece_picker.cpp and the completion callback of main.cpp).

 A step is one call the event loop makes: a peer registered, a peer unregistered, or a message
 delivered. `Step` is the source's handlers as one function of the state; the random engine is the
 stream `rng` and the hash is any function `sha1`.
 */
module Swarm {
  import opened Bytes
  import opened Geometry
  import opened Bitfields
  import opened Wire
  import opened Pieces
  import opened Picker

  type PeerId = nat

  /** `RequestedBlock`. */
  datatype Req = Req(piece: uint32, begin: uint32, length: uint32)

  /** `PeerState`, with the flags of its connection and every message sent through it. */
  datatype Peer<B> = Peer(choking: bool, interested: bool, bits: B, out: seq<Req>, active: Option<nat>, sent: seq<Message>)

  type Member = Peer<set<nat>>

  datatype Config = Config(meta: TorrentMetadata, sha1: seq<byte> -> Digest, rng: nat -> nat)

  /** `disk` is the content of all files together; `completed` and `corrupt` log the two callbacks. */
  datatype Engine = Engine(
    mgr: Mgr,
    hist: seq<uint32>,
    peers: map<PeerId, Member>,
    disk: seq<byte>,
    draws: nat,
    completed: seq<nat>,
    corrupt: seq<PeerId>)

  datatype Event =
    | Register(p: PeerId, choking: bool, interested: bool)
    | Unregister(p: PeerId)
    | Deliver(p: PeerId, msg: Message)

  const PIPELINE := 5

  /* ---- messages sent ---- */

  /** The pieces announced by HAVE messages, in order. */
  function Haves(sent: seq<Message>): seq<nat> {
    if sent == [] then []
    else
      var last := sent[|sent| - 1];
      Haves(sent[..|sent| - 1]) + if last.Have? then [last.pieceIndex] else []
  }

  /** `send_message`. */
  function Send<B>(peer: Peer<B>, m: Message): (r: Peer<B>)
    ensures Haves(r.sent) == Haves(peer.sent) + if m.Have? then [m.pieceIndex] else []
  {
    assert (peer.sent + [m])[..|peer.sent|] == peer.sent;
    peer.(sent := peer.sent + [m],
          interested := if m.Interested? then true else if m.NotInterested? then false else peer.interested)
  }

  /* ---- one peer's requests ---- */

  /** What the request pipeline of one peer reads and changes. */
  datatype Slot = Slot(mgr: Mgr, peer: Member, draws: nat)

  function RequestFor(b: Block): Req {
    Req(b.piece, b.begin, b.length)
  }

  /** Pieces held or with no block left to hand out. */
  ghost function Excluded(m: TorrentMetadata, s: Mgr): (r: set<nat>)
    ensures forall i: nat :: i in r <==> i in s.have || (i < m.numPieces && !HasPending(s, i))
  {
    s.have + set i: nat | i < m.numPieces && !HasPending(s, i)
  }

  /** The piece to ask for next, with the draws made by then: the active one, else a picked one. */
  ghost function Choose(c: Config, hist: seq<uint32>, s: Slot): (Option<nat>, nat) {
    if s.peer.active.Some? then (s.peer.active, s.draws)
    else
      var picked := Pick(hist, s.peer.bits, Excluded(c.meta, s.mgr), c.rng(s.draws));
      (picked, if picked.Some? then s.draws + 1 else s.draws)
  }

  /** Ask for the next block of piece `i`, or give the piece up as the active one. */
  ghost function Ask(c: Config, s: Slot, i: nat, draws: nat): Slot {
    var (mgr, block) := NextBlock(c.meta, s.mgr, i);
    match block
    case None => Slot(mgr, s.peer.(active := None), draws)
    case Some(b) =>
      Slot(mgr, Send(s.peer.(out := s.peer.out + [RequestFor(b)], active := Some(i)), Request(b.piece, b.begin, b.length)), draws)
  }

  ghost predicate More(c: Config, hist: seq<uint32>, s: Slot) {
    |s.peer.out| < PIPELINE && Choose(c, hist, s).0.Some?
  }

  /** One round of the pipeline loop. */
  ghost function Round(c: Config, hist: seq<uint32>, s: Slot): Slot
    requires More(c, hist, s)
  {
    var (chosen, draws) := Choose(c, hist, s);
    Ask(c, s, chosen.value, draws)
  }

  ghost predicate Sized(c: Config, hist: seq<uint32>) {
    Sound(c.meta) && |hist| == c.meta.numPieces
  }

  /** A picked piece always has a block to give. */
  lemma PickedHasBlock(c: Config, hist: seq<uint32>, s: Slot)
    requires Sized(c, hist) && s.peer.active.None? && Choose(c, hist, s).0.Some?
    ensures var i := Choose(c, hist, s).0.value; i < c.meta.numPieces && NextBlock(c.meta, s.mgr, i).1.Some?
  {
    hide Pick, PieceLength;
    PickIffCandidate(hist, s.peer.bits, Excluded(c.meta, s.mgr), c.rng(s.draws));
    var i := Choose(c, hist, s).0.value;
    PiecesPartition(c.meta, i);
  }

  /** Each round asks for one more block, or drops an exhausted active piece. */
  lemma RoundProgresses(c: Config, hist: seq<uint32>, s: Slot)
    requires Sized(c, hist) && More(c, hist, s)
    ensures var t := Round(c, hist, s);
            || |t.peer.out| == |s.peer.out| + 1
            || (t.peer.out == s.peer.out && s.peer.active.Some? && t.peer.active.None?)
  {
    hide Pick, NextBlock, Excluded, Sound;
    if s.peer.active.None? {
      PickedHasBlock(c, hist, s);
    }
  }

  /** `fill_request_pipeline` for an unchoked peer. */
  ghost function Fill(c: Config, hist: seq<uint32>, s: Slot): Slot
    requires Sized(c, hist)
    decreases PIPELINE - |s.peer.out|, s.peer.active.Some?
  {
    if !More(c, hist, s) then s
    else
      RoundProgresses(c, hist, s);
      Fill(c, hist, Round(c, hist, s))
  }

  /** `block_request_failed` for each request in turn. */
  function Release(s: Mgr, reqs: seq<Req>): Mgr
    decreases |reqs|
  {
    if reqs == [] then s else Release(RequestFailed(s, reqs[0].piece, reqs[0].begin), reqs[1..])
  }

  /* ---- engine operations ---- */

  ghost function WithSlot(e: Engine, p: PeerId, s: Slot): Engine {
    e.(mgr := s.mgr, peers := e.peers[p := s.peer], draws := s.draws)
  }

  ghost function Put(e: Engine, p: PeerId, peer: Member): Engine {
    e.(peers := e.peers[p := peer])
  }

  ghost function SlotOf(e: Engine, p: PeerId): Slot
    requires p in e.peers
  {
    Slot(e.mgr, e.peers[p], e.draws)
  }

  ghost function Refill(c: Config, e: Engine, p: PeerId): Engine
    requires Sized(c, e.hist) && p in e.peers
  {
    if e.peers[p].choking then e else WithSlot(e, p, Fill(c, e.hist, SlotOf(e, p)))
  }

  /** Every outstanding request of the peer goes back to Pending. */
  ghost function Released(s: Slot): Slot {
    s.(mgr := Release(s.mgr, s.peer.out), peer := s.peer.(out := [], active := None))
  }

  ghost function OnChoke(e: Engine, p: PeerId): Engine
    requires p in e.peers
  {
    var s := SlotOf(e, p);
    WithSlot(e, p, Released(s.(peer := s.peer.(choking := true))))
  }

  ghost function OnUnchoke(c: Config, e: Engine, p: PeerId): Engine
    requires Sized(c, e.hist) && p in e.peers
  {
    Refill(c, Put(e, p, e.peers[p].(choking := false)), p)
  }

  ghost function Express(peer: Member, wanted: bool): Member {
    if wanted && !peer.interested then Send(peer, Interested) else peer
  }

  /** The new bitfield replaces the old one, in the picker too. */
  ghost function Rebit(c: Config, e: Engine, p: PeerId, bits: set<nat>): Engine
    requires p in e.peers
  {
    var peer := e.peers[p];
    Put(e.(hist := Added(Removed(e.hist, peer.bits), bits)), p, Express(peer.(bits := bits), !(bits <= e.mgr.have)))
  }

  ghost function OnBitfield(c: Config, e: Engine, p: PeerId, raw: seq<byte>): Engine
    requires Sized(c, e.hist) && p in e.peers
  {
    Refill(c, Rebit(c, e, p, Announced(raw, c.meta.numPieces)), p)
  }

  ghost function OnHave(c: Config, e: Engine, p: PeerId, i: nat): Engine
    requires p in e.peers
  {
    if i >= c.meta.numPieces then e
    else
      var peer := e.peers[p];
      var seen := if i in peer.bits then e else Put(e.(hist := Added(e.hist, {i})), p, peer.(bits := peer.bits + {i}));
      Put(seen, p, Express(seen.peers[p], i !in e.mgr.have))
  }

  /** Seen or not, the piece joins the bits; only a new one is counted. */
  lemma OnHaveIs(c: Config, e: Engine, p: PeerId, i: nat)
    requires p in e.peers
    ensures i >= c.meta.numPieces ==> OnHave(c, e, p, i) == e
    ensures i < c.meta.numPieces ==>
              var peer := e.peers[p];
              var hist := if i in peer.bits then e.hist else Added(e.hist, {i});
              OnHave(c, e, p, i) == Put(e.(hist := hist), p, Express(peer.(bits := peer.bits + {i}), i !in e.mgr.have))
  {
    hide Added, Express;
    if i in e.peers[p].bits {
      assert e.peers[p].bits + {i} == e.peers[p].bits;
    }
  }

  /** The first request for the block leaves the list. */
  function Without1(out: seq<Req>, piece: nat, begin: uint32): seq<Req> {
    if out == [] then []
    else if out[0].piece == piece && out[0].begin == begin then out[1..]
    else [out[0]] + Without1(out[1..], piece, begin)
  }

  /** The delivered block leaves the outstanding list and reaches the piece manager. */
  ghost function Accept(c: Config, s: Slot, i: nat, begin: uint32, block: seq<byte>): (Slot, bool) {
    var (mgr, complete) := BlockReceived(c.meta, s.mgr, i, begin, block);
    (Slot(mgr, s.peer.(out := Without1(s.peer.out, i, begin)), s.draws), complete)
  }

  function WithoutPiece(out: seq<Req>, i: nat): seq<Req> {
    if out == [] then []
    else
      var last := out[|out| - 1];
      WithoutPiece(out[..|out| - 1], i) + if last.piece == i then [] else [last]
  }

  function Cancels(out: seq<Req>, i: nat): seq<Message> {
    if out == [] then []
    else
      var last := out[|out| - 1];
      Cancels(out[..|out| - 1], i) + if last.piece == i then [Cancel(last.piece, last.begin, last.length)] else []
  }

  /** `cancel_piece_requests` at one peer. */
  function CancelAt<B>(peer: Peer<B>, i: nat): Peer<B> {
    peer.(out := WithoutPiece(peer.out, i),
          sent := peer.sent + Cancels(peer.out, i),
          active := if peer.active == Some(i) then None else peer.active)
  }

  /** Cancel the piece at every peer, then tell every peer we have it. */
  ghost function Announce(peers: map<PeerId, Member>, i: nat): map<PeerId, Member> {
    map q | q in peers :: Send(CancelAt(peers[q], i), Have(ToUint32(i)))
  }

  ghost predicate Validates(c: Config, s: Mgr, i: nat)
    requires Sound(c.meta) && i < c.meta.numPieces
  {
    i in s.progress && c.sha1(s.progress[i].data) == c.meta.pieceHashes[i]
  }

  /** A validated piece is written to disk, held, cancelled and announced. */
  ghost function Finish(c: Config, e: Engine, i: nat): Engine
    requires Sound(c.meta) && i < c.meta.numPieces && Validates(c, e.mgr, i)
  {
    e.(disk := Overwrite(e.disk, PieceStart(c.meta, i), e.mgr.progress[i].data),
       mgr := Completed(e.mgr, i),
       peers := Announce(e.peers, i),
       completed := e.completed + [i])
  }

  /** A piece that fails validation is dropped and its last sender reported. */
  ghost function Discard(e: Engine, p: PeerId, i: nat): Engine {
    e.(mgr := Dropped(e.mgr, i), corrupt := e.corrupt + [p])
  }

  ghost function Idle(peer: Member, i: nat): Member {
    if peer.active == Some(i) then peer.(active := None) else peer
  }

  ghost function Conclude(c: Config, e: Engine, p: PeerId, i: nat): (r: Engine)
    requires Sound(c.meta) && i < c.meta.numPieces && p in e.peers
    ensures p in r.peers && r.hist == e.hist
  {
    var done := if Validates(c, e.mgr, i) then Finish(c, e, i) else Discard(e, p, i);
    Put(done, p, Idle(done.peers[p], i))
  }

  /** A piece message up to the final refill. */
  ghost function Settle(c: Config, e: Engine, p: PeerId, i: nat, begin: uint32, block: seq<byte>): (r: Engine)
    requires Sound(c.meta) && i < c.meta.numPieces && p in e.peers
    ensures p in r.peers && r.hist == e.hist
  {
    var (s, complete) := Accept(c, SlotOf(e, p), i, begin, block);
    var taken := WithSlot(e, p, s);
    if complete then Conclude(c, taken, p, i) else taken
  }

  ghost function OnPiece(c: Config, e: Engine, p: PeerId, i: nat, begin: uint32, block: seq<byte>): Engine
    requires Sized(c, e.hist) && i < c.meta.numPieces && p in e.peers
  {
    Refill(c, Settle(c, e, p, i, begin, block), p)
  }

  /** The connection notes choke and unchoke, then the coordinator handles the message. */
  ghost function Handle(c: Config, e: Engine, p: PeerId, msg: Message): Engine
    requires Sized(c, e.hist) && p in e.peers
    requires msg.Piece? ==> msg.index < c.meta.numPieces
  {
    match msg
    case Choke => OnChoke(e, p)
    case Unchoke => OnUnchoke(c, e, p)
    case BitfieldMsg(raw) => OnBitfield(c, e, p, raw)
    case Have(i) => OnHave(c, e, p, i)
    case Piece(i, begin, block) => OnPiece(c, e, p, i, begin, block)
    case _ => e
  }

  ghost function OnUnregister(e: Engine, p: PeerId): Engine
    requires p in e.peers
  {
    var peer := e.peers[p];
    e.(hist := Removed(e.hist, peer.bits), mgr := Release(e.mgr, peer.out), peers := e.peers - {p})
  }

  /** A peer is registered once, and a piece message names a piece of the torrent. */
  ghost predicate Enabled(c: Config, e: Engine, ev: Event) {
    match ev
    case Register(p, _, _) => p !in e.peers && |e.peers| < UINT32_MAX
    case Unregister(_) => true
    case Deliver(_, msg) => msg.Piece? ==> msg.index < c.meta.numPieces
  }

  ghost function Step(c: Config, e: Engine, ev: Event): Engine
    requires Sized(c, e.hist) && Enabled(c, e, ev)
  {
    match ev
    case Register(p, choking, interested) => Put(e, p, Peer(choking, interested, {}, [], None, []))
    case Unregister(p) => if p in e.peers then OnUnregister(e, p) else e
    case Deliver(p, msg) => if p in e.peers then Handle(c, e, p, msg) else e
  }

  lemma StepSized(c: Config, e: Engine, ev: Event)
    requires Sized(c, e.hist) && Enabled(c, e, ev)
    ensures Sized(c, Step(c, e, ev).hist)
  {
    hide Fill, Settle, Sound, Express, Released, Release;
  }

  /* ---- runs ---- */

  /** Nothing held, no peer, and files of the right total length with any content. */
  ghost predicate Startable(c: Config, disk: seq<byte>) {
    Sound(c.meta) && |disk| == c.meta.totalLength
  }

  ghost function Start(c: Config, disk: seq<byte>): Engine
    requires Startable(c, disk)
  {
    Engine(Mgr({}, map[]), seq(c.meta.numPieces, _ => 0), map[], disk, 0, [], [])
  }

  ghost predicate Legal(c: Config, disk: seq<byte>, evs: seq<Event>)
    requires Startable(c, disk)
    decreases |evs|, 0
  {
    evs == [] || (Legal(c, disk, evs[..|evs| - 1]) && Enabled(c, After(c, disk, evs[..|evs| - 1]), evs[|evs| - 1]))
  }

  /** The state after a run. */
  ghost function After(c: Config, disk: seq<byte>, evs: seq<Event>): (e: Engine)
    requires Startable(c, disk) && Legal(c, disk, evs)
    ensures Sized(c, e.hist)
    decreases |evs|, 1
  {
    if evs == [] then Start(c, disk)
    else
      var before := After(c, disk, evs[..|evs| - 1]);
      StepSized(c, before, evs[|evs| - 1]);
      Step(c, before, evs[|evs| - 1])
  }
}
