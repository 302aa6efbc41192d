/**
 What one message does to the engine: to the blocks nobody was asked for, to its sender's record and to
 everybody else's. Told from the engine before and after the step.
 */
module Handlers {
  import opened Bytes
  import opened Geometry
  import opened Bitfields
  import opened Wire
  import opened Pieces
  import opened Picker
  import opened Swarm
  import opened Ledger
  import opened Receipts
  import opened Pipeline
  import opened Reach
  import opened Steps
  import opened Orderly
  import opened Runs

  /* ---- open blocks under delivery, completion and failure ---- */

  ghost predicate IsBlock(m: TorrentMetadata, x: Key) {
    x.piece < m.numPieces && x.begin % BLOCK_SIZE == 0 && x.begin < PieceLength(m, x.piece)
  }

  ghost function OutsidePiece(blocks: iset<Key>, i: nat): iset<Key> {
    iset x: Key | x in blocks && x.piece != i
  }

  ghost function BlocksOf(m: TorrentMetadata, i: nat): iset<Key> {
    iset x: Key | IsBlock(m, x) && x.piece == i
  }

  /** A delivered block is open no longer; no other block opens or shuts. */
  lemma DeliveryShuts(m: TorrentMetadata, s: Mgr, i: nat, begin: uint32, block: seq<byte>)
    requires Sound(m) && Tables(m, s) && i < m.numPieces
    ensures OpenBlocks(m, BlockReceived(m, s, i, begin, block).0) == OpenBlocks(m, s) - iset{Key(i, begin)}
  {
    hide Init, Sound, PieceLength, StateOf, Shaped, Store;
    if i in s.have {
      HeldUnchanged(m, s, i, begin, block);
    } else {
      TablesShaped(m, s);
      InitOpens(m, s, i);
      InitHas(m, s, i);
      var t, u := BlockReceived(m, s, i, begin, block).0, Init(m, s, i);
      assert t.progress.Keys == u.progress.Keys;
      forall x: Key ensures Open(m, t, x) <==> Open(m, u, x) && x != Key(i, begin) {
        ReceiveEffect(m, s, i, begin, block, x);
      }
    }
  }

  /** Completing a piece shuts its blocks; dropping it opens all of them. */
  lemma RemovalOpens(m: TorrentMetadata, s: Mgr, i: nat)
    requires Tables(m, s) && i in s.progress
    ensures OpenBlocks(m, Completed(s, i)) == OutsidePiece(OpenBlocks(m, s), i)
    ensures OpenBlocks(m, Dropped(s, i)) == OutsidePiece(OpenBlocks(m, s), i) + BlocksOf(m, i)
  {
    hide PieceLength, StateOf, Shaped;
    forall x: Key
      ensures Open(m, Completed(s, i), x) <==> Open(m, s, x) && x.piece != i
      ensures Open(m, Dropped(s, i), x) <==> if x.piece == i then IsBlock(m, x) else Open(m, s, x)
    {
      RemoveEffect(s, i, x);
    }
  }

  /* ---- a piece message ---- */

  /** The step completed piece `i`. */
  ghost predicate Completes(e: Engine, f: Engine, i: nat) {
    f.completed == e.completed + [i]
  }

  /** The step failed a piece, and reported `p` for it. */
  ghost predicate Fails(e: Engine, f: Engine, p: PeerId) {
    f.corrupt == e.corrupt + [p]
  }

  function Unless(active: Option<nat>, i: nat): Option<nat> {
    if active == Some(i) then None else active
  }

  /** The peer is sent cancels for its requests for the piece and a HAVE, and does not keep it active. */
  ghost function Notified(peer: Member, i: nat): Member {
    peer.(out := WithoutPiece(peer.out, i), active := Unless(peer.active, i),
          sent := peer.sent + Cancels(peer.out, i) + [Have(ToUint32(i))])
  }

  /** The sender when the pipeline is topped off: a piece that completed or failed is active no longer. */
  ghost function SenderThen(e: Engine, f: Engine, p: PeerId, i: nat, begin: uint32): Member
    requires p in e.peers
  {
    var left := e.peers[p].(out := Without1(e.peers[p].out, i, begin));
    if Completes(e, f, i) then Notified(left, i)
    else if Fails(e, f, p) then left.(active := Unless(left.active, i))
    else left
  }

  /** The open blocks at that moment: a failed piece is open again from end to end. */
  ghost function BlocksThen(m: TorrentMetadata, e: Engine, f: Engine, p: PeerId, i: nat, begin: uint32): iset<Key> {
    var blocks := OpenBlocks(m, e.mgr);
    if Completes(e, f, i) then OutsidePiece(blocks, i)
    else if Fails(e, f, p) then OutsidePiece(blocks, i) + BlocksOf(m, i)
    else blocks - iset{Key(i, begin)}
  }

  /** At most one piece completes or fails, and only completion touches the pieces held, the files and other peers. */
  ghost predicate OnlyCompletionShows(c: Config, e: Engine, f: Engine, p: PeerId, i: nat) {
    && (f.completed == e.completed || Completes(e, f, i)) && (f.corrupt == e.corrupt || Fails(e, f, p))
    && !(Completes(e, f, i) && Fails(e, f, p))
    && f.hist == e.hist && f.peers.Keys == e.peers.Keys
    && f.mgr.have == (if Completes(e, f, i) then e.mgr.have + {i} else e.mgr.have)
    && (!Completes(e, f, i) ==> f.disk == e.disk)
    && forall q | q in e.peers && q != p :: f.peers[q] == if Completes(e, f, i) then Notified(e.peers[q], i) else e.peers[q]
  }

  lemma NotifiedIs(peer: Member, i: nat)
    ensures Send(CancelAt(peer, i), Have(ToUint32(i))) == Notified(peer, i) == Idle(Notified(peer, i), i)
  {
    hide Cancels, WithoutPiece, Haves;
  }

  lemma ConcludePeer(c: Config, e: Engine, p: PeerId, i: nat, q: PeerId)
    requires Sound(c.meta) && p in e.peers && i < c.meta.numPieces && q in e.peers
    ensures
      var f := Conclude(c, e, p, i);
      && f.peers.Keys == e.peers.Keys && f.draws == e.draws
      && f.mgr == (if Validates(c, e.mgr, i) then Completed(e.mgr, i) else Dropped(e.mgr, i))
      && f.peers[q] == if Validates(c, e.mgr, i) then Notified(e.peers[q], i)
                       else if q == p then e.peers[q].(active := Unless(e.peers[q].active, i))
                       else e.peers[q]
  {
    hide Validates, Sound, CancelAt, Send, Notified, PieceStart, Overwrite, Completed, Dropped;
    NotifiedIs(e.peers[p], i);
    NotifiedIs(e.peers[q], i);
  }

  /** Concluding a piece, with the record and open blocks it leaves its sender. */
  lemma ConcludeShows(c: Config, e: Engine, p: PeerId, i: nat)
    requires Sound(c.meta) && Tables(c.meta, e.mgr) && p in e.peers && i < c.meta.numPieces && i in e.mgr.progress
    ensures
      var f := Conclude(c, e, p, i);
      var blocks := OutsidePiece(OpenBlocks(c.meta, e.mgr), i);
      && (Completes(e, f, i) || Fails(e, f, p)) && OnlyCompletionShows(c, e, f, p, i) && f.draws == e.draws
      && f.peers[p] == (if Completes(e, f, i) then Notified(e.peers[p], i)
                        else e.peers[p].(active := Unless(e.peers[p].active, i)))
      && OpenBlocks(c.meta, f.mgr) == if Completes(e, f, i) then blocks else blocks + BlocksOf(c.meta, i)
  {
    hide Conclude, Validates, PieceStart, OpenBlocks, OutsidePiece, BlocksOf, Sound, Tables, Dropped, Completed, Overwrite,
      Notified;
    RemovalOpens(c.meta, e.mgr, i);
    ConcludeParts(c, e, p, i);
    Longer(e.completed, i);
    Longer(e.corrupt, p);
    ConcludePeer(c, e, p, i, p);
    forall q | q in e.peers && q != p
      ensures Conclude(c, e, p, i).peers[q] == if Validates(c, e.mgr, i) then Notified(e.peers[q], i) else e.peers[q]
    {
      ConcludePeer(c, e, p, i, q);
    }
  }

  lemma Longer<T>(s: seq<T>, x: T)
    ensures s + [x] != s
  {
    assert |s + [x]| == |s| + 1;
  }

  lemma OutsideTwice(blocks: iset<Key>, i: nat, begin: uint32)
    ensures OutsidePiece(blocks - iset{Key(i, begin)}, i) == OutsidePiece(blocks, i)
  {
  }

  lemma SettleShows(c: Config, e: Engine, p: PeerId, i: nat, begin: uint32, block: seq<byte>)
    requires Core(c, e) && p in e.peers && i < c.meta.numPieces
    ensures
      var mid := Settle(c, e, p, i, begin, block);
      && OnlyCompletionShows(c, e, mid, p, i)
      && mid.peers[p] == SenderThen(e, mid, p, i, begin)
      && OpenBlocks(c.meta, mid.mgr) == BlocksThen(c.meta, e, mid, p, i, begin)
      && mid.draws == e.draws
  {
    hide Core, Base, Cancels, WithoutPiece, Without1, OpenBlocks, OutsidePiece, BlocksOf, Sound, Accept, Haves,
      Tables, Unfinished, Told, Outside, Conclude, NoLost, Solo, AllOnRequest, Dropped, Keys, OnlyCompletionShows, Notified;
    CoreSound(c, e);
    TakenKeeps(c, e, p, i, begin, block);
    var (t, complete) := Accept(c, SlotOf(e, p), i, begin, block);
    var taken := WithSlot(e, p, t);
    AcceptIs(c, e, p, i, begin, block);
    Longer(e.completed, i);
    Longer(e.corrupt, p);
    if complete {
      ConcludeShows(c, taken, p, i);
      OutsideTwice(OpenBlocks(c.meta, e.mgr), i, begin);
      TakenShows(c, e, t, Conclude(c, taken, p, i), p, i);
    } else {
      NothingShows(c, e, t, p, i);
    }
  }

  lemma CoreSound(c: Config, e: Engine)
    requires Core(c, e)
    ensures Sized(c, e.hist) && Sound(c.meta) && Tables(c.meta, e.mgr)
  {
  }

  lemma TakenShows(c: Config, e: Engine, t: Slot, f: Engine, p: PeerId, i: nat)
    requires p in e.peers && t.mgr.have == e.mgr.have && OnlyCompletionShows(c, WithSlot(e, p, t), f, p, i)
    ensures OnlyCompletionShows(c, e, f, p, i)
    ensures Completes(e, f, i) <==> Completes(WithSlot(e, p, t), f, i)
    ensures Fails(e, f, p) <==> Fails(WithSlot(e, p, t), f, p)
  {
    hide Notified;
  }

  lemma NothingShows(c: Config, e: Engine, t: Slot, p: PeerId, i: nat)
    requires p in e.peers && t.mgr.have == e.mgr.have
    ensures OnlyCompletionShows(c, e, WithSlot(e, p, t), p, i)
  {
    hide Notified;
    Longer(e.completed, i);
    Longer(e.corrupt, p);
  }

  lemma AcceptIs(c: Config, e: Engine, p: PeerId, i: nat, begin: uint32, block: seq<byte>)
    requires Core(c, e) && p in e.peers && i < c.meta.numPieces
    ensures
      var t := Accept(c, SlotOf(e, p), i, begin, block).0;
      && Tables(c.meta, t.mgr) && t.mgr.have == e.mgr.have && t.draws == e.draws
      && t.peer == e.peers[p].(out := Without1(e.peers[p].out, i, begin))
      && OpenBlocks(c.meta, t.mgr) == OpenBlocks(c.meta, e.mgr) - iset{Key(i, begin)}
  {
    hide BlockReceived, OpenBlocks, Sound, Counted, Unfinished;
    AcceptSound(c, SlotOf(e, p), i, begin, block);
    DeliveryShuts(c.meta, e.mgr, i, begin, block);
  }

  /* ---- topping off ---- */

  /** Nothing but the sender's record, the request tables, the draws and the histogram may differ. */
  ghost predicate OnlySender(e: Engine, f: Engine, p: PeerId) {
    && f.mgr.have == e.mgr.have && f.disk == e.disk && f.completed == e.completed && f.corrupt == e.corrupt
    && f.peers.Keys == e.peers.Keys && forall q | q in e.peers && q != p :: f.peers[q] == e.peers[q]
  }

  /** From the record `peer` and these open blocks the sender was topped off, unless it chokes us. */
  ghost predicate ToppedOff(c: Config, hist: seq<uint32>, peer: Member, blocks: iset<Key>, draws: nat, f: Engine, p: PeerId) {
    && p in f.peers && |peer.out| <= |f.peers[p].out|
    && var added := f.peers[p].out[|peer.out|..];
    && (peer.choking ==> added == [])
    && FilledFrom(c, hist, peer, blocks, draws, SlotOf(f, p), added)
  }

  lemma RefillTopsOff(c: Config, e: Engine, p: PeerId)
    requires Core(c, e) && p in e.peers
    ensures ToppedOff(c, e.hist, e.peers[p], OpenBlocks(c.meta, e.mgr), e.draws, Refill(c, e, p), p)
    ensures OnlySender(e, Refill(c, e, p), p) && Refill(c, e, p).hist == e.hist
  {
    hide Fill, FilledFrom, Sound, Tables, Counted, Unfinished, SameSide, Asks;
    var s := SlotOf(e, p);
    if e.peers[p].choking {
      assert s.peer.out[|s.peer.out|..] == [];
      NothingAdded(c, e.hist, s);
    } else {
      FillInOrder(c, e.hist, s);
      FillSound(c, e.hist, s);
      FillHave(c, e.hist, s);
    }
  }

  lemma FillHave(c: Config, hist: seq<uint32>, s: Slot)
    requires Sized(c, hist) && SlotSound(c, s) && !s.peer.choking
    ensures Fill(c, hist, s).mgr.have == s.mgr.have
  {
    FillSound(c, hist, s);
  }

  /* ---- message by message ---- */

  /**
   A piece message. The delivered block leaves the sender's list and the open blocks. A piece that completes
   is cancelled at and announced to every peer; one that fails is open again from end to end and changes no
   other peer's record. Either way the sender does not keep it active, and is topped off from there.
   */
  lemma PieceMessage(c: Config, e: Engine, p: PeerId, i: uint32, begin: uint32, block: seq<byte>)
    requires Core(c, e) && p in e.peers && i < c.meta.numPieces
    ensures
      var f := Step(c, e, Deliver(p, Piece(i, begin, block)));
      && OnlyCompletionShows(c, e, f, p, i)
      && ToppedOff(c, e.hist, SenderThen(e, f, p, i, begin), BlocksThen(c.meta, e, f, p, i, begin), e.draws, f, p)
  {
    hide Settle, Refill, Core, Sound, Notified, ToppedOff, OpenBlocks, OutsidePiece, BlocksOf, Without1, Told, NoLost, Solo,
      AllOnRequest, Outside, Keys;
    CoreSound(c, e);
    var mid := Settle(c, e, p, i, begin, block);
    SettleKeeps(c, e, p, i, begin, block);
    SettleShows(c, e, p, i, begin, block);
    RefillTopsOff(c, mid, p);
    OnlySenderShows(c, e, mid, Refill(c, mid, p), p, i);
  }

  lemma OnlySenderShows(c: Config, e: Engine, f: Engine, g: Engine, p: PeerId, i: nat)
    requires p in e.peers && OnlyCompletionShows(c, e, f, p, i) && OnlySender(f, g, p) && g.hist == f.hist
    ensures OnlyCompletionShows(c, e, g, p, i)
  {
    hide Notified;
  }

  /**
   In any run: a piece that fails changes no other peer's record, and its sender, if the piece was its
   active one, is next asked for a piece drawn afresh.
   */
  lemma FailureDrawsAgain(c: Config, disk: seq<byte>, evs: seq<Event>, p: PeerId, i: uint32, begin: uint32, block: seq<byte>)
    requires Startable(c, disk) && Legal(c, disk, evs + [Deliver(p, Piece(i, begin, block))])
    ensures Legal(c, disk, evs)
    ensures
      var e, f := After(c, disk, evs), After(c, disk, evs + [Deliver(p, Piece(i, begin, block))]);
      p in e.peers && Fails(e, f, p) ==>
        && p in f.peers && (forall q | q in e.peers && q != p :: q in f.peers && f.peers[q] == e.peers[q])
        && var left := Without1(e.peers[p].out, i, begin);
        && left <= f.peers[p].out && f.peers[p].sent == e.peers[p].sent + Asked(f.peers[p].out[|left|..])
        && (e.peers[p].active == Some(i as nat) && |f.peers[p].out| > |left| ==>
              && f.draws > e.draws
              && IsDrawn(c, e.hist, e.peers[p].bits, OutsidePiece(OpenBlocks(c.meta, e.mgr), i) + BlocksOf(c.meta, i), e.draws,
                         f.peers[p].out[|left|].piece))
  {
    hide Core, Inv, Step, IsDrawn, OpenBlocks, OutsidePiece, BlocksOf, Without1, Notified;
    var ev := Deliver(p, Piece(i, begin, block));
    AfterUnfolds(c, disk, evs + [ev]);
    assert (evs + [ev])[..|evs|] == evs;
    Reachable(c, disk, evs);
    var e := After(c, disk, evs);
    InvCore(c, e);
    if p in e.peers {
      PieceMessage(c, e, p, i, begin, block);
    }
  }

  /** An unchoke: the sender is topped off. */
  lemma UnchokeMessage(c: Config, e: Engine, p: PeerId)
    requires Core(c, e) && p in e.peers
    ensures
      var f := Step(c, e, Deliver(p, Unchoke));
      && OnlySender(e, f, p) && f.hist == e.hist
      && ToppedOff(c, e.hist, e.peers[p].(choking := false), OpenBlocks(c.meta, e.mgr), e.draws, f, p)
  {
    hide Refill, Sound, ToppedOff, OpenBlocks, OwnersKept, SameOutside, Asks, Tables, Counted, Unfinished;
    var peer := e.peers[p].(choking := false);
    PutKeeps(c, e, p, peer);
    RefillTopsOff(c, Put(e, p, peer), p);
  }

  /** The requests of the list that are still Requested. */
  ghost function StillRequested(s: Mgr, out: seq<Req>): iset<Key> {
    iset x | x in Keys(out) && StateOf(s, x) == Some(Requested)
  }

  lemma ReleaseOpens(m: TorrentMetadata, s: Mgr, out: seq<Req>)
    requires Tables(m, s) && forall r | r in out :: Asks(m, r) && r.piece as nat !in s.have
    ensures OpenBlocks(m, Release(s, out)) == OpenBlocks(m, s) + StillRequested(s, out)
  {
    hide Release, StateOf, PieceLength, Shaped, Undelivered;
    ReleaseUndelivered(s, out);
    ReleaseTables(m, s, out);
    forall x: Key
      ensures Open(m, Release(s, out), x) <==> Open(m, s, x) || (x in Keys(out) && StateOf(s, x) == Some(Requested))
    {
      ReleaseEffect(s, out, x);
      AbsentState(s, x.piece, x.begin);
      assert x == Key(x.piece, x.begin);
    }
  }

  /** A choke: what the sender was asked for is open again, and it is asked for nothing. */
  lemma ChokeMessage(c: Config, e: Engine, p: PeerId)
    requires Core(c, e) && p in e.peers
    ensures
      var f := Step(c, e, Deliver(p, Choke));
      && OnlySender(e, f, p) && f.hist == e.hist && f.draws == e.draws
      && f.peers[p] == e.peers[p].(choking := true, out := [], active := None)
      && OpenBlocks(c.meta, f.mgr) == OpenBlocks(c.meta, e.mgr) + StillRequested(e.mgr, e.peers[p].out)
  {
    hide Release, Sound, OpenBlocks, StillRequested, Tables, Asks, Counted, Unfinished;
    ReleaseOpens(c.meta, e.mgr, e.peers[p].out);
    ReleaseTables(c.meta, e.mgr, e.peers[p].out);
  }

  /** A peer leaves: what it was asked for is open again, and nobody else's record changes. */
  lemma Unregistration(c: Config, e: Engine, p: PeerId)
    requires Core(c, e) && p in e.peers
    ensures
      var f := Step(c, e, Unregister(p));
      && f.mgr.have == e.mgr.have && f.disk == e.disk && f.completed == e.completed && f.corrupt == e.corrupt
      && f.draws == e.draws && f.peers == e.peers - {p}
      && OpenBlocks(c.meta, f.mgr) == OpenBlocks(c.meta, e.mgr) + StillRequested(e.mgr, e.peers[p].out)
  {
    hide Release, Sound, OpenBlocks, StillRequested, Tables, Asks, Counted, Unfinished;
    ReleaseOpens(c.meta, e.mgr, e.peers[p].out);
    ReleaseTables(c.meta, e.mgr, e.peers[p].out);
  }

  /** Told we want something of it, the peer hears of that once. */
  ghost function Wooed(peer: Member, wanted: bool): Member {
    if wanted && !peer.interested then peer.(interested := true, sent := peer.sent + [Interested]) else peer
  }

  lemma ExpressIs(peer: Member, wanted: bool)
    ensures Express(peer, wanted) == Wooed(peer, wanted)
  {
    hide Haves;
  }

  /** A bitfield: the announced pieces replace the old ones, we show interest in one we lack, and top off. */
  lemma BitfieldMessage(c: Config, e: Engine, p: PeerId, raw: seq<byte>)
    requires Core(c, e) && p in e.peers
    ensures
      var f := Step(c, e, Deliver(p, BitfieldMsg(raw)));
      var bits := Announced(raw, c.meta.numPieces);
      && OnlySender(e, f, p)
      && ToppedOff(c, f.hist, Wooed(e.peers[p].(bits := bits), exists i :: i in bits && i !in e.mgr.have),
                   OpenBlocks(c.meta, e.mgr), e.draws, f, p)
  {
    hide Refill, Sound, ToppedOff, OpenBlocks, Announced, Rebit, Core, Wooed, Calm;
    CoreSound(c, e);
    var bits := Announced(raw, c.meta.numPieces);
    AnnouncedInRange(raw, c.meta.numPieces);
    RebitCalm(c, e, p, bits);
    CalmCore(c, e, Rebit(c, e, p, bits));
    RebitShows(c, e, p, bits);
    RefillTopsOff(c, Rebit(c, e, p, bits), p);
  }

  lemma RebitShows(c: Config, e: Engine, p: PeerId, bits: set<nat>)
    requires p in e.peers
    ensures
      var f := Rebit(c, e, p, bits);
      && OnlySender(e, f, p) && f.mgr == e.mgr && f.draws == e.draws && p in f.peers
      && f.peers[p] == Wooed(e.peers[p].(bits := bits), exists i :: i in bits && i !in e.mgr.have)
  {
    hide Added, Removed, Express, Wooed;
    ExpressIs(e.peers[p].(bits := bits), !(bits <= e.mgr.have));
    assert !(bits <= e.mgr.have) <==> exists i :: i in bits && i !in e.mgr.have;
  }

  /** A HAVE: the sender's pieces grow, we show interest if we lack it, and nobody is asked for anything. */
  lemma HaveMessage(c: Config, e: Engine, p: PeerId, i: uint32)
    requires Core(c, e) && p in e.peers
    ensures
      var f := Step(c, e, Deliver(p, Have(i)));
      && OnlySender(e, f, p) && f.mgr == e.mgr && f.draws == e.draws
      && f.peers[p] == if i < c.meta.numPieces then Wooed(e.peers[p].(bits := e.peers[p].bits + {i as nat}), i as nat !in e.mgr.have)
                       else e.peers[p]
  {
    hide Core, Sound, Express, Wooed, Added, OnHave;
    OnHaveIs(c, e, p, i);
    ExpressIs(e.peers[p].(bits := e.peers[p].bits + {i as nat}), i as nat !in e.mgr.have);
  }
}
