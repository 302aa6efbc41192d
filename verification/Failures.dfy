/**
 Why exclusive assignment needs its conditions: a run that ends with one block on two peers' lists. A
 peer nobody asked delivers a block that fails validation while another peer still owes it, and the
 refill ending that handler asks the sender for the block.
 */
module Failures {
  import opened Bytes
  import opened Geometry
  import opened Wire
  import opened Pieces
  import opened Swarm
  import opened Ledger
  import opened Receipts
  import opened Pipeline
  import opened Reach
  import opened Steps
  import opened Runs
  import opened Messages
  import opened Honest

  /** A torrent of one piece of one block, and bytes of its length with another hash. */
  ghost predicate OneBlock(c: Config, bad: seq<byte>) {
    && Sound(c.meta) && c.meta.numPieces == 1 && PieceLength(c.meta, 0) <= BLOCK_SIZE
    && |bad| == PieceLength(c.meta, 0) && c.sha1(bad) != c.meta.pieceHashes[0]
  }

  /**
   Peer 0 has the piece and unchokes us, so it is asked. Peer 1, which does not choke us, says it has the
   piece too, and without having been asked sends the bad block.
   */
  function DoubleRun(bad: seq<byte>): seq<Event> {
    [Register(0, true, false), Deliver(0, Have(0)), Deliver(0, Unchoke),
     Register(1, false, false), Deliver(1, Have(0)), Deliver(1, Piece(0, 0, bad))]
  }

  /** Nothing has been delivered yet, nobody is reported, and the laws hold. */
  ghost predicate Early(c: Config, disk: seq<byte>, evs: seq<Event>)
    requires Startable(c, disk)
  {
    && Legal(c, disk, evs)
    && var e := After(c, disk, evs);
       Inv(c, e) && Undelivered(Start(c, disk).mgr, e.mgr) && e.mgr.have == {}
  }

  lemma EarlyStep(c: Config, disk: seq<byte>, evs: seq<Event>, ev: Event)
    requires Startable(c, disk) && Early(c, disk, evs) && Enabled(c, After(c, disk, evs), ev)
    requires !(ev.Deliver? && ev.msg.Piece?)
    ensures Legal(c, disk, evs + [ev]) && Early(c, disk, evs + [ev])
    ensures After(c, disk, evs + [ev]) == Step(c, After(c, disk, evs), ev)
  {
    hide Step, Startable, Enabled, Inv, Legal, After, Undelivered, Calm;
    var e := After(c, disk, evs);
    Extend(c, disk, evs, ev);
    Reachable(c, disk, evs + [ev]);
    CalmStep(c, e, ev);
    CalmUndelivered(c, e, Step(c, e, ev));
    UndeliveredTransitive(Start(c, disk).mgr, e.mgr, Step(c, e, ev).mgr);
  }

  lemma CalmUndelivered(c: Config, e: Engine, f: Engine)
    requires Calm(c, e, f)
    ensures Undelivered(e.mgr, f.mgr) && f.mgr.have == e.mgr.have
  {
  }

  lemma EarlyStart(c: Config, disk: seq<byte>)
    requires Startable(c, disk)
    ensures Early(c, disk, [])
  {
    hide Inv, Startable, Solo, AllOnRequest;
    StartKeeps(c, disk);
    SelfUndelivered(Start(c, disk).mgr);
  }

  /** Nothing of piece 0 has arrived, whether or not it is set up. */
  lemma StillBlank(c: Config, disk: seq<byte>, s: Mgr)
    requires Startable(c, disk) && Undelivered(Start(c, disk).mgr, s) && Tables(c.meta, s) && c.meta.numPieces == 1
    ensures Blank(Init(c.meta, s, 0).progress[0]) && WellShaped(c.meta, 0, Init(c.meta, s, 0).progress[0])
  {
    hide Blank, FreshPiece, WellShaped;
    FreshIsBlank(c.meta, 0);
    InitKeepsShape(c.meta, s, 0);
  }

  lemma OneBlockCompletes(m: TorrentMetadata, ps: PieceState, bad: seq<byte>)
    requires Sound(m) && m.numPieces == 1 && WellShaped(m, 0, ps) && Blank(ps)
    requires PieceLength(m, 0) <= BLOCK_SIZE && |bad| == PieceLength(m, 0)
    ensures var qs := Store(ps, 0, bad); qs.blocksReceived == |qs.blocks| && qs.data == bad
  {
    PiecesPartition(m, 0);
    BlockZero(m, ps);
    hide Sound, WellShaped;
    var data := Overwrite(ps.data, 0, bad);
    assert data == bad;
  }

  lemma BlockZero(m: TorrentMetadata, ps: PieceState)
    requires Sound(m) && WellShaped(m, 0, ps) && 0 < PieceLength(m, 0) <= BLOCK_SIZE
    ensures |ps.blocks| == 1 && FindBegin(ps.blocks, 0) == 0 && |ps.data| == PieceLength(m, 0)
  {
    hide Sound, PieceLength;
    TableBegins(m, 0, ps, 0);
    FoundIs(m, 0, ps, 0);
  }

  lemma BadBlockFails(c: Config, disk: seq<byte>, e: Engine, bad: seq<byte>)
    requires Startable(c, disk) && Undelivered(Start(c, disk).mgr, e.mgr) && e.mgr.have == {} && Inv(c, e)
    requires OneBlock(c, bad) && 1 in e.peers
    ensures
      var (t, complete) := Accept(c, SlotOf(e, 1), 0, 0, bad);
      complete && !Validates(c, t.mgr, 0)
  {
    hide Inv, Startable, Undelivered, Store, Init, Without1, PieceLength, Sound;
    InvTables(c, e);
    StillBlank(c, disk, e.mgr);
    InitHas(c.meta, e.mgr, 0);
    OneBlockCompletes(c.meta, Init(c.meta, e.mgr, 0).progress[0], bad);
  }

  lemma InvTables(c: Config, e: Engine)
    requires Inv(c, e)
    ensures Core(c, e) && Tables(c.meta, e.mgr) && Counted(e.mgr) && Sized(c, e.hist)
  {
  }

  /** After the third event somebody has been asked for piece 0. */
  lemma SomebodyAsked(c: Config, disk: seq<byte>, evs: seq<Event>)
    requires Startable(c, disk) && Early(c, disk, evs) && c.meta.numPieces == 1
    requires var e := After(c, disk, evs); 0 in e.peers && 0 in e.peers[0].bits
    requires Early(c, disk, evs + [Deliver(0, Unchoke)])
    requires After(c, disk, evs + [Deliver(0, Unchoke)]) == Step(c, After(c, disk, evs), Deliver(0, Unchoke))
    ensures Awaited(After(c, disk, evs + [Deliver(0, Unchoke)]), 0)
  {
    hide Startable, After, Legal, Inv, Step, Undelivered, HasPending, Uncounted, Early;
    EarlyParts(c, disk, evs);
    EarlyParts(c, disk, evs + [Deliver(0, Unchoke)]);
    var e, f := After(c, disk, evs), After(c, disk, evs + [Deliver(0, Unchoke)]);
    PipelineIsFull(c, disk, evs, 0, Unchoke, 0);
    InvTables(c, e);
    HandleRecord(c, e, 0, Unchoke, 0);
    StepHandles(c, e, 0, Unchoke);
    if |f.peers[0].out| == PIPELINE {
      AllForZero(c, f);
    } else {
      UndeliveredWedge(Start(c, disk).mgr, f.mgr, 0);
      InvTables(c, f);
      NotStuck(c, f, 0);
    }
  }

  lemma EarlyParts(c: Config, disk: seq<byte>, evs: seq<Event>)
    requires Startable(c, disk) && Early(c, disk, evs)
    ensures Legal(c, disk, evs)
    ensures var e := After(c, disk, evs); Inv(c, e) && Undelivered(Start(c, disk).mgr, e.mgr) && e.mgr.have == {}
  {
  }

  lemma StepHandles(c: Config, e: Engine, p: PeerId, msg: Message)
    requires Sized(c, e.hist) && p in e.peers && !msg.Piece?
    ensures Enabled(c, e, Deliver(p, msg)) && Step(c, e, Deliver(p, msg)) == Handle(c, e, p, msg)
  {
    hide Handle, Sized;
  }

  lemma AllForZero(c: Config, e: Engine)
    requires Inv(c, e) && c.meta.numPieces == 1 && 0 in e.peers && |e.peers[0].out| > 0
    ensures Awaited(e, 0)
  {
    assert Within(c.meta, e.mgr.have, e.peers[0]);
    var r := e.peers[0].out[0];
    assert r in e.peers[0].out && r.piece as nat == 0;
  }

  /** The one request there can be. */
  lemma OnlyRequest(c: Config, bad: seq<byte>, r: Req)
    requires OneBlock(c, bad) && Asks(c.meta, r)
    ensures r == Req(0, 0, |bad|)
  {
  }

  lemma OutIsExact(c: Config, e: Engine, p: PeerId, bad: seq<byte>)
    requires Core(c, e) && OneBlock(c, bad) && p in e.peers
    ensures forall r | r in e.peers[p].out :: r == Req(0, 0, |bad|)
  {
    hide Asks, OneBlock;
    OneSized(c, bad);
    assert Within(c.meta, e.mgr.have, e.peers[p]);
    forall r | r in e.peers[p].out ensures r == Req(0, 0, |bad|) {
      OnlyRequest(c, bad, r);
    }
  }

  /** A refill of an idle, unchoked peer that has the forgotten piece asks for its block. */
  lemma RefillAsks(c: Config, e: Engine, p: PeerId, bad: seq<byte>)
    requires Core(c, e) && OneBlock(c, bad) && p in e.peers
    requires !e.peers[p].choking && e.peers[p].out == [] && 0 in e.peers[p].bits
    requires 0 !in e.mgr.have && 0 !in e.mgr.progress
    ensures var f := Refill(c, e, p); p in f.peers && Req(0, 0, |bad|) in f.peers[p].out
    ensures forall q | q in e.peers && q != p :: q in Refill(c, e, p).peers && Refill(c, e, p).peers[q] == e.peers[q]
  {
    hide Fill, OneBlock, Undelivered, HasPending, Asks, Sound, Counted, Unfinished, Haves;
    OneSized(c, bad);
    var s := SlotOf(e, p);
    var t := Fill(c, e.hist, s);
    FillSound(c, e.hist, s);
    FillIsWorkConserving(c, e.hist, s, 0);
    NothingRequested(c, s.mgr);
    FillKeepsOwners(c, e.hist, s, {});
    if |t.peer.out| != PIPELINE {
      FreshlyRequested(c, s.mgr, t.mgr, t.peer.out);
    }
    RefillKeeps(c, e, p);
    OutIsExact(c, Refill(c, e, p), p, bad);
    assert t.peer.out != [] ==> t.peer.out[0] in t.peer.out;
  }

  lemma OneSized(c: Config, bad: seq<byte>)
    requires OneBlock(c, bad)
    ensures Sound(c.meta) && c.meta.numPieces == 1 && |bad| <= BLOCK_SIZE
  {
  }

  lemma NothingRequested(c: Config, s: Mgr)
    requires Tables(c.meta, s) && c.meta.numPieces == 1 && 0 !in s.progress
    ensures NoneLost(s, [], {})
  {
    hide Shaped;
    forall x: Key ensures StateOf(s, x) == None {
    }
  }

  lemma FreshlyRequested(c: Config, s: Mgr, t: Mgr, out: seq<Req>)
    requires Tables(c.meta, t) && Undelivered(s, t) && 0 !in s.progress && NoneLost(t, out, {})
    requires 0 !in t.have && !HasPending(t, 0)
    ensures out != []
  {
    hide StateOf, Shaped;
    var ps := t.progress[0];
    assert Blank(ps);
    TablesShape(c, t, 0);
    StateByNumber(c.meta, t, 0, 0);
    assert !ps.blocks[0].state.Pending?;
  }

  lemma TablesShape(c: Config, s: Mgr, i: nat)
    requires Tables(c.meta, s) && i in s.progress
    ensures WellShaped(c.meta, i, s.progress[i])
  {
  }

  /** The bad block is dropped with its piece, the other peer still owes it, and the refill asks for it again. */
  lemma BadBlockDoubles(c: Config, disk: seq<byte>, e: Engine, bad: seq<byte>)
    requires Startable(c, disk) && Undelivered(Start(c, disk).mgr, e.mgr) && e.mgr.have == {} && Inv(c, e)
    requires OneBlock(c, bad) && 0 in e.peers && 1 in e.peers && e.peers[0].out != []
    requires !e.peers[1].choking && e.peers[1].out == [] && 0 in e.peers[1].bits
    ensures Enabled(c, e, Deliver(1, Piece(0, 0, bad)))
    ensures var f := Step(c, e, Deliver(1, Piece(0, 0, bad)));
            && 0 in f.peers && Req(0, 0, |bad|) in f.peers[0].out
            && 1 in f.peers && Req(0, 0, |bad|) in f.peers[1].out
            && f.corrupt == e.corrupt + [1]
  {
    hide Inv, Startable, Undelivered, Conclude, Validates, BlockReceived, Sound, PieceLength, Refill, Core, OneBlock, Told,
      NoLost, Solo, Sole, AllOnRequest, Outside, SameOutside, OwnersKept;
    InvTables(c, e);
    OneSized(c, bad);
    var (t, complete) := Accept(c, SlotOf(e, 1), 0, 0, bad);
    BadBlockFails(c, disk, e, bad);
    var taken := WithSlot(e, 1, t);
    var g := Conclude(c, taken, 1, 0);
    assert g == Settle(c, e, 1, 0, 0, bad);
    SettleKeeps(c, e, 1, 0, 0, bad);
    SettleRecord(c, e, 1, 0, 0, bad, 1);
    AcceptHave(c, SlotOf(e, 1), 0, 0, bad);
    ConcludeParts(c, taken, 1, 0);
    AnnouncedOut(taken, c, 1, 0, 0);
    AnnouncedOut(taken, c, 1, 0, 1);
    OutIsExact(c, e, 0, bad);
    assert e.peers[0].out[0] in e.peers[0].out;
    RefillAsks(c, g, 1, bad);
    RefillKeeps(c, g, 1);
    SameCorrupt(g, Refill(c, g, 1));
    assert Refill(c, g, 1) == Step(c, e, Deliver(1, Piece(0, 0, bad)));
  }

  lemma SameCorrupt(e: Engine, f: Engine)
    requires SameOutside(e, f)
    ensures f.corrupt == e.corrupt
  {
  }

  lemma StartIs(c: Config, disk: seq<byte>)
    requires Startable(c, disk)
    ensures Legal(c, disk, []) && After(c, disk, []) == Start(c, disk)
  {
    hide Startable;
  }

  lemma BlamelessSteps(c: Config, e: Engine, ev: Event)
    requires Inv(c, e) && Enabled(c, e, ev) && !(ev.Deliver? && ev.msg.Piece?)
    ensures Step(c, e, ev).corrupt == e.corrupt
    ensures ev.Deliver? && ev.p in e.peers ==> Step(c, e, ev).peers.Keys == e.peers.Keys
  {
    hide Inv, Step;
    BlameIsSender(c, e, ev);
    if ev.Deliver? && ev.p in e.peers {
      KeysStay(c, e, ev);
    }
  }

  lemma OnePeer(c: Config, e: Engine)
    requires e.peers.Keys == {0}
    ensures Enabled(c, e, Register(1, true, false))
  {
    assert |e.peers| == |e.peers.Keys| == |{0}|;
    assert 1 !in e.peers.Keys;
  }

  /** Two events: peer 0 is registered, and has the piece. */
  lemma PeerZero(c: Config, disk: seq<byte>) returns (evs: seq<Event>)
    requires Startable(c, disk) && c.meta.numPieces == 1
    ensures evs == [Register(0, true, false), Deliver(0, Have(0))] && Early(c, disk, evs)
    ensures var e := After(c, disk, evs); e.peers.Keys == {0} && 0 in e.peers[0].bits && e.corrupt == []
  {
    hide Startable, After, Legal, Inv, Early, Handle;
    EarlyStart(c, disk);
    StartIs(c, disk);
    var a, b := Register(0, true, false), Deliver(0, Have(0));
    assert [] + [a] == [a];
    EarlyStep(c, disk, [], a);
    EarlyParts(c, disk, [a]);
    var e := After(c, disk, [a]);
    InvTables(c, e);
    StepHandles(c, e, 0, Have(0));
    HandleRecord(c, e, 0, Have(0), 0);
    EarlyStep(c, disk, [a], b);
    BlamelessSteps(c, e, b);
    evs := [a] + [b];
  }

  /** Four events: peer 0 has been asked, and peer 1 is registered. */
  lemma PeerOne(c: Config, disk: seq<byte>) returns (evs: seq<Event>)
    requires Startable(c, disk) && c.meta.numPieces == 1
    ensures evs == [Register(0, true, false), Deliver(0, Have(0)), Deliver(0, Unchoke), Register(1, false, false)]
    ensures Early(c, disk, evs)
    ensures var e := After(c, disk, evs);
            && 0 in e.peers && e.peers[0].out != []
            && 1 in e.peers && !e.peers[1].choking && e.peers[1].out == [] && e.corrupt == []
  {
    hide Startable, After, Legal, Inv, Early, Handle;
    var before := PeerZero(c, disk);
    EarlyParts(c, disk, before);
    var d, g := Deliver(0, Unchoke), Register(1, false, false);
    var e := After(c, disk, before);
    assert 0 in e.peers.Keys;
    InvTables(c, e);
    StepHandles(c, e, 0, Unchoke);
    EarlyStep(c, disk, before, d);
    BlamelessSteps(c, e, d);
    SomebodyAsked(c, disk, before);
    var f := After(c, disk, before + [d]);
    OnePeer(c, f);
    EarlyStep(c, disk, before + [d], g);
    var q, r :| q in f.peers && r in f.peers[q].out && r.piece as nat == 0;
    assert q in f.peers.Keys;
    evs := before + [d] + [g];
  }

  lemma HaveKeepsOut(c: Config, e: Engine, p: PeerId, i: nat)
    requires p in e.peers && i < c.meta.numPieces
    ensures var f := OnHave(c, e, p, i);
            && p in f.peers && f.peers[p].out == e.peers[p].out
            && forall q | q in e.peers && q != p :: q in f.peers && f.peers[q] == e.peers[q]
  {
    hide OnHave, Haves;
    OnHaveIs(c, e, p, i);
  }

  /** Five events: peer 1 has the piece as well. */
  lemma BothHave(c: Config, disk: seq<byte>) returns (evs: seq<Event>)
    requires Startable(c, disk) && c.meta.numPieces == 1
    ensures evs == [Register(0, true, false), Deliver(0, Have(0)), Deliver(0, Unchoke), Register(1, false, false), Deliver(1, Have(0))]
    ensures Early(c, disk, evs)
    ensures var e := After(c, disk, evs);
            && 0 in e.peers && e.peers[0].out != []
            && 1 in e.peers && !e.peers[1].choking && e.peers[1].out == [] && 0 in e.peers[1].bits && e.corrupt == []
  {
    hide Startable, After, Legal, Inv, Early, OnHave;
    var before := PeerOne(c, disk);
    EarlyParts(c, disk, before);
    var e := After(c, disk, before);
    InvTables(c, e);
    StepHandles(c, e, 1, Have(0));
    HandleRecord(c, e, 1, Have(0), 1);
    HaveKeepsOut(c, e, 1, 0);
    BlamelessSteps(c, e, Deliver(1, Have(0)));
    EarlyStep(c, disk, before, Deliver(1, Have(0)));
    evs := before + [Deliver(1, Have(0))];
  }

  lemma TwoHolders(e: Engine, p: PeerId, q: PeerId, r: Req)
    requires p in e.peers && q in e.peers && p != q && r in e.peers[p].out && r in e.peers[q].out
    ensures !Sole(e)
  {
    hide StateOf, Distinct, Outstanding;
    assert KeyOf(r) in Keys(e.peers[p].out) && KeyOf(r) in Keys(e.peers[q].out);
  }

  /**
   For every torrent of one block, six events put that block on two peers' lists at once: exclusive
   assignment fails after a failed validation that was not tidy.
   */
  lemma UnsolicitedFailureDoubles(c: Config, disk: seq<byte>, bad: seq<byte>)
    requires Startable(c, disk) && OneBlock(c, bad)
    ensures Legal(c, disk, DoubleRun(bad))
    ensures var e := After(c, disk, DoubleRun(bad));
            && 0 in e.peers && Req(0, 0, |bad|) in e.peers[0].out
            && 1 in e.peers && Req(0, 0, |bad|) in e.peers[1].out
            && e.corrupt == [1] && !Sole(e)
  {
    hide Startable, After, Legal, Inv, Step, Early, OneBlock, Sole, Handle, Enabled;
    OneSized(c, bad);
    var evs := BothHave(c, disk);
    EarlyParts(c, disk, evs);
    var e := After(c, disk, evs);
    BadBlockDoubles(c, disk, e, bad);
    Extend(c, disk, evs, Deliver(1, Piece(0, 0, bad)));
    assert DoubleRun(bad) == evs + [Deliver(1, Piece(0, 0, bad))];
    TwoHolders(After(c, disk, DoubleRun(bad)), 0, 1, Req(0, 0, |bad|));
  }
}
