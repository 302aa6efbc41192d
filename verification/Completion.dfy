/** From every reachable state, a missing piece can still be completed exactly when it is not wedged. */
module Completion {
  import opened Bytes
  import opened Geometry
  import opened Disk
  import opened Wire
  import opened Pieces
  import opened Swarm
  import opened Ledger
  import opened Receipts
  import opened Pipeline
  import opened Reach
  import opened Steps
  import opened Runs
  import opened Honest

  ghost predicate GenuineAt(c: Config, src: seq<byte>, s: Mgr, i: nat) {
    i in s.progress ==> Genuine(c.meta, src, i, s.progress[i])
  }

  /** Block `k` of piece `i` has arrived. */
  ghost predicate Got(s: Mgr, i: nat, k: nat) {
    i in s.progress && k < |s.progress[i].blocks| && s.progress[i].blocks[k].state.Received?
  }

  lemma UndeliveredGot(c: Config, src: seq<byte>, s: Mgr, t: Mgr, i: nat)
    requires Describes(c, src) && Undelivered(s, t) && Tables(c.meta, t)
    ensures GenuineAt(c, src, s, i) ==> GenuineAt(c, src, t, i)
    ensures forall k | Got(s, i, k) :: Got(t, i, k)
  {
    hide Genuine, WellShaped, Describes;
    ContentSize(c, src);
    if i in t.progress && GenuineAt(c, src, s, i) {
      assert WellShaped(c.meta, i, t.progress[i]);
      if i in s.progress {
        GenuineSame(c.meta, src, i, s.progress[i], t.progress[i]);
      } else {
        GenuineBlank(c.meta, src, i, t.progress[i]);
      }
    }
  }

  function BlockBegin(m: TorrentMetadata, i: nat, k: nat): (begin: uint32)
    requires k < BlockCount(PieceLength(m, i))
    ensures begin == k * BLOCK_SIZE < PieceLength(m, i)
  {
    BlocksPartition(PieceLength(m, i), k);
    k * BLOCK_SIZE
  }

  /** The bytes of block `k` of piece `i`. */
  ghost function SourceBlock(m: TorrentMetadata, src: seq<byte>, i: nat, k: nat): seq<byte>
    requires Sound(m) && |src| == m.totalLength && i < m.numPieces && k < BlockCount(PieceLength(m, i))
  {
    SourceBytes(m, src, i, BlockBegin(m, i, k))
  }

  lemma SourceBlockIs(m: TorrentMetadata, src: seq<byte>, i: nat, k: nat)
    requires Sound(m) && |src| == m.totalLength && i < m.numPieces && k < BlockCount(PieceLength(m, i))
    ensures GenuineBlock(m, src, i, BlockBegin(m, i, k), SourceBlock(m, src, i, k))
    ensures BlockBegin(m, i, k) + |SourceBlock(m, src, i, k)| <= PieceLength(m, i)
  {
    hide Sound, PieceLength, PieceStart;
    PiecesPartition(m, i);
  }

  lemma BlockStored(c: Config, src: seq<byte>, s: Mgr, i: nat, k: nat)
    requires Describes(c, src) && Tables(c.meta, s) && i < c.meta.numPieces && i !in s.have
    requires k < BlockCount(PieceLength(c.meta, i))
    ensures
      var t := BlockReceived(c.meta, s, i, BlockBegin(c.meta, i, k), SourceBlock(c.meta, src, i, k)).0;
      && Got(t, i, k) && (forall j | Got(s, i, j) :: Got(t, i, j))
      && (GenuineAt(c, src, s, i) ==> GenuineAt(c, src, t, i))
  {
    hide Genuine, WellShaped, Undelivered, Store, Init, GenuineBlock, Describes, SourceBlock;
    ContentSize(c, src);
    var block := SourceBlock(c.meta, src, i, k);
    SourceBlockIs(c.meta, src, i, k);
    var u := Init(c.meta, s, i);
    InitTables(c.meta, s, i);
    InitUndelivered(c.meta, s, i);
    UndeliveredGot(c, src, s, u, i);
    InitHas(c.meta, s, i);
    assert WellShaped(c.meta, i, u.progress[i]);
    BlockFits(c.meta, i, u.progress[i], k, |block|);
    StoreFits(u.progress[i], BlockBegin(c.meta, i, k), block, k);
    if GenuineAt(c, src, u, i) {
      GenuineStore(c.meta, src, i, u.progress[i], BlockBegin(c.meta, i, k), block);
    }
  }

  lemma BlockFits(m: TorrentMetadata, i: nat, ps: PieceState, k: nat, size: nat)
    requires WellShaped(m, i, ps) && k < BlockCount(PieceLength(m, i)) && k * BLOCK_SIZE + size <= PieceLength(m, i)
    ensures k < |ps.blocks| && FindBegin(ps.blocks, k * BLOCK_SIZE) == k
    ensures k * BLOCK_SIZE + size <= |ps.data|
  {
    TableBegins(m, i, ps, k);
    FoundIs(m, i, ps, k);
  }

  ghost function Delivery(c: Config, src: seq<byte>, p: PeerId, i: nat, k: nat): (ev: Event)
    requires Sound(c.meta) && |src| == c.meta.totalLength && i < c.meta.numPieces
    requires k < BlockCount(PieceLength(c.meta, i))
    ensures ev.Deliver? && ev.msg.Piece? && ev.p == p && ev.msg.index == i && ev.msg.begin == BlockBegin(c.meta, i, k)
    ensures ev.msg.block == SourceBlock(c.meta, src, i, k)
  {
    var m := c.meta;
    assert m.numPieces < 0x8000_0000;
    Deliver(p, Piece(i, BlockBegin(m, i, k), SourceBlock(m, src, i, k)))
  }

  lemma ConcludeEither(c: Config, src: seq<byte>, e: Engine, p: PeerId, i: nat)
    requires Describes(c, src) && Base(c, e) && p in e.peers && i < c.meta.numPieces && i in e.mgr.progress
    requires e.mgr.progress[i].blocksReceived == |e.mgr.progress[i].blocks|
    ensures var f := Conclude(c, e, p, i);
            && (i in f.mgr.have || i !in f.mgr.progress)
            && (GenuineAt(c, src, e.mgr, i) ==> i in f.mgr.have)
  {
    hide Conclude, Genuine, Tables, Counted, Within, PieceStart, PieceLength, PieceSlice, Sound;
    ConcludeParts(c, e, p, i);
    if GenuineAt(c, src, e.mgr, i) {
      GenuineFull(c.meta, src, i, e.mgr.progress[i]);
      assert Validates(c, e.mgr, i);
    }
  }

  /** The genuine block lands; a piece that then fails validation starts over with nothing wrong in it. */
  lemma BlockLands(c: Config, src: seq<byte>, e: Engine, p: PeerId, i: nat, k: nat)
    requires Describes(c, src) && Inv(c, e) && p in e.peers && i < c.meta.numPieces && i !in e.mgr.have
    requires k < BlockCount(PieceLength(c.meta, i))
    ensures Describes(c, src) ==> Sound(c.meta) && |src| == c.meta.totalLength
    ensures
      var f := Settle(c, e, p, i, BlockBegin(c.meta, i, k), SourceBlock(c.meta, src, i, k));
      || i in f.mgr.have
      || (GenuineAt(c, src, f.mgr, i) && !GenuineAt(c, src, e.mgr, i))
      || (&& Got(f.mgr, i, k) && (forall j | Got(e.mgr, i, j) :: Got(f.mgr, i, j))
          && (GenuineAt(c, src, e.mgr, i) ==> GenuineAt(c, src, f.mgr, i)))
  {
    hide Conclude, Core, Base, Outside, Told, NoLost, Solo, AllOnRequest, Unfinished, Dropped, BlockReceived,
      Tables, Counted, Describes, SourceBlock, Genuine, Sound, Got;
    InvCore(c, e);
    CoreTables(c, e);
    ContentSize(c, src);
    var block := SourceBlock(c.meta, src, i, k);
    var (t, complete) := Accept(c, SlotOf(e, p), i, BlockBegin(c.meta, i, k), block);
    var taken := WithSlot(e, p, t);
    TakenKeeps(c, e, p, i, BlockBegin(c.meta, i, k), block);
    BlockStored(c, src, e.mgr, i, k);
    if complete {
      ConcludeEither(c, src, taken, p, i);
    }
  }

  /** How far the deliveries of piece `i` have come: held, or blocks below `k` arrived with nothing uncounted. */
  ghost predicate Under(c: Config, src: seq<byte>, e: Engine, i: nat, k: nat, genuine: bool) {
    || i in e.mgr.have
    || (!genuine && GenuineAt(c, src, e.mgr, i))
    || (!Wedged(e.mgr, i) && (genuine ==> GenuineAt(c, src, e.mgr, i)) && forall j: nat | j < k :: Got(e.mgr, i, j))
  }

  lemma GenuineNotWedged(c: Config, src: seq<byte>, s: Mgr, i: nat)
    requires GenuineAt(c, src, s, i)
    ensures !Wedged(s, i)
  {
    hide Uncounted, WellShaped, Matches;
  }

  lemma DeliveryStep(c: Config, src: seq<byte>, e: Engine, p: PeerId, i: nat, k: nat, genuine: bool)
    requires Describes(c, src) && Inv(c, e) && p in e.peers && i < c.meta.numPieces
    requires Sound(c.meta) && |src| == c.meta.totalLength
    requires k < BlockCount(PieceLength(c.meta, i)) && Under(c, src, e, i, k, genuine)
    ensures Enabled(c, e, Delivery(c, src, p, i, k))
    ensures var f := Step(c, e, Delivery(c, src, p, i, k));
            Under(c, src, f, i, k + 1, genuine) && p in f.peers && e.mgr.have <= f.mgr.have
  {
    hide Core, Outside, NoLost, Settle, Refill, Solo, AllOnRequest, Told, Undelivered, GenuineAt, Got, Wedged,
      Describes, SourceBlock, Sound, Calm, Grows, Delivery;
    var ev := Delivery(c, src, p, i, k);
    InvCore(c, e);
    var block := SourceBlock(c.meta, src, i, k);
    SourceBlockIs(c.meta, src, i, k);
    var g := Settle(c, e, p, i, BlockBegin(c.meta, i, k), block);
    SettleKeeps(c, e, p, i, BlockBegin(c.meta, i, k), block);
    SettleGrows(c, e, p, i, BlockBegin(c.meta, i, k), block);
    RefillCalm(c, g, p);
    var f := Refill(c, g, p);
    assert f == Step(c, e, ev);
    GrowsHave(c, e, g);
    CalmParts(c, g, f);
    if i !in f.mgr.have {
      BlockLands(c, src, e, p, i, k);
      CoreTables(c, f);
      UndeliveredGot(c, src, g.mgr, f.mgr, i);
      StepWedgesIff(c, e, ev, i);
      FitsNotOverruns(c, e, p, i, k, block, ev);
      if GenuineAt(c, src, e.mgr, i) {
        GenuineNotWedged(c, src, e.mgr, i);
      }
      forall j: nat | j < k + 1 && Got(g.mgr, i, k) && forall x | Got(e.mgr, i, x) :: Got(g.mgr, i, x)
        ensures Got(e.mgr, i, j) || j == k ==> Got(f.mgr, i, j)
      {
      }
    }
  }

  lemma FitsNotOverruns(c: Config, e: Engine, p: PeerId, i: nat, k: nat, block: seq<byte>, ev: Event)
    requires k * BLOCK_SIZE + |block| <= PieceLength(c.meta, i)
    requires ev.Deliver? && ev.msg.Piece? && ev.msg.begin == k * BLOCK_SIZE && ev.msg.block == block
    ensures !OverrunAt(c, e, ev, i)
  {
  }

  /** A genuine delivery wedges no piece. */
  lemma DeliveryWedgesNone(c: Config, src: seq<byte>, e: Engine, p: PeerId, i: nat, k: nat, j: nat)
    requires Describes(c, src) && Inv(c, e) && i < c.meta.numPieces
    requires Sound(c.meta) && |src| == c.meta.totalLength && k < BlockCount(PieceLength(c.meta, i))
    requires Enabled(c, e, Delivery(c, src, p, i, k))
    ensures Wedged(Step(c, e, Delivery(c, src, p, i, k)).mgr, j) <==> Wedged(e.mgr, j)
    ensures Fair(c, src, Delivery(c, src, p, i, k))
  {
    hide Inv, Describes, SourceBlock, Step, Wedged, Delivery, PieceLength, Enabled, GenuineBlock;
    var ev := Delivery(c, src, p, i, k);
    SourceBlockIs(c.meta, src, i, k);
    InvCore(c, e);
    StepWedgesIff(c, e, ev, j);
    if i == j {
      FitsNotOverruns(c, e, p, i, k, SourceBlock(c.meta, src, i, k), ev);
    }
  }

  lemma GrowsHave(c: Config, e: Engine, f: Engine)
    requires Grows(c, e, f)
    ensures e.mgr.have <= f.mgr.have
  {
  }

  lemma CalmParts(c: Config, e: Engine, f: Engine)
    requires Calm(c, e, f)
    ensures Core(c, f) && Undelivered(e.mgr, f.mgr) && f.mgr.have == e.mgr.have
  {
  }

  /* ---- runs ---- */

  /** `more` continues the run with genuine deliveries: what is held stays, the peer stays, nothing gets wedged. */
  ghost predicate Onward(c: Config, src: seq<byte>, disk: seq<byte>, evs: seq<Event>, more: seq<Event>, p: PeerId)
    requires Describes(c, src) && Startable(c, disk) && Legal(c, disk, evs)
  {
    && AllFair(c, src, more) && Legal(c, disk, evs + more)
    && p in After(c, disk, evs + more).peers
    && After(c, disk, evs).mgr.have <= After(c, disk, evs + more).mgr.have
    && forall j: nat :: Wedged(After(c, disk, evs + more).mgr, j) <==> Wedged(After(c, disk, evs).mgr, j)
  }

  lemma OnwardNothing(c: Config, src: seq<byte>, disk: seq<byte>, evs: seq<Event>, p: PeerId)
    requires Describes(c, src) && Startable(c, disk) && Legal(c, disk, evs) && p in After(c, disk, evs).peers
    ensures Onward(c, src, disk, evs, [], p)
  {
    hide Describes, Startable, Legal, After, Wedged;
    assert evs + [] == evs;
  }

  lemma OnwardTransitive(c: Config, src: seq<byte>, disk: seq<byte>, evs: seq<Event>, a: seq<Event>, b: seq<Event>, p: PeerId)
    requires Describes(c, src) && Startable(c, disk) && Legal(c, disk, evs)
    requires Onward(c, src, disk, evs, a, p) && Onward(c, src, disk, evs + a, b, p)
    ensures Onward(c, src, disk, evs, a + b, p) && evs + (a + b) == evs + a + b
  {
    hide Describes, Startable, Legal, After, Wedged, Fair;
    assert evs + (a + b) == evs + a + b;
  }

  lemma OnwardDelivery(c: Config, src: seq<byte>, disk: seq<byte>, evs: seq<Event>, p: PeerId, i: nat, k: nat, genuine: bool)
    returns (ev: Event)
    requires Describes(c, src) && Startable(c, disk) && Legal(c, disk, evs) && i < c.meta.numPieces
    requires p in After(c, disk, evs).peers && k < BlockCount(PieceLength(c.meta, i))
    requires Under(c, src, After(c, disk, evs), i, k, genuine)
    ensures Onward(c, src, disk, evs, [ev], p) && Under(c, src, After(c, disk, evs + [ev]), i, k + 1, genuine)
  {
    hide Describes, Startable, Legal, After, Inv, Step, Under, Delivery, BlockCount, PieceLength, Enabled, Fair,
      Wedged;
    ContentSize(c, src);
    Reachable(c, disk, evs);
    var e := After(c, disk, evs);
    ev := Delivery(c, src, p, i, k);
    DeliveryStep(c, src, e, p, i, k, genuine);
    Extend(c, disk, evs, ev);
    forall j: nat ensures Wedged(Step(c, e, ev).mgr, j) <==> Wedged(e.mgr, j) {
      DeliveryWedgesNone(c, src, e, p, i, k, j);
    }
    DeliveryWedgesNone(c, src, e, p, i, k, 0);
  }

  /** One pass over the blocks of piece `i`, from block `k` on. */
  lemma {:induction false} DeliverFrom(c: Config, src: seq<byte>, disk: seq<byte>, evs: seq<Event>, p: PeerId, i: nat, k: nat,
                                       genuine: bool) returns (more: seq<Event>)
    requires Describes(c, src) && Startable(c, disk) && Legal(c, disk, evs) && i < c.meta.numPieces
    requires p in After(c, disk, evs).peers && k <= BlockCount(PieceLength(c.meta, i))
    requires Under(c, src, After(c, disk, evs), i, k, genuine)
    ensures Onward(c, src, disk, evs, more, p)
    ensures Under(c, src, After(c, disk, evs + more), i, BlockCount(PieceLength(c.meta, i)), genuine)
    decreases BlockCount(PieceLength(c.meta, i)) - k
  {
    hide Describes, Startable, Legal, After, Under, BlockCount, PieceLength, Wedged, AllFair;
    if k == BlockCount(PieceLength(c.meta, i)) {
      more := [];
      OnwardNothing(c, src, disk, evs, p);
      assert evs + more == evs;
    } else {
      var ev := OnwardDelivery(c, src, disk, evs, p, i, k, genuine);
      var rest := DeliverFrom(c, src, disk, evs + [ev], p, i, k + 1, genuine);
      OnwardTransitive(c, src, disk, evs, [ev], rest, p);
      more := [ev] + rest;
    }
  }

  /** A piece with every block arrived and counted would have been concluded. */
  lemma NoneLeft(c: Config, src: seq<byte>, e: Engine, i: nat, genuine: bool)
    requires Inv(c, e) && i < c.meta.numPieces && Under(c, src, e, i, BlockCount(PieceLength(c.meta, i)), genuine)
    ensures i in e.mgr.have || (!genuine && GenuineAt(c, src, e.mgr, i))
  {
    hide Outside, NoLost, GenuineAt, Within, PieceLength, CountReceived, TableEntry, BlockCount;
    if !(i in e.mgr.have || (!genuine && GenuineAt(c, src, e.mgr, i))) {
      NotZeroBlocks(c.meta, i);
      assert Got(e.mgr, i, 0);
      var ps := e.mgr.progress[i];
      assert WellShaped(c.meta, i, ps);
      forall k | 0 <= k < |ps.blocks| ensures ps.blocks[k].state.Received? {
        assert Got(e.mgr, i, k);
      }
      CountFull(ps.blocks);
    }
  }

  lemma NotZeroBlocks(m: TorrentMetadata, i: nat)
    requires Sound(m) && i < m.numPieces
    ensures BlockCount(PieceLength(m, i)) > 0
  {
    PiecesPartition(m, i);
  }

  /** A continuation that holds piece `i`: at most two passes over its blocks from one peer. */
  lemma CompletePiece(c: Config, src: seq<byte>, disk: seq<byte>, evs: seq<Event>, p: PeerId, i: nat) returns (more: seq<Event>)
    requires Describes(c, src) && Startable(c, disk) && Legal(c, disk, evs) && i < c.meta.numPieces
    requires p in After(c, disk, evs).peers && !Wedged(After(c, disk, evs).mgr, i)
    ensures Onward(c, src, disk, evs, more, p)
    ensures i in After(c, disk, evs + more).mgr.have
  {
    hide Describes, Startable, Legal, After, Inv, BlockCount, PieceLength, GenuineAt, Wedged, AllFair;
    var first := DeliverFrom(c, src, disk, evs, p, i, 0, false);
    var mid := evs + first;
    Reachable(c, disk, mid);
    NoneLeft(c, src, After(c, disk, mid), i, false);
    if GenuineAt(c, src, After(c, disk, mid).mgr, i) {
      GenuineNotWedged(c, src, After(c, disk, mid).mgr, i);
    }
    var second := DeliverFrom(c, src, disk, mid, p, i, 0, true);
    Reachable(c, disk, mid + second);
    NoneLeft(c, src, After(c, disk, mid + second), i, true);
    OnwardTransitive(c, src, disk, evs, first, second, p);
    more := first + second;
  }

  /** `more` carries the run on to a state that holds piece `i`. */
  ghost predicate Completes(c: Config, disk: seq<byte>, evs: seq<Event>, more: seq<Event>, i: nat)
    requires Startable(c, disk)
  {
    Legal(c, disk, evs + more) && i in After(c, disk, evs + more).mgr.have
  }

  /** A registered peer to continue with, registering one if there is none. */
  lemma SomePeer(c: Config, src: seq<byte>, disk: seq<byte>, evs: seq<Event>) returns (p: PeerId, more: seq<Event>)
    requires Describes(c, src) && Startable(c, disk) && Legal(c, disk, evs)
    ensures Onward(c, src, disk, evs, more, p)
  {
    hide Startable, Legal, After, Describes, Wedged;
    var e := After(c, disk, evs);
    if e.peers.Keys == {} {
      p := 0;
      assert |e.peers| == |e.peers.Keys|;
      var ev := Register(p, true, false);
      Extend(c, disk, evs, ev);
      more := [ev];
    } else {
      p :| p in e.peers.Keys;
      more := [];
      OnwardNothing(c, src, disk, evs, p);
    }
  }

  /**
   From every reachable state, against arbitrary peers so far: some continuation completes piece `i`
   exactly when no delivery has overrun it, provided some content has the metadata's hashes.
   */
  lemma CompletableIff(c: Config, src: seq<byte>, disk: seq<byte>, evs: seq<Event>, i: nat)
    requires Describes(c, src) && Startable(c, disk) && Legal(c, disk, evs) && i < c.meta.numPieces
    ensures (exists more :: Completes(c, disk, evs, more, i)) <==> !Overran(c, disk, evs, i)
  {
    hide Describes, Startable, Legal, After, Overran, Wedged, AllFair;
    if exists more :: Completes(c, disk, evs, more, i) {
      var more :| Completes(c, disk, evs, more, i);
      if Overran(c, disk, evs, i) {
        assert (evs + more)[..|evs|] == evs;
        WedgedForEver(c, disk, evs + more, |evs|, i);
        assert false;
      }
    }
    if !Overran(c, disk, evs, i) {
      WedgedIffOverran(c, disk, evs, i);
      var p, joined := SomePeer(c, src, disk, evs);
      var rest := CompletePiece(c, src, disk, evs + joined, p, i);
      assert evs + (joined + rest) == evs + joined + rest;
      assert Completes(c, disk, evs, joined + rest, i);
    }
  }

  /* ---- the whole download ---- */

  lemma {:induction false} CompleteBelow(c: Config, src: seq<byte>, disk: seq<byte>, evs: seq<Event>, p: PeerId, n: nat)
    returns (more: seq<Event>)
    requires Describes(c, src) && Startable(c, disk) && Legal(c, disk, evs) && n <= c.meta.numPieces
    requires p in After(c, disk, evs).peers && forall i: nat :: !Wedged(After(c, disk, evs).mgr, i)
    ensures Onward(c, src, disk, evs, more, p)
    ensures forall i: nat | i < n :: i in After(c, disk, evs + more).mgr.have
  {
    hide Describes, Startable, Legal, After, Wedged, AllFair;
    if n == 0 {
      more := [];
      OnwardNothing(c, src, disk, evs, p);
    } else {
      var front := CompleteBelow(c, src, disk, evs, p, n - 1);
      var rest := CompletePiece(c, src, disk, evs + front, p, n - 1);
      OnwardTransitive(c, src, disk, evs, front, rest, p);
      more := front + rest;
    }
  }

  /** An honest swarm can finish from wherever it is: some honest continuation leaves the source on disk. */
  lemma HonestSwarmCanFinish(c: Config, src: seq<byte>, disk: seq<byte>, evs: seq<Event>) returns (more: seq<Event>)
    requires Describes(c, src) && Startable(c, disk) && Legal(c, disk, evs) && AllFair(c, src, evs)
    ensures Legal(c, disk, evs + more) && AllFair(c, src, evs + more)
    ensures forall i: nat | i < c.meta.numPieces :: i in After(c, disk, evs + more).mgr.have
    ensures After(c, disk, evs + more).disk == src
  {
    hide Describes, Startable, Legal, After, Wedged, Fair, Same;
    StaysClean(c, src, disk, evs);
    forall i: nat ensures !Wedged(After(c, disk, evs).mgr, i) {
      CleanNotWedged(c, src, After(c, disk, evs), i);
    }
    PiecesCounted(c, disk);
    var p, joined := SomePeer(c, src, disk, evs);
    var rest := CompleteBelow(c, src, disk, evs + joined, p, c.meta.numPieces);
    OnwardTransitive(c, src, disk, evs, joined, rest, p);
    more := joined + rest;
    HonestSwarm(c, src, disk, evs + more);
  }

  lemma CleanNotWedged(c: Config, src: seq<byte>, e: Engine, i: nat)
    requires Clean(c, src, e)
    ensures !Wedged(e.mgr, i)
  {
    hide Uncounted, WellShaped, Matches;
  }

  lemma PiecesCounted(c: Config, disk: seq<byte>)
    requires Startable(c, disk)
    ensures c.meta.numPieces >= 0
  {
  }
}
