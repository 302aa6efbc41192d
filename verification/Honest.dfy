/**
 Runs whose piece messages carry the right bytes, and the one delivery that stops a piece for good.
 */
module Honest {
  import opened Bytes
  import opened Geometry
  import opened Disk
  import opened Wire
  import opened Pieces
  import opened Swarm
  import opened Ledger
  import opened Receipts
  import opened Pipeline
  import opened Reach
  import opened Steps
  import opened Runs
  import opened Exclusivity

  /* ---- honest swarms ---- */

  /** `src` is a content the metadata describes. */
  ghost predicate Describes(c: Config, src: seq<byte>) {
    && Sound(c.meta) && |src| == c.meta.totalLength
    && forall i: nat | i < c.meta.numPieces ::
         && 0 <= PieceStart(c.meta, i) && PieceStart(c.meta, i) + PieceLength(c.meta, i) <= |src|
         && i < |c.meta.pieceHashes| && c.sha1(PieceSlice(src, c.meta, i)) == c.meta.pieceHashes[i]
  }

  /** A piece message carries exactly one block of `src`; any other event is allowed. */
  ghost predicate Fair(c: Config, src: seq<byte>, ev: Event)
    requires Describes(c, src)
  {
    ev.Deliver? && ev.msg.Piece? ==> GenuineBlock(c.meta, src, ev.msg.index, ev.msg.begin, ev.msg.block)
  }

  ghost predicate AllFair(c: Config, src: seq<byte>, evs: seq<Event>)
    requires Describes(c, src)
  {
    forall k | 0 <= k < |evs| :: Fair(c, src, evs[k])
  }

  ghost predicate AllGenuine(c: Config, src: seq<byte>, s: Mgr) {
    forall i | i in s.progress :: Genuine(c.meta, src, i, s.progress[i])
  }

  ghost predicate Same(c: Config, src: seq<byte>, disk: seq<byte>, i: nat) {
    && 0 <= PieceStart(c.meta, i) && PieceStart(c.meta, i) + PieceLength(c.meta, i) <= |src| == |disk|
    && PieceSlice(disk, c.meta, i) == PieceSlice(src, c.meta, i)
  }

  /** No peer reported, everything received genuine and counted, everything held equal to the source. */
  ghost predicate Clean(c: Config, src: seq<byte>, e: Engine) {
    && e.corrupt == [] && AllGenuine(c, src, e.mgr)
    && forall i | i in e.mgr.have :: Same(c, src, e.disk, i)
  }

  lemma UndeliveredGenuine(c: Config, src: seq<byte>, s: Mgr, t: Mgr)
    requires Describes(c, src) && AllGenuine(c, src, s) && Undelivered(s, t) && Tables(c.meta, t)
    ensures AllGenuine(c, src, t)
  {
    hide Genuine, WellShaped, SameReceipts, Blank, Describes;
    ContentSize(c, src);
    forall i | i in t.progress ensures Genuine(c.meta, src, i, t.progress[i]) {
      assert WellShaped(c.meta, i, t.progress[i]);
      if i in s.progress {
        GenuineSame(c.meta, src, i, s.progress[i], t.progress[i]);
      } else {
        GenuineBlank(c.meta, src, i, t.progress[i]);
      }
    }
  }

  lemma ContentSize(c: Config, src: seq<byte>)
    requires Describes(c, src)
    ensures Sound(c.meta) && |src| == c.meta.totalLength
  {
  }

  lemma CalmClean(c: Config, src: seq<byte>, e: Engine, f: Engine)
    requires Describes(c, src) && Clean(c, src, e) && Calm(c, e, f)
    ensures Clean(c, src, f)
  {
    hide Core, OwnersKept, Told, Undelivered, AllGenuine, Same, Describes;
    CoreTables(c, f);
    UndeliveredGenuine(c, src, e.mgr, f.mgr);
  }

  lemma CoreTables(c: Config, e: Engine)
    requires Core(c, e)
    ensures Tables(c.meta, e.mgr) && Sized(c, e.hist) && |e.disk| == c.meta.totalLength
  {
  }

  lemma ReceiveGenuine(c: Config, src: seq<byte>, s: Mgr, i: nat, begin: uint32, block: seq<byte>)
    requires Describes(c, src) && AllGenuine(c, src, s) && Tables(c.meta, s)
    requires GenuineBlock(c.meta, src, i, begin, block)
    ensures AllGenuine(c, src, BlockReceived(c.meta, s, i, begin, block).0)
  {
    hide Genuine, WellShaped, Undelivered, Store, Init, GenuineBlock, Describes;
    ContentSize(c, src);
    GenuineInRange(c.meta, src, i, begin, block);
    if i !in s.have {
      InitTables(c.meta, s, i);
      InitUndelivered(c.meta, s, i);
      UndeliveredGenuine(c, src, s, Init(c.meta, s, i));
      InitHas(c.meta, s, i);
      GenuineStore(c.meta, src, i, Init(c.meta, s, i).progress[i], begin, block);
    }
  }

  lemma GenuineInRange(m: TorrentMetadata, src: seq<byte>, i: nat, begin: uint32, block: seq<byte>)
    requires Sound(m) && |src| == m.totalLength && GenuineBlock(m, src, i, begin, block)
    ensures i < m.numPieces
  {
  }

  lemma InitTables(m: TorrentMetadata, s: Mgr, i: nat)
    requires Tables(m, s) && i < m.numPieces && i !in s.have
    ensures Tables(m, Init(m, s, i))
  {
    hide FreshPiece, Shaped;
    InitKeepsShape(m, s, i);
  }

  lemma ConcludeClean(c: Config, src: seq<byte>, e: Engine, p: PeerId, i: nat)
    requires Describes(c, src) && Clean(c, src, e) && Base(c, e)
    requires p in e.peers && i < c.meta.numPieces && i in e.mgr.progress
    requires e.mgr.progress[i].blocksReceived == |e.mgr.progress[i].blocks|
    ensures Clean(c, src, Conclude(c, e, p, i)) && i in Conclude(c, e, p, i).mgr.have
  {
    hide Conclude, Genuine, Tables, Counted, Within, PieceStart, PieceLength, PieceSlice, Sound;
    var f := Conclude(c, e, p, i);
    GenuineFull(c.meta, src, i, e.mgr.progress[i]);
    assert Validates(c, e.mgr, i);
    ConcludeParts(c, e, p, i);
    forall j | j in f.mgr.have ensures Same(c, src, f.disk, j) {
      HaveInRange(c.meta, e.mgr, i, j);
      DataLength(c.meta, e.mgr, i);
      WriteKeepsOtherPieces(e.disk, c.meta, i, e.mgr.progress[i].data, j);
    }
  }

  lemma HaveInRange(m: TorrentMetadata, s: Mgr, i: nat, j: nat)
    requires Tables(m, s) && i < m.numPieces && j in s.have + {i}
    ensures j < m.numPieces
  {
  }

  lemma AcceptClean(c: Config, src: seq<byte>, e: Engine, p: PeerId, i: nat, begin: uint32, block: seq<byte>)
    requires Describes(c, src) && Clean(c, src, e) && Core(c, e) && p in e.peers
    requires GenuineBlock(c.meta, src, i, begin, block)
    ensures Clean(c, src, WithSlot(e, p, Accept(c, SlotOf(e, p), i, begin, block).0))
  {
    hide AllGenuine, BlockReceived, GenuineBlock, Describes, Same, Core, Without1;
    CoreTables(c, e);
    AcceptHave(c, SlotOf(e, p), i, begin, block);
    ReceiveGenuine(c, src, e.mgr, i, begin, block);
  }

  lemma SettleClean(c: Config, src: seq<byte>, e: Engine, p: PeerId, i: nat, begin: uint32, block: seq<byte>)
    requires Describes(c, src) && Clean(c, src, e) && Core(c, e) && p in e.peers
    requires GenuineBlock(c.meta, src, i, begin, block) && i < c.meta.numPieces
    ensures Clean(c, src, Settle(c, e, p, i, begin, block))
  {
    hide Accept, Conclude, Clean, Core, Base, GenuineBlock, Describes, Outside, Told, NoLost, Solo, AllOnRequest,
      Unfinished, Dropped, Sound;
    CoreTables(c, e);
    var (t, complete) := Accept(c, SlotOf(e, p), i, begin, block);
    AcceptClean(c, src, e, p, i, begin, block);
    TakenKeeps(c, e, p, i, begin, block);
    if complete {
      ConcludeClean(c, src, WithSlot(e, p, t), p, i);
    }
  }

  lemma StepClean(c: Config, src: seq<byte>, e: Engine, ev: Event)
    requires Describes(c, src) && Clean(c, src, e) && Inv(c, e) && Enabled(c, e, ev) && Fair(c, src, ev)
    ensures Clean(c, src, Step(c, e, ev))
  {
    hide Clean, Core, Calm, GenuineBlock, Describes, NoLost, Availability, OnDisk, Logged, Settle, Refill,
      OnUnregister, Put, Sound, Told;
    InvCore(c, e);
    if ev.Deliver? && ev.msg.Piece? {
      if ev.p in e.peers {
        var g := Settle(c, e, ev.p, ev.msg.index, ev.msg.begin, ev.msg.block);
        SettleClean(c, src, e, ev.p, ev.msg.index, ev.msg.begin, ev.msg.block);
        SettleKeeps(c, e, ev.p, ev.msg.index, ev.msg.begin, ev.msg.block);
        RefillCalm(c, g, ev.p);
        CalmClean(c, src, g, Refill(c, g, ev.p));
      }
    } else {
      CalmStep(c, e, ev);
      CalmClean(c, src, e, Step(c, e, ev));
    }
  }

  lemma {:induction false} StaysClean(c: Config, src: seq<byte>, disk: seq<byte>, evs: seq<Event>)
    requires Describes(c, src) && Startable(c, disk) && Legal(c, disk, evs) && AllFair(c, src, evs)
    ensures Clean(c, src, After(c, disk, evs))
    decreases |evs|
  {
    hide Clean, Step, Inv, Startable, Describes, Enabled, Fair;
    if evs == [] {
      CleanStart(c, src, disk);
    } else {
      var n := |evs| - 1;
      AfterUnfolds(c, disk, evs);
      Reachable(c, disk, evs[..n]);
      StaysClean(c, src, disk, evs[..n]);
      StepClean(c, src, After(c, disk, evs[..n]), evs[n]);
    }
  }

  lemma CleanStart(c: Config, src: seq<byte>, disk: seq<byte>)
    requires Startable(c, disk)
    ensures Clean(c, src, Start(c, disk))
  {
  }

  /**
   Honest swarm: under any interleaving of peers, duplicates, chokes and disconnects no validation
   fails and nobody is reported, every received block is counted, what is held is the source's bytes,
   and with every piece held the files are the source.
   */
  lemma HonestSwarm(c: Config, src: seq<byte>, disk: seq<byte>, evs: seq<Event>)
    requires Describes(c, src) && Startable(c, disk) && Legal(c, disk, evs) && AllFair(c, src, evs)
    ensures
      var e := After(c, disk, evs);
      && e.corrupt == [] && Solo(e)
      && (forall i | i in e.mgr.progress :: e.mgr.progress[i].blocksReceived == CountReceived(e.mgr.progress[i].blocks))
      && (forall i | i in e.mgr.have :: Same(c, src, e.disk, i))
      && ((forall i: nat | i < c.meta.numPieces :: i in e.mgr.have) ==> e.disk == src)
  {
    hide Startable, Legal, After, Solo, Sound, Same, Core, NoLost, Outside, CountReceived, WellShaped, Matches,
      Describes;
    var e := After(c, disk, evs);
    StaysClean(c, src, disk, evs);
    ExclusiveWithoutFailures(c, disk, evs);
    forall i | i in e.mgr.progress ensures Uncounted(e.mgr.progress[i]) == 0 {
      assert Genuine(c.meta, src, i, e.mgr.progress[i]);
    }
    if forall i: nat | i < c.meta.numPieces :: i in e.mgr.have {
      Reachable(c, disk, evs);
      CoreTables(c, e);
      ContentSize(c, src);
      AllSame(c, src, e.disk);
    }
  }

  lemma AllSame(c: Config, src: seq<byte>, disk: seq<byte>)
    requires Sound(c.meta) && |src| == |disk| == c.meta.totalLength
    requires forall i: nat | i < c.meta.numPieces :: Same(c, src, disk, i)
    ensures disk == src
  {
    hide Sound, PieceLength, PieceSlice;
    forall i: nat | i < c.meta.numPieces
      ensures 0 <= PieceStart(c.meta, i) && PieceStart(c.meta, i) + PieceLength(c.meta, i) <= c.meta.totalLength
      ensures PieceSlice(disk, c.meta, i) == PieceSlice(src, c.meta, i)
    {
      assert Same(c, src, disk, i);
    }
    EqualByPieces(disk, src, c.meta);
  }

  /* ---- progress ---- */

  /** Some registered peer has an outstanding request for a block of piece `i`. */
  ghost predicate Awaited(e: Engine, i: nat) {
    exists p, r :: p in e.peers && r in e.peers[p].out && r.piece as nat == i
  }

  /** A missing piece with nothing uncounted has a block to hand out or one on request. */
  lemma NotStuck(c: Config, e: Engine, i: nat)
    requires Inv(c, e) && i < c.meta.numPieces && i !in e.mgr.have
    requires i in e.mgr.progress ==> Uncounted(e.mgr.progress[i]) == 0
    ensures HasPending(e.mgr, i) || Awaited(e, i)
  {
    hide Outside, NoLost, Sound, Counted, Within, Shaped, CountReceived;
    if i in e.mgr.progress {
      var ps := e.mgr.progress[i];
      if !HasPending(e.mgr, i) {
        CountFull(ps.blocks);
        var k :| 0 <= k < |ps.blocks| && !ps.blocks[k].state.Received?;
        assert !ps.blocks[k].state.Pending?;
        var p := HolderAt(c, e, i, k);
      }
    }
  }

  /** In an honest swarm no missing piece is ever stuck. */
  lemma HonestSwarmNeverStuck(c: Config, src: seq<byte>, disk: seq<byte>, evs: seq<Event>, i: nat)
    requires Describes(c, src) && Startable(c, disk) && Legal(c, disk, evs) && AllFair(c, src, evs)
    requires i < c.meta.numPieces && i !in After(c, disk, evs).mgr.have
    ensures HasPending(After(c, disk, evs).mgr, i) || Awaited(After(c, disk, evs), i)
  {
    hide Startable, Legal, After, Inv, Sound, Same, WellShaped, Matches, HasPending, Awaited, Describes, Uncounted;
    var e := After(c, disk, evs);
    StaysClean(c, src, disk, evs);
    Reachable(c, disk, evs);
    if i in e.mgr.progress {
      assert Genuine(c.meta, src, i, e.mgr.progress[i]);
    }
    NotStuck(c, e, i);
  }

  /* ---- the delivery that stops a piece ---- */

  /** The piece is in progress with a block marked Received that was never counted. */
  ghost predicate Wedged(s: Mgr, i: nat) {
    i in s.progress && Uncounted(s.progress[i]) > 0
  }

  /** The first delivery of one of the piece's blocks, running past the end of the piece. */
  ghost predicate Overruns(m: TorrentMetadata, s: Mgr, i: nat, begin: uint32, block: seq<byte>) {
    && i < m.numPieces && i !in s.have
    && begin % BLOCK_SIZE == 0 && begin < PieceLength(m, i) < begin + |block|
    && StateOf(s, Key(i, begin)) != Some(Received)
  }

  lemma UndeliveredWedge(s: Mgr, t: Mgr, i: nat)
    requires Undelivered(s, t)
    ensures Wedged(t, i) <==> Wedged(s, i)
  {
    hide Uncounted;
    if i in t.progress {
      UncountedSame(s, t, i);
    }
  }

  lemma ReceiveWedgesIff(m: TorrentMetadata, s: Mgr, j: nat, begin: uint32, block: seq<byte>, i: nat)
    requires Sound(m) && Tables(m, s) && Counted(s) && j < m.numPieces
    ensures var t := BlockReceived(m, s, j, begin, block).0;
            Wedged(t, i) <==> Wedged(s, i) || (i == j && Overruns(m, s, i, begin, block))
  {
    hide Uncounted, Store, Init, Undelivered, Sound, WellShaped, PieceLength, FreshPiece;
    if j !in s.have {
      var u := Init(m, s, j);
      InitUndelivered(m, s, j);
      UndeliveredWedge(s, u, i);
      if i == j {
        InitTables(m, s, j);
        InitHas(m, s, j);
        InitEffect(m, s, j, Key(j, begin));
        assert WellShaped(m, j, u.progress[j]);
        UndeliveredKeepsCounts(s, u);
        StoreOverruns(m, j, u.progress[j], begin, block);
      }
    }
  }

  lemma StoreOverruns(m: TorrentMetadata, i: nat, ps: PieceState, begin: uint32, block: seq<byte>)
    requires WellShaped(m, i, ps) && Uncounted(ps) >= 0
    ensures Uncounted(Store(ps, begin, block)) > 0
       <==> || Uncounted(ps) > 0
            || (begin % BLOCK_SIZE == 0 && begin < PieceLength(m, i) < begin + |block| && StateIn(ps, begin) != Some(Received))
  {
    hide Uncounted, Store, PieceLength, TableEntry;
    StoreCountsIff(ps, begin, block);
    TableFinds(m, i, ps, begin);
    FitsIff(m, i, ps, begin, block);
  }

  lemma FitsIff(m: TorrentMetadata, i: nat, ps: PieceState, begin: uint32, block: seq<byte>)
    requires WellShaped(m, i, ps)
    ensures begin + |block| <= |ps.data| <==> begin + |block| <= PieceLength(m, i)
  {
  }

  /** A wedged piece is not full, so its deliveries never conclude it. */
  lemma ConcludeWedge(c: Config, e: Engine, p: PeerId, j: nat, i: nat)
    requires Base(c, e) && p in e.peers && j < c.meta.numPieces && j in e.mgr.progress
    requires e.mgr.progress[j].blocksReceived == |e.mgr.progress[j].blocks|
    ensures Wedged(Conclude(c, e, p, j).mgr, i) <==> Wedged(e.mgr, i)
  {
    hide Conclude, Sound, Within, Tables, CountReceived;
    ConcludeParts(c, e, p, j);
  }

  lemma SettleWedgesIff(c: Config, e: Engine, p: PeerId, j: nat, begin: uint32, block: seq<byte>, i: nat)
    requires Core(c, e) && p in e.peers && j < c.meta.numPieces
    ensures Wedged(Settle(c, e, p, j, begin, block).mgr, i)
       <==> Wedged(e.mgr, i) || (i == j && Overruns(c.meta, e.mgr, i, begin, block))
  {
    hide Conclude, Core, Base, Overruns, Outside, Told, NoLost, Solo, AllOnRequest, Unfinished, Dropped,
      BlockReceived, Wedged, Tables, Counted;
    CoreTables(c, e);
    CoreCounted(c, e);
    var (t, complete) := Accept(c, SlotOf(e, p), j, begin, block);
    TakenKeeps(c, e, p, j, begin, block);
    ReceiveWedgesIff(c.meta, e.mgr, j, begin, block, i);
    if complete {
      ConcludeWedge(c, WithSlot(e, p, t), p, j, i);
    }
  }

  lemma CoreCounted(c: Config, e: Engine)
    requires Core(c, e)
    ensures Counted(e.mgr)
  {
  }

  /** The step delivers, from a registered peer, a block of piece `i` that overruns the piece. */
  ghost predicate OverrunAt(c: Config, e: Engine, ev: Event, i: nat) {
    ev.Deliver? && ev.msg.Piece? && ev.p in e.peers && ev.msg.index == i && Overruns(c.meta, e.mgr, i, ev.msg.begin, ev.msg.block)
  }

  /** A step wedges a piece exactly when it delivers an overrunning block of it; nothing unwedges it. */
  lemma StepWedgesIff(c: Config, e: Engine, ev: Event, i: nat)
    requires Inv(c, e) && Enabled(c, e, ev)
    ensures Wedged(Step(c, e, ev).mgr, i) <==> Wedged(e.mgr, i) || OverrunAt(c, e, ev, i)
  {
    hide Wedged, Core, OwnersKept, Overruns, NoLost, Availability, OnDisk, Logged, Settle, Refill, OnUnregister,
      Put, Sound, Told, Undelivered;
    InvCore(c, e);
    if ev.Deliver? && ev.msg.Piece? {
      if ev.p in e.peers {
        var g := Settle(c, e, ev.p, ev.msg.index, ev.msg.begin, ev.msg.block);
        SettleWedgesIff(c, e, ev.p, ev.msg.index, ev.msg.begin, ev.msg.block, i);
        SettleKeeps(c, e, ev.p, ev.msg.index, ev.msg.begin, ev.msg.block);
        RefillCalm(c, g, ev.p);
        UndeliveredWedge(g.mgr, Refill(c, g, ev.p).mgr, i);
      }
    } else {
      CalmStep(c, e, ev);
      UndeliveredWedge(e.mgr, Step(c, e, ev).mgr, i);
    }
  }

  /** Some event of the run delivered an overrunning block of piece `i`. */
  ghost predicate Overran(c: Config, disk: seq<byte>, evs: seq<Event>, i: nat)
    requires Startable(c, disk) && Legal(c, disk, evs)
    decreases |evs|
  {
    evs != [] &&
    var n := |evs| - 1;
    Overran(c, disk, evs[..n], i) || OverrunAt(c, After(c, disk, evs[..n]), evs[n], i)
  }

  /** A piece is wedged exactly when a first delivery of one of its blocks ran past its end; then it is never held. */
  lemma {:induction false} WedgedIffOverran(c: Config, disk: seq<byte>, evs: seq<Event>, i: nat)
    requires Startable(c, disk) && Legal(c, disk, evs)
    ensures Wedged(After(c, disk, evs).mgr, i) <==> Overran(c, disk, evs, i)
    ensures Overran(c, disk, evs, i) ==> i !in After(c, disk, evs).mgr.have
    decreases |evs|
  {
    hide Inv, Step, Startable, Enabled, Wedged, OverrunAt;
    Reachable(c, disk, evs);
    if evs == [] {
      NotWedgedAtStart(c, disk, i);
    } else {
      var n := |evs| - 1;
      AfterUnfolds(c, disk, evs);
      WedgedIffOverran(c, disk, evs[..n], i);
      Reachable(c, disk, evs[..n]);
      StepWedgesIff(c, After(c, disk, evs[..n]), evs[n], i);
    }
    if Wedged(After(c, disk, evs).mgr, i) {
      WedgedNotHeld(c, After(c, disk, evs), i);
    }
  }

  lemma NotWedgedAtStart(c: Config, disk: seq<byte>, i: nat)
    requires Startable(c, disk)
    ensures !Wedged(Start(c, disk).mgr, i)
  {
  }

  lemma WedgedNotHeld(c: Config, e: Engine, i: nat)
    requires Inv(c, e) && Wedged(e.mgr, i)
    ensures i !in e.mgr.have
  {
  }

  lemma {:induction false} OverranLater(c: Config, disk: seq<byte>, evs: seq<Event>, n: nat, i: nat)
    requires Startable(c, disk) && Legal(c, disk, evs) && n <= |evs| && Legal(c, disk, evs[..n])
    requires Overran(c, disk, evs[..n], i)
    ensures Overran(c, disk, evs, i)
    decreases |evs|
  {
    hide Step, Startable, Enabled, OverrunAt;
    if n == |evs| {
      assert evs[..n] == evs;
    } else {
      AfterUnfolds(c, disk, evs);
      var front := evs[..|evs| - 1];
      assert front[..n] == evs[..n];
      OverranLater(c, disk, front, n, i);
    }
  }

  /** Once a block overran its piece, no continuation of the run ever completes that piece. */
  lemma WedgedForEver(c: Config, disk: seq<byte>, evs: seq<Event>, n: nat, i: nat)
    requires Startable(c, disk) && Legal(c, disk, evs) && n <= |evs| && Legal(c, disk, evs[..n])
    requires Overran(c, disk, evs[..n], i)
    ensures i !in After(c, disk, evs).mgr.have && i !in After(c, disk, evs).completed
  {
    hide Startable, Legal, After, Overran;
    OverranLater(c, disk, evs, n, i);
    WedgedIffOverran(c, disk, evs, i);
    CompletedOnce(c, disk, evs);
  }

  /** Two events suffice: one peer, and one block a byte too long for the first piece. */
  lemma OversizedBlockWedges(c: Config, disk: seq<byte>, p: PeerId, block: seq<byte>)
    requires Startable(c, disk) && c.meta.numPieces > 0 && |block| == PieceLength(c.meta, 0) + 1
    ensures var evs := [Register(p, false, false), Deliver(p, Piece(0, 0, block))];
            Legal(c, disk, evs) && Overran(c, disk, evs, 0)
  {
    hide Handle, Sound;
    var evs := [Register(p, false, false), Deliver(p, Piece(0, 0, block))];
    assert evs[..1] == [Register(p, false, false)] && evs[..1][..0] == [];
    assert Legal(c, disk, []);
    assert Legal(c, disk, evs[..1]);
    var e := After(c, disk, evs[..1]);
    assert e == Step(c, Start(c, disk), evs[0]);
    PiecesPartition(c.meta, 0);
    assert OverrunAt(c, e, evs[1], 0);
  }
}
