/** What holds after every run of the engine, whatever the peers send. */
module Runs {
  import opened Bytes
  import opened Geometry
  import opened Disk
  import opened Bitfields
  import opened Wire
  import opened Pieces
  import opened Picker
  import opened Swarm
  import opened Ledger
  import opened Receipts
  import opened Pipeline
  import opened Reach
  import opened Steps

  lemma StartKeeps(c: Config, disk: seq<byte>)
    requires Startable(c, disk)
    ensures var e := Start(c, disk); Inv(c, e) && Solo(e) && AllOnRequest(e)
  {
    var e := Start(c, disk);
    assert e.peers == map[];
    forall i: nat ensures Sharers(e.peers, i) == {} {
    }
    assert Core(c, e) && Availability(e);
  }

  lemma AfterUnfolds(c: Config, disk: seq<byte>, evs: seq<Event>)
    requires Startable(c, disk) && Legal(c, disk, evs) && evs != []
    ensures var front := evs[..|evs| - 1];
            && Legal(c, disk, front) && Enabled(c, After(c, disk, front), evs[|evs| - 1])
            && After(c, disk, evs) == Step(c, After(c, disk, front), evs[|evs| - 1])
  {
    hide Step, Startable, Sized;
  }

  lemma Extend(c: Config, disk: seq<byte>, evs: seq<Event>, ev: Event)
    requires Startable(c, disk) && Legal(c, disk, evs) && Enabled(c, After(c, disk, evs), ev)
    ensures Legal(c, disk, evs + [ev]) && After(c, disk, evs + [ev]) == Step(c, After(c, disk, evs), ev)
  {
    hide Step, Startable, Enabled;
    assert (evs + [ev])[..|evs|] == evs;
  }

  /** The engine's laws hold in every reachable state. */
  lemma {:induction false} Reachable(c: Config, disk: seq<byte>, evs: seq<Event>)
    requires Startable(c, disk) && Legal(c, disk, evs)
    ensures Inv(c, After(c, disk, evs))
    decreases |evs|
  {
    hide Inv, Step, Startable, Enabled, Told, Solo, AllOnRequest;
    if evs == [] {
      StartKeeps(c, disk);
    } else {
      var n := |evs| - 1;
      AfterUnfolds(c, disk, evs);
      Reachable(c, disk, evs[..n]);
      StepKeeps(c, After(c, disk, evs[..n]), evs[n]);
    }
  }

  /**
   In every reachable state: at most five requests per peer, each for an exact block of a piece not
   held; none, and no active piece, while the peer chokes us; an active piece is not held; and every
   piece in progress has fewer blocks counted than blocks, never more than are marked Received.
   */
  lemma StateLimits(c: Config, disk: seq<byte>, evs: seq<Event>)
    requires Startable(c, disk) && Legal(c, disk, evs)
    ensures
      var e := After(c, disk, evs);
      && (forall p | p in e.peers ::
            && |e.peers[p].out| <= PIPELINE
            && (forall r | r in e.peers[p].out :: Asks(c.meta, r) && r.piece as nat !in e.mgr.have)
            && (e.peers[p].active.Some? ==> e.peers[p].active.value !in e.mgr.have)
            && (e.peers[p].choking ==> e.peers[p].out == [] && e.peers[p].active == None))
      && (forall i | i in e.mgr.progress ::
            && i < c.meta.numPieces && i !in e.mgr.have
            && e.mgr.progress[i].blocksReceived < |e.mgr.progress[i].blocks|
            && e.mgr.progress[i].blocksReceived <= CountReceived(e.mgr.progress[i].blocks))
  {
    hide After, Startable, Legal, NoLost, Outside, Asks, Shaped, CountReceived;
    Reachable(c, disk, evs);
    var e := After(c, disk, evs);
    forall p | p in e.peers ensures Within(c.meta, e.mgr.have, e.peers[p]) {
    }
    forall i | i in e.mgr.progress ensures Uncounted(e.mgr.progress[i]) >= 0 {
    }
  }

  /* ---- no block is lost ---- */

  /** The peer has an outstanding request for the block at `begin` of piece `i`. */
  ghost predicate Waits(peer: Member, i: nat, begin: uint32) {
    exists r :: r in peer.out && r.piece == i && r.begin == begin
  }

  /** In every reachable state, a block marked Requested is on the list of some registered peer. */
  lemma NoBlockLost(c: Config, disk: seq<byte>, evs: seq<Event>, i: nat, k: nat) returns (p: PeerId)
    requires Startable(c, disk) && Legal(c, disk, evs)
    requires var s := After(c, disk, evs).mgr;
             i in s.progress && k < |s.progress[i].blocks| && s.progress[i].blocks[k].state.Requested?
    ensures p in After(c, disk, evs).peers
    ensures Waits(After(c, disk, evs).peers[p], i, After(c, disk, evs).mgr.progress[i].blocks[k].begin)
  {
    hide After, Startable, Legal, Sized, Sound, Counted, Unfinished, Within, Outside;
    Reachable(c, disk, evs);
    p := HolderAt(c, After(c, disk, evs), i, k);
  }

  lemma HolderAt(c: Config, e: Engine, i: nat, k: nat) returns (p: PeerId)
    requires Inv(c, e) && i in e.mgr.progress && k < |e.mgr.progress[i].blocks|
    requires e.mgr.progress[i].blocks[k].state.Requested?
    ensures p in e.peers && Waits(e.peers[p], i, e.mgr.progress[i].blocks[k].begin)
  {
    hide Outside, Sound, Counted, Unfinished, Within, WellShaped;
    var x := Key(i, e.mgr.progress[i].blocks[k].begin);
    assert WellShaped(c.meta, i, e.mgr.progress[i]);
    StateByNumber(c.meta, e.mgr, i, k);
    p := HolderOf(e.peers, x);
    var r :| r in e.peers[p].out && KeyOf(r) == x;
  }

  /* ---- what is held stays held ---- */

  /** Reports only accumulate; pieces held stay held and their bytes on disk stay as they are. */
  ghost predicate Grows(c: Config, e: Engine, f: Engine) {
    && e.corrupt <= f.corrupt && e.mgr.have <= f.mgr.have && |f.disk| == |e.disk|
    && forall i | i in e.mgr.have && 0 <= PieceStart(c.meta, i) && PieceStart(c.meta, i) + PieceLength(c.meta, i) <= |e.disk| ::
         PieceSlice(f.disk, c.meta, i) == PieceSlice(e.disk, c.meta, i)
  }

  lemma CorruptGrows(c: Config, e: Engine, f: Engine)
    requires Grows(c, e, f) && f.corrupt == []
    ensures e.corrupt == []
  {
  }

  lemma GrowsTransitive(c: Config, e: Engine, f: Engine, g: Engine)
    requires Grows(c, e, f) && Grows(c, f, g)
    ensures Grows(c, e, g)
  {
    hide PieceStart, PieceLength, PieceSlice;
  }

  lemma SameGrows(c: Config, e: Engine, f: Engine)
    requires f.corrupt == e.corrupt && f.mgr.have == e.mgr.have && f.disk == e.disk
    ensures Grows(c, e, f)
  {
    hide PieceStart, PieceLength;
  }

  lemma ConcludeGrows(c: Config, e: Engine, p: PeerId, i: nat)
    requires Base(c, e) && p in e.peers && i in e.mgr.progress && i < c.meta.numPieces
    ensures Grows(c, e, Conclude(c, e, p, i))
  {
    hide Conclude, Sound, Within, PieceStart, PieceLength, PieceSlice, Counted, Shaped;
    ConcludeParts(c, e, p, i);
    var f := Conclude(c, e, p, i);
    if Validates(c, e.mgr, i) {
      DataLength(c.meta, e.mgr, i);
      PiecesPartition(c.meta, i);
      forall j | j in e.mgr.have && 0 <= PieceStart(c.meta, j) && PieceStart(c.meta, j) + PieceLength(c.meta, j) <= |e.disk|
        ensures PieceSlice(f.disk, c.meta, j) == PieceSlice(e.disk, c.meta, j)
      {
        WriteKeepsOtherPieces(e.disk, c.meta, i, e.mgr.progress[i].data, j);
      }
    }
  }

  lemma SettleGrows(c: Config, e: Engine, p: PeerId, i: nat, begin: uint32, block: seq<byte>)
    requires Core(c, e) && p in e.peers && i < c.meta.numPieces
    ensures Grows(c, e, Settle(c, e, p, i, begin, block))
  {
    hide Accept, Conclude, Core, Base, NoLost, Solo, AllOnRequest, Outside, Told, Grows, Sound, Unfinished, Dropped;
    CoreWithin(c, e, p);
    var (t, complete) := Accept(c, SlotOf(e, p), i, begin, block);
    var taken := WithSlot(e, p, t);
    TakenKeeps(c, e, p, i, begin, block);
    AcceptHave(c, SlotOf(e, p), i, begin, block);
    SameGrows(c, e, taken);
    if complete {
      ConcludeGrows(c, taken, p, i);
      GrowsTransitive(c, e, taken, Conclude(c, taken, p, i));
    }
  }

  lemma AcceptHave(c: Config, s: Slot, i: nat, begin: uint32, block: seq<byte>)
    ensures Accept(c, s, i, begin, block).0.mgr.have == s.mgr.have
  {
    hide Store, FreshPiece, Without1;
  }

  lemma StepGrows(c: Config, e: Engine, ev: Event)
    requires Inv(c, e) && Enabled(c, e, ev)
    ensures Grows(c, e, Step(c, e, ev))
  {
    hide Core, Grows, Told, Undelivered, NoLost, Availability, OnDisk, Logged, Settle, Refill, OnUnregister, Put,
      Sound, OwnersKept;
    InvCore(c, e);
    if ev.Deliver? && ev.msg.Piece? {
      if ev.p in e.peers {
        var g := Settle(c, e, ev.p, ev.msg.index, ev.msg.begin, ev.msg.block);
        SettleGrows(c, e, ev.p, ev.msg.index, ev.msg.begin, ev.msg.block);
        SettleKeeps(c, e, ev.p, ev.msg.index, ev.msg.begin, ev.msg.block);
        RefillCalm(c, g, ev.p);
        SameGrows(c, g, Refill(c, g, ev.p));
        GrowsTransitive(c, e, g, Refill(c, g, ev.p));
      } else {
        SameGrows(c, e, e);
      }
    } else {
      CalmStep(c, e, ev);
      SameGrows(c, e, Step(c, e, ev));
    }
  }

  /** Verified on disk: a held piece, read back, has the metadata's hash. */
  lemma HeldPiecesVerify(c: Config, disk: seq<byte>, evs: seq<Event>, i: nat)
    requires Startable(c, disk) && Legal(c, disk, evs) && i in After(c, disk, evs).mgr.have
    ensures i < c.meta.numPieces == |c.meta.pieceHashes|
    ensures 0 <= PieceStart(c.meta, i) && PieceStart(c.meta, i) + PieceLength(c.meta, i) <= |After(c, disk, evs).disk|
    ensures c.sha1(PieceSlice(After(c, disk, evs).disk, c.meta, i)) == c.meta.pieceHashes[i]
  {
    hide After, Startable, Legal, Core, NoLost, Availability, Logged;
    Reachable(c, disk, evs);
    assert Stored(c, After(c, disk, evs).disk, i);
  }

  /** What is held at some point of a run is held, byte for byte, at every later point. */
  lemma {:induction false} HeldPiecesStay(c: Config, disk: seq<byte>, evs: seq<Event>, n: nat)
    requires Startable(c, disk) && Legal(c, disk, evs) && n <= |evs|
    ensures Legal(c, disk, evs[..n]) && Grows(c, After(c, disk, evs[..n]), After(c, disk, evs))
    decreases |evs|
  {
    hide Inv, Step, Startable, Enabled, Grows, After, Legal;
    if n == |evs| {
      assert evs[..n] == evs;
      SameGrows(c, After(c, disk, evs), After(c, disk, evs));
    } else {
      var front := evs[..|evs| - 1];
      AfterUnfolds(c, disk, evs);
      HeldPiecesStay(c, disk, front, n);
      assert front[..n] == evs[..n];
      Reachable(c, disk, front);
      StepGrows(c, After(c, disk, front), evs[|evs| - 1]);
      GrowsTransitive(c, After(c, disk, evs[..n]), After(c, disk, front), After(c, disk, evs));
    }
  }

  /* ---- each piece is completed and announced once ---- */

  /** The log of completions has each held piece exactly once. */
  lemma CompletedOnce(c: Config, disk: seq<byte>, evs: seq<Event>)
    requires Startable(c, disk) && Legal(c, disk, evs)
    ensures var e := After(c, disk, evs);
            && (forall a, b | 0 <= a < b < |e.completed| :: e.completed[a] != e.completed[b])
            && forall i :: i in e.completed <==> i in e.mgr.have
  {
    hide After, Startable, Legal, Core, NoLost, Availability, OnDisk;
    Reachable(c, disk, evs);
  }

  ghost predicate StaysRegistered(p: PeerId, evs: seq<Event>) {
    forall k | 0 <= k < |evs| :: evs[k] != Unregister(p)
  }

  lemma StepKeepsRegistered(c: Config, e: Engine, ev: Event, p: PeerId)
    requires Sized(c, e.hist) && Enabled(c, e, ev) && p in e.peers && ev != Unregister(p)
    ensures p in Step(c, e, ev).peers
  {
    hide Sized, Fill, Accept, Validates, Send, CancelAt, Express, Release;
  }

  /** A peer is sent one HAVE for each piece completed while it is registered, in order of completion. */
  lemma {:induction false} HavesWhileRegistered(c: Config, disk: seq<byte>, evs: seq<Event>, n: nat, p: PeerId)
    requires Startable(c, disk) && Legal(c, disk, evs) && n <= |evs| && Legal(c, disk, evs[..n])
    requires p in After(c, disk, evs[..n]).peers && StaysRegistered(p, evs[n..])
    ensures var e, f := After(c, disk, evs[..n]), After(c, disk, evs);
            && p in f.peers && e.completed <= f.completed
            && Haves(f.peers[p].sent) == Haves(e.peers[p].sent) + f.completed[|e.completed|..]
    decreases |evs|
  {
    hide Inv, Step, Startable, Enabled, After, Legal, Haves, Solo, AllOnRequest;
    if n == |evs| {
      assert evs[..n] == evs;
    } else {
      var front := evs[..|evs| - 1];
      AfterUnfolds(c, disk, evs);
      assert front[..n] == evs[..n];
      assert forall k | 0 <= k < |front[n..]| :: front[n..][k] == evs[n..][k];
      HavesWhileRegistered(c, disk, front, n, p);
      Reachable(c, disk, front);
      var e, f, g := After(c, disk, evs[..n]), After(c, disk, front), After(c, disk, evs);
      assert evs[|evs| - 1] == evs[n..][|evs| - 1 - n];
      StepKeeps(c, f, evs[|evs| - 1]);
      StepKeepsRegistered(c, f, evs[|evs| - 1], p);
      assert g.completed[|e.completed|..] == f.completed[|e.completed|..] + g.completed[|f.completed|..];
    }
  }

  /* ---- availability ---- */

  /** The histogram counts sharers exactly, so the guarded decrement never meets a zero for a peer's own piece. */
  lemma HistogramIsExact(c: Config, disk: seq<byte>, evs: seq<Event>, i: nat)
    requires Startable(c, disk) && Legal(c, disk, evs) && i < c.meta.numPieces
    ensures var e := After(c, disk, evs);
            && i < |e.hist| && e.hist[i] == |Sharers(e.peers, i)|
            && forall p | p in e.peers && i in e.peers[p].bits :: e.hist[i] > 0
  {
    hide After, Startable, Legal, NoLost, OnDisk, Logged, Sound;
    Reachable(c, disk, evs);
    var e := After(c, disk, evs);
    forall p | p in e.peers && i in e.peers[p].bits ensures e.hist[i] > 0 {
      assert p in Sharers(e.peers, i);
    }
  }

  /** A pick comes from an actual sharer; past bootstrapping, no piece on offer has fewer sharers. */
  lemma PicksAreRarest(c: Config, disk: seq<byte>, evs: seq<Event>, p: PeerId, draw: nat)
    requires Startable(c, disk) && Legal(c, disk, evs) && p in After(c, disk, evs).peers
    ensures
      var e := After(c, disk, evs);
      var excluded := Excluded(c.meta, e.mgr);
      var picked := Pick(e.hist, e.peers[p].bits, excluded, draw);
      && (picked.Some? <==> exists i: nat :: Useful(c.meta, e.mgr, e.peers[p].bits, i))
      && (picked.Some? ==>
            && Useful(c.meta, e.mgr, e.peers[p].bits, picked.value)
            && p in Sharers(e.peers, picked.value)
            && (|excluded| >= 4 ==>
                  forall i | Useful(c.meta, e.mgr, e.peers[p].bits, i) ::
                    1 <= |Sharers(e.peers, picked.value)| <= |Sharers(e.peers, i)|))
  {
    hide After, Startable, Legal, NoLost, OnDisk, Logged, Pick, HasPending, Sound, Tables, Counted, Unfinished;
    Reachable(c, disk, evs);
    var e := After(c, disk, evs);
    var excluded := Excluded(c.meta, e.mgr);
    var picked := Pick(e.hist, e.peers[p].bits, excluded, draw);
    PickIffCandidate(e.hist, e.peers[p].bits, excluded, draw);
    OfferedIffUseful(c, e, p);
    if picked.Some? {
      assert p in Sharers(e.peers, picked.value);
      if |excluded| >= 4 {
        forall i | Useful(c.meta, e.mgr, e.peers[p].bits, i)
          ensures 1 <= |Sharers(e.peers, picked.value)| <= |Sharers(e.peers, i)|
        {
          PickIsRarest(e.hist, e.peers[p].bits, excluded, draw, i);
        }
      }
    }
  }

  lemma OfferedIffUseful(c: Config, e: Engine, p: PeerId)
    requires Core(c, e) && p in e.peers
    ensures forall i: nat ::
              i < |e.hist| && i in e.peers[p].bits && i !in Excluded(c.meta, e.mgr)
              <==> Useful(c.meta, e.mgr, e.peers[p].bits, i)
  {
    hide HasPending, Sound, Tables, Counted, Unfinished, Within;
  }

  /* ---- work conservation ---- */

  /** Messages whose handler ends with a refill. */
  predicate Refills(msg: Message) {
    msg.Unchoke? || msg.BitfieldMsg? || msg.Piece?
  }

  lemma RefillIsWorkConserving(c: Config, e: Engine, p: PeerId, i: nat)
    requires Core(c, e) && p in e.peers
    ensures var f := Refill(c, e, p);
            p in f.peers && (f.peers[p].choking || |f.peers[p].out| == PIPELINE || !Useful(c.meta, f.mgr, f.peers[p].bits, i))
  {
    hide Fill, Useful, Within, Tables, Counted, Unfinished, Sound;
    if !e.peers[p].choking {
      FillIsWorkConserving(c, e.hist, SlotOf(e, p), i);
    }
  }

  /**
   After an unchoke, a bitfield or a piece from a registered peer, that peer is choking us, has five
   requests outstanding, or has no missing piece with a block left to ask for.
   */
  lemma PipelineIsFull(c: Config, disk: seq<byte>, evs: seq<Event>, p: PeerId, msg: Message, i: nat)
    requires Startable(c, disk) && Legal(c, disk, evs) && p in After(c, disk, evs).peers && Refills(msg)
    requires Enabled(c, After(c, disk, evs), Deliver(p, msg))
    ensures var f := Step(c, After(c, disk, evs), Deliver(p, msg));
            p in f.peers && (f.peers[p].choking || |f.peers[p].out| == PIPELINE || !Useful(c.meta, f.mgr, f.peers[p].bits, i))
  {
    hide After, Startable, Legal, Core, NoLost, Outside, Refill, Useful, Rebit, Settle, Calm, Told, OwnersKept,
      SameOutside, Solo, AllOnRequest, Put;
    Reachable(c, disk, evs);
    var e := After(c, disk, evs);
    match msg
    case Unchoke =>
      CoreWithin(c, e, p);
      PutKeeps(c, e, p, e.peers[p].(choking := false));
      PutHas(e, p, e.peers[p].(choking := false));
      RefillIsWorkConserving(c, Put(e, p, e.peers[p].(choking := false)), p, i);
    case BitfieldMsg(raw) =>
      RebitCalm(c, e, p, Announced(raw, c.meta.numPieces));
      var g := Rebit(c, e, p, Announced(raw, c.meta.numPieces));
      assert p in g.peers.Keys;
      CalmCore(c, e, g);
      RefillIsWorkConserving(c, g, p, i);
    case Piece(j, begin, block) =>
      var g := Settle(c, e, p, j, begin, block);
      SettleKeeps(c, e, p, j, begin, block);
      RefillIsWorkConserving(c, g, p, i);
  }

  lemma PutHas(e: Engine, p: PeerId, peer: Member)
    ensures p in Put(e, p, peer).peers
  {
  }
}
