/**
 The coordinator as the source has it (download_coordinator.cpp, and the completion callback and final
 check of main.cpp): objects updated in place, packed bitfields, loops over peers and requests. Each
 method does to `View()` what the step system of Swarm says.
 */
module Coordinator {
  import opened Bytes
  import opened Geometry
  import opened Disk
  import opened Bitfields
  import opened Wire
  import opened Pieces
  import opened Picker
  import opened Swarm

  ghost function PeerView(r: Peer<Bits>): Member {
    Peer(r.choking, r.interested, Members(r.bits), r.out, r.active, r.sent)
  }

  ghost function PeersView(peers: map<PeerId, Peer<Bits>>): map<PeerId, Member> {
    map p | p in peers :: PeerView(peers[p])
  }

  lemma PeersViewPut(peers: map<PeerId, Peer<Bits>>, p: PeerId, r: Peer<Bits>)
    ensures PeersView(peers[p := r]) == PeersView(peers)[p := PeerView(r)]
  {
    hide Members;
  }

  lemma PeersViewRemove(peers: map<PeerId, Peer<Bits>>, p: PeerId)
    ensures PeersView(peers - {p}) == PeersView(peers) - {p}
  {
    hide Members;
  }

  ghost function CancelledAll(peers: map<PeerId, Peer<Bits>>, i: nat): map<PeerId, Peer<Bits>> {
    map q | q in peers :: CancelAt(peers[q], i)
  }

  ghost function ToldAll(peers: map<PeerId, Peer<Bits>>, i: nat): map<PeerId, Peer<Bits>> {
    map q | q in peers :: Send(peers[q], Have(ToUint32(i)))
  }

  class DownloadCoordinator {
    const pm: PieceManager
    const picker: PiecePicker
    const disk: DiskIOManager
    var peers: map<PeerId, Peer<Bits>>
    /** What `on_piece_completed` and `on_peer_corrupted` were called with, in order. */
    var completed: seq<nat>
    var corrupt: seq<PeerId>

    ghost predicate Valid()
      reads this, pm, pm.bitfield.bytes, picker, disk
    {
      && pm.Valid() && picker.Valid() && disk.Valid()
      && disk.metadata == pm.metadata && picker.numPieces == pm.metadata.numPieces
      && forall p | p in peers :: peers[p].bits.numBits == pm.metadata.numPieces
    }

    ghost function Cfg(): Config {
      Config(pm.metadata, pm.sha1, picker.rng)
    }

    ghost function View(): (e: Engine)
      requires Valid()
      reads this, pm, pm.bitfield.bytes, picker, disk
      ensures Sized(Cfg(), e.hist)
    {
      Engine(pm.View(), picker.histogram, PeersView(peers), disk.Content(), picker.draws, completed, corrupt)
    }

    constructor (pm: PieceManager, picker: PiecePicker, disk: DiskIOManager)
      requires pm.Valid() && picker.Valid() && disk.Valid()
      requires disk.metadata == pm.metadata && picker.numPieces == pm.metadata.numPieces
      ensures Valid() && this.pm == pm && this.picker == picker && this.disk == disk
      ensures View() == Engine(pm.View(), picker.histogram, map[], disk.Content(), picker.draws, [], [])
    {
      this.pm := pm;
      this.picker := picker;
      this.disk := disk;
      peers := map[];
      completed := [];
      corrupt := [];
    }

    /** A peer registered again starts over, as the map assignment does. */
    method RegisterPeer(p: PeerId, choking: bool, interested: bool)
      requires Valid()
      modifies this`peers
      ensures Valid() && View() == Put(old(View()), p, Peer(choking, interested, {}, [], None, []))
    {
      var bitfield := new Bitfield(pm.metadata.numPieces);
      var r := Peer(choking, interested, bitfield.Value(), [], None, []);
      PeersViewPut(peers, p, r);
      peers := peers[p := r];
    }

    /** Returns every request of the list to Pending. */
    method ReturnRequests(out: seq<Req>)
      requires Valid()
      modifies pm
      ensures Valid() && View() == old(View()).(mgr := Release(old(View()).mgr, out))
    {
      hide Members, RequestFailed, LaidOut;
      for k := 0 to |out|
        invariant Valid() && View() == old(View()).(mgr := pm.View())
        invariant Release(pm.View(), out[k..]) == Release(old(pm.View()), out)
      {
        pm.BlockRequestFailed(out[k].piece, out[k].begin);
      }
    }

    method UnregisterPeer(p: PeerId)
      requires Valid()
      modifies this`peers, pm, picker`histogram
      ensures Valid()
      ensures View() == if p in old(peers) then OnUnregister(old(View()), p) else old(View())
    {
      hide Members, Release, Removed, Sound, LaidOut, Shaped;
      if p !in peers {
        return;
      }
      var state := peers[p];
      var bitfield := new Bitfield.Copy(state.bits);
      picker.RemovePeerBitfield(bitfield);
      ReturnRequests(state.out);
      PeersViewRemove(peers, p);
      peers := peers - {p};
    }

    /* ---- the request pipeline ---- */

    /** Our bitfield with every piece added that has no block left to hand out. */
    method CompletedOrFull() returns (b: Bitfield)
      requires Valid()
      ensures fresh(b) && fresh(b.bytes) && b.Valid()
      ensures Members(b.Value()) == Excluded(pm.metadata, pm.View())
    {
      hide Members, HasPending;
      b := new Bitfield.Copy(pm.bitfield.Value());
      ghost var have := Members(pm.bitfield.Value());
      for i := 0 to pm.metadata.numPieces
        invariant fresh(b) && fresh(b.bytes) && b.Valid() && b.numBits == pm.metadata.numPieces
        invariant forall j: nat :: j in Members(b.Value()) <==> j in have || (j < i && !HasPending(pm.View(), j))
      {
        var pending := pm.HasPendingBlocks(i);
        if !pending {
          b.Set(i, true);
        }
      }
    }

    method ChoosePiece(state: Peer<Bits>) returns (chosen: Option<nat>)
      requires Valid()
      modifies picker`draws
      ensures Valid()
      ensures (chosen, picker.draws) == Choose(Cfg(), picker.histogram, Slot(pm.View(), PeerView(state), old(picker.draws)))
      ensures View() == old(View()).(draws := picker.draws)
    {
      hide Members, Excluded, Pick;
      if state.active.Some? {
        return state.active;
      }
      var completedOrFull := CompletedOrFull();
      var bitfield := new Bitfield.Copy(state.bits);
      chosen := picker.PickPiece(bitfield, completedOrFull);
    }

    method RequestBlock(p: PeerId, i: nat)
      requires Valid() && p in peers
      modifies this`peers, pm
      ensures Valid() && peers.Keys == old(peers.Keys)
      ensures View() == WithSlot(old(View()), p, Ask(Cfg(), SlotOf(old(View()), p), i, picker.draws))
    {
      hide Members, NextBlock, Sound, LaidOut, Shaped;
      var state := peers[p];
      var block := pm.GetNextBlock(i);
      if block.None? {
        state := state.(active := None);
      } else {
        var b := block.value;
        state := Send(state.(out := state.out + [Req(b.piece, b.begin, b.length)], active := Some(i)),
                      Request(b.piece, b.begin, b.length));
      }
      PeersViewPut(peers, p, state);
      peers := peers[p := state];
    }

    /** One round of the loop; false means there is no piece to ask for. */
    method PipelineRound(p: PeerId) returns (more: bool)
      requires Valid() && p in peers && |peers[p].out| < PIPELINE
      modifies this`peers, pm, picker`draws
      ensures Valid() && peers.Keys == old(peers.Keys)
      ensures more <==> More(Cfg(), old(picker.histogram), SlotOf(old(View()), p))
      ensures View() == if more then WithSlot(old(View()), p, Round(Cfg(), old(picker.histogram), SlotOf(old(View()), p)))
                        else old(View())
    {
      hide Members, Choose, Ask;
      ghost var s := SlotOf(View(), p);
      var chosen := ChoosePiece(peers[p]);
      more := chosen.Some?;
      if more {
        AskDraws(Cfg(), s, SlotOf(View(), p), chosen.value, picker.draws);
        RequestBlock(p, chosen.value);
      } else {
        NoDraw(Cfg(), picker.histogram, s);
      }
    }

    method FillRequestPipeline(p: PeerId)
      requires Valid()
      modifies this`peers, pm, picker`draws
      ensures Valid() && peers.Keys == old(peers.Keys)
      ensures View() == if p in old(peers) then Refill(Cfg(), old(View()), p) else old(View())
    {
      hide Members, Round, More, Fill, WithSlot, SlotOf, LaidOut, Shaped, Sound;
      if p !in peers || peers[p].choking {
        return;
      }
      ghost var c, e := Cfg(), View();
      ghost var s := SlotOf(e, p);
      SlotPutBack(e, p);
      while |peers[p].out| < PIPELINE
        invariant Valid() && p in peers && peers.Keys == old(peers.Keys)
        invariant View() == WithSlot(e, p, s) && s.peer == PeerView(peers[p])
        invariant Fill(c, e.hist, s) == Fill(c, e.hist, SlotOf(e, p))
        decreases PIPELINE - |peers[p].out|, peers[p].active.Some?
      {
        WithSlotAgain(e, p, s);
        var more := PipelineRound(p);
        if !more {
          break;
        }
        RoundProgresses(c, e.hist, s);
        FillGoesOn(c, e.hist, s);
        s := Round(c, e.hist, s);
        WithSlotAgain(e, p, s);
      }
      FillEnds(c, e.hist, s);
    }

    /* ---- messages ---- */

    /** Whether the bitfield has a piece we lack. */
    method HasWanted(b: Bitfield) returns (wanted: bool)
      requires Valid() && b.Valid()
      ensures wanted <==> exists i: nat :: i < pm.metadata.numPieces && i in Members(b.Value()) && i !in pm.View().have
    {
      hide Members;
      wanted := false;
      for i := 0 to pm.metadata.numPieces
        invariant forall j: nat | j < i :: !(j in Members(b.Value()) && j !in pm.View().have)
      {
        var theirs := b.Has(i);
        var have := pm.HasPiece(i);
        if theirs && !have {
          return true;
        }
      }
    }

    /** The peer's new bitfield, counted in place of the old one. */
    method RecountBitfield(previous: Bits, raw: seq<byte>) returns (bits: Bits)
      requires Valid()
      modifies picker`histogram
      ensures Valid() && bits.numBits == pm.metadata.numPieces && Members(bits) == Announced(raw, pm.metadata.numPieces)
      ensures View() == old(View()).(hist := Added(Removed(old(picker.histogram), Members(previous)), Members(bits)))
    {
      hide Members, Announced, Added, Removed, Sound, LaidOut, Shaped;
      var before := new Bitfield.Copy(previous);
      picker.RemovePeerBitfield(before);
      var bitfield := new Bitfield.FromBytes(raw, pm.metadata.numPieces);
      picker.AddPeerBitfield(bitfield);
      bits := bitfield.Value();
    }

    /** Stores the peer's record, first telling the peer of our interest where it is new. */
    method StoreState(p: PeerId, record: Peer<Bits>, wanted: bool)
      requires Valid() && p in peers && record.bits.numBits == pm.metadata.numPieces
      modifies this`peers
      ensures Valid() && peers.Keys == old(peers.Keys)
      ensures View() == Put(old(View()), p, Express(PeerView(record), wanted))
    {
      hide Members, Sound, LaidOut, Shaped;
      var state := record;
      if wanted && !state.interested {
        state := Send(state, Interested);
      }
      PeersViewPut(peers, p, state);
      peers := peers[p := state];
    }

    method ReplaceBitfield(p: PeerId, raw: seq<byte>)
      requires Valid() && p in peers
      modifies this`peers, picker`histogram
      ensures Valid() && peers.Keys == old(peers.Keys)
      ensures View() == Rebit(Cfg(), old(View()), p, Announced(raw, pm.metadata.numPieces))
    {
      hide Members, Announced, Added, Removed, Sound, LaidOut, Shaped, Express;
      var state := peers[p];
      var bits := RecountBitfield(state.bits, raw);
      var bitfield := new Bitfield.Copy(bits);
      var interested := HasWanted(bitfield);
      AnnouncedInRange(raw, pm.metadata.numPieces);
      StoreState(p, state.(bits := bits), interested);
    }

    method OnBitfieldMessage(p: PeerId, raw: seq<byte>)
      requires Valid() && p in peers
      modifies this`peers, pm, picker
      ensures Valid() && View() == OnBitfield(Cfg(), old(View()), p, raw)
    {
      hide Members, Announced, Rebit, Refill, Sound;
      ReplaceBitfield(p, raw);
      FillRequestPipeline(p);
    }

    /** The peer's bitfield with piece `i`, counted if it is new. */
    method CountHave(bits: Bits, i: nat) returns (now: Bits)
      requires Valid() && i < pm.metadata.numPieces && bits.numBits == pm.metadata.numPieces
      modifies picker`histogram
      ensures Valid() && now.numBits == bits.numBits && Members(now) == Members(bits) + {i}
      ensures View() == old(View()).(hist := if i in Members(bits) then old(picker.histogram) else Added(old(picker.histogram), {i}))
    {
      hide Members, Added, Sound, LaidOut, Shaped;
      var bitfield := new Bitfield.Copy(bits);
      var seen := bitfield.Has(i);
      if !seen {
        bitfield.Set(i, true);
        picker.AddAvailability(i);
      }
      now := bitfield.Value();
    }

    method OnHaveMessage(p: PeerId, i: nat)
      requires Valid() && p in peers
      modifies this`peers, picker`histogram
      ensures Valid() && View() == OnHave(Cfg(), old(View()), p, i)
    {
      hide Members, Added, Sound, LaidOut, Shaped, Express;
      if i >= pm.metadata.numPieces {
        return;
      }
      OnHaveIs(Cfg(), View(), p, i);
      var bits := CountHave(peers[p].bits, i);
      var have := pm.HasPiece(i);
      StoreState(p, peers[p].(bits := bits), !have);
    }

    /** The block leaves the peer's list and reaches the piece manager. */
    method AcceptBlock(p: PeerId, i: nat, begin: uint32, block: seq<byte>) returns (complete: bool)
      requires Valid() && p in peers
      modifies this`peers, pm
      ensures Valid() && peers.Keys == old(peers.Keys)
      ensures complete == Accept(Cfg(), SlotOf(old(View()), p), i, begin, block).1
      ensures View() == WithSlot(old(View()), p, Accept(Cfg(), SlotOf(old(View()), p), i, begin, block).0)
    {
      hide Members, BlockReceived, Without1;
      var out := EraseRequest(peers[p].out, i, begin);
      var state := peers[p].(out := out);
      PeersViewPut(peers, p, state);
      peers := peers[p := state];
      complete := pm.ReceiveBlock(i, begin, block);
    }

    /** Every peer's requests for the piece are cancelled. */
    method CancelPieceRequests(i: nat)
      modifies this`peers
      ensures peers == CancelledAll(old(peers), i)
    {
      var todo := peers.Keys;
      while todo != {}
        invariant todo <= peers.Keys == old(peers).Keys
        invariant forall q | q in peers :: peers[q] == if q in todo then old(peers)[q] else CancelAt(old(peers)[q], i)
      {
        var q :| q in todo;
        var state := CancelRequestsAt(peers[q], i);
        peers := peers[q := state];
        todo := todo - {q};
      }
    }

    method BroadcastHave(i: nat)
      modifies this`peers
      ensures peers == ToldAll(old(peers), i)
    {
      hide ToUint32, Haves;
      var have := Have(ToUint32(i));
      var todo := peers.Keys;
      while todo != {}
        invariant todo <= peers.Keys == old(peers).Keys
        invariant forall q | q in todo :: peers[q] == old(peers)[q]
        invariant forall q | q in peers && q !in todo :: peers[q] == Send(old(peers)[q], have)
      {
        var q :| q in todo;
        peers := peers[q := Send(peers[q], have)];
        todo := todo - {q};
      }
    }

    method AnnouncePiece(i: nat)
      requires Valid()
      modifies this`peers
      ensures Valid() && peers.Keys == old(peers.Keys)
      ensures View() == old(View()).(peers := Announce(old(View()).peers, i))
    {
      hide Members, CancelledAll, ToldAll, Announce, Sound, LaidOut, Shaped;
      ghost var before := peers;
      CancelPieceRequests(i);
      ghost var mid := peers;
      BroadcastHave(i);
      PeersViewAnnounce(before, mid, peers, i);
    }

    /** A validated piece: saved, marked held, cancelled everywhere and announced. */
    method FinishPiece(i: nat)
      requires Valid() && i < pm.metadata.numPieces && Validates(Cfg(), pm.View(), i)
      modifies this`peers, this`completed, pm, pm.bitfield.bytes, disk
      ensures Valid() && peers.Keys == old(peers.Keys)
      ensures View() == Finish(Cfg(), old(View()), i)
    {
      hide Members, Announce, PieceStart, Completed;
      var data := pm.GetPieceData(i);
      var ok := disk.WritePiece(i, data);
      completed := completed + [i];
      pm.PieceCompleted(i);
      AnnouncePiece(i);
    }

    method ConcludePiece(p: PeerId, i: nat)
      requires Valid() && p in peers && i < pm.metadata.numPieces
      modifies this, pm, pm.bitfield.bytes, disk
      ensures Valid() && peers.Keys == old(peers.Keys)
      ensures View() == Conclude(Cfg(), old(View()), p, i)
    {
      hide Members, Announce, Finish, Discard, LaidOut, Shaped;
      var valid := pm.ValidatePiece(i);
      if valid {
        FinishPiece(i);
      } else {
        DiscardPiece(p, i);
      }
      IdlePeer(p, i);
    }

    method IdlePeer(p: PeerId, i: nat)
      requires Valid() && p in peers
      modifies this`peers
      ensures Valid() && peers.Keys == old(peers.Keys)
      ensures View() == Put(old(View()), p, Idle(old(View()).peers[p], i))
    {
      hide Members, Sound, LaidOut, Shaped;
      var state := peers[p];
      if state.active == Some(i) {
        state := state.(active := None);
      }
      PeersViewPut(peers, p, state);
      peers := peers[p := state];
    }

    method DiscardPiece(p: PeerId, i: nat)
      requires Valid()
      modifies this`corrupt, pm
      ensures Valid() && View() == Discard(old(View()), p, i)
    {
      hide Members, Dropped;
      pm.PieceFailed(i);
      corrupt := corrupt + [p];
    }

    /** Pieces held are pieces of the torrent. */
    lemma HeldInRange()
      requires Valid()
      ensures forall i | i in pm.View().have :: i < pm.metadata.numPieces
    {
      hide Members;
      InMembers(pm.bitfield.Value());
    }

    /**
     An index past the last piece is always reported complete, and validating it reads past the end of the
     hash list: false says that the source's behaviour is undefined from there on.
     */
    method OnPieceMessage(p: PeerId, i: nat, begin: uint32, block: seq<byte>) returns (defined: bool)
      requires Valid() && p in peers
      modifies this, pm, pm.bitfield.bytes, picker, disk
      ensures Valid() && (defined <==> i < pm.metadata.numPieces)
      ensures View() == if defined then OnPiece(Cfg(), old(View()), p, i, begin, block)
                        else WithSlot(old(View()), p, Accept(Cfg(), SlotOf(old(View()), p), i, begin, block).0)
    {
      hide Members, Conclude, Refill, Sound, BlockReceived, Without1, LaidOut, Shaped;
      if i >= pm.metadata.numPieces {
        HeldInRange();
        ManagerShaped();
        OutOfRangeCompletes(pm.metadata, pm.View(), i, begin, block);
      }
      var complete := AcceptBlock(p, i, begin, block);
      if complete {
        if i >= pm.metadata.numPieces {
          return false;
        }
        ConcludePiece(p, i);
      }
      FillRequestPipeline(p);
      defined := true;
    }

    lemma ManagerShaped()
      requires Valid()
      ensures Sound(pm.metadata) && Shaped(pm.metadata, pm.View())
    {
      hide Members;
    }

    method OnChokeMessage(p: PeerId)
      requires Valid() && p in peers
      modifies this`peers, pm
      ensures Valid() && View() == OnChoke(old(View()), p)
    {
      hide Members, Release;
      var state := peers[p];
      ReturnRequests(state.out);
      state := state.(choking := true, out := [], active := None);
      PeersViewPut(peers, p, state);
      peers := peers[p := state];
    }

    method OnUnchokeMessage(p: PeerId)
      requires Valid() && p in peers
      modifies this`peers, pm, picker
      ensures Valid() && View() == OnUnchoke(Cfg(), old(View()), p)
    {
      hide Members, Refill, Sound;
      var state := peers[p].(choking := false);
      PeersViewPut(peers, p, state);
      peers := peers[p := state];
      FillRequestPipeline(p);
    }

    /**
     The connection's choke flag is updated before the coordinator sees the message. False stands for the
     undefined behaviour that a piece message past the last piece leads to.
     */
    method HandlePeerMessage(p: PeerId, msg: Message) returns (defined: bool)
      requires Valid()
      modifies this, pm, pm.bitfield.bytes, picker, disk
      ensures Valid()
      ensures defined <==> !(p in old(peers) && msg.Piece? && msg.index >= pm.metadata.numPieces)
      ensures defined ==> View() == if p in old(peers) then Handle(Cfg(), old(View()), p, msg) else old(View())
      ensures !defined ==>
                View() == WithSlot(old(View()), p, Accept(Cfg(), SlotOf(old(View()), p), msg.index, msg.begin, msg.block).0)
    {
      hide Members, OnChoke, OnUnchoke, OnBitfield, OnHave, OnPiece, Accept, WithSlot, Sound, LaidOut, Shaped;
      defined := true;
      if p !in peers {
        return;
      }
      match msg
      case Choke => OnChokeMessage(p);
      case Unchoke => OnUnchokeMessage(p);
      case BitfieldMsg(raw) => OnBitfieldMessage(p, raw);
      case Have(i) => OnHaveMessage(p, i);
      case Piece(i, begin, block) => defined := OnPieceMessage(p, i, begin, block);
      case _ =>
    }
  }

  /** The check main.cpp makes of every piece once the download is complete. */
  method ValidateFiles(disk: DiskIOManager) returns (allOk: bool)
    requires disk.Valid()
    ensures allOk <==> forall i: nat | i < disk.metadata.numPieces :: Verifies(disk.metadata, disk.sha1, disk.Content(), i)
  {
    hide PieceStart, PieceLength, Sound, LaidOut;
    PieceTotals(disk.metadata);
    allOk := true;
    for i := 0 to disk.metadata.numPieces
      invariant allOk <==> forall j: nat | j < i :: Verifies(disk.metadata, disk.sha1, disk.Content(), j)
    {
      var ok := disk.VerifyPiece(i);
      assert ok <==> Verifies(disk.metadata, disk.sha1, disk.Content(), i);
      if !ok {
        allOk := false;
      }
    }
  }

  lemma PieceTotals(m: TorrentMetadata)
    requires Sound(m)
    ensures 0 <= m.numPieces == |m.pieceHashes|
  {
  }

  ghost predicate Verifies(m: TorrentMetadata, sha1: seq<byte> -> Digest, content: seq<byte>, i: nat) {
    && i < m.numPieces == |m.pieceHashes|
    && 0 <= PieceStart(m, i) && PieceStart(m, i) + PieceLength(m, i) <= |content|
    && sha1(PieceSlice(content, m, i)) == m.pieceHashes[i]
  }

  /** `find_if` and `erase`: the first matching request goes. */
  method EraseRequest(out: seq<Req>, piece: nat, begin: uint32) returns (rest: seq<Req>)
    ensures rest == Without1(out, piece, begin)
  {
    var k := 0;
    while k < |out| && !(out[k].piece == piece && out[k].begin == begin)
      invariant k <= |out|
      invariant Without1(out, piece, begin) == out[..k] + Without1(out[k..], piece, begin)
    {
      assert out[k..][1..] == out[k + 1..];
      k := k + 1;
    }
    if k == |out| {
      return out;
    }
    assert out[k..][1..] == out[k + 1..];
    return out[..k] + out[k + 1..];
  }

  /** The record once the first `n` requests have been looked at. */
  ghost function Cancelling(before: Peer<Bits>, i: nat, n: nat): Peer<Bits>
    requires n <= |before.out|
  {
    before.(out := WithoutPiece(before.out[..n], i) + before.out[n..], sent := before.sent + Cancels(before.out[..n], i))
  }

  lemma OneMoreLookedAt(out: seq<Req>, i: nat, n: nat)
    requires n < |out|
    ensures WithoutPiece(out[..n + 1], i) == WithoutPiece(out[..n], i) + if out[n].piece == i then [] else [out[n]]
    ensures Cancels(out[..n + 1], i)
         == Cancels(out[..n], i) + if out[n].piece == i then [Cancel(out[n].piece, out[n].begin, out[n].length)] else []
  {
    assert out[..n + 1][..n] == out[..n];
  }

  lemma SkipOne(kept: seq<Req>, out: seq<Req>, n: nat)
    requires n < |out|
    ensures (kept + out[n..])[|kept|] == out[n]
    ensures (kept + out[n..])[..|kept|] + (kept + out[n..])[|kept| + 1..] == kept + out[n + 1..]
    ensures kept + out[n..] == kept + [out[n]] + out[n + 1..]
  {
  }

  lemma CancelRound(before: Peer<Bits>, i: nat, n: nat)
    requires n < |before.out|
    ensures
      var state, it, req := Cancelling(before, i, n), |WithoutPiece(before.out[..n], i)|, before.out[n];
      && it < |state.out| && state.out[it] == req
      && (if req.piece == i then
            && Cancelling(before, i, n + 1)
               == state.(sent := state.sent + [Cancel(req.piece, req.begin, req.length)], out := state.out[..it] + state.out[it + 1..])
            && |WithoutPiece(before.out[..n + 1], i)| == it
          else
            Cancelling(before, i, n + 1) == state && |WithoutPiece(before.out[..n + 1], i)| == it + 1)
  {
    hide WithoutPiece, Cancels;
    OneMoreLookedAt(before.out, i, n);
    SkipOne(WithoutPiece(before.out[..n], i), before.out, n);
  }

  lemma CancelEnds(before: Peer<Bits>, i: nat)
    ensures Cancelling(before, i, 0) == before && |WithoutPiece(before.out[..0], i)| == 0
    ensures var all := Cancelling(before, i, |before.out|);
            CancelAt(before, i) == if before.active == Some(i) then all.(active := None) else all
    ensures |Cancelling(before, i, |before.out|).out| == |WithoutPiece(before.out[..|before.out|], i)|
  {
    assert before.out[..|before.out|] == before.out;
  }

  /** The iterator loop of `cancel_piece_requests` at one peer. */
  method CancelRequestsAt(before: Peer<Bits>, i: nat) returns (state: Peer<Bits>)
    ensures state == CancelAt(before, i)
  {
    hide WithoutPiece, Cancels, Cancelling, CancelAt;
    CancelEnds(before, i);
    state := before;
    var it := 0;
    ghost var n := 0;
    while it < |state.out|
      invariant n <= |before.out| && it == |WithoutPiece(before.out[..n], i)|
      invariant state == Cancelling(before, i, n)
      decreases |before.out| - n
    {
      if n < |before.out| {
        CancelRound(before, i, n);
      }
      var req := state.out[it];
      if req.piece == i {
        state := state.(sent := state.sent + [Cancel(req.piece, req.begin, req.length)], out := state.out[..it] + state.out[it + 1..]);
      } else {
        it := it + 1;
      }
      n := n + 1;
    }
    if n < |before.out| {
      CancelRound(before, i, n);
    }
    CancelKeepsActive(before, i, n);
    if state.active == Some(i) {
      state := state.(active := None);
    }
  }

  lemma CancelKeepsActive(before: Peer<Bits>, i: nat, n: nat)
    requires n <= |before.out|
    ensures Cancelling(before, i, n).active == before.active
  {
  }

  lemma AnnouncedView(r: Peer<Bits>, i: nat)
    ensures PeerView(Send(CancelAt(r, i), Have(ToUint32(i)))) == Send(CancelAt(PeerView(r), i), Have(ToUint32(i)))
    ensures Send(CancelAt(r, i), Have(ToUint32(i))).bits == r.bits
  {
    hide Members, WithoutPiece, Cancels, Haves, ToUint32;
  }

  lemma PeersViewAnnounce(before: map<PeerId, Peer<Bits>>, mid: map<PeerId, Peer<Bits>>, after: map<PeerId, Peer<Bits>>, i: nat)
    requires mid == CancelledAll(before, i) && after == ToldAll(mid, i)
    ensures PeersView(after) == Announce(PeersView(before), i)
    ensures after.Keys == before.Keys && forall q | q in before :: after[q].bits == before[q].bits
  {
    hide PeerView, Send, CancelAt, Haves, ToUint32;
    forall q | q in before
      ensures PeersView(after)[q] == Announce(PeersView(before), i)[q] && after[q].bits == before[q].bits
    {
      AnnouncedView(before[q], i);
    }
  }

  lemma AskDraws(c: Config, s: Slot, t: Slot, i: nat, draws: nat)
    requires t.mgr == s.mgr && t.peer == s.peer
    ensures Ask(c, t, i, draws) == Ask(c, s, i, draws)
  {
    hide NextBlock;
  }

  lemma NoDraw(c: Config, hist: seq<uint32>, s: Slot)
    requires Choose(c, hist, s).0.None?
    ensures Choose(c, hist, s).1 == s.draws
  {
  }

  lemma SlotPutBack(e: Engine, p: PeerId)
    requires p in e.peers
    ensures WithSlot(e, p, SlotOf(e, p)) == e && SlotOf(e, p).peer == e.peers[p]
  {
    assert e.peers[p := e.peers[p]] == e.peers;
  }

  lemma WithSlotAgain(e: Engine, p: PeerId, s: Slot)
    ensures var f := WithSlot(e, p, s);
            && f.hist == e.hist && p in f.peers && SlotOf(f, p) == s && f.peers[p] == s.peer
            && forall t: Slot :: WithSlot(f, p, t) == WithSlot(e, p, t)
  {
    forall t: Slot ensures WithSlot(WithSlot(e, p, s), p, t) == WithSlot(e, p, t) {
      assert e.peers[p := s.peer][p := t.peer] == e.peers[p := t.peer];
    }
  }

  lemma FillGoesOn(c: Config, hist: seq<uint32>, s: Slot)
    requires Sized(c, hist) && More(c, hist, s)
    ensures Fill(c, hist, Round(c, hist, s)) == Fill(c, hist, s)
  {
    hide More, Round, Sized;
  }

  lemma FillEnds(c: Config, hist: seq<uint32>, s: Slot)
    requires Sized(c, hist)
    ensures |s.peer.out| >= PIPELINE || !More(c, hist, s) ==> Fill(c, hist, s) == s
  {
  }
}
