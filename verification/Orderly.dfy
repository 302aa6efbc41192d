/**
 Which blocks a fill of the request pipeline asks for, in which order, and where it draws at random: told
 from the blocks nobody was asked for and the peer's active piece alone.
 */
module Orderly {
  import opened Bytes
  import opened Geometry
  import opened Wire
  import opened Pieces
  import opened Picker
  import opened Swarm
  import opened Ledger
  import opened Pipeline

  /* ---- blocks nobody was asked for ---- */

  /** A block of a missing piece that nobody was asked for: in an untouched piece, or Pending. */
  ghost predicate Open(m: TorrentMetadata, s: Mgr, x: Key) {
    && x.piece < m.numPieces && x.piece !in s.have
    && x.begin % BLOCK_SIZE == 0 && x.begin < PieceLength(m, x.piece)
    && (x.piece in s.progress ==> StateOf(s, x) == Some(Pending))
  }

  ghost function OpenBlocks(m: TorrentMetadata, s: Mgr): iset<Key> {
    iset x: Key | Open(m, s, x)
  }

  ghost predicate HasOpen(blocks: iset<Key>, i: nat) {
    exists begin: uint32 :: Key(i, begin) in blocks
  }

  /** The pieces of the torrent with no open block. */
  ghost function Shut(m: TorrentMetadata, blocks: iset<Key>): set<nat> {
    set i: nat | i < m.numPieces && !HasOpen(blocks, i)
  }

  /* ---- an orderly fill ---- */

  /**
   The piece drawn from those on offer: pieces the peer has with an open block and, once four pieces are
   shut, with no rarer one beside them. Draw `k` takes the piece with `rng(k)`, modulo their number, below it.
   */
  ghost predicate IsDrawn(c: Config, hist: seq<uint32>, bits: set<nat>, blocks: iset<Key>, draws: nat, i: nat) {
    var offer := OnOffer(hist, bits, Shut(c.meta, blocks));
    i in offer && |Below(offer, i)| == c.rng(draws) % |offer|
  }

  /** The active piece as long as it has an open block, else a drawn one. */
  ghost predicate TurnsTo(c: Config, hist: seq<uint32>, bits: set<nat>, blocks: iset<Key>, active: Option<nat>, draws: nat, i: nat) {
    if active.Some? && HasOpen(blocks, active.value) then i == active.value else IsDrawn(c, hist, bits, blocks, draws, i)
  }

  /** Its piece's first open block. */
  ghost predicate IsFirst(blocks: iset<Key>, x: Key) {
    x in blocks && forall begin: uint32 | Key(x.piece, begin) in blocks :: x.begin <= begin
  }

  /** One more draw at a change of piece. */
  ghost function DrawsAfter(active: Option<nat>, draws: nat, r: Req): nat {
    if active == Some(r.piece as nat) then draws else draws + 1
  }

  /** Each new request is for the first open block of the piece in turn, which then stays in turn. */
  ghost predicate InOrder(c: Config, hist: seq<uint32>, bits: set<nat>, blocks: iset<Key>, active: Option<nat>, draws: nat, added: seq<Req>)
    decreases |added|
  {
    added == [] ||
    (&& Asks(c.meta, added[0]) && IsFirst(blocks, KeyOf(added[0]))
     && TurnsTo(c, hist, bits, blocks, active, draws, added[0].piece)
     && InOrder(c, hist, bits, blocks - iset{KeyOf(added[0])}, Some(added[0].piece as nat), DrawsAfter(active, draws, added[0]),
                added[1..]))
  }

  /** How often the piece changes along the requests. */
  ghost function Turns(active: Option<nat>, added: seq<Req>): nat
    decreases |added|
  {
    if added == [] then 0
    else (if active == Some(added[0].piece as nat) then 0 else 1) + Turns(Some(added[0].piece as nat), added[1..])
  }

  ghost function Asked(added: seq<Req>): seq<Message> {
    seq(|added|, k requires 0 <= k < |added| => Request(added[k].piece, added[k].begin, added[k].length))
  }

  ghost function KeySet(added: seq<Req>): iset<Key> {
    iset x: Key | x in Keys(added)
  }

  /**
   Starting with these open blocks, `peer`'s pipeline was filled: exactly the requests `added` were queued
   and sent, in order; one draw was made at each change of piece; and the last piece asked for stays active
   unless the peer ran out of open blocks.
   */
  ghost predicate FilledFrom(c: Config, hist: seq<uint32>, peer: Member, blocks: iset<Key>, draws: nat, t: Slot, added: seq<Req>) {
    && InOrder(c, hist, peer.bits, blocks, peer.active, draws, added)
    && OpenBlocks(c.meta, t.mgr) == blocks - KeySet(added)
    && t.draws == draws + Turns(peer.active, added)
    && t.peer == peer.(out := peer.out + added, sent := peer.sent + Asked(added), active := t.peer.active)
    && t.peer.active == (if |t.peer.out| < PIPELINE then None
                         else if added == [] then peer.active
                         else Some(added[|added| - 1].piece as nat))
  }

  ghost predicate FilledWith(c: Config, hist: seq<uint32>, s: Slot, t: Slot, added: seq<Req>) {
    FilledFrom(c, hist, s.peer, OpenBlocks(c.meta, s.mgr), s.draws, t, added)
  }

  /* ---- open blocks and tables ---- */

  lemma TableHas(m: TorrentMetadata, i: nat, ps: PieceState, begin: uint32)
    requires WellShaped(m, i, ps)
    ensures StateIn(ps, begin).Some? <==> begin % BLOCK_SIZE == 0 && begin < PieceLength(m, i)
    ensures StateIn(ps, begin).Some? ==>
              begin / BLOCK_SIZE < |ps.blocks| && StateIn(ps, begin).value == ps.blocks[begin / BLOCK_SIZE].state
  {
    var k := FindBegin(ps.blocks, begin);
    if k < |ps.blocks| {
      TableBegins(m, i, ps, k);
    }
    if begin % BLOCK_SIZE == 0 && begin < PieceLength(m, i) {
      TableBegins(m, i, ps, begin / BLOCK_SIZE);
      FoundIs(m, i, ps, begin / BLOCK_SIZE);
    }
  }

  /** Setting a piece up opens and shuts nothing. */
  lemma InitOpens(m: TorrentMetadata, s: Mgr, i: nat)
    requires Sound(m) && Shaped(m, s) && i < m.numPieces
    ensures OpenBlocks(m, Init(m, s, i)) == OpenBlocks(m, s)
  {
    hide Init, StateIn, FreshPiece, PieceLength, Shaped;
    InitHas(m, s, i);
    InitProgress(m, s, i);
    forall x: Key ensures Open(m, Init(m, s, i), x) <==> Open(m, s, x) {
      InitEffect(m, s, i, x);
      TableHas(m, i, FreshPiece(m, i), x.begin);
    }
  }

  lemma InitProgress(m: TorrentMetadata, s: Mgr, i: nat)
    ensures Init(m, s, i).progress.Keys == s.progress.Keys + {i}
  {
  }

  /** In a piece set up, the first Pending entry is the first open block. */
  lemma FirstPendingOpens(m: TorrentMetadata, s: Mgr, i: nat)
    requires Shaped(m, s) && i in s.progress && i < m.numPieces && i !in s.have
    ensures var ps := s.progress[i];
            var k := FirstPending(ps.blocks);
            && (k < |ps.blocks| ==> IsFirst(OpenBlocks(m, s), Key(i, ps.blocks[k].begin)))
            && (k == |ps.blocks| ==> !HasOpen(OpenBlocks(m, s), i))
  {
    hide FindBegin, PieceLength, WellShaped;
    var ps := s.progress[i];
    var k := FirstPending(ps.blocks);
    if k < |ps.blocks| {
      TableBegins(m, i, ps, k);
      TableHas(m, i, ps, ps.blocks[k].begin);
      PieceLengthOf(m, i, ps);
    }
    forall begin: uint32 | Key(i, begin) in OpenBlocks(m, s)
      ensures k < |ps.blocks| && ps.blocks[k].begin <= begin
    {
      TableHas(m, i, ps, begin);
    }
  }

  lemma PieceLengthOf(m: TorrentMetadata, i: nat, ps: PieceState)
    requires WellShaped(m, i, ps)
    ensures ps.length == PieceLength(m, i)
  {
  }

  lemma PendingIsOpen(m: TorrentMetadata, s: Mgr, i: nat)
    requires Sound(m) && Shaped(m, s) && i < m.numPieces
    ensures HasPending(s, i) <==> HasOpen(OpenBlocks(m, s), i)
  {
    hide Sound, PieceLength;
    if i !in s.have {
      if i in s.progress {
        FirstPendingOpens(m, s, i);
      } else {
        PiecesPartition(m, i);
        assert Key(i, 0) in OpenBlocks(m, s);
      }
    }
  }

  lemma ExcludedIsShut(c: Config, s: Mgr)
    requires Sound(c.meta) && Tables(c.meta, s)
    ensures Excluded(c.meta, s) == Shut(c.meta, OpenBlocks(c.meta, s))
  {
    hide HasPending, OpenBlocks, HasOpen, Sound, Shaped;
    forall i: nat | i < c.meta.numPieces ensures HasPending(s, i) <==> HasOpen(OpenBlocks(c.meta, s), i) {
      PendingIsOpen(c.meta, s, i);
    }
    forall i: nat | i in s.have ensures !HasPending(s, i) {
      HeldNotPending(s, i);
    }
  }

  lemma HeldNotPending(s: Mgr, i: nat)
    requires i in s.have
    ensures !HasPending(s, i)
  {
  }

  /** The next block of a piece is its first open one, which is open no longer; none is given only if none is open. */
  lemma NextIsFirstOpen(m: TorrentMetadata, s: Mgr, i: nat)
    requires Sound(m) && Tables(m, s) && i < m.numPieces && i !in s.have
    ensures
      var (t, b) := NextBlock(m, s, i);
      && (b.Some? <==> HasOpen(OpenBlocks(m, s), i))
      && (b.None? ==> t == s)
      && (b.Some? ==>
            var x := Key(i, b.value.begin);
            b.value.piece == i && IsFirst(OpenBlocks(m, s), x) && OpenBlocks(m, t) == OpenBlocks(m, s) - iset{x})
  {
    hide Init, Sound, PieceLength, StateOf, FindBegin, Shaped;
    TablesShaped(m, s);
    InitKeepsShape(m, s, i);
    InitOpens(m, s, i);
    InitHas(m, s, i);
    FirstPendingOpens(m, Init(m, s, i), i);
    var (t, b) := NextBlock(m, s, i);
    if b.None? {
      NoBlockNoChange(m, s, i);
    } else {
      var x := Key(i, b.value.begin);
      NextBlockEffect(m, s, i, x);
      assert t.progress.Keys == Init(m, s, i).progress.Keys;
      forall y: Key ensures Open(m, t, y) <==> Open(m, Init(m, s, i), y) && y != x {
        NextBlockEffect(m, s, i, y);
      }
    }
  }

  lemma TablesShaped(m: TorrentMetadata, s: Mgr)
    requires Tables(m, s)
    ensures Shaped(m, s)
  {
  }

  /* ---- one round ---- */

  /** The piece asked for is the active one or the one drawn. */
  lemma ChosenTurn(c: Config, hist: seq<uint32>, s: Slot)
    requires Sized(c, hist) && SlotSound(c, s) && Choose(c, hist, s).0.Some?
    ensures var (i, draws) := Choose(c, hist, s);
            && (s.peer.active.Some? ==> i == s.peer.active && draws == s.draws)
            && (s.peer.active.None? ==>
                  IsDrawn(c, hist, s.peer.bits, OpenBlocks(c.meta, s.mgr), s.draws, i.value) && draws == s.draws + 1)
  {
    hide Pick, Tables, Asks, Sound, OpenBlocks, HasOpen, Excluded, Below, Shut, OnOffer;
    if s.peer.active.None? {
      var ours, draw := Excluded(c.meta, s.mgr), c.rng(s.draws);
      SizedIsSound(c, hist);
      ExcludedIsShut(c, s.mgr);
      SomethingOnOffer(hist, s.peer.bits, ours, draw);
      PickIsDrawn(hist, s.peer.bits, ours, draw);
    }
  }

  lemma SomethingOnOffer(hist: seq<uint32>, bits: set<nat>, ours: set<nat>, draw: nat)
    requires Pick(hist, bits, ours, draw).Some?
    ensures OnOffer(hist, bits, ours) != {}
  {
    hide Pick;
    PickIffCandidate(hist, bits, ours, draw);
    var i := Pick(hist, bits, ours, draw).value;
    if |ours| >= 4 {
      forall other: nat | other < |hist| && other in bits && other !in ours ensures hist[i] <= hist[other] {
        PickIsRarest(hist, bits, ours, draw, other);
      }
    }
    assert i in OnOffer(hist, bits, ours);
  }

  lemma SizedIsSound(c: Config, hist: seq<uint32>)
    requires Sized(c, hist)
    ensures Sound(c.meta) && |hist| == c.meta.numPieces
  {
  }

  /** An exhausted active piece is given up. */
  ghost predicate GivesUp(m: TorrentMetadata, s: Slot, t: Slot) {
    && s.peer.active.Some? && !HasOpen(OpenBlocks(m, s.mgr), s.peer.active.value)
    && t == s.(peer := s.peer.(active := None))
  }

  /** The first open block of the piece in turn is asked for. */
  ghost predicate AsksFor(c: Config, hist: seq<uint32>, s: Slot, t: Slot, r: Req) {
    var blocks := OpenBlocks(c.meta, s.mgr);
    && Asks(c.meta, r) && IsFirst(blocks, KeyOf(r)) && TurnsTo(c, hist, s.peer.bits, blocks, s.peer.active, s.draws, r.piece)
    && OpenBlocks(c.meta, t.mgr) == blocks - iset{KeyOf(r)}
    && t.draws == DrawsAfter(s.peer.active, s.draws, r)
    && t.peer == s.peer.(out := s.peer.out + [r], sent := s.peer.sent + [Request(r.piece, r.begin, r.length)],
                         active := Some(r.piece as nat))
  }

  lemma RoundInOrder(c: Config, hist: seq<uint32>, s: Slot)
    requires Sized(c, hist) && SlotSound(c, s) && !s.peer.choking && More(c, hist, s)
    ensures
      var t := Round(c, hist, s);
      GivesUp(c.meta, s, t) || (t.peer.out != [] && AsksFor(c, hist, s, t, t.peer.out[|t.peer.out| - 1]))
  {
    hide Choose, NextBlock, Asks, OpenBlocks, Sound, Tables, IsDrawn, HasOpen, IsFirst;
    SizedIsSound(c, hist);
    ChosenIsMissing(c, hist, s);
    ChosenTurn(c, hist, s);
    NextIsFirstOpen(c.meta, s.mgr, Choose(c, hist, s).0.value);
    var i := Choose(c, hist, s).0.value;
    var b := NextBlock(c.meta, s.mgr, i).1;
    if b.None? {
      if s.peer.active.None? {
        DrawnIsOpen(c, hist, s.peer.bits, OpenBlocks(c.meta, s.mgr), s.draws, i);
        assert false;
      }
    } else {
      SoundIsShaped(c, s);
      TakenAsks(c.meta, s.mgr, i);
      assert KeyOf(RequestFor(b.value)) == Key(i, b.value.begin);
    }
  }

  lemma DrawnIsOpen(c: Config, hist: seq<uint32>, bits: set<nat>, blocks: iset<Key>, draws: nat, i: nat)
    requires |hist| == c.meta.numPieces && IsDrawn(c, hist, bits, blocks, draws, i)
    ensures HasOpen(blocks, i)
  {
  }

  /* ---- a whole fill ---- */

  /** When no request is added and room is left, there is no active piece. */
  lemma StoppedIsIdle(c: Config, hist: seq<uint32>, s: Slot)
    requires !More(c, hist, s) && |s.peer.out| < PIPELINE
    ensures s.peer.active == None
  {
  }

  lemma NothingAdded(c: Config, hist: seq<uint32>, s: Slot)
    requires (|s.peer.out| < PIPELINE ==> s.peer.active == None)
    ensures FilledWith(c, hist, s, s, [])
  {
    hide OpenBlocks;
    assert s.peer.out + [] == s.peer.out && s.peer.sent + Asked([]) == s.peer.sent;
    assert KeySet([]) == iset{};
  }

  /** After giving up an exhausted piece the fill goes on as it would have with that piece active. */
  lemma GivenUpFirst(c: Config, hist: seq<uint32>, s: Slot, t: Slot, u: Slot, added: seq<Req>)
    requires GivesUp(c.meta, s, t) && FilledWith(c, hist, t, u, added) && |s.peer.out| < PIPELINE
    ensures FilledWith(c, hist, s, u, added)
  {
    hide OpenBlocks, Asks, IsDrawn;
    if added != [] {
      var x := KeyOf(added[0]);
      assert Key(x.piece, x.begin) in OpenBlocks(c.meta, s.mgr);
    } else {
      assert s.peer.out + [] == s.peer.out;
    }
  }

  lemma AskedFirst(c: Config, hist: seq<uint32>, s: Slot, t: Slot, u: Slot, r: Req, added: seq<Req>)
    requires AsksFor(c, hist, s, t, r) && FilledWith(c, hist, t, u, added)
    ensures FilledWith(c, hist, s, u, [r] + added)
  {
    hide OpenBlocks, Asks, TurnsTo, IsFirst;
    var all := [r] + added;
    assert all[0] == r && all[1..] == added;
    assert s.peer.out + all == (s.peer.out + [r]) + added;
    assert Asked(all) == [Request(r.piece, r.begin, r.length)] + Asked(added);
    assert s.peer.sent + Asked(all) == (s.peer.sent + [Request(r.piece, r.begin, r.length)]) + Asked(added);
    KeySetFirst(r, added);
    assert added != [] ==> all[|all| - 1] == added[|added| - 1];
  }

  /** A fill asks for blocks in order, piece by piece, and draws exactly at each change of piece. */
  lemma {:induction false} FillInOrder(c: Config, hist: seq<uint32>, s: Slot)
    requires Sized(c, hist) && SlotSound(c, s) && !s.peer.choking
    ensures var t := Fill(c, hist, s);
            s.peer.out <= t.peer.out && FilledWith(c, hist, s, t, t.peer.out[|s.peer.out|..])
    decreases PIPELINE - |s.peer.out|, s.peer.active.Some?
  {
    hide More, Round, SlotSound, FilledWith, AsksFor, GivesUp, Sound;
    SizedIsSound(c, hist);
    if More(c, hist, s) {
      var t, u := Round(c, hist, s), Fill(c, hist, s);
      RoundSound(c, hist, s);
      MoreRoom(c, hist, s);
      RoundProgresses(c, hist, s);
      FillInOrder(c, hist, t);
      RoundInOrder(c, hist, s);
      var added := u.peer.out[|t.peer.out|..];
      if GivesUp(c.meta, s, t) {
        GivenUpFirst(c, hist, s, t, u, added);
        GivenUpOut(c.meta, s, t);
      } else {
        var r := t.peer.out[|t.peer.out| - 1];
        AskedFirst(c, hist, s, t, u, r, added);
        AskedOut(c, hist, s, t, r);
        assert u.peer.out[|s.peer.out|..] == [r] + added;
      }
    } else {
      if |s.peer.out| < PIPELINE {
        StoppedIsIdle(c, hist, s);
      }
      NothingAdded(c, hist, s);
      assert s.peer.out[|s.peer.out|..] == [];
    }
  }

  lemma GivenUpOut(m: TorrentMetadata, s: Slot, t: Slot)
    requires GivesUp(m, s, t)
    ensures t.peer.out == s.peer.out
  {
  }

  lemma AskedOut(c: Config, hist: seq<uint32>, s: Slot, t: Slot, r: Req)
    requires AsksFor(c, hist, s, t, r)
    ensures t.peer.out == s.peer.out + [r]
  {
  }

  /* ---- request by request ---- */

  /** The piece in turn before request `k`. */
  ghost function Before(active: Option<nat>, added: seq<Req>, k: nat): Option<nat>
    requires k <= |added|
  {
    if k == 0 then active else Some(added[k - 1].piece as nat)
  }

  /**
   Request `k` of an orderly fill is for the same piece as the one before it, unless that piece has no
   open block left by then; and it is that piece's first block still open.
   */
  lemma {:induction false} RequestAt(c: Config, hist: seq<uint32>, bits: set<nat>, blocks: iset<Key>, active: Option<nat>, draws: nat,
                                     added: seq<Req>, k: nat)
    requires InOrder(c, hist, bits, blocks, active, draws, added) && k < |added|
    ensures var left := blocks - KeySet(added[..k]);
            && IsFirst(left, KeyOf(added[k])) && Asks(c.meta, added[k])
            && TurnsTo(c, hist, bits, left, Before(active, added, k), draws + Turns(active, added[..k]), added[k].piece)
    decreases k
  {
    hide TurnsTo, IsFirst, Asks;
    if k == 0 {
      assert blocks - KeySet(added[..0]) == blocks;
    } else {
      var r, rest := added[0], added[1..];
      RequestAt(c, hist, bits, blocks - iset{KeyOf(r)}, Some(r.piece as nat), DrawsAfter(active, draws, r), rest, k - 1);
      assert added[..k] == [r] + rest[..k - 1] && added[..k][1..] == rest[..k - 1];
      KeySetFirst(r, rest[..k - 1]);
      assert blocks - iset{KeyOf(r)} - KeySet(rest[..k - 1]) == blocks - KeySet(added[..k]);
      assert Turns(active, added[..k]) == (if active == Some(r.piece as nat) then 0 else 1) + Turns(Some(r.piece as nat), rest[..k - 1]);
      assert Before(active, added, k) == Before(Some(r.piece as nat), rest, k - 1);
    }
  }

  lemma KeySetFirst(r: Req, rest: seq<Req>)
    ensures KeySet([r] + rest) == iset{KeyOf(r)} + KeySet(rest)
  {
    assert forall q :: q in [r] + rest <==> q == r || q in rest;
  }
}
