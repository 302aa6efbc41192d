/**
 The request pipeline of one peer (`fill_request_pipeline`): what each of its rounds keeps, and so
 what a whole fill keeps, whatever the other peers hold.
 */
module Pipeline {
  import opened Bytes
  import opened Geometry
  import opened Pieces
  import opened Picker
  import opened Swarm
  import opened Ledger
  import opened Receipts

  /** The request is for one exact block of the torrent. */
  ghost predicate Asks(m: TorrentMetadata, r: Req) {
    && r.piece < m.numPieces
    && r.begin % BLOCK_SIZE == 0 && r.begin < PieceLength(m, r.piece)
    && r.length == Min(BLOCK_SIZE, PieceLength(m, r.piece) - r.begin)
  }

  /**
   At most five requests, each for an exact block of a missing piece; an active piece is missing; a
   choking peer has neither.
   */
  ghost predicate Within(m: TorrentMetadata, have: set<nat>, peer: Member) {
    && |peer.out| <= PIPELINE
    && (forall i | i in peer.bits :: i < m.numPieces)
    && (forall r | r in peer.out :: Asks(m, r) && r.piece as nat !in have)
    && (peer.active.Some? ==> peer.active.value < m.numPieces && peer.active.value !in have)
    && (peer.choking ==> peer.out == [] && peer.active == None)
  }

  /** Pieces held are in range, and pieces in progress are in range, well shaped and not held. */
  ghost predicate Tables(m: TorrentMetadata, s: Mgr) {
    && Shaped(m, s)
    && (forall i | i in s.have :: i < m.numPieces)
    && forall i | i in s.progress :: i < m.numPieces && i !in s.have
  }

  ghost predicate SlotSound(c: Config, s: Slot) {
    Tables(c.meta, s.mgr) && Within(c.meta, s.mgr.have, s.peer)
  }

  /* ---- one round ---- */

  /** The piece asked for is one of the torrent that we lack. */
  lemma ChosenIsMissing(c: Config, hist: seq<uint32>, s: Slot)
    requires Sized(c, hist) && SlotSound(c, s) && Choose(c, hist, s).0.Some?
    ensures var i := Choose(c, hist, s).0.value; i < c.meta.numPieces && i !in s.mgr.have
  {
    hide Pick, Tables, Asks, Sound;
    if s.peer.active.None? {
      PickIffCandidate(hist, s.peer.bits, Excluded(c.meta, s.mgr), c.rng(s.draws));
    }
  }

  lemma TakenAsks(m: TorrentMetadata, s: Mgr, i: nat)
    requires Sound(m) && Shaped(m, s) && i < m.numPieces && NextBlock(m, s, i).1.Some?
    ensures Asks(m, RequestFor(NextBlock(m, s, i).1.value))
  {
    hide Init, FreshPiece;
    InitKeepsShape(m, s, i);
    var ps := Init(m, s, i).progress[i];
    EntryAsks(m, i, ps, FirstPending(ps.blocks));
  }

  lemma EntryPiece(m: TorrentMetadata, i: nat, ps: PieceState, k: nat)
    requires Sound(m) && i < m.numPieces && WellShaped(m, i, ps) && k < |ps.blocks|
    ensures ps.blocks[k].piece == i && ps.length == PieceLength(m, i)
  {
    hide PieceLength, PrefixOffsets, SumLengths;
  }

  lemma EntryAsks(m: TorrentMetadata, i: nat, ps: PieceState, k: nat)
    requires Sound(m) && i < m.numPieces && WellShaped(m, i, ps) && k < |ps.blocks|
    ensures Asks(m, RequestFor(ps.blocks[k]))
  {
    hide Sound, WellShaped, PieceLength, BlockCount;
    TableBegins(m, i, ps, k);
    EntryPiece(m, i, ps, k);
  }

  lemma NextBlockTables(m: TorrentMetadata, s: Mgr, i: nat)
    requires Tables(m, s) && i < m.numPieces
    ensures Tables(m, NextBlock(m, s, i).0) && NextBlock(m, s, i).0.have == s.have
  {
    hide Shaped, FreshPiece, SetState;
    OperationsKeepShape(m, s, i, 0, []);
  }

  lemma AskSound(c: Config, s: Slot, i: nat, draws: nat)
    requires Sound(c.meta) && SlotSound(c, s) && i < c.meta.numPieces && i !in s.mgr.have
    requires !s.peer.choking && |s.peer.out| < PIPELINE
    ensures SlotSound(c, Ask(c, s, i, draws)) && !Ask(c, s, i, draws).peer.choking
  {
    hide NextBlock, Asks, Sound, Shaped;
    NextBlockTables(c.meta, s.mgr, i);
    if NextBlock(c.meta, s.mgr, i).1.Some? {
      TakenAsks(c.meta, s.mgr, i);
      NextBlockEffect(c.meta, s.mgr, i, Key(i, 0));
    }
  }

  /** What a round of the loop cannot touch. */
  ghost predicate SameSide(s: Slot, t: Slot) {
    && t.mgr.have == s.mgr.have && Undelivered(s.mgr, t.mgr)
    && t.peer.bits == s.peer.bits && t.peer.choking == s.peer.choking && t.peer.interested == s.peer.interested
    && Haves(t.peer.sent) == Haves(s.peer.sent)
  }

  lemma RoundSound(c: Config, hist: seq<uint32>, s: Slot)
    requires Sized(c, hist) && SlotSound(c, s) && !s.peer.choking && More(c, hist, s)
    ensures SlotSound(c, Round(c, hist, s)) && SameSide(s, Round(c, hist, s))
  {
    hide Choose, SlotSound, Haves, NextBlock, Sound, Undelivered;
    ChosenIsMissing(c, hist, s);
    var (chosen, draws) := Choose(c, hist, s);
    AskSound(c, s, chosen.value, draws);
    SoundIsShaped(c, s);
    NextBlockUndelivered(c.meta, s.mgr, chosen.value);
    UndeliveredHave(s.mgr, NextBlock(c.meta, s.mgr, chosen.value).0);
  }

  lemma SoundIsShaped(c: Config, s: Slot)
    requires SlotSound(c, s)
    ensures Shaped(c.meta, s.mgr)
  {
  }

  lemma UndeliveredHave(s: Mgr, t: Mgr)
    requires Undelivered(s, t)
    ensures s.have == t.have
  {
  }

  /** A fill keeps the tables and the limits, delivers nothing and announces nothing. */
  lemma {:induction false} FillSound(c: Config, hist: seq<uint32>, s: Slot)
    requires Sized(c, hist) && SlotSound(c, s) && !s.peer.choking
    ensures SlotSound(c, Fill(c, hist, s)) && SameSide(s, Fill(c, hist, s))
    decreases PIPELINE - |s.peer.out|, s.peer.active.Some?
  {
    hide More, Round, SlotSound, Sound, Undelivered, Haves;
    SelfUndelivered(s.mgr);
    if More(c, hist, s) {
      var t := Round(c, hist, s);
      RoundSound(c, hist, s);
      MoreRoom(c, hist, s);
      RoundProgresses(c, hist, s);
      FillSound(c, hist, t);
      UndeliveredTransitive(s.mgr, t.mgr, Fill(c, hist, t).mgr);
    }
  }

  lemma MoreRoom(c: Config, hist: seq<uint32>, s: Slot)
    requires More(c, hist, s)
    ensures |s.peer.out| < PIPELINE
  {
  }

  /* ---- when the pipeline stops ---- */

  /** The peer has a piece we lack with a block nobody was asked for. */
  ghost predicate Useful(m: TorrentMetadata, s: Mgr, bits: set<nat>, i: nat) {
    i < m.numPieces && i in bits && i !in s.have && HasPending(s, i)
  }

  lemma {:induction false} FillStops(c: Config, hist: seq<uint32>, s: Slot)
    requires Sized(c, hist)
    ensures !More(c, hist, Fill(c, hist, s))
    decreases PIPELINE - |s.peer.out|, s.peer.active.Some?
  {
    hide More, Round, Sound;
    if More(c, hist, s) {
      MoreRoom(c, hist, s);
      RoundProgresses(c, hist, s);
      FillStops(c, hist, Round(c, hist, s));
    }
  }

  /** Work conserving: a fill ends with five requests outstanding or nothing useful left at the peer. */
  lemma FillIsWorkConserving(c: Config, hist: seq<uint32>, s: Slot, i: nat)
    requires Sized(c, hist) && SlotSound(c, s) && !s.peer.choking
    ensures var t := Fill(c, hist, s); |t.peer.out| == PIPELINE || !Useful(c.meta, t.mgr, t.peer.bits, i)
  {
    hide Fill, Pick, HasPending, Asks, Tables, Sound, SameSide;
    FillSound(c, hist, s);
    FillStops(c, hist, s);
    var t := Fill(c, hist, s);
    PickIffCandidate(hist, t.peer.bits, Excluded(c.meta, t.mgr), c.rng(t.draws));
  }

  /* ---- ownership, one peer against the rest ---- */

  /** Every requested block is on this peer's list or among the keys the others hold. */
  ghost predicate NoneLost(s: Mgr, out: seq<Req>, others: set<Key>) {
    forall x: Key | StateOf(s, x) == Some(Requested) :: x in Keys(out) || x in others
  }

  /** Nothing on this list is on it twice or held by another, and every outstanding block is in a table, not Pending. */
  ghost predicate Exclusive(s: Mgr, out: seq<Req>, others: set<Key>) {
    && Distinct(out)
    && (forall x | x in Keys(out) :: x !in others)
    && forall x | x in Keys(out) || x in others :: StateOf(s, x).Some? && !StateOf(s, x).value.Pending?
  }

  /** The same without the demand that a table tracks every outstanding block. */
  ghost predicate Alone(s: Mgr, out: seq<Req>, others: set<Key>) {
    && Distinct(out)
    && (forall x | x in Keys(out) :: x !in others)
    && forall x | x in Keys(out) || x in others :: StateOf(s, x) != Some(Pending)
  }

  /** What is outstanding is exactly what is Requested. */
  ghost predicate OnRequest(s: Mgr, out: seq<Req>, others: set<Key>) {
    forall x | x in Keys(out) || x in others :: StateOf(s, x) == Some(Requested)
  }

  lemma AskEffect(c: Config, s: Slot, i: nat, draws: nat, x: Key)
    requires Sound(c.meta) && Shaped(c.meta, s.mgr) && i < c.meta.numPieces
    ensures
      var t := Ask(c, s, i, draws);
      if t.peer.out == s.peer.out then t.mgr == s.mgr
      else
        var taken := KeyOf(t.peer.out[|s.peer.out|]);
        && t.peer.out == s.peer.out + [t.peer.out[|s.peer.out|]]
        && (StateOf(s.mgr, taken) == None || StateOf(s.mgr, taken) == Some(Pending))
        && StateOf(t.mgr, taken) == Some(Requested)
        && (x != taken ==>
              || StateOf(t.mgr, x) == StateOf(s.mgr, x)
              || (StateOf(s.mgr, x) == None && StateOf(t.mgr, x) == Some(Pending)))
  {
    hide NextBlock, StateOf, Init, Shaped, Sound;
    var (mgr, block) := NextBlock(c.meta, s.mgr, i);
    if block.None? {
      NoBlockNoChange(c.meta, s.mgr, i);
    } else {
      var taken := Key(i, block.value.begin);
      NextBlockEffect(c.meta, s.mgr, i, x);
      NextBlockEffect(c.meta, s.mgr, i, taken);
      InitEffect(c.meta, s.mgr, i, x);
      InitEffect(c.meta, s.mgr, i, taken);
      AbsentState(s.mgr, i, x.begin);
      AbsentState(s.mgr, i, taken.begin);
      assert x == Key(x.piece, x.begin);
    }
  }

  lemma AbsentState(s: Mgr, i: nat, begin: uint32)
    ensures i !in s.progress ==> StateOf(s, Key(i, begin)) == None
  {
  }

  /** Asking for one more block neither makes nor mends a breach of exclusive ownership. */
  lemma AskKeepsOwners(c: Config, s: Slot, i: nat, draws: nat, others: set<Key>)
    requires Sound(c.meta) && Shaped(c.meta, s.mgr) && i < c.meta.numPieces
    ensures var t := Ask(c, s, i, draws);
            && (NoneLost(s.mgr, s.peer.out, others) ==> NoneLost(t.mgr, t.peer.out, others))
            && (Exclusive(s.mgr, s.peer.out, others) <==> Exclusive(t.mgr, t.peer.out, others))
            && (Alone(t.mgr, t.peer.out, others) ==> Alone(s.mgr, s.peer.out, others))
            && (Exclusive(s.mgr, s.peer.out, others) && OnRequest(s.mgr, s.peer.out, others) ==>
                  OnRequest(t.mgr, t.peer.out, others))
  {
    hide StateOf, Ask, Keys, KeyOf, Distinct, Sound, Shaped;
    var t := Ask(c, s, i, draws);
    forall x: Key
      ensures t.peer.out == s.peer.out ==> t.mgr == s.mgr
      ensures t.peer.out != s.peer.out ==>
        && |t.peer.out| > |s.peer.out|
        && t.peer.out == s.peer.out + [t.peer.out[|s.peer.out|]]
        && (x != KeyOf(t.peer.out[|s.peer.out|]) ==>
              || StateOf(t.mgr, x) == StateOf(s.mgr, x)
              || (StateOf(s.mgr, x) == None && StateOf(t.mgr, x) == Some(Pending)))
    {
      AskEffect(c, s, i, draws, x);
    }
    AskEffect(c, s, i, draws, Key(i, 0));
    if t.peer.out != s.peer.out {
      KeysAppend(s.peer.out, t.peer.out[|s.peer.out|]);
      DistinctAppended(s.peer.out, t.peer.out[|s.peer.out|]);
    }
  }

  lemma DistinctAppended(out: seq<Req>, r: Req)
    ensures Distinct(out + [r]) ==> Distinct(out) && KeyOf(r) !in Keys(out)
  {
    LastApart(out + [r]);
    assert (out + [r])[..|out|] == out;
  }

  lemma RoundKeepsOwners(c: Config, hist: seq<uint32>, s: Slot, others: set<Key>)
    requires Sized(c, hist) && SlotSound(c, s) && More(c, hist, s)
    ensures var t := Round(c, hist, s);
            && (NoneLost(s.mgr, s.peer.out, others) ==> NoneLost(t.mgr, t.peer.out, others))
            && (Exclusive(s.mgr, s.peer.out, others) <==> Exclusive(t.mgr, t.peer.out, others))
            && (Alone(t.mgr, t.peer.out, others) ==> Alone(s.mgr, s.peer.out, others))
            && (Exclusive(s.mgr, s.peer.out, others) && OnRequest(s.mgr, s.peer.out, others) ==>
                  OnRequest(t.mgr, t.peer.out, others))
  {
    hide Choose, NoneLost, Exclusive, Alone, OnRequest, Ask, SlotSound, Sound;
    ChosenIsMissing(c, hist, s);
    SoundIsShaped(c, s);
    var (chosen, draws) := Choose(c, hist, s);
    AskKeepsOwners(c, s, chosen.value, draws, others);
  }

  /** A fill loses no block, neither makes nor mends a double request, and leaves what it asked for Requested. */
  lemma {:induction false} FillKeepsOwners(c: Config, hist: seq<uint32>, s: Slot, others: set<Key>)
    requires Sized(c, hist) && SlotSound(c, s) && !s.peer.choking
    ensures var t := Fill(c, hist, s);
            && (NoneLost(s.mgr, s.peer.out, others) ==> NoneLost(t.mgr, t.peer.out, others))
            && (Exclusive(s.mgr, s.peer.out, others) <==> Exclusive(t.mgr, t.peer.out, others))
            && (Alone(t.mgr, t.peer.out, others) ==> Alone(s.mgr, s.peer.out, others))
            && (Exclusive(s.mgr, s.peer.out, others) && OnRequest(s.mgr, s.peer.out, others) ==>
                  OnRequest(t.mgr, t.peer.out, others))
    decreases PIPELINE - |s.peer.out|, s.peer.active.Some?
  {
    hide More, Round, SlotSound, Sound, NoneLost, Exclusive, Alone, OnRequest;
    if More(c, hist, s) {
      RoundSound(c, hist, s);
      RoundKeepsOwners(c, hist, s, others);
      MoreRoom(c, hist, s);
      RoundProgresses(c, hist, s);
      FillKeepsOwners(c, hist, Round(c, hist, s), others);
    }
  }
}
