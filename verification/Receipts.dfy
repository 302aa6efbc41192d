/**
 Which blocks have arrived: what handing out and taking back requests leaves alone, and what
 deliveries of the right bytes build up.
 */
module Receipts {
  import opened Bytes
  import opened Geometry
  import opened Disk
  import opened Pieces
  import opened Swarm

  /** The two tables differ at most in which missing blocks are on request. */
  ghost predicate SameReceipts(a: PieceState, b: PieceState) {
    && |a.blocks| == |b.blocks| && a.data == b.data && a.blocksReceived == b.blocksReceived
    && forall k | 0 <= k < |a.blocks| :: a.blocks[k].state.Received? == b.blocks[k].state.Received?
  }

  /** No block has arrived. */
  ghost predicate Blank(ps: PieceState) {
    && ps.blocksReceived == 0 && |ps.blocks| > 0
    && forall k | 0 <= k < |ps.blocks| :: !ps.blocks[k].state.Received?
  }

  /** Nothing was delivered or completed between the two states. */
  ghost predicate Undelivered(s: Mgr, t: Mgr) {
    && s.have == t.have
    && (forall i | i in s.progress :: i in t.progress && SameReceipts(s.progress[i], t.progress[i]))
    && forall i | i in t.progress && i !in s.progress :: Blank(t.progress[i])
  }

  lemma UndeliveredTransitive(s: Mgr, t: Mgr, u: Mgr)
    requires Undelivered(s, t) && Undelivered(t, u)
    ensures Undelivered(s, u)
  {
    forall i | i in u.progress && i !in s.progress ensures Blank(u.progress[i]) {
      if i in t.progress {
        assert Blank(t.progress[i]) && SameReceipts(t.progress[i], u.progress[i]);
      }
    }
  }

  lemma SetKeepsReceipts(ps: PieceState, k: nat, state: BlockState)
    requires k < |ps.blocks| && !state.Received? && !ps.blocks[k].state.Received?
    ensures SameReceipts(ps, SetState(ps, k, state))
  {
  }

  lemma FreshIsBlank(m: TorrentMetadata, i: nat)
    requires Sound(m) && i < m.numPieces
    ensures Blank(FreshPiece(m, i))
  {
    PiecesPartition(m, i);
  }

  lemma InitUndelivered(m: TorrentMetadata, s: Mgr, i: nat)
    requires Sound(m) && Shaped(m, s) && i < m.numPieces
    ensures Undelivered(s, Init(m, s, i))
  {
    hide FreshPiece, Blank;
    FreshIsBlank(m, i);
    PiecesPartition(m, i);
    if i in s.progress {
      assert WellShaped(m, i, s.progress[i]);
    }
  }

  lemma NextBlockUndelivered(m: TorrentMetadata, s: Mgr, i: nat)
    requires Sound(m) && Shaped(m, s) && i < m.numPieces
    ensures Undelivered(s, NextBlock(m, s, i).0)
  {
    hide Undelivered, Init;
    if i !in s.have {
      var t := Init(m, s, i);
      InitUndelivered(m, s, i);
      InitKeepsShape(m, s, i);
      var ps := t.progress[i];
      var k := FirstPending(ps.blocks);
      if k < |ps.blocks| {
        SetKeepsReceipts(ps, k, Requested);
        OneEntryUndelivered(t, i, SetState(ps, k, Requested));
        UndeliveredTransitive(s, t, t.(progress := t.progress[i := SetState(ps, k, Requested)]));
      }
    } else {
      SelfUndelivered(s);
    }
  }

  lemma SelfUndelivered(s: Mgr)
    ensures Undelivered(s, s)
  {
  }

  lemma OneEntryUndelivered(s: Mgr, i: nat, ps: PieceState)
    requires i in s.progress && SameReceipts(s.progress[i], ps)
    ensures Undelivered(s, s.(progress := s.progress[i := ps]))
  {
  }

  lemma UnrequestKeepsReceipts(ps: PieceState, begin: uint32)
    ensures SameReceipts(ps, Unrequest(ps, begin))
  {
  }

  lemma {:induction false} ReleaseUndelivered(s: Mgr, reqs: seq<Req>)
    ensures Undelivered(s, Release(s, reqs))
    ensures Release(s, reqs).progress.Keys == s.progress.Keys
    decreases |reqs|
  {
    if reqs != [] {
      var i := reqs[0].piece;
      var t := RequestFailed(s, i, reqs[0].begin);
      if i in s.progress {
        UnrequestKeepsReceipts(s.progress[i], reqs[0].begin);
        OneEntryUndelivered(s, i, Unrequest(s.progress[i], reqs[0].begin));
      }
      ReleaseUndelivered(t, reqs[1..]);
      UndeliveredTransitive(s, t, Release(s, reqs));
    }
  }

  lemma {:induction false} ReleaseKeepsShape(m: TorrentMetadata, s: Mgr, reqs: seq<Req>)
    requires Shaped(m, s)
    ensures Shaped(m, Release(s, reqs))
    decreases |reqs|
  {
    if reqs != [] {
      OperationsKeepShape(m, s, reqs[0].piece, reqs[0].begin, []);
      ReleaseKeepsShape(m, RequestFailed(s, reqs[0].piece, reqs[0].begin), reqs[1..]);
    }
  }

  lemma {:induction false} CountSame(a: seq<Block>, b: seq<Block>)
    requires |a| == |b| && forall k | 0 <= k < |a| :: a[k].state.Received? == b[k].state.Received?
    ensures CountReceived(a) == CountReceived(b)
  {
    if a != [] {
      CountSame(a[..|a| - 1], b[..|b| - 1]);
    }
  }

  lemma {:induction false} CountNone(a: seq<Block>)
    requires forall k | 0 <= k < |a| :: !a[k].state.Received?
    ensures CountReceived(a) == 0
  {
    if a != [] {
      CountNone(a[..|a| - 1]);
    }
  }

  /* ---- counts ---- */

  /** The counter never runs ahead of the blocks marked Received. */
  ghost predicate Counted(s: Mgr) {
    forall i | i in s.progress :: Uncounted(s.progress[i]) >= 0
  }

  /** No piece has all its blocks counted. */
  ghost predicate Unfinished(s: Mgr) {
    forall i | i in s.progress :: s.progress[i].blocksReceived < |s.progress[i].blocks|
  }

  lemma UncountedSame(s: Mgr, t: Mgr, i: nat)
    requires Undelivered(s, t) && i in t.progress
    ensures Uncounted(t.progress[i]) == if i in s.progress then Uncounted(s.progress[i]) else 0
  {
    if i in s.progress {
      CountSame(s.progress[i].blocks, t.progress[i].blocks);
    } else {
      CountNone(t.progress[i].blocks);
    }
  }

  lemma UndeliveredKeepsCounts(s: Mgr, t: Mgr)
    requires Undelivered(s, t)
    ensures Counted(s) ==> Counted(t)
    ensures Unfinished(s) ==> Unfinished(t)
  {
    forall i | i in t.progress
      ensures Uncounted(t.progress[i]) == if i in s.progress then Uncounted(s.progress[i]) else 0
    {
      UncountedSame(s, t, i);
    }
  }

  /** The verdict of a delivery: the piece has all its blocks counted, and no other piece has. */
  lemma ReceiveKeepsCounts(m: TorrentMetadata, s: Mgr, i: nat, begin: uint32, block: seq<byte>)
    requires Sound(m) && Shaped(m, s) && i < m.numPieces && Counted(s) && Unfinished(s)
    requires i in s.progress ==> i !in s.have
    ensures
      var (t, complete) := BlockReceived(m, s, i, begin, block);
      && t.have == s.have && Counted(t)
      && (!complete ==> Unfinished(t))
      && (complete ==>
            && i !in s.have && i in t.progress && Unfinished(Dropped(t, i))
            && t.progress[i].blocksReceived == |t.progress[i].blocks|)
  {
    hide Store, Uncounted, Init, WellShaped;
    if i !in s.have {
      var u := Init(m, s, i);
      InitUndelivered(m, s, i);
      InitKeepsShape(m, s, i);
      UndeliveredKeepsCounts(s, u);
      StoreCountsIff(u.progress[i], begin, block);
      CountedAtMost(Store(u.progress[i], begin, block));
    }
  }

  lemma CountedAtMost(ps: PieceState)
    requires Uncounted(ps) >= 0
    ensures ps.blocksReceived <= |ps.blocks|
  {
  }

  /** Counted in full, every block has arrived. */
  lemma FullMeansReceived(ps: PieceState)
    requires Uncounted(ps) >= 0 && ps.blocksReceived == |ps.blocks|
    ensures forall k | 0 <= k < |ps.blocks| :: ps.blocks[k].state.Received?
  {
    CountFull(ps.blocks);
  }

  /* ---- genuine bytes ---- */

  /** What has arrived equals the content from `start`. */
  ghost predicate Matches(src: seq<byte>, start: int, ps: PieceState) {
    && |ps.blocks| == BlockCount(|ps.data|) && 0 <= start && start + |ps.data| <= |src|
    && forall x | 0 <= x < |ps.data| :: ps.blocks[x / BLOCK_SIZE].state.Received? ==> ps.data[x] == src[start + x]
  }

  /** Everything that arrived for piece `i` is counted and equals the bytes of `src`. */
  ghost predicate Genuine(m: TorrentMetadata, src: seq<byte>, i: nat, ps: PieceState) {
    Uncounted(ps) == 0 && WellShaped(m, i, ps) && Matches(src, PieceStart(m, i), ps)
  }

  /** The bytes of the source at one block. */
  ghost function SourceBytes(m: TorrentMetadata, src: seq<byte>, i: nat, begin: uint32): seq<byte>
    requires Sound(m) && |src| == m.totalLength && i < m.numPieces && begin < PieceLength(m, i)
  {
    PiecesPartition(m, i);
    var start := PieceStart(m, i) + begin;
    src[start..start + Min(BLOCK_SIZE, PieceLength(m, i) - begin)]
  }

  /** `block` is one exact block of the source. */
  ghost predicate GenuineBlock(m: TorrentMetadata, src: seq<byte>, i: nat, begin: uint32, block: seq<byte>)
    requires Sound(m) && |src| == m.totalLength
  {
    && i < m.numPieces
    && begin % BLOCK_SIZE == 0 && begin < PieceLength(m, i)
    && block == SourceBytes(m, src, i, begin)
  }

  lemma GenuineSame(m: TorrentMetadata, src: seq<byte>, i: nat, a: PieceState, b: PieceState)
    requires Genuine(m, src, i, a) && SameReceipts(a, b) && WellShaped(m, i, b)
    ensures Genuine(m, src, i, b)
  {
    hide CountReceived, WellShaped, PieceStart;
    CountSame(a.blocks, b.blocks);
  }

  lemma GenuineBlank(m: TorrentMetadata, src: seq<byte>, i: nat, ps: PieceState)
    requires Sound(m) && |src| == m.totalLength && i < m.numPieces
    requires Blank(ps) && WellShaped(m, i, ps)
    ensures Genuine(m, src, i, ps)
  {
    hide CountReceived, PieceStart, PieceLength, Sound, TableEntry;
    PiecesPartition(m, i);
    CountNone(ps.blocks);
  }

  lemma GenuineFinds(m: TorrentMetadata, i: nat, ps: PieceState, begin: uint32)
    requires WellShaped(m, i, ps) && begin % BLOCK_SIZE == 0 && begin < PieceLength(m, i)
    ensures begin / BLOCK_SIZE < |ps.blocks| && FindBegin(ps.blocks, begin) == begin / BLOCK_SIZE
  {
    var k := begin / BLOCK_SIZE;
    TableBegins(m, i, ps, k);
    FoundIs(m, i, ps, k);
  }

  /** A table finds exactly the offsets at which its blocks begin. */
  lemma TableFinds(m: TorrentMetadata, i: nat, ps: PieceState, begin: uint32)
    requires WellShaped(m, i, ps)
    ensures FindBegin(ps.blocks, begin) < |ps.blocks| <==> begin % BLOCK_SIZE == 0 && begin < PieceLength(m, i)
  {
    var k := FindBegin(ps.blocks, begin);
    if k < |ps.blocks| {
      TableBegins(m, i, ps, k);
    }
    if begin % BLOCK_SIZE == 0 && begin < PieceLength(m, i) {
      GenuineFinds(m, i, ps, begin);
    }
  }

  /** What a delivery does once its block is found and fits. */
  lemma StoreFits(ps: PieceState, begin: uint32, block: seq<byte>, k: nat)
    requires k == FindBegin(ps.blocks, begin) < |ps.blocks| && begin + |block| <= |ps.data|
    ensures Uncounted(Store(ps, begin, block)) == Uncounted(ps)
    ensures Store(ps, begin, block).data == if ps.blocks[k].state.Received? then ps.data else Overwrite(ps.data, begin, block)
    ensures |Store(ps, begin, block).blocks| == |ps.blocks|
    ensures forall j | 0 <= j < |ps.blocks| ::
              Store(ps, begin, block).blocks[j].state.Received? == (j == k || ps.blocks[j].state.Received?)
  {
    StoreCountsIff(ps, begin, block);
  }

  lemma MatchesStore(src: seq<byte>, start: nat, ps: PieceState, begin: uint32, block: seq<byte>, k: nat)
    requires Matches(src, start, ps)
    requires k == FindBegin(ps.blocks, begin) < |ps.blocks| && begin == k * BLOCK_SIZE
    requires block == src[start + begin..start + begin + BlockLength(|ps.data|, k)]
    ensures begin + |block| <= |ps.data|
    ensures Matches(src, start, Store(ps, begin, block))
  {
    hide Store, CountReceived, BlockCount, BlockLength;
    BlocksPartition(|ps.data|, k);
    BlockSpan(|ps.data|, k);
    var qs := Store(ps, begin, block);
    StoreFits(ps, begin, block, k);
    if !ps.blocks[k].state.Received? {
      forall x | 0 <= x < |qs.data| && qs.blocks[x / BLOCK_SIZE].state.Received? ensures qs.data[x] == src[start + x] {
        if x / BLOCK_SIZE == k {
          assert block[x - begin] == src[start + x];
        }
      }
    }
  }

  /** The positions of a piece that lie in its block `k`. */
  lemma BlockSpan(length: nat, k: nat)
    requires k < BlockCount(length)
    ensures forall x | 0 <= x < length :: k * BLOCK_SIZE <= x < k * BLOCK_SIZE + BlockLength(length, k) <==> x / BLOCK_SIZE == k
    ensures forall x | 0 <= x < length :: 0 <= x / BLOCK_SIZE < BlockCount(length)
  {
  }

  lemma GenuineStore(m: TorrentMetadata, src: seq<byte>, i: nat, ps: PieceState, begin: uint32, block: seq<byte>)
    requires Sound(m) && |src| == m.totalLength && i < m.numPieces
    requires Genuine(m, src, i, ps) && GenuineBlock(m, src, i, begin, block)
    ensures Genuine(m, src, i, Store(ps, begin, block))
  {
    hide Sound, CountReceived, Store, TableEntry, Uncounted, PieceLength, PieceStart, Matches;
    var k := begin / BLOCK_SIZE;
    GenuineFinds(m, i, ps, begin);
    PiecesPartition(m, i);
    StoreKeepsShape(m, i, ps, begin, block);
    MatchesStore(src, PieceStart(m, i), ps, begin, block, k);
    StoreFits(ps, begin, block, k);
  }

  /** A piece complete with genuine bytes is the source's piece. */
  lemma GenuineFull(m: TorrentMetadata, src: seq<byte>, i: nat, ps: PieceState)
    requires Sound(m) && |src| == m.totalLength && i < m.numPieces
    requires Genuine(m, src, i, ps) && ps.blocksReceived == |ps.blocks|
    ensures 0 <= PieceStart(m, i) && PieceStart(m, i) + PieceLength(m, i) <= |src|
    ensures ps.data == PieceSlice(src, m, i)
  {
    PiecesPartition(m, i);
    FullMeansReceived(ps);
    forall x | 0 <= x < |ps.data| ensures ps.data[x] == PieceSlice(src, m, i)[x] {
      assert ps.blocks[x / BLOCK_SIZE].state.Received?;
    }
  }
}
