/**
 Pieces in progress (piece_manager.cpp): a block table and a data buffer per piece.

 `Mgr` is the manager's value: the set of pieces held and the pieces in progress. Its functions say
 what each operation does; the class does it with the source's loops on a packed bitfield.
 */
module Pieces {
  import opened Bytes
  import opened Geometry
  import opened Bitfields

  datatype BlockState = Pending | Requested | Received

  datatype Block = Block(piece: uint32, begin: uint32, length: uint32, state: BlockState)

  datatype PieceState = PieceState(index: uint32, length: uint32, blocks: seq<Block>, data: seq<byte>, blocksReceived: nat)

  datatype Mgr = Mgr(have: set<nat>, progress: map<nat, PieceState>)

  /* ---- the block table ---- */

  /** Entry `k` of the table of a piece of `length` bytes. */
  function TableEntry(i: nat, length: nat, k: nat, state: BlockState): Block {
    Block(ToUint32(i), ToUint32(k * BLOCK_SIZE), ToUint32(BlockLength(length, k)), state)
  }

  /** The table and buffer have the shape `init_piece_state` gives them; only states and bytes vary. */
  ghost predicate WellShaped(m: TorrentMetadata, i: nat, ps: PieceState) {
    && ps.length == PieceLength(m, i)
    && |ps.data| == ps.length
    && |ps.blocks| == BlockCount(ps.length)
    && forall k | 0 <= k < |ps.blocks| :: ps.blocks[k] == TableEntry(i, ps.length, k, ps.blocks[k].state)
  }

  function FreshBlocks(i: nat, length: nat, n: nat): (blocks: seq<Block>)
    ensures |blocks| == n && forall k | 0 <= k < n :: blocks[k] == TableEntry(i, length, k, Pending)
  {
    if n == 0 then [] else FreshBlocks(i, length, n - 1) + [TableEntry(i, length, n - 1, Pending)]
  }

  function Zeros(n: nat): (data: seq<byte>)
    ensures |data| == n
  {
    seq(n, _ => 0)
  }

  /** The state `init_piece_state` creates. */
  function FreshPiece(m: TorrentMetadata, i: nat): (ps: PieceState)
    ensures WellShaped(m, i, ps)
  {
    var length := PieceLength(m, i);
    PieceState(ToUint32(i), length, FreshBlocks(i, length, BlockCount(length)), Zeros(length), 0)
  }

  /** The begin offsets of a well-shaped table are exact and distinct. */
  lemma TableBegins(m: TorrentMetadata, i: nat, ps: PieceState, k: nat)
    requires WellShaped(m, i, ps) && k < |ps.blocks|
    ensures ps.blocks[k].begin == k * BLOCK_SIZE && ps.blocks[k].length == BlockLength(ps.length, k)
    ensures ps.blocks[k].begin + ps.blocks[k].length <= ps.length
    ensures ps.blocks[k].length > 0
  {
    BlocksPartition(ps.length, k);
  }

  /** `std::find_if` by begin offset: the first match, or the table's size. */
  function FindBegin(blocks: seq<Block>, begin: uint32): (k: nat)
    ensures k <= |blocks|
    ensures k < |blocks| ==> blocks[k].begin == begin
    ensures forall j | 0 <= j < k :: blocks[j].begin != begin
  {
    if blocks == [] || blocks[0].begin == begin then 0 else 1 + FindBegin(blocks[1..], begin)
  }

  lemma FoundIs(m: TorrentMetadata, i: nat, ps: PieceState, k: nat)
    requires WellShaped(m, i, ps) && k < |ps.blocks|
    ensures FindBegin(ps.blocks, ps.blocks[k].begin) == k
  {
    var j := FindBegin(ps.blocks, ps.blocks[k].begin);
    TableBegins(m, i, ps, k);
    TableBegins(m, i, ps, j);
  }

  function FirstPending(blocks: seq<Block>): (k: nat)
    ensures k <= |blocks|
    ensures k < |blocks| ==> blocks[k].state.Pending?
    ensures forall j | 0 <= j < k :: !blocks[j].state.Pending?
  {
    if blocks == [] || blocks[0].state.Pending? then 0 else 1 + FirstPending(blocks[1..])
  }

  function CountReceived(blocks: seq<Block>): (n: nat)
    ensures n <= |blocks|
  {
    if blocks == [] then 0 else CountReceived(blocks[..|blocks| - 1]) + if blocks[|blocks| - 1].state.Received? then 1 else 0
  }

  function SetState(ps: PieceState, k: nat, state: BlockState): PieceState
    requires k < |ps.blocks|
  {
    ps.(blocks := ps.blocks[k := ps.blocks[k].(state := state)])
  }

  lemma {:induction false} CountUpdate(blocks: seq<Block>, k: nat, b: Block)
    requires k < |blocks|
    ensures CountReceived(blocks[k := b]) - (if b.state.Received? then 1 else 0)
         == CountReceived(blocks) - if blocks[k].state.Received? then 1 else 0
  {
    var n := |blocks| - 1;
    if k < n {
      CountUpdate(blocks[..n], k, b);
      assert blocks[k := b][..n] == blocks[..n][k := b];
    } else {
      assert blocks[k := b][..n] == blocks[..n];
    }
  }

  lemma {:induction false} CountFull(blocks: seq<Block>)
    ensures CountReceived(blocks) == |blocks| <==> forall k | 0 <= k < |blocks| :: blocks[k].state.Received?
  {
    if blocks != [] {
      var n := |blocks| - 1;
      CountFull(blocks[..n]);
      assert (forall k | 0 <= k < |blocks| :: blocks[k].state.Received?)
        <==> blocks[n].state.Received? && forall k | 0 <= k < n :: blocks[..n][k].state.Received?;
    }
  }

  /* ---- what the operations do ---- */

  function Init(m: TorrentMetadata, s: Mgr, i: nat): Mgr {
    if i in s.progress && s.progress[i].blocks != [] then s
    else s.(progress := s.progress[i := FreshPiece(m, i)])
  }

  /** `get_next_block`: the first pending block of the piece becomes Requested. */
  function NextBlock(m: TorrentMetadata, s: Mgr, i: nat): (Mgr, Option<Block>) {
    if i in s.have then (s, None)
    else
      var t := Init(m, s, i);
      var ps := t.progress[i];
      var k := FirstPending(ps.blocks);
      if k == |ps.blocks| then (t, None)
      else
        var taken := SetState(ps, k, Requested);
        (t.(progress := t.progress[i := taken]), Some(taken.blocks[k]))
  }

  /** A delivered block is marked Received first; it is stored and counted only if it fits the buffer. */
  function Store(ps: PieceState, begin: uint32, block: seq<byte>): PieceState {
    var k := FindBegin(ps.blocks, begin);
    if k == |ps.blocks| || ps.blocks[k].state.Received? then ps
    else
      var marked := SetState(ps, k, Received);
      if begin + |block| <= |ps.data|
      then marked.(data := Overwrite(ps.data, begin, block), blocksReceived := ps.blocksReceived + 1)
      else marked
  }

  /** `block_received`, with its verdict that every block has been counted. */
  function BlockReceived(m: TorrentMetadata, s: Mgr, i: nat, begin: uint32, block: seq<byte>): (Mgr, bool) {
    if i in s.have then (s, false)
    else
      var t := Init(m, s, i);
      var ps := Store(t.progress[i], begin, block);
      (t.(progress := t.progress[i := ps]), ps.blocksReceived == |ps.blocks|)
  }

  predicate HasPending(s: Mgr, i: nat) {
    && i !in s.have
    && (i in s.progress ==> FirstPending(s.progress[i].blocks) < |s.progress[i].blocks|)
  }

  function Completed(s: Mgr, i: nat): Mgr {
    Mgr(s.have + {i}, s.progress - {i})
  }

  function Dropped(s: Mgr, i: nat): Mgr {
    s.(progress := s.progress - {i})
  }

  /** `block_request_failed`: a Requested block goes back to Pending, anything else stays. */
  function Unrequest(ps: PieceState, begin: uint32): PieceState {
    var k := FindBegin(ps.blocks, begin);
    if k < |ps.blocks| && ps.blocks[k].state.Requested? then SetState(ps, k, Pending) else ps
  }

  function RequestFailed(s: Mgr, i: nat, begin: uint32): Mgr {
    if i in s.progress then s.(progress := s.progress[i := Unrequest(s.progress[i], begin)]) else s
  }

  /** Shape of every piece in progress. */
  ghost predicate Shaped(m: TorrentMetadata, s: Mgr) {
    forall i | i in s.progress :: WellShaped(m, i, s.progress[i])
  }

  lemma StoreKeepsShape(m: TorrentMetadata, i: nat, ps: PieceState, begin: uint32, block: seq<byte>)
    requires WellShaped(m, i, ps)
    ensures WellShaped(m, i, Store(ps, begin, block))
  {
  }

  lemma InitKeepsShape(m: TorrentMetadata, s: Mgr, i: nat)
    requires Shaped(m, s)
    ensures Shaped(m, Init(m, s, i)) && i in Init(m, s, i).progress
  {
    hide WellShaped, FreshPiece;
  }

  lemma OperationsKeepShape(m: TorrentMetadata, s: Mgr, i: nat, begin: uint32, block: seq<byte>)
    requires Shaped(m, s)
    ensures Shaped(m, NextBlock(m, s, i).0)
    ensures Shaped(m, BlockReceived(m, s, i, begin, block).0)
    ensures Shaped(m, Completed(s, i)) && Shaped(m, Dropped(s, i)) && Shaped(m, RequestFailed(s, i, begin))
  {
    hide Store, Init, FreshPiece, PieceLength;
    InitKeepsShape(m, s, i);
    StoreKeepsShape(m, i, Init(m, s, i).progress[i], begin, block);
  }

  /* ---- when counting can go wrong ---- */

  /** Blocks marked Received that were never counted. */
  function Uncounted(ps: PieceState): int {
    CountReceived(ps.blocks) - ps.blocksReceived
  }

  /** A delivery leaves the counts in step exactly when it is not a first delivery overrunning the buffer. */
  lemma StoreCountsIff(ps: PieceState, begin: uint32, block: seq<byte>)
    ensures Uncounted(Store(ps, begin, block)) == Uncounted(ps)
       <==> var k := FindBegin(ps.blocks, begin);
            k == |ps.blocks| || ps.blocks[k].state.Received? || begin + |block| <= |ps.data|
    ensures Uncounted(ps) <= Uncounted(Store(ps, begin, block)) <= Uncounted(ps) + 1
  {
    var k := FindBegin(ps.blocks, begin);
    if k < |ps.blocks| {
      CountUpdate(ps.blocks, k, ps.blocks[k].(state := Received));
    }
  }

  /** Past the last piece the table is always empty, and `block_received` reports completion at once. */
  lemma OutOfRangeCompletes(m: TorrentMetadata, s: Mgr, i: nat, begin: uint32, block: seq<byte>)
    requires Sound(m) && Shaped(m, s) && i >= m.numPieces && i !in s.have
    ensures BlockReceived(m, s, i, begin, block).1
  {
    if i in s.progress {
      assert WellShaped(m, i, s.progress[i]);
    }
  }

  /* ---- the class ---- */

  class PieceManager {
    const metadata: TorrentMetadata
    const sha1: seq<byte> -> Digest
    const bitfield: Bitfield
    var inProgress: map<nat, PieceState>

    ghost predicate Valid()
      reads this, bitfield.bytes
    {
      && Sound(metadata)
      && bitfield.Valid() && bitfield.numBits == metadata.numPieces
      && Shaped(metadata, Mgr(Members(bitfield.Value()), inProgress))
    }

    ghost function View(): (s: Mgr)
      requires Valid()
      reads this, bitfield.bytes
    {
      Mgr(Members(bitfield.Value()), inProgress)
    }

    constructor (metadata: TorrentMetadata, sha1: seq<byte> -> Digest)
      requires Sound(metadata)
      ensures Valid() && fresh(bitfield) && fresh(bitfield.bytes)
      ensures this.metadata == metadata && this.sha1 == sha1
      ensures View() == Mgr({}, map[])
    {
      this.metadata := metadata;
      this.sha1 := sha1;
      bitfield := new Bitfield(metadata.numPieces);
      inProgress := map[];
    }

    method HasPiece(i: nat) returns (r: bool)
      requires Valid()
      ensures r <==> i in View().have
    {
      r := bitfield.Has(i);
    }

    method GetPieceLength(i: nat) returns (length: uint32)
      requires Valid()
      ensures length == PieceLength(metadata, i)
    {
      if i >= metadata.numPieces {
        return 0;
      }
      if i < metadata.numPieces - 1 {
        return ToUint32(metadata.pieceLength);
      }
      var last := metadata.totalLength - (metadata.numPieces - 1) * metadata.pieceLength;
      return ToUint32(last);
    }

    /** `init_piece_state`: nothing for a piece already set up, else the table by advancing an offset. */
    method InitPieceState(i: nat)
      requires Valid()
      modifies this
      ensures Valid() && View() == Init(metadata, old(View()), i)
    {
      if i in inProgress && inProgress[i].blocks != [] {
        return;
      }
      var length := GetPieceLength(i);
      var blocks := BuildTable(i, length);
      inProgress := inProgress[i := PieceState(ToUint32(i), length, blocks, Zeros(length), 0)];
    }

    method GetNextBlock(i: nat) returns (r: Option<Block>)
      requires Valid()
      modifies this
      ensures Valid() && (View(), r) == NextBlock(metadata, old(View()), i)
    {
      var has := HasPiece(i);
      if has {
        return None;
      }
      InitPieceState(i);
      var ps := inProgress[i];
      var k := ScanPending(ps.blocks);
      if k == |ps.blocks| {
        return None;
      }
      ps := SetState(ps, k, Requested);
      inProgress := inProgress[i := ps];
      return Some(ps.blocks[k]);
    }

    method ReceiveBlock(i: nat, begin: uint32, block: seq<byte>) returns (complete: bool)
      requires Valid()
      modifies this
      ensures Valid() && (View(), complete) == BlockReceived(metadata, old(View()), i, begin, block)
    {
      var has := HasPiece(i);
      if has {
        return false;
      }
      InitPieceState(i);
      var ps := StoreBlock(inProgress[i], begin, block);
      hide Store, WellShaped, Members;
      StoreKeepsShape(metadata, i, inProgress[i], begin, block);
      inProgress := inProgress[i := ps];
      return ps.blocksReceived == |ps.blocks|;
    }

    method ValidatePiece(i: nat) returns (ok: bool)
      requires Valid() && i < metadata.numPieces
      ensures ok <==> i in inProgress && sha1(inProgress[i].data) == metadata.pieceHashes[i]
    {
      if i !in inProgress {
        return false;
      }
      return sha1(inProgress[i].data) == metadata.pieceHashes[i];
    }

    method PieceCompleted(i: nat)
      requires Valid() && i < metadata.numPieces
      modifies this, bitfield.bytes
      ensures Valid() && View() == Completed(old(View()), i)
    {
      bitfield.Set(i, true);
      inProgress := inProgress - {i};
    }

    method PieceFailed(i: nat)
      requires Valid()
      modifies this
      ensures Valid() && View() == Dropped(old(View()), i)
    {
      inProgress := inProgress - {i};
    }

    method GetPieceData(i: nat) returns (data: seq<byte>)
      requires Valid()
      ensures data == if i in inProgress then inProgress[i].data else []
    {
      data := if i in inProgress then inProgress[i].data else [];
    }

    method HasPendingBlocks(i: nat) returns (r: bool)
      requires Valid()
      ensures r <==> HasPending(View(), i)
    {
      var has := HasPiece(i);
      if has {
        return false;
      }
      if i !in inProgress {
        return true;
      }
      var k := ScanPending(inProgress[i].blocks);
      return k < |inProgress[i].blocks|;
    }

    method BlockRequestFailed(i: nat, begin: uint32)
      requires Valid()
      modifies this
      ensures Valid() && View() == RequestFailed(old(View()), i, begin)
    {
      if i in inProgress {
        var ps := inProgress[i];
        var k := ScanBegin(ps.blocks, begin);
        if k != |ps.blocks| && ps.blocks[k].state == Requested {
          ps := SetState(ps, k, Pending);
        }
        inProgress := inProgress[i := ps];
      }
    }
  }

  /** One round of the offset loop: the wrapping arithmetic does not wrap and yields the next table entry. */
  lemma TableRound(i: nat, length: uint32, k: nat)
    requires k < BlockCount(length)
    ensures k * BLOCK_SIZE < length
    ensures Block(ToUint32(i), k * BLOCK_SIZE, Min(BLOCK_SIZE, length - k * BLOCK_SIZE), Pending)
         == TableEntry(i, length, k, Pending)
    ensures k * BLOCK_SIZE + Min(BLOCK_SIZE, length - k * BLOCK_SIZE)
         == if k + 1 < BlockCount(length) then (k + 1) * BLOCK_SIZE else length
    ensures ToUint32(k * BLOCK_SIZE + Min(BLOCK_SIZE, length - k * BLOCK_SIZE))
         == k * BLOCK_SIZE + Min(BLOCK_SIZE, length - k * BLOCK_SIZE)
  {
    BlocksPartition(length, k);
  }

  lemma TableEnds(length: uint32, k: nat)
    requires k < BlockCount(length)
    ensures k * BLOCK_SIZE < length
  {
  }

  /** The offset loop of `init_piece_state`. */
  method BuildTable(i: nat, length: uint32) returns (blocks: seq<Block>)
    ensures blocks == FreshBlocks(i, length, BlockCount(length))
  {
    hide ToUint32, BlockLength, BlockCount, TableEntry;
    blocks := [];
    var offset: uint32 := 0;
    ghost var k: nat := 0;
    NoBlocks(length);
    while offset < length
      invariant blocks == FreshBlocks(i, length, k)
      invariant k <= BlockCount(length)
      invariant offset == if k < BlockCount(length) then k * BLOCK_SIZE else length
      decreases length - offset
    {
      TableRound(i, length, k);
      var len: uint32 := Min(BLOCK_SIZE, length - offset);
      blocks := blocks + [Block(ToUint32(i), offset, len, Pending)];
      offset := ToUint32(offset + len);
      k := k + 1;
    }
    if k < BlockCount(length) {
      TableEnds(length, k);
      assert false;
    }
  }

  lemma NoBlocks(length: nat)
    ensures BlockCount(length) == 0 <==> length == 0
  {
  }

  method ScanPending(blocks: seq<Block>) returns (k: nat)
    ensures k == FirstPending(blocks)
  {
    k := 0;
    while k < |blocks| && !blocks[k].state.Pending?
      invariant k <= |blocks| && forall j | 0 <= j < k :: !blocks[j].state.Pending?
    {
      k := k + 1;
    }
  }

  method ScanBegin(blocks: seq<Block>, begin: uint32) returns (k: nat)
    ensures k == FindBegin(blocks, begin)
  {
    k := 0;
    while k < |blocks| && blocks[k].begin != begin
      invariant k <= |blocks| && forall j | 0 <= j < k :: blocks[j].begin != begin
    {
      k := k + 1;
    }
  }

  /** The part of `block_received` that works on one piece. */
  method StoreBlock(piece: PieceState, begin: uint32, block: seq<byte>) returns (ps: PieceState)
    ensures ps == Store(piece, begin, block)
  {
    ps := piece;
    var k := ScanBegin(ps.blocks, begin);
    if k != |ps.blocks| && !ps.blocks[k].state.Received? {
      ps := SetState(ps, k, Received);
      if begin + |block| <= |ps.data| {
        var data := CopyInto(ps.data, begin, block);
        ps := ps.(data := data, blocksReceived := ps.blocksReceived + 1);
      }
    }
  }

  /** `std::copy` of a block into the piece buffer. */
  method CopyInto(buffer: seq<byte>, at: nat, block: seq<byte>) returns (r: seq<byte>)
    requires at + |block| <= |buffer|
    ensures r == Overwrite(buffer, at, block)
  {
    r := buffer[..at] + block + buffer[at + |block|..];
  }

  /** `get_downloaded_bytes` (main.cpp), in its own arithmetic. */
  method GetDownloadedBytes(pm: PieceManager) returns (total: nat)
    requires pm.Valid()
    ensures total == Downloaded(pm.metadata, pm.View().have, pm.metadata.numPieces)
    ensures total <= pm.metadata.totalLength
    ensures total == pm.metadata.totalLength <==> forall i: nat | i < pm.metadata.numPieces :: i in pm.View().have
  {
    var m := pm.metadata;
    total := 0;
    for i := 0 to m.numPieces
      invariant total == Downloaded(m, pm.View().have, i)
    {
      PiecesPartition(m, i);
      var has := pm.HasPiece(i);
      if has {
        if i == m.numPieces - 1 {
          total := total + (m.totalLength - (m.numPieces - 1) * m.pieceLength);
        } else {
          total := total + m.pieceLength;
        }
      }
    }
    DownloadedBounded(m, pm.View().have);
  }
}
