/**
 Torrent metadata (torrent.hpp) and the arithmetic of pieces and blocks: pieces partition the
 content and 16 KiB blocks partition each piece.
 */
module Geometry {
  import opened Bytes

  datatype FileInfo = FileInfo(path: seq<byte>, length: int, offset: int)

  datatype TorrentMetadata = TorrentMetadata(
    name: seq<byte>,
    announceUrl: seq<byte>,
    announceList: seq<seq<byte>>,
    pieceLength: int,
    totalLength: int,
    numPieces: int,
    pieceHashes: seq<Digest>,
    files: seq<FileInfo>,
    infoHash: Digest)

  const BLOCK_SIZE := 16384

  function SumLengths(files: seq<FileInfo>): int {
    if files == [] then 0 else SumLengths(files[..|files| - 1]) + files[|files| - 1].length
  }

  /** Every file starts where the files before it end. */
  ghost predicate PrefixOffsets(files: seq<FileInfo>) {
    forall k {:trigger files[k].offset} | 0 <= k < |files| :: files[k].offset == SumLengths(files[..k])
  }

  /** `(a + b - 1) / b` on positive operands. */
  function CeilDiv(a: nat, b: int): nat
    requires b >= 1
  {
    (a + b - 1) / b
  }

  /** Metadata under which every integer of the engine stays in its C++ type. */
  ghost predicate Sound(m: TorrentMetadata) {
    && 1 <= m.pieceLength < 0x1_0000_0000
    && (forall k | 0 <= k < |m.files| :: m.files[k].length >= 0)
    && PrefixOffsets(m.files)
    && 0 <= m.totalLength == SumLengths(m.files)
    && m.totalLength + m.pieceLength - 1 <= INT64_MAX
    && m.numPieces == CeilDiv(m.totalLength, m.pieceLength) == |m.pieceHashes|
    && m.numPieces < 0x8000_0000
  }

  /** `static_cast<int64_t>(i) * piece_length`. */
  function PieceStart(m: TorrentMetadata, i: nat): int {
    i * m.pieceLength
  }

  /** `get_piece_length`, with its casts to uint32. */
  function PieceLength(m: TorrentMetadata, i: nat): uint32 {
    if i >= m.numPieces then 0
    else if i < m.numPieces - 1 then ToUint32(m.pieceLength)
    else ToUint32(m.totalLength - (m.numPieces - 1) * m.pieceLength)
  }

  lemma MulMonotone(a: int, b: int, c: int)
    requires a <= b && c >= 0
    ensures a * c <= b * c
  {
  }

  lemma CeilBounds(a: nat, b: int)
    requires b >= 1
    ensures a <= CeilDiv(a, b) * b < a + b
    ensures (CeilDiv(a, b) - 1) * b == CeilDiv(a, b) * b - b
  {
    var q := CeilDiv(a, b);
    assert a + b - 1 == q * b + (a + b - 1) % b;
  }

  /** The arithmetic of PiecesPartition on bare integers. */
  lemma Partition(total: nat, b: int, n: int, i: nat)
    requires b >= 1 && n == CeilDiv(total, b) && i < n
    ensures (n - 1) * b < total <= (n - 1) * b + b
    ensures (i + 1) * b == i * b + b && i * b >= 0
    ensures i < n - 1 ==> i * b + b <= (n - 1) * b
  {
    CeilBounds(total, b);
    MulMonotone(0, i, b);
    if i < n - 1 {
      MulMonotone(i + 1, n - 1, b);
    }
  }

  /** No piece is empty, no cast loses bits, and piece i+1 starts where piece i ends. */
  lemma PiecesPartition(m: TorrentMetadata, i: nat)
    requires Sound(m) && i < m.numPieces
    ensures 0 < PieceLength(m, i) <= m.pieceLength
    ensures 0 <= PieceStart(m, i)
    ensures PieceStart(m, i) + PieceLength(m, i) == if i == m.numPieces - 1 then m.totalLength else PieceStart(m, i + 1)
    ensures PieceStart(m, i) + PieceLength(m, i) <= m.totalLength
  {
    Partition(m.totalLength, m.pieceLength, m.numPieces, i);
  }

  lemma Containing(total: nat, b: int, x: nat) returns (i: nat)
    requires b >= 1 && x < total
    ensures i < CeilDiv(total, b) && i * b <= x < i * b + b
  {
    CeilBounds(total, b);
    i := x / b;
    assert x == i * b + x % b;
    if i >= CeilDiv(total, b) {
      MulMonotone(CeilDiv(total, b), i, b);
      assert false;
    }
  }

  /** The piece an offset of the content lies in. */
  lemma PieceAt(m: TorrentMetadata, x: nat) returns (i: nat)
    requires Sound(m) && x < m.totalLength
    ensures i < m.numPieces && PieceStart(m, i) <= x < PieceStart(m, i) + PieceLength(m, i)
  {
    i := Containing(m.totalLength, m.pieceLength, x);
    Partition(m.totalLength, m.pieceLength, m.numPieces, i);
    PiecesPartition(m, i);
  }

  /** Distinct pieces occupy disjoint ranges. */
  lemma PiecesDisjoint(m: TorrentMetadata, i: nat, j: nat)
    requires Sound(m) && i < j < m.numPieces
    ensures PieceStart(m, i) + PieceLength(m, i) <= PieceStart(m, j)
  {
    PiecesPartition(m, i);
    MulMonotone(i + 1, j, m.pieceLength);
  }

  /** Number of 16 KiB blocks in a piece of `length` bytes. */
  function BlockCount(length: nat): nat {
    CeilDiv(length, BLOCK_SIZE)
  }

  function BlockLength(length: nat, k: nat): int {
    Min(BLOCK_SIZE, length - k * BLOCK_SIZE)
  }

  /** Blocks are non-empty, follow each other and end with the piece. */
  lemma BlocksPartition(length: nat, k: nat)
    requires k < BlockCount(length)
    ensures 0 < BlockLength(length, k) <= BLOCK_SIZE
    ensures k * BLOCK_SIZE + BlockLength(length, k) == if k == BlockCount(length) - 1 then length else (k + 1) * BLOCK_SIZE
    ensures k * BLOCK_SIZE + BlockLength(length, k) <= length
  {
  }

  lemma BlockAt(length: nat, x: nat) returns (k: nat)
    requires x < length
    ensures k < BlockCount(length) && k * BLOCK_SIZE <= x < k * BLOCK_SIZE + BlockLength(length, k)
  {
    k := x / BLOCK_SIZE;
  }

  /* ---- downloaded bytes (main.cpp) ---- */

  function Downloaded(m: TorrentMetadata, have: set<nat>, n: nat): nat {
    if n == 0 then 0 else Downloaded(m, have, n - 1) + if n - 1 in have then PieceLength(m, n - 1) else 0
  }

  lemma {:induction false} DownloadedUpTo(m: TorrentMetadata, have: set<nat>, n: nat)
    requires Sound(m) && n <= m.numPieces
    ensures Downloaded(m, have, n) <= if n == m.numPieces then m.totalLength else PieceStart(m, n)
    ensures Downloaded(m, have, n) == (if n == m.numPieces then m.totalLength else PieceStart(m, n))
       <==> forall i: nat | i < n :: i in have
  {
    if n > 0 {
      DownloadedUpTo(m, have, n - 1);
      PiecesPartition(m, n - 1);
    } else {
      CeilBounds(m.totalLength, m.pieceLength);
    }
  }

  /** Bytes downloaded never exceed the total, and reach it exactly when every piece is held. */
  lemma DownloadedBounded(m: TorrentMetadata, have: set<nat>)
    requires Sound(m)
    ensures Downloaded(m, have, m.numPieces) <= m.totalLength
    ensures Downloaded(m, have, m.numPieces) == m.totalLength <==> forall i: nat | i < m.numPieces :: i in have
  {
    DownloadedUpTo(m, have, m.numPieces);
  }

  /** The content offsets below `bound` that lie in held pieces. */
  ghost function HeldOffsets(m: TorrentMetadata, have: set<nat>, bound: nat): set<nat>
    requires m.pieceLength >= 1
  {
    set x: nat | x < bound && x / m.pieceLength in have
  }

  lemma QuotientIs(x: nat, b: int, q: nat)
    requires b >= 1 && q * b <= x < q * b + b
    ensures x / b == q
  {
    var r := x / b;
    assert x == r * b + x % b;
    if r < q {
      MulMonotone(r + 1, q, b);
    } else if r > q {
      MulMonotone(q + 1, r, b);
    }
  }

  lemma {:induction false} HeldGrow(m: TorrentMetadata, have: set<nat>, q: nat, a: nat, k: nat)
    requires m.pieceLength >= 1 && q * m.pieceLength <= a && a + k <= q * m.pieceLength + m.pieceLength
    ensures |HeldOffsets(m, have, a + k)| == |HeldOffsets(m, have, a)| + if q in have then k else 0
    decreases k
  {
    if k > 0 {
      var x := a + k - 1;
      HeldGrow(m, have, q, a, k - 1);
      QuotientIs(x, m.pieceLength, q);
      assert HeldOffsets(m, have, x + 1) == HeldOffsets(m, have, x) + if q in have then {x} else {};
    }
  }

  /** The first piece starts the content, and every piece but the last is a whole one. */
  lemma WholePieces(m: TorrentMetadata, i: nat)
    requires Sound(m) && i < m.numPieces - 1
    ensures PieceStart(m, 0) == 0 && PieceLength(m, i) == m.pieceLength
  {
  }

  lemma {:induction false} DownloadedTo(m: TorrentMetadata, have: set<nat>, n: nat)
    requires Sound(m) && n <= m.numPieces
    ensures 0 <= PieceStart(m, n)
    ensures Downloaded(m, have, n) == |HeldOffsets(m, have, if n == m.numPieces then m.totalLength else PieceStart(m, n))|
  {
    hide PrefixOffsets, SumLengths, PieceLength, HeldOffsets;
    if n > 0 {
      DownloadedTo(m, have, n - 1);
      PiecesPartition(m, n - 1);
      HeldGrow(m, have, n - 1, PieceStart(m, n - 1), PieceLength(m, n - 1));
    } else {
      CeilBounds(m.totalLength, m.pieceLength);
      NoOffsets(m, have);
    }
  }

  lemma NoOffsets(m: TorrentMetadata, have: set<nat>)
    requires m.pieceLength >= 1
    ensures HeldOffsets(m, have, 0) == {}
  {
  }

  /** Bytes downloaded are the content offsets that lie in held pieces. */
  lemma DownloadedCounts(m: TorrentMetadata, have: set<nat>)
    requires Sound(m)
    ensures Downloaded(m, have, m.numPieces) == |HeldOffsets(m, have, m.totalLength)|
  {
    DownloadedTo(m, have, m.numPieces);
  }
}
