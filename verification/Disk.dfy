/**
 Piece storage over several files (disk_io.cpp). The files together stand for one byte string,
 `Concat(files)`; a piece write is one overwrite of it and a piece read one slice, whatever the
 number and sizes of the files a piece spans.

 Preallocation has happened and file operations succeed; `sha1` is any function to digests.
 */
module Disk {
  import opened Bytes
  import opened Geometry

  function Concat(files: seq<seq<byte>>): seq<byte> {
    if files == [] then [] else Concat(files[..|files| - 1]) + files[|files| - 1]
  }

  /** One preallocated file per metadata entry, of the length the entry gives. */
  ghost predicate LaidOut(files: seq<seq<byte>>, infos: seq<FileInfo>) {
    && |files| == |infos|
    && forall k | 0 <= k < |files| :: |files[k]| == infos[k].length
  }

  /** The bytes of piece `i` within the whole content. */
  function PieceSlice(content: seq<byte>, m: TorrentMetadata, i: nat): seq<byte>
    requires i * m.pieceLength >= 0 && PieceStart(m, i) + PieceLength(m, i) <= |content|
  {
    content[PieceStart(m, i)..PieceStart(m, i) + PieceLength(m, i)]
  }

  lemma {:induction false} ConcatLength(files: seq<seq<byte>>, infos: seq<FileInfo>)
    requires LaidOut(files, infos)
    ensures |Concat(files)| == SumLengths(infos)
  {
    if files != [] {
      ConcatLength(files[..|files| - 1], infos[..|infos| - 1]);
    }
  }

  /** File `k` is the slice of the content at its prefix-sum offset. */
  lemma {:induction false} ConcatAt(files: seq<seq<byte>>, infos: seq<FileInfo>, k: nat)
    requires LaidOut(files, infos) && k < |files|
    ensures 0 <= SumLengths(infos[..k]) && SumLengths(infos[..k]) + |files[k]| <= |Concat(files)|
    ensures Concat(files)[SumLengths(infos[..k])..SumLengths(infos[..k]) + |files[k]|] == files[k]
  {
    var n := |files| - 1;
    ConcatLength(files[..n], infos[..n]);
    if k < n {
      ConcatAt(files[..n], infos[..n], k);
      assert infos[..n][..k] == infos[..k];
      assert Concat(files)[..|Concat(files[..n])|] == Concat(files[..n]);
    }
  }

  /** Each file has `data` laid over it as far as the range at `at` reaches into it. */
  ghost predicate Written(before: seq<seq<byte>>, after: seq<seq<byte>>, infos: seq<FileInfo>, at: int, data: seq<byte>) {
    && |after| == |before| == |infos|
    && forall k | 0 <= k < |before| :: after[k] == Overwrite(before[k], at - SumLengths(infos[..k]), data)
  }

  /** The state of `write_piece`'s loop before file `n`. */
  ghost predicate WrittenBelow(before: seq<seq<byte>>, now: seq<seq<byte>>, infos: seq<FileInfo>, at: int, data: seq<byte>,
                               n: nat) {
    && |now| == |before| == |infos|
    && (forall k | 0 <= k < n && k < |before| :: now[k] == Overwrite(before[k], at - infos[k].offset, data))
    && forall k | n <= k < |before| :: now[k] == before[k]
  }

  lemma WrittenStep(before: seq<seq<byte>>, now: seq<seq<byte>>, infos: seq<FileInfo>, at: int, data: seq<byte>,
                    n: nat, file: seq<byte>)
    requires n < |before| && WrittenBelow(before, now, infos, at, data, n)
    requires file == Overwrite(before[n], at - infos[n].offset, data)
    ensures WrittenBelow(before, now[n := file], infos, at, data, n + 1)
  {
  }

  lemma WrittenAll(before: seq<seq<byte>>, after: seq<seq<byte>>, infos: seq<FileInfo>, at: int, data: seq<byte>)
    requires PrefixOffsets(infos) && WrittenBelow(before, after, infos, at, data, |infos|)
    ensures Written(before, after, infos, at, data)
  {
    hide Overwrite, SumLengths;
    forall k | 0 <= k < |before| ensures infos[k].offset == SumLengths(infos[..k]) {
    }
  }

  lemma WrittenPrefix(before: seq<seq<byte>>, after: seq<seq<byte>>, infos: seq<FileInfo>, at: int, data: seq<byte>)
    requires Written(before, after, infos, at, data) && before != []
    ensures Written(before[..|before| - 1], after[..|before| - 1], infos[..|before| - 1], at, data)
  {
    var n := |before| - 1;
    forall k | 0 <= k < n
      ensures after[..n][k] == Overwrite(before[..n][k], at - SumLengths(infos[..n][..k]), data)
    {
      assert infos[..n][..k] == infos[..k];
    }
  }

  /** Overwriting each file at its own offset overwrites the whole content once. */
  lemma {:induction false} ConcatOverwrite(before: seq<seq<byte>>, after: seq<seq<byte>>, infos: seq<FileInfo>,
                                           at: int, data: seq<byte>)
    requires LaidOut(before, infos) && Written(before, after, infos, at, data)
    ensures Concat(after) == Overwrite(Concat(before), at, data)
  {
    if before != [] {
      var n := |before| - 1;
      WrittenPrefix(before, after, infos, at, data);
      ConcatOverwrite(before[..n], after[..n], infos[..n], at, data);
      ConcatLength(before[..n], infos[..n]);
      OverwriteSplit(Concat(before[..n]), before[n], at, data);
    }
  }

  lemma OverwriteSplit(a: seq<byte>, b: seq<byte>, at: int, data: seq<byte>)
    ensures Overwrite(a + b, at, data) == Overwrite(a, at, data) + Overwrite(b, at - |a|, data)
  {
  }

  /** Reading back what was written, at any in-range position. */
  lemma ReadAfterWrite(content: seq<byte>, at: nat, data: seq<byte>)
    requires at + |data| <= |content|
    ensures Overwrite(content, at, data)[at..at + |data|] == data
  {
  }

  lemma ReadBeside(content: seq<byte>, at: nat, data: seq<byte>, lo: nat, hi: nat)
    requires lo <= hi <= |content| && (hi <= at || at + |data| <= lo)
    ensures Overwrite(content, at, data)[lo..hi] == content[lo..hi]
  {
  }

  /** Writing piece `i` stores it and leaves every other piece as it was. */
  lemma WriteKeepsOtherPieces(content: seq<byte>, m: TorrentMetadata, i: nat, data: seq<byte>, j: nat)
    requires Sound(m) && |content| == m.totalLength
    requires i < m.numPieces && j < m.numPieces && |data| == PieceLength(m, i)
    ensures 0 <= PieceStart(m, j) && PieceStart(m, j) + PieceLength(m, j) <= m.totalLength
    ensures PieceSlice(Overwrite(content, PieceStart(m, i), data), m, j)
         == if i == j then data else PieceSlice(content, m, j)
  {
    PiecesPartition(m, i);
    PiecesPartition(m, j);
    var at, lo, hi := PieceStart(m, i), PieceStart(m, j), PieceStart(m, j) + PieceLength(m, j);
    if i == j {
      ReadAfterWrite(content, at, data);
    } else {
      if i < j {
        PiecesDisjoint(m, i, j);
      } else {
        PiecesDisjoint(m, j, i);
      }
      ReadBeside(content, at, data, lo, hi);
    }
  }

  /** Writes of different pieces commute. */
  lemma WritesCommute(content: seq<byte>, m: TorrentMetadata, i: nat, a: seq<byte>, j: nat, b: seq<byte>)
    requires Sound(m) && i < m.numPieces && j < m.numPieces && i != j
    requires |a| == PieceLength(m, i) && |b| == PieceLength(m, j)
    ensures Overwrite(Overwrite(content, PieceStart(m, i), a), PieceStart(m, j), b)
         == Overwrite(Overwrite(content, PieceStart(m, j), b), PieceStart(m, i), a)
  {
    if i < j {
      PiecesDisjoint(m, i, j);
    } else {
      PiecesDisjoint(m, j, i);
    }
  }

  /** Content that agrees with `other` on every piece is `other`. */
  lemma EqualByPieces(content: seq<byte>, other: seq<byte>, m: TorrentMetadata)
    requires Sound(m) && |content| == |other| == m.totalLength
    requires forall i: nat | i < m.numPieces ::
               0 <= PieceStart(m, i) && PieceStart(m, i) + PieceLength(m, i) <= m.totalLength
               && PieceSlice(content, m, i) == PieceSlice(other, m, i)
    ensures content == other
  {
    forall x | 0 <= x < m.totalLength ensures content[x] == other[x] {
      var i := PieceAt(m, x);
      var y := x - PieceStart(m, i);
      assert PieceSlice(content, m, i)[y] == content[x];
      assert PieceSlice(other, m, i)[y] == other[x];
    }
  }

  /** Overlaying `len` bytes of `data` from position `inData`, where the overlap starts. */
  method WriteAt(file: seq<byte>, inFile: nat, data: seq<byte>, inData: nat, len: nat) returns (now: seq<byte>)
    requires inFile + len <= |file| && inData + len <= |data|
    requires inFile == 0 || inData == 0
    requires inFile + len == |file| || inData + len == |data|
    ensures now == Overwrite(file, inFile - inData, data)
  {
    now := file[..inFile] + data[inData..inData + len] + file[inFile + len..];
  }

  method ReadAt(file: seq<byte>, inFile: nat, data: array<byte>, inData: nat, len: nat)
    requires inFile + len <= |file| && inData + len <= data.Length
    modifies data
    ensures data[..] == old(data[..inData]) + file[inFile..inFile + len] + old(data[inData + len..])
  {
    forall y | 0 <= y < len {
      data[inData + y] := file[inFile + y];
    }
    assert forall x | inData <= x < inData + len :: data[x] == data[inData + (x - inData)];
  }

  /** The buffer holds the content from `start` as far as the files before `upTo` go. */
  ghost predicate ReadUpTo(data: seq<byte>, content: seq<byte>, start: nat, upTo: int)
    requires start + |data| <= |content|
  {
    forall x | 0 <= x < |data| && start + x < upTo :: data[x] == content[start + x]
  }

  lemma ReadOneFile(before: seq<byte>, after: seq<byte>, content: seq<byte>, start: nat, file: seq<byte>, fileStart: nat)
    requires start + |before| <= |content| && |after| == |before|
    requires fileStart + |file| <= |content| && content[fileStart..fileStart + |file|] == file
    requires ReadUpTo(before, content, start, fileStart)
    requires fileStart < start + |before| && start < fileStart + |file|
    requires var lo, hi := Max(start, fileStart), Min(start + |before|, fileStart + |file|);
             after == before[..lo - start] + file[lo - fileStart..hi - fileStart] + before[hi - start..]
    ensures ReadUpTo(after, content, start, fileStart + |file|)
  {
    forall x | 0 <= x < |after| && start + x < fileStart + |file|
      ensures after[x] == content[start + x]
    {
      if start + x >= fileStart {
        assert file[start + x - fileStart] == content[fileStart + (start + x - fileStart)];
      }
    }
  }

  /** One round of `read_piece`'s loop: copy the part of the piece that lies in this file, if any. */
  method ReadOverlap(file: seq<byte>, fileStart: nat, fileEnd: nat, start: nat, data: array<byte>, ghost content: seq<byte>)
    requires fileEnd == fileStart + |file| <= |content| && content[fileStart..fileEnd] == file
    requires start + data.Length <= |content| && ReadUpTo(data[..], content, start, fileStart)
    modifies data
    ensures ReadUpTo(data[..], content, start, fileEnd)
  {
    if start + data.Length <= fileStart || start >= fileEnd {
      return;
    }
    var overlapStart := Max(start, fileStart);
    var overlapEnd := Min(start + data.Length, fileEnd);
    ghost var before := data[..];
    ReadAt(file, overlapStart - fileStart, data, overlapStart - start, overlapEnd - overlapStart);
    ReadOneFile(before, data[..], content, start, file, fileStart);
  }

  class DiskIOManager {
    const metadata: TorrentMetadata
    const sha1: seq<byte> -> Digest
    var files: seq<seq<byte>>

    ghost predicate Valid()
      reads this
    {
      Sound(metadata) && LaidOut(files, metadata.files)
    }

    /** What the files hold, as one byte string. */
    function Content(): (content: seq<byte>)
      reads this
    {
      Concat(files)
    }

    lemma ContentLength()
      requires Valid()
      ensures |Content()| == metadata.totalLength
    {
      ConcatLength(files, metadata.files);
    }

    constructor (metadata: TorrentMetadata, sha1: seq<byte> -> Digest, files: seq<seq<byte>>)
      requires Sound(metadata) && LaidOut(files, metadata.files)
      ensures Valid() && this.metadata == metadata && this.sha1 == sha1 && this.files == files
    {
      this.metadata := metadata;
      this.sha1 := sha1;
      this.files := files;
    }

    /** False stands for the out-of-range exception. */
    method WritePiece(pieceIdx: nat, data: seq<byte>) returns (ok: bool)
      requires Valid()
      modifies this
      ensures Valid()
      ensures ok <==> pieceIdx < metadata.numPieces
      ensures Content() == if ok then Overwrite(old(Content()), PieceStart(metadata, pieceIdx), data) else old(Content())
    {
      if pieceIdx >= metadata.numPieces {
        return false;
      }
      var globalOffset := pieceIdx * metadata.pieceLength;
      WriteFiles(globalOffset, data);
      return true;
    }

    method WriteFiles(globalOffset: int, data: seq<byte>)
      requires LaidOut(files, metadata.files) && PrefixOffsets(metadata.files)
      modifies this
      ensures LaidOut(files, metadata.files)
      ensures Content() == Overwrite(old(Content()), globalOffset, data)
    {
      hide Overwrite, PrefixOffsets, Written, Concat;
      var infos := metadata.files;
      ghost var before := files;
      for k := 0 to |infos|
        invariant LaidOut(files, infos)
        invariant WrittenBelow(before, files, infos, globalOffset, data, k)
      {
        var fileStart := infos[k].offset;
        var fileEnd := infos[k].offset + infos[k].length;
        if globalOffset + |data| <= fileStart || globalOffset >= fileEnd {
          NoOverlap(files[k], globalOffset - fileStart, data);
          WrittenStep(before, files, infos, globalOffset, data, k, files[k]);
          continue;
        }
        var overlapStart := Max(globalOffset, fileStart);
        var overlapEnd := Min(globalOffset + |data|, fileEnd);
        var len := overlapEnd - overlapStart;
        var now := WriteAt(files[k], overlapStart - fileStart, data, overlapStart - globalOffset, len);
        WrittenStep(before, files, infos, globalOffset, data, k, now);
        files := files[k := now];
      }
      WrittenAll(before, files, infos, globalOffset, data);
      ConcatOverwrite(before, files, infos, globalOffset, data);
    }

    /** `None` stands for the out-of-range exception. */
    method ReadPiece(pieceIdx: nat) returns (r: Option<seq<byte>>)
      requires Valid()
      ensures r.Some? <==> pieceIdx < metadata.numPieces
      ensures r.Some? ==>
                && 0 <= PieceStart(metadata, pieceIdx)
                && PieceStart(metadata, pieceIdx) + PieceLength(metadata, pieceIdx) <= |Content()|
                && r.value == PieceSlice(Content(), metadata, pieceIdx)
    {
      if pieceIdx >= metadata.numPieces {
        return None;
      }
      PiecesPartition(metadata, pieceIdx);
      ContentLength();
      var globalOffset := pieceIdx * metadata.pieceLength;
      var pieceSize := metadata.pieceLength;
      if pieceIdx == metadata.numPieces - 1 {
        pieceSize := metadata.totalLength - (metadata.numPieces - 1) * metadata.pieceLength;
      }
      var data := new byte[pieceSize](_ => 0);
      ReadFiles(globalOffset, data);
      return Some(data[..]);
    }

    method ReadFiles(globalOffset: nat, data: array<byte>)
      requires LaidOut(files, metadata.files) && PrefixOffsets(metadata.files)
      requires globalOffset + data.Length <= |Content()|
      modifies data
      ensures data[..] == Content()[globalOffset..globalOffset + data.Length]
    {
      ghost var content := Content();
      ConcatLength(files, metadata.files);
      var infos := metadata.files;
      for k := 0 to |infos|
        invariant ReadUpTo(data[..], content, globalOffset, SumLengths(infos[..k]))
      {
        assert infos[..k + 1][..k] == infos[..k];
        ConcatAt(files, infos, k);
        ReadOverlap(files[k], infos[k].offset, infos[k].offset + infos[k].length, globalOffset, data, content);
      }
      assert infos[..|infos|] == infos;
    }

    method VerifyPiece(pieceIdx: nat) returns (ok: bool)
      requires Valid()
      ensures ok ==> pieceIdx < metadata.numPieces
      ensures pieceIdx < metadata.numPieces ==>
                && 0 <= PieceStart(metadata, pieceIdx)
                && PieceStart(metadata, pieceIdx) + PieceLength(metadata, pieceIdx) <= |Content()|
                && (ok <==> sha1(PieceSlice(Content(), metadata, pieceIdx)) == metadata.pieceHashes[pieceIdx])
    {
      if pieceIdx >= metadata.numPieces {
        return false;
      }
      var data := ReadPiece(pieceIdx);
      return sha1(data.value) == metadata.pieceHashes[pieceIdx];
    }
  }

  lemma NoOverlap(file: seq<byte>, at: int, data: seq<byte>)
    requires at + |data| <= 0 || at >= |file|
    ensures Overwrite(file, at, data) == file
  {
  }
}
