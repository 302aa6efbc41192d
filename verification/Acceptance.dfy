/**
 What `from_bencode` makes of a torrent file, field by field, told from the entries of its dictionaries
 alone; and exactly which files it accepts.
 */
module Acceptance {
  import opened Bytes
  import opened Bencode
  import opened Geometry
  import opened Metainfo

  /* ---- dictionary entries ---- */

  /** The dictionary has an entry with this key and value. */
  ghost predicate Has(entries: seq<Entry>, key: seq<byte>, v: Value) {
    exists k :: 0 <= k < |entries| && entries[k] == Entry(key, v)
  }

  ghost predicate Lacks(entries: seq<Entry>, key: seq<byte>) {
    forall k | 0 <= k < |entries| :: entries[k].key != key
  }

  lemma {:induction false} LookupIs(entries: seq<Entry>, key: seq<byte>)
    requires Ascending(entries)
    ensures Lookup(entries, key) == None <==> Lacks(entries, key)
    ensures forall v :: Lookup(entries, key) == Some(v) <==> Has(entries, key, v)
  {
    FoundIsEntry(entries, key);
    forall k | 0 <= k < |entries| && entries[k].key == key ensures Lookup(entries, key) == Some(entries[k].value) {
      LookupFinds(entries, k);
    }
  }

  lemma {:induction false} FoundIsEntry(entries: seq<Entry>, key: seq<byte>)
    ensures Lookup(entries, key).Some? ==> Has(entries, key, Lookup(entries, key).value)
    ensures Lookup(entries, key).None? ==> Lacks(entries, key)
  {
    if entries != [] {
      var n := |entries| - 1;
      FoundIsEntry(entries[..n], key);
      if entries[n].key == key {
        assert entries[n] == Entry(key, entries[n].value);
      } else if Lookup(entries[..n], key).Some? {
        var v := Lookup(entries[..n], key).value;
        var k :| 0 <= k < n && entries[..n][k] == Entry(key, v);
        assert entries[k] == Entry(key, v);
      }
    }
  }

  /** The keys as texts. */
  lemma KeyTexts()
    ensures KEY_ANNOUNCE == Ascii("announce") && KEY_ANNOUNCE_LIST == Ascii("announce-list") && KEY_INFO == Ascii("info")
    ensures KEY_FILES == Ascii("files") && KEY_LENGTH == Ascii("length") && KEY_PATH == Ascii("path")
    ensures KEY_PIECE_LENGTH == Ascii("piece length") && KEY_NAME == Ascii("name") && KEY_PIECES == Ascii("pieces")
  {
    KeyTextsOfRoot();
    KeyTextsOfFiles();
    KeyTextsOfInfo();
  }

  lemma KeyTextsOfRoot()
    ensures KEY_ANNOUNCE == Ascii("announce") && KEY_ANNOUNCE_LIST == Ascii("announce-list") && KEY_INFO == Ascii("info")
  {
  }

  lemma KeyTextsOfFiles()
    ensures KEY_FILES == Ascii("files") && KEY_LENGTH == Ascii("length") && KEY_PATH == Ascii("path")
  {
  }

  lemma KeyTextsOfInfo()
    ensures KEY_PIECE_LENGTH == Ascii("piece length") && KEY_NAME == Ascii("name") && KEY_PIECES == Ascii("pieces")
  {
  }

  /* ---- digests ---- */

  /** Piece `i`'s digest is the `i`-th group of twenty bytes. */
  lemma {:induction false} HashAt(pieces: seq<byte>, i: nat)
    requires |pieces| % 20 == 0 && 20 * i < |pieces|
    ensures i < |HashesOf(pieces)| == |pieces| / 20
    ensures HashesOf(pieces)[i] == pieces[20 * i..20 * i + 20]
  {
    HashCount(pieces);
    var n := |pieces| - 20;
    HashCount(pieces[..n]);
    if 20 * i < n {
      HashAt(pieces[..n], i);
      assert pieces[..n][20 * i..20 * i + 20] == pieces[20 * i..20 * i + 20];
    } else {
      assert 20 * i == n;
    }
  }

  ghost predicate HashesFrom(hashes: seq<Digest>, pieces: seq<byte>) {
    && |pieces| == 20 * |hashes|
    && forall i | 0 <= i < |hashes| :: hashes[i] == pieces[20 * i..20 * i + 20]
  }

  lemma AllHashes(pieces: seq<byte>)
    requires |pieces| % 20 == 0
    ensures HashesFrom(HashesOf(pieces), pieces)
  {
    HashCount(pieces);
    forall i | 0 <= i < |HashesOf(pieces)| ensures HashesOf(pieces)[i] == pieces[20 * i..20 * i + 20] {
      HashAt(pieces, i);
    }
  }

  /* ---- files ---- */

  /** Segments joined by slashes. */
  function Slashed(segments: seq<Value>): seq<byte>
    requires forall k | 0 <= k < |segments| :: segments[k].Str?
  {
    if segments == [] then []
    else if |segments| == 1 then segments[0].s
    else segments[0].s + Ascii("/") + Slashed(segments[1..])
  }

  lemma {:induction false} SlashedAppend(front: seq<Value>, last: Value)
    requires (forall k | 0 <= k < |front| :: front[k].Str?) && last.Str?
    ensures Slashed(front + [last]) == if front == [] then last.s else Slashed(front) + [0x2F] + last.s
    decreases |front|
  {
    assert Ascii("/") == [0x2F];
    if |front| > 0 {
      var rest := front[1..];
      assert (front + [last])[1..] == rest + [last];
      SlashedAppend(rest, last);
      if rest != [] {
        Parts(front[0].s, Slashed(rest), last.s);
      } else {
        assert front == [front[0]];
      }
    }
  }

  lemma Parts(a: seq<byte>, b: seq<byte>, c: seq<byte>)
    ensures a + [0x2F] + (b + [0x2F] + c) == (a + [0x2F] + b) + [0x2F] + c
  {
  }

  lemma {:induction false} JoinedBySlashes(segments: seq<Value>)
    requires forall k | 0 <= k < |segments| :: segments[k].Str?
    ensures JoinPath(segments) == Slashed(segments)
  {
    if |segments| > 1 {
      var n := |segments| - 1;
      JoinedBySlashes(segments[..n]);
      SlashedAppend(segments[..n], segments[n]);
      assert segments == segments[..n] + [segments[n]];
    }
  }

  /** The dictionary describes the file: its length, and its path segments joined by slashes. */
  ghost predicate Describes(v: Value, file: FileInfo) {
    && v.Dict? && Has(v.entries, Ascii("length"), Int(file.length))
    && exists segments: seq<Value> ::
         && Has(v.entries, Ascii("path"), List(segments))
         && (forall k | 0 <= k < |segments| :: segments[k].Str?)
         && file.path == Slashed(segments)
  }

  /** The list of a multi-file torrent and the files it describes in order. */
  ghost predicate Lists(info: seq<Entry>, list: seq<Value>, files: seq<FileInfo>) {
    && Has(info, Ascii("files"), List(list)) && |list| == |files|
    && forall k | 0 <= k < |list| :: Describes(list[k], files[k])
  }

  lemma FileIs(v: Value, offset: int)
    requires v.Dict? ==> Ascending(v.entries)
    ensures IsFile(v) ==> Describes(v, FileOf(v, offset)) && FileOf(v, offset).offset == offset
  {
    hide Slashed, JoinPath, Lookup, Ascending, Has, Lacks;
    KeyTextsOfFiles();
    if v.Dict? {
      LookupIs(v.entries, KEY_LENGTH);
      LookupIs(v.entries, KEY_PATH);
    }
    if IsFile(v) {
      JoinedBySlashes(Lookup(v.entries, KEY_PATH).value.items);
    }
  }

  lemma {:induction false} FilesAre(list: seq<Value>)
    requires forall k | 0 <= k < |list| && list[k].Dict? :: Ascending(list[k].entries)
    requires FilesOf(list).Accepted?
    ensures |FilesOf(list).value| == |list|
    ensures forall k | 0 <= k < |list| :: Describes(list[k], FilesOf(list).value[k])
  {
    hide Describes, Ascending, IsFile;
    if list != [] {
      var n := |list| - 1;
      FilesAre(list[..n]);
      var front := FilesOf(list[..n]).value;
      FileIs(list[n], SumLengths(front));
      assert FilesOf(list).value == front + [FileOf(list[n], SumLengths(front))];
    }
  }

  /* ---- trackers ---- */

  /** The non-empty strings of a list, front to back. */
  function NonEmptyStrings(items: seq<Value>): seq<seq<byte>> {
    if items == [] then []
    else (if items[0].Str? && items[0].s != [] then [items[0].s] else []) + NonEmptyStrings(items[1..])
  }

  /** Those of all tiers that are lists, first tier first. */
  function TierStrings(tiers: seq<Value>): seq<seq<byte>> {
    if tiers == [] then []
    else (if tiers[0].List? then NonEmptyStrings(tiers[0].items) else []) + TierStrings(tiers[1..])
  }

  lemma {:induction false} NonEmptyAppend(front: seq<Value>, last: Value)
    ensures NonEmptyStrings(front + [last]) == NonEmptyStrings(front) + if last.Str? && last.s != [] then [last.s] else []
    decreases |front|
  {
    if front == [] {
      assert [last][1..] == [];
    } else {
      NonEmptyAppend(front[1..], last);
      assert (front + [last])[1..] == front[1..] + [last];
    }
  }

  lemma {:induction false} TierAppend(front: seq<Value>, last: Value)
    ensures TierStrings(front + [last]) == TierStrings(front) + if last.List? then NonEmptyStrings(last.items) else []
    decreases |front|
  {
    if front == [] {
      assert [last][1..] == [];
    } else {
      TierAppend(front[1..], last);
      assert (front + [last])[1..] == front[1..] + [last];
    }
  }

  lemma {:induction false} TierIs(items: seq<Value>)
    ensures TierOf(items) == NonEmptyStrings(items)
  {
    if items != [] {
      var n := |items| - 1;
      TierIs(items[..n]);
      NonEmptyAppend(items[..n], items[n]);
      assert items == items[..n] + [items[n]];
    }
  }

  lemma {:induction false} TiersAre(tiers: seq<Value>)
    ensures TiersOf(tiers) == TierStrings(tiers)
  {
    hide NonEmptyStrings, TierOf;
    if tiers != [] {
      var n := |tiers| - 1;
      TiersAre(tiers[..n]);
      TierAppend(tiers[..n], tiers[n]);
      assert tiers == tiers[..n] + [tiers[n]];
      if tiers[n].List? {
        TierIs(tiers[n].items);
      }
    }
  }

  /** The trackers of a root dictionary: those of its tiers, or the announce URL if there is none. */
  ghost predicate TrackersFrom(root: seq<Entry>, announce: seq<byte>, trackers: seq<seq<byte>>) {
    || (exists tiers ::
          Has(root, Ascii("announce-list"), List(tiers)) && TierStrings(tiers) != [] && trackers == TierStrings(tiers))
    || (trackers == [announce]
        && forall tiers :: Has(root, Ascii("announce-list"), List(tiers)) ==> TierStrings(tiers) == [])
  }

  /* ---- the whole file ---- */

  /** Each field of the metadata, told from the info dictionary. */
  ghost predicate FromInfo(m: TorrentMetadata, info: seq<Entry>) {
    && Has(info, Ascii("piece length"), Int(m.pieceLength)) && Has(info, Ascii("name"), Str(m.name))
    && (exists pieces :: Has(info, Ascii("pieces"), Str(pieces)) && HashesFrom(m.pieceHashes, pieces))
    && m.numPieces == ToInt32(|m.pieceHashes|)
    && PrefixOffsets(m.files) && m.totalLength == SumLengths(m.files)
    && (if Lacks(info, Ascii("files"))
        then |m.files| == 1 && m.files[0].path == m.name && Has(info, Ascii("length"), Int(m.files[0].length))
        else exists list :: Lists(info, list, m.files))
  }

  /** Every field of accepted metadata, told from the entries of the root and info dictionaries. */
  ghost predicate FieldsFrom(m: TorrentMetadata, root: seq<Entry>, sha1: seq<byte> -> Digest) {
    && m.announceUrl != [] && Has(root, Ascii("announce"), Str(m.announceUrl))
    && TrackersFrom(root, m.announceUrl, m.announceList)
    && exists info ::
         Has(root, Ascii("info"), Dict(info)) && m.infoHash == sha1(Encode(Dict(info))) && FromInfo(m, info)
  }

  lemma ParsedAscends(info: seq<Entry>)
    requires EntriesParseable(info)
    ensures Ascending(info)
  {
  }

  lemma ParsedFiles(info: seq<Entry>, list: seq<Value>)
    requires EntriesParseable(info) && Lookup(info, KEY_FILES) == Some(List(list))
    ensures forall k | 0 <= k < |list| && list[k].Dict? :: Ascending(list[k].entries)
  {
    hide Ascending;
    FoundIsEntry(info, KEY_FILES);
    var j :| 0 <= j < |info| && info[j] == Entry(KEY_FILES, List(list));
    assert Parseable(info[j].value);
  }

  lemma InfoFields(info: seq<Entry>, announce: seq<byte>, trackers: seq<seq<byte>>, infoHash: Digest)
    requires EntriesParseable(info) && InfoMetadata(info, announce, trackers, infoHash).Accepted?
    ensures var m := InfoMetadata(info, announce, trackers, infoHash).value;
            FromInfo(m, info) && m.announceUrl == announce && m.announceList == trackers && m.infoHash == infoHash
  {
    hide Lookup, Ascending, Has, Lacks, HashesFrom, HashesOf, Describes, FilesOf, PieceCount, PrefixOffsets, SumLengths,
      EntriesParseable, ToInt32;
    ParsedAscends(info);
    KeyTexts();
    LookupIs(info, KEY_PIECE_LENGTH);
    LookupIs(info, KEY_NAME);
    LookupIs(info, KEY_PIECES);
    LookupIs(info, KEY_FILES);
    LookupIs(info, KEY_LENGTH);
    AcceptedInfo(info, announce, trackers, infoHash);
    var m := InfoMetadata(info, announce, trackers, infoHash).value;
    var pieces := Lookup(info, KEY_PIECES).value.s;
    AllHashes(pieces);
    assert Has(info, Ascii("pieces"), Str(pieces)) && HashesFrom(m.pieceHashes, pieces);
    if Lookup(info, KEY_FILES).Some? {
      var list := Lookup(info, KEY_FILES).value.items;
      ParsedFiles(info, list);
      FilesAre(list);
      assert Lists(info, list, m.files);
    } else {
      assert m.files == [FileInfo(m.name, m.files[0].length, 0)];
    }
  }

  lemma TrackersAre(root: seq<Entry>, announce: seq<byte>)
    requires Ascending(root)
    ensures TrackersFrom(root, announce, if AnnounceListOf(root) == [] then [announce] else AnnounceListOf(root))
  {
    hide Lookup, Ascending, Has, Lacks, TiersOf, TierStrings;
    KeyTextsOfRoot();
    LookupIs(root, KEY_ANNOUNCE_LIST);
    var listed := AnnounceListOf(root);
    if exists tiers :: Has(root, Ascii("announce-list"), List(tiers)) {
      var tiers :| Has(root, Ascii("announce-list"), List(tiers));
      TiersAre(tiers);
      assert listed == TierStrings(tiers);
    }
  }

  /**
   Every field of the metadata that comes out of a torrent file: digests by twenty-byte groups, paths by
   segments joined with slashes, lengths, running offsets, trackers tier by tier, and the hash of the info
   value's own encoding.
   */
  lemma AcceptedFields(root: seq<Entry>, sha1: seq<byte> -> Digest)
    requires EntriesParseable(root) && MetadataOf(root, sha1).Accepted?
    ensures FieldsFrom(MetadataOf(root, sha1).value, root, sha1)
  {
    hide Lookup, Ascending, Has, FromInfo, TrackersFrom, AnnounceListOf, EntriesParseable, InfoMetadata;
    ParsedAscends(root);
    KeyTextsOfRoot();
    LookupIs(root, KEY_ANNOUNCE);
    LookupIs(root, KEY_INFO);
    var announce := AnnounceOf(root).value;
    var info := InfoOf(root).entries;
    ParsedInfo(root, info);
    TrackersAre(root, announce);
    var trackers := if AnnounceListOf(root) == [] then [announce] else AnnounceListOf(root);
    InfoFields(info, announce, trackers, sha1(Encode(InfoOf(root))));
  }

  lemma ParsedInfo(root: seq<Entry>, info: seq<Entry>)
    requires EntriesParseable(root) && InfoOf(root) == Dict(info)
    ensures EntriesParseable(info) && Ascending(info)
  {
    FoundIsEntry(root, KEY_INFO);
    var j :| 0 <= j < |root| && root[j] == Entry(KEY_INFO, Dict(info));
    assert Parseable(root[j].value);
  }

  /* ---- exactly which files are accepted ---- */

  /** C++ division: what it takes away has the sign of the dividend and is smaller than the divisor. */
  lemma TruncDivIs(a: int, b: int)
    requires b != 0
    ensures var r := a - TruncDiv(a, b) * b;
            && (if b > 0 then -b < r < b else b < r < -b)
            && (a >= 0 ==> r >= 0) && (a <= 0 ==> r <= 0)
  {
    if a >= 0 && b > 0 {
      EuclidIs(a, b);
    } else if a >= 0 {
      EuclidIs(a, -b);
      Signs(a / -b, b);
    } else if b > 0 {
      EuclidIs(-a, b);
      Signs(-a / b, b);
    } else {
      EuclidIs(-a, -b);
      Signs(-a / -b, b);
    }
  }

  lemma EuclidIs(a: nat, b: nat)
    requires b > 0
    ensures 0 <= a - (a / b) * b < b
  {
    assert a == (a / b) * b + a % b;
  }

  lemma Signs(q: int, b: int)
    ensures (-q) * b == -(q * b) && q * -b == -(q * b)
  {
  }

  /** The running offsets of the files stay in int64. */
  ghost predicate SumsFit(files: seq<FileInfo>) {
    forall k | 0 <= k <= |files| :: FitsInt64(SumLengths(files[..k]))
  }

  lemma {:induction false} AcceptedSumsFit(list: seq<Value>)
    requires FilesOf(list).Accepted?
    ensures SumsFit(FilesOf(list).value)
  {
    hide IsFile;
    if list == [] {
      assert SumLengths([]) == 0;
    } else {
      var n := |list| - 1;
      AcceptedSumsFit(list[..n]);
      var front, files := FilesOf(list[..n]).value, FilesOf(list).value;
      assert files[..n] == front && files[..n + 1] == files;
      assert forall k | 0 <= k <= n :: files[..k] == front[..k];
    }
  }

  /** A file that a dictionary describes is the one read from it. */
  lemma DescribedIsRead(v: Value, file: FileInfo)
    requires Describes(v, file) && Ascending(v.entries)
    ensures IsFile(v) && FileOf(v, file.offset) == file
  {
    hide Slashed, JoinPath, Lookup, Ascending, Has, Lacks;
    KeyTextsOfFiles();
    LookupIs(v.entries, KEY_LENGTH);
    LookupIs(v.entries, KEY_PATH);
    JoinedBySlashes(Lookup(v.entries, KEY_PATH).value.items);
  }

  lemma AllButLast(files: seq<FileInfo>)
    requires files != [] && PrefixOffsets(files) && SumsFit(files)
    ensures var n := |files| - 1;
            && PrefixOffsets(files[..n]) && SumsFit(files[..n]) && files[n].offset == SumLengths(files[..n])
            && FitsInt64(SumLengths(files[..n]) + files[n].length)
  {
    var n := |files| - 1;
    var front := files[..n];
    assert files[..n + 1] == files;
    forall k | 0 <= k <= n ensures front[..k] == files[..k] {
    }
  }

  /** Files described in order, with running offsets inside int64, are the ones read. */
  lemma {:induction false} DescribedAreRead(list: seq<Value>, files: seq<FileInfo>)
    requires |list| == |files| && PrefixOffsets(files) && SumsFit(files)
    requires forall k | 0 <= k < |list| :: Describes(list[k], files[k])
    requires forall k | 0 <= k < |list| && list[k].Dict? :: Ascending(list[k].entries)
    ensures FilesOf(list) == Accepted(files)
    decreases |list|
  {
    hide Describes, IsFile, Ascending, PrefixOffsets, SumsFit, SumLengths, FileOf;
    if list == [] {
      assert files == [];
    } else {
      hide FilesOf;
      var n := |list| - 1;
      AllButLast(files);
      DescribedAreRead(list[..n], files[..n]);
      assert Describes(list[n], files[n]);
      DescribedDict(list[n], files[n]);
      DescribedIsRead(list[n], files[n]);
      FilesStep(list, n, files[..n]);
      assert list[..n + 1] == list && files[..n] + [files[n]] == files;
      assert FileOf(list[n], SumLengths(files[..n])) == files[n];
    }
  }

  lemma DescribedDict(v: Value, file: FileInfo)
    requires Describes(v, file)
    ensures v.Dict?
  {
  }

  /** The file table an info dictionary gives: one file of the torrent's name, or the list's files with running offsets. */
  ghost predicate Tabled(info: seq<Entry>, name: seq<byte>, files: seq<FileInfo>) {
    if Lacks(info, Ascii("files")) then
      |files| == 1 && files[0].path == name && files[0].offset == 0 && Has(info, Ascii("length"), Int(files[0].length))
    else
      PrefixOffsets(files) && SumsFit(files) && exists list :: Lists(info, list, files)
  }

  lemma ListIsRead(info: seq<Entry>, list: seq<Value>, files: seq<FileInfo>)
    requires EntriesParseable(info) && Lookup(info, KEY_FILES) == Some(List(list)) && Has(info, Ascii("files"), List(list))
    ensures PrefixOffsets(files) && SumsFit(files) && Lists(info, list, files) <==> FilesOf(list) == Accepted(files)
  {
    hide Lookup, Has, Describes, PrefixOffsets, SumsFit, EntriesParseable, FilesOf, Ascending;
    ParsedFiles(info, list);
    if FilesOf(list) == Accepted(files) {
      FilesAre(list);
      FilesHavePrefixOffsets(list);
      AcceptedSumsFit(list);
    }
    if PrefixOffsets(files) && SumsFit(files) && Lists(info, list, files) {
      DescribedAreRead(list, files);
    }
  }

  lemma TabledIff(info: seq<Entry>, name: seq<byte>, files: seq<FileInfo>)
    requires EntriesParseable(info)
    ensures Tabled(info, name, files) <==> FileTableOf(info, name) == Accepted(files)
  {
    hide Lookup, Has, Lacks, FilesOf, PrefixOffsets, SumsFit, EntriesParseable, Lists;
    KeyTextsOfFiles();
    ParsedAscends(info);
    LookupIs(info, KEY_FILES);
    LookupIs(info, KEY_LENGTH);
    match Lookup(info, KEY_FILES)
    case None =>
      if |files| == 1 {
        assert files == [files[0]];
      }
      assert Tabled(info, name, files) ==> files == [FileInfo(name, files[0].length, 0)];
    case Some(List(list)) =>
      ListIsRead(info, list, files);
      OneList(info, list, files);
    case Some(_) =>
      NoList(info, files);
  }

  lemma OneList(info: seq<Entry>, list: seq<Value>, files: seq<FileInfo>)
    requires Lookup(info, KEY_FILES) == Some(List(list)) && Ascending(info)
    ensures (exists l :: Lists(info, l, files)) <==> Lists(info, list, files)
  {
    hide Lookup, Has, Describes, Ascending;
    KeyTextsOfFiles();
    LookupIs(info, KEY_FILES);
  }

  lemma NoList(info: seq<Entry>, files: seq<FileInfo>)
    requires Ascending(info) && Lookup(info, KEY_FILES).Some? && !Lookup(info, KEY_FILES).value.List?
    ensures forall l :: !Lists(info, l, files)
  {
    hide Lookup, Has, Describes, Ascending;
    KeyTextsOfFiles();
    LookupIs(info, KEY_FILES);
  }

  /** The one check made: `(total + pl - 1) / pl`, in int64 without overflow, is the number of digests. */
  ghost predicate CountAgrees(total: int, pl: int, n: nat) {
    && pl != 0 && FitsInt64(total + pl) && FitsInt64(total + pl - 1) && FitsInt64(n)
    && TruncDiv(total + pl - 1, pl) == n
  }

  /** The four things an info dictionary must have, and the check on them. */
  ghost predicate InfoHas(info: seq<Entry>, pl: int, name: seq<byte>, pieces: seq<byte>, files: seq<FileInfo>) {
    && Has(info, Ascii("piece length"), Int(pl)) && Has(info, Ascii("name"), Str(name))
    && Has(info, Ascii("pieces"), Str(pieces)) && |pieces| % 20 == 0
    && Tabled(info, name, files) && CountAgrees(SumLengths(files), pl, |pieces| / 20)
  }

  ghost predicate InfoAcceptable(info: seq<Entry>) {
    exists pl, name, pieces, files :: InfoHas(info, pl, name, pieces, files)
  }

  ghost predicate Acceptable(root: seq<Entry>) {
    && (exists url :: url != [] && Has(root, Ascii("announce"), Str(url)))
    && exists info :: Has(root, Ascii("info"), Dict(info)) && InfoAcceptable(info)
  }

  lemma AcceptedHas(info: seq<Entry>, announce: seq<byte>, trackers: seq<seq<byte>>, infoHash: Digest)
    requires EntriesParseable(info) && InfoMetadata(info, announce, trackers, infoHash).Accepted?
    ensures InfoAcceptable(info)
  {
    hide Lookup, Ascending, Has, HashesOf, FileTableOf, SumLengths, EntriesParseable, TruncDiv, Tabled;
    KeyTextsOfInfo();
    ParsedAscends(info);
    LookupIs(info, KEY_PIECE_LENGTH);
    LookupIs(info, KEY_NAME);
    LookupIs(info, KEY_PIECES);
    var pl, name, pieces := Lookup(info, KEY_PIECE_LENGTH).value.n, Lookup(info, KEY_NAME).value.s,
                            Lookup(info, KEY_PIECES).value.s;
    var files := FileTableOf(info, name).value;
    TabledIff(info, name, files);
    assert InfoHas(info, pl, name, pieces, files);
  }

  lemma HasAccepted(info: seq<Entry>, pl: int, name: seq<byte>, pieces: seq<byte>, files: seq<FileInfo>,
                    announce: seq<byte>, trackers: seq<seq<byte>>, infoHash: Digest)
    requires EntriesParseable(info) && InfoHas(info, pl, name, pieces, files)
    ensures InfoMetadata(info, announce, trackers, infoHash).Accepted?
  {
    hide Lookup, Ascending, Has, HashesOf, FileTableOf, SumLengths, EntriesParseable, TruncDiv, Tabled;
    KeyTextsOfInfo();
    ParsedAscends(info);
    LookupIs(info, KEY_PIECE_LENGTH);
    LookupIs(info, KEY_NAME);
    LookupIs(info, KEY_PIECES);
    TabledIff(info, name, files);
    assert PieceCount(SumLengths(files), pl) == Accepted(|pieces| / 20);
  }

  lemma InfoAcceptedIff(info: seq<Entry>, announce: seq<byte>, trackers: seq<seq<byte>>, infoHash: Digest)
    requires EntriesParseable(info)
    ensures InfoMetadata(info, announce, trackers, infoHash).Accepted? <==> InfoAcceptable(info)
  {
    hide InfoMetadata, InfoHas, EntriesParseable;
    if InfoMetadata(info, announce, trackers, infoHash).Accepted? {
      AcceptedHas(info, announce, trackers, infoHash);
    }
    if InfoAcceptable(info) {
      var pl, name, pieces, files :| InfoHas(info, pl, name, pieces, files);
      HasAccepted(info, pl, name, pieces, files, announce, trackers, infoHash);
    }
  }

  /**
   A torrent file is accepted exactly when its root dictionary has a non-empty announce string and an info
   dictionary with an integer piece length, a name, digests in groups of twenty, a file table in either
   format whose offsets stay in int64, and as many digests as the one division says.
   */
  lemma AcceptedIff(root: seq<Entry>, sha1: seq<byte> -> Digest)
    requires EntriesParseable(root)
    ensures MetadataOf(root, sha1).Accepted? <==> Acceptable(root)
  {
    hide Lookup, Ascending, Has, InfoAcceptable, AnnounceListOf, EntriesParseable, InfoMetadata;
    ParsedAscends(root);
    KeyTextsOfRoot();
    LookupIs(root, KEY_ANNOUNCE);
    LookupIs(root, KEY_INFO);
    if InfoOf(root).Dict? && AnnounceOf(root).Accepted? {
      var info, announce := InfoOf(root).entries, AnnounceOf(root).value;
      var trackers := if AnnounceListOf(root) == [] then [announce] else AnnounceListOf(root);
      ParsedInfo(root, info);
      InfoAcceptedIff(info, announce, trackers, sha1(Encode(InfoOf(root))));
    }
  }

  /* ---- exactly where the source's arithmetic is undefined ---- */

  /** A file of the list, well described like those before it, takes the running offset out of int64. */
  ghost predicate Overflows(list: seq<Value>, files: seq<FileInfo>) {
    && 0 < |files| <= |list| && (forall k | 0 <= k < |files| :: Describes(list[k], files[k])) && PrefixOffsets(files)
    && SumsFit(files[..|files| - 1]) && !FitsInt64(SumLengths(files))
  }

  /** Division by zero, or one of the three results outside int64. */
  ghost predicate CountUndefined(total: int, pl: int) {
    pl == 0 || !FitsInt64(total + pl) || !FitsInt64(total + pl - 1) || !FitsInt64(TruncDiv(total + pl - 1, pl))
  }

  lemma OverflowIsUndefined(list: seq<Value>, files: seq<FileInfo>)
    requires Overflows(list, files) && forall k | 0 <= k < |list| && list[k].Dict? :: Ascending(list[k].entries)
    ensures FilesOf(list) == Undefined
  {
    hide Describes, IsFile, Ascending, SumsFit, SumLengths, FileOf, FilesOf;
    var n := |files| - 1;
    var front := files[..n];
    forall k | 0 <= k < n ensures front[k].offset == SumLengths(front[..k]) {
      assert front[..k] == files[..k] && front[k] == files[k];
    }
    DescribedAreRead(list[..n], front);
    assert Describes(list[n], files[n]);
    DescribedDict(list[n], files[n]);
    DescribedIsRead(list[n], files[n]);
    assert files[n].offset == SumLengths(front) && FileOf(list[n], SumLengths(front)) == files[n];
    SumAppend(front, files[n]);
    assert front + [files[n]] == files;
    FilesStep(list, n, front);
    FilesFailEarly(list, n + 1);
  }

  lemma {:induction false} UndefinedOverflows(list: seq<Value>) returns (files: seq<FileInfo>)
    requires FilesOf(list) == Undefined && forall k | 0 <= k < |list| && list[k].Dict? :: Ascending(list[k].entries)
    ensures Overflows(list, files)
  {
    hide Describes, IsFile, Ascending, SumsFit, SumLengths, FileOf, PrefixOffsets;
    var n := |list| - 1;
    if FilesOf(list[..n]) == Undefined {
      files := UndefinedOverflows(list[..n]);
    } else {
      var front := FilesOf(list[..n]).value;
      var file := FileOf(list[n], SumLengths(front));
      files := front + [file];
      FilesAre(list[..n]);
      FilesHavePrefixOffsets(list[..n]);
      AcceptedSumsFit(list[..n]);
      FileIs(list[n], SumLengths(front));
      SumAppend(front, file);
      OneMoreOffset(front, file);
      assert files[..n] == front;
    }
  }

  lemma OneMoreOffset(front: seq<FileInfo>, file: FileInfo)
    requires PrefixOffsets(front) && file.offset == SumLengths(front)
    ensures PrefixOffsets(front + [file])
  {
    var files := front + [file];
    forall k | 0 <= k < |files| ensures files[k].offset == SumLengths(files[..k]) {
      assert files[..k] == front[..k];
    }
  }

  /** The list of an info dictionary, if it is one, and files that overflow in it. */
  ghost predicate TableOverflows(info: seq<Entry>) {
    exists list, files :: Has(info, Ascii("files"), List(list)) && Overflows(list, files)
  }

  lemma TableUndefinedIff(info: seq<Entry>, name: seq<byte>)
    requires EntriesParseable(info)
    ensures FileTableOf(info, name) == Undefined <==> TableOverflows(info)
  {
    hide Lookup, Ascending, Has, FilesOf, Overflows, EntriesParseable;
    KeyTextsOfFiles();
    ParsedAscends(info);
    LookupIs(info, KEY_FILES);
    if FileTableOf(info, name) == Undefined {
      var list := Lookup(info, KEY_FILES).value.items;
      ParsedFiles(info, list);
      var files := UndefinedOverflows(list);
      assert Has(info, Ascii("files"), List(list)) && Overflows(list, files);
    }
    if TableOverflows(info) {
      var list, files :| Has(info, Ascii("files"), List(list)) && Overflows(list, files);
      ParsedFiles(info, list);
      OverflowIsUndefined(list, files);
    }
  }

  /** The required entries are there, and then the running offsets or the division go wrong. */
  ghost predicate InfoUndefined(info: seq<Entry>, pl: int, name: seq<byte>, pieces: seq<byte>) {
    && Has(info, Ascii("piece length"), Int(pl)) && Has(info, Ascii("name"), Str(name))
    && Has(info, Ascii("pieces"), Str(pieces)) && |pieces| % 20 == 0
    && (TableOverflows(info) || exists files :: Tabled(info, name, files) && CountUndefined(SumLengths(files), pl))
  }

  lemma InfoUndefinedIff(info: seq<Entry>, announce: seq<byte>, trackers: seq<seq<byte>>, infoHash: Digest)
    requires EntriesParseable(info)
    ensures InfoMetadata(info, announce, trackers, infoHash) == Undefined <==> exists pl, name, pieces :: InfoUndefined(info, pl, name, pieces)
  {
    hide InfoMetadata, InfoUndefined, EntriesParseable;
    if InfoMetadata(info, announce, trackers, infoHash) == Undefined {
      var pl, name, pieces := UndefinedHas(info, announce, trackers, infoHash);
    }
    forall pl, name, pieces | InfoUndefined(info, pl, name, pieces)
      ensures InfoMetadata(info, announce, trackers, infoHash) == Undefined
    {
      HasUndefined(info, pl, name, pieces, announce, trackers, infoHash);
    }
  }

  lemma UndefinedHas(info: seq<Entry>, announce: seq<byte>, trackers: seq<seq<byte>>, infoHash: Digest)
    returns (pl: int, name: seq<byte>, pieces: seq<byte>)
    requires EntriesParseable(info) && InfoMetadata(info, announce, trackers, infoHash) == Undefined
    ensures InfoUndefined(info, pl, name, pieces)
  {
    hide Lookup, Ascending, Has, HashesOf, FileTableOf, SumLengths, EntriesParseable, TruncDiv, Tabled, TableOverflows;
    KeyTextsOfInfo();
    ParsedAscends(info);
    LookupIs(info, KEY_PIECE_LENGTH);
    LookupIs(info, KEY_NAME);
    LookupIs(info, KEY_PIECES);
    pl, name, pieces := Lookup(info, KEY_PIECE_LENGTH).value.n, Lookup(info, KEY_NAME).value.s, Lookup(info, KEY_PIECES).value.s;
    TableUndefinedIff(info, name);
    if FileTableOf(info, name).Accepted? {
      var files := FileTableOf(info, name).value;
      TabledIff(info, name, files);
      assert Tabled(info, name, files) && CountUndefined(SumLengths(files), pl);
    }
  }

  lemma HasUndefined(info: seq<Entry>, pl: int, name: seq<byte>, pieces: seq<byte>,
                     announce: seq<byte>, trackers: seq<seq<byte>>, infoHash: Digest)
    requires EntriesParseable(info) && InfoUndefined(info, pl, name, pieces)
    ensures InfoMetadata(info, announce, trackers, infoHash) == Undefined
  {
    hide Lookup, Ascending, Has, HashesOf, FileTableOf, SumLengths, EntriesParseable, TruncDiv, Tabled, TableOverflows;
    KeyTextsOfInfo();
    ParsedAscends(info);
    LookupIs(info, KEY_PIECE_LENGTH);
    LookupIs(info, KEY_NAME);
    LookupIs(info, KEY_PIECES);
    TableUndefinedIff(info, name);
    if !TableOverflows(info) {
      var files :| Tabled(info, name, files) && CountUndefined(SumLengths(files), pl);
      TabledIff(info, name, files);
    }
  }

  /**
   Outside these inputs the source either accepts or throws: a good announce string and the required info
   entries, with a running offset or the piece count out of int64, or a piece length of zero.
   */
  lemma UndefinedIff(root: seq<Entry>, sha1: seq<byte> -> Digest)
    requires EntriesParseable(root)
    ensures MetadataOf(root, sha1) == Undefined
       <==> && (exists url :: url != [] && Has(root, Ascii("announce"), Str(url)))
            && exists info, pl, name, pieces :: Has(root, Ascii("info"), Dict(info)) && InfoUndefined(info, pl, name, pieces)
  {
    hide Lookup, Ascending, Has, InfoUndefined, AnnounceListOf, EntriesParseable, InfoMetadata;
    ParsedAscends(root);
    KeyTextsOfRoot();
    LookupIs(root, KEY_ANNOUNCE);
    LookupIs(root, KEY_INFO);
    if InfoOf(root).Dict? && AnnounceOf(root).Accepted? {
      var info, announce := InfoOf(root).entries, AnnounceOf(root).value;
      var trackers := if AnnounceListOf(root) == [] then [announce] else AnnounceListOf(root);
      ParsedInfo(root, info);
      InfoUndefinedIff(info, announce, trackers, sha1(Encode(InfoOf(root))));
    }
  }

  /** `static_cast<int>` of a count: the one value of the 32-bit range congruent to it. */
  lemma ToInt32Is(n: nat)
    ensures -0x8000_0000 <= ToInt32(n) < 0x8000_0000 && (n - ToInt32(n)) % 0x1_0000_0000 == 0
  {
    var low, q := n % 0x1_0000_0000, n / 0x1_0000_0000;
    assert n == q * 0x1_0000_0000 + low;
    if low >= 0x8000_0000 {
      assert n - ToInt32(n) == (q + 1) * 0x1_0000_0000;
    }
  }
}
