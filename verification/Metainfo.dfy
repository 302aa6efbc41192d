/**
 Reading a torrent file (torrent.cpp; section "metainfo files" of BEP 3).

 The source walks the root dictionary with its own loop instead of calling the generic parser. The
 reference here is the generic reading: the root is the one parsed dictionary, and `MetadataOf` looks
 its keys up. `FromBencode` is proved to agree with that on every input.
 */
module Metainfo {
  import opened Bytes
  import opened Bencode
  import opened Geometry

  /**
   `Rejected` is a thrown exception. `Undefined` marks inputs on which the source's signed arithmetic
   overflows or divides by zero, so that C++ promises nothing.
   */
  datatype Outcome<+T> = Accepted(value: T) | Rejected | Undefined

  /* The dictionary keys, in ASCII. */

  /** `announce` */
  const KEY_ANNOUNCE: seq<byte> := [0x61, 0x6E, 0x6E, 0x6F, 0x75, 0x6E, 0x63, 0x65]
  /** `announce-list` */
  const KEY_ANNOUNCE_LIST: seq<byte> := [0x61, 0x6E, 0x6E, 0x6F, 0x75, 0x6E, 0x63, 0x65, 0x2D, 0x6C, 0x69, 0x73, 0x74]
  /** `info` */
  const KEY_INFO: seq<byte> := [0x69, 0x6E, 0x66, 0x6F]
  /** `files` */
  const KEY_FILES: seq<byte> := [0x66, 0x69, 0x6C, 0x65, 0x73]
  /** `length` */
  const KEY_LENGTH: seq<byte> := [0x6C, 0x65, 0x6E, 0x67, 0x74, 0x68]
  /** `path` */
  const KEY_PATH: seq<byte> := [0x70, 0x61, 0x74, 0x68]
  /** `piece length` */
  const KEY_PIECE_LENGTH: seq<byte> := [0x70, 0x69, 0x65, 0x63, 0x65, 0x20, 0x6C, 0x65, 0x6E, 0x67, 0x74, 0x68]
  /** `name` */
  const KEY_NAME: seq<byte> := [0x6E, 0x61, 0x6D, 0x65]
  /** `pieces` */
  const KEY_PIECES: seq<byte> := [0x70, 0x69, 0x65, 0x63, 0x65, 0x73]

  predicate FitsInt64(n: int) {
    INT64_MIN <= n <= INT64_MAX
  }

  /** C++ integer division, for a non-zero divisor. */
  function TruncDiv(a: int, b: int): int
    requires b != 0
  {
    if a >= 0 && b > 0 then a / b
    else if a >= 0 then -(a / -b)
    else if b > 0 then -(-a / b)
    else -a / -b
  }

  function ToInt32(n: nat): int {
    var low := n % 0x1_0000_0000;
    if low < 0x8000_0000 then low else low - 0x1_0000_0000
  }

  /* ---- dictionary lookup ---- */

  function Lookup(entries: seq<Entry>, key: seq<byte>): Option<Value> {
    if entries == [] then None
    else
      var last := entries[|entries| - 1];
      if last.key == key then Some(last.value) else Lookup(entries[..|entries| - 1], key)
  }

  lemma {:induction false} LessIsTransitive(a: seq<byte>, b: seq<byte>, c: seq<byte>)
    requires Less(a, b) && Less(b, c)
    ensures Less(a, c) && a != c
  {
    if a != [] && a[0] == b[0] == c[0] {
      LessIsTransitive(a[1..], b[1..], c[1..]);
    }
  }

  lemma {:induction false} AscendingKeys(entries: seq<Entry>, i: nat, j: nat)
    requires Ascending(entries) && i < j < |entries|
    ensures Less(entries[i].key, entries[j].key) && entries[i].key != entries[j].key
    decreases j
  {
    if i < j - 1 {
      AscendingKeys(entries, i, j - 1);
      LessIsTransitive(entries[i].key, entries[j - 1].key, entries[j].key);
    } else {
      LessIsTotal(entries[i].key, entries[j].key);
    }
  }

  /** In a dictionary `Lookup` is `std::map::find`: it yields the value of the one entry with that key. */
  lemma {:induction false} LookupFinds(entries: seq<Entry>, i: nat)
    requires Ascending(entries) && i < |entries|
    ensures Lookup(entries, entries[i].key) == Some(entries[i].value)
  {
    if i < |entries| - 1 {
      AscendingKeys(entries, i, |entries| - 1);
      LookupFinds(entries[..|entries| - 1], i);
    }
  }

  /* ---- the meaning of a root dictionary ---- */

  /** `announce`, empty when the key is absent; `Rejected` when it is no string. */
  function AnnounceOf(root: seq<Entry>): Outcome<seq<byte>> {
    match Lookup(root, KEY_ANNOUNCE)
    case None => Accepted([])
    case Some(v) => if v.Str? then Accepted(v.s) else Rejected
  }

  /** The non-empty strings of a tier, in order. */
  function TierOf(items: seq<Value>): seq<seq<byte>> {
    if items == [] then [] else
      var last := items[|items| - 1];
      TierOf(items[..|items| - 1]) + if last.Str? && last.s != [] then [last.s] else []
  }

  /** All trackers of all tiers; anything of another shape is skipped. */
  function TiersOf(items: seq<Value>): seq<seq<byte>> {
    if items == [] then [] else
      var last := items[|items| - 1];
      TiersOf(items[..|items| - 1]) + if last.List? then TierOf(last.items) else []
  }

  function AnnounceListOf(root: seq<Entry>): seq<seq<byte>> {
    match Lookup(root, KEY_ANNOUNCE_LIST)
    case None => []
    case Some(v) => if v.List? then TiersOf(v.items) else []
  }

  /** The info value; the source's default value when the key is absent is the integer 0. */
  function InfoOf(root: seq<Entry>): Value {
    match Lookup(root, KEY_INFO)
    case None => Int(0)
    case Some(v) => v
  }

  /** Path segments joined with `/`. */
  function JoinPath(segments: seq<Value>): seq<byte>
    requires forall k | 0 <= k < |segments| :: segments[k].Str?
  {
    if segments == [] then []
    else if |segments| == 1 then segments[0].s
    else JoinPath(segments[..|segments| - 1]) + [0x2F] + segments[|segments| - 1].s
  }

  predicate IsFile(v: Value) {
    && v.Dict?
    && var length, path := Lookup(v.entries, KEY_LENGTH), Lookup(v.entries, KEY_PATH);
    && length.Some? && length.value.Int?
    && path.Some? && path.value.List?
    && forall k | 0 <= k < |path.value.items| :: path.value.items[k].Str?
  }

  function FileOf(v: Value, offset: int): FileInfo
    requires IsFile(v)
  {
    FileInfo(JoinPath(Lookup(v.entries, KEY_PATH).value.items),
             Lookup(v.entries, KEY_LENGTH).value.n, offset)
  }

  /** The file table of a multi-file torrent, offsets accumulated in int64. */
  function FilesOf(list: seq<Value>): Outcome<seq<FileInfo>>
    ensures FilesOf(list).Accepted? ==> |FilesOf(list).value| == |list|
  {
    if list == [] then Accepted([]) else
      match FilesOf(list[..|list| - 1])
      case Rejected => Rejected
      case Undefined => Undefined
      case Accepted(files) =>
        if !IsFile(list[|list| - 1]) then Rejected else
          var file := FileOf(list[|list| - 1], SumLengths(files));
          if FitsInt64(SumLengths(files) + file.length) then Accepted(files + [file]) else Undefined
  }

  /** The concatenated 20-byte digests. */
  function HashesOf(pieces: seq<byte>): seq<Digest>
    requires |pieces| % 20 == 0
  {
    if pieces == [] then [] else HashesOf(pieces[..|pieces| - 20]) + [pieces[|pieces| - 20..]]
  }

  /** The file table of either format; a single file takes the torrent's name. */
  function FileTableOf(info: seq<Entry>, name: seq<byte>): Outcome<seq<FileInfo>> {
    match Lookup(info, KEY_FILES)
    case Some(v) => if v.List? then FilesOf(v.items) else Rejected
    case None =>
      match Lookup(info, KEY_LENGTH)
      case Some(Int(n)) => Accepted([FileInfo(name, n, 0)])
      case _ => Rejected
  }

  /** `(total + pl - 1) / pl` in int64. */
  function PieceCount(total: int, pl: int): Outcome<int> {
    if pl == 0 || !FitsInt64(total + pl) || !FitsInt64(total + pl - 1) then Undefined
    else if !FitsInt64(TruncDiv(total + pl - 1, pl)) then Undefined
    else Accepted(TruncDiv(total + pl - 1, pl))
  }

  /** What the info dictionary determines. */
  function InfoMetadata(info: seq<Entry>, announce: seq<byte>, trackers: seq<seq<byte>>, infoHash: Digest):
      Outcome<TorrentMetadata>
  {
    match (Lookup(info, KEY_PIECE_LENGTH), Lookup(info, KEY_NAME), Lookup(info, KEY_PIECES))
    case (Some(Int(pl)), Some(Str(name)), Some(Str(pieces))) =>
      if |pieces| % 20 != 0 then Rejected else
        (match FileTableOf(info, name)
         case Rejected => Rejected
         case Undefined => Undefined
         case Accepted(files) =>
           match PieceCount(SumLengths(files), pl)
           case Rejected => Rejected
           case Undefined => Undefined
           case Accepted(count) =>
             if count != |pieces| / 20 then Rejected
             else Accepted(TorrentMetadata(name, announce, trackers, pl, SumLengths(files), ToInt32(|pieces| / 20),
                                           HashesOf(pieces), files, infoHash)))
    case _ => Rejected
  }

  /** The reference: metadata looked up in the generically parsed root dictionary. */
  function MetadataOf(root: seq<Entry>, sha1: seq<byte> -> Digest): Outcome<TorrentMetadata> {
    match AnnounceOf(root)
    case Rejected => Rejected
    case Undefined => Undefined
    case Accepted(announce) =>
      if announce == [] || !InfoOf(root).Dict? then Rejected
      else
        var trackers := if AnnounceListOf(root) == [] then [announce] else AnnounceListOf(root);
        InfoMetadata(InfoOf(root).entries, announce, trackers, sha1(Encode(InfoOf(root))))
  }

  /* ---- the code ---- */

  method CollectTrackers(tiers: seq<Value>) returns (trackers: seq<seq<byte>>)
    ensures trackers == TiersOf(tiers)
  {
    trackers := [];
    for i := 0 to |tiers|
      invariant trackers == TiersOf(tiers[..i])
    {
      assert tiers[..i + 1][..i] == tiers[..i];
      if tiers[i].List? {
        var tier := tiers[i].items;
        for k := 0 to |tier|
          invariant trackers == TiersOf(tiers[..i]) + TierOf(tier[..k])
        {
          assert tier[..k + 1][..k] == tier[..k];
          if tier[k].Str? && tier[k].s != [] {
            trackers := trackers + [tier[k].s];
          }
        }
        assert tier[..|tier|] == tier;
      }
    }
    assert tiers[..|tiers|] == tiers;
  }

  method BuildPath(segments: seq<Value>) returns (r: Option<seq<byte>>)
    ensures r.Some? <==> forall k | 0 <= k < |segments| :: segments[k].Str?
    ensures r.Some? ==> r.value == JoinPath(segments)
  {
    var path := [];
    for i := 0 to |segments|
      invariant forall k | 0 <= k < i :: segments[k].Str?
      invariant path == JoinPath(segments[..i])
    {
      if !segments[i].Str? {
        return None;
      }
      assert segments[..i + 1][..i] == segments[..i];
      if i > 0 {
        path := path + [0x2F];
      }
      path := path + segments[i].s;
    }
    assert segments[..|segments|] == segments;
    return Some(path);
  }

  method ReadFile(v: Value, offset: int) returns (r: Option<FileInfo>)
    ensures r.Some? <==> IsFile(v)
    ensures r.Some? ==> r.value == FileOf(v, offset)
  {
    if !v.Dict? {
      return None;
    }
    var length := Lookup(v.entries, KEY_LENGTH);
    if length.None? || !length.value.Int? {
      return None;
    }
    var path := Lookup(v.entries, KEY_PATH);
    if path.None? || !path.value.List? {
      return None;
    }
    var joined := BuildPath(path.value.items);
    if joined.None? {
      return None;
    }
    return Some(FileInfo(joined.value, length.value.n, offset));
  }

  lemma {:induction false} FilesFailEarly(list: seq<Value>, k: nat)
    requires k <= |list| && !FilesOf(list[..k]).Accepted?
    ensures FilesOf(list) == FilesOf(list[..k])
    decreases |list|
  {
    if k == |list| {
      assert list[..k] == list;
    } else {
      assert list[..|list| - 1][..k] == list[..k];
      FilesFailEarly(list[..|list| - 1], k);
    }
  }

  lemma FilesStep(list: seq<Value>, k: nat, files: seq<FileInfo>)
    requires k < |list| && FilesOf(list[..k]) == Accepted(files)
    ensures FilesOf(list[..k + 1]) ==
            if !IsFile(list[k]) then Rejected
            else if FitsInt64(SumLengths(files) + FileOf(list[k], SumLengths(files)).length)
            then Accepted(files + [FileOf(list[k], SumLengths(files))]) else Undefined
  {
    assert list[..k + 1][..k] == list[..k];
  }

  lemma SumAppend(files: seq<FileInfo>, file: FileInfo)
    ensures SumLengths(files + [file]) == SumLengths(files) + file.length
  {
    assert (files + [file])[..|files|] == files;
  }

  method ReadFiles(list: seq<Value>) returns (r: Outcome<seq<FileInfo>>, total: int)
    ensures r == FilesOf(list)
    ensures r.Accepted? ==> total == SumLengths(r.value)
  {
    var files := [];
    total := 0;
    for k := 0 to |list|
      invariant FilesOf(list[..k]) == Accepted(files) && total == SumLengths(files)
    {
      FilesStep(list, k, files);
      var file := ReadFile(list[k], total);
      if file.None? || !FitsInt64(total + file.value.length) {
        FilesFailEarly(list, k + 1);
        return if file.None? then Rejected else Undefined, 0;
      }
      SumAppend(files, file.value);
      files := files + [file.value];
      total := total + file.value.length;
    }
    assert list[..|list|] == list;
    return Accepted(files), total;
  }

  method SplitHashes(pieces: seq<byte>) returns (hashes: seq<Digest>)
    requires |pieces| % 20 == 0
    ensures hashes == HashesOf(pieces)
  {
    hashes := [];
    for i := 0 to |pieces| / 20
      invariant hashes == HashesOf(pieces[..20 * i])
    {
      assert pieces[..20 * (i + 1)][..20 * i] == pieces[..20 * i];
      assert pieces[..20 * (i + 1)][20 * i..] == pieces[20 * i..20 * i + 20];
      hashes := hashes + [pieces[20 * i..20 * i + 20]];
    }
    assert pieces[..20 * (|pieces| / 20)] == pieces;
  }

  method BuildMetadata(info: seq<Entry>, announce: seq<byte>, trackers: seq<seq<byte>>, infoHash: Digest)
    returns (r: Outcome<TorrentMetadata>)
    ensures r == InfoMetadata(info, announce, trackers, infoHash)
  {
    var plValue := Lookup(info, KEY_PIECE_LENGTH);
    if plValue.None? || !plValue.value.Int? {
      return Rejected;
    }
    var nameValue := Lookup(info, KEY_NAME);
    if nameValue.None? || !nameValue.value.Str? {
      return Rejected;
    }
    var piecesValue := Lookup(info, KEY_PIECES);
    if piecesValue.None? || !piecesValue.value.Str? {
      return Rejected;
    }
    var pl, name, pieces := plValue.value.n, nameValue.value.s, piecesValue.value.s;
    if |pieces| % 20 != 0 {
      return Rejected;
    }
    var hashes := SplitHashes(pieces);
    var files: Outcome<seq<FileInfo>>, total: int := Rejected, 0;
    var filesValue := Lookup(info, KEY_FILES);
    if filesValue.Some? {
      if !filesValue.value.List? {
        return Rejected;
      }
      files, total := ReadFiles(filesValue.value.items);
    } else {
      var lengthValue := Lookup(info, KEY_LENGTH);
      if lengthValue.None? || !lengthValue.value.Int? {
        return Rejected;
      }
      files, total := Accepted([FileInfo(name, lengthValue.value.n, 0)]), lengthValue.value.n;
      OneFile(name, total);
    }
    if !files.Accepted? {
      return if files.Rejected? then Rejected else Undefined;
    }
    var count := PieceCount(total, pl);
    if count.Undefined? {
      return Undefined;
    }
    if count.value != |pieces| / 20 {
      return Rejected;
    }
    return Accepted(TorrentMetadata(name, announce, trackers, pl, total, ToInt32(|pieces| / 20), hashes, files.value, infoHash));
  }

  lemma OneFile(name: seq<byte>, length: int)
    ensures SumLengths([FileInfo(name, length, 0)]) == length
  {
    assert [FileInfo(name, length, 0)][..0] == [];
  }

  /** What the root loop has gathered from the entries read so far. */
  predicate Gathered(root: seq<Entry>, announce: seq<byte>, trackers: seq<seq<byte>>, info: Value, infoSpan: seq<byte>) {
    && AnnounceOf(root) == Accepted(announce)
    && trackers == AnnounceListOf(root)
    && info == InfoOf(root)
    && (info.Dict? ==> infoSpan == Encode(info))
  }

  lemma LookupAppend(root: seq<Entry>, x: Entry, key: seq<byte>)
    ensures Lookup(root + [x], key) == if x.key == key then Some(x.value) else Lookup(root, key)
  {
    assert (root + [x])[..|root|] == root;
  }

  /** A key seen once keeps its value in every dictionary that extends the entries read so far. */
  lemma LookupExtends(read: seq<Entry>, root: seq<Entry>, k: nat)
    requires Ascending(root) && k < |read| <= |root| && read == root[..|read|]
    ensures Lookup(root, read[k].key) == Some(read[k].value)
  {
    LookupFinds(root, k);
  }

  /**
   One round of the root loop: a key above the last one and its value, with the raw bytes of the value.
   Those bytes are the encoding of the value.
   */
  method ReadRootEntry(input: seq<byte>, root: seq<Entry>)
    returns (r: Result<Entry>, span: seq<byte>, rest: seq<byte>)
    ensures r.Ok? ==> Follows(root, r.value) && input == EncodeEntry(r.value) + rest && span == Encode(r.value.value)
    ensures r.Err? ==> NoEntryFollows(root, input)
  {
    forall x, t | input == EncodeEntry(x) + t ensures input == EncodeStr(x.key) + (Encode(x.value) + t) {
    }
    r, span, rest := Err, [], [];
    var key, afterKey := ParseString(input);
    if key.Err? {
      return;
    }
    if root != [] {
      LessIsTotal(root[|root| - 1].key, key.value);
      if key.value == root[|root| - 1].key || Less(key.value, root[|root| - 1].key) {
        return;
      }
    }
    var val, t := ParseValue(afterKey);
    if val.Err? {
      return;
    }
    r, span, rest := Ok(Entry(key.value, val.value)), afterKey[..|afterKey| - |t|], t;
    assert span == Encode(val.value);
    assert input == EncodeEntry(r.value) + rest;
  }

  /** The reference reading of a whole input. */
  ghost predicate IsRoot(input: seq<byte>, root: seq<Entry>) {
    EntriesParseable(root) && input == Encode(Dict(root))
  }

  /**
   `from_bencode`. For every input that the generic parser reads as a dictionary, the result is what
   that dictionary says; every other input is rejected.
   */
  method FromBencode(input: seq<byte>, sha1: seq<byte> -> Digest) returns (r: Outcome<TorrentMetadata>)
    ensures forall root :: IsRoot(input, root) ==> r == MetadataOf(root, sha1)
    ensures (forall root :: !IsRoot(input, root)) ==> r == Rejected
  {
    if input == [] || input[0] != CHAR_D {
      return Rejected;
    }
    var remaining := input[1..];
    ghost var body := remaining;
    var announce: seq<byte>, trackers: seq<seq<byte>> := [], [];
    var info, infoSpan := Int(0), [];
    var root: seq<Entry> := [];
    while remaining != [] && remaining[0] != CHAR_E
      invariant EntriesParseable(root) && body == EncodeEntries(root) + remaining
      invariant Gathered(root, announce, trackers, info, infoSpan)
      decreases |remaining|
    {
      var entry, span, t := ReadRootEntry(remaining, root);
      if entry.Err? {
        NoRoot(input, root, remaining);
        return Rejected;
      }
      var key, val := entry.value.key, entry.value.value;
      DictGrows(body, root, remaining, entry.value, t);
      GatherStep(root, entry.value);
      root := root + [entry.value];
      remaining := t;
      if key == KEY_ANNOUNCE {
        if !val.Str? {
          BadAnnounce(input, root, remaining);
          return Rejected;
        }
        announce := val.s;
      } else if key == KEY_ANNOUNCE_LIST {
        trackers := [];
        if val.List? {
          trackers := CollectTrackers(val.items);
        }
      } else if key == KEY_INFO {
        info, infoSpan := val, span;
      }
    }
    if remaining == [] || remaining[0] != CHAR_E {
      NoRoot(input, root, remaining);
      return Rejected;
    }
    remaining := remaining[1..];
    WholeDict(input, root, remaining);
    WholeInput(input, root, remaining);
    if remaining != [] {
      return Rejected;
    }
    if announce == [] {
      return Rejected;
    }
    if !info.Dict? {
      return Rejected;
    }
    if trackers == [] {
      trackers := [announce];
    }
    r := BuildMetadata(info.entries, announce, trackers, sha1(infoSpan));
  }

  lemma GatherStep(root: seq<Entry>, x: Entry)
    ensures AnnounceOf(root + [x]) ==
            if x.key != KEY_ANNOUNCE then AnnounceOf(root) else if x.value.Str? then Accepted(x.value.s) else Rejected
    ensures AnnounceListOf(root + [x]) ==
            if x.key != KEY_ANNOUNCE_LIST then AnnounceListOf(root) else if x.value.List? then TiersOf(x.value.items) else []
    ensures InfoOf(root + [x]) == if x.key == KEY_INFO then x.value else InfoOf(root)
  {
    LookupAppend(root, x, KEY_ANNOUNCE);
    LookupAppend(root, x, KEY_ANNOUNCE_LIST);
    LookupAppend(root, x, KEY_INFO);
  }

  lemma NoRoot(input: seq<byte>, root: seq<Entry>, remaining: seq<byte>)
    requires |input| > 0 && input[1..] == EncodeEntries(root) + remaining
    requires remaining == [] || remaining[0] != CHAR_E
    requires remaining == [] || NoEntryFollows(root, remaining)
    ensures forall whole :: !IsRoot(input, whole)
  {
    NoDictContinues(input, root, remaining);
    forall whole ensures !IsRoot(input, whole) {
      assert EntriesParseable(whole) ==> input != Encode(Dict(whole)) + [];
    }
  }

  /** Whatever dictionary the input turns out to be, its `announce` is the bad one just read. */
  lemma BadAnnounce(input: seq<byte>, root: seq<Entry>, remaining: seq<byte>)
    requires |input| > 0 && input[1..] == EncodeEntries(root) + remaining
    requires root != [] && root[|root| - 1].key == KEY_ANNOUNCE && !root[|root| - 1].value.Str?
    ensures forall whole :: IsRoot(input, whole) ==> AnnounceOf(whole) == Rejected
  {
    forall whole | IsRoot(input, whole) ensures AnnounceOf(whole) == Rejected {
      ReadEntriesAreThere(input, root, remaining, whole);
      LookupExtends(root, whole, |root| - 1);
    }
  }

  lemma ReadEntriesAreThere(input: seq<byte>, root: seq<Entry>, remaining: seq<byte>, whole: seq<Entry>)
    requires |input| > 0 && input[1..] == EncodeEntries(root) + remaining && IsRoot(input, whole)
    ensures |root| <= |whole| && root == whole[..|root|]
  {
    DictBody(whole, []);
    assert input == Encode(Dict(whole)) + [];
    EntriesCut(root, whole, remaining, []);
  }

  lemma WholeInput(input: seq<byte>, root: seq<Entry>, rest: seq<byte>)
    requires EntriesParseable(root) && input == Encode(Dict(root)) + rest
    ensures forall whole :: IsRoot(input, whole) ==> whole == root && rest == []
    ensures rest == [] ==> IsRoot(input, root)
  {
    forall whole | IsRoot(input, whole) ensures whole == root && rest == [] {
      assert input == Encode(Dict(whole)) + [];
      PrefixFree(Dict(root), Dict(whole), rest, []);
    }
  }

  /* ---- what acceptance guarantees ---- */

  lemma {:induction false} FilesHavePrefixOffsets(list: seq<Value>)
    requires FilesOf(list).Accepted?
    ensures PrefixOffsets(FilesOf(list).value) && FitsInt64(SumLengths(FilesOf(list).value))
  {
    if list != [] {
      FilesHavePrefixOffsets(list[..|list| - 1]);
      var files := FilesOf(list).value;
      var front := files[..|files| - 1];
      assert front == FilesOf(list[..|list| - 1]).value;
      forall k | 0 <= k < |files| ensures files[k].offset == SumLengths(files[..k]) {
        assert k < |front| ==> files[..k] == front[..k] && files[k] == front[k];
      }
    }
  }

  lemma {:induction false} HashCount(pieces: seq<byte>)
    requires |pieces| % 20 == 0
    ensures |HashesOf(pieces)| == |pieces| / 20
  {
    if pieces != [] {
      HashCount(pieces[..|pieces| - 20]);
    }
  }

  /** The checks a caller would have to add to `from_bencode` to get sound geometry. */
  predicate GeometryChecks(m: TorrentMetadata) {
    && 1 <= m.pieceLength < 0x1_0000_0000
    && |m.pieceHashes| < 0x8000_0000
    && forall k | 0 <= k < |m.files| :: m.files[k].length >= 0
  }

  lemma AcceptedInfo(info: seq<Entry>, announce: seq<byte>, trackers: seq<seq<byte>>, infoHash: Digest)
    requires InfoMetadata(info, announce, trackers, infoHash).Accepted?
    ensures var m := InfoMetadata(info, announce, trackers, infoHash).value;
            && PrefixOffsets(m.files) && m.totalLength == SumLengths(m.files)
            && PieceCount(m.totalLength, m.pieceLength) == Accepted(|m.pieceHashes|)
            && m.numPieces == ToInt32(|m.pieceHashes|)
  {
    var m := InfoMetadata(info, announce, trackers, infoHash).value;
    HashCount(Lookup(info, KEY_PIECES).value.s);
    match Lookup(info, KEY_FILES)
    case Some(v) => FilesHavePrefixOffsets(v.items);
    case None => OneFile(m.name, m.files[0].length); assert m.files[..0] == [];
  }

  lemma {:induction false} SumNonNegative(files: seq<FileInfo>)
    requires forall k | 0 <= k < |files| :: files[k].length >= 0
    ensures SumLengths(files) >= 0
  {
    if files != [] {
      SumNonNegative(files[..|files| - 1]);
    }
  }

  lemma ChecksGiveSound(m: TorrentMetadata)
    requires PrefixOffsets(m.files) && m.totalLength == SumLengths(m.files)
    requires PieceCount(m.totalLength, m.pieceLength) == Accepted(|m.pieceHashes|)
    requires m.numPieces == ToInt32(|m.pieceHashes|)
    ensures Sound(m) <==> GeometryChecks(m)
  {
    hide PrefixOffsets, SumLengths;
    if GeometryChecks(m) {
      SumNonNegative(m.files);
    }
  }

  /** Accepted metadata has sound geometry exactly when these three ranges hold. */
  lemma SoundIffChecks(root: seq<Entry>, sha1: seq<byte> -> Digest)
    requires MetadataOf(root, sha1).Accepted?
    ensures Sound(MetadataOf(root, sha1).value) <==> GeometryChecks(MetadataOf(root, sha1).value)
  {
    hide Sound, GeometryChecks, PrefixOffsets, SumLengths, PieceCount, InfoMetadata, Encode, AnnounceListOf,
      ToInt32, InfoOf, Lookup;
    var m := MetadataOf(root, sha1).value;
    var announce := AnnounceOf(root).value;
    var trackers := if AnnounceListOf(root) == [] then [announce] else AnnounceListOf(root);
    AcceptedInfo(InfoOf(root).entries, announce, trackers, sha1(Encode(InfoOf(root))));
    ChecksGiveSound(m);
  }

  /** A root dictionary with a negative piece length. */
  function NegativeInfo(name: seq<byte>): seq<Entry> {
    [Entry(KEY_LENGTH, Int(2)), Entry(KEY_NAME, Str(name)), Entry(KEY_PIECE_LENGTH, Int(-1)), Entry(KEY_PIECES, Str([]))]
  }

  function NegativeRoot(url: seq<byte>, name: seq<byte>): seq<Entry> {
    [Entry(KEY_ANNOUNCE, Str(url)), Entry(KEY_INFO, Dict(NegativeInfo(name)))]
  }

  lemma {:induction false} LessAfterPrefix(p: seq<byte>, a: seq<byte>, b: seq<byte>)
    requires Less(a, b)
    ensures Less(p + a, p + b)
  {
    if p == [] {
      assert p + a == a && p + b == b;
    } else {
      LessAfterPrefix(p[1..], a, b);
      assert (p + a)[1..] == p[1..] + a && (p + b)[1..] == p[1..] + b;
    }
  }

  /** `piece length` sorts before `pieces`. */
  lemma PieceKeysAscend()
    ensures Less(KEY_PIECE_LENGTH, KEY_PIECES)
  {
    var p := KEY_PIECES[..5];
    assert Less(KEY_PIECE_LENGTH[5..], KEY_PIECES[5..]);
    LessAfterPrefix(p, KEY_PIECE_LENGTH[5..], KEY_PIECES[5..]);
    assert KEY_PIECE_LENGTH == p + KEY_PIECE_LENGTH[5..];
    assert KEY_PIECES == p + KEY_PIECES[5..];
  }

  lemma NegativeInfoParses(name: seq<byte>)
    requires |name| <= SIZE_MAX
    ensures EntriesParseable(NegativeInfo(name))
  {
    PieceKeysAscend();
  }

  lemma NoNegativeFiles(name: seq<byte>)
    ensures Lookup(NegativeInfo(name), KEY_FILES) == None
  {
    hide Less;
    var info := NegativeInfo(name);
    LookupAppend([], info[0], KEY_FILES);
    LookupAppend(info[..1], info[1], KEY_FILES);
    LookupAppend(info[..2], info[2], KEY_FILES);
    LookupAppend(info[..3], info[3], KEY_FILES);
    assert info == info[..3] + [info[3]] && info[..3] == info[..2] + [info[2]];
    assert info[..2] == info[..1] + [info[1]] && info[..1] == [] + [info[0]];
  }

  lemma NegativeLookups(name: seq<byte>)
    requires |name| <= SIZE_MAX
    ensures var info := NegativeInfo(name);
            && Lookup(info, KEY_LENGTH) == Some(Int(2)) && Lookup(info, KEY_NAME) == Some(Str(name))
            && Lookup(info, KEY_PIECE_LENGTH) == Some(Int(-1)) && Lookup(info, KEY_PIECES) == Some(Str([]))
            && Lookup(info, KEY_FILES) == None
  {
    hide Less, Lookup, EntriesParseable;
    var info := NegativeInfo(name);
    NegativeInfoParses(name);
    NoNegativeFiles(name);
    LookupFinds(info, 0);
    LookupFinds(info, 1);
    LookupFinds(info, 2);
    LookupFinds(info, 3);
  }

  lemma NegativeInfoAccepted(url: seq<byte>, name: seq<byte>, infoHash: Digest)
    requires |name| <= SIZE_MAX
    ensures InfoMetadata(NegativeInfo(name), url, [url], infoHash)
         == Accepted(TorrentMetadata(name, url, [url], -1, 2, 0, [], [FileInfo(name, 2, 0)], infoHash))
  {
    NegativeLookups(name);
    OneFile(name, 2);
  }

  lemma NegativeRootLookups(url: seq<byte>, name: seq<byte>)
    requires |url| <= SIZE_MAX && |name| <= SIZE_MAX
    ensures EntriesParseable(NegativeRoot(url, name))
    ensures AnnounceOf(NegativeRoot(url, name)) == Accepted(url) && AnnounceListOf(NegativeRoot(url, name)) == []
    ensures InfoOf(NegativeRoot(url, name)) == Dict(NegativeInfo(name))
  {
    var a, i := Entry(KEY_ANNOUNCE, Str(url)), Entry(KEY_INFO, Dict(NegativeInfo(name)));
    NegativeInfoParses(name);
    GatherStep([], a);
    GatherStep([a], i);
    assert NegativeRoot(url, name) == [a] + [i] && [a] == [] + [a];
  }

  /** The piece-count check alone lets it through: two bytes of content in no pieces of length -1. */
  lemma NegativePieceLengthAccepted(url: seq<byte>, name: seq<byte>, sha1: seq<byte> -> Digest)
    requires 0 < |url| <= SIZE_MAX && |name| <= SIZE_MAX
    ensures IsRoot(Encode(Dict(NegativeRoot(url, name))), NegativeRoot(url, name))
    ensures var r := MetadataOf(NegativeRoot(url, name), sha1);
            r.Accepted? && r.value.pieceLength == -1 && r.value.totalLength == 2 && r.value.numPieces == 0
            && !Sound(r.value)
  {
    NegativeRootLookups(url, name);
    NegativeInfoAccepted(url, name, sha1(Encode(InfoOf(NegativeRoot(url, name)))));
  }
}
