/**
 What each operation of the piece manager does to the state of every block, seen from outside the
 block tables: a block is named by its piece and begin offset, as requests and piece messages name it.
 */
module Ledger {
  import opened Bytes
  import opened Geometry
  import opened Wire
  import opened Pieces
  import opened Swarm

  datatype Key = Key(piece: nat, begin: uint32)

  function KeyOf(r: Req): Key {
    Key(r.piece, r.begin)
  }

  ghost function Keys(out: seq<Req>): set<Key> {
    set r | r in out :: KeyOf(r)
  }

  function StateIn(ps: PieceState, begin: uint32): Option<BlockState> {
    var k := FindBegin(ps.blocks, begin);
    if k < |ps.blocks| then Some(ps.blocks[k].state) else None
  }

  /** The state of a block, if its piece is in progress and has it. */
  function StateOf(s: Mgr, x: Key): Option<BlockState> {
    if x.piece in s.progress then StateIn(s.progress[x.piece], x.begin) else None
  }

  lemma {:induction false} FindBeginKept(blocks: seq<Block>, k: nat, state: BlockState, begin: uint32)
    requires k < |blocks|
    ensures FindBegin(blocks[k := blocks[k].(state := state)], begin) == FindBegin(blocks, begin)
  {
    var now := blocks[k := blocks[k].(state := state)];
    var i, j := FindBegin(blocks, begin), FindBegin(now, begin);
    assert forall x | 0 <= x < |blocks| :: now[x].begin == blocks[x].begin;
  }

  /** Changing the block that `begin` finds changes that state and no other. */
  lemma StateAfterSet(ps: PieceState, begin: uint32, state: BlockState, other: uint32)
    requires FindBegin(ps.blocks, begin) < |ps.blocks|
    ensures StateIn(SetState(ps, FindBegin(ps.blocks, begin), state), other)
         == if other == begin then Some(state) else StateIn(ps, other)
  {
    FindBeginKept(ps.blocks, FindBegin(ps.blocks, begin), state, other);
  }

  lemma UnrequestEffect(ps: PieceState, begin: uint32, other: uint32)
    ensures StateIn(Unrequest(ps, begin), other)
         == if other == begin && StateIn(ps, other) == Some(Requested) then Some(Pending) else StateIn(ps, other)
  {
    if FindBegin(ps.blocks, begin) < |ps.blocks| {
      StateAfterSet(ps, begin, Pending, other);
    }
  }

  lemma StoreEffect(ps: PieceState, begin: uint32, block: seq<byte>, other: uint32)
    ensures StateIn(Store(ps, begin, block), other)
         == if other == begin && StateIn(ps, other).Some? then Some(Received) else StateIn(ps, other)
  {
    if FindBegin(ps.blocks, begin) < |ps.blocks| {
      StateAfterSet(ps, begin, Received, other);
    }
  }

  /** Exactly the requested blocks among `reqs` go back to Pending. */
  lemma {:induction false} ReleaseEffect(s: Mgr, reqs: seq<Req>, x: Key)
    ensures StateOf(Release(s, reqs), x)
         == if x in Keys(reqs) && StateOf(s, x) == Some(Requested) then Some(Pending) else StateOf(s, x)
    decreases |reqs|
  {
    if reqs != [] {
      var t := RequestFailed(s, reqs[0].piece, reqs[0].begin);
      if reqs[0].piece in s.progress && x.piece == reqs[0].piece {
        UnrequestEffect(s.progress[x.piece], reqs[0].begin, x.begin);
      }
      assert StateOf(t, x) == if x == KeyOf(reqs[0]) && StateOf(s, x) == Some(Requested) then Some(Pending) else StateOf(s, x);
      ReleaseEffect(t, reqs[1..], x);
      assert Keys(reqs) == {KeyOf(reqs[0])} + Keys(reqs[1..]);
    }
  }

  /** A well-shaped piece of the torrent is never set up twice, and a fresh one is all Pending. */
  lemma InitEffect(m: TorrentMetadata, s: Mgr, i: nat, x: Key)
    requires Sound(m) && Shaped(m, s) && i < m.numPieces
    ensures i in s.progress ==> Init(m, s, i) == s
    ensures StateOf(Init(m, s, i), x)
         == if x.piece == i && i !in s.progress then StateIn(FreshPiece(m, i), x.begin) else StateOf(s, x)
    ensures StateIn(FreshPiece(m, i), x.begin) in {None, Some(Pending)}
  {
    hide StateIn;
    PiecesPartition(m, i);
    FreshPending(m, i, x.begin);
    if i in s.progress {
      assert WellShaped(m, i, s.progress[i]);
    }
  }

  lemma FreshPending(m: TorrentMetadata, i: nat, begin: uint32)
    ensures StateIn(FreshPiece(m, i), begin) in {None, Some(Pending)}
  {
  }

  /** The block taken becomes Requested; no other block changes, except that the piece may be set up. */
  lemma NextBlockEffect(m: TorrentMetadata, s: Mgr, i: nat, x: Key)
    requires Sound(m) && Shaped(m, s) && i < m.numPieces && NextBlock(m, s, i).1.Some?
    ensures
      var (t, b) := NextBlock(m, s, i);
      var taken := Key(i, b.value.begin);
      && b.value.piece == i && i !in s.have
      && StateOf(Init(m, s, i), taken) == Some(Pending)
      && StateOf(t, x) == if x == taken then Some(Requested) else StateOf(Init(m, s, i), x)
  {
    hide Init, StateIn, FreshPiece;
    InitKeepsShape(m, s, i);
    var ps := Init(m, s, i).progress[i];
    var k := FirstPending(ps.blocks);
    TakenState(m, i, ps, k, x.begin);
  }

  lemma TakenState(m: TorrentMetadata, i: nat, ps: PieceState, k: nat, other: uint32)
    requires Sound(m) && i < m.numPieces && WellShaped(m, i, ps) && k < |ps.blocks| && ps.blocks[k].state.Pending?
    ensures ps.blocks[k].piece == i
    ensures StateIn(ps, ps.blocks[k].begin) == Some(Pending)
    ensures StateIn(SetState(ps, k, Requested), other) == if other == ps.blocks[k].begin then Some(Requested) else StateIn(ps, other)
  {
    FoundIs(m, i, ps, k);
    StateAfterSet(ps, ps.blocks[k].begin, Requested, other);
  }

  /** A piece of the torrent that gives no block is held, or set up already: nothing changes. */
  lemma NoBlockNoChange(m: TorrentMetadata, s: Mgr, i: nat)
    requires Sound(m) && Shaped(m, s) && i < m.numPieces && NextBlock(m, s, i).1.None?
    ensures NextBlock(m, s, i).0 == s
    ensures !HasPending(s, i)
  {
    hide PieceLength;
    PiecesPartition(m, i);
    InitEffect(m, s, i, Key(i, 0));
  }

  /** A delivered block that its piece has becomes Received; nothing else changes. */
  lemma ReceiveEffect(m: TorrentMetadata, s: Mgr, i: nat, begin: uint32, block: seq<byte>, x: Key)
    requires i !in s.have
    ensures
      var t := BlockReceived(m, s, i, begin, block).0;
      StateOf(t, x) == if x == Key(i, begin) && StateOf(Init(m, s, i), x).Some? then Some(Received) else StateOf(Init(m, s, i), x)
  {
    hide Init, StateIn, Store;
    InitHas(m, s, i);
    StoreEffect(Init(m, s, i).progress[i], begin, block, x.begin);
  }

  lemma InitHas(m: TorrentMetadata, s: Mgr, i: nat)
    ensures i in Init(m, s, i).progress && Init(m, s, i).have == s.have
  {
  }

  lemma RemoveEffect(s: Mgr, i: nat, x: Key)
    ensures StateOf(Completed(s, i), x) == StateOf(Dropped(s, i), x) == if x.piece == i then None else StateOf(s, x)
  {
  }

  /** The states of a well-shaped piece, by block number. */
  lemma StateByNumber(m: TorrentMetadata, s: Mgr, i: nat, k: nat)
    requires i in s.progress && WellShaped(m, i, s.progress[i]) && k < |s.progress[i].blocks|
    ensures StateOf(s, Key(i, s.progress[i].blocks[k].begin)) == Some(s.progress[i].blocks[k].state)
  {
    FoundIs(m, i, s.progress[i], k);
  }

  /* ---- request lists ---- */

  ghost predicate Distinct(out: seq<Req>) {
    forall a, b | 0 <= a < b < |out| :: KeyOf(out[a]) != KeyOf(out[b])
  }

  lemma KeysAppend(out: seq<Req>, r: Req)
    ensures Keys(out + [r]) == Keys(out) + {KeyOf(r)}
    ensures Distinct(out) && KeyOf(r) !in Keys(out) ==> Distinct(out + [r])
  {
    assert forall q :: q in out + [r] <==> q in out || q == r;
    forall a | 0 <= a < |out| ensures KeyOf(out[a]) in Keys(out) {
    }
  }

  lemma {:induction false} Without1Effect(out: seq<Req>, piece: nat, begin: uint32)
    ensures forall r | r in Without1(out, piece, begin) :: r in out
    ensures |Without1(out, piece, begin)| <= |out|
    ensures Keys(out) - {Key(piece, begin)} <= Keys(Without1(out, piece, begin)) <= Keys(out)
    ensures Distinct(out) ==> Distinct(Without1(out, piece, begin)) && Key(piece, begin) !in Keys(Without1(out, piece, begin))
  {
    if out != [] {
      var rest := out[1..];
      Without1Effect(rest, piece, begin);
      assert out == [out[0]] + rest;
      assert forall r :: r in out <==> r == out[0] || r in rest;
      assert Keys(out) == {KeyOf(out[0])} + Keys(rest);
      if Distinct(out) {
        HeadApart(out);
        if KeyOf(out[0]) != Key(piece, begin) {
          Prepend(out[0], Without1(rest, piece, begin));
        }
      }
      if KeyOf(out[0]) != Key(piece, begin) {
        var kept := Without1(rest, piece, begin);
        assert forall r :: r in [out[0]] + kept <==> r == out[0] || r in kept;
        assert Keys([out[0]] + kept) == {KeyOf(out[0])} + Keys(kept);
      }
    }
  }

  lemma HeadApart(out: seq<Req>)
    requires Distinct(out) && out != []
    ensures Distinct(out[1..]) && KeyOf(out[0]) !in Keys(out[1..])
  {
    forall r | r in out[1..] ensures KeyOf(r) != KeyOf(out[0]) {
      var a :| 0 <= a < |out[1..]| && out[1..][a] == r;
      assert out[a + 1] == r;
    }
  }

  lemma Prepend(r: Req, out: seq<Req>)
    requires Distinct(out) && KeyOf(r) !in Keys(out)
    ensures Distinct([r] + out)
  {
    var all := [r] + out;
    forall a, b | 0 <= a < b < |all| ensures KeyOf(all[a]) != KeyOf(all[b]) {
      assert all[b] == out[b - 1];
      assert out[b - 1] in out;
      if a > 0 {
        assert all[a] == out[a - 1];
      }
    }
  }

  /** Exactly the first request for the block leaves the list, if there is one. */
  lemma {:induction false} Without1Is(out: seq<Req>, piece: nat, begin: uint32, k: nat)
    requires k <= |out| && forall j | 0 <= j < k :: KeyOf(out[j]) != Key(piece, begin)
    requires k < |out| ==> KeyOf(out[k]) == Key(piece, begin)
    ensures Without1(out, piece, begin) == if k < |out| then out[..k] + out[k + 1..] else out
  {
    if k > 0 {
      var rest := out[1..];
      Without1Is(rest, piece, begin, k - 1);
      assert out == [out[0]] + rest;
      if k < |out| {
        assert out[..k] == [out[0]] + rest[..k - 1] && rest[k..] == out[k + 1..];
      }
    }
  }

  /** The list without a piece is its other requests in their order. */
  lemma {:induction false} PieceSplitsList(a: seq<Req>, b: seq<Req>, i: nat)
    ensures WithoutPiece(a + b, i) == WithoutPiece(a, i) + WithoutPiece(b, i)
    decreases |b|
  {
    if b == [] {
      assert a + b == a;
    } else {
      var n := |b| - 1;
      PieceSplitsList(a, b[..n], i);
      assert (a + b)[..|a + b| - 1] == a + b[..n];
    }
  }

  /** The cancels are for the piece's requests in their order. */
  lemma {:induction false} PieceSplitsCancels(a: seq<Req>, b: seq<Req>, i: nat)
    ensures Cancels(a + b, i) == Cancels(a, i) + Cancels(b, i)
    decreases |b|
  {
    if b == [] {
      assert a + b == a;
    } else {
      var n := |b| - 1;
      PieceSplitsCancels(a, b[..n], i);
      assert (a + b)[..|a + b| - 1] == a + b[..n];
    }
  }

  lemma PieceSplitsOne(r: Req, i: nat)
    ensures WithoutPiece([r], i) == if r.piece == i then [] else [r]
    ensures Cancels([r], i) == if r.piece == i then [Cancel(r.piece, r.begin, r.length)] else []
  {
    assert [r][..0] == [];
  }

  lemma {:induction false} WithoutPieceEffect(out: seq<Req>, i: nat)
    ensures forall r :: r in WithoutPiece(out, i) <==> r in out && r.piece != i
    ensures |WithoutPiece(out, i)| <= |out|
    ensures forall x :: x in Keys(WithoutPiece(out, i)) <==> x in Keys(out) && x.piece != i
    ensures Distinct(out) ==> Distinct(WithoutPiece(out, i))
  {
    if out != [] {
      var n := |out| - 1;
      WithoutPieceEffect(out[..n], i);
      assert out == out[..n] + [out[n]];
      assert forall r :: r in out <==> r in out[..n] || r == out[n];
      KeysAppend(out[..n], out[n]);
      KeysAppend(WithoutPiece(out[..n], i), out[n]);
      LastApart(out);
    }
  }

  lemma LastApart(out: seq<Req>)
    requires out != []
    ensures var n := |out| - 1; Distinct(out) ==> Distinct(out[..n]) && KeyOf(out[n]) !in Keys(out[..n])
  {
    var n := |out| - 1;
    if Distinct(out) {
      assert forall a | 0 <= a < n :: KeyOf(out[..n][a]) != KeyOf(out[n]);
    }
  }
}
