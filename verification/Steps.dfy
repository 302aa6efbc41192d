/** Every step of the engine keeps the laws of Reach. */
module Steps {
  import opened Bytes
  import opened Geometry
  import opened Disk
  import opened Bitfields
  import opened Wire
  import opened Pieces
  import opened Picker
  import opened Swarm
  import opened Ledger
  import opened Receipts
  import opened Pipeline
  import opened Reach

  /** Every peer registered throughout was told of exactly the pieces completed meanwhile, in order. */
  ghost predicate Told(e: Engine, f: Engine) {
    && e.completed <= f.completed
    && forall q | q in e.peers && q in f.peers ::
         Haves(f.peers[q].sent) == Haves(e.peers[q].sent) + f.completed[|e.completed|..]
  }

  lemma SameOutsideTells(e: Engine, f: Engine)
    requires SameOutside(e, f)
    ensures Told(e, f)
  {
    hide Haves, Undelivered;
  }

  lemma ToldTransitive(e: Engine, f: Engine, g: Engine)
    requires Told(e, f) && Told(f, g) && e.peers.Keys * g.peers.Keys <= f.peers.Keys
    ensures Told(e, g)
  {
    hide Haves;
    var k, l := |e.completed|, |f.completed|;
    assert g.completed[..l] == f.completed && f.completed[..k] == e.completed;
    assert g.completed[..k] == e.completed;
    assert g.completed[k..] == f.completed[k..] + g.completed[l..];
    forall q | q in e.peers && q in g.peers
      ensures Haves(g.peers[q].sent) == Haves(e.peers[q].sent) + g.completed[k..]
    {
      assert q in e.peers.Keys * g.peers.Keys;
    }
  }

  /* ---- accepting a block ---- */

  lemma BlockReceivedTables(m: TorrentMetadata, s: Mgr, i: nat, begin: uint32, block: seq<byte>)
    requires Tables(m, s) && i < m.numPieces
    ensures Tables(m, BlockReceived(m, s, i, begin, block).0)
  {
    hide Shaped, FreshPiece, Store;
    OperationsKeepShape(m, s, i, begin, block);
  }

  lemma AcceptSound(c: Config, s: Slot, i: nat, begin: uint32, block: seq<byte>)
    requires Sound(c.meta) && SlotSound(c, s) && Counted(s.mgr) && Unfinished(s.mgr) && i < c.meta.numPieces
    ensures
      var (t, complete) := Accept(c, s, i, begin, block);
      && SlotSound(c, t) && Counted(t.mgr) && t.mgr.have == s.mgr.have
      && t.peer == s.peer.(out := t.peer.out)
      && (!complete ==> Unfinished(t.mgr))
      && (complete ==>
            && i in t.mgr.progress && Unfinished(Dropped(t.mgr, i))
            && t.mgr.progress[i].blocksReceived == |t.mgr.progress[i].blocks|)
  {
    hide BlockReceived, Counted, Unfinished, Asks, Sound, Shaped;
    BlockReceivedTables(c.meta, s.mgr, i, begin, block);
    Without1Effect(s.peer.out, i, begin);
    ReceiveKeepsCounts(c.meta, s.mgr, i, begin, block);
  }

  lemma AcceptOwners(c: Config, s: Slot, i: nat, begin: uint32, block: seq<byte>, others: set<Key>)
    requires Sound(c.meta) && Tables(c.meta, s.mgr) && i < c.meta.numPieces
    ensures
      var t := Accept(c, s, i, begin, block).0;
      && (NoneLost(s.mgr, s.peer.out, others) ==> NoneLost(t.mgr, t.peer.out, others))
      && (Exclusive(s.mgr, s.peer.out, others) ==> Exclusive(t.mgr, t.peer.out, others))
      && (Exclusive(s.mgr, s.peer.out, others) && OnRequest(s.mgr, s.peer.out, others) && Key(i, begin) in Keys(s.peer.out) ==>
            OnRequest(t.mgr, t.peer.out, others))
  {
    hide BlockReceived, StateOf, Keys, Distinct, Init, Sound;
    var t := Accept(c, s, i, begin, block).0;
    Without1Effect(s.peer.out, i, begin);
    forall x: Key
      ensures StateOf(t.mgr, x) == StateOf(s.mgr, x)
           || (x == Key(i, begin) && StateOf(t.mgr, x) == Some(Received))
           || (StateOf(s.mgr, x) == None && StateOf(t.mgr, x) == Some(Pending))
      ensures x == Key(i, begin) ==> StateOf(t.mgr, x) in {None, Some(Received)}
    {
      AcceptState(c.meta, s.mgr, i, begin, block, x);
    }
  }

  lemma AcceptState(m: TorrentMetadata, s: Mgr, i: nat, begin: uint32, block: seq<byte>, x: Key)
    requires Sound(m) && Tables(m, s) && i < m.numPieces
    ensures
      var t := BlockReceived(m, s, i, begin, block).0;
      && (|| StateOf(t, x) == StateOf(s, x)
          || (x == Key(i, begin) && StateOf(t, x) == Some(Received))
          || (StateOf(s, x) == None && StateOf(t, x) == Some(Pending)))
      && (x == Key(i, begin) ==> StateOf(t, x) in {None, Some(Received)})
  {
    hide StateOf, Init, Sound;
    AbsentState(s, x.piece, x.begin);
    assert x == Key(x.piece, x.begin);
    if i in s.have {
      HeldUnchanged(m, s, i, begin, block);
    } else {
      ReceiveEffect(m, s, i, begin, block, x);
      InitEffect(m, s, i, x);
    }
  }

  lemma HeldUnchanged(m: TorrentMetadata, s: Mgr, i: nat, begin: uint32, block: seq<byte>)
    requires i in s.have
    ensures BlockReceived(m, s, i, begin, block) == (s, false)
  {
  }

  /* ---- concluding a piece ---- */

  lemma AnnouncedWithin(m: TorrentMetadata, have: set<nat>, peer: Member, i: nat)
    requires Within(m, have, peer)
    ensures Within(m, have + {i}, Send(CancelAt(peer, i), Have(ToUint32(i))))
  {
    hide Asks, Cancels;
    WithoutPieceEffect(peer.out, i);
  }

  lemma IdleWithin(m: TorrentMetadata, have: set<nat>, peer: Member, i: nat)
    requires Within(m, have, peer)
    ensures Within(m, have, Idle(peer, i))
  {
    hide Asks;
  }

  lemma RemoveTables(m: TorrentMetadata, s: Mgr, i: nat)
    requires Tables(m, s) && Counted(s) && i < m.numPieces && Unfinished(Dropped(s, i))
    ensures Tables(m, Completed(s, i)) && Counted(Completed(s, i)) && Unfinished(Completed(s, i))
    ensures Tables(m, Dropped(s, i)) && Counted(Dropped(s, i))
  {
    hide WellShaped, Uncounted;
  }

  lemma FinishCore(c: Config, e: Engine, i: nat)
    requires Base(c, e) && i in e.mgr.progress && Unfinished(Dropped(e.mgr, i)) && i < c.meta.numPieces
    requires Validates(c, e.mgr, i)
    ensures Core(c, Finish(c, e, i)) && Finish(c, e, i).peers.Keys == e.peers.Keys
  {
    hide Tables, Counted, Unfinished, Sound, Within, Validates, PieceStart, CancelAt, Dropped, Completed;
    RemoveTables(c.meta, e.mgr, i);
    CompletedIs(e.mgr, i);
    forall q | q in e.peers
      ensures Within(c.meta, e.mgr.have + {i}, Announce(e.peers, i)[q])
    {
      AnnouncedWithin(c.meta, e.mgr.have, e.peers[q], i);
    }
  }

  lemma DiscardCore(c: Config, e: Engine, p: PeerId, i: nat)
    requires Base(c, e) && Unfinished(Dropped(e.mgr, i)) && i < c.meta.numPieces
    ensures Core(c, Discard(e, p, i)) && Discard(e, p, i).peers.Keys == e.peers.Keys
  {
    hide Tables, Counted, Unfinished, Sound, Within, Dropped, Completed;
    RemoveTables(c.meta, e.mgr, i);
    CompletedIs(e.mgr, i);
  }

  lemma ConcludeCore(c: Config, e: Engine, p: PeerId, i: nat)
    requires Base(c, e) && p in e.peers && i in e.mgr.progress && Unfinished(Dropped(e.mgr, i)) && i < c.meta.numPieces
    ensures Core(c, Conclude(c, e, p, i))
  {
    hide Tables, Counted, Unfinished, Sound, Within, Validates, Finish, Discard, Dropped, OwnersKept, SameOutside;
    if Validates(c, e.mgr, i) {
      FinishCore(c, e, i);
    } else {
      DiscardCore(c, e, p, i);
    }
    var done := if Validates(c, e.mgr, i) then Finish(c, e, i) else Discard(e, p, i);
    assert p in done.peers.Keys;
    IdleWithin(c.meta, done.mgr.have, done.peers[p], i);
    PutKeeps(c, done, p, Idle(done.peers[p], i));
  }

  lemma CompletedIs(s: Mgr, i: nat)
    ensures Completed(s, i).have == s.have + {i} && Dropped(s, i).have == s.have
  {
  }

  /** Completing a piece takes exactly its keys off the lists. */
  lemma AnnouncedOut(e: Engine, c: Config, p: PeerId, i: nat, q: PeerId)
    requires Sound(c.meta) && i < c.meta.numPieces && p in e.peers && q in e.peers
    ensures
      var f := Conclude(c, e, p, i);
      && f.peers.Keys == e.peers.Keys
      && f.peers[q].out == (if Validates(c, e.mgr, i) then WithoutPiece(e.peers[q].out, i) else e.peers[q].out)
      && f.peers[q].bits == e.peers[q].bits
  {
    hide WithoutPiece, Cancels, Validates, Sound;
  }

  lemma ConcludeOutstanding(c: Config, e: Engine, p: PeerId, i: nat, x: Key)
    requires Sound(c.meta) && i < c.meta.numPieces && p in e.peers
    ensures x in Outstanding(Conclude(c, e, p, i).peers)
       <==> x in Outstanding(e.peers) && (x.piece != i || !Validates(c, e.mgr, i))
  {
    hide Conclude, Validates, WithoutPiece, Outstanding, Sound;
    var f := Conclude(c, e, p, i);
    if x in Outstanding(f.peers) {
      var q := HolderOf(f.peers, x);
      AnnouncedOut(e, c, p, i, p);
      AnnouncedOut(e, c, p, i, q);
      WithoutPieceEffect(e.peers[q].out, i);
      OutstandingAt(e.peers, q, x);
    }
    if x in Outstanding(e.peers) && (x.piece != i || !Validates(c, e.mgr, i)) {
      var q := HolderOf(e.peers, x);
      AnnouncedOut(e, c, p, i, q);
      WithoutPieceEffect(e.peers[q].out, i);
      OutstandingAt(f.peers, q, x);
    }
  }

  lemma ConcludeState(c: Config, e: Engine, p: PeerId, i: nat, x: Key)
    requires Sound(c.meta) && i < c.meta.numPieces && p in e.peers
    ensures StateOf(Conclude(c, e, p, i).mgr, x) == if x.piece == i then None else StateOf(e.mgr, x)
  {
    hide Validates, Sound, Announce, StateOf, Completed, Dropped;
    RemoveEffect(e.mgr, i, x);
  }

  /** No request for piece `i` is left anywhere. */
  ghost predicate NoneFor(e: Engine, i: nat) {
    forall x | x in Outstanding(e.peers) :: x.piece != i
  }

  /** At this point requests are only removed, so exclusive assignment is kept; a dropped table may leave requests untracked. */
  lemma ConcludeOwners(c: Config, e: Engine, p: PeerId, i: nat)
    requires Sound(c.meta) && i < c.meta.numPieces && p in e.peers
    ensures
      var f := Conclude(c, e, p, i);
      && (NoLost(e) ==> NoLost(f))
      && (Sole(e) ==> Sole(f))
      && (Solo(e) ==> (Solo(f) <==> Validates(c, e.mgr, i) || NoneFor(e, i)))
      && (AllOnRequest(e) && (Validates(c, e.mgr, i) || NoneFor(e, i)) ==> AllOnRequest(f))
  {
    hide Conclude, Validates, StateOf, Outstanding, Sound, Keys, Distinct;
    var f := Conclude(c, e, p, i);
    forall x: Key
      ensures StateOf(f.mgr, x) == if x.piece == i then None else StateOf(e.mgr, x)
      ensures x in Outstanding(f.peers) <==> x in Outstanding(e.peers) && (x.piece != i || !Validates(c, e.mgr, i))
    {
      ConcludeState(c, e, p, i, x);
      ConcludeOutstanding(c, e, p, i, x);
    }
    AnnouncedOut(e, c, p, i, p);
    if Sole(e) {
      forall q | q in e.peers
        ensures Distinct(f.peers[q].out) && forall x | x in Keys(f.peers[q].out) :: x in Keys(e.peers[q].out)
      {
        AnnouncedOut(e, c, p, i, q);
        WithoutPieceEffect(e.peers[q].out, i);
      }
    }
  }

  /** With every outstanding block on request, a piece counted in full has none outstanding. */
  lemma FullHasNoneFor(e: Engine, i: nat)
    requires AllOnRequest(e) && Counted(e.mgr) && i in e.mgr.progress
    requires e.mgr.progress[i].blocksReceived == |e.mgr.progress[i].blocks|
    ensures NoneFor(e, i)
  {
    hide Outstanding;
    FullMeansReceived(e.mgr.progress[i]);
  }

  lemma ConcludeOutside(c: Config, e: Engine, p: PeerId, i: nat)
    requires Base(c, e) && p in e.peers && i in e.mgr.progress && i < c.meta.numPieces
    ensures
      var f := Conclude(c, e, p, i);
      && (Availability(e) ==> Availability(f))
      && (OnDisk(c, e) ==> OnDisk(c, f))
      && (Logged(e) ==> Logged(f))
  {
    hide Conclude, Availability, OnDisk, Logged, Sound, Tables, Counted, Within;
    if Availability(e) {
      ConcludeAvailability(c, e, p, i);
    }
    if OnDisk(c, e) {
      ConcludeOnDisk(c, e, p, i);
    }
    if Logged(e) {
      ConcludeLogged(c, e, p, i);
    }
  }

  lemma ConcludeAvailability(c: Config, e: Engine, p: PeerId, i: nat)
    requires Sound(c.meta) && p in e.peers && i < c.meta.numPieces && Availability(e)
    ensures Availability(Conclude(c, e, p, i))
  {
    hide Conclude, Sound, Sharers;
    var f := Conclude(c, e, p, i);
    AnnouncedOut(e, c, p, i, p);
    assert |f.peers| == |f.peers.Keys| && |e.peers| == |e.peers.Keys|;
    forall q | q in e.peers ensures f.peers[q].bits == e.peers[q].bits {
      AnnouncedOut(e, c, p, i, q);
    }
    forall j: nat ensures Sharers(f.peers, j) == Sharers(e.peers, j) {
      SharersSame(e.peers, f.peers, j);
    }
  }

  /** What Conclude does besides the peers. */
  lemma ConcludeParts(c: Config, e: Engine, p: PeerId, i: nat)
    requires Sound(c.meta) && p in e.peers && i < c.meta.numPieces
    ensures
      var f := Conclude(c, e, p, i);
      && f.mgr.progress == e.mgr.progress - {i}
      && (if Validates(c, e.mgr, i) then
            && i in e.mgr.progress && f.mgr.have == e.mgr.have + {i} && f.completed == e.completed + [i]
            && f.disk == Overwrite(e.disk, PieceStart(c.meta, i), e.mgr.progress[i].data) && f.corrupt == e.corrupt
          else
            f.mgr.have == e.mgr.have && f.completed == e.completed && f.disk == e.disk && f.corrupt == e.corrupt + [p])
  {
    hide Sound, Announce, PieceStart;
  }

  lemma ConcludeOnDisk(c: Config, e: Engine, p: PeerId, i: nat)
    requires Base(c, e) && p in e.peers && i in e.mgr.progress && i < c.meta.numPieces && OnDisk(c, e)
    ensures OnDisk(c, Conclude(c, e, p, i))
  {
    hide Conclude, Sound, Within, PieceStart, PieceLength, PieceSlice, Counted;
    ConcludeParts(c, e, p, i);
    var f := Conclude(c, e, p, i);
    var m := c.meta;
    if Validates(c, e.mgr, i) {
      var data := e.mgr.progress[i].data;
      DataLength(m, e.mgr, i);
      SoundHashes(m);
      PiecesPartition(m, i);
      forall j | j in f.mgr.have ensures Stored(c, f.disk, j) {
        WriteKeepsOtherPieces(e.disk, m, i, data, j);
      }
    }
  }

  lemma SoundHashes(m: TorrentMetadata)
    requires Sound(m)
    ensures |m.pieceHashes| == m.numPieces
  {
  }

  lemma DataLength(m: TorrentMetadata, s: Mgr, i: nat)
    requires Tables(m, s) && i in s.progress
    ensures |s.progress[i].data| == PieceLength(m, i)
  {
    assert WellShaped(m, i, s.progress[i]);
  }

  lemma ConcludeLogged(c: Config, e: Engine, p: PeerId, i: nat)
    requires Base(c, e) && p in e.peers && i in e.mgr.progress && i < c.meta.numPieces && Logged(e)
    ensures Logged(Conclude(c, e, p, i))
  {
    hide Conclude, Sound, Within, PieceStart, Counted, Shaped;
    ConcludeParts(c, e, p, i);
    var f := Conclude(c, e, p, i);
    if Validates(c, e.mgr, i) {
      var n := |e.completed|;
      assert i !in e.completed;
      forall a, b | 0 <= a < b < |f.completed| ensures f.completed[a] != f.completed[b] {
        assert f.completed[a] == e.completed[a];
        if b == n {
          assert e.completed[a] in e.completed;
        }
      }
      forall j ensures j in f.completed <==> j in f.mgr.have {
        assert j in f.completed <==> j in e.completed || j == i;
      }
    }
  }

  lemma {:induction false} HavesPlusCancels(sent: seq<Message>, out: seq<Req>, i: nat)
    ensures Haves(sent + Cancels(out, i)) == Haves(sent)
  {
    if out == [] {
      assert sent + Cancels(out, i) == sent;
    } else {
      var n := |out| - 1;
      var front := Cancels(out[..n], i);
      HavesPlusCancels(sent, out[..n], i);
      if out[n].piece == i {
        var last := Cancel(out[n].piece, out[n].begin, out[n].length);
        assert sent + Cancels(out, i) == (sent + front) + [last];
        HavesAppend(sent + front, last);
      } else {
        assert Cancels(out, i) == front;
      }
    }
  }

  lemma HavesAppend(sent: seq<Message>, m: Message)
    ensures Haves(sent + [m]) == Haves(sent) + if m.Have? then [m.pieceIndex] else []
  {
    assert (sent + [m])[..|sent|] == sent;
  }

  lemma ConcludeTells(c: Config, e: Engine, p: PeerId, i: nat)
    requires Sound(c.meta) && p in e.peers && i < c.meta.numPieces
    ensures Told(e, Conclude(c, e, p, i))
  {
    hide Haves, Cancels, WithoutPiece, Validates, Completed, Dropped, PieceStart;
    var f := Conclude(c, e, p, i);
    assert ToUint32(i) == i;
    forall q | q in e.peers
      ensures Haves(f.peers[q].sent) == Haves(e.peers[q].sent) + f.completed[|e.completed|..]
    {
      HavesPlusCancels(e.peers[q].sent, e.peers[q].out, i);
    }
  }

  /* ---- a piece message ---- */

  /** The message answers a request outstanding at its sender. */
  ghost predicate Answers(e: Engine, ev: Event) {
    ev.Deliver? && ev.msg.Piece? && ev.p in e.peers ==> Key(ev.msg.index, ev.msg.begin) in Keys(e.peers[ev.p].out)
  }

  ghost predicate Outside(c: Config, e: Engine) {
    Availability(e) && OnDisk(c, e) && Logged(e)
  }

  lemma TakenKeeps(c: Config, e: Engine, p: PeerId, i: nat, begin: uint32, block: seq<byte>)
    requires Core(c, e) && p in e.peers && i < c.meta.numPieces
    ensures
      var (t, complete) := Accept(c, SlotOf(e, p), i, begin, block);
      var f := WithSlot(e, p, t);
      && Base(c, f) && (!complete ==> Core(c, f))
      && (complete ==>
            && i in f.mgr.progress && Unfinished(Dropped(f.mgr, i))
            && f.mgr.progress[i].blocksReceived == |f.mgr.progress[i].blocks|)
      && (NoLost(e) ==> NoLost(f)) && (Solo(e) ==> Solo(f))
      && (Solo(e) && AllOnRequest(e) && Key(i, begin) in Keys(e.peers[p].out) ==> AllOnRequest(f))
      && (Outside(c, e) ==> Outside(c, f)) && Told(e, f) && f.corrupt == e.corrupt
  {
    hide Accept, Tables, Within, Counted, Unfinished, Sound, Haves, NoneLost, Exclusive, OnRequest, NoLost, Solo,
      AllOnRequest, Stored, Dropped;
    var s := SlotOf(e, p);
    var t := Accept(c, s, i, begin, block).0;
    AcceptSound(c, s, i, begin, block);
    WithSlotCore(c, e, p, t);
    OwnersAtSlot(e, p);
    AcceptOwners(c, s, i, begin, block, Others(e, p));
    WithSlotOwners(e, p, t);
    if Availability(e) {
      PutSameBits(e, p, t.peer);
      HistOnly(Put(e, p, t.peer), WithSlot(e, p, t));
    }
  }

  lemma HistOnly(e: Engine, f: Engine)
    requires f.hist == e.hist && f.peers == e.peers && Availability(e)
    ensures Availability(f)
  {
  }

  lemma SettleKeeps(c: Config, e: Engine, p: PeerId, i: nat, begin: uint32, block: seq<byte>)
    requires Core(c, e) && p in e.peers && i < c.meta.numPieces
    ensures
      var f := Settle(c, e, p, i, begin, block);
      && Core(c, f) && Told(e, f) && f.peers.Keys == e.peers.Keys
      && (NoLost(e) ==> NoLost(f))
      && (Solo(e) && f.corrupt == e.corrupt ==> Solo(f))
      && (Solo(e) && AllOnRequest(e) && Key(i, begin) in Keys(e.peers[p].out) ==> Solo(f) && AllOnRequest(f))
      && (Outside(c, e) ==> Outside(c, f))
  {
    hide Accept, Conclude, Tables, Within, Counted, Unfinished, Sound, Haves, NoLost, Solo, AllOnRequest,
      Availability, OnDisk, Logged, NoneFor, Told, Validates, Dropped, Keys;
    var (t, complete) := Accept(c, SlotOf(e, p), i, begin, block);
    var taken := WithSlot(e, p, t);
    TakenKeeps(c, e, p, i, begin, block);
    if complete {
      var f := Conclude(c, taken, p, i);
      ConcludeCore(c, taken, p, i);
      ConcludeOwners(c, taken, p, i);
      ConcludeOutside(c, taken, p, i);
      ConcludeTells(c, taken, p, i);
      AnnouncedOut(taken, c, p, i, p);
      ToldTransitive(e, taken, f);
      ConcludeParts(c, taken, p, i);
      if AllOnRequest(taken) {
        FullHasNoneFor(taken, i);
      }
    }
  }

  /* ---- the other steps ---- */

  lemma ExpressSame(peer: Member, wanted: bool)
    ensures var r := Express(peer, wanted);
            && r.(sent := peer.sent, interested := peer.interested) == peer
            && Haves(r.sent) == Haves(peer.sent)
  {
    hide Haves;
  }

  /** The laws that do not mention availability, over a step that is not a piece message. */
  ghost predicate Calm(c: Config, e: Engine, f: Engine) {
    && Core(c, f) && OwnersKept(e, f) && Told(e, f)
    && f.disk == e.disk && f.completed == e.completed && f.corrupt == e.corrupt && f.mgr.have == e.mgr.have
    && Undelivered(e.mgr, f.mgr)
  }

  lemma CalmCore(c: Config, e: Engine, f: Engine)
    requires Calm(c, e, f)
    ensures Core(c, f)
  {
  }

  lemma CalmOutside(c: Config, e: Engine, f: Engine)
    requires Calm(c, e, f) && Outside(c, e) && Availability(f)
    ensures Outside(c, f)
  {
    hide Core, OwnersKept, Told, Availability, Stored, Undelivered;
  }

  lemma SameOutsideCalm(c: Config, e: Engine, f: Engine)
    requires Core(c, f) && OwnersKept(e, f) && SameOutside(e, f)
    ensures Calm(c, e, f)
  {
    hide Core, OwnersKept, Undelivered, Told;
    SameOutsideTells(e, f);
  }

  lemma CalmTransitive(c: Config, e: Engine, f: Engine, g: Engine)
    requires Calm(c, e, f) && Calm(c, f, g) && e.peers.Keys * g.peers.Keys <= f.peers.Keys
    ensures Calm(c, e, g)
  {
    hide Core, OwnersKept, Told, Undelivered;
    ToldTransitive(e, f, g);
    OwnersKeptTransitive(e, f, g);
    UndeliveredTransitive(e.mgr, f.mgr, g.mgr);
  }

  lemma RebitCalm(c: Config, e: Engine, p: PeerId, bits: set<nat>)
    requires Core(c, e) && p in e.peers && forall i | i in bits :: i < c.meta.numPieces
    ensures var f := Rebit(c, e, p, bits); Calm(c, e, f) && f.peers.Keys == e.peers.Keys
    ensures Availability(e) ==> Availability(Rebit(c, e, p, bits))
  {
    hide Haves, Added, Removed, Core, OwnersKept, Availability, Express, Undelivered, Asks;
    var peer := e.peers[p];
    var hist := Added(Removed(e.hist, peer.bits), bits);
    var now := Express(peer.(bits := bits), !(bits <= e.mgr.have));
    ExpressSame(peer.(bits := bits), !(bits <= e.mgr.have));
    CoreWithin(c, e, p);
    HistKeeps(c, e, hist);
    PutKeeps(c, e.(hist := hist), p, now);
    OwnersKeptTransitive(e, e.(hist := hist), Put(e.(hist := hist), p, now));
    SelfUndelivered(e.mgr);
    if Availability(e) {
      ReplacedBits(e, p, now);
    }
  }

  lemma CoreWithin(c: Config, e: Engine, p: PeerId)
    requires Core(c, e) && p in e.peers
    ensures Within(c.meta, e.mgr.have, e.peers[p])
    ensures Sized(c, e.hist)
  {
  }

  lemma RefillCalm(c: Config, e: Engine, p: PeerId)
    requires Core(c, e) && p in e.peers
    ensures Calm(c, e, Refill(c, e, p)) && Refill(c, e, p).peers.Keys == e.peers.Keys
    ensures Availability(e) ==> Availability(Refill(c, e, p))
    ensures Outside(c, e) ==> Outside(c, Refill(c, e, p))
  {
    hide Refill, Core, OwnersKept, Undelivered, Haves, Told, Availability, OnDisk, Logged;
    CoreWithin(c, e, p);
    RefillKeeps(c, e, p);
    SameOutsideKeeps(c, e, Refill(c, e, p));
    SameOutsideCalm(c, e, Refill(c, e, p));
  }

  lemma OnBitfieldCalm(c: Config, e: Engine, p: PeerId, raw: seq<byte>)
    requires Core(c, e) && p in e.peers
    ensures Calm(c, e, OnBitfield(c, e, p, raw))
    ensures Availability(e) ==> Availability(OnBitfield(c, e, p, raw))
  {
    hide Refill, Rebit, Core, OwnersKept, Undelivered, Told, Availability, Outside;
    CoreWithin(c, e, p);
    var bits := Announced(raw, c.meta.numPieces);
    RebitCalm(c, e, p, bits);
    RefillCalm(c, Rebit(c, e, p, bits), p);
    CalmTransitive(c, e, Rebit(c, e, p, bits), OnBitfield(c, e, p, raw));
  }

  lemma OnHaveCalm(c: Config, e: Engine, p: PeerId, i: nat)
    requires Core(c, e) && p in e.peers
    ensures Calm(c, e, OnHave(c, e, p, i))
    ensures Availability(e) ==> Availability(OnHave(c, e, p, i))
  {
    hide Haves, Added, Core, OwnersKept, Availability, Express, Undelivered, Asks, OnHave;
    SelfUndelivered(e.mgr);
    if i < c.meta.numPieces {
      var peer := e.peers[p];
      var bits := peer.bits + {i};
      var hist := if i in peer.bits then e.hist else Added(e.hist, {i});
      var now := Express(peer.(bits := bits), i !in e.mgr.have);
      OnHaveIs(c, e, p, i);
      ExpressSame(peer.(bits := bits), i !in e.mgr.have);
      CoreWithin(c, e, p);
      HistKeeps(c, e, hist);
      PutKeeps(c, e.(hist := hist), p, now);
      OwnersKeptTransitive(e, e.(hist := hist), Put(e.(hist := hist), p, now));
      if Availability(e) {
        if i in peer.bits {
          PutSameBits(e, p, now);
          assert e.(hist := hist) == e;
        } else {
          CoreHist(c, e);
          AddedBit(e, p, i, now);
        }
      }
    } else {
      OnHaveIs(c, e, p, i);
      OwnersKeptSelf(e);
    }
  }

  lemma OwnersKeptSelf(e: Engine)
    ensures OwnersKept(e, e)
  {
  }

  lemma CoreHist(c: Config, e: Engine)
    requires Core(c, e)
    ensures |e.hist| == c.meta.numPieces
  {
  }

  lemma RegisterCalm(c: Config, e: Engine, p: PeerId, choking: bool, interested: bool)
    requires Core(c, e) && p !in e.peers
    ensures Calm(c, e, Put(e, p, Peer(choking, interested, {}, [], None, [])))
  {
    hide Tables, Counted, Unfinished, Sound, Undelivered, Haves, NoLost, Solo, AllOnRequest, Asks;
    SelfUndelivered(e.mgr);
    var peer: Member := Peer(choking, interested, {}, [], None, []);
    var f := Put(e, p, peer);
    EmptyPeerOwners(e, p, peer);
  }

  lemma EmptyPeerOwners(e: Engine, p: PeerId, peer: Member)
    requires p !in e.peers && peer.out == []
    ensures OwnersKept(e, Put(e, p, peer))
  {
    hide StateOf, Outstanding;
    var f := Put(e, p, peer);
    OutstandingSplit(f.peers, p);
    assert f.peers - {p} == e.peers;
    assert Keys([]) == {};
  }

  lemma UnregisterCalm(c: Config, e: Engine, p: PeerId)
    requires Core(c, e) && p in e.peers
    ensures Calm(c, e, OnUnregister(e, p))
  {
    hide Tables, Counted, Unfinished, Sound, Undelivered, Haves, NoLost, Solo, AllOnRequest, Within, Release,
      Removed, Core;
    var f := OnUnregister(e, p);
    UnregisterCore(c, e, p);
    ReleaseUndelivered(e.mgr, e.peers[p].out);
    UnregisterOwners(e, p);
  }

  lemma UnregisterCore(c: Config, e: Engine, p: PeerId)
    requires Core(c, e) && p in e.peers
    ensures Core(c, OnUnregister(e, p)) && OnUnregister(e, p).mgr.have == e.mgr.have
  {
    hide Tables, Counted, Unfinished, Sound, Undelivered, Within, Release, Removed;
    ReleaseTables(c.meta, e.mgr, e.peers[p].out);
    ReleaseUndelivered(e.mgr, e.peers[p].out);
    UndeliveredKeepsCounts(e.mgr, Release(e.mgr, e.peers[p].out));
  }

  lemma UnregisterOwners(e: Engine, p: PeerId)
    requires p in e.peers
    ensures OwnersKept(e, OnUnregister(e, p))
  {
    hide StateOf, Outstanding, Keys, Release, Distinct, Removed;
    var f := OnUnregister(e, p);
    OwnersAtSlot(e, p);
    ReleaseOwners(e.mgr, e.peers[p].out, Others(e, p));
    assert Outstanding(f.peers) == Others(e, p);
    assert Keys([]) == {} by {
      NoKeys();
    }
  }

  lemma NoKeys()
    ensures Keys([]) == {}
  {
  }

  /* ---- every step ---- */

  /** The invariant of the engine against arbitrary peers. */
  ghost predicate Inv(c: Config, e: Engine) {
    Core(c, e) && NoLost(e) && Outside(c, e)
  }

  lemma CalmStep(c: Config, e: Engine, ev: Event)
    requires Inv(c, e) && Enabled(c, e, ev)
    requires !(ev.Deliver? && ev.msg.Piece?)
    ensures Calm(c, e, Step(c, e, ev)) && Availability(Step(c, e, ev))
  {
    hide Core, OwnersKept, Told, Undelivered, Availability, NoLost, OnDisk, Logged, OnChoke, OnUnchoke, OnBitfield,
      OnHave, OnUnregister, Put, Sound;
    InvCore(c, e);
    match ev
    case Register(p, choking, interested) =>
      RegisterCalm(c, e, p, choking, interested);
      RegisteredAvailability(e, p, Peer(choking, interested, {}, [], None, []));
    case Unregister(p) =>
      if p in e.peers {
        UnregisterCalm(c, e, p);
        UnregisteredAvailability(e, p);
      } else {
        CalmSelf(c, e);
      }
    case Deliver(p, msg) =>
      if p in e.peers {
        CalmMessage(c, e, p, msg);
      } else {
        CalmSelf(c, e);
      }
  }

  lemma InvCore(c: Config, e: Engine)
    requires Inv(c, e)
    ensures Core(c, e) && Availability(e) && Sized(c, e.hist)
  {
  }

  lemma CalmSelf(c: Config, e: Engine)
    requires Core(c, e)
    ensures Calm(c, e, e)
  {
    hide Core, OwnersKept, Undelivered;
    OwnersKeptSelf(e);
    SelfUndelivered(e.mgr);
  }

  lemma CalmMessage(c: Config, e: Engine, p: PeerId, msg: Message)
    requires Core(c, e) && Availability(e) && p in e.peers && !msg.Piece?
    ensures Calm(c, e, Handle(c, e, p, msg)) && Availability(Handle(c, e, p, msg))
  {
    hide Core, OwnersKept, Told, Undelivered, Availability, OnChoke, OnUnchoke, OnBitfield, OnHave, Sound,
      SameOutside, Calm;
    CoreWithin(c, e, p);
    match msg
    case Choke =>
      OnChokeKeeps(c, e, p);
      SameOutsideCalm(c, e, OnChoke(e, p));
      SameOutsideKeeps(c, e, OnChoke(e, p));
    case Unchoke =>
      OnUnchokeKeeps(c, e, p);
      SameOutsideCalm(c, e, OnUnchoke(c, e, p));
      SameOutsideKeeps(c, e, OnUnchoke(c, e, p));
    case BitfieldMsg(raw) => OnBitfieldCalm(c, e, p, raw);
    case Have(i) => OnHaveCalm(c, e, p, i);
    case _ => CalmSelf(c, e);
  }

  lemma PieceStep(c: Config, e: Engine, p: PeerId, i: nat, begin: uint32, block: seq<byte>)
    requires Inv(c, e) && p in e.peers && i < c.meta.numPieces
    ensures var f := OnPiece(c, e, p, i, begin, block);
            && Inv(c, f) && Told(e, f)
            && (Solo(e) && f.corrupt == e.corrupt ==> Solo(f))
            && (Solo(e) && AllOnRequest(e) && Key(i, begin) in Keys(e.peers[p].out) ==> Solo(f) && AllOnRequest(f))
  {
    hide Core, Told, Undelivered, Outside, NoLost, Settle, Refill, Solo, AllOnRequest, Sound, Keys;
    InvCore(c, e);
    var g := Settle(c, e, p, i, begin, block);
    SettleKeeps(c, e, p, i, begin, block);
    assert p in g.peers.Keys;
    RefillCalm(c, g, p);
    ToldTransitive(e, g, Refill(c, g, p));
  }

  /** Every step keeps the invariant and announces what it completes. */
  lemma StepKeeps(c: Config, e: Engine, ev: Event)
    requires Inv(c, e) && Enabled(c, e, ev)
    ensures var f := Step(c, e, ev);
            && Inv(c, f) && Told(e, f)
            && (Solo(e) && f.corrupt == e.corrupt ==> Solo(f))
            && (Solo(e) && AllOnRequest(e) && Answers(e, ev) ==> Solo(f) && AllOnRequest(f))
  {
    hide Core, Told, Undelivered, NoLost, Solo, AllOnRequest, Keys, Availability, OnDisk, Logged, OnPiece, Sound,
      OnUnregister, Put;
    InvCore(c, e);
    if ev.Deliver? && ev.msg.Piece? {
      if ev.p in e.peers {
        PieceStep(c, e, ev.p, ev.msg.index, ev.msg.begin, ev.msg.block);
      } else {
        CalmSelf(c, e);
      }
    } else {
      CalmStep(c, e, ev);
      CalmOutside(c, e, Step(c, e, ev));
    }
  }
}
