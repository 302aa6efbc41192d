/**
 The download finishes through its own requests: from every reachable honest state, once the other
 peers have left, one seeder that does nothing but answer requests outstanding at it brings the source
 onto disk, whichever of them it answers first.
 */
module Seeding {
  import opened Bytes
  import opened Geometry
  import opened Wire
  import opened Pieces
  import opened Swarm
  import opened Ledger
  import opened Receipts
  import opened Pipeline
  import opened Reach
  import opened Steps
  import opened Runs
  import opened Messages
  import opened Honest

  /* ---- how much is left ---- */

  /** The blocks of piece `i` that have not arrived. */
  function Missing(m: TorrentMetadata, s: Mgr, i: nat): nat {
    if i in s.have then 0
    else if i in s.progress then |s.progress[i].blocks| - CountReceived(s.progress[i].blocks)
    else BlockCount(PieceLength(m, i))
  }

  function Left(m: TorrentMetadata, s: Mgr, n: nat): nat {
    if n == 0 then 0 else Left(m, s, n - 1) + Missing(m, s, n - 1)
  }

  lemma {:induction false} LeftSame(m: TorrentMetadata, s: Mgr, t: Mgr, n: nat)
    requires forall i: nat | i < n :: Missing(m, s, i) == Missing(m, t, i)
    ensures Left(m, s, n) == Left(m, t, n)
  {
    hide Missing;
    if n > 0 {
      LeftSame(m, s, t, n - 1);
    }
  }

  lemma {:induction false} LeftOneLess(m: TorrentMetadata, s: Mgr, t: Mgr, i: nat, n: nat)
    requires i < n && Missing(m, s, i) == Missing(m, t, i) + 1
    requires forall j: nat | j < n && j != i :: Missing(m, s, j) == Missing(m, t, j)
    ensures Left(m, s, n) == Left(m, t, n) + 1
  {
    hide Missing;
    if i == n - 1 {
      LeftSame(m, s, t, n - 1);
    } else {
      LeftOneLess(m, s, t, i, n - 1);
    }
  }

  lemma UndeliveredMissing(m: TorrentMetadata, s: Mgr, t: Mgr, i: nat)
    requires Undelivered(s, t) && Tables(m, t) && i < m.numPieces
    ensures Missing(m, s, i) == Missing(m, t, i)
  {
    hide CountReceived, PieceLength, TableEntry;
    if i in t.progress {
      assert WellShaped(m, i, t.progress[i]);
      if i in s.progress {
        CountSame(s.progress[i].blocks, t.progress[i].blocks);
      } else {
        CountNone(t.progress[i].blocks);
      }
    }
  }

  lemma StoreOneMore(ps: PieceState, begin: uint32, block: seq<byte>)
    requires StateIn(ps, begin) == Some(Requested)
    ensures var qs := Store(ps, begin, block);
            |qs.blocks| == |ps.blocks| && CountReceived(qs.blocks) == CountReceived(ps.blocks) + 1
  {
    var k := FindBegin(ps.blocks, begin);
    CountUpdate(ps.blocks, k, ps.blocks[k].(state := Received));
  }

  /** A delivery that answers a request leaves one block less to come. */
  lemma ReceiveMissing(m: TorrentMetadata, s: Mgr, i: nat, begin: uint32, block: seq<byte>, j: nat)
    requires Sound(m) && Tables(m, s) && i < m.numPieces && StateOf(s, Key(i, begin)) == Some(Requested)
    ensures var t := BlockReceived(m, s, i, begin, block).0;
            Missing(m, s, j) == Missing(m, t, j) + if j == i then 1 else 0
  {
    hide CountReceived, Store, Sound, Shaped, StateIn, PieceLength;
    InitEffect(m, s, i, Key(i, begin));
    StoreOneMore(s.progress[i], begin, block);
  }

  lemma ConcludeMissing(c: Config, e: Engine, p: PeerId, i: nat, j: nat)
    requires Base(c, e) && p in e.peers && i < c.meta.numPieces && i in e.mgr.progress && Validates(c, e.mgr, i)
    requires e.mgr.progress[i].blocksReceived == |e.mgr.progress[i].blocks|
    ensures Missing(c.meta, Conclude(c, e, p, i).mgr, j) == Missing(c.meta, e.mgr, j)
  {
    hide Conclude, Sound, Within, Tables, PieceStart, PieceLength, Validates;
    ConcludeParts(c, e, p, i);
    if j == i {
      HeldApart(c, e, i);
      FullMeansReceived(e.mgr.progress[i]);
      CountFull(e.mgr.progress[i].blocks);
    }
  }

  lemma HeldApart(c: Config, e: Engine, i: nat)
    requires Base(c, e) && i in e.mgr.progress
    ensures i !in e.mgr.have && Uncounted(e.mgr.progress[i]) >= 0
  {
    hide Sound, Shaped, Within, Uncounted;
  }

  /** Settling an answered, genuine block: one block less to come. */
  lemma SettleMissing(c: Config, src: seq<byte>, e: Engine, p: PeerId, i: nat, begin: uint32, block: seq<byte>, j: nat)
    requires Describes(c, src) && Clean(c, src, e) && Core(c, e) && p in e.peers
    requires Sound(c.meta) && |src| == c.meta.totalLength
    requires GenuineBlock(c.meta, src, i, begin, block) && i < c.meta.numPieces
    requires StateOf(e.mgr, Key(i, begin)) == Some(Requested)
    ensures Missing(c.meta, e.mgr, j)
         == Missing(c.meta, Settle(c, e, p, i, begin, block).mgr, j) + if j == i then 1 else 0
  {
    hide Accept, Conclude, Clean, Core, Base, GenuineBlock, Describes, Outside, Told, NoLost, Solo, Sole, AllOnRequest, Unfinished,
      Dropped, Sound, Missing, BlockReceived, Validates, StateOf;
    CoreTables(c, e);
    var (t, complete) := Accept(c, SlotOf(e, p), i, begin, block);
    var taken := WithSlot(e, p, t);
    AcceptIs(c, SlotOf(e, p), i, begin, block);
    AcceptClean(c, src, e, p, i, begin, block);
    TakenKeeps(c, e, p, i, begin, block);
    ReceiveMissing(c.meta, e.mgr, i, begin, block, j);
    if complete {
      ConcludeClean(c, src, taken, p, i);
      CleanValidates(c, src, taken, p, i);
      ConcludeMissing(c, taken, p, i, j);
    }
  }

  lemma AcceptIs(c: Config, s: Slot, i: nat, begin: uint32, block: seq<byte>)
    ensures Accept(c, s, i, begin, block).0.mgr == BlockReceived(c.meta, s.mgr, i, begin, block).0
  {
    hide BlockReceived, Without1;
  }

  lemma CleanValidates(c: Config, src: seq<byte>, e: Engine, p: PeerId, i: nat)
    requires Sound(c.meta) && p in e.peers && i < c.meta.numPieces
    requires Clean(c, src, e) && Clean(c, src, Conclude(c, e, p, i))
    ensures Validates(c, e.mgr, i)
  {
    hide Conclude, Validates, AllGenuine, Same, Sound, PieceStart;
    ConcludeParts(c, e, p, i);
  }

  /* ---- one answer ---- */

  /** One peer is registered, what is outstanding is exactly what is Requested, and all so far is honest. */
  ghost predicate Single(c: Config, src: seq<byte>, e: Engine, p: PeerId) {
    Inv(c, e) && Clean(c, src, e) && Solo(e) && AllOnRequest(e) && e.peers.Keys == {p}
  }

  /** The peer has every piece and does not choke us, and the pipeline is full or there is nothing left to ask for. */
  ghost predicate Serving(c: Config, e: Engine, p: PeerId) {
    && p in e.peers && !e.peers[p].choking
    && (forall i: nat | i < c.meta.numPieces :: i in e.peers[p].bits)
    && (|e.peers[p].out| == PIPELINE || forall i :: !Useful(c.meta, e.mgr, e.peers[p].bits, i))
  }

  /** The message that answers a request. */
  ghost function Answer(c: Config, src: seq<byte>, p: PeerId, r: Req): (ev: Event)
    requires Sound(c.meta) && |src| == c.meta.totalLength && Asks(c.meta, r)
  {
    Deliver(p, Piece(r.piece, r.begin, SourceBytes(c.meta, src, r.piece, r.begin)))
  }

  lemma AnswerFits(c: Config, src: seq<byte>, e: Engine, p: PeerId, r: Req)
    requires Describes(c, src) && Inv(c, e) && AllOnRequest(e) && p in e.peers && r in e.peers[p].out
    ensures Sound(c.meta) && |src| == c.meta.totalLength && Asks(c.meta, r)
    ensures var ev := Answer(c, src, p, r);
            && Enabled(c, e, ev) && Fair(c, src, ev) && Answers(e, ev)
            && StateOf(e.mgr, Key(r.piece, r.begin)) == Some(Requested)
  {
    hide Outside, NoLost, StateOf, Tables, Counted, Unfinished, SourceBytes, PieceLength;
    ContentSize(c, src);
    assert Within(c.meta, e.mgr.have, e.peers[p]);
    assert KeyOf(r) == Key(r.piece, r.begin) && KeyOf(r) in Keys(e.peers[p].out);
    OutstandingAt(e.peers, p, KeyOf(r));
  }

  lemma AnswerLess(c: Config, src: seq<byte>, e: Engine, p: PeerId, r: Req)
    requires Describes(c, src) && Inv(c, e) && Clean(c, src, e) && p in e.peers
    requires Sound(c.meta) && |src| == c.meta.totalLength && Asks(c.meta, r) && Enabled(c, e, Answer(c, src, p, r))
    requires StateOf(e.mgr, Key(r.piece, r.begin)) == Some(Requested) && c.meta.numPieces >= 0
    ensures Left(c.meta, e.mgr, c.meta.numPieces)
         == Left(c.meta, Step(c, e, Answer(c, src, p, r)).mgr, c.meta.numPieces) + 1
  {
    hide Inv, Clean, Describes, Settle, Refill, Missing, Sound, SourceBytes, PieceLength, Core, Told, NoLost, Solo, Sole,
      AllOnRequest, Outside, Calm, Left, StateOf;
    InvCore(c, e);
    var i, begin, block := r.piece as nat, r.begin, SourceBytes(c.meta, src, r.piece, r.begin);
    var g := Settle(c, e, p, i, begin, block);
    SettleKeeps(c, e, p, i, begin, block);
    RefillCalm(c, g, p);
    var f := Refill(c, g, p);
    assert f == Step(c, e, Answer(c, src, p, r));
    CalmUndelivers(c, g, f);
    CoreTables(c, f);
    forall j: nat | j < c.meta.numPieces
      ensures Missing(c.meta, e.mgr, j) == Missing(c.meta, f.mgr, j) + if j == i then 1 else 0
    {
      SettleMissing(c, src, e, p, i, begin, block, j);
      UndeliveredMissing(c.meta, g.mgr, f.mgr, j);
    }
    LeftOneLess(c.meta, e.mgr, f.mgr, i, c.meta.numPieces);
  }

  lemma CalmUndelivers(c: Config, e: Engine, f: Engine)
    requires Calm(c, e, f)
    ensures Core(c, f) && Undelivered(e.mgr, f.mgr)
  {
  }

  /** An event that lets the honest, exclusive state of the one peer stand. */
  lemma SingleStep(c: Config, src: seq<byte>, e: Engine, p: PeerId, ev: Event)
    requires Describes(c, src) && Single(c, src, e, p) && Enabled(c, e, ev)
    requires Fair(c, src, ev) && Answers(e, ev) && ev.Deliver? && ev.p == p
    ensures Single(c, src, Step(c, e, ev), p)
  {
    hide Inv, Clean, Solo, AllOnRequest, Step, Enabled, Fair, Answers, Describes;
    assert p in e.peers.Keys;
    StepKeeps(c, e, ev);
    StepClean(c, src, e, ev);
    KeysStay(c, e, ev);
  }

  /**
   Whichever outstanding request the seeder answers, one block less is left to come, and the pipeline is
   topped off again or has nothing left to ask for.
   */
  lemma EveryAnswerCounts(c: Config, src: seq<byte>, e: Engine, p: PeerId, r: Req)
    requires Describes(c, src) && Single(c, src, e, p) && Serving(c, e, p) && r in e.peers[p].out && c.meta.numPieces >= 0
    ensures Sound(c.meta) && |src| == c.meta.totalLength && Asks(c.meta, r)
    ensures var ev := Answer(c, src, p, r);
            && Enabled(c, e, ev) && Fair(c, src, ev) && Answers(e, ev)
            && Single(c, src, Step(c, e, ev), p) && Serving(c, Step(c, e, ev), p)
            && Left(c.meta, e.mgr, c.meta.numPieces) == Left(c.meta, Step(c, e, ev).mgr, c.meta.numPieces) + 1
  {
    hide Inv, Clean, Solo, AllOnRequest, Step, Enabled, Fair, Answers, Describes, Useful, Left, StateOf, SourceBytes, Answer,
      Asks;
    AnswerFits(c, src, e, p, r);
    var ev := Answer(c, src, p, r);
    AnswerParts(c, src, p, r);
    AnswerLess(c, src, e, p, r);
    SingleStep(c, src, e, p, ev);
    ServingStays(c, e, p, ev);
  }

  lemma AnswerParts(c: Config, src: seq<byte>, p: PeerId, r: Req)
    requires Sound(c.meta) && |src| == c.meta.totalLength && Asks(c.meta, r)
    ensures var ev := Answer(c, src, p, r); ev.Deliver? && ev.p == p && ev.msg.Piece?
  {
    hide SourceBytes, PieceLength;
  }

  lemma ServingStays(c: Config, e: Engine, p: PeerId, ev: Event)
    requires Inv(c, e) && Serving(c, e, p) && Enabled(c, e, ev) && ev.Deliver? && ev.p == p && ev.msg.Piece?
    ensures Serving(c, Step(c, e, ev), p)
  {
    hide Core, NoLost, Outside, Refill, Settle, Useful, Told, Solo, AllOnRequest, RecordAfter;
    InvCore(c, e);
    var g := Settle(c, e, p, ev.msg.index, ev.msg.begin, ev.msg.block);
    SettleKeeps(c, e, p, ev.msg.index, ev.msg.begin, ev.msg.block);
    SettleRecord(c, e, p, ev.msg.index, ev.msg.begin, ev.msg.block, p);
    RefillServes(c, g, p);
    RefillRecord(c, g, p, p);
  }

  lemma RefillServes(c: Config, e: Engine, p: PeerId)
    requires Core(c, e) && p in e.peers && !e.peers[p].choking
    ensures var f := Refill(c, e, p);
            p in f.peers && (f.peers[p].choking || |f.peers[p].out| == PIPELINE
                             || forall i :: !Useful(c.meta, f.mgr, f.peers[p].bits, i))
  {
    hide Refill, Useful, Core;
    CoreWithin(c, e, p);
    RefillIsWorkConserving(c, e, p, 0);
    forall i ensures var f := Refill(c, e, p);
                     f.peers[p].choking || |f.peers[p].out| == PIPELINE || !Useful(c.meta, f.mgr, f.peers[p].bits, i)
    {
      if i >= 0 {
        RefillIsWorkConserving(c, e, p, i);
      }
    }
  }

  /** With no request outstanding at the only peer, a serving one, every piece is held. */
  lemma IdleMeansComplete(c: Config, src: seq<byte>, e: Engine, p: PeerId)
    requires Single(c, src, e, p) && Serving(c, e, p) && e.peers[p].out == []
    ensures forall i: nat | i < c.meta.numPieces :: i in e.mgr.have
  {
    hide Inv, Solo, AllOnRequest, HasPending, Genuine, Same, Uncounted;
    forall i: nat | i < c.meta.numPieces ensures i in e.mgr.have {
      if i !in e.mgr.have {
        if i in e.mgr.progress {
          GenuineCounted(c, src, e.mgr, i);
        }
        NotStuck(c, e, i);
        assert !Useful(c.meta, e.mgr, e.peers[p].bits, i);
        NobodyElse(e, p, i);
        assert false;
      }
    }
  }

  lemma GenuineCounted(c: Config, src: seq<byte>, s: Mgr, i: nat)
    requires AllGenuine(c, src, s) && i in s.progress
    ensures Uncounted(s.progress[i]) == 0
  {
    hide WellShaped, Matches, Uncounted;
    assert Genuine(c.meta, src, i, s.progress[i]);
  }

  lemma NobodyElse(e: Engine, p: PeerId, i: nat)
    requires e.peers.Keys == {p} && e.peers[p].out == []
    ensures !Awaited(e, i)
  {
    assert forall q | q in e.peers :: q in e.peers.Keys;
  }

  /* ---- the continuation ---- */

  /** Every piece message of the continuation answers a request outstanding at its sender. */
  ghost predicate AllAnswers(c: Config, disk: seq<byte>, evs: seq<Event>, more: seq<Event>)
    requires Startable(c, disk)
    decreases |more|
  {
    more == [] ||
    var n := |more| - 1;
    Legal(c, disk, evs + more[..n]) && AllAnswers(c, disk, evs, more[..n]) && Answers(After(c, disk, evs + more[..n]), more[n])
  }

  /** An honest continuation that delivers only what was asked for. */
  ghost predicate Proper(c: Config, src: seq<byte>, disk: seq<byte>, evs: seq<Event>, more: seq<Event>)
    requires Describes(c, src) && Startable(c, disk)
  {
    Legal(c, disk, evs + more) && AllFair(c, src, more) && AllAnswers(c, disk, evs, more)
  }

  lemma ProperStep(c: Config, src: seq<byte>, disk: seq<byte>, evs: seq<Event>, more: seq<Event>, ev: Event)
    requires Describes(c, src) && Startable(c, disk) && Proper(c, src, disk, evs, more)
    requires var e := After(c, disk, evs + more); Enabled(c, e, ev) && Fair(c, src, ev) && Answers(e, ev)
    ensures Proper(c, src, disk, evs, more + [ev])
    ensures After(c, disk, evs + (more + [ev])) == Step(c, After(c, disk, evs + more), ev)
  {
    hide Describes, Startable, Enabled, Step, After, Legal, Fair, Answers;
    Extend(c, disk, evs + more, ev);
    assert evs + (more + [ev]) == (evs + more) + [ev];
    assert (more + [ev])[..|more|] == more;
  }

  lemma ProperState(c: Config, src: seq<byte>, disk: seq<byte>, evs: seq<Event>, more: seq<Event>)
    requires Describes(c, src) && Startable(c, disk) && AllFair(c, src, evs) && Proper(c, src, disk, evs, more)
    ensures Inv(c, After(c, disk, evs + more)) && Clean(c, src, After(c, disk, evs + more))
  {
    hide Describes, Startable, After, Legal, Fair, Inv, Clean;
    Reachable(c, disk, evs + more);
    StaysClean(c, src, disk, evs + more);
  }

  /** Every peer leaves. */
  lemma AllLeave(c: Config, src: seq<byte>, disk: seq<byte>, evs: seq<Event>) returns (more: seq<Event>)
    requires Describes(c, src) && Startable(c, disk) && Legal(c, disk, evs) && AllFair(c, src, evs)
    ensures Proper(c, src, disk, evs, more) && After(c, disk, evs + more).peers == map[]
  {
    hide Describes, Startable, After, Legal, OnUnregister;
    more := [];
    assert evs + more == evs;
    while After(c, disk, evs + more).peers.Keys != {}
      invariant Proper(c, src, disk, evs, more)
      decreases |After(c, disk, evs + more).peers.Keys|
    {
      var e := After(c, disk, evs + more);
      var q :| q in e.peers.Keys;
      ProperStep(c, src, disk, evs, more, Unregister(q));
      Leaving(e, q);
      more := more + [Unregister(q)];
    }
  }

  lemma Leaving(e: Engine, q: PeerId)
    requires q in e.peers
    ensures OnUnregister(e, q).peers.Keys == e.peers.Keys - {q} && |OnUnregister(e, q).peers.Keys| < |e.peers.Keys|
  {
    hide Release;
  }

  /** A seeder is registered: the only peer, with nothing outstanding. */
  lemma SeederJoins(c: Config, src: seq<byte>, disk: seq<byte>, evs: seq<Event>, p: PeerId) returns (more: seq<Event>)
    requires Describes(c, src) && Startable(c, disk) && Legal(c, disk, evs) && AllFair(c, src, evs)
    ensures Proper(c, src, disk, evs, more) && Single(c, src, After(c, disk, evs + more), p)
  {
    hide Describes, Startable, After, Legal, Inv, Clean;
    var gone := AllLeave(c, src, disk, evs);
    var ev := Register(p, true, false);
    var e := After(c, disk, evs + gone);
    assert |e.peers| == 0;
    ProperStep(c, src, disk, evs, gone, ev);
    more := gone + [ev];
    ProperState(c, src, disk, evs, more);
    NothingOut(After(c, disk, evs + more), p);
  }

  lemma NothingOut(e: Engine, p: PeerId)
    requires e.peers.Keys == {p} && e.peers[p].out == []
    ensures Solo(e) && AllOnRequest(e)
  {
    hide StateOf;
    assert forall q | q in e.peers :: q in e.peers.Keys;
    assert Outstanding(e.peers) == {};
  }

  lemma HaveStep(c: Config, src: seq<byte>, e: Engine, p: PeerId, k: nat)
    requires Describes(c, src) && Single(c, src, e, p) && p in e.peers && k < c.meta.numPieces < 0x8000_0000
    ensures var ev := Deliver(p, Have(k));
            && Enabled(c, e, ev) && Fair(c, src, ev) && Answers(e, ev)
            && Single(c, src, Step(c, e, ev), p) && p in Step(c, e, ev).peers
            && Step(c, e, ev).peers[p].bits == e.peers[p].bits + {k}
  {
    hide Inv, Clean, Solo, AllOnRequest, Describes, OnHave, Single;
    SingleInv(c, src, e, p);
    InvCore(c, e);
    SingleStep(c, src, e, p, Deliver(p, Have(k)));
    HandleRecord(c, e, p, Have(k), p);
  }

  lemma SingleInv(c: Config, src: seq<byte>, e: Engine, p: PeerId)
    requires Single(c, src, e, p)
    ensures Inv(c, e) && Clean(c, src, e) && p in e.peers
  {
    assert p in e.peers.Keys;
  }

  /** The seeder announces every piece below `n`. */
  lemma {:induction false} SeederAnnounces(c: Config, src: seq<byte>, disk: seq<byte>, evs: seq<Event>, p: PeerId, n: nat)
    returns (more: seq<Event>)
    requires Describes(c, src) && Startable(c, disk) && Legal(c, disk, evs) && AllFair(c, src, evs)
    requires n <= c.meta.numPieces < 0x8000_0000
    ensures Proper(c, src, disk, evs, more)
    ensures var e := After(c, disk, evs + more);
            Single(c, src, e, p) && p in e.peers && forall i: nat | i < n :: i in e.peers[p].bits
  {
    hide Describes, Startable, After, Legal, Fair, Single, Answers, Enabled, Step, Proper;
    if n == 0 {
      more := SeederJoins(c, src, disk, evs, p);
      ProperLegal(c, src, disk, evs, more);
      SingleInv(c, src, After(c, disk, evs + more), p);
    } else {
      var front := SeederAnnounces(c, src, disk, evs, p, n - 1);
      ProperLegal(c, src, disk, evs, front);
      HaveStep(c, src, After(c, disk, evs + front), p, n - 1);
      ProperStep(c, src, disk, evs, front, Deliver(p, Have(n - 1)));
      more := front + [Deliver(p, Have(n - 1))];
      ProperLegal(c, src, disk, evs, more);
    }
  }

  lemma ProperLegal(c: Config, src: seq<byte>, disk: seq<byte>, evs: seq<Event>, more: seq<Event>)
    requires Describes(c, src) && Startable(c, disk) && Proper(c, src, disk, evs, more)
    ensures Legal(c, disk, evs + more) && AllFair(c, src, more) && AllAnswers(c, disk, evs, more)
  {
    hide Describes, Startable, Legal, Fair, AllAnswers;
  }

  lemma UnchokeStep(c: Config, src: seq<byte>, e: Engine, p: PeerId)
    requires Describes(c, src) && Single(c, src, e, p) && p in e.peers
    requires forall i: nat | i < c.meta.numPieces :: i in e.peers[p].bits
    ensures var ev := Deliver(p, Unchoke);
            && Enabled(c, e, ev) && Fair(c, src, ev) && Answers(e, ev)
            && Single(c, src, Step(c, e, ev), p) && Serving(c, Step(c, e, ev), p)
  {
    hide Inv, Clean, Solo, AllOnRequest, Describes, Refill, Useful, Single, Core;
    SingleInv(c, src, e, p);
    InvCore(c, e);
    SingleStep(c, src, e, p, Deliver(p, Unchoke));
    var g := Put(e, p, e.peers[p].(choking := false));
    CoreWithin(c, e, p);
    PutKeeps(c, e, p, e.peers[p].(choking := false));
    RefillServes(c, g, p);
    RefillRecord(c, g, p, p);
  }

  /** From every reachable honest state to a serving seeder. */
  lemma SeederServes(c: Config, src: seq<byte>, disk: seq<byte>, evs: seq<Event>, p: PeerId) returns (more: seq<Event>)
    requires Describes(c, src) && Startable(c, disk) && Legal(c, disk, evs) && AllFair(c, src, evs)
    requires 0 <= c.meta.numPieces < 0x8000_0000
    ensures Proper(c, src, disk, evs, more)
    ensures var e := After(c, disk, evs + more); Single(c, src, e, p) && Serving(c, e, p)
  {
    hide Describes, Startable, After, Legal, Fair, Single, Answers, Enabled, Step, Proper, Serving;
    var front := SeederAnnounces(c, src, disk, evs, p, c.meta.numPieces);
    ProperLegal(c, src, disk, evs, front);
    UnchokeStep(c, src, After(c, disk, evs + front), p);
    ProperStep(c, src, disk, evs, front, Deliver(p, Unchoke));
    more := front + [Deliver(p, Unchoke)];
    ProperLegal(c, src, disk, evs, more);
  }

  lemma NumPieces(c: Config, src: seq<byte>)
    requires Describes(c, src)
    ensures 0 <= c.meta.numPieces < 0x8000_0000
  {
  }

  /**
   From every reachable honest state: the other peers leave, a seeder joins, announces every piece and
   unchokes us, and from then on only answers requests outstanding at it; then the source is on disk.
   */
  lemma SeederFinishes(c: Config, src: seq<byte>, disk: seq<byte>, evs: seq<Event>, p: PeerId) returns (more: seq<Event>)
    requires Describes(c, src) && Startable(c, disk) && Legal(c, disk, evs) && AllFair(c, src, evs)
    ensures Legal(c, disk, evs + more) && AllFair(c, src, more) && AllAnswers(c, disk, evs, more)
    ensures forall i: nat | i < c.meta.numPieces :: i in After(c, disk, evs + more).mgr.have
    ensures After(c, disk, evs + more).disk == src
  {
    hide Describes, Startable, After, Legal, Single, Answers, Enabled, Step, Proper, Serving, Left, Answer, Fair,
      AllAnswers;
    NumPieces(c, src);
    more := SeederServes(c, src, disk, evs, p);
    ProperLegal(c, src, disk, evs, more);
    SingleInv(c, src, After(c, disk, evs + more), p);
    while After(c, disk, evs + more).peers[p].out != []
      invariant Proper(c, src, disk, evs, more) && Legal(c, disk, evs + more)
      invariant p in After(c, disk, evs + more).peers
      invariant Single(c, src, After(c, disk, evs + more), p) && Serving(c, After(c, disk, evs + more), p)
      decreases Left(c.meta, After(c, disk, evs + more).mgr, c.meta.numPieces)
    {
      var e := After(c, disk, evs + more);
      var r := e.peers[p].out[0];
      EveryAnswerCounts(c, src, e, p, r);
      ProperStep(c, src, disk, evs, more, Answer(c, src, p, r));
      more := more + [Answer(c, src, p, r)];
      ProperLegal(c, src, disk, evs, more);
      SingleInv(c, src, After(c, disk, evs + more), p);
    }
    IdleMeansComplete(c, src, After(c, disk, evs + more), p);
    ProperLegal(c, src, disk, evs, more);
    HonestSwarm(c, src, disk, evs + more);
  }
}
