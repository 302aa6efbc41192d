/**
 When every block is outstanding at one peer at most: the exact condition on a step, on a run, and on
 a state.

 Only a piece message that fails validation can end exclusive assignment. Dropping the piece forgets
 its table; a request for it that is still outstanding is then tracked nowhere, and the refill ending
 the same handler, or a later one, hands its block out again.
 */
module Exclusivity {
  import opened Bytes
  import opened Geometry
  import opened Wire
  import opened Pieces
  import opened Swarm
  import opened Ledger
  import opened Receipts
  import opened Pipeline
  import opened Reach
  import opened Steps
  import opened Runs

  /* ---- one step ---- */

  /** The block completes its piece, and the piece has another hash than the metadata's. */
  ghost predicate Fails(c: Config, s: Mgr, i: nat, begin: uint32, block: seq<byte>)
    requires Sound(c.meta) && i < c.meta.numPieces
  {
    var (t, complete) := BlockReceived(c.meta, s, i, begin, block);
    complete && !Validates(c, t, i)
  }

  ghost predicate Failing(c: Config, e: Engine, ev: Event)
    requires Sized(c, e.hist) && Enabled(c, e, ev)
  {
    ev.Deliver? && ev.msg.Piece? && ev.p in e.peers && Fails(c, e.mgr, ev.msg.index, ev.msg.begin, ev.msg.block)
  }

  /** A request for piece `i`, other than one `p` has for the block at `begin`, is outstanding somewhere. */
  ghost predicate Stray(e: Engine, p: PeerId, i: nat, begin: uint32) {
    exists q, r :: q in e.peers && r in e.peers[q].out && r.piece == i && !(q == p && r.begin == begin)
  }

  lemma TakenNoneFor(c: Config, e: Engine, p: PeerId, i: nat, begin: uint32, t: Slot)
    requires Solo(e) && p in e.peers && t.peer.out == Without1(e.peers[p].out, i, begin)
    ensures NoneFor(WithSlot(e, p, t), i) <==> !Stray(e, p, i, begin)
  {
    hide Without1, StateOf;
    var taken := WithSlot(e, p, t);
    Without1Effect(e.peers[p].out, i, begin);
    if Stray(e, p, i, begin) {
      var q, r :| q in e.peers && r in e.peers[q].out && r.piece == i && !(q == p && r.begin == begin);
      StillHeld(e, p, t, q, r, i, begin);
    } else {
      forall x | x in Outstanding(taken.peers) ensures x.piece != i {
        var q := HolderOf(taken.peers, x);
        var r :| r in taken.peers[q].out && KeyOf(r) == x;
        assert q == p ==> r in e.peers[p].out && KeyOf(r) != Key(i, begin);
      }
    }
  }

  lemma StillHeld(e: Engine, p: PeerId, t: Slot, q: PeerId, r: Req, i: nat, begin: uint32)
    requires p in e.peers && t.peer.out == Without1(e.peers[p].out, i, begin)
    requires q in e.peers && r in e.peers[q].out && !(q == p && KeyOf(r) == Key(i, begin))
    ensures KeyOf(r) in Outstanding(WithSlot(e, p, t).peers)
  {
    hide Without1;
    Without1Effect(e.peers[p].out, i, begin);
    var taken := WithSlot(e, p, t);
    assert KeyOf(r) in Keys(e.peers[q].out);
    OutstandingAt(taken.peers, q, KeyOf(r));
  }

  lemma AcceptParts(c: Config, s: Slot, i: nat, begin: uint32, block: seq<byte>)
    ensures var (t, complete) := Accept(c, s, i, begin, block);
            && t.mgr == BlockReceived(c.meta, s.mgr, i, begin, block).0
            && complete == BlockReceived(c.meta, s.mgr, i, begin, block).1
            && t.peer.out == Without1(s.peer.out, i, begin)
  {
    hide BlockReceived, Without1;
  }

  lemma SettleSoloIff(c: Config, e: Engine, p: PeerId, i: nat, begin: uint32, block: seq<byte>)
    requires Core(c, e) && Solo(e) && p in e.peers && i < c.meta.numPieces
    ensures var f := Settle(c, e, p, i, begin, block);
            && (Solo(f) <==> !Fails(c, e.mgr, i, begin, block) || !Stray(e, p, i, begin))
            && f.corrupt == if Fails(c, e.mgr, i, begin, block) then e.corrupt + [p] else e.corrupt
  {
    hide Accept, Conclude, Core, Base, Solo, Sole, NoLost, AllOnRequest, Outside, Told, Unfinished, Dropped, NoneFor, Stray,
      Validates, BlockReceived, Without1, Sound;
    CoreWithin(c, e, p);
    var (t, complete) := Accept(c, SlotOf(e, p), i, begin, block);
    var taken := WithSlot(e, p, t);
    AcceptParts(c, SlotOf(e, p), i, begin, block);
    TakenKeeps(c, e, p, i, begin, block);
    TakenNoneFor(c, e, p, i, begin, t);
    if complete {
      ConcludeOwners(c, taken, p, i);
      ConcludeParts(c, taken, p, i);
    }
  }

  /**
   The exact condition, on the state before the message and the whole handler with its refill: a step
   ends exclusive ownership exactly when a piece fails validation while a request for it, other than the
   one its last block answers, is outstanding. A step reports a peer exactly when a piece fails.
   */
  lemma StepKeepsExclusiveIff(c: Config, e: Engine, ev: Event)
    requires Inv(c, e) && Solo(e) && Enabled(c, e, ev)
    ensures Solo(Step(c, e, ev)) <==> (Failing(c, e, ev) ==> !Stray(e, ev.p, ev.msg.index, ev.msg.begin))
    ensures Step(c, e, ev).corrupt == if Failing(c, e, ev) then e.corrupt + [ev.p] else e.corrupt
  {
    hide Core, Told, Undelivered, NoLost, Availability, OnDisk, Logged, Settle, Refill, OnUnregister, Put, Sound, Fails, Stray,
      Solo, Sole, AllOnRequest;
    InvCore(c, e);
    if ev.Deliver? && ev.msg.Piece? {
      if ev.p in e.peers {
        var p, i, begin, block := ev.p, ev.msg.index as nat, ev.msg.begin, ev.msg.block;
        var g := Settle(c, e, p, i, begin, block);
        SettleSoloIff(c, e, p, i, begin, block);
        SettleKeeps(c, e, p, i, begin, block);
        RefillKeeps(c, g, p);
        RefillMendsNothing(c, g, p);
      }
    } else {
      CalmStep(c, e, ev);
    }
  }

  /* ---- runs ---- */

  /** Whenever a piece failed, nothing else for it was outstanding. */
  ghost predicate Tidy(c: Config, disk: seq<byte>, evs: seq<Event>)
    requires Startable(c, disk) && Legal(c, disk, evs)
    decreases |evs|
  {
    evs == [] ||
    var n := |evs| - 1;
    && Tidy(c, disk, evs[..n])
    && (Failing(c, After(c, disk, evs[..n]), evs[n]) ==>
          !Stray(After(c, disk, evs[..n]), evs[n].p, evs[n].msg.index, evs[n].msg.begin))
  }

  ghost predicate SoloAt(c: Config, disk: seq<byte>, evs: seq<Event>, n: nat)
    requires Startable(c, disk) && n <= |evs|
  {
    Legal(c, disk, evs[..n]) && Solo(After(c, disk, evs[..n]))
  }

  lemma {:induction false} TidyMeansSolo(c: Config, disk: seq<byte>, evs: seq<Event>)
    requires Startable(c, disk) && Legal(c, disk, evs) && Tidy(c, disk, evs)
    ensures Solo(After(c, disk, evs))
    decreases |evs|
  {
    hide Inv, Step, Startable, Enabled, Solo, AllOnRequest, Failing, Stray;
    if evs == [] {
      StartKeeps(c, disk);
    } else {
      var n := |evs| - 1;
      AfterUnfolds(c, disk, evs);
      Reachable(c, disk, evs[..n]);
      TidyMeansSolo(c, disk, evs[..n]);
      StepKeepsExclusiveIff(c, After(c, disk, evs[..n]), evs[n]);
    }
  }

  /** Ownership is exclusive all along a run exactly when every failed validation in it was tidy. */
  lemma {:induction false} ExclusiveIffTidy(c: Config, disk: seq<byte>, evs: seq<Event>)
    requires Startable(c, disk) && Legal(c, disk, evs)
    ensures Tidy(c, disk, evs) <==> forall n | 0 <= n <= |evs| :: SoloAt(c, disk, evs, n)
    decreases |evs|
  {
    hide Inv, Step, Startable, Enabled, Solo, AllOnRequest, Failing, Stray, After, Legal, Sized;
    assert evs[..|evs|] == evs;
    if evs == [] {
      TidyMeansSolo(c, disk, evs);
    } else {
      var n := |evs| - 1;
      var front := evs[..n];
      AfterUnfolds(c, disk, evs);
      ExclusiveIffTidy(c, disk, front);
      forall k | 0 <= k <= n ensures SoloAt(c, disk, evs, k) <==> SoloAt(c, disk, front, k) {
        assert front[..k] == evs[..k];
      }
      if Tidy(c, disk, evs) {
        TidyMeansSolo(c, disk, evs);
      }
      if SoloAt(c, disk, evs, n) && SoloAt(c, disk, evs, |evs|) {
        Reachable(c, disk, front);
        StepKeepsExclusiveIff(c, After(c, disk, front), evs[n]);
      }
    }
  }

  /** With no failed validation so far, no block is outstanding twice and none outstanding is Pending. */
  lemma ExclusiveWithoutFailures(c: Config, disk: seq<byte>, evs: seq<Event>)
    requires Startable(c, disk) && Legal(c, disk, evs) && After(c, disk, evs).corrupt == []
    ensures Solo(After(c, disk, evs))
  {
    TidyWithoutFailures(c, disk, evs);
    TidyMeansSolo(c, disk, evs);
  }

  lemma {:induction false} TidyWithoutFailures(c: Config, disk: seq<byte>, evs: seq<Event>)
    requires Startable(c, disk) && Legal(c, disk, evs) && After(c, disk, evs).corrupt == []
    ensures Tidy(c, disk, evs)
    decreases |evs|
  {
    hide Inv, Step, Startable, Enabled, Solo, Failing, Stray, Grows;
    if evs != [] {
      var n := |evs| - 1;
      AfterUnfolds(c, disk, evs);
      var e := After(c, disk, evs[..n]);
      Reachable(c, disk, evs[..n]);
      StepGrows(c, e, evs[n]);
      CorruptGrows(c, e, After(c, disk, evs));
      TidyWithoutFailures(c, disk, evs[..n]);
      TidyMeansSolo(c, disk, evs[..n]);
      StepKeepsExclusiveIff(c, e, evs[n]);
    }
  }

  /** Every piece message so far answered a request outstanding at its sender. */
  ghost predicate Solicited(c: Config, disk: seq<byte>, evs: seq<Event>)
    requires Startable(c, disk) && Legal(c, disk, evs)
    decreases |evs|
  {
    evs == [] ||
    var n := |evs| - 1;
    Solicited(c, disk, evs[..n]) && Answers(After(c, disk, evs[..n]), evs[n])
  }

  lemma {:induction false} Solicitation(c: Config, disk: seq<byte>, evs: seq<Event>)
    requires Startable(c, disk) && Legal(c, disk, evs) && Solicited(c, disk, evs)
    ensures Solo(After(c, disk, evs)) && AllOnRequest(After(c, disk, evs)) && Tidy(c, disk, evs)
    decreases |evs|
  {
    hide Inv, Step, Startable, Enabled, Told, Solo, AllOnRequest, Failing, Stray, Answers;
    if evs == [] {
      StartKeeps(c, disk);
    } else {
      var n := |evs| - 1;
      AfterUnfolds(c, disk, evs);
      Reachable(c, disk, evs[..n]);
      Solicitation(c, disk, evs[..n]);
      StepKeeps(c, After(c, disk, evs[..n]), evs[n]);
      StepKeepsExclusiveIff(c, After(c, disk, evs[..n]), evs[n]);
    }
  }

  /** With every block solicited, failures or not, what is outstanding is exactly what is Requested, once. */
  lemma ExclusiveWhenSolicited(c: Config, disk: seq<byte>, evs: seq<Event>)
    requires Startable(c, disk) && Legal(c, disk, evs) && Solicited(c, disk, evs)
    ensures Solo(After(c, disk, evs)) && Tidy(c, disk, evs)
    ensures forall x: Key ::
              x in Outstanding(After(c, disk, evs).peers) <==> StateOf(After(c, disk, evs).mgr, x) == Some(Requested)
  {
    hide Tidy, Solo, Legal, After, Startable, Outstanding, Core, Outside;
    Solicitation(c, disk, evs);
    Reachable(c, disk, evs);
  }

  /* ---- states ---- */

  /** An empty delivery at an offset where no block begins sets a piece up and does nothing else. */
  lemma ProbeSetsUp(c: Config, s: Mgr, i: nat, x: Key)
    requires Sound(c.meta) && Tables(c.meta, s) && i < c.meta.numPieces && i !in s.have && i !in s.progress
    requires x.piece == i && x.begin % BLOCK_SIZE == 0 && x.begin < PieceLength(c.meta, i)
    ensures StateOf(BlockReceived(c.meta, s, i, 1, []).0, x) == Some(Pending)
    ensures !Fails(c, s, i, 1, [])
  {
    hide FindBegin, PieceLength, Sound, Shaped, FreshBlocks, Zeros;
    var ps := FreshPiece(c.meta, i);
    TableFinds(c.meta, i, ps, 1);
    TableFinds(c.meta, i, ps, x.begin);
    FreshPending(c.meta, i, x.begin);
    FreshIsBlank(c.meta, i);
  }

  /** An untracked request is exposed by a harmless message: its block becomes Pending, or doubled by the refill. */
  lemma ProbeExposes(c: Config, e: Engine, q: PeerId, r: Req)
    requires Inv(c, e) && q in e.peers && r in e.peers[q].out && StateOf(e.mgr, KeyOf(r)) == None
    ensures var ev := Deliver(q, Piece(r.piece, 1, []));
            Enabled(c, e, ev) && !Failing(c, e, ev) && !Sole(Step(c, e, ev))
  {
    hide Core, Outside, NoLost, Refill, BlockReceived, Without1, StateOf, Conclude, Fails, Told, Solo, AllOnRequest, Validates,
      Sound, PieceLength, Unfinished, Dropped, Base;
    var i, x := r.piece as nat, KeyOf(r);
    InvCore(c, e);
    RequestIsExact(c, e, q, r);
    NotInProgress(c, e, x);
    ProbeSetsUp(c, e.mgr, i, x);
    var (t, complete) := Accept(c, SlotOf(e, q), i, 1, []);
    AcceptParts(c, SlotOf(e, q), i, 1, []);
    TakenKeeps(c, e, q, i, 1, []);
    var g := Settle(c, e, q, i, 1, []);
    ProbeSettles(c, e, q, i);
    StillHeld(e, q, t, q, r, i, 1);
    assert x in Outstanding(g.peers) && StateOf(g.mgr, x) == Some(Pending);
    RefillMendsNothing(c, g, q);
    assert Step(c, e, Deliver(q, Piece(r.piece, 1, []))) == Refill(c, g, q);
  }

  lemma ProbeSettles(c: Config, e: Engine, q: PeerId, i: nat)
    requires Core(c, e) && q in e.peers && i < c.meta.numPieces && i !in e.mgr.have && i !in e.mgr.progress
    ensures Settle(c, e, q, i, 1, []) == WithSlot(e, q, Accept(c, SlotOf(e, q), i, 1, []).0)
    ensures Core(c, Settle(c, e, q, i, 1, []))
  {
    hide Conclude, Core, Without1, PieceLength, Validates, FindBegin, Sound, Outside, Told, NoLost, Solo, AllOnRequest,
      FreshBlocks, Zeros, Dropped;
    CoreWithin(c, e, q);
    SettleKeeps(c, e, q, i, 1, []);
    var ps := FreshPiece(c.meta, i);
    TableFinds(c.meta, i, ps, 1);
    FreshIsBlank(c.meta, i);
  }

  lemma RequestIsExact(c: Config, e: Engine, q: PeerId, r: Req)
    requires Core(c, e) && q in e.peers && r in e.peers[q].out
    ensures Asks(c.meta, r) && r.piece as nat !in e.mgr.have && Tables(c.meta, e.mgr)
  {
    assert Within(c.meta, e.mgr.have, e.peers[q]);
  }

  lemma NotInProgress(c: Config, e: Engine, x: Key)
    requires Tables(c.meta, e.mgr) && StateOf(e.mgr, x) == None
    requires x.begin % BLOCK_SIZE == 0 && x.begin < PieceLength(c.meta, x.piece)
    ensures x.piece !in e.mgr.progress
  {
    hide FindBegin, PieceLength;
    if x.piece in e.mgr.progress {
      TableFinds(c.meta, x.piece, e.mgr.progress[x.piece], x.begin);
    }
  }

  /**
   Why an untracked request counts as a breach: while blocks are still assigned exclusively, a table tracks
   every outstanding block exactly when no next step short of another failure ends exclusive assignment.
   */
  lemma TrackedIffSafe(c: Config, e: Engine)
    requires Inv(c, e) && Sole(e)
    ensures Tracked(e) <==> forall ev | Enabled(c, e, ev) && !Failing(c, e, ev) :: Sole(Step(c, e, ev))
  {
    hide Core, Outside, NoLost, Step, Enabled, Failing, StateOf, Stray, Sized;
    InvCore(c, e);
    if Tracked(e) {
      forall ev | Enabled(c, e, ev) && !Failing(c, e, ev) ensures Sole(Step(c, e, ev)) {
        StepKeepsExclusiveIff(c, e, ev);
      }
    } else {
      var x :| x in Outstanding(e.peers) && StateOf(e.mgr, x) == None;
      var q := HolderOf(e.peers, x);
      var r :| r in e.peers[q].out && KeyOf(r) == x;
      ProbeExposes(c, e, q, r);
    }
  }
}
