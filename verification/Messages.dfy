/**
 What the engine tells its peers: every outstanding request was asked for on the wire and not
 cancelled since, completing a piece cancels what is outstanding for it, and interest is expressed in
 every peer that has something we lack.
 */
module Messages {
  import opened Bytes
  import opened Geometry
  import opened Bitfields
  import opened Wire
  import opened Pieces
  import opened Picker
  import opened Swarm
  import opened Ledger
  import opened Receipts
  import opened Pipeline
  import opened Reach
  import opened Steps
  import opened Runs

  predicate About(m: Message, x: Key) {
    (m.Request? || m.Cancel?) && m.index == x.piece && m.begin == x.begin
  }

  /** The last request or cancel sent for the block. */
  function LastAbout(sent: seq<Message>, x: Key): (r: Option<Message>)
    ensures r.Some? ==> About(r.value, x)
  {
    if sent == [] then None
    else
      var last := sent[|sent| - 1];
      if About(last, x) then Some(last) else LastAbout(sent[..|sent| - 1], x)
  }

  lemma LastAboutAppend(sent: seq<Message>, m: Message, x: Key)
    ensures LastAbout(sent + [m], x) == if About(m, x) then Some(m) else LastAbout(sent, x)
  {
    assert (sent + [m])[..|sent|] == sent;
  }

  function Asking(r: Req): Message {
    Request(r.piece, r.begin, r.length)
  }

  /** Every outstanding request is on the wire: the last word about its block is that request. */
  ghost predicate Spoken(peer: Member) {
    forall r | r in peer.out :: LastAbout(peer.sent, KeyOf(r)) == Some(Asking(r))
  }

  /** For a peer registered before any word of interest, the flag stands for an Interested message sent. */
  ghost predicate Voiced(peer: Member, cold: bool) {
    cold && peer.interested ==> Interested in peer.sent
  }

  /** We are interested in the peer if it has a piece we lack. */
  ghost predicate Courted(peer: Member, have: set<nat>) {
    peer.bits <= have || peer.interested
  }

  /** `cold` has the peers registered with the interest flag down. */
  ghost predicate Talk(e: Engine, cold: set<PeerId>) {
    forall p | p in e.peers ::
      Spoken(e.peers[p]) && Courted(e.peers[p], e.mgr.have) && Voiced(e.peers[p], p in cold)
  }

  /* ---- one peer ---- */

  lemma SendVoiced(peer: Member, m: Message, cold: bool)
    requires Voiced(peer, cold)
    ensures Voiced(Send(peer, m), cold)
  {
    hide Haves;
  }

  lemma SendSpoken(peer: Member, m: Message)
    requires Spoken(peer) && !m.Request? && !m.Cancel?
    ensures Spoken(Send(peer, m))
  {
    hide LastAbout, Haves;
    forall r | r in peer.out ensures LastAbout(Send(peer, m).sent, KeyOf(r)) == Some(Asking(r)) {
      LastAboutAppend(peer.sent, m, KeyOf(r));
    }
  }

  lemma ExactRequests(m: TorrentMetadata, r: Req, q: Req)
    requires Asks(m, r) && Asks(m, q) && KeyOf(r) == KeyOf(q)
    ensures r == q
  {
  }

  lemma AskedSpoken(m: TorrentMetadata, peer: Member, r: Req)
    requires Spoken(peer) && Asks(m, r) && forall q | q in peer.out :: Asks(m, q)
    ensures forall q | q in peer.out + [r] :: LastAbout(peer.sent + [Asking(r)], KeyOf(q)) == Some(Asking(q))
  {
    hide LastAbout, Asks;
    forall q | q in peer.out + [r] ensures LastAbout(peer.sent + [Asking(r)], KeyOf(q)) == Some(Asking(q)) {
      LastAboutAppend(peer.sent, Asking(r), KeyOf(q));
      if KeyOf(q) == KeyOf(r) {
        ExactRequests(m, q, r);
      }
    }
  }

  lemma AskSpoken(c: Config, s: Slot, i: nat, draws: nat, cold: bool)
    requires Sound(c.meta) && SlotSound(c, s) && i < c.meta.numPieces && Spoken(s.peer) && Voiced(s.peer, cold)
    ensures Spoken(Ask(c, s, i, draws).peer) && Voiced(Ask(c, s, i, draws).peer, cold)
  {
    hide NextBlock, LastAbout, Asks, Tables, Sound, Haves;
    SoundIsShaped(c, s);
    var (mgr, block) := NextBlock(c.meta, s.mgr, i);
    if block.Some? {
      var r := RequestFor(block.value);
      TakenAsks(c.meta, s.mgr, i);
      AskedSpoken(c.meta, s.peer, r);
      assert Ask(c, s, i, draws).peer.out == s.peer.out + [r];
      assert Ask(c, s, i, draws).peer.sent == s.peer.sent + [Asking(r)];
    }
  }

  lemma RoundSpoken(c: Config, hist: seq<uint32>, s: Slot, cold: bool)
    requires Sized(c, hist) && SlotSound(c, s) && More(c, hist, s) && Spoken(s.peer) && Voiced(s.peer, cold)
    ensures Spoken(Round(c, hist, s).peer) && Voiced(Round(c, hist, s).peer, cold)
  {
    hide Choose, Ask, SlotSound, Spoken, Voiced, Sound;
    ChosenIsMissing(c, hist, s);
    var (chosen, draws) := Choose(c, hist, s);
    AskSpoken(c, s, chosen.value, draws, cold);
  }

  lemma {:induction false} FillSpoken(c: Config, hist: seq<uint32>, s: Slot, cold: bool)
    requires Sized(c, hist) && SlotSound(c, s) && !s.peer.choking && Spoken(s.peer) && Voiced(s.peer, cold)
    ensures Spoken(Fill(c, hist, s).peer) && Voiced(Fill(c, hist, s).peer, cold)
    decreases PIPELINE - |s.peer.out|, s.peer.active.Some?
  {
    hide More, Round, SlotSound, Sound, Spoken, Voiced;
    if More(c, hist, s) {
      RoundSound(c, hist, s);
      RoundSpoken(c, hist, s, cold);
      MoreRoom(c, hist, s);
      RoundProgresses(c, hist, s);
      FillSpoken(c, hist, Round(c, hist, s), cold);
    }
  }

  lemma CancelsUnfold(out: seq<Req>, i: nat)
    requires out != []
    ensures var n := |out| - 1;
            Cancels(out, i) == Cancels(out[..n], i) + if out[n].piece == i then [Cancelling(out[n])] else []
  {
  }

  function Cancelling(r: Req): Message {
    Cancel(r.piece, r.begin, r.length)
  }

  /** Cancelling a piece is the last word on exactly the requests it takes off the list. */
  lemma {:induction false} CancelsLast(sent: seq<Message>, out: seq<Req>, i: nat, x: Key)
    ensures
      var last := LastAbout(sent + Cancels(out, i), x);
      if x.piece == i && x in Keys(out) then last.Some? && last.value.Cancel? else last == LastAbout(sent, x)
  {
    hide LastAbout, Keys, Cancels;
    if out == [] {
      NoCancels(i);
      assert sent + [] == sent;
    } else {
      var n := |out| - 1;
      var front := Cancels(out[..n], i);
      CancelsLast(sent, out[..n], i, x);
      assert out == out[..n] + [out[n]];
      KeysAppend(out[..n], out[n]);
      CancelsUnfold(out, i);
      if out[n].piece == i {
        assert sent + Cancels(out, i) == (sent + front) + [Cancelling(out[n])];
        LastAboutAppend(sent + front, Cancelling(out[n]), x);
      } else {
        assert Cancels(out, i) == front;
      }
    }
  }

  lemma NoCancels(i: nat)
    ensures Cancels([], i) == [] && Keys([]) == {}
  {
  }

  lemma CancelledSpoken(peer: Member, i: nat)
    requires Spoken(peer)
    ensures Spoken(CancelAt(peer, i))
  {
    hide LastAbout, Cancels, Keys;
    WithoutPieceEffect(peer.out, i);
    forall r | r in WithoutPiece(peer.out, i)
      ensures LastAbout(peer.sent + Cancels(peer.out, i), KeyOf(r)) == Some(Asking(r))
    {
      CancelsLast(peer.sent, peer.out, i, KeyOf(r));
    }
  }

  lemma AnnouncedSpoken(peer: Member, i: nat, have: set<nat>, cold: bool)
    requires Spoken(peer) && Courted(peer, have) && Voiced(peer, cold)
    ensures var r := Send(CancelAt(peer, i), Have(ToUint32(i))); Spoken(r) && Courted(r, have + {i}) && Voiced(r, cold)
  {
    hide Spoken, Cancels, WithoutPiece, Haves;
    CancelledSpoken(peer, i);
    SendSpoken(CancelAt(peer, i), Have(ToUint32(i)));
    SendVoiced(CancelAt(peer, i), Have(ToUint32(i)), cold);
  }

  lemma FewerSpoken(peer: Member, fewer: Member)
    requires Spoken(peer) && fewer.sent == peer.sent && forall r | r in fewer.out :: r in peer.out
    ensures Spoken(fewer)
  {
  }

  lemma ExpressSpoken(peer: Member, wanted: bool, cold: bool)
    requires Spoken(peer) && Voiced(peer, cold)
    ensures var r := Express(peer, wanted);
            Spoken(r) && Voiced(r, cold) && r.bits == peer.bits && (peer.interested || wanted ==> r.interested)
  {
    hide Spoken, Haves;
    if wanted && !peer.interested {
      SendSpoken(peer, Interested);
    }
  }

  /* ---- the engine ---- */

  lemma PutTalk(e: Engine, p: PeerId, peer: Member, cold: set<PeerId>)
    requires Talk(e, cold) && Spoken(peer) && Courted(peer, e.mgr.have) && Voiced(peer, p in cold)
    ensures Talk(Put(e, p, peer), cold)
  {
    hide Spoken, Courted, Voiced;
  }

  lemma WithSlotTalk(e: Engine, p: PeerId, t: Slot, cold: set<PeerId>)
    requires Talk(e, cold) && t.mgr.have == e.mgr.have
    requires Spoken(t.peer) && Courted(t.peer, e.mgr.have) && Voiced(t.peer, p in cold)
    ensures Talk(WithSlot(e, p, t), cold)
  {
    hide Spoken, Courted, Voiced;
  }

  lemma RefillTalk(c: Config, e: Engine, p: PeerId, cold: set<PeerId>)
    requires Core(c, e) && p in e.peers && Talk(e, cold)
    ensures Talk(Refill(c, e, p), cold)
  {
    hide Fill, Spoken, Within, Tables, Counted, Unfinished, Sound, Haves, Undelivered;
    if !e.peers[p].choking {
      var s := SlotOf(e, p);
      FillSound(c, e.hist, s);
      FillSpoken(c, e.hist, s, p in cold);
      WithSlotTalk(e, p, Fill(c, e.hist, s), cold);
    }
  }

  lemma ConcludeTalk(c: Config, e: Engine, p: PeerId, i: nat, cold: set<PeerId>)
    requires Sound(c.meta) && p in e.peers && i < c.meta.numPieces && Talk(e, cold)
    ensures Talk(Conclude(c, e, p, i), cold)
  {
    hide Spoken, Courted, Voiced, Validates, Sound, PieceStart, CancelAt, Send, Idle;
    forall q | q in e.peers
      ensures Spoken(Announce(e.peers, i)[q]) && Courted(Announce(e.peers, i)[q], e.mgr.have + {i})
      ensures Voiced(Announce(e.peers, i)[q], q in cold)
    {
      AnnouncedSpoken(e.peers[q], i, e.mgr.have, q in cold);
    }
    var done := if Validates(c, e.mgr, i) then Finish(c, e, i) else Discard(e, p, i);
    assert Talk(done, cold);
    IdleSpoken(done.peers[p], i, done.mgr.have, p in cold);
  }

  lemma IdleSpoken(peer: Member, i: nat, have: set<nat>, cold: bool)
    requires Spoken(peer) && Courted(peer, have) && Voiced(peer, cold)
    ensures Spoken(Idle(peer, i)) && Courted(Idle(peer, i), have) && Voiced(Idle(peer, i), cold)
  {
  }

  lemma SettleTalk(c: Config, e: Engine, p: PeerId, i: nat, begin: uint32, block: seq<byte>, cold: set<PeerId>)
    requires Core(c, e) && p in e.peers && i < c.meta.numPieces && Talk(e, cold)
    ensures Talk(Settle(c, e, p, i, begin, block), cold)
  {
    hide Spoken, Conclude, BlockReceived, Core, Keys, Talk;
    CoreWithin(c, e, p);
    var (t, complete) := Accept(c, SlotOf(e, p), i, begin, block);
    AcceptHave(c, SlotOf(e, p), i, begin, block);
    Without1Effect(e.peers[p].out, i, begin);
    TalkAt(e, p, cold);
    FewerSpoken(e.peers[p], t.peer);
    WithSlotTalk(e, p, t, cold);
    if complete {
      ConcludeTalk(c, WithSlot(e, p, t), p, i, cold);
    }
  }

  lemma TalkAt(e: Engine, p: PeerId, cold: set<PeerId>)
    requires Talk(e, cold) && p in e.peers
    ensures Spoken(e.peers[p]) && Courted(e.peers[p], e.mgr.have) && Voiced(e.peers[p], p in cold)
  {
  }

  lemma RebitTalk(c: Config, e: Engine, p: PeerId, bits: set<nat>, cold: set<PeerId>)
    requires p in e.peers && Talk(e, cold)
    ensures Talk(Rebit(c, e, p, bits), cold)
  {
    hide Spoken, Added, Removed, Express;
    TalkAt(e, p, cold);
    var peer := e.peers[p].(bits := bits);
    FewerSpoken(e.peers[p], peer);
    ExpressSpoken(peer, !(bits <= e.mgr.have), p in cold);
  }

  lemma OnHaveTalk(c: Config, e: Engine, p: PeerId, i: nat, cold: set<PeerId>)
    requires p in e.peers && Talk(e, cold)
    ensures Talk(OnHave(c, e, p, i), cold)
  {
    hide Spoken, Added, Express, OnHave;
    OnHaveIs(c, e, p, i);
    TalkAt(e, p, cold);
    var peer := e.peers[p].(bits := e.peers[p].bits + {i});
    FewerSpoken(e.peers[p], peer);
    ExpressSpoken(peer, i !in e.mgr.have, p in cold);
  }

  lemma OnChokeTalk(e: Engine, p: PeerId, cold: set<PeerId>)
    requires p in e.peers && Talk(e, cold)
    ensures Talk(OnChoke(e, p), cold)
  {
    hide Release;
    ReleaseUndelivered(e.mgr, e.peers[p].out);
  }

  lemma MessageTalk(c: Config, e: Engine, p: PeerId, msg: Message, cold: set<PeerId>)
    requires Core(c, e) && p in e.peers && Talk(e, cold) && (msg.Piece? ==> msg.index < c.meta.numPieces)
    ensures Talk(Handle(c, e, p, msg), cold)
  {
    hide Core, Talk, Spoken, Refill, Rebit, OnHave, OnChoke, Settle, Calm, Told, NoLost, Solo, AllOnRequest,
      Outside, OwnersKept, SameOutside;
    CoreWithin(c, e, p);
    match msg
    case Choke => OnChokeTalk(e, p, cold);
    case Unchoke =>
      var peer := e.peers[p].(choking := false);
      TalkAt(e, p, cold);
      FewerSpoken(e.peers[p], peer);
      PutTalk(e, p, peer, cold);
      PutKeeps(c, e, p, peer);
      RefillTalk(c, Put(e, p, peer), p, cold);
    case BitfieldMsg(raw) =>
      var g := Rebit(c, e, p, Announced(raw, c.meta.numPieces));
      RebitTalk(c, e, p, Announced(raw, c.meta.numPieces), cold);
      RebitCalm(c, e, p, Announced(raw, c.meta.numPieces));
      assert p in g.peers.Keys;
      CalmCore(c, e, g);
      RefillTalk(c, g, p, cold);
    case Have(i) => OnHaveTalk(c, e, p, i, cold);
    case Piece(i, begin, block) =>
      SettleTalk(c, e, p, i, begin, block, cold);
      SettleKeeps(c, e, p, i, begin, block);
      RefillTalk(c, Settle(c, e, p, i, begin, block), p, cold);
    case _ =>
  }

  /** The peers whose last registration had the interest flag down. */
  function ColdAfter(cold: set<PeerId>, ev: Event): set<PeerId> {
    if ev.Register? then (if ev.interested then cold - {ev.p} else cold + {ev.p}) else cold
  }

  function Cold(evs: seq<Event>): set<PeerId> {
    if evs == [] then {} else ColdAfter(Cold(evs[..|evs| - 1]), evs[|evs| - 1])
  }

  lemma StepTalk(c: Config, e: Engine, ev: Event, cold: set<PeerId>)
    requires Inv(c, e) && Enabled(c, e, ev) && Talk(e, cold)
    ensures Talk(Step(c, e, ev), ColdAfter(cold, ev))
  {
    hide Core, Handle, Spoken, NoLost, Outside, Release, Removed, Sound;
    InvCore(c, e);
    match ev
    case Register(p, choking, interested) =>
      var peer: Member := Peer(choking, interested, {}, [], None, []);
      NothingSpoken(peer);
      OtherCold(e, p, cold, ColdAfter(cold, ev));
      PutTalk(e, p, peer, ColdAfter(cold, ev));
    case Unregister(p) =>
      if p in e.peers {
        ReleaseUndelivered(e.mgr, e.peers[p].out);
        UndeliveredHave(e.mgr, Release(e.mgr, e.peers[p].out));
      }
    case Deliver(p, msg) =>
      if p in e.peers {
        MessageTalk(c, e, p, msg, cold);
      }
  }

  lemma OtherCold(e: Engine, p: PeerId, cold: set<PeerId>, after: set<PeerId>)
    requires Talk(e, cold) && p !in e.peers && forall q | q != p :: q in after <==> q in cold
    ensures Talk(e, after)
  {
    hide Spoken, Courted, Voiced;
  }

  lemma NothingSpoken(peer: Member)
    requires peer.out == []
    ensures Spoken(peer)
  {
  }

  lemma {:induction false} AlwaysTalks(c: Config, disk: seq<byte>, evs: seq<Event>)
    requires Startable(c, disk) && Legal(c, disk, evs)
    ensures Talk(After(c, disk, evs), Cold(evs))
    decreases |evs|
  {
    hide Inv, Step, Startable, Enabled, Talk;
    if evs == [] {
      QuietStart(c, disk);
    } else {
      var n := |evs| - 1;
      AfterUnfolds(c, disk, evs);
      Reachable(c, disk, evs[..n]);
      AlwaysTalks(c, disk, evs[..n]);
      StepTalk(c, After(c, disk, evs[..n]), evs[n], Cold(evs[..n]));
    }
  }

  lemma QuietStart(c: Config, disk: seq<byte>)
    requires Startable(c, disk)
    ensures Talk(Start(c, disk), {})
  {
  }

  /**
   In every reachable state: the last request or cancel sent for an outstanding block is the request
   for it, and a peer that has a piece we lack has been sent an Interested message, unless it was
   registered with our interest already expressed.
   */
  lemma PeersAreTold(c: Config, disk: seq<byte>, evs: seq<Event>, p: PeerId)
    requires Startable(c, disk) && Legal(c, disk, evs) && p in After(c, disk, evs).peers
    ensures
      var e := After(c, disk, evs);
      && (forall r | r in e.peers[p].out ::
            LastAbout(e.peers[p].sent, Key(r.piece, r.begin)) == Some(Request(r.piece, r.begin, r.length)))
      && ((exists i :: i in e.peers[p].bits && i !in e.mgr.have) ==> e.peers[p].interested)
      && ((exists i :: i in e.peers[p].bits && i !in e.mgr.have) && p in Cold(evs) ==> Interested in e.peers[p].sent)
  {
    hide After, Startable, Legal, LastAbout;
    AlwaysTalks(c, disk, evs);
    TalkAt(After(c, disk, evs), p, Cold(evs));
  }

  /** When a piece completes, the last word to each peer about its requests for that piece is a cancel. */
  lemma CompletionCancels(c: Config, e: Engine, p: PeerId, i: nat, q: PeerId, r: Req)
    requires Sound(c.meta) && i < c.meta.numPieces && p in e.peers && Validates(c, e.mgr, i)
    requires q in e.peers && r in e.peers[q].out && r.piece == i
    ensures q in Conclude(c, e, p, i).peers && r !in Conclude(c, e, p, i).peers[q].out
    ensures LastAbout(Conclude(c, e, p, i).peers[q].sent, KeyOf(r)).Some?
    ensures LastAbout(Conclude(c, e, p, i).peers[q].sent, KeyOf(r)).value.Cancel?
  {
    hide LastAbout, Validates, Sound, WithoutPiece, Cancels, Haves, Completed, PieceStart;
    var sent := e.peers[q].sent + Cancels(e.peers[q].out, i);
    WithoutPieceEffect(e.peers[q].out, i);
    CancelsLast(e.peers[q].sent, e.peers[q].out, i, KeyOf(r));
    LastAboutAppend(sent, Have(ToUint32(i)), KeyOf(r));
  }

  /* ---- what a peer's record says ---- */

  /** A peer's choke flag and bitfield, as its own messages set them. */
  datatype Record = Record(choking: bool, bits: set<nat>)

  ghost function RecordAfter(n: nat, r: Record, msg: Message): Record {
    match msg
    case Choke => r.(choking := true)
    case Unchoke => r.(choking := false)
    case BitfieldMsg(raw) => r.(bits := Announced(raw, n))
    case Have(i) => if i < n then r.(bits := r.bits + {i}) else r
    case _ => r
  }

  /** The record of `p` after a run, from the events that name `p` alone; `None` if not registered. */
  ghost function RecordOf(n: nat, evs: seq<Event>, p: PeerId): Option<Record> {
    if evs == [] then None
    else
      var before := RecordOf(n, evs[..|evs| - 1], p);
      match evs[|evs| - 1]
      case Register(q, choking, _) => if q == p then Some(Record(choking, {})) else before
      case Unregister(q) => if q == p then None else before
      case Deliver(q, msg) => if q == p && before.Some? then Some(RecordAfter(n, before.value, msg)) else before
  }

  ghost function RecordIn(peers: map<PeerId, Member>, p: PeerId): Option<Record> {
    if p in peers then Some(Record(peers[p].choking, peers[p].bits)) else None
  }

  lemma WithSlotRecord(e: Engine, p: PeerId, t: Slot, q: PeerId)
    requires p in e.peers && t.peer.choking == e.peers[p].choking && t.peer.bits == e.peers[p].bits
    ensures RecordIn(WithSlot(e, p, t).peers, q) == RecordIn(e.peers, q)
  {
  }

  lemma RefillRecord(c: Config, e: Engine, p: PeerId, q: PeerId)
    requires Core(c, e) && p in e.peers
    ensures RecordIn(Refill(c, e, p).peers, q) == RecordIn(e.peers, q)
  {
    hide Fill, Within, Tables, Counted, Unfinished, Sound, Haves, Undelivered, RecordIn;
    if !e.peers[p].choking {
      FillSound(c, e.hist, SlotOf(e, p));
      WithSlotRecord(e, p, Fill(c, e.hist, SlotOf(e, p)), q);
    }
  }

  lemma ConcludeRecord(c: Config, e: Engine, p: PeerId, i: nat, q: PeerId)
    requires Sound(c.meta) && p in e.peers && i < c.meta.numPieces
    ensures RecordIn(Conclude(c, e, p, i).peers, q) == RecordIn(e.peers, q)
  {
    hide Haves, Cancels, WithoutPiece, Validates, Completed, Dropped, PieceStart, Sound;
  }

  lemma SettleRecord(c: Config, e: Engine, p: PeerId, i: nat, begin: uint32, block: seq<byte>, q: PeerId)
    requires Sound(c.meta) && p in e.peers && i < c.meta.numPieces
    ensures RecordIn(Settle(c, e, p, i, begin, block).peers, q) == RecordIn(e.peers, q)
  {
    hide Conclude, BlockReceived, Without1, RecordIn, Sound;
    var (t, complete) := Accept(c, SlotOf(e, p), i, begin, block);
    WithSlotRecord(e, p, t, q);
    if complete {
      ConcludeRecord(c, WithSlot(e, p, t), p, i, q);
    }
  }

  lemma RebitRecord(c: Config, e: Engine, p: PeerId, bits: set<nat>, q: PeerId)
    requires p in e.peers
    ensures RecordIn(Rebit(c, e, p, bits).peers, q) == if q == p then Some(Record(e.peers[p].choking, bits)) else RecordIn(e.peers, q)
  {
    hide Added, Removed, Haves;
  }

  lemma OnHaveRecord(c: Config, e: Engine, p: PeerId, i: nat, q: PeerId)
    requires p in e.peers && i < c.meta.numPieces
    ensures RecordIn(OnHave(c, e, p, i).peers, q)
         == if q == p then Some(Record(e.peers[p].choking, e.peers[p].bits + {i})) else RecordIn(e.peers, q)
  {
    hide Added, OnHave, Haves;
    OnHaveIs(c, e, p, i);
  }

  lemma HandleRecord(c: Config, e: Engine, p: PeerId, msg: Message, q: PeerId)
    requires Core(c, e) && p in e.peers && (msg.Piece? ==> msg.index < c.meta.numPieces)
    ensures RecordIn(Handle(c, e, p, msg).peers, q)
         == if q == p then Some(RecordAfter(c.meta.numPieces, RecordIn(e.peers, p).value, msg)) else RecordIn(e.peers, q)
  {
    hide Core, Refill, Rebit, OnHave, Settle, Release, Calm, Told, NoLost, Solo, AllOnRequest, Outside, OwnersKept,
      SameOutside, Sound, Announced;
    CoreWithin(c, e, p);
    match msg
    case Choke =>
    case Unchoke =>
      var peer := e.peers[p].(choking := false);
      PutKeeps(c, e, p, peer);
      RefillRecord(c, Put(e, p, peer), p, q);
    case BitfieldMsg(raw) =>
      var bits := Announced(raw, c.meta.numPieces);
      AnnouncedInRange(raw, c.meta.numPieces);
      RebitCalm(c, e, p, bits);
      RebitRecord(c, e, p, bits, q);
      var g := Rebit(c, e, p, bits);
      assert p in g.peers.Keys;
      CalmCore(c, e, g);
      RefillRecord(c, g, p, q);
    case Have(i) =>
      if i < c.meta.numPieces {
        OnHaveRecord(c, e, p, i, q);
      } else {
        OnHaveIs(c, e, p, i);
      }
    case Piece(i, begin, block) =>
      SettleKeeps(c, e, p, i, begin, block);
      SettleRecord(c, e, p, i, begin, block, q);
      RefillRecord(c, Settle(c, e, p, i, begin, block), p, q);
    case _ =>
  }

  /** A peer's flag and bitfield in the engine are what its own events say, whatever others do. */
  lemma {:induction false} RecordsFollow(c: Config, disk: seq<byte>, evs: seq<Event>, p: PeerId)
    requires Startable(c, disk) && Legal(c, disk, evs) && c.meta.numPieces >= 0
    ensures RecordIn(After(c, disk, evs).peers, p) == RecordOf(c.meta.numPieces, evs, p)
    decreases |evs|
  {
    hide Inv, Startable, Enabled, Handle, Release, Removed, RecordAfter, Sized;
    if evs == [] {
    } else {
      var n := |evs| - 1;
      AfterUnfolds(c, disk, evs);
      RecordsFollow(c, disk, evs[..n], p);
      Reachable(c, disk, evs[..n]);
      var e := After(c, disk, evs[..n]);
      InvCore(c, e);
      match evs[n]
      case Register(_, _, _) =>
      case Unregister(_) =>
      case Deliver(q, msg) =>
        if q in e.peers {
          EnabledPiece(c, e, evs[n]);
          HandleRecord(c, e, q, msg, p);
        }
    }
  }

  lemma EnabledPiece(c: Config, e: Engine, ev: Event)
    requires Enabled(c, e, ev)
    ensures ev.Deliver? && ev.msg.Piece? ==> ev.msg.index < c.meta.numPieces
  {
  }

  /** A message never changes who is registered. */
  lemma KeysStay(c: Config, e: Engine, ev: Event)
    requires Inv(c, e) && Enabled(c, e, ev) && ev.Deliver? && ev.p in e.peers
    ensures Step(c, e, ev).peers.Keys == e.peers.Keys
  {
    hide Inv, Handle, Sized, RecordAfter, Enabled;
    InvCore(c, e);
    EnabledPiece(c, e, ev);
    var f := Step(c, e, ev);
    forall q ensures q in f.peers <==> q in e.peers {
      HandleRecord(c, e, ev.p, ev.msg, q);
    }
  }

  /** A step reports nobody, or the sender of the piece message it handles; that piece is still missing then. */
  lemma BlameIsSender(c: Config, e: Engine, ev: Event)
    requires Inv(c, e) && Enabled(c, e, ev)
    ensures var f := Step(c, e, ev);
            || f.corrupt == e.corrupt
            || (ev.Deliver? && ev.msg.Piece? && f.corrupt == e.corrupt + [ev.p] && ev.msg.index as nat !in f.mgr.have)
  {
    hide Core, Told, Undelivered, NoLost, Availability, OnDisk, Logged, Settle, Refill, OnUnregister, Put, Sound,
      OwnersKept;
    InvCore(c, e);
    if ev.Deliver? && ev.msg.Piece? {
      if ev.p in e.peers {
        var g := Settle(c, e, ev.p, ev.msg.index, ev.msg.begin, ev.msg.block);
        SettleBlames(c, e, ev.p, ev.msg.index, ev.msg.begin, ev.msg.block);
        SettleKeeps(c, e, ev.p, ev.msg.index, ev.msg.begin, ev.msg.block);
        RefillCalm(c, g, ev.p);
      }
    } else {
      CalmStep(c, e, ev);
    }
  }

  lemma SettleBlames(c: Config, e: Engine, p: PeerId, i: nat, begin: uint32, block: seq<byte>)
    requires Core(c, e) && p in e.peers && i < c.meta.numPieces
    ensures var f := Settle(c, e, p, i, begin, block);
            f.corrupt == e.corrupt || (f.corrupt == e.corrupt + [p] && i !in f.mgr.have)
  {
    hide Accept, Conclude, Within, Counted, Unfinished, NoLost, Solo, AllOnRequest, Outside, Told, Sound, Shaped,
      Dropped;
    var (t, complete) := Accept(c, SlotOf(e, p), i, begin, block);
    var taken := WithSlot(e, p, t);
    TakenKeeps(c, e, p, i, begin, block);
    if complete {
      ConcludeParts(c, taken, p, i);
    }
  }
}
