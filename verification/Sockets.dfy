/**
 What a connection does to its socket's answers, told from the answers alone; what its flags say; which
 frames it skips; and that nothing follows a disconnect.
 */
module Sockets {
  import opened Bytes
  import opened Wire
  import opened Connection

  /* ---- schedules of partial sends ---- */

  /** The amounts taken, added up. */
  function TookIn(script: seq<SendResult>): nat {
    if script == [] then 0
    else (if script[0].Took? then script[0].n else 0) + TookIn(script[1..])
  }

  /** The first `k` answers let the loop go on, and the one after them, if any, ends it. */
  ghost predicate StopsAt(script: seq<SendResult>, k: nat) {
    && k <= |script|
    && (forall j | 0 <= j < k :: script[j].Took? || script[j].Interrupted?)
    && (k < |script| ==> script[k].WouldBlock? || script[k].Failed?)
  }

  ghost predicate NeverFails(script: seq<SendResult>) {
    forall j | 0 <= j < |script| :: !script[j].Failed?
  }

  lemma {:induction false} Stops(script: seq<SendResult>) returns (k: nat)
    ensures StopsAt(script, k)
    decreases |script|
  {
    if script == [] || script[0].WouldBlock? || script[0].Failed? {
      k := 0;
    } else {
      var rest := Stops(script[1..]);
      k := rest + 1;
    }
  }

  /** The bytes accepted are what was taken before the stop, as far as there were bytes; an error only with bytes unsent. */
  lemma {:induction false} DrainIs(size: nat, script: seq<SendResult>, k: nat)
    requires StopsAt(script, k)
    ensures Drain(size, script).0 == Min(size, TookIn(script[..k]))
    ensures Drain(size, script).1 <==> TookIn(script[..k]) < size && k < |script| && script[k].Failed?
    decreases |script|
  {
    if script != [] && size > 0 {
      if k > 0 {
        assert script[1..][..k - 1] == script[..k][1..];
        assert forall j | 0 <= j < k - 1 :: script[1..][j] == script[j + 1];
        var left := if script[0].Took? then size - Min(script[0].n, size) else size;
        DrainIs(left, script[1..], k - 1);
      }
    }
  }

  /** A drain whose answers stop at `k`, told from the answers. */
  lemma WriteIs(c: Conn, script: seq<SendResult>, k: nat)
    requires StopsAt(script, k)
    ensures
      var n := Min(|c.tx|, TookIn(script[..k]));
      var sent := c.(tx := c.tx[n..], wire := c.wire + c.tx[..n]);
      WriteOf(c, script) ==
        if n < |c.tx| && k < |script| && script[k].Failed? && c.state != Disconnected
        then sent.(state := Disconnected, rx := [], tx := [], log := c.log + [Closed])
        else sent
  {
    DrainIs(|c.tx|, script, k);
  }

  /** Without a failed send, a drain leaves state, received bytes and callbacks alone. */
  lemma UnfailingWrite(c: Conn, script: seq<SendResult>)
    requires NeverFails(script)
    ensures var d := WriteOf(c, script); d == c.(tx := d.tx, wire := d.wire)
  {
    var k := Stops(script);
    WriteIs(c, script, k);
  }

  /** A connection is lost in a drain exactly when a send fails with bytes unsent and nothing would have blocked before. */
  lemma WriteDisconnectsIff(c: Conn, script: seq<SendResult>)
    requires c.state != Disconnected
    ensures WriteOf(c, script).state == Disconnected
       <==> exists k :: 0 <= k < |script| && StopsAt(script, k) && script[k].Failed? && TookIn(script[..k]) < |c.tx|
  {
    var k := Stops(script);
    WriteIs(c, script, k);
    forall j | 0 <= j < |script| && StopsAt(script, j) && script[j].Failed? ensures j == k {
    }
  }

  ghost predicate AllUnfailing(steps: seq<SendStep>) {
    forall k | 0 <= k < |steps| :: NeverFails(steps[k].script)
  }

  lemma UnfailingSend(c: Conn, m: Message, script: seq<SendResult>)
    requires Sendable(m) && NeverFails(script)
    ensures SendOf(c, m, script).state == c.state && SendOf(c, m, script).log == c.log
  {
    hide Frame, WriteOf;
    if !c.state.Disconnected? {
      var queued := NoteSent(c, m).(tx := c.tx + Frame(m));
      UnfailingWrite(queued, script);
    }
  }

  /**
   A message is queued behind what is there; only between handshake and disconnect is the buffer drained at
   once, as far as the socket takes it.
   */
  lemma SendIs(c: Conn, m: Message, script: seq<SendResult>, k: nat)
    requires Sendable(m) && StopsAt(script, k) && c.state != Disconnected
    ensures
      var d, all := SendOf(c, m, script), c.tx + Frame(m);
      var n := if c.state.Handshaking? || c.state.Active? then Min(|all|, TookIn(script[..k])) else 0;
      && d.wire == c.wire + all[..n]
      && if (c.state.Handshaking? || c.state.Active?) && n < |all| && k < |script| && script[k].Failed?
         then d.state == Disconnected && d.tx == [] && d.log == c.log + [Closed]
         else d.state == c.state && d.tx == all[n..] && d.log == c.log
  {
    hide Frame, WriteOf;
    WriteIs(NoteSent(c, m).(tx := c.tx + Frame(m)), script, k);
  }

  /** Over a whole run without a failed send the connection stays as it is and reports nothing. */
  lemma {:induction false} UnfailingRun(c: Conn, steps: seq<SendStep>)
    requires StepsSendable(steps) && AllUnfailing(steps)
    ensures AfterSteps(c, steps).state == c.state && AfterSteps(c, steps).log == c.log
  {
    hide SendOf, WriteOf;
    if steps != [] {
      var n := |steps| - 1;
      UnfailingRun(c, steps[..n]);
      var front := AfterSteps(c, steps[..n]);
      match steps[n]
      case SendMessage(m, script) => UnfailingSend(front, m, script);
      case Writable(script) => UnfailingWrite(front, script);
    }
  }

  /**
   Once the socket takes at least what is queued before it would block, all that was ever written is on
   the wire: the frames sent ahead, the handshake, and every message's frame.
   */
  lemma EverythingSent(early: seq<Message>, h: Handshake, dial: Dial, steps: seq<SendStep>, script: seq<SendResult>)
    requires AllSendable(early) && AllSendable(dial.Pending()) && h.Sized() && StepsSendable(steps) && dial.Succeeds()
    requires AllUnfailing(steps) && NeverFails(script) && UnfailingDial(dial)
    requires StopsAt(script, |script|) && TookIn(script) >= |SenderRun(early, h, dial, steps).tx|
    ensures var c := WriteOf(SenderRun(early, h, dial, steps), script);
            c.tx == [] && c.wire == Written(early + dial.Pending(), h, steps) && c.state == Handshaking && c.log == []
  {
    hide WriteOf, AfterSteps, Written, Dialled, MessagesOf;
    var d := SenderRun(early, h, dial, steps);
    DialSucceeds(early, h, dial);
    UnfailingRun(Dialled(early, h, dial), steps);
    WholeSenderConserves(early, h, dial, steps);
    WriteIs(d, script, |script|);
    assert script[..|script|] == script;
    assert d.tx[..|d.tx|] == d.tx && d.tx[|d.tx|..] == [];
  }

  /* ---- connecting ---- */

  ghost predicate UnfailingDial(dial: Dial) {
    match dial
    case AtOnce(script) => NeverFails(script)
    case Later(_, script, again) => NeverFails(script) && NeverFails(again)
    case _ => true
  }

  lemma EstablishStays(c: Conn, h: Handshake, script: seq<SendResult>)
    requires h.Sized() && NeverFails(script)
    ensures EstablishOf(c, h, script).state == Handshaking && EstablishOf(c, h, script).log == c.log
  {
    hide WriteOf, EncodeHandshake;
    UnfailingWrite(c.(state := Handshaking, tx := c.tx + EncodeHandshake(h)), script);
  }

  /**
   A connect that succeeds, at once or by writability, with no failed send: handshaking, nothing reported,
   and the frames sent ahead followed by the handshake on the wire or queued.
   */
  lemma DialSucceeds(early: seq<Message>, h: Handshake, dial: Dial)
    requires AllSendable(early) && AllSendable(dial.Pending()) && h.Sized() && dial.Succeeds() && UnfailingDial(dial)
    ensures var c := Dialled(early, h, dial);
            && c.state == Handshaking && c.log == []
            && c.wire + c.tx == Stream(early + dial.Pending()) + EncodeHandshake(h)
  {
    hide WriteOf, EncodeHandshake, Stream, EstablishOf, QueueAll;
    DialConserves(early, h, dial);
    match dial
    case AtOnce(script) =>
      EarlyQueued(FRESH, early);
      EstablishStays(QueueAll(FRESH, early), h, script);
    case Later(waiting, script, again) =>
      PendingQueued(early, h, waiting);
      var c := QueueAll(ConnectOf(QueueAll(FRESH, early), h, InProgress, []), waiting);
      EstablishStays(c, h, script);
      UnfailingWrite(EstablishOf(c, h, script), again);
  }

  /** A connection that is not idle ignores `connect`. */
  lemma ConnectOnlyWhenIdle(c: Conn, h: Handshake, status: ConnectStatus, script: seq<SendResult>)
    requires h.Sized() && c.state != Idle
    ensures ConnectOf(c, h, status, script) == c
  {
  }

  /* ---- after the end ---- */

  /** A disconnect empties both buffers, reports once, and keeps what the kernel already took. */
  lemma DisconnectEnds(c: Conn)
    ensures var d := DisconnectOf(c);
            && d.state == Disconnected && d.wire == c.wire
            && (c.state != Disconnected ==> d.rx == [] && d.tx == [] && d.log == c.log + [Closed])
            && (c.state == Disconnected ==> d == c)
  {
  }

  /** Nothing follows a disconnect: no send, connect, write step or received byte has any effect but to be dropped. */
  lemma NothingFollows(c: Conn, m: Message, script: seq<SendResult>, h: Handshake, status: ConnectStatus, bytes: seq<byte>,
                       steps: seq<SendStep>)
    requires c.state == Disconnected && Sendable(m) && h.Sized() && StepsSendable(steps)
    ensures SendOf(c, m, script) == c && ConnectOf(c, h, status, script) == c && AfterSteps(c, steps) == c
    ensures ProcessOf(Feed(c, bytes)).log == c.log && ProcessOf(Feed(c, bytes)).state == Disconnected
  {
    GoneStays(c, steps);
  }

  /** Bytes received before the socket is established are dropped. */
  lemma EarlyBytesDropped(c: Conn, bytes: seq<byte>)
    requires c.state.Idle? || c.state.Connecting?
    ensures ProcessOf(Feed(c, bytes)) == c.(rx := [])
  {
  }

  /* ---- flags ---- */

  /** A flag that one message raises and another lowers: the last of them in `msgs` counts, else what it was. */
  function FlagAfter(before: bool, msgs: seq<Message>, raises: Message, lowers: Message): bool {
    if msgs == [] then before
    else
      var last := msgs[|msgs| - 1];
      if last == raises then true
      else if last == lowers then false
      else FlagAfter(before, msgs[..|msgs| - 1], raises, lowers)
  }

  lemma {:induction false} FlagSplit(before: bool, a: seq<Message>, b: seq<Message>, raises: Message, lowers: Message)
    ensures FlagAfter(before, a + b, raises, lowers)
         == FlagAfter(FlagAfter(before, a, raises, lowers), b, raises, lowers)
    decreases |b|
  {
    if b == [] {
      assert a + b == a;
    } else {
      FlagSplit(before, a, b[..|b| - 1], raises, lowers);
      assert (a + b)[..|a + b| - 1] == a + b[..|b| - 1];
    }
  }

  /** A new connection chokes, is not interested, and takes the same of its peer. */
  lemma FreshFlags()
    ensures FRESH.amChoking && !FRESH.amInterested && FRESH.peerChoking && !FRESH.peerInterested
    ensures FRESH.state == Idle && FRESH.rx == FRESH.tx == FRESH.wire == [] && FRESH.log == []
  {
  }

  lemma WriteKeepsFlags(c: Conn, script: seq<SendResult>)
    ensures var d := WriteOf(c, script);
            && d.amChoking == c.amChoking && d.amInterested == c.amInterested
            && d.peerChoking == c.peerChoking && d.peerInterested == c.peerInterested
  {
  }

  lemma SendFlags(c: Conn, m: Message, script: seq<SendResult>)
    requires Sendable(m) && c.state != Disconnected
    ensures
      var d := SendOf(c, m, script);
      && d.amChoking == FlagAfter(c.amChoking, [m], Choke, Unchoke)
      && d.amInterested == FlagAfter(c.amInterested, [m], Interested, NotInterested)
      && d.peerChoking == c.peerChoking && d.peerInterested == c.peerInterested
  {
    hide WriteOf, Frame;
    assert [m][..0] == [];
    WriteKeepsFlags(NoteSent(c, m).(tx := c.tx + Frame(m)), script);
  }

  /** While the connection lives, our flags follow the messages sent and the peer's are untouched by sending. */
  lemma {:induction false} SentFlags(c: Conn, steps: seq<SendStep>)
    requires StepsSendable(steps) && AfterSteps(c, steps).state != Disconnected
    ensures
      var d, msgs := AfterSteps(c, steps), MessagesOf(steps);
      && d.amChoking == FlagAfter(c.amChoking, msgs, Choke, Unchoke)
      && d.amInterested == FlagAfter(c.amInterested, msgs, Interested, NotInterested)
      && d.peerChoking == c.peerChoking && d.peerInterested == c.peerInterested
  {
    hide WriteOf, SendOf, FlagAfter;
    if steps != [] {
      var n := |steps| - 1;
      var front := AfterSteps(c, steps[..n]);
      StillOpen(front, steps[n]);
      SentFlags(c, steps[..n]);
      match steps[n]
      case SendMessage(m, script) =>
        SendFlags(front, m, script);
        FlagSplit(c.amChoking, MessagesOf(steps[..n]), [m], Choke, Unchoke);
        FlagSplit(c.amInterested, MessagesOf(steps[..n]), [m], Interested, NotInterested);
      case Writable(script) =>
        WriteKeepsFlags(front, script);
        assert MessagesOf(steps) == MessagesOf(steps[..n]);
    } else {
      NoFlagChange(c.amChoking, Choke, Unchoke);
      NoFlagChange(c.amInterested, Interested, NotInterested);
    }
  }

  lemma NoFlagChange(before: bool, raises: Message, lowers: Message)
    ensures FlagAfter(before, [], raises, lowers) == before
  {
  }

  lemma StillOpen(c: Conn, step: SendStep)
    ensures c.state == Disconnected && (step.SendMessage? ==> Sendable(step.m)) ==>
              step.SendMessage? ==> SendOf(c, step.m, step.script) == c
  {
  }

  /** The messages among the callbacks. */
  function Heard(log: seq<Event>): seq<Message> {
    if log == [] then []
    else Heard(log[..|log| - 1]) + if log[|log| - 1].GotMessage? then [log[|log| - 1].m] else []
  }

  lemma {:induction false} HeardJoin(a: seq<Event>, b: seq<Event>)
    ensures Heard(a + b) == Heard(a) + Heard(b)
    decreases |b|
  {
    if b == [] {
      assert a + b == a;
    } else {
      HeardJoin(a, b[..|b| - 1]);
      assert (a + b)[..|a + b| - 1] == a + b[..|b| - 1];
    }
  }

  lemma OneHeard(ev: Event)
    ensures Heard([ev]) == if ev.GotMessage? then [ev.m] else []
  {
    assert [ev][..0] == [];
  }

  /** The peer's flags, told from the messages delivered. */
  ghost predicate PeerFlags(c: Conn, d: Conn, log: seq<Event>) {
    && d.log == c.log + log
    && d.peerChoking == FlagAfter(c.peerChoking, Heard(log), Choke, Unchoke)
    && d.peerInterested == FlagAfter(c.peerInterested, Heard(log), Interested, NotInterested)
    && d.amChoking == c.amChoking && d.amInterested == c.amInterested
  }

  lemma DeliverFlags(c: Conn, msg: Option<Message>) returns (log: seq<Event>)
    ensures PeerFlags(c, Deliver(c, msg), log)
  {
    match msg
    case None =>
      log := [];
      assert c.log + [] == c.log;
    case Some(m) =>
      log := [GotMessage(m)];
      OneHeard(GotMessage(m));
      assert Heard(log)[..0] == [];
  }

  lemma HandshakeFlags(c: Conn) returns (log: seq<Event>)
    ensures PeerFlags(c, HandshakeRound(c).c, log)
  {
    hide DecodeHandshake;
    var d := HandshakeRound(c).c;
    if d.log == c.log {
      log := [];
      assert c.log + [] == c.log;
    } else {
      log := [d.log[|c.log|]];
      assert d.log == c.log + log;
      OneHeard(log[0]);
    }
  }

  /** What one round adds to the log. */
  lemma RoundFlags(c: Conn) returns (log: seq<Event>)
    ensures PeerFlags(c, RoundOf(c).c, log)
  {
    hide DecodeBody, Deserialize, Deliver, HandshakeRound, FlagAfter;
    NoFlagChange(c.peerChoking, Choke, Unchoke);
    NoFlagChange(c.peerInterested, Interested, NotInterested);
    assert c.log + [] == c.log;
    log := [];
    if c.rx != [] && !c.state.Broken? {
      if c.state.Handshaking? {
        log := HandshakeFlags(c);
      } else if c.state.Active? && Deserialize(c.rx).Consumed? {
        var d := Deserialize(c.rx);
        log := DeliverFlags(c.(rx := c.rx[d.size..]), d.msg);
      }
    }
  }

  /** Processing leaves the peer's flags as the last delivered choke and interest messages say, and ours alone. */
  lemma {:induction false} ReceivedFlags(c: Conn) returns (log: seq<Event>)
    ensures PeerFlags(c, ProcessOf(c), log)
    decreases |c.rx|
  {
    hide RoundOf;
    var first := RoundFlags(c);
    if RoundOf(c).Stop? {
      log := first;
    } else {
      var rest := ReceivedFlags(RoundOf(c).c);
      log := first + rest;
      HeardJoin(first, rest);
      FlagSplit(c.peerChoking, Heard(first), Heard(rest), Choke, Unchoke);
      FlagSplit(c.peerInterested, Heard(first), Heard(rest), Interested, NotInterested);
      assert c.log + first + rest == c.log + log;
    }
  }

  /* ---- streams with malformed and unknown frames ---- */

  predicate AllFramable(bodies: seq<seq<byte>>) {
    forall k | 0 <= k < |bodies| :: Framable(|bodies[k]|)
  }

  function RawFrame(body: seq<byte>): (b: seq<byte>)
    requires Framable(|body|)
    ensures |b| == 4 + |body|
  {
    Be32(|body|) + body
  }

  function RawStream(bodies: seq<seq<byte>>): seq<byte>
    requires AllFramable(bodies)
    decreases |bodies|
  {
    if bodies == [] then [] else RawFrame(bodies[0]) + RawStream(bodies[1..])
  }

  /** The messages that bodies stand for; a body that is no message's body stands for none. */
  function Meant(bodies: seq<seq<byte>>): seq<Event>
    decreases |bodies|
  {
    if bodies == [] then []
    else (match DecodeBody(bodies[0]) case Some(m) => [GotMessage(m)] case None => []) + Meant(bodies[1..])
  }

  lemma RawFrameDecodes(body: seq<byte>, rest: seq<byte>)
    requires Framable(|body|)
    ensures Deserialize(RawFrame(body) + rest) == Consumed(DecodeBody(body), 4 + |body|)
  {
    hide Be32, Read32;
    var data := RawFrame(body) + rest;
    assert data == Be32(|body|) + (body + rest);
    ReadPrefix32(|body|, body + rest);
    assert data[4..4 + |body|] == body;
  }

  /** A frame that stands for no message is consumed whole and reported to nobody; the connection goes on. */
  lemma RawFrameRound(c: Conn, body: seq<byte>)
    requires Framable(|body|) && c.state.Active? && RawFrame(body) <= c.rx
    ensures RoundOf(c) == Continue(Deliver(c.(rx := c.rx[4 + |body|..]), DecodeBody(body)))
  {
    hide DecodeBody, Deserialize, RawFrame;
    assert c.rx == RawFrame(body) + c.rx[4 + |body|..];
    RawFrameDecodes(body, c.rx[4 + |body|..]);
  }

  lemma DeliverIs(c: Conn, msg: Option<Message>)
    ensures var d := Deliver(c, msg);
            && d.rx == c.rx && d.state == c.state
            && d.log == c.log + (match msg case Some(m) => [GotMessage(m)] case None => [])
  {
  }

  function MeantBy(body: seq<byte>): seq<Event> {
    match DecodeBody(body)
    case Some(m) => [GotMessage(m)]
    case None => []
  }

  lemma FirstBody(bodies: seq<seq<byte>>)
    requires AllFramable(bodies) && bodies != []
    ensures RawStream(bodies) == RawFrame(bodies[0]) + RawStream(bodies[1..])
    ensures RawStream(bodies)[4 + |bodies[0]|..] == RawStream(bodies[1..])
    ensures Meant(bodies) == MeantBy(bodies[0]) + Meant(bodies[1..])
  {
    hide DecodeBody, RawFrame;
  }

  lemma Nobody()
    ensures RawStream([]) == [] && Meant([]) == []
  {
  }

  lemma JoinLog(log: seq<Event>, a: seq<Event>, b: seq<Event>)
    ensures log + a + b == log + (a + b) && log + [] == log
  {
  }

  /** A whole stream of frames of any content: exactly those that are some message's frame are delivered, in order. */
  lemma {:induction false} ActiveSkipsJunk(c: Conn, bodies: seq<seq<byte>>)
    requires AllFramable(bodies) && c.state.Active? && c.rx == RawStream(bodies)
    ensures ProcessOf(c).state.Active? && ProcessOf(c).rx == []
    ensures ProcessOf(c).log == c.log + Meant(bodies)
    decreases |bodies|
  {
    hide RoundOf, DecodeBody, RawFrame, RawStream, Deliver, Meant;
    Nobody();
    if bodies == [] {
      EmptyRound(c);
      JoinLog(c.log, [], []);
    } else {
      FirstBody(bodies);
      var d := c.(rx := c.rx[4 + |bodies[0]|..]);
      RawFrameRound(c, bodies[0]);
      DeliverIs(d, DecodeBody(bodies[0]));
      ActiveSkipsJunk(Deliver(d, DecodeBody(bodies[0])), bodies[1..]);
      JoinLog(c.log, MeantBy(bodies[0]), Meant(bodies[1..]));
    }
  }
}
