/**
 Connections and engine together: bytes arrive from many peers in any interleaving and any chunking,
 each connection decodes its own, and its callbacks are the engine's events. A peer is registered when
 its handshake is complete, each message is delivered, and a closed connection is unregistered.
 */
module Network {
  import opened Bytes
  import opened Wire
  import opened Swarm
  import opened Coordinator
  import opened Session
  import C = Connection

  /** The flags of a connection when its handshake completes. */
  datatype Flags = Flags(choking: bool, interested: bool)

  function Call(p: PeerId, f: Flags, ev: C.Event): Event {
    match ev
    case GotHandshake(_) => Register(p, f.choking, f.interested)
    case GotMessage(m) => Deliver(p, m)
    case Closed => Unregister(p)
  }

  /** The engine events made by a connection's callbacks. */
  function Calls(p: PeerId, f: Flags, log: seq<C.Event>): (evs: seq<Event>)
    ensures |evs| == |log| && forall k | 0 <= k < |log| :: evs[k] == Call(p, f, log[k])
  {
    seq(|log|, k requires 0 <= k < |log| => Call(p, f, log[k]))
  }

  lemma CallsSplit(p: PeerId, f: Flags, a: seq<C.Event>, b: seq<C.Event>)
    ensures Calls(p, f, a + b) == Calls(p, f, a) + Calls(p, f, b)
  {
  }

  /* ---- what arrives ---- */

  datatype Arrival = Arrival(p: PeerId, bytes: seq<byte>)

  predicate Known(conns: map<PeerId, C.Conn>, arrivals: seq<Arrival>) {
    forall k | 0 <= k < |arrivals| :: arrivals[k].p in conns
  }

  lemma {:induction false} LogGrows(c: C.Conn)
    ensures c.log <= C.ProcessOf(c).log
    decreases |c.rx|
  {
    if C.RoundOf(c).Continue? {
      LogGrows(C.RoundOf(c).c);
    }
  }

  /** One chunk: the connection afterwards, and what its callbacks reported. */
  ghost function Hear(c: C.Conn, bytes: seq<byte>): (r: (C.Conn, seq<C.Event>))
    ensures r.0 == C.ProcessOf(C.Feed(c, bytes)) && r.0.log == c.log + r.1
  {
    LogGrows(C.Feed(c, bytes));
    var d := C.ProcessOf(C.Feed(c, bytes));
    (d, d.log[|c.log|..])
  }

  /** The engine events of a whole schedule of arrivals, in the order the callbacks run. */
  ghost function Dispatched(conns: map<PeerId, C.Conn>, flags: PeerId -> Flags, arrivals: seq<Arrival>): seq<Event>
    requires Known(conns, arrivals)
    decreases |arrivals|
  {
    if arrivals == [] then []
    else
      var a := arrivals[0];
      var (d, log) := Hear(conns[a.p], a.bytes);
      Calls(a.p, flags(a.p), log) + Dispatched(conns[a.p := d], flags, arrivals[1..])
  }

  /** Hearing two chunks is hearing their concatenation. */
  lemma HearTwice(c: C.Conn, a: seq<byte>, b: seq<byte>)
    ensures var (d, first) := Hear(c, a);
            var (e, second) := Hear(d, b);
            Hear(c, a + b) == (e, first + second)
  {
    hide C.ProcessOf, C.RoundOf;
    C.TwoChunks(c, a, b);
    var (d, first) := Hear(c, a);
    var (e, second) := Hear(d, b);
    assert e.log == c.log + (first + second);
    assert Hear(c, a + b).0 == e;
  }

  /* ---- chunking does not matter ---- */

  lemma FirstArrival(conns: map<PeerId, C.Conn>, flags: PeerId -> Flags, x: Arrival, rest: seq<Arrival>)
    requires x.p in conns && Known(conns, rest)
    ensures var (d, log) := Hear(conns[x.p], x.bytes);
            Dispatched(conns, flags, [x] + rest) == Calls(x.p, flags(x.p), log) + Dispatched(conns[x.p := d], flags, rest)
  {
    hide Hear, Calls;
    assert ([x] + rest)[1..] == rest;
  }

  /** Cutting any chunk in two, anywhere in an interleaved schedule, leaves the engine's events as they are. */
  lemma {:induction false} RechunkingInvariant(conns: map<PeerId, C.Conn>, flags: PeerId -> Flags, before: seq<Arrival>, p: PeerId,
                                               a: seq<byte>, b: seq<byte>, after: seq<Arrival>)
    requires Known(conns, before) && Known(conns, after) && p in conns
    ensures Dispatched(conns, flags, before + ([Arrival(p, a), Arrival(p, b)] + after))
         == Dispatched(conns, flags, before + ([Arrival(p, a + b)] + after))
    decreases |before|
  {
    hide Hear, Calls, Dispatched;
    var cut, whole := [Arrival(p, a), Arrival(p, b)] + after, [Arrival(p, a + b)] + after;
    if before == [] {
      CutFirst(conns, flags, p, a, b, after);
      assert [] + cut == cut && [] + whole == whole;
    } else {
      var x, rest := before[0], before[1..];
      RechunkingInvariant(conns[x.p := Hear(conns[x.p], x.bytes).0], flags, rest, p, a, b, after);
      assert before + cut == [x] + (rest + cut) && before + whole == [x] + (rest + whole);
      FirstArrival(conns, flags, x, rest + cut);
      FirstArrival(conns, flags, x, rest + whole);
    }
  }

  lemma CutFirst(conns: map<PeerId, C.Conn>, flags: PeerId -> Flags, p: PeerId, a: seq<byte>, b: seq<byte>, after: seq<Arrival>)
    requires Known(conns, after) && p in conns
    ensures Dispatched(conns, flags, [Arrival(p, a), Arrival(p, b)] + after)
         == Dispatched(conns, flags, [Arrival(p, a + b)] + after)
  {
    hide Hear, Calls;
    HearTwice(conns[p], a, b);
    var (d, first) := Hear(conns[p], a);
    var (e, second) := Hear(d, b);
    var cut := [Arrival(p, a), Arrival(p, b)] + after;
    assert cut[1..] == [Arrival(p, b)] + after && cut[1..][1..] == after;
    assert ([Arrival(p, a + b)] + after)[1..] == after;
    assert conns[p := d][p := e] == conns[p := e];
    CallsSplit(p, flags(p), first, second);
  }

  /* ---- what each peer's events are ---- */

  function OfPeer(evs: seq<Event>, p: PeerId): seq<Event> {
    if evs == [] then []
    else OfPeer(evs[..|evs| - 1], p) + if evs[|evs| - 1].p == p then [evs[|evs| - 1]] else []
  }

  function BytesOf(arrivals: seq<Arrival>, p: PeerId): seq<byte>
    decreases |arrivals|
  {
    if arrivals == [] then [] else (if arrivals[0].p == p then arrivals[0].bytes else []) + BytesOf(arrivals[1..], p)
  }

  lemma {:induction false} OfPeerSplit(a: seq<Event>, b: seq<Event>, p: PeerId)
    ensures OfPeer(a + b, p) == OfPeer(a, p) + OfPeer(b, p)
    decreases |b|
  {
    if b == [] {
      assert a + b == a;
    } else {
      var n := |b| - 1;
      OfPeerSplit(a, b[..n], p);
      assert (a + b)[..|a| + n] == a + b[..n];
    }
  }

  lemma {:induction false} OfPeerCalls(q: PeerId, f: Flags, log: seq<C.Event>, p: PeerId)
    ensures OfPeer(Calls(q, f, log), p) == if q == p then Calls(q, f, log) else []
    decreases |log|
  {
    if log != [] {
      var n := |log| - 1;
      OfPeerCalls(q, f, log[..n], p);
      assert Calls(q, f, log)[..n] == Calls(q, f, log[..n]);
      assert Calls(q, f, log) == Calls(q, f, log[..n]) + [Call(q, f, log[n])];
    }
  }

  /**
   Whatever the interleaving and the chunking, the events the engine gets for one peer are those of its
   connection hearing all the peer's bytes at once.
   */
  lemma {:induction false} EventsOfOnePeer(conns: map<PeerId, C.Conn>, flags: PeerId -> Flags, arrivals: seq<Arrival>, p: PeerId)
    requires Known(conns, arrivals) && p in conns && C.ProcessOf(conns[p]) == conns[p]
    ensures OfPeer(Dispatched(conns, flags, arrivals), p) == Calls(p, flags(p), Hear(conns[p], BytesOf(arrivals, p)).1)
    decreases |arrivals|
  {
    hide Hear, Calls, OfPeer, C.ProcessOf;
    if arrivals == [] {
      HearNothing(conns[p]);
      OfPeerNothing(p, flags(p));
    } else {
      var a := arrivals[0];
      var (d, log) := Hear(conns[a.p], a.bytes);
      var rest := Dispatched(conns[a.p := d], flags, arrivals[1..]);
      OfPeerSplit(Calls(a.p, flags(a.p), log), rest, p);
      OfPeerCalls(a.p, flags(a.p), log, p);
      if a.p == p {
        C.ProcessSettles(C.Feed(conns[p], a.bytes));
        HearIs(conns[p], a.bytes);
        HearTwice(conns[p], a.bytes, BytesOf(arrivals[1..], p));
        CallsSplit(p, flags(p), log, Hear(d, BytesOf(arrivals[1..], p)).1);
      } else {
        assert [] + BytesOf(arrivals[1..], p) == BytesOf(arrivals[1..], p);
      }
      EventsOfOnePeer(conns[a.p := d], flags, arrivals[1..], p);
    }
  }

  lemma HearIs(c: C.Conn, bytes: seq<byte>)
    ensures Hear(c, bytes).0 == C.ProcessOf(C.Feed(c, bytes))
  {
    hide C.ProcessOf;
  }

  lemma HearNothing(c: C.Conn)
    requires C.ProcessOf(c) == c
    ensures Hear(c, []).1 == []
  {
    hide C.ProcessOf;
    assert C.Feed(c, []) == c;
    assert c.log[|c.log|..] == [];
  }

  lemma OfPeerNothing(p: PeerId, f: Flags)
    ensures OfPeer([], p) == [] == Calls(p, f, [])
  {
  }

  /* ---- from a sender's messages to the engine ---- */

  /** The events of messages handed over directly. */
  function Direct(p: PeerId, msgs: seq<Message>): seq<Event> {
    seq(|msgs|, k requires 0 <= k < |msgs| => Deliver(p, msgs[k]))
  }

  lemma CallsOfReceived(p: PeerId, f: Flags, msgs: seq<Message>)
    ensures Calls(p, f, C.Received(msgs)) == Direct(p, msgs)
  {
    forall k | 0 <= k < |msgs| ensures C.Received(msgs)[k] == C.GotMessage(msgs[k]) {
      ReceivedAt(msgs, k);
    }
  }

  lemma {:induction false} ReceivedAt(msgs: seq<Message>, k: nat)
    requires k < |msgs|
    ensures C.Received(msgs)[k] == C.GotMessage(msgs[k])
    decreases |msgs|
  {
    if k > 0 {
      ReceivedAt(msgs[1..], k - 1);
    }
  }

  /**
   From a sender's `send_message` calls to the engine: for every outcome of its connect, every schedule of
   partial sends, every chunking and every traffic from other peers in between, the events the engine gets
   for this peer are its registration and exactly the messages whose frames have fully arrived, handed over
   directly; or, if anything was handed over before the socket was established, one unregistration.
   */
  lemma MessagesReachEngine(conns: map<PeerId, C.Conn>, flags: PeerId -> Flags, arrivals: seq<Arrival>, p: PeerId,
                            early: seq<Message>, h: Handshake, dial: C.Dial, steps: seq<C.SendStep>)
    requires Known(conns, arrivals) && p in conns && conns[p].state.Handshaking? && conns[p].rx == []
    requires h.Sized() && C.StepsSendable(steps) && C.AllSendable(early) && C.AllSendable(dial.Pending())
    requires BytesOf(arrivals, p) <= C.SenderRun(early, h, dial, steps).wire
    ensures
      var n := |BytesOf(arrivals, p)|;
      OfPeer(Dispatched(conns, flags, arrivals), p) ==
        if n < HANDSHAKE_SIZE then []
        else if early + dial.Pending() != [] then [Unregister(p)]
        else
          [Register(p, flags(p).choking, flags(p).interested)]
          + Direct(p, C.MessagesOf(steps)[..C.Arrived(C.MessagesOf(steps), n - HANDSHAKE_SIZE)])
  {
    hide C.ProcessOf, C.SenderRun, C.MessagesOf, C.Arrived, C.Received, Dispatched, OfPeer, Calls, Direct, C.Stream,
      EncodeHandshake;
    var bytes := BytesOf(arrivals, p);
    var n, msgs := |bytes|, C.MessagesOf(steps);
    C.HandshakingSettled(conns[p]);
    EventsOfOnePeer(conns, flags, arrivals, p);
    C.WholeSenderConserves(early, h, dial, steps);
    var fed := C.Feed(conns[p], bytes);
    assert fed.rx == bytes;
    if dial.Succeeds() {
      C.Hears(fed, early + dial.Pending(), h, steps);
    } else {
      C.ShortSettles(fed);
    }
    var log := Hear(conns[p], bytes).1;
    if n < HANDSHAKE_SIZE {
      assert log == [];
      OfPeerNothing(p, flags(p));
    } else if early + dial.Pending() != [] {
      assert log == [C.Closed];
      ClosedCall(p, flags(p));
    } else {
      var delivered := msgs[..C.Arrived(msgs, n - HANDSHAKE_SIZE)];
      assert log == [C.GotHandshake(h)] + C.Received(delivered);
      CallsSplit(p, flags(p), [C.GotHandshake(h)], C.Received(delivered));
      CallsOfReceived(p, flags(p), delivered);
      FirstCall(p, flags(p), h);
    }
  }

  lemma ClosedCall(p: PeerId, f: Flags)
    ensures Calls(p, f, [C.Closed]) == [Unregister(p)]
  {
  }

  lemma FirstCall(p: PeerId, f: Flags, h: Handshake)
    ensures Calls(p, f, [C.GotHandshake(h)]) == [Register(p, f.choking, f.interested)]
  {
  }

  /* ---- the objects ---- */

  /** A readable socket: the connection reads and decodes, then its callbacks call the coordinator. */
  method Receive(coordinator: DownloadCoordinator, conn: C.PeerConnection, p: PeerId, f: Flags, chunks: seq<seq<byte>>,
                 ghost before: seq<Event>, ghost disk: seq<byte>)
    requires coordinator.Valid() && Startable(coordinator.Cfg(), disk)
    requires Legal(coordinator.Cfg(), disk, before) && coordinator.View() == After(coordinator.Cfg(), disk, before)
    requires Legal(coordinator.Cfg(), disk, before + Calls(p, f, Hear(conn.View(), C.Joined(chunks)).1))
    modifies conn
    modifies coordinator, coordinator.pm, coordinator.pm.bitfield.bytes, coordinator.picker, coordinator.disk
    ensures conn.View() == Hear(old(conn.View()), C.Joined(chunks)).0
    ensures coordinator.Valid()
    ensures coordinator.View()
         == After(coordinator.Cfg(), disk, before + Calls(p, f, Hear(old(conn.View()), C.Joined(chunks)).1))
  {
    hide C.ProcessOf, Legal, After, Startable, Calls;
    var reported := |conn.log|;
    conn.HandleRead(chunks, false);
    var log := conn.log[reported..];
    Drive(coordinator, Calls(p, f, log), before, disk);
  }
}
