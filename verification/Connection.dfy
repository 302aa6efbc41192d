/**
 One peer connection as a byte stream (peer_connection.cpp): the transmit buffer drained by partial
 sends, the receive buffer filled by arbitrary chunks, and the loop that cuts it into frames.

 The kernel is a script of send results and a list of received chunks. Callbacks append to `log`.
 The functions on `Conn` say what each operation does to a connection; the class carries them out on
 its fields.
 */
module Connection {
  import opened Bytes
  import opened Wire

  /** `Broken` is no state of the source: it marks that a frame length made `4 + length` wrap. */
  datatype ConnectionState = Idle | Connecting | Handshaking | Active | Disconnected | Broken

  datatype Event = GotHandshake(h: Handshake) | GotMessage(m: Message) | Closed

  /** The kernel's answers to `send`: so many bytes taken, EAGAIN, EINTR, or another error. */
  datatype SendResult = Took(n: nat) | WouldBlock | Interrupted | Failed

  datatype Conn = Conn(
    state: ConnectionState,
    amChoking: bool,
    amInterested: bool,
    peerChoking: bool,
    peerInterested: bool,
    rx: seq<byte>,
    tx: seq<byte>,
    wire: seq<byte>,
    log: seq<Event>)

  /* ---- what the operations do ---- */

  function DisconnectOf(c: Conn): Conn {
    if c.state.Disconnected? then c
    else c.(state := Disconnected, rx := [], tx := [], log := c.log + [Closed])
  }

  /** Bytes sent out of `size`, and whether a send failed. An exhausted script reads as EAGAIN. */
  function Drain(size: nat, script: seq<SendResult>): (r: (nat, bool))
    ensures r.0 <= size
  {
    if size == 0 || script == [] then (0, false)
    else
      match script[0]
      case Took(n) => var k := Min(n, size); var rest := Drain(size - k, script[1..]); (k + rest.0, rest.1)
      case WouldBlock => (0, false)
      case Interrupted => Drain(size, script[1..])
      case Failed => (0, true)
  }

  function WriteOf(c: Conn, script: seq<SendResult>): Conn {
    var (sent, error) := Drain(|c.tx|, script);
    var drained := c.(tx := c.tx[sent..], wire := c.wire + c.tx[..sent]);
    if error then DisconnectOf(drained) else drained
  }

  function NoteSent(c: Conn, m: Message): Conn {
    c.(amChoking := if m.Choke? then true else if m.Unchoke? then false else c.amChoking,
       amInterested := if m.Interested? then true else if m.NotInterested? then false else c.amInterested)
  }

  function NoteReceived(c: Conn, m: Message): Conn {
    c.(peerChoking := if m.Choke? then true else if m.Unchoke? then false else c.peerChoking,
       peerInterested := if m.Interested? then true else if m.NotInterested? then false else c.peerInterested)
  }

  function SendOf(c: Conn, m: Message, script: seq<SendResult>): Conn
    requires Sendable(m)
  {
    if c.state.Disconnected? then c
    else
      QueueOf(NoteSent(c, m), Frame(m), script)
  }

  function QueueOf(c: Conn, bytes: seq<byte>, script: seq<SendResult>): Conn {
    var queued := c.(tx := c.tx + bytes);
    if c.state.Handshaking? || c.state.Active? then WriteOf(queued, script) else queued
  }

  /** A connection object before `connect`. */
  const FRESH := Conn(Idle, true, false, true, false, [], [], [], [])

  /** The socket is established: the handshake goes out behind whatever was queued before. */
  function EstablishOf(c: Conn, h: Handshake, script: seq<SendResult>): Conn
    requires h.Sized()
  {
    WriteOf(c.(state := Handshaking, tx := c.tx + EncodeHandshake(h)), script)
  }

  /** What `connect_async` reports; a failed registration with the event loop has the effect of an error. */
  datatype ConnectStatus = Connected | InProgress | Error

  function ConnectOf(c: Conn, h: Handshake, status: ConnectStatus, script: seq<SendResult>): Conn
    requires h.Sized()
  {
    if !c.state.Idle? then c
    else
      match status
      case Error => c.(state := Disconnected, log := c.log + [Closed])
      case InProgress => c.(state := Connecting)
      case Connected => EstablishOf(c, h, script)
  }

  /** The socket is writable: a pending connect has succeeded or failed, then the transmit buffer is drained. */
  function WritableOf(c: Conn, h: Handshake, failed: bool, script: seq<SendResult>, again: seq<SendResult>): Conn
    requires h.Sized()
  {
    if !c.state.Connecting? then WriteOf(c, again)
    else if failed then DisconnectOf(c)
    else WriteOf(EstablishOf(c, h, script), again)
  }

  /** One round of `process_rx_buffer`'s loop: go on, or leave the loop. */
  datatype Round = Continue(c: Conn) | Stop(c: Conn)

  function HandshakeRound(c: Conn): (r: Round)
    ensures r.Continue? ==> |r.c.rx| < |c.rx|
  {
    if |c.rx| < HANDSHAKE_SIZE then Stop(c)
    else
      match DecodeHandshake(c.rx[..HANDSHAKE_SIZE])
      case None => Stop(DisconnectOf(c))
      case Some(h) => Continue(c.(rx := c.rx[HANDSHAKE_SIZE..], state := Active, log := c.log + [GotHandshake(h)]))
  }

  function Deliver(c: Conn, msg: Option<Message>): Conn {
    match msg
    case None => c
    case Some(m) => NoteReceived(c, m).(log := c.log + [GotMessage(m)])
  }

  function MessageRound(c: Conn): (r: Round)
    ensures r.Continue? ==> |r.c.rx| < |c.rx|
  {
    Act(c, Deserialize(c.rx))
  }

  function Act(c: Conn, d: Decoded): (r: Round)
    requires d.Consumed? ==> 0 < d.size <= |c.rx|
    ensures r.Continue? ==> |r.c.rx| < |c.rx|
  {
    match d
    case NeedMore => Stop(c)
    case Wraps => Stop(c.(state := Broken))
    case Consumed(msg, size) => Continue(Deliver(c.(rx := c.rx[size..]), msg))
  }

  lemma ActFed(c: Conn, d: Decoded, more: seq<byte>)
    requires d.Consumed? ==> 0 < d.size <= |c.rx|
    requires !d.NeedMore?
    ensures d.Consumed? ==> Act(Feed(c, more), d) == Continue(Feed(Act(c, d).c, more))
    ensures d.Wraps? ==> Act(Feed(c, more), d) == Stop(Feed(c, more).(state := Broken))
  {
    hide Deliver;
    if d.Consumed? {
      var left := c.(rx := c.rx[d.size..]);
      DeliverFed(left, d.msg, more);
      assert Feed(c, more).(rx := Feed(c, more).rx[d.size..]) == Feed(left, more);
    }
  }

  lemma DeliverFed(c: Conn, msg: Option<Message>, more: seq<byte>)
    ensures Deliver(Feed(c, more), msg) == Feed(Deliver(c, msg), more)
  {
  }

  function RoundOf(c: Conn): (r: Round)
    ensures r.Continue? ==> |r.c.rx| < |c.rx|
  {
    if c.rx == [] || c.state.Broken? then Stop(c)
    else if c.state.Handshaking? then HandshakeRound(c)
    else if c.state.Active? then MessageRound(c)
    else Stop(c.(rx := []))
  }

  /** What `process_rx_buffer` makes of the bytes received so far. */
  function ProcessOf(c: Conn): Conn
    decreases |c.rx|
  {
    match RoundOf(c)
    case Stop(next) => next
    case Continue(next) => ProcessOf(next)
  }

  function Feed(c: Conn, bytes: seq<byte>): Conn {
    c.(rx := c.rx + bytes)
  }

  /** `process_rx_buffer` after each of several reads. */
  function FeedAll(c: Conn, chunks: seq<seq<byte>>): Conn
    decreases |chunks|
  {
    if chunks == [] then c else FeedAll(ProcessOf(Feed(c, chunks[0])), chunks[1..])
  }

  function Joined(chunks: seq<seq<byte>>): seq<byte> {
    if chunks == [] then [] else chunks[0] + Joined(chunks[1..])
  }

  /* ---- chunking does not matter ---- */

  lemma HandshakeRoundFed(c: Conn, more: seq<byte>)
    requires |c.rx| >= HANDSHAKE_SIZE
    ensures HandshakeRound(c).Continue? ==> HandshakeRound(Feed(c, more)) == Continue(Feed(HandshakeRound(c).c, more))
    ensures HandshakeRound(c).Stop? ==>
              && HandshakeRound(c).c == DisconnectOf(c)
              && HandshakeRound(Feed(c, more)) == Stop(DisconnectOf(Feed(c, more)))
  {
    assert Feed(c, more).rx[..HANDSHAKE_SIZE] == c.rx[..HANDSHAKE_SIZE];
    assert Feed(c, more).rx[HANDSHAKE_SIZE..] == c.rx[HANDSHAKE_SIZE..] + more;
  }

  lemma MessageRoundFed(c: Conn, more: seq<byte>)
    requires !Deserialize(c.rx).NeedMore?
    ensures MessageRound(c).Continue? ==> MessageRound(Feed(c, more)) == Continue(Feed(MessageRound(c).c, more))
    ensures MessageRound(c).Stop? ==>
              && MessageRound(c) == Stop(c.(state := Broken))
              && MessageRound(Feed(c, more)) == Stop(Feed(c, more).(state := Broken))
  {
    DeserializeIsStable(c.rx, more);
    ActFed(c, Deserialize(c.rx), more);
  }

  /** A round that goes on does the same when more bytes are already there. */
  lemma RoundFed(c: Conn, more: seq<byte>)
    requires RoundOf(c).Continue?
    ensures RoundOf(Feed(c, more)) == Continue(Feed(RoundOf(c).c, more))
  {
    if c.state.Handshaking? {
      HandshakeRoundFed(c, more);
    } else {
      MessageRoundFed(c, more);
    }
  }

  /** A round that leaves the loop: running again with more bytes is running once with all of them. */
  lemma StopFed(c: Conn, more: seq<byte>)
    requires RoundOf(c).Stop?
    ensures ProcessOf(Feed(RoundOf(c).c, more)) == ProcessOf(Feed(c, more))
  {
    if c.rx != [] && c.state.Handshaking? && |c.rx| >= HANDSHAKE_SIZE {
      HandshakeRoundFed(c, more);
    } else if c.rx != [] && c.state.Active? && !Deserialize(c.rx).NeedMore? {
      MessageRoundFed(c, more);
    }
  }

  /** Processing early and again after more bytes is processing once at the end, in every state. */
  lemma {:induction false} ProcessThenFeed(c: Conn, more: seq<byte>)
    ensures ProcessOf(Feed(ProcessOf(c), more)) == ProcessOf(Feed(c, more))
    decreases |c.rx|
  {
    hide RoundOf;
    if RoundOf(c).Stop? {
      StopFed(c, more);
    } else {
      RoundFed(c, more);
      ProcessThenFeed(RoundOf(c).c, more);
    }
  }

  /** Any chunking of the received bytes leads to the same state, leftover and callbacks as one read. */
  lemma {:induction false} ChunkingInvariant(c: Conn, chunks: seq<seq<byte>>)
    requires ProcessOf(c) == c
    ensures FeedAll(c, chunks) == ProcessOf(Feed(c, Joined(chunks)))
    decreases |chunks|
  {
    hide RoundOf, ProcessOf;
    if chunks == [] {
      assert Feed(c, []) == c;
    } else {
      var first := ProcessOf(Feed(c, chunks[0]));
      ProcessSettles(Feed(c, chunks[0]));
      ChunkingInvariant(first, chunks[1..]);
      TwoChunks(c, chunks[0], Joined(chunks[1..]));
    }
  }

  lemma TwoChunks(c: Conn, a: seq<byte>, b: seq<byte>)
    ensures ProcessOf(Feed(ProcessOf(Feed(c, a)), b)) == ProcessOf(Feed(c, a + b))
  {
    hide RoundOf, ProcessOf;
    ProcessThenFeed(Feed(c, a), b);
    assert Feed(Feed(c, a), b) == Feed(c, a + b);
  }

  /** The loop stops only where running it again would change nothing. */
  lemma ProcessSettles(c: Conn)
    ensures ProcessOf(ProcessOf(c)) == ProcessOf(c)
  {
    hide RoundOf, ProcessOf;
    ProcessThenFeed(c, []);
    assert Feed(ProcessOf(c), []) == ProcessOf(c);
    assert Feed(c, []) == c;
  }

  /* ---- the receiving end of a well-formed stream ---- */

  predicate AllSendable(msgs: seq<Message>) {
    forall k | 0 <= k < |msgs| :: Sendable(msgs[k])
  }

  function Stream(msgs: seq<Message>): seq<byte>
    requires AllSendable(msgs)
  {
    Joined(Frames(msgs))
  }

  function Frames(msgs: seq<Message>): (frames: seq<seq<byte>>)
    requires AllSendable(msgs)
    ensures |frames| == |msgs| && forall k | 0 <= k < |msgs| :: frames[k] == Frame(msgs[k])
  {
    if msgs == [] then [] else Frames(msgs[..|msgs| - 1]) + [Frame(msgs[|msgs| - 1])]
  }

  lemma StreamEmpty()
    ensures Stream([]) == []
  {
  }

  lemma StreamHead(msgs: seq<Message>)
    requires AllSendable(msgs) && msgs != []
    ensures Stream(msgs) == Frame(msgs[0]) + Stream(msgs[1..])
  {
    assert Frames(msgs)[1..] == Frames(msgs[1..]);
  }

  /** How many of the messages lie wholly within the first `n` bytes of their stream. */
  function Arrived(msgs: seq<Message>, n: nat): (k: nat)
    requires AllSendable(msgs)
    ensures k <= |msgs|
  {
    if msgs == [] || n < |Frame(msgs[0])| then 0 else 1 + Arrived(msgs[1..], n - |Frame(msgs[0])|)
  }

  lemma ArrivedUnfolds(msgs: seq<Message>, n: nat)
    requires AllSendable(msgs)
    ensures Arrived(msgs, n) == if msgs == [] || n < |Frame(msgs[0])| then 0 else 1 + Arrived(msgs[1..], n - |Frame(msgs[0])|)
  {
  }

  /** `Arrived` is the longest prefix of messages whose frames have fully arrived. */
  lemma {:induction false} ArrivedIsLongest(msgs: seq<Message>, n: nat)
    requires AllSendable(msgs)
    ensures |Stream(msgs[..Arrived(msgs, n)])| <= n
    ensures Arrived(msgs, n) < |msgs| ==> |Stream(msgs[..Arrived(msgs, n) + 1])| > n
  {
    hide Frame, Stream;
    var k := Arrived(msgs, n);
    StreamEmpty();
    if k > 0 {
      ArrivedIsLongest(msgs[1..], n - |Frame(msgs[0])|);
      assert msgs[..k][1..] == msgs[1..][..k - 1];
      StreamHead(msgs[..k]);
      if k < |msgs| {
        assert msgs[..k + 1][1..] == msgs[1..][..k];
        StreamHead(msgs[..k + 1]);
      }
    } else if msgs != [] {
      StreamHead(msgs[..1]);
    }
  }

  function Received(msgs: seq<Message>): (events: seq<Event>)
    ensures |events| == |msgs|
  {
    if msgs == [] then [] else [GotMessage(msgs[0])] + Received(msgs[1..])
  }

  lemma FullFrameRound(c: Conn, m: Message)
    requires Sendable(m) && c.state.Active? && Frame(m) <= c.rx
    ensures RoundOf(c) == Continue(Deliver(c.(rx := c.rx[|Frame(m)|..]), Some(m)))
    ensures RoundOf(c).c.log == c.log + [GotMessage(m)]
    ensures RoundOf(c).c.state.Active? && RoundOf(c).c.rx == c.rx[|Frame(m)|..]
  {
    assert c.rx == Frame(m) + c.rx[|Frame(m)|..];
    FrameRoundTrip(m, c.rx[|Frame(m)|..]);
  }

  lemma EmptyRound(c: Conn)
    requires c.rx == []
    ensures RoundOf(c) == Stop(c)
  {
  }

  lemma PartFrameRound(c: Conn, m: Message)
    requires Sendable(m) && c.state.Active? && |c.rx| < |Frame(m)| && c.rx <= Frame(m)
    ensures RoundOf(c) == Stop(c)
  {
    PartialFrame(m, c.rx);
  }

  /** From an active connection: exactly the messages that have fully arrived are delivered. */
  lemma {:induction false} ActiveDelivers(c: Conn, msgs: seq<Message>)
    requires AllSendable(msgs) && c.state.Active? && c.rx <= Stream(msgs)
    ensures ProcessOf(c).state.Active?
    ensures ProcessOf(c).log == c.log + Received(msgs[..Arrived(msgs, |c.rx|)])
    decreases |msgs|
  {
    hide RoundOf, Frame, Deliver, Stream, Arrived;
    ArrivedUnfolds(msgs, |c.rx|);
    if msgs == [] {
      StreamEmpty();
      EmptyRound(c);
      assert c.log + [] == c.log;
      return;
    }
    StreamHead(msgs);
    if |c.rx| < |Frame(msgs[0])| {
      PartFrameRound(c, msgs[0]);
      assert c.log + [] == c.log;
    } else {
      var m, size := msgs[0], |Frame(msgs[0])|;
      assert c.rx[..size] == Frame(m) && c.rx[size..] <= Stream(msgs[1..]);
      FullFrameRound(c, m);
      ActiveDelivers(RoundOf(c).c, msgs[1..]);
      ReceivedSplit(msgs, Arrived(msgs, |c.rx|));
    }
  }

  lemma ReceivedSplit(msgs: seq<Message>, k: nat)
    requires 0 < k <= |msgs|
    ensures Received(msgs[..k]) == [GotMessage(msgs[0])] + Received(msgs[1..][..k - 1])
  {
    assert msgs[..k][1..] == msgs[1..][..k - 1];
  }

  /* ---- the sending end ---- */

  /** A step of the sending side: a message, or the socket becoming writable, which a closed one no longer does. */
  datatype SendStep = SendMessage(m: Message, script: seq<SendResult>) | Writable(script: seq<SendResult>)

  predicate StepsSendable(steps: seq<SendStep>) {
    forall k | 0 <= k < |steps| :: steps[k].SendMessage? ==> Sendable(steps[k].m)
  }

  function AfterSteps(c: Conn, steps: seq<SendStep>): Conn
    requires StepsSendable(steps)
  {
    if steps == [] then c
    else
      var front := AfterSteps(c, steps[..|steps| - 1]);
      match steps[|steps| - 1]
      case SendMessage(m, script) => SendOf(front, m, script)
      case Writable(script) => if front.state.Disconnected? then front else WriteOf(front, script)
  }

  function MessagesOf(steps: seq<SendStep>): (msgs: seq<Message>)
    requires StepsSendable(steps)
    ensures AllSendable(msgs)
  {
    if steps == [] then []
    else
      var last := steps[|steps| - 1];
      MessagesOf(steps[..|steps| - 1]) + if last.SendMessage? then [last.m] else []
  }

  lemma {:induction false} JoinedAppend(chunks: seq<seq<byte>>, x: seq<byte>)
    ensures Joined(chunks + [x]) == Joined(chunks) + x
  {
    if chunks == [] {
      assert [x][1..] == [];
    } else {
      JoinedAppend(chunks[1..], x);
      assert (chunks + [x])[1..] == chunks[1..] + [x];
    }
  }

  lemma StreamAppend(msgs: seq<Message>, m: Message)
    requires AllSendable(msgs) && Sendable(m)
    ensures Stream(msgs + [m]) == Stream(msgs) + Frame(m)
  {
    assert (msgs + [m])[..|msgs|] == msgs;
    JoinedAppend(Frames(msgs), Frame(m));
  }

  /** Until a send fails, what the kernel took and what is still queued make up everything written. */
  ghost predicate Conserves(c: Conn, all: seq<byte>) {
    if c.state.Disconnected? then c.tx == [] && c.wire <= all
    else (c.state.Handshaking? || c.state.Active?) && c.wire + c.tx == all
  }

  lemma WriteConserves(c: Conn, script: seq<SendResult>, all: seq<byte>)
    requires Conserves(c, all)
    ensures Conserves(WriteOf(c, script), all)
  {
    var sent := Drain(|c.tx|, script).0;
    assert c.tx == c.tx[..sent] + c.tx[sent..];
    assert c.wire + c.tx[..sent] + c.tx[sent..] == c.wire + c.tx;
  }

  lemma QueueConserves(c: Conn, bytes: seq<byte>, script: seq<SendResult>, all: seq<byte>)
    requires !c.state.Disconnected? && Conserves(c, all)
    ensures Conserves(QueueOf(c, bytes, script), all + bytes)
  {
    var queued := c.(tx := c.tx + bytes);
    assert queued.wire + queued.tx == all + bytes;
    WriteConserves(queued, script, all + bytes);
  }

  lemma SendConserves(c: Conn, m: Message, script: seq<SendResult>, all: seq<byte>)
    requires Sendable(m) && Conserves(c, all)
    ensures Conserves(SendOf(c, m, script), all + Frame(m))
  {
    if !c.state.Disconnected? {
      QueueConserves(NoteSent(c, m), Frame(m), script, all);
    }
  }

  /** For every schedule of partial sends: bytes taken plus bytes queued are what was there and the frames. */
  lemma {:induction false} SenderConserves(c: Conn, first: seq<byte>, steps: seq<SendStep>)
    requires StepsSendable(steps) && Conserves(c, first)
    ensures Conserves(AfterSteps(c, steps), first + Stream(MessagesOf(steps)))
  {
    hide Conserves;
    if steps == [] {
      assert first + [] == first;
    } else {
      var n := |steps| - 1;
      SenderConserves(c, first, steps[..n]);
      StepConserves(AfterSteps(c, steps[..n]), steps[n], first, MessagesOf(steps[..n]));
    }
  }

  /** Messages sent one after the other, none of which the kernel is offered. */
  function QueueAll(c: Conn, msgs: seq<Message>): Conn
    requires AllSendable(msgs)
  {
    if msgs == [] then c else SendOf(QueueAll(c, msgs[..|msgs| - 1]), msgs[|msgs| - 1], [])
  }

  lemma OneQueued(c: Conn, m: Message)
    requires Sendable(m) && (c.state.Idle? || c.state.Connecting?)
    ensures var d := SendOf(c, m, []); d.state == c.state && d.wire == c.wire && d.tx == c.tx + Frame(m) && d.log == c.log
  {
    hide Frame, WriteOf;
  }

  lemma Regroup(a: seq<byte>, b: seq<byte>, d: seq<byte>)
    ensures (a + b) + d == a + (b + d)
  {
  }

  /** Before the socket is established, sends only queue. */
  lemma {:induction false} EarlyQueued(c: Conn, early: seq<Message>)
    requires AllSendable(early) && (c.state.Idle? || c.state.Connecting?)
    ensures var d := QueueAll(c, early);
            d.state == c.state && d.wire == c.wire && d.tx == c.tx + Stream(early) && d.log == c.log
  {
    hide Frame, Stream, SendOf;
    if early == [] {
      StreamEmpty();
    } else {
      var n := |early| - 1;
      EarlyQueued(c, early[..n]);
      OneQueued(QueueAll(c, early[..n]), early[n]);
      assert early == early[..n] + [early[n]];
      StreamAppend(early[..n], early[n]);
      Regroup(c.tx, Stream(early[..n]), Frame(early[n]));
    }
  }

  /** How a connect goes: at once, later by writability, refused, or failed later. Messages may come in while it is pending. */
  datatype Dial =
    | AtOnce(script: seq<SendResult>)
    | Later(waiting: seq<Message>, script: seq<SendResult>, again: seq<SendResult>)
    | Refused
    | FailsLater(waiting: seq<Message>)
  {
    predicate Succeeds() {
      AtOnce? || Later?
    }

    /** The messages handed over while the connect was pending. */
    function Pending(): seq<Message> {
      if Later? || FailsLater? then waiting else []
    }
  }

  /** A new connection, the messages sent early, and the connect with its outcome. */
  function Dialled(early: seq<Message>, h: Handshake, dial: Dial): Conn
    requires AllSendable(early) && AllSendable(dial.Pending()) && h.Sized()
  {
    var queued := QueueAll(FRESH, early);
    match dial
    case AtOnce(script) => ConnectOf(queued, h, Connected, script)
    case Refused => ConnectOf(queued, h, Error, [])
    case Later(waiting, script, again) =>
      WritableOf(QueueAll(ConnectOf(queued, h, InProgress, []), waiting), h, false, script, again)
    case FailsLater(waiting) =>
      WritableOf(QueueAll(ConnectOf(queued, h, InProgress, []), waiting), h, true, [], [])
  }

  /** A sender's life: early messages, the connect, and what follows. */
  function SenderRun(early: seq<Message>, h: Handshake, dial: Dial, steps: seq<SendStep>): Conn
    requires AllSendable(early) && AllSendable(dial.Pending()) && h.Sized() && StepsSendable(steps)
  {
    AfterSteps(Dialled(early, h, dial), steps)
  }

  /** Everything a sender writes: the frames of the messages sent ahead, the handshake, later frames, in this order. */
  function Written(ahead: seq<Message>, h: Handshake, steps: seq<SendStep>): seq<byte>
    requires AllSendable(ahead) && h.Sized() && StepsSendable(steps)
  {
    Stream(ahead) + EncodeHandshake(h) + Stream(MessagesOf(steps))
  }

  lemma EstablishConserves(c: Conn, h: Handshake, script: seq<SendResult>)
    requires h.Sized() && (c.state.Idle? || c.state.Connecting?) && c.wire == []
    ensures Conserves(EstablishOf(c, h, script), c.tx + EncodeHandshake(h))
  {
    hide WriteOf, EncodeHandshake;
    WriteConserves(c.(state := Handshaking, tx := c.tx + EncodeHandshake(h)), script, c.tx + EncodeHandshake(h));
  }

  lemma {:induction false} StreamJoin(a: seq<Message>, b: seq<Message>)
    requires AllSendable(a) && AllSendable(b)
    ensures Stream(a + b) == Stream(a) + Stream(b)
    decreases |b|
  {
    hide Frame, Stream;
    if b == [] {
      StreamEmpty();
      assert a + b == a;
    } else {
      var n := |b| - 1;
      StreamJoin(a, b[..n]);
      assert a + b == (a + b[..n]) + [b[n]];
      assert b == b[..n] + [b[n]];
      StreamAppend(a + b[..n], b[n]);
      StreamAppend(b[..n], b[n]);
      Regroup(Stream(a), Stream(b[..n]), Frame(b[n]));
    }
  }

  /** A pending connect, with everything sent so far queued. */
  lemma PendingQueued(early: seq<Message>, h: Handshake, waiting: seq<Message>)
    requires AllSendable(early) && AllSendable(waiting) && h.Sized()
    ensures var c := QueueAll(ConnectOf(QueueAll(FRESH, early), h, InProgress, []), waiting);
            c.state.Connecting? && c.wire == [] && c.tx == Stream(early + waiting) && c.log == []
  {
    hide Stream, QueueAll;
    EarlyQueued(FRESH, early);
    var d := ConnectOf(QueueAll(FRESH, early), h, InProgress, []);
    EarlyQueued(d, waiting);
    StreamJoin(early, waiting);
    assert [] + Stream(early) == Stream(early);
  }

  /** A connect that succeeds leaves exactly the frames sent ahead and the handshake, on the wire or queued. */
  lemma DialConserves(early: seq<Message>, h: Handshake, dial: Dial)
    requires AllSendable(early) && AllSendable(dial.Pending()) && h.Sized() && dial.Succeeds()
    ensures Conserves(Dialled(early, h, dial), Stream(early + dial.Pending()) + EncodeHandshake(h))
  {
    hide Stream, EncodeHandshake, WriteOf, EstablishOf, Conserves, QueueAll;
    match dial
    case AtOnce(script) =>
      EarlyQueued(FRESH, early);
      assert [] + Stream(early) == Stream(early) && early + [] == early;
      EstablishConserves(QueueAll(FRESH, early), h, script);
    case Later(waiting, script, again) =>
      PendingQueued(early, h, waiting);
      var c := QueueAll(ConnectOf(QueueAll(FRESH, early), h, InProgress, []), waiting);
      EstablishConserves(c, h, script);
      WriteConserves(EstablishOf(c, h, script), again, Stream(early + waiting) + EncodeHandshake(h));
  }

  /** A connect that fails, at once or later, puts nothing on the wire and reports the end exactly once. */
  lemma DialFails(early: seq<Message>, h: Handshake, dial: Dial)
    requires AllSendable(early) && AllSendable(dial.Pending()) && h.Sized() && !dial.Succeeds()
    ensures var c := Dialled(early, h, dial); c.state.Disconnected? && c.wire == [] && c.log == [Closed]
  {
    hide Stream, QueueAll;
    match dial
    case Refused => EarlyQueued(FRESH, early);
    case FailsLater(waiting) => PendingQueued(early, h, waiting);
  }

  /** After a disconnect neither messages nor the socket change anything. */
  lemma {:induction false} GoneStays(c: Conn, steps: seq<SendStep>)
    requires c.state.Disconnected? && StepsSendable(steps)
    ensures AfterSteps(c, steps) == c
  {
    if steps != [] {
      GoneStays(c, steps[..|steps| - 1]);
    }
  }

  /** From a new connection on, for every connect and schedule: bytes accepted plus bytes queued are all that was written. */
  lemma WholeSenderConserves(early: seq<Message>, h: Handshake, dial: Dial, steps: seq<SendStep>)
    requires AllSendable(early) && AllSendable(dial.Pending()) && h.Sized() && StepsSendable(steps)
    ensures dial.Succeeds() ==> Conserves(SenderRun(early, h, dial, steps), Written(early + dial.Pending(), h, steps))
    ensures !dial.Succeeds() ==> SenderRun(early, h, dial, steps).wire == []
  {
    hide Stream, EncodeHandshake, Dialled, Conserves;
    if dial.Succeeds() {
      DialConserves(early, h, dial);
      SenderConserves(Dialled(early, h, dial), Stream(early + dial.Pending()) + EncodeHandshake(h), steps);
    } else {
      DialFails(early, h, dial);
      GoneStays(Dialled(early, h, dial), steps);
    }
  }

  lemma StepConserves(front: Conn, step: SendStep, first: seq<byte>, msgs: seq<Message>)
    requires AllSendable(msgs) && Conserves(front, first + Stream(msgs))
    requires step.SendMessage? ==> Sendable(step.m)
    ensures step.SendMessage? ==> Conserves(SendOf(front, step.m, step.script), first + Stream(msgs + [step.m]))
    ensures step.Writable? ==> Conserves(WriteOf(front, step.script), first + Stream(msgs + []))
    ensures step.Writable? ==> Conserves(front, first + Stream(msgs + []))
  {
    hide Frame, SendOf, WriteOf, Conserves, Stream;
    if step.SendMessage? {
      SendConserves(front, step.m, step.script, first + Stream(msgs));
      StreamAppend(msgs, step.m);
      assert first + Stream(msgs) + Frame(step.m) == first + Stream(msgs + [step.m]);
    } else {
      WriteConserves(front, step.script, first + Stream(msgs));
      assert msgs + [] == msgs;
    }
  }

  /* ---- end to end ---- */

  /** What a receiver has been told after `n` bytes of the stream. */
  function Delivered(h: Handshake, msgs: seq<Message>, n: nat): seq<Event>
    requires AllSendable(msgs)
  {
    if n < HANDSHAKE_SIZE then [] else [GotHandshake(h)] + Received(msgs[..Arrived(msgs, n - HANDSHAKE_SIZE)])
  }

  lemma HandshakeRoundDelivers(c: Conn, h: Handshake)
    requires h.Sized() && c.state.Handshaking? && EncodeHandshake(h) <= c.rx
    ensures RoundOf(c) == Continue(c.(rx := c.rx[HANDSHAKE_SIZE..], state := Active, log := c.log + [GotHandshake(h)]))
  {
    assert c.rx[..HANDSHAKE_SIZE] == EncodeHandshake(h) + [];
    HandshakeRoundTrip(h, []);
  }

  lemma ShortHandshakeRound(c: Conn)
    requires c.state.Handshaking? && |c.rx| < HANDSHAKE_SIZE
    ensures RoundOf(c) == Stop(c)
  {
  }

  lemma HandshakingDelivers(c: Conn, h: Handshake, msgs: seq<Message>)
    requires h.Sized() && AllSendable(msgs) && c.state.Handshaking?
    requires c.rx <= EncodeHandshake(h) + Stream(msgs)
    ensures ProcessOf(c).log == c.log + Delivered(h, msgs, |c.rx|)
    ensures ProcessOf(c).state == if |c.rx| < HANDSHAKE_SIZE then Handshaking else Active
  {
    hide RoundOf, EncodeHandshake, Stream, Arrived, Received, Frame, AllSendable;
    if |c.rx| >= HANDSHAKE_SIZE {
      assert EncodeHandshake(h) == c.rx[..HANDSHAKE_SIZE];
      HandshakeRoundDelivers(c, h);
      ActiveDelivers(RoundOf(c).c, msgs);
    } else {
      ShortHandshakeRound(c);
      assert c.log + [] == c.log;
    }
  }

  lemma BodyStarts(m: Message)
    ensures Body(m) != [] ==> 0 <= Body(m)[0] <= 9
  {
  }

  /** A stream that starts with a frame does not start with a handshake, whatever the frame. */
  lemma FrameIsNoHandshake(m: Message, rest: seq<byte>, rx: seq<byte>)
    requires Sendable(m) && rx <= Frame(m) + rest
    ensures DecodeHandshake(rx) == None
  {
    hide Body;
    BodyStarts(m);
    if |rx| >= HANDSHAKE_SIZE {
      assert rx[0] == Frame(m)[0];
      if Body(m) == [] {
        assert rx[0] == 0;
      } else {
        assert rx[4] == (Frame(m) + rest)[4] == Body(m)[0];
        assert rx[1..20][3] == rx[4] && PROTOCOL[3] == 0x54;
      }
    }
  }

  lemma NotHandshakeRound(c: Conn, m: Message, rest: seq<byte>)
    requires Sendable(m) && c.state.Handshaking? && c.rx <= Frame(m) + rest && |c.rx| >= HANDSHAKE_SIZE
    ensures ProcessOf(c) == DisconnectOf(c)
  {
    hide Frame, DecodeHandshake;
    FrameIsNoHandshake(m, rest, c.rx[..HANDSHAKE_SIZE]);
  }

  lemma NothingEarly(early: seq<Message>, h: Handshake, steps: seq<SendStep>)
    requires early == [] && h.Sized() && StepsSendable(steps)
    ensures Written(early, h, steps) == EncodeHandshake(h) + Stream(MessagesOf(steps))
  {
    hide EncodeHandshake, Stream;
    StreamEmpty();
    assert [] + EncodeHandshake(h) == EncodeHandshake(h);
  }

  lemma SomethingEarly(early: seq<Message>, h: Handshake, steps: seq<SendStep>)
    requires early != [] && AllSendable(early) && h.Sized() && StepsSendable(steps)
    ensures Written(early, h, steps) == Frame(early[0]) + (Stream(early[1..]) + EncodeHandshake(h) + Stream(MessagesOf(steps)))
  {
    hide EncodeHandshake, Stream, Frame, MessagesOf;
    StreamHead(early);
    var a, b, d, e := Frame(early[0]), Stream(early[1..]), EncodeHandshake(h), Stream(MessagesOf(steps));
    assert (a + b) + d + e == a + (b + d + e);
  }

  /** What a handshaking receiver makes of a prefix of what a sender wrote. */
  lemma Hears(c: Conn, early: seq<Message>, h: Handshake, steps: seq<SendStep>)
    requires AllSendable(early) && h.Sized() && StepsSendable(steps)
    requires c.state.Handshaking? && c.rx <= Written(early, h, steps)
    ensures
      var r, n := ProcessOf(c), |c.rx|;
      if n < HANDSHAKE_SIZE then r.log == c.log && r.state == Handshaking
      else if early == [] then r.log == c.log + Delivered(h, MessagesOf(steps), n) && r.state == Active
      else r.log == c.log + [Closed] && r.state == Disconnected
  {
    hide EncodeHandshake, Stream, Frame, ProcessOf, Written, Delivered, MessagesOf;
    if |c.rx| < HANDSHAKE_SIZE {
      ShortSettles(c);
    } else if early == [] {
      NothingEarly(early, h, steps);
      HandshakingDelivers(c, h, MessagesOf(steps));
    } else {
      SomethingEarly(early, h, steps);
      NotHandshakeRound(c, early[0], Stream(early[1..]) + EncodeHandshake(h) + Stream(MessagesOf(steps)));
    }
  }

  /**
   Whatever the connect's outcome, the schedule of partial sends on one side and the chunking of reads on
   the other: the receiver delivers the handshake and exactly the messages whose frames have fully
   arrived, if and only if the sender was given no message before its socket was established. Otherwise
   the receiver hangs up as soon as it has the bytes of a handshake, and delivers nothing.
   */
  lemma EndToEnd(early: seq<Message>, h: Handshake, dial: Dial, steps: seq<SendStep>, receiver: Conn, chunks: seq<seq<byte>>)
    requires AllSendable(early) && AllSendable(dial.Pending()) && h.Sized() && StepsSendable(steps)
    requires receiver.state.Handshaking? && receiver.rx == []
    requires Joined(chunks) <= SenderRun(early, h, dial, steps).wire
    ensures
      var r, n := FeedAll(receiver, chunks), |Joined(chunks)|;
      if n < HANDSHAKE_SIZE then r.log == receiver.log && r.state == Handshaking
      else if early + dial.Pending() == [] then
        r.log == receiver.log + Delivered(h, MessagesOf(steps), n) && r.state == Active
      else r.log == receiver.log + [Closed] && r.state == Disconnected
  {
    hide ProcessOf, SenderRun, Delivered, Written, MessagesOf, FeedAll;
    WholeSenderConserves(early, h, dial, steps);
    var fed := Feed(receiver, Joined(chunks));
    assert fed.rx == Joined(chunks);
    HandshakingSettled(receiver);
    ChunkingInvariant(receiver, chunks);
    if dial.Succeeds() {
      Hears(fed, early + dial.Pending(), h, steps);
    } else {
      ShortSettles(fed);
    }
  }

  lemma ShortSettles(c: Conn)
    requires c.state.Handshaking? && |c.rx| < HANDSHAKE_SIZE
    ensures ProcessOf(c) == c
  {
    ShortHandshakeRound(c);
  }

  lemma HandshakingSettled(c: Conn)
    requires c.state.Handshaking? && c.rx == []
    ensures ProcessOf(c) == c
  {
  }

  /* ---- the class ---- */

  class PeerConnection {
    const handshake: Handshake
    var state: ConnectionState
    var amChoking: bool
    var amInterested: bool
    var peerChoking: bool
    var peerInterested: bool
    var rx: seq<byte>
    var tx: seq<byte>
    var wire: seq<byte>
    var log: seq<Event>

    function View(): Conn
      reads this
    {
      Conn(state, amChoking, amInterested, peerChoking, peerInterested, rx, tx, wire, log)
    }

    constructor (infoHash: seq<byte>, peerId: seq<byte>)
      requires |infoHash| == 20 && |peerId| == 20
      ensures handshake == Handshake(seq(8, _ => 0), infoHash, peerId)
      ensures View() == FRESH
    {
      handshake := Handshake(seq(8, _ => 0), infoHash, peerId);
      state := Idle;
      amChoking, amInterested, peerChoking, peerInterested := true, false, true, false;
      rx, tx, wire, log := [], [], [], [];
    }

    /** A connection over an established socket: the handshake is sent at once. */
    constructor WithSocket(infoHash: seq<byte>, peerId: seq<byte>, script: seq<SendResult>)
      requires |infoHash| == 20 && |peerId| == 20
      ensures handshake == Handshake(seq(8, _ => 0), infoHash, peerId)
      ensures View() == EstablishOf(FRESH, handshake, script)
    {
      handshake := Handshake(seq(8, _ => 0), infoHash, peerId);
      state := Handshaking;
      amChoking, amInterested, peerChoking, peerInterested := true, false, true, false;
      rx, tx, wire, log := [], [], [], [];
      new;
      SendHandshake(script);
    }

    method Connect(status: ConnectStatus, script: seq<SendResult>)
      requires handshake.Sized()
      modifies this
      ensures View() == ConnectOf(old(View()), handshake, status, script)
    {
      hide WriteOf;
      if state != Idle {
        return;
      }
      state := Connecting;
      if status == Error {
        state := Disconnected;
        log := log + [Closed];
        return;
      }
      if status == Connected {
        state := Handshaking;
        SendHandshake(script);
      }
    }

    /** `handle_events` on a writable socket without error events. */
    method HandleWritable(failed: bool, script: seq<SendResult>, again: seq<SendResult>)
      requires handshake.Sized()
      modifies this
      ensures View() == WritableOf(old(View()), handshake, failed, script, again)
    {
      hide WriteOf;
      if state == Connecting {
        if failed {
          Disconnect();
          return;
        }
        state := Handshaking;
        SendHandshake(script);
      }
      HandleWrite(again);
    }

    method Disconnect()
      modifies this
      ensures View() == DisconnectOf(old(View()))
    {
      if state == Disconnected {
        return;
      }
      state := Disconnected;
      rx := [];
      tx := [];
      log := log + [Closed];
    }

    method SendHandshake(script: seq<SendResult>)
      requires handshake.Sized()
      modifies this
      ensures View() == WriteOf(old(View()).(tx := old(tx) + EncodeHandshake(handshake)), script)
    {
      tx := tx + EncodeHandshake(handshake);
      HandleWrite(script);
    }

    method SendMessage(m: Message, script: seq<SendResult>)
      requires Sendable(m)
      modifies this
      ensures View() == SendOf(old(View()), m, script)
    {
      hide QueueOf, Frame;
      if state == Disconnected {
        return;
      }
      TrackSent(m);
      var bytes := Serialize(m);
      Queue(bytes[..], script);
    }

    /** The visitor that mirrors our own choke and interest messages. */
    method TrackSent(m: Message)
      modifies this
      ensures View() == NoteSent(old(View()), m)
    {
      if m.Choke? {
        amChoking := true;
      } else if m.Unchoke? {
        amChoking := false;
      } else if m.Interested? {
        amInterested := true;
      } else if m.NotInterested? {
        amInterested := false;
      }
    }

    method Queue(bytes: seq<byte>, script: seq<SendResult>)
      modifies this
      ensures View() == QueueOf(old(View()), bytes, script)
    {
      tx := tx + bytes;
      if state == Handshaking || state == Active {
        HandleWrite(script);
      }
    }

    method HandleWrite(script: seq<SendResult>)
      modifies this
      ensures View() == WriteOf(old(View()), script)
    {
      if tx == [] {
        return;
      }
      var totalSent := 0;
      var error := false;
      var call := 0;
      while totalSent < |tx| && call < |script|
        invariant totalSent <= |tx| && call <= |script|
        invariant Drain(|tx|, script) == (totalSent + Drain(|tx| - totalSent, script[call..]).0,
                                          Drain(|tx| - totalSent, script[call..]).1)
        invariant !error
        decreases |script| - call
      {
        var sent := script[call];
        call := call + 1;
        assert script[call - 1..][1..] == script[call..];
        match sent
        case Took(n) => totalSent := totalSent + Min(n, |tx| - totalSent);
        case WouldBlock => break;
        case Interrupted =>
        case Failed =>
          error := true;
          break;
      }
      if totalSent > 0 {
        wire := wire + tx[..totalSent];
        tx := tx[totalSent..];
      }
      if error {
        Disconnect();
      }
    }

    /** Everything received since the last event, then one pass over the buffer. */
    method HandleRead(received: seq<seq<byte>>, closed: bool)
      modifies this
      ensures View() == if closed then DisconnectOf(Feed(old(View()), Joined(received)))
                        else ProcessOf(Feed(old(View()), Joined(received)))
    {
      for k := 0 to |received|
        invariant View() == Feed(old(View()), Joined(received[..k]))
      {
        JoinedAppend(received[..k], received[k]);
        assert received[..k + 1] == received[..k] + [received[k]];
        rx := rx + received[k];
      }
      assert received[..|received|] == received;
      if closed {
        Disconnect();
        return;
      }
      ProcessRxBuffer();
    }

    method ProcessRxBuffer()
      modifies this
      ensures View() == ProcessOf(old(View()))
    {
      while rx != [] && state != Broken
        invariant ProcessOf(View()) == ProcessOf(old(View()))
        decreases |rx|
      {
        if state == Handshaking {
          if |rx| < HANDSHAKE_SIZE {
            break;
          }
          var h := DecodeHandshake(rx[..HANDSHAKE_SIZE]);
          if h.None? {
            Disconnect();
            return;
          }
          rx := rx[HANDSHAKE_SIZE..];
          state := Active;
          log := log + [GotHandshake(h.value)];
        } else if state == Active {
          var d := Deserialize(rx);
          match d
          case NeedMore => break;
          case Wraps =>
            state := Broken;
            return;
          case Consumed(msg, size) =>
            rx := rx[size..];
            if msg.Some? {
              ReceiveMessage(msg.value);
            }
        } else {
          rx := [];
          break;
        }
      }
    }

    /** Flags first, then the message callback. */
    method ReceiveMessage(m: Message)
      modifies this
      ensures View() == Deliver(old(View()), Some(m))
    {
      if m.Choke? {
        peerChoking := true;
      } else if m.Unchoke? {
        peerChoking := false;
      } else if m.Interested? {
        peerInterested := true;
      } else if m.NotInterested? {
        peerInterested := false;
      }
      log := log + [GotMessage(m)];
    }
  }
}
