/**
 Peer wire messages (peer_message.cpp; sections "peer protocol" and "peer messages" of BEP 3):
 the handshake, and length-prefixed frames with big-endian integers.
 */
module Wire {
  import opened Bytes

  datatype Handshake = Handshake(reserved: seq<byte>, infoHash: seq<byte>, peerId: seq<byte>) {
    /** The sizes of the three `std::array`s. */
    predicate Sized() {
      |reserved| == 8 && |infoHash| == 20 && |peerId| == 20
    }
  }

  datatype Message =
    | KeepAlive
    | Choke
    | Unchoke
    | Interested
    | NotInterested
    | Have(pieceIndex: uint32)
    | BitfieldMsg(bits: seq<byte>)
    | Request(index: uint32, begin: uint32, length: uint32)
    | Piece(index: uint32, begin: uint32, block: seq<byte>)
    | Cancel(index: uint32, begin: uint32, length: uint32)
    | Port(port: uint16)

  /* ---- big-endian integers ---- */

  function Be32(v: uint32): (b: seq<byte>)
    ensures |b| == 4
  {
    [v / 0x1000000, v / 0x10000 % 0x100, v / 0x100 % 0x100, v % 0x100]
  }

  function Read32(b: seq<byte>): uint32
    requires |b| >= 4
  {
    var b0: int, b1: int, b2: int, b3: int := b[0], b[1], b[2], b[3];
    0x1000000 * b0 + 0x10000 * b1 + 0x100 * b2 + b3
  }

  function Be16(v: uint16): (b: seq<byte>)
    ensures |b| == 2
  {
    [v / 0x100, v % 0x100]
  }

  function Read16(b: seq<byte>): uint16
    requires |b| >= 2
  {
    var b0: int, b1: int := b[0], b[1];
    0x100 * b0 + b1
  }

  lemma ReadBe32(v: uint32)
    ensures Read32(Be32(v)) == v
  {
    var a, b, c := v / 0x100, v / 0x10000, v / 0x1000000;
    assert v == 0x100 * a + v % 0x100;
    assert a / 0x100 == b && a == 0x100 * b + a % 0x100;
    assert b / 0x100 == c && b == 0x100 * c + b % 0x100;
  }

  /** Most significant byte first. */
  lemma BigEndian(v: uint32, p: uint16)
    ensures var b := Be32(v); v as int == 0x1000000 * (b[0] as int) + 0x10000 * (b[1] as int) + 0x100 * (b[2] as int) + b[3] as int
    ensures var b := Be16(p); p as int == 0x100 * (b[0] as int) + b[1] as int
  {
    ReadBe32(v);
    ReadBe16(p);
  }

  lemma ReadBe16(v: uint16)
    ensures Read16(Be16(v)) == v
  {
  }

  /* ---- the handshake ---- */

  /** `BitTorrent protocol` */
  const PROTOCOL: seq<byte> :=
    [0x42, 0x69, 0x74, 0x54, 0x6F, 0x72, 0x72, 0x65, 0x6E, 0x74, 0x20, 0x70, 0x72, 0x6F, 0x74, 0x6F, 0x63, 0x6F, 0x6C]

  const HANDSHAKE_SIZE := 68

  function EncodeHandshake(h: Handshake): (b: seq<byte>)
    requires h.Sized()
    ensures |b| == HANDSHAKE_SIZE
  {
    [19] + PROTOCOL + h.reserved + h.infoHash + h.peerId
  }

  function DecodeHandshake(data: seq<byte>): (r: Option<Handshake>)
    ensures r.Some? ==> r.value.Sized()
  {
    if |data| < HANDSHAKE_SIZE then None
    else if data[0] != 19 then None
    else if data[1..20] != PROTOCOL then None
    else Some(Handshake(data[20..28], data[28..48], data[48..68]))
  }

  /** A handshake is recognised exactly when the data starts with its encoding. */
  lemma HandshakeRoundTrip(h: Handshake, rest: seq<byte>)
    requires h.Sized()
    ensures DecodeHandshake(EncodeHandshake(h) + rest) == Some(h)
  {
    var data := EncodeHandshake(h) + rest;
    assert data[1..20] == PROTOCOL;
    assert data[20..28] == h.reserved;
    assert data[28..48] == h.infoHash;
    assert data[48..68] == h.peerId;
  }

  lemma HandshakeOnlyFromEncoding(data: seq<byte>)
    requires DecodeHandshake(data).Some?
    ensures data[..HANDSHAKE_SIZE] == EncodeHandshake(DecodeHandshake(data).value)
  {
    var h := DecodeHandshake(data).value;
    assert data[..68] == data[..1] + data[1..20] + data[20..28] + data[28..48] + data[48..68];
  }

  /** The layout of a handshake, byte by byte. */
  lemma HandshakeBytes(h: Handshake)
    requires h.Sized()
    ensures var b := EncodeHandshake(h);
            && b[0] == 19 && b[1..20] == Ascii("BitTorrent protocol")
            && b[20..28] == h.reserved && b[28..48] == h.infoHash && b[48..] == h.peerId
  {
    assert PROTOCOL == Ascii("BitTorrent protocol") by {
      ProtocolText();
    }
    var b := EncodeHandshake(h);
    assert b[1..20] == PROTOCOL;
    assert b[20..28] == h.reserved;
    assert b[28..48] == h.infoHash;
    assert b[48..] == h.peerId;
  }

  lemma ProtocolText()
    ensures PROTOCOL == Ascii("BitTorrent protocol")
  {
    var t := "BitTorrent protocol";
    assert |PROTOCOL| == |t| == 19;
    forall k | 0 <= k < 19 ensures PROTOCOL[k] == t[k] as int {
      if k < 10 {
        assert t[..10] == "BitTorrent";
      } else {
        assert t[10..] == " protocol";
      }
    }
  }

  /* ---- frames ---- */

  /** The id byte and payload of a message; a keep-alive has neither. */
  function Body(m: Message): seq<byte> {
    match m
    case KeepAlive => []
    case Choke => [0]
    case Unchoke => [1]
    case Interested => [2]
    case NotInterested => [3]
    case Have(i) => [4] + Be32(i)
    case BitfieldMsg(bits) => [5] + bits
    case Request(i, b, n) => [6] + Be32(i) + Be32(b) + Be32(n)
    case Piece(i, b, block) => [7] + Be32(i) + Be32(b) + block
    case Cancel(i, b, n) => [8] + Be32(i) + Be32(b) + Be32(n)
    case Port(p) => [9] + Be16(p)
  }

  /** The frame length keeps `4 + length` inside uint32. */
  predicate Framable(length: int) {
    0 <= length < 0x1_0000_0000 - 4
  }

  predicate Sendable(m: Message) {
    Framable(|Body(m)|)
  }

  function Frame(m: Message): (b: seq<byte>)
    requires Sendable(m)
    ensures |b| == 4 + |Body(m)|
  {
    Be32(|Body(m)|) + Body(m)
  }

  /** Decoding one complete body: the switch over the id byte. `None` is a frame to be skipped. */
  function DecodeBody(body: seq<byte>): Option<Message> {
    if body == [] then Some(KeepAlive)
    else if body[0] == 0 then (if |body| != 1 then None else Some(Choke))
    else if body[0] == 1 then (if |body| != 1 then None else Some(Unchoke))
    else if body[0] == 2 then (if |body| != 1 then None else Some(Interested))
    else if body[0] == 3 then (if |body| != 1 then None else Some(NotInterested))
    else if body[0] == 4 then (if |body| != 5 then None else Some(Have(Read32(body[1..]))))
    else if body[0] == 5 then Some(BitfieldMsg(body[1..]))
    else if body[0] == 6 then
      (if |body| != 13 then None else Some(Request(Read32(body[1..]), Read32(body[5..]), Read32(body[9..]))))
    else if body[0] == 7 then
      (if |body| < 9 then None else Some(Piece(Read32(body[1..]), Read32(body[5..]), body[9..])))
    else if body[0] == 8 then
      (if |body| != 13 then None else Some(Cancel(Read32(body[1..]), Read32(body[5..]), Read32(body[9..]))))
    else if body[0] == 9 then (if |body| != 3 then None else Some(Port(Read16(body[1..]))))
    else None
  }

  /**
   The result of `deserialize`. `NeedMore` is `nullopt` with nothing consumed; `Consumed` carries the
   message, or none for a malformed or unknown frame, and the size of the frame. `Wraps` marks a length
   for which the source's uint32 sum `4 + length` wraps around, where its behaviour is undefined.
   */
  datatype Decoded = NeedMore | Consumed(msg: Option<Message>, size: nat) | Wraps

  function Deserialize(data: seq<byte>): (d: Decoded)
    ensures d.Consumed? ==> 4 <= d.size <= |data|
  {
    if |data| < 4 then NeedMore
    else
      var length := Read32(data);
      if length == 0 then Consumed(Some(KeepAlive), 4)
      else if !Framable(length) then Wraps
      else if |data| < 4 + length then NeedMore
      else Consumed(DecodeBody(data[4..4 + length]), 4 + length)
  }

  /** The messages without payload, byte by byte. */
  lemma ShortFrames()
    ensures Frame(KeepAlive) == [0, 0, 0, 0]
    ensures Frame(Choke) == [0, 0, 0, 1, 0] && Frame(Unchoke) == [0, 0, 0, 1, 1]
    ensures Frame(Interested) == [0, 0, 0, 1, 2] && Frame(NotInterested) == [0, 0, 0, 1, 3]
  {
    SmallNumbers();
    hide Be32;
  }

  /** The messages with integers: length, id, and the fields in order, each most significant byte first. */
  lemma FieldFrames(i: uint32, b: uint32, n: uint32, p: uint16)
    ensures Frame(Have(i)) == [0, 0, 0, 5, 4] + Be32(i)
    ensures Frame(Request(i, b, n)) == [0, 0, 0, 13, 6] + Be32(i) + Be32(b) + Be32(n)
    ensures Frame(Cancel(i, b, n)) == [0, 0, 0, 13, 8] + Be32(i) + Be32(b) + Be32(n)
    ensures Frame(Port(p)) == [0, 0, 0, 3, 9] + Be16(p)
  {
    SmallNumbers();
    hide Be32, Be16;
    HeadedFrame(Have(i), 5, 4, Be32(i));
    HeadedFrame(Request(i, b, n), 13, 6, Be32(i) + Be32(b) + Be32(n));
    HeadedFrame(Cancel(i, b, n), 13, 8, Be32(i) + Be32(b) + Be32(n));
    HeadedFrame(Port(p), 3, 9, Be16(p));
    ThreeParts([0, 0, 0, 13, 6], Be32(i), Be32(b), Be32(n));
    ThreeParts([0, 0, 0, 13, 8], Be32(i), Be32(b), Be32(n));
    ThreeParts([6], Be32(i), Be32(b), Be32(n));
    ThreeParts([8], Be32(i), Be32(b), Be32(n));
  }

  lemma ThreeParts(head: seq<byte>, a: seq<byte>, b: seq<byte>, c: seq<byte>)
    ensures head + a + b + c == head + (a + b + c)
  {
  }

  lemma HeadedFrame(m: Message, length: uint32, id: byte, payload: seq<byte>)
    requires Sendable(m) && length < 0x100 && Be32(length) == [0, 0, 0, length as byte]
    ensures Body(m) == [id] + payload && 1 + |payload| == length ==> Frame(m) == [0, 0, 0, length as byte, id] + payload
  {
    hide Be32, Body, Sendable;
  }

  /** The two messages of varying length. */
  lemma LongFrames(i: uint32, b: uint32, bits: seq<byte>, block: seq<byte>)
    requires Sendable(BitfieldMsg(bits)) && Sendable(Piece(i, b, block))
    ensures Framable(1 + |bits|) && Framable(9 + |block|)
    ensures Frame(BitfieldMsg(bits)) == Be32(1 + |bits|) + [5] + bits
    ensures Frame(Piece(i, b, block)) == Be32(9 + |block|) + [7] + Be32(i) + Be32(b) + block
  {
    hide Be32;
    PieceFrame(i, b, block);
    var body := Body(BitfieldMsg(bits));
    assert Be32(|body|) + body == Be32(|body|) + [5] + bits;
  }

  lemma SmallNumbers()
    ensures Be32(0) == [0, 0, 0, 0] && Be32(1) == [0, 0, 0, 1] && Be32(3) == [0, 0, 0, 3]
    ensures Be32(5) == [0, 0, 0, 5] && Be32(13) == [0, 0, 0, 13]
  {
  }

  lemma ReadPrefix32(v: uint32, rest: seq<byte>)
    ensures Read32(Be32(v) + rest) == v
  {
    ReadBe32(v);
  }

  lemma BodyRoundTrip(m: Message)
    ensures DecodeBody(Body(m)) == Some(m)
  {
    var body := Body(m);
    match m
    case Have(i) =>
      assert body[1..] == Be32(i);
      ReadBe32(i);
    case BitfieldMsg(bits) =>
      assert body[1..] == bits;
    case Request(i, b, n) =>
      assert body[1..] == Be32(i) + (Be32(b) + Be32(n)) && body[5..] == Be32(b) + Be32(n) && body[9..] == Be32(n) + [];
      ReadPrefix32(i, Be32(b) + Be32(n));
      ReadPrefix32(b, Be32(n));
      ReadPrefix32(n, []);
    case Piece(i, b, block) =>
      assert body[1..] == Be32(i) + (Be32(b) + block) && body[5..] == Be32(b) + block && body[9..] == block;
      ReadPrefix32(i, Be32(b) + block);
      ReadPrefix32(b, block);
    case Cancel(i, b, n) =>
      assert body[1..] == Be32(i) + (Be32(b) + Be32(n)) && body[5..] == Be32(b) + Be32(n) && body[9..] == Be32(n) + [];
      ReadPrefix32(i, Be32(b) + Be32(n));
      ReadPrefix32(b, Be32(n));
      ReadPrefix32(n, []);
    case Port(p) =>
      assert body[1..] == Be16(p);
      ReadBe16(p);
    case _ =>
  }

  lemma Be32Read(b: seq<byte>)
    requires |b| >= 4
    ensures Be32(Read32(b)) == b[..4]
  {
    var b0: int, b1: int, b2: int, b3: int := b[0], b[1], b[2], b[3];
    var v := Read32(b);
    assert v / 0x1000000 == b0;
    assert v / 0x10000 == 0x100 * b0 + b1;
    assert v / 0x100 == 0x10000 * b0 + 0x100 * b1 + b2;
  }

  /** A body decodes to a message exactly when it is that message's body; every other frame is skipped. */
  lemma DecodesIff(body: seq<byte>, m: Message)
    ensures DecodeBody(body) == Some(m) <==> body == Body(m)
  {
    if body == Body(m) {
      BodyRoundTrip(m);
    }
    if DecodeBody(body) == Some(m) {
      DecodedIsBody(body, m);
    }
  }

  lemma DecodedIsBody(body: seq<byte>, m: Message)
    requires DecodeBody(body) == Some(m)
    ensures body == Body(m)
  {
    hide Be32, Read32;
    match m
    case Have(i) => Be32Read(body[1..]);
    case Request(i, b, n) => ThreeFieldsRead(body);
    case Cancel(i, b, n) => ThreeFieldsRead(body);
    case Piece(i, b, block) =>
      Be32Read(body[1..]);
      Be32Read(body[5..]);
      assert body == body[..1] + body[1..][..4] + body[5..][..4] + body[9..];
    case Port(p) => assert body == [9] + Be16(p);
    case _ =>
  }

  lemma ThreeFieldsRead(body: seq<byte>)
    requires |body| == 13
    ensures body == [body[0]] + Be32(Read32(body[1..])) + Be32(Read32(body[5..])) + Be32(Read32(body[9..]))
  {
    hide Be32, Read32;
    Be32Read(body[1..]);
    Be32Read(body[5..]);
    Be32Read(body[9..]);
    assert body == [body[0]] + body[1..][..4] + body[5..][..4] + body[9..][..4];
  }

  /** Decoding a frame with anything behind it gives the message back and consumes exactly the frame. */
  lemma FrameRoundTrip(m: Message, rest: seq<byte>)
    requires Sendable(m)
    ensures Deserialize(Frame(m) + rest) == Consumed(Some(m), |Frame(m)|)
  {
    var n := |Body(m)|;
    var data := Frame(m) + rest;
    assert data == Be32(n) + (Body(m) + rest);
    ReadPrefix32(n, Body(m) + rest);
    assert data[4..4 + n] == Body(m);
    BodyRoundTrip(m);
  }

  /** A proper prefix of a frame decodes to nothing and consumes nothing. */
  lemma PartialFrame(m: Message, part: seq<byte>)
    requires Sendable(m) && |part| < |Frame(m)| && part == Frame(m)[..|part|]
    ensures Deserialize(part) == NeedMore
  {
    if |part| >= 4 {
      var n := |Body(m)|;
      assert part == Be32(n) + part[4..];
      ReadPrefix32(n, part[4..]);
    }
  }

  /** What `deserialize` decides on a buffer, it decides the same when more bytes follow. */
  lemma DeserializeIsStable(data: seq<byte>, more: seq<byte>)
    requires !Deserialize(data).NeedMore?
    ensures Deserialize(data + more) == Deserialize(data)
  {
    var length := Read32(data);
    assert Read32(data + more) == length;
    if Framable(length) && length != 0 {
      assert (data + more)[4..4 + length] == data[4..4 + length];
    }
  }

  /* ---- serialize, by position ---- */

  method WriteUint32(out: array<byte>, at: nat, v: uint32)
    requires at + 4 <= out.Length
    modifies out
    ensures out[..] == old(out[..at]) + Be32(v) + old(out[at + 4..])
  {
    out[at], out[at + 1], out[at + 2], out[at + 3] :=
      v / 0x1000000, v / 0x10000 % 0x100, v / 0x100 % 0x100, v % 0x100;
  }

  method CopyBytes(out: array<byte>, at: nat, src: seq<byte>)
    requires at + |src| <= out.Length
    modifies out
    ensures out[..] == old(out[..at]) + src + old(out[at + |src|..])
  {
    forall k | 0 <= k < |src| {
      out[at + k] := src[k];
    }
    assert forall x | at <= x < at + |src| :: out[x] == out[at + (x - at)];
  }

  /** Allocates the frame and writes its length and id byte. */
  method NewFrame(length: uint32, id: byte) returns (out: array<byte>)
    requires 0 < length && Framable(length)
    ensures fresh(out) && out.Length == 4 + length
    ensures out[..5] == Be32(length) + [id]
  {
    out := new byte[4 + length](_ => 0);
    WriteUint32(out, 0, length);
    out[4] := id;
  }

  /** Fills in three 32-bit fields after the id byte. */
  method ThreeFields(id: byte, a: uint32, b: uint32, c: uint32) returns (out: array<byte>)
    ensures fresh(out) && out[..] == Be32(13) + [id] + Be32(a) + Be32(b) + Be32(c)
  {
    hide Be32;
    out := NewFrame(13, id);
    WriteUint32(out, 5, a);
    WriteUint32(out, 9, b);
    WriteUint32(out, 13, c);
  }

  method SerializeHave(i: uint32) returns (out: array<byte>)
    ensures fresh(out) && out[..] == Frame(Have(i))
  {
    out := NewFrame(5, 4);
    WriteUint32(out, 5, i);
  }

  method SerializeBitfield(bits: seq<byte>) returns (out: array<byte>)
    requires Sendable(BitfieldMsg(bits))
    ensures fresh(out) && out[..] == Frame(BitfieldMsg(bits))
  {
    out := NewFrame(1 + |bits|, 5);
    CopyBytes(out, 5, bits);
  }

  /** The header of a piece message, with room for `size` bytes after it. */
  method PieceHeader(i: uint32, b: uint32, size: nat) returns (out: array<byte>)
    requires Framable(9 + size)
    ensures fresh(out) && out.Length == 13 + size
    ensures out[..13] == Be32(9 + size) + [7] + Be32(i) + Be32(b)
  {
    hide Be32;
    out := NewFrame(9 + size, 7);
    ghost var head := out[..5];
    WriteUint32(out, 5, i);
    assert out[..9] == head + Be32(i);
    WriteUint32(out, 9, b);
    assert out[..13] == head + Be32(i) + Be32(b);
  }

  lemma PieceFrame(i: uint32, b: uint32, block: seq<byte>)
    requires Sendable(Piece(i, b, block))
    ensures Framable(9 + |block|)
    ensures Frame(Piece(i, b, block)) == (Be32(9 + |block|) + [7] + Be32(i) + Be32(b)) + block
  {
    hide Be32;
    var body := Body(Piece(i, b, block));
    assert body == [7] + Be32(i) + Be32(b) + block;
    assert Be32(|body|) + body == (Be32(|body|) + [7] + Be32(i) + Be32(b)) + block;
  }

  method SerializePiece(i: uint32, b: uint32, block: seq<byte>) returns (out: array<byte>)
    requires Sendable(Piece(i, b, block))
    ensures fresh(out) && out[..] == Frame(Piece(i, b, block))
  {
    PieceFrame(i, b, block);
    hide Be32, Frame, Body, Sendable;
    out := PieceHeader(i, b, |block|);
    ghost var head := out[..13];
    CopyBytes(out, 13, block);
    assert out[..] == head + block;
  }

  method SerializePort(p: uint16) returns (out: array<byte>)
    ensures fresh(out) && out[..] == Frame(Port(p))
  {
    out := NewFrame(3, 9);
    out[5], out[6] := p / 0x100, p % 0x100;
  }

  method Serialize(m: Message) returns (out: array<byte>)
    requires Sendable(m)
    ensures fresh(out) && out[..] == Frame(m)
  {
    match m
    case KeepAlive =>
      out := new byte[4](_ => 0);
    case Choke => out := NewFrame(1, 0);
    case Unchoke => out := NewFrame(1, 1);
    case Interested => out := NewFrame(1, 2);
    case NotInterested => out := NewFrame(1, 3);
    case Have(i) => out := SerializeHave(i);
    case BitfieldMsg(bits) => out := SerializeBitfield(bits);
    case Request(i, b, n) => out := ThreeFields(6, i, b, n);
    case Piece(i, b, block) => out := SerializePiece(i, b, block);
    case Cancel(i, b, n) => out := ThreeFields(8, i, b, n);
    case Port(p) => out := SerializePort(p);
  }
}
