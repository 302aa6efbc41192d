# A verified model of the download engine

Dafny 4.11 model of the BitTorrent client in `code/`: the metainfo reader, the peer wire, piece
storage, and the engine that turns messages from many peers into files. `dafny verify dfyconfig.toml`
checks all of it.

| file | models |
|---|---|
| `Bytes.dfy` | machine integers, bytes, `std::optional`, digests |
| `Bitfields.dfy` | `bitfield.cpp`: packed bits, and the set of indices they stand for |
| `Geometry.dfy` | pieces of the content, 16 KiB blocks of a piece, downloaded bytes |
| `Bencode.dfy` | `bencode.cpp`: parser and printer |
| `Metainfo.dfy`, `Acceptance.dfy` | `torrent.cpp`: `from_bencode`; where every field comes from and which files are accepted |
| `Wire.dfy` | `peer_message.cpp`: handshake and frames |
| `Connection.dfy`, `Sockets.dfy` | `peer_connection.cpp`: buffers, framing loop, connection flags; what each schedule of socket answers does |
| `Disk.dfy` | `disk_io.cpp` over a set of byte files |
| `Pieces.dfy` | `piece_manager.cpp` |
| `Picker.dfy` | `piece_picker.cpp` |
| `Swarm.dfy` | `download_coordinator.cpp` as a step system over all components |
| `Ledger.dfy`, `Receipts.dfy`, `Pipeline.dfy` | what each operation does to block states, to received data, and to one peer's requests |
| `Orderly.dfy` | in which order a fill asks for blocks and where it draws |
| `Reach.dfy`, `Steps.dfy` | the engine's laws, and that every step keeps them |
| `Runs.dfy`, `Messages.dfy` | what holds after every run; what the peers are told and what their records say |
| `Handlers.dfy` | message by message, the engine before and after: open blocks, the sender's record, everybody else's |
| `Exclusivity.dfy`, `Failures.dfy` | when every block is assigned to one peer at most, and a run in which one is not |
| `Honest.dfy`, `Completion.dfy`, `Seeding.dfy` | honest swarms; when a piece can still be completed; how requests alone finish a download |
| `Coordinator.dfy`, `Session.dfy` | the coordinator and the main program as objects updated in place, proved to do what the step system says |
| `Network.dfy` | connections and engine together, from bytes to engine events |

## How the engine is modelled

A run is any sequence of three kinds of event: a peer registered, a peer unregistered, a message
delivered from a peer. `Swarm.Step` is what the source's handlers do to the whole state: pieces held,
block tables and buffers, availability histogram, outstanding requests and active piece of every peer,
files, and the logs of both callbacks. Theorems about runs quantify over every starting content of the
files, every event sequence with any bytes in its messages, every hash function and every random
stream. Messages to peers are appended to the peer's `sent` list. `Coordinator` and `Session` do the
same with loops, packed bitfields, several files and updates in place; their contracts equate their
state with the step system's, so the run theorems are theorems about them.

Three conditions bound the runs. The metadata is `Geometry.Sound` (`Metainfo.SoundIffChecks` says which
accepted torrents are). A peer is registered at most once while registered, and fewer than 2^32 are.
A piece message names a piece of the torrent (`Pieces.OutOfRangeCompletes` shows what an index past the
end does; the source then reads past the end of the hash list).

Things the proofs brought out, all stated in the table below:

- A delivered block is marked received before its length is looked at. One first delivery that runs past
  the end of its piece leaves a block received but never counted, and the piece can never complete
  again. This is the only obstacle: from any reachable state a piece can still be completed exactly when
  no delivery has overrun it (`Completion.CompletableIff`).
- Exclusive assignment (no block outstanding twice, none outstanding pending) fails after one unsolicited
  bad block: dropping the piece forgets its table while another peer still owes a block of it, and the
  refill ending the same handler asks the sender for that block
  (`Failures.UnsolicitedFailureDoubles`). The exact condition is `Exclusivity.StepKeepsExclusiveIff`: a
  step ends exclusive ownership exactly when a piece fails validation while a request for it, other than
  the one its last block answers, is outstanding. There an outstanding block that no table tracks counts
  as a breach already; `Exclusivity.TrackedIffSafe` says why: one harmless message is all it takes to
  make it Pending or doubled.
- A message sent before the socket is established goes out ahead of the handshake, and the other end
  hangs up (`Connection.EndToEnd`).
- `from_bencode` checks the piece count only, so a negative piece length can pass
  (`Metainfo.NegativePieceLengthAccepted`).
- The header of the picker speaks of pieces we have when it describes bootstrapping; the coordinator
  passes pieces held or with no block left to request, and that is what is counted and modelled.
- `encode_value` prints INT64_MIN, which no parse accepts (`Bencode.MinimumUnparseable`).

## Model

| member | source | states |
|---|---|---|
| Bitfields.Bitfield.constructor | code/src/bitfield.cpp:4-6 | a new bitfield holds no index, padding clean |
| Bitfields.Bitfield.FromBytes | code/src/bitfield.cpp:8-20 | wire bytes of any length become exactly the set of announced indices below the size, padding cleared |
| Bitfields.Bitfield.Has | code/src/bitfield.cpp:22-29 | the bit test is membership, and false past the end |
| Bitfields.Bitfield.Set | code/src/bitfield.cpp:31-42 | setting and clearing a bit add and remove that index only; past the end nothing changes |
| Bitfields.Bitfield.Count | code/src/bitfield.cpp:44-54 | the bit count over all bytes is the cardinality of the set |
| Bitfields.Bitfield.Intersect | code/src/bitfield.cpp:56-64 | bytewise and is set intersection, also for different sizes |
| Bitfields.EqualBytesIffEqualMembers | code/include/bitfield.hpp:30-32 | equal buffers iff equal sets |
| Bitfields.AnnouncedBit | code/src/bitfield.cpp:8-29 | in the wire form index i is the bit of weight 2^(7 - i mod 8) of byte i div 8, and is announced iff that bit is there, set, and below the size |
| Bitfields.HighestBitFirst | code/src/bitfield.cpp:22-29 | the byte 0x80 announces piece 0 alone, the byte 0x01 piece 7 alone |
| Geometry.PiecesPartition | code/src/piece_manager.cpp:129-139 | no piece is empty, no cast loses bits, each piece starts where the one before ends and the last ends with the content |
| Geometry.WholePieces | code/src/piece_manager.cpp:129-139 | the first piece starts the content and every piece but the last has the piece length |
| Geometry.PieceAt | code/src/piece_manager.cpp:129-139 | every offset of the content lies in some piece |
| Geometry.PiecesDisjoint | code/src/disk_io.cpp:45-59 | ranges of different pieces do not overlap |
| Geometry.BlocksPartition | code/src/piece_manager.cpp:27-38 | blocks are non-empty, follow each other and end with the piece |
| Geometry.BlockAt | code/src/piece_manager.cpp:27-38 | every offset of a piece lies in some block |
| Geometry.DownloadedBounded | code/src/main.cpp:39-51 | downloaded bytes never exceed the total and reach it iff every piece is held, so bytes left never wrap |
| Geometry.DownloadedCounts | code/src/main.cpp:39-51 | downloaded bytes are the number of content offsets that lie in held pieces |
| Disk.ConcatOverwrite | code/src/disk_io.cpp:48-80 | overwriting each file by its overlap is one overwrite of the concatenation of all files |
| Disk.ReadAfterWrite | code/src/disk_io.cpp:40-130 | reading the written range back gives the data |
| Disk.WriteKeepsOtherPieces | code/src/disk_io.cpp:40-81 | a piece write stores that piece and leaves every other piece's bytes |
| Disk.WritesCommute | code/src/disk_io.cpp:40-81 | writes of different pieces commute |
| Disk.EqualByPieces | code/src/disk_io.cpp:83-130 | contents that agree piece by piece are equal |
| Disk.DiskIOManager.WritePiece | code/src/disk_io.cpp:40-81 | out of range is refused and changes nothing; otherwise the whole content is overwritten once at the piece's start, over any number of files, empty ones too |
| Disk.DiskIOManager.ReadPiece | code/src/disk_io.cpp:83-130 | refused iff out of range; otherwise exactly the piece's slice of the content |
| Disk.DiskIOManager.VerifyPiece | code/src/disk_io.cpp:132-143 | true iff in range and the stored slice has the metadata's hash |
| Bencode.ScanDigits | code/src/bencode.cpp:49-76 | the overflow guard is exact: the digit run is accepted iff its value is within the limit |
| Bencode.ParseInt | code/src/bencode.cpp:33-85 | accepts exactly the canonical encodings of -(2^63-1) to 2^63-1, and consumes them |
| Bencode.ParseString | code/src/bencode.cpp:87-124 | accepts exactly canonical length prefixes that fit size_t with that many bytes following |
| Bencode.ParseList | code/src/bencode.cpp:126-143 | accepts exactly the encodings of lists of parseable values |
| Bencode.ParseDict | code/src/bencode.cpp:145-180 | accepts exactly the encodings of strictly ascending dictionaries |
| Bencode.ParseValue | code/src/bencode.cpp:14-31 | succeeds iff the encoding of a parseable tree is a prefix of the input; returns that tree and leaves exactly the rest |
| Bencode.Parse | code/src/bencode.cpp:5-12 | canonical in both directions: Ok v iff the input is the encoding of the parseable tree v |
| Bencode.EncodeValue | code/src/bencode.cpp:188-221 | appends exactly the encoding, for every tree |
| Bencode.PrefixFree | code/src/bencode.cpp:182-221 | no encoding is a prefix of another; encoding is injective |
| Bencode.MinimumUnparseable | code/src/bencode.cpp:70-73 | no accepted text starts with the encoding of INT64_MIN |
| Bencode.EncodedText | code/src/bencode.cpp:188-221 | a list and a dictionary covering every kind of value, as literal text |
| Bencode.LessIsBytewise | code/src/bencode.cpp:155-165 | the order of keys is by the first differing byte, a proper prefix first |
| Metainfo.FromBencode | code/src/torrent.cpp:7-215 | agrees on every input with the generic parser: if that reads a dictionary D, the result is what D's keys say with the hash taken over encode(D["info"]); every other input is rejected |
| Acceptance.AcceptedFields | code/src/torrent.cpp:26-214 | every field of accepted metadata from the dictionaries' entries: digest i is bytes 20i to 20i+20 of `pieces`, file k has the k-th dictionary's length and its path segments joined by slashes at the running offset, trackers are the tiers' non-empty strings in order or else the announce URL, and the info hash is over the info value's encoding |
| Acceptance.AcceptedIff | code/src/torrent.cpp:80-191 | accepted iff: non-empty announce string, info dictionary with integer piece length, name, digests in twenties, a file table in either format whose offsets fit int64, and as many digests as the division in int64 gives |
| Acceptance.UndefinedIff | code/src/torrent.cpp:137-191 | the arithmetic is undefined iff the required entries are there and a running offset or the piece count leaves int64 or the piece length is zero; everything else is accepted or thrown at |
| Acceptance.TruncDivIs | code/src/torrent.cpp:188 | the division truncates: quotient times divisor leaves a remainder smaller than the divisor with the dividend's sign |
| Acceptance.ToInt32Is | code/src/torrent.cpp:210 | the cast of the piece count is the value of the 32-bit range congruent to it |
| Metainfo.LookupFinds | code/src/torrent.cpp:26-35 | in an ascending dictionary each key is found with its own value |
| Metainfo.SoundIffChecks | code/src/torrent.cpp:187-191 | accepted metadata is sound iff the piece length is in range, there are fewer than 2^31 hashes and no file length is negative |
| Metainfo.NegativePieceLengthAccepted | code/src/torrent.cpp:187-191 | a concrete torrent with piece length -1 that passes the only check made |
| Wire.HandshakeRoundTrip | code/src/peer_message.cpp:55-80 | a handshake decodes from its encoding followed by anything |
| Wire.HandshakeOnlyFromEncoding | code/src/peer_message.cpp:65-80 | whatever decodes starts with that encoding |
| Wire.HandshakeBytes | code/src/peer_message.cpp:55-63 | a handshake's bytes by position: 19, the protocol text, eight reserved bytes, info hash, peer id |
| Wire.FrameRoundTrip | code/src/peer_message.cpp:102-261 | decoding a frame followed by anything gives the message and consumes exactly the frame |
| Wire.ShortFrames | code/src/peer_message.cpp:105-126 | the literal bytes of keep-alive, choke, unchoke, interested and not interested |
| Wire.FieldFrames | code/src/peer_message.cpp:127-171 | length, id and big-endian fields of have, request, cancel and port |
| Wire.LongFrames | code/src/peer_message.cpp:133-156 | length, id and payload of bitfield and piece |
| Wire.BigEndian | code/src/peer_message.cpp:7-27 | integers on the wire have their high byte first |
| Wire.DecodesIff | code/src/peer_message.cpp:197-258 | a frame body decodes to a message iff it is that message's body; nothing else means anything |
| Wire.PartialFrame | code/src/peer_message.cpp:177-195 | a proper prefix of a frame asks for more and consumes nothing |
| Wire.DeserializeIsStable | code/src/peer_message.cpp:177-261 | once a decision is made, more bytes behind it do not change it |
| Wire.Serialize | code/src/peer_message.cpp:102-175 | filling the buffer by position yields the frame of the message |
| Connection.ProcessThenFeed | code/src/peer_connection.cpp:280-350 | processing early and again after more bytes equals processing once, in every state, bad handshakes and unknown frames included |
| Connection.ChunkingInvariant | code/src/peer_connection.cpp:181-219 | every chunking of the received bytes leads to the same state, leftover and deliveries |
| Connection.ArrivedIsLongest | code/src/peer_message.cpp:177-195 | the messages counted as arrived are the longest prefix whose frames fit in the bytes received |
| Connection.ActiveDelivers | code/src/peer_connection.cpp:302-345 | an active connection delivers exactly the messages whose frames have arrived |
| Sockets.ActiveSkipsJunk | code/src/peer_connection.cpp:325-345 | an active connection that gets any frames, unknown ids and wrong lengths included, delivers exactly the meaningful ones in order and stays active |
| Connection.WholeSenderConserves | code/src/peer_connection.cpp:26-133 | from a fresh connection through a connect that succeeds at once or later, for every schedule of partial sends, bytes accepted plus bytes queued are the frames sent ahead, the handshake and the later frames, in order |
| Connection.DialFails | code/src/peer_connection.cpp:26-169 | a connect that fails, at once or later, ends disconnected with nothing on the wire and one report |
| Sockets.DialSucceeds | code/src/peer_connection.cpp:26-169 | one that succeeds with no failed send ends handshaking, nothing reported, with the messages handed over meanwhile and the handshake accepted or queued |
| Sockets.WriteIs | code/src/peer_connection.cpp:221-261 | a drain, from the socket's answers alone: the amounts taken before the first would-block or failure, as far as there are bytes; a failure reached with bytes unsent disconnects |
| Sockets.SendIs | code/src/peer_connection.cpp:95-120 | a message is queued behind what is there, and drained at once only in a handshaking or active connection, as far as the socket takes it |
| Sockets.WriteDisconnectsIff | code/src/peer_connection.cpp:239-258 | a connection is lost in a drain iff a send fails with bytes unsent and nothing would have blocked before |
| Sockets.UnfailingRun | code/src/peer_connection.cpp:95-261 | with no failed send in any schedule the sender never leaves its state and reports nothing |
| Sockets.EverythingSent | code/src/peer_connection.cpp:95-261 | once the socket takes what is queued, all that was ever written is on the wire and nothing is queued |
| Sockets.NothingFollows | code/src/peer_connection.cpp:74-120 | after a disconnect sends, connects and received bytes change nothing and report nothing |
| Sockets.DisconnectEnds | code/src/peer_connection.cpp:74-93 | a disconnect drops both buffers and reports once, however often it is asked for |
| Sockets.EarlyBytesDropped | code/src/peer_connection.cpp:345-348 | bytes that arrive before the handshake is due are dropped and reported to nobody |
| Sockets.ConnectOnlyWhenIdle | code/src/peer_connection.cpp:26-30 | a connect on a connection that is not idle changes nothing |
| Sockets.FreshFlags | code/include/peer_connection.hpp:111-117 | a fresh connection chokes and is choked, nobody is interested, nothing is buffered |
| Sockets.SentFlags | code/src/peer_connection.cpp:101-113 | over a whole run our choke and interest flags are what the last message of each pair said |
| Sockets.ReceivedFlags | code/src/peer_connection.cpp:325-345 | the peer's flags are what the last delivered message of each pair said |
| Connection.FrameIsNoHandshake | code/src/peer_message.cpp:65-80 | a stream starting with any frame does not start with a handshake |
| Connection.EndToEnd | code/src/peer_connection.cpp:26-350 | from the connect and its outcome, any send schedule against any read chunking: the receiver delivers the handshake and exactly the fully arrived messages iff nothing was handed over before the socket was established; otherwise it hangs up on a handshake's worth of bytes |
| Connection.PeerConnection.Connect | code/src/peer_connection.cpp:26-72 | only an idle connection connects; at once, later or not at all, as the socket reports |
| Connection.PeerConnection.HandleWritable | code/src/peer_connection.cpp:154-179 | a pending connect that succeeded queues the handshake behind what is there, then the buffer is drained |
| Connection.PeerConnection.SendMessage | code/src/peer_connection.cpp:95-120 | does to the connection what the stream theorems assume of a send |
| Connection.PeerConnection.HandleWrite | code/src/peer_connection.cpp:221-261 | the drain loop removes exactly the accepted prefix; a failed send disconnects |
| Connection.PeerConnection.HandleRead | code/src/peer_connection.cpp:181-219 | all received bytes are appended, then processed once, or the connection closed |
| Connection.PeerConnection.ProcessRxBuffer | code/src/peer_connection.cpp:280-350 | the loop over the buffer is the round function the stream theorems are about |
| Connection.PeerConnection.Disconnect | code/src/peer_connection.cpp:74-93 | clears both buffers and reports once |
| Pieces.PieceManager.InitPieceState | code/src/piece_manager.cpp:17-39 | sets up the table of exact consecutive blocks once, and leaves a piece already set up |
| Pieces.PieceManager.GetNextBlock | code/src/piece_manager.cpp:41-57 | the first pending block of a missing piece becomes requested and is returned |
| Pieces.PieceManager.ReceiveBlock | code/src/piece_manager.cpp:59-80 | marks first, then stores and counts only what fits; verdict iff all blocks are counted |
| Pieces.PieceManager.ValidatePiece | code/src/piece_manager.cpp:82-90 | true iff in progress and the buffer has the metadata's hash |
| Pieces.PieceManager.PieceCompleted | code/src/piece_manager.cpp:92-95 | the piece is held and no longer in progress |
| Pieces.PieceManager.PieceFailed | code/src/piece_manager.cpp:97-99 | the piece is forgotten |
| Pieces.PieceManager.HasPendingBlocks | code/src/piece_manager.cpp:113-127 | true iff missing and untouched or with a pending block |
| Pieces.PieceManager.BlockRequestFailed | code/src/piece_manager.cpp:141-152 | a requested block goes back to pending, nothing else changes |
| Pieces.TableBegins | code/src/piece_manager.cpp:29-38 | offsets and lengths of a table are exact and stay inside the piece |
| Pieces.StoreCountsIff | code/src/piece_manager.cpp:71-77 | received and counted blocks stay in step iff the delivery is not a first one overrunning the buffer |
| Pieces.OutOfRangeCompletes | code/src/piece_manager.cpp:64-79 | past the last piece any delivery is reported complete |
| Pieces.GetDownloadedBytes | code/src/main.cpp:39-51 | the loop's sum never exceeds the total and equals it iff every piece is held |
| Picker.PiecePicker.AddPeerBitfield | code/src/piece_picker.cpp:33-39 | every announced piece's cell goes up by one, modulo 2^32 |
| Picker.PiecePicker.RemovePeerBitfield | code/src/piece_picker.cpp:41-52 | every announced piece's cell goes down by one, stopping at zero |
| Picker.PiecePicker.AddAvailability | code/src/piece_picker.cpp:14-19 | one cell goes up; out of range nothing changes |
| Picker.PiecePicker.RemoveAvailability | code/src/piece_picker.cpp:21-31 | one cell goes down, stopping at zero |
| Picker.PiecePicker.PickPiece | code/src/piece_picker.cpp:54-98 | the candidate and minimum loops compute the pick the lemmas are about, drawing once iff a piece is returned |
| Picker.PickIffCandidate | code/src/piece_picker.cpp:54-65 | a piece is picked iff one is on offer, and it is one the peer has and we lack |
| Picker.PickIsRarest | code/src/piece_picker.cpp:75-98 | with four or more excluded no piece on offer is rarer |
| Picker.EveryChoicePossible | code/src/piece_picker.cpp:69-98 | every candidate while bootstrapping, and every rarest one afterwards, is picked by some draw |
| Picker.PickIsDrawn | code/src/piece_picker.cpp:54-98 | numbering the pieces on offer in ascending order (all candidates while bootstrapping, the rarest afterwards), the draw modulo their number is the one picked |
| Swarm.PickedHasBlock | code/src/download_coordinator.cpp:91-109 | a picked piece always has a block to give |
| Swarm.RoundProgresses | code/src/download_coordinator.cpp:89-131 | each round adds a request or drops an exhausted active piece, so filling ends |
| Ledger.NextBlockEffect | code/src/piece_manager.cpp:41-57 | over all blocks by piece and offset, exactly the returned block changes, from pending to requested |
| Ledger.ReceiveEffect | code/src/piece_manager.cpp:59-80 | exactly the delivered block becomes received |
| Ledger.ReleaseEffect | code/src/download_coordinator.cpp:154-156 | exactly the requested blocks on the list go back to pending |
| Ledger.Without1Is | code/src/download_coordinator.cpp:212-218 | exactly the first request for the delivered block leaves the list, if there is one |
| Ledger.PieceSplitsList | code/src/download_coordinator.cpp:264-282 | taking a piece off a list keeps the other requests in order |
| Ledger.PieceSplitsCancels | code/src/download_coordinator.cpp:264-282 | the cancels sent are for the piece's requests, in their order |
| Ledger.PieceSplitsOne | code/src/download_coordinator.cpp:267-273 | a request for the piece goes with a cancel of its three fields, any other stays without one |
| Receipts.ReceiveKeepsCounts | code/src/piece_manager.cpp:59-80 | counted never exceeds received, and completion is reported iff every block is counted |
| Receipts.GenuineStore | code/src/piece_manager.cpp:71-77 | storing a genuine block keeps all received bytes equal to the source and all received blocks counted |
| Receipts.GenuineFull | code/src/piece_manager.cpp:79-90 | a piece fully counted with genuine blocks is the source's piece |
| Pipeline.FillSound | code/src/download_coordinator.cpp:85-131 | a fill keeps the request limits and tables, delivers nothing and announces nothing |
| Pipeline.FillIsWorkConserving | code/src/download_coordinator.cpp:85-131 | a fill ends with five outstanding or no piece the peer has, we lack and has a pending block |
| Pipeline.FillKeepsOwners | code/src/download_coordinator.cpp:108-131 | a fill loses no block and asks for none twice, whatever the other peers hold |
| Orderly.FillInOrder | code/src/download_coordinator.cpp:85-136 | a fill queues and sends exactly the requests it adds, in order: each for the first open block of the active piece as long as that has one, else of the piece drawn, which then is the active one; one draw at each change of piece; exactly those blocks are open no longer; with five outstanding the last piece asked for stays active |
| Orderly.RequestAt | code/src/download_coordinator.cpp:89-131 | request by request: the same piece as the request before, unless it has no open block left by then |
| Orderly.NextIsFirstOpen | code/src/piece_manager.cpp:41-57 | the next block of a piece is its open block of least offset; none is given iff none is open |
| Steps.StepKeeps | code/src/download_coordinator.cpp:10-282 | every step keeps all laws of the engine and tells every peer of exactly the pieces it completes |
| Steps.ConcludeOwners | code/src/download_coordinator.cpp:223-255 | concluding a piece, before the refill, loses no block and keeps assignment exclusive; every outstanding block stays tracked by a table iff the piece validates or nothing is outstanding for it |
| Reach.RefillMendsNothing | code/src/download_coordinator.cpp:256-259 | no refill makes up for a double or stray request |
| Runs.StateLimits | code/src/download_coordinator.cpp:69-159 | in every reachable state: at most five exact requests for missing pieces per peer, none and no active piece while choked, no piece in progress fully counted, counted at most received |
| Runs.NoBlockLost | code/src/download_coordinator.cpp:39-67 | in every reachable state a requested block is on the list of a registered peer |
| Handlers.PieceMessage | code/src/download_coordinator.cpp:207-260 | the delivered block leaves the sender's list and the open blocks; a piece that completes is cancelled at and announced to every peer; one that fails is open again from end to end and changes no other peer's record, piece or file; either way the sender does not keep it active, and the refill is an orderly fill from there |
| Handlers.FailureDrawsAgain | code/src/download_coordinator.cpp:243-259 | in any run: a failed piece leaves all other peers' records alone, and its sender, if it was its active piece, is next asked for a piece drawn from the histogram |
| Handlers.UnchokeMessage | code/src/download_coordinator.cpp:160-164 | an unchoke is an orderly fill of the sender and nothing else |
| Handlers.ChokeMessage | code/src/download_coordinator.cpp:151-159 | a choke opens again exactly what the sender was asked for and still Requested, and empties its list |
| Handlers.BitfieldMessage | code/src/download_coordinator.cpp:165-190 | the announced pieces replace the old ones, Interested is sent once if one of them is missing, and the sender is topped off in order |
| Handlers.HaveMessage | code/src/download_coordinator.cpp:191-206 | the sender's pieces grow, Interested is sent once if we lack the piece, and nobody is asked for anything |
| Handlers.Unregistration | code/src/download_coordinator.cpp:39-67 | what the peer was asked for is open again and nobody else's record changes |
| Exclusivity.StepKeepsExclusiveIff | code/src/download_coordinator.cpp:207-260 | from any state that has it, a whole step with its refill keeps exclusive, tracked ownership iff no piece fails validation in it with another request for that piece outstanding before it; the sender is reported iff a piece fails |
| Exclusivity.ExclusiveIffTidy | code/src/download_coordinator.cpp:207-260 | ownership is exclusive and tracked all along a run iff every failed validation in it met that condition |
| Exclusivity.ExclusiveWithoutFailures | code/src/download_coordinator.cpp:85-131 | with no failed validation so far, no block is outstanding twice, none outstanding is pending, and all are tracked |
| Exclusivity.ExclusiveWhenSolicited | code/src/download_coordinator.cpp:207-282 | when every piece message answered a request at its sender, failures or not, outstanding is exactly requested, once each |
| Exclusivity.TrackedIffSafe | code/src/piece_manager.cpp:59-80 | while assignment is exclusive, every outstanding block is tracked iff no next step short of another failure ends exclusive assignment |
| Failures.UnsolicitedFailureDoubles | code/src/download_coordinator.cpp:207-260 | for every one-block torrent, six events with one unsolicited bad block end with that block on two peers' lists |
| Runs.HeldPiecesVerify | code/src/download_coordinator.cpp:223-255 | against arbitrary peers, every held piece read back from the files has the metadata's hash |
| Runs.HeldPiecesStay | code/src/main.cpp:181-188 | what is held at any point of a run is held with the same bytes at every later point |
| Runs.CompletedOnce | code/src/download_coordinator.cpp:228-233 | the completion callback runs exactly once for each held piece |
| Runs.HavesWhileRegistered | code/src/download_coordinator.cpp:238-242 | a peer is sent exactly one HAVE per piece completed while it is registered, in order |
| Runs.HistogramIsExact | code/src/piece_picker.cpp:33-52 | each cell is the number of registered peers sharing the piece, so the guarded decrement never meets zero |
| Runs.PicksAreRarest | code/include/piece_picker.hpp:33-41 | a pick exists iff something useful is on offer; past bootstrapping it has the fewest sharers, at least one |
| Runs.PipelineIsFull | code/src/download_coordinator.cpp:160-190 | after an unchoke, bitfield or piece the peer chokes us, has five outstanding, or offers nothing useful |
| Messages.PeersAreTold | code/src/download_coordinator.cpp:119-204 | in every reachable state each outstanding request is the last word sent about its block, and a peer with a piece we lack was sent Interested, unless it was registered with the flag already up |
| Messages.CompletionCancels | code/src/download_coordinator.cpp:264-282 | when a piece completes, the last word to every peer about its requests for it is a cancel |
| Messages.RecordsFollow | code/src/download_coordinator.cpp:139-206 | over whole runs a peer's registration, choke flag and bitfield are exactly what the events naming it say |
| Messages.BlameIsSender | code/src/download_coordinator.cpp:243-249 | a step reports nobody or the sender of the piece message it handles, and that piece is still missing |
| Honest.HonestSwarm | code/src/download_coordinator.cpp:207-260 | with genuine blocks under any interleaving: nobody reported, ownership exclusive, every received block counted, held pieces equal the source, all held means the files are the source |
| Honest.HonestSwarmNeverStuck | code/src/download_coordinator.cpp:85-131 | in an honest swarm every missing piece has a pending block or one awaited from a registered peer |
| Honest.StepWedgesIff | code/src/piece_manager.cpp:71-77 | a step wedges a piece iff it delivers an overrunning first block of it; nothing undoes it |
| Honest.WedgedIffOverran | code/src/piece_manager.cpp:71-79 | over whole runs, a piece is wedged iff some first delivery ran past its end |
| Honest.WedgedForEver | code/src/piece_manager.cpp:71-79 | once that happened no continuation completes the piece |
| Honest.OversizedBlockWedges | code/src/piece_manager.cpp:71-77 | two events do it: a peer registers and sends a block one byte too long |
| Completion.CompletableIff | code/src/download_coordinator.cpp:207-260 | from every reachable state, after arbitrary peers, some continuation completes a piece iff no delivery has overrun it |
| Completion.HonestSwarmCanFinish | code/src/main.cpp:255-268 | from every reachable honest state some honest continuation leaves the source in the files |
| Seeding.EveryAnswerCounts | code/src/download_coordinator.cpp:207-260 | with one honest peer that has everything, any answer to any outstanding request leaves one block less to come and the pipeline full or nothing useful left |
| Seeding.IdleMeansComplete | code/src/download_coordinator.cpp:85-131 | with nothing outstanding at that peer every piece is held |
| Seeding.SeederFinishes | code/src/download_coordinator.cpp:85-260 | from every reachable honest state, once the others have left, a seeder that only answers requests outstanding at it leaves the source in the files |
| Coordinator.DownloadCoordinator.RegisterPeer | code/src/download_coordinator.cpp:10-37 | a fresh record with an empty bitfield; nothing else changes |
| Coordinator.DownloadCoordinator.UnregisterPeer | code/src/download_coordinator.cpp:39-67 | bits leave the histogram, requests go back to pending, the record goes |
| Coordinator.DownloadCoordinator.FillRequestPipeline | code/src/download_coordinator.cpp:69-137 | the loop, with its copied bitfield and picks, is the fill of the step system; nothing for an unknown or choking peer |
| Coordinator.DownloadCoordinator.OnPieceMessage | code/src/download_coordinator.cpp:207-260 | defined iff the index names a piece; then the whole handler; else the piece is set up, reported complete, and the hash list read past its end |
| Coordinator.DownloadCoordinator.HandlePeerMessage | code/src/download_coordinator.cpp:139-262 | every message does to the whole state what the step system says, unknown peers ignored; false exactly where a piece index past the end makes the source's behaviour undefined |
| Coordinator.DownloadCoordinator.CancelPieceRequests | code/src/download_coordinator.cpp:264-282 | at every peer exactly the piece's requests are cancelled and removed, in order, and its active piece cleared |
| Coordinator.ValidateFiles | code/src/main.cpp:255-268 | true iff every piece's stored bytes have its hash |
| Session.Drive | code/src/main.cpp:112-128 | the wired objects, driven through any legal run, end in the state of the step system |
| Session.Download | code/src/main.cpp:178-268 | after any run the files hold what the run says, completion is noticed iff every piece is held, and the final check then passes |
| Network.RechunkingInvariant | code/src/peer_connection.cpp:181-219 | cutting any chunk in two, anywhere in an interleaved schedule of many peers, leaves the engine's events as they are |
| Network.EventsOfOnePeer | code/src/peer_connection.cpp:280-350 | under any interleaving and chunking the engine gets for a peer exactly what its connection decodes from all its bytes at once |
| Network.MessagesReachEngine | code/src/peer_connection.cpp:26-350 | from a sender's connect and messages to the engine: a registration and exactly the fully arrived messages, as if handed over directly; or one unregistration if anything was handed over before the socket was established |
| Network.Receive | code/src/download_coordinator.cpp:24-36 | the connection and coordinator objects, fed any chunks, end in the state of the run with those events |

## Left out

- Sockets, epoll, timers and file descriptors (`tcp_connection.cpp`, `event_loop.cpp`): a send takes any prefix, would block, is interrupted or fails; reads deliver any chunks.
- The error and hang-up bits of `handle_events`: each is a `Disconnect`; an event both readable and writable is a read followed by a write.
- `tracker_client.cpp`, `peer_manager.cpp`, `config.cpp`, `logger.cpp`, `peer_id.cpp` and progress rendering: they would only add easy members.
- SHA-1 and the random engine: any function to digests and any stream of draws.
- File-system errors and paths: preallocation and writes succeed and files are distinct; the source logs a failed write and still counts the piece as held.
- Disconnects from inside a handler and object lifetimes: a disconnect is a later event of its own, and messages sent to a registered peer are never dropped.
- Session.Drive: leaves out the wiring at code/src/main.cpp:130-133 from the corruption callback to `blacklist_peer`, which disconnects the sender inside the handler; its record is then erased while the handler still refers to it (code/src/download_coordinator.cpp:251), where C++ promises nothing. Here the report is logged and the handler goes on to refill the sender.
- `mark_completed` and starting from pieces already held: runs start with nothing held.
- Atomics and the mutex: the engine is single-threaded, so each compare-and-exchange loop is one decrement.
- Exceptions' texts, log lines and the counting done only for them.
- Recursion depth of the parser and memory limits: nested input of any depth is accepted.
- Peers' handshake info hashes: the source does not compare them, and no claim is made that it does.
- Requests need not name a piece the peer still advertises: a later bitfield leaves the active piece alone, and no claim is made that it does not.
- Metainfo.FromBencode: on input where the source's signed arithmetic overflows or divides by zero the result is the marker `Undefined`.
- Wire.FrameRoundTrip: covers frames of length below 2^32 - 4; a longer length makes the source's sum wrap, which decoding marks as `Wraps` and the connection as `Broken`.
- Network.Receive: a peer is registered when its handshake completes, with flags given by the caller; what the coordinator sends does not feed back into the connection's transmit buffer there.
- Coordinator.DownloadCoordinator.HandlePeerMessage: a peer's bitfield is kept as a packed value and copied into a bitfield object for each operation, so updating it in place is not captured for peers (it is for our own).
- Coordinator.DownloadCoordinator.RegisterPeer: the step system registers a peer only when it is not registered; registering again would leave its bits in the histogram.
