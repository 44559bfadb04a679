# A streaming MP3 player over a mirrored ring buffer: model and proofs

The server sends a time string and then an MP3 file over one TCP connection. The client reads into
a ring buffer whose pages are mapped twice, parses envelopes incrementally, decodes frames into a
second ring buffer, and an audio callback plays from that. The project models every layer of this
pipeline and proves that the pipeline as a whole loses, invents and reorders nothing, never
overflows, never stalls, and always comes to an end with the file delivered.

## How the project is organised

| file | what it models |
|---|---|
| `Bytes.dfy` | bytes, C++ `int`s and their bytes on a little-endian host |
| `LinearMemory.dfy` | the page rounding of the double mapping, in 64-bit arithmetic |
| `RingBuffers.dfy` | `RingBuffer`: an array of `2 * size` addresses for `size` cells, four counters, and every view |
| `Channels.dfy` | `Channel`: a ring with parked callbacks and the hook that a commit runs |
| `ChannelHistory.dfy` | histories of a channel whose callbacks register and commit again while a hook runs |
| `Framing.dfy` | the message format, parsing as a function, and what chunking does to it |
| `Codecs.dfy` | `Encoder`, `Decoder` and `ServerDecoder` working on rings |
| `ClientModel.dfy` | the client as a machine of atomic steps, with audio callbacks between any two of them |
| `ClientSafety.dfy` | what every run of the client keeps, for arbitrary bytes and frames |
| `ClientLaws.dfy` | what single steps of the client come to, and how its tasks are counted |
| `Worlds.dfy` | what the audio device and the MP3 library do to a handler while it runs |
| `Audio.dfy` | `Player` and `Mp3Stream` as classes |
| `ClientConnection.dfy` | `TcpClientConnection` with `ClientDecoder::try_read_client` as a class |
| `Session.dfy` | server, network and client together, and where every byte of the stream is |
| `Delivery.dfy` | the results about whole sessions |
| `Playback.dfy` | what every finished session has played of the sound it decoded |
| `Unplayed.dfy` | for which files sound can stay unplayed, and how much: sessions that do it, and that no others do |
| `ServerConnection.dfy` | `TcpConnection` and `SendFile` as classes |
| `Pipelines.dfy` | both ends as objects, under any sequence of handlers and callbacks |

The classes carry the source's fields, loops and branches. The abstract value of a ring is the
sequence of bytes it queues (`Contents`), that of a channel adds its parked and its fired callbacks,
and so on up to `TcpClientConnection.Model`. Each method is pinned to a function on these values.
The handlers of the client return, as a ghost result, the events of `ClientModel` they amount to,
and their contracts say that the machine, taken through those events from the old value, arrives at
the new one. `sdl` arguments are slots of requests that the device makes between the steps of a
handler's loop; the contracts (`Worlds.Handles`) say that the device is given exactly what it asks for,
slot by slot, and that each frame is what the library makes of all that is queued. The server's methods are steps of `Session`. `Pipelines.Pipeline` puts a server and a
client object on one wire: from their construction on, any sequence of writes, answers of `sendfile`,
reads, posted tasks and device callbacks keeps `Valid`, which says that the objects are where a
session of `Session` has come. So the theorems about all sessions, and about all runs of the client,
hold of the objects; `NothingLost` and `AllDeliveredWhenQuiet` spell this out, and `Follows` says which
actions the happenings of a script come to, one by one.

Parameters stand for what is not in the repository: how many bytes a write, a read or `sendfile`
takes, when and for how many samples the audio device calls back, and the MP3 library, an arbitrary
function that for `n > 0` bytes of input uses up between 1 and `n` of them and yields at most 1152
samples a channel. The watermarks and the capacity are parameters too, restricted by `Sound`:
`0 < low <= high` and `high - 1 + 9216 <= size`. `ShippedLimitsAreSound` shows that the shipped
numbers satisfy it.

A commit of a `RingBuffer` runs the hook of the `Channel` around it. Here `RingBuffer.Commit` is the
part before the hook and `Channel.Commit` is both; a ring without a channel has the empty hook,
which is what a channel without callbacks does. Firing a callback that was wrapped in a strand hands
it to the executor, which may run it later or at once, inside the commit. The classes post it. The
machine knows both: `RunResume` starts a fired `receive` between two handlers, `ResumeInside` gives it
its read in the middle of whatever is running, so that every result about runs and sessions holds
either way.

## Findings

- `minsize` above `2^64 - pagesize` makes the rounded size wrap to zero, which the overflow test lets
  through (`LinearMemory.RoundToPages`).
- The end of a file's sound may stay unplayed, because the device is only ever started from the decode
  loop, and only by output that has reached the low watermark. What a finished session can have played
  of the frames it decoded is exactly the sound of some first ones, nothing or at least the low
  watermark, after which less than the low watermark follows (`Unplayed.WhatIsPlayed`). So, a frame
  alone being less than the low watermark, sound can be lost exactly when there is some but less than
  the low watermark, or when the low watermark is reached before the last frame that sounds
  (`Unplayed.SoundIsLostIff`); whether it is depends on when the device calls back. Under the shipped
  limits 19992 bytes is a bound on what is lost (`Playback.ShippedTailBound`).
  Every multiple of eight up to it occurs for some library that keeps the promise above
  (`Unplayed.ShippedTails`); with Layer III frames, which have 0, 576 or 1152 samples, exactly
  0, 4608, 9216, 13824 and 18432 bytes do (`Unplayed.Mp3Tails`).
- A time string longer than the client's ring is never delivered and nothing after it either, while
  every one that fits is (`Delivery.DeliversIffTimeFits`).
- The branch of `decode_next_inner` that waits for room in the output is unreachable under the shipped
  watermarks (`ClientSafety.OutputNeverOverflows`).
- `peek_int` chooses between its two ways of reading by how full the ring is and not by where it wraps;
  that this is right is due to the mirror alone (`RingBuffers.RingBuffer.PeekInt`).

## Model

| member | source | states |
|---|---|---|
| `LinearMemory.RoundToPages` | src/protocol-system.cpp:55-64 | the size is the least multiple of the page size that is enough if and only if the request is at most 2^64 minus a page, and zero otherwise; the test accepts exactly the sizes whose double is representable |
| `LinearMemory.MaskClearsLowBits` | src/protocol-system.cpp:56 | masking with the complement of a power of two less one subtracts the remainder, by induction over the bits of a word of any width |
| `LinearMemory.ShippedCapacity` | include/protocol.hpp:191 | a request for 65535 bytes gives exactly 65536 for every page size from 2 to 65536 |
| `RingBuffers.Buffers2.GatherAt` | include/protocol.hpp:70-76 | indexing two regions addresses the byte at that position of their concatenation |
| `RingBuffers.SplitIsLinear` | src/protocol.cpp:205-232 | because of the mirror, a region cut at the end of the memory and the straight region hold the same bytes |
| `RingBuffers.Join` | src/protocol.cpp:65-70 | a region and the one that starts where it ends, around the end of the memory, are one longer region |
| `RingBuffers.Advance` | src/protocol.cpp:57-63 | moving the start of a region around the end of the memory drops exactly the bytes passed over |
| `RingBuffers.TwoCopies` | src/protocol.cpp:72-83 | the two copies of a split write put the bytes in cyclic order from the start cell on, in both halves, and change no other cell |
| `RingBuffers.ScatteredRegions` | src/protocol.cpp:72-83 | writing into the free cells leaves the queue as it was and is seen as the front of the free space |
| `RingBuffers.RingBuffer.constructor` | src/protocol.cpp:37-48 | a new ring is empty, its mirror holds, and its capacity is the least number of whole pages |
| `RingBuffers.RingBuffer.CountersAreModular` | include/protocol.hpp:113-131 | filled and free add up to the size, and the write position is the read position plus the filled size modulo the size |
| `RingBuffers.RingBuffer.Reset` | src/protocol.cpp:50-55 | clears the queue |
| `RingBuffers.RingBuffer.Commit` | src/protocol.cpp:57-62 | drops a prefix of the queue; the write position does not move and the free space only grows at its far end, so regions handed out stay free |
| `RingBuffers.RingBuffer.Consume` | src/protocol.cpp:65-70 | appends to the queue what lies at the front of the free space, and the rest of the free space stays |
| `RingBuffers.RingBuffer.Scatter` | src/asio-client.cpp:74-92 | filling a region that was handed out changes neither the queue nor the mirror and leaves the bytes where `Consume` will take them |
| `RingBuffers.RingBuffer.MemcpyIn` | src/protocol.cpp:72-83 | appends the bytes to the queue, across the wrap |
| `RingBuffers.RingBuffer.MemcpyOut` | src/protocol.cpp:85-97 | takes a prefix off the queue and returns it |
| `RingBuffers.RingBuffer.DataUpTo` | src/protocol.cpp:111-122 | the one or two regions denote a prefix of the queue |
| `RingBuffers.RingBuffer.Data` | src/protocol.cpp:99-109 | the regions denote the whole queue |
| `RingBuffers.RingBuffer.PreparedUpTo` | src/protocol.cpp:140-153 | the regions are the first free cells, in the order they will be filled |
| `RingBuffers.RingBuffer.Prepared` | src/protocol.cpp:124-138 | the regions are all free cells, in the order they will be filled |
| `RingBuffers.RingBuffer.PeekSpan` | src/protocol.cpp:205-225 | the segments concatenate to a prefix of the queue |
| `RingBuffers.RingBuffer.PeekLinearSpan` | src/protocol.cpp:227-232 | the straight span denotes a prefix of the queue even where the queue wraps |
| `RingBuffers.RingBuffer.CharAt` | src/protocol.cpp:177-181 | an index past the end reads the byte of the queue at that distance from its start |
| `RingBuffers.RingBuffer.PeekInt` | src/protocol.cpp:188-203 | both branches return the integer whose little-endian bytes are the first four of the queue, at any offset |
| `Channels.ReadyOrNot` | src/protocol.cpp:241-249 | the hook's loop splits the callbacks into those that fit the room, which are fired, and those that do not, which are kept |
| `Channels.OrderIsKept` | src/protocol.cpp:241-249 | callbacks are fired, and kept, in the order of their registration |
| `Channels.WatermarkGuarantee` | src/protocol.cpp:236-251 | a commit that leaves the queue below the low watermark fires exactly the callbacks that fit the room, so every one wanting at most size minus low plus one; no commit loses or duplicates a callback, and one at or above the watermark fires none |
| `Channels.Channel.OnCommit` | src/protocol.cpp:237-250 | the swap-and-refill loop fires the callbacks that fit, in order, and keeps the others, in order |
| `Channels.Channel.Commit` | src/protocol.cpp:57-63 | drops the prefix and then runs the hook on what is left |
| `Channels.Channel.MemcpyOut` | src/protocol.cpp:85-97 | returns the prefix and commits it |
| `Channels.Channel.AddCallbackOnBufferNotFull` | src/protocol.cpp:257-259 | parks a callback behind the others |
| `ChannelHistory.EachCallbackOnce` | src/protocol.cpp:236-259 | over any history, with callbacks that register and commit re-entrantly, each callback was fired once or is held in exactly one place |
| `ChannelHistory.NoneDropped` | src/protocol.cpp:236-259 | when no hook is running, a registered callback was fired or is parked, and not both |
| `ChannelHistory.HookIsWake` | src/protocol.cpp:237-250 | when callbacks only post, the steps of one hook amount to what the channel's method does |
| `ChannelHistory.NoHookIsNoWake` | src/protocol.cpp:237-240 | a commit that leaves the queue at or above the low watermark starts no hook |
| `Bytes.DecodeEncodeInt` | src/protocol.cpp:188-203 | every `int`, negative ones included, is recovered from its bytes |
| `Bytes.EncodeDecodeInt` | src/protocol.cpp:188-203 | every four bytes are the bytes of the `int` read from them |
| `Bytes.EncodedIsLittleEndian` | src/protocol.cpp:294-296 | the bytes written for an `int` are its two's complement, the byte of least weight first |
| `Bytes.DecodedIsLittleEndian` | src/protocol.cpp:188-203 | the `int` read from four bytes is the one whose two's complement they are, the byte of least weight first |
| `Framing.DrainConserves` | src/server-protocol.cpp:8-21 | for any bytes, the delivered messages, the open envelope and the leftover re-encode to exactly the input |
| `Framing.EnvelopeOnTheWire` | src/protocol.cpp:266-296 | on the wire the type comes first and then the size, each in its four bytes |
| `Framing.DrainIsUnique` | src/client-protocol.cpp:7-19 | there is only one way to account for given bytes with delivered messages and a remainder that is stuck |
| `Framing.UnsignedComparison` | src/client-protocol.cpp:12 | comparing the unsigned ring size with the signed message size is enough bytes or a wait, and a negative size waits for ever |
| `Framing.FragmentationIndependence` | src/client-protocol.cpp:7-19 | for any bytes and any chunking, payloads, leftover and decoder state equal those of parsing the concatenation at once |
| `Framing.MessagesRoundTrip` | src/client-protocol.cpp:32-35 | any messages come out of any chunking of their encoding as they went in, with nothing left over |
| `Framing.PrefixOfMessages` | src/server-protocol.cpp:8-21 | after part of an encoding, exactly the complete messages were delivered and an open envelope is that of the next message |
| `Framing.RoomForMore` | src/client-protocol.cpp:12 | messages no larger than the ring never leave it full after parsing |
| `Codecs.DrainChanDrains` | src/protocol.cpp:266-287 | parsing by commits of a channel is plain parsing on its bytes, and disturbs no callback where none is parked |
| `Codecs.EnvelopeRoundTrip` | src/protocol.cpp:266-296 | an envelope in front of other bytes is read back with type and size, and exactly those bytes stay |
| `Codecs.FillEnvelope` | src/protocol.cpp:294-296 | appends eight bytes at any ring offset: the type and then the size, little-endian |
| `Codecs.FillMessage` | src/client-protocol.cpp:32-35 | appends the type, the size of the payload and then the payload, byte for byte |
| `Codecs.Decoder.TryRead` | src/protocol.cpp:266-287 | takes an envelope off the ring if one is due and complete, its type from the first four bytes and its size from the next four, and otherwise changes nothing |
| `Codecs.Decoder.TryDeliver` | src/server-protocol.cpp:9-17 | one round of the parser agrees with the parsing function and lowers the measure ready size plus one for an open envelope |
| `Codecs.ServerDecoder.TryReadServer` | src/server-protocol.cpp:8-21 | terminates, and delivers and leaves exactly what the parsing function says |
| `ClientSafety.ShippedLimitsAreSound` | include/protocol.hpp:191 | the shipped watermarks leave room for a frame above the high one |
| `ClientSafety.OneWaiter` | src/protocol.cpp:236-251 | a commit fires the parked `receive` exactly when it leaves the ring below the low watermark |
| `ClientSafety.StepKeepsInv` | src/audio-player.cpp:107-276 | every step of the client, with any bytes and frames, and with a fired `receive` run between handlers or inside one, keeps all the invariants together |
| `ClientSafety.OutputNeverOverflows` | src/audio-player.cpp:212-217 | on every run the output holds at most one frame above the high watermark, so no frame is refused and nobody waits on the output |
| `ClientSafety.PcmConservation` | src/audio-player.cpp:107-126 | on every run what was played, followed by what is queued, is exactly the decoded samples in order |
| `ClientSafety.HeardIffLongEnough` | src/audio-player.cpp:270-275 | on every run, the device is started or has played something if and only if at least the low watermark was decoded; less than that stays queued whole |
| `ClientSafety.InputNeverStalls` | src/audio-player.cpp:202-229 | inside the file, input waiting implies that a decode runs, is posted, or will be posted by a started device; a stopped device implies output below the low watermark |
| `ClientSafety.ReceiverNeverLost` | src/asio-client.cpp:62-100 | until the read fails, exactly one of reading, parked, posted and in the handler holds; parked implies a ring at least at the low watermark; the outstanding read fits the free space |
| `ClientLaws.ReadsIfThereIsRoom` | src/asio-client.cpp:62-76 | a receiver reads into all the room there is whenever there is any, and parks only behind a full ring, for one byte |
| `ClientLaws.EveryPostIsRun` | src/audio-player.cpp:122-126 | on every run, posted calls of `decode_next` still to run and those run add up to the callbacks that played something and left the output below the low watermark |
| `ClientLaws.FrameIsTakenOrWaits` | src/audio-player.cpp:247-275 | a frame is taken whole if the output has room for it; otherwise nothing moves and a callback waits for its size; the device starts exactly when samples leave the output at the low watermark or above |
| `ClientLaws.WaitingStopsDecoding` | src/audio-player.cpp:208-211 | while a frame waits `decode_next` does nothing, and the callback that has found room ends the wait |
| `ClientLaws.DecodesUpToHigh` | src/audio-player.cpp:212 | decoding goes on exactly while there is input and the output is below the high watermark |
| `Worlds.SlotIsServed` | src/audio-player.cpp:107-130 | in a handler, the audio steps of a slot are exactly the requests the device makes of it: all positive ones in order, up to the one that finds nothing and stops it |
| `Worlds.SlotsPass` | src/audio-player.cpp:208-220 | each test and each decoding passes one slot, and each decoding is one call of the library |
| `Worlds.FramesAreTheLibrarys` | src/audio-player.cpp:231-245 | each frame is the library's answer to its next call, given all that is queued, and no other task runs within a handler |
| `Audio.Player.Callback` | src/audio-player.cpp:107-130 | plays a prefix of the output padded with silence and posts a decode below the low watermark; with nothing to play it stops the device and leaves the stream alone |
| `Audio.Mp3Stream.constructor` | src/audio-player.cpp:197-206 | the stream begins as the machine does |
| `Audio.Mp3Stream.TakeFrame` | src/audio-player.cpp:261-266 | uses up the frame's bytes, wakes the input's waiters and queues the samples |
| `Audio.Mp3Stream.DecodeNextInner` | src/audio-player.cpp:231-276 | decodes from the whole linear view of the input and does one decode step of the machine |
| `Audio.Mp3Stream.RunCallbacks` | src/audio-player.cpp:107-130 | the device is served as long as it asks for something of the slot, and then asks for no more |
| `Audio.Mp3Stream.UseUp` | src/audio-player.cpp:261 | the frame's bytes leave the input in order, the hook runs, and the output is as it was |
| `Audio.Mp3Stream.Iterate` | src/audio-player.cpp:212-217 | one test and decode, with callbacks of the device before each, is a run of the machine as device and library drive it; the loop goes on only with less input, and ends only when decoding is done |
| `Audio.Mp3Stream.DecodeNext` | src/audio-player.cpp:208-220 | terminates with the input used up, the output at the high watermark or a frame waiting; with any callbacks of the device between its steps it is a run of the machine as device and library drive it; the read region stays free |
| `ClientConnection.TcpClientConnection.constructor` | src/asio-client.cpp:47-60 | the connection begins as the machine does, with the shipped limits, and all its parts are new |
| `ClientConnection.TcpClientConnection.Receive` | src/asio-client.cpp:62-76 | reads if and only if there is room, into all of it; otherwise one callback is parked, for one byte |
| `ClientConnection.TcpClientConnection.RunResume` | src/asio-client.cpp:68-70 | a fired callback is taken off and receives again, reading if there is room |
| `ClientConnection.TcpClientConnection.ServeMp3` | src/client-protocol.cpp:19-28 | decodes until that is done, and starts afresh if and only if the ring then holds the message size |
| `ClientConnection.TcpClientConnection.TryReadClient` | src/client-protocol.cpp:7-30 | terminates, is a run of the machine from parsing to receiving, and for any bytes leaves the decoder stuck: for lack of bytes, on another type, or in a file of which the ring holds less than its size |
| `ClientConnection.TcpClientConnection.TakeArrived` | src/asio-client.cpp:91-92 | what the socket put into the region joins the queue, whatever was committed meanwhile |
| `ClientConnection.TcpClientConnection.OnRead` | src/asio-client.cpp:91-97 | what the handler of a read does after the bytes arrive is a run of the machine's own steps, as device and library drive it, that ends reading if there is room and parked if not |
| `ClientConnection.TcpClientConnection.OnReadError` | src/asio-client.cpp:78-81 | a failed read is not started again |
| `ClientConnection.TcpClientConnection.RunDecode` | src/audio-player.cpp:202-204 | a posted decode is taken off and is a run of the machine as device and library drive it; a read outstanding meanwhile stays valid |
| `ClientConnection.TcpClientConnection.RunUnblock` | src/audio-player.cpp:254-257 | the callback of the output channel ends the wait and decodes, as device and library drive it |
| `Session.WhereInStream` | src/client-protocol.cpp:10-19 | the only beginnings of the server's stream are nothing, the time's envelope, the time, and the time with the file's envelope |
| `Session.StreamOnTheWire` | src/server-protocol.cpp:23-31 | byte by byte the stream is type 1, the size of the time and the time, then type 2, the size of the file and the file |
| `Session.StepKeepsAccounting` | src/asio-server.cpp:99-177 | every action keeps the sum: taken by the client, in its ring, on the wire, and unsent make up the whole stream |
| `Session.FileNotComplete` | src/client-protocol.cpp:22-27 | when a decode inside the read handler ends, the ring holds less than the message size |
| `Session.Mp3ModeIsAbsorbing` | src/client-protocol.cpp:19-27 | no action takes the decoder out of the file |
| `Session.SessionKeepsInv` | src/asio-server.cpp:99-177 | every session keeps all the invariants, and the mode once it is in the file |
| `Delivery.StreamPreserved` | src/client-protocol.cpp:7-30 | for any splitting of writes, `sendfile` chunks and reads, the time is delivered at most once and as sent, and decoded, queued and travelling bytes are the file prefix sent so far |
| `Delivery.FileBytesAreNeverParsed` | src/client-protocol.cpp:19-27 | after the file's envelope, no continuation of a session changes the mode or delivers a message |
| `Delivery.ParkedReceiverIsServed` | src/asio-client.cpp:65-72 | a parked receiver is inside the file, the ring is at least at the low watermark, and a decode or the device will free it |
| `Delivery.BackPressureIsReleased` | src/asio-client.cpp:62-100 | in every reachable state with bytes on the wire the client can read some or take a step of its own, so a full socket cannot block the pipeline |
| `Delivery.StuckMeansDelivered` | src/asio-client.cpp:62-105 | a session with nothing left to do has closed after delivering the time and decoding the whole file, with less than the low watermark unplayed |
| `Delivery.EverySessionEnds` | src/audio-player.cpp:208-229 | a session has at most a linear number of actions in the length of the stream, not counting blocked writes; what a byte counts for comes from the size of a frame |
| `Delivery.MoreThanWaiting` | src/mp3-system.cpp:90-100 | where anything can be done, something other than finding the socket full can |
| `Delivery.EverySessionCanFinish` | src/asio-client.cpp:62-105 | wherever a session has come, it can go on to its end without another blocked write |
| `Delivery.DeliversIffTimeFits` | src/client-protocol.cpp:12 | a finished session has delivered time and file if and only if the time fits the client's ring |
| `Delivery.SessionIsClientRun` | src/asio-client.cpp:62-105 | a session seen from the client is a run of the client |
| `Playback.RunHolds` | src/audio-player.cpp:107-142 | on every run, while the device is stopped the output is exactly what was decoded since it stopped |
| `Playback.PlaysIffLongEnough` | src/audio-player.cpp:270-275 | a finished session has played something if and only if at least the low watermark was decoded |
| `Playback.PlaysNothingOrEnough` | src/audio-player.cpp:107-142 | a finished session has played nothing or at least the low watermark |
| `Playback.PlaysWholeFrames` | src/audio-player.cpp:231-276 | the frames of a finished session use up the file; it has played the sound of some first ones, and the rest, decoded since the device's last stop, is below the low watermark |
| `Playback.ShippedTailBound` | include/protocol.hpp:191 | at the shipped low watermark at most 19992 bytes stay unplayed |
| `Unplayed.StopsAfter` | src/audio-player.cpp:107-130 | for any frames that make up the file, of any sizes, and any place where the device can be left stopped, there is a finished session that decodes them and plays exactly the sound up to that place |
| `Unplayed.WhatIsPlayed` | src/audio-player.cpp:107-276 | a finished session can decode given frames and play given sound if and only if the frames make up the file and the sound is that of some first ones, nothing or at least the low watermark, with less than the low watermark after it |
| `Unplayed.SoundIsLostIff` | src/audio-player.cpp:270-275 | given the frames of a file, a session can leave sound unplayed if and only if there is sound but less than the low watermark, or the low watermark is reached before the last frame that sounds |
| `Unplayed.AllIsPlayedIff` | src/audio-player.cpp:270-275 | a session can play all of it if and only if there is none or at least the low watermark |
| `Unplayed.ShippedTails` | include/protocol.hpp:191 | under the shipped limits, sessions that have played something can lose exactly the multiples of eight up to 19992, if the library need only keep its promise |
| `Unplayed.Mp3Tails` | src/audio-player.cpp:26-29 | with frames of 0, 576 or 1152 samples they can lose exactly the multiples of 4608 up to 18432 |
| `ServerConnection.SendFile.Call` | src/mp3-system.cpp:64-111 | after any answer of the kernel, file position and counter agree, what was sent is the prefix up to the counter, and short of a lost connection the callback sees zero exactly when all is sent |
| `ServerConnection.Transfer` | src/mp3-system.cpp:64-100 | for any sequence of partial sends and waits, exactly the prefix the kernel took is sent and the transfer finishes exactly when that is the file |
| `ServerConnection.TcpConnection.constructor` | src/asio-server.cpp:99-107 | the write ring begins with the time message |
| `ServerConnection.TcpConnection.OnWritten` | src/asio-server.cpp:163-175 | a partial write hands out the front of the write ring in order, and the continuation runs only once the ring is empty; a transfer it starts is a new object |
| `ServerConnection.TcpConnection.Continue` | src/asio-server.cpp:105-138 | after the time comes the file's envelope, after that the file, in a new transfer |
| `ServerConnection.TcpConnection.OnSendfile` | src/asio-server.cpp:124-132 | each answer of `sendfile` is one step of the session; the last one finishes it, and a lost connection ends the transfer where it is, with nothing more taken |
| `Pipelines.Pipeline.constructor` | src/asio-server.cpp:99-107 | two new ends are where a session begins, and share nothing |
| `Pipelines.WhatCanBeDoneHappens` | src/asio-client.cpp:62-105 | between handlers, every action the session can do is what the happening that causes it begins with, a transfer given up excepted |
| `Pipelines.WhatHappensCanBeDone` | src/asio-server.cpp:121-177 | whatever a happening begins with is an action the session can do |
| `Pipelines.AsMuchAsPossible` | src/asio-server.cpp:155-177 | writes, `sendfile` and reads take all that is offered, or else all that can be taken |
| `Pipelines.HappensGoes` | src/asio-client.cpp:62-105 | a happening goes through the session by its first action and the handler's steps, and is nothing exactly when it cannot happen |
| `Pipelines.FollowsOn` | src/asio-client.cpp:62-105 | a script followed so far and one more happening make a longer script followed |
| `Pipelines.FollowsGoes` | src/asio-client.cpp:62-105 | a script followed is a session: its deeds, one for each happening, joined in order |
| `Pipelines.Pipeline.Step` | src/asio-client.cpp:62-105 | a happening that is impossible now changes nothing; any other goes on with the action it stands for and then with the steps of the client's handler, as device and library drive it, and the two objects are where these lead |
| `Pipelines.Pipeline.ResumeFindsNoRead` | src/asio-client.cpp:65-72 | in every reachable state, no read is outstanding when a fired `receive` is about to run |
| `Pipelines.Pipeline.Run` | src/asio-client.cpp:62-105 | after the first `receive` the script is what happens: the session is the actions its happenings come to, one after the other, and the objects are where they lead |
| `Pipelines.Pipeline.NothingLost` | src/client-protocol.cpp:7-30 | the time was delivered at most once and as sent; decoded, queued and travelling bytes are the file prefix sent so far; played and queued samples are the decoded ones; the decoder never waits for room |
| `Pipelines.Pipeline.QuietMeansFinished` | src/asio-client.cpp:62-105 | no action of the session is possible if and only if the fields show no read, no posted task, a stopped device, an empty wire and a server that is done |
| `Pipelines.Pipeline.AllDeliveredWhenQuiet` | src/asio-client.cpp:62-105 | then the connection is closed, the time delivered, the whole file decoded, and the sound of some first frames played, with less than the low watermark after it |
| `Pipelines.RunPipeline` | src/asio-server.cpp:99-177 | from the construction of both ends on, the script is what happens |

## Left out

- Audio.Player.Callback: one atomic step. The ring's counters are not atomic in the source, and a callback preempted between reading an empty output (src/audio-player.cpp:110) and stopping the device (line 112) could stop it after the io thread has refilled the output and seen it started.
- RingBuffers.RingBuffer.Store: that a store through one mapping appears in the other is the assumption that stands for `mmap`; calls to the system and the destructor are not modelled.
- RingBuffers.RingBuffer.Scatter: the bytes of a read appear when it completes; the contracts of `Commit` and `Scatter` show that earlier would make no difference.
- Audio.KeepsPromise: minimp3 itself is not modelled, only that it uses up at least one byte of a non-empty input and its bounds on samples.
- Bytes.EncodeInt: little-endian hosts only; the source copies object representations.
- Codecs.FillMessage: payloads of 2^31 bytes and more, whose size a C++ `int` cannot hold.
- ServerConnection.Transfer: the file is not truncated while it is sent; the Apple and Windows branches are not modelled.
- Channels.Channel.OnCommit: the class posts a fired callback; that it may also run inside the commit is in the machine (`ResumeInside`) and in `ChannelHistory`.
- ServerConnection.TcpConnection.OnSendfile: what the client sees of a connection that was lost; the session stays where the loss found it, and only what holds of every session is said about it.
- ServerConnection.TcpConnection.OnWritten: a write that fails or is cancelled, after which the server sends nothing more.
- Delivery.StuckMeansDelivered: sessions without a failed connection, an empty file, or other messages after the file. The server's class and `Pipelines.Pipeline` take an empty file; the results about whole sessions do not.
- Shared pointers, strands beyond posting, signals, cancellation, the resolver, timers, metrics and logging.
