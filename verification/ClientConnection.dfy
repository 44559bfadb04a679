/** The client's connection: reading into the ring, parsing, and parking when the ring is full. */
module ClientConnection {
  import opened Bytes
  import opened LinearMemory
  import opened RingBuffers
  import opened Channels
  import opened Framing
  import opened Codecs
  import opened ClientModel
  import opened Worlds
  import opened Audio

  class TcpClientConnection {
    const stream: Mp3Stream
    /** Its message callback is the one for the time. */
    const decoder: Decoder
    var reading: bool
    /** Where the outstanding read puts what arrives. */
    var region: Buffers2
    var closed: bool

    /** The connection and all it owns. */
    ghost function Parts(): set<object> {
      {this, decoder, stream, stream.input, stream.input.buffer, stream.input.buffer.mem,
       stream.player, stream.player.output, stream.player.output.buffer, stream.player.output.buffer.mem}
    }

    ghost predicate Valid()
      reads this, decoder, stream, stream.input, stream.input.buffer, stream.input.buffer.mem
      reads stream.player, stream.player.output, stream.player.output.buffer, stream.player.output.buffer.mem
    {
      && stream.Valid() && decoder.kind == 1
      && (reading ==> stream.input.buffer.IsFreePrefix(region))
    }

    ghost function Model(pc: Pc): (c: Client)
      reads this, decoder, stream, stream.input, stream.input.buffer, stream.input.buffer.mem
      reads stream.player, stream.player.output, stream.player.output.buffer, stream.player.output.buffer.mem
      requires Valid()
    {
      Client(stream.Model(), decoder.Mode(), decoder.messages,
             if reading then ReadInto(region.Size()) else NoRead, closed, pc)
    }

    ghost function Bounds(): Limits
      reads stream, stream.input, stream.input.buffer
    {
      stream.input.Bounds()
    }

    constructor (pageSize: nat, library: Mp3Library)
      requires IsPageSize(pageSize) && 2 * (65535 + pageSize) < TWO_64 && KeepsPromise(library)
      ensures Valid() && Model(Receiving) == Start() && stream.calls == 0
      ensures fresh(Parts() - {this})
      ensures Bounds().low == 20000 && Bounds().high == 40000 && IsLeastMultiple(Bounds().size, pageSize, 65535)
    {
      stream := new Mp3Stream(pageSize, library);
      decoder := new Decoder(1);
      reading, region, closed := false, Empty, false;
    }

    method Receive()
      requires Valid() && !reading
      modifies this, stream.input
      ensures Valid() && Model(Idle) == Apply(Bounds(), old(Model(Receiving)), ClientModel.Receive)
      ensures reading <==> old(stream.input.buffer.nonFilledSize) > 0
      ensures reading ==>
                && region.Size() == stream.input.buffer.nonFilledSize
                && stream.input.waiters == old(stream.input.waiters)
      ensures !reading ==>
                && |stream.input.waiters| == |old(stream.input.waiters)| + 1
                && stream.input.waiters[..|old(stream.input.waiters)|] == old(stream.input.waiters)
                && stream.input.waiters[|old(stream.input.waiters)|].wantsSize == 1
      ensures stream.input.posted == old(stream.input.posted)
    {
      if stream.input.buffer.nonFilledSize == 0 {
        stream.input.AddCallbackOnBufferNotFull(RESUME_RECEIVE);
      } else {
        region := stream.input.buffer.Prepared();
        reading := true;
      }
    }

    /** A callback of the input channel that was fired: `receive` again. */
    method RunResume()
      requires Valid() && !reading && stream.input.posted != []
      modifies this, stream.input
      ensures Valid() && Enabled(Bounds(), old(Model(Idle)), ClientModel.RunResume)
      ensures var c := Apply(Bounds(), old(Model(Idle)), ClientModel.RunResume);
              var w := World([], stream.calls);
              Handles(Bounds(), stream.library, c, w, [ClientModel.Receive], Model(Idle), w)
      ensures reading <==> stream.input.buffer.nonFilledSize > 0
    {
      stream.input.posted := stream.input.posted[1..];
      ghost var c := Model(Receiving);
      Receive();
      HandlesOne(Bounds(), stream.library, c, World([], stream.calls), ClientModel.Receive);
    }

    /** The part of `try_read_client` that deals with messages of type 1, and the one step it stands for. */
    method ParseTimes(ghost c: Client) returns (again: bool)
      requires Valid() && !reading && c == Model(Parsing)
      modifies decoder, stream.input, stream.input.buffer
      ensures Valid() && stream.input.buffer.filledSize <= old(stream.input.buffer.filledSize)
      ensures if again then Apply(Bounds(), Model(Parsing), Parse) == Apply(Bounds(), c, Parse)
              else Apply(Bounds(), c, Parse) == Model(if IsMp3(decoder.Mode()) then Entering(true) else Receiving)
      ensures Enabled(Bounds(), c, Parse)
      ensures again ==> decoder.state.Before? && Enabled(Bounds(), Model(Parsing), Parse)
      ensures !again ==> Stuck(1, decoder.Mode(), stream.input.Model().bytes)
      ensures old(decoder.state.Before?) && (again || decoder.state.Have?) ==>
                stream.input.buffer.filledSize < old(stream.input.buffer.filledSize)
    {
      hide DrainChan;
      ghost var q := DrainChan(Bounds(), 1, c.mode, c.stream.input);
      again := decoder.TryDeliver(stream.input);
      ghost var r := DrainChan(Bounds(), 1, decoder.Mode(), stream.input.Model());
      if again {
        Reassociate(c.times, decoder.messages, r.delivered);
      } else {
        assert c.times + q.delivered == c.times;
        DrainChanDrains(Bounds(), 1, c.mode, c.stream.input);
      }
    }

    /** `decode_next` called from the read handler. */
    method OnMp3Bytes(sdl: seq<seq<nat>>, ghost c: Client) returns (later: seq<seq<nat>>, ghost es: seq<Event>)
      requires Valid() && !reading && c == Model(Entering(true))
      modifies stream, stream.input, stream.input.buffer
      modifies stream.player, stream.player.output, stream.player.output.buffer, stream.player.output.buffer.mem
      ensures Valid() && stream.input.buffer.filledSize <= old(stream.input.buffer.filledSize) && stream.IsDone()
      ensures Handles(Bounds(), stream.library, c, World(sdl, old(stream.calls)), es, Model(Mp3Done),
                      World(later, stream.calls))
    {
      hide Handles;
      later, es := stream.DecodeNext(sdl, c);
    }

    /** The ring holds less than the file is long, as unsigned numbers. */
    predicate FileIsOpen()
      reads this, decoder, stream, stream.input, stream.input.buffer
    {
      stream.input.buffer.filledSize < ToSizeT(decoder.envelope.messageSize)
    }

    /** The branch for messages of type 2; `again` says that it took the whole file and starts afresh. */
    method ServeMp3(sdl: seq<seq<nat>>, ghost c: Client)
      returns (again: bool, later: seq<seq<nat>>, ghost es: seq<Event>)
      requires Valid() && !reading && c == Model(Entering(true)) && decoder.state.Have?
      modifies decoder, stream, stream.input, stream.input.buffer
      modifies stream.player, stream.player.output, stream.player.output.buffer, stream.player.output.buffer.mem
      ensures Valid() && stream.input.buffer.filledSize <= old(stream.input.buffer.filledSize) && stream.IsDone()
      ensures decoder.state.Have? != again
      ensures again <==> stream.input.buffer.filledSize >= ToSizeT(old(decoder.envelope.messageSize))
      ensures !again ==> decoder.envelope == old(decoder.envelope)
      ensures Handles(Bounds(), stream.library, c, World(sdl, old(stream.calls)), es,
                      Model(if again then Parsing else Receiving), World(later, stream.calls))
    {
      hide DrainChan, DecodeFrame, PlayAudio, Handles;
      ghost var w := World(sdl, stream.calls);
      later, es := OnMp3Bytes(sdl, c);
      HandlesMore(Bounds(), stream.library, c, w, es, Model(Mp3Done), World(later, stream.calls), FinishMp3);
      es := es + [FinishMp3];
      again := stream.input.buffer.filledSize >= ToSizeT(decoder.envelope.messageSize);
      if again {
        decoder.Reset();
      }
    }

    /** The part of `try_read_client` that deals with a message of type 2, which has been parsed from `c`. */
    method ParseFile(sdl: seq<seq<nat>>, ghost c: Client)
      returns (again: bool, later: seq<seq<nat>>, ghost es: seq<Event>)
      requires Valid() && !reading && decoder.state.Have?
      requires Enabled(Bounds(), c, Parse) && Apply(Bounds(), c, Parse) == Model(Entering(true))
      modifies decoder, stream, stream.input, stream.input.buffer
      modifies stream.player, stream.player.output, stream.player.output.buffer, stream.player.output.buffer.mem
      ensures Valid() && stream.input.buffer.filledSize <= old(stream.input.buffer.filledSize) && stream.IsDone()
      ensures decoder.state.Have? != again && (!again ==> FileIsOpen() && decoder.envelope == old(decoder.envelope))
      ensures es != [] && es[0] == Parse
      ensures Handles(Bounds(), stream.library, c, World(sdl, old(stream.calls)), es,
                      Model(if again then Parsing else Receiving), World(later, stream.calls))
    {
      hide Handles, Apply, Enabled;
      ghost var d, w := Model(Entering(true)), World(sdl, stream.calls);
      HandlesOne(Bounds(), stream.library, c, w, Parse);
      again, later, es := ServeMp3(sdl, d);
      ghost var e := Model(if again then Parsing else Receiving);
      HandlesAppend(Bounds(), stream.library, c, w, [Parse], d, w, es, e, World(later, stream.calls));
      es := [Parse] + es;
    }

    method TryReadClient(sdl: seq<seq<nat>>, ghost c: Client) returns (later: seq<seq<nat>>, ghost es: seq<Event>)
      requires Valid() && !reading && c == Model(Parsing)
      modifies decoder, stream, stream.input, stream.input.buffer
      modifies stream.player, stream.player.output, stream.player.output.buffer, stream.player.output.buffer.mem
      ensures Valid() && es != [] && es[0] == Parse
      ensures Handles(Bounds(), stream.library, c, World(sdl, old(stream.calls)), es, Model(Receiving),
                      World(later, stream.calls))
      ensures if IsMp3(decoder.Mode()) then FileIsOpen() && stream.IsDone()
              else Stuck(1, decoder.Mode(), stream.input.Model().bytes)
      decreases stream.input.buffer.filledSize + if decoder.state.Have? then 1 else 0
    {
      hide Handles, Apply, Enabled, Stuck;
      ghost var w := World(sdl, stream.calls);
      var again := ParseTimes(c);
      if again {
        ghost var d := Model(Parsing);
        later, es := TryReadClient(sdl, d);
        HandlesSameFirst(Bounds(), stream.library, c, d, w, es, Model(Receiving), World(later, stream.calls));
      } else if decoder.state.Have? && decoder.envelope.messageType == 2 {
        again, later, es := ParseFile(sdl, c);
        if again {
          ghost var e, v, fs := Model(Parsing), World(later, stream.calls), es;
          later, es := TryReadClient(later, e);
          HandlesAppend(Bounds(), stream.library, c, w, fs, e, v, es, Model(Receiving), World(later, stream.calls));
          es := fs + es;
          assert es[0] == fs[0];
        }
      } else {
        later, es := sdl, [Parse];
        HandlesOne(Bounds(), stream.library, c, w, Parse);
      }
    }

    /** The socket fills the start of the region, and what it put there is consumed. */
    method FillRing(bytes: seq<byte>)
      requires Valid() && reading && |bytes| <= region.Size()
      modifies stream.input.buffer, stream.input.buffer.mem
      ensures stream.Valid() && stream.Model() == old(WithInput(stream.Model(), bytes))
    {
      stream.input.buffer.Scatter(region, bytes);
      stream.input.buffer.Consume(|bytes|);
    }

    /** The handler of a read takes the bytes that arrived into the ring. */
    method TakeArrived(bytes: seq<byte>)
      requires Valid() && reading && 1 <= |bytes| <= region.Size()
      modifies this, stream.input.buffer, stream.input.buffer.mem
      ensures Valid() && !reading
      ensures Enabled(Bounds(), old(Model(Idle)), Arrive(bytes))
      ensures Model(Parsing) == Apply(Bounds(), old(Model(Idle)), Arrive(bytes))
    {
      FillRing(bytes);
      reading := false;
    }

    /** `handle`, then `receive`. */
    method HandleAndReceive(sdl: seq<seq<nat>>, ghost c: Client)
      returns (ghost later: seq<seq<nat>>, ghost es: seq<Event>)
      requires Valid() && !reading && c == Model(Parsing)
      modifies this, decoder, stream, stream.input, stream.input.buffer
      modifies stream.player, stream.player.output, stream.player.output.buffer, stream.player.output.buffer.mem
      ensures Valid() && (reading <==> stream.input.buffer.nonFilledSize > 0)
      ensures Handles(Bounds(), stream.library, c, World(sdl, old(stream.calls)), es, Model(Idle),
                      World(later, stream.calls))
    {
      hide Handles, Apply;
      ghost var w := World(sdl, stream.calls);
      later, es := TryReadClient(sdl, c);
      ghost var d := Model(Receiving);
      Receive();
      HandlesMore(Bounds(), stream.library, c, w, es, d, World(later, stream.calls), ClientModel.Receive);
      es := es + [ClientModel.Receive];
    }

    /** The handler of a read that brought bytes; `es` is what follows their arrival. */
    method OnRead(bytes: seq<byte>, sdl: seq<seq<nat>>) returns (ghost later: seq<seq<nat>>, ghost es: seq<Event>)
      requires Valid() && reading && 1 <= |bytes| <= region.Size()
      modifies Parts()
      ensures Valid() && Enabled(Bounds(), old(Model(Idle)), Arrive(bytes))
      ensures reading <==> stream.input.buffer.nonFilledSize > 0
      ensures Handles(Bounds(), stream.library, Apply(Bounds(), old(Model(Idle)), Arrive(bytes)),
                      World(sdl, old(stream.calls)), es, Model(Idle), World(later, stream.calls))
    {
      hide Apply, Enabled, Handles;
      TakeArrived(bytes);
      later, es := HandleAndReceive(sdl, Model(Parsing));
    }

    /** The handler of a read that ended in an error. */
    method OnReadError()
      requires Valid() && reading
      modifies this
      ensures Valid() && Enabled(Bounds(), old(Model(Idle)), Fail)
      ensures Model(Idle) == Apply(Bounds(), old(Model(Idle)), Fail)
    {
      reading := false;
      closed := true;
    }

    /** A posted `decode_next`. A read may be outstanding; its region stays free. `es` is what follows its start. */
    method RunDecode(sdl: seq<seq<nat>>) returns (ghost later: seq<seq<nat>>, ghost es: seq<Event>)
      requires Valid() && stream.player.decodePosts > 0
      modifies stream, stream.input, stream.input.buffer
      modifies stream.player, stream.player.output, stream.player.output.buffer, stream.player.output.buffer.mem
      ensures Valid() && stream.IsDone() && Enabled(Bounds(), old(Model(Idle)), ClientModel.RunDecode)
      ensures Handles(Bounds(), stream.library, Apply(Bounds(), old(Model(Idle)), ClientModel.RunDecode),
                      World(sdl, old(stream.calls)), es, Model(Idle), World(later, stream.calls))
    {
      ghost var c := Model(Idle);
      stream.player.decodePosts := stream.player.decodePosts - 1;
      ghost var d := Model(Entering(false));
      assert Enabled(Bounds(), c, ClientModel.RunDecode) && d == Apply(Bounds(), c, ClientModel.RunDecode);
      hide Handles, Apply, Enabled;
      later, es := stream.DecodeNext(sdl, d);
    }

    /** A fired callback of the output channel: there is room, decode again. */
    method RunUnblock(sdl: seq<seq<nat>>) returns (ghost later: seq<seq<nat>>, ghost es: seq<Event>)
      requires Valid() && stream.player.output.posted != []
      modifies stream, stream.input, stream.input.buffer
      modifies stream.player, stream.player.output, stream.player.output.buffer, stream.player.output.buffer.mem
      ensures Valid() && stream.IsDone() && Enabled(Bounds(), old(Model(Idle)), ClientModel.RunUnblock)
      ensures Handles(Bounds(), stream.library, Apply(Bounds(), old(Model(Idle)), ClientModel.RunUnblock),
                      World(sdl, old(stream.calls)), es, Model(Idle), World(later, stream.calls))
    {
      ghost var c := Model(Idle);
      stream.player.output.posted := stream.player.output.posted[1..];
      stream.waitingForPlay := false;
      ghost var d := Model(Entering(false));
      assert Enabled(Bounds(), c, ClientModel.RunUnblock) && d == Apply(Bounds(), c, ClientModel.RunUnblock);
      hide Handles, Apply, Enabled;
      later, es := stream.DecodeNext(sdl, d);
    }

    /** The started audio device asks for `len` bytes while no handler runs. */
    method RunAudio(len: nat)
      requires Valid() && stream.player.started && len > 0
      modifies stream.player, stream.player.output, stream.player.output.buffer
      ensures Valid() && Enabled(Bounds(), old(Model(Idle)), Audio(len))
      ensures Model(Idle) == Apply(Bounds(), old(Model(Idle)), Audio(len))
    {
      hide Apply, Enabled;
      stream.RunCallback(len, Model(Idle));
    }
  }

  function WithInput(s: Stream, bytes: seq<byte>): Stream {
    s.(input := s.input.(bytes := s.input.bytes + bytes))
  }

  lemma Reassociate(before: seq<Payload>, after: seq<Payload>, more: seq<Payload>)
    requires after != [] && after[..|after| - 1] == before
    ensures before + ([after[|after| - 1]] + more) == after + more
  {
    assert after == before + [after[|after| - 1]];
  }
}
