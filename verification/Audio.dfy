/** The player that feeds the audio device, and the stream that decodes into its buffer. */
module Audio {
  import opened Bytes
  import opened LinearMemory
  import opened RingBuffers
  import opened Channels
  import opened Codecs
  import opened ClientModel
  import opened Worlds

  class Player {
    const output: Channel
    var started: bool
    /** How many calls of `decode_next` the low-watermark callback has posted that have not run yet. */
    var decodePosts: nat
    /** The samples handed to the device so far, without padding. */
    ghost var played: seq<byte>

    ghost predicate Valid()
      reads this, output, output.buffer, output.buffer.mem
    {
      output.Valid()
    }

    constructor (pageSize: nat)
      requires IsPageSize(pageSize) && 2 * (65535 + pageSize) < TWO_64
      ensures Valid() && fresh(output) && fresh(output.buffer) && fresh(output.buffer.mem)
      ensures output.Model() == Chan([], [], []) && !started && decodePosts == 0 && played == []
      ensures output.Bounds().low == 20000 && output.Bounds().high == 40000
      ensures IsLeastMultiple(output.Bounds().size, pageSize, 65535)
    {
      output := new Channel(pageSize);
      started, decodePosts, played := false, 0, [];
    }

    method Start()
      modifies this
      ensures started && decodePosts == old(decodePosts) && played == old(played)
    {
      started := true;
    }

    method Stop()
      modifies this
      ensures !started && decodePosts == old(decodePosts) && played == old(played)
    {
      started := false;
    }

    /** The device asks for `stream.Length` bytes; what the buffer lacks is silence. */
    method Callback(stream: array<byte>)
      requires Valid() && stream != output.buffer.mem
      modifies this, output, output.buffer, stream
      ensures Valid()
      ensures var ready, len := old(output.Model()).bytes, stream.Length;
              var n := if len > |ready| then |ready| else len;
              if ready == [] then
                && !started && output.Model() == old(output.Model())
                && decodePosts == old(decodePosts) && played == old(played) && stream[..] == old(stream[..])
              else
                && started == old(started) && output.Model() == Committed(output.Bounds(), old(output.Model()), n)
                && played == old(played) + ready[..n]
                && stream[..n] == ready[..n] && (forall i :: n <= i < len ==> stream[i] == 0)
                && decodePosts == old(decodePosts) + if |output.Model().bytes| < output.Bounds().low then 1 else 0
    {
      hide Committed, Region, Mirrored, Cell;
      var audioLen := output.buffer.filledSize;
      if audioLen == 0 {
        Stop();
        return;
      }
      var len := if stream.Length > audioLen then audioLen else stream.Length;
      var bytes := output.MemcpyOut(len);
      CopyAndSilence(stream, bytes);
      played := played + bytes;
      if output.buffer.filledSize < output.buffer.lowWatermark {
        decodePosts := decodePosts + 1;
      }
    }
  }

  /** `memset` and `memcpy` to the device's memory: what comes after `bytes` is silence. */
  method CopyAndSilence(stream: array<byte>, bytes: seq<byte>)
    requires |bytes| <= stream.Length
    modifies stream
    ensures stream[..|bytes|] == bytes
    ensures forall i :: |bytes| <= i < stream.Length ==> stream[i] == 0
  {
    forall i | 0 <= i < stream.Length {
      stream[i] := 0;
    }
    forall i | 0 <= i < |bytes| {
      stream[i] := bytes[i];
    }
  }

  class Mp3Stream {
    const input: Channel
    const player: Player
    const library: Mp3Library
    var calls: nat
    var waitingForPlay: bool
    /** The input used up so far, and the samples decoded from it. */
    ghost var committed: seq<byte>
    ghost var written: seq<byte>

    ghost predicate Valid()
      reads this, input, input.buffer, input.buffer.mem
      reads player, player.output, player.output.buffer, player.output.buffer.mem
    {
      && input.Valid() && player.Valid() && input.Bounds() == player.output.Bounds()
      && input != player.output && input.buffer != player.output.buffer
      && input.buffer.mem != player.output.buffer.mem
      && KeepsPromise(library)
    }

    ghost function Model(): (s: Stream)
      reads this, input, input.buffer, input.buffer.mem
      reads player, player.output, player.output.buffer, player.output.buffer.mem
      requires Valid()
      ensures Fits(input.Bounds(), s)
    {
      Stream(input.Model(), player.output.Model(), player.started, waitingForPlay, player.decodePosts,
             committed, written, player.played)
    }

    constructor (pageSize: nat, library: Mp3Library)
      requires IsPageSize(pageSize) && 2 * (65535 + pageSize) < TWO_64 && KeepsPromise(library)
      ensures Valid() && Model() == Start().stream && calls == 0
      ensures input.Bounds().low == 20000 && input.Bounds().high == 40000
      ensures IsLeastMultiple(input.Bounds().size, pageSize, 65535)
      ensures fresh({input, input.buffer, input.buffer.mem})
      ensures fresh({player, player.output, player.output.buffer, player.output.buffer.mem})
    {
      input := new Channel(pageSize);
      player := new Player(pageSize);
      this.library := library;
      calls, waitingForPlay, committed, written := 0, false, [], [];
      new;
      SameCapacity(input.Bounds().size, player.output.Bounds().size, pageSize, 65535);
    }

    /** The part of `decode_next_inner` that finds a place for what was decoded. */
    method StoreFrame(frame: Frame)
      requires Valid() && GoodFrame(frame, input.buffer.filledSize)
      modifies this, input, input.buffer, player.output, player.output.buffer, player.output.buffer.mem
      ensures Valid() && Model() == ClientModel.StoreFrame(input.Bounds(), old(Model()), frame)
      ensures calls == old(calls)
      ensures input.buffer.nonFilledStart == old(input.buffer.nonFilledStart)
      ensures input.buffer.nonFilledSize >= old(input.buffer.nonFilledSize)
    {
      hide Committed;
      var decodedSize := 2 * frame.samples * 4;
      if decodedSize > player.output.buffer.nonFilledSize {
        waitingForPlay := true;
        player.output.AddCallbackOnBufferNotFull(ResumeDecode(decodedSize));
      } else {
        TakeFrame(frame);
      }
    }

    /** The input side of taking a frame: `n` bytes are used up, and the hook may wake the receiver. */
    method UseUp(n: nat)
      requires Valid() && n <= input.buffer.filledSize
      modifies this, input, input.buffer
      ensures Valid() && calls == old(calls) && waitingForPlay == old(waitingForPlay) && written == old(written)
      ensures input.Model() == Committed(input.Bounds(), old(input.Model()), n)
      ensures committed == old(committed) + old(input.Model()).bytes[..n]
      ensures player.output.Model() == old(player.output.Model())
      ensures input.buffer.nonFilledStart == old(input.buffer.nonFilledStart)
      ensures input.buffer.nonFilledSize >= old(input.buffer.nonFilledSize)
    {
      hide Committed;
      committed := committed + input.buffer.Contents()[..n];
      input.Commit(n);
    }

    /** The branch in which there is room: the input is used up and the samples are queued. */
    method TakeFrame(frame: Frame)
      requires Valid() && GoodFrame(frame, input.buffer.filledSize) && |frame.pcm| <= player.output.buffer.nonFilledSize
      modifies this, input, input.buffer, player.output.buffer, player.output.buffer.mem
      ensures Valid() && calls == old(calls) && waitingForPlay == old(waitingForPlay)
      ensures input.Model() == Committed(input.Bounds(), old(input.Model()), frame.frameBytes)
      ensures var was := old(player.output.Model());
              player.output.Model() == was.(bytes := was.bytes + frame.pcm)
      ensures committed == old(committed) + old(input.Model()).bytes[..frame.frameBytes]
      ensures written == old(written) + frame.pcm
      ensures input.buffer.nonFilledStart == old(input.buffer.nonFilledStart)
      ensures input.buffer.nonFilledSize >= old(input.buffer.nonFilledSize)
    {
      hide Committed;
      UseUp(frame.frameBytes);
      if frame.samples != 0 {
        player.output.MemcpyIn(frame.pcm);
      }
      written := written + frame.pcm;
    }

    /** `decode_next_inner`. */
    method DecodeNextInner()
      requires Valid() && input.buffer.filledSize > 0
      modifies this, input, input.buffer, player, player.output, player.output.buffer, player.output.buffer.mem
      ensures Valid() && calls == old(calls) + 1
      ensures GoodFrame(library(old(calls), old(input.Model()).bytes), |old(input.Model()).bytes|)
      ensures Model() == DecodeFrame(input.Bounds(), old(Model()), library(old(calls), old(input.Model()).bytes))
      ensures input.buffer.nonFilledStart == old(input.buffer.nonFilledStart)
      ensures input.buffer.nonFilledSize >= old(input.buffer.nonFilledSize)
    {
      hide ClientModel.StoreFrame;
      var inputBuf := input.buffer.PeekLinearSpan(input.buffer.filledSize);
      assert input.buffer.mem[inputBuf.start..inputBuf.start + inputBuf.len] == input.Model().bytes;
      var frame := library(calls, input.buffer.mem[inputBuf.start..inputBuf.start + inputBuf.len]);
      assert GoodFrame(frame, input.buffer.filledSize);
      calls := calls + 1;
      if frame.frameBytes > 0 {
        StoreFrame(frame);
      }
      if frame.samples != 0 && player.output.buffer.filledSize >= player.output.buffer.lowWatermark {
        if !player.started {
          player.Start();
        }
      }
    }

    /** The started device calls back, asking for `len` bytes. */
    method RunCallback(len: nat, ghost c: Client)
      requires Valid() && c.stream == Model() && player.started && len > 0
      modifies player, player.output, player.output.buffer
      ensures Valid() && Enabled(input.Bounds(), c, Audio(len))
      ensures c.(stream := Model()) == Apply(input.Bounds(), c, Audio(len))
    {
      hide Committed;
      var stream := new byte[len];
      player.Callback(stream);
      assert Model() == PlayAudio(input.Bounds(), c.stream, len);
    }

    /** The device is served as long as it asks for something of the slot. */
    method RunCallbacks(lens: seq<nat>, ghost c: Client, ghost w: World) returns (ghost es: seq<Event>, ghost v: World)
      requires Valid() && c.stream == Model() && lens == Slot(w.sdl)
      modifies player, player.output, player.output.buffer
      ensures Valid() && Handles(input.Bounds(), library, c, w, es, c.(stream := Model()), v)
      ensures Asks(player.started, Slot(v.sdl)) == [] && Later(v.sdl) == Later(w.sdl) && v.calls == w.calls
      decreases |lens|
    {
      var asks := Asks(player.started, lens);
      if asks == [] {
        es, v := [], w;
        HandlesNothing(input.Bounds(), library, c, w);
      } else {
        hide Handles, Apply, Enabled, Asks;
        RunCallback(asks[0], c);
        ghost var d, u := c.(stream := Model()), w.(sdl := [asks[1..]] + Later(w.sdl));
        HandlesOne(input.Bounds(), library, c, w, Audio(asks[0]));
        es, v := RunCallbacks(asks[1..], d, u);
        HandlesAppend(input.Bounds(), library, c, w, [Audio(asks[0])], d, u, es, c.(stream := Model()), v);
        es := [Audio(asks[0])] + es;
      }
    }

    /** The body of the loop, with the callbacks the device makes between its test and the decoding. */
    method DecodeOne(sdl: seq<seq<nat>>, ghost c: Client) returns (ghost es: seq<Event>)
      requires Valid() && c.stream == Model() && c.pc.Decoding? && input.buffer.filledSize > 0
      modifies this, input, input.buffer, player, player.output, player.output.buffer, player.output.buffer.mem
      ensures Valid() && calls == old(calls) + 1
      ensures var pc := if waitingForPlay then Left(c.pc.inHandler) else Testing(c.pc.inHandler);
              Handles(input.Bounds(), library, c, World(sdl, old(calls)), es, c.(stream := Model(), pc := pc),
                      World(Later(sdl), calls))
      ensures input.buffer.nonFilledStart == old(input.buffer.nonFilledStart)
      ensures input.buffer.nonFilledSize >= old(input.buffer.nonFilledSize)
      ensures waitingForPlay || input.buffer.filledSize < old(input.buffer.filledSize)
    {
      hide DecodeFrame, Handles, Asks;
      ghost var l, w := input.Bounds(), World(sdl, calls);
      ghost var v;
      es, v := RunCallbacks(Slot(sdl), c, w);
      ghost var s := Model();
      ghost var f := library(calls, s.input.bytes);
      DecodeNextInner();
      HandlesMore(l, library, c, w, es, c.(stream := s), v, Decode(f));
      es := es + [Decode(f)];
      FrameShrinksInput(l, s, f);
    }

    /**
     One iteration of the loop of `decode_next`; `again` says whether the loop goes on. It goes on
     unless the input is used up, the output has reached the high watermark, or a frame found no room.
     */
    method Iterate(sdl: seq<seq<nat>>, ghost c: Client)
      returns (again: bool, later: seq<seq<nat>>, ghost es: seq<Event>)
      requires Valid() && c.stream == Model() && c.pc.Testing?
      modifies this, input, input.buffer, player, player.output, player.output.buffer, player.output.buffer.mem
      ensures Valid()
      ensures var d := c.(stream := Model(), pc := if again then c.pc else Left(c.pc.inHandler));
              Handles(input.Bounds(), library, c, World(sdl, old(calls)), es, d, World(later, calls))
      ensures input.buffer.nonFilledStart == old(input.buffer.nonFilledStart)
      ensures input.buffer.nonFilledSize >= old(input.buffer.nonFilledSize)
      ensures again ==> input.buffer.filledSize < old(input.buffer.filledSize) && !waitingForPlay
      ensures !again ==> IsDone()
    {
      hide DrainChan, DecodeFrame, PlayAudio, Committed, Handles, Asks;
      ghost var l, w := input.Bounds(), World(sdl, calls);
      ghost var v;
      es, v := RunCallbacks(Slot(sdl), c, w);
      ghost var d := c.(stream := Model());
      HandlesMore(l, library, c, w, es, d, v, Test);
      es := es + [Test];
      d := Apply(l, d, Test);
      later := Later(sdl);
      v := World(later, calls);
      again := input.buffer.filledSize > 0 && player.output.buffer.filledSize < player.output.buffer.highWatermark;
      if again {
        ghost var fs := DecodeOne(later, d);
        again := !waitingForPlay;
        later := Later(later);
        ghost var e := c.(stream := Model(), pc := if again then c.pc else Left(c.pc.inHandler));
        HandlesAppend(l, library, c, w, es, d, v, fs, e, World(later, calls));
        es := es + fs;
      }
    }

    /** `decode_next` has no more to do. */
    predicate IsDone()
      reads this, input, input.buffer, player, player.output, player.output.buffer
    {
      || waitingForPlay
      || input.buffer.filledSize == 0
      || player.output.buffer.filledSize >= player.output.buffer.highWatermark
    }

    /** `decode_next`, with what the device does meanwhile; `later` is what of `sdl` is still to come. */
    method DecodeNext(sdl: seq<seq<nat>>, ghost c: Client) returns (later: seq<seq<nat>>, ghost es: seq<Event>)
      requires Valid() && c.stream == Model() && c.pc.Entering?
      modifies this, input, input.buffer, player, player.output, player.output.buffer, player.output.buffer.mem
      ensures Valid() && IsDone()
      ensures Handles(input.Bounds(), library, c, World(sdl, old(calls)), es,
                      c.(stream := Model(), pc := Left(c.pc.inHandler)), World(later, calls))
      ensures old(waitingForPlay) ==> es == [Enter]
      ensures input.buffer.nonFilledStart == old(input.buffer.nonFilledStart)
      ensures input.buffer.nonFilledSize >= old(input.buffer.nonFilledSize)
    {
      hide Handles;
      ghost var l, w := input.Bounds(), World(sdl, calls);
      later, es := sdl, [Enter];
      HandlesOne(l, library, c, w, Enter);
      var again := !waitingForPlay;
      while again
        invariant Valid()
        invariant var pc := if again then Testing(c.pc.inHandler) else Left(c.pc.inHandler);
                  Handles(l, library, c, w, es, c.(stream := Model(), pc := pc), World(later, calls))
        invariant old(waitingForPlay) ==> es == [Enter] && !again
        invariant !again ==> IsDone()
        invariant input.buffer.nonFilledStart == old(input.buffer.nonFilledStart)
        invariant input.buffer.nonFilledSize >= old(input.buffer.nonFilledSize)
        decreases again, input.buffer.filledSize
      {
        hide Apply, Enabled;
        ghost var d, v := c.(stream := Model(), pc := Testing(c.pc.inHandler)), World(later, calls);
        ghost var fs;
        again, later, fs := Iterate(later, d);
        ghost var e := c.(stream := Model(), pc := if again then d.pc else Left(c.pc.inHandler));
        HandlesAppend(l, library, c, w, es, d, v, fs, e, World(later, calls));
        es := es + fs;
      }
    }
  }

  lemma FrameShrinksInput(l: Limits, s: Stream, f: Frame)
    requires Fits(l, s) && GoodFrame(f, |s.input.bytes|)
    ensures var t := DecodeFrame(l, s, f);
            t.waiting || |t.input.bytes| < |s.input.bytes|
  {
  }

  lemma SameCapacity(a: nat, b: nat, p: nat, n: nat)
    requires p > 0 && IsLeastMultiple(a, p, n) && IsLeastMultiple(b, p, n)
    ensures a == b
  {
  }
}
