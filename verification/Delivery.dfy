/** The main results about whole sessions, for every way the bytes are cut and the steps interleave. */
module Delivery {
  import opened Bytes
  import opened Channels
  import opened Framing
  import opened Codecs
  import opened ClientModel
  import opened ClientSafety
  import opened Session

  /** How much of the file the server has handed to the socket. */
  function FileSent(o: Offer, server: Server): (n: nat)
    requires server.SendingFile? ==> server.cur <= |o.file|
    ensures n <= |o.file|
  {
    match server
    case SendingFile(cur) => cur
    case Finished => |o.file|
    case _ => 0
  }

  /**
   The time string is delivered at most once and as it was sent. Inside the file, what was decoded,
   what is queued and what is on the way add up to what was sent; outside it nothing was decoded.
   */
  lemma StreamPreserved(l: Limits, o: Offer, acts: seq<Action>)
    requires Playable(l, o) && IsSession(l, o, Begin(o), acts)
    ensures var s := Outcome(l, o, Begin(o), acts);
            var c := s.client;
            && ServerInv(o, s.server)
            && (c.times == [] || c.times == [o.time])
            && (IsMp3(c.mode) ==>
                  && c.times == [o.time]
                  && c.stream.committed + c.stream.input.bytes + s.wire == o.file[..FileSent(o, s.server)])
            && (!IsMp3(c.mode) ==> c.stream.committed == [] && c.stream.played + c.stream.output.bytes == [])
  {
    BeginInv(l, o);
    SessionKeepsInv(l, o, Begin(o), acts);
    var s := Outcome(l, o, Begin(o), acts);
    Position(l, o, s);
    if IsMp3(s.client.mode) {
      FilePrefix(o, s);
    }
  }

  lemma FilePrefix(o: Offer, s: State)
    requires ServerInv(o, s.server) && s.client.stream.committed + Ahead(o, s) == o.file
    ensures var c := s.client;
            c.stream.committed + c.stream.input.bytes + s.wire == o.file[..FileSent(o, s.server)]
  {
    var x := s.client.stream.committed + s.client.stream.input.bytes + s.wire;
    var u := Unsent(o, s.server);
    assert x + u == o.file by {
      Regroup([], [], s.client.stream.committed + s.client.stream.input.bytes, s.wire, u);
      Regroup([], [], s.client.stream.committed, s.client.stream.input.bytes, s.wire + u);
    }
    assert |u| <= |o.file|;
    assert x == (x + u)[..|x|];
  }

  /** Once the file's envelope has been accepted, no later byte is ever taken for an envelope or a message. */
  lemma FileBytesAreNeverParsed(l: Limits, o: Offer, acts: seq<Action>, more: seq<Action>)
    requires Playable(l, o) && IsSession(l, o, Begin(o), acts)
    requires IsSession(l, o, Outcome(l, o, Begin(o), acts), more)
    ensures var c := Outcome(l, o, Begin(o), acts).client;
            var d := Outcome(l, o, Outcome(l, o, Begin(o), acts), more).client;
            IsMp3(c.mode) ==> d.mode == c.mode && d.times == c.times
  {
    BeginInv(l, o);
    SessionKeepsInv(l, o, Begin(o), acts);
    SessionKeepsInv(l, o, Outcome(l, o, Begin(o), acts), more);
    Position(l, o, Outcome(l, o, Begin(o), acts));
    Position(l, o, Outcome(l, o, Outcome(l, o, Begin(o), acts), more));
  }

  /** A parked receiver is inside the file, and something will take bytes off the ring: a decode or the device. */
  lemma ParkedReceiverIsServed(l: Limits, o: Offer, acts: seq<Action>)
    requires Playable(l, o) && IsSession(l, o, Begin(o), acts)
    ensures var c := Outcome(l, o, Begin(o), acts).client;
            c.stream.input.waiters != [] ==>
              && IsMp3(c.mode) && |c.stream.input.bytes| >= l.low
              && (DecodeRunning(c.pc) || c.stream.decodePosts > 0
                  || (c.stream.started && |c.stream.output.bytes| >= l.low))
  {
    BeginInv(l, o);
    SessionKeepsInv(l, o, Begin(o), acts);
  }

  // A session cannot get stuck, and it cannot go on for ever.

  ghost predicate NothingToDo(l: Limits, o: Offer, s: State) {
    forall a :: !CanDo(l, o, s, a)
  }

  /** While the client's io thread has work, it can do it. */
  lemma BusyCanStep(l: Limits, o: Offer, s: State)
    requires Sound(l) && ClientInv(l, s.client) && NothingToDo(l, o, s)
    ensures s.client.pc.Idle? && s.client.stream.decodePosts == 0 && !s.client.stream.started
    ensures s.client.stream.input.posted == []
  {
    assert !CanDo(l, o, s, Local(Parse));
    assert !CanDo(l, o, s, Local(Enter));
    assert !CanDo(l, o, s, Local(Test));
    assert !CanDo(l, o, s, Local(Decode(Frame(1, 0, []))));
    assert !CanDo(l, o, s, Local(FinishMp3));
    assert !CanDo(l, o, s, Local(Receive));
    assert !CanDo(l, o, s, Local(RunDecode));
    assert !CanDo(l, o, s, Local(RunResume));
    assert !CanDo(l, o, s, Local(Audio(1)));
  }

  predicate IsClients(a: Action) {
    (a.ReadSome? && a.n > 0) || a.Local?
  }

  /** A handler that runs can take its next step. */
  lemma HandlerGoesOn(l: Limits, o: Offer, s: State)
    requires ClientInv(l, s.client) && !s.client.pc.Idle?
    ensures exists a :: IsClients(a) && CanDo(l, o, s, a)
  {
    hide OneReceiver, NoStall, Drain, Accounting;
    var e := match s.client.pc {
      case Parsing => Parse
      case Entering(_) => Enter
      case Testing(_) => Test
      case Decoding(_) => Decode(Frame(1, 0, []))
      case Mp3Done => FinishMp3
      case _ => Receive
    };
    assert IsClients(Local(e)) && CanDo(l, o, s, Local(e));
  }

  /** Between handlers the client can read, unless it is parked behind its input, and then the device frees it. */
  lemma IdleGoesOn(l: Limits, o: Offer, s: State)
    requires Sound(l) && ClientInv(l, s.client) && Settled(s.client) && s.client.pc.Idle?
    requires !s.client.closed && s.wire != []
    ensures exists a :: IsClients(a) && CanDo(l, o, s, a)
  {
    hide Drain, Accounting, Stuck;
    var c := s.client;
    var a :=
      if c.reading.ReadInto? then ReadSome(1)
      else if c.stream.input.posted != [] then Local(RunResume)
      else if c.stream.decodePosts > 0 then Local(RunDecode)
      else Local(Audio(1));
    assert IsClients(a) && CanDo(l, o, s, a);
  }

  /**
   A full socket does not stop the client: as long as there is something on the wire, the client can
   take some of it or a step of its own. It cannot take steps of its own for ever, so a writer that
   waits for room gets it.
   */
  lemma BackPressureIsReleased(l: Limits, o: Offer, acts: seq<Action>)
    requires Playable(l, o) && IsSession(l, o, Begin(o), acts)
    ensures var s := Outcome(l, o, Begin(o), acts);
            s.wire != [] ==> exists a :: IsClients(a) && CanDo(l, o, s, a)
  {
    BeginInv(l, o);
    SessionKeepsInv(l, o, Begin(o), acts);
    var s := Outcome(l, o, Begin(o), acts);
    if s.wire != [] {
      if s.client.pc.Idle? {
        IdleGoesOn(l, o, s);
      } else {
        HandlerGoesOn(l, o, s);
      }
    }
  }

  /** The server always goes on, and a reader always gets bytes or the end of the stream. */
  lemma StreamEnds(l: Limits, o: Offer, s: State)
    requires Sound(l) && ClientInv(l, s.client) && Accounting(o, s) && NothingToDo(l, o, s) && s.client.pc.Idle?
    ensures s.server.Finished? && s.client.reading.NoRead?
  {
    assert !CanDo(l, o, s, WriteSome(0));
    assert !CanDo(l, o, s, SendChunk(0));
    assert !CanDo(l, o, s, ReadEnd);
    if s.wire != [] {
      assert !CanDo(l, o, s, ReadSome(1));
    }
  }

  lemma WholeStreamParsed(o: Offer)
    ensures Drain(1, BeforeEnvelope, Whole(o)) == Parsed([o.time], HaveEnvelope(Envelope(2, |o.file|)), o.file)
  {
    hide Drain;
    var p := Parsed([o.time], HaveEnvelope(Envelope(2, |o.file|)), o.file);
    assert EncodeAll(1, [o.time]) == EncodeMessage(1, o.time) by {
      assert [o.time][1..] == [];
    }
    Regroup([], [], EncodeMessage(1, o.time), FileEnvelope(o), o.file);
    assert Accounted(1, p) == Whole(o);
    DrainIsUnique(1, p, Whole(o));
  }

  /** The whole stream, if it is all there, cannot leave the decoder outside the file. */
  lemma WholeStreamReachesFile(o: Offer, times: seq<Payload>, m: Mode, rest: seq<byte>)
    requires EncodeAll(1, times) + Pending(m) + rest == Whole(o) && Stuck(1, m, rest)
    ensures IsMp3(m) && rest == o.file
  {
    hide Drain, Whole;
    DrainIsUnique(1, Parsed(times, m, rest), Whole(o));
    WholeStreamParsed(o);
  }

  /**
   When nothing is left to do, the connection has closed after the whole stream: the time was
   delivered, every byte of the file decoded, and of the sound less than the low watermark is unplayed.
   */
  lemma StuckMeansDelivered(l: Limits, o: Offer, acts: seq<Action>)
    requires Playable(l, o) && IsSession(l, o, Begin(o), acts) && NothingToDo(l, o, Outcome(l, o, Begin(o), acts))
    ensures var s := Outcome(l, o, Begin(o), acts);
            var c := s.client;
            && s.server.Finished? && s.wire == [] && c.closed
            && c.times == [o.time] && c.stream.committed == o.file && c.stream.input.bytes == []
            && c.stream.played + c.stream.output.bytes == c.stream.written
            && |c.stream.output.bytes| < l.low
  {
    BeginInv(l, o);
    SessionKeepsInv(l, o, Begin(o), acts);
    var s := Outcome(l, o, Begin(o), acts);
    BusyCanStep(l, o, s);
    StreamEnds(l, o, s);
    Position(l, o, s);
    var c := s.client;
    assert Receivers(c) == |c.stream.input.waiters|;
    assert c.closed; // a parked receiver means input in the ring, and input in the ring means work
    assert Ahead(o, s) == c.stream.input.bytes;
    if !IsMp3(c.mode) {
      WholeStreamReachesFile(o, c.times, c.mode, c.stream.input.bytes);
    }
    assert c.stream.input.bytes == [];
    assert c.stream.committed + [] == c.stream.committed;
  }

  // Every action but a blocked write brings the end nearer.

  function PcRank(pc: Pc): nat {
    match pc
    case Idle => 0
    case Receiving => 3
    case Mp3Done => 4
    case Decoding(_) => 5
    case Testing(_) => 6
    case Entering(_) => 7
    case Parsing => 8
  }

  const POST_WEIGHT: nat := 8
  const OUTPUT_WEIGHT: nat := 9
  const INPUT_WEIGHT: nat := 82949
  const WIRE_WEIGHT: nat := 82957
  const UNSENT_WEIGHT: nat := 82958

  /**
   Where the weights come from. The device may post a decode for a byte of output it plays; a byte of
   input may decode to a whole frame, start the device and wake the receiver; one byte that arrives
   sets the parser going.
   */
  lemma WeightsAreDerived()
    ensures OUTPUT_WEIGHT == POST_WEIGHT + 1
    ensures INPUT_WEIGHT == OUTPUT_WEIGHT * MAX_FRAME + 5
    ensures WIRE_WEIGHT == INPUT_WEIGHT + PcRank(Parsing)
    ensures UNSENT_WEIGHT == WIRE_WEIGHT + 1
  {
  }

  function ClientRank(c: Client): nat {
    var s := c.stream;
    INPUT_WEIGHT * |s.input.bytes| + OUTPUT_WEIGHT * |s.output.bytes| + POST_WEIGHT * s.decodePosts
    + 4 * |s.input.posted| + 2 * |s.input.waiters| + Count(s.started) + Count(c.reading.ReadInto?) + PcRank(c.pc)
  }

  function Rank(o: Offer, s: State): nat
    requires s.server.SendingFile? ==> s.server.cur <= |o.file|
  {
    UNSENT_WEIGHT * |Unsent(o, s.server)| + WIRE_WEIGHT * |s.wire| + ClientRank(s.client)
  }

  predicate Waits(a: Action) {
    (a.WriteSome? || a.SendChunk?) && a.n == 0
  }

  lemma DecodeLowersRank(l: Limits, c: Client, f: Frame)
    requires Sound(l) && ClientInv(l, c) && Enabled(l, c, Decode(f))
    ensures ClientRank(Apply(l, c, Decode(f))) < ClientRank(c)
  {
    hide Committed, Drain, DrainChan, PlayAudio;
    DecodeKeepsStreamInv(l, c.stream, f);
    OneWaiter(l, c.stream.input, f.frameBytes);
  }

  lemma AudioLowersRank(l: Limits, c: Client, len: nat)
    requires Sound(l) && ClientInv(l, c) && Enabled(l, c, Audio(len))
    ensures ClientRank(Apply(l, c, Audio(len))) < ClientRank(c)
  {
  }

  lemma LocalLowersRank(l: Limits, c: Client, e: Event)
    requires Sound(l) && ClientInv(l, c) && FileOpen(c) && Enabled(l, c, e) && !e.Arrive?
    ensures ClientRank(Apply(l, c, e)) < ClientRank(c)
  {
    match e
    case Parse => DrainChanDrains(l, 1, c.mode, c.stream.input);
    case Decode(f) => DecodeLowersRank(l, c, f);
    case Audio(len) => AudioLowersRank(l, c, len);
    case _ =>
  }

  lemma ActionLowersRank(l: Limits, o: Offer, s: State, a: Action)
    requires Playable(l, o) && SessionInv(l, o, s) && CanDo(l, o, s, a)
    ensures ServerInv(o, s.server) && ServerInv(o, Do(l, o, s, a).server)
    ensures Rank(o, Do(l, o, s, a)) <= Rank(o, s)
    ensures !Waits(a) ==> Rank(o, Do(l, o, s, a)) < Rank(o, s)
  {
    StepKeepsSession(l, o, s, a);
    if s.client.pc.Mp3Done? {
      FileNotComplete(l, o, s);
    }
    match a
    case WriteSome(n) => WriteKeepsAhead(l, o, s, n);
    case SendChunk(n) => SendKeepsAhead(l, o, s, n);
    case ReadSome(n) =>
    case ReadEnd => LocalLowersRank(l, s.client, Fail);
    case Local(e) => LocalLowersRank(l, s.client, e);
  }

  function CountWaits(acts: seq<Action>): nat
    decreases |acts|
  {
    if acts == [] then 0 else Count(Waits(acts[0])) + CountWaits(acts[1..])
  }

  /** A session takes at most so many actions besides the times its writer finds the socket full. */
  lemma {:induction false} SessionIsFinite(l: Limits, o: Offer, s: State, acts: seq<Action>)
    requires Playable(l, o) && SessionInv(l, o, s) && IsSession(l, o, s, acts)
    ensures ServerInv(o, s.server) && |acts| <= Rank(o, s) + CountWaits(acts)
    decreases |acts|
  {
    hide CanDo, Do, Rank;
    if acts != [] {
      ActionLowersRank(l, o, s, acts[0]);
      StepKeepsSession(l, o, s, acts[0]);
      SessionIsFinite(l, o, Do(l, o, s, acts[0]), acts[1..]);
    }
  }

  /** No session goes on for ever, whatever the network and the device do. */
  lemma EverySessionEnds(l: Limits, o: Offer, acts: seq<Action>)
    requires Playable(l, o) && IsSession(l, o, Begin(o), acts)
    ensures |acts| <= UNSENT_WEIGHT * |Whole(o)| + PcRank(Receiving) + CountWaits(acts)
    ensures UNSENT_WEIGHT == (POST_WEIGHT + 1) * MAX_FRAME + PcRank(Parsing) + 6
  {
    WeightsAreDerived();
    BeginInv(l, o);
    SessionIsFinite(l, o, Begin(o), acts);
    assert Unsent(o, Begin(o).server) == Whole(o);
  }

  // Nor can it be left with nothing but waiting to do, so it comes to an end.

  ghost predicate IsFinished(l: Limits, o: Offer, acts: seq<Action>) {
    IsSession(l, o, Begin(o), acts) && NothingToDo(l, o, Outcome(l, o, Begin(o), acts))
  }

  /** Where something can be done, something other than waiting can. */
  lemma MoreThanWaiting(l: Limits, o: Offer, s: State, a: Action)
    requires ServerInv(o, s.server) && CanDo(l, o, s, a)
    ensures exists b :: CanDo(l, o, s, b) && !Waits(b)
  {
    var b := if Waits(a) then if a.WriteSome? then WriteSome(1) else SendChunk(1) else a;
    assert CanDo(l, o, s, b) && !Waits(b);
  }

  lemma {:induction false} CanFinish(l: Limits, o: Offer, s: State) returns (more: seq<Action>)
    requires Playable(l, o) && SessionInv(l, o, s)
    ensures IsSession(l, o, s, more) && NothingToDo(l, o, Outcome(l, o, s, more))
    ensures CountWaits(more) == 0
    decreases Rank(o, s)
  {
    hide Do, CanDo, Rank;
    more := [];
    if a :| CanDo(l, o, s, a) {
      MoreThanWaiting(l, o, s, a);
      var b :| CanDo(l, o, s, b) && !Waits(b);
      ActionLowersRank(l, o, s, b);
      StepKeepsSession(l, o, s, b);
      var rest := CanFinish(l, o, Do(l, o, s, b));
      more := [b] + rest;
      assert more[1..] == rest;
    }
  }

  /** Wherever a session has come, it can go on to its end without waiting, and only so many steps further. */
  lemma EverySessionCanFinish(l: Limits, o: Offer, acts: seq<Action>)
    requires Playable(l, o) && IsSession(l, o, Begin(o), acts)
    ensures exists more :: IsFinished(l, o, acts + more) && CountWaits(more) == 0
  {
    BeginInv(l, o);
    SessionKeepsInv(l, o, Begin(o), acts);
    var more := CanFinish(l, o, Outcome(l, o, Begin(o), acts));
    SessionAppend(l, o, Begin(o), acts, more);
  }

  // A time string that does not fit the ring is never delivered, so the bound on it is exact.

  ghost predicate Choked(l: Limits, o: Offer, s: State) {
    && ClientInv(l, s.client) && Accounting(o, s) && SilentBefore(s.client)
    && s.client.times == [] && !IsMp3(s.client.mode)
  }

  /** What a full ring and an open envelope hold is less than the message. */
  lemma TooFewBytes(l: Limits, o: Offer, c: Client, d: Client)
    requires Taken(d) + d.stream.input.bytes == Taken(c) + c.stream.input.bytes
    requires c.times == [] && c.stream.committed == [] && |c.stream.input.bytes| <= l.size < |o.time|
    ensures d.times != [o.time]
  {
    assert |Taken(c) + c.stream.input.bytes| <= ENVELOPE_SIZE + l.size;
    assert EncodeAll(1, [o.time]) == EncodeMessage(1, o.time) + [] by {
      assert [o.time][1..] == [];
    }
  }

  lemma ParseDeliversNothing(l: Limits, o: Offer, s: State)
    requires Sound(l) && |o.time| > l.size && Choked(l, o, s) && CanDo(l, o, s, Local(Parse))
    ensures var t := Do(l, o, s, Local(Parse));
            Accounting(o, t) && t.client.times == [] && !IsMp3(t.client.mode)
  {
    hide Apply, Whole, ClientInv, Unsent;
    var c, t := s.client, Do(l, o, s, Local(Parse));
    var d := t.client;
    ParseKeepsTaken(l, c);
    SameTotal(o, s, t);
    Regroup([], EncodeAll(1, d.times), Pending(d.mode), d.stream.committed, Ahead(o, t));
    assert Taken(d) + Ahead(o, t) == EncodeAll(1, d.times) + Pending(d.mode) + (d.stream.committed + Ahead(o, t));
    WhereInStream(o, d.times, d.mode, d.stream.committed + Ahead(o, t));
    TooFewBytes(l, o, c, d);
  }

  lemma ParseStaysChoked(l: Limits, o: Offer, s: State)
    requires Sound(l) && |o.time| > l.size && Choked(l, o, s) && CanDo(l, o, s, Local(Parse))
    ensures Choked(l, o, Do(l, o, s, Local(Parse)))
  {
    hide DrainChan, ClientInv, Accounting;
    ParseDeliversNothing(l, o, s);
    StepKeepsInv(l, s.client, Parse);
  }

  lemma OtherStaysChoked(l: Limits, o: Offer, s: State, e: Event)
    requires Sound(l) && Choked(l, o, s) && CanDo(l, o, s, Local(e)) && !e.Parse?
    ensures Choked(l, o, Do(l, o, s, Local(e)))
  {
    hide Whole, Unsent, Drain, Committed, PlayAudio, ServerInv;
    StepKeepsInv(l, s.client, e);
  }

  lemma NetworkStaysChoked(l: Limits, o: Offer, s: State, a: Action)
    requires Sound(l) && o.file != [] && Choked(l, o, s) && CanDo(l, o, s, a) && !a.Local?
    ensures Choked(l, o, Do(l, o, s, a))
  {
    hide Whole, Unsent, Next, FileEnvelope, Ahead;
    match a
    case WriteSome(n) => WriteKeepsAhead(l, o, s, n);
    case SendChunk(n) => SendKeepsAhead(l, o, s, n);
    case ReadSome(n) =>
      ReadKeepsAhead(l, o, s, n);
      StepKeepsInv(l, s.client, Arrive(s.wire[..n]));
    case ReadEnd =>
      EndKeepsAll(l, o, s);
      StepKeepsInv(l, s.client, Fail);
  }

  lemma StepStaysChoked(l: Limits, o: Offer, s: State, a: Action)
    requires Sound(l) && o.file != [] && |o.time| > l.size && Choked(l, o, s) && CanDo(l, o, s, a)
    ensures Choked(l, o, Do(l, o, s, a))
  {
    hide Choked, CanDo, Do;
    if !a.Local? {
      NetworkStaysChoked(l, o, s, a);
    } else if a.e.Parse? {
      ParseStaysChoked(l, o, s);
    } else {
      OtherStaysChoked(l, o, s, a.e);
    }
  }

  lemma {:induction false} SessionStaysChoked(l: Limits, o: Offer, s: State, acts: seq<Action>)
    requires Sound(l) && o.file != [] && |o.time| > l.size && Choked(l, o, s) && IsSession(l, o, s, acts)
    ensures Choked(l, o, Outcome(l, o, s, acts))
    decreases |acts|
  {
    hide CanDo, Do, Choked;
    if acts != [] {
      StepStaysChoked(l, o, s, acts[0]);
      SessionStaysChoked(l, o, Do(l, o, s, acts[0]), acts[1..]);
    }
  }

  /** A session with nothing left to do has delivered the time and the file if and only if the time fits the ring. */
  lemma DeliversIffTimeFits(l: Limits, o: Offer, acts: seq<Action>)
    requires Sound(l) && o.file != [] && IsSession(l, o, Begin(o), acts)
    requires NothingToDo(l, o, Outcome(l, o, Begin(o), acts))
    ensures var c := Outcome(l, o, Begin(o), acts).client;
            c.times == [o.time] && c.stream.committed == o.file <==> |o.time| <= l.size
  {
    if |o.time| <= l.size {
      StuckMeansDelivered(l, o, acts);
    } else {
      StartInv(l);
      assert Taken(Start()) + Ahead(o, Begin(o)) == Whole(o);
      SessionStaysChoked(l, o, Begin(o), acts);
    }
  }

  // A session seen from the client is a run of the client, so what holds of every run holds of it.

  ghost function EventOf(s: State, a: Action): seq<Event>
    requires a.ReadSome? ==> a.n <= |s.wire|
  {
    match a
    case ReadSome(n) => [Arrive(s.wire[..n])]
    case ReadEnd => [Fail]
    case Local(e) => [e]
    case _ => []
  }

  ghost function ClientRun(l: Limits, o: Offer, s: State, acts: seq<Action>): seq<Event>
    requires IsSession(l, o, s, acts)
    decreases |acts|
  {
    if acts == [] then [] else EventOf(s, acts[0]) + ClientRun(l, o, Do(l, o, s, acts[0]), acts[1..])
  }

  lemma {:induction false} SessionIsClientRun(l: Limits, o: Offer, s: State, acts: seq<Action>)
    requires IsSession(l, o, s, acts)
    ensures IsRun(l, s.client, ClientRun(l, o, s, acts))
    ensures After(l, s.client, ClientRun(l, o, s, acts)) == Outcome(l, o, s, acts).client
    decreases |acts|
  {
    if acts != [] {
      var t := Do(l, o, s, acts[0]);
      SessionIsClientRun(l, o, t, acts[1..]);
      var first := EventOf(s, acts[0]);
      if first != [] {
        assert first[1..] == [];
        assert IsRun(l, s.client, first) && After(l, s.client, first) == t.client;
        RunAppend(l, s.client, first, ClientRun(l, o, t, acts[1..]));
      } else {
        assert [] + ClientRun(l, o, t, acts[1..]) == ClientRun(l, o, t, acts[1..]);
      }
    }
  }
}
