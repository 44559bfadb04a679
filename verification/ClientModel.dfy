/**
 The client as a machine that takes atomic steps: the handlers of its io thread, cut where an audio
 callback can come between, and the audio callbacks.
 */
module ClientModel {
  import opened Bytes
  import opened Channels
  import opened Framing
  import opened Codecs

  const MAX_SAMPLES: nat := 1152

  /** The most PCM one frame decodes to: stereo samples of four bytes. */
  const MAX_FRAME: nat := 2 * MAX_SAMPLES * 4

  /** What decoding at the front of the input yields: the bytes it used up and the samples. */
  datatype Frame = Frame(frameBytes: nat, samples: nat, pcm: seq<byte>)

  /** What the MP3 library promises when it is given `n` bytes. */
  predicate GoodFrame(f: Frame, n: nat) {
    1 <= f.frameBytes <= n && f.samples <= MAX_SAMPLES && |f.pcm| == 2 * f.samples * 4
  }

  /**
   The decoding stream and its player. `decodePosts` counts the posted calls of `decode_next`.
   The last three fields are histories: the input used up, the PCM decoded, and the PCM played.
   */
  datatype Stream = Stream(
    input: Chan, output: Chan, started: bool, waiting: bool, decodePosts: nat,
    committed: seq<byte>, written: seq<byte>, played: seq<byte>)

  const RESUME_RECEIVE: Waiter := Waiter(0, 1)

  function ResumeDecode(size: nat): Waiter {
    Waiter(1, size)
  }

  ghost predicate Fits(l: Limits, s: Stream) {
    |s.input.bytes| <= l.size && |s.output.bytes| <= l.size
  }

  /** What `decode_next_inner` does with a frame: takes it if there is room, or waits for room. */
  function StoreFrame(l: Limits, s: Stream, f: Frame): (t: Stream)
    requires Fits(l, s) && GoodFrame(f, |s.input.bytes|)
    ensures Fits(l, t)
  {
    if |f.pcm| > l.size - |s.output.bytes| then
      s.(waiting := true, output := s.output.(waiters := s.output.waiters + [ResumeDecode(|f.pcm|)]))
    else
      s.(input := Committed(l, s.input, f.frameBytes), committed := s.committed + s.input.bytes[..f.frameBytes],
         output := s.output.(bytes := s.output.bytes + f.pcm), written := s.written + f.pcm)
  }

  /** `decode_next_inner`. */
  function DecodeFrame(l: Limits, s: Stream, f: Frame): Stream
    requires Fits(l, s) && GoodFrame(f, |s.input.bytes|)
  {
    var t := StoreFrame(l, s, f);
    if f.samples > 0 && |t.output.bytes| >= l.low then t.(started := true) else t
  }

  /** `Player::callback` asked for `len` bytes. */
  function PlayAudio(l: Limits, s: Stream, len: nat): Stream
    requires Fits(l, s)
  {
    var ready := |s.output.bytes|;
    if ready == 0 then
      s.(started := false)
    else
      var n := if len > ready then ready else len;
      var t := s.(output := Committed(l, s.output, n), played := s.played + s.output.bytes[..n]);
      if |t.output.bytes| < l.low then t.(decodePosts := t.decodePosts + 1) else t
  }

  /** Where the io thread is. A flag tells a decode inside the read handler from a posted one. */
  datatype Pc =
    | Idle
    | Parsing
    | Entering(inHandler: bool)
    | Testing(inHandler: bool)
    | Decoding(inHandler: bool)
    | Mp3Done
    | Receiving

  function Left(inHandler: bool): Pc {
    if inHandler then Mp3Done else Idle
  }

  datatype Reading = NoRead | ReadInto(room: nat)

  datatype Client = Client(stream: Stream, mode: Mode, times: seq<Payload>, reading: Reading, closed: bool, pc: Pc)

  predicate IsMp3(m: Mode) {
    m.HaveEnvelope? && m.envelope.messageType == 2
  }

  datatype Event =
    | Arrive(bytes: seq<byte>) // the outstanding read completes
    | Fail // the outstanding read ends in an error, such as the end of the stream
    | RunDecode // a posted `decode_next` starts
    | RunResume // a fired `receive` callback starts
    | ResumeInside // a fired `receive` runs inside the handler whose commit fired it
    | RunUnblock // a fired callback of the output channel starts
    | Parse // the decoder takes what it can from the input
    | Enter // `decode_next` looks at `waiting_for_play_`
    | Test // the condition of its loop
    | Decode(f: Frame) // the body of its loop
    | FinishMp3 // the decoder looks whether the file is complete
    | Receive // `receive` starts a read or parks
    | Audio(len: nat) // the audio device asks for samples

  ghost predicate Enabled(l: Limits, c: Client, e: Event) {
    && Fits(l, c.stream)
    && match e
       case Arrive(b) => c.pc.Idle? && c.reading.ReadInto? && 1 <= |b| <= c.reading.room
       case Fail => c.pc.Idle? && c.reading.ReadInto?
       case RunDecode => c.pc.Idle? && c.stream.decodePosts > 0
       case RunResume => c.pc.Idle? && c.stream.input.posted != []
       case ResumeInside => c.stream.input.posted != []
       case RunUnblock => c.pc.Idle? && c.stream.output.posted != []
       case Parse => c.pc.Parsing?
       case Enter => c.pc.Entering?
       case Test => c.pc.Testing?
       case Decode(f) => c.pc.Decoding? && GoodFrame(f, |c.stream.input.bytes|)
       case FinishMp3 => c.pc.Mp3Done? && c.mode.HaveEnvelope?
       case Receive => c.pc.Receiving?
       case Audio(len) => c.stream.started && len > 0
  }

  /** `receive`: starts a read, or parks when there is no room. */
  ghost function Listen(l: Limits, c: Client): Client
    requires Fits(l, c.stream)
  {
    var s := c.stream;
    if |s.input.bytes| == l.size then
      c.(stream := s.(input := s.input.(waiters := s.input.waiters + [RESUME_RECEIVE])))
    else
      c.(reading := ReadInto(l.size - |s.input.bytes|))
  }

  ghost function Apply(l: Limits, c: Client, e: Event): Client
    requires Enabled(l, c, e)
  {
    var s := c.stream;
    match e
    case Arrive(b) =>
      c.(stream := s.(input := s.input.(bytes := s.input.bytes + b)), reading := NoRead, pc := Parsing)
    case Fail => c.(reading := NoRead, closed := true)
    case RunDecode => c.(stream := s.(decodePosts := s.decodePosts - 1), pc := Entering(false))
    case RunResume => c.(stream := s.(input := s.input.(posted := s.input.posted[1..])), pc := Receiving)
    case ResumeInside => Listen(l, c.(stream := s.(input := s.input.(posted := s.input.posted[1..]))))
    case RunUnblock =>
      c.(stream := s.(waiting := false, output := s.output.(posted := s.output.posted[1..])), pc := Entering(false))
    case Parse =>
      var r := DrainChan(l, 1, c.mode, s.input);
      Client(s.(input := r.ch), r.mode, c.times + r.delivered, c.reading, c.closed,
             if IsMp3(r.mode) then Entering(true) else Receiving)
    case Enter => c.(pc := if s.waiting then Left(c.pc.inHandler) else Testing(c.pc.inHandler))
    case Test =>
      var go := |s.input.bytes| > 0 && |s.output.bytes| < l.high;
      c.(pc := if go then Decoding(c.pc.inHandler) else Left(c.pc.inHandler))
    case Decode(f) =>
      var t := DecodeFrame(l, s, f);
      c.(stream := t, pc := if t.waiting then Left(c.pc.inHandler) else Testing(c.pc.inHandler))
    case FinishMp3 =>
      if |s.input.bytes| >= ToSizeT(c.mode.envelope.messageSize) then
        c.(mode := BeforeEnvelope, pc := Parsing)
      else
        c.(pc := Receiving)
    case Receive => Listen(l, c).(pc := Idle)
    case Audio(len) => c.(stream := PlayAudio(l, s, len))
  }

  /** A client that is about to call `receive` for the first time. */
  function Start(): Client {
    var none := Chan([], [], []);
    Client(Stream(none, none, false, false, 0, [], [], []), BeforeEnvelope, [], NoRead, false, Receiving)
  }

  ghost predicate IsRun(l: Limits, c: Client, es: seq<Event>)
    decreases |es|
  {
    es != [] ==> Enabled(l, c, es[0]) && IsRun(l, Apply(l, c, es[0]), es[1..])
  }

  ghost function After(l: Limits, c: Client, es: seq<Event>): Client
    requires IsRun(l, c, es)
    decreases |es|
  {
    if es == [] then c else After(l, Apply(l, c, es[0]), es[1..])
  }

  lemma {:induction false} RunAppend(l: Limits, c: Client, es: seq<Event>, fs: seq<Event>)
    requires IsRun(l, c, es) && IsRun(l, After(l, c, es), fs)
    ensures IsRun(l, c, es + fs) && After(l, c, es + fs) == After(l, After(l, c, es), fs)
    decreases |es|
  {
    if es == [] {
      assert es + fs == fs;
    } else {
      assert (es + fs)[0] == es[0] && (es + fs)[1..] == es[1..] + fs;
      RunAppend(l, Apply(l, c, es[0]), es[1..], fs);
    }
  }

  // Runs in which the network has no part.

  predicate IsLocal(e: Event) {
    !e.Arrive? && !e.Fail?
  }

  /** The client gets from `c` to `d` by the steps `es` of its own. */
  ghost predicate LocalRun(l: Limits, c: Client, es: seq<Event>, d: Client) {
    IsRun(l, c, es) && After(l, c, es) == d && forall e :: e in es ==> IsLocal(e)
  }

  lemma LocalAppend(l: Limits, c: Client, es: seq<Event>, d: Client, fs: seq<Event>, e: Client)
    requires LocalRun(l, c, es, d) && LocalRun(l, d, fs, e)
    ensures LocalRun(l, c, es + fs, e)
  {
    RunAppend(l, c, es, fs);
  }

  lemma LocalStep(l: Limits, c: Client, e: Event)
    requires Enabled(l, c, e) && IsLocal(e)
    ensures LocalRun(l, c, [e], Apply(l, c, e))
  {
    assert [e][1..] == [];
  }

  lemma LocalExtend(l: Limits, c: Client, es: seq<Event>, d: Client, e: Event)
    requires LocalRun(l, c, es, d) && Enabled(l, d, e) && IsLocal(e)
    ensures LocalRun(l, c, es + [e], Apply(l, d, e))
  {
    LocalStep(l, d, e);
    LocalAppend(l, c, es, d, [e], Apply(l, d, e));
  }

  lemma SameFirstStep(l: Limits, c: Client, d: Client, es: seq<Event>, e: Client)
    requires LocalRun(l, d, es, e) && es != []
    requires Enabled(l, c, es[0]) && Apply(l, c, es[0]) == Apply(l, d, es[0])
    ensures LocalRun(l, c, es, e)
  {
  }
}
