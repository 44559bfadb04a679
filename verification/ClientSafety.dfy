/** What every step of the client keeps, for any bytes that arrive and any frames they decode to. */
module ClientSafety {
  import opened Bytes
  import opened Channels
  import opened Framing
  import opened Codecs
  import opened ClientModel

  /** The watermarks leave room for one frame above the high one. */
  predicate Sound(l: Limits) {
    0 < l.low <= l.high && l.high - 1 + MAX_FRAME <= l.size
  }

  /** The watermarks of the client's channels suit any buffer of at least the size they ask for. */
  lemma ShippedLimitsAreSound(size: nat)
    requires size >= 65535
    ensures Sound(Limits(size, 20000, 40000))
  {
  }

  // Output never overflows, so nobody ever waits for room in it.

  ghost predicate OutputBounded(l: Limits, s: Stream) {
    |s.output.bytes| <= l.high - 1 + MAX_FRAME && !s.waiting && s.output.waiters == [] && s.output.posted == []
  }

  ghost predicate StoppedIsLow(l: Limits, s: Stream) {
    !s.started ==> |s.output.bytes| < l.low
  }

  ghost predicate PcmConserved(s: Stream) {
    s.played + s.output.bytes == s.written
  }

  /** The device is started only by sound that fills the output to the low watermark. */
  ghost predicate NothingPlayedEarly(l: Limits, s: Stream) {
    s.started || s.played != [] ==> |s.written| >= l.low
  }

  ghost predicate StreamInv(l: Limits, s: Stream) {
    && Fits(l, s) && OutputBounded(l, s) && StoppedIsLow(l, s) && PcmConserved(s) && NothingPlayedEarly(l, s)
    && (s.committed == [] ==> s.written == [])
  }

  // The receiver is in exactly one place.

  predicate InHandler(pc: Pc) {
    match pc
    case Idle => false
    case Entering(h) => h
    case Testing(h) => h
    case Decoding(h) => h
    case _ => true
  }

  function Count(b: bool): nat {
    if b then 1 else 0
  }

  function Receivers(c: Client): nat {
    |c.stream.input.waiters| + |c.stream.input.posted| + Count(c.reading.ReadInto?) + Count(InHandler(c.pc))
  }

  ghost predicate OneReceiver(c: Client) {
    && Receivers(c) == Count(!c.closed)
    && (c.stream.input.waiters != [] ==> c.stream.input.waiters == [RESUME_RECEIVE])
    && (c.stream.input.posted != [] ==> c.stream.input.posted == [RESUME_RECEIVE])
  }

  /** Parked means the ring is at least as full as the low watermark, so a later commit will wake it. */
  ghost predicate ParkedIsFull(l: Limits, c: Client) {
    c.stream.input.waiters != [] ==> |c.stream.input.bytes| >= l.low
  }

  /** The region handed to the outstanding read is still free. */
  ghost predicate ReadIsSafe(l: Limits, c: Client) {
    c.reading.ReadInto? ==> 1 <= c.reading.room <= l.size - |c.stream.input.bytes|
  }

  // Input never waits for a decode that nothing will start.

  ghost predicate DecodeRunning(pc: Pc) {
    pc.Parsing? || pc.Entering? || pc.Testing? || pc.Decoding?
  }

  ghost predicate NoStall(l: Limits, c: Client) {
    IsMp3(c.mode) && c.stream.input.bytes != [] ==>
      || DecodeRunning(c.pc)
      || c.stream.decodePosts > 0
      || (c.stream.started && |c.stream.output.bytes| >= l.low)
  }

  ghost predicate PcInv(l: Limits, c: Client) {
    && (c.pc.Decoding? ==> c.stream.input.bytes != [] && |c.stream.output.bytes| < l.high)
    && (InHandler(c.pc) && (c.pc.Entering? || c.pc.Testing? || c.pc.Decoding? || c.pc.Mp3Done?) ==> IsMp3(c.mode))
  }

  ghost predicate ClientInv(l: Limits, c: Client) {
    && StreamInv(l, c.stream) && OneReceiver(c) && ParkedIsFull(l, c) && ReadIsSafe(l, c)
    && NoStall(l, c) && PcInv(l, c)
  }

  lemma StartInv(l: Limits)
    requires Sound(l)
    ensures ClientInv(l, Start())
  {
  }

  lemma DecodeKeepsStreamInv(l: Limits, s: Stream, f: Frame)
    requires Sound(l) && StreamInv(l, s) && GoodFrame(f, |s.input.bytes|) && |s.output.bytes| < l.high
    ensures StreamInv(l, DecodeFrame(l, s, f))
    ensures DecodeFrame(l, s, f).committed == s.committed + s.input.bytes[..f.frameBytes]
    ensures DecodeFrame(l, s, f).input == Committed(l, s.input, f.frameBytes)
    ensures DecodeFrame(l, s, f).written == s.written + f.pcm
  {
  }

  lemma AudioKeepsStreamInv(l: Limits, s: Stream, len: nat)
    requires Sound(l) && StreamInv(l, s) && s.started
    ensures StreamInv(l, PlayAudio(l, s, len))
  {
    var n := if len > |s.output.bytes| then |s.output.bytes| else len;
    assert s.output.bytes == s.output.bytes[..n] + s.output.bytes[n..];
  }

  lemma StepKeepsStreamInv(l: Limits, c: Client, e: Event)
    requires Sound(l) && ClientInv(l, c) && Enabled(l, c, e)
    ensures StreamInv(l, Apply(l, c, e).stream)
  {
    match e
    case Decode(f) => DecodeKeepsStreamInv(l, c.stream, f);
    case Audio(len) => AudioKeepsStreamInv(l, c.stream, len);
    case Parse => DrainChanDrains(l, 1, c.mode, c.stream.input);
    case _ =>
  }

  /** A commit either leaves the one waiter parked or fires it. */
  lemma OneWaiter(l: Limits, ch: Chan, n: nat)
    requires n <= |ch.bytes| <= l.size && 0 < l.low <= l.size
    ensures ch.waiters == [] ==> Committed(l, ch, n).waiters == [] && Committed(l, ch, n).posted == ch.posted
    ensures ch.waiters == [RESUME_RECEIVE] ==>
              var r := Committed(l, ch, n);
              if |r.bytes| < l.low then r.waiters == [] && r.posted == ch.posted + [RESUME_RECEIVE]
              else r.waiters == ch.waiters && r.posted == ch.posted
  {
    var room := l.size - |ch.bytes[n..]|;
    if ch.waiters == [RESUME_RECEIVE] {
      assert ch.waiters[..0] == [];
      assert Ready(ch.waiters[..0], room) == [] && NotReady(ch.waiters[..0], room) == [];
    }
  }

  lemma StepKeepsReceiver(l: Limits, c: Client, e: Event)
    requires Sound(l) && ClientInv(l, c) && Enabled(l, c, e)
    ensures OneReceiver(Apply(l, c, e)) && ParkedIsFull(l, Apply(l, c, e)) && ReadIsSafe(l, Apply(l, c, e))
  {
    hide DrainChan, Drain, Ready, NotReady;
    if e.Decode? {
      OneWaiter(l, c.stream.input, e.f.frameBytes);
    }
    if e.Parse? {
      DrainChanDrains(l, 1, c.mode, c.stream.input);
    }
  }

  lemma StepKeepsNoStall(l: Limits, c: Client, e: Event)
    requires Sound(l) && ClientInv(l, c) && Enabled(l, c, e)
    ensures NoStall(l, Apply(l, c, e)) && PcInv(l, Apply(l, c, e))
  {
    hide DrainChan, Drain, Ready, NotReady;
    if e.Parse? {
      DrainChanDrains(l, 1, c.mode, c.stream.input);
    }
  }

  lemma StepKeepsInv(l: Limits, c: Client, e: Event)
    requires Sound(l) && ClientInv(l, c) && Enabled(l, c, e)
    ensures ClientInv(l, Apply(l, c, e))
  {
    StepKeepsStreamInv(l, c, e);
    StepKeepsReceiver(l, c, e);
    StepKeepsNoStall(l, c, e);
  }

  lemma {:induction false} RunKeepsInv(l: Limits, c: Client, es: seq<Event>)
    requires Sound(l) && ClientInv(l, c) && IsRun(l, c, es)
    ensures ClientInv(l, After(l, c, es))
    decreases |es|
  {
    hide Apply, Enabled, ClientInv;
    if es != [] {
      StepKeepsInv(l, c, es[0]);
      RunKeepsInv(l, Apply(l, c, es[0]), es[1..]);
    }
  }

  // The main results, over every run from the start.

  function PcmOf(e: Event): seq<byte> {
    if e.Decode? then e.f.pcm else []
  }

  /** The PCM of the frames decoded in a run, in order. */
  function DecodedPcm(es: seq<Event>): seq<byte>
    decreases |es|
  {
    if es == [] then [] else PcmOf(es[0]) + DecodedPcm(es[1..])
  }

  lemma StepWrites(l: Limits, c: Client, e: Event)
    requires Sound(l) && ClientInv(l, c) && Enabled(l, c, e)
    ensures Apply(l, c, e).stream.written == c.stream.written + PcmOf(e)
  {
    if e.Decode? {
      DecodeKeepsStreamInv(l, c.stream, e.f);
    }
  }

  lemma {:induction false} WrittenIsDecoded(l: Limits, c: Client, es: seq<Event>)
    requires Sound(l) && ClientInv(l, c) && IsRun(l, c, es)
    ensures After(l, c, es).stream.written == c.stream.written + DecodedPcm(es)
    decreases |es|
  {
    hide Apply, Enabled, ClientInv, PcmOf;
    if es != [] {
      StepKeepsInv(l, c, es[0]);
      StepWrites(l, c, es[0]);
      WrittenIsDecoded(l, Apply(l, c, es[0]), es[1..]);
    }
  }

  /** What was played and what is still queued is exactly what was decoded, in order. */
  lemma PcmConservation(l: Limits, es: seq<Event>)
    requires Sound(l) && IsRun(l, Start(), es)
    ensures var s := After(l, Start(), es).stream;
            s.played + s.output.bytes == DecodedPcm(es)
  {
    StartInv(l);
    RunKeepsInv(l, Start(), es);
    WrittenIsDecoded(l, Start(), es);
  }

  /** The output never holds more than one frame above the high watermark, and no frame is ever refused. */
  lemma OutputNeverOverflows(l: Limits, es: seq<Event>)
    requires Sound(l) && IsRun(l, Start(), es)
    ensures var s := After(l, Start(), es).stream;
            |s.output.bytes| <= l.high - 1 + MAX_FRAME <= l.size && !s.waiting && s.output.waiters == []
  {
    StartInv(l);
    RunKeepsInv(l, Start(), es);
  }

  /** The device has been started if and only if enough was decoded to reach the low watermark; less stays queued. */
  lemma HeardIffLongEnough(l: Limits, es: seq<Event>)
    requires Sound(l) && IsRun(l, Start(), es)
    ensures var s := After(l, Start(), es).stream;
            && (s.started || s.played != [] <==> |DecodedPcm(es)| >= l.low)
            && (|DecodedPcm(es)| < l.low ==> s.output.bytes == DecodedPcm(es))
  {
    StartInv(l);
    RunKeepsInv(l, Start(), es);
    WrittenIsDecoded(l, Start(), es);
    var s := After(l, Start(), es).stream;
    assert s.played == [] ==> s.played + s.output.bytes == s.output.bytes;
  }

  lemma InputNeverStalls(l: Limits, es: seq<Event>)
    requires Sound(l) && IsRun(l, Start(), es)
    ensures NoStall(l, After(l, Start(), es)) && StoppedIsLow(l, After(l, Start(), es).stream)
  {
    StartInv(l);
    RunKeepsInv(l, Start(), es);
  }

  /** The receiver is reading, parked, posted or in its handler, exactly one of these, until the read fails. */
  lemma ReceiverNeverLost(l: Limits, es: seq<Event>)
    requires Sound(l) && IsRun(l, Start(), es)
    ensures var c := After(l, Start(), es);
            && Receivers(c) == Count(!c.closed)
            && (c.stream.input.waiters != [] ==> |c.stream.input.bytes| >= l.low)
            && (c.reading.ReadInto? ==> c.reading.room + |c.stream.input.bytes| <= l.size)
  {
    StartInv(l);
    RunKeepsInv(l, Start(), es);
  }
}
