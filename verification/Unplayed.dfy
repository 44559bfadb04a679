/** The sessions that leave sound unplayed: for which frames of a file there are any, and which sound it is. */
module Unplayed {
  import opened Bytes
  import opened Channels
  import opened Framing
  import opened Codecs
  import opened ClientModel
  import opened ClientSafety
  import opened Session
  import opened Delivery
  import opened Playback

  /** The session gets from `s` to `t` by `acts`, which decode `fs`. */
  ghost predicate Plays(l: Limits, o: Offer, s: State, acts: seq<Action>, fs: seq<Frame>, t: State) {
    Goes(l, o, s, acts, t) && FramesIn(acts) == fs
  }

  lemma PlaysOn(
    l: Limits, o: Offer, s: State, acts: seq<Action>, fs: seq<Frame>, t: State,
    more: seq<Action>, gs: seq<Frame>, u: State)
    requires Plays(l, o, s, acts, fs, t) && Plays(l, o, t, more, gs, u)
    ensures Plays(l, o, s, acts + more, fs + gs, u)
  {
    GoesFar(l, o, s, acts, t, more, u);
    FramesInAppend(acts, more);
  }

  lemma FramesInAppend(acts: seq<Action>, more: seq<Action>)
    ensures FramesIn(acts + more) == FramesIn(acts) + FramesIn(more)
    decreases |acts|
  {
    if acts == [] {
      assert acts + more == more;
    } else {
      assert (acts + more)[0] == acts[0] && (acts + more)[1..] == acts[1..] + more;
      FramesInAppend(acts[1..], more);
    }
  }

  lemma FramesInLocals(es: seq<Event>)
    ensures FramesIn(Locals(es)) == FramesOf(es)
  {
    if es != [] {
      FramesInLocals(es[1..]);
      assert ([Local(es[0])] + Locals(es[1..]))[1..] == Locals(es[1..]);
    }
  }

  // A client between two reads, with nothing left in its input.

  function AtRest(l: Limits, times: seq<Payload>, m: Mode, s: Stream): Client {
    Client(s, m, times, ReadInto(l.size), false, Idle)
  }

  function Silent(): Stream {
    Start().stream
  }

  /** Everything has been sent, and the client, which has decoded nothing yet, has read up to `wire`. */
  function Reading(l: Limits, wire: seq<byte>, times: seq<Payload>, m: Mode): State {
    State(Finished, wire, AtRest(l, times, m, Silent()))
  }

  function Sends(o: Offer): seq<Action> {
    [Local(Receive)] + ([WriteSome(|EncodeMessage(1, o.time)|)] +
                        ([WriteSome(ENVELOPE_SIZE)] + ([SendChunk(|o.file|)] + [])))
  }

  lemma FramesInSends(o: Offer)
    ensures FramesIn(Sends(o)) == []
  {
    var a, b := [WriteSome(|EncodeMessage(1, o.time)|)], [WriteSome(ENVELOPE_SIZE)];
    var c := [SendChunk(|o.file|)];
    FramesInAppend([Local(Receive)], a + (b + (c + [])));
    FramesInAppend(a, b + (c + []));
    FramesInAppend(b, c + []);
    FramesInAppend(c, []);
  }

  lemma ServerSends(l: Limits, o: Offer, c: Client)
    ensures Goes(l, o, State(SendingTime(EncodeMessage(1, o.time)), [], c),
                 [WriteSome(|EncodeMessage(1, o.time)|)] + ([WriteSome(ENVELOPE_SIZE)] + ([SendChunk(|o.file|)] + [])),
                 State(Finished, Whole(o), c))
  {
    var m, e, u := EncodeMessage(1, o.time), FileEnvelope(o), State(Finished, Whole(o), c);
    var s1, s2 := State(SendingTime(m), [], c), State(SendingEnvelope(e), m, c);
    var s3 := State(SendingFile(0), m + e, c);
    NothingDone(l, o, u);
    hide Goes, EncodeMessage, FileEnvelope;
    assert o.file[0..|o.file|] == o.file && m + e + o.file == Whole(o);
    GoesFirst(l, o, s3, SendChunk(|o.file|), u, [], u);
    assert e[..ENVELOPE_SIZE] == e && e[ENVELOPE_SIZE..] == [];
    GoesFirst(l, o, s2, WriteSome(ENVELOPE_SIZE), s3, [SendChunk(|o.file|)] + [], u);
    assert m[..|m|] == m && m[|m|..] == [] && [] + m == m;
    GoesFirst(l, o, s1, WriteSome(|m|), s2, [WriteSome(ENVELOPE_SIZE)] + ([SendChunk(|o.file|)] + []), u);
  }

  lemma SendsAll(l: Limits, o: Offer)
    requires Sound(l)
    ensures Plays(l, o, Begin(o), Sends(o), [], Reading(l, Whole(o), [], BeforeEnvelope))
  {
    hide Goes, EncodeMessage, Whole;
    var m, u := EncodeMessage(1, o.time), Reading(l, Whole(o), [], BeforeEnvelope);
    FramesInSends(o);
    ServerSends(l, o, u.client);
    GoesFirst(l, o, Begin(o), Local(Receive), State(SendingTime(m), [], u.client),
              [WriteSome(|m|)] + ([WriteSome(ENVELOPE_SIZE)] + ([SendChunk(|o.file|)] + [])), u);
  }

  /** What a client at rest has once `bytes` have come. */
  function Fed(c: Client, bytes: seq<byte>): Client {
    c.(stream := c.stream.(input := Chan(bytes, [], [])), reading := NoRead, pc := Parsing)
  }

  /** A read of `n` bytes, and what the client makes of it. */
  lemma Feeds(l: Limits, o: Offer, wire: seq<byte>, c: Client, n: nat, es: seq<Event>, d: Client)
    requires c.stream.input == Chan([], [], []) && c.reading == ReadInto(l.size) && c.pc.Idle? && Fits(l, c.stream)
    requires 1 <= n <= |wire| && n <= l.size && LocalRun(l, Fed(c, wire[..n]), es, d)
    ensures Plays(l, o, State(Finished, wire, c), [ReadSome(n)] + Locals(es), FramesOf(es),
                  State(Finished, wire[n..], d))
  {
    hide LocalRun, Goes;
    var s := State(Finished, wire, c);
    assert [] + wire[..n] == wire[..n];
    assert Do(l, o, s, ReadSome(n)) == State(Finished, wire[n..], Fed(c, wire[..n]));
    GoesThenLocal(l, o, s, ReadSome(n), es, d);
    FramesInAppend([ReadSome(n)], Locals(es));
    FramesInLocals(es);
    assert [] + FramesOf(es) == FramesOf(es);
  }

  // Up to the file.

  lemma ParsesMessage(l: Limits, bytes: seq<byte>, times: seq<Payload>, m: Mode, p: Parsed)
    requires Sound(l) && |bytes| <= l.size && p == Drain(1, m, bytes) && p.rest == [] && !IsMp3(p.mode)
    ensures LocalRun(l, Fed(AtRest(l, times, m, Silent()), bytes), [Parse, Receive],
                     AtRest(l, times + p.delivered, p.mode, Silent()))
  {
    var c := Fed(AtRest(l, times, m, Silent()), bytes);
    var d := AtRest(l, times + p.delivered, p.mode, Silent()).(reading := NoRead, pc := Receiving);
    DrainChanDrains(l, 1, m, c.stream.input);
    hide Drain, DrainChan, LocalRun;
    LocalStep(l, c, Parse);
    LocalExtend(l, c, [Parse], d, Receive);
    assert [Parse] + [Receive] == [Parse, Receive];
  }

  /** Reading bytes that the parser takes completely, outside the file. */
  lemma ReadsMessage(l: Limits, o: Offer, wire: seq<byte>, bytes: seq<byte>, later: seq<byte>, m: Mode, p: Parsed)
    returns (acts: seq<Action>)
    requires Sound(l) && wire == bytes + later && 1 <= |bytes| <= l.size
    requires p == Drain(1, m, bytes) && p.rest == [] && !IsMp3(p.mode)
    ensures Plays(l, o, Reading(l, wire, [], m), acts, [], Reading(l, later, p.delivered, p.mode))
  {
    hide LocalRun, Plays, Drain;
    assert wire[..|bytes|] == bytes && wire[|bytes|..] == later && [] + p.delivered == p.delivered;
    ParsesMessage(l, bytes, [], m, p);
    var es := [Parse, Receive];
    Feeds(l, o, wire, AtRest(l, [], m, Silent()), |bytes|, es, AtRest(l, p.delivered, p.mode, Silent()));
    assert es[1..] == [Receive] && es[1..][1..] == [] && FramesOf([Receive]) == [];
    acts := [ReadSome(|bytes|)] + Locals(es);
  }

  /** An envelope alone is taken and kept, unless its message is empty. */
  lemma TakesEnvelope(e: Envelope)
    requires e.messageType != 1 || e.messageSize > 0
    ensures Drain(1, BeforeEnvelope, EncodeEnvelope(e)) == Parsed([], HaveEnvelope(e), [])
  {
    hide Drain;
    assert [] + EncodeEnvelope(e) + [] == EncodeEnvelope(e);
    DrainIsUnique(1, Parsed([], HaveEnvelope(e), []), EncodeEnvelope(e));
  }

  lemma TakesPayload(t: Payload)
    requires t != []
    ensures Drain(1, HaveEnvelope(Envelope(1, |t|)), t) == Parsed([t], BeforeEnvelope, [])
  {
    assert t[..|t|] == t && t[|t|..] == [] && [t] + [] == [t];
  }

  lemma TakesEmptyMessage()
    ensures Drain(1, BeforeEnvelope, EncodeEnvelope(Envelope(1, 0))) == Parsed([[]], BeforeEnvelope, [])
  {
    hide Drain, EncodeEnvelope;
    var t: Payload := [];
    var p := Parsed([t], BeforeEnvelope, []);
    assert [t][1..] == [] && EncodeAll(1, [t]) == EncodeMessage(1, t) + EncodeAll(1, []);
    assert Accounted(1, p) == EncodeEnvelope(Envelope(1, 0));
    DrainIsUnique(1, p, EncodeEnvelope(Envelope(1, 0)));
  }

  /** The time is read in two pieces, as the ring need not hold its envelope with it. */
  lemma ReadsTime(l: Limits, o: Offer) returns (acts: seq<Action>)
    requires Playable(l, o)
    ensures Plays(l, o, Reading(l, Whole(o), [], BeforeEnvelope), acts, [],
                  Reading(l, FileEnvelope(o) + o.file, [o.time], BeforeEnvelope))
  {
    hide Drain, Plays, EncodeEnvelope;
    var e, later := EncodeEnvelope(Envelope(1, |o.time|)), FileEnvelope(o) + o.file;
    assert Whole(o) == e + (o.time + later);
    if o.time == [] {
      TakesEmptyMessage();
      assert o.time + later == later;
      acts := ReadsMessage(l, o, Whole(o), e, later, BeforeEnvelope, Parsed([o.time], BeforeEnvelope, []));
    } else {
      var m := HaveEnvelope(Envelope(1, |o.time|));
      TakesEnvelope(Envelope(1, |o.time|));
      acts := ReadsMessage(l, o, Whole(o), e, o.time + later, BeforeEnvelope, Parsed([], m, []));
      TakesPayload(o.time);
      var more := ReadsMessage(l, o, o.time + later, o.time, later, m, Parsed([o.time], BeforeEnvelope, []));
      PlaysOn(l, o, Reading(l, Whole(o), [], BeforeEnvelope), acts, [], Reading(l, o.time + later, [], m),
              more, [], Reading(l, later, [o.time], BeforeEnvelope));
      acts := acts + more;
    }
  }

  // In the file.

  /**
   In the file, with the first `n` bytes decoded, `played` played, `out` decoded but not played, and
   the device started or not.
   */
  function Between(l: Limits, o: Offer, n: nat, played: seq<byte>, out: seq<byte>, started: bool): Client
    requires n <= |o.file|
  {
    var s := Stream(Chan([], [], []), Chan(out, [], []), started, false, 0, o.file[..n], played + out, played);
    AtRest(l, [o.time], HaveEnvelope(Envelope(2, |o.file|)), s)
  }

  function Inside(l: Limits, o: Offer, n: nat, played: seq<byte>, out: seq<byte>, started: bool): State
    requires n <= |o.file|
  {
    State(Finished, o.file[n..], Between(l, o, n, played, out, started))
  }

  // How the read handler goes about a whole frame: what it does before the decoding, and after it.
  const FIRST: seq<Event> := [Parse, Enter, Test]
  const LAST: seq<Event> := [Test, FinishMp3, Receive]

  /** The end of a read handler that has used up its input. */
  lemma Leaves(l: Limits, o: Offer, n: nat, played: seq<byte>, out: seq<byte>, started: bool)
    requires Sound(l) && o.file != [] && n <= |o.file| && |out| <= l.size
    ensures var d := Between(l, o, n, played, out, started);
            LocalRun(l, d.(reading := NoRead, pc := Testing(true)), LAST, d)
  {
    hide LocalRun;
    var d := Between(l, o, n, played, out, started).(reading := NoRead);
    var c := d.(pc := Testing(true));
    LocalStep(l, c, Test);
    LocalExtend(l, c, [Test], d.(pc := Mp3Done), FinishMp3);
    assert [Test] + [FinishMp3] == [Test, FinishMp3];
    LocalExtend(l, c, [Test, FinishMp3], d.(pc := Receiving), Receive);
    assert [Test, FinishMp3] + [Receive] == [Test, FinishMp3, Receive];
  }

  lemma EntersFile(l: Limits, o: Offer)
    requires Sound(l) && o.file != []
    ensures LocalRun(l, Fed(AtRest(l, [o.time], BeforeEnvelope, Silent()), FileEnvelope(o)), [Parse, Enter],
                     Between(l, o, 0, [], [], false).(reading := NoRead, pc := Testing(true)))
  {
    var c := Fed(AtRest(l, [o.time], BeforeEnvelope, Silent()), FileEnvelope(o));
    var d := Between(l, o, 0, [], [], false).(reading := NoRead);
    TakesEnvelope(Envelope(2, |o.file|));
    hide Drain, DrainChan, LocalRun, EncodeEnvelope;
    DrainChanDrains(l, 1, BeforeEnvelope, c.stream.input);
    assert [o.time] + [] == [o.time];
    LocalStep(l, c, Parse);
    LocalExtend(l, c, [Parse], d.(pc := Entering(true)), Enter);
    assert [Parse] + [Enter] == [Parse, Enter];
  }

  lemma ReadsFileEnvelope(l: Limits, o: Offer) returns (acts: seq<Action>)
    requires Playable(l, o)
    ensures Plays(l, o, Reading(l, FileEnvelope(o) + o.file, [o.time], BeforeEnvelope), acts, [],
                  Inside(l, o, 0, [], [], false))
  {
    hide Plays, LocalRun, EncodeEnvelope;
    var wire := FileEnvelope(o) + o.file;
    var c, d := AtRest(l, [o.time], BeforeEnvelope, Silent()), Between(l, o, 0, [], [], false);
    assert wire[..ENVELOPE_SIZE] == FileEnvelope(o) && wire[ENVELOPE_SIZE..] == o.file == o.file[0..];
    EntersFile(l, o);
    Leaves(l, o, 0, [], [], false);
    var es := [Parse, Enter] + LAST;
    LocalAppend(l, Fed(c, FileEnvelope(o)), [Parse, Enter], d.(reading := NoRead, pc := Testing(true)),
                LAST, d);
    Feeds(l, o, wire, c, ENVELOPE_SIZE, es, d);
    NoFrames(es);
    acts := [ReadSome(ENVELOPE_SIZE)] + Locals(es);
  }

  lemma NoFrames(es: seq<Event>)
    requires forall e :: e in es ==> !e.Decode?
    ensures FramesOf(es) == []
  {
    if es != [] {
      NoFrames(es[1..]);
    }
  }

  /** The start of the handler for the bytes of one frame. */
  lemma FindsFrame(l: Limits, c: Client)
    requires Fits(l, c.stream) && c.pc.Parsing? && IsMp3(c.mode) && c.stream.input.bytes != []
    requires !c.stream.waiting && |c.stream.output.bytes| < l.high
    ensures LocalRun(l, c, FIRST, c.(pc := Decoding(true)))
  {
    hide LocalRun, Drain;
    assert c.times + [] == c.times;
    LocalStep(l, c, Parse);
    LocalExtend(l, c, [Parse], c.(pc := Entering(true)), Enter);
    LocalExtend(l, c, [Parse] + [Enter], c.(pc := Testing(true)), Test);
    assert [Parse] + [Enter] + [Test] == FIRST;
  }

  function Starts(l: Limits, out: seq<byte>, f: Frame): bool {
    f.samples > 0 && |out + f.pcm| >= l.low
  }

  lemma DecodesFrame(l: Limits, o: Offer, n: nat, played: seq<byte>, out: seq<byte>, started: bool, f: Frame)
    requires Sound(l) && |out| < l.low && GoodFrame(f, f.frameBytes) && f.frameBytes <= l.size
    requires n + f.frameBytes <= |o.file|
    ensures var c := Fed(Between(l, o, n, played, out, started), o.file[n..][..f.frameBytes]);
            var d := Between(l, o, n + f.frameBytes, played, out + f.pcm, started || Starts(l, out, f));
            LocalRun(l, c, FIRST + [Decode(f)], d.(reading := NoRead, pc := Testing(true)))
  {
    hide LocalRun, Ready, NotReady, Wake;
    var c := Fed(Between(l, o, n, played, out, started), o.file[n..][..f.frameBytes]);
    var d := Between(l, o, n + f.frameBytes, played, out + f.pcm, started || Starts(l, out, f));
    FindsFrame(l, c);
    OneWaiter(l, c.stream.input, f.frameBytes);
    assert o.file[..n] + o.file[n..][..f.frameBytes] == o.file[..n + f.frameBytes];
    assert played + out + f.pcm == played + (out + f.pcm);
    assert Apply(l, c.(pc := Decoding(true)), Decode(f)) == d.(reading := NoRead, pc := Testing(true));
    LocalExtend(l, c, FIRST, c.(pc := Decoding(true)), Decode(f));
  }

  lemma FramesOfHandler(f: Frame)
    ensures FramesOf(FIRST + [Decode(f)] + LAST) == [f]
  {
    NoFrames(FIRST);
    NoFrames(LAST);
    FramesAppend(FIRST, [Decode(f)]);
    FramesAppend(FIRST + [Decode(f)], LAST);
    assert [Decode(f)][1..] == [];
  }

  lemma ReadsFrame(l: Limits, o: Offer, n: nat, played: seq<byte>, out: seq<byte>, started: bool, f: Frame)
    returns (acts: seq<Action>)
    requires Sound(l) && |out| < l.low && GoodFrame(f, f.frameBytes) && f.frameBytes <= l.size
    requires n + f.frameBytes <= |o.file|
    ensures Plays(l, o, Inside(l, o, n, played, out, started), acts, [f],
                  Inside(l, o, n + f.frameBytes, played, out + f.pcm, started || Starts(l, out, f)))
  {
    hide Plays, LocalRun, Starts;
    var up, k := started || Starts(l, out, f), n + f.frameBytes;
    var c, d := Between(l, o, n, played, out, started), Between(l, o, k, played, out + f.pcm, up);
    var es := FIRST + [Decode(f)];
    DecodesFrame(l, o, n, played, out, started, f);
    Leaves(l, o, k, played, out + f.pcm, up);
    LocalAppend(l, Fed(c, o.file[n..][..f.frameBytes]), es, d.(reading := NoRead, pc := Testing(true)), LAST, d);
    FramesOfHandler(f);
    assert o.file[n..][f.frameBytes..] == o.file[k..];
    Feeds(l, o, o.file[n..], c, f.frameBytes, es + LAST, d);
    acts := [ReadSome(f.frameBytes)] + Locals(es + LAST);
  }

  lemma GoesLocally(l: Limits, o: Offer, s: State, es: seq<Event>, d: Client)
    requires LocalRun(l, s.client, es, d) && forall e :: e in es ==> !e.Decode?
    ensures Plays(l, o, s, Locals(es), [], s.(client := d))
  {
    LocalSession(l, o, s, es, d);
    FramesInLocals(es);
    NoFrames(es);
  }

  /** The device plays all there is; the decode it posts finds no input. */
  lemma PlaysOut(l: Limits, o: Offer, n: nat, played: seq<byte>, out: seq<byte>) returns (acts: seq<Action>)
    requires Sound(l) && n <= |o.file| && 0 < |out| <= l.size
    ensures Plays(l, o, Inside(l, o, n, played, out, true), acts, [], Inside(l, o, n, played + out, [], true))
  {
    hide LocalRun, Plays, Ready, NotReady;
    var c, d := Between(l, o, n, played, out, true), Between(l, o, n, played + out, [], true);
    var e := d.(stream := d.stream.(decodePosts := 1));
    assert out[..|out|] == out && out[|out|..] == [] && played + out + [] == played + out;
    OneWaiter(l, c.stream.output, |out|);
    assert Apply(l, c, Audio(|out|)) == e;
    LocalStep(l, c, Audio(|out|));
    LocalExtend(l, c, [Audio(|out|)], e, RunDecode);
    LocalExtend(l, c, [Audio(|out|)] + [RunDecode], d.(pc := Entering(false)), Enter);
    LocalExtend(l, c, [Audio(|out|)] + [RunDecode] + [Enter], d.(pc := Testing(false)), Test);
    var es := [Audio(|out|)] + [RunDecode] + [Enter] + [Test];
    GoesLocally(l, o, State(Finished, o.file[n..], c), es, d);
    acts := Locals(es);
  }

  /** Asked once more, the device finds nothing and is stopped. */
  lemma Stops(l: Limits, o: Offer, n: nat, played: seq<byte>) returns (acts: seq<Action>)
    requires Sound(l) && n <= |o.file|
    ensures Plays(l, o, Inside(l, o, n, played, [], true), acts, [], Inside(l, o, n, played, [], false))
  {
    var c, d := Between(l, o, n, played, [], true), Between(l, o, n, played, [], false);
    LocalStep(l, c, Audio(1));
    GoesLocally(l, o, State(Finished, o.file[n..], c), [Audio(1)], d);
    acts := Locals([Audio(1)]);
  }

  /** A device that always plays what there is: started since the sound reached the low watermark. */
  function Along(l: Limits, o: Offer, n: nat, sound: seq<byte>): State
    requires n <= |o.file|
  {
    if |sound| < l.low then Inside(l, o, n, [], sound, false) else Inside(l, o, n, sound, [], true)
  }

  lemma GoesAlong(l: Limits, o: Offer, n: nat, sound: seq<byte>, f: Frame) returns (acts: seq<Action>)
    requires Sound(l) && GoodFrame(f, f.frameBytes) && f.frameBytes <= l.size && n + f.frameBytes <= |o.file|
    ensures Plays(l, o, Along(l, o, n, sound), acts, [f], Along(l, o, n + f.frameBytes, sound + f.pcm))
  {
    hide Plays, Inside;
    var early := |sound| < l.low;
    var played, out := if early then [] else sound, if early then sound else [];
    var k, more := n + f.frameBytes, out + f.pcm;
    acts := ReadsFrame(l, o, n, played, out, !early, f);
    assert played + more == sound + f.pcm && (more == [] ==> played + more == played);
    assert early && |more| >= l.low ==> f.pcm != [] && more == sound + f.pcm;
    if |sound + f.pcm| >= l.low && more != [] {
      var rest := PlaysOut(l, o, k, played, more);
      PlaysOn(l, o, Along(l, o, n, sound), acts, [f], Inside(l, o, k, played, more, true), rest, [],
              Inside(l, o, k, sound + f.pcm, [], true));
      acts := acts + rest;
      assert [f] + [] == [f];
    }
  }

  lemma {:induction false} GoesAllAlong(l: Limits, o: Offer, n: nat, sound: seq<byte>, fs: seq<Frame>)
    returns (acts: seq<Action>)
    requires Sound(l) && AreFrames(l, fs) && n + BytesOfAll(fs) <= |o.file|
    ensures Plays(l, o, Along(l, o, n, sound), acts, fs, Along(l, o, n + BytesOfAll(fs), sound + PcmOfAll(fs)))
    decreases |fs|
  {
    hide Goes, Along;
    acts := [];
    if fs == [] {
      NothingDone(l, o, Along(l, o, n, sound));
      assert sound + [] == sound;
    } else {
      var k, now := n + fs[0].frameBytes, sound + fs[0].pcm;
      var one := GoesAlong(l, o, n, sound, fs[0]);
      var rest := GoesAllAlong(l, o, k, now, fs[1..]);
      assert now + PcmOfAll(fs[1..]) == sound + PcmOfAll(fs);
      PlaysOn(l, o, Along(l, o, n, sound), one, [fs[0]], Along(l, o, k, now), rest, fs[1..],
              Along(l, o, n + BytesOfAll(fs), sound + PcmOfAll(fs)));
      acts := one + rest;
    }
  }

  /** Too little sound to start the device. */
  lemma {:induction false} StaysQuiet(l: Limits, o: Offer, n: nat, played: seq<byte>, out: seq<byte>, fs: seq<Frame>)
    returns (acts: seq<Action>)
    requires Sound(l) && AreFrames(l, fs) && n + BytesOfAll(fs) <= |o.file| && |out| + |PcmOfAll(fs)| < l.low
    ensures Plays(l, o, Inside(l, o, n, played, out, false), acts, fs,
                  Inside(l, o, n + BytesOfAll(fs), played, out + PcmOfAll(fs), false))
    decreases |fs|
  {
    hide Goes, Inside;
    acts := [];
    if fs == [] {
      NothingDone(l, o, Inside(l, o, n, played, out, false));
      assert out + [] == out;
    } else {
      var k, now := n + fs[0].frameBytes, out + fs[0].pcm;
      var one := ReadsFrame(l, o, n, played, out, false, fs[0]);
      var rest := StaysQuiet(l, o, k, played, now, fs[1..]);
      assert now + PcmOfAll(fs[1..]) == out + PcmOfAll(fs);
      PlaysOn(l, o, Inside(l, o, n, played, out, false), one, [fs[0]], Inside(l, o, k, played, now, false),
              rest, fs[1..], Inside(l, o, n + BytesOfAll(fs), played, out + PcmOfAll(fs), false));
      acts := one + rest;
    }
  }

  lemma Closes(l: Limits, o: Offer, played: seq<byte>, out: seq<byte>) returns (t: State)
    requires Sound(l) && |out| <= l.size
    ensures var s := Inside(l, o, |o.file|, played, out, false);
            Plays(l, o, s, [ReadEnd], [], t) && NothingToDo(l, o, t) && t.client.stream.played == played
  {
    var s := Inside(l, o, |o.file|, played, out, false);
    OneDone(l, o, s, ReadEnd);
    assert FramesIn([ReadEnd]) == [] by {
      assert [ReadEnd][1..] == [];
    }
    t := Do(l, o, s, ReadEnd);
  }

  // The main results.

  /** The session ends, it decodes the frames `fs`, and of their sound `played` is played. */
  ghost predicate Ends(l: Limits, o: Offer, acts: seq<Action>, fs: seq<Frame>, played: seq<byte>) {
    IsFinished(l, o, acts) && FramesIn(acts) == fs && Played(l, o, acts) == played
  }

  lemma ReachesFile(l: Limits, o: Offer) returns (acts: seq<Action>)
    requires Playable(l, o)
    ensures Plays(l, o, Begin(o), acts, [], Inside(l, o, 0, [], [], false))
  {
    hide Plays, Inside, Reading, Whole;
    SendsAll(l, o);
    var s := Reading(l, Whole(o), [], BeforeEnvelope);
    var t := Reading(l, FileEnvelope(o) + o.file, [o.time], BeforeEnvelope);
    var a := ReadsTime(l, o);
    var b := ReadsFileEnvelope(l, o);
    PlaysOn(l, o, Begin(o), Sends(o), [], s, a, [], t);
    PlaysOn(l, o, Begin(o), Sends(o) + a, [], t, b, [], Inside(l, o, 0, [], [], false));
    acts := Sends(o) + a + b;
  }

  /** The device plays along with the first frames and is then stopped. */
  lemma PlaysFirst(l: Limits, o: Offer, gs: seq<Frame>) returns (acts: seq<Action>)
    requires Playable(l, o) && AreFrames(l, gs) && BytesOfAll(gs) <= |o.file|
    requires PcmOfAll(gs) == [] || |PcmOfAll(gs)| >= l.low
    ensures Plays(l, o, Begin(o), acts, gs, Inside(l, o, BytesOfAll(gs), PcmOfAll(gs), [], false))
  {
    hide Plays, Inside, BytesOfAll, AreFrames;
    var sound, n := PcmOfAll(gs), BytesOfAll(gs);
    acts := ReachesFile(l, o);
    var a := GoesAllAlong(l, o, 0, [], gs);
    assert [] + sound == sound && [] + gs == gs && gs + [] == gs;
    PlaysOn(l, o, Begin(o), acts, [], Along(l, o, 0, []), a, gs, Along(l, o, n, sound));
    acts := acts + a;
    if sound != [] {
      var b := Stops(l, o, n, sound);
      PlaysOn(l, o, Begin(o), acts, gs, Along(l, o, n, sound), b, [], Inside(l, o, n, sound, [], false));
      acts := acts + b;
    }
  }

  /** The device plays along with the first `k` frames, is stopped, and the others do not start it again. */
  lemma StopsAfter(l: Limits, o: Offer, fs: seq<Frame>, k: nat) returns (acts: seq<Action>)
    requires Playable(l, o) && IsFraming(l, o, fs) && CanStopAfter(l, fs, k)
    ensures Ends(l, o, acts, fs, PcmOfAll(fs[..k]))
  {
    hide Plays, Inside, NothingToDo, BytesOfAll, PcmOfAll;
    var gs, hs := fs[..k], fs[k..];
    var sound, n := PcmOfAll(gs), BytesOfAll(gs);
    assert fs == gs + hs && fs + [] == fs;
    BytesAppend(gs, hs);
    var s, t := Inside(l, o, n, sound, [], false), Inside(l, o, |o.file|, sound, [] + PcmOfAll(hs), false);
    var a := PlaysFirst(l, o, gs);
    var b := StaysQuiet(l, o, n, sound, [], hs);
    PlaysOn(l, o, Begin(o), a, gs, s, b, hs, t);
    var u := Closes(l, o, sound, [] + PcmOfAll(hs));
    PlaysOn(l, o, Begin(o), a + b, fs, t, [ReadEnd], [], u);
    acts := a + b + [ReadEnd];
    PlaysEnds(l, o, acts, fs, u);
  }

  lemma PlaysEnds(l: Limits, o: Offer, acts: seq<Action>, fs: seq<Frame>, t: State)
    requires Plays(l, o, Begin(o), acts, fs, t) && NothingToDo(l, o, t)
    ensures Ends(l, o, acts, fs, t.client.stream.played)
  {
  }

  /**
   What a file's sound can come to: a finished session can decode the frames `fs` and play `played` of
   them if and only if they make up the file and `played` is the sound of some first frames, at least
   the low watermark or nothing, after which comes less than the low watermark.
   */
  lemma WhatIsPlayed(l: Limits, o: Offer, fs: seq<Frame>, played: seq<byte>)
    requires Playable(l, o)
    ensures (exists acts :: Ends(l, o, acts, fs, played)) <==>
              IsFraming(l, o, fs) && exists k: nat :: CanStopAfter(l, fs, k) && played == PcmOfAll(fs[..k])
  {
    forall acts | Ends(l, o, acts, fs, played)
      ensures IsFraming(l, o, fs) && exists k: nat :: CanStopAfter(l, fs, k) && played == PcmOfAll(fs[..k])
    {
      PlaysWholeFrames(l, o, acts);
    }
    forall k: nat | IsFraming(l, o, fs) && CanStopAfter(l, fs, k) && played == PcmOfAll(fs[..k])
      ensures exists acts :: Ends(l, o, acts, fs, played)
    {
      var acts := StopsAfter(l, o, fs, k);
    }
  }

  /** How many frames there are before the last one that sounds. */
  function BeforeLastSound(fs: seq<Frame>): (k: nat)
    ensures k <= |fs|
    ensures k < |fs| ==> fs[k].pcm != []
    ensures PcmOfAll(fs) != [] ==> k < |fs| && PcmOfAll(fs[k..]) == fs[k].pcm
  {
    if fs == [] then 0
    else if PcmOfAll(fs[1..]) == [] then if fs[0].pcm == [] then |fs| else 0
    else 1 + BeforeLastSound(fs[1..])
  }

  lemma PcmFrom(fs: seq<Frame>, j: nat, k: nat)
    requires j <= k <= |fs|
    ensures PcmOfAll(fs[j..]) == PcmOfAll(fs[j..k]) + PcmOfAll(fs[k..])
    ensures PcmOfAll(fs[..k]) == PcmOfAll(fs[..j]) + PcmOfAll(fs[j..k])
  {
    assert fs[j..] == fs[j..k] + fs[k..] && fs[..k] == fs[..j] + fs[j..k];
    PcmAppend(fs[j..k], fs[k..]);
    PcmAppend(fs[..j], fs[j..k]);
  }

  /** Where sound stays unplayed, it includes the last frame that sounds. */
  lemma LosesLastSound(fs: seq<Frame>, k: nat)
    requires k <= |fs| && PcmOfAll(fs[k..]) != []
    ensures PcmOfAll(fs) != [] && k <= BeforeLastSound(fs)
    ensures |PcmOfAll(fs[..k])| <= |PcmOfAll(fs[..BeforeLastSound(fs)])|
  {
    var j := BeforeLastSound(fs);
    assert fs[0..] == fs;
    PcmFrom(fs, 0, k);
    if k > j {
      PcmFrom(fs, j, k);
      assert false;
    } else {
      PcmFrom(fs, k, j);
    }
  }

  /**
   For which files some of the sound can stay unplayed, when a frame alone does not start the device:
   those with sound, but less than the low watermark, and those that have reached the low watermark
   before the last frame that sounds.
   */
  lemma SoundIsLostIff(l: Limits, o: Offer, fs: seq<Frame>)
    requires Playable(l, o) && MAX_FRAME < l.low
    ensures (exists acts, played :: Ends(l, o, acts, fs, played) && played != PcmOfAll(fs)) <==>
              IsFraming(l, o, fs) && (0 < |PcmOfAll(fs)| < l.low || |PcmOfAll(fs[..BeforeLastSound(fs)])| >= l.low)
  {
    hide Ends;
    forall acts, played | Ends(l, o, acts, fs, played) && played != PcmOfAll(fs)
      ensures IsFraming(l, o, fs)
      ensures 0 < |PcmOfAll(fs)| < l.low || |PcmOfAll(fs[..BeforeLastSound(fs)])| >= l.low
    {
      WhatIsPlayed(l, o, fs, played);
      var k: nat :| CanStopAfter(l, fs, k) && played == PcmOfAll(fs[..k]);
      Splits(fs, k);
      LosesLastSound(fs, k);
    }
    if IsFraming(l, o, fs) && (0 < |PcmOfAll(fs)| < l.low || |PcmOfAll(fs[..BeforeLastSound(fs)])| >= l.low) {
      var j := if |PcmOfAll(fs)| < l.low then 0 else BeforeLastSound(fs);
      Splits(fs, BeforeLastSound(fs));
      LastSoundIsSmall(l, o, fs);
      Splits(fs, j);
      assert CanStopAfter(l, fs, j) && PcmOfAll(fs[j..]) != [];
      WhatIsPlayed(l, o, fs, PcmOfAll(fs[..j]));
      var acts :| Ends(l, o, acts, fs, PcmOfAll(fs[..j]));
      assert PcmOfAll(fs[..j]) != PcmOfAll(fs);
    }
  }

  lemma Splits(fs: seq<Frame>, k: nat)
    requires k <= |fs|
    ensures PcmOfAll(fs) == PcmOfAll(fs[..k]) + PcmOfAll(fs[k..])
    ensures PcmOfAll(fs[..0]) == [] && fs[0..] == fs
  {
    assert fs == fs[..k] + fs[k..];
    PcmAppend(fs[..k], fs[k..]);
  }

  lemma LastSoundIsSmall(l: Limits, o: Offer, fs: seq<Frame>)
    requires IsFraming(l, o, fs) && PcmOfAll(fs) != []
    ensures |PcmOfAll(fs[BeforeLastSound(fs)..])| <= MAX_FRAME
  {
    assert fs[BeforeLastSound(fs)] in fs;
  }

  /** Some session plays everything exactly if there is nothing to play or enough to start the device. */
  lemma AllIsPlayedIff(l: Limits, o: Offer, fs: seq<Frame>)
    requires Playable(l, o)
    ensures (exists acts :: Ends(l, o, acts, fs, PcmOfAll(fs))) <==>
              IsFraming(l, o, fs) && (PcmOfAll(fs) == [] || |PcmOfAll(fs)| >= l.low)
  {
    hide Ends;
    WhatIsPlayed(l, o, fs, PcmOfAll(fs));
    assert fs[..|fs|] == fs && fs[|fs|..] == [];
    assert PcmOfAll(fs) == [] || |PcmOfAll(fs)| >= l.low ==> CanStopAfter(l, fs, |fs|);
  }

  // Under the shipped limits.

  const SHIPPED: Limits := Limits(65536, 20000, 40000)

  /** A frame of MPEG-1 Layer III at 128 kbit/s and 44100 Hz has 417 bytes. */
  const FRAME_BYTES: nat := 417

  function FrameWith(samples: nat): Frame {
    Frame(FRAME_BYTES, samples, seq(2 * samples * 4, i => 0))
  }

  function FramesWith(samples: seq<nat>): seq<Frame> {
    if samples == [] then [] else [FrameWith(samples[0])] + FramesWith(samples[1..])
  }

  function Sum(ns: seq<nat>): nat {
    if ns == [] then 0 else ns[0] + Sum(ns[1..])
  }

  lemma {:induction false} FramesWithSize(ns: seq<nat>)
    ensures |FramesWith(ns)| == |ns| && |PcmOfAll(FramesWith(ns))| == 8 * Sum(ns)
    ensures BytesOfAll(FramesWith(ns)) == FRAME_BYTES * |ns|
  {
    if ns != [] {
      FramesWithSize(ns[1..]);
      assert ([FrameWith(ns[0])] + FramesWith(ns[1..]))[1..] == FramesWith(ns[1..]);
    }
  }

  lemma {:induction false} FramesWithAreFrames(ns: seq<nat>)
    requires forall i :: 0 <= i < |ns| ==> ns[i] <= MAX_SAMPLES
    ensures AreFrames(SHIPPED, FramesWith(ns)) && forall f :: f in FramesWith(ns) ==> f.samples in ns
  {
    if ns != [] {
      FramesWithAreFrames(ns[1..]);
    }
  }

  lemma FramesWithAppend(ms: seq<nat>, ns: seq<nat>)
    ensures FramesWith(ms + ns) == FramesWith(ms) + FramesWith(ns)
  {
    if ms == [] {
      assert ms + ns == ns;
    } else {
      assert (ms + ns)[0] == ms[0] && (ms + ns)[1..] == ms[1..] + ns;
      FramesWithAppend(ms[1..], ns);
    }
  }

  /** A file whose first frames are played and whose last ones, with the given samples, are not. */
  lemma LosesItsEnd(ns: seq<nat>) returns (o: Offer, acts: seq<Action>)
    requires |ns| == 3 && 8 * Sum(ns) < SHIPPED.low && forall i :: 0 <= i < 3 ==> ns[i] <= MAX_SAMPLES
    ensures Playable(SHIPPED, o) && IsFinished(SHIPPED, o, acts)
    ensures Played(SHIPPED, o, acts) != [] && |Decoded(SHIPPED, o, acts)| - |Played(SHIPPED, o, acts)| == 8 * Sum(ns)
    ensures forall f :: f in FramesIn(acts) ==> f.samples == MAX_SAMPLES || f.samples in ns
  {
    var ms := [MAX_SAMPLES, MAX_SAMPLES, MAX_SAMPLES];
    var gs, hs := FramesWith(ms), FramesWith(ns);
    var fs := FramesWith(ms + ns);
    SumOfThree(MAX_SAMPLES, MAX_SAMPLES, MAX_SAMPLES);
    FramesWithSize(ms);
    FramesWithSize(ns);
    FramesWithSize(ms + ns);
    FramesWithAreFrames(ms + ns);
    FramesWithAppend(ms, ns);
    assert fs[..3] == gs && fs[3..] == hs;
    o := Offer([], seq(FRAME_BYTES * 6, i => 0));
    acts := StopsAfter(SHIPPED, o, fs, 3);
    SessionFrames(SHIPPED, o, acts);
    Splits(fs, 3);
  }

  /** What keeps the promise about the MP3 library can leave unplayed any multiple of eight bytes up to 19992. */
  lemma ShippedTails(k: nat)
    ensures k % 8 == 0 && k <= 19992 <==>
              exists o, acts :: Playable(SHIPPED, o) && IsFinished(SHIPPED, o, acts) && Played(SHIPPED, o, acts) != []
                                && |Decoded(SHIPPED, o, acts)| - |Played(SHIPPED, o, acts)| == k
  {
    if k % 8 == 0 && k <= 19992 {
      var n := k / 8;
      var n1 := if n < MAX_SAMPLES then n else MAX_SAMPLES;
      var n2 := if n - n1 < MAX_SAMPLES then n - n1 else MAX_SAMPLES;
      SumOfThree(n1, n2, n - n1 - n2);
      var o, acts := LosesItsEnd([n1, n2, n - n1 - n2]);
    }
    forall o, acts | Playable(SHIPPED, o) && IsFinished(SHIPPED, o, acts)
      ensures (|Decoded(SHIPPED, o, acts)| - |Played(SHIPPED, o, acts)|) % 8 == 0
      ensures |Decoded(SHIPPED, o, acts)| - |Played(SHIPPED, o, acts)| <= 19992
    {
      AllButTheTail(SHIPPED, o, acts);
      assert |Played(SHIPPED, o, acts) + Tail(SHIPPED, o, acts)| == |Decoded(SHIPPED, o, acts)|;
    }
  }

  lemma SumOfThree(a: nat, b: nat, c: nat)
    ensures Sum([a, b, c]) == a + b + c
  {
    assert [a, b, c][1..] == [b, c] && [b, c][1..] == [c] && [c][1..] == [];
    assert Sum([c]) == c && Sum([b, c]) == b + c;
  }

  /** A frame of Layer III has no samples, or 1152, or half of that. */
  predicate OfLayer3(fs: seq<Frame>) {
    forall f :: f in fs ==> f.samples == 0 || f.samples == 576 || f.samples == MAX_SAMPLES
  }

  function Halves(fs: seq<Frame>): nat {
    if fs == [] then 0 else fs[0].samples / 576 + Halves(fs[1..])
  }

  lemma HalvesOf(f: Frame)
    requires GoodFrame(f, f.frameBytes) && (f.samples == 0 || f.samples == 576 || f.samples == MAX_SAMPLES)
    ensures |f.pcm| == 4608 * (f.samples / 576)
  {
  }

  lemma {:induction false} Layer3Sound(l: Limits, fs: seq<Frame>)
    requires AreFrames(l, fs) && OfLayer3(fs)
    ensures |PcmOfAll(fs)| == 4608 * Halves(fs)
  {
    hide GoodFrame;
    if fs != [] {
      assert fs[0] in fs;
      HalvesOf(fs[0]);
      Layer3Sound(l, fs[1..]);
    }
  }

  lemma Mp3TailIs(o: Offer, acts: seq<Action>)
    requires Playable(SHIPPED, o) && IsFinished(SHIPPED, o, acts) && OfLayer3(FramesIn(acts))
    ensures var k := |Decoded(SHIPPED, o, acts)| - |Played(SHIPPED, o, acts)|;
            k % 4608 == 0 && 0 <= k <= 18432
  {
    hide NothingToDo, Played, Decoded, Tail, PcmOfAll, IsFraming;
    var fs := FramesIn(acts);
    SessionFrames(SHIPPED, o, acts);
    PlaysWholeFrames(SHIPPED, o, acts);
    var j: nat :| CanStopAfter(SHIPPED, fs, j) && Played(SHIPPED, o, acts) == PcmOfAll(fs[..j]);
    Splits(fs, j);
    SuffixSound(o, fs, j);
  }

  lemma SuffixSound(o: Offer, fs: seq<Frame>, j: nat)
    requires IsFraming(SHIPPED, o, fs) && OfLayer3(fs) && j <= |fs|
    ensures |PcmOfAll(fs[j..])| % 4608 == 0
  {
    Layer3Sound(SHIPPED, fs[j..]);
  }

  /** With such frames alone what stays unplayed is one of 0, 4608, 9216, 13824 and 18432 bytes, and each occurs. */
  lemma Mp3Tails(k: nat)
    ensures k % 4608 == 0 && k <= 18432 <==>
              exists o, acts :: Playable(SHIPPED, o) && IsFinished(SHIPPED, o, acts) && OfLayer3(FramesIn(acts))
                                && Played(SHIPPED, o, acts) != []
                                && |Decoded(SHIPPED, o, acts)| - |Played(SHIPPED, o, acts)| == k
  {
    hide Playable, Played, Decoded, Sum;
    if k % 4608 == 0 && k <= 18432 {
      var n1 := if k >= 9216 then MAX_SAMPLES else k / 8;
      var n2 := if k >= 18432 then MAX_SAMPLES else k / 8 - n1;
      SumOfThree(n1, n2, 0);
      var o, acts := LosesItsEnd([n1, n2, 0]);
      assert OfLayer3(FramesIn(acts));
    }
    forall o, acts | Playable(SHIPPED, o) && IsFinished(SHIPPED, o, acts) && OfLayer3(FramesIn(acts))
      ensures (|Decoded(SHIPPED, o, acts)| - |Played(SHIPPED, o, acts)|) % 4608 == 0
      ensures |Decoded(SHIPPED, o, acts)| - |Played(SHIPPED, o, acts)| <= 18432
    {
      Mp3TailIs(o, acts);
    }
  }
}
