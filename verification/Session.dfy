/** One session: the server's stream, the network, and the client. */
module Session {
  import opened Bytes
  import opened Channels
  import opened Framing
  import opened Codecs
  import opened ClientModel
  import opened ClientSafety

  /** The time string the server sends and the file it sends after it. */
  datatype Offer = Offer(time: Payload, file: Payload)

  /** `rest` is what the server's write ring still holds. */
  datatype Server = SendingTime(rest: seq<byte>) | SendingEnvelope(rest: seq<byte>) | SendingFile(cur: nat) | Finished

  datatype State = State(server: Server, wire: seq<byte>, client: Client)

  datatype Action =
    | WriteSome(n: nat) // the socket takes some of the write ring
    | SendChunk(n: nat) // `sendfile` takes some of the file, or would block when `n` is zero
    | ReadSome(n: nat) // the client's read completes
    | ReadEnd // the client's read meets the end of the stream
    | Local(e: Event) // a step of the client alone

  function FileEnvelope(o: Offer): seq<byte> {
    EncodeEnvelope(Envelope(2, |o.file|))
  }

  ghost predicate CanDo(l: Limits, o: Offer, s: State, a: Action) {
    match a
    case WriteSome(n) => (s.server.SendingTime? || s.server.SendingEnvelope?) && n <= |s.server.rest|
    case SendChunk(n) => s.server.SendingFile? && s.server.cur + n <= |o.file|
    case ReadSome(n) => n <= |s.wire| && Enabled(l, s.client, Arrive(s.wire[..n]))
    case ReadEnd => s.server.Finished? && s.wire == [] && Enabled(l, s.client, Fail)
    case Local(e) => !e.Arrive? && !e.Fail? && Enabled(l, s.client, e)
  }

  /** What the server does when the write ring has run empty, and when `sendfile` has sent all. */
  function Next(o: Offer, server: Server): Server {
    match server
    case SendingTime(rest) => if rest == [] then SendingEnvelope(FileEnvelope(o)) else server
    case SendingEnvelope(rest) => if rest == [] then SendingFile(0) else server
    case SendingFile(cur) => if cur == |o.file| then Finished else server
    case Finished => server
  }

  ghost function Do(l: Limits, o: Offer, s: State, a: Action): State
    requires CanDo(l, o, s, a)
  {
    match a
    case WriteSome(n) =>
      var rest := s.server.rest;
      var server := if s.server.SendingTime? then SendingTime(rest[n..]) else SendingEnvelope(rest[n..]);
      s.(server := Next(o, server), wire := s.wire + rest[..n])
    case SendChunk(n) =>
      var cur := s.server.cur;
      s.(server := Next(o, SendingFile(cur + n)), wire := s.wire + o.file[cur..cur + n])
    case ReadSome(n) => s.(wire := s.wire[n..], client := Apply(l, s.client, Arrive(s.wire[..n])))
    case ReadEnd => s.(client := Apply(l, s.client, Fail))
    case Local(e) => s.(client := Apply(l, s.client, e))
  }

  function Begin(o: Offer): State {
    State(SendingTime(EncodeMessage(1, o.time)), [], Start())
  }

  ghost predicate IsSession(l: Limits, o: Offer, s: State, acts: seq<Action>)
    decreases |acts|
  {
    acts != [] ==> CanDo(l, o, s, acts[0]) && IsSession(l, o, Do(l, o, s, acts[0]), acts[1..])
  }

  ghost function Outcome(l: Limits, o: Offer, s: State, acts: seq<Action>): State
    requires IsSession(l, o, s, acts)
    decreases |acts|
  {
    if acts == [] then s else Outcome(l, o, Do(l, o, s, acts[0]), acts[1..])
  }

  lemma {:induction false} SessionAppend(l: Limits, o: Offer, s: State, acts: seq<Action>, more: seq<Action>)
    requires IsSession(l, o, s, acts) && IsSession(l, o, Outcome(l, o, s, acts), more)
    ensures IsSession(l, o, s, acts + more)
    ensures Outcome(l, o, s, acts + more) == Outcome(l, o, Outcome(l, o, s, acts), more)
    decreases |acts|
  {
    if acts == [] {
      assert acts + more == more;
    } else {
      assert (acts + more)[0] == acts[0] && (acts + more)[1..] == acts[1..] + more;
      SessionAppend(l, o, Do(l, o, s, acts[0]), acts[1..], more);
    }
  }

  /** The session gets from `s` to `t` by `acts`. */
  ghost predicate Goes(l: Limits, o: Offer, s: State, acts: seq<Action>, t: State) {
    IsSession(l, o, s, acts) && Outcome(l, o, s, acts) == t
  }

  lemma GoesFirst(l: Limits, o: Offer, s: State, a: Action, t: State, acts: seq<Action>, u: State)
    requires CanDo(l, o, s, a) && Do(l, o, s, a) == t && Goes(l, o, t, acts, u)
    ensures Goes(l, o, s, [a] + acts, u)
  {
    assert ([a] + acts)[1..] == acts;
  }

  lemma GoesOn(l: Limits, o: Offer, s: State, acts: seq<Action>, t: State, a: Action)
    requires Goes(l, o, s, acts, t) && CanDo(l, o, t, a)
    ensures Goes(l, o, s, acts + [a], Do(l, o, t, a))
  {
    assert [a][1..] == [];
    SessionAppend(l, o, s, acts, [a]);
  }

  lemma GoesFar(l: Limits, o: Offer, s: State, acts: seq<Action>, t: State, more: seq<Action>, u: State)
    requires Goes(l, o, s, acts, t) && Goes(l, o, t, more, u)
    ensures Goes(l, o, s, acts + more, u)
  {
    SessionAppend(l, o, s, acts, more);
  }

  function Locals(es: seq<Event>): seq<Action> {
    if es == [] then [] else [Local(es[0])] + Locals(es[1..])
  }

  /** The client's own steps are steps of the session. */
  lemma {:induction false} LocalSession(l: Limits, o: Offer, s: State, es: seq<Event>, d: Client)
    requires LocalRun(l, s.client, es, d)
    ensures Goes(l, o, s, Locals(es), s.(client := d))
    decreases |es|
  {
    if es != [] {
      assert es[0] in es;
      LocalSession(l, o, Do(l, o, s, Local(es[0])), es[1..], d);
      assert Locals(es)[1..] == Locals(es[1..]);
    }
  }

  lemma LocalsAreLocal(es: seq<Event>)
    ensures |Locals(es)| == |es| && forall i :: 0 <= i < |es| ==> Locals(es)[i] == Local(es[i])
  {
  }

  /** An action that leaves the client where it then takes steps of its own. */
  lemma GoesThenLocal(l: Limits, o: Offer, s: State, a: Action, es: seq<Event>, d: Client)
    requires CanDo(l, o, s, a) && LocalRun(l, Do(l, o, s, a).client, es, d)
    ensures Goes(l, o, s, [a] + Locals(es), Do(l, o, s, a).(client := d))
    ensures forall b :: b in ([a] + Locals(es))[1..] ==> b.Local?
  {
    hide CanDo, Do;
    var t := Do(l, o, s, a);
    LocalSession(l, o, t, es, d);
    GoesFirst(l, o, s, a, t, Locals(es), t.(client := d));
    LocalsAreLocal(es);
    assert ([a] + Locals(es))[1..] == Locals(es);
  }

  lemma OneDone(l: Limits, o: Offer, s: State, a: Action)
    requires CanDo(l, o, s, a)
    ensures Goes(l, o, s, [a], Do(l, o, s, a))
  {
    assert [a][1..] == [];
  }

  lemma NothingDone(l: Limits, o: Offer, s: State)
    ensures Goes(l, o, s, [], s)
  {
  }

  // Every byte of the stream is in exactly one place.

  function Whole(o: Offer): seq<byte> {
    EncodeMessage(1, o.time) + (FileEnvelope(o) + o.file)
  }

  /** The stream byte by byte: a message of type 1 with the time, an envelope of type 2, and the file. */
  lemma StreamOnTheWire(o: Offer)
    ensures var w, n := Whole(o), 8 + |o.time|;
            && |w| == n + 8 + |o.file|
            && IsLittleEndian(w[..4], 1) && IsLittleEndian(w[4..8], |o.time|) && w[8..n] == o.time
            && IsLittleEndian(w[n..n + 4], 2) && IsLittleEndian(w[n + 4..n + 8], |o.file|) && w[n + 8..] == o.file
  {
    hide IsLittleEndian, EncodeMessage, FileEnvelope;
    var m, e, w, n := EncodeMessage(1, o.time), FileEnvelope(o), Whole(o), 8 + |o.time|;
    MessageOnTheWire(1, o.time);
    FileEnvelopeOnTheWire(o);
    assert w[..4] == m[..4] && w[4..8] == m[4..8] && w[8..n] == m[8..];
    assert w[n..n + 4] == e[..4] && w[n + 4..n + 8] == e[4..] && w[n + 8..] == o.file;
  }

  lemma FileEnvelopeOnTheWire(o: Offer)
    ensures var e := FileEnvelope(o);
            |e| == 8 && IsLittleEndian(e[..4], 2) && IsLittleEndian(e[4..], |o.file|)
  {
    EnvelopeOnTheWire(Envelope(2, |o.file|));
  }

  function Unsent(o: Offer, server: Server): seq<byte>
    requires server.SendingFile? ==> server.cur <= |o.file|
  {
    match server
    case SendingTime(rest) => rest + (FileEnvelope(o) + o.file)
    case SendingEnvelope(rest) => rest + o.file
    case SendingFile(cur) => o.file[cur..]
    case Finished => []
  }

  /** What the client has taken off its ring: delivered messages, an open envelope, decoded file bytes. */
  function Taken(c: Client): seq<byte> {
    EncodeAll(1, c.times) + Pending(c.mode) + c.stream.committed
  }

  function Ahead(o: Offer, s: State): seq<byte>
    requires s.server.SendingFile? ==> s.server.cur <= |o.file|
  {
    s.client.stream.input.bytes + (s.wire + Unsent(o, s.server))
  }

  ghost predicate ServerInv(o: Offer, server: Server) {
    match server
    case SendingTime(rest) => rest != []
    case SendingEnvelope(rest) => rest != []
    case SendingFile(cur) => cur < |o.file|
    case Finished => true
  }

  ghost predicate Accounting(o: Offer, s: State) {
    ServerInv(o, s.server) && Taken(s.client) + Ahead(o, s) == Whole(o)
  }

  /** The decoder has not seen a byte before the file's envelope was accepted. */
  ghost predicate SilentBefore(c: Client) {
    !IsMp3(c.mode) ==>
      c.stream.committed == [] && !c.stream.started && c.stream.decodePosts == 0 && !ServingFile(c.pc)
  }

  predicate ServingFile(pc: Pc) {
    pc.Entering? || pc.Testing? || pc.Decoding? || pc.Mp3Done?
  }

  /** A decode in the read handler does not end before it has used some of what there is. */
  ghost predicate FirstBiteTaken(c: Client) {
    c.pc.Mp3Done? && c.stream.committed == [] ==> c.stream.input.bytes == []
  }

  /** Outside the file the decoder has parsed what it could, and the receiver has never had to park. */
  ghost predicate Settled(c: Client) {
    !IsMp3(c.mode) ==>
      && (!c.pc.Parsing? ==> Stuck(1, c.mode, c.stream.input.bytes))
      && c.stream.input.waiters == [] && c.stream.input.posted == []
  }

  ghost predicate ClosedAtEnd(s: State) {
    s.client.closed ==> s.server.Finished? && s.wire == []
  }

  ghost predicate SessionInv(l: Limits, o: Offer, s: State) {
    && ClientInv(l, s.client) && Accounting(o, s) && SilentBefore(s.client) && FirstBiteTaken(s.client)
    && Settled(s.client) && ClosedAtEnd(s)
  }

  ghost predicate Playable(l: Limits, o: Offer) {
    Sound(l) && |o.time| <= l.size && o.file != []
  }

  /** After the time message comes an envelope of type 2, so no second message of type 1. */
  lemma AfterTime(o: Offer, times: seq<Payload>, m: Mode, ahead: seq<byte>)
    requires EncodeAll(1, times) + Pending(m) + ahead == FileEnvelope(o) + o.file
    ensures times == [] && (m.HaveEnvelope? ==> m.envelope == Envelope(2, |o.file|) && ahead == o.file)
  {
    var later := FileEnvelope(o) + o.file;
    assert later[..ENVELOPE_SIZE] == FileEnvelope(o);
    DecodeEncodeEnvelope(Envelope(2, |o.file|));
    if times == [] {
      assert later == Pending(m) + ahead;
      StreamFront(Envelope(2, |o.file|), o.file, m, ahead);
    } else {
      assert later[..ENVELOPE_SIZE] == EncodeEnvelope(Envelope(1, |times[0]|));
      DecodeEncodeEnvelope(Envelope(1, |times[0]|));
    }
  }

  /** The only ways to begin the stream with messages of type 1 and perhaps one envelope. */
  lemma WhereInStream(o: Offer, times: seq<Payload>, m: Mode, ahead: seq<byte>)
    requires EncodeAll(1, times) + Pending(m) + ahead == Whole(o)
    ensures times == [] || times == [o.time]
    ensures times == [] ==> m == BeforeEnvelope || m == HaveEnvelope(Envelope(1, |o.time|))
    ensures times == [o.time] ==> m == BeforeEnvelope || m == HaveEnvelope(Envelope(2, |o.file|))
    ensures IsMp3(m) ==> ahead == o.file
  {
    hide FileEnvelope;
    var later := FileEnvelope(o) + o.file;
    if times == [] {
      assert Whole(o) == EncodeEnvelope(Envelope(1, |o.time|)) + (o.time + later);
      assert Pending(m) + ahead == EncodeAll(1, times) + Pending(m) + ahead;
      StreamFront(Envelope(1, |o.time|), o.time + later, m, ahead);
    } else {
      var t, rest := times[0], times[1..];
      Assoc(EncodeMessage(1, t), EncodeAll(1, rest), Pending(m), ahead);
      SameMessage(1, t, EncodeAll(1, rest) + Pending(m) + ahead, o.time, later);
      AfterTime(o, rest, m, ahead);
      assert times == [o.time];
    }
  }

  /** An envelope taken from the front of bytes is the envelope they begin with. */
  lemma StreamFront(e: Envelope, later: seq<byte>, m: Mode, ahead: seq<byte>)
    requires Pending(m) + ahead == EncodeEnvelope(e) + later
    ensures m.HaveEnvelope? ==> m.envelope == e && ahead == later
  {
    if m.HaveEnvelope? {
      var all := EncodeEnvelope(e) + later;
      assert all[..ENVELOPE_SIZE] == EncodeEnvelope(m.envelope) == EncodeEnvelope(e);
      assert all[ENVELOPE_SIZE..] == ahead == later;
      DecodeEncodeEnvelope(m.envelope);
      DecodeEncodeEnvelope(e);
    }
  }

  /** Where the client stands in the stream, read off the accounting. */
  lemma Position(l: Limits, o: Offer, s: State)
    requires SessionInv(l, o, s)
    ensures var c := s.client;
            && (c.times == [] || c.times == [o.time])
            && (c.times == [] ==> c.mode == BeforeEnvelope || c.mode == HaveEnvelope(Envelope(1, |o.time|)))
            && (c.times == [o.time] ==> c.mode == BeforeEnvelope || c.mode == HaveEnvelope(Envelope(2, |o.file|)))
            && (IsMp3(c.mode) ==> c.stream.committed + Ahead(o, s) == o.file)
            && (!IsMp3(c.mode) ==> EncodeAll(1, c.times) + Pending(c.mode) + Ahead(o, s) == Whole(o))
  {
    var c := s.client;
    assert Taken(c) + Ahead(o, s) == EncodeAll(1, c.times) + Pending(c.mode) + (c.stream.committed + Ahead(o, s));
    WhereInStream(o, c.times, c.mode, c.stream.committed + Ahead(o, s));
    if !IsMp3(c.mode) {
      assert c.stream.committed + Ahead(o, s) == Ahead(o, s);
    }
  }

  // What every action keeps.

  lemma NextKeepsUnsent(o: Offer, server: Server)
    requires o.file != [] && (server.SendingTime? || server.SendingEnvelope?)
    ensures ServerInv(o, Next(o, server)) && Unsent(o, Next(o, server)) == Unsent(o, server)
  {
  }

  /** Moving bytes from what is unsent to the wire. */
  lemma Moved(inp: seq<byte>, wire: seq<byte>, unsent: seq<byte>, sent: seq<byte>, left: seq<byte>)
    requires unsent == sent + left
    ensures inp + (wire + sent + left) == inp + (wire + unsent)
  {
    assert wire + sent + left == wire + unsent;
  }

  lemma WriteKeepsAhead(l: Limits, o: Offer, s: State, n: nat)
    requires ServerInv(o, s.server) && o.file != [] && CanDo(l, o, s, WriteSome(n))
    ensures var t := Do(l, o, s, WriteSome(n));
            ServerInv(o, t.server) && t.client == s.client && Ahead(o, t) == Ahead(o, s)
  {
    hide FileEnvelope, Next;
    var rest := s.server.rest;
    var server := if s.server.SendingTime? then SendingTime(rest[n..]) else SendingEnvelope(rest[n..]);
    NextKeepsUnsent(o, server);
    assert Unsent(o, s.server) == rest[..n] + Unsent(o, server);
    Moved(s.client.stream.input.bytes, s.wire, Unsent(o, s.server), rest[..n], Unsent(o, server));
  }

  lemma SendKeepsAhead(l: Limits, o: Offer, s: State, n: nat)
    requires ServerInv(o, s.server) && CanDo(l, o, s, SendChunk(n))
    ensures var t := Do(l, o, s, SendChunk(n));
            ServerInv(o, t.server) && t.client == s.client && Ahead(o, t) == Ahead(o, s)
  {
    var t := Do(l, o, s, SendChunk(n));
    var cur := s.server.cur;
    assert o.file[cur..] == o.file[cur..cur + n] + o.file[cur + n..];
    assert Unsent(o, t.server) == o.file[cur + n..];
    Regroup([], [], s.wire, o.file[cur..cur + n], Unsent(o, t.server));
  }

  /** Moving bytes from the wire to the input ring. */
  lemma Arrived(inp: seq<byte>, wire: seq<byte>, n: nat, unsent: seq<byte>)
    requires n <= |wire|
    ensures inp + wire[..n] + (wire[n..] + unsent) == inp + (wire + unsent)
  {
  }

  lemma ReadKeepsAhead(l: Limits, o: Offer, s: State, n: nat)
    requires ServerInv(o, s.server) && CanDo(l, o, s, ReadSome(n))
    ensures var t := Do(l, o, s, ReadSome(n));
            t.server == s.server && Taken(t.client) == Taken(s.client) && Ahead(o, t) == Ahead(o, s)
  {
    Arrived(s.client.stream.input.bytes, s.wire, n, Unsent(o, s.server));
  }

  lemma Mp3IsStuck(m: Mode, buf: seq<byte>)
    requires IsMp3(m)
    ensures Drain(1, m, buf) == Parsed([], m, buf)
  {
  }

  lemma ParseKeepsTaken(l: Limits, c: Client)
    requires Enabled(l, c, Parse) && SilentBefore(c)
    ensures var d := Apply(l, c, Parse);
            Taken(d) + d.stream.input.bytes == Taken(c) + c.stream.input.bytes
  {
    hide Drain, DrainChan;
    var inp := c.stream.input.bytes;
    var p := Drain(1, c.mode, inp);
    DrainChanDrains(l, 1, c.mode, c.stream.input);
    if IsMp3(c.mode) {
      Mp3IsStuck(c.mode, inp);
      assert c.times + p.delivered == c.times;
    } else {
      FeedAccounts(1, Parsed(c.times, c.mode, inp), []);
      assert inp + [] == inp;
      assert Accounted(1, Parsed(c.times, c.mode, inp)) + [] == Taken(c) + inp;
    }
  }

  lemma Regroup(a: seq<byte>, b: seq<byte>, c: seq<byte>, x: seq<byte>, y: seq<byte>)
    ensures a + b + (c + x) + y == a + b + c + (x + y)
  {
  }

  lemma DecodeKeepsTaken(l: Limits, c: Client, f: Frame)
    requires Sound(l) && ClientInv(l, c) && Enabled(l, c, Decode(f))
    ensures var d := Apply(l, c, Decode(f));
            Taken(d) + d.stream.input.bytes == Taken(c) + c.stream.input.bytes
  {
    DecodeKeepsStreamInv(l, c.stream, f);
    var inp := c.stream.input.bytes;
    Regroup(EncodeAll(1, c.times), Pending(c.mode), c.stream.committed, inp[..f.frameBytes], inp[f.frameBytes..]);
    assert inp == inp[..f.frameBytes] + inp[f.frameBytes..];
  }

  lemma FileNotComplete(l: Limits, o: Offer, s: State)
    requires Playable(l, o) && SessionInv(l, o, s) && s.client.pc.Mp3Done?
    ensures IsMp3(s.client.mode) && |s.client.stream.input.bytes| < s.client.mode.envelope.messageSize
  {
    Position(l, o, s);
    assert |s.client.stream.committed + Ahead(o, s)| == |o.file|;
  }

  lemma LocalKeepsTaken(l: Limits, o: Offer, s: State, e: Event)
    requires Playable(l, o) && SessionInv(l, o, s) && CanDo(l, o, s, Local(e))
    ensures var d := Apply(l, s.client, e);
            Taken(d) + d.stream.input.bytes == Taken(s.client) + s.client.stream.input.bytes
  {
    match e
    case Parse => ParseKeepsTaken(l, s.client);
    case Decode(f) => DecodeKeepsTaken(l, s.client, f);
    case FinishMp3 => FileNotComplete(l, o, s);
    case _ =>
  }

  lemma StepKeepsAccounting(l: Limits, o: Offer, s: State, a: Action)
    requires Playable(l, o) && SessionInv(l, o, s) && CanDo(l, o, s, a)
    ensures Accounting(o, Do(l, o, s, a))
  {
    hide Whole, ClientInv, Ahead, Taken;
    match a
    case WriteSome(n) => WriteKeepsAhead(l, o, s, n);
    case SendChunk(n) => SendKeepsAhead(l, o, s, n);
    case ReadSome(n) => ReadKeepsAhead(l, o, s, n);
    case ReadEnd => EndKeepsAll(l, o, s);
    case Local(e) =>
      LocalKeepsTaken(l, o, s, e);
      SameTotal(o, s, Do(l, o, s, a));
  }

  lemma EndKeepsAll(l: Limits, o: Offer, s: State)
    requires ServerInv(o, s.server) && CanDo(l, o, s, ReadEnd)
    ensures var t := Do(l, o, s, ReadEnd);
            t.server == s.server && Taken(t.client) == Taken(s.client) && Ahead(o, t) == Ahead(o, s)
  {
  }

  lemma SameTotal(o: Offer, s: State, t: State)
    requires ServerInv(o, s.server) && t.server == s.server && t.wire == s.wire
    requires Taken(t.client) + t.client.stream.input.bytes == Taken(s.client) + s.client.stream.input.bytes
    ensures Taken(t.client) + Ahead(o, t) == Taken(s.client) + Ahead(o, s)
  {
    var later := s.wire + Unsent(o, s.server);
    var x, y := t.client.stream.input.bytes, s.client.stream.input.bytes;
    assert Taken(t.client) + (x + later) == Taken(t.client) + x + later;
    assert Taken(s.client) + (y + later) == Taken(s.client) + y + later;
  }

  lemma StepKeepsClient(l: Limits, o: Offer, s: State, a: Action)
    requires Playable(l, o) && SessionInv(l, o, s) && CanDo(l, o, s, a)
    ensures ClientInv(l, Do(l, o, s, a).client)
  {
    match a
    case ReadSome(n) => StepKeepsInv(l, s.client, Arrive(s.wire[..n]));
    case ReadEnd => StepKeepsInv(l, s.client, Fail);
    case Local(e) => StepKeepsInv(l, s.client, e);
    case _ =>
  }

  ghost predicate FileOpen(c: Client) {
    c.pc.Mp3Done? ==> IsMp3(c.mode) && |c.stream.input.bytes| < c.mode.envelope.messageSize
  }

  lemma LocalKeepsSilence(l: Limits, c: Client, e: Event)
    requires Sound(l) && ClientInv(l, c) && SilentBefore(c) && FirstBiteTaken(c) && FileOpen(c) && Enabled(l, c, e)
    ensures SilentBefore(Apply(l, c, e)) && FirstBiteTaken(Apply(l, c, e))
  {
    match e
    case Decode(f) => DecodeKeepsStreamInv(l, c.stream, f);
    case Parse => DrainChanDrains(l, 1, c.mode, c.stream.input);
    case _ =>
  }

  /** A step of the client does not take it out of the file. */
  lemma LocalKeepsMp3(l: Limits, c: Client, e: Event)
    requires IsMp3(c.mode) && FileOpen(c) && Enabled(l, c, e)
    ensures Apply(l, c, e).mode == c.mode && Apply(l, c, e).times == c.times
  {
  }

  lemma StepKeepsSilence(l: Limits, o: Offer, s: State, a: Action)
    requires Playable(l, o) && SessionInv(l, o, s) && CanDo(l, o, s, a)
    ensures SilentBefore(Do(l, o, s, a).client) && FirstBiteTaken(Do(l, o, s, a).client)
  {
    hide Apply, Enabled, ClientInv, SilentBefore, FirstBiteTaken;
    if s.client.pc.Mp3Done? {
      FileNotComplete(l, o, s);
    }
    match a
    case ReadSome(n) => LocalKeepsSilence(l, s.client, Arrive(s.wire[..n]));
    case ReadEnd => LocalKeepsSilence(l, s.client, Fail);
    case Local(e) => LocalKeepsSilence(l, s.client, e);
    case _ =>
  }

  /** Once the file's envelope has been accepted, file bytes are never taken for an envelope. */
  lemma Mp3ModeIsAbsorbing(l: Limits, o: Offer, s: State, a: Action)
    requires Playable(l, o) && SessionInv(l, o, s) && CanDo(l, o, s, a) && IsMp3(s.client.mode)
    ensures Do(l, o, s, a).client.mode == s.client.mode && Do(l, o, s, a).client.times == s.client.times
  {
    hide Apply, Enabled, SessionInv;
    if s.client.pc.Mp3Done? {
      FileNotComplete(l, o, s);
    }
    match a
    case ReadSome(n) => LocalKeepsMp3(l, s.client, Arrive(s.wire[..n]));
    case ReadEnd => LocalKeepsMp3(l, s.client, Fail);
    case Local(e) => LocalKeepsMp3(l, s.client, e);
    case _ =>
  }

  /** Outside the file the ring is never full when `receive` looks at it. */
  ghost predicate RoomOutsideFile(l: Limits, c: Client) {
    !IsMp3(c.mode) && !c.pc.Parsing? ==> |c.stream.input.bytes| < l.size
  }

  lemma LocalKeepsSettled(l: Limits, c: Client, e: Event)
    requires Sound(l) && ClientInv(l, c) && Settled(c) && FileOpen(c) && SilentBefore(c) && Enabled(l, c, e)
    requires RoomOutsideFile(l, c)
    ensures Settled(Apply(l, c, e))
  {
    match e
    case Parse => DrainChanDrains(l, 1, c.mode, c.stream.input);
    case Decode(f) => DecodeKeepsStreamInv(l, c.stream, f);
    case _ =>
  }

  lemma RoomWhileParsing(l: Limits, o: Offer, s: State)
    requires Playable(l, o) && SessionInv(l, o, s)
    ensures RoomOutsideFile(l, s.client)
  {
    Position(l, o, s);
  }

  lemma StepKeepsSettled(l: Limits, o: Offer, s: State, a: Action)
    requires Playable(l, o) && SessionInv(l, o, s) && CanDo(l, o, s, a)
    ensures Settled(Do(l, o, s, a).client) && ClosedAtEnd(Do(l, o, s, a))
  {
    hide ClientInv, SilentBefore, Settled, DrainChan, DecodeFrame, PlayAudio;
    if s.client.pc.Mp3Done? {
      FileNotComplete(l, o, s);
    }
    RoomWhileParsing(l, o, s);
    match a
    case ReadSome(n) => LocalKeepsSettled(l, s.client, Arrive(s.wire[..n]));
    case ReadEnd => LocalKeepsSettled(l, s.client, Fail);
    case Local(e) => LocalKeepsSettled(l, s.client, e);
    case _ =>
  }

  lemma StepKeepsSession(l: Limits, o: Offer, s: State, a: Action)
    requires Playable(l, o) && SessionInv(l, o, s) && CanDo(l, o, s, a)
    ensures SessionInv(l, o, Do(l, o, s, a))
  {
    hide Do, CanDo;
    StepKeepsAccounting(l, o, s, a);
    StepKeepsClient(l, o, s, a);
    StepKeepsSilence(l, o, s, a);
    StepKeepsSettled(l, o, s, a);
  }

  lemma {:induction false} SessionKeepsInv(l: Limits, o: Offer, s: State, acts: seq<Action>)
    requires Playable(l, o) && SessionInv(l, o, s) && IsSession(l, o, s, acts)
    ensures SessionInv(l, o, Outcome(l, o, s, acts))
    ensures IsMp3(s.client.mode) ==> Outcome(l, o, s, acts).client.mode == s.client.mode
    decreases |acts|
  {
    hide CanDo, Do, SessionInv;
    if acts != [] {
      StepKeepsSession(l, o, s, acts[0]);
      if IsMp3(s.client.mode) {
        Mp3ModeIsAbsorbing(l, o, s, acts[0]);
      }
      SessionKeepsInv(l, o, Do(l, o, s, acts[0]), acts[1..]);
    }
  }

  lemma BeginInv(l: Limits, o: Offer)
    requires Playable(l, o)
    ensures SessionInv(l, o, Begin(o))
  {
    StartInv(l);
    assert Taken(Start()) + Ahead(o, Begin(o)) == Whole(o);
  }
}
