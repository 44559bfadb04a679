/** The message framing: an eight-byte envelope, then as many bytes as the envelope says. */
module Framing {
  import opened Bytes

  datatype Envelope = Envelope(messageType: int32, messageSize: int32)

  const ENVELOPE_SIZE: nat := 8

  /** Where a decoder stands between two reads. */
  datatype Mode = BeforeEnvelope | HaveEnvelope(envelope: Envelope)

  function EncodeEnvelope(e: Envelope): (b: seq<byte>)
    ensures |b| == ENVELOPE_SIZE
  {
    EncodeInt(e.messageType) + EncodeInt(e.messageSize)
  }

  function DecodeEnvelope(b: seq<byte>): Envelope
    requires |b| == ENVELOPE_SIZE
  {
    Envelope(DecodeInt(b[..4]), DecodeInt(b[4..]))
  }

  /** On the wire the type comes first and then the size. */
  lemma EnvelopeOnTheWire(e: Envelope)
    ensures IsLittleEndian(EncodeEnvelope(e)[..4], e.messageType)
    ensures IsLittleEndian(EncodeEnvelope(e)[4..], e.messageSize)
  {
    EncodedIsLittleEndian(e.messageType);
    EncodedIsLittleEndian(e.messageSize);
    var b := EncodeEnvelope(e);
    assert b[..4] == EncodeInt(e.messageType) && b[4..] == EncodeInt(e.messageSize);
  }

  lemma DecodeEncodeEnvelope(e: Envelope)
    ensures DecodeEnvelope(EncodeEnvelope(e)) == e
  {
    DecodeEncodeInt(e.messageType);
    DecodeEncodeInt(e.messageSize);
  }

  lemma EncodeDecodeEnvelope(b: seq<byte>)
    requires |b| == ENVELOPE_SIZE
    ensures EncodeEnvelope(DecodeEnvelope(b)) == b
  {
    EncodeDecodeInt(b[..4]);
    EncodeDecodeInt(b[4..]);
  }

  function EncodeMessage(kind: int32, p: Payload): seq<byte> {
    EncodeEnvelope(Envelope(kind, |p|)) + p
  }

  lemma MessageOnTheWire(kind: int32, p: Payload)
    ensures var b := EncodeMessage(kind, p);
            |b| == 8 + |p| && IsLittleEndian(b[..4], kind) && IsLittleEndian(b[4..8], |p|) && b[8..] == p
  {
    var e, b := EncodeEnvelope(Envelope(kind, |p|)), EncodeMessage(kind, p);
    EnvelopeOnTheWire(Envelope(kind, |p|));
    assert b[..4] == e[..4] && b[4..8] == e[4..];
  }

  function EncodeAll(kind: int32, ps: seq<Payload>): seq<byte> {
    if ps == [] then [] else EncodeMessage(kind, ps[0]) + EncodeAll(kind, ps[1..])
  }

  /** The bytes of an envelope that was taken off the queue while its payload was not. */
  function Pending(m: Mode): seq<byte> {
    match m
    case BeforeEnvelope => []
    case HaveEnvelope(e) => EncodeEnvelope(e)
  }

  /** The payloads a decoder delivers from the bytes it has, and what it is left with. */
  datatype Parsed = Parsed(delivered: seq<Payload>, mode: Mode, rest: seq<byte>)

  /** The bytes a parse accounts for: what it delivered, as messages, and what it still holds. */
  function Accounted(kind: int32, p: Parsed): seq<byte> {
    EncodeAll(kind, p.delivered) + Pending(p.mode) + p.rest
  }

  /**
   No more can be delivered: bytes are missing, or the message is of another type. A negative size,
   compared with an unsigned length, is more than any queue can hold.
   */
  predicate Stuck(kind: int32, m: Mode, rest: seq<byte>) {
    match m
    case BeforeEnvelope => |rest| < ENVELOPE_SIZE
    case HaveEnvelope(e) => e.messageType != kind || e.messageSize < 0 || |rest| < e.messageSize
  }

  /** The comparison the decoders make, for a queue of which memory can hold two copies. */
  lemma UnsignedComparison(kind: int32, e: Envelope, rest: seq<byte>)
    requires 2 * |rest| <= 0x1_0000_0000_0000_0000 && e.messageType == kind
    ensures |rest| >= ToSizeT(e.messageSize) <==> !Stuck(kind, HaveEnvelope(e), rest)
  {
  }

  /** Repeated parsing of messages of one type until it is stuck. */
  function Drain(kind: int32, m: Mode, buf: seq<byte>): (p: Parsed)
    ensures Stuck(kind, p.mode, p.rest)
    decreases |buf| + if m.HaveEnvelope? then 1 else 0
  {
    match m
    case BeforeEnvelope =>
      if |buf| < ENVELOPE_SIZE then Parsed([], m, buf)
      else Drain(kind, HaveEnvelope(DecodeEnvelope(buf[..ENVELOPE_SIZE])), buf[ENVELOPE_SIZE..])
    case HaveEnvelope(e) =>
      if Stuck(kind, m, buf) then Parsed([], m, buf)
      else
        var n := e.messageSize;
        var p := Drain(kind, BeforeEnvelope, buf[n..]);
        var t: Payload := buf[..n];
        p.(delivered := [t] + p.delivered)
  }

  /** A message in front of what is accounted for. */
  lemma AccountedCons(kind: int32, t: Payload, p: Parsed)
    ensures Accounted(kind, p.(delivered := [t] + p.delivered)) == EncodeMessage(kind, t) + Accounted(kind, p)
  {
    assert ([t] + p.delivered)[1..] == p.delivered;
    Assoc(EncodeMessage(kind, t), EncodeAll(kind, p.delivered), Pending(p.mode), p.rest);
  }

  lemma Assoc(a: seq<byte>, b: seq<byte>, c: seq<byte>, d: seq<byte>)
    ensures (a + b) + c + d == a + (b + c + d) == a + (b + (c + d))
  {
  }

  lemma EnvelopeInFront(buf: seq<byte>)
    requires |buf| >= ENVELOPE_SIZE
    ensures EncodeEnvelope(DecodeEnvelope(buf[..ENVELOPE_SIZE])) + buf[ENVELOPE_SIZE..] == buf
  {
    EncodeDecodeEnvelope(buf[..ENVELOPE_SIZE]);
  }

  lemma MessageInFront(e: Envelope, buf: seq<byte>)
    requires 0 <= e.messageSize <= |buf|
    ensures EncodeMessage(e.messageType, buf[..e.messageSize]) + buf[e.messageSize..] == EncodeEnvelope(e) + buf
  {
    Assoc(EncodeEnvelope(e), buf[..e.messageSize], buf[e.messageSize..], []);
    assert buf[..e.messageSize] + buf[e.messageSize..] == buf;
  }

  /** Nothing is lost, invented or reordered by parsing, whatever the bytes are. */
  lemma {:induction false} DrainConserves(kind: int32, m: Mode, buf: seq<byte>)
    ensures Accounted(kind, Drain(kind, m, buf)) == Pending(m) + buf
    decreases |buf| + if m.HaveEnvelope? then 1 else 0
  {
    if Stuck(kind, m, buf) {
      assert Drain(kind, m, buf) == Parsed([], m, buf);
    } else if m.BeforeEnvelope? {
      var e, tail := DecodeEnvelope(buf[..ENVELOPE_SIZE]), buf[ENVELOPE_SIZE..];
      DrainConserves(kind, HaveEnvelope(e), tail);
      EnvelopeInFront(buf);
    } else {
      var t: Payload, tail := buf[..m.envelope.messageSize], buf[m.envelope.messageSize..];
      var q := Drain(kind, BeforeEnvelope, tail);
      assert Drain(kind, m, buf) == q.(delivered := [t] + q.delivered);
      DrainConserves(kind, BeforeEnvelope, tail);
      AccountedCons(kind, t, q);
      MessageInFront(m.envelope, buf);
    }
  }

  /**
   What parsing leaves behind is determined by the bytes alone: the only way to account for them
   with messages of the type and a stuck remainder is the one `Drain` finds.
   */
  lemma {:induction false} DrainIsUnique(kind: int32, p: Parsed, buf: seq<byte>)
    requires Accounted(kind, p) == buf && Stuck(kind, p.mode, p.rest)
    ensures Drain(kind, BeforeEnvelope, buf) == p
    decreases |p.delivered|
  {
    if p.delivered == [] {
      assert buf == Pending(p.mode) + p.rest;
      if p.mode.HaveEnvelope? {
        DecodeEncodeEnvelope(p.mode.envelope);
        assert buf[..ENVELOPE_SIZE] == EncodeEnvelope(p.mode.envelope);
        assert buf[ENVELOPE_SIZE..] == p.rest;
      } else {
        assert buf == p.rest;
      }
    } else {
      var t := p.delivered[0];
      var q := p.(delivered := p.delivered[1..]);
      assert p == q.(delivered := [t] + q.delivered);
      AccountedCons(kind, t, q);
      DrainIsUnique(kind, q, Accounted(kind, q));
      DrainMessage(kind, t, Accounted(kind, q));
    }
  }

  /** A whole message in front is delivered first. */
  lemma DrainMessage(kind: int32, t: Payload, tail: seq<byte>)
    ensures var q := Drain(kind, BeforeEnvelope, tail);
            Drain(kind, BeforeEnvelope, EncodeMessage(kind, t) + tail) == q.(delivered := [t] + q.delivered)
  {
    var e := Envelope(kind, |t|);
    var buf := EncodeMessage(kind, t) + tail;
    DecodeEncodeEnvelope(e);
    assert buf[..ENVELOPE_SIZE] == EncodeEnvelope(e);
    var rest := buf[ENVELOPE_SIZE..];
    assert rest == t + tail;
    assert rest[..|t|] == t && rest[|t|..] == tail;
    assert !Stuck(kind, HaveEnvelope(e), rest);
  }

  lemma {:induction false} EncodeAllAppend(kind: int32, xs: seq<Payload>, ys: seq<Payload>)
    ensures EncodeAll(kind, xs + ys) == EncodeAll(kind, xs) + EncodeAll(kind, ys)
  {
    if xs == [] {
      assert xs + ys == ys;
    } else {
      assert (xs + ys)[0] == xs[0] && (xs + ys)[1..] == xs[1..] + ys;
      EncodeAllAppend(kind, xs[1..], ys);
    }
  }

  /** One read: the bytes join the queue and the decoder parses what it can. */
  function Feed(kind: int32, p: Parsed, chunk: seq<byte>): Parsed {
    var q := Drain(kind, p.mode, p.rest + chunk);
    q.(delivered := p.delivered + q.delivered)
  }

  function FeedAll(kind: int32, p: Parsed, chunks: seq<seq<byte>>): Parsed
    decreases |chunks|
  {
    if chunks == [] then p else FeedAll(kind, Feed(kind, p, chunks[0]), chunks[1..])
  }

  function Flatten(chunks: seq<seq<byte>>): seq<byte>
    decreases |chunks|
  {
    if chunks == [] then [] else chunks[0] + Flatten(chunks[1..])
  }

  lemma FeedAccounts(kind: int32, p: Parsed, chunk: seq<byte>)
    ensures Accounted(kind, Feed(kind, p, chunk)) == Accounted(kind, p) + chunk
    ensures Stuck(kind, Feed(kind, p, chunk).mode, Feed(kind, p, chunk).rest)
  {
    var q := Drain(kind, p.mode, p.rest + chunk);
    DrainConserves(kind, p.mode, p.rest + chunk);
    EncodeAllAppend(kind, p.delivered, q.delivered);
    var x, y, c, d := EncodeAll(kind, p.delivered), EncodeAll(kind, q.delivered), Pending(q.mode), q.rest;
    Assoc(x, y, c, d);
    assert y + c + d == Pending(p.mode) + (p.rest + chunk);
    Assoc(x, Pending(p.mode), p.rest, chunk);
  }

  lemma {:induction false} FeedAllAccounts(kind: int32, p: Parsed, chunks: seq<seq<byte>>)
    requires Stuck(kind, p.mode, p.rest)
    ensures var q := FeedAll(kind, p, chunks);
            Accounted(kind, q) == Accounted(kind, p) + Flatten(chunks) && Stuck(kind, q.mode, q.rest)
    decreases |chunks|
  {
    if chunks != [] {
      FeedAccounts(kind, p, chunks[0]);
      FeedAllAccounts(kind, Feed(kind, p, chunks[0]), chunks[1..]);
    }
  }

  const FRESH: Parsed := Parsed([], BeforeEnvelope, [])

  /** For any bytes at all, how they were cut into reads changes nothing. */
  lemma FragmentationIndependence(kind: int32, chunks: seq<seq<byte>>)
    ensures FeedAll(kind, FRESH, chunks) == Drain(kind, BeforeEnvelope, Flatten(chunks))
  {
    FeedAllAccounts(kind, FRESH, chunks);
    assert Accounted(kind, FRESH) == [];
    DrainIsUnique(kind, FeedAll(kind, FRESH, chunks), Flatten(chunks));
  }

  /** Messages come out as they went in, one each, however their encoding was cut. */
  lemma MessagesRoundTrip(kind: int32, messages: seq<Payload>, chunks: seq<seq<byte>>)
    requires Flatten(chunks) == EncodeAll(kind, messages)
    ensures FeedAll(kind, FRESH, chunks) == Parsed(messages, BeforeEnvelope, [])
  {
    FragmentationIndependence(kind, chunks);
    DrainIsUnique(kind, Parsed(messages, BeforeEnvelope, []), EncodeAll(kind, messages));
  }

  /** A message cut short: exactly the complete ones have been delivered, and the rest is waiting. */
  lemma {:induction false} PrefixOfMessages(kind: int32, messages: seq<Payload>, p: Parsed, later: seq<byte>)
    requires Accounted(kind, p) + later == EncodeAll(kind, messages) && Stuck(kind, p.mode, p.rest)
    ensures p.delivered <= messages
    ensures p.mode.HaveEnvelope? ==>
              |p.delivered| < |messages| && p.mode.envelope == Envelope(kind, |messages[|p.delivered|]|)
    decreases |p.delivered|
  {
    var all := EncodeAll(kind, messages);
    if p.delivered == [] {
      if p.mode.HaveEnvelope? {
        assert all[..ENVELOPE_SIZE] == EncodeEnvelope(p.mode.envelope);
        assert all[..ENVELOPE_SIZE] == EncodeEnvelope(Envelope(kind, |messages[0]|));
        DecodeEncodeEnvelope(p.mode.envelope);
        DecodeEncodeEnvelope(Envelope(kind, |messages[0]|));
      }
    } else {
      var q := p.(delivered := p.delivered[1..]);
      assert p == q.(delivered := [p.delivered[0]] + q.delivered);
      AccountedCons(kind, p.delivered[0], q);
      assert all == EncodeMessage(kind, p.delivered[0]) + (Accounted(kind, q) + later);
      SameMessage(kind, p.delivered[0], Accounted(kind, q) + later, messages[0], EncodeAll(kind, messages[1..]));
      PrefixOfMessages(kind, messages[1..], q, later);
    }
  }

  lemma SameMessage(kind: int32, s: Payload, x: seq<byte>, t: Payload, y: seq<byte>)
    requires EncodeMessage(kind, s) + x == EncodeMessage(kind, t) + y
    ensures s == t && x == y
  {
    var all := EncodeMessage(kind, s) + x;
    assert all[..ENVELOPE_SIZE] == EncodeEnvelope(Envelope(kind, |s|));
    assert all[..ENVELOPE_SIZE] == EncodeEnvelope(Envelope(kind, |t|));
    DecodeEncodeEnvelope(Envelope(kind, |s|));
    DecodeEncodeEnvelope(Envelope(kind, |t|));
    assert all[ENVELOPE_SIZE..] == s + x == t + y;
    assert s == (s + x)[..|s|] && t == (t + y)[..|t|];
    assert x == (s + x)[|s|..] && y == (t + y)[|t|..];
  }

  lemma StuckLeavesRoom(kind: int32, messages: seq<Payload>, p: Parsed, later: seq<byte>, size: nat)
    requires Accounted(kind, p) + later == EncodeAll(kind, messages) && Stuck(kind, p.mode, p.rest)
    requires size >= ENVELOPE_SIZE && forall t :: t in messages ==> |t| <= size
    ensures |p.rest| < size
  {
    PrefixOfMessages(kind, messages, p, later);
    if p.mode.HaveEnvelope? {
      assert messages[|p.delivered|] in messages;
    }
  }

  /** Messages no larger than the ring never fill it, so a reader always has room for the next bytes. */
  lemma RoomForMore(kind: int32, messages: seq<Payload>, chunks: seq<seq<byte>>, later: seq<byte>, size: nat)
    requires Flatten(chunks) + later == EncodeAll(kind, messages)
    requires size >= ENVELOPE_SIZE && forall t :: t in messages ==> |t| <= size
    ensures |FeedAll(kind, FRESH, chunks).rest| < size
  {
    FeedAllAccounts(kind, FRESH, chunks);
    assert Accounted(kind, FRESH) + Flatten(chunks) == Flatten(chunks);
    StuckLeavesRoom(kind, messages, FeedAll(kind, FRESH, chunks), later, size);
  }
}
