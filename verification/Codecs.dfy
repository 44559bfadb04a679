/** Encoders that write messages into a ring, and decoders that resume where the last read ended. */
module Codecs {
  import opened Bytes
  import opened RingBuffers
  import opened Channels
  import opened Framing

  /** A parse together with what its commits did to the channel. */
  datatype ChanParse = ChanParse(delivered: seq<Payload>, mode: Mode, ch: Chan)

  /** Takes an envelope off the channel, in two commits of four bytes. */
  function TakeEnvelope(l: Limits, ch: Chan): (r: Chan)
    requires ENVELOPE_SIZE <= |ch.bytes| <= l.size
    ensures r.bytes == ch.bytes[ENVELOPE_SIZE..]
  {
    Committed(l, Committed(l, ch, 4), 4)
  }

  /** `Decoder::try_read`. */
  function TakeIfBefore(l: Limits, m: Mode, ch: Chan): (r: (Mode, Chan))
    requires |ch.bytes| <= l.size
    ensures |r.1.bytes| <= |ch.bytes|
  {
    if m.BeforeEnvelope? && |ch.bytes| >= ENVELOPE_SIZE then
      (HaveEnvelope(DecodeEnvelope(ch.bytes[..ENVELOPE_SIZE])), TakeEnvelope(l, ch))
    else
      (m, ch)
  }

  function DrainChan(l: Limits, kind: int32, m: Mode, ch: Chan): (r: ChanParse)
    requires |ch.bytes| <= l.size
    ensures |r.ch.bytes| <= |ch.bytes|
    decreases |ch.bytes| + if m.HaveEnvelope? then 1 else 0
  {
    match m
    case BeforeEnvelope =>
      if |ch.bytes| < ENVELOPE_SIZE then ChanParse([], m, ch)
      else DrainChan(l, kind, HaveEnvelope(DecodeEnvelope(ch.bytes[..ENVELOPE_SIZE])), TakeEnvelope(l, ch))
    case HaveEnvelope(e) =>
      if Stuck(kind, m, ch.bytes) then ChanParse([], m, ch)
      else
        var t: Payload := ch.bytes[..e.messageSize];
        var r := DrainChan(l, kind, BeforeEnvelope, Committed(l, ch, e.messageSize));
        r.(delivered := [t] + r.delivered)
  }

  lemma DrainAfterTake(l: Limits, kind: int32, m: Mode, ch: Chan, m': Mode, ch': Chan)
    requires |ch.bytes| <= l.size && (m', ch') == TakeIfBefore(l, m, ch)
    ensures DrainChan(l, kind, m, ch) == DrainChan(l, kind, m', ch')
    ensures m'.BeforeEnvelope? || Stuck(kind, m', ch'.bytes) ==> DrainChan(l, kind, m, ch) == ChanParse([], m', ch')
  {
  }

  lemma DrainAfterPayload(l: Limits, kind: int32, e: Envelope, ch: Chan, t: Payload, ch': Chan)
    requires |ch.bytes| <= l.size && !Stuck(kind, HaveEnvelope(e), ch.bytes)
    requires t == ch.bytes[..e.messageSize] && ch' == Committed(l, ch, e.messageSize)
    ensures var r := DrainChan(l, kind, BeforeEnvelope, ch');
            DrainChan(l, kind, HaveEnvelope(e), ch) == r.(delivered := [t] + r.delivered)
  {
  }

  /** On the bytes it is plain parsing, and it wakes nobody where nobody waits. */
  lemma {:induction false} DrainChanDrains(l: Limits, kind: int32, m: Mode, ch: Chan)
    requires |ch.bytes| <= l.size
    ensures var r := DrainChan(l, kind, m, ch);
            && Parsed(r.delivered, r.mode, r.ch.bytes) == Drain(kind, m, ch.bytes)
            && (ch.waiters == [] ==> r.ch.waiters == [] && r.ch.posted == ch.posted)
    decreases |ch.bytes| + if m.HaveEnvelope? then 1 else 0
  {
    if !Stuck(kind, m, ch.bytes) {
      if m.BeforeEnvelope? {
        DrainChanDrains(l, kind, HaveEnvelope(DecodeEnvelope(ch.bytes[..ENVELOPE_SIZE])), TakeEnvelope(l, ch));
      } else {
        DrainChanDrains(l, kind, BeforeEnvelope, Committed(l, ch, m.envelope.messageSize));
      }
    }
  }

  /** An envelope in front of other bytes is read back, and the bytes behind it stay. */
  lemma EnvelopeRoundTrip(l: Limits, e: Envelope, tail: seq<byte>, ch: Chan)
    requires ch.bytes == EncodeEnvelope(e) + tail && |ch.bytes| <= l.size
    ensures var r := TakeIfBefore(l, BeforeEnvelope, ch);
            r.0 == HaveEnvelope(e) && r.1.bytes == tail
  {
    DecodeEncodeEnvelope(e);
    assert ch.bytes[..ENVELOPE_SIZE] == EncodeEnvelope(e) && ch.bytes[ENVELOPE_SIZE..] == tail;
  }

  method FillEnvelope(e: Envelope, buff: RingBuffer)
    requires buff.Valid() && ENVELOPE_SIZE <= buff.nonFilledSize
    modifies buff, buff.mem
    ensures buff.Valid() && buff.Contents() == old(buff.Contents()) + EncodeEnvelope(e)
    ensures var b := buff.Contents()[old(buff.filledSize)..];
            |b| == 8 && IsLittleEndian(b[..4], e.messageType) && IsLittleEndian(b[4..], e.messageSize)
  {
    hide EncodeEnvelope, IsLittleEndian;
    EnvelopeOnTheWire(e);
    buff.MemcpyIn(EncodeEnvelope(e));
  }

  /** `fill_message` of the client and `fill_time` of the server. */
  method FillMessage(kind: int32, msg: Payload, buff: RingBuffer)
    requires buff.Valid() && ENVELOPE_SIZE + |msg| <= buff.nonFilledSize
    modifies buff, buff.mem
    ensures buff.Valid() && buff.Contents() == old(buff.Contents()) + EncodeMessage(kind, msg)
    ensures var b := buff.Contents()[old(buff.filledSize)..];
            |b| == 8 + |msg| && IsLittleEndian(b[..4], kind) && IsLittleEndian(b[4..8], |msg|) && b[8..] == msg
  {
    hide EncodeEnvelope, IsLittleEndian;
    MessageOnTheWire(kind, msg);
    FillEnvelope(Envelope(kind, |msg|), buff);
    buff.MemcpyIn(msg);
  }

  /** `peek_int`, then `commit`. */
  method TakeInt(ch: Channel) returns (v: int32)
    requires ch.Valid() && ch.buffer.filledSize >= 4
    modifies ch, ch.buffer
    ensures ch.Valid() && v == DecodeInt(old(ch.Model()).bytes[..4])
    ensures IsLittleEndian(old(ch.Model()).bytes[..4], v)
    ensures ch.Model() == Committed(ch.Bounds(), old(ch.Model()), 4)
  {
    v := ch.buffer.PeekInt();
    ch.Commit(4);
  }

  /** `peek_string_view`, handed to the caller, then `commit`. */
  method TakePayload(ch: Channel, n: nat) returns (t: seq<byte>)
    requires ch.Valid() && n <= ch.buffer.filledSize
    modifies ch, ch.buffer
    ensures ch.Valid() && t == old(ch.Model()).bytes[..n]
    ensures ch.Model() == Committed(ch.Bounds(), old(ch.Model()), n)
  {
    t := ch.buffer.PeekSpan(n).Gather(ch.buffer.mem[..]);
    ch.Commit(n);
  }

  datatype DecoderState = Before | Have

  class Decoder {
    /** The type of message that is delivered when it is complete. */
    const kind: int32
    var state: DecoderState
    var envelope: Envelope
    /** What the message callback was called with, in order. */
    var messages: seq<Payload>

    function Mode(): Mode
      reads this
    {
      if state.Before? then BeforeEnvelope else HaveEnvelope(envelope)
    }

    constructor (kind: int32)
      ensures this.kind == kind && Mode() == BeforeEnvelope && messages == []
    {
      this.kind := kind;
      state, envelope, messages := Before, Envelope(0, 0), [];
    }

    method Reset()
      modifies this
      ensures Mode() == BeforeEnvelope && messages == old(messages)
    {
      state := Before;
      envelope := Envelope(0, 0);
    }

    /** The branch of `try_read` in which a whole envelope is there. */
    method ReadEnvelope(ch: Channel)
      requires ch.Valid() && ch.buffer.filledSize >= ENVELOPE_SIZE
      modifies this, ch, ch.buffer
      ensures ch.Valid() && messages == old(messages)
      ensures Mode() == HaveEnvelope(DecodeEnvelope(old(ch.Model()).bytes[..ENVELOPE_SIZE]))
      ensures IsLittleEndian(old(ch.Model()).bytes[..4], envelope.messageType)
      ensures IsLittleEndian(old(ch.Model()).bytes[4..8], envelope.messageSize)
      ensures ch.Model() == Committed(ch.Bounds(), Committed(ch.Bounds(), old(ch.Model()), 4), 4)
    {
      hide Committed, DecodeInt, IsLittleEndian;
      ghost var bytes := ch.Model().bytes;
      assert bytes[4..][..4] == bytes[..8][4..] == bytes[4..8] && bytes[..8][..4] == bytes[..4];
      var messageType := TakeInt(ch);
      var messageSize := TakeInt(ch);
      envelope := Envelope(messageType, messageSize);
      state := Have;
    }

    method TryRead(ch: Channel) returns (ok: bool)
      requires ch.Valid()
      modifies this, ch, ch.buffer
      ensures messages == old(messages)
      ensures ch.Valid() && ok == Mode().HaveEnvelope? && ch.buffer.filledSize <= old(ch.buffer.filledSize)
      ensures (Mode(), ch.Model()) == TakeIfBefore(ch.Bounds(), old(Mode()), old(ch.Model()))
      ensures old(state.Before?) && ok ==>
                && old(ch.buffer.filledSize) >= 8
                && IsLittleEndian(old(ch.Model()).bytes[..4], envelope.messageType)
                && IsLittleEndian(old(ch.Model()).bytes[4..8], envelope.messageSize)
      decreases if state.Before? then 1 else 0
    {
      hide DecodeEnvelope, Committed, IsLittleEndian;
      if state.Before? {
        if ch.buffer.filledSize >= ENVELOPE_SIZE {
          ReadEnvelope(ch);
          ok := TryRead(ch);
        } else {
          ok := false;
        }
      } else {
        ok := true;
      }
    }

    /** Handing over a complete message and starting afresh. */
    method Deliver(ch: Channel)
      requires ch.Valid() && Mode().HaveEnvelope?
      requires 0 <= envelope.messageSize <= ch.buffer.filledSize
      modifies this, ch, ch.buffer
      ensures ch.Valid() && Mode() == BeforeEnvelope
      ensures ch.Model() == Committed(ch.Bounds(), old(ch.Model()), old(envelope.messageSize))
      ensures messages == old(messages) + [old(ch.Model()).bytes[..old(envelope.messageSize)]]
    {
      var message: Payload := TakePayload(ch, envelope.messageSize);
      messages := messages + [message];
      Reset();
    }

    /** The part of `try_read_server` before its call of itself; `again` says whether it comes to that. */
    method TryDeliver(ch: Channel) returns (again: bool)
      requires ch.Valid()
      modifies this, ch, ch.buffer
      ensures ch.Valid() && ch.buffer.filledSize <= old(ch.buffer.filledSize)
      ensures var r := DrainChan(ch.Bounds(), kind, Mode(), ch.Model());
              var q := DrainChan(ch.Bounds(), kind, old(Mode()), old(ch.Model()));
              if again then
                state.Before? && |messages| > 0 && messages[..|messages| - 1] == old(messages) &&
                q == r.(delivered := [messages[|messages| - 1]] + r.delivered)
              else
                messages == old(messages) && q == ChanParse([], Mode(), ch.Model())
      ensures old(state.Before?) && (again || state.Have?) ==> ch.buffer.filledSize < old(ch.buffer.filledSize)
    {
      hide DrainChan, DecodeEnvelope, Committed, TakeEnvelope;
      ghost var l, m, was := ch.Bounds(), Mode(), ch.Model();
      var ok := TryRead(ch);
      ghost var now := ch.Model();
      DrainAfterTake(l, kind, m, was, Mode(), now);
      again := false;
      if ok && envelope.messageType == kind {
        UnsignedComparison(kind, envelope, now.bytes);
        if ch.buffer.filledSize >= ToSizeT(envelope.messageSize) {
          ghost var e := envelope;
          Deliver(ch);
          DrainAfterPayload(l, kind, e, now, now.bytes[..e.messageSize], ch.Model());
          again := true;
        }
      }
    }
  }

  class ServerDecoder {
    const base: Decoder

    constructor ()
      ensures fresh(base) && base.kind == 3 && base.Mode() == BeforeEnvelope && base.messages == []
    {
      base := new Decoder(3);
    }

    method TryReadServer(ch: Channel)
      requires ch.Valid() && base.kind == 3
      modifies base, ch, ch.buffer
      ensures ch.Valid()
      ensures var r := DrainChan(ch.Bounds(), 3, old(base.Mode()), old(ch.Model()));
              base.messages == old(base.messages) + r.delivered && base.Mode() == r.mode && ch.Model() == r.ch
      decreases ch.buffer.filledSize + if base.state.Have? then 1 else 0
    {
      hide DrainChan;
      var again := base.TryDeliver(ch);
      if again {
        TryReadServer(ch);
      }
    }
  }
}
