/** The server's connection: the time, the envelope of the file, and then the file itself. */
module ServerConnection {
  import opened Bytes
  import opened LinearMemory
  import opened RingBuffers
  import opened Channels
  import opened Framing
  import opened Codecs
  import opened Session

  /** What one call of `sendfile` comes to. */
  datatype SendResult = Sent(n: nat) | WouldBlock | ConnectionLost

  class SendFile {
    const file: Payload
    var cur: nat
    /** Where the kernel will read the file next. */
    var position: nat
    /** What has been handed to the socket. */
    ghost var sent: seq<byte>
    /** Whether the callback has been told that nothing is left. */
    var finished: bool

    ghost predicate Valid()
      reads this
    {
      cur <= |file| && position == cur && sent == file[..cur]
    }

    constructor (file: Payload)
      ensures Valid() && this.file == file && cur == 0 && !finished
    {
      this.file := file;
      cur, position, sent, finished := 0, 0, [], false;
    }

    /** What the kernel takes when it would take `r.n` bytes and is asked for all that is left. */
    function Taken(r: SendResult): (n: nat)
      reads this
      requires cur <= |file|
      ensures cur + n <= |file|
    {
      if r.Sent? then Least(r.n, |file| - cur) else 0
    }

    /** `call`, for one answer of the kernel; `again` says whether the callback asks for another call. */
    method Call(r: SendResult) returns (again: bool)
      requires Valid() && !finished
      modifies this
      ensures Valid() && again == !finished
      ensures cur == old(cur) + old(Taken(r)) && sent == old(sent) + file[old(cur)..cur]
      ensures !r.ConnectionLost? ==> (finished <==> cur == |file|)
      ensures r.ConnectionLost? ==> finished
    {
      var n := Taken(r);
      match r {
        case Sent(_) =>
          sent := sent + file[position..position + n];
          position := position + n;
          cur := cur + n;
          OnChunkSent(|file| - cur);
        case WouldBlock =>
          OnChunkSent(|file| - cur);
        case ConnectionLost =>
          OnChunkSent(0);
      }
      again := !finished;
    }

    method OnChunkSent(left: nat)
      modifies this`finished
      ensures finished == (left == 0)
    {
      finished := left == 0;
    }
  }

  function Least(a: nat, b: nat): (n: nat)
    ensures n <= a && n <= b && (n == a || n == b)
  {
    if a < b then a else b
  }

  /** What a kernel that answers so would take of an endless file. */
  function Total(results: seq<SendResult>): nat {
    if results == [] then 0
    else
      var r := results[|results| - 1];
      Total(results[..|results| - 1]) + if r.Sent? then r.n else 0
  }

  /** A whole transfer: the kernel's answers one after the other, as long as the callback asks for more. */
  method Transfer(file: Payload, results: seq<SendResult>) returns (transfer: SendFile, k: nat)
    requires forall r :: r in results ==> !r.ConnectionLost?
    ensures fresh(transfer) && transfer.Valid() && transfer.file == file && k <= |results|
    ensures transfer.cur == Least(|file|, Total(results[..k]))
    ensures transfer.sent == file[..transfer.cur]
    ensures k > 0 ==> (transfer.finished <==> transfer.cur == |file|)
    ensures !transfer.finished ==> k == |results|
  {
    transfer := new SendFile(file);
    k := 0;
    var again := true;
    while again && k < |results|
      invariant transfer.Valid() && transfer.file == file && k <= |results| && again == !transfer.finished
      invariant fresh(transfer) && transfer.cur == Least(|file|, Total(results[..k]))
      invariant k > 0 ==> (transfer.finished <==> transfer.cur == |file|)
      decreases |results| - k
    {
      assert results[..k + 1][..k] == results[..k];
      again := transfer.Call(results[k]);
      k := k + 1;
    }
  }

  /** `CutOff` is a transfer that the client's leaving has ended. */
  datatype Phase = WritingTime | WritingEnvelope | TransferringFile | Done | CutOff

  class TcpConnection {
    const offer: Offer
    const writeBuffer: RingBuffer
    var phase: Phase
    var sendFile: SendFile?

    /** The connection and all it owns but the transfer. */
    ghost function Parts(): set<object> {
      {this, writeBuffer, writeBuffer.mem}
    }

    ghost predicate Valid()
      reads this, writeBuffer, writeBuffer.mem, sendFile
    {
      && writeBuffer.Valid() && writeBuffer.size >= ENVELOPE_SIZE
      && (phase.TransferringFile? || phase.CutOff? ==>
            && sendFile != null && sendFile.Valid() && sendFile.file == offer.file
            && sendFile.finished == phase.CutOff?
            && (sendFile.cur < |offer.file| || (offer.file == [] && phase.TransferringFile?)))
    }

    ghost function Model(): Server
      reads this, writeBuffer, writeBuffer.mem, sendFile
      requires Valid()
    {
      match phase
      case WritingTime => SendingTime(writeBuffer.Contents())
      case WritingEnvelope => SendingEnvelope(writeBuffer.Contents())
      case TransferringFile | CutOff => SendingFile(sendFile.cur)
      case Done => Finished
    }

    /** The connection starts by sending the date. */
    constructor (offer: Offer, pageSize: nat)
      requires IsPageSize(pageSize) && 2 * (8388608 + pageSize) < TWO_64
      requires ENVELOPE_SIZE + |offer.time| <= 8388608
      ensures Valid() && fresh(Parts() - {this}) && sendFile == null
      ensures this.offer == offer && phase.WritingTime? && Model() == Begin(offer).server
    {
      hide IsLittleEndian, Region, Mirrored, Cell, EncodeEnvelope;
      this.offer := offer;
      writeBuffer := new RingBuffer(8388608, pageSize, 20000, 40000);
      sendFile, phase := null, WritingTime;
      new;
      FillMessage(1, offer.time, writeBuffer);
      assert writeBuffer.Contents() == EncodeMessage(1, offer.time);
    }

    /** The handler of a write that took `n` bytes of the ring; `taken` is what went out. */
    method OnWritten(n: nat, ghost l: Limits, ghost s: State) returns (taken: seq<byte>)
      requires Valid() && s.server == Model()
      requires (phase.WritingTime? || phase.WritingEnvelope?) && n <= writeBuffer.filledSize
      modifies this, writeBuffer, writeBuffer.mem
      ensures Valid() && CanDo(l, offer, s, WriteSome(n))
      ensures Do(l, offer, s, WriteSome(n)) == s.(server := Model(), wire := s.wire + taken)
      ensures !phase.CutOff? && (sendFile == old(sendFile) || fresh(sendFile))
    {
      taken := writeBuffer.DataUpTo(n).Gather(writeBuffer.mem[..]);
      writeBuffer.Commit(n);
      if writeBuffer.filledSize == 0 {
        writeBuffer.Reset();
        Continue();
      }
    }

    /** The continuation that `send` runs once the ring is empty. A transfer's first call is the first `OnSendfile`. */
    method Continue()
      requires Valid() && writeBuffer.Contents() == [] && (phase.WritingTime? || phase.WritingEnvelope?)
      modifies this, writeBuffer, writeBuffer.mem
      ensures Valid() && Model() == Next(offer, old(Model()))
      ensures !phase.CutOff? && (sendFile == old(sendFile) || fresh(sendFile))
    {
      if phase.WritingTime? {
        FillEnvelope(Envelope(2, |offer.file|), writeBuffer);
        phase := WritingEnvelope;
      } else {
        sendFile := new SendFile(offer.file);
        phase := TransferringFile;
      }
    }

    /** One answer of `sendfile`; `taken` is what went out. A lost connection ends the transfer where it is. */
    method OnSendfile(r: SendResult, ghost l: Limits, ghost s: State) returns (taken: seq<byte>)
      requires Valid() && phase.TransferringFile? && s.server == Model()
      modifies this, sendFile
      ensures Valid() && sendFile == old(sendFile) && CanDo(l, offer, s, SendChunk(|taken|))
      ensures Do(l, offer, s, SendChunk(|taken|)) == s.(server := Model(), wire := s.wire + taken)
      ensures |taken| == old(sendFile.Taken(r)) && (r.ConnectionLost? ==> taken == [])
      ensures phase.CutOff? <==> r.ConnectionLost? && offer.file != []
    {
      var was := sendFile.cur;
      var again := sendFile.Call(r);
      taken := offer.file[was..sendFile.cur];
      if !again {
        phase := if sendFile.cur < |offer.file| then CutOff else Done;
      }
    }
  }
}
