/** What single steps of the client come to, and how its tasks are counted, apart from how the steps are computed. */
module ClientLaws {
  import opened Bytes
  import opened Channels
  import opened Codecs
  import opened ClientModel

  // Reading and parking.

  predicate Receives(e: Event) {
    e.Receive? || e.ResumeInside?
  }

  /**
   A receiver reads into all the room there is whenever there is any, and parks only behind a full
   ring, to be woken as soon as one byte is free.
   */
  lemma ReadsIfThereIsRoom(l: Limits, c: Client, e: Event)
    requires Enabled(l, c, e) && Receives(e)
    ensures var d := Apply(l, c, e);
            var was, now, posted := c.stream.input, d.stream.input, if e.Receive? then 0 else 1;
            && now.bytes == was.bytes && now.posted == was.posted[posted..]
            && (|was.bytes| < l.size ==> d.reading == ReadInto(l.size - |was.bytes|) && now.waiters == was.waiters)
            && (|was.bytes| == l.size ==>
                  && d.reading == c.reading && |now.waiters| == |was.waiters| + 1 && was.waiters <= now.waiters
                  && now.waiters[|was.waiters|].wantsSize == 1)
  {
  }

  // Posted calls of `decode_next`.

  function CountRuns(es: seq<Event>): nat
    decreases |es|
  {
    if es == [] then 0 else (if es[0].RunDecode? then 1 else 0) + CountRuns(es[1..])
  }

  /** A callback that plays something and leaves less than the low watermark. */
  predicate RunsLow(l: Limits, c: Client, e: Event) {
    && e.Audio? && c.stream.output.bytes != []
    && (e.len >= |c.stream.output.bytes| || |c.stream.output.bytes| - e.len < l.low)
  }

  ghost function CountLow(l: Limits, c: Client, es: seq<Event>): nat
    requires IsRun(l, c, es)
    decreases |es|
  {
    if es == [] then 0 else (if RunsLow(l, c, es[0]) then 1 else 0) + CountLow(l, Apply(l, c, es[0]), es[1..])
  }

  lemma StepCountsPosts(l: Limits, c: Client, e: Event)
    requires 0 < l.low && Enabled(l, c, e)
    ensures Apply(l, c, e).stream.decodePosts + (if e.RunDecode? then 1 else 0) ==
              c.stream.decodePosts + if RunsLow(l, c, e) then 1 else 0
  {
    hide DrainChan, Ready, NotReady;
  }

  /** Every callback that leaves the output low posts one call, and every posted call is run once or still to be run. */
  lemma {:induction false} EveryPostIsRun(l: Limits, c: Client, es: seq<Event>)
    requires 0 < l.low && IsRun(l, c, es)
    ensures After(l, c, es).stream.decodePosts + CountRuns(es) == c.stream.decodePosts + CountLow(l, c, es)
    decreases |es|
  {
    hide Apply, Enabled, RunsLow;
    if es != [] {
      StepCountsPosts(l, c, es[0]);
      EveryPostIsRun(l, Apply(l, c, es[0]), es[1..]);
    }
  }

  lemma PostsFromTheStart(l: Limits, es: seq<Event>)
    requires 0 < l.low && IsRun(l, Start(), es)
    ensures After(l, Start(), es).stream.decodePosts + CountRuns(es) == CountLow(l, Start(), es)
  {
    EveryPostIsRun(l, Start(), es);
  }

  // Decoding.

  /** The library may use up any part of its input, and make of it any number of samples up to the most there are. */
  lemma AnyFrameIsGood(n: nat, frameBytes: nat, samples: nat, pcm: seq<byte>)
    requires 1 <= frameBytes <= n && samples <= 1152 && |pcm| == 8 * samples
    ensures GoodFrame(Frame(frameBytes, samples, pcm), n)
  {
  }

  /** A frame is taken whole if the output has room for it. If not, nothing moves and a callback waits for its size. */
  lemma FrameIsTakenOrWaits(l: Limits, s: Stream, f: Frame)
    requires Fits(l, s) && GoodFrame(f, |s.input.bytes|)
    ensures var t := DecodeFrame(l, s, f);
            && t.decodePosts == s.decodePosts && t.played == s.played
            && (t.started <==> s.started || (f.samples > 0 && |t.output.bytes| >= l.low))
            && (|s.output.bytes| + |f.pcm| <= l.size ==>
                  && t.input.bytes == s.input.bytes[f.frameBytes..] && t.output.bytes == s.output.bytes + f.pcm
                  && t.waiting == s.waiting && t.output.waiters == s.output.waiters)
            && (|s.output.bytes| + |f.pcm| > l.size ==>
                  && t.input == s.input && t.output.bytes == s.output.bytes && t.waiting
                  && |t.output.waiters| == |s.output.waiters| + 1 && s.output.waiters <= t.output.waiters
                  && t.output.waiters[|s.output.waiters|].wantsSize == |f.pcm|)
  {
  }

  /** While a frame waits for room, `decode_next` does nothing; the callback that has found room ends the wait. */
  lemma WaitingStopsDecoding(l: Limits, c: Client, e: Event)
    requires Enabled(l, c, e)
    ensures e.Enter? && c.stream.waiting ==> Apply(l, c, e) == c.(pc := Left(c.pc.inHandler))
    ensures e.RunUnblock? ==>
              !Apply(l, c, e).stream.waiting && Apply(l, c, e).pc.Entering?
              && |Apply(l, c, e).stream.output.posted| + 1 == |c.stream.output.posted|
    ensures e.Enter? && !c.stream.waiting ==> Apply(l, c, e).pc.Testing?
  {
  }

  /** A test goes on to decode exactly when there is input and the output is below the high watermark. */
  lemma DecodesUpToHigh(l: Limits, c: Client, e: Event)
    requires Enabled(l, c, e) && e.Test?
    ensures Apply(l, c, e).pc.Decoding? <==> c.stream.input.bytes != [] && |c.stream.output.bytes| < l.high
    ensures Apply(l, c, e).stream == c.stream
  {
  }
}
