/** Which of the decoded sound a finished session has played, and which it has not. */
module Playback {
  import opened Bytes
  import opened Channels
  import opened Framing
  import opened Codecs
  import opened ClientModel
  import opened ClientSafety
  import opened Session
  import opened Delivery

  /**
   The samples decoded since the device last found the output empty and was stopped, or since the
   start. `kept` is what was decoded before `es` in the same sense.
   */
  ghost function SinceStop(l: Limits, c: Client, kept: seq<byte>, es: seq<Event>): seq<byte>
    requires IsRun(l, c, es)
    decreases |es|
  {
    if es == [] then kept
    else SinceStop(l, Apply(l, c, es[0]), KeptAfter(c, kept, es[0]), es[1..])
  }

  ghost function KeptAfter(c: Client, kept: seq<byte>, e: Event): seq<byte> {
    if e.Audio? && c.stream.output.bytes == [] then [] else kept + PcmOf(e)
  }

  /** While the device is stopped, the output is exactly what was decoded since it stopped. */
  ghost predicate StoppedHolds(c: Client, kept: seq<byte>) {
    && (!c.stream.started ==> c.stream.output.bytes == kept)
    && |kept| % 8 == 0
  }

  lemma AudioHolds(l: Limits, s: Stream, len: nat)
    requires Fits(l, s) && s.started
    ensures var t := PlayAudio(l, s, len);
            !t.started <==> s.output.bytes == []
    ensures s.output.bytes == [] ==> PlayAudio(l, s, len).output.bytes == []
  {
    hide Committed;
  }

  lemma DecodeHolds(l: Limits, s: Stream, f: Frame)
    requires Sound(l) && StreamInv(l, s) && GoodFrame(f, |s.input.bytes|) && |s.output.bytes| < l.high
    ensures var t := DecodeFrame(l, s, f);
            (s.started ==> t.started) && t.output.bytes == s.output.bytes + f.pcm
  {
    hide Committed;
  }

  lemma StepHolds(l: Limits, c: Client, kept: seq<byte>, e: Event)
    requires Sound(l) && ClientInv(l, c) && Enabled(l, c, e) && StoppedHolds(c, kept)
    ensures StoppedHolds(Apply(l, c, e), KeptAfter(c, kept, e))
  {
    hide Drain, DrainChan, Committed, DecodeFrame, PlayAudio, Stuck;
    assert kept + [] == kept;
    match e
    case Decode(f) => DecodeHolds(l, c.stream, f);
    case Audio(len) => AudioHolds(l, c.stream, len);
    case _ =>
  }

  lemma {:induction false} RunHolds(l: Limits, c: Client, kept: seq<byte>, es: seq<Event>)
    requires Sound(l) && ClientInv(l, c) && IsRun(l, c, es) && StoppedHolds(c, kept)
    ensures StoppedHolds(After(l, c, es), SinceStop(l, c, kept, es))
    decreases |es|
  {
    hide Apply, Enabled, ClientInv, StoppedHolds, KeptAfter;
    if es != [] {
      StepKeepsInv(l, c, es[0]);
      StepHolds(l, c, kept, es[0]);
      RunHolds(l, Apply(l, c, es[0]), KeptAfter(c, kept, es[0]), es[1..]);
    }
  }

  // What a session leaves unplayed.

  ghost function Decoded(l: Limits, o: Offer, acts: seq<Action>): seq<byte>
    requires IsSession(l, o, Begin(o), acts)
  {
    DecodedPcm(ClientRun(l, o, Begin(o), acts))
  }

  ghost function Played(l: Limits, o: Offer, acts: seq<Action>): seq<byte>
    requires IsSession(l, o, Begin(o), acts)
  {
    Outcome(l, o, Begin(o), acts).client.stream.played
  }

  /** What was decoded after the last time the device was stopped. */
  ghost function Tail(l: Limits, o: Offer, acts: seq<Action>): seq<byte>
    requires IsSession(l, o, Begin(o), acts)
  {
    SessionIsClientRun(l, o, Begin(o), acts);
    SinceStop(l, Start(), [], ClientRun(l, o, Begin(o), acts))
  }

  /** A finished session has played all that was decoded except what came after the last stop. */
  lemma AllButTheTail(l: Limits, o: Offer, acts: seq<Action>)
    requires Playable(l, o) && IsFinished(l, o, acts)
    ensures Played(l, o, acts) + Tail(l, o, acts) == Decoded(l, o, acts)
    ensures Played(l, o, acts) == Decoded(l, o, acts) <==> Tail(l, o, acts) == []
    ensures |Tail(l, o, acts)| < l.low && |Tail(l, o, acts)| % 8 == 0
  {
    var run := ClientRun(l, o, Begin(o), acts);
    StuckMeansDelivered(l, o, acts);
    SessionIsClientRun(l, o, Begin(o), acts);
    PcmConservation(l, run);
    StartInv(l);
    RunHolds(l, Start(), [], run);
    BeginInv(l, o);
    SessionKeepsInv(l, o, Begin(o), acts);
    BusyCanStep(l, o, Outcome(l, o, Begin(o), acts));
  }

  /** A finished session has played something if and only if at least the low watermark was decoded. */
  lemma PlaysIffLongEnough(l: Limits, o: Offer, acts: seq<Action>)
    requires Playable(l, o) && IsFinished(l, o, acts)
    ensures Played(l, o, acts) != [] <==> |Decoded(l, o, acts)| >= l.low
  {
    StuckMeansDelivered(l, o, acts);
    SessionIsClientRun(l, o, Begin(o), acts);
    HeardIffLongEnough(l, ClientRun(l, o, Begin(o), acts));
    BeginInv(l, o);
    SessionKeepsInv(l, o, Begin(o), acts);
    BusyCanStep(l, o, Outcome(l, o, Begin(o), acts));
  }

  /** With the low watermark of the source's channels, at most 19992 bytes stay unplayed. */
  lemma ShippedTailBound(l: Limits, o: Offer, acts: seq<Action>)
    requires Playable(l, o) && l.low == 20000 && IsFinished(l, o, acts)
    ensures |Decoded(l, o, acts)| - |Played(l, o, acts)| <= 19992
  {
    AllButTheTail(l, o, acts);
    assert |Played(l, o, acts) + Tail(l, o, acts)| == |Decoded(l, o, acts)|;
  }

  // Which frames of the file have been played.

  function FrameOf(e: Event): seq<Frame> {
    if e.Decode? then [e.f] else []
  }

  function FramesOf(es: seq<Event>): seq<Frame>
    decreases |es|
  {
    if es == [] then [] else FrameOf(es[0]) + FramesOf(es[1..])
  }

  /** The frames a session decodes, in order. */
  function FramesIn(acts: seq<Action>): seq<Frame>
    decreases |acts|
  {
    if acts == [] then [] else (if acts[0].Local? then FrameOf(acts[0].e) else []) + FramesIn(acts[1..])
  }

  function PcmOfAll(fs: seq<Frame>): seq<byte> {
    if fs == [] then [] else fs[0].pcm + PcmOfAll(fs[1..])
  }

  function BytesOfAll(fs: seq<Frame>): nat {
    if fs == [] then 0 else fs[0].frameBytes + BytesOfAll(fs[1..])
  }

  lemma {:induction false} PcmAppend(fs: seq<Frame>, gs: seq<Frame>)
    ensures PcmOfAll(fs + gs) == PcmOfAll(fs) + PcmOfAll(gs)
  {
    if fs == [] {
      assert fs + gs == gs;
    } else {
      assert (fs + gs)[0] == fs[0] && (fs + gs)[1..] == fs[1..] + gs;
      PcmAppend(fs[1..], gs);
    }
  }

  lemma {:induction false} BytesAppend(fs: seq<Frame>, gs: seq<Frame>)
    ensures BytesOfAll(fs + gs) == BytesOfAll(fs) + BytesOfAll(gs)
  {
    if fs == [] {
      assert fs + gs == gs;
    } else {
      assert (fs + gs)[0] == fs[0] && (fs + gs)[1..] == fs[1..] + gs;
      BytesAppend(fs[1..], gs);
    }
  }

  lemma OneFrame(e: Event)
    ensures PcmOfAll(FrameOf(e)) == PcmOf(e)
    ensures BytesOfAll(FrameOf(e)) == if e.Decode? then e.f.frameBytes else 0
  {
    if e.Decode? {
      assert [e.f][1..] == [];
      assert e.f.pcm + [] == e.f.pcm;
    }
  }

  lemma {:induction false} FramesAppend(es: seq<Event>, fs: seq<Event>)
    ensures FramesOf(es + fs) == FramesOf(es) + FramesOf(fs)
    decreases |es|
  {
    if es == [] {
      assert es + fs == fs;
    } else {
      assert (es + fs)[0] == es[0] && (es + fs)[1..] == es[1..] + fs;
      FramesAppend(es[1..], fs);
    }
  }

  lemma {:induction false} FramesInIsFramesOf(l: Limits, o: Offer, s: State, acts: seq<Action>)
    requires IsSession(l, o, s, acts)
    ensures FramesOf(ClientRun(l, o, s, acts)) == FramesIn(acts)
    decreases |acts|
  {
    if acts != [] {
      var t := Do(l, o, s, acts[0]);
      FramesInIsFramesOf(l, o, t, acts[1..]);
      FramesAppend(EventOf(s, acts[0]), ClientRun(l, o, t, acts[1..]));
      assert EventOf(s, acts[0]) != [] ==> EventOf(s, acts[0])[1..] == [];
    }
  }

  lemma {:induction false} DecodedIsFrames(es: seq<Event>)
    ensures DecodedPcm(es) == PcmOfAll(FramesOf(es))
    decreases |es|
  {
    if es != [] {
      DecodedIsFrames(es[1..]);
      OneFrame(es[0]);
      PcmAppend(FrameOf(es[0]), FramesOf(es[1..]));
    }
  }

  lemma KeptIsFrames(c: Client, fs: seq<Frame>, k: nat, e: Event)
    requires k <= |fs|
    ensures var gs := fs + FrameOf(e);
            var j := if e.Audio? && c.stream.output.bytes == [] then |gs| else k;
            KeptAfter(c, PcmOfAll(fs[k..]), e) == PcmOfAll(gs[j..])
  {
    OneFrame(e);
    PcmAppend(fs[k..], FrameOf(e));
    assert (fs + FrameOf(e))[k..] == fs[k..] + FrameOf(e);
  }

  /** What has been decoded since the device stopped is the sound of whole frames. */
  lemma {:induction false} SinceStopIsFrames(l: Limits, c: Client, fs: seq<Frame>, k: nat, es: seq<Event>)
    returns (j: nat)
    requires k <= |fs| && IsRun(l, c, es)
    ensures j <= |fs + FramesOf(es)|
    ensures SinceStop(l, c, PcmOfAll(fs[k..]), es) == PcmOfAll((fs + FramesOf(es))[j..])
    decreases |es|
  {
    hide Apply, Enabled, KeptAfter, FrameOf, PcmOfAll;
    if es == [] {
      j := k;
      assert fs + [] == fs;
    } else {
      var gs := fs + FrameOf(es[0]);
      KeptIsFrames(c, fs, k, es[0]);
      var first := if es[0].Audio? && c.stream.output.bytes == [] then |gs| else k;
      j := SinceStopIsFrames(l, Apply(l, c, es[0]), gs, first, es[1..]);
      assert gs + FramesOf(es[1..]) == fs + FramesOf(es);
    }
  }

  /** What the MP3 library may come up with, none of it from more input than the ring can hold. */
  predicate AreFrames(l: Limits, fs: seq<Frame>) {
    forall f :: f in fs ==> GoodFrame(f, f.frameBytes) && f.frameBytes <= l.size
  }

  predicate IsFraming(l: Limits, o: Offer, fs: seq<Frame>) {
    AreFrames(l, fs) && BytesOfAll(fs) == |o.file|
  }

  lemma {:induction false} FramesAreCommitted(l: Limits, c: Client, es: seq<Event>)
    requires Sound(l) && ClientInv(l, c) && IsRun(l, c, es)
    ensures |After(l, c, es).stream.committed| == |c.stream.committed| + BytesOfAll(FramesOf(es))
    ensures AreFrames(l, FramesOf(es))
    decreases |es|
  {
    hide Apply, Enabled, ClientInv, GoodFrame;
    if es != [] {
      StepKeepsInv(l, c, es[0]);
      StepCommits(l, c, es[0]);
      FramesAreCommitted(l, Apply(l, c, es[0]), es[1..]);
      OneFrame(es[0]);
      BytesAppend(FrameOf(es[0]), FramesOf(es[1..]));
    }
  }

  lemma StepCommits(l: Limits, c: Client, e: Event)
    requires Sound(l) && ClientInv(l, c) && Enabled(l, c, e)
    ensures e.Decode? ==>
              && |Apply(l, c, e).stream.committed| == |c.stream.committed| + e.f.frameBytes
              && GoodFrame(e.f, e.f.frameBytes) && e.f.frameBytes <= l.size
    ensures !e.Decode? ==> Apply(l, c, e).stream.committed == c.stream.committed
  {
    if e.Decode? {
      DecodeKeepsStreamInv(l, c.stream, e.f);
    }
  }

  // A stopped device has played nothing or at least the low watermark.

  ghost predicate StopsLate(l: Limits, s: Stream) {
    !s.started && s.played != [] ==> |s.played| >= l.low
  }

  lemma StepStopsLate(l: Limits, c: Client, e: Event)
    requires Sound(l) && ClientInv(l, c) && Enabled(l, c, e) && StopsLate(l, c.stream)
    ensures StopsLate(l, Apply(l, c, e).stream)
  {
    hide Drain, DrainChan, Committed, Stuck;
  }

  lemma {:induction false} RunStopsLate(l: Limits, c: Client, es: seq<Event>)
    requires Sound(l) && ClientInv(l, c) && IsRun(l, c, es) && StopsLate(l, c.stream)
    ensures StopsLate(l, After(l, c, es).stream)
    decreases |es|
  {
    hide Apply, Enabled, ClientInv, StopsLate;
    if es != [] {
      StepKeepsInv(l, c, es[0]);
      StepStopsLate(l, c, es[0]);
      RunStopsLate(l, Apply(l, c, es[0]), es[1..]);
    }
  }

  /** After `k` frames the device can be left stopped with all of them played and the others never. */
  ghost predicate CanStopAfter(l: Limits, fs: seq<Frame>, k: nat) {
    && k <= |fs|
    && (PcmOfAll(fs[..k]) == [] || |PcmOfAll(fs[..k])| >= l.low)
    && |PcmOfAll(fs[k..])| < l.low
  }

  /** A finished session has played nothing or at least the low watermark. */
  lemma PlaysNothingOrEnough(l: Limits, o: Offer, acts: seq<Action>)
    requires Playable(l, o) && IsFinished(l, o, acts)
    ensures Played(l, o, acts) == [] || |Played(l, o, acts)| >= l.low
  {
    var run := ClientRun(l, o, Begin(o), acts);
    SessionIsClientRun(l, o, Begin(o), acts);
    StartInv(l);
    RunKeepsInv(l, Start(), run);
    RunStopsLate(l, Start(), run);
    BusyCanStep(l, o, Outcome(l, o, Begin(o), acts));
  }

  lemma SessionFrames(l: Limits, o: Offer, acts: seq<Action>)
    requires Playable(l, o) && IsFinished(l, o, acts)
    ensures IsFraming(l, o, FramesIn(acts)) && Decoded(l, o, acts) == PcmOfAll(FramesIn(acts))
  {
    var run := ClientRun(l, o, Begin(o), acts);
    FramesInIsFramesOf(l, o, Begin(o), acts);
    SessionIsClientRun(l, o, Begin(o), acts);
    StuckMeansDelivered(l, o, acts);
    StartInv(l);
    FramesAreCommitted(l, Start(), run);
    DecodedIsFrames(run);
  }

  lemma TailIsFrames(l: Limits, o: Offer, acts: seq<Action>) returns (k: nat)
    requires IsSession(l, o, Begin(o), acts)
    ensures k <= |FramesIn(acts)| && Tail(l, o, acts) == PcmOfAll(FramesIn(acts)[k..])
  {
    hide CanDo, Do, Apply, Enabled;
    var run := ClientRun(l, o, Begin(o), acts);
    SessionIsClientRun(l, o, Begin(o), acts);
    FramesInIsFramesOf(l, o, Begin(o), acts);
    k := SinceStopIsFrames(l, Start(), [], 0, run);
    assert [] + FramesOf(run) == FramesOf(run);
    assert PcmOfAll([][0..]) == [];
  }

  /** The frames of a finished session use up the file, and it stopped after one of them. */
  lemma PlaysWholeFrames(l: Limits, o: Offer, acts: seq<Action>)
    requires Playable(l, o) && IsFinished(l, o, acts)
    ensures var fs := FramesIn(acts);
            && IsFraming(l, o, fs) && Decoded(l, o, acts) == PcmOfAll(fs)
            && exists k: nat :: CanStopAfter(l, fs, k) && Played(l, o, acts) == PcmOfAll(fs[..k])
                           && Tail(l, o, acts) == PcmOfAll(fs[k..])
  {
    hide Tail, Played, Decoded, IsFraming, Sound, NothingToDo;
    var fs := FramesIn(acts);
    SessionFrames(l, o, acts);
    AllButTheTail(l, o, acts);
    PlaysNothingOrEnough(l, o, acts);
    var k := TailIsFrames(l, o, acts);
    PcmAppend(fs[..k], fs[k..]);
    assert fs[..k] + fs[k..] == fs;
    SameEnd(Played(l, o, acts), PcmOfAll(fs[..k]), Tail(l, o, acts));
    assert CanStopAfter(l, fs, k);
  }

  lemma SameEnd(a: seq<byte>, b: seq<byte>, end: seq<byte>)
    requires a + end == b + end
    ensures a == b
  {
    assert |a| == |b|;
    assert a == (a + end)[..|a|] && b == (b + end)[..|b|];
  }
}
