/** What the world outside does to a handler of the client: the audio device and the MP3 library. */
module Worlds {
  import opened Bytes
  import opened Channels
  import opened Codecs
  import opened ClientModel

  /** The MP3 library: its answer to the `k`-th call, given all bytes that are there. */
  type Mp3Library = (nat, seq<byte>) -> Frame

  ghost predicate KeepsPromise(library: Mp3Library) {
    forall k: nat, bytes: seq<byte> :: bytes != [] ==> GoodFrame(library(k, bytes), |bytes|)
  }

  /**
   What is still to come. A slot of `sdl` holds how much the device would ask for before the next test
   or decoding of `decode_next`, in order, one slot after the other; `calls` counts the calls of the
   library.
   */
  datatype World = World(sdl: seq<seq<nat>>, calls: nat)

  function Slot(sdl: seq<seq<nat>>): seq<nat> {
    if sdl == [] then [] else sdl[0]
  }

  function Later(sdl: seq<seq<nat>>): seq<seq<nat>> {
    if sdl == [] then [] else sdl[1..]
  }

  /**
   What the device asks for of a slot, from its next request on. A stopped device asks for nothing,
   and none asks for zero bytes.
   */
  function Asks(started: bool, lens: seq<nat>): (r: seq<nat>)
    ensures |r| <= |lens| && r == lens[|lens| - |r|..] && (r != [] ==> started && r[0] > 0)
    ensures started ==> forall i :: 0 <= i < |lens| - |r| ==> lens[i] == 0
    decreases |lens|
  {
    if lens == [] || !started then [] else if lens[0] == 0 then Asks(started, lens[1..]) else lens
  }

  /**
   Whether `e` can be the next step of a handler. The device is served exactly when it asks, a frame is
   what the library makes of all that is queued, and no handler starts within another.
   */
  predicate Allows(library: Mp3Library, c: Client, w: World, e: Event) {
    var asks := Asks(c.stream.started, Slot(w.sdl));
    match e
    case Audio(len) => asks != [] && asks[0] == len
    case Test => asks == []
    case Decode(f) => asks == [] && f == library(w.calls, c.stream.input.bytes)
    case Parse | Enter | FinishMp3 | Receive => true
    case _ => false
  }

  function Turn(c: Client, w: World, e: Event): World {
    match e
    case Audio(_) =>
      var asks := Asks(c.stream.started, Slot(w.sdl));
      if asks == [] then w else w.(sdl := [asks[1..]] + Later(w.sdl))
    case Test => w.(sdl := Later(w.sdl))
    case Decode(_) => World(Later(w.sdl), w.calls + 1)
    case _ => w
  }

  /** All of `es` are steps of a handler, and what is to come turns from `w` into `v` meanwhile. */
  ghost predicate Driven(l: Limits, library: Mp3Library, c: Client, es: seq<Event>, w: World, v: World)
    requires IsRun(l, c, es)
    decreases |es|
  {
    if es == [] then v == w
    else Allows(library, c, w, es[0]) && Driven(l, library, Apply(l, c, es[0]), es[1..], Turn(c, w, es[0]), v)
  }

  /** A handler takes the client from `c` to `d`, and the world from `w` to `v`. */
  ghost predicate Handles(
    l: Limits, library: Mp3Library, c: Client, w: World, es: seq<Event>, d: Client, v: World)
  {
    LocalRun(l, c, es, d) && Driven(l, library, c, es, w, v)
  }

  lemma {:induction false} DrivenAppend(
    l: Limits, library: Mp3Library, c: Client, w: World, es: seq<Event>, v: World, fs: seq<Event>, u: World)
    requires IsRun(l, c, es) && Driven(l, library, c, es, w, v)
    requires IsRun(l, After(l, c, es), fs) && Driven(l, library, After(l, c, es), fs, v, u)
    ensures IsRun(l, c, es + fs) && Driven(l, library, c, es + fs, w, u)
    decreases |es|
  {
    hide Apply, Enabled, Allows, Turn;
    if es == [] {
      assert es + fs == fs;
    } else {
      assert (es + fs)[0] == es[0] && (es + fs)[1..] == es[1..] + fs;
      DrivenAppend(l, library, Apply(l, c, es[0]), Turn(c, w, es[0]), es[1..], v, fs, u);
    }
  }

  lemma HandlesAppend(
    l: Limits, library: Mp3Library, c: Client, w: World, es: seq<Event>, d: Client, v: World,
    fs: seq<Event>, e: Client, u: World)
    requires Handles(l, library, c, w, es, d, v) && Handles(l, library, d, v, fs, e, u)
    ensures Handles(l, library, c, w, es + fs, e, u)
  {
    LocalAppend(l, c, es, d, fs, e);
    DrivenAppend(l, library, c, w, es, v, fs, u);
  }

  lemma HandlesNothing(l: Limits, library: Mp3Library, c: Client, w: World)
    ensures Handles(l, library, c, w, [], c, w)
  {
  }

  lemma HandlesOne(l: Limits, library: Mp3Library, c: Client, w: World, e: Event)
    requires Enabled(l, c, e) && Allows(library, c, w, e)
    ensures Handles(l, library, c, w, [e], Apply(l, c, e), Turn(c, w, e))
  {
    LocalStep(l, c, e);
    assert [e][1..] == [];
  }

  lemma HandlesMore(
    l: Limits, library: Mp3Library, c: Client, w: World, es: seq<Event>, d: Client, v: World, e: Event)
    requires Handles(l, library, c, w, es, d, v) && Enabled(l, d, e) && Allows(library, d, v, e)
    ensures Handles(l, library, c, w, es + [e], Apply(l, d, e), Turn(d, v, e))
  {
    HandlesOne(l, library, d, v, e);
    HandlesAppend(l, library, c, w, es, d, v, [e], Apply(l, d, e), Turn(d, v, e));
  }

  lemma HandlesSameFirst(
    l: Limits, library: Mp3Library, c: Client, d: Client, w: World, es: seq<Event>, e: Client, v: World)
    requires Handles(l, library, d, w, es, e, v) && es != [] && es[0] == Parse
    requires Enabled(l, c, Parse) && Enabled(l, d, Parse) && Apply(l, c, Parse) == Apply(l, d, Parse)
    ensures Handles(l, library, c, w, es, e, v)
  {
    SameFirstStep(l, c, d, es, e);
  }

  // What this means for the device and the library, told without reference to the steps in between.

  predicate IsBar(e: Event) {
    e.Test? || e.Decode?
  }

  function Bars(es: seq<Event>): nat {
    if es == [] then 0 else (if IsBar(es[0]) then 1 else 0) + Bars(es[1..])
  }

  function Decodes(es: seq<Event>): nat {
    if es == [] then 0 else (if es[0].Decode? then 1 else 0) + Decodes(es[1..])
  }

  function Drop(sdl: seq<seq<nat>>, n: nat): seq<seq<nat>> {
    if n <= |sdl| then sdl[n..] else []
  }

  /** What the device is given, in order. */
  function AudioLens(es: seq<Event>): seq<nat> {
    if es == [] then [] else (if es[0].Audio? then [es[0].len] else []) + AudioLens(es[1..])
  }

  /**
   The requests a device makes of a slot when `queued` bytes are there to play: all positive ones, up to
   and including the one that finds nothing and stops it.
   */
  function Requests(started: bool, queued: nat, lens: seq<nat>): seq<nat>
    decreases |lens|
  {
    if lens == [] || !started then []
    else if lens[0] == 0 then Requests(started, queued, lens[1..])
    else [lens[0]] + Requests(queued > 0, if lens[0] < queued then queued - lens[0] else 0, lens[1..])
  }

  function RequestsOf(c: Client, w: World): seq<nat> {
    Requests(c.stream.started, |c.stream.output.bytes|, Slot(w.sdl))
  }

  lemma {:induction false} RequestsAreAsked(started: bool, queued: nat, lens: seq<nat>)
    ensures Requests(started, queued, lens) == Requests(started, queued, Asks(started, lens))
    decreases |lens|
  {
    if started && lens != [] && lens[0] == 0 {
      RequestsAreAsked(started, queued, lens[1..]);
    }
  }

  lemma AudioRequests(l: Limits, c: Client, w: World, len: nat)
    requires Enabled(l, c, Audio(len)) && Asks(c.stream.started, Slot(w.sdl)) != []
    requires Asks(c.stream.started, Slot(w.sdl))[0] == len
    ensures RequestsOf(c, w) == [len] + RequestsOf(Apply(l, c, Audio(len)), Turn(c, w, Audio(len)))
  {
    hide Committed, Asks;
    RequestsAreAsked(c.stream.started, |c.stream.output.bytes|, Slot(w.sdl));
  }

  lemma OtherRequests(l: Limits, library: Mp3Library, c: Client, w: World, e: Event)
    requires Enabled(l, c, e) && Allows(library, c, w, e) && !e.Audio? && !IsBar(e)
    ensures RequestsOf(c, w) == RequestsOf(Apply(l, c, e), Turn(c, w, e))
  {
    hide DrainChan, Committed, PlayAudio, Requests, Asks;
  }

  lemma StepRequests(l: Limits, library: Mp3Library, c: Client, w: World, e: Event)
    requires Enabled(l, c, e) && Allows(library, c, w, e)
    ensures !IsBar(e) ==> RequestsOf(c, w) == AudioLens([e]) + RequestsOf(Apply(l, c, e), Turn(c, w, e))
    ensures IsBar(e) ==> RequestsOf(c, w) == []
  {
    hide Apply, Enabled, Turn, Asks;
    assert [e][1..] == [] && [] + RequestsOf(c, w) == RequestsOf(c, w);
    match e
    case Audio(len) => AudioRequests(l, c, w, len);
    case Test => RequestsAreAsked(c.stream.started, |c.stream.output.bytes|, Slot(w.sdl));
    case Decode(_) => RequestsAreAsked(c.stream.started, |c.stream.output.bytes|, Slot(w.sdl));
    case _ => OtherRequests(l, library, c, w, e);
  }

  lemma AudioLensOf(es: seq<Event>)
    ensures if es == [] then AudioLens(es) == [] else AudioLens(es) == AudioLens([es[0]]) + AudioLens(es[1..])
  {
    if es != [] {
      assert [es[0]][1..] == [];
    }
  }

  lemma Regrouped(a: seq<nat>, b: seq<nat>, c: seq<nat>)
    ensures (a + b) + c == a + (b + c)
  {
  }

  /** Between two bars the device is given what it asks for of one slot. */
  lemma {:induction false} SegmentServes(
    l: Limits, library: Mp3Library, c: Client, w: World, es: seq<Event>, v: World)
    requires IsRun(l, c, es) && Driven(l, library, c, es, w, v) && Bars(es) == 0
    ensures AudioLens(es) + RequestsOf(After(l, c, es), v) == RequestsOf(c, w)
    decreases |es|
  {
    hide Apply, Enabled, Allows, Turn, RequestsOf, AudioLens;
    if es == [] {
      AudioLensOf(es);
      assert [] + RequestsOf(c, w) == RequestsOf(c, w);
    } else {
      var d, u := Apply(l, c, es[0]), Turn(c, w, es[0]);
      StepRequests(l, library, c, w, es[0]);
      SegmentServes(l, library, d, u, es[1..], v);
      AudioLensOf(es);
      Regrouped(AudioLens([es[0]]), AudioLens(es[1..]), RequestsOf(After(l, d, es[1..]), v));
    }
  }

  ghost function WorldAfter(l: Limits, c: Client, es: seq<Event>, w: World): World
    requires IsRun(l, c, es)
    decreases |es|
  {
    if es == [] then w else WorldAfter(l, Apply(l, c, es[0]), es[1..], Turn(c, w, es[0]))
  }

  lemma {:induction false} DrivenSplit(
    l: Limits, library: Mp3Library, c: Client, w: World, es: seq<Event>, v: World, i: nat)
    requires i <= |es| && IsRun(l, c, es) && Driven(l, library, c, es, w, v)
    ensures IsRun(l, c, es[..i]) && IsRun(l, After(l, c, es[..i]), es[i..])
    ensures Driven(l, library, After(l, c, es[..i]), es[i..], WorldAfter(l, c, es[..i], w), v)
    ensures Driven(l, library, c, es[..i], w, WorldAfter(l, c, es[..i], w))
    decreases i
  {
    hide Apply, Enabled, Allows, Turn;
    if i == 0 {
      assert es[..0] == [] && es[0..] == es;
    } else {
      DrivenSplit(l, library, Apply(l, c, es[0]), Turn(c, w, es[0]), es[1..], v, i - 1);
      assert es[..i][0] == es[0] && es[..i][1..] == es[1..][..i - 1] && es[i..] == es[1..][i - 1..];
    }
  }

  /** Every bar passes one slot, and every frame is one call of the library. */
  lemma {:induction false} SlotsPass(l: Limits, c: Client, es: seq<Event>, w: World)
    requires IsRun(l, c, es)
    ensures var v := WorldAfter(l, c, es, w);
            && Later(v.sdl) == Later(Drop(w.sdl, Bars(es))) && v.calls == w.calls + Decodes(es)
            && (es != [] && IsBar(es[|es| - 1]) ==> v.sdl == Drop(w.sdl, Bars(es)))
    decreases |es|
  {
    hide Apply, Enabled, Asks;
    if es != [] {
      var u := Turn(c, w, es[0]);
      SlotsPass(l, Apply(l, c, es[0]), es[1..], u);
      DropTurn(c, w, es[0], Bars(es[1..]));
      BarsOfLast(es);
    }
  }

  lemma BarsOfLast(es: seq<Event>)
    ensures es != [] && IsBar(es[|es| - 1]) ==> Bars(es) > 0
    decreases |es|
  {
    if |es| > 1 {
      BarsOfLast(es[1..]);
    }
  }

  lemma DropLater(sdl: seq<seq<nat>>, n: nat)
    ensures Drop(Later(sdl), n) == Drop(sdl, n + 1)
  {
  }

  lemma DropHead(x: seq<nat>, sdl: seq<seq<nat>>, n: nat)
    requires sdl != []
    ensures Later(Drop([x] + Later(sdl), n)) == Later(Drop(sdl, n))
    ensures n > 0 ==> Drop([x] + Later(sdl), n) == Drop(sdl, n)
  {
    assert n > 0 && n <= |sdl| ==> ([x] + Later(sdl))[n..] == sdl[n..];
  }

  lemma DropTurn(c: Client, w: World, e: Event, n: nat)
    ensures IsBar(e) ==> Drop(Turn(c, w, e).sdl, n) == Drop(w.sdl, n + 1)
    ensures !IsBar(e) ==> Later(Drop(Turn(c, w, e).sdl, n)) == Later(Drop(w.sdl, n))
    ensures !IsBar(e) && n > 0 ==> Drop(Turn(c, w, e).sdl, n) == Drop(w.sdl, n)
  {
    hide Drop, Asks;
    var asks := Asks(c.stream.started, Slot(w.sdl));
    DropLater(w.sdl, n);
    if e.Audio? && asks != [] {
      DropHead(asks[1..], w.sdl, n);
    }
  }

  /**
   The device is given exactly what it asks for, slot by slot: where slot `k` begins, at the start of the
   handler or after its `k`-th bar, the audio steps up to the next bar are the requests of that slot.
   */
  lemma SlotIsServed(
    l: Limits, library: Mp3Library, c: Client, w: World, es: seq<Event>, v: World, i: nat, j: nat)
    requires i <= j <= |es| && IsRun(l, c, es) && Driven(l, library, c, es, w, v)
    requires (i == 0 || IsBar(es[i - 1])) && Bars(es[i..j]) == 0
    ensures IsRun(l, c, es[..i])
    ensures var s := After(l, c, es[..i]).stream;
            var requests := Requests(s.started, |s.output.bytes|, Slot(Drop(w.sdl, Bars(es[..i]))));
            AudioLens(es[i..j]) <= requests && (j < |es| && IsBar(es[j]) ==> AudioLens(es[i..j]) == requests)
  {
    hide Apply, Enabled, Allows, Turn, Requests;
    DrivenSplit(l, library, c, w, es, v, i);
    SlotsPass(l, c, es[..i], w);
    var d, u := After(l, c, es[..i]), WorldAfter(l, c, es[..i], w);
    assert u.sdl == Drop(w.sdl, Bars(es[..i]));
    DrivenSplit(l, library, d, u, es[i..], v, j - i);
    assert es[i..][..j - i] == es[i..j] && es[i..][j - i..] == es[j..];
    SegmentServes(l, library, d, u, es[i..j], WorldAfter(l, d, es[i..j], u));
    if j < |es| && IsBar(es[j]) {
      StepRequests(l, library, After(l, d, es[i..j]), WorldAfter(l, d, es[i..j], u), es[j]);
    }
  }

  /** Each frame is the library's answer to its next call, given all that is queued, and nothing else runs. */
  lemma FramesAreTheLibrarys(
    l: Limits, library: Mp3Library, c: Client, w: World, es: seq<Event>, v: World, i: nat)
    requires i < |es| && IsRun(l, c, es) && Driven(l, library, c, es, w, v)
    ensures IsRun(l, c, es[..i])
    ensures es[i].Decode? ==>
              es[i].f == library(w.calls + Decodes(es[..i]), After(l, c, es[..i]).stream.input.bytes)
    ensures !es[i].RunDecode? && !es[i].RunResume? && !es[i].RunUnblock? && !es[i].ResumeInside?
  {
    hide Apply, Enabled, Turn;
    DrivenSplit(l, library, c, w, es, v, i);
    SlotsPass(l, c, es[..i], w);
  }
}
