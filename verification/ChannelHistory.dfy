/**
 Histories of a channel whose callbacks may do anything, even register again or commit again while
 the hook that fires them is still running.
 */
module ChannelHistory {
  import opened Channels

  /**
   `loops` holds what each running hook still has to look at, the innermost hook last.
   `registered` and `fired` are the whole history.
   */
  datatype History = History(
    size: nat, low: nat, room: nat,
    parked: seq<Waiter>, loops: seq<seq<Waiter>>,
    registered: seq<Waiter>, fired: seq<Waiter>)

  datatype Event =
    | Register(w: Waiter)
    | Consume(n: nat)
    | Commit(n: nat) // starts a hook when it leaves the queue below the low watermark
    | Look // the innermost hook looks at its next callback, and fires it or keeps it
    | Return // the innermost hook is done

  predicate Enabled(h: History, e: Event) {
    match e
    case Register(w) => w !in h.registered
    case Consume(n) => n <= h.room
    case Commit(n) => h.room + n <= h.size
    case Look => h.loops != [] && h.loops[|h.loops| - 1] != []
    case Return => h.loops != [] && h.loops[|h.loops| - 1] == []
  }

  function Apply(h: History, e: Event): History
    requires Enabled(h, e)
  {
    match e
    case Register(w) => h.(parked := h.parked + [w], registered := h.registered + [w])
    case Consume(n) => h.(room := h.room - n)
    case Commit(n) =>
      var room := h.room + n;
      if h.size - room < h.low then
        h.(room := room, parked := [], loops := h.loops + [h.parked])
      else
        h.(room := room)
    case Look =>
      var last := |h.loops| - 1;
      var w := h.loops[last][0];
      var h' := h.(loops := h.loops[..last] + [h.loops[last][1..]]);
      if w.wantsSize <= h.room then h'.(fired := h.fired + [w]) else h'.(parked := h.parked + [w])
    case Return => h.(loops := h.loops[..|h.loops| - 1])
  }

  ghost predicate IsRun(h: History, es: seq<Event>)
    decreases |es|
  {
    es != [] ==> Enabled(h, es[0]) && IsRun(Apply(h, es[0]), es[1..])
  }

  function After(h: History, es: seq<Event>): History
    requires IsRun(h, es)
    decreases |es|
  {
    if es == [] then h else After(Apply(h, es[0]), es[1..])
  }

  function Start(size: nat, low: nat): History {
    History(size, low, size, [], [], [], [])
  }

  /** The callbacks that running hooks still hold. */
  ghost function Held(loops: seq<seq<Waiter>>): multiset<Waiter> {
    if loops == [] then multiset{} else Held(loops[..|loops| - 1]) + multiset(loops[|loops| - 1])
  }

  ghost predicate Conserved(h: History) {
    && multiset(h.registered) == multiset(h.fired) + multiset(h.parked) + Held(h.loops)
    && (forall w :: multiset(h.registered)[w] <= 1)
  }

  lemma HeldByOneMore(loops: seq<seq<Waiter>>, top: seq<Waiter>)
    ensures Held(loops + [top]) == Held(loops) + multiset(top)
  {
    assert (loops + [top])[..|loops|] == loops;
  }

  lemma Appended(s: seq<Waiter>, w: Waiter)
    ensures multiset(s + [w]) == multiset(s) + multiset{w}
  {
  }

  lemma LookConserves(h: History)
    requires Conserved(h) && Enabled(h, Look)
    ensures Conserved(Apply(h, Look))
  {
    hide Held;
    var last := |h.loops| - 1;
    var outer, top := h.loops[..last], h.loops[last];
    assert h.loops == outer + [top];
    HeldByOneMore(outer, top);
    HeldByOneMore(outer, top[1..]);
    assert top == [top[0]] + top[1..];
    assert multiset(top) == multiset{top[0]} + multiset(top[1..]);
    Appended(h.fired, top[0]);
    Appended(h.parked, top[0]);
  }

  lemma StepConserves(h: History, e: Event)
    requires Conserved(h) && Enabled(h, e)
    ensures Conserved(Apply(h, e))
  {
    match e
    case Register(w) =>
      Appended(h.registered, w);
      Appended(h.parked, w);
    case Consume(n) =>
    case Commit(n) =>
      HeldByOneMore(h.loops, h.parked);
    case Look =>
      LookConserves(h);
    case Return =>
  }

  lemma {:induction false} RunConserves(h: History, es: seq<Event>)
    requires Conserved(h) && IsRun(h, es)
    ensures Conserved(After(h, es))
    decreases |es|
  {
    if es != [] {
      StepConserves(h, es[0]);
      RunConserves(Apply(h, es[0]), es[1..]);
    }
  }

  /** Over any history each registered callback was fired once, or is held in exactly one place. */
  lemma EachCallbackOnce(size: nat, low: nat, es: seq<Event>, w: Waiter)
    requires IsRun(Start(size, low), es)
    ensures var h := After(Start(size, low), es);
            multiset(h.fired)[w] + multiset(h.parked)[w] + Held(h.loops)[w] == if w in h.registered then 1 else 0
  {
    RunConserves(Start(size, low), es);
    var h := After(Start(size, low), es);
    assert multiset(h.registered)[w] <= 1;
    assert w in h.registered <==> w in multiset(h.registered);
  }

  /** Once no hook is running, a callback that has not been fired is parked. */
  lemma NoneDropped(size: nat, low: nat, es: seq<Event>, w: Waiter)
    requires IsRun(Start(size, low), es)
    requires After(Start(size, low), es).loops == []
    ensures var h := After(Start(size, low), es);
            w in h.registered ==> (w in h.fired <==> w !in h.parked)
  {
    EachCallbackOnce(size, low, es, w);
  }

  // A hook whose callbacks only post something is the one the channel runs.

  lemma {:induction false} RunExtend(h: History, es: seq<Event>, e: Event)
    requires IsRun(h, es) && Enabled(After(h, es), e)
    ensures IsRun(h, es + [e]) && After(h, es + [e]) == Apply(After(h, es), e)
    decreases |es|
  {
    if es == [] {
      assert [] + [e] == [e] && [e][1..] == [];
    } else {
      assert (es + [e])[1..] == es[1..] + [e];
      RunExtend(Apply(h, es[0]), es[1..], e);
    }
  }

  function Looks(k: nat): (es: seq<Event>)
    ensures |es| == k
  {
    if k == 0 then [] else Looks(k - 1) + [Look]
  }

  /** The hook has looked at `k` of the callbacks `ws`. */
  function Looked(h: History, ws: seq<Waiter>, k: nat): History
    requires k <= |ws|
  {
    h.(parked := NotReady(ws[..k], h.room), loops := h.loops + [ws[k..]], fired := h.fired + Ready(ws[..k], h.room))
  }

  lemma {:induction false} LooksRun(h: History, ws: seq<Waiter>, k: nat)
    requires k <= |ws|
    ensures IsRun(Looked(h, ws, 0), Looks(k)) && After(Looked(h, ws, 0), Looks(k)) == Looked(h, ws, k)
  {
    if k > 0 {
      LooksRun(h, ws, k - 1);
      assert ws[..k][..k - 1] == ws[..k - 1];
      assert ws[k - 1..][1..] == ws[k..];
      var g := Looked(h, ws, k - 1);
      assert g.loops[..|h.loops|] == h.loops;
      RunExtend(Looked(h, ws, 0), Looks(k - 1), Look);
    }
  }

  /** A commit that leaves the queue at or above the low watermark starts no hook, and `Wake` changes nothing. */
  lemma NoHookIsNoWake(h: History, n: nat, ch: Chan)
    requires Enabled(h, Commit(n)) && |ch.bytes| == h.size - h.room - n >= h.low
    ensures Apply(h, Commit(n)) == h.(room := h.room + n)
    ensures Wake(Limits(h.size, h.low, h.size), ch) == ch
  {
  }

  lemma NobodyLookedAt(room: nat)
    ensures Ready([], room) == [] && NotReady([], room) == []
  {
  }

  /** From one commit to the return of its hook, the history does what `Wake` says. */
  lemma HookIsWake(h: History, n: nat, ch: Chan)
    requires Enabled(h, Commit(n)) && |ch.bytes| == h.size - h.room - n < h.low
    requires ch.waiters == h.parked && ch.posted == h.fired
    ensures var es := [Commit(n)] + (Looks(|h.parked|) + [Return]);
            var r := Wake(Limits(h.size, h.low, h.size), ch);
            IsRun(h, es) && After(h, es) == h.(room := h.room + n, parked := r.waiters, fired := r.posted)
  {
    hide Ready, NotReady;
    var ws, start := h.parked, Apply(h, Commit(n));
    var idle := h.(room := h.room + n);
    LooksRun(idle, ws, |ws|);
    assert ws[..|ws|] == ws && ws[..0] == [] && ws[0..] == ws && ws[|ws|..] == [];
    NobodyLookedAt(idle.room);
    assert h.fired + [] == h.fired;
    assert start == Looked(idle, ws, 0);
    RunExtend(start, Looks(|ws|), Return);
    var es := [Commit(n)] + (Looks(|ws|) + [Return]);
    assert es[1..] == Looks(|ws|) + [Return];
    assert (idle.loops + [ws[|ws|..]])[..|idle.loops|] == idle.loops;
  }
}
