/** A ring buffer whose writers can leave a callback to be woken by when there is room again. */
module Channels {
  import opened Bytes
  import opened LinearMemory
  import opened RingBuffers

  /** A registered callback and the room it waits for. */
  datatype Waiter = Waiter(callback: nat, wantsSize: nat)

  datatype Limits = Limits(size: nat, low: nat, high: nat)

  /** What a channel holds: queued bytes, parked callbacks, and callbacks fired but not run yet. */
  datatype Chan = Chan(bytes: seq<byte>, waiters: seq<Waiter>, posted: seq<Waiter>)

  function Ready(ws: seq<Waiter>, room: nat): seq<Waiter> {
    if ws == [] then []
    else
      var w := ws[|ws| - 1];
      Ready(ws[..|ws| - 1], room) + if w.wantsSize <= room then [w] else []
  }

  function NotReady(ws: seq<Waiter>, room: nat): seq<Waiter> {
    if ws == [] then []
    else
      var w := ws[|ws| - 1];
      NotReady(ws[..|ws| - 1], room) + if w.wantsSize <= room then [] else [w]
  }

  lemma {:induction false} ReadyOrNot(ws: seq<Waiter>, room: nat)
    ensures multiset(Ready(ws, room)) + multiset(NotReady(ws, room)) == multiset(ws)
    ensures forall w :: w in Ready(ws, room) ==> w.wantsSize <= room
    ensures forall w :: w in NotReady(ws, room) ==> w.wantsSize > room
  {
    if ws != [] {
      var w := ws[|ws| - 1];
      assert ws == ws[..|ws| - 1] + [w];
      ReadyOrNot(ws[..|ws| - 1], room);
    }
  }

  /** Callbacks are fired, and kept, in the order in which they were registered. */
  lemma {:induction false} OrderIsKept(vs: seq<Waiter>, ws: seq<Waiter>, room: nat)
    ensures Ready(vs + ws, room) == Ready(vs, room) + Ready(ws, room)
    ensures NotReady(vs + ws, room) == NotReady(vs, room) + NotReady(ws, room)
    decreases |ws|
  {
    if ws == [] {
      assert vs + ws == vs;
    } else {
      var n := |ws| - 1;
      assert (vs + ws)[..|vs| + n] == vs + ws[..n];
      OrderIsKept(vs, ws[..n], room);
    }
  }

  /** The hook that runs after a commit. */
  function Wake(l: Limits, ch: Chan): Chan
    requires |ch.bytes| <= l.size
  {
    if |ch.bytes| < l.low then
      var room := l.size - |ch.bytes|;
      Chan(ch.bytes, NotReady(ch.waiters, room), ch.posted + Ready(ch.waiters, room))
    else
      ch
  }

  function Committed(l: Limits, ch: Chan, n: nat): (r: Chan)
    requires n <= |ch.bytes| <= l.size
    ensures r.bytes == ch.bytes[n..]
  {
    Wake(l, ch.(bytes := ch.bytes[n..]))
  }

  /**
   A commit that leaves the queue below the low watermark releases every callback that wants no more
   room than the watermark promises, and no commit loses, duplicates or invents one.
   */
  lemma WatermarkGuarantee(l: Limits, ch: Chan, n: nat)
    requires n <= |ch.bytes| <= l.size
    ensures var r := Committed(l, ch, n);
            && multiset(r.waiters) + multiset(r.posted) == multiset(ch.waiters) + multiset(ch.posted)
            && ch.posted <= r.posted
            && (|r.bytes| < l.low <= l.size ==>
                  forall w :: w in ch.waiters && w.wantsSize <= l.size - l.low + 1 ==> w !in r.waiters)
            && (|r.bytes| < l.low ==>
                  && (forall w :: w in r.waiters ==> w.wantsSize > l.size - |r.bytes|)
                  && (forall w :: w in r.posted[|ch.posted|..] ==> w.wantsSize <= l.size - |r.bytes|))
            && (|r.bytes| >= l.low ==> r.waiters == ch.waiters && r.posted == ch.posted)
  {
    var room := l.size - |ch.bytes[n..]|;
    ReadyOrNot(ch.waiters, room);
  }

  class Channel {
    const buffer: RingBuffer
    var waiters: seq<Waiter>
    var posted: seq<Waiter>

    ghost predicate Valid()
      reads this, buffer, buffer.mem
    {
      buffer.Valid()
    }

    ghost function Bounds(): Limits
      reads this, buffer
    {
      Limits(buffer.size, buffer.lowWatermark, buffer.highWatermark)
    }

    ghost function Model(): (ch: Chan)
      reads this, buffer, buffer.mem
      requires Valid()
      ensures |ch.bytes| == buffer.filledSize <= Bounds().size && 2 * Bounds().size < TWO_64
    {
      Chan(buffer.Contents(), waiters, posted)
    }

    constructor (pageSize: nat)
      requires IsPageSize(pageSize) && 2 * (65535 + pageSize) < TWO_64
      ensures Valid() && fresh(buffer) && fresh(buffer.mem)
      ensures Model() == Chan([], [], [])
      ensures Bounds().low == 20000 && Bounds().high == 40000
      ensures IsLeastMultiple(Bounds().size, pageSize, 65535)
    {
      buffer := new RingBuffer(65535, pageSize, 20000, 40000);
      waiters, posted := [], [];
    }

    method AddCallbackOnBufferNotFull(w: Waiter)
      requires Valid()
      modifies this
      ensures Valid() && Model() == old(Model()).(waiters := old(waiters) + [w])
    {
      waiters := waiters + [w];
    }

    /** `on_commit_`: firing a callback hands it to the executor that will run it. */
    method OnCommit()
      requires Valid()
      modifies this
      ensures Valid() && Model() == Wake(Bounds(), old(Model()))
    {
      if buffer.filledSize >= buffer.lowWatermark {
        return;
      }
      var tmp := waiters;
      waiters := [];
      for i := 0 to |tmp|
        invariant waiters == NotReady(tmp[..i], buffer.nonFilledSize)
        invariant posted == old(posted) + Ready(tmp[..i], buffer.nonFilledSize)
      {
        assert tmp[..i + 1][..i] == tmp[..i];
        if tmp[i].wantsSize <= buffer.nonFilledSize {
          posted := posted + [tmp[i]];
        } else {
          waiters := waiters + [tmp[i]];
        }
      }
      assert tmp[..|tmp|] == tmp;
    }

    method Commit(len: nat)
      requires Valid() && len <= buffer.filledSize
      modifies this, buffer
      ensures Valid() && Model() == Committed(Bounds(), old(Model()), len)
      ensures buffer.nonFilledStart == old(buffer.nonFilledStart)
      ensures buffer.nonFilledSize == old(buffer.nonFilledSize) + len
      ensures old(buffer.Spare()) <= buffer.Spare()
    {
      buffer.Commit(len);
      OnCommit();
    }

    method MemcpyOut(sz: nat) returns (bytes: seq<byte>)
      requires Valid() && sz <= buffer.filledSize
      modifies this, buffer
      ensures Valid() && bytes == old(buffer.Contents())[..sz]
      ensures Model() == Committed(Bounds(), old(Model()), sz)
    {
      bytes := buffer.MemcpyOut(sz);
      assert old(buffer.Contents())[..sz] == bytes;
      assert old(buffer.Contents())[sz..] == buffer.Contents();
      OnCommit();
    }

    method MemcpyIn(bytes: seq<byte>)
      requires Valid() && |bytes| <= buffer.nonFilledSize
      modifies buffer, buffer.mem
      ensures Valid() && Model() == old(Model()).(bytes := old(Model()).bytes + bytes)
    {
      buffer.MemcpyIn(bytes);
    }
  }
}
