/** The circular byte buffer over memory that is mapped twice in a row. */
module RingBuffers {
  import opened Bytes
  import opened LinearMemory

  /** A contiguous region of the mapped memory. */
  datatype View = View(start: nat, len: nat)

  /** Up to two regions that are read or written one after the other. */
  datatype Buffers2 = Empty | One(first: View) | Two(first: View, second: View) {

    function Size(): nat {
      match this
      case Empty => 0
      case One(v) => v.len
      case Two(v, w) => v.len + w.len
    }

    predicate Within(n: nat) {
      match this
      case Empty => true
      case One(v) => v.start + v.len <= n
      case Two(v, w) => v.start + v.len <= n && w.start + w.len <= n
    }

    /** The address `operator[]` refers to. */
    function Address(pos: nat): nat
      requires pos < Size()
    {
      if pos < first.len then first.start + pos else second.start + (pos - first.len)
    }

    /** What memory `m` holds in the regions. */
    function Gather(m: seq<byte>): (bytes: seq<byte>)
      requires Within(|m|)
      ensures |bytes| == Size()
    {
      match this
      case Empty => []
      case One(v) => m[v.start..v.start + v.len]
      case Two(v, w) => m[v.start..v.start + v.len] + m[w.start..w.start + w.len]
    }

    lemma GatherAt(m: seq<byte>, pos: nat)
      requires Within(|m|) && pos < Size()
      ensures Address(pos) < |m| && Gather(m)[pos] == m[Address(pos)]
    {
    }
  }

  /** Memory of `2 * n` addresses whose two halves are the same `n` cells. */
  ghost predicate Mirrored(m: seq<byte>, n: nat) {
    |m| == 2 * n && forall i :: 0 <= i < n ==> m[i] == m[i + n]
  }

  /** The straight region of `len` bytes from `start` on. */
  ghost function Region(m: seq<byte>, start: nat, len: nat): (r: seq<byte>)
    requires start + len <= |m|
    ensures |r| == len
  {
    m[start..start + len]
  }

  lemma Shorter(m: seq<byte>, start: nat, len: nat, k: nat)
    requires start + len <= |m| && k <= len
    ensures Region(m, start, k) == Region(m, start, len)[..k]
  {
  }

  /** A region that may run past the first half, cut where it does. */
  function Split(start: nat, len: nat, n: nat): (v: Buffers2)
    requires start <= n && len <= n
    ensures v.Size() == len && v.Within(n)
  {
    if len > n - start then Two(View(start, n - start), View(0, len - (n - start))) else One(View(start, len))
  }

  /** Because of the mirror, the cut region and the straight one hold the same bytes. */
  lemma SplitIsLinear(m: seq<byte>, n: nat, start: nat, len: nat)
    requires Mirrored(m, n) && start <= n && len <= n
    ensures Split(start, len, n).Gather(m) == Region(m, start, len)
  {
    var g := Split(start, len, n).Gather(m);
    forall i | 0 <= i < len ensures g[i] == m[start + i] {
      if start + i >= n {
        assert m[start + i - n] == m[start + i];
      }
    }
  }

  /** The cell an address of the mapped memory refers to. */
  function Cell(x: nat, n: nat): (c: nat)
    requires x < 2 * n
    ensures c < n
  {
    if x < n then x else x - n
  }

  lemma CellIsModulo(x: nat, n: nat)
    requires x < 2 * n
    ensures x % n == Cell(x, n)
  {
    if x < n {
      DivModUnique(x, n, 0, x);
    } else {
      DivModUnique(x, n, 1, x - n);
    }
  }

  /** `x %= n` for an index that has passed the end at most once. */
  method Modulo(x: nat, n: nat) returns (r: nat)
    requires x < 2 * n
    ensures r == Cell(x, n)
  {
    CellIsModulo(x, n);
    r := x % n;
  }

  lemma Rebase(m: seq<byte>, n: nat, a: nat, len: nat)
    requires Mirrored(m, n) && n <= a && a + len <= 2 * n
    ensures Region(m, a, len) == Region(m, a - n, len)
  {
    var x, y := Region(m, a, len), Region(m, a - n, len);
    forall i | 0 <= i < len ensures x[i] == y[i] {
      assert m[a + i - n] == m[a + i - n + n];
    }
  }

  /** Moving the start of a region past the end of the memory and around loses nothing. */
  lemma Advance(m: seq<byte>, n: nat, start: nat, len: nat, k: nat, next: nat)
    requires Mirrored(m, n) && start < n && k <= len <= n && next == Cell(start + k, n)
    ensures Region(m, next, len - k) == Region(m, start, len)[k..]
  {
    if start + k >= n {
      Rebase(m, n, start + k, len - k);
    }
  }

  /** A region and the one that follows it around the end make one longer region. */
  lemma Join(m: seq<byte>, n: nat, start: nat, len: nat, k: nat)
    requires Mirrored(m, n) && start < n && len + k <= n
    ensures Region(m, start, len + k) == Region(m, start, len) + Region(m, Cell(start + len, n), k)
  {
    if start + len >= n {
      Rebase(m, n, start + len, k);
    }
  }

  /** `now` is `was` with `bytes` written from cell `e` on, around the end. */
  ghost predicate Scattered(was: seq<byte>, now: seq<byte>, n: nat, e: nat, bytes: seq<byte>) {
    && Mirrored(was, n) && Mirrored(now, n) && e < n && |bytes| <= n
    && (forall i :: e <= i < e + |bytes| ==> now[i] == bytes[i - e])
    && (forall i :: e + |bytes| <= i < e + n ==> now[i] == was[i])
  }

  /** `now` is `was` with `bytes` copied to address `pos` of the first half, and so to the second. */
  ghost predicate Stored(was: seq<byte>, now: seq<byte>, n: nat, pos: nat, bytes: seq<byte>) {
    && Mirrored(was, n) && Mirrored(now, n) && pos + |bytes| <= n
    && (forall i :: pos <= i < pos + |bytes| ==> now[i] == bytes[i - pos])
    && (forall i :: 0 <= i < n && !(pos <= i < pos + |bytes|) ==> now[i] == was[i])
  }

  lemma OneCopy(was: seq<byte>, now: seq<byte>, n: nat, e: nat, bytes: seq<byte>)
    requires e < n && Stored(was, now, n, e, bytes)
    ensures Scattered(was, now, n, e, bytes)
  {
    forall i | e + |bytes| <= i < e + n ensures now[i] == was[i] {
      if i >= n {
        assert now[i - n] == now[i - n + n] && was[i - n] == was[i - n + n];
      }
    }
  }

  lemma TwoCopies(was: seq<byte>, mid: seq<byte>, now: seq<byte>, n: nat, e: nat, bytes: seq<byte>)
    requires e < n && n - e <= |bytes| <= n
    requires Stored(was, mid, n, e, bytes[..n - e]) && Stored(mid, now, n, 0, bytes[n - e..])
    ensures Scattered(was, now, n, e, bytes)
  {
    forall i | e <= i < e + n
      ensures i < e + |bytes| ==> now[i] == bytes[i - e]
      ensures e + |bytes| <= i ==> now[i] == was[i]
    {
      if i >= n {
        assert now[i - n] == now[i - n + n] && was[i - n] == was[i - n + n];
      }
    }
  }

  lemma ConsumedRegions(m: seq<byte>, n: nat, start: nat, len: nat, e: nat, free: nat, k: nat, next: nat)
    requires Mirrored(m, n) && start < n && len + free == n && k <= free
    requires e == Cell(start + len, n) && next == Cell(e + k, n)
    ensures next == Cell(start + (len + k), n)
    ensures Region(m, start, len + k) == Region(m, start, len) + Region(m, e, free)[..k]
    ensures Region(m, next, free - k) == Region(m, e, free)[k..]
  {
    Join(m, n, start, len, k);
    assert Region(m, e, k) == Region(m, e, free)[..k];
    Advance(m, n, e, free, k, next);
  }

  lemma ScatteredRegions(
    was: seq<byte>, now: seq<byte>, n: nat, start: nat, len: nat, e: nat, free: nat, bytes: seq<byte>)
    requires start < n && len + free == n && |bytes| <= free && e == Cell(start + len, n)
    requires Scattered(was, now, n, e, bytes)
    ensures Region(now, start, len) == Region(was, start, len)
    ensures Region(now, e, free) == bytes + Region(was, e, free)[|bytes|..]
  {
    var x, y := Region(now, start, len), Region(was, start, len);
    forall i | 0 <= i < len ensures x[i] == y[i] {
      if start + i < e {
        assert now[start + i] == now[start + i + n] && was[start + i] == was[start + i + n];
      }
    }
  }

  class RingBuffer {
    const mem: array<byte>
    const size: nat
    const lowWatermark: nat
    const highWatermark: nat
    var filledStart: nat
    var filledSize: nat
    var nonFilledStart: nat
    var nonFilledSize: nat

    ghost predicate Valid()
      reads this, mem
    {
      && 0 < size && 2 * size < TWO_64
      && Mirrored(mem[..], size)
      && filledStart < size
      && filledSize + nonFilledSize == size
      && nonFilledStart == Cell(filledStart + filledSize, size)
    }

    /** The queue of bytes the buffer holds, oldest first. */
    ghost function Contents(): (s: seq<byte>)
      reads this, mem
      requires Valid()
      ensures |s| == filledSize
    {
      Region(mem[..], filledStart, filledSize)
    }

    /** The bytes that happen to lie in the free space, in the order they will be filled. */
    ghost function Spare(): (s: seq<byte>)
      reads this, mem
      requires Valid()
      ensures |s| == nonFilledSize
    {
      Region(mem[..], nonFilledStart, nonFilledSize)
    }

    /** `v` is where the next `v.Size()` bytes belong. */
    ghost predicate IsFreePrefix(v: Buffers2)
      reads this
      requires nonFilledStart <= size
    {
      v.Size() <= nonFilledSize && v.Size() <= size && v == Split(nonFilledStart, v.Size(), size)
    }

    lemma CountersAreModular()
      requires Valid()
      ensures filledSize + nonFilledSize == size
      ensures nonFilledStart == (filledStart + filledSize) % size
    {
      CellIsModulo(filledStart + filledSize, size);
    }

    constructor (minSize: nat, pageSize: nat, low: nat, high: nat)
      requires 0 < minSize && IsPageSize(pageSize) && 2 * (minSize + pageSize) < TWO_64
      ensures Valid() && fresh(mem) && Contents() == []
      ensures IsLeastMultiple(size, pageSize, minSize)
      ensures lowWatermark == low && highWatermark == high
    {
      var n, ok := RoundToPages(minSize, pageSize);
      size := n;
      mem := new byte[2 * n](i => 0);
      lowWatermark, highWatermark := low, high;
      filledStart, filledSize := 0, 0;
      nonFilledStart, nonFilledSize := 0, n;
      new;
      // the mapping is probed with a store through its first address
      mem[0], mem[n] := 'x' as int as byte, 'x' as int as byte;
    }

    /** `memcpy` to a region of the first half; the mapping makes it appear in the second half too. */
    method Store(pos: nat, bytes: seq<byte>)
      requires Mirrored(mem[..], size) && pos + |bytes| <= size
      modifies mem
      ensures Stored(old(mem[..]), mem[..], size, pos, bytes)
    {
      ghost var was := mem[..];
      forall i | pos <= i < pos + |bytes| {
        mem[i] := bytes[i - pos];
      }
      forall i | pos <= i < pos + |bytes| {
        mem[i + size] := bytes[i - pos];
      }
      forall i | 0 <= i < size ensures mem[..][i] == mem[..][i + size] {
        assert was[i] == was[i + size];
      }
    }

    /** Writing into the regions one after the other, which is how a socket fills them. */
    method Scatter(v: Buffers2, bytes: seq<byte>)
      requires Valid() && IsFreePrefix(v) && |bytes| <= v.Size()
      modifies mem
      ensures Valid() && Contents() == old(Contents())
      ensures Spare() == bytes + old(Spare())[|bytes|..]
    {
      ghost var was, queue, spare := mem[..], Contents(), Spare();
      var cut := size - nonFilledStart;
      if |bytes| > cut {
        Store(v.first.start, bytes[..cut]);
        ghost var mid := mem[..];
        Store(v.second.start, bytes[cut..]);
        TwoCopies(was, mid, mem[..], size, nonFilledStart, bytes);
      } else {
        Store(v.first.start, bytes);
        OneCopy(was, mem[..], size, nonFilledStart, bytes);
      }
      ghost var now := mem[..];
      ScatteredRegions(was, now, size, filledStart, filledSize, nonFilledStart, nonFilledSize, bytes);
      assert Contents() == queue;
      assert Spare() == bytes + spare[|bytes|..];
    }

    method Reset()
      requires Valid()
      modifies this
      ensures Valid() && Contents() == []
    {
      filledStart := 0;
      filledSize := 0;
      nonFilledStart := 0;
      nonFilledSize := size;
    }

    /** Drops the oldest bytes. Where the next byte will be written does not move. */
    method Commit(len: nat)
      requires Valid() && len <= filledSize
      modifies this
      ensures Valid() && Contents() == old(Contents())[len..]
      ensures nonFilledStart == old(nonFilledStart) && nonFilledSize == old(nonFilledSize) + len
      ensures old(Spare()) <= Spare()
    {
      var next := Modulo(filledStart + len, size);
      Advance(mem[..], size, filledStart, filledSize, len, next);
      ghost var m := mem[..];
      nonFilledSize := nonFilledSize + len;
      filledSize := filledSize - len;
      filledStart := next;
      assert mem[..] == m;
    }

    /** Takes bytes that were put into the free space into the queue. */
    method Consume(len: nat)
      requires Valid() && len <= nonFilledSize
      modifies this
      ensures Valid() && Contents() == old(Contents()) + old(Spare())[..len]
      ensures Spare() == old(Spare())[len..]
    {
      hide Region, Mirrored, Cell;
      var next := Modulo(nonFilledStart + len, size);
      ConsumedRegions(mem[..], size, filledStart, filledSize, nonFilledStart, nonFilledSize, len, next);
      ghost var m, start, filled, queue, spare := mem[..], filledStart, filledSize, Contents(), Spare();
      filledSize := filledSize + len;
      nonFilledSize := nonFilledSize - len;
      nonFilledStart := next;
      assert mem[..] == m && filledStart == start && filledSize == filled + len;
      assert Contents() == queue + spare[..len];
    }

    method MemcpyIn(bytes: seq<byte>)
      requires Valid() && |bytes| <= nonFilledSize
      modifies this, mem
      ensures Valid() && Contents() == old(Contents()) + bytes
    {
      // one copy, or two when the bytes do not fit to the right of where they start
      Scatter(Split(nonFilledStart, |bytes|, size), bytes);
      Consume(|bytes|);
    }

    method MemcpyOut(sz: nat) returns (bytes: seq<byte>)
      requires Valid() && sz <= filledSize
      modifies this
      ensures Valid() && bytes + Contents() == old(Contents()) && |bytes| == sz
    {
      SplitIsLinear(mem[..], size, filledStart, sz);
      Shorter(mem[..], filledStart, filledSize, sz);
      bytes := Split(filledStart, sz, size).Gather(mem[..]);
      assert bytes == Contents()[..sz];
      Commit(sz);
    }

    // The views. Each denotes a prefix of the queue, or of the free space, whatever its shape.

    function DataUpTo(maxSize: nat): (v: Buffers2)
      reads this, mem
      requires Valid()
      ensures v.Within(size) && v.Size() == if filledSize < maxSize then filledSize else maxSize
      ensures v.Gather(mem[..]) == Contents()[..v.Size()]
    {
      if filledSize == 0 then
        Empty
      else
        var bufSize := if filledSize < maxSize then filledSize else maxSize;
        SplitIsLinear(mem[..], size, filledStart, bufSize);
        Split(filledStart, bufSize, size)
    }

    function Data(): (v: Buffers2)
      reads this, mem
      requires Valid()
      ensures v.Within(size) && v.Gather(mem[..]) == Contents()
    {
      DataUpTo(filledSize)
    }

    function PreparedUpTo(maxSize: nat): (v: Buffers2)
      reads this, mem
      requires Valid()
      ensures v.Within(size) && v.Size() == if nonFilledSize < maxSize then nonFilledSize else maxSize
      ensures v.Gather(mem[..]) == Spare()[..v.Size()]
      ensures nonFilledSize > 0 ==> IsFreePrefix(v)
    {
      if nonFilledSize == 0 then
        Empty
      else
        var bufSize := if nonFilledSize < maxSize then nonFilledSize else maxSize;
        SplitIsLinear(mem[..], size, nonFilledStart, bufSize);
        Split(nonFilledStart, bufSize, size)
    }

    function Prepared(): (v: Buffers2)
      reads this, mem
      requires Valid()
      ensures v.Within(size) && v.Size() == nonFilledSize && v.Gather(mem[..]) == Spare()
      ensures nonFilledSize > 0 ==> IsFreePrefix(v)
    {
      PreparedUpTo(nonFilledSize)
    }

    /** `peek_span` and `peek_string_view`. */
    function PeekSpan(len: nat): (v: Buffers2)
      reads this, mem
      requires Valid() && len <= filledSize
      ensures v.Within(size) && v.Size() == len && v.Gather(mem[..]) == Contents()[..len]
    {
      SplitIsLinear(mem[..], size, filledStart, len);
      Split(filledStart, len, size)
    }

    /** A straight view, which the mirror makes possible even when the queue wraps. */
    function PeekLinearSpan(len: nat): (v: View)
      reads this, mem
      requires Valid() && len <= filledSize
      ensures v.len == len && v.start + len <= mem.Length && mem[v.start..v.start + len] == Contents()[..len]
    {
      View(filledStart, len)
    }

    function CharAt(pos: nat): (c: byte)
      reads this, mem
      requires Valid() && pos < 2 * size
      ensures filledStart <= pos < filledStart + filledSize ==> c == Contents()[pos - filledStart]
    {
      if pos < size then mem[pos] else assert mem[..][pos - size] == mem[..][pos]; mem[pos - size]
    }

    /** The choice between the copy and the four characters does not matter. */
    method PeekInt() returns (ret: int32)
      requires Valid() && filledSize >= 4
      ensures ret == DecodeInt(Contents()[..4]) && IsLittleEndian(Contents()[..4], ret)
    {
      hide DecodeInt, IsLittleEndian;
      DecodedIsLittleEndian(Contents()[..4]);
      if filledSize + 4 < size {
        assert mem[filledStart..filledStart + 4] == Contents()[..4];
        ret := DecodeInt(mem[filledStart..filledStart + 4]);
      } else {
        var c := [CharAt(filledStart), CharAt(filledStart + 1), CharAt(filledStart + 2), CharAt(filledStart + 3)];
        assert c == Contents()[..4];
        ret := DecodeInt(c);
      }
    }
  }
}
