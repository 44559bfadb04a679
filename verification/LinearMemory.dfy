/** The page rounding that fixes the capacity of a double-mapped buffer. */
module LinearMemory {

  const TWO_64: nat := 0x1_0000_0000_0000_0000

  function Pow2(k: nat): (p: nat)
    ensures p >= 1
  {
    if k == 0 then 1 else 2 * Pow2(k - 1)
  }

  /** `a & b`, bit by bit. */
  function BitAnd(a: nat, b: nat): nat {
    if a == 0 || b == 0 then 0 else 2 * BitAnd(a / 2, b / 2) + a % 2 * (b % 2)
  }

  /** `~a` on a 64-bit word. */
  function BitNot(a: nat): nat
    requires a < TWO_64
  {
    TWO_64 - 1 - a
  }

  ghost predicate IsPageSize(p: nat) {
    exists k: nat :: k < 64 && p == Pow2(k)
  }

  /** `b` is the least multiple of `p` that is at least `n`. */
  ghost predicate IsLeastMultiple(b: nat, p: nat, n: nat)
    requires p > 0
  {
    b % p == 0 && n <= b && forall c: nat :: c % p == 0 && n <= c ==> b <= c
  }

  lemma ProductAtLeast(x: int, y: int, d: nat)
    requires x >= y
    ensures x * d >= y * d
  {
    var z := x - y;
    assert z * d >= 0;
    assert (y + z) * d == y * d + z * d;
  }

  lemma DivModUnique(n: nat, d: nat, q: nat, r: nat)
    requires d > 0 && n == q * d + r && r < d
    ensures n / d == q && n % d == r
  {
    var q' := n / d;
    if q < q' {
      ProductAtLeast(q', q + 1, d);
    } else if q' < q {
      ProductAtLeast(q, q' + 1, d);
    }
  }

  /** Dropping the lowest bit of `m` halves its remainder by a power of two. */
  lemma ModDouble(m: nat, q: nat)
    requires q > 0
    ensures m % (2 * q) == 2 * (m / 2 % q) + m % 2
  {
    var h := m / 2;
    var c, r := h / q, h % q;
    assert h == c * q + r;
    assert m == c * (2 * q) + (2 * r + m % 2);
    DivModUnique(m, 2 * q, c, 2 * r + m % 2);
  }

  lemma {:induction false} MaskClearsLowBits(m: nat, k: nat, w: nat)
    requires k <= w && m < Pow2(w)
    ensures Pow2(k) <= Pow2(w)
    ensures BitAnd(m, Pow2(w) - Pow2(k)) == m - m % Pow2(k)
    decreases w
  {
    if w == 0 {
      assert m == 0;
    } else if k == 0 {
      MaskClearsLowBits(m / 2, 0, w - 1);
      var b := Pow2(w) - 1;
      assert b / 2 == Pow2(w - 1) - 1 && b % 2 == 1;
    } else {
      MaskClearsLowBits(m / 2, k - 1, w - 1);
      ModDouble(m, Pow2(k - 1));
      var b := Pow2(w) - Pow2(k);
      assert b / 2 == Pow2(w - 1) - Pow2(k - 1) && b % 2 == 0;
    }
  }

  lemma Pow2Of64()
    ensures Pow2(64) == TWO_64
  {
    assert Pow2(8) == 256;
    assert Pow2(16) == 256 * Pow2(8);
    assert Pow2(24) == 256 * Pow2(16);
    assert Pow2(32) == 256 * Pow2(24);
    assert Pow2(40) == 256 * Pow2(32);
    assert Pow2(48) == 256 * Pow2(40);
    assert Pow2(56) == 256 * Pow2(48);
    assert Pow2(64) == 256 * Pow2(56);
  }

  lemma Pow2Of16()
    ensures Pow2(16) == 65536
  {
    assert Pow2(8) == 256;
    assert Pow2(16) == 256 * Pow2(8);
  }

  lemma PageMask(n: nat, p: nat)
    requires n < TWO_64 && IsPageSize(p)
    ensures 0 < p < TWO_64
    ensures BitAnd(n, BitNot(p - 1)) == n - n % p
    ensures TWO_64 % p == 0
  {
    var k: nat :| k < 64 && p == Pow2(k);
    Pow2Of64();
    PowDivides(k, 64);
    MaskClearsLowBits(n, k, 64);
  }

  lemma {:induction false} PowDivides(k: nat, w: nat)
    requires k < w
    ensures Pow2(k) < Pow2(w) && Pow2(w) % Pow2(k) == 0
    decreases w
  {
    if k + 1 == w {
      DivModUnique(Pow2(w), Pow2(k), 2, 0);
    } else {
      PowDivides(k, w - 1);
      var c := Pow2(w - 1) / Pow2(k);
      assert Pow2(w) == (2 * c) * Pow2(k);
      DivModUnique(Pow2(w), Pow2(k), 2 * c, 0);
    }
  }

  /** A multiple of `p` that is at least `n` is at least the next one after `n`. */
  lemma NextMultiple(n: nat, p: nat, c: nat)
    requires p > 0 && c % p == 0 && n <= c && n % p != 0
    ensures n - n % p + p <= c
  {
    var k, h := c / p, n / p;
    assert c == k * p && n == h * p + n % p;
    if k <= h {
      ProductAtLeast(h, k, p);
    } else {
      ProductAtLeast(k, h + 1, p);
    }
  }

  lemma LeastMultiple(n: nat, p: nat)
    requires p > 0
    ensures n % p == 0 ==> IsLeastMultiple(n, p, n)
    ensures n % p != 0 ==> IsLeastMultiple(n - n % p + p, p, n)
  {
    if n % p != 0 {
      DivModUnique(n - n % p + p, p, n / p + 1, 0);
      forall c: nat | c % p == 0 && n <= c ensures n - n % p + p <= c {
        NextMultiple(n, p, c);
      }
    }
  }

  /** Past the last page of the address space the rounded size wraps to zero. */
  lemma LastPage(n: nat, p: nat)
    requires 0 < p <= TWO_64 && TWO_64 % p == 0 && TWO_64 - p < n < TWO_64
    ensures n % p != 0 && n - n % p + p == TWO_64
  {
    var h := TWO_64 / p;
    assert TWO_64 == h * p;
    assert (h - 1) * p == TWO_64 - p;
    DivModUnique(n, p, h - 1, n - (TWO_64 - p));
  }

  /** Below it nothing wraps. */
  lemma NoWrap(n: nat, p: nat)
    requires p > 0 && TWO_64 % p == 0 && n <= TWO_64 - p
    ensures n - n % p + p <= TWO_64
    ensures n % p != 0 ==> n - n % p + p < TWO_64
  {
    if n % p != 0 {
      assert (TWO_64 - p) % p == 0 by {
        var h := TWO_64 / p;
        assert TWO_64 == h * p;
        assert (h - 1) * p == TWO_64 - p;
        DivModUnique(TWO_64 - p, p, h - 1, 0);
      }
      NextMultiple(n, p, TWO_64 - p);
    }
  }

  lemma Rounding(n: nat, p: nat)
    requires n < TWO_64 && 0 < p < TWO_64 && TWO_64 % p == 0
    ensures var down := n - n % p;
            var bytes := if n % p != 0 then (down + p) % TWO_64 else down;
            && (n <= TWO_64 - p ==> IsLeastMultiple(bytes, p, n) && bytes < n + p)
            && (n > TWO_64 - p ==> bytes == 0 && n != 0)
  {
    LeastMultiple(n, p);
    if n > TWO_64 - p {
      LastPage(n, p);
    } else {
      NoWrap(n, p);
    }
  }

  /** The capacity that rounding gives the client's buffers, for any page of 2 to 65536 bytes. */
  lemma ShippedCapacity(b: nat, p: nat)
    requires IsPageSize(p) && 1 < p <= 65536 && IsLeastMultiple(b, p, 65535)
    ensures b == 65536
  {
    hide Pow2;
    var k: nat :| k < 64 && p == Pow2(k);
    Pow2Of16();
    if k > 16 {
      PowDivides(16, k);
    } else if k < 16 {
      PowDivides(k, 16);
    }
    var q := 65536 / p;
    assert 65536 % p == 0 && 65536 == q * p;
    assert 65535 == (q - 1) * p + (p - 1);
    DivModUnique(65535, p, q - 1, p - 1);
  }

  lemma DoublingOverflows(b: nat)
    requires b < TWO_64
    ensures 2 * b % TWO_64 < b <==> 2 * b >= TWO_64
  {
  }

  /** The rounding of `LinearMemInfo::init` and its overflow test, in 64-bit arithmetic. */
  method RoundToPages(minSize: nat, pageSize: nat) returns (bytes: nat, ok: bool)
    requires minSize < TWO_64 && IsPageSize(pageSize)
    ensures pageSize > 0 && bytes < TWO_64
    ensures IsLeastMultiple(bytes, pageSize, minSize) <==> minSize <= TWO_64 - pageSize
    ensures minSize > TWO_64 - pageSize ==> bytes == 0
    ensures minSize <= TWO_64 - pageSize ==> bytes < minSize + pageSize
    ensures ok <==> 2 * bytes < TWO_64
  {
    PageMask(minSize, pageSize);
    Rounding(minSize, pageSize);
    bytes := BitAnd(minSize, BitNot(pageSize - 1));
    if minSize % pageSize != 0 {
      bytes := (bytes + pageSize) % TWO_64;
    }
    DoublingOverflows(bytes);
    if 2 * bytes % TWO_64 < bytes {
      return bytes, false;
    }
    return bytes, true;
  }
}
