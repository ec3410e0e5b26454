/** Java's fixed-width integer conversions, written out on unbounded integers. */
module JavaNumbers {
  import opened JavaText

  const ShortMin: int := -32768
  const ShortMax: int := 32767

  /** The `(short)` cast: keep the low 16 bits, read as two's complement. */
  function ToShort(x: int): (r: int)
    ensures ShortMin <= r <= ShortMax
    ensures (r - x) % 65536 == 0
    ensures ShortMin <= x <= ShortMax ==> r == x
  {
    (x - ShortMin) % 65536 + ShortMin
  }

  /** The `(byte)` cast read as an unsigned octet: keep the low 8 bits. */
  function ToOctet(x: int): (r: int)
    ensures 0 <= r < 256
    ensures (r - x) % 256 == 0
    ensures 0 <= x < 256 ==> r == x
  {
    x % 256
  }

  /** Java's `/` on int for a positive divisor: the quotient truncated toward zero. */
  function Quot(a: int, b: int): int
    requires b > 0
  {
    if a >= 0 then a / b else -((-a) / b)
  }

  /** Java's `|` on non-negative ints, taken bit by bit from the lowest. */
  function BitOr(a: nat, b: nat): nat
    decreases a + b
  {
    if a == 0 && b == 0 then 0
    else 2 * BitOr(a / 2, b / 2) + (if a % 2 == 1 || b % 2 == 1 then 1 else 0)
  }

  lemma MulAtLeast(d: int, m: int)
    requires m > 0 && d >= 1
    ensures d * m >= m
  {
  }

  /** The quotient and remainder are the only q and r in [0, m) with a == q * m + r. */
  lemma ModUnique(a: int, m: int, q: int, r: int)
    requires m > 0 && 0 <= r < m && a == q * m + r
    ensures a / m == q && a % m == r
  {
    var q', r' := a / m, a % m;
    assert (q - q') * m == r' - r;
    if q > q' {
      MulAtLeast(q - q', m);
    } else if q < q' {
      MulAtLeast(q' - q, m);
    }
  }

  /** Dividing out the doubling: the low bit stays, the rest is reduced modulo p. */
  lemma ModOfDouble(x: nat, b: nat, p: nat)
    requires b < 2 && p >= 1
    ensures (2 * x + b) % (2 * p) == 2 * (x % p) + b
  {
    var q, r := x / p, x % p;
    assert 2 * x + b == q * (2 * p) + (2 * r + b);
    ModUnique(2 * x + b, 2 * p, q, 2 * r + b);
  }

  lemma {:induction false} Pow2Monotone(k: nat, w: nat)
    requires k <= w
    ensures Pow2(k) <= Pow2(w)
    decreases w
  {
    if k < w {
      Pow2Monotone(k, w - 1);
    }
  }

  /** The lowest k bits of x, collected from the lowest up. */
  function LowBits(x: nat, k: nat): nat
  {
    if k == 0 then 0 else 2 * LowBits(x / 2, k - 1) + x % 2
  }

  /** Keeping the lowest k bits is reducing modulo 2^k. */
  lemma {:induction false} LowBitsMod(x: nat, k: nat)
    ensures LowBits(x, k) == x % Pow2(k)
  {
    if k == 0 {
      ModUnique(x, 1, x, 0);
    } else {
      LowBitsMod(x / 2, k - 1);
      ModOfDouble(x / 2, x % 2, Pow2(k - 1));
      assert x == 2 * (x / 2) + x % 2;
    }
  }

  /** Or-ing onto an even number keeps the other operand's lowest bit. */
  lemma BitOrEven(a: nat, v: nat)
    requires a % 2 == 0
    ensures BitOr(a, v) / 2 == BitOr(a / 2, v / 2)
    ensures BitOr(a, v) % 2 == v % 2
  {
  }

  /**
   * A mask whose bits are exactly those from k up to w, or-ed onto v and cut
   * to w bits, is the mask plus the low k bits of v: nothing of v above bit k
   * survives, since the mask already has those bits set.
   */
  lemma {:induction false} HighMaskOr(w: nat, k: nat, v: nat)
    requires k <= w
    ensures Pow2(k) <= Pow2(w)
    ensures LowBits(BitOr(Pow2(w) - Pow2(k), v), w) == Pow2(w) - Pow2(k) + LowBits(v, k)
    decreases w
  {
    Pow2Monotone(k, w);
    var mask := Pow2(w) - Pow2(k);
    var x := BitOr(mask, v);
    if w == 0 {
    } else if k == 0 {
      assert x / 2 == BitOr(mask / 2, v / 2) && x % 2 == 1 && mask / 2 == Pow2(w - 1) - 1;
      HighMaskOr(w - 1, 0, v / 2);
    } else {
      assert mask / 2 == Pow2(w - 1) - Pow2(k - 1);
      BitOrEven(mask, v);
      HighMaskOr(w - 1, k - 1, v / 2);
    }
  }

  /** `(byte) (mask | v)` for a mask made of the top 8 - k bits of a byte. */
  lemma ByteOfHighMaskOr(mask: nat, k: nat, v: nat)
    requires k <= 8 && mask + Pow2(k) == 256
    ensures ToOctet(BitOr(mask, v)) == mask + v % Pow2(k)
  {
    assert Pow2(8) == 256;
    HighMaskOr(8, k, v);
    LowBitsMod(BitOr(mask, v), 8);
    LowBitsMod(v, k);
  }
}
