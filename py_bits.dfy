// Python's integer operators as tools/eve.py uses them. Python integers are
// unbounded, so `<<` and `>>` on a non-negative value are multiplication and
// floor division by a power of two, and `&` and `|` act bit by bit; `Or` and
// `And` spell that out on naturals. For a mask 2^k - 1, `x & mask` is the
// remainder of x mod 2^k, negative x included (Python's `&` acts on the
// infinite two's-complement expansion, and Dafny's `%` is Euclidean).
module PyBits {

  function Pow2(n: nat): (p: nat)
    ensures p >= 1
  {
    if n == 0 then 1 else 2 * Pow2(n - 1)
  }

  lemma {:induction false} Pow2Add(a: nat, b: nat)
    ensures Pow2(a + b) == Pow2(a) * Pow2(b)
    decreases b
  {
    if b > 0 {
      Pow2Add(a, b - 1);
      assert Pow2(a + b) == 2 * Pow2(a + b - 1);
    }
  }

  lemma {:induction false} Pow2Monotone(a: nat, b: nat)
    requires a <= b
    ensures Pow2(a) <= Pow2(b)
    decreases b
  {
    if a < b {
      Pow2Monotone(a, b - 1);
    }
  }

  /** Euclidean division is determined by its defining equation. */
  lemma {:induction false} DivModUnique(x: int, d: int, q: int, r: int)
    requires d > 0 && 0 <= r < d && x == q * d + r
    ensures x / d == q && x % d == r
  {
    var q', r' := x / d, x % d;
    assert x == q' * d + r';
    var k := q - q';
    assert k * d == r' - r by {
      assert q * d - q' * d == k * d;
    }
    if k > 0 {
      MulAtLeast(k, d);
    } else if k < 0 {
      MulAtLeast(-k, d);
    }
  }

  /** A multiple of `d` is `d` times its quotient. */
  lemma {:induction false} ExactDiv(x: int, d: int)
    requires d > 0 && x % d == 0
    ensures x == d * (x / d)
  {
    assert x == (x / d) * d + x % d;
  }

  lemma {:induction false} MulAtLeast(k: int, d: int)
    requires k >= 1 && d > 0
    ensures k * d >= d
  {
    assert k * d == (k - 1) * d + d;
  }

  lemma {:induction false} DivNat(x: nat, d: int)
    requires d > 0
    ensures x / d >= 0
  {
    var q := x / d;
    assert x == q * d + x % d;
    if q < 0 {
      MulAtLeast(-q, d);
    }
  }

  /** `(x >> a) >> b == x >> (a + b)`, as floor divisions. */
  lemma {:induction false} DivDiv(x: int, a: int, b: int)
    requires a > 0 && b > 0
    ensures x / a / b == x / (a * b)
  {
    var q1, r1 := x / a, x % a;
    var q2, r2 := q1 / b, q1 % b;
    assert x == a * q1 + r1;
    assert q1 == b * q2 + r2;
    assert a * q1 == (a * b) * q2 + a * r2 by {
      MulDistrib(a, r2, b, q2);
    }
    ShiftAddBound(r1, r2, a, b);
    DivModUnique(x, a * b, q2, r1 + a * r2);
  }

  lemma {:induction false} MulLe(a: int, x: int, y: int)
    requires a >= 0 && x <= y
    ensures a * x <= a * y
  {
    assert a * y - a * x == a * (y - x);
  }

  /** A field below `p` with `hi` above it stays below `p * q` when `hi` is below `q`. */
  lemma {:induction false} ShiftAddBound(lo: int, hi: int, p: int, q: int)
    requires 0 <= lo < p && 0 <= hi < q
    ensures 0 <= lo + p * hi < p * q
  {
    MulLe(p, hi, q - 1);
    assert p * (q - 1) == p * q - p;
  }

  lemma {:induction false} MulDistrib(a: int, x: int, y: int, z: int)
    ensures a * (x + y * z) == a * x + (a * y) * z
  {
  }

  /** The low field and the rest of `lo + d * hi`. */
  lemma {:induction false} SplitAt(lo: int, d: int, hi: int)
    requires d > 0 && 0 <= lo < d
    ensures (lo + d * hi) % d == lo && (lo + d * hi) / d == hi
  {
    DivModUnique(lo + d * hi, d, hi, lo);
  }

  /** Python's `a | b` on non-negative integers. */
  function Or(a: nat, b: nat): nat
    decreases a + b
  {
    if a == 0 then b
    else if b == 0 then a
    else 2 * Or(a / 2, b / 2) + (if a % 2 == 1 || b % 2 == 1 then 1 else 0)
  }

  /** Python's `a & b` on non-negative integers. */
  function And(a: nat, b: nat): nat
    decreases a + b
  {
    if a == 0 || b == 0 then 0
    else 2 * And(a / 2, b / 2) + (if a % 2 == 1 && b % 2 == 1 then 1 else 0)
  }

  /** Or-ing a value into bits that are all clear is adding it. */
  lemma {:induction false} OrDisjoint(a: nat, b: nat, k: nat)
    requires a < Pow2(k) && b % Pow2(k) == 0
    ensures Or(a, b) == a + b
    decreases k
  {
    if a != 0 && b != 0 {
      assert k > 0;
      var h := Pow2(k - 1);
      assert b % 2 == 0 by {
        DivModUnique(b, 2, (b / Pow2(k)) * h, 0);
      }
      assert a / 2 < h;
      assert (b / 2) % h == 0 by {
        DivModUnique(b / 2, h, b / Pow2(k), 0);
      }
      OrDisjoint(a / 2, b / 2, k - 1);
    }
  }

  /** Two values below 2^k or together below 2^k. */
  lemma {:induction false} OrBound(a: nat, b: nat, k: nat)
    requires a < Pow2(k) && b < Pow2(k)
    ensures Or(a, b) < Pow2(k)
    decreases k
  {
    if a != 0 && b != 0 {
      assert k > 0;
      OrBound(a / 2, b / 2, k - 1);
    }
  }

  /** `x & (2^k - 1)` keeps the low k bits. */
  lemma {:induction false} AndLowMask(x: nat, k: nat)
    ensures And(x, Pow2(k) - 1) == x % Pow2(k)
    decreases k
  {
    if k > 0 && x != 0 {
      AndOddMask(x, k);
      AndLowMask(x / 2, k - 1);
      ModDouble(x, k);
    } else if x == 0 {
      DivModUnique(0, Pow2(k), 0, 0);
    } else {
      DivModUnique(x, 1, x, 0);
    }
  }

  /** One step of `&` against the mask 2^k - 1, which is odd. */
  lemma {:induction false} AndOddMask(x: nat, k: nat)
    requires x != 0 && k > 0
    ensures And(x, Pow2(k) - 1) == 2 * And(x / 2, Pow2(k - 1) - 1) + x % 2
  {
    var h := Pow2(k - 1);
    var m := 2 * h - 1;
    assert m / 2 == h - 1 && m % 2 == 1;
  }

  /** The remainder mod 2^k from the remainder of the halved value mod 2^(k-1) and the low bit. */
  lemma {:induction false} ModDouble(x: nat, k: nat)
    requires k > 0
    ensures x % Pow2(k) == 2 * ((x / 2) % Pow2(k - 1)) + x % 2
  {
    var h := Pow2(k - 1);
    var y := x / 2;
    var q, r := y / h, y % h;
    assert y == q * h + r;
    assert x == 2 * y + x % 2;
    assert x == q * (2 * h) + (2 * r + x % 2) by {
      assert 2 * (q * h) == q * (2 * h);
    }
    DivModUnique(x, 2 * h, q, 2 * r + x % 2);
  }

  /** `code & 0xC0` keeps bits 6 and 7. */
  lemma {:induction false} AndTopTwo(code: nat)
    ensures And(code, 0xC0) == ((code / 64) % 4) * 64
  {
    var c1 := code / 2;
    var c2 := c1 / 2;
    var c3 := c2 / 2;
    var c4 := c3 / 2;
    var c5 := c4 / 2;
    var c6 := c5 / 2;
    DivDiv(code, 2, 2);
    DivDiv(code, 4, 2);
    DivDiv(code, 8, 2);
    DivDiv(code, 16, 2);
    DivDiv(code, 32, 2);
    assert c6 == code / 64;
    AndLowMask(c6, 2);
    if code != 0 {
      assert And(code, 0xC0) == 2 * And(c1, 0x60);
      if c1 != 0 {
        assert And(c1, 0x60) == 2 * And(c2, 0x30);
        if c2 != 0 {
          assert And(c2, 0x30) == 2 * And(c3, 0x18);
          if c3 != 0 {
            assert And(c3, 0x18) == 2 * And(c4, 0x0C);
            if c4 != 0 {
              assert And(c4, 0x0C) == 2 * And(c5, 0x06);
              if c5 != 0 {
                assert And(c5, 0x06) == 2 * And(c6, 0x03);
              }
            }
          }
        }
      }
    }
  }
}
