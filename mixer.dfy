/// The counter-based integer mixer behind every random draw of a star system
/// (`cStarSystem::rnd`, `rndInt` and `rndDouble`), on exact integers and reals.
module Mixer {

  /** A `uint32_t`. */
  type Word = x: int | 0 <= x < 0x1_0000_0000

  /** The constant `rnd()` adds to the state before every draw. */
  const Increment: Word := 0xe120_fc15

  /** `nProcGen += 0xe120fc15` on a `uint32_t`: the addition wraps. */
  function Advance(s: Word): Word
  {
    (s + Increment) % 0x1_0000_0000
  }

  /**
   * One advance is one step of the closed form; the new state is below the old one exactly when
   * the addition overflows 32 bits; and distinct states advance to distinct states.
   */
  lemma AdvanceWraps(s: Word, s': Word)
    ensures Advance(s) == AdvanceBy(s, 1)
    ensures Advance(s) < s <==> 0x1_0000_0000 <= s + Increment
    ensures Advance(s) == Advance(s') ==> s == s'
  {
  }

  /**
   * Bitwise exclusive or of two naturals, the `^` of C++ on unsigned operands: the lowest bit of
   * the result is the sum of the lowest bits modulo 2, and the higher bits are the exclusive or
   * of the higher bits.
   */
  function Xor(a: nat, b: nat): nat
    decreases a + b, 1
  {
    XorFromLowest(a, b)
  }

  /** Exclusive or, one bit at a time from the lowest. */
  function XorFromLowest(a: nat, b: nat): nat
    decreases a + b, 0
  {
    if a == 0 then b
    else if b == 0 then a
    else (a % 2 + b % 2) % 2 + 2 * Xor(a / 2, b / 2)
  }

  /** Every pair of operands, zero included, splits into its lowest bits and the exclusive or of the rest. */
  lemma XorStep(a: nat, b: nat)
    ensures Xor(a, b) == (a % 2 + b % 2) % 2 + 2 * Xor(a / 2, b / 2)
  {
    if a == 0 {
      assert Xor(a / 2, b / 2) == b / 2;
    } else if b == 0 {
      assert Xor(a / 2, b / 2) == a / 2;
    }
  }

  /** Exclusive or is symmetric. */
  lemma {:induction false} XorCommutes(a: nat, b: nat)
    ensures Xor(a, b) == Xor(b, a)
    decreases a + b
  {
    if a != 0 && b != 0 {
      XorCommutes(a / 2, b / 2);
    }
  }

  /** Exclusive or with the same operand twice gives the first operand back. */
  lemma {:induction false} XorSelfInverse(a: nat, b: nat)
    ensures Xor(Xor(a, b), b) == a
    decreases a + b
  {
    if b != 0 {
      var bit, half := (a % 2 + b % 2) % 2, Xor(a / 2, b / 2);
      var x := Xor(a, b);
      XorStep(a, b);
      ModUnique(x, half, bit, 2);
      XorStep(x, b);
      XorSelfInverse(a / 2, b / 2);
      assert Xor(x, b) == (bit + b % 2) % 2 + 2 * (a / 2);
      BitCancels(a % 2, b % 2);
    }
  }

  /** Bit `i` of `a`. */
  function Bit(a: nat, i: nat): nat
  {
    (a / Pow2(i)) % 2
  }

  /**
   * `Xor` is C++'s `^`: bit `i` of the result is bit `i` of one operand plus bit `i` of the other,
   * modulo 2, at every position.
   */
  lemma {:induction false} XorIsBitwise(a: nat, b: nat, i: nat)
    ensures Bit(Xor(a, b), i) == (Bit(a, i) + Bit(b, i)) % 2
    decreases i
  {
    var x := Xor(a, b);
    XorStep(a, b);
    ModUnique(x, Xor(a / 2, b / 2), (a % 2 + b % 2) % 2, 2);
    if i > 0 {
      BitOfHalf(x, i);
      BitOfHalf(a, i);
      BitOfHalf(b, i);
      XorIsBitwise(a / 2, b / 2, i - 1);
    }
  }

  /** Bit `i` of a number is bit `i - 1` of its half. */
  lemma BitOfHalf(a: nat, i: nat)
    requires 0 < i
    ensures Bit(a, i) == Bit(a / 2, i - 1)
  {
    var p := Pow2(i - 1);
    var q, r := (a / 2) / p, (a / 2) % p;
    ModUnique(a, q, 2 * r + a % 2, 2 * p);
  }

  /** Adding the same bit twice modulo 2 cancels it. */
  lemma BitCancels(u: int, v: int)
    requires 0 <= u < 2 && 0 <= v < 2
    ensures ((u + v) % 2 + v) % 2 == u
  {
  }

  /** `2^k`. */
  function Pow2(k: nat): (p: nat)
    ensures 0 < p
  {
    if k == 0 then 1 else 2 * Pow2(k - 1)
  }

  lemma {:induction false} Pow2Add(a: nat, b: nat)
    ensures Pow2(a + b) == Pow2(a) * Pow2(b)
    decreases a
  {
    if a > 0 {
      Pow2Add(a - 1, b);
    }
  }

  lemma Pow2Word()
    ensures Pow2(32) == 0x1_0000_0000
  {
    assert Pow2(8) == 0x100;
    Pow2Add(8, 8);
    Pow2Add(16, 16);
  }

  /** The low `k` bits of an exclusive or depend only on the low `k` bits of its operands. */
  lemma {:induction false} XorLowBits(a: nat, b: nat, k: nat)
    ensures Xor(a, b) % Pow2(k) == Xor(a % Pow2(k), b % Pow2(k))
    decreases k
  {
    if k > 0 {
      var p := Pow2(k - 1);
      XorStep(a, b);
      XorStep(a % (2 * p), b % (2 * p));
      LowBitsHalve(a, p);
      LowBitsHalve(b, p);
      XorLowBits(a / 2, b / 2, k - 1);
      LowBitsOfDouble((a % 2 + b % 2) % 2, Xor(a / 2, b / 2), p);
    }
  }

  /** Reducing modulo `2p` keeps the lowest bit, and on the half it is reducing modulo `p`. */
  lemma LowBitsHalve(a: nat, p: nat)
    requires 0 < p
    ensures (a % (2 * p)) % 2 == a % 2
    ensures (a % (2 * p)) / 2 == (a / 2) % p
  {
    var q, r := a / (2 * p), a % (2 * p);
    ModUnique(a, p * q + r / 2, r % 2, 2);
    ModUnique(r, r / 2, r % 2, 2);
    ModUnique(a / 2, q, r / 2, p);
  }

  /** A bit plus twice `y`, reduced modulo `2p`, is that bit plus twice `y` reduced modulo `p`. */
  lemma LowBitsOfDouble(bit: nat, y: nat, p: nat)
    requires bit < 2 && 0 < p
    ensures (bit + 2 * y) % (2 * p) == bit + 2 * (y % p)
  {
    var q, r := y / p, y % p;
    ModUnique(bit + 2 * y, q, bit + 2 * r, 2 * p);
  }

  /** Quotient and remainder are the only ones: `x == k * m + r` with `0 <= r < m` fixes both. */
  lemma ModUnique(x: int, k: int, r: int, m: int)
    requires 0 < m && x == k * m + r && 0 <= r < m
    ensures x / m == k && x % m == r
  {
    var k', r' := x / m, x % m;
    assert (k - k') * m == r' - r;
    if k > k' {
      MulAtLeast(k - k', m);
    } else if k < k' {
      MulAtLeast(k' - k, m);
    }
  }

  lemma {:induction false} MulAtLeast(n: int, m: int)
    requires 1 <= n && 0 < m
    ensures m <= n * m
    decreases n
  {
    if n > 1 {
      MulAtLeast(n - 1, m);
    }
  }

  /** A `uint64_t`. */
  predicate IsUint64(t: int)
  {
    0 <= t < 0x1_0000_0000_0000_0000
  }

  /**
   * `(uint32_t)((tmp >> 32) ^ tmp)`: the high half of a 64-bit product xor-ed onto the whole
   * product, then truncated to its low 32 bits. That is the high half xor-ed onto the low half.
   */
  function Fold(tmp: int): Word
    requires IsUint64(tmp)
  {
    Xor(tmp / 0x1_0000_0000, tmp) % 0x1_0000_0000
  }

  /**
   * Truncating after the exclusive or is the same as truncating the product first: the fold is
   * the high half xor-ed onto the low half.
   */
  lemma FoldHalves(tmp: int)
    requires IsUint64(tmp)
    ensures Fold(tmp) == Xor(tmp / 0x1_0000_0000, tmp % 0x1_0000_0000)
  {
    Pow2Word();
    XorLowBits(tmp / 0x1_0000_0000, tmp, 32);
  }

  /**
   * The value `rnd()` returns once the state has been advanced to `s`: two rounds of a 64-bit
   * product with a constant (0x4a39b70d, then 0x12fad5c9), each folded back to 32 bits. A
   * 32-bit value times a 32-bit constant never exceeds 64 bits, so the products are exact.
   */
  function Mix(s: Word): Word
  {
    Fold(Fold(s * 0x4a39_b70d) * 0x12fa_d5c9)
  }

  /** Each round of the mixer xors the high half of its product onto the low half. */
  lemma MixRounds(s: Word)
    ensures var m1 := Xor(s * 0x4a39_b70d / 0x1_0000_0000, s * 0x4a39_b70d % 0x1_0000_0000);
      Mix(s) == Xor(m1 * 0x12fa_d5c9 / 0x1_0000_0000, m1 * 0x12fa_d5c9 % 0x1_0000_0000)
  {
    FoldHalves(s * 0x4a39_b70d);
    FoldHalves(Fold(s * 0x4a39_b70d) * 0x12fa_d5c9);
  }

  /** The state after `k` draws from state `s`, advancing one draw at a time. */
  function Iterate(s: Word, k: nat): Word
    decreases k
  {
    if k == 0 then s else Advance(Iterate(s, k - 1))
  }

  /** The state after `k` draws from state `s`, in closed form. */
  function AdvanceBy(s: Word, k: nat): Word
  {
    (s + k * Increment) % 0x1_0000_0000
  }

  /** One more draw moves the closed form on by one. */
  lemma AdvanceStep(s: Word, k: nat)
    ensures Advance(AdvanceBy(s, k)) == AdvanceBy(s, k + 1)
  {
    var a := s + k * Increment;
    assert (a % 0x1_0000_0000 + Increment) % 0x1_0000_0000 == (a + Increment) % 0x1_0000_0000 by {
      ModAddLeft(a, Increment);
    }
  }

  lemma ModAddLeft(a: int, b: int)
    ensures (a % 0x1_0000_0000 + b) % 0x1_0000_0000 == (a + b) % 0x1_0000_0000
  {
    var q := a / 0x1_0000_0000;
    assert a == q * 0x1_0000_0000 + a % 0x1_0000_0000;
    ModShift(a % 0x1_0000_0000 + b, q);
  }

  lemma ModShift(a: int, q: int)
    ensures (a + q * 0x1_0000_0000) % 0x1_0000_0000 == a % 0x1_0000_0000
  {
  }

  /** Each draw only adds the increment: after `k` draws the state is `s + k * 0xe120fc15 (mod 2^32)`. */
  lemma {:induction false} IterateClosedForm(s: Word, k: nat)
    ensures Iterate(s, k) == AdvanceBy(s, k)
  {
    if k > 0 {
      IterateClosedForm(s, k - 1);
      AdvanceStep(s, k - 1);
    }
  }

  /** Draws made after others continue the same sequence: `a` draws then `b` draws are `a + b` draws. */
  lemma {:induction false} IterateAdditive(s: Word, a: nat, b: nat)
    ensures Iterate(Iterate(s, a), b) == Iterate(s, a + b)
  {
    if b > 0 {
      IterateAdditive(s, a, b - 1);
    }
  }

  /** Chaining two runs of draws: `a` draws to `mid`, then `b` more to `end`, are `total = a + b` draws. */
  lemma IterateChain(s: Word, a: nat, mid: Word, b: nat, end: Word, total: nat)
    requires mid == Iterate(s, a) && end == Iterate(mid, b) && total == a + b
    ensures end == Iterate(s, total)
  {
    IterateAdditive(s, a, b);
  }

  predicate IsInt32(v: int)
  {
    -0x8000_0000 <= v < 0x8000_0000
  }

  /** What `rndInt(min, max)` demands: both bounds and their difference fit an `int`, and `max > min`. */
  predicate ValidIntRange(min: int, max: int)
  {
    IsInt32(min) && IsInt32(max) && min < max && IsInt32(max - min)
  }

  /** An `int` converted to `uint32_t` (modulo 2^32). */
  function ToUnsigned(v: int): (u: Word)
    ensures 0 <= v < 0x1_0000_0000 ==> u == v
    ensures -0x1_0000_0000 <= v < 0 ==> u == v + 0x1_0000_0000
  {
    v % 0x1_0000_0000
  }

  /** A `uint32_t` converted back to `int` (two's complement). */
  function ToSigned(u: Word): (v: int)
    ensures IsInt32(v) && ToUnsigned(v) == u
  {
    if u < 0x8000_0000 then u else u - 0x1_0000_0000
  }

  /** `(a + (uint32_t)b)` wraps to the same word as `(uint32_t)(a + b)`. */
  lemma UnsignedAdd(a: int, b: int)
    ensures (a + ToUnsigned(b)) % 0x1_0000_0000 == ToUnsigned(a + b)
  {
    ModAddLeft(b, a);
  }

  /** Converting an `int` to `uint32_t` and back gives it back. */
  lemma SignedOfUnsigned(v: int)
    requires IsInt32(v)
    ensures ToSigned(ToUnsigned(v)) == v
  {
    if v < 0 {
      ModShift(v, 1);
    }
  }

  /** `rndInt(min, max)` on one raw draw `raw`: `min` plus the draw reduced modulo the span. */
  function IntFromRaw(raw: Word, min: int, max: int): (v: int)
    requires min < max
    ensures min <= v < max
  {
    min + raw % (max - min)
  }

  /**
   * `rndInt`'s own arithmetic: `(rnd() % (max - min)) + min` is computed in `uint32_t` (the span
   * and `min` are converted to unsigned and the sum wraps), and the result is converted back to
   * `int`. The wrap cancels out, so a negative `min` gives the exact value.
   */
  lemma UnsignedRangeExact(raw: Word, min: int, max: int)
    requires ValidIntRange(min, max)
    ensures ToSigned((raw % ToUnsigned(max - min) + ToUnsigned(min)) % 0x1_0000_0000) == IntFromRaw(raw, min, max)
  {
    var offset := raw % ToUnsigned(max - min);
    assert offset == raw % (max - min);
    UnsignedAdd(offset, min);
    SignedOfUnsigned(offset + min);
  }

  /**
   * `(double)rnd() / (double)0x7FFFFFFF`: the raw draw over the largest `int32_t` (not the
   * largest `uint32_t`), so it reaches a little over 2 rather than 1.
   */
  function Unit(raw: Word): (u: real)
    ensures 0.0 <= u <= 0xFFFF_FFFF as real / 0x7FFF_FFFF as real
    ensures u <= 1.0 <==> raw <= 0x7FFF_FFFF
  {
    raw as real / 0x7FFF_FFFF as real
  }

  /** `u * (max - min)` for a unit in `[0, 0xFFFFFFFF / 0x7FFFFFFF]` and a span `max - min`. */
  function Stretch(u: real, span: real): (r: real)
    requires 0.0 <= u <= 0xFFFF_FFFF as real / 0x7FFF_FFFF as real
    ensures 0.0 <= span ==> 0.0 <= r <= span * 0xFFFF_FFFF as real / 0x7FFF_FFFF as real
    ensures 0.0 < span ==> (r <= span <==> u <= 1.0)
  {
    StretchUpper(u, span);
    StretchThreshold(u, span);
    u * span
  }

  lemma StretchUpper(u: real, span: real)
    requires 0.0 <= u <= 0xFFFF_FFFF as real / 0x7FFF_FFFF as real
    ensures 0.0 <= span ==> 0.0 <= u * span <= span * 0xFFFF_FFFF as real / 0x7FFF_FFFF as real
  {
  }

  lemma StretchThreshold(u: real, span: real)
    ensures 0.0 < span ==> (u * span <= span <==> u <= 1.0)
  {
    if 0.0 < span {
      if u <= 1.0 {
        MulLe(u, 1.0, span);
      } else {
        MulLt(1.0, u, span);
      }
    }
  }

  lemma MulLe(a: real, b: real, c: real)
    requires a <= b && 0.0 <= c
    ensures a * c <= b * c
  {
  }

  lemma MulLt(a: real, b: real, c: real)
    requires a < b && 0.0 < c
    ensures a * c < b * c
  {
  }

  /**
   * `rndDouble`'s arithmetic on one raw draw, in exact reals: at least `min`, at most
   * `min + (max - min) * 0xFFFFFFFF / 0x7FFFFFFF`, and above `max` exactly when the raw
   * draw exceeds 0x7FFFFFFF.
   */
  function RealFromRaw(raw: Word, min: real, max: real): (v: real)
    ensures min <= max ==> min <= v <= min + (max - min) * 0xFFFF_FFFF as real / 0x7FFF_FFFF as real
    ensures min < max ==> (v <= max <==> raw <= 0x7FFF_FFFF)
  {
    Stretch(Unit(raw), max - min) + min
  }

  /** A drawn value and the state the draw left behind. */
  datatype Drawn<T> = Drawn(value: T, state: Word)

  /** `rnd()`: advance the state, then mix the new state. */
  function RawDraw(s: Word): Drawn<Word>
  {
    var n := Advance(s);
    Drawn(Mix(n), n)
  }

  /**
   * A draw moves the state on by one increment, and the value it returns is a function of the
   * new state alone: draws from two states agree exactly when the states do.
   */
  lemma RawDrawOfNewState(s: Word, s': Word)
    ensures RawDraw(s).state == AdvanceBy(s, 1) && RawDraw(s).value == Mix(RawDraw(s).state)
    ensures RawDraw(s) == RawDraw(s') <==> s == s'
  {
    AdvanceWraps(s, s');
  }

  /** `rndInt(min, max)`: exactly one raw draw, a value in `[min, max)`. */
  function IntDraw(s: Word, min: int, max: int): (d: Drawn<int>)
    requires ValidIntRange(min, max)
    ensures min <= d.value < max
  {
    var r := RawDraw(s);
    Drawn(IntFromRaw(r.value, min, max), r.state)
  }

  /** `rndDouble(min, max)`: exactly one raw draw, at least `min`, at most `min + (max - min) * 0xFFFFFFFF / 0x7FFFFFFF`. */
  function RealDraw(s: Word, min: real, max: real): (d: Drawn<real>)
    ensures min <= max ==> min <= d.value <= min + (max - min) * 0xFFFF_FFFF as real / 0x7FFF_FFFF as real
  {
    var r := RawDraw(s);
    Drawn(RealFromRaw(r.value, min, max), r.state)
  }
}
