/**
 * Conversions from the source's u8/u16 values (here bv8/bv16) to integer
 * indices. Each names a `usize` conversion the source performs and states
 * its range, so that index arithmetic can be reasoned about linearly.
 */
module Bits {
  /** `b as usize` for a u8. */
  function Nat8(b: bv8): (r: nat)
    ensures r < 0x100
  {
    b as int
  }

  /** `w as usize` for a u16. */
  function Nat16(w: bv16): (r: nat)
    ensures r < 0x10000
  {
    w as int
  }

  /** `n as u8` for an n known to fit. */
  function Bv8(n: int): (b: bv8)
    requires 0 <= n < 0x100
  {
    n as bv8
  }

  /** `n as u16` for an n known to fit. */
  function Bv16(n: int): (w: bv16)
    requires 0 <= n < 0x10000
  {
    n as bv16
  }

  /** `u16::from(b)` for a u8. */
  function Widen(b: bv8): (r: bv16)
    ensures r < 0x100
  {
    b as bv16
  }

  /** `b - 1` on a nonzero u8, which does not wrap. */
  function Pred8(b: bv8): (r: bv8)
    requires b != 0
    ensures Nat8(r) == Nat8(b) - 1
  {
    b - 1
  }

  /** `(w & 0x3FF) as usize`: offset inside a 1 KB bank. */
  function Low10(w: bv16): (r: nat)
    ensures r < 0x400
  {
    (w & 0x3FF) as int
  }

  /** `(w & 0x7FF) as usize`: offset inside 2 KB of CPU RAM. */
  function Low11(w: bv16): (r: nat)
    ensures r < 0x800
  {
    (w & 0x7FF) as int
  }

  /** `(w & 0xFFF) as usize`: offset inside a 4 KB bank. */
  function Low12(w: bv16): (r: nat)
    ensures r < 0x1000
  {
    (w & 0xFFF) as int
  }

  /** `(w & 0x1FFF) as usize`: offset inside an 8 KB bank. */
  function Low13(w: bv16): (r: nat)
    ensures r < 0x2000
  {
    (w & 0x1FFF) as int
  }

  /** `(w & 0x3FFF) as usize`: offset inside a 16 KB bank. */
  function Low14(w: bv16): (r: nat)
    ensures r < 0x4000
  {
    (w & 0x3FFF) as int
  }

  /** `(w & 0x7FFF) as usize`: offset inside a 32 KB bank. */
  function Low15(w: bv16): (r: nat)
    ensures r < 0x8000
  {
    (w & 0x7FFF) as int
  }

  /**
   * The index `bank * size + offset` of byte `offset` in bank number `bank`
   * of `size` bytes: every banked mapper computes its ROM/RAM index this way.
   */
  function Banked(bank: nat, size: nat, offset: nat): (r: nat)
    requires 0 < size && offset < size
    ensures r / size == bank
    ensures r % size == offset
  {
    DivModUnique(bank, size, offset);
    bank * size + offset
  }

  /** Euclidean division recovers the bank number and the offset. */
  lemma {:induction false} DivModUnique(q: nat, d: nat, o: nat)
    requires 0 < d && o < d
    ensures (q * d + o) / d == q && (q * d + o) % d == o
  {
    var n := q * d + o;
    var q', o' := n / d, n % d;
    assert n == q' * d + o';
    if q' < q {
      MulLess(q', q, d);
      assert false;
    } else if q < q' {
      MulLess(q, q', d);
      assert false;
    }
  }

  /** Distinct bank numbers are at least one bank apart. */
  lemma {:induction false} MulLess(a: nat, b: nat, d: nat)
    requires a < b && 0 < d
    ensures a * d + d <= b * d
    decreases b
  {
    assert b * d == (b - 1) * d + d;
    if a < b - 1 {
      MulLess(a, b - 1, d);
    }
  }

  /** Widening keeps the value. */
  lemma WidenValue(b: bv8)
    ensures Nat16(Widen(b)) == Nat8(b)
  {
  }

  /** Adding one to a word below 0x1FF does not wrap. */
  lemma Succ9(w: bv16)
    requires w < 0x1FF
    ensures (w + 1) as int == w as int + 1
  {
  }

  lemma PredValue(b: bv8)
    requires b != 0
    ensures (b - 1) as int == b as int - 1
  {
  }

  lemma WideStep(a: bv8, b: bv8)
    requires b != 0
    ensures a as bv16 + (b - 1) as bv16 < 0x1FF && a as bv16 + b as bv16 == (a as bv16 + (b - 1) as bv16) + 1
  {
  }

  /** Two bytes added in 16 bits do not wrap. */
  lemma {:induction false} WideSum(a: bv8, b: bv8)
    ensures Nat16(a as bv16 + b as bv16) == Nat8(a) + Nat8(b)
    decreases b as int
  {
    if b == 0 {
      assert a as bv16 + b as bv16 == a as bv16;
    } else {
      PredValue(b);
      WideSum(a, b - 1);
      WideStep(a, b);
      Succ9(a as bv16 + (b - 1) as bv16);
    }
  }

  /** A word is its high byte times 256 plus its low byte. */
  lemma HighLow(w: bv16)
    ensures w as int == 256 * ((w >> 8) as bv8) as int + ((w & 0xFF) as bv8) as int
  {
  }

  lemma LowBits(a: bv8, b: bv8)
    ensures ((a as bv16 + b as bv16) & 0xFF) as bv8 == a + b
  {
  }

  /** The low byte of the widened sum is the byte sum: the widened sum modulo 256. */
  lemma LowOfSum(a: bv8, b: bv8)
    ensures Nat8(a + b) == Nat16(a as bv16 + b as bv16) % 256
  {
    var w := a as bv16 + b as bv16;
    LowBits(a, b);
    HighLow(w);
    DivModUnique(((w >> 8) as bv8) as int, 256, ((w & 0xFF) as bv8) as int);
  }

  /** `(w & 0xFF) as u8` for a w below 0x200 is w modulo 256. */
  lemma LowByte(w: bv16)
    requires w < 0x200
    ensures Nat8((w & 0xFF) as bv8) == Nat16(w) % 256
  {
    HighLow(w);
    DivModUnique(((w >> 8) as bv8) as int, 256, ((w & 0xFF) as bv8) as int);
  }

  /** Byte addition wraps modulo 256. */
  lemma Sum8(a: bv8, b: bv8)
    ensures Nat8(a + b) == (Nat8(a) + Nat8(b)) % 256
  {
    WideSum(a, b);
    LowOfSum(a, b);
  }

  /** Byte subtraction wraps modulo 256. */
  lemma Difference8(a: bv8, b: bv8)
    ensures Nat8(a - b) == (Nat8(a) - Nat8(b)) % 256
  {
    Sum8(a - b, b);
    SubAdd(a, b);
    ModBack(Nat8(a - b), Nat8(b), Nat8(a));
  }

  lemma SubAdd(a: bv8, b: bv8)
    ensures a - b + b == a
  {
  }

  /** If z is x + y modulo 256, then x is z - y modulo 256. */
  lemma ModBack(x: nat, y: nat, z: nat)
    requires x < 256 && y < 256 && z == (x + y) % 256
    ensures x == (z - y) % 256
  {
    if x + y < 256 {
      assert z == x + y;
    } else {
      assert z == x + y - 256;
    }
  }

  /** The unsigned order of bytes is the order of their values. */
  lemma Order8(a: bv8, b: bv8)
    ensures a >= b <==> Nat8(a) >= Nat8(b)
  {
  }
}
