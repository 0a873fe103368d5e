/**
 * Python's unbounded integers seen as bit strings: the operations the seat
 * map uses (`&`, `^`, `<<`, `bit_length()` and `2**k - 1`) on non-negative
 * integers, each defined by recursion on the binary digits, with lemmas that
 * say what each operation does to an individual bit.
 */
module Bits {

  function Pow2(n: nat): (r: nat)
    ensures r >= 1
  {
    if n == 0 then 1 else 2 * Pow2(n - 1)
  }

  lemma {:induction false} Pow2Monotone(a: nat, b: nat)
    requires a <= b
    ensures Pow2(a) <= Pow2(b)
    decreases b
  {
    if a < b {
      Pow2Monotone(a, b - 1);
    }
  }

  /** Bit j of m, that is `(m >> j) & 1 == 1`. */
  predicate Bit(m: nat, j: nat)
  {
    if j == 0 then m % 2 == 1 else Bit(m / 2, j - 1)
  }

  /** `int(math.pow(2, k)) - 1`: the k lowest bits set. */
  function Mask(k: nat): nat
  {
    Pow2(k) - 1
  }

  /** `m << s` */
  function Shl(m: nat, s: nat): nat
  {
    if s == 0 then m else 2 * Shl(m, s - 1)
  }

  /** `a & b` */
  function And(a: nat, b: nat): nat
    decreases a
  {
    if a == 0 || b == 0 then 0
    else 2 * And(a / 2, b / 2) + (if a % 2 == 1 && b % 2 == 1 then 1 else 0)
  }

  /** `a ^ b` */
  function Xor(a: nat, b: nat): nat
    decreases a + b
  {
    if a == 0 && b == 0 then 0
    else 2 * Xor(a / 2, b / 2) + (a % 2 + b % 2) % 2
  }

  /** `m.bit_length()` */
  function BitLength(m: nat): nat
  {
    if m == 0 then 0 else 1 + BitLength(m / 2)
  }

  /** Bits lo .. lo+k-1 of m are all set. */
  predicate AllSet(m: nat, lo: nat, k: nat)
  {
    forall j :: lo <= j < lo + k ==> Bit(m, j)
  }

  lemma {:induction false} BitZero(j: nat)
    ensures !Bit(0, j)
  {
    if j > 0 { BitZero(j - 1); }
  }

  /** Appending a low bit r to x shifts every bit of x up by one. */
  lemma BitDouble(x: nat, r: nat, j: nat)
    requires r < 2
    ensures Bit(2 * x + r, j) == if j == 0 then r == 1 else Bit(x, j - 1)
  {
  }

  lemma {:induction false} BitMask(k: nat, j: nat)
    ensures Bit(Mask(k), j) <==> j < k
  {
    if k == 0 {
      BitZero(j);
    } else {
      assert Mask(k) == 2 * Mask(k - 1) + 1;
      BitDouble(Mask(k - 1), 1, j);
      if j > 0 { BitMask(k - 1, j - 1); }
    }
  }

  lemma {:induction false} BitShl(m: nat, s: nat, j: nat)
    ensures Bit(Shl(m, s), j) <==> s <= j && Bit(m, j - s)
  {
    if s > 0 {
      BitDouble(Shl(m, s - 1), 0, j);
      if j > 0 { BitShl(m, s - 1, j - 1); }
    }
  }

  /** The bits of `(2**k - 1) << s` are exactly s .. s+k-1. */
  lemma BitBlock(k: nat, s: nat, j: nat)
    ensures Bit(Shl(Mask(k), s), j) <==> s <= j < s + k
  {
    BitShl(Mask(k), s, j);
    if s <= j { BitMask(k, j - s); }
  }

  lemma {:induction false} BitAnd(a: nat, b: nat, j: nat)
    ensures Bit(And(a, b), j) <==> Bit(a, j) && Bit(b, j)
    decreases a
  {
    if a == 0 || b == 0 {
      BitZero(j);
    } else {
      var low := if a % 2 == 1 && b % 2 == 1 then 1 else 0;
      BitDouble(And(a / 2, b / 2), low, j);
      if j > 0 { BitAnd(a / 2, b / 2, j - 1); }
    }
  }

  lemma {:induction false} BitXor(a: nat, b: nat, j: nat)
    ensures Bit(Xor(a, b), j) <==> Bit(a, j) != Bit(b, j)
    decreases a + b
  {
    if a == 0 && b == 0 {
      BitZero(j);
    } else {
      var r := (a % 2 + b % 2) % 2;
      assert Xor(a, b) == 2 * Xor(a / 2, b / 2) + r;
      BitDouble(Xor(a / 2, b / 2), r, j);
      if j == 0 {
        assert Bit(a, 0) == (a % 2 == 1) && Bit(b, 0) == (b % 2 == 1);
      } else {
        BitXor(a / 2, b / 2, j - 1);
        assert Bit(a, j) == Bit(a / 2, j - 1) && Bit(b, j) == Bit(b / 2, j - 1);
      }
    }
  }

  /** Two integers with the same bits are equal. */
  lemma {:induction false} BitsDetermine(a: nat, b: nat)
    requires forall j: nat :: Bit(a, j) == Bit(b, j)
    ensures a == b
    decreases a + b
  {
    if a != 0 || b != 0 {
      assert Bit(a, 0) == Bit(b, 0);
      forall j: nat ensures Bit(a / 2, j) == Bit(b / 2, j) {
        assert Bit(a, j + 1) == Bit(b, j + 1);
      }
      BitsDetermine(a / 2, b / 2);
    }
  }

  /** No bit at or above `bit_length()` is set. */
  lemma {:induction false} BitBelowLength(m: nat, j: nat)
    requires Bit(m, j)
    ensures j < BitLength(m)
  {
    if m == 0 {
      BitZero(j);
    } else if j > 0 {
      BitBelowLength(m / 2, j - 1);
    }
  }

  /**
   * The test `(m & block) == block` with `block == (2**k - 1) << s` holds
   * exactly when bits s .. s+k-1 of m are all set.
   */
  lemma MaskedTest(m: nat, k: nat, s: nat)
    ensures And(m, Shl(Mask(k), s)) == Shl(Mask(k), s) <==> AllSet(m, s, k)
  {
    var block := Shl(Mask(k), s);
    if AllSet(m, s, k) {
      forall j: nat ensures Bit(And(m, block), j) == Bit(block, j) {
        BitAnd(m, block, j);
        BitBlock(k, s, j);
      }
      BitsDetermine(And(m, block), block);
    }
    if And(m, block) == block {
      forall j | s <= j < s + k ensures Bit(m, j) {
        BitAnd(m, block, j);
        BitBlock(k, s, j);
      }
    }
  }

  /** `m ^ ((2**k - 1) << s)` flips bits s .. s+k-1 of m and keeps the others. */
  lemma XorBlock(m: nat, k: nat, s: nat, j: nat)
    ensures Bit(Xor(m, Shl(Mask(k), s)), j) <==> (Bit(m, j) != (s <= j < s + k))
  {
    BitXor(m, Shl(Mask(k), s), j);
    BitBlock(k, s, j);
  }
}
