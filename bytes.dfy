/**
 * Bytes as Python's `bytearray` holds them: integers 0..255. Python's `|`, `&` and `~` on non-negative
 * integers are written out bit by bit, so that the bytes stay plain integers.
 */
module Bytes {
  type byte = b: int | 0 <= b < 256

  function Pow2(n: nat): (r: nat)
    ensures r > 0
  {
    if n == 0 then 1 else 2 * Pow2(n - 1)
  }

  /** Bit i of a, the coefficient of 2^i in its binary expansion. */
  function Bit(a: nat, i: nat): bool
  {
    if i == 0 then a % 2 == 1 else Bit(a / 2, i - 1)
  }

  /** Python's `a | b`. */
  function BitOr(a: nat, b: nat): nat
  {
    if a == 0 then b
    else if b == 0 then a
    else (if a % 2 == 1 || b % 2 == 1 then 1 else 0) + 2 * BitOr(a / 2, b / 2)
  }

  /** Python's `a & b`. */
  function BitAnd(a: nat, b: nat): nat
  {
    if a == 0 || b == 0 then 0
    else (if a % 2 == 1 && b % 2 == 1 then 1 else 0) + 2 * BitAnd(a / 2, b / 2)
  }

  /** Python's `a & ~b`. */
  function BitAndNot(a: nat, b: nat): nat
  {
    if a == 0 then 0
    else if b == 0 then a
    else (if a % 2 == 1 && b % 2 == 0 then 1 else 0) + 2 * BitAndNot(a / 2, b / 2)
  }

  lemma {:induction false} BitOrBits(a: nat, b: nat, i: nat)
    ensures Bit(BitOr(a, b), i) == (Bit(a, i) || Bit(b, i))
  {
    if a != 0 && b != 0 && i != 0 {
      BitOrBits(a / 2, b / 2, i - 1);
    } else if a == 0 || b == 0 {
      ZeroBits(0, i);
    }
  }

  lemma BitOrEach(a: nat, b: nat)
    ensures forall i :: Bit(BitOr(a, b), i) == (Bit(a, i) || Bit(b, i))
  {
    forall i { BitOrBits(a, b, i); }
  }

  lemma BitAndNotEach(a: nat, b: nat)
    ensures forall i :: Bit(BitAndNot(a, b), i) == (Bit(a, i) && !Bit(b, i))
  {
    forall i { BitAndNotBits(a, b, i); }
  }

  lemma BitAndEach(a: nat, b: nat)
    ensures forall i :: Bit(BitAnd(a, b), i) == (Bit(a, i) && Bit(b, i))
  {
    forall i { BitAndBits(a, b, i); }
  }

  /** Zero is the only number with no bit set. */
  lemma {:induction false} NonzeroHasBit(a: nat)
    ensures a != 0 <==> exists i: nat :: Bit(a, i)
  {
    if a == 0 {
      forall i ensures !Bit(a, i) { ZeroBits(a, i); }
    } else if a % 2 == 1 {
      assert Bit(a, 0);
      assert exists j: nat :: Bit(a, j);
    } else {
      NonzeroHasBit(a / 2);
      var i: nat :| Bit(a / 2, i);
      assert Bit(a, i + 1);
      assert exists j: nat :: Bit(a, j);
    }
  }

  /** `a & b` is nonzero exactly when a and b share a bit. */
  lemma BitAndNonzero(a: nat, b: nat)
    ensures BitAnd(a, b) != 0 <==> exists i: nat :: Bit(a, i) && Bit(b, i)
  {
    NonzeroHasBit(BitAnd(a, b));
    if BitAnd(a, b) != 0 {
      var i: nat :| Bit(BitAnd(a, b), i);
      BitAndBits(a, b, i);
    } else {
      forall i ensures !(Bit(a, i) && Bit(b, i)) {
        BitAndBits(a, b, i);
      }
    }
  }

  lemma {:induction false} BitAndBits(a: nat, b: nat, i: nat)
    ensures Bit(BitAnd(a, b), i) == (Bit(a, i) && Bit(b, i))
  {
    if a != 0 && b != 0 && i != 0 {
      BitAndBits(a / 2, b / 2, i - 1);
    } else if a == 0 || b == 0 {
      ZeroBits(0, i);
    }
  }

  lemma {:induction false} BitAndNotBits(a: nat, b: nat, i: nat)
    ensures Bit(BitAndNot(a, b), i) == (Bit(a, i) && !Bit(b, i))
  {
    if a != 0 && b != 0 && i != 0 {
      BitAndNotBits(a / 2, b / 2, i - 1);
    } else if a == 0 || b == 0 {
      ZeroBits(0, i);
    }
  }

  lemma {:induction false} ZeroBits(a: nat, i: nat)
    requires a == 0
    ensures !Bit(a, i)
  {
    if i != 0 {
      ZeroBits(a / 2, i - 1);
    }
  }

  /** Below 2^n a number is fixed by its n low bits. */
  lemma {:induction false} BitsDetermine(a: nat, b: nat, n: nat)
    requires a < Pow2(n) && b < Pow2(n)
    requires forall i :: 0 <= i < n ==> Bit(a, i) == Bit(b, i)
    ensures a == b
  {
    if n != 0 {
      forall i | 0 <= i < n - 1 ensures Bit(a / 2, i) == Bit(b / 2, i) {
        assert Bit(a, i + 1) == Bit(b, i + 1);
      }
      BitsDetermine(a / 2, b / 2, n - 1);
      assert Bit(a, 0) == Bit(b, 0);
    }
  }

  /** Numbers below 2^n have no bits at n or above. */
  lemma {:induction false} HighBits(a: nat, n: nat, i: nat)
    requires a < Pow2(n) && n <= i
    ensures !Bit(a, i)
  {
    if n == 0 {
      ZeroBits(a, i);
    } else if i != 0 {
      HighBits(a / 2, n - 1, i - 1);
    }
  }

  lemma {:induction false} BitOrBelow(a: nat, b: nat, n: nat)
    requires a < Pow2(n) && b < Pow2(n)
    ensures BitOr(a, b) < Pow2(n)
  {
    if a != 0 && b != 0 {
      BitOrBelow(a / 2, b / 2, n - 1);
    }
  }

  lemma {:induction false} BitAndBelow(a: nat, b: nat)
    ensures BitAnd(a, b) <= a && BitAnd(a, b) <= b
  {
    if a != 0 && b != 0 {
      BitAndBelow(a / 2, b / 2);
    }
  }

  lemma {:induction false} BitAndNotBelow(a: nat, b: nat)
    ensures BitAndNot(a, b) <= a
  {
    if a != 0 && b != 0 {
      BitAndNotBelow(a / 2, b / 2);
    }
  }

  /** The single bit 2^n. */
  lemma {:induction false} Pow2Bits(n: nat, i: nat)
    ensures Bit(Pow2(n), i) <==> i == n
  {
    if n == 0 {
      if i != 0 {
        ZeroBits(Pow2(n) / 2, i - 1);
      }
    } else if i == 0 {
      assert Pow2(n) % 2 == 0;
    } else {
      assert Pow2(n) / 2 == Pow2(n - 1);
      Pow2Bits(n - 1, i - 1);
    }
  }

  /** Adding numbers with no bit in common is ORing them, as summing distinct modifier bits does. */
  lemma {:induction false} DisjointSumIsOr(a: nat, b: nat)
    requires BitAnd(a, b) == 0
    ensures BitOr(a, b) == a + b
  {
    if a != 0 && b != 0 {
      assert BitAnd(a / 2, b / 2) == 0;
      DisjointSumIsOr(a / 2, b / 2);
    }
  }

  /** Adding a power of two whose bit is clear sets that bit. */
  lemma AddClearBit(a: nat, k: nat)
    requires !Bit(a, k)
    ensures BitOr(a, Pow2(k)) == a + Pow2(k)
  {
    forall i: nat ensures !(Bit(a, i) && Bit(Pow2(k), i)) {
      Pow2Bits(k, i);
    }
    BitAndNonzero(a, Pow2(k));
    DisjointSumIsOr(a, Pow2(k));
  }

  /** ORing in bits that were clear and clearing them again gives the byte back. */
  lemma SetThenClear(a: byte, b: byte)
    requires BitAnd(a, b) == 0
    ensures BitAndNot(BitOr(a, b), b) == a
  {
    BitOrBelow(a, b, 8);
    BitAndNotBelow(BitOr(a, b), b);
    forall i | 0 <= i < 8 ensures Bit(BitAndNot(BitOr(a, b), b), i) == Bit(a, i) {
      BitAndNotBits(BitOr(a, b), b, i);
      BitOrBits(a, b, i);
      BitAndBits(a, b, i);
      ZeroBits(0, i);
    }
    assert Pow2(8) == 256;
    BitsDetermine(BitAndNot(BitOr(a, b), b), a, 8);
  }

  /** `x | b` on two bytes: a byte again, with the bits of both. */
  function SetBits(x: byte, b: byte): (r: byte)
    ensures forall i :: Bit(r, i) == (Bit(x, i) || Bit(b, i))
  {
    BitOrBelow(x, b, 8);
    BitOrEach(x, b);
    BitOr(x, b)
  }

  /** `x & ~b` on a byte only depends on the low byte of b: Python's `~b` is `-b - 1`, whose low 8 bits are
      those of 255 - b % 256. */
  function ClearBits(x: byte, b: int): (r: byte)
    ensures r <= x
  {
    BitAndNotBelow(x, b % 256);
    BitAndNot(x, b % 256)
  }

  /** Python's `v & 0xFF` for any integer v: its residue modulo 256. */
  function LowByte(v: int): (b: byte)
    ensures 0 <= v < 256 ==> b == v
    ensures -256 <= v < 0 ==> b == v + 256
  {
    v % 256
  }

  /** How a host reads a byte that holds a signed 8-bit value. */
  function Signed(b: byte): (v: int)
    ensures -128 <= v <= 127
    ensures v >= 0 <==> b < 0x80
  {
    if b < 0x80 then b else b - 256
  }

  lemma SignedLowByte(v: int)
    requires -128 <= v <= 127
    ensures Signed(LowByte(v)) == v
  {
  }
}
