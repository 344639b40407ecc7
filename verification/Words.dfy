/** The bits of a 32-bit word, as the positions a mask is drained in.

    Position `i` is the bit with `i` more significant bits before it: the one that
    `leading_zeros` returns, and the one written `1 << (32 - i - 1)`. */
module Words {

  predicate Top(w: bv32) {
    w & 0x8000_0000 != 0
  }

  /** The bitwise operators, by name, so that a proof can keep them folded. */
  function And(a: bv32, b: bv32): bv32 {
    a & b
  }

  function Or(a: bv32, b: bv32): bv32 {
    a | b
  }

  function Not(a: bv32): bv32 {
    !a
  }

  /** Shifts by one place. */
  function ShiftLeft(w: bv32): bv32 {
    w << 1
  }

  function ShiftRight(w: bv32): bv32 {
    w >> 1
  }

  /** `rotate_left(1)` and `rotate_right(1)`. */
  function Left(w: bv32): bv32 {
    (w << 1) | (w >> 31)
  }

  function Right(w: bv32): bv32 {
    (w >> 1) | (w << 31)
  }

  /** Is the bit at position `i` set? */
  predicate Has(w: bv32, i: nat)
    decreases i
  {
    if i == 0 then Top(w) else Has(Left(w), i - 1)
  }

  /** The word whose only bit is at position `i`. */
  function Bit(i: nat): bv32
    requires i < 32
  {
    if i == 0 then 0x8000_0000 else Right(Bit(i - 1))
  }

  // ----- identities on whole words

  const EVEN: bv32 := 0xFFFF_FFFE

  lemma RawLeftAnd(a: bv32, b: bv32)
    ensures Left(a & b) == Left(a) & Left(b)
  {
  }

  lemma RawTopAnd(a: bv32, b: bv32)
    ensures Top(a & b) <==> Top(a) && Top(b)
  {
  }

  lemma LeftAnd(a: bv32, b: bv32)
    ensures Left(And(a, b)) == And(Left(a), Left(b))
  {
    hide Left;
    RawLeftAnd(a, b);
  }

  lemma TopAnd(a: bv32, b: bv32)
    ensures Top(And(a, b)) <==> Top(a) && Top(b)
  {
    hide Top;
    RawTopAnd(a, b);
  }

  lemma RawLeftOr(a: bv32, b: bv32)
    ensures Left(a | b) == Left(a) | Left(b)
  {
  }

  lemma RawTopOr(a: bv32, b: bv32)
    ensures Top(a | b) <==> Top(a) || Top(b)
  {
  }

  lemma LeftOr(a: bv32, b: bv32)
    ensures Left(Or(a, b)) == Or(Left(a), Left(b))
  {
    hide Left;
    RawLeftOr(a, b);
  }

  lemma TopOr(a: bv32, b: bv32)
    ensures Top(Or(a, b)) <==> Top(a) || Top(b)
  {
    hide Top;
    RawTopOr(a, b);
  }

  lemma RawLeftNot(a: bv32)
    ensures Left(!a) == !Left(a)
  {
  }

  lemma RawTopNot(a: bv32)
    ensures Top(!a) <==> !Top(a)
  {
  }

  lemma LeftNot(a: bv32)
    ensures Left(Not(a)) == Not(Left(a))
  {
    hide Left;
    RawLeftNot(a);
  }

  lemma TopNot(a: bv32)
    ensures Top(Not(a)) <==> !Top(a)
  {
    hide Top;
    RawTopNot(a);
  }

  lemma LeftRight(w: bv32)
    ensures Left(Right(w)) == w
  {
  }

  lemma TopRight(w: bv32)
    ensures Top(Right(w)) <==> w & 1 != 0
  {
  }

  lemma ShiftRightEven(w: bv32)
    ensures Left(ShiftRight(w)) == And(w, EVEN)
  {
  }

  lemma TopShiftRight(w: bv32)
    ensures !Top(ShiftRight(w))
  {
  }

  lemma ShiftLeftEven(w: bv32)
    ensures ShiftLeft(w) == And(Left(w), EVEN)
  {
  }

  lemma OddSplit(w: bv32)
    ensures w & 1 != 0 ==> w == Or(And(w, EVEN), 1)
  {
  }

  lemma EvenSplit(w: bv32)
    ensures w & 1 == 0 ==> w == And(w, EVEN)
  {
  }

  // ----- the bitwise operators, position by position

  lemma {:induction false} HasAnd(a: bv32, b: bv32, i: nat)
    ensures Has(And(a, b), i) <==> Has(a, i) && Has(b, i)
    decreases i
  {
    hide Left, Top, And;
    if i == 0 {
      TopAnd(a, b);
    } else {
      LeftAnd(a, b);
      HasAnd(Left(a), Left(b), i - 1);
    }
  }

  lemma {:induction false} HasOr(a: bv32, b: bv32, i: nat)
    ensures Has(Or(a, b), i) <==> Has(a, i) || Has(b, i)
    decreases i
  {
    hide Left, Top, Or;
    if i == 0 {
      TopOr(a, b);
    } else {
      LeftOr(a, b);
      HasOr(Left(a), Left(b), i - 1);
    }
  }

  lemma {:induction false} HasNot(a: bv32, i: nat)
    ensures Has(Not(a), i) <==> !Has(a, i)
    decreases i
  {
    hide Left, Top, Not;
    if i == 0 {
      TopNot(a);
    } else {
      LeftNot(a);
      HasNot(Left(a), i - 1);
    }
  }

  // ----- single bits

  lemma BitValues()
    ensures Bit(4) == 0x0800_0000 && Bit(8) == 0x0080_0000 && Bit(12) == 0x0008_0000
    ensures Bit(16) == 0x8000 && Bit(20) == 0x800 && Bit(24) == 0x80 && Bit(28) == 8
    ensures Bit(30) == 2 && Bit(31) == 1
  {
    assert Bit(4) == 0x0800_0000 && Bit(8) == 0x0080_0000;
    assert Bit(12) == 0x0008_0000 && Bit(16) == 0x8000;
    assert Bit(20) == 0x800 && Bit(24) == 0x80;
    assert Bit(28) == 8;
  }

  lemma TopBit(d: nat)
    requires d < 32
    ensures Top(Bit(d)) <==> d == 0
  {
    BitValues();
    if d < 4 {
    } else if d < 8 {
    } else if d < 12 {
    } else if d < 16 {
    } else if d < 20 {
    } else if d < 24 {
    } else if d < 28 {
    } else {
    }
  }

  lemma {:induction false} HasBit(j: nat, i: nat)
    requires i < 32 && j < 32
    ensures Has(Bit(j), i) <==> i == j
    decreases i
  {
    hide Left, Top, Right;
    if i == 0 {
      TopBit(j);
    } else if j > 0 {
      LeftRight(Bit(j - 1));
      HasBit(j - 1, i - 1);
    } else {
      BitValues();
      LeftTop();
      HasBit(31, i - 1);
    }
  }

  lemma LeftTop()
    ensures Left(0x8000_0000) == 1
  {
  }

  lemma {:induction false} HasZero(i: nat)
    ensures !Has(0, i)
  {
    if i > 0 {
      HasZero(i - 1);
    }
  }

  // ----- a word is determined by its bits

  function Half(w: bv32): bv32 {
    w >> 1
  }

  predicate AtMost(w: bv32, l: bv32) {
    w <= l
  }

  function Low(n: nat): bv32
    requires n <= 32
  {
    if n == 0 then 0xFFFF_FFFF else Half(Low(n - 1))
  }

  lemma {:induction false} NoBits(w: bv32, n: nat)
    requires n <= 32 && forall i | 0 <= i < n :: !Has(w, i)
    ensures AtMost(w, Low(n))
    decreases n
  {
    if n > 0 {
      hide Left, Top, AtMost, Half;
      assert !Has(w, 0);
      forall i | 0 <= i < n - 1
        ensures !Has(Left(w), i)
      {
        assert !Has(w, i + 1);
      }
      NoBits(Left(w), n - 1);
      Halve(w, Low(n - 1));
    }
  }

  lemma Halve(w: bv32, l: bv32)
    requires !Top(w) && AtMost(Left(w), l)
    ensures AtMost(w, Half(l))
  {
  }

  lemma SameBits(a: bv32, b: bv32)
    requires forall i: nat | i < 32 :: Has(a, i) <==> Has(b, i)
    ensures a == b
  {
    NoDifference(a, b);
    NoDifference(b, a);
    Antisymmetric(a, b);
  }

  lemma NoDifference(a: bv32, b: bv32)
    requires forall i: nat | i < 32 :: Has(a, i) ==> Has(b, i)
    ensures And(a, Not(b)) == 0
  {
    hide Has, And, Not;
    forall i: nat | i < 32
      ensures !Has(And(a, Not(b)), i)
    {
      HasNot(b, i);
      HasAnd(a, Not(b), i);
      assert Has(a, i) ==> Has(b, i);
    }
    NoBits(And(a, Not(b)), 32);
    LowValue();
  }

  lemma Antisymmetric(a: bv32, b: bv32)
    requires And(a, Not(b)) == 0 && And(b, Not(a)) == 0
    ensures a == b
  {
  }

  lemma LowValue()
    ensures Low(32) == 0
  {
    assert Low(8) == 0xFF_FFFF && Low(16) == 0xFFFF && Low(24) == 0xFF;
  }

  // ----- shifts

  lemma HasEven(w: bv32, i: nat)
    requires i < 32
    ensures Has(And(w, EVEN), i) <==> Has(w, i) && i < 31
  {
    HasAnd(w, EVEN, i);
    HasNot(1, i);
    BitValues();
    HasBit(31, i);
  }

  lemma HasShiftRight(w: bv32, i: nat)
    requires i < 32
    ensures Has(ShiftRight(w), i) <==> i > 0 && Has(w, i - 1)
  {
    hide Left, Top, ShiftRight, ShiftLeft, And;
    if i == 0 {
      TopShiftRight(w);
    } else {
      ShiftRightEven(w);
      HasEven(w, i - 1);
    }
  }

  lemma HasShiftLeft(w: bv32, i: nat)
    requires i < 32
    ensures Has(ShiftLeft(w), i) <==> i < 31 && Has(w, i + 1)
  {
    hide Left, Top, ShiftRight, ShiftLeft, And;
    ShiftLeftEven(w);
    HasEven(Left(w), i);
  }

  lemma HasRight(w: bv32, i: nat)
    requires i < 32
    ensures Has(Right(w), i) <==> Has(w, if i == 0 then 31 else i - 1)
  {
    hide Left, Top, Right;
    if i == 0 {
      HasLast(w);
      TopRight(w);
    } else {
      LeftRight(w);
    }
  }

  /** The last position is the least significant bit. */
  lemma HasLast(w: bv32)
    ensures Has(w, 31) <==> w & 1 != 0
  {
    hide Has, And, Or;
    BitValues();
    HasBit(31, 31);
    HasEven(w, 31);
    HasOr(And(w, EVEN), 1, 31);
    OddSplit(w);
    EvenSplit(w);
  }
}
