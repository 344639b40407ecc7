/** Sizes and alignments, and where the elements of a `FreestandingVec` lie. */
module Layouts {
  datatype Layout = Layout(size: nat, align: nat)

  const USIZE_MAX: nat := 0xFFFF_FFFF_FFFF_FFFF

  /** Sizes and alignments are stored in a `u32`. */
  const U32_LIMIT: nat := 0x1_0000_0000

  /** The layout of `()`. */
  const UNIT := Layout(0, 1)

  predicate IsPowerOfTwo(n: nat) {
    n == 1 || (n > 1 && n % 2 == 0 && IsPowerOfTwo(n / 2))
  }

  /** What the compiler promises of every type, and the bound that the `u32` casts need. */
  predicate LayoutOk(l: Layout) {
    && IsPowerOfTwo(l.align) && l.size % l.align == 0
    && l.size < U32_LIMIT && l.align < U32_LIMIT
  }

  function Max(a: nat, b: nat): nat {
    if a >= b then a else b
  }

  /** `next_multiple_of`. */
  function RoundUp(n: nat, a: nat): nat
    requires a > 0
  {
    if n % a == 0 then n else n + (a - n % a)
  }

  // ----- the union of the header and one element

  function SpaceAlign(h: Layout, t: Layout): nat {
    Max(h.align, t.align)
  }

  function SpaceSize(h: Layout, t: Layout): nat
    requires SpaceAlign(h, t) > 0
  {
    RoundUp(Max(h.size, t.size), SpaceAlign(h, t))
  }

  /** Where `pop` looks for the first element, given only what the header says. */
  function ErasedBase(h: Layout, valueSize: nat, alignment: nat): nat
    requires h.align > 0 && alignment > 0
  {
    RoundUp(Max(SpaceSize(h, UNIT), valueSize), alignment)
  }

  /** `MIN_NON_ZERO_CAP`. */
  function MinCapacity(h: Layout, t: Layout): nat
    requires SpaceAlign(h, t) > 0
  {
    (if t.size == 1 then 8 else if t.size <= 1024 then 4 else 1) * t.size + SpaceSize(h, t)
  }

  // ----- arithmetic

  lemma RoundUpIs(n: nat, a: nat)
    requires a > 0
    ensures RoundUp(n, a) % a == 0 && n <= RoundUp(n, a) < n + a
  {
    if n % a != 0 {
      var k := n / a;
      assert n == k * a + n % a;
      assert RoundUp(n, a) == (k + 1) * a by {
        Difference(k + 1, 1, a);
      }
      MultipleModulo(k + 1, a);
    }
  }

  lemma Difference(j: int, k: int, a: int)
    ensures (j - k) * a == j * a - k * a
  {
  }

  lemma Nonnegative(k: nat, a: nat)
    ensures k * a >= 0
  {
  }

  lemma AtLeastOnce(k: int, a: nat)
    requires k >= 1
    ensures k * a >= a
  {
    Difference(k, k - 1, a);
  }

  /** Two multiples of `a` less than `a` apart are one. */
  lemma SameMultiple(j: int, k: int, a: nat)
    requires a > 0 && j * a <= k * a < j * a + a
    ensures j == k
  {
    Difference(j, k, a);
    Difference(k, j, a);
    if j < k {
      AtLeastOnce(k - j, a);
    } else if k < j {
      AtLeastOnce(j - k, a);
    }
  }

  lemma MultipleModulo(k: nat, a: nat)
    requires a > 0
    ensures k * a % a == 0
  {
    var n := k * a;
    var q := n / a;
    assert n == q * a + n % a;
    SameMultiple(q, k, a);
  }

  /** Of two powers of two the smaller divides the larger. */
  lemma {:induction false} PowersDivide(a: nat, b: nat)
    requires IsPowerOfTwo(a) && IsPowerOfTwo(b) && a <= b
    ensures b % a == 0
    decreases b
  {
    if a > 1 {
      PowersDivide(a / 2, b / 2);
      var k := b / 2 / (a / 2);
      assert b / 2 == k * (a / 2);
      assert b == k * a;
      MultipleModulo(k, a);
    }
  }

  lemma DividesThrough(n: nat, m: nat, a: nat)
    requires a > 0 && m > 0 && n % m == 0 && m % a == 0
    ensures n % a == 0
  {
    var j, k := n / m, m / a;
    assert n == j * (k * a);
    assert n == (j * k) * a;
    MultipleModulo(j * k, a);
  }

  lemma SumDivides(n: nat, m: nat, a: nat)
    requires a > 0 && n % a == 0 && m % a == 0
    ensures (n + m) % a == 0
  {
    var j, k := n / a, m / a;
    assert n + m == (j + k) * a;
    MultipleModulo(j + k, a);
  }

  // ----- the layout lemmas

  /** The address that `pop` works out of the header is the one `push` worked out of the
      type, for every header and element type. */
  lemma ErasedBaseIsSpaceSize(h: Layout, t: Layout)
    requires LayoutOk(h) && LayoutOk(t)
    ensures ErasedBase(h, t.size, SpaceAlign(h, t)) == SpaceSize(h, t)
  {
    assert SpaceSize(h, UNIT) == h.size;
  }

  /** The first element comes after the header, and the space is a multiple of both alignments. */
  lemma SpaceIs(h: Layout, t: Layout)
    requires LayoutOk(h) && LayoutOk(t)
    ensures h.size <= SpaceSize(h, t) && t.size <= SpaceSize(h, t)
    ensures IsPowerOfTwo(SpaceAlign(h, t)) && SpaceAlign(h, t) < U32_LIMIT
    ensures SpaceSize(h, t) < 2 * U32_LIMIT
    ensures SpaceSize(h, t) % h.align == 0 && SpaceSize(h, t) % t.align == 0
    ensures SpaceAlign(h, t) % h.align == 0 && SpaceAlign(h, t) % t.align == 0
  {
    var a := SpaceAlign(h, t);
    RoundUpIs(Max(h.size, t.size), a);
    PowersDivide(h.align, a);
    PowersDivide(t.align, a);
    DividesThrough(SpaceSize(h, t), a, h.align);
    DividesThrough(SpaceSize(h, t), a, t.align);
  }

  /** `i` steps of `size` from `base`. */
  function Stride(base: nat, size: nat, i: nat): nat {
    if i == 0 then base else Stride(base, size, i - 1) + size
  }

  lemma {:induction false} StrideIs(base: nat, size: nat, i: nat)
    ensures Stride(base, size, i) == base + i * size
  {
    if i > 0 {
      StrideIs(base, size, i - 1);
      Difference(i, 1, size);
    }
  }

  lemma {:induction false} StrideBefore(base: nat, size: nat, i: nat, j: nat)
    requires i < j
    ensures base <= Stride(base, size, i) && Stride(base, size, i) + size <= Stride(base, size, j)
  {
    if i < j - 1 {
      StrideBefore(base, size, i, j - 1);
    } else if i > 0 {
      StrideBefore(base, size, i - 1, i);
    }
  }

  /** The offset of element `i`. */
  function Offset(h: Layout, t: Layout, i: nat): nat
    requires SpaceAlign(h, t) > 0
  {
    Stride(SpaceSize(h, t), t.size, i)
  }

  /** In a block aligned for the union, the header and every element are aligned, and no two
      of them overlap. */
  lemma ElementsAlignedAndDisjoint(h: Layout, t: Layout, address: nat, i: nat, j: nat)
    requires LayoutOk(h) && LayoutOk(t) && address % SpaceAlign(h, t) == 0 && i < j
    ensures address % h.align == 0
    ensures (address + Offset(h, t, i)) % t.align == 0
    ensures h.size <= Offset(h, t, i)
    ensures Offset(h, t, i) + t.size <= Offset(h, t, j)
  {
    hide RoundUp, SpaceAlign, SpaceSize, Stride;
    SpaceIs(h, t);
    DividesThrough(address, SpaceAlign(h, t), h.align);
    ElementAligned(h, t, address, i);
    StrideBefore(SpaceSize(h, t), t.size, i, j);
  }

  lemma ElementAligned(h: Layout, t: Layout, address: nat, i: nat)
    requires LayoutOk(h) && LayoutOk(t) && address % SpaceAlign(h, t) == 0
    ensures (address + Offset(h, t, i)) % t.align == 0
  {
    SpaceIs(h, t);
    hide RoundUp, SpaceAlign, SpaceSize, Stride;
    DividesThrough(address, SpaceAlign(h, t), t.align);
    StrideDivides(SpaceSize(h, t), t.size, i, t.align);
    SumDivides(address, Offset(h, t, i), t.align);
  }

  /** Steps of a multiple of `a` from a multiple of `a`. */
  lemma {:induction false} StrideDivides(base: nat, size: nat, i: nat, a: nat)
    requires a > 0 && base % a == 0 && size % a == 0
    ensures Stride(base, size, i) % a == 0
  {
    if i > 0 {
      StrideDivides(base, size, i - 1, a);
      SumDivides(Stride(base, size, i - 1), size, a);
    }
  }

  // ----- growing

  /** The capacity after a reallocation; the doubling saturates. */
  function Grown(capacity: nat, required: nat): nat {
    Max(if 2 * capacity > USIZE_MAX then USIZE_MAX else 2 * capacity, required)
  }

  /** The capacity, and all the bytes copied by reallocations so far. */
  datatype Cost = Cost(capacity: nat, copied: nat)

  function Reserved(c: Cost, required: nat): Cost {
    if c.capacity >= required then c else Cost(Grown(c.capacity, required), c.copied + c.capacity)
  }

  /** The cost of `n` pushes on a fresh vec. */
  function Pushed(h: Layout, t: Layout, n: nat): Cost
    requires SpaceAlign(h, t) > 0
  {
    if n == 0 then Cost(MinCapacity(h, t), 0)
    else if t.size == 0 then Pushed(h, t, n - 1)
    else Reserved(Pushed(h, t, n - 1), Offset(h, t, n))
  }

  lemma PushedNext(h: Layout, t: Layout, n: nat)
    requires SpaceAlign(h, t) > 0
    ensures Pushed(h, t, n + 1)
            == if t.size == 0 then Pushed(h, t, n) else Reserved(Pushed(h, t, n), Offset(h, t, n + 1))
  {
  }

  /** What `init` starts from. */
  lemma MinCapacityIs(h: Layout, t: Layout)
    requires LayoutOk(h) && LayoutOk(t)
    ensures IsPowerOfTwo(SpaceAlign(h, t)) && SpaceAlign(h, t) > 0
    ensures Offset(h, t, 0) == SpaceSize(h, t) <= MinCapacity(h, t)
    ensures MinCapacity(h, t) + SpaceSize(h, t) <= USIZE_MAX
    ensures Pushed(h, t, 0) == Cost(MinCapacity(h, t), 0)
  {
    SpaceIs(h, t);
  }

  lemma {:induction false} PushedGrows(h: Layout, t: Layout, n: nat)
    requires LayoutOk(h) && LayoutOk(t) && h.size > 0 && t.size > 0
    ensures var c := Pushed(h, t, n);
            && 0 < MinCapacity(h, t) <= c.capacity
            && (c.copied == 0 <==> Offset(h, t, n) <= MinCapacity(h, t))
            && (c.copied == 0 ==> c.capacity == MinCapacity(h, t))
  {
    MinCapacityIs(h, t);
    SpaceIs(h, t);
    hide SpaceSize, MinCapacity;
    if n > 0 {
      PushedGrows(h, t, n - 1);
    }
  }

  /** A fresh vec takes 8 elements of one byte, 4 of up to 1024 bytes, or one larger element
      before it first has to grow, and not one more. */
  lemma FirstGrowth(h: Layout, t: Layout, n: nat)
    requires LayoutOk(h) && LayoutOk(t) && h.size > 0 && t.size > 0
    ensures Pushed(h, t, n).copied == 0 <==> n <= (if t.size == 1 then 8 else if t.size <= 1024 then 4 else 1)
  {
    PushedGrows(h, t, n);
    StrideIs(SpaceSize(h, t), t.size, n);
    var room := if t.size == 1 then 8 else if t.size <= 1024 then 4 else 1;
    hide SpaceSize;
    Difference(n, room, t.size);
    Difference(room, n, t.size);
    if n > room {
      AtLeastOnce(n - room, t.size);
    } else {
      Nonnegative(room - n, t.size);
    }
  }

  /** The capacity after `init` has taken over an allocation with the right alignment. */
  function Reused(h: Layout, t: Layout, capacity: nat): nat
    requires SpaceAlign(h, t) > 0
  {
    var min := MinCapacity(h, t);
    if capacity >= min then capacity
    else Reserved(Cost(capacity, 0), SpaceSize(h, t) + (min - capacity)).capacity
  }

  /** Whatever the element type was before, there is room for the new header space. */
  lemma ReusedCoversHeader(h: Layout, t: Layout, capacity: nat)
    requires LayoutOk(h) && LayoutOk(t)
    ensures capacity <= Reused(h, t, capacity) && SpaceSize(h, t) <= Reused(h, t, capacity)
  {
    MinCapacityIs(h, t);
    hide SpaceSize, MinCapacity;
  }

  /** But not always for `MIN_NON_ZERO_CAP`: exactly when the capacity falls short. */
  lemma ReusedReachesMinimumIff(h: Layout, t: Layout, capacity: nat)
    requires LayoutOk(h) && LayoutOk(t) && 2 * capacity <= USIZE_MAX
    ensures var min, space := MinCapacity(h, t), SpaceSize(h, t);
            Reused(h, t, capacity) >= min <==>
              capacity >= min || (2 * capacity < space + min && (2 * capacity >= min || capacity <= space))
  {
    MinCapacityIs(h, t);
    hide SpaceSize, MinCapacity;
  }

  /** From elements of 8 bytes to elements of 16. */
  lemma ReusedCanFallShort()
    ensures var h, t := Layout(32, 8), Layout(16, 8);
            Reused(h, t, MinCapacity(h, Layout(8, 8))) < MinCapacity(h, t)
  {
  }

  /** Amortised growth: absent saturation, `n` pushes copy no more than the final capacity,
      and less than twice what the elements and the header need. */
  lemma {:induction false} AmortisedGrowth(h: Layout, t: Layout, n: nat)
    requires LayoutOk(h) && LayoutOk(t) && h.size > 0
    requires 2 * Offset(h, t, n) <= USIZE_MAX
    ensures var c := Pushed(h, t, n);
            && c.copied <= c.capacity && c.copied < 2 * Offset(h, t, n)
            && (c.capacity == MinCapacity(h, t) || c.capacity <= 2 * Offset(h, t, n))
  {
    SpaceIs(h, t);
    if n > 0 {
      AmortisedGrowth(h, t, n - 1);
    }
  }
}
