/** The mask arithmetic of `mpmc.rs`: choosing which slots to ask for, trimming a mask to
    a number of items, and walking the slots of a mask. */
module Masks {
  import opened Words
  import opened Status

  // ----- primitives of `u32`

  function RotateRight(w: bv32, k: nat): bv32
    decreases k
  {
    if k == 0 then w else Right(RotateRight(w, k - 1))
  }

  /** `(i32::MIN >> k) as u32`: the arithmetic shift copies the sign bit. */
  function SignFill(k: nat): bv32 {
    if k == 0 then Bit(0) else Or(ShiftRight(SignFill(k - 1)), Bit(0))
  }

  function CountOnes(w: bv32): nat {
    |Positions(w)|
  }

  function LeadingZeros(w: bv32, from: nat := 0): nat
    requires from <= 32
    decreases 32 - from
  {
    if from == 32 || Has(w, from) then from else LeadingZeros(w, from + 1)
  }

  function ReverseBits(w: bv32, from: nat := 0): bv32
    requires from <= 32
    decreases 32 - from
  {
    if from == 32 then 0
    else if Has(w, from) then Or(Bit(31 - from), ReverseBits(w, from + 1))
    else ReverseBits(w, from + 1)
  }

  function Positions(w: bv32): set<nat> {
    set i: nat | i < 32 && Has(w, i)
  }

  // ----- compute_request_mask

  function ComputeRequestMask(availableItems: nat, bias: nat): bv32
    requires 0 < availableItems && bias < SLOTS
  {
    var available := if availableItems < SLOTS then availableItems else SLOTS;
    var mask := SignFill(available - 1);
    if bias == 0 then mask
    else
      var overstepped := RotateRight(mask, bias + 2);
      Or(And(overstepped, SignFill(bias - 1)), ShiftLeft(ShiftLeft(overstepped)))
  }

  /** How far slot `i` lies behind `bias`, going round. */
  function Distance(i: nat, bias: nat): nat
    requires i < SLOTS && bias < SLOTS
  {
    if i >= bias then i - bias else i + SLOTS - bias
  }

  /** The cyclic window of `items` slots that starts at `bias`. */
  function Window(items: nat, bias: nat): set<nat>
    requires bias < SLOTS
  {
    set i: nat | i < SLOTS && Distance(i, bias) < items
  }

  lemma {:induction false} HasSignFill(k: nat, i: nat)
    requires k < 32 && i < 32
    ensures Has(SignFill(k), i) <==> i <= k
  {
    hide Has, Or, Bit, ShiftRight;
    HasBit(0, i);
    if k > 0 {
      HasOr(ShiftRight(SignFill(k - 1)), Bit(0), i);
      HasShiftRight(SignFill(k - 1), i);
      if i > 0 {
        HasSignFill(k - 1, i - 1);
      }
    }
  }

  lemma {:induction false} HasRotateRight(w: bv32, k: nat, i: nat)
    requires k < 32 && i < 32
    ensures Has(RotateRight(w, k), i) <==> Has(w, (i + 32 - k) % 32)
    decreases k
  {
    hide Has, Right;
    if k > 0 {
      HasRight(RotateRight(w, k - 1), i);
      HasRotateRight(w, k - 1, if i == 0 then 31 else i - 1);
    }
  }

  /** The mask asks for exactly the cyclic window and leaves the flags alone. */
  lemma RequestMaskIsWindow(items: nat, bias: nat)
    requires 0 < items && bias < SLOTS
    ensures NoStatus(ComputeRequestMask(items, bias))
    ensures Slots(ComputeRequestMask(items, bias)) == Window(items, bias)
  {
    var available := if items < SLOTS then items else SLOTS;
    assert ComputeRequestMask(items, bias) == ComputeRequestMask(available, bias);
    hide Has, ComputeRequestMask;
    forall i: nat | i < 32
      ensures Has(ComputeRequestMask(available, bias), i) <==> i < SLOTS && Distance(i, bias) < available
    {
      RequestMaskAt(available, bias, i);
    }
  }

  lemma RequestMaskAt(available: nat, bias: nat, i: nat)
    requires 0 < available <= SLOTS && bias < SLOTS && i < 32
    ensures Has(ComputeRequestMask(available, bias), i)
            <==> i < SLOTS && Distance(i, bias) < available
  {
    hide Has, And, Or, SignFill, RotateRight, ShiftLeft;
    if bias == 0 {
      HasSignFill(available - 1, i);
    } else {
      var over := RotateRight(SignFill(available - 1), bias + 2);
      HasOr(And(over, SignFill(bias - 1)), ShiftLeft(ShiftLeft(over)), i);
      HasAnd(over, SignFill(bias - 1), i);
      HasSignFill(bias - 1, i);
      OverstepAt(available, bias, i);
      ShiftedOverAt(over, i);
      if i < 30 {
        OverstepAt(available, bias, i + 2);
      }
    }
  }

  lemma ShiftedOverAt(w: bv32, i: nat)
    requires i < 32
    ensures Has(ShiftLeft(ShiftLeft(w)), i) <==> i < 30 && Has(w, i + 2)
  {
    hide Has, ShiftLeft;
    HasShiftLeft(ShiftLeft(w), i);
    if i < 31 {
      HasShiftLeft(w, i + 1);
    }
  }

  lemma OverstepAt(available: nat, bias: nat, i: nat)
    requires 0 < available <= SLOTS && 0 < bias < SLOTS && i < 32
    ensures Has(RotateRight(SignFill(available - 1), bias + 2), i)
            <==> (if i >= bias + 2 then i - bias - 2 else i + 30 - bias) < available
  {
    hide Has, SignFill, RotateRight;
    HasRotateRight(SignFill(available - 1), bias + 2, i);
    HasSignFill(available - 1, (i + 32 - (bias + 2)) % 32);
  }

  /** The window holds `min(items, 30)` slots. */
  lemma {:induction false} WindowSize(items: nat, bias: nat)
    requires bias < SLOTS
    ensures |Window(items, bias)| == if items < SLOTS then items else SLOTS
  {
    if items == 0 {
      assert Window(items, bias) == {};
    } else if items > SLOTS {
      assert Window(items, bias) == Window(SLOTS, bias);
      WindowSize(SLOTS, bias);
    } else {
      WindowSize(items - 1, bias);
      var slot := WindowGrows(items, bias);
    }
  }

  lemma WindowGrows(items: nat, bias: nat) returns (slot: nat)
    requires bias < SLOTS && 0 < items <= SLOTS
    ensures slot !in Window(items - 1, bias) && Window(items, bias) == Window(items - 1, bias) + {slot}
  {
    var last := bias + items - 1;
    slot := if last < SLOTS then last else last - SLOTS;
    assert Distance(slot, bias) == items - 1;
  }

  // ----- clear_extra_bits

  /** `to` keeps `max` of the positions in `from`, or all if there are fewer: the ones
      nearest the least significant end if `low`, the most significant end otherwise. */
  predicate Trimmed(from: set<nat>, to: set<nat>, max: nat, low: bool) {
    && to <= from
    && |to| == (if |from| < max then |from| else max)
    && forall i, j :: i in to && j in from && j !in to ==> if low then j < i else i < j
  }

  predicate LowestAt(w: bv32, j: nat) {
    j < 32 && Has(w, j) && forall i :: j < i < 32 ==> !Has(w, i)
  }

  /** `mask & (mask - 1)` clears the least significant bit that is set. */
  lemma ClearLowest(w: bv32, j: nat)
    requires LowestAt(w, j)
    ensures Positions(And(w, w - 1)) == Positions(w) - {j}
  {
    hide Has, And;
    forall i: nat | i < 32
      ensures Has(And(w, w - 1), i) <==> Has(w, i) && i != j
    {
      ClearLowestAt(w, j, i);
    }
  }

  lemma {:induction false} ClearLowestAt(w: bv32, j: nat, i: nat)
    requires LowestAt(w, j) && i < 32
    ensures Has(And(w, w - 1), i) <==> Has(w, i) && i != j
    decreases 32 - j
  {
    hide Has, And, ShiftLeft, ShiftRight;
    HasLast(w);
    if j == 31 {
      OddMinusOne(w);
      HasEven(w, i);
    } else {
      assert !Has(w, 31);
      LowestHalf(w, j);
      EvenMinusOne(w);
      HasShiftLeft(And(ShiftRight(w), ShiftRight(w) - 1), i);
      if i < 31 {
        HasShiftRight(w, i + 1);
        ClearLowestAt(ShiftRight(w), j + 1, i + 1);
      }
    }
  }

  lemma LowestHalf(w: bv32, j: nat)
    requires LowestAt(w, j) && j < 31
    ensures LowestAt(ShiftRight(w), j + 1)
  {
    hide Has, ShiftRight;
    var v := ShiftRight(w);
    HasShiftRight(w, j + 1);
    forall k | j + 1 < k < 32
      ensures !Has(v, k)
    {
      HasShiftRight(w, k);
    }
  }

  lemma OddMinusOne(w: bv32)
    requires w & 1 != 0
    ensures And(w, w - 1) == And(w, EVEN)
  {
    assert w & (w - 1) == w & 0xFFFF_FFFE;
  }

  lemma EvenMinusOne(w: bv32)
    requires w & 1 == 0
    ensures And(w, w - 1) == ShiftLeft(And(ShiftRight(w), ShiftRight(w) - 1))
  {
  }

  lemma {:induction false} LowestExists(w: bv32, n: nat) returns (j: nat)
    requires n <= 32 && (exists i: nat :: i < n && Has(w, i))
    requires forall i :: n <= i < 32 ==> !Has(w, i)
    ensures LowestAt(w, j)
  {
    hide Has;
    var i: nat :| i < n && Has(w, i);
    if Has(w, n - 1) {
      j := n - 1;
    } else {
      j := LowestExists(w, n - 1);
    }
  }

  method ClearExtraBits(mask0: bv32, max: nat, direction: bool) returns (mask: bv32)
    requires 0 < max
    ensures Trimmed(Positions(mask0), Positions(mask), max, direction)
  {
    hide Has, And, ReverseBits, Positions;
    mask := mask0;
    var setBits := CountOnes(mask);
    if direction {
      mask := ReverseBits(mask);
      ReversedPositions(mask0);
    }
    ghost var start := mask;
    while setBits > max
      invariant setBits == |Positions(mask)|
      invariant Trimmed(Positions(start), Positions(mask), setBits, false)
      invariant setBits >= max || mask == start
    {
      TrimLowest(start, mask);
      mask := And(mask, mask - 1);
      setBits := setBits - 1;
    }
    if direction {
      TrimReversed(mask0, mask, max);
      mask := ReverseBits(mask);
    }
  }

  lemma TrimLowest(start: bv32, mask: bv32)
    requires mask == start || Trimmed(Positions(start), Positions(mask), |Positions(mask)|, false)
    requires Positions(mask) != {}
    ensures |Positions(And(mask, mask - 1))| == |Positions(mask)| - 1
    ensures Trimmed(Positions(start), Positions(And(mask, mask - 1)), |Positions(mask)| - 1, false)
  {
    hide Has, And;
    var some :| some in Positions(mask);
    var j := LowestExists(mask, 32);
    ClearLowest(mask, j);
  }

  lemma {:induction false} TrimReversed(mask0: bv32, mask: bv32, max: nat)
    requires Trimmed(Positions(ReverseBits(mask0)), Positions(mask), max, false)
    ensures Trimmed(Positions(mask0), Positions(ReverseBits(mask)), max, true)
  {
    hide Has, ReverseBits, Trimmed, Mirror;
    ReversedPositions(mask0);
    ReversedPositions(mask);
    MirrorTrimmed(Positions(ReverseBits(mask0)), Positions(mask), max);
    MirrorTwice(Positions(mask0));
  }

  function Opposite(i: nat): nat
    requires i < 32
  {
    31 - i
  }

  function Mirror(s: set<nat>): set<nat>
    requires forall i :: i in s ==> i < 32
  {
    set i: nat | i < 32 && Opposite(i) in s
  }

  lemma {:induction false} HasReversed(w: bv32, from: nat, i: nat)
    requires from <= 32 && i < 32
    ensures Has(ReverseBits(w, from), i) <==> from <= 31 - i && Has(w, 31 - i)
    decreases 32 - from
  {
    hide Has, Or;
    if from == 32 {
      HasZero(i);
    } else {
      HasReversed(w, from + 1, i);
      HasOr(Bit(31 - from), ReverseBits(w, from + 1), i);
      HasBit(31 - from, i);
    }
  }

  lemma ReversedPositions(w: bv32)
    ensures Positions(ReverseBits(w)) == Mirror(Positions(w))
    ensures |Positions(ReverseBits(w))| == |Positions(w)|
  {
    hide Has, ReverseBits;
    forall i: nat | i < 32
      ensures Has(ReverseBits(w), i) <==> Has(w, 31 - i)
    {
      HasReversed(w, 0, i);
    }
    MirrorSize(Positions(w));
  }

  lemma {:induction false} MirrorSize(s: set<nat>)
    requires forall i :: i in s ==> i < 32
    ensures |Mirror(s)| == |s|
    decreases s
  {
    if s == {} {
      assert Mirror(s) == {};
    } else {
      var x :| x in s;
      MirrorSize(s - {x});
      assert Mirror(s) == Mirror(s - {x}) + {Opposite(x)};
    }
  }

  lemma MirrorTwice(s: set<nat>)
    requires forall i :: i in s ==> i < 32
    ensures Mirror(Mirror(s)) == s
  {
    assert forall i: nat | i < 32 :: Opposite(Opposite(i)) == i;
  }

  lemma MirrorTrimmed(from: set<nat>, to: set<nat>, max: nat)
    requires forall i :: i in from ==> i < 32
    requires Trimmed(from, to, max, false)
    ensures Trimmed(Mirror(from), Mirror(to), max, true)
  {
    MirrorSize(from);
    MirrorSize(to);
  }

  /** On a mask over slots, trimming leaves a mask over slots. */
  lemma TrimmedSlots(from: bv32, to: bv32, max: nat, low: bool)
    requires NoStatus(from) && Trimmed(Positions(from), Positions(to), max, low)
    ensures NoStatus(to) && Trimmed(Slots(from), Slots(to), max, low)
  {
    hide Has;
    assert Positions(from) == Slots(from) by {
      assert forall i | i in Positions(from) :: i < 30 || i == 30 || i == 31;
    }
    assert forall i: nat | i < 32 && Has(to, i) :: i in Positions(to);
    assert Positions(to) == Slots(to);
  }

  // ----- drain_mask

  /** `drain_mask` hands out each slot of the mask once, in ascending order. */
  method DrainMask(mask0: bv32) returns (visits: seq<nat>)
    ensures forall k :: 0 <= k < |visits| ==> visits[k] in Slots(mask0)
    ensures forall i :: i in Slots(mask0) ==> i in visits
    ensures forall j, k :: 0 <= j < k < |visits| ==> visits[j] < visits[k]
  {
    hide Has, And, Not, Bit;
    var mask := mask0;
    visits := [];
    while true
      invariant forall k :: 0 <= k < |visits| ==> visits[k] in Slots(mask0)
      invariant forall j, k :: 0 <= j < k < |visits| ==> visits[j] < visits[k]
      invariant forall i: nat :: i < 32 ==> (Has(mask, i) <==> Has(mask0, i) && i !in visits)
      invariant forall i: nat, k :: i < 32 && Has(mask, i) && 0 <= k < |visits| ==> visits[k] < i
      decreases |Slots(mask)|
    {
      var i := LeadingZeros(mask);
      LeadingZerosIsFirst(mask, 0);
      if i >= SLOTS {
        break;
      }
      visits := visits + [i];
      ClearAt(mask, i);
      mask := And(mask, Not(Bit(i)));
    }
  }

  lemma {:induction false} LeadingZerosIsFirst(w: bv32, from: nat)
    requires from <= 32
    ensures var i := LeadingZeros(w, from);
            from <= i <= 32 && (i < 32 ==> Has(w, i)) && forall k :: from <= k < i ==> !Has(w, k)
    decreases 32 - from
  {
    hide Has;
    if from < 32 && !Has(w, from) {
      LeadingZerosIsFirst(w, from + 1);
    }
  }

  lemma ClearAt(w: bv32, i: nat)
    requires i < 32
    ensures forall k: nat :: k < 32 ==> (Has(And(w, Not(Bit(i))), k) <==> Has(w, k) && k != i)
    ensures Slots(And(w, Not(Bit(i)))) == Slots(w) - {i}
  {
    hide Has, And, Not;
    forall k: nat | k < 32
      ensures Has(And(w, Not(Bit(i))), k) <==> Has(w, k) && k != i
    {
      HasAnd(w, Not(Bit(i)), k);
      HasNot(Bit(i), k);
      HasBit(i, k);
    }
  }
}
