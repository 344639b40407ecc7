/** The two status words of the bag, and what each atomic access in `mpmc.rs` does to
    them, in terms of sets of slots and two flags.

    Slot `i < 30` is position `i` of the word; the flags sit in the two positions below.
    In `recv` the flags are inverted: a clear bit means on. */
module Status {
  import opened Words

  const SLOTS: nat := 30
  const COUNTERPARTY_DEAD: bv32 := 1
  const SLEEPING: bv32 := 2
  const STATUS: bv32 := 3
  const MAX: bv32 := 0xFFFF_FFFF

  const AllSlots: set<nat> := set i: nat | i < SLOTS

  datatype Word = Word(slots: set<nat>, dead: bool, sleeping: bool)

  function Slots(w: bv32): set<nat> {
    set i: nat | i < SLOTS && Has(w, i)
  }

  function SendView(w: bv32): Word {
    Word(Slots(w), Has(w, 31), Has(w, 30))
  }

  function RecvView(w: bv32): Word {
    Word(Slots(w), !Has(w, 31), !Has(w, 30))
  }

  /** Words as they are when the channel is created. */
  lemma InitialViews()
    ensures SendView(0) == Word({}, false, false)
    ensures RecvView(STATUS) == Word({}, false, false)
  {
    hide Has, And, Or, Not;
    forall i: nat | i < 32
      ensures !Has(0, i) && (Has(STATUS, i) <==> i >= 30)
    {
      HasZero(i);
      HasStatus(i);
    }
  }

  lemma HasStatus(i: nat)
    requires i < 32
    ensures Has(STATUS, i) <==> i >= 30
    ensures Has(SLEEPING, i) <==> i == 30
    ensures Has(COUNTERPARTY_DEAD, i) <==> i == 31
    ensures Has(MAX, i)
  {
    BitValues();
    HasBit(30, i);
    HasBit(31, i);
    HasOr(1, 2, i);
    HasNot(0, i);
    HasZero(i);
  }

  /** The futex compares whole words: equal views mean equal words. */
  lemma ViewsAreFaithful(a: bv32, b: bv32)
    ensures SendView(a) == SendView(b) <==> a == b
    ensures RecvView(a) == RecvView(b) <==> a == b
  {
    hide Has, And, Or, Not;
    if SendView(a) == SendView(b) || RecvView(a) == RecvView(b) {
      assert Slots(a) == Slots(b);
      forall i: nat | i < 32
        ensures Has(a, i) <==> Has(b, i)
      {
        assert i < SLOTS ==> (i in Slots(a) <==> i in Slots(b));
      }
      SameBits(a, b);
    }
  }

  lemma SlotsOps(a: bv32, b: bv32)
    ensures Slots(Or(a, b)) == Slots(a) + Slots(b)
    ensures Slots(And(a, b)) == Slots(a) * Slots(b)
    ensures Slots(Not(a)) == AllSlots - Slots(a)
  {
    hide Has, And, Or, Not;
    forall i: nat | i < SLOTS
      ensures i in Slots(Or(a, b)) <==> i in Slots(a) + Slots(b)
      ensures i in Slots(And(a, b)) <==> i in Slots(a) * Slots(b)
      ensures i in Slots(Not(a)) <==> i in AllSlots - Slots(a)
    {
      HasOr(a, b, i);
      HasAnd(a, b, i);
      HasNot(a, i);
    }
  }

  /** A mask over slots only. */
  predicate NoStatus(m: bv32) {
    !Has(m, 30) && !Has(m, 31)
  }

  /** `mask == 0`, for a mask over slots. */
  lemma EmptyMask(m: bv32)
    requires NoStatus(m)
    ensures m == 0 <==> Slots(m) == {}
  {
    hide Has, And, Or, Not;
    forall i: nat | i < 32
      ensures !Has(0, i)
    {
      HasZero(i);
    }
    if Slots(m) == {} {
      forall i: nat | i < 32
        ensures Has(m, i) <==> Has(0, i)
      {
        assert i < SLOTS ==> i !in Slots(m);
        assert i >= 30 ==> i == 30 || i == 31;
      }
      SameBits(m, 0);
    }
  }

  /** `!(w | STATUS)`: the slots that are off. */
  lemma FreeSlots(w: bv32)
    ensures NoStatus(Not(Or(w, STATUS))) && Slots(Not(Or(w, STATUS))) == AllSlots - Slots(w)
    ensures Or(w, STATUS) == MAX <==> Slots(w) == AllSlots
  {
    hide Has, And, Or, Not;
    SlotsOps(w, STATUS);
    SlotsOps(Or(w, STATUS), 0);
    forall i: nat | i < 32
      ensures Has(Or(w, STATUS), i) <==> Has(w, i) || i >= 30
      ensures Has(Not(Or(w, STATUS)), i) <==> !Has(Or(w, STATUS), i)
      ensures Has(MAX, i)
    {
      HasOr(w, STATUS, i);
      HasNot(Or(w, STATUS), i);
      HasStatus(i);
    }
    if Slots(w) == AllSlots {
      forall i: nat | i < 32
        ensures Has(Or(w, STATUS), i) <==> Has(MAX, i)
      {
        assert i < SLOTS ==> i in Slots(w);
      }
      SameBits(Or(w, STATUS), MAX);
    }
    if Or(w, STATUS) == MAX {
      forall i: nat | i < SLOTS
        ensures i in Slots(w)
      {
        assert Has(Or(w, STATUS), i);
      }
    }
  }

  /** `w & !STATUS`: the slots that are on. */
  lemma OnlySlots(w: bv32)
    ensures NoStatus(And(w, Not(STATUS))) && Slots(And(w, Not(STATUS))) == Slots(w)
  {
    hide Has, And, Or, Not;
    forall i: nat | i < 32
      ensures Has(And(w, Not(STATUS)), i) <==> Has(w, i) && i < 30
    {
      HasAnd(w, Not(STATUS), i);
      HasNot(STATUS, i);
      HasStatus(i);
    }
  }

  // ----- the atomic accesses to `send`

  /** `send.fetch_or(mask)` in `try_send`. */
  lemma ReserveWord(w: bv32, m: bv32)
    requires NoStatus(m)
    ensures SendView(Or(w, m)) == SendView(w).(slots := Slots(w) + Slots(m))
  {
    hide Has, And, Or, Not;
    SlotsOps(w, m);
    HasOr(w, m, 30);
    HasOr(w, m, 31);
  }

  /** The slots gained by that access, and the test for having gained any. */
  lemma GainedMask(w: bv32, m: bv32)
    requires NoStatus(m)
    ensures var gained := And(Not(Or(w, STATUS)), m);
            NoStatus(gained) && Slots(gained) == Slots(m) - Slots(w)
            && (gained > 0 <==> Slots(m) - Slots(w) != {})
  {
    hide Has, And, Or, Not;
    var gained := And(Not(Or(w, STATUS)), m);
    FreeSlots(w);
    SlotsOps(Not(Or(w, STATUS)), m);
    HasAnd(Not(Or(w, STATUS)), m, 30);
    HasAnd(Not(Or(w, STATUS)), m, 31);
    assert (AllSlots - Slots(w)) * Slots(m) == Slots(m) - Slots(w);
    EmptyMask(gained);
  }

  /** `send.fetch_and(!claimed & !STATUS)` in `try_recv`, which drops both flags, and the
      `swap(0)` used on x86-64 when that mask is zero. */
  lemma ReleaseWord(w: bv32, claimed: bv32)
    requires NoStatus(claimed)
    ensures var commit := And(Not(claimed), Not(STATUS));
            SendView(And(w, commit)) == Word(Slots(w) - Slots(claimed), false, false)
            && (commit == 0 ==> And(w, commit) == commit)
  {
    hide Has, And, Or, Not;
    var commit := And(Not(claimed), Not(STATUS));
    OnlySlots(Not(claimed));
    SlotsOps(claimed, 0);
    SlotsOps(w, commit);
    HasAnd(w, commit, 30);
    HasAnd(w, commit, 31);
    assert Slots(w) * (AllSlots - Slots(claimed)) == Slots(w) - Slots(claimed);
    AndZero(w);
  }

  lemma AndZero(w: bv32)
    ensures And(w, 0) == 0
  {
  }

  /** `send.fetch_or(SLEEPING)` and `send.fetch_or(COUNTERPARTY_DEAD)`. */
  lemma SendFlagWords(w: bv32)
    ensures SendView(Or(w, SLEEPING)) == SendView(w).(sleeping := true)
    ensures SendView(Or(w, COUNTERPARTY_DEAD)) == SendView(w).(dead := true)
  {
    hide Has, And, Or, Not;
    forall i: nat | i < 32
      ensures Has(Or(w, SLEEPING), i) <==> Has(w, i) || i == 30
      ensures Has(Or(w, COUNTERPARTY_DEAD), i) <==> Has(w, i) || i == 31
    {
      HasOr(w, SLEEPING, i);
      HasOr(w, COUNTERPARTY_DEAD, i);
      HasStatus(i);
    }
    assert Slots(Or(w, SLEEPING)) == Slots(w);
    assert Slots(Or(w, COUNTERPARTY_DEAD)) == Slots(w);
  }

  // ----- the atomic accesses to `recv`

  /** `recv.fetch_or(reserved | STATUS)` in `try_send`, which turns both flags off, and the
      `swap` used on x86-64 when that mask is all ones. */
  lemma CommitWord(w: bv32, reserved: bv32)
    requires NoStatus(reserved)
    ensures var commit := Or(reserved, STATUS);
            RecvView(Or(w, commit)) == Word(Slots(w) + Slots(reserved), false, false)
            && (commit == MAX ==> Or(w, commit) == commit)
  {
    hide Has, And, Or, Not;
    var commit := Or(reserved, STATUS);
    SlotsOps(reserved, STATUS);
    SlotsOps(w, commit);
    forall i: nat | i < 32
      ensures Has(Or(w, commit), i) <==> Has(w, i) || Has(reserved, i) || i >= 30
      ensures Has(STATUS, i) <==> i >= 30
    {
      HasOr(w, commit, i);
      HasOr(reserved, STATUS, i);
      HasStatus(i);
    }
    assert Slots(STATUS) == {};
    OrMax(w);
  }

  lemma OrMax(w: bv32)
    ensures Or(w, MAX) == MAX
  {
  }

  /** `recv.fetch_and(STATUS)` in `try_recv`, which keeps both flags, and the test for
      having claimed something. */
  lemma ClaimWord(w: bv32)
    ensures RecvView(And(w, STATUS)) == RecvView(w).(slots := {})
    ensures And(w, Not(STATUS)) == 0 <==> Slots(w) == {}
  {
    hide Has, And, Or, Not;
    forall i: nat | i < 32
      ensures Has(And(w, STATUS), i) <==> Has(w, i) && i >= 30
    {
      HasAnd(w, STATUS, i);
      HasStatus(i);
    }
    assert Slots(And(w, STATUS)) == {};
    OnlySlots(w);
    EmptyMask(And(w, Not(STATUS)));
  }

  /** `recv.fetch_and(!SLEEPING)` and `recv.fetch_and(!COUNTERPARTY_DEAD)`. */
  lemma RecvFlagWords(w: bv32)
    ensures RecvView(And(w, Not(SLEEPING))) == RecvView(w).(sleeping := true)
    ensures RecvView(And(w, Not(COUNTERPARTY_DEAD))) == RecvView(w).(dead := true)
  {
    hide Has, And, Or, Not;
    forall i: nat | i < 32
      ensures Has(And(w, Not(SLEEPING)), i) <==> Has(w, i) && i != 30
      ensures Has(And(w, Not(COUNTERPARTY_DEAD)), i) <==> Has(w, i) && i != 31
    {
      HasAnd(w, Not(SLEEPING), i);
      HasAnd(w, Not(COUNTERPARTY_DEAD), i);
      HasNot(SLEEPING, i);
      HasNot(COUNTERPARTY_DEAD, i);
      HasStatus(i);
    }
    assert Slots(And(w, Not(SLEEPING))) == Slots(w);
    assert Slots(And(w, Not(COUNTERPARTY_DEAD))) == Slots(w);
  }

  /** `Status::contains`, on `send` as it is and on `recv` inverted. */
  lemma ContainsFlag(w: bv32)
    ensures And(w, COUNTERPARTY_DEAD) == COUNTERPARTY_DEAD <==> SendView(w).dead
    ensures And(w, SLEEPING) == SLEEPING <==> SendView(w).sleeping
    ensures And(Not(w), COUNTERPARTY_DEAD) == COUNTERPARTY_DEAD <==> RecvView(w).dead
    ensures And(Not(w), SLEEPING) == SLEEPING <==> RecvView(w).sleeping
  {
    hide Has, And, Or, Not;
    FlagBit(w, 31, COUNTERPARTY_DEAD);
    FlagBit(w, 30, SLEEPING);
    FlagBit(Not(w), 31, COUNTERPARTY_DEAD);
    FlagBit(Not(w), 30, SLEEPING);
    HasNot(w, 30);
    HasNot(w, 31);
  }

  lemma FlagBit(w: bv32, k: nat, flag: bv32)
    requires (k == 30 && flag == SLEEPING) || (k == 31 && flag == COUNTERPARTY_DEAD)
    ensures And(w, flag) == flag <==> Has(w, k)
  {
    hide Has, And, Or, Not;
    if Has(w, k) {
      forall i: nat | i < 32
        ensures Has(And(w, flag), i) <==> Has(flag, i)
      {
        HasAnd(w, flag, i);
        HasStatus(i);
      }
      SameBits(And(w, flag), flag);
    } else {
      HasAnd(w, flag, k);
      HasStatus(k);
    }
  }
}
