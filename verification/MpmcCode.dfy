/** `try_send` and `try_recv` of the bag as the code has them: on 32-bit words and an array,
    with the other threads free to interfere between any two accesses.  Each access is one
    step of the machine. */
module MpmcCode {
  import opened Words
  import opened Status
  import opened Tally
  import opened Masks
  import opened Mpmc
  import opened MpmcInvariant
  import opened MpmcOthers
  import opened MpmcOrder
  import MpmcSteps
  import MpmcProgress
  import MpmcTheorems

  /** What thread `t` finds after others have moved: its own place is where it was. */
  ghost predicate OthersMoved(s: State, s': State, t: nat) {
    Inv(s') && FillsInOrder(s') && t < |s.threads| && t < |s'.threads| && s'.threads[t] == s.threads[t]
  }

  /** Whatever others do, in any number of steps, is among what `Others` allows. */
  lemma OthersAllowed(trace: seq<State>, acts: seq<Action>, t: nat, i: nat, j: nat)
    requires MpmcTheorems.Run(trace, acts) && Inv(trace[0]) && i <= j && Idles(acts, t, i, j)
    requires t < |trace[i].threads| && !MpmcProgress.Parked(trace[i].threads[t]) && FillsInOrder(trace[0])
    ensures OthersMoved(trace[i], trace[j], t)
  {
    hide Inv, FillsInOrder;
    RunKeepsOrder(trace, acts, j);
    RunOfOthers(trace, acts, t, i, j);
  }

  /** A thread that is parked is still parked after that, or has been woken: what
      `SleepOnSend` and `SleepOnRecv` promise, once it runs again. */
  lemma SleepAllowed(trace: seq<State>, acts: seq<Action>, t: nat, i: nat, j: nat)
    requires MpmcTheorems.Run(trace, acts) && Inv(trace[0]) && i <= j && Idles(acts, t, i, j)
    requires t < |trace[i].threads| && MpmcProgress.Parked(trace[i].threads[t]) && FillsInOrder(trace[0])
    ensures Inv(trace[j]) && FillsInOrder(trace[j]) && t < |trace[j].threads|
    ensures match trace[i].threads[t]
            case Sender(c, _) => trace[j].threads[t] in {Sender(c, SendParked), Sender(c, SendWoken)}
            case Receiver(c, _) => trace[j].threads[t] in {Receiver(c, RecvParked), Receiver(c, RecvWoken)}
            case _ => false
  {
    hide Inv, FillsInOrder;
    RunKeepsOrder(trace, acts, j);
    RunOfOthers(trace, acts, t, i, j);
  }

  // ----- what the steps of the machine do to the shared memory

  ghost predicate SameMemory(s: State, s': State) {
    s'.send == s.send && s'.recv == s.recv && s'.bag == s.bag
  }

  lemma ReserveIs(s: State, t: nat, retry: set<nat>)
    requires Enabled(s, Reserve(t, retry)) && s.threads[t].at.mask <= AllSlots
    ensures var s' := Next(s, Reserve(t, retry)); var c, mask := s.threads[t].send, s.threads[t].at.mask;
            && s'.send == s.send.(slots := s.send.slots + mask)
            && s'.recv == s.recv && s'.bag == s.bag && |s'.threads| == |s.threads|
            && AfterReserve(s, s', t, c, mask, retry)
  {
    hide Assign, Trimmed;
    var mask := s.threads[t].at.mask;
    if s.send.slots == AllSlots {
      assert s.send.slots + mask == AllSlots;
    } else if mask - s.send.slots == {} {
      forall i | i in mask
        ensures i in s.send.slots
      {
        assert i !in mask - s.send.slots;
      }
      assert s.send.slots + mask == s.send.slots;
    }
  }

  /** How a `try_send` goes on from its reservation. */
  ghost predicate AfterReserve(s: State, s': State, t: nat, c: SendCall, mask: set<nat>, retry: set<nat>)
    requires t < |s'.threads|
  {
    if s.send.dead then s'.threads[t] == Idle && s'.log == s.log + [SendReturned(c.given, c.given, Disconnected)]
    else if s.send.slots == AllSlots then
      if c.blocking then s'.threads[t] == Sender(c, SendSpinning(32))
      else s'.threads[t] == Idle && s'.log == s.log + [SendReturned(c.given, c.given, Full)]
    else
      var gained := mask - s.send.slots;
      s'.threads[t] == Sender(c, if gained != {} then Filling(c.given, gained, gained) else Reserving(retry))
  }

  /** A retry asks for slots that were free just now. */
  lemma RetryIs(s: State, t: nat, retry: set<nat>)
    requires Inv(s) && Enabled(s, Reserve(t, retry)) && AtSend(Next(s, Reserve(t, retry)), t)
    requires Next(s, Reserve(t, retry)).threads[t].at.Reserving?
    ensures AimsAtFreeSlots(Next(s, Reserve(t, retry)), t)
  {
    hide Inv, Next, Enabled;
    MpmcProgress.RetryAimsAtFreeSlots(s, t, retry);
  }

  lemma FillIs(s: State, t: nat, slot: nat)
    requires Inv(s) && Enabled(s, Fill(t, slot))
    ensures var s' := Next(s, Fill(t, slot)); var Filling(data, reserved, left) := s.threads[t].at;
            && data != [] && slot < |s.bag|
            && s'.send == s.send && s'.recv == s.recv && s'.bag == s.bag[slot := Some(data[|data| - 1])]
            && |s'.threads| == |s.threads|
            && s'.threads[t] == Sender(s.threads[t].send, Filling(data[..|data| - 1], reserved, left - {slot}))
  {
    MpmcSteps.StepKeeps(s, Fill(t, slot));
  }

  lemma CommitIs(s: State, t: nat)
    requires Enabled(s, Commit(t))
    ensures var s' := Next(s, Commit(t)); var Filling(data, reserved, left) := s.threads[t].at;
            && s'.send == s.send && s'.bag == s.bag && |s'.threads| == |s.threads|
            && s'.recv == Word(s.recv.slots + reserved, false, false)
            && var c := s.threads[t].send;
               if s.recv.sleeping then s'.threads[t] == Sender(c, WakingReceiver(data))
               else s'.threads[t] == Idle && s'.log == s.log + [SendReturned(c.given, data, Sent)]
  {
    hide Assign;
  }

  lemma WakeReceiverIs(s: State, t: nat, woken: Option<nat>)
    requires Enabled(s, WakeReceiver(t, woken))
    ensures var s' := Next(s, WakeReceiver(t, woken));
            && SameMemory(s, s') && |s'.threads| == |s.threads| && s'.threads[t] == Idle
            && s'.log == s.log + [SendReturned(s.threads[t].send.given, s.threads[t].at.data, Sent)]
  {
  }

  lemma SomebodyToWake(s: State) returns (woken: Option<nat>)
    ensures WakesOneReceiver(s, woken)
  {
    if u: nat :| u < |s.threads| && IsReceiverParked(s.threads[u]) {
      woken := Some(u);
    } else {
      woken := None;
    }
  }

  lemma ClaimIs(s: State, t: nat)
    requires Enabled(s, Claim(t))
    ensures var s' := Next(s, Claim(t)); var c := s.threads[t].recv;
            && s'.send == s.send && s'.bag == s.bag && s'.recv == s.recv.(slots := {}) && |s'.threads| == |s.threads|
            && (s.recv.slots != {} ==> s'.threads[t] == Receiver(c, Draining([], s.recv.slots, s.recv.slots)))
            && (s.recv.slots == {} ==>
                  if !s.recv.dead && c.blocking then s'.threads[t] == Receiver(c, RecvSpinning(32))
                  else s'.threads[t] == Idle && s'.log == s.log + [RecvFailed(s.recv.dead)])
  {
    hide Assign;
  }

  lemma DrainIs(s: State, t: nat, slot: nat)
    requires Inv(s) && Enabled(s, Mpmc.Drain(t, slot))
    ensures var s' := Next(s, Mpmc.Drain(t, slot)); var Draining(values, claimed, left) := s.threads[t].on;
            && slot < |s.bag| && s.bag[slot].Some?
            && s'.send == s.send && s'.recv == s.recv && s'.bag == s.bag[slot := None] && |s'.threads| == |s.threads|
            && s'.threads[t] == Receiver(s.threads[t].recv, Draining(values + [s.bag[slot].value], claimed, left - {slot}))
  {
    MpmcSteps.StepKeeps(s, Mpmc.Drain(t, slot));
  }

  lemma ReleaseIs(s: State, t: nat)
    requires Enabled(s, Mpmc.Release(t))
    ensures var s' := Next(s, Mpmc.Release(t)); var Draining(values, claimed, left) := s.threads[t].on;
            && s'.recv == s.recv && s'.bag == s.bag && |s'.threads| == |s.threads|
            && s'.send == Word(s.send.slots - claimed, false, false)
            && if s.send.sleeping then s'.threads[t] == Receiver(s.threads[t].recv, WakingSender(values))
               else s'.threads[t] == Idle && s'.log == s.log + [RecvReturned(values)]
  {
    hide Assign;
  }

  lemma WakeSenderIs(s: State, t: nat, woken: Option<nat>)
    requires Enabled(s, WakeSender(t, woken))
    ensures var s' := Next(s, WakeSender(t, woken));
            && SameMemory(s, s') && |s'.threads| == |s.threads| && s'.threads[t] == Idle
            && s'.log == s.log + [RecvReturned(s.threads[t].on.values)]
  {
  }

  lemma SenderToWake(s: State) returns (woken: Option<nat>)
    ensures WakesOneSender(s, woken)
  {
    if u: nat :| u < |s.threads| && IsSenderParked(s.threads[u]) {
      woken := Some(u);
    } else {
      woken := None;
    }
  }

  lemma StartSendIs(s: State, t: nat, h: nat, blocking: bool, given: seq<Item>)
    requires Enabled(s, StartSend(t, h, blocking, given))
    ensures var s' := Next(s, StartSend(t, h, blocking, given)); var c := SendCall(h, s.senders[h], blocking, given);
            && SameMemory(s, s') && |s'.threads| == |s.threads|
            && if given == [] then s'.threads[t] == Idle && s'.log == s.log + [Handed(given), SendReturned(given, given, Sent)]
               else s'.threads[t] == Sender(c, Reserving(FirstMask(c)))
  {
    hide FirstMask;
  }

  lemma StartRecvIs(s: State, t: nat, h: nat, blocking: bool)
    requires Enabled(s, StartRecv(t, h, blocking))
    ensures var s' := Next(s, StartRecv(t, h, blocking));
            SameMemory(s, s') && |s'.threads| == |s.threads| && s'.threads[t] == Receiver(RecvCall(h, blocking), Claiming(false))
  {
  }

  // ----- the steps of a blocking call

  lemma SendPollIs(s: State, t: nat)
    requires AtSend(s, t) && s.threads[t].at.SendSpinning?
    ensures Enabled(s, SendPoll(t))
    ensures var s' := Next(s, SendPoll(t)); var Sender(c, SendSpinning(spin)) := s.threads[t];
            var word := if spin == 0 then s.send.(sleeping := true) else s.send;
            && s'.send == word && s'.recv == s.recv && s'.bag == s.bag && |s'.threads| == |s.threads|
            && if word.slots != AllSlots then s'.threads[t] == Sender(c, Reserving(FirstMask(c)))
               else if word.dead then s'.threads[t] == Idle && s'.log == s.log + [SendReturned(c.given, c.given, Disconnected)]
               else if word.sleeping then s'.threads[t] == Sender(c, SendSleeping(word))
               else spin > 0 && s'.threads[t] == Sender(c, SendSpinning(spin - 1))
  {
    hide FirstMask;
  }

  lemma SendSleepIs(s: State, t: nat)
    requires AtSend(s, t) && s.threads[t].at.SendSleeping?
    ensures Enabled(s, SendSleep(t))
    ensures var s' := Next(s, SendSleep(t)); var c := s.threads[t].send;
            && SameMemory(s, s') && |s'.threads| == |s.threads|
            && s'.threads[t] == Sender(c, if s.send == s.threads[t].at.expected then SendParked else SendWoken)
  {
  }

  lemma SpuriousIs(s: State, t: nat)
    requires t < |s.threads| && (IsSenderParked(s.threads[t]) || IsReceiverParked(s.threads[t]))
    ensures Enabled(s, SpuriousWake(t))
    ensures var s' := Next(s, SpuriousWake(t));
            SameMemory(s, s') && |s'.threads| == |s.threads| && s'.threads[t] == Woken(s.threads[t])
  {
  }

  lemma SendRearmIs(s: State, t: nat)
    requires AtSend(s, t) && s.threads[t].at.SendWoken?
    ensures Enabled(s, SendRearm(t))
    ensures var s' := Next(s, SendRearm(t)); var c := s.threads[t].send;
            && s'.send == s.send.(sleeping := true) && s'.recv == s.recv && s'.bag == s.bag
            && |s'.threads| == |s.threads| && s'.threads[t] == Sender(c, Reserving(FirstMask(c)))
  {
    hide FirstMask;
  }

  lemma RecvPollIs(s: State, t: nat)
    requires AtRecv(s, t) && s.threads[t].on.RecvSpinning?
    ensures Enabled(s, RecvPoll(t))
    ensures var s' := Next(s, RecvPoll(t)); var Receiver(c, RecvSpinning(spin)) := s.threads[t];
            var word := if spin == 0 then s.recv.(sleeping := true) else s.recv;
            && s'.send == s.send && s'.recv == word && s'.bag == s.bag && |s'.threads| == |s.threads|
            && if word.slots != {} then s'.threads[t] == Receiver(c, Claiming(false))
               else if word.dead then s'.threads[t] == Idle && s'.log == s.log + [RecvFailed(true)]
               else if word.sleeping then s'.threads[t] == Receiver(c, RecvSleeping(word))
               else spin > 0 && s'.threads[t] == Receiver(c, RecvSpinning(spin - 1))
  {
  }

  lemma RecvSleepIs(s: State, t: nat)
    requires AtRecv(s, t) && s.threads[t].on.RecvSleeping?
    ensures Enabled(s, RecvSleep(t))
    ensures var s' := Next(s, RecvSleep(t)); var c := s.threads[t].recv;
            && SameMemory(s, s') && |s'.threads| == |s.threads|
            && s'.threads[t] == Receiver(c, if s.recv == s.threads[t].on.expected then RecvParked else RecvWoken)
  {
  }

  lemma RecvRearmIs(s: State, t: nat)
    requires AtRecv(s, t) && s.threads[t].on.RecvWoken?
    ensures Enabled(s, RecvRearm(t))
    ensures var s' := Next(s, RecvRearm(t)); var c := s.threads[t].recv;
            && s'.recv == s.recv.(sleeping := true) && s'.send == s.send && s'.bag == s.bag
            && |s'.threads| == |s.threads| && s'.threads[t] == Receiver(c, Claiming(true))
  {
  }

  lemma BelowMax(w: bv32)
    ensures w < MAX <==> w != MAX
  {
  }

  /** `w | STATUS < u32::MAX`: some slot is free. */
  lemma FullWord(w: bv32)
    ensures Or(w, STATUS) < MAX <==> SendView(w).slots != AllSlots
  {
    hide Or, Slots;
    BelowMax(Or(w, STATUS));
    FreeSlots(w);
  }

  /** `w & !STATUS > 0`: something is committed. */
  lemma EmptyWord(w: bv32)
    ensures And(w, Not(STATUS)) > 0 <==> RecvView(w).slots != {}
  {
    hide And, Not, Slots;
    ClaimWord(w);
  }

  // ----- a new channel

  function NewState(n: nat): State {
    State(Word({}, false, false), Word({}, false, false), seq(SLOTS, _ => None), 1, 1, map[0 := 0], {0},
          seq(n, _ => Idle), true, false, seq(SLOTS, _ => Free), [])
  }

  lemma NewStateIsInitial(n: nat)
    ensures var s := NewState(n);
            && Initial(s) && |s.threads| == n && s.bag == seq(SLOTS, _ => None)
            && s.send == Word({}, false, false) && s.recv == Word({}, false, false)
  {
  }

  // ----- what a send has done when its slots are filled

  lemma WholeBuffer(s: State, t: nat)
    requires Inv(s) && AtSend(s, t) && s.threads[t].at.Filling? && s.threads[t].at.left == s.threads[t].at.reserved
    ensures s.threads[t].at.data == s.threads[t].send.given
  {
    hide Inv;
    MpmcSteps.Facts(s, t);
  }

  lemma AllFilled(s: State, t: nat)
    requires Inv(s) && FillsInOrder(s) && AtSend(s, t)
    requires s.threads[t].at.Filling? && s.threads[t].at.left == {}
    ensures var given, reserved := s.threads[t].send.given, s.threads[t].at.reserved;
            && |reserved| <= |given| && s.threads[t].at.data == given[..|given| - |reserved|]
            && BatchIn(s.bag, given, reserved, reserved)
  {
    hide Inv, FillsInOrder, BatchIn;
    FilledState(s, t);
    assert s.threads[t].at.reserved - {} == s.threads[t].at.reserved;
  }

  // ----- dropping the bag

  lemma CommittedAreFull(s: State)
    requires Inv(s)
    ensures |s.bag| == SLOTS && forall i :: i in s.recv.slots ==> i < SLOTS && s.bag[i].Some?
  {
    hide WakeOk, ItemsOk, LogOk, ThreadsOk, SendersOk, ReceiversOk;
  }

  lemma OneDropped(bag: seq<Option<Item>>, left: set<nat>, i: nat, dropped: seq<Item>)
    requires i < |bag| && i in left && bag[i].Some?
    ensures multiset(dropped + [bag[i].value]) + Total(Kept(bag, left - {i}), InSlot)
            == multiset(dropped) + Total(Kept(bag, left), InSlot)
  {
    hide Total;
    assert Kept(bag, left)[i := None] == Kept(bag, left - {i});
    TotalUpdate(Kept(bag, left), InSlot, i, None);
    var x, rest := bag[i].value, Total(Kept(bag, left - {i}), InSlot);
    Nothing(Total(Kept(bag, left), InSlot));
    assert Total(Kept(bag, left), InSlot) == rest + multiset{x};
    assert multiset(dropped + [x]) == multiset(dropped) + multiset{x};
    Exchange(multiset(dropped), multiset{x}, rest);
  }

  lemma NothingKept(bag: seq<Option<Item>>, left: set<nat>)
    requires left == {}
    ensures Total(Kept(bag, left), InSlot) == multiset{}
  {
    MpmcTheorems.EmptyBag(Kept(bag, left));
  }

  lemma DropBagIs(s: State)
    requires Enabled(s, DropBag)
    ensures var s' := Next(s, DropBag);
            && s'.log == s.log + [Dropped(Total(Kept(s.bag, s.recv.slots), InSlot))]
            && s'.bag == Rest(s.bag, s.recv.slots)
  {
    hide Total, Assign;
  }

  lemma FirstSlot(mask: bv32, i: nat)
    requires NoStatus(mask) && i == LeadingZeros(mask)
    ensures i < SLOTS ==> IsFirst(i, Slots(mask))
    ensures i >= SLOTS ==> Slots(mask) == {}
  {
    hide Has;
    LeadingZerosIsFirst(mask, 0);
  }

  lemma ClearedStatus(mask: bv32, i: nat)
    requires NoStatus(mask) && i < SLOTS
    ensures NoStatus(And(mask, Not(Bit(i))))
  {
    hide Has, And, Not, Bit;
    ClearAt(mask, i);
  }

  /** `Some` of an outcome, or nothing when the call has used up its retries. */
  type SendResult = Option<SendOutcome>

  class Inner {
    var send: bv32
    var recv: bv32
    const bag: array<Option<Item>>
    /** The machine: not looked at. */
    ghost var s: State
    /** How often a reservation or a claim has been tried through this object. */
    ghost var tries: nat

    ghost predicate Valid()
      reads this, bag
    {
      && SendView(send) == s.send && RecvView(recv) == s.recv && bag[..] == s.bag
      && Inv(s) && FillsInOrder(s)
    }

    /** `mpmc`, for `n` threads to come. */
    constructor (n: nat)
      ensures Valid() && fresh(bag) && Initial(s) && |s.threads| == n
    {
      send, recv, tries := 0, STATUS, 0;
      bag := new Option<Item>[SLOTS](_ => None);
      s := NewState(n);
      new;
      hide Inv, FillsInOrder, Initial, NewState;
      InitialViews();
      NewStateIsInitial(n);
      InOrderAtFirst(s);
      MpmcTheorems.InitialInv(s);
    }

    /** Any number of steps of other threads.  The body stands for none; callers only know
        what the contract says, which by `OthersAllowed` covers all that others can do. */
    method Others(t: nat)
      requires Valid() && t < |s.threads|
      modifies this, bag
      ensures Valid() && OthersMoved(old(s), s, t) && tries == old(tries)
    {
    }

    /** Takes the machine along. */
    ghost method Follow(a: Action)
      requires Inv(s) && FillsInOrder(s) && Enabled(s, a) && !a.Reserve? && !a.Claim?
      modifies this`s
      ensures Inv(s) && FillsInOrder(s) && s == Next(old(s), a)
    {
      hide Inv, FillsInOrder, Next, Enabled;
      MpmcSteps.StepKeeps(s, a);
      StepKeepsOrder(s, a);
      s := Next(s, a);
    }

    ghost method Try(a: Action)
      requires Inv(s) && FillsInOrder(s) && Enabled(s, a) && (a.Reserve? || a.Claim?)
      modifies this`s, this`tries
      ensures Inv(s) && FillsInOrder(s) && s == Next(old(s), a) && tries == old(tries) + 1
    {
      hide Inv, FillsInOrder, Next, Enabled;
      MpmcSteps.StepKeeps(s, a);
      StepKeepsOrder(s, a);
      s := Next(s, a);
      tries := tries + 1;
    }

    // ----- the accesses of `try_send`

    /** `ptr::write` to slot `i`. */
    method WriteSlot(t: nat, i: nat, value: Item)
      requires Valid() && Enabled(s, Fill(t, i))
      requires var data := s.threads[t].at.data; data != [] ==> value == data[|data| - 1]
      modifies bag, this`s
      ensures Valid() && s == Next(old(s), Fill(t, i))
    {
      hide Inv, FillsInOrder, Enabled, Next, SendView, RecvView;
      FillIs(s, t, i);
      bag[i] := Some(value);
      Follow(Fill(t, i));
    }

    /** `recv.fetch_or(reserved | STATUS)`, or the swap that x86-64 makes of it. */
    method CommitSlots(t: nat, reserved: bv32) returns (receiverSleeping: bool)
      requires Valid() && NoStatus(reserved) && AtSend(s, t)
      requires s.threads[t].at.Filling? && s.threads[t].at.reserved == Slots(reserved) && s.threads[t].at.left == {}
      modifies this`recv, this`s
      ensures Valid() && t < |s.threads|
      ensures var th := old(s).threads[t];
              if receiverSleeping then s.threads[t] == Sender(th.send, WakingReceiver(th.at.data))
              else Reported(t, SendReturned(th.send.given, th.at.data, Sent))
    {
      hide Inv, FillsInOrder, Next, Or, And, Not;
      var prev := recv;
      var commit := Or(reserved, STATUS);
      CommitWord(prev, reserved);
      ContainsFlag(prev);
      recv := if commit == MAX then commit else Or(prev, commit);
      receiverSleeping := And(Not(prev), SLEEPING) == SLEEPING;
      CommitIs(s, t);
      Follow(Commit(t));
    }

    /** `atomic_wake(recv, 1)`. */
    method WakeOneReceiver(t: nat)
      requires Valid() && AtSend(s, t) && s.threads[t].at.WakingReceiver?
      modifies this`s
      ensures Valid() && t < |s.threads| && s.threads[t] == Idle
      ensures var th := old(s).threads[t]; s.log == old(s).log + [SendReturned(th.send.given, th.at.data, Sent)]
    {
      hide Inv, FillsInOrder, Next;
      ghost var woken := SomebodyToWake(s);
      WakeReceiverIs(s, t, woken);
      Follow(WakeReceiver(t, woken));
    }

    // ----- try_send

    /** The call is over, and `rest` and `o` are what it reported. */
    ghost predicate Reported(t: nat, e: Event)
      reads this
    {
      t < |s.threads| && s.threads[t] == Idle && s.log != [] && s.log[|s.log| - 1] == e
    }

    /** A call begins: nothing shared is touched. */
    ghost method StartCall(t: nat, h: nat, blocking: bool, given: seq<Item>)
      requires Valid() && t < |s.threads| && s.threads[t].Idle? && h in s.senders
      modifies this`s
      ensures Valid()
      ensures if given == [] then Reported(t, SendReturned(given, given, Sent))
              else AtSend(s, t) && var c := SendCall(h, old(s).senders[h], blocking, given);
                   s.threads[t] == Sender(c, Reserving(FirstMask(c)))
    {
      hide Inv, FillsInOrder, Next, FirstMask;
      StartSendIs(s, t, h, blocking, given);
      Follow(StartSend(t, h, blocking, given));
    }

    /** The tests on what the `fetch_or` returns.  The result is an outcome, or the slots
        reserved, or the next mask to try. */
    static method TestReservation(prev: bv32, mask: bv32, items: nat, bias: Bias)
      returns (outcome: SendResult, reserved: bv32, next: bv32, ghost retry: set<nat>)
      requires NoStatus(mask) && items > 0
      ensures Slots(mask) <= AllSlots
      ensures if SendView(prev).dead then outcome == Some(Disconnected)
              else if Slots(prev) == AllSlots then outcome == Some(Full)
              else
                && outcome == None && NoStatus(reserved) && Slots(reserved) == Slots(mask) - Slots(prev)
                && (reserved > 0 <==> Slots(reserved) != {})
                && (reserved == 0 ==>
                      NoStatus(next) && Trimmed(AllSlots - Slots(prev), Slots(next), items, bias % 2 == 0))
      ensures Trimmed(AllSlots - Slots(prev), retry, items, bias % 2 == 0)
      ensures outcome == None && reserved == 0 ==> retry == Slots(next)
    {
      hide Or, And, Not, Trimmed, Has, Positions;
      outcome, reserved, next := None, 0, 0;
      ContainsFlag(prev);
      FreeSlots(prev);
      GainedMask(prev, mask);
      retry := MpmcProgress.TrimmedExists(AllSlots - Slots(prev), items, bias % 2 == 0);
      var slots := Or(prev, STATUS);
      if And(prev, COUNTERPARTY_DEAD) == COUNTERPARTY_DEAD {
        outcome := Some(Disconnected);
      } else if slots == MAX {
        outcome := Some(Full);
      } else {
        reserved := And(Not(slots), mask);
        if reserved == 0 {
          next := ClearExtraBits(Not(slots), items, bias % 2 == 0);
          TrimmedSlots(Not(slots), next, items, bias % 2 == 0);
          retry := Slots(next);
        }
      }
    }

    /** One turn of the reservation loop: `send.fetch_or(mask)` and the tests. */
    method Attempt(t: nat, mask: bv32, items: nat, bias: Bias)
      returns (outcome: SendResult, reserved: bv32, next: bv32)
      requires Valid() && NoStatus(mask) && AtSend(s, t) && s.threads[t].at == Reserving(Slots(mask)) && items > 0
      requires var c := s.threads[t].send; |c.given| == items && c.bias == bias
      modifies this`send, this`s, this`tries
      ensures Valid() && t < |s.threads| && tries == old(tries) + 1
      ensures var c := old(s).threads[t].send;
              if outcome == Some(Full) && c.blocking then s.threads[t] == Sender(c, SendSpinning(32))
              else if outcome.Some? then Reported(t, SendReturned(c.given, c.given, outcome.value))
              else if reserved > 0 then
                NoStatus(reserved) && s.threads[t] == Sender(c, Filling(c.given, Slots(reserved), Slots(reserved)))
              else NoStatus(next) && s.threads[t] == Sender(c, Reserving(Slots(next))) && AimsAtFreeSlots(s, t)
    {
      hide Inv, FillsInOrder, Next, Or, And, Not, Trimmed, Has, Slots;
      var prev := send;
      send := Or(prev, mask);
      ReserveWord(prev, mask);
      ghost var retry;
      outcome, reserved, next, retry := TestReservation(prev, mask, items, bias);
      ReserveIs(s, t, retry);
      if outcome == None && reserved == 0 {
        RetryIs(s, t, retry);
      }
      Try(Reserve(t, retry));
    }

    /** `drain_mask(reserved, ..)` in `try_send`: the items go from the end of the buffer to
        the reserved slots, the first slot first. */
    method FillSlots(t: nat, reserved: bv32, given: seq<Item>) returns (data: seq<Item>)
      requires Valid() && NoStatus(reserved) && AtSend(s, t)
      requires s.threads[t].at == Filling(given, Slots(reserved), Slots(reserved))
      modifies this, bag
      ensures Valid() && AtSend(s, t) && s.threads[t] == Sender(old(s).threads[t].send, Filling(data, Slots(reserved), {}))
      ensures |Slots(reserved)| <= |given| && data == given[..|given| - |Slots(reserved)|]
      ensures BatchIn(bag[..], given, Slots(reserved), Slots(reserved))
      ensures tries == old(tries)
    {
      hide Inv, FillsInOrder, Next, And, Not, Has, Bit, Slots, BatchIn;
      WholeBuffer(s, t);
      data := given;
      var mask := reserved;
      while true
        invariant Valid() && NoStatus(mask) && AtSend(s, t) && tries == old(tries)
        invariant s.threads[t] == Sender(old(s).threads[t].send, Filling(data, Slots(reserved), Slots(mask)))
        decreases |Slots(mask)|
      {
        Others(t);
        var i := LeadingZeros(mask);
        FirstSlot(mask, i);
        if i >= SLOTS {
          break;
        }
        FillIs(s, t, i);
        var value := data[|data| - 1];
        data := data[..|data| - 1];
        WriteSlot(t, i, value);
        ClearAt(mask, i);
        ClearedStatus(mask, i);
        mask := And(mask, Not(Bit(i)));
      }
      AllFilled(s, t);
    }

    /** The reservation loop: `Some` result ends the call. */
    method ReserveSlots(t: nat, mask0: bv32, items: nat, bias: Bias, patience: nat)
      returns (done: bool, outcome: SendResult, reserved: bv32)
      requires Valid() && NoStatus(mask0) && AtSend(s, t) && s.threads[t].at == Reserving(Slots(mask0)) && items > 0
      requires var c := s.threads[t].send; |c.given| == items && c.bias == bias
      modifies this, bag
      ensures Valid() && t < |s.threads|
      ensures var c := old(s).threads[t].send;
              if !done then
                NoStatus(reserved) && s.threads[t] == Sender(c, Filling(c.given, Slots(reserved), Slots(reserved)))
              else if outcome == Some(Full) && c.blocking then s.threads[t] == Sender(c, SendSpinning(32))
              else if outcome.Some? then Reported(t, SendReturned(c.given, c.given, outcome.value))
              else AtSend(s, t) && s.threads[t].at.Reserving? && s.threads[t].send == c && (patience > 0 ==> AimsAtFreeSlots(s, t))
      ensures if done && outcome.None? then tries == old(tries) + patience else tries > old(tries)
    {
      hide Inv, FillsInOrder, Next, Has, Slots, BatchIn;
      ghost var c := s.threads[t].send;
      var mask, turns := mask0, 0;
      while turns < patience
        invariant turns <= patience && tries == old(tries) + turns
        invariant Valid() && NoStatus(mask) && AtSend(s, t) && s.threads[t] == Sender(c, Reserving(Slots(mask)))
        invariant turns > 0 ==> AimsAtFreeSlots(s, t)
      {
        turns := turns + 1;
        Others(t);
        var gained, next;
        outcome, gained, next := Attempt(t, mask, items, bias);
        if outcome.Some? {
          return true, outcome, 0;
        }
        if gained > 0 {
          return false, None, gained;
        }
        mask := next;
      }
      return true, None, 0;
    }

    /** The body of `try_send`, for a call that has items to send. */
    method SendItems(t: nat, given: seq<Item>, bias: Bias, patience: nat) returns (r: SendResult, rest: seq<Item>)
      requires Valid() && AtSend(s, t) && given != []
      requires var c := s.threads[t].send; c.given == given && c.bias == bias && s.threads[t].at == Reserving(FirstMask(c))
      modifies this, bag
      ensures Valid() && t < |s.threads|
      ensures var c := old(s).threads[t].send;
              if r == Some(Full) && c.blocking then rest == given && s.threads[t] == Sender(c, SendSpinning(32))
              else if r.Some? then Reported(t, SendReturned(given, rest, r.value))
              else rest == given && AtSend(s, t) && s.threads[t].at.Reserving? && s.threads[t].send == c
                   && (patience > 0 ==> AimsAtFreeSlots(s, t))
      ensures if r.None? then tries == old(tries) + patience else tries > old(tries)
    {
      hide Inv, FillsInOrder, Next, Has, Slots, BatchIn;
      var mask := ComputeRequestMask(|given|, bias);
      RequestMaskIsWindow(|given|, bias);
      var done, outcome, reserved := ReserveSlots(t, mask, |given|, bias, patience);
      if done {
        return outcome, given;
      }
      rest := FillSlots(t, reserved, given);
      Others(t);
      var receiverSleeping := CommitSlots(t, reserved);
      if receiverSleeping {
        Others(t);
        WakeOneReceiver(t);
      }
      return Some(Sent), rest;
    }

    /** `try_send`, giving up after `patience` turns of its reservation loop.  What it returns
        is what the machine reports: the outcome, and the items left in the buffer.  If it
        gives up, it is about to ask for slots that were free just now, so that by
        `FailedRetryMeansRival` another turn can only be in vain because of a rival. */
    method TrySend(t: nat, h: nat, bias: Bias, given: seq<Item>, patience: nat)
      returns (r: SendResult, rest: seq<Item>)
      requires Valid() && t < |s.threads| && s.threads[t].Idle? && h in s.senders && s.senders[h] == bias
      modifies this, bag
      ensures Valid()
      ensures r.Some? ==> Reported(t, SendReturned(given, rest, r.value))
      ensures r.None? ==>
                && AtSend(s, t) && s.threads[t].at.Reserving? && s.threads[t].send.given == rest == given
                && (patience > 0 ==> AimsAtFreeSlots(s, t)) && tries == old(tries) + patience
    {
      hide Inv, FillsInOrder, Next;
      StartCall(t, h, false, given);
      if given == [] {
        return Some(Sent), given;
      }
      r, rest := SendItems(t, given, bias, patience);
    }

    // ----- send

    /** One turn of the spin loop: the word it read, with SLEEPING on if it is the last. */
    method PollSend(t: nat, spin: nat) returns (word: bv32)
      requires Valid() && AtSend(s, t) && s.threads[t].at == SendSpinning(spin)
      modifies this`send, this`s
      ensures Valid() && t < |s.threads|
      ensures var c, w := old(s).threads[t].send, SendView(word);
              if w.slots != AllSlots then s.threads[t] == Sender(c, Reserving(FirstMask(c)))
              else if w.dead then Reported(t, SendReturned(c.given, c.given, Disconnected))
              else if w.sleeping then s.threads[t] == Sender(c, SendSleeping(w))
              else spin > 0 && s.threads[t] == Sender(c, SendSpinning(spin - 1))
    {
      hide Inv, FillsInOrder, Next, Or, FirstMask;
      SendFlagWords(send);
      SendPollIs(s, t);
      word := send;
      if spin == 0 {
        word := Or(send, SLEEPING);
      }
      send := word;
      Follow(SendPoll(t));
    }

    /** `atomic_sleep(send, expected)`: returns when the thread has been woken, or was never
        parked.  Callers only know the contract; of the ways to be woken the body takes the
        spurious one. */
    method SleepOnSend(t: nat, expected: bv32)
      requires Valid() && AtSend(s, t) && s.threads[t].at == SendSleeping(SendView(expected))
      modifies this, bag
      ensures Valid() && AtSend(s, t) && s.threads[t] == Sender(old(s).threads[t].send, SendWoken) && tries == old(tries)
    {
      hide Inv, FillsInOrder, Next, SendView, RecvView;
      ViewsAreFaithful(send, expected);
      SendSleepIs(s, t);
      Follow(SendSleep(t));
      if send == expected {
        SpuriousIs(s, t);
        Follow(SpuriousWake(t));
      }
    }

    /** `send.fetch_or(SLEEPING)` after waking up. */
    method RearmSend(t: nat)
      requires Valid() && AtSend(s, t) && s.threads[t].at.SendWoken?
      modifies this`send, this`s
      ensures Valid() && AtSend(s, t)
      ensures var c := old(s).threads[t].send; s.threads[t] == Sender(c, Reserving(FirstMask(c)))
    {
      hide Inv, FillsInOrder, Next, Or, FirstMask;
      SendFlagWords(send);
      SendRearmIs(s, t);
      send := Or(send, SLEEPING);
      Follow(SendRearm(t));
    }

    /** What `send` does after a full bag: spins, sleeps, and goes back to `try_send`, unless
        the receivers are gone. */
    method AwaitSlots(t: nat) returns (disconnected: bool)
      requires Valid() && AtSend(s, t) && s.threads[t].at == SendSpinning(32)
      modifies this, bag
      ensures Valid() && t < |s.threads|
      ensures var c := old(s).threads[t].send;
              if disconnected then Reported(t, SendReturned(c.given, c.given, Disconnected))
              else s.threads[t] == Sender(c, Reserving(FirstMask(c)))
      ensures tries == old(tries)
    {
      hide Inv, FillsInOrder, Next, Or, And, SendView, RecvView, FirstMask;
      var spin: nat, expected := 32, send;
      while true
        invariant Valid() && AtSend(s, t) && s.threads[t] == Sender(old(s).threads[t].send, SendSpinning(spin))
        invariant tries == old(tries)
        decreases spin
      {
        Others(t);
        var word := PollSend(t, spin);
        FullWord(word);
        ContainsFlag(word);
        if Or(word, STATUS) < MAX {
          return false;
        }
        if And(word, COUNTERPARTY_DEAD) == COUNTERPARTY_DEAD {
          return true;
        }
        if And(word, SLEEPING) == SLEEPING {
          expected := word;
          break;
        }
        spin := spin - 1;
      }
      Others(t);
      SleepOnSend(t, expected);
      Others(t);
      RearmSend(t);
      return false;
    }

    /** `send`, giving up after `patience` rounds. */
    method Send(t: nat, h: nat, bias: Bias, given: seq<Item>, patience: nat)
      returns (r: SendResult, rest: seq<Item>)
      requires Valid() && t < |s.threads| && s.threads[t].Idle? && h in s.senders && s.senders[h] == bias
      modifies this, bag
      ensures Valid() && r != Some(Full)
      ensures r.Some? ==> Reported(t, SendReturned(given, rest, r.value))
      ensures r.None? ==>
                && AtSend(s, t) && s.threads[t].at.Reserving? && s.threads[t].send.given == rest == given
                && tries >= old(tries) + patience
    {
      hide Inv, FillsInOrder, Next, FirstMask;
      StartCall(t, h, true, given);
      if given == [] {
        return Some(Sent), given;
      }
      ghost var c := SendCall(h, bias, true, given);
      var rounds := 0;
      while rounds < patience
        invariant Valid() && AtSend(s, t) && s.threads[t] == Sender(c, Reserving(FirstMask(c)))
        invariant rounds <= patience && tries >= old(tries) + rounds
      {
        rounds := rounds + 1;
        r, rest := SendItems(t, given, bias, patience);
        if r != Some(Full) {
          return;
        }
        var disconnected := AwaitSlots(t);
        if disconnected {
          return Some(Disconnected), given;
        }
      }
      return None, given;
    }

    // ----- try_recv

    /** `recv.fetch_and(STATUS)`: what was committed, or why there is nothing. */
    method ClaimSlots(t: nat) returns (claimed: bv32, disconnected: bool)
      requires Valid() && AtRecv(s, t) && s.threads[t].on.Claiming?
      modifies this`recv, this`s, this`tries
      ensures Valid() && t < |s.threads| && NoStatus(claimed) && tries == old(tries) + 1
      ensures var c := old(s).threads[t].recv;
              if claimed == 0 && !disconnected && c.blocking then s.threads[t] == Receiver(c, RecvSpinning(32))
              else if claimed == 0 then Reported(t, RecvFailed(disconnected))
              else s.threads[t] == Receiver(c, Draining([], Slots(claimed), Slots(claimed)))
    {
      hide Inv, FillsInOrder, Next, Or, And, Not, Has;
      var prev := recv;
      recv := And(prev, STATUS);
      claimed := And(prev, Not(STATUS));
      disconnected := And(Not(prev), COUNTERPARTY_DEAD) == COUNTERPARTY_DEAD;
      ClaimWord(prev);
      OnlySlots(prev);
      ContainsFlag(prev);
      ClaimIs(s, t);
      Try(Claim(t));
    }

    /** `ptr::read` of slot `i`. */
    method ReadSlot(t: nat, i: nat) returns (value: Item)
      requires Valid() && AtRecv(s, t) && s.threads[t].on.Draining? && IsFirst(i, s.threads[t].on.left)
      modifies bag, this`s
      ensures Valid() && AtRecv(s, t)
      ensures var th := old(s).threads[t]; var Draining(values, claimed, left) := th.on;
              s.threads[t] == Receiver(th.recv, Draining(values + [value], claimed, left - {i}))
    {
      hide Inv, FillsInOrder, Next, SendView, RecvView;
      DrainIs(s, t, i);
      value := bag[i].value;
      bag[i] := None;
      Follow(Mpmc.Drain(t, i));
    }

    /** `send.fetch_and(!claimed & !STATUS)`, or the swap that x86-64 makes of it. */
    method ReleaseSlots(t: nat, claimed: bv32) returns (senderSleeping: bool)
      requires Valid() && NoStatus(claimed) && AtRecv(s, t)
      requires s.threads[t].on.Draining? && s.threads[t].on.claimed == Slots(claimed) && s.threads[t].on.left == {}
      modifies this`send, this`s
      ensures Valid() && t < |s.threads|
      ensures var th := old(s).threads[t];
              if senderSleeping then s.threads[t] == Receiver(th.recv, WakingSender(th.on.values))
              else Reported(t, RecvReturned(th.on.values))
    {
      hide Inv, FillsInOrder, Next, Or, And, Not, Has;
      var prev := send;
      var commit := And(Not(claimed), Not(STATUS));
      ReleaseWord(prev, claimed);
      ContainsFlag(prev);
      send := if commit == 0 then commit else And(prev, commit);
      senderSleeping := And(prev, SLEEPING) == SLEEPING;
      ReleaseIs(s, t);
      Follow(Mpmc.Release(t));
    }

    /** `atomic_wake(send, 1)`. */
    method WakeOneSender(t: nat)
      requires Valid() && AtRecv(s, t) && s.threads[t].on.WakingSender?
      modifies this`s
      ensures Valid() && Reported(t, RecvReturned(old(s).threads[t].on.values))
    {
      hide Inv, FillsInOrder, Next;
      ghost var woken := SenderToWake(s);
      WakeSenderIs(s, t, woken);
      Follow(WakeSender(t, woken));
    }

    /** `drain_mask(claimed, ..)` in `try_recv`. */
    method DrainSlots(t: nat, claimed: bv32) returns (values: seq<Item>)
      requires Valid() && NoStatus(claimed) && AtRecv(s, t)
      requires s.threads[t].on == Draining([], Slots(claimed), Slots(claimed))
      modifies this, bag
      ensures Valid() && AtRecv(s, t)
      ensures s.threads[t] == Receiver(old(s).threads[t].recv, Draining(values, Slots(claimed), {})) && tries == old(tries)
    {
      hide Inv, FillsInOrder, Next, And, Not, Has, Bit;
      values := [];
      var mask := claimed;
      while true
        invariant Valid() && NoStatus(mask) && AtRecv(s, t) && tries == old(tries)
        invariant s.threads[t] == Receiver(old(s).threads[t].recv, Draining(values, Slots(claimed), Slots(mask)))
        decreases |Slots(mask)|
      {
        Others(t);
        var i := LeadingZeros(mask);
        FirstSlot(mask, i);
        if i >= SLOTS {
          break;
        }
        var value := ReadSlot(t, i);
        values := values + [value];
        ClearAt(mask, i);
        ClearedStatus(mask, i);
        mask := And(mask, Not(Bit(i)));
      }
    }

    /** The body of `try_recv`: `None` is Empty or Disconnected. */
    method ReceiveItems(t: nat) returns (values: Option<seq<Item>>, disconnected: bool)
      requires Valid() && AtRecv(s, t) && s.threads[t].on.Claiming?
      modifies this, bag
      ensures Valid() && t < |s.threads| && tries == old(tries) + 1
      ensures var c := old(s).threads[t].recv;
              if values.Some? then Reported(t, RecvReturned(values.value))
              else if !disconnected && c.blocking then s.threads[t] == Receiver(c, RecvSpinning(32))
              else Reported(t, RecvFailed(disconnected))
    {
      hide Inv, FillsInOrder, Next, Has, Slots, BatchIn;
      Others(t);
      var claimed;
      claimed, disconnected := ClaimSlots(t);
      if claimed == 0 {
        return None, disconnected;
      }
      var drained := DrainSlots(t, claimed);
      Others(t);
      var senderSleeping := ReleaseSlots(t, claimed);
      if senderSleeping {
        Others(t);
        WakeOneSender(t);
      }
      return Some(drained), false;
    }

    ghost method StartRecvCall(t: nat, h: nat, blocking: bool)
      requires Valid() && t < |s.threads| && s.threads[t].Idle? && h in s.receivers
      modifies this`s
      ensures Valid() && AtRecv(s, t) && s.threads[t] == Receiver(RecvCall(h, blocking), Claiming(false))
    {
      hide Inv, FillsInOrder, Next;
      StartRecvIs(s, t, h, blocking);
      Follow(StartRecv(t, h, blocking));
    }

    /** `try_recv`. */
    method TryRecv(t: nat, h: nat) returns (values: Option<seq<Item>>, disconnected: bool)
      requires Valid() && t < |s.threads| && s.threads[t].Idle? && h in s.receivers
      modifies this, bag
      ensures Valid() && tries == old(tries) + 1
      ensures Reported(t, if values.Some? then RecvReturned(values.value) else RecvFailed(disconnected))
    {
      hide Inv, FillsInOrder, Next;
      StartRecvCall(t, h, false);
      values, disconnected := ReceiveItems(t);
    }

    // ----- recv

    method PollRecv(t: nat, spin: nat) returns (word: bv32)
      requires Valid() && AtRecv(s, t) && s.threads[t].on == RecvSpinning(spin)
      modifies this`recv, this`s
      ensures Valid() && t < |s.threads|
      ensures var c, w := old(s).threads[t].recv, RecvView(word);
              if w.slots != {} then s.threads[t] == Receiver(c, Claiming(false))
              else if w.dead then Reported(t, RecvFailed(true))
              else if w.sleeping then s.threads[t] == Receiver(c, RecvSleeping(w))
              else spin > 0 && s.threads[t] == Receiver(c, RecvSpinning(spin - 1))
    {
      hide Inv, FillsInOrder, Next, And, Not;
      RecvFlagWords(recv);
      RecvPollIs(s, t);
      word := recv;
      if spin == 0 {
        word := And(recv, Not(SLEEPING));
      }
      recv := word;
      Follow(RecvPoll(t));
    }

    /** `atomic_sleep(recv, expected)`. */
    method SleepOnRecv(t: nat, expected: bv32)
      requires Valid() && AtRecv(s, t) && s.threads[t].on == RecvSleeping(RecvView(expected))
      modifies this, bag
      ensures Valid() && AtRecv(s, t) && s.threads[t] == Receiver(old(s).threads[t].recv, RecvWoken) && tries == old(tries)
    {
      hide Inv, FillsInOrder, Next, SendView, RecvView;
      ViewsAreFaithful(recv, expected);
      RecvSleepIs(s, t);
      Follow(RecvSleep(t));
      if recv == expected {
        SpuriousIs(s, t);
        Follow(SpuriousWake(t));
      }
    }

    /** `recv.fetch_and(!SLEEPING)` after waking up. */
    method RearmRecv(t: nat)
      requires Valid() && AtRecv(s, t) && s.threads[t].on.RecvWoken?
      modifies this`recv, this`s
      ensures Valid() && AtRecv(s, t) && s.threads[t] == Receiver(old(s).threads[t].recv, Claiming(true))
    {
      hide Inv, FillsInOrder, Next, And, Not;
      RecvFlagWords(recv);
      RecvRearmIs(s, t);
      recv := And(recv, Not(SLEEPING));
      Follow(RecvRearm(t));
    }

    /** What `recv` does over an empty bag. */
    method AwaitItems(t: nat) returns (disconnected: bool)
      requires Valid() && AtRecv(s, t) && s.threads[t].on == RecvSpinning(32)
      modifies this, bag
      ensures Valid() && t < |s.threads| && tries == old(tries)
      ensures if disconnected then Reported(t, RecvFailed(true))
              else AtRecv(s, t) && s.threads[t].recv == old(s).threads[t].recv && s.threads[t].on.Claiming?
    {
      hide Inv, FillsInOrder, Next, And, Not, SendView, RecvView;
      var spin: nat, expected := 32, recv;
      while true
        invariant Valid() && AtRecv(s, t) && s.threads[t] == Receiver(old(s).threads[t].recv, RecvSpinning(spin))
        invariant tries == old(tries)
        decreases spin
      {
        Others(t);
        var word := PollRecv(t, spin);
        EmptyWord(word);
        ContainsFlag(word);
        if And(word, Not(STATUS)) > 0 {
          return false;
        }
        if And(Not(word), COUNTERPARTY_DEAD) == COUNTERPARTY_DEAD {
          return true;
        }
        if And(Not(word), SLEEPING) == SLEEPING {
          expected := word;
          break;
        }
        spin := spin - 1;
      }
      Others(t);
      SleepOnRecv(t, expected);
      Others(t);
      RearmRecv(t);
      return false;
    }

    /** `recv`, giving up after `patience` rounds with nothing to report. */
    method Recv(t: nat, h: nat, patience: nat) returns (done: bool, values: Option<seq<Item>>)
      requires Valid() && t < |s.threads| && s.threads[t].Idle? && h in s.receivers
      modifies this, bag
      ensures Valid()
      ensures done ==> Reported(t, if values.Some? then RecvReturned(values.value) else RecvFailed(true))
      ensures !done ==> AtRecv(s, t) && s.threads[t].on.Claiming? && tries == old(tries) + patience
    {
      hide Inv, FillsInOrder, Next;
      StartRecvCall(t, h, true);
      var rounds := 0;
      while rounds < patience
        invariant rounds <= patience && tries == old(tries) + rounds
        invariant Valid() && AtRecv(s, t) && s.threads[t].recv == RecvCall(h, true) && s.threads[t].on.Claiming?
      {
        rounds := rounds + 1;
        var disconnected;
        values, disconnected := ReceiveItems(t);
        if values.Some? || disconnected {
          return true, values;
        }
        disconnected := AwaitItems(t);
        if disconnected {
          return true, None;
        }
      }
      return false, None;
    }

    // ----- Inner::drop

    /** `drain_mask(values, ..)` in `drop`: drops the values, each once. */
    method DropValues(values: bv32) returns (dropped: seq<Item>)
      requires NoStatus(values) && forall i :: i in Slots(values) ==> i < bag.Length && bag[i].Some?
      modifies bag
      ensures bag[..] == Rest(old(bag[..]), Slots(values))
      ensures multiset(dropped) == Total(Kept(old(bag[..]), Slots(values)), InSlot)
    {
      hide And, Not, Has, Bit, Total, Slots;
      dropped := [];
      ghost var before := bag[..];
      var mask := values;
      while true
        invariant NoStatus(mask) && Slots(mask) <= Slots(values)
        invariant bag[..] == Rest(before, Slots(values) - Slots(mask))
        invariant multiset(dropped) + Total(Kept(before, Slots(mask)), InSlot) == Total(Kept(before, Slots(values)), InSlot)
        decreases |Slots(mask)|
      {
        var i := LeadingZeros(mask);
        FirstSlot(mask, i);
        if i >= SLOTS {
          break;
        }
        OneDropped(before, Slots(mask), i, dropped);
        dropped := dropped + [bag[i].value];
        bag[i] := None;
        ClearAt(mask, i);
        ClearedStatus(mask, i);
        mask := And(mask, Not(Bit(i)));
      }
      NothingKept(before, Slots(mask));
      Nothing(multiset(dropped));
      assert Slots(values) - Slots(mask) == Slots(values);
    }

    /** Drops what is still committed; then every item has been handed out or dropped. */
    method Drop() returns (dropped: seq<Item>)
      requires Valid() && Enabled(s, DropBag)
      modifies this`s, bag
      ensures s == Next(old(s), DropBag) && Inv(s) && bag[..] == s.bag
      ensures s.log == old(s).log + [Dropped(multiset(dropped))]
    {
      hide Inv, FillsInOrder, Next, Enabled, And, Not, Has, Total, SendView;
      var values := And(recv, Not(STATUS));
      OnlySlots(recv);
      CommittedAreFull(s);
      dropped := DropValues(values);
      DropBagIs(s);
      Follow(DropBag);
    }
  }
}
