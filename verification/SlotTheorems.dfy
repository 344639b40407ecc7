/** What holds of the one-place channel in every reachable state and over every run. */
module SlotTheorems {
  import opened Tally
  import opened Slot
  import opened SlotInvariant
  import SlotSteps

  // ----- runs

  ghost predicate Step(s: State, a: Action, s': State) {
    Enabled(s, a) && s' == Next(s, a)
  }

  ghost predicate Run(trace: seq<State>, acts: seq<Action>) {
    && |trace| == |acts| + 1
    && forall k :: 0 <= k < |acts| ==> Step(trace[k], acts[k], trace[k + 1])
  }

  ghost predicate Reachable(s: State) {
    exists trace, acts :: Run(trace, acts) && Initial(trace[0]) && trace[|acts|] == s
  }

  lemma InitialInv(s: State)
    requires Initial(s)
    ensures Inv(s)
  {
    NothingHeld(s.threads);
    CondemnedBound(s.threads);
  }

  lemma {:induction false} NothingHeld(threads: seq<Thread>)
    requires forall t :: 0 <= t < |threads| ==> threads[t].Idle?
    ensures Total(threads, HeldBy) == multiset{}
  {
    if threads != [] {
      NothingHeld(threads[..|threads| - 1]);
    }
  }

  /** The invariant holds in every state of every run. */
  lemma {:induction false} RunInv(trace: seq<State>, acts: seq<Action>, k: nat)
    requires Run(trace, acts) && Inv(trace[0]) && k <= |acts|
    ensures Inv(trace[k])
  {
    hide Inv, Next, Enabled;
    if k > 0 {
      RunInv(trace, acts, k - 1);
      assert Step(trace[k - 1], acts[k - 1], trace[k - 1 + 1]);
      SlotSteps.StepKeeps(trace[k - 1], acts[k - 1]);
    }
  }

  lemma ReachableInv(s: State)
    requires Reachable(s)
    ensures Inv(s)
  {
    hide Inv, Next, Enabled, Initial;
    var trace, acts :| Run(trace, acts) && Initial(trace[0]) && trace[|acts|] == s;
    InitialInv(trace[0]);
    RunInv(trace, acts, |acts|);
  }

  // ----- exclusion

  /** From its reservation to its commit a sender has the slot to itself; from the moment
      the receiver clears COMMIT to the moment it releases the reservation, the receiver
      has it; and over a committed value nobody writes.  Nothing is ever written over a
      value or read from an empty slot. */
  lemma OneAccessAtATime(s: State)
    requires Reachable(s)
    ensures !s.fault
    ensures forall t, u :: 0 <= t < |s.threads| && 0 <= u < |s.threads| && Owns(s.threads[t]) && Owns(s.threads[u]) ==> t == u
    ensures forall t :: 0 <= t < |s.threads| && Owns(s.threads[t]) ==>
              !s.recv.commit && !s.receiver.Clearing? && !Draining(s.receiver)
    ensures Draining(s.receiver) ==> !s.recv.commit
  {
    hide HandlesOk, CountOk, SleepersOk, OrderOk, ItemsOk, SentOk, ReceiverWakeOk, SenderWakeOk;
    ReachableInv(s);
  }

  /** While the receiver lives, a count of zero means that the slot is free, and only that. */
  lemma ZeroReservationsMeansFree(s: State)
    requires Reachable(s) && !s.receiver.WakingSenders? && !s.receiver.Gone?
    ensures s.send.count == 0 <==>
              !s.recv.commit && !Draining(s.receiver) && forall t :: 0 <= t < |s.threads| ==> !Owns(s.threads[t])
    ensures s.send.count == 0 ==> s.slot == None
  {
    hide CountOk, SleepersOk, OrderOk, ItemsOk, SentOk, ReceiverWakeOk, SenderWakeOk;
    ReachableInv(s);
    SlotSteps.DeadShown(s);
    hide HandlesOk;
  }

  // ----- the reservation counter

  /** On x86-64 the losers drive the counter up, but never past `ABORT + 1` plus the calls
      that are bound to abort, so no reservation carries into a flag or wraps to zero. */
  lemma CounterNeverCarries(s: State)
    requires Reachable(s)
    ensures s.target.X86_64? ==> s.send.count <= ABORT + 1 + Condemned(s.threads) && s.send.count < 2 * ABORT
    ensures s.target.Portable? ==> s.send.count <= 1
    ensures forall t: nat :: At(s, t) && !s.threads[t].at.Aborting? ==>
              BumpWord(s.target, s.send) == s.send.(count := if s.target.Portable? then 1 else s.send.count + 1)
  {
    hide HandlesOk, SleepersOk, HolderOk, SlotOk, OrderOk, ItemsOk, SentOk, ReceiverWakeOk, SenderWakeOk, BumpWord;
    ReachableInv(s);
    CondemnedBound(s.threads);
    forall t: nat | At(s, t) && !s.threads[t].at.Aborting?
      ensures BumpWord(s.target, s.send) == s.send.(count := if s.target.Portable? then 1 else s.send.count + 1)
    {
      SlotSteps.NoCarry(s, t);
    }
  }

  // ----- order and conservation

  /** Everything the receiver has read, in order; or dropped with the channel. */
  function TakenOut(s: State): seq<Item> {
    AllLeft(s.log) + InHand(s.receiver)
  }

  /** First in, first out: what was taken out is what was committed, in that order, except
      for the one item that may still be in the slot. */
  lemma TakenInOrder(s: State)
    requires Reachable(s)
    ensures TakenOut(s) <= s.committed && |s.committed| <= |TakenOut(s)| + 1
    ensures |s.committed| == |TakenOut(s)| + 1 <==> s.recv.commit || s.receiver.Reading?
    ensures s.recv.commit ==> s.slot.Some? && s.committed == TakenOut(s) + [s.slot.value]
  {
    hide HandlesOk, CountOk, SleepersOk, HolderOk, ItemsOk, SentOk, ReceiverWakeOk, SenderWakeOk, AllLeft;
    ReachableInv(s);
  }

  /** Every item handed to a `send` was handed back, is with a call that has not committed
      it, was taken out, or is in the slot: each exactly once. */
  lemma NothingLostOrDuplicated(s: State)
    requires Reachable(s)
    ensures Total(s.log, HandedIn)
            == Total(s.log, HandedBack) + Total(s.threads, HeldBy) + multiset(TakenOut(s)) + multiset(Unread(s))
  {
    hide HandlesOk, CountOk, SleepersOk, HolderOk, SlotOk, ReceiverWakeOk, SenderWakeOk, AllLeft, Total, InHand, Unread;
    ReachableInv(s);
    Split(TakenOut(s), Unread(s), s.committed);
    Regroup(Total(s.log, HandedBack) + Total(s.threads, HeldBy), multiset(TakenOut(s)), multiset(Unread(s)));
  }

  lemma Split(a: seq<Item>, b: seq<Item>, c: seq<Item>)
    requires c == a + b
    ensures multiset(c) == multiset(a) + multiset(b)
  {
  }

  lemma Regroup(a: multiset<Item>, b: multiset<Item>, c: multiset<Item>)
    ensures a + (b + c) == a + b + c
  {
  }

  /** When the channel is dropped, a value still committed is dropped with it, once, and
      then every item has been handed back or taken out. */
  lemma DroppedSlotIsEmpty(s: State)
    requires Reachable(s) && Enabled(s, DropSlot)
    ensures var s' := Next(s, DropSlot);
            && !s'.fault && s'.slot == None && AllLeft(s'.log) == s'.committed == s.committed
            && s.committed == AllLeft(s.log) + (if s.recv.commit then [s.slot.value] else [])
            && Total(s'.log, HandedIn) == Total(s'.log, HandedBack) + multiset(AllLeft(s'.log))
  {
    hide Inv, AllLeft, Total;
    var s' := Next(s, DropSlot);
    ReachableInv(s);
    SlotSteps.DropSlotKeeps(s);
    NothingHeld(s'.threads);
    SlotAtTheEnd(s);
    SlotAtTheEnd(s');
    Nothing(Total(s'.log, HandedBack));
    BooksAtTheEnd(s');
  }

  lemma SlotAtTheEnd(s: State)
    requires Inv(s) && s.receiver.Gone? && forall t :: 0 <= t < |s.threads| ==> s.threads[t].Idle?
    ensures !s.fault && (s.slot.Some? <==> s.recv.commit)
    ensures s.committed == AllLeft(s.log) + (if s.recv.commit then [s.slot.value] else [])
  {
    hide HandlesOk, CountOk, SleepersOk, ItemsOk, SentOk, ReceiverWakeOk, SenderWakeOk, AllLeft;
  }

  lemma BooksAtTheEnd(s: State)
    requires Inv(s)
    ensures Total(s.log, HandedIn) == Total(s.log, HandedBack) + Total(s.threads, HeldBy) + multiset(s.committed)
  {
    hide HandlesOk, CountOk, SleepersOk, HolderOk, SlotOk, OrderOk, ReceiverWakeOk, SenderWakeOk, Total;
  }

  // ----- wake-ups of the receiver

  /** The receiver never sleeps through a commit or a hang-up: a wake is in flight. */
  lemma ReceiverWakeUpIsComplete(s: State)
    requires Reachable(s) && s.receiver.RecvParked?
    ensures s.recv.commit || s.recv.dead ==> ReceiverWakeComing(s)
    ensures s.senders == {} ==> ReceiverWakeComing(s) || exists t :: Hanging(s, t)
  {
    hide CountOk, SleepersOk, HolderOk, SlotOk, OrderOk, ItemsOk, SentOk, SenderWakeOk;
    ReachableInv(s);
  }

  // ----- wake-ups of the senders

  /** A blocked sender with a live receiver: the receiver is about to wake one, a woken
      sender has yet to raise SLEEPING again, or SLEEPING is on and either the slot is taken
      or a sender is on its way to `try_send`. */
  lemma BlockedSenderHasWakeSource(s: State, u: nat)
    requires Reachable(s) && u < |s.threads| && IsParked(s.threads[u])
    requires !s.receiver.WakingSenders? && !s.receiver.Gone?
    ensures || s.receiver.WakingSender? || Present(s, Rearming)
            || (s.send.sleeping && (s.send.count > 0 || Present(s, Heading)))
  {
    hide CountOk, SleepersOk, HolderOk, SlotOk, OrderOk, ItemsOk, SentOk, ReceiverWakeOk;
    ReachableInv(s);
    assert RoleOf(s.threads[u]) == Parked;
  }

  /** Nobody is doing anything. */
  ghost predicate Quiescent(s: State) {
    && (s.receiver.Resting? || s.receiver.RecvParked?)
    && forall t :: 0 <= t < |s.threads| ==> s.threads[t].Idle? || IsParked(s.threads[t])
  }

  /** When all has come to rest, a parked receiver means an empty slot, and a parked sender a
      committed value, whose receiver will find SLEEPING on. */
  lemma AtRest(s: State, u: nat)
    requires Reachable(s) && Quiescent(s)
    ensures s.receiver.RecvParked? ==> !s.recv.commit && s.send.count == 0 && !s.recv.dead
    ensures u < |s.threads| && IsParked(s.threads[u]) ==> s.recv.commit && s.send.sleeping
  {
    hide CountOk, SleepersOk, OrderOk, ItemsOk, SentOk;
    ReachableInv(s);
    SlotSteps.DeadShown(s);
    hide HandlesOk;
    assert s.holder.None?;
    assert !ReceiverWakeComing(s) && !Present(s, Heading) && !Present(s, Rearming);
    if u < |s.threads| && IsParked(s.threads[u]) {
      assert RoleOf(s.threads[u]) == Parked;
    }
  }

  function ThreadOf(a: Action): Option<nat> {
    match a
    case CloneSender(_, _) => None
    case StartRecv(_) => None
    case Load => None
    case Clear => None
    case Read => None
    case Release => None
    case WakeSender(_) => None
    case Arm => None
    case RecvSleep => None
    case SpuriousRecvWake => None
    case DropReceiver => None
    case WakeSenders => None
    case DropSlot => None
    case _ => Some(a.t)
  }

  /** Never jammed: no reachable state has a sender and the receiver both asleep in the futex
      and every other thread at rest. */
  lemma NeverJams(s: State, u: nat)
    requires Reachable(s) && !s.aborted && u < |s.threads| && IsParked(s.threads[u]) && s.receiver.RecvParked?
    ensures exists w: nat, a :: w < |s.threads| && !s.threads[w].Idle? && !IsParked(s.threads[w])
                           && Enabled(s, a) && ThreadOf(a) == Some(w)
  {
    hide Enabled;
    if Quiescent(s) {
      AtRest(s, u);
    } else {
      var w: nat :| w < |s.threads| && !s.threads[w].Idle? && !IsParked(s.threads[w]);
      var a := CanStep(s, w);
    }
  }

  lemma CanStep(s: State, t: nat) returns (a: Action)
    requires !s.aborted && t < |s.threads| && !s.threads[t].Idle? && !IsParked(s.threads[t])
    ensures Enabled(s, a) && ThreadOf(a) == Some(t)
  {
    match s.threads[t]
    case Dropper(HangingUp) => a := HangUp(t);
    case Dropper(WakingOnHangUp) => a := WakeOnHangUp(t);
    case Sender(_, at) =>
      match at {
        case Reserving => a := Reserve(t);
        case Aborting => a := Abort(t);
        case Writing => a := Write(t);
        case Committing => a := Commit(t);
        case WakingReceiver => a := WakeReceiver(t);
        case SendSpinning(_) => a := SendPoll(t);
        case SendSleeping(_) => a := SendSleep(t);
        case SendWoken => a := SendRearm(t);
      }
  }
}
