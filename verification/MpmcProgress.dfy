/** The bag never jams, loses no wake-up while the other side lives, and its reservation
    loop is lock-free. */
module MpmcProgress {
  import opened Status
  import opened Tally
  import opened Mpmc
  import opened MpmcInvariant
  import opened MpmcTheorems
  import opened MpmcDisconnect
  import MpmcSteps
  import Masks

  predicate Parked(th: Thread) {
    IsSenderParked(th) || IsReceiverParked(th)
  }

  /** Nobody is doing anything: every thread is idle or asleep in the futex. */
  ghost predicate Quiescent(s: State) {
    forall t :: 0 <= t < |s.threads| ==> s.threads[t].Idle? || Parked(s.threads[t])
  }

  // ----- wake-ups

  /** A thread is between its access to `recv` and its wake, or a woken receiver has yet to
      do its next `try_recv`. */
  ghost predicate DataWakeComing(s: State) {
    exists t :: 0 <= t < |s.threads| && RoleOf(s.threads[t]) in {RecvWaker, RecvIsWoken, RecvIsReturning}
  }

  /** No lost data wake-up: a receiver never sleeps over a committed item unless another
      receiver is on its way to it. */
  lemma NoLostDataWakeUp(s: State, u: nat)
    requires Reachable(s) && u < |s.threads| && IsReceiverParked(s.threads[u]) && s.recv.slots != {}
    ensures DataWakeComing(s)
  {
    hide SendersOk, ReceiversOk, OwnedOk, BagOk, ItemsOk, LogOk, ThreadsOk;
    ReachableInv(s);
    assert RoleOf(s.threads[u]) == RecvIsParked;
  }

  /** A blocked sender with a live receiver handle: a wake is in flight, a woken sender has
      not yet raised SLEEPING again, or SLEEPING is up together with a taken slot or with a
      sender about to take one. */
  lemma BlockedSenderHasWakeSource(s: State, u: nat)
    requires Reachable(s) && u < |s.threads| && IsSenderParked(s.threads[u]) && s.receivers != {}
    ensures || Present(s, SendWaker) || Present(s, SendIsWoken)
            || (s.send.sleeping && (s.send.slots != {} || Present(s, SendIsReserving)))
  {
    hide SendersOk, OwnedOk, BagOk, ItemsOk, LogOk, ThreadsOk;
    ReachableInv(s);
    assert RoleOf(s.threads[u]) == SendIsParked;
  }

  /** When everything has come to rest, a parked receiver means an empty bag, and a parked
      sender with a live receiver handle means a committed item whose receiver will find
      SLEEPING on and wake it. */
  lemma AtRest(s: State, u: nat)
    requires Reachable(s) && Quiescent(s) && u < |s.threads|
    ensures IsReceiverParked(s.threads[u]) ==> s.recv.slots == {} && s.send.slots == {}
    ensures IsSenderParked(s.threads[u]) && s.receivers != {} ==> s.send.sleeping && s.recv.slots != {}
  {
    hide ItemsOk, LogOk, ThreadsOk, SendersOk, BagOk, WakeOk;
    ReachableInv(s);
    RolesAtRest(s);
    if IsReceiverParked(s.threads[u]) {
      assert s.threads[u].recv.handle in s.receivers;
      RestingWakes(s, u);
      TakenAtRest(s);
    } else if IsSenderParked(s.threads[u]) && s.receivers != {} {
      RestingWakes(s, u);
      TakenAtRest(s);
    }
  }

  lemma RolesAtRest(s: State)
    requires Quiescent(s)
    ensures forall r :: Present(s, r) ==> r in {Other, RecvIsParked, SendIsParked}
  {
  }

  lemma RestingWakes(s: State, u: nat)
    requires WakeOk(s) && u < |s.threads|
    requires forall r :: Present(s, r) ==> r in {Other, RecvIsParked, SendIsParked}
    ensures IsReceiverParked(s.threads[u]) ==> s.recv.slots == {}
    ensures IsSenderParked(s.threads[u]) && !s.send.dead ==> s.send.sleeping && s.send.slots != {}
  {
    assert Present(s, RoleOf(s.threads[u]));
  }

  lemma TakenAtRest(s: State)
    requires OwnedOk(s) && Quiescent(s) && !s.send.dead
    ensures s.send.slots == s.recv.slots
  {
    assert forall t: nat :: t < |s.threads| ==> Reserved(s.threads[t]) == {} && Claimed(s.threads[t]) == {};
    forall i | i in s.send.slots
      ensures i in s.recv.slots
    {
      assert !s.owner[i].ReservedBy? && !s.owner[i].ClaimedBy?;
    }
  }

  /** Never jammed: no reachable state has a sender and a receiver both asleep in the futex
      and nobody else at work. */
  lemma NeverJams(s: State, t: nat, u: nat)
    requires Reachable(s) && t < |s.threads| && u < |s.threads|
    requires IsSenderParked(s.threads[t]) && IsReceiverParked(s.threads[u])
    ensures exists w: nat, a :: w < |s.threads| && !s.threads[w].Idle? && !Parked(s.threads[w])
                           && Enabled(s, a) && ThreadOf(a) == Some(w)
  {
    hide Enabled, WakeOk, ItemsOk, LogOk, OwnedOk, BagOk, ThreadsOk, SendersOk;
    ReachableInv(s);
    if Quiescent(s) {
      assert s.threads[u].recv.handle in s.receivers;
      AtRest(s, t);
      AtRest(s, u);
    } else {
      var w: nat :| w < |s.threads| && !s.threads[w].Idle? && !Parked(s.threads[w]);
      var a := CanStep(s, w);
    }
  }

  // ----- a thread that is not asleep can always go on

  function ThreadOf(a: Action): Option<nat> {
    match a
    case CloneSender(_, _) => None
    case CloneReceiver(_, _) => None
    case DropBag => None
    case _ => Some(a.t)
  }

  lemma CanStep(s: State, t: nat) returns (a: Action)
    requires Inv(s) && t < |s.threads| && !s.threads[t].Idle? && !Parked(s.threads[t])
    ensures Enabled(s, a) && ThreadOf(a) == Some(t)
  {
    hide Inv, Masks.Trimmed;
    match s.threads[t]
    case Sender(c, at) => a := SenderCanStep(s, t);
    case Receiver(c, on) => a := ReceiverCanStep(s, t);
    case Dropper(HangingUpSender) => a := HangUpSender(t);
    case Dropper(WakingReceivers) => a := WakeReceivers(t);
    case Dropper(HangingUpReceiver) => a := HangUpReceiver(t);
    case Dropper(WakingSenders) => a := WakeSenders(t);
  }

  lemma SenderCanStep(s: State, t: nat) returns (a: Action)
    requires Inv(s) && AtSend(s, t) && !s.threads[t].at.SendParked?
    ensures Enabled(s, a) && ThreadOf(a) == Some(t)
  {
    hide Inv, Masks.Trimmed;
    var c := s.threads[t].send;
    match s.threads[t].at
    case Reserving(_) =>
      var retry := TrimmedExists(AllSlots - s.send.slots, |c.given|, c.bias % 2 == 0);
      a := Reserve(t, retry);
    case Filling(_, _, left) =>
      if left == {} {
        a := Commit(t);
      } else {
        var slot := FirstExists(left);
        a := Fill(t, slot);
      }
    case WakingReceiver(_) =>
      if u: nat :| u < |s.threads| && IsReceiverParked(s.threads[u]) {
        a := WakeReceiver(t, Some(u));
      } else {
        a := WakeReceiver(t, None);
      }
    case SendSpinning(_) => a := SendPoll(t);
    case SendSleeping(_) => a := SendSleep(t);
    case SendWoken => a := SendRearm(t);
  }

  lemma ReceiverCanStep(s: State, t: nat) returns (a: Action)
    requires Inv(s) && AtRecv(s, t) && !s.threads[t].on.RecvParked?
    ensures Enabled(s, a) && ThreadOf(a) == Some(t)
  {
    hide Inv;
    match s.threads[t].on
    case Claiming(_) => a := Claim(t);
    case Draining(_, _, left) =>
      if left == {} {
        a := Release(t);
      } else {
        var slot := FirstExists(left);
        a := Drain(t, slot);
      }
    case WakingSender(_) =>
      if u: nat :| u < |s.threads| && IsSenderParked(s.threads[u]) {
        a := WakeSender(t, Some(u));
      } else {
        a := WakeSender(t, None);
      }
    case RecvSpinning(_) => a := RecvPoll(t);
    case RecvSleeping(_) => a := RecvSleep(t);
    case RecvWoken => a := RecvRearm(t);
  }

  lemma {:induction false} FirstExists(left: set<nat>) returns (slot: nat)
    requires left != {}
    ensures IsFirst(slot, left)
    decreases left
  {
    var x :| x in left;
    slot := x;
    if left - {x} != {} {
      var next := FirstExists(left - {x});
      if next < x {
        slot := next;
      }
    }
    assert forall i :: i in left ==> i == x || i in left - {x};
  }

  lemma {:induction false} LastExists(left: set<nat>) returns (slot: nat)
    requires left != {}
    ensures slot in left && forall i :: i in left ==> i <= slot
    decreases left
  {
    var x :| x in left;
    slot := x;
    if left - {x} != {} {
      var next := LastExists(left - {x});
      if next > x {
        slot := next;
      }
    }
    assert forall i :: i in left ==> i == x || i in left - {x};
  }

  /** There always is a mask to retry with. */
  lemma {:induction false} TrimmedExists(from: set<nat>, max: nat, low: bool) returns (to: set<nat>)
    ensures Masks.Trimmed(from, to, max, low)
    decreases from
  {
    if |from| <= max {
      to := from;
    } else {
      var x: nat;
      if low {
        x := FirstExists(from);
      } else {
        x := LastExists(from);
      }
      to := TrimmedExists(from - {x}, max, low);
    }
  }

  // ----- the reservation loop

  ghost predicate NowFilling(s: State, t: nat) {
    AtSend(s, t) && s.threads[t].at.Filling?
  }

  /** Slots are only ever taken by a reservation, and the thread that takes them goes on to
      fill them (unless the receivers are gone). */
  lemma OnlyReserveTakes(s: State, a: Action)
    requires Inv(s) && Enabled(s, a) && !(Next(s, a).send.slots <= s.send.slots)
    ensures a.Reserve?
    ensures s.send.dead || NowFilling(Next(s, a), a.t)
  {
    hide Inv, Masks.Trimmed, Enabled, Next;
    if a.Reserve? {
      MpmcSteps.Facts(s, a.t) by {
        EnabledReserve(s, a);
      }
      ReserveTakes(s, a.t, a.retry);
    } else if a.Commit? || a.Release? {
      SlotsNotTaken(s, a);
    } else {
      WordsKept(s, a);
    }
  }

  lemma EnabledReserve(s: State, a: Action)
    requires Enabled(s, a) && a.Reserve?
    ensures AtSend(s, a.t) && s.threads[a.t].at.Reserving?
  {
  }

  lemma SlotsNotTaken(s: State, a: Action)
    requires Enabled(s, a) && (a.Commit? || a.Release?)
    ensures Next(s, a).send.slots <= s.send.slots
  {
    hide Assign;
  }

  lemma ReserveTakes(s: State, t: nat, retry: set<nat>)
    requires Enabled(s, Reserve(t, retry)) && ThreadOk(s.threads[t])
    ensures var s' := Next(s, Reserve(t, retry));
            !(s'.send.slots <= s.send.slots) && !s.send.dead ==> AtSend(s', t) && s'.threads[t].at.Filling?
  {
    hide Assign, Masks.Trimmed;
    var mask := s.threads[t].at.mask;
    assert s.send.slots == AllSlots ==> mask <= s.send.slots;
    forall i | mask - s.send.slots == {} && i in mask
      ensures i in s.send.slots
    {
      assert i !in mask - s.send.slots;
    }
  }

  /** A reservation that fails because it found none of its slots free, and not because the
      bag was full, aims its next attempt at slots that were free just then. */
  lemma RetryAimsAtFreeSlots(s: State, t: nat, retry: set<nat>)
    requires Inv(s) && Enabled(s, Reserve(t, retry))
    requires var th' := Next(s, Reserve(t, retry)).threads[t]; th'.Sender? && th'.at.Reserving?
    ensures var s' := Next(s, Reserve(t, retry)); var mask := s'.threads[t].at.mask;
            mask == retry != {} && mask !! s'.send.slots && s'.send.slots == s.send.slots
  {
    hide Inv, Assign;
    MpmcSteps.Facts(s, t);
    MpmcSteps.Sizes(s);
    var c := s.threads[t].send;
    var mask := s.threads[t].at.mask;
    if s.send.slots != AllSlots {
      MpmcSteps.RetryOk(s, AllSlots - s.send.slots, retry, |c.given|, c.bias % 2 == 0);
    }
    forall i | i in mask
      ensures i in s.send.slots
    {
      assert i in AllSlots && (mask - s.send.slots == {} ==> i !in mask - s.send.slots);
    }
    assert s.send.slots + mask == s.send.slots;
  }

  /** Thread `t` has got exactly the slots in `slots` and has yet to fill them all. */
  predicate FillsAll(s: State, t: nat, slots: set<nat>) {
    AtSend(s, t) && s.threads[t].at == Filling(s.threads[t].send.given, slots, slots)
  }

  /** So a thread that nobody interferes with needs at most two `fetch_or`s: the attempt after
      a failed one gets exactly the slots it asks for. */
  lemma TwoAttemptsSuffice(s: State, s1: State, s2: State, t: nat, retry: set<nat>, again: set<nat>)
    requires AtSend(s1, t) && s1.threads[t].at.Reserving?
    requires Inv(s) && Step(s, Reserve(t, retry), s1) && Step(s1, Reserve(t, again), s2)
    ensures retry != {} && FillsAll(s2, t, retry)
  {
    hide Inv, Enabled, Next;
    RetryAimsAtFreeSlots(s, t, retry);
    RetryFacts(s, t, retry);
    FreshMaskSucceeds(s1, t, again);
  }

  lemma RetryFacts(s: State, t: nat, retry: set<nat>)
    requires Enabled(s, Reserve(t, retry))
    requires var th' := Next(s, Reserve(t, retry)).threads[t]; th'.Sender? && th'.at.Reserving?
    ensures var s' := Next(s, Reserve(t, retry));
            !s'.send.dead && s'.threads[t] == Sender(s.threads[t].send, Reserving(retry)) && s'.send.slots != AllSlots
  {
    hide Assign, Masks.Trimmed;
  }

  lemma FreshMaskSucceeds(s: State, t: nat, again: set<nat>)
    requires Enabled(s, Reserve(t, again)) && !s.send.dead && s.send.slots != AllSlots
    requires var mask := s.threads[t].at.mask; mask != {} && mask !! s.send.slots
    ensures FillsAll(Next(s, Reserve(t, again)), t, s.threads[t].at.mask)
  {
    hide Assign, Masks.Trimmed;
    var mask := s.threads[t].at.mask;
    assert mask - s.send.slots == mask;
  }

  /** A successful reservation takes between 1 and `items` slots that were free. */
  lemma ReservationGains(s: State, t: nat, retry: set<nat>)
    requires Inv(s) && Enabled(s, Reserve(t, retry))
    ensures var s' := Next(s, Reserve(t, retry)); var c := s.threads[t].send;
            match s'.threads[t]
            case Sender(_, Filling(data, reserved, left)) =>
              && 1 <= |reserved| <= |c.given| && reserved !! s.send.slots
              && s'.send.slots == s.send.slots + reserved && data == c.given && left == reserved
            case _ => s.send.dead || s'.send.slots == s.send.slots
  {
    hide Inv, Assign, Masks.Trimmed;
    MpmcSteps.Facts(s, t);
    var mask := s.threads[t].at.mask;
    var gained := mask - s.send.slots;
    MpmcSteps.SubsetSize(gained, mask);
    MpmcSteps.SubsetSize({}, gained);
    assert s.send.slots + gained == s.send.slots + mask;
    if s.send.slots == AllSlots || gained == {} {
      forall i | i in mask
        ensures i in s.send.slots
      {
        assert i in AllSlots && (gained == {} ==> i !in gained);
      }
      assert s.send.slots + mask == s.send.slots;
    }
  }
}
