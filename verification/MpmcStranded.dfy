/** The last drop on one side does not always wake everybody on the other: exactly when it
    does, and a run in which it does not. */
module MpmcStranded {
  import opened Status
  import opened Tally
  import opened Mpmc
  import opened MpmcInvariant
  import opened MpmcTheorems
  import opened MpmcDisconnect
  import MpmcSteps
  import Masks

  // ----- parked for good

  /** Receiver `u` is parked and no thread is left that could ever wake it. */
  ghost predicate StrandedReceiver(s: State, u: nat) {
    && u < |s.threads| && IsReceiverParked(s.threads[u])
    && s.senders == map[]
    && forall t :: 0 <= t < |s.threads| ==> !s.threads[t].Sender? && !DropsSender(s.threads[t])
  }

  ghost predicate StrandedSender(s: State, u: nat) {
    && u < |s.threads| && IsSenderParked(s.threads[u])
    && s.receivers == {}
    && forall t :: 0 <= t < |s.threads| ==> !s.threads[t].Receiver? && !DropsReceiver(s.threads[t])
  }

  /** Only a spurious wake-up gets it out. */
  lemma StrandedReceiverStays(s: State, a: Action, u: nat)
    requires StrandedReceiver(s, u) && Enabled(s, a) && a != SpuriousWake(u)
    ensures StrandedReceiver(Next(s, a), u)
  {
    hide Next;
    if OfReceiver(a) {
      ReceiverStaysByReceiver(s, a, u);
    } else {
      assert !OfSender(a);
      ReceiverStaysByHandle(s, a, u);
    }
  }

  lemma ReceiverStaysByReceiver(s: State, a: Action, u: nat)
    requires StrandedReceiver(s, u) && Enabled(s, a) && OfReceiver(a)
    ensures StrandedReceiver(Next(s, a), u)
  {
    hide Assign;
  }

  lemma ReceiverStaysByHandle(s: State, a: Action, u: nat)
    requires StrandedReceiver(s, u) && Enabled(s, a) && a != SpuriousWake(u) && !OfReceiver(a) && !OfSender(a)
    ensures StrandedReceiver(Next(s, a), u)
  {
    hide SenderInUse, ReceiverInUse, Assign, Total;
  }

  lemma StrandedSenderStays(s: State, a: Action, u: nat)
    requires StrandedSender(s, u) && Enabled(s, a) && a != SpuriousWake(u)
    ensures StrandedSender(Next(s, a), u)
  {
    hide Next, Masks.Trimmed;
    if OfSender(a) {
      SenderStaysBySender(s, a, u);
    } else {
      assert !OfReceiver(a);
      SenderStaysByHandle(s, a, u);
    }
  }

  lemma SenderStaysBySender(s: State, a: Action, u: nat)
    requires StrandedSender(s, u) && Enabled(s, a) && OfSender(a)
    ensures StrandedSender(Next(s, a), u)
  {
    hide Enabled, Next;
    if OfFilling(a) {
      SenderStaysByFilling(s, a, u);
    } else {
      SenderStaysByWaiting(s, a, u);
    }
  }

  lemma SenderStaysByFilling(s: State, a: Action, u: nat)
    requires StrandedSender(s, u) && Enabled(s, a) && OfFilling(a)
    ensures StrandedSender(Next(s, a), u)
  {
    hide Assign, Masks.Trimmed;
  }

  lemma SenderStaysByWaiting(s: State, a: Action, u: nat)
    requires StrandedSender(s, u) && Enabled(s, a) && OfSender(a) && !OfFilling(a)
    ensures StrandedSender(Next(s, a), u)
  {
  }

  lemma SenderStaysByHandle(s: State, a: Action, u: nat)
    requires StrandedSender(s, u) && Enabled(s, a) && a != SpuriousWake(u) && !OfReceiver(a) && !OfSender(a)
    ensures StrandedSender(Next(s, a), u)
  {
    hide SenderInUse, ReceiverInUse, Assign, Total;
  }

  /** Parked for good: in every later state of a run in which the kernel does not wake it for
      no reason. */
  lemma {:induction false} StrandedReceiverForGood(trace: seq<State>, acts: seq<Action>, u: nat, i: nat, j: nat)
    requires Run(trace, acts) && i <= j <= |acts| && StrandedReceiver(trace[i], u)
    requires forall k :: i <= k < j ==> acts[k] != SpuriousWake(u)
    ensures StrandedReceiver(trace[j], u)
  {
    hide Next, Enabled, StrandedReceiver;
    if i < j {
      StrandedReceiverForGood(trace, acts, u, i, j - 1);
      assert Step(trace[j - 1], acts[j - 1], trace[j - 1 + 1]);
      StrandedReceiverStays(trace[j - 1], acts[j - 1], u);
    }
  }

  lemma {:induction false} StrandedSenderForGood(trace: seq<State>, acts: seq<Action>, u: nat, i: nat, j: nat)
    requires Run(trace, acts) && i <= j <= |acts| && StrandedSender(trace[i], u)
    requires forall k :: i <= k < j ==> acts[k] != SpuriousWake(u)
    ensures StrandedSender(trace[j], u)
  {
    hide Next, Enabled, StrandedSender;
    if i < j {
      StrandedSenderForGood(trace, acts, u, i, j - 1);
      assert Step(trace[j - 1], acts[j - 1], trace[j - 1 + 1]);
      StrandedSenderStays(trace[j - 1], acts[j - 1], u);
    }
  }

  // ----- exactly when the last drop wakes everybody

  /** Some thread is about to wake every parked receiver. */
  ghost predicate RescueComing(s: State) {
    exists t :: 0 <= t < |s.threads| && s.threads[t] == Dropper(WakingReceivers)
  }

  ghost predicate SenderRescueComing(s: State) {
    exists t :: 0 <= t < |s.threads| && s.threads[t] == Dropper(WakingSenders)
  }

  /** When the last sender hangs up, the parked receivers will all be woken if SLEEPING is on
      in `recv` at that moment; otherwise every one of them is stranded. */
  lemma LastSenderRescuesIffSleeping(s: State, t: nat, u: nat)
    requires Inv(s) && Enabled(s, HangUpSender(t)) && u < |s.threads| && IsReceiverParked(s.threads[u])
    ensures var s' := Next(s, HangUpSender(t));
            && (RescueComing(s') <==> s.recv.sleeping)
            && (StrandedReceiver(s', u) <==> !s.recv.sleeping)
  {
    hide WakeOk, ItemsOk, LogOk, OwnedOk, BagOk, ThreadsOk, ReceiversOk;
    var s' := Next(s, HangUpSender(t));
    assert HangingSender(s, t);
    forall v: nat | v < |s.threads| && v != t
      ensures !s.threads[v].Sender? && !DropsSender(s.threads[v])
    {
      assert DropsSender(s.threads[v]) ==> HangingSender(s, v);
    }
    if s.recv.sleeping {
      assert s'.threads[t] == Dropper(WakingReceivers);
    } else {
      forall v | 0 <= v < |s'.threads|
        ensures !s'.threads[v].Sender? && !DropsSender(s'.threads[v])
      {
        assert v != t ==> s'.threads[v] == s.threads[v];
      }
    }
  }

  lemma LastReceiverRescuesIffSleeping(s: State, t: nat, u: nat)
    requires Inv(s) && Enabled(s, HangUpReceiver(t)) && u < |s.threads| && IsSenderParked(s.threads[u])
    ensures var s' := Next(s, HangUpReceiver(t));
            && (SenderRescueComing(s') <==> s.send.sleeping)
            && (StrandedSender(s', u) <==> !s.send.sleeping)
  {
    hide WakeOk, ItemsOk, LogOk, OwnedOk, BagOk, ThreadsOk, SendersOk;
    var s' := Next(s, HangUpReceiver(t));
    assert HangingReceiver(s, t);
    forall v: nat | v < |s.threads| && v != t
      ensures !s.threads[v].Receiver? && !DropsReceiver(s.threads[v])
    {
      assert DropsReceiver(s.threads[v]) ==> HangingReceiver(s, v);
    }
    if s.send.sleeping {
      assert s'.threads[t] == Dropper(WakingSenders);
    } else {
      forall v | 0 <= v < |s'.threads|
        ensures !s'.threads[v].Receiver? && !DropsReceiver(s'.threads[v])
      {
        assert v != t ==> s'.threads[v] == s.threads[v];
      }
    }
  }

  /** The rescue empties the futex, and a thread that sees the flag never parks again. */
  lemma RescueWakesAll(s: State, t: nat)
    requires Enabled(s, WakeReceivers(t))
    ensures forall u :: 0 <= u < |s.threads| ==> !IsReceiverParked(Next(s, WakeReceivers(t)).threads[u])
  {
  }

  lemma SenderRescueWakesAll(s: State, t: nat)
    requires Enabled(s, WakeSenders(t))
    ensures forall u :: 0 <= u < |s.threads| ==> !IsSenderParked(Next(s, WakeSenders(t)).threads[u])
  {
  }

  lemma NoSenderParksAfterHangUp(s: State, t: nat)
    requires Inv(s) && s.send.dead && Enabled(s, SendSleep(t))
    ensures !IsSenderParked(Next(s, SendSleep(t)).threads[t])
  {
    MpmcSteps.Facts(s, t);
  }

  lemma NobodyParksAfterHangUp(s: State, t: nat)
    requires Inv(s) && s.recv.dead && Enabled(s, RecvSleep(t))
    ensures !IsReceiverParked(Next(s, RecvSleep(t)).threads[t])
  {
    MpmcSteps.Facts(s, t);
  }

  // ----- a run that strands a receiver

  lemma Extend(s: State, a: Action)
    requires Reachable(s) && Enabled(s, a)
    ensures Reachable(Next(s, a))
  {
    hide Next, Enabled, Initial;
    var trace, acts :| Run(trace, acts) && Initial(trace[0]) && trace[|acts|] == s;
    var trace', acts' := trace + [Next(s, a)], acts + [a];
    forall k | 0 <= k < |acts'|
      ensures Step(trace'[k], acts'[k], trace'[k + 1])
    {
      if k < |acts| {
        assert Step(trace[k], acts[k], trace[k + 1]);
      }
    }
    assert Run(trace', acts') && trace'[0] == trace[0] && trace'[|acts'|] == Next(s, a);
  }

  /** Three threads, one handle on each side. */
  ghost predicate Scene(s: State, recv: Word, t0: Thread, t1: Thread, t2: Thread) {
    && Reachable(s) && s.threads == [t0, t1, t2] && s.recv == recv
    && s.receivers == {0} && s.senders == map[0 := 0] && s.numSenders == 1
    && s.send == Word({}, false, false) && |s.bag| == SLOTS && s.bag[0].None?
  }

  const RC := RecvCall(0, true)
  const Quiet := Word({}, false, false)
  const Asleep := Word({}, false, true)

  lemma Start() returns (s: State)
    ensures Scene(s, Quiet, Idle, Idle, Idle)
  {
    s := State(Quiet, Quiet, seq(SLOTS, _ => None), 1, 1, map[0 := 0], {0}, [Idle, Idle, Idle], true, false,
               seq(SLOTS, _ => Free), []);
    var none: seq<Action> := [];
    assert Run([s], none) && Initial([s][0]) && [s][|none|] == s;
  }

  lemma {:induction false} SpinDown(s: State, k: nat) returns (s': State)
    requires Scene(s, Quiet, Receiver(RC, RecvSpinning(k)), Idle, Idle)
    ensures Scene(s', Quiet, Receiver(RC, RecvSpinning(0)), Idle, Idle)
    decreases k
  {
    hide Reachable;
    s' := s;
    if k > 0 {
      Extend(s, RecvPoll(0));
      s' := SpinDown(Next(s, RecvPoll(0)), k - 1);
    }
  }

  lemma ParkFirst() returns (s: State)
    ensures Scene(s, Asleep, Receiver(RC, RecvParked), Idle, Idle)
  {
    hide Reachable;
    s := Start();
    Extend(s, StartRecv(0, 0, true));
    s := Next(s, StartRecv(0, 0, true));
    Extend(s, Claim(0));
    s := Next(s, Claim(0));
    s := SpinDown(s, 32);
    Extend(s, RecvPoll(0));
    s := Next(s, RecvPoll(0));
    Extend(s, RecvSleep(0));
    s := Next(s, RecvSleep(0));
  }

  lemma ParkSecond() returns (s: State)
    ensures Scene(s, Asleep, Receiver(RC, RecvParked), Receiver(RC, RecvParked), Idle)
  {
    hide Reachable;
    s := ParkFirst();
    Extend(s, StartRecv(1, 0, true));
    s := Next(s, StartRecv(1, 0, true));
    Extend(s, Claim(1));
    s := Next(s, Claim(1));
    Extend(s, RecvPoll(1));
    s := Next(s, RecvPoll(1));
    Extend(s, RecvSleep(1));
    s := Next(s, RecvSleep(1));
  }

  /** A third thread sends one item through the only sender: it wakes the first receiver. */
  lemma SendOne(x: Item) returns (s: State)
    ensures Reachable(s) && s.threads == [Receiver(RC, RecvWoken), Receiver(RC, RecvParked), Idle]
    ensures s.recv == Word({0}, false, false) && s.senders == map[0 := 0] && s.numSenders == 1
  {
    hide Reachable;
    s := ParkSecond();
    Extend(s, StartSend(2, 0, false, [x]));
    s := Next(s, StartSend(2, 0, false, [x]));
    var c := SendCall(0, 0, false, [x]);
    assert FirstMask(c) == {0};
    assert s.threads[2] == Sender(c, Reserving({0}));
    OneSlotTrimmed();
    Extend(s, Reserve(2, {29}));
    s := Next(s, Reserve(2, {29}));
    assert s.threads[2] == Sender(c, Filling([x], {0}, {0}));
    Extend(s, Fill(2, 0));
    s := Next(s, Fill(2, 0));
    assert s.threads[2] == Sender(c, Filling([], {0}, {}));
    s := CommitAndWake(s, c);
  }

  lemma OneSlotTrimmed()
    ensures Masks.Trimmed(AllSlots - {}, {29}, 1, true)
  {
    assert AllSlots - {} == AllSlots;
    MpmcSteps.AllSlotsSize();
  }

  lemma CommitAndWake(s: State, c: SendCall) returns (s': State)
    requires Reachable(s) && s.recv == Asleep && s.senders == map[0 := 0] && s.numSenders == 1
    requires s.threads == [Receiver(RC, RecvParked), Receiver(RC, RecvParked), Sender(c, Filling([], {0}, {}))]
    ensures Reachable(s') && s'.threads == [Receiver(RC, RecvWoken), Receiver(RC, RecvParked), Idle]
    ensures s'.recv == Word({0}, false, false) && s'.senders == map[0 := 0] && s'.numSenders == 1
  {
    hide Reachable, Assign;
    Extend(s, Commit(2));
    s' := Next(s, Commit(2));
    assert s'.recv == Word({0}, false, false);
    Extend(s', WakeReceiver(2, Some(0)));
    s' := Next(s', WakeReceiver(2, Some(0)));
  }

  /** Two receivers are parked, one send wakes the first of them, and the sender is dropped
      before it has raised SLEEPING again: the second one is never woken. */
  lemma AReceiverCanBeStranded(x: Item)
    ensures exists s, u :: Reachable(s) && StrandedReceiver(s, u)
  {
    hide Reachable;
    var s := SendOne(x);
    Extend(s, DropSender(2, 0));
    s := Next(s, DropSender(2, 0));
    assert s.threads[2] == Dropper(HangingUpSender);
    Extend(s, HangUpSender(2));
    s := Next(s, HangUpSender(2));
    assert s.senders == map[];
    assert StrandedReceiver(s, 1);
  }
}
