/** Dropping the receiver does not always wake every sender: exactly when it does, and runs
    in which it does not, or in which a sender sleeps although the slot is free. */
module SlotStranded {
  import opened Tally
  import opened Slot
  import opened SlotInvariant
  import opened SlotTheorems
  import SlotSteps

  // ----- parked for good

  /** Sender `u` is parked, and the receiver, the only one to wake senders, is gone. */
  ghost predicate Stranded(s: State, u: nat) {
    u < |s.threads| && IsParked(s.threads[u]) && s.receiver.Gone?
  }

  /** Only a spurious wake-up gets it out. */
  lemma StrandedStays(s: State, a: Action, u: nat)
    requires Stranded(s, u) && Enabled(s, a) && a != SpuriousSendWake(u)
    ensures Stranded(Next(s, a), u)
  {
    hide BumpWord, FutexHalf;
  }

  /** Parked for good: in every later state of a run in which the kernel does not wake it for
      no reason. */
  lemma {:induction false} StrandedForGood(trace: seq<State>, acts: seq<Action>, u: nat, i: nat, j: nat)
    requires Run(trace, acts) && i <= j <= |acts| && Stranded(trace[i], u)
    requires forall k :: i <= k < j ==> acts[k] != SpuriousSendWake(u)
    ensures Stranded(trace[j], u)
  {
    hide Next, Enabled, Stranded;
    if i < j {
      StrandedForGood(trace, acts, u, i, j - 1);
      assert Step(trace[j - 1], acts[j - 1], trace[j - 1 + 1]);
      StrandedStays(trace[j - 1], acts[j - 1], u);
    }
  }

  /** When the receiver is dropped, all parked senders will be woken if SLEEPING is on at that
      moment; otherwise every one of them is stranded. */
  lemma DropRescuesIffSleeping(s: State, u: nat)
    requires Enabled(s, DropReceiver) && u < |s.threads| && IsParked(s.threads[u])
    ensures var s' := Next(s, DropReceiver);
            && (s'.receiver.WakingSenders? <==> s.send.sleeping)
            && (Stranded(s', u) <==> !s.send.sleeping)
  {
  }

  /** The rescue reaches everybody. */
  lemma RescueWakesAll(s: State)
    requires Enabled(s, WakeSenders)
    ensures forall u :: 0 <= u < |s.threads| ==> !IsParked(Next(s, WakeSenders).threads[u])
  {
  }

  ghost predicate Sleeping(s: State, t: nat) {
    At(s, t) && s.threads[t].at.SendSleeping?
  }

  /** No sender goes to sleep after the receiver is gone. */
  lemma NobodyParksAfterHangUp(s: State, t: nat)
    requires Inv(s) && s.send.dead && Sleeping(s, t)
    ensures SendSleepNext(s, t).threads[t].at.SendWoken?
  {
    hide Inv, FutexHalf;
    SleepParts(s);
    SlotSteps.HalfSeen(s, t);
  }

  lemma SleepParts(s: State)
    requires Inv(s)
    ensures CountOk(s) && SleepersOk(s)
  {
  }

  /** What a sender compares before it sleeps: the whole word, or on x86-64 the flags and the
      count without its low 32 bits. */
  lemma SleepsIff(s: State, t: nat)
    requires Inv(s) && Sleeping(s, t)
    ensures var e := s.threads[t].at.expected;
            SendSleepNext(s, t).threads[t].at.SendParked? <==>
              match s.target
              case Portable => s.send == e
              case X86_64 => s.send.sleeping && !s.send.dead && s.send.count / 0x1_0000_0000 == e.count / 0x1_0000_0000
  {
    hide Inv;
    SleepParts(s);
    CondemnedBound(s.threads);
    var e := s.threads[t].at.expected;
    assert SleeperOk(s.target, s.threads[t]);
    match s.target
    case X86_64 =>
      HalfOf(s.send);
      HalfOf(e);
    case Portable =>
      if FutexHalf(Portable, s.send) == FutexHalf(Portable, e) {
        HalfShowsFlags(Portable, s.send, e);
      }
  }

  /** Off x86-64 a sender only goes to sleep while the slot is taken. */
  lemma PortableSleepsOverATakenSlot(s: State, t: nat)
    requires Inv(s) && s.target.Portable? && Sleeping(s, t)
    requires SendSleepNext(s, t).threads[t].at.SendParked?
    ensures s.send.count > 0
  {
    hide Inv;
    SleepParts(s);
    SleepsIff(s, t);
    assert SleeperOk(s.target, s.threads[t]);
  }

  // ----- runs

  lemma Extend(s: State, a: Action)
    requires Reachable(s) && Enabled(s, a)
    ensures Reachable(Next(s, a))
  {
    hide Next, Enabled, Initial;
    var trace, acts :| Run(trace, acts) && Initial(trace[0]) && trace[|acts|] == s;
    var trace', acts' := trace + [Next(s, a)], acts + [a];
    forall k | 0 <= k < |acts'|
      ensures Step(trace'[k], acts'[k], trace'[k + 1])
    {
      if k < |acts| {
        assert Step(trace[k], acts[k], trace[k + 1]);
      }
    }
    assert Run(trace', acts') && trace'[0] == trace[0] && trace'[|acts'|] == Next(s, a);
  }

  /** Three threads and one sender handle; the receiver is idle. */
  ghost predicate Scene(s: State, t0: Thread, t1: Thread, send: SendWord) {
    && Reachable(s) && !s.aborted && s.threads == [t0, t1, Idle] && s.send == send
    && s.senders == {0} && s.receiver == Resting && !s.send.dead
  }

  /** The count after `n` reservations. */
  function Bumped(g: Target, n: nat): nat {
    if g.X86_64? then n else if n == 0 then 0 else 1
  }

  lemma Start(g: Target) returns (s: State)
    ensures Scene(s, Idle, Idle, SendWord(0, false, false)) && s.target == g
    ensures s.slot == None && s.recv == RecvWord(false, false, false)
  {
    s := State(g, SendWord(0, false, false), RecvWord(false, false, false), None, 1, {0}, [Idle, Idle, Idle],
               Resting, true, false, false, None, [], []);
    var none: seq<Action> := [];
    assert Run([s], none) && Initial([s][0]) && [s][|none|] == s;
  }

  /** The third thread fills the slot. */
  lemma Fill(g: Target, x: Item) returns (s: State)
    ensures Scene(s, Idle, Idle, SendWord(1, false, false)) && s.target == g && s.recv.commit && s.slot.Some?
  {
    hide Reachable, BumpWord;
    s := Start(g);
    BumpAdds(g, s.send);
    Extend(s, StartSend(2, 0, false, x));
    s := Next(s, StartSend(2, 0, false, x));
    Extend(s, Reserve(2));
    s := Next(s, Reserve(2));
    Extend(s, Write(2));
    s := Next(s, Write(2));
    Extend(s, Commit(2));
    s := Next(s, Commit(2));
  }

  /** The first thread finds the slot taken, spins and goes to sleep. */
  lemma {:induction false} SpinDown(s: State, c: SendCall, k: nat) returns (s': State)
    requires Scene(s, Sender(c, SendSpinning(k)), Idle, s.send) && s.send.count > 0 && !s.send.sleeping
    ensures Scene(s', Sender(c, SendSpinning(0)), Idle, s.send)
    ensures s'.target == s.target && s'.recv == s.recv && s'.slot == s.slot
    decreases k
  {
    hide Reachable;
    s' := s;
    if k > 0 {
      Extend(s, SendPoll(0));
      s' := SpinDown(Next(s, SendPoll(0)), c, k - 1);
    }
  }

  lemma ParkFirst(g: Target, x: Item) returns (s: State)
    ensures var w := SendWord(Bumped(g, 2), true, false);
            Scene(s, Sender(SendCall(0, true, x), SendParked), Idle, w)
    ensures s.target == g && s.recv.commit && s.slot.Some?
  {
    hide Reachable, BumpWord;
    var c := SendCall(0, true, x);
    s := Fill(g, x);
    BumpAdds(g, s.send);
    Extend(s, StartSend(0, 0, true, x));
    s := Next(s, StartSend(0, 0, true, x));
    Extend(s, Reserve(0));
    s := Next(s, Reserve(0));
    s := SpinDown(s, c, 32);
    Extend(s, SendPoll(0));
    s := Next(s, SendPoll(0));
    Extend(s, SendSleep(0));
    s := Next(s, SendSleep(0));
  }

  /** The second thread finds SLEEPING on and is about to go to sleep as well. */
  lemma SecondNods(g: Target, x: Item) returns (s: State)
    ensures var c := SendCall(0, true, x); var w := SendWord(Bumped(g, 3), true, false);
            Scene(s, Sender(c, SendParked), Sender(c, SendSleeping(w)), w)
    ensures s.target == g && s.recv.commit && s.slot.Some?
  {
    hide Reachable, BumpWord;
    s := ParkFirst(g, x);
    BumpAdds(g, s.send);
    Extend(s, StartSend(1, 0, true, x));
    s := Next(s, StartSend(1, 0, true, x));
    Extend(s, Reserve(1));
    s := Next(s, Reserve(1));
    Extend(s, SendPoll(1));
    s := Next(s, SendPoll(1));
  }

  /** The receiver takes the value and wakes the first sender. */
  lemma Drain(s: State, c: SendCall, t1: Thread) returns (s': State)
    requires Scene(s, Sender(c, SendParked), t1, s.send) && s.recv.commit && s.slot.Some? && s.send.sleeping
    ensures Scene(s', Sender(c, SendWoken), t1, SendWord(0, false, false)) && s'.target == s.target
  {
    hide Reachable;
    Extend(s, StartRecv(false));
    s' := Next(s, StartRecv(false));
    Extend(s', Load);
    s' := Next(s', Load);
    Extend(s', Clear);
    s' := Next(s', Clear);
    Extend(s', Read);
    s' := Next(s', Read);
    Extend(s', Release);
    s' := Next(s', Release);
    Extend(s', WakeSender(Some(0)));
    s' := Next(s', WakeSender(Some(0)));
  }

  /** Two senders are parked, one is woken, and the receiver is dropped before that one has
      raised SLEEPING again: the other is never woken.  On every target. */
  lemma ASenderCanBeStranded(g: Target, x: Item)
    ensures exists s, u :: Reachable(s) && s.target == g && Stranded(s, u)
  {
    hide Reachable;
    var c := SendCall(0, true, x);
    var s := SecondNods(g, x);
    Extend(s, SendSleep(1));
    s := Next(s, SendSleep(1));
    s := Drain(s, c, Sender(c, SendParked));
    Extend(s, DropReceiver);
    s := Next(s, DropReceiver);
    assert Stranded(s, 1);
  }

  /** On x86-64 a sender can go to sleep although the slot is free and everybody else lives:
      the woken sender has raised SLEEPING again before its own `try_send`. */
  lemma ASenderCanSleepOverAFreeSlot(x: Item)
    ensures exists s, u: nat :: Reachable(s) && s.target == X86_64 && u < |s.threads| && IsParked(s.threads[u])
                           && s.send.count == 0 && s.receiver.Resting?
  {
    hide Reachable;
    var c := SendCall(0, true, x);
    var s := SecondNods(X86_64, x);
    var w := SendWord(3, true, false);
    s := Drain(s, c, Sender(c, SendSleeping(w)));
    Extend(s, SendRearm(0));
    s := Next(s, SendRearm(0));
    assert FutexHalf(X86_64, SendWord(0, true, false)) == FutexHalf(X86_64, w);
    Extend(s, SendSleep(1));
    s := Next(s, SendSleep(1));
    assert IsParked(s.threads[1]);
  }
}
