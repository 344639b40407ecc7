/** What the calls of the one-place channel do, from the outside: how attempts end, who may
    wait, who is woken, and when the process aborts. */
module SlotCalls {
  import opened Tally
  import opened Slot
  import opened SlotInvariant
  import opened SlotTheorems
  import SlotSteps

  // ----- how an attempt ends

  /** Exactly how: a send aborts the process only past 2^61 reservations on x86-64, ends with
      Disconnected only if the receiver is gone, and with Full or a wait only over a taken
      slot; otherwise it has the slot.  Every attempt counts as a reservation. */
  lemma AttemptOutcome(s: State, t: nat, s': State)
    requires Inv(s) && Step(s, Reserve(t), s')
    ensures At(s, t) && t < |s'.threads| && s'.recv == s.recv && s'.slot == s.slot
    ensures s'.send == s.send.(count := if s.target.Portable? then 1 else s.send.count + 1)
    ensures var c := s.threads[t].call; var condemned := s.target.X86_64? && s.send.count > 0x2000_0000_0000_0000;
            match s'.threads[t]
            case Idle =>
              && !condemned && (s.send.dead || (s.send.count > 0 && !c.blocking))
              && s'.log == s.log + [SendEnded(c.item, if s.send.dead then Disconnected else Full)]
            case Sender(c', Aborting) => c' == c && condemned
            case Sender(c', SendSpinning(32)) => c' == c && !condemned && !s.send.dead && s.send.count > 0 && c.blocking
            case Sender(c', Writing) => c' == c && !s.send.dead && s.send.count == 0
            case _ => false
  {
    hide Inv, BumpWord;
    SlotSteps.InvCounts(s);
    SlotSteps.NoCarry(s, t);
  }

  /** Nothing else brings a thread to abort. */
  lemma OnlyReservationsCondemn(s: State, a: Action, s': State, t: nat)
    requires Step(s, a, s') && t < |s.threads| && t < |s'.threads|
    requires s'.threads[t].Sender? && s'.threads[t].at.Aborting? && s'.threads[t] != s.threads[t]
    ensures a == Reserve(t)
  {
    hide Enabled, Next;
    if Waits(a) || Takes(a) {
      SenderCondemns(s, a, t);
    } else {
      OthersDoNotCondemn(s, a, t);
    }
  }

  lemma SenderCondemns(s: State, a: Action, t: nat)
    requires Enabled(s, a) && (Waits(a) || Takes(a)) && t < |s.threads| && t < |Next(s, a).threads|
    requires var th := Next(s, a).threads[t]; th.Sender? && th.at.Aborting? && th != s.threads[t]
    ensures a == Reserve(t)
  {
    hide BumpWord, FutexHalf;
  }

  lemma OthersDoNotCondemn(s: State, a: Action, t: nat)
    requires Enabled(s, a) && !Waits(a) && !Takes(a) && t < |s.threads| && t < |Next(s, a).threads|
    ensures var th := Next(s, a).threads[t]; th.Sender? && th.at.Aborting? ==> th == s.threads[t]
  {
    hide InUse;
  }

  /** A receive goes on to the value exactly if one is committed; it ends with Disconnected
      exactly if none is and the senders are gone, otherwise with Empty, unless it may wait. */
  lemma LoadOutcome(s: State, s': State)
    requires Step(s, Load, s')
    ensures s.receiver.Loading? && s'.send == s.send && s'.recv == s.recv && s'.slot == s.slot && s'.threads == s.threads
    ensures match s'.receiver
            case Clearing => s.recv.commit
            case Resting =>
              !s.recv.commit && (s.recv.dead || !s.receiver.blocking) && s'.log == s.log + [RecvFailed(s.recv.dead)]
            case Loading(blocking, i) => !s.recv.commit && !s.recv.dead && blocking && s.receiver.blocking && 0 < i <= 32
            case Arming => !s.recv.commit && !s.recv.dead && s.receiver.blocking && s.receiver.i >= 32
            case _ => false
  {
  }

  // ----- who may wait

  predicate Patient(th: Thread) {
    th.Sender? && (th.at.SendSpinning? || th.at.SendSleeping? || th.at.SendParked? || th.at.SendWoken?) ==> th.call.blocking
  }

  ghost predicate AllPatient(s: State) {
    forall t :: 0 <= t < |s.threads| ==> Patient(s.threads[t])
  }

  lemma StepKeepsPatient(s: State, a: Action)
    requires AllPatient(s) && Enabled(s, a)
    ensures AllPatient(Next(s, a))
  {
    hide Enabled, Next;
    if Waits(a) || Takes(a) {
      SenderKeepsPatient(s, a);
    } else {
      OthersKeepPatient(s, a);
    }
  }

  lemma SenderKeepsPatient(s: State, a: Action)
    requires AllPatient(s) && Enabled(s, a) && (Waits(a) || Takes(a))
    ensures AllPatient(Next(s, a))
  {
    hide BumpWord, FutexHalf;
  }

  lemma OthersKeepPatient(s: State, a: Action)
    requires AllPatient(s) && Enabled(s, a) && !Waits(a) && !Takes(a)
    ensures AllPatient(Next(s, a))
  {
    hide InUse;
  }

  lemma {:induction false} RunPatient(trace: seq<State>, acts: seq<Action>, k: nat)
    requires Run(trace, acts) && AllPatient(trace[0]) && k <= |acts|
    ensures AllPatient(trace[k])
  {
    hide AllPatient, Next, Enabled;
    if k > 0 {
      RunPatient(trace, acts, k - 1);
      assert Step(trace[k - 1], acts[k - 1], trace[k - 1 + 1]);
      StepKeepsPatient(trace[k - 1], acts[k - 1]);
    }
  }

  /** `try_send` never waits, in no reachable state. */
  lemma TrySendNeverWaits(s: State, t: nat)
    requires Reachable(s) && At(s, t) && !s.threads[t].call.blocking
    ensures var at := s.threads[t].at;
            at.Reserving? || at.Aborting? || at.Writing? || at.Committing? || at.WakingReceiver?
  {
    hide Next, Enabled, Initial;
    var trace, acts :| Run(trace, acts) && Initial(trace[0]) && trace[|acts|] == s;
    PatientAtFirst(trace[0]);
    RunPatient(trace, acts, |acts|);
    assert Patient(s.threads[t]);
  }

  lemma PatientAtFirst(s: State)
    requires Initial(s)
    ensures AllPatient(s)
  {
  }

  /** The receiver only goes to sleep with SLEEPING on, nothing committed and a sender alive. */
  lemma ReceiverSleepsOnlyForAReason(s: State, a: Action, s': State)
    requires Step(s, a, s') && s'.receiver.RecvParked? && !s.receiver.RecvParked?
    ensures a == RecvSleep && s.recv == RecvWord(false, true, false)
  {
    hide Enabled, Next;
    if Waits(a) || Takes(a) {
      SenderParksNoReceiver(s, a);
    } else {
      ReceiverParks(s, a);
    }
  }

  lemma SenderParksNoReceiver(s: State, a: Action)
    requires Enabled(s, a) && (Waits(a) || Takes(a))
    ensures Next(s, a).receiver.RecvParked? ==> s.receiver.RecvParked?
  {
    hide BumpWord, FutexHalf;
  }

  lemma ReceiverParks(s: State, a: Action)
    requires Enabled(s, a) && !Waits(a) && !Takes(a) && Next(s, a).receiver.RecvParked? && !s.receiver.RecvParked?
    ensures a == RecvSleep && s.recv == RecvWord(false, true, false)
  {
    hide InUse;
  }

  // ----- who is woken

  /** A commit wakes the receiver, and a release a sender, exactly if SLEEPING was on. */
  lemma WakesIffSleeping(s: State, a: Action, s': State)
    requires Step(s, a, s')
    ensures a.Commit? && a.t < |s'.threads| ==>
              && (s'.threads[a.t].Sender? && s'.threads[a.t].at.WakingReceiver? <==> s.recv.sleeping)
              && (s'.threads[a.t] == Idle <==> !s.recv.sleeping) && !s'.recv.sleeping
    ensures a.Release? ==>
              && (s'.receiver.WakingSender? <==> s.send.sleeping)
              && (s'.receiver == Resting <==> !s.send.sleeping) && s'.send == SendWord(0, false, false)
  {
    hide Enabled, Next;
    if a.Commit? {
      CommitWakes(s, a.t);
    } else if a.Release? {
      ReleaseWakes(s);
    }
  }

  lemma CommitWakes(s: State, t: nat)
    requires Enabled(s, Commit(t))
    ensures var s' := Next(s, Commit(t));
            && t < |s'.threads| && !s'.recv.sleeping
            && s'.threads[t] == if s.recv.sleeping then Sender(s.threads[t].call, WakingReceiver) else Idle
  {
  }

  lemma ReleaseWakes(s: State)
    requires Enabled(s, Release)
    ensures var s' := Next(s, Release);
            && s'.send == SendWord(0, false, false)
            && s'.receiver == if s.send.sleeping then WakingSender(s.receiver.value) else Resting
  {
  }
}
