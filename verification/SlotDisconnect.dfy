/** Disconnecting the one-place channel: final on both sides, and drained for the receiver. */
module SlotDisconnect {
  import opened Tally
  import opened Slot
  import opened SlotInvariant
  import opened SlotTheorems
  import SlotSteps

  /** Every sender is gone, nothing is committed, and nobody is left to commit anything. */
  ghost predicate Drained(s: State) {
    && s.recv.dead && !s.recv.commit && s.senders == {}
    && forall t :: 0 <= t < |s.threads| ==> !s.threads[t].Sender?
  }

  lemma DeadMeansNoSenders(s: State)
    requires Inv(s) && s.recv.dead
    ensures s.senders == {} && forall t :: 0 <= t < |s.threads| ==> !s.threads[t].Sender?
  {
    hide CountOk, SleepersOk, HolderOk, SlotOk, OrderOk, ItemsOk, SentOk, ReceiverWakeOk, SenderWakeOk;
    forall t | 0 <= t < |s.threads|
      ensures !s.threads[t].Sender?
    {
      assert HandleOk(s, s.threads[t]);
    }
  }

  /** No step turns a disconnect flag off: not the commit, which overwrites `recv`, nor the
      release, which overwrites `send`. */
  lemma DeadStays(s: State, a: Action)
    requires Inv(s) && Enabled(s, a)
    ensures s.recv.dead ==> Next(s, a).recv.dead
    ensures s.send.dead ==> Next(s, a).send.dead
  {
    hide Inv;
    InvParts(s);
    hide HandlesOk, CountOk, Next, Enabled;
    if Waits(a) {
      SlotSteps.WaitFrames(s, a);
    } else if Takes(a) {
      SlotSteps.TakeFrames(s, a);
    } else if Receives(a) {
      SlotSteps.ReceiveFrames(s, a);
    } else {
      DeadStaysAtGate(s, a);
    }
  }

  lemma InvParts(s: State)
    requires Inv(s)
    ensures HandlesOk(s) && CountOk(s)
  {
  }

  lemma DeadStaysAtGate(s: State, a: Action)
    requires Enabled(s, a) && !Waits(a) && !Takes(a) && !Receives(a)
    ensures s.recv.dead ==> Next(s, a).recv.dead
    ensures s.send.dead ==> Next(s, a).send.dead
  {
  }

  /** Only the receiver reports an outcome of a `recv`. */
  ghost predicate Reports(s: State, s': State, e: Event) {
    s'.log == s.log + [e]
  }

  /** A `recv` reports Disconnected only when all that was ever committed has been received. */
  lemma RecvDisconnectedMeansDrained(s: State, a: Action)
    requires Inv(s) && Enabled(s, a) && Reports(s, Next(s, a), RecvFailed(true))
    ensures Drained(Next(s, a)) && TakenOut(Next(s, a)) == Next(s, a).committed
  {
    hide Inv, Drained, Enabled, Next;
    LoadReports(s, a);
    DeadMeansNoSenders(s);
    DrainedAfterLoad(s);
    SlotSteps.StepKeeps(s, a);
    AllTaken(Next(s, a));
  }

  lemma LoadReports(s: State, a: Action)
    requires Enabled(s, a) && Reports(s, Next(s, a), RecvFailed(true))
    ensures a == Load && s.receiver.Loading? && s.recv.dead && !s.recv.commit
  {
    LastIs(s.log, Next(s, a).log, RecvFailed(true));
    if Waits(a) || Takes(a) {
      SenderReports(s, a);
    } else if Receives(a) {
      ReceiverReports(s, a);
    } else {
      GateReports(s, a);
    }
  }

  lemma LastIs(log: seq<Event>, after: seq<Event>, e: Event)
    requires after == log + [e]
    ensures |after| == |log| + 1 && after[|log|] == e
  {
  }

  lemma SenderReports(s: State, a: Action)
    requires Enabled(s, a) && (Waits(a) || Takes(a))
    requires |Next(s, a).log| == |s.log| + 1
    ensures !Next(s, a).log[|s.log|].RecvFailed?
  {
    hide BumpWord, FutexHalf;
  }

  lemma ReceiverReports(s: State, a: Action)
    requires Enabled(s, a) && Receives(a)
    requires |Next(s, a).log| == |s.log| + 1 && Next(s, a).log[|s.log|] == RecvFailed(true)
    ensures a == Load && s.receiver.Loading? && s.recv.dead && !s.recv.commit
  {
  }

  lemma GateReports(s: State, a: Action)
    requires Enabled(s, a) && !Waits(a) && !Takes(a) && !Receives(a)
    requires |Next(s, a).log| == |s.log| + 1
    ensures !Next(s, a).log[|s.log|].RecvFailed?
  {
  }

  lemma DrainedAfterLoad(s: State)
    requires Enabled(s, Load) && s.receiver.Loading? && s.recv.dead && !s.recv.commit && s.senders == {}
    requires forall t :: 0 <= t < |s.threads| ==> !s.threads[t].Sender?
    ensures Drained(Next(s, Load)) && !Next(s, Load).receiver.Reading? && !Next(s, Load).recv.commit
  {
  }

  lemma AllTaken(s: State)
    requires Inv(s) && !s.recv.commit && !s.receiver.Reading?
    ensures TakenOut(s) == s.committed
  {
    hide HandlesOk, CountOk, SleepersOk, HolderOk, SlotOk, ItemsOk, SentOk, ReceiverWakeOk, SenderWakeOk, AllLeft;
  }

  lemma DrainedStays(s: State, a: Action)
    requires Inv(s) && Drained(s) && Enabled(s, a)
    ensures Drained(Next(s, a)) && Next(s, a).committed == s.committed
  {
    hide Inv, Enabled, Next;
    var s' := Next(s, a);
    DeadStays(s, a);
    SlotSteps.StepKeeps(s, a);
    DeadMeansNoSenders(s');
    NoCommit(s, a);
  }

  lemma NoCommit(s: State, a: Action)
    requires Drained(s) && Enabled(s, a)
    ensures !Next(s, a).recv.commit && Next(s, a).committed == s.committed
  {
    hide BumpWord, FutexHalf;
  }

  /** After a `recv` has reported Disconnected, nothing is committed in any later state of
      the run, and nothing ever will be. */
  lemma {:induction false} DisconnectIsFinal(trace: seq<State>, acts: seq<Action>, i: nat, j: nat)
    requires Run(trace, acts) && Initial(trace[0]) && i < j <= |acts|
    requires Reports(trace[i], trace[i + 1], RecvFailed(true))
    ensures Drained(trace[j]) && trace[j].committed == trace[i + 1].committed == TakenOut(trace[i + 1])
  {
    hide Inv, Next, Enabled, Initial, Reports, Drained, TakenOut;
    assert Step(trace[j - 1], acts[j - 1], trace[j - 1 + 1]);
    InitialInv(trace[0]);
    RunInv(trace, acts, j - 1);
    if j == i + 1 {
      RecvDisconnectedMeansDrained(trace[i], acts[i]);
    } else {
      DisconnectIsFinal(trace, acts, i, j - 1);
      DrainedStays(trace[j - 1], acts[j - 1]);
    }
  }

  /** Once the receiver has said that it is gone, no later reservation gets the slot, so what
      a `send` then gets back it gets back for good. */
  lemma NoHolderAfterHangUp(s: State, a: Action)
    requires Inv(s) && s.send.dead && Enabled(s, a)
    ensures Next(s, a).send.dead && Next(s, a).holder in {s.holder, None}
  {
    hide Inv, Next, Enabled;
    DeadStays(s, a);
    HolderAfter(s, a);
  }

  lemma HolderAfter(s: State, a: Action)
    requires s.send.dead && Enabled(s, a)
    ensures Next(s, a).holder == s.holder || Next(s, a).holder == None
  {
    hide BumpWord, FutexHalf;
  }

  /** A `send` ends with Disconnected only if the receiver is gone, with Full only if it is
      not and the slot was taken, and with success only if its item has been committed. */
  lemma SendOutcomesAreHonest(s: State, a: Action, x: Item, o: SendOutcome)
    requires Inv(s) && Enabled(s, a) && Reports(s, Next(s, a), SendEnded(x, o))
    ensures o == Disconnected ==> s.send.dead
    ensures o == Full ==> !s.send.dead && s.send.count > 0
    ensures o == Sent ==> (a.WakeReceiver? || a.Commit?) && x in Next(s, a).committed
  {
    hide Inv, Next, Enabled;
    LastIs(s.log, Next(s, a).log, SendEnded(x, o));
    if Waits(a) {
      SentKnown(s);
      WaitOutcomes(s, a, x, o);
    } else if Takes(a) {
      TakeOutcomes(s, a, x, o);
    } else {
      OthersEndNoSend(s, a);
    }
  }

  lemma SentKnown(s: State)
    requires Inv(s)
    ensures SentOk(s)
  {
  }

  lemma WaitOutcomes(s: State, a: Action, x: Item, o: SendOutcome)
    requires SentOk(s) && Enabled(s, a) && Waits(a)
    requires |Next(s, a).log| == |s.log| + 1 && Next(s, a).log[|s.log|] == SendEnded(x, o)
    ensures match o
            case Disconnected => s.send.dead
            case Full => false
            case Sent => a.WakeReceiver? && x in Next(s, a).committed
  {
    hide FutexHalf;
  }

  lemma TakeOutcomes(s: State, a: Action, x: Item, o: SendOutcome)
    requires Enabled(s, a) && Takes(a)
    requires |Next(s, a).log| == |s.log| + 1 && Next(s, a).log[|s.log|] == SendEnded(x, o)
    ensures match o
            case Disconnected => s.send.dead
            case Full => !s.send.dead && s.send.count > 0
            case Sent => a.Commit? && x in Next(s, a).committed
  {
    hide BumpWord;
  }

  lemma OthersEndNoSend(s: State, a: Action)
    requires Enabled(s, a) && !Waits(a) && !Takes(a)
    requires |Next(s, a).log| == |s.log| + 1
    ensures !Next(s, a).log[|s.log|].SendEnded?
  {
    hide InUse;
  }
}
