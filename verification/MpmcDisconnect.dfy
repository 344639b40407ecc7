/** Disconnecting: final, drained, and what the last handle of a kind can fail to do. */
module MpmcDisconnect {
  import opened Status
  import opened Tally
  import opened Mpmc
  import opened MpmcInvariant
  import opened MpmcTheorems
  import MpmcSteps
  import Masks

  // ----- the flags stay

  /** Every sender is gone and says so. */
  ghost predicate SendersGone(s: State) {
    s.recv.dead && s.senders == map[] && forall t :: 0 <= t < |s.threads| ==> !s.threads[t].Sender?
  }

  ghost predicate ReceiversGone(s: State) {
    s.send.dead && s.receivers == {} && forall t :: 0 <= t < |s.threads| ==> !s.threads[t].Receiver?
  }

  lemma DeadMeansGone(s: State)
    requires Inv(s)
    ensures s.recv.dead ==> SendersGone(s)
    ensures s.send.dead ==> ReceiversGone(s)
  {
    hide WakeOk, ItemsOk, LogOk, OwnedOk, BagOk, ThreadsOk;
  }

  /** No step turns a disconnect flag off again, and nothing is committed after the senders
      are gone. */
  lemma DeadStays(s: State, a: Action)
    requires Inv(s) && Enabled(s, a)
    ensures s.recv.dead ==> Next(s, a).recv.dead && Next(s, a).recv.slots <= s.recv.slots
    ensures s.send.dead ==> Next(s, a).send.dead
  {
    hide Inv, SenderInUse, ReceiverInUse, WakesOneSender, WakesOneReceiver, Masks.Trimmed;
    DeadMeansGone(s);
    match a
    case Commit(t) =>
    case Release(t) =>
    case Reserve(t, retry) =>
    case _ => WordsKept(s, a);
  }

  predicate OfSender(a: Action) {
    a.StartSend? || a.Reserve? || a.Fill? || a.Commit? || a.WakeReceiver? || a.SendPoll? || a.SendSleep? || a.SendRearm?
  }

  /** The steps of `try_send` that change hands on slots. */
  predicate OfFilling(a: Action) {
    a.Reserve? || a.Fill? || a.Commit?
  }

  predicate OfReceiver(a: Action) {
    a.StartRecv? || a.Claim? || a.Drain? || a.Release? || a.WakeSender? || a.RecvPoll? || a.RecvSleep? || a.RecvRearm?
  }

  lemma WordsKept(s: State, a: Action)
    requires Enabled(s, a) && !a.Commit? && !a.Release? && !a.Reserve?
    ensures Next(s, a).recv.dead == s.recv.dead || (a.HangUpSender? && Next(s, a).recv.dead)
    ensures Next(s, a).send.dead == s.send.dead || (a.HangUpReceiver? && Next(s, a).send.dead)
    ensures Next(s, a).recv.slots <= s.recv.slots
    ensures Next(s, a).send.slots == s.send.slots
  {
    hide Enabled, Next;
    if OfSender(a) {
      WordsKeptBySender(s, a);
    } else if OfReceiver(a) {
      WordsKeptByReceiver(s, a);
    } else {
      WordsKeptByHandle(s, a);
    }
  }

  lemma WordsKeptBySender(s: State, a: Action)
    requires Enabled(s, a) && OfSender(a) && !a.Commit? && !a.Reserve?
    ensures Next(s, a).recv == s.recv && Next(s, a).send.(sleeping := s.send.sleeping) == s.send
  {
    hide WakesOneReceiver;
  }

  lemma WordsKeptByReceiver(s: State, a: Action)
    requires Enabled(s, a) && OfReceiver(a) && !a.Release?
    ensures Next(s, a).send == s.send
    ensures Next(s, a).recv.dead == s.recv.dead && Next(s, a).recv.slots <= s.recv.slots
  {
    hide WakesOneSender;
  }

  lemma WordsKeptByHandle(s: State, a: Action)
    requires Enabled(s, a) && !OfSender(a) && !OfReceiver(a)
    ensures Next(s, a).recv.dead == s.recv.dead || (a.HangUpSender? && Next(s, a).recv.dead)
    ensures Next(s, a).send.dead == s.send.dead || (a.HangUpReceiver? && Next(s, a).send.dead)
    ensures Next(s, a).recv.slots <= s.recv.slots
    ensures Next(s, a).send.slots == s.send.slots
  {
    hide SenderInUse, ReceiverInUse;
  }

  // ----- what a Disconnected result means

  ghost predicate Reports(s: State, s': State, e: Event) {
    |s'.log| == |s.log| + 1 && s'.log[|s.log|] == e
  }

  /** A receive reports Disconnected only over a drained bag. */
  lemma RecvDisconnectMeansDrained(s: State, a: Action)
    requires Inv(s) && Enabled(s, a) && Reports(s, Next(s, a), RecvFailed(true))
    ensures Next(s, a).recv.dead && Next(s, a).recv.slots == {}
  {
    hide Inv, Masks.Trimmed, Assign;
    if OfReceiver(a) {
      RecvReports(s, a);
    } else if OfSender(a) {
      SenderReports(s, a);
    } else {
      HandleReports(s, a);
    }
  }

  lemma RecvReports(s: State, a: Action)
    requires Enabled(s, a) && OfReceiver(a) && Reports(s, Next(s, a), RecvFailed(true))
    ensures Next(s, a).recv.dead && Next(s, a).recv.slots == {}
  {
    hide WakesOneSender, Assign;
  }

  lemma SenderReports(s: State, a: Action)
    requires Enabled(s, a) && OfSender(a)
    ensures forall dead :: !Reports(s, Next(s, a), RecvFailed(dead))
  {
    hide WakesOneReceiver, Assign, Masks.Trimmed;
  }

  lemma HandleReports(s: State, a: Action)
    requires Enabled(s, a) && !OfSender(a) && !OfReceiver(a)
    ensures forall dead :: !Reports(s, Next(s, a), RecvFailed(dead))
    ensures forall given, rest, o :: !Reports(s, Next(s, a), SendReturned(given, rest, o))
  {
    hide SenderInUse, ReceiverInUse, Assign, Total;
  }

  /** A send reports Disconnected only when the receivers are gone. */
  lemma SendDisconnectMeansGone(s: State, a: Action, given: seq<Item>)
    requires Inv(s) && Enabled(s, a) && Reports(s, Next(s, a), SendReturned(given, given, Disconnected))
    ensures ReceiversGone(Next(s, a))
  {
    hide Inv, Masks.Trimmed, Assign, ReceiversGone;
    if OfReceiver(a) {
      ReceiverReports(s, a);
    } else if OfSender(a) {
      SendReports(s, a, given);
    } else {
      HandleReports(s, a);
    }
    MpmcSteps.StepKeeps(s, a);
    DeadMeansGone(Next(s, a));
  }

  /** A send reports Full only when every slot is taken and the receivers live. */
  lemma SendFullMeansFull(s: State, a: Action, given: seq<Item>)
    requires Enabled(s, a) && Reports(s, Next(s, a), SendReturned(given, given, Full))
    ensures s.send.slots == AllSlots && !s.send.dead && a.Reserve?
  {
    hide Enabled, Next;
    if OfReceiver(a) {
      ReceiverReports(s, a);
    } else if OfSender(a) {
      FullReports(s, a, given);
    } else {
      HandleReports(s, a);
    }
  }

  lemma FullReports(s: State, a: Action, given: seq<Item>)
    requires Enabled(s, a) && OfSender(a) && Reports(s, Next(s, a), SendReturned(given, given, Full))
    ensures s.send.slots == AllSlots && !s.send.dead && a.Reserve?
  {
    hide WakesOneReceiver, Assign, Masks.Trimmed;
    if a.Reserve? {
      Absorbs(s.send.slots, s.threads[a.t].at.mask);
    }
  }

  lemma Absorbs(slots: set<nat>, mask: set<nat>)
    ensures mask - slots == {} ==> slots + mask == slots
  {
    forall x | x in mask && mask - slots == {}
      ensures x in slots
    {
      assert x !in mask - slots;
    }
  }

  lemma SendReports(s: State, a: Action, given: seq<Item>)
    requires Enabled(s, a) && OfSender(a) && Reports(s, Next(s, a), SendReturned(given, given, Disconnected))
    ensures Next(s, a).send.dead
  {
    hide WakesOneReceiver, Assign, Masks.Trimmed;
  }

  lemma ReceiverReports(s: State, a: Action)
    requires Enabled(s, a) && OfReceiver(a)
    ensures forall given, rest, o :: !Reports(s, Next(s, a), SendReturned(given, rest, o))
  {
    hide WakesOneSender, Assign;
  }

  /** After a receive has reported Disconnected, in every later state of the run all senders
      are gone and nothing is committed. */
  lemma {:induction false} DisconnectIsFinal(trace: seq<State>, acts: seq<Action>, i: nat, j: nat)
    requires Run(trace, acts) && Initial(trace[0]) && i < j <= |acts|
    requires Reports(trace[i], trace[i + 1], RecvFailed(true))
    ensures SendersGone(trace[j]) && trace[j].recv.slots == {}
  {
    hide Inv, Next, Enabled, Initial, Reports, SendersGone;
    assert Step(trace[j - 1], acts[j - 1], trace[j - 1 + 1]);
    InitialInv(trace[0]);
    RunInv(trace, acts, j - 1);
    RunInv(trace, acts, j);
    if j == i + 1 {
      RecvDisconnectMeansDrained(trace[i], acts[i]);
    } else {
      DisconnectIsFinal(trace, acts, i, j - 1);
      SendersGoneDead(trace[j - 1]);
      DeadStays(trace[j - 1], acts[j - 1]);
    }
    DeadMeansGone(trace[j]);
  }

  lemma SendersGoneDead(s: State)
    requires SendersGone(s)
    ensures s.recv.dead
  {
  }

  /** Once the receivers are gone they stay gone, so what a send then gets back can never be
      received. */
  lemma {:induction false} ReceiversStayGone(trace: seq<State>, acts: seq<Action>, i: nat, j: nat)
    requires Run(trace, acts) && Initial(trace[0]) && i <= j <= |acts| && trace[i].send.dead
    ensures ReceiversGone(trace[j])
  {
    hide Inv, Next, Enabled, Initial;
    InitialInv(trace[0]);
    RunInv(trace, acts, j);
    if i < j {
      assert Step(trace[j - 1], acts[j - 1], trace[j - 1 + 1]);
      RunInv(trace, acts, j - 1);
      ReceiversStayGone(trace, acts, i, j - 1);
      DeadStays(trace[j - 1], acts[j - 1]);
    }
    DeadMeansGone(trace[j]);
  }
}
