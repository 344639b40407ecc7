/** What a thread of the bag finds after others have moved, and what that says about its
    reservation loop: it is lock-free. */
module MpmcOthers {
  import opened Status
  import opened Tally
  import opened Mpmc
  import opened MpmcInvariant
  import opened MpmcTheorems
  import opened MpmcDisconnect
  import opened MpmcProgress
  import MpmcSteps
  import Masks

  // ----- one step of another thread

  /** A thread that stands still while others move; one that is parked may be woken. */
  ghost predicate MayWake(th: Thread, th': Thread) {
    th' == th || (Parked(th) && th' == Woken(th))
  }

  /** Not a step of thread `t`, though the kernel may wake it for no reason. */
  predicate NotOf(a: Action, t: nat) {
    ThreadOf(a) != Some(t) || a == SpuriousWake(t)
  }

  lemma StepOfAnother(s: State, a: Action, t: nat)
    requires t < |s.threads| && Enabled(s, a) && NotOf(a, t)
    ensures t < |Next(s, a).threads| && MayWake(s.threads[t], Next(s, a).threads[t])
  {
    hide Next, Enabled, MayWake;
    if OfFilling(a) {
      StepOfFilling(s, a, t);
    } else if OfSender(a) {
      StepOfSender(s, a, t);
    } else if OfReceiver(a) {
      StepOfReceiver(s, a, t);
    } else {
      StepOfHandle(s, a, t);
    }
  }

  lemma StepOfFilling(s: State, a: Action, t: nat)
    requires t < |s.threads| && OfFilling(a) && Enabled(s, a) && a.t != t
    ensures t < |Next(s, a).threads| && MayWake(s.threads[t], Next(s, a).threads[t])
  {
    hide Assign, Masks.Trimmed, ReserveFailedMove;
  }

  lemma StepOfSender(s: State, a: Action, t: nat)
    requires t < |s.threads| && OfSender(a) && !OfFilling(a) && Enabled(s, a) && a.t != t
    ensures t < |Next(s, a).threads| && MayWake(s.threads[t], Next(s, a).threads[t])
  {
    hide StartSendMove, SendPollMove, SendSleepMove, SendRearmMove;
  }

  lemma StepOfReceiver(s: State, a: Action, t: nat)
    requires t < |s.threads| && OfReceiver(a) && Enabled(s, a) && a.t != t
    ensures t < |Next(s, a).threads| && MayWake(s.threads[t], Next(s, a).threads[t])
  {
    hide Assign, ClaimFailedMove, RecvPollMove, RecvSleepMove, RecvRearmMove;
  }

  lemma StepOfHandle(s: State, a: Action, t: nat)
    requires t < |s.threads| && !OfSender(a) && !OfReceiver(a) && Enabled(s, a) && NotOf(a, t)
    ensures t < |Next(s, a).threads| && MayWake(s.threads[t], Next(s, a).threads[t])
  {
    hide Assign, Total, SenderInUse, ReceiverInUse;
  }

  // ----- runs in which a thread takes no step

  /** Between states `i` and `j` of the run, thread `t` takes no step. */
  ghost predicate Idles(acts: seq<Action>, t: nat, i: nat, j: nat) {
    j <= |acts| && forall k :: i <= k < j ==> NotOf(acts[k], t)
  }

  /** Others leave a parked thread parked, or just woken, and every other thread where it is. */
  lemma {:induction false} RunOfOthers(trace: seq<State>, acts: seq<Action>, t: nat, i: nat, j: nat)
    requires Run(trace, acts) && i <= j && Idles(acts, t, i, j) && t < |trace[i].threads|
    ensures t < |trace[j].threads| && MayWake(trace[i].threads[t], trace[j].threads[t])
  {
    hide Next, Enabled;
    if i < j {
      RunOfOthers(trace, acts, t, i, j - 1);
      assert Step(trace[j - 1], acts[j - 1], trace[j - 1 + 1]);
      StepOfAnother(trace[j - 1], acts[j - 1], t);
    }
  }

  // ----- the reservation loop

  /** Thread `t` is about to ask for slots, all of which were free a moment ago. */
  ghost predicate AimsAtFreeSlots(s: State, t: nat) {
    AtSend(s, t) && s.threads[t].at.Reserving? && s.threads[t].at.mask !! s.send.slots
  }

  /** Step `k` is a reservation by a thread other than `t`, and it takes slots to fill. */
  ghost predicate RivalReserves(trace: seq<State>, acts: seq<Action>, t: nat, k: nat) {
    && k < |acts| && k + 1 < |trace| && acts[k].Reserve? && acts[k].t != t
    && NowFilling(trace[k + 1], acts[k].t) && !(trace[k + 1].send.slots <= trace[k].send.slots)
  }

  /** A reservation that gets nothing while the receivers live found all its slots taken. */
  lemma FailedMeansTaken(s: State, a: Action, s': State, t: nat)
    requires Inv(s) && Step(s, a, s') && a.Reserve? && a.t == t && !s.send.dead && !NowFilling(s', t)
    ensures AtSend(s, t) && s.threads[t].at.Reserving?
    ensures s.threads[t].at.mask != {} && s.threads[t].at.mask <= s.send.slots
  {
    hide Inv, Enabled, Next;
    EnabledReserve(s, a);
    MpmcSteps.Facts(s, t);
    FailedMask(s, t, a.retry);
  }

  lemma FailedMask(s: State, t: nat, retry: set<nat>)
    requires Enabled(s, Reserve(t, retry)) && ThreadOk(s.threads[t]) && !s.send.dead
    requires !NowFilling(Next(s, Reserve(t, retry)), t)
    ensures s.threads[t].at.mask <= s.send.slots
  {
    hide Assign, Masks.Trimmed, ReserveFailedMove;
    var mask := s.threads[t].at.mask;
    forall x | x in mask
      ensures x in s.send.slots
    {
      assert x in AllSlots && (mask - s.send.slots == {} ==> x !in mask - s.send.slots);
    }
  }

  /** A disconnect flag that is off was off all along. */
  lemma {:induction false} AliveBefore(trace: seq<State>, acts: seq<Action>, k: nat, n: nat)
    requires Run(trace, acts) && Inv(trace[0]) && k <= n <= |acts| && !trace[n].send.dead
    ensures !trace[k].send.dead
  {
    hide Inv, Next, Enabled;
    if k < n {
      RunInv(trace, acts, n - 1);
      assert Step(trace[n - 1], acts[n - 1], trace[n - 1 + 1]);
      DeadStays(trace[n - 1], acts[n - 1]);
      AliveBefore(trace, acts, k, n - 1);
    }
  }

  /** If a slot is free in one state and taken in a later one, with a receiver alive, then a
      reservation succeeded in between. */
  lemma {:induction false} TakenInBetween(trace: seq<State>, acts: seq<Action>, x: nat, i: nat, n: nat) returns (k: nat)
    requires Run(trace, acts) && Inv(trace[0]) && i <= n <= |acts| && !trace[n].send.dead
    requires x !in trace[i].send.slots && x in trace[n].send.slots
    ensures i <= k < n && acts[k].Reserve? && NowFilling(trace[k + 1], acts[k].t)
    ensures !(trace[k + 1].send.slots <= trace[k].send.slots)
  {
    hide Inv, Next, Enabled;
    AliveBefore(trace, acts, n - 1, n);
    if x in trace[n - 1].send.slots {
      k := TakenInBetween(trace, acts, x, i, n - 1);
    } else {
      k := n - 1;
      assert Step(trace[k], acts[k], trace[k + 1]);
      RunInv(trace, acts, k);
      OnlyReserveTakes(trace[k], acts[k]);
    }
  }

  /** Lock-freedom: if a thread aims at slots that are free, and its attempt to reserve them
      fails although the receivers live, then another thread has reserved slots meanwhile. */
  lemma FailedRetryMeansRival(trace: seq<State>, acts: seq<Action>, t: nat, i: nat, n: nat)
    requires Run(trace, acts) && Inv(trace[0]) && i <= n < |acts|
    requires AimsAtFreeSlots(trace[i], t) && Idles(acts, t, i, n)
    requires acts[n].Reserve? && acts[n].t == t && !trace[n].send.dead && !NowFilling(trace[n + 1], t)
    ensures exists k: nat :: i <= k < n && RivalReserves(trace, acts, t, k)
  {
    hide Inv, Next, Enabled;
    RunInv(trace, acts, n);
    RunOfOthers(trace, acts, t, i, n);
    assert Step(trace[n], acts[n], trace[n + 1]);
    FailedMeansTaken(trace[n], acts[n], trace[n + 1], t);
    var x :| x in trace[n].threads[t].at.mask;
    var k := TakenInBetween(trace, acts, x, i, n);
    assert NotOf(acts[k], t);
    assert RivalReserves(trace, acts, t, k);
  }

  /** In the loop: between two attempts of a thread, neither of which got it slots, ended the
      call or found a disconnect, another thread has reserved slots. */
  lemma EveryFailedRoundHasARival(trace: seq<State>, acts: seq<Action>, t: nat, i: nat, n: nat)
    requires Run(trace, acts) && Inv(trace[0]) && i < n < |acts|
    requires acts[i].Reserve? && acts[i].t == t && AtSend(trace[i + 1], t) && trace[i + 1].threads[t].at.Reserving?
    requires Idles(acts, t, i + 1, n)
    requires acts[n].Reserve? && acts[n].t == t && !trace[n].send.dead && !NowFilling(trace[n + 1], t)
    ensures exists k: nat :: i < k < n && RivalReserves(trace, acts, t, k)
  {
    hide Inv, Next, Enabled;
    RunInv(trace, acts, i);
    assert Step(trace[i], acts[i], trace[i + 1]);
    RetryAimsAtFreeSlots(trace[i], t, acts[i].retry);
    FailedRetryMeansRival(trace, acts, t, i + 1, n);
  }
}
