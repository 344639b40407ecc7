/** What the calls of the bag do, from the outside: which slots a send asks for, how attempts
    end, who may wait, and who is woken. */
module MpmcCalls {
  import opened Status
  import opened Tally
  import opened Mpmc
  import opened MpmcInvariant
  import opened MpmcTheorems
  import opened MpmcDisconnect
  import MpmcSteps
  import Masks

  // ----- the slots a send asks for

  /** As many slots as there are items, at most 30, from the bias on and round again. */
  ghost predicate IsRequest(mask: set<nat>, items: nat, bias: nat) {
    forall i: nat :: i in mask <==> i < 30 && (i + 30 - bias) % 30 < items
  }

  predicate Asks(s: State, t: nat, c: SendCall, mask: set<nat>) {
    AtSend(s, t) && s.threads[t] == Sender(c, Reserving(mask))
  }

  lemma FirstMaskIsRequest(c: SendCall)
    ensures IsRequest(FirstMask(c), |c.given|, c.bias)
    ensures |FirstMask(c)| == if |c.given| < 30 then |c.given| else 30
  {
    Masks.WindowSize(|c.given|, c.bias);
    forall i: nat | i < SLOTS
      ensures Masks.Distance(i, c.bias) == (i + 30 - c.bias) % 30
    {
    }
  }

  /** A send of no items ends at once and touches nothing; any other asks for its slots. */
  lemma StartAsks(s: State, t: nat, h: nat, blocking: bool, given: seq<Item>, s': State)
    requires Step(s, StartSend(t, h, blocking, given), s')
    ensures s'.send == s.send && s'.recv == s.recv && s'.bag == s.bag && t < |s'.threads| && h in s.senders
    ensures given == [] ==>
              s'.threads[t] == Idle && s'.log == s.log + [Handed([]), SendReturned([], [], Sent)]
    ensures given != [] ==>
              exists mask :: IsRequest(mask, |given|, s.senders[h]) && |mask| == (if |given| < 30 then |given| else 30)
                        && Asks(s', t, SendCall(h, s.senders[h], blocking, given), mask)
  {
    hide FirstMask;
    FirstMaskIsRequest(SendCall(h, s.senders[h], blocking, given));
  }

  /** After a wait a send asks for the same slots as at first. */
  lemma WaitAsks(s: State, a: Action, s': State)
    requires Step(s, a, s') && (a.SendPoll? || a.SendRearm?)
    ensures AtSend(s, a.t) && a.t < |s'.threads|
    ensures s'.threads[a.t].Sender? && s'.threads[a.t].at.Reserving? ==>
              var c := s.threads[a.t].send;
              IsRequest(s'.threads[a.t].at.mask, |c.given|, c.bias) && s'.threads[a.t].send == c
  {
    hide FirstMask;
    FirstMaskIsRequest(s.threads[a.t].send);
  }

  /** The first attempt takes exactly the free ones among those slots; on an empty bag, all of
      them, so that a batch of up to 30 items goes at once. */
  lemma FirstAttempt(s: State, t: nat, h: nat, blocking: bool, given: seq<Item>, s1: State, retry: set<nat>, s2: State)
    returns (mask: set<nat>)
    requires Inv(s) && Step(s, StartSend(t, h, blocking, given), s1) && Step(s1, Reserve(t, retry), s2)
    ensures h in s.senders && IsRequest(mask, |given|, s.senders[h])
    ensures |mask| == if |given| < 30 then |given| else 30
    ensures !s.send.dead && mask - s.send.slots != {} ==>
              var c := SendCall(h, s.senders[h], blocking, given); var gained := mask - s.send.slots;
              && t < |s2.threads| && s2.threads[t] == Sender(c, Filling(given, gained, gained))
              && s2.send.slots == s.send.slots + mask
    ensures given != [] && s.send.slots == {} ==> mask - s.send.slots == mask != {}
  {
    hide Inv, Next, Enabled;
    StartAsks(s, t, h, blocking, given, s1);
    EmptyStart(s, t, h, blocking, given, s1, retry, s2);
    mask :| IsRequest(mask, |given|, s.senders[h]) && |mask| == (if |given| < 30 then |given| else 30)
            && Asks(s1, t, SendCall(h, s.senders[h], blocking, given), mask);
    BoundedRequest(mask, |given|, s.senders[h]);
    SizeZero(mask);
    MpmcSteps.StepKeeps(s, StartSend(t, h, blocking, given));
    AttemptOutcome(s1, t, retry, s2);
    assert mask <= s.send.slots ==> mask - s.send.slots == {};
  }

  lemma SizeZero(mask: set<nat>)
    ensures |mask| == 0 <==> mask == {}
  {
  }

  lemma BoundedRequest(mask: set<nat>, items: nat, bias: nat)
    requires IsRequest(mask, items, bias)
    ensures mask <= AllSlots
  {
  }

  /** There is no attempt after a send of nothing. */
  lemma EmptyStart(s: State, t: nat, h: nat, blocking: bool, given: seq<Item>, s1: State, retry: set<nat>, s2: State)
    requires Step(s, StartSend(t, h, blocking, given), s1) && Step(s1, Reserve(t, retry), s2)
    ensures given != []
  {
    hide FirstMask, Masks.Trimmed;
  }

  // ----- how an attempt ends

  /** Exactly how: with Disconnected only if the receivers are gone, with Full or a wait only
      over a full bag, with slots to fill only if some of those it asked for are free, and
      with another try only if none of them is, but others are. */
  lemma AttemptOutcome(s: State, t: nat, retry: set<nat>, s': State)
    requires Inv(s) && Step(s, Reserve(t, retry), s')
    ensures AtSend(s, t) && s.threads[t].at.Reserving? && t < |s'.threads|
    ensures var c, mask := s.threads[t].send, s.threads[t].at.mask;
            && s'.send == s.send.(slots := s.send.slots + mask) && s'.recv == s.recv && s'.bag == s.bag
            && match s'.threads[t]
               case Idle =>
                 || (s.send.dead && s'.log == s.log + [SendReturned(c.given, c.given, Disconnected)])
                 || (!s.send.dead && !c.blocking && s.send.slots == AllSlots && s'.send == s.send
                     && s'.log == s.log + [SendReturned(c.given, c.given, Full)])
               case Sender(c', SendSpinning(32)) =>
                 c' == c && !s.send.dead && c.blocking && s.send.slots == AllSlots && s'.send == s.send
               case Sender(c', Filling(data, reserved, left)) =>
                 && c' == c && !s.send.dead && data == c.given && reserved == left == mask - s.send.slots != {}
               case Sender(c', Reserving(next)) =>
                 c' == c && !s.send.dead && mask <= s.send.slots < AllSlots && next == retry != {} && s'.send == s.send
               case _ => false
  {
    hide Inv, Assign;
    var mask := s.threads[t].at.mask;
    MpmcSteps.Facts(s, t);
    MpmcSteps.Sizes(s);
    Absorbs(s.send.slots, mask);
    if mask - s.send.slots == {} {
      assert s.send.slots + mask == s.send.slots;
    }
    if s.send.slots == AllSlots {
      assert mask - s.send.slots == {};
    } else {
      var c := s.threads[t].send;
      MpmcSteps.RetryOk(s, AllSlots - s.send.slots, retry, |c.given|, c.bias % 2 == 0);
    }
  }

  /** A claim takes everything that is committed; without anything it ends with Disconnected
      exactly if the senders are gone, and otherwise with Empty or a wait. */
  lemma ClaimOutcome(s: State, t: nat, s': State)
    requires Step(s, Claim(t), s')
    ensures AtRecv(s, t) && t < |s'.threads|
    ensures var c := s.threads[t].recv;
            && s'.send == s.send && s'.bag == s.bag && s'.recv == s.recv.(slots := {})
            && match s'.threads[t]
               case Idle =>
                 && s.recv.slots == {} && (s.recv.dead || !c.blocking)
                 && s'.log == s.log + [RecvFailed(s.recv.dead)]
               case Receiver(c', RecvSpinning(32)) => c' == c && s.recv.slots == {} && !s.recv.dead && c.blocking
               case Receiver(c', Draining(values, claimed, left)) =>
                 c' == c && values == [] && claimed == left == s.recv.slots != {}
               case _ => false
  {
    hide Assign;
  }

  // ----- who may wait

  /** A call that may not block neither spins nor sleeps. */
  predicate Patient(th: Thread) {
    match th
    case Sender(c, at) => at.SendSpinning? || at.SendSleeping? || at.SendParked? || at.SendWoken? ==> c.blocking
    case Receiver(c, on) => on.RecvSpinning? || on.RecvSleeping? || on.RecvParked? || on.RecvWoken? ==> c.blocking
    case _ => true
  }

  ghost predicate AllPatient(s: State) {
    forall t :: 0 <= t < |s.threads| ==> Patient(s.threads[t])
  }

  lemma StepKeepsPatient(s: State, a: Action)
    requires AllPatient(s) && Enabled(s, a)
    ensures AllPatient(Next(s, a))
  {
    hide Enabled, Next;
    if OfFilling(a) {
      FillingKeepsPatient(s, a);
    } else if OfSender(a) {
      SenderKeepsPatient(s, a);
    } else if OfReceiver(a) {
      ReceiverKeepsPatient(s, a);
    } else {
      HandleKeepsPatient(s, a);
    }
  }

  lemma FillingKeepsPatient(s: State, a: Action)
    requires AllPatient(s) && Enabled(s, a) && OfFilling(a)
    ensures AllPatient(Next(s, a))
  {
    hide Assign, Masks.Trimmed;
  }

  lemma SenderKeepsPatient(s: State, a: Action)
    requires AllPatient(s) && Enabled(s, a) && OfSender(a) && !OfFilling(a)
    ensures AllPatient(Next(s, a))
  {
    hide FirstMask;
  }

  lemma ReceiverKeepsPatient(s: State, a: Action)
    requires AllPatient(s) && Enabled(s, a) && OfReceiver(a)
    ensures AllPatient(Next(s, a))
  {
    hide Enabled, Next;
    if a.Claim? || a.Drain? || a.Release? {
      SlotsKeepPatient(s, a);
    } else {
      RecvKeepsPatient(s, a);
    }
  }

  lemma SlotsKeepPatient(s: State, a: Action)
    requires AllPatient(s) && Enabled(s, a) && (a.Claim? || a.Drain? || a.Release?)
    ensures AllPatient(Next(s, a))
  {
    hide Assign;
  }

  lemma RecvKeepsPatient(s: State, a: Action)
    requires AllPatient(s) && Enabled(s, a) && OfReceiver(a) && !a.Claim? && !a.Drain? && !a.Release?
    ensures AllPatient(Next(s, a))
  {
  }

  lemma HandleKeepsPatient(s: State, a: Action)
    requires AllPatient(s) && Enabled(s, a) && !OfSender(a) && !OfReceiver(a)
    ensures AllPatient(Next(s, a))
  {
    hide Assign, Total, SenderInUse, ReceiverInUse;
  }

  lemma {:induction false} RunPatient(trace: seq<State>, acts: seq<Action>, k: nat)
    requires Run(trace, acts) && AllPatient(trace[0]) && k <= |acts|
    ensures AllPatient(trace[k])
  {
    hide AllPatient, Next, Enabled;
    if k > 0 {
      RunPatient(trace, acts, k - 1);
      assert Step(trace[k - 1], acts[k - 1], trace[k - 1 + 1]);
      StepKeepsPatient(trace[k - 1], acts[k - 1]);
    }
  }

  /** `try_send` and `try_recv` never wait, in no reachable state. */
  lemma TryNeverWaits(s: State, t: nat)
    requires Reachable(s) && t < |s.threads|
    ensures s.threads[t].Sender? && !s.threads[t].send.blocking ==>
              var at := s.threads[t].at; at.Reserving? || at.Filling? || at.WakingReceiver?
    ensures s.threads[t].Receiver? && !s.threads[t].recv.blocking ==>
              var on := s.threads[t].on; on.Claiming? || on.Draining? || on.WakingSender?
  {
    hide Next, Enabled, Initial;
    var trace, acts :| Run(trace, acts) && Initial(trace[0]) && trace[|acts|] == s;
    PatientAtFirst(trace[0]);
    RunPatient(trace, acts, |acts|);
    assert Patient(s.threads[t]);
  }

  lemma PatientAtFirst(s: State)
    requires Initial(s)
    ensures AllPatient(s)
  {
  }

  /** A sender only goes to sleep over a full bag with SLEEPING on and a receiver alive, a
      receiver only over an empty one with SLEEPING on and a sender alive. */
  lemma SleepsOnlyForAReason(s: State, a: Action, s': State)
    requires Inv(s) && Step(s, a, s') && (a.SendSleep? || a.RecvSleep?) && a.t < |s'.threads|
    ensures IsSenderParked(s'.threads[a.t]) ==> s.send == Word(AllSlots, false, true)
    ensures IsReceiverParked(s'.threads[a.t]) ==> s.recv == Word({}, false, true)
  {
    hide Inv;
    MpmcSteps.Facts(s, a.t);
  }

  // ----- who is woken

  /** A commit and a release wake somebody exactly if SLEEPING was on, and turn it off. */
  lemma WakesIffSleeping(s: State, a: Action, s': State)
    requires Step(s, a, s') && (a.Commit? || a.Release?) && a.t < |s'.threads|
    ensures a.Commit? ==>
              && (RoleOf(s'.threads[a.t]) == RecvWaker <==> s.recv.sleeping)
              && (s'.threads[a.t] == Idle <==> !s.recv.sleeping) && !s'.recv.sleeping
    ensures a.Release? ==>
              && (RoleOf(s'.threads[a.t]) == SendWaker <==> s.send.sleeping)
              && (s'.threads[a.t] == Idle <==> !s.send.sleeping) && !s'.send.sleeping
  {
    hide Assign;
  }

  /** The wake takes one parked thread out of the futex if there is any, and only that one. */
  lemma WakeTakesOne(s: State, a: Action, s': State, u: nat)
    requires Step(s, a, s') && (a.WakeReceiver? || a.WakeSender?) && u < |s.threads| == |s'.threads| && u != a.t
    ensures s'.threads[u] != s.threads[u] <==> a.woken == Some(u)
    ensures a.woken == Some(u) ==> s'.threads[u] == Woken(s.threads[u])
    ensures a.woken == None ==> (if a.WakeReceiver? then !IsReceiverParked(s.threads[u]) else !IsSenderParked(s.threads[u]))
  {
  }

  /** After its wake a call reports what it had when it went to wake somebody. */
  lemma WakeReports(s: State, a: Action, s': State)
    requires Step(s, a, s') && (a.WakeReceiver? || a.WakeSender?)
    ensures a.t < |s.threads| && a.t < |s'.threads| && s'.threads[a.t] == Idle
    ensures match s.threads[a.t]
            case Sender(c, WakingReceiver(rest)) => s'.log == s.log + [SendReturned(c.given, rest, Sent)]
            case Receiver(_, WakingSender(values)) => s'.log == s.log + [RecvReturned(values)]
            case _ => false
    ensures s'.send == s.send && s'.recv == s.recv && s'.bag == s.bag
  {
  }

  // ----- handles

  /** A clone starts at seven times the number of senders so far, going round the 30 slots, in
      32-bit arithmetic; nobody else's start changes. */
  lemma CloneStartsAt(s: State, h: nat, copy: nat, s': State)
    requires Inv(s) && Step(s, CloneSender(h, copy), s')
    ensures s'.senders == s.senders[copy := ((|s.senders| * 7) % 0x1_0000_0000) % 30]
    ensures s'.numSenders == |s'.senders|
  {
    hide ReceiversOk, ThreadsOk, OwnedOk, BagOk, ItemsOk, LogOk, WakeOk;
  }
}
