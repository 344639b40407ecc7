/** Which item of a batch goes where: a send fills its slots in ascending order from the end
    of its buffer, and a receive collects the slots it claimed in ascending order. */
module MpmcOrder {
  import opened Status
  import opened Tally
  import opened Mpmc
  import opened MpmcInvariant
  import opened MpmcTheorems
  import opened MpmcDisconnect
  import opened MpmcProgress
  import opened MpmcOthers
  import MpmcCalls
  import MpmcSteps
  import Masks

  /** How many of the slots come before slot `i`. */
  function Rank(slots: set<nat>, i: nat): nat {
    |set k | k in slots && k < i|
  }

  lemma RankBelow(slots: set<nat>, i: nat)
    requires i in slots
    ensures Rank(slots, i) < |slots|
  {
    var below := set k | k in slots && k < i;
    MpmcSteps.SubsetSize(below + {i}, slots);
  }

  /** If the slots not yet done are the last ones, the first of them has the rank of the
      number already done. */
  lemma RankOfFirst(slots: set<nat>, left: set<nat>, i: nat)
    requires left <= slots && IsFirst(i, left)
    requires forall j, k :: j in slots - left && k in left ==> j < k
    ensures Rank(slots, i) == |slots| - |left|
  {
    assert (set k | k in slots && k < i) == slots - left;
    assert slots == (slots - left) + left;
  }

  // ----- a send

  /** The slots are done from the first to the last. */
  predicate InOrder(slots: set<nat>, left: set<nat>) {
    forall j, k :: j in slots - left && k in left ==> j < k
  }

  /** Each slot that the thread has filled holds the item that its place among the reserved
      slots says, counted from the end of the buffer. */
  ghost predicate FilledAt(bag: seq<Option<Item>>, given: seq<Item>, reserved: set<nat>, i: nat) {
    var r := Rank(reserved, i);
    i < |bag| && r < |given| && bag[i] == Some(given[|given| - 1 - r])
  }

  ghost predicate FilledOk(bag: seq<Option<Item>>, th: Thread) {
    th.Sender? && th.at.Filling? ==>
      && InOrder(th.at.reserved, th.at.left)
      && forall i :: i in th.at.reserved - th.at.left ==> FilledAt(bag, th.send.given, th.at.reserved, i)
  }

  ghost predicate FillsInOrder(s: State) {
    forall t: nat :: t < |s.threads| ==> FilledOk(s.bag, s.threads[t])
  }

  /** A slot only changes when its holder writes or empties it, or with the end of the bag. */
  lemma SlotChanges(s: State, a: Action, i: nat)
    requires Inv(s) && Enabled(s, a) && i < SLOTS && !a.DropBag?
    requires !(a.Fill? && a.slot == i) && !(a.Drain? && a.slot == i)
    ensures |Next(s, a).bag| == |s.bag| == SLOTS && Next(s, a).bag[i] == s.bag[i]
  {
    hide Inv, Enabled, Next;
    MpmcSteps.Sizes(s);
    if OfFilling(a) {
      ChangesByFilling(s, a, i);
    } else if OfSender(a) {
      ChangesBySender(s, a);
    } else if OfReceiver(a) {
      ChangesByReceiver(s, a, i);
    } else {
      ChangesByHandle(s, a);
    }
  }

  lemma ChangesByFilling(s: State, a: Action, i: nat)
    requires Enabled(s, a) && OfFilling(a) && i < |s.bag| && !(a.Fill? && a.slot == i)
    ensures |Next(s, a).bag| == |s.bag| && Next(s, a).bag[i] == s.bag[i]
  {
    hide Assign, Masks.Trimmed, ReserveFailedMove;
  }

  lemma ChangesBySender(s: State, a: Action)
    requires Enabled(s, a) && OfSender(a) && !OfFilling(a)
    ensures Next(s, a).bag == s.bag
  {
    hide StartSendMove, SendPollMove, SendSleepMove, SendRearmMove;
  }

  lemma ChangesByReceiver(s: State, a: Action, i: nat)
    requires Enabled(s, a) && OfReceiver(a) && i < |s.bag| && !(a.Drain? && a.slot == i)
    ensures |Next(s, a).bag| == |s.bag| && Next(s, a).bag[i] == s.bag[i]
  {
    hide Assign, ClaimFailedMove, RecvPollMove, RecvSleepMove, RecvRearmMove;
  }

  lemma ChangesByHandle(s: State, a: Action)
    requires Enabled(s, a) && !OfSender(a) && !OfReceiver(a) && !a.DropBag?
    ensures Next(s, a).bag == s.bag
  {
    hide Assign, Total, SenderInUse, ReceiverInUse;
  }

  /** The slots of two threads have nothing in common. */
  lemma OwnSlots(s: State, t: nat, u: nat, i: nat)
    requires Inv(s) && t < |s.threads| && u < |s.threads| && t != u
    requires i in Reserved(s.threads[t]) + Claimed(s.threads[t])
    ensures i !in Reserved(s.threads[u]) + Claimed(s.threads[u]) && i < SLOTS && i !in s.recv.slots
  {
    hide WakeOk, ItemsOk, LogOk, ThreadsOk, SendersOk, ReceiversOk, BagOk;
    assert SlotsOk(s.owner, s.threads[t], t) && SlotsOk(s.owner, s.threads[u], u);
  }

  /** Another thread leaves the slots of a thread alone. */
  lemma OthersLeaveSlots(s: State, a: Action, t: nat, i: nat)
    requires Inv(s) && Enabled(s, a) && t < |s.threads| && ThreadOf(a) != Some(t) && !a.DropBag?
    requires i in Reserved(s.threads[t]) + Claimed(s.threads[t])
    ensures |Next(s, a).bag| == |s.bag| == SLOTS && i < SLOTS && Next(s, a).bag[i] == s.bag[i]
  {
    hide Inv, Enabled, Next, Reserved, Claimed;
    OwnBound(s, t, i);
    if (a.Fill? || a.Drain?) && a.slot == i {
      MoverHolds(s, a);
      OwnSlots(s, t, a.t, i);
      assert false;
    }
    SlotChanges(s, a, i);
  }

  lemma OwnBound(s: State, t: nat, i: nat)
    requires Inv(s) && t < |s.threads| && i in Reserved(s.threads[t]) + Claimed(s.threads[t])
    ensures i < SLOTS
  {
    hide WakeOk, ItemsOk, LogOk, ThreadsOk, SendersOk, ReceiversOk, BagOk;
    assert SlotsOk(s.owner, s.threads[t], t);
  }

  lemma MoverHolds(s: State, a: Action)
    requires Inv(s) && Enabled(s, a) && (a.Fill? || a.Drain?)
    ensures a.t < |s.threads| && a.slot in Reserved(s.threads[a.t]) + Claimed(s.threads[a.t])
  {
    hide Inv;
    MpmcSteps.Facts(s, if AtSend(s, a.t) || AtRecv(s, a.t) then a.t else 0);
  }

  // ----- the steps of a thread that fills

  lemma FillKeepsOrder(s: State, t: nat, slot: nat)
    requires Inv(s) && Enabled(s, Fill(t, slot)) && FilledOk(s.bag, s.threads[t])
    ensures t < |Next(s, Fill(t, slot)).threads|
    ensures FilledOk(Next(s, Fill(t, slot)).bag, Next(s, Fill(t, slot)).threads[t])
  {
    hide Inv, FilledOk, Next;
    FillFacts(s, t, slot);
    var s' := Next(s, Fill(t, slot));
    var c := s.threads[t].send;
    var Filling(data, reserved, left) := s.threads[t].at;
    RankOfFirst(reserved, left, slot);
    FilledNext(s.bag, c, data, reserved, left, slot);
  }

  /** What the step and the invariant say. */
  lemma FillFacts(s: State, t: nat, slot: nat)
    requires Inv(s) && Enabled(s, Fill(t, slot)) && FilledOk(s.bag, s.threads[t])
    ensures var Filling(data, reserved, left) := s.threads[t].at; var c := s.threads[t].send;
            && left <= reserved && |data| + |reserved| == |c.given| + |left| && data <= c.given && data != []
            && IsFirst(slot, left) && slot < |s.bag| && InOrder(reserved, left)
            && var s' := Next(s, Fill(t, slot));
            && t < |s'.threads| && s'.bag == s.bag[slot := Some(data[|data| - 1])]
            && s'.threads[t] == Sender(c, Filling(data[..|data| - 1], reserved, left - {slot}))
  {
    hide Inv;
    MpmcSteps.Facts(s, t);
    MpmcSteps.StepKeeps(s, Fill(t, slot));
    NoFault(s);
    NoFault(Next(s, Fill(t, slot)));
  }

  lemma NoFault(s: State)
    requires Inv(s)
    ensures !s.fault && |s.bag| == SLOTS
  {
    hide WakeOk, ItemsOk, LogOk, ThreadsOk, SendersOk, ReceiversOk, OwnedOk;
  }

  lemma FilledNext(bag: seq<Option<Item>>, c: SendCall, data: seq<Item>, reserved: set<nat>, left: set<nat>, slot: nat)
    requires FilledOk(bag, Sender(c, Filling(data, reserved, left)))
    requires left <= reserved && |data| + |reserved| == |c.given| + |left| && data <= c.given && data != []
    requires IsFirst(slot, left) && slot < |bag| && Rank(reserved, slot) == |reserved| - |left|
    ensures FilledOk(bag[slot := Some(data[|data| - 1])], Sender(c, Filling(data[..|data| - 1], reserved, left - {slot})))
  {
    hide Rank;
    var bag' := bag[slot := Some(data[|data| - 1])];
    var last := |c.given| - 1 - (|reserved| - |left|);
    assert last == |data| - 1 && data[last] == c.given[last];
    forall j, k | j in reserved - (left - {slot}) && k in left - {slot}
      ensures j < k
    {
      assert j == slot || j in reserved - left;
    }
    forall i | i in reserved - (left - {slot})
      ensures FilledAt(bag', c.given, reserved, i)
    {
      if i == slot {
        assert bag'[i] == Some(c.given[last]);
      } else {
        assert i in reserved - left;
        assert FilledAt(bag, c.given, reserved, i);
      }
    }
  }

  /** Otherwise a thread of its own accord is only at filling right after its reservation. */
  lemma OwnStep(s: State, a: Action, t: nat)
    requires Inv(s) && Enabled(s, a) && ThreadOf(a) == Some(t) && !a.Fill? && t < |Next(s, a).threads|
    ensures var th' := Next(s, a).threads[t];
            th'.Sender? && th'.at.Filling? ==> th'.at.left == th'.at.reserved
  {
    hide Inv, Enabled, Next;
    if a.Reserve? {
      MpmcCalls.AttemptOutcome(s, t, a.retry, Next(s, a));
    } else if a.Commit? {
      CommitEndsFilling(s, t);
    } else if OfSender(a) {
      WaitNeverFills(s, a);
    } else if OfReceiver(a) {
      ReceiverNeverFills(s, a);
    } else {
      HandleNeverFills(s, a);
    }
  }

  lemma CommitEndsFilling(s: State, t: nat)
    requires Enabled(s, Commit(t))
    ensures t < |Next(s, Commit(t)).threads|
    ensures var th' := Next(s, Commit(t)).threads[t]; !(th'.Sender? && th'.at.Filling?)
  {
    hide Assign;
  }

  lemma WaitNeverFills(s: State, a: Action)
    requires Enabled(s, a) && OfSender(a) && !OfFilling(a)
    ensures a.t < |Next(s, a).threads|
    ensures var th' := Next(s, a).threads[a.t]; !(th'.Sender? && th'.at.Filling?)
  {
    hide FirstMask;
  }

  lemma ReceiverNeverFills(s: State, a: Action)
    requires Enabled(s, a) && OfReceiver(a)
    ensures a.t < |Next(s, a).threads| && !Next(s, a).threads[a.t].Sender?
  {
    hide Enabled, Next;
    if a.Claim? || a.Drain? || a.Release? {
      SlotsNeverFill(s, a);
    } else {
      RecvNeverFills(s, a);
    }
  }

  lemma SlotsNeverFill(s: State, a: Action)
    requires Enabled(s, a) && (a.Claim? || a.Drain? || a.Release?)
    ensures a.t < |Next(s, a).threads| && !Next(s, a).threads[a.t].Sender?
  {
    hide Assign;
  }

  lemma RecvNeverFills(s: State, a: Action)
    requires Enabled(s, a) && OfReceiver(a) && !a.Claim? && !a.Drain? && !a.Release?
    ensures a.t < |Next(s, a).threads| && !Next(s, a).threads[a.t].Sender?
  {
  }

  lemma HandleNeverFills(s: State, a: Action)
    requires Enabled(s, a) && !OfSender(a) && !OfReceiver(a) && ThreadOf(a).Some?
    ensures a.t < |Next(s, a).threads|
    ensures var th' := Next(s, a).threads[a.t]; !(th'.Sender? && th'.at.Filling?)
  {
    hide Assign, Total, SenderInUse, ReceiverInUse;
  }

  // ----- every step keeps the order

  lemma OthersKeepOrder(s: State, a: Action, t: nat)
    requires Inv(s) && Enabled(s, a) && t < |s.threads| && ThreadOf(a) != Some(t) && !a.DropBag?
    requires FilledOk(s.bag, s.threads[t])
    ensures t < |Next(s, a).threads| && FilledOk(Next(s, a).bag, Next(s, a).threads[t])
  {
    hide Inv, Enabled, Next, Rank;
    StepOfAnother(s, a, t);
    var th := s.threads[t];
    if th.Sender? && th.at.Filling? {
      forall i | i in th.at.reserved - th.at.left
        ensures FilledAt(Next(s, a).bag, th.send.given, th.at.reserved, i)
      {
        assert FilledAt(s.bag, th.send.given, th.at.reserved, i);
        OthersLeaveSlots(s, a, t, i);
      }
    }
  }

  lemma StepKeepsOrder(s: State, a: Action)
    requires Inv(s) && FillsInOrder(s) && Enabled(s, a)
    ensures FillsInOrder(Next(s, a))
  {
    hide Inv, Enabled, Next, FilledOk;
    var s' := Next(s, a);
    SameThreads(s, a);
    forall t: nat | t < |s'.threads|
      ensures FilledOk(s'.bag, s'.threads[t])
    {
      if a.DropBag? {
        DropEndsFilling(s, t);
      } else if ThreadOf(a) != Some(t) {
        OthersKeepOrder(s, a, t);
      } else if a.Fill? {
        FillKeepsOrder(s, t, a.slot);
      } else {
        OwnStep(s, a, t);
        NothingFilled(s'.bag, s'.threads[t]);
      }
    }
  }

  lemma NothingFilled(bag: seq<Option<Item>>, th: Thread)
    requires th.Sender? && th.at.Filling? ==> th.at.left == th.at.reserved
    ensures FilledOk(bag, th)
  {
  }

  lemma DropEndsFilling(s: State, t: nat)
    requires Enabled(s, DropBag) && t < |Next(s, DropBag).threads|
    ensures FilledOk(Next(s, DropBag).bag, Next(s, DropBag).threads[t])
  {
    hide Total, Assign;
  }

  lemma SameThreads(s: State, a: Action)
    requires Enabled(s, a)
    ensures |Next(s, a).threads| == |s.threads|
  {
    hide Enabled, Next;
    if OfFilling(a) {
      SameByFilling(s, a);
    } else if OfSender(a) {
      SameBySender(s, a);
    } else if OfReceiver(a) {
      SameByReceiver(s, a);
    } else {
      SameByHandle(s, a);
    }
  }

  lemma SameByFilling(s: State, a: Action)
    requires Enabled(s, a) && OfFilling(a)
    ensures |Next(s, a).threads| == |s.threads|
  {
    hide Assign, Masks.Trimmed, ReserveFailedMove;
  }

  lemma SameBySender(s: State, a: Action)
    requires Enabled(s, a) && OfSender(a) && !OfFilling(a)
    ensures |Next(s, a).threads| == |s.threads|
  {
    hide StartSendMove, SendPollMove, SendSleepMove, SendRearmMove;
  }

  lemma SameByReceiver(s: State, a: Action)
    requires Enabled(s, a) && OfReceiver(a)
    ensures |Next(s, a).threads| == |s.threads|
  {
    hide Assign, ClaimFailedMove, RecvPollMove, RecvSleepMove, RecvRearmMove;
  }

  lemma SameByHandle(s: State, a: Action)
    requires Enabled(s, a) && !OfSender(a) && !OfReceiver(a)
    ensures |Next(s, a).threads| == |s.threads|
  {
    hide Assign, Total, SenderInUse, ReceiverInUse;
  }

  lemma {:induction false} RunKeepsOrder(trace: seq<State>, acts: seq<Action>, k: nat)
    requires Run(trace, acts) && Inv(trace[0]) && FillsInOrder(trace[0]) && k <= |acts|
    ensures FillsInOrder(trace[k]) && Inv(trace[k])
  {
    hide Inv, FillsInOrder, Next, Enabled;
    if k > 0 {
      RunKeepsOrder(trace, acts, k - 1);
      assert Step(trace[k - 1], acts[k - 1], trace[k - 1 + 1]);
      StepKeepsOrder(trace[k - 1], acts[k - 1]);
      MpmcSteps.StepKeeps(trace[k - 1], acts[k - 1]);
    }
  }

  lemma InOrderAtFirst(s: State)
    requires Initial(s)
    ensures FillsInOrder(s)
  {
  }

  /** The slots in `done` hold items of the buffer `given`, from its end: each the item whose
      place from the end is the place of the slot among those that were reserved. */
  ghost predicate BatchIn(bag: seq<Option<Item>>, given: seq<Item>, reserved: set<nat>, done: set<nat>) {
    forall i: nat :: i in done ==>
      && i < |bag| && |set k | k in reserved && k < i| < |given|
      && bag[i] == Some(given[|given| - 1 - |set k | k in reserved && k < i|])
  }

  lemma FilledState(s: State, t: nat)
    requires Inv(s) && FillsInOrder(s) && AtSend(s, t) && s.threads[t].at.Filling?
    ensures var given := s.threads[t].send.given; var Filling(data, reserved, left) := s.threads[t].at;
            && left <= reserved && |reserved - left| <= |reserved| <= |given|
            && data == given[..|given| - |reserved - left|]
            && (forall j, k :: j in reserved - left && k in left ==> j < k)
            && BatchIn(s.bag, given, reserved, reserved - left)
  {
    hide Inv;
    MpmcSteps.Facts(s, t);
    assert FilledOk(s.bag, s.threads[t]);
    var reserved, left := s.threads[t].at.reserved, s.threads[t].at.left;
    hide FillsInOrder, Present, RoleOf;
    MpmcSteps.SubsetSize(reserved - left, reserved);
    assert reserved == (reserved - left) + left;
    AllFilledAt(s.bag, s.threads[t].send.given, reserved, reserved - left);
  }

  lemma AllFilledAt(bag: seq<Option<Item>>, given: seq<Item>, reserved: set<nat>, done: set<nat>)
    requires forall i :: i in done ==> FilledAt(bag, given, reserved, i)
    ensures BatchIn(bag, given, reserved, done)
  {
    forall i: nat | i in done
      ensures FilledAt(bag, given, reserved, i)
    {
    }
  }

  /** In every reachable state: a sender has taken its items from the end of the buffer and put
      them into the first of its slots, in that order. */
  lemma FilledFromTheEnd(s: State, t: nat)
    requires Reachable(s) && AtSend(s, t) && s.threads[t].at.Filling?
    ensures var given := s.threads[t].send.given; var Filling(data, reserved, left) := s.threads[t].at;
            && left <= reserved && |reserved - left| <= |reserved| <= |given|
            && data == given[..|given| - |reserved - left|]
            && (forall j, k :: j in reserved - left && k in left ==> j < k)
            && BatchIn(s.bag, given, reserved, reserved - left)
  {
    hide Next, Enabled, Initial, Inv, FillsInOrder, BatchIn;
    var trace, acts :| Run(trace, acts) && Initial(trace[0]) && trace[|acts|] == s;
    InOrderAtFirst(trace[0]);
    InitialInv(trace[0]);
    RunKeepsOrder(trace, acts, |acts|);
    FilledState(s, t);
  }

  /** A send that commits has left the buffer without exactly the items it sent, and reports
      that, after waking a receiver if one sleeps. */
  lemma CommitLeaves(s: State, t: nat, s': State)
    requires Reachable(s) && Step(s, Commit(t), s')
    ensures AtSend(s, t) && s.threads[t].at.Filling? && t < |s'.threads|
    ensures var c, reserved := s.threads[t].send, s.threads[t].at.reserved;
            && |reserved| <= |c.given|
            && var rest := c.given[..|c.given| - |reserved|];
            && (s.recv.sleeping ==> s'.threads[t] == Sender(c, WakingReceiver(rest)))
            && (!s.recv.sleeping ==> s'.threads[t] == Idle && s'.log == s.log + [SendReturned(c.given, rest, Sent)])
            && s'.recv.slots == s.recv.slots + reserved && s'.bag == s.bag
  {
    hide Reachable, Inv, BatchIn;
    CommitFacts(s, t);
    FilledFromTheEnd(s, t);
    assert s.threads[t].at.reserved - {} == s.threads[t].at.reserved;
    CommitStep(s, t);
  }

  lemma CommitFacts(s: State, t: nat)
    requires Enabled(s, Commit(t))
    ensures AtSend(s, t) && s.threads[t].at.Filling? && s.threads[t].at.left == {}
  {
  }

  lemma CommitStep(s: State, t: nat)
    requires Enabled(s, Commit(t))
    ensures var s' := Next(s, Commit(t)); var c := s.threads[t].send; var Filling(data, reserved, _) := s.threads[t].at;
            && t < |s'.threads| && s'.recv.slots == s.recv.slots + reserved && s'.bag == s.bag
            && (s.recv.sleeping ==> s'.threads[t] == Sender(c, WakingReceiver(data)))
            && (!s.recv.sleeping ==> s'.threads[t] == Idle && s'.log == s.log + [SendReturned(c.given, data, Sent)])
  {
    hide Assign;
  }
}
