/** What holds of the bag in every reachable state and over every run. */
module MpmcTheorems {
  import opened Status
  import opened Tally
  import opened Mpmc
  import opened MpmcInvariant
  import MpmcSteps
  import Masks

  // ----- runs

  ghost predicate Step(s: State, a: Action, s': State) {
    Enabled(s, a) && s' == Next(s, a)
  }

  ghost predicate Run(trace: seq<State>, acts: seq<Action>) {
    && |trace| == |acts| + 1
    && forall k :: 0 <= k < |acts| ==> Step(trace[k], acts[k], trace[k + 1])
  }

  ghost predicate Reachable(s: State) {
    exists trace, acts :: Run(trace, acts) && Initial(trace[0]) && trace[|acts|] == s
  }

  lemma InitialInv(s: State)
    requires Initial(s)
    ensures Inv(s)
  {
    NothingHeld(s.threads);
    EmptyBag(s.bag);
  }

  lemma {:induction false} NothingHeld(threads: seq<Thread>)
    requires forall t :: 0 <= t < |threads| ==> threads[t].Idle?
    ensures Total(threads, HeldBy) == multiset{}
  {
    if threads != [] {
      NothingHeld(threads[..|threads| - 1]);
    }
  }

  lemma {:induction false} EmptyBag(bag: seq<Option<Item>>)
    requires forall i :: 0 <= i < |bag| ==> bag[i].None?
    ensures Total(bag, InSlot) == multiset{}
  {
    if bag != [] {
      EmptyBag(bag[..|bag| - 1]);
    }
  }

  /** The invariant holds in every state of every run. */
  lemma {:induction false} RunInv(trace: seq<State>, acts: seq<Action>, k: nat)
    requires Run(trace, acts) && Inv(trace[0]) && k <= |acts|
    ensures Inv(trace[k])
  {
    hide Inv, Next, Enabled;
    if k > 0 {
      RunInv(trace, acts, k - 1);
      assert Step(trace[k - 1], acts[k - 1], trace[k - 1 + 1]);
      MpmcSteps.StepKeeps(trace[k - 1], acts[k - 1]);
    }
  }

  lemma ReachableInv(s: State)
    requires Reachable(s)
    ensures Inv(s)
  {
    hide Inv, Next, Enabled, Initial;
    var trace, acts :| Run(trace, acts) && Initial(trace[0]) && trace[|acts|] == s;
    InitialInv(trace[0]);
    RunInv(trace, acts, |acts|);
  }

  // ----- ownership

  /** The slots whose memory a thread may touch. */
  function Touched(th: Thread): set<nat> {
    Reserved(th) + Claimed(th)
  }

  ghost predicate Partition(s: State) {
    && (forall t, u :: 0 <= t < u < |s.threads| ==> Touched(s.threads[t]) !! Touched(s.threads[u]))
    && (forall t :: 0 <= t < |s.threads| ==> Touched(s.threads[t]) !! s.recv.slots && Touched(s.threads[t]) <= s.send.slots)
    && s.recv.slots <= s.send.slots <= AllSlots
    && (forall i :: i in s.send.slots && i !in s.recv.slots && !s.send.dead ==>
          exists t :: 0 <= t < |s.threads| && i in Touched(s.threads[t]))
  }

  /** No slot is ever in the hands of two threads, or of one and committed; the bit in
      `send` is on exactly while the slot is taken; nothing is ever read from an empty slot,
      written over a value, or taken from an empty buffer. */
  lemma SlotsArePartitioned(s: State)
    requires Reachable(s)
    ensures Partition(s) && !s.fault
    ensures forall i: nat :: i in s.recv.slots ==> i < |s.bag| && s.bag[i].Some?
    ensures forall i: nat :: i < |s.bag| && i !in s.send.slots ==> s.bag[i].None?
  {
    hide WakeOk, ItemsOk, LogOk, ThreadsOk, SendersOk, ReceiversOk;
    ReachableInv(s);
    forall t, u | 0 <= t < u < |s.threads|
      ensures Touched(s.threads[t]) !! Touched(s.threads[u])
    {
      assert SlotsOk(s.owner, s.threads[t], t) && SlotsOk(s.owner, s.threads[u], u);
    }
    forall t | 0 <= t < |s.threads|
      ensures Touched(s.threads[t]) !! s.recv.slots && Touched(s.threads[t]) <= s.send.slots
    {
      assert SlotsOk(s.owner, s.threads[t], t);
    }
    forall i | i in s.send.slots && i !in s.recv.slots && !s.send.dead
      ensures exists t :: 0 <= t < |s.threads| && i in Touched(s.threads[t])
    {
      assert s.owner[i].ReservedBy? || s.owner[i].ClaimedBy?;
      assert i in Touched(s.threads[s.owner[i].t]);
    }
  }

  // ----- conservation

  /** Everything that was handed to a `send` is handed back, handed to a receiver, dropped
      with the bag, held by a call in flight, or in a slot: each item exactly once. */
  lemma NothingLostOrDuplicated(s: State)
    requires Reachable(s)
    ensures Total(s.log, HandedIn) == Total(s.log, HandedOut) + Total(s.threads, HeldBy) + Total(s.bag, InSlot)
  {
    ReachableInv(s);
  }

  /** A failed send hands the buffer back as it was; a successful one hands back a proper
      prefix; a successful receive brings between 1 and 30 items. */
  lemma OutcomesAreHonest(s: State, k: nat)
    requires Reachable(s) && k < |s.log|
    ensures match s.log[k]
            case SendReturned(given, rest, Sent) => rest <= given && (given != [] ==> |rest| < |given|)
            case SendReturned(given, rest, _) => rest == given
            case RecvReturned(values) => 0 < |values| <= 30
            case _ => true
  {
    ReachableInv(s);
    assert EventOk(s.log[k]);
  }

  /** Once the bag is dropped, everything handed in has been handed out or dropped. */
  lemma DroppedBagIsEmpty(s: State)
    requires Reachable(s) && Enabled(s, DropBag)
    ensures var s' := Next(s, DropBag);
            !s'.fault && Total(s'.log, HandedIn) == Total(s'.log, HandedOut)
  {
    hide Total, WakeOk;
    ReachableInv(s);
    MpmcSteps.DropBagKeeps(s);
    var s' := Next(s, DropBag);
    NothingHeld(s'.threads);
    forall i | 0 <= i < |s'.bag|
      ensures s'.bag[i].None?
    {
      assert !HoldsValue(s'.owner[i], s'.threads, i);
    }
    EmptyBag(s'.bag);
    Nothing(Total(s'.log, HandedOut));
  }
}
