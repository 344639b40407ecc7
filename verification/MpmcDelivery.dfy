/** From the slots to the receiver: a receive collects what it claimed in ascending order of
    the slots, so a batch that is received at once arrives last item first. */
module MpmcDelivery {
  import opened Status
  import opened Tally
  import opened Mpmc
  import opened MpmcInvariant
  import opened MpmcTheorems
  import opened MpmcDisconnect
  import opened MpmcProgress
  import opened MpmcOthers
  import opened MpmcOrder
  import MpmcCalls
  import MpmcSteps

  // ----- a receive

  /** Since its claim before state `i`, thread `t` has been emptying its slots. */
  ghost predicate Drains(trace: seq<State>, t: nat, i: nat, j: nat) {
    j < |trace| && forall m :: i < m <= j ==> AtRecv(trace[m], t) && trace[m].threads[t].on.Draining?
  }

  /** Where a receive stands that claimed `claimed` when the bag was `bag`. */
  ghost predicate CollectedOk(bag: seq<Option<Item>>, claimed: set<nat>, s: State, t: nat) {
    && AtRecv(s, t) && s.threads[t].on.Draining?
    && var on := s.threads[t].on;
    && on.claimed == claimed && on.left <= claimed && |on.values| + |on.left| == |claimed|
    && InOrder(claimed, on.left)
    && (forall k :: k in claimed - on.left ==> CollectedAt(bag, claimed, on.values, k))
    && forall k: nat :: k in on.left ==> k < |bag| && k < |s.bag| && s.bag[k] == bag[k]
  }

  /** The value from slot `k` is where the place of the slot among the claimed ones says. */
  ghost predicate CollectedAt(bag: seq<Option<Item>>, claimed: set<nat>, values: seq<Item>, k: nat) {
    var r := Rank(claimed, k);
    k < |bag| && r < |values| && bag[k] == Some(values[r])
  }

  lemma ClaimStarts(s: State, t: nat, s': State)
    requires Inv(s) && Step(s, Claim(t), s') && AtRecv(s', t) && s'.threads[t].on.Draining?
    ensures CollectedOk(s.bag, s.recv.slots, s', t)
  {
    hide Inv, Enabled, Next;
    MpmcCalls.ClaimOutcome(s, t, s');
    MpmcSteps.Sizes(s);
  }

  lemma DrainStep(bag: seq<Option<Item>>, claimed: set<nat>, s: State, t: nat, slot: nat)
    requires Inv(s) && Enabled(s, Drain(t, slot)) && CollectedOk(bag, claimed, s, t)
    ensures CollectedOk(bag, claimed, Next(s, Drain(t, slot)), t)
  {
    hide Inv, Rank;
    var s' := Next(s, Drain(t, slot));
    MpmcSteps.StepKeeps(s, Drain(t, slot));
    NoFault(s');
    var Draining(values, _, left) := s.threads[t].on;
    RankOfFirst(claimed, left, slot);
    assert |left - {slot}| == |left| - 1;
    forall k | k in claimed - (left - {slot})
      ensures CollectedAt(bag, claimed, s'.threads[t].on.values, k)
    {
      if k != slot {
        assert CollectedAt(bag, claimed, values, k);
      }
    }
    forall j, k | j in claimed - (left - {slot}) && k in left - {slot}
      ensures j < k
    {
      assert j == slot || j in claimed - left;
    }
  }

  lemma OthersStep(bag: seq<Option<Item>>, claimed: set<nat>, s: State, a: Action, t: nat)
    requires Inv(s) && Enabled(s, a) && ThreadOf(a) != Some(t) && !a.DropBag? && CollectedOk(bag, claimed, s, t)
    ensures CollectedOk(bag, claimed, Next(s, a), t)
  {
    hide Inv, Enabled, Next, Rank;
    StepOfAnother(s, a, t);
    forall k: nat | k in s.threads[t].on.left
      ensures k < |Next(s, a).bag| && Next(s, a).bag[k] == s.bag[k]
    {
      OthersLeaveSlots(s, a, t, k);
    }
  }

  /** A thread that is emptying slots and still is after its own step has emptied one. */
  lemma OwnStepDrains(s: State, a: Action, t: nat)
    requires Enabled(s, a) && AtRecv(s, t) && s.threads[t].on.Draining? && ThreadOf(a) == Some(t)
    ensures a.Drain? || a.Release?
  {
  }

  lemma NoDropWhileDraining(s: State, a: Action, t: nat)
    requires Enabled(s, a) && AtRecv(s, t)
    ensures !a.DropBag?
  {
  }

  lemma ReleaseEndsDraining(s: State, t: nat)
    requires Enabled(s, Release(t))
    ensures !(AtRecv(Next(s, Release(t)), t) && Next(s, Release(t)).threads[t].on.Draining?)
  {
    hide Assign;
  }

  lemma {:induction false} Collects(trace: seq<State>, acts: seq<Action>, t: nat, i: nat, j: nat)
    requires Run(trace, acts) && Inv(trace[0]) && i < j <= |acts| && acts[i] == Claim(t) && Drains(trace, t, i, j)
    ensures CollectedOk(trace[i].bag, trace[i].recv.slots, trace[j], t)
  {
    hide Inv, Enabled, Next, CollectedOk;
    RunInv(trace, acts, j - 1);
    assert Step(trace[j - 1], acts[j - 1], trace[j - 1 + 1]);
    if j == i + 1 {
      ClaimStarts(trace[i], t, trace[j]);
    } else {
      Collects(trace, acts, t, i, j - 1);
      var s, a := trace[j - 1], acts[j - 1];
      var bag, claimed := trace[i].bag, trace[i].recv.slots;
      NoDropWhileDraining(s, a, t);
      if ThreadOf(a) != Some(t) {
        OthersStep(bag, claimed, s, a, t);
      } else {
        OwnStepDrains(s, a, t);
        if a.Release? {
          ReleaseEndsDraining(s, t);
        }
        DrainStep(bag, claimed, s, t, a.slot);
      }
    }
  }

  /** The values are those of the claimed slots, in ascending order of the slots. */
  ghost predicate InSlotOrder(bag: seq<Option<Item>>, claimed: set<nat>, values: seq<Item>) {
    && |values| == |claimed|
    && forall k: nat :: k in claimed ==>
         && k < |bag| && |set l | l in claimed && l < k| < |values|
         && bag[k] == Some(values[|set l | l in claimed && l < k|])
  }

  lemma AllCollected(bag: seq<Option<Item>>, claimed: set<nat>, s: State, t: nat)
    requires CollectedOk(bag, claimed, s, t) && s.threads[t].on.left == {}
    ensures InSlotOrder(bag, claimed, s.threads[t].on.values)
  {
    forall k: nat | k in claimed
      ensures CollectedAt(bag, claimed, s.threads[t].on.values, k)
    {
      assert k in claimed - {};
    }
  }

  /** When a receive has emptied its slots, its values are those that were in the claimed slots
      at the claim, in ascending order of the slots, and that is what it reports. */
  lemma ReceivedInSlotOrder(trace: seq<State>, acts: seq<Action>, t: nat, i: nat, j: nat)
    requires Run(trace, acts) && Initial(trace[0]) && i < j < |acts|
    requires acts[i] == Claim(t) && Drains(trace, t, i, j) && acts[j] == Release(t)
    ensures AtRecv(trace[j], t) && trace[j].threads[t].on.Draining? && t < |trace[j + 1].threads|
    ensures var claimed, values := trace[i].recv.slots, trace[j].threads[t].on.values;
            && InSlotOrder(trace[i].bag, claimed, values)
            && (trace[j].send.sleeping ==> trace[j + 1].threads[t] == Receiver(trace[j].threads[t].recv, WakingSender(values)))
            && (!trace[j].send.sleeping ==>
                  trace[j + 1].threads[t] == Idle && trace[j + 1].log == trace[j].log + [RecvReturned(values)])
  {
    hide Inv, Initial, Enabled, Next, CollectedOk, InSlotOrder;
    InitialInv(trace[0]);
    Collects(trace, acts, t, i, j);
    assert Step(trace[j], acts[j], trace[j + 1]);
    ReleaseReports(trace[j], t, trace[j + 1]);
    AllCollected(trace[i].bag, trace[i].recv.slots, trace[j], t);
  }

  lemma ReleaseReports(s: State, t: nat, s': State)
    requires Step(s, Release(t), s')
    ensures AtRecv(s, t) && s.threads[t].on.Draining? && s.threads[t].on.left == {} && t < |s'.threads|
    ensures var c, values := s.threads[t].recv, s.threads[t].on.values;
            && (s.send.sleeping ==> s'.threads[t] == Receiver(c, WakingSender(values)))
            && (!s.send.sleeping ==> s'.threads[t] == Idle && s'.log == s.log + [RecvReturned(values)])
  {
    hide Assign;
  }

  // ----- from a sender to a receiver

  /** What is committed stays as it is until it is claimed. */
  lemma {:induction false} CommittedStays(trace: seq<State>, acts: seq<Action>, k: nat, i: nat, j: nat)
    requires Run(trace, acts) && Inv(trace[0]) && i <= j <= |acts|
    requires forall m :: i <= m <= j ==> k in trace[m].recv.slots
    ensures k < SLOTS && |trace[i].bag| == |trace[j].bag| == SLOTS && trace[j].bag[k] == trace[i].bag[k]
  {
    hide Inv, Enabled, Next;
    RunInv(trace, acts, j);
    MpmcSteps.Sizes(trace[j]);
    if i < j {
      CommittedStays(trace, acts, k, i, j - 1);
      RunInv(trace, acts, j - 1);
      var s, a := trace[j - 1], acts[j - 1];
      assert Step(s, a, trace[j - 1 + 1]);
      CommittedUntouched(s, a, k);
      SlotChanges(s, a, k);
    }
  }

  lemma CommittedUntouched(s: State, a: Action, k: nat)
    requires Inv(s) && Enabled(s, a) && k in s.recv.slots && k in Next(s, a).recv.slots
    ensures !a.DropBag? && !(a.Fill? && a.slot == k) && !(a.Drain? && a.slot == k)
  {
    hide Inv;
    if a.DropBag? {
      DropEmpties(s);
    } else if a.Fill? || a.Drain? {
      MoverHolds(s, a);
      HeldNotCommitted(s, a.t, a.slot);
    }
  }

  lemma DropEmpties(s: State)
    requires Enabled(s, DropBag)
    ensures Next(s, DropBag).recv.slots == {}
  {
    hide Total, Assign;
  }

  lemma HeldNotCommitted(s: State, t: nat, k: nat)
    requires Inv(s) && t < |s.threads| && k in Reserved(s.threads[t]) + Claimed(s.threads[t])
    ensures k !in s.recv.slots
  {
    hide WakeOk, ItemsOk, LogOk, ThreadsOk, SendersOk, ReceiversOk, BagOk;
    assert SlotsOk(s.owner, s.threads[t], t);
  }

  /** A batch from end to end: the items that a sender commits at step `c` and a receiver
      claims together at step `i` come out in the order of their slots, the last item of the
      buffer first. */
  lemma BatchArrivesLastItemFirst(trace: seq<State>, acts: seq<Action>, t: nat, c: nat, u: nat, i: nat, j: nat)
    requires Run(trace, acts) && Initial(trace[0]) && c < i < j < |acts|
    requires acts[c] == Commit(t) && AtSend(trace[c], t) && trace[c].threads[t].at.Filling?
    requires acts[i] == Claim(u) && Drains(trace, u, i, j) && acts[j] == Release(u)
    requires forall m :: c < m <= i ==> trace[c].threads[t].at.reserved <= trace[m].recv.slots
    ensures AtRecv(trace[j], u) && trace[j].threads[u].on.Draining?
    ensures LastItemFirst(trace[c].threads[t].send.given, trace[c].threads[t].at.reserved,
                          trace[i].recv.slots, trace[j].threads[u].on.values)
  {
    hide Inv, Initial, Enabled, Next, BatchIn, InSlotOrder, LastItemFirst;
    InitialInv(trace[0]);
    ReachableAt(trace, acts, c);
    FilledFromTheEnd(trace[c], t);
    assert Step(trace[c], acts[c], trace[c + 1]);
    MpmcOrder.CommitLeaves(trace[c], t, trace[c + 1]);
    MpmcOrder.CommitFacts(trace[c], t);
    ReceivedInSlotOrder(trace, acts, u, i, j);
    var given, reserved := trace[c].threads[t].send.given, trace[c].threads[t].at.reserved;
    assert reserved - {} == reserved;
    forall k: nat | k in reserved
      ensures k < |trace[i].bag| && k < |trace[c].bag| && trace[i].bag[k] == trace[c].bag[k]
    {
      CommittedStays(trace, acts, k, c + 1, i);
    }
    Arrives(trace[c].bag, trace[i].bag, given, reserved, trace[i].recv.slots, trace[j].threads[u].on.values);
  }

  /** Of the items at the end of `given`, sent in the slots `reserved`, the last comes first. */
  ghost predicate LastItemFirst(given: seq<Item>, reserved: set<nat>, claimed: set<nat>, values: seq<Item>) {
    forall k: nat :: k in reserved ==>
      var from, to := |set l | l in reserved && l < k|, |set l | l in claimed && l < k|;
      from < |given| && to < |values| && values[to] == given[|given| - 1 - from]
  }

  lemma Arrives(sent: seq<Option<Item>>, bag: seq<Option<Item>>, given: seq<Item>, reserved: set<nat>, claimed: set<nat>,
                values: seq<Item>)
    requires BatchIn(sent, given, reserved, reserved) && InSlotOrder(bag, claimed, values) && reserved <= claimed
    requires forall k: nat :: k in reserved ==> k < |bag| && k < |sent| && bag[k] == sent[k]
    ensures LastItemFirst(given, reserved, claimed, values)
  {
  }

  lemma ReachableAt(trace: seq<State>, acts: seq<Action>, n: nat)
    requires Run(trace, acts) && Initial(trace[0]) && n <= |acts|
    ensures Reachable(trace[n])
  {
    hide Initial, Next, Enabled;
    var trace', acts' := trace[..n + 1], acts[..n];
    forall k | 0 <= k < |acts'|
      ensures Step(trace'[k], acts'[k], trace'[k + 1])
    {
      assert Step(trace[k], acts[k], trace[k + 1]);
    }
    assert Run(trace', acts') && trace'[0] == trace[0] && trace'[|acts'|] == trace[n];
  }
}
