/** What every step of the bag keeps, in six parts, and for each part what a step that
    moves a single thread has to leave alone. */
module MpmcInvariant {
  import opened Status
  import opened Tally
  import opened Mpmc

  /** A step that moves thread `t` only. */
  ghost predicate OnlyThread(s: State, s': State, t: nat) {
    && t < |s.threads|
    && |s'.threads| == |s.threads|
    && s'.threads == s.threads[t := s'.threads[t]]
  }

  // ----- 1. handles, counters and disconnect flags

  predicate DropsSender(th: Thread) {
    th.Dropper? && (th.drop.HangingUpSender? || th.drop.WakingReceivers?)
  }

  predicate DropsReceiver(th: Thread) {
    th.Dropper? && (th.drop.HangingUpReceiver? || th.drop.WakingSenders?)
  }

  ghost predicate SendersOk(s: State) {
    && s.numSenders == |s.senders|
    && (forall t :: 0 <= t < |s.threads| && s.threads[t].Sender? ==> s.threads[t].send.handle in s.senders)
    && (s.recv.dead ==> s.senders == map[])
    && (forall t :: 0 <= t < |s.threads| && DropsSender(s.threads[t])
                    ==> s.senders == map[] && (s.recv.dead <==> s.threads[t].drop.WakingReceivers?))
    && (forall t, u :: HangingSender(s, t) && HangingSender(s, u) ==> t == u)
    && (s.senders == map[] && !s.recv.dead ==> exists t :: HangingSender(s, t))
  }

  ghost predicate HangingSender(s: State, t: nat) {
    t < |s.threads| && s.threads[t] == Dropper(HangingUpSender)
  }

  ghost predicate ReceiversOk(s: State) {
    && s.numReceivers == |s.receivers|
    && (forall t :: 0 <= t < |s.threads| && s.threads[t].Receiver? ==> s.threads[t].recv.handle in s.receivers)
    && (s.send.dead ==> s.receivers == {})
    && (forall t :: 0 <= t < |s.threads| && DropsReceiver(s.threads[t])
                    ==> s.receivers == {} && (s.send.dead <==> s.threads[t].drop.WakingSenders?))
    && (forall t, u :: HangingReceiver(s, t) && HangingReceiver(s, u) ==> t == u)
    && (s.receivers == {} && !s.send.dead ==> exists t :: HangingReceiver(s, t))
  }

  ghost predicate HangingReceiver(s: State, t: nat) {
    t < |s.threads| && s.threads[t] == Dropper(HangingUpReceiver)
  }

  lemma SendersFrame(s: State, s': State, t: nat)
    requires SendersOk(s) && OnlyThread(s, s', t)
    requires s'.senders == s.senders && s'.numSenders == s.numSenders
    requires s'.recv.dead == s.recv.dead || (s.threads[t].Sender? && !s'.recv.dead)
    requires s'.threads[t].Sender? ==> s'.threads[t].send.handle in s.senders
    requires s.threads[t] != Dropper(HangingUpSender) && !DropsSender(s'.threads[t])
    ensures SendersOk(s')
  {
    assert forall u :: HangingSender(s', u) ==> HangingSender(s, u);
    if s'.senders == map[] && !s'.recv.dead {
      var u :| HangingSender(s, u);
      assert HangingSender(s', u);
    }
  }

  lemma ReceiversFrame(s: State, s': State, t: nat)
    requires ReceiversOk(s) && OnlyThread(s, s', t)
    requires s'.receivers == s.receivers && s'.numReceivers == s.numReceivers
    requires s'.send.dead == s.send.dead || (s.threads[t].Receiver? && !s'.send.dead)
    requires s'.threads[t].Receiver? ==> s'.threads[t].recv.handle in s.receivers
    requires s.threads[t] != Dropper(HangingUpReceiver) && !DropsReceiver(s'.threads[t])
    ensures ReceiversOk(s')
  {
    assert forall u :: HangingReceiver(s', u) ==> HangingReceiver(s, u);
    if s'.receivers == {} && !s'.send.dead {
      var u :| HangingReceiver(s, u);
      assert HangingReceiver(s', u);
    }
  }

  // ----- 2. the locals of each thread

  predicate ThreadOk(th: Thread) {
    match th
    case Sender(c, at) => c.given != [] && SendStepOk(c, at)
    case Receiver(_, on) => RecvStepOk(on)
    case _ => true
  }

  predicate SendStepOk(c: SendCall, at: SendStep) {
    match at
    case Reserving(mask) => mask != {} && mask <= AllSlots && |mask| <= |c.given|
    case Filling(data, reserved, left) =>
      && left <= reserved && reserved != {} && |reserved| <= |c.given|
      && |data| + |reserved| == |c.given| + |left| && data <= c.given
    case WakingReceiver(data) => |data| < |c.given| && data <= c.given
    case SendSleeping(expected) => expected == Word(AllSlots, false, true)
    case _ => true
  }

  predicate RecvStepOk(on: RecvStep) {
    match on
    case Draining(values, claimed, left) =>
      left <= claimed && claimed != {} && claimed <= AllSlots && |values| + |left| == |claimed|
    case WakingSender(values) => 0 < |values| <= SLOTS
    case RecvSleeping(expected) => expected == Word({}, false, true)
    case _ => true
  }

  ghost predicate ThreadsOk(s: State) {
    forall t :: 0 <= t < |s.threads| ==> ThreadOk(s.threads[t])
  }

  lemma ThreadsFrame(s: State, s': State, t: nat)
    requires ThreadsOk(s) && OnlyThread(s, s', t)
    requires ThreadOk(s.threads[t]) ==> ThreadOk(s'.threads[t])
    ensures ThreadsOk(s')
  {
  }

  // ----- 3. who holds which slot

  function Reserved(th: Thread): set<nat> {
    if th.Sender? && th.at.Filling? then th.at.reserved else {}
  }

  function Claimed(th: Thread): set<nat> {
    if th.Receiver? && th.on.Draining? then th.on.claimed else {}
  }

  /** The slots a thread works on are in its name. */
  ghost predicate SlotsOk(owner: seq<Owner>, th: Thread, t: nat) {
    && (forall i :: i in Reserved(th) ==> i < |owner| && owner[i] == ReservedBy(t))
    && (forall i :: i in Claimed(th) ==> i < |owner| && owner[i] == ClaimedBy(t))
  }

  ghost predicate OwnedOk(s: State) {
    && |s.owner| == SLOTS
    && (forall i: nat :: i in s.send.slots <==> i < SLOTS && s.owner[i] != Free)
    && (forall i: nat :: i in s.recv.slots <==> i < SLOTS && s.owner[i] == Committed)
    && (forall i: nat :: i < SLOTS && s.owner[i] == Abandoned ==> s.send.dead)
    && (forall i: nat :: i < SLOTS && s.owner[i].ReservedBy? ==>
                      s.owner[i].t < |s.threads| && i in Reserved(s.threads[s.owner[i].t]))
    && (forall i: nat :: i < SLOTS && s.owner[i].ClaimedBy? ==>
                      s.owner[i].t < |s.threads| && i in Claimed(s.threads[s.owner[i].t]))
    && (forall t: nat :: t < |s.threads| ==> SlotsOk(s.owner, s.threads[t], t))
  }

  lemma OwnedFrame(s: State, s': State, t: nat)
    requires OwnedOk(s) && OnlyThread(s, s', t)
    requires s'.owner == s.owner && s'.send.slots == s.send.slots && s'.recv.slots == s.recv.slots
    requires s.send.dead ==> s'.send.dead
    requires Reserved(s'.threads[t]) == Reserved(s.threads[t])
    requires Claimed(s'.threads[t]) == Claimed(s.threads[t])
    ensures OwnedOk(s')
  {
    forall u: nat | u < |s'.threads|
      ensures SlotsOk(s'.owner, s'.threads[u], u)
    {
      assert SlotsOk(s.owner, s.threads[u], u);
    }
  }

  /** The slots in `slots` pass from thread `t` (or nobody) to `o`. */
  lemma OwnedHandOver(s: State, s': State, t: nat, slots: set<nat>, o: Owner)
    requires OwnedOk(s) && OnlyThread(s, s', t)
    requires s'.owner == Assign(s.owner, slots, o) && slots <= AllSlots
    requires Reserved(s.threads[t]) <= slots && Claimed(s.threads[t]) <= slots
    requires forall i :: i in slots ==> i < SLOTS && (s.owner[i] in {ReservedBy(t), ClaimedBy(t), Free, Committed})
    requires s'.send.slots == if o == Free then s.send.slots - slots else s.send.slots + slots
    requires s'.recv.slots == if o == Committed then s.recv.slots + slots else s.recv.slots - slots
    requires Reserved(s'.threads[t]) == if o == ReservedBy(t) then slots else {}
    requires Claimed(s'.threads[t]) == if o == ClaimedBy(t) then slots else {}
    requires o.ReservedBy? || o.ClaimedBy? ==> o.t == t
    requires (s.send.dead || o == Abandoned) ==> s'.send.dead
    ensures OwnedOk(s')
  {
    forall u: nat | u < |s'.threads|
      ensures SlotsOk(s'.owner, s'.threads[u], u)
    {
      assert SlotsOk(s.owner, s.threads[u], u);
    }
  }

  // ----- 4. what is in the slots

  /** The slots a thread has yet to write, or to read. */
  function Left(th: Thread): set<nat> {
    if th.Sender? && th.at.Filling? then th.at.left
    else if th.Receiver? && th.on.Draining? then th.on.left
    else {}
  }

  /** Does slot `i` hold a value, given who holds the slot? */
  predicate HoldsValue(o: Owner, threads: seq<Thread>, i: nat) {
    match o
    case Committed => true
    case ReservedBy(t) => t < |threads| && i in Reserved(threads[t]) && i !in Left(threads[t])
    case ClaimedBy(t) => t < |threads| && i in Left(threads[t])
    case _ => false
  }

  ghost predicate BagOk(s: State) {
    && |s.bag| == SLOTS && |s.owner| == SLOTS && !s.fault
    && forall i :: 0 <= i < SLOTS ==> (s.bag[i].Some? <==> HoldsValue(s.owner[i], s.threads, i))
  }

  lemma BagFrame(s: State, s': State, t: nat)
    requires BagOk(s) && OwnedOk(s) && OnlyThread(s, s', t)
    requires s'.bag == s.bag && s'.owner == s.owner && s'.fault == s.fault
    requires Reserved(s.threads[t]) == {} && Claimed(s.threads[t]) == {}
    ensures BagOk(s')
  {
    forall i | 0 <= i < SLOTS
      ensures HoldsValue(s'.owner[i], s'.threads, i) <==> HoldsValue(s.owner[i], s.threads, i)
    {
      assert s.owner[i] != ReservedBy(t) && s.owner[i] != ClaimedBy(t);
    }
  }

  /** The slots in `slots` change hands and keep their contents. */
  lemma BagHandOver(s: State, s': State, t: nat, slots: set<nat>, o: Owner)
    requires BagOk(s) && OwnedOk(s) && OnlyThread(s, s', t)
    requires s'.bag == s.bag && s'.owner == Assign(s.owner, slots, o) && s'.fault == s.fault
    requires Reserved(s.threads[t]) <= slots && Claimed(s.threads[t]) <= slots
    requires forall i :: i in slots ==> i < SLOTS && (s.bag[i].Some? <==> HoldsValue(o, s'.threads, i))
    ensures BagOk(s')
  {
    forall i: nat | i < SLOTS
      ensures s'.bag[i].Some? <==> HoldsValue(s'.owner[i], s'.threads, i)
    {
      if i !in slots {
        assert s.owner[i] != ReservedBy(t) && s.owner[i] != ClaimedBy(t);
      }
    }
  }

  /** Thread `t` writes or empties one of its slots. */
  lemma BagMoved(s: State, s': State, t: nat, slot: nat)
    requires BagOk(s) && OwnedOk(s) && OnlyThread(s, s', t)
    requires s'.owner == s.owner && s'.fault == s.fault && slot < SLOTS && s.owner[slot] in {ReservedBy(t), ClaimedBy(t)}
    requires |s'.bag| == |s.bag| && s'.bag == s.bag[slot := s'.bag[slot]]
    requires Reserved(s'.threads[t]) == Reserved(s.threads[t]) && Claimed(s'.threads[t]) == Claimed(s.threads[t])
    requires Left(s'.threads[t]) == Left(s.threads[t]) - {slot}
    requires s'.bag[slot].Some? <==> s.owner[slot] == ReservedBy(t)
    ensures BagOk(s')
  {
    assert SlotsOk(s.owner, s.threads[t], t);
    forall i: nat | i < SLOTS && i != slot
      ensures HoldsValue(s'.owner[i], s'.threads, i) <==> HoldsValue(s.owner[i], s.threads, i)
    {
    }
  }

  // ----- 5. conservation

  /** The items a thread has in its hands. */
  function Held(th: Thread): seq<Item> {
    match th
    case Sender(c, Filling(data, _, _)) => data
    case Sender(c, WakingReceiver(data)) => data
    case Sender(c, _) => c.given
    case Receiver(_, Draining(values, _, _)) => values
    case Receiver(_, WakingSender(values)) => values
    case _ => []
  }

  function HeldBy(th: Thread): multiset<Item> {
    multiset(Held(th))
  }

  function HandedIn(e: Event): multiset<Item> {
    if e.Handed? then multiset(e.given) else multiset{}
  }

  function HandedOut(e: Event): multiset<Item> {
    match e
    case SendReturned(_, rest, _) => multiset(rest)
    case RecvReturned(values) => multiset(values)
    case Dropped(remainder) => remainder
    case _ => multiset{}
  }

  /** Every item handed in is in exactly one place: handed out again (back to the sender, to
      a receiver, or dropped with the bag), in the hands of a call, or in a slot. */
  ghost predicate ItemsOk(s: State) {
    Total(s.log, HandedIn) == Total(s.log, HandedOut) + Total(s.threads, HeldBy) + Total(s.bag, InSlot)
  }

  predicate EventOk(e: Event) {
    match e
    case SendReturned(given, rest, Sent) => rest <= given && (given != [] ==> |rest| < |given|)
    case SendReturned(given, rest, _) => rest == given
    case RecvReturned(values) => 0 < |values| <= SLOTS
    case _ => true
  }

  ghost predicate LogOk(s: State) {
    forall k :: 0 <= k < |s.log| ==> EventOk(s.log[k])
  }

  /** A step that moves no item. */
  lemma ItemsFrame(s: State, s': State, t: nat)
    requires ItemsOk(s) && LogOk(s) && OnlyThread(s, s', t) && s'.bag == s.bag && s'.log == s.log
    requires HeldBy(s'.threads[t]) == HeldBy(s.threads[t])
    ensures ItemsOk(s') && LogOk(s')
  {
    hide HeldBy, Total;
    ItemsStep(s, s', t, multiset{}, multiset{}, multiset{}, multiset{});
    Nothing(Total(s.log, HandedIn));
    Nothing(Total(s.log, HandedOut));
  }

  /** A step that hands items in or out. */
  lemma ItemsLogged(s: State, s': State, t: nat, e: Event)
    requires ItemsOk(s) && LogOk(s) && OnlyThread(s, s', t) && s'.bag == s.bag && s'.log == s.log + [e]
    requires HeldBy(s'.threads[t]) + HandedOut(e) == HeldBy(s.threads[t]) + HandedIn(e)
    requires EventOk(e)
    ensures ItemsOk(s') && LogOk(s')
  {
    hide HeldBy, Total, HandedIn, HandedOut;
    TotalAppend(s.log, e, HandedIn);
    TotalAppend(s.log, e, HandedOut);
    Nothing(HeldBy(s.threads[t]));
    Nothing(HeldBy(s'.threads[t]));
    ItemsStep(s, s', t, HandedIn(e), HandedOut(e), multiset{}, multiset{});
  }

  /** A step that moves one item between a thread and a slot. */
  lemma ItemsMoved(s: State, s': State, t: nat, slot: nat)
    requires ItemsOk(s) && LogOk(s) && OnlyThread(s, s', t) && s'.log == s.log
    requires slot < |s.bag| && |s'.bag| == |s.bag| && s'.bag == s.bag[slot := s'.bag[slot]]
    requires HeldBy(s'.threads[t]) + InSlot(s'.bag[slot]) == HeldBy(s.threads[t]) + InSlot(s.bag[slot])
    ensures ItemsOk(s') && LogOk(s')
  {
    hide HeldBy, Total, InSlot;
    TotalUpdate(s.bag, InSlot, slot, s'.bag[slot]);
    ItemsStep(s, s', t, multiset{}, multiset{}, InSlot(s.bag[slot]), InSlot(s'.bag[slot]));
    Nothing(Total(s.log, HandedIn));
    Nothing(Total(s.log, HandedOut));
  }

  lemma ItemsStep(s: State, s': State, t: nat, inn: multiset<Item>, out: multiset<Item>,
                  sl: multiset<Item>, sl': multiset<Item>)
    requires ItemsOk(s) && OnlyThread(s, s', t)
    requires Total(s'.bag, InSlot) + sl == Total(s.bag, InSlot) + sl'
    requires HeldBy(s'.threads[t]) + sl' + out == HeldBy(s.threads[t]) + sl + inn
    ensures Total(s.log, HandedIn) + inn
            == (Total(s.log, HandedOut) + out) + Total(s'.threads, HeldBy) + Total(s'.bag, InSlot)
  {
    hide HeldBy, Total, InSlot;
    TotalUpdate(s.threads, HeldBy, t, s'.threads[t]);
    Balance(Total(s.log, HandedIn), Total(s.log, HandedOut), Total(s.threads, HeldBy), Total(s.bag, InSlot),
            inn, out, Total(s'.threads, HeldBy), Total(s'.bag, InSlot),
            HeldBy(s.threads[t]), HeldBy(s'.threads[t]), sl, sl');
  }

  // ----- 6. wake-ups

  datatype Role =
    | RecvIsParked | RecvIsWoken | RecvIsReturning | RecvWaker
    | SendIsParked | SendIsWoken | SendIsReserving | SendWaker
    | Other

  function RoleOf(th: Thread): Role {
    match th
    case Sender(_, SendParked) => SendIsParked
    case Sender(_, SendWoken) => SendIsWoken
    case Sender(_, Reserving(_)) => SendIsReserving
    case Sender(_, WakingReceiver(_)) => RecvWaker
    case Receiver(_, RecvParked) => RecvIsParked
    case Receiver(_, RecvWoken) => RecvIsWoken
    case Receiver(_, Claiming(true)) => RecvIsReturning
    case Receiver(_, WakingSender(_)) => SendWaker
    case Dropper(WakingReceivers) => RecvWaker
    case Dropper(WakingSenders) => SendWaker
    case _ => Other
  }

  ghost predicate Present(s: State, r: Role) {
    exists t :: 0 <= t < |s.threads| && RoleOf(s.threads[t]) == r
  }

  ghost predicate WakeOk(s: State) {
    // A parked receiver has its flag up, or a wake is in flight, or a woken receiver is
    // about to raise the flag again.
    && (Present(s, RecvIsParked) ==> s.recv.sleeping || Present(s, RecvWaker) || Present(s, RecvIsWoken))
    // No lost data wake-up.
    && (Present(s, RecvIsParked) && s.recv.slots != {} ==>
          Present(s, RecvWaker) || Present(s, RecvIsWoken) || Present(s, RecvIsReturning))
    && (Present(s, SendIsParked) && !s.send.dead ==>
          s.send.sleeping || Present(s, SendWaker) || Present(s, SendIsWoken))
    // The flag of the senders is only up over an empty bag if some sender is about to fill it.
    && (s.send.sleeping && !s.send.dead && s.send.slots == {} ==> Present(s, SendIsReserving))
  }

  lemma RolesAfter(s: State, s': State, t: nat)
    requires OnlyThread(s, s', t)
    ensures forall r :: Present(s', r) ==> Present(s, r) || RoleOf(s'.threads[t]) == r
    ensures forall r :: Present(s, r) && RoleOf(s.threads[t]) != r ==> Present(s', r)
    ensures Present(s', RoleOf(s'.threads[t])) && Present(s, RoleOf(s.threads[t]))
  {
    forall r | Present(s', r)
      ensures Present(s, r) || RoleOf(s'.threads[t]) == r
    {
      var u :| 0 <= u < |s'.threads| && RoleOf(s'.threads[u]) == r;
      assert u != t ==> RoleOf(s.threads[u]) == r;
    }
    forall r | Present(s, r) && RoleOf(s.threads[t]) != r
      ensures Present(s', r)
    {
      var u :| 0 <= u < |s.threads| && RoleOf(s.threads[u]) == r;
      assert RoleOf(s'.threads[u]) == r;
    }
    assert RoleOf(s'.threads[t]) == RoleOf(s'.threads[t]);
  }

  // ----- the invariant

  ghost predicate Inv(s: State) {
    && SendersOk(s) && ReceiversOk(s)
    && ThreadsOk(s)
    && OwnedOk(s)
    && BagOk(s)
    && ItemsOk(s) && LogOk(s)
    && WakeOk(s)
  }
}
