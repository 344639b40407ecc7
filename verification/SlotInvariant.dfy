/** What every step of the one-place channel keeps, in seven parts. */
module SlotInvariant {
  import opened Tally
  import opened Slot

  /** A step that moves thread `t` only. */
  ghost predicate OnlyThread(s: State, s': State, t: nat) {
    && t < |s.threads|
    && |s'.threads| == |s.threads|
    && s'.threads == s.threads[t := s'.threads[t]]
  }

  // ----- 1. handles and disconnect flags

  ghost predicate Hanging(s: State, t: nat) {
    t < |s.threads| && s.threads[t] == Dropper(HangingUp)
  }

  /** What the threads have to do with the sender handles. */
  predicate HandleOk(s: State, th: Thread) {
    && (th.Sender? ==> th.call.handle in s.senders)
    && (th.Dropper? ==> s.senders == {} && (s.recv.dead <==> th.drop.WakingOnHangUp?))
  }

  ghost predicate HandlesOk(s: State) {
    && s.numSenders == |s.senders|
    && (s.recv.dead ==> s.senders == {})
    && (forall t :: 0 <= t < |s.threads| ==> HandleOk(s, s.threads[t]))
    && (forall t, u :: Hanging(s, t) && Hanging(s, u) ==> t == u)
    && (s.senders == {} && !s.recv.dead ==> exists t :: Hanging(s, t))
    && (s.send.dead <==> s.receiver.WakingSenders? || s.receiver.Gone?)
  }

  // ----- 2. the `send` word

  /** The threads that are about to abort the process. */
  function Condemned(threads: seq<Thread>): nat {
    if threads == [] then 0
    else Condemned(threads[..|threads| - 1]) + if IsCondemned(threads[|threads| - 1]) then 1 else 0
  }

  predicate IsCondemned(th: Thread) {
    th.Sender? && th.at.Aborting?
  }

  lemma {:induction false} CondemnedUpdate(threads: seq<Thread>, t: nat, th: Thread)
    requires t < |threads|
    ensures Condemned(threads[t := th])
            == Condemned(threads) + (if IsCondemned(th) then 1 else 0) - (if IsCondemned(threads[t]) then 1 else 0)
  {
    var n := |threads| - 1;
    var after := threads[t := th];
    if t == n {
      assert after[..n] == threads[..n];
    } else {
      assert after[..n] == threads[..n][t := th] && after[n] == threads[n];
      CondemnedUpdate(threads[..n], t, th);
    }
  }

  lemma {:induction false} CondemnedBound(threads: seq<Thread>)
    ensures Condemned(threads) <= |threads|
  {
    if threads != [] {
      CondemnedBound(threads[..|threads| - 1]);
    }
  }

  lemma {:induction false} CondemnedSame(threads: seq<Thread>, after: seq<Thread>)
    requires |threads| == |after|
    requires forall t :: 0 <= t < |threads| ==> (IsCondemned(threads[t]) <==> IsCondemned(after[t]))
    ensures Condemned(threads) == Condemned(after)
  {
    if threads != [] {
      CondemnedSame(threads[..|threads| - 1], after[..|after| - 1]);
    }
  }

  /** The counter stays at most `ABORT + 1` plus the calls already condemned. */
  ghost predicate CountOk(s: State) {
    match s.target
    case X86_64 => s.send.count <= ABORT + 1 + Condemned(s.threads) && |s.threads| < ABORT - 1
    case Portable => s.send.count <= 1
  }

  /** A thread that goes to sleep has seen SLEEPING on over a reservation. */
  predicate SleeperOk(g: Target, th: Thread) {
    th.Sender? && th.at.SendSleeping? ==>
      var e := th.at.expected; e.sleeping && !e.dead && e.count > 0 && WordFits(g, e)
  }

  ghost predicate SleepersOk(s: State) {
    forall t :: 0 <= t < |s.threads| ==> SleeperOk(s.target, s.threads[t])
  }

  // ----- 3. who has the slot

  predicate Owns(th: Thread) {
    th.Sender? && (th.at.Writing? || th.at.Committing?)
  }

  predicate Draining(r: Receiver) {
    r.Reading? || r.Releasing?
  }

  ghost predicate HolderOk(s: State) {
    && (s.holder.Some? ==> s.holder.value < |s.threads| && Owns(s.threads[s.holder.value]))
    && (forall t: nat :: t < |s.threads| && Owns(s.threads[t]) ==> s.holder == Some(t))
  }

  /** The value that the holder of the slot has written and not yet committed. */
  ghost function Written(s: State): Option<Item> {
    if s.holder.Some? && At(s, s.holder.value) && s.threads[s.holder.value].at.Committing?
    then Some(s.threads[s.holder.value].call.item)
    else None
  }

  ghost predicate SlotOk(s: State) {
    && !s.fault
    && (s.holder.Some? ==> !s.recv.commit && !Draining(s.receiver))
    && (s.recv.commit ==> !Draining(s.receiver))
    && (s.receiver.Clearing? ==> s.recv.commit)
    && (!s.send.dead ==> (s.send.count > 0 <==> s.holder.Some? || s.recv.commit || Draining(s.receiver)))
    && (if s.recv.commit || s.receiver.Reading? then s.slot.Some? else s.slot == Written(s))
  }

  // ----- 4. order

  function Left(e: Event): seq<Item> {
    match e
    case Received(item) => [item]
    case Dropped(item) => [item]
    case _ => []
  }

  /** The items that left the slot for good, in that order. */
  function AllLeft(log: seq<Event>): seq<Item> {
    if log == [] then [] else AllLeft(log[..|log| - 1]) + Left(log[|log| - 1])
  }

  /** What the receiver has read and not yet returned. */
  function InHand(r: Receiver): seq<Item> {
    match r
    case Releasing(v) => [v]
    case WakingSender(v) => [v]
    case _ => []
  }

  /** What has been committed and not yet read. */
  function Unread(s: State): seq<Item> {
    if (s.recv.commit || s.receiver.Reading?) && s.slot.Some? then [s.slot.value] else []
  }

  ghost predicate OrderOk(s: State) {
    s.committed == AllLeft(s.log) + InHand(s.receiver) + Unread(s)
  }

  lemma AllLeftAppend(log: seq<Event>, e: Event)
    ensures AllLeft(log + [e]) == AllLeft(log) + Left(e)
  {
    assert (log + [e])[..|log|] == log;
  }

  // ----- 5. conservation

  /** The item a `send` has not committed yet. */
  function Carried(th: Thread): Option<Item> {
    if th.Sender? && !th.at.WakingReceiver? then Some(th.call.item) else None
  }

  function HeldBy(th: Thread): multiset<Item> {
    InSlot(Carried(th))
  }

  function HandedIn(e: Event): multiset<Item> {
    if e.Handed? then multiset{e.item} else multiset{}
  }

  function HandedBack(e: Event): multiset<Item> {
    if e.SendEnded? && e.outcome != Sent then multiset{e.item} else multiset{}
  }

  /** Every item handed to a `send` was handed back, is still with its call, or was committed. */
  ghost predicate ItemsOk(s: State) {
    Total(s.log, HandedIn) == Total(s.log, HandedBack) + Total(s.threads, HeldBy) + multiset(s.committed)
  }

  /** A `send` that has only the receiver left to wake has committed its item. */
  ghost predicate SentOk(s: State) {
    forall t :: 0 <= t < |s.threads| && s.threads[t].Sender? && s.threads[t].at.WakingReceiver?
                ==> s.threads[t].call.item in s.committed
  }

  // ----- 6. wake-ups

  predicate WakesReceiver(th: Thread) {
    (th.Sender? && th.at.WakingReceiver?) || th == Dropper(WakingOnHangUp)
  }

  /** What a thread means to the senders that sleep. */
  datatype Role = Parked | Heading | Rearming | Other

  function RoleOf(th: Thread): Role {
    match th
    case Sender(_, SendParked) => Parked
    case Sender(_, Reserving) => Heading
    case Sender(_, SendWoken) => Rearming
    case _ => Other
  }

  ghost predicate Present(s: State, r: Role) {
    exists t :: 0 <= t < |s.threads| && RoleOf(s.threads[t]) == r
  }

  ghost predicate ReceiverWakeComing(s: State) {
    exists t :: 0 <= t < |s.threads| && WakesReceiver(s.threads[t])
  }

  /** A parked receiver is about to be woken, or there is nothing for it and its flag is up. */
  ghost predicate ReceiverWakeOk(s: State) {
    s.receiver.RecvParked? ==>
      ReceiverWakeComing(s) || s.recv == RecvWord(false, true, false)
  }

  ghost predicate SenderWakeOk(s: State) {
    // SLEEPING is only on without a reservation while a sender is heading to `try_send`.
    && (s.send.sleeping && !s.send.dead && s.send.count == 0 ==> Present(s, Heading))
    && (Present(s, Parked) && !s.send.dead ==>
          s.send.sleeping || s.receiver.WakingSender? || Present(s, Rearming))
  }

  // ----- the invariant

  ghost predicate Inv(s: State) {
    && HandlesOk(s)
    && CountOk(s) && SleepersOk(s)
    && HolderOk(s) && SlotOk(s)
    && OrderOk(s)
    && ItemsOk(s) && SentOk(s)
    && ReceiverWakeOk(s) && SenderWakeOk(s)
  }

  // ----- which side a step belongs to

  /** The steps of `try_send` up to the commit. */
  predicate Takes(a: Action) {
    a.Reserve? || a.Write? || a.Commit?
  }

  /** The other steps of a `send`. */
  predicate Waits(a: Action) {
    match a
    case StartSend(_, _, _, _) => true
    case WakeReceiver(_) => true
    case SendPoll(_) => true
    case SendSleep(_) => true
    case SendRearm(_) => true
    case SpuriousSendWake(_) => true
    case _ => false
  }

  /** The steps of a `recv` that found a value. */
  predicate Drains(a: Action) {
    a.Clear? || a.Read? || a.Release? || a.WakeSender?
  }

  /** The other steps of a `recv`. */
  predicate Looks(a: Action) {
    a.StartRecv? || a.Load? || a.Arm? || a.RecvSleep? || a.SpuriousRecvWake?
  }

  predicate Receives(a: Action) {
    Drains(a) || Looks(a)
  }
}
