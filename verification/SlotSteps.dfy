/** Every step of the one-place channel keeps the invariant. */
module SlotSteps {
  import opened Tally
  import opened Slot
  import opened SlotInvariant

  // ----- what the steps of a sender leave alone

  lemma {:induction false} NotAllCondemned(threads: seq<Thread>, t: nat)
    requires t < |threads| && !IsCondemned(threads[t])
    ensures Condemned(threads) < |threads|
  {
    var n := |threads| - 1;
    if t < n {
      NotAllCondemned(threads[..n], t);
    } else {
      CondemnedBound(threads[..n]);
    }
  }

  /** The reservation never carries into the flags. */
  lemma NoCarry(s: State, t: nat)
    requires CountOk(s) && At(s, t) && !s.threads[t].at.Aborting?
    ensures BumpWord(s.target, s.send) == s.send.(count := if s.target.Portable? then 1 else s.send.count + 1)
  {
    hide BumpWord;
    NotAllCondemned(s.threads, t);
    BumpAdds(s.target, s.send);
  }

  lemma InvCounts(s: State)
    requires Inv(s)
    ensures CountOk(s)
  {
  }

  /** What a step of thread `t` in `send` leaves alone. */
  ghost predicate SenderFrame(s: State, s': State, t: nat) {
    && OnlyThread(s, s', t)
    && s'.target == s.target && s'.senders == s.senders && s'.numSenders == s.numSenders
    && !s.threads[t].Dropper? && !s'.threads[t].Dropper?
    && (s'.threads[t].Sender? ==> s'.threads[t].call.handle in s.senders)
    && s'.send.dead == s.send.dead && s'.recv.dead == s.recv.dead
    && (s'.receiver == s.receiver || s'.receiver == ReceiverWoken(s.receiver))
  }

  /** A step that does not touch the slot either. */
  ghost predicate WaitFrame(s: State, s': State, t: nat) {
    && SenderFrame(s, s', t)
    && s'.send == s.send.(sleeping := s'.send.sleeping) && s'.recv == s.recv
    && s'.slot == s.slot && s'.holder == s.holder && s'.committed == s.committed && s'.fault == s.fault
    && !Owns(s.threads[t]) && !Owns(s'.threads[t])
    && !IsCondemned(s.threads[t]) && !IsCondemned(s'.threads[t])
  }

  lemma WaitFrames(s: State, a: Action)
    requires HandlesOk(s) && Enabled(s, a) && Waits(a)
    ensures WaitFrame(s, Next(s, a), a.t)
  {
    hide FutexHalf, SendPollNext, ReserveNext, CommitNext;
    HandleKnown(s, a.t);
    hide HandlesOk;
    if a.SendPoll? {
      PollFrame(s, a.t);
    }
  }

  lemma PollFrame(s: State, t: nat)
    requires At(s, t) && HandleOk(s, s.threads[t]) && s.threads[t].at.SendSpinning?
    ensures WaitFrame(s, SendPollNext(s, t), t)
  {
  }

  lemma HandleKnown(s: State, t: nat)
    requires HandlesOk(s) && t < |s.threads|
    ensures HandleOk(s, s.threads[t])
  {
  }

  lemma TakeFrames(s: State, a: Action)
    requires HandlesOk(s) && CountOk(s) && Enabled(s, a) && Takes(a)
    ensures SenderFrame(s, Next(s, a), a.t)
  {
    hide CountOk, BumpWord;
    HandleKnown(s, a.t);
    if a.Reserve? {
      NoCarry(s, a.t);
    }
  }

  lemma SenderKeepsHandles(s: State, s': State, t: nat)
    requires HandlesOk(s) && SenderFrame(s, s', t)
    ensures HandlesOk(s')
  {
    forall u: nat | u < |s'.threads|
      ensures HandleOk(s', s'.threads[u])
    {
      assert HandleOk(s, s.threads[u]);
    }
    assert forall u :: Hanging(s', u) <==> Hanging(s, u);
  }

  // ----- the books after a step of thread `t`

  /** The step logs nothing and moves no item, or logs that it takes over or gives back an
      item, or that it ends without one; nothing leaves the slot. */
  ghost predicate Booked(s: State, s': State, t: nat)
    requires OnlyThread(s, s', t)
  {
    var before, after := Carried(s.threads[t]), Carried(s'.threads[t]);
    || (s'.log == s.log && after == before)
    || (exists e :: s'.log == s.log + [e] && Accounts(e, before, after))
  }

  predicate Accounts(e: Event, before: Option<Item>, after: Option<Item>) {
    match e
    case Handed(x) => before == None && after == Some(x)
    case SendEnded(x, Sent) => before == None && after == None
    case SendEnded(x, _) => before == Some(x) && after == None
    case _ => false
  }

  lemma Accounted(e: Event, before: Option<Item>, after: Option<Item>)
    requires Accounts(e, before, after)
    ensures InSlot(after) + HandedBack(e) == InSlot(before) + HandedIn(e) && Left(e) == []
  {
  }

  lemma BookedKeepsItems(s: State, s': State, t: nat)
    requires ItemsOk(s) && OnlyThread(s, s', t) && Booked(s, s', t) && s'.committed == s.committed
    ensures ItemsOk(s')
  {
    hide Total, HandedIn, HandedBack, Left, Carried, Accounts, InSlot;
    var th, th' := s.threads[t], s'.threads[t];
    TotalUpdate(s.threads, HeldBy, t, th');
    var c := multiset(s.committed);
    var none: multiset<Item> := multiset{};
    if s'.log == s.log {
      Balance(Total(s.log, HandedIn), Total(s.log, HandedBack), Total(s.threads, HeldBy), c,
              none, none, Total(s'.threads, HeldBy), c, HeldBy(th), HeldBy(th'), none, none);
      Nothing(Total(s.log, HandedIn));
      Nothing(Total(s.log, HandedBack));
    } else {
      var e :| s'.log == s.log + [e] && Accounts(e, Carried(th), Carried(th'));
      Accounted(e, Carried(th), Carried(th'));
      TotalAppend(s.log, e, HandedIn);
      TotalAppend(s.log, e, HandedBack);
      Nothing(HeldBy(th));
      Nothing(HeldBy(th'));
      Balance(Total(s.log, HandedIn), Total(s.log, HandedBack), Total(s.threads, HeldBy), c,
              HandedIn(e), HandedBack(e), Total(s'.threads, HeldBy), c, HeldBy(th), HeldBy(th'), none, none);
    }
  }

  lemma BookedKeepsOrder(s: State, s': State, t: nat)
    requires OrderOk(s) && OnlyThread(s, s', t) && Booked(s, s', t) && s'.committed == s.committed
    requires InHand(s'.receiver) == InHand(s.receiver) && Unread(s') == Unread(s)
    ensures OrderOk(s')
  {
    hide HandedIn, HandedBack, Left, AllLeft, Carried, Accounts;
    if s'.log != s.log {
      var e :| s'.log == s.log + [e] && Accounts(e, Carried(s.threads[t]), Carried(s'.threads[t]));
      Accounted(e, Carried(s.threads[t]), Carried(s'.threads[t]));
      AllLeftAppend(s.log, e);
    }
  }

  /** A commit: the item goes from the thread to the end of `committed`. */
  lemma CommitKeepsItems(s: State, t: nat)
    requires ItemsOk(s) && At(s, t) && s.threads[t].at.Committing?
    ensures ItemsOk(CommitNext(s, t))
  {
    hide Total;
    var s' := CommitNext(s, t);
    var x := s.threads[t].call.item;
    TotalUpdate(s.threads, HeldBy, t, s'.threads[t]);
    CommitLogs(s, t);
    AppendCounts(s.committed, x);
    var none: multiset<Item> := multiset{};
    Balance(Total(s.log, HandedIn), Total(s.log, HandedBack), Total(s.threads, HeldBy), multiset(s.committed),
            none, none, Total(s'.threads, HeldBy), multiset(s'.committed), multiset{x}, none, none, multiset{x});
    Nothing(Total(s.log, HandedIn));
    Nothing(Total(s.log, HandedBack));
  }

  lemma CommitLogs(s: State, t: nat)
    requires At(s, t)
    ensures var s' := CommitNext(s, t);
            Total(s'.log, HandedIn) == Total(s.log, HandedIn) && Total(s'.log, HandedBack) == Total(s.log, HandedBack)
  {
    hide Total;
    var e := SendEnded(s.threads[t].call.item, Sent);
    TotalAppend(s.log, e, HandedIn);
    TotalAppend(s.log, e, HandedBack);
    Nothing(Total(s.log, HandedIn));
    Nothing(Total(s.log, HandedBack));
  }

  lemma AppendCounts(c: seq<Item>, x: Item)
    ensures multiset(c + [x]) == multiset(c) + multiset{x}
  {
  }

  // ----- the roles after a step of thread `t`

  lemma RolesAfter(s: State, s': State, t: nat)
    requires OnlyThread(s, s', t)
    ensures forall r :: Present(s', r) ==> Present(s, r) || RoleOf(s'.threads[t]) == r
    ensures forall r :: Present(s, r) && RoleOf(s.threads[t]) != r ==> Present(s', r)
    ensures Present(s', RoleOf(s'.threads[t])) && Present(s, RoleOf(s.threads[t]))
  {
    forall r | Present(s', r)
      ensures Present(s, r) || RoleOf(s'.threads[t]) == r
    {
      var u :| 0 <= u < |s'.threads| && RoleOf(s'.threads[u]) == r;
      assert u != t ==> RoleOf(s.threads[u]) == r;
    }
    forall r | Present(s, r) && RoleOf(s.threads[t]) != r
      ensures Present(s', r)
    {
      var u :| 0 <= u < |s.threads| && RoleOf(s.threads[u]) == r;
      assert RoleOf(s'.threads[u]) == r;
    }
    assert RoleOf(s'.threads[t]) == RoleOf(s'.threads[t]);
  }

  lemma WakersStay(s: State, s': State, t: nat)
    requires ReceiverWakeComing(s) && OnlyThread(s, s', t)
    requires WakesReceiver(s.threads[t]) ==> WakesReceiver(s'.threads[t])
    ensures ReceiverWakeComing(s')
  {
    var u :| 0 <= u < |s.threads| && WakesReceiver(s.threads[u]);
    assert WakesReceiver(s'.threads[u]);
  }

  // ----- committed items

  lemma StepKeepsSent(s: State, a: Action)
    requires SentOk(s) && Enabled(s, a)
    ensures SentOk(Next(s, a))
  {
    hide Enabled, Next;
    if Waits(a) || Takes(a) {
      SenderKeepsSent(s, a);
    } else {
      OthersKeepSent(s, a);
    }
  }

  lemma SenderKeepsSent(s: State, a: Action)
    requires SentOk(s) && Enabled(s, a) && (Waits(a) || Takes(a))
    ensures SentOk(Next(s, a))
  {
    hide BumpWord, FutexHalf;
  }

  lemma OthersKeepSent(s: State, a: Action)
    requires SentOk(s) && Enabled(s, a) && !Waits(a) && !Takes(a)
    ensures SentOk(Next(s, a))
  {
    hide InUse;
  }

  // ----- waiting

  lemma WaitKeepsSlot(s: State, s': State, t: nat)
    requires HolderOk(s) && SlotOk(s) && WaitFrame(s, s', t)
    ensures SlotOk(s') && HolderOk(s') && Unread(s') == Unread(s) && InHand(s'.receiver) == InHand(s.receiver)
  {
  }

  lemma WaitKeepsCount(s: State, s': State, t: nat)
    requires CountOk(s) && WaitFrame(s, s', t)
    ensures CountOk(s')
  {
    CondemnedUpdate(s.threads, t, s'.threads[t]);
  }

  lemma WaitBooked(s: State, a: Action)
    requires Enabled(s, a) && Waits(a)
    ensures OnlyThread(s, Next(s, a), a.t) && Booked(s, Next(s, a), a.t)
  {
    hide FutexHalf, SendPollNext, ReserveNext, CommitNext;
    if a.SendPoll? {
      PollBooked(s, a.t);
    }
  }

  lemma PollBooked(s: State, t: nat)
    requires At(s, t) && s.threads[t].at.SendSpinning?
    ensures OnlyThread(s, SendPollNext(s, t), t) && Booked(s, SendPollNext(s, t), t)
  {
  }

  lemma WaitKeepsSleepers(s: State, a: Action)
    requires CountOk(s) && SleepersOk(s) && Enabled(s, a) && Waits(a)
    ensures SleepersOk(Next(s, a))
  {
    hide FutexHalf;
    CondemnedBound(s.threads);
  }

  lemma WaitKeepsSenderWake(s: State, a: Action)
    requires CountOk(s) && SleepersOk(s) && SenderWakeOk(s) && Enabled(s, a) && Waits(a)
    ensures SenderWakeOk(Next(s, a))
  {
    hide FutexHalf, Present, CountOk;
    var s' := Next(s, a);
    var t := a.t;
    assert OnlyThread(s, s', t);
    RolesAfter(s, s', t);
    if a.SendSleep? {
      HalfSeen(s, t);
    }
  }

  /** A sender only parks on a word with the flags it has seen. */
  lemma HalfSeen(s: State, t: nat)
    requires CountOk(s) && SleepersOk(s) && At(s, t) && s.threads[t].at.SendSleeping?
    ensures FutexHalf(s.target, s.send) == FutexHalf(s.target, s.threads[t].at.expected) ==> s.send.sleeping && !s.send.dead
  {
    hide FutexHalf;
    CondemnedBound(s.threads);
    assert SleeperOk(s.target, s.threads[t]);
    if FutexHalf(s.target, s.send) == FutexHalf(s.target, s.threads[t].at.expected) {
      HalfShowsFlags(s.target, s.send, s.threads[t].at.expected);
    }
  }

  lemma WaitKeepsReceiverWake(s: State, a: Action)
    requires ReceiverWakeOk(s) && Enabled(s, a) && Waits(a)
    ensures ReceiverWakeOk(Next(s, a))
  {
    hide FutexHalf, ReceiverWakeComing;
    var s' := Next(s, a);
    assert OnlyThread(s, s', a.t);
    if s'.receiver.RecvParked? && ReceiverWakeComing(s) {
      WakersStay(s, s', a.t);
    }
  }

  lemma WaitKeeps(s: State, a: Action)
    requires Inv(s) && Enabled(s, a) && Waits(a)
    ensures Inv(Next(s, a))
  {
    hide Next, Enabled, HandlesOk, CountOk, SleepersOk, HolderOk, SlotOk, OrderOk, ItemsOk, SentOk, ReceiverWakeOk, SenderWakeOk,
         Booked;
    var s' := Next(s, a);
    WaitFrames(s, a);
    SenderKeepsHandles(s, s', a.t);
    WaitKeepsCount(s, s', a.t);
    WaitKeepsSleepers(s, a);
    WaitKeepsSlot(s, s', a.t);
    WaitBooked(s, a);
    BookedKeepsItems(s, s', a.t);
    BookedKeepsOrder(s, s', a.t);
    WaitKeepsReceiverWake(s, a);
    WaitKeepsSenderWake(s, a);
    StepKeepsSent(s, a);
  }

  // ----- reserving, writing and committing

  lemma TakeKeepsSlot(s: State, a: Action)
    requires HandlesOk(s) && HolderOk(s) && SlotOk(s) && Enabled(s, a) && Takes(a) && CountOk(s)
    ensures SlotOk(Next(s, a)) && HolderOk(Next(s, a))
  {
    hide CountOk, BumpWord, HandlesOk;
    if a.Reserve? {
      NoCarry(s, a.t);
    }
  }

  lemma TakeKeepsCount(s: State, a: Action)
    requires CountOk(s) && Enabled(s, a) && Takes(a)
    ensures CountOk(Next(s, a))
  {
    hide BumpWord;
    CondemnedUpdate(s.threads, a.t, Next(s, a).threads[a.t]);
    if a.Reserve? {
      NoCarry(s, a.t);
    }
  }

  lemma TakeKeepsSleepers(s: State, a: Action)
    requires SleepersOk(s) && Enabled(s, a) && Takes(a)
    ensures SleepersOk(Next(s, a))
  {
    hide BumpWord;
  }

  lemma TakeKeepsItems(s: State, a: Action)
    requires ItemsOk(s) && SlotOk(s) && HolderOk(s) && OrderOk(s) && Enabled(s, a) && Takes(a)
    ensures ItemsOk(Next(s, a)) && OrderOk(Next(s, a))
  {
    hide BumpWord, ItemsOk, OrderOk, SlotOk, HolderOk, CommitNext, ReserveNext, WriteNext;
    match a
    case Commit(t) =>
      CommitKeepsItems(s, t);
      CommitKeepsOrder(s, t);
    case Reserve(t) => ReserveKeepsItems(s, t);
    case Write(t) => WriteKeepsItems(s, t);
  }

  lemma ReserveKeepsItems(s: State, t: nat)
    requires ItemsOk(s) && OrderOk(s) && At(s, t) && s.threads[t].at.Reserving?
    ensures ItemsOk(ReserveNext(s, t)) && OrderOk(ReserveNext(s, t))
  {
    hide BumpWord, ItemsOk, OrderOk;
    var s' := ReserveNext(s, t);
    assert OnlyThread(s, s', t) && Booked(s, s', t);
    BookedKeepsItems(s, s', t);
    BookedKeepsOrder(s, s', t);
  }

  lemma WriteKeepsItems(s: State, t: nat)
    requires ItemsOk(s) && OrderOk(s) && SlotOk(s) && HolderOk(s) && At(s, t) && s.threads[t].at.Writing?
    ensures ItemsOk(WriteNext(s, t)) && OrderOk(WriteNext(s, t))
  {
    hide ItemsOk, OrderOk;
    var s' := WriteNext(s, t);
    assert s.holder == Some(t) && s.slot.None?;
    assert OnlyThread(s, s', t) && Booked(s, s', t);
    BookedKeepsItems(s, s', t);
    BookedKeepsOrder(s, s', t);
  }

  /** The commit puts the item last. */
  lemma CommitKeepsOrder(s: State, t: nat)
    requires OrderOk(s) && SlotOk(s) && HolderOk(s) && At(s, t) && s.threads[t].at.Committing?
    ensures OrderOk(CommitNext(s, t))
  {
    hide AllLeft;
    assert s.holder == Some(t);
    AllLeftAppend(s.log, SendEnded(s.threads[t].call.item, Sent));
  }

  lemma TakeKeepsReceiverWake(s: State, a: Action)
    requires HandlesOk(s) && ReceiverWakeOk(s) && Enabled(s, a) && Takes(a)
    ensures ReceiverWakeOk(Next(s, a))
  {
    hide BumpWord, ReceiverWakeComing, HandlesOk;
    HandleKnown(s, a.t);
    var s' := Next(s, a);
    assert OnlyThread(s, s', a.t);
    if s'.receiver.RecvParked? {
      if ReceiverWakeComing(s) {
        WakersStay(s, s', a.t);
      } else if a.Commit? {
        WakerHere(s', a.t);
      }
    }
  }

  lemma WakerHere(s: State, t: nat)
    requires t < |s.threads| && WakesReceiver(s.threads[t])
    ensures ReceiverWakeComing(s)
  {
  }

  lemma TakeKeepsSenderWake(s: State, a: Action)
    requires CountOk(s) && SenderWakeOk(s) && Enabled(s, a) && Takes(a)
    ensures SenderWakeOk(Next(s, a))
  {
    hide BumpWord, Present, CountOk;
    var s' := Next(s, a);
    assert OnlyThread(s, s', a.t);
    RolesAfter(s, s', a.t);
    if a.Reserve? {
      NoCarry(s, a.t);
    }
  }

  lemma TakeKeeps(s: State, a: Action)
    requires Inv(s) && Enabled(s, a) && Takes(a)
    ensures Inv(Next(s, a))
  {
    hide Next, Enabled, HandlesOk, CountOk, SleepersOk, HolderOk, SlotOk, OrderOk, ItemsOk, SentOk, ReceiverWakeOk, SenderWakeOk;
    TakeFrames(s, a);
    SenderKeepsHandles(s, Next(s, a), a.t);
    TakeKeepsCount(s, a);
    TakeKeepsSleepers(s, a);
    TakeKeepsSlot(s, a);
    TakeKeepsItems(s, a);
    TakeKeepsReceiverWake(s, a);
    TakeKeepsSenderWake(s, a);
    StepKeepsSent(s, a);
  }

  // ----- receiving

  /** What a step of the receiver leaves alone. */
  ghost predicate ReceiverFrame(s: State, s': State) {
    && s'.target == s.target && s'.senders == s.senders && s'.numSenders == s.numSenders
    && s'.holder == s.holder && s'.committed == s.committed
    && !s.send.dead && !s'.send.dead && s'.recv.dead == s.recv.dead && s'.send.count <= s.send.count
    && !s'.receiver.WakingSenders? && !s'.receiver.Gone? && !s.receiver.WakingSenders? && !s.receiver.Gone?
    && SameButWoken(s, s')
  }

  ghost predicate SameButWoken(s: State, s': State) {
    && |s'.threads| == |s.threads|
    && forall t: nat :: t < |s.threads| ==> s'.threads[t] == s.threads[t] || s'.threads[t] == Woken(s.threads[t])
  }

  lemma ReceiveFrames(s: State, a: Action)
    requires HandlesOk(s) && Enabled(s, a) && Receives(a)
    ensures ReceiverFrame(s, Next(s, a))
  {
    assert Drains(a) || Looks(a);
    DeadShown(s);
    hide HandlesOk, Next;
    if Drains(a) {
      DrainFrames(s, a);
    } else {
      LookFrames(s, a);
    }
  }

  lemma DrainFrames(s: State, a: Action)
    requires Enabled(s, a) && Drains(a) && !s.send.dead
    ensures ReceiverFrame(s, Next(s, a))
  {
  }

  lemma LookFrames(s: State, a: Action)
    requires Enabled(s, a) && Looks(a) && !s.send.dead
    ensures ReceiverFrame(s, Next(s, a))
  {
  }

  lemma WokenKeepsHandles(s: State, s': State)
    requires HandlesOk(s) && SameButWoken(s, s') && s'.senders == s.senders && s'.numSenders == s.numSenders
    requires s'.recv.dead == s.recv.dead
    requires s'.send.dead <==> s'.receiver.WakingSenders? || s'.receiver.Gone?
    ensures HandlesOk(s')
  {
    forall u: nat | u < |s'.threads|
      ensures HandleOk(s', s'.threads[u])
    {
      assert HandleOk(s, s.threads[u]);
    }
    assert forall u :: Hanging(s', u) <==> Hanging(s, u);
  }

  lemma WokenKeepsCount(s: State, s': State)
    requires CountOk(s) && SleepersOk(s) && SameButWoken(s, s') && s'.target == s.target && s'.send.count <= s.send.count
    ensures CountOk(s') && SleepersOk(s')
  {
    CondemnedSame(s.threads, s'.threads);
    forall u: nat | u < |s'.threads|
      ensures SleeperOk(s'.target, s'.threads[u])
    {
      assert SleeperOk(s.target, s.threads[u]);
    }
  }

  lemma WokenKeepsHolder(s: State, s': State)
    requires HolderOk(s) && SameButWoken(s, s') && s'.holder == s.holder
    ensures HolderOk(s') && Written(s') == Written(s)
  {
  }

  /** The step only logs events about items that have been committed. */
  ghost predicate LogsCommitted(s: State, s': State) {
    || s'.log == s.log
    || (|s'.log| == |s.log| + 1 && s'.log == s.log + [s'.log[|s.log|]]
        && var e := s'.log[|s.log|]; HandedIn(e) == HandedBack(e) == multiset{})
  }

  lemma WokenKeepsItems(s: State, s': State)
    requires ItemsOk(s) && SameButWoken(s, s') && s'.committed == s.committed && LogsCommitted(s, s')
    ensures ItemsOk(s')
  {
    hide Total;
    TotalSame(s.threads, s'.threads, HeldBy);
    if s'.log != s.log {
      TotalAppend(s.log, s'.log[|s.log|], HandedIn);
      TotalAppend(s.log, s'.log[|s.log|], HandedBack);
      Nothing(Total(s.log, HandedIn));
      Nothing(Total(s.log, HandedBack));
    }
  }

  lemma DrainLogs(s: State, a: Action)
    requires Enabled(s, a) && Drains(a)
    ensures LogsCommitted(s, Next(s, a))
  {
  }

  lemma LookLogs(s: State, a: Action)
    requires Enabled(s, a) && Looks(a)
    ensures LogsCommitted(s, Next(s, a))
  {
  }

  lemma DrainKeepsSlot(s: State, a: Action)
    requires SlotOk(s) && Enabled(s, a) && Drains(a)
    requires Next(s, a).holder == s.holder && Written(Next(s, a)) == Written(s)
    ensures SlotOk(Next(s, a))
  {
  }

  /** The item moves from the slot to the hands of the receiver and into the log. */
  lemma DrainKeepsOrder(s: State, a: Action)
    requires SlotOk(s) && OrderOk(s) && Enabled(s, a) && Drains(a)
    ensures OrderOk(Next(s, a))
  {
    hide Written, AllLeft;
    var s' := Next(s, a);
    var left := AllLeft(s.log);
    if s'.log != s.log {
      AllLeftAppend(s.log, s'.log[|s.log|]);
      assert Left(s'.log[|s.log|]) == InHand(s.receiver);
    }
    assert left + InHand(s.receiver) + [] == left + InHand(s.receiver);
    assert left + [] + Unread(s) == left + Unread(s);
  }

  lemma LookKeepsSlot(s: State, a: Action)
    requires SlotOk(s) && OrderOk(s) && Enabled(s, a) && Looks(a)
    requires Next(s, a).holder == s.holder && Written(Next(s, a)) == Written(s)
    ensures SlotOk(Next(s, a)) && OrderOk(Next(s, a))
  {
    hide AllLeft, Written;
    var s' := Next(s, a);
    if s'.log != s.log {
      AllLeftAppend(s.log, s'.log[|s.log|]);
    }
  }

  lemma ReceiveKeepsReceiverWake(s: State, a: Action)
    requires ReceiverWakeOk(s) && Enabled(s, a) && Receives(a)
    ensures ReceiverWakeOk(Next(s, a))
  {
    hide ReceiverWakeComing;
  }

  lemma ReceiveKeepsSenderWake(s: State, a: Action)
    requires SenderWakeOk(s) && !s.send.dead && Enabled(s, a) && Receives(a)
    ensures SenderWakeOk(Next(s, a))
  {
    hide Present;
    if a.WakeSender? {
      WakeKeepsSenderWake(s, a.woken);
    } else {
      SameRoles(s, Next(s, a));
    }
  }

  lemma WakeKeepsSenderWake(s: State, woken: Option<nat>)
    requires SenderWakeOk(s) && !s.send.dead && Enabled(s, WakeSender(woken))
    ensures SenderWakeOk(Next(s, WakeSender(woken)))
  {
    hide Present;
    var s' := Next(s, WakeSender(woken));
    match woken
    case Some(u) =>
      assert OnlyThread(s, s', u);
      RolesAfter(s, s', u);
    case None =>
      NobodyParked(s);
      SameRoles(s, s');
  }

  lemma SameRoles(s: State, s': State)
    requires s'.threads == s.threads
    ensures forall r :: Present(s', r) <==> Present(s, r)
  {
  }

  lemma NobodyParked(s: State)
    requires forall u :: 0 <= u < |s.threads| ==> !IsParked(s.threads[u])
    ensures !Present(s, Parked)
  {
  }

  lemma ReceiveKeeps(s: State, a: Action)
    requires Inv(s) && Enabled(s, a) && Receives(a)
    ensures Inv(Next(s, a))
  {
    hide Next, Enabled, HandlesOk, CountOk, SleepersOk, HolderOk, SlotOk, OrderOk, ItemsOk, SentOk, ReceiverWakeOk, SenderWakeOk,
         LogsCommitted, SameButWoken, Written;
    var s' := Next(s, a);
    ReceiveFrames(s, a);
    WokenKeepsHandles(s, s');
    WokenKeepsCount(s, s');
    WokenKeepsHolder(s, s');
    if Drains(a) {
      DrainLogs(s, a);
      DrainKeepsSlot(s, a);
      DrainKeepsOrder(s, a);
    } else {
      LookLogs(s, a);
      LookKeepsSlot(s, a);
    }
    WokenKeepsItems(s, s');
    ReceiveKeepsReceiverWake(s, a);
    ReceiveKeepsSenderWake(s, a);
    StepKeepsSent(s, a);
  }

  // ----- handles

  /** What the steps with sender handles leave alone. */
  ghost predicate GateFrame(s: State, s': State) {
    && s'.target == s.target && s'.send == s.send && s'.recv == s.recv.(dead := s'.recv.dead)
    && s'.slot == s.slot && s'.holder == s.holder && s'.fault == s.fault
    && s'.committed == s.committed && s'.log == s.log
    && (s'.receiver == s.receiver || s'.receiver == ReceiverWoken(s.receiver))
    && |s'.threads| == |s.threads|
    && forall t: nat :: t < |s.threads| ==>
         s'.threads[t] == s.threads[t] || (!s'.threads[t].Sender? && !s.threads[t].Sender?)
  }

  lemma GateKeeps(s: State, s': State)
    requires Inv(s) && GateFrame(s, s') && HandlesOk(s') && ReceiverWakeOk(s')
    ensures Inv(s')
  {
    hide HandlesOk, ReceiverWakeOk, ItemsOk, SenderWakeOk;
    CondemnedSame(s.threads, s'.threads);
    forall u: nat | u < |s'.threads|
      ensures SleeperOk(s'.target, s'.threads[u])
    {
      assert SleeperOk(s.target, s.threads[u]);
    }
    GateKeepsItems(s, s');
    GateKeepsSenderWake(s, s');
  }

  lemma GateKeepsItems(s: State, s': State)
    requires ItemsOk(s) && GateFrame(s, s')
    ensures ItemsOk(s')
  {
    hide Total;
    TotalSame(s.threads, s'.threads, HeldBy);
  }

  lemma GateKeepsSenderWake(s: State, s': State)
    requires SenderWakeOk(s) && GateFrame(s, s')
    ensures SenderWakeOk(s')
  {
    forall r | r in {Parked, Heading, Rearming}
      ensures Present(s', r) <==> Present(s, r)
    {
      if Present(s, r) {
        var t :| 0 <= t < |s.threads| && RoleOf(s.threads[t]) == r;
        assert RoleOf(s'.threads[t]) == r;
      }
      if Present(s', r) {
        var t :| 0 <= t < |s'.threads| && RoleOf(s'.threads[t]) == r;
        assert RoleOf(s.threads[t]) == r;
      }
    }
  }

  lemma CloneKeeps(s: State, h: nat, copy: nat)
    requires Inv(s) && Enabled(s, CloneSender(h, copy))
    ensures Inv(Next(s, CloneSender(h, copy)))
  {
    hide CountOk, SleepersOk, HolderOk, SlotOk, OrderOk, ItemsOk, SentOk, SenderWakeOk;
    var s' := Next(s, CloneSender(h, copy));
    forall u: nat | u < |s'.threads|
      ensures HandleOk(s', s'.threads[u])
    {
      assert HandleOk(s, s.threads[u]);
    }
    GateKeeps(s, s');
  }

  lemma DropSenderKeeps(s: State, t: nat, h: nat)
    requires Inv(s) && Enabled(s, DropSender(t, h))
    ensures Inv(Next(s, DropSender(t, h)))
  {
    hide CountOk, SleepersOk, HolderOk, SlotOk, OrderOk, ItemsOk, SentOk, SenderWakeOk, ReceiverWakeOk;
    var s' := Next(s, DropSender(t, h));
    DropKeepsHandles(s, t, h);
    DropKeepsReceiverWake(s, t, h);
    GateKeeps(s, s');
  }

  lemma DropKeepsReceiverWake(s: State, t: nat, h: nat)
    requires ReceiverWakeOk(s) && Enabled(s, DropSender(t, h))
    ensures ReceiverWakeOk(Next(s, DropSender(t, h)))
  {
    var s' := Next(s, DropSender(t, h));
    if ReceiverWakeComing(s) {
      var u :| 0 <= u < |s.threads| && WakesReceiver(s.threads[u]);
      assert WakesReceiver(s'.threads[u]);
    }
  }

  lemma DropKeepsHandles(s: State, t: nat, h: nat)
    requires HandlesOk(s) && Enabled(s, DropSender(t, h))
    ensures HandlesOk(Next(s, DropSender(t, h)))
  {
    var s' := Next(s, DropSender(t, h));
    forall u: nat | u < |s'.threads| && u != t
      ensures HandleOk(s', s'.threads[u]) && !Hanging(s', u)
    {
      assert HandleOk(s, s.threads[u]);
    }
    if s.numSenders == 1 {
      OnlyOne(s.senders, h);
      assert Hanging(s', t);
    }
  }

  lemma OnlyOne(handles: set<nat>, h: nat)
    requires h in handles && |handles| == 1
    ensures handles - {h} == {}
  {
    assert |handles - {h}| == 0;
  }

  lemma HangUpKeeps(s: State, t: nat)
    requires Inv(s) && Enabled(s, HangUp(t))
    ensures Inv(Next(s, HangUp(t)))
  {
    hide CountOk, SleepersOk, HolderOk, SlotOk, OrderOk, ItemsOk, SentOk, SenderWakeOk, ReceiverWakeOk, HandlesOk;
    var s' := Next(s, HangUp(t));
    HangUpKeepsHandles(s, t);
    HangUpKeepsReceiverWake(s, t);
    GateKeeps(s, s');
  }

  lemma HangUpKeepsHandles(s: State, t: nat)
    requires HandlesOk(s) && Enabled(s, HangUp(t))
    ensures HandlesOk(Next(s, HangUp(t)))
  {
    var s' := Next(s, HangUp(t));
    assert Hanging(s, t) && HandleOk(s, s.threads[t]);
    forall u: nat | u < |s'.threads| && u != t
      ensures HandleOk(s', s'.threads[u]) && !Hanging(s', u)
    {
      assert HandleOk(s, s.threads[u]);
      assert Hanging(s', u) ==> Hanging(s, u);
    }
  }

  lemma HangUpKeepsReceiverWake(s: State, t: nat)
    requires ReceiverWakeOk(s) && Enabled(s, HangUp(t))
    ensures ReceiverWakeOk(Next(s, HangUp(t)))
  {
    var s' := Next(s, HangUp(t));
    if ReceiverWakeComing(s) {
      var u :| 0 <= u < |s.threads| && WakesReceiver(s.threads[u]);
      assert WakesReceiver(s'.threads[u]);
    } else if s.recv.sleeping {
      assert WakesReceiver(s'.threads[t]);
    }
  }

  lemma WakeOnHangUpKeeps(s: State, t: nat)
    requires Inv(s) && Enabled(s, WakeOnHangUp(t))
    ensures Inv(Next(s, WakeOnHangUp(t)))
  {
    hide CountOk, SleepersOk, HolderOk, SlotOk, OrderOk, ItemsOk, SentOk, SenderWakeOk;
    var s' := Next(s, WakeOnHangUp(t));
    forall u: nat | u < |s'.threads|
      ensures HandleOk(s', s'.threads[u])
    {
      assert HandleOk(s, s.threads[u]);
    }
    assert HandleOk(s, s.threads[t]);
    assert forall u :: Hanging(s', u) ==> Hanging(s, u);
    GateKeeps(s, s');
  }

  lemma DropReceiverKeeps(s: State)
    requires Inv(s) && Enabled(s, DropReceiver)
    ensures Inv(Next(s, DropReceiver))
  {
    hide SleepersOk, HandlesOk, HolderOk, ItemsOk, SentOk;
    var s' := Next(s, DropReceiver);
    StepKeepsSent(s, DropReceiver);
    WokenKeepsHandles(s, s');
    WokenKeepsCount(s, s');
    WokenKeepsHolder(s, s');
    WokenKeepsItems(s, s');
  }

  lemma WakeSendersKeeps(s: State)
    requires Inv(s) && Enabled(s, WakeSenders)
    ensures Inv(Next(s, WakeSenders))
  {
    hide SleepersOk, HolderOk, ItemsOk, SentOk;
    var s' := Next(s, WakeSenders);
    StepKeepsSent(s, WakeSenders);
    WokenKeepsHandles(s, s');
    WokenKeepsCount(s, s');
    WokenKeepsHolder(s, s');
    WokenKeepsItems(s, s');
  }

  lemma DropSlotKeeps(s: State)
    requires Inv(s) && Enabled(s, DropSlot)
    ensures Inv(Next(s, DropSlot))
  {
    hide SleepersOk, HolderOk, ItemsOk, SentOk, AllLeft;
    var s' := Next(s, DropSlot);
    StepKeepsSent(s, DropSlot);
    WokenKeepsHandles(s, s');
    WokenKeepsCount(s, s');
    WokenKeepsHolder(s, s');
    WokenKeepsItems(s, s');
    if s'.log != s.log {
      AllLeftAppend(s.log, s'.log[|s.log|]);
    }
  }

  lemma AbortKeeps(s: State, t: nat)
    requires Inv(s) && Enabled(s, Abort(t))
    ensures Inv(Next(s, Abort(t)))
  {
    hide HandlesOk, CountOk, SleepersOk, HolderOk, SlotOk, OrderOk, ItemsOk, SentOk, SenderWakeOk;
    var s' := Next(s, Abort(t));
    DeadShown(s);
    WokenKeepsHandles(s, s');
    GateKeeps(s, s');
  }

  lemma DeadShown(s: State)
    requires HandlesOk(s)
    ensures s.send.dead <==> s.receiver.WakingSenders? || s.receiver.Gone?
  {
  }

  /** The invariant is inductive. */
  lemma StepKeeps(s: State, a: Action)
    requires Inv(s) && Enabled(s, a)
    ensures Inv(Next(s, a))
  {
    hide Inv, Next, Enabled;
    if Waits(a) {
      WaitKeeps(s, a);
    } else if Takes(a) {
      TakeKeeps(s, a);
    } else if Receives(a) {
      ReceiveKeeps(s, a);
    } else {
      match a
      case Abort(t) => AbortKeeps(s, t);
      case CloneSender(h, copy) => CloneKeeps(s, h, copy);
      case DropSender(t, h) => DropSenderKeeps(s, t, h);
      case HangUp(t) => HangUpKeeps(s, t);
      case WakeOnHangUp(t) => WakeOnHangUpKeeps(s, t);
      case DropReceiver => DropReceiverKeeps(s);
      case WakeSenders => WakeSendersKeeps(s);
      case DropSlot => DropSlotKeeps(s);
    }
  }
}
