/** Every step of the bag keeps the invariant: one lemma a step. */
module MpmcSteps {
  import opened Status
  import opened Tally
  import opened Mpmc
  import opened MpmcInvariant
  import Masks

  // ----- wake-ups after the move of one thread

  /** Some thread still has role `x` after one goes from role `r` to role `r'`. */
  ghost predicate Stays(s: State, r: Role, r': Role, x: Role) {
    r' == x || (r != x && Present(s, x))
  }

  /** The wake-up part of the invariant after a move, in terms of the state before. */
  ghost predicate WakeAfter(s: State, r: Role, r': Role, send: Word, recv: Word) {
    && (Present(s, RecvIsParked) || r' == RecvIsParked ==>
          recv.sleeping || Stays(s, r, r', RecvWaker) || Stays(s, r, r', RecvIsWoken))
    && ((Present(s, RecvIsParked) || r' == RecvIsParked) && recv.slots != {} ==>
          Stays(s, r, r', RecvWaker) || Stays(s, r, r', RecvIsWoken) || Stays(s, r, r', RecvIsReturning))
    && ((Present(s, SendIsParked) || r' == SendIsParked) && !send.dead ==>
          send.sleeping || Stays(s, r, r', SendWaker) || Stays(s, r, r', SendIsWoken))
    && (send.sleeping && !send.dead && send.slots == {} ==> Stays(s, r, r', SendIsReserving))
  }

  lemma WakeApply(s: State, s': State, t: nat)
    requires OnlyThread(s, s', t)
    requires WakeAfter(s, RoleOf(s.threads[t]), RoleOf(s'.threads[t]), s'.send, s'.recv)
    ensures WakeOk(s')
  {
    hide Present, RoleOf;
    RolesAfter(s, s', t);
  }

  // ----- moves that touch no slot

  ghost predicate QuietWords(s: State, m: Move) {
    && m.send == s.send.(sleeping := m.send.sleeping)
    && m.recv == s.recv.(sleeping := m.recv.sleeping)
  }

  lemma QuietKeeps(s: State, t: nat, m: Move)
    requires Inv(s) && t < |s.threads| && QuietWords(s, m)
    requires var th, th' := s.threads[t], m.thread;
             && !th.Dropper? && !th'.Dropper?
             && (th'.Sender? ==> th'.send.handle in s.senders)
             && (th'.Receiver? ==> th'.recv.handle in s.receivers)
             && Reserved(th) == Claimed(th) == Reserved(th') == Claimed(th') == {}
             && ThreadOk(th')
             && WakeAfter(s, RoleOf(th), RoleOf(th'), m.send, m.recv)
    requires ItemsOk(Apply(s, t, m)) && LogOk(Apply(s, t, m))
    ensures Inv(Apply(s, t, m))
  {
    hide WakeOk, WakeAfter, RoleOf, ThreadOk, ItemsOk, LogOk, Reserved, Claimed;
    var s' := Apply(s, t, m);
    SendersFrame(s, s', t);
    ReceiversFrame(s, s', t);
    ThreadsFrame(s, s', t);
    OwnedFrame(s, s', t);
    BagFrame(s, s', t);
    WakeApply(s, s', t);
  }

  /** The thread of a `send` moves on with the same items in hand, or gives them back. */
  lemma SenderMoves(s: State, t: nat, m: Move, at': SendStep, o: SendOutcome)
    requires Inv(s) && AtSend(s, t) && !s.threads[t].at.Filling? && QuietWords(s, m)
    requires var c := s.threads[t].send;
             || (m.thread == Sender(c, at') && !at'.Filling? && m.events == [] && SendStepOk(c, at')
                 && Held(m.thread) == Held(s.threads[t]))
             || (m.thread == Idle && m.events == [SendReturned(c.given, Held(s.threads[t]), o)]
                 && EventOk(m.events[0]))
    requires WakeAfter(s, RoleOf(s.threads[t]), RoleOf(m.thread), m.send, m.recv)
    ensures Inv(Apply(s, t, m))
  {
    hide WakeOk, WakeAfter, RoleOf, Held, EventOk, SendStepOk, OwnedOk, BagOk, ReceiversOk;
    var s' := Apply(s, t, m);
    if m.thread.Idle? {
      HeldWhenIdle();
      ItemsLogged(s, s', t, m.events[0]);
    } else {
      ItemsFrame(s, s', t);
    }
    QuietKeeps(s, t, m);
  }

  lemma HeldWhenIdle()
    ensures Held(Idle) == []
  {
  }

  /** The thread of a `recv` moves on with the same items in hand, or ends. */
  lemma ReceiverMoves(s: State, t: nat, m: Move, on': RecvStep, e: Event)
    requires Inv(s) && AtRecv(s, t) && !s.threads[t].on.Draining? && QuietWords(s, m)
    requires var c := s.threads[t].recv;
             || (m.thread == Receiver(c, on') && !on'.Draining? && m.events == [] && RecvStepOk(on')
                 && Held(m.thread) == Held(s.threads[t]))
             || (m.thread == Idle && m.events == [e] && EventOk(e)
                 && HandedIn(e) == multiset{} && HandedOut(e) == HeldBy(s.threads[t]))
    requires WakeAfter(s, RoleOf(s.threads[t]), RoleOf(m.thread), m.send, m.recv)
    ensures Inv(Apply(s, t, m))
  {
    hide WakeOk, WakeAfter, RoleOf, Held, EventOk, HandedOut, HandedIn, RecvStepOk, OwnedOk, BagOk, SendersOk;
    var s' := Apply(s, t, m);
    if m.thread.Idle? {
      HeldWhenIdle();
      ItemsLogged(s, s', t, m.events[0]);
    } else {
      ItemsFrame(s, s', t);
    }
    QuietKeeps(s, t, m);
  }

  /** What a step of thread `t` needs to know. */
  lemma Facts(s: State, t: nat)
    requires Inv(s) && t < |s.threads|
    ensures ThreadOk(s.threads[t]) && WakeOk(s)
    ensures s.threads[t].Sender? ==> !s.recv.dead
    ensures s.threads[t].Receiver? ==> !s.send.dead
    ensures Present(s, RoleOf(s.threads[t]))
    ensures 0 in AllSlots
  {
  }

  lemma FirstMaskOk(c: SendCall)
    ensures FirstMask(c) <= AllSlots && (c.given != [] ==> FirstMask(c) != {})
    ensures |FirstMask(c)| <= |c.given|
  {
    Masks.WindowSize(|c.given|, c.bias);
  }

  // ----- send and try_send

  lemma StartSendKeeps(s: State, t: nat, c: SendCall)
    requires Inv(s) && t < |s.threads| && s.threads[t].Idle? && c.handle in s.senders
    ensures Inv(Apply(s, t, StartSendMove(c, s.send, s.recv)))
  {
    hide Inv, FirstMask, WakeOk, WakeAfter, Total, OwnedOk, BagOk, SendersOk, ReceiversOk;
    var m := StartSendMove(c, s.send, s.recv);
    FirstMaskOk(c);
    StartWakes(s, t, m);
    StartItems(s, t, m.(events := [Handed(c.given)]), c.given);
    if c.given == [] {
      var s1 := Apply(s, t, m.(events := [Handed(c.given)]));
      ItemsLogged(s1, Apply(s, t, m), t, SendReturned(c.given, c.given, Sent));
    }
    QuietKeeps(s, t, m);
  }

  lemma StartItems(s: State, t: nat, m: Move, given: seq<Item>)
    requires Inv(s) && t < |s.threads| && s.threads[t].Idle?
    requires m.events == [Handed(given)] && Held(m.thread) == given
    ensures ItemsOk(Apply(s, t, m)) && LogOk(Apply(s, t, m))
  {
    hide Held, WakeOk, OwnedOk, BagOk, SendersOk, ReceiversOk;
    HeldWhenIdle();
    ItemsLogged(s, Apply(s, t, m), t, Handed(given));
  }

  lemma StartWakes(s: State, t: nat, m: Move)
    requires Inv(s) && t < |s.threads| && s.threads[t].Idle?
    requires m.send == s.send && m.recv == s.recv && RoleOf(m.thread) in {Other, SendIsReserving, RecvIsReturning}
    ensures WakeAfter(s, RoleOf(s.threads[t]), RoleOf(m.thread), m.send, m.recv)
  {
    hide Present;
  }

  lemma SendPollKeeps(s: State, t: nat)
    requires Inv(s) && AtSend(s, t) && s.threads[t].at.SendSpinning?
    ensures Inv(Apply(s, t, SendPollMove(s.threads[t].send, s.threads[t].at.spin, s.send, s.recv)))
  {
    hide Inv, FirstMask, Present;
    var m := SendPollMove(s.threads[t].send, s.threads[t].at.spin, s.send, s.recv);
    Facts(s, t);
    FirstMaskOk(s.threads[t].send);
    SenderMoves(s, t, m, if m.thread.Idle? then SendParked else m.thread.at, Disconnected);
  }

  lemma SendSleepKeeps(s: State, t: nat)
    requires Inv(s) && AtSend(s, t) && s.threads[t].at.SendSleeping?
    ensures Inv(Apply(s, t, SendSleepMove(s.threads[t].send, s.threads[t].at.expected, s.send, s.recv)))
  {
    hide Inv, Present;
    var m := SendSleepMove(s.threads[t].send, s.threads[t].at.expected, s.send, s.recv);
    Facts(s, t);
    SenderMoves(s, t, m, m.thread.at, Full);
  }

  lemma SendRearmKeeps(s: State, t: nat)
    requires Inv(s) && AtSend(s, t) && s.threads[t].at.SendWoken?
    ensures Inv(Apply(s, t, SendRearmMove(s.threads[t].send, s.send, s.recv)))
  {
    hide Inv, FirstMask, Present;
    var m := SendRearmMove(s.threads[t].send, s.send, s.recv);
    Facts(s, t);
    FirstMaskOk(s.threads[t].send);
    SenderMoves(s, t, m, m.thread.at, Full);
  }

  // ----- moves in which slots change hands

  lemma HandOverKeeps(s: State, t: nat, m: Move, slots: set<nat>, o: Owner)
    requires Inv(s) && t < |s.threads|
    requires var th, th' := s.threads[t], m.thread;
             && !th.Dropper? && !th'.Dropper? && ThreadOk(th')
             && (th'.Sender? ==> th.Sender? && th'.send == th.send)
             && (th'.Receiver? ==> th.Receiver? && th'.recv == th.recv)
             && (m.send.dead == s.send.dead || (th.Receiver? && !m.send.dead))
             && (m.recv.dead == s.recv.dead || (th.Sender? && !m.recv.dead))
             && (m.send.dead || (!s.send.dead && o != Abandoned))
             && m.send.slots == (if o == Free then s.send.slots - slots else s.send.slots + slots)
             && m.recv.slots == (if o == Committed then s.recv.slots + slots else s.recv.slots - slots)
             && slots <= AllSlots && Reserved(th) <= slots && Claimed(th) <= slots
             && Reserved(th') == (if o == ReservedBy(t) then slots else {})
             && Claimed(th') == (if o == ClaimedBy(t) then slots else {})
             && (o.ReservedBy? || o.ClaimedBy? ==> o.t == t)
             && (forall i :: i in slots ==> i < |s.owner| && s.owner[i] in {ReservedBy(t), ClaimedBy(t), Free, Committed})
             && (forall i :: i in slots ==> i < |s.bag| && (s.bag[i].Some? <==> HoldsValue(o, s.threads[t := th'], i)))
             && WakeAfter(s, RoleOf(th), RoleOf(th'), m.send, m.recv)
    requires ItemsOk(Apply(s, t, m)) && LogOk(Apply(s, t, m))
    ensures Inv(Apply(s, t, m).(owner := Assign(s.owner, slots, o)))
  {
    hide WakeOk, WakeAfter, RoleOf, ThreadOk, ItemsOk, LogOk, Reserved, Claimed, HoldsValue;
    var s' := Apply(s, t, m).(owner := Assign(s.owner, slots, o));
    SendersFrame(s, s', t);
    ReceiversFrame(s, s', t);
    ThreadsFrame(s, s', t);
    OwnedHandOver(s, s', t, slots, o);
    BagHandOver(s, s', t, slots, o);
    WakeApply(s, s', t);
    SameItems(Apply(s, t, m), s');
  }

  lemma SameItems(s: State, s': State)
    requires ItemsOk(s) && LogOk(s) && s'.threads == s.threads && s'.bag == s.bag && s'.log == s.log
    ensures ItemsOk(s') && LogOk(s')
  {
  }

  lemma ReserveKeeps(s: State, t: nat, retry: set<nat>)
    requires Inv(s) && AtSend(s, t) && s.threads[t].at.Reserving?
    requires var c := s.threads[t].send;
             Masks.Trimmed(AllSlots - s.send.slots, retry, |c.given|, c.bias % 2 == 0)
    ensures Inv(ReserveNext(s, t, retry))
  {
    hide Inv, Masks.Trimmed, ReserveFailedMove;
    if s.send.dead {
      ReserveDeadKeeps(s, t);
    } else if s.send.slots != AllSlots && s.threads[t].at.mask - s.send.slots != {} {
      ReserveGainedKeeps(s, t, retry);
    } else {
      ReserveFailedKeeps(s, t, retry);
    }
  }

  lemma ReserveFailedKeeps(s: State, t: nat, retry: set<nat>)
    requires Inv(s) && AtSend(s, t) && s.threads[t].at.Reserving? && !s.send.dead
    requires s.send.slots == AllSlots || s.threads[t].at.mask - s.send.slots == {}
    requires var c := s.threads[t].send;
             Masks.Trimmed(AllSlots - s.send.slots, retry, |c.given|, c.bias % 2 == 0)
    ensures var Sender(c, Reserving(mask)) := s.threads[t];
            Inv(Apply(s, t, ReserveFailedMove(c, s.send.(slots := s.send.slots + mask), s.recv, retry)))
  {
    hide Inv, Present, Masks.Trimmed;
    var Sender(c, Reserving(mask)) := s.threads[t];
    Facts(s, t);
    forall i | i in mask
      ensures i in s.send.slots
    {
      assert i in AllSlots && (mask - s.send.slots == {} ==> i !in mask - s.send.slots);
    }
    assert s.send.slots + mask == s.send.slots;
    var m := ReserveFailedMove(c, s.send, s.recv, retry);
    if s.send.slots != AllSlots {
      RetryOk(s, AllSlots - s.send.slots, retry, |c.given|, c.bias % 2 == 0);
    }
    SenderMoves(s, t, m, if m.thread.Idle? then SendParked else m.thread.at, Full);
  }

  lemma RetryOk(s: State, free: set<nat>, retry: set<nat>, max: nat, low: bool)
    requires Inv(s) && free == AllSlots - s.send.slots && s.send.slots != AllSlots && max > 0
    requires Masks.Trimmed(free, retry, max, low)
    ensures retry != {} && retry <= AllSlots && |retry| <= max
  {
    assert s.send.slots <= AllSlots;
    assert s.send.slots == AllSlots - free;
  }

  lemma FreeSlots(s: State, i: nat)
    requires Inv(s) && i < SLOTS && i !in s.send.slots
    ensures s.owner[i] == Free && s.bag[i].None?
  {
  }

  lemma ReserveDeadKeeps(s: State, t: nat)
    requires Inv(s) && AtSend(s, t) && s.threads[t].at.Reserving? && s.send.dead
    ensures Inv(ReserveNext(s, t, {}))
    ensures forall retry :: ReserveNext(s, t, retry) == ReserveNext(s, t, {})
  {
    hide Inv, Present;
    var Sender(c, Reserving(mask)) := s.threads[t];
    var gained := mask - s.send.slots;
    var e := SendReturned(c.given, c.given, Disconnected);
    var m := Move(Idle, s.send.(slots := s.send.slots + mask), s.recv, [e]);
    Facts(s, t);
    Sizes(s);
    forall i | i in gained
      ensures i < SLOTS && s.owner[i] == Free && s.bag[i].None?
    {
      FreeSlots(s, i);
    }
    assert s.send.slots + gained == s.send.slots + mask;
    LoggedItems(s, t, m, e);
    HandOverKeeps(s, t, m, gained, Abandoned);
  }

  lemma Sizes(s: State)
    requires Inv(s)
    ensures |s.owner| == |s.bag| == SLOTS
    ensures s.send.slots <= AllSlots && s.recv.slots <= s.send.slots
    ensures forall i: nat :: i in s.recv.slots ==> s.owner[i] == Committed && s.bag[i].Some?
  {
  }

  lemma LoggedItems(s: State, t: nat, m: Move, e: Event)
    requires Inv(s) && t < |s.threads| && m.thread.Idle? && m.events == [e] && EventOk(e)
    requires HandedIn(e) == multiset{} && HandedOut(e) == HeldBy(s.threads[t])
    ensures ItemsOk(Apply(s, t, m)) && LogOk(Apply(s, t, m))
  {
    hide Held, WakeOk, OwnedOk, BagOk, SendersOk, ReceiversOk;
    HeldWhenIdle();
    ItemsLogged(s, Apply(s, t, m), t, e);
  }

  lemma UnloggedItems(s: State, t: nat, m: Move)
    requires Inv(s) && t < |s.threads| && m.events == [] && Held(m.thread) == Held(s.threads[t])
    ensures ItemsOk(Apply(s, t, m)) && LogOk(Apply(s, t, m))
  {
    hide Held, WakeOk, OwnedOk, BagOk, SendersOk, ReceiversOk;
    ItemsFrame(s, Apply(s, t, m), t);
  }

  function GainedMove(s: State, t: nat): Move
    requires AtSend(s, t) && s.threads[t].at.Reserving?
  {
    var Sender(c, Reserving(mask)) := s.threads[t];
    var gained := mask - s.send.slots;
    Move(Sender(c, Filling(c.given, gained, gained)), s.send.(slots := s.send.slots + mask), s.recv, [])
  }

  lemma ReserveGainedIs(s: State, t: nat, retry: set<nat>)
    requires AtSend(s, t) && s.threads[t].at.Reserving? && !s.send.dead
    requires s.send.slots != AllSlots && s.threads[t].at.mask - s.send.slots != {}
    ensures var gained := s.threads[t].at.mask - s.send.slots;
            ReserveNext(s, t, retry) == Apply(s, t, GainedMove(s, t)).(owner := Assign(s.owner, gained, ReservedBy(t)))
  {
    hide Assign;
  }

  /** The slots gained were free and empty, and the thread now has all of them to fill. */
  lemma GainedSlots(s: State, t: nat)
    requires Inv(s) && AtSend(s, t) && s.threads[t].at.Reserving?
    ensures var gained := s.threads[t].at.mask - s.send.slots; var th' := GainedMove(s, t).thread;
            && gained <= AllSlots && |gained| <= |s.threads[t].at.mask|
            && Reserved(s.threads[t]) == Claimed(s.threads[t]) == {} && Reserved(th') == gained && Claimed(th') == {}
            && s.send.slots + gained == s.send.slots + s.threads[t].at.mask && s.recv.slots - gained == s.recv.slots
            && forall i :: i in gained ==>
                 && i < |s.owner| && s.owner[i] == Free && i < |s.bag|
                 && (s.bag[i].Some? <==> HoldsValue(ReservedBy(t), s.threads[t := th'], i))
  {
    hide Inv;
    var mask := s.threads[t].at.mask;
    var gained := mask - s.send.slots;
    Facts(s, t);
    Sizes(s);
    SubsetSize(gained, mask);
    forall i | i in gained
      ensures i < SLOTS && s.owner[i] == Free && s.bag[i].None? && i !in s.recv.slots
    {
      FreeSlots(s, i);
    }
  }

  lemma GainedWakes(s: State, t: nat)
    requires Inv(s) && AtSend(s, t) && s.threads[t].at.Reserving? && s.threads[t].at.mask - s.send.slots != {}
    ensures var m := GainedMove(s, t);
            WakeAfter(s, RoleOf(s.threads[t]), RoleOf(m.thread), m.send, m.recv) && ThreadOk(m.thread)
  {
    hide Inv, Present;
    Facts(s, t);
    SubsetSize(s.threads[t].at.mask - s.send.slots, s.threads[t].at.mask);
  }

  lemma ReserveGainedKeeps(s: State, t: nat, retry: set<nat>)
    requires Inv(s) && AtSend(s, t) && s.threads[t].at.Reserving? && !s.send.dead
    requires s.send.slots != AllSlots && s.threads[t].at.mask - s.send.slots != {}
    ensures Inv(ReserveNext(s, t, retry))
  {
    hide Inv, Assign, ReserveNext, WakeAfter, RoleOf, ThreadOk, HoldsValue, Reserved, Claimed;
    var gained := s.threads[t].at.mask - s.send.slots;
    var m := GainedMove(s, t);
    GainedSlots(s, t);
    GainedWakes(s, t);
    UnloggedItems(s, t, m);
    HandOverKeeps(s, t, m, gained, ReservedBy(t));
    ReserveGainedIs(s, t, retry);
  }

  lemma SubsetSize(a: set<nat>, b: set<nat>)
    requires a <= b
    ensures |a| <= |b|
  {
    assert b == a + (b - a);
  }

  lemma FillKeeps(s: State, t: nat, slot: nat)
    requires Inv(s) && AtSend(s, t) && s.threads[t].at.Filling? && slot in s.threads[t].at.left
    ensures Inv(FillNext(s, t, slot))
  {
    hide Inv, WakeOk, Present;
    var Sender(c, Filling(data, reserved, left)) := s.threads[t];
    Facts(s, t);
    OwnSlot(s, t, slot);
    SubsetSize(left, reserved);
    var s' := FillNext(s, t, slot);
    var last := |data| - 1;
    assert data == data[..last] + [data[last]];
    assert |left - {slot}| == |left| - 1;
    SlotStepKeeps(s, s', t, slot);
  }

  lemma OwnSlot(s: State, t: nat, slot: nat)
    requires Inv(s) && t < |s.threads| && slot in Left(s.threads[t]) && ThreadOk(s.threads[t])
    ensures slot < SLOTS && |s.owner| == |s.bag| == SLOTS && !s.fault
    ensures s.threads[t].Sender? ==> s.owner[slot] == ReservedBy(t) && s.bag[slot].None?
    ensures s.threads[t].Receiver? ==> s.owner[slot] == ClaimedBy(t) && s.bag[slot].Some?
  {
    assert SlotsOk(s.owner, s.threads[t], t);
  }

  /** One slot is written or emptied by its thread. */
  lemma SlotStepKeeps(s: State, s': State, t: nat, slot: nat)
    requires Inv(s) && t < |s.threads| && slot < |s.bag| == SLOTS && |s.owner| == SLOTS
    requires |s'.threads| == |s.threads| && |s'.bag| == |s.bag|
    requires s' == Goto(s, t, s'.threads[t]).(bag := s.bag[slot := s'.bag[slot]])
    requires var th, th' := s.threads[t], s'.threads[t];
             && !th.Dropper? && !th'.Dropper? && ThreadOk(th')
             && (th'.Sender? ==> th.Sender? && th'.send == th.send)
             && (th'.Receiver? ==> th.Receiver? && th'.recv == th.recv)
             && Reserved(th') == Reserved(th) && Claimed(th') == Claimed(th)
             && RoleOf(th) == RoleOf(th') == Other
             && slot in Left(th) && Left(th') == Left(th) - {slot}
             && s.owner[slot] in {ReservedBy(t), ClaimedBy(t)}
             && (s'.bag[slot].Some? <==> s.owner[slot] == ReservedBy(t))
             && HeldBy(th') + InSlot(s'.bag[slot]) == HeldBy(th) + InSlot(s.bag[slot])
    ensures Inv(s')
  {
    hide ThreadOk, ItemsOk, LogOk, Reserved, Claimed, RoleOf, Left, HeldBy, InSlot, Present;
    SendersFrame(s, s', t);
    ReceiversFrame(s, s', t);
    ThreadsFrame(s, s', t);
    OwnedFrame(s, s', t);
    BagMoved(s, s', t, slot);
    ItemsMoved(s, s', t, slot);
    WakeApply(s, s', t);
  }

  lemma CommitKeeps(s: State, t: nat)
    requires Inv(s) && AtSend(s, t) && s.threads[t].at.Filling? && s.threads[t].at.left == {}
    ensures Inv(CommitNext(s, t))
  {
    hide Inv, WakeOk, Present;
    var Sender(c, Filling(data, reserved, left)) := s.threads[t];
    var recv := Word(s.recv.slots + reserved, false, false);
    Facts(s, t);
    SubsetSize({}, reserved);
    if s.recv.sleeping {
      var m := Move(Sender(c, WakingReceiver(data)), s.send, recv, []);
      UnloggedItems(s, t, m);
      CommitMoveKeeps(s, t, m);
    } else {
      var e := SendReturned(c.given, data, Sent);
      var m := Move(Idle, s.send, recv, [e]);
      LoggedItems(s, t, m, e);
      CommitMoveKeeps(s, t, m);
    }
  }

  lemma CommitMoveKeeps(s: State, t: nat, m: Move)
    requires Inv(s) && AtSend(s, t) && s.threads[t].at.Filling? && s.threads[t].at.left == {}
    requires var Sender(c, Filling(data, reserved, left)) := s.threads[t];
             && m.send == s.send && m.recv == Word(s.recv.slots + reserved, false, false)
             && (m.thread == if s.recv.sleeping then Sender(c, WakingReceiver(data)) else Idle)
             && ThreadOk(m.thread)
    requires ItemsOk(Apply(s, t, m)) && LogOk(Apply(s, t, m))
    ensures Inv(Apply(s, t, m).(owner := Assign(s.owner, s.threads[t].at.reserved, Committed)))
  {
    hide Inv, Assign, WakeOk, WakeAfter, RoleOf, ThreadOk, HoldsValue, Reserved, Claimed;
    Facts(s, t);
    CommittedSlots(s, t, m.thread);
    CommitWakes(s, t, m);
    HandOverKeeps(s, t, m, s.threads[t].at.reserved, Committed);
  }

  /** The slots a thread commits are its own and full, and it keeps none. */
  lemma CommittedSlots(s: State, t: nat, th': Thread)
    requires Inv(s) && AtSend(s, t) && s.threads[t].at.Filling? && s.threads[t].at.left == {}
    requires th'.Idle? || (th'.Sender? && th'.at.WakingReceiver?)
    ensures var slots := s.threads[t].at.reserved;
            && slots <= AllSlots && Reserved(s.threads[t]) == slots && Claimed(s.threads[t]) == {}
            && Reserved(th') == Claimed(th') == {} && s.send.slots + slots == s.send.slots
            && forall i :: i in slots ==>
                 && i < |s.owner| && s.owner[i] == ReservedBy(t) && i < |s.bag|
                 && (s.bag[i].Some? <==> HoldsValue(Committed, s.threads[t := th'], i))
  {
    hide Inv;
    Facts(s, t);
    Sizes(s);
    FilledSlots(s, t);
    assert s.send.slots + s.threads[t].at.reserved == s.send.slots;
  }

  lemma CommitWakes(s: State, t: nat, m: Move)
    requires WakeOk(s) && AtSend(s, t) && s.threads[t].at.Filling? && s.threads[t].at.left == {}
    requires m.send == s.send && !m.recv.dead && !m.recv.sleeping
    requires m.thread.Idle? || (m.thread.Sender? && m.thread.at.WakingReceiver?)
    requires s.recv.sleeping ==> !m.thread.Idle?
    ensures WakeAfter(s, RoleOf(s.threads[t]), RoleOf(m.thread), m.send, m.recv)
  {
    hide Present;
  }

  /** When a thread is through with its slots they hold what they should. */
  lemma FilledSlots(s: State, t: nat)
    requires Inv(s) && t < |s.threads| && Left(s.threads[t]) == {} && ThreadOk(s.threads[t])
    ensures forall i :: i in Reserved(s.threads[t]) ==>
              i < SLOTS && s.owner[i] == ReservedBy(t) && s.bag[i].Some? && i in s.send.slots
    ensures forall i :: i in Claimed(s.threads[t]) ==>
              i < SLOTS && s.owner[i] == ClaimedBy(t) && s.bag[i].None? && i in s.send.slots && i !in s.recv.slots
  {
    assert SlotsOk(s.owner, s.threads[t], t);
  }

  /** A parked thread leaves the futex, woken or not. */
  lemma WokenKeeps(s: State, u: nat)
    requires Inv(s) && u < |s.threads| && (IsSenderParked(s.threads[u]) || IsReceiverParked(s.threads[u]))
    ensures Inv(Goto(s, u, Woken(s.threads[u])))
  {
    hide Inv, Present;
    Facts(s, u);
    var m := Move(Woken(s.threads[u]), s.send, s.recv, []);
    if s.threads[u].Sender? {
      SenderMoves(s, u, m, SendWoken, Full);
    } else {
      ReceiverMoves(s, u, m, RecvWoken, RecvFailed(true));
    }
  }

  lemma WakeReceiverKeeps(s: State, t: nat, woken: Option<nat>)
    requires Inv(s) && AtSend(s, t) && s.threads[t].at.WakingReceiver? && WakesOneReceiver(s, woken)
    ensures Inv(WakeReceiverNext(s, t, woken))
  {
    hide Inv, WakeOk, WakeAfter, Present;
    var Sender(c, WakingReceiver(data)) := s.threads[t];
    var mid := s;
    if woken.Some? {
      mid := Goto(s, woken.value, Woken(s.threads[woken.value]));
      WokenKeeps(s, woken.value);
    }
    Facts(mid, t);
    WokenReceiverThere(s, mid, t, woken);
    SenderMoves(mid, t, Move(Idle, mid.send, mid.recv, [SendReturned(c.given, data, Sent)]), SendParked, Sent);
  }

  lemma WokenReceiverThere(s: State, mid: State, t: nat, woken: Option<nat>)
    requires WakeOk(mid) && t < |s.threads| && RoleOf(s.threads[t]) == RecvWaker && WakesOneReceiver(s, woken)
    requires mid == if woken.None? then s else Goto(s, woken.value, Woken(s.threads[woken.value]))
    ensures mid.threads[t] == s.threads[t]
    ensures WakeAfter(mid, RecvWaker, Other, mid.send, mid.recv)
  {
    if woken.Some? {
      assert RoleOf(mid.threads[woken.value]) == RecvIsWoken;
      assert Present(mid, RecvIsWoken);
    } else {
      assert !Present(mid, RecvIsParked);
    }
  }

  // ----- recv and try_recv

  lemma StartRecvKeeps(s: State, t: nat, c: RecvCall)
    requires Inv(s) && t < |s.threads| && s.threads[t].Idle? && c.handle in s.receivers
    ensures Inv(Goto(s, t, Receiver(c, Claiming(false))))
  {
    hide Inv, WakeOk, WakeAfter, Total, OwnedOk, BagOk, SendersOk, ReceiversOk;
    var m := Move(Receiver(c, Claiming(false)), s.send, s.recv, []);
    StartWakes(s, t, m);
    UnloggedItems(s, t, m);
    QuietKeeps(s, t, m);
  }

  lemma RecvPollKeeps(s: State, t: nat)
    requires Inv(s) && AtRecv(s, t) && s.threads[t].on.RecvSpinning?
    ensures Inv(Apply(s, t, RecvPollMove(s.threads[t].recv, s.threads[t].on.spin, s.send, s.recv)))
  {
    hide Inv, Present;
    var m := RecvPollMove(s.threads[t].recv, s.threads[t].on.spin, s.send, s.recv);
    Facts(s, t);
    ReceiverMoves(s, t, m, if m.thread.Idle? then RecvParked else m.thread.on, RecvFailed(true));
  }

  lemma RecvSleepKeeps(s: State, t: nat)
    requires Inv(s) && AtRecv(s, t) && s.threads[t].on.RecvSleeping?
    ensures Inv(Apply(s, t, RecvSleepMove(s.threads[t].recv, s.threads[t].on.expected, s.send, s.recv)))
  {
    hide Inv, Present;
    var m := RecvSleepMove(s.threads[t].recv, s.threads[t].on.expected, s.send, s.recv);
    Facts(s, t);
    ReceiverMoves(s, t, m, m.thread.on, RecvFailed(true));
  }

  lemma RecvRearmKeeps(s: State, t: nat)
    requires Inv(s) && AtRecv(s, t) && s.threads[t].on.RecvWoken?
    ensures Inv(Apply(s, t, RecvRearmMove(s.threads[t].recv, s.send, s.recv)))
  {
    hide Inv, Present;
    var m := RecvRearmMove(s.threads[t].recv, s.send, s.recv);
    Facts(s, t);
    ReceiverMoves(s, t, m, m.thread.on, RecvFailed(true));
  }

  lemma ClaimKeeps(s: State, t: nat)
    requires Inv(s) && AtRecv(s, t) && s.threads[t].on.Claiming?
    ensures Inv(ClaimNext(s, t))
  {
    hide Inv, Present;
    var c := s.threads[t].recv;
    Facts(s, t);
    if s.recv.slots == {} {
      var m := ClaimFailedMove(c, s.send, s.recv);
      ReceiverMoves(s, t, m, if m.thread.Idle? then RecvParked else m.thread.on, RecvFailed(s.recv.dead));
    } else {
      ClaimGainedKeeps(s, t);
    }
  }

  lemma ClaimGainedKeeps(s: State, t: nat)
    requires Inv(s) && AtRecv(s, t) && s.threads[t].on.Claiming? && s.recv.slots != {}
    ensures Inv(ClaimNext(s, t))
  {
    hide Inv, Assign, ClaimNext, WakeAfter, RoleOf, ThreadOk, HoldsValue, Reserved, Claimed;
    var m := ClaimedMove(s, t);
    ClaimedSlots(s, t);
    ClaimWakes(s, t);
    UnloggedItems(s, t, m);
    HandOverKeeps(s, t, m, s.recv.slots, ClaimedBy(t));
    ClaimGainedIs(s, t);
  }

  function ClaimedMove(s: State, t: nat): Move
    requires AtRecv(s, t)
  {
    var claimed := s.recv.slots;
    Move(Receiver(s.threads[t].recv, Draining([], claimed, claimed)), s.send, s.recv.(slots := {}), [])
  }

  lemma ClaimGainedIs(s: State, t: nat)
    requires AtRecv(s, t) && s.threads[t].on.Claiming? && s.recv.slots != {}
    ensures ClaimNext(s, t) == Apply(s, t, ClaimedMove(s, t)).(owner := Assign(s.owner, s.recv.slots, ClaimedBy(t)))
  {
    hide Assign;
  }

  /** The slots claimed were committed and full, and the thread now has all of them to empty. */
  lemma ClaimedSlots(s: State, t: nat)
    requires Inv(s) && AtRecv(s, t) && s.threads[t].on.Claiming?
    ensures var claimed := s.recv.slots; var th' := ClaimedMove(s, t).thread;
            && claimed <= AllSlots && s.send.slots + claimed == s.send.slots
            && Reserved(s.threads[t]) == Claimed(s.threads[t]) == {} && Reserved(th') == {} && Claimed(th') == claimed
            && forall i :: i in claimed ==>
                 && i < |s.owner| && s.owner[i] == Committed && i < |s.bag|
                 && (s.bag[i].Some? <==> HoldsValue(ClaimedBy(t), s.threads[t := th'], i))
  {
    hide Inv;
    Facts(s, t);
    Sizes(s);
    assert s.send.slots + s.recv.slots == s.send.slots;
  }

  lemma ClaimWakes(s: State, t: nat)
    requires Inv(s) && AtRecv(s, t) && s.threads[t].on.Claiming? && s.recv.slots != {}
    ensures var m := ClaimedMove(s, t);
            WakeAfter(s, RoleOf(s.threads[t]), RoleOf(m.thread), m.send, m.recv) && ThreadOk(m.thread)
  {
    hide Inv, Present;
    Facts(s, t);
    Sizes(s);
  }

  lemma DrainKeeps(s: State, t: nat, slot: nat)
    requires Inv(s) && AtRecv(s, t) && s.threads[t].on.Draining? && slot in s.threads[t].on.left
    ensures Inv(DrainNext(s, t, slot))
  {
    hide Inv, WakeOk, Present;
    var Receiver(c, Draining(values, claimed, left)) := s.threads[t];
    Facts(s, t);
    OwnSlot(s, t, slot);
    var s' := DrainNext(s, t, slot);
    assert |left - {slot}| == |left| - 1;
    SlotStepKeeps(s, s', t, slot);
  }

  lemma ReleaseKeeps(s: State, t: nat)
    requires Inv(s) && AtRecv(s, t) && s.threads[t].on.Draining? && s.threads[t].on.left == {}
    ensures Inv(ReleaseNext(s, t))
  {
    hide Inv, WakeOk, Present;
    var Receiver(c, Draining(values, claimed, left)) := s.threads[t];
    var send := Word(s.send.slots - claimed, false, false);
    Facts(s, t);
    AllSlotsSize();
    SubsetSize(claimed, AllSlots);
    if s.send.sleeping {
      var m := Move(Receiver(c, WakingSender(values)), send, s.recv, []);
      UnloggedItems(s, t, m);
      ReleaseMoveKeeps(s, t, m);
    } else {
      var m := Move(Idle, send, s.recv, [RecvReturned(values)]);
      LoggedItems(s, t, m, RecvReturned(values));
      ReleaseMoveKeeps(s, t, m);
    }
  }

  lemma AllSlotsSize()
    ensures |AllSlots| == SLOTS
  {
    Masks.WindowSize(SLOTS, 0);
    assert Masks.Window(SLOTS, 0) == AllSlots;
  }

  lemma ReleaseMoveKeeps(s: State, t: nat, m: Move)
    requires Inv(s) && AtRecv(s, t) && s.threads[t].on.Draining? && s.threads[t].on.left == {}
    requires var Receiver(c, Draining(values, claimed, left)) := s.threads[t];
             && m.recv == s.recv && m.send == Word(s.send.slots - claimed, false, false)
             && (m.thread == if s.send.sleeping then Receiver(c, WakingSender(values)) else Idle)
             && ThreadOk(m.thread)
    requires ItemsOk(Apply(s, t, m)) && LogOk(Apply(s, t, m))
    ensures Inv(Apply(s, t, m).(owner := Assign(s.owner, s.threads[t].on.claimed, Free)))
  {
    hide Inv, WakeOk, WakeAfter, RoleOf, ThreadOk;
    Facts(s, t);
    Sizes(s);
    FilledSlots(s, t);
    ReleaseWakes(s, t, m);
    assert s.recv.slots - s.threads[t].on.claimed == s.recv.slots;
    HandOverKeeps(s, t, m, s.threads[t].on.claimed, Free);
  }

  lemma ReleaseWakes(s: State, t: nat, m: Move)
    requires WakeOk(s) && AtRecv(s, t) && s.threads[t].on.Draining? && s.threads[t].on.left == {} && !s.send.dead
    requires m.recv == s.recv && !m.send.dead && !m.send.sleeping
    requires m.thread.Idle? || (m.thread.Receiver? && m.thread.on.WakingSender?)
    requires s.send.sleeping ==> !m.thread.Idle?
    ensures WakeAfter(s, RoleOf(s.threads[t]), RoleOf(m.thread), m.send, m.recv)
  {
    hide Present;
  }

  lemma WakeSenderKeeps(s: State, t: nat, woken: Option<nat>)
    requires Inv(s) && AtRecv(s, t) && s.threads[t].on.WakingSender? && WakesOneSender(s, woken)
    ensures Inv(WakeSenderNext(s, t, woken))
  {
    hide Inv, WakeOk, WakeAfter, Present;
    var Receiver(c, WakingSender(values)) := s.threads[t];
    var mid := s;
    if woken.Some? {
      mid := Goto(s, woken.value, Woken(s.threads[woken.value]));
      WokenKeeps(s, woken.value);
    }
    Facts(mid, t);
    WokenSenderThere(s, mid, t, woken);
    ReceiverMoves(mid, t, Move(Idle, mid.send, mid.recv, [RecvReturned(values)]), RecvParked, RecvReturned(values));
  }

  lemma WokenSenderThere(s: State, mid: State, t: nat, woken: Option<nat>)
    requires WakeOk(mid) && t < |s.threads| && RoleOf(s.threads[t]) == SendWaker && WakesOneSender(s, woken)
    requires mid == if woken.None? then s else Goto(s, woken.value, Woken(s.threads[woken.value]))
    ensures mid.threads[t] == s.threads[t]
    ensures WakeAfter(mid, SendWaker, Other, mid.send, mid.recv)
  {
    if woken.Some? {
      assert RoleOf(mid.threads[woken.value]) == SendIsWoken;
      assert Present(mid, SendIsWoken);
    } else {
      assert !Present(mid, SendIsParked);
    }
  }

  // ----- waking everybody

  /** All the threads before `k` that are parked on `recv` (or on `send`) have left the futex. */
  function WokenBefore(s: State, receivers: bool, k: nat): State
    requires k <= |s.threads|
  {
    s.(threads := seq(|s.threads|, u requires 0 <= u < |s.threads| =>
      if u < k && (if receivers then IsReceiverParked(s.threads[u]) else IsSenderParked(s.threads[u]))
      then Woken(s.threads[u]) else s.threads[u]))
  }

  lemma {:induction false} WokenBeforeKeeps(s: State, receivers: bool, k: nat)
    requires Inv(s) && k <= |s.threads|
    ensures Inv(WokenBefore(s, receivers, k))
  {
    hide Inv, Woken;
    if k == 0 {
      assert WokenBefore(s, receivers, 0).threads == s.threads;
    } else {
      var before := WokenBefore(s, receivers, k - 1);
      WokenBeforeKeeps(s, receivers, k - 1);
      var th := s.threads[k - 1];
      if (if receivers then IsReceiverParked(th) else IsSenderParked(th)) {
        WokenKeeps(before, k - 1);
        assert WokenBefore(s, receivers, k).threads == Goto(before, k - 1, Woken(th)).threads;
        assert Goto(before, k - 1, Woken(th)).log == s.log;
      } else {
        assert WokenBefore(s, receivers, k).threads == before.threads;
      }
    }
  }

  lemma WakeReceiversKeeps(s: State, t: nat)
    requires Inv(s) && t < |s.threads| && s.threads[t] == Dropper(WakingReceivers)
    ensures Inv(Goto(s.(threads := WakeReceiversIn(s.threads)), t, Idle))
  {
    hide Inv;
    var mid := WokenBefore(s, true, |s.threads|);
    WokenBeforeKeeps(s, true, |s.threads|);
    assert mid.threads == WakeReceiversIn(s.threads);
    NobodyParked(mid, true);
    DropperEnds(mid, t);
  }

  lemma WakeSendersKeeps(s: State, t: nat)
    requires Inv(s) && t < |s.threads| && s.threads[t] == Dropper(WakingSenders)
    ensures Inv(Goto(s.(threads := WakeSendersIn(s.threads)), t, Idle))
  {
    hide Inv;
    var mid := WokenBefore(s, false, |s.threads|);
    WokenBeforeKeeps(s, false, |s.threads|);
    assert mid.threads == WakeSendersIn(s.threads);
    NobodyParked(mid, false);
    DropperEnds(mid, t);
  }

  lemma NobodyParked(s: State, receivers: bool)
    requires forall u :: 0 <= u < |s.threads| ==>
               if receivers then !IsReceiverParked(s.threads[u]) else !IsSenderParked(s.threads[u])
    ensures if receivers then !Present(s, RecvIsParked) else !Present(s, SendIsParked)
  {
  }

  lemma DropperEnds(s: State, t: nat)
    requires Inv(s) && t < |s.threads|
    requires (s.threads[t] == Dropper(WakingReceivers) && !Present(s, RecvIsParked))
             || (s.threads[t] == Dropper(WakingSenders) && !Present(s, SendIsParked))
    ensures Inv(Goto(s, t, Idle))
  {
    hide Inv, Present;
    Facts(s, t);
    var s' := Goto(s, t, Idle);
    if s.threads[t] == Dropper(WakingReceivers) {
      DropperEndsSenders(s, t);
      SenderSideKeeps(s, s', t);
    } else {
      DropperEndsReceivers(s, t);
      ReceiverSideKeeps(s, s', t);
    }
  }

  lemma DropperEndsSenders(s: State, t: nat)
    requires Inv(s) && t < |s.threads| && s.threads[t] == Dropper(WakingReceivers)
    ensures SendersOk(Goto(s, t, Idle))
  {
    SendersFrame(s, Goto(s, t, Idle), t);
  }

  lemma DropperEndsReceivers(s: State, t: nat)
    requires Inv(s) && t < |s.threads| && s.threads[t] == Dropper(WakingSenders)
    ensures ReceiversOk(Goto(s, t, Idle))
  {
    ReceiversFrame(s, Goto(s, t, Idle), t);
  }

  // ----- handles

  /** A step of an idle or dropping thread that changes the senders' handles, or the flag
      that tells receivers that they are gone. */
  lemma SenderSideKeeps(s: State, s': State, t: nat)
    requires Inv(s) && OnlyThread(s, s', t)
    requires s'.(threads := s.threads, senders := s.senders, numSenders := s.numSenders, recv := s.recv) == s
    requires s'.recv.(dead := s.recv.dead) == s.recv
    requires !s.threads[t].Sender? && !s.threads[t].Receiver? && !DropsReceiver(s.threads[t])
    requires !s'.threads[t].Sender? && !s'.threads[t].Receiver? && !DropsReceiver(s'.threads[t])
    requires SendersOk(s')
    requires WakeAfter(s, RoleOf(s.threads[t]), RoleOf(s'.threads[t]), s'.send, s'.recv)
    ensures Inv(s')
  {
    hide WakeOk, WakeAfter, Total, SendersOk, RoleOf;
    ReceiversFrame(s, s', t);
    ThreadsFrame(s, s', t);
    OwnedFrame(s, s', t);
    BagFrame(s, s', t);
    ItemsFrame(s, s', t);
    WakeApply(s, s', t);
  }

  lemma ReceiverSideKeeps(s: State, s': State, t: nat)
    requires Inv(s) && OnlyThread(s, s', t)
    requires s'.(threads := s.threads, receivers := s.receivers, numReceivers := s.numReceivers, send := s.send) == s
    requires s'.send.(dead := s.send.dead) == s.send && (s.send.dead ==> s'.send.dead)
    requires !s.threads[t].Sender? && !s.threads[t].Receiver? && !DropsSender(s.threads[t])
    requires !s'.threads[t].Sender? && !s'.threads[t].Receiver? && !DropsSender(s'.threads[t])
    requires ReceiversOk(s')
    requires WakeAfter(s, RoleOf(s.threads[t]), RoleOf(s'.threads[t]), s'.send, s'.recv)
    ensures Inv(s')
  {
    hide WakeOk, WakeAfter, Total, ReceiversOk, RoleOf;
    SendersFrame(s, s', t);
    ThreadsFrame(s, s', t);
    OwnedFrame(s, s', t);
    BagFrame(s, s', t);
    ItemsFrame(s, s', t);
    WakeApply(s, s', t);
  }

  lemma CloneSenderKeeps(s: State, h: nat, copy: nat)
    requires Inv(s) && h in s.senders && copy !in s.senders && s.numSenders >= 0
    ensures Inv(CloneSenderNext(s, copy))
  {
    hide WakeOk, OwnedOk, BagOk, ItemsOk, LogOk, ThreadsOk;
    var s' := CloneSenderNext(s, copy);
    assert s'.senders.Keys == s.senders.Keys + {copy};
    Unmoved(s, s');
    assert forall u: nat :: HangingReceiver(s, u) <==> HangingReceiver(s', u);
    assert forall u: nat :: HangingSender(s', u) ==> HangingSender(s, u);
  }

  lemma CloneReceiverKeeps(s: State, h: nat, copy: nat)
    requires Inv(s) && h in s.receivers && copy !in s.receivers
    ensures Inv(CloneReceiverNext(s, copy))
  {
    hide WakeOk, OwnedOk, BagOk, ItemsOk, LogOk, ThreadsOk;
    var s' := CloneReceiverNext(s, copy);
    Unmoved(s, s');
    assert forall u: nat :: HangingSender(s, u) <==> HangingSender(s', u);
    assert forall u: nat :: HangingReceiver(s', u) ==> HangingReceiver(s, u);
  }

  lemma Unmoved(s: State, s': State)
    requires ThreadsOk(s) && OwnedOk(s) && BagOk(s) && ItemsOk(s) && LogOk(s) && WakeOk(s)
    requires s'.threads == s.threads && s'.owner == s.owner && s'.send == s.send && s'.recv == s.recv
    requires s'.bag == s.bag && s'.log == s.log && s'.fault == s.fault
    ensures ThreadsOk(s') && OwnedOk(s') && BagOk(s') && ItemsOk(s') && LogOk(s') && WakeOk(s')
  {
    hide RoleOf, Total, ThreadOk, HoldsValue, SlotsOk;
  }

  lemma DropSenderKeeps(s: State, t: nat, h: nat)
    requires Inv(s) && t < |s.threads| && s.threads[t].Idle? && h in s.senders && !SenderInUse(s, h)
    ensures Inv(DropSenderNext(s, t, h))
  {
    hide Inv, Present;
    Facts(s, t);
    DropSenderHandles(s, t, h);
    var s' := DropSenderNext(s, t, h);
    assert s'.threads == s.threads[t := s'.threads[t]] && s'.log == s.log;
    SenderSideKeeps(s, s', t);
  }

  lemma DropSenderHandles(s: State, t: nat, h: nat)
    requires Inv(s) && t < |s.threads| && s.threads[t].Idle? && h in s.senders && !SenderInUse(s, h)
    ensures SendersOk(DropSenderNext(s, t, h))
  {
    hide WakeOk, ItemsOk, BagOk, OwnedOk, LogOk, ThreadsOk, ReceiversOk;
    var s' := DropSenderNext(s, t, h);
    assert s'.senders.Keys == s.senders.Keys - {h};
    assert |s'.senders.Keys| == |s.senders.Keys| - 1;
    forall u | 0 <= u < |s'.threads| && s'.threads[u].Sender?
      ensures s'.threads[u].send.handle in s'.senders
    {
      assert s'.threads[u] == s.threads[u];
    }
    if s'.senders == map[] {
      assert HangingSender(s', t);
    } else {
      assert s.numSenders > 1 by {
        var k :| k in s'.senders.Keys;
        assert {k} <= s'.senders.Keys;
        SubsetSize({k}, s'.senders.Keys);
      }
    }
  }

  lemma HangUpSenderKeeps(s: State, t: nat)
    requires Inv(s) && t < |s.threads| && s.threads[t] == Dropper(HangingUpSender)
    ensures Inv(HangUpSenderNext(s, t))
  {
    hide Inv, Present;
    Facts(s, t);
    HangUpSenderHandles(s, t);
    SenderSideKeeps(s, HangUpSenderNext(s, t), t);
  }

  lemma HangUpSenderHandles(s: State, t: nat)
    requires Inv(s) && t < |s.threads| && s.threads[t] == Dropper(HangingUpSender)
    ensures SendersOk(HangUpSenderNext(s, t))
  {
    hide WakeOk, ItemsOk, BagOk, OwnedOk, LogOk, ThreadsOk, ReceiversOk;
    var s' := HangUpSenderNext(s, t);
    assert HangingSender(s, t);
    forall u | 0 <= u < |s'.threads| && DropsSender(s'.threads[u])
      ensures u == t
    {
      assert u != t ==> s'.threads[u] == s.threads[u] && DropsSender(s.threads[u]);
      assert u != t ==> HangingSender(s, u);
    }
    assert forall u :: !HangingSender(s', u);
  }

  lemma DropReceiverKeeps(s: State, t: nat, h: nat)
    requires Inv(s) && t < |s.threads| && s.threads[t].Idle? && h in s.receivers && !ReceiverInUse(s, h)
    ensures Inv(DropReceiverNext(s, t, h))
  {
    hide Inv, Present;
    Facts(s, t);
    DropReceiverHandles(s, t, h);
    var s' := DropReceiverNext(s, t, h);
    assert s'.threads == s.threads[t := s'.threads[t]] && s'.log == s.log;
    ReceiverSideKeeps(s, s', t);
  }

  lemma DropReceiverHandles(s: State, t: nat, h: nat)
    requires Inv(s) && t < |s.threads| && s.threads[t].Idle? && h in s.receivers && !ReceiverInUse(s, h)
    ensures ReceiversOk(DropReceiverNext(s, t, h))
  {
    hide WakeOk, ItemsOk, BagOk, OwnedOk, LogOk, ThreadsOk, SendersOk;
    var s' := DropReceiverNext(s, t, h);
    assert |s'.receivers| == |s.receivers| - 1;
    forall u | 0 <= u < |s'.threads| && s'.threads[u].Receiver?
      ensures s'.threads[u].recv.handle in s'.receivers
    {
      assert s'.threads[u] == s.threads[u];
    }
    if s'.receivers == {} {
      assert HangingReceiver(s', t);
    } else {
      assert s.numReceivers > 1 by {
        var k :| k in s'.receivers;
        SubsetSize({k}, s'.receivers);
      }
    }
  }

  lemma HangUpReceiverKeeps(s: State, t: nat)
    requires Inv(s) && t < |s.threads| && s.threads[t] == Dropper(HangingUpReceiver)
    ensures Inv(HangUpReceiverNext(s, t))
  {
    hide Inv, Present;
    Facts(s, t);
    HangUpReceiverHandles(s, t);
    ReceiverSideKeeps(s, HangUpReceiverNext(s, t), t);
  }

  lemma HangUpReceiverHandles(s: State, t: nat)
    requires Inv(s) && t < |s.threads| && s.threads[t] == Dropper(HangingUpReceiver)
    ensures ReceiversOk(HangUpReceiverNext(s, t))
  {
    hide WakeOk, ItemsOk, BagOk, OwnedOk, LogOk, ThreadsOk, SendersOk;
    var s' := HangUpReceiverNext(s, t);
    assert HangingReceiver(s, t);
    forall u | 0 <= u < |s'.threads| && DropsReceiver(s'.threads[u])
      ensures u == t
    {
      assert u != t ==> s'.threads[u] == s.threads[u] && DropsReceiver(s.threads[u]);
      assert u != t ==> HangingReceiver(s, u);
    }
    assert forall u :: !HangingReceiver(s', u);
  }

  // ----- the bag itself

  lemma DropBagKeeps(s: State)
    requires Inv(s) && Enabled(s, DropBag)
    ensures Inv(DropBagNext(s))
  {
    hide Total, Present;
    var s' := DropBagNext(s);
    DropBagOwned(s);
    DropBagItems(s);
    assert SendersOk(s') && ReceiversOk(s') && ThreadsOk(s');
    assert WakeOk(s') by {
      NobodyParked(s', true);
      NobodyParked(s', false);
    }
  }

  lemma DropBagOwned(s: State)
    requires Inv(s) && Enabled(s, DropBag)
    ensures OwnedOk(DropBagNext(s)) && BagOk(DropBagNext(s)) && s.send.dead
  {
    hide Total, Present, WakeOk;
    var s' := DropBagNext(s);
    assert s.send.dead by {
      assert forall t :: 0 <= t < |s.threads| ==> !HangingReceiver(s, t);
    }
    forall i: nat | i < SLOTS
      ensures s'.bag[i].None? && !HoldsValue(s'.owner[i], s'.threads, i)
    {
    }
  }

  lemma {:induction false} TotalSplit(bag: seq<Option<Item>>, slots: set<nat>, n: nat)
    requires n <= |bag|
    ensures Total(bag[..n], InSlot) == Total(Kept(bag, slots)[..n], InSlot) + Total(Rest(bag, slots)[..n], InSlot)
  {
    if n > 0 {
      hide InSlot, Total;
      TotalSplit(bag, slots, n - 1);
      var kept, rest := Kept(bag, slots), Rest(bag, slots);
      TotalPrefix(bag, n);
      TotalPrefix(kept, n);
      TotalPrefix(rest, n);
      SlotSplit(bag, slots, n - 1);
      SumOfSums(Total(kept[..n - 1], InSlot), Total(rest[..n - 1], InSlot), InSlot(kept[n - 1]), InSlot(rest[n - 1]));
    }
  }

  lemma TotalPrefix(bag: seq<Option<Item>>, n: nat)
    requires 0 < n <= |bag|
    ensures Total(bag[..n], InSlot) == Total(bag[..n - 1], InSlot) + InSlot(bag[n - 1])
  {
    assert bag[..n][..n - 1] == bag[..n - 1];
  }

  lemma SlotSplit(bag: seq<Option<Item>>, slots: set<nat>, i: nat)
    requires i < |bag|
    ensures InSlot(bag[i]) == InSlot(Kept(bag, slots)[i]) + InSlot(Rest(bag, slots)[i])
  {
  }

  lemma SumOfSums(a: multiset<Item>, b: multiset<Item>, c: multiset<Item>, d: multiset<Item>)
    ensures (a + b) + (c + d) == (a + c) + (b + d)
  {
  }

  lemma DropBagItems(s: State)
    requires Inv(s) && Enabled(s, DropBag)
    ensures ItemsOk(DropBagNext(s)) && LogOk(DropBagNext(s))
  {
    hide Total, InSlot, OwnedOk, BagOk, SendersOk, ReceiversOk, WakeOk, ThreadsOk;
    var s' := DropBagNext(s);
    var kept, rest := Kept(s.bag, s.recv.slots), Rest(s.bag, s.recv.slots);
    TotalSplit(s.bag, s.recv.slots, |s.bag|);
    assert s.bag[..|s.bag|] == s.bag && kept[..|s.bag|] == kept && rest[..|s.bag|] == rest;
    var e := Dropped(Total(kept, InSlot));
    TotalAppend(s.log, e, HandedIn);
    TotalAppend(s.log, e, HandedOut);
    Nothing(Total(s.log, HandedIn));
    MoveOut(Total(s.log, HandedOut), Total(s.threads, HeldBy), Total(kept, InSlot), Total(rest, InSlot));
  }

  lemma MoveOut(o: multiset<Item>, h: multiset<Item>, k: multiset<Item>, r: multiset<Item>)
    ensures o + h + (k + r) == (o + k) + h + r
  {
  }

  // ----- all the steps

  lemma StepKeeps(s: State, a: Action)
    requires Inv(s) && Enabled(s, a)
    ensures Inv(Next(s, a))
  {
    hide Inv, ReserveNext, FillNext, CommitNext, WakeReceiverNext, SendPollMove, SendSleepMove, SendRearmMove;
    hide ClaimNext, DrainNext, ReleaseNext, WakeSenderNext, RecvPollMove, RecvSleepMove, RecvRearmMove, StartSendMove;
    hide Apply, Goto, Woken, DropSenderNext, HangUpSenderNext, DropReceiverNext, HangUpReceiverNext, DropBagNext;
    hide CloneSenderNext, CloneReceiverNext, SenderInUse, ReceiverInUse, WakesOneSender, WakesOneReceiver;
    match a
    case StartSend(t, h, blocking, given) => StartSendKeeps(s, t, SendCall(h, s.senders[h], blocking, given));
    case Reserve(t, retry) => ReserveKeeps(s, t, retry);
    case Fill(t, slot) => FillKeeps(s, t, slot);
    case Commit(t) => CommitKeeps(s, t);
    case WakeReceiver(t, woken) => WakeReceiverKeeps(s, t, woken);
    case SendPoll(t) => SendPollKeeps(s, t);
    case SendSleep(t) => SendSleepKeeps(s, t);
    case SendRearm(t) => SendRearmKeeps(s, t);
    case StartRecv(t, h, blocking) => StartRecvKeeps(s, t, RecvCall(h, blocking));
    case Claim(t) => ClaimKeeps(s, t);
    case Drain(t, slot) => DrainKeeps(s, t, slot);
    case Release(t) => ReleaseKeeps(s, t);
    case WakeSender(t, woken) => WakeSenderKeeps(s, t, woken);
    case RecvPoll(t) => RecvPollKeeps(s, t);
    case RecvSleep(t) => RecvSleepKeeps(s, t);
    case RecvRearm(t) => RecvRearmKeeps(s, t);
    case SpuriousWake(t) => WokenKeeps(s, t);
    case CloneSender(h, copy) => CloneSenderKeeps(s, h, copy);
    case CloneReceiver(h, copy) => CloneReceiverKeeps(s, h, copy);
    case DropSender(t, h) => DropSenderKeeps(s, t, h);
    case HangUpSender(t) => HangUpSenderKeeps(s, t);
    case WakeReceivers(t) => WakeReceiversKeeps(s, t);
    case DropReceiver(t, h) => DropReceiverKeeps(s, t, h);
    case HangUpReceiver(t) => HangUpReceiverKeeps(s, t);
    case WakeSenders(t) => WakeSendersKeeps(s, t);
    case DropBag => DropBagKeeps(s);
  }
}
