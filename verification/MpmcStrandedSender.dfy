/** A run of the bag that strands a sender. */
module MpmcStrandedSender {
  import opened Status
  import opened Tally
  import opened Mpmc
  import opened MpmcInvariant
  import opened MpmcTheorems
  import opened MpmcStranded
  import MpmcProgress
  import MpmcSteps
  import Masks

  /** Five threads, one handle on each side. */
  ghost predicate Stage(s: State, send: Word, recv: Word, threads: seq<Thread>) {
    && Reachable(s) && s.send == send && s.recv == recv && s.threads == threads && |threads| == 5
    && s.senders == map[0 := 0] && s.receivers == {0} && s.numReceivers == 1 && |s.bag| == SLOTS
  }

  const Empty := Word({}, false, false)
  const Taken := Word(AllSlots, false, false)
  const Waited := Word(AllSlots, false, true)
  const One := Word({0}, false, false)

  /** The calls: one item, thirty items, and one item that is prepared to wait. */
  function Single(x: Item): SendCall {
    SendCall(0, 0, false, [x])
  }

  function Batch(x: Item): SendCall {
    SendCall(0, 0, false, seq(SLOTS, _ => x))
  }

  function Patient(x: Item): SendCall {
    SendCall(0, 0, true, [x])
  }

  const Others := AllSlots - {0}

  /** The thread that holds all slots but the first. */
  function Holder(x: Item): Thread {
    Sender(Batch(x), Filling(Batch(x).given, Others, Others))
  }

  lemma FirstMasks(x: Item)
    ensures FirstMask(Single(x)) == FirstMask(Patient(x)) == {0}
    ensures FirstMask(Batch(x)) == AllSlots
  {
  }

  lemma Opening() returns (s: State)
    ensures Stage(s, Empty, Empty, [Idle, Idle, Idle, Idle, Idle]) && s.bag[0].None?
  {
    s := State(Empty, Empty, seq(SLOTS, _ => None), 1, 1, map[0 := 0], {0}, [Idle, Idle, Idle, Idle, Idle],
               true, false, seq(SLOTS, _ => Owner.Free), []);
    var none: seq<Action> := [];
    assert Run([s], none) && Initial([s][0]) && [s][|none|] == s;
  }

  /** A sender starts; its place is the one with number `t`. */
  lemma Starts(s: State, t: nat, blocking: bool, given: seq<Item>) returns (s': State)
    requires Stage(s, s.send, s.recv, s.threads) && t < 5 && s.threads[t].Idle? && given != []
    ensures var c := SendCall(0, 0, blocking, given);
            Stage(s', s.send, s.recv, s.threads[t := Sender(c, Reserving(FirstMask(c)))]) && s'.bag == s.bag
  {
    hide Reachable, FirstMask;
    Extend(s, StartSend(t, 0, blocking, given));
    s' := Next(s, StartSend(t, 0, blocking, given));
  }

  /** It asks for its slots. */
  lemma Asks(s: State, t: nat) returns (s': State)
    requires Stage(s, s.send, s.recv, s.threads) && AtSend(s, t) && s.threads[t].at.Reserving? && !s.send.dead
    requires s.send.slots == AllSlots || s.threads[t].at.mask - s.send.slots != {}
    requires s.threads[t].at.mask <= AllSlots
    ensures var Sender(c, Reserving(mask)) := s.threads[t]; var gained := mask - s.send.slots;
            var th := if s.send.slots != AllSlots then Sender(c, Filling(c.given, gained, gained))
                      else if c.blocking then Sender(c, SendSpinning(32)) else Idle;
            Stage(s', s.send.(slots := s.send.slots + mask), s.recv, s.threads[t := th]) && s'.bag == s.bag
  {
    hide Reachable, Assign, Masks.Trimmed;
    var c := s.threads[t].send;
    var retry := MpmcProgress.TrimmedExists(AllSlots - s.send.slots, |c.given|, c.bias % 2 == 0);
    if s.send.slots == AllSlots {
      assert s.send.slots + s.threads[t].at.mask == AllSlots;
    }
    Extend(s, Reserve(t, retry));
    s' := Next(s, Reserve(t, retry));
  }

  /** The first thread sends one item, which stays in the bag. */
  lemma FirstItem(x: Item) returns (s: State)
    ensures Stage(s, One, One, [Idle, Idle, Idle, Idle, Idle]) && s.bag[0].Some?
  {
    hide Reachable, FirstMask, Assign;
    s := Opening();
    FirstMasks(x);
    assert {0} - Empty.slots == {0} && 0 in AllSlots;
    s := Starts(s, 0, false, [x]);
    s := Asks(s, 0);
    assert s.threads[0] == Sender(Single(x), Filling([x], {0}, {0}));
    var left: set<nat> := {0};
    assert [x][..0] == [] && left - {0} == {};
    Extend(s, Fill(0, 0));
    s := Next(s, Fill(0, 0));
    assert s.threads[0] == Sender(Single(x), Filling([], {0}, {}));
    assert s.send == One;
    Extend(s, Commit(0));
    s := Next(s, Commit(0));
    assert s.recv == One;
  }

  /** The second thread takes all other slots and is not heard of again. */
  lemma FullBag(x: Item) returns (s: State)
    ensures Stage(s, Taken, One, [Idle, Holder(x), Idle, Idle, Idle]) && s.bag[0].Some?
  {
    hide Reachable, FirstMask;
    s := FirstItem(x);
    FirstMasks(x);
    assert 1 in AllSlots - One.slots;
    s := Starts(s, 1, false, Batch(x).given);
    s := Asks(s, 1);
    assert s.send == Taken;
  }

  lemma {:induction false} SpinsDown(s: State, t: nat, c: SendCall, k: nat) returns (s': State)
    requires Stage(s, Taken, One, s.threads) && t < 5 && s.threads[t] == Sender(c, SendSpinning(k))
    ensures Stage(s', Taken, One, s.threads[t := Sender(c, SendSpinning(0))]) && s'.bag == s.bag
    decreases k
  {
    hide Reachable;
    s' := s;
    if k > 0 {
      Extend(s, SendPoll(t));
      s' := SpinsDown(Next(s, SendPoll(t)), t, c, k - 1);
    } else {
      assert s.threads[t := Sender(c, SendSpinning(0))] == s.threads;
    }
  }

  /** A sender that polls a word with SLEEPING on, or for the last time, goes to sleep. */
  lemma NodsOff(s: State, t: nat, c: SendCall, k: nat) returns (s': State)
    requires Stage(s, s.send, One, s.threads) && t < 5 && s.threads[t] == Sender(c, SendSpinning(k))
    requires s.send == Waited || (s.send == Taken && k == 0)
    ensures Stage(s', Waited, One, s.threads[t := Sender(c, SendParked)]) && s'.bag == s.bag
  {
    hide Reachable, FirstMask;
    Extend(s, SendPoll(t));
    s' := Next(s, SendPoll(t));
    assert s'.threads[t] == Sender(c, SendSleeping(Waited));
    Extend(s', SendSleep(t));
    s' := Next(s', SendSleep(t));
  }

  /** Two senders find the bag full and go to sleep. */
  lemma BothAsleep(x: Item) returns (s: State)
    ensures var p := Sender(Patient(x), SendParked);
            Stage(s, Waited, One, [Idle, Holder(x), p, p, Idle]) && s.bag[0].Some?
  {
    hide Reachable, FirstMask;
    s := FullBag(x);
    FirstMasks(x);
    s := Starts(s, 2, true, [x]);
    s := Asks(s, 2);
    assert s.send == Taken;
    s := SpinsDown(s, 2, Patient(x), 32);
    s := NodsOff(s, 2, Patient(x), 0);
    s := Starts(s, 3, true, [x]);
    s := Asks(s, 3);
    assert s.send == Waited;
    s := NodsOff(s, 3, Patient(x), 32);
  }

  /** A receiver takes the item and wakes the first of them, which turns SLEEPING off. */
  lemma ItemReceived(x: Item) returns (s: State)
    ensures var c := Patient(x);
            Stage(s, Word(Others, false, false), Empty,
                  [Idle, Holder(x), Sender(c, SendWoken), Sender(c, SendParked), Idle])
  {
    hide Reachable, Assign;
    s := BothAsleep(x);
    Extend(s, StartRecv(4, 0, false));
    s := Next(s, StartRecv(4, 0, false));
    Extend(s, Claim(4));
    s := Next(s, Claim(4));
    assert s.threads[4] == Receiver(RecvCall(0, false), Draining([], {0}, {0}));
    s := Emptied(s, x);
  }

  lemma Emptied(s: State, x: Item) returns (s': State)
    requires var p := Sender(Patient(x), SendParked);
             Stage(s, Waited, Empty, [Idle, Holder(x), p, p, Receiver(RecvCall(0, false), Draining([], {0}, {0}))])
    requires s.bag[0].Some?
    ensures var c := Patient(x);
            Stage(s', Word(Others, false, false), Empty,
                  [Idle, Holder(x), Sender(c, SendWoken), Sender(c, SendParked), Idle])
  {
    hide Reachable, Assign;
    Extend(s, Drain(4, 0));
    s' := Next(s, Drain(4, 0));
    assert s'.threads[4].on.left == {};
    Extend(s', Release(4));
    s' := Next(s', Release(4));
    assert s'.threads[4].on.WakingSender?;
    Extend(s', WakeSender(4, Some(2)));
    s' := Next(s', WakeSender(4, Some(2)));
  }

  /** The last receiver is dropped before the woken sender has raised SLEEPING again: the
      other sender is never woken. */
  lemma ASenderCanBeStranded(x: Item)
    ensures exists s, u :: Reachable(s) && StrandedSender(s, u)
  {
    hide Reachable;
    var s := ItemReceived(x);
    Extend(s, DropReceiver(4, 0));
    s := Next(s, DropReceiver(4, 0));
    assert s.threads[4] == Dropper(HangingUpReceiver);
    Extend(s, HangUpReceiver(4));
    s := Next(s, HangUpReceiver(4));
    assert s.receivers == {} && s.threads[4] == Idle;
    assert StrandedSender(s, 3);
  }
}
