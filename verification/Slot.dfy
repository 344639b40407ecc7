/** The one-place channel of `slot.rs` as a machine: any number of senders, one receiver.

    As in the bag, a step is one atomic access, one access to the slot or one futex
    operation, with the local code that follows it. */
module Slot {
  import opened Tally

  // ----- the `send` word

  /** On x86-64 the reservation is a counter in a `u64`, bumped by every attempt, and the
      futex watches the upper half of the word.  Elsewhere it is one bit of a `u32`. */
  datatype Target = X86_64 | Portable

  /** The word taken apart; `count` is everything below the two flags. */
  datatype SendWord = SendWord(count: nat, sleeping: bool, dead: bool)

  /** `SLEEPING`, the lower of the two flags; `RECEIVER_DEAD` is the next bit up. */
  function SleepBit(g: Target): nat {
    match g
    case X86_64 => 0x4000_0000_0000_0000
    case Portable => 0x4000_0000
  }

  /** `(all & (!all + 1)) >> 1`, the largest count that may be overtaken. */
  const ABORT: nat := 0x2000_0000_0000_0000

  function Encode(g: Target, w: SendWord): nat {
    w.count + (if w.sleeping then SleepBit(g) else 0) + (if w.dead then 2 * SleepBit(g) else 0)
  }

  function Decode(g: Target, n: nat): SendWord {
    SendWord(n % SleepBit(g), n / SleepBit(g) % 2 == 1, n / (2 * SleepBit(g)) % 2 == 1)
  }

  /** `fetch_add(1)`, wrapping, or `fetch_or(1)`. */
  function BumpWord(g: Target, w: SendWord): SendWord {
    match g
    case X86_64 => Decode(g, (Encode(g, w) + 1) % (4 * SleepBit(g)))
    case Portable => if w.count % 2 == 1 then w else w.(count := w.count + 1)
  }

  /** What the futex compares. */
  function FutexHalf(g: Target, w: SendWord): nat {
    match g
    case X86_64 => Encode(g, w) / 0x1_0000_0000
    case Portable => Encode(g, w)
  }

  predicate WordFits(g: Target, w: SendWord) {
    w.count < SleepBit(g)
  }

  /** The flags read from a number are the flags that were put into it. */
  lemma DecodeEncode(g: Target, w: SendWord)
    requires WordFits(g, w)
    ensures Decode(g, Encode(g, w)) == w
  {
  }

  /** As long as it does not carry, bumping adds one and leaves the flags alone. */
  lemma BumpAdds(g: Target, w: SendWord)
    requires w.count + 1 < SleepBit(g) && (g.Portable? ==> w.count <= 1)
    ensures BumpWord(g, w) == w.(count := if g.Portable? then 1 else w.count + 1)
  {
    hide Decode;
    if g.X86_64? {
      var next := w.(count := w.count + 1);
      EncodeFits(g, next);
      assert Encode(g, next) == Encode(g, w) + 1;
      DecodeEncode(g, next);
    }
  }

  lemma EncodeFits(g: Target, w: SendWord)
    requires WordFits(g, w)
    ensures Encode(g, w) % (4 * SleepBit(g)) == Encode(g, w)
  {
    assert Encode(g, w) < 4 * SleepBit(g);
  }

  /** Without the abort the counter would run into SLEEPING. */
  lemma BumpCarries(w: SendWord)
    requires w == SendWord(0x3FFF_FFFF_FFFF_FFFF, false, false)
    ensures BumpWord(X86_64, w) == SendWord(0, true, false)
  {
  }

  /** Threads that sleep on equal halves have seen the same flags, if not the same count. */
  lemma HalfShowsFlags(g: Target, a: SendWord, b: SendWord)
    requires WordFits(g, a) && WordFits(g, b) && FutexHalf(g, a) == FutexHalf(g, b)
    ensures a.sleeping == b.sleeping && a.dead == b.dead
    ensures g.Portable? ==> a == b
  {
    match g
    case X86_64 =>
      HalfOf(a);
      HalfOf(b);
    case Portable =>
      DecodeEncode(g, a);
      DecodeEncode(g, b);
  }

  lemma HalfOf(w: SendWord)
    requires WordFits(X86_64, w)
    ensures FutexHalf(X86_64, w)
            == w.count / 0x1_0000_0000 + (if w.sleeping then 0x4000_0000 else 0) + (if w.dead then 0x8000_0000 else 0)
    ensures w.count / 0x1_0000_0000 < 0x4000_0000
  {
  }

  // ----- the `recv` word

  datatype RecvWord = RecvWord(commit: bool, sleeping: bool, dead: bool)

  // ----- threads

  datatype SendCall = SendCall(handle: nat, blocking: bool, item: Item)

  /** What a sending thread is about to do; `Aborting` has seen too many reservations and
      is about to abort the process. */
  datatype SendStep =
    | Reserving
    | Aborting
    | Writing
    | Committing
    | WakingReceiver
    | SendSpinning(spin: nat)
    | SendSleeping(expected: SendWord)
    | SendParked
    | SendWoken

  /** A thread that dropped the last sender. */
  datatype DropStep = HangingUp | WakingOnHangUp

  datatype Thread =
    | Idle
    | Sender(call: SendCall, at: SendStep)
    | Dropper(drop: DropStep)

  /** What the receiver is about to do. */
  datatype Receiver =
    | Resting
    | Loading(blocking: bool, i: nat)
    | Clearing
    | Reading
    | Releasing(value: Item)
    | WakingSender(value: Item)
    | Arming
    | RecvSleeping
    | RecvParked
    | WakingSenders
    | Gone

  datatype SendOutcome = Sent | Full | Disconnected

  datatype Event =
    | Handed(item: Item)
    | SendEnded(item: Item, outcome: SendOutcome)
    | Received(item: Item)
    | RecvFailed(disconnected: bool)
    | Dropped(item: Item)

  /** `holder`, `committed` and `log` are history: no step looks at them.  `holder` is the
      thread that has the reservation, `committed` lists the items in the order of their
      commits. */
  datatype State = State(
    target: Target, send: SendWord, recv: RecvWord, slot: Option<Item>,
    numSenders: int, senders: set<nat>,
    threads: seq<Thread>, receiver: Receiver, alive: bool, aborted: bool, fault: bool,
    holder: Option<nat>, committed: seq<Item>, log: seq<Event>)

  const U32_MAX: int := 0xFFFF_FFFF

  ghost predicate Initial(s: State) {
    && s.send == SendWord(0, false, false) && s.recv == RecvWord(false, false, false)
    && s.slot == None && s.numSenders == 1 && s.senders == {0}
    && (forall t :: 0 <= t < |s.threads| ==> s.threads[t].Idle?)
    && s.receiver == Resting && s.alive && !s.aborted && !s.fault
    && s.holder == None && s.committed == [] && s.log == []
    && (s.target.X86_64? ==> |s.threads| < ABORT - 1)
  }

  datatype Action =
    | StartSend(t: nat, handle: nat, blocking: bool, item: Item)
    | Reserve(t: nat)
    | Abort(t: nat)
    | Write(t: nat)
    | Commit(t: nat)
    | WakeReceiver(t: nat)
    | SendPoll(t: nat)
    | SendSleep(t: nat)
    | SendRearm(t: nat)
    | SpuriousSendWake(t: nat)
    | CloneSender(handle: nat, copy: nat)
    | DropSender(t: nat, handle: nat)
    | HangUp(t: nat)
    | WakeOnHangUp(t: nat)
    | StartRecv(blocking: bool)
    | Load
    | Clear
    | Read
    | Release
    | WakeSender(woken: Option<nat>)
    | Arm
    | RecvSleep
    | SpuriousRecvWake
    | DropReceiver
    | WakeSenders
    | DropSlot

  // ----- helpers of the steps

  predicate At(s: State, t: nat) {
    t < |s.threads| && s.threads[t].Sender?
  }

  predicate IsParked(th: Thread) {
    th.Sender? && th.at.SendParked?
  }

  function Woken(th: Thread): Thread {
    if IsParked(th) then Sender(th.call, SendWoken) else th
  }

  function WakeAll(threads: seq<Thread>): (r: seq<Thread>)
    ensures |r| == |threads| && forall t :: 0 <= t < |r| ==> r[t] == Woken(threads[t])
  {
    seq(|threads|, t requires 0 <= t < |threads| => Woken(threads[t]))
  }

  ghost predicate InUse(s: State, h: nat) {
    exists t :: 0 <= t < |s.threads| && s.threads[t].Sender? && s.threads[t].call.handle == h
  }

  ghost predicate WakesOne(s: State, woken: Option<nat>) {
    match woken
    case None => forall u :: 0 <= u < |s.threads| ==> !IsParked(s.threads[u])
    case Some(u) => u < |s.threads| && IsParked(s.threads[u])
  }

  // ----- which steps are possible

  ghost predicate Enabled(s: State, a: Action) {
    && !s.aborted
    && match a
       case StartSend(t, h, _, _) => t < |s.threads| && s.threads[t].Idle? && h in s.senders
       case Reserve(t) => At(s, t) && s.threads[t].at.Reserving?
       case Abort(t) => At(s, t) && s.threads[t].at.Aborting?
       case Write(t) => At(s, t) && s.threads[t].at.Writing?
       case Commit(t) => At(s, t) && s.threads[t].at.Committing?
       case WakeReceiver(t) => At(s, t) && s.threads[t].at.WakingReceiver?
       case SendPoll(t) => At(s, t) && s.threads[t].at.SendSpinning?
       case SendSleep(t) => At(s, t) && s.threads[t].at.SendSleeping?
       case SendRearm(t) => At(s, t) && s.threads[t].at.SendWoken?
       case SpuriousSendWake(t) => At(s, t) && s.threads[t].at.SendParked?
       case CloneSender(h, copy) => h in s.senders && copy !in s.senders && s.numSenders <= U32_MAX / 2
       case DropSender(t, h) => t < |s.threads| && s.threads[t].Idle? && h in s.senders && !InUse(s, h)
       case HangUp(t) => t < |s.threads| && s.threads[t] == Dropper(HangingUp)
       case WakeOnHangUp(t) => t < |s.threads| && s.threads[t] == Dropper(WakingOnHangUp)
       case StartRecv(_) => s.receiver.Resting?
       case Load => s.receiver.Loading?
       case Clear => s.receiver.Clearing?
       case Read => s.receiver.Reading?
       case Release => s.receiver.Releasing?
       case WakeSender(woken) => s.receiver.WakingSender? && WakesOne(s, woken)
       case Arm => s.receiver.Arming?
       case RecvSleep => s.receiver.RecvSleeping?
       case SpuriousRecvWake => s.receiver.RecvParked?
       case DropReceiver => s.receiver.Resting?
       case WakeSenders => s.receiver.WakingSenders?
       case DropSlot =>
         && s.alive && s.senders == {} && s.receiver.Gone?
         && forall t :: 0 <= t < |s.threads| ==> s.threads[t].Idle?
  }

  // ----- the steps of a sender

  function Goto(s: State, t: nat, th: Thread): State
    requires t < |s.threads|
  {
    s.(threads := s.threads[t := th])
  }

  function Return(s: State, t: nat, e: Event): State
    requires t < |s.threads|
  {
    s.(threads := s.threads[t := Idle], log := s.log + [e])
  }

  function StartSendNext(s: State, t: nat, c: SendCall): State
    requires t < |s.threads|
  {
    Goto(s, t, Sender(c, Reserving)).(log := s.log + [Handed(c.item)])
  }

  /** The reservation and the tests on what it returns. */
  function ReserveNext(s: State, t: nat): State
    requires At(s, t)
  {
    var c := s.threads[t].call;
    var prev := s.send;
    var s := s.(send := BumpWord(s.target, prev));
    if s.target.X86_64? && prev.count > ABORT then Goto(s, t, Sender(c, Aborting))
    else if prev.dead then Return(s, t, SendEnded(c.item, Disconnected))
    else if prev.count > 0 then
      if c.blocking then Goto(s, t, Sender(c, SendSpinning(32))) else Return(s, t, SendEnded(c.item, Full))
    else Goto(s, t, Sender(c, Writing)).(holder := Some(t))
  }

  function WriteNext(s: State, t: nat): State
    requires At(s, t)
  {
    var c := s.threads[t].call;
    if s.slot.Some? then s.(fault := true)
    else Goto(s, t, Sender(c, Committing)).(slot := Some(c.item))
  }

  /** `recv.swap(COMMIT)`. */
  function CommitNext(s: State, t: nat): State
    requires At(s, t)
  {
    var c := s.threads[t].call;
    var prev := s.recv;
    var s := s.(recv := RecvWord(true, false, false), holder := None, committed := s.committed + [c.item]);
    if prev.sleeping then Goto(s, t, Sender(c, WakingReceiver)) else Return(s, t, SendEnded(c.item, Sent))
  }

  /** Waking the receiver, if it is parked, sends it round its loop again. */
  function ReceiverWoken(r: Receiver): Receiver {
    if r.RecvParked? then Loading(true, 0) else r
  }

  function WakeReceiverNext(s: State, t: nat): State
    requires At(s, t)
  {
    Return(s.(receiver := ReceiverWoken(s.receiver)), t, SendEnded(s.threads[t].call.item, Sent))
  }

  /** Where the spin loop in `send` goes on from the word it reads; `Idle` if it gives up. */
  function Polled(c: SendCall, spin: nat, w: SendWord): Thread
    requires spin == 0 ==> w.sleeping
  {
    if w.count == 0 then Sender(c, Reserving)
    else if w.dead then Idle
    else if w.sleeping then Sender(c, SendSleeping(w))
    else Sender(c, SendSpinning(spin - 1))
  }

  function SendPollNext(s: State, t: nat): State
    requires At(s, t) && s.threads[t].at.SendSpinning?
  {
    var Sender(c, SendSpinning(spin)) := s.threads[t];
    var w := s.send.(sleeping := s.send.sleeping || spin == 0);
    var th := Polled(c, spin, w);
    s.(send := w, threads := s.threads[t := th],
       log := if th.Idle? then s.log + [SendEnded(c.item, Disconnected)] else s.log)
  }

  function SendSleepNext(s: State, t: nat): State
    requires At(s, t) && s.threads[t].at.SendSleeping?
  {
    var Sender(c, SendSleeping(expected)) := s.threads[t];
    var same := FutexHalf(s.target, s.send) == FutexHalf(s.target, expected);
    Goto(s, t, Sender(c, if same then SendParked else SendWoken))
  }

  function SendRearmNext(s: State, t: nat): State
    requires At(s, t)
  {
    Goto(s.(send := s.send.(sleeping := true)), t, Sender(s.threads[t].call, Reserving))
  }

  // ----- handles

  function DropSenderNext(s: State, t: nat, h: nat): State
    requires t < |s.threads|
  {
    var prev := s.numSenders;
    var s := s.(numSenders := prev - 1, senders := s.senders - {h});
    if prev > 1 then s else Goto(s, t, Dropper(HangingUp))
  }

  /** `recv.fetch_or(SENDER_DEAD)` by the last sender. */
  function HangUpNext(s: State, t: nat): State
    requires t < |s.threads|
  {
    Goto(s.(recv := s.recv.(dead := true)), t, if s.recv.sleeping then Dropper(WakingOnHangUp) else Idle)
  }

  // ----- the steps of the receiver

  function LoadNext(s: State): State
    requires s.receiver.Loading?
  {
    var Loading(blocking, i) := s.receiver;
    if s.recv.commit then s.(receiver := Clearing)
    else if s.recv.dead then s.(receiver := Resting, log := s.log + [RecvFailed(true)])
    else if !blocking then s.(receiver := Resting, log := s.log + [RecvFailed(false)])
    else s.(receiver := if i < 32 then Loading(true, i + 1) else Arming)
  }

  /** `recv.fetch_and(SENDER_DEAD)`. */
  function ClearNext(s: State): State {
    s.(recv := RecvWord(false, false, s.recv.dead), receiver := Reading)
  }

  function ReadNext(s: State): State {
    if s.slot.None? then s.(fault := true)
    else s.(slot := None, receiver := Releasing(s.slot.value))
  }

  /** `send.swap(0)`. */
  function ReleaseNext(s: State): State
    requires s.receiver.Releasing?
  {
    var v := s.receiver.value;
    var prev := s.send;
    var s := s.(send := SendWord(0, false, false));
    if prev.sleeping then s.(receiver := WakingSender(v))
    else s.(receiver := Resting, log := s.log + [Received(v)])
  }

  function WakeSenderNext(s: State, woken: Option<nat>): State
    requires s.receiver.WakingSender? && (woken.Some? ==> woken.value < |s.threads|)
  {
    var s' := if woken.None? then s else Goto(s, woken.value, Woken(s.threads[woken.value]));
    s'.(receiver := Resting, log := s'.log + [Received(s.receiver.value)])
  }

  /** `recv.fetch_or(SLEEPING)`: go to sleep only if nothing else was on. */
  function ArmNext(s: State): State {
    s.(recv := s.recv.(sleeping := true),
       receiver := if s.recv == RecvWord(false, false, false) then RecvSleeping else Loading(true, 0))
  }

  function RecvSleepNext(s: State): State {
    s.(receiver := if s.recv == RecvWord(false, true, false) then RecvParked else Loading(true, 0))
  }

  /** `send.swap(RECEIVER_DEAD)`. */
  function DropReceiverNext(s: State): State {
    s.(send := SendWord(0, false, true), receiver := if s.send.sleeping then WakingSenders else Gone)
  }

  function WakeSendersNext(s: State): State {
    s.(threads := WakeAll(s.threads), receiver := Gone)
  }

  /** `Inner::drop`: drops a value that is still committed. */
  function DropSlotNext(s: State): State {
    if !s.recv.commit then s.(alive := false)
    else if s.slot.None? then s.(fault := true)
    else s.(alive := false, slot := None, recv := s.recv.(commit := false), log := s.log + [Dropped(s.slot.value)])
  }

  ghost function Next(s: State, a: Action): State
    requires Enabled(s, a)
  {
    match a
    case StartSend(t, h, blocking, item) => StartSendNext(s, t, SendCall(h, blocking, item))
    case Reserve(t) => ReserveNext(s, t)
    case Abort(t) => s.(aborted := true)
    case Write(t) => WriteNext(s, t)
    case Commit(t) => CommitNext(s, t)
    case WakeReceiver(t) => WakeReceiverNext(s, t)
    case SendPoll(t) => SendPollNext(s, t)
    case SendSleep(t) => SendSleepNext(s, t)
    case SendRearm(t) => SendRearmNext(s, t)
    case SpuriousSendWake(t) => Goto(s, t, Woken(s.threads[t]))
    case CloneSender(h, copy) => s.(numSenders := s.numSenders + 1, senders := s.senders + {copy})
    case DropSender(t, h) => DropSenderNext(s, t, h)
    case HangUp(t) => HangUpNext(s, t)
    case WakeOnHangUp(t) => Goto(s.(receiver := ReceiverWoken(s.receiver)), t, Idle)
    case StartRecv(blocking) => s.(receiver := Loading(blocking, 0))
    case Load => LoadNext(s)
    case Clear => ClearNext(s)
    case Read => ReadNext(s)
    case Release => ReleaseNext(s)
    case WakeSender(woken) => WakeSenderNext(s, woken)
    case Arm => ArmNext(s)
    case RecvSleep => RecvSleepNext(s)
    case SpuriousRecvWake => s.(receiver := Loading(true, 0))
    case DropReceiver => DropReceiverNext(s)
    case WakeSenders => WakeSendersNext(s)
    case DropSlot => DropSlotNext(s)
  }
}
