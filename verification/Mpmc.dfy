/** The bag of `mpmc.rs` as a machine whose steps are the atomic accesses, the slot reads
    and writes and the futex operations of any number of threads.

    Atomic accesses are sequentially consistent steps; the code between two of them only
    touches the locals of its thread and belongs to the step before it. */
module Mpmc {
  import opened Status
  import opened Tally
  import Masks

  /** Where a sender starts asking for slots. */
  type Bias = b: nat | b < SLOTS

  // ----- threads

  /** A `send` or `try_send` in flight; `given` is the buffer as the caller handed it over. */
  datatype SendCall = SendCall(handle: nat, bias: Bias, blocking: bool, given: seq<Item>)

  /** A `recv` or `try_recv` in flight. */
  datatype RecvCall = RecvCall(handle: nat, blocking: bool)

  /** What a sending thread is about to do. */
  datatype SendStep =
      // try_send
    | Reserving(mask: set<nat>)
    | Filling(data: seq<Item>, reserved: set<nat>, left: set<nat>)
    | WakingReceiver(data: seq<Item>)
      // send, after a full bag
    | SendSpinning(spin: nat)
    | SendSleeping(expected: Word)
    | SendParked
    | SendWoken

  /** What a receiving thread is about to do; `woken` is history: this is its first `try_recv`
      since it was in the futex. */
  datatype RecvStep =
      // try_recv
    | Claiming(woken: bool)
    | Draining(values: seq<Item>, claimed: set<nat>, left: set<nat>)
    | WakingSender(values: seq<Item>)
      // recv, after an empty bag
    | RecvSpinning(spin: nat)
    | RecvSleeping(expected: Word)
    | RecvParked
    | RecvWoken

  /** What a thread that dropped the last handle of its kind is about to do. */
  datatype DropStep = HangingUpSender | WakingReceivers | HangingUpReceiver | WakingSenders

  datatype Thread =
    | Idle
    | Sender(send: SendCall, at: SendStep)
    | Receiver(recv: RecvCall, on: RecvStep)
    | Dropper(drop: DropStep)

  predicate IsSenderParked(th: Thread) {
    th.Sender? && th.at.SendParked?
  }

  predicate IsReceiverParked(th: Thread) {
    th.Receiver? && th.on.RecvParked?
  }

  // ----- the whole state

  /** Who holds a slot.  A history variable: no step looks at it. */
  datatype Owner = Free | ReservedBy(t: nat) | Committed | ClaimedBy(t: nat) | Abandoned

  datatype SendOutcome = Sent | Full | Disconnected

  /** What callers see, in order: a history variable as well. */
  datatype Event =
    | Handed(given: seq<Item>)
    | SendReturned(given: seq<Item>, rest: seq<Item>, outcome: SendOutcome)
    | RecvReturned(values: seq<Item>)
    | RecvFailed(disconnected: bool)
    | Dropped(remainder: multiset<Item>)

  /** `fault` records an access that is undefined behaviour or leaks a value: taking from
      an empty buffer, reading a slot that holds nothing, overwriting one that holds a value. */
  datatype State = State(
    send: Word, recv: Word, bag: seq<Option<Item>>,
    numSenders: int, numReceivers: int,
    senders: map<nat, Bias>, receivers: set<nat>,
    threads: seq<Thread>, alive: bool, fault: bool,
    owner: seq<Owner>, log: seq<Event>)

  const U32_MAX: int := 0xFFFF_FFFF

  datatype Action =
    | StartSend(t: nat, handle: nat, blocking: bool, given: seq<Item>)
    | Reserve(t: nat, retry: set<nat>)
    | Fill(t: nat, slot: nat)
    | Commit(t: nat)
    | WakeReceiver(t: nat, woken: Option<nat>)
    | SendPoll(t: nat)
    | SendSleep(t: nat)
    | SendRearm(t: nat)
    | StartRecv(t: nat, handle: nat, blocking: bool)
    | Claim(t: nat)
    | Drain(t: nat, slot: nat)
    | Release(t: nat)
    | WakeSender(t: nat, woken: Option<nat>)
    | RecvPoll(t: nat)
    | RecvSleep(t: nat)
    | RecvRearm(t: nat)
    | SpuriousWake(t: nat)
    | CloneSender(handle: nat, copy: nat)
    | CloneReceiver(handle: nat, copy: nat)
    | DropSender(t: nat, handle: nat)
    | HangUpSender(t: nat)
    | WakeReceivers(t: nat)
    | DropReceiver(t: nat, handle: nat)
    | HangUpReceiver(t: nat)
    | WakeSenders(t: nat)
    | DropBag

  ghost predicate Initial(s: State) {
    && s.send == Word({}, false, false) && s.recv == Word({}, false, false)
    && s.bag == seq(SLOTS, _ => None) && s.owner == seq(SLOTS, _ => Free)
    && s.numSenders == 1 && s.numReceivers == 1
    && s.senders == map[0 := 0] && s.receivers == {0}
    && (forall t :: 0 <= t < |s.threads| ==> s.threads[t].Idle?)
    && s.alive && !s.fault && s.log == []
  }

  // ----- helpers of the steps

  function Assign(owner: seq<Owner>, slots: set<nat>, o: Owner): (r: seq<Owner>)
    ensures |r| == |owner|
    ensures forall i :: 0 <= i < |r| ==> r[i] == if i in slots then o else owner[i]
  {
    seq(|owner|, i requires 0 <= i < |owner| => if i in slots then o else owner[i])
  }

  /** Every thread parked on `recv` (or on `send`) leaves the futex. */
  function Woken(th: Thread): Thread {
    if IsReceiverParked(th) then Receiver(th.recv, RecvWoken)
    else if IsSenderParked(th) then Sender(th.send, SendWoken)
    else th
  }

  function WakeReceiversIn(threads: seq<Thread>): (r: seq<Thread>)
    ensures |r| == |threads|
    ensures forall t :: 0 <= t < |r| ==> r[t] == if IsReceiverParked(threads[t]) then Woken(threads[t]) else threads[t]
  {
    seq(|threads|, t requires 0 <= t < |threads| =>
      if IsReceiverParked(threads[t]) then Woken(threads[t]) else threads[t])
  }

  function WakeSendersIn(threads: seq<Thread>): (r: seq<Thread>)
    ensures |r| == |threads|
    ensures forall t :: 0 <= t < |r| ==> r[t] == if IsSenderParked(threads[t]) then Woken(threads[t]) else threads[t]
  {
    seq(|threads|, t requires 0 <= t < |threads| =>
      if IsSenderParked(threads[t]) then Woken(threads[t]) else threads[t])
  }

  predicate IsFirst(slot: nat, left: set<nat>) {
    slot in left && forall i :: i in left ==> slot <= i
  }

  /** A move of a single thread that touches no slot: where it goes next, the two words
      after its access, and what its caller sees. */
  datatype Move = Move(thread: Thread, send: Word, recv: Word, events: seq<Event>)

  function Apply(s: State, t: nat, m: Move): State
    requires t < |s.threads|
  {
    s.(threads := s.threads[t := m.thread], send := m.send, recv := m.recv, log := s.log + m.events)
  }

  function Goto(s: State, t: nat, th: Thread): State
    requires t < |s.threads|
  {
    Apply(s, t, Move(th, s.send, s.recv, []))
  }

  function Return(s: State, t: nat, e: Event): State
    requires t < |s.threads|
  {
    Apply(s, t, Move(Idle, s.send, s.recv, [e]))
  }

  function FirstMask(c: SendCall): set<nat> {
    Masks.Window(|c.given|, c.bias)
  }

  ghost predicate SenderInUse(s: State, h: nat) {
    exists t :: 0 <= t < |s.threads| && s.threads[t].Sender? && s.threads[t].send.handle == h
  }

  ghost predicate ReceiverInUse(s: State, h: nat) {
    exists t :: 0 <= t < |s.threads| && s.threads[t].Receiver? && s.threads[t].recv.handle == h
  }

  ghost predicate AllIdle(s: State) {
    forall t :: 0 <= t < |s.threads| ==> s.threads[t].Idle?
  }

  /** `atomic_wake(word, 1)` on `recv`: one parked thread if there is any. */
  ghost predicate WakesOneReceiver(s: State, woken: Option<nat>) {
    match woken
    case None => forall u :: 0 <= u < |s.threads| ==> !IsReceiverParked(s.threads[u])
    case Some(u) => u < |s.threads| && IsReceiverParked(s.threads[u])
  }

  ghost predicate WakesOneSender(s: State, woken: Option<nat>) {
    match woken
    case None => forall u :: 0 <= u < |s.threads| ==> !IsSenderParked(s.threads[u])
    case Some(u) => u < |s.threads| && IsSenderParked(s.threads[u])
  }

  // ----- which steps are possible

  predicate AtSend(s: State, t: nat) {
    t < |s.threads| && s.threads[t].Sender?
  }

  predicate AtRecv(s: State, t: nat) {
    t < |s.threads| && s.threads[t].Receiver?
  }

  ghost predicate Enabled(s: State, a: Action) {
    match a
    case StartSend(t, h, _, _) => t < |s.threads| && s.threads[t].Idle? && h in s.senders
    case Reserve(t, retry) =>
      && AtSend(s, t) && s.threads[t].at.Reserving?
      && var c := s.threads[t].send;
         Masks.Trimmed(AllSlots - s.send.slots, retry, |c.given|, c.bias % 2 == 0)
    case Fill(t, slot) => AtSend(s, t) && s.threads[t].at.Filling? && IsFirst(slot, s.threads[t].at.left)
    case Commit(t) => AtSend(s, t) && s.threads[t].at.Filling? && s.threads[t].at.left == {}
    case WakeReceiver(t, woken) =>
      AtSend(s, t) && s.threads[t].at.WakingReceiver? && WakesOneReceiver(s, woken)
    case SendPoll(t) => AtSend(s, t) && s.threads[t].at.SendSpinning?
    case SendSleep(t) => AtSend(s, t) && s.threads[t].at.SendSleeping?
    case SendRearm(t) => AtSend(s, t) && s.threads[t].at.SendWoken?
    case StartRecv(t, h, _) => t < |s.threads| && s.threads[t].Idle? && h in s.receivers
    case Claim(t) => AtRecv(s, t) && s.threads[t].on.Claiming?
    case Drain(t, slot) => AtRecv(s, t) && s.threads[t].on.Draining? && IsFirst(slot, s.threads[t].on.left)
    case Release(t) => AtRecv(s, t) && s.threads[t].on.Draining? && s.threads[t].on.left == {}
    case WakeSender(t, woken) =>
      AtRecv(s, t) && s.threads[t].on.WakingSender? && WakesOneSender(s, woken)
    case RecvPoll(t) => AtRecv(s, t) && s.threads[t].on.RecvSpinning?
    case RecvSleep(t) => AtRecv(s, t) && s.threads[t].on.RecvSleeping?
    case RecvRearm(t) => AtRecv(s, t) && s.threads[t].on.RecvWoken?
    case SpuriousWake(t) => t < |s.threads| && (IsSenderParked(s.threads[t]) || IsReceiverParked(s.threads[t]))
    case CloneSender(h, copy) => h in s.senders && copy !in s.senders && 0 <= s.numSenders <= U32_MAX / 2
    case CloneReceiver(h, copy) => h in s.receivers && copy !in s.receivers && s.numReceivers <= U32_MAX / 2
    case DropSender(t, h) => t < |s.threads| && s.threads[t].Idle? && h in s.senders && !SenderInUse(s, h)
    case HangUpSender(t) => t < |s.threads| && s.threads[t] == Dropper(HangingUpSender)
    case WakeReceivers(t) => t < |s.threads| && s.threads[t] == Dropper(WakingReceivers)
    case DropReceiver(t, h) => t < |s.threads| && s.threads[t].Idle? && h in s.receivers && !ReceiverInUse(s, h)
    case HangUpReceiver(t) => t < |s.threads| && s.threads[t] == Dropper(HangingUpReceiver)
    case WakeSenders(t) => t < |s.threads| && s.threads[t] == Dropper(WakingSenders)
    case DropBag => s.alive && s.senders == map[] && s.receivers == {} && AllIdle(s)
  }

  // ----- the steps of a sender

  function StartSendMove(c: SendCall, send: Word, recv: Word): Move {
    if c.given == [] then
      Move(Idle, send, recv, [Handed(c.given), SendReturned(c.given, c.given, Sent)])
    else
      Move(Sender(c, Reserving(FirstMask(c))), send, recv, [Handed(c.given)])
  }

  /** `send.fetch_or(aligned_request_mask)` and the tests on what it returns. */
  function ReserveNext(s: State, t: nat, retry: set<nat>): State
    requires AtSend(s, t) && s.threads[t].at.Reserving?
  {
    var Sender(c, Reserving(mask)) := s.threads[t];
    var gained := mask - s.send.slots;
    var send := s.send.(slots := s.send.slots + mask);
    if s.send.dead then
      var m := Move(Idle, send, s.recv, [SendReturned(c.given, c.given, Disconnected)]);
      Apply(s, t, m).(owner := Assign(s.owner, gained, Abandoned))
    else if s.send.slots != AllSlots && gained != {} then
      var m := Move(Sender(c, Filling(c.given, gained, gained)), send, s.recv, []);
      Apply(s, t, m).(owner := Assign(s.owner, gained, ReservedBy(t)))
    else Apply(s, t, ReserveFailedMove(c, send, s.recv, retry))
  }

  function ReserveFailedMove(c: SendCall, send: Word, recv: Word, retry: set<nat>): Move {
    if send.slots != AllSlots then Move(Sender(c, Reserving(retry)), send, recv, [])
    else if c.blocking then Move(Sender(c, SendSpinning(32)), send, recv, [])
    else Move(Idle, send, recv, [SendReturned(c.given, c.given, Full)])
  }

  /** One turn of `drain_mask` in `try_send`: take the last item, write it to the slot. */
  function FillNext(s: State, t: nat, slot: nat): State
    requires AtSend(s, t) && s.threads[t].at.Filling?
  {
    var Sender(c, Filling(data, reserved, left)) := s.threads[t];
    if data == [] || slot >= |s.bag| || s.bag[slot].Some? then s.(fault := true)
    else
      Goto(s, t, Sender(c, Filling(data[..|data| - 1], reserved, left - {slot})))
      .(bag := s.bag[slot := Some(data[|data| - 1])])
  }

  /** `recv.fetch_or(reserved | STATUS)`. */
  function CommitNext(s: State, t: nat): State
    requires AtSend(s, t) && s.threads[t].at.Filling?
  {
    var Sender(c, Filling(data, reserved, _)) := s.threads[t];
    var recv := Word(s.recv.slots + reserved, false, false);
    var m := if s.recv.sleeping then Move(Sender(c, WakingReceiver(data)), s.send, recv, [])
             else Move(Idle, s.send, recv, [SendReturned(c.given, data, Sent)]);
    Apply(s, t, m).(owner := Assign(s.owner, reserved, Committed))
  }

  function WakeReceiverNext(s: State, t: nat, woken: Option<nat>): State
    requires AtSend(s, t) && s.threads[t].at.WakingReceiver?
    requires woken.Some? ==> woken.value < |s.threads| && IsReceiverParked(s.threads[woken.value])
  {
    var Sender(c, WakingReceiver(data)) := s.threads[t];
    var s := if woken.None? then s else Goto(s, woken.value, Woken(s.threads[woken.value]));
    Return(s, t, SendReturned(c.given, data, Sent))
  }

  /** One turn of the spin loop in `send`. */
  function SendPollMove(c: SendCall, spin: nat, word: Word, recv: Word): Move {
    var send := if spin == 0 then word.(sleeping := true) else word;
    if send.slots != AllSlots then Move(Sender(c, Reserving(FirstMask(c))), send, recv, [])
    else if send.dead then Move(Idle, send, recv, [SendReturned(c.given, c.given, Disconnected)])
    else if send.sleeping then Move(Sender(c, SendSleeping(send)), send, recv, [])
    else assert spin > 0; Move(Sender(c, SendSpinning(spin - 1)), send, recv, [])
  }

  /** `futex::wait`: compares and parks in one step. */
  function SendSleepMove(c: SendCall, expected: Word, send: Word, recv: Word): Move {
    Move(if send == expected then Sender(c, SendParked) else Sender(c, SendWoken), send, recv, [])
  }

  function SendRearmMove(c: SendCall, send: Word, recv: Word): Move {
    Move(Sender(c, Reserving(FirstMask(c))), send.(sleeping := true), recv, [])
  }

  // ----- the steps of a receiver

  /** `recv.fetch_and(STATUS)` and the tests on what it returns. */
  function ClaimNext(s: State, t: nat): State
    requires AtRecv(s, t) && s.threads[t].on.Claiming?
  {
    var c := s.threads[t].recv;
    var claimed := s.recv.slots;
    if claimed == {} then Apply(s, t, ClaimFailedMove(c, s.send, s.recv))
    else
      var m := Move(Receiver(c, Draining([], claimed, claimed)), s.send, s.recv.(slots := {}), []);
      Apply(s, t, m).(owner := Assign(s.owner, claimed, ClaimedBy(t)))
  }

  function ClaimFailedMove(c: RecvCall, send: Word, recv: Word): Move {
    if recv.dead then Move(Idle, send, recv, [RecvFailed(true)])
    else if c.blocking then Move(Receiver(c, RecvSpinning(32)), send, recv, [])
    else Move(Idle, send, recv, [RecvFailed(false)])
  }

  /** One turn of `drain_mask` in `try_recv`: move the value out of the slot. */
  function DrainNext(s: State, t: nat, slot: nat): State
    requires AtRecv(s, t) && s.threads[t].on.Draining?
  {
    var Receiver(c, Draining(values, claimed, left)) := s.threads[t];
    if slot >= |s.bag| || s.bag[slot].None? then s.(fault := true)
    else
      Goto(s, t, Receiver(c, Draining(values + [s.bag[slot].value], claimed, left - {slot})))
      .(bag := s.bag[slot := None])
  }

  /** `send.fetch_and(!claimed & !STATUS)`. */
  function ReleaseNext(s: State, t: nat): State
    requires AtRecv(s, t) && s.threads[t].on.Draining?
  {
    var Receiver(c, Draining(values, claimed, _)) := s.threads[t];
    var send := Word(s.send.slots - claimed, false, false);
    var m := if s.send.sleeping then Move(Receiver(c, WakingSender(values)), send, s.recv, [])
             else Move(Idle, send, s.recv, [RecvReturned(values)]);
    Apply(s, t, m).(owner := Assign(s.owner, claimed, Free))
  }

  function WakeSenderNext(s: State, t: nat, woken: Option<nat>): State
    requires AtRecv(s, t) && s.threads[t].on.WakingSender?
    requires woken.Some? ==> woken.value < |s.threads| && IsSenderParked(s.threads[woken.value])
  {
    var values := s.threads[t].on.values;
    var s := if woken.None? then s else Goto(s, woken.value, Woken(s.threads[woken.value]));
    Return(s, t, RecvReturned(values))
  }

  /** One turn of the spin loop in `recv`. */
  function RecvPollMove(c: RecvCall, spin: nat, send: Word, word: Word): Move {
    var recv := if spin == 0 then word.(sleeping := true) else word;
    if recv.slots != {} then Move(Receiver(c, Claiming(false)), send, recv, [])
    else if recv.dead then Move(Idle, send, recv, [RecvFailed(true)])
    else if recv.sleeping then Move(Receiver(c, RecvSleeping(recv)), send, recv, [])
    else assert spin > 0; Move(Receiver(c, RecvSpinning(spin - 1)), send, recv, [])
  }

  function RecvSleepMove(c: RecvCall, expected: Word, send: Word, recv: Word): Move {
    Move(if recv == expected then Receiver(c, RecvParked) else Receiver(c, RecvWoken), send, recv, [])
  }

  function RecvRearmMove(c: RecvCall, send: Word, recv: Word): Move {
    Move(Receiver(c, Claiming(true)), send, recv.(sleeping := true), [])
  }

  // ----- handles

  /** `(prev_senders * 7) % 30`, in wrapping `u32` arithmetic. */
  function CloneBias(prevSenders: nat): Bias {
    ((prevSenders * 7) % (U32_MAX + 1)) % SLOTS
  }

  function CloneSenderNext(s: State, copy: nat): State
    requires s.numSenders >= 0
  {
    s.(numSenders := s.numSenders + 1, senders := s.senders[copy := CloneBias(s.numSenders)])
  }

  function CloneReceiverNext(s: State, copy: nat): State {
    s.(numReceivers := s.numReceivers + 1, receivers := s.receivers + {copy})
  }

  function DropSenderNext(s: State, t: nat, h: nat): State
    requires t < |s.threads|
  {
    var prev := s.numSenders;
    var s := s.(numSenders := prev - 1, senders := s.senders - {h});
    if prev > 1 then s else Goto(s, t, Dropper(HangingUpSender))
  }

  /** `recv.fetch_and(!COUNTERPARTY_DEAD)` by the last sender. */
  function HangUpSenderNext(s: State, t: nat): State
    requires t < |s.threads|
  {
    Apply(s, t, Move(if s.recv.sleeping then Dropper(WakingReceivers) else Idle, s.send, s.recv.(dead := true), []))
  }

  function DropReceiverNext(s: State, t: nat, h: nat): State
    requires t < |s.threads|
  {
    var prev := s.numReceivers;
    var s := s.(numReceivers := prev - 1, receivers := s.receivers - {h});
    if prev > 1 then s else Goto(s, t, Dropper(HangingUpReceiver))
  }

  /** `send.fetch_or(COUNTERPARTY_DEAD)` by the last receiver. */
  function HangUpReceiverNext(s: State, t: nat): State
    requires t < |s.threads|
  {
    Apply(s, t, Move(if s.send.sleeping then Dropper(WakingSenders) else Idle, s.send.(dead := true), s.recv, []))
  }

  /** The bag with only the slots in `slots`, and without them. */
  function Kept(bag: seq<Option<Item>>, slots: set<nat>): (r: seq<Option<Item>>)
    ensures |r| == |bag| && forall i :: 0 <= i < |r| ==> r[i] == if i in slots then bag[i] else None
  {
    seq(|bag|, i requires 0 <= i < |bag| => if i in slots then bag[i] else None)
  }

  function Rest(bag: seq<Option<Item>>, slots: set<nat>): (r: seq<Option<Item>>)
    ensures |r| == |bag| && forall i :: 0 <= i < |r| ==> r[i] == if i in slots then None else bag[i]
  {
    seq(|bag|, i requires 0 <= i < |bag| => if i in slots then None else bag[i])
  }

  /** `Inner::drop`: drops what is in the committed slots.  The memory is gone with it, so
      nothing is committed any more. */
  function DropBagNext(s: State): State {
    s.(bag := Rest(s.bag, s.recv.slots), alive := false, log := s.log + [Dropped(Total(Kept(s.bag, s.recv.slots), InSlot))],
       recv := s.recv.(slots := {}), owner := Assign(s.owner, s.recv.slots, Abandoned),
       fault := s.fault || exists i :: i in s.recv.slots && (i >= |s.bag| || s.bag[i].None?))
  }

  // ----- one step

  ghost function Next(s: State, a: Action): State
    requires Enabled(s, a)
  {
    match a
    case StartSend(t, h, blocking, given) =>
      Apply(s, t, StartSendMove(SendCall(h, s.senders[h], blocking, given), s.send, s.recv))
    case Reserve(t, retry) => ReserveNext(s, t, retry)
    case Fill(t, slot) => FillNext(s, t, slot)
    case Commit(t) => CommitNext(s, t)
    case WakeReceiver(t, woken) => WakeReceiverNext(s, t, woken)
    case SendPoll(t) => Apply(s, t, SendPollMove(s.threads[t].send, s.threads[t].at.spin, s.send, s.recv))
    case SendSleep(t) => Apply(s, t, SendSleepMove(s.threads[t].send, s.threads[t].at.expected, s.send, s.recv))
    case SendRearm(t) => Apply(s, t, SendRearmMove(s.threads[t].send, s.send, s.recv))
    case StartRecv(t, h, blocking) => Goto(s, t, Receiver(RecvCall(h, blocking), Claiming(false)))
    case Claim(t) => ClaimNext(s, t)
    case Drain(t, slot) => DrainNext(s, t, slot)
    case Release(t) => ReleaseNext(s, t)
    case WakeSender(t, woken) => WakeSenderNext(s, t, woken)
    case RecvPoll(t) => Apply(s, t, RecvPollMove(s.threads[t].recv, s.threads[t].on.spin, s.send, s.recv))
    case RecvSleep(t) => Apply(s, t, RecvSleepMove(s.threads[t].recv, s.threads[t].on.expected, s.send, s.recv))
    case RecvRearm(t) => Apply(s, t, RecvRearmMove(s.threads[t].recv, s.send, s.recv))
    case SpuriousWake(t) => Goto(s, t, Woken(s.threads[t]))
    case CloneSender(h, copy) => CloneSenderNext(s, copy)
    case CloneReceiver(h, copy) => CloneReceiverNext(s, copy)
    case DropSender(t, h) => DropSenderNext(s, t, h)
    case HangUpSender(t) => HangUpSenderNext(s, t)
    case WakeReceivers(t) => Goto(s.(threads := WakeReceiversIn(s.threads)), t, Idle)
    case DropReceiver(t, h) => DropReceiverNext(s, t, h)
    case HangUpReceiver(t) => HangUpReceiverNext(s, t)
    case WakeSenders(t) => Goto(s.(threads := WakeSendersIn(s.threads)), t, Idle)
    case DropBag => DropBagNext(s)
  }
}
