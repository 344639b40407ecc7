/** The operations of the one-place channel as the code has them, on the encoded words and
    the slot, with the other threads free to interfere between any two accesses.  Each
    access is one step of the machine. */
module SlotCode {
  import opened Tally
  import opened Slot
  import opened SlotInvariant
  import SlotSteps
  import SlotTheorems

  // ----- the words as numbers and bits

  lemma EncodeDecode(g: Target, n: nat)
    requires n < 4 * SleepBit(g)
    ensures Encode(g, Decode(g, n)) == n && WordFits(g, Decode(g, n))
  {
  }

  /** `fetch_or(SLEEPING)` on `send`. */
  function OrSleeping(g: Target, n: nat): nat {
    if n / SleepBit(g) % 2 == 1 then n else n + SleepBit(g)
  }

  lemma OrSleepingIs(g: Target, w: SendWord)
    requires WordFits(g, w)
    ensures OrSleeping(g, Encode(g, w)) == Encode(g, w.(sleeping := true))
  {
    DecodeEncode(g, w);
  }

  /** `fetch_add(1)` or `fetch_or(1)` on `send`. */
  function Bumped(g: Target, n: nat): nat {
    match g
    case X86_64 => (n + 1) % (4 * SleepBit(g))
    case Portable => if n % 2 == 1 then n else n + 1
  }

  lemma BumpedIs(g: Target, w: SendWord)
    requires WordFits(g, w) && (g.Portable? ==> w.count <= 1)
    ensures Bumped(g, Encode(g, w)) == Encode(g, BumpWord(g, w))
  {
    hide Decode;
    match g
    case X86_64 => EncodeDecode(g, Bumped(g, Encode(g, w)));
    case Portable => EvenFlags(w);
  }

  lemma EvenFlags(w: SendWord)
    ensures Encode(Portable, w) % 2 == w.count % 2
  {
  }

  const COMMIT: bv32 := 1
  const SLEEPING: bv32 := 2
  const SENDER_DEAD: bv32 := 4

  function RecvBits(w: RecvWord): bv32 {
    (if w.commit then COMMIT else 0) | (if w.sleeping then SLEEPING else 0) | (if w.dead then SENDER_DEAD else 0)
  }

  lemma RecvBitsAre(w: RecvWord)
    ensures RecvBits(w) & COMMIT == COMMIT <==> w.commit
    ensures RecvBits(w) & SLEEPING == SLEEPING <==> w.sleeping
    ensures RecvBits(w) & SENDER_DEAD == SENDER_DEAD <==> w.dead
    ensures RecvBits(w) == 0 <==> w == RecvWord(false, false, false)
    ensures RecvBits(w) == SLEEPING <==> w == RecvWord(false, true, false)
    ensures RecvBits(w) | SLEEPING == RecvBits(w.(sleeping := true))
    ensures RecvBits(w) | SENDER_DEAD == RecvBits(w.(dead := true))
    ensures RecvBits(w) & SENDER_DEAD == RecvBits(RecvWord(false, false, w.dead))
    ensures COMMIT == RecvBits(RecvWord(true, false, false))
  {
  }

  // ----- what the steps of the machine do to the shared memory

  ghost predicate Kept(s: State, s': State) {
    s'.target == s.target && |s'.threads| == |s.threads| && s'.aborted == s.aborted
  }

  ghost predicate SameMemory(s: State, s': State) {
    Kept(s, s') && s'.send == s.send && s'.recv == s.recv && s'.slot == s.slot
  }

  lemma StartSendIs(s: State, t: nat, h: nat, blocking: bool, x: Item)
    requires !s.aborted && t < |s.threads| && s.threads[t].Idle? && h in s.senders
    ensures Enabled(s, StartSend(t, h, blocking, x))
    ensures var s' := Next(s, StartSend(t, h, blocking, x));
            SameMemory(s, s') && s'.threads[t] == Sender(SendCall(h, blocking, x), Reserving)
  {
  }

  lemma ReserveIs(s: State, t: nat)
    requires !s.aborted && At(s, t) && s.threads[t].at.Reserving?
    ensures Enabled(s, Reserve(t))
    ensures var s' := Next(s, Reserve(t)); var c := s.threads[t].call;
            && Kept(s, s') && s'.send == BumpWord(s.target, s.send) && s'.recv == s.recv && s'.slot == s.slot
            && if s.target.X86_64? && s.send.count > ABORT then s'.threads[t] == Sender(c, Aborting)
               else if s.send.dead then s'.threads[t] == Idle && s'.log == s.log + [SendEnded(c.item, Disconnected)]
               else if s.send.count > 0 then
                 if c.blocking then s'.threads[t] == Sender(c, SendSpinning(32))
                 else s'.threads[t] == Idle && s'.log == s.log + [SendEnded(c.item, Full)]
               else s'.threads[t] == Sender(c, Writing)
  {
    hide BumpWord;
  }

  lemma WriteIs(s: State, t: nat)
    requires Inv(s) && !s.aborted && At(s, t) && s.threads[t].at.Writing?
    ensures Enabled(s, Write(t))
    ensures var s' := Next(s, Write(t)); var c := s.threads[t].call;
            && Kept(s, s') && s'.send == s.send && s'.recv == s.recv && s'.slot == Some(c.item)
            && s'.threads[t] == Sender(c, Committing)
  {
    hide HandlesOk, CountOk, SleepersOk, OrderOk, ItemsOk, SentOk, ReceiverWakeOk, SenderWakeOk;
    assert s.holder == Some(t);
  }

  lemma CommitIs(s: State, t: nat)
    requires !s.aborted && At(s, t) && s.threads[t].at.Committing?
    ensures Enabled(s, Commit(t))
    ensures var s' := Next(s, Commit(t)); var c := s.threads[t].call;
            && Kept(s, s') && s'.send == s.send && s'.recv == RecvWord(true, false, false) && s'.slot == s.slot
            && if s.recv.sleeping then s'.threads[t] == Sender(c, WakingReceiver)
               else s'.threads[t] == Idle && s'.log == s.log + [SendEnded(c.item, Sent)]
  {
  }

  lemma WakeReceiverIs(s: State, t: nat)
    requires !s.aborted && At(s, t) && s.threads[t].at.WakingReceiver?
    ensures Enabled(s, WakeReceiver(t))
    ensures var s' := Next(s, WakeReceiver(t));
            SameMemory(s, s') && s'.threads[t] == Idle && s'.log == s.log + [SendEnded(s.threads[t].call.item, Sent)]
  {
  }

  lemma SendPollIs(s: State, t: nat)
    requires !s.aborted && At(s, t) && s.threads[t].at.SendSpinning?
    ensures Enabled(s, SendPoll(t))
    ensures var s' := Next(s, SendPoll(t)); var Sender(c, SendSpinning(spin)) := s.threads[t];
            var w := s.send.(sleeping := s.send.sleeping || spin == 0); var th := Polled(c, spin, w);
            && Kept(s, s') && s'.send == w && s'.recv == s.recv && s'.slot == s.slot && s'.threads[t] == th
            && (th.Idle? ==> s'.log == s.log + [SendEnded(c.item, Disconnected)])
  {
    hide Polled;
  }

  lemma SendSleepIs(s: State, t: nat)
    requires !s.aborted && At(s, t) && s.threads[t].at.SendSleeping?
    ensures Enabled(s, SendSleep(t))
    ensures var s' := Next(s, SendSleep(t)); var Sender(c, SendSleeping(e)) := s.threads[t];
            SameMemory(s, s') && s'.threads[t] ==
              Sender(c, if FutexHalf(s.target, s.send) == FutexHalf(s.target, e) then SendParked else SendWoken)
  {
    hide FutexHalf;
  }

  lemma SpuriousSendIs(s: State, t: nat)
    requires !s.aborted && At(s, t) && s.threads[t].at.SendParked?
    ensures Enabled(s, SpuriousSendWake(t))
    ensures var s' := Next(s, SpuriousSendWake(t));
            SameMemory(s, s') && s'.threads[t] == Sender(s.threads[t].call, SendWoken)
  {
  }

  lemma SendRearmIs(s: State, t: nat)
    requires !s.aborted && At(s, t) && s.threads[t].at.SendWoken?
    ensures Enabled(s, SendRearm(t))
    ensures var s' := Next(s, SendRearm(t));
            && Kept(s, s') && s'.send == s.send.(sleeping := true) && s'.recv == s.recv && s'.slot == s.slot
            && s'.threads[t] == Sender(s.threads[t].call, Reserving)
  {
  }

  lemma AbortIs(s: State, t: nat)
    requires !s.aborted && At(s, t) && s.threads[t].at.Aborting?
    ensures Enabled(s, Abort(t))
    ensures var s' := Next(s, Abort(t)); s'.aborted && |s'.threads| == |s.threads|
  {
  }

  lemma SendWordFits(s: State)
    requires Inv(s)
    ensures WordFits(s.target, s.send) && (s.target.Portable? ==> s.send.count <= 1)
  {
    CondemnedBound(s.threads);
    hide HandlesOk, SleepersOk, HolderOk, SlotOk, OrderOk, ItemsOk, SentOk, ReceiverWakeOk, SenderWakeOk;
  }

  // ----- the steps of the receiver

  lemma StartRecvIs(s: State, blocking: bool)
    requires !s.aborted && s.receiver.Resting?
    ensures Enabled(s, StartRecv(blocking))
    ensures var s' := Next(s, StartRecv(blocking)); SameMemory(s, s') && s'.receiver == Loading(blocking, 0)
  {
  }

  lemma LoadIs(s: State)
    requires !s.aborted && s.receiver.Loading?
    ensures Enabled(s, Load)
    ensures var s' := Next(s, Load); var Loading(blocking, i) := s.receiver;
            && SameMemory(s, s')
            && if s.recv.commit then s'.receiver == Clearing
               else if s.recv.dead || !blocking then s'.receiver == Resting && s'.log == s.log + [RecvFailed(s.recv.dead)]
               else s'.receiver == if i < 32 then Loading(true, i + 1) else Arming
  {
  }

  lemma ClearIs(s: State)
    requires !s.aborted && s.receiver.Clearing?
    ensures Enabled(s, Clear)
    ensures var s' := Next(s, Clear);
            && Kept(s, s') && s'.send == s.send && s'.slot == s.slot && s'.receiver == Reading
            && s'.recv == RecvWord(false, false, s.recv.dead)
  {
  }

  lemma ReadIs(s: State)
    requires Inv(s) && !s.aborted && s.receiver.Reading?
    ensures Enabled(s, Read) && s.slot.Some?
    ensures var s' := Next(s, Read);
            Kept(s, s') && s'.send == s.send && s'.recv == s.recv && s'.slot == None && s'.receiver == Releasing(s.slot.value)
  {
    hide HandlesOk, CountOk, SleepersOk, HolderOk, OrderOk, ItemsOk, SentOk, ReceiverWakeOk, SenderWakeOk;
  }

  lemma ReleaseIs(s: State)
    requires !s.aborted && s.receiver.Releasing?
    ensures Enabled(s, Release)
    ensures var s' := Next(s, Release); var v := s.receiver.value;
            && Kept(s, s') && s'.send == SendWord(0, false, false) && s'.recv == s.recv && s'.slot == s.slot
            && if s.send.sleeping then s'.receiver == WakingSender(v)
               else s'.receiver == Resting && s'.log == s.log + [Received(v)]
  {
  }

  lemma WakeSenderIs(s: State, woken: Option<nat>)
    requires !s.aborted && s.receiver.WakingSender? && WakesOne(s, woken)
    ensures Enabled(s, WakeSender(woken))
    ensures var s' := Next(s, WakeSender(woken));
            SameMemory(s, s') && s'.receiver == Resting && s'.log == s.log + [Received(s.receiver.value)]
  {
  }

  lemma SomebodyToWake(s: State) returns (woken: Option<nat>)
    ensures WakesOne(s, woken)
  {
    if u: nat :| u < |s.threads| && IsParked(s.threads[u]) {
      woken := Some(u);
    } else {
      woken := None;
    }
  }

  lemma ArmIs(s: State)
    requires !s.aborted && s.receiver.Arming?
    ensures Enabled(s, Arm)
    ensures var s' := Next(s, Arm);
            && Kept(s, s') && s'.send == s.send && s'.recv == s.recv.(sleeping := true) && s'.slot == s.slot
            && s'.receiver == if s.recv == RecvWord(false, false, false) then RecvSleeping else Loading(true, 0)
  {
  }

  lemma RecvSleepIs(s: State)
    requires !s.aborted && s.receiver.RecvSleeping?
    ensures Enabled(s, RecvSleep)
    ensures var s' := Next(s, RecvSleep);
            SameMemory(s, s') && s'.receiver == if s.recv == RecvWord(false, true, false) then RecvParked else Loading(true, 0)
  {
  }

  lemma SpuriousRecvIs(s: State)
    requires !s.aborted && s.receiver.RecvParked?
    ensures Enabled(s, SpuriousRecvWake)
    ensures var s' := Next(s, SpuriousRecvWake); SameMemory(s, s') && s'.receiver == Loading(true, 0)
  {
  }

  lemma DropReceiverIs(s: State)
    requires !s.aborted && s.receiver.Resting?
    ensures Enabled(s, DropReceiver)
    ensures var s' := Next(s, DropReceiver);
            && Kept(s, s') && s'.send == SendWord(0, false, true) && s'.recv == s.recv && s'.slot == s.slot
            && s'.receiver == if s.send.sleeping then WakingSenders else Gone
  {
  }

  lemma WakeSendersIs(s: State)
    requires !s.aborted && s.receiver.WakingSenders?
    ensures Enabled(s, WakeSenders)
    ensures var s' := Next(s, WakeSenders); SameMemory(s, s') && s'.receiver == Gone
  {
  }

  lemma DropSlotIs(s: State)
    requires Inv(s) && Enabled(s, DropSlot)
    ensures s.slot.Some? <==> s.recv.commit
    ensures var s' := Next(s, DropSlot);
            && s'.slot == None && !s'.recv.commit && s'.receiver.Gone? && s'.threads == s.threads && s'.committed == s.committed
            && s'.log == s.log + (if s.recv.commit then [Dropped(s.slot.value)] else [])
            && forall t :: 0 <= t < |s'.threads| ==> s'.threads[t].Idle?
  {
    hide Inv;
    SlotTheorems.SlotAtTheEnd(s);
  }

  /** What thread `t` finds after others have moved. */
  ghost predicate OthersMoved(s: State, s': State, t: nat) {
    t < |s.threads| && t < |s'.threads| && s'.threads[t] == s.threads[t]
  }

  // ----- what a thread finds after others have moved

  /** A thread that stands still while others move; one that is parked may be woken. */
  predicate MayWake(th: Thread, th': Thread) {
    th' == th || (IsParked(th) && th' == Woken(th))
  }

  /** Not a step of thread `t`, though the kernel may wake it for no reason. */
  predicate NotOf(a: Action, t: nat) {
    SlotTheorems.ThreadOf(a) != Some(t) || a == SpuriousSendWake(t)
  }

  lemma StepOfAnother(s: State, a: Action, t: nat)
    requires t < |s.threads| && Enabled(s, a) && NotOf(a, t)
    ensures t < |Next(s, a).threads| && MayWake(s.threads[t], Next(s, a).threads[t])
  {
    hide Enabled, Next;
    if Waits(a) || Takes(a) {
      StepOfSender(s, a, t);
    } else {
      StepOfReceiver(s, a, t);
    }
  }

  lemma StepOfSender(s: State, a: Action, t: nat)
    requires t < |s.threads| && Enabled(s, a) && NotOf(a, t) && (Waits(a) || Takes(a))
    ensures t < |Next(s, a).threads| && MayWake(s.threads[t], Next(s, a).threads[t])
  {
    hide BumpWord, FutexHalf, Polled;
  }

  lemma StepOfReceiver(s: State, a: Action, t: nat)
    requires t < |s.threads| && Enabled(s, a) && NotOf(a, t) && !Waits(a) && !Takes(a)
    ensures t < |Next(s, a).threads| && MayWake(s.threads[t], Next(s, a).threads[t])
  {
    hide InUse;
  }

  /** Others leave a parked thread parked, or just woken, and every other thread where it is. */
  lemma {:induction false} RunOfOthers(trace: seq<State>, acts: seq<Action>, t: nat, i: nat, j: nat)
    requires SlotTheorems.Run(trace, acts) && i <= j <= |acts| && t < |trace[i].threads|
    requires forall k :: i <= k < j ==> NotOf(acts[k], t)
    ensures t < |trace[j].threads| && MayWake(trace[i].threads[t], trace[j].threads[t])
  {
    hide Next, Enabled;
    if i < j {
      RunOfOthers(trace, acts, t, i, j - 1);
      assert SlotTheorems.Step(trace[j - 1], acts[j - 1], trace[j - 1 + 1]);
      StepOfAnother(trace[j - 1], acts[j - 1], t);
    }
  }

  /** So whatever others do is among what `Others` allows, or, for a parked thread, among what
      `SleepOnSend` promises once the thread runs again. */
  lemma OthersAllowed(trace: seq<State>, acts: seq<Action>, t: nat, i: nat, j: nat)
    requires SlotTheorems.Run(trace, acts) && Inv(trace[0]) && i <= j <= |acts| && t < |trace[i].threads|
    requires forall k :: i <= k < j ==> NotOf(acts[k], t)
    ensures Inv(trace[j])
    ensures !IsParked(trace[i].threads[t]) ==> OthersMoved(trace[i], trace[j], t)
    ensures IsParked(trace[i].threads[t]) ==>
              && t < |trace[j].threads| && var c := trace[i].threads[t].call;
              trace[j].threads[t] in {Sender(c, SendParked), Sender(c, SendWoken)}
  {
    hide Inv;
    SlotTheorems.RunInv(trace, acts, j);
    RunOfOthers(trace, acts, t, i, j);
  }

  /** The steps that are not the receiver's, though the kernel may wake it for no reason. */
  predicate OfSenders(a: Action) {
    a.SpuriousRecvWake? || (!Receives(a) && !a.DropReceiver? && !a.WakeSenders?)
  }

  lemma StepOfASender(s: State, a: Action)
    requires Enabled(s, a) && OfSenders(a)
    ensures Next(s, a).receiver == s.receiver || Next(s, a).receiver == ReceiverWoken(s.receiver)
  {
    hide BumpWord, FutexHalf, InUse;
  }

  /** Others leave a parked receiver parked, or just woken, and any other receiver where it
      is: what `Senders` allows, and what `SleepOnRecv` promises once the receiver runs again. */
  lemma {:induction false} RunOfSenders(trace: seq<State>, acts: seq<Action>, i: nat, j: nat)
    requires SlotTheorems.Run(trace, acts) && Inv(trace[0]) && i <= j <= |acts|
    requires forall k :: i <= k < j ==> OfSenders(acts[k])
    ensures Inv(trace[j])
    ensures !trace[i].receiver.RecvParked? ==> trace[j].receiver == trace[i].receiver
    ensures trace[i].receiver.RecvParked? ==> trace[j].receiver in {RecvParked, Loading(true, 0)}
  {
    hide Inv, Next, Enabled;
    SlotTheorems.RunInv(trace, acts, j);
    if i < j {
      RunOfSenders(trace, acts, i, j - 1);
      assert SlotTheorems.Step(trace[j - 1], acts[j - 1], trace[j - 1 + 1]);
      StepOfASender(trace[j - 1], acts[j - 1]);
    }
  }

  /** How a call ends; `GaveUp` is the end of the model's patience, not of the call. */
  datatype SendResult = Ended(outcome: SendOutcome) | ProcessAborted | GaveUp

  class Inner {
    const target: Target
    var send: nat
    var recv: bv32
    var slot: Option<Item>
    /** The machine: not looked at. */
    ghost var s: State
    /** How often a reservation or a load has been tried through this object. */
    ghost var tries: nat

    ghost predicate Valid()
      reads this
    {
      && s.target == target && send == Encode(target, s.send) && recv == RecvBits(s.recv) && slot == s.slot
      && Inv(s) && !s.aborted
    }

    /** `mpsc`, for `n` threads to come. */
    constructor (g: Target, n: nat)
      requires g.X86_64? ==> n < ABORT - 1
      ensures Valid() && Initial(s) && |s.threads| == n && target == g
    {
      target, send, recv, slot, tries := g, 0, 0, None, 0;
      s := State(g, SendWord(0, false, false), RecvWord(false, false, false), None, 1, {0}, seq(n, _ => Idle),
                 Resting, true, false, false, None, [], []);
      new;
      hide Inv;
      SlotTheorems.InitialInv(s);
      RecvBitsAre(s.recv);
    }

    /** Any number of steps of other threads, none of which aborts the process.  The body
        stands for none; callers only know what the contract says, which by `OthersAllowed`
        covers all that others can do. */
    method Others(t: nat)
      requires Valid() && t < |s.threads|
      modifies this
      ensures Valid() && OthersMoved(old(s), s, t) && tries == old(tries)
    {
    }

    ghost predicate Reported(t: nat, e: Event)
      reads this
    {
      t < |s.threads| && s.threads[t] == Idle && s.log != [] && s.log[|s.log| - 1] == e
    }

    /** Takes the machine along. */
    ghost method Follow(a: Action)
      requires Inv(s) && Enabled(s, a) && !a.Reserve? && !a.Load?
      modifies this`s
      ensures Inv(s) && s == Next(old(s), a)
    {
      hide Inv, Next, Enabled;
      SlotSteps.StepKeeps(s, a);
      s := Next(s, a);
    }

    ghost method Try(a: Action)
      requires Inv(s) && Enabled(s, a) && (a.Reserve? || a.Load?)
      modifies this`s, this`tries
      ensures Inv(s) && s == Next(old(s), a) && tries == old(tries) + 1
    {
      hide Inv, Next, Enabled;
      SlotSteps.StepKeeps(s, a);
      s := Next(s, a);
      tries := tries + 1;
    }

    // ----- try_send

    /** The `fetch_add` or `fetch_or`, and the tests on what it returns.  `None` means that the
        slot is reserved. */
    method ReserveSlot(t: nat) returns (r: Option<SendResult>)
      requires Valid() && At(s, t) && s.threads[t].at.Reserving?
      modifies this`send, this`s, this`tries
      ensures t < |s.threads| && (r != Some(ProcessAborted) ==> Valid()) && tries == old(tries) + 1
      ensures var c := old(s).threads[t].call;
              match r
              case None => s.threads[t] == Sender(c, Writing)
              case Some(Ended(o)) =>
                && o != Sent
                && if o == Full && c.blocking then s.threads[t] == Sender(c, SendSpinning(32))
                   else Reported(t, SendEnded(c.item, o))
              case Some(ProcessAborted) => s.aborted && target == X86_64 && old(s).send.count > 0x2000_0000_0000_0000
              case Some(GaveUp) => false
    {
      hide Inv, Next, BumpWord, Bumped, Encode, Decode, Enabled;
      SendWordFits(s);
      BumpedIs(target, s.send);
      DecodeEncode(target, s.send);
      ReserveIs(s, t);
      var prev := Decode(target, send);
      send := Bumped(target, send);
      Try(Reserve(t));
      if target.X86_64? && prev.count > ABORT {
        AbortIs(s, t);
        Follow(Abort(t));
        return Some(ProcessAborted);
      }
      if prev.dead {
        return Some(Ended(Disconnected));
      }
      if prev.count > 0 {
        return Some(Ended(Full));
      }
      return None;
    }

    /** `ptr::write`. */
    method WriteSlot(t: nat, x: Item)
      requires Valid() && At(s, t) && s.threads[t].at.Writing? && s.threads[t].call.item == x
      modifies this`slot, this`s
      ensures Valid() && At(s, t) && s.threads[t] == Sender(old(s).threads[t].call, Committing)
    {
      hide Inv, Next, Encode;
      WriteIs(s, t);
      slot := Some(x);
      Follow(Write(t));
    }

    /** `recv.swap(COMMIT)`. */
    method CommitSlot(t: nat) returns (receiverSleeping: bool)
      requires Valid() && At(s, t) && s.threads[t].at.Committing?
      modifies this`recv, this`s
      ensures Valid() && t < |s.threads|
      ensures var c := old(s).threads[t].call;
              if receiverSleeping then s.threads[t] == Sender(c, WakingReceiver)
              else Reported(t, SendEnded(c.item, Sent))
    {
      hide Inv, Next, RecvBits, Encode;
      RecvBitsAre(s.recv);
      CommitIs(s, t);
      receiverSleeping := recv & SLEEPING == SLEEPING;
      recv := COMMIT;
      Follow(Commit(t));
    }

    /** `atomic_wake(recv, 1)`. */
    method WakeTheReceiver(t: nat)
      requires Valid() && At(s, t) && s.threads[t].at.WakingReceiver?
      modifies this`s
      ensures Valid() && Reported(t, SendEnded(old(s).threads[t].call.item, Sent))
    {
      hide Inv, Next, Encode, RecvBits;
      WakeReceiverIs(s, t);
      Follow(WakeReceiver(t));
    }

    /** The body of `try_send`. */
    method SendItem(t: nat, x: Item) returns (r: SendResult)
      requires Valid() && At(s, t) && s.threads[t].at.Reserving? && s.threads[t].call.item == x
      modifies this
      ensures t < |s.threads| && (r != ProcessAborted ==> Valid()) && (r == ProcessAborted ==> s.aborted)
      ensures tries == old(tries) + 1
      ensures var c := old(s).threads[t].call;
              if r == Ended(Full) && c.blocking then s.threads[t] == Sender(c, SendSpinning(32))
              else r.Ended? ==> Reported(t, SendEnded(x, r.outcome))
      ensures r != GaveUp
    {
      hide Inv, Next, Encode, RecvBits;
      Others(t);
      var early := ReserveSlot(t);
      if early.Some? {
        return early.value;
      }
      Others(t);
      WriteSlot(t, x);
      Others(t);
      var receiverSleeping := CommitSlot(t);
      if receiverSleeping {
        Others(t);
        WakeTheReceiver(t);
      }
      return Ended(Sent);
    }

    ghost method StartCall(t: nat, h: nat, blocking: bool, x: Item)
      requires Valid() && t < |s.threads| && s.threads[t].Idle? && h in s.senders
      modifies this`s
      ensures Valid() && At(s, t) && s.threads[t] == Sender(SendCall(h, blocking, x), Reserving)
    {
      hide Inv, Next, Encode, RecvBits;
      StartSendIs(s, t, h, blocking, x);
      Follow(StartSend(t, h, blocking, x));
    }

    /** `try_send`: what it returns is what the machine reports. */
    method TrySend(t: nat, h: nat, x: Item) returns (r: SendResult)
      requires Valid() && t < |s.threads| && s.threads[t].Idle? && h in s.senders
      modifies this
      ensures r.Ended? ==> Valid() && Reported(t, SendEnded(x, r.outcome))
      ensures !r.Ended? ==> r == ProcessAborted && s.aborted
    {
      hide Inv, Next, Encode, RecvBits;
      StartCall(t, h, false, x);
      r := SendItem(t, x);
    }

    // ----- send

    /** One turn of the spin loop: the word it read, with SLEEPING on if it is the last. */
    method PollSend(t: nat, spin: nat) returns (word: SendWord)
      requires Valid() && At(s, t) && s.threads[t].at == SendSpinning(spin)
      modifies this`send, this`s
      ensures Valid() && t < |s.threads| && (spin == 0 ==> word.sleeping)
      ensures var c := old(s).threads[t].call; var th := Polled(c, spin, word);
              s.threads[t] == th && (th.Idle? ==> Reported(t, SendEnded(c.item, Disconnected)))
    {
      hide Inv, Next, Encode, Decode, RecvBits, OrSleeping, Polled;
      SendWordFits(s);
      OrSleepingIs(target, s.send);
      SendPollIs(s, t);
      if spin == 0 {
        send := OrSleeping(target, send);
      }
      Follow(SendPoll(t));
      SendWordFits(s);
      DecodeEncode(target, s.send);
      word := Decode(target, send);
    }

    /** `atomic_sleep` on the half of `send` that the futex watches.  Callers only know the
        contract; of the ways to be woken the body takes the spurious one. */
    method SleepOnSend(t: nat, expected: SendWord)
      requires Valid() && At(s, t) && s.threads[t].at == SendSleeping(expected)
      modifies this
      ensures Valid() && At(s, t) && s.threads[t] == Sender(old(s).threads[t].call, SendWoken) && tries == old(tries)
    {
      hide Inv, Next, Encode, Decode, RecvBits, FutexHalf;
      SendWordFits(s);
      DecodeEncode(target, s.send);
      SendSleepIs(s, t);
      var same := FutexHalf(target, Decode(target, send)) == FutexHalf(target, expected);
      Follow(SendSleep(t));
      if same {
        SpuriousSendIs(s, t);
        Follow(SpuriousSendWake(t));
      }
    }

    /** `fetch_or(SLEEPING)` after waking up. */
    method RearmSend(t: nat)
      requires Valid() && At(s, t) && s.threads[t].at.SendWoken?
      modifies this`send, this`s
      ensures Valid() && At(s, t) && s.threads[t] == Sender(old(s).threads[t].call, Reserving)
    {
      hide Inv, Next, Encode, RecvBits, OrSleeping;
      SendWordFits(s);
      OrSleepingIs(target, s.send);
      SendRearmIs(s, t);
      send := OrSleeping(target, send);
      Follow(SendRearm(t));
    }

    /** What `send` does over a taken slot. */
    method AwaitSlot(t: nat) returns (disconnected: bool)
      requires Valid() && At(s, t) && s.threads[t].at == SendSpinning(32)
      modifies this
      ensures Valid() && t < |s.threads| && tries == old(tries)
      ensures var c := old(s).threads[t].call;
              if disconnected then Reported(t, SendEnded(c.item, Disconnected)) else s.threads[t] == Sender(c, Reserving)
    {
      hide Inv, Next, Encode, RecvBits;
      var spin: nat, expected := 32, SendWord(0, false, false);
      while true
        invariant Valid() && At(s, t) && s.threads[t] == Sender(old(s).threads[t].call, SendSpinning(spin))
        invariant tries == old(tries)
        decreases spin
      {
        Others(t);
        var word := PollSend(t, spin);
        if word.count == 0 {
          return false;
        }
        if word.dead {
          return true;
        }
        if word.sleeping {
          expected := word;
          break;
        }
        spin := spin - 1;
      }
      Others(t);
      SleepOnSend(t, expected);
      Others(t);
      RearmSend(t);
      return false;
    }

    /** `send`, giving up after `patience` rounds. */
    method Send(t: nat, h: nat, x: Item, patience: nat) returns (r: SendResult)
      requires Valid() && t < |s.threads| && s.threads[t].Idle? && h in s.senders
      modifies this
      ensures r.Ended? ==> Valid() && r != Ended(Full) && Reported(t, SendEnded(x, r.outcome))
      ensures r == ProcessAborted ==> s.aborted
      ensures r == GaveUp ==>
                && Valid() && At(s, t) && s.threads[t] == Sender(SendCall(h, true, x), Reserving)
                && tries == old(tries) + patience
    {
      hide Inv, Next, Encode, RecvBits;
      StartCall(t, h, true, x);
      var rounds := 0;
      while rounds < patience
        invariant Valid() && At(s, t) && s.threads[t] == Sender(SendCall(h, true, x), Reserving)
        invariant rounds <= patience && tries == old(tries) + rounds
      {
        rounds := rounds + 1;
        r := SendItem(t, x);
        if r != Ended(Full) {
          return;
        }
        var disconnected := AwaitSlot(t);
        if disconnected {
          return Ended(Disconnected);
        }
      }
      return GaveUp;
    }

    // ----- try_recv

    /** Any number of steps of the senders; `RunOfSenders` covers them. */
    method Senders()
      requires Valid() && !s.receiver.RecvParked?
      modifies this
      ensures Valid() && s.receiver == old(s).receiver && tries == old(tries)
    {
    }

    ghost predicate ReceiverReported(e: Event)
      reads this
    {
      s.receiver == Resting && s.log != [] && s.log[|s.log| - 1] == e
    }

    /** `recv.load`: whether there is a value, and if not whether the senders are gone. */
    method LoadStatus() returns (commit: bool, disconnected: bool)
      requires Valid() && s.receiver.Loading?
      modifies this`s, this`tries
      ensures Valid() && tries == old(tries) + 1
      ensures var Loading(blocking, i) := old(s).receiver;
              if commit then s.receiver == Clearing
              else if disconnected || !blocking then ReceiverReported(RecvFailed(disconnected))
              else s.receiver == if i < 32 then Loading(true, i + 1) else Arming
    {
      hide Inv, Next, Encode, RecvBits;
      RecvBitsAre(s.recv);
      LoadIs(s);
      commit := recv & COMMIT == COMMIT;
      disconnected := recv & SENDER_DEAD == SENDER_DEAD;
      Try(Load);
    }

    /** `recv.fetch_and(SENDER_DEAD)`. */
    method ClearCommit()
      requires Valid() && s.receiver.Clearing?
      modifies this`recv, this`s
      ensures Valid() && s.receiver == Reading
    {
      hide Inv, Next, Encode, RecvBits;
      RecvBitsAre(s.recv);
      ClearIs(s);
      recv := recv & SENDER_DEAD;
      Follow(Clear);
    }

    /** `ptr::read`. */
    method ReadSlot() returns (value: Item)
      requires Valid() && s.receiver.Reading?
      modifies this`slot, this`s
      ensures Valid() && s.receiver == Releasing(value)
    {
      hide Inv, Next, Encode, RecvBits;
      ReadIs(s);
      value := slot.value;
      slot := None;
      Follow(Read);
    }

    /** `send.swap(0)`. */
    method ReleaseSlot() returns (senderSleeping: bool)
      requires Valid() && s.receiver.Releasing?
      modifies this`send, this`s
      ensures Valid()
      ensures var v := old(s).receiver.value;
              if senderSleeping then s.receiver == WakingSender(v) else ReceiverReported(Received(v))
    {
      hide Inv, Next, RecvBits, Decode;
      SendWordFits(s);
      DecodeEncode(target, s.send);
      ReleaseIs(s);
      senderSleeping := Decode(target, send).sleeping;
      send := 0;
      Follow(Release);
    }

    /** `atomic_wake(send, 1)`. */
    method WakeOneSender()
      requires Valid() && s.receiver.WakingSender?
      modifies this`s
      ensures Valid() && ReceiverReported(Received(old(s).receiver.value))
    {
      hide Inv, Next, Encode, RecvBits;
      ghost var woken := SomebodyToWake(s);
      WakeSenderIs(s, woken);
      Follow(WakeSender(woken));
    }

    /** The body of `try_recv`. */
    method ReceiveItem() returns (value: Option<Item>, disconnected: bool)
      requires Valid() && s.receiver.Loading?
      modifies this
      ensures Valid() && tries == old(tries) + 1
      ensures var Loading(blocking, i) := old(s).receiver;
              if value.Some? then ReceiverReported(Received(value.value))
              else if disconnected || !blocking then ReceiverReported(RecvFailed(disconnected))
              else s.receiver == if i < 32 then Loading(true, i + 1) else Arming
    {
      hide Inv, Next, Encode, RecvBits;
      Senders();
      var commit;
      commit, disconnected := LoadStatus();
      if !commit {
        return None, disconnected;
      }
      Senders();
      ClearCommit();
      Senders();
      var v := ReadSlot();
      Senders();
      var senderSleeping := ReleaseSlot();
      if senderSleeping {
        Senders();
        WakeOneSender();
      }
      return Some(v), false;
    }

    /** `try_recv`. */
    method TryRecv() returns (value: Option<Item>, disconnected: bool)
      requires Valid() && s.receiver.Resting?
      modifies this
      ensures Valid() && tries == old(tries) + 1
      ensures ReceiverReported(if value.Some? then Received(value.value) else RecvFailed(disconnected))
    {
      hide Inv, Next, Encode, RecvBits;
      StartRecvIs(s, false);
      Follow(StartRecv(false));
      value, disconnected := ReceiveItem();
    }

    // ----- recv

    /** `recv.fetch_or(SLEEPING)`: whether anything else was on. */
    method ArmRecv() returns (sleep: bool)
      requires Valid() && s.receiver.Arming?
      modifies this`recv, this`s
      ensures Valid() && s.receiver == if sleep then RecvSleeping else Loading(true, 0)
    {
      hide Inv, Next, Encode, RecvBits;
      RecvBitsAre(s.recv);
      ArmIs(s);
      sleep := recv == 0;
      recv := recv | SLEEPING;
      Follow(Arm);
    }

    /** `atomic_sleep(recv, SLEEPING)`.  Callers only know the contract; of the ways to be
        woken the body takes the spurious one. */
    method SleepOnRecv()
      requires Valid() && s.receiver.RecvSleeping?
      modifies this
      ensures Valid() && s.receiver == Loading(true, 0) && tries == old(tries)
    {
      hide Inv, Next, Encode, RecvBits;
      RecvBitsAre(s.recv);
      RecvSleepIs(s);
      var same := recv == SLEEPING;
      Follow(RecvSleep);
      if same {
        SpuriousRecvIs(s);
        Follow(SpuriousRecvWake);
      }
    }

    /** `recv`, giving up after `patience` calls of `try_recv`. */
    method Recv(patience: nat) returns (done: bool, value: Option<Item>)
      requires Valid() && s.receiver.Resting?
      modifies this
      ensures Valid()
      ensures done ==> ReceiverReported(if value.Some? then Received(value.value) else RecvFailed(true))
      ensures !done ==> s.receiver.Loading? && tries == old(tries) + patience
    {
      hide Inv, Next, Encode, RecvBits;
      StartRecvIs(s, true);
      Follow(StartRecv(true));
      var i, rounds := 0, 0;
      while rounds < patience
        invariant Valid() && 0 <= i <= 32 && s.receiver == Loading(true, i)
        invariant rounds <= patience && tries == old(tries) + rounds
      {
        rounds := rounds + 1;
        var disconnected;
        value, disconnected := ReceiveItem();
        if value.Some? || disconnected {
          return true, value;
        }
        if i < 32 {
          i := i + 1;
        } else {
          i := 0;
          Senders();
          var sleep := ArmRecv();
          if sleep {
            Senders();
            SleepOnRecv();
          }
        }
      }
      return false, None;
    }

    // ----- drops

    /** `Receiver::drop`. */
    method DropReceiver()
      requires Valid() && s.receiver.Resting?
      modifies this
      ensures Valid() && s.receiver.Gone?
    {
      hide Inv, Next, Decode, RecvBits;
      SendWordFits(s);
      DecodeEncode(target, s.send);
      DropReceiverIs(s);
      var senderSleeping := Decode(target, send).sleeping;
      send := 2 * SleepBit(target);
      Follow(Action.DropReceiver);
      if senderSleeping {
        Senders();
        WakeSendersIs(s);
        Follow(WakeSenders);
      }
    }

    /** `Inner::drop`: drops the value that is still committed. */
    method Drop() returns (dropped: Option<Item>)
      requires Valid() && Enabled(s, DropSlot)
      modifies this`s, this`slot
      ensures Inv(s) && slot == s.slot == None && s.committed == old(s).committed
      ensures AllLeft(s.log) == s.committed
      ensures s.log == old(s).log + if dropped.Some? then [Dropped(dropped.value)] else []
    {
      hide Inv, Next, Encode, RecvBits, AllLeft;
      RecvBitsAre(s.recv);
      DropSlotIs(s);
      dropped := None;
      if recv & COMMIT == COMMIT {
        dropped := slot;
        slot := None;
      }
      Follow(DropSlot);
      SlotTheorems.SlotAtTheEnd(s);
    }
  }
}
