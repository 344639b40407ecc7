# Verification of the Lockness bags and vecs

This project models the two lock-free channels of the `bags` crate and the type-erased
vectors of the `vecs` crate in Dafny and proves what they are for.

**The bag (`mpmc.rs`).** Thirty slots are governed by two 32-bit words; `send` says which
slots are taken, `recv` which are committed, and each carries two flags besides. The model
has three layers.

- `Words`, `Status`, `Masks`: the bit arithmetic on `bv32`, lifted once and for all to sets
  of slots and two flags. `compute_request_mask`, `clear_extra_bits` and `drain_mask` are
  proved against what they are meant to compute. `Masks.DrainMask` is `drain_mask` with a
  callback that only notes the slot; `FillSlots`, `DrainSlots` and `DropValues` of `MpmcCode`
  are the same loop with the three callbacks the code passes, written out because a
  callback that changes shared memory cannot be passed to a method here.
- `Mpmc`: a machine for any number of threads and handles. A step is one atomic access,
  one read or write of a slot, or one futex operation; the futex compares and parks in one
  step, wakes one parked thread of anybody's choice or all of them, and may wake
  spuriously. History variables record who holds a slot and what callers have seen.
  `MpmcInvariant` states an inductive invariant in six parts, `MpmcSteps` proves that every
  step keeps it, and `MpmcTheorems`, `MpmcDisconnect`, `MpmcProgress`, `MpmcOthers`,
  `MpmcCalls`, `MpmcOrder`, `MpmcDelivery`, `MpmcStranded`, `MpmcStrandedSender` and
  `MpmcBias` draw the conclusions.
- `MpmcCode`: the code of `send`, `try_send`, `recv`, `try_recv` and `Inner::drop`, with its
  loops, on real words and a real array. Between any two accesses the method `Others` lets
  other threads do whatever the invariant allows: its body does nothing, but a caller is
  verified against its contract alone, and `OthersAllowed` and `SleepAllowed` show that the
  contracts cover every run of steps of other threads. Each access is proved to be a step of the machine,
  and what a call returns is what the machine reports, so all the theorems about reachable
  states are theorems about the code.

**The one-place channel (`slot.rs`).** `Slot` is the machine, for both encodings of the
`send` word: on x86-64 a counter in a `u64` that even losers bump and whose upper half the
futex watches, elsewhere one bit of a `u32`. `SlotInvariant`, `SlotSteps`, `SlotTheorems`,
`SlotDisconnect`, `SlotCalls`, `SlotStranded` and `SlotCode` follow the plan of the bag.

**The vectors.** `Layouts` holds sizes, alignments, the union of header and element, and the
cost of growing. `FreestandingVec` is a class over a byte array with an allocator that has to
be told the size and alignment of the live block; it refines a stack. `ClosureVec` is its
client, related to an abstract vec of closures over which the theorems about whole runs are
proved.

`dafny verify dfyconfig.toml` checks the whole project.

Where the documentation and the code differ, the model follows the code:

- Comments in `bags/src/slot.rs:167-171` say that the chain of woken senders eventually
  wakes everybody. That holds while the other side lives. When the last handle of one side
  is dropped, whoever is parked on the other side is woken only if SLEEPING is still on,
  and a commit or release may just have turned it off while waking one thread.
  `MpmcStranded`, `MpmcStrandedSender` and `SlotStranded` prove exactly when, and give
  reachable states in which a receiver, or a sender, is parked for good.
- `bags/src/mpmc.rs:168-174` asserts `N < 30`, but nothing evaluates that constant and the
  channel is created with `N == 30`. The model has 30 slots.
- `Sender::clone` (`bags/src/mpmc.rs:335-340`) picks 7 for a cyclic bias. The product
  overflows a `u32` for large counts; `MpmcBias.DealsEverySlotIff` says exactly which thirty
  clones in a row get all the starting slots.

## Model

| member | source | states |
|---|---|---|
| `Status.InitialViews` | bags/src/mpmc.rs:24-26 | The words a channel starts with stand for no slot taken, none committed, all flags off, in spite of the inverted flags of `recv`. |
| `Status.ViewsAreFaithful` | bags/src/lib.rs:30-31 | Two words are equal exactly if they stand for the same slots and flags, so a futex that compares words compares views. |
| `Status.ReserveWord` | bags/src/mpmc.rs:275 | Requesting a mask of slots adds these slots and leaves the flags alone. |
| `Status.GainedMask` | bags/src/mpmc.rs:281-289 | The mask of gained slots is what was asked for minus what was taken, free of status bits, and positive exactly if something was gained. |
| `Status.FreeSlots` | bags/src/mpmc.rs:281-284 | The test for a full bag is true exactly if all 30 slots are taken. |
| `Status.CommitWord` | bags/src/mpmc.rs:307-316 | A commit adds the reserved slots and turns both flags off; the swap used on x86-64 does the same when it is used. |
| `Status.ClaimWord` | bags/src/mpmc.rs:440-442 | A claim takes all committed slots and keeps both flags; the claimed mask is zero exactly if nothing was committed. |
| `Status.ReleaseWord` | bags/src/mpmc.rs:468-476 | A release frees the claimed slots and clears both flags; the swap used on x86-64 does the same when it is used. |
| `Status.SendFlagWords` | bags/src/mpmc.rs:193-216 | Setting SLEEPING or COUNTERPARTY_DEAD in `send` changes that flag only. |
| `Status.RecvFlagWords` | bags/src/mpmc.rs:363-408 | Turning either inverted flag on in `recv` changes that flag only. |
| `Status.ContainsFlag` | bags/src/mpmc.rs:277-318 | The tests for a flag, on `send` and on inverted `recv`, read the flag they name. |
| `Masks.RequestMaskIsWindow` | bags/src/mpmc.rs:559-572 | For every item count and bias the request mask is exactly the cyclic window of slots that starts at the bias, with the status bits clear. |
| `Masks.WindowSize` | bags/src/mpmc.rs:562 | The window holds min(items, 30) slots. |
| `Masks.ClearLowest` | bags/src/mpmc.rs:579-580 | `mask & (mask - 1)` removes exactly the least significant set bit. |
| `Masks.ClearExtraBits` | bags/src/mpmc.rs:574-587 | The result is a subset with min(ones, max) bits, the lowest ones or the highest ones as the direction says. |
| `Masks.ReversedPositions` | bags/src/mpmc.rs:576-585 | Reversing the bits mirrors the positions and keeps their number. |
| `Masks.TrimmedSlots` | bags/src/mpmc.rs:291 | Trimming a mask of free slots gives a mask of free slots without status bits. |
| `Masks.DrainMask` | bags/src/mpmc.rs:538-556 | Each slot of the mask is visited exactly once, in ascending order, and nothing else is. |
| `MpmcTheorems.InitialInv` | bags/src/mpmc.rs:23-38 | A new channel satisfies the invariant. |
| `MpmcSteps.StepKeeps` | bags/src/mpmc.rs:176-520 | Every step of every thread keeps the invariant. |
| `MpmcTheorems.ReachableInv` | bags/src/mpmc.rs:176-520 | Every reachable state satisfies the invariant. |
| `MpmcTheorems.SlotsArePartitioned` | bags/src/mpmc.rs:274-318 | In every reachable state no two threads may touch one slot, a slot in somebody's hands is not committed, the `send` bit is on exactly while a slot is taken, committed slots hold a value and free ones none, and no access was ever faulty. |
| `MpmcTheorems.NothingLostOrDuplicated` | bags/src/mpmc.rs:298-305 | As multisets: all items handed to sends are those handed back, received or dropped, plus those in the hands of calls, plus those in slots. |
| `MpmcTheorems.OutcomesAreHonest` | bags/src/mpmc.rs:278-324 | A failed send gives the buffer back unchanged, a successful one leaves a proper prefix of it, a successful receive brings 1 to 30 items. |
| `MpmcTheorems.DroppedBagIsEmpty` | bags/src/mpmc.rs:70-88 | When the last handle is gone and the bag is dropped, everything ever handed in has been handed out or dropped, without a fault. |
| `MpmcDisconnect.DeadMeansGone` | bags/src/mpmc.rs:349-370 | A disconnect flag is only on when no handle and no call of that side is left. |
| `MpmcDisconnect.DeadStays` | bags/src/mpmc.rs:307-316 | No step turns a disconnect flag off, although commits and releases overwrite the flags; and nothing is committed after the senders are gone. |
| `MpmcDisconnect.RecvDisconnectMeansDrained` | bags/src/mpmc.rs:442-446 | A receive that reports Disconnected leaves nothing committed. |
| `MpmcDisconnect.DisconnectIsFinal` | bags/src/mpmc.rs:442-446 | In every later state of the run there is still no sender and nothing committed. |
| `MpmcDisconnect.SendDisconnectMeansGone` | bags/src/mpmc.rs:277-279 | A send that reports Disconnected does so only after the last receiver has gone. |
| `MpmcDisconnect.SendFullMeansFull` | bags/src/mpmc.rs:281-284 | A send reports Full only when every slot is taken and the receivers are not gone. |
| `MpmcDisconnect.ReceiversStayGone` | bags/src/mpmc.rs:513-514 | Once the receivers are gone they are gone in every later state. |
| `MpmcProgress.NoLostDataWakeUp` | bags/src/mpmc.rs:307-322 | A receiver never sleeps over a committed item unless a waker is on its way or a woken receiver has yet to do its next `try_recv`. |
| `MpmcProgress.BlockedSenderHasWakeSource` | bags/src/mpmc.rs:180-219 | With a live receiver, a blocked sender has a wake in flight, a woken sender that has not re-armed, or SLEEPING on over a taken slot or a sender on its way to one. |
| `MpmcProgress.AtRest` | bags/src/mpmc.rs:407-481 | With every thread idle or parked, a parked receiver means an empty bag, and a parked sender with a live receiver means a committed item and SLEEPING on. |
| `MpmcProgress.NeverJams` | bags/src/mpmc.rs:180-219 | No reachable state has a sender and a receiver both parked unless some other thread is at work and has a step to take. |
| `MpmcProgress.CanStep` | bags/src/mpmc.rs:176-485 | A thread in a call that is not parked always has a step. |
| `MpmcProgress.ReservationGains` | bags/src/mpmc.rs:274-289 | A successful reservation takes between 1 and `items` slots, all of them free before; a failed one takes none while the receivers live. |
| `MpmcProgress.RetryAimsAtFreeSlots` | bags/src/mpmc.rs:291 | A retry asks for a non-empty set of slots that were free a moment ago. |
| `MpmcProgress.TwoAttemptsSuffice` | bags/src/mpmc.rs:274-293 | Without interference the second `fetch_or` gets every slot it asks for. |
| `MpmcProgress.OnlyReserveTakes` | bags/src/mpmc.rs:275 | Slots are only ever taken by a reservation, whose thread goes on to fill them unless the receivers are gone. |
| `MpmcOthers.FailedRetryMeansRival` | bags/src/mpmc.rs:274-293 | Lock-freedom: if a thread aims at slots that are free and its next attempt, with the receivers still alive, gets none, then a reservation of another thread succeeded in between. |
| `MpmcOthers.EveryFailedRoundHasARival` | bags/src/mpmc.rs:274-293 | The same over the loop: between an attempt that leads to a retry and a retry that gets nothing, another thread has reserved slots. |
| `MpmcCalls.StartAsks` | bags/src/mpmc.rs:265-272 | A send of nothing ends at once and touches nothing; any other asks for min(items, 30) slots: those from its bias on, going round the 30. |
| `MpmcCalls.WaitAsks` | bags/src/mpmc.rs:199-216 | A send that goes back to `try_send` after spinning or sleeping asks for the same slots as at first. |
| `MpmcCalls.FirstAttempt` | bags/src/mpmc.rs:271-289 | The first attempt takes exactly the free ones among those slots, so on an empty bag a batch gets min(items, 30) slots at once. |
| `MpmcCalls.AttemptOutcome` | bags/src/mpmc.rs:275-291 | Disconnected only if the receivers are gone, Full or a wait only over a full bag, slots only if some requested one is free, a retry only if others are. |
| `MpmcCalls.ClaimOutcome` | bags/src/mpmc.rs:439-450 | A claim takes all that is committed; without anything it reports Disconnected exactly if the senders are gone, and Empty only if the call may not wait. |
| `MpmcCalls.TryNeverWaits` | bags/src/mpmc.rs:223-484 | In no reachable state does a `try_send` or `try_recv` spin or sleep. |
| `MpmcCalls.SleepsOnlyForAReason` | bags/src/mpmc.rs:199-215 | A sender goes to sleep only over a full bag, a receiver only over an empty one, with SLEEPING on and the other side alive. |
| `MpmcCalls.WakesIffSleeping` | bags/src/mpmc.rs:318-481 | Commits and releases wake somebody exactly if SLEEPING was on, and turn it off. |
| `MpmcCalls.WakeTakesOne` | bags/src/lib.rs:17-27 | A wake of one takes one parked thread of the right kind out of the futex if there is any, and no other. |
| `MpmcCalls.WakeReports` | bags/src/mpmc.rs:320-483 | A call that has woken somebody reports the rest of the buffer, or the values, that it had before. |
| `MpmcCalls.CloneStartsAt` | bags/src/mpmc.rs:331-346 | A clone starts at seven times the number of live senders, modulo 30, in 32-bit arithmetic. |
| `MpmcOrder.StepKeepsOrder` | bags/src/mpmc.rs:299-305 | Every step of every thread keeps the order in which sends have filled their slots. |
| `MpmcOrder.FilledFromTheEnd` | bags/src/mpmc.rs:129-138 | In every reachable state a send has taken its items from the end of the buffer and put them into the first of its slots in that order. |
| `MpmcOrder.CommitLeaves` | bags/src/mpmc.rs:298-324 | A committed batch leaves the buffer without exactly the items sent, and that is what is reported. |
| `MpmcDelivery.ReceivedInSlotOrder` | bags/src/mpmc.rs:452-465 | A receive reports what was in the slots it claimed at its claim, in ascending order of the slots. |
| `MpmcDelivery.CommittedStays` | bags/src/mpmc.rs:307-316 | A committed slot keeps its value until it is claimed. |
| `MpmcDelivery.BatchArrivesLastItemFirst` | bags/src/mpmc.rs:298-465 | From end to end: items committed together and claimed together come out in slot order, the last item of the buffer first. |
| `MpmcStranded.LastSenderRescuesIffSleeping` | bags/src/mpmc.rs:363-368 | The last sender's drop will wake all parked receivers if SLEEPING is on in `recv` at that moment; otherwise all of them are stranded. |
| `MpmcStranded.LastReceiverRescuesIffSleeping` | bags/src/mpmc.rs:513-518 | The same for the last receiver and the parked senders. |
| `MpmcStranded.StrandedReceiverStays` | bags/src/mpmc.rs:407 | A stranded receiver stays parked under every step but its own spurious wake-up. |
| `MpmcStranded.StrandedSenderStays` | bags/src/mpmc.rs:215 | A stranded sender stays parked under every step but its own spurious wake-up. |
| `MpmcStranded.StrandedReceiverForGood` | bags/src/mpmc.rs:407 | A stranded receiver is parked in every later state of a run without spurious wake-ups of it. |
| `MpmcStranded.StrandedSenderForGood` | bags/src/mpmc.rs:215 | A stranded sender is parked in every later state of a run without spurious wake-ups of it. |
| `MpmcStranded.RescueWakesAll` | bags/src/mpmc.rs:367 | The wake of the last sender leaves no receiver parked. |
| `MpmcStranded.SenderRescueWakesAll` | bags/src/mpmc.rs:517 | The wake of the last receiver leaves no sender parked. |
| `MpmcStranded.NobodyParksAfterHangUp` | bags/src/mpmc.rs:396-407 | No receiver goes to sleep once the disconnect flag is on. |
| `MpmcStranded.NoSenderParksAfterHangUp` | bags/src/mpmc.rs:203-215 | No sender goes to sleep once the disconnect flag is on. |
| `MpmcStranded.AReceiverCanBeStranded` | bags/src/mpmc.rs:363-368 | A reachable state, by a run written out, in which a receiver is stranded. |
| `MpmcStrandedSender.ASenderCanBeStranded` | bags/src/mpmc.rs:513-518 | A reachable state, by a run written out, in which a sender is stranded. |
| `MpmcBias.DealsEverySlotIff` | bags/src/mpmc.rs:340 | Thirty clones in a row get each starting slot exactly once if and only if the product with 7 does not wrap within them. |
| `MpmcOthers.RunOfOthers` | bags/src/mpmc.rs:176-520 | Whatever steps other threads take, a thread finds its own place unchanged, unless it was parked and has been woken. |
| `MpmcCode.OthersAllowed` | bags/src/mpmc.rs:176-520 | Every run of steps of other threads is among what the code allows for between two accesses. |
| `MpmcCode.SleepAllowed` | bags/src/lib.rs:29-39 | Over any run of others a parked thread stays parked or is just woken, which is what the code expects of a sleep. |
| `MpmcCode.Inner.constructor` | bags/src/mpmc.rs:23-38 | A new channel is an initial state of the machine. |
| `MpmcCode.Inner.TestReservation` | bags/src/mpmc.rs:277-291 | The tests on the old word give Disconnected, Full, exactly the requested slots that were free, or a trimmed mask of free ones to try next, in that order of precedence. |
| `MpmcCode.Inner.Attempt` | bags/src/mpmc.rs:274-293 | One turn of the reservation loop, on the words, is one reservation step: it reports Disconnected or Full, or has reserved the slots of its mask, or holds a trimmed mask of slots that are free. |
| `MpmcCode.Inner.ReserveSlots` | bags/src/mpmc.rs:266-294 | The reservation loop ends with an outcome the machine reports or with slots that are its own; it gives up only after as many attempts as it was allowed. |
| `MpmcCode.Inner.FillSlots` | bags/src/mpmc.rs:299-305 | Under any interference the array then holds the last items of the buffer in the reserved slots, the last item in the first slot, and the rest of the buffer is left. |
| `MpmcCode.Inner.CommitSlots` | bags/src/mpmc.rs:307-319 | The commit, in either form, is the machine's, and wakes a receiver exactly if one was sleeping. |
| `MpmcCode.Inner.TrySend` | bags/src/mpmc.rs:223-324 | Under any interference the outcome and the remaining buffer are those the machine reports; it gives up only after all its attempts failed, aiming at free slots. |
| `MpmcCode.Inner.AwaitSlots` | bags/src/mpmc.rs:187-216 | The spin loop, the sleep and the re-arm lead back to `try_send` or to a reported disconnect. |
| `MpmcCode.Inner.Send` | bags/src/mpmc.rs:176-220 | A blocking send ends with success or Disconnected as the machine reports it, never with Full; it gives up only after at least as many attempts as rounds it was allowed. |
| `MpmcCode.Inner.ClaimSlots` | bags/src/mpmc.rs:439-450 | The claim, on the word, is the machine's: claimed slots, or the reason why there are none. |
| `MpmcCode.Inner.DrainSlots` | bags/src/mpmc.rs:452-465 | The loop empties exactly the claimed slots and collects their values in slot order. |
| `MpmcCode.Inner.ReleaseSlots` | bags/src/mpmc.rs:468-481 | The release, in either form, is the machine's, and wakes a sender exactly if one was sleeping. |
| `MpmcCode.Inner.TryRecv` | bags/src/mpmc.rs:415-484 | Under any interference the values, or the reason for having none, are those the machine reports. |
| `MpmcCode.Inner.AwaitItems` | bags/src/mpmc.rs:379-408 | The spin loop, the sleep and the re-arm of `recv` lead back to `try_recv` or to a reported disconnect. |
| `MpmcCode.Inner.Recv` | bags/src/mpmc.rs:373-412 | A blocking receive ends with values or with Disconnected, as the machine reports it; it gives up only after as many claims as it was allowed. |
| `MpmcCode.Inner.DropValues` | bags/src/mpmc.rs:81-86 | Walking the mask drops each committed value once and touches no other slot. |
| `MpmcCode.Inner.Drop` | bags/src/mpmc.rs:70-88 | The drop on the words and the array is the machine's: it drops exactly the committed remainder. |
| `Slot.DecodeEncode` | bags/src/slot.rs:68-87 | Count and flags can be read back from the encoded word as long as the count stays below SLEEPING. |
| `Slot.BumpAdds` | bags/src/slot.rs:188-192 | As long as it does not carry, the `fetch_add` or `fetch_or` changes the count only. |
| `Slot.BumpCarries` | bags/src/slot.rs:203-211 | Without the abort the counter would carry into SLEEPING and wrap to zero reservations. |
| `Slot.HalfShowsFlags` | bags/src/lib.rs:47-59 | Equal futex halves mean equal flags, and off x86-64 equal words. |
| `SlotSteps.NoCarry` | bags/src/slot.rs:195-215 | Under the invariant a reservation never carries into the flags. |
| `SlotSteps.StepKeeps` | bags/src/slot.rs:118-383 | Every step of the senders and the receiver keeps the invariant. |
| `SlotTheorems.ReachableInv` | bags/src/slot.rs:118-383 | Every reachable state satisfies the invariant. |
| `SlotTheorems.OneAccessAtATime` | bags/src/slot.rs:225-350 | At most one thread has the slot: a sender from its reservation to its commit, or the receiver from clearing COMMIT to the release; no access was ever faulty. |
| `SlotTheorems.ZeroReservationsMeansFree` | bags/src/slot.rs:145-221 | While the receiver lives, zero reservations means that the slot is free and empty, and only that. |
| `SlotTheorems.CounterNeverCarries` | bags/src/slot.rs:77-215 | The counter stays at most ABORT + 1 plus the calls already bound to abort, and never reaches SLEEPING. |
| `SlotTheorems.TakenInOrder` | bags/src/slot.rs:225-350 | What was received is the committed sequence, in order, minus at most its last element. |
| `SlotTheorems.NothingLostOrDuplicated` | bags/src/slot.rs:179-244 | Every item handed in was handed back, is with a call, was taken out, or is in the slot, each once. |
| `SlotTheorems.DroppedSlotIsEmpty` | bags/src/slot.rs:98-116 | Dropping the channel drops a value that is still committed, once, and then everything committed has been taken out. |
| `SlotTheorems.ReceiverWakeUpIsComplete` | bags/src/slot.rs:236-307 | A parked receiver with a committed value or dead senders has a wake in flight; with no sender left, a wake or the hang-up that leads to it. |
| `SlotTheorems.BlockedSenderHasWakeSource` | bags/src/slot.rs:119-172 | With a live receiver, a blocked sender has a wake coming, a woken sender that has not re-armed, or SLEEPING on over a taken slot or a sender heading to `try_send`. |
| `SlotTheorems.AtRest` | bags/src/slot.rs:119-357 | With everything at rest, a parked receiver means an empty slot, a parked sender a committed value and SLEEPING on. |
| `SlotTheorems.NeverJams` | bags/src/slot.rs:119-357 | No reachable state has a sender and the receiver both parked unless another thread is at work and has a step to take. |
| `SlotTheorems.CanStep` | bags/src/slot.rs:119-283 | A sending or dropping thread that is not parked always has a step. |
| `SlotDisconnect.DeadStays` | bags/src/slot.rs:237-349 | No step turns a disconnect flag off, although commit and release overwrite whole words. |
| `SlotDisconnect.RecvDisconnectedMeansDrained` | bags/src/slot.rs:321-328 | A receive that reports Disconnected has nothing left to receive: all that was committed was taken. |
| `SlotDisconnect.DisconnectIsFinal` | bags/src/slot.rs:321-328 | In every later state of the run nothing is committed and the committed sequence is the same. |
| `SlotDisconnect.NoHolderAfterHangUp` | bags/src/slot.rs:216-218 | After the receiver has said that it is gone no reservation gets the slot. |
| `SlotDisconnect.SendOutcomesAreHonest` | bags/src/slot.rs:216-243 | Disconnected only if the receiver is gone, Full only if it is not and the slot was taken, success only if the item has been committed, whether or not the receiver had to be woken. |
| `SlotCalls.AttemptOutcome` | bags/src/slot.rs:187-223 | A reservation aborts the process only past 2^61 reservations on x86-64, reports Disconnected only if the receiver is gone, Full or a wait only over a taken slot, and otherwise has the slot; it always counts. |
| `SlotCalls.OnlyReservationsCondemn` | bags/src/slot.rs:195-215 | Nothing but a reservation brings a thread to abort the process. |
| `SlotCalls.LoadOutcome` | bags/src/slot.rs:320-328 | A receive takes a committed value; without one it reports Disconnected exactly if the senders are gone, and Empty only if the call may not wait. |
| `SlotCalls.TrySendNeverWaits` | bags/src/slot.rs:179-244 | In no reachable state does a `try_send` spin or sleep. |
| `SlotCalls.ReceiverSleepsOnlyForAReason` | bags/src/slot.rs:301-306 | The receiver goes to sleep only with SLEEPING on, nothing committed and a sender alive. |
| `SlotCalls.WakesIffSleeping` | bags/src/slot.rs:236-357 | A commit wakes the receiver, and a release a sender, exactly if SLEEPING was on. |
| `SlotStranded.SleepsIff` | bags/src/slot.rs:159-165 | When a sender goes to sleep: off x86-64 if the word is unchanged, on x86-64 if the flags are and the count without its low 32 bits. |
| `SlotStranded.PortableSleepsOverATakenSlot` | bags/src/slot.rs:164-165 | Off x86-64 a sender only goes to sleep over a taken slot. |
| `SlotStranded.ASenderCanSleepOverAFreeSlot` | bags/src/slot.rs:159-172 | On x86-64 there is a reachable state in which a sender sleeps over a free slot. |
| `SlotStranded.NobodyParksAfterHangUp` | bags/src/slot.rs:148-165 | No sender goes to sleep once the receiver is gone. |
| `SlotStranded.DropRescuesIffSleeping` | bags/src/slot.rs:372-381 | The receiver's drop will wake all parked senders if SLEEPING is on at that moment; otherwise all of them are stranded. |
| `SlotStranded.StrandedStays` | bags/src/slot.rs:159-165 | A stranded sender stays parked under every step but its own spurious wake-up. |
| `SlotStranded.StrandedForGood` | bags/src/slot.rs:159-165 | A stranded sender is parked in every later state of a run without spurious wake-ups of it. |
| `SlotStranded.RescueWakesAll` | bags/src/slot.rs:376-380 | The wake of the receiver's drop leaves no sender parked. |
| `SlotStranded.ASenderCanBeStranded` | bags/src/slot.rs:167-172 | On every target there is a reachable state in which a sender is stranded. |
| `SlotCode.OthersAllowed` | bags/src/slot.rs:118-383 | Whatever steps others take, a sending thread finds the invariant intact and its own place unchanged, unless it was parked and has been woken. |
| `SlotCode.RunOfSenders` | bags/src/slot.rs:285-361 | Whatever steps the senders take, the receiver finds the invariant intact and its own place unchanged, unless it was parked and has been woken. |
| `SlotCode.Inner.constructor` | bags/src/slot.rs:21-34 | A new channel is an initial state of the machine. |
| `SlotCode.Inner.ReserveSlot` | bags/src/slot.rs:187-223 | The bump and its tests on the encoded word are the machine's reservation; the process aborts only past 2^61 reservations. |
| `SlotCode.Inner.CommitSlot` | bags/src/slot.rs:236-242 | The swap is the machine's commit, and wakes the receiver exactly if it was sleeping. |
| `SlotCode.Inner.TrySend` | bags/src/slot.rs:179-244 | Under any interference the outcome is the one the machine reports, or the process aborts as the machine does. |
| `SlotCode.Inner.AwaitSlot` | bags/src/slot.rs:127-172 | The spin loop, the sleep and the re-arm lead back to `try_send` or to a reported disconnect. |
| `SlotCode.Inner.Send` | bags/src/slot.rs:119-176 | A blocking send ends with success or Disconnected as the machine reports it, never with Full; it gives up only after as many reservations as it was allowed. |
| `SlotCode.Inner.ReceiveItem` | bags/src/slot.rs:313-360 | The load, the clearing, the read and the release are the machine's, under any interference of the senders. |
| `SlotCode.Inner.TryRecv` | bags/src/slot.rs:313-360 | The value, or the reason for having none, is what the machine reports. |
| `SlotCode.Inner.Recv` | bags/src/slot.rs:286-310 | A blocking receive ends with a value or with Disconnected, as the machine reports it; it gives up only after as many loads as it was allowed. |
| `SlotCode.Inner.DropReceiver` | bags/src/slot.rs:363-383 | Afterwards the receiver is gone for the machine, whether or not it had senders to wake. |
| `SlotCode.Inner.Drop` | bags/src/slot.rs:98-116 | The value that is still committed is dropped, and then everything committed has left the slot in order. |
| `Layouts.ErasedBaseIsSpaceSize` | vecs/src/freestanding_vec.rs:236-248 | For all header and element layouts, the base that `pop` works out from the header is the one `push` works out from the types. |
| `Layouts.SpaceIs` | vecs/src/freestanding_vec.rs:30-33 | The union covers header and element, and its size and alignment are multiples of both alignments. |
| `Layouts.ElementsAlignedAndDisjoint` | vecs/src/freestanding_vec.rs:208-219 | In an aligned block the header and every element are aligned and no two of them overlap. |
| `Layouts.AmortisedGrowth` | vecs/src/freestanding_vec.rs:141-166 | Absent saturation, n pushes on a fresh vec copy at most the final capacity, and less than twice the bytes that header and elements need. |
| `Layouts.FirstGrowth` | vecs/src/freestanding_vec.rs:42-49 | A fresh vec takes 8 elements of one byte, 4 of up to 1024 bytes, or one larger element before it has to grow, and not one more. |
| `Layouts.ReusedCoversHeader` | vecs/src/freestanding_vec.rs:178-187 | After `init` has taken over a block its capacity covers the header space of the new type. |
| `Layouts.ReusedReachesMinimumIff` | vecs/src/freestanding_vec.rs:178-180 | Exactly when that capacity reaches `MIN_NON_ZERO_CAP`. |
| `Layouts.ReusedCanFallShort` | vecs/src/freestanding_vec.rs:178-180 | A change of type after which it does not. |
| `FreestandingVec.StackKeeps` | vecs/src/freestanding_vec.rs:158-166 | Bytes that agree up to the end of the elements stand for the same stack, so elements survive a reallocation. |
| `FreestandingVec.Vec.ElementAt` | vecs/src/freestanding_vec.rs:236-248 | Element i of the stack is the bytes at its position, computed from the header alone. |
| `FreestandingVec.Vec.ElementsInPlace` | vecs/src/freestanding_vec.rs:208-219 | Every element is aligned, inside the block, behind the header and clear of the others. |
| `FreestandingVec.Vec.Reserve` | vecs/src/freestanding_vec.rs:141-167 | Room for what was asked, at the cost stated; it panics exactly on overflow, fails for memory exactly if the allocator refuses, and not at all if there is room; the stack stays. |
| `FreestandingVec.Vec.Deallocate` | vecs/src/freestanding_vec.rs:60-84 | Drops the metadata once if there is an allocation, and gives the block back with its size and alignment. |
| `FreestandingVec.Vec.Allocate` | vecs/src/freestanding_vec.rs:124-139 | A fresh block of `MIN_NON_ZERO_CAP` bytes with the alignment of the union. |
| `FreestandingVec.Vec.Init` | vecs/src/freestanding_vec.rs:172-206 | An empty vec of the new type with the new metadata; the old metadata is dropped exactly once; the capacity after reuse is stated; it fails exactly if the allocator refuses. |
| `FreestandingVec.Vec.New` | vecs/src/freestanding_vec.rs:52-58 | A valid empty vec with nothing dropped and nothing copied, unless the allocator refuses. |
| `FreestandingVec.Vec.Push` | vecs/src/freestanding_vec.rs:208-219 | The stack gains the value on top, byte for byte, always if there is room; it panics exactly if the size would overflow, fails for memory exactly if the allocator refuses, and then is unchanged. |
| `FreestandingVec.Vec.Pop` | vecs/src/freestanding_vec.rs:221-253 | Without knowing the element type: an aligned offset behind the header at which the bytes of the top element are, and the stack loses it; nothing exactly if it was empty. |
| `FreestandingVec.Vec.Drop` | vecs/src/freestanding_vec.rs:258-263 | The block is given back and the metadata dropped once. |
| `ClosureVec.StepKeeps` | vecs/src/closure_vec.rs:35-75 | Every operation keeps the account of pushed, held and used closures. |
| `ClosureVec.ConsumedExactlyOnce` | vecs/src/closure_vec.rs:69-75 | Over any sequence of calls every closure is still in the vec or was used once, never both, and always by the code of its own type. |
| `ClosureVec.LastInFirstOut` | vecs/src/closure_vec.rs:69-75 | When a closure is used, all closures pushed after it have been used. |
| `ClosureVec.NothingLeftAfterClear` | vecs/src/closure_vec.rs:41-43 | After `clear` the vec is empty and every closure ever pushed was used. |
| `ClosureVec.RunExactlyWhenAsked` | vecs/src/closure_vec.rs:19-75 | `pop_and_run` on a vec that is not empty uses one closure and runs it, `clear` and dropping pops run none of those they use, and the other operations use none. |
| `ClosureVec.Vec.New` | vecs/src/closure_vec.rs:29-34 | An empty vec for the closure type, unless the allocator refuses. |
| `ClosureVec.Vec.Push` | vecs/src/closure_vec.rs:60-62 | Refines the push of the abstract vec, or changes nothing if the size overflows or the allocator refuses, and only then. |
| `ClosureVec.Vec.PopAndRun_` | vecs/src/closure_vec.rs:69-75 | Refines the abstract pop: the bytes read by `task_fn` are those of the last closure pushed, which is run unless it is just dropped; it reports whether the vec was empty. |
| `ClosureVec.Vec.PopAndRun` | vecs/src/closure_vec.rs:64-67 | The last closure pushed is run; true exactly if there was none. |
| `ClosureVec.Vec.Clear` | vecs/src/closure_vec.rs:41-43 | The loop ends with the vec empty, having dropped every closure from the top and run none. |
| `ClosureVec.Vec.UpdateType` | vecs/src/closure_vec.rs:35-37 | On an empty vec, changes the closure type and loses no account of the past; it fails exactly if the allocator refuses. |
| `ClosureVec.Vec.Drop` | vecs/src/closure_vec.rs:89-93 | Every closure still held is dropped once, from the top and without being run, before the block is given back. |

## Left out

- Weak memory: fences and the Acquire, Release and Relaxed orderings; atomic accesses are
  sequentially consistent steps in program order.
- The futex system call itself and its error handling (bags/src/lib.rs:19-39).
- Bags of a size other than 30; `Clone` only accepts 30, and the test for a full bag relies
  on every bit but the flags being a slot.
- A promise that a disconnect wakes every parked thread: it is false, see `MpmcStranded` and
  `SlotStranded` for the exact condition.
- Fairness: that a thread which can step eventually does is not modelled, so the theorems
  about wake-ups say that a wake is coming, not when.
- MpmcCode.Inner.TrySend: gives up after `patience` turns of its reservation loop, because
  with interference the loop need not end; without any, two turns suffice, and every turn
  in vain after the first is due to a rival.
- MpmcCode.Inner.ReserveSlots: gives up after `patience` turns, for the same reason.
- MpmcCode.Inner.Send: gives up after `patience` rounds, as a blocking call need not end.
- MpmcCode.Inner.Recv: gives up after `patience` rounds, as a blocking call need not end.
- SlotCode.Inner.Send: gives up after `patience` rounds, as a blocking call need not end.
- SlotCode.Inner.Recv: gives up after `patience` calls of `try_recv`, as a blocking call need
  not end.
- Clones and drops of handles appear as steps of the machines only, not in `MpmcCode`; of
  the drops of `slot.rs` only the receiver's and the channel's are in `SlotCode`.
- Cloning past `u32::MAX / 2` handles aborts the process; those steps are not enabled.
- A wake of `u32::MAX` waiters wakes all of them.
- x86-64 with 2^61 - 1 threads or more; below that the counter bound holds.
- The buffers of `SendBufferContainer` are sequences taken from the end; the three
  implementations are not told apart.
- Both words of a channel, and its slots, are taken to be gone when the channel is dropped;
  the machines forget the committed slots then, which the code need not do.
- How the header is laid out within its bytes: the model keeps its fields beside the block
  and proves that no element overlaps the space they need. The layout of the union is
  taken to be the larger size rounded up to the larger alignment.
- Requests above `isize::MAX`, which the allocator refuses; failed allocations end the run.
- That a dangling pointer depends on the element type; the model keeps a flag instead.
- Element types of 4 GiB or more, whose sizes the `u32` casts would truncate.
- Panics in closures and in drops of metadata, and unwinding.
- `into_raw` and `from_raw`, which only change what the compiler knows; every erased
  operation of the model works from the header alone.
- Cache padding, `Debug`, `Send` and `Sync` implementations, benchmarks, and the executor
  crate, whose bodies are not written.
