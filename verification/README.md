# sylar: a verified model

This project models the parts of the sylar coroutine server framework that are easiest to get wrong, and
proves what they promise.

* **The scheduler as a protocol** (`RunQueue`, `Protocol`, `Invariant`, `InvariantProof`, `Effects`, `Safety`,
  `Shutdown`, `TimeLimits`, `Steps`, `Progress`, `RunResults`). Workers take tasks from a shared list; a fiber that
  parks leaves its wake-up in an event slot, a timer, a semaphore's list or the task list, and may be woken before it
  has yielded. The system is one state machine over 28 kinds of steps. Two workers come to be on one fiber exactly if
  one of them switches to a fiber that the other has not finished leaving. In every run without that, each park has
  exactly one wake-up, what is placed is what is used plus what is on its way, and the counters are exact. When
  `stopping()` is true, nothing is left to be done exactly if no worker carries collected callbacks or a yielded fiber
  back to the list; it then stays true until somebody outside brings work. A time limit of `do_io` is lost exactly if
  a fiber registers after its timeout has been and gone. `SharedFiber`, `EarlyStop` and `LostLimit` (on the steps of
  `Reaching`) are runs in which these three things happen. No worker is ever stuck but before an assertion of the
  code's own, a fiber that moves itself goes on where it moved to, and whatever the interleaving semaphores serve in
  the order of the calls.
* **The event table** (`EventTable`): what epoll is told always matches the bits, no waiter is lost or delivered
  twice, and the dispatch loop's assertion fails exactly when a report mixes registered and unregistered events.
* **Timers** (`Timers`): an ordered set keyed by a field that changes, and the flag that tells the owner of an
  earlier timer, with unsigned 64-bit wrap-around.
* **ByteArray** (`Bytes`, `ByteArray`, `Varint`, `Records`, `TypedIo`): a linked chain of fixed-size blocks that
  behaves as one flat file, with varints, zigzag, endian-aware integers, strings and scatter/gather views on it.
* **`do_io`'s retry loop** (`HookIo`), **the fiber semaphore** (`Semaphore`), **the log pattern parser**
  (`LogPattern`), **IPv6 text** (`Ipv6Text`) and **network prefixes** (`Cidr`). `Common` holds the few types several
  modules share.

`Safety.SharedIffTaken`, `Safety.EveryParkOnce`, `Shutdown.StoppingMeansQuiet`, `Progress.NobodyIsStuck`,
`TimeLimits.LimitsKeptOverRuns`, `EventTable.WaitersConserved`, `Timers.TimerManager.ListExpired`,
`TypedIo.RoundTrip` and `LogPattern.WrittenPatternPrints` are the places to start.

## Where the code does not do what it means to

Each of these is stated as an exact condition; where a member is named that is an example, it meets the condition.

* `setPosition(capacity)` and every read at position = capacity, even of no bytes, dereference a null node
  (`ByteArrays.Outcome.NullDereference`): sylar/bytearray.cpp:391, 427, 458, 629.
* The positional `read` does not check its position. For one beyond the contents `m_size - position` wraps around, so
  that nearly every length passes: the call returns memory of the chain that was never written, or runs off its end
  (`ByteArrays.ByteArray.ReadAt`): sylar/bytearray.cpp:414.
* Because `readString*` of an empty string reads no bytes, a list of records whose last is an empty string does not
  read back when the data end exactly at the end of the last block (`TypedIo.RoundTripNew`).
* `writeStringF16` cuts the length to 16 bits and writes all bytes (`Records.LongStringComesBackEmpty`).
* A hang-up reported for a descriptor with only one registered event fails the assertion at sylar/iomanager.cpp:31
  (`EventTable.HangUpFails`, `EventTable.HarmfulReportFails`).
* `YieldToHold` puts the fiber on HOLD (sylar/fiber.cpp:189) before its context is saved (line 191), and
  `Scheduler::run` writes HOLD again after `swapIn` has returned (sylar/scheduler.cpp:200). A fiber whose wake-up is
  already on the list passes `swapIn`'s assertion on another worker in between (`SharedFiber.FibersCanBeShared`).
* Expired callbacks are taken out of the timer set (sylar/iomanager.cpp:326) before they are on the task list (line
  329), and a yielded READY fiber is put back (sylar/scheduler.cpp:197) after its worker has counted itself inactive
  (line 194). In between `stopping()` can be true, and another worker may leave for good (`EarlyStop.StopsTooEarly`).
* A timeout callback can mark the `timer_info` and cancel the event while `do_io` is not registered: that of an
  earlier try, already queued when its event arrived, or the next wait's own. The fiber then registers without
  looking, and no timeout wakes it (`LostLimit.LimitsCanBeLost`).
* When the clock goes back by more than an hour, or a recurring timer's next due time wraps around, the owner is not
  told of an earlier timer (`Timers.Scenario`, `Timers.WakeUpsCanBeLost`).
* When the clock had stood below one hour, any step back counts as a rollover and all timers fire
  (`Timers.TimerManager.DetectClockRollover`).
* `reset` with the old period and not from now succeeds on a cancelled timer (`Timers.Timer.Reset`).
* The comment on `triggerEvent` expects only registered events, but dispatch passes everything reported; the model
  follows the code.

## Conventions

* A failed assertion or a null dereference is an outcome of the operation that meets it, with the condition for it.
* The protocol's results are about runs in which no worker switches to a fiber that another has not finished leaving
  (`SoundRun`); `Safety.SharedIffTaken` is about all runs.
* The steps of the protocol are as large as the code's locks make them, with these exceptions, each of which the
  code does not guarantee. `stopping()` is one snapshot (sylar/iomanager.cpp:270-276). A timeout callback's look at
  its timer_info and the mark are one step (sylar/hook.cpp:133-138), the cancel another. Going on after a wait, with
  cancelling the timer and looking at the mark, is one step (lines 158-169), and so are these: a fiber's end with the
  bookkeeping after it, entering or leaving the idle fiber with its counter, triggering an event with counting it off.
  Expired timers are collected one at a time. Operations of the event table are one step each, though growing the
  table takes a lock of its own.
* Bit operations on numbers are written as the arithmetic they amount to in `Varint` and `Records` (disjoint bits
  are added, an exclusive or with all ones is a complement) and bit by bit in `Cidr`; unsigned and signed wrap-around
  is explicit. For zigzag this takes `-v` and `v * 2` (sylar/bytearray.cpp:115-125) to wrap around on the least and on
  large values, where C++ leaves signed overflow undefined.

## Model

| member | source | states |
|---|---|---|
| `ByteArrays.ByteArray.Grow` | sylar/bytearray.cpp:521-552 | adding blocks keeps the content, the position and the chain valid; the new capacity is a whole number of blocks more |
| `ByteArrays.ByteArray.AddCapacity` | sylar/bytearray.cpp:521-552 | capacity becomes the least block multiple that fits the request, content and position as before, cursor on the block of the position |
| `ByteArrays.ByteArray.Write` | sylar/bytearray.cpp:349-382 | overwrites or extends the flat content at the position and moves past it; size and capacity follow |
| `ByteArrays.ByteArray.Read` | sylar/bytearray.cpp:384-411 | exactly when it succeeds, what slice it returns and that it changes only the position; fails, or dereferences null at capacity, in the stated cases only |
| `ByteArrays.ByteArray.ReadAt` | sylar/bytearray.cpp:413-446 | at any position: out of range exactly if len exceeds the unsigned difference, null dereference exactly if otherwise the range leaves the chain, else the bytes there; up to the size they are the content's; the cursor stays |
| `ByteArrays.ByteArray.ToString` | sylar/bytearray.cpp:554-562 | the unread rest of the content, or empty when there is none |
| `ByteArrays.ByteArray.SetPosition` | sylar/bytearray.cpp:448-465 | position, and size when moved beyond it; null dereference exactly at capacity |
| `ByteArrays.ByteArray.Clear` | sylar/bytearray.cpp:336-347 | one block left, empty content, position 0 |
| `ByteArrays.ByteArray.constructor` | sylar/bytearray.cpp:32-40 | one block, empty, position 0, for every positive block size |
| `ByteArrays.GrownFits` | sylar/bytearray.cpp:521-536 | the capacity after growing is enough, a block multiple, and less than a block too much |
| `ByteArrays.ByteArray.GetReadBuffers` | sylar/bytearray.cpp:580-609 | the regions, concatenated, are the slice read would return |
| `ByteArrays.ByteArray.GetReadBuffersAt` | sylar/bytearray.cpp:611-647 | the same at any position; null dereference exactly at capacity |
| `ByteArrays.ByteArray.GetWriteBuffers` | sylar/bytearray.cpp:649-677 | the regions map exactly the bytes from position to position + len, in order |
| `ByteArrays.ByteArray.RegionsDisjoint` | sylar/bytearray.cpp:649-677 | no two regions share a block's byte |
| `ByteArrays.ByteArray.GatherIsSlice` | sylar/bytearray.cpp:580-609 | regions that map a range hold that range of the flat content |
| `ByteArrays.ByteArray.WriteThroughBuffers` | sylar/bytearray.cpp:649-677 | filling the regions and moving the position gives the state write gives, except at capacity |
| `Varints.VarintRoundTrip` | sylar/bytearray.cpp:144-170 | every value decodes from its encoding followed by anything, using exactly its own bytes |
| `Varints.VarintPrefixFree` | sylar/bytearray.cpp:144-170 | encodings are self-delimiting: equal streams start with equal values |
| `Varints.VarintLength` | sylar/bytearray.cpp:144-154 | at most k bytes exactly for values below 2^(7k) |
| `Varints.VarintAt` | sylar/bytearray.cpp:144-154 | byte i carries the i-th seven bits, the top bit set on all but the last |
| `Varints.DecodeAny` | sylar/bytearray.cpp:258-288 | what any bytes at all decode to, over-long encodings included |
| `Varints.SignedVarintLength` | sylar/bytearray.cpp:113-128 | through zigzag, at most k bytes exactly for -2^(7k-1) <= v < 2^(7k-1) |
| `Varints.VarintFitsBuffer` | sylar/bytearray.cpp:145-169 | 32-bit values fit the 5-byte buffer, 64-bit values the 10-byte one |
| `Varints.EncodeLoop` | sylar/bytearray.cpp:144-170 | the loop produces the encoding within its buffer |
| `Varints.ZigzagDecodesEncoded` | sylar/bytearray.cpp:113-137 | decoding inverts encoding for every signed value of the width, the least one included |
| `Varints.ZigzagEncodesDecoded` | sylar/bytearray.cpp:113-137 | encoding inverts decoding: zigzag is a bijection modulo 2^32 and 2^64 |
| `Varints.ZigzagValue` | sylar/bytearray.cpp:113-128 | zigzag numbers 0, -1, 1, -2, 2, ... in this order |
| `Records.WireIgnoresHost` | sylar/bytearray.cpp:70-110 | the bytes written depend on the chosen byte order, not on the host's |
| `Records.ReadIgnoresHost` | sylar/bytearray.cpp:218-252 | neither does what is read from them |
| `Records.WireRoundTrip` | sylar/endian.h:20-42 | an integer's wire image reads back as it |
| `Records.WireHolds` | sylar/bytearray.cpp:70-110 | byte i of an integer is its value over 256^i, or 256^(w-1-i) in big-endian order, modulo 256 |
| `Records.FromWireAt` | sylar/bytearray.cpp:218-252 | and what is read is the number with these bytes |
| `Records.SignedBytes` | sylar/bytearray.cpp:63-110 | a signed integer's bytes are those of its two's complement |
| `Records.PrefixBytes` | sylar/bytearray.cpp:184-200 | the length in front of a string takes two, four or eight bytes and holds it |
| `Records.StringReadsBack` | sylar/bytearray.cpp:304-334 | a string reads back exactly if it is shorter than 2^16, 2^32 or 2^64 bytes |
| `Records.RecordRoundTrip` | sylar/bytearray.cpp:304-334 | a record parses back from its bytes followed by anything exactly if its length fits its prefix |
| `Records.LongStringComesBackEmpty` | sylar/bytearray.cpp:184-187 | a string of 65536 bytes with a 16-bit length comes back empty |
| `TypedIo.WriteFixed` | sylar/bytearray.cpp:63-110 | writes the wire image at the position of the flat content |
| `TypedIo.WriteVarint` | sylar/bytearray.cpp:140-170 | writes the varint encoding there |
| `TypedIo.WriteString` | sylar/bytearray.cpp:184-206 | two, four or eight bytes holding the length in the array's byte order, or its varint, and then the string's bytes |
| `TypedIo.ReadVarint` | sylar/bytearray.cpp:258-288 | returns what decoding the flat content gives, byte by byte across blocks |
| `TypedIo.ReadString` | sylar/bytearray.cpp:304-334 | returns the string parsed from the flat content, or fails in the stated cases |
| `TypedIo.ReadRecord` | sylar/bytearray.cpp:208-334 | returns the value parsed from the flat content and moves past it |
| `TypedIo.WriteAll` | sylar/bytearray.cpp:63-206 | the content is the concatenated serialization, for every block size |
| `TypedIo.ReadNth` | sylar/bytearray.cpp:208-334 | the j-th record reads back equal after those before it |
| `TypedIo.RoundTrip` | sylar/bytearray.cpp:63-334 | any records written, rewound and read come back equal, for every block size and byte order, unless the last is an empty string ending at capacity |
| `TypedIo.RoundTripNew` | sylar/bytearray.cpp:63-334 | on a new array that happens exactly when the serialization fills whole blocks |
| `RunQueues.WithoutKeepsRest` | sylar/scheduler.cpp:176-177 | a pick loses nothing and makes nothing twice |
| `RunQueues.RunQueue.ScheduleNoLock` | sylar/scheduler.h:140-148 | appends the entry unless it is void, and answers whether the list was empty |
| `RunQueues.RunQueue.ScheduleAll` | sylar/scheduler.h:89-103 | appends the callbacks in order and wakes others exactly if the list was empty |
| `RunQueues.RunQueue.Pick` | sylar/scheduler.cpp:159-184 | picks nothing exactly if every entry is tagged for another thread or is a fiber that executes, and else the first that is neither, keeping the others in order; says exactly when others should look |
| `RunQueues.PickFromFirst` | sylar/scheduler.cpp:161-181 | the same of the list as a value: what the scan stops at |
| `InvariantProof.NextKeeps` | sylar/scheduler.cpp:153-242 | every step of workers, fibers and outsiders keeps the invariant, but for a switch to a fiber that another worker has not finished leaving |
| `InvariantProof.RunInv` | sylar/scheduler.cpp:137-243 | every state of every run satisfies it, up to the first such switch |
| `InvariantProof.PickKeeps` | sylar/scheduler.cpp:160-180 | taking an entry moves its wake-up into the worker's hand and counts the worker as active |
| `InvariantProof.SwapInKeeps` | sylar/scheduler.cpp:190-194 | switching to a fiber uses its wake-up up; nobody else holds it |
| `InvariantProof.StartCallKeeps` | sylar/scheduler.cpp:203-210 | a callback starts on a kept or new fiber that executes nowhere |
| `InvariantProof.YieldHoldKeeps` | sylar/fiber.cpp:186-189 | a fiber may go on HOLD after its wake-up has been placed, or even delivered |
| `InvariantProof.SwitchOutKeeps` | sylar/scheduler.cpp:193-194 | off the fiber's stack, the worker is counted out, whatever the fiber's wake-up has led to meanwhile |
| `InvariantProof.SettleKeeps` | sylar/scheduler.cpp:196-201 | a READY fiber's wake-up moves to the task list; any other left fiber is on HOLD already |
| `InvariantProof.DeliverKeeps` | sylar/iomanager.cpp:30-41 | triggering moves the waiter from its slot to the task list |
| `InvariantProof.ParkIoKeeps` | sylar/hook.cpp:145-158 | a fiber about to wait has its wake-up in its slot only, and its timeout, if any, still to come or marked |
| `InvariantProof.ResumeIoKeeps` | sylar/hook.cpp:158-170 | the invariant survives do_io's return from its wait; what it returns to is `RunResults.ResumeReturns` |
| `InvariantProof.ArmIoKeeps` | sylar/hook.cpp:129-142 | the timeout callback cancels where its do_io registers, for a timer_info nobody shares |
| `InvariantProof.MarkKeeps` | sylar/hook.cpp:133-138 | a timeout callback that does not go on to cancel leaves no unmarked do_io counting on it |
| `InvariantProof.CancelKeeps` | sylar/hook.cpp:140-141 | after its cancel it is over, and whoever was registered is on the task list |
| `InvariantProof.CollectKeeps` | sylar/iomanager.cpp:324-326 | an expired callback moves from the set to the worker's own list |
| `InvariantProof.ScheduleCollectedKeeps` | sylar/iomanager.cpp:327-331 | all of that list, of any length, moves to the task list |
| `Safety.SharedIffTaken` | sylar/fiber.cpp:140-195 | over any run: two workers come to be on one fiber exactly if one switches to a fiber that another has not finished leaving |
| `SharedFiber.FibersCanBeShared` | sylar/scheduler.cpp:264-273 | a run with two workers, switchTo moving a fiber between them, in which that happens |
| `Safety.OneWakeUp` | sylar/scheduler.cpp:159-222 | in every reachable state no fiber has two wake-ups; a parked or leaving one has one unless delEvent dropped it, a READY one has one, an executing one has none |
| `Safety.EveryParkOnce` | sylar/hook.cpp:117-171 | over every run: wake-ups placed = wake-ups used + the one still on its way |
| `Safety.ParkedIsWoken` | sylar/iomanager.cpp:148-181 | a parked fiber has a wake-up exactly if nobody called delEvent on its registration |
| `Safety.DroppedBy` | sylar/iomanager.cpp:148-181 | only delEvent on a fiber's own registration loses its wake-up |
| `Safety.SchedulingTwice` | sylar/scheduler.h:71-82 | schedule() of a fiber makes two wake-ups exactly if it has one already |
| `Shutdown.CountersExact` | sylar/scheduler.cpp:176-241 | the active, idle and pending counters equal what they count, in every reachable state |
| `Shutdown.OneWorkerPerFiber` | sylar/fiber.cpp:140-147 | as long as nobody has switched to a fiber that another had not finished leaving, no fiber is on two workers, EXEC is exactly executing, and swapIn's assertion never fails |
| `Shutdown.ExecutingSomewhere` | sylar/fiber.cpp:140-195 | a fiber in state EXEC is on some worker |
| `Shutdown.TakesOwnEntries` | sylar/scheduler.cpp:163-178 | a tagged entry is only ever held by its own thread |
| `Shutdown.CallbackConserved` | sylar/scheduler.cpp:203-209 | an accepted callback is in exactly one place until it is started, cancelled or dropped |
| `Shutdown.StoppingMeansQuiet` | sylar/iomanager.cpp:270-276 | when the snapshot is true no task runs and nothing is queued, timed or registered; no wake-up but semaphores' is left and every callback is over exactly if no worker carries collected callbacks or a READY fiber |
| `Shutdown.QuietStep` | sylar/scheduler.cpp:249-253 | from such a state a step leaves it exactly if it brings new work or puts down what a worker carried; and nothing comes to be carried |
| `Shutdown.OnlyOutsiders` | sylar/scheduler.cpp:249-253 | no fiber runs then that could bring work: only somebody outside the scheduler can |
| `Shutdown.StoppingLasts` | sylar/iomanager.cpp:270-276 | so, when nothing is carried, it stays true over any run in which nobody does |
| `EarlyStop.StopsTooEarly` | sylar/iomanager.cpp:324-331 | a run with two workers in which one leaves for good while the other holds an expired callback |
| `TimeLimits.TimeLimitKept` | sylar/hook.cpp:129-142 | a fiber waiting with an unmarked timer_info has its timeout callback still to come |
| `TimeLimits.TimeoutMarksIffUnmarked` | sylar/hook.cpp:131-138 | a wait's own callback goes on to cancel exactly if the timer_info is unmarked; otherwise it is over and the fiber still waits |
| `TimeLimits.CancelWakes` | sylar/hook.cpp:140-141 | a cancel to come puts the fiber it finds waiting on the task list, marked, and is the only one |
| `TimeLimits.LostOnlyByParkingMarked` | sylar/hook.cpp:117-171 | a limit gets lost exactly in a step that registers with the timer_info marked and no cancel to come |
| `TimeLimits.LimitsKeptOverRuns` | sylar/hook.cpp:117-171 | over a run without such a step, every waiting fiber's timeout callback, or the cancel of one, is still to come |
| `LostLimit.LimitsCanBeLost` | sylar/hook.cpp:131-169 | a run with two workers after which a fiber waits with a time limit and no timeout will wake it |
| `Steps.StepObeys` | sylar/scheduler.cpp:153-242 | every step, told field by field: what it appends to the task list and what states, workers, registrations, timers, semaphores, do_io calls and marks it leaves |
| `Progress.IdleIffNothingToTake` | sylar/scheduler.cpp:159-234 | a worker idles or ends exactly if every entry is tagged for another one or is a fiber that executes, and else picks |
| `Progress.PicksFirst` | sylar/scheduler.cpp:161-181 | it holds the first entry that is neither, and the others stay in order |
| `Progress.NobodyIsStuck` | sylar/scheduler.cpp:153-242 | in every reachable state every worker that has not exited can go on, exactly unless its do_io runs into addEvent's assertion |
| `Progress.FreeFiberMay` | sylar/scheduler.cpp:264-273 | what a fiber may do next that runs its own code |
| `Progress.CallerMay` | sylar/hook.cpp:121-171 | and one in do_io: return or arm a timer while none is armed, register where nobody is |
| `Progress.AnybodyMay` | sylar/scheduler.h:71-103 | what anybody may do, and to what |
| `Progress.IdlerMay` | sylar/iomanager.cpp:284-392 | a worker in its idle fiber may serve what there is, and ends it exactly when stopping |
| `Progress.StoppingIff` | sylar/iomanager.cpp:270-276 | over any run: stopping() is true exactly if stop() was called, nothing is queued, timed or registered and no worker is at a task |
| `RunResults.SwitchToArrives` | sylar/scheduler.cpp:264-273 | over any run: a fiber that calls switchTo(t) next goes on, if it does, on worker t |
| `RunResults.NewEntries` | sylar/scheduler.h:71-103 | entries are added at the end, for the thread given to schedule or switchTo and else for any worker |
| `RunResults.ResumeReturns` | sylar/hook.cpp:158-169 | back from its wait, a fiber leaves do_io exactly if its timer_info is marked and else tries again without a timer; the wait's own timer is out of the set, nobody else's is touched |
| `RunResults.TimeoutsBelong` | sylar/hook.cpp:129-169 | in every reachable state an armed timeout is the timer of a do_io still under way |
| `RunResults.FinishLeaves` | sylar/fiber.cpp:202-228 | a fiber that returned is TERM and one that threw EXCEPT; a callback fiber is kept for reuse; the worker is back in its loop |
| `RunResults.SettleLeaves` | sylar/scheduler.cpp:193-201 | a fiber that yielded READY is the last of the list, for any worker; one on HOLD stays off it |
| `RunResults.FinishedForGood` | sylar/scheduler.cpp:190-193 | over any run: a fiber that has finished keeps its state, nothing resumes it |
| `RunResults.EndedBy` | sylar/timer.cpp:40-49 | over any run: a callback is over exactly if a step started it, returned from it, cancelled it or threw it away |
| `RunResults.SemaphoresFirstCome` | sylar/mutex.cpp:37-71 | over any run of the scheduler: permits on a semaphore go to fibers in the order of their waits, and those waiting are the last to have called |
| `Timers.ComparatorIsStrictTotal` | sylar/timer.cpp:5-24 | the comparator is a strict total order, as std::set demands |
| `Timers.TimerManager.InOrder` | sylar/timer.cpp:5-24 | the set is in order of due times, and of addresses among timers due together |
| `Timers.ExactExpiry` | sylar/timer.cpp:150-154 | wherever the probe timer is allocated, the scan stops right after the timers due at or before now |
| `Timers.Timer.Cancel` | sylar/timer.cpp:40-49 | succeeds exactly if armed, takes the timer out, and nothing is delivered for it later; for a one-shot nothing ever was |
| `Timers.Timer.Refresh` | sylar/timer.cpp:52-62 | succeeds exactly if armed; due a period from now, the order and the hand-shake with the owner kept |
| `Timers.Timer.Reset` | sylar/timer.cpp:64-85 | new period from now or from the last start, which is preserved on the wrapping clock; the exact condition of success |
| `Timers.Timer.Rearm` | sylar/timer.cpp:55-60 | erase, change, reinsert: the key never changes inside the set |
| `Timers.TimerManager.AddTimer` | sylar/timer.cpp:95-101 | armed at now + ms; the owner is told exactly if it is due before all others and the owner was not told since it last looked |
| `Timers.TimerManager.AddLocked` | sylar/timer.cpp:177-185 | if no timer was due before the deadline or the flag was set, that still holds |
| `Timers.TimerManager.GetNextTimer` | sylar/timer.cpp:116-131 | the delay to the first timer; with the flag clear no timer is due before it has passed |
| `Timers.TimerManager.ListExpired` | sylar/timer.cpp:133-170 | after a rollover delivers all timers and else exactly those due, in order, once; recurring ones are armed a period from now; when the hand-shake survives |
| `Timers.TimerManager.DetectClockRollover` | sylar/timer.cpp:187-196 | exactly if the clock went back by more than an hour or, the previous time being below one hour, at all |
| `Timers.Scenario` | sylar/timer.cpp:144-166 | after an expiry the owner may sleep too long exactly if the next due time is before the one it was told |
| `Timers.WakeUpsCanBeLost` | sylar/timer.cpp:187-196 | clock values for both ways this happens |
| `EventTable.WaitersConserved` | sylar/iomanager.cpp:95-256 | waiters accepted = delivered + dropped + registered |
| `EventTable.AcceptBalanced` | sylar/iomanager.cpp:131-144 | accepting files the waiter in one place only |
| `EventTable.LeaveBalanced` | sylar/iomanager.cpp:176-215 | delivering or dropping takes it from there to one place only |
| `EventTable.IOManager.AddEvent` | sylar/iomanager.cpp:95-146 | the exact outcomes; accepts the waiter for its slot with bits, context, counter and kernel in step |
| `EventTable.IOManager.DelEvent` | sylar/iomanager.cpp:148-181 | succeeds exactly if registered and the kernel agrees; the waiter is dropped |
| `EventTable.IOManager.CancelEvent` | sylar/iomanager.cpp:183-216 | the same, but the waiter is delivered to its scheduler |
| `EventTable.IOManager.CancelAll` | sylar/iomanager.cpp:218-256 | delivers every waiter of the descriptor, the reader first |
| `EventTable.IOManager.Dispatch` | sylar/iomanager.cpp:342-386 | a reader is sent exactly if input, error or hang-up is reported, a writer exactly if output, error or hang-up is; the assertion fails exactly if some but not all of those told wait and the kernel agrees |
| `EventTable.ReportMeans` | sylar/iomanager.cpp:342-386 | who is told by which field of a report, in what order, and when nothing, the kernel's refusal or the assertion comes of it |
| `EventTable.IOManager.DispatchAll` | sylar/iomanager.cpp:334-387 | serves all reports of one wait, the kernel refusing any of them by itself, or fails exactly where one of them does |
| `EventTable.IOManager.Trigger` | sylar/iomanager.cpp:30-41 | the slot empties and exactly its waiter is scheduled |
| `EventTable.IOManager.EpollCtl` | sylar/iomanager.cpp:119-124 | every ADD, MOD and DEL issued is legal for the kernel's list |
| `EventTable.HarmlessReports` | sylar/iomanager.cpp:342-386 | reports of distinct descriptors that each are refused by the kernel or name only registered or no registered events all succeed |
| `EventTable.HarmfulReportFails` | sylar/iomanager.cpp:342-386 | any other report fails, whatever came before |
| `EventTable.ServeBalanced` | sylar/iomanager.cpp:334-387 | serving keeps every waiter accounted for and drops none |
| `EventTable.HangUpFails` | sylar/iomanager.cpp:346-349 | a hang-up with only a reader registered fails the assertion |
| `HookIo.DoIo` | sylar/hook.cpp:91-174 | the first decisive answer, unless a wait before it fails: then -1 with ETIMEDOUT on expiry and with its own errno on a refusal; every wait has a timer of its own, all cancelled when it returns |
| `HookIo.LooksBlocking` | sylar/hook.cpp:117-174 | callers never see EINTR or EAGAIN but as addEvent's failure |
| `HookIo.OneEnd` | sylar/hook.cpp:117-174 | every script of answers and waits has exactly one point at which do_io comes to its end |
| `Semaphores.FirstComeFirstServed` | sylar/mutex.cpp:37-71 | permits go to the callers strictly in the order of their calls, as many as there are permits, for every interleaving |
| `Semaphores.PermitsConserved` | sylar/mutex.cpp:37-71 | initial + notifies = count + grants + hand-offs; no waiters while the count is positive; the k-th hand-off goes to the k-th queued |
| `Semaphores.ResetLosesPermits` | sylar/mutex.h:440-440 | with reset this fails |
| `Semaphores.FiberSemaphore.Wait` | sylar/mutex.cpp:49-60 | one step of that history; the caller yields exactly if it has queued |
| `Semaphores.FiberSemaphore.TryWait` | sylar/mutex.cpp:37-47 | one step of that history; succeeds exactly if it got a permit |
| `Semaphores.FiberSemaphore.Notify` | sylar/mutex.cpp:62-71 | one step of that history; schedules exactly the fiber handed the permit |
| `LogPattern.LogFormatter.Init` | sylar/log.cpp:491-607 | the items and error flag are those the declarative scan gives, on every pattern |
| `LogPattern.LogFormatter.ScanDirective` | sylar/log.cpp:527-564 | the inner loop reads one directive and always advances |
| `LogPattern.ScanRecoversPieces` | sylar/log.cpp:485-570 | the scan inverts writing: no error, and the same pieces up to merging adjacent literals |
| `LogPattern.PrintIsRender` | sylar/log.cpp:476-482 | what is printed depends only on a pattern's meaning |
| `LogPattern.WrittenPatternPrints` | sylar/log.cpp:466-482 | a formatter made from a written pattern prints exactly its pieces |
| `LogPattern.KnownNames` | sylar/log.cpp:572-603 | a directive is known exactly if its name is one of twelve letters; another prints an error text and sets the flag |
| `LogPattern.TrailingPercent` | sylar/log.cpp:511-511 | a percent sign at the end is an error |
| `LogPattern.PercentAlone` | sylar/log.cpp:521-526 | so is one before what is neither a letter nor another one; scanning goes on behind it |
| `LogPattern.NeverClosed` | sylar/log.cpp:530-564 | so is a brace never closed, and all that follows it is lost |
| `LogPattern.SecondBrace` | sylar/log.cpp:531-545 | with a second opening brace all before it counts as the name, which then is unknown |
| `Ipv6Text.InsertGroups` | sylar/address.cpp:413-432 | the loop prints the first zero run as a double colon and joins the other groups |
| `Ipv6Text.Insert` | sylar/address.cpp:410-436 | brackets, address and port, and reading by section 3.2.2 of RFC 3986 recovers groups and port |
| `Ipv6Text.TextReadsBack` | sylar/address.cpp:410-436 | reading by section 2.2 of RFC 4291 recovers the groups of every address |
| `Ipv6Text.AtMostOneDouble` | sylar/address.cpp:415-432 | at most one double colon, present exactly if some group is zero, standing for the first run |
| `Ipv6Text.WholeRun` | sylar/address.cpp:413-432 | the double colon stands for the whole of the first run of zeros |
| `Ipv6Text.JoinAt` | sylar/address.cpp:424-427 | the other groups are joined by single colons |
| `Ipv6Text.HexPlain` | sylar/address.cpp:427-427 | in small hexadecimal digits without leading zeros |
| `Ipv6Text.EndpointReadsBack` | sylar/address.cpp:410-436 | what is printed for an address and a port reads back as both |
| `Ipv6Text.EndpointIsUnambiguous` | sylar/address.cpp:410-436 | no two addresses and ports print the same |
| `Cidr.CountBytes` | sylar/address.cpp:21-28 | the loop returns the number of bits set, for every word |
| `Cidr.MaskIsHostPart` | sylar/address.cpp:16-19 | the number (1 << (w - p)) - 1 is p zeros followed by ones |
| `Cidr.NetworkBounds` | sylar/address.cpp:326-350 | network = address under mask, broadcast = network + 2^(w-p) - 1, and the address lies between |
| `Cidr.SameNetwork` | sylar/address.cpp:337-350 | same network iff the first p bits agree iff within each other's bounds |
| `Cidr.Ipv4Networks` | sylar/address.cpp:326-358 | the stored words are those of the network's first and last address and mask, on either host byte order, and counting the mask's bits gives the prefix back |
| `Cidr.Ipv4Octets` | sylar/address.cpp:326-358 | the same on the four octets in memory: an address's octets become those of its network, broadcast address and mask, on either host |
| `Cidr.BroadcastAddress6` | sylar/address.cpp:438-446 | the byte loop computes the network's last address |
| `Cidr.NetworkAddress6` | sylar/address.cpp:448-456 | the byte loop computes the network's first address |
| `Cidr.SubnetMask6` | sylar/address.cpp:458-469 | the byte loop computes the mask |
| `Cidr.PrefixLength6` | sylar/address.cpp:147-151 | counting over sixteen bytes gives the prefix length of a mask |
| `Cidr.MaskOnes` | sylar/address.cpp:140-151 | a mask of prefix p has p bits set |

## Left out

- Fibers: `reset`, `swapIn` and the yields of sylar/fiber.cpp are state changes inside the protocol's steps, not a class of their own; stacks, contexts, `call`/`back` and `use_caller` are not modelled.
- Workers: one scheduler; starting threads, joining them and the caller's thread as a worker are not modelled, nor is liveness beyond `Progress.NobodyIsStuck`.
- Fibers that call `YieldToHold` without having placed a wake-up, and `addEvent` without a callback outside `do_io`, are not steps of the protocol: nothing would wake the first.
- Safety.OneWakeUp: schedule() is a step only for a fiber that is new, or finished and not scheduled again already; sylar/scheduler.h:72 takes any. For a fiber with a wake-up `Safety.SchedulingTwice` says what happens; an executing fiber, or one whose wake-up delEvent threw away, is not scheduled in the model.
- Safety.EveryParkOnce: registering for an event somebody else is registered for is not a step, because the code's assertion fails there (sylar/iomanager.cpp:109-114); `EventTable.IOManager.AddEvent` has that case.
- Recurring timers and `refresh`/`reset` are in `Timers` only; the protocol's timers fire once.
- epoll failures, and its edge-triggered delivery, are in `EventTable` as a parameter and not in the protocol, where any registered event may be reported at any time.
- A descriptor closed behind the table's back, so that the kernel forgets it, is not modelled.
- HookIo.DoIo: system calls, errno and wake-ups are a given script; that the wake-up comes is the protocol's part, and `connect_with_timeout` is one wait of it without the retry.
- Timers.TimerManager.AddTimer: timers with an empty callback are not modelled; they would be in the set without being armed.
- Timers.TimerManager.ListExpired: the check for an empty set and the collection are one step, though the code takes the lock twice.
- Varints.EncodeLoop: `value & 0x7F | 0x80` is written as the remainder plus 128.
- Bytes of a block that were never written hold arbitrary values; `setPosition` beyond the size exposes them.
- Cidr.Ipv4Networks: prefix length 0 is excluded, because the code shifts a 32-bit 1 by 32 places, which C++ leaves undefined; for length 1 the usual wrap-around is taken.
- Cidr.BroadcastAddress6: prefix length 128 is excluded, because the code then indexes the seventeenth byte; so for the network address and the mask.
- `ByteArray::writeToFile`, `readFromFile`, `toHexString` and floats.
- Sockets, the descriptor manager, configuration, log appenders, the time format and address lookup.
