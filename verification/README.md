# A verified model of the NVIDIA power HAL

This project models the C++ power HAL in `power/`: the timeout poker (a small concurrent event engine that opens
PM QoS constraints and closes them again after a timeout or when a client hangs up), the barrier its callers wait on,
the rate limiter for power hints that feeds it, and the text and search loops that run when the HAL is opened. It
states what that code promises over whole runs and proves it. `dafny verify dfyconfig.toml` checks everything.

## How the model is built

The engine is modelled three times, and the three are tied together.

- **Objects** (`PokeHandler.dfy`, `PowerInfo.dfy`, `Barrier.dfy`). The classes of the source with their mutable fields:
  `mKey`, `mQueuedEvents`, the looper, the kernel's descriptors, `hint_time`, the frames of waiting callers. Each
  method's contract equates the new abstract state with a function of the old one.
- **Whole operations** (`PokerEngine.dfy`). Those functions, as a labelled step machine over values: a client's push,
  a dispatch by the looper thread, a hang-up callback, a client closing its end of a pipe, other code of the process
  opening and closing descriptors, and the clock. The kernel may hand out any number that is not in use, so numbers are
  reused after a close. `EngineInvariant.dfy` has the inductive invariant, `EngineTheorems.dfy`, `EngineOrder.dfy`,
  `EngineProgress.dfy` and `EngineLoss.dfy` what follows from it for every run. A `log` that no operation reads records
  what happened, so that the theorems can speak of requests and not of descriptor numbers.
- **Single lock and kernel operations** (`Interleaving.dfy`). Any number of client threads and the looper thread,
  interleaved at the grain of taking `mEvLock`, drawing a key, adding to the table, posting, taking a message, each
  `open`, `pipe`, `close` and `addFd`, and each look at a barrier, with spurious wake-ups. `InterleavingRefines.dfy`,
  `Rendezvous.dfy` and `FineTheorems.dfy` prove that every such run is, step by step, a run of whole operations, that
  callers' frames are used correctly, and that nobody sleeps at an open barrier; `FineRuns.dfy`, `FineProgress.dfy` and
  `FineReturns.dfy` state the results.

On top of the engine, `PowerHints.dfy` adds `common_power_hint`, and `HintBounds.dfy` and `HintTotals.dfy` what it
guarantees, with runs in `HintWitness.dfy` that fill all constraints at once. `FineHints.dfy` puts the hints on top of the machine of single
operations and carries those guarantees over to every interleaving. `RateLimit.dfy` is the limiter by itself,
`LeaseCoverage.dfy` and `LeaseOverlap.dfy` say when the leases behind it leave no gap and how many run at once.
`Startup.dfy` is the handshake that starts the looper thread. `ConstraintCommand.dfy`, `Frequencies.dfy` and
`InputDevices.dfy` are the text and search loops, over arrays, with `CText.dfy` for C strings and decimal text;
`HintWrites.dfy` follows the requests of the hints into the nodes.

## Assumptions

- **Looper.** Its source is not part of this model. Pending messages are ordered by due time, first posted first among
  equals; a message is delivered only when it is due, and is removed before its handler runs.
- **Prompt dispatch.** Where a statement says so, the clock does not move past the due time of a pending message.
- **Time.** One clock that does not wrap, in nanoseconds. `check_hint` truncates it to microseconds, as the source does;
  its product `tv_sec * 1000000` does not overflow, and the clock reads at least one microsecond.
- **Hints.** Calls of `common_power_hint` come one at a time, because `hint_time` has no lock. `hint_time` and the
  intervals that are never set start at zero, as `calloc` makes them (power/power.cpp:83); the `malloc` at
  power/power.cpp:37 does not promise that.
- **Files.** The contents of sysfs files are parameters. The frequency list is the same at both reads and is shorter
  than the 256-byte buffer: the source does not terminate the string otherwise.

## Where the code differs from what its text suggests

- `createHandleForFd` ignores the result of `listenForHandleToCloseFd` (power/timeoutpoker.cpp:42-43), so its clean-up
  branch never runs. The model lets the looper refuse a descriptor. A descriptor is lost if no continuation of the run
  ever closes it: `LostIff` says that these are exactly the constraints and server ends of refused handles,
  `NothingLostIff` that none is lost if and only if the looper never refused, and `RefusalLoses` gives a run in which
  two are.
- Events run in order of due time and key, except after a negative timeout: `RunsInOrderIff` and `PromptRunsInOrderIff`
  give the exact condition, `NegativeTimeoutBreaksOrder` a run in which the order fails. A closing event still runs
  before every request that was pushed after it was armed and not before the constraint expired
  (`TimeoutRunsBeforeLaterRequest`).
- Because the limiter compares truncated microseconds while leases run in nanoseconds, one more lease can be open than
  whole microseconds would suggest: three for AUDIO, not two. If time passes between a hint's check and its push it can
  be still one more. `SufficesIff` says for each case how many leases suffice for every stream of calls. The
  rate-limited hints together hold at most 108 descriptors on a clock of whole microseconds, 113 if the clock stands
  still inside a call and 118 in general, and all three totals are exact (`EnoughIff`). The last one is less than the
  sum of the ten bounds, which is 123: calls come one at a time, so a call slow enough to give CPU_BOOST or AUDIO one
  more lease keeps INTERACTION out for half a second.
- The 90 ms interval keeps the 100 ms interaction boost up without a gap if and only if calls come at most 10 ms and
  1 ns apart (`CoveredIff`).
- The 20-byte command buffer holds every request that a hint makes, but not every pair of a maximum and a minimum:
  `ReadBackIff` says exactly when a request is read back, `LargePairDoesNotFit` gives one that is not.

## Model

| member | source | states |
|---|---|---|
| PokerObjects.PokeHandler.constructor | power/timeoutpoker.cpp:191-199 | a new handler has a looper of its own, no keys drawn, no events and no callbacks, among the descriptors the process has, and the start-up barrier is open when it returns |
| EngineTheorems.StartIsReachable | power/timeoutpoker.cpp:191-199 | that state is one the theorems about reachable states speak of |
| PokerObjects.PokeHandler.GenerateNewKey | power/timeoutpoker.cpp:186-189 | returns the counter and advances it; the 32-bit counter must not be at its maximum |
| PokerObjects.PokeHandler.SendEventDelayed | power/timeoutpoker.cpp:165-172 | a fresh key goes into the table with the event, and a message with that key is posted at now plus the delay; nothing else changes |
| PokerObjects.PokeHandler.PushEvent | power/timeoutpoker.cpp:26-30 | a client's push is a send with delay zero |
| PokerObjects.PokeHandler.RemoveEventByKey | power/timeoutpoker.cpp:174-184 | returns the event of that key if there is one, and takes it out of the table |
| PokerObjects.PokeHandler.OpenPmQosNode | power/timeoutpoker.cpp:53-76 | on success the path is opened and there is exactly one write, to the new descriptor: the int itself, or "max min priority 0" cut to 19 characters, which a reader of that format reads back as the request if and only if nothing was cut off; on failure nothing changes |
| PokerObjects.PokeHandler.CreateHandleForFd | power/timeoutpoker.cpp:32-51 | a pipe whose server end is watched if the looper accepts it; if the pipe fails the constraint is closed |
| PokerObjects.PokeHandler.OpenPmQosTimed | power/timeoutpoker.cpp:217-237 | an opened constraint arms its own closing event at now plus the timeout; a failed open arms nothing |
| PokerObjects.PokeHandler.CreateHandleForPmQosRequest | power/timeoutpoker.cpp:78-96 | opens the constraint and its pipe, and returns the client's end or -1 with the descriptors as before |
| PokerObjects.PokeHandler.TimeoutRequest | power/timeoutpoker.cpp:240-243 | closes whatever the number refers to now |
| PokerObjects.PokeHandler.RunOpenHandleEvent | power/timeoutpoker.h:151-158 | the caller's result is the client's end of the call's own pipe, or -1 if and only if the node or the pipe could not be opened, and its barrier is open |
| PokerObjects.PokeHandler.Run | power/timeoutpoker.h:100-179 | each kind of event has the engine's effect; its own node is opened and its own request written; only its own caller has its result written and its barrier opened |
| PokerObjects.PokeHandler.HandleMessage | power/timeoutpoker.cpp:201-215 | removes the event by key and runs it, or does nothing if there is none; after a handle event its caller's barrier is open and its result is the client's end of its own pipe, or -1 if and only if the node or the pipe could not be opened, every other frame is as before, and nothing is opened or written but for the event's own request |
| PokerObjects.PokeHandler.PollOnce | power/timeoutpoker.cpp:254-260 | one turn of the looper thread is one dispatch of the engine, with the same effect on frames, opens and writes |
| PokerObjects.PokeHandler.PipeCloseCb | power/timeoutpoker.cpp:270-283 | on a hang-up the callback, the server end and the constraint go; on any other event nothing changes; nothing is opened or written |
| PokerObjects.PokeHandler.RequestPmQosTimed | power/timeoutpoker.cpp:140-145 | pushes one timed request |
| PokerObjects.PokeHandler.EnterCreatePmQosHandle | power/timeoutpoker.cpp:128-134 | pushes an event that points to a fresh frame with a closed barrier |
| PokerObjects.PokeHandler.LeaveCreatePmQosHandle | power/timeoutpoker.cpp:136-138 | returns what was written to the frame, which is then gone |
| Barriers.Barrier.constructor | power/barrier.h:31 | a barrier starts closed |
| Barriers.Barrier.Open | power/barrier.h:33-37 | opens the barrier |
| Barriers.Barrier.Close | power/barrier.h:38-41 | closes the barrier |
| Barriers.Barrier.Wait | power/barrier.h:42-47 | gets through at the first look that finds the barrier open, whatever wakes it in between |
| EngineInvariant.SendAgrees | power/timeoutpoker.cpp:165-172 | posting under a new key keeps table and queue in agreement and the queue in delivery order |
| EngineInvariant.TakeAgrees | power/timeoutpoker.cpp:174-184 | the message taken has its event, exactly one, and is ahead of all the others |
| EngineInvariant.DispatchEffect | power/timeoutpoker.cpp:201-215 | a dispatch finds its event; a closing event finds its own constraint behind its number |
| EngineInvariant.StepKeeps | power/timeoutpoker.cpp:165-292 | every operation keeps the whole invariant: agreement, request records, descriptor ownership, handle records |
| EngineInvariant.RunKeeps | power/timeoutpoker.cpp:165-292 | so does every run |
| EngineTheorems.DescriptorsPartitioned | power/timeoutpoker.cpp:32-51 | in every reachable state each open descriptor has exactly one owner: a pending closing event, a callback context, the watched server end, the client, other code, or nobody if the looper refused it |
| EngineTheorems.TimeoutClosesItsOwn | power/timeoutpoker.cpp:240-243 | a closing event closes the constraint it was armed for despite reuse of numbers, not before it expires and never twice |
| EngineTheorems.NeverReleasedEarly | power/timeoutpoker.cpp:217-226 | a granted constraint is open until it expires, prompt dispatch or not |
| EngineTheorems.SettledOpenExactly | power/timeoutpoker.cpp:217-243 | with nothing due, exactly the granted constraints that have not expired are open |
| EngineTheorems.OpenRequestsAreTheFilter | power/timeoutpoker.cpp:165-243 | under prompt dispatch, in every run, the open timed constraints are exactly the requests pushed at p with p <= now < p + timeout whose open succeeded, one descriptor each |
| EngineTheorems.RunsInOrder | power/timeoutpoker.cpp:27-30 | with non-negative timeouts, one event runs before another if and only if it comes first by (due time, key) |
| EngineTheorems.NegativeTimeoutBreaksOrder | power/timeoutpoker.cpp:225 | a run with a negative timeout in which the order fails |
| EngineTheorems.HandleHeldWhileClientOpen | power/timeoutpoker.cpp:270-292 | while the client's end is open, the constraint is held and the server end is open, and watched unless refused |
| EngineTheorems.HandleReleasedAfterHangUp | power/timeoutpoker.cpp:270-283 | after the client closed its end the callback can run, and leaves no descriptor of the handle and every other one as it was |
| EngineTheorems.RefusedHandleStays | power/timeoutpoker.cpp:42-50 | the constraint of a refused handle stays in force, and its server end open, in every continuation |
| EngineLoss.LostIff | power/timeoutpoker.cpp:42-48 | a descriptor is one that no continuation ever closes if and only if it is the constraint or the server end of a refused handle |
| EngineLoss.NothingLostIff | power/timeoutpoker.cpp:42-48 | there is no such descriptor if and only if the looper accepted every server end |
| EngineLoss.RefusalLoses | power/timeoutpoker.cpp:42-50 | a run, from the start, in which a refused handle loses its constraint and its server end |
| EngineOrder.RunsInOrderIff | power/timeoutpoker.cpp:165-172 | events have run in strictly increasing order of (due time, key) if and only if every closing event run so far fell due no earlier than its request was pushed |
| EngineOrder.PromptRunsInOrderIff | power/timeoutpoker.cpp:217-237 | under prompt dispatch, if and only if no constraint closed so far had a negative timeout |
| EngineOrder.TimeoutRunsBeforeLaterRequest | power/timeoutpoker.cpp:236 | in every run a request pushed after the closing event of a constraint was armed and not before the constraint expired runs only after it was closed |
| EngineOrder.LaterInstantLargerKey | power/timeoutpoker.cpp:186-189 | a request pushed at a later instant than a constraint was granted was pushed after its closing event was armed |
| EngineProgress.DispatchShrinks | power/timeoutpoker.cpp:201-243 | every dispatch lowers the measure of two for each pending timed open and one for any other event |
| EngineProgress.DrainBound | power/timeoutpoker.cpp:201-243 | without further pushes no run makes more dispatches than the measure |
| EngineProgress.Drains | power/timeoutpoker.cpp:201-243 | whatever the kernel answers, waiting and dispatching empties the queue and closes every timed constraint |
| EngineProgress.WaiterIsServed | power/timeoutpoker.cpp:98-108 | when no timeout is negative, a pending handle request is answered by exactly the dispatch that its position announces, however many requests are pushed meanwhile |
| EngineProgress.WaiterIsServedWithin | power/timeoutpoker.cpp:98-108 | whatever the timeouts, it is answered within one dispatch more than what is ahead of it, counting two for a timed open |
| FineTheorems.FineStepKeeps | power/timeoutpoker.cpp:165-215 | every single lock, table or kernel operation is one step of the engine or none, and keeps the frames and barriers right |
| FineRuns.FineRunRefines | power/timeoutpoker.cpp:165-215 | every interleaved run is a run of whole operations, prompt if it is prompt |
| FineRuns.TableMatchesMessages | power/timeoutpoker.cpp:165-184 | whenever nobody holds the lock, the table's keys are exactly those of the messages queued or just delivered, each once |
| FineRuns.LookupSucceeds | power/timeoutpoker.cpp:201-210 | the looper always finds the event of its message, in a table that is not empty |
| FineRuns.MutualExclusion | power/timeoutpoker.cpp:165-178 | at most one thread is inside the critical sections of the lock |
| FineRuns.NoDanglingReference | power/timeoutpoker.cpp:128-138 | every queued or running event points to a live frame, of the one client that waits for it |
| FineRuns.ReturnsItsOwnResult | power/timeoutpoker.h:151-158 | createPmQosHandle returns only after its own event wrote the result, and returns that value |
| FineRuns.ReturnedResults | power/timeoutpoker.cpp:98-108 | what calls have returned never differs from what their events produced |
| FineRuns.OpenConstraintsInEveryInterleaving | power/timeoutpoker.cpp:217-243 | the filter theorem, for every prompt interleaving of single operations |
| FineRuns.PrivateIsUnowned | power/timeoutpoker.cpp:32-51 | between single operations the descriptors in the looper thread's hands belong to nobody else, and with them all open descriptors are accounted for |
| FineRuns.HangUpInSteps | power/timeoutpoker.cpp:270-283 | in every interleaving, once a client has closed its end and the looper is idle, the callback's steps are possible, and of all open descriptors they close the handle's own two |
| FineProgress.NoDeadlock | power/barrier.h:42-47 | while a caller's barrier is closed, a step of the thread in charge is possible |
| FineProgress.EveryHelpCounts | power/timeoutpoker.cpp:201-215 | each such step brings the opening of the barrier strictly nearer |
| FineReturns.WaiterIsReleased | power/timeoutpoker.cpp:98-108 | from every reachable state in which a caller of createPmQosHandle awaits the reply to its event, whatever the kernel answers and whatever timeouts were asked for, steps of threads already on their way, none of them a spurious wake-up, bring the caller back with the result of its own event |
| FineReturns.NeverStuck | power/barrier.h:33-47 | in every reachable state in which such a caller has not returned, a step of a thread already on its way is possible that is not a spurious wake-up |
| Startup.NoNullLooper | power/timeoutpoker.cpp:191-199 | in every interleaving no send finds a null looper; once the constructor returned the barrier is open and the second wait never sleeps |
| Startup.FailureNeverReturns | power/timeoutpoker.cpp:245-252 | if the looper cannot be prepared the constructor never returns |
| Startup.StartProgress | power/nvpowerhal.cpp:144-147 | no wake-up is lost: until the opener can send, a step other than a spurious wake-up brings it closer |
| RateLimit.LimiterIsOptimal | power/nvpowerhal.cpp:99-119 | the admitted calls are spaced by the interval, and no spaced choice among the calls is longer |
| RateLimit.NoIntervalAdmitsAll | power/nvpowerhal.cpp:112-114 | with interval 0 every call passes |
| LeaseCoverage.AdmitAtIsAdmit | power/nvpowerhal.cpp:109-114 | on a nanosecond clock the calls that pass are, in microseconds, those the limiter admits |
| LeaseCoverage.CoveredIff | power/nvpowerhal.cpp:203-208 | leases of d microseconds behind a limiter of the given interval follow on without a gap, for every stream of calls at most gap nanoseconds apart, if and only if gap + 1000 * interval <= 1000 * d + 1 |
| LeaseOverlap.OverlapBound | power/nvpowerhal.cpp:208-210 | at most d/interval + 2 leases run at once |
| LeaseOverlap.TightOverlapBound | power/nvpowerhal.cpp:208-210 | at most d/interval + 1 if each is pushed in the microsecond of its check |
| LeaseOverlap.AlignedOverlapBound | power/nvpowerhal.cpp:208-210 | at most (d-1)/interval + 1 if moreover pushes fall on whole microseconds |
| LeaseOverlap.SufficesIff | power/nvpowerhal.cpp:109-114 | for each of the three timings, n leases suffice for every stream of calls and pushes if and only if n is at least the bound |
| PowerHints.HalRunKeeps | power/nvpowerhal.cpp:381-482 | every run of hints, other clients, looper and clock keeps the records of calls, admissions and pushes in step |
| PowerHints.AdmittedInEveryRun | power/nvpowerhal.cpp:381-482 | in every run the admitted calls of a hint are exactly the limiter's choice among its calls |
| PowerHints.UnlimitedAreAdmitted | power/nvpowerhal.cpp:211 | in every run LOW_POWER, VSYNC and the hints without action are never turned down |
| PowerHints.CallsAreOnRecord | power/nvpowerhal.cpp:381-391 | the records of calls that other statements speak of are, in every run, the times of the calls themselves, of the last one and of the one before it |
| HintBounds.PushesAreTheRequests | power/nvpowerhal.cpp:395-474 | in every run what was pushed for each constraint of each hint is its node, priority, value and duration: the interaction boost for 100 ms, the animation boost for 2 s, and so on |
| HintBounds.LeaseBound | power/nvpowerhal.cpp:208-211 | how many descriptors one constraint of one hint holds at most, under prompt dispatch |
| HintBounds.AlignedLeaseBound | power/nvpowerhal.cpp:208-211 | the same on a clock of whole microseconds |
| HintTotals.SerialRunKeeps | power/nvpowerhal.cpp:381-482 | in every run no hint makes a push between the check and the push of a call of another one |
| HintTotals.HintsHoldAtMost | power/nvpowerhal.cpp:395-455 | the rate-limited hints never hold more than 118 descriptors under prompt dispatch, 113 if the clock stands still inside a call |
| HintTotals.HintsHoldAtMostOnMicrosecondClock | power/nvpowerhal.cpp:395-455 | 108 at settled instants of a clock of whole microseconds |
| HintWitness.AllSlotsFull | power/nvpowerhal.cpp:395-455 | for each of the three timings a prompt run at the end of which the ten constraints of the rate-limited hints are all full, and together hold exactly 118, 113 or 108 descriptors; in the first two AUDIO holds three |
| HintWitness.EnoughIff | power/nvpowerhal.cpp:395-455 | n descriptors are enough in every prompt run if and only if n >= 118; if calls take no time, n >= 113; at settled instants of a clock of whole microseconds, n >= 108 |
| HintBounds.InteractionBoostHolds | power/nvpowerhal.cpp:400-404 | under prompt dispatch, at every settled instant until 10 ms after the last INTERACTION call, or after the one before it while an admitted call has not made its push, the newest request for /dev/constraint_cpu_freq with the interaction boost as its minimum and 100 ms is in force, unless its open failed |
| FineHints.FineHalRunRefines | power/nvpowerhal.cpp:381-482 | every run in which hints push their requests through the single lock, table and looper operations, interleaved with all other threads, is a run of the hint machine; prompt if it is prompt, instantaneous if it is instantaneous |
| FineHints.HintsHoldAtMostInEveryInterleaving | power/nvpowerhal.cpp:395-455 | the 118 and the 113 hold in each such run |
| FineHints.InteractionBoostHoldsInEveryInterleaving | power/nvpowerhal.cpp:400-404 | so does the interaction boost, in the kernel's descriptor table, whenever the looper is idle and nothing is due |
| PowerHal.PowerInfo.CommonPowerOpen | power/nvpowerhal.cpp:133-217 | devices counted if there is no map of them or its count is 0 and resolved otherwise, a poker with a fresh looper there, the table read from the list with a last entry if and only if the list has two tokens, the boosts the first listed frequencies from 1326000 and from 1024000 on, which on an ascending list are the least ones, or the LP maximum, the CPU0 maximum read, the four intervals set and the fan's presence noted |
| PowerHal.PowerInfo.ReadNumber | power/nvpowerhal.cpp:175-178 | a printed number on a line is read right over whatever the buffer held |
| PowerHal.PowerInfo.CommonPowerInit | power/nvpowerhal.cpp:239-251 | opens, and then exactly one request is pending, a floor on /dev/constraint_cpu_freq of the last listed frequency for 15 seconds: for a printed list, for the list's own last frequency |
| PowerHal.PowerInfo.ShieldPowerInit | power/power.cpp:34-42 | with the board's map set, its devices are resolved and its length is the count, whatever an earlier open without a map had counted; otherwise as CommonPowerInit |
| PowerHal.PowerInfo.CheckHint | power/nvpowerhal.cpp:99-119 | the time in microseconds, unless the code is out of range or the last admitted call was less than 90000 microseconds ago for INTERACTION, or 500000 for CPU_BOOST and AUDIO; all other hints always pass |
| PowerHal.PowerInfo.CommonPowerHint | power/nvpowerhal.cpp:381-482 | a hint that does not pass changes nothing; one that does notes the time of its check and leaves exactly its own requests on record and pending, in order, with the nodes, values and times of the source |
| PowerHal.CallIsARun | power/nvpowerhal.cpp:381-482 | one call is a run of the hint machine with the same effect on the poker and on hint_time |
| ConstraintCommand.CreateConstraintCommand | power/timeoutpoker.cpp:294-297 | the buffer holds the text cut to what fits and a terminator, the result is its length, and the rest of the buffer is untouched |
| ConstraintCommand.WholeTextReads | power/timeoutpoker.h:56 | reading "max min priority timeout" gives back the numbers printed |
| ConstraintCommand.CutTextDoesNotRead | power/timeoutpoker.cpp:294-297 | a text that lost anything is not a command any more |
| ConstraintCommand.ReadBackIff | power/timeoutpoker.cpp:71-74 | a request is read back from a buffer if and only if its text is shorter than the buffer |
| ConstraintCommand.MinimumAlwaysFits | power/timeoutpoker.h:25 | with no maximum and a two-digit priority every 32-bit minimum fits in 20 characters |
| ConstraintCommand.LargePairDoesNotFit | power/timeoutpoker.h:25 | the largest maximum and minimum together do not |
| HintWrites.FloorReadsBack | power/nvpowerhal.cpp:246-250 | the write that a floor of priority 35 causes, such as that of the request at start-up, is read back as that floor, for every 32-bit value |
| HintWrites.HintRequestsReadBack | power/nvpowerhal.cpp:395-473 | the write that any request of any hint causes is read back as that request |
| HintWrites.AudioCharacters | power/nvpowerhal.cpp:448-455 | for AUDIO the characters written are "-1 512000 35 0" |
| Frequencies.SysfsRead | power/powerhal_utils.cpp:40-58 | the content lies over the start of the buffer; the rest of it stays |
| Frequencies.StrTok | power/nvpowerhal.cpp:155-162 | takes the next token off the rest of the text, terminates it in place, and only ever writes terminators |
| Frequencies.CountTokens | power/nvpowerhal.cpp:155-162 | the first pass finds the number of tokens less one |
| Frequencies.StoreFrequencies | power/nvpowerhal.cpp:164-173 | the second pass stores the values of the first tokens, in order |
| Frequencies.LoadFrequencies | power/nvpowerhal.cpp:149-173 | the two passes agree: all tokens but the last are stored |
| Frequencies.ListRoundTrip | power/nvpowerhal.cpp:149-173 | of a list printed with a space after each frequency and a newline, exactly the list is stored |
| Frequencies.ThreeFrequencies | power/nvpowerhal.cpp:149-173 | what is read from one such list |
| Frequencies.ThreeBoosts | power/nvpowerhal.cpp:183-197 | the two boosts taken from it, 1326000 and 1044000 |
| Frequencies.PrintedLastEntryIff | power/nvpowerhal.cpp:246-250 | a printed list is read into a table with a last entry if and only if it is not empty, and that entry is the list's last |
| Frequencies.NumberOverLeftovers | power/nvpowerhal.cpp:175-178 | a number on its own line is read right whatever follows in the buffer |
| Frequencies.ChooseBoost | power/nvpowerhal.cpp:183-197 | the first listed frequency at or above the threshold, or the fallback; on an ascending list the least one |
| Frequencies.BoostsOrdered | power/nvpowerhal.cpp:180-197 | boosts are listed or the LP maximum, and exactly when the one from 1024000 on does not exceed the one from 1326000 on |
| Frequencies.IsAvailableFrequency | power/nvpowerhal.cpp:121-131 | true if and only if the frequency is listed |
| InputDevices.AssignDevice | power/nvpowerhal.cpp:79-90 | a kernel device goes to every entry of its name, among the first input_cnt, that has none, and those are counted |
| InputDevices.FindInputDeviceIds | power/nvpowerhal.cpp:63-97 | despite the early exit each unset entry among the first input_cnt gets the least index of a device with its name, or stays -1 if there is none: names of less than 32 characters must be equal, of longer ones the first 32 decide; names, ids already set and entries beyond stay as they are |
| InputDevices.ResolvedByName | power/nvpowerhal.cpp:79-83 | the outcome for one entry in terms of the names alone |
| InputDevices.BoardMap | power/power.cpp:28-32 | of the board's three entries each gets the first device of exactly its name or none, and no device is given to two of them |
| InputDevices.SecondRunChangesNothing | power/nvpowerhal.cpp:63-97 | a second run over the same devices changes nothing |
| InputDevices.ResolvedOnce | power/nvpowerhal.cpp:63-97 | that outcome is the only one possible |

## Left out

- PokerObjects.PokeHandler.SendEventDelayed: needs the key counter below 2^31 - 1, because the increment of a signed int beyond it is undefined in C++; the engine over values draws keys without a bound.
- FineReturns.WaiterIsReleased: speaks of a run in which the right thread moves at each step; fairness of the scheduler is outside the code.
- HintTotals.HintsHoldAtMost: LOW_POWER has interval 0, so no bound holds for it and it is not counted.
- Frequencies.LoadFrequencies: a list of 256 bytes or more, for which the source reads past its buffer, and values beyond 32 bits, for which atoi is undefined.
- requestPmQos: hands a raw descriptor to its caller and keeps no state.
- PokerObjects.PokeHandler.constructor: the case that no looper can be prepared, in which the source never returns; Startup.FailureNeverReturns has it.
- Failing reads of sysfs files, logging, set_fan_cap and the property settings.
- get_input_count beyond the number it returns, and common_power_set_interactive: plain sysfs writes.
- What becomes of the first poker when the HAL is opened a second time and gets another (power/power.cpp:36-41 after 82-86).
- The Tegra X1 and legacy governor branches, power/power.c, power/tegra_sata_hal.cpp and liblights/lights.c: constant tables and sysfs writes.
- hardware/power.h, which numbers the hints, and the Android Looper, Thread, KeyedVector, Mutex and Condition are not part of this model.
- Real-time latency and how the kernel combines PM QoS requests.
