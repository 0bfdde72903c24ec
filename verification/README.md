# Verification of the cooperative offload runtime

These Dafny modules model the parts of the repository in which coroutines, an accelerator and sometimes further threads
share state, and prove what that sharing does and does not break.

Each component comes in two layers. A specification module has a `State`, a `Step` function for what one agent does
between two points where another can interleave, `Exec` for an arbitrary schedule of such steps, an invariant, and the
theorems: they start from the initial state and hold for every schedule. A runtime module has the program itself: classes
with the source's fields, arrays and loops, whose methods are proved to take exactly the specified steps. Where a class
carries a ghost `trace`, its validity says that the current state is the one the specification reaches by that trace, so
every theorem about schedules is a theorem about the program. What gets done, as against what is never violated, has
modules of its own (`FallbackCount`, `TcoCalls`, `OpenLoopLedger`, `RedisGates`, `CarrierCalls`, `HandlerCalls`): they speak
of runs and of what can be observed in them, and the runtime methods repeat their conclusions in terms of their fields.

| file | component |
|---|---|
| `ConflictDetector.dfy`, `FallbackCount.dfy`, `NaiveMode.dfy`, `ConflictRuntime.dfy` | speculate-or-serialize cache, four modes |
| `DetectorClock.dfy`, `TimedDetector.dfy`, `Overtaking.dfy`, `OvertakingRuns.dfy`, `NaiveRuns.dfy` | the same program in time: how far coroutines get apart, and which parameters lose updates |
| `Bytes.dfy`, `Keystream.dfy`, `TcoServer.dfy`, `ReplyMasks.dfy`, `TcoCalls.dfy`, `TcoDevice.dfy`, `TcoProgress.dfy`, `TcoRuntime.dfy` | epoll and offload dispatcher with its device, and its thread-per-connection twin |
| `OpenLoop.dfy`, `OpenLoopLedger.dfy`, `OpenLoopRuntime.dfy`, `Rings.dfy` | producer, device and dispatcher pipeline |
| `PageDetector.dfy`, `VersionClock.dfy`, `RedisModule.dfy`, `RedisGates.dfy`, `RedisRuntime.dfy` | page-version detector and per-key gates |
| `Timespec.dfy`, `Carrier.dfy`, `CarrierCalls.dfy`, `CarrierEpoll.dfy`, `CarrierRuntime.dfy` | preload carrier: fibers, mutexes, condition waits, polls, deadlines |
| `HandlerLock.dfy`, `HandlerCalls.dfy`, `HostileServer.dfy` | handler lock and the server it protects |
| `LibAccel.dfy`, `LibAccelRuntime.dfy` | submit, done and release protocol with the device |
| `FiberSwitch.dfy`, `SwitchCode.dfy` | context switch on x86_64 and aarch64 |
| `BlockAllocator.dfy`, `AllocatorRuntime.dfy` | cache-block allocator, locked mode |
| `SpopVarint.dfy` | SPOP varints and frames |
| `CoopErr.dfy`, `CoopErrRuntime.dfy` | per-thread state save and restore |
| `Sums.dfy`, `Distinct.dfy` | sums and duplicate-free sequences |

All agents are sequentially consistent. The device's transform is an uninterpreted function, except in the coroutine
server, where it is the keystream of the source. Where two threads share a variable without a lock, its reads and writes
are steps of their own, with one exception: the conflict detector's specification submits and completes a slot in one
step each. `ConflictRuntime` has the single accesses, and its methods are proved to refine that specification. Deadlines
are left out of `ConflictDetector` and of `OpenLoop`: there a slot may be completed at any time after its submission.
`DetectorClock` has the conflict detector's deadlines, and its program is proved to be a run of both. `post` in the
conflict detector stands for the dependent post-processing, `v + 1` in the source.

## What the proofs turned up

- `accel_submit` sets `busy` last, as if to say that the device starts on a submission only then. That holds only up to
  the first reuse of a slot. The device reads `busy`, `done` and `deadline` one after the other, so it can combine the
  `busy` of a slot's previous user with the `done` that the next submission has just cleared and the deadline it has not
  yet written (`LibAccel.ReuseCanBeEarly`). Since `buf` and `n` are written before `done` is cleared, it then still
  transforms the right buffer exactly once (`LibAccel.DoneMeansFinished`, `LibAccel.ActsOnWrittenSlots`): only the
  modelled latency is cut short.
- The coroutine server's device has the same window: one connection that sends two requests is enough for the second to
  be completed before its deadline (`TcoDevice.SecondCanBeEarly`), and one request per connection is the exact limit
  (`TcoDevice.EarlyNeedsASecond`). No completion is lost or doubled by it (`TcoServer.OneMarkEach`), and replies are not
  affected. `OpenLoop` and `ConflictRuntime` include the window as well.
- A run of the conflict detector's naive mode loses an update exactly when two coroutines have an iteration on the same
  entry open at the same time (`NaiveMode.LosesIffOverlap`). Deadlines and passes keep coroutines from drifting apart
  freely, but not in step: the one with the lower index can make four iterations while the other makes one, the one with
  the higher index three (`OvertakingRuns.LowerAhead`, `OvertakingRuns.UpperAhead`). This is exact: iteration a of
  coroutine i and iteration b of coroutine j > i can be open together if and only if a <= 4b + 4 and b <= 3a + 1
  (`OvertakingRuns.MeetIffNear`), and the parameters of a naive run are safe if and only if no two iterations on the same
  entry are that near (`NaiveRuns.SafeIffApart`). Two coroutines on the default 64 entries, for instance, are safe up to
  30 iterations (`NaiveRuns.TwoOnSixtyFour`).
- In stateful mode the coroutine server's replies depend on the order of the requests, but only through the low 21 bits of
  the counter: the same request gets the same reply again exactly 2^21 requests later (`ReplyMasks.RepliesTellNumbers`).
- In the Redis module's naive mode the page detector's reports are exact in total: there is a loss exactly when a conflict
  was reported (`RedisModule.NaiveLossIffReported`).
- `err_drain` pops a code before it looks for room. Exactly the codes that fit the buffer come back, so a queue of L codes
  loses L - ERRBUF of them (`CoopErr.RestoresIffFits`, `CoopErrRuntime.Experiment.ErrDrain`). In this program no queue
  holds more than one code when it is saved, so that case is not an input here.
- The carrier keeps one registration per descriptor, with one fiber in it. When two fibers poll one descriptor at a time,
  say one reading and one writing, the later poll takes the event from the earlier one (`CarrierEpoll.SecondPollStrands`),
  and the expiry of one removes the event of the other (`CarrierEpoll.ExpiryStrands`). A poll without a deadline that has
  lost its event never ends (`CarrierEpoll.EndsIffNotStranded`). The runs in which no two fibers poll one descriptor at a
  time are exactly those in which no poll loses its event (`CarrierEpoll.CoveredIffApart`).
- An allocation request is refused a block under some schedule exactly when there are fewer blocks than all handlers
  together may ask for (`BlockAllocator.ServedIffEnough`).
- The unguarded hostile server can lose updates as soon as there are two connections (`HandlerLock.SafeIffGuarded`).

## Model

| member | source | states |
|---|---|---|
| ConflictDetector.Key | runtime/conflict_detector.c:61 | the entry an iteration touches is below NKEY |
| ConflictDetector.KeyByMachine | runtime/conflict_detector.c:61 | it is the one that 32-bit unsigned arithmetic computes from the two integers, every product and the sum wrapping by itself, for all identities and iterations |
| ConflictDetector.Serializable | runtime/conflict_detector.c:58-90 | in detect, lock and serial mode, for every schedule and every post-processing function, the cache is what the committed read-modify-writes give when applied one after the other in commit order |
| ConflictDetector.LossAccount | runtime/conflict_detector.c:72-87 | in every mode the sum of versions is the number of commits and, for increments, commits minus the sum of values is exactly the number of lost updates (those not on the chain of the latest version), never negative, per key and in total, and zero outside naive mode |
| ConflictDetector.KeyLoss | runtime/conflict_detector.c:85 | per key, version minus value counts the updates that are lost |
| ConflictDetector.SurvivorsCount | runtime/conflict_detector.c:79-85 | for increments the value of a version is the number of commits on its chain of origins |
| ConflictDetector.CurrentIsSerial | runtime/conflict_detector.c:81-86 | when every commit was computed from the current version, version-by-version values and replay in commit order agree |
| ConflictDetector.LockExcludes | runtime/conflict_detector.c:66-70 | lock mode: two coroutines parked on the same key are the same coroutine, its lock is held, and the value it read is still the current one |
| ConflictDetector.FallsBackIffStale | runtime/conflict_detector.c:79-86 | whatever detect run has led up to it, the code after an offload falls back exactly when another commit hit the key between the read and this commit; for increments, exactly when the value read is stale |
| FallbackCount.CountersCount | runtime/conflict_detector.c:79-86 | over every run, the fallback count is the number of commits in the history whose entry was committed to between that coroutine's read and its commit in detect mode, and 0 in the others; and the lock waits are the turns that neither reached an offload nor ended a coroutine |
| ConflictDetector.QuietDetectIsNaive | runtime/conflict_detector.c:78-87 | a detect run without fallbacks is, state for state, the naive run under the same schedule |
| ConflictDetector.StepKeeps | runtime/conflict_detector.c:58-104 | every device, reap and dispatch step keeps the invariant that ties cache, locks, flags, remembered values and history together, in all four modes |
| ConflictDetector.StepWorks | runtime/conflict_detector.c:92-104 | a step that does anything but retry a held lock lowers a bounded measure of the work left |
| ConflictDetector.RunsToTheEnd | runtime/conflict_detector.c:92-104 | in every mode a run that is over has made exactly C * N_ITERS commits, and one that is not can go on unless it waits for an outstanding offload: no deadlock, lock mode included |
| NaiveMode.LosesIffOverlap | runtime/conflict_detector.c:78-87 | under any schedule whatever, a finished naive run has lost an update if and only if at some point two coroutines had read the same entry and neither had committed |
| NaiveMode.AlwaysUndisturbed | runtime/conflict_detector.c:78-85 | if no two coroutines ever touch the same entry, whatever a parked coroutine has read stays current and every commit is computed from the current version |
| NaiveMode.DisjointLosesNothing | runtime/conflict_detector.c:61-86 | then no schedule loses an update at any time; in the other modes none ever does |
| Overtaking.GoBounded | runtime/conflict_detector.c:92-104 | every step of the dispatcher keeps the bounds on how far two coroutines can be apart, whose potential counts the turns one can still have while the other one's offload is open |
| Overtaking.AwayBounded | runtime/conflict_detector.c:36-38 | and so does every access of the device, stale looks included, and the passing of time |
| Overtaking.OpenAreNear | runtime/conflict_detector.c:36-39 | whatever the device and the clock do, iteration a of coroutine i and b of coroutine j > i can be open at the same time only if a <= 4b + 4 and b <= 3a + 1 |
| OvertakingRuns.LowerAhead | runtime/conflict_detector.c:36-104 | a stretch of the program's loop in which the coroutine with the lower index makes four iterations and the other one |
| OvertakingRuns.UpperAhead | runtime/conflict_detector.c:36-104 | one in which the coroutine with the higher index makes three and the other one |
| OvertakingRuns.MeetIffNear | runtime/conflict_detector.c:36-104 | exactly the pairs within these bounds are open together in some run of the loop in which the clock goes on and the device acts for ever, and in that run both then end |
| TimedDetector.AtAgrees | runtime/conflict_detector.c:36-104 | outside lock mode the clock's account of the run and the specification's agree on every coroutine and slot at every moment |
| NaiveRuns.CleanIffNoOverlap | runtime/conflict_detector.c:92-123 | a finished naive run of the program's loop has sum equal to commits if and only if at no moment two coroutines were open on one entry |
| NaiveRuns.ApartIsClean | runtime/conflict_detector.c:61-86 | if no two iterations on the same entry are within the bounds, nothing is lost at any moment, whatever the device and the clock do |
| NaiveRuns.NearLoses | runtime/conflict_detector.c:61-86 | if there are two, a run of the loop loses an update, and has still lost one whenever it has finished |
| NaiveRuns.SafeIffApart | runtime/conflict_detector.c:61-86 | for increments, the naive program never loses an update if and only if its parameters give no two iterations on the same entry within the bounds |
| NaiveRuns.TwoOnSixtyFour | runtime/conflict_detector.c:45-61 | two coroutines on 64 entries, the default, lose nothing if and only if they make at most 30 iterations |
| ConflictRuntime.Runtime.CoroOffload | runtime/conflict_detector.c:39-56 | the first of the three writes of a submission: the coroutine is marked as waiting and `done` is cleared, nothing else of the slot; in the specification this is the whole submission |
| ConflictRuntime.Runtime.SetDeadline | runtime/conflict_detector.c:39 | the second write changes the deadline only, which the specification does not see |
| ConflictRuntime.Runtime.Activate | runtime/conflict_detector.c:39 | the last write sets `active` only, which the specification does not see |
| ConflictRuntime.Runtime.FinishIteration | runtime/conflict_detector.c:69-86 | the code after the offload, mode by mode, takes the specified commit |
| ConflictRuntime.Runtime.BeginIteration | runtime/conflict_detector.c:60-80 | the code up to the first write of the next submission takes the specified step; a held lock costs a retry |
| ConflictRuntime.Runtime.Switch | runtime/conflict_detector.c:58-90 | one switch to a coroutine, up to its submission's first write, is one step of the specification, and counts a fallback exactly if, in detect mode, the entry's version is not the one the coroutine remembers |
| ConflictRuntime.Runtime.DeviceTurn | runtime/conflict_detector.c:36-38 | each of the device's accesses, the separate reads of `active`, `done` and the deadline and the mark, changes nothing in the specification, except that the mark completes an outstanding offload, whatever the reads before it saw of earlier ones |
| ConflictRuntime.ReadsNearer | runtime/conflict_detector.c:36-38 | every read takes the device nearer to an active slot that is due, across sweeps |
| ConflictRuntime.Runtime.Meanwhile | runtime/conflict_detector.c:34-39 | time and device accesses between any two steps of the dispatcher keep the run within the specification |
| ConflictRuntime.Runtime.SumOfCache | runtime/conflict_detector.c:122 | the loop computes the sum of the cached values |
| ConflictRuntime.Runtime.DispatchPass | runtime/conflict_detector.c:98-100 | one pass dispatches every coroutine that is neither finished nor waiting, with time and the device going on in between |
| ConflictRuntime.TurnCells | runtime/conflict_detector.c:92-101 | a turn of a coroutine, its 32-bit key, cache and all, is to the clock the end of one iteration and the first write of the next submission |
| ConflictRuntime.Runtime.Run | runtime/conflict_detector.c:92-104 | if the clock goes on and the device acts again and again, at whatever points of the dispatcher's loop, the loop terminates, with every coroutine finished and exactly C * N_ITERS commits, by a run of the specification and, outside lock mode, of its clock; in naive mode an update is then lost if and only if two coroutines were ever open on one entry, and in detect mode the fallbacks are the commits whose entry was committed to since it was read |
| Keystream.XorInPlace | runtime/tco_server.c:47 | the in-place loop XORs byte i with the keystream's byte i |
| Keystream.Involution | runtime/tco_server.c:47-62 | applying the same keystream twice gives the bytes back |
| Keystream.KeyAtIs | runtime/tco_server.c:47-62 | the generator's state after n steps in closed form, exact arithmetic reduced once modulo 2^32 |
| Keystream.TransformIs | runtime/tco_server.c:47 | byte i of the transform is byte i of the request XORed with bits 17 to 24 of the generator's (i + 1)-th state from the constant |
| Keystream.SeqMaskIs | runtime/tco_server.c:62 | byte i of the masked reply is XORed with bits 13 to 20 of the (i + 1)-th state from the counter |
| ReplyMasks.MaskShowsCounter | runtime/tco_server.c:62 | two masks of at least four bytes are equal exactly when the counters agree in their low 21 bits |
| ReplyMasks.RepliesTellNumbers | runtime/tco_server.c:98-103 | two replies to equal requests are equal exactly in stateless mode or when their numbers agree modulo 2^21, so a client that counts finds out a missed or repeated request by the next reply, up to that many |
| TcoServer.ReplyIdentifies | runtime/tco_server.c:188-193 | the client's comparison is exact: in both modes the reply it expects for its n-th request is the reply to that request and to no other |
| TcoServer.EveryConnectionIsSequential | runtime/tco_server.c:68-141 | for any number of connections, any chunking, EAGAIN pattern and completion order, the bytes written on a connection are a prefix of the replies to the whole requests it has read, in order, at most one request behind |
| TcoCalls.CallsDecide | runtime/tco_server.c:74-107 | over every run, a connection is over exactly when one of its own calls has returned end of stream or an error; its input is what its calls delivered, in order, and it has written as many bytes as they took |
| TcoCalls.AgainIsAPause | runtime/tco_server.c:68-90 | a call that would block is a pause: from every reachable state, whatever the others do until the event is reported and delivered, the connection is then where it was, and the next call has the effect it would have had at once |
| TcoCalls.AgainParks | runtime/tco_server.c:68-73 | such a call parks the connection, armed for its direction, and changes nothing else of it |
| TcoCalls.EventsAreOneShot | runtime/tco_server.c:68-73 | an event is reported once for each time its descriptor is armed, and handed over once |
| TcoCalls.TurnIsLocal | runtime/tco_server.c:74-93 | a turn changes its connection and slot only, and epoll only if it parks for an event |
| TcoCalls.FailedAreClosed | runtime/tco_server.c:135-139 | at the end of every pass the closed connections are exactly those that have failed |
| TcoCalls.AttemptsJoin | runtime/tco_server.c:109-130 | there are as many connections as attempts to connect, up to the size of the table |
| TcoCalls.DeadlineIsLatency | runtime/tco_server.c:91-93 | the deadline of a submission is one latency after the time at which it was written, until the next one |
| TcoServer.NoneStranded | runtime/tco_server.c:68-141 | a connection waiting for I/O is armed for what it waits for or its event is in hand; a slot is active exactly while its connection waits for the device; a dead connection is removed exactly once |
| TcoServer.OneMarkEach | runtime/tco_server.c:50-54 | the device sets `done` exactly once for each submission, early or not, and each request read in full is submitted once: marks are submissions less the one still open |
| TcoDevice.DeviceCompletes | runtime/tco_server.c:50-54 | a connection waiting for the device is not forgotten: once its deadline is past, finitely many further accesses of the device, wherever it stands, leave its slot done, and then it is resumed |
| TcoDevice.EarlyNeedsASecond | runtime/tco_server.c:50-92 | runs in which each connection submits at most m requests never see one completed before its deadline exactly when m is at most 1, if there are connections and a latency at all |
| TcoDevice.SecondCanBeEarly | runtime/tco_server.c:50-92 | the schedule that breaks it, with one connection and two requests: the device saw the first submission's `active` and deadline and the `done` that the second has just cleared |
| TcoServer.OthersDoNotInterfere | runtime/tco_server.c:126-139 | a step that concerns another connection leaves this one as it is |
| TcoServer.AdvanceInStep | runtime/tco_server.c:74-107 | every turn of the handler keeps input, buffer, counter and output in step with the one-connection meaning |
| TcoServer.InStepMeaning | runtime/tco_server.c:97-107 | in step means: the output is a prefix of the concatenated replies |
| TcoServer.StepKeeps | runtime/tco_server.c:50-141 | every step of any agent, each read and write of a slot by itself, keeps every connection attended, served and in step |
| TcoServer.TurnsDrop | runtime/tco_server.c:74-90 | a fiber whose writes make progress parks or ends after finitely many turns |
| TcoRuntime.ApplyOffload | runtime/tco_server.c:91-102 | transform and mask, in place, give the specified reply and advance the counter only in stateful mode |
| TcoRuntime.Fiber.ReadTurn | runtime/tco_server.c:74-82 | one turn of the read loop: bytes are taken in, EAGAIN parks for input and changes nothing else, end of stream or an error ends the connection |
| TcoRuntime.Fiber.WriteTurn | runtime/tco_server.c:83-90 | one turn of the write loop: bytes go out, EAGAIN parks for output and changes nothing else, an error ends the connection |
| TcoRuntime.Server.WriteSlot | runtime/tco_server.c:91-93 | the submission's writes, one per stage: `done` is cleared first, then the deadline set, then `active`, each changing that field only |
| TcoRuntime.Server.DeviceTurn | runtime/tco_server.c:52-54 | the device thread's next access: read `active`, read `done`, compare the deadline with the sweep's clock reading, or mark |
| TcoRuntime.Server.Meanwhile | runtime/tco_server.c:50-54 | time and device accesses between any two steps of the dispatcher are steps of the specification and touch no connection |
| TcoRuntime.Server.AcceptOne | runtime/tco_server.c:109-116 | a new connection gets the next index, its own slot and read interest; one beyond the table is closed |
| TcoRuntime.Server.RunTurn | runtime/tco_server.c:135-139 | one turn of a fiber, with its write to its slot or its effect on epoll, is one step of the specification |
| TcoRuntime.Server.RunPass | runtime/tco_server.c:135-139 | after the run pass every connection is parked or gone, with the device acting between any two turns |
| TcoProgress.PassIsDone | runtime/tco_server.c:119-139 | a pass that looks at every slot and leaves everybody parked has given a turn to each connection whose offload was complete when it began, and to each waiting one whose event it was told of |
| TcoRuntime.RunCoro | runtime/tco_server.c:119-141 | after every pass of the dispatcher, with time and the device going on between any two of its steps, the state is one the specification reaches, with every connection parked and attended to, or gone; and every pass has given a turn to each connection that was to be reaped when it began and to each waiting one it was told of; the closed connections are those of which a call has returned end of stream or an error |
| TcoRuntime.BlockConn | runtime/tco_server.c:144-160 | the thread-per-connection handler uses exactly the results of its calls up to the first that gets it nowhere; its input is what they delivered, it has written as many bytes as they took, and these are a prefix of the same replies: the two servers meet one specification |
| OpenLoop.EveryTaskInOnePlace | runtime/openloop.c:40-42 | under every interleaving of producer, device and dispatcher accesses, every task id is in exactly one of free list, ready queue and offloads under way, without duplicates, so no ring or array overflows |
| OpenLoop.OneEntryEach | runtime/openloop.c:40-42 | submissions exceed completion entries by one exactly while an offload is under way and not yet queued, and a queued entry is always for a waiting task |
| OpenLoop.NoArrivalLost | runtime/openloop.c:52-105 | what was injected is, in order, what was popped plus what is queued; what was popped is what was recorded, each once with its own stamp, plus what busy tasks hold |
| OpenLoopLedger.DroppedIffFull | runtime/openloop.c:56-60 | from every reachable state with the producer at rest, an arrival is counted as dropped by its next step exactly if the ring held RING entries as it looked; if not, it is the last of the injected ones after the step after that, whatever the other threads do in between |
| OpenLoopLedger.EveryArrivalCounts | runtime/openloop.c:56-60 | over every run, the arrivals that found room are injected, in order, those that found the ring full are counted as dropped, and at most the last is still on its way |
| OpenLoopLedger.DueIsQueued | runtime/openloop.c:40-42 | from every reachable state in which the device is at its loop head and a slot active and not done, a due offload is marked and its id queued behind the others, once, whatever the other threads do in between |
| OpenLoopLedger.EarlyIsLeft | runtime/openloop.c:40-42 | and one that is not due is left as it is |
| OpenLoopLedger.AssignGives | runtime/openloop.c:97-98 | in every reachable state the oldest arrival goes to the free task on top of the stack |
| OpenLoopLedger.TurnServes | runtime/openloop.c:82-87 | in every reachable state the first ready task that comes from its offload records its own arrival and becomes free |
| OpenLoop.StepKeeps | runtime/openloop.c:40-105 | every access of every thread keeps the invariant, also when the device acts on a stale look at a reused slot |
| OpenLoop.BusyUpdate | runtime/openloop.c:86-98 | changing one task changes the multiset of stamps in service by exactly its own |
| OpenLoopRuntime.Pipeline.ProducerTurn | runtime/openloop.c:56-60 | look whether head minus tail is below the capacity, store and publish the stamp if it was, and count it as dropped if not |
| OpenLoopRuntime.Pipeline.DeviceTurn | runtime/openloop.c:41 | the separate reads of `active` and `done`, the mark, and the two-step push of the completion |
| OpenLoopRuntime.Pipeline.AssignOne | runtime/openloop.c:97-98 | the arrival at the ring's tail goes to the task on top of the free stack |
| OpenLoopRuntime.Pipeline.DrainOne | runtime/openloop.c:100-101 | one completion entry makes its waiting task ready and deactivates its slot |
| OpenLoopRuntime.Pipeline.ServeFirst | runtime/openloop.c:84-87 | record the arrival, free the task |
| OpenLoopRuntime.Pipeline.AssignLoop | runtime/openloop.c:97-98 | the loop ends with no arrival or no free task left |
| OpenLoopRuntime.Pipeline.DrainLoop | runtime/openloop.c:100-101 | the loop ends, with the completion ring empty |
| OpenLoopRuntime.Pipeline.Pass | runtime/openloop.c:95-107 | one pass, with the other threads stepping in between, is a run of the specification that gives out the waiting arrivals as far as tasks are free, drains every completion entry, gives each task that was ready or becomes so exactly one turn, and leaves none ready |
| OpenLoopRuntime.Serve | runtime/openloop.c:91-109 | any number of passes, each of which does all this, stay within the specification; with the producer at rest, exactly the arrivals that found the ring full are not among the injected |
| Rings.Ring.Push | runtime/openloop.c:41 | a ring indexed by ever-growing counters holds the pushed elements in order |
| Rings.Ring.Pop | runtime/openloop.c:100 | and gives them back oldest first |
| Rings.Ring.Apart | runtime/openloop.c:38-42 | two counters less than a ring apart use different cells |
| PageDetector.PageIndex | transparent-runtime/detector.c:21-27 | the loop with its running base finds an index exactly for covered addresses |
| PageDetector.IndexExact | transparent-runtime/detector.c:21-27 | two covered addresses of disjoint aligned regions get the same index exactly when they are on the same page, and indices stay below the number of pages |
| PageDetector.CounterIsPage | transparent-runtime/apps/redis/detector_module.c:44-46 | with one counter per page in the region handed to the detector, every byte of counter k has page number k and no other |
| RedisRuntime.Detector.Store | transparent-runtime/detector.c:32-41 | a store faults at most once per protected page; the fault checks the version against the park clock, ticks the clock and stamps the page |
| RedisRuntime.Detector.Protect | transparent-runtime/detector.c:28-30 | protecting clears the writable flag of every page and nothing else |
| RedisModule.GatedIsSerial | transparent-runtime/apps/redis/detector_module.c:61-134 | detect and lock mode under every schedule: each counter is the number of replies on it, nothing is lost, no conflict is reported, and a job in flight is alone at its gate and has read the current value |
| RedisModule.GatesAreFifo | transparent-runtime/apps/redis/detector_module.c:101-132 | at every gate the arrivals are, in order, those replied to, the one in flight and those waiting; nobody waits at an idle gate |
| RedisGates.CommandsOverlap | transparent-runtime/apps/redis/detector_module.c:10-17 | in every reachable state the next command begins at once in naive mode; in detect mode exactly if no command on its counter is in flight, so that different counters overlap; in lock mode exactly if none at all is; otherwise it waits; and those in flight are not touched |
| RedisGates.InFlightAlone | transparent-runtime/apps/redis/detector_module.c:10-17 | in every reachable state at most one command is in flight in lock mode, and at most one on each counter in detect mode |
| RedisGates.RepliesPassOn | transparent-runtime/apps/redis/detector_module.c:101-106 | in every reachable state, after a reply exactly the oldest command waiting for its counter (detect mode) or the oldest of all (lock mode) has begun |
| RedisGates.WorkersMoveJobs | transparent-runtime/apps/redis/detector_module.c:79-90 | in every reachable state a worker gets the oldest queued job to the device, from where it is finished, and nothing else moves |
| RedisGates.BeginsProtected | transparent-runtime/apps/redis/detector_module.c:73-77 | in every reachable state a command begins with all pages protected, outside lock mode |
| RedisModule.ReportedIffOverlapped | transparent-runtime/apps/redis/detector_module.c:51-100 | on every run outside lock mode, from the state in which a job begins to the state in which it is replied to: it writes back one more than its counter held when it began, and is reported exactly when another reply wrote the counter in between, in particular whenever the counter has changed |
| RedisModule.ReportedIffWritten | transparent-runtime/apps/redis/detector_module.c:73-100 | in every reachable state a reply is reported exactly when its counter was written since the job's clock reading |
| RedisModule.NaiveLossIffReported | transparent-runtime/apps/redis/detector_module.c:92-100 | naive mode: every accepted command is in flight or replied to; counter by counter and in total the loss is never negative, and there is one exactly when a reply was reported |
| RedisModule.BeginsWith | transparent-runtime/apps/redis/detector_module.c:73-77 | a job that begins takes along its counter's value and, outside lock mode, the number of replies so far: one fault per reply |
| RedisModule.JobIsFixed | transparent-runtime/apps/redis/detector_module.c:51-77 | from begin to reply a job keeps its counter, its value and its clock reading |
| RedisModule.LastWriteSince | transparent-runtime/detector.c:36-38 | a page version above a clock reading means exactly that the page was written since |
| RedisModule.QueueKeeps | transparent-runtime/apps/redis/detector_module.c:65-90 | every job that begins goes through the worker queue exactly once |
| RedisModule.NextIsNew | transparent-runtime/apps/redis/detector_module.c:102-106 | the command that begins after a reply is not already in flight |
| RedisModule.StepKeeps | transparent-runtime/apps/redis/detector_module.c:61-134 | every command, worker and reply step keeps the invariant in all three modes |
| RedisRuntime.Gates.Push | transparent-runtime/apps/redis/detector_module.c:131 | a pending ring appends at its head |
| RedisRuntime.Gates.Pop | transparent-runtime/apps/redis/detector_module.c:104 | and gives out its oldest command |
| RedisRuntime.Module.Begin | transparent-runtime/apps/redis/detector_module.c:73-77 | read, park the clock and protect, enqueue |
| RedisRuntime.Module.CmdRmw | transparent-runtime/apps/redis/detector_module.c:120-134 | a command begins, unless its own gate (detect mode) or the one gate (lock mode) is busy, where it then waits |
| RedisRuntime.Module.WorkerTake | transparent-runtime/apps/redis/detector_module.c:82-85 | a worker takes the oldest job |
| RedisRuntime.Module.ReplyCb | transparent-runtime/apps/redis/detector_module.c:92-110 | write, count, and pass the gate to the oldest waiting command or leave it idle |
| RedisRuntime.Module.Serve | transparent-runtime/apps/redis/detector_module.c:61-134 | every event of the server is one step of the specification; a command begins exactly if none on its counter (detect mode) or none at all (lock mode) is in flight, and a reply lets exactly the oldest one begin that waits for what it occupied |
| RedisRuntime.Module.CmdStats | transparent-runtime/apps/redis/detector_module.c:136-145 | mode, total, sum, lost, conflicts and faults; the loss is never negative, and there is one exactly when a conflict was reported; outside lock mode there is one fault per reply |
| Timespec.ToRealtime | transparent-runtime/libtransparent.c:428-435 | the converted deadline is exact in nanoseconds for all inputs, and normalised exactly when the raw nanoseconds are within a second of the normal range, which normalised inputs ensure |
| Timespec.PollDeadline | transparent-runtime/libtransparent.c:118-121 | the poll deadline is now plus the timeout, exactly, and normalised |
| Timespec.Due | transparent-runtime/libtransparent.c:185 | on normalised times the two-field comparison is comparison of total nanoseconds |
| Carrier.MutualExclusion | transparent-runtime/libtransparent.c:353-369 | two fibers never hold the same mutex, and a mutex is taken exactly when some fiber holds it, across arbitrary yields |
| CarrierCalls.UnlockFrees | transparent-runtime/libtransparent.c:366-369 | from every reachable state an unlock by the holder leaves the mutex free and held by nobody, and everything else as it was |
| CarrierCalls.LockTakesOrYields | transparent-runtime/libtransparent.c:353-361 | from every reachable state a lock call on a free mutex returns holding it; on one that is taken the fiber yields, stays runnable, and nothing else changes |
| CarrierCalls.SwitchTakesOrYields | transparent-runtime/libtransparent.c:353-361 | from every reachable state a fiber in a lock call, or whose wait has ended, that is switched to while the mutex is free returns to application code holding it, and a wait reports whether its deadline ended it; if the mutex is taken, it yields again |
| CarrierCalls.BlockedRetries | transparent-runtime/libtransparent.c:353-361 | over every run, a fiber in a lock call stays in it, runnable, until the first switch to it at which the mutex is free |
| Carrier.WaitsEndOnce | transparent-runtime/libtransparent.c:180-194 | each wait ends at most once, by wake-up or time-out but not both; a time-out needs a deadline that the clock had reached; and what a wait returns says which of the two it was |
| Carrier.SignalMissesNobody | transparent-runtime/libtransparent.c:148-151 | a signal wakes every fiber inside an open wait on that condition, between entry and unlock, between unlock and park, or parked, and changes no other |
| Carrier.WakeupIsNotLost | transparent-runtime/libtransparent.c:436-446 | a fiber woken before it has parked stays runnable until the carrier resumes it |
| Carrier.ReturnsHolding | transparent-runtime/libtransparent.c:436-446 | a wait returns only after it ended and only with its mutex held |
| CarrierCalls.CondWaitGivesUp | transparent-runtime/libtransparent.c:436-442 | from every reachable state a condition wait, once begun, frees its mutex, which nobody then holds |
| CarrierCalls.SwitchReturns | transparent-runtime/libtransparent.c:102-136 | from every reachable state a fiber back from a poll or an offload goes on in application code, and a poll reports whether its deadline ended it |
| CarrierCalls.CarrierWakes | transparent-runtime/libtransparent.c:148-176 | from every reachable state a readiness event makes the fiber it is armed for runnable, and a signal exactly the fibers waiting on its condition; nothing else of a fiber changes |
| CarrierCalls.CarrierEnds | transparent-runtime/libtransparent.c:177-187 | from every reachable state a waiter whose deadline has come is timed out, by the clock that was read, and a completed offload makes its fiber runnable |
| Carrier.StepKeeps | transparent-runtime/libtransparent.c:102-197 | every call, switch and scheduler action keeps the fiber state machine's invariant |
| CarrierRuntime.Runtime.WakeFibers | transparent-runtime/libtransparent.c:148-151 | the loop over the table wakes exactly the fibers waiting on the condition |
| CarrierRuntime.Runtime.DeadlinePass | transparent-runtime/libtransparent.c:182-187 | every waiter whose deadline the clock has reached is timed out, nobody else changes |
| CarrierRuntime.Runtime.FiberCondWait | transparent-runtime/libtransparent.c:436-442 | fields first, then unlock, then park: three steps of the specification, after which the mutex is free and the fiber parked in its wait |
| CarrierRuntime.Runtime.MutexLock | transparent-runtime/libtransparent.c:353-361 | a free mutex is taken and held; otherwise the fiber yields in the lock call, runnable, and no mutex changes |
| CarrierRuntime.Runtime.MutexUnlock | transparent-runtime/libtransparent.c:366-369 | the mutex is free, the fiber no longer holds it, and no other mutex and no other fiber changes |
| CarrierEpoll.EventEndsItsPoll | transparent-runtime/libtransparent.c:174-176 | a readiness event ends exactly one poll, that of the fiber its descriptor was armed for, which is parked on that descriptor; so none reaches a fiber that has moved on or has returned |
| CarrierEpoll.CoveredIffApart | transparent-runtime/libtransparent.c:102-106 | throughout a run every poll has its event still to come if and only if no two fibers ever poll one descriptor at the same time |
| CarrierEpoll.EndsIffNotStranded | transparent-runtime/libtransparent.c:171-187 | a parked poll can still end if and only if it has a deadline or its descriptor is armed for its fiber; otherwise no continuation of the run ends it |
| CarrierEpoll.SecondPollStrands | transparent-runtime/libtransparent.c:102-106 | witness: a second poll of a descriptor takes the registration from the first, which is then never resumed |
| CarrierEpoll.ExpiryStrands | transparent-runtime/libtransparent.c:185-187 | witness: the expiry of one poll removes the registration of another fiber polling the same descriptor |
| CarrierRuntime.Runtime.Ready | transparent-runtime/libtransparent.c:174-176 | an event disarms its descriptor and readies the parked fiber named in it |
| CarrierRuntime.Runtime.YieldIo | transparent-runtime/libtransparent.c:102-127 | arm the descriptor for the running fiber, whoever had it, and park, with or without a deadline |
| CarrierRuntime.Runtime.Switch | transparent-runtime/libtransparent.c:106-126 | what a resumed fiber does before application code or its next yield: clear the deadline, take its mutex if it is free and yield again if not, report the time-out |
| CarrierRuntime.Runtime.RunFiber | transparent-runtime/libtransparent.c:189-194 | one switch, then the application's calls up to its next yield; no other runnable fiber stops being runnable |
| CarrierRuntime.Runtime.RunPass | transparent-runtime/libtransparent.c:189-194 | every fiber that was runnable when the pass began is resumed in it |
| CarrierRuntime.Runtime.Turn | transparent-runtime/libtransparent.c:167-195 | one turn of the scheduler loop is a run of the specification |
| HandlerLock.OneHandlerInSection | transparent-runtime/libtransparent.c:283-298 | with enforcement a handler between its first read and the following write owns the handler lock, so at most one is there |
| HandlerCalls.SpinnerRetries | transparent-runtime/libtransparent.c:143-144 | from every reachable state a spinning handler that is switched to takes the lock if it is free by then, and otherwise spins on |
| HandlerCalls.WriteFrees | transparent-runtime/libtransparent.c:291-295 | from every reachable state the write of the lock's owner leaves it free |
| HandlerCalls.PauseChangesNothing | transparent-runtime/libtransparent.c:283-298 | from every reachable state a `read` or `write` that would block is a pause: whatever the others do, the handler makes the same call again when it is switched to |
| HandlerCalls.RequestIsServed | transparent-runtime/hostile_server.c:22-34 | from every reachable state at a yield, a handler that is not barred serves a whole request: both counters go up by one, and handler lock and mutex are free again |
| HandlerCalls.GoneIsOver | transparent-runtime/hostile_server.c:24-34 | over every run a handler that is gone never runs again |
| HandlerLock.GuardedLosesNothing | transparent-runtime/hostile_server.c:24-32 | with enforcement or the server's own mutex, shared equals total in every reachable state and at most one update is in flight |
| HandlerLock.SafeIffGuarded | transparent-runtime/hostile_server.c:24-32 | no schedule loses an update exactly when handlers are guarded, or there is at most one |
| HandlerLock.RaceLoses | transparent-runtime/hostile_server.c:27-31 | the unguarded schedule that loses an update: two requests counted, one in the counter |
| HandlerLock.LossIsBounded | transparent-runtime/hostile_server.c:35-36 | guarded or not, the reported loss is never negative and never everything |
| HandlerLock.StepKeeps | transparent-runtime/libtransparent.c:143-144 | every call of a handler keeps ownership and exclusion |
| HostileServer.Server.ReadCall | transparent-runtime/libtransparent.c:283-288 | one turn of the acquire loop before the read: spin if another handler has the lock, else own it under enforcement |
| HostileServer.Server.RealRead | transparent-runtime/hostile_server.c:25 | what a read result leads to |
| HostileServer.Server.BeginUpdate | transparent-runtime/hostile_server.c:26-28 | lock, read the counter, park in the offload |
| HostileServer.Server.FinishUpdate | transparent-runtime/hostile_server.c:29-31 | write the counter back, unlock, count |
| HostileServer.Server.WriteCall | transparent-runtime/libtransparent.c:291-295 | before the write the owner releases the handler lock |
| HostileServer.Server.Run | transparent-runtime/hostile_server.c:22-34 | a handler run to its next yield, for any system call results; a guarded server has lost nothing there |
| LibAccel.DoneMeansFinished | transparent-runtime/libaccel.c:72-80 | whenever a caller may see `done`, its buffer holds the transform of what it submitted, applied exactly once; before that at most once |
| LibAccel.ActsOnWrittenSlots | transparent-runtime/libaccel.c:50-52 | the device transforms only the buffer and length of the slot's current submission, after both were written, untransformed; no other access of the device changes a buffer |
| LibAccel.EarlyNeedsReuse | transparent-runtime/libaccel.c:50-76 | runs of at most m submissions never see the device act before `busy` is set exactly when m is at most NSLOT |
| LibAccel.ReuseCanBeEarly | transparent-runtime/libaccel.c:50-76 | the schedule that breaks it: the device saw the previous user's `busy` and old deadline |
| LibAccel.StepKeeps | transparent-runtime/libaccel.c:44-80 | every access of callers and device keeps the slot invariant |
| LibAccelRuntime.Library.AccelSubmit | transparent-runtime/libaccel.c:72-78 | the submission's accesses in order, and the slot they leave |
| LibAccelRuntime.Library.AccelDone | transparent-runtime/libaccel.c:79 | a true answer means the buffer holds the transform of what was submitted |
| LibAccelRuntime.Library.AccelRelease | transparent-runtime/libaccel.c:80 | the slot is given back |
| LibAccelRuntime.Library.DeviceAt | transparent-runtime/libaccel.c:49-54 | at one slot the device marks a due submission done and only ever sets `done` |
| LibAccelRuntime.Library.Sweep | transparent-runtime/libaccel.c:47-55 | one sweep finishes every slot that was due when it began |
| LibAccelRuntime.Library.AccelEncrypt | transparent-runtime/libaccel.c:83-87 | the blocking call returns, with its buffer transformed once and its slot released |
| FiberSwitch.SwapRoundTrip | runtime/fw_switch.S:22-38 | switching out and back restores registers, return address and stack pointer whatever happens to memory outside the frame and the save slot |
| FiberSwitch.SwitchRestores | runtime/fw_switch.S:22-79 | a switch resumes exactly the parked context of its target and parks the one it leaves |
| FiberSwitch.ResumesWhereItLeft | runtime/fw_switch.S:22-87 | for any sequence of switches among fibers with disjoint stacks, a fiber resumes with the registers, stack pointer and live stack it last switched out with; one that never ran arrives in the trampoline with its own address |
| FiberSwitch.ContextIsFromLastSwitch | runtime/fw_switch.S:22-38 | the parked context is the one of the last switch away |
| FiberSwitch.WorkKeeps | runtime/fw_switch.S:3-10 | a running fiber that touches no foreign stack disturbs no parked one |
| FiberSwitch.StackSize | runtime/fw_fiber.c:29-31 | the stack is a whole number of pages, at least 16384 bytes and what was asked for, less than a page more |
| SwitchCode.X86Machine.FwCtxSwap | runtime/fw_switch.S:22-38 | the x86_64 instructions compute the specified switch |
| SwitchCode.X86Machine.Trampoline | runtime/fw_switch.S:46-49 | the starter gets the fiber's address on a 16-byte aligned stack |
| SwitchCode.ArmMachine.FwCtxSwap | runtime/fw_switch.S:59-78 | the aarch64 instructions compute the same switch with their own frame |
| SwitchCode.ArmMachine.Trampoline | runtime/fw_switch.S:83-87 | the starter gets the fiber's address |
| SwitchCode.FwFiberMake | runtime/fw_fiber.c:26-75 | all six fields of the structure are set (stack pointer, block, size, entry, argument, link); the first frame lies inside the page-rounded block below its aligned top and holds the fiber's address and the trampoline; the rest of the block is zero and no other memory is touched |
| SwitchCode.MakeFibers | runtime/conflict_detector.c:94-95 | a dispatcher's start-up loop leaves every fiber as made |
| SwitchCode.MadeFibersStart | runtime/fw_fiber.c:26-75 | the memory it leaves is a start state of the theorems about switches: every made fiber is ready for its first switch |
| BlockAllocator.EveryBlockInOnePlace | conflict-measurement/inference_skel.c:39-60 | every block is free or in exactly one handler's list, never both; the free stack has no duplicates; no block was ever handed out twice; none is lost |
| BlockAllocator.QueueIsBusyHandlers | conflict-measurement/inference_skel.c:44-59 | head minus tail is the number of handlers between enqueue and free |
| BlockAllocator.CompleteRun | conflict-measurement/inference_skel.c:66-81 | a complete run ends with the free stack a permutation of all blocks, no owners, an empty queue and every iteration handled |
| BlockAllocator.TurnsDecide | conflict-measurement/inference_skel.c:42-62 | under every schedule a handler is exactly as far as its own turns have brought it, three to an iteration: nobody waits and no turn is lost |
| BlockAllocator.EnoughTurnsComplete | conflict-measurement/inference_skel.c:39-81 | so a schedule that gives every handler its turns ends with all blocks free, an empty queue and every iteration handled |
| BlockAllocator.ServedIffEnough | conflict-measurement/inference_skel.c:47-52 | no handler is ever refused a block exactly when there are enough blocks for all handlers at once |
| BlockAllocator.TakeOk | conflict-measurement/inference_skel.c:47-52 | taking n blocks gives distinct free ones, as many as there are |
| BlockAllocator.GiveOk | conflict-measurement/inference_skel.c:58 | giving back returns each block once |
| BlockAllocator.StepKeeps | conflict-measurement/inference_skel.c:39-64 | every critical section keeps the allocator's invariant |
| AllocatorRuntime.Server.Allocate | conflict-measurement/inference_skel.c:46-53 | the allocation loop is the specified taking |
| AllocatorRuntime.Server.Free | conflict-measurement/inference_skel.c:57-61 | the freeing loop is the specified giving back, and dequeues |
| AllocatorRuntime.Server.Turn | conflict-measurement/inference_skel.c:42-62 | a handler's next critical section is one step of the specification |
| BlockAllocator.MissingAreOwned | conflict-measurement/inference_skel.c:74-77 | under every schedule as many blocks are missing from the free stack as have an owner and as handlers hold |
| AllocatorRuntime.Server.Integrity | conflict-measurement/inference_skel.c:74-77 | the end-of-run check counts the owned blocks, which always equal the missing ones, and finds nothing leaked, owned or allocated twice after a complete run |
| SpopVarint.Encode | transparent-runtime/apps/haproxy_accel/spoa_agent.c:37-42 | an encoding is a complete varint with the value it encodes |
| SpopVarint.Reencodes | transparent-runtime/apps/haproxy_accel/spoa_agent.c:37-48 | re-encoding a complete varint gives the same bytes: one representation per value |
| SpopVarint.EncodeLength | transparent-runtime/apps/haproxy_accel/spoa_agent.c:37-42 | one to ten bytes for 64-bit values |
| SpopVarint.SpanOf | transparent-runtime/apps/haproxy_accel/spoa_agent.c:43-48 | varints are prefix-free |
| SpopVarint.DecodesEncoding | transparent-runtime/apps/haproxy_accel/spoa_agent.c:43-48 | decoding an encoding, whatever follows, gives the value and its length |
| SpopVarint.OrByte | transparent-runtime/apps/haproxy_accel/spoa_agent.c:39-40 | the low byte of the bitwise or with 240 or 128 has those bits set and the others of the value: the bytes that the encoder writes |
| SpopVarint.EncVarint | transparent-runtime/apps/haproxy_accel/spoa_agent.c:37-42 | the loop writes exactly the encoding and nothing else |
| SpopVarint.DecVarint | transparent-runtime/apps/haproxy_accel/spoa_agent.c:43-48 | the loop reads exactly one varint and computes its value modulo 2^64 |
| SpopVarint.Be32RoundTrip | transparent-runtime/apps/haproxy_accel/spoa_agent.c:68-71 | the four bytes of a length or a flags word give the number back |
| SpopVarint.Be32Unique | transparent-runtime/apps/haproxy_accel/spoa_agent.c:68-71 | and no other four bytes do |
| SpopVarint.PayloadRoundTrip | transparent-runtime/apps/haproxy_accel/spoa_agent.c:66-69 | the receiver recovers type and ids from a payload, and the flags between them are exactly FLAG_FIN, most significant byte first |
| SpopVarint.AckRoundTrip | transparent-runtime/apps/haproxy_accel/spoa_agent.c:65-73 | an acknowledgement's length prefix is right, its type and flags are ACK and FLAG_FIN byte for byte, and its ids come back |
| SpopVarint.AckEchoesIds | transparent-runtime/apps/haproxy_accel/spoa_agent.c:65-73 | an acknowledgement repeats the request's id bytes verbatim when both ids fit in 64 bits |
| SpopVarint.BuildPayload | transparent-runtime/apps/haproxy_accel/spoa_agent.c:66-70 | the payload fits its 64-byte buffer |
| SpopVarint.SendAck | transparent-runtime/apps/haproxy_accel/spoa_agent.c:65-73 | the frame fits its 80-byte buffer and is the specified acknowledgement |
| SpopVarint.ParseHeader | transparent-runtime/apps/haproxy_accel/spoa_agent.c:107-109 | the header parse reads type, ids and offset of any payload with two whole varints |
| SpopVarint.StringRoundTrip | transparent-runtime/apps/haproxy_accel/spoa_agent.c:50-52 | a string is found behind its length |
| SpopVarint.EncStr | transparent-runtime/apps/haproxy_accel/spoa_agent.c:50-52 | length, bytes, and nothing else |
| CoopErr.RestoresIffFits | conflict-measurement/coop_err.c:53-72 | saving and restoring gives errno and the queue back, whatever ran meanwhile, exactly when the queue fits the buffer; a longer one is cut to the buffer's size |
| CoopErr.SavedIsClean | conflict-measurement/coop_err.c:67-92 | with save and restore no schedule corrupts anything |
| CoopErr.OvertakenIsCorrupted | conflict-measurement/coop_err.c:67-92 | without, under every schedule exactly the checks of coroutines that another one has overtaken since they stamped are corrupted, of errno and of the queue alike; every return is checked once |
| CoopErr.RoundRobinCorrupts | conflict-measurement/coop_err.c:115-124 | without, round-robin among two or more coroutines corrupts every check of errno and of the queue but one; a coroutine alone corrupts none |
| CoopErr.CleanIffSaved | conflict-measurement/coop_err.c:67-92 | no schedule corrupts anything exactly when the state is saved and restored, or there are fewer than two coroutines, or no rounds |
| CoopErr.NextTurn | conflict-measurement/coop_err.c:118-123 | what one turn of the round-robin loop adds |
| CoopErrRuntime.Experiment.ErrDrain | conflict-measurement/coop_err.c:53-58 | the loop keeps the oldest codes and loses the one it popped without room |
| CoopErrRuntime.Experiment.ErrRestore | conflict-measurement/coop_err.c:60-64 | the queue is rebuilt in order |
| CoopErrRuntime.Experiment.Resume | conflict-measurement/coop_err.c:67-95 | one switch to a coroutine is one step of the specification |
| CoopErrRuntime.Experiment.RunAll | conflict-measurement/coop_err.c:115-124 | the loop terminates with the exact counts of both modes |

## Left out

- Sockets, epoll system calls, `mprotect`, signals, `dlsym`, `fork`, thread pinning, statistics and clients: epoll is a
  one-shot armed set, page protection a flag per page, system call results are chosen by the environment.
- Clocks: readings are parameters. The carrier's clock may even go backwards; the servers' and the library's only advance.
- Shutdown: the `stop`, `srv_stop` and `dev_run` flags are never set. Time spent spinning (`REDO_NS`, `WPRE`, `WPOST`) is
  not modelled.
- Integer widths: counters and ids are unbounded, except for the keys, the keystreams and the varints, whose wrap-around is
  modelled. Overflow of 64-bit seconds is not.
- Fixed capacities: `PENDN`, `QN`, `MAXFIB`, `MAXPG` and the size of the batch queue are preconditions of the operations
  that would overflow them; `MAXCONN` is modelled, and so is a full arrival ring.
- `TcoServer.NoneStranded`: connections are told apart by index; the reuse of a freed `struct conn` is not modelled.
- `TcoRuntime.RunCoro`: the kernel is assumed to accept at least one byte from a write that does not fail, as blocking
  forever in the write loop otherwise is not excluded by the source.
- `TcoRuntime.BlockConn`: the connection's slot, which is chosen by file descriptor modulo MAXCONN, and the wait for the
  device are left out; the transform does not depend on them.
- `OpenLoopRuntime.Serve`: the block mode of the same program (`block_worker`) is left out; its threads share the arrival
  ring under a mutex and nothing else.
- `OpenLoopRuntime.Pipeline.ServeFirst`: the latency sample that `record` takes after the warm-up period is left out; the
  count and the order of the records are modelled.
- `PageDetector.PageIndex`: how the regions are found in `/proc/self/maps` is left out; regions are aligned and disjoint.
- `RedisModule.GatedIsSerial`: `DET.RESET` with jobs outstanding, wrong arity and `slot_of`'s hash are left out; a command
  carries its counter.
- `Carrier.SignalMissesNobody`: cross-thread wake-ups through `pend_ring` are a wake-up at an arbitrary step; the ring
  itself, whose head is bumped before the slot is stored, is not part of the model.
- `Carrier.MutualExclusion`: recursive mutexes, read-write locks and real threads contending for a fiber's mutex are left
  out; a fiber unlocks only what it holds.
- `CarrierRuntime.Runtime.YieldIo`: which readiness is asked for (input or output), a failing `epoll_ctl` and the closing
  of a polled descriptor are left out; an armed descriptor's event may come at any step.
- `CarrierRuntime.Runtime.Switch`: the carrier's calls into the detector (`det_park`, `det_reprotect`) are left out; the
  version clock is proved on the Redis module.
- Per-fiber `errno`, error queue and thread-specific data in the carrier: the queue cannot be restored there (`ssl_err_put`
  is never resolved), so the round trip is proved on the experiment in `CoopErr`.
- `HandlerLock.OneHandlerInSection`: a handler that ends while it owns the lock does not release it, and switching
  enforcement on in the middle of a run (`det_conflicts > 0`) is not modelled.
- `LibAccel.DoneMeansFinished`: a transform is one step, since its buffer belongs to the device alone; the callers' rules
  (a slot is released before its id modulo NSLOT is drawn again, one submission per buffer) are guards of the steps.
- `LibAccel.EarlyNeedsReuse`: assumes at least as many buffers as slots, so that all ids can be drawn at once.
- `FiberSwitch.ResumesWhereItLeft`: floating-point control words and signal masks are not saved by the source and not
  modelled; `fw_fiber_start`'s abort without a link is left out.
- `BlockAllocator.EveryBlockInOnePlace`: locked mode only; the unlocked mode races on every variable.
- `SpopVarint.DecVarint`: the source checks neither the end of its buffer nor the shift; its behaviour is undefined in C
  when a varint runs past the buffer or past ten bytes, so a whole varint of at most ten bytes is a precondition.
- `SpopVarint.ParseHeader`: the same holds for its two varints. The agent's job ring, its worker pool and the HELLO frame's
  key list are left out.
- `SwitchCode.FwFiberMake`: the allocator's block is a parameter, page-aligned as `posix_memalign` promises; a failed
  allocation aborts and is not modelled.
- `NaiveRuns.SafeIffApart`: stated for the source's post-processing, the increment, as for others a lost update need not
  show in the sum, and for a latency above 0, as L_NS is.
- `CoopErr.RestoresIffFits`: an error code is its library and reason, and the library's own limit on the queue's length is
  not modelled.
- `runtime/accel_compare.c`: its coroutine dispatcher repeats that of the conflict detector, and its other modes do not
  follow the slot protocol. GPU, OpenSSL, zlib and the glue for other servers are left out.
