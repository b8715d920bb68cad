# Firmware runtime, controller and hub: model and proofs

The repository holds two AVR firmwares that share a small runtime (`asx`). The controller drives a
machine door, merges requests by priority and sends one opcode at a time over I2C; the hub opens at most
one pneumatic valve for the opcode it last accepted. This project models the runtime and both
applications in Dafny and proves what they keep over every run.

The project is layered as the firmware is.

* `Rings`, `RingQueue`, `QueueHistory` - the ring buffer of `queue.c` as a class over an array, and what a
  handler receives out of everything it was notified with.
* `ReactorModel`, `Reactor` - the reactor as a class with its handler table, lookup table and notification
  word. A ghost history of notifications and takes is replayed to give the queues, so that the word, the
  ring buffers and the history always agree. `ReactorModel.Pick` is the scheduler as a value.
* `TimerModel`, `TimerRuns`, `TimerCounts`, `TimerService`, `TimerDriver` - the timer list as a sorted
  sequence on unbounded time; what every run of arms, cancels, ticks and dispatches keeps; the 32-bit count
  arithmetic and its rollover; the imperative service over rotating slots, proved to refine the first; and
  its whole runs, proved to be those of the list.
* `Runtime` - timers and queues together, as an application sees them: what interrupts and drivers may do
  around its handlers (`EnvOp`), what reaches the handlers that only its own timers notify, and why its
  rounds are those of the reactor's loop.
* `ControllerModel`, `Controller`, `ControllerRuns`, `ControllerCalls` - the controller's handlers as values and
  as a class over the timer service, the invariant of its runs, and what they make of what they are told, pin by pin.
* `ControllerPace`, `DoorTimeouts`, `DoorResets`, `DoorStaleRun` - what resetting a movement's timeout is
  worth: when exactly it is honoured, and runs in which it is not.
* `HubModel`, `HubProtocol`, `HubRuns`, `HubCalls` - the same for the hub.
* `HubPrompt`, `HubPace`, `HubChatter` - the hub's guarantees in milliseconds, and the exact limit of its rule
  against fast switching.
* `Windows`, `DigitalInput`, `Pins` - counters that do not go below zero are the largest window sum; the
  error counter and the input filter both are such counters.
* `OpCodes`, `Twim`, `Twis`, `WireExchange`, `WireDelivery`, `WireFaults` - the wire bytes, the master and slave
  drivers as classes, both on one bus with faults, what a fault-free transfer delivers, and what each fault is
  reported as. The transfer is the combined
  format (repeated START) of section 3.1.10 of NXP UM10204.
* `Tune` - the tune parser against a writer of notes, and what its letters, signs, marks and digits sound like.

A run of an application is a sequence of loop rounds. In each, interrupts may act between the snapshot of
the flags and the critical section, drivers and interrupts may act in the middle of the handler, and again
after it. The run theorems hold for every such sequence and for every outcome of the priority sort, unless
a row says otherwise. Where a run is exhibited, or all continuations of a state are considered, only steps
that the loop can take in real time are used (`ControllerPace.CanTake`, `HubPace.CanTake`): it sleeps only
with nothing queued, each tick wakes it, and a handler is called before the 1 s watchdog of
`asx/src/reactor.c:239` expires.

Where code and comments differ the model follows the code:

* `asx/src/timer.c:344` re-arms a repeating timer with a null argument, so only its first notification carries
  the argument given. A repeating timer has no instance a caller could cancel
  (line 301), although the comment at line 363 says cancelling stops repeating timers. The comment at line 250
  speaks of dropping the oldest slot; the alert stops the firmware instead.
* `asx/src/reactor.c:301` calls the strategy round-robin; after each call the search starts again at the highest priority.
* `hub/protocol.c:106` says the check runs every second; line 172 repeats it every two.
* `README.md:59` says that resetting a movement's timer makes its expiry do nothing. For every state that
  keeps the run invariant and every sensor event that resets the timer, that is so in all continuations
  exactly when no timeout is queued and no movement timer is live but the one `valve::timer` holds
  (`DoorResets.ResetHonouredIff`). Both conditions fail in runs the loop can take: `DoorStaleRun.StaleRun` for
  a timeout that waits behind the sensor, and `DoorStaleRun.OrphanRun` for a timer that outlived a movement
  ended by such a timeout, since the timeout rows do not cancel.
* `hub/protocol.c:54` promises to avoid fast switching. The check and accept handlers have equal priority. Under
  every outcome of the sort the promise is kept while check and accept calls together come less than 1000 ms late
  and fewer than 65536 messages arrive between two checks (`HubPrompt.SpacedWhilePrompt`). Among the runs the loop
  can take before its watchdog expires, all keep it exactly when the sort puts the accept handler first
  (`HubChatter.SpacedIffAcceptAhead`): otherwise one check called 1000 ms late, with every accept on time, breaks it.
* `asx/src/piezzo.c:340` shows tunes whose notes leave the digit out; the last note may do so only if it is a rest.

## Model

| member | source | states |
|---|---|---|
| RingQueues.RingQueue.constructor | asx/src/queue.c:24-39 | A new queue is empty; its 8-bit positions ask for 1 to 128 slots |
| RingQueues.RingQueue.IsEmpty | asx/src/queue.c:54-59 | True exactly when nothing is queued |
| RingQueues.RingQueue.Push | asx/src/queue.c:61-75 | Appends behind the newest item, or refuses a full queue and leaves it alone |
| RingQueues.RingQueue.PopFront | asx/src/queue.c:77-92 | Takes the newest item and keeps the others in order; false when empty |
| RingQueues.RingQueue.PushBack | asx/src/queue.c:94-108 | Puts the item before the oldest one, or refuses a full queue |
| RingQueues.RingQueue.Pop | asx/src/queue.c:110-125 | Takes the oldest item and keeps the others in order; false when empty |
| RingQueues.RingQueue.PushRing | asx/src/queue.c:127-142 | Appends always; a full queue loses exactly its oldest item |
| RingQueues.PushedRingSlots | asx/src/queue.c:127-142 | On any ring of slots, the write at the tail and the move of the head give that queue, wrapped or not |
| QueueHistory.PlayKeepsOrder | asx/src/queue.c:110-142 | For every history: the queue is a suffix of the arrivals, items are taken in order and unchanged, and one is lost only after at least capacity later arrivals |
| ReactorModel.ReplayIsPlay | asx/src/reactor.c:157-167 | Each handler's queue depends on its own notifications and takes alone and is the queue history above |
| Reactors.Reactor.Register | asx/src/reactor.c:134-150 | Handles are given out in order; earlier notifications, also those raised before the run, stay queued |
| Reactors.Reactor.Notify | asx/src/reactor.c:157-167 | The flag is raised and the argument queued so that word and queues still agree, overwriting the oldest when full |
| Reactors.Reactor.SortByPriority | asx/src/reactor.c:192-224 | For any permutation of non-increasing priority, the handler at position i gets bit i, what was notified before moves to the new bits, and word and queues agree again |
| ReactorModel.HigherIsAhead | asx/src/reactor.c:170-186 | Strictly higher priorities come first in every outcome of the sort |
| ReactorModel.SomeSchedule | asx/src/reactor.c:170-186 | The sort has an outcome for every list of priorities |
| Reactors.LowestFlag | asx/src/reactor.c:265-307 | The shifting search finds the lowest set flag of the snapshot |
| Reactors.Reactor.LowestFlagIsPick | asx/src/reactor.c:260-281 | That flag belongs to the handler of highest priority that has something queued |
| ReactorModel.ReplayKeeps | asx/src/reactor.c:260-282 | No notification in between empties a queue, so a snapshot stays a subset of the word and the alert on a failed pop cannot fire |
| Reactors.Reactor.PopAndClear | asx/src/reactor.c:281-291 | The oldest item is taken, the flag cleared exactly when that was the last one; the alert is asserted unreachable |
| Reactors.Reactor.Take | asx/src/reactor.c:276-296 | The critical section keeps word, queues and history in agreement, whatever was notified since the snapshot |
| Reactors.Reactor.Round | asx/src/reactor.c:243-308 | With any notifications between snapshot and critical section, one round calls the highest-priority handler of the snapshot with its oldest item, and calls nothing exactly when nothing was queued |
| ReactorModel.PickIsHighest | asx/src/reactor.c:192-224 | When a handler runs, no strictly higher-priority handler had anything queued at the snapshot |
| Reactors.Reactor.RunUntilIdle | asx/src/reactor.c:243-308 | Left alone, the loop ends with nothing queued, having made exactly the calls of all queued items, queue after queue in priority order, each first-in first-out |
| ReactorModel.DrainIsPriorityOrder | asx/src/reactor.c:243-308 | The calls that the loop makes one by one add up to that order, one per queued item |
| TimerServices.TimerService.constructor | asx/src/timer.c:166-190 | Every slot is marked free, and the service denotes the empty timer list |
| TimerServices.TimerService.AlertIffFull | asx/src/timer.c:251-254 | The test of the alert is true exactly when every slot is in use, which the two indices alone cannot tell |
| TimerServices.TimerService.FindInsertPoint | asx/src/timer.c:246-271 | Stops behind every entry that is not later by signed distance, in front of the first that is |
| TimerServices.TimerService.MakeRoom | asx/src/timer.c:273-284 | The used slots from the insertion point on move one to the right, around the end of the array |
| TimerServices.TimerService.Arm | asx/src/timer.c:235-302 | Stable insertion by signed distance on the list the slots denote; other entries keep their order, exactly the free slots stay marked, repeating timers return no instance |
| TimerServices.TimerService.CloseGap | asx/src/timer.c:391-402 | The slots right of the cancelled one move one to the left, around the end of the array |
| TimerServices.TimerService.Cancel | asx/src/timer.c:376-418 | Removes the instance and keeps the others in order; true exactly when it was live, except that a list filling every slot reads as empty |
| TimerServices.TimerService.ArmAfter | asx/src/timer.c:199-203 | An arm relative to now is the stable sorted insertion on plain numbers while no count rolls over and a slot is free |
| TimerServices.TimerService.IsrTick | asx/src/timer.c:310-319 | The count advances modulo 2^32, the list stays, the dispatcher is notified |
| TimerServices.TimerService.RearmActive | asx/src/timer.c:342-345 | A repeat is inserted at its old deadline plus its period behind the entry still in front, even when that takes the last slot |
| TimerServices.TimerService.DispatchRound | asx/src/timer.c:332-357 | With ticks landing in between, a round fires the first entry exactly when the time read at the start has reached it, and notifies it |
| TimerServices.TimerService.Dispatch | asx/src/timer.c:326-358 | Ends although repeats are armed inside it; notifies exactly the futures of the reference dispatch, in order, with the ticks that landed meanwhile mixed in |
| TimerDriver.Drive | asx/src/timer.c:235-418 | Whole runs of the 32-bit service: for any arms, cancels, ticks and dispatches within its bounds the slots denote the list of the run on plain times, the same cancels succeed, and the reactor is told what that run logs, in its order |
| TimerModel.OverdueShrinks | asx/src/timer.c:332-357 | The termination measure: the summed lateness of all live timers drops in every round, re-arm included |
| TimerModel.InsertSound | asx/src/timer.c:256-295 | Insertion keeps the list sorted with ties in arm order, and the instances unique |
| TimerModel.FireSound | asx/src/timer.c:326-358 | After a dispatch no live timer is due, and the list is sorted still |
| TimerModel.ForFire | asx/src/timer.c:326-358 | A handler's one-shot timers are conserved: what a dispatch notified and what is left are what there was, in order |
| TimerCounts.DistanceOfTimes | asx/src/timer.c:124-129 | For any two times within half the range of each other, on either side of a rollover, the signed distance of their 32-bit counts is the difference of the times |
| TimerCounts.OrderIgnoresReference | asx/src/timer.c:124-129 | So the signed order of two counts is that of their times from any reference time within half the range of both |
| TimerCounts.SortedStaysSorted | asx/src/timer.c:262-264 | A list sorted by signed distance stays sorted while the clock goes on by any number of counts, rolling over or not, that leaves no deadline half the range behind |
| TimerCounts.InsertKeepsSorted | asx/src/timer.c:256-271 | Insertion by signed distance keeps that order, wherever the counts stand |
| TimerCounts.TickKeepsSorted | asx/src/timer.c:310-319 | So does every tick, also the one that rolls the clock over |
| TimerCounts.OrderIsUnsigned | asx/src/timer.c:262-264 | Without rollover it is the plain order that dispatch uses at line 336 |
| TimerCounts.InsertByDistanceIsInsert | asx/src/timer.c:256-271 | So the list built by signed distances is the sorted list of plain numbers |
| TimerCounts.RolloverGoesFirst | asx/src/timer.c:262-264 | Across a rollover the two orders part: a deadline half the range ahead goes in front of one already due |
| TimerRuns.RunsKeepInv | asx/src/timer.c:235-418 | Over every run each armed instance is exactly one of live, notified and cancelled, as armed, and in deadline order |
| TimerRuns.FireAllIsFire | asx/src/timer.c:326-358 | The dispatch of the histories is the reference dispatch with its notifications logged |
| TimerRuns.NotifiedOnceInTime | asx/src/timer.c:336-339 | Every notification is of something armed, at or after its count, and never a second time |
| TimerRuns.NotifiedInDeadlineOrder | asx/src/timer.c:256-271 | Of two futures armed before either fires, the earlier deadline is notified first, ties in arm order |
| TimerRuns.CancelledNeverNotified | asx/src/timer.c:376-418 | After a cancel that returned true the instance is notified in no continuation |
| TimerRuns.DispatchNotifiesAllDue | asx/src/timer.c:326-358 | After a dispatch an instance whose count was reached has been notified exactly when it was not cancelled |
| Runtime.HappenAllKeeps | asx/src/timer.c:310-319 | Nothing that interrupts and other drivers do touches the application's own timers and the queues only they feed |
| Runtime.DispatchEffect | asx/src/timer.c:326-358 | For one handler: its queue gets the arguments of its due timers in order, and its one-shot timers are split into notified and live |
| Runtime.ForFireRepeating | asx/src/timer.c:342-345 | A handler's only repeating timer stays its only one, with its deadlines on one grid however late dispatch runs |
| Runtime.RepeatsForget | asx/src/timer.c:342-345 | Of a repeating timer only the first notification carries the argument it was armed with |
| Runtime.ServedRound | asx/src/reactor.c:260-296 | A round that the reactor serves takes, after the notifications of the surroundings, the oldest item of the handler picked before them, and nothing else is such a round |
| Runtime.Restarted | controller/main.cpp:165-176 | Cancel through the variable and arm again: the handler's one timer is replaced, everyone else's timers stay |
| Windows.LevelIsLargestWindow | controller/main.cpp:328-377 | A counter that stops at zero equals the largest sum of any window ending now |
| Windows.ReachedAppend | controller/main.cpp:328-358 | It reaches a threshold at the first step at which some window does |
| Controllers.Controller.constructor | controller/main.cpp:79-104 | The static initial values: idle, no row active, in grace, counting from zero |
| Controllers.Controller.TriggerNextTransmit | controller/main.cpp:165-176 | A pending transmission is cancelled and one armed 1 ms ahead, on the real timer service |
| Controllers.Controller.RefreshOpcode | controller/main.cpp:179-202 | The command becomes that of the first active row; only a change triggers a transmission |
| Controllers.Controller.OnInputChange | controller/main.cpp:295-316 | The row of the pin takes the value and the command follows; other pins change nothing |
| Controllers.Controller.OnSendCommand | controller/main.cpp:138-158 | Sends unless stopped or busy; a busy bus counts as an error; the next send is armed 100 ms ahead unless stopped already |
| Controllers.Controller.OnI2cError | controller/main.cpp:328-358 | The 8-bit counter rises by two after grace and latches the stop at 100 |
| Controllers.Controller.OnI2cRead | controller/main.cpp:364-378 | A good reply takes one off, never below zero |
| Controllers.Controller.StartMoving | controller/state_machine.hpp:36-57 | The door's request row is set, the command follows, and the limit of 3 s is armed |
| Controllers.Controller.Arrive | controller/state_machine.hpp:42-63 | The request row is cleared, the command follows, and the movement's timer is cancelled |
| Controllers.Controller.KeepMoving | controller/state_machine.hpp:70-73 | The limit starts again, at 8 s |
| Controllers.Controller.ProcessEvent | controller/state_machine.hpp:80-99 | State first, then the action, as the transition table says; an event without a row changes nothing |
| Controllers.Controller.OnDoorSensorChange | controller/main.cpp:230-261 | The down sensor going high closes a closing or unknown door, the up sensor going high opens an opening or unknown one, and no other edge changes the door's state; the rest is as the state machine does it |
| Controllers.Controller.OnDoorCommand | controller/main.cpp:214-227 | A high command input starts opening a closed door and a low one closing an opened door, and nothing else |
| Controllers.Controller.OnCommsGraceOver | controller/main.cpp:131-135 | Errors count from now on |
| Controllers.Controller.OnCommandTimeout | controller/main.cpp:205-208 | The timeout is fed to the state machine |
| ControllerRuns.TriggerKeeps | controller/main.cpp:165-176 | With no transmission queued, re-triggering leaves exactly one pending and everyone else's timers alone |
| ControllerRuns.CallKeeps | controller/main.cpp:68-77 | Every handler call keeps the run invariant, given the priorities of the handler table |
| ControllerRuns.RunsKeepInv | controller/main.cpp:380-423 | The run invariant holds at the start and between any two rounds of every run |
| ControllerRuns.StepServes | asx/src/reactor.c:243-308 | With its queues as the reactor's history left them, a round of a run is the handler call that the reactor's loop serves, and what follows it |
| ControllerRuns.OneTransmissionPending | controller/main.cpp:138-176 | Over every run at most one transmission is armed or queued, and exactly one until transmission stops |
| ControllerRuns.MovementNeverUnguarded | controller/state_machine.hpp:28-73 | Whenever the door's valve is requested, its timeout is armed at most 8 s ahead or queued already |
| ControllerRuns.CommandArbitration | controller/main.cpp:86-92 | The request rows mirror opening and closing, and each of the five commands and idle is current exactly under its own condition on them, the door's only while it moves and no chuck or blast request is active |
| ControllerRuns.StopsAtFirstBadWindow | controller/main.cpp:328-358 | Transmission stops exactly when some window of the error log first adds up to 100, and not in the first 5 s |
| ControllerRuns.CounterNeverWrapsWhileSending | controller/main.cpp:328-358 | The byte equals the window maximum up to and including the latching error, at most 101 |
| ControllerCalls.CallMovesDoor | controller/state_machine.hpp:80-99 | What each handler call makes of the door, pin by pin; a sensor that goes low as its movement leaves it restarts the limit at 8 s and a movement starts with 3 s |
| ControllerCalls.StepMovesDoor | controller/main.cpp:205-261 | In every round of a run the door moves exactly as what the called handler was told says |
| ControllerCalls.ArrivesOnlyAtItsSensor | controller/main.cpp:230-261 | The door becomes closed only in a round that reports the down sensor high, and opened only in one that reports the up sensor high |
| ControllerCalls.StepSetsRow | controller/main.cpp:295-316 | In every run the row of each input is the value last reported for its own pin |
| ControllerCalls.StepCounts | controller/main.cpp:328-378 | In every round the error log grows by two for an error or a busy bus after the grace period, by minus one for a good reply, and by nothing else; only its timeout ends the grace period |
| ControllerCalls.CallSends | controller/main.cpp:138-202 | A new command goes out 1 ms later, an unchanged one when it would have, and a transmission is followed by the next 100 ms later |
| ControllerCalls.SendsOnTime | controller/main.cpp:404-423 | In every run a transmission is pending until the stop, at most 100 ms ahead, and the end of the grace period stays armed for 5 s after start-up, or queued, until it is called |
| DoorTimeouts.ArrivalCancels | controller/state_machine.hpp:42-63 | Arrival removes exactly the movement's own timer; exactly the timeouts already queued survive |
| DoorTimeouts.StaleTimeoutEndsNextMovement | controller/state_machine.hpp:86-97 | A timeout queued when an opening ends then ends the closing after it, whose own timer has its full 3 s to run |
| DoorResets.OrphanRemains | controller/state_machine.hpp:28-34 | A live movement timer that the variable has stopped naming cannot be stopped: in every continuation it is live still or has expired |
| DoorResets.QueuedRemains | asx/src/reactor.c:276-296 | In every continuation a queued timeout is queued still, or one has been given to the state machine |
| DoorResets.OnlyNewExpire | controller/state_machine.hpp:42-73 | With no timeout queued and only timers from some instance on live, in every continuation only such timers expire, and each is given to the state machine at most once |
| DoorResets.ResetHonouredIff | controller/state_machine.hpp:42-73 | After a sensor event that ends a movement or shows it under way, no earlier timer expires and no earlier timeout is delivered in any continuation the loop can take, if and only if no timeout was queued and no movement timer was live but the one the variable named |
| DoorStaleRun.StaleRun | controller/state_machine.hpp:70-73 | Under any outcome of the sort, a run the loop can take, a dispatch per tick, ends an opening in the round after its timer was restarted with 8 s to go |
| DoorStaleRun.ClosingCutShort | controller/state_machine.hpp:42-46 | With the sensor handler ahead of the command's, such a run ends a closing that has just started by the timeout of the opening before it |
| DoorStaleRun.OrphanRun | controller/state_machine.hpp:86-97 | Under any outcome of the sort, such a run leads to an arrival that finds no timeout queued and is not honoured, because a timer that outlived its own movement is live still |
| HubProtocols.HubProtocol.constructor | hub/protocol.c:163-175 | First check after 5 s, then every 2 s |
| HubProtocols.HubProtocol.Apply | hub/protocol.c:60-103 | Each of the five outputs is on exactly for its own command, no command is accepted, and the accept timer restarts for 1000 ms |
| HubProtocols.HubProtocol.OnCheckComms | hub/protocol.c:109-121 | Without a message since the last check the outputs go off and the hub is idle; the count restarts |
| HubProtocols.HubProtocol.OnAcceptAgain | hub/protocol.c:126-132 | Ready again, and the instance is forgotten |
| HubProtocols.HubProtocol.OnTraffic | hub/protocol.c:143-160 | A valid byte counts; it is applied when it differs from the current command and the hub is ready |
| HubRuns.StepServes | asx/src/reactor.c:243-308 | A round of a run is the handler call that the reactor's loop serves, and what follows it |
| HubRuns.ValveNeedsRecentMessage | hub/protocol.c:60-121 | Over every run the outputs are those of the current command, at most one is on, and only if a valid message was handled since the check before the last |
| HubRuns.CheckShutsWhenSilent | hub/protocol.c:109-121 | A check shuts the valves exactly when the messages since the last are a multiple of 65536, so with fewer exactly when there was none |
| HubRuns.CheckAlwaysArmed | hub/protocol.c:168-174 | In every run exactly one check is armed, every 2 s from 5 s after start-up on, and its deadlines never drift off that grid |
| HubRuns.RunsAreQuiet | hub/protocol.c:88-132 | With the accept handler ahead: not ready means one accept pending for the end of the quiet period, ready means none and the period over |
| HubCalls.EachValveFollowsItsCommand | hub/protocol.c:60-89 | In every run each of the five valves is on exactly while its own command is the current one |
| HubCalls.TrafficIsApplied | hub/protocol.c:143-160 | The eight known bytes count as messages; one that is not the current command is applied exactly if the hub is ready, opening its valve alone and arming the accept timer for 1000 ms; anything else changes no output |
| HubCalls.CommandChangesOnlySo | hub/protocol.c:109-160 | The current command changes only to a known byte received while ready, or to idle by a check without messages |
| HubCalls.NeverStaysDeaf | hub/protocol.c:88-132 | Under every outcome of the sort and in every run, a hub that is not ready has the end of that armed at most 1000 ms ahead, or queued |
| HubPrompt.SpacedWhilePrompt | hub/protocol.c:88-132 | Under every outcome of the sort a change by traffic comes at least 1000 ms after the previous application, while checks and accepts together are called less than 1000 ms late and fewer than 65536 messages come between two checks |
| HubPrompt.ValveGoesOffInTime | hub/protocol.c:109-121 | While checks are called less than a period late, no valve is on later than 4 s and that lateness after the last valid message was handled, or 7 s and that lateness after start-up |
| HubChatter.SpacedIffAcceptAhead | hub/protocol.c:143-160 | Every change by traffic comes at least 1000 ms after the previous application, in all runs the loop can take in real time, exactly when the sort puts accept ahead of check |
| HubChatter.ChatterRun | hub/protocol.c:163-175 | Otherwise: a run the loop can take, from any start-up that leaves no time gone and nothing queued, with no check later than 1000 ms and no accept late, that applies a command in the millisecond of the shut-off before it |
| DigitalInputs.DigitalInput.constructor | asx/src/digital_input.c:268-310 | Unknown and empty, with the threshold from the filter time kept in a byte |
| DigitalInputs.DigitalInput.Sample | asx/src/digital_input.c:90-116 | One sample of one input |
| DigitalInputs.Report | asx/src/digital_input.c:118-125 | A change of an input with a handler is notified with its pin and value, and nothing else happens |
| DigitalInputs.SampleInputs | asx/src/digital_input.c:82-130 | Along the linked list each input is sampled once, and its changes are notified in list order |
| DigitalInputs.SampleRepeatedly | asx/src/digital_input.c:82-130 | Call after call, the inputs hold and the reactor is told what all the samples so far make of them |
| DigitalInputs.EachFilterSeesItsPin | asx/src/digital_input.c:90-116 | After any number of calls each linked input's filter has seen exactly the samples of its own pin |
| DigitalInputs.EachChangeIsNotified | asx/src/digital_input.c:118-125 | What is notified about a pin over those calls is exactly the changes of its own filter, in their order |
| DigitalInputs.AddInput | asx/src/digital_input.c:301-309 | A new input goes to the end of the linked list, the others stay as they are |
| DigitalInputs.ThresholdIsTime | asx/src/digital_input.c:296 | The threshold is the filter time in samples of 5 ms, rounded down, exactly for filter times below 1280 ms |
| DigitalInputs.FilterTakesItsTime | asx/src/digital_input.c:90-116 | A new input held high turns on with exactly the sample that completes its filter time, and fewer high samples than that never turn it on |
| DigitalInputs.AddedInputTurnsOn | asx/src/digital_input.c:82-130 | So for an input of the chain, over the samples of all the chain |
| DigitalInputs.TurnsOnAtFirstWindow | asx/src/digital_input.c:93-104 | From empty, an input turns on at exactly the first sample where some window has highs minus lows of at least the threshold |
| DigitalInputs.TurnsOffAtFirstWindow | asx/src/digital_input.c:105-116 | The same from full, for turning off |
| DigitalInputs.ChangesAlternate | asx/src/digital_input.c:118-125 | The notified values of an input alternate and lie at least the threshold number of samples apart |
| OpCodes.ReplyDecodes | common/include/op_codes.h:73-103 | A reply is read as sent exactly when the command it answers is the one remembered, and is an error otherwise unless the two are complements |
| OpCodes.ReplyBytes | common/include/op_codes.h:60-103 | The replies are the command with the on mask 0xA5 or the off mask 0x5A, and differ in every bit |
| Twim.I2cMaster.constructor | asx/src/twim.c:332-343 | The lock is free and nothing reported |
| Twim.I2cMaster.OnComplete | controller/i2c.c:25-50 | The lock is freed and exactly one of value and error reported |
| Twim.I2cMaster.WriteHandler | asx/src/twim.c:188-223 | Address bytes, then data or the repeated START, then STOP and success |
| Twim.I2cMaster.ReadHandler | asx/src/twim.c:233-273 | Stores each byte, acknowledges all but the last, ends with NACK and STOP |
| Twim.I2cMaster.InterruptHandler | asx/src/twim.c:282-321 | Arbitration loss is reported as busy, a bus error or a missing acknowledge as an I/O error, and an interrupt without a cause as a protocol error |
| Twim.I2cMaster.Transfer | asx/src/twim.c:363-394 | Refused while locked, otherwise locked with counters at zero and the right START |
| Twim.I2cMaster.MasterSend | controller/i2c.c:63-86 | Package and remembered command are written before the lock is tried; a refusal is reported |
| Twim.BusySendSpoilsReply | controller/i2c.c:63-86 | A command sent while a transfer holds the lock fails at once, and the running transfer's reply is then understood exactly if both commands are equal |
| Twis.SlaveDriver.constructor | asx/src/twis.c:82-93 | Ready, empty, not aborting |
| Twis.SlaveDriver.AddressMatchHandler | asx/src/twis.c:171-192 | A START addressed to the slave resets both counters and the result |
| Twis.SlaveDriver.ReadHandler | asx/src/twis.c:236-274 | A byte is stored and processed, or refused when eight are held |
| Twis.SlaveDriver.WriteHandler | asx/src/twis.c:283-308 | The next send byte, or the end on a NACK that is not a stale one |
| Twis.SlaveDriver.ProcessData | hub/i2c_slave.c:25-36 | The reply to the first byte with the current pressure is made ready and traffic notified |
| Twis.SlaveDriver.InterruptHandler | asx/src/twis.c:122-163 | Errors, address match, stop and data in the driver's order |
| WireExchange.StepMovesOn | asx/src/twim.c:282-321 | Every interrupt of either side, faulty or not, brings the transfer nearer its end, and reports exactly when it frees the lock |
| WireExchange.EveryTransferEnds | asx/src/twim.c:282-321 | In every state some faulty or clean interrupts lead to, the transfer has reported exactly if the lock is free, at most once, and it is over after 2 interrupts a byte and 4 more |
| WireDelivery.CleanReadDelivers | asx/src/twim.c:188-273 | Without faults and from whatever earlier transfers left, up to 8 address bytes and 1 to 8 send bytes arrive in order on the other side, with one report and the lock free |
| WireDelivery.CleanWriteDelivers | asx/src/twim.c:188-223 | Without faults a write of at most 8 address and data bytes delivers them all in order, with one report and the lock free |
| WireDelivery.PressureIsReadAfterAnyFaults | controller/i2c.c:25-86 | After any faulty commands, each reported once, a clean command reads exactly the pressure the hub saw when it took it |
| WireFaults.FaultsAreReported | asx/src/twim.c:282-321 | Over every run of a transfer the first fault that strikes an interrupt of the master's is reported, as busy, I/O error or protocol error, and nothing else is; without one the report is what the reply decodes to |
| WireFaults.AbsentHubIsAnError | asx/src/twim.c:296-304 | A command whose address nobody acknowledges is reported as an I/O error, whatever the buffer held |
| WireFaults.ReadOnlyIfServed | controller/i2c.c:25-50 | Whatever faults strike, a pressure is reported only if the hub served the command in that transfer, and for the commands of the protocol it is the pressure of that moment |
| WireFaults.EachReadWasServed | controller/i2c.c:25-86 | So for each of any sequence of commands |
| WireFaults.SlaveFaultEndsItsPart | asx/src/twis.c:122-163 | A fault at the slave is kept as its result, nothing is served, and the master is refused or reads a released bus |
| WireFaults.NinthByteIsRefused | asx/src/twis.c:236-274 | A byte without room, or not acknowledged, is not served, and the transfer fails with an I/O error |
| Tunes.Piezzo.ParseNextNote | asx/src/piezzo.c:151-241 | The character loop, stepping next_note back and on, ends and never leaves the string |
| Tunes.Piezzo.Read | asx/src/piezzo.c:159-239 | One character: a letter becomes its place in the scale from C, and next_note is stepped back only when something was read before it |
| Tunes.Scan | asx/src/piezzo.c:157-240 | Always consumes something unless at the end, and keeps the octave within 0 to 4 |
| Tunes.Piezzo.PlayNextNote | asx/src/piezzo.c:244-288 | Each call plays the next of the sounds of the text, and nothing more at its end |
| Tunes.Piezzo.Start | asx/src/piezzo.c:342-360 | The starting octave and durations, with the full period kept in 16 bits |
| Tunes.TuneSoundsAsWritten | asx/src/piezzo.c:151-241 | Any notes written down, with digits optional but for a last pitch, sound as meant: pitches, octaves, durations and slurs |
| Tunes.TuneSoundsAsMeant | asx/src/piezzo.c:151-241 | What is heard is given by nothing but the tables of the keys, halved per octave up and per digit, the marks, and the tildes |
| Tunes.LetterSounds | asx/src/piezzo.c:104-109 | The k-th letter from C sounds the k-th number of the regular row, with b that of the flats and with d that of the sharps |
| Tunes.MarkSounds | asx/src/piezzo.c:196-217 | An apostrophe is an octave up, from the highest to the lowest, and a comma one down, the lowest staying |
| Tunes.SlurSounds | asx/src/piezzo.c:230-233 | A tilde slurs the note behind it and a space does not |
| Tunes.ScaleRises | asx/src/piezzo.c:104-109 | Written from C to B in one octave, on the keys themselves or their flats or sharps, every note is higher than the one before |
| Tunes.SignsBend | asx/src/piezzo.c:104-109 | No flat is above its natural and no sharp below |
| Tunes.LastNoteNeedsItsDigit | asx/src/piezzo.c:161-164 | A last pitch without a digit is heard exactly if it was sounding already |

## Left out

- TimerDriver.Drive: the clock and the deadlines of a whole run stay below 2^32 there, one slot stays free and no deadline is half the range away, because dispatch compares counts without regard to rollover (`TimerCounts.RolloverGoesFirst`); the applications run on unbounded time.
- Interrupts inside a handler: they act at the snapshot, at one point in the middle of a handler where drivers are called, and after it, not at every instruction; the timer service itself takes ticks between any two dispatch rounds.
- TimerServices.TimerService.Dispatch: asks for a free slot on entry, because a list filling every slot reads as empty there; ticks land between its rounds, not inside one.
- TimerServices.TimerService.Arm: arming with every slot used is stopped by the alert, so a free slot is its precondition; TIMER_MAX_CALLBACK is any number from 2 to 128.
- Reactors.Reactor.SortByPriority: the qsort is any permutation sorted by descending priority; the notification word is a sequence of flags, so 1 << handle is flag number handle.
- ControllerRuns.StopsAtFirstBadWindow: the release build only, since the debug build does not count errors.
- WireExchange.EveryTransferEnds: the bus and its flags are an abstract step system; electrical levels, clock stretching, other masters and the waiting loops of twim_acquire and twim_release are not modelled, and the idle test of i2c_is_busy is an input of the send handler.
- Tunes.Piezzo.PlayNextNote: the timer registers, the arming of the next note and the tone overlay are not modelled.
- Twim.I2cMaster.Transfer: only the mode that does not wait, which is the one the controller uses.
- DoorStaleRun.ClosingCutShort: with the two handlers the other way round the command to close would be dropped in the opening state, and no such run is claimed.
- HubPrompt.ValveGoesOffInTime: the lateness of the calls is a premise, since the model has no handler run times.
- Interrupt mode of the digital inputs, which neither application uses.
- Digital outputs, LEDs, beeper and sounder handlers: no effect on door, command or valves; their timers and notifications are steps of the surroundings.
- Allocator, stack paint and alert recording: alerts are assertions shown unreachable or preconditions.
- Clocks, oscillators, watchdog, sleep, register bits, baud rate computation and the build scripts.
- The Boost state machine library beyond two facts: the state changes before the action runs, and an unmatched event changes nothing.
