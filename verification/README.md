# Maybenot: a verified model of the framework runtime and of the simulator

Maybenot runs padding and blocking machines beside a tunnelled connection. This project models
its two state machines and proves what they promise over whole runs.

**The framework runtime** (`crates/maybenot`). Many probabilistic machines share one runtime with
global and per-machine accounting. `FrameworkSpec.dfy` gives the effect of every operation as a
function on values; `Framework.dfy` is the object that updates its fields in place, each method
proved to have exactly that effect. On top of the functions:

- termination of the transition/counter recursion and the bound on CounterZero (`Signals.dfy`)
- the exact account of signal delivery (`Signals.dfy`)
- accounting over runs, with blocked time measured tick by tick (`Accounting.dfy`)
- state limits over a visit: how far they fall, and exactly when they hold (`Limits.dfy`)
- what padding and blocking the limits let through, and the padding budget in closed loop with an
  integrator that keeps one action timer per machine (`PaddingBudget.dfy`)
- what a transition and an event do, by the constructors and fields of states, actions and events
  rather than by the functions that do it: whose action ends up in the slot, when a counter or a limit
  causes another transition, who is asked on what (`TransitionEffects.dfy`, `EventEffects.dfy`)
- validation and the partition of [0, 1) by the sampled transitions (`States.dfy`)

**The discrete-event simulator** (`crates/maybenot-simulator`). Two endpoints have four event heaps
each, action timers, internal timers, blocking, a network with a bottleneck, and delayed increases
of the base delay. `SimEvents.dfy`, `Queues.dfy`, `SimState.dfy`, `Selector.dfy`, `Scheduler.dfy`,
`Simulator.dfy` and `Traces.dfy` give the functions; `EventQueues.dfy`, `Scans.dfy`, `Windows.dfy`
and `SimulatorRuntime.dfy` hold the loops and the objects updated in place, proved equal to them.
On top of the functions:

- the fast selector against a naive minimum, with the exact condition under which it misses
  (`Selector.dfy`) and a run from a trace in which it does (`Overtaking.dfy`)
- termination of the scheduler (`Scheduler.dfy`); no timer, expiry, delay or event is ever lost in
  the past, blocking fails closed, and no panic is reachable (`Timing.dfy`, `SoundRuns.dfy`)
- conservation of packets and of bypass rights (`Conservation.dfy`), and of delays (`Delays.dfy`)
- what is reported to the machines adds up over runs: timers end once, actions are performed once,
  padding is reported as padding (`Reports.dfy`)
- what every branch of the scheduler, the network and the framework's answers does, by slots, heaps and
  the events themselves (`SchedulerEffects.dfy`, `LoopEffects.dfy`), and who wins ties (`Ties.dfy`)
- exactness of the sliding window (`Windows.dfy`)
- the identity of defence-free simulation (`DefenceFree.dfy`), and machines that pad but never block
  leave every packet of the trace where it is (`PaddingOnly.dfy`)

## Conventions

- Time is integer nanoseconds, durations are natural numbers of nanoseconds; differences of
  instants saturate at zero. `Duration::MAX` is the separate value `Never`.
- Fractions and probabilities are reals. Counters and sampled values keep the saturation of u64,
  packet rates the cast to u32; packet counts are natural numbers.
- All randomness is an oracle: a tape of draws for the framework, a tape of lags for the
  simulator. Every theorem holds for every tape.
- A heap is a sequence with an arbitrary rule that names the top among events that nothing
  precedes. The rule may look at the contents and at the number of operations so far.
- In the simulator the framework is an arbitrary oracle that answers every event with at most one
  action per machine, of machines that exist; `FrameworkSpec.ReturnedActions` and
  `FrameworkRuntime.Framework.Trigger` show that the framework keeps this.
- A run of the simulator goes along a script of such answers, of any length. A panic of the source
  is an outcome of its own, and `SoundRuns.RunSound` shows it unreachable.
- History (the raised signals and notes of the framework; in the simulator the events done, whether
  their endpoints were blocking, and the delays pushed) is kept beside the state; no decision reads
  it.

## Where the code differs from its comments

The model follows the code.

- `queue.rs:223` compares a bypassing packet with the first base event by the raw time of the
  latter, without the delay sum. `Overtaking.OvertakenHappens` is a run from a trace that ends in a
  state where the selector answers with an arrival in 7 ms, and the scheduler takes it, while a
  queued packet that may bypass its blocking waits for nothing. `Selector.SelectorExact` says
  exactly when the selector misses the minimum, by what is in the queues before the call;
  `Selector.SideExact` does so for the search of one endpoint.
- `framework.rs:402-408` counts signals, not signalling machines: a machine that signals twice
  makes the target all machines and is signalled itself. `Signals.Delivery` counts signals, and
  `Signals.SignalsItself` is such a machine.
- `queue_event.rs:65-79` asks for more than its comment: no padding may be queued either
  (`Queues.NoNormalMeansNoPadding`, and `Queues.PaddingKeepsGoing` for a queue where they differ).
- `state.rs:91` means to reject an empty transition vector but asks whether the array of vectors is
  empty; an empty vector is rejected by its total all the same.
- `framework.rs:653-683` returns early when no packet was counted and then ignores the state limit,
  although `action.rs:26` documents the limit as the most times that the action is taken.
  `Limits.PaddingPastLimit` says exactly when, `Limits.Exhausted` leaves out exactly that case, and
  `Limits.UsedUpLimitLetsPaddingThrough` is a machine to which it happens.

## Model

| member | source | states |
|---|---|---|
| States.ValidateVector | crates/maybenot/src/state.rs:91-130 | A transition vector is accepted exactly when its targets are real or pseudo-states, pairwise distinct, and the probabilities and their total lie in (0, 1]; a rejection names the first transition at fault and why |
| States.ValidateState | crates/maybenot/src/state.rs:85-146 | A state is accepted exactly when all its vectors and its distributions are valid; a rejection names a vector at fault, or a distribution when no vector is |
| States.ValidateMachine | crates/maybenot/src/machine.rs:78-116 | A machine is accepted exactly when its fractions, its number of states and all its states are valid; the checks fail in their order, with the first invalid state reported |
| States.Sample | crates/maybenot/src/state.rs:149-162 | The running-sum loop returns the first target whose prefix sum exceeds the draw |
| States.SamplingPartitions | crates/maybenot/src/state.rs:149-162 | Target t is sampled exactly when the draw lies in the interval of its one transition; intervals are disjoint and as long as the probabilities; nothing is sampled exactly at or above the total |
| States.TargetIsReal | crates/maybenot/src/state.rs:101-106 | Whatever is sampled in a valid state is one of its own states, the end or a signal |
| FrameworkRuntime.ValidateConfig | crates/maybenot/src/framework.rs:130-139 | The arguments are accepted exactly when both fractions and all machines are valid, the fractions being checked first |
| FrameworkRuntime.Framework.constructor | crates/maybenot/src/framework.rs:123-181 | The new object is well-formed and in the specified start state, limits of the start states sampled in machine order |
| FrameworkRuntime.Framework.StartAll | crates/maybenot/src/framework.rs:174-178 | The loop over the start states samples one limit per start state with an action |
| FrameworkRuntime.Framework.Trigger | crates/maybenot/src/framework.rs:206-260 | A call leaves the object well-formed and in the specified state, and returns its actions: at most one per machine, of existing machines, in their order |
| FrameworkRuntime.Framework.DeliverSignal | crates/maybenot/src/framework.rs:230-256 | The two signal rounds in place have the specified effect |
| FrameworkRuntime.Framework.Process | crates/maybenot/src/framework.rs:262-370 | Accounting and the machine loops of one event in place have the specified effect |
| FrameworkRuntime.Framework.VisitAll | crates/maybenot/src/framework.rs:282-349 | The loop over all machines equals visiting them one after the other |
| FrameworkRuntime.Framework.VisitOne | crates/maybenot/src/framework.rs:262-370 | What one machine sees of one event in place: its own accounting first, then its transition, on the event that EventEffects.EventTable names |
| FrameworkRuntime.Framework.StepAndCount | crates/maybenot/src/framework.rs:299-304 | A transition uses up the limit only if it did not change the state |
| FrameworkRuntime.Framework.Step | crates/maybenot/src/framework.rs:372-449 | A transition in place, recursion through the counters included, has the specified effect and reports the specified change |
| FrameworkRuntime.Framework.Follow | crates/maybenot/src/framework.rs:391-448 | The sampled state is acted on as the end, a signal or a real state, with the specified effect and change |
| FrameworkRuntime.Framework.EndMachine | crates/maybenot/src/framework.rs:393-399 | Reaching the end is a change of state and touches no action |
| FrameworkRuntime.Framework.RaiseSignal | crates/maybenot/src/framework.rs:400-410 | The first signal excludes its machine, any further signal makes the target all machines, whoever raises it |
| FrameworkRuntime.Framework.NextState | crates/maybenot/src/framework.rs:378-389 | The next state is the sampled one; a draw is used up only if the event has transitions |
| FrameworkRuntime.Framework.StepTo | crates/maybenot/src/framework.rs:411-447 | Entering a real state in place, with the outcome that TransitionEffects.EntersState states: limits are judged before the counters move, the action is scheduled after them |
| FrameworkRuntime.Framework.EnterState | crates/maybenot/src/framework.rs:412-424 | Only another state samples a new limit |
| FrameworkRuntime.Framework.Count | crates/maybenot/src/framework.rs:451-521 | Both counters move, and a CounterZero transition decides about scheduling and change |
| FrameworkRuntime.Framework.CountA | crates/maybenot/src/framework.rs:459-483 | Counter A saturates at both ends of u64 and reports zero at most once per call |
| FrameworkRuntime.Framework.CountB | crates/maybenot/src/framework.rs:485-509 | Counter B likewise, copying the value that A had before |
| FrameworkRuntime.Framework.Schedule | crates/maybenot/src/framework.rs:523-558 | The slot of the machine holds the sampled action of its state, or none |
| FrameworkRuntime.Framework.Decrement | crates/maybenot/src/framework.rs:560-574 | The limit falls by one; at zero, with a limit distribution, the action is dropped and LimitReached triggered |
| FrameworkRuntime.Framework.BelowLimits | crates/maybenot/src/framework.rs:576-589 | The decision equals the specified one, action by action |
| FrameworkRuntime.Framework.BelowBlocking | crates/maybenot/src/framework.rs:591-651 | The blocking decision equals the specified one, ongoing blocking included |
| FrameworkRuntime.Framework.BelowPadding | crates/maybenot/src/framework.rs:653-683 | The padding decision equals the specified one, with the zero-total exits |
| FrameworkRuntime.Framework.SampleLimitOf | crates/maybenot/src/action.rs:108-120 | A limit is sampled, rounded and saturated to u64, or the maximum if there is no distribution |
| FrameworkSpec.Transition | crates/maybenot/src/framework.rs:372-521 | Every transition ends: the recursion with the counters uses up the unset zero flags; it keeps the runtime well-formed, moves its own machine only and leaves all accounting alone |
| FrameworkSpec.UpdateBoth | crates/maybenot/src/framework.rs:451-509 | A zero that triggers CounterZero sets a flag that was unset; no flag is ever unset in a call |
| FrameworkSpec.DecrementLimit | crates/maybenot/src/framework.rs:560-574 | Using up the limit keeps the runtime well-formed and all accounting |
| FrameworkSpec.TriggerEvents | crates/maybenot/src/framework.rs:206-260 | After any events every current state is a real state or the end, never a signal, every action names the machine of its slot, and the pending target is the one the raised signals call for |
| FrameworkSpec.Start | crates/maybenot/src/framework.rs:123-181 | A validated configuration starts well-formed |
| FrameworkSpec.ReturnedActions | crates/maybenot/src/framework.rs:258-259 | A call returns at most one action per machine, of existing machines: what the simulator indexes its timers with |
| Signals.Delivery | crates/maybenot/src/framework.rs:226-256 | The pending target before delivery is none, all but the one signaller, or all, as zero, one or more signals were raised since the last take; the first round signals exactly the others in order; the lone signaller is signalled at the end exactly if the round raised a signal; only it can leave a signal pending, which excludes it |
| Signals.SignalledOnce | crates/maybenot/src/framework.rs:226-256 | No machine is signalled twice in one call |
| Signals.SignalsItself | crates/maybenot/src/framework.rs:400-410 | A concrete valid machine that, alone in the framework, raises two signals in one call and is signalled itself |
| Signals.OthersInOrder | crates/maybenot/src/framework.rs:236-244 | A signal round reaches every machine but the excluded one, in increasing order |
| Signals.AtMostTwoCounterZeros | crates/maybenot/src/framework.rs:215-215 | One call triggers CounterZero at most twice, over all events, machines and signals |
| Accounting.RunBalanced | crates/maybenot/src/framework.rs:282-349 | After any run every machine has the blocked time and normal packets of the global books, and no more padding than them |
| Accounting.BlockedTimeIsExact | crates/maybenot/src/framework.rs:312-349 | With a nondecreasing clock, blocked time plus ongoing blocking is the number of ticks at which blocking was on, by an account that reads the events alone, is the same for every machine and never exceeds the time elapsed |
| Accounting.StartBooks | crates/maybenot/src/framework.rs:123-181 | All accounting starts at zero |
| Limits.CallDuringVisit | crates/maybenot/src/framework.rs:299-361 | In a call during which a machine does not leave its state its limit falls by exactly the number of its own PaddingSent, BlockingBegin and TimerBegin in the call, down to zero, and once it is exhausted no action of the machine is returned |
| Limits.LimitHoldsForVisit | crates/maybenot/src/framework.rs:560-574 | Through any number of calls of a visit the limit falls by exactly the uses reported, down to zero, and once it is exhausted it stays so and no call returns an action of the machine |
| Limits.CountedPacketSuffices | crates/maybenot/src/framework.rs:653-683 | Once the machine has counted a packet a used-up limit always holds |
| Limits.ExhaustedExact | crates/maybenot/src/framework.rs:576-683 | With a used-up limit a limited action is held back exactly in an exhausted state |
| Limits.PaddingPastLimit | crates/maybenot/src/framework.rs:653-683 | With a used-up limit padding is let through exactly if the allowance is spent and either the machine has a fraction and counted nothing, or its fraction does not stop it, there is a global fraction and nothing at all was counted |
| Limits.UsedUpLimitLetsPaddingThrough | crates/maybenot/src/framework.rs:660-664 | A concrete valid machine whose limit is used up from the start and that pads all the same at the first packet received |
| TransitionEffects.EntersState | crates/maybenot/src/framework.rs:411-447 | A transition that samples a real state ends there if no counter falls to zero, and the slot of the machine shows the action of that state, field by field, if the limits allow it, and else what it held; after a fall to zero all is as the transition on CounterZero leaves it, but a slot that is empty then shows the action of the entered state if the limits allowed it on entering; a change is reported exactly if the state differs or the chain changed it |
| TransitionEffects.EntersNothing | crates/maybenot/src/framework.rs:385-410 | Where nothing, the end or a signal is sampled: the exact new runtime, notes and pending target, the slot untouched |
| TransitionEffects.EndedStays | crates/maybenot/src/framework.rs:372-376 | A machine in the end state does nothing and draws nothing |
| TransitionEffects.AllowedExactly | crates/maybenot/src/framework.rs:576-683 | An action is let through exactly under conditions on the books written out field by field: limits, allowances, own and global shares, zero totals, ongoing blocking |
| TransitionEffects.ScheduleShows | crates/maybenot/src/framework.rs:523-558 | Each kind of action is shown with its machine and flags and with timeout and duration from the right draws, each rounded to the nearest microsecond of at most a day |
| TransitionEffects.BothCountersMove | crates/maybenot/src/framework.rs:451-509 | Each counter moves by its operation on the drawn, default or copied change, saturating at both ends, the copy being the old value of the other; CounterZero follows exactly if one of them fell from above zero to zero for the first time in the call |
| EventEffects.EventTable | crates/maybenot/src/framework.rs:262-370 | The table of all ten events: every machine asked is asked first on the event named there, then only on CounterZero and LimitReached; padding sent and timer events ask exactly the machine they name, all others every machine |
| EventEffects.SharedEvent | crates/maybenot/src/framework.rs:262-349 | For events that name no machine: every machine takes exactly one turn on that event from its own runtime and slot, after the accounting written out for it; only the beginner of blocking uses its limit |
| EventEffects.NamedEvent | crates/maybenot/src/framework.rs:291-369 | For events that name a machine: padding is counted globally even if the machine does not exist, and the named machine takes its turn; PaddingSent and TimerBegin use its limit, TimerEnd does not |
| EventEffects.UseOfLimit | crates/maybenot/src/framework.rs:560-574 | An unchanged running machine loses one unit of its limit; exactly when none is left and the action has a limit, the slot is emptied and LimitReached follows |
| EventEffects.CallInOrder | crates/maybenot/src/framework.rs:206-228 | A call begins without actions, notes and counter flags at its own time, takes its events in their order, and ends there if no signal is pending |
| EventEffects.RunCounted | crates/maybenot/src/framework.rs:282-305 | Over any run the normal and padding packets on the books of all and of each machine grow by exactly those reported |
| EventEffects.StartsLimited | crates/maybenot/src/framework.rs:123-181 | Every machine starts in its first state with empty books; its limit is the sampled one if that state has an action, drawn in the order of the machines, and 0 if it has none |
| EventEffects.ReturnsSlots | crates/maybenot/src/framework.rs:258-259 | What a call returns is exactly what is in the slots |
| PaddingBudget.CallFair | crates/maybenot/src/framework.rs:576-683 | Every padding and every blocking that a single-event call returns is, by the books after the call, within an allowance or below the machine fraction and the global fraction, unless the blocking replaces one that is on |
| PaddingBudget.StepWithin | crates/maybenot/src/framework.rs:653-683 | One closed-loop step keeps sent plus pending padding of each machine within its allowance or its fraction plus one |
| PaddingBudget.StepGlobal | crates/maybenot/src/framework.rs:653-683 | One closed-loop step keeps all padding plus all padding still open within the global fraction plus one packet and one allowance per machine |
| PaddingBudget.PaddingStaysInBudget | crates/maybenot/src/framework.rs:653-683 | In every closed-loop run: padding_i <= max(allowed_i, f * total_i + 1), and all padding <= F * total + n + the sum of max(allowed_i, 1) |
| SimEvents.Peek | crates/maybenot-simulator/src/queue_event.rs:160-167 | The top of a heap is an event that none precedes, whatever the order among equals |
| SimEvents.PopRemovesPeek | crates/maybenot-simulator/src/queue_event.rs:142-157 | Popping removes exactly the event that peeking shows |
| Queues.NoNormalMeansNoPadding | crates/maybenot-simulator/src/queue_event.rs:60-79 | The decision that no normal packets are left asks for more than its documentation: exactly, for no queued padding as well |
| Queues.PaddingKeepsGoing | crates/maybenot-simulator/src/queue_event.rs:60-79 | A queue of one padding packet, in which no packet of the trace is left, and the decision says otherwise |
| EventQueues.EventQueue.constructor | crates/maybenot-simulator/src/queue_event.rs:38-50 | The object holds the given heaps |
| EventQueues.EventQueue.Add | crates/maybenot-simulator/src/queue_event.rs:81-98 | An event goes to its home heap and nowhere else |
| EventQueues.EventQueue.Remove | crates/maybenot-simulator/src/queue_event.rs:142-157 | The top of the named heap comes out, a base event shifted by the delay sum, or nothing from an empty heap |
| EventQueues.EventQueue.First | crates/maybenot-simulator/src/queue_event.rs:100-139 | The first of the four tops, with ties in the order base, bypassable, blocking, internal |
| Selector.AnyFirst | crates/maybenot-simulator/src/queue_event.rs:100-139 | No top of the endpoint comes before the chosen one, once the base top is shifted |
| Selector.AnySoonest | crates/maybenot-simulator/src/queue_event.rs:100-139 | Without regard to blocking no queued event of the endpoint is due sooner |
| Selector.BothSoonest | crates/maybenot-simulator/src/queue.rs:85-124 | The same over both endpoints |
| Selector.NonBlockingSoonest | crates/maybenot-simulator/src/queue.rs:212-231 | The choice among events not held back comes first among base and internal events, and among bypassing ones unless the endpoint is overtaken: the base event is compared by its raw time |
| Selector.BlockingSoonest | crates/maybenot-simulator/src/queue.rs:191-210 | The choice among held events comes first among them |
| Selector.SideSoonest | crates/maybenot-simulator/src/queue_peek.rs:107-208 | The search of one endpoint names a top that can go after exactly the answered wait, and none of its base, internal and held events can go sooner |
| Selector.SideExact | crates/maybenot-simulator/src/queue_peek.rs:107-208 | The search of one endpoint finds the minimum exactly unless the endpoint is overtaken and the overtaken packet is due before its trace packet and all held packets |
| Selector.SelectorRefinesMinimum | crates/maybenot-simulator/src/queue_peek.rs:10-105 | The selector refines the minimum of the effective waits over every queued event of both endpoints: the named top has the answered wait, no base, internal or held event comes sooner, nor any event at all of an endpoint that is not overtaken; the answer for none means that the queues are empty or every event waits longer than the earliest other thing |
| Selector.SelectorExact | crates/maybenot-simulator/src/queue_peek.rs:10-105 | The answer is the minimum over every queued event exactly unless the selector has to search while the packet of an overtaken endpoint waits less than every base, internal and held event of both endpoints, and less than the bypassing ones of the other endpoint unless that is overtaken as well |
| Selector.NoDelaySumNotOvertaken | crates/maybenot-simulator/src/queue.rs:212-231 | Without a delay sum no endpoint is overtaken |
| Ties.AnyInOrder | crates/maybenot-simulator/src/queue_event.rs:100-139 | The first event of an endpoint, of equals in the order base, bypassing, held, rest, with its wait |
| Ties.HeldInOrder | crates/maybenot-simulator/src/queue.rs:191-210 | Of the packets held back a bypassing one goes first among equals, unless blocking lets it through |
| Ties.UnblockedInOrder | crates/maybenot-simulator/src/queue_event.rs:170-180 | Of the events not held back a trace packet goes first among equals |
| Ties.NonBlockingInOrder | crates/maybenot-simulator/src/queue.rs:212-231 | A bypassing packet is taken from among them only if it is strictly first, by the raw time of the trace packet |
| Ties.ClientFirst | crates/maybenot-simulator/src/queue.rs:85-124 | Of the two endpoints the server answers only for a shorter wait, or for an event of lower rank at the same wait |
| Ties.HeldOrFree | crates/maybenot-simulator/src/queue_peek.rs:107-208 | In the search of one endpoint a held packet is due at its time or at the end of blocking, and goes before all at the same time but a trace packet |
| Ties.SearchOfBoth | crates/maybenot-simulator/src/queue_peek.rs:10-105 | Both endpoints are searched exactly if the first event of all is a packet that blocking holds back; the server answers only for a strictly shorter wait |
| Overtaking.SelectorMisses | crates/maybenot-simulator/src/queue_peek.rs:10-105 | In the last scene of that run the selector answers 7 ms, for an arrival at the server, while a queued packet that may bypass its blocking waits for nothing |
| Overtaking.PacketInFront | crates/maybenot-simulator/src/queue.rs:212-231 | The condition of the exact law holds there: a search is needed and the packet is in front of everything |
| Overtaking.StartsThere | crates/maybenot-simulator/src/lib.rs:434-454 | A trace of three packets, over a network of one packet per second, gives the first scene of the run |
| Overtaking.OvertakenHappens | crates/maybenot-simulator/src/lib.rs:415-593 | From the start that this trace gives, and for any arguments without caps, seven iterations with lawful answers lead to a sound state in which the selector misses the minimum and the scheduler takes an event 7 ms later |
| Scans.SoonestTime | crates/maybenot-simulator/src/queue_peek.rs:210-231 | The loop finds the shortest wait among times not in the past, and it is the wait of one of them |
| Scans.PeekScheduledAction | crates/maybenot-simulator/src/queue_peek.rs:210-231 | The shortest wait over the scheduled actions of both endpoints |
| Scans.PeekScheduledTimer | crates/maybenot-simulator/src/queue_peek.rs:233-254 | The shortest wait over the internal timers of both endpoints |
| Scans.FindDue | crates/maybenot-simulator/src/lib.rs:771-780 | The loop finds the first slot that is due, and none only if no slot is |
| Scans.TailAmong | crates/maybenot-simulator/src/delay.rs:43-54 | The loop finds the latest time among events within a millisecond behind the head |
| Scans.AnyFollows | crates/maybenot-simulator/src/delay.rs:117-122 | The early-return scan tells exactly whether any event lies within the window |
| Scans.DelayWhenExpired | crates/maybenot-simulator/src/delay.rs:10-84 | The delay at expiry, both loops included, is the specified one |
| Scans.DelayWhenReplaced | crates/maybenot-simulator/src/delay.rs:89-134 | The delay at a replacement, both scans included, is the specified one |
| Scans.Propagates | crates/maybenot-simulator/src/delay.rs:139-181 | The decision about congestion delays, both scans included, is the specified one |
| Scheduler.ChosenIsLeast | crates/maybenot-simulator/src/lib.rs:636-749 | The choice of a round has the least of the five waits; an event is taken only strictly before the next end of blocking |
| Scheduler.BlockingOnlyExtends | crates/maybenot-simulator/src/lib.rs:900-913 | Replacing blocking sets the end, other blocking only extends it, blocking for no time starts none, and bypassing changes exactly with a takeover |
| Scheduler.RoundsShrink | crates/maybenot-simulator/src/lib.rs:645-760 | Every further round of the scheduler has fewer timers, or as many and fewer blockings, or as many of both and fewer pending delays, in every state |
| SchedulerEffects.TimerFires | crates/maybenot-simulator/src/lib.rs:763-810 | If a timer is due, exactly the first one, client before server, is cleared, and exactly its end is queued, with its own machine, time and endpoint; every other slot, heap and field stays; without one the scheduler panics |
| SchedulerEffects.ActionFires | crates/maybenot-simulator/src/lib.rs:812-928 | If an action is due, exactly the first one, client before server, is cleared and performed: padding queues PaddingSent with its machine, flags, time and lag, blocking sets or keeps the end and queues BlockingBegin after two lags; a due action of another kind is a panic, and so is none |
| SchedulerEffects.BlockingEnds | crates/maybenot-simulator/src/lib.rs:654-709 | The end of blocking is turned off, the delay it caused is owed, and its report is yielded at once or queued after the lag, as this very event |
| SchedulerEffects.EventIsTaken | crates/maybenot-simulator/src/lib.rs:710-738 | The event yielded is one that no other of its heap precedes; it leaves its heap, and no other changes; its time is its own, shifted if it is of the trace, or the end of the wait if that is later |
| SchedulerEffects.DelayTakesEffect | crates/maybenot-simulator/src/network.rs:188-201 | A pending delay that none precedes leaves the heap, and its own endpoint is later by it |
| SchedulerEffects.FirstOfShortest | crates/maybenot-simulator/src/lib.rs:636-749 | The choice is the first of delay, expiry, event, timer and action whose wait none is below: each is strictly below all kinds before it |
| SchedulerEffects.SoonerUnblocked | crates/maybenot-simulator/src/queue_peek.rs:256-273 | The sooner end of blocking is next, the one of the server at the same time |
| SchedulerEffects.ExpiryDelays | crates/maybenot-simulator/src/delay.rs:10-84 | An expiry causes a delay exactly unless nothing held is older than it, the last packet close behind the head is as old, or the trace goes on within a millisecond; the delay is what that last packet waited |
| SchedulerEffects.ReplacementDelay | crates/maybenot-simulator/src/delay.rs:89-134 | A replacement causes a delay exactly unless a packet is held within 100 ms or the trace goes on within one of the head, which is what the head waited |
| SchedulerEffects.CongestionDelay | crates/maybenot-simulator/src/delay.rs:139-181 | Congestion delays the trace exactly under the same condition on the packet |
| SchedulerEffects.EachPacketAbove | crates/maybenot-simulator/src/network.rs:97-119 | Every packet above the limit of the window adds the same delay once more |
| SchedulerEffects.OrderAtEqualTimes | crates/maybenot-simulator/src/lib.rs:199-226 | The order of all ten events at equal times |
| Timing.ActSound | crates/maybenot-simulator/src/lib.rs:595-761 | A round of a sound state never panics, and yields only events at or after now that fail closed |
| Timing.PickNextSound | crates/maybenot-simulator/src/lib.rs:595-761 | From a sound state the scheduler never panics, yields an event at or after now that leaves every timer, expiry, pending delay and queued event on its side of the event, never a packet past blocking unless both may bypass, and finds nothing exactly if nothing is queued, armed or blocked |
| Timing.IdleLeavesNothing | crates/maybenot-simulator/src/lib.rs:636-643 | When it finds nothing, no event, timer, blocking or pending delay is left |
| Simulator.TravelTime | crates/maybenot-simulator/src/network.rs:396-449 | Between the times shown in the trace a packet travels for the network delay and its congestion, whatever the lags, unless it is clamped to now |
| LoopEffects.PacketGoesOn | crates/maybenot-simulator/src/network.rs:451-472 | A trace packet is queued for the tunnel at its own time; what arrives is reported as PaddingRecv exactly if it is padding and as NormalRecv exactly if it is not, with its time, delay and endpoint; timers and blocking concern no network |
| LoopEffects.PaddingIsSent | crates/maybenot-simulator/src/network.rs:300-394 | Padding is queued for the tunnel with its flags, unless it may be replaced and a trace packet is held back: then that packet leaves its heap and may bypass, if the padding could, and else nothing happens |
| LoopEffects.PacketEntersTunnel | crates/maybenot-simulator/src/network.rs:396-449 | The window of the sender counts the packet, the recipient gains exactly its arrival at the time written out, and congestion is owed exactly unless it is absorbed |
| SoundRuns.NetworkSound | crates/maybenot-simulator/src/network.rs:273-476 | The network keeps every pending time on its side of the current time |
| SoundRuns.TriggerSound | crates/maybenot-simulator/src/lib.rs:930-1028 | So do the timers that any lawful answer of the framework sets |
| LoopEffects.OneAnswer | crates/maybenot-simulator/src/lib.rs:940-1027 | One action of the framework, by cases on its two slots: each kind of cancelling clears exactly its own, padding and blocking are scheduled at now plus timeout plus lag, a timer is set and queued to begin exactly if it replaces or ends later than the one set or now; all else stays |
| LoopEffects.AnswersPerformed | crates/maybenot-simulator/src/lib.rs:930-1028 | After all actions of a call the slots of each machine are as its own action asks, with one lag for all, slots of other machines are untouched, and exactly the timers set are queued to begin |
| LoopEffects.IterationDone | crates/maybenot-simulator/src/lib.rs:457-588 | One iteration: when it stops, panics or goes on, and with which clock, trace, count and answer, by what the scheduler picked |
| LoopEffects.TracedAsSent | crates/maybenot-simulator/src/lib.rs:518-551 | The trace shows trace packets without the lag of their report, and padding with it |
| LoopEffects.TracedAlike | crates/maybenot-simulator/src/lib.rs:518-551 | A packet is shown at the same time before and after the network passes it on at one endpoint |
| SoundRuns.IterateSound | crates/maybenot-simulator/src/lib.rs:457-588 | An iteration never panics, never moves time backwards and keeps the loop sound |
| SoundRuns.RunSound | crates/maybenot-simulator/src/lib.rs:457-588 | No run panics and its time never falls, whatever the framework answers |
| SoundRuns.RunFailsClosed | crates/maybenot-simulator/src/lib.rs:655-738 | In every run, no endpoint that was blocking when a packet was processed sent it into the tunnel unless its blocking could be bypassed and the packet could bypass |
| Simulator.IterateKeepsMachines | crates/maybenot-simulator/src/lib.rs:457-588 | The number of timers never changes, so every answer of the framework keeps fitting |
| Conservation.PickTotal | crates/maybenot-simulator/src/lib.rs:595-761 | The scheduler takes out exactly the event that it yields: no tracked event appears or vanishes |
| Conservation.NetworkGains | crates/maybenot-simulator/src/network.rs:273-476 | The network passes each trace packet on by one stage, replacement of padding included, and creates no others |
| Conservation.IterateConserves | crates/maybenot-simulator/src/lib.rs:457-588 | An iteration keeps packets on their way plus packets received, for each direction, and the bypass balance |
| Conservation.RunConserves | crates/maybenot-simulator/src/lib.rs:457-588 | So does every run |
| Conservation.EveryPacketArrives | crates/maybenot-simulator/src/lib.rs:579-583 | From a fresh start packets on their way and received always add up to the trace; if the loop stops for lack of normal packets, every packet of the trace was received |
| Conservation.BypassIsPaidFor | crates/maybenot-simulator/src/network.rs:300-377 | Packets that an endpoint sent past blocking, and those it still may, never outnumber the padding packets it sent to bypass |
| Conservation.NoNormalNothingOnTheWay | crates/maybenot-simulator/src/queue_event.rs:65-79 | Where the decision says so, no trace packet is on its way |
| Reports.PickStock | crates/maybenot-simulator/src/lib.rs:595-761 | For every endpoint and machine the scheduler conserves the ends of its timer, set or queued, and its actions, scheduled or queued as performed: it takes out only what it yields |
| Reports.NetworkStock | crates/maybenot-simulator/src/network.rs:273-476 | The network adds to the padding on its way, to the padding that comes out, and to each kind of report exactly what the one event it processes calls for |
| Reports.AnswersStock | crates/maybenot-simulator/src/lib.rs:930-1028 | The answers of the framework queue one beginning for each timer they set, fill a slot only for the machine they name, and add to nothing else |
| Reports.PaddingAddsUp | crates/maybenot-simulator/src/network.rs:283-472 | In every run from a fresh start, in each direction: padding waiting for the tunnel, in it, and come out of it adds up to the padding queued for it; and all that came out is reported once, padding as padding and trace packets as normal packets |
| Reports.TimersEndOnce | crates/maybenot-simulator/src/lib.rs:763-810 | In every run from a fresh start a machine is told no more often that its timer ended than that it began, timers still set included, but for one set at the start |
| Reports.ActionsPerformedOnce | crates/maybenot-simulator/src/lib.rs:812-928 | In every run what a machine is told that it performed, and what it is yet to perform, is no more than what the framework asked of that machine |
| Delays.DelaysAreConserved | crates/maybenot-simulator/src/network.rs:131-201 | After any run, base delay plus pending delays grew at both endpoints by exactly the sum of the delays pushed, and neither base delay fell |
| Delays.BothOweWhatWasPushed | crates/maybenot-simulator/src/network.rs:131-201 | In every state reached from a parsed trace, base delay plus pending delays is the sum of all delays ever pushed, at both endpoints |
| Delays.DelayTakesEffectInTime | crates/maybenot-simulator/src/network.rs:131-186 | A delay takes effect four network delays after it began at its own endpoint, three or one at the other, never before now |
| Delays.ExpiryDelayBounds | crates/maybenot-simulator/src/delay.rs:42-83 | A delay at expiry is positive, at most what the head waited and at least that less a millisecond |
| Delays.ExpiryRoundPushes | crates/maybenot-simulator/src/lib.rs:654-709 | A round of the scheduler that ends blocking pushes nothing or a delay within those bounds, for the head of the endpoint whose blocking ends |
| Windows.WindowIsExact | crates/maybenot-simulator/src/network.rs:237-252 | For nondecreasing times the pruned window counts all times ever added in the closed window ending now |
| Windows.WindowCount.Add | crates/maybenot-simulator/src/network.rs:237-252 | The deque in place: the returned count is exact whenever the times were nondecreasing |
| Windows.WindowCount.constructor | crates/maybenot-simulator/src/network.rs:230-235 | A new window is empty |
| DefenceFree.SecondIsTenWindows | crates/maybenot-simulator/src/lib.rs:1086-1122 | A closed second holds at most ten times the largest closed 100 ms window |
| DefenceFree.StartWithinLimit | crates/maybenot-simulator/src/network.rs:97-119 | So no second of a sorted trace exceeds the parsed rate |
| DefenceFree.IteratePlain | crates/maybenot-simulator/src/lib.rs:457-588 | Without defences an iteration keeps the account of the trace, adds no delay and uses up a step |
| DefenceFree.RunPlain | crates/maybenot-simulator/src/lib.rs:457-588 | Without defences the loop stops by itself with every packet through |
| DefenceFree.DefenceFreeIdentity | crates/maybenot-simulator/src/lib.rs:415-593 | For every sorted trace with a packet whose rate the cast to 32 bits does not make zero: without machines, lags, configured rate or caps, the sorted result shows the client exactly the packets of the trace, at their times and in their directions |
| Traces.StartsUnlessRateVanishes | crates/maybenot-simulator/src/lib.rs:434-454 | A trace can be simulated at its own rate exactly if it has a packet and its rate, at most ten per line, does not vanish in the cast to 32 bits |
| Traces.RateVanishes | crates/maybenot-simulator/src/network.rs:80-83 | A trace of 2^31 packets sent at once has a rate that vanishes, and the simulator panics at the start |
| Traces.StartIsFresh | crates/maybenot-simulator/src/lib.rs:1042-1125 | Whatever was parsed gives a fresh start, to which the laws of runs apply |
| LoopEffects.ParsedLine | crates/maybenot-simulator/src/lib.rs:1042-1125 | What one more line adds to the parsed trace: the packet with its shown time, in the heap of its sender, and the largest window of its direction |
| LoopEffects.StartsWith | crates/maybenot-simulator/src/lib.rs:434-454 | Where a simulation starts: the time of the first packet, unused endpoints, and the network of the given or parsed rate |
| Traces.SortKeeps | crates/maybenot-simulator/src/lib.rs:589-592 | The final sort orders the trace by time and keeps every event |
| Traces.SortIsStable | crates/maybenot-simulator/src/lib.rs:589-592 | At every time the sorted result has the same events in the same order as the trace |
| PaddingOnly.CalmPicks | crates/maybenot-simulator/src/lib.rs:595-761 | Without blocking, lags and congestion the scheduler yields a queued event unchanged, at its own time, and packets that wait for the tunnel never wait |
| PaddingOnly.NetworkCalm | crates/maybenot-simulator/src/network.rs:273-476 | There the network puts every packet of the trace back one stage further, at its own time, through the replacement of padding too |
| PaddingOnly.IterateCalm | crates/maybenot-simulator/src/lib.rs:457-588 | An iteration keeps the account of the trace, time by time, whatever padding is scheduled |
| PaddingOnly.RunCalm | crates/maybenot-simulator/src/lib.rs:457-588 | So does every run with machines that never block |
| PaddingOnly.PaddingLeavesTraceAlone | crates/maybenot-simulator/src/lib.rs:415-593 | For every trace with a packet, without lags and with a rate above one packet per nanosecond, and for machines of both endpoints that pad in any way but never block: no panic, and once no normal packet is left the sorted result shows the client exactly the packets of the trace among its packets without padding, at their times and in their directions |
| SimulatorRuntime.NetworkBottleneck.constructor | crates/maybenot-simulator/src/network.rs:80-95 | No delays, empty windows of the bottleneck size |
| SimulatorRuntime.NetworkBottleneck.Sample | crates/maybenot-simulator/src/network.rs:97-119 | The endpoint window grows by now and the delay is that of the packets above the limit |
| SimulatorRuntime.Simulator.constructor | crates/maybenot-simulator/src/lib.rs:434-454 | The objects together hold the given state |
| SimulatorRuntime.Simulator.PushSim | crates/maybenot-simulator/src/queue.rs:78-83 | An event is queued at its endpoint |
| SimulatorRuntime.Simulator.PushAggregateDelay | crates/maybenot-simulator/src/network.rs:131-186 | The delay becomes pending at both endpoints |
| SimulatorRuntime.Simulator.PopAggregateDelay | crates/maybenot-simulator/src/network.rs:188-201 | The soonest pending delay is added to its base delay |
| SimulatorRuntime.Simulator.DoInternalTimer | crates/maybenot-simulator/src/lib.rs:763-810 | The first due timer is cleared and its end queued; false exactly where the source panics |
| SimulatorRuntime.Simulator.BlockFor | crates/maybenot-simulator/src/lib.rs:900-913 | Blocking of one endpoint changes as specified, of the other not at all |
| SimulatorRuntime.Simulator.StartBlocking | crates/maybenot-simulator/src/lib.rs:883-926 | Blocking starts and its start is queued after two lags |
| SimulatorRuntime.Simulator.DoAction | crates/maybenot-simulator/src/lib.rs:850-927 | A due action is performed; false exactly where the source panics |
| SimulatorRuntime.Simulator.DoScheduledAction | crates/maybenot-simulator/src/lib.rs:812-928 | The first due action is cleared and performed |
| SimulatorRuntime.Simulator.StopBlocking | crates/maybenot-simulator/src/lib.rs:660-690 | Blocking ends and the delay it caused becomes pending |
| SimulatorRuntime.Simulator.ExpireBlocking | crates/maybenot-simulator/src/lib.rs:654-709 | The end of blocking is the next event, or is queued if reported late |
| SimulatorRuntime.Simulator.TakeFromQueue | crates/maybenot-simulator/src/lib.rs:714-738 | The picked event comes out, moved forward by blocking if need be |
| SimulatorRuntime.Simulator.PeekAll | crates/maybenot-simulator/src/lib.rs:604-634 | The five waits that compete in a round |
| SimulatorRuntime.Simulator.PickNext | crates/maybenot-simulator/src/lib.rs:595-761 | The recursive scheduler in place ends and does what the specified one does |
| SimulatorRuntime.RoundByRound | crates/maybenot-simulator/src/lib.rs:645-760 | The scheduler is its rounds, one smaller than the other |
| SimulatorRuntime.Simulator.ReplaceByHeldPacket | crates/maybenot-simulator/src/network.rs:324-361 | The held packet leaves its queue and comes back allowed to bypass, with the delay it suffered pending |
| SimulatorRuntime.Simulator.SendPadding | crates/maybenot-simulator/src/network.rs:300-377 | Padding is queued, replaced or dropped as specified |
| SimulatorRuntime.Simulator.SpreadCongestion | crates/maybenot-simulator/src/network.rs:381-394 | Congestion becomes pending unless packets follow closely |
| SimulatorRuntime.Simulator.Carry | crates/maybenot-simulator/src/network.rs:378-449 | A packet is queued at the other endpoint after its travel |
| SimulatorRuntime.Simulator.SimNetworkStack | crates/maybenot-simulator/src/network.rs:273-476 | The network does what is specified and reports activity exactly for tunnel events |
| SimulatorRuntime.Simulator.Apply | crates/maybenot-simulator/src/lib.rs:942-1025 | One returned action sets, cancels or updates the timers of its machine |
| SimulatorRuntime.Simulator.TriggerUpdate | crates/maybenot-simulator/src/lib.rs:930-1028 | The loop over the returned actions has the specified effect |
| SimulatorRuntime.Simulator.ProcessEvent | crates/maybenot-simulator/src/lib.rs:501-559 | One event goes through network, framework and trace as specified |
| SimulatorRuntime.Simulator.Turn | crates/maybenot-simulator/src/lib.rs:458-588 | One iteration in place has the specified outcome: going on, stopping or a panic |
| SimulatorRuntime.Simulator.Stops | crates/maybenot-simulator/src/lib.rs:561-583 | The three stopping conditions, in their order, decide as specified |
| SimulatorRuntime.Simulator.Simulate | crates/maybenot-simulator/src/lib.rs:459-593 | The loop in place goes through the specified run and returns its sorted trace |
| SimulatorRuntime.RunOnce | crates/maybenot-simulator/src/lib.rs:457-588 | A run is an iteration and the rest of the run |
| SimulatorRuntime.PickStaysLawful | crates/maybenot-simulator/src/lib.rs:457-588 | Neither the scheduler nor the network makes an answer of the framework unfit |
| SimulatorRuntime.ParseTrace | crates/maybenot-simulator/src/lib.rs:1042-1125 | The parsing loop with its window objects gives the specified base packets and rate |
| SimulatorRuntime.SimAdvanced | crates/maybenot-simulator/src/lib.rs:415-593 | Simulation from a parsed trace does what the specified run does and panics at the start or not at all |

## Left out

- Sampling of distributions and their parameter checks (`dist.rs`), random number generators: an oracle with non-negative results; whether parameters are valid is a flag of the distribution.
- Rounding, NaN and infinities of floating point: fractions are reals, and 0/0 and x/0 are decided as the source's comparison decides them.
- Overflow of packet counts and of times beyond the range of their types.
- Serialization of machines, `FromStr`, v1 decoding, the foreign-function interface, Display, logging, debug notes.
- The distributions of integration lags (`integration.rs`): any lag may come out of any draw.
- The text of traces: a line is a time and a direction; a malformed line, on which the source panics, is not part of this model.
- The layout of binary heaps: only which event may be on top.
- The random number generator and the arguments of the framework inside the simulator: the framework is the oracle described above, so the limits passed on to it play no part there.
- Running the loop without end: a run goes along a script of answers; that a run stops by itself is proved for defence-free traces.
- Pairing of BlockingBegin with BlockingEnd: blocking for no time begins without an end of its own.
- PaddingBudget.PaddingStaysInBudget: single-event calls only, as the simulator makes them; in a batch an action that an earlier event caused may stay in its slot while later events change the books.
- PaddingBudget.CallFair: likewise for single-event calls.
- Signals.Delivery: a machine that raises two signals in one batch signals itself, so that a machine never signals itself is not claimed.
- DefenceFree.DefenceFreeIdentity: counts packets by time and direction, so the order among packets of the same time is not stated; the rate must not vanish in the cast to 32 bits, where the source divides by zero.
- PaddingOnly.PaddingLeavesTraceAlone: that such a run stops is not claimed, because padding may keep it going; congestion, which padding can cause, is kept out by the rate.
- Timing.PickNextSound: pending delays at the start do not keep the scheduler from finding nothing; that none is left when it does is stated by the lemma next to it.
- SimulatorRuntime.SimAdvanced: takes the parsed heaps, not the queue object, and the answers as a script.
