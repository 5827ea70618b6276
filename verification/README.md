# llmsim: a verified model of the engine

This project models the parts of the discrete-event simulation engine `llmsim` whose correctness is about
whole runs and about every interleaving, and proves what those runs do. `dafny verify dfyconfig.toml` checks
all of it.

**Sharded simulation (`parallel/pdes`).** `Shards` gives one shard as a value, a *lane*: its event schedule, its
undelivered messages, everything it ever sent, and how much of each inbound channel it has drained. The model
code of a shard is an arbitrary deterministic function. `Rounds` is the sequential driver as a function from
round to round. `LaneSafety` and `RoundSafety` hold the safe-window argument, `RunTheorems` what it yields for
whole runs. `Runtime` is the same driver as code over mailboxes, channels and shards changed in place, proved
to compute the rounds. `Threaded` is the program of N shard threads and a coordinator with its three barriers
a round, as interleaved steps: a thread drains one mailbox, delivers one message, makes one send or processes one
event at a time. `ThreadSafety`, `ThreadTheorems` and `ThreadTermination` relate every schedule of it to the
sequential driver. `Wiring` is the endpoint registry.

**Sequential engine (`core`).** `Kernel` is a state machine over an arena of events with callback lists: events,
timeouts, processes, urgent interrupts, conditions. What a process body or a user callback does is left
open: at any point it may take any of the public moves. `Agenda` proves the life cycle of events and the
clock, `SingleResume` that a process waits in one place, `Urgency` that interrupts come first. `Conditions`,
`ConditionSafety`, `ConditionValues` and `EngineTheorems` say what conditions mean, `Detachment` when one loses
its checks, and `Timeliness`, exactly when one is processed; `SharedCondition` is a run in which one never is.
`Engine` is the imperative form: the loops of `_check`, `__init__`, `_populate_value`, `_remove_check_callbacks`
and `_resume`.

**Resources (`resources`).** `Waiting` is the retry chain all resources share, as index loops over queues changed
in place. `Slots`, `Preemption`, `Stores` and `Containers` supply the grant rules and prove that nobody waits
for nothing, or exactly which steps let one. Granted requests stand in the schedule at the current time;
`Clockwork` puts this together with the engine: when the clock moves, none is left to be processed.

**Offload, drivers, analysis, seeds.** `Offload` is the worker pool with nondeterministic completion,
`OffloadSafety` the simulation proof against inline execution, `OffloadAccounting` the exactly-once proof, and
`OffloadPool` the pool's own loops. `Driver` and `DriverLoops` are `Sim.run(until=t)` and the paced driver.
`Analysis` is the speedup estimate, `SeedPaths` the seed-path encoding.

Conventions. Time is exact (`real`), with infinities as constructors where the drivers use them. `heapq` is a
sequence kept in key order (`TimedHeap`); keys are unique because event ids and message sequence numbers are.
Windows of a shard are assumed to end (`Halts`), since a model can schedule zero-delay events for ever;
everything else about model code is arbitrary. Exceptions are outcomes: a lane's `fault`, a refused move, a
`Result`. Logs such as `delivered`, `granted` or `seen` are history that the code does not keep; they
only serve to state properties.

Three places where the code does less than one might read into its documentation, each with the exact condition.
Preempting a holder whose process cannot be interrupted raises after the slot is already taken away, and the
requester then waits beside the free slot (`Preemption.DeadHolderStrandsRequest`): slots stay covered exactly as
long as no put or retry does that with no release left to be processed (`StepKeepsSlots`,
`SlotsCoveredThroughout`), and holders rank first exactly as long as each put that outbids one may preempt it and
finds it interruptible, or is made up for by such a release (`StepKeepsRank`, `HoldersOutrankWaiters`). A condition nested in another loses its checks when that one is built,
and if it was pending then, it is never triggered (`Detachment.DetachedWhen`, `DetachedForGood`): a condition is
processed in time exactly if it is reached without those (`Timeliness.TimelyExactly`). For containers, cancelling
the head of a queue does not retry it; a history strands nobody exactly if no cancellation is one of those that
`Containers.Strands` names (`Containers.AwakeThroughout`).

## Model

| member | source | states |
|---|---|---|
| RunTheorems.ExactlyOnceInOrder | src/llmsim/parallel/pdes/sync.py:69-115 | When a run stops, each shard has deposited exactly the messages ever sent to it and stamped below `until`, each once, in (timestamp, channel, sequence) order over the whole run |
| RunTheorems.CausalityHolds | src/llmsim/parallel/pdes/channel.py:190-211 | For every event a shard ever processed: any message to that shard, sent then or later, that was not already delivered is stamped strictly later |
| RunTheorems.UntilExclusive | src/llmsim/parallel/pdes/sync.py:84-115 | At the stop every event below `until` has run, none at or above it has, and every mailbox is empty |
| RunTheorems.HorizonGrowth | src/llmsim/parallel/pdes/sync.py:153-173 | After r executed rounds the horizon lies at least r-1 least lookaheads above the first |
| RunTheorems.TerminatesWithin | src/llmsim/parallel/pdes/sync.py:176-200 | If n lookaheads span the way to `until`, round n+2 at the latest has ended the run, and not by a stuck horizon |
| RunTheorems.EndsByRound | src/llmsim/parallel/pdes/sync.py:153-200 | Every run to a finite time ends: at most ceil(max(0, until - H1)/Lmin) + 1 executed rounds |
| RoundSafety.RoundSafe | src/llmsim/parallel/pdes/sync.py:176-200 | One round keeps the invariant: quiescent lanes, nothing below the window left or in flight, no message lost or invented, no causality fault, no stuck horizon |
| RoundSafety.AfterSafe | src/llmsim/parallel/pdes/sync.py:191-200 | The invariant holds after any number of rounds, for every model and topology |
| RoundSafety.WindowAllQuiet | src/llmsim/parallel/pdes/sync.py:197-200 | Whatever the shards send while executing a window not above the horizon is stamped at or above that window |
| RoundSafety.HorizonAbove | src/llmsim/parallel/pdes/sync.py:84-95 | The horizon is at least the least pending time plus the least lookahead |
| LaneSafety.DeliverBelowOk | src/llmsim/parallel/pdes/sync.py:97-102 | Delivery below a window never meets a message in the past, keeps deposits in key order, and leaves exactly the messages at or above the window |
| LaneSafety.ExecuteWindowOk | src/llmsim/parallel/pdes/sync.py:104-115 | An executed window leaves no event below it, and continues each channel only by messages at or above the shard's reported bound |
| Shards.WindowResult | src/llmsim/parallel/pdes/sync.py:104-115 | A window that ends leaves one state, however many actions it is cut into |
| TimedHeap.PushRunOrdered | src/llmsim/parallel/pdes/channel.py:52-55 | Absorbing a channel's next messages keeps the pending heap in (timestamp, channel, sequence) order |
| Runtime.Channel.Send | src/llmsim/parallel/pdes/channel.py:126-154 | A send below the lookahead is refused and leaves no trace; otherwise the message is stamped with the next sequence number and buffered |
| Runtime.Channel.Drain | src/llmsim/parallel/pdes/channel.py:79-84 | Draining hands over exactly what was sent and not yet taken, in order, and empties the mailbox |
| Runtime.Shard.Absorb | src/llmsim/parallel/pdes/sync.py:69-82 | Draining the owned mailboxes in channel order gives the absorbed lane of the round function |
| Runtime.Shard.ReportBound | src/llmsim/parallel/pdes/sync.py:84-95 | The report is the earliest local work, and that plus the least outgoing lookahead |
| Runtime.Shard.DeliverBelow | src/llmsim/parallel/pdes/sync.py:97-102 | The loop computes delivery below the window, stopping at a causality violation |
| Runtime.Shard.Step | src/llmsim/core/sim.py:237-256 | One event is popped, the clock set to its time, its callbacks run, the event traced |
| Runtime.Shard.ExecuteWindow | src/llmsim/parallel/pdes/sync.py:104-115 | The hot loop, with the sends of each event, computes the executed window and terminates whenever the window is finite |
| Runtime.RunRound | src/llmsim/parallel/pdes/sync.py:191-200 | Absorbing, deciding, delivering and executing in index order on the objects is one round; if it fails, the first shard to fail in its pass is left where it failed, those before it have completed the pass and those after it have not begun it |
| Runtime.RunSequential | src/llmsim/parallel/pdes/sync.py:176-200 | The driver's loop terminates within the round bound and leaves in the objects what the round function says of the run, or what its failing round leaves |
| ThreadTheorems.ThreadedEqualsSequential | src/llmsim/parallel/pdes/sync.py:245-303 | Under every schedule, once all threads have ended, all lanes (states, queues, traces, delivery logs, channels) are the sequential driver's |
| ThreadTermination.ScheduleOutcome | src/llmsim/parallel/pdes/sync.py:245-315 | If the sequential run ends by some round, well or badly: every schedule is within a fixed budget of steps; one that cannot be continued has ended, with the barrier broken exactly if the sequential run fails, and otherwise with the sequential result |
| ThreadTermination.SchedulesEnd | src/llmsim/parallel/pdes/sync.py:245-315 | If the sequential run ends by some round, well or badly, each step of the threaded program, failing and broken threads included, uses up the budget: no schedule runs for ever |
| ThreadTheorems.NoDeadlock | src/llmsim/parallel/pdes/sync.py:243-303 | In every reachable state, until all threads have ended, some thread can step |
| ThreadTheorems.DrainedOnlyWhileQuiescent | src/llmsim/parallel/pdes/sync.py:264-269 | While any shard drains a mailbox, no shard delivers or executes |
| ThreadTheorems.DecidedOnlyWhileWaiting | src/llmsim/parallel/pdes/sync.py:295-300 | The coordinator decides only while all shards wait, and every report it reads is this round's |
| ThreadTheorems.FailureAgrees | src/llmsim/parallel/pdes/sync.py:270-275 | A shard that fails in some schedule fails in the same round of the sequential run, in the same state |
| ThreadTheorems.NeverAborts | src/llmsim/parallel/pdes/sync.py:304-308 | If the sequential run stops, no schedule breaks the barrier |
| ThreadTheorems.StepKeepsInv | src/llmsim/parallel/pdes/sync.py:245-303 | Each step of each thread keeps the invariant that ties its lane to the sequential round it is in |
| ThreadTheorems.ReachableInv | src/llmsim/parallel/pdes/sync.py:245-303 | That invariant holds in every reachable state |
| Wiring.DeclarationOrderIrrelevant | src/llmsim/parallel/pdes/shard.py:120-138 | Any two orders of the same port declarations both fail, or record the same ports and so the same topology |
| Wiring.DeclareAllOutcome | src/llmsim/parallel/pdes/shard.py:120-138 | Declarations succeed exactly when each endpoint is declared once with a positive lookahead, and then the table records precisely them |
| Wiring.Registry.DeclareOut | src/llmsim/parallel/pdes/shard.py:90-128 | A second sender or a non-positive lookahead is refused and changes nothing |
| Wiring.Registry.DeclareIn | src/llmsim/parallel/pdes/shard.py:130-138 | A second receiver is refused and changes nothing |
| Wiring.Registry.ValidateAndBind | src/llmsim/parallel/pdes/shard.py:140-169 | Succeeds exactly when every channel has both ends on different shards; ids are places in name order and each shard owns the channels that lead to it; each error names what the code names, in sorted order |
| Wiring.Registry.LeastOutgoing | src/llmsim/parallel/pdes/shard.py:171-177 | The least outgoing lookahead does not depend on the dictionary's order and is the one the bounds use |
| Wiring.IdsFollowNames | src/llmsim/parallel/pdes/shard.py:158-167 | Channel ids compare as the names do |
| Wiring.OneOrder | src/llmsim/parallel/pdes/shard.py:158-159 | A set of names has one ascending arrangement |
| Wiring.MatchedIsWired | src/llmsim/parallel/pdes/shard.py:140-169 | A validated registry yields a topology that satisfies what the run theorems ask of one |
| Agenda.MoveKeepsAgenda | src/llmsim/core/sim.py:212-256 | Every move keeps: each triggered, unprocessed event is in the schedule exactly once, pending and processed ones never; the clock never goes back |
| Agenda.ClockAdvance | src/llmsim/core/sim.py:237-245 | The clock moves only when every triggered event that is not a timeout has been processed |
| Agenda.TriggerKeeps | src/llmsim/core/events.py:131-165 | Triggering a pending event enters it in the schedule once, under a fresh key |
| SingleResume.ResumedOnce | src/llmsim/core/process.py:87-153 | Between steps of any run a live process has its resume registered exactly once, on its unprocessed target, and on no other event; a dead one nowhere |
| SingleResume.MoveResumable | src/llmsim/core/process.py:87-214 | Every move keeps that invariant in its mid-step form, and a run is ended only by a failure nobody handled |
| SingleResume.RunResumable | src/llmsim/core/process.py:87-214 | The invariant over every run, whatever processes and callbacks do |
| SingleResume.ThrowFindsResume | src/llmsim/core/process.py:199-214 | When an interrupt is delivered to a live process its resume is on its target, so unhooking it cannot raise |
| Engine.DriveResumable | src/llmsim/core/process.py:87-153 | However long a body is driven through processed events, the process ends up waiting in one place, or dead |
| Engine.Sim.ResumeProcess | src/llmsim/core/process.py:95-153 | The driver loop computes that drive: it sends outcomes on until the body waits, returns or raises |
| Engine.Sim.Unhook | src/llmsim/core/process.py:199-210 | A dead process is skipped; a live one loses its resume on an unprocessed target, or the removal would raise |
| Engine.Sim.Trigger | src/llmsim/core/events.py:131-165 | A triggered event is refused; a pending one gets its outcome and is scheduled now |
| Engine.Sim.DetachNext | src/llmsim/core/sim.py:243-250 | The least key is popped, the clock set, the callbacks detached before any is called |
| Engine.Sim.Check | src/llmsim/core/conditions.py:157-185 | A check counts, fails the condition with the one or the several failures so far, or triggers it when the evaluation holds |
| Engine.Sim.WatchMembers | src/llmsim/core/conditions.py:120-127 | The constructor's loop checks processed members at once and registers on the others |
| Engine.Sim.RemoveChecks | src/llmsim/core/conditions.py:149-155 | The recursive loop detaches the condition's checks and those of nested conditions, and nothing else |
| Engine.Sim.Collect | src/llmsim/core/conditions.py:133-139 | The recursive loop collects the processed leaves |
| Engine.Sim.BuildConditionValue | src/llmsim/core/conditions.py:141-147 | Detaching and then collecting is the build of the state machine |
| EngineTheorems.ConditionValue | src/llmsim/core/conditions.py:133-195 | In every run, a processed condition that succeeded has for its value exactly the leaves processed by then, left to right, and its and/or formula is true of them; one that failed has a failed member |
| EngineTheorems.TreeTimely | src/llmsim/core/conditions.py:96-195 | For tree-shaped conditions: at the end of each instant the root is processed if its formula is true, and succeeds unless a member failed; if it succeeded the formula is true |
| EngineTheorems.FormulaProcessed | src/llmsim/core/conditions.py:157-195 | The same for any condition below which no check was detached before its time |
| Detachment.DetachedWhen | src/llmsim/core/conditions.py:141-155 | In every run, a pending condition has lost its checks exactly if some condition it is nested in was built while it was pending |
| Detachment.MoveDetaches | src/llmsim/core/conditions.py:141-155 | No other move detaches a condition; no check of a stripped condition is left registered or due; and a condition succeeds only if its evaluation holds of its successful members |
| Detachment.DetachedForGood | src/llmsim/core/conditions.py:149-155 | Whatever follows, a detached condition is never triggered |
| Detachment.StripCleans | src/llmsim/core/conditions.py:149-155 | Stripping a condition leaves none of its checks, nor any of a condition it strips, registered anywhere |
| Detachment.StripMarks | src/llmsim/core/conditions.py:149-155 | It reaches the conditions nested in it, at any depth, and no others |
| Timeliness.TimelyExactly | src/llmsim/core/conditions.py:141-195 | In every run, at the end of each instant, a condition has been processed exactly if it is not detached and has a failed member or its evaluation holds of its members, nested conditions being read the same way |
| Timeliness.FlatTimely | src/llmsim/core/conditions.py:149-195 | A condition over plain events whose formula is true has been processed exactly if no prefix of the run left it detached |
| Timeliness.LateIsDetached | src/llmsim/core/conditions.py:149-195 | A condition that is late although its formula is true was detached, or one nested in it was |
| Timeliness.NeverSucceeds | src/llmsim/core/conditions.py:149-195 | A condition that needs a detached one never succeeds, whatever follows; if it has no other member it is never processed |
| EngineTheorems.SeenAtProcessing | src/llmsim/core/sim.py:243-250 | The snapshot those statements use is the set of events processed when the event was popped |
| EngineTheorems.RunKeepsEngine | src/llmsim/core/conditions.py:96-195 | Registrations, counters, outcomes and values of all conditions are sound in every run |
| Conditions.PopulateIsProcessedLeaves | src/llmsim/core/conditions.py:133-139 | Descending into nested conditions is filtering the leaves of the whole tree |
| Conditions.HoldsOfValue | src/llmsim/core/conditions.py:187-195 | The formula is true of all processed events exactly if it is true of the events the value lists |
| ConditionSafety.CheckGroup | src/llmsim/core/conditions.py:157-185 | Making a due check keeps the counter equal to the members processed, and success means the formula holds |
| ConditionSafety.FailureAggregated | src/llmsim/core/conditions.py:163-182 | A failed member fails the condition with its own exception if it is the only one failed so far, otherwise with the exceptions of all that have, in member order; all of them count as handled |
| Urgency.StartedBeforeInterrupt | src/llmsim/core/process.py:56-58 | In every run a process has begun before any interrupt of it is processed |
| Urgency.InterruptFirst | src/llmsim/core/process.py:75-85 | While an interrupt is pending the next event processed is urgent and at the current time: interrupts come ahead of whatever their process waits on |
| SharedCondition.SharedConditionIsStranded | src/llmsim/core/conditions.py:149-155 | A run in which a condition nested in two others is detached by the first: however the run is continued the second is never processed, and its formula is true as soon as the event it is about is processed |
| SharedCondition.FormulaComesTrue | src/llmsim/core/conditions.py:149-155 | A continuation in which that event is processed |
| Waiting.BaseResource.TriggerPut | src/llmsim/resources/base.py:156-168 | The index loop serves waiting puts as the recursive chain says, for any grant rule |
| Waiting.BaseResource.TriggerGet | src/llmsim/resources/base.py:174-186 | The same for gets |
| Waiting.BaseResource.NewPut | src/llmsim/resources/base.py:40-51 | A put is queued and then the puts are tried at once |
| Waiting.BaseResource.NewGet | src/llmsim/resources/base.py:87-97 | A get is queued and then the gets are tried at once |
| Waiting.BaseResource.PutProcessed | src/llmsim/resources/base.py:48-50 | Processing a granted put retries the gets |
| Waiting.BaseResource.GetProcessed | src/llmsim/resources/base.py:94-96 | Processing a granted get retries the puts |
| Waiting.BaseResource.WithdrawPut | src/llmsim/resources/base.py:66-73 | Cancelling removes the one waiting put and does not retry the queue |
| Waiting.BaseResource.WithdrawGet | src/llmsim/resources/base.py:112-115 | Cancelling removes the one waiting get and does not retry the queue |
| Slots.NoLostWakeup | src/llmsim/resources/resource.py:169-185 | Over every history of requests, releases and cancellations: while requests wait, free slots are covered by granted releases still to be processed; capacity is never exceeded; when the clock can advance no request waits beside a free slot |
| Slots.GrantsAreFifo | src/llmsim/resources/resource.py:136-175 | A plain resource grants in the order of request, nobody twice |
| Slots.QueueIsRanked | src/llmsim/resources/resource.py:111-133 | A priority queue is always sorted by key and, for equal keys, by request |
| Slots.BestServed | src/llmsim/resources/resource.py:187-197 | Whoever is granted a slot by a priority resource outranks all who go on waiting |
| Slots.InsortRanked | src/llmsim/resources/resource.py:121-133 | Insertion is stable for equal keys |
| Preemption.HoldersOutrankWaiters | src/llmsim/resources/resource.py:210-227 | For any mix of requests, over every history: the queue is sorted, no waiting request outranks a holder and free slots are covered, moment by moment, exactly as long as every put that outbids a holder may preempt and finds a victim it can interrupt (or, failing that, a release is still to be processed and it outranks no other holder) |
| Preemption.PreemptingHistory | src/llmsim/resources/resource.py:210-227 | In particular for preempting puts whose victims can be interrupted |
| Preemption.StepKeepsRank | src/llmsim/resources/resource.py:210-227 | A step keeps the ranks if and only if that condition on it holds, for requests that may preempt and those that may not |
| Preemption.SlotsCoveredThroughout | src/llmsim/resources/resource.py:210-227 | For any mix of requests, over every history: while requests wait, free slots are covered by releases still to be processed, moment by moment, exactly as long as no preemption raises after taking a slot with no release left to be processed |
| Preemption.StepKeepsSlots | src/llmsim/resources/resource.py:210-227 | A step keeps slots covered if and only if it is not such a preemption |
| Preemption.NoRequestBesideFreeSlot | src/llmsim/resources/resource.py:210-227 | In such a history no request waits beside a free slot when the clock can advance |
| Preemption.Lowest | src/llmsim/resources/resource.py:214-215 | The victim is the first holder of the largest key |
| Preemption.VictimRanksLast | src/llmsim/resources/resource.py:213-227 | The slot taken is that of a holder no other ranks below, and the request, which gets it, ranks above that holder |
| Preemption.DeadHolderStrandsRequest | src/llmsim/resources/resource.py:217-226 | A history, from a fresh resource, that loses a slot: the holder has terminated, the request that outbids it raises and then waits beside the freed slot |
| Preemption.NonPreemptingWaits | src/llmsim/resources/resource.py:213 | A history, from a fresh resource, that upsets the ranks: a request that may not preempt waits below a holder it outranks |
| Stores.StoreHistory | src/llmsim/resources/store.py:77-88 | Over every history: accepted items are the delivered ones followed by the held ones, both sides are first in first out, the limit is kept, and when the clock can advance no put waits beside room and no get beside an item |
| Stores.FilterStoreHistory | src/llmsim/resources/store.py:147-159 | Over every history: items are conserved, each delivered one satisfied its filter, and when the clock can advance no waiting get matches any held item |
| Stores.ScanServes | src/llmsim/resources/store.py:147-159 | A scan leaves no waiting get that a held item would satisfy |
| Stores.TakesEarliest | src/llmsim/resources/store.py:147-159 | A filtered get takes the earliest item it accepts and leaves the others in order; it waits only if there is none |
| Stores.FirstMatch | src/llmsim/resources/store.py:154-158 | A get takes the earliest item it accepts |
| Containers.LevelConserved | src/llmsim/resources/container.py:93-107 | Over every history, cancellations included: the level is the initial one plus granted puts less granted gets, within its bounds, and each side is served in order |
| Containers.HeadsAwake | src/llmsim/resources/base.py:156-186 | When the clock can advance neither head could be served, in every history in which no cancellation is one that strands somebody |
| Containers.AwakeThroughout | src/llmsim/resources/base.py:156-186 | Over every history: a servable head has a granted request of the other side still to be processed, moment by moment, exactly as long as no such cancellation is made |
| Containers.CancelGetKeepsAwake | src/llmsim/resources/base.py:112-115 | A cancelled get strands the next one exactly when it was the head, the next is satisfiable and no granted put is left to be processed |
| Containers.CancelPutKeepsAwake | src/llmsim/resources/base.py:66-73 | The same for puts |
| Containers.HeadCancelStrands | src/llmsim/resources/base.py:112-115 | A run in which that happens |
| Clockwork.QuiescentWhenClockMoves | src/llmsim/core/sim.py:237-245 | In every run of the engine, when the clock moves, no granted request of a resource is left to be processed |
| Clockwork.SlotsServed | src/llmsim/resources/resource.py:169-185 | So whenever the clock moves no request waits beside a free slot |
| Clockwork.ContendersServed | src/llmsim/resources/resource.py:210-227 | The same for a preemptive resource, if no slot was lost |
| Clockwork.StoresServed | src/llmsim/resources/store.py:77-159 | Nor a put beside room or a get beside an item it accepts |
| Clockwork.ContainersServed | src/llmsim/resources/container.py:93-107 | Nor a head of a container that could be served, if nobody was stranded |
| OffloadSafety.StrictRefinesInline | src/llmsim/parallel/offload.py:107-202 | For pure payloads, whatever order and times workers finish in, a pooled run of a strict model is the inline run event for event: times, ids, kinds, priorities, delivered outcomes, cancelled and failing payloads included; what the program asks for outside the event loop (events, strict submissions, cancellations, closing) may come anywhere in it |
| OffloadSafety.WaitsOnlyForWork | src/llmsim/parallel/offload.py:183-202 | A pooled run that cannot step where the inline run can is waiting for one worker, whose finishing lets it |
| OffloadSafety.StepRefines | src/llmsim/parallel/offload.py:195-202 | Each step of the pooled run is the inline run's step |
| OffloadAccounting.ExactlyOnce | src/llmsim/parallel/offload.py:140-173 | In every run of polls, drains, cancellations and closing, each offload is pending, scheduled once, or processed once; it is processed no earlier than its lower bound, with its payload's outcome, or with nothing if cancelled |
| OffloadAccounting.NothingOutstanding | src/llmsim/core/sim.py:374-392 | Whatever the program did before, and however the workers take their turns in the run loop with its polls and drains: when `run()` returns every offload has been processed, once, with its payload's outcome or, cancelled, none |
| OffloadAccounting.DrainGoesOn | src/llmsim/parallel/offload.py:398-410 | A drain that sees a pending payload done puts something into the schedule, so the run goes on |
| OffloadAccounting.PollKeeps | src/llmsim/parallel/offload.py:380-396 | A poll schedules each finished pending offload once and keeps the others, whichever of them it sees done |
| OffloadAccounting.PollLeaves | src/llmsim/parallel/offload.py:380-396 | A poll leaves pending exactly those it has not seen done |
| OffloadAccounting.DeliveredWhen | src/llmsim/parallel/offload.py:427-431 | A delivery, or the discarded outcome of a cancelled pending offload, is scheduled at max(now, submission + delay) |
| OffloadAccounting.CancelKeeps | src/llmsim/parallel/offload.py:140-173 | Cancelling keeps the account, in the pending, delivered and strict case |
| OffloadPool.PooledSim.Submit | src/llmsim/parallel/offload.py:304-378 | Refused when closed, for a negative delay, or strict without one; otherwise one completion, scheduled or pending |
| OffloadPool.PooledSim.CancelEvent | src/llmsim/parallel/offload.py:140-173 | The three cases of cancelling, on the objects |
| OffloadPool.PooledSim.PollPending | src/llmsim/parallel/offload.py:380-396 | The loop computes the poll |
| OffloadPool.PooledSim.Drain | src/llmsim/parallel/offload.py:398-410 | False exactly when nothing is pending |
| OffloadPool.PooledSim.ClosePool | src/llmsim/parallel/offload.py:412-425 | Closing cancels every unprocessed offload; the order of the strict set does not matter |
| OffloadPool.CloseStrict | src/llmsim/parallel/offload.py:421-422 | Cancelling strict offloads in any order only marks them |
| Driver.RunUntil | src/llmsim/core/sim.py:86-114 | For every model, on a new simulation or one whose earlier runs came to their stop: the clock never goes back, the run cannot run dry before its stop, and at the stop now is `until`, the events processed are, in time order, exactly those ever scheduled below it, and the simulation can be run again |
| Driver.FirstIsLeast | src/llmsim/core/sim.py:237-245 | The event popped has the least (time, priority, id) |
| Driver.PacedIsRun | src/llmsim/rt.py:117-156 | After any number of rounds the paced driver has done what the plain one does in as many steps, or in those before drift was raised; no event begins before start + (T - t0) * factor |
| Driver.PacedTraceIsPrefix | src/llmsim/rt.py:117-156 | Its trace is a prefix of the plain driver's |
| DriverLoops.Simulation.RunTo | src/llmsim/core/sim.py:352-392 | The loop of `run(until=t)`, refusing times not after now, on a simulation that may have run to stops before: it adds to the trace, leaves at its stop what `Driver.RunUntil` says, and can be called again |
| DriverLoops.Simulation.RunPaced | src/llmsim/rt.py:117-156 | The paced loop computes the paced driver, whatever was traced before; no event it traces begins before its deadline |
| Analysis.SpeedupBounds | src/llmsim/parallel/pdes/analyze.py:64-92 | 1 <= predicted <= balance <= number of shards, for all traces with an event |
| Analysis.ShiftInvariant | src/llmsim/parallel/pdes/analyze.py:59-92 | Whatever the analysis returns for a trace is all it may return, also for the trace with all times shifted: errors, event counts, windows, balance and prediction |
| Analysis.Analyze | src/llmsim/parallel/pdes/analyze.py:59-92 | The loops compute that estimate, with the error cases and the case without events |
| Analysis.CountLoads | src/llmsim/parallel/pdes/analyze.py:80-83 | The nested loops count, per window and shard, its events |
| Analysis.ShareIsLength | src/llmsim/parallel/pdes/analyze.py:80-83 | Every event falls into exactly one window |
| SeedPaths.SeedPathDecodes | src/llmsim/rand/streams.py:44-65 | A seed path decodes to its triple, for every integer master; negative indices are refused |
| SeedPaths.ShardPathDecodes | src/llmsim/rand/streams.py:88-105 | A shard path decodes to its pair |
| SeedPaths.PathsUnambiguous | src/llmsim/rand/streams.py:44-105 | Both encodings are injective and their ranges are disjoint |

## Left out

- Building shards in threads: the two barriers of the build phase and a builder that fails; the threaded program
  starts when all shards are built and wired.
- Which of several failing shards a threaded run names: it depends on timing.
- `run(until=event)`, whose stop callback drops the callbacks after it, and `trigger` on an already triggered event.
- Users triggering process or condition events by hand, and yields of non-events or of another simulation's events.
- DriverLoops.Simulation.RunTo: not after a run that failed, which leaves its stop event in the schedule to end the
  next one; and that the run ends at all, for a model with endless zero-delay events, is a hypothesis.
- Stopping a run by a numeric `until` inside the engine state machine: `Driver` has it, over its own model of events.
- Values other than outcomes in `Kernel`: tracebacks, exception copies, the dictionary interface of condition values.
- Clockwork.QuiescentWhenClockMoves: that a resource's granted requests are triggered events of the engine is its
  hypothesis (`Standing`); resources and engine are not run as one state machine.
- The mailbox lock: draining and appending are single steps, which the barrier proof shows never to overlap.
- `PriorityStore`: its wakeups are those of `Store`; ties come out in heap order.
- Capacities that are not whole numbers, for slots and stores: only how many fit matters, so a capacity is a count.
- Grant rules as in-place code: `_do_put` and `_do_get` are functions of the resource's own state, which the retry
  loops assign; only queues and that state are changed in place.
- Releasing on leaving a `with` block: it is a cancellation followed by a release, both of which are modelled.
- Draining inside the paced driver, which resets its pacing origin: only non-strict offloads cause it.
- Executors, pickling, transport, warnings, the debug owner-thread guard and resolution of back ends.
- Replication (`parallel/replicate.py`), scenario stubs, trace canonicalisation, SHA-256 and random streams.
- Floating-point rounding: all arithmetic is exact.
