# Multi-level CPU scheduler, modelled in Dafny

This project models the scheduling engine of a small C program, `cpu-sheduler.c`, that simulates a multi-level CPU scheduler. The engine takes a batch of process records and does four things:

- It routes each record by `priority` into one of four queues: priority 0 goes to the CPU-1 queue, and priorities 1, 2 and 3 go to three queues served by CPU-2. It writes one routing line per routed process.
- It schedules each queue with its own discipline:
  - CPU-1: first come, first served (a no-op).
  - Priority 1: shortest job first, an in-place bubble sort on `burst_time`.
  - Priorities 2 and 3: round robin with quantum 8 and quantum 16, which drains every positive `remaining_time`.
- It fills an output buffer with fixed per-process completion lines, queue by queue, in each queue's final order.
- It prints one status line per queue: a label, `->`, then the identifiers joined by `-`.

Modules, one per component of the source:

- `processes.dfy` (`Processes`): the process record. `arrival`, `ram` and `cpu` are carried but never read.
- `text.dfy` (`Text`): the text shapes.
  - `Join` is the separator-joined list and `Split` is its inverse.
  - `Render` is the newline-terminated buffer built by appending one line after another.
- `routing.dfy` (`Routing`): the routing loop as a method, `RouteProcesses`. It is proved against `Select`, a stable filter by priority, and against `RoutingLines`.
- `sjf.dfy` (`ShortestJobFirst`): the bubble sort, `Sjf`, working in place on an array. Its inner loop is the method `BubblePass`. `Sjf` is proved equal to `SjfOrder`, a stable insertion sort by burst time.
- `round_robin.dfy` (`RoundRobinScheduling`): the sweep loop, `RoundRobin`, working in place on an array. Its inner `for` loop is the method `SweepQueue`, which carries the clock in and out. The file also holds the functions that describe one sweep.
- `scheduler.dfy` (`Scheduler`, `SchedulerFacts`):
  - the per-tier completion lines, `Fcfs`, the status-line loop, and the whole run `ScheduleProcesses`;
  - lemmas about the full trace.

Stability of SJF is stated as follows. For every burst time `b`, the sub-sequence of processes whose burst time is `b` is the same before and after (`SameTies`). With sortedness, this fixes the result uniquely (`StableSortUnique`). It also implies that the result is a permutation of the input (`TiesPermutation`).

In three places the model keeps behaviour of the code a reader might not expect:

- Priorities outside 0–3 are dropped silently, with no warning.
- Burst times are not required to be positive. A record with a non-positive remaining time is left untouched by round robin.
- The status labels number the queues `que1`…`que4`, while the routing lines say `que1`…`que3` for priorities 1–3.

## Model

| member | source | states |
|---|---|---|
| Routing.RouteProcesses | cpu-sheduler.c:100-120 | each tier is exactly the input's processes of that priority, in input order; the buffer holds exactly the rendered routing lines |
| Routing.RouteStep | cpu-sheduler.c:106-119 | one loop step appends the process to the end of its own tier only, and adds its routing line exactly when its priority is 0–3 |
| Routing.SelectCount | cpu-sheduler.c:106-119 | a process occurs in a tier as often as in the input if its priority matches, and never otherwise |
| Routing.SelectUnion | cpu-sheduler.c:106-119 | routing by two disjoint priority sets splits the routed multiset between them |
| Routing.TierPartition | cpu-sheduler.c:106-119 | the four tiers together hold each process of priority 0–3 exactly as often as the input does; their sizes add up to the number routed |
| Routing.SelectPrefix | cpu-sheduler.c:106-119 | the tiers built after the first n processes are prefixes of the final tiers |
| Routing.SelectAt | cpu-sheduler.c:107-118 | a routed process sits in its tier at the position given by the number of earlier processes of the same tier |
| Routing.SelectKeepsOrder | cpu-sheduler.c:106-119 | stable partition: two processes of one tier appear in it in input order |
| Routing.RoutingLinesShape | cpu-sheduler.c:107-118 | exactly one routing line per routed process, in input order, each with its tier's phrasing |
| ShortestJobFirst.Sjf | cpu-sheduler.c:168-179 | afterwards the queue is sorted by burst time, keeps every tie class in order, is a permutation of the input, and equals the stable reference order |
| ShortestJobFirst.SwapKeepsTies | cpu-sheduler.c:172-176 | swapping neighbours whose burst times differ, the only swap the strict comparison allows, keeps every tie class |
| ShortestJobFirst.BubblePass | cpu-sheduler.c:171-177 | one inner pass over the first m positions keeps every tie class and moves a longest process of the unsorted part to the end of it, growing the sorted tail by one |
| ShortestJobFirst.BubbleStep | cpu-sheduler.c:171-177 | one comparison moves the longest process seen so far one place right and leaves the sorted tail alone |
| ShortestJobFirst.SweepDone | cpu-sheduler.c:170-178 | at the end of an inner sweep the longest process of the unsorted part joins the sorted tail |
| ShortestJobFirst.ByBurstCount | cpu-sheduler.c:168-179 | a tie class holds exactly the processes of that burst time, with their multiplicities |
| ShortestJobFirst.TiesPermutation | cpu-sheduler.c:168-179 | keeping every tie class means no process is lost or duplicated |
| ShortestJobFirst.InsertTies | cpu-sheduler.c:172 | inserting a process puts it at the head of its tie class, so earlier processes stay ahead of later ones with the same burst time |
| ShortestJobFirst.InsertSorted | cpu-sheduler.c:168-179 | inserting into a sorted queue keeps it sorted and adds exactly the one process |
| ShortestJobFirst.SjfOrderCorrect | cpu-sheduler.c:168-179 | the reference order is sorted by burst time, stable, and a permutation of the queue |
| ShortestJobFirst.StableSortUnique | cpu-sheduler.c:168-179 | two orders sorted by burst time with the same tie classes are equal: the stable sort has one result |
| RoundRobinScheduling.SweepQueue | cpu-sheduler.c:186-197 | one sweep visits every process once in queue order, advances the clock by exactly the slices it granted, and reports done exactly when no process had time left |
| RoundRobinScheduling.VisitNext | cpu-sheduler.c:187-195 | one visit inside a sweep advances the clock by that process's slice and records whether it had time left |
| RoundRobinScheduling.RoundRobin | cpu-sheduler.c:181-202 | terminates for quantum > 0; every process that had time left ends at 0, all other processes and fields are unchanged; the clock ends at the total positive remaining time |
| RoundRobinScheduling.VisitTakesSlice | cpu-sheduler.c:187-195 | a visit to a process with time left takes exactly min(remaining, quantum) ticks off it and never goes below 0 |
| RoundRobinScheduling.SweepAccounting | cpu-sheduler.c:186-197 | over a sweep, the ticks added to the clock equal the work that disappears, and a sweep that finds work grants at least one tick |
| RoundRobinScheduling.TicksPrefix | cpu-sheduler.c:186-197 | the ticks granted to the first n processes depend only on those processes |
| RoundRobinScheduling.FinishedOwesNothing | cpu-sheduler.c:198-200 | when a sweep finds nothing to run, no work is owed |
| RoundRobinScheduling.SweepInProgress | cpu-sheduler.c:186-197 | a sweep changes only remaining times, keeps them non-negative for processes that started positive, and leaves the others alone |
| RoundRobinScheduling.FinishedIsDrained | cpu-sheduler.c:198-200 | once nothing has time left, the queue is the input with every positive remaining time set to 0 |
| RoundRobinScheduling.SweepStep | cpu-sheduler.c:183-201 | each sweep keeps clock plus owed work equal to the initial work, strictly reduces owed work if it ran anything, and otherwise ends the loop in the drained state |
| RoundRobinScheduling.OwedLoaded | cpu-sheduler.c:83 | for records as loaded (remaining = burst), the work round robin performs is the total positive burst time |
| Scheduler.TierLinesSnoc | cpu-sheduler.c:129-152 | one more process in a tier adds exactly its completion lines at the end |
| Scheduler.TierLinesAppend | cpu-sheduler.c:129-152 | the lines of two consecutive stretches of a tier are those of each, in order |
| Scheduler.TierLinesLength | cpu-sheduler.c:129-152 | a tier writes 2 lines per process for CPU-1 and SJF and 3 per process for round robin |
| Scheduler.TierLinesBlock | cpu-sheduler.c:129-152 | the lines of the i-th process of a tier start after the 2i or 3i lines of the processes before it, are exactly its completion lines, and are followed by those of the rest of the tier |
| Scheduler.TierLinesByIds | cpu-sheduler.c:129-152 | the tier lines depend only on the identifiers |
| Scheduler.EmitStep | cpu-sheduler.c:129-152 | writing one more process's lines extends the tier text by exactly those lines |
| Scheduler.EmitTier | cpu-sheduler.c:128-152 | the buffer gains exactly the rendered lines of the tier, process by process in tier order |
| Scheduler.Fcfs | cpu-sheduler.c:164-166 | the CPU-1 queue is left exactly as it is |
| Scheduler.QueueStatusShape | cpu-sheduler.c:217-227 | a status line is the label and `->`, nothing more for an empty queue, otherwise the identifiers separated by single dashes with no trailing dash; when no identifier contains a dash, the text after the arrow splits back into the identifiers |
| Scheduler.PrintQueueStatus | cpu-sheduler.c:217-227 | the printing loop emits exactly the status line and a newline |
| Scheduler.TraceRendered | cpu-sheduler.c:109-151 | the buffer is the routing text followed by the text of the four tiers in fixed order |
| Scheduler.SummaryRendered | cpu-sheduler.c:157-161 | the console text is the four status lines in tier order, each newline-terminated |
| Scheduler.ScheduleProcesses | cpu-sheduler.c:90-162 | the run's buffer is exactly the rendered trace (routing lines, then each tier's lines in post-scheduling order) and its console output the four status lines |
| SchedulerFacts.ScheduledSizes | cpu-sheduler.c:122-126 | no scheduling discipline changes the size of its tier |
| SchedulerFacts.TraceLineCount | cpu-sheduler.c:106-152 | the trace has 3 lines per priority-0 process, 3 per priority-1, 4 per priority-2 and 4 per priority-3 process, and none for other priorities |
| SchedulerFacts.RoundRobinLinesFixed | cpu-sheduler.c:140-152 | the round-robin tiers write the same lines whatever number of sweeps their processes took |
| SchedulerFacts.TraceByRoutedTiers | cpu-sheduler.c:122-152 | the trace in terms of the tiers as routed: CPU-1 and round robin in input order, SJF in stable burst order |
| SchedulerFacts.FourProcessTiers | cpu-sheduler.c:106-119 | for P1..P4 with priorities 0,1,1,2 the tiers are [P1], [P2,P3], [P4], [] |
| SchedulerFacts.FourProcessRouting | cpu-sheduler.c:107-118 | the same four processes get four routing lines, in input order |
| SchedulerFacts.FourProcessSjf | cpu-sheduler.c:168-179 | P2 (burst 10) and P3 (burst 3) are served as P3, P2, and the SJF status line ends `->P3-P2` |
| SchedulerFacts.FourProcessScheduled | cpu-sheduler.c:122-126 | after scheduling, the tiers are [P1], [P3,P2], [P4 with nothing left], [] |
| SchedulerFacts.FourProcessTierLines | cpu-sheduler.c:129-152 | the completion lines of each of those tiers, with P3's before P2's in the SJF tier |
| SchedulerFacts.FourProcessRun | cpu-sheduler.c:90-162 | the whole trace and tiers of the four-process run, in the order stated above |
| SchedulerFacts.EmptyRun | cpu-sheduler.c:90-162 | no input gives an empty trace and four status lines holding only their label and `->` |
| Text.SplitJoin | cpu-sheduler.c:220-225 | a dash-joined list of dash-free identifiers splits back into the list |
| Text.JoinSnoc | cpu-sheduler.c:220-225 | printing one more identifier after a non-empty list adds one dash and the identifier |
| Text.RenderAppend | cpu-sheduler.c:109 | appending lines to the buffer appends their rendering |
| Text.RenderExtend | cpu-sheduler.c:129-152 | a buffer holding some rendered lines, extended by the rendering of more lines, holds the rendering of all of them |
| Text.RenderSnoc | cpu-sheduler.c:109 | one more line appends that line and its newline |
| Text.SplitRender | cpu-sheduler.c:129-152 | a buffer of newline-free lines reads back, cut at newlines, as those lines followed by the empty piece after the last newline |

## Left out

- Loading the process list from a file (`parse_input_file`, fopen/fgets/sscanf/malloc) is not part of this model. The model takes a sequence of `Process` values. `Processes.Loaded` states the loader's one rule: remaining time equals burst time.
- Writing the buffer to `output.txt` and the `printf` calls are not modelled. The model returns the buffer (`output`) and the console text (`display`) as strings.
- `main` is not modelled: its argument-count check and exit codes are process plumbing.
- The fixed C buffers are replaced by unbounded sequences and exact-length arrays: 100 slots per tier, the 10000-char output buffer and the 10-char identifiers. Overflowing them is undefined behaviour in C and is not modelled.
- C `int` width is not modelled. The round-robin clock and `remaining_time` are unbounded integers. This matters only when a tier's total burst time exceeds 2^31 - 1.
- `RoundRobinScheduling.RoundRobin`: the source keeps `time` as a local that nothing reads. The model returns it, so that its final value can be stated.
- `RAM_SIZE`, `HIGH_PRIORITY_RAM`, `current_time` and `ram_usage` are declared but never used in the source. They have no counterpart in the model.
