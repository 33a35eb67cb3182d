# Process scheduler — a verified model of the scheduling core

`process-scheduler.py` is a small tkinter application (`SchedulerApp`). It
reads a form of five process rows, each given as arrival time, burst time
and priority, where a blank field reads as 0. It simulates one of four CPU scheduling policies, then shows:

- a Gantt chart of the resulting schedule;
- the average waiting time;
- the average turnaround time;
- the CPU utilization.

This project models the scheduling core of that application in Dafny:

- the four policies `fcfs`, `sjf`, `priority_scheduling` and `round_robin`;
- the part of `run_scheduler` that builds the process table, checks the time
  quantum, dispatches to a policy and computes the integer totals behind the
  displayed metrics.

It proves properties of those models.

Modules (one file each):

- `Sorting` (`sorting.dfy`) is Python's stable `sorted`/`list.sort` by a key.
  It is an insertion sort, proved to be a permutation, sorted and stable.
  Sort-then-`pop(0)` is proved to take the leftmost element with the least key.
- `Processes` (`processes.dfy`) holds the process record, a schedule entry
  (pid, duration) and a policy's outcome (schedule, waiting times, turnaround
  times). It also holds the sums the metrics use and facts about sorting by
  arrival.
- `Fcfs` (`fcfs.dfy`): `fcfs`.
- `NonPreemptive` (`nonpreemptive.dfy`): `sjf` and `priority_scheduling`.
  These are the same loop with a different sort key, so one method takes the
  key as a parameter.
- `RoundRobin` (`round_robin.dfy`): `round_robin`.
- `Scheduler` (`scheduler.dfy`): `run_scheduler` without its drawing.

Each policy is modelled twice:

- A loop method that changes its state step by step, as the Python does. Its
  `ensures` ties the result to the second model.
- A pure specification: one loop iteration as a function on the loop's state,
  and the whole loop as its iteration until the loop condition fails.

The properties are lemmas about the specification. The process dictionaries
become records. The SJF and Priority ready queue holds those records. The
Round Robin ready queue holds positions in the arrival-sorted table. Round Robin's `remaining` fields become a sequence local to the run.

The code's behaviour differs in places from what one would expect of these
policies. The model follows the code, and these points are proved:

- **SJF and Priority re-dispatch finished processes.**
  - They never decrement `remaining`, and they stop after exactly n dispatches.
  - A finished process is therefore admitted again and may run again, and
    another process may never run.
  - On P1(0,7), P2(2,4), P3(4,1), SJF gives `[(P1,7),(P3,1),(P3,1)]` with
    waiting `{P1:0, P3:4}` and turnaround `{P1:7, P3:5}`. P2 has no entry in
    either map.
  - The displayed utilization is then 12/9 × 100, above 100%.
  - A row whose burst is not positive is never admitted. The loop still ends
    as long as some burst is positive, because the positive ones are
    re-dispatched. With no positive burst at all it never ends.
- **Round Robin re-queues before it admits.**
  - A preempted process is re-queued before the admission pass that follows
    its slice. So processes that arrived during the slice queue behind it.
  - On P1(0,5), P2(1,3), P3(2,1) with quantum 2, the schedule is
    `[(P1,2),(P1,2),(P2,2),(P3,1),(P1,1),(P2,1)]`.
  - Turnaround is `{P1:8, P2:8, P3:5}` and waiting is `{P1:3, P2:5, P3:4}`.
- **Round Robin can loop forever.**
  - It ends only when the quantum is at least 1 and every burst is positive.
    The quantum check accepts `"0"`, and with quantum 0 no process ever
    finishes.
  - A row with burst 0 is never admitted but is counted in
    `remaining_processes`. Whatever the quantum, that count then never
    reaches 0.
  - The form always has five rows, and a blank row reads as burst 0. So Round
    Robin with fewer than five filled-in rows does not return.
- **FCFS and Round Robin give full utilization.** Their schedules have no idle
  entries. So the reported CPU utilization is exactly 100% whenever any time
  was scheduled.
- **An FCFS example.** On P1(0,5), P2(1,3), P3(2,8), FCFS gives waiting
  `{P1:0, P2:4, P3:6}` and turnaround `{P1:5, P2:7, P3:14}`.

## Model

| member | source | states |
|---|---|---|
| Sorting.SortBy | process-scheduler.py:196 | sorting returns a sequence of the same length holding the same elements (a permutation) |
| Sorting.SortBySorted | process-scheduler.py:196 | the result of sorting is ordered by the key |
| Sorting.SortByStable | process-scheduler.py:235 | elements with equal keys keep their relative order (stable sort) |
| Sorting.LeftmostMin | process-scheduler.py:235-237 | the leftmost position holding the least key: no element has a smaller key, and every earlier element has a strictly greater key |
| Sorting.SortByHead | process-scheduler.py:235-237 | the head of the sorted queue is the leftmost element with the least key, so sort-then-`pop(0)` selects it |
| Processes.ByArrivalKeeps | process-scheduler.py:196 | sorting by arrival keeps the set of pids, their distinctness and the total burst |
| Fcfs.FirstComeFirstServed | process-scheduler.py:195-212 | the loop returns the schedule and both maps of the one-pass FCFS specification over the arrival-sorted table |
| Fcfs.FcfsSchedule | process-scheduler.py:196-208 | one entry per process, entry i is (pid, burst) of the i-th process in arrival order; that order is a permutation of the input, sorted by arrival, with equal arrivals in input order |
| Fcfs.FcfsTimes | process-scheduler.py:202-210 | both maps have exactly the pids as keys; each waiting time is the start time (the later of the previous completion and the arrival) minus the arrival, is at least 0, and turnaround = waiting + burst |
| Fcfs.ClockMonotone | process-scheduler.py:202-209 | with non-negative bursts the clock never decreases, each process starts no earlier than the clock, and a process finishes before the next one starts |
| Fcfs.FcfsTotalTime | process-scheduler.py:203-209 | the schedule's durations sum to the total burst |
| Fcfs.FcfsExample | process-scheduler.py:195-212 | P1(0,5), P2(1,3), P3(2,8) give schedule P1 5, P2 3, P3 8, waiting {P1:0,P2:4,P3:6} and turnaround {P1:5,P2:7,P3:14} |
| NonPreemptive.AdmitArrived | process-scheduler.py:227-229 | the admission loop returns the queue of the admission specification |
| NonPreemptive.AdmitFacts | process-scheduler.py:227-229 | admission keeps every queued process, adds only arrived processes with work from the table, and leaves none of those out |
| NonPreemptive.Iterate | process-scheduler.py:226-244 | one loop iteration (admit, idle tick or sort and dispatch) gives the step specification's state |
| NonPreemptive.Schedule | process-scheduler.py:214-246 | the ready-queue loop returns the outcome of running the step specification until n dispatches have happened |
| NonPreemptive.ShortestJobFirst | process-scheduler.py:214-246 | `sjf` is the shared loop with the burst as sort key |
| NonPreemptive.PriorityScheduling | process-scheduler.py:248-280 | `priority_scheduling` is the shared loop with the priority as sort key |
| NonPreemptive.IdleBeforeHorizon | process-scheduler.py:231-233 | an idle tick only happens before the latest arrival of a process with work, so idle ticks cannot go on for ever |
| NonPreemptive.DispatchChoice | process-scheduler.py:227-243 | a dispatched process is from the table, has arrived, has positive burst, has the least key among all admissible processes and is the leftmost such in the queue; its (pid, burst) is appended and the clock advances by its burst; otherwise no process is admissible and only the clock moves |
| NonPreemptive.RunLength | process-scheduler.py:226-244 | the loop ends with completed = n and appends exactly one entry per dispatch |
| NonPreemptive.RunSound | process-scheduler.py:226-244 | the loop preserves: queued processes are admissible, both maps share keys drawn from the pids, every recorded waiting is at least 0 with turnaround = waiting + burst, and each entry is (pid, burst) of a positive-burst process |
| NonPreemptive.NonPreemptiveProperties | process-scheduler.py:226-244 | for distinct pids: exactly n entries, each the (pid, burst) of a positive-burst process; the maps have the same keys, each of them a pid; each recorded waiting is at least 0 and turnaround = waiting + burst |
| NonPreemptive.ByArrivalTerminates | process-scheduler.py:215 | sorting keeps the loop's termination condition (empty table or some positive burst) |
| NonPreemptive.NoWorkStalls | process-scheduler.py:226-233 | with no positive burst every iteration is an idle tick: completed and the outcome never change and the clock advances by one per iteration |
| NonPreemptive.SjfRedispatchExample | process-scheduler.py:214-246 | SJF on P1(0,7), P2(2,4), P3(4,1) gives [(P1,7),(P3,1),(P3,1)], waiting {P1:0,P3:4}, turnaround {P1:7,P3:5} |
| RoundRobin.RrAdmitArrived | process-scheduler.py:297-299 | the admission loop returns the queue of the admission specification |
| RoundRobin.RrAdmitFacts | process-scheduler.py:297-299 | admission keeps the queue as a prefix and appends, without duplicates, exactly the arrived positions with remaining work that were not queued |
| RoundRobin.RrAdmitNothingNew | process-scheduler.py:297-299 | when every arrived process with work is already queued, admission changes nothing |
| RoundRobin.RrIterate | process-scheduler.py:296-319 | one loop iteration gives the step specification's state |
| RoundRobin.ResetRemaining | process-scheduler.py:293-294 | `remaining` starts as the bursts |
| RoundRobin.SettleWaiting | process-scheduler.py:321-322 | the final loop sets each waiting time to turnaround minus burst |
| RoundRobin.RoundRobinSchedule | process-scheduler.py:282-324 | the method returns the outcome of running the step specification until `remaining_processes` is 0, followed by the final waiting loop |
| RoundRobin.RrInitialValid | process-scheduler.py:286-294 | the initial state satisfies the queue invariant |
| RoundRobin.RrStepValid | process-scheduler.py:296-319 | each iteration keeps the invariant: 0 ≤ remaining ≤ burst; `remaining_processes` counts the positive remainders; the queue holds only arrived positions with work, without duplicates; turnaround keys are exactly the finished pids. The total remaining work never grows, and when it does not shrink the iteration was an idle tick before the latest arrival |
| RoundRobin.RrIdleBeforeHorizon | process-scheduler.py:301-303 | an idle tick only happens before the latest arrival |
| RoundRobin.RrRun | process-scheduler.py:296-319 | with quantum ≥ 1 the loop ends, with `remaining_processes` at 0 and the invariant intact |
| RoundRobin.RrStepAccount | process-scheduler.py:305-319 | each iteration keeps the accounting: a pid's scheduled time is burst minus remaining, total scheduled time is total burst minus remaining work, every entry lasts 1 to quantum units, and a finished process's turnaround is at least its burst |
| RoundRobin.RrRunFinal | process-scheduler.py:296-319 | at the end each process got exactly its burst, the durations sum to the total burst, turnaround keys are all pids and each turnaround is at least the burst |
| RoundRobin.AllFinished | process-scheduler.py:315-319 | when `remaining_processes` reaches 0 every pid has a turnaround time |
| RoundRobin.SettleFacts | process-scheduler.py:321-322 | the final loop sets waiting = turnaround − burst for every pid, with exactly the pids as keys |
| RoundRobin.RoundRobinSlices | process-scheduler.py:305-310 | every slice lasts between 1 and quantum units and belongs to a known pid, and the durations sum to the total burst |
| RoundRobin.RoundRobinCpuTime | process-scheduler.py:305-310 | each process's slices add up to exactly its burst |
| RoundRobin.RoundRobinTimes | process-scheduler.py:315-322 | both maps have exactly the pids as keys, turnaround ≥ burst, and waiting = turnaround − burst ≥ 0 |
| RoundRobin.RequeueBeforeArrivals | process-scheduler.py:297-316 | a process preempted with work left goes to the back of the queue, and the next admission pass only appends behind it |
| RoundRobin.QuantumZeroStalls | process-scheduler.py:306-318 | with quantum 0, any number of iterations leaves `remaining_processes` at n and `remaining` at the bursts |
| RoundRobin.NonPositiveBurstStalls | process-scheduler.py:291-319 | with a non-positive burst in the table, for any quantum and any number of iterations, `remaining_processes` stays at least 1, so the loop never ends |
| RoundRobin.NonPositiveBurstNeverRuns | process-scheduler.py:296-319 | a position with remaining ≤ 0 is never queued, keeps its remaining, never appears in the schedule and never gets a turnaround |
| RoundRobin.RoundRobinExample | process-scheduler.py:282-324 | quantum 2 on P1(0,5), P2(1,3), P3(2,1) gives [(P1,2),(P1,2),(P2,2),(P3,1),(P1,1),(P2,1)], waiting {P1:3,P2:5,P3:4}, turnaround {P1:8,P2:8,P3:5} |
| Scheduler.DecimalRoundTrip | process-scheduler.py:104 | the decimal text of a number reads back as that number |
| Scheduler.TableDistinct | process-scheduler.py:100-104 | the table has one process per row and the pids P1, P2, … are distinct |
| Scheduler.BuildTable | process-scheduler.py:99-104 | the row loop builds the table with pid `P{i+1}` for row i |
| Scheduler.Utilization | process-scheduler.py:127 | utilization is 100 × total burst / total time as an exact fraction with positive denominator, and 0 when the total time is not positive |
| Scheduler.RunReport | process-scheduler.py:106-130 | the result is "invalid quantum" exactly for Round Robin with a quantum that is not all digits, "invalid algorithm" exactly for an unknown name, and otherwise carries the table's total burst |
| Scheduler.SumOfValues | process-scheduler.py:129-130 | the loop returns the sum of the map's values |
| Scheduler.RunScheduler | process-scheduler.py:95-130 | the method returns the report of the dispatch specification |
| Scheduler.FcfsMetrics | process-scheduler.py:106-130 | for FCFS the total time equals the total burst (utilization exactly 100% when positive), both maps have one entry per row, and the turnaround sum is the waiting sum plus the total burst |
| Scheduler.FcfsSums | process-scheduler.py:125-130 | the same totals stated for any table with distinct pids |
| Scheduler.RoundRobinMetrics | process-scheduler.py:112-130 | for Round Robin with a quantum of at least 1: the same three facts as for FCFS |
| Scheduler.RoundRobinSums | process-scheduler.py:125-130 | the same totals for any table with distinct pids and positive bursts |
| Scheduler.QuantumZeroAccepted | process-scheduler.py:113-116 | "0" passes the digit check and reads as 0, and Round Robin then never lowers `remaining_processes` from n |
| Scheduler.SjfUtilizationExample | process-scheduler.py:108-127 | SJF on P1(0,7), P2(2,4), P3(4,1) has total burst 12 and total time 9, so utilization is 1200/9 percent, above 100 |

## Left out

- The window, its widgets, the `Clear` button, the metric labels and the Gantt
  chart (`__init__`, `clear_entries`, `display_metrics`, `draw_gantt_chart`,
  the main block) have no scheduling logic.
- Reading the entry text with `int(... or 0)` is left out. The model takes rows
  whose fields are already integers, with a blank field as 0. Text that is
  not a number raises an exception in the source, which the model does not
  represent.
- `str.isdigit` is modelled on ASCII digits only. Other Unicode digit
  characters that Python accepts are not modelled.
- The floating-point averages and utilization are not computed. The model
  keeps their integer numerators and denominators instead: the sums, the
  counts, and the utilization as an exact fraction.
- The division by `len(...)` in the averages fails when a map is empty. The
  model reports the count as 0 and does not model the exception. With the
  five-row form a map is never empty once a policy returns.
- The running waiting-time accumulation inside the Round Robin loop
  (`waiting_times[p["pid"]] += exec_time`) is left out. The final loop always
  overwrites it before it is returned.
- Round Robin writes `remaining` into the caller's process dictionaries. The
  model keeps `remaining` local to the run. `run_scheduler` builds fresh
  dictionaries on every run, so nothing observable depends on that write.
- `p not in ready_queue` compares dictionaries by value. The model compares by
  position (Round Robin) or by record (SJF and Priority). The pids are
  distinct, so these agree.
- Output text written to the window ("Invalid Time Quantum", "Invalid
  Algorithm Selected", "Scheduling Result:") becomes the report's
  constructors.
- Inputs on which the source loops for ever are excluded by the
  preconditions of `RunScheduler` and of the policy specifications:
  - SJF and Priority with no positive burst;
  - Round Robin with quantum 0 or with a non-positive burst.

  What happens on those inputs is stated by `NonPreemptive.NoWorkStalls`,
  `RoundRobin.QuantumZeroStalls`, `RoundRobin.NonPositiveBurstStalls` and
  `RoundRobin.NonPositiveBurstNeverRuns`.
