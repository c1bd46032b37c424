# CPU scheduling engine — a Dafny model

This project models the scheduling engine of a small CPU-scheduling simulator. The engine has a `Process` record and five algorithms:
- First-Come-First-Served (FCFS);
- Shortest-Job-First (SJF), non-preemptive;
- Shortest-Remaining-Time (SRT), preemptive in unit steps;
- Round-Robin (RR) with a fixed quantum;
- a three-level Multi-Level Feedback Queue (MLFQ).

Each algorithm runs in integer time. It updates the process records in place (`remaining`, `start`, `completion`) and returns two lists:
- a Gantt list of `(pid, start, end)` segments;
- a result list of `(pid, wt, tat, rt)` rows.

The project also models the standalone `fcfs` of `tempCodeRunnerFile.py`. That one sorts the caller's list in place, writes the three metrics onto the records, and returns the Gantt list together with the list.

## How the model is organised

- `processes.dfy` (module `Processes`) holds:
  - the `Process` class. Its identity fields are `const` and its run-time fields are `var`;
  - `Task`, the value of a record at one moment;
  - `Row` and the shared metric formulas (`Metrics`).
- `timeline.dfy` (module `Timeline`) holds:
  - Gantt segments and per-process views of a Gantt list: busy time, first start, last end and segment count;
  - `ValidSchedule`, the property every algorithm is proved to meet.
- `list_ops.dfy` (module `ListOps`) holds:
  - Python's `list.sort`/`sorted` with a key, as the stable sort `SortBy` and the in-place `SortInPlace`;
  - `min(..., key=...)` as `FirstMinWhere`, which picks the first minimum;
  - `list.remove` as `RemoveFirst`.
- Each algorithm has its own module, in `fcfs.dfy`, `sjf.dfy`, `srt.dfy`, `rr.dfy` and `mlfq.dfy`. Each module has two layers:
  - a value-level state machine. A `State` datatype holds the records, the index lists standing for `remaining` or the deques, the clock, the Gantt list and the results. `Step`/`Dispatch` functions perform one pass of the loop body, and a `Run` function runs the loop to its end with an explicit termination measure. Lemmas prove an invariant over `Run` and conclude that the output is a valid schedule with the algorithm's own extra properties.
  - the imperative method, such as `Sjf` or `Rr`, which works on the `Process` objects. Its `while` loop carries a ghost abstract state, and its invariant ties the objects, lists and clock to that state. Its postcondition says that the returned lists, and the final values of the records, are exactly those of `Run`.
- `demo_fcfs.dfy` (module `StandaloneFcfs`) holds the standalone `fcfs` with its own `Process` class, which also stores the metrics. Its timeline is the main FCFS's `Plan`.

`ValidSchedule(jobs, g, results)` says:
- every segment is non-empty;
- segments come in increasing time and never overlap;
- every segment names a known process and starts no earlier than that process's arrival;
- each process's segments add up to its burst;
- the results are, as a multiset, one row per process, computed by the shared formulas from the process's first start and last end in the Gantt list.

## Model

| member | source | states |
|---|---|---|
| Processes.Process.constructor | CPU_Schedueling.py:8-15 | a new record keeps pid, arrival, burst and priority, has `remaining == burst`, and has start and completion unset |
| Processes.Metrics | CPU_Schedueling.py:222-224 | `tat = completion - arrival`, `wt = tat - burst`, `rt = start - arrival`; so `wt = rt +` the time spent ready after the first dispatch, `rt >= 0` when the start is not before arrival, and `wt == rt` for an uninterrupted run |
| ListOps.SortByIsStableSort | CPU_Schedueling.py:214 | the key sort is a permutation, is ordered by the key, and keeps records with equal keys in input order |
| ListOps.SortInPlace | CPU_Schedueling.py:214 | after `procs.sort(key=...)` the array holds the stable sort of its old contents |
| ListOps.FirstMinWhere | CPU_Schedueling.py:236 | `min` over a filtered list: none exactly when nothing qualifies; otherwise a qualifying element whose key is minimal among those that qualify and strictly smaller than that of every earlier one that qualifies (ties go to list order) |
| ListOps.RemoveFirst | CPU_Schedueling.py:245 | `list.remove(x)` removes exactly one occurrence of `x` |
| Timeline.ValidScheduleMetrics | CPU_Schedueling.py:222-224 | in a valid schedule of processes with positive bursts there is one row per process and every row has `0 <= rt <= wt` |
| Timeline.SpanCoversBusy | CPU_Schedueling.py:264-271 | in an ordered Gantt list the time from a process's first start to its last end covers its busy time, so `tat >= burst` |
| FirstComeFirstServed.Plan | CPU_Schedueling.py:215-221 | the loop emits exactly one segment per record (its per-position content is stated by `PlanAt`) |
| FirstComeFirstServed.Rows | CPU_Schedueling.py:222-225 | row `k` carries record `k`'s pid, `tat` = its segment's end minus its arrival, `wt = tat - burst`, and `rt` = its segment's start minus its arrival |
| FirstComeFirstServed.PlanAt | CPU_Schedueling.py:217-220 | segment `i` belongs to record `i`, starts at the later of the previous completion (or the initial clock) and its arrival, and lasts its burst |
| FirstComeFirstServed.PlanUnique | CPU_Schedueling.py:215-221 | any Gantt list built record by record under that rule is `Plan`: the loop's output is determined by its input |
| FirstComeFirstServed.PlanStarts | CPU_Schedueling.py:217-218 | no record starts before the initial clock or before its arrival |
| FirstComeFirstServed.PlanOrdered | CPU_Schedueling.py:216-221 | with positive bursts the segments are non-empty, do not overlap and are in increasing time |
| FirstComeFirstServed.WaitingEqualsResponse | CPU_Schedueling.py:222-224 | every FCFS row has `wt == rt >= 0` |
| FirstComeFirstServed.PlanIsValidSchedule | CPU_Schedueling.py:213-226 | with distinct pids and positive bursts, FCFS's Gantt list and rows form a valid schedule |
| FirstComeFirstServed.Fcfs | CPU_Schedueling.py:213-226 | the list is sorted stably by arrival in place; the Gantt list is `Plan` of the sorted records from time 0; the rows are their metrics; each record gets the start and completion of its segment |
| FirstComeFirstServed.SortByArrival | CPU_Schedueling.py:214 | the array becomes the stable sort of the same distinct objects, each with its values unchanged |
| FirstComeFirstServed.Dispatch | CPU_Schedueling.py:215-225 | the `for` loop produces `Plan` and its rows, and writes each segment's start and completion onto its record |
| FirstComeFirstServed.RunToCompletion | CPU_Schedueling.py:217-225 | one record starts at `max(time, arrival)`, runs its whole burst, gets its row, and only its start and completion change |
| ShortestJobFirst.Shortest | CPU_Schedueling.py:232-236 | none exactly when nothing has arrived; otherwise an arrived record of minimal burst, the first such in list order |
| ShortestJobFirst.Step | CPU_Schedueling.py:231-245 | each pass either removes one record or idles one unit, and then the distance to the latest arrival strictly shrinks |
| ShortestJobFirst.Run | CPU_Schedueling.py:231-246 | the loop ends with no record remaining |
| ShortestJobFirst.IdleStep | CPU_Schedueling.py:233-235 | when nothing has arrived, a one-unit idle step leads to the same final state and brings the latest arrival closer |
| ShortestJobFirst.Complete | CPU_Schedueling.py:236-245 | the picked record keeps pid, arrival and burst, starts now, runs its whole burst and completes at the new clock; it leaves the remaining list (and nothing else does); one segment for its run and its row are appended |
| ShortestJobFirst.CompleteStep | CPU_Schedueling.py:236-245 | when a record is picked, completing it leads to the same final state |
| ShortestJobFirst.SjfIsValidSchedule | CPU_Schedueling.py:228-246 | for fresh records with distinct pids and positive bursts, SJF yields a valid schedule; every process gets exactly one segment; no segment is longer than the burst of a process that had arrived when it began but was dispatched later |
| ShortestJobFirst.DispatchPicked | CPU_Schedueling.py:236-245 | running the picked record to completion performs `Complete` on the records, the Gantt list, the results and the clock |
| ShortestJobFirst.Sjf | CPU_Schedueling.py:228-246 | the rows, the Gantt list and the final record values are those of `Run` from the initial state |
| ShortestRemainingTime.ShortestRemaining | CPU_Schedueling.py:251-256 | none exactly when no record is available (arrived and with work left); otherwise an available record of least remaining time, the first such in list order |
| ShortestRemainingTime.Idle | CPU_Schedueling.py:252-255 | the records, the remaining list and the rows are unchanged and the clock advances by one; unless `last_pid` is the empty pid, no segment is open afterwards and the chart (closed segments plus the open one) is unchanged |
| ShortestRemainingTime.Switch | CPU_Schedueling.py:257-261 | the clock, the remaining list and the rows are unchanged; `last_pid` becomes the chosen pid; the chosen record's start is set to now only if unset; a pid different from `last_pid` opens a segment starting now |
| ShortestRemainingTime.Tick | CPU_Schedueling.py:262-273 | the clock advances by one and the chosen record's remaining time drops by one; the open segment is closed exactly when that remaining time reaches 0, and then the record's completion is the new clock |
| ShortestRemainingTime.Unit | CPU_Schedueling.py:256-273 | one pass with a chosen record advances the clock by one and lowers that record's remaining time by one |
| ShortestRemainingTime.Run | CPU_Schedueling.py:250-274 | the loop ends with no record remaining |
| ShortestRemainingTime.UnitEffect | CPU_Schedueling.py:256-273 | one unit of the chosen record: its remaining time drops by one, its start is set only on its first dispatch, it completes and leaves the list exactly when its remaining time reaches 0, and only then is its row added |
| ShortestRemainingTime.UnitWork | CPU_Schedueling.py:262 | every unit step lowers the total remaining work by exactly one |
| ShortestRemainingTime.UnitChart | CPU_Schedueling.py:257-260 | if the chosen pid equals `last_pid`, the open segment is extended by one unit; otherwise a new one-unit segment starts now |
| ShortestRemainingTime.IdleInv | CPU_Schedueling.py:252-255 | when nothing is available no segment is open, so the close-out at line 253 never fires, and the invariant survives the idle tick |
| ShortestRemainingTime.Step | CPU_Schedueling.py:250-273 | each pass lowers the remaining work, or keeps it and brings the latest arrival closer |
| ShortestRemainingTime.SrtIsValidSchedule | CPU_Schedueling.py:248-274 | for fresh records with distinct, non-empty pids and positive bursts, SRT yields a valid schedule in which neighbouring segments belong to different processes (consecutive units are merged) |
| ShortestRemainingTime.SelectShortestRemaining | CPU_Schedueling.py:251-256 | the filter and `min` return `ShortestRemaining` of the records' current values |
| ShortestRemainingTime.Wait | CPU_Schedueling.py:252-255 | the idle branch performs `Idle` |
| ShortestRemainingTime.Serve | CPU_Schedueling.py:257-273 | the dispatch-and-run branch performs `Unit` |
| ShortestRemainingTime.Pass | CPU_Schedueling.py:251-273 | one pass of the loop performs `Step` |
| ShortestRemainingTime.Srt | CPU_Schedueling.py:248-274 | the rows, the Gantt list and the final record values are those of `Run` from the initial state |
| RoundRobin.Dispatch | CPU_Schedueling.py:280-294 | each dispatch strictly lowers the queued work, so the loop ends |
| RoundRobin.Run | CPU_Schedueling.py:279-295 | the loop ends with an empty queue |
| RoundRobin.DispatchHead | CPU_Schedueling.py:280-294 | the head runs from `max(time, arrival)` for exactly `min(quantum, remaining)` units as one new segment, and its remaining time drops by that amount whether or not it completes; its start is set on its first dispatch; it either used a full quantum and goes to the tail of the queue, or completes with its row added |
| RoundRobin.RrIsValidSchedule | CPU_Schedueling.py:276-295 | for fresh records with distinct pids, positive bursts and `quantum > 0`: a valid schedule; no segment longer than the quantum; each process gets `ceil(burst / quantum)` segments; first dispatches follow arrival order |
| RoundRobin.Turn | CPU_Schedueling.py:280-294 | one pass of the loop on the deque of objects performs `Dispatch` |
| RoundRobin.Rr | CPU_Schedueling.py:276-295 | the rows, the Gantt list and the final values of the arrival-sorted records are those of `Run` |
| MultiLevelFeedbackQueue.FirstNonEmpty | CPU_Schedueling.py:301-303 | the scan picks the lowest-index non-empty queue, and none exactly when all are empty |
| MultiLevelFeedbackQueue.MoveSound | CPU_Schedueling.py:312-314 | a requeued process is moved to exactly one later level and every other membership is unchanged |
| MultiLevelFeedbackQueue.DispatchQueues | CPU_Schedueling.py:304-314 | the head leaves its queue; if requeued it is on level `i + 1` only (so never on a higher-priority level); nobody else moves |
| MultiLevelFeedbackQueue.Dispatch | CPU_Schedueling.py:304-320 | each dispatch adds one segment and strictly lowers the sum over queued processes of `3 - level` |
| MultiLevelFeedbackQueue.DispatchHead | CPU_Schedueling.py:305-320 | with positive quanta: the segment is non-empty and within the level's quantum; a requeued process used its full quantum at level 0 or 1; a dropped one completed at the segment's end |
| MultiLevelFeedbackQueue.RunTime | CPU_Schedueling.py:307 | a turn never exceeds the work left; on levels 0 and 1 it is at most the level's quantum and is either that quantum or all the work left; on level 2 it is all the work left |
| MultiLevelFeedbackQueue.ThirdQuantumUnused | CPU_Schedueling.py:307 | the outcome does not depend on `quanta[2]` or any later entry |
| MultiLevelFeedbackQueue.Step | CPU_Schedueling.py:301-322 | a pass over non-empty queues adds one segment and lowers the level measure |
| MultiLevelFeedbackQueue.Run | CPU_Schedueling.py:301-323 | the loop ends with every queue empty |
| MultiLevelFeedbackQueue.MlfqIsValidSchedule | CPU_Schedueling.py:297-323 | for fresh records with distinct pids, positive bursts and positive `quanta[0]`, `quanta[1]`: a valid schedule; each process gets one segment per level it reaches (at most 3); the first `n` segments are the level-0 turns in arrival order; first dispatches follow arrival order |
| MultiLevelFeedbackQueue.Advance | CPU_Schedueling.py:305-309 | one object runs from `max(time, arrival)` for its level's run time; its start is set only if unset |
| MultiLevelFeedbackQueue.Serve | CPU_Schedueling.py:304-320 | dispatching from level `i` on the deques of objects performs `Dispatch` |
| MultiLevelFeedbackQueue.Pass | CPU_Schedueling.py:301-322 | one pass of the `while` loop performs `Step` |
| MultiLevelFeedbackQueue.Enqueue | CPU_Schedueling.py:298-299 | all records go to level 0 in sorted order; levels 1 and 2 start empty |
| MultiLevelFeedbackQueue.Mlfq | CPU_Schedueling.py:297-323 | the rows, the Gantt list and the final values of the arrival-sorted records are those of `Run` |
| StandaloneFcfs.Process.constructor | tempCodeRunnerFile.py:6-16 | a new record has `remaining_time == burst_time`, no start or completion time, and zero metrics |
| StandaloneFcfs.GanttDispatches | tempCodeRunnerFile.py:23-32 | one segment per record, in list order; each starts at the later of the previous completion and the arrival and lasts the burst; the clock never goes back; no record starts before it arrives; `waiting_time == response_time >= 0` |
| StandaloneFcfs.GanttOrdered | tempCodeRunnerFile.py:28-32 | with positive bursts the segments are non-empty, do not overlap and are in increasing time |
| StandaloneFcfs.Fcfs | tempCodeRunnerFile.py:19-33 | the caller's list is sorted stably by arrival in place and returned; the Gantt list is the FCFS plan of the sorted records; each record gets its segment's times and metrics and nothing else changes; `waiting_time == response_time >= 0` |
| StandaloneFcfs.SortByArrivalTime | tempCodeRunnerFile.py:20 | the array becomes the stable sort of the same distinct objects, values unchanged |
| StandaloneFcfs.Dispatch | tempCodeRunnerFile.py:23-32 | the `for` loop yields the FCFS plan and writes each record's start, completion and metrics from its segment |
| StandaloneFcfs.RunRecord | tempCodeRunnerFile.py:24-32 | one record starts at `max(time, arrival_time)`, runs its burst, and gets start, response, completion, turnaround and waiting time; pid, priority and remaining time are untouched |

## Left out

- The Tkinter GUI is not modelled: window construction, widget toggling, `display_gantt` (which uses floats and `hash()` colours), and `messagebox` reporting. All of it is user interface.
- `load_file` and `save_results` are not modelled, because they are file I/O through CSV and JSON.
- String-to-int parsing in the `Process` constructors and in `run_scheduler` is not modelled. Fields are integers from the start, and pids are strings.
- `priority` is stored but never read by any algorithm, so no property mentions it.
- Default arguments are not modelled, because Dafny has no default parameters. These are `priority=0` in both `Process` constructors (CPU_Schedueling.py:8, used at line 102; tempCodeRunnerFile.py:6) and `quanta=[2,4,8]` in `mlfq` (CPU_Schedueling.py:297). Callers pass them explicitly. By `ThirdQuantumUnused`, only the first two quanta matter.
- FirstComeFirstServed.Plan: its own contract states only the number of segments. The content of each segment is stated by `PlanAt`, `PlanStarts` and `PlanOrdered`, which keeps the recursive function cheap to unfold.
- Python integers are unbounded and so are Dafny's, so no width or overflow is modelled.
- Processes.Process.constructor: arrival, burst and priority are `const`, which fixes that no algorithm reassigns them. The source does not make them read-only.
- StandaloneFcfs.Fcfs: pid, priority, arrival and burst are `const` there too, so "`fcfs` leaves them unchanged" holds by construction. That `remaining_time` is untouched is stated through `Dispatched`.
- FirstComeFirstServed.Fcfs: requires the list to hold distinct objects. The model does not capture what aliased entries would do. The same holds for StandaloneFcfs.Fcfs, ShortestJobFirst.Sjf, RoundRobin.Rr and MultiLevelFeedbackQueue.Mlfq.
- ShortestRemainingTime.Srt: requires distinct pids and positive remaining time, for two reasons.
  - With a burst of 0, the record never passes the filter at line 251 and the loop never ends.
  - With two records sharing a pid, the second can complete with `start` still `None`, and line 268 then fails.
- RoundRobin.Rr: requires `quantum > 0`, because with a quantum of 0 or less a queued record with positive remaining time runs for no time (or for negative time) and is requeued, so the loop never ends once such a record is queued. Only an empty list, or one whose records all have 0 remaining, would end. The source does not check the quantum.
- MultiLevelFeedbackQueue.Mlfq: requires at least two quanta, because `quanta[1]` is read; the third is never read (`ThirdQuantumUnused`). It does not require positive quanta, since the loop ends regardless.
- The validity theorems (`PlanIsValidSchedule`, `SjfIsValidSchedule`, `SrtIsValidSchedule`, `RrIsValidSchedule`, `MlfqIsValidSchedule`) assume fresh records with distinct pids and positive bursts. SRT also needs non-empty pids (line 253 tests a pid's truthiness), and MLFQ needs positive `quanta[0]` and `quanta[1]`. Without these assumptions, segments can be empty or merge different processes.
- Three branches are modelled literally but never taken, so they have no separate properties:
  - SRT's idle close-out at line 253 (`IdleInv` proves it never fires on valid input);
  - MLFQ's level-2 requeue at line 313 (level 2 runs everything left);
  - MLFQ's `for ... else` idle tick at line 322 (the loop only runs while some queue is non-empty).
- The model follows three facts about the code.
  - SJF breaks ties by list position only: `min` over the arrived records, in list order, keeps the first one of least burst (CPU_Schedueling.py:236), and `Shortest` states this.
  - No quantum, burst or pid uniqueness is ever validated. The model states these as preconditions where they matter (`Srt`, `Rr`, `Mlfq`, as listed above). It handles all other input as the code does; for example, an empty list yields empty results.
  - `quanta[2]` is never read (CPU_Schedueling.py:307), as `ThirdQuantumUnused` proves.
