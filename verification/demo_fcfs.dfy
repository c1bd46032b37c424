/**
 * The standalone First-Come-First-Served routine. It has its own `Process`
 * record, which also stores the three metrics, and an `fcfs` that:
 *   - sorts the caller's list in place by `arrival_time`;
 *   - dispatches the records in that order;
 *   - writes start, completion and the metrics onto every record;
 *   - returns the Gantt list together with that same list.
 * The timeline is the one of the main FCFS (`FirstComeFirstServed.Plan`).
 */
module StandaloneFcfs {
  import opened ListOps
  import opened Timeline
  import Processes
  import FirstComeFirstServed

  /** The values of a record at one moment. */
  datatype Record = Record(
    pid: string,
    arrivalTime: int,
    burstTime: int,
    remainingTime: int,
    priority: int,
    startTime: Option<int>,
    completionTime: Option<int>,
    waitingTime: int,
    turnaroundTime: int,
    responseTime: int)

  class Process {
    const pid: string
    const arrivalTime: int
    const burstTime: int
    const priority: int
    var remainingTime: int
    var startTime: Option<int>
    var completionTime: Option<int>
    var waitingTime: int
    var turnaroundTime: int
    var responseTime: int

    /** A new record: all of its burst remaining, no times set, metrics zero. */
    constructor (pid: string, arrival: int, burst: int, priority: int)
      ensures Snapshot() == Record(pid, arrival, burst, burst, priority, None, None, 0, 0, 0)
    {
      this.pid := pid;
      this.arrivalTime := arrival;
      this.burstTime := burst;
      this.priority := priority;
      remainingTime := burst;
      startTime := None;
      completionTime := None;
      waitingTime := 0;
      turnaroundTime := 0;
      responseTime := 0;
    }

    function Snapshot(): Record
      reads this
    {
      Record(pid, arrivalTime, burstTime, remainingTime, priority,
             startTime, completionTime, waitingTime, turnaroundTime, responseTime)
    }
  }

  /**
   * The current values of a list of records, position by position: the same
   * idea as `Processes.Snapshots`, over this file's own `Process` class.
   */
  function Records(ps: seq<Process>): (rs: seq<Record>)
    reads ps
    ensures |rs| == |ps|
    ensures forall i :: 0 <= i < |ps| ==> rs[i] == ps[i].Snapshot()
  {
    if ps == [] then [] else Records(ps[..|ps| - 1]) + [ps[|ps| - 1].Snapshot()]
  }

  /** The sort key `lambda p: p.arrival_time`. */
  function ArrivalTimeOf(p: Process): int {
    p.arrivalTime
  }

  /** The part of a record the timeline looks at. */
  function Job(r: Record): Processes.Task {
    Processes.Task(r.pid, r.arrivalTime, r.burstTime, r.remainingTime, r.startTime, r.completionTime)
  }

  function Jobs(rs: seq<Record>): (ts: seq<Processes.Task>)
    ensures |ts| == |rs|
    ensures forall i :: 0 <= i < |rs| ==> ts[i] == Job(rs[i])
  {
    seq(|rs|, i requires 0 <= i < |rs| => Job(rs[i]))
  }

  /** The Gantt list `fcfs` emits for records already in list order. */
  function Gantt(rs: seq<Record>): seq<Segment> {
    FirstComeFirstServed.Plan(Jobs(rs), 0)
  }

  /** The values the loop leaves on a record dispatched as segment `s`. */
  function Dispatched(r: Record, s: Segment): Record {
    r.(startTime := Some(s.start),
       completionTime := Some(s.end),
       responseTime := s.start - r.arrivalTime,
       turnaroundTime := s.end - r.arrivalTime,
       waitingTime := (s.end - r.arrivalTime) - r.burstTime)
  }

  /**
   * The Gantt list holds one segment per record, in list order. Each segment
   * starts at the later of the previous completion (0 for the first) and the
   * record's arrival, so the clock never goes back and no record starts
   * before it arrives. Each segment lasts the burst, so the waiting time the
   * loop writes equals the response time, and neither is negative.
   */
  lemma GanttDispatches(rs: seq<Record>)
    ensures |Gantt(rs)| == |rs|
    ensures forall i :: 0 <= i < |rs| ==>
              Gantt(rs)[i].pid == rs[i].pid && Gantt(rs)[i].end == Gantt(rs)[i].start + rs[i].burstTime
    ensures forall i :: 0 <= i < |rs| ==>
              Gantt(rs)[i].start == Max(if i == 0 then 0 else Gantt(rs)[i - 1].end, rs[i].arrivalTime)
    ensures forall i :: 0 < i < |rs| ==> Gantt(rs)[i - 1].end <= Gantt(rs)[i].start
    ensures forall i :: 0 <= i < |rs| ==> rs[i].arrivalTime <= Gantt(rs)[i].start
    ensures forall i :: 0 <= i < |rs| ==>
              Dispatched(rs[i], Gantt(rs)[i]).waitingTime == Dispatched(rs[i], Gantt(rs)[i]).responseTime >= 0
  {
    forall i | 0 <= i < |rs|
      ensures Gantt(rs)[i].pid == rs[i].pid && Gantt(rs)[i].end == Gantt(rs)[i].start + rs[i].burstTime
      ensures Gantt(rs)[i].start == Max(if i == 0 then 0 else Gantt(rs)[i - 1].end, rs[i].arrivalTime)
      ensures rs[i].arrivalTime <= Gantt(rs)[i].start
    {
      FirstComeFirstServed.PlanAt(Jobs(rs), 0, i);
      assert Jobs(rs)[i] == Job(rs[i]);
    }
  }

  /** With positive bursts the segments are non-empty, never overlap and come in increasing time. */
  lemma GanttOrdered(rs: seq<Record>)
    requires forall i :: 0 <= i < |rs| ==> rs[i].burstTime > 0
    ensures Positive(Gantt(rs)) && Ordered(Gantt(rs))
  {
    FirstComeFirstServed.PlanOrdered(Jobs(rs), 0);
  }

  /**
   * `fcfs(processes)`: sorts the caller's list in place, stably by arrival
   * time, then writes start, completion, response, turnaround and waiting
   * time onto each record in list order, and returns the Gantt list along
   * with the same list.
   */
  method Fcfs(processes: array<Process>) returns (gantt: seq<Segment>, result: array<Process>)
    requires Distinct(processes[..])
    modifies processes, processes[..]
    ensures result == processes
    ensures processes[..] == SortBy(old(processes[..]), ArrivalTimeOf)
    ensures gantt == Gantt(old(Records(SortBy(processes[..], ArrivalTimeOf))))
    ensures forall i :: 0 <= i < processes.Length ==>
              processes[i].Snapshot() == Dispatched(old(Records(SortBy(processes[..], ArrivalTimeOf)))[i], gantt[i])
    ensures forall i :: 0 <= i < processes.Length ==> processes[i].waitingTime == processes[i].responseTime >= 0
  {
    ghost var jobs := Records(SortBy(processes[..], ArrivalTimeOf));
    SortByArrivalTime(processes);
    gantt := Dispatch(processes, jobs);
    GanttDispatches(jobs);
    result := processes;
  }

  /** `processes.sort(key=lambda p: p.arrival_time)`: the same records, stably sorted, values untouched. */
  method SortByArrivalTime(processes: array<Process>)
    requires Distinct(processes[..])
    modifies processes
    ensures processes[..] == SortBy(old(processes[..]), ArrivalTimeOf)
    ensures Distinct(processes[..])
    ensures forall i :: 0 <= i < processes.Length ==> processes[i] in old(processes[..])
    ensures forall i :: 0 <= i < processes.Length ==>
              processes[i].Snapshot() == old(Records(SortBy(processes[..], ArrivalTimeOf)))[i]
  {
    ghost var sorted := SortBy(processes[..], ArrivalTimeOf);
    ghost var values := Records(sorted);
    SortedPermutes(processes[..], ArrivalTimeOf);
    SortInPlace(processes, ArrivalTimeOf);
    forall i | 0 <= i < processes.Length ensures processes[i].Snapshot() == values[i] {
      assert processes[i] == sorted[i];
    }
  }

  /**
   * The `for p in processes` loop: the clock moves up to the arrival if the
   * CPU is idle, the record gets its start, response time, completion,
   * turnaround and waiting time, and its segment is appended.
   */
  method Dispatch(processes: array<Process>, ghost jobs: seq<Record>) returns (gantt: seq<Segment>)
    requires Distinct(processes[..])
    requires |jobs| == processes.Length
    requires forall i :: 0 <= i < processes.Length ==> processes[i].Snapshot() == jobs[i]
    modifies processes[..]
    ensures gantt == Gantt(jobs)
    ensures forall i :: 0 <= i < processes.Length ==> processes[i].Snapshot() == Dispatched(jobs[i], gantt[i])
  {
    ghost var tasks := Jobs(jobs);
    var time := 0;
    gantt := [];
    for i := 0 to processes.Length
      invariant |gantt| == i
      invariant forall k :: 0 <= k < i ==> FirstComeFirstServed.IsDispatch(tasks, gantt, 0, k)
      invariant time == if i == 0 then 0 else gantt[i - 1].end
      invariant forall k :: 0 <= k < processes.Length ==>
                  processes[k].Snapshot() == if k < i then Dispatched(jobs[k], gantt[k]) else jobs[k]
    {
      var p := processes[i];
      var seg;
      seg, time := RunRecord(p, time);
      FirstComeFirstServed.DispatchSnoc(tasks, gantt, 0, seg);
      assert forall k :: 0 <= k < processes.Length && k != i ==> processes[k] != p by {
        assert forall k :: 0 <= k < processes.Length ==> processes[k] == processes[..][k];
      }
      gantt := gantt + [seg];
    }
    FirstComeFirstServed.PlanUnique(tasks, gantt, 0);
  }

  /** The body of the loop for one record `p`, with the clock at `time`. */
  method RunRecord(p: Process, time: int) returns (seg: Segment, time': int)
    modifies p
    ensures seg.pid == p.pid && seg.start == Max(time, p.arrivalTime)
    ensures seg.end == seg.start + p.burstTime == time'
    ensures p.Snapshot() == Dispatched(old(p.Snapshot()), seg)
  {
    time' := time;
    if time' < p.arrivalTime {
      time' := p.arrivalTime;
    }
    p.startTime := Some(time');
    p.responseTime := time' - p.arrivalTime;
    time' := time' + p.burstTime;
    p.completionTime := Some(time');
    p.turnaroundTime := time' - p.arrivalTime;
    p.waitingTime := p.turnaroundTime - p.burstTime;
    seg := Segment(p.pid, p.startTime.value, p.completionTime.value);
  }
}
