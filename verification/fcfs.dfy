/**
 * First-Come-First-Served: the list is sorted in place by arrival (stably),
 * then each process in turn runs its whole burst, starting at the later of its
 * arrival and the previous completion.
 */
module FirstComeFirstServed {
  import opened ListOps
  import opened Processes
  import opened Timeline

  /**
   * The FCFS timeline of records taken in list order with the clock at `time`:
   * the clock jumps forward to an arrival it is behind, then runs the burst.
   */
  function Plan(jobs: seq<Task>, time: int): (g: seq<Segment>)
    ensures |g| == |jobs|
  {
    if jobs == [] then []
    else
      var start := if time < jobs[0].arrival then jobs[0].arrival else time;
      [Segment(jobs[0].pid, start, start + jobs[0].burst)] + Plan(jobs[1..], start + jobs[0].burst)
  }

  /** The results FCFS appends: one row per record, in dispatch order. */
  function Rows(jobs: seq<Task>, g: seq<Segment>): (rs: seq<Row>)
    requires |g| == |jobs|
    ensures |rs| == |jobs|
    ensures forall k :: 0 <= k < |jobs| ==>
              && rs[k].pid == jobs[k].pid
              && rs[k].tat == g[k].end - jobs[k].arrival
              && rs[k].wt == rs[k].tat - jobs[k].burst
              && rs[k].rt == g[k].start - jobs[k].arrival
  {
    seq(|jobs|, i requires 0 <= i < |jobs| => Metrics(jobs[i].pid, jobs[i].arrival, jobs[i].burst, g[i].start, g[i].end))
  }

  lemma RowsSnoc(jobs: seq<Task>, g: seq<Segment>, t: Task, s: Segment)
    requires |g| == |jobs|
    ensures Rows(jobs + [t], g + [s]) == Rows(jobs, g) + [Metrics(t.pid, t.arrival, t.burst, s.start, s.end)]
  {
  }

  /** Extending the Gantt list by the next record's segment extends the rows by that record's row. */
  lemma RowsPrefix(jobs: seq<Task>, g: seq<Segment>, s: Segment)
    requires |g| < |jobs|
    ensures var t := jobs[|g|];
            Rows(jobs[..|g| + 1], g + [s]) == Rows(jobs[..|g|], g) + [Metrics(t.pid, t.arrival, t.burst, s.start, s.end)]
  {
    RowsSnoc(jobs[..|g|], g, jobs[|g|], s);
    assert jobs[..|g|] + [jobs[|g|]] == jobs[..|g| + 1];
  }

  /**
   * Position by position: the i-th segment belongs to the i-th record, starts
   * at the later of the previous completion (or `time`) and its arrival, and
   * lasts exactly its burst.
   */
  lemma {:induction false} PlanAt(jobs: seq<Task>, time: int, i: nat)
    requires i < |jobs|
    ensures Plan(jobs, time)[i].pid == jobs[i].pid
    ensures Plan(jobs, time)[i].end == Plan(jobs, time)[i].start + jobs[i].burst
    ensures var prev := if i == 0 then time else Plan(jobs, time)[i - 1].end;
            Plan(jobs, time)[i].start == (if prev < jobs[i].arrival then jobs[i].arrival else prev)
  {
    if i > 0 {
      var start := if time < jobs[0].arrival then jobs[0].arrival else time;
      var rest := Plan(jobs[1..], start + jobs[0].burst);
      assert Plan(jobs, time) == [Segment(jobs[0].pid, start, start + jobs[0].burst)] + rest;
      PlanAt(jobs[1..], start + jobs[0].burst, i - 1);
    }
  }

  /**
   * The k-th segment is the FCFS dispatch of the k-th record: same process,
   * starting at the later of its arrival and the previous completion (`time`
   * for the first), lasting its burst.
   */
  ghost predicate IsDispatch(jobs: seq<Task>, g: seq<Segment>, time: int, k: nat)
    requires k < |jobs| && k < |g|
  {
    var prev := if k == 0 then time else g[k - 1].end;
    && g[k].pid == jobs[k].pid
    && g[k].start == (if prev < jobs[k].arrival then jobs[k].arrival else prev)
    && g[k].end == g[k].start + jobs[k].burst
  }

  lemma DispatchSnoc(jobs: seq<Task>, g: seq<Segment>, time: int, s: Segment)
    requires |g| < |jobs|
    requires forall k :: 0 <= k < |g| ==> IsDispatch(jobs, g, time, k)
    requires var prev := if g == [] then time else g[|g| - 1].end;
             && s.pid == jobs[|g|].pid
             && s.start == (if prev < jobs[|g|].arrival then jobs[|g|].arrival else prev)
             && s.end == s.start + jobs[|g|].burst
    ensures forall k :: 0 <= k <= |g| ==> IsDispatch(jobs, g + [s], time, k)
  {
    forall k | 0 <= k <= |g| ensures IsDispatch(jobs, g + [s], time, k) {
      if k < |g| {
        assert IsDispatch(jobs, g, time, k);
      }
    }
  }

  /** The FCFS timeline is the only one in which every segment is the FCFS dispatch. */
  lemma {:induction false} PlanUnique(jobs: seq<Task>, g: seq<Segment>, time: int)
    requires |g| == |jobs|
    requires forall k :: 0 <= k < |jobs| ==> IsDispatch(jobs, g, time, k)
    ensures g == Plan(jobs, time)
  {
    if jobs != [] {
      assert IsDispatch(jobs, g, time, 0);
      forall k | 0 <= k < |jobs| - 1 ensures IsDispatch(jobs[1..], g[1..], g[0].end, k) {
        assert IsDispatch(jobs, g, time, k + 1);
      }
      PlanUnique(jobs[1..], g[1..], g[0].end);
      assert g == [g[0]] + g[1..];
    }
  }

  /**
   * With non-negative bursts every FCFS segment begins no earlier than `time`
   * and no earlier than its process's arrival.
   */
  lemma {:induction false} PlanStarts(jobs: seq<Task>, time: int)
    requires forall j :: 0 <= j < |jobs| ==> jobs[j].burst >= 0
    ensures forall i :: 0 <= i < |jobs| ==>
              time <= Plan(jobs, time)[i].start && jobs[i].arrival <= Plan(jobs, time)[i].start
  {
    if jobs != [] {
      var start := if time < jobs[0].arrival then jobs[0].arrival else time;
      var rest := Plan(jobs[1..], start + jobs[0].burst);
      PlanStarts(jobs[1..], start + jobs[0].burst);
      var g := Plan(jobs, time);
      assert g == [Segment(jobs[0].pid, start, start + jobs[0].burst)] + rest;
      forall i | 1 <= i < |jobs|
        ensures time <= g[i].start && jobs[i].arrival <= g[i].start
      {
        assert jobs[1..][i - 1] == jobs[i];
        assert g[i] == rest[i - 1];
      }
    }
  }

  /** With positive bursts the FCFS segments are non-empty, never overlap and come in increasing time. */
  lemma PlanOrdered(jobs: seq<Task>, time: int)
    requires forall j :: 0 <= j < |jobs| ==> jobs[j].burst > 0
    ensures Positive(Plan(jobs, time)) && Ordered(Plan(jobs, time))
  {
    var g := Plan(jobs, time);
    forall i | 0 <= i < |g| ensures g[i].start < g[i].end {
      PlanAt(jobs, time, i);
    }
    PlanInOrder(jobs, time);
  }

  lemma {:induction false} PlanInOrder(jobs: seq<Task>, time: int)
    requires forall j :: 0 <= j < |jobs| ==> jobs[j].burst >= 0
    ensures Ordered(Plan(jobs, time))
  {
    if jobs != [] {
      var start := if time < jobs[0].arrival then jobs[0].arrival else time;
      var seg := Segment(jobs[0].pid, start, start + jobs[0].burst);
      var rest := Plan(jobs[1..], start + jobs[0].burst);
      PlanInOrder(jobs[1..], start + jobs[0].burst);
      PlanStarts(jobs[1..], start + jobs[0].burst);
      assert Plan(jobs, time) == [seg] + rest;
      OrderedCons(seg, rest);
    }
  }

  /** FCFS never leaves a gap after the first dispatch: every row has `wt == rt >= 0`. */
  lemma WaitingEqualsResponse(jobs: seq<Task>, time: int)
    ensures forall k :: 0 <= k < |jobs| ==>
              Rows(jobs, Plan(jobs, time))[k].wt == Rows(jobs, Plan(jobs, time))[k].rt >= 0
  {
    forall k | 0 <= k < |jobs|
      ensures Rows(jobs, Plan(jobs, time))[k].wt == Rows(jobs, Plan(jobs, time))[k].rt >= 0
    {
      PlanAt(jobs, time, k);
    }
  }

  lemma PlanPids(jobs: seq<Task>, time: int)
    ensures forall i :: 0 <= i < |jobs| ==> Plan(jobs, time)[i].pid == jobs[i].pid
  {
    forall i | 0 <= i < |jobs| ensures Plan(jobs, time)[i].pid == jobs[i].pid {
      PlanAt(jobs, time, i);
    }
  }

  /** With distinct pids, the j-th segment is the only one of the j-th process. */
  lemma PlanJob(jobs: seq<Task>, time: int, j: nat)
    requires Distinct(Pids(jobs)) && j < |jobs|
    ensures Busy(Plan(jobs, time), jobs[j].pid) == jobs[j].burst
    ensures var s := Plan(jobs, time)[j];
            GanttRow(jobs[j], Plan(jobs, time)) == Metrics(jobs[j].pid, jobs[j].arrival, jobs[j].burst, s.start, s.end)
  {
    var g := Plan(jobs, time);
    PlanPids(jobs, time);
    PlanAt(jobs, time, j);
    forall i | 0 <= i < |g| && i != j ensures g[i].pid != g[j].pid {
      assert Pids(jobs)[i] != Pids(jobs)[j];
    }
    SoleSegment(g, j);
  }

  /** FCFS over processes with distinct pids and positive bursts is a valid schedule. */
  lemma {:induction false} PlanIsValidSchedule(jobs: seq<Task>)
    requires Distinct(Pids(jobs))
    requires forall j :: 0 <= j < |jobs| ==> jobs[j].burst > 0
    ensures ValidSchedule(jobs, Plan(jobs, 0), Rows(jobs, Plan(jobs, 0)))
  {
    PlanShape(jobs);
    PlanRows(jobs);
  }

  /** Each process gets exactly its burst, and the rows are the ones the Gantt list implies. */
  lemma PlanRows(jobs: seq<Task>)
    requires Distinct(Pids(jobs))
    ensures var g := Plan(jobs, 0);
            && (forall j :: 0 <= j < |jobs| ==> Busy(g, jobs[j].pid) == jobs[j].burst)
            && Rows(jobs, g) == ExpectedRows(jobs, g)
  {
    PlanJobs(jobs);
    RowsAreExpected(jobs, Plan(jobs, 0));
  }

  /** PlanJob for every position at once. */
  lemma PlanJobs(jobs: seq<Task>)
    requires Distinct(Pids(jobs))
    ensures var g := Plan(jobs, 0);
            forall j :: 0 <= j < |jobs| ==>
              && Busy(g, jobs[j].pid) == jobs[j].burst
              && GanttRow(jobs[j], g) == Metrics(jobs[j].pid, jobs[j].arrival, jobs[j].burst, g[j].start, g[j].end)
  {
    forall j | 0 <= j < |jobs| {
      PlanJob(jobs, 0, j);
    }
  }

  /** Rows that agree one by one with the Gantt-derived rows are the Gantt-derived rows. */
  lemma RowsAreExpected(jobs: seq<Task>, g: seq<Segment>)
    requires |g| == |jobs|
    requires forall j :: 0 <= j < |jobs| ==>
      GanttRow(jobs[j], g) == Metrics(jobs[j].pid, jobs[j].arrival, jobs[j].burst, g[j].start, g[j].end)
    ensures Rows(jobs, g) == ExpectedRows(jobs, g)
  {
    ExpectedRowsLength(jobs, g);
  }

  /** The FCFS segments are ordered, name only known processes, and none starts before its process arrives. */
  lemma PlanShape(jobs: seq<Task>)
    requires Distinct(Pids(jobs))
    requires forall j :: 0 <= j < |jobs| ==> jobs[j].burst > 0
    ensures var g := Plan(jobs, 0);
            && Positive(g) && Ordered(g)
            && (forall i :: 0 <= i < |g| ==> g[i].pid in Pids(jobs))
            && (forall j, i :: 0 <= j < |jobs| && 0 <= i < |g| && g[i].pid == jobs[j].pid ==> jobs[j].arrival <= g[i].start)
  {
    var g := Plan(jobs, 0);
    PlanOrdered(jobs, 0);
    PlanStarts(jobs, 0);
    PlanPids(jobs, 0);
    forall j, i | 0 <= j < |jobs| && 0 <= i < |g| && g[i].pid == jobs[j].pid
      ensures jobs[j].arrival <= g[i].start
    {
      assert Pids(jobs)[i] == Pids(jobs)[j];
    }
    forall i | 0 <= i < |g| ensures g[i].pid in Pids(jobs) {
      assert Pids(jobs)[i] == g[i].pid;
    }
  }

  /**
   * `fcfs(procs)`: sorts the list in place by arrival, then dispatches each
   * record in list order (`Dispatch`).
   */
  method Fcfs(procs: array<Process>) returns (results: seq<Row>, gantt: seq<Segment>)
    requires Distinct(procs[..])
    modifies procs, procs[..]
    ensures procs[..] == SortBy(old(procs[..]), ArrivalOf)
    ensures gantt == Plan(SortBy(old(Snapshots(procs[..])), TaskArrival), 0)
    ensures results == Rows(SortBy(old(Snapshots(procs[..])), TaskArrival), gantt)
    ensures forall i :: 0 <= i < procs.Length ==>
              procs[i].Snapshot()
              == SortBy(old(Snapshots(procs[..])), TaskArrival)[i].(start := Some(gantt[i].start), completion := Some(gantt[i].end))
  {
    ghost var jobs := SortBy(Snapshots(procs[..]), TaskArrival);
    SortByArrival(procs);
    results, gantt := Dispatch(procs, jobs);
  }

  /** `procs.sort(key=lambda p: p.arrival)`: the same records, stably sorted, with their values unchanged. */
  method SortByArrival(procs: array<Process>)
    requires Distinct(procs[..])
    modifies procs
    ensures procs[..] == SortBy(old(procs[..]), ArrivalOf)
    ensures forall i :: 0 <= i < procs.Length ==> procs[i] in old(procs[..])
    ensures forall i, j :: 0 <= i < j < procs.Length ==> procs[i] != procs[j]
    ensures forall i :: 0 <= i < procs.Length ==> procs[i].Snapshot() == SortBy(old(Snapshots(procs[..])), TaskArrival)[i]
  {
    ghost var before := procs[..];
    ghost var sorted, values := SortBy(before, ArrivalOf), SortBy(Snapshots(before), TaskArrival);
    SortedValues(before);
    SortInPlace(procs, ArrivalOf);
    SnapshotsUnchanged(sorted);
    forall i | 0 <= i < procs.Length ensures procs[i] == sorted[i] && procs[i].Snapshot() == values[i] {
      assert procs[i] == procs[..][i];
    }
  }

  /**
   * The FCFS loop: each record in list order gets `start` set to the clock
   * (moved up to its arrival if idle) and `completion` to `start + burst`, and
   * its segment and results row are appended.
   */
  method Dispatch(procs: array<Process>, ghost jobs: seq<Task>) returns (results: seq<Row>, gantt: seq<Segment>)
    requires forall i, j :: 0 <= i < j < procs.Length ==> procs[i] != procs[j]
    requires |jobs| == procs.Length && forall i :: 0 <= i < procs.Length ==> procs[i].Snapshot() == jobs[i]
    modifies procs[..]
    ensures gantt == Plan(jobs, 0)
    ensures results == Rows(jobs, gantt)
    ensures forall i :: 0 <= i < procs.Length ==>
              procs[i].Snapshot() == jobs[i].(start := Some(gantt[i].start), completion := Some(gantt[i].end))
  {
    var n := procs.Length;
    var time := 0;
    gantt, results := [], [];
    var i := 0;
    while i < n
      invariant 0 <= i <= n
      invariant |gantt| == |results| == i
      invariant forall k :: 0 <= k < i ==> IsDispatch(jobs, gantt, 0, k)
      invariant time == if i == 0 then 0 else gantt[i - 1].end
      invariant results == Rows(jobs[..i], gantt)
      invariant forall k :: 0 <= k < n ==>
                  procs[k].Snapshot()
                  == if k < i then jobs[k].(start := Some(gantt[k].start), completion := Some(gantt[k].end)) else jobs[k]
    {
      var seg, row;
      seg, row, time := RunToCompletion(procs[i], time);
      DispatchSnoc(jobs, gantt, 0, seg);
      RowsPrefix(jobs, gantt, seg);
      results := results + [row];
      gantt := gantt + [seg];
      i := i + 1;
    }
    assert jobs[..n] == jobs;
    PlanUnique(jobs, gantt, 0);
  }

  /**
   * Runs one record to completion without preemption (the body of the FCFS
   * loop, and the dispatch branch of SJF): the clock moves up to the arrival if
   * the CPU is idle, the record gets its `start` and `completion`, and its
   * segment and results row are produced.
   */
  method RunToCompletion(p: Process, time: int) returns (seg: Segment, row: Row, time': int)
    modifies p
    ensures seg.pid == p.pid && seg.start == (if time < p.arrival then p.arrival else time)
    ensures seg.end == seg.start + p.burst == time'
    ensures row == Metrics(p.pid, p.arrival, p.burst, seg.start, seg.end)
    ensures p.Snapshot() == old(p.Snapshot()).(start := Some(seg.start), completion := Some(seg.end))
  {
    time' := time;
    if time' < p.arrival {
      time' := p.arrival;
    }
    p.start := Some(time');
    p.completion := Some(time' + p.burst);
    time' := time' + p.burst;
    seg := Segment(p.pid, p.start.value, p.completion.value);
    row := Metrics(p.pid, p.arrival, p.burst, p.start.value, p.completion.value);
  }
}
