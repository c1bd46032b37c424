/**
 * Shortest-Job-First, non-preemptive: at each decision point the arrived
 * process with the smallest burst runs to completion; with nobody arrived
 * the clock advances one unit.
 */
module ShortestJobFirst {
  import opened ListOps
  import opened Processes
  import opened Timeline
  import FirstComeFirstServed

  /**
   * The simulation state: every record (`tasks`, in the caller's order), the
   * positions of the records still in the `remaining` list (in list order),
   * the clock, and the two output lists built so far.
   */
  datatype State = State(tasks: seq<Task>, rem: seq<nat>, time: int, gantt: seq<Segment>, results: seq<Row>)

  predicate WellFormed(st: State) {
    && (forall k :: 0 <= k < |st.rem| ==> st.rem[k] < |st.tasks|)
    && Distinct(st.rem)
  }

  function Initial(jobs: seq<Task>): (st: State)
    ensures WellFormed(st) && |st.rem| == |jobs|
  {
    State(jobs, seq(|jobs|, k requires 0 <= k < |jobs| => k), 0, [], [])
  }

  function BurstOf(t: Task): int {
    t.burst
  }

  /**
   * `min([p for p in remaining if p.arrival <= time], key=lambda x: x.burst)`,
   * as a position in the remaining list: nobody when nobody has arrived, else
   * an arrived record of smallest burst, the first such in list order.
   */
  function Shortest(ts: seq<Task>, time: int): (r: Option<nat>)
    ensures r.None? <==> forall i :: 0 <= i < |ts| ==> ts[i].arrival > time
    ensures r.Some? ==> r.value < |ts| && ts[r.value].arrival <= time
    ensures r.Some? ==> forall i :: 0 <= i < |ts| && ts[i].arrival <= time ==> ts[r.value].burst <= ts[i].burst
    ensures r.Some? ==> forall i :: 0 <= i < r.value && ts[i].arrival <= time ==> ts[r.value].burst < ts[i].burst
  {
    FirstMinWhere(ts, (t: Task) => t.arrival <= time, BurstOf)
  }

  /** The same choice made on the records themselves. */
  function ShortestRecord(ps: seq<Process>, time: int): Option<nat> {
    FirstMinWhere(ps, (p: Process) => p.arrival <= time, (p: Process) => p.burst)
  }

  lemma ShortestAgrees(ps: seq<Process>, ts: seq<Task>, time: int)
    requires |ps| == |ts| && forall i :: 0 <= i < |ps| ==> SameJob(ts[i], ps[i].Snapshot())
    ensures ShortestRecord(ps, time) == Shortest(ts, time)
  {
    FirstMinWhereAgree(ps, (p: Process) => p.arrival <= time, (p: Process) => p.burst,
                       ts, (t: Task) => t.arrival <= time, BurstOf);
  }

  function Pick(st: State): Option<nat>
    requires WellFormed(st)
  {
    Shortest(Project(st.tasks, st.rem), st.time)
  }

  function IdleBound(st: State): nat
    requires WellFormed(st)
  {
    var m := LatestArrival(st.tasks, st.rem);
    if m > st.time then m - st.time else 0
  }

  /**
   * The dispatch branch: the picked record starts now, completes `burst` later,
   * gets its segment and row, and leaves the remaining list.
   */
  function Complete(st: State, k: nat): (st': State)
    requires WellFormed(st) && k < |st.rem|
    ensures WellFormed(st') && |st'.rem| == |st.rem| - 1 && |st'.tasks| == |st.tasks|
    ensures var c, t := st.rem[k], st.tasks[st.rem[k]];
            && SameJob(st'.tasks[c], t) && Finished(st'.tasks[c])
            && st'.tasks[c].start == Some(st.time) && st'.tasks[c].completion == Some(st'.time)
            && st'.time - st.time == t.burst
            && multiset(st'.rem) == multiset(st.rem) - multiset{c}
            && st'.gantt == st.gantt + [Segment(t.pid, st.time, st'.time)]
            && st'.results == st.results + [RowOf(st'.tasks[c])]
  {
    var c := st.rem[k];
    RemoveAtCount(st.rem, k);
    var t := st.tasks[c];
    var seg := Segment(t.pid, st.time, st.time + t.burst);
    State(st.tasks[c := t.(start := Some(seg.start), completion := Some(seg.end))],
          st.rem[..k] + st.rem[k + 1..],
          seg.end,
          st.gantt + [seg],
          st.results + [Metrics(t.pid, t.arrival, t.burst, seg.start, seg.end)])
  }

  /** One pass of the `while remaining:` loop body. */
  function Step(st: State): (st': State)
    requires WellFormed(st) && st.rem != []
    ensures WellFormed(st') && |st'.tasks| == |st.tasks|
    ensures |st'.rem| < |st.rem| || (|st'.rem| == |st.rem| && IdleBound(st') < IdleBound(st))
  {
    match Pick(st)
    case None =>
      assert Project(st.tasks, st.rem)[0].arrival > st.time;
      st.(time := st.time + 1)
    case Some(k) => Complete(st, k)
  }

  /** The `while remaining:` loop, from state `st` to the end. */
  function Run(st: State): (r: State)
    requires WellFormed(st)
    ensures WellFormed(r) && r.rem == [] && |r.tasks| == |st.tasks|
    decreases |st.rem|, IdleBound(st)
  {
    if st.rem == [] then st else Run(Step(st))
  }

  // ---------------------------------------------------------------------
  // The schedule SJF produces
  // ---------------------------------------------------------------------

  /**
   * Shortest job first, read off the Gantt list: a process that had arrived
   * when an earlier segment began, but ran later, has a burst no smaller than
   * that segment's length.
   */
  ghost predicate ShortestFirst(jobs: seq<Task>, g: seq<Segment>) {
    forall a, b, j :: 0 <= a < b < |g| && 0 <= j < |jobs| && g[b].pid == jobs[j].pid && jobs[j].arrival <= g[a].start
      ==> g[a].end - g[a].start <= jobs[j].burst
  }

  /** Which records are untouched (still remaining) and which are finished. */
  ghost predicate Tracked(jobs: seq<Task>, st: State) {
    && WellFormed(st)
    && |st.tasks| == |jobs|
    && (forall i :: 0 <= i < |jobs| ==> SameJob(st.tasks[i], jobs[i]))
    && (forall i :: 0 <= i < |jobs| && i in st.rem ==> st.tasks[i] == jobs[i])
    && (forall i :: 0 <= i < |jobs| && i !in st.rem ==> Finished(st.tasks[i]))
  }

  /** Each record agrees with the Gantt list: one segment of its burst once it has run. */
  ghost predicate Accounted(jobs: seq<Task>, st: State)
    requires |st.tasks| == |jobs|
  {
    && (forall i :: 0 <= i < |jobs| ==> Recorded(st.tasks[i], st.gantt))
    && (forall i :: 0 <= i < |jobs| ==> Busy(st.gantt, jobs[i].pid) == (if i in st.rem then 0 else jobs[i].burst))
    && (forall i :: 0 <= i < |jobs| ==> SegmentCount(st.gantt, jobs[i].pid) == (if i in st.rem then 0 else 1))
  }

  /** The Gantt list so far is ordered, over by now, and names only known processes. */
  ghost predicate Shaped(jobs: seq<Task>, st: State) {
    && Positive(st.gantt) && Ordered(st.gantt) && EndsBy(st.gantt, st.time)
    && (forall a :: 0 <= a < |st.gantt| ==> st.gantt[a].pid in Pids(jobs))
  }

  /**
   * Shortest first so far, and no remaining process that had arrived when a
   * segment began is shorter than that segment.
   */
  ghost predicate ShortestSoFar(jobs: seq<Task>, st: State) {
    && ShortestFirst(jobs, st.gantt)
    && (forall a, i :: 0 <= a < |st.gantt| && 0 <= i < |jobs| && i in st.rem && jobs[i].arrival <= st.gantt[a].start
          ==> st.gantt[a].end - st.gantt[a].start <= jobs[i].burst)
  }

  /** What holds of every state of a run that started from `Initial(jobs)`. */
  ghost predicate Inv(jobs: seq<Task>, st: State) {
    && Tracked(jobs, st)
    && Accounted(jobs, st)
    && Shaped(jobs, st)
    && ShortestSoFar(jobs, st)
    && multiset(st.results) == multiset(FinishedRows(st.tasks))
  }

  /** The assumptions the validity theorem needs of the input records. */
  ghost predicate GoodJobs(jobs: seq<Task>) {
    && Distinct(Pids(jobs))
    && (forall j :: 0 <= j < |jobs| ==> jobs[j].burst > 0 && IsFresh(jobs[j]))
  }

  lemma InitialInv(jobs: seq<Task>)
    requires GoodJobs(jobs)
    ensures Inv(jobs, Initial(jobs))
  {
    var st := Initial(jobs);
    forall i | 0 <= i < |jobs| ensures i in st.rem {
      assert st.rem[i] == i;
    }
    assert FinishedRows(jobs) == [] by {
      NoneFinished(jobs);
    }
  }

  lemma IdleInv(jobs: seq<Task>, st: State)
    requires Inv(jobs, st)
    ensures Inv(jobs, st.(time := st.time + 1))
  {
    var st' := st.(time := st.time + 1);
    assert st'.tasks == st.tasks && st'.rem == st.rem && st'.gantt == st.gantt && st'.results == st.results;
    assert Tracked(jobs, st') && Accounted(jobs, st');
    assert Shaped(jobs, st');
    assert ShortestSoFar(jobs, st');
  }

  /** The per-process bookkeeping survives a dispatch. */
  lemma CompleteRecords(jobs: seq<Task>, st: State, k: nat)
    requires Tracked(jobs, st) && Accounted(jobs, st) && Distinct(Pids(jobs)) && k < |st.rem|
    requires Pick(st) == Some(k)
    ensures Tracked(jobs, Complete(st, k)) && Accounted(jobs, Complete(st, k))
  {
    var st' := Complete(st, k);
    var c := st.rem[k];
    var seg := st'.gantt[|st.gantt|];
    assert st'.gantt == st.gantt + [seg];
    assert st.tasks[c] == jobs[c];
    forall i | 0 <= i < |jobs|
      ensures i in st'.rem ==> st'.tasks[i] == jobs[i]
      ensures i !in st'.rem ==> Finished(st'.tasks[i])
    {
      RemovedIndex(st.rem, k, i);
    }
    forall i | 0 <= i < |jobs|
      ensures Recorded(st'.tasks[i], st'.gantt)
      ensures Busy(st'.gantt, jobs[i].pid) == (if i in st'.rem then 0 else jobs[i].burst)
      ensures SegmentCount(st'.gantt, jobs[i].pid) == (if i in st'.rem then 0 else 1)
    {
      CompleteRecord(jobs, st, k, i);
    }
  }

  /** One process's bookkeeping across a dispatch: only the dispatched one gains its segment. */
  lemma CompleteRecord(jobs: seq<Task>, st: State, k: nat, i: nat)
    requires Tracked(jobs, st) && Accounted(jobs, st) && Distinct(Pids(jobs)) && k < |st.rem| && i < |jobs|
    requires Pick(st) == Some(k)
    ensures var st' := Complete(st, k);
            && Recorded(st'.tasks[i], st'.gantt)
            && Busy(st'.gantt, jobs[i].pid) == (if i in st'.rem then 0 else jobs[i].burst)
            && SegmentCount(st'.gantt, jobs[i].pid) == (if i in st'.rem then 0 else 1)
  {
    var st' := Complete(st, k);
    var c := st.rem[k];
    var seg := st'.gantt[|st.gantt|];
    assert st'.gantt == st.gantt + [seg];
    assert st.tasks[c] == jobs[c];
    assert Project(st.tasks, st.rem)[k] == st.tasks[c];
    RemovedIndex(st.rem, k, i);
    AppendSegment(st.gantt, seg, jobs[i].pid);
    if i == c {
      NoSegmentOf(st.gantt, jobs[c].pid);
    } else {
      assert Pids(jobs)[i] != Pids(jobs)[c];
    }
  }

  /** The shape of the Gantt list and the shortest-first order survive a dispatch. */
  lemma CompleteTimeline(jobs: seq<Task>, st: State, k: nat)
    requires Tracked(jobs, st) && Shaped(jobs, st) && k < |st.rem|
    requires Pick(st) == Some(k)
    requires forall j :: 0 <= j < |jobs| ==> jobs[j].burst > 0
    ensures Shaped(jobs, Complete(st, k))
  {
    var st' := Complete(st, k);
    var c := st.rem[k];
    var seg := st'.gantt[|st.gantt|];
    assert st'.gantt == st.gantt + [seg];
    assert Project(st.tasks, st.rem)[k] == jobs[c];
    AppendOrdered(st.gantt, seg, st.time);
    assert Pids(jobs)[c] == seg.pid;
  }

  /** The new segment's process ran after every earlier segment: shortest first still holds. */
  lemma CompleteShortestFirst(jobs: seq<Task>, st: State, k: nat)
    requires Tracked(jobs, st) && ShortestSoFar(jobs, st) && Distinct(Pids(jobs)) && k < |st.rem|
    ensures ShortestFirst(jobs, Complete(st, k).gantt)
  {
    var g' := Complete(st, k).gantt;
    var c := st.rem[k];
    var g := st.gantt;
    assert g' == g + [g'[|g|]];
    forall a, b, j | 0 <= a < b < |g'| && 0 <= j < |jobs| && g'[b].pid == jobs[j].pid && jobs[j].arrival <= g'[a].start
      ensures g'[a].end - g'[a].start <= jobs[j].burst
    {
      if b == |g| {
        assert Pids(jobs)[j] == Pids(jobs)[c];
      }
    }
  }

  /** The new segment is no longer than any arrived remaining process: it was the shortest. */
  lemma CompleteShortestRemaining(jobs: seq<Task>, st: State, k: nat)
    requires Tracked(jobs, st) && ShortestSoFar(jobs, st) && k < |st.rem|
    requires Pick(st) == Some(k)
    ensures var st' := Complete(st, k);
            forall a, i :: 0 <= a < |st'.gantt| && 0 <= i < |jobs| && i in st'.rem && jobs[i].arrival <= st'.gantt[a].start
              ==> st'.gantt[a].end - st'.gantt[a].start <= jobs[i].burst
  {
    var st' := Complete(st, k);
    var c := st.rem[k];
    var g := st.gantt;
    var proj := Project(st.tasks, st.rem);
    assert st'.gantt == g + [st'.gantt[|g|]];
    assert proj[k] == jobs[c];
    forall a, i | 0 <= a < |st'.gantt| && 0 <= i < |jobs| && i in st'.rem && jobs[i].arrival <= st'.gantt[a].start
      ensures st'.gantt[a].end - st'.gantt[a].start <= jobs[i].burst
    {
      RemovedIndex(st.rem, k, i);
      if a == |g| {
        var j :| 0 <= j < |st.rem| && st.rem[j] == i;
        assert proj[j] == jobs[i];
      }
    }
  }

  lemma CompleteInv(jobs: seq<Task>, st: State, k: nat)
    requires Inv(jobs, st) && GoodJobs(jobs) && k < |st.rem|
    requires Pick(st) == Some(k)
    ensures Inv(jobs, Complete(st, k))
  {
    var st' := Complete(st, k);
    var c := st.rem[k];
    var t := st.tasks[c];
    CompleteRecords(jobs, st, k);
    CompleteTimeline(jobs, st, k);
    CompleteShortestFirst(jobs, st, k);
    CompleteShortestRemaining(jobs, st, k);
    assert !Finished(t) by {
      assert t == jobs[c];
    }
    FinishedRowsUpdate(st.tasks, c, st'.tasks[c]);
  }

  lemma StepInv(jobs: seq<Task>, st: State)
    requires Inv(jobs, st) && GoodJobs(jobs) && st.rem != []
    ensures Inv(jobs, Step(st))
  {
    match Pick(st)
    case None => IdleInv(jobs, st);
    case Some(k) => CompleteInv(jobs, st, k);
  }

  lemma {:induction false} RunInv(jobs: seq<Task>, st: State)
    requires Inv(jobs, st) && GoodJobs(jobs)
    ensures Inv(jobs, Run(st))
    decreases |st.rem|, IdleBound(st)
  {
    if st.rem != [] {
      StepInv(jobs, st);
      RunInv(jobs, Step(st));
    }
  }

  /**
   * Over processes with distinct pids, positive bursts and fresh records, SJF
   * produces a valid schedule in which every process runs in one piece, and
   * no process that had arrived when a segment began was shorter than it.
   */
  lemma SjfIsValidSchedule(jobs: seq<Task>)
    requires GoodJobs(jobs)
    ensures var fin := Run(Initial(jobs));
            && ValidSchedule(jobs, fin.gantt, fin.results)
            && ShortestFirst(jobs, fin.gantt)
            && (forall j :: 0 <= j < |jobs| ==> SegmentCount(fin.gantt, jobs[j].pid) == 1)
  {
    InitialInv(jobs);
    RunInv(jobs, Initial(jobs));
    var fin := Run(Initial(jobs));
    forall i | 0 <= i < |jobs| ensures Busy(fin.gantt, fin.tasks[i].pid) == fin.tasks[i].burst {
      assert SameJob(fin.tasks[i], jobs[i]);
    }
    ValidFromRecords(jobs, fin.tasks, fin.gantt, fin.results);
  }

  // ---------------------------------------------------------------------
  // The imperative algorithm
  // ---------------------------------------------------------------------

  /** The choice on the remaining records is the choice `Run` makes. */
  lemma PickAgrees(procs: seq<Process>, st: State, remaining: seq<Process>)
    requires WellFormed(st) && Mirrors(procs, remaining, st.tasks, st.rem)
    ensures ShortestRecord(remaining, st.time) == Pick(st)
  {
    ShortestAgrees(remaining, Project(st.tasks, st.rem), st.time);
  }

  lemma IdleStep(st: State)
    requires WellFormed(st) && st.rem != [] && Pick(st).None?
    ensures Run(st.(time := st.time + 1)) == Run(st)
    ensures IdleBound(st.(time := st.time + 1)) < IdleBound(st)
  {
    assert Step(st) == st.(time := st.time + 1);
  }

  lemma CompleteStep(st: State, k: nat)
    requires WellFormed(st) && k < |st.rem| && Pick(st) == Some(k)
    ensures Run(Complete(st, k)) == Run(st)
  {
  }

  /** The records after running the picked one to completion are the records of `Complete`. */
  lemma CompleteMatches(st: State, k: nat, procs: seq<Process>, seg: Segment, row: Row)
    requires WellFormed(st) && k < |st.rem| && |st.tasks| == |procs|
    requires var t := st.tasks[st.rem[k]];
             && seg == Segment(t.pid, st.time, st.time + t.burst)
             && row == Metrics(t.pid, t.arrival, t.burst, seg.start, seg.end)
             && procs[st.rem[k]].Snapshot() == t.(start := Some(seg.start), completion := Some(seg.end))
    requires forall j :: 0 <= j < |procs| && j != st.rem[k] ==> procs[j].Snapshot() == st.tasks[j]
    ensures Complete(st, k).gantt == st.gantt + [seg]
    ensures Complete(st, k).results == st.results + [row]
    ensures Complete(st, k).time == seg.end
    ensures forall j :: 0 <= j < |procs| ==> procs[j].Snapshot() == Complete(st, k).tasks[j]
  {
  }

  /**
   * The dispatch branch of the loop: the picked record runs to completion and
   * leaves the remaining list; afterwards the records mirror `Complete(st, k)`.
   */
  method DispatchPicked(procs: seq<Process>, remaining: seq<Process>, time: int, k: nat, ghost st: State)
    returns (seg: Segment, row: Row, time': int, remaining': seq<Process>)
    requires WellFormed(st) && Mirrors(procs, remaining, st.tasks, st.rem) && time == st.time
    requires k < |remaining| && Pick(st) == Some(k)
    modifies remaining[k]
    ensures k < |st.rem| && WellFormed(Complete(st, k)) && Mirrors(procs, remaining', Complete(st, k).tasks, Complete(st, k).rem)
    ensures Complete(st, k).gantt == st.gantt + [seg]
    ensures Complete(st, k).results == st.results + [row]
    ensures Complete(st, k).time == time'
  {
    var p := remaining[k];
    ghost var c := st.rem[k];
    assert p.Snapshot() == st.tasks[c] && st.tasks[c].arrival <= time by {
      assert Project(st.tasks, st.rem)[k] == st.tasks[c];
    }
    seg, row, time' := FirstComeFirstServed.RunToCompletion(p, time);
    assert forall j :: 0 <= j < |procs| && j != c ==> procs[j].Snapshot() == st.tasks[j] by {
      assert forall j :: 0 <= j < |procs| && j != c ==> procs[j] != p;
    }
    CompleteMatches(st, k, procs, seg, row);
    RemoveStep(procs, st.rem, remaining, k);
    remaining' := RemoveFirst(remaining, p);
    ghost var st' := Complete(st, k);
    assert st'.rem == st.rem[..k] + st.rem[k + 1..];
    assert Mirrors(procs, remaining', st'.tasks, st'.rem);
  }

  /**
   * `sjf(procs)`: copies the list, then repeatedly dispatches the shortest
   * arrived record to completion (or lets the clock tick when nobody has
   * arrived) until the copy is empty.
   */
  method Sjf(procs: seq<Process>) returns (results: seq<Row>, gantt: seq<Segment>)
    requires Distinct(procs)
    modifies procs
    ensures results == Run(Initial(old(Snapshots(procs)))).results
    ensures gantt == Run(Initial(old(Snapshots(procs)))).gantt
    ensures forall k :: 0 <= k < |procs| ==> procs[k].Snapshot() == Run(Initial(old(Snapshots(procs)))).tasks[k]
  {
    ghost var st := Initial(Snapshots(procs));
    ghost var final := Run(st);
    var time := 0;
    gantt, results := [], [];
    var remaining := procs;
    while remaining != []
      invariant WellFormed(st) && Mirrors(procs, remaining, st.tasks, st.rem) && Run(st) == final
      invariant time == st.time && gantt == st.gantt && results == st.results
      decreases |st.rem|, IdleBound(st)
    {
      PickAgrees(procs, st, remaining);
      var pick := ShortestRecord(remaining, time);
      if pick.None? {
        IdleStep(st);
        time := time + 1;
        st := st.(time := st.time + 1);
      } else {
        var k := pick.value;
        CompleteStep(st, k);
        ghost var st' := Complete(st, k);
        var seg, row;
        seg, row, time, remaining := DispatchPicked(procs, remaining, time, k, st);
        results := results + [row];
        gantt := gantt + [seg];
        st := st';
      }
    }
  }
}
