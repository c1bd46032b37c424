/**
 * Round-Robin: the records, sorted stably by arrival, form a deque; the record
 * at the head runs for at most one quantum, starting no earlier than its
 * arrival, and goes back to the tail if it still has work, else completes.
 */
module RoundRobin {
  import opened ListOps
  import opened Processes
  import opened Timeline

  /**
   * The simulation state: every record (in the deque's initial order), the
   * positions of the records in the deque (head first), the clock and the two
   * output lists.
   */
  datatype State = State(tasks: seq<Task>, queue: seq<nat>, time: int, gantt: seq<Segment>, results: seq<Row>)

  /** Positions are valid and no record is queued twice. */
  predicate WellFormed(st: State) {
    && (forall k :: 0 <= k < |st.queue| ==> st.queue[k] < |st.tasks|)
    && Distinct(st.queue)
  }

  /** `deque(sorted(procs, ...))` once sorted: every record queued, in list order. */
  function Initial(jobs: seq<Task>): (st: State)
    ensures WellFormed(st) && |st.queue| == |jobs|
  {
    State(jobs, Range(0, |jobs|), 0, [], [])
  }

  /** What a queued record still owes the loop: its positive remaining time, plus one for its place. */
  function Load(t: Task): nat {
    (if t.remaining > 0 then t.remaining else 0) + 1
  }

  /** The termination measure: the load of every queued record. */
  function Backlog(ts: seq<Task>, idx: seq<nat>): nat
    requires forall k :: 0 <= k < |idx| ==> idx[k] < |ts|
  {
    if idx == [] then 0 else Load(ts[idx[0]]) + Backlog(ts, idx[1..])
  }

  lemma {:induction false} BacklogAppend(ts: seq<Task>, idx: seq<nat>, c: nat)
    requires c < |ts| && forall k :: 0 <= k < |idx| ==> idx[k] < |ts|
    ensures Backlog(ts, idx + [c]) == Backlog(ts, idx) + Load(ts[c])
  {
    if idx != [] {
      assert (idx + [c])[1..] == idx[1..] + [c];
      BacklogAppend(ts, idx[1..], c);
    }
  }

  lemma {:induction false} BacklogFrame(ts: seq<Task>, idx: seq<nat>, c: nat, t: Task)
    requires c < |ts| && c !in idx && forall k :: 0 <= k < |idx| ==> idx[k] < |ts|
    ensures Backlog(ts[c := t], idx) == Backlog(ts, idx)
  {
    if idx != [] {
      assert idx[0] in idx;
      BacklogFrame(ts, idx[1..], c, t);
    }
  }

  /**
   * One pass of the `while queue:` loop body: the head record starts at the
   * later of the clock and its arrival (its first dispatch is recorded if it
   * has none), runs `min(quantum, remaining)` units, and either goes back to
   * the tail or completes and gets its row. The backlog strictly shrinks, so
   * the loop ends.
   */
  function Dispatch(st: State, quantum: int): (st': State)
    requires WellFormed(st) && st.queue != [] && quantum > 0
    ensures WellFormed(st') && |st'.tasks| == |st.tasks|
    ensures Backlog(st'.tasks, st'.queue) < Backlog(st.tasks, st.queue)
  {
    var c := st.queue[0];
    var t := st.tasks[c];
    var start := Max(st.time, t.arrival);
    var run := Min(quantum, t.remaining);
    var end := start + run;
    var t1 := t.(start := if t.start.None? then Some(start) else t.start, remaining := t.remaining - run);
    var gantt := st.gantt + [Segment(t.pid, start, end)];
    var rest := st.queue[1..];
    assert c !in rest;
    if t1.remaining > 0 then
      BacklogFrame(st.tasks, rest, c, t1);
      BacklogAppend(st.tasks[c := t1], rest, c);
      State(st.tasks[c := t1], rest + [c], end, gantt, st.results)
    else
      var t2 := t1.(completion := Some(end));
      BacklogFrame(st.tasks, rest, c, t2);
      State(st.tasks[c := t2], rest, end, gantt, st.results + [Metrics(t.pid, t.arrival, t.burst, t2.start.value, end)])
  }

  /** The `while queue:` loop, from state `st` to the end. */
  function Run(st: State, quantum: int): (r: State)
    requires WellFormed(st) && quantum > 0
    ensures WellFormed(r) && r.queue == [] && |r.tasks| == |st.tasks|
    decreases Backlog(st.tasks, st.queue)
  {
    if st.queue == [] then st else Run(Dispatch(st, quantum), quantum)
  }

  // ---------------------------------------------------------------------
  // The schedule Round-Robin produces
  // ---------------------------------------------------------------------

  /** No segment is longer than one quantum. */
  predicate WithinQuantum(g: seq<Segment>, quantum: int) {
    forall i :: 0 <= i < |g| ==> g[i].end - g[i].start <= quantum
  }

  /**
   * `n` turns of at most `quantum` units used `used` units: every turn was a
   * full quantum while the record is still queued; once it is done only the
   * last turn may have been shorter, so `n` is `used / quantum` rounded up.
   */
  predicate Turns(n: int, quantum: int, used: int, done: bool) {
    if done then quantum * (n - 1) < used <= quantum * n else used == quantum * n
  }

  /** The assumptions the validity theorem needs of the input records. */
  ghost predicate GoodJobs(jobs: seq<Task>) {
    && Distinct(Pids(jobs))
    && (forall j :: 0 <= j < |jobs| ==> jobs[j].burst > 0 && IsFresh(jobs[j]))
  }

  /** Which records are still queued, and that those have work left and have not completed. */
  ghost predicate Tracked(jobs: seq<Task>, st: State) {
    && WellFormed(st)
    && |st.tasks| == |jobs|
    && (forall i :: 0 <= i < |jobs| ==> SameJob(st.tasks[i], jobs[i]))
    && (forall i :: 0 <= i < |jobs| && i in st.queue ==> st.tasks[i].remaining > 0 && st.tasks[i].completion.None?)
    && (forall i :: 0 <= i < |jobs| && i !in st.queue ==> Finished(st.tasks[i]) && st.tasks[i].remaining == 0)
  }

  /**
   * Each record agrees with the Gantt list: first dispatch, completion, CPU
   * time received, number of turns; and it was first dispatched by now.
   */
  ghost predicate Charted(jobs: seq<Task>, st: State, quantum: int)
    requires |st.tasks| == |jobs|
  {
    forall i :: 0 <= i < |jobs| ==>
      && Recorded(st.tasks[i], st.gantt)
      && Busy(st.gantt, jobs[i].pid) == jobs[i].burst - st.tasks[i].remaining
      && Turns(SegmentCount(st.gantt, jobs[i].pid), quantum, jobs[i].burst - st.tasks[i].remaining, i !in st.queue)
      && (st.tasks[i].start.Some? ==> st.tasks[i].start.value <= st.time)
  }

  /** The Gantt list is ordered, over by now, within the quantum, and names only known processes. */
  ghost predicate Shaped(jobs: seq<Task>, st: State, quantum: int) {
    && Positive(st.gantt) && Ordered(st.gantt) && EndsBy(st.gantt, st.time)
    && WithinQuantum(st.gantt, quantum)
    && (forall a :: 0 <= a < |st.gantt| ==> st.gantt[a].pid in Pids(jobs))
  }

  /**
   * The first round follows list order: the records never dispatched sit in
   * the deque ahead of all others and in list order, and the records already
   * dispatched form a prefix of the list, first dispatched in list order.
   */
  ghost predicate FirstRound(st: State)
    requires WellFormed(st)
  {
    UnstartedAhead(st) && StartsInOrder(st.tasks)
  }

  ghost predicate UnstartedAhead(st: State)
    requires WellFormed(st)
  {
    forall a, b :: 0 <= a < b < |st.queue| && st.tasks[st.queue[b]].start.None? ==>
      st.tasks[st.queue[a]].start.None? && st.queue[a] < st.queue[b]
  }

  /** What holds of every state of a run that started from `Initial(jobs)`. */
  ghost predicate Inv(jobs: seq<Task>, st: State, quantum: int) {
    && Tracked(jobs, st)
    && Charted(jobs, st, quantum)
    && Shaped(jobs, st, quantum)
    && FirstRound(st)
    && multiset(st.results) == multiset(FinishedRows(st.tasks))
  }

  lemma InitialInv(jobs: seq<Task>, quantum: int)
    requires GoodJobs(jobs)
    ensures Inv(jobs, Initial(jobs), quantum)
  {
    var st := Initial(jobs);
    assert forall k :: 0 <= k < |st.queue| ==> st.queue[k] == k;
    assert Tracked(jobs, st) by {
      forall i | 0 <= i < |jobs| ensures i in st.queue {
        assert st.queue[i] == i;
      }
    }
    assert FirstRound(st);
    assert Shaped(jobs, st, quantum);
    assert Charted(jobs, st, quantum) by {
      forall i | 0 <= i < |jobs| ensures Recorded(st.tasks[i], []) && Busy([], jobs[i].pid) == 0 {
        NoSegmentOf([], jobs[i].pid);
      }
    }
    NoneFinished(jobs);
  }

  /** Popping the head of a deque without repetitions, and putting it back at the tail. */
  lemma PopHead(queue: seq<nat>, i: nat)
    requires Distinct(queue) && queue != []
    ensures i in queue[1..] <==> i in queue && i != queue[0]
    ensures i in queue[1..] + [queue[0]] <==> i in queue
  {
    assert queue[..0] + queue[1..] == queue[1..];
    RemovedIndex(queue, 0, i);
  }

  /**
   * What a dispatch does to the head record: it runs a whole quantum and goes back to
   * the tail of the queue, or runs what it had left (at most a quantum) and completes.
   */
  lemma DispatchHead(jobs: seq<Task>, st: State, quantum: int)
    requires Tracked(jobs, st) && st.queue != [] && quantum > 0
    ensures var c, st' := st.queue[0], Dispatch(st, quantum);
            var t, s := st.tasks[c], Max(st.time, st.tasks[c].arrival);
            && st'.time > st.time
            && st'.gantt == st.gantt + [Segment(t.pid, s, st'.time)]
            && st'.time - s == Min(quantum, t.remaining)
            && st'.tasks[c].remaining == t.remaining - (st'.time - s)
            && (c in st'.queue ==> st'.time - s == quantum && st'.tasks[c].remaining == t.remaining - quantum)
            && (c !in st'.queue ==> 0 < st'.time - s <= quantum && st'.tasks[c].remaining == 0
                                    && st'.tasks[c].completion == Some(st'.time))
            && st'.tasks[c].start == (if t.start.None? then Some(s) else t.start)
            && SameJob(st'.tasks[c], t)
            && st'.tasks == st.tasks[c := st'.tasks[c]]
            && st'.results == st.results + (if c in st'.queue then [] else [RowOf(st'.tasks[c])])
            && st'.queue == st.queue[1..] + (if c in st'.queue then [c] else [])
  {
    var c := st.queue[0];
    assert c in st.queue;
    PopHead(st.queue, c);
  }

  lemma DispatchTracked(jobs: seq<Task>, st: State, quantum: int)
    requires Tracked(jobs, st) && st.queue != [] && quantum > 0
    ensures Tracked(jobs, Dispatch(st, quantum))
  {
    var st' := Dispatch(st, quantum);
    DispatchHead(jobs, st, quantum);
    forall i | 0 <= i < |jobs|
      ensures i in st'.queue ==> st'.tasks[i].remaining > 0 && st'.tasks[i].completion.None?
      ensures i !in st'.queue ==> Finished(st'.tasks[i]) && st'.tasks[i].remaining == 0
    {
      PopHead(st.queue, i);
    }
  }

  /** One more turn: a full quantum keeps the record queued, a last one of at most a quantum ends it. */
  lemma TurnsStep(n: int, quantum: int, used: int, run: int, done: bool)
    requires Turns(n, quantum, used, false) && quantum > 0
    requires done ==> 0 < run <= quantum
    requires !done ==> run == quantum
    ensures Turns(n + 1, quantum, used + run, done)
  {
    assert quantum * (n + 1) == quantum * n + quantum;
  }

  /** One record against the Gantt list across a dispatch. */
  lemma DispatchRecord(jobs: seq<Task>, st: State, quantum: int, i: nat)
    requires Tracked(jobs, st) && Charted(jobs, st, quantum) && GoodJobs(jobs)
    requires st.queue != [] && quantum > 0 && i < |jobs|
    ensures var st' := Dispatch(st, quantum);
            && Recorded(st'.tasks[i], st'.gantt)
            && Busy(st'.gantt, jobs[i].pid) == jobs[i].burst - st'.tasks[i].remaining
            && Turns(SegmentCount(st'.gantt, jobs[i].pid), quantum, jobs[i].burst - st'.tasks[i].remaining, i !in st'.queue)
            && (st'.tasks[i].start.Some? ==> st'.tasks[i].start.value <= st'.time)
  {
    if i == st.queue[0] {
      DispatchServedRecord(jobs, st, quantum, i);
    } else {
      DispatchOtherRecord(jobs, st, quantum, i);
    }
  }

  /** The served record gains the new segment, one more turn, and less remaining time. */
  lemma DispatchServedRecord(jobs: seq<Task>, st: State, quantum: int, i: nat)
    requires Tracked(jobs, st) && Charted(jobs, st, quantum) && GoodJobs(jobs)
    requires st.queue != [] && quantum > 0 && i < |jobs|
    requires i == st.queue[0]
    ensures var st' := Dispatch(st, quantum);
            && Recorded(st'.tasks[i], st'.gantt)
            && Busy(st'.gantt, jobs[i].pid) == jobs[i].burst - st'.tasks[i].remaining
            && Turns(SegmentCount(st'.gantt, jobs[i].pid), quantum, jobs[i].burst - st'.tasks[i].remaining, i !in st'.queue)
            && (st'.tasks[i].start.Some? ==> st'.tasks[i].start.value <= st'.time)
  {
    var st' := Dispatch(st, quantum);
    var t := st.tasks[i];
    var seg := Segment(t.pid, Max(st.time, t.arrival), st'.time);
    DispatchHead(jobs, st, quantum);
    PopHead(st.queue, i);
    AppendSegment(st.gantt, seg, jobs[i].pid);
    assert SameJob(t, jobs[i]);
    NoSegmentOf(st.gantt, t.pid);
    TurnsStep(SegmentCount(st.gantt, t.pid), quantum, jobs[i].burst - t.remaining, st'.time - seg.start, i !in st'.queue);
  }

  /** Any other record keeps its values, its segments and its place in the queue. */
  lemma DispatchOtherRecord(jobs: seq<Task>, st: State, quantum: int, i: nat)
    requires Tracked(jobs, st) && Charted(jobs, st, quantum) && GoodJobs(jobs)
    requires st.queue != [] && quantum > 0 && i < |jobs|
    requires i != st.queue[0]
    ensures var st' := Dispatch(st, quantum);
            && Recorded(st'.tasks[i], st'.gantt)
            && Busy(st'.gantt, jobs[i].pid) == jobs[i].burst - st'.tasks[i].remaining
            && Turns(SegmentCount(st'.gantt, jobs[i].pid), quantum, jobs[i].burst - st'.tasks[i].remaining, i !in st'.queue)
            && (st'.tasks[i].start.Some? ==> st'.tasks[i].start.value <= st'.time)
  {
    var st' := Dispatch(st, quantum);
    var c := st.queue[0];
    var t := st.tasks[c];
    var seg := Segment(t.pid, Max(st.time, t.arrival), st'.time);
    DispatchHead(jobs, st, quantum);
    PopHead(st.queue, i);
    assert c in st.queue;
    AppendSegment(st.gantt, seg, jobs[i].pid);
    assert Pids(jobs)[i] != Pids(jobs)[c];
    assert SameJob(st.tasks[c], jobs[c]);
  }

  lemma DispatchCharted(jobs: seq<Task>, st: State, quantum: int)
    requires Tracked(jobs, st) && Charted(jobs, st, quantum) && GoodJobs(jobs) && st.queue != [] && quantum > 0
    ensures Charted(jobs, Dispatch(st, quantum), quantum)
  {
    forall i | 0 <= i < |jobs| {
      DispatchRecord(jobs, st, quantum, i);
    }
  }

  lemma DispatchShaped(jobs: seq<Task>, st: State, quantum: int)
    requires Tracked(jobs, st) && Shaped(jobs, st, quantum) && st.queue != [] && quantum > 0
    ensures Shaped(jobs, Dispatch(st, quantum), quantum)
  {
    var c := st.queue[0];
    var t := st.tasks[c];
    var st' := Dispatch(st, quantum);
    DispatchHead(jobs, st, quantum);
    AppendOrdered(st.gantt, Segment(t.pid, Max(st.time, t.arrival), st'.time), st.time);
    assert Pids(jobs)[c] == t.pid;
  }

  /** The head is the first never-dispatched record: everyone listed ahead of it was dispatched by now. */
  lemma HeadIsNext(jobs: seq<Task>, st: State, quantum: int, i: nat)
    requires Tracked(jobs, st) && Charted(jobs, st, quantum) && FirstRound(st) && st.queue != []
    requires st.tasks[st.queue[0]].start.None? && i < st.queue[0]
    ensures st.tasks[i].start.Some? && st.tasks[i].start.value <= st.time
  {
    if i in st.queue {
      var b :| 0 <= b < |st.queue| && st.queue[b] == i;
      assert 0 < b;
    }
  }

  lemma DispatchFirstRound(jobs: seq<Task>, st: State, quantum: int)
    requires Tracked(jobs, st) && Charted(jobs, st, quantum) && FirstRound(st) && st.queue != [] && quantum > 0
    ensures FirstRound(Dispatch(st, quantum))
  {
    DispatchUnstartedAhead(jobs, st, quantum);
    DispatchStartsInOrder(jobs, st, quantum);
  }

  /** The head leaves the never-dispatched group at the front; the rest of the deque shifts up. */
  lemma DispatchUnstartedAhead(jobs: seq<Task>, st: State, quantum: int)
    requires Tracked(jobs, st) && UnstartedAhead(st) && st.queue != [] && quantum > 0
    ensures UnstartedAhead(Dispatch(st, quantum))
  {
    var st' := Dispatch(st, quantum);
    DispatchHead(jobs, st, quantum);
    var rest := st.queue[1..];
    assert forall a :: 0 <= a < |rest| ==> rest[a] == st.queue[a + 1];
    assert forall a :: 0 <= a < |rest| ==> st'.queue[a] == rest[a];
  }

  /** A first dispatch happens at or after every earlier one, and only once everyone listed ahead has had theirs. */
  lemma DispatchStartsInOrder(jobs: seq<Task>, st: State, quantum: int)
    requires Tracked(jobs, st) && Charted(jobs, st, quantum) && FirstRound(st) && st.queue != [] && quantum > 0
    ensures StartsInOrder(Dispatch(st, quantum).tasks)
  {
    var c := st.queue[0];
    DispatchHead(jobs, st, quantum);
    if st.tasks[c].start.None? {
      forall i | 0 <= i < c ensures st.tasks[i].start.Some? && st.tasks[i].start.value <= st.time {
        HeadIsNext(jobs, st, quantum, i);
      }
    }
  }

  /** Completing the head record adds exactly its row. */
  lemma DispatchResults(jobs: seq<Task>, st: State, quantum: int)
    requires Tracked(jobs, st) && multiset(st.results) == multiset(FinishedRows(st.tasks)) && st.queue != [] && quantum > 0
    ensures multiset(Dispatch(st, quantum).results) == multiset(FinishedRows(Dispatch(st, quantum).tasks))
  {
    var c := st.queue[0];
    var st' := Dispatch(st, quantum);
    assert c in st.queue;
    DispatchHead(jobs, st, quantum);
    FinishedRowsUpdate(st.tasks, c, st'.tasks[c]);
  }

  lemma DispatchInv(jobs: seq<Task>, st: State, quantum: int)
    requires Inv(jobs, st, quantum) && GoodJobs(jobs) && st.queue != [] && quantum > 0
    ensures Inv(jobs, Dispatch(st, quantum), quantum)
  {
    DispatchTracked(jobs, st, quantum);
    DispatchCharted(jobs, st, quantum);
    DispatchShaped(jobs, st, quantum);
    DispatchFirstRound(jobs, st, quantum);
    DispatchResults(jobs, st, quantum);
  }

  lemma {:induction false} RunInv(jobs: seq<Task>, st: State, quantum: int)
    requires Inv(jobs, st, quantum) && GoodJobs(jobs) && quantum > 0
    ensures Inv(jobs, Run(st, quantum), quantum)
    decreases Backlog(st.tasks, st.queue)
  {
    if st.queue != [] {
      DispatchInv(jobs, st, quantum);
      RunInv(jobs, Dispatch(st, quantum), quantum);
    }
  }

  /**
   * Over processes with distinct pids, positive bursts and fresh records, and
   * with a positive quantum, Round-Robin produces a valid schedule in which no
   * segment exceeds the quantum, each process gets `burst / quantum` turns
   * rounded up, and first dispatches follow the deque's initial order.
   */
  lemma RrIsValidSchedule(jobs: seq<Task>, quantum: int)
    requires GoodJobs(jobs) && quantum > 0
    ensures var fin := Run(Initial(jobs), quantum);
            && ValidSchedule(jobs, fin.gantt, fin.results)
            && WithinQuantum(fin.gantt, quantum)
            && (forall j :: 0 <= j < |jobs| ==> Turns(SegmentCount(fin.gantt, jobs[j].pid), quantum, jobs[j].burst, true))
            && FirstDispatchInOrder(jobs, fin.gantt)
  {
    InitialInv(jobs, quantum);
    RunInv(jobs, Initial(jobs), quantum);
    FinalValid(jobs, Run(Initial(jobs), quantum), quantum);
  }

  /** A finished run: each record is complete and its segments are all in the chart. */
  lemma FinalRecord(jobs: seq<Task>, fin: State, quantum: int, i: nat)
    requires GoodJobs(jobs) && Inv(jobs, fin, quantum) && fin.queue == [] && i < |jobs|
    ensures Busy(fin.gantt, fin.tasks[i].pid) == fin.tasks[i].burst
    ensures FirstStart(fin.gantt, jobs[i].pid) == fin.tasks[i].start
    ensures Turns(SegmentCount(fin.gantt, jobs[i].pid), quantum, jobs[i].burst, true)
  {
    assert SameJob(fin.tasks[i], jobs[i]);
    assert i !in fin.queue;
  }

  /** A finished run, every record completed: the invariant is the theorem. */
  lemma FinalValid(jobs: seq<Task>, fin: State, quantum: int)
    requires GoodJobs(jobs) && Inv(jobs, fin, quantum) && fin.queue == []
    ensures && ValidSchedule(jobs, fin.gantt, fin.results)
            && WithinQuantum(fin.gantt, quantum)
            && (forall j :: 0 <= j < |jobs| ==> Turns(SegmentCount(fin.gantt, jobs[j].pid), quantum, jobs[j].burst, true))
            && FirstDispatchInOrder(jobs, fin.gantt)
  {
    forall i | 0 <= i < |jobs|
      ensures Busy(fin.gantt, fin.tasks[i].pid) == fin.tasks[i].burst
      ensures FirstStart(fin.gantt, jobs[i].pid) == fin.tasks[i].start
      ensures Turns(SegmentCount(fin.gantt, jobs[i].pid), quantum, jobs[i].burst, true)
    {
      FinalRecord(jobs, fin, quantum, i);
    }
    ValidFromRecords(jobs, fin.tasks, fin.gantt, fin.results);
  }

  // ---------------------------------------------------------------------
  // The imperative algorithm
  // ---------------------------------------------------------------------

  /** One pass of the loop body (lines 280-294) on the records: it performs `Dispatch`. */
  method Turn(ghost procs: seq<Process>, queue: seq<Process>, time: int, gantt: seq<Segment>, results: seq<Row>,
              quantum: int, ghost st: State)
    returns (queue': seq<Process>, time': int, gantt': seq<Segment>, results': seq<Row>)
    requires WellFormed(st) && Mirrors(procs, queue, st.tasks, st.queue) && queue != [] && quantum > 0
    requires time == st.time && gantt == st.gantt && results == st.results
    modifies queue[0]
    ensures var st' := Dispatch(st, quantum);
            && Mirrors(procs, queue', st'.tasks, st'.queue)
            && time' == st'.time && gantt' == st'.gantt && results' == st'.results
  {
    var p := queue[0];
    queue' := queue[1..];
    ghost var c := st.queue[0];
    assert p.Snapshot() == st.tasks[c];
    assert forall j :: 0 <= j < |procs| && j != c ==> procs[j] != p;
    if p.start.None? {
      p.start := Some(Max(time, p.arrival));
    }
    var start := Max(time, p.arrival);
    var runTime := Min(quantum, p.remaining);
    p.remaining := p.remaining - runTime;
    var end := start + runTime;
    gantt' := gantt + [Segment(p.pid, start, end)];
    time' := end;
    results' := results;
    if p.remaining > 0 {
      queue' := queue' + [p];
    } else {
      p.completion := Some(time');
      results' := results + [Metrics(p.pid, p.arrival, p.burst, p.start.value, p.completion.value)];
    }
    assert Dispatch(st, quantum).tasks == st.tasks[c := p.Snapshot()];
  }

  /**
   * `rr(procs, quantum)`: the records, sorted by arrival, go round the deque
   * until every one has completed.
   */
  method Rr(procs: seq<Process>, quantum: int) returns (results: seq<Row>, gantt: seq<Segment>)
    requires Distinct(procs) && quantum > 0
    modifies procs
    ensures var fin := Run(Initial(SortBy(old(Snapshots(procs)), TaskArrival)), quantum);
            && results == fin.results && gantt == fin.gantt
            && forall k :: 0 <= k < |procs| ==> SortBy(procs, ArrivalOf)[k].Snapshot() == fin.tasks[k]
  {
    var time := 0;
    gantt := [];
    var queue := SortBy(procs, ArrivalOf);
    SortedMirrors(procs);
    ghost var sorted := queue;
    ghost var st := Initial(SortBy(Snapshots(procs), TaskArrival));
    ghost var final := Run(st, quantum);
    results := [];
    while queue != []
      invariant WellFormed(st) && Mirrors(sorted, queue, st.tasks, st.queue) && Run(st, quantum) == final
      invariant time == st.time && gantt == st.gantt && results == st.results
      decreases Backlog(st.tasks, st.queue)
    {
      queue, time, gantt, results := Turn(sorted, queue, time, gantt, results, quantum, st);
      st := Dispatch(st, quantum);
    }
  }
}
