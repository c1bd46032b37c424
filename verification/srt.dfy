/**
 * Shortest-Remaining-Time, preemptive: the clock advances one unit at a time;
 * at each unit the arrived, unfinished process with the least remaining time
 * runs for that unit. Consecutive units of the same pid are merged into one
 * Gantt segment, kept open in `last_pid` / `start_time` until a different pid
 * is chosen or the process completes.
 */
module ShortestRemainingTime {
  import opened ListOps
  import opened Processes
  import opened Timeline

  /**
   * The simulation state: every record (in the caller's order), the positions
   * of the records still in the `remaining` list (in list order), the clock,
   * the open segment (`last_pid`, `start_time`) and the two output lists.
   */
  datatype State = State(
    tasks: seq<Task>,
    rem: seq<nat>,
    time: int,
    lastPid: Option<string>,
    startTime: Option<int>,
    gantt: seq<Segment>,
    results: seq<Row>)

  /** `if last_pid:` — the pid is set and is not the empty string. */
  predicate Truthy(pid: Option<string>) {
    pid.Some? && pid.value != ""
  }

  /**
   * What every state of a run satisfies: positions are valid and listed once,
   * every remaining record still has work, pids are distinct, and an open
   * segment has a start time and belongs to a record that has started.
   */
  predicate WellFormed(st: State) {
    && (forall k :: 0 <= k < |st.rem| ==> st.rem[k] < |st.tasks| && st.tasks[st.rem[k]].remaining > 0)
    && Distinct(st.rem)
    && Distinct(Pids(st.tasks))
    && (st.lastPid.Some? ==> st.startTime.Some?)
    && (forall i :: 0 <= i < |st.tasks| && st.lastPid == Some(st.tasks[i].pid) ==> st.tasks[i].start.Some?)
  }

  function Initial(jobs: seq<Task>): (st: State)
    requires Distinct(Pids(jobs)) && forall j :: 0 <= j < |jobs| ==> jobs[j].remaining > 0
    ensures WellFormed(st) && |st.rem| == |jobs|
  {
    State(jobs, seq(|jobs|, k requires 0 <= k < |jobs| => k), 0, None, None, [], [])
  }

  /** `p.arrival <= time and p.remaining > 0`. */
  predicate Available(t: Task, time: int) {
    t.arrival <= time && t.remaining > 0
  }

  function RemainingOf(t: Task): int {
    t.remaining
  }

  /**
   * `min([p for p in remaining if p.arrival <= time and p.remaining > 0],
   * key=lambda p: p.remaining)`, as a position in the remaining list: nobody
   * when nobody is available, else an available record of least remaining
   * time, the first such in list order.
   */
  function ShortestRemaining(ts: seq<Task>, time: int): (r: Option<nat>)
    ensures r.None? <==> forall i :: 0 <= i < |ts| ==> !Available(ts[i], time)
    ensures r.Some? ==> r.value < |ts| && Available(ts[r.value], time)
    ensures r.Some? ==> forall i :: 0 <= i < |ts| && Available(ts[i], time) ==> ts[r.value].remaining <= ts[i].remaining
    ensures r.Some? ==> forall i :: 0 <= i < r.value && Available(ts[i], time) ==> ts[r.value].remaining < ts[i].remaining
  {
    FirstMinWhere(ts, (t: Task) => Available(t, time), RemainingOf)
  }

  function Pick(st: State): Option<nat>
    requires WellFormed(st)
  {
    ShortestRemaining(Project(st.tasks, st.rem), st.time)
  }

  /** Total remaining work of the remaining records. */
  function Pending(st: State): nat
    requires WellFormed(st)
  {
    WorkNonNegative(st.tasks, st.rem);
    Work(st.tasks, st.rem)
  }

  function IdleBound(st: State): nat
    requires WellFormed(st)
  {
    var m := LatestArrival(st.tasks, st.rem);
    if m > st.time then m - st.time else 0
  }

  /** Nobody available: close the open segment if `last_pid` is truthy, then tick. */
  function Idle(st: State): (st': State)
    requires WellFormed(st)
    ensures WellFormed(st') && st'.tasks == st.tasks && st'.rem == st.rem && st'.time == st.time + 1
    ensures st'.results == st.results
    ensures st.lastPid != Some("") ==> st'.lastPid.None? && Chart(st') == Chart(st)
  {
    if Truthy(st.lastPid) then
      st.(gantt := st.gantt + [Segment(st.lastPid.value, st.startTime.value, st.time)], lastPid := None, time := st.time + 1)
    else
      st.(time := st.time + 1)
  }

  /**
   * A pid other than `last_pid` is chosen: close the open segment if `last_pid`
   * is truthy, open one for the chosen record now, and record its first
   * dispatch if it has none.
   */
  function Switch(st: State, k: nat): (st': State)
    requires WellFormed(st) && k < |st.rem|
    ensures WellFormed(st') && st'.rem == st.rem && st'.time == st.time && |st'.tasks| == |st.tasks|
    ensures st'.lastPid == Some(st'.tasks[st.rem[k]].pid)
    ensures var t := st.tasks[st.rem[k]];
            && st'.tasks[st.rem[k]] == t.(start := if t.start.None? then Some(st.time) else t.start)
            && st'.results == st.results
            && (st.lastPid != Some(t.pid) ==> st'.startTime == Some(st.time))
  {
    var c := st.rem[k];
    var t := st.tasks[c];
    if st.lastPid == Some(t.pid) then st
    else
      var g := if Truthy(st.lastPid) then st.gantt + [Segment(st.lastPid.value, st.startTime.value, st.time)] else st.gantt;
      var t' := if t.start.None? then t.(start := Some(st.time)) else t;
      assert Pids(st.tasks[c := t']) == Pids(st.tasks);
      st.(tasks := st.tasks[c := t'], gantt := g, startTime := Some(st.time), lastPid := Some(t.pid))
  }

  /**
   * The chosen record (whose segment is open) runs one unit; if that was its
   * last unit it completes, gets its row, leaves the remaining list and its
   * segment is closed.
   */
  function Tick(st: State, k: nat): (st': State)
    requires WellFormed(st) && k < |st.rem| && st.lastPid == Some(st.tasks[st.rem[k]].pid)
    ensures WellFormed(st') && |st'.tasks| == |st.tasks| && st'.time == st.time + 1
    ensures st'.tasks[st.rem[k]].remaining == st.tasks[st.rem[k]].remaining - 1
    ensures st'.lastPid.None? <==> st'.tasks[st.rem[k]].remaining == 0
    ensures st'.tasks[st.rem[k]].remaining == 0 ==> st'.tasks[st.rem[k]].completion == Some(st'.time)
  {
    var c := st.rem[k];
    var t := st.tasks[c].(remaining := st.tasks[c].remaining - 1);
    var time := st.time + 1;
    assert Pids(st.tasks[c := t]) == Pids(st.tasks);
    if t.remaining == 0 then
      var t' := t.(completion := Some(time));
      assert Pids(st.tasks[c := t']) == Pids(st.tasks);
      State(st.tasks[c := t'], st.rem[..k] + st.rem[k + 1..], time, None, None,
            st.gantt + [Segment(t.pid, st.startTime.value, time)],
            st.results + [Metrics(t.pid, t.arrival, t.burst, t.start.value, time)])
    else
      st.(tasks := st.tasks[c := t], time := time)
  }

  /** `Tick` field by field: an unfolding helper for the proofs below, not a specification. */
  lemma TickParts(st: State, k: nat)
    requires WellFormed(st) && k < |st.rem| && st.lastPid == Some(st.tasks[st.rem[k]].pid)
    ensures var c, t, st' := st.rem[k], st.tasks[st.rem[k]], Tick(st, k);
            && st'.time == st.time + 1
            && (t.remaining == 1 ==>
                  && st'.tasks == st.tasks[c := t.(remaining := 0, completion := Some(st.time + 1))]
                  && st'.rem == st.rem[..k] + st.rem[k + 1..]
                  && st'.lastPid == None && st'.startTime == None
                  && st'.gantt == st.gantt + [Segment(t.pid, st.startTime.value, st.time + 1)]
                  && st'.results == st.results + [Metrics(t.pid, t.arrival, t.burst, t.start.value, st.time + 1)])
            && (t.remaining != 1 ==>
                  st' == st.(tasks := st.tasks[c := t.(remaining := t.remaining - 1)], time := st.time + 1))
  {
  }

  function Unit(st: State, k: nat): (st': State)
    requires WellFormed(st) && k < |st.rem|
    ensures WellFormed(st') && |st'.tasks| == |st.tasks|
    ensures st'.time == st.time + 1
    ensures st'.tasks[st.rem[k]].remaining == st.tasks[st.rem[k]].remaining - 1
  {
    Tick(Switch(st, k), k)
  }

  /** One pass of the `while remaining:` loop body. */
  function Step(st: State): (st': State)
    requires WellFormed(st) && st.rem != []
    ensures WellFormed(st') && |st'.tasks| == |st.tasks|
    ensures Pending(st') < Pending(st) || (Pending(st') == Pending(st) && IdleBound(st') < IdleBound(st))
  {
    match Pick(st)
    case None =>
      assert Project(st.tasks, st.rem)[0].arrival > st.time;
      Idle(st)
    case Some(k) =>
      UnitWork(st, k);
      Unit(st, k)
  }

  /** A unit of CPU time takes exactly one unit off the pending work. */
  lemma UnitWork(st: State, k: nat)
    requires WellFormed(st) && k < |st.rem|
    ensures Pending(Unit(st, k)) == Pending(st) - 1
  {
    var c := st.rem[k];
    var t := st.tasks[c];
    var t' := t.(remaining := t.remaining - 1,
                 start := if t.start.None? then Some(st.time) else t.start,
                 completion := if t.remaining == 1 then Some(st.time + 1) else t.completion);
    UnitEffect(st, k);
    WorkUpdate(st.tasks, st.rem, k, t');
    if t.remaining == 1 {
      WorkRemove(st.tasks[c := t'], st.rem, k);
    }
  }

  /** The `while remaining:` loop, from state `st` to the end. */
  function Run(st: State): (r: State)
    requires WellFormed(st)
    ensures WellFormed(r) && r.rem == [] && |r.tasks| == |st.tasks|
    decreases Pending(st), IdleBound(st)
  {
    if st.rem == [] then st else Run(Step(st))
  }

  // ---------------------------------------------------------------------
  // What one unit does to the records
  // ---------------------------------------------------------------------

  /**
   * One unit of CPU time for the chosen record: its remaining time drops by
   * exactly one, its first dispatch is set only if it had none, it completes
   * (and gets its row, and leaves the remaining list) exactly when no work is
   * left; every other record is unchanged.
   */
  lemma UnitEffect(st: State, k: nat)
    requires WellFormed(st) && k < |st.rem|
    ensures var c, t, st' := st.rem[k], st.tasks[st.rem[k]], Unit(st, k);
            var done := t.remaining == 1;
            var t' := t.(remaining := t.remaining - 1,
                         start := if t.start.None? then Some(st.time) else t.start,
                         completion := if done then Some(st.time + 1) else t.completion);
            && st'.time == st.time + 1
            && st'.tasks == st.tasks[c := t']
            && st'.rem == (if done then st.rem[..k] + st.rem[k + 1..] else st.rem)
            && st'.lastPid == (if done then None else Some(t.pid))
            && st'.results == st.results + (if done then [RowOf(t')] else [])
  {
    var c := st.rem[k];
    if st.lastPid == Some(st.tasks[c].pid) {
      assert Pids(st.tasks)[c] == st.tasks[c].pid;
    }
  }

  // ---------------------------------------------------------------------
  // The schedule SRT produces
  // ---------------------------------------------------------------------

  /** The open segment, closed at the current time. */
  function Open(st: State): seq<Segment> {
    if st.lastPid.Some? && st.startTime.Some? then [Segment(st.lastPid.value, st.startTime.value, st.time)] else []
  }

  /** The Gantt list as it would read if the open segment were closed now. */
  function Chart(st: State): seq<Segment> {
    st.gantt + Open(st)
  }

  /** The assumptions the validity theorem needs of the input records. */
  ghost predicate GoodJobs(jobs: seq<Task>) {
    && Distinct(Pids(jobs))
    && (forall j :: 0 <= j < |jobs| ==> jobs[j].burst > 0 && IsFresh(jobs[j]) && jobs[j].pid != "")
  }

  /** Which records are still remaining, and how much of each one's work is done. */
  ghost predicate Tracked(jobs: seq<Task>, st: State) {
    && WellFormed(st)
    && |st.tasks| == |jobs|
    && (forall i :: 0 <= i < |jobs| ==> SameJob(st.tasks[i], jobs[i]) && 0 <= st.tasks[i].remaining)
    && (forall i :: 0 <= i < |jobs| && i in st.rem ==> st.tasks[i].completion.None?)
    && (forall i :: 0 <= i < |jobs| && i !in st.rem ==> Finished(st.tasks[i]) && st.tasks[i].remaining == 0)
  }

  /** Each record agrees with the chart: first dispatch, completion, and CPU time received. */
  ghost predicate Charted(jobs: seq<Task>, st: State)
    requires |st.tasks| == |jobs|
  {
    forall i :: 0 <= i < |jobs| ==>
      && Recorded(st.tasks[i], Chart(st))
      && Busy(Chart(st), jobs[i].pid) == jobs[i].burst - st.tasks[i].remaining
  }

  /**
   * The chart is ordered, over by now, names only known processes and never
   * has two neighbouring segments of one pid (`Continuing`).
   */
  ghost predicate Shaped(jobs: seq<Task>, st: State)
    requires WellFormed(st)
  {
    var c := Chart(st);
    && Positive(c) && Ordered(c) && EndsBy(c, st.time) && Alternating(c)
    && (forall a :: 0 <= a < |c| ==> c[a].pid in Pids(jobs))
    && Continuing(st)
  }

  /**
   * The open segment belongs to a remaining record, and once it is closed no
   * remaining record continues it.
   */
  ghost predicate Continuing(st: State)
    requires WellFormed(st)
  {
    var c := Chart(st);
    && (st.lastPid.Some? ==> exists j :: 0 <= j < |st.rem| && st.tasks[st.rem[j]].pid == st.lastPid.value)
    && (st.lastPid.None? && c != [] ==> forall j :: 0 <= j < |st.rem| ==> st.tasks[st.rem[j]].pid != c[|c| - 1].pid)
  }

  /** What holds of every state of a run that started from `Initial(jobs)`. */
  ghost predicate Inv(jobs: seq<Task>, st: State) {
    && Tracked(jobs, st)
    && Charted(jobs, st)
    && Shaped(jobs, st)
    && multiset(st.results) == multiset(FinishedRows(st.tasks))
  }

  lemma InitialInv(jobs: seq<Task>)
    requires GoodJobs(jobs)
    ensures Inv(jobs, Initial(jobs))
  {
    var st := Initial(jobs);
    assert Chart(st) == [];
    assert Tracked(jobs, st) by {
      forall i | 0 <= i < |jobs| ensures i in st.rem {
        assert st.rem[i] == i;
      }
    }
    assert Charted(jobs, st) by {
      forall i | 0 <= i < |jobs| ensures Recorded(st.tasks[i], []) && Busy([], jobs[i].pid) == 0 {
        NoSegmentOf([], jobs[i].pid);
      }
    }
    NoneFinished(jobs);
  }

  /** The record of the open segment has arrived and has work left: somebody is available. */
  lemma OpenIsAvailable(jobs: seq<Task>, st: State)
    requires Tracked(jobs, st) && Charted(jobs, st) && Shaped(jobs, st) && st.lastPid.Some?
    ensures Pick(st).Some?
  {
    var j :| 0 <= j < |st.rem| && st.tasks[st.rem[j]].pid == st.lastPid.value;
    var c := Chart(st);
    var i := st.rem[j];
    assert c[|c| - 1] == Segment(st.lastPid.value, st.startTime.value, st.time);
    assert Recorded(st.tasks[i], c);
    assert Project(st.tasks, st.rem)[j] == st.tasks[i];
  }

  /** With nobody available no segment is open, so the idle step only ticks the clock. */
  lemma IdleInv(jobs: seq<Task>, st: State)
    requires Inv(jobs, st) && st.rem != [] && Pick(st).None?
    ensures st.lastPid.None? && Idle(st) == st.(time := st.time + 1)
    ensures Inv(jobs, Idle(st))
  {
    if st.lastPid.Some? {
      OpenIsAvailable(jobs, st);
      assert false;
    }
    assert Idle(st) == st.(time := st.time + 1);
    TickInv(jobs, st);
  }

  /** With no open segment, letting the clock tick keeps the invariant. */
  lemma TickInv(jobs: seq<Task>, st: State)
    requires Inv(jobs, st) && st.lastPid.None?
    ensures Inv(jobs, st.(time := st.time + 1))
  {
    var st' := st.(time := st.time + 1);
    assert st'.tasks == st.tasks && st'.rem == st.rem && st'.gantt == st.gantt && st'.results == st.results;
    assert Open(st') == Open(st) == [];
    assert Chart(st') == Chart(st);
    assert Tracked(jobs, st') && Charted(jobs, st');
    assert Continuing(st');
    assert Shaped(jobs, st');
  }

  /**
   * On the chart a unit either lengthens the open segment (same pid as
   * `last_pid`) or adds a one-unit segment for the chosen record.
   */
  lemma UnitChart(st: State, k: nat)
    requires WellFormed(st) && k < |st.rem|
    requires st.lastPid.Some? ==> st.lastPid.value != ""
    ensures var t := st.tasks[st.rem[k]];
            if st.lastPid == Some(t.pid) then
              && Open(st) == [Segment(t.pid, st.startTime.value, st.time)]
              && Chart(Unit(st, k)) == ExtendLast(Chart(st))
            else
              Chart(Unit(st, k)) == Chart(st) + [Segment(t.pid, st.time, st.time + 1)]
  {
    var c := st.rem[k];
    var t := st.tasks[c];
    var s1 := Switch(st, k);
    assert s1.tasks[c].pid == t.pid;
    if st.lastPid == Some(t.pid) {
      assert Chart(st) == st.gantt + [Segment(t.pid, st.startTime.value, st.time)];
    } else {
      assert s1.gantt == Chart(st);
    }
  }

  lemma UnitTracked(jobs: seq<Task>, st: State, k: nat)
    requires Tracked(jobs, st) && k < |st.rem|
    ensures Tracked(jobs, Unit(st, k))
  {
    var st' := Unit(st, k);
    forall i | 0 <= i < |jobs|
      ensures SameJob(st'.tasks[i], jobs[i]) && 0 <= st'.tasks[i].remaining
      ensures i in st'.rem ==> st'.tasks[i].completion.None?
      ensures i !in st'.rem ==> Finished(st'.tasks[i]) && st'.tasks[i].remaining == 0
    {
      UnitTask(st, k, i);
      UnitRem(st, k, i);
    }
  }

  /** A record leaves the remaining list exactly when it is the chosen one and this was its last unit. */
  lemma UnitRem(st: State, k: nat, i: nat)
    requires WellFormed(st) && k < |st.rem|
    ensures i in Unit(st, k).rem <==> i in st.rem && (i != st.rem[k] || st.tasks[st.rem[k]].remaining != 1)
  {
    UnitEffect(st, k);
    RemovedIndex(st.rem, k, i);
  }

  /** The chosen record has arrived and has work left. */
  lemma PickedAvailable(st: State, k: nat)
    requires WellFormed(st) && Pick(st) == Some(k)
    ensures k < |st.rem| && Available(st.tasks[st.rem[k]], st.time)
  {
    assert Project(st.tasks, st.rem)[k] == st.tasks[st.rem[k]];
  }

  /**
   * One record against the chart across a unit: the chosen record (`pid`)
   * gains one unit of CPU time, gets its first dispatch if it had none and
   * completes at the end of its segment; any other record is unaffected.
   */
  lemma RecordedAfterUnit(t: Task, t': Task, ch: seq<Segment>, ch': seq<Segment>, pid: string, time: int, extend: bool)
    requires Recorded(t, ch) && Busy(ch, t.pid) == t.burst - t.remaining
    requires extend ==> ch != [] && ch[|ch| - 1].pid == pid && ch[|ch| - 1].end == time && ch' == ExtendLast(ch)
    requires !extend ==> ch' == ch + [Segment(pid, time, time + 1)]
    requires t.pid == pid ==> && t.arrival <= time && t.completion.None?
                              && t' == t.(remaining := t.remaining - 1,
                                          start := if t.start.None? then Some(time) else t.start,
                                          completion := if t.remaining == 1 then Some(time + 1) else t.completion)
    requires t.pid != pid ==> t' == t
    ensures Recorded(t', ch') && Busy(ch', t'.pid) == t'.burst - t'.remaining
  {
    if extend {
      ExtendLastEffect(ch, t.pid);
      assert forall a :: 0 <= a < |ch| ==> ch'[a].pid == ch[a].pid && ch'[a].start == ch[a].start;
    } else {
      AppendSegment(ch, Segment(pid, time, time + 1), t.pid);
    }
  }

  /** The open segment's pid is a real pid, so `if last_pid:` sees it. */
  lemma OpenPidTruthy(jobs: seq<Task>, st: State)
    requires Tracked(jobs, st) && Shaped(jobs, st) && GoodJobs(jobs)
    ensures st.lastPid.Some? ==> Truthy(st.lastPid)
  {
    if st.lastPid.Some? {
      var j :| 0 <= j < |st.rem| && st.tasks[st.rem[j]].pid == st.lastPid.value;
      assert SameJob(st.tasks[st.rem[j]], jobs[st.rem[j]]);
    }
  }

  /** After one unit, the record of the chosen pid is updated as `UnitEffect` says and every other is unchanged. */
  lemma UnitTask(st: State, k: nat, i: nat)
    requires WellFormed(st) && k < |st.rem| && i < |st.tasks|
    ensures (st.tasks[i].pid == st.tasks[st.rem[k]].pid) == (i == st.rem[k])
    ensures var t := st.tasks[st.rem[k]];
            Unit(st, k).tasks[i]
            == if st.tasks[i].pid == t.pid then
                 t.(remaining := t.remaining - 1,
                    start := if t.start.None? then Some(st.time) else t.start,
                    completion := if t.remaining == 1 then Some(st.time + 1) else t.completion)
               else st.tasks[i]
  {
    var c := st.rem[k];
    UnitEffect(st, k);
    if i != c {
      assert Pids(st.tasks)[i] != Pids(st.tasks)[c];
      assert Unit(st, k).tasks[i] == st.tasks[i];
    }
  }

  /** `RecordedAfterUnit` for the `i`-th record of a state. */
  lemma UnitRecord(st: State, k: nat, i: nat)
    requires WellFormed(st) && k < |st.rem| && i < |st.tasks|
    requires st.lastPid.Some? ==> st.lastPid.value != ""
    requires Available(st.tasks[st.rem[k]], st.time) && st.tasks[st.rem[k]].completion.None?
    requires Recorded(st.tasks[i], Chart(st)) && Busy(Chart(st), st.tasks[i].pid) == st.tasks[i].burst - st.tasks[i].remaining
    ensures var st' := Unit(st, k);
            Recorded(st'.tasks[i], Chart(st')) && Busy(Chart(st'), st.tasks[i].pid) == st.tasks[i].burst - st'.tasks[i].remaining
  {
    var t := st.tasks[st.rem[k]];
    var ch, ch' := Chart(st), Chart(Unit(st, k));
    var extend := st.lastPid == Some(t.pid);
    UnitTask(st, k, i);
    UnitChart(st, k);
    if extend {
      assert ch[|ch| - 1] == Segment(t.pid, st.startTime.value, st.time);
    }
    RecordedAfterUnit(st.tasks[i], Unit(st, k).tasks[i], ch, ch', t.pid, st.time, extend);
  }

  lemma UnitCharted(jobs: seq<Task>, st: State, k: nat)
    requires Tracked(jobs, st) && Charted(jobs, st) && Shaped(jobs, st) && GoodJobs(jobs)
    requires k < |st.rem| && Available(st.tasks[st.rem[k]], st.time)
    ensures Charted(jobs, Unit(st, k))
  {
    OpenPidTruthy(jobs, st);
    var st' := Unit(st, k);
    forall i | 0 <= i < |jobs|
      ensures Recorded(st'.tasks[i], Chart(st')) && Busy(Chart(st'), jobs[i].pid) == jobs[i].burst - st'.tasks[i].remaining
    {
      assert SameJob(st.tasks[i], jobs[i]);
      UnitRecord(st, k, i);
    }
  }

  /** Lengthening the open segment or adding a unit after it keeps the chart ordered. */
  lemma UnitOrdered(jobs: seq<Task>, st: State, k: nat)
    requires Tracked(jobs, st) && Shaped(jobs, st) && GoodJobs(jobs) && k < |st.rem|
    ensures var ch := Chart(Unit(st, k));
            && Positive(ch) && Ordered(ch) && EndsBy(ch, st.time + 1)
            && (forall a :: 0 <= a < |ch| ==> ch[a].pid in Pids(jobs))
  {
    var c := st.rem[k];
    var t := st.tasks[c];
    var ch, ch' := Chart(st), Chart(Unit(st, k));
    OpenPidTruthy(jobs, st);
    UnitChart(st, k);
    assert Pids(jobs)[c] == t.pid;
    if st.lastPid == Some(t.pid) {
      ExtendLastOrdered(ch, st.time);
      assert forall a :: 0 <= a < |ch| ==> ch'[a].pid == ch[a].pid;
    } else {
      AppendOrdered(ch, Segment(t.pid, st.time, st.time + 1), st.time);
    }
  }

  /** A new segment never follows one of the same pid, and the chart now ends with the chosen pid. */
  lemma UnitAlternating(jobs: seq<Task>, st: State, k: nat)
    requires Tracked(jobs, st) && Shaped(jobs, st) && GoodJobs(jobs) && k < |st.rem|
    ensures var ch := Chart(Unit(st, k));
            Alternating(ch) && ch != [] && ch[|ch| - 1].pid == st.tasks[st.rem[k]].pid
  {
    var c := st.rem[k];
    var t := st.tasks[c];
    var ch, ch' := Chart(st), Chart(Unit(st, k));
    OpenPidTruthy(jobs, st);
    UnitChart(st, k);
    if st.lastPid == Some(t.pid) {
      ExtendLastAlternating(ch);
    } else {
      AppendAlternating(ch, Segment(t.pid, st.time, st.time + 1));
    }
  }

  /** After a unit the open segment (if any) is the chosen record's, and a closed one has no successor among the remaining. */
  lemma UnitOpen(jobs: seq<Task>, st: State, k: nat)
    requires Tracked(jobs, st) && k < |st.rem|
    requires var ch := Chart(Unit(st, k)); ch != [] && ch[|ch| - 1].pid == st.tasks[st.rem[k]].pid
    ensures var st' := Unit(st, k);
            var ch := Chart(st');
            && (st'.lastPid.Some? ==> exists j :: 0 <= j < |st'.rem| && st'.tasks[st'.rem[j]].pid == st'.lastPid.value)
            && (st'.lastPid.None? && ch != [] ==> forall j :: 0 <= j < |st'.rem| ==> st'.tasks[st'.rem[j]].pid != ch[|ch| - 1].pid)
  {
    var st' := Unit(st, k);
    var c := st.rem[k];
    UnitEffect(st, k);
    if st'.lastPid.Some? {
      assert st'.tasks[st'.rem[k]].pid == st'.lastPid.value;
    } else {
      forall j | 0 <= j < |st'.rem| ensures st'.tasks[st'.rem[j]].pid != st.tasks[c].pid {
        var i := st'.rem[j];
        RemovedIndex(st.rem, k, i);
        assert Pids(st.tasks)[i] != Pids(st.tasks)[c];
      }
    }
  }

  lemma UnitShaped(jobs: seq<Task>, st: State, k: nat)
    requires Tracked(jobs, st) && Shaped(jobs, st) && GoodJobs(jobs) && k < |st.rem|
    ensures Shaped(jobs, Unit(st, k))
  {
    UnitOrdered(jobs, st, k);
    UnitAlternating(jobs, st, k);
    UnitOpen(jobs, st, k);
  }

  /** Completing the chosen record adds exactly its row. */
  lemma UnitResults(jobs: seq<Task>, st: State, k: nat)
    requires Tracked(jobs, st) && multiset(st.results) == multiset(FinishedRows(st.tasks)) && k < |st.rem|
    ensures multiset(Unit(st, k).results) == multiset(FinishedRows(Unit(st, k).tasks))
  {
    var c := st.rem[k];
    var st' := Unit(st, k);
    UnitEffect(st, k);
    FinishedRowsUpdate(st.tasks, c, st'.tasks[c]);
  }

  lemma UnitInv(jobs: seq<Task>, st: State, k: nat)
    requires Inv(jobs, st) && GoodJobs(jobs) && Pick(st) == Some(k)
    ensures k < |st.rem| && Inv(jobs, Unit(st, k))
  {
    PickedAvailable(st, k);
    UnitTracked(jobs, st, k);
    UnitCharted(jobs, st, k);
    UnitShaped(jobs, st, k);
    UnitResults(jobs, st, k);
  }

  lemma StepInv(jobs: seq<Task>, st: State)
    requires Inv(jobs, st) && GoodJobs(jobs) && st.rem != []
    ensures Inv(jobs, Step(st))
  {
    match Pick(st)
    case None => IdleInv(jobs, st);
    case Some(k) => UnitInv(jobs, st, k);
  }

  lemma {:induction false} RunInv(jobs: seq<Task>, st: State)
    requires Inv(jobs, st) && GoodJobs(jobs)
    ensures Inv(jobs, Run(st))
    decreases Pending(st), IdleBound(st)
  {
    if st.rem != [] {
      StepInv(jobs, st);
      RunInv(jobs, Step(st));
    }
  }

  /** A finished run has no open segment: its Gantt list is a valid, alternating schedule. */
  lemma FinalValid(jobs: seq<Task>, fin: State)
    requires Inv(jobs, fin) && fin.rem == []
    ensures ValidSchedule(jobs, fin.gantt, fin.results) && Alternating(fin.gantt)
  {
    assert fin.lastPid.None?;
    assert Chart(fin) == fin.gantt;
    forall i | 0 <= i < |jobs| ensures Busy(fin.gantt, fin.tasks[i].pid) == fin.tasks[i].burst {
      assert SameJob(fin.tasks[i], jobs[i]);
      assert i !in fin.rem;
    }
    ValidFromRecords(jobs, fin.tasks, fin.gantt, fin.results);
  }

  /**
   * Over processes with distinct non-empty pids, positive bursts and fresh
   * records, SRT produces a valid schedule in which no two neighbouring
   * segments belong to the same process.
   */
  lemma SrtIsValidSchedule(jobs: seq<Task>)
    requires GoodJobs(jobs)
    ensures var fin := Run(Initial(jobs));
            ValidSchedule(jobs, fin.gantt, fin.results) && Alternating(fin.gantt)
  {
    InitialInv(jobs);
    RunInv(jobs, Initial(jobs));
    FinalValid(jobs, Run(Initial(jobs)));
  }

  // ---------------------------------------------------------------------
  // The imperative algorithm
  // ---------------------------------------------------------------------

  /**
   * `min([p for p in remaining if p.arrival <= time and p.remaining > 0],
   * key=lambda p: p.remaining)` in one pass over the list, as a position.
   */
  method SelectShortestRemaining(remaining: seq<Process>, time: int) returns (pick: Option<nat>)
    ensures pick == ShortestRemaining(Snapshots(remaining), time)
  {
    ghost var ts := Snapshots(remaining);
    pick := None;
    var i := 0;
    while i < |remaining|
      invariant 0 <= i <= |remaining|
      invariant pick == ShortestRemaining(ts[..i], time)
    {
      var p := remaining[i];
      ShortestRemainingSnoc(ts, i, time);
      if p.arrival <= time && p.remaining > 0 && (pick.None? || p.remaining < remaining[pick.value].remaining) {
        pick := Some(i);
      }
      i := i + 1;
    }
    assert ts[..i] == ts;
  }

  /** The choice among the first `i + 1` records, from the choice among the first `i`. */
  lemma ShortestRemainingSnoc(ts: seq<Task>, i: nat, time: int)
    requires i < |ts|
    ensures var prev := ShortestRemaining(ts[..i], time);
            ShortestRemaining(ts[..i + 1], time)
            == if Available(ts[i], time) && (prev.None? || ts[i].remaining < ts[prev.value].remaining) then Some(i) else prev
  {
    assert ts[..i + 1][..i] == ts[..i];
  }

  /**
   * Lines 257-261: if the chosen pid differs from `last_pid`, close the open
   * segment (when `last_pid` is truthy), open a new one now and set the
   * record's first dispatch if it has none.
   */
  method SwitchTo(procs: seq<Process>, remaining: seq<Process>, k: nat, time: int,
                  lastPid: Option<string>, startTime: Option<int>, gantt: seq<Segment>, ghost st: State)
    returns (lastPid': Option<string>, startTime': Option<int>, gantt': seq<Segment>)
    requires WellFormed(st) && Mirrors(procs, remaining, st.tasks, st.rem) && k < |remaining|
    requires time == st.time && lastPid == st.lastPid && startTime == st.startTime && gantt == st.gantt
    modifies remaining[k]
    ensures var s1 := Switch(st, k);
            && Mirrors(procs, remaining, s1.tasks, s1.rem)
            && lastPid' == s1.lastPid && startTime' == s1.startTime && gantt' == s1.gantt
  {
    var current := remaining[k];
    ghost var c := st.rem[k];
    assert current.Snapshot() == st.tasks[c];
    assert forall j :: 0 <= j < |procs| && j != c ==> procs[j] != current;
    lastPid', startTime', gantt' := lastPid, startTime, gantt;
    if lastPid != Some(current.pid) {
      if Truthy(lastPid) {
        gantt' := gantt + [Segment(lastPid.value, startTime.value, time)];
      }
      startTime' := Some(time);
      lastPid' := Some(current.pid);
      if current.start.None? {
        current.start := Some(time);
      }
    }
    assert Switch(st, k).tasks == st.tasks[c := current.Snapshot()];
  }

  /**
   * Lines 262-272: the chosen record runs one unit; on its last unit it
   * completes, its row is appended, it leaves the remaining list and its
   * segment is closed.
   */
  method RunUnit(procs: seq<Process>, remaining: seq<Process>, k: nat, time: int,
                 lastPid: Option<string>, startTime: Option<int>, gantt: seq<Segment>, results: seq<Row>, ghost st: State)
    returns (remaining': seq<Process>, time': int, lastPid': Option<string>, startTime': Option<int>,
             gantt': seq<Segment>, results': seq<Row>)
    requires WellFormed(st) && Mirrors(procs, remaining, st.tasks, st.rem) && k < |remaining|
    requires st.lastPid == Some(st.tasks[st.rem[k]].pid)
    requires time == st.time && lastPid == st.lastPid && startTime == st.startTime && gantt == st.gantt && results == st.results
    modifies remaining[k]
    ensures Mirrors(procs, remaining', Tick(st, k).tasks, Tick(st, k).rem)
    ensures time' == Tick(st, k).time && lastPid' == Tick(st, k).lastPid && startTime' == Tick(st, k).startTime
    ensures gantt' == Tick(st, k).gantt && results' == Tick(st, k).results
  {
    var current := remaining[k];
    ghost var c := st.rem[k];
    TickParts(st, k);
    assert current.Snapshot() == st.tasks[c];
    assert forall j :: 0 <= j < |procs| && j != c ==> procs[j] != current;
    current.remaining := current.remaining - 1;
    time' := time + 1;
    remaining', lastPid', startTime', gantt', results' := remaining, lastPid, startTime, gantt, results;
    if current.remaining == 0 {
      current.completion := Some(time');
      results' := results + [Metrics(current.pid, current.arrival, current.burst, current.start.value, current.completion.value)];
      RemoveStep(procs, st.rem, remaining, k);
      remaining' := RemoveFirst(remaining, current);
      gantt' := gantt + [Segment(current.pid, startTime.value, time')];
      lastPid', startTime' := None, None;
    }
    assert Tick(st, k).tasks == st.tasks[c := current.Snapshot()];
  }

  /** Lines 251-256: nobody has arrived; the open segment is closed and the clock ticks. */
  method Wait(time: int, lastPid: Option<string>, startTime: Option<int>, gantt: seq<Segment>, ghost st: State)
    returns (time': int, lastPid': Option<string>, gantt': seq<Segment>)
    requires WellFormed(st) && time == st.time && lastPid == st.lastPid && startTime == st.startTime && gantt == st.gantt
    ensures time' == Idle(st).time && lastPid' == Idle(st).lastPid && gantt' == Idle(st).gantt
    ensures startTime == Idle(st).startTime
  {
    lastPid', gantt' := lastPid, gantt;
    if Truthy(lastPid) {
      gantt' := gantt + [Segment(lastPid.value, startTime.value, time)];
      lastPid' := None;
    }
    time' := time + 1;
  }

  /** Lines 257-272: the chosen record is dispatched if need be and runs one unit: it performs `Unit`. */
  method Serve(procs: seq<Process>, remaining: seq<Process>, k: nat, time: int,
               lastPid: Option<string>, startTime: Option<int>, gantt: seq<Segment>, results: seq<Row>, ghost st: State)
    returns (remaining': seq<Process>, time': int, lastPid': Option<string>, startTime': Option<int>,
             gantt': seq<Segment>, results': seq<Row>)
    requires WellFormed(st) && Mirrors(procs, remaining, st.tasks, st.rem) && k < |remaining|
    requires time == st.time && lastPid == st.lastPid && startTime == st.startTime && gantt == st.gantt && results == st.results
    modifies remaining[k]
    ensures var s' := Unit(st, k);
            && Mirrors(procs, remaining', s'.tasks, s'.rem)
            && time' == s'.time && lastPid' == s'.lastPid && startTime' == s'.startTime
            && gantt' == s'.gantt && results' == s'.results
  {
    ghost var s1 := Switch(st, k);
    lastPid', startTime', gantt' := SwitchTo(procs, remaining, k, time, lastPid, startTime, gantt, st);
    remaining', time', lastPid', startTime', gantt', results' :=
      RunUnit(procs, remaining, k, time, lastPid', startTime', gantt', results, s1);
  }

  /** One pass of the loop body (lines 251-272) on the records: it performs `Step`. */
  method Pass(procs: seq<Process>, remaining: seq<Process>, time: int,
              lastPid: Option<string>, startTime: Option<int>, gantt: seq<Segment>, results: seq<Row>, ghost st: State)
    returns (remaining': seq<Process>, time': int, lastPid': Option<string>, startTime': Option<int>,
             gantt': seq<Segment>, results': seq<Row>)
    requires WellFormed(st) && Mirrors(procs, remaining, st.tasks, st.rem) && remaining != []
    requires time == st.time && lastPid == st.lastPid && startTime == st.startTime && gantt == st.gantt && results == st.results
    modifies procs
    ensures var s' := Step(st);
            && Mirrors(procs, remaining', s'.tasks, s'.rem)
            && time' == s'.time && lastPid' == s'.lastPid && startTime' == s'.startTime
            && gantt' == s'.gantt && results' == s'.results
  {
    SnapshotsOfRemaining(procs, remaining, st.tasks, st.rem);
    var pick := SelectShortestRemaining(remaining, time);
    assert pick == Pick(st);
    assert Step(st) == if pick.None? then Idle(st) else Unit(st, pick.value);
    if pick.None? {
      remaining', startTime', results' := remaining, startTime, results;
      time', lastPid', gantt' := Wait(time, lastPid, startTime, gantt, st);
    } else {
      assert remaining[pick.value] in procs;
      remaining', time', lastPid', startTime', gantt', results' :=
        Serve(procs, remaining, pick.value, time, lastPid, startTime, gantt, results, st);
    }
  }

  /** `srt(procs)`: one unit at a time, the available record of least remaining time runs. */
  method Srt(procs: seq<Process>) returns (results: seq<Row>, gantt: seq<Segment>)
    requires forall i, j :: 0 <= i < j < |procs| ==> procs[i].pid != procs[j].pid
    requires forall i :: 0 <= i < |procs| ==> procs[i].remaining > 0
    modifies procs
    ensures results == Run(Initial(old(Snapshots(procs)))).results
    ensures gantt == Run(Initial(old(Snapshots(procs)))).gantt
    ensures forall k :: 0 <= k < |procs| ==> procs[k].Snapshot() == Run(Initial(old(Snapshots(procs)))).tasks[k]
  {
    assert Distinct(Pids(Snapshots(procs)));
    ghost var st := Initial(Snapshots(procs));
    ghost var final := Run(st);
    var time := 0;
    gantt, results := [], [];
    var remaining := procs;
    var lastPid: Option<string>, startTime: Option<int> := None, None;
    while remaining != []
      invariant WellFormed(st) && Mirrors(procs, remaining, st.tasks, st.rem) && Run(st) == final
      invariant time == st.time && lastPid == st.lastPid && startTime == st.startTime
      invariant gantt == st.gantt && results == st.results
      decreases Pending(st), IdleBound(st)
    {
      remaining, time, lastPid, startTime, gantt, results :=
        Pass(procs, remaining, time, lastPid, startTime, gantt, results, st);
      st := Step(st);
    }
  }
}
