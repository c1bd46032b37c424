/**
 * The Gantt list every algorithm emits, the per-process quantities read off it,
 * and what it means for a run's output to be a valid schedule of its processes.
 */
module Timeline {
  import opened ListOps
  import opened Processes

  /** One entry of the Gantt list: `pid` held the CPU from `start` to `end`. */
  datatype Segment = Segment(pid: string, start: int, end: int)

  /** Every segment lasts at least one time unit. */
  predicate Positive(g: seq<Segment>) {
    forall i :: 0 <= i < |g| ==> g[i].start < g[i].end
  }

  /** Segments never overlap and appear in increasing time. */
  predicate Ordered(g: seq<Segment>) {
    forall i, j :: 0 <= i < j < |g| ==> g[i].end <= g[j].start
  }

  /** A segment put in front of an ordered list that starts no earlier than it ends keeps it ordered. */
  lemma OrderedCons(s: Segment, g: seq<Segment>)
    requires Ordered(g) && forall j :: 0 <= j < |g| ==> s.end <= g[j].start
    ensures Ordered([s] + g)
  {
    var g' := [s] + g;
    forall i, j | 0 <= i < j < |g'| ensures g'[i].end <= g'[j].start {
      assert g'[j] == g[j - 1];
      if i > 0 {
        assert g'[i] == g[i - 1];
      }
    }
  }

  /** Every segment is over by time `t`. */
  predicate EndsBy(g: seq<Segment>, t: int) {
    forall i :: 0 <= i < |g| ==> g[i].end <= t
  }

  /** Total CPU time the segments of `pid` account for. */
  function Busy(g: seq<Segment>, pid: string): int {
    if g == [] then 0
    else
      var last := g[|g| - 1];
      Busy(g[..|g| - 1], pid) + (if last.pid == pid then last.end - last.start else 0)
  }

  /** Start of the first segment of `pid`, if it has one. */
  function FirstStart(g: seq<Segment>, pid: string): Option<int> {
    if g == [] then None
    else
      var last := g[|g| - 1];
      var f := FirstStart(g[..|g| - 1], pid);
      if f.None? && last.pid == pid then Some(last.start) else f
  }

  /** End of the last segment of `pid`, if it has one. */
  function LastEnd(g: seq<Segment>, pid: string): Option<int> {
    if g == [] then None
    else if g[|g| - 1].pid == pid then Some(g[|g| - 1].end)
    else LastEnd(g[..|g| - 1], pid)
  }

  /** Number of segments of `pid`. */
  function SegmentCount(g: seq<Segment>, pid: string): nat {
    if g == [] then 0
    else SegmentCount(g[..|g| - 1], pid) + (if g[|g| - 1].pid == pid then 1 else 0)
  }

  /** Appending one segment changes the per-process quantities of its pid only. */
  lemma AppendSegment(g: seq<Segment>, s: Segment, pid: string)
    ensures Busy(g + [s], pid) == Busy(g, pid) + (if s.pid == pid then s.end - s.start else 0)
    ensures FirstStart(g + [s], pid)
         == (if FirstStart(g, pid).None? && s.pid == pid then Some(s.start) else FirstStart(g, pid))
    ensures LastEnd(g + [s], pid) == (if s.pid == pid then Some(s.end) else LastEnd(g, pid))
    ensures SegmentCount(g + [s], pid) == SegmentCount(g, pid) + (if s.pid == pid then 1 else 0)
  {
    assert (g + [s])[..|g|] == g;
  }

  /** A pid without segments has no first start, no last end, no CPU time. */
  lemma {:induction false} NoSegmentOf(g: seq<Segment>, pid: string)
    ensures (forall i :: 0 <= i < |g| ==> g[i].pid != pid) <==> FirstStart(g, pid).None?
    ensures FirstStart(g, pid).None? <==> LastEnd(g, pid).None?
    ensures FirstStart(g, pid).None? <==> SegmentCount(g, pid) == 0
    ensures FirstStart(g, pid).None? ==> Busy(g, pid) == 0
  {
    if g != [] {
      var init := g[..|g| - 1];
      NoSegmentOf(init, pid);
      assert forall i :: 0 <= i < |init| ==> init[i] == g[i];
    }
  }

  /** The first start of `pid` is the start of one of its segments. */
  lemma {:induction false} FirstStartBound(g: seq<Segment>, pid: string, lo: int)
    requires forall i :: 0 <= i < |g| && g[i].pid == pid ==> lo <= g[i].start
    ensures FirstStart(g, pid).Some? ==> lo <= FirstStart(g, pid).value
  {
    if g != [] {
      var init := g[..|g| - 1];
      assert forall i :: 0 <= i < |init| ==> init[i] == g[i];
      FirstStartBound(init, pid, lo);
    }
  }

  /**
   * In an ordered timeline, the span from the first start of a process to its
   * last end covers all of its CPU time.
   */
  lemma {:induction false} SpanCoversBusy(g: seq<Segment>, pid: string)
    requires Positive(g) && Ordered(g)
    ensures FirstStart(g, pid).Some? ==>
              LastEnd(g, pid).Some? && LastEnd(g, pid).value - FirstStart(g, pid).value >= Busy(g, pid)
  {
    NoSegmentOf(g, pid);
    if g != [] {
      var init, last := g[..|g| - 1], g[|g| - 1];
      assert g == init + [last];
      assert forall i :: 0 <= i < |init| ==> init[i] == g[i];
      SpanCoversBusy(init, pid);
      NoSegmentOf(init, pid);
      if last.pid == pid && FirstStart(init, pid).Some? {
        assert LastEnd(init, pid).value <= last.start by {
          LastEndIsSegment(init, pid);
        }
      }
    }
  }

  lemma {:induction false} LastEndIsSegment(g: seq<Segment>, pid: string)
    ensures LastEnd(g, pid).Some? ==>
              exists i :: 0 <= i < |g| && g[i].pid == pid && g[i].end == LastEnd(g, pid).value
  {
    if g != [] && g[|g| - 1].pid != pid {
      var init := g[..|g| - 1];
      LastEndIsSegment(init, pid);
      if LastEnd(init, pid).Some? {
        var i :| 0 <= i < |init| && init[i].pid == pid && init[i].end == LastEnd(init, pid).value;
        assert g[i] == init[i];
      }
    }
  }

  /** A process with a single segment: its quantities are that segment's. */
  lemma {:induction false} SoleSegment(g: seq<Segment>, j: nat)
    requires j < |g|
    requires forall i :: 0 <= i < |g| && i != j ==> g[i].pid != g[j].pid
    ensures Busy(g, g[j].pid) == g[j].end - g[j].start
    ensures FirstStart(g, g[j].pid) == Some(g[j].start)
    ensures LastEnd(g, g[j].pid) == Some(g[j].end)
    ensures SegmentCount(g, g[j].pid) == 1
  {
    var n := |g|;
    var init := g[..n - 1];
    assert g == init + [g[n - 1]];
    assert forall i :: 0 <= i < n - 1 ==> init[i] == g[i];
    AppendSegment(init, g[n - 1], g[j].pid);
    if j == n - 1 {
      NoSegmentOf(init, g[j].pid);
    } else {
      SoleSegment(init, j);
    }
  }

  /** A segment no earlier segment shares its pid with is that process's first. */
  lemma {:induction false} FirstStartAt(g: seq<Segment>, j: nat)
    requires j < |g|
    requires forall i :: 0 <= i < j ==> g[i].pid != g[j].pid
    ensures FirstStart(g, g[j].pid) == Some(g[j].start)
  {
    var n := |g|;
    var init := g[..n - 1];
    assert forall i :: 0 <= i < n - 1 ==> init[i] == g[i];
    if j == n - 1 {
      NoSegmentOf(init, g[j].pid);
    } else {
      FirstStartAt(init, j);
    }
  }

  /** Appending a segment that starts after everything so far keeps the order. */
  lemma AppendOrdered(g: seq<Segment>, s: Segment, t: int)
    requires Positive(g) && Ordered(g) && EndsBy(g, t) && t <= s.start < s.end
    ensures Positive(g + [s]) && Ordered(g + [s]) && EndsBy(g + [s], s.end)
  {
  }

  /** The Gantt list with its last segment one unit longer. */
  function ExtendLast(g: seq<Segment>): (g': seq<Segment>)
    requires g != []
    ensures |g'| == |g| && g'[..|g| - 1] == g[..|g| - 1]
    ensures g'[|g| - 1] == g[|g| - 1].(end := g[|g| - 1].end + 1)
  {
    g[..|g| - 1] + [g[|g| - 1].(end := g[|g| - 1].end + 1)]
  }

  /** Lengthening the last segment adds one unit of CPU time to its pid and moves its last end. */
  lemma ExtendLastEffect(g: seq<Segment>, pid: string)
    requires g != []
    ensures var last := g[|g| - 1];
            && Busy(ExtendLast(g), pid) == Busy(g, pid) + (if last.pid == pid then 1 else 0)
            && FirstStart(ExtendLast(g), pid) == FirstStart(g, pid)
            && LastEnd(ExtendLast(g), pid) == (if last.pid == pid then Some(last.end + 1) else LastEnd(g, pid))
            && SegmentCount(ExtendLast(g), pid) == SegmentCount(g, pid)
  {
    var init, last := g[..|g| - 1], g[|g| - 1];
    assert g == init + [last];
    AppendSegment(init, last, pid);
    AppendSegment(init, last.(end := last.end + 1), pid);
  }

  lemma ExtendLastOrdered(g: seq<Segment>, t: int)
    requires g != [] && Positive(g) && Ordered(g) && EndsBy(g, t) && g[|g| - 1].end == t
    ensures Positive(ExtendLast(g)) && Ordered(ExtendLast(g)) && EndsBy(ExtendLast(g), t + 1)
  {
    var g' := ExtendLast(g);
    assert forall i :: 0 <= i < |g| - 1 ==> g'[i] == g[i];
  }

  /** Neighbouring segments belong to different processes: a run of one process is one segment. */
  predicate Alternating(g: seq<Segment>) {
    forall i :: 0 < i < |g| ==> g[i - 1].pid != g[i].pid
  }

  lemma AppendAlternating(g: seq<Segment>, s: Segment)
    requires Alternating(g) && (g != [] ==> g[|g| - 1].pid != s.pid)
    ensures Alternating(g + [s])
  {
    var g' := g + [s];
    forall i | 0 < i < |g'| ensures g'[i - 1].pid != g'[i].pid {
      if i < |g| {
        assert g'[i - 1] == g[i - 1] && g'[i] == g[i];
      }
    }
  }

  lemma ExtendLastAlternating(g: seq<Segment>)
    requires g != [] && Alternating(g)
    ensures Alternating(ExtendLast(g))
  {
    var g' := ExtendLast(g);
    assert forall i :: 0 <= i < |g| ==> g'[i].pid == g[i].pid;
  }

  // ---------------------------------------------------------------------
  // Validity of a run's output
  // ---------------------------------------------------------------------

  /**
   * The results row a process gets when its first dispatch and its completion
   * are read off the Gantt list.
   */
  function GanttRow(t: Task, g: seq<Segment>): Row {
    Metrics(t.pid, t.arrival, t.burst, FirstStart(g, t.pid).GetOr(t.arrival), LastEnd(g, t.pid).GetOr(t.arrival))
  }

  /** One Gantt-derived row per process, in list order. */
  function ExpectedRows(jobs: seq<Task>, g: seq<Segment>): seq<Row> {
    if jobs == [] then [] else ExpectedRows(jobs[..|jobs| - 1], g) + [GanttRow(jobs[|jobs| - 1], g)]
  }

  lemma {:induction false} ExpectedRowsMember(jobs: seq<Task>, g: seq<Segment>, r: Row)
    requires r in ExpectedRows(jobs, g)
    ensures exists j :: 0 <= j < |jobs| && r == GanttRow(jobs[j], g)
  {
    var init := jobs[..|jobs| - 1];
    if r != GanttRow(jobs[|jobs| - 1], g) {
      ExpectedRowsMember(init, g, r);
      var j :| 0 <= j < |init| && r == GanttRow(init[j], g);
      assert jobs[j] == init[j];
    }
  }

  /**
   * The output of a run over `jobs` is a valid schedule: segments are at least
   * one unit long, never overlap and are in time order; each belongs to one of
   * the processes and starts no earlier than its arrival; each process gets
   * exactly its burst of CPU time; and the results hold exactly one row per
   * process, computed from its first dispatch and its completion in the Gantt list.
   */
  ghost predicate ValidSchedule(jobs: seq<Task>, g: seq<Segment>, results: seq<Row>) {
    && Positive(g)
    && Ordered(g)
    && (forall i :: 0 <= i < |g| ==> g[i].pid in Pids(jobs))
    && (forall j, i :: 0 <= j < |jobs| && 0 <= i < |g| && g[i].pid == jobs[j].pid ==> jobs[j].arrival <= g[i].start)
    && (forall j :: 0 <= j < |jobs| ==> Busy(g, jobs[j].pid) == jobs[j].burst)
    && multiset(results) == multiset(ExpectedRows(jobs, g))
  }

  /**
   * Processes get their first dispatch in list order: each has one, and no
   * process is first dispatched before one listed ahead of it.
   */
  ghost predicate FirstDispatchInOrder(jobs: seq<Task>, g: seq<Segment>) {
    && (forall j :: 0 <= j < |jobs| ==> FirstStart(g, jobs[j].pid).Some?)
    && (forall i, j :: 0 <= i < j < |jobs| ==> FirstStart(g, jobs[i].pid).GetOr(0) <= FirstStart(g, jobs[j].pid).GetOr(0))
  }

  /**
   * In a valid schedule of processes with positive bursts there is one row per
   * process and every row has `0 <= rt <= wt`: nobody is dispatched before it
   * arrives, and waiting covers at least the wait for the first dispatch.
   */
  lemma ValidScheduleMetrics(jobs: seq<Task>, g: seq<Segment>, results: seq<Row>)
    requires ValidSchedule(jobs, g, results)
    requires forall j :: 0 <= j < |jobs| ==> jobs[j].burst > 0
    ensures |results| == |jobs|
    ensures forall k :: 0 <= k < |results| ==> 0 <= results[k].rt <= results[k].wt
  {
    ExpectedRowsLength(jobs, g);
    assert |results| == |multiset(results)| == |multiset(ExpectedRows(jobs, g))|;
    forall k | 0 <= k < |results| ensures 0 <= results[k].rt <= results[k].wt {
      var r := results[k];
      assert r in multiset(ExpectedRows(jobs, g));
      ExpectedRowsMember(jobs, g, r);
      var j :| 0 <= j < |jobs| && r == GanttRow(jobs[j], g);
      var pid := jobs[j].pid;
      NoSegmentOf(g, pid);
      FirstStartBound(g, pid, jobs[j].arrival);
      SpanCoversBusy(g, pid);
    }
  }

  lemma {:induction false} ExpectedRowsLength(jobs: seq<Task>, g: seq<Segment>)
    ensures |ExpectedRows(jobs, g)| == |jobs|
    ensures forall j :: 0 <= j < |jobs| ==> ExpectedRows(jobs, g)[j] == GanttRow(jobs[j], g)
  {
    if jobs != [] {
      var init := jobs[..|jobs| - 1];
      ExpectedRowsLength(init, g);
      assert forall j :: 0 <= j < |init| ==> init[j] == jobs[j];
    }
  }

  /**
   * How a run's own records certify a valid schedule: every record is
   * finished, matches its input process, got exactly its burst, and has its
   * first dispatch and completion where the Gantt list puts them.
   */
  ghost predicate Recorded(t: Task, g: seq<Segment>) {
    && t.start == FirstStart(g, t.pid)
    && (t.completion.Some? ==> t.completion == LastEnd(g, t.pid))
    && (forall i :: 0 <= i < |g| && g[i].pid == t.pid ==> t.arrival <= g[i].start)
  }

  lemma {:induction false} FinishedRowsAreExpected(jobs: seq<Task>, ts: seq<Task>, g: seq<Segment>)
    requires |ts| == |jobs|
    requires forall i :: 0 <= i < |ts| ==> SameJob(ts[i], jobs[i]) && Finished(ts[i]) && Recorded(ts[i], g)
    ensures FinishedRows(ts) == ExpectedRows(jobs, g)
  {
    if ts != [] {
      var n := |ts|;
      FinishedRowsAreExpected(jobs[..n - 1], ts[..n - 1], g);
    }
  }

  lemma ValidFromRecords(jobs: seq<Task>, ts: seq<Task>, g: seq<Segment>, results: seq<Row>)
    requires |ts| == |jobs|
    requires forall i :: 0 <= i < |ts| ==> SameJob(ts[i], jobs[i]) && Finished(ts[i]) && Recorded(ts[i], g)
    requires forall i :: 0 <= i < |ts| ==> Busy(g, ts[i].pid) == ts[i].burst
    requires Positive(g) && Ordered(g)
    requires forall i :: 0 <= i < |g| ==> g[i].pid in Pids(jobs)
    requires multiset(results) == multiset(FinishedRows(ts))
    ensures ValidSchedule(jobs, g, results)
  {
    FinishedRowsAreExpected(jobs, ts, g);
    forall j, i | 0 <= j < |jobs| && 0 <= i < |g| && g[i].pid == jobs[j].pid
      ensures jobs[j].arrival <= g[i].start
    {
      assert Recorded(ts[j], g);
    }
  }
}
