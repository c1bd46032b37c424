/**
 * The process record every algorithm works on, and the metric row each
 * algorithm reports for a finished process.
 *
 * `pid`, `arrival`, `burst` and `priority` are set once by the constructor and
 * never reassigned by the scheduler, so they are `const`; `remaining`, `start`
 * and `completion` are the simulation state the algorithms update in place.
 */
module Processes {
  import opened ListOps

  /** The value of a process record at one moment of a run. */
  datatype Task = Task(
    pid: string,
    arrival: int,
    burst: int,
    remaining: int,
    start: Option<int>,
    completion: Option<int>)

  /** A record as the constructor leaves it: all work left, never dispatched. */
  predicate IsFresh(t: Task) {
    t.remaining == t.burst && t.start == None && t.completion == None
  }

  /** Two records of the same process: identity, arrival and burst agree. */
  predicate SameJob(t: Task, u: Task) {
    t.pid == u.pid && t.arrival == u.arrival && t.burst == u.burst
  }

  class Process {
    const pid: string
    const arrival: int
    const burst: int
    const priority: int
    var remaining: int
    var start: Option<int>
    var completion: Option<int>

    /** A new record starts with all of its burst remaining and no times set. */
    constructor (pid: string, arrival: int, burst: int, priority: int)
      ensures IsFresh(Snapshot())
      ensures this.pid == pid && this.arrival == arrival && this.burst == burst
      ensures this.priority == priority
    {
      this.pid := pid;
      this.arrival := arrival;
      this.burst := burst;
      this.priority := priority;
      remaining := burst;
      start := None;
      completion := None;
    }

    function Snapshot(): Task
      reads this
    {
      Task(pid, arrival, burst, remaining, start, completion)
    }
  }

  /** The current values of a list of records, position by position. */
  function Snapshots(ps: seq<Process>): (ts: seq<Task>)
    reads ps
    ensures |ts| == |ps|
    ensures forall i :: 0 <= i < |ps| ==> ts[i] == ps[i].Snapshot()
  {
    if ps == [] then [] else Snapshots(ps[..|ps| - 1]) + [ps[|ps| - 1].Snapshot()]
  }

  /** Records whose fields did not change still have the same values. */
  twostate lemma SnapshotsUnchanged(ps: seq<Process>)
    requires forall k :: 0 <= k < |ps| ==> unchanged(ps[k])
    ensures forall k :: 0 <= k < |ps| ==> ps[k].Snapshot() == old(ps[k].Snapshot())
  {
  }

  /** The records at the given positions, in the given order. */
  function Project(ts: seq<Task>, idx: seq<nat>): (r: seq<Task>)
    requires forall k :: 0 <= k < |idx| ==> idx[k] < |ts|
    ensures |r| == |idx|
    ensures forall k :: 0 <= k < |idx| ==> r[k] == ts[idx[k]]
  {
    seq(|idx|, k requires 0 <= k < |idx| => ts[idx[k]])
  }

  function Pids(ts: seq<Task>): (ps: seq<string>)
    ensures |ps| == |ts|
    ensures forall i :: 0 <= i < |ts| ==> ps[i] == ts[i].pid
  {
    seq(|ts|, i requires 0 <= i < |ts| => ts[i].pid)
  }

  /** Records that have been dispatched form a prefix of the list and were first dispatched in list order. */
  predicate StartsInOrder(ts: seq<Task>) {
    forall i, j :: 0 <= i < j < |ts| && ts[j].start.Some? ==>
      ts[i].start.Some? && ts[i].start.value <= ts[j].start.value
  }

  /** The latest arrival among the records at the given positions: the clock never idles past it. */
  function LatestArrival(ts: seq<Task>, idx: seq<nat>): (m: int)
    requires forall k :: 0 <= k < |idx| ==> idx[k] < |ts|
    ensures forall k :: 0 <= k < |idx| ==> ts[idx[k]].arrival <= m
  {
    if idx == [] then 0
    else
      var m := LatestArrival(ts, idx[..|idx| - 1]);
      var a := ts[idx[|idx| - 1]].arrival;
      if a > m then a else m
  }

  /**
   * The records of a run mirror its values: each record holds its task, the
   * list `remaining` holds the records at the positions `rem`, in that order,
   * and no record is listed twice.
   */
  ghost predicate Mirrors(procs: seq<Process>, remaining: seq<Process>, tasks: seq<Task>, rem: seq<nat>)
    reads procs
  {
    && Distinct(procs)
    && |tasks| == |procs|
    && (forall k :: 0 <= k < |procs| ==> procs[k].Snapshot() == tasks[k])
    && |remaining| == |rem|
    && (forall j :: 0 <= j < |rem| ==> rem[j] < |procs| && remaining[j] == procs[rem[j]])
  }

  /** The values of the remaining records are the mirrored tasks at the positions `rem`. */
  lemma SnapshotsOfRemaining(procs: seq<Process>, remaining: seq<Process>, tasks: seq<Task>, rem: seq<nat>)
    requires Mirrors(procs, remaining, tasks, rem)
    ensures Snapshots(remaining) == Project(tasks, rem)
  {
  }

  /**
   * `remaining.remove(p)` on a list of distinct records drops position `k`,
   * so the list still holds the records at the remaining positions.
   */
  lemma RemoveStep<T>(ps: seq<T>, rem: seq<nat>, remaining: seq<T>, k: nat)
    requires Distinct(ps) && Distinct(rem) && k < |rem|
    requires forall j :: 0 <= j < |rem| ==> rem[j] < |ps|
    requires |remaining| == |rem| && forall j :: 0 <= j < |rem| ==> remaining[j] == ps[rem[j]]
    ensures var r, rem' := RemoveFirst(remaining, remaining[k]), rem[..k] + rem[k + 1..];
            |r| == |rem'| && forall j :: 0 <= j < |rem'| ==> r[j] == ps[rem'[j]]
  {
    assert Distinct(remaining);
    RemoveFirstAt(remaining, k);
  }

  // ---------------------------------------------------------------------
  // Sorting records by arrival
  // ---------------------------------------------------------------------

  /** The sort key `lambda p: p.arrival` of `procs.sort` and `sorted(procs, ...)`. */
  function ArrivalOf(p: Process): int {
    p.arrival
  }

  function TaskArrival(t: Task): int {
    t.arrival
  }

  lemma {:induction false} SnapshotsInsert(x: Process, ps: seq<Process>)
    ensures Snapshots(InsertAfterEqual(x, ps, ArrivalOf))
         == InsertAfterEqual(x.Snapshot(), Snapshots(ps), TaskArrival)
  {
    if ps != [] && ps[0].arrival <= x.arrival {
      SnapshotsInsert(x, ps[1..]);
      assert Snapshots(ps)[1..] == Snapshots(ps[1..]);
    }
  }

  /** Sorting the records by arrival sorts their values by arrival. */
  lemma {:induction false} SnapshotsSorted(ps: seq<Process>)
    ensures Snapshots(SortBy(ps, ArrivalOf)) == SortBy(Snapshots(ps), TaskArrival)
  {
    if ps != [] {
      var init := ps[..|ps| - 1];
      SnapshotsSorted(init);
      SnapshotsInsert(ps[|ps| - 1], SortBy(init, ArrivalOf));
      assert Snapshots(ps)[..|ps| - 1] == Snapshots(init);
    }
  }

  /** Sorting a list of distinct records rearranges them: same records, same values. */
  lemma SortedRecords(ps: seq<Process>)
    requires Distinct(ps)
    ensures var sorted := SortBy(ps, ArrivalOf);
            && Distinct(sorted)
            && (forall k :: 0 <= k < |sorted| ==> sorted[k] in ps)
            && Snapshots(sorted) == SortBy(Snapshots(ps), TaskArrival)
  {
    SortedPermutes(ps, ArrivalOf);
    SnapshotsSorted(ps);
  }

  /** After sorting distinct records, the k-th record holds the k-th of the sorted values. */
  lemma SortedValues(ps: seq<Process>)
    requires Distinct(ps)
    ensures var sorted, values := SortBy(ps, ArrivalOf), SortBy(Snapshots(ps), TaskArrival);
            && Distinct(sorted) && |values| == |sorted|
            && (forall k :: 0 <= k < |sorted| ==> sorted[k] in ps)
            && (forall k :: 0 <= k < |sorted| ==> sorted[k].Snapshot() == values[k])
  {
    var sorted, values := SortBy(ps, ArrivalOf), SortBy(Snapshots(ps), TaskArrival);
    SortedRecords(ps);
    forall k | 0 <= k < |sorted| ensures sorted[k].Snapshot() == values[k] {
      assert Snapshots(sorted)[k] == sorted[k].Snapshot();
    }
  }

  /**
   * The list `sorted(procs, key=lambda p: p.arrival)` mirrors the values of
   * the records sorted by arrival, with every record listed once, in order.
   */
  lemma SortedMirrors(procs: seq<Process>)
    requires Distinct(procs)
    ensures var sorted := SortBy(procs, ArrivalOf);
            && (forall k :: 0 <= k < |sorted| ==> sorted[k] in procs)
            && Mirrors(sorted, sorted, SortBy(Snapshots(procs), TaskArrival), Range(0, |procs|))
  {
    SortedValues(procs);
    MirrorsAll(SortBy(procs, ArrivalOf), SortBy(Snapshots(procs), TaskArrival));
  }

  /** A list of distinct records mirrors its values with every position remaining. */
  lemma MirrorsAll(ps: seq<Process>, tasks: seq<Task>)
    requires Distinct(ps) && |tasks| == |ps|
    requires forall k :: 0 <= k < |ps| ==> ps[k].Snapshot() == tasks[k]
    ensures Mirrors(ps, ps, tasks, Range(0, |ps|))
  {
    var r := Range(0, |ps|);
    assert forall j :: 0 <= j < |r| ==> r[j] == j;
  }

  // ---------------------------------------------------------------------
  // Metrics
  // ---------------------------------------------------------------------

  /** One line of the results table: (pid, waiting, turnaround, response). */
  datatype Row = Row(pid: string, wt: int, tat: int, rt: int)

  /**
   * The three formulas every algorithm applies to a finished process:
   * turnaround runs from arrival to completion, waiting is turnaround less
   * the CPU time, response runs from arrival to the first dispatch.
   */
  function Metrics(pid: string, arrival: int, burst: int, start: int, completion: int): (r: Row)
    ensures r.pid == pid
    ensures arrival + r.tat == completion
    ensures r.tat == r.wt + burst
    ensures arrival + r.rt == start
    // waiting = response + the time spent ready after the first dispatch
    ensures r.wt == r.rt + (completion - start - burst)
    ensures start >= arrival ==> r.rt >= 0
    ensures completion == start + burst ==> r.wt == r.rt
  {
    var tat := completion - arrival;
    var wt := tat - burst;
    var rt := start - arrival;
    Row(pid, wt, tat, rt)
  }

  /** A record with both its first dispatch and its completion set. */
  predicate Finished(t: Task) {
    t.start.Some? && t.completion.Some?
  }

  function RowOf(t: Task): Row
    requires Finished(t)
  {
    Metrics(t.pid, t.arrival, t.burst, t.start.value, t.completion.value)
  }

  /** The row a record contributes to the results: one if it is finished, none otherwise. */
  function RowIfFinished(t: Task): seq<Row> {
    if Finished(t) then [RowOf(t)] else []
  }

  /** The rows of the finished records, in list order. */
  function FinishedRows(ts: seq<Task>): seq<Row> {
    if ts == [] then [] else FinishedRows(ts[..|ts| - 1]) + RowIfFinished(ts[|ts| - 1])
  }

  /** Before anything finishes there are no rows. */
  lemma {:induction false} NoneFinished(ts: seq<Task>)
    requires forall j :: 0 <= j < |ts| ==> !Finished(ts[j])
    ensures FinishedRows(ts) == []
  {
    if ts != [] {
      NoneFinished(ts[..|ts| - 1]);
    }
  }

  lemma {:induction false} FinishedRowsAppend(a: seq<Task>, b: seq<Task>)
    ensures FinishedRows(a + b) == FinishedRows(a) + FinishedRows(b)
  {
    if b == [] {
      assert a + b == a;
    } else {
      var init := b[..|b| - 1];
      assert (a + b)[..|a + b| - 1] == a + init;
      FinishedRowsAppend(a, init);
    }
  }

  /**
   * Finishing one record adds exactly its row to the finished rows; changing an
   * unfinished record without finishing it adds nothing.
   */
  lemma FinishedRowsUpdate(ts: seq<Task>, c: nat, t: Task)
    requires c < |ts| && !Finished(ts[c])
    ensures multiset(FinishedRows(ts[c := t])) == multiset(FinishedRows(ts)) + multiset(RowIfFinished(t))
  {
    var pre, post := ts[..c], ts[c + 1..];
    assert ts == pre + [ts[c]] + post;
    assert ts[c := t] == pre + [t] + post;
    FinishedRowsAppend(pre + [ts[c]], post);
    FinishedRowsAppend(pre, [ts[c]]);
    FinishedRowsAppend(pre + [t], post);
    FinishedRowsAppend(pre, [t]);
    assert FinishedRows([ts[c]]) == [];
    assert FinishedRows([t]) == RowIfFinished(t);
  }

  /** Total remaining work of the records at the given positions. */
  function Work(ts: seq<Task>, idx: seq<nat>): int
    requires forall k :: 0 <= k < |idx| ==> idx[k] < |ts|
  {
    if idx == [] then 0 else Work(ts, idx[..|idx| - 1]) + ts[idx[|idx| - 1]].remaining
  }

  lemma {:induction false} WorkAppend(ts: seq<Task>, a: seq<nat>, b: seq<nat>)
    requires forall k :: 0 <= k < |a| ==> a[k] < |ts|
    requires forall k :: 0 <= k < |b| ==> b[k] < |ts|
    ensures Work(ts, a + b) == Work(ts, a) + Work(ts, b)
  {
    if b == [] {
      assert a + b == a;
    } else {
      var n := |b|;
      assert (a + b)[..|a + b| - 1] == a + b[..n - 1];
      WorkAppend(ts, a, b[..n - 1]);
    }
  }

  /** Changing a record at a position the list does not mention leaves its work alone. */
  lemma {:induction false} WorkFrame(ts: seq<Task>, idx: seq<nat>, c: nat, t: Task)
    requires c < |ts| && c !in idx
    requires forall k :: 0 <= k < |idx| ==> idx[k] < |ts|
    ensures Work(ts[c := t], idx) == Work(ts, idx)
  {
    if idx != [] {
      WorkFrame(ts, idx[..|idx| - 1], c, t);
    }
  }

  /** Changing the record at the `j`-th listed position changes the work by the change in its remaining time. */
  lemma WorkUpdate(ts: seq<Task>, idx: seq<nat>, j: nat, t: Task)
    requires j < |idx| && Distinct(idx)
    requires forall k :: 0 <= k < |idx| ==> idx[k] < |ts|
    ensures Work(ts[idx[j] := t], idx) == Work(ts, idx) - ts[idx[j]].remaining + t.remaining
  {
    var c := idx[j];
    var ts' := ts[c := t];
    var pre, post := idx[..j], idx[j + 1..];
    assert idx == pre + [c] + post;
    assert c !in pre && c !in post;
    WorkAppend(ts, pre + [c], post);
    WorkAppend(ts, pre, [c]);
    WorkAppend(ts', pre + [c], post);
    WorkAppend(ts', pre, [c]);
    WorkFrame(ts, pre, c, t);
    WorkFrame(ts, post, c, t);
    assert [c][..0] == [];
  }

  /** Dropping the `j`-th listed position drops its remaining time from the work. */
  lemma WorkRemove(ts: seq<Task>, idx: seq<nat>, j: nat)
    requires j < |idx|
    requires forall k :: 0 <= k < |idx| ==> idx[k] < |ts|
    ensures Work(ts, idx[..j] + idx[j + 1..]) == Work(ts, idx) - ts[idx[j]].remaining
  {
    var pre, post := idx[..j], idx[j + 1..];
    assert idx == pre + [idx[j]] + post;
    WorkAppend(ts, pre + [idx[j]], post);
    WorkAppend(ts, pre, [idx[j]]);
    WorkAppend(ts, pre, post);
    assert [idx[j]][..0] == [];
  }

  lemma WorkNonNegative(ts: seq<Task>, idx: seq<nat>)
    requires forall k :: 0 <= k < |idx| ==> idx[k] < |ts| && ts[idx[k]].remaining > 0
    ensures Work(ts, idx) >= |idx|
  {
    if idx != [] {
      WorkNonNegative(ts, idx[..|idx| - 1]);
    }
  }
}
