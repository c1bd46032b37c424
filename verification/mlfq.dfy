/**
 * Multi-Level Feedback Queue with three deques. The records, sorted stably by
 * arrival, all start in the top deque. Each pass serves the head of the
 * lowest-index non-empty deque: at levels 0 and 1 for at most that level's
 * quantum, at level 2 for all of its remaining time. A record with work left
 * moves one level down; otherwise it completes.
 */
module MultiLevelFeedbackQueue {
  import opened ListOps
  import opened Processes
  import opened Timeline

  /**
   * The simulation state: every record (in the top deque's initial order),
   * the positions of the records in each of the three deques (head first), the
   * clock and the two output lists.
   */
  datatype State = State(tasks: seq<Task>, queues: seq<seq<nat>>, time: int, gantt: seq<Segment>, results: seq<Row>)

  /** No position is in both deques. */
  predicate Apart(a: seq<nat>, b: seq<nat>) {
    forall x :: x in a ==> x !in b
  }

  /** Three deques of valid positions; no record is queued twice, in one deque or across two. */
  predicate Sound(queues: seq<seq<nat>>, n: nat) {
    && |queues| == 3
    && (forall l :: 0 <= l < 3 ==> Distinct(queues[l]))
    && (forall l, x :: 0 <= l < 3 && x in queues[l] ==> x < n)
    && Apart(queues[0], queues[1]) && Apart(queues[0], queues[2]) && Apart(queues[1], queues[2])
  }

  predicate WellFormed(st: State) {
    Sound(st.queues, |st.tasks|)
  }

  /** Record `x` waits in some deque. */
  predicate Queued(queues: seq<seq<nat>>, x: nat)
    requires |queues| == 3
  {
    x in queues[0] || x in queues[1] || x in queues[2]
  }

  /** `not any(queues)`: every deque is empty. */
  predicate Idle(queues: seq<seq<nat>>)
    requires |queues| == 3
  {
    queues[0] == [] && queues[1] == [] && queues[2] == []
  }

  /** The termination measure: a record at level `l` can be served at most `3 - l` more times. */
  function Rank(queues: seq<seq<nat>>): nat
    requires |queues| == 3
  {
    3 * |queues[0]| + 2 * |queues[1]| + |queues[2]|
  }

  /** `for p in sorted(procs, ...): queues[0].append(p)` once sorted: every record in the top deque, in list order. */
  function Initial(jobs: seq<Task>): (st: State)
    ensures WellFormed(st)
  {
    State(jobs, [Range(0, |jobs|), [], []], 0, [], [])
  }

  /**
   * The level the `for i, q in enumerate(queues)` loop serves: the first
   * non-empty deque, or nobody when all are empty.
   */
  function FirstNonEmpty(queues: seq<seq<nat>>): (r: Option<nat>)
    ensures r.None? <==> forall l :: 0 <= l < |queues| ==> queues[l] == []
    ensures r.Some? ==> r.value < |queues| && queues[r.value] != []
    ensures r.Some? ==> forall l :: 0 <= l < r.value ==> queues[l] == []
  {
    if queues == [] then None
    else if queues[0] != [] then Some(0)
    else
      var r := FirstNonEmpty(queues[1..]);
      if r.None? then None else Some(r.value + 1)
  }

  /** `queues[i+1] if i < 2 else queues[i]`: where a record with work left goes. */
  function NextLevel(i: nat): (next: nat)
    ensures i < 2 ==> next == i + 1
    ensures i >= 2 ==> next == i
  {
    if i < 2 then i + 1 else i
  }

  /** `p = q.popleft()` on deque `i`, then `queues[next].append(p)`. */
  function MoveHead(queues: seq<seq<nat>>, i: nat, next: nat): (r: seq<seq<nat>>)
    requires |queues| == 3 && i < 3 && next < 3 && queues[i] != []
    ensures |r| == 3 && Rank(r) == Rank(queues) - (3 - i) + (3 - next)
  {
    var q1 := queues[i := queues[i][1..]];
    q1[next := q1[next] + [queues[i][0]]]
  }

  /** `p = q.popleft()` on deque `i`: the head leaves the deques. */
  function DropHead(queues: seq<seq<nat>>, i: nat): (r: seq<seq<nat>>)
    requires |queues| == 3 && i < 3 && queues[i] != []
    ensures |r| == 3 && Rank(r) == Rank(queues) - (3 - i)
  {
    queues[i := queues[i][1..]]
  }

  /** The head of a deque without repetitions is not in the rest of it. */
  lemma HeadNotInTail(q: seq<nat>)
    requires q != [] && Distinct(q)
    ensures q[0] !in q[1..] && Distinct(q[1..])
  {
    forall k | 0 <= k < |q[1..]| ensures q[1..][k] != q[0] {
      assert q[1..][k] == q[k + 1];
    }
  }

  /**
   * Moving the head of deque `i` down to deque `next` keeps the deques sound
   * and moves nobody else; the head is then in deque `next` only.
   */
  lemma MoveSound(queues: seq<seq<nat>>, n: nat, i: nat, next: nat)
    requires Sound(queues, n) && i <= next < 3 && 1 <= next && queues[i] != []
    ensures var c, r := queues[i][0], MoveHead(queues, i, next);
            && Sound(r, n)
            && r[0] == (if i == 0 then queues[0][1..] else queues[0])
            && c in r[next] && (forall l :: 0 <= l < 3 && l != next ==> c !in r[l])
            && (forall x, l :: x != c && 0 <= l < 3 ==> (x in r[l] <==> x in queues[l]))
  {
    var c := queues[i][0];
    HeadNotInTail(queues[i]);
    assert queues[i] == [c] + queues[i][1..];
    var q1 := queues[i := queues[i][1..]];
    var r := q1[next := q1[next] + [c]];
    assert MoveHead(queues, i, next) == r;
    assert c !in q1[next];
    assert c in queues[i];
    assert forall x, l :: 0 <= l < 3 && x in r[l] ==> x == c || x in queues[l];
    assert Distinct(r[next]) by {
      forall a, b | 0 <= a < b < |r[next]| ensures r[next][a] != r[next][b] {
        if b < |q1[next]| {
          assert r[next][a] == q1[next][a] && r[next][b] == q1[next][b];
        } else {
          assert r[next][a] == q1[next][a];
        }
      }
    }
  }

  /** Dropping the head of deque `i` keeps the deques sound and removes nobody else. */
  lemma DropSound(queues: seq<seq<nat>>, n: nat, i: nat)
    requires Sound(queues, n) && i < 3 && queues[i] != []
    ensures var c, r := queues[i][0], DropHead(queues, i);
            && Sound(r, n)
            && r[0] == (if i == 0 then queues[0][1..] else queues[0])
            && !Queued(r, c)
            && (forall x, l :: x != c && 0 <= l < 3 ==> (x in r[l] <==> x in queues[l]))
  {
    HeadNotInTail(queues[i]);
    assert queues[i] == [queues[i][0]] + queues[i][1..];
    var r := DropHead(queues, i);
    assert forall x, l :: 0 <= l < 3 && x in r[l] ==> x in queues[l];
  }

  /** `min(quanta[i], p.remaining) if i < 2 else p.remaining`: the length of a turn at level `i`. */
  function RunTime(i: nat, quanta: seq<int>, remaining: int): (run: int)
    requires |quanta| >= 2
    ensures run <= remaining && (i >= 2 ==> run == remaining)
    ensures i < 2 ==> run <= quanta[i] && (run == quanta[i] || run == remaining)
  {
    if i < 2 then Min(quanta[i], remaining) else remaining
  }

  /** The record at the head of deque `i`. */
  function Head(st: State, i: nat): (c: nat)
    requires WellFormed(st) && i < 3 && st.queues[i] != []
    ensures c == st.queues[i][0] && c < |st.tasks|
  {
    assert st.queues[i][0] in st.queues[i];
    st.queues[i][0]
  }

  /**
   * Serving the head of deque `i` (lines 304-320): it starts at the later of
   * the clock and its arrival (its first dispatch is recorded if it has none)
   * and runs `min(quanta[i], remaining)` units at levels 0 and 1, all of its
   * remaining time at level 2. With work left it is appended to the next
   * deque (`queues[i]` itself at level 2, which cannot happen: level 2 leaves
   * no work); otherwise it completes and gets its row.
   */
  function Dispatch(st: State, i: nat, quanta: seq<int>): (st': State)
    requires WellFormed(st) && i < 3 && st.queues[i] != [] && |quanta| >= 2
    ensures WellFormed(st') && |st'.tasks| == |st.tasks| && |st'.gantt| == |st.gantt| + 1
    ensures Rank(st'.queues) < Rank(st.queues)
  {
    var c := Head(st, i);
    var t := st.tasks[c];
    var start := Max(st.time, t.arrival);
    var run := RunTime(i, quanta, t.remaining);
    var end := start + run;
    var t1 := t.(start := if t.start.None? then Some(start) else t.start, remaining := t.remaining - run);
    var gantt := st.gantt + [Segment(t.pid, start, end)];
    if t1.remaining > 0 then
      MoveSound(st.queues, |st.tasks|, i, NextLevel(i));
      State(st.tasks[c := t1], MoveHead(st.queues, i, NextLevel(i)), end, gantt, st.results)
    else
      DropSound(st.queues, |st.tasks|, i);
      var t2 := t1.(completion := Some(end));
      State(st.tasks[c := t2], DropHead(st.queues, i), end, gantt,
            st.results + [Metrics(t.pid, t.arrival, t.burst, t2.start.value, end)])
  }

  /** `Dispatch` spelled out field by field: an unfolding helper for the proofs and the method below, not a specification. */
  lemma DispatchParts(st: State, i: nat, quanta: seq<int>)
    requires WellFormed(st) && i < 3 && st.queues[i] != [] && |quanta| >= 2
    ensures var c, st' := Head(st, i), Dispatch(st, i, quanta);
            var t := st.tasks[c];
            var s, run := Max(st.time, t.arrival), RunTime(i, quanta, t.remaining);
            var t1 := t.(start := if t.start.None? then Some(s) else t.start, remaining := t.remaining - run);
            && st'.time == s + run
            && st'.gantt == st.gantt + [Segment(t.pid, s, s + run)]
            && (t1.remaining > 0 ==>
                  && st'.queues == MoveHead(st.queues, i, NextLevel(i))
                  && st'.tasks == st.tasks[c := t1] && st'.results == st.results)
            && (t1.remaining <= 0 ==>
                  && st'.queues == DropHead(st.queues, i)
                  && st'.tasks == st.tasks[c := t1.(completion := Some(s + run))]
                  && st'.results == st.results + [Metrics(t.pid, t.arrival, t.burst, t1.start.value, s + run)])
  {
  }

  /**
   * One pass of the `while any(queues):` loop body: serve the first non-empty
   * deque, or, if the `for` loop found none, tick the clock (its `else`
   * branch). The `while` loop only runs a pass while some deque is non-empty,
   * and then the pass serves somebody.
   */
  function Step(st: State, quanta: seq<int>): (st': State)
    requires WellFormed(st) && |quanta| >= 2
    ensures WellFormed(st') && |st'.tasks| == |st.tasks|
    ensures !Idle(st.queues) ==> |st'.gantt| == |st.gantt| + 1 && Rank(st'.queues) < Rank(st.queues)
  {
    match FirstNonEmpty(st.queues)
    case None => st.(time := st.time + 1)
    case Some(i) => Dispatch(st, i, quanta)
  }

  /** The `while any(queues):` loop, from state `st` to the end. */
  function Run(st: State, quanta: seq<int>): (r: State)
    requires WellFormed(st) && |quanta| >= 2
    ensures WellFormed(r) && Idle(r.queues) && |r.tasks| == |st.tasks|
    decreases Rank(st.queues)
  {
    if Idle(st.queues) then st else Run(Step(st, quanta), quanta)
  }

  /** Only the first two quanta are ever read: the third has no effect on the run. */
  lemma {:induction false} ThirdQuantumUnused(st: State, quanta: seq<int>, quanta': seq<int>)
    requires WellFormed(st) && |quanta| >= 2 && |quanta'| >= 2
    requires quanta[0] == quanta'[0] && quanta[1] == quanta'[1]
    ensures Run(st, quanta) == Run(st, quanta')
    decreases Rank(st.queues)
  {
    if !Idle(st.queues) {
      var i := FirstNonEmpty(st.queues).value;
      var c := Head(st, i);
      assert RunTime(i, quanta, st.tasks[c].remaining) == RunTime(i, quanta', st.tasks[c].remaining);
      assert Dispatch(st, i, quanta) == Dispatch(st, i, quanta');
      assert Step(st, quanta) == Step(st, quanta');
      ThirdQuantumUnused(Step(st, quanta), quanta, quanta');
    }
  }

  // ---------------------------------------------------------------------
  // The schedule MLFQ produces
  // ---------------------------------------------------------------------

  /** CPU time a record waiting at `level` has received: the full quanta of the levels above it. */
  function Used(quanta: seq<int>, level: nat): int
    requires |quanta| >= 2
  {
    if level == 0 then 0 else if level == 1 then quanta[0] else quanta[0] + quanta[1]
  }

  /** The number of segments a process of this burst gets: one per level it reaches. */
  function Levels(quanta: seq<int>, burst: int): nat
    requires |quanta| >= 2
  {
    if burst <= quanta[0] then 1 else if burst <= quanta[0] + quanta[1] then 2 else 3
  }

  /** The assumptions the validity theorem needs of the input records and the quanta. */
  ghost predicate GoodJobs(jobs: seq<Task>, quanta: seq<int>) {
    && |quanta| >= 2 && quanta[0] > 0 && quanta[1] > 0
    && Distinct(Pids(jobs))
    && (forall j :: 0 <= j < |jobs| ==> jobs[j].burst > 0 && IsFresh(jobs[j]))
  }

  /** Which records are still queued, and that those have work left and have not completed. */
  ghost predicate Tracked(jobs: seq<Task>, st: State) {
    && WellFormed(st)
    && |st.tasks| == |jobs|
    && (forall i :: 0 <= i < |jobs| ==> SameJob(st.tasks[i], jobs[i]))
    && (forall i :: 0 <= i < |jobs| && Queued(st.queues, i) ==> st.tasks[i].remaining > 0 && st.tasks[i].completion.None?)
    && (forall i :: 0 <= i < |jobs| && !Queued(st.queues, i) ==> Finished(st.tasks[i]) && st.tasks[i].remaining == 0)
  }

  /**
   * A record waiting at `level` has had one segment per level above it, each a
   * full quantum; a completed one has had one segment per level it reached.
   */
  ghost predicate Leveled(st: State, quanta: seq<int>, i: nat, job: Task)
    requires WellFormed(st) && |quanta| >= 2 && i < |st.tasks|
  {
    && (forall l :: 0 <= l < 3 && i in st.queues[l] ==>
          SegmentCount(st.gantt, job.pid) == l && job.burst - st.tasks[i].remaining == Used(quanta, l))
    && (!Queued(st.queues, i) ==> SegmentCount(st.gantt, job.pid) == Levels(quanta, job.burst))
  }

  /** Each record agrees with the Gantt list: first dispatch, completion, CPU time received, level. */
  ghost predicate Charted(jobs: seq<Task>, st: State, quanta: seq<int>)
    requires WellFormed(st) && |st.tasks| == |jobs| && |quanta| >= 2
  {
    forall i :: 0 <= i < |jobs| ==>
      && Recorded(st.tasks[i], st.gantt)
      && Busy(st.gantt, jobs[i].pid) == jobs[i].burst - st.tasks[i].remaining
      && Leveled(st, quanta, i, jobs[i])
  }

  /** The Gantt list is ordered, over by now, and names only known processes. */
  ghost predicate Shaped(jobs: seq<Task>, st: State) {
    && Positive(st.gantt) && Ordered(st.gantt) && EndsBy(st.gantt, st.time)
    && (forall a :: 0 <= a < |st.gantt| ==> st.gantt[a].pid in Pids(jobs))
  }

  /**
   * The top deque is served first, in list order: until every record has had
   * its first segment, the top deque holds exactly the records not yet served,
   * and the Gantt list so far holds one segment per record, in list order.
   */
  ghost predicate TopFirst(jobs: seq<Task>, st: State)
    requires |st.queues| == 3
  {
    var n, m := |jobs|, |st.gantt|;
    && (m <= n ==> st.queues[0] == Range(m, n))
    && (m >= n ==> st.queues[0] == [])
    && (forall a :: 0 <= a < m && a < n ==> st.gantt[a].pid == jobs[a].pid)
  }

  /** What holds of every state of a run that started from `Initial(jobs)`. */
  ghost predicate Inv(jobs: seq<Task>, st: State, quanta: seq<int>)
    requires |quanta| >= 2
  {
    && Tracked(jobs, st)
    && Charted(jobs, st, quanta)
    && Shaped(jobs, st)
    && TopFirst(jobs, st)
    && multiset(st.results) == multiset(FinishedRows(st.tasks))
  }

  lemma InitialInv(jobs: seq<Task>, quanta: seq<int>)
    requires GoodJobs(jobs, quanta)
    ensures Inv(jobs, Initial(jobs), quanta)
  {
    var st := Initial(jobs);
    assert Tracked(jobs, st) by {
      forall i | 0 <= i < |jobs| ensures i in st.queues[0] {
        assert Range(0, |jobs|)[i] == i;
      }
    }
    assert Charted(jobs, st, quanta) by {
      forall i | 0 <= i < |jobs|
        ensures Recorded(st.tasks[i], []) && Busy([], jobs[i].pid) == 0 && Leveled(st, quanta, i, jobs[i])
      {
        NoSegmentOf([], jobs[i].pid);
      }
    }
    NoneFinished(jobs);
  }

  /**
   * What serving deque `i` does to its head record: it runs a full quantum and
   * moves one level down, or runs what it had left and completes; level 2
   * always completes.
   */
  lemma DispatchHead(jobs: seq<Task>, st: State, i: nat, quanta: seq<int>)
    requires Tracked(jobs, st) && i < 3 && st.queues[i] != [] && |quanta| >= 2 && quanta[0] > 0 && quanta[1] > 0
    ensures var c, st' := Head(st, i), Dispatch(st, i, quanta);
            var t, s := st.tasks[c], Max(st.time, st.tasks[c].arrival);
            && st.time <= s < st'.time
            && st'.gantt == st.gantt + [Segment(t.pid, s, st'.time)]
            && st'.tasks[c].remaining == t.remaining - (st'.time - s)
            && (i < 2 ==> st'.time - s <= quanta[i])
            && (Queued(st'.queues, c) ==> i < 2 && st'.time - s == quanta[i] && st'.tasks[c].completion == t.completion)
            && (!Queued(st'.queues, c) ==> st'.tasks[c].remaining == 0 && st'.tasks[c].completion == Some(st'.time))
            && st'.tasks[c].start == (if t.start.None? then Some(s) else t.start)
            && SameJob(st'.tasks[c], t)
            && st'.tasks == st.tasks[c := st'.tasks[c]]
            && st'.results == st.results + (if Queued(st'.queues, c) then [] else [RowOf(st'.tasks[c])])
  {
    var c := Head(st, i);
    assert c in st.queues[i];
    DispatchParts(st, i, quanta);
    var t := st.tasks[c];
    if t.remaining - RunTime(i, quanta, t.remaining) > 0 {
      MoveSound(st.queues, |st.tasks|, i, NextLevel(i));
    } else {
      DropSound(st.queues, |st.tasks|, i);
    }
  }

  /** Serving deque `i` moves its head down one level or drops it; nobody else moves. */
  lemma DispatchQueues(st: State, i: nat, quanta: seq<int>)
    requires WellFormed(st) && i < 3 && st.queues[i] != [] && |quanta| >= 2
    ensures var c, st' := Head(st, i), Dispatch(st, i, quanta);
            && st'.queues[0] == (if i == 0 then st.queues[0][1..] else st.queues[0])
            && (forall x, l :: x != c && 0 <= l < 3 ==> (x in st'.queues[l] <==> x in st.queues[l]))
            && (forall x :: x != c ==> (Queued(st'.queues, x) <==> Queued(st.queues, x)))
            && (Queued(st'.queues, c) ==>
                  && i < 2 && c in st'.queues[i + 1]
                  && forall l :: 0 <= l < 3 && l != i + 1 ==> c !in st'.queues[l])
  {
    var c := Head(st, i);
    DispatchParts(st, i, quanta);
    var t := st.tasks[c];
    if t.remaining - RunTime(i, quanta, t.remaining) > 0 {
      MoveSound(st.queues, |st.tasks|, i, NextLevel(i));
    } else {
      DropSound(st.queues, |st.tasks|, i);
    }
  }

  lemma DispatchTracked(jobs: seq<Task>, st: State, i: nat, quanta: seq<int>)
    requires Tracked(jobs, st) && i < 3 && st.queues[i] != [] && |quanta| >= 2 && quanta[0] > 0 && quanta[1] > 0
    ensures Tracked(jobs, Dispatch(st, i, quanta))
  {
    DispatchHead(jobs, st, i, quanta);
    DispatchQueues(st, i, quanta);
  }

  /** The levels a record passes through, against its burst: where it completes is `Levels` deep. */
  lemma LevelsAt(quanta: seq<int>, l: nat, burst: int, remaining: int, run: int)
    requires |quanta| >= 2 && l < 3 && 0 < remaining && burst - remaining == Used(quanta, l)
    requires run == remaining && (l < 2 ==> run <= quanta[l])
    requires quanta[0] > 0 && quanta[1] > 0
    ensures Levels(quanta, burst) == l + 1
  {
  }

  /** The head record's own level and Gantt facts across its turn. */
  lemma DispatchServed(jobs: seq<Task>, st: State, i: nat, quanta: seq<int>)
    requires GoodJobs(jobs, quanta) && Tracked(jobs, st) && Charted(jobs, st, quanta)
    requires i < 3 && st.queues[i] != []
    ensures var c, st' := Head(st, i), Dispatch(st, i, quanta);
            && Recorded(st'.tasks[c], st'.gantt)
            && Busy(st'.gantt, jobs[c].pid) == jobs[c].burst - st'.tasks[c].remaining
            && Leveled(st', quanta, c, jobs[c])
  {
    var c := Head(st, i);
    var st' := Dispatch(st, i, quanta);
    var t := st.tasks[c];
    var seg := Segment(t.pid, Max(st.time, t.arrival), st'.time);
    DispatchHead(jobs, st, i, quanta);
    DispatchQueues(st, i, quanta);
    assert SameJob(t, jobs[c]);
    AppendSegment(st.gantt, seg, t.pid);
    assert c in st.queues[i] && Leveled(st, quanta, c, jobs[c]);
    assert SegmentCount(st.gantt, t.pid) == i && jobs[c].burst - t.remaining == Used(quanta, i);
    if t.start.None? {
      NoSegmentOf(st.gantt, t.pid);
    }
    if !Queued(st'.queues, c) {
      LevelsAt(quanta, i, jobs[c].burst, t.remaining, st'.time - seg.start);
    }
  }

  /** Any other record: its deque, its values and its segments are untouched. */
  lemma DispatchBystander(jobs: seq<Task>, st: State, i: nat, quanta: seq<int>, x: nat)
    requires GoodJobs(jobs, quanta) && Tracked(jobs, st) && Charted(jobs, st, quanta)
    requires i < 3 && st.queues[i] != [] && x < |jobs| && x != Head(st, i)
    ensures var st' := Dispatch(st, i, quanta);
            && Recorded(st'.tasks[x], st'.gantt)
            && Busy(st'.gantt, jobs[x].pid) == jobs[x].burst - st'.tasks[x].remaining
            && Leveled(st', quanta, x, jobs[x])
  {
    var c := Head(st, i);
    var st' := Dispatch(st, i, quanta);
    var t := st.tasks[c];
    DispatchHead(jobs, st, i, quanta);
    DispatchQueues(st, i, quanta);
    assert Pids(jobs)[x] != Pids(jobs)[c];
    assert SameJob(t, jobs[c]) && SameJob(st.tasks[x], jobs[x]);
    AppendSegment(st.gantt, Segment(t.pid, Max(st.time, t.arrival), st'.time), jobs[x].pid);
    assert st'.tasks[x] == st.tasks[x];
    assert Leveled(st, quanta, x, jobs[x]);
  }

  lemma DispatchCharted(jobs: seq<Task>, st: State, i: nat, quanta: seq<int>)
    requires GoodJobs(jobs, quanta) && Tracked(jobs, st) && Charted(jobs, st, quanta)
    requires i < 3 && st.queues[i] != []
    ensures Charted(jobs, Dispatch(st, i, quanta), quanta)
  {
    DispatchServed(jobs, st, i, quanta);
    forall x | 0 <= x < |jobs| && x != Head(st, i) {
      DispatchBystander(jobs, st, i, quanta, x);
    }
  }

  lemma DispatchShaped(jobs: seq<Task>, st: State, i: nat, quanta: seq<int>)
    requires Tracked(jobs, st) && Shaped(jobs, st) && i < 3 && st.queues[i] != [] && |quanta| >= 2 && quanta[0] > 0 && quanta[1] > 0
    ensures Shaped(jobs, Dispatch(st, i, quanta))
  {
    var c := Head(st, i);
    var t := st.tasks[c];
    var st' := Dispatch(st, i, quanta);
    DispatchHead(jobs, st, i, quanta);
    AppendOrdered(st.gantt, Segment(t.pid, Max(st.time, t.arrival), st'.time), st.time);
    assert Pids(jobs)[c] == t.pid;
  }

  /**
   * While some record has not been served, the top deque is not empty and its
   * head is the next record in list order; its segment is the next one.
   */
  lemma DispatchTopFirst(jobs: seq<Task>, st: State, i: nat, quanta: seq<int>)
    requires Tracked(jobs, st) && TopFirst(jobs, st) && i < 3 && st.queues[i] != [] && |quanta| >= 2
    requires quanta[0] > 0 && quanta[1] > 0
    requires forall l :: 0 <= l < i ==> st.queues[l] == []
    ensures TopFirst(jobs, Dispatch(st, i, quanta))
  {
    DispatchHead(jobs, st, i, quanta);
    DispatchQueues(st, i, quanta);
    if i == 0 {
      TopServed(jobs, st, quanta);
    } else {
      assert st.queues[0] == [];
      assert |st.gantt| >= |jobs|;
    }
  }

  /** Serving the top deque serves the next record in list order. */
  lemma TopServed(jobs: seq<Task>, st: State, quanta: seq<int>)
    requires Tracked(jobs, st) && TopFirst(jobs, st) && st.queues[0] != [] && |quanta| >= 2
    requires quanta[0] > 0 && quanta[1] > 0
    ensures TopFirst(jobs, Dispatch(st, 0, quanta))
  {
    var n, m := |jobs|, |st.gantt|;
    var c := Head(st, 0);
    var st' := Dispatch(st, 0, quanta);
    DispatchHead(jobs, st, 0, quanta);
    DispatchQueues(st, 0, quanta);
    assert m < n && c == m;
    assert SameJob(st.tasks[c], jobs[c]);
    assert st'.queues[0] == Range(m + 1, n);
    forall a | 0 <= a < m + 1 && a < n ensures st'.gantt[a].pid == jobs[a].pid {
      if a < m {
        assert st'.gantt[a] == st.gantt[a];
      }
    }
  }

  /** Completing the head record adds exactly its row. */
  lemma DispatchResults(jobs: seq<Task>, st: State, i: nat, quanta: seq<int>)
    requires Tracked(jobs, st) && multiset(st.results) == multiset(FinishedRows(st.tasks))
    requires i < 3 && st.queues[i] != [] && |quanta| >= 2 && quanta[0] > 0 && quanta[1] > 0
    ensures multiset(Dispatch(st, i, quanta).results) == multiset(FinishedRows(Dispatch(st, i, quanta).tasks))
  {
    var c := Head(st, i);
    var st' := Dispatch(st, i, quanta);
    assert c in st.queues[i];
    DispatchHead(jobs, st, i, quanta);
    FinishedRowsUpdate(st.tasks, c, st'.tasks[c]);
    assert st'.results == st.results + RowIfFinished(st'.tasks[c]);
  }

  lemma StepInv(jobs: seq<Task>, st: State, quanta: seq<int>)
    requires GoodJobs(jobs, quanta) && Inv(jobs, st, quanta) && !Idle(st.queues)
    ensures Inv(jobs, Step(st, quanta), quanta)
  {
    var i := FirstNonEmpty(st.queues).value;
    assert Step(st, quanta) == Dispatch(st, i, quanta);
    DispatchTracked(jobs, st, i, quanta);
    DispatchCharted(jobs, st, i, quanta);
    DispatchShaped(jobs, st, i, quanta);
    DispatchTopFirst(jobs, st, i, quanta);
    DispatchResults(jobs, st, i, quanta);
  }

  lemma {:induction false} RunInv(jobs: seq<Task>, st: State, quanta: seq<int>)
    requires GoodJobs(jobs, quanta) && Inv(jobs, st, quanta)
    ensures Inv(jobs, Run(st, quanta), quanta)
    decreases Rank(st.queues)
  {
    if !Idle(st.queues) {
      StepInv(jobs, st, quanta);
      RunInv(jobs, Step(st, quanta), quanta);
    }
  }

  /**
   * Over processes with distinct pids, positive bursts and fresh records, and
   * with positive quanta for the top two levels, MLFQ produces a valid
   * schedule in which each process gets one segment per level it reaches,
   * and the first `n` segments are the `n` processes' first turns, in list
   * order, so first dispatches follow that order.
   */
  lemma MlfqIsValidSchedule(jobs: seq<Task>, quanta: seq<int>)
    requires GoodJobs(jobs, quanta)
    ensures var fin := Run(Initial(jobs), quanta);
            && ValidSchedule(jobs, fin.gantt, fin.results)
            && (forall j :: 0 <= j < |jobs| ==> SegmentCount(fin.gantt, jobs[j].pid) == Levels(quanta, jobs[j].burst))
            && |jobs| <= |fin.gantt|
            && (forall j :: 0 <= j < |jobs| ==> fin.gantt[j].pid == jobs[j].pid)
            && FirstDispatchInOrder(jobs, fin.gantt)
  {
    InitialInv(jobs, quanta);
    RunInv(jobs, Initial(jobs), quanta);
    FinalValid(jobs, Run(Initial(jobs), quanta), quanta);
  }

  /** A finished run, every deque empty: the invariant is the theorem. */
  lemma FinalValid(jobs: seq<Task>, fin: State, quanta: seq<int>)
    requires GoodJobs(jobs, quanta) && Inv(jobs, fin, quanta) && Idle(fin.queues)
    ensures && ValidSchedule(jobs, fin.gantt, fin.results)
            && (forall j :: 0 <= j < |jobs| ==> SegmentCount(fin.gantt, jobs[j].pid) == Levels(quanta, jobs[j].burst))
            && |jobs| <= |fin.gantt|
            && (forall j :: 0 <= j < |jobs| ==> fin.gantt[j].pid == jobs[j].pid)
            && FirstDispatchInOrder(jobs, fin.gantt)
  {
    var g := fin.gantt;
    assert |jobs| <= |g|;
    forall i | 0 <= i < |jobs| {
      FinalRecord(jobs, fin, quanta, i);
    }
    ValidFromRecords(jobs, fin.tasks, g, fin.results);
    FirstTurnsInOrder(jobs, g);
  }

  /** When the first `n` segments are the `n` processes' first, in list order, first dispatches follow that order. */
  lemma FirstTurnsInOrder(jobs: seq<Task>, g: seq<Segment>)
    requires Positive(g) && Ordered(g) && |jobs| <= |g|
    requires forall j :: 0 <= j < |jobs| ==> FirstStart(g, jobs[j].pid) == Some(g[j].start)
    ensures FirstDispatchInOrder(jobs, g)
  {
    forall i, j | 0 <= i < j < |jobs|
      ensures FirstStart(g, jobs[i].pid).GetOr(0) <= FirstStart(g, jobs[j].pid).GetOr(0)
    {
      assert g[i].start < g[i].end <= g[j].start;
    }
  }

  /** One record at the end of a run: completed, its burst served, its first segment at its own position. */
  lemma FinalRecord(jobs: seq<Task>, fin: State, quanta: seq<int>, i: nat)
    requires GoodJobs(jobs, quanta) && Inv(jobs, fin, quanta) && Idle(fin.queues)
    requires i < |jobs| <= |fin.gantt|
    ensures Busy(fin.gantt, fin.tasks[i].pid) == fin.tasks[i].burst
    ensures FirstStart(fin.gantt, jobs[i].pid) == fin.tasks[i].start
    ensures SegmentCount(fin.gantt, jobs[i].pid) == Levels(quanta, jobs[i].burst)
    ensures FirstStart(fin.gantt, jobs[i].pid) == Some(fin.gantt[i].start)
  {
    var g := fin.gantt;
    assert SameJob(fin.tasks[i], jobs[i]);
    assert !Queued(fin.queues, i);
    assert Leveled(fin, quanta, i, jobs[i]);
    forall a | 0 <= a < i ensures g[a].pid != g[i].pid {
      assert Pids(jobs)[a] != Pids(jobs)[i];
    }
    FirstStartAt(g, i);
  }

  // ---------------------------------------------------------------------
  // The imperative algorithm
  // ---------------------------------------------------------------------

  /** A deque of records holds the records at the positions of a deque of positions, in order. */
  predicate HoldsLevel(procs: seq<Process>, q: seq<Process>, idx: seq<nat>) {
    && |q| == |idx|
    && (forall j :: 0 <= j < |idx| ==> idx[j] < |procs| && q[j] == procs[idx[j]])
  }

  /** Each of the three deques of records mirrors the matching deque of positions. */
  predicate Holds(procs: seq<Process>, queues: seq<seq<Process>>, idx: seq<seq<nat>>) {
    && |queues| == 3 && |idx| == 3
    && HoldsLevel(procs, queues[0], idx[0])
    && HoldsLevel(procs, queues[1], idx[1])
    && HoldsLevel(procs, queues[2], idx[2])
  }

  /** The three deques of records mirror the three deques of positions; each record mirrors its task. */
  ghost predicate MirrorsLevels(procs: seq<Process>, queues: seq<seq<Process>>, st: State)
    reads procs
  {
    && Distinct(procs)
    && |st.tasks| == |procs|
    && (forall k :: 0 <= k < |procs| ==> procs[k].Snapshot() == st.tasks[k])
    && Holds(procs, queues, st.queues)
  }

  /** Moving the head record down mirrors moving its position down. */
  lemma HoldsMove(procs: seq<Process>, queues: seq<seq<Process>>, idx: seq<seq<nat>>, i: nat, next: nat)
    requires Holds(procs, queues, idx) && i < 3 && next < 3 && queues[i] != []
    ensures var q1 := queues[i := queues[i][1..]];
            Holds(procs, q1[next := q1[next] + [queues[i][0]]], MoveHead(idx, i, next))
  {
    var q1 := queues[i := queues[i][1..]];
    var x1 := idx[i := idx[i][1..]];
    assert Holds(procs, q1, x1);
  }

  /** Dropping the head record mirrors dropping its position. */
  lemma HoldsDrop(procs: seq<Process>, queues: seq<seq<Process>>, idx: seq<seq<nat>>, i: nat)
    requires Holds(procs, queues, idx) && i < 3 && queues[i] != []
    ensures Holds(procs, queues[i := queues[i][1..]], DropHead(idx, i))
  {
  }

  /**
   * Lines 305-309 on the record served at level `i`: its first dispatch is
   * recorded if it has none, and it runs from the later of the clock and its
   * arrival for its turn at that level.
   */
  method Advance(p: Process, i: nat, time: int, quanta: seq<int>) returns (start: int, end: int)
    requires |quanta| >= 2
    modifies p
    ensures start == Max(time, p.arrival) && end == start + RunTime(i, quanta, old(p.remaining))
    ensures p.start == (if old(p.start).None? then Some(start) else old(p.start))
    ensures p.remaining == old(p.remaining) - (end - start)
    ensures p.completion == old(p.completion)
  {
    if p.start.None? {
      p.start := Some(Max(time, p.arrival));
    }
    start := Max(time, p.arrival);
    var runTime := if i < 2 then Min(quanta[i], p.remaining) else p.remaining;
    p.remaining := p.remaining - runTime;
    end := start + runTime;
  }

  /** Serving the head of deque `i` (lines 304-320) on the records: it performs `Dispatch`. */
  method Serve(ghost procs: seq<Process>, queues: seq<seq<Process>>, i: nat, time: int, gantt: seq<Segment>,
               results: seq<Row>, quanta: seq<int>, ghost st: State)
    returns (queues': seq<seq<Process>>, time': int, gantt': seq<Segment>, results': seq<Row>)
    requires WellFormed(st) && MirrorsLevels(procs, queues, st) && i < 3 && queues[i] != [] && |quanta| >= 2
    requires time == st.time && gantt == st.gantt && results == st.results
    modifies queues[i][0]
    ensures var st' := Dispatch(st, i, quanta);
            && MirrorsLevels(procs, queues', st')
            && time' == st'.time && gantt' == st'.gantt && results' == st'.results
  {
    var p := queues[i][0];
    queues' := queues[i := queues[i][1..]];
    ghost var c := Head(st, i);
    DispatchParts(st, i, quanta);
    assert p == procs[c] && p.Snapshot() == st.tasks[c];
    assert forall j :: 0 <= j < |procs| && j != c ==> procs[j] != p;
    var start, end := Advance(p, i, time, quanta);
    gantt' := gantt + [Segment(p.pid, start, end)];
    time' := end;
    results' := results;
    if p.remaining > 0 {
      var next := NextLevel(i);
      HoldsMove(procs, queues, st.queues, i, next);
      queues' := queues'[next := queues'[next] + [p]];
    } else {
      HoldsDrop(procs, queues, st.queues, i);
      p.completion := Some(time');
      results' := results + [Metrics(p.pid, p.arrival, p.burst, p.start.value, p.completion.value)];
    }
    assert p.Snapshot() == Dispatch(st, i, quanta).tasks[c];
  }

  /**
   * One pass of the `while` loop body (lines 302-321): the `for` loop skips
   * empty deques, serves the first non-empty one and breaks; its `else`
   * branch, reached only when every deque was empty, ticks the clock.
   */
  method Pass(ghost procs: seq<Process>, queues: seq<seq<Process>>, time: int, gantt: seq<Segment>,
              results: seq<Row>, quanta: seq<int>, ghost st: State)
    returns (queues': seq<seq<Process>>, time': int, gantt': seq<Segment>, results': seq<Row>)
    requires WellFormed(st) && MirrorsLevels(procs, queues, st) && |quanta| >= 2
    requires time == st.time && gantt == st.gantt && results == st.results
    modifies procs
    ensures var st' := Step(st, quanta);
            && MirrorsLevels(procs, queues', st')
            && time' == st'.time && gantt' == st'.gantt && results' == st'.results
  {
    queues', time', gantt', results' := queues, time, gantt, results;
    var dispatched := false;
    for i := 0 to 3
      invariant !dispatched && queues' == queues && time' == time && gantt' == gantt && results' == results
      invariant forall l :: 0 <= l < i ==> st.queues[l] == []
    {
      if queues[i] == [] {
        continue;
      }
      assert FirstNonEmpty(st.queues) == Some(i);
      assert queues[i][0] == procs[st.queues[i][0]];
      queues', time', gantt', results' := Serve(procs, queues, i, time, gantt, results, quanta, st);
      dispatched := true;
      break;
    }
    if !dispatched {
      time' := time' + 1;
    }
  }

  /** `for p in sorted(procs, ...): queues[0].append(p)`: the top deque holds the records in that order. */
  method Enqueue(sorted: seq<Process>) returns (queues: seq<seq<Process>>)
    ensures queues == [sorted, [], []]
  {
    queues := [[], [], []];
    for k := 0 to |sorted|
      invariant queues == [sorted[..k], [], []]
    {
      assert sorted[..k + 1] == sorted[..k] + [sorted[k]];
      queues := queues[0 := queues[0] + [sorted[k]]];
    }
    assert sorted[..|sorted|] == sorted;
  }

  /** Before the first pass: the sorted records, all in the top deque, mirror `Initial`. */
  lemma InitialMirrors(procs: seq<Process>)
    requires Distinct(procs)
    ensures var sorted := SortBy(procs, ArrivalOf);
            && (forall k :: 0 <= k < |sorted| ==> sorted[k] in procs)
            && MirrorsLevels(sorted, [sorted, [], []], Initial(SortBy(Snapshots(procs), TaskArrival)))
  {
    var sorted := SortBy(procs, ArrivalOf);
    var st := Initial(SortBy(Snapshots(procs), TaskArrival));
    SortedMirrors(procs);
    HoldsInitial(sorted);
  }

  /** The records in list order, all in the top deque, sit at positions `0, 1, ...`. */
  lemma HoldsInitial(sorted: seq<Process>)
    ensures Holds(sorted, [sorted, [], []], [Range(0, |sorted|), [], []])
  {
    var r := Range(0, |sorted|);
    assert HoldsLevel(sorted, sorted, r);
  }

  /**
   * `mlfq(procs, quanta)`: the records, sorted by arrival, enter the top deque
   * and move down the deques until every one has completed.
   */
  method Mlfq(procs: seq<Process>, quanta: seq<int>) returns (results: seq<Row>, gantt: seq<Segment>)
    requires Distinct(procs) && |quanta| >= 2
    modifies procs
    ensures var fin := Run(Initial(SortBy(old(Snapshots(procs)), TaskArrival)), quanta);
            && results == fin.results && gantt == fin.gantt
            && forall k :: 0 <= k < |procs| ==> SortBy(procs, ArrivalOf)[k].Snapshot() == fin.tasks[k]
  {
    var sorted := SortBy(procs, ArrivalOf);
    var queues := Enqueue(sorted);
    InitialMirrors(procs);
    var time := 0;
    gantt, results := [], [];
    ghost var st := Initial(SortBy(Snapshots(procs), TaskArrival));
    ghost var final := Run(st, quanta);
    while queues[0] != [] || queues[1] != [] || queues[2] != []
      invariant WellFormed(st) && MirrorsLevels(sorted, queues, st) && Run(st, quanta) == final
      invariant time == st.time && gantt == st.gantt && results == st.results
      decreases Rank(st.queues)
    {
      queues, time, gantt, results := Pass(sorted, queues, time, gantt, results, quanta, st);
      st := Step(st, quanta);
    }
  }
}
