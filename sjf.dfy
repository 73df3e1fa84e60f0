/**
 * Shortest job first, non-preemptive (src/Components/Algorithms/SJF.ts).
 *
 * `betterCandidate` orders processes by (burst, arrival, pid) and the
 * schedulers fold it over the ready queue. `runSJF` picks the best queued
 * process and runs its whole burst, admitting the arrivals of every tick it
 * passes; `SjfIteration` is one iteration of its outer loop as a function,
 * `SjfRun` the whole loop, and `RunSjf` is proved to produce what they
 * describe. The incremental engine (`createSJFEngine`) is a state machine
 * over `EngineState` and the class `SjfEngine`.
 */
module Sjf {
  import opened Sorting
  import opened Common

  // ---------------------------------------------------------------------------
  // Selection

  /** The order betterCandidate prefers: smaller burst, then earlier arrival, then smaller or equal pid. */
  predicate KeyLe(a: Process, b: Process) {
    || a.burstTime < b.burstTime
    || (a.burstTime == b.burstTime
        && (a.arrivalTime < b.arrivalTime || (a.arrivalTime == b.arrivalTime && a.pid <= b.pid)))
  }

  /** `betterCandidate(a, b)`: one of the two, the one no greater in (burst, arrival, pid), `a` when both are equal. */
  function BetterCandidate(a: Process, b: Process): (r: Process)
    ensures r == a || r == b
    ensures KeyLe(r, a) && KeyLe(r, b)
    ensures KeyLe(a, b) ==> r == a
  {
    if a.burstTime < b.burstTime then a
    else if b.burstTime < a.burstTime then b
    else if a.arrivalTime < b.arrivalTime then a
    else if b.arrivalTime < a.arrivalTime then b
    else if a.pid <= b.pid then a else b
  }

  /** For two processes with different pids (or the same process twice) the argument order does not matter. */
  lemma BetterCandidateSymmetric(a: Process, b: Process)
    requires a.pid != b.pid || a == b
    ensures BetterCandidate(a, b) == BetterCandidate(b, a)
  {
  }

  /** (burst, arrival, pid) is a total preorder that tells processes with different pids apart. */
  lemma KeyLeIsTotalPreorder()
    ensures TotalPreorder(KeyLe)
    ensures forall a, b :: KeyLe(a, b) && KeyLe(b, a) ==> a.pid == b.pid
  {
  }

  /**
   * The left fold of `betterCandidate` over the queue: a queued process no
   * greater than any other in (burst, arrival, pid).
   */
  function Best(q: seq<Process>): (b: Process)
    requires q != []
    ensures b in q
    ensures forall x :: x in q ==> KeyLe(b, x)
  {
    if |q| == 1 then q[0]
    else
      var b0 := Best(q[..|q| - 1]);
      assert forall x :: x in q ==> x in q[..|q| - 1] || x == q[|q| - 1];
      BetterCandidate(b0, q[|q| - 1])
  }

  /**
   * The choice does not depend on the queue's order or repetitions: two
   * queues holding the same processes, none two with one pid, select the same
   * process.
   */
  lemma BestUnique(q1: seq<Process>, q2: seq<Process>)
    requires q1 != [] && q2 != []
    requires forall x :: x in q1 <==> x in q2
    requires forall x, y :: x in q1 && y in q1 && x.pid == y.pid ==> x == y
    ensures Best(q1) == Best(q2)
  {
    var b1, b2 := Best(q1), Best(q2);
    assert KeyLe(b1, b2) && KeyLe(b2, b1);
  }

  /** `filter` by pid: the entries with another pid, in queue order. */
  function Without(q: seq<Process>, pid: int): (r: seq<Process>)
    ensures forall x :: x in r <==> x in q && x.pid != pid
    ensures |r| <= |q|
  {
    if q == [] then []
    else
      var r0, last := Without(q[..|q| - 1], pid), q[|q| - 1];
      assert forall x :: x in q <==> x in q[..|q| - 1] || x == last;
      if last.pid != pid then r0 + [last] else r0
  }

  /** The filter keeps queue order: filtering a concatenation filters each part in turn. */
  lemma {:induction false} WithoutConcat(a: seq<Process>, b: seq<Process>, pid: int)
    ensures Without(a + b, pid) == Without(a, pid) + Without(b, pid)
    decreases |b|
  {
    if b == [] {
      assert a + b == a;
    } else {
      var b0, last := b[..|b| - 1], b[|b| - 1];
      WithoutConcat(a, b0, pid);
      assert (a + b)[..|a + b| - 1] == a + b0 && (a + b)[|a + b| - 1] == last;
      var r0 := Without(a + b0, pid);
      if last.pid != pid {
        calc {
          Without(a + b, pid);
          r0 + [last];
          Without(a, pid) + (Without(b0, pid) + [last]);
          Without(a, pid) + Without(b, pid);
        }
      } else {
        calc {
          Without(a + b, pid);
          r0;
          Without(a, pid) + Without(b, pid);
        }
      }
    }
  }

  /**
   * The snapshot SJF logs while `p` runs: its pid first, then the pids of the
   * other queued entries in queue order.
   */
  function Snapshot(ready: seq<Process>, p: Process): (qb: QueueSnapshot)
    ensures |qb| >= 1 && qb[0] == p.pid
    ensures p.pid !in qb[1..]
    ensures forall pid :: pid in qb[1..] <==> pid in Pids(ready) && pid != p.pid
  {
    var rest := Without(ready, p.pid);
    var qb := [p.pid] + Pids(rest);
    assert qb[1..] == Pids(rest);
    forall pid ensures pid in Pids(rest) <==> pid in Pids(ready) && pid != p.pid {
      PidsWithout(ready, p.pid, pid);
    }
    qb
  }

  /**
   * The snapshot keeps queue order and repetitions: the snapshot taken over
   * a queue `a + b` is the one taken over `a`, followed by the pids of `b`'s
   * entries other than `p`'s, in order.
   */
  lemma SnapshotConcat(a: seq<Process>, b: seq<Process>, p: Process)
    ensures Snapshot(a + b, p) == Snapshot(a, p) + Pids(Without(b, p.pid))
  {
    var wa, wb := Without(a, p.pid), Without(b, p.pid);
    calc {
      Snapshot(a + b, p);
      [p.pid] + Pids(Without(a + b, p.pid));
      { WithoutConcat(a, b, p.pid); }
      [p.pid] + Pids(wa + wb);
      { PidsConcat(wa, wb); }
      [p.pid] + (Pids(wa) + Pids(wb));
      ([p.pid] + Pids(wa)) + Pids(wb);
      Snapshot(a, p) + Pids(wb);
    }
  }

  /** The pids left by `Without` are the queue's pids other than the one removed. */
  lemma PidsWithout(ready: seq<Process>, removed: int, pid: int)
    ensures pid in Pids(Without(ready, removed)) <==> pid in Pids(ready) && pid != removed
  {
    var rest := Without(ready, removed);
    if pid in Pids(rest) {
      var i :| 0 <= i < |rest| && Pids(rest)[i] == pid;
      assert rest[i] in ready;
      var j :| 0 <= j < |ready| && ready[j] == rest[i];
      assert Pids(ready)[j] == pid;
    }
    if pid in Pids(ready) && pid != removed {
      var j :| 0 <= j < |ready| && Pids(ready)[j] == pid;
      assert ready[j] in rest;
      var i :| 0 <= i < |rest| && rest[i] == ready[j];
      assert Pids(rest)[i] == pid;
    }
  }

  // ---------------------------------------------------------------------------
  // runSJF as a state machine

  /** The loop's variables: the clock, `ready`, `finished`, the output so far, and `executed`. */
  datatype SjfState = SjfState(
    t: int,
    ready: seq<Process>,
    finished: set<int>,
    history: seq<ExecutionStep>,
    results: seq<ProcessResult>,
    executed: int)

  function SjfInit(): SjfState {
    SjfState(0, [], {}, [], [], 0)
  }

  /** Admission at the clock's tick: the processes arriving now join the queue, in input order, with no duplicate check. */
  function Admitted(ps: seq<Process>, s: SjfState): SjfState {
    s.(ready := s.ready + ArrivingAt(ps, s.t))
  }

  /**
   * One pass of the inner `for` loop: the step of unit `i` of `p` is logged
   * with `queueBefore`, the clock and `executed` advance, and the processes
   * arriving at the new tick join the queue.
   */
  function Unit(ps: seq<Process>, s: SjfState, p: Process, queueBefore: QueueSnapshot, i: int): SjfState {
    var step := ExecutionStep(s.t, p.pid, p.name, p.burstTime - i - 1, queueBefore);
    s.(history := s.history + [step], t := s.t + 1, executed := s.executed + 1,
       ready := s.ready + ArrivingAt(ps, s.t + 1))
  }

  /** The inner `for` loop from unit `i` on: the rest of `p`'s burst. */
  function Burst(ps: seq<Process>, s: SjfState, p: Process, queueBefore: QueueSnapshot, i: int): SjfState
    decreases p.burstTime - i
  {
    if p.burstTime <= i then s
    else Burst(ps, Unit(ps, s, p, queueBefore, i), p, queueBefore, i + 1)
  }

  /** The end of an iteration: `p` is recorded as finishing now, marked finished, and its first entry leaves the queue. */
  function Finish(s: SjfState, p: Process): SjfState {
    s.(results := s.results + [MakeResult(p, s.t)], finished := s.finished + {p.pid},
       ready := RemoveFirstPid(s.ready, p.pid))
  }

  /**
   * One iteration of the outer `while` loop: admit the arrivals of tick t; with
   * an empty queue advance the clock; otherwise run the best queued process
   * for its whole burst and record it.
   */
  function SjfIteration(ps: seq<Process>, s: SjfState): SjfState {
    var a := Admitted(ps, s);
    if a.ready == [] then a.(t := a.t + 1)
    else
      var p := Best(a.ready);
      Finish(Burst(ps, a, p, Snapshot(a.ready, p), 0), p)
  }

  // ---------------------------------------------------------------------------
  // The inner loop

  /** The inner loop from unit `i` advances the clock and `executed` by the units left, and records nothing. */
  lemma {:induction false} BurstEffect(ps: seq<Process>, s: SjfState, p: Process, qb: QueueSnapshot, i: int)
    requires 0 <= i <= p.burstTime
    ensures var r := Burst(ps, s, p, qb, i);
      && r.t == s.t + (p.burstTime - i)
      && r.executed == s.executed + (p.burstTime - i)
      && r.finished == s.finished && r.results == s.results
    decreases p.burstTime - i
  {
    if i < p.burstTime {
      BurstEffect(ps, Unit(ps, s, p, qb, i), p, qb, i + 1);
    }
  }

  /** The inner loop from unit `i` of a burst begun at `start` logs the rest of `p`'s block: one step per tick, remaining time down to 0. */
  lemma {:induction false} BurstHistory(ps: seq<Process>, s: SjfState, p: Process, qb: QueueSnapshot, start: int, i: int)
    requires ValidProcess(p) && 0 <= i <= p.burstTime && s.t == start + i
    ensures Burst(ps, s, p, qb, i).history == s.history + Block(p, start, qb)[i..]
    decreases p.burstTime - i
  {
    var block := Block(p, start, qb);
    if i < p.burstTime {
      var u := Unit(ps, s, p, qb, i);
      BurstHistory(ps, u, p, qb, start, i + 1);
      var rest := block[i + 1..];
      assert Burst(ps, s, p, qb, i).history == u.history + rest;
      assert u.history == s.history + [block[i]];
      AppendAssoc(s.history, [block[i]], rest);
      assert block[i..] == [block[i]] + rest;
    } else {
      assert block[i..] == [];
    }
  }

  /**
   * The inner loop from unit `i` keeps every queued entry and adds exactly the
   * processes arriving at the ticks it passes.
   */
  lemma {:induction false} BurstReady(ps: seq<Process>, s: SjfState, p: Process, qb: QueueSnapshot, i: int)
    requires 0 <= i <= p.burstTime
    ensures var r := Burst(ps, s, p, qb, i);
      && (forall x :: x in s.ready ==> x in r.ready)
      && (forall x :: x in r.ready ==> x in s.ready || (x in ps && s.t < x.arrivalTime <= s.t + (p.burstTime - i)))
      && (forall x :: x in ps && s.t < x.arrivalTime <= s.t + (p.burstTime - i) ==> x in r.ready)
    decreases p.burstTime - i
  {
    if i < p.burstTime {
      var u := Unit(ps, s, p, qb, i);
      BurstReady(ps, u, p, qb, i + 1);
    }
  }

  // ---------------------------------------------------------------------------
  // The loop invariant

  /**
   * Queued entries are input processes that have arrived; every input
   * process arrived before `horizon` is queued or has finished.
   */
  ghost predicate ReadyOk(ps: seq<Process>, s: SjfState, horizon: int) {
    && (forall x :: x in s.ready ==> x in ps && x.arrivalTime <= s.t)
    && (forall x :: x in ps && x.arrivalTime < horizon ==> x in s.ready || x.pid in s.finished)
  }

  /**
   * `finished` holds input pids, whose bursts `executed` covers, and is the
   * set of the results' pids; every result is a record of its process.
   */
  ghost predicate FinishedOk(ps: seq<Process>, s: SjfState) {
    && s.finished <= Elems(Pids(ps))
    && BurstOf(ps, s.finished) <= s.executed
    && Elems(ResultPids(s.results)) == s.finished
    && (forall r :: r in s.results ==> Recorded(r, ps))
  }

  /** One step per executed unit, at strictly increasing ticks before the clock, each burst run to its end. */
  ghost predicate HistoryOk(s: SjfState) {
    && TimesWithin(s.history, 0, s.t)
    && TimesIncrease(s.history)
    && RunsToCompletion(s.history)
    && |s.history| == s.executed
  }

  ghost predicate SjfInv(ps: seq<Process>, s: SjfState) {
    && ValidInput(ps)
    && 0 <= s.t
    && ReadyOk(ps, s, s.t)
    && FinishedOk(ps, s)
    && HistoryOk(s)
  }

  lemma InitInv(ps: seq<Process>)
    requires ValidInput(ps)
    ensures SjfInv(ps, SjfInit())
  {
    var s := SjfInit();
    assert ReadyOk(ps, s, s.t) by {
      assert forall x :: x in ps ==> 0 <= x.arrivalTime by {
        forall x | x in ps ensures 0 <= x.arrivalTime {
          var i :| 0 <= i < |ps| && ps[i] == x;
        }
      }
    }
    assert FinishedOk(ps, s) by {
      BurstOfNone(ps);
      assert ResultPids(s.results) == [];
    }
    InitHistory();
  }

  /** The empty history of a fresh run is trivially well formed. */
  lemma InitHistory()
    ensures HistoryOk(SjfInit())
  {
  }

  /** The loop's variant: the work not yet executed plus the ticks until the last arrival. */
  function Measure(ps: seq<Process>, s: SjfState): nat {
    var total := SumBurst(ps);
    (if s.executed < total then total - s.executed else 0)
      + (if s.t <= MaxArrival(ps) then MaxArrival(ps) + 1 - s.t else 0)
  }

  // ---------------------------------------------------------------------------
  // The invariant across one iteration

  /** After admission every input process arrived by tick t is queued or finished. */
  lemma AdmitOk(ps: seq<Process>, s: SjfState)
    requires SjfInv(ps, s)
    ensures ReadyOk(ps, Admitted(ps, s), s.t + 1)
  {
  }

  /** With nothing queued after admission, some unfinished process arrives later: the clock advances and the variant drops. */
  lemma IdleOk(ps: seq<Process>, s: SjfState)
    requires SjfInv(ps, s) && s.executed < SumBurst(ps) && Admitted(ps, s).ready == []
    ensures SjfInv(ps, SjfIteration(ps, s))
    ensures Measure(ps, SjfIteration(ps, s)) < Measure(ps, s)
  {
    var a := Admitted(ps, s);
    AdmitOk(ps, s);
    assert SjfIteration(ps, s) == a.(t := s.t + 1);
    BurstOfBounds(ps, s.finished);
    assert !(Elems(Pids(ps)) <= s.finished);
    var pid :| pid in Elems(Pids(ps)) && pid !in s.finished;
    var i :| 0 <= i < |ps| && Pids(ps)[i] == pid;
    assert ps[i] !in a.ready;
    assert s.t < ps[i].arrivalTime <= MaxArrival(ps);
  }

  /** The process an iteration runs, and the state after its burst, when the queue is not empty after admission. */
  lemma RunOk(ps: seq<Process>, s: SjfState)
    requires SjfInv(ps, s) && s.executed < SumBurst(ps) && Admitted(ps, s).ready != []
    ensures SjfInv(ps, SjfIteration(ps, s))
    ensures Measure(ps, SjfIteration(ps, s)) < Measure(ps, s)
  {
    var a := Admitted(ps, s);
    AdmitOk(ps, s);
    var p := Best(a.ready);
    var qb := Snapshot(a.ready, p);
    var b := Burst(ps, a, p, qb, 0);
    assert p in ps && ValidProcess(p) by {
      var j :| 0 <= j < |ps| && ps[j] == p;
    }
    BurstEffect(ps, a, p, qb, 0);
    BurstHistory(ps, a, p, qb, a.t, 0);
    BurstReady(ps, a, p, qb, 0);
    assert SjfIteration(ps, s) == Finish(b, p);
    FinishReady(ps, s, b, p);
    FinishFinished(ps, s, b, p);
    FinishHistory(s, b, p, qb);
  }

  lemma FinishReady(ps: seq<Process>, s: SjfState, b: SjfState, p: Process)
    requires ValidInput(ps) && ReadyOk(ps, Admitted(ps, s), s.t + 1) && p in ps
    requires s.t + p.burstTime == b.t && 1 <= p.burstTime && b.finished == s.finished
    requires forall x :: x in Admitted(ps, s).ready ==> x in b.ready
    requires forall x :: x in b.ready ==> x in Admitted(ps, s).ready || (x in ps && s.t < x.arrivalTime <= b.t)
    requires forall x :: x in ps && s.t < x.arrivalTime <= b.t ==> x in b.ready
    ensures ReadyOk(ps, Finish(b, p), b.t)
  {
    var f := Finish(b, p);
    RemoveFirstPidMembers(b.ready, p.pid);
    forall x | x in ps && x.arrivalTime < b.t ensures x in f.ready || x.pid in f.finished {
      if x.pid == p.pid {
        SamePidSameProcess(ps, x, p);
      }
    }
  }

  lemma FinishFinished(ps: seq<Process>, s: SjfState, b: SjfState, p: Process)
    requires ValidInput(ps) && FinishedOk(ps, s) && p in ps && p.arrivalTime <= s.t
    requires b.t == s.t + p.burstTime && b.executed == s.executed + p.burstTime
    requires b.finished == s.finished && b.results == s.results
    ensures FinishedOk(ps, Finish(b, p))
  {
    var f := Finish(b, p);
    var res := MakeResult(p, b.t);
    PidIn(ps, p);
    if p.pid !in s.finished {
      BurstOfAdd(ps, s.finished, p);
    } else {
      assert f.finished == s.finished;
    }
    assert ResultPids(f.results) == ResultPids(s.results) + [p.pid];
    ElemsAppend(ResultPids(s.results), p.pid);
    assert Recorded(res, ps);
  }

  lemma FinishHistory(s: SjfState, b: SjfState, p: Process, qb: QueueSnapshot)
    requires HistoryOk(s) && 0 <= s.t && ValidProcess(p)
    requires b.t == s.t + p.burstTime && b.executed == s.executed + p.burstTime
    requires b.history == s.history + Block(p, s.t, qb)
    ensures HistoryOk(Finish(b, p))
  {
    BlockTimes(p, s.t, qb);
    BlockRunsToCompletion(p, s.t, qb);
    ConcatTimes(s.history, Block(p, s.t, qb), 0, s.t, b.t);
    ConcatRunsToCompletion(s.history, Block(p, s.t, qb));
  }

  /** An iteration keeps the invariant and, while work is left, lowers the variant. */
  lemma IterationOk(ps: seq<Process>, s: SjfState)
    requires SjfInv(ps, s) && s.executed < SumBurst(ps)
    ensures SjfInv(ps, SjfIteration(ps, s))
    ensures Measure(ps, SjfIteration(ps, s)) < Measure(ps, s)
  {
    if Admitted(ps, s).ready == [] {
      IdleOk(ps, s);
    } else {
      RunOk(ps, s);
    }
  }

  /** The `while (executed < totalBurst)` loop from state `s`, to the state it stops in. */
  function SjfRun(ps: seq<Process>, s: SjfState): SjfState
    requires SjfInv(ps, s)
    decreases Measure(ps, s)
  {
    if s.executed >= SumBurst(ps) then s
    else
      IterationOk(ps, s);
      SjfRun(ps, SjfIteration(ps, s))
  }

  /** The loop stops in a state that keeps the invariant, with all the work executed. */
  lemma {:induction false} SjfRunInv(ps: seq<Process>, s: SjfState)
    requires SjfInv(ps, s)
    ensures SjfInv(ps, SjfRun(ps, s)) && SjfRun(ps, s).executed >= SumBurst(ps)
    decreases Measure(ps, s)
  {
    if s.executed < SumBurst(ps) {
      IterationOk(ps, s);
      SjfRunInv(ps, SjfIteration(ps, s));
    }
  }

  /** The state runSJF's loop ends in; it returns the history and the results sorted by name. */
  function SjfOutcome(ps: seq<Process>): SjfState
    requires ValidInput(ps)
  {
    InitInv(ps);
    SjfRun(ps, SjfInit())
  }

  // ---------------------------------------------------------------------------
  // runSJF

  /** `runSJF`: the history, and the results sorted by name. */
  method RunSjf(processes: seq<Process>) returns (history: seq<ExecutionStep>, results: seq<ProcessResult>)
    requires ValidInput(processes)
    ensures history == SjfOutcome(processes).history
    ensures results == SortByName(SjfOutcome(processes).results)
  {
    var procs := processes;
    var totalBurst := SumBurst(procs);
    InitInv(procs);
    var t, ready, finished, executed;
    t, ready, finished, history, results, executed :=
      RunLoop(procs, totalBurst, SjfInit(), 0, [], {}, [], [], 0);
    results := SortByName(results);
  }

  /** The `while (executed < totalBurst)` loop of runSJF: from the loop variables `s`, it ends in the state `SjfRun` describes. */
  method RunLoop(procs: seq<Process>, totalBurst: int, ghost s: SjfState, t: int, ready: seq<Process>,
                 finished: set<int>, history: seq<ExecutionStep>, results: seq<ProcessResult>, executed: int)
    returns (t': int, ready': seq<Process>, finished': set<int>, history': seq<ExecutionStep>,
             results': seq<ProcessResult>, executed': int)
    requires SjfInv(procs, s) && totalBurst == SumBurst(procs)
    requires s == SjfState(t, ready, finished, history, results, executed)
    ensures SjfState(t', ready', finished', history', results', executed') == SjfRun(procs, s)
  {
    t', ready', finished', history', results', executed' := t, ready, finished, history, results, executed;
    ghost var S := s;
    while executed' < totalBurst
      invariant S == SjfState(t', ready', finished', history', results', executed')
      invariant SjfInv(procs, S) && SjfRun(procs, S) == SjfRun(procs, s)
      decreases Measure(procs, S)
    {
      IterationOk(procs, S);
      t', ready', finished', history', results', executed' :=
        Iterate(procs, S, t', ready', finished', history', results', executed');
      S := SjfIteration(procs, S);
    }
  }

  /**
   * The body of runSJF's outer loop: admit the arrivals of tick t; with an
   * empty queue advance the clock; otherwise run the best queued process to
   * the end of its burst, record it and splice its entry out.
   */
  method Iterate(procs: seq<Process>, ghost s: SjfState, t: int, ready: seq<Process>,
                 finished: set<int>, history: seq<ExecutionStep>, results: seq<ProcessResult>, executed: int)
    returns (t': int, ready': seq<Process>, finished': set<int>, history': seq<ExecutionStep>,
             results': seq<ProcessResult>, executed': int)
    requires s == SjfState(t, ready, finished, history, results, executed)
    ensures SjfState(t', ready', finished', history', results', executed') == SjfIteration(procs, s)
  {
    ready' := EnqueueArrivals(ready, procs, t);
    finished', history', results', executed' := finished, history, results, executed;
    if ready' == [] {
      t' := t + 1;
      return;
    }
    var current := Best(ready');
    var queueBefore := [current.pid] + Pids(Without(ready', current.pid));
    t', ready', history', executed' := RunBurst(procs, current, queueBefore, t, ready', finished, history, results, executed);
    var finishTime := t';
    results' := results + [MakeResult(current, finishTime)];
    finished' := finished + {current.pid};
    var idx := FindPid(ready', current.pid);
    if idx != -1 {
      ready' := ready'[..idx] + ready'[idx + 1..];
    }
  }

  /** The inner `for` loop of runSJF: the whole burst of `current`, one logged step per tick. */
  method RunBurst(procs: seq<Process>, current: Process, queueBefore: QueueSnapshot, t: int, ready: seq<Process>,
                  finished: set<int>, history: seq<ExecutionStep>, results: seq<ProcessResult>, executed: int)
    returns (t': int, ready': seq<Process>, history': seq<ExecutionStep>, executed': int)
    ensures SjfState(t', ready', finished, history', results, executed')
         == Burst(procs, SjfState(t, ready, finished, history, results, executed), current, queueBefore, 0)
  {
    t', ready', history', executed' := t, ready, history, executed;
    var i := 0;
    while i < current.burstTime
      invariant 0 <= i
      invariant Burst(procs, SjfState(t', ready', finished, history', results, executed'), current, queueBefore, i)
             == Burst(procs, SjfState(t, ready, finished, history, results, executed), current, queueBefore, 0)
      decreases current.burstTime - i
    {
      history' := history' + [ExecutionStep(t', current.pid, current.name, current.burstTime - i - 1, queueBefore)];
      t' := t' + 1;
      executed' := executed' + 1;
      ready' := EnqueueArrivals(ready', procs, t');
      i := i + 1;
    }
  }

  // ---------------------------------------------------------------------------
  // Properties of runSJF

  /**
   * runSJF stops having executed at least the total burst; its history has
   * strictly increasing ticks and runs every burst it starts to the end; every
   * result is the record of an input process, with the metric definitions and
   * a finish time no earlier than arrival plus burst. (A process may be
   * recorded more than once: see `SjfAdmitsTwice`.)
   */
  lemma SjfOutcomeFacts(ps: seq<Process>)
    requires ValidInput(ps)
    ensures var f := SjfOutcome(ps);
      && SumBurst(ps) <= |f.history|
      && TimesIncrease(f.history)
      && RunsToCompletion(f.history)
      && (forall r :: r in f.results ==> Recorded(r, ps))
      && Elems(ResultPids(f.results)) <= Elems(Pids(ps))
  {
    InitInv(ps);
    SjfRunInv(ps, SjfInit());
  }

  /** An iteration that finds the queue empty after admission logs and records nothing and advances the clock by one. */
  lemma SjfIdleIteration(ps: seq<Process>, s: SjfState)
    requires Admitted(ps, s).ready == []
    ensures SjfIteration(ps, s).history == s.history && SjfIteration(ps, s).results == s.results
    ensures SjfIteration(ps, s).t == s.t + 1
  {
  }

  /**
   * One iteration, non-preemptive: with the queue not empty after admission,
   * it runs the queued process `p` least in (burst, arrival, pid) for its
   * whole burst from tick t, in one block of consecutive steps whose snapshot
   * lists `p` first, and records `p` as finishing at t plus its burst.
   */
  /** The process selected after admission is one of the input processes. */
  lemma BestFromInput(ps: seq<Process>, s: SjfState)
    requires AllValid(ps) && forall x :: x in s.ready ==> x in ps
    requires Admitted(ps, s).ready != []
    ensures var p := Best(Admitted(ps, s).ready); p in ps && ValidProcess(p)
  {
    var p := Best(Admitted(ps, s).ready);
    assert p in s.ready || p in ArrivingAt(ps, s.t);
    var j :| 0 <= j < |ps| && ps[j] == p;
  }

  lemma SjfPicksShortest(ps: seq<Process>, s: SjfState, p: Process)
    requires AllValid(ps) && forall x :: x in s.ready ==> x in ps
    requires Admitted(ps, s).ready != [] && p == Best(Admitted(ps, s).ready)
    ensures p in ps && ValidProcess(p)
    ensures forall x :: x in Admitted(ps, s).ready ==> KeyLe(p, x)
    ensures SjfIteration(ps, s).t == s.t + p.burstTime
    ensures SjfIteration(ps, s).history == s.history + Block(p, s.t, Snapshot(Admitted(ps, s).ready, p))
    ensures SjfIteration(ps, s).results == s.results + [MakeResult(p, s.t + p.burstTime)]
  {
    BestFromInput(ps, s);
    IterationRunsBest(ps, s, p);
  }

  /** An iteration with a non-empty queue runs the selected process `p` to completion. */
  lemma IterationRunsBest(ps: seq<Process>, s: SjfState, p: Process)
    requires Admitted(ps, s).ready != [] && p == Best(Admitted(ps, s).ready) && ValidProcess(p)
    ensures SjfIteration(ps, s).t == s.t + p.burstTime
    ensures SjfIteration(ps, s).history == s.history + Block(p, s.t, Snapshot(Admitted(ps, s).ready, p))
    ensures SjfIteration(ps, s).results == s.results + [MakeResult(p, s.t + p.burstTime)]
  {
    var a := Admitted(ps, s);
    RunToCompletion(ps, a, p, Snapshot(a.ready, p), s.t + p.burstTime);
  }

  /** Running `p` for its whole burst from tick t logs its block and records it as finishing at t plus its burst. */
  lemma RunToCompletion(ps: seq<Process>, a: SjfState, p: Process, qb: QueueSnapshot, finish: int)
    requires ValidProcess(p) && finish == a.t + p.burstTime
    ensures Finish(Burst(ps, a, p, qb, 0), p).t == finish
    ensures Finish(Burst(ps, a, p, qb, 0), p).history == a.history + Block(p, a.t, qb)
    ensures Finish(Burst(ps, a, p, qb, 0), p).results == a.results + [MakeResult(p, finish)]
  {
    BurstEffect(ps, a, p, qb, 0);
    BurstHistory(ps, a, p, qb, a.t, 0);
  }

  /**
   * No duplicate check on admission: a process arriving at the very tick a
   * burst ends is queued by the inner loop, and the next iteration's
   * admission queues it again at the same tick, so that queue holds it twice.
   */
  lemma SjfAdmitsTwice(ps: seq<Process>, s: SjfState, x: Process)
    requires SjfInv(ps, s) && Admitted(ps, s).ready != []
    requires x in ps && x.arrivalTime == s.t + Best(Admitted(ps, s).ready).burstTime
    ensures multiset(Admitted(ps, SjfIteration(ps, s)).ready)[x] >= 2
  {
    var a := Admitted(ps, s);
    AdmitOk(ps, s);
    var p := Best(a.ready);
    var qb := Snapshot(a.ready, p);
    var b := Burst(ps, a, p, qb, 0);
    assert p in ps && ValidProcess(p) by {
      var j :| 0 <= j < |ps| && ps[j] == p;
    }
    BurstEffect(ps, a, p, qb, 0);
    BurstReady(ps, a, p, qb, 0);
    var f := Finish(b, p);
    assert SjfIteration(ps, s) == f;
    assert x.pid != p.pid by {
      if x.pid == p.pid {
        SamePidSameProcess(ps, x, p);
      }
    }
    RemoveFirstPidMembers(b.ready, p.pid);
    assert x in f.ready;
    var arriving := ArrivingAt(ps, f.t);
    assert x in arriving;
    assert multiset(f.ready + arriving)[x] == multiset(f.ready)[x] + multiset(arriving)[x];
  }

  // ---------------------------------------------------------------------------
  // createSJFEngine as a state machine

  /**
   * The engine's closure variables. `all` is the registration map as the
   * sequence of its values in insertion order, the order `all.values()`
   * visits them; `events` records what the callbacks are given.
   */
  datatype EngineState = EngineState(
    t: int,
    ready: seq<Process>,
    all: seq<Process>,
    finished: set<int>,
    results: seq<ProcessResult>,
    executed: int,
    totalBurst: int,
    current: Option<Process>,
    remaining: int,
    events: Events)

  /** `createSJFEngine({ startTime })`. */
  function Start(startTime: int): EngineState {
    EngineState(startTime, [], [], {}, [], 0, 0, None, 0, Events([], [], []))
  }

  /** Registered processes are valid with unique pids, `totalBurst` is their total, and only they finish. */
  ghost predicate RegisteredOk(s: EngineState) {
    && ValidInput(s.all)
    && s.totalBurst == SumBurst(s.all)
    && s.finished <= Elems(Pids(s.all))
  }

  /** `ready` holds registered, arrived, unfinished processes, one entry per pid. */
  ghost predicate QueueOk(s: EngineState, clock: int) {
    && Distinct(Pids(s.ready))
    && forall x :: x in s.ready ==> x in s.all && x.arrivalTime <= clock && x.pid !in s.finished
  }

  /** The running process stays in `ready`, has 1 to burstTime units left and has not run before it arrived. */
  ghost predicate CurrentOk(s: EngineState, clock: int) {
    s.current.Some? ==>
      var p := s.current.value;
      && p in s.ready
      && 1 <= s.remaining <= p.burstTime
      && p.arrivalTime + (p.burstTime - s.remaining) <= clock
  }

  /**
   * One result per finished pid, each the record of a registered process;
   * onFinish has been given the same results.
   */
  ghost predicate ResultsOk(s: EngineState) {
    && Distinct(ResultPids(s.results))
    && Elems(ResultPids(s.results)) == s.finished
    && (forall r :: r in s.results ==> Recorded(r, s.all))
    && multiset(s.events.finishes) == multiset(s.results)
  }

  /** `executed` counts the whole bursts of the finished processes and the part the running one has had. */
  ghost predicate WorkOk(s: EngineState) {
    s.executed == BurstOf(s.all, s.finished) + (if s.current.Some? then s.current.value.burstTime - s.remaining else 0)
  }

  /** Every registered process that arrived before `horizon` is queued or finished. */
  ghost predicate NoneLost(s: EngineState, horizon: int) {
    forall x :: x in s.all && x.arrivalTime < horizon ==> x in s.ready || x.pid in s.finished
  }

  /** The engine invariant, the clock being at `clock` and the arrivals before `horizon` admitted. */
  ghost predicate InvAt(s: EngineState, clock: int, horizon: int) {
    && RegisteredOk(s)
    && QueueOk(s, clock)
    && CurrentOk(s, clock)
    && ResultsOk(s)
    && WorkOk(s)
    && NoneLost(s, horizon)
  }

  /** Between ticks: everything that arrived before `t` has been admitted. */
  ghost predicate EngineInv(s: EngineState) {
    InvAt(s, s.t, s.t)
  }

  lemma StartInv(startTime: int)
    ensures EngineInv(Start(startTime))
  {
    BurstOfNone([]);
  }

  /**
   * `addProcess`: a known pid is ignored; otherwise the process is registered,
   * its burst added to `totalBurst`, and it is queued at once if it has
   * already arrived.
   */
  function AfterAdd(s: EngineState, p: Process): EngineState {
    if p.pid in Pids(s.all) then s
    else
      s.(all := s.all + [p], totalBurst := s.totalBurst + p.burstTime,
         ready := if p.arrivalTime <= s.t then s.ready + [p] else s.ready)
  }

  /**
   * addProcess keeps the invariant; afterwards the pid is registered, and a
   * new process that has arrived is queued.
   */
  lemma AddPreservesInv(s: EngineState, p: Process)
    requires EngineInv(s) && ValidProcess(p)
    ensures EngineInv(AfterAdd(s, p))
    ensures p.pid in Pids(AfterAdd(s, p).all)
    ensures p.pid !in Pids(s.all) && p.arrivalTime <= s.t ==> p in AfterAdd(s, p).ready
  {
    var r := AfterAdd(s, p);
    if p.pid !in Pids(s.all) {
      assert p.pid !in Elems(Pids(s.all));
      AppendFreshPid(s.all, p);
      SumBurstConcat(s.all, [p]);
      assert SumBurst([p]) == p.burstTime by {
        assert [p][..0] == [];
      }
      assert BurstOf(r.all, r.finished) == BurstOf(s.all, s.finished) by {
        assert r.all[..|r.all| - 1] == s.all;
      }
      assert p.pid !in s.finished;
      AddKeepsQueue(s, p);
      AddKeepsResults(s, p);
    } else {
      assert r == s;
    }
  }

  lemma AddKeepsQueue(s: EngineState, p: Process)
    requires QueueOk(s, s.t) && p.pid !in Elems(Pids(s.all)) && p.pid !in s.finished
    ensures QueueOk(AfterAdd(s, p), s.t)
  {
    var r := AfterAdd(s, p);
    if p.arrivalTime <= s.t {
      assert p.pid !in Elems(Pids(s.ready)) by {
        if p.pid in Elems(Pids(s.ready)) {
          var i :| 0 <= i < |s.ready| && Pids(s.ready)[i] == p.pid;
          PidIn(s.all, s.ready[i]);
        }
      }
      AppendFreshPid(s.ready, p);
    }
  }

  lemma AddKeepsResults(s: EngineState, p: Process)
    requires ResultsOk(s)
    ensures ResultsOk(AfterAdd(s, p))
  {
    var r := AfterAdd(s, p);
    forall x | x in r.results ensures Recorded(x, r.all) {
      var q :| q in s.all && Describes(x, q);
      assert q in r.all;
    }
  }

  /**
   * `enqueueArrivalsAt(time)` over the registered processes `all`, in
   * registration order: each one arriving at `time` that is neither queued
   * nor finished is appended to `ready`.
   */
  function AdmitFrom(all: seq<Process>, ready: seq<Process>, finished: set<int>, time: int): (r: seq<Process>)
    ensures |ready| <= |r| && r[..|ready|] == ready
    ensures forall x :: x in r ==> x in ready || (x in all && x.arrivalTime == time && x.pid !in finished)
  {
    if all == [] then ready
    else
      var r0, p := AdmitFrom(all[..|all| - 1], ready, finished, time), all[|all| - 1];
      assert forall x :: x in all[..|all| - 1] ==> x in all;
      if p.arrivalTime == time && FindPid(r0, p.pid) == -1 && p.pid !in finished then
        assert (r0 + [p])[..|ready|] == r0[..|ready|];
        r0 + [p]
      else r0
  }

  /**
   * Admission never queues a pid twice: drawing on processes with unique
   * pids (all of `universe`), it keeps the queue free of repeated pids, keeps
   * every queued entry, and leaves every unfinished process of `all`
   * arriving at `time` queued.
   */
  lemma {:induction false} AdmitFromOk(universe: seq<Process>, all: seq<Process>, ready: seq<Process>, finished: set<int>, time: int)
    requires UniquePids(universe) && Distinct(Pids(ready))
    requires forall x :: x in all ==> x in universe
    requires forall x :: x in ready ==> x in universe
    ensures Distinct(Pids(AdmitFrom(all, ready, finished, time)))
    ensures forall x :: x in ready ==> x in AdmitFrom(all, ready, finished, time)
    ensures forall x :: x in all && x.arrivalTime == time && x.pid !in finished ==> x in AdmitFrom(all, ready, finished, time)
    decreases |all|
  {
    var r := AdmitFrom(all, ready, finished, time);
    forall x | x in ready ensures x in r {
      var i :| 0 <= i < |ready| && ready[i] == x;
      assert r[..|ready|][i] == x;
    }
    if all != [] {
      var init, p := all[..|all| - 1], all[|all| - 1];
      assert forall x :: x in all <==> x in init || x == p;
      AdmitFromOk(universe, init, ready, finished, time);
      var r0 := AdmitFrom(init, ready, finished, time);
      if p.arrivalTime == time && p.pid !in finished {
        var k := FindPid(r0, p.pid);
        if k == -1 {
          assert p.pid !in Elems(Pids(r0));
          AppendFreshPid(r0, p);
        } else {
          assert r0[k] in universe;
          SamePidSameProcess(universe, r0[k], p);
        }
      }
    }
  }

  /** The first phase of `tick`: `enqueueArrivalsAt(t)`. */
  function Enqueue(s: EngineState): EngineState {
    s.(ready := AdmitFrom(s.all, s.ready, s.finished, s.t))
  }

  /** With no process running, the fold of `betterCandidate` over the queue is selected and given its whole burst. */
  function Select(s: EngineState): EngineState {
    if s.current.None? && s.ready != [] then
      var p := Best(s.ready);
      s.(current := Some(p), remaining := p.burstTime)
    else s
  }

  /** `orderedQueueSnapshot()`: the running pid first, then the other queued pids; the queued pids when idle. */
  function QueueSnapshotOf(s: EngineState): QueueSnapshot {
    if s.current.Some? then Snapshot(s.ready, s.current.value) else Pids(s.ready)
  }

  /** The running process `p` consumes one unit, and the step is logged with the snapshot taken before it. */
  function Consume(s: EngineState, p: Process): EngineState {
    var step := ExecutionStep(s.t, p.pid, p.name, s.remaining - 1, QueueSnapshotOf(s));
    s.(remaining := s.remaining - 1, executed := s.executed + 1,
       events := s.events.(steps := s.events.steps + [step]))
  }

  /**
   * `p` has reached 0: it is recorded with finishTime = t + 1 (and reported
   * to onFinish), marked finished, spliced out of `ready` and released.
   */
  function Retire(s: EngineState, p: Process): EngineState {
    var res := MakeResult(p, s.t + 1);
    s.(results := s.results + [res], finished := s.finished + {p.pid},
       ready := RemoveFirstPid(s.ready, p.pid), current := None,
       events := s.events.(finishes := s.events.finishes + [res]))
  }

  /** The execution phase: the running process, if any, runs one unit and retires at 0. */
  function Execute(s: EngineState): EngineState {
    match s.current
    case None => s
    case Some(p) =>
      var c := Consume(s, p);
      if c.remaining == 0 then Retire(c, p) else c
  }

  /**
   * The clock advances; once `executed >= totalBurst` the results are
   * sorted by name and reported as complete, and the tick returns true.
   */
  function Advance(s: EngineState): (EngineState, bool) {
    var s1 := s.(t := s.t + 1);
    if s1.executed >= s1.totalBurst then
      var sorted := SortByName(s1.results);
      (s1.(results := sorted, events := s1.events.(completes := s1.events.completes + [sorted])), true)
    else (s1, false)
  }

  /** `tick`. */
  function AfterTick(s: EngineState): (EngineState, bool) {
    Advance(Execute(Select(Enqueue(s))))
  }

  /** One tick keeps the invariant. */
  lemma TickPreservesInv(s: EngineState)
    requires EngineInv(s)
    ensures EngineInv(AfterTick(s).0)
  {
    EnqueueInv(s);
    SelectInv(Enqueue(s), s.t, s.t + 1);
    ExecuteInv(Select(Enqueue(s)));
    AdvanceInv(Execute(Select(Enqueue(s))));
  }

  /** Admission leaves every arrival up to `t` queued or finished. */
  lemma EnqueueInv(s: EngineState)
    requires EngineInv(s)
    ensures InvAt(Enqueue(s), s.t, s.t + 1)
  {
    var e := Enqueue(s);
    AdmitFromOk(s.all, s.all, s.ready, s.finished, s.t);
    assert QueueOk(e, s.t);
    assert CurrentOk(e, s.t);
  }

  /** Selection keeps the invariant. */
  lemma SelectInv(s: EngineState, clock: int, horizon: int)
    requires InvAt(s, clock, horizon)
    ensures InvAt(Select(s), clock, horizon)
  {
    if s.current.None? && s.ready != [] {
      var p := Best(s.ready);
      assert p in s.all;
      var i :| 0 <= i < |s.all| && s.all[i] == p;
      assert ValidProcess(p);
    }
  }

  /** Execution keeps the invariant, for the clock it is about to advance to. */
  lemma ExecuteInv(s: EngineState)
    requires InvAt(s, s.t, s.t + 1)
    ensures InvAt(Execute(s), s.t + 1, s.t + 1)
  {
    if s.current.Some? {
      var p := s.current.value;
      var c := Consume(s, p);
      if s.remaining == 1 {
        assert QueueOk(c, c.t) && NoneLost(c, c.t + 1) && ResultsOk(c) && RegisteredOk(c);
        RetireInv(c, p);
      }
    }
  }

  /** Retiring the process that has just reached 0 restores the invariant. */
  lemma RetireInv(s: EngineState, p: Process)
    requires RegisteredOk(s) && QueueOk(s, s.t) && NoneLost(s, s.t + 1) && ResultsOk(s)
    requires p in s.ready && p.arrivalTime + p.burstTime <= s.t + 1
    requires s.executed == BurstOf(s.all, s.finished) + p.burstTime
    ensures InvAt(Retire(s, p), s.t + 1, s.t + 1)
  {
    assert p in s.all && p.pid !in s.finished;
    FinishQueue(s, p);
    FinishResults(s, p);
    BurstOfAdd(s.all, s.finished, p);
    PidIn(s.all, p);
  }

  /** Splicing the finished process out of `ready` keeps the queue invariant and loses no arrival. */
  lemma FinishQueue(s: EngineState, p: Process)
    requires QueueOk(s, s.t) && NoneLost(s, s.t + 1) && UniquePids(s.all) && p in s.ready
    ensures QueueOk(Retire(s, p), s.t + 1) && NoneLost(Retire(s, p), s.t + 1)
  {
    var f := Retire(s, p);
    var k := FindPid(s.ready, p.pid);
    assert k != -1 by {
      var i :| 0 <= i < |s.ready| && s.ready[i] == p;
    }
    RemoveAtPids(s.ready, k);
    assert s.ready[k] == p by {
      SamePidSameProcess(s.all, s.ready[k], p);
    }
    assert f.ready == s.ready[..k] + s.ready[k + 1..];
    forall x | x in f.ready ensures x.pid != p.pid {
      PidIn(f.ready, x);
    }
    forall x | x in f.all && x.arrivalTime < s.t + 1 && x.pid !in f.finished ensures x in f.ready {
      assert x != p;
    }
  }

  /** Recording the finished process keeps one result per finished pid. */
  lemma FinishResults(s: EngineState, p: Process)
    requires ResultsOk(s) && p in s.all && p.pid !in s.finished && p.arrivalTime + p.burstTime <= s.t + 1
    ensures ResultsOk(Retire(s, p))
  {
    var res := MakeResult(p, s.t + 1);
    AppendFreshResultPid(s.results, res);
    assert Recorded(res, s.all);
  }

  /** The clock advance keeps the invariant: sorting the results only reorders them. */
  lemma AdvanceInv(s: EngineState)
    requires InvAt(s, s.t + 1, s.t + 1)
    ensures EngineInv(Advance(s).0)
  {
    var (r, done) := Advance(s);
    if done {
      PermutationResultPids(s.results, r.results);
      forall x | x in r.results ensures Recorded(x, r.all) {
        assert x in multiset(s.results);
      }
    }
  }

  /**
   * Each tick advances the clock by exactly one and logs at most one step;
   * a logged step is exactly one unit of `executed`, and registrations are
   * untouched.
   */
  lemma TickBasics(s: EngineState)
    ensures var r := AfterTick(s).0;
      && r.t == s.t + 1 && r.all == s.all && r.totalBurst == s.totalBurst
      && |s.events.steps| <= |r.events.steps| <= |s.events.steps| + 1
      && r.events.steps[..|s.events.steps|] == s.events.steps
      && r.executed - s.executed == |r.events.steps| - |s.events.steps|
  {
    var u := Select(Enqueue(s));
    assert u.all == s.all && u.totalBurst == s.totalBurst;
    assert u.events.steps == s.events.steps && u.executed == s.executed;
    ExecuteBasics(u);
  }

  /** The execution phase logs at most one step, one per unit executed, and keeps the process table. */
  lemma ExecuteBasics(u: EngineState)
    ensures var x := Execute(u);
      && x.all == u.all && x.totalBurst == u.totalBurst
      && |u.events.steps| <= |x.events.steps| <= |u.events.steps| + 1
      && x.events.steps[..|u.events.steps|] == u.events.steps
      && x.executed - u.executed == |x.events.steps| - |u.events.steps|
  {
    if u.current.Some? {
      var x := Execute(u);
      assert x.events.steps == u.events.steps + [x.events.steps[|u.events.steps|]];
    }
  }

  /**
   * With nothing running, the tick selects after admission: an empty queue
   * logs no step; otherwise the step runs the (burst, arrival, pid) minimum
   * of the queue, with its burst less one left and its pid ahead of the
   * other queued pids.
   */
  lemma TickSelectsBest(s: EngineState)
    requires s.current.None?
    ensures var q, r := Enqueue(s).ready, AfterTick(s).0;
      if q == [] then
        r.events.steps == s.events.steps && r.executed == s.executed && r.current.None?
      else
        var p := Best(q);
        && p in q && (forall x :: x in q ==> KeyLe(p, x))
        && |r.events.steps| == |s.events.steps| + 1
        && r.events.steps[|s.events.steps|] == ExecutionStep(s.t, p.pid, p.name, p.burstTime - 1, Snapshot(q, p))
  {
  }

  /**
   * Non-preemption: while the running process has more than one unit left,
   * the tick runs it again, whatever has arrived, and it stays current.
   */
  lemma TickKeepsCurrent(s: EngineState)
    requires s.current.Some? && s.remaining != 1
    ensures var p, r := s.current.value, AfterTick(s).0;
      && r.current == s.current && r.remaining == s.remaining - 1
      && |r.events.steps| == |s.events.steps| + 1
      && r.events.steps[|s.events.steps|] == ExecutionStep(s.t, p.pid, p.name, s.remaining - 1, Snapshot(Enqueue(s).ready, p))
  {
  }

  /**
   * A process that runs its last unit in this tick is reported with
   * finishTime = t + 1, joins `finished` and the results, and releases the
   * CPU.
   */
  lemma TickRetires(s: EngineState, p: Process)
    requires Select(Enqueue(s)).current == Some(p) && Select(Enqueue(s)).remaining == 1
    ensures var r := AfterTick(s).0;
      && r.events.finishes == s.events.finishes + [MakeResult(p, s.t + 1)]
      && r.finished == s.finished + {p.pid}
      && r.current.None?
      && multiset(r.results) == multiset(s.results) + multiset{MakeResult(p, s.t + 1)}
  {
    var u := Select(Enqueue(s));
    var f := Retire(Consume(u, p), p);
    assert Execute(u) == f;
    assert f.results == s.results + [MakeResult(p, s.t + 1)];
  }

  /** The process that finishes in a tick leaves `ready`: no entry with its pid remains. */
  lemma TickRetiresFromQueue(s: EngineState, p: Process)
    requires EngineInv(s)
    requires Select(Enqueue(s)).current == Some(p) && Select(Enqueue(s)).remaining == 1
    ensures forall x :: x in AfterTick(s).0.ready ==> x.pid != p.pid
  {
    var u := Select(Enqueue(s));
    EnqueueInv(s);
    SelectInv(Enqueue(s), s.t, s.t + 1);
    var c := Consume(u, p);
    assert QueueOk(c, c.t) && NoneLost(c, c.t + 1) && UniquePids(c.all) && p in c.ready;
    FinishQueue(c, p);
    assert Execute(u) == Retire(c, p);
  }

  /**
   * Completion: the tick returns true exactly when, after it, nothing runs
   * and every registered process has finished; `executed` never exceeds
   * `totalBurst`; on completion the queue is empty, there is exactly one
   * result per registered process, and the results, sorted by name, are
   * what onComplete receives.
   */
  lemma TickDoneIff(s: EngineState)
    requires EngineInv(s)
    ensures var (r, done) := AfterTick(s);
      && r.executed <= r.totalBurst
      && (done <==> r.current.None? && Elems(Pids(r.all)) <= r.finished)
      && (done ==>
            && r.ready == []
            && |r.results| == |r.all| && Elems(ResultPids(r.results)) == Elems(Pids(r.all))
            && SortedBy(r.results, ByName)
            && r.events.completes == s.events.completes + [r.results])
  {
    TickPreservesInv(s);
    var (r, done) := AfterTick(s);
    WorkBounds(r);
    if done {
      AllFinished(r);
    }
  }

  /**
   * `executed` is at most `totalBurst`, and reaches it exactly when nothing
   * runs and every registered process has finished.
   */
  lemma WorkBounds(s: EngineState)
    requires EngineInv(s)
    ensures s.executed <= s.totalBurst
    ensures s.executed >= s.totalBurst <==> s.current.None? && Elems(Pids(s.all)) <= s.finished
  {
    BurstOfBounds(s.all, s.finished);
    if s.current.Some? {
      var p := s.current.value;
      BurstOfAdd(s.all, s.finished, p);
      BurstOfBounds(s.all, s.finished + {p.pid});
    } else if !(Elems(Pids(s.all)) <= s.finished) {
      var pid :| pid in Elems(Pids(s.all)) && pid !in s.finished;
      var i :| 0 <= i < |s.all| && Pids(s.all)[i] == pid;
      assert s.all[i] in s.all && s.all[i].pid !in s.finished;
    }
  }

  /** Once every registered process has finished, nothing is queued and each has exactly one result. */
  lemma AllFinished(s: EngineState)
    requires EngineInv(s) && Elems(Pids(s.all)) <= s.finished
    ensures s.ready == []
    ensures |s.results| == |s.all| && Elems(ResultPids(s.results)) == Elems(Pids(s.all))
  {
    if s.ready != [] {
      PidIn(s.all, s.ready[0]);
    }
    assert s.finished == Elems(Pids(s.all));
    DistinctCard(ResultPids(s.results));
    DistinctCard(Pids(s.all));
  }

  /** onFinish reports each process at most once, and only with its own record. */
  lemma FinishesOnce(s: EngineState)
    requires EngineInv(s)
    ensures Distinct(ResultPids(s.events.finishes))
    ensures forall r :: r in s.events.finishes ==> Recorded(r, s.all)
  {
    PermutationResultPids(s.results, s.events.finishes);
    forall r | r in s.events.finishes ensures Recorded(r, s.all) {
      assert r in multiset(s.results);
    }
  }

  // ---------------------------------------------------------------------------
  // The engine object

  /**
   * `createSJFEngine`: the closure variables as fields; `steps`, `finishes`
   * and `completes` record what onStep, onFinish and onComplete receive.
   */
  class SjfEngine {
    var t: int
    var ready: seq<Process>
    var all: seq<Process>
    var finished: set<int>
    var results: seq<ProcessResult>
    var executed: int
    var totalBurst: int
    var current: Option<Process>
    var remainingTime: int
    var steps: seq<ExecutionStep>
    var finishes: seq<ProcessResult>
    var completes: seq<seq<ProcessResult>>

    ghost function State(): EngineState
      reads this
    {
      EngineState(t, ready, all, finished, results, executed, totalBurst, current, remainingTime,
                  Events(steps, finishes, completes))
    }

    ghost predicate Valid()
      reads this
    {
      EngineInv(State())
    }

    constructor (startTime: int)
      ensures State() == Start(startTime) && Valid()
    {
      t := startTime;
      ready, all, finished, results := [], [], {}, [];
      executed, totalBurst := 0, 0;
      current, remainingTime := None, 0;
      steps, finishes, completes := [], [], [];
      StartInv(startTime);
    }

    method AddProcess(p: Process)
      requires Valid() && ValidProcess(p)
      modifies this
      ensures State() == AfterAdd(old(State()), p) && Valid()
    {
      AddPreservesInv(State(), p);
      if p.pid in Pids(all) {
        return;
      }
      all := all + [p];
      totalBurst := totalBurst + p.burstTime;
      if p.arrivalTime <= t {
        ready := ready + [p];
      }
    }

    method Tick() returns (done: bool)
      requires Valid()
      modifies this
      ensures (State(), done) == AfterTick(old(State())) && Valid()
    {
      TickPreservesInv(State());
      EnqueueArrivalsAt(t);
      SelectPhase();
      ExecutePhase();
      done := AdvancePhase();
    }

    /** `enqueueArrivalsAt(time)`: one pass over the registered processes. */
    method EnqueueArrivalsAt(time: int)
      modifies this
      ensures State() == old(State()).(ready := AdmitFrom(all, old(ready), finished, time))
    {
      var queue := ready;
      for j := 0 to |all|
        invariant queue == AdmitFrom(all[..j], ready, finished, time)
      {
        assert all[..j + 1][..j] == all[..j];
        var p := all[j];
        if p.arrivalTime == time {
          if FindPid(queue, p.pid) == -1 && p.pid !in finished {
            queue := queue + [p];
          }
        }
      }
      assert all[..|all|] == all;
      ready := queue;
    }

    /** The selection part of `tick`. */
    method SelectPhase()
      modifies this
      ensures State() == Select(old(State()))
    {
      if current.None? && |ready| > 0 {
        var best := Best(ready);
        current := Some(best);
        remainingTime := best.burstTime;
      }
    }

    /** The execution part of `tick`. */
    method ExecutePhase()
      modifies this
      ensures State() == Execute(old(State()))
    {
      if current.Some? {
        var p := current.value;
        ConsumeUnit(p);
        if remainingTime == 0 {
          RetireCurrent(p);
        }
      }
    }

    /** The running process `p` consumes one unit; onStep gets the snapshot taken before it. */
    method ConsumeUnit(p: Process)
      modifies this
      ensures State() == Consume(old(State()), p)
    {
      var queueBefore := if current.Some? then Snapshot(ready, current.value) else Pids(ready);
      remainingTime := remainingTime - 1;
      executed := executed + 1;
      steps := steps + [ExecutionStep(t, p.pid, p.name, remainingTime, queueBefore)];
    }

    /** `p` reached 0: its result is recorded and reported, and it leaves `ready` and the CPU. */
    method RetireCurrent(p: Process)
      modifies this
      ensures State() == Retire(old(State()), p)
    {
      var res := MakeResult(p, t + 1);
      results := results + [res];
      finishes := finishes + [res];
      finished := finished + {p.pid};
      var idx := FindPid(ready, p.pid);
      if idx != -1 {
        ready := ready[..idx] + ready[idx + 1..];
      }
      current := None;
    }

    /** The clock advance and completion check ending `tick`. */
    method AdvancePhase() returns (done: bool)
      modifies this
      ensures (State(), done) == Advance(old(State()))
    {
      t := t + 1;
      done := executed >= totalBurst;
      if done {
        var sorted := SortByName(results);
        results := sorted;
        completes := completes + [sorted];
      }
    }
  }
}
