/**
 * Shortest remaining time first (src/Components/Algorithms/SRTF.ts).
 *
 * `runSRTF` advances the clock one tick per iteration: it admits the
 * processes arriving at that tick, runs one unit of the queued process with
 * the least remaining time (the earliest queue entry among equals), and
 * records a process when its remaining time reaches 0. `SrtfIteration` is
 * one iteration as a function, `SrtfRun` the whole loop, and `RunSrtf` is
 * proved to produce what `SrtfRun` describes. The module has its own step
 * type, as the source file declares its own interfaces.
 */
module Srtf {
  import opened Common

  /** SRTF.ts's `ExecutionStep`: no queue snapshot. */
  datatype SrtfStep = SrtfStep(time: int, processId: int, processName: string, remainingTime: int)

  /** The loop's variables: the clock, `remainingTime`, `readyQueue`, `finished`, and the output so far. */
  datatype SrtfState = SrtfState(
    t: int,
    remaining: map<int, int>,
    ready: seq<Process>,
    finished: set<int>,
    history: seq<SrtfStep>,
    results: seq<ProcessResult>)

  function SrtfInit(ps: seq<Process>): SrtfState {
    SrtfState(0, InitialRemaining(ps), [], {}, [], [])
  }

  /**
   * The fold over the ready queue that keeps the entry with less remaining
   * time, as an index: an entry with the least remaining time, and the first
   * such entry, since a later one replaces the accumulator only when
   * strictly smaller.
   */
  function ShortestIndex(ready: seq<Process>, rem: map<int, int>): (k: int)
    requires ready != [] && forall i :: 0 <= i < |ready| ==> ready[i].pid in rem
    ensures 0 <= k < |ready|
    ensures forall j :: 0 <= j < |ready| ==> rem[ready[k].pid] <= rem[ready[j].pid]
    ensures forall j :: 0 <= j < k ==> rem[ready[k].pid] < rem[ready[j].pid]
    decreases |ready|
  {
    if |ready| == 1 then 0
    else
      var k0 := ShortestIndex(ready[..|ready| - 1], rem);
      var last := |ready| - 1;
      if rem[ready[last].pid] < rem[ready[k0].pid] then last else k0
  }

  /**
   * The record runSRTF pushes: Is = τ / Tr is computed without the guard the
   * other schedulers have, so it is defined only for Tr != 0; it then agrees
   * with the guarded record whenever Tr > 0.
   */
  function SrtfResult(p: Process, finishTime: int): (r: ProcessResult)
    requires finishTime != p.arrivalTime
    ensures p.arrivalTime < finishTime ==> r == MakeResult(p, finishTime)
  {
    var tr := finishTime - p.arrivalTime;
    ProcessResult(p.pid, p.name, p.arrivalTime, p.burstTime, finishTime, tr, tr - p.burstTime,
                  p.burstTime as real / tr as real)
  }

  // ---------------------------------------------------------------------------
  // One iteration

  /** Admission at tick t: the processes arriving now join the queue, in input order. */
  function Admitted(ps: seq<Process>, s: SrtfState): SrtfState {
    s.(ready := s.ready + ArrivingAt(ps, s.t))
  }

  /**
   * Running one unit of `p` at tick t: its remaining time drops by one and the
   * step is logged; when it reaches 0, the process is recorded with
   * finishTime = t + 1, marked finished and taken out of the queue; the clock
   * advances.
   */
  function RunUnit(s: SrtfState, p: Process): SrtfState
    requires p.pid in s.remaining && p.arrivalTime <= s.t
  {
    var left := s.remaining[p.pid] - 1;
    var remaining := s.remaining[p.pid := left];
    var history := s.history + [SrtfStep(s.t, p.pid, p.name, left)];
    if left == 0 then
      s.(t := s.t + 1, remaining := remaining, ready := RemoveFirstPid(s.ready, p.pid),
         finished := s.finished + {p.pid}, history := history,
         results := s.results + [SrtfResult(p, s.t + 1)])
    else
      s.(t := s.t + 1, remaining := remaining, history := history)
  }

  // ---------------------------------------------------------------------------
  // The loop invariant

  /** `x` is an input process that still has work left. */
  ghost predicate Pending(ps: seq<Process>, s: SrtfState, x: Process) {
    x in ps && x.pid in s.remaining && s.remaining[x.pid] > 0
  }

  /**
   * Every input process has a remaining time between 0 and its burst, and
   * has used no more CPU than the ticks elapsed since it arrived.
   */
  ghost predicate ProgressOk(ps: seq<Process>, s: SrtfState) {
    && s.remaining.Keys == Elems(Pids(ps))
    && (forall x :: x in ps ==>
          && x.pid in s.remaining
          && 0 <= s.remaining[x.pid] <= x.burstTime
          && x.burstTime - s.remaining[x.pid] <= Elapsed(s.t, x))
  }

  /** The ready queue holds exactly the pending processes arrived before `horizon`, once each. */
  ghost predicate ReadyOk(ps: seq<Process>, s: SrtfState, horizon: int) {
    && (forall x :: x in s.ready <==> Pending(ps, s, x) && x.arrivalTime < horizon)
    && Distinct(Pids(s.ready))
  }

  /** `finished` holds the pids whose remaining time is 0, and they are the pids of the results. */
  ghost predicate FinishedOk(ps: seq<Process>, s: SrtfState) {
    && (forall pid :: pid in s.finished <==> pid in s.remaining && s.remaining[pid] == 0)
    && Distinct(ResultPids(s.results))
    && Elems(ResultPids(s.results)) == s.finished
    && (forall r :: r in s.results ==> Recorded(r, ps))
  }

  /** At most one step per tick, all before the clock, one per unit of CPU used. */
  ghost predicate HistoryOk(ps: seq<Process>, s: SrtfState)
    requires ProgressOk(ps, s)
  {
    && (forall i :: 0 <= i < |s.history| ==> 0 <= s.history[i].time < s.t)
    && (forall i, j :: 0 <= i < j < |s.history| ==> s.history[i].time < s.history[j].time)
    && |s.history| == SumBurst(ps) - SumRemaining(ps, s.remaining)
  }

  ghost predicate InvWith(ps: seq<Process>, s: SrtfState, horizon: int) {
    && ValidInput(ps)
    && 0 <= s.t
    && ProgressOk(ps, s)
    && ReadyOk(ps, s, horizon)
    && FinishedOk(ps, s)
    && HistoryOk(ps, s)
  }

  /**
   * The loop invariant at the top of an iteration: the queue holds exactly
   * the pending processes that arrived before the current tick.
   */
  ghost predicate SrtfInv(ps: seq<Process>, s: SrtfState) {
    InvWith(ps, s, s.t)
  }

  lemma InitInv(ps: seq<Process>)
    requires ValidInput(ps)
    ensures SrtfInv(ps, SrtfInit(ps))
  {
    var s := SrtfInit(ps);
    forall i | 0 <= i < |ps| ensures ps[i].pid in s.remaining && s.remaining[ps[i].pid] == ps[i].burstTime {
      assert ps[i] in ps;
    }
    SumRemainingIsBurst(ps, s.remaining);
    forall x ensures x in s.ready <==> Pending(ps, s, x) && x.arrivalTime < s.t {
    }
  }

  // ---------------------------------------------------------------------------
  // The invariant across one iteration

  /** After admission the queue holds exactly the pending processes that have arrived by tick t. */
  lemma AdmitOk(ps: seq<Process>, s: SrtfState)
    requires SrtfInv(ps, s)
    ensures InvWith(ps, Admitted(ps, s), s.t + 1)
  {
    var arriving := ArrivingAt(ps, s.t);
    var a := Admitted(ps, s);
    assert Elems(Pids(s.ready)) !! Elems(Pids(arriving)) by {
      forall pid | pid in Elems(Pids(s.ready)) ensures pid !in Elems(Pids(arriving)) {
        var i :| 0 <= i < |s.ready| && Pids(s.ready)[i] == pid;
        forall j | 0 <= j < |arriving| ensures Pids(arriving)[j] != pid {
          assert arriving[j] in arriving;
          assert s.ready[i] in s.ready;
          if arriving[j].pid == pid {
            SamePidSameProcess(ps, s.ready[i], arriving[j]);
          }
        }
      }
    }
    AppendDistinctPids(s.ready, arriving);
    forall x ensures x in a.ready <==> Pending(ps, a, x) && x.arrivalTime < s.t + 1 {
      if x in ps && x.arrivalTime == s.t {
        assert x.burstTime - s.remaining[x.pid] <= Elapsed(s.t, x) == 0;
      }
    }
  }

  /** With nothing admitted, some pending process arrives later, so the clock is before the last arrival. */
  lemma IdleOk(ps: seq<Process>, a: SrtfState)
    requires InvWith(ps, a, a.t + 1) && |a.finished| < |ps| && a.ready == []
    ensures SrtfInv(ps, a.(t := a.t + 1))
    ensures 0 <= Measure(ps, a.(t := a.t + 1)) < Measure(ps, a)
  {
    IdleKeepsInv(ps, a);
    SomePending(ps, a);
    var x :| Pending(ps, a, x);
    assert x !in a.ready;
    assert a.t < x.arrivalTime <= MaxArrival(ps) by {
      var i :| 0 <= i < |ps| && ps[i] == x;
    }
    SumRemainingNonNegative(ps, a.remaining);
  }

  /** Advancing the clock past an empty queue keeps the invariant. */
  lemma IdleKeepsInv(ps: seq<Process>, a: SrtfState)
    requires InvWith(ps, a, a.t + 1) && a.ready == []
    ensures SrtfInv(ps, a.(t := a.t + 1))
  {
    var s' := a.(t := a.t + 1);
    assert ProgressOk(ps, s') by {
      forall x | x in ps ensures x.burstTime - s'.remaining[x.pid] <= Elapsed(s'.t, x) {
        assert Elapsed(a.t, x) <= Elapsed(s'.t, x);
      }
    }
    assert ReadyOk(ps, s', s'.t) by {
      forall y ensures y in s'.ready <==> Pending(ps, s', y) && y.arrivalTime < s'.t {
        assert y !in a.ready;
        assert Pending(ps, s', y) == Pending(ps, a, y);
      }
    }
    assert FinishedOk(ps, s') by {
      assert FinishedOk(ps, a);
    }
    assert HistoryOk(ps, s') by {
      assert HistoryOk(ps, a);
      assert SumRemaining(ps, s'.remaining) == SumRemaining(ps, a.remaining);
    }
  }

  /** Some input process is pending while fewer pids than processes are finished. */
  lemma SomePending(ps: seq<Process>, s: SrtfState)
    requires ValidInput(ps) && ProgressOk(ps, s) && FinishedOk(ps, s) && |s.finished| < |ps|
    ensures exists x :: Pending(ps, s, x)
  {
    DistinctCard(Pids(ps));
    SomeOutside(Elems(Pids(ps)), s.finished);
    var pid :| pid in Elems(Pids(ps)) && pid !in s.finished;
    var i :| 0 <= i < |ps| && Pids(ps)[i] == pid;
    assert ps[i] in ps;
    assert Pending(ps, s, ps[i]);
  }

  /** The loop's variant: the work left plus the ticks until the last arrival. */
  function Measure(ps: seq<Process>, s: SrtfState): int
    requires forall i :: 0 <= i < |ps| ==> ps[i].pid in s.remaining
  {
    SumRemaining(ps, s.remaining) + (if s.t <= MaxArrival(ps) then MaxArrival(ps) + 1 - s.t else 0)
  }

  /** Running one unit of any admitted process keeps the invariant and lowers the variant. */
  lemma RunOk(ps: seq<Process>, a: SrtfState, p: Process)
    requires InvWith(ps, a, a.t + 1) && p in a.ready
    ensures p.pid in a.remaining && p.arrivalTime <= a.t
    ensures SrtfInv(ps, RunUnit(a, p))
    ensures 0 <= Measure(ps, RunUnit(a, p)) < Measure(ps, a)
  {
    assert Pending(ps, a, p);
    RunProgress(ps, a, p);
    RunReady(ps, a, p);
    RunFinished(ps, a, p);
    RunHistory(ps, a, p);
  }

  lemma RunProgress(ps: seq<Process>, a: SrtfState, p: Process)
    requires UniquePids(ps) && ProgressOk(ps, a) && Pending(ps, a, p) && p.arrivalTime <= a.t
    ensures ProgressOk(ps, RunUnit(a, p))
    ensures SumRemaining(ps, RunUnit(a, p).remaining) == SumRemaining(ps, a.remaining) - 1
    ensures 0 <= SumRemaining(ps, RunUnit(a, p).remaining)
  {
    var r := RunUnit(a, p);
    forall x | x in ps
      ensures x.pid in r.remaining && 0 <= r.remaining[x.pid] <= x.burstTime
      ensures x.burstTime - r.remaining[x.pid] <= Elapsed(r.t, x)
    {
      if x.pid == p.pid {
        SamePidSameProcess(ps, x, p);
      }
    }
    SumRemainingUpdate(ps, a.remaining, p, a.remaining[p.pid] - 1);
    SumRemainingNonNegative(ps, r.remaining);
  }

  lemma RunReady(ps: seq<Process>, a: SrtfState, p: Process)
    requires UniquePids(ps) && ReadyOk(ps, a, a.t + 1) && p in a.ready
    ensures Pending(ps, a, p) && p.arrivalTime <= a.t
    ensures ReadyOk(ps, RunUnit(a, p), a.t + 1)
  {
    var r := RunUnit(a, p);
    assert Pending(ps, a, p);
    if a.remaining[p.pid] == 1 {
      var j := FindPid(a.ready, p.pid);
      assert a.ready[j] in a.ready;
      SamePidSameProcess(ps, a.ready[j], p);
      RemoveAtPids(a.ready, j);
      assert r.ready == a.ready[..j] + a.ready[j + 1..];
    }
    forall x ensures x in r.ready <==> Pending(ps, r, x) && x.arrivalTime < a.t + 1 {
      if x in r.ready {
        PidIn(r.ready, x);
      }
      if x in ps && x.pid == p.pid {
        SamePidSameProcess(ps, x, p);
      }
    }
  }

  lemma RunFinished(ps: seq<Process>, a: SrtfState, p: Process)
    requires ProgressOk(ps, a) && FinishedOk(ps, a) && Pending(ps, a, p) && p.arrivalTime <= a.t
    ensures FinishedOk(ps, RunUnit(a, p))
  {
    var r := RunUnit(a, p);
    if a.remaining[p.pid] == 1 {
      var res := SrtfResult(p, a.t + 1);
      AppendFreshResultPid(a.results, res);
      assert Recorded(res, ps);
    }
    forall pid ensures pid in r.finished <==> pid in r.remaining && r.remaining[pid] == 0 {
    }
  }

  lemma RunHistory(ps: seq<Process>, a: SrtfState, p: Process)
    requires UniquePids(ps) && ProgressOk(ps, a) && HistoryOk(ps, a) && Pending(ps, a, p) && p.arrivalTime <= a.t
    requires 0 <= a.t
    ensures ProgressOk(ps, RunUnit(a, p)) && HistoryOk(ps, RunUnit(a, p))
    ensures 0 <= Measure(ps, RunUnit(a, p)) < Measure(ps, a)
  {
    RunProgress(ps, a, p);
  }

  /**
   * One iteration of the `while` loop: admit the arrivals of tick t; if the
   * queue is not empty, run one unit of its shortest entry; otherwise just
   * advance the clock.
   */
  function SrtfIteration(ps: seq<Process>, s: SrtfState): SrtfState
    requires SrtfInv(ps, s)
  {
    AdmitOk(ps, s);
    var a := Admitted(ps, s);
    if a.ready == [] then a.(t := a.t + 1)
    else
      assert forall i :: 0 <= i < |a.ready| ==> a.ready[i] in a.ready;
      RunUnit(a, a.ready[ShortestIndex(a.ready, a.remaining)])
  }

  /** The admitted queue's entries have a remaining time and have arrived. */
  lemma AdmittedEntries(ps: seq<Process>, s: SrtfState)
    requires SrtfInv(ps, s)
    ensures forall i :: 0 <= i < |Admitted(ps, s).ready| ==>
              Admitted(ps, s).ready[i].pid in s.remaining && Admitted(ps, s).ready[i].arrivalTime <= s.t
  {
    AdmitOk(ps, s);
    var a := Admitted(ps, s);
    forall i | 0 <= i < |a.ready| ensures a.ready[i].pid in s.remaining && a.ready[i].arrivalTime <= s.t {
      assert a.ready[i] in a.ready;
    }
  }

  /** An iteration keeps the invariant and, while some process is unfinished, lowers the variant. */
  lemma IterationOk(ps: seq<Process>, s: SrtfState)
    requires SrtfInv(ps, s) && |s.finished| < |ps|
    ensures SrtfInv(ps, SrtfIteration(ps, s))
    ensures 0 <= Measure(ps, SrtfIteration(ps, s)) < Measure(ps, s)
  {
    AdmitOk(ps, s);
    var a := Admitted(ps, s);
    AdmittedEntries(ps, s);
    if a.ready == [] {
      assert SrtfIteration(ps, s) == a.(t := a.t + 1);
      IdleOk(ps, a);
    } else {
      var p := a.ready[ShortestIndex(a.ready, a.remaining)];
      assert SrtfIteration(ps, s) == RunUnit(a, p);
      assert p in a.ready;
      RunOk(ps, a, p);
    }
  }

  /** The `while (finished.size < processes.length)` loop from state `s`, to the state it stops in. */
  function SrtfRun(ps: seq<Process>, s: SrtfState): SrtfState
    requires SrtfInv(ps, s)
    decreases Measure(ps, s)
  {
    if |s.finished| >= |ps| then s
    else
      IterationOk(ps, s);
      SrtfRun(ps, SrtfIteration(ps, s))
  }

  /** The loop stops in a state that keeps the invariant and has every process finished. */
  lemma {:induction false} SrtfRunInv(ps: seq<Process>, s: SrtfState)
    requires SrtfInv(ps, s)
    ensures SrtfInv(ps, SrtfRun(ps, s)) && |SrtfRun(ps, s).finished| >= |ps|
    decreases Measure(ps, s)
  {
    if |s.finished| < |ps| {
      IterationOk(ps, s);
      SrtfRunInv(ps, SrtfIteration(ps, s));
    }
  }

  /** What runSRTF returns for `ps`. */
  function SrtfOutcome(ps: seq<Process>): SrtfState
    requires ValidInput(ps)
  {
    InitInv(ps);
    SrtfRun(ps, SrtfInit(ps))
  }

  // ---------------------------------------------------------------------------
  // runSRTF

  /** `runSRTF`: returns the history and the results in completion order. */
  method RunSrtf(processes: seq<Process>) returns (history: seq<SrtfStep>, results: seq<ProcessResult>)
    requires ValidInput(processes)
    ensures history == SrtfOutcome(processes).history
    ensures results == SrtfOutcome(processes).results
  {
    var remainingTime := CopyBurstTimes(processes);
    InitInv(processes);
    var currentTime, readyQueue, finished;
    currentTime, remainingTime, readyQueue, finished, history, results :=
      RunLoop(processes, SrtfInit(processes), 0, remainingTime, [], {}, [], []);
  }

  /**
   * The `while (finished.size < processes.length)` loop of runSRTF: from the
   * loop variables `s`, it ends in the state `SrtfRun` describes.
   */
  method RunLoop(processes: seq<Process>, ghost s: SrtfState, currentTime: int, remainingTime: map<int, int>,
                 readyQueue: seq<Process>, finished: set<int>, history: seq<SrtfStep>, results: seq<ProcessResult>)
    returns (currentTime': int, remainingTime': map<int, int>, readyQueue': seq<Process>,
             finished': set<int>, history': seq<SrtfStep>, results': seq<ProcessResult>)
    requires SrtfInv(processes, s)
    requires s == SrtfState(currentTime, remainingTime, readyQueue, finished, history, results)
    ensures SrtfState(currentTime', remainingTime', readyQueue', finished', history', results') == SrtfRun(processes, s)
  {
    currentTime', remainingTime', readyQueue', finished', history', results' :=
      currentTime, remainingTime, readyQueue, finished, history, results;
    ghost var S := s;
    while |finished'| < |processes|
      invariant S == SrtfState(currentTime', remainingTime', readyQueue', finished', history', results')
      invariant SrtfInv(processes, S) && SrtfRun(processes, S) == SrtfRun(processes, s)
      decreases Measure(processes, S)
    {
      IterationOk(processes, S);
      currentTime', remainingTime', readyQueue', finished', history', results' :=
        Iterate(processes, S, currentTime', remainingTime', readyQueue', finished', history', results');
      S := SrtfIteration(processes, S);
    }
  }

  /** The body of runSRTF's `while` loop: admit the arrivals of tick t, run the shortest entry if any, advance the clock. */
  method Iterate(processes: seq<Process>, ghost s: SrtfState, currentTime: int, remainingTime: map<int, int>,
                 readyQueue: seq<Process>, finished: set<int>, history: seq<SrtfStep>, results: seq<ProcessResult>)
    returns (currentTime': int, remainingTime': map<int, int>, readyQueue': seq<Process>,
             finished': set<int>, history': seq<SrtfStep>, results': seq<ProcessResult>)
    requires SrtfInv(processes, s)
    requires s == SrtfState(currentTime, remainingTime, readyQueue, finished, history, results)
    ensures SrtfState(currentTime', remainingTime', readyQueue', finished', history', results')
         == SrtfIteration(processes, s)
  {
    AdmittedEntries(processes, s);
    readyQueue' := EnqueueArrivals(readyQueue, processes, currentTime);
    assert readyQueue' == Admitted(processes, s).ready;
    if readyQueue' != [] {
      var p := readyQueue'[ShortestIndex(readyQueue', remainingTime)];
      currentTime', remainingTime', readyQueue', finished', history', results' :=
        RunShortest(p, currentTime, remainingTime, readyQueue', finished, history, results);
    } else {
      currentTime', remainingTime', finished', history', results' := currentTime + 1, remainingTime, finished, history, results;
    }
  }

  /** Steps 2 and 3 of the loop body once `p` is chosen: one unit of `p`, then `currentTime++`. */
  method RunShortest(p: Process, currentTime: int, remainingTime: map<int, int>, readyQueue: seq<Process>,
                     finished: set<int>, history: seq<SrtfStep>, results: seq<ProcessResult>)
    returns (currentTime': int, remainingTime': map<int, int>, readyQueue': seq<Process>,
             finished': set<int>, history': seq<SrtfStep>, results': seq<ProcessResult>)
    requires p.pid in remainingTime && p.arrivalTime <= currentTime
    ensures SrtfState(currentTime', remainingTime', readyQueue', finished', history', results')
         == RunUnit(SrtfState(currentTime, remainingTime, readyQueue, finished, history, results), p)
  {
    var left := remainingTime[p.pid] - 1;
    remainingTime' := remainingTime[p.pid := left];
    history' := history + [SrtfStep(currentTime, p.pid, p.name, left)];
    readyQueue', finished', results' := readyQueue, finished, results;
    if left == 0 {
      results' := results + [SrtfResult(p, currentTime + 1)];
      finished' := finished + {p.pid};
      var idx := FindPid(readyQueue, p.pid);
      if idx != -1 {
        readyQueue' := readyQueue[..idx] + readyQueue[idx + 1..];
      }
      assert readyQueue' == RemoveFirstPid(readyQueue, p.pid);
    }
    currentTime' := currentTime + 1;
  }

  // ---------------------------------------------------------------------------
  // Properties of runSRTF

  /**
   * runSRTF terminates with one result per process (the results' pids are
   * the input's, without repetition), each the record of its process with the
   * metric definitions and a finish time no earlier than arrival plus burst;
   * the history has one step per unit of total burst, at strictly increasing
   * ticks.
   */
  lemma SrtfOutcomeComplete(ps: seq<Process>)
    requires ValidInput(ps)
    ensures var f := SrtfOutcome(ps);
      && |f.results| == |ps|
      && Distinct(ResultPids(f.results))
      && Elems(ResultPids(f.results)) == Elems(Pids(ps))
      && (forall r :: r in f.results ==> Recorded(r, ps))
      && |f.history| == SumBurst(ps)
      && (forall i, j :: 0 <= i < j < |f.history| ==> f.history[i].time < f.history[j].time)
  {
    var f := SrtfOutcome(ps);
    InitInv(ps);
    SrtfRunInv(ps, SrtfInit(ps));
    AllFinished(ps, f);
    assert HistoryOk(ps, f);
  }

  /** Once as many pids are finished as there are processes, every process is finished and recorded once. */
  lemma AllFinished(ps: seq<Process>, f: SrtfState)
    requires ValidInput(ps) && ProgressOk(ps, f) && FinishedOk(ps, f) && |f.finished| >= |ps|
    ensures |f.results| == |ps| && Elems(ResultPids(f.results)) == Elems(Pids(ps))
    ensures SumRemaining(ps, f.remaining) == 0
  {
    DistinctCard(Pids(ps));
    DistinctCard(ResultPids(f.results));
    assert f.finished <= Elems(Pids(ps));
    SubsetCard(f.finished, Elems(Pids(ps)));
    assert f.finished == Elems(Pids(ps)) by {
      SubsetEqualCard(f.finished, Elems(Pids(ps)));
    }
    forall i | 0 <= i < |ps| ensures ps[i].pid in f.remaining && f.remaining[ps[i].pid] == 0 {
      assert Pids(ps)[i] in f.finished;
    }
    SumRemainingZero(ps, f.remaining);
  }

  /**
   * The preemptive choice: when some arrived process still has work, the
   * iteration logs one step for an arrived, unfinished process with the least
   * remaining time of all such processes, and that step's remaining time is
   * one less; when none has, it logs nothing. The clock advances by one tick
   * either way.
   */
  lemma SrtfPicksShortest(ps: seq<Process>, s: SrtfState)
    requires SrtfInv(ps, s)
    ensures var s' := SrtfIteration(ps, s);
      && s'.t == s.t + 1
      && if exists x :: Pending(ps, s, x) && x.arrivalTime <= s.t then
        && |s'.history| == |s.history| + 1
        && var step := s'.history[|s.history|];
           && step.time == s.t
           && (exists x :: Pending(ps, s, x) && x.arrivalTime <= s.t && x.pid == step.processId && x.name == step.processName)
           && step.processId in s.remaining
           && step.remainingTime == s.remaining[step.processId] - 1
           && forall x :: Pending(ps, s, x) && x.arrivalTime <= s.t ==> step.remainingTime < s.remaining[x.pid]
      else
        s'.history == s.history
  {
    AdmitOk(ps, s);
    var a := Admitted(ps, s);
    if a.ready == [] {
      forall x ensures !(Pending(ps, s, x) && x.arrivalTime <= s.t) {
        assert x !in a.ready;
      }
    } else {
      assert a.ready[0] in a.ready;
      assert Pending(ps, s, a.ready[0]);
      var k := ShortestIndex(a.ready, a.remaining);
      assert a.ready[k] in a.ready;
      assert Pending(ps, s, a.ready[k]);
      forall y | Pending(ps, s, y) && y.arrivalTime <= s.t
        ensures s.remaining[a.ready[k].pid] <= s.remaining[y.pid]
      {
        assert Pending(ps, a, y);
        var j :| 0 <= j < |a.ready| && a.ready[j] == y;
      }
    }
  }

  /**
   * The step's process finishes exactly when its remaining time reaches 0:
   * when the iteration runs a unit of the arrived, pending process `x`, its
   * remaining time drops by one, and on its last unit `x` is recorded with
   * finishTime = currentTime + 1, marked finished and taken out of the queue;
   * an earlier unit records nothing.
   */
  lemma SrtfFinishesAtNextTick(ps: seq<Process>, s: SrtfState, x: Process)
    requires SrtfInv(ps, s) && Pending(ps, s, x) && x.arrivalTime <= s.t
    ensures var s' := SrtfIteration(ps, s);
      && |s'.history| == |s.history| + 1
      && (s'.history[|s.history|].processId == x.pid ==>
            && s'.remaining == s.remaining[x.pid := s.remaining[x.pid] - 1]
            && (s.remaining[x.pid] == 1 ==>
                  && s'.results == s.results + [SrtfResult(x, s.t + 1)]
                  && s'.finished == s.finished + {x.pid}
                  && x !in s'.ready)
            && (s.remaining[x.pid] > 1 ==> s'.results == s.results && s'.finished == s.finished))
  {
    AdmitOk(ps, s);
    var a := Admitted(ps, s);
    assert x in a.ready;
    AdmittedEntries(ps, s);
    var y := a.ready[ShortestIndex(a.ready, a.remaining)];
    assert SrtfIteration(ps, s) == RunUnit(a, y);
    assert y in a.ready;
    UnitFinishes(ps, a, y);
    if y.pid == x.pid {
      SamePidSameProcess(ps, x, y);
      assert a.results == s.results && a.remaining == s.remaining && a.t == s.t;
      var res := SrtfResult(x, s.t + 1);
      assert s.remaining[x.pid] == 1 ==> RunUnit(a, y).results == s.results + [res];
    }
  }

  /** One unit of a queued process `x`: the results, `finished` and the queue change only on its last unit. */
  lemma UnitFinishes(ps: seq<Process>, a: SrtfState, x: Process)
    requires UniquePids(ps) && ReadyOk(ps, a, a.t + 1) && x in a.ready
    ensures Pending(ps, a, x) && x.arrivalTime <= a.t
    ensures var r := RunUnit(a, x);
      && r.history[|a.history|].processId == x.pid
      && r.remaining == a.remaining[x.pid := a.remaining[x.pid] - 1]
      && (a.remaining[x.pid] == 1 ==>
            && r.results == a.results + [SrtfResult(x, a.t + 1)]
            && r.finished == a.finished + {x.pid}
            && x !in r.ready)
      && (a.remaining[x.pid] > 1 ==> r.results == a.results && r.finished == a.finished)
  {
    RunReady(ps, a, x);
    if a.remaining[x.pid] == 1 {
      assert !Pending(ps, RunUnit(a, x), x);
    }
  }
}
