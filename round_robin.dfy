/**
 * Round Robin with a fixed quantum (src/Components/Algorithms/RoundRobin.ts).
 *
 * `runRoundRobin` takes the head of the ready queue, runs it for
 * min(quantum, remaining) consecutive ticks (admitting the arrivals of every
 * tick it passes), then records it or pushes it back to the tail.
 * `RrIteration` is one iteration of its outer loop as a function, `RrRun` the
 * whole loop, and `RunRoundRobin` is proved to produce what they describe.
 * The incremental engine (`createRoundRobinEngine`) is a state machine over
 * `EngineState` and the class `RoundRobinEngine`.
 */
module RoundRobin {
  import opened Sorting
  import opened Common

  // ---------------------------------------------------------------------------
  // runRoundRobin as a state machine

  /** The loop's variables: the clock, `remaining`, `ready`, `finished`, the output so far, and `executed`. */
  datatype RrState = RrState(
    t: int,
    remaining: map<int, int>,
    ready: seq<Process>,
    finished: set<int>,
    history: seq<ExecutionStep>,
    results: seq<ProcessResult>,
    executed: int)

  function RrInit(ps: seq<Process>): RrState {
    RrState(0, InitialRemaining(ps), [], {}, [], [], 0)
  }

  /** The smaller of two integers: a slice is the quantum or the remaining time, whichever is less. */
  function Min(a: int, b: int): int {
    if a < b then a else b
  }

  /** `enqueueArrivals()` at the clock's tick: the processes arriving now join the queue, in input order, with no duplicate check. */
  function Admitted(ps: seq<Process>, s: RrState): RrState {
    s.(ready := s.ready + ArrivingAt(ps, s.t))
  }

  /** The processes of `ps` arriving at the ticks lo, lo + 1, ..., hi, tick by tick and in input order within a tick. */
  function ArrivalsBetween(ps: seq<Process>, lo: int, hi: int): (r: seq<Process>)
    ensures forall x :: x in r <==> x in ps && lo <= x.arrivalTime <= hi
    ensures forall i, j :: 0 <= i < j < |r| ==> r[i].arrivalTime <= r[j].arrivalTime
    decreases if lo <= hi then hi - lo + 1 else 0
  {
    if lo > hi then []
    else
      var now, later := ArrivingAt(ps, lo), ArrivalsBetween(ps, lo + 1, hi);
      assert forall i :: 0 <= i < |now| ==> now[i] in now;
      assert forall j :: 0 <= j < |later| ==> later[j] in later;
      now + later
  }

  /**
   * The steps of a slice of `n` units of `p` from tick `start`, `rem0` units
   * being left before it: one per tick, remaining time rem0 - 1 down to
   * rem0 - n, all with one snapshot.
   */
  function SliceSteps(p: Process, start: int, rem0: int, n: nat, queueBefore: QueueSnapshot): seq<ExecutionStep> {
    seq(n, k requires 0 <= k < n => ExecutionStep(start + k, p.pid, p.name, rem0 - 1 - k, queueBefore))
  }

  /**
   * One pass of the inner `for` loop: the step of unit `i` is logged, the
   * clock advances and the processes arriving at the new tick join the queue.
   */
  function Unit(ps: seq<Process>, s: RrState, p: Process, queueBefore: QueueSnapshot, rem0: int, i: int): RrState {
    var step := ExecutionStep(s.t, p.pid, p.name, rem0 - 1 - i, queueBefore);
    s.(history := s.history + [step], t := s.t + 1, ready := s.ready + ArrivingAt(ps, s.t + 1))
  }

  /** The inner `for` loop from unit `i` to unit `n`. */
  function Slice(ps: seq<Process>, s: RrState, p: Process, queueBefore: QueueSnapshot, rem0: int, i: int, n: int): RrState
    decreases n - i
  {
    if n <= i then s
    else Slice(ps, Unit(ps, s, p, queueBefore, rem0, i), p, queueBefore, rem0, i + 1, n)
  }

  /**
   * After the slice: `remaining` and `executed` are updated; at 0 the process
   * is recorded as finishing now and marked finished, otherwise it goes back
   * to the tail of the queue.
   */
  function EndSlice(b: RrState, p: Process, rem0: int, n: int): RrState {
    var c := b.(remaining := b.remaining[p.pid := rem0 - n], executed := b.executed + n);
    if rem0 - n == 0 then c.(results := c.results + [MakeResult(p, c.t)], finished := c.finished + {p.pid})
    else c.(ready := c.ready + [p])
  }

  /** A turn of the queue head `a.ready[0]`: a slice of min(quantum, remaining) units, then its end. */
  function Turn(ps: seq<Process>, quantum: int, a: RrState): RrState
    requires a.ready != [] && a.ready[0].pid in a.remaining
  {
    var p := a.ready[0];
    var rem0 := a.remaining[p.pid];
    var n := Min(quantum, rem0);
    EndSlice(Slice(ps, a.(ready := a.ready[1..]), p, Pids(a.ready), rem0, 0, n), p, rem0, n)
  }

  // ---------------------------------------------------------------------------
  // The inner loop

  /** The inner loop from unit `i` advances the clock by the units left and changes no counter or record. */
  lemma {:induction false} SliceEffect(ps: seq<Process>, s: RrState, p: Process, qb: QueueSnapshot, rem0: int, i: int, n: int)
    requires 0 <= i <= n
    ensures var r := Slice(ps, s, p, qb, rem0, i, n);
      && r.t == s.t + (n - i)
      && r.remaining == s.remaining && r.executed == s.executed
      && r.finished == s.finished && r.results == s.results
    decreases n - i
  {
    if i < n {
      SliceEffect(ps, Unit(ps, s, p, qb, rem0, i), p, qb, rem0, i + 1, n);
    }
  }

  /** Unit `i` of a slice begun at `start` logs step `i` of the slice. */
  lemma UnitHistory(ps: seq<Process>, s: RrState, p: Process, qb: QueueSnapshot, rem0: int,
                    start: int, i: int, n: int)
    requires 0 <= i < n && s.t == start + i
    ensures Unit(ps, s, p, qb, rem0, i).history == s.history + [SliceSteps(p, start, rem0, n, qb)[i]]
  {
  }

  /** The inner loop from unit `i` of a slice begun at `start` logs the rest of the slice's steps. */
  lemma {:induction false} SliceHistory(ps: seq<Process>, s: RrState, p: Process, qb: QueueSnapshot, rem0: int,
                                        start: int, i: int, n: int)
    requires 0 <= i <= n && s.t == start + i
    ensures Slice(ps, s, p, qb, rem0, i, n).history == s.history + SliceSteps(p, start, rem0, n, qb)[i..]
    decreases n - i
  {
    var steps := SliceSteps(p, start, rem0, n, qb);
    if i < n {
      var u := Unit(ps, s, p, qb, rem0, i);
      SliceHistory(ps, u, p, qb, rem0, start, i + 1, n);
      var rest := steps[i + 1..];
      UnitHistory(ps, s, p, qb, rem0, start, i, n);
      AppendAssoc(s.history, [steps[i]], rest);
      assert steps[i..] == [steps[i]] + rest;
    } else {
      assert steps[i..] == [];
    }
  }

  /** The inner loop from unit `i` of a slice begun at `start` appends the arrivals of the ticks it passes, in order. */
  lemma {:induction false} SliceReady(ps: seq<Process>, s: RrState, p: Process, qb: QueueSnapshot, rem0: int,
                                      start: int, i: int, n: int)
    requires 0 <= i <= n && s.t == start + i
    ensures Slice(ps, s, p, qb, rem0, i, n).ready == s.ready + ArrivalsBetween(ps, start + i + 1, start + n)
    decreases n - i
  {
    if i < n {
      var u := Unit(ps, s, p, qb, rem0, i);
      SliceReady(ps, u, p, qb, rem0, start, i + 1, n);
      AppendAssoc(s.ready, ArrivingAt(ps, start + i + 1), ArrivalsBetween(ps, start + i + 2, start + n));
    }
  }

  // ---------------------------------------------------------------------------
  // The loop invariant

  /**
   * Every input process has a remaining time between 0 and its burst, has
   * used no more CPU than the ticks since its arrival, and nothing else has a
   * remaining time.
   */
  ghost predicate ProgressOk(ps: seq<Process>, s: RrState) {
    && s.remaining.Keys == Elems(Pids(ps))
    && (forall x :: x in ps ==>
          && x.pid in s.remaining
          && 0 <= s.remaining[x.pid] <= x.burstTime
          && x.burstTime - s.remaining[x.pid] <= Elapsed(s.t, x))
  }

  /**
   * Queued entries are input processes that have arrived; every process with
   * work left that arrived before `horizon` is queued (possibly more than once).
   */
  ghost predicate ReadyOk(ps: seq<Process>, s: RrState, horizon: int) {
    && (forall x :: x in s.ready ==> x in ps && x.arrivalTime <= s.t)
    && (forall x :: x in ps && x.pid in s.remaining && s.remaining[x.pid] > 0 && x.arrivalTime < horizon ==> x in s.ready)
  }

  /**
   * `finished` holds the pids with no work left, which are the results'
   * pids; every result is a record of its process.
   */
  ghost predicate FinishedOk(ps: seq<Process>, s: RrState) {
    && (forall pid :: pid in s.finished <==> pid in s.remaining && s.remaining[pid] == 0)
    && Elems(ResultPids(s.results)) == s.finished
    && (forall r :: r in s.results ==> Recorded(r, ps))
  }

  /** One step per executed unit, at strictly increasing ticks before the clock; `executed` is the work done. */
  ghost predicate HistoryOk(ps: seq<Process>, s: RrState)
    requires ProgressOk(ps, s)
  {
    && TimesWithin(s.history, 0, s.t)
    && TimesIncrease(s.history)
    && |s.history| == s.executed
    && s.executed == SumBurst(ps) - SumRemaining(ps, s.remaining)
  }

  ghost predicate InvWith(ps: seq<Process>, s: RrState, horizon: int) {
    && ValidInput(ps)
    && 0 <= s.t
    && ProgressOk(ps, s)
    && ReadyOk(ps, s, horizon)
    && FinishedOk(ps, s)
    && HistoryOk(ps, s)
  }

  ghost predicate RrInv(ps: seq<Process>, s: RrState) {
    InvWith(ps, s, s.t)
  }

  lemma InitInv(ps: seq<Process>)
    requires ValidInput(ps)
    ensures RrInv(ps, RrInit(ps))
  {
    var s := RrInit(ps);
    forall i | 0 <= i < |ps| ensures ps[i].pid in s.remaining && s.remaining[ps[i].pid] == ps[i].burstTime {
      assert ps[i] in ps;
    }
    SumRemainingIsBurst(ps, s.remaining);
  }

  /** The number of queue entries whose process has no work left. */
  function Stale(q: seq<Process>, rem: map<int, int>): nat {
    if q == [] then 0
    else (if q[0].pid in rem && rem[q[0].pid] == 0 then 1 else 0) + Stale(q[1..], rem)
  }

  lemma {:induction false} StaleAppend(a: seq<Process>, b: seq<Process>, rem: map<int, int>)
    ensures Stale(a + b, rem) == Stale(a, rem) + Stale(b, rem)
    decreases |a|
  {
    if a == [] {
      assert a + b == b;
    } else {
      StaleAppend(a[1..], b, rem);
      assert (a + b)[1..] == a[1..] + b;
    }
  }

  lemma {:induction false} StaleNone(q: seq<Process>, rem: map<int, int>)
    requires forall x :: x in q ==> x.pid in rem && rem[x.pid] > 0
    ensures Stale(q, rem) == 0
    decreases |q|
  {
    if q != [] {
      assert q[0] in q;
      assert forall x :: x in q[1..] ==> x in q;
      StaleNone(q[1..], rem);
    }
  }

  /** The loop's variant, first part: the work not yet executed plus the ticks until the last arrival. */
  function Measure(ps: seq<Process>, s: RrState): nat {
    var total := SumBurst(ps);
    (if s.executed < total then total - s.executed else 0)
      + (if s.t <= MaxArrival(ps) then MaxArrival(ps) + 1 - s.t else 0)
  }

  // ---------------------------------------------------------------------------
  // The invariant across one iteration

  /** After admission every process with work left arrived by tick t is queued; the arrivals all have work left. */
  lemma AdmitOk(ps: seq<Process>, s: RrState)
    requires RrInv(ps, s)
    ensures ReadyOk(ps, Admitted(ps, s), s.t + 1)
    ensures Stale(Admitted(ps, s).ready, s.remaining) == Stale(s.ready, s.remaining)
    ensures forall x :: x in Admitted(ps, s).ready ==> x in ps && x.pid in s.remaining
  {
    var arriving := ArrivingAt(ps, s.t);
    forall x | x in arriving ensures x.pid in s.remaining && s.remaining[x.pid] > 0 {
      assert Elapsed(s.t, x) == 0;
    }
    StaleNone(arriving, s.remaining);
    StaleAppend(s.ready, arriving, s.remaining);
  }

  /** Some input process has work left while less than the total burst is executed. */
  lemma SomePending(ps: seq<Process>, s: RrState)
    requires ValidInput(ps) && ProgressOk(ps, s) && HistoryOk(ps, s) && s.executed < SumBurst(ps)
    ensures exists x :: x in ps && s.remaining[x.pid] > 0
  {
    if forall x :: x in ps ==> s.remaining[x.pid] <= 0 {
      forall i | 0 <= i < |ps| ensures ps[i].pid in s.remaining && s.remaining[ps[i].pid] == 0 {
        assert ps[i] in ps;
      }
      SumRemainingZero(ps, s.remaining);
    }
  }

  /** With nothing queued after admission, some process with work left arrives later: the clock advances and the variant drops. */
  lemma IdleOk(ps: seq<Process>, s: RrState)
    requires RrInv(ps, s) && s.executed < SumBurst(ps) && Admitted(ps, s).ready == []
    ensures RrInv(ps, Admitted(ps, s).(t := s.t + 1))
    ensures Measure(ps, Admitted(ps, s).(t := s.t + 1)) < Measure(ps, s)
  {
    var a := Admitted(ps, s);
    var r := a.(t := s.t + 1);
    assert ReadyOk(ps, r, r.t) by {
      AdmitOk(ps, s);
    }
    assert ProgressOk(ps, r) by {
      ClockAdvance(ps, s, r);
    }
    assert HistoryOk(ps, r);
    assert s.t < MaxArrival(ps) by {
      AdmitOk(ps, s);
      SomePending(ps, s);
      var x :| x in ps && s.remaining[x.pid] > 0;
      assert x !in a.ready;
      var i :| 0 <= i < |ps| && ps[i] == x;
    }
  }

  /** Progress stays within bounds when the clock moves forward and no work is done. */
  lemma ClockAdvance(ps: seq<Process>, s: RrState, r: RrState)
    requires ProgressOk(ps, s) && r.remaining == s.remaining && s.t <= r.t
    ensures ProgressOk(ps, r)
  {
    forall y | y in ps ensures y.burstTime - r.remaining[y.pid] <= Elapsed(r.t, y) {
      assert Elapsed(s.t, y) <= Elapsed(r.t, y);
    }
  }

  /**
   * The facts about a turn of the queue head `p` that the invariant needs,
   * with `b` the state after its slice of `n` units.
   */
  ghost predicate SliceDone(ps: seq<Process>, a: RrState, b: RrState, p: Process, rem0: int, n: int) {
    && a.ready != [] && p == a.ready[0] && p.pid in a.remaining && rem0 == a.remaining[p.pid]
    && 0 <= n <= rem0
    && b.t == a.t + n && b.remaining == a.remaining && b.executed == a.executed
    && b.finished == a.finished && b.results == a.results
    && b.ready == a.ready[1..] + ArrivalsBetween(ps, a.t + 1, a.t + n)
    && b.history == a.history + SliceSteps(p, a.t, rem0, n, Pids(a.ready))
  }

  /** The inner loop of a turn establishes `SliceDone`. */
  lemma TurnSlice(ps: seq<Process>, a: RrState, p: Process, rem0: int, n: int)
    requires a.ready != [] && p == a.ready[0] && p.pid in a.remaining && rem0 == a.remaining[p.pid] && 0 <= n <= rem0
    ensures SliceDone(ps, a, Slice(ps, a.(ready := a.ready[1..]), p, Pids(a.ready), rem0, 0, n), p, rem0, n)
  {
    var a1 := a.(ready := a.ready[1..]);
    SliceEffect(ps, a1, p, Pids(a.ready), rem0, 0, n);
    SliceHistory(ps, a1, p, Pids(a.ready), rem0, a.t, 0, n);
    SliceReady(ps, a1, p, Pids(a.ready), rem0, a.t, 0, n);
    assert SliceSteps(p, a.t, rem0, n, Pids(a.ready))[0..] == SliceSteps(p, a.t, rem0, n, Pids(a.ready));
  }

  /** A turn of `n` units of `p` keeps every process's progress within bounds and lowers the total remaining time by `n`. */
  lemma EndProgress(ps: seq<Process>, a: RrState, f: RrState, p: Process, rem0: int, n: int)
    requires UniquePids(ps) && ProgressOk(ps, a) && p in ps && p.arrivalTime <= a.t
    requires rem0 == a.remaining[p.pid] && 0 <= n <= rem0
    requires f.t == a.t + n && f.remaining == a.remaining[p.pid := rem0 - n]
    ensures ProgressOk(ps, f)
    ensures SumRemaining(ps, f.remaining) == SumRemaining(ps, a.remaining) - n
    ensures 0 <= SumRemaining(ps, f.remaining)
  {
    assert Elapsed(f.t, p) == Elapsed(a.t, p) + n;
    ProgressUpdate(ps, a, f, p, rem0 - n);
    SumRemainingUpdate(ps, a.remaining, p, rem0 - n);
    SumRemainingNonNegative(ps, f.remaining);
  }

  /** Setting one process's remaining time to `v` keeps progress within bounds if `v` itself is. */
  lemma ProgressUpdate(ps: seq<Process>, a: RrState, f: RrState, p: Process, v: int)
    requires UniquePids(ps) && ProgressOk(ps, a) && p in ps && a.t <= f.t
    requires f.remaining == a.remaining[p.pid := v]
    requires 0 <= v <= a.remaining[p.pid] && p.burstTime - v <= Elapsed(f.t, p)
    ensures ProgressOk(ps, f)
  {
    forall x | x in ps
      ensures x.pid in f.remaining && 0 <= f.remaining[x.pid] <= x.burstTime
      ensures x.burstTime - f.remaining[x.pid] <= Elapsed(f.t, x)
    {
      if x.pid == p.pid {
        SamePidSameProcess(ps, x, p);
      } else {
        assert Elapsed(a.t, x) <= Elapsed(f.t, x);
      }
    }
  }

  /** After a turn, every process with work left that has arrived is queued, the one just run included. */
  lemma EndReady(ps: seq<Process>, a: RrState, b: RrState, p: Process, rem0: int, n: int)
    requires UniquePids(ps) && ReadyOk(ps, a, a.t + 1) && SliceDone(ps, a, b, p, rem0, n)
    ensures ReadyOk(ps, EndSlice(b, p, rem0, n), b.t)
  {
    var f := EndSlice(b, p, rem0, n);
    assert p in a.ready;
    assert forall x :: x in a.ready ==> x == p || x in a.ready[1..] by {
      forall x | x in a.ready ensures x == p || x in a.ready[1..] {
        var i :| 0 <= i < |a.ready| && a.ready[i] == x;
        if i > 0 {
          assert a.ready[1..][i - 1] == x;
        }
      }
    }
    forall x | x in ps && x.pid in f.remaining && f.remaining[x.pid] > 0 && x.arrivalTime < f.t ensures x in f.ready {
      if x.pid == p.pid {
        SamePidSameProcess(ps, x, p);
      } else if x.arrivalTime <= a.t {
        assert x in a.ready;
      }
    }
  }

  /** After a turn, `finished` and the results account for exactly the processes with no work left. */
  lemma EndFinished(ps: seq<Process>, a: RrState, b: RrState, p: Process, rem0: int, n: int)
    requires ProgressOk(ps, a) && FinishedOk(ps, a) && SliceDone(ps, a, b, p, rem0, n)
    requires p in ps && p.arrivalTime <= a.t
    ensures FinishedOk(ps, EndSlice(b, p, rem0, n))
  {
    var f := EndSlice(b, p, rem0, n);
    if rem0 - n == 0 {
      var res := MakeResult(p, b.t);
      assert ResultPids(f.results) == ResultPids(a.results) + [p.pid];
      ElemsAppend(ResultPids(a.results), p.pid);
      assert p.burstTime - (rem0 - n) <= Elapsed(a.t, p) + n;
      assert Recorded(res, ps);
    }
  }

  /** After a turn, the history holds one more step per unit of the slice, at the ticks the slice used. */
  lemma EndHistory(ps: seq<Process>, a: RrState, b: RrState, p: Process, rem0: int, n: int)
    requires ProgressOk(ps, a) && HistoryOk(ps, a) && 0 <= a.t && SliceDone(ps, a, b, p, rem0, n)
    requires ProgressOk(ps, EndSlice(b, p, rem0, n))
    requires SumRemaining(ps, EndSlice(b, p, rem0, n).remaining) == SumRemaining(ps, a.remaining) - n
    ensures HistoryOk(ps, EndSlice(b, p, rem0, n))
  {
    EndShape(b, p, rem0, n);
    var steps := SliceSteps(p, a.t, rem0, n, Pids(a.ready));
    assert TimesWithin(steps, a.t, a.t + n) && TimesIncrease(steps);
    ConcatTimes(a.history, steps, 0, a.t, a.t + n);
  }

  /**
   * A turn keeps the invariant; it lowers the variant, or, when the head had
   * no work left, keeps it and removes that stale entry.
   */
  lemma TurnOk(ps: seq<Process>, quantum: int, s: RrState)
    requires RrInv(ps, s) && quantum >= 1 && Admitted(ps, s).ready != []
    ensures Admitted(ps, s).ready[0].pid in s.remaining
    ensures RrInv(ps, Turn(ps, quantum, Admitted(ps, s)))
    ensures var r := Turn(ps, quantum, Admitted(ps, s));
      || Measure(ps, r) < Measure(ps, s)
      || (Measure(ps, r) == Measure(ps, s) && Stale(r.ready, r.remaining) < Stale(s.ready, s.remaining))
  {
    var a := Admitted(ps, s);
    AdmitOk(ps, s);
    assert InvWith(ps, a, a.t + 1);
    assert Measure(ps, a) == Measure(ps, s) && a.remaining == s.remaining;
    TurnFrom(ps, quantum, a);
  }

  /** The turn of the head of the admitted queue `a`. */
  lemma TurnFrom(ps: seq<Process>, quantum: int, a: RrState)
    requires InvWith(ps, a, a.t + 1) && quantum >= 1 && a.ready != []
    ensures a.ready[0].pid in a.remaining
    ensures RrInv(ps, Turn(ps, quantum, a))
    ensures var r := Turn(ps, quantum, a);
      || Measure(ps, r) < Measure(ps, a)
      || (Measure(ps, r) == Measure(ps, a) && Stale(r.ready, r.remaining) < Stale(a.ready, a.remaining))
  {
    var p := a.ready[0];
    assert p in a.ready;
    var rem0 := a.remaining[p.pid];
    var n := Min(quantum, rem0);
    TurnSlice(ps, a, p, rem0, n);
    var b := Slice(ps, a.(ready := a.ready[1..]), p, Pids(a.ready), rem0, 0, n);
    assert Turn(ps, quantum, a) == EndSlice(b, p, rem0, n);
    TurnEnd(ps, a, b, p, rem0, n);
    TurnDecreases(ps, a, b, p, rem0, n);
  }

  /** The end of a turn restores the invariant at the new clock, and the work executed stays within the total. */
  lemma TurnEnd(ps: seq<Process>, a: RrState, b: RrState, p: Process, rem0: int, n: int)
    requires InvWith(ps, a, a.t + 1) && SliceDone(ps, a, b, p, rem0, n)
    ensures RrInv(ps, EndSlice(b, p, rem0, n))
    ensures a.executed + n <= SumBurst(ps)
  {
    assert p in a.ready;
    EndWork(ps, a, b, p, rem0, n);
    EndReady(ps, a, b, p, rem0, n);
    EndFinished(ps, a, b, p, rem0, n);
  }

  /** The end of a turn keeps progress and history consistent with the work done. */
  lemma EndWork(ps: seq<Process>, a: RrState, b: RrState, p: Process, rem0: int, n: int)
    requires ValidInput(ps) && 0 <= a.t && ProgressOk(ps, a) && HistoryOk(ps, a) && SliceDone(ps, a, b, p, rem0, n)
    requires p in ps && p.arrivalTime <= a.t
    ensures ProgressOk(ps, EndSlice(b, p, rem0, n)) && HistoryOk(ps, EndSlice(b, p, rem0, n))
    ensures a.executed + n <= SumBurst(ps)
  {
    var f := EndSlice(b, p, rem0, n);
    EndShape(b, p, rem0, n);
    EndProgress(ps, a, f, p, rem0, n);
    EndHistory(ps, a, b, p, rem0, n);
  }

  /** The end of a slice keeps the clock and sets the remaining time of the process run. */
  lemma EndShape(b: RrState, p: Process, rem0: int, n: int)
    ensures EndSlice(b, p, rem0, n).t == b.t
    ensures EndSlice(b, p, rem0, n).remaining == b.remaining[p.pid := rem0 - n]
    ensures EndSlice(b, p, rem0, n).executed == b.executed + n
    ensures EndSlice(b, p, rem0, n).history == b.history
  {
  }

  /** A turn lowers the variant, or runs nothing and removes a stale entry from the queue. */
  lemma TurnDecreases(ps: seq<Process>, a: RrState, b: RrState, p: Process, rem0: int, n: int)
    requires SliceDone(ps, a, b, p, rem0, n) && a.executed + n <= SumBurst(ps)
    requires n == 0 ==> b.t == a.t && rem0 == 0
    ensures var f := EndSlice(b, p, rem0, n);
      || Measure(ps, f) < Measure(ps, a)
      || (Measure(ps, f) == Measure(ps, a) && Stale(f.ready, f.remaining) < Stale(a.ready, a.remaining))
  {
    if n == 0 {
      var f := EndSlice(b, p, rem0, n);
      assert f.remaining == a.remaining;
      assert ArrivalsBetween(ps, a.t + 1, a.t + n) == [];
      assert f.ready == a.ready[1..];
      assert Measure(ps, f) == Measure(ps, a);
      StaleHead(a.ready, a.remaining);
    }
  }

  /** Taking a stale entry off the front of the queue lowers the stale count by one. */
  lemma StaleHead(q: seq<Process>, rem: map<int, int>)
    requires q != [] && q[0].pid in rem && rem[q[0].pid] == 0
    ensures Stale(q[1..], rem) == Stale(q, rem) - 1
  {
  }

  /**
   * One iteration of the outer `while` loop: admit the arrivals of tick t;
   * with an empty queue advance the clock; otherwise give the head its turn.
   */
  function RrIteration(ps: seq<Process>, quantum: int, s: RrState): RrState
    requires RrInv(ps, s)
  {
    AdmitOk(ps, s);
    var a := Admitted(ps, s);
    if a.ready == [] then a.(t := a.t + 1)
    else
      assert a.ready[0] in a.ready;
      Turn(ps, quantum, a)
  }

  /** An iteration keeps the invariant and, while work is left, lowers the variant (work and time, then stale entries). */
  lemma IterationOk(ps: seq<Process>, quantum: int, s: RrState)
    requires RrInv(ps, s) && quantum >= 1 && s.executed < SumBurst(ps)
    ensures RrInv(ps, RrIteration(ps, quantum, s))
    ensures var r := RrIteration(ps, quantum, s);
      || Measure(ps, r) < Measure(ps, s)
      || (Measure(ps, r) == Measure(ps, s) && Stale(r.ready, r.remaining) < Stale(s.ready, s.remaining))
  {
    if Admitted(ps, s).ready == [] {
      IdleOk(ps, s);
    } else {
      TurnOk(ps, quantum, s);
    }
  }

  /** The `while (executed < totalBurst)` loop from state `s`, to the state it stops in. */
  function RrRun(ps: seq<Process>, quantum: int, s: RrState): RrState
    requires RrInv(ps, s) && quantum >= 1
    decreases Measure(ps, s), Stale(s.ready, s.remaining)
  {
    if s.executed >= SumBurst(ps) then s
    else
      IterationOk(ps, quantum, s);
      RrRun(ps, quantum, RrIteration(ps, quantum, s))
  }

  /** The loop stops in a state that keeps the invariant, with all the work executed. */
  lemma {:induction false} RrRunInv(ps: seq<Process>, quantum: int, s: RrState)
    requires RrInv(ps, s) && quantum >= 1
    ensures RrInv(ps, RrRun(ps, quantum, s)) && RrRun(ps, quantum, s).executed >= SumBurst(ps)
    decreases Measure(ps, s), Stale(s.ready, s.remaining)
  {
    if s.executed < SumBurst(ps) {
      IterationOk(ps, quantum, s);
      RrRunInv(ps, quantum, RrIteration(ps, quantum, s));
    }
  }

  /** The state runRoundRobin's loop ends in; it returns the history and the results sorted by name. */
  function RrOutcome(ps: seq<Process>, quantum: int): RrState
    requires ValidInput(ps) && quantum >= 1
  {
    InitInv(ps);
    RrRun(ps, quantum, RrInit(ps))
  }

  // ---------------------------------------------------------------------------
  // What runRoundRobin computes

  /** Every remaining time of a non-negative record that sums to zero is zero. */
  lemma {:induction false} NoneLeft(ps: seq<Process>, rem: map<int, int>)
    requires forall i :: 0 <= i < |ps| ==> ps[i].pid in rem && 0 <= rem[ps[i].pid]
    requires SumRemaining(ps, rem) == 0
    ensures forall i :: 0 <= i < |ps| ==> rem[ps[i].pid] == 0
    decreases |ps|
  {
    if ps != [] {
      var init := ps[..|ps| - 1];
      SumRemainingNonNegative(init, rem);
      NoneLeft(init, rem);
      assert forall i :: 0 <= i < |init| ==> ps[i] == init[i];
    }
  }

  /**
   * When the loop stops, every unit of every burst has been logged exactly
   * once at its own tick, no process has work left, every process has been
   * recorded (some possibly more than once) and every result is a record of
   * its process.
   */
  lemma RrOutcomeFacts(ps: seq<Process>, quantum: int)
    requires ValidInput(ps) && quantum >= 1
    ensures var o := RrOutcome(ps, quantum);
      && |o.history| == SumBurst(ps)
      && TimesWithin(o.history, 0, o.t) && TimesIncrease(o.history)
      && (forall x :: x in ps ==> x.pid in o.remaining && o.remaining[x.pid] == 0)
      && o.finished == Elems(Pids(ps))
      && Elems(ResultPids(o.results)) == Elems(Pids(ps))
      && (forall r :: r in o.results ==> Recorded(r, ps))
  {
    InitInv(ps);
    RrRunInv(ps, quantum, RrInit(ps));
    FinalFacts(ps, RrRun(ps, quantum, RrInit(ps)));
  }

  /** A state keeping the invariant with all the work executed has every process finished and every unit logged. */
  lemma FinalFacts(ps: seq<Process>, o: RrState)
    requires RrInv(ps, o) && o.executed >= SumBurst(ps)
    ensures |o.history| == SumBurst(ps)
    ensures forall x :: x in ps ==> x.pid in o.remaining && o.remaining[x.pid] == 0
    ensures o.finished == Elems(Pids(ps))
  {
    SumRemainingNonNegative(ps, o.remaining);
    NoneLeft(ps, o.remaining);
    forall x | x in ps ensures o.remaining[x.pid] == 0 {
      var i :| 0 <= i < |ps| && ps[i] == x;
    }
    forall pid | pid in Elems(Pids(ps)) ensures pid in o.finished {
      var i :| 0 <= i < |ps| && Pids(ps)[i] == pid;
      assert ps[i] in ps;
    }
  }

  /** With nothing queued and nobody arriving, an iteration only advances the clock. */
  lemma RrIdles(ps: seq<Process>, quantum: int, s: RrState)
    requires RrInv(ps, s) && Admitted(ps, s).ready == []
    ensures RrIteration(ps, quantum, s) == s.(t := s.t + 1)
  {
    assert s.ready + ArrivingAt(ps, s.t) == [];
    assert s.ready == [];
  }

  /*
   * The lemmas below are about `Turn(ps, quantum, a)`, where `a` is the
   * state after admission: when the queue is not empty, that is what
   * `RrIteration` does.
   */

  /** A turn needs the head to have a remaining time that is not negative. */
  ghost predicate HeadOk(a: RrState) {
    a.ready != [] && a.ready[0].pid in a.remaining && a.remaining[a.ready[0].pid] >= 0
  }

  /**
   * The head runs for `run` consecutive ticks from the clock, the lesser of
   * the quantum and its remaining time, each logged with one less unit left
   * and the queue as it stood before the turn; its remaining time drops by
   * `run` and nothing else's changes.
   */
  lemma RrRunsHead(ps: seq<Process>, quantum: int, a: RrState)
    requires quantum >= 1 && HeadOk(a)
    ensures var r, p := Turn(ps, quantum, a), a.ready[0];
      var run := r.t - a.t;
      && 0 <= run <= quantum && run <= a.remaining[p.pid]
      && (run == quantum || run == a.remaining[p.pid])
      && r.history == a.history + SliceSteps(p, a.t, a.remaining[p.pid], run, Pids(a.ready))
      && r.remaining == a.remaining[p.pid := a.remaining[p.pid] - run]
      && r.executed == a.executed + run
  {
    var p := a.ready[0];
    var rem0 := a.remaining[p.pid];
    var n := Min(quantum, rem0);
    TurnSlice(ps, a, p, rem0, n);
    EndShape(Slice(ps, a.(ready := a.ready[1..]), p, Pids(a.ready), rem0, 0, n), p, rem0, n);
  }

  /** A head with no work left after its turn is recorded as finishing at the new clock. */
  lemma RrRecordsHead(ps: seq<Process>, quantum: int, a: RrState)
    requires quantum >= 1 && HeadOk(a)
    ensures var r, p := Turn(ps, quantum, a), a.ready[0];
      p.pid in r.remaining && r.remaining[p.pid] == 0 ==>
        && r.results == a.results + [MakeResult(p, r.t)]
        && r.finished == a.finished + {p.pid}
  {
    var p := a.ready[0];
    var rem0 := a.remaining[p.pid];
    var n := Min(quantum, rem0);
    TurnSlice(ps, a, p, rem0, n);
    EndOutcome(ps, quantum, a, Slice(ps, a.(ready := a.ready[1..]), p, Pids(a.ready), rem0, 0, n), p, rem0, n);
  }

  /**
   * After its turn the queue is the rest of the old queue, then the
   * processes that arrived during the turn, then the head again if it has
   * work left; in that case the head has used a whole quantum and nothing
   * is recorded.
   */
  lemma RrRequeues(ps: seq<Process>, quantum: int, a: RrState)
    requires quantum >= 1 && HeadOk(a)
    ensures var r, p := Turn(ps, quantum, a), a.ready[0];
      && p.pid in r.remaining
      && r.ready == a.ready[1..] + ArrivalsBetween(ps, a.t + 1, r.t) + (if r.remaining[p.pid] == 0 then [] else [p])
      && (r.remaining[p.pid] != 0 ==>
            && r.t == a.t + quantum
            && r.results == a.results && r.finished == a.finished)
  {
    var p := a.ready[0];
    var rem0 := a.remaining[p.pid];
    var n := Min(quantum, rem0);
    TurnSlice(ps, a, p, rem0, n);
    EndOutcome(ps, quantum, a, Slice(ps, a.(ready := a.ready[1..]), p, Pids(a.ready), rem0, 0, n), p, rem0, n);
  }

  /** The end of a turn records a process with no work left and requeues any other, which then used a whole quantum. */
  lemma EndOutcome(ps: seq<Process>, quantum: int, a: RrState, b: RrState, p: Process, rem0: int, n: int)
    requires SliceDone(ps, a, b, p, rem0, n) && n == Min(quantum, rem0)
    ensures var r := EndSlice(b, p, rem0, n);
      && p.pid in r.remaining && r.remaining[p.pid] == rem0 - n
      && r.ready == a.ready[1..] + ArrivalsBetween(ps, a.t + 1, r.t) + (if r.remaining[p.pid] == 0 then [] else [p])
      && (r.remaining[p.pid] == 0 ==> r.results == a.results + [MakeResult(p, r.t)] && r.finished == a.finished + {p.pid})
      && (r.remaining[p.pid] != 0 ==> r.t == a.t + quantum && r.results == a.results && r.finished == a.finished)
  {
    if rem0 - n == 0 {
      assert b.ready + [] == b.ready;
    }
  }

  /**
   * A process arriving at the tick a turn ends on is queued by the inner
   * loop, and the next iteration's admission queues it again at the same
   * tick, so that queue holds it twice.
   */
  lemma RrAdmitsTwice(ps: seq<Process>, quantum: int, a: RrState, x: Process)
    requires quantum >= 1 && HeadOk(a)
    requires x in ps && x.arrivalTime == Turn(ps, quantum, a).t > a.t
    ensures multiset(Admitted(ps, Turn(ps, quantum, a)).ready)[x] >= 2
  {
    var r := Turn(ps, quantum, a);
    RrRequeues(ps, quantum, a);
    var between := ArrivalsBetween(ps, a.t + 1, r.t);
    assert x in between;
    assert x in r.ready;
    var arriving := ArrivingAt(ps, r.t);
    assert x in arriving;
    assert multiset(r.ready + arriving)[x] == multiset(r.ready)[x] + multiset(arriving)[x];
  }

  /**
   * A queue entry of a process that has already finished and been recorded
   * still gets a turn: it runs for no time, and the process is recorded once
   * more, finishing at the current tick.
   */
  lemma RrRecordsAgain(ps: seq<Process>, quantum: int, a: RrState)
    requires quantum >= 1 && HeadOk(a) && FinishedOk(ps, a) && a.ready[0].pid in a.finished
    ensures var r, p := Turn(ps, quantum, a), a.ready[0];
      && p.pid in ResultPids(a.results)
      && r.t == a.t && r.history == a.history
      && r.results == a.results + [MakeResult(p, a.t)]
  {
    var p := a.ready[0];
    assert p.pid in Elems(ResultPids(a.results));
    RrRunsHead(ps, quantum, a);
    RrRecordsHead(ps, quantum, a);
    assert SliceSteps(p, a.t, 0, 0, Pids(a.ready)) == [];
  }

  // ---------------------------------------------------------------------------
  // runRoundRobin as a program

  /** runRoundRobin: the history its loop produces and the results sorted by name. */
  method RunRoundRobin(processes: seq<Process>, quantum: int) returns (history: seq<ExecutionStep>, results: seq<ProcessResult>)
    requires ValidInput(processes) && quantum >= 1
    ensures history == RrOutcome(processes, quantum).history
    ensures results == SortByName(RrOutcome(processes, quantum).results)
  {
    var procs := processes;
    var remaining := CopyBurstTimes(procs);
    var totalBurst := SumBurst(procs);
    InitInv(procs);
    var t, ready, finished, executed;
    t, remaining, ready, finished, history, results, executed :=
      RunLoop(procs, quantum, totalBurst, RrInit(procs), 0, remaining, [], {}, [], [], 0);
    results := SortByName(results);
  }

  /** The `while (executed < totalBurst)` loop of runRoundRobin: from the loop variables `s`, it ends in the state `RrRun` describes. */
  method RunLoop(procs: seq<Process>, quantum: int, totalBurst: int, ghost s: RrState, t: int, remaining: map<int, int>,
                 ready: seq<Process>, finished: set<int>, history: seq<ExecutionStep>, results: seq<ProcessResult>, executed: int)
    returns (t': int, remaining': map<int, int>, ready': seq<Process>, finished': set<int>, history': seq<ExecutionStep>,
             results': seq<ProcessResult>, executed': int)
    requires RrInv(procs, s) && quantum >= 1 && totalBurst == SumBurst(procs)
    requires s == RrState(t, remaining, ready, finished, history, results, executed)
    ensures RrState(t', remaining', ready', finished', history', results', executed') == RrRun(procs, quantum, s)
  {
    t', remaining', ready', finished', history', results', executed' := t, remaining, ready, finished, history, results, executed;
    ghost var S := s;
    while executed' < totalBurst
      invariant S == RrState(t', remaining', ready', finished', history', results', executed')
      invariant RrInv(procs, S) && RrRun(procs, quantum, S) == RrRun(procs, quantum, s)
      decreases Measure(procs, S), Stale(S.ready, S.remaining)
    {
      IterationOk(procs, quantum, S);
      t', remaining', ready', finished', history', results', executed' :=
        Iterate(procs, quantum, S, t', remaining', ready', finished', history', results', executed');
      S := RrIteration(procs, quantum, S);
    }
  }

  /**
   * The body of runRoundRobin's outer loop: admit the arrivals of tick t,
   * then give the queue head its turn; with an empty queue advance the clock.
   */
  method Iterate(procs: seq<Process>, quantum: int, ghost s: RrState, t: int, remaining: map<int, int>,
                 ready: seq<Process>, finished: set<int>, history: seq<ExecutionStep>, results: seq<ProcessResult>, executed: int)
    returns (t': int, remaining': map<int, int>, ready': seq<Process>, finished': set<int>, history': seq<ExecutionStep>,
             results': seq<ProcessResult>, executed': int)
    requires RrInv(procs, s) && s == RrState(t, remaining, ready, finished, history, results, executed)
    ensures RrState(t', remaining', ready', finished', history', results', executed') == RrIteration(procs, quantum, s)
  {
    AdmitOk(procs, s);
    ready' := EnqueueArrivals(ready, procs, t);
    remaining', finished', history', results', executed' := remaining, finished, history, results, executed;
    if ready' == [] {
      t' := t + 1;
      return;
    }
    assert ready'[0] in ready';
    t', remaining', ready', finished', history', results', executed' :=
      TakeTurn(procs, quantum, Admitted(procs, s), t, remaining, ready', finished, history, results, executed);
  }

  /**
   * A turn of the queue head `current`: a slice of min(quantum, remaining)
   * ticks; then `remaining` and `executed` are updated and the process is
   * recorded if it has no work left, or else put back at the tail.
   */
  method TakeTurn(procs: seq<Process>, quantum: int, ghost a: RrState, t: int, remaining: map<int, int>,
                  ready: seq<Process>, finished: set<int>, history: seq<ExecutionStep>, results: seq<ProcessResult>, executed: int)
    returns (t': int, remaining': map<int, int>, ready': seq<Process>, finished': set<int>, history': seq<ExecutionStep>,
             results': seq<ProcessResult>, executed': int)
    requires a == RrState(t, remaining, ready, finished, history, results, executed)
    requires ready != [] && ready[0].pid in remaining
    ensures RrState(t', remaining', ready', finished', history', results', executed') == Turn(procs, quantum, a)
  {
    var queueBefore := Pids(ready);
    var current := ready[0];
    var rem0 := remaining[current.pid];
    var timeSlice := Min(quantum, rem0);
    t', ready', history' := RunSlice(procs, current, queueBefore, rem0, timeSlice, t, remaining, ready[1..], finished, history, results, executed);
    ghost var b := RrState(t', remaining, ready', finished, history', results, executed);
    remaining' := remaining[current.pid := rem0 - timeSlice];
    executed' := executed + timeSlice;
    finished', results' := finished, results;
    if remaining'[current.pid] == 0 {
      results' := results + [MakeResult(current, t')];
      finished' := finished + {current.pid};
    } else {
      ready' := ready' + [current];
    }
    assert RrState(t', remaining', ready', finished', history', results', executed') == EndSlice(b, current, rem0, timeSlice);
  }

  /** The inner `for` loop of runRoundRobin: `timeSlice` units of `current`, one logged step and one admission per tick. */
  method RunSlice(procs: seq<Process>, current: Process, queueBefore: QueueSnapshot, rem0: int, timeSlice: int,
                  t: int, remaining: map<int, int>, ready: seq<Process>, finished: set<int>,
                  history: seq<ExecutionStep>, results: seq<ProcessResult>, executed: int)
    returns (t': int, ready': seq<Process>, history': seq<ExecutionStep>)
    ensures RrState(t', remaining, ready', finished, history', results, executed)
         == Slice(procs, RrState(t, remaining, ready, finished, history, results, executed), current, queueBefore, rem0, 0, timeSlice)
  {
    t', ready', history' := t, ready, history;
    var i := 0;
    while i < timeSlice
      invariant 0 <= i
      invariant Slice(procs, RrState(t', remaining, ready', finished, history', results, executed), current, queueBefore, rem0, i, timeSlice)
             == Slice(procs, RrState(t, remaining, ready, finished, history, results, executed), current, queueBefore, rem0, 0, timeSlice)
      decreases timeSlice - i
    {
      history' := history' + [ExecutionStep(t', current.pid, current.name, rem0 - 1 - i, queueBefore)];
      t' := t' + 1;
      ready' := EnqueueArrivals(ready', procs, t');
      i := i + 1;
    }
  }

  // ---------------------------------------------------------------------------
  // createRoundRobinEngine as a state machine

  /** The quantum the engine uses when it is given none. */
  const DefaultQuantum := 2

  /**
   * The engine's closure variables. `all` is the registration map as the
   * sequence of its values in insertion order, the order `all.values()`
   * visits them; `remaining` holds the remaining time of every registered
   * pid; the running process is not in `ready`; `events` records what the
   * callbacks are given.
   */
  datatype EngineState = EngineState(
    t: int,
    quantum: int,
    remaining: map<int, int>,
    ready: seq<Process>,
    all: seq<Process>,
    finished: set<int>,
    results: seq<ProcessResult>,
    totalBurst: int,
    executed: int,
    current: Option<Process>,
    quantumCounter: int,
    events: Events)

  /** `createRoundRobinEngine({ startTime, quantum })`: an absent quantum is 2. */
  function Start(startTime: int, quantum: Option<int>): EngineState {
    var q := if quantum.Some? then quantum.value else DefaultQuantum;
    EngineState(startTime, q, map[], [], [], {}, [], 0, 0, None, 0, Events([], [], []))
  }

  /** Every queued or running process has a remaining time, so the tick can decrement it. */
  predicate Known(s: EngineState) {
    && (forall x :: x in s.ready ==> x.pid in s.remaining)
    && (s.current.Some? ==> s.current.value.pid in s.remaining)
  }

  /**
   * Registered processes are valid with unique pids, `totalBurst` is their
   * total, each has a remaining time between 0 and its burst, and the
   * finished pids are exactly those with none left.
   */
  ghost predicate RegisteredOk(s: EngineState) {
    && ValidInput(s.all)
    && s.totalBurst == SumBurst(s.all)
    && s.quantum >= 1
    && s.remaining.Keys == Elems(Pids(s.all))
    && (forall x :: x in s.all ==> x.pid in s.remaining && 0 <= s.remaining[x.pid] <= x.burstTime)
    && (forall pid :: pid in s.finished <==> pid in s.remaining && s.remaining[pid] == 0)
  }

  /** No registered process has used more CPU than the ticks since its arrival, up to `clock`. */
  ghost predicate UsageOk(s: EngineState, clock: int) {
    forall x :: x in s.all ==> x.pid in s.remaining && x.burstTime - s.remaining[x.pid] <= Elapsed(clock, x)
  }

  /**
   * `ready` holds registered, arrived processes with work left, one entry
   * per pid, none of them the running process.
   */
  ghost predicate QueueOk(s: EngineState, clock: int) {
    && Distinct(Pids(s.ready))
    && forall x :: x in s.ready ==>
         && x in s.all && x.arrivalTime <= clock && x.pid in s.remaining && s.remaining[x.pid] > 0
         && (s.current.Some? ==> x.pid != s.current.value.pid)
  }

  /**
   * The running process is registered, has arrived, has work left and has
   * run at least `quantumCounter` units. Between ticks (`!mid`) it has run
   * 1 to quantum units of its turn; in the middle of a tick, after the
   * quantum check, fewer than quantum.
   */
  ghost predicate CurrentOk(s: EngineState, clock: int, mid: bool) {
    s.current.Some? ==>
      var p := s.current.value;
      && p in s.all && p.arrivalTime <= clock
      && p.pid in s.remaining && 1 <= s.remaining[p.pid]
      && s.quantumCounter <= p.burstTime - s.remaining[p.pid]
      && (if mid then 0 <= s.quantumCounter < s.quantum else 1 <= s.quantumCounter <= s.quantum)
  }

  /**
   * One result per finished pid, each the record of a registered process;
   * onFinish has been given the same results.
   */
  ghost predicate ResultsOk(s: EngineState) {
    && Distinct(ResultPids(s.results))
    && Elems(ResultPids(s.results)) == s.finished
    && (forall r :: r in s.results ==> Recorded(r, s.all))
    && multiset(s.events.finishes) == multiset(s.results)
  }

  /** `executed` is the registered work minus the work left. */
  ghost predicate WorkOk(s: EngineState)
    requires forall x :: x in s.all ==> x.pid in s.remaining
  {
    s.executed == SumBurst(s.all) - SumRemaining(s.all, s.remaining)
  }

  /** Every registered process with work left that arrived before `horizon` is queued or running. */
  ghost predicate NoneLost(s: EngineState, horizon: int) {
    forall x :: x in s.all && x.arrivalTime < horizon && x.pid in s.remaining && s.remaining[x.pid] > 0 ==>
      x in s.ready || s.current == Some(x)
  }

  /** The engine invariant, the clock being at `clock` and the arrivals before `horizon` admitted. */
  ghost predicate InvAt(s: EngineState, clock: int, horizon: int, mid: bool) {
    && RegisteredOk(s)
    && UsageOk(s, clock)
    && QueueOk(s, clock)
    && CurrentOk(s, clock, mid)
    && ResultsOk(s)
    && WorkOk(s)
    && NoneLost(s, horizon)
  }

  /** Between ticks: everything that arrived before `t` has been admitted. */
  ghost predicate EngineInv(s: EngineState) {
    InvAt(s, s.t, s.t, false)
  }

  /** The engine starts empty and keeps the invariant, with the given quantum or 2. */
  lemma StartInv(startTime: int, quantum: Option<int>)
    requires quantum.Some? ==> quantum.value >= 1
    ensures EngineInv(Start(startTime, quantum))
    ensures Start(startTime, quantum).quantum == (if quantum.Some? then quantum.value else 2)
  {
  }

  /**
   * `addProcess`: a known pid is ignored; otherwise the process is
   * registered with its whole burst remaining, the burst is added to
   * `totalBurst`, and it is queued at once if it has already arrived.
   */
  function AfterAdd(s: EngineState, p: Process): EngineState {
    if p.pid in Pids(s.all) then s
    else
      s.(all := s.all + [p], remaining := s.remaining[p.pid := p.burstTime],
         totalBurst := s.totalBurst + p.burstTime,
         ready := if p.arrivalTime <= s.t then s.ready + [p] else s.ready)
  }

  /**
   * addProcess keeps the invariant; afterwards the pid is registered, and a
   * new process has its whole burst left and is queued if it has arrived.
   */
  lemma AddPreservesInv(s: EngineState, p: Process)
    requires EngineInv(s) && ValidProcess(p)
    ensures EngineInv(AfterAdd(s, p))
    ensures p.pid in Pids(AfterAdd(s, p).all)
    ensures p.pid !in Pids(s.all) ==>
      && AfterAdd(s, p).remaining[p.pid] == p.burstTime
      && (p.arrivalTime <= s.t <==> p in AfterAdd(s, p).ready)
  {
    var r := AfterAdd(s, p);
    if p.pid !in Pids(s.all) {
      assert p.pid !in Elems(Pids(s.all));
      AppendFreshPid(s.all, p);
      assert p.pid !in s.remaining;
      AddKeepsRegistered(s, p);
      AddKeepsUsage(s, p);
      AddKeepsQueue(s, p);
      AddKeepsWork(s, p);
      AddKeepsResults(s, p);
      if p in s.ready {
        PidIn(s.all, p);
      }
    } else {
      assert r == s;
    }
  }

  lemma AddKeepsRegistered(s: EngineState, p: Process)
    requires RegisteredOk(s) && UsageOk(s, s.t) && ValidProcess(p) && p.pid !in Pids(s.all)
    requires Pids(s.all + [p]) == Pids(s.all) + [p.pid] && Distinct(Pids(s.all + [p]))
    ensures RegisteredOk(AfterAdd(s, p))
  {
    var r := AfterAdd(s, p);
    assert r.all == s.all + [p] && r.remaining == s.remaining[p.pid := p.burstTime];
    assert r.finished == s.finished && r.quantum == s.quantum && r.totalBurst == s.totalBurst + p.burstTime;
    AddKeepsTotals(s, p);
    AddKeepsKeys(s.remaining, s.all, p);
    AddKeepsRanges(s.all, s.remaining, s.t, p);
  }

  lemma AddKeepsUsage(s: EngineState, p: Process)
    requires RegisteredOk(s) && UsageOk(s, s.t) && ValidProcess(p) && p.pid !in Pids(s.all) && p.pid !in s.remaining
    ensures UsageOk(AfterAdd(s, p), s.t)
  {
    var r := AfterAdd(s, p);
    assert r.all == s.all + [p] && r.remaining == s.remaining[p.pid := p.burstTime];
    AddKeepsRanges(s.all, s.remaining, s.t, p);
  }

  /** Registering `p` adds its pid to the keys, with a non-zero remaining time. */
  lemma AddKeepsKeys(remaining: map<int, int>, all: seq<Process>, p: Process)
    requires remaining.Keys == Elems(Pids(all)) && Pids(all + [p]) == Pids(all) + [p.pid] && ValidProcess(p)
    ensures remaining[p.pid := p.burstTime].Keys == Elems(Pids(all + [p]))
    ensures p.burstTime != 0
  {
    ElemsAppend(Pids(all), p.pid);
  }

  /** A new process has its whole burst left, and the others keep theirs. */
  lemma AddKeepsRanges(all: seq<Process>, remaining: map<int, int>, clock: int, p: Process)
    requires forall x :: x in all ==> x.pid in remaining && 0 <= remaining[x.pid] <= x.burstTime
    requires forall x :: x in all ==> x.pid in remaining && x.burstTime - remaining[x.pid] <= Elapsed(clock, x)
    requires ValidProcess(p) && p.pid !in remaining
    ensures forall x :: x in all + [p] ==>
      && x.pid in remaining[p.pid := p.burstTime]
      && 0 <= remaining[p.pid := p.burstTime][x.pid] <= x.burstTime
      && x.burstTime - remaining[p.pid := p.burstTime][x.pid] <= Elapsed(clock, x)
  {
    forall x | x in all + [p]
      ensures x.pid in remaining[p.pid := p.burstTime]
      ensures 0 <= remaining[p.pid := p.burstTime][x.pid] <= x.burstTime
      ensures x.burstTime - remaining[p.pid := p.burstTime][x.pid] <= Elapsed(clock, x)
    {
      if x != p {
        assert x in all;
      }
    }
  }

  lemma AddKeepsTotals(s: EngineState, p: Process)
    requires ValidInput(s.all) && s.totalBurst == SumBurst(s.all) && ValidProcess(p)
    requires Distinct(Pids(s.all + [p]))
    ensures ValidInput(s.all + [p]) && s.totalBurst + p.burstTime == SumBurst(s.all + [p])
  {
    SumBurstConcat(s.all, [p]);
    assert SumBurst([p]) == p.burstTime by {
      assert [p][..0] == [];
    }
    assert forall x :: x in s.all + [p] ==> x in s.all || x == p;
  }

  lemma AddKeepsQueue(s: EngineState, p: Process)
    requires RegisteredOk(s) && QueueOk(s, s.t) && CurrentOk(s, s.t, false) && NoneLost(s, s.t)
    requires ValidProcess(p) && p.pid !in Elems(Pids(s.all))
    ensures QueueOk(AfterAdd(s, p), s.t) && CurrentOk(AfterAdd(s, p), s.t, false) && NoneLost(AfterAdd(s, p), s.t)
  {
    var r := AfterAdd(s, p);
    assert p.pid !in s.remaining;
    if s.current.Some? {
      PidIn(s.all, s.current.value);
    }
    forall x | x in s.ready ensures x.pid != p.pid {
      PidIn(s.all, x);
    }
    if p.arrivalTime <= s.t {
      assert p.pid !in Elems(Pids(s.ready));
      AppendFreshPid(s.ready, p);
    }
    assert QueueOk(r, s.t);
  }

  lemma AddKeepsWork(s: EngineState, p: Process)
    requires RegisteredOk(s) && WorkOk(s) && p.pid !in s.remaining
    ensures var r := AfterAdd(s, p);
      && (forall x :: x in r.all ==> x.pid in r.remaining)
      && WorkOk(r)
  {
    var r := AfterAdd(s, p);
    assert r.all[..|r.all| - 1] == s.all;
    forall i | 0 <= i < |s.all| ensures s.all[i].pid in s.remaining && s.all[i].pid != p.pid {
      assert s.all[i] in s.all;
    }
    SumRemainingOther(s.all, s.remaining, p.pid, p.burstTime);
    SumBurstConcat(s.all, [p]);
    assert SumBurst([p]) == p.burstTime by {
      assert [p][..0] == [];
    }
  }

  lemma AddKeepsResults(s: EngineState, p: Process)
    requires ResultsOk(s)
    ensures ResultsOk(AfterAdd(s, p))
  {
    var r := AfterAdd(s, p);
    forall x | x in r.results ensures Recorded(x, r.all) {
      var q :| q in s.all && Describes(x, q);
      assert q in r.all;
    }
  }

  /**
   * `enqueueArrivalsAt(time)` over the registered processes `all`, in
   * registration order: each one arriving at `time` with work left and no
   * queued entry of its pid is appended to `ready`.
   */
  function AdmitFrom(all: seq<Process>, ready: seq<Process>, remaining: map<int, int>, time: int): (r: seq<Process>)
    ensures |ready| <= |r| && r[..|ready|] == ready
    ensures forall x :: x in r ==>
      x in ready || (x in all && x.arrivalTime == time && x.pid in remaining && remaining[x.pid] > 0)
  {
    if all == [] then ready
    else
      var r0, p := AdmitFrom(all[..|all| - 1], ready, remaining, time), all[|all| - 1];
      assert forall x :: x in all[..|all| - 1] ==> x in all;
      if p.arrivalTime == time && p.pid in remaining && remaining[p.pid] > 0 && FindPid(r0, p.pid) == -1 then
        assert (r0 + [p])[..|ready|] == r0[..|ready|];
        r0 + [p]
      else r0
  }

  /**
   * Admission never queues a pid twice: drawing on processes with unique
   * pids (all of `universe`), it keeps the queue free of repeated pids, keeps
   * every queued entry, and leaves every process of `all` arriving at
   * `time` with work left queued.
   */
  lemma {:induction false} AdmitFromOk(universe: seq<Process>, all: seq<Process>, ready: seq<Process>, remaining: map<int, int>, time: int)
    requires UniquePids(universe) && Distinct(Pids(ready))
    requires forall x :: x in all ==> x in universe
    requires forall x :: x in ready ==> x in universe
    ensures Distinct(Pids(AdmitFrom(all, ready, remaining, time)))
    ensures forall x :: x in ready ==> x in AdmitFrom(all, ready, remaining, time)
    ensures forall x :: x in all && x.arrivalTime == time && x.pid in remaining && remaining[x.pid] > 0 ==>
      x in AdmitFrom(all, ready, remaining, time)
    decreases |all|
  {
    var r := AdmitFrom(all, ready, remaining, time);
    forall x | x in ready ensures x in r {
      var i :| 0 <= i < |ready| && ready[i] == x;
      assert r[..|ready|][i] == x;
    }
    if all != [] {
      var init, p := all[..|all| - 1], all[|all| - 1];
      assert forall x :: x in all <==> x in init || x == p;
      AdmitFromOk(universe, init, ready, remaining, time);
      var r0 := AdmitFrom(init, ready, remaining, time);
      if p.arrivalTime == time && p.pid in remaining && remaining[p.pid] > 0 {
        var k := FindPid(r0, p.pid);
        if k == -1 {
          assert p.pid !in Elems(Pids(r0));
          AppendFreshPid(r0, p);
        } else {
          assert r0[k] in universe;
          SamePidSameProcess(universe, r0[k], p);
        }
      }
    }
  }

  /** The first phase of `tick`: `enqueueArrivalsAt(t)`. */
  function Enqueue(s: EngineState): (r: EngineState)
    ensures r.t == s.t && (Known(s) ==> Known(r))
  {
    s.(ready := AdmitFrom(s.all, s.ready, s.remaining, s.t))
  }

  /** A running process that has used up its quantum goes to the tail of `ready` and releases the CPU. */
  function Requeue(s: EngineState): (r: EngineState)
    ensures r.t == s.t && (Known(s) ==> Known(r))
  {
    if s.current.Some? && s.quantumCounter >= s.quantum then
      s.(ready := s.ready + [s.current.value], current := None, quantumCounter := 0)
    else s
  }

  /** With the CPU free, the head of `ready` is shifted off and starts a new turn. */
  function Dispatch(s: EngineState): (r: EngineState)
    ensures r.t == s.t && (Known(s) ==> Known(r))
  {
    if s.current.None? && s.ready != [] then
      s.(current := Some(s.ready[0]), ready := s.ready[1..], quantumCounter := 0)
    else s
  }

  /**
   * The running process `p` consumes one unit and one unit of its turn; the
   * step is logged with its new remaining time and the snapshot `queueBefore`.
   */
  function Consume(s: EngineState, p: Process, queueBefore: QueueSnapshot): EngineState
    requires p.pid in s.remaining
  {
    var left := s.remaining[p.pid] - 1;
    s.(remaining := s.remaining[p.pid := left], executed := s.executed + 1,
       quantumCounter := s.quantumCounter + 1,
       events := s.events.(steps := s.events.steps + [ExecutionStep(s.t, p.pid, p.name, left, queueBefore)]))
  }

  /**
   * `p` has reached 0: it is recorded with finishTime = t + 1 (and reported
   * to onFinish), marked finished and released.
   */
  function Retire(s: EngineState, p: Process): EngineState {
    var res := MakeResult(p, s.t + 1);
    s.(results := s.results + [res], finished := s.finished + {p.pid},
       current := None, quantumCounter := 0,
       events := s.events.(finishes := s.events.finishes + [res]))
  }

  /** The execution phase: the running process, if any, runs one unit and retires at 0. */
  function Execute(s: EngineState, queueBefore: QueueSnapshot): (r: EngineState)
    requires s.current.Some? ==> s.current.value.pid in s.remaining
    ensures r.t == s.t && r.events.completes == s.events.completes
  {
    match s.current
    case None => s
    case Some(p) =>
      var c := Consume(s, p, queueBefore);
      if c.remaining[p.pid] == 0 then Retire(c, p) else c
  }

  /**
   * The clock advances; once `executed >= totalBurst` the results are
   * sorted by name and reported as complete, and the tick returns true.
   */
  function Advance(s: EngineState): (EngineState, bool) {
    var s1 := s.(t := s.t + 1);
    if s1.executed >= s1.totalBurst then
      var sorted := SortByName(s1.results);
      (s1.(results := sorted, events := s1.events.(completes := s1.events.completes + [sorted])), true)
    else (s1, false)
  }

  /** The process the tick runs: after admission and the quantum check, the current one or the new head. */
  function Runner(s: EngineState): Option<Process> {
    Dispatch(Requeue(Enqueue(s))).current
  }

  /** `tick`: the snapshot is taken after the quantum check and before the dispatch. */
  function AfterTick(s: EngineState): (EngineState, bool)
    requires Known(s)
  {
    var q := Requeue(Enqueue(s));
    Advance(Execute(Dispatch(q), Pids(q.ready)))
  }

  /** One tick keeps the invariant. */
  lemma TickPreservesInv(s: EngineState)
    requires EngineInv(s)
    ensures EngineInv(AfterTick(s).0)
  {
    EnqueueInv(s);
    FromEnqueued(Enqueue(s), s.t);
  }

  lemma FromEnqueued(e: EngineState, clock: int)
    requires e.t == clock && InvAt(e, clock, clock + 1, false)
    ensures EngineInv(Advance(Execute(Dispatch(Requeue(e)), Pids(Requeue(e).ready))).0)
  {
    RequeueInv(e, clock);
    FromRequeued(Requeue(e), clock);
  }

  lemma FromRequeued(q: EngineState, clock: int)
    requires q.t == clock && InvAt(q, clock, clock + 1, true)
    ensures EngineInv(Advance(Execute(Dispatch(q), Pids(q.ready))).0)
  {
    DispatchInv(q, clock);
    FromDispatched(Dispatch(q), Pids(q.ready), clock);
  }

  lemma FromDispatched(d: EngineState, queueBefore: QueueSnapshot, clock: int)
    requires d.t == clock && InvAt(d, clock, clock + 1, true)
    ensures EngineInv(Advance(Execute(d, queueBefore)).0)
  {
    ExecuteInv(d, queueBefore, clock);
    AdvanceInv(Execute(d, queueBefore), clock + 1);
  }

  /** Admission leaves every arrival up to `t` with work left queued or running. */
  lemma EnqueueInv(s: EngineState)
    requires EngineInv(s)
    ensures InvAt(Enqueue(s), s.t, s.t + 1, false)
  {
    var e := Enqueue(s);
    AdmitFromOk(s.all, s.all, s.ready, s.remaining, s.t);
    if s.current.Some? {
      EnqueueSparesCurrent(s);
    }
    assert QueueOk(e, s.t);
    assert NoneLost(e, s.t + 1);
  }

  /** Admission never queues the running process: it arrived before the current tick. */
  lemma EnqueueSparesCurrent(s: EngineState)
    requires EngineInv(s) && s.current.Some?
    ensures forall x :: x in Enqueue(s).ready ==> x.pid != s.current.value.pid
  {
    var e, p := Enqueue(s), s.current.value;
    assert p.arrivalTime < s.t;
    forall x | x in e.ready ensures x.pid != p.pid {
      if x !in s.ready {
        assert x in s.all && x.arrivalTime == s.t;
        if x.pid == p.pid {
          SamePidSameProcess(s.all, x, p);
        }
      }
    }
  }

  /** The quantum check keeps the invariant and leaves a running process less than a quantum used. */
  lemma RequeueInv(s: EngineState, clock: int)
    requires InvAt(s, clock, clock + 1, false)
    ensures InvAt(Requeue(s), clock, clock + 1, true)
  {
    var r := Requeue(s);
    if s.current.Some? && s.quantumCounter >= s.quantum {
      var p := s.current.value;
      forall i | 0 <= i < |s.ready| ensures Pids(s.ready)[i] != p.pid {
        assert s.ready[i] in s.ready;
      }
      AppendFreshPid(s.ready, p);
      assert QueueOk(r, clock);
      assert NoneLost(r, clock + 1);
    }
  }

  /** Dispatching the head of `ready` keeps the invariant. */
  lemma DispatchInv(s: EngineState, clock: int)
    requires InvAt(s, clock, clock + 1, true)
    ensures InvAt(Dispatch(s), clock, clock + 1, true)
  {
    var d := Dispatch(s);
    if s.current.None? && s.ready != [] {
      var p := s.ready[0];
      assert p in s.ready;
      DistinctCons(Pids(s.ready));
      assert Pids(s.ready)[1..] == Pids(d.ready);
      forall x | x in d.ready ensures x.pid != p.pid {
        var i :| 0 <= i < |d.ready| && d.ready[i] == x;
        assert Pids(d.ready)[i] == x.pid;
      }
      assert forall x :: x in s.ready ==> x == p || x in d.ready;
      assert QueueOk(d, clock);
      assert NoneLost(d, clock + 1);
    }
  }

  /** A tick can use one more unit of CPU than the one before. */
  lemma ElapsedStep(t: int, x: Process)
    requires x.arrivalTime <= t
    ensures Elapsed(t + 1, x) == Elapsed(t, x) + 1
  {
  }

  /** Execution keeps the invariant, for the clock it is about to advance to. */
  lemma ExecuteInv(s: EngineState, queueBefore: QueueSnapshot, clock: int)
    requires clock == s.t && InvAt(s, clock, clock + 1, true)
    ensures InvAt(Execute(s, queueBefore), clock + 1, clock + 1, false)
  {
    if s.current.Some? {
      ExecuteRunInv(s, s.current.value, queueBefore);
    } else {
      assert Execute(s, queueBefore) == s;
      forall x | x in s.all ensures x.burstTime - s.remaining[x.pid] <= Elapsed(s.t + 1, x) {
      }
    }
  }

  lemma ExecuteRunInv(s: EngineState, p: Process, queueBefore: QueueSnapshot)
    requires InvAt(s, s.t, s.t + 1, true) && s.current == Some(p)
    ensures InvAt(Execute(s, queueBefore), s.t + 1, s.t + 1, false)
  {
    var c := Consume(s, p, queueBefore);
    if s.remaining[p.pid] == 1 {
      assert Execute(s, queueBefore) == Retire(c, p);
      ConsumeRetires(s, p, queueBefore);
    } else {
      assert Execute(s, queueBefore) == c;
      ConsumeKeeps(s, p, queueBefore);
    }
  }

  /** A unit that leaves the running process with work left keeps the invariant. */
  lemma ConsumeKeeps(s: EngineState, p: Process, queueBefore: QueueSnapshot)
    requires InvAt(s, s.t, s.t + 1, true) && s.current == Some(p) && p.pid in s.remaining && s.remaining[p.pid] != 1
    ensures InvAt(Consume(s, p, queueBefore), s.t + 1, s.t + 1, false)
  {
    ConsumeUsage(s, p, queueBefore);
    ConsumeWork(s, p, queueBefore);
    ConsumeQueue(s, p, queueBefore);
    ConsumeCurrent(s, p, queueBefore);
  }

  /** A unit that finishes the running process, followed by its retirement, keeps the invariant. */
  lemma ConsumeRetires(s: EngineState, p: Process, queueBefore: QueueSnapshot)
    requires InvAt(s, s.t, s.t + 1, true) && s.current == Some(p) && p.pid in s.remaining && s.remaining[p.pid] == 1
    ensures InvAt(Retire(Consume(s, p, queueBefore), p), s.t + 1, s.t + 1, false)
  {
    var c := Consume(s, p, queueBefore);
    ConsumeUsage(s, p, queueBefore);
    ConsumeWork(s, p, queueBefore);
    ConsumeQueue(s, p, queueBefore);
    ConsumeCurrent(s, p, queueBefore);
    RetireInv(c, p);
  }

  /**
   * After a unit of `p`, the finished pids are those with no work left
   * other than `p`'s, and while `p` has work left it is still a valid
   * running process, one unit further into its turn.
   */
  lemma ConsumeCurrent(s: EngineState, p: Process, queueBefore: QueueSnapshot)
    requires RegisteredOk(s) && CurrentOk(s, s.t, true) && s.current == Some(p)
    ensures var c := Consume(s, p, queueBefore);
      && (forall pid :: pid in c.finished <==> pid in c.remaining && c.remaining[pid] == 0 && pid != p.pid)
      && (c.remaining[p.pid] > 0 ==> CurrentOk(c, s.t + 1, false))
  {
    assert p.pid !in s.finished;
  }

  /** After a unit of `p`, no registered process has used more CPU than the ticks up to t + 1. */
  lemma ConsumeUsage(s: EngineState, p: Process, queueBefore: QueueSnapshot)
    requires RegisteredOk(s) && UsageOk(s, s.t) && CurrentOk(s, s.t, true) && s.current == Some(p)
    ensures var c := Consume(s, p, queueBefore);
      && UsageOk(c, s.t + 1)
      && (forall x :: x in c.all ==> x.pid in c.remaining && 0 <= c.remaining[x.pid] <= x.burstTime)
  {
    var c := Consume(s, p, queueBefore);
    ElapsedStep(s.t, p);
    forall x | x in c.all
      ensures x.pid in c.remaining && 0 <= c.remaining[x.pid] <= x.burstTime
      ensures x.burstTime - c.remaining[x.pid] <= Elapsed(s.t + 1, x)
    {
      if x.pid == p.pid {
        SamePidSameProcess(s.all, x, p);
      }
    }
  }

  /** A unit of `p` is one more unit executed and one less remaining. */
  lemma ConsumeWork(s: EngineState, p: Process, queueBefore: QueueSnapshot)
    requires UniquePids(s.all) && (forall x :: x in s.all ==> x.pid in s.remaining) && WorkOk(s)
    requires p in s.all && p.pid in s.remaining
    ensures var c := Consume(s, p, queueBefore);
      (forall x :: x in c.all ==> x.pid in c.remaining) && WorkOk(c)
  {
    var c := Consume(s, p, queueBefore);
    assert c.all == s.all && c.remaining == s.remaining[p.pid := s.remaining[p.pid] - 1];
    assert c.executed == s.executed + 1;
    forall i | 0 <= i < |s.all| ensures s.all[i].pid in s.remaining {
      assert s.all[i] in s.all;
    }
    SumRemainingUpdate(s.all, s.remaining, p, s.remaining[p.pid] - 1);
  }

  /** A unit of `p` leaves the queue, the results and the admitted arrivals as they were. */
  lemma ConsumeQueue(s: EngineState, p: Process, queueBefore: QueueSnapshot)
    requires QueueOk(s, s.t) && ResultsOk(s) && NoneLost(s, s.t + 1) && s.current == Some(p) && p.pid in s.remaining
    ensures var c := Consume(s, p, queueBefore);
      QueueOk(c, s.t + 1) && ResultsOk(c) && NoneLost(c, s.t + 1)
  {
    var c := Consume(s, p, queueBefore);
    assert QueueOk(c, s.t + 1);
    assert NoneLost(c, s.t + 1);
  }

  /** Retiring the process that has just reached 0 restores the invariant. */
  lemma RetireInv(s: EngineState, p: Process)
    requires ValidInput(s.all) && s.totalBurst == SumBurst(s.all) && s.quantum >= 1
    requires s.remaining.Keys == Elems(Pids(s.all))
    requires forall x :: x in s.all ==> x.pid in s.remaining && 0 <= s.remaining[x.pid] <= x.burstTime
    requires forall pid :: pid in s.finished <==> pid in s.remaining && s.remaining[pid] == 0 && pid != p.pid
    requires UsageOk(s, s.t + 1) && QueueOk(s, s.t + 1) && ResultsOk(s) && WorkOk(s) && NoneLost(s, s.t + 1)
    requires s.current == Some(p) && p in s.all && s.remaining[p.pid] == 0
    ensures InvAt(Retire(s, p), s.t + 1, s.t + 1, false)
  {
    var f := Retire(s, p);
    var res := MakeResult(p, s.t + 1);
    assert p.arrivalTime + p.burstTime <= s.t + 1;
    AppendFreshResultPid(s.results, res);
    assert Recorded(res, s.all);
    assert RegisteredOk(f);
    assert NoneLost(f, s.t + 1);
  }

  /** The clock advance keeps the invariant: sorting the results only reorders them. */
  lemma AdvanceInv(s: EngineState, clock: int)
    requires clock == s.t + 1 && InvAt(s, clock, clock, false)
    ensures EngineInv(Advance(s).0)
  {
    var (r, done) := Advance(s);
    if done {
      PermutationResultPids(s.results, r.results);
      forall x | x in r.results ensures Recorded(x, r.all) {
        assert x in multiset(s.results);
      }
    }
  }

  /**
   * Each tick advances the clock by exactly one and logs at most one step;
   * a logged step is exactly one unit of `executed`, and the registrations
   * and the quantum are untouched.
   */
  lemma TickBasics(s: EngineState)
    requires Known(s)
    ensures var r := AfterTick(s).0;
      && r.t == s.t + 1 && r.all == s.all && r.totalBurst == s.totalBurst && r.quantum == s.quantum
      && |s.events.steps| <= |r.events.steps| <= |s.events.steps| + 1
      && r.events.steps[..|s.events.steps|] == s.events.steps
      && r.executed - s.executed == |r.events.steps| - |s.events.steps|
  {
    var q := Requeue(Enqueue(s));
    var d := Dispatch(q);
    assert d.all == s.all && d.totalBurst == s.totalBurst && d.quantum == s.quantum;
    assert d.events.steps == s.events.steps && d.executed == s.executed;
    ExecuteBasics(d, Pids(q.ready));
  }

  /** The execution phase logs at most one step, one per unit executed, and keeps the process table. */
  lemma ExecuteBasics(d: EngineState, qb: QueueSnapshot)
    requires d.current.Some? ==> d.current.value.pid in d.remaining
    ensures var x := Execute(d, qb);
      && x.all == d.all && x.totalBurst == d.totalBurst && x.quantum == d.quantum
      && |d.events.steps| <= |x.events.steps| <= |d.events.steps| + 1
      && x.events.steps[..|d.events.steps|] == d.events.steps
      && x.executed - d.executed == |x.events.steps| - |d.events.steps|
  {
    if d.current.Some? {
      var x := Execute(d, qb);
      assert x.events.steps == d.events.steps + [x.events.steps[|d.events.steps|]];
    }
  }

  /**
   * Within its quantum the running process keeps the CPU, whatever has
   * arrived: the tick runs it again, logging its remaining time less one
   * and the queue after admission, and it stays current one unit further
   * into its turn unless that was its last unit.
   */
  lemma TickKeepsCurrent(s: EngineState)
    requires Known(s) && s.current.Some? && s.quantumCounter < s.quantum
    ensures var p, r := s.current.value, AfterTick(s).0;
      && |r.events.steps| == |s.events.steps| + 1
      && r.events.steps[|s.events.steps|]
         == ExecutionStep(s.t, p.pid, p.name, s.remaining[p.pid] - 1, Pids(Enqueue(s).ready))
      && r.remaining[p.pid] == s.remaining[p.pid] - 1
      && r.ready == Enqueue(s).ready
      && (s.remaining[p.pid] > 1 ==> r.current == s.current && r.quantumCounter == s.quantumCounter + 1)
  {
  }

  /**
   * Rotation: a running process that has used up its quantum goes to the
   * tail of the queue, behind this tick's arrivals, and the head of that
   * queue runs, the logged snapshot including the process sent back.
   */
  lemma TickRotates(s: EngineState)
    requires Known(s) && s.current.Some? && s.quantumCounter >= s.quantum
    ensures var p, r := s.current.value, AfterTick(s).0;
      var q := Enqueue(s).ready + [p];
      var h := q[0];
      && h.pid in s.remaining
      && |r.events.steps| == |s.events.steps| + 1
      && r.events.steps[|s.events.steps|] == ExecutionStep(s.t, h.pid, h.name, s.remaining[h.pid] - 1, Pids(q))
      && r.ready == q[1..]
      && (s.remaining[h.pid] > 1 ==> r.current == Some(h) && r.quantumCounter == 1)
  {
    var p := s.current.value;
    var e := Enqueue(s);
    assert Requeue(e) == e.(ready := e.ready + [p], current := None, quantumCounter := 0);
  }

  /**
   * With others waiting, the process whose quantum is used up does not run
   * in this tick: it waits in the queue.
   */
  lemma TickPreempts(s: EngineState)
    requires EngineInv(s) && s.current.Some? && s.quantumCounter >= s.quantum && Enqueue(s).ready != []
    ensures var p, r := s.current.value, AfterTick(s).0;
      && |r.events.steps| == |s.events.steps| + 1
      && r.events.steps[|s.events.steps|].processId != p.pid
      && p in r.ready && r.current != Some(p)
  {
    var p, e := s.current.value, Enqueue(s);
    EnqueueSparesCurrent(s);
    TickRotates(s);
    var q := e.ready + [p];
    assert q[0] in e.ready;
    assert q[|e.ready|] == p && p in q[1..];
  }

  /**
   * With nothing running, the head of the queue after admission is shifted
   * off and runs, the logged snapshot still including it; an empty queue
   * logs no step.
   */
  lemma TickDispatchesHead(s: EngineState)
    requires Known(s) && s.current.None?
    ensures var q, r := Enqueue(s).ready, AfterTick(s).0;
      if q == [] then
        r.events.steps == s.events.steps && r.executed == s.executed && r.current.None? && r.ready == []
      else
        var h := q[0];
        && h.pid in s.remaining
        && |r.events.steps| == |s.events.steps| + 1
        && r.events.steps[|s.events.steps|] == ExecutionStep(s.t, h.pid, h.name, s.remaining[h.pid] - 1, Pids(q))
        && r.ready == q[1..]
        && (s.remaining[h.pid] > 1 ==> r.current == Some(h) && r.quantumCounter == 1)
  {
    assert Requeue(Enqueue(s)) == Enqueue(s);
  }

  /**
   * A process that runs its last unit in this tick is reported with
   * finishTime = t + 1, joins `finished` and the results, and releases the
   * CPU with a fresh quantum count.
   */
  lemma TickRetires(s: EngineState, p: Process)
    requires Known(s) && Runner(s) == Some(p) && p.pid in s.remaining && s.remaining[p.pid] == 1
    ensures var r := AfterTick(s).0;
      && r.events.finishes == s.events.finishes + [MakeResult(p, s.t + 1)]
      && r.finished == s.finished + {p.pid}
      && r.remaining[p.pid] == 0
      && r.current.None? && r.quantumCounter == 0
      && multiset(r.results) == multiset(s.results) + multiset{MakeResult(p, s.t + 1)}
  {
    var q := Requeue(Enqueue(s));
    var d := Dispatch(q);
    var c := Consume(d, p, Pids(q.ready));
    assert Execute(d, Pids(q.ready)) == Retire(c, p);
    assert Retire(c, p).results == s.results + [MakeResult(p, s.t + 1)];
  }

  /**
   * Completion: the tick returns true exactly when, after it, nothing runs
   * and every registered process has finished; `executed` never exceeds
   * `totalBurst`; on completion the queue is empty, there is exactly one
   * result per registered process, and the results, sorted by name, are
   * what onComplete receives.
   */
  lemma TickDoneIff(s: EngineState)
    requires EngineInv(s)
    ensures var (r, done) := AfterTick(s);
      && r.executed <= r.totalBurst
      && (done <==> r.current.None? && Elems(Pids(r.all)) <= r.finished)
      && (done ==>
            && r.ready == []
            && |r.results| == |r.all| && Elems(ResultPids(r.results)) == Elems(Pids(r.all))
            && SortedBy(r.results, ByName)
            && r.events.completes == s.events.completes + [r.results])
  {
    TickPreservesInv(s);
    TickCompletes(s);
    var (r, done) := AfterTick(s);
    WorkBounds(r);
    if done {
      AllFinished(r);
    }
  }

  /**
   * The tick reports completion exactly when `executed` has reached
   * `totalBurst`, and then hands onComplete the results sorted by name.
   */
  lemma TickCompletes(s: EngineState)
    requires Known(s)
    ensures var (r, done) := AfterTick(s);
      && (done <==> r.executed >= r.totalBurst)
      && (done ==> SortedBy(r.results, ByName) && r.events.completes == s.events.completes + [r.results])
      && (!done ==> r.events.completes == s.events.completes)
  {
  }

  /**
   * `executed` is at most `totalBurst`, and reaches it exactly when nothing
   * runs and every registered process has finished.
   */
  lemma WorkBounds(s: EngineState)
    requires EngineInv(s)
    ensures s.executed <= s.totalBurst
    ensures s.executed >= s.totalBurst <==> s.current.None? && Elems(Pids(s.all)) <= s.finished
  {
    forall i | 0 <= i < |s.all| ensures s.all[i].pid in s.remaining && 0 <= s.remaining[s.all[i].pid] {
      assert s.all[i] in s.all;
    }
    SumRemainingNonNegative(s.all, s.remaining);
    if s.executed >= s.totalBurst {
      NoneLeft(s.all, s.remaining);
      forall pid | pid in Elems(Pids(s.all)) ensures pid in s.finished {
        var i :| 0 <= i < |s.all| && Pids(s.all)[i] == pid;
      }
    } else if s.current.None? && Elems(Pids(s.all)) <= s.finished {
      forall i | 0 <= i < |s.all| ensures s.remaining[s.all[i].pid] == 0 {
        assert Pids(s.all)[i] in Elems(Pids(s.all));
      }
      SumRemainingZero(s.all, s.remaining);
    }
  }

  /** Once every registered process has finished, nothing is queued and each has exactly one result. */
  lemma AllFinished(s: EngineState)
    requires EngineInv(s) && Elems(Pids(s.all)) <= s.finished
    ensures s.ready == []
    ensures |s.results| == |s.all| && Elems(ResultPids(s.results)) == Elems(Pids(s.all))
  {
    if s.ready != [] {
      PidIn(s.all, s.ready[0]);
    }
    assert s.finished == Elems(Pids(s.all));
    DistinctCard(ResultPids(s.results));
    DistinctCard(Pids(s.all));
  }

  /** onFinish reports each process at most once, and only with its own record. */
  lemma FinishesOnce(s: EngineState)
    requires EngineInv(s)
    ensures Distinct(ResultPids(s.events.finishes))
    ensures forall r :: r in s.events.finishes ==> Recorded(r, s.all)
  {
    PermutationResultPids(s.results, s.events.finishes);
    forall r | r in s.events.finishes ensures Recorded(r, s.all) {
      assert r in multiset(s.results);
    }
  }

  // ---------------------------------------------------------------------------
  // The engine object

  /**
   * `createRoundRobinEngine`: the closure variables as fields; `steps`,
   * `finishes` and `completes` record what onStep, onFinish and onComplete
   * receive.
   */
  class RoundRobinEngine {
    var t: int
    var quantum: int
    var remaining: map<int, int>
    var ready: seq<Process>
    var all: seq<Process>
    var finished: set<int>
    var results: seq<ProcessResult>
    var totalBurst: int
    var executed: int
    var current: Option<Process>
    var quantumCounter: int
    var steps: seq<ExecutionStep>
    var finishes: seq<ProcessResult>
    var completes: seq<seq<ProcessResult>>

    ghost function State(): EngineState
      reads this
    {
      EngineState(t, quantum, remaining, ready, all, finished, results, totalBurst, executed, current,
                  quantumCounter, Events(steps, finishes, completes))
    }

    ghost predicate Valid()
      reads this
    {
      EngineInv(State())
    }

    constructor (startTime: int, quantumOption: Option<int>)
      requires quantumOption.Some? ==> quantumOption.value >= 1
      ensures State() == Start(startTime, quantumOption) && Valid()
    {
      quantum := if quantumOption.Some? then quantumOption.value else DefaultQuantum;
      t := startTime;
      remaining, ready, all, finished, results := map[], [], [], {}, [];
      totalBurst, executed := 0, 0;
      current, quantumCounter := None, 0;
      steps, finishes, completes := [], [], [];
      StartInv(startTime, quantumOption);
    }

    method AddProcess(p: Process)
      requires Valid() && ValidProcess(p)
      modifies this
      ensures State() == AfterAdd(old(State()), p) && Valid()
    {
      AddPreservesInv(State(), p);
      Register(p);
    }

    /** The body of `addProcess`. */
    method Register(p: Process)
      modifies this
      ensures State() == AfterAdd(old(State()), p)
    {
      if p.pid in Pids(all) {
        return;
      }
      all := all + [p];
      remaining := remaining[p.pid := p.burstTime];
      totalBurst := totalBurst + p.burstTime;
      if p.arrivalTime <= t {
        ready := ready + [p];
      }
    }

    method Tick() returns (done: bool)
      requires Valid()
      modifies this
      ensures (State(), done) == AfterTick(old(State())) && Valid()
    {
      TickPreservesInv(State());
      EnqueueArrivalsAt(t);
      RequeuePhase();
      var queueBefore := Pids(ready);
      DispatchPhase();
      ExecutePhase(queueBefore);
      done := AdvancePhase();
    }

    /** `enqueueArrivalsAt(time)`: one pass over the registered processes. */
    method EnqueueArrivalsAt(time: int)
      modifies this
      ensures State() == old(State()).(ready := AdmitFrom(all, old(ready), remaining, time))
    {
      var queue := ready;
      for j := 0 to |all|
        invariant queue == AdmitFrom(all[..j], ready, remaining, time)
      {
        assert all[..j + 1][..j] == all[..j];
        var p := all[j];
        if p.arrivalTime == time && p.pid in remaining && remaining[p.pid] > 0 {
          if FindPid(queue, p.pid) == -1 {
            queue := queue + [p];
          }
        }
      }
      assert all[..|all|] == all;
      ready := queue;
    }

    /** The quantum check of `tick`. */
    method RequeuePhase()
      modifies this
      ensures State() == Requeue(old(State()))
    {
      if current.Some? && quantumCounter >= quantum {
        ready := ready + [current.value];
        current := None;
        quantumCounter := 0;
      }
    }

    /** The dispatch part of `tick`: `ready.shift()` when nothing runs. */
    method DispatchPhase()
      modifies this
      ensures State() == Dispatch(old(State()))
    {
      if current.None? && |ready| > 0 {
        current := Some(ready[0]);
        ready := ready[1..];
        quantumCounter := 0;
      }
    }

    /** The execution part of `tick`. */
    method ExecutePhase(queueBefore: QueueSnapshot)
      requires current.Some? ==> current.value.pid in remaining
      modifies this
      ensures State() == Execute(old(State()), queueBefore)
    {
      if current.Some? {
        var p := current.value;
        ConsumeUnit(p, queueBefore);
        if remaining[p.pid] == 0 {
          RetireCurrent(p);
        }
      }
    }

    /** The running process `p` consumes one unit of its burst and of its quantum; onStep gets the step. */
    method ConsumeUnit(p: Process, queueBefore: QueueSnapshot)
      requires p.pid in remaining
      modifies this
      ensures State() == Consume(old(State()), p, queueBefore)
    {
      remaining := remaining[p.pid := remaining[p.pid] - 1];
      executed := executed + 1;
      quantumCounter := quantumCounter + 1;
      steps := steps + [ExecutionStep(t, p.pid, p.name, remaining[p.pid], queueBefore)];
    }

    /** `p` reached 0: its result is recorded and reported, and it releases the CPU. */
    method RetireCurrent(p: Process)
      modifies this
      ensures State() == Retire(old(State()), p)
    {
      var res := MakeResult(p, t + 1);
      results := results + [res];
      finishes := finishes + [res];
      finished := finished + {p.pid};
      current := None;
      quantumCounter := 0;
    }

    /** The clock advance and completion check ending `tick`. */
    method AdvancePhase() returns (done: bool)
      modifies this
      ensures (State(), done) == Advance(old(State()))
    {
      t := t + 1;
      done := executed >= totalBurst;
      if done {
        var sorted := SortByName(results);
        results := sorted;
        completes := completes + [sorted];
      }
    }
  }
}
