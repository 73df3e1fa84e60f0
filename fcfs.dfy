/**
 * First come, first served (src/Components/Algorithms/FCFS.ts).
 *
 * `runFCFS` sorts a copy of the input by (arrival time, pid) and serves each
 * process to completion in that order, idling until it arrives; `Timeline`
 * and `Completions` are that schedule as functions, and `RunFcfs` is proved
 * to produce them. The incremental engine `createFCFSEngine` is the class
 * `FcfsEngine`; its `addProcess` and `tick` are specified by the functions
 * `AfterAdd` and `AfterTick` over `EngineState`, and `EngineInv` is the
 * invariant they keep.
 */
module Fcfs {
  import opened Common
  import opened Sorting

  // ---------------------------------------------------------------------------
  // Arrival order

  /** The comparator `a.arrivalTime - b.arrivalTime || a.pid - b.pid`, as an order. */
  predicate ArrivalLe(a: Process, b: Process) {
    a.arrivalTime < b.arrivalTime || (a.arrivalTime == b.arrivalTime && a.pid <= b.pid)
  }

  lemma ArrivalLeIsTotalPreorder()
    ensures TotalPreorder(ArrivalLe)
  {
  }

  /** The sort of the input and of the queue: ordered by (arrival time, pid), a permutation of `ps`. */
  function ArrivalOrder(ps: seq<Process>): (order: seq<Process>)
    ensures SortedBy(order, ArrivalLe) && multiset(order) == multiset(ps)
    ensures ValidInput(ps) ==> ValidInput(order)
  {
    ArrivalLeIsTotalPreorder();
    var order := InsertionSort(ps, ArrivalLe);
    if ValidInput(ps) then
      PermutationKeepsValidInput(ps, order);
      order
    else
      order
  }

  /** With unique pids the order is strict: (arrival time, pid) increases along it. */
  lemma ArrivalOrderIsStrict(ps: seq<Process>)
    requires ValidInput(ps)
    ensures var order := ArrivalOrder(ps);
      && ValidInput(order)
      && forall i, j :: 0 <= i < j < |order| ==>
           order[i].arrivalTime < order[j].arrivalTime
           || (order[i].arrivalTime == order[j].arrivalTime && order[i].pid < order[j].pid)
  {
    var order := ArrivalOrder(ps);
    PermutationKeepsValidInput(ps, order);
    forall i, j | 0 <= i < j < |order|
      ensures order[i].arrivalTime < order[j].arrivalTime
              || (order[i].arrivalTime == order[j].arrivalTime && order[i].pid < order[j].pid)
    {
      assert ArrivalLe(order[i], order[j]);
      assert Pids(order)[i] != Pids(order)[j];
    }
  }

  // ---------------------------------------------------------------------------
  // runFCFS as a schedule

  /** The clock jumps forward to `p`'s arrival when it is earlier: the CPU idles until `p` arrives. */
  function StartTime(t: int, p: Process): int {
    if t < p.arrivalTime then p.arrivalTime else t
  }

  /** The steps runFCFS logs when it serves `order` with the clock at `t`. */
  function Timeline(order: seq<Process>, t: int): seq<ExecutionStep>
    requires AllValid(order)
    decreases |order|
  {
    if order == [] then []
    else
      var p := order[0];
      var start := StartTime(t, p);
      Block(p, start, [p.pid]) + Timeline(order[1..], start + p.burstTime)
  }

  /** The results runFCFS pushes, in completion order, when it serves `order` from `t`. */
  function Completions(order: seq<Process>, t: int): seq<ProcessResult>
    decreases |order|
  {
    if order == [] then []
    else
      var p := order[0];
      var finish := StartTime(t, p) + p.burstTime;
      [MakeResult(p, finish)] + Completions(order[1..], finish)
  }

  /** The clock once `order` has been served from `t`. */
  function ClockAfter(order: seq<Process>, t: int): int
    decreases |order|
  {
    if order == [] then t
    else ClockAfter(order[1..], StartTime(t, order[0]) + order[0].burstTime)
  }

  /**
   * `runFCFS`: serves the processes in (arrival time, pid) order, each to
   * completion, and returns the log and the results sorted by name.
   */
  method RunFcfs(processes: seq<Process>) returns (history: seq<ExecutionStep>, results: seq<ProcessResult>)
    requires ValidInput(processes)
    ensures history == Timeline(ArrivalOrder(processes), 0)
    ensures results == SortByName(Completions(ArrivalOrder(processes), 0))
  {
    var procs := ArrivalOrder(processes);
    history := [];
    var completed: seq<ProcessResult> := [];
    var t := 0;
    for i := 0 to |procs|
      invariant history + Timeline(procs[i..], t) == Timeline(procs, 0)
      invariant completed + Completions(procs[i..], t) == Completions(procs, 0)
    {
      history, completed, t := ServeProcess(procs, i, history, completed, t);
    }
    assert procs[|procs|..] == [];
    assert completed == Completions(procs, 0);
    results := SortByName(completed);
  }

  /**
   * One iteration of runFCFS's loop: idle until `procs[i]` arrives, run it to
   * completion, record it. What is logged plus what is left to log stays the
   * whole schedule.
   */
  method ServeProcess(procs: seq<Process>, i: int, history: seq<ExecutionStep>, completed: seq<ProcessResult>, t: int)
    returns (history': seq<ExecutionStep>, completed': seq<ProcessResult>, t': int)
    requires AllValid(procs) && 0 <= i < |procs|
    requires history + Timeline(procs[i..], t) == Timeline(procs, 0)
    requires completed + Completions(procs[i..], t) == Completions(procs, 0)
    ensures history' + Timeline(procs[i + 1..], t') == Timeline(procs, 0)
    ensures completed' + Completions(procs[i + 1..], t') == Completions(procs, 0)
  {
    var p := procs[i];
    ServeStepTimeline(procs, i, t, history);
    ServeStepCompletions(procs, i, t, completed);
    t' := t;
    if t' < p.arrivalTime {
      t' := p.arrivalTime;
    }
    var block := ServeToCompletion(p, t', [p.pid]);
    history' := history + block;
    t' := t' + p.burstTime;
    completed' := completed + [MakeResult(p, t')];
  }

  /** One iteration of runFCFS's loop keeps what is logged plus what is left to log equal to the whole log. */
  lemma ServeStepTimeline(order: seq<Process>, i: int, t: int, h: seq<ExecutionStep>)
    requires AllValid(order) && 0 <= i < |order|
    requires h + Timeline(order[i..], t) == Timeline(order, 0)
    ensures var p := order[i];
      (h + Block(p, StartTime(t, p), [p.pid])) + Timeline(order[i + 1..], StartTime(t, p) + p.burstTime)
      == Timeline(order, 0)
  {
    var p := order[i];
    ServeNext(order, i, t);
    AppendAssoc(h, Block(p, StartTime(t, p), [p.pid]), Timeline(order[i + 1..], StartTime(t, p) + p.burstTime));
  }

  /** The same for the results: those pushed plus those still to come are all of them. */
  lemma ServeStepCompletions(order: seq<Process>, i: int, t: int, c: seq<ProcessResult>)
    requires 0 <= i < |order|
    requires c + Completions(order[i..], t) == Completions(order, 0)
    ensures var p := order[i];
      var finish := StartTime(t, p) + p.burstTime;
      (c + [MakeResult(p, finish)]) + Completions(order[i + 1..], finish) == Completions(order, 0)
  {
    var p := order[i];
    var finish := StartTime(t, p) + p.burstTime;
    assert order[i..][1..] == order[i + 1..];
    assert Completions(order[i..], t) == [MakeResult(p, finish)] + Completions(order[i + 1..], finish);
    AppendAssoc(c, [MakeResult(p, finish)], Completions(order[i + 1..], finish));
  }

  /** Serving the next process of the order: its block, then the rest from its finish. */
  lemma ServeNext(order: seq<Process>, i: int, t: int)
    requires AllValid(order) && 0 <= i < |order|
    ensures var p := order[i];
      var finish := StartTime(t, p) + p.burstTime;
      && Timeline(order[i..], t) == Block(p, StartTime(t, p), [p.pid]) + Timeline(order[i + 1..], finish)
      && Completions(order[i..], t) == [MakeResult(p, finish)] + Completions(order[i + 1..], finish)
  {
    assert order[i..][1..] == order[i + 1..];
  }

  /**
   * The burst loop of runFCFS: `p` runs from `start` until its remaining time
   * reaches 0, one logged step per tick.
   */
  method ServeToCompletion(p: Process, start: int, queueBefore: QueueSnapshot) returns (steps: seq<ExecutionStep>)
    requires ValidProcess(p)
    ensures steps == Block(p, start, queueBefore)
  {
    steps := [];
    var t := start;
    for k := 0 to p.burstTime
      invariant steps == Block(p, start, queueBefore)[..k]
      invariant t == start + k
    {
      steps := steps + [ExecutionStep(t, p.pid, p.name, p.burstTime - (k + 1), queueBefore)];
      t := t + 1;
    }
  }

  // ---------------------------------------------------------------------------
  // Properties of the schedule

  /**
   * The log has one step per unit of burst, its ticks lie in [t, ClockAfter)
   * and strictly increase, and no process is preempted.
   */
  lemma TimelineShape(order: seq<Process>, t: int)
    requires AllValid(order)
    ensures t <= ClockAfter(order, t)
    ensures |Timeline(order, t)| == SumBurst(order)
    ensures TimesWithin(Timeline(order, t), t, ClockAfter(order, t))
    ensures TimesIncrease(Timeline(order, t))
    ensures RunsToCompletion(Timeline(order, t))
  {
    TimelineLength(order, t);
    TimelineTimes(order, t);
    TimelineRuns(order, t);
  }

  lemma {:induction false} TimelineLength(order: seq<Process>, t: int)
    requires AllValid(order)
    ensures t <= ClockAfter(order, t)
    ensures |Timeline(order, t)| == SumBurst(order)
    decreases |order|
  {
    if order != [] {
      var p := order[0];
      var rest := order[1..];
      TimelineLength(rest, StartTime(t, p) + p.burstTime);
      assert order == [p] + rest;
      SumBurstConcat([p], rest);
      assert SumBurst([p]) == p.burstTime by {
        assert [p][..0] == [];
      }
    }
  }

  lemma {:induction false} TimelineTimes(order: seq<Process>, t: int)
    requires AllValid(order)
    ensures TimesWithin(Timeline(order, t), t, ClockAfter(order, t))
    ensures TimesIncrease(Timeline(order, t))
    decreases |order|
  {
    if order != [] {
      var p := order[0];
      var start := StartTime(t, p);
      var rest := order[1..];
      TimelineTimes(rest, start + p.burstTime);
      TimelineLength(rest, start + p.burstTime);
      BlockTimes(p, start, [p.pid]);
      ConcatTimes(Block(p, start, [p.pid]), Timeline(rest, start + p.burstTime), t, start + p.burstTime, ClockAfter(order, t));
    }
  }

  lemma {:induction false} TimelineRuns(order: seq<Process>, t: int)
    requires AllValid(order)
    ensures RunsToCompletion(Timeline(order, t))
    decreases |order|
  {
    if order != [] {
      var p := order[0];
      var start := StartTime(t, p);
      TimelineRuns(order[1..], start + p.burstTime);
      BlockRunsToCompletion(p, start, [p.pid]);
      ConcatRunsToCompletion(Block(p, start, [p.pid]), Timeline(order[1..], start + p.burstTime));
    }
  }

  lemma {:induction false} CompletionsLength(order: seq<Process>, t: int)
    ensures |Completions(order, t)| == |order|
    decreases |order|
  {
    if order != [] {
      CompletionsLength(order[1..], StartTime(t, order[0]) + order[0].burstTime);
    }
  }

  /**
   * The i-th completion is the record of `order[i]`, which starts at the
   * later of the previous finish (or `t`) and its own arrival and then runs
   * its whole burst.
   */
  lemma {:induction false} CompletionAt(order: seq<Process>, t: int, i: int)
    requires 0 <= i < |order|
    ensures |Completions(order, t)| == |order|
    ensures var c := Completions(order, t);
      c[i] == MakeResult(order[i], StartTime(if i == 0 then t else c[i - 1].finishTime, order[i]) + order[i].burstTime)
    decreases i
  {
    CompletionsLength(order, t);
    if i > 0 {
      var p := order[0];
      var finish := StartTime(t, p) + p.burstTime;
      var rest := order[1..];
      CompletionAt(rest, finish, i - 1);
      var c := Completions(order, t);
      var cr := Completions(rest, finish);
      assert c == [MakeResult(p, finish)] + cr;
      assert c[i] == cr[i - 1] && order[i] == rest[i - 1];
      if i > 1 {
        assert c[i - 1] == cr[i - 2];
      }
    }
  }

  /** Completion times strictly increase along the order. */
  lemma {:induction false} FinishesIncrease(order: seq<Process>, t: int, i: int, j: int)
    requires AllValid(order) && 0 <= i < j < |order|
    ensures |Completions(order, t)| == |order|
    ensures Completions(order, t)[i].finishTime < Completions(order, t)[j].finishTime
    decreases j - i
  {
    CompletionAt(order, t, j);
    if i < j - 1 {
      FinishesIncrease(order, t, i, j - 1);
    }
  }

  /**
   * The results in completion order: one per process of `order`, in that
   * order, with the metric definitions; each process starts at the later of
   * the previous finish and its own arrival, so it finishes no earlier than
   * arrival plus burst and never waits a negative time; finish times
   * strictly increase.
   */
  lemma CompletionsShape(order: seq<Process>, t: int)
    requires AllValid(order)
    ensures var c := Completions(order, t);
      && |c| == |order|
      && (forall i :: 0 <= i < |c| ==> Describes(c[i], order[i]) && MetricsHold(c[i]))
      && (forall i :: 0 <= i < |c| ==>
            c[i].finishTime - c[i].burstTime == StartTime(if i == 0 then t else c[i - 1].finishTime, order[i]))
      && (forall i :: 0 <= i < |c| ==> c[i].arrivalTime + c[i].burstTime <= c[i].finishTime && 0 <= c[i].waitingTime)
      && (forall i, j :: 0 <= i < j < |c| ==> c[i].finishTime < c[j].finishTime)
  {
    var c := Completions(order, t);
    CompletionsLength(order, t);
    forall i | 0 <= i < |c|
      ensures Describes(c[i], order[i]) && MetricsHold(c[i])
      ensures c[i].finishTime - c[i].burstTime == StartTime(if i == 0 then t else c[i - 1].finishTime, order[i])
      ensures c[i].arrivalTime + c[i].burstTime <= c[i].finishTime && 0 <= c[i].waitingTime
    {
      CompletionAt(order, t, i);
    }
    forall i, j | 0 <= i < j < |c| ensures c[i].finishTime < c[j].finishTime {
      FinishesIncrease(order, t, i, j);
    }
  }

  /** The schedule of `order` is that of a prefix followed by that of the rest from the prefix's clock. */
  lemma {:induction false} TimelineSplit(order: seq<Process>, t: int, i: int)
    requires AllValid(order) && 0 <= i <= |order|
    ensures Timeline(order, t) == Timeline(order[..i], t) + Timeline(order[i..], ClockAfter(order[..i], t))
    decreases i
  {
    if i == 0 {
      assert order[..0] == [] && order[0..] == order;
    } else {
      var p := order[0];
      var start := StartTime(t, p);
      var rest := order[1..];
      var prefix := order[..i];
      var clock := start + p.burstTime;
      assert Timeline(prefix, t) == Block(p, start, [p.pid]) + Timeline(rest[..i - 1], clock)
          && ClockAfter(prefix, t) == ClockAfter(rest[..i - 1], clock) by {
        assert prefix[0] == p && prefix[1..] == rest[..i - 1];
      }
      assert Timeline(rest, clock) == Timeline(rest[..i - 1], clock) + Timeline(order[i..], ClockAfter(prefix, t)) by {
        TimelineSplit(rest, clock, i - 1);
        assert rest[i - 1..] == order[i..];
      }
      AppendAssoc(Block(p, start, [p.pid]), Timeline(rest[..i - 1], start + p.burstTime),
                  Timeline(order[i..], ClockAfter(order[..i], t)));
    }
  }

  /**
   * Process `order[i]` owns the part of the log right after the steps of the
   * processes before it: exactly its burst, run without interruption from its
   * start time, with remaining time burstTime-1 down to 0 and itself as the
   * whole queue snapshot.
   */
  lemma TimelineBlocks(order: seq<Process>, t: int, i: int)
    requires AllValid(order) && 0 <= i < |order|
    ensures var before, clock := Timeline(order[..i], t), ClockAfter(order[..i], t);
      var start := StartTime(clock, order[i]);
      && |before| == SumBurst(order[..i])
      && Timeline(order, t)
         == before + Block(order[i], start, [order[i].pid]) + Timeline(order[i + 1..], start + order[i].burstTime)
  {
    var before, clock := Timeline(order[..i], t), ClockAfter(order[..i], t);
    var start := StartTime(clock, order[i]);
    var b := Block(order[i], start, [order[i].pid]);
    var after := Timeline(order[i + 1..], start + order[i].burstTime);
    TimelineLength(order[..i], t);
    assert Timeline(order[i..], clock) == b + after by {
      assert order[i..][0] == order[i] && order[i..][1..] == order[i + 1..];
    }
    TimelineSplit(order, t, i);
    AppendAssoc(before, b, after);
  }


  /**
   * runFCFS returns exactly one result per input process (the results' pids
   * are the input's, without repetition), each the record of its process with
   * the metric definitions, a finish time no earlier than arrival plus burst,
   * and sorted by name.
   */
  lemma RunFcfsResults(ps: seq<Process>)
    requires ValidInput(ps)
    ensures var results := SortByName(Completions(ArrivalOrder(ps), 0));
      && |results| == |ps|
      && SortedBy(results, ByName)
      && Distinct(ResultPids(results))
      && Elems(ResultPids(results)) == Elems(Pids(ps))
      && forall r :: r in results ==> Recorded(r, ps) && 0 <= r.waitingTime
  {
    var order := ArrivalOrder(ps);
    PermutationKeepsValidInput(ps, order);
    PermutationPids(ps, order);
    var c := Completions(order, 0);
    CompletionsRecorded(ps, order);
    var results := SortByName(c);
    PermutationResultPids(c, results);
    forall r | r in results ensures Recorded(r, ps) && 0 <= r.waitingTime {
      assert r in multiset(c);
    }
  }

  /** The completions of an order of `ps` carry the pids of `ps` and are records of its processes. */
  lemma CompletionsRecorded(ps: seq<Process>, order: seq<Process>)
    requires AllValid(order) && multiset(order) == multiset(ps)
    ensures var c := Completions(order, 0);
      && ResultPids(c) == Pids(order)
      && forall r :: r in c ==> Recorded(r, ps) && 0 <= r.waitingTime
  {
    var c := Completions(order, 0);
    CompletionsShape(order, 0);
    assert ResultPids(c) == Pids(order);
    forall r | r in c ensures Recorded(r, ps) && 0 <= r.waitingTime {
      var i :| 0 <= i < |c| && c[i] == r;
      assert order[i] in multiset(ps);
    }
  }

  // ---------------------------------------------------------------------------
  // createFCFSEngine as a state machine

  /** The engine's closure variables; `events` records what the callbacks are given. */
  datatype EngineState = EngineState(
    t: int,
    queue: seq<Process>,
    all: seq<Process>,
    results: seq<ProcessResult>,
    current: Option<Process>,
    remaining: int,
    events: Events)

  /** `createFCFSEngine({ startTime })`. */
  function Init(startTime: int): EngineState {
    EngineState(startTime, [], [], [], None, 0, Events([], [], []))
  }

  function CurrentPids(c: Option<Process>): set<int> {
    if c.Some? then {c.value.pid} else {}
  }

  /**
   * Every registered pid is in exactly one place: the queue, the CPU, or the
   * results.
   */
  ghost predicate Partition(s: EngineState) {
    var q, c, r := Elems(Pids(s.queue)), CurrentPids(s.current), Elems(ResultPids(s.results));
    q !! c && q !! r && c !! r && q + c + r == Elems(Pids(s.all))
  }

  /** The queue is sorted by (arrival time, pid) and holds registered processes, once each. */
  ghost predicate QueueOk(s: EngineState) {
    && SortedBy(s.queue, ArrivalLe)
    && Distinct(Pids(s.queue))
    && (forall x :: x in s.queue ==> x in s.all)
  }

  /**
   * The running process is registered, has between 1 and burstTime units
   * left, and has not run before its arrival (the clock being `clock`).
   */
  ghost predicate RunningOk(s: EngineState, clock: int) {
    s.current.Some? ==>
      var p := s.current.value;
      && p in s.all
      && 1 <= s.remaining <= p.burstTime
      && p.arrivalTime + (p.burstTime - s.remaining) <= clock
  }

  /** Results are records of registered processes, one per pid. */
  ghost predicate ResultsOk(s: EngineState) {
    && Distinct(ResultPids(s.results))
    && (forall r :: r in s.results ==> Recorded(r, s.all))
  }

  /**
   * The engine invariant with the clock at `clock`: registered processes are
   * valid with unique pids, the queue, the running process and the results are
   * as above, and every pid is in exactly one of queue, CPU, results.
   */
  ghost predicate InvAt(s: EngineState, clock: int) {
    && ValidInput(s.all)
    && QueueOk(s)
    && RunningOk(s, clock)
    && ResultsOk(s)
    && Partition(s)
  }

  ghost predicate EngineInv(s: EngineState) {
    InvAt(s, s.t)
  }

  lemma InitInv(startTime: int)
    ensures EngineInv(Init(startTime))
  {
  }

  /**
   * `addProcess`: a pid already registered is ignored; otherwise the process
   * is registered and the queue is re-sorted with it.
   */
  function AfterAdd(s: EngineState, p: Process): (r: EngineState)
    ensures p.pid in Pids(s.all) ==> r == s
    ensures p.pid !in Pids(s.all) ==>
      && r.all == s.all + [p]
      && multiset(r.queue) == multiset(s.queue) + multiset{p}
      && SortedBy(r.queue, ArrivalLe)
    ensures r.t == s.t && r.current == s.current && r.remaining == s.remaining
    ensures r.results == s.results && r.events == s.events
  {
    if p.pid in Pids(s.all) then s
    else s.(all := s.all + [p], queue := ArrivalOrder(s.queue + [p]))
  }

  /** addProcess keeps the invariant, in particular the queue's (arrival time, pid) order. */
  lemma AddPreservesInv(s: EngineState, p: Process)
    requires EngineInv(s) && ValidProcess(p)
    ensures EngineInv(AfterAdd(s, p))
  {
    if p.pid !in Pids(s.all) {
      var r := AfterAdd(s, p);
      assert p.pid !in Elems(Pids(s.all));
      AppendFreshPid(s.all, p);
      AddKeepsQueue(s, p);
      AddKeepsResults(s, p);
      assert Partition(r);
    }
  }

  lemma AddKeepsQueue(s: EngineState, p: Process)
    requires QueueOk(s) && p.pid !in Elems(Pids(s.all))
    ensures QueueOk(AfterAdd(s, p))
    ensures Elems(Pids(AfterAdd(s, p).queue)) == Elems(Pids(s.queue)) + {p.pid}
  {
    var r := AfterAdd(s, p);
    assert p.pid !in Elems(Pids(s.queue)) by {
      forall x | x in Elems(Pids(s.queue)) ensures x in Elems(Pids(s.all)) {
        var i :| 0 <= i < |s.queue| && Pids(s.queue)[i] == x;
        assert s.queue[i] in s.all;
        var j :| 0 <= j < |s.all| && s.all[j] == s.queue[i];
        assert Pids(s.all)[j] == x;
      }
    }
    AppendFreshPid(s.queue, p);
    PermutationPids(s.queue + [p], r.queue);
    DistinctCard(Pids(s.queue + [p]));
    DistinctCard(Pids(r.queue));
    forall x | x in r.queue ensures x in r.all {
      assert x in multiset(s.queue + [p]);
    }
  }

  lemma AddKeepsResults(s: EngineState, p: Process)
    requires ResultsOk(s)
    ensures ResultsOk(AfterAdd(s, p))
  {
    var r := AfterAdd(s, p);
    forall x | x in r.results ensures Recorded(x, r.all) {
      var q :| q in s.all && Describes(x, q);
      assert q in r.all;
    }
  }

  /** `find` over the queue by arrival, as an index: the first queued process that has arrived by `t`, or -1. */
  function FirstArrived(q: seq<Process>, t: int): (k: int)
    ensures -1 <= k < |q|
    ensures 0 <= k ==> q[k].arrivalTime <= t && forall j :: 0 <= j < k ==> t < q[j].arrivalTime
    ensures k == -1 ==> forall j :: 0 <= j < |q| ==> t < q[j].arrivalTime
  {
    if q == [] then -1
    else if q[0].arrivalTime <= t then 0
    else
      var k := FirstArrived(q[1..], t);
      if k == -1 then -1 else k + 1
  }

  /**
   * The first phase of `tick`: with the CPU idle, the first queued process
   * that has arrived is taken out of the queue (`indexOf` finds the entry
   * `find` returned) and given its whole burst.
   */
  function Dispatch(s: EngineState): EngineState {
    if s.current.Some? then s
    else
      var k := FirstArrived(s.queue, s.t);
      if k == -1 then s
      else s.(current := Some(s.queue[k]), remaining := s.queue[k].burstTime,
              queue := s.queue[..k] + s.queue[k + 1..])
  }

  /**
   * The second phase: the running process consumes one unit; the step is
   * logged with the running pid ahead of the queue; a process that reaches
   * 0 is recorded with finishTime = t + 1 and leaves the CPU.
   */
  function Execute(s: EngineState): EngineState {
    match s.current
    case None => s
    case Some(p) =>
      var rem := s.remaining - 1;
      var step := ExecutionStep(s.t, p.pid, p.name, rem, [p.pid] + Pids(s.queue));
      var events := s.events.(steps := s.events.steps + [step]);
      if rem == 0 then
        var res := MakeResult(p, s.t + 1);
        s.(remaining := rem, results := s.results + [res], current := None,
           events := events.(finishes := events.finishes + [res]))
      else
        s.(remaining := rem, events := events)
  }

  /**
   * The last phase: the clock advances; when nothing runs, nothing is queued
   * and every registered process has a result, the results are sorted by
   * name and reported as complete.
   */
  function Advance(s: EngineState): (EngineState, bool) {
    var s1 := s.(t := s.t + 1);
    var done := s1.current.None? && s1.queue == [] && |s1.results| == |s1.all|;
    if done then
      var sorted := SortByName(s1.results);
      (s1.(results := sorted, events := s1.events.(completes := s1.events.completes + [sorted])), true)
    else
      (s1, false)
  }

  /**
   * `tick`: the clock advances by exactly one; at most one step is logged,
   * none when the CPU is idle and nothing queued has arrived; a running
   * process keeps the CPU until its remaining time reaches 0; at most one
   * result is recorded, with finishTime = t + 1.
   */
  function AfterTick(s: EngineState): (r: (EngineState, bool))
    ensures r.0.t == s.t + 1 && r.0.all == s.all
    ensures s.current.Some? && s.remaining != 1 ==> r.0.current == s.current
    ensures |s.events.steps| <= |r.0.events.steps| <= |s.events.steps| + 1
    ensures r.0.events.steps[..|s.events.steps|] == s.events.steps
    ensures s.current.None? && FirstArrived(s.queue, s.t) == -1 ==> r.0.events.steps == s.events.steps
    ensures r.0.events.finishes == s.events.finishes
         || exists res: ProcessResult :: res.finishTime == s.t + 1 && r.0.events.finishes == s.events.finishes + [res]
  {
    ExecuteFinishes(Dispatch(s));
    Advance(Execute(Dispatch(s)))
  }

  /** Execution records at most one result, the running process's, finishing at t + 1. */
  lemma ExecuteFinishes(s: EngineState)
    ensures var e := Execute(s);
      || e.events.finishes == s.events.finishes
      || (s.current.Some? && e.events.finishes == s.events.finishes + [MakeResult(s.current.value, s.t + 1)])
  {
  }

  /** One tick keeps the invariant (dispatch, execution and completion check together). */
  lemma TickPreservesInv(s: EngineState)
    requires EngineInv(s)
    ensures EngineInv(AfterTick(s).0)
  {
    var s2 := Execute(Dispatch(s));
    DispatchInv(s);
    ExecuteInv(Dispatch(s));
    var (s3, done) := Advance(s2);
    if done {
      PermutationResultPids(s2.results, s3.results);
      assert ResultsOk(s3) by {
        forall r | r in s3.results ensures Recorded(r, s3.all) {
          assert r in multiset(s2.results);
        }
      }
    }
  }

  /** Dispatch keeps the invariant. */
  lemma DispatchInv(s: EngineState)
    requires EngineInv(s)
    ensures EngineInv(Dispatch(s))
  {
    if s.current.None? {
      var k := FirstArrived(s.queue, s.t);
      if k != -1 {
        var s1 := Dispatch(s);
        RemoveAtKeepsQueue(s, k);
        assert s.queue[k] in s.all;
        assert RunningOk(s1, s.t);
        assert s.queue[k].pid in Elems(Pids(s.queue)) by {
          assert Pids(s.queue)[k] == s.queue[k].pid;
        }
        assert Partition(s1);
      }
    }
  }

  lemma RemoveAtKeepsQueue(s: EngineState, k: int)
    requires QueueOk(s) && 0 <= k < |s.queue|
    ensures var s1 := s.(queue := s.queue[..k] + s.queue[k + 1..]);
      && QueueOk(s1)
      && Elems(Pids(s1.queue)) == Elems(Pids(s.queue)) - {s.queue[k].pid}
  {
    var q := s.queue[..k] + s.queue[k + 1..];
    RemoveAtPids(s.queue, k);
    forall i, j | 0 <= i < j < |q| ensures ArrivalLe(q[i], q[j]) {
      var i', j' := if i < k then i else i + 1, if j < k then j else j + 1;
      assert q[i] == s.queue[i'] && q[j] == s.queue[j'];
    }
  }

  /** Execution keeps the invariant, for the clock it is about to advance to. */
  lemma ExecuteInv(s: EngineState)
    requires EngineInv(s)
    ensures InvAt(Execute(s), s.t + 1)
  {
    var s2 := Execute(s);
    if s.current.Some? {
      var p := s.current.value;
      if s.remaining == 1 {
        var res := MakeResult(p, s.t + 1);
        assert p.pid !in Elems(ResultPids(s.results));
        AppendFreshResultPid(s.results, res);
        assert ResultsOk(s2) by {
          forall r | r in s2.results ensures Recorded(r, s2.all) {
            if r == res {
              assert p in s.all && Describes(r, p);
            }
          }
        }
        assert Partition(s2);
      }
    }
  }

  /**
   * The completion check: a tick reports completion exactly when, after it,
   * nothing runs and nothing is queued; then every registered process has
   * exactly one result.
   */
  lemma TickDoneIff(s: EngineState)
    requires EngineInv(s)
    ensures var (r, done) := AfterTick(s);
      && (done <==> r.current.None? && r.queue == [])
      && (done ==> |r.results| == |r.all| && Elems(ResultPids(r.results)) == Elems(Pids(r.all)))
  {
    var s2 := Execute(Dispatch(s));
    DispatchInv(s);
    ExecuteInv(Dispatch(s));
    if s2.current.None? && s2.queue == [] {
      DrainedMeansRecorded(s2);
    }
    var (r, done) := AfterTick(s);
    if done {
      PermutationResultPids(s2.results, r.results);
    }
  }

  /** With nothing running and nothing queued, the results cover the registered pids one to one. */
  lemma DrainedMeansRecorded(s: EngineState)
    requires Partition(s) && Distinct(Pids(s.all)) && Distinct(ResultPids(s.results))
    requires s.current.None? && s.queue == []
    ensures |s.results| == |s.all| && Elems(ResultPids(s.results)) == Elems(Pids(s.all))
  {
    assert Elems(Pids(s.queue)) == {};
    DistinctCard(ResultPids(s.results));
    DistinctCard(Pids(s.all));
  }

  /**
   * Dispatch takes the queue head: with the CPU idle, a tick runs the first
   * queued process if it has arrived (and removes it from the queue), and
   * otherwise logs no step and leaves the queue as it was.
   */
  lemma TickDispatchesHead(s: EngineState)
    requires SortedBy(s.queue, ArrivalLe) && s.current.None?
    ensures var r := AfterTick(s).0;
      if s.queue != [] && s.queue[0].arrivalTime <= s.t then
        && |r.events.steps| == |s.events.steps| + 1
        && r.events.steps[|s.events.steps|].processId == s.queue[0].pid
        && r.events.steps[|s.events.steps|].time == s.t
        && r.queue == s.queue[1..]
      else
        r.events.steps == s.events.steps && r.queue == s.queue
  {
    var d := Dispatch(s);
    if s.queue != [] && s.queue[0].arrivalTime <= s.t {
      assert d.queue == s.queue[1..] && d.current == Some(s.queue[0]);
      assert Execute(d).events.steps[|s.events.steps|].processId == s.queue[0].pid;
    } else if s.queue != [] {
      assert forall j :: 0 <= j < |s.queue| ==> ArrivalLe(s.queue[0], s.queue[j]);
      assert FirstArrived(s.queue, s.t) == -1;
    }
  }

  // ---------------------------------------------------------------------------
  // The engine object

  /**
   * `createFCFSEngine`: the closure variables as fields; `steps`, `finishes`
   * and `completes` record what onStep, onFinish and onComplete receive.
   */
  class FcfsEngine {
    var t: int
    var queue: seq<Process>
    var all: seq<Process>
    var results: seq<ProcessResult>
    var current: Option<Process>
    var remaining: int
    var steps: seq<ExecutionStep>
    var finishes: seq<ProcessResult>
    var completes: seq<seq<ProcessResult>>

    ghost function State(): EngineState
      reads this
    {
      EngineState(t, queue, all, results, current, remaining, Events(steps, finishes, completes))
    }

    ghost predicate Valid()
      reads this
    {
      EngineInv(State())
    }

    constructor (startTime: int)
      ensures State() == Init(startTime) && Valid()
    {
      t := startTime;
      queue, all, results := [], [], [];
      current, remaining := None, 0;
      steps, finishes, completes := [], [], [];
      InitInv(startTime);
    }

    method AddProcess(p: Process)
      requires Valid() && ValidProcess(p)
      modifies this
      ensures State() == AfterAdd(old(State()), p) && Valid()
    {
      AddPreservesInv(State(), p);
      if p.pid in Pids(all) {
        return;
      }
      all := all + [p];
      queue := queue + [p];
      queue := ArrivalOrder(queue);
    }

    method Tick() returns (done: bool)
      requires Valid()
      modifies this
      ensures (State(), done) == AfterTick(old(State())) && Valid()
    {
      TickPreservesInv(State());
      DispatchPhase();
      ExecutePhase();
      done := AdvancePhase();
    }

    /** The dispatch part of `tick`. */
    method DispatchPhase()
      modifies this
      ensures State() == Dispatch(old(State()))
    {
      if current.None? {
        var k := FirstArrived(queue, t);
        if k != -1 {
          current := Some(queue[k]);
          remaining := queue[k].burstTime;
          queue := queue[..k] + queue[k + 1..];
        }
      }
    }

    /** The execution part of `tick`. */
    method ExecutePhase()
      modifies this
      ensures State() == Execute(old(State()))
    {
      if current.Some? {
        var p := current.value;
        remaining := remaining - 1;
        steps := steps + [ExecutionStep(t, p.pid, p.name, remaining, [p.pid] + Pids(queue))];
        if remaining == 0 {
          var res := MakeResult(p, t + 1);
          results := results + [res];
          finishes := finishes + [res];
          current := None;
        }
      }
    }

    /** The clock advance and completion check ending `tick`. */
    method AdvancePhase() returns (done: bool)
      modifies this
      ensures (State(), done) == Advance(old(State()))
    {
      t := t + 1;
      done := current.None? && queue == [] && |results| == |all|;
      if done {
        results := SortByName(results);
        completes := completes + [results];
      }
    }
  }
}
