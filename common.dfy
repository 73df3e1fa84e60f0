/**
 * The types every scheduler shares (src/Components/Algorithms/common.ts),
 * the metric definitions documented on `ProcessResult`, and the small
 * queue operations the schedulers repeat: admitting the arrivals of one
 * tick, locating an entry by pid and splicing it out, and sorting the
 * results by name.
 */
module Common {
  import opened Sorting

  datatype Option<T> = None | Some(value: T)

  /** An input process. The optional `priority` field is not used by any scheduler. */
  datatype Process = Process(pid: int, name: string, arrivalTime: int, burstTime: int)

  /** Pids of the ready queue, index 0 being the first in the queue. */
  type QueueSnapshot = seq<int>

  /** One executed tick: `remainingTime` is the value after the tick's unit was consumed. */
  datatype ExecutionStep = ExecutionStep(
    time: int,
    processId: int,
    processName: string,
    remainingTime: int,
    queueBefore: QueueSnapshot)

  /** The final record of one process; the metrics are exact (no floating point). */
  datatype ProcessResult = ProcessResult(
    pid: int,
    name: string,
    arrivalTime: int,
    burstTime: int,
    finishTime: int,
    turnaroundTime: int,
    waitingTime: int,
    serviceIndex: real)

  /** What the engines' callers deliver through onStep, onFinish and onComplete, in order. */
  datatype Events = Events(
    steps: seq<ExecutionStep>,
    finishes: seq<ProcessResult>,
    completes: seq<seq<ProcessResult>>)

  lemma AppendAssoc<T>(a: seq<T>, b: seq<T>, c: seq<T>)
    ensures a + b + c == a + (b + c)
  {
  }

  // ---------------------------------------------------------------------------
  // Input validity

  /** The bounds the process form enforces: a non-negative arrival and a burst of at least one unit. */
  predicate ValidProcess(p: Process) {
    0 <= p.arrivalTime && 1 <= p.burstTime
  }

  predicate AllValid(ps: seq<Process>) {
    forall i :: 0 <= i < |ps| ==> ValidProcess(ps[i])
  }

  function Pids(ps: seq<Process>): seq<int> {
    seq(|ps|, i requires 0 <= i < |ps| => ps[i].pid)
  }

  function ResultPids(rs: seq<ProcessResult>): seq<int> {
    seq(|rs|, i requires 0 <= i < |rs| => rs[i].pid)
  }

  predicate Distinct(s: seq<int>) {
    forall i, j :: 0 <= i < j < |s| ==> s[i] != s[j]
  }

  function Elems(s: seq<int>): set<int> {
    set x | x in s
  }

  predicate UniquePids(ps: seq<Process>) {
    Distinct(Pids(ps))
  }

  /** What the schedulers assume of their input: unique pids and valid processes. */
  predicate ValidInput(ps: seq<Process>) {
    UniquePids(ps) && AllValid(ps)
  }

  /** A sequence of pids has as many distinct pids as entries exactly when no pid repeats. */
  lemma {:induction false} DistinctCard(s: seq<int>)
    ensures |Elems(s)| <= |s|
    ensures Distinct(s) <==> |Elems(s)| == |s|
  {
    if s != [] {
      DistinctCard(s[1..]);
      DistinctCons(s);
      assert Elems(s) == {s[0]} + Elems(s[1..]);
      if s[0] in Elems(s[1..]) {
        assert Elems(s) == Elems(s[1..]);
      } else {
        assert |Elems(s)| == |Elems(s[1..])| + 1;
      }
    }
  }

  /** A sequence is distinct exactly when its head is not in its distinct tail. */
  lemma DistinctCons(s: seq<int>)
    requires s != []
    ensures Distinct(s) <==> s[0] !in s[1..] && Distinct(s[1..])
  {
    if s[0] in s[1..] {
      var k :| 0 <= k < |s| - 1 && s[1..][k] == s[0];
      assert s[k + 1] == s[0];
    }
    if !Distinct(s[1..]) {
      var i, j :| 0 <= i < j < |s| - 1 && s[1..][i] == s[1..][j];
      assert s[i + 1] == s[j + 1];
    }
    if s[0] !in s[1..] && Distinct(s[1..]) {
      forall i, j | 0 <= i < j < |s| ensures s[i] != s[j] {
        assert s[j] == s[1..][j - 1];
        if i > 0 {
          assert s[i] == s[1..][i - 1];
        }
      }
    }
  }

  lemma SubsetCard<T>(a: set<T>, b: set<T>)
    requires a <= b
    ensures |a| <= |b|
  {
    assert b == a + (b - a);
  }

  /** A subset as large as its superset is the whole superset. */
  lemma SubsetEqualCard<T>(a: set<T>, b: set<T>)
    requires a <= b && |b| <= |a|
    ensures a == b
  {
    assert b == a + (b - a);
    assert |b - a| == 0;
  }

  /** A set larger than another has an element outside it. */
  lemma SomeOutside<T>(a: set<T>, b: set<T>)
    requires |b| < |a|
    ensures exists x :: x in a && x !in b
  {
    SubsetCard(a * b, b);
    assert a == (a * b) + (a - b);
    assert |a - b| > 0;
    var x :| x in a - b;
  }

  lemma ElemsAppend(s: seq<int>, x: int)
    ensures Elems(s + [x]) == Elems(s) + {x}
  {
    assert forall y :: y in s + [x] <==> y in s || y == x;
  }

  /** Appending a process whose pid is not yet present keeps the pids distinct. */
  lemma AppendFreshPid(q: seq<Process>, p: Process)
    requires Distinct(Pids(q)) && p.pid !in Elems(Pids(q))
    ensures Pids(q + [p]) == Pids(q) + [p.pid]
    ensures Distinct(Pids(q + [p]))
    ensures Elems(Pids(q + [p])) == Elems(Pids(q)) + {p.pid}
  {
    assert Pids(q + [p]) == Pids(q) + [p.pid];
    ElemsAppend(Pids(q), p.pid);
    DistinctCard(Pids(q));
    DistinctCard(Pids(q + [p]));
  }

  /** Appending a result whose pid is not yet present keeps the pids distinct. */
  lemma AppendFreshResultPid(rs: seq<ProcessResult>, r: ProcessResult)
    requires Distinct(ResultPids(rs)) && r.pid !in Elems(ResultPids(rs))
    ensures ResultPids(rs + [r]) == ResultPids(rs) + [r.pid]
    ensures Distinct(ResultPids(rs + [r]))
    ensures Elems(ResultPids(rs + [r])) == Elems(ResultPids(rs)) + {r.pid}
  {
    assert ResultPids(rs + [r]) == ResultPids(rs) + [r.pid];
    ElemsAppend(ResultPids(rs), r.pid);
    DistinctCard(ResultPids(rs));
    DistinctCard(ResultPids(rs + [r]));
  }

  /** Taking entry `k` out of a queue with distinct pids removes exactly its pid. */
  lemma RemoveAtPids(q: seq<Process>, k: int)
    requires 0 <= k < |q| && Distinct(Pids(q))
    ensures Distinct(Pids(q[..k] + q[k + 1..]))
    ensures Elems(Pids(q[..k] + q[k + 1..])) == Elems(Pids(q)) - {q[k].pid}
    ensures forall x :: x in q[..k] + q[k + 1..] ==> x in q
    ensures forall x :: x in q && x != q[k] ==> x in q[..k] + q[k + 1..]
  {
    var r := q[..k] + q[k + 1..];
    assert Pids(r) == Pids(q)[..k] + Pids(q)[k + 1..];
    forall i, j | 0 <= i < j < |r| ensures Pids(r)[i] != Pids(r)[j] {
      var i', j' := if i < k then i else i + 1, if j < k then j else j + 1;
      assert Pids(r)[i] == Pids(q)[i'] && Pids(r)[j] == Pids(q)[j'];
    }
    forall x | x in Elems(Pids(q)) - {q[k].pid} ensures x in Elems(Pids(r)) {
      var i :| 0 <= i < |q| && Pids(q)[i] == x;
      assert i != k;
      assert Pids(r)[if i < k then i else i - 1] == x;
    }
    forall x | x in Elems(Pids(r)) ensures x in Elems(Pids(q)) - {q[k].pid} {
      var i :| 0 <= i < |r| && Pids(r)[i] == x;
      var i' := if i < k then i else i + 1;
      assert Pids(q)[i'] == x && i' != k;
      assert Pids(q)[i'] != Pids(q)[k];
    }
    forall x | x in r ensures x in q {
      var i :| 0 <= i < |r| && r[i] == x;
      assert x == q[if i < k then i else i + 1];
    }
    forall x | x in q && x != q[k] ensures x in r {
      var i :| 0 <= i < |q| && q[i] == x;
      assert i != k;
      assert r[if i < k then i else i - 1] == x;
    }
  }

  /** Two queues with distinct pids and no pid in common make one with distinct pids. */
  lemma AppendDistinctPids(a: seq<Process>, b: seq<Process>)
    requires Distinct(Pids(a)) && Distinct(Pids(b)) && Elems(Pids(a)) !! Elems(Pids(b))
    ensures Distinct(Pids(a + b)) && Elems(Pids(a + b)) == Elems(Pids(a)) + Elems(Pids(b))
  {
    var c := a + b;
    assert Pids(c) == Pids(a) + Pids(b);
    forall i, j | 0 <= i < j < |c| ensures Pids(c)[i] != Pids(c)[j] {
      if j < |a| {
        assert Pids(c)[i] == Pids(a)[i] && Pids(c)[j] == Pids(a)[j];
      } else if i >= |a| {
        assert Pids(c)[i] == Pids(b)[i - |a|] && Pids(c)[j] == Pids(b)[j - |a|];
      } else {
        assert Pids(c)[i] in Elems(Pids(a)) && Pids(c)[j] == Pids(b)[j - |a|];
      }
    }
  }

  /** In a sequence with unique pids, a process is determined by its pid. */
  lemma SamePidSameProcess(ps: seq<Process>, x: Process, y: Process)
    requires UniquePids(ps) && x in ps && y in ps && x.pid == y.pid
    ensures x == y
  {
    var i :| 0 <= i < |ps| && ps[i] == x;
    var j :| 0 <= j < |ps| && ps[j] == y;
    assert Pids(ps)[i] == Pids(ps)[j];
  }

  lemma PidIn(ps: seq<Process>, x: Process)
    requires x in ps
    ensures x.pid in Elems(Pids(ps))
  {
    var i :| 0 <= i < |ps| && ps[i] == x;
    assert Pids(ps)[i] == x.pid;
  }

  /**
   * `r` is the record of one of `ps`, with the metric definitions and a finish
   * time no earlier than arrival plus burst.
   */
  ghost predicate Recorded(r: ProcessResult, ps: seq<Process>) {
    && MetricsHold(r)
    && r.arrivalTime + r.burstTime <= r.finishTime
    && exists p :: p in ps && Describes(r, p)
  }

  // ---------------------------------------------------------------------------
  // Metrics (the comments on `ProcessResult`: Tr = cf - ti, Te = Tr - τ, Is = τ / Tr)

  /** Is = τ / Tr, guarded to 0 when Tr is not positive as runFCFS, runSJF and runRoundRobin do. */
  function ServiceIndex(burstTime: int, turnaroundTime: int): real {
    if turnaroundTime > 0 then burstTime as real / turnaroundTime as real else 0.0
  }

  /** `r` is the record of process `p`. */
  predicate Describes(r: ProcessResult, p: Process) {
    r.pid == p.pid && r.name == p.name && r.arrivalTime == p.arrivalTime && r.burstTime == p.burstTime
  }

  /** The three metric definitions hold of `r`. */
  predicate MetricsHold(r: ProcessResult) {
    && r.turnaroundTime == r.finishTime - r.arrivalTime
    && r.waitingTime == r.turnaroundTime - r.burstTime
    && r.serviceIndex == ServiceIndex(r.burstTime, r.turnaroundTime)
  }

  /** The record a scheduler pushes when `p` completes at `finishTime`. */
  function MakeResult(p: Process, finishTime: int): (r: ProcessResult)
    ensures Describes(r, p) && r.finishTime == finishTime && MetricsHold(r)
  {
    var tr := finishTime - p.arrivalTime;
    ProcessResult(p.pid, p.name, p.arrivalTime, p.burstTime, finishTime, tr, tr - p.burstTime,
                  ServiceIndex(p.burstTime, tr))
  }

  /**
   * A process that finishes no earlier than it could (arrival plus burst) has
   * Tr >= τ, a non-negative waiting time and a service index in (0, 1] with
   * Is * Tr = τ.
   */
  lemma MetricBounds(r: ProcessResult)
    requires MetricsHold(r) && 1 <= r.burstTime && r.arrivalTime + r.burstTime <= r.finishTime
    ensures r.burstTime <= r.turnaroundTime && 0 <= r.waitingTime
    ensures 0.0 < r.serviceIndex <= 1.0
    ensures r.serviceIndex * r.turnaroundTime as real == r.burstTime as real
  {
    var b, tr := r.burstTime as real, r.turnaroundTime as real;
    assert r.serviceIndex == b / tr;
    assert r.serviceIndex * tr == b;
  }

  // ---------------------------------------------------------------------------
  // Sorting the results by name (`localeCompare`, modelled as code-point order)

  /** Lexicographic order on names, character by character. */
  predicate NameLe(a: string, b: string)
    decreases |a|
  {
    |a| == 0 || (|b| > 0 && (a[0] < b[0] || (a[0] == b[0] && NameLe(a[1..], b[1..]))))
  }

  lemma {:induction false} NameLeTotal(a: string, b: string)
    ensures NameLe(a, b) || NameLe(b, a)
    decreases |a|
  {
    if |a| > 0 && |b| > 0 && a[0] == b[0] {
      NameLeTotal(a[1..], b[1..]);
    }
  }

  lemma {:induction false} NameLeTransitive(a: string, b: string, c: string)
    requires NameLe(a, b) && NameLe(b, c)
    ensures NameLe(a, c)
    decreases |a|
  {
    if |a| > 0 && a[0] == b[0] && b[0] == c[0] {
      NameLeTransitive(a[1..], b[1..], c[1..]);
    }
  }

  predicate ByName(x: ProcessResult, y: ProcessResult) {
    NameLe(x.name, y.name)
  }

  lemma ByNameIsTotalPreorder()
    ensures TotalPreorder(ByName)
  {
    forall x: ProcessResult, y: ProcessResult ensures ByName(x, y) || ByName(y, x) {
      NameLeTotal(x.name, y.name);
    }
    forall x: ProcessResult, y: ProcessResult, z: ProcessResult | ByName(x, y) && ByName(y, z)
      ensures ByName(x, z)
    {
      NameLeTransitive(x.name, y.name, z.name);
    }
  }

  /** The final sort of the results by name: ordered by name, and a permutation. */
  function SortByName(rs: seq<ProcessResult>): (r: seq<ProcessResult>)
    ensures SortedBy(r, ByName)
    ensures multiset(r) == multiset(rs)
  {
    ByNameIsTotalPreorder();
    InsertionSort(rs, ByName)
  }

  // ---------------------------------------------------------------------------
  // Queue operations

  /** The processes of `ps` arriving at time `t`, in input order. */
  function ArrivingAt(ps: seq<Process>, t: int): (r: seq<Process>)
    ensures forall x :: x in r <==> x in ps && x.arrivalTime == t
    ensures UniquePids(ps) ==> UniquePids(r)
    ensures |r| <= |ps|
  {
    if ps == [] then []
    else
      var init, last := ps[..|ps| - 1], ps[|ps| - 1];
      var r0 := ArrivingAt(init, t);
      assert ps == init + [last];
      assert UniquePids(ps) ==> UniquePids(init) && forall k :: 0 <= k < |init| ==> init[k].pid != last.pid by {
        if UniquePids(ps) {
          assert forall i :: 0 <= i < |init| ==> Pids(init)[i] == Pids(ps)[i];
          forall k | 0 <= k < |init| ensures init[k].pid != last.pid {
            assert Pids(ps)[k] != Pids(ps)[|ps| - 1];
          }
        }
      }
      if last.arrivalTime == t then
        assert UniquePids(ps) ==> UniquePids(r0 + [last]) by {
          if UniquePids(ps) {
            forall i, j | 0 <= i < j < |r0| + 1 ensures Pids(r0 + [last])[i] != Pids(r0 + [last])[j] {
              if j == |r0| {
                assert r0[i] in init;
              } else {
                assert Pids(r0)[i] != Pids(r0)[j];
              }
            }
          }
        }
        r0 + [last]
      else
        r0
  }

  /**
   * The batch runners' admission loop, a pass over the input pushing each
   * process whose arrival time is `t`: appends the arrivals of time `t` to
   * `ready`, in input order.
   */
  method EnqueueArrivals(ready: seq<Process>, procs: seq<Process>, t: int) returns (ready': seq<Process>)
    ensures ready' == ready + ArrivingAt(procs, t)
  {
    ready' := ready;
    for j := 0 to |procs|
      invariant ready' == ready + ArrivingAt(procs[..j], t)
    {
      assert procs[..j + 1][..j] == procs[..j];
      if procs[j].arrivalTime == t {
        ready' := ready' + [procs[j]];
      }
    }
    assert procs[..|procs|] == procs;
  }

  lemma PidsConcat(a: seq<Process>, b: seq<Process>)
    ensures Pids(a + b) == Pids(a) + Pids(b)
  {
    assert forall i :: 0 <= i < |a + b| ==> Pids(a + b)[i] == (Pids(a) + Pids(b))[i];
  }

  /**
   * Admission keeps input order: the arrivals of a concatenation are the
   * arrivals of its first part followed by those of its second part, so an
   * earlier input process is queued before a later one.
   */
  lemma {:induction false} ArrivingAtConcat(a: seq<Process>, b: seq<Process>, t: int)
    ensures ArrivingAt(a + b, t) == ArrivingAt(a, t) + ArrivingAt(b, t)
    decreases |b|
  {
    if b == [] {
      assert a + b == a;
    } else {
      var b0, last := b[..|b| - 1], b[|b| - 1];
      assert (a + b)[..|a + b| - 1] == a + b0 && (a + b)[|a + b| - 1] == last;
      if last.arrivalTime == t {
        calc {
          ArrivingAt(a + b, t);
          ArrivingAt(a + b0, t) + [last];
          { ArrivingAtConcat(a, b0, t); }
          (ArrivingAt(a, t) + ArrivingAt(b0, t)) + [last];
          ArrivingAt(a, t) + (ArrivingAt(b0, t) + [last]);
          ArrivingAt(a, t) + ArrivingAt(b, t);
        }
      } else {
        calc {
          ArrivingAt(a + b, t);
          ArrivingAt(a + b0, t);
          { ArrivingAtConcat(a, b0, t); }
          ArrivingAt(a, t) + ArrivingAt(b0, t);
          ArrivingAt(a, t) + ArrivingAt(b, t);
        }
      }
    }
  }

  /** `findIndex` by pid: the first index holding `pid`, or -1. */
  function FindPid(q: seq<Process>, pid: int): (k: int)
    ensures -1 <= k < |q|
    ensures 0 <= k ==> q[k].pid == pid && forall j :: 0 <= j < k ==> q[j].pid != pid
    ensures k == -1 ==> forall j :: 0 <= j < |q| ==> q[j].pid != pid
  {
    if q == [] then -1
    else if q[0].pid == pid then 0
    else
      var k := FindPid(q[1..], pid);
      if k == -1 then -1 else k + 1
  }

  /** `findIndex` by pid followed by a `splice` of that one entry when it is found. */
  function RemoveFirstPid(q: seq<Process>, pid: int): seq<Process> {
    var k := FindPid(q, pid);
    if k == -1 then q else q[..k] + q[k + 1..]
  }

  /** Splicing out the first entry holding `pid` adds no process and keeps every process with another pid. */
  lemma RemoveFirstPidMembers(q: seq<Process>, pid: int)
    ensures forall x :: x in RemoveFirstPid(q, pid) ==> x in q
    ensures forall x :: x in q && x.pid != pid ==> x in RemoveFirstPid(q, pid)
  {
    var k := FindPid(q, pid);
    if k != -1 {
      var r := q[..k] + q[k + 1..];
      forall x | x in r ensures x in q {
        var i :| 0 <= i < |r| && r[i] == x;
        assert x == q[if i < k then i else i + 1];
      }
      forall x | x in q && x.pid != pid ensures x in r {
        var i :| 0 <= i < |q| && q[i] == x;
        assert i != k;
        assert r[if i < k then i else i - 1] == x;
      }
    }
  }

  // ---------------------------------------------------------------------------
  // Sums

  /** `totalBurst`: the sum of the burst times, folded from the left starting at 0. */
  function SumBurst(ps: seq<Process>): int {
    if ps == [] then 0 else SumBurst(ps[..|ps| - 1]) + ps[|ps| - 1].burstTime
  }

  lemma {:induction false} SumBurstConcat(a: seq<Process>, b: seq<Process>)
    ensures SumBurst(a + b) == SumBurst(a) + SumBurst(b)
    decreases |b|
  {
    if b == [] {
      assert a + b == a;
    } else {
      SumBurstConcat(a, b[..|b| - 1]);
      assert (a + b)[..|a + b| - 1] == a + b[..|b| - 1];
    }
  }

  /** The total burst does not depend on the order of the processes. */
  lemma {:induction false} SumBurstPermutation(a: seq<Process>, b: seq<Process>)
    requires multiset(a) == multiset(b)
    ensures SumBurst(a) == SumBurst(b)
    decreases |a|
  {
    if a != [] {
      var x := a[|a| - 1];
      assert a == a[..|a| - 1] + [x];
      assert x in multiset(b);
      var k :| 0 <= k < |b| && b[k] == x;
      assert b == b[..k] + [x] + b[k + 1..];
      var rest := b[..k] + b[k + 1..];
      assert multiset(b) == multiset(rest) + multiset{x} by {
        assert multiset(b) == multiset(b[..k]) + multiset([x]) + multiset(b[k + 1..]);
      }
      assert multiset(a) == multiset(a[..|a| - 1]) + multiset{x};
      assert multiset(rest) == multiset(b) - multiset{x};
      assert multiset(a[..|a| - 1]) == multiset(a) - multiset{x};
      SumBurstPermutation(a[..|a| - 1], rest);
      SumBurstConcat(b[..k] + [x], b[k + 1..]);
      SumBurstConcat(b[..k], [x]);
      SumBurstConcat(b[..k], b[k + 1..]);
      assert SumBurst([x]) == x.burstTime by {
        assert [x][..0] == [];
      }
    }
  }

  lemma PermutationPids(a: seq<Process>, b: seq<Process>)
    requires multiset(a) == multiset(b)
    ensures |a| == |b| && Elems(Pids(a)) == Elems(Pids(b))
  {
    assert |a| == |multiset(a)| == |multiset(b)| == |b|;
    forall x | x in Elems(Pids(a)) ensures x in Elems(Pids(b)) {
      var i :| 0 <= i < |a| && Pids(a)[i] == x;
      assert a[i] in multiset(b);
      var j :| 0 <= j < |b| && b[j] == a[i];
      assert Pids(b)[j] == x;
    }
    forall x | x in Elems(Pids(b)) ensures x in Elems(Pids(a)) {
      var j :| 0 <= j < |b| && Pids(b)[j] == x;
      assert b[j] in multiset(a);
      var i :| 0 <= i < |a| && a[i] == b[j];
      assert Pids(a)[i] == x;
    }
  }

  /** Reordering the input keeps it valid (unique pids, valid processes). */
  lemma PermutationKeepsValidInput(a: seq<Process>, b: seq<Process>)
    requires multiset(a) == multiset(b) && ValidInput(a)
    ensures ValidInput(b)
  {
    PermutationPids(a, b);
    DistinctCard(Pids(a));
    DistinctCard(Pids(b));
    forall i | 0 <= i < |b| ensures ValidProcess(b[i]) {
      assert b[i] in multiset(a);
    }
  }

  lemma PermutationResultPids(a: seq<ProcessResult>, b: seq<ProcessResult>)
    requires multiset(a) == multiset(b)
    ensures |a| == |b| && Elems(ResultPids(a)) == Elems(ResultPids(b))
    ensures Distinct(ResultPids(a)) <==> Distinct(ResultPids(b))
  {
    assert |a| == |multiset(a)| == |multiset(b)| == |b|;
    forall x | x in Elems(ResultPids(a)) ensures x in Elems(ResultPids(b)) {
      var i :| 0 <= i < |a| && ResultPids(a)[i] == x;
      assert a[i] in multiset(b);
      var j :| 0 <= j < |b| && b[j] == a[i];
      assert ResultPids(b)[j] == x;
    }
    forall x | x in Elems(ResultPids(b)) ensures x in Elems(ResultPids(a)) {
      var j :| 0 <= j < |b| && ResultPids(b)[j] == x;
      assert b[j] in multiset(a);
      var i :| 0 <= i < |a| && a[i] == b[j];
      assert ResultPids(a)[i] == x;
    }
    DistinctCard(ResultPids(a));
    DistinctCard(ResultPids(b));
  }

  /** The total burst of the processes of `ps` whose pid is in `f`. */
  function BurstOf(ps: seq<Process>, f: set<int>): int {
    if ps == [] then 0
    else BurstOf(ps[..|ps| - 1], f) + (if ps[|ps| - 1].pid in f then ps[|ps| - 1].burstTime else 0)
  }

  lemma {:induction false} BurstOfBounds(ps: seq<Process>, f: set<int>)
    requires AllValid(ps)
    ensures 0 <= BurstOf(ps, f) <= SumBurst(ps)
    ensures Elems(Pids(ps)) <= f ==> BurstOf(ps, f) == SumBurst(ps)
    ensures (exists x :: x in ps && x.pid !in f) ==> BurstOf(ps, f) < SumBurst(ps)
    decreases |ps|
  {
    if ps != [] {
      var init, last := ps[..|ps| - 1], ps[|ps| - 1];
      BurstOfBounds(init, f);
      assert Elems(Pids(init)) <= Elems(Pids(ps)) by {
        forall x | x in Elems(Pids(init)) ensures x in Elems(Pids(ps)) {
          var i :| 0 <= i < |init| && Pids(init)[i] == x;
          assert Pids(ps)[i] == x;
        }
      }
      assert last.pid in Elems(Pids(ps)) by {
        assert Pids(ps)[|ps| - 1] == last.pid;
      }
      if x :| x in ps && x.pid !in f {
        if x != last {
          var i :| 0 <= i < |ps| && ps[i] == x;
          assert init[i] == x;
        }
      }
    }
  }

  lemma {:induction false} BurstOfNone(ps: seq<Process>)
    ensures BurstOf(ps, {}) == 0
    decreases |ps|
  {
    if ps != [] {
      BurstOfNone(ps[..|ps| - 1]);
    }
  }

  /** Adding the pid of a process of `ps` that was not in `f` adds its burst. */
  lemma {:induction false} BurstOfAdd(ps: seq<Process>, f: set<int>, p: Process)
    requires UniquePids(ps) && p in ps && p.pid !in f
    ensures BurstOf(ps, f + {p.pid}) == BurstOf(ps, f) + p.burstTime
    decreases |ps|
  {
    var init, last := ps[..|ps| - 1], ps[|ps| - 1];
    assert ps == init + [last];
    assert UniquePids(init) by {
      forall i, j | 0 <= i < j < |init| ensures Pids(init)[i] != Pids(init)[j] {
        assert Pids(init)[i] == Pids(ps)[i] && Pids(init)[j] == Pids(ps)[j];
      }
    }
    if last == p {
      assert forall i :: 0 <= i < |init| ==> init[i].pid != p.pid by {
        forall i | 0 <= i < |init| ensures init[i].pid != p.pid {
          assert Pids(ps)[i] != Pids(ps)[|ps| - 1];
        }
      }
      BurstOfOther(init, f, p.pid);
    } else {
      BurstOfAdd(init, f, p);
      assert last.pid != p.pid by {
        if last.pid == p.pid {
          SamePidSameProcess(ps, last, p);
        }
      }
    }
  }

  /** Adding a pid that no process of `ps` has changes nothing. */
  lemma {:induction false} BurstOfOther(ps: seq<Process>, f: set<int>, pid: int)
    requires forall i :: 0 <= i < |ps| ==> ps[i].pid != pid
    ensures BurstOf(ps, f + {pid}) == BurstOf(ps, f)
    decreases |ps|
  {
    if ps != [] {
      BurstOfOther(ps[..|ps| - 1], f, pid);
    }
  }

  /** The remaining times of the processes of `ps`, summed. */
  function SumRemaining(ps: seq<Process>, rem: map<int, int>): int
    requires forall i :: 0 <= i < |ps| ==> ps[i].pid in rem
  {
    if ps == [] then 0
    else SumRemaining(ps[..|ps| - 1], rem) + rem[ps[|ps| - 1].pid]
  }

  /** Lowering the remaining time of one process of `ps` by `d` lowers the sum by `d`. */
  lemma {:induction false} SumRemainingUpdate(ps: seq<Process>, rem: map<int, int>, p: Process, v: int)
    requires UniquePids(ps) && p in ps
    requires forall i :: 0 <= i < |ps| ==> ps[i].pid in rem
    ensures SumRemaining(ps, rem[p.pid := v]) == SumRemaining(ps, rem) - rem[p.pid] + v
    decreases |ps|
  {
    var init, last := ps[..|ps| - 1], ps[|ps| - 1];
    assert ps == init + [last];
    assert UniquePids(init) by {
      forall i, j | 0 <= i < j < |init| ensures Pids(init)[i] != Pids(init)[j] {
        assert Pids(init)[i] == Pids(ps)[i] && Pids(init)[j] == Pids(ps)[j];
      }
    }
    if last == p {
      forall i | 0 <= i < |init| ensures init[i].pid != p.pid {
        assert Pids(ps)[i] != Pids(ps)[|ps| - 1];
      }
      SumRemainingOther(init, rem, p.pid, v);
    } else {
      SumRemainingUpdate(init, rem, p, v);
      assert last.pid != p.pid by {
        if last.pid == p.pid {
          SamePidSameProcess(ps, last, p);
        }
      }
    }
  }

  lemma {:induction false} SumRemainingOther(ps: seq<Process>, rem: map<int, int>, pid: int, v: int)
    requires forall i :: 0 <= i < |ps| ==> ps[i].pid in rem && ps[i].pid != pid
    ensures SumRemaining(ps, rem[pid := v]) == SumRemaining(ps, rem)
    decreases |ps|
  {
    if ps != [] {
      SumRemainingOther(ps[..|ps| - 1], rem, pid, v);
    }
  }

  lemma {:induction false} SumRemainingNonNegative(ps: seq<Process>, rem: map<int, int>)
    requires forall i :: 0 <= i < |ps| ==> ps[i].pid in rem && 0 <= rem[ps[i].pid]
    ensures 0 <= SumRemaining(ps, rem)
    decreases |ps|
  {
    if ps != [] {
      SumRemainingNonNegative(ps[..|ps| - 1], rem);
    }
  }

  /** The remaining-time record the batch runners start from: each pid mapped to its burst. */
  function InitialRemaining(ps: seq<Process>): (m: map<int, int>)
    ensures m.Keys == Elems(Pids(ps))
    ensures UniquePids(ps) ==> forall x :: x in ps ==> x.pid in m && m[x.pid] == x.burstTime
  {
    if ps == [] then map[]
    else
      var init, last := ps[..|ps| - 1], ps[|ps| - 1];
      assert ps == init + [last];
      assert Pids(ps) == Pids(init) + [last.pid];
      ElemsAppend(Pids(init), last.pid);
      assert UniquePids(ps) ==> UniquePids(init) && forall x :: x in init ==> x.pid != last.pid by {
        if UniquePids(ps) {
          forall i, j | 0 <= i < j < |init| ensures Pids(init)[i] != Pids(init)[j] {
            assert Pids(init)[i] == Pids(ps)[i] && Pids(init)[j] == Pids(ps)[j];
          }
          forall x | x in init ensures x.pid != last.pid {
            var i :| 0 <= i < |init| && init[i] == x;
            assert Pids(ps)[i] != Pids(ps)[|ps| - 1];
          }
        }
      }
      InitialRemaining(init)[last.pid := last.burstTime]
  }

  lemma {:induction false} SumRemainingIsBurst(ps: seq<Process>, rem: map<int, int>)
    requires forall i :: 0 <= i < |ps| ==> ps[i].pid in rem && rem[ps[i].pid] == ps[i].burstTime
    ensures SumRemaining(ps, rem) == SumBurst(ps)
    decreases |ps|
  {
    if ps != [] {
      SumRemainingIsBurst(ps[..|ps| - 1], rem);
    }
  }

  lemma {:induction false} SumRemainingZero(ps: seq<Process>, rem: map<int, int>)
    requires forall i :: 0 <= i < |ps| ==> ps[i].pid in rem && rem[ps[i].pid] == 0
    ensures SumRemaining(ps, rem) == 0
    decreases |ps|
  {
    if ps != [] {
      SumRemainingZero(ps[..|ps| - 1], rem);
    }
  }

  /** The batch runners' `forEach` filling the remaining-time record with each process's burst, in turn. */
  method CopyBurstTimes(processes: seq<Process>) returns (remainingTime: map<int, int>)
    ensures remainingTime == InitialRemaining(processes)
  {
    remainingTime := map[];
    for i := 0 to |processes|
      invariant remainingTime == InitialRemaining(processes[..i])
    {
      assert processes[..i + 1][..i] == processes[..i];
      remainingTime := remainingTime[processes[i].pid := processes[i].burstTime];
    }
    assert processes[..|processes|] == processes;
  }

  /** Ticks of the clock `x` has been able to use since its arrival. */
  function Elapsed(t: int, x: Process): int {
    if t > x.arrivalTime then t - x.arrivalTime else 0
  }

  /** The latest arrival time, 0 for no processes. */
  function MaxArrival(ps: seq<Process>): (m: int)
    ensures forall i :: 0 <= i < |ps| ==> ps[i].arrivalTime <= m
  {
    if ps == [] then 0
    else
      var m0 := MaxArrival(ps[..|ps| - 1]);
      var a := ps[|ps| - 1].arrivalTime;
      assert forall i :: 0 <= i < |ps| - 1 ==> ps[i] == ps[..|ps| - 1][i];
      if a > m0 then a else m0
  }

  // ---------------------------------------------------------------------------
  // Timelines

  /**
   * The steps of running `p` without interruption from tick `start`: one per
   * tick, with remaining time burstTime-1 down to 0, all with one snapshot.
   */
  function Block(p: Process, start: int, queueBefore: QueueSnapshot): seq<ExecutionStep>
    requires ValidProcess(p)
  {
    seq(p.burstTime, k requires 0 <= k < p.burstTime =>
      ExecutionStep(start + k, p.pid, p.name, p.burstTime - (k + 1), queueBefore))
  }

  /**
   * Non-preemption read off a timeline: no step leaves a negative remaining
   * time, and a step that leaves work is followed, on the next tick, by a step
   * of the same process with one unit less.
   */
  predicate RunsToCompletion(h: seq<ExecutionStep>) {
    forall i {:trigger h[i]} :: 0 <= i < |h| ==>
      && 0 <= h[i].remainingTime
      && (h[i].remainingTime > 0 ==>
            && i + 1 < |h|
            && h[i + 1].processId == h[i].processId
            && h[i + 1].time == h[i].time + 1
            && h[i + 1].remainingTime == h[i].remainingTime - 1)
  }

  lemma BlockRunsToCompletion(p: Process, start: int, queueBefore: QueueSnapshot)
    requires ValidProcess(p)
    ensures RunsToCompletion(Block(p, start, queueBefore))
  {
  }

  /** Every step of `h` is logged at a tick in [lo, hi). */
  predicate TimesWithin(h: seq<ExecutionStep>, lo: int, hi: int) {
    forall i :: 0 <= i < |h| ==> lo <= h[i].time < hi
  }

  /** The ticks of `h` strictly increase: no tick is logged twice. */
  predicate TimesIncrease(h: seq<ExecutionStep>) {
    forall i, j :: 0 <= i < j < |h| ==> h[i].time < h[j].time
  }

  lemma BlockTimes(p: Process, start: int, queueBefore: QueueSnapshot)
    requires ValidProcess(p)
    ensures TimesWithin(Block(p, start, queueBefore), start, start + p.burstTime)
    ensures TimesIncrease(Block(p, start, queueBefore))
  {
  }

  lemma ConcatTimes(h1: seq<ExecutionStep>, h2: seq<ExecutionStep>, lo: int, mid: int, hi: int)
    requires TimesWithin(h1, lo, mid) && TimesWithin(h2, mid, hi) && lo <= mid <= hi
    requires TimesIncrease(h1) && TimesIncrease(h2)
    ensures TimesWithin(h1 + h2, lo, hi) && TimesIncrease(h1 + h2)
  {
    var h := h1 + h2;
    forall i | 0 <= i < |h| ensures lo <= h[i].time < hi {
      if i >= |h1| {
        assert h[i] == h2[i - |h1|];
      }
    }
    forall i, j | 0 <= i < j < |h| ensures h[i].time < h[j].time {
      if j < |h1| {
        assert h[i] == h1[i] && h[j] == h1[j];
      } else if i < |h1| {
        assert h[i] == h1[i] && h[j] == h2[j - |h1|];
      } else {
        assert h[i] == h2[i - |h1|] && h[j] == h2[j - |h1|];
      }
    }
  }

  lemma ConcatRunsToCompletion(h1: seq<ExecutionStep>, h2: seq<ExecutionStep>)
    requires RunsToCompletion(h1) && RunsToCompletion(h2)
    ensures RunsToCompletion(h1 + h2)
  {
    var h := h1 + h2;
    forall i | 0 <= i < |h| && h[i].remainingTime > 0
      ensures i + 1 < |h| && h[i + 1].processId == h[i].processId
      ensures h[i + 1].time == h[i].time + 1 && h[i + 1].remainingTime == h[i].remainingTime - 1
    {
      if i < |h1| {
        assert h[i] == h1[i] && h1[i].remainingTime > 0;
        assert i + 1 < |h1|;
        assert h[i + 1] == h1[i + 1];
      } else {
        var k := i - |h1|;
        assert h[i] == h2[k] && h2[k].remainingTime > 0;
        assert k + 1 < |h2|;
        assert h[i + 1] == h2[k + 1];
      }
    }
  }
}
