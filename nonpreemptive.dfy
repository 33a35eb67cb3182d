/** Shortest-Job-First (`SchedulerApp.sjf`) and Priority scheduling
    (`SchedulerApp.priority_scheduling`): the same ready-queue loop, which
    re-sorts the queue by a key (burst, resp. priority) and dispatches its
    head to run to completion.

    Neither policy ever writes a process's `remaining` field, which the
    caller sets to the burst, so the admission test `remaining > 0` is
    `burst > 0` here. A dispatched process is therefore admitted again and
    may be dispatched again; the loop stops after exactly n dispatches. */
module NonPreemptive {
  import opened Sorting
  import opened Processes

  /** The loop's state between two iterations. */
  datatype State = State(clock: int, queue: seq<Process>, completed: nat, out: Outcome)

  function Initial(): State
  {
    State(0, [], 0, Outcome([], map[], map[]))
  }

  /** The admission test: arrived, and with work left. */
  predicate Eligible(p: Process, clock: int)
  {
    p.arrival <= clock && p.burst > 0
  }

  /** The admission pass over the first `k` processes: each eligible one
      that is not queued yet is appended. */
  function Admit(ps: seq<Process>, k: nat, clock: int, queue: seq<Process>): seq<Process>
    requires k <= |ps|
  {
    if k == 0 then queue
    else
      var q := Admit(ps, k - 1, clock, queue);
      var p := ps[k - 1];
      if Eligible(p, clock) && p !in q then q + [p] else q
  }

  /** The pass keeps what was queued, adds only eligible processes of the
      table, and leaves no eligible process out. */
  lemma {:induction false} AdmitFacts(ps: seq<Process>, k: nat, clock: int, queue: seq<Process>)
    requires k <= |ps|
    ensures var r := Admit(ps, k, clock, queue);
      && (forall x :: x in queue ==> x in r)
      && (forall x :: x in r ==> x in queue || (x in ps && Eligible(x, clock)))
      && (forall i :: 0 <= i < k && Eligible(ps[i], clock) ==> ps[i] in r)
  {
    if k > 0 {
      AdmitFacts(ps, k - 1, clock, queue);
    }
  }

  /** One iteration of `while completed != n`: admit, then either let one
      clock tick pass or sort the queue by `key` and run its head to completion. */
  function Step(ps: seq<Process>, key: Process -> int, s: State): State
  {
    var q := Admit(ps, |ps|, s.clock, s.queue);
    if q == [] then State(s.clock + 1, q, s.completed, s.out)
    else Dispatch(s, SortBy(q, key))
  }

  /** Pop the head of the sorted queue and run it to completion. */
  function Dispatch(s: State, sortedQueue: seq<Process>): State
    requires sortedQueue != []
  {
    var p := sortedQueue[0];
    State(s.clock + p.burst, sortedQueue[1..], s.completed + 1,
          Outcome(s.out.schedule + [Slice(p.pid, p.burst)],
                  s.out.waiting[p.pid := s.clock - p.arrival],
                  s.out.turnaround[p.pid := s.clock + p.burst - p.arrival]))
  }

  /** The loop ends: there is no process, or one can be admitted at all. */
  predicate Terminates(ps: seq<Process>)
  {
    ps == [] || exists i :: 0 <= i < |ps| && ps[i].burst > 0
  }

  /** If the admission pass leaves the queue empty, the clock is still
      before the horizon, so idle ticks cannot go on forever. */
  lemma IdleBeforeHorizon(ps: seq<Process>, clock: int, queue: seq<Process>)
    requires ps != [] && Terminates(ps)
    requires Admit(ps, |ps|, clock, queue) == []
    ensures clock < Horizon(ps)
  {
    var i :| 0 <= i < |ps| && ps[i].burst > 0;
    AdmitFacts(ps, |ps|, clock, queue);
    assert !Eligible(ps[i], clock);
  }

  /** The whole loop, from state `s` until `completed == n`. */
  function Run(ps: seq<Process>, key: Process -> int, s: State): State
    requires Terminates(ps) && s.completed <= |ps|
    decreases |ps| - s.completed, Horizon(ps) - s.clock
  {
    if s.completed == |ps| then s
    else
      var q := Admit(ps, |ps|, s.clock, s.queue);
      if q == [] then
        IdleBeforeHorizon(ps, s.clock, s.queue);
        Run(ps, key, Step(ps, key, s))
      else
        Run(ps, key, Step(ps, key, s))
  }

  lemma ByArrivalTerminates(processes: seq<Process>)
    requires Terminates(processes)
    ensures Terminates(ByArrival(processes))
  {
    var q := ByArrival(processes);
    if processes != [] {
      var i :| 0 <= i < |processes| && processes[i].burst > 0;
      assert processes[i] in multiset(q);
      var j :| 0 <= j < |q| && q[j] == processes[i];
    }
  }

  /** What `sjf(processes)` (key = burst) or `priority_scheduling(processes)`
      (key = priority) returns. */
  function NonPreemptiveResult(processes: seq<Process>, key: Process -> int): Outcome
    requires Terminates(processes)
  {
    ByArrivalTerminates(processes);
    Run(ByArrival(processes), key, Initial()).out
  }

  /** When no process is eligible the pass admits nothing. */
  lemma {:induction false} AdmitNone(ps: seq<Process>, k: nat, clock: int)
    requires k <= |ps| && forall i :: 0 <= i < |ps| ==> !Eligible(ps[i], clock)
    ensures Admit(ps, k, clock, []) == []
  {
    if k > 0 {
      AdmitNone(ps, k - 1, clock);
    }
  }

  /** `k` iterations of the loop body, whatever the loop condition says. */
  function Steps(ps: seq<Process>, key: Process -> int, s: State, k: nat): State
    decreases k
  {
    if k == 0 then s else Steps(ps, key, Step(ps, key, s), k - 1)
  }

  /** Without a positive burst nothing is ever admitted: every iteration is
      an idle tick and `completed` stays where it is, so on a non-empty
      table `while completed != n` never ends. With one positive burst
      `Run` shows that it does. */
  lemma {:induction false} NoWorkStalls(ps: seq<Process>, key: Process -> int, s: State, k: nat)
    requires forall i :: 0 <= i < |ps| ==> ps[i].burst <= 0
    requires s.queue == []
    ensures var t := Steps(ps, key, s, k);
      t.completed == s.completed && t.out == s.out && t.clock == s.clock + k
    decreases k
  {
    if k > 0 {
      AdmitNone(ps, |ps|, s.clock);
      assert Step(ps, key, s) == State(s.clock + 1, [], s.completed, s.out);
      NoWorkStalls(ps, key, Step(ps, key, s), k - 1);
    }
  }

  /** The `for p in processes_sorted` admission loop. */
  method AdmitArrived(sorted: seq<Process>, clock: int, queue0: seq<Process>) returns (queue: seq<Process>)
    ensures queue == Admit(sorted, |sorted|, clock, queue0)
  {
    queue := queue0;
    for j := 0 to |sorted|
      invariant queue == Admit(sorted, j, clock, queue0)
    {
      var p := sorted[j];
      if p.arrival <= clock && p.burst > 0 && p !in queue {
        queue := queue + [p];
      }
    }
  }

  /** One iteration of the `while` loop, on the loop's variables. */
  method Iterate(sorted: seq<Process>, key: Process -> int, s: State) returns (t: State)
    ensures t == Step(sorted, key, s)
  {
    var queue := AdmitArrived(sorted, s.clock, s.queue);
    if queue == [] {
      return State(s.clock + 1, queue, s.completed, s.out);
    }
    queue := SortBy(queue, key);
    t := Dispatch(s, queue);
  }

  method Schedule(processes: seq<Process>, key: Process -> int)
      returns (schedule: seq<Slice>, waiting: map<string, int>, turnaround: map<string, int>)
    requires Terminates(processes)
    ensures Outcome(schedule, waiting, turnaround) == NonPreemptiveResult(processes, key)
  {
    var sorted := ByArrival(processes);
    ByArrivalTerminates(processes);
    var n := |sorted|;
    var s := Initial();
    ghost var final := Run(sorted, key, s);
    while s.completed != n
      invariant s.completed <= n
      invariant Run(sorted, key, s) == final
      decreases n - s.completed, Horizon(sorted) - s.clock
    {
      if Admit(sorted, n, s.clock, s.queue) == [] {
        IdleBeforeHorizon(sorted, s.clock, s.queue);
      }
      s := Iterate(sorted, key, s);
    }
    schedule, waiting, turnaround := s.out.schedule, s.out.waiting, s.out.turnaround;
  }

  /** `sjf`: the queue is sorted by burst. */
  method ShortestJobFirst(processes: seq<Process>)
      returns (schedule: seq<Slice>, waiting: map<string, int>, turnaround: map<string, int>)
    requires Terminates(processes)
    ensures Outcome(schedule, waiting, turnaround) == NonPreemptiveResult(processes, Burst)
  {
    schedule, waiting, turnaround := Schedule(processes, Burst);
  }

  /** `priority_scheduling`: the queue is sorted by priority value. */
  method PriorityScheduling(processes: seq<Process>)
      returns (schedule: seq<Slice>, waiting: map<string, int>, turnaround: map<string, int>)
    requires Terminates(processes)
    ensures Outcome(schedule, waiting, turnaround) == NonPreemptiveResult(processes, Priority)
  {
    schedule, waiting, turnaround := Schedule(processes, Priority);
  }

  /** The loop runs until exactly n processes have been dispatched: the
      schedule has one entry per process, though not necessarily one per pid. */
  lemma {:induction false} RunLength(ps: seq<Process>, key: Process -> int, s: State)
    requires Terminates(ps) && s.completed <= |ps|
    ensures Run(ps, key, s).completed == |ps|
    ensures |Run(ps, key, s).out.schedule| == |s.out.schedule| + |ps| - s.completed
    decreases |ps| - s.completed, Horizon(ps) - s.clock
  {
    if s.completed < |ps| {
      if Admit(ps, |ps|, s.clock, s.queue) == [] {
        IdleBeforeHorizon(ps, s.clock, s.queue);
      }
      RunLength(ps, key, Step(ps, key, s));
    }
  }

  /** Every queued process has arrived and has work left. */
  predicate QueueReady(ps: seq<Process>, queue: seq<Process>, clock: int)
  {
    forall x :: x in queue ==> x in ps && Eligible(x, clock)
  }

  /** What one iteration does. If some process is eligible, the one
      dispatched is eligible, has the least key among ALL eligible processes,
      and is the first such in queue order (the stable sort keeps earlier
      entries ahead of later ones with the same key); it runs for its whole
      burst. Otherwise one idle tick passes and nothing is recorded. */
  lemma DispatchChoice(ps: seq<Process>, key: Process -> int, s: State)
    requires QueueReady(ps, s.queue, s.clock)
    ensures var q, t := Admit(ps, |ps|, s.clock, s.queue), Step(ps, key, s);
      if q == [] then
        && (forall i :: 0 <= i < |ps| ==> !Eligible(ps[i], s.clock))
        && t.out == s.out && t.clock == s.clock + 1 && t.completed == s.completed
      else
        var m := LeftmostMin(q, key);
        && q[m] in ps && Eligible(q[m], s.clock)
        && (forall i :: 0 <= i < |ps| && Eligible(ps[i], s.clock) ==> key(q[m]) <= key(ps[i]))
        && (forall j :: 0 <= j < m ==> key(q[m]) < key(q[j]))
        && t.out.schedule == s.out.schedule + [Slice(q[m].pid, q[m].burst)]
        && t.clock == s.clock + q[m].burst && t.completed == s.completed + 1
  {
    var q := Admit(ps, |ps|, s.clock, s.queue);
    AdmitFacts(ps, |ps|, s.clock, s.queue);
    if q != [] {
      var m := LeftmostMin(q, key);
      SortByHead(q, key);
      assert q[m] in q;
      forall i | 0 <= i < |ps| && Eligible(ps[i], s.clock) ensures key(q[m]) <= key(ps[i]) {
        var j :| 0 <= j < |q| && q[j] == ps[i];
      }
    }
  }

  /** The slices a dispatch of some process of `ps` can produce. */
  function Dispatchable(ps: seq<Process>): set<Slice>
  {
    set p | p in ps && p.burst > 0 :: Slice(p.pid, p.burst)
  }

  /** The invariant of the loop, given distinct pids. */
  predicate Sound(ps: seq<Process>, s: State)
  {
    && QueueReady(ps, s.queue, s.clock)
    && s.out.waiting.Keys == s.out.turnaround.Keys
    && s.out.waiting.Keys <= Pids(ps)
    && (forall p :: p in ps && p.pid in s.out.waiting ==>
          && s.out.waiting[p.pid] >= 0
          && s.out.turnaround[p.pid] == s.out.waiting[p.pid] + p.burst)
    && (forall k :: 0 <= k < |s.out.schedule| ==> s.out.schedule[k] in Dispatchable(ps))
  }

  lemma SamePid(ps: seq<Process>, p: Process, p': Process)
    requires DistinctPids(ps) && p in ps && p' in ps && p.pid == p'.pid
    ensures p == p'
  {
    var i :| 0 <= i < |ps| && ps[i] == p;
    var j :| 0 <= j < |ps| && ps[j] == p';
  }

  lemma StepSound(ps: seq<Process>, key: Process -> int, s: State)
    requires DistinctPids(ps) && Sound(ps, s)
    ensures Sound(ps, Step(ps, key, s))
  {
    var q := Admit(ps, |ps|, s.clock, s.queue);
    AdmitFacts(ps, |ps|, s.clock, s.queue);
    if q != [] {
      assert QueueReady(ps, q, s.clock);
      DispatchSound(ps, key, s, q);
    }
  }

  lemma DispatchSound(ps: seq<Process>, key: Process -> int, s: State, q: seq<Process>)
    requires DistinctPids(ps) && Sound(ps, s)
    requires q != [] && QueueReady(ps, q, s.clock)
    ensures Sound(ps, Dispatch(s, SortBy(q, key)))
  {
    var r := SortBy(q, key);
    var p := r[0];
    var t := Dispatch(s, r);
    assert p in ps && Eligible(p, s.clock) by {
      assert p in multiset(q);
    }
    assert QueueReady(ps, t.queue, t.clock) by {
      forall x | x in r[1..] ensures x in q {
        assert x in multiset(r);
      }
    }
    assert t.out.waiting.Keys <= Pids(ps) by {
      var i :| 0 <= i < |ps| && ps[i] == p;
      assert p.pid in Pids(ps);
    }
    forall p' | p' in ps && p'.pid in t.out.waiting
      ensures t.out.waiting[p'.pid] >= 0 && t.out.turnaround[p'.pid] == t.out.waiting[p'.pid] + p'.burst
    {
      if p'.pid == p.pid {
        SamePid(ps, p, p');
      }
    }
    assert Slice(p.pid, p.burst) in Dispatchable(ps);
  }

  lemma {:induction false} RunSound(ps: seq<Process>, key: Process -> int, s: State)
    requires Terminates(ps) && s.completed <= |ps|
    requires DistinctPids(ps) && Sound(ps, s)
    ensures Sound(ps, Run(ps, key, s))
    decreases |ps| - s.completed, Horizon(ps) - s.clock
  {
    if s.completed < |ps| {
      if Admit(ps, |ps|, s.clock, s.queue) == [] {
        IdleBeforeHorizon(ps, s.clock, s.queue);
      }
      StepSound(ps, key, s);
      RunSound(ps, key, Step(ps, key, s));
    }
  }

  /** What `sjf` and `priority_scheduling` promise, for distinct pids: the
      schedule has exactly n entries; each runs some process for its whole
      (positive) burst, so a process whose burst is not positive never runs;
      every pid that was dispatched has waiting >= 0 and
      turnaround = waiting + burst, from its last dispatch. */
  lemma NonPreemptiveProperties(processes: seq<Process>, key: Process -> int)
    requires DistinctPids(processes) && Terminates(processes)
    ensures var o := NonPreemptiveResult(processes, key);
      && |o.schedule| == |processes|
      && (forall k :: 0 <= k < |o.schedule| ==> o.schedule[k] in Dispatchable(processes))
      && o.waiting.Keys == o.turnaround.Keys
      && o.waiting.Keys <= Pids(processes)
      && (forall p :: p in processes && p.pid in o.waiting ==>
            && o.waiting[p.pid] >= 0
            && o.turnaround[p.pid] == o.waiting[p.pid] + p.burst)
  {
    var q := ByArrival(processes);
    ByArrivalTerminates(processes);
    ByArrivalKeeps(processes);
    RunLength(q, key, Initial());
    RunSound(q, key, Initial());
    assert forall p :: p in q <==> p in processes by {
      forall p ensures p in q <==> p in processes {
        assert p in q <==> p in multiset(q);
      }
    }
    assert Dispatchable(q) == Dispatchable(processes);
  }

  /** Sorting two elements whose keys are distinct. */
  lemma SortBy2<T>(b: T, c: T, key: T -> int)
    ensures key(c) < key(b) ==> SortBy([b, c], key) == [c, b]
    ensures key(b) < key(c) ==> SortBy([b, c], key) == [b, c]
  {
    assert [b, c][1..] == [c] && [c][1..] == [];
    assert SortBy([c], key) == InsertBy(c, [], key) == [c];
    assert SortBy([b, c], key) == InsertBy(b, [c], key);
    assert key(c) < key(b) ==> InsertBy(b, [c], key) == [c] + InsertBy(b, [], key);
  }

  /** Inserting behind exactly one smaller element. */
  lemma InsertBySecond<T>(x: T, c: T, b: T, key: T -> int)
    requires key(c) < key(x) <= key(b)
    ensures InsertBy(x, [c, b], key) == [c, x, b]
  {
    assert [c, b][1..] == [b];
    assert InsertBy(x, [b], key) == [x, b];
  }

  lemma SortByDescending3<T>(a: T, b: T, c: T, key: T -> int)
    requires key(c) < key(b) < key(a)
    ensures SortBy([a, b, c], key) == [c, b, a]
  {
    assert [a, b, c][1..] == [b, c];
    assert SortBy([a, b, c], key) == InsertBy(a, SortBy([b, c], key), key);
    SortBy2(b, c, key);
    assert [c, b][1..] == [b] && [b][1..] == [];
    assert InsertBy(a, [b], key) == [b] + InsertBy(a, [], key) == [b, a];
    assert InsertBy(a, [c, b], key) == [c] + InsertBy(a, [b], key);
  }

  lemma SortByMiddleFirst3<T>(a: T, b: T, c: T, key: T -> int)
    requires key(c) < key(a) < key(b)
    ensures SortBy([a, b, c], key) == [c, a, b]
  {
    assert [a, b, c][1..] == [b, c];
    assert SortBy([a, b, c], key) == InsertBy(a, SortBy([b, c], key), key);
    SortBy2(b, c, key);
    InsertBySecond(a, c, b, key);
  }

  /** One iteration, once its admission pass and sorted queue are known. */
  lemma StepIs(ps: seq<Process>, key: Process -> int, s: State, q: seq<Process>, r: seq<Process>)
    requires Admit(ps, |ps|, s.clock, s.queue) == q && q != []
    requires SortBy(q, key) == r
    ensures r != [] && Step(ps, key, s) == Dispatch(s, r)
  {
  }

  lemma Overwrite(m: map<string, int>, k: string, v: int, v': int)
    ensures m[k := v][k := v'] == m[k := v']
  {
  }

  /** The three processes of the SJF example, with their pids left abstract. */
  predicate SjfTable(p1: Process, p2: Process, p3: Process)
  {
    && p1.arrival == 0 && p1.burst == 7
    && p2.arrival == 2 && p2.burst == 4
    && p3.arrival == 4 && p3.burst == 1
    && p1.pid != p2.pid && p1.pid != p3.pid && p2.pid != p3.pid
  }

  /** SJF on P1(0,7), P2(2,4), P3(4,1): after P1, the shortest job P3 runs,
      is admitted again (its `remaining` never drops), and runs a second
      time; P2 never runs. */
  lemma SjfRedispatchExample()
    ensures var ps := [Process("P1", 0, 7, 0), Process("P2", 2, 4, 0), Process("P3", 4, 1, 0)];
      && Terminates(ps)
      && NonPreemptiveResult(ps, Burst)
         == Outcome([Slice("P1", 7), Slice("P3", 1), Slice("P3", 1)],
                    map["P1" := 0, "P3" := 4], map["P1" := 7, "P3" := 5])
  {
    var p1, p2, p3 := Process("P1", 0, 7, 0), Process("P2", 2, 4, 0), Process("P3", 4, 1, 0);
    assert [p1, p2, p3][0].burst > 0;
    ByArrivalOfSorted3(p1, p2, p3);
    SjfRedispatch(p1, p2, p3);
  }

  lemma SjfRedispatch(p1: Process, p2: Process, p3: Process)
    requires SjfTable(p1, p2, p3)
    ensures Terminates([p1, p2, p3])
    ensures Run([p1, p2, p3], Burst, Initial()).out
         == Outcome([Slice(p1.pid, 7), Slice(p3.pid, 1), Slice(p3.pid, 1)],
                    map[p1.pid := 0, p3.pid := 4], map[p1.pid := 7, p3.pid := 5])
  {
    var ps := [p1, p2, p3];
    assert ps[0].burst > 0;
    var s1 := State(7, [], 1, Outcome([Slice(p1.pid, 7)], map[p1.pid := 0], map[p1.pid := 7]));
    var s2 := State(8, [p2, p1], 2, Outcome([Slice(p1.pid, 7), Slice(p3.pid, 1)],
                                            map[p1.pid := 0, p3.pid := 3], map[p1.pid := 7, p3.pid := 4]));
    var s3 := State(9, [p2, p1], 3, Outcome([Slice(p1.pid, 7), Slice(p3.pid, 1), Slice(p3.pid, 1)],
                                            map[p1.pid := 0, p3.pid := 4], map[p1.pid := 7, p3.pid := 5]));
    SjfExampleStep1(p1, p2, p3, s1);
    SjfExampleStep2(p1, p2, p3, s1, s2);
    SjfExampleStep3(p1, p2, p3, s2, s3);
    assert Run(ps, Burst, s2) == s3;
    assert Run(ps, Burst, s1) == s3;
    assert Run(ps, Burst, Initial()) == s3;
  }

  lemma SjfExampleStep1(p1: Process, p2: Process, p3: Process, s1: State)
    requires SjfTable(p1, p2, p3)
    requires s1 == State(7, [], 1, Outcome([Slice(p1.pid, 7)], map[p1.pid := 0], map[p1.pid := 7]))
    ensures Step([p1, p2, p3], Burst, Initial()) == s1
  {
    var ps := [p1, p2, p3];
    assert Admit(ps, 3, 0, []) == [p1] by {
      assert Admit(ps, 1, 0, []) == [p1];
    }
    assert SortBy([p1], Burst) == [p1];
    StepIs(ps, Burst, Initial(), [p1], [p1]);
  }

  /** At time 7 all three processes have arrived. */
  lemma SjfExampleAdmitAll(p1: Process, p2: Process, p3: Process)
    requires SjfTable(p1, p2, p3)
    ensures Admit([p1, p2, p3], 3, 7, []) == [p1, p2, p3]
  {
    var ps := [p1, p2, p3];
    assert Admit(ps, 1, 7, []) == [p1];
    assert Admit(ps, 2, 7, []) == [p1, p2];
  }

  lemma SjfExampleStep2(p1: Process, p2: Process, p3: Process, s1: State, s2: State)
    requires SjfTable(p1, p2, p3)
    requires s1 == State(7, [], 1, Outcome([Slice(p1.pid, 7)], map[p1.pid := 0], map[p1.pid := 7]))
    requires s2 == State(8, [p2, p1], 2, Outcome([Slice(p1.pid, 7), Slice(p3.pid, 1)],
                                                 map[p1.pid := 0, p3.pid := 3], map[p1.pid := 7, p3.pid := 4]))
    ensures Step([p1, p2, p3], Burst, s1) == s2
  {
    var ps := [p1, p2, p3];
    SjfExampleAdmitAll(p1, p2, p3);
    SortByDescending3(p1, p2, p3, Burst);
    StepIs(ps, Burst, s1, [p1, p2, p3], [p3, p2, p1]);
    SjfExampleDispatch2(p1, p2, p3, s1, s2);
  }

  /** At time 7 the shortest job P3 goes first. */
  lemma SjfExampleDispatch2(p1: Process, p2: Process, p3: Process, s1: State, s2: State)
    requires SjfTable(p1, p2, p3)
    requires s1 == State(7, [], 1, Outcome([Slice(p1.pid, 7)], map[p1.pid := 0], map[p1.pid := 7]))
    requires s2 == State(8, [p2, p1], 2, Outcome([Slice(p1.pid, 7), Slice(p3.pid, 1)],
                                                 map[p1.pid := 0, p3.pid := 3], map[p1.pid := 7, p3.pid := 4]))
    ensures Dispatch(s1, [p3, p2, p1]) == s2
  {
    assert [p3, p2, p1][1..] == [p2, p1];
    assert [Slice(p1.pid, 7)] + [Slice(p3.pid, 1)] == [Slice(p1.pid, 7), Slice(p3.pid, 1)];
  }

  /** At time 8 the already queued P2 and P1 stay, and P3 is admitted again. */
  lemma SjfExampleReadmit(p1: Process, p2: Process, p3: Process)
    requires SjfTable(p1, p2, p3)
    ensures Admit([p1, p2, p3], 3, 8, [p2, p1]) == [p2, p1, p3]
  {
    var ps := [p1, p2, p3];
    assert p2 in [p2, p1] && p1 in [p2, p1] && p3 !in [p2, p1];
    assert Admit(ps, 1, 8, [p2, p1]) == [p2, p1];
    assert Admit(ps, 2, 8, [p2, p1]) == [p2, p1];
  }

  lemma SjfExampleStep3(p1: Process, p2: Process, p3: Process, s2: State, s3: State)
    requires SjfTable(p1, p2, p3)
    requires s2 == State(8, [p2, p1], 2, Outcome([Slice(p1.pid, 7), Slice(p3.pid, 1)],
                                                 map[p1.pid := 0, p3.pid := 3], map[p1.pid := 7, p3.pid := 4]))
    requires s3 == State(9, [p2, p1], 3, Outcome([Slice(p1.pid, 7), Slice(p3.pid, 1), Slice(p3.pid, 1)],
                                                 map[p1.pid := 0, p3.pid := 4], map[p1.pid := 7, p3.pid := 5]))
    ensures Step([p1, p2, p3], Burst, s2) == s3
  {
    var ps := [p1, p2, p3];
    SjfExampleReadmit(p1, p2, p3);
    SortByMiddleFirst3(p2, p1, p3, Burst);
    StepIs(ps, Burst, s2, [p2, p1, p3], [p3, p2, p1]);
    SjfExampleRedispatch(p1, p2, p3, s2, s3);
  }

  /** The second run of P3 overwrites its times. */
  lemma SjfExampleRedispatch(p1: Process, p2: Process, p3: Process, s2: State, s3: State)
    requires SjfTable(p1, p2, p3)
    requires s2 == State(8, [p2, p1], 2, Outcome([Slice(p1.pid, 7), Slice(p3.pid, 1)],
                                                 map[p1.pid := 0, p3.pid := 3], map[p1.pid := 7, p3.pid := 4]))
    requires s3 == State(9, [p2, p1], 3, Outcome([Slice(p1.pid, 7), Slice(p3.pid, 1), Slice(p3.pid, 1)],
                                                 map[p1.pid := 0, p3.pid := 4], map[p1.pid := 7, p3.pid := 5]))
    ensures Dispatch(s2, [p3, p2, p1]) == s3
  {
    assert [p3, p2, p1][1..] == [p2, p1];
    Overwrite(map[p1.pid := 0], p3.pid, 3, 4);
    Overwrite(map[p1.pid := 7], p3.pid, 4, 5);
  }
}
