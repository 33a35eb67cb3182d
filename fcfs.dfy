/** First-Come-First-Served (`SchedulerApp.fcfs`): run the processes to
    completion in arrival order, jumping the clock over idle gaps. */
module Fcfs {
  import opened Sorting
  import opened Processes

  /** The loop's state: the clock and what has been recorded so far. */
  datatype Progress = Progress(clock: int, out: Outcome)

  function Max(a: int, b: int): int { if a < b then b else a }

  /** The state after the loop has handled the first `k` processes of `ps`. */
  function RunUpTo(ps: seq<Process>, k: nat): Progress
    requires k <= |ps|
  {
    if k == 0 then Progress(0, Outcome([], map[], map[]))
    else
      var prev := RunUpTo(ps, k - 1);
      var p := ps[k - 1];
      var start := Max(prev.clock, p.arrival);
      Progress(start + p.burst,
               Outcome(prev.out.schedule + [Slice(p.pid, p.burst)],
                       prev.out.waiting[p.pid := start - p.arrival],
                       prev.out.turnaround[p.pid := start + p.burst - p.arrival]))
  }

  /** When the `k`-th process of `ps` gets the CPU: when the previous one
      completes, or at its own arrival if the CPU is idle before then. */
  function StartTime(ps: seq<Process>, k: nat): int
    requires k < |ps|
  {
    Max(RunUpTo(ps, k).clock, ps[k].arrival)
  }

  /** What `fcfs(processes)` returns. */
  function FcfsResult(processes: seq<Process>): Outcome
  {
    RunUpTo(ByArrival(processes), |processes|).out
  }

  method FirstComeFirstServed(processes: seq<Process>)
      returns (schedule: seq<Slice>, waiting: map<string, int>, turnaround: map<string, int>)
    ensures Outcome(schedule, waiting, turnaround) == FcfsResult(processes)
  {
    var sorted := ByArrival(processes);
    schedule, waiting, turnaround := [], map[], map[];
    var clock := 0;
    for i := 0 to |sorted|
      invariant Progress(clock, Outcome(schedule, waiting, turnaround)) == RunUpTo(sorted, i)
    {
      var p := sorted[i];
      if clock < p.arrival {
        clock := p.arrival;
      }
      waiting := waiting[p.pid := clock - p.arrival];
      schedule := schedule + [Slice(p.pid, p.burst)];
      clock := clock + p.burst;
      turnaround := turnaround[p.pid := clock - p.arrival];
    }
  }

  lemma {:induction false} RunUpToSchedule(ps: seq<Process>, k: nat)
    requires k <= |ps|
    ensures |RunUpTo(ps, k).out.schedule| == k
    ensures forall i :: 0 <= i < k ==> RunUpTo(ps, k).out.schedule[i] == Slice(ps[i].pid, ps[i].burst)
  {
    if k > 0 {
      RunUpToSchedule(ps, k - 1);
    }
  }

  /** One schedule entry per process, in stable arrival order, each running
      for the whole burst of its process. */
  lemma FcfsSchedule(processes: seq<Process>)
    ensures var q, o := ByArrival(processes), FcfsResult(processes);
      && |o.schedule| == |processes| == |q|
      && (forall i :: 0 <= i < |q| ==> o.schedule[i] == Slice(q[i].pid, q[i].burst))
      && multiset(q) == multiset(processes)
      && SortedBy(q, Arrival)
      && (forall a :: WithKey(q, Arrival, a) == WithKey(processes, Arrival, a))
  {
    var q := ByArrival(processes);
    RunUpToSchedule(q, |q|);
    SortBySorted(processes, Arrival);
    forall a ensures WithKey(q, Arrival, a) == WithKey(processes, Arrival, a) {
      SortByStable(processes, Arrival, a);
    }
  }

  /** The pids of the first `k` processes of `ps`. */
  function PidsUpTo(ps: seq<Process>, k: nat): set<string>
    requires k <= |ps|
  {
    if k == 0 then {} else PidsUpTo(ps, k - 1) + {ps[k - 1].pid}
  }

  lemma {:induction false} PidsUpToAll(ps: seq<Process>, k: nat)
    requires k <= |ps|
    ensures PidsUpTo(ps, k) == set i | 0 <= i < k :: ps[i].pid
  {
    if k > 0 {
      PidsUpToAll(ps, k - 1);
    }
  }

  lemma {:induction false} RunUpToKeys(ps: seq<Process>, k: nat)
    requires k <= |ps|
    ensures RunUpTo(ps, k).out.waiting.Keys == PidsUpTo(ps, k)
    ensures RunUpTo(ps, k).out.turnaround.Keys == PidsUpTo(ps, k)
  {
    if k > 0 {
      RunUpToKeys(ps, k - 1);
    }
  }

  lemma {:induction false} RunUpToTimes(ps: seq<Process>, k: nat, i: nat)
    requires i < k <= |ps| && DistinctPids(ps)
    ensures var o := RunUpTo(ps, k).out;
      && ps[i].pid in o.waiting && ps[i].pid in o.turnaround
      && o.waiting[ps[i].pid] == StartTime(ps, i) - ps[i].arrival >= 0
      && o.turnaround[ps[i].pid] == o.waiting[ps[i].pid] + ps[i].burst
  {
    if i < k - 1 {
      RunUpToTimes(ps, k - 1, i);
      assert ps[i].pid != ps[k - 1].pid;
    }
  }

  /** Waiting time is start minus arrival and never negative, and
      turnaround = waiting + burst, for every pid; both maps cover all pids. */
  lemma FcfsTimes(processes: seq<Process>)
    requires DistinctPids(processes)
    ensures var q, o := ByArrival(processes), FcfsResult(processes);
      && |q| == |processes| && Pids(q) == Pids(processes)
      && o.waiting.Keys == Pids(q) && o.turnaround.Keys == Pids(q)
      && forall i :: 0 <= i < |q| ==>
           && q[i].pid in o.waiting && q[i].pid in o.turnaround
           && o.waiting[q[i].pid] == StartTime(q, i) - q[i].arrival >= 0
           && o.turnaround[q[i].pid] == o.waiting[q[i].pid] + q[i].burst
  {
    var q := ByArrival(processes);
    ByArrivalKeeps(processes);
    RunUpToKeys(q, |q|);
    PidsUpToAll(q, |q|);
    forall i | 0 <= i < |q|
      ensures var o := RunUpTo(q, |q|).out;
        && q[i].pid in o.waiting && q[i].pid in o.turnaround
        && o.waiting[q[i].pid] == StartTime(q, i) - q[i].arrival >= 0
        && o.turnaround[q[i].pid] == o.waiting[q[i].pid] + q[i].burst
    {
      RunUpToTimes(q, |q|, i);
    }
  }

  /** A process never starts before the previous one has completed, and
      with non-negative bursts the clock never runs backwards. */
  lemma {:induction false} ClockMonotone(ps: seq<Process>, i: nat, j: nat)
    requires i <= j <= |ps|
    requires forall k :: 0 <= k < |ps| ==> ps[k].burst >= 0
    ensures RunUpTo(ps, i).clock <= RunUpTo(ps, j).clock
    ensures j < |ps| ==> RunUpTo(ps, j).clock <= StartTime(ps, j)
    ensures i < j ==> StartTime(ps, i) + ps[i].burst <= RunUpTo(ps, j).clock
    decreases j
  {
    if i < j {
      ClockMonotone(ps, i, j - 1);
    }
  }

  lemma {:induction false} RunUpToTotalTime(ps: seq<Process>, k: nat)
    requires k <= |ps|
    ensures TotalTime(RunUpTo(ps, k).out.schedule) == TotalBurst(ps[..k])
  {
    if k > 0 {
      RunUpToTotalTime(ps, k - 1);
      TotalTimeAppend(RunUpTo(ps, k - 1).out.schedule, Slice(ps[k - 1].pid, ps[k - 1].burst));
      assert ps[..k] == ps[..k - 1] + [ps[k - 1]];
      TotalBurstAppend(ps[..k - 1], ps[k - 1]);
    }
  }

  /** The schedule accounts for exactly the total burst: idle gaps leave no entry. */
  lemma FcfsTotalTime(processes: seq<Process>)
    ensures TotalTime(FcfsResult(processes).schedule) == TotalBurst(processes)
  {
    var q := ByArrival(processes);
    RunUpToTotalTime(q, |q|);
    assert q[..|q|] == q;
    ByArrivalKeeps(processes);
  }

  /** P1(0,5), P2(1,3), P3(2,8) run back to back. */
  lemma FcfsExample()
    ensures var ps := [Process("P1", 0, 5, 0), Process("P2", 1, 3, 0), Process("P3", 2, 8, 0)];
      FcfsResult(ps) == Outcome([Slice("P1", 5), Slice("P2", 3), Slice("P3", 8)],
                                map["P1" := 0, "P2" := 4, "P3" := 6],
                                map["P1" := 5, "P2" := 7, "P3" := 14])
  {
    var p1, p2, p3 := Process("P1", 0, 5, 0), Process("P2", 1, 3, 0), Process("P3", 2, 8, 0);
    var ps := [p1, p2, p3];
    ByArrivalOfSorted3(p1, p2, p3);
    FcfsExampleRun(ps);
  }

  lemma FcfsExampleRun(ps: seq<Process>)
    requires ps == [Process("P1", 0, 5, 0), Process("P2", 1, 3, 0), Process("P3", 2, 8, 0)]
    ensures RunUpTo(ps, 3).out == Outcome([Slice("P1", 5), Slice("P2", 3), Slice("P3", 8)],
                                          map["P1" := 0, "P2" := 4, "P3" := 6],
                                          map["P1" := 5, "P2" := 7, "P3" := 14])
  {
    var r2 := Progress(8, Outcome([Slice("P1", 5), Slice("P2", 3)],
                                  map["P1" := 0, "P2" := 4], map["P1" := 5, "P2" := 7]));
    assert RunUpTo(ps, 2) == r2 by {
      assert RunUpTo(ps, 1) == Progress(5, Outcome([Slice("P1", 5)], map["P1" := 0], map["P1" := 5]));
    }
  }
}
