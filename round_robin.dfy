/** Round Robin (`SchedulerApp.round_robin`): a FIFO ready queue; the head
    runs for at most one quantum and, if it still has work, goes to the back
    of the queue before the next admission pass, so it is queued ahead of
    the processes that arrived during its slice.

    The queue holds positions in the arrival-sorted table. The source's
    membership test compares the process records, which differ exactly when
    their positions differ because every pid is distinct. */
module RoundRobin {
  import opened Sorting
  import opened Processes

  /** The loop's state: `remaining[i]` is the `remaining` field of the i-th
      process, `left` is `remaining_processes`. */
  datatype RrState = RrState(clock: int, queue: seq<nat>, remaining: seq<int>, left: int,
                             schedule: seq<Slice>, turnaround: map<string, int>)

  function Min(a: int, b: int): int { if a <= b then a else b }

  /** The state after `remaining` is reset to the burst. */
  function RrInitial(ps: seq<Process>): RrState
  {
    RrState(0, [], Bursts(ps), |ps|, [], map[])
  }

  /** The number of positive entries. */
  function CountPositive(s: seq<int>): nat
  {
    if s == [] then 0 else (if s[0] > 0 then 1 else 0) + CountPositive(s[1..])
  }

  /** Positions of the table that the state can refer to. */
  predicate Shaped(ps: seq<Process>, s: RrState)
  {
    |s.remaining| == |ps| && forall k :: 0 <= k < |s.queue| ==> s.queue[k] < |ps|
  }

  /** The admission pass over the first `k` positions: each one that has
      arrived, has work left and is not queued yet is appended. */
  function RrAdmit(ps: seq<Process>, remaining: seq<int>, k: nat, clock: int, queue: seq<nat>): seq<nat>
    requires k <= |ps| == |remaining|
  {
    if k == 0 then queue
    else
      var q := RrAdmit(ps, remaining, k - 1, clock, queue);
      var i := k - 1;
      if ps[i].arrival <= clock && remaining[i] > 0 && i !in q then q + [i] else q
  }

  /** The pass keeps the queue as a prefix and appends only fresh positions
      below `k` that have arrived and have work left; it misses none. */
  lemma {:induction false} RrAdmitFacts(ps: seq<Process>, remaining: seq<int>, k: nat, clock: int, queue: seq<nat>)
    requires k <= |ps| == |remaining|
    ensures var r := RrAdmit(ps, remaining, k, clock, queue);
      && |queue| <= |r| && r[..|queue|] == queue
      && (forall a :: |queue| <= a < |r| ==> r[a] < k && ps[r[a]].arrival <= clock && remaining[r[a]] > 0)
      && (forall a, b :: |queue| <= a < |r| && 0 <= b < a ==> r[a] != r[b])
      && (forall i :: 0 <= i < k && ps[i].arrival <= clock && remaining[i] > 0 ==> i in r)
  {
    if k > 0 {
      RrAdmitFacts(ps, remaining, k - 1, clock, queue);
    }
  }

  /** `current_process = ready_queue.pop(0)` and its slice. */
  function RunSlice(ps: seq<Process>, quantum: int, s: RrState, q: seq<nat>): RrState
    requires |s.remaining| == |ps| && q != [] && q[0] < |ps|
  {
    var i := q[0];
    var exec := Min(quantum, s.remaining[i]);
    var clock := s.clock + exec;
    var remaining := s.remaining[i := s.remaining[i] - exec];
    var schedule := s.schedule + [Slice(ps[i].pid, exec)];
    if remaining[i] > 0 then RrState(clock, q[1..] + [i], remaining, s.left, schedule, s.turnaround)
    else RrState(clock, q[1..], remaining, s.left - 1, schedule, s.turnaround[ps[i].pid := clock - ps[i].arrival])
  }

  /** One iteration of `while remaining_processes > 0`. */
  function RrStep(ps: seq<Process>, quantum: int, s: RrState): RrState
    requires Shaped(ps, s)
  {
    var q := RrAdmit(ps, s.remaining, |ps|, s.clock, s.queue);
    RrAdmitFacts(ps, s.remaining, |ps|, s.clock, s.queue);
    if q == [] then RrState(s.clock + 1, q, s.remaining, s.left, s.schedule, s.turnaround)
    else RunSlice(ps, quantum, s, q)
  }

  /** The pids of the positions whose `remaining` has dropped to zero. */
  function FinishedPids(ps: seq<Process>, remaining: seq<int>): set<string>
    requires |remaining| == |ps|
  {
    set i | 0 <= i < |ps| && remaining[i] == 0 :: ps[i].pid
  }

  /** The loop invariant that makes the loop terminate and the final
      `turnaround_times[p["pid"]]` lookups succeed. */
  predicate RrValid(ps: seq<Process>, s: RrState)
  {
    && Shaped(ps, s)
    && (forall i :: 0 <= i < |ps| ==> 0 <= s.remaining[i] <= ps[i].burst)
    && s.left == CountPositive(s.remaining)
    && (forall k :: 0 <= k < |s.queue| ==> s.remaining[s.queue[k]] > 0 && ps[s.queue[k]].arrival <= s.clock)
    && (forall a, b :: 0 <= a < b < |s.queue| ==> s.queue[a] != s.queue[b])
    && s.turnaround.Keys == FinishedPids(ps, s.remaining)
  }

  lemma {:induction false} CountPositiveUpdate(s: seq<int>, i: nat, v: int)
    requires i < |s|
    ensures CountPositive(s[i := v]) == CountPositive(s) - (if s[i] > 0 then 1 else 0) + (if v > 0 then 1 else 0)
  {
    if i == 0 {
      assert s[i := v][1..] == s[1..];
    } else {
      assert s[i := v][1..] == s[1..][i - 1 := v];
      CountPositiveUpdate(s[1..], i - 1, v);
    }
  }

  /** Some entry is positive exactly when the count is. */
  lemma {:induction false} CountPositiveWitness(s: seq<int>)
    ensures CountPositive(s) > 0 <==> exists i :: 0 <= i < |s| && s[i] > 0
  {
    if s != [] {
      CountPositiveWitness(s[1..]);
      if CountPositive(s[1..]) > 0 {
        var i :| 0 <= i < |s[1..]| && s[1..][i] > 0;
        assert s[i + 1] > 0;
      }
      if exists i :: 0 <= i < |s| && s[i] > 0 {
        var i :| 0 <= i < |s| && s[i] > 0;
        if i > 0 {
          assert s[1..][i - 1] > 0;
        }
      }
    }
  }

  /** A non-positive entry is not counted. */
  lemma {:induction false} CountPositiveBelow(s: seq<int>, j: nat)
    requires j < |s| && s[j] <= 0
    ensures CountPositive(s) < |s|
  {
    if j > 0 {
      CountPositiveBelow(s[1..], j - 1);
    } else {
      CountPositiveAtMost(s[1..]);
    }
  }

  lemma {:induction false} CountPositiveAtMost(s: seq<int>)
    ensures CountPositive(s) <= |s|
  {
    if s != [] {
      CountPositiveAtMost(s[1..]);
    }
  }

  lemma {:induction false} CountPositiveAll(s: seq<int>)
    requires forall i :: 0 <= i < |s| ==> s[i] > 0
    ensures CountPositive(s) == |s|
  {
    if s != [] {
      CountPositiveAll(s[1..]);
    }
  }

  lemma RrInitialValid(ps: seq<Process>)
    requires AllBurstsPositive(ps)
    ensures RrValid(ps, RrInitial(ps))
  {
    CountPositiveAll(Bursts(ps));
    assert FinishedPids(ps, Bursts(ps)) == {};
  }

  /** An admission pass that leaves the queue empty while some process has
      work left happens before the last arrival. */
  lemma RrIdleBeforeHorizon(ps: seq<Process>, s: RrState)
    requires RrValid(ps, s) && s.left > 0
    requires RrAdmit(ps, s.remaining, |ps|, s.clock, s.queue) == []
    ensures s.clock < Horizon(ps)
  {
    CountPositiveWitness(s.remaining);
    var i :| 0 <= i < |s.remaining| && s.remaining[i] > 0;
    RrAdmitFacts(ps, s.remaining, |ps|, s.clock, s.queue);
  }

  /** The queue part of the invariant, for a queue about to be popped. */
  predicate ReadyQueue(ps: seq<Process>, s: RrState, q: seq<nat>)
    requires |s.remaining| == |ps|
  {
    && (forall k :: 0 <= k < |q| ==> q[k] < |ps| && s.remaining[q[k]] > 0 && ps[q[k]].arrival <= s.clock)
    && (forall a, b :: 0 <= a < b < |q| ==> q[a] != q[b])
  }

  /** The admitted queue satisfies the queue part of the invariant. */
  lemma AdmittedQueue(ps: seq<Process>, s: RrState, q: seq<nat>)
    requires RrValid(ps, s) && q == RrAdmit(ps, s.remaining, |ps|, s.clock, s.queue)
    ensures ReadyQueue(ps, s, q)
  {
    RrAdmitFacts(ps, s.remaining, |ps|, s.clock, s.queue);
    forall k | 0 <= k < |s.queue| ensures q[k] == s.queue[k] {
      assert q[..|s.queue|][k] == q[k];
    }
  }

  lemma SliceQueue(ps: seq<Process>, quantum: int, s: RrState, q: seq<nat>)
    requires quantum >= 1 && RrValid(ps, s) && q != [] && ReadyQueue(ps, s, q)
    ensures var t := RunSlice(ps, quantum, s, q);
      && t.clock >= s.clock
      && (forall k :: 0 <= k < |t.queue| ==> t.queue[k] < |ps| && t.remaining[t.queue[k]] > 0 && ps[t.queue[k]].arrival <= t.clock)
      && (forall a, b :: 0 <= a < b < |t.queue| ==> t.queue[a] != t.queue[b])
  {
    var i := q[0];
    assert forall k :: 0 <= k < |q| - 1 ==> q[1..][k] == q[k + 1] && q[k + 1] != i;
  }

  lemma SliceCounts(ps: seq<Process>, quantum: int, s: RrState, q: seq<nat>)
    requires quantum >= 1 && RrValid(ps, s) && q != [] && ReadyQueue(ps, s, q)
    ensures var t := RunSlice(ps, quantum, s, q);
      && |t.remaining| == |ps|
      && (forall i :: 0 <= i < |ps| ==> 0 <= t.remaining[i] <= ps[i].burst)
      && t.left == CountPositive(t.remaining)
      && Sum(t.remaining) < Sum(s.remaining)
  {
    var i := q[0];
    var exec := Min(quantum, s.remaining[i]);
    CountPositiveUpdate(s.remaining, i, s.remaining[i] - exec);
    SumUpdate(s.remaining, i, s.remaining[i] - exec);
  }

  lemma SliceKeys(ps: seq<Process>, quantum: int, s: RrState, q: seq<nat>)
    requires quantum >= 1 && RrValid(ps, s) && q != [] && ReadyQueue(ps, s, q)
    ensures var t := RunSlice(ps, quantum, s, q);
      |t.remaining| == |ps| && t.turnaround.Keys == FinishedPids(ps, t.remaining)
  {
    var i := q[0];
    var t := RunSlice(ps, quantum, s, q);
    if t.remaining[i] == 0 {
      assert FinishedPids(ps, t.remaining) == FinishedPids(ps, s.remaining) + {ps[i].pid};
    } else {
      assert FinishedPids(ps, t.remaining) == FinishedPids(ps, s.remaining);
    }
  }

  /** Each iteration keeps the invariant; a slice strictly lowers the total
      remaining work, an idle tick happens before the last arrival. */
  lemma RrStepValid(ps: seq<Process>, quantum: int, s: RrState)
    requires quantum >= 1 && RrValid(ps, s) && s.left > 0
    ensures var t := RrStep(ps, quantum, s);
      && RrValid(ps, t)
      && 0 <= Sum(t.remaining) <= Sum(s.remaining)
      && (Sum(t.remaining) == Sum(s.remaining) ==> s.clock < Horizon(ps) && t.clock == s.clock + 1)
  {
    var q := RrAdmit(ps, s.remaining, |ps|, s.clock, s.queue);
    AdmittedQueue(ps, s, q);
    var t := RrStep(ps, quantum, s);
    if q == [] {
      RrIdleBeforeHorizon(ps, s);
    } else {
      SliceQueue(ps, quantum, s, q);
      SliceCounts(ps, quantum, s, q);
      SliceKeys(ps, quantum, s, q);
    }
    SumNonNegative(t.remaining);
  }

  /** The whole loop, from state `s` until `remaining_processes` is 0. */
  function RrRun(ps: seq<Process>, quantum: int, s: RrState): (r: RrState)
    requires quantum >= 1 && RrValid(ps, s)
    ensures RrValid(ps, r) && r.left == 0
    decreases Sum(s.remaining), Horizon(ps) - s.clock
  {
    SumNonNegative(s.remaining);
    if s.left > 0 then
      RrStepValid(ps, quantum, s);
      RrRun(ps, quantum, RrStep(ps, quantum, s))
    else s
  }

  /** The map `{p["pid"]: 0 for p in processes_sorted}`. */
  function Zeros(ps: seq<Process>): map<string, int>
  {
    map pid | pid in Pids(ps) :: 0
  }

  /** The final loop over the first `k` processes: waiting = turnaround - burst. */
  function Settle(ps: seq<Process>, turnaround: map<string, int>, k: nat): map<string, int>
    requires k <= |ps| && forall j :: 0 <= j < k ==> ps[j].pid in turnaround
  {
    if k == 0 then Zeros(ps)
    else Settle(ps, turnaround, k - 1)[ps[k - 1].pid := turnaround[ps[k - 1].pid] - ps[k - 1].burst]
  }

  /** Once every `remaining` is 0, every pid has a turnaround time. */
  lemma AllFinished(ps: seq<Process>, s: RrState)
    requires RrValid(ps, s) && s.left == 0
    ensures s.turnaround.Keys == Pids(ps)
    ensures forall j :: 0 <= j < |ps| ==> ps[j].pid in s.turnaround
  {
    CountPositiveWitness(s.remaining);
    forall j | 0 <= j < |ps| ensures s.remaining[j] == 0 {
      if s.remaining[j] > 0 {
        assert false;
      }
    }
    assert FinishedPids(ps, s.remaining) == Pids(ps);
  }

  /** What `round_robin(processes, quantum)` returns. */
  function RoundRobinResult(processes: seq<Process>, quantum: int): Outcome
    requires quantum >= 1 && AllBurstsPositive(processes)
  {
    var q := ByArrival(processes);
    ByArrivalPositive(processes);
    RrInitialValid(q);
    var f := RrRun(q, quantum, RrInitial(q));
    AllFinished(q, f);
    Outcome(f.schedule, Settle(q, f.turnaround, |q|), f.turnaround)
  }

  lemma ByArrivalPositive(processes: seq<Process>)
    requires AllBurstsPositive(processes)
    ensures AllBurstsPositive(ByArrival(processes))
  {
    var q := ByArrival(processes);
    forall i | 0 <= i < |q| ensures q[i].burst >= 1 {
      assert q[i] in multiset(processes);
    }
  }

  /** The `for p in processes_sorted` admission loop. */
  method RrAdmitArrived(ps: seq<Process>, remaining: seq<int>, clock: int, queue0: seq<nat>) returns (queue: seq<nat>)
    requires |remaining| == |ps|
    ensures queue == RrAdmit(ps, remaining, |ps|, clock, queue0)
  {
    queue := queue0;
    for i := 0 to |ps|
      invariant queue == RrAdmit(ps, remaining, i, clock, queue0)
    {
      if ps[i].arrival <= clock && remaining[i] > 0 && i !in queue {
        queue := queue + [i];
      }
    }
  }

  /** One iteration of the `while` loop. */
  method RrIterate(ps: seq<Process>, quantum: int, s: RrState) returns (t: RrState)
    requires Shaped(ps, s)
    ensures t == RrStep(ps, quantum, s)
  {
    var queue := RrAdmitArrived(ps, s.remaining, s.clock, s.queue);
    RrAdmitFacts(ps, s.remaining, |ps|, s.clock, s.queue);
    if queue == [] {
      return RrState(s.clock + 1, queue, s.remaining, s.left, s.schedule, s.turnaround);
    }
    t := RunSlice(ps, quantum, s, queue);
  }

  /** What the schedule and the clock have accounted for so far. */
  predicate RrAccount(ps: seq<Process>, quantum: int, s: RrState)
    requires |s.remaining| == |ps|
  {
    && (forall i :: 0 <= i < |ps| ==> TimeOf(s.schedule, ps[i].pid) == ps[i].burst - s.remaining[i])
    && TotalTime(s.schedule) == TotalBurst(ps) - Sum(s.remaining)
    && (forall k :: 0 <= k < |s.schedule| ==>
          1 <= s.schedule[k].duration <= quantum && s.schedule[k].pid in Pids(ps))
    && (forall i :: 0 <= i < |ps| && s.remaining[i] < ps[i].burst ==>
          ps[i].arrival + ps[i].burst - s.remaining[i] <= s.clock)
    && (forall i :: 0 <= i < |ps| && s.remaining[i] == 0 && ps[i].pid in s.turnaround ==>
          s.turnaround[ps[i].pid] >= ps[i].burst)
  }

  lemma RrInitialAccount(ps: seq<Process>, quantum: int)
    ensures RrAccount(ps, quantum, RrInitial(ps))
  {
    SumBursts(ps);
  }

  /** A slice gives its process `exec` more CPU time and no one else any. */
  lemma SliceTime(ps: seq<Process>, quantum: int, s: RrState, q: seq<nat>)
    requires quantum >= 1 && DistinctPids(ps) && RrValid(ps, s) && RrAccount(ps, quantum, s)
    requires q != [] && ReadyQueue(ps, s, q)
    ensures var t := RunSlice(ps, quantum, s, q);
      && |t.remaining| == |ps|
      && (forall i :: 0 <= i < |ps| ==> TimeOf(t.schedule, ps[i].pid) == ps[i].burst - t.remaining[i])
      && TotalTime(t.schedule) == TotalBurst(ps) - Sum(t.remaining)
  {
    var i := q[0];
    var exec := Min(quantum, s.remaining[i]);
    var t := RunSlice(ps, quantum, s, q);
    forall j | 0 <= j < |ps| ensures TimeOf(t.schedule, ps[j].pid) == ps[j].burst - t.remaining[j] {
      TimeOfAppend(s.schedule, Slice(ps[i].pid, exec), ps[j].pid);
    }
    TotalTimeAppend(s.schedule, Slice(ps[i].pid, exec));
    SumUpdate(s.remaining, i, s.remaining[i] - exec);
  }

  /** Every slice lasts between 1 and `quantum` and names a process. */
  lemma SliceEntries(ps: seq<Process>, quantum: int, s: RrState, q: seq<nat>)
    requires quantum >= 1 && RrValid(ps, s) && RrAccount(ps, quantum, s)
    requires q != [] && ReadyQueue(ps, s, q)
    ensures var t := RunSlice(ps, quantum, s, q);
      forall k :: 0 <= k < |t.schedule| ==>
        1 <= t.schedule[k].duration <= quantum && t.schedule[k].pid in Pids(ps)
  {
    var i := q[0];
    assert ps[i].pid in Pids(ps);
  }

  /** No process completes sooner than its arrival plus its burst. */
  lemma SliceTurnaround(ps: seq<Process>, quantum: int, s: RrState, q: seq<nat>)
    requires quantum >= 1 && DistinctPids(ps) && RrValid(ps, s) && RrAccount(ps, quantum, s)
    requires q != [] && ReadyQueue(ps, s, q)
    ensures var t := RunSlice(ps, quantum, s, q);
      && |t.remaining| == |ps|
      && (forall j :: 0 <= j < |ps| && t.remaining[j] < ps[j].burst ==>
            ps[j].arrival + ps[j].burst - t.remaining[j] <= t.clock)
      && (forall j :: 0 <= j < |ps| && t.remaining[j] == 0 && ps[j].pid in t.turnaround ==>
            t.turnaround[ps[j].pid] >= ps[j].burst)
  {
    var i := q[0];
    var t := RunSlice(ps, quantum, s, q);
    assert ps[i].arrival + ps[i].burst - t.remaining[i] <= t.clock;
    forall j | 0 <= j < |ps| && t.remaining[j] == 0 && ps[j].pid in t.turnaround
      ensures t.turnaround[ps[j].pid] >= ps[j].burst
    {
      if j != i {
        assert ps[j].pid != ps[i].pid;
      }
    }
  }

  lemma RrStepAccount(ps: seq<Process>, quantum: int, s: RrState)
    requires quantum >= 1 && DistinctPids(ps) && RrValid(ps, s) && RrAccount(ps, quantum, s)
    ensures |RrStep(ps, quantum, s).remaining| == |ps| && RrAccount(ps, quantum, RrStep(ps, quantum, s))
  {
    var q := RrAdmit(ps, s.remaining, |ps|, s.clock, s.queue);
    AdmittedQueue(ps, s, q);
    if q != [] {
      SliceTime(ps, quantum, s, q);
      SliceEntries(ps, quantum, s, q);
      SliceTurnaround(ps, quantum, s, q);
    }
  }

  lemma {:induction false} RrRunAccount(ps: seq<Process>, quantum: int, s: RrState)
    requires quantum >= 1 && DistinctPids(ps) && RrValid(ps, s) && RrAccount(ps, quantum, s)
    ensures RrAccount(ps, quantum, RrRun(ps, quantum, s))
    decreases Sum(s.remaining), Horizon(ps) - s.clock
  {
    SumNonNegative(s.remaining);
    if s.left > 0 {
      RrStepValid(ps, quantum, s);
      RrStepAccount(ps, quantum, s);
      RrRunAccount(ps, quantum, RrStep(ps, quantum, s));
    }
  }

  /** After the final loop, every pid maps to its turnaround minus its burst. */
  lemma {:induction false} SettleFacts(ps: seq<Process>, turnaround: map<string, int>, k: nat)
    requires k <= |ps| && DistinctPids(ps)
    requires forall j :: 0 <= j < k ==> ps[j].pid in turnaround
    ensures Settle(ps, turnaround, k).Keys == Pids(ps)
    ensures forall j :: 0 <= j < k ==> Settle(ps, turnaround, k)[ps[j].pid] == turnaround[ps[j].pid] - ps[j].burst
  {
    if k > 0 {
      SettleFacts(ps, turnaround, k - 1);
      assert ps[k - 1].pid in Pids(ps);
    }
  }

  /** The loop's final state, position by position. */
  lemma RrRunFinal(ps: seq<Process>, quantum: int)
    requires quantum >= 1 && AllBurstsPositive(ps) && DistinctPids(ps)
    ensures var f := (RrInitialValid(ps); RrRun(ps, quantum, RrInitial(ps)));
      && TotalTime(f.schedule) == TotalBurst(ps)
      && (forall k :: 0 <= k < |f.schedule| ==>
            1 <= f.schedule[k].duration <= quantum && f.schedule[k].pid in Pids(ps))
      && f.turnaround.Keys == Pids(ps)
      && (forall j :: 0 <= j < |ps| ==>
            TimeOf(f.schedule, ps[j].pid) == ps[j].burst && f.turnaround[ps[j].pid] >= ps[j].burst)
  {
    RrInitialValid(ps);
    var f := RrRun(ps, quantum, RrInitial(ps));
    RrRunDrained(ps, quantum);
    SumZero(f.remaining);
  }

  /** When the loop ends every `remaining` is 0 and the accounting holds. */
  lemma RrRunDrained(ps: seq<Process>, quantum: int)
    requires quantum >= 1 && AllBurstsPositive(ps) && DistinctPids(ps)
    ensures var f := (RrInitialValid(ps); RrRun(ps, quantum, RrInitial(ps)));
      && |f.remaining| == |ps| && RrAccount(ps, quantum, f)
      && f.turnaround.Keys == Pids(ps)
      && (forall j :: 0 <= j < |ps| ==> f.remaining[j] == 0 && ps[j].pid in f.turnaround)
  {
    RrInitialValid(ps);
    RrInitialAccount(ps, quantum);
    var f := RrRun(ps, quantum, RrInitial(ps));
    RrRunAccount(ps, quantum, RrInitial(ps));
    AllFinished(ps, f);
    forall j | 0 <= j < |ps| ensures f.remaining[j] == 0 {
      CountPositiveWitness(f.remaining);
      if f.remaining[j] > 0 {
        assert false;
      }
    }
  }


  /** The value `round_robin` returns, spelled out through the loop's final state. */
  lemma RoundRobinResultParts(processes: seq<Process>, quantum: int)
    requires quantum >= 1 && AllBurstsPositive(processes) && DistinctPids(processes)
    ensures var q := ByArrival(processes);
      && AllBurstsPositive(q) && DistinctPids(q) && Pids(q) == Pids(processes)
      && TotalBurst(q) == TotalBurst(processes)
      && var f := (RrInitialValid(q); RrRun(q, quantum, RrInitial(q)));
      && RoundRobinResult(processes, quantum).schedule == f.schedule
      && RoundRobinResult(processes, quantum).turnaround == f.turnaround
  {
    ByArrivalKeeps(processes);
    ByArrivalPositive(processes);
  }

  /** `round_robin` runs processes in slices of 1 to `quantum` time units,
      and the schedule accounts for exactly the total burst (for distinct
      pids, a quantum of at least 1 and positive bursts). */
  lemma RoundRobinSlices(processes: seq<Process>, quantum: int)
    requires quantum >= 1 && AllBurstsPositive(processes) && DistinctPids(processes)
    ensures var o := RoundRobinResult(processes, quantum);
      && TotalTime(o.schedule) == TotalBurst(processes)
      && (forall k :: 0 <= k < |o.schedule| ==>
            1 <= o.schedule[k].duration <= quantum && o.schedule[k].pid in Pids(processes))
  {
    RoundRobinResultParts(processes, quantum);
    RrRunFinal(ByArrival(processes), quantum);
  }

  /** Each process gets exactly its burst of CPU time. */
  lemma RoundRobinCpuTime(processes: seq<Process>, quantum: int)
    requires quantum >= 1 && AllBurstsPositive(processes) && DistinctPids(processes)
    ensures forall p :: p in processes ==> TimeOf(RoundRobinResult(processes, quantum).schedule, p.pid) == p.burst
  {
    var q := ByArrival(processes);
    RoundRobinResultParts(processes, quantum);
    RrRunFinal(q, quantum);
    forall p | p in processes ensures TimeOf(RoundRobinResult(processes, quantum).schedule, p.pid) == p.burst {
      assert p in multiset(q);
      var j :| 0 <= j < |q| && q[j] == p;
    }
  }

  /** Under the same conditions every pid gets a turnaround time of at least
      its burst, and a waiting time of turnaround - burst, never negative. */
  lemma RoundRobinTimes(processes: seq<Process>, quantum: int)
    requires quantum >= 1 && AllBurstsPositive(processes) && DistinctPids(processes)
    ensures var o := RoundRobinResult(processes, quantum);
      && o.turnaround.Keys == Pids(processes) && o.waiting.Keys == Pids(processes)
      && (forall p :: p in processes ==>
            && o.turnaround[p.pid] >= p.burst
            && o.waiting[p.pid] == o.turnaround[p.pid] - p.burst >= 0)
  {
    var q := ByArrival(processes);
    ByArrivalKeeps(processes);
    ByArrivalPositive(processes);
    RrRunFinal(q, quantum);
    var o := RoundRobinResult(processes, quantum);
    SettleFacts(q, o.turnaround, |q|);
    forall p | p in processes
      ensures o.turnaround[p.pid] >= p.burst
      ensures o.waiting[p.pid] == o.turnaround[p.pid] - p.burst
    {
      assert p in multiset(q);
      var j :| 0 <= j < |q| && q[j] == p;
    }
  }

  /** Any iteration keeps every queued position inside the table. */
  lemma RrStepShaped(ps: seq<Process>, quantum: int, s: RrState)
    requires Shaped(ps, s)
    ensures var t := RrStep(ps, quantum, s);
      Shaped(ps, t) && |s.schedule| <= |t.schedule| && t.schedule[..|s.schedule|] == s.schedule
  {
    var q := RrAdmit(ps, s.remaining, |ps|, s.clock, s.queue);
    RrAdmitFacts(ps, s.remaining, |ps|, s.clock, s.queue);
    forall k | 0 <= k < |s.queue| ensures q[k] < |ps| {
      assert q[..|s.queue|][k] == q[k];
    }
  }

  /** `k` iterations of the loop body, whatever the loop condition says. */
  function RrSteps(ps: seq<Process>, quantum: int, s: RrState, k: nat): (r: RrState)
    requires Shaped(ps, s)
    ensures Shaped(ps, r) && |s.schedule| <= |r.schedule| && r.schedule[..|s.schedule|] == s.schedule
    decreases k
  {
    if k == 0 then s
    else
      RrStepShaped(ps, quantum, s);
      RrSteps(ps, quantum, RrStep(ps, quantum, s), k - 1)
  }

  /** Every queued position has work left. */
  predicate QueuedHaveWork(ps: seq<Process>, s: RrState)
    requires Shaped(ps, s)
  {
    forall k :: 0 <= k < |s.queue| ==> s.remaining[s.queue[k]] > 0
  }

  /** With quantum 0 a slice runs for `min(0, remaining) = 0` time units:
      nothing changes but the schedule, which gains a zero-length entry. */
  lemma QuantumZeroStep(ps: seq<Process>, s: RrState)
    requires Shaped(ps, s) && QueuedHaveWork(ps, s)
    ensures var t := RrStep(ps, 0, s);
      && Shaped(ps, t) && QueuedHaveWork(ps, t)
      && t.remaining == s.remaining && t.left == s.left && t.turnaround == s.turnaround
  {
    var q := RrAdmit(ps, s.remaining, |ps|, s.clock, s.queue);
    RrAdmitFacts(ps, s.remaining, |ps|, s.clock, s.queue);
    RrStepShaped(ps, 0, s);
    forall k | 0 <= k < |s.queue| ensures q[k] == s.queue[k] {
      assert q[..|s.queue|][k] == q[k];
    }
    if q != [] {
      var i := q[0];
      assert s.remaining[i := s.remaining[i] - Min(0, s.remaining[i])] == s.remaining;
    }
  }

  /** The quantum check accepts "0", and then no process ever finishes:
      `remaining_processes` stays at n, so for n >= 1 the loop never ends. */
  lemma {:induction false} QuantumZeroStalls(ps: seq<Process>, k: nat)
    ensures RrSteps(ps, 0, RrInitial(ps), k).left == |ps|
    ensures RrSteps(ps, 0, RrInitial(ps), k).remaining == Bursts(ps)
  {
    QuantumZeroRun(ps, RrInitial(ps), k);
  }

  lemma {:induction false} QuantumZeroRun(ps: seq<Process>, s: RrState, k: nat)
    requires Shaped(ps, s) && QueuedHaveWork(ps, s)
    ensures RrSteps(ps, 0, s, k).left == s.left
    ensures RrSteps(ps, 0, s, k).remaining == s.remaining
    decreases k
  {
    if k > 0 {
      QuantumZeroStep(ps, s);
      QuantumZeroRun(ps, RrStep(ps, 0, s), k - 1);
    }
  }

  /** A row whose burst is not positive is never admitted (`remaining > 0`
      fails), so it never runs and never gets a turnaround time, although
      `remaining_processes` counts it. */
  lemma {:induction false} NonPositiveBurstNeverRuns(ps: seq<Process>, quantum: int, s: RrState, k: nat, j: nat)
    requires Shaped(ps, s) && DistinctPids(ps)
    requires j < |ps| && s.remaining[j] <= 0 && j !in s.queue && ps[j].pid !in s.turnaround
    ensures var t := RrSteps(ps, quantum, s, k);
      && j !in t.queue && t.remaining[j] == s.remaining[j] && ps[j].pid !in t.turnaround
      && (forall e :: e in t.schedule[|s.schedule|..] ==> e.pid != ps[j].pid)
    decreases k
  {
    if k > 0 {
      var t := RrStep(ps, quantum, s);
      NeverQueuedStep(ps, quantum, s, j);
      RrStepShaped(ps, quantum, s);
      NonPositiveBurstNeverRuns(ps, quantum, t, k - 1, j);
      var r := RrSteps(ps, quantum, s, k);
      assert r == RrSteps(ps, quantum, t, k - 1);
      forall e | e in r.schedule[|s.schedule|..] ensures e.pid != ps[j].pid {
        var a :| 0 <= a < |r.schedule[|s.schedule|..]| && r.schedule[|s.schedule|..][a] == e;
        if |s.schedule| + a < |t.schedule| {
          assert e == t.schedule[..|t.schedule|][|s.schedule| + a];
          assert e in t.schedule[|s.schedule|..];
        } else {
          assert e in r.schedule[|t.schedule|..];
        }
      }
    }
  }

  lemma NeverQueuedStep(ps: seq<Process>, quantum: int, s: RrState, j: nat)
    requires Shaped(ps, s) && DistinctPids(ps)
    requires j < |ps| && s.remaining[j] <= 0 && j !in s.queue && ps[j].pid !in s.turnaround
    ensures var t := RrStep(ps, quantum, s);
      && |t.remaining| == |ps| && j !in t.queue && t.remaining[j] == s.remaining[j] && ps[j].pid !in t.turnaround
      && |s.schedule| <= |t.schedule| && t.schedule[..|s.schedule|] == s.schedule
      && (forall e :: e in t.schedule[|s.schedule|..] ==> e.pid != ps[j].pid)
  {
    var q := RrAdmit(ps, s.remaining, |ps|, s.clock, s.queue);
    RrAdmitFacts(ps, s.remaining, |ps|, s.clock, s.queue);
    forall a | 0 <= a < |q| ensures q[a] != j {
      if a < |s.queue| {
        assert q[..|s.queue|][a] == s.queue[a];
      }
    }
    if q != [] {
      var i := q[0];
      assert i != j && ps[i].pid != ps[j].pid;
      var t := RrStep(ps, quantum, s);
      assert t.schedule[|s.schedule|..] == [Slice(ps[i].pid, Min(quantum, s.remaining[i]))];
    }
  }

  /** The invariant of a run that cannot end: the queue holds distinct
      positions with work left, and `remaining_processes` exceeds the number
      of positions with work left. */
  predicate Stalled(ps: seq<Process>, s: RrState)
  {
    && Shaped(ps, s)
    && QueuedHaveWork(ps, s)
    && (forall a, b :: 0 <= a < b < |s.queue| ==> s.queue[a] != s.queue[b])
    && s.left > CountPositive(s.remaining)
  }

  /** Whatever the quantum, one iteration keeps `Stalled`: a slice that
      brings a position's work to zero or below lowers `remaining_processes`
      and the count of positions with work together. */
  lemma StalledStep(ps: seq<Process>, quantum: int, s: RrState)
    requires Stalled(ps, s)
    ensures Stalled(ps, RrStep(ps, quantum, s))
  {
    var q := RrAdmit(ps, s.remaining, |ps|, s.clock, s.queue);
    StalledAdmit(ps, s, q);
    if q != [] {
      StalledSlice(ps, quantum, s, q);
    }
  }

  /** The admission pass keeps the queue's positions distinct and with work. */
  lemma StalledAdmit(ps: seq<Process>, s: RrState, q: seq<nat>)
    requires Stalled(ps, s) && q == RrAdmit(ps, s.remaining, |ps|, s.clock, s.queue)
    ensures forall a :: 0 <= a < |q| ==> q[a] < |ps| && s.remaining[q[a]] > 0
    ensures forall a, b :: 0 <= a < b < |q| ==> q[a] != q[b]
  {
    RrAdmitFacts(ps, s.remaining, |ps|, s.clock, s.queue);
    forall a | 0 <= a < |s.queue| ensures q[a] == s.queue[a] {
      assert q[..|s.queue|][a] == q[a];
    }
  }

  lemma StalledSlice(ps: seq<Process>, quantum: int, s: RrState, q: seq<nat>)
    requires |s.remaining| == |ps| && q != []
    requires forall a :: 0 <= a < |q| ==> q[a] < |ps| && s.remaining[q[a]] > 0
    requires forall a, b :: 0 <= a < b < |q| ==> q[a] != q[b]
    requires s.left > CountPositive(s.remaining)
    ensures Stalled(ps, RunSlice(ps, quantum, s, q))
  {
    var i := q[0];
    var v := s.remaining[i] - Min(quantum, s.remaining[i]);
    CountPositiveUpdate(s.remaining, i, v);
    var t := RunSlice(ps, quantum, s, q);
    assert forall a :: 0 <= a < |q[1..]| ==> q[1..][a] != i && t.remaining[q[1..][a]] > 0;
  }

  lemma {:induction false} StalledRun(ps: seq<Process>, quantum: int, s: RrState, k: nat)
    requires Stalled(ps, s)
    ensures Stalled(ps, RrSteps(ps, quantum, s, k))
    decreases k
  {
    if k > 0 {
      StalledStep(ps, quantum, s);
      StalledRun(ps, quantum, RrStep(ps, quantum, s), k - 1);
    }
  }

  /** A row whose burst is not positive is counted in `remaining_processes`
      but never admitted, so with any quantum, after any number of
      iterations, `remaining_processes` is still at least 1: the loop never
      ends. */
  lemma NonPositiveBurstStalls(ps: seq<Process>, quantum: int, j: nat, k: nat)
    requires j < |ps| && ps[j].burst <= 0
    ensures RrSteps(ps, quantum, RrInitial(ps), k).left >= 1
  {
    CountPositiveBelow(Bursts(ps), j);
    StalledRun(ps, quantum, RrInitial(ps), k);
  }

  /** A process whose slice ends with work left goes to the back of the
      queue, and the next admission pass appends the processes that arrived
      meanwhile behind it. */
  lemma RequeueBeforeArrivals(ps: seq<Process>, quantum: int, s: RrState)
    requires Shaped(ps, s)
    ensures var q := RrAdmit(ps, s.remaining, |ps|, s.clock, s.queue);
      var t := RrStep(ps, quantum, s);
      && Shaped(ps, t)
      && (q != [] && q[0] < |t.remaining| && t.remaining[q[0]] > 0 ==> t.queue == q[1..] + [q[0]])
      && var next := RrAdmit(ps, t.remaining, |ps|, t.clock, t.queue);
         |t.queue| <= |next| && next[..|t.queue|] == t.queue
  {
    RrAdmitFacts(ps, s.remaining, |ps|, s.clock, s.queue);
    RrStepShaped(ps, quantum, s);
    var t := RrStep(ps, quantum, s);
    RrAdmitFacts(ps, t.remaining, |ps|, t.clock, t.queue);
  }

  /** `for p in processes_sorted: p["remaining"] = p["burst"]` */
  method ResetRemaining(sorted: seq<Process>) returns (remaining: seq<int>)
    ensures remaining == Bursts(sorted)
  {
    remaining := [];
    for i := 0 to |sorted|
      invariant remaining == Bursts(sorted)[..i]
    {
      remaining := remaining + [sorted[i].burst];
    }
  }

  /** `for p in processes_sorted: waiting_times[p["pid"]] = turnaround_times[p["pid"]] - p["burst"]` */
  method SettleWaiting(sorted: seq<Process>, turnaround: map<string, int>) returns (waiting: map<string, int>)
    requires forall j :: 0 <= j < |sorted| ==> sorted[j].pid in turnaround
    ensures waiting == Settle(sorted, turnaround, |sorted|)
  {
    waiting := Zeros(sorted);
    for j := 0 to |sorted|
      invariant waiting == Settle(sorted, turnaround, j)
    {
      var p := sorted[j];
      waiting := waiting[p.pid := turnaround[p.pid] - p.burst];
    }
  }

  method RoundRobinSchedule(processes: seq<Process>, quantum: int)
      returns (schedule: seq<Slice>, waiting: map<string, int>, turnaround: map<string, int>)
    requires quantum >= 1 && AllBurstsPositive(processes)
    ensures Outcome(schedule, waiting, turnaround) == RoundRobinResult(processes, quantum)
  {
    var sorted := ByArrival(processes);
    ByArrivalPositive(processes);
    var remaining := ResetRemaining(sorted);
    var s := RrState(0, [], remaining, |sorted|, [], map[]);
    RrInitialValid(sorted);
    ghost var final := RrRun(sorted, quantum, s);
    while s.left > 0
      invariant RrValid(sorted, s)
      invariant RrRun(sorted, quantum, s) == final
      decreases Sum(s.remaining), Horizon(sorted) - s.clock
    {
      RrStepValid(sorted, quantum, s);
      s := RrIterate(sorted, quantum, s);
    }
    AllFinished(sorted, s);
    waiting := SettleWaiting(sorted, s.turnaround);
    schedule, turnaround := s.schedule, s.turnaround;
  }

  /** When every process that has arrived and has work left is already
      queued, the admission pass leaves the queue as it is. */
  lemma {:induction false} RrAdmitNothingNew(ps: seq<Process>, remaining: seq<int>, k: nat, clock: int, queue: seq<nat>)
    requires k <= |ps| == |remaining|
    requires forall i :: 0 <= i < k && ps[i].arrival <= clock && remaining[i] > 0 ==> i in queue
    ensures RrAdmit(ps, remaining, k, clock, queue) == queue
  {
    if k > 0 {
      RrAdmitNothingNew(ps, remaining, k - 1, clock, queue);
    }
  }

  lemma RrStepIs(ps: seq<Process>, quantum: int, s: RrState, q: seq<nat>)
    requires Shaped(ps, s) && RrAdmit(ps, s.remaining, |ps|, s.clock, s.queue) == q && q != []
    ensures q[0] < |ps| && RrStep(ps, quantum, s) == RunSlice(ps, quantum, s, q)
  {
    RrAdmitFacts(ps, s.remaining, |ps|, s.clock, s.queue);
    if |s.queue| > 0 {
      assert q[..|s.queue|][0] == q[0];
    }
  }

  /** The three processes of the Round Robin example, with their pids left abstract. */
  predicate RrTable(p1: Process, p2: Process, p3: Process)
  {
    && p1.arrival == 0 && p1.burst == 5
    && p2.arrival == 1 && p2.burst == 3
    && p3.arrival == 2 && p3.burst == 1
    && p1.pid != p2.pid && p1.pid != p3.pid && p2.pid != p3.pid
  }

  /** One more turn of the loop, seen from `RrRun`. */
  lemma RrRunStep(ps: seq<Process>, quantum: int, s: RrState, t: RrState)
    requires quantum >= 1 && RrValid(ps, s) && s.left > 0 && RrStep(ps, quantum, s) == t
    ensures RrValid(ps, t) && RrRun(ps, quantum, s) == RrRun(ps, quantum, t)
  {
    RrStepValid(ps, quantum, s);
  }

  /** `RoundRobinResult` on a table already in arrival order. */
  lemma RoundRobinResultOfSorted(ps: seq<Process>, quantum: int)
    requires quantum >= 1 && AllBurstsPositive(ps) && ByArrival(ps) == ps
    ensures RrValid(ps, RrInitial(ps))
    ensures var f := RrRun(ps, quantum, RrInitial(ps));
      && (forall j :: 0 <= j < |ps| ==> ps[j].pid in f.turnaround)
      && RoundRobinResult(ps, quantum) == Outcome(f.schedule, Settle(ps, f.turnaround, |ps|), f.turnaround)
  {
    RrInitialValid(ps);
    AllFinished(ps, RrRun(ps, quantum, RrInitial(ps)));
  }

  /** Round Robin with quantum 2 on P1(0,5), P2(1,3), P3(2,1): at time 2 the
      preempted P1 is queued again before P2 and P3 are admitted, so P1 runs
      twice in a row. */
  lemma RoundRobinExample(ps: seq<Process>, quantum: int)
    requires ps == [Process("P1", 0, 5, 0), Process("P2", 1, 3, 0), Process("P3", 2, 1, 0)] && quantum == 2
    ensures AllBurstsPositive(ps) && quantum >= 1
    ensures RoundRobinResult(ps, quantum)
         == Outcome([Slice("P1", 2), Slice("P1", 2), Slice("P2", 2), Slice("P3", 1), Slice("P1", 1), Slice("P2", 1)],
                    map["P1" := 3, "P2" := 5, "P3" := 4], map["P1" := 8, "P2" := 8, "P3" := 5])
  {
    assert ps == [ps[0], ps[1], ps[2]];
    RrExampleResult(ps[0], ps[1], ps[2], quantum);
  }

  lemma RrExampleResult(p1: Process, p2: Process, p3: Process, quantum: int)
    requires RrTable(p1, p2, p3) && quantum == 2
    ensures AllBurstsPositive([p1, p2, p3])
    ensures RoundRobinResult([p1, p2, p3], quantum)
         == Outcome([Slice(p1.pid, 2), Slice(p1.pid, 2), Slice(p2.pid, 2), Slice(p3.pid, 1), Slice(p1.pid, 1), Slice(p2.pid, 1)],
                    map[p1.pid := 3, p2.pid := 5, p3.pid := 4], map[p1.pid := 8, p2.pid := 8, p3.pid := 5])
  {
    var ps := [p1, p2, p3];
    RrExampleSorted(p1, p2, p3);
    RrExampleRun(p1, p2, p3);
    RrExampleFinal(p1, p2, p3);
    RoundRobinResultOfSorted(ps, quantum);
  }

  lemma RrExampleSorted(p1: Process, p2: Process, p3: Process)
    requires RrTable(p1, p2, p3)
    ensures AllBurstsPositive([p1, p2, p3]) && ByArrival([p1, p2, p3]) == [p1, p2, p3]
  {
    ByArrivalOfSorted3(p1, p2, p3);
  }

  /** The last state of the example, and the waiting times the final loop
      derives from it. */
  lemma RrExampleFinal(p1: Process, p2: Process, p3: Process)
    requires RrTable(p1, p2, p3)
    ensures var f := RrExampleState(p1, p2, p3, 6);
      && f.schedule == [Slice(p1.pid, 2), Slice(p1.pid, 2), Slice(p2.pid, 2), Slice(p3.pid, 1), Slice(p1.pid, 1), Slice(p2.pid, 1)]
      && f.turnaround == map[p1.pid := 8, p2.pid := 8, p3.pid := 5]
      && (forall j :: 0 <= j < 3 ==> [p1, p2, p3][j].pid in f.turnaround)
      && Settle([p1, p2, p3], f.turnaround, 3) == map[p1.pid := 3, p2.pid := 5, p3.pid := 4]
  {
    RrExampleSettle(p1, p2, p3, RrExampleState(p1, p2, p3, 6).turnaround);
  }

  /** The loop state of the example after `i` iterations. */
  function RrExampleState(p1: Process, p2: Process, p3: Process, i: nat): (s: RrState)
    requires i <= 6
    ensures |s.remaining| == 3 && (i < 6 <==> s.left > 0)
  {
    var a, b, c := Slice(p1.pid, 2), Slice(p2.pid, 2), Slice(p3.pid, 1);
    var d, e := Slice(p1.pid, 1), Slice(p2.pid, 1);
    match i
    case 0 => RrState(0, [], [5, 3, 1], 3, [], map[])
    case 1 => RrState(2, [0], [3, 3, 1], 3, [a], map[])
    case 2 => RrState(4, [1, 2, 0], [1, 3, 1], 3, [a, a], map[])
    case 3 => RrState(6, [2, 0, 1], [1, 1, 1], 3, [a, a, b], map[])
    case 4 => RrState(7, [0, 1], [1, 1, 0], 2, [a, a, b, c], map[p3.pid := 5])
    case 5 => RrState(8, [1], [0, 1, 0], 1, [a, a, b, c, d], map[p3.pid := 5, p1.pid := 8])
    case _ => RrState(9, [], [0, 0, 0], 0, [a, a, b, c, d, e], map[p3.pid := 5, p1.pid := 8, p2.pid := 8])
  }

  lemma RrExampleRun(p1: Process, p2: Process, p3: Process)
    requires RrTable(p1, p2, p3)
    ensures RrValid([p1, p2, p3], RrInitial([p1, p2, p3]))
    ensures RrRun([p1, p2, p3], 2, RrInitial([p1, p2, p3])) == RrExampleState(p1, p2, p3, 6)
  {
    var ps := [p1, p2, p3];
    RrInitialValid(ps);
    assert RrInitial(ps) == RrExampleState(p1, p2, p3, 0);
    RrExampleTail(p1, p2, p3, 0);
  }

  /** From the `i`-th state on, the loop reaches the last one. */
  lemma {:induction false} RrExampleTail(p1: Process, p2: Process, p3: Process, i: nat)
    requires RrTable(p1, p2, p3) && i <= 6 && RrValid([p1, p2, p3], RrExampleState(p1, p2, p3, i))
    ensures RrRun([p1, p2, p3], 2, RrExampleState(p1, p2, p3, i)) == RrExampleState(p1, p2, p3, 6)
    decreases 6 - i
  {
    if i < 6 {
      RrExampleStep(p1, p2, p3, i);
      RrRunStep([p1, p2, p3], 2, RrExampleState(p1, p2, p3, i), RrExampleState(p1, p2, p3, i + 1));
      RrExampleTail(p1, p2, p3, i + 1);
    }
  }

  lemma RrExampleStep(p1: Process, p2: Process, p3: Process, i: nat)
    requires RrTable(p1, p2, p3) && i < 6
    ensures Shaped([p1, p2, p3], RrExampleState(p1, p2, p3, i))
    ensures RrStep([p1, p2, p3], 2, RrExampleState(p1, p2, p3, i)) == RrExampleState(p1, p2, p3, i + 1)
  {
    if i == 0 {
      RrExampleStep1(p1, p2, p3);
    } else if i == 1 {
      RrExampleStep2(p1, p2, p3);
    } else {
      RrExampleLater(p1, p2, p3, i);
    }
  }

  lemma RrExampleStep1(p1: Process, p2: Process, p3: Process)
    requires RrTable(p1, p2, p3)
    ensures Shaped([p1, p2, p3], RrExampleState(p1, p2, p3, 0))
    ensures RrStep([p1, p2, p3], 2, RrExampleState(p1, p2, p3, 0)) == RrExampleState(p1, p2, p3, 1)
  {
    var ps, s := [p1, p2, p3], RrExampleState(p1, p2, p3, 0);
    assert RrAdmit(ps, s.remaining, 3, 0, []) == [0] by {
      assert RrAdmit(ps, s.remaining, 1, 0, []) == [0];
      assert RrAdmit(ps, s.remaining, 2, 0, []) == [0];
    }
    RrStepIs(ps, 2, s, [0]);
  }

  /** At time 2 P1 goes back to the queue ahead of P2 and P3. */
  lemma RrExampleStep2(p1: Process, p2: Process, p3: Process)
    requires RrTable(p1, p2, p3)
    ensures Shaped([p1, p2, p3], RrExampleState(p1, p2, p3, 1))
    ensures RrStep([p1, p2, p3], 2, RrExampleState(p1, p2, p3, 1)) == RrExampleState(p1, p2, p3, 2)
  {
    var ps, s := [p1, p2, p3], RrExampleState(p1, p2, p3, 1);
    assert RrAdmit(ps, s.remaining, 3, 2, [0]) == [0, 1, 2] by {
      assert RrAdmit(ps, s.remaining, 1, 2, [0]) == [0];
      assert RrAdmit(ps, s.remaining, 2, 2, [0]) == [0, 1];
    }
    RrStepIs(ps, 2, s, [0, 1, 2]);
  }

  /** From time 4 on every process has arrived and is queued: each
      iteration just runs the head of the queue. */
  lemma RrExampleLater(p1: Process, p2: Process, p3: Process, i: nat)
    requires RrTable(p1, p2, p3) && 2 <= i < 6
    ensures Shaped([p1, p2, p3], RrExampleState(p1, p2, p3, i))
    ensures RrStep([p1, p2, p3], 2, RrExampleState(p1, p2, p3, i)) == RrExampleState(p1, p2, p3, i + 1)
  {
    var ps, s := [p1, p2, p3], RrExampleState(p1, p2, p3, i);
    RrExampleAllQueued(p1, p2, p3, i);
    RrAdmitNothingNew(ps, s.remaining, 3, s.clock, s.queue);
    RrStepIs(ps, 2, s, s.queue);
    RrExampleSlice(p1, p2, p3, i);
  }

  lemma RrExampleAllQueued(p1: Process, p2: Process, p3: Process, i: nat)
    requires RrTable(p1, p2, p3) && 2 <= i < 6
    ensures var s := RrExampleState(p1, p2, p3, i);
      && Shaped([p1, p2, p3], s) && s.queue != []
      && forall j :: 0 <= j < 3 && [p1, p2, p3][j].arrival <= s.clock && s.remaining[j] > 0 ==> j in s.queue
  {
  }

  lemma RrExampleSlice(p1: Process, p2: Process, p3: Process, i: nat)
    requires RrTable(p1, p2, p3) && 2 <= i < 6
    ensures var s := RrExampleState(p1, p2, p3, i);
      s.queue != [] && s.queue[0] < 3 && RunSlice([p1, p2, p3], 2, s, s.queue) == RrExampleState(p1, p2, p3, i + 1)
  {
  }

  /** The final loop of the example: waiting = turnaround - burst. */
  lemma RrExampleSettle(p1: Process, p2: Process, p3: Process, turnaround: map<string, int>)
    requires RrTable(p1, p2, p3)
    requires turnaround == map[p3.pid := 5, p1.pid := 8, p2.pid := 8]
    ensures Settle([p1, p2, p3], turnaround, 3) == map[p1.pid := 3, p2.pid := 5, p3.pid := 4]
  {
    var ps := [p1, p2, p3];
    var z := Zeros(ps);
    assert Pids(ps) == {p1.pid, p2.pid, p3.pid} by {
      assert ps[0].pid == p1.pid && ps[1].pid == p2.pid && ps[2].pid == p3.pid;
      forall x | x in Pids(ps) ensures x in {p1.pid, p2.pid, p3.pid} {
        var i :| 0 <= i < 3 && ps[i].pid == x;
      }
    }
    assert z.Keys == {p1.pid, p2.pid, p3.pid};
    assert Settle(ps, turnaround, 1) == z[p1.pid := 3];
    assert Settle(ps, turnaround, 2) == z[p1.pid := 3][p2.pid := 5];
    assert Settle(ps, turnaround, 3) == z[p1.pid := 3][p2.pid := 5][p3.pid := 4];
  }
}
