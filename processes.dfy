/** The values every dispatch policy works on: the process table, the
    schedule (the list behind the Gantt chart) and the two timing maps. */
module Processes {
  import opened Sorting

  /** One row of the input table. `priority`: a lower value is more urgent. */
  datatype Process = Process(pid: string, arrival: int, burst: int, priority: int)

  /** One schedule entry: which process held the CPU, and for how long. */
  datatype Slice = Slice(pid: string, duration: int)

  /** What every policy returns: the schedule, waiting times and turnaround times by pid. */
  datatype Outcome = Outcome(schedule: seq<Slice>, waiting: map<string, int>, turnaround: map<string, int>)

  /** Sort keys (the `key=lambda x: x[...]` of the source). */
  function Arrival(p: Process): int { p.arrival }
  function Burst(p: Process): int { p.burst }
  function Priority(p: Process): int { p.priority }

  predicate DistinctPids(ps: seq<Process>)
  {
    forall i, j :: 0 <= i < j < |ps| ==> ps[i].pid != ps[j].pid
  }

  predicate AllBurstsPositive(ps: seq<Process>)
  {
    forall i :: 0 <= i < |ps| ==> ps[i].burst >= 1
  }

  function Pids(ps: seq<Process>): set<string>
  {
    set i | 0 <= i < |ps| :: ps[i].pid
  }

  /** `sorted(processes, key=lambda x: x["arrival"])`, the first step of every policy. */
  function ByArrival(ps: seq<Process>): seq<Process>
  {
    SortBy(ps, Arrival)
  }

  /** The latest arrival among processes with work (0 if there are none):
      past it a process with work has always arrived. */
  function Horizon(ps: seq<Process>): (h: int)
    ensures forall i :: 0 <= i < |ps| && ps[i].burst > 0 ==> ps[i].arrival <= h
  {
    if ps == [] then 0
    else
      var h := Horizon(ps[1..]);
      assert forall i :: 1 <= i < |ps| ==> ps[i] == ps[1..][i - 1];
      if ps[0].burst > 0 && ps[0].arrival > h then ps[0].arrival else h
  }

  /** `sum(p["burst"] for p in processes)` */
  function TotalBurst(ps: seq<Process>): int
  {
    if ps == [] then 0 else ps[0].burst + TotalBurst(ps[1..])
  }

  /** `sum(item[1] for item in schedule)`: the time the schedule accounts for. */
  function TotalTime(schedule: seq<Slice>): int
  {
    if schedule == [] then 0 else TotalTime(schedule[..|schedule| - 1]) + schedule[|schedule| - 1].duration
  }

  /** The CPU time the schedule gives to `pid`. */
  function TimeOf(schedule: seq<Slice>, pid: string): int
  {
    if schedule == [] then 0
    else
      var last := schedule[|schedule| - 1];
      TimeOf(schedule[..|schedule| - 1], pid) + (if last.pid == pid then last.duration else 0)
  }

  /** The sum of a sequence of integers. */
  function Sum(s: seq<int>): int
  {
    if s == [] then 0 else s[0] + Sum(s[1..])
  }

  /** The bursts, in table order. */
  function Bursts(ps: seq<Process>): (r: seq<int>)
    ensures |r| == |ps| && forall i :: 0 <= i < |ps| ==> r[i] == ps[i].burst
  {
    seq(|ps|, i requires 0 <= i < |ps| => ps[i].burst)
  }

  /** `sum(m.values())`: every value counted once per key. */
  ghost function SumValues(m: map<string, int>): int
    decreases |m|
  {
    if m == map[] then 0
    else
      var k :| k in m;
      m[k] + SumValues(m - {k})
  }

  lemma {:induction false} SumBursts(ps: seq<Process>)
    ensures Sum(Bursts(ps)) == TotalBurst(ps)
  {
    if ps != [] {
      assert Bursts(ps)[1..] == Bursts(ps[1..]);
      SumBursts(ps[1..]);
    }
  }

  /** Replacing one element changes the sum by the difference. */
  lemma {:induction false} SumUpdate(s: seq<int>, i: nat, v: int)
    requires i < |s|
    ensures Sum(s[i := v]) == Sum(s) - s[i] + v
  {
    if i == 0 {
      assert s[i := v][1..] == s[1..];
    } else {
      assert s[i := v][1..] == s[1..][i - 1 := v];
      SumUpdate(s[1..], i - 1, v);
    }
  }

  lemma {:induction false} SumNonNegative(s: seq<int>)
    requires forall i :: 0 <= i < |s| ==> s[i] >= 0
    ensures Sum(s) >= 0
  {
    if s != [] {
      SumNonNegative(s[1..]);
    }
  }

  lemma {:induction false} SumZero(s: seq<int>)
    requires forall i :: 0 <= i < |s| ==> s[i] == 0
    ensures Sum(s) == 0
  {
    if s != [] {
      SumZero(s[1..]);
    }
  }

  lemma TotalTimeAppend(schedule: seq<Slice>, e: Slice)
    ensures TotalTime(schedule + [e]) == TotalTime(schedule) + e.duration
  {
    assert (schedule + [e])[..|schedule|] == schedule;
  }

  lemma TimeOfAppend(schedule: seq<Slice>, e: Slice, pid: string)
    ensures TimeOf(schedule + [e], pid) == TimeOf(schedule, pid) + (if e.pid == pid then e.duration else 0)
  {
    assert (schedule + [e])[..|schedule|] == schedule;
  }

  /** The sum of the values does not depend on which key is taken first. */
  lemma {:induction false} SumValuesRemove(m: map<string, int>, k: string)
    requires k in m
    ensures SumValues(m) == m[k] + SumValues(m - {k})
    decreases |m|
  {
    var j :| j in m && SumValues(m) == m[j] + SumValues(m - {j});
    if j != k {
      var m' := m - {j};
      assert k in m' && |m'| < |m|;
      SumValuesRemove(m', k);
      var m'' := m - {k};
      assert j in m'' && |m''| < |m|;
      SumValuesRemove(m'', j);
      assert m' - {k} == m'' - {j};
    }
  }

  lemma {:induction false} PidsCount(ps: seq<Process>)
    requires DistinctPids(ps)
    ensures |Pids(ps)| == |ps|
  {
    if ps != [] {
      PidsCount(ps[1..]);
      assert Pids(ps) == {ps[0].pid} + Pids(ps[1..]);
      assert ps[0].pid !in Pids(ps[1..]);
    }
  }

  /** When `turnaround = waiting + burst` holds pid by pid, the turnaround
      total is the waiting total plus the total burst. */
  lemma {:induction false} SumValuesShift(ps: seq<Process>, waiting: map<string, int>, turnaround: map<string, int>)
    requires DistinctPids(ps)
    requires waiting.Keys == Pids(ps) && turnaround.Keys == Pids(ps)
    requires forall i :: 0 <= i < |ps| ==> turnaround[ps[i].pid] == waiting[ps[i].pid] + ps[i].burst
    ensures SumValues(turnaround) == SumValues(waiting) + TotalBurst(ps)
  {
    if ps == [] {
      assert waiting == map[] && turnaround == map[];
    } else {
      var k := ps[0].pid;
      var rest := ps[1..];
      assert Pids(ps) == {k} + Pids(rest);
      assert k !in Pids(rest);
      SumValuesRemove(waiting, k);
      SumValuesRemove(turnaround, k);
      forall i | 0 <= i < |rest|
        ensures (turnaround - {k})[rest[i].pid] == (waiting - {k})[rest[i].pid] + rest[i].burst
      {
        assert rest[i] == ps[i + 1];
      }
      SumValuesShift(rest, waiting - {k}, turnaround - {k});
    }
  }

  lemma TotalBurstAppend(ps: seq<Process>, p: Process)
    ensures TotalBurst(ps + [p]) == TotalBurst(ps) + p.burst
  {
    if ps != [] {
      assert (ps + [p])[1..] == ps[1..] + [p];
      TotalBurstAppend(ps[1..], p);
    }
  }

  lemma PidsCons(a: Process, r: seq<Process>)
    ensures Pids([a] + r) == {a.pid} + Pids(r)
    ensures DistinctPids([a] + r) <==> a.pid !in Pids(r) && DistinctPids(r)
  {
    var s := [a] + r;
    forall i | 0 <= i < |r| ensures r[i].pid in Pids(s) {
      assert s[i + 1] == r[i];
    }
    assert s[0] == a;
    forall x | x in Pids(s) ensures x == a.pid || x in Pids(r) {
      var i :| 0 <= i < |s| && s[i].pid == x;
      if i > 0 {
        assert s[i] == r[i - 1];
      }
    }
    if DistinctPids(s) {
      forall i, j | 0 <= i < j < |r| ensures r[i].pid != r[j].pid {
        assert s[i + 1] == r[i] && s[j + 1] == r[j];
      }
      forall i | 0 <= i < |r| ensures r[i].pid != a.pid {
        assert s[i + 1] == r[i];
      }
    }
    if a.pid !in Pids(r) && DistinctPids(r) {
      forall i, j | 0 <= i < j < |s| ensures s[i].pid != s[j].pid {
        assert s[j] == r[j - 1];
        if i > 0 {
          assert s[i] == r[i - 1];
        }
      }
    }
  }

  lemma {:induction false} InsertByArrival(x: Process, s: seq<Process>)
    ensures Pids(InsertBy(x, s, Arrival)) == {x.pid} + Pids(s)
    ensures DistinctPids(s) && x.pid !in Pids(s) ==> DistinctPids(InsertBy(x, s, Arrival))
  {
    if s == [] || x.arrival <= s[0].arrival {
      PidsCons(x, s);
    } else {
      var r := InsertBy(x, s[1..], Arrival);
      InsertByArrival(x, s[1..]);
      PidsCons(s[0], r);
      PidsCons(s[0], s[1..]);
      assert [s[0]] + s[1..] == s;
    }
  }

  lemma {:induction false} InsertByArrivalBurst(x: Process, s: seq<Process>)
    ensures TotalBurst(InsertBy(x, s, Arrival)) == x.burst + TotalBurst(s)
  {
    if s != [] && x.arrival > s[0].arrival {
      InsertByArrivalBurst(x, s[1..]);
    }
  }

  /** Sorting by arrival keeps the set of pids, their distinctness and the total burst. */
  lemma ByArrivalKeeps(ps: seq<Process>)
    ensures Pids(ByArrival(ps)) == Pids(ps)
    ensures DistinctPids(ps) ==> DistinctPids(ByArrival(ps))
    ensures TotalBurst(ByArrival(ps)) == TotalBurst(ps)
  {
    ByArrivalPids(ps);
    ByArrivalBurst(ps);
  }

  lemma {:induction false} ByArrivalPids(ps: seq<Process>)
    ensures Pids(ByArrival(ps)) == Pids(ps)
    ensures DistinctPids(ps) ==> DistinctPids(ByArrival(ps))
  {
    if ps != [] {
      ByArrivalPids(ps[1..]);
      InsertByArrival(ps[0], SortBy(ps[1..], Arrival));
      PidsCons(ps[0], ps[1..]);
      assert [ps[0]] + ps[1..] == ps;
    }
  }

  lemma {:induction false} ByArrivalBurst(ps: seq<Process>)
    ensures TotalBurst(ByArrival(ps)) == TotalBurst(ps)
  {
    if ps != [] {
      ByArrivalBurst(ps[1..]);
      InsertByArrivalBurst(ps[0], SortBy(ps[1..], Arrival));
    }
  }

  /** Three processes already in arrival order stay as they are. */
  lemma ByArrivalOfSorted3(p1: Process, p2: Process, p3: Process)
    requires p1.arrival <= p2.arrival <= p3.arrival
    ensures ByArrival([p1, p2, p3]) == [p1, p2, p3]
  {
    assert SortBy([p3], Arrival) == [p3];
    assert [p2, p3][1..] == [p3];
    assert SortBy([p2, p3], Arrival) == [p2, p3];
    assert [p1, p2, p3][1..] == [p2, p3];
  }
}
