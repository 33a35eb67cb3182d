/** `run_scheduler`: builds the process table from the input rows, checks
    the time quantum, dispatches to the selected policy and computes the
    totals behind the displayed metrics. */
module Scheduler {
  import opened Processes
  import Fcfs
  import NonPreemptive
  import RoundRobin

  /** One input row after its three fields have been read as integers
      (a blank field reads as 0). */
  datatype Row = Row(arrival: int, burst: int, priority: int)

  /** The sums the metrics are computed from: `total_burst`, `total_time`,
      and sum and count of each timing map (the two averages are
      `waitingSum / waitingCount` and `turnaroundSum / turnaroundCount`). */
  datatype Metrics = Metrics(totalBurst: int, totalTime: int,
                             waitingSum: int, waitingCount: nat,
                             turnaroundSum: int, turnaroundCount: nat)

  /** A percentage kept as the exact fraction `num / den`. */
  datatype Ratio = Ratio(num: int, den: int)

  /** What a press of "Run Scheduler" produces. */
  datatype Report =
    | InvalidTimeQuantum
    | InvalidAlgorithm
    | Scheduled(outcome: Outcome, metrics: Metrics)

  /** `str.isdigit()` on the characters a decimal number can contain. */
  predicate IsDigits(s: string)
  {
    |s| > 0 && forall i :: 0 <= i < |s| ==> '0' <= s[i] <= '9'
  }

  /** `int(s)` for a string of decimal digits. */
  function DigitsValue(s: string): (n: nat)
    requires forall i :: 0 <= i < |s| ==> '0' <= s[i] <= '9'
  {
    if s == [] then 0
    else 10 * DigitsValue(s[..|s| - 1]) + (s[|s| - 1] as int - '0' as int)
  }

  function Digit(d: nat): (c: char)
    requires d < 10
    ensures '0' <= c <= '9' && c as int - '0' as int == d
  {
    ('0' as int + d) as char
  }

  /** `str(n)` for a natural number, as in the pid `f"P{i+1}"`. */
  function Decimal(n: nat): (s: string)
    ensures |s| >= 1 && forall i :: 0 <= i < |s| ==> '0' <= s[i] <= '9'
  {
    if n < 10 then [Digit(n)] else Decimal(n / 10) + [Digit(n % 10)]
  }

  /** `int(str(n)) == n`. */
  lemma {:induction false} DecimalRoundTrip(n: nat)
    ensures DigitsValue(Decimal(n)) == n
  {
    if n >= 10 {
      DecimalRoundTrip(n / 10);
      var s := Decimal(n);
      assert s[..|s| - 1] == Decimal(n / 10);
    }
  }

  /** The pids `"P1"`, `"P2"`, ... are pairwise different. */
  lemma PidNamesDiffer(i: nat, j: nat)
    requires i != j
    ensures "P" + Decimal(i + 1) != "P" + Decimal(j + 1)
  {
    DecimalRoundTrip(i + 1);
    DecimalRoundTrip(j + 1);
    var a, b := "P" + Decimal(i + 1), "P" + Decimal(j + 1);
    assert a[1..] == Decimal(i + 1) && b[1..] == Decimal(j + 1);
  }

  /** The process list built from the rows: row `i` becomes `P{i+1}`. */
  function Table(rows: seq<Row>): seq<Process>
  {
    seq(|rows|, i requires 0 <= i < |rows| =>
      Process("P" + Decimal(i + 1), rows[i].arrival, rows[i].burst, rows[i].priority))
  }

  /** Every table the form can build has distinct pids, one per row. */
  lemma TableDistinct(rows: seq<Row>)
    ensures |Table(rows)| == |rows| && DistinctPids(Table(rows))
  {
    var ps := Table(rows);
    forall i, j | 0 <= i < j < |ps| ensures ps[i].pid != ps[j].pid {
      PidNamesDiffer(i, j);
    }
  }

  /** The `for i, row in enumerate(self.entries)` loop. */
  method BuildTable(rows: seq<Row>) returns (processes: seq<Process>)
    ensures processes == Table(rows)
  {
    processes := [];
    for i := 0 to |rows|
      invariant |processes| == i
      invariant forall j :: 0 <= j < i ==>
        processes[j] == Process("P" + Decimal(j + 1), rows[j].arrival, rows[j].burst, rows[j].priority)
    {
      processes := processes + [Process("P" + Decimal(i + 1), rows[i].arrival, rows[i].burst, rows[i].priority)];
    }
  }

  /** The names the algorithm box offers. */
  predicate KnownAlgorithm(algorithm: string)
  {
    algorithm == "FCFS" || algorithm == "SJF" || algorithm == "Priority" || algorithm == "Round Robin"
  }

  /** The inputs for which the selected policy's loop ends: SJF and Priority
      need some positive burst, Round Robin a quantum of at least 1 and
      every burst positive. */
  predicate Halts(algorithm: string, quantumText: string, rows: seq<Row>)
  {
    && (algorithm == "SJF" || algorithm == "Priority" ==> NonPreemptive.Terminates(Table(rows)))
    && (algorithm == "Round Robin" && IsDigits(quantumText) ==>
          DigitsValue(quantumText) >= 1 && AllBurstsPositive(Table(rows)))
  }

  /** The totals `run_scheduler` computes from the table and the outcome. */
  ghost function Measure(processes: seq<Process>, o: Outcome): (m: Metrics)
    ensures m.waitingCount == |o.waiting| && m.turnaroundCount == |o.turnaround|
  {
    Metrics(TotalBurst(processes), TotalTime(o.schedule),
            SumValues(o.waiting), |o.waiting|, SumValues(o.turnaround), |o.turnaround|)
  }

  /** `cpu_utilization`: `total_burst / total_time * 100`, or 0 when the
      schedule accounts for no time. */
  function Utilization(m: Metrics): (u: Ratio)
    ensures u.den > 0
    ensures m.totalTime > 0 ==> u.num * m.totalTime == 100 * m.totalBurst * u.den
    ensures m.totalTime <= 0 ==> u.num == 0
  {
    if m.totalTime > 0 then Ratio(100 * m.totalBurst, m.totalTime) else Ratio(0, 1)
  }

  /** What `run_scheduler` does with the selected algorithm, the quantum
      text and the rows. */
  ghost function RunReport(algorithm: string, quantumText: string, rows: seq<Row>): (r: Report)
    requires Halts(algorithm, quantumText, rows)
    ensures r.InvalidTimeQuantum? <==> algorithm == "Round Robin" && !IsDigits(quantumText)
    ensures r.InvalidAlgorithm? <==> !KnownAlgorithm(algorithm)
    ensures r.Scheduled? ==> r.metrics.totalBurst == TotalBurst(Table(rows))
  {
    var ps := Table(rows);
    if algorithm == "FCFS" then
      var o := Fcfs.FcfsResult(ps); Scheduled(o, Measure(ps, o))
    else if algorithm == "SJF" then
      var o := NonPreemptive.NonPreemptiveResult(ps, Burst); Scheduled(o, Measure(ps, o))
    else if algorithm == "Priority" then
      var o := NonPreemptive.NonPreemptiveResult(ps, Priority); Scheduled(o, Measure(ps, o))
    else if algorithm == "Round Robin" then
      if !IsDigits(quantumText) then InvalidTimeQuantum
      else
        var o := RoundRobin.RoundRobinResult(ps, DigitsValue(quantumText)); Scheduled(o, Measure(ps, o))
    else InvalidAlgorithm
  }

  /** `sum(m.values())`, one key at a time. */
  method SumOfValues(m: map<string, int>) returns (total: int)
    ensures total == SumValues(m)
  {
    total := 0;
    var rest := m;
    while rest != map[]
      invariant total + SumValues(rest) == SumValues(m)
      decreases |rest|
    {
      var k :| k in rest;
      SumValuesRemove(rest, k);
      total := total + rest[k];
      rest := rest - {k};
    }
  }

  /** `run_scheduler` without the drawing. */
  method RunScheduler(algorithm: string, quantumText: string, rows: seq<Row>) returns (r: Report)
    requires Halts(algorithm, quantumText, rows)
    ensures r == RunReport(algorithm, quantumText, rows)
  {
    var processes := BuildTable(rows);
    var schedule, waiting, turnaround;
    if algorithm == "FCFS" {
      schedule, waiting, turnaround := Fcfs.FirstComeFirstServed(processes);
    } else if algorithm == "SJF" {
      schedule, waiting, turnaround := NonPreemptive.ShortestJobFirst(processes);
    } else if algorithm == "Priority" {
      schedule, waiting, turnaround := NonPreemptive.PriorityScheduling(processes);
    } else if algorithm == "Round Robin" {
      if !IsDigits(quantumText) {
        return InvalidTimeQuantum;
      }
      schedule, waiting, turnaround := RoundRobin.RoundRobinSchedule(processes, DigitsValue(quantumText));
    } else {
      return InvalidAlgorithm;
    }
    var waitingSum := SumOfValues(waiting);
    var turnaroundSum := SumOfValues(turnaround);
    r := Scheduled(Outcome(schedule, waiting, turnaround),
                   Metrics(TotalBurst(processes), TotalTime(schedule),
                           waitingSum, |waiting|, turnaroundSum, |turnaround|));
  }

  /** Under FCFS the schedule has no idle entries, so the CPU utilization is
      exactly 100% whenever the schedule accounts for any time; and the
      turnaround total is the waiting total plus the total burst, one entry
      per row. */
  lemma FcfsMetrics(quantumText: string, rows: seq<Row>)
    ensures var r := RunReport("FCFS", quantumText, rows);
      && r.Scheduled?
      && r.metrics.totalTime == r.metrics.totalBurst
      && (r.metrics.totalTime > 0 ==> Utilization(r.metrics).num == 100 * Utilization(r.metrics).den)
      && r.metrics.waitingCount == r.metrics.turnaroundCount == |rows|
      && r.metrics.turnaroundSum == r.metrics.waitingSum + r.metrics.totalBurst
  {
    var ps := Table(rows);
    TableDistinct(rows);
    FcfsSums(ps);
  }

  /** The FCFS outcome of a table with distinct pids, summed up. */
  lemma FcfsSums(ps: seq<Process>)
    requires DistinctPids(ps)
    ensures var o := Fcfs.FcfsResult(ps);
      && TotalTime(o.schedule) == TotalBurst(ps)
      && |o.waiting| == |o.turnaround| == |ps|
      && SumValues(o.turnaround) == SumValues(o.waiting) + TotalBurst(ps)
  {
    var q := ByArrival(ps);
    var o := Fcfs.FcfsResult(ps);
    Fcfs.FcfsTotalTime(ps);
    Fcfs.FcfsTimes(ps);
    ByArrivalKeeps(ps);
    PidsCount(q);
    assert |o.waiting| == |o.waiting.Keys| && |o.turnaround| == |o.turnaround.Keys|;
    SumValuesShift(q, o.waiting, o.turnaround);
  }

  /** The same facts for Round Robin with a valid quantum. */
  lemma RoundRobinMetrics(quantumText: string, rows: seq<Row>)
    requires IsDigits(quantumText) && DigitsValue(quantumText) >= 1 && AllBurstsPositive(Table(rows))
    ensures var r := RunReport("Round Robin", quantumText, rows);
      && r.Scheduled?
      && r.metrics.totalTime == r.metrics.totalBurst
      && (r.metrics.totalTime > 0 ==> Utilization(r.metrics).num == 100 * Utilization(r.metrics).den)
      && r.metrics.waitingCount == r.metrics.turnaroundCount == |rows|
      && r.metrics.turnaroundSum == r.metrics.waitingSum + r.metrics.totalBurst
  {
    TableDistinct(rows);
    RoundRobinSums(Table(rows), DigitsValue(quantumText));
  }

  /** The Round Robin outcome of a table with distinct pids, summed up. */
  lemma RoundRobinSums(ps: seq<Process>, quantum: int)
    requires quantum >= 1 && AllBurstsPositive(ps) && DistinctPids(ps)
    ensures var o := RoundRobin.RoundRobinResult(ps, quantum);
      && TotalTime(o.schedule) == TotalBurst(ps)
      && |o.waiting| == |o.turnaround| == |ps|
      && SumValues(o.turnaround) == SumValues(o.waiting) + TotalBurst(ps)
  {
    var o := RoundRobin.RoundRobinResult(ps, quantum);
    RoundRobin.RoundRobinSlices(ps, quantum);
    RoundRobinShift(ps, quantum);
    PidsCount(ps);
    assert |o.waiting| == |o.waiting.Keys| && |o.turnaround| == |o.turnaround.Keys|;
  }

  lemma RoundRobinShift(ps: seq<Process>, quantum: int)
    requires quantum >= 1 && AllBurstsPositive(ps) && DistinctPids(ps)
    ensures var o := RoundRobin.RoundRobinResult(ps, quantum);
      && o.waiting.Keys == Pids(ps) && o.turnaround.Keys == Pids(ps)
      && SumValues(o.turnaround) == SumValues(o.waiting) + TotalBurst(ps)
  {
    var o := RoundRobin.RoundRobinResult(ps, quantum);
    RoundRobin.RoundRobinTimes(ps, quantum);
    forall i | 0 <= i < |ps| ensures o.turnaround[ps[i].pid] == o.waiting[ps[i].pid] + ps[i].burst {
      assert ps[i] in ps;
    }
    SumValuesShift(ps, o.waiting, o.turnaround);
  }

  /** `"0".isdigit()` holds, so quantum 0 reaches `round_robin`, where no
      process ever finishes: the loop runs for ever on any non-empty table. */
  lemma QuantumZeroAccepted(rows: seq<Row>, k: nat)
    ensures IsDigits("0") && DigitsValue("0") == 0
    ensures var ps := ByArrival(Table(rows));
      RoundRobin.RrSteps(ps, DigitsValue("0"), RoundRobin.RrInitial(ps), k).left == |rows|
  {
    assert "0"[..0] == [];
    var ps := ByArrival(Table(rows));
    RoundRobin.QuantumZeroStalls(ps, k);
  }

  /** SJF on P1(0,7), P2(2,4), P3(4,1): P3 runs twice and P2 never, so the
      schedule accounts for 9 time units against a total burst of 12 and the
      displayed utilization is 1200/9 percent, above 100. */
  lemma SjfUtilizationExample(rows: seq<Row>)
    requires rows == [Row(0, 7, 0), Row(2, 4, 0), Row(4, 1, 0)]
    ensures Halts("SJF", "", rows)
    ensures var r := RunReport("SJF", "", rows);
      && r.Scheduled?
      && r.metrics.totalBurst == 12 && r.metrics.totalTime == 9
      && Utilization(r.metrics) == Ratio(1200, 9)
      && Utilization(r.metrics).num > 100 * Utilization(r.metrics).den
  {
    SjfExampleTable(rows);
    SjfExampleTotals(Table(rows));
  }

  lemma SjfExampleTable(rows: seq<Row>)
    requires rows == [Row(0, 7, 0), Row(2, 4, 0), Row(4, 1, 0)]
    ensures Table(rows) == [Process("P1", 0, 7, 0), Process("P2", 2, 4, 0), Process("P3", 4, 1, 0)]
  {
    assert Decimal(1) == "1" && Decimal(2) == "2" && Decimal(3) == "3";
    assert "P" + Decimal(1) == "P1" && "P" + Decimal(2) == "P2" && "P" + Decimal(3) == "P3";
  }

  lemma SjfExampleTotals(ps: seq<Process>)
    requires ps == [Process("P1", 0, 7, 0), Process("P2", 2, 4, 0), Process("P3", 4, 1, 0)]
    ensures NonPreemptive.Terminates(ps)
    ensures TotalTime(NonPreemptive.NonPreemptiveResult(ps, Burst).schedule) == 9 && TotalBurst(ps) == 12
  {
    NonPreemptive.SjfRedispatchExample();
    ThreeSlices(Slice("P1", 7), Slice("P3", 1), Slice("P3", 1));
  }

  lemma ThreeSlices(a: Slice, b: Slice, c: Slice)
    ensures TotalTime([a, b, c]) == a.duration + b.duration + c.duration
  {
    TotalTimeAppend([a], b);
    TotalTimeAppend([a, b], c);
    assert [a] + [b] == [a, b] && [a, b] + [c] == [a, b, c];
  }
}
