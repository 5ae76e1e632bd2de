/**
 * The integer result of one run: total ticks, reported context switches,
 * and the turnaround and waiting totals over the PCB table.
 */
module Metrics {
  import opened Processes
  import opened TickEngine

  /** Integer part of a run's result; the two averages are these totals divided by NUM_PROCESSES. */
  datatype RunResult = RunResult(
    totalTicks: int,
    contextSwitches: int,
    totalTurnaround: int,
    totalWaiting: int)

  function TotalTurnaround(s: seq<Pcb>): int {
    if s == [] then 0 else TotalTurnaround(s[..|s| - 1]) + s[|s| - 1].turnaroundTime
  }

  function TotalWaiting(s: seq<Pcb>): int {
    if s == [] then 0 else TotalWaiting(s[..|s| - 1]) + s[|s| - 1].waitingTime
  }

  /** The first dispatch of a run is counted as a switch but is not one between processes, so it is not reported. */
  function ReportedSwitches(contextSwitches: int): int {
    if contextSwitches > 0 then contextSwitches - 1 else 0
  }

  /** The result a run reports from its final state. */
  function ResultOf(d: SchedState): (r: RunResult)
    ensures r.totalTicks == d.tickCount && r.contextSwitches >= 0
    ensures d.contextSwitches > 0 ==> r.contextSwitches == d.contextSwitches - 1
    ensures d.contextSwitches <= 0 ==> r.contextSwitches == 0
  {
    RunResult(d.tickCount, ReportedSwitches(d.contextSwitches), TotalTurnaround(d.pcbs), TotalWaiting(d.pcbs))
  }

  /** Per-PCB bounds on the counters carry over to the totals. */
  lemma {:induction false} TotalsBounded(s: seq<Pcb>, ticks: int)
    requires forall i :: 0 <= i < |s| ==> 0 <= s[i].waitingTime <= s[i].turnaroundTime <= ticks
    ensures 0 <= TotalWaiting(s) <= TotalTurnaround(s) <= |s| * ticks
  {
    if s != [] {
      var t := s[..|s| - 1];
      TotalsBounded(t, ticks);
      assert |t| * ticks + ticks == |s| * ticks;
    }
  }

  /**
   * What a result computed from a state satisfying the scheduler invariant
   * says: the waiting total never exceeds the turnaround total, which is at
   * most NUM_PROCESSES times the ticks; at most one switch is reported per
   * tick after the first, none before any tick.
   */
  lemma ResultBounds(d: SchedState)
    requires Inv(d)
    ensures var r := ResultOf(d);
      && 0 <= r.totalWaiting <= r.totalTurnaround <= NUM_PROCESSES * r.totalTicks
      && 0 <= r.contextSwitches
      && (r.totalTicks == 0 ==> r.contextSwitches == 0)
      && (r.totalTicks > 0 ==> r.contextSwitches < r.totalTicks)
      && (d.contextSwitches > 0 ==> r.contextSwitches == d.contextSwitches - 1)
  {
    TotalsBounded(d.pcbs, d.tickCount);
  }
}
