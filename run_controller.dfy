/**
 * One simulation run: set up the shared state, deliver timer ticks one at a
 * time until no process is alive, and report the run's integer result.
 * The random values the run consumes are given up front: the initial bursts
 * and one draw per tick. A run whose draws are used up before every process
 * has terminated has no result.
 */
module RunController {
  import opened Processes
  import opened TickEngine
  import opened Metrics
  import opened SharedMemory

  datatype Option<T> = None | Some(value: T)

  predicate ValidBursts(bursts: seq<int>) {
    |bursts| == NUM_PROCESSES && forall i :: 0 <= i < |bursts| ==> ValidBurst(bursts[i])
  }

  predicate ValidDraws(draws: seq<Draw>) {
    forall i :: 0 <= i < |draws| ==> ValidDraw(draws[i])
  }

  /**
   * The state in which the run ends: ticks are applied while some process
   * is alive; None when the draws run out first. The final state keeps the
   * scheduler invariant and has no process alive.
   */
  function FinalState(d: SchedState, draws: seq<Draw>): (r: Option<SchedState>)
    requires Inv(d) && ValidDraws(draws)
    ensures r.Some? ==> Inv(r.value) && r.value.totalProcessesAlive == 0
    decreases |draws|
  {
    if d.totalProcessesAlive <= 0 then Some(d)
    else if draws == [] then None
    else
      StepInv(d, draws[0]);
      FinalState(Step(d, draws[0]), draws[1..])
  }

  /** The state in which a run from the given quantum and random values ends. */
  function RunFinal(timeQuantum: int, bursts: seq<int>, draws: seq<Draw>): Option<SchedState>
    requires ValidBursts(bursts) && ValidDraws(draws)
  {
    InitialStateInv(timeQuantum, bursts);
    FinalState(InitialState(timeQuantum, bursts), draws)
  }

  /**
   * The result of a run from the given quantum and random values. A run
   * that completes took between NUM_PROCESSES ticks and one tick per draw,
   * and its totals and reported switches are bounded by its ticks.
   */
  function RunSpec(timeQuantum: int, bursts: seq<int>, draws: seq<Draw>): (r: Option<RunResult>)
    requires ValidBursts(bursts) && ValidDraws(draws)
    ensures r.Some? <==> RunFinal(timeQuantum, bursts, draws).Some?
    ensures r.Some? ==>
      && NUM_PROCESSES <= r.value.totalTicks <= |draws|
      && 0 <= r.value.totalWaiting <= r.value.totalTurnaround <= NUM_PROCESSES * r.value.totalTicks
      && r.value.contextSwitches < r.value.totalTicks
  {
    match RunFinal(timeQuantum, bursts, draws)
    case None => None
    case Some(f) =>
      InitialStateInv(timeQuantum, bursts);
      FinalStateTicks(InitialState(timeQuantum, bursts), draws);
      ResultBounds(f);
      Some(ResultOf(f))
  }

  /**
   * A run that ends has used one tick per draw it consumed, and at least one
   * tick per process alive at its start, since at most one process
   * terminates per tick.
   */
  lemma {:induction false} FinalStateTicks(d: SchedState, draws: seq<Draw>)
    requires Inv(d) && ValidDraws(draws)
    requires FinalState(d, draws).Some?
    ensures var f := FinalState(d, draws).value;
      d.tickCount + d.totalProcessesAlive <= f.tickCount <= d.tickCount + |draws|
    decreases |draws|
  {
    if d.totalProcessesAlive > 0 {
      AliveAccounting(d, draws[0]);
      StepInv(d, draws[0]);
      FinalStateTicks(Step(d, draws[0]), draws[1..]);
    }
  }

  /**
   * A completed run ends with every PCB TERMINATED and waiting time at most
   * turnaround time for each; it took at least NUM_PROCESSES ticks and no
   * more than there were draws, and its result satisfies the bounds of
   * ResultBounds.
   */
  lemma CompletedRun(timeQuantum: int, bursts: seq<int>, draws: seq<Draw>)
    requires ValidBursts(bursts) && ValidDraws(draws)
    requires RunSpec(timeQuantum, bursts, draws).Some?
    ensures var f := RunFinal(timeQuantum, bursts, draws).value;
      && (forall i :: 0 <= i < NUM_PROCESSES ==>
            f.pcbs[i].state == Terminated && f.pcbs[i].waitingTime <= f.pcbs[i].turnaroundTime)
      && NUM_PROCESSES <= f.tickCount <= |draws|
      && RunSpec(timeQuantum, bursts, draws).value == ResultOf(f)
    ensures var r := RunSpec(timeQuantum, bursts, draws).value;
      && 0 <= r.totalWaiting <= r.totalTurnaround <= NUM_PROCESSES * r.totalTicks
      && r.contextSwitches < r.totalTicks
  {
    InitialStateInv(timeQuantum, bursts);
    var d := InitialState(timeQuantum, bursts);
    var f := FinalState(d, draws).value;
    CountAliveZero(f.pcbs);
    FinalStateTicks(d, draws);
    ResultBounds(f);
  }

  /**
   * Run one simulation: set up the shared state, tick while a process is
   * alive and draws remain, then read the result.
   */
  method RunSingleSimulation(timeQuantum: int, bursts: seq<int>, draws: seq<Draw>) returns (r: Option<RunResult>)
    requires ValidBursts(bursts) && ValidDraws(draws)
    ensures r == RunSpec(timeQuantum, bursts, draws)
  {
    var shared := new SharedData(timeQuantum, bursts);
    ghost var d := InitialState(timeQuantum, bursts);
    var k := 0;
    while shared.totalProcessesAlive > 0 && k < |draws|
      invariant 0 <= k <= |draws|
      invariant fresh(shared.pcbs)
      invariant shared.Valid()
      invariant FinalState(shared.Model(), draws[k..]) == FinalState(d, draws)
      decreases |draws| - k
    {
      assert draws[k..][1..] == draws[k + 1..];
      shared.Tick(draws[k]);
      k := k + 1;
    }
    if shared.totalProcessesAlive > 0 {
      r := None;
    } else {
      var result := shared.Results();
      r := Some(result);
    }
  }
}
