/**
 * The shared scheduler state of one run as a mutable object: the fixed PCB
 * table and the scheduler counters, set up by the run controller, changed in
 * place once per timer tick, and read at the end of the run.
 */
module SharedMemory {
  import opened Processes
  import opened TickEngine
  import opened Metrics

  class SharedData {
    const pcbs: array<Pcb>
    var currentProcessIndex: int
    var timeQuantumSetting: int
    var totalProcessesAlive: int
    var tickCount: int
    var contextSwitches: int
    var lastProcessIndex: int

    /** The value of the shared state. */
    ghost function Model(): SchedState
      reads this, pcbs
    {
      SchedState(pcbs[..], currentProcessIndex, timeQuantumSetting,
                 totalProcessesAlive, tickCount, contextSwitches, lastProcessIndex)
    }

    ghost predicate Valid()
      reads this, pcbs
    {
      Inv(Model())
    }

    /**
     * Set up a run: a zeroed table whose every PCB is then made READY with
     * the configured quantum and its drawn initial burst; no PCB current,
     * none dispatched yet, all alive.
     */
    constructor (timeQuantum: int, bursts: seq<int>)
      requires |bursts| == NUM_PROCESSES
      requires forall i :: 0 <= i < NUM_PROCESSES ==> ValidBurst(bursts[i])
      ensures Valid() && fresh(pcbs)
      ensures Model() == InitialState(timeQuantum, bursts)
    {
      var zero := Pcb(0, 0, Ready, 0, 0, 0, 0, false);
      var table := new Pcb[NUM_PROCESSES](_ => zero);
      timeQuantumSetting := timeQuantum;
      currentProcessIndex := -1;
      totalProcessesAlive := NUM_PROCESSES;
      tickCount := 0;
      contextSwitches := 0;
      lastProcessIndex := -1;
      for i := 0 to NUM_PROCESSES
        invariant forall k :: 0 <= k < i ==> table[k] == InitialState(timeQuantum, bursts).pcbs[k]
        invariant forall k :: i <= k < NUM_PROCESSES ==> table[k] == zero
      {
        table[i] := table[i].(id := i, state := Ready, remainingTimeQuantum := timeQuantum,
                              cpuBurst := bursts[i], active := true);
      }
      pcbs := table;
      new;
      assert pcbs[..] == InitialState(timeQuantum, bursts).pcbs;
      InitialStateInv(timeQuantum, bursts);
    }

    /** One timer tick: bookkeeping, I/O completion, dispatch and execution, in place. */
    method Tick(draw: Draw)
      requires Valid() && ValidDraw(draw)
      modifies this, pcbs
      ensures Valid()
      ensures Model() == Step(old(Model()), draw)
    {
      ghost var d0 := Model();
      StepInv(d0, draw);
      Bookkeep();
      CompleteIoAll();
      var current := DispatchNext();
      assert Model() == BeforeExecute(d0);
      ExecuteCurrent(current, draw);
    }

    /** Bookkeeping pass: the tick counter advances; every active PCB ages, READY ones also wait. */
    method Bookkeep()
      requires WellFormed(Model())
      modifies this, pcbs
      ensures Model() == Bookkeeping(old(Model()))
    {
      tickCount := tickCount + 1;
      for i := 0 to NUM_PROCESSES
        invariant forall k :: 0 <= k < i ==> pcbs[k] == Accrue(old(pcbs[k]))
        invariant forall k :: i <= k < NUM_PROCESSES ==> pcbs[k] == old(pcbs[k])
        modifies pcbs
      {
        if pcbs[i].active {
          pcbs[i] := pcbs[i].(turnaroundTime := pcbs[i].turnaroundTime + 1);
          if pcbs[i].state == Ready {
            pcbs[i] := pcbs[i].(waitingTime := pcbs[i].waitingTime + 1);
          }
        }
      }
      assert pcbs[..] == Bookkeeping(old(Model())).pcbs;
    }

    /** I/O-completion pass: BLOCKED PCBs count down, and wake READY with a full quantum when the wait expires. */
    method CompleteIoAll()
      requires WellFormed(Model())
      modifies pcbs
      ensures Model() == IoCompletion(old(Model()))
    {
      for i := 0 to NUM_PROCESSES
        invariant forall k :: 0 <= k < i ==> pcbs[k] == CompleteIo(old(pcbs[k]), timeQuantumSetting)
        invariant forall k :: i <= k < NUM_PROCESSES ==> pcbs[k] == old(pcbs[k])
        modifies pcbs
      {
        if pcbs[i].state == Blocked {
          pcbs[i] := pcbs[i].(ioWaitTime := pcbs[i].ioWaitTime - 1);
          if pcbs[i].ioWaitTime <= 0 {
            pcbs[i] := pcbs[i].(state := Ready, remainingTimeQuantum := timeQuantumSetting);
          }
        }
      }
      assert pcbs[..] == IoCompletion(old(Model())).pcbs;
    }

    /** Dispatch pass: the circular scan when nothing is running; returns the index that executes this tick. */
    method DispatchNext() returns (current: int)
      requires WellFormed(Model())
      modifies this, pcbs
      ensures Model() == Dispatch(old(Model()))
      ensures WellFormed(Model()) && current == Model().currentProcessIndex
    {
      ghost var d := Model();
      current := currentProcessIndex;
      if current == -1 || pcbs[current].state != Running {
        var start := if current == -1 then 0 else (current + 1) % NUM_PROCESSES;
        for i := 0 to NUM_PROCESSES
          invariant forall k :: 0 <= k < i ==> !Eligible(d.pcbs[Wrap(NUM_PROCESSES, start, k)])
          invariant Model() == d && current == d.currentProcessIndex
        {
          var idx := (start + i) % NUM_PROCESSES;
          if pcbs[idx].state == Ready && pcbs[idx].active {
            assert idx == Wrap(NUM_PROCESSES, start, i) && Eligible(d.pcbs[idx]);
            assert ScanOffset(d.pcbs, start, 0) == i;
            current := idx;
            pcbs[current] := pcbs[current].(state := Running);
            if lastProcessIndex != current {
              contextSwitches := contextSwitches + 1;
              lastProcessIndex := current;
            }
            break;
          }
        }
        currentProcessIndex := current;
      }
    }

    /** Execution pass: the running PCB spends a tick and terminates, blocks, is preempted or keeps running. */
    method ExecuteCurrent(current: int, draw: Draw)
      requires WellFormed(Model()) && current == currentProcessIndex
      modifies this, pcbs
      ensures Model() == Execute(old(Model()), draw)
    {
      if current != -1 && pcbs[current].state == Running {
        pcbs[current] := pcbs[current].(remainingTimeQuantum := pcbs[current].remainingTimeQuantum - 1);
        pcbs[current] := pcbs[current].(cpuBurst := pcbs[current].cpuBurst - 1);
        if pcbs[current].cpuBurst <= 0 {
          if draw.terminate {
            pcbs[current] := pcbs[current].(state := Terminated, active := false);
            totalProcessesAlive := totalProcessesAlive - 1;
          } else {
            pcbs[current] := pcbs[current].(state := Blocked, ioWaitTime := draw.ioWaitTime,
                                            cpuBurst := draw.cpuBurst);
          }
          currentProcessIndex := -1;
        } else if pcbs[current].remainingTimeQuantum <= 0 {
          pcbs[current] := pcbs[current].(state := Ready);
          currentProcessIndex := -1;
        }
      }
    }

    /** The run's integer result, read from the shared state without changing it. */
    method Results() returns (r: RunResult)
      requires Valid()
      ensures r == ResultOf(Model())
    {
      var switches := if contextSwitches > 0 then contextSwitches - 1 else 0;
      var totalTurnaround, totalWaiting := 0, 0;
      for i := 0 to NUM_PROCESSES
        invariant totalTurnaround == TotalTurnaround(pcbs[..i])
        invariant totalWaiting == TotalWaiting(pcbs[..i])
      {
        assert pcbs[..i + 1][..i] == pcbs[..i];
        totalTurnaround := totalTurnaround + pcbs[i].turnaroundTime;
        totalWaiting := totalWaiting + pcbs[i].waitingTime;
      }
      assert pcbs[..NUM_PROCESSES] == pcbs[..];
      r := RunResult(tickCount, switches, totalTurnaround, totalWaiting);
    }
  }
}
