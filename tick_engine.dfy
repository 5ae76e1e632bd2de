/**
 * The tick engine as a specification on values: the shared scheduler state
 * of one run, the four passes one timer tick makes over it, the invariant
 * the passes keep, and what each tick does to the PCB table.
 */
module TickEngine {
  import opened Processes

  /** The scheduler's shared state: the PCB table and the scheduler counters. */
  datatype SchedState = SchedState(
    pcbs: seq<Pcb>,
    currentProcessIndex: int,
    timeQuantumSetting: int,
    totalProcessesAlive: int,
    tickCount: int,
    contextSwitches: int,
    lastProcessIndex: int)

  /** What the tick handler needs to stay within the table: its fixed size, and a current index that is a PCB or -1. */
  predicate WellFormed(d: SchedState) {
    |d.pcbs| == NUM_PROCESSES && -1 <= d.currentProcessIndex < NUM_PROCESSES
  }

  /** The per-PCB part of the scheduler invariant. */
  predicate PcbInv(p: Pcb, i: int, ticks: int) {
    && p.id == i
    && (p.active <==> p.state != Terminated)
    && 0 <= p.waitingTime <= p.turnaroundTime <= ticks
    && (p.state == Blocked ==> 1 <= p.ioWaitTime <= MAX_IO_WAIT)
    && (p.state != Terminated ==> ValidBurst(p.cpuBurst))
  }

  /**
   * The scheduler invariant at tick boundaries: the PCB that is RUNNING, if
   * any, is the one the current index names; the alive counter counts the
   * PCBs not yet TERMINATED; waiting time never exceeds turnaround time.
   */
  predicate Inv(d: SchedState) {
    && WellFormed(d)
    && (forall i :: 0 <= i < NUM_PROCESSES ==> PcbInv(d.pcbs[i], i, d.tickCount))
    && (forall i :: 0 <= i < NUM_PROCESSES ==> (d.pcbs[i].state == Running <==> i == d.currentProcessIndex))
    && d.totalProcessesAlive == CountAlive(d.pcbs)
    && -1 <= d.lastProcessIndex < NUM_PROCESSES
    && (d.currentProcessIndex != -1 ==> d.lastProcessIndex == d.currentProcessIndex)
    && 0 <= d.contextSwitches <= d.tickCount
    && (d.contextSwitches == 0 <==> d.lastProcessIndex == -1)
  }

  /** The state the run controller sets up: every PCB READY with a full quantum and its drawn burst. */
  function InitialState(timeQuantum: int, bursts: seq<int>): (r: SchedState)
    requires |bursts| == NUM_PROCESSES
    ensures WellFormed(r) && r.currentProcessIndex == -1 && r.lastProcessIndex == -1
    ensures r.totalProcessesAlive == |r.pcbs| && r.tickCount == 0 && r.contextSwitches == 0
    ensures forall i :: 0 <= i < NUM_PROCESSES ==>
      Eligible(r.pcbs[i]) && r.pcbs[i].id == i &&
      r.pcbs[i].remainingTimeQuantum == r.timeQuantumSetting == timeQuantum &&
      r.pcbs[i].cpuBurst == bursts[i] && r.pcbs[i].waitingTime == r.pcbs[i].turnaroundTime == 0
  {
    SchedState(
      seq(NUM_PROCESSES, i requires 0 <= i < NUM_PROCESSES =>
        Pcb(i, timeQuantum, Ready, bursts[i], 0, 0, 0, true)),
      -1, timeQuantum, NUM_PROCESSES, 0, 0, -1)
  }

  // ---------------------------------------------------------------------
  // The four passes of one tick
  // ---------------------------------------------------------------------

  /** Bookkeeping for one PCB: an active PCB ages by one tick, and waits one more tick if READY. */
  function Accrue(p: Pcb): Pcb {
    if p.active then
      p.(turnaroundTime := p.turnaroundTime + 1,
         waitingTime := if p.state == Ready then p.waitingTime + 1 else p.waitingTime)
    else p
  }

  /** The bookkeeping pass: the tick count advances; no PCB changes state, quantum or burst. */
  function Bookkeeping(d: SchedState): (r: SchedState)
    ensures |r.pcbs| == |d.pcbs| && r.tickCount == d.tickCount + 1
    ensures r.(pcbs := d.pcbs, tickCount := d.tickCount) == d
    ensures forall i :: 0 <= i < |d.pcbs| ==>
      r.pcbs[i].(turnaroundTime := d.pcbs[i].turnaroundTime, waitingTime := d.pcbs[i].waitingTime) == d.pcbs[i]
  {
    d.(tickCount := d.tickCount + 1,
       pcbs := seq(|d.pcbs|, i requires 0 <= i < |d.pcbs| => Accrue(d.pcbs[i])))
  }

  /** I/O completion for one PCB: a BLOCKED PCB counts its wait down and, when it expires, is READY with a fresh quantum. */
  function CompleteIo(p: Pcb, timeQuantum: int): Pcb {
    if p.state == Blocked then
      var w := p.ioWaitTime - 1;
      if w <= 0 then p.(ioWaitTime := w, state := Ready, remainingTimeQuantum := timeQuantum)
      else p.(ioWaitTime := w)
    else p
  }

  /** The I/O-completion pass: only BLOCKED PCBs change, and only the counters of the table. */
  function IoCompletion(d: SchedState): (r: SchedState)
    ensures |r.pcbs| == |d.pcbs| && r.(pcbs := d.pcbs) == d
    ensures forall i :: 0 <= i < |d.pcbs| && d.pcbs[i].state != Blocked ==> r.pcbs[i] == d.pcbs[i]
    ensures forall i :: 0 <= i < |d.pcbs| && d.pcbs[i].state == Blocked ==>
      r.pcbs[i].state in {Blocked, Ready} && r.pcbs[i].ioWaitTime == d.pcbs[i].ioWaitTime - 1
  {
    d.(pcbs := seq(|d.pcbs|, i requires 0 <= i < |d.pcbs| => CompleteIo(d.pcbs[i], d.timeQuantumSetting)))
  }

  /** Where the dispatch scan starts: 0 when no PCB is current, else one past the current index. */
  function ScanStart(current: int): int {
    if current == -1 then 0 else (current + 1) % NUM_PROCESSES
  }

  /** The table index k positions after start, wrapping around a table of n PCBs. */
  function Wrap(n: int, start: int, k: int): (idx: int)
    requires n > 0
    ensures 0 <= idx < n
  {
    (start + k) % n
  }

  /**
   * The circular dispatch scan: the offset j >= i from start of the first
   * eligible PCB in circular order, or |s| when no PCB at an offset >= i is
   * eligible.
   */
  function ScanOffset(s: seq<Pcb>, start: int, i: nat): (j: nat)
    requires 0 <= start < |s| && i <= |s|
    ensures i <= j <= |s|
    ensures j < |s| ==> Eligible(s[Wrap(|s|, start, j)])
    ensures forall k :: i <= k < j ==> !Eligible(s[Wrap(|s|, start, k)])
    decreases |s| - i
  {
    if i == |s| then |s|
    else if Eligible(s[Wrap(|s|, start, i)]) then i
    else ScanOffset(s, start, i + 1)
  }

  /** Dispatch: when no PCB is running, make the first eligible PCB of the scan RUNNING and count a switch if it differs from the last one. */
  function Dispatch(d: SchedState): (r: SchedState)
    requires WellFormed(d)
    ensures WellFormed(r)
    ensures r.tickCount == d.tickCount && r.totalProcessesAlive == d.totalProcessesAlive
    ensures r.timeQuantumSetting == d.timeQuantumSetting
    ensures forall i :: 0 <= i < NUM_PROCESSES && i != r.currentProcessIndex ==> r.pcbs[i] == d.pcbs[i]
    ensures r.currentProcessIndex != d.currentProcessIndex ==> r.currentProcessIndex != -1
    ensures r.currentProcessIndex != d.currentProcessIndex ==>
      r.pcbs[r.currentProcessIndex] == d.pcbs[r.currentProcessIndex].(state := Running)
    ensures d.contextSwitches <= r.contextSwitches <= d.contextSwitches + 1
  {
    var current := d.currentProcessIndex;
    if current == -1 || d.pcbs[current].state != Running then
      var start := ScanStart(current);
      var j := ScanOffset(d.pcbs, start, 0);
      if j < NUM_PROCESSES then
        var c := Wrap(NUM_PROCESSES, start, j);
        d.(pcbs := d.pcbs[c := d.pcbs[c].(state := Running)],
           currentProcessIndex := c,
           contextSwitches := if d.lastProcessIndex != c then d.contextSwitches + 1 else d.contextSwitches,
           lastProcessIndex := c)
      else d
    else d
  }

  /**
   * Execution: the running PCB consumes one tick of quantum and burst; an
   * exhausted burst ends in termination or blocking (by the coin), else an
   * exhausted quantum ends in preemption. The quantum is not refilled here.
   */
  function Execute(d: SchedState, draw: Draw): (r: SchedState)
    requires WellFormed(d)
    ensures WellFormed(r)
    ensures r.currentProcessIndex == -1 || r.currentProcessIndex == d.currentProcessIndex
    ensures forall i :: 0 <= i < NUM_PROCESSES && i != d.currentProcessIndex ==> r.pcbs[i] == d.pcbs[i]
    ensures r.(pcbs := d.pcbs, currentProcessIndex := d.currentProcessIndex,
               totalProcessesAlive := d.totalProcessesAlive) == d
    ensures r.totalProcessesAlive == d.totalProcessesAlive || r.totalProcessesAlive == d.totalProcessesAlive - 1
  {
    var c := d.currentProcessIndex;
    if c != -1 && d.pcbs[c].state == Running then
      var p := d.pcbs[c].(remainingTimeQuantum := d.pcbs[c].remainingTimeQuantum - 1,
                          cpuBurst := d.pcbs[c].cpuBurst - 1);
      if p.cpuBurst <= 0 then
        if draw.terminate then
          d.(pcbs := d.pcbs[c := p.(state := Terminated, active := false)],
             totalProcessesAlive := d.totalProcessesAlive - 1,
             currentProcessIndex := -1)
        else
          d.(pcbs := d.pcbs[c := p.(state := Blocked, ioWaitTime := draw.ioWaitTime, cpuBurst := draw.cpuBurst)],
             currentProcessIndex := -1)
      else if p.remainingTimeQuantum <= 0 then
        d.(pcbs := d.pcbs[c := p.(state := Ready)], currentProcessIndex := -1)
      else
        d.(pcbs := d.pcbs[c := p])
    else d
  }

  /** The state after the bookkeeping and I/O-completion passes. */
  function BeforeDispatch(d: SchedState): SchedState {
    IoCompletion(Bookkeeping(d))
  }

  /** The state after the dispatch pass: its current index names the PCB that executes this tick, if any. */
  function BeforeExecute(d: SchedState): SchedState
    requires WellFormed(d)
  {
    Dispatch(BeforeDispatch(d))
  }

  /** One timer tick. */
  function Step(d: SchedState, draw: Draw): (r: SchedState)
    requires WellFormed(d)
    ensures WellFormed(r)
    ensures r.tickCount == d.tickCount + 1 && r.timeQuantumSetting == d.timeQuantumSetting
    ensures d.contextSwitches <= r.contextSwitches <= d.contextSwitches + 1
    ensures r.totalProcessesAlive == d.totalProcessesAlive || r.totalProcessesAlive == d.totalProcessesAlive - 1
  {
    Execute(BeforeExecute(d), draw)
  }

  // ---------------------------------------------------------------------
  // The invariant holds initially and each pass keeps it
  // ---------------------------------------------------------------------

  /** The initialised table satisfies the scheduler invariant. */
  lemma InitialStateInv(timeQuantum: int, bursts: seq<int>)
    requires |bursts| == NUM_PROCESSES
    requires forall i :: 0 <= i < NUM_PROCESSES ==> ValidBurst(bursts[i])
    ensures Inv(InitialState(timeQuantum, bursts))
  {
    CountAliveAll(InitialState(timeQuantum, bursts).pcbs);
  }

  lemma BookkeepingInv(d: SchedState)
    requires Inv(d)
    ensures Inv(Bookkeeping(d))
    ensures Bookkeeping(d).contextSwitches < Bookkeeping(d).tickCount
  {
    CountAliveSame(d.pcbs, Bookkeeping(d).pcbs);
  }

  lemma IoCompletionInv(d: SchedState)
    requires Inv(d)
    ensures Inv(IoCompletion(d))
  {
    CountAliveSame(d.pcbs, IoCompletion(d).pcbs);
  }

  /** Under the invariant the scan runs only when no PCB is current, so it starts at index 0. */
  lemma ScanOnlyFromIdle(d: SchedState)
    requires Inv(d)
    ensures d.currentProcessIndex == -1 || d.pcbs[d.currentProcessIndex].state != Running
            ==> d.currentProcessIndex == -1 && ScanStart(d.currentProcessIndex) == 0
  {
  }

  lemma DispatchInv(d: SchedState)
    requires Inv(d) && d.contextSwitches < d.tickCount
    ensures Inv(Dispatch(d))
  {
    var r := Dispatch(d);
    if r != d {
      var c := r.currentProcessIndex;
      CountAliveUpdate(d.pcbs, c, d.pcbs[c].(state := Running));
    }
  }

  lemma ExecuteInv(d: SchedState, draw: Draw)
    requires Inv(d) && ValidDraw(draw)
    ensures Inv(Execute(d, draw))
  {
    var c := d.currentProcessIndex;
    if c != -1 {
      var r := Execute(d, draw);
      CountAliveUpdate(d.pcbs, c, r.pcbs[c]);
    }
  }

  /** Every tick keeps the scheduler invariant. */
  lemma StepInv(d: SchedState, draw: Draw)
    requires Inv(d) && ValidDraw(draw)
    ensures Inv(Step(d, draw))
  {
    BookkeepingInv(d);
    IoCompletionInv(Bookkeeping(d));
    DispatchInv(BeforeDispatch(d));
    ExecuteInv(BeforeExecute(d), draw);
  }

  // ---------------------------------------------------------------------
  // What one tick does
  // ---------------------------------------------------------------------

  /**
   * The tick counter advances by one; every active PCB's turnaround time
   * advances by one, and its waiting time exactly when it was READY at the
   * start of the tick; an inactive PCB's counters stay put.
   */
  lemma StepAccounting(d: SchedState, draw: Draw, i: int)
    requires WellFormed(d) && 0 <= i < NUM_PROCESSES
    ensures Step(d, draw).tickCount == d.tickCount + 1
    ensures Step(d, draw).pcbs[i].turnaroundTime == d.pcbs[i].turnaroundTime + (if d.pcbs[i].active then 1 else 0)
    ensures Step(d, draw).pcbs[i].waitingTime ==
            d.pcbs[i].waitingTime + (if d.pcbs[i].active && d.pcbs[i].state == Ready then 1 else 0)
  {
  }

  /** A PCB that is TERMINATED and inactive is left exactly as it was: state, counters and quantum. */
  lemma TerminatedAbsorbing(d: SchedState, draw: Draw, i: int)
    requires WellFormed(d) && 0 <= i < NUM_PROCESSES
    requires d.pcbs[i].state == Terminated && !d.pcbs[i].active
    ensures Step(d, draw).pcbs[i] == d.pcbs[i]
  {
    var u := BeforeDispatch(d);
    assert u.pcbs[i] == d.pcbs[i];
    assert !Eligible(u.pcbs[i]);
  }

  /**
   * The alive counter never increases and drops by exactly one on a tick in
   * which some PCB terminates; no PCB leaves TERMINATED.
   */
  lemma AliveAccounting(d: SchedState, draw: Draw)
    requires Inv(d) && ValidDraw(draw)
    ensures var r := Step(d, draw);
      && (r.totalProcessesAlive == d.totalProcessesAlive || r.totalProcessesAlive == d.totalProcessesAlive - 1)
      && (r.totalProcessesAlive == d.totalProcessesAlive - 1 <==>
          exists i :: 0 <= i < NUM_PROCESSES && Alive(d.pcbs[i]) && !Alive(r.pcbs[i]))
      && (forall i :: 0 <= i < NUM_PROCESSES && !Alive(d.pcbs[i]) ==> !Alive(r.pcbs[i]))
  {
    var r := Step(d, draw);
    forall i | 0 <= i < NUM_PROCESSES && !Alive(d.pcbs[i])
      ensures !Alive(r.pcbs[i])
    {
      TerminatedAbsorbing(d, draw, i);
    }
    var v := BeforeExecute(d);
    var c := v.currentProcessIndex;
    if c != -1 && v.pcbs[c].cpuBurst - 1 <= 0 && draw.terminate {
      assert Alive(d.pcbs[c]) && !Alive(r.pcbs[c]);
    } else {
      forall i | 0 <= i < NUM_PROCESSES
        ensures Alive(d.pcbs[i]) ==> Alive(r.pcbs[i])
      {
      }
    }
  }

  /**
   * The I/O-completion pass: a BLOCKED PCB's wait counts down by one; when it
   * reaches zero or below the PCB is READY with the configured quantum, else
   * it stays BLOCKED. The rest of its record is as bookkeeping left it, and
   * no other PCB is touched by that pass.
   */
  lemma IoCompletionWakes(d: SchedState, i: int)
    requires WellFormed(d) && 0 <= i < NUM_PROCESSES
    ensures var u := BeforeDispatch(d);
      && (d.pcbs[i].state == Blocked ==>
            && u.pcbs[i].ioWaitTime == d.pcbs[i].ioWaitTime - 1
            && (u.pcbs[i].ioWaitTime <= 0 ==>
                  u.pcbs[i].state == Ready && u.pcbs[i].remainingTimeQuantum == d.timeQuantumSetting)
            && (u.pcbs[i].ioWaitTime > 0 ==>
                  u.pcbs[i].state == Blocked && u.pcbs[i].remainingTimeQuantum == d.pcbs[i].remainingTimeQuantum)
            && u.pcbs[i] == Accrue(d.pcbs[i]).(ioWaitTime := u.pcbs[i].ioWaitTime, state := u.pcbs[i].state,
                                               remainingTimeQuantum := u.pcbs[i].remainingTimeQuantum))
      && (d.pcbs[i].state != Blocked ==> u.pcbs[i] == Accrue(d.pcbs[i]))
  {
  }

  /** The PCB that executes during the tick, if any. */
  function Executing(d: SchedState): (c: int)
    requires WellFormed(d)
    ensures -1 <= c < NUM_PROCESSES
  {
    BeforeExecute(d).currentProcessIndex
  }

  /**
   * The quantum is refilled only by I/O completion: after a tick a PCB's
   * remaining quantum is its old value, or the configured value if its I/O
   * wait expired this tick, less one if it executed this tick. Neither
   * dispatch nor preemption refills it.
   */
  lemma QuantumRefillOnlyOnIo(d: SchedState, draw: Draw, i: int)
    requires Inv(d) && 0 <= i < NUM_PROCESSES
    ensures Step(d, draw).pcbs[i].remainingTimeQuantum ==
            (if d.pcbs[i].state == Blocked && d.pcbs[i].ioWaitTime <= 1 then d.timeQuantumSetting
             else d.pcbs[i].remainingTimeQuantum)
            - (if i == Executing(d) then 1 else 0)
  {
    BookkeepingInv(d);
    IoCompletionInv(Bookkeeping(d));
    DispatchInv(BeforeDispatch(d));
  }

  /**
   * Dispatch. If a PCB is running it keeps the CPU and nothing is counted.
   * Otherwise the scan starts at index 0, because every exit from RUNNING
   * cleared the current index, and it picks the lowest-indexed READY PCB
   * after I/O completion; if none is READY nothing runs. A context switch is
   * counted exactly when the pick differs from the last dispatched PCB,
   * which the pick then becomes. Only the pick's state changes in the table.
   */
  lemma DispatchChoice(d: SchedState)
    requires Inv(d)
    ensures var u := BeforeDispatch(d);
      var v := BeforeExecute(d);
      && (d.currentProcessIndex != -1 ==> v == u && v.currentProcessIndex == d.currentProcessIndex)
      && (forall k :: 0 <= k < NUM_PROCESSES && k != v.currentProcessIndex ==> v.pcbs[k] == u.pcbs[k])
      && (v.currentProcessIndex != -1 && d.currentProcessIndex == -1 ==>
            v.pcbs[v.currentProcessIndex] == u.pcbs[v.currentProcessIndex].(state := Running))
      && (v.currentProcessIndex == -1 ==> v == u)
      && v.tickCount == u.tickCount && v.totalProcessesAlive == u.totalProcessesAlive
      && (d.currentProcessIndex == -1 ==>
            && ScanStart(u.currentProcessIndex) == 0
            && (v.currentProcessIndex == -1 <==> forall k :: 0 <= k < NUM_PROCESSES ==> u.pcbs[k].state != Ready)
            && (v.currentProcessIndex != -1 ==>
                  && u.pcbs[v.currentProcessIndex].state == Ready
                  && v.pcbs[v.currentProcessIndex].state == Running
                  && forall k :: 0 <= k < v.currentProcessIndex ==> u.pcbs[k].state != Ready)
            && v.contextSwitches ==
               d.contextSwitches + (if v.currentProcessIndex != -1 && v.currentProcessIndex != d.lastProcessIndex then 1 else 0)
            && v.lastProcessIndex == (if v.currentProcessIndex != -1 then v.currentProcessIndex else d.lastProcessIndex))
  {
    var u := BeforeDispatch(d);
    BookkeepingInv(d);
    IoCompletionInv(Bookkeeping(d));
    if d.currentProcessIndex == -1 {
      var j := ScanOffset(u.pcbs, 0, 0);
      forall k | 0 <= k < NUM_PROCESSES
        ensures Wrap(NUM_PROCESSES, 0, k) == k
        ensures Eligible(u.pcbs[k]) <==> u.pcbs[k].state == Ready
      {
      }
      if j < NUM_PROCESSES {
        assert BeforeExecute(d).currentProcessIndex == j;
        forall k | 0 <= k < j
          ensures u.pcbs[k].state != Ready
        {
          assert !Eligible(u.pcbs[Wrap(NUM_PROCESSES, 0, k)]);
        }
      } else {
        forall k | 0 <= k < NUM_PROCESSES
          ensures u.pcbs[k].state != Ready
        {
          assert !Eligible(u.pcbs[Wrap(NUM_PROCESSES, 0, k)]);
        }
      }
    }
  }

  /**
   * Execution. The executing PCB spends one tick of quantum and burst. An
   * exhausted burst ends in TERMINATED (the alive counter drops by one) or
   * BLOCKED with the drawn wait and burst, by the coin; otherwise an
   * exhausted quantum ends in READY; otherwise it keeps running. Every exit
   * from RUNNING clears the current index. No other PCB and none of the
   * switch, last-index and tick counters change.
   */
  lemma ExecutionOutcome(d: SchedState, draw: Draw)
    requires Inv(d)
    ensures Executing(d) == -1 ==>
      Step(d, draw) == BeforeExecute(d) && forall k :: 0 <= k < NUM_PROCESSES ==> Step(d, draw).pcbs[k].state != Running
    ensures Executing(d) != -1 ==>
      var c := Executing(d);
      var p := BeforeExecute(d).pcbs[c];
      var q := Step(d, draw).pcbs[c];
      var r := Step(d, draw);
      && q.remainingTimeQuantum == p.remainingTimeQuantum - 1
      && (p.cpuBurst <= 1 && draw.terminate ==>
            q.state == Terminated && !q.active && r.totalProcessesAlive == d.totalProcessesAlive - 1)
      && (p.cpuBurst <= 1 && !draw.terminate ==>
            q.state == Blocked && q.ioWaitTime == draw.ioWaitTime && q.cpuBurst == draw.cpuBurst
            && r.totalProcessesAlive == d.totalProcessesAlive)
      && (p.cpuBurst > 1 ==> q.cpuBurst == p.cpuBurst - 1 && r.totalProcessesAlive == d.totalProcessesAlive)
      && (p.cpuBurst > 1 && p.remainingTimeQuantum <= 1 ==> q.state == Ready)
      && (p.cpuBurst > 1 && p.remainingTimeQuantum > 1 ==> q.state == Running && r.currentProcessIndex == c)
      && (q.state != Running ==> r.currentProcessIndex == -1)
    ensures var v := BeforeExecute(d);
      var r := Step(d, draw);
      && (forall k :: 0 <= k < NUM_PROCESSES && k != Executing(d) ==> r.pcbs[k] == v.pcbs[k])
      && r.contextSwitches == v.contextSwitches
      && r.lastProcessIndex == v.lastProcessIndex
      && r.tickCount == v.tickCount
      && r.timeQuantumSetting == v.timeQuantumSetting
  {
    BookkeepingInv(d);
    IoCompletionInv(Bookkeeping(d));
    DispatchInv(BeforeDispatch(d));
  }

  /**
   * The quantum is not refilled on dispatch: a PCB that is preempted or
   * woken with a quantum of at most one and is dispatched again with burst
   * left runs one tick and is preempted at once, ending the tick READY with
   * its quantum one lower.
   */
  lemma StaleQuantumPreemptsAtOnce(d: SchedState, draw: Draw, i: int)
    requires Inv(d) && 0 <= i < NUM_PROCESSES
    requires d.pcbs[i].state == Ready && d.pcbs[i].remainingTimeQuantum <= 1 && d.pcbs[i].cpuBurst >= 2
    requires Executing(d) == i
    ensures Step(d, draw).pcbs[i].state == Ready
    ensures Step(d, draw).pcbs[i].remainingTimeQuantum == d.pcbs[i].remainingTimeQuantum - 1
    ensures Step(d, draw).currentProcessIndex == -1
  {
    ExecutionOutcome(d, draw);
  }

  /**
   * A PCB's remaining quantum never falls more than MAX_CPU_BURST below the
   * configured quantum: a PCB runs at most its burst before it blocks (and
   * I/O completion refills the quantum) or terminates.
   */
  predicate PcbQuantumFloor(p: Pcb, timeQuantum: int) {
    && p.remainingTimeQuantum >= timeQuantum - MAX_CPU_BURST
    && (p.state == Ready || p.state == Running ==> p.remainingTimeQuantum - p.cpuBurst >= timeQuantum - MAX_CPU_BURST)
  }

  predicate QuantumFloor(d: SchedState)
    requires WellFormed(d)
  {
    forall i :: 0 <= i < NUM_PROCESSES ==> PcbQuantumFloor(d.pcbs[i], d.timeQuantumSetting)
  }

  lemma InitialQuantumFloor(timeQuantum: int, bursts: seq<int>)
    requires |bursts| == NUM_PROCESSES
    requires forall i :: 0 <= i < NUM_PROCESSES ==> ValidBurst(bursts[i])
    ensures QuantumFloor(InitialState(timeQuantum, bursts))
  {
  }

  /** Every tick keeps the quantum floor, so the remaining quantum stays bounded below throughout a run. */
  lemma StepQuantumFloor(d: SchedState, draw: Draw)
    requires Inv(d) && QuantumFloor(d) && ValidDraw(draw)
    ensures QuantumFloor(Step(d, draw))
  {
  }
}
