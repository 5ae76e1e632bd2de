# Round-robin scheduler simulator: a Dafny model

This project models the scheduler core of the simulator in
`lect07/scheduler.c`. That file simulates a CPU scheduler in discrete time. A fixed table of
`NUM_PROCESSES` (10) process control blocks (PCBs) and a few scheduler
counters live in one shared record. A timer tick handler changes that record once per tick
in four passes:

1. bookkeeping: every active PCB ages, and READY ones also accrue waiting time;
2. I/O completion: BLOCKED PCBs count their wait down and wake READY with a full quantum;
3. dispatch: a circular scan for a READY PCB when nothing is running;
4. execution: the running PCB spends a tick and then terminates, blocks, is preempted or
   keeps running.

The run controller sets up the table and delivers ticks until no process is alive. It then
reports the tick count, the context switches less the first dispatch, and the average
turnaround and waiting times over the 10 PCBs (lines 170-171). The model stops at the integer
turnaround and waiting totals those averages divide.

Modules, one per component:

- `Processes` (`processes.dfy`): the PCB record, the random draws a tick consumes, and the
  count of alive PCBs with its lemmas.
- `TickEngine` (`tick_engine.dfy`): the shared state as a value (`SchedState`). It defines the
  four passes as functions, `Step` as their composition, and the scheduler invariant `Inv`.
  Its lemmas say what one tick does.
- `Metrics` (`metrics.dfy`): the integer run result and its bounds.
- `SharedMemory` (`shared_data.dfy`): the class `SharedData`. It holds the PCB table as an
  `array<Pcb>` and the counters as fields. The constructor is the initialisation loop. `Tick` is
  the tick handler, working in place through one method per pass. `Results` is the final
  aggregation. Each method is proved to match the value-level functions.
- `RunController` (`run_controller.dfy`): one run as a loop of ticks over a finite sequence of
  draws, proved equal to the function `RunSpec`, plus what a completed run guarantees.

Randomness is passed in. The initial bursts are a sequence of 10 values in [1,10]. Each tick
takes one `Draw`: the terminate-or-block coin (`rand() % 2 == 0` means terminate), a new I/O
wait in [1,5] and a new burst in [1,10]. The last two are used only when the PCB blocks.

## Behaviour worth knowing

- The dispatch scan always starts at index 0. Its start is 0 when `current_process_index` is -1 and one past that index otherwise (line 215). The scan runs only when no PCB is RUNNING, and every exit from RUNNING clears the index to -1 (lines 247 and 251), so under the invariant the index is -1 whenever the scan runs (`TickEngine.ScanOnlyFromIdle`). Dispatch therefore picks the lowest-indexed READY PCB (`TickEngine.DispatchChoice`).
- The quantum is refilled only at initialisation (line 133) and on I/O completion (line 207). Dispatch and preemption leave it alone (`TickEngine.QuantumRefillOnlyOnIo`). A PCB preempted for an exhausted quantum keeps its depleted quantum. If it still has burst left when it is dispatched again, it runs one tick and is preempted at once (`TickEngine.StaleQuantumPreemptsAtOnce`).
- The quantum is bounded below all the same. A PCB runs at most its burst (at most 10, lines 134 and 245) before it blocks or terminates, and waking from I/O refills the quantum. So every remaining quantum stays at or above the configured quantum less 10 (`TickEngine.StepQuantumFloor`).

## Model

| member | source | states |
|---|---|---|
| `TickEngine.InitialState` | lect07/scheduler.c:123-135 | the initial state: every PCB READY and active with id i, the configured quantum, its drawn burst and zero counters; no PCB current or last dispatched; 10 alive; no ticks or switches |
| `TickEngine.InitialStateInv` | lect07/scheduler.c:123-135 | the initialised state satisfies the scheduler invariant: all PCBs READY and active, ids 0..9, no PCB current, the alive counter equals the number of live PCBs |
| `SharedMemory.SharedData.constructor` | lect07/scheduler.c:123-135 | the zeroed table, after the initialisation loop, is the initial state: every PCB READY and active with the configured quantum and its drawn burst; current and last index -1; alive count 10; the object invariant holds |
| `TickEngine.ScanOffset` | lect07/scheduler.c:216-228 | the circular scan finds the first eligible (READY and active) PCB at or after the given offset from the start, and no PCB it passed over is eligible; it reports "none" exactly when no PCB in range is eligible |
| `TickEngine.ScanOnlyFromIdle` | lect07/scheduler.c:212-215 | under the invariant the dispatch scan runs only when no PCB is current, so its start is index 0 |
| `TickEngine.BookkeepingInv` | lect07/scheduler.c:191-200 | the tick-count and bookkeeping pass keeps the invariant, including waiting <= turnaround <= ticks, and leaves the switch count below the tick count |
| `TickEngine.Bookkeeping` | lect07/scheduler.c:191-200 | the bookkeeping pass advances the tick count by one and touches only the turnaround and waiting counters of the PCBs |
| `TickEngine.IoCompletion` | lect07/scheduler.c:202-210 | the I/O-completion pass changes only BLOCKED PCBs, each counting its wait down by one and ending BLOCKED or READY; the scheduler counters are untouched |
| `TickEngine.Dispatch` | lect07/scheduler.c:212-230 | the dispatch pass changes no PCB except the newly current one, which becomes RUNNING; it adds at most one switch and leaves the tick count, alive count and quantum setting alone |
| `TickEngine.Execute` | lect07/scheduler.c:232-253 | the execution pass changes only the PCB that was current; the current index stays or becomes -1; the alive count stays or drops by one; the other counters are untouched |
| `TickEngine.IoCompletionInv` | lect07/scheduler.c:202-210 | the I/O-completion pass keeps the invariant |
| `TickEngine.DispatchInv` | lect07/scheduler.c:212-230 | the dispatch pass keeps the invariant |
| `TickEngine.ExecuteInv` | lect07/scheduler.c:232-253 | the execution pass keeps the invariant, including with the drawn I/O wait and burst |
| `TickEngine.Step` | lect07/scheduler.c:188-254 | a tick keeps the table size and the current index in range, adds exactly one tick, at most one switch, keeps the quantum setting, and lowers the alive count by at most one |
| `TickEngine.StepInv` | lect07/scheduler.c:188-254 | every tick keeps the invariant: at most one PCB is RUNNING and the current index names it; the alive counter equals the number of PCBs not TERMINATED; `active` holds exactly for PCBs not TERMINATED; BLOCKED PCBs wait 1..5 ticks; live PCBs have a burst in 1..10; waiting <= turnaround <= ticks; a current PCB is the last dispatched; switches <= ticks |
| `TickEngine.StepAccounting` | lect07/scheduler.c:191-200 | a tick adds exactly 1 to the tick count and to every active PCB's turnaround time; it adds 1 to waiting time exactly when the PCB was active and READY at the start of the tick; an inactive PCB's counters do not change |
| `TickEngine.TerminatedAbsorbing` | lect07/scheduler.c:193-253 | a TERMINATED, inactive PCB comes out of a tick unchanged: state, counters, burst and quantum |
| `TickEngine.AliveAccounting` | lect07/scheduler.c:236-241 | the alive counter stays the same or drops by exactly one; it drops exactly when some alive PCB became TERMINATED during the tick; no TERMINATED PCB becomes alive again |
| `TickEngine.IoCompletionWakes` | lect07/scheduler.c:202-210 | a BLOCKED PCB's I/O wait drops by one; at zero or below it becomes READY with the configured quantum, otherwise it stays BLOCKED with its quantum untouched; nothing else about it changes; other PCBs are left as bookkeeping made them |
| `TickEngine.QuantumRefillOnlyOnIo` | lect07/scheduler.c:202-252 | after a tick a PCB's remaining quantum is its old value, or the configured value if its I/O wait expired this tick, less one if it executed this tick; dispatch and preemption never refill it |
| `TickEngine.DispatchChoice` | lect07/scheduler.c:212-230 | a running PCB keeps the CPU and nothing is counted; otherwise the scan starts at 0 and picks the lowest-indexed PCB that is READY after I/O completion, and makes it RUNNING; nothing runs exactly when none is READY; switches grow by one exactly when the pick differs from the last dispatched index, which becomes the pick; only the pick's state changes in the table; the tick count and alive count are untouched |
| `TickEngine.ExecutionOutcome` | lect07/scheduler.c:232-253 | the executing PCB loses one tick of quantum; an exhausted burst leads, by the coin, to TERMINATED and inactive with the alive count one lower, or to BLOCKED with the drawn wait and burst; otherwise an exhausted quantum leads to READY, else it keeps running and stays current; every exit from RUNNING clears the current index; when nothing is dispatched the execution pass changes nothing; every other PCB and the tick count, switch count, last index and quantum setting are unchanged |
| `TickEngine.StaleQuantumPreemptsAtOnce` | lect07/scheduler.c:249-252 | a READY PCB with quantum at most 1 and burst at least 2 that is dispatched runs one tick and ends the tick READY again, with its quantum one lower and the current index cleared |
| `TickEngine.InitialQuantumFloor` | lect07/scheduler.c:130-135 | initially every remaining quantum, and every quantum less its burst, is at least the configured quantum less 10 |
| `TickEngine.StepQuantumFloor` | lect07/scheduler.c:202-252 | every tick keeps that floor: no remaining quantum falls more than 10 below the configured quantum, and a READY or RUNNING PCB's quantum less its burst does not either |
| `SharedMemory.SharedData.Tick` | lect07/scheduler.c:188-254 | the in-place tick turns the shared state into the value `Step` gives for the old state and the draw, and keeps the object invariant |
| `SharedMemory.SharedData.Bookkeep` | lect07/scheduler.c:191-200 | the in-place tick-count increment and bookkeeping loop give the `Bookkeeping` pass of the old state |
| `SharedMemory.SharedData.CompleteIoAll` | lect07/scheduler.c:202-210 | the in-place I/O-completion loop gives the `IoCompletion` pass of the old state |
| `SharedMemory.SharedData.DispatchNext` | lect07/scheduler.c:212-230 | the in-place scan loop with its early exit gives the `Dispatch` pass of the old state, and returns the index that executes this tick |
| `SharedMemory.SharedData.ExecuteCurrent` | lect07/scheduler.c:232-253 | the in-place decrements and state changes give the `Execute` pass of the state |
| `SharedMemory.SharedData.Results` | lect07/scheduler.c:160-169 | without changing the state, returns the tick count, the switch count less one (floored at 0), and the sums of turnaround and waiting over the table, so two calls give the same result |
| `Metrics.ResultOf` | lect07/scheduler.c:160-169 | the result carries the tick count and reports one switch fewer than counted, none when none was counted |
| `Metrics.TotalsBounded` | lect07/scheduler.c:165-169 | per-PCB bounds 0 <= waiting <= turnaround <= ticks carry over to the sums: 0 <= total waiting <= total turnaround <= table size * ticks |
| `Metrics.ResultBounds` | lect07/scheduler.c:160-169 | under the invariant the result has total waiting <= total turnaround <= 10 * ticks; at most ticks - 1 switches are reported; none are reported before any tick; the reported count is the raw count less one once a switch happened |
| `Processes.CountAliveZero` | lect07/scheduler.c:151 | the alive count is zero exactly when every PCB is TERMINATED |
| `Processes.CountAliveUpdate` | lect07/scheduler.c:238-240 | replacing one PCB changes the alive count by the change in that PCB's liveness |
| `RunController.FinalState` | lect07/scheduler.c:151-153 | ticking while a process is alive ends, if the draws last, in a state that keeps the invariant and has no process alive |
| `RunController.FinalStateTicks` | lect07/scheduler.c:151-153 | a run that ends took at least as many ticks as there were processes alive at its start, and no more ticks than there were draws |
| `RunController.CompletedRun` | lect07/scheduler.c:151-169 | a completed run ends with every PCB TERMINATED and waiting <= turnaround for each; it took between 10 ticks and the number of draws; its result has waiting total <= turnaround total <= 10 * ticks and fewer reported switches than ticks |
| `RunController.RunSpec` | lect07/scheduler.c:117-175 | a run has a result exactly when it ends within the draws; a result took between 10 ticks and one tick per draw, with total waiting <= total turnaround <= 10 * ticks and fewer reported switches than ticks |
| `RunController.RunSingleSimulation` | lect07/scheduler.c:117-175 | setting up the shared state, ticking while a process is alive and then aggregating gives exactly `RunSpec` of the quantum and the random values, so the same draws always give the same result |

## Left out

- `main` (lect07/scheduler.c:64-114): the sweep over quantum values, the averaging over repeated runs and the CSV output. These are I/O and floating point.
- The two `double` averages (lect07/scheduler.c:170-171): the model stops at the integer totals they divide by 10.
- Shared memory, `fork`, `signal`, `setitimer`, `pause`, `waitpid` and `cleanup` (lect07/scheduler.c:118-121, 137-158, 241, 256-259): these are OS and IPC plumbing. A tick is a plain method call, delivered exactly once and in order. A tick that could arrive after the alive count reaches 0 but before the timer stops is not modelled. The PCB's `pid` field is dropped with them.
- The signal-number test at line 189: the handler is modelled only for the timer signal.
- `child_process_logic` (lect07/scheduler.c:178-186): a child that only polls its own state.
- `rand()`: its results are parameters with the ranges the code gives them.
- 32-bit `int` overflow: counters and quantum are unbounded integers. The quantum stays within 10 of its configured value (`TickEngine.StepQuantumFloor`), so only the tick count and the turnaround and waiting counters grow with the length of a run. In the code they would wrap only after about 2^31 ticks.
- `RunController.RunSingleSimulation`: its input is a finite sequence of draws, so it returns no result when the draws run out before every process has terminated. The code would keep ticking.
- `SharedMemory.SharedData.Tick`: requires the object invariant that the constructor sets up and every tick keeps. The value-level `TickEngine.Step` follows the code on any state whose indices are in range.
- lect07/plot_results.py and lect05/taylor_multiprocess.c are not part of this model. One plots the CSV files; the other is an unrelated fork-and-pipe demo.
