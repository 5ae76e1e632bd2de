/**
 * The process control block (PCB) of the round-robin scheduler simulator
 * and the facts about tables of PCBs that the tick engine relies on.
 */
module Processes {

  /** Size of the PCB table; fixed for the lifetime of a run. */
  const NUM_PROCESSES: int := 10

  /** A CPU burst drawn by the simulator lies in [1, MAX_CPU_BURST]. */
  const MAX_CPU_BURST: int := 10

  /** An I/O wait drawn by the simulator lies in [1, MAX_IO_WAIT]. */
  const MAX_IO_WAIT: int := 5

  /** The four scheduling states of a simulated process. */
  datatype ProcState = Ready | Running | Blocked | Terminated

  /**
   * One PCB record. The operating-system process id is not modelled:
   * it is used only to reap the child process.
   */
  datatype Pcb = Pcb(
    id: int,
    remainingTimeQuantum: int,
    state: ProcState,
    cpuBurst: int,
    ioWaitTime: int,
    waitingTime: int,
    turnaroundTime: int,
    active: bool)

  /** The random values one tick may consume: the terminate-or-block coin, a new I/O wait, a new CPU burst. */
  datatype Draw = Draw(terminate: bool, ioWaitTime: int, cpuBurst: int)

  predicate ValidBurst(b: int) {
    1 <= b <= MAX_CPU_BURST
  }

  predicate ValidDraw(d: Draw) {
    1 <= d.ioWaitTime <= MAX_IO_WAIT && ValidBurst(d.cpuBurst)
  }

  /** A PCB that the dispatcher may pick. */
  predicate Eligible(p: Pcb) {
    p.state == Ready && p.active
  }

  predicate Alive(p: Pcb) {
    p.state != Terminated
  }

  /** Number of PCBs of the table not yet TERMINATED. */
  function CountAlive(s: seq<Pcb>): (n: nat)
    ensures n <= |s|
  {
    if s == [] then 0 else CountAlive(s[..|s| - 1]) + (if Alive(s[|s| - 1]) then 1 else 0)
  }

  /** A table in which every PCB is alive has |s| alive PCBs. */
  lemma {:induction false} CountAliveAll(s: seq<Pcb>)
    requires forall i :: 0 <= i < |s| ==> Alive(s[i])
    ensures CountAlive(s) == |s|
  {
    if s != [] {
      CountAliveAll(s[..|s| - 1]);
    }
  }

  /** No alive PCB is left exactly when the count is zero. */
  lemma {:induction false} CountAliveZero(s: seq<Pcb>)
    ensures CountAlive(s) == 0 <==> forall i :: 0 <= i < |s| ==> !Alive(s[i])
  {
    if s != [] {
      var t := s[..|s| - 1];
      CountAliveZero(t);
      assert forall i :: 0 <= i < |t| ==> t[i] == s[i];
    }
  }

  /** Two tables that agree on which PCBs are alive have the same count. */
  lemma {:induction false} CountAliveSame(s: seq<Pcb>, t: seq<Pcb>)
    requires |s| == |t|
    requires forall i :: 0 <= i < |s| ==> (Alive(s[i]) <==> Alive(t[i]))
    ensures CountAlive(s) == CountAlive(t)
  {
    if s != [] {
      CountAliveSame(s[..|s| - 1], t[..|t| - 1]);
    }
  }

  /** Replacing one PCB changes the count by the change in that PCB's liveness. */
  lemma {:induction false} CountAliveUpdate(s: seq<Pcb>, i: int, p: Pcb)
    requires 0 <= i < |s|
    ensures CountAlive(s[i := p]) ==
            CountAlive(s) - (if Alive(s[i]) then 1 else 0) + (if Alive(p) then 1 else 0)
  {
    var n := |s| - 1;
    if i == n {
      assert s[i := p][..n] == s[..n];
    } else {
      CountAliveUpdate(s[..n], i, p);
      assert s[i := p][..n] == s[..n][i := p];
    }
  }
}
