/** Every step of every CPU keeps the invariant. */
module KernelSafety {
  import opened KernelState
  import opened KernelInvariant
  import opened KernelStacks
  import opened KernelTickets
  import opened KernelGates
  import opened KernelPlacement

  // ---------- what a move does to each projection ----------

  function Landed(k: Stack, m: Move): Stack
    requires k.Push?
  {
    Push(Frame(k.top.kind, m.pc), k.rest)
  }

  /** The jobs, threads, life pointers and interrupts belong to scheduler steps. */
  ghost predicate SameThreads(sh: Shared, sh': Shared) {
    sh'.jobs == sh.jobs && sh'.life == sh.life && sh'.thr == sh.thr && sh'.ipi == sh.ipi
  }

  ghost predicate SameLock(sh: Shared, sh': Shared) {
    sh'.ticket == sh.ticket && sh'.turn == sh.turn && sh'.waiting == sh.waiting
  }

  /** A scheduler step: it keeps the lock and the gates, and writes only its own life pointer. */
  ghost predicate Effect(c: nat, cp: Cpu, sh: Shared, pc: PC, m: Move)
    requires c < |sh.life|
  {
    && SameLock(sh, m.sh) && m.sh.gate == sh.gate && |m.sh.thr| == |sh.thr|
    && |m.sh.life| == |sh.life| && m.sh.life == sh.life[c := m.sh.life[c]]
    && Holding(pc) && Holding(m.pc) && m.cpu.queue == cp.queue
  }

  predicate Holding(pc: PC) {
    InSection(pc) && ClaimOf(pc) == Owns && GripOf(pc) == FREE
    && !pc.LeaveRead? && !pc.LeaveDequeue? && !EnqueuePath(pc) && !pc.DLock? && !pc.DClear? && !pc.DUnlock?
  }

  lemma DispatchEffect(c: nat, cp: Cpu, pc: PC, sh: Shared, k: Stack)
    requires Possible(c, cp, pc, sh) && Dispatching(pc)
    ensures Effect(c, cp, sh, pc, DispatchMove(c, cp, pc, sh, k))
  {
  }

  lemma DoEffect(c: nat, cp: Cpu, b: Body, sh: Shared)
    requires Possible(c, cp, Do(b), sh)
    ensures Effect(c, cp, sh, Do(b), DoMove(c, cp, b, sh))
  {
  }

  lemma KillEffect(c: nat, cp: Cpu, pc: PC, sh: Shared)
    requires Possible(c, cp, pc, sh) && Killing(pc)
    ensures Effect(c, cp, sh, pc, KillMove(c, cp, pc, sh))
  {
  }

  lemma ResumeEffect(c: nat, cp: Cpu, pc: PC, sh: Shared)
    requires Possible(c, cp, pc, sh) && Resuming(pc)
    ensures Effect(c, cp, sh, pc, ResumeMove(c, cp, pc, sh))
  {
  }

  lemma ScheduleEffect(c: nat, cp: Cpu, pc: PC, sh: Shared)
    requires Possible(c, cp, pc, sh) && Scheduling(pc)
    ensures Effect(c, cp, sh, pc, ScheduleMove(c, cp, pc, sh))
  {
  }

  predicate InScheduler(pc: PC) { Dispatching(pc) || pc.Do? || Killing(pc) || Resuming(pc) || Scheduling(pc) }

  lemma SchedulerEffect(c: nat, cp: Cpu, k: Stack, sh: Shared)
    requires k.Push? && Possible(c, cp, k.top.pc, sh) && InScheduler(k.top.pc)
    ensures Effect(c, cp, sh, k.top.pc, MoveOf(c, cp, k, sh))
  {
    var pc := k.top.pc;
    if Dispatching(pc) { DispatchEffect(c, cp, pc, sh, k); }
    else if pc.Do? { DoEffect(c, cp, pc.b, sh); }
    else if Killing(pc) { KillEffect(c, cp, pc, sh); }
    else if Resuming(pc) { ResumeEffect(c, cp, pc, sh); }
    else { ScheduleEffect(c, cp, pc, sh); }
  }

  /** The guard's own steps leave the threads alone. */
  lemma GuardEffect(c: nat, cp: Cpu, k: Stack, sh: Shared)
    requires k.Push? && Possible(c, cp, k.top.pc, sh) && Moves(k.top.pc) && !InScheduler(k.top.pc)
    ensures SameThreads(sh, MoveOf(c, cp, k, sh).sh)
  {
  }

  // ---------- the lock ----------

  lemma GateLock(c: nat, cp: Cpu, k: Stack, sh: Shared)
    requires k.Push? && Possible(c, cp, k.top.pc, sh) && Shape(k)
    requires Queueing(k.top.pc) || Relaying(k.top.pc) || Dequeueing(k.top.pc)
    ensures var m := MoveOf(c, cp, k, sh); LockStep(c, SecPc(k), SecPc(Landed(k, m)), sh, m.sh)
  {
  }

  lemma EnterLock(c: nat, cp: Cpu, k: Stack, sh: Shared)
    requires k.Push? && Shape(k) && Entering(k.top.pc)
    requires k.top.pc.Spin? ==> sh.turn == k.top.pc.ticket
    ensures var m := EnterMove(c, cp, k.top.pc, sh); LockStep(c, SecPc(k), SecPc(Landed(k, m)), sh, m.sh)
  {
  }

  lemma LeaveLock(c: nat, cp: Cpu, k: Stack, sh: Shared)
    requires k.Push? && Shape(k) && Leaving(k.top.pc)
    ensures var m := LeaveMove(cp, k.top.pc, sh, k.top.kind); LockStep(c, SecPc(k), SecPc(Landed(k, m)), sh, m.sh)
  {
  }

  lemma MoveLock(c: nat, cp: Cpu, k: Stack, sh: Shared)
    requires k.Push? && Possible(c, cp, k.top.pc, sh) && Shape(k) && Moves(k.top.pc)
    requires k.top.pc.Spin? ==> sh.turn == k.top.pc.ticket
    ensures var m := MoveOf(c, cp, k, sh); LockStep(c, SecPc(k), SecPc(Landed(k, m)), sh, m.sh)
  {
    var pc := k.top.pc;
    if Entering(pc) { EnterLock(c, cp, k, sh); }
    else if Leaving(pc) { LeaveLock(c, cp, k, sh); }
    else if InScheduler(pc) { SchedulerEffect(c, cp, k, sh); }
    else { GateLock(c, cp, k, sh); }
  }

  // ---------- the gates ----------

  lemma QueuedGate(c: nat, cp: Cpu, pc: PC, sh: Shared)
    requires Possible(c, cp, pc, sh) && Queueing(pc) && (pc.QLock? ==> sh.gate[pc.g].lock.None?)
    ensures var m := QueuedMove(c, cp, pc, sh); GateStep(c, pc, m.pc, sh.gate, m.sh.gate, cp.queue, m.cpu.queue)
  {
  }

  lemma RelayGate(c: nat, cp: Cpu, pc: PC, sh: Shared)
    requires Relaying(pc) && (GripOf(pc).gate.Some? ==> GripOf(pc).gate.value < |sh.gate|)
    ensures var m := RelayMove(c, cp, pc, sh); GateStep(c, pc, m.pc, sh.gate, m.sh.gate, cp.queue, m.cpu.queue)
  {
  }

  lemma EnterGate(c: nat, cp: Cpu, pc: PC, sh: Shared)
    requires Entering(pc)
    ensures var m := EnterMove(c, cp, pc, sh); GateStep(c, pc, m.pc, sh.gate, m.sh.gate, cp.queue, m.cpu.queue)
  {
  }

  lemma DequeuedGate(c: nat, cp: Cpu, pc: PC, sh: Shared)
    requires Possible(c, cp, pc, sh) && Dequeueing(pc) && (pc.DLock? ==> sh.gate[pc.g].lock.None?)
    ensures var m := DequeuedMove(c, cp, pc, sh); GateStep(c, pc, m.pc, sh.gate, m.sh.gate, cp.queue, m.cpu.queue)
  {
  }

  lemma LeaveGate(c: nat, cp: Cpu, pc: PC, sh: Shared, kind: Kind)
    requires Leaving(pc)
    ensures var m := LeaveMove(cp, pc, sh, kind); GateStep(c, pc, m.pc, sh.gate, m.sh.gate, cp.queue, m.cpu.queue)
  {
  }

  lemma MoveGate(c: nat, cp: Cpu, k: Stack, sh: Shared)
    requires k.Push? && Possible(c, cp, k.top.pc, sh) && Moves(k.top.pc)
    requires k.top.pc.QLock? || k.top.pc.DLock? ==> sh.gate[k.top.pc.g].lock.None?
    requires GripOf(k.top.pc).gate.Some? ==> GripOf(k.top.pc).gate.value < |sh.gate|
    ensures var m := MoveOf(c, cp, k, sh); GateStep(c, k.top.pc, m.pc, sh.gate, m.sh.gate, cp.queue, m.cpu.queue)
  {
    var pc := k.top.pc;
    if Queueing(pc) { QueuedGate(c, cp, pc, sh); }
    else if Relaying(pc) { RelayGate(c, cp, pc, sh); }
    else if Entering(pc) { EnterGate(c, cp, pc, sh); }
    else if Dequeueing(pc) { DequeuedGate(c, cp, pc, sh); }
    else if Leaving(pc) { LeaveGate(c, cp, pc, sh, k.top.kind); }
    else { SchedulerEffect(c, cp, k, sh); }
  }

  // ---------- saved contexts ----------

  /** Every thread but the one the CPU runs on keeps what toc_switch left in it. */
  ghost predicate OnlyOwn(thr: seq<Thread>, thr': seq<Thread>, x: Ctx) {
    |thr'| == |thr| && forall t: nat :: t < |thr| && x != Thr(t) ==> ThreadKept(thr[t], thr'[t])
  }

  ghost predicate ThreadKept(a: Thread, b: Thread) {
    b.toc == a.toc && b.callRegs == a.callRegs && b.callStack == a.callStack
  }

  ghost predicate ContextMoved(cp: Cpu, k: Stack, sh: Shared, m: Move)
    requires k.Push?
  {
    SwitchOk(m.sh.thr, m.cpu.regs, Landed(k, m)) && OnlyOwn(sh.thr, m.sh.thr, cp.esp)
  }

  lemma DispatchContext(c: nat, cp: Cpu, k: Stack, sh: Shared)
    requires k.Push? && Possible(c, cp, k.top.pc, sh) && Shape(k) && Dispatching(k.top.pc)
    requires SwitchOk(sh.thr, cp.regs, k)
    requires k.top.pc.SetOn? ==> Owner(cp.esp) == k.top.pc.prev
    requires k.top.pc.Save? ==> cp.esp == Thr(k.top.pc.from)
    ensures ContextMoved(cp, k, sh, DispatchMove(c, cp, k.top.pc, sh, k))
  {
  }

  /** Other steps of a section never land inside toc_switch with a thread to save. */
  lemma NoLeaver(c: nat, cp: Cpu, k: Stack, sh: Shared)
    requires k.Push? && Possible(c, cp, k.top.pc, sh) && Shape(k) && Moves(k.top.pc) && !Dispatching(k.top.pc)
    requires !Queueing(k.top.pc) && !Relaying(k.top.pc)
    ensures var m := MoveOf(c, cp, k, sh); Leaver(SecPc(Landed(k, m))).None? && OnlyOwn(sh.thr, m.sh.thr, Boot(c))
  {
  }

  lemma RelayContext(c: nat, cp: Cpu, k: Stack, sh: Shared)
    requires k.Push? && Possible(c, cp, k.top.pc, sh) && (Queueing(k.top.pc) || Relaying(k.top.pc)) && Shape(k)
    requires SwitchOk(sh.thr, cp.regs, k)
    ensures ContextMoved(cp, k, sh, MoveOf(c, cp, k, sh))
  {
  }

  lemma MoveContext(c: nat, cp: Cpu, k: Stack, sh: Shared)
    requires k.Push? && Possible(c, cp, k.top.pc, sh) && Shape(k) && Moves(k.top.pc)
    requires SwitchOk(sh.thr, cp.regs, k)
    requires k.top.pc.SetOn? ==> Owner(cp.esp) == k.top.pc.prev
    requires k.top.pc.Save? ==> cp.esp == Thr(k.top.pc.from)
    ensures ContextMoved(cp, k, sh, MoveOf(c, cp, k, sh))
  {
    var pc := k.top.pc;
    if Queueing(pc) || Relaying(pc) { RelayContext(c, cp, k, sh); }
    else if Dispatching(pc) { DispatchContext(c, cp, k, sh); }
    else { NoLeaver(c, cp, k, sh); }
  }
}
