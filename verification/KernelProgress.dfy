/** Nothing in the kernel waits for itself: a CPU that waits for the lock or for a gate waits for
    another CPU that can go on, unless that one has stopped for good. */
module KernelProgress {
  import opened KernelState
  import opened KernelInvariant
  import opened KernelStacks
  import opened KernelTickets
  import opened KernelGates
  import opened KernelPlacement
  import opened KernelSafety
  import opened KernelInduction
  import opened KernelTheorems
  import opened KernelAtomic
  import opened Scheduler

  /** CPU c can take a transition of its own, not counting interrupts. */
  ghost predicate CanMove(s: State, c: nat) {
    exists a :: Enabled(s, c, a) && !a.Interrupt? && !a.Compute?
  }

  /** CPU c spins, for its turn or for a gate_lock. */
  ghost predicate Waits(s: State, c: nat)
    requires c < |s.cpu|
  {
    var pc := TopPc(Stk(s, c));
    || (pc.Spin? && s.sh.turn != pc.ticket)
    || ((pc.QLock? || pc.DLock?) && pc.g < |s.sh.gate| && s.sh.gate[pc.g].lock.Some?)
  }

  /** CPU c has died or reached undefined behaviour, or it was called against the rules: to ready a
      thread that is not new, to kill one that does not exist, to schedule from a thread. */
  ghost predicate Stopped(s: State, c: nat)
    requires c < |s.cpu|
  {
    var pc := TopPc(Stk(s, c));
    || pc.Dead? || pc.Fault?
    || (pc.Do? && pc.b.Call? && pc.b.op.Ready? && !MayReady(s, pc.b.op.t))
    || (pc.Do? && pc.b.Call? && pc.b.op.Kill? && pc.b.op.t >= |s.sh.thr|)
    || (pc.Do? && pc.b == Call(Schedule) && !s.cpu[c].esp.Boot?)
  }

  // ---------- no CPU runs on a stack that was never started ----------

  lemma MoveNotFresh(c: nat, cp: Cpu, k: Stack, sh: Shared)
    requires k.Push? && Possible(c, cp, k.top.pc, sh) && Moves(k.top.pc)
    ensures !MoveOf(c, cp, k, sh).pc.Fresh?
  {
    if InScheduler(k.top.pc) { SchedulerEffect(c, cp, k, sh); SchedulerFresh(c, cp, k, sh); }
  }

  lemma SchedulerFresh(c: nat, cp: Cpu, k: Stack, sh: Shared)
    requires k.Push? && Possible(c, cp, k.top.pc, sh) && InScheduler(k.top.pc)
    ensures !MoveOf(c, cp, k, sh).pc.Fresh?
  {
  }

  lemma NotFreshStep(s: State, c: nat, d: nat, a: Act)
    requires Inv(s) && Enabled(s, d, a) && c < |s.cpu| && !Sec(s, c).Fresh?
    ensures !Sec(Next(s, d, a), c).Fresh?
  {
    if a.Step? {
      var k := Stk(s, d);
      StepProjections(s, d);
      assert CpuOk(s.cpu[d], k);
      MoveNotFresh(d, s.cpu[d], k, s.sh);
      assert Secs(Next(s, d, a))[c] == if c == d then SecPc(Landed(k, StepMove(s, d))) else Secs(s)[c];
      if c == d { LandsNotFresh(k, StepMove(s, d)); }
    } else if a.Switch? {
      SwitchStacks(s, d);
      assert Secs(Next(s, d, a))[c] == if c == d then LeaveOff else Secs(s)[c];
    } else {
      OutsideProjections(s, d, a);
      assert Secs(Next(s, d, a))[c] == Secs(s)[c];
    }
  }

  lemma LandsNotFresh(k: Stack, m: Move)
    requires k.Push? && Shape(k) && !SecPc(k).Fresh? && !m.pc.Fresh?
    ensures !SecPc(Landed(k, m)).Fresh?
  {
    if InSection(k.top.pc) { assert FrameOk(k.top, k.rest); SectionLoud(k.top.pc); }
  }

  lemma SectionLoud(pc: PC)
    requires InSection(pc)
    ensures !Quiet(pc)
  {
  }

  lemma {:induction false} NeverFresh(r: Run, i: nat, c: nat)
    requires FromBoot(r) && i < |r.states| && c < |r.states[i].cpu|
    ensures !Sec(r.states[i], c).Fresh?
  {
    if i == 0 {
      InitNotFresh(r.states[0], c);
    } else {
      NotFreshNext(r, i - 1, c);
      NeverFresh(r, i - 1, c);
    }
  }

  lemma NotFreshNext(r: Run, i: nat, c: nat)
    requires FromBoot(r) && i < |r.who| && c < |r.states[i + 1].cpu|
    ensures c < |r.states[i].cpu| && (!Sec(r.states[i], c).Fresh? ==> !Sec(r.states[i + 1], c).Fresh?)
  {
    Transition(r, i);
    SameCpus(r.states[i], r.who[i], r.acts[i]);
    if !Sec(r.states[i], c).Fresh? { NotFreshStep(r.states[i], c, r.who[i], r.acts[i]); }
  }

  lemma InitNotFresh(s: State, c: nat)
    requires Init(s) && c < |s.cpu|
    ensures !Sec(s, c).Fresh?
  {
    assert InitCpu(s, c);
  }

  lemma SameCpus(s: State, d: nat, a: Act)
    requires Enabled(s, d, a)
    ensures |Next(s, d, a).cpu| == |s.cpu|
  {
  }

  // ---------- one CPU ----------

  /** The objects that a step works on exist. */
  lemma StepPossible(s: State, c: nat)
    requires Inv(s) && c < |s.cpu| && Moves(TopPc(Stk(s, c))) && !Stopped(s, c)
    ensures Possible(c, s.cpu[c], TopPc(Stk(s, c)), s.sh)
  {
    var k := Stk(s, c);
    assert CpuOk(s.cpu[c], k);
    assert GripOk(s.sh.gate, c, Grips(Tops(s))[c], Queues(s)[c]);
    if InScheduler(k.top.pc) {
      InsideHolds(k);
      assert PlaceOk(s.sh, c, Spots(Secs(s))[c], Esps(s)[c]);
      SchedulerPossible(c, s.cpu[c], k.top.pc, s.sh, Esps(s)[c]);
    } else {
      GuardPossible(c, s.cpu[c], k.top.pc, s.sh);
    }
  }

  lemma GuardPossible(c: nat, cp: Cpu, pc: PC, sh: Shared)
    requires c < |sh.life| && Moves(pc) && !InScheduler(pc)
    requires GripOf(pc).gate.Some? ==> GripOf(pc).gate.value < |sh.gate|
    ensures Possible(c, cp, pc, sh)
  {
  }

  lemma SchedulerPossible(c: nat, cp: Cpu, pc: PC, sh: Shared, x: Ctx)
    requires c < |sh.life| && InScheduler(pc) && PlaceOk(sh, c, SpotOf(pc), x) && (x.Thr? ==> x.t < |sh.thr|)
    requires pc.Do? && pc.b.Call? && pc.b.op.Kill? ==> pc.b.op.t < |sh.thr|
    ensures Possible(c, cp, pc, sh)
  {
    if pc.Do? || Killing(pc) { CallPossible(c, cp, pc, sh, x); }
    else if Resuming(pc) || Scheduling(pc) { ResumePossible(c, cp, pc, sh, x); }
    else { DispatchPossible(c, cp, pc, sh, x); }
  }

  lemma CallPossible(c: nat, cp: Cpu, pc: PC, sh: Shared, x: Ctx)
    requires c < |sh.life| && (pc.Do? || Killing(pc)) && PlaceOk(sh, c, SpotOf(pc), x)
    requires pc.Do? && pc.b.Call? && pc.b.op.Kill? ==> pc.b.op.t < |sh.thr|
    ensures Possible(c, cp, pc, sh)
  {
  }

  lemma ResumePossible(c: nat, cp: Cpu, pc: PC, sh: Shared, x: Ctx)
    requires c < |sh.life| && (Resuming(pc) || Scheduling(pc)) && PlaceOk(sh, c, SpotOf(pc), x)
    ensures Possible(c, cp, pc, sh)
  {
  }

  lemma DispatchPossible(c: nat, cp: Cpu, pc: PC, sh: Shared, x: Ctx)
    requires c < |sh.life| && Dispatching(pc) && PlaceOk(sh, c, SpotOf(pc), x) && (x.Thr? ==> x.t < |sh.thr|)
    ensures Possible(c, cp, pc, sh)
  {
  }

  lemma LoadPossible(s: State, c: nat)
    requires Inv(s) && c < |s.cpu| && TopPc(Stk(s, c)).Load?
    ensures Enabled(s, c, Switch)
  {
    var k, next := Stk(s, c), TopPc(Stk(s, c)).next;
    assert CpuOk(s.cpu[c], k) && SwitchOk(s.sh.thr, s.cpu[c].regs, k);
    LoadIsTop(k);
    LeaverOwns(s, c);
    NextFree(s, c);
    if Thr(next) in Esps(s) { assert s.cpu[c].esp == Thr(next); }
  }

  /** Every CPU can go on, waits in one of the two waiting loops, or has stopped. */
  lemma OneCpu(s: State, c: nat)
    requires Inv(s) && c < |s.cpu| && !Sec(s, c).Fresh?
    ensures CanMove(s, c) || Waits(s, c) || Stopped(s, c)
  {
    var k, pc := Stk(s, c), TopPc(Stk(s, c));
    assert CpuOk(s.cpu[c], k);
    Classified(k);
    if pc.Run? { assert Enabled(s, c, Syscall(Section)); }
    else if pc.Prologue? { assert Enabled(s, c, Outcome(true)); }
    else if pc.Iret? { assert Enabled(s, c, Return); }
    else if pc.Load? { LoadPossible(s, c); }
    else if !Stopped(s, c) && !Waits(s, c) {
      StepPossible(s, c);
      AllowedStep(s, c);
    }
  }

  lemma Classified(k: Stack)
    requires k.Push? && Shape(k) && !SecPc(k).Fresh?
    ensures var pc := k.top.pc;
      pc.Run? || pc.Prologue? || pc.Iret? || pc.Load? || Moves(pc) || pc.Dead? || pc.Fault?
    ensures k.top.pc.Iret? ==> k.top.kind.Isr?
  {
  }

  lemma AllowedStep(s: State, c: nat)
    requires c < |s.cpu| && Stk(s, c).Push? && Moves(TopPc(Stk(s, c))) && Possible(c, s.cpu[c], TopPc(Stk(s, c)), s.sh)
    requires !Stopped(s, c) && !Waits(s, c)
    ensures Enabled(s, c, Step)
  {
    AllowedPc(s, c, TopPc(Stk(s, c)));
  }

  lemma AllowedPc(s: State, c: nat, pc: PC)
    requires c < |s.cpu| && TopPc(Stk(s, c)) == pc && Possible(c, s.cpu[c], pc, s.sh) && !Stopped(s, c) && !Waits(s, c)
    ensures Allowed(s, c, pc)
  {
  }

  // ---------- whom a waiting CPU waits for ----------

  /** The holder of a gate_lock is another CPU, and always able to go on. */
  lemma GateHolder(s: State, c: nat)
    requires Inv(s) && c < |s.cpu| && (TopPc(Stk(s, c)).QLock? || TopPc(Stk(s, c)).DLock?) && Waits(s, c)
    ensures exists d: nat :: d < |s.cpu| && d != c && GateHelps(s, d)
  {
    var g := TopPc(Stk(s, c)).g;
    var grips := Grips(Tops(s));
    assert GateOk(s.sh.gate[g], g, grips, Queues(s));
    var d := s.sh.gate[g].lock.value;
    assert grips[d] == GripOf(TopPc(Stk(s, d))) && grips[c] == GripOf(TopPc(Stk(s, c)));
    assert CpuOk(s.cpu[d], Stk(s, d));
    HolderFree(TopPc(Stk(s, d)));
    StepPossible(s, d);
    AllowedStep(s, d);
    assert GateHelps(s, d);
  }

  /** A gate_lock is never waited for by its own holder, and the holder is always able to go on. */
  lemma GateLockMoves(r: Run, i: nat, c: nat)
    requires FromBoot(r) && i < |r.states| && c < |r.states[i].cpu| && Waits(r.states[i], c)
    requires !TopPc(Stk(r.states[i], c)).Spin?
    ensures var s := r.states[i]; exists d: nat :: d < |s.cpu| && d != c && GateHelps(s, d)
  {
    Always(r, i);
    GateHolder(r.states[i], c);
  }

  ghost predicate GateHelps(s: State, d: nat)
    requires d < |s.cpu|
  {
    Helps(s, d) && !TopPc(Stk(s, d)).Spin?
  }

  lemma HolderFree(pc: PC)
    requires GripOf(pc).lock.Some?
    ensures Moves(pc) && !pc.QLock? && !pc.DLock? && !pc.Spin? && !pc.Do? && !pc.Dead? && !pc.Fault? && !pc.Run?
  {
  }

  /** CPU d is inside the kernel, and goes on or has stopped there. */
  ghost predicate Helps(s: State, d: nat)
    requires d < |s.cpu|
  {
    !TopPc(Stk(s, d)).Run? && (CanMove(s, d) || Stopped(s, d))
  }

  lemma InKernel(k: Stack)
    requires k.Push? && Shape(k) && Ticketed(SecPc(k))
    ensures !k.top.pc.Run? && (k.top.pc.Spin? ==> SecPc(k) == k.top.pc)
  {
  }

  /** Whenever a CPU waits, another one that is inside the kernel can go on, or has stopped there:
      the locks never deadlock. */
  lemma NoDeadlock(r: Run, i: nat, c: nat)
    requires FromBoot(r) && i < |r.states| && c < |r.states[i].cpu| && Waits(r.states[i], c)
    ensures var s := r.states[i]; exists d: nat :: d < |s.cpu| && d != c && Helps(s, d)
  {
    var s := r.states[i];
    Always(r, i);
    if TopPc(Stk(s, c)).Spin? {
      assert CpuOk(s.cpu[c], Stk(s, c));
      SpinTop(s, c);
      HeadAlive(s);
      var d: nat :| d < |s.cpu| && HasTurn(s, d);
      NeverFresh(r, i, d);
      TurnHelps(s, c, d);
    } else {
      GateHolder(s, c);
      var d: nat :| d < |s.cpu| && d != c && GateHelps(s, d);
      assert Helps(s, d);
    }
  }

  lemma TurnHelps(s: State, c: nat, d: nat)
    requires Inv(s) && c < |s.cpu| && d < |s.cpu| && c != d && TopPc(Stk(s, c)).Spin?
    requires HasTurn(s, d) && !Sec(s, d).Fresh?
    ensures exists e: nat :: e < |s.cpu| && e != c && Helps(s, e)
  {
    assert CpuOk(s.cpu[d], Stk(s, d));
    InKernel(Stk(s, d));
    OneCpu(s, d);
    if Waits(s, d) {
      GateHolder(s, d);
      var e: nat :| e < |s.cpu| && e != d && GateHelps(s, e);
      assert e != c && Helps(s, e);
    } else {
      assert Helps(s, d);
    }
  }

  lemma SpinTop(s: State, c: nat)
    requires c < |s.cpu| && Stk(s, c).Push? && TopPc(Stk(s, c)).Spin? && Waits(s, c)
    ensures Sec(s, c) == TopPc(Stk(s, c)) && !HasTurn(s, c) && Ticketed(Sec(s, c))
  {
  }

  // ---------- how a CPU stops ----------

  /** A null thread is used: by an exit with nothing ready or from boot code, and by the assassin's
      epilogue on boot code. The CPU runs on the stack x. */
  predicate CrashCause(b: Body, sh: Shared, x: Ctx) {
    (b == Call(Exit) && (sh.jobs == [] || x.Boot?)) || (b == Epilogue(ASSASSIN) && x.Boot?)
  }

  /** CPU::die: a resume from boot code, or away from a dying thread with nothing ready; a schedule
      with nothing ready. */
  predicate DeathCause(b: Body, sh: Shared, x: Ctx) {
    || ((b == Call(Resume) || b == Epilogue(WATCH)) && (x.Boot? || (Doomed(sh, x) && sh.jobs == [])))
    || (b == Epilogue(ASSASSIN) && Doomed(sh, x) && sh.jobs == [])
    || (b == Call(Schedule) && sh.jobs == [])
  }

  /** The stack of a killed thread. */
  predicate Doomed(sh: Shared, x: Ctx) {
    x.Thr? && Killed(sh, x.t)
  }

  /** Outside the switch window: the life pointer is not set for another stack than the CPU is on. */
  predicate Settled(pc: PC) { !pc.SetOn? && !pc.Save? && !pc.Load? && !pc.ScheduleOn? && !pc.Fault? }

  /** A CPU has no thread exactly while it runs on its boot stack; otherwise it runs on the stack of
      the thread it names. */
  lemma NoThreadOnBoot(r: Run, i: nat, c: nat)
    requires FromBoot(r) && i < |r.states| && c < |r.states[i].cpu| && Settled(Sec(r.states[i], c))
    ensures var s := r.states[i];
      c < |s.sh.life| && s.sh.life[c] == Owner(s.cpu[c].esp) && (s.sh.life[c].None? <==> s.cpu[c].esp == Boot(c))
  {
    Always(r, i);
    OwnLife(r.states[i], c);
  }

  lemma OwnLife(s: State, c: nat)
    requires Inv(s) && c < |s.cpu| && Settled(Sec(s, c))
    ensures c < |s.sh.life| && s.sh.life[c] == Owner(s.cpu[c].esp)
    ensures s.cpu[c].esp.Boot? ==> s.cpu[c].esp.cpu == c
  {
    assert PlaceOk(s.sh, c, Spots(Secs(s))[c], Esps(s)[c]);
    assert Esps(s)[c] == s.cpu[c].esp;
    SettledRule(s.sh.life[c], s.cpu[c].esp, Sec(s, c));
  }

  lemma SettledRule(life: Option<nat>, x: Ctx, pc: PC)
    requires Settled(pc) && LifeOk(life, x, SpotOf(pc).rule)
    ensures life == Owner(x)
  {
  }

  /** No thread in the ready list is dying when an operation starts: only a kill leaves one there,
      between its two steps. */
  lemma ReadyAlive(s: State, c: nat, b: Body)
    requires Inv(s) && c < |s.cpu| && Sec(s, c) == Do(b)
    ensures AllAlive(s.sh)
  {
    var spots := Spots(Secs(s));
    JobsSane(s.sh, spots, Esps(s));
    HolderAlone(s.sh, Secs(s), c);
    assert spots[c] == SpotOf(Do(b));
    forall t | t in s.sh.jobs ensures !Killed(s.sh, t) {
      var j: nat :| j < |s.sh.jobs| && s.sh.jobs[j] == t;
      assert JobOk(s.sh, spots, s.sh.jobs[j]);
    }
  }

  ghost predicate AllAlive(sh: Shared) {
    Below(sh.jobs, |sh.thr|) && forall t :: t in sh.jobs ==> !Killed(sh, t)
  }

  lemma ResumeStops(c: nat, sh: Shared, x: Ctx)
    requires Sane(c, ResumeActive, sh) && sh.life[c] == Owner(x) && AllAlive(sh)
    ensures var o := ResumeResult(sh.jobs, sh.life, Flags(sh.thr), c).0;
      !o.Crash? && (o.Died? <==> x.Boot? || (Doomed(sh, x) && sh.jobs == []))
  {
    if x.Thr? {
      ResumeOutcome(sh.jobs, sh.life, Flags(sh.thr), c);
      forall t | t in sh.jobs ensures t < |sh.thr| && !Flags(sh.thr)[t] { assert !Killed(sh, t); }
      if sh.jobs != [] { assert sh.jobs[0] in sh.jobs; }
    }
  }

  /** The ends at which a CPU stops, read off the sequential operation. */
  lemma AloneStops(b: Body, c: nat, sh: Shared, x: Ctx)
    requires Sane(c, ResumeActive, sh) && sh.life[c] == Owner(x) && AllAlive(sh)
    ensures Alone(b, c, sh).o.Crash? <==> CrashCause(b, sh, x)
    ensures Alone(b, c, sh).o.Died? <==> DeathCause(b, sh, x)
  {
    ResumeStops(c, sh, x);
  }

  lemma StopAt(pc: PC)
    requires Over(pc)
    ensures (pc.Fault? <==> OutcomeAt(pc).Crash?) && (pc.Dead? <==> OutcomeAt(pc).Died?)
  {
  }

  /** From the state in which an operation is entered one can tell whether its CPU will stop. */
  lemma StopsExactly(r: Run, i: nat, j: nat, c: nat, b: Body)
    requires FromBoot(r) && i < j < |r.states| && c < |r.states[i].cpu| && c < |r.states[j].cpu|
    requires Sec(r.states[i], c) == Do(b) && Operating(r, i, j, c) && !InScheduler(Sec(r.states[j], c))
    ensures Sec(r.states[j], c).Fault? <==> CrashCause(b, r.states[i].sh, r.states[i].cpu[c].esp)
    ensures Sec(r.states[j], c).Dead? <==> DeathCause(b, r.states[i].sh, r.states[i].cpu[c].esp)
  {
    OperationIsAtomic(r, i, j, c, b);
    StopAt(Sec(r.states[j], c));
    Entry(r, i, c, b);
    AloneStops(b, c, r.states[i].sh, r.states[i].cpu[c].esp);
  }

  lemma Entry(r: Run, i: nat, c: nat, b: Body)
    requires FromBoot(r) && i < |r.states| && c < |r.states[i].cpu| && Sec(r.states[i], c) == Do(b)
    ensures var s := r.states[i]; Sane(c, ResumeActive, s.sh) && s.sh.life[c] == Owner(s.cpu[c].esp) && AllAlive(s.sh)
  {
    Always(r, i);
    SanePlace(r.states[i], c);
    OwnLife(r.states[i], c);
    ReadyAlive(r.states[i], c, b);
  }

  // ---------- every stopped CPU was in such an operation ----------

  predicate Halts(pc: PC) { pc.Dead? || pc.Fault? }

  /** Into an operation behind its first step, or to a stop, there is only the way through it. */
  lemma OwnBack(s: State, c: nat, a: Act)
    requires Inv(s) && Enabled(s, c, a) && !a.Step?
    ensures var s' := Next(s, c, a);
      c < |s'.cpu| && (Sec(s', c) == Sec(s, c) || !(InScheduler(Sec(s', c)) || Halts(Sec(s', c))))
  {
    if a.Switch? {
      SwitchStacks(s, c);
      assert Secs(Next(s, c, a))[c] == LeaveOff;
    } else {
      OutsideProjections(s, c, a);
      assert Secs(Next(s, c, a))[c] == Secs(s)[c];
    }
  }

  lemma StepBack(s: State, c: nat, d: nat, a: Act)
    requires Inv(s) && Enabled(s, d, a) && c < |s.cpu|
    ensures var s' := Next(s, d, a);
      && c < |s'.cpu|
      && ((InScheduler(Sec(s', c)) && !Sec(s', c).Do?) || Halts(Sec(s', c)) ==>
            InScheduler(Sec(s, c)) || Sec(s, c) == Sec(s', c))
  {
    if c == d {
      if a.Step? { StepBackOwn(s, c); } else { OwnBack(s, c, a); }
    } else { SecKept(s, c, d, a); }
  }

  lemma StepBackOwn(s: State, c: nat)
    requires Stacks(s) && Enabled(s, c, Step)
    ensures var pc' := Sec(Next(s, c, Step), c);
      (InScheduler(pc') && !pc'.Do?) || Halts(pc') ==> InScheduler(Sec(s, c)) || Sec(s, c) == pc'
  {
    StepProjections(s, c);
    assert CpuOk(s.cpu[c], Stk(s, c));
    MoveBack(c, s.cpu[c], Stk(s, c), s.sh);
  }

  lemma SecKept(s: State, c: nat, d: nat, a: Act)
    requires Inv(s) && Enabled(s, d, a) && c < |s.cpu| && c != d
    ensures c < |Next(s, d, a).cpu| && Sec(Next(s, d, a), c) == Sec(s, c)
  {
    if a.Step? { StepProjections(s, d); }
    else if a.Switch? { SwitchStacks(s, d); }
    else {
      OutsideProjections(s, d, a);
      assert Secs(Next(s, d, a))[c] == Secs(s)[c];
    }
  }

  lemma MoveBack(c: nat, cp: Cpu, k: Stack, sh: Shared)
    requires k.Push? && Shape(k) && Moves(k.top.pc) && Possible(c, cp, k.top.pc, sh)
    ensures var pc' := SecPc(Landed(k, MoveOf(c, cp, k, sh)));
      (InScheduler(pc') && !pc'.Do?) || Halts(pc') ==> InScheduler(SecPc(k)) || SecPc(k) == pc'
  {
    var pc := k.top.pc;
    if InScheduler(pc) { InsideHolds(k); }
    else if InSection(SecPc(k)) && SecPc(k) != pc { HandlerAbove(c, cp, k, sh); }
    else { GuardBack(c, cp, k, sh); }
  }

  /** The guard's own steps lead to the start of a body at most. */
  lemma GuardBack(c: nat, cp: Cpu, k: Stack, sh: Shared)
    requires k.Push? && Shape(k) && Moves(k.top.pc) && Possible(c, cp, k.top.pc, sh) && !InScheduler(k.top.pc)
    requires !InSection(SecPc(k)) || SecPc(k) == k.top.pc
    ensures var pc' := SecPc(Landed(k, MoveOf(c, cp, k, sh))); !(InScheduler(pc') && !pc'.Do?) && !Halts(pc')
  {
    BelowRuns(k);
    GuardTarget(c, cp, k, sh);
  }

  lemma BelowRuns(k: Stack)
    requires k.Push? && Shape(k) && (!InSection(SecPc(k)) || SecPc(k) == k.top.pc)
    ensures SecPc(k.rest).Run?
  {
    if InSection(k.top.pc) { SectionLoud(k.top.pc); } else { SectionOrRun(k.rest); }
  }

  lemma {:induction false} SectionOrRun(k: Stack)
    ensures SecPc(k).Run? || InSection(SecPc(k))
  {
    if k.Push? { SectionOrRun(k.rest); }
  }

  lemma GuardTarget(c: nat, cp: Cpu, k: Stack, sh: Shared)
    requires k.Push? && Moves(k.top.pc) && Possible(c, cp, k.top.pc, sh) && !InScheduler(k.top.pc)
    ensures var pc' := MoveOf(c, cp, k, sh).pc; !(InScheduler(pc') && !pc'.Do?) && !Halts(pc')
  {
  }

  /** Whenever a CPU has stopped, it was inside an operation that it entered with a cause to stop. */
  lemma {:induction false} StoppedByOperation(r: Run, j: nat, c: nat) returns (i: nat, b: Body)
    requires FromBoot(r) && j < |r.states| && c < |r.states[j].cpu| && Halts(Sec(r.states[j], c))
    ensures i < j && c < |r.states[i].cpu| && Sec(r.states[i], c) == Do(b)
    ensures Sec(r.states[j], c).Fault? ==> CrashCause(b, r.states[i].sh, r.states[i].cpu[c].esp)
    ensures Sec(r.states[j], c).Dead? ==> DeathCause(b, r.states[i].sh, r.states[i].cpu[c].esp)
  {
    if j == 0 { BootRuns(r.states[0], c); }
    else {
      BackNext(r, j - 1, c);
      if InScheduler(Sec(r.states[j - 1], c)) {
        i, b := Entered(r, j - 1, c);
        StopsExactly(r, i, j, c, b);
      } else {
        i, b := StoppedByOperation(r, j - 1, c);
      }
    }
  }

  lemma BootRuns(s: State, c: nat)
    requires Init(s) && c < |s.cpu|
    ensures Sec(s, c).Run?
  {
    assert InitCpu(s, c);
  }

  lemma BackNext(r: Run, j: nat, c: nat)
    requires FromBoot(r) && j < |r.who| && c < |r.states[j + 1].cpu|
    ensures c < |r.states[j].cpu|
    ensures var pc, pc' := Sec(r.states[j], c), Sec(r.states[j + 1], c);
      (InScheduler(pc') && !pc'.Do?) || Halts(pc') ==> InScheduler(pc) || pc == pc'
  {
    Transition(r, j);
    SameCpus(r.states[j], r.who[j], r.acts[j]);
    StepBack(r.states[j], c, r.who[j], r.acts[j]);
  }

  /** A CPU inside an operation entered it at some point and has been inside ever since. */
  lemma {:induction false} Entered(r: Run, j: nat, c: nat) returns (i: nat, b: Body)
    requires FromBoot(r) && j < |r.states| && c < |r.states[j].cpu| && InScheduler(Sec(r.states[j], c))
    ensures i <= j && c < |r.states[i].cpu| && Sec(r.states[i], c) == Do(b) && Operating(r, i, j + 1, c)
  {
    if Sec(r.states[j], c).Do? {
      i, b := j, Sec(r.states[j], c).b;
      assert Busy(r.states[j], c);
    } else if j == 0 {
      BootRuns(r.states[0], c);
    } else {
      BackNext(r, j - 1, c);
      i, b := Entered(r, j - 1, c);
      assert Busy(r.states[j], c);
    }
  }
}
