/** The invariant holds initially and every transition keeps it. */
module KernelInduction {
  import opened Arithmetic
  import opened KernelState
  import opened KernelInvariant
  import opened KernelStacks
  import opened KernelTickets
  import opened KernelGates
  import opened KernelPlacement
  import opened KernelSafety

  // ---------- a plain step ----------

  function StepMove(s: State, c: nat): Move
    requires Enabled(s, c, Step)
  {
    MoveOf(c, s.cpu[c], Stk(s, c), s.sh)
  }

  lemma StepProjections(s: State, c: nat)
    requires Stacks(s) && Enabled(s, c, Step)
    ensures var s', m, k := Next(s, c, Step), StepMove(s, c), Stk(s, c);
      && Kept(k.top.kind, k.rest, s.cpu[c], m)
      && Stk(s', c) == Landed(k, m) && (forall d: nat :: d < |s.cpu| && d != c ==> Stk(s', d) == Stk(s, d))
      && Secs(s') == Secs(s)[c := SecPc(Landed(k, m))] && Tops(s') == Tops(s)[c := m.pc]
      && Esps(s') == Esps(s) && Queues(s') == Queues(s)[c := m.cpu.queue]
  {
    assert CpuOk(s.cpu[c], Stk(s, c));
    MoveKept(c, s.cpu[c], Stk(s, c), s.sh);
    PutProjections(s, c, StepMove(s, c).cpu, Landed(Stk(s, c), StepMove(s, c)), StepMove(s, c).sh);
  }

  lemma StepSizes(s: State, c: nat)
    requires Enabled(s, c, Step)
    ensures |StepMove(s, c).sh.life| == |s.sh.life| && |StepMove(s, c).sh.thr| == |s.sh.thr|
  {
    var k := Stk(s, c);
    if InScheduler(k.top.pc) { SchedulerEffect(c, s.cpu[c], k, s.sh); } else { GuardEffect(c, s.cpu[c], k, s.sh); }
  }

  lemma StepStacks(s: State, c: nat)
    requires Stacks(s) && Enabled(s, c, Step)
    ensures Stacks(Next(s, c, Step))
  {
    var s' := Next(s, c, Step);
    StepProjections(s, c);
    StepSizes(s, c);
    assert CpuOk(s.cpu[c], Stk(s, c));
    forall d: nat | d < |s'.cpu| ensures s'.cpu[d].esp in s'.stk && CpuOk(s'.cpu[d], Stk(s', d)) {
      if d != c { assert CpuOk(s.cpu[d], Stk(s, d)); }
    }
  }

  lemma StepTickets(s: State, c: nat)
    requires Stacks(s) && Tickets(s.sh, Secs(s)) && Enabled(s, c, Step)
    ensures Tickets(Next(s, c, Step).sh, Secs(Next(s, c, Step)))
  {
    StepProjections(s, c);
    var k, m := Stk(s, c), StepMove(s, c);
    assert CpuOk(s.cpu[c], k);
    MoveLock(c, s.cpu[c], k, s.sh);
    TicketsStep(s.sh, Secs(s), c, SecPc(Landed(k, m)), m.sh);
  }

  lemma StepGates(s: State, c: nat)
    requires Stacks(s) && Gates(s.sh.gate, Tops(s), Queues(s)) && Enabled(s, c, Step)
    ensures var s' := Next(s, c, Step); Gates(s'.sh.gate, Tops(s'), Queues(s'))
  {
    StepProjections(s, c);
    var k, m := Stk(s, c), StepMove(s, c);
    assert GripOk(s.sh.gate, c, Grips(Tops(s))[c], Queues(s)[c]);
    MoveGate(c, s.cpu[c], k, s.sh);
    GatesStep(s.sh.gate, Tops(s), Queues(s), c, m.pc, m.sh.gate, m.cpu.queue);
  }

  /** While one CPU holds the lock, the others do nothing to threads. */
  lemma HolderAlone(sh: Shared, secs: seq<PC>, c: nat)
    requires Tickets(sh, secs) && c < |secs| && Holds(secs[c])
    ensures OthersOut(Spots(secs), c)
  {
    forall d: nat | d < |secs| && d != c ensures Spots(secs)[d] == NEUTRAL {
      if Holds(secs[d]) { OneHolder(sh, secs, c, d); }
    }
  }

  ghost predicate CallerOk(c: nat, cp: Cpu, b: Body, sh: Shared, rest: set<nat>)
    requires c < |sh.life|
  {
    && (b.Call? && b.op.Ready? ==>
          && b.op.t < |sh.thr| && !sh.thr[b.op.t].kill && b.op.t !in sh.jobs
          && b.op.t !in rest && sh.life[c] != Some(b.op.t))
    && (b == Call(Schedule) ==> cp.esp.Boot?)
  }

  lemma SchedulerFocus(c: nat, cp: Cpu, k: Stack, sh: Shared, rest: set<nat>)
    requires k.Push? && InScheduler(k.top.pc) && Possible(c, cp, k.top.pc, sh)
    requires Focus(sh, c, SpotOf(k.top.pc), cp.esp, rest)
    requires k.top.pc.Do? ==> CallerOk(c, cp, k.top.pc.b, sh, rest)
    ensures var m := MoveOf(c, cp, k, sh); Focus(m.sh, c, SpotOf(m.pc), cp.esp, rest)
  {
    var pc, m := k.top.pc, MoveOf(c, cp, k, sh);
    if Dispatching(pc) {
      assert m == DispatchMove(c, cp, pc, sh, k);
      DispatchFocus(c, cp, pc, sh, k, rest);
    }
    else if pc.Do? {
      assert m == DoMove(c, cp, pc.b, sh) && SpotOf(pc) == NEUTRAL;
      DoFocus(c, cp, pc.b, sh, rest);
    } else if Killing(pc) {
      assert m == KillMove(c, cp, pc, sh);
      KillStepFocus(c, cp, pc, sh, rest);
    } else if Resuming(pc) {
      assert m == ResumeMove(c, cp, pc, sh);
      ResumeFocus(c, cp, pc, sh, rest);
    } else {
      assert m == ScheduleMove(c, cp, pc, sh);
      ScheduleFocus(c, cp, pc, sh, rest);
    }
  }

  lemma StepPlacement(s: State, c: nat)
    requires Stacks(s) && Tickets(s.sh, Secs(s)) && Placement(s.sh, Secs(s), Esps(s)) && Enabled(s, c, Step)
    ensures var s' := Next(s, c, Step); Placement(s'.sh, Secs(s'), Esps(s'))
  {
    StepProjections(s, c);
    var k, m, secs := Stk(s, c), StepMove(s, c), Secs(s);
    assert CpuOk(s.cpu[c], k);
    SpotsUpdate(secs, c, SecPc(Landed(k, m)));
    if InScheduler(k.top.pc) { StepScheduler(s, c); }
    else {
      GuardEffect(c, s.cpu[c], k, s.sh);
      GuardSpot(c, s.cpu[c], k, s.sh);
      assert Spots(secs)[c := SpotOf(SecPc(Landed(k, m)))] == Spots(secs);
      PlacesKeep(s.sh, Spots(secs), Esps(s), m.sh);
    }
  }

  lemma GuardSpot(c: nat, cp: Cpu, k: Stack, sh: Shared)
    requires k.Push? && Possible(c, cp, k.top.pc, sh) && Shape(k) && Moves(k.top.pc) && !InScheduler(k.top.pc)
    ensures SpotOf(SecPc(Landed(k, MoveOf(c, cp, k, sh)))) == SpotOf(SecPc(k))
  {
    var pc := k.top.pc;
    if Queueing(pc) || Relaying(pc) { RelaySpot(c, cp, k, sh); }
    else if Entering(pc) { EnterSpot(c, cp, k, sh); }
    else if Dequeueing(pc) { DequeuedSpot(c, cp, k, sh); }
    else { LeaveSpot(cp, k, sh); }
  }

  lemma RelaySpot(c: nat, cp: Cpu, k: Stack, sh: Shared)
    requires k.Push? && Possible(c, cp, k.top.pc, sh) && Shape(k) && (Queueing(k.top.pc) || Relaying(k.top.pc))
    ensures SpotOf(SecPc(Landed(k, MoveOf(c, cp, k, sh)))) == SpotOf(SecPc(k))
  {
  }

  lemma EnterSpot(c: nat, cp: Cpu, k: Stack, sh: Shared)
    requires k.Push? && Shape(k) && Entering(k.top.pc)
    ensures SpotOf(SecPc(Landed(k, EnterMove(c, cp, k.top.pc, sh)))) == SpotOf(SecPc(k))
  {
  }

  lemma DequeuedSpot(c: nat, cp: Cpu, k: Stack, sh: Shared)
    requires k.Push? && Possible(c, cp, k.top.pc, sh) && Dequeueing(k.top.pc)
    ensures SpotOf(SecPc(Landed(k, DequeuedMove(c, cp, k.top.pc, sh)))) == SpotOf(SecPc(k))
  {
  }

  lemma LeaveSpot(cp: Cpu, k: Stack, sh: Shared)
    requires k.Push? && Shape(k) && Leaving(k.top.pc)
    ensures SpotOf(SecPc(Landed(k, LeaveMove(cp, k.top.pc, sh, k.top.kind)))) == SpotOf(SecPc(k))
  {
  }

  lemma StepScheduler(s: State, c: nat)
    requires Stacks(s) && Tickets(s.sh, Secs(s)) && Placement(s.sh, Secs(s), Esps(s)) && Enabled(s, c, Step)
    requires InScheduler(TopPc(Stk(s, c)))
    ensures var m := StepMove(s, c); Places(m.sh, Spots(Secs(s))[c := SpotOf(SecPc(Landed(Stk(s, c), m)))], Esps(s))
  {
    var k, m, cp, rest := Stk(s, c), StepMove(s, c), s.cpu[c], Elsewhere(s.sh.life, c);
    SchedulerEffect(c, cp, k, s.sh);
    HolderAlone(s.sh, Secs(s), c);
    ToFocus(s.sh, Spots(Secs(s)), Esps(s), c);
    ReadyElsewhere(s, c);
    SchedulerFocus(c, cp, k, s.sh, rest);
    FromFocus(s.sh, Spots(Secs(s)), Esps(s), c, m.sh, SpotOf(m.pc), cp.esp);
    assert Esps(s)[c := cp.esp] == Esps(s);
  }

  lemma ReadyElsewhere(s: State, c: nat)
    requires Enabled(s, c, Step) && |s.sh.life| == |s.cpu|
    ensures TopPc(Stk(s, c)).Do? ==>
      CallerOk(c, s.cpu[c], TopPc(Stk(s, c)).b, s.sh, Elsewhere(s.sh.life, c))
  {
    assert s.sh.life[c] in s.sh.life;
  }

  lemma StepContexts(s: State, c: nat)
    requires Stacks(s) && Placement(s.sh, Secs(s), Esps(s)) && Contexts(s) && Enabled(s, c, Step)
    ensures Contexts(Next(s, c, Step))
  {
    var s', k, m, cp := Next(s, c, Step), Stk(s, c), StepMove(s, c), s.cpu[c];
    StepProjections(s, c);
    StepSizes(s, c);
    assert CpuOk(cp, k) && SwitchOk(s.sh.thr, cp.regs, k);
    LeaverOwns(s, c);
    MoveContext(c, cp, k, s.sh);
    forall d: nat | d < |s.cpu| && d != c ensures SwitchOk(s'.sh.thr, s'.cpu[d].regs, Stk(s', d)) {
      StepOther(s, c, d, m.sh.thr);
    }
    StepSuspended(s, c, m.sh.thr);
  }

  lemma StepOther(s: State, c: nat, d: nat, thr': seq<Thread>)
    requires Stacks(s) && Placement(s.sh, Secs(s), Esps(s)) && Contexts(s)
    requires c < |s.cpu| && d < |s.cpu| && c != d && OnlyOwn(s.sh.thr, thr', s.cpu[c].esp)
    ensures SwitchOk(thr', s.cpu[d].regs, Stk(s, d))
  {
    LeaverOwns(s, d);
    assert Esps(s)[d] != Esps(s)[c] && SwitchOk(s.sh.thr, s.cpu[d].regs, Stk(s, d));
    OtherContext(s.sh.thr, thr', s.cpu[d].regs, Stk(s, d), s.cpu[d].esp, s.cpu[c].esp);
  }

  /** A suspended thread's stack and context are touched by nobody. */
  lemma StepSuspended(s: State, c: nat, thr': seq<Thread>)
    requires Contexts(s) && c < |s.cpu| && OnlyOwn(s.sh.thr, thr', s.cpu[c].esp)
    ensures forall t: nat :: t < |s.sh.thr| && Thr(t) !in Esps(s) ==>
      Thr(t) != s.cpu[c].esp && Suspended(thr'[t], t, s.stk[Thr(t)])
  {
    forall t: nat | t < |s.sh.thr| && Thr(t) !in Esps(s)
      ensures Thr(t) != s.cpu[c].esp && Suspended(thr'[t], t, s.stk[Thr(t)])
    {
      assert Esps(s)[c] == s.cpu[c].esp;
      assert Suspended(s.sh.thr[t], t, s.stk[Thr(t)]) && ThreadKept(s.sh.thr[t], thr'[t]);
    }
  }

  /** A CPU inside toc_switch finds its thread as it was: it runs on that thread's stack. */
  lemma OtherContext(thr: seq<Thread>, thr': seq<Thread>, regs: int, k: Stack, x: Ctx, y: Ctx)
    requires SwitchOk(thr, regs, k) && OnlyOwn(thr, thr', y) && x != y
    requires Leaver(SecPc(k)).Some? ==> Owner(x) == Leaver(SecPc(k))
    ensures SwitchOk(thr', regs, k)
  {
    if Leaver(SecPc(k)).Some? {
      assert ThreadKept(thr[Leaver(SecPc(k)).value], thr'[Leaver(SecPc(k)).value]);
    }
  }

  /** What the life rules say about a CPU inside dispatch or toc_switch. */
  lemma LeaverOwns(s: State, d: nat)
    requires Placement(s.sh, Secs(s), Esps(s)) && d < |s.cpu|
    ensures Leaver(Sec(s, d)).Some? ==> Owner(s.cpu[d].esp) == Leaver(Sec(s, d))
    ensures Sec(s, d).SetOn? ==> Owner(s.cpu[d].esp) == Sec(s, d).prev
    ensures Sec(s, d).Load? ==> Owner(s.cpu[d].esp) == Sec(s, d).prev
  {
    assert PlaceOk(s.sh, d, Spots(Secs(s))[d], Esps(s)[d]);
  }

  lemma StepInv(s: State, c: nat)
    requires Inv(s) && Enabled(s, c, Step)
    ensures Inv(Next(s, c, Step))
  {
    StepStacks(s, c);
    StepTickets(s, c);
    StepGates(s, c);
    StepPlacement(s, c);
    StepContexts(s, c);
  }

  // ---------- interrupts, returns, level-0 code ----------

  /** A CPU's record and stack change, but not what it does inside the section. */
  lemma OutsideInv(s: State, c: nat, cp: Cpu, k: Stack, ipi: set<nat>)
    requires Inv(s) && c < |s.cpu| && cp.esp == s.cpu[c].esp && cp.queue == s.cpu[c].queue && cp.flag == s.cpu[c].flag
    requires CpuOk(cp, k) && SecPc(k) == Sec(s, c) && SecStack(k) == SecStack(Stk(s, c))
    requires Leaver(SecPc(k)).Some? ==> SecRegs(k, cp.regs) == SecRegs(Stk(s, c), s.cpu[c].regs)
    requires GateStep(c, TopPc(Stk(s, c)), TopPc(k), s.sh.gate, s.sh.gate, cp.queue, cp.queue)
    ensures Inv(Put(s, c, cp, k, s.sh.(ipi := ipi)))
  {
    var s' := Put(s, c, cp, k, s.sh.(ipi := ipi));
    PutProjections(s, c, cp, k, s.sh.(ipi := ipi));
    assert Secs(s') == Secs(s) && Queues(s') == Queues(s);
    GatesStep(s.sh.gate, Tops(s), Queues(s), c, TopPc(k), s.sh.gate, cp.queue);
    PlacesKeep(s.sh, Spots(Secs(s)), Esps(s), s'.sh);
    OutsideStacks(s, c, cp, k, ipi);
    assert SwitchOk(s.sh.thr, s.cpu[c].regs, Stk(s, c));
    forall d: nat | d < |s.cpu| ensures SwitchOk(s'.sh.thr, s'.cpu[d].regs, Stk(s', d)) {
      if d != c { assert SwitchOk(s.sh.thr, s.cpu[d].regs, Stk(s, d)); }
    }
    forall t: nat | t < |s'.sh.thr| && Thr(t) !in Esps(s') ensures Suspended(s'.sh.thr[t], t, s'.stk[Thr(t)]) {
      assert Esps(s)[c] == s.cpu[c].esp;
      assert Suspended(s.sh.thr[t], t, s.stk[Thr(t)]);
    }
  }

  lemma OutsideStacks(s: State, c: nat, cp: Cpu, k: Stack, ipi: set<nat>)
    requires Stacks(s) && c < |s.cpu| && cp.esp == s.cpu[c].esp && CpuOk(cp, k)
    ensures Stacks(Put(s, c, cp, k, s.sh.(ipi := ipi)))
  {
    var s' := Put(s, c, cp, k, s.sh.(ipi := ipi));
    PutProjections(s, c, cp, k, s.sh.(ipi := ipi));
    forall d: nat | d < |s'.cpu| ensures s'.cpu[d].esp in s'.stk && CpuOk(s'.cpu[d], Stk(s', d)) {
      if d != c { assert CpuOk(s.cpu[d], Stk(s, d)); }
    }
  }

  lemma InterruptInv(s: State, c: nat, g: nat)
    requires Inv(s) && Enabled(s, c, Interrupt(g))
    ensures Inv(Next(s, c, Interrupt(g)))
  {
    var cp, k := s.cpu[c], Stk(s, c);
    assert CpuOk(cp, k);
    OutsideInv(s, c, cp.(ie := false), Push(Frame(Isr(cp.regs), Prologue(g)), k),
               if g == ASSASSIN then s.sh.ipi - {c} else s.sh.ipi);
    assert s.sh.(ipi := s.sh.ipi) == s.sh;
  }

  lemma ReturnInv(s: State, c: nat)
    requires Inv(s) && Enabled(s, c, Return)
    ensures Inv(Next(s, c, Return))
  {
    var cp, k := s.cpu[c], Stk(s, c);
    assert CpuOk(cp, k);
    OutsideInv(s, c, cp.(ie := true, regs := k.top.kind.regs), k.rest, s.sh.ipi);
    assert s.sh.(ipi := s.sh.ipi) == s.sh;
  }

  lemma SyscallInv(s: State, c: nat, op: Op)
    requires Inv(s) && Enabled(s, c, Syscall(op))
    ensures Inv(Next(s, c, Syscall(op)))
  {
    var cp, k := s.cpu[c], Stk(s, c);
    assert CpuOk(cp, k);
    OutsideInv(s, c, cp, Push(Frame(k.top.kind, EnterOff(Call(op))), k.rest), s.sh.ipi);
    assert s.sh.(ipi := s.sh.ipi) == s.sh;
  }

  lemma OutcomeInv(s: State, c: nat, b: bool)
    requires Inv(s) && Enabled(s, c, Outcome(b))
    ensures Inv(Next(s, c, Outcome(b)))
  {
    var cp, k := s.cpu[c], Stk(s, c);
    assert CpuOk(cp, k);
    assert GripOk(s.sh.gate, c, Grips(Tops(s))[c], Queues(s)[c]);
    OutsideInv(s, c, cp, Push(Frame(k.top.kind, if b then TestFlag(k.top.pc.g) else Tail), k.rest), s.sh.ipi);
    assert s.sh.(ipi := s.sh.ipi) == s.sh;
  }

  lemma ComputeInv(s: State, c: nat, r: int)
    requires Inv(s) && Enabled(s, c, Compute(r))
    ensures Inv(Next(s, c, Compute(r)))
  {
    var s', cp, k := Next(s, c, Compute(r)), s.cpu[c], Stk(s, c);
    assert CpuOk(cp, k);
    PutProjections(s, c, cp.(regs := r), k, s.sh);
    assert Secs(s') == Secs(s) && Queues(s') == Queues(s) && Tops(s') == Tops(s);
    OutsideStacks(s, c, cp.(regs := r), k, s.sh.ipi);
    assert s.sh.(ipi := s.sh.ipi) == s.sh;
    assert SwitchOk(s.sh.thr, cp.regs, k);
    forall d: nat | d < |s.cpu| ensures SwitchOk(s'.sh.thr, s'.cpu[d].regs, Stk(s', d)) {
      if d != c { assert SwitchOk(s.sh.thr, s.cpu[d].regs, Stk(s, d)); }
    }
    forall t: nat | t < |s'.sh.thr| && Thr(t) !in Esps(s') ensures Suspended(s'.sh.thr[t], t, s'.stk[Thr(t)]) {
      assert Esps(s)[c] == s.cpu[c].esp;
      assert Suspended(s.sh.thr[t], t, s.stk[Thr(t)]);
    }
  }

  // ---------- the switch ----------

  /** The context a CPU is about to load is complete: the thread is suspended, or it is the
      CPU's own thread, saved a step before. */
  lemma LoadedContext(s: State, c: nat)
    requires Stacks(s) && Placement(s.sh, Secs(s), Esps(s)) && Contexts(s) && Enabled(s, c, Switch)
    ensures var next := Stk(s, c).top.pc.next;
      && next < |s.sh.thr| && Thr(next) in s.stk && Suspended(s.sh.thr[next], next, s.stk[Thr(next)])
      && (forall d: nat :: d < |s.cpu| && d != c ==> s.cpu[d].esp != Thr(next))
  {
    var k, next := Stk(s, c), Stk(s, c).top.pc.next;
    assert CpuOk(s.cpu[c], k) && SwitchOk(s.sh.thr, s.cpu[c].regs, k);
    LeaverOwns(s, c);
    NextFree(s, c);
    if Thr(next) in Esps(s) { assert s.cpu[c].esp == Thr(next); }
  }

  lemma NextFree(s: State, c: nat)
    requires Placement(s.sh, Secs(s), Esps(s)) && c < |s.cpu| && Sec(s, c).Load?
    ensures Sec(s, c).next < |s.sh.thr|
    ensures forall d: nat :: d < |s.cpu| && d != c ==> s.cpu[d].esp != Thr(Sec(s, c).next)
  {
    var spots := Spots(Secs(s));
    assert spots[c] == SpotOf(Sec(s, c));
    assert PlaceOk(s.sh, c, spots[c], Esps(s)[c]);
    forall d: nat | d < |s.cpu| && d != c ensures s.cpu[d].esp != Thr(Sec(s, c).next) {
      assert Owner(Esps(s)[d]) != spots[c].fly;
    }
  }

  /** A suspended stack is fit to run on once toc_switch has returned. */
  lemma ReturnedOk(k: Stack, cp: Cpu, cp': Cpu, k': Stack, th: Thread, t: nat)
    requires CpuOk(cp, k) && TopPc(k).Load? && Suspended(th, t, k')
    requires cp'.flag == cp.flag && cp'.queue == cp.queue
    ensures CpuOk(cp', Returned(k')) && SecPc(Returned(k')) == TopPc(Returned(k')) == LeaveOff && SecPc(k) == TopPc(k)
  {
  }

  lemma SwitchStacks(s: State, c: nat)
    requires Stacks(s) && Placement(s.sh, Secs(s), Esps(s)) && Contexts(s) && Enabled(s, c, Switch)
    ensures SwitchProjections(s, c, Next(s, c, Switch)) && Stacks(Next(s, c, Switch))
  {
    var s', k, next := Next(s, c, Switch), Stk(s, c), Stk(s, c).top.pc.next;
    LoadedContext(s, c);
    assert CpuOk(s.cpu[c], k);
    SwitchEffect(s, c, next);
    ReturnedOk(k, s.cpu[c], s'.cpu[c], s.stk[Thr(next)], s.sh.thr[next], next);
    SwitchSeqs(s, c, s', next);
    SwitchOthers(s, c, s');
  }

  lemma SwitchEffect(s: State, c: nat, next: nat)
    requires Enabled(s, c, Switch) && TopPc(Stk(s, c)).next == next < |s.sh.thr|
    requires s.sh.thr[next].toc.esp == Thr(next) && forall d: nat :: d < |s.cpu| && d != c ==> s.cpu[d].esp != Thr(next)
    ensures var s' := Next(s, c, Switch);
      && |s'.cpu| == |s.cpu| && s'.sh == s.sh
      && s'.stk == s.stk[Thr(next) := Returned(s.stk[Thr(next)])]
      && s'.cpu[c].esp == Thr(next) && s'.cpu[c].flag == s.cpu[c].flag && s'.cpu[c].queue == s.cpu[c].queue
      && Stk(s', c) == Returned(s.stk[Thr(next)])
      && (forall d: nat :: d < |s.cpu| && d != c ==> Stk(s', d) == Stk(s, d) && s'.cpu[d] == s.cpu[d])
  {
  }

  /** All CPUs are as they should be if c is and the others are unchanged. */
  lemma SwitchOthers(s: State, c: nat, s': State)
    requires Stacks(s) && c < |s.cpu| == |s'.cpu| && s'.sh == s.sh && s'.cpu[c].esp.Thr? && s'.cpu[c].esp.t < |s.sh.thr|
    requires CpuOk(s'.cpu[c], Stk(s', c)) && s'.cpu[c].esp in s'.stk && s.stk.Keys <= s'.stk.Keys
    requires forall d: nat :: d < |s.cpu| && d != c ==>
      Stk(s', d) == Stk(s, d) && s'.cpu[d] == s.cpu[d] && s.cpu[d].esp != s'.cpu[c].esp
    ensures Stacks(s')
  {
    forall d: nat | d < |s'.cpu| ensures s'.cpu[d].esp in s'.stk && CpuOk(s'.cpu[d], Stk(s', d)) {
      if d != c { assert s.cpu[d].esp in s.stk && CpuOk(s.cpu[d], Stk(s, d)); }
    }
    assert Esps(s') == Esps(s)[c := s'.cpu[c].esp];
  }

  lemma SwitchSeqs(s: State, c: nat, s': State, next: nat)
    requires c < |s.cpu| == |s'.cpu| && Sec(s', c) == TopPc(Stk(s', c)) == LeaveOff && s'.cpu[c].queue == s.cpu[c].queue
    requires forall d: nat :: d < |s.cpu| && d != c ==> Stk(s', d) == Stk(s, d) && s'.cpu[d] == s.cpu[d]
    ensures Secs(s') == Secs(s)[c := LeaveOff] && Tops(s') == Tops(s)[c := LeaveOff] && Queues(s') == Queues(s)
    ensures Esps(s') == Esps(s)[c := s'.cpu[c].esp]
  {
  }

  ghost predicate SwitchProjections(s: State, c: nat, s': State)
    requires c < |s.cpu| && TopPc(Stk(s, c)).Load? && Thr(TopPc(Stk(s, c)).next) in s.stk
  {
    var next := TopPc(Stk(s, c)).next;
    && |s'.cpu| == |s.cpu|
    && Sec(s, c) == TopPc(Stk(s, c)) && s'.sh == s.sh
    && Secs(s') == Secs(s)[c := LeaveOff] && Tops(s') == Tops(s)[c := LeaveOff]
    && Esps(s') == Esps(s)[c := Thr(next)] && Queues(s') == Queues(s)
    && Stk(s', c) == Returned(s.stk[Thr(next)])
    && s'.stk == s.stk[Thr(next) := Returned(s.stk[Thr(next)])]
    && (forall d: nat :: d < |s.cpu| && d != c ==> Stk(s', d) == Stk(s, d) && s'.cpu[d] == s.cpu[d])
  }

  lemma SwitchInv(s: State, c: nat)
    requires Inv(s) && Enabled(s, c, Switch)
    ensures Inv(Next(s, c, Switch))
  {
    var s', sec := Next(s, c, Switch), Sec(s, c);
    LoadedContext(s, c);
    SwitchStacks(s, c);
    TicketsStep(s.sh, Secs(s), c, LeaveOff, s'.sh);
    GatesStep(s.sh.gate, Tops(s), Queues(s), c, LeaveOff, s.sh.gate, Queues(s)[c]);
    assert Queues(s)[c := Queues(s)[c]] == Queues(s);
    SwitchPlacement(s.sh, Secs(s), Esps(s), c, sec.prev, sec.next);
    SwitchContexts(s, c, s');
  }

  lemma SwitchPlacement(sh: Shared, secs: seq<PC>, esps: seq<Ctx>, c: nat, prev: Option<nat>, next: nat)
    requires Tickets(sh, secs) && Placement(sh, secs, esps) && Exclusive(esps, |sh.thr|)
    requires c < |secs| && secs[c] == Load(prev, next)
    ensures Placement(sh, secs[c := LeaveOff], esps[c := Thr(next)])
  {
    HolderAlone(sh, secs, c);
    ToFocus(sh, Spots(secs), esps, c);
    SwitchFocus(c, prev, next, esps[c], sh, Elsewhere(sh.life, c));
    FromFocus(sh, Spots(secs), esps, c, sh, NEUTRAL, Thr(next));
    SpotsUpdate(secs, c, LeaveOff);
  }

  lemma SwitchContexts(s: State, c: nat, s': State)
    requires Stacks(s) && Placement(s.sh, Secs(s), Esps(s)) && Contexts(s)
    requires c < |s.cpu| && TopPc(Stk(s, c)).Load? && Thr(TopPc(Stk(s, c)).next) in s.stk
    requires SwitchProjections(s, c, s') && s.stk[Thr(TopPc(Stk(s, c)).next)].Push?
    ensures Contexts(s')
  {
    var k, next := Stk(s, c), TopPc(Stk(s, c)).next;
    assert CpuOk(s.cpu[c], k) && SwitchOk(s.sh.thr, s.cpu[c].regs, k);
    LeaverOwns(s, c);
    forall d: nat | d < |s.cpu| ensures SwitchOk(s'.sh.thr, s'.cpu[d].regs, Stk(s', d)) {
      if d != c { assert SwitchOk(s.sh.thr, s.cpu[d].regs, Stk(s, d)); }
    }
    forall t: nat | t < |s'.sh.thr| && Thr(t) !in Esps(s') ensures Suspended(s'.sh.thr[t], t, s'.stk[Thr(t)]) {
      assert Esps(s')[c] == Thr(next);
      if Thr(t) in Esps(s) {
        LeftBehind(Esps(s), c, Thr(t), Thr(next));
        assert s.cpu[c].esp == Thr(t);
      }
    }
  }

  lemma LeftBehind(esps: seq<Ctx>, c: nat, x: Ctx, y: Ctx)
    requires c < |esps| && x in esps && x !in esps[c := y]
    ensures esps[c] == x
  {
    var d: nat :| d < |esps| && esps[d] == x;
    assert esps[c := y][d] == if d == c then y else x;
  }

  // ---------- all transitions ----------

  lemma NextInv(s: State, c: nat, a: Act)
    requires Inv(s) && Enabled(s, c, a)
    ensures Inv(Next(s, c, a))
  {
    match a {
      case Interrupt(g) => InterruptInv(s, c, g);
      case Compute(r) => ComputeInv(s, c, r);
      case Syscall(op) => SyscallInv(s, c, op);
      case Outcome(b) => OutcomeInv(s, c, b);
      case Return => ReturnInv(s, c);
      case Switch => SwitchInv(s, c);
      case Step => StepInv(s, c);
    }
  }

  lemma InitInv(s: State)
    requires Init(s)
    ensures Inv(s)
  {
    forall c: nat | c < |s.cpu|
      ensures s.cpu[c].esp == Boot(c) && Stk(s, c) == Push(Frame(Base, Run), Empty) && CpuOk(s.cpu[c], Stk(s, c))
              && s.sh.life[c] == None && s.cpu[c].queue == []
    {
      assert InitCpu(s, c);
    }
    forall t: nat | t < |s.sh.thr| ensures Thr(t) in s.stk && Suspended(s.sh.thr[t], t, s.stk[Thr(t)]) {
      assert InitThread(s, t);
    }
    InitProjections(s.sh, Secs(s), Tops(s), Esps(s), Queues(s));
  }

  lemma InitProjections(sh: Shared, secs: seq<PC>, tops: seq<PC>, esps: seq<Ctx>, queues: seq<seq<nat>>)
    requires 0 < |secs| == |tops| == |esps| == |queues| == |sh.life| && |secs| < WRAP && |sh.gate| > WATCH
    requires forall c :: 0 <= c < |secs| ==>
               secs[c] == tops[c] == Run && esps[c] == Boot(c) && queues[c] == [] && sh.life[c] == None
    requires sh.jobs == [] && sh.waiting == [] && sh.ticket == 0 && sh.turn == 0
    requires forall g: nat :: g < |sh.gate| ==> sh.gate[g] == Gate(None, false)
    ensures Tickets(sh, secs) && Gates(sh.gate, tops, queues) && Placement(sh, secs, esps)
  {
    forall c: nat | c < |secs|
      ensures PlaceOk(sh, c, Spots(secs)[c], esps[c]) && GripOk(sh.gate, c, Grips(tops)[c], queues[c])
    {
    }
  }
}
