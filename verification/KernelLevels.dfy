/** The two levels of interrupt handling in every run: epilogues in order, who can be interrupted, and that every
    thread can be preempted. */
module KernelLevels {
  import opened KernelState
  import opened KernelInvariant
  import opened KernelSafety
  import opened KernelInduction
  import opened KernelTheorems
  import opened KernelThreads
  import opened KernelProgress

  // ---------- the epilogues of a CPU run in the order of their requests ----------

  /** CPU d takes the first gate off its epilogue queue. */
  ghost predicate TakesGate(s: State, e: nat, a: Act, d: nat) {
    e == d < |s.cpu| && a.Step? && TopPc(Stk(s, d)).LeaveDequeue? && s.cpu[d].queue != []
  }

  lemma QueueMove(c: nat, cp: Cpu, k: Stack, sh: Shared)
    requires k.Push? && Possible(c, cp, k.top.pc, sh) && Moves(k.top.pc)
    ensures var m, pc := MoveOf(c, cp, k, sh), k.top.pc;
      if pc.Enqueue? then m.cpu.queue == cp.queue + [pc.g]
      else if pc.LeaveDequeue? && cp.queue != [] then m.cpu.queue == cp.queue[1..] && m.pc == DLock(cp.queue[0])
      else m.cpu.queue == cp.queue
  {
    if InScheduler(k.top.pc) { SchedulerEffect(c, cp, k, sh); }
  }

  /** Gates are added at the end and taken at the front, where they go on to their epilogue. */
  lemma QueueStep(s: State, e: nat, a: Act, d: nat)
    requires Inv(s) && Enabled(s, e, a) && d < |s.cpu|
    ensures var s', q := Next(s, e, a), s.cpu[d].queue;
      && d < |s'.cpu|
      && (if TakesGate(s, e, a, d) then s'.cpu[d].queue == q[1..] && TopPc(Stk(s', d)) == DLock(q[0])
          else s'.cpu[d].queue == q || (e == d && exists g: nat :: s'.cpu[d].queue == q + [g]))
  {
    if a.Step? {
      StepProjections(s, e);
      if e == d { QueueMove(d, s.cpu[d], Stk(s, d), s.sh); }
      assert Queues(Next(s, e, a))[d] == if e == d then StepMove(s, d).cpu.queue else Queues(s)[d];
    } else if a.Switch? {
      LoadedContext(s, e);
      SwitchStacks(s, e);
      assert Queues(Next(s, e, a))[d] == Queues(s)[d];
    } else {
      OutsideProjections(s, e, a);
      assert Queues(Next(s, e, a))[d] == Queues(s)[d];
    }
  }

  /** How many gates CPU d takes off its queue between states i and j. */
  ghost function TakenCount(r: Run, i: nat, j: nat, d: nat): nat
    requires Execution(r) && i <= j < |r.states|
  {
    if i == j then 0
    else TakenCount(r, i, j - 1, d) + if TakesGate(r.states[j - 1], r.who[j - 1], r.acts[j - 1], d) then 1 else 0
  }

  /** Gate g is in the epilogue queue of CPU d. */
  ghost predicate Queued(s: State, d: nat, g: nat) {
    d < |s.cpu| && g in s.cpu[d].queue
  }

  /** Its place there, from the front. */
  ghost function PlaceIn(s: State, d: nat, g: nat): nat {
    if d < |s.cpu| then Pos(s.cpu[d].queue, g) else 0
  }

  lemma PlaceStep(s: State, e: nat, a: Act, d: nat, g: nat)
    requires Inv(s) && Enabled(s, e, a) && Queued(s, d, g) && Queued(Next(s, e, a), d, g)
    ensures PlaceIn(Next(s, e, a), d, g) + (if TakesGate(s, e, a, d) then 1 else 0) == PlaceIn(s, d, g)
  {
    QueueStep(s, e, a, d);
    var q, q' := s.cpu[d].queue, Next(s, e, a).cpu[d].queue;
    if TakesGate(s, e, a, d) {
      assert GripOk(s.sh.gate, d, Grips(Tops(s))[d], Queues(s)[d]);
      FirstGone(q, g);
    } else if q' != q {
      var h: nat :| q' == q + [h];
      PosAppend(q, g, h);
    }
  }

  lemma PlaceNext(r: Run, j: nat, d: nat, g: nat)
    requires FromBoot(r) && j < |r.who| && Queued(r.states[j], d, g) && Queued(r.states[j + 1], d, g)
    ensures PlaceIn(r.states[j + 1], d, g) + (if TakesGate(r.states[j], r.who[j], r.acts[j], d) then 1 else 0)
         == PlaceIn(r.states[j], d, g)
  {
    Transition(r, j);
    PlaceStep(r.states[j], r.who[j], r.acts[j], d, g);
  }

  /** A queued gate is overtaken by none: as long as it stays in the queue, its place there falls by just the
      number of gates taken, so exactly those in front of it are taken before it. */
  lemma {:induction false} EpiloguesInOrder(r: Run, i: nat, j: nat, d: nat, g: nat)
    requires FromBoot(r) && i <= j < |r.states| && forall m: nat :: i <= m <= j ==> Queued(r.states[m], d, g)
    ensures TakenCount(r, i, j, d) + PlaceIn(r.states[j], d, g) == PlaceIn(r.states[i], d, g)
  {
    if i < j {
      EpiloguesInOrder(r, i, j - 1, d, g);
      assert Queued(r.states[j - 1], d, g) && Queued(r.states[j], d, g);
      PlaceNext(r, j - 1, d, g);
    }
  }

  // ---------- who can be interrupted ----------

  /** Waiting for the lock, running a critical section or an epilogue, being inside toc_switch, and the end of a
      handler. */
  predicate Awake(pc: PC) {
    pc.Take? || pc.Spin? || pc.Do? || pc.KillRemove? || pc.KillIpi? || pc.ScheduleTimer? || pc.ScheduleOff?
    || pc.Save? || pc.Load? || pc.Iret?
  }

  /** A prologue and the rest of the handler up to that end; Guard::leave behind its first step; Scheduler::resume
      and the dispatcher from the read of the life pointer to its write. */
  predicate Asleep(pc: PC) {
    pc.Prologue? || pc.TestFlag? || pc.QLock? || pc.QRead? || pc.QWrite? || pc.QUnlock? || pc.Enqueue? || pc.Tail?
    || pc.Direct? || pc.EnterFlag? || pc.EnterOn? || pc.LeaveDequeue? || pc.DLock? || pc.DClear? || pc.DUnlock?
    || pc.DOn? || pc.LeaveFlag? || pc.LeaveRead? || pc.LeaveTurn? || pc.LeaveOn? || pc.AssassinTest?
    || pc.ResumeEnqueue? || pc.ResumeDequeue? || pc.ResumeLoop? || pc.SetLife? || pc.SetOn? || pc.ScheduleLife?
    || pc.ScheduleOn?
  }

  ghost predicate AllAwake(s: State) {
    forall c: nat :: c < |s.cpu| ==> (Awake(TopPc(Stk(s, c))) ==> s.cpu[c].ie)
  }

  lemma AwakeMove(c: nat, cp: Cpu, k: Stack, sh: Shared)
    requires k.Push? && Possible(c, cp, k.top.pc, sh) && Moves(k.top.pc) && (Awake(k.top.pc) ==> cp.ie)
    ensures var m := MoveOf(c, cp, k, sh); Awake(m.pc) ==> m.cpu.ie
  {
    if k.top.pc.Do? { AwakeDo(c, cp, k.top.pc.b, sh); }
  }

  lemma AwakeDo(c: nat, cp: Cpu, b: Body, sh: Shared)
    requires Possible(c, cp, Do(b), sh) && cp.ie
    ensures var m := DoMove(c, cp, b, sh); Awake(m.pc) ==> m.cpu.ie
  {
  }

  lemma AwakeStep(s: State, e: nat, a: Act)
    requires Inv(s) && Enabled(s, e, a) && AllAwake(s)
    ensures AllAwake(Next(s, e, a))
  {
    forall c: nat | c < |Next(s, e, a).cpu| && Awake(TopPc(Stk(Next(s, e, a), c))) ensures Next(s, e, a).cpu[c].ie {
      AwakeOne(s, e, a, c);
    }
  }

  lemma AwakeOutside(s: State, e: nat, a: Act, c: nat)
    requires Stacks(s) && Enabled(s, e, a) && !a.Step? && !a.Switch? && c < |s.cpu|
    requires Awake(TopPc(Stk(s, c))) ==> s.cpu[c].ie
    ensures var s' := Next(s, e, a); c < |s'.cpu| && (Awake(TopPc(Stk(s', c))) ==> s'.cpu[c].ie)
  {
    if e != c { assert Esps(s)[e] != Esps(s)[c]; }
  }

  lemma AwakeSwitch(s: State, e: nat, c: nat)
    requires Inv(s) && Enabled(s, e, Switch) && c < |s.cpu| && (Awake(TopPc(Stk(s, c))) ==> s.cpu[c].ie)
    ensures var s' := Next(s, e, Switch); c < |s'.cpu| && (Awake(TopPc(Stk(s', c))) ==> s'.cpu[c].ie)
  {
    LoadedContext(s, e);
    SwitchStacks(s, e);
  }

  lemma AwakeOne(s: State, e: nat, a: Act, c: nat)
    requires Inv(s) && Enabled(s, e, a) && c < |s.cpu| && (Awake(TopPc(Stk(s, c))) ==> s.cpu[c].ie)
    ensures c < |Next(s, e, a).cpu| && (Awake(TopPc(Stk(Next(s, e, a), c))) ==> Next(s, e, a).cpu[c].ie)
  {
    if a.Step? {
      StepProjections(s, e);
      if e == c { AwakeMove(c, s.cpu[c], Stk(s, c), s.sh); }
    } else if a.Switch? { AwakeSwitch(s, e, c); }
    else { AwakeOutside(s, e, a, c); }
  }

  lemma InitAwake(s: State)
    requires Init(s)
    ensures AllAwake(s)
  {
    forall c: nat | c < |s.cpu| ensures !Awake(TopPc(Stk(s, c))) { assert InitCpu(s, c); }
  }

  lemma {:induction false} AwakeAlways(r: Run, i: nat)
    requires FromBoot(r) && i < |r.states|
    ensures AllAwake(r.states[i])
  {
    if i == 0 {
      InitAwake(r.states[0]);
    } else {
      AwakeAlways(r, i - 1);
      AwakeNext(r, i - 1, i);
    }
  }

  lemma AwakeNext(r: Run, m: nat, n: nat)
    requires FromBoot(r) && m < |r.who| && n == m + 1 && AllAwake(r.states[m])
    ensures AllAwake(r.states[n])
  {
    Transition(r, m);
    AwakeStep(r.states[m], r.who[m], r.acts[m]);
  }

  /** Interrupts are enabled wherever the prologue/epilogue model says so, whichever way a CPU came there, and
      disabled in prologues and in the short stretches where the guard, the gates and the scheduler need it. */
  lemma Interruptible(r: Run, i: nat, c: nat)
    requires FromBoot(r) && i < |r.states| && c < |r.states[i].cpu|
    ensures Awake(TopPc(Stk(r.states[i], c))) ==> r.states[i].cpu[c].ie
    ensures Asleep(TopPc(Stk(r.states[i], c))) ==> !r.states[i].cpu[c].ie
  {
    AwakeAlways(r, i);
    Always(r, i);
    assert CpuOk(r.states[i].cpu[c], Stk(r.states[i], c));
  }

  // ---------- the timer ----------

  /** CPU c runs a thread, or has started its timer on the way to its first one. */
  ghost predicate Timed(s: State, c: nat)
    requires c < |s.cpu|
  {
    s.cpu[c].esp.Thr? || Starting(Sec(s, c)) ==> s.cpu[c].timer
  }

  predicate Starting(pc: PC) { pc.ScheduleOff? || pc.ScheduleLife? || pc.ScheduleOn? || (pc.Load? && pc.prev == None) }

  lemma TimerKept(c: nat, cp: Cpu, k: Stack, sh: Shared)
    requires k.Push? && Possible(c, cp, k.top.pc, sh) && Moves(k.top.pc)
    ensures cp.timer ==> MoveOf(c, cp, k, sh).cpu.timer
  {
  }

  lemma StartMove(c: nat, cp: Cpu, k: Stack, sh: Shared)
    requires k.Push? && Possible(c, cp, k.top.pc, sh) && Shape(k) && Moves(k.top.pc)
    ensures var m := MoveOf(c, cp, k, sh); Starting(SecPc(Landed(k, m))) ==> Starting(SecPc(k)) || m.cpu.timer
  {
    var m := MoveOf(c, cp, k, sh);
    if Starting(m.pc) { StartsBehindTimer(c, cp, k, sh); }
  }

  /** The timer is set before the first thread is named. */
  lemma StartsBehindTimer(c: nat, cp: Cpu, k: Stack, sh: Shared)
    requires k.Push? && Possible(c, cp, k.top.pc, sh) && Moves(k.top.pc) && Starting(MoveOf(c, cp, k, sh).pc)
    ensures k.top.pc.ScheduleTimer? || (Starting(k.top.pc) && InSection(k.top.pc))
    ensures k.top.pc.ScheduleTimer? ==> MoveOf(c, cp, k, sh).cpu.timer
  {
  }

  lemma TimedStep(s: State, e: nat, a: Act, c: nat)
    requires Inv(s) && Enabled(s, e, a) && c < |s.cpu| && Timed(s, c)
    ensures c < |Next(s, e, a).cpu| && Timed(Next(s, e, a), c)
  {
    if a.Step? { TimedPlain(s, e, c); }
    else if a.Switch? { TimedSwitch(s, e, c); }
    else {
      OutsideProjections(s, e, a);
      assert Secs(Next(s, e, a))[c] == Secs(s)[c] && Esps(Next(s, e, a))[c] == Esps(s)[c];
    }
  }

  lemma TimedPlain(s: State, e: nat, c: nat)
    requires Inv(s) && Enabled(s, e, Step) && c < |s.cpu| && Timed(s, c)
    ensures c < |Next(s, e, Step).cpu| && Timed(Next(s, e, Step), c)
  {
    StepProjections(s, e);
    if e == c {
      assert CpuOk(s.cpu[c], Stk(s, c));
      TimerKept(c, s.cpu[c], Stk(s, c), s.sh);
      StartMove(c, s.cpu[c], Stk(s, c), s.sh);
    }
  }

  lemma TimedSwitch(s: State, e: nat, c: nat)
    requires Inv(s) && Enabled(s, e, Switch) && c < |s.cpu| && Timed(s, c)
    ensures c < |Next(s, e, Switch).cpu| && Timed(Next(s, e, Switch), c)
  {
    LoadedContext(s, e);
    SwitchStacks(s, e);
    if e == c { LeaverOwns(s, c); }
  }

  ghost predicate AllTimed(s: State) {
    forall c: nat :: c < |s.cpu| ==> Timed(s, c)
  }

  lemma InitTimed(s: State)
    requires Init(s)
    ensures AllTimed(s)
  {
    forall c: nat | c < |s.cpu| ensures Timed(s, c) { assert InitCpu(s, c); }
  }

  lemma TimedNext(r: Run, m: nat, n: nat)
    requires FromBoot(r) && m < |r.who| && n == m + 1 && AllTimed(r.states[m])
    ensures AllTimed(r.states[n])
  {
    Transition(r, m);
    SameCpus(r.states[m], r.who[m], r.acts[m]);
    forall c: nat | c < |r.states[n].cpu| ensures Timed(r.states[n], c) {
      TimedStep(r.states[m], r.who[m], r.acts[m], c);
    }
  }

  lemma {:induction false} TimedAlways(r: Run, i: nat)
    requires FromBoot(r) && i < |r.states|
    ensures AllTimed(r.states[i])
  {
    if i == 0 { InitTimed(r.states[0]); }
    else {
      TimedAlways(r, i - 1);
      TimedNext(r, i - 1, i);
    }
  }

  /** Every thread can be preempted: a CPU on a thread's stack has its timer running. */
  lemma ThreadsAreTimed(r: Run, i: nat, c: nat)
    requires FromBoot(r) && i < |r.states| && c < |r.states[i].cpu| && r.states[i].cpu[c].esp.Thr?
    ensures r.states[i].cpu[c].timer
  {
    TimedAlways(r, i);
    assert Timed(r.states[i], c);
  }
}
