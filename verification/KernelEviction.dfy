/** How a killed thread that runs on another CPU is evicted, and when it is not: the assassin is one
    gate with one queue_flag, so a request for it on one CPU can be swallowed by another CPU's. */
module KernelEviction {
  import opened Arithmetic
  import opened KernelState
  import opened KernelInvariant
  import opened KernelStacks
  import opened KernelTickets
  import opened KernelSafety
  import opened KernelInduction
  import opened KernelTheorems
  import opened KernelGuard
  import opened KernelThreads
  import opened KernelAtomic
  import opened KernelProgress

  // ---------- the work that evicts ----------

  /** The assassin's interrupt is being handled, up to its epilogue, or the CPU is already on its way
      out of its thread. A request that found queue_flag set is no such work. */
  predicate Evicts(pc: PC) {
    || pc == Prologue(ASSASSIN) || pc == TestFlag(ASSASSIN) || pc == QLock(ASSASSIN) || pc == QRead(ASSASSIN)
    || pc == QWrite(ASSASSIN, true) || pc == QUnlock(ASSASSIN, true) || pc == Enqueue(ASSASSIN)
    || pc == Direct(ASSASSIN)
    || ((Entering(pc) || pc.Do?) && pc.b == Epilogue(ASSASSIN)) || AboutTo(pc, ASSASSIN)
    || pc.AssassinTest? || Resuming(pc) || pc.Dispatch? || pc.SetLife?
  }

  predicate EvictsOn(k: Stack) {
    k.Push? && (Evicts(k.top.pc) || EvictsOn(k.rest))
  }

  /** Thread t does not run on CPU d, or d is going to be made to leave it: the interrupt is pending,
      the gate is in d's queue, or d's stack holds work that evicts; or d has stopped. */
  ghost predicate Evicting(s: State, d: nat, t: nat) {
    && d < |s.cpu| && d < |s.sh.life|
    && (s.sh.life[d] == Some(t) ==>
          d in s.sh.ipi || ASSASSIN in s.cpu[d].queue || EvictsOn(Stk(s, d)) || Halts(TopPc(Stk(s, d))))
  }

  /** CPU d reads queue_flag set although the assassin is not in its own queue, and has no other work
      that evicts. */
  ghost predicate Misses(s: State, c: nat, a: Act, d: nat) {
    && c == d && d < |s.cpu| && a.Step? && Stk(s, d).Push? && TopPc(Stk(s, d)) == QRead(ASSASSIN)
    && ASSASSIN < |s.sh.gate| && s.sh.gate[ASSASSIN].queued
    && d !in s.sh.ipi && ASSASSIN !in s.cpu[d].queue && !EvictsOn(Stk(s, d).rest)
  }

  // ---------- a thread that was killed does not come back ----------

  lemma LifeMove(c: nat, cp: Cpu, k: Stack, sh: Shared)
    requires k.Push? && Possible(c, cp, k.top.pc, sh) && Moves(k.top.pc)
    ensures var m := MoveOf(c, cp, k, sh);
      && |m.sh.life| == |sh.life| && m.sh.life == sh.life[c := m.sh.life[c]]
      && (m.sh.life[c] != sh.life[c] ==> InScheduler(k.top.pc) && m.sh.life[c] == SpotOf(k.top.pc).fly)
  {
    if InScheduler(k.top.pc) {
      SchedulerEffect(c, cp, k, sh);
      LifeWritten(c, cp, k, sh);
    } else {
      GuardEffect(c, cp, k, sh);
    }
  }

  lemma LifeWritten(c: nat, cp: Cpu, k: Stack, sh: Shared)
    requires k.Push? && Possible(c, cp, k.top.pc, sh) && InScheduler(k.top.pc)
    ensures var m := MoveOf(c, cp, k, sh);
      |m.sh.life| == |sh.life| && (m.sh.life[c] != sh.life[c] ==> m.sh.life[c] == SpotOf(k.top.pc).fly)
  {
  }

  lemma NeverBack(s: State, c: nat, a: Act, d: nat, t: nat)
    requires Inv(s) && Enabled(s, c, a) && Gone(s, t) && d < |s.sh.life| && s.sh.life[d] != Some(t)
    ensures d < |Next(s, c, a).sh.life| && Next(s, c, a).sh.life[d] != Some(t)
  {
    if a.Step? {
      LifeMove(c, s.cpu[c], Stk(s, c), s.sh);
      if InScheduler(TopPc(Stk(s, c))) {
        InsideHolds(Stk(s, c));
        FliesAlive(s, c);
      }
    }
  }

  // ---------- one step of the CPU itself ----------

  /** Eviction goes on after a move of the CPU that runs t: see `Evicting`. */
  ghost predicate GoesOn(c: nat, m: Move, rest: Stack, t: nat)
    requires c < |m.sh.life|
  {
    m.sh.life[c] == Some(t) ==>
      c in m.sh.ipi || ASSASSIN in m.cpu.queue || Evicts(m.pc) || EvictsOn(rest) || Halts(m.pc)
  }

  lemma RelayEvicts(c: nat, cp: Cpu, k: Stack, sh: Shared, t: nat)
    requires k.Push? && Possible(c, cp, k.top.pc, sh) && (Queueing(k.top.pc) || Relaying(k.top.pc))
    requires sh.life[c] == Some(t) && Evicts(k.top.pc)
    requires !(k.top.pc == QRead(ASSASSIN) && sh.gate[ASSASSIN].queued)
    ensures var m := MoveOf(c, cp, k, sh); |m.sh.life| == |sh.life| && GoesOn(c, m, k.rest, t)
  {
    if k.top.pc == Enqueue(ASSASSIN) { assert (cp.queue + [ASSASSIN])[|cp.queue|] == ASSASSIN; }
  }

  lemma SectionEvicts(c: nat, cp: Cpu, k: Stack, sh: Shared, t: nat)
    requires k.Push? && Possible(c, cp, k.top.pc, sh) && (Entering(k.top.pc) || Dequeueing(k.top.pc))
    requires sh.life[c] == Some(t) && Evicts(k.top.pc)
    ensures var m := MoveOf(c, cp, k, sh); |m.sh.life| == |sh.life| && GoesOn(c, m, k.rest, t)
  {
  }

  lemma SchedulerEvicts(c: nat, cp: Cpu, k: Stack, sh: Shared, t: nat)
    requires k.Push? && Possible(c, cp, k.top.pc, sh) && InScheduler(k.top.pc)
    requires sh.life[c] == Some(t) && t < |sh.thr| && sh.thr[t].kill && Evicts(k.top.pc)
    requires k.top.pc.AssassinTest? ==> k.top.pc.cur == t
    requires SpotOf(k.top.pc).fly != Some(t)
    ensures var m := MoveOf(c, cp, k, sh); |m.sh.life| == |sh.life| && GoesOn(c, m, k.rest, t)
  {
    if k.top.pc.Do? || k.top.pc.AssassinTest? { AssassinEvicts(c, cp, k, sh, t); }
    else { ResumeEvicts(c, cp, k, sh, t); }
  }

  lemma AssassinEvicts(c: nat, cp: Cpu, k: Stack, sh: Shared, t: nat)
    requires k.Push? && Possible(c, cp, k.top.pc, sh) && sh.life[c] == Some(t) && t < |sh.thr| && sh.thr[t].kill
    requires k.top.pc == Do(Epilogue(ASSASSIN)) || k.top.pc == AssassinTest(t)
    ensures var m := MoveOf(c, cp, k, sh); |m.sh.life| == |sh.life| && GoesOn(c, m, k.rest, t)
  {
  }

  lemma ResumeEvicts(c: nat, cp: Cpu, k: Stack, sh: Shared, t: nat)
    requires k.Push? && Possible(c, cp, k.top.pc, sh) && sh.life[c] == Some(t) && t < |sh.thr| && sh.thr[t].kill
    requires Resuming(k.top.pc) || k.top.pc.Dispatch? || k.top.pc.SetLife?
    requires SpotOf(k.top.pc).fly != Some(t)
    ensures var m := MoveOf(c, cp, k, sh); |m.sh.life| == |sh.life| && GoesOn(c, m, k.rest, t)
  {
  }

  /** The queue loses the assassin only to its epilogue. */
  lemma QueueEvicts(c: nat, cp: Cpu, k: Stack, sh: Shared, t: nat)
    requires k.Push? && Possible(c, cp, k.top.pc, sh) && Moves(k.top.pc) && ASSASSIN in cp.queue
    ensures var m := MoveOf(c, cp, k, sh); ASSASSIN in m.cpu.queue || Evicts(m.pc)
  {
    if InScheduler(k.top.pc) { SchedulerEffect(c, cp, k, sh); }
    else if k.top.pc.LeaveDequeue? { assert cp.queue == [cp.queue[0]] + cp.queue[1..]; }
    else { QueueKept(c, cp, k, sh); }
  }

  lemma QueueKept(c: nat, cp: Cpu, k: Stack, sh: Shared)
    requires k.Push? && Possible(c, cp, k.top.pc, sh) && Moves(k.top.pc)
    requires !InScheduler(k.top.pc) && !k.top.pc.LeaveDequeue?
    ensures cp.queue <= MoveOf(c, cp, k, sh).cpu.queue
  {
  }

  lemma ReadQueued(c: nat, cp: Cpu, k: Stack, sh: Shared)
    requires k.Push? && k.top.pc == QRead(ASSASSIN) && Possible(c, cp, k.top.pc, sh) && sh.gate[ASSASSIN].queued
    ensures MoveOf(c, cp, k, sh) == Move(cp, QWrite(ASSASSIN, false), sh)
  {
  }

  /** What the place of its thread says about a CPU inside an operation. */
  lemma PlaceOfDoomed(s: State, d: nat, t: nat)
    requires Inv(s) && d < |s.cpu| && Gone(s, t) && s.sh.life[d] == Some(t)
    ensures SpotOf(Sec(s, d)).fly != Some(t) && (Sec(s, d).AssassinTest? ==> Sec(s, d).cur == t)
  {
    FliesAlive(s, d);
    assert PlaceOk(s.sh, d, Spots(Secs(s))[d], Esps(s)[d]);
  }

  lemma TopEvicts(s: State, d: nat, t: nat)
    requires Inv(s) && Enabled(s, d, Step) && Gone(s, t) && s.sh.life[d] == Some(t) && Evicts(TopPc(Stk(s, d)))
    requires !(TopPc(Stk(s, d)) == QRead(ASSASSIN) && s.sh.gate[ASSASSIN].queued)
    ensures var m := StepMove(s, d); |m.sh.life| == |s.sh.life| && GoesOn(d, m, Stk(s, d).rest, t)
  {
    var k, cp := Stk(s, d), s.cpu[d];
    if InScheduler(k.top.pc) {
      InsideHolds(k);
      PlaceOfDoomed(s, d, t);
      SchedulerEvicts(d, cp, k, s.sh, t);
    } else if Queueing(k.top.pc) || Relaying(k.top.pc) {
      RelayEvicts(d, cp, k, s.sh, t);
    } else {
      NoLeaving(k.top.pc);
      SectionEvicts(d, cp, k, s.sh, t);
    }
  }

  lemma NoLeaving(pc: PC)
    requires Evicts(pc) && Moves(pc) && !InScheduler(pc) && !Queueing(pc) && !Relaying(pc)
    ensures Entering(pc) || Dequeueing(pc)
  {
  }

  lemma OwnMove(s: State, d: nat, t: nat)
    requires Inv(s) && Enabled(s, d, Step) && Gone(s, t) && s.sh.life[d] == Some(t) && Evicting(s, d, t)
    ensures var m := StepMove(s, d);
      |m.sh.life| == |s.sh.life| && (GoesOn(d, m, Stk(s, d).rest, t) <==> !Misses(s, d, Step, d))
  {
    var k, m, cp := Stk(s, d), StepMove(s, d), s.cpu[d];
    StepSizes(s, d);
    MovesGoOn(k.top.pc);
    IpiGrows(d, cp, k, s.sh);
    if ASSASSIN in cp.queue { QueueEvicts(d, cp, k, s.sh, t); }
    if k.top.pc == QRead(ASSASSIN) && s.sh.gate[ASSASSIN].queued { ReadQueued(d, cp, k, s.sh); }
    else if Evicts(k.top.pc) { TopEvicts(s, d, t); }
  }

  lemma MovesGoOn(pc: PC)
    ensures Moves(pc) ==> !Halts(pc)
    ensures !Evicts(QWrite(ASSASSIN, false)) && !Halts(QWrite(ASSASSIN, false))
  {
  }

  lemma OwnEviction(s: State, d: nat, t: nat)
    requires Inv(s) && Enabled(s, d, Step) && Gone(s, t) && s.sh.life[d] == Some(t) && Evicting(s, d, t)
    ensures Evicting(Next(s, d, Step), d, t) <==> !Misses(s, d, Step, d)
  {
    StepProjections(s, d);
    OwnMove(s, d, t);
  }

  // ---------- all other transitions ----------

  lemma OthersEvict(s: State, c: nat, a: Act, d: nat)
    requires Inv(s) && Enabled(s, c, a) && c != d && d < |s.cpu|
    ensures var s' := Next(s, c, a);
      && d < |s'.cpu| && Stk(s', d) == Stk(s, d) && s'.cpu[d] == s.cpu[d]
      && d < |s.sh.life| && d < |s'.sh.life| && s'.sh.life[d] == s.sh.life[d]
      && (d in s.sh.ipi ==> d in s'.sh.ipi)
  {
    if d in s.sh.ipi { IpiKept(s, c, a, d); }
    if a.Step? {
      StepProjections(s, c);
      LifeMove(c, s.cpu[c], Stk(s, c), s.sh);
    } else if a.Switch? {
      LoadedContext(s, c);
      SwitchStacks(s, c);
    } else {
      OtherStack(s, c, a, d);
    }
  }

  lemma OtherStack(s: State, c: nat, a: Act, d: nat)
    requires Stacks(s) && Enabled(s, c, a) && !a.Step? && !a.Switch? && c != d && d < |s.cpu|
    ensures var s' := Next(s, c, a);
      d < |s'.cpu| && Stk(s', d) == Stk(s, d) && s'.cpu[d] == s.cpu[d] && s'.sh.life == s.sh.life
  {
    assert Esps(s)[c] != Esps(s)[d];
  }

  /** The stack after an own transition other than a step or a switch. */
  lemma OwnStack(s: State, a: Act, d: nat)
    requires Enabled(s, d, a) && !a.Step? && !a.Switch?
    ensures var s', k := Next(s, d, a), Stk(s, d);
      && d < |s'.cpu| && s'.sh.life == s.sh.life && s'.cpu[d].queue == s.cpu[d].queue
      && (a.Interrupt? ==>
            s.cpu[d].ie && TopPc(Stk(s', d)) == Prologue(a.g) && Stk(s', d).Push? && Stk(s', d).rest == k)
      && (!a.Interrupt? ==> NewStack(k, Stk(s', d)))
      && (a != Interrupt(ASSASSIN) ==> s'.sh.ipi == s.sh.ipi)
  {
  }

  /** The same, without its handler on top, or with a new counter of level-0 code or a prologue. */
  predicate NewStack(k: Stack, k': Stack)
    requires k.Push?
  {
    || k' == k
    || (k.top.pc.Iret? && k' == k.rest)
    || (k'.Push? && k'.rest == k.rest && Replaced(k.top.pc, k'.top.pc))
  }

  predicate Replaced(pc: PC, pc': PC) {
    pc.Run? || (pc.Prologue? && (pc.g == ASSASSIN ==> pc' == TestFlag(ASSASSIN)))
  }

  lemma Quietly(k: Stack)
    requires k.Push?
    ensures k.top.pc.Run? || k.top.pc.Iret? || (k.top.pc.Prologue? && k.top.pc.g != ASSASSIN) ==>
      !Evicts(k.top.pc) && !Halts(k.top.pc)
    ensures Halts(k.top.pc) ==> Masked(k.top.pc) && !k.top.pc.Iret?
  {
  }

  lemma OwnOutsideEvicts(s: State, a: Act, d: nat, t: nat)
    requires Stacks(s) && Enabled(s, d, a) && !a.Step? && !a.Switch? && Evicting(s, d, t)
    ensures Evicting(Next(s, d, a), d, t)
  {
    assert CpuOk(s.cpu[d], Stk(s, d));
    OwnStack(s, a, d);
    Quietly(Stk(s, d));
  }

  /** A CPU about to load a thread already names it. */
  lemma LoadTakesOver(s: State, d: nat)
    requires Placement(s.sh, Secs(s), Esps(s)) && d < |s.cpu| && Sec(s, d).Load?
    ensures d < |s.sh.life| && s.sh.life[d] == SpotOf(Sec(s, d)).fly
  {
    assert PlaceOk(s.sh, d, Spots(Secs(s))[d], Esps(s)[d]);
    LoadRule(s.sh.life[d], Esps(s)[d], Sec(s, d));
  }

  lemma LoadRule(life: Option<nat>, x: Ctx, pc: PC)
    requires pc.Load? && LifeOk(life, x, SpotOf(pc).rule)
    ensures life == SpotOf(pc).fly
  {
  }

  /** So it is not about to load, or on, a killed thread that its life pointer names. */
  lemma NotLoading(s: State, d: nat, t: nat)
    requires Inv(s) && d < |s.cpu| && Gone(s, t) && s.sh.life[d] == Some(t)
    ensures !Enabled(s, d, Act.Switch)
  {
    PlaceOfDoomed(s, d, t);
    if TopPc(Stk(s, d)).Load? {
      LoadIsTop(Stk(s, d));
      LoadTakesOver(s, d);
    }
  }

  // ---------- in every run ----------

  /** Eviction is lost by a transition exactly if the CPU misses its request there. */
  lemma EvictionStep(s: State, c: nat, a: Act, d: nat, t: nat)
    requires Inv(s) && Enabled(s, c, a) && Gone(s, t) && Evicting(s, d, t)
    ensures Evicting(Next(s, c, a), d, t) <==> !(s.sh.life[d] == Some(t) && Misses(s, c, a, d))
  {
    if s.sh.life[d] != Some(t) {
      NeverBack(s, c, a, d, t);
      SameCpus(s, c, a);
    }
    else if c != d { OthersEvict(s, c, a, d); }
    else if a.Step? { OwnEviction(s, d, t); }
    else {
      NotLoading(s, d, t);
      OwnOutsideEvicts(s, a, d, t);
    }
  }

  /** At transition m CPU d, which runs t, misses the request to evict it. */
  ghost predicate LostAt(r: Run, m: nat, d: nat, t: nat)
    requires Execution(r)
  {
    && m < |r.who| && d < |r.states[m].sh.life| && r.states[m].sh.life[d] == Some(t)
    && Misses(r.states[m], r.who[m], r.acts[m], d)
  }

  /** Transition i of a run sends the interrupt of kill(t), which runs on CPU d. */
  ghost predicate Condemns(r: Run, i: nat, d: nat, t: nat)
    requires Execution(r)
  {
    && i < |r.who| && r.acts[i].Step? && r.who[i] < |r.states[i].cpu| && TopPc(Stk(r.states[i], r.who[i])) == KillIpi(t)
    && d < |r.states[i].sh.life| && r.states[i].sh.life[d] == Some(t)
  }

  lemma EvictionStarts(r: Run, i: nat, d: nat, t: nat)
    requires FromBoot(r) && Condemns(r, i, d, t) && |r.states[i].cpu| <= 8
    ensures Gone(r.states[i + 1], t) && Evicting(r.states[i + 1], d, t)
  {
    Transition(r, i);
    KillSendsInterrupt(r, i, t);
    RemovedIsGone(r.states[i], r.who[i], t);
    GoneStep(r.states[i], r.who[i], r.acts[i], t);
    SameCpus(r.states[i], r.who[i], r.acts[i]);
  }

  lemma RemovedIsGone(s: State, c: nat, t: nat)
    requires Inv(s) && c < |s.cpu| && TopPc(Stk(s, c)) == KillIpi(t)
    ensures Gone(s, t) && |s.sh.life| == |s.cpu|
  {
    InsideHolds(Stk(s, c));
    assert Spots(Secs(s))[c].removed == Some(t);
    assert PlaceOk(s.sh, c, Spots(Secs(s))[c], Esps(s)[c]);
  }

  lemma EvictionNext(r: Run, m: nat, d: nat, t: nat)
    requires FromBoot(r) && m < |r.who| && Gone(r.states[m], t) && Evicting(r.states[m], d, t)
    ensures Evicting(r.states[m + 1], d, t) <==> !LostAt(r, m, d, t)
  {
    Transition(r, m);
    EvictionStep(r.states[m], r.who[m], r.acts[m], d, t);
  }

  lemma {:induction false} EvictionUntil(r: Run, i: nat, j: nat, d: nat, t: nat)
    requires FromBoot(r) && i < j < |r.states| && Gone(r.states[i + 1], t) && Evicting(r.states[i + 1], d, t)
    requires forall m: nat :: i < m < j ==> !LostAt(r, m, d, t)
    ensures Evicting(r.states[j], d, t)
  {
    if i + 1 < j {
      EvictionUntil(r, i, j - 1, d, t);
      GoneForever(r, i + 1, j - 1, t);
      assert !LostAt(r, j - 1, d, t);
      EvictionNext(r, j - 1, d, t);
    }
  }

  /** After kill(t), while t keeps running on CPU d, its eviction stays under way in every state of
      the run if and only if d never misses the request. */
  lemma EvictionExactly(r: Run, i: nat, j: nat, d: nat, t: nat)
    requires FromBoot(r) && i < j < |r.states| && Condemns(r, i, d, t) && |r.states[i].cpu| <= 8
    ensures (forall m: nat :: i < m <= j ==> Evicting(r.states[m], d, t))
            <==> (forall m: nat :: i < m < j ==> !LostAt(r, m, d, t))
  {
    EvictionStarts(r, i, d, t);
    if forall m: nat :: i < m < j ==> !LostAt(r, m, d, t) {
      forall m: nat | i < m <= j ensures Evicting(r.states[m], d, t) { EvictionUntil(r, i, m, d, t); }
    } else {
      var m: nat :| i < m < j && LostAt(r, m, d, t);
      GoneForever(r, i + 1, m, t);
      if Evicting(r.states[m], d, t) { EvictionNext(r, m, d, t); }
      assert !Evicting(r.states[m], d, t) || !Evicting(r.states[m + 1], d, t);
    }
  }

  /** A request is missed only because the gate is in another CPU's hands. */
  lemma MissedForAnother(r: Run, m: nat, d: nat, t: nat)
    requires FromBoot(r) && LostAt(r, m, d, t)
    ensures exists e: nat :: e < |r.states[m].cpu| && e != d && Marks(r.states[m], e, ASSASSIN)
  {
    QueueFlagExact(r, m, ASSASSIN);
    var e: nat :| e < |r.states[m].cpu| && Marks(r.states[m], e, ASSASSIN);
  }
}
