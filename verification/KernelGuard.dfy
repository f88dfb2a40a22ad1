/** The prologue/epilogue model: flags, epilogue queues, and no request is lost. */
module KernelGuard {
  import opened KernelState
  import opened KernelInvariant
  import opened KernelStacks
  import opened KernelGates
  import opened KernelSafety
  import opened KernelInduction
  import opened KernelTheorems

  // ---------- the guard's state ----------

  /** A CPU with its flag down has an empty queue and no ticket, except in the two masked
      instructions between clearing the flag and releasing the lock. */
  ghost predicate GuardOk(s: State, c: nat)
    requires c < |s.cpu|
  {
    var cp, sec := s.cpu[c], Sec(s, c);
    && (cp.flag <==> FlagUp(sec))
    && (!cp.flag ==> cp.queue == [] && (!Ticketed(sec) || ((sec.LeaveRead? || sec.LeaveTurn?) && !cp.ie)))
  }

  lemma GuardState(r: Run, i: nat, c: nat)
    requires FromBoot(r) && i < |r.states| && c < |r.states[i].cpu|
    ensures GuardOk(r.states[i], c)
  {
    Always(r, i);
    assert CpuOk(r.states[i].cpu[c], Stk(r.states[i], c));
    MaskedSection(Stk(r.states[i], c));
  }

  lemma MaskedSection(k: Stack)
    requires k.Push? && Shape(k)
    ensures Masked(SecPc(k)) ==> SecPc(k) == k.top.pc
  {
    if !InSection(k.top.pc) { SectionUnmasked(k.rest); }
  }

  /** CPU c has gate g in its queue, or is between set_queued and enqueue, or between dequeue
      and set_dequeued. */
  ghost predicate Marks(s: State, c: nat, g: nat)
    requires c < |s.cpu|
  {
    g in s.cpu[c].queue || GripOf(TopPc(Stk(s, c))).window == Some(g)
  }

  /** queue_flag is exact, and on the whole machine a gate is marked by one CPU, in one way. */
  lemma QueueFlagExact(r: Run, i: nat, g: nat)
    requires FromBoot(r) && i < |r.states| && g < |r.states[i].sh.gate|
    ensures var s := r.states[i];
      s.sh.gate[g].queued <==> exists c: nat :: c < |s.cpu| && Marks(s, c, g)
  {
    Always(r, i);
    FlagExact(r.states[i], g);
  }

  lemma FlagExact(s: State, g: nat)
    requires Gates(s.sh.gate, Tops(s), Queues(s)) && g < |s.sh.gate|
    ensures s.sh.gate[g].queued <==> exists c: nat :: c < |s.cpu| && Marks(s, c, g)
  {
    var grips, queues := Grips(Tops(s)), Queues(s);
    assert GateOk(s.sh.gate[g], g, grips, queues);
    if s.sh.gate[g].queued {
      var c: nat :| c < |grips| && Carries(queues[c], grips[c], g);
      assert Marks(s, c, g);
    }
    forall c: nat | c < |s.cpu| && Marks(s, c, g) ensures s.sh.gate[g].queued {
      assert GripOk(s.sh.gate, c, grips[c], queues[c]);
    }
  }

  lemma QueuedOnce(r: Run, i: nat, c: nat, d: nat, g: nat)
    requires FromBoot(r) && i < |r.states| && c < |r.states[i].cpu| && d < |r.states[i].cpu|
    requires Marks(r.states[i], c, g) && Marks(r.states[i], d, g)
    ensures c == d && NoDup(r.states[i].cpu[c].queue)
    ensures g in r.states[i].cpu[c].queue ==> GripOf(TopPc(Stk(r.states[i], c))).window != Some(g)
  {
    Always(r, i);
    var s := r.states[i];
    var grips, queues := Grips(Tops(s)), Queues(s);
    assert Carries(queues[c], grips[c], g) && Carries(queues[d], grips[d], g);
    assert GripOk(s.sh.gate, c, grips[c], queues[c]);
  }

  // ---------- no queued epilogue is lost ----------

  /** An epilogue of gate g is still to start on a CPU with this queue and stack. */
  ghost predicate Owes(queue: seq<nat>, k: Stack, g: nat) {
    g in queue || TopPc(k) == QUnlock(g, true) || TopPc(k) == Enqueue(g) || AboutTo(SecPc(k), g)
  }

  /** Dequeued, and its epilogue is the section's next body. */
  predicate AboutTo(pc: PC, g: nat) {
    pc == DLock(g) || pc == DClear(g) || pc == DUnlock(g) || pc == DOn(g) || pc == Do(Epilogue(g))
  }

  ghost predicate Owed(s: State, d: nat, g: nat) {
    d < |s.cpu| && Owes(s.cpu[d].queue, Stk(s, d), g)
  }

  lemma OwingKeepsFlag(s: State, d: nat, g: nat)
    requires Stacks(s) && Owed(s, d, g)
    ensures s.cpu[d].flag
  {
    assert CpuOk(s.cpu[d], Stk(s, d));
  }

  /** Starting the epilogue of gate g on CPU d. */
  ghost predicate Starts(s: State, c: nat, a: Act, d: nat, g: nat) {
    c == d && c < |s.cpu| && a.Step? && TopPc(Stk(s, c)) == Do(Epilogue(g))
  }

  lemma OwesRelay(c: nat, cp: Cpu, k: Stack, sh: Shared, g: nat)
    requires k.Push? && Possible(c, cp, k.top.pc, sh) && (Queueing(k.top.pc) || Relaying(k.top.pc))
    requires Owes(cp.queue, k, g)
    ensures var m := MoveOf(c, cp, k, sh); Owes(m.cpu.queue, Landed(k, m), g)
  {
    if k.top.pc == Enqueue(g) { assert (cp.queue + [g])[|cp.queue|] == g; }
  }

  lemma OwesDequeued(c: nat, cp: Cpu, k: Stack, sh: Shared, g: nat)
    requires k.Push? && Possible(c, cp, k.top.pc, sh) && Dequeueing(k.top.pc)
    requires Owes(cp.queue, k, g)
    ensures var m := DequeuedMove(c, cp, k.top.pc, sh); Owes(m.cpu.queue, Landed(k, m), g)
  {
  }

  lemma OwesLeave(cp: Cpu, k: Stack, sh: Shared, g: nat)
    requires k.Push? && Leaving(k.top.pc) && Shape(k)
    requires Owes(cp.queue, k, g)
    ensures var m := LeaveMove(cp, k.top.pc, sh, k.top.kind); Owes(m.cpu.queue, Landed(k, m), g)
  {
    if k.top.pc.LeaveDequeue? && cp.queue != [] { assert cp.queue == [cp.queue[0]] + cp.queue[1..]; }
  }

  lemma OwesEnter(c: nat, cp: Cpu, k: Stack, sh: Shared, g: nat)
    requires k.Push? && Entering(k.top.pc) && Shape(k) && Owes(cp.queue, k, g)
    ensures var m := EnterMove(c, cp, k.top.pc, sh); Owes(m.cpu.queue, Landed(k, m), g)
  {
  }

  /** The CPU's own steps: gates go into the queue and come out of it, in order, to be run. */
  lemma OwesMove(c: nat, cp: Cpu, k: Stack, sh: Shared, g: nat)
    requires k.Push? && Possible(c, cp, k.top.pc, sh) && Shape(k) && Moves(k.top.pc)
    requires Owes(cp.queue, k, g) && k.top.pc != Do(Epilogue(g))
    ensures var m := MoveOf(c, cp, k, sh); Owes(m.cpu.queue, Landed(k, m), g)
  {
    var pc := k.top.pc;
    if InScheduler(pc) { SchedulerEffect(c, cp, k, sh); }
    else if Queueing(pc) || Relaying(pc) { OwesRelay(c, cp, k, sh, g); }
    else if Entering(pc) { OwesEnter(c, cp, k, sh, g); }
    else if Dequeueing(pc) { OwesDequeued(c, cp, k, sh, g); }
    else { OwesLeave(cp, k, sh, g); }
  }

  lemma OwedStep(s: State, c: nat, a: Act, d: nat, g: nat)
    requires Inv(s) && Enabled(s, c, a) && Owed(s, d, g) && !Starts(s, c, a, d, g)
    ensures Owed(Next(s, c, a), d, g)
  {
    if a.Step? { OwedPlain(s, c, d, g); }
    else if a.Switch? { OwedSwitch(s, c, d, g); }
    else { OwedOutside(s, c, a, d, g); }
  }

  lemma OwedPlain(s: State, c: nat, d: nat, g: nat)
    requires Stacks(s) && Enabled(s, c, Step) && Owed(s, d, g) && !Starts(s, c, Step, d, g)
    ensures Owed(Next(s, c, Step), d, g)
  {
    assert CpuOk(s.cpu[c], Stk(s, c));
    StepProjections(s, c);
    if c == d { OwesMove(c, s.cpu[c], Stk(s, c), s.sh, g); }
  }

  lemma OwedSwitch(s: State, c: nat, d: nat, g: nat)
    requires Stacks(s) && Placement(s.sh, Secs(s), Esps(s)) && Contexts(s) && Enabled(s, c, Switch) && Owed(s, d, g)
    ensures Owed(Next(s, c, Switch), d, g)
  {
    LoadedContext(s, c);
    SwitchStacks(s, c);
    assert Queues(Next(s, c, Switch))[d] == Queues(s)[d];
  }

  lemma OwedOutside(s: State, c: nat, a: Act, d: nat, g: nat)
    requires Stacks(s) && Enabled(s, c, a) && !a.Step? && !a.Switch? && Owed(s, d, g)
    ensures Owed(Next(s, c, a), d, g)
  {
    var s' := Next(s, c, a);
    OutsideProjections(s, c, a);
    assert CpuOk(s.cpu[c], Stk(s, c));
    assert Queues(s')[d] == Queues(s)[d] && Secs(s')[d] == Secs(s)[d];
    if d != c { assert Esps(s)[d] != Esps(s)[c]; }
  }

  /** At its write of queue_flag, a request is on record: as this CPU's own entry, or because
      the gate is on its way to an epilogue on some CPU already. */
  lemma RequestRecorded(s: State, c: nat, g: nat, st: bool) returns (d: nat)
    requires Inv(s) && Enabled(s, c, Step) && TopPc(Stk(s, c)) == QWrite(g, st)
    ensures Owed(Next(s, c, Step), d, g)
    ensures st ==> d == c
  {
    StepProjections(s, c);
    if st { d := c; }
    else {
      d := Recorder(s, c, g);
      if d != c { assert Queues(Next(s, c, Step))[d] == Queues(s)[d]; }
    }
  }

  lemma Recorder(s: State, c: nat, g: nat) returns (d: nat)
    requires Stacks(s) && Gates(s.sh.gate, Tops(s), Queues(s)) && c < |s.cpu| && TopPc(Stk(s, c)) == QWrite(g, false)
    ensures Owed(s, d, g) && (d == c ==> g in s.cpu[c].queue)
  {
    var grips, queues := Grips(Tops(s)), Queues(s);
    assert GripOk(s.sh.gate, c, grips[c], queues[c]);
    assert GateOk(s.sh.gate[g], g, grips, queues);
    d :| d < |grips| && Carries(queues[d], grips[d], g);
    assert CpuOk(s.cpu[d], Stk(s, d));
    CarriesOwes(queues[d], Stk(s, d), g);
  }

  lemma CarriesOwes(queue: seq<nat>, k: Stack, g: nat)
    requires k.Push? && Carries(queue, GripOf(k.top.pc), g)
    ensures Owes(queue, k, g)
  {
    if g !in queue { WindowPc(k.top.pc, g); }
  }

  lemma WindowPc(pc: PC, g: nat)
    requires GripOf(pc).window == Some(g)
    ensures pc == QUnlock(g, true) || pc == Enqueue(g) || (InSection(pc) && AboutTo(pc, g))
  {
  }

  /** The epilogue of g starts on CPU d after transition i and before state j. */
  ghost predicate Served(r: Run, i: nat, j: nat, d: nat, g: nat)
    requires |r.states| == |r.who| + 1 == |r.acts| + 1
  {
    exists m: nat :: i < m < j && m < |r.who| && Starts(r.states[m], r.who[m], r.acts[m], d, g)
  }

  lemma ServedLater(r: Run, i: nat, j: nat, d: nat, g: nat)
    requires |r.states| == |r.who| + 1 == |r.acts| + 1 && i + 1 < j < |r.states|
    requires Served(r, i, j - 1, d, g) || Starts(r.states[j - 1], r.who[j - 1], r.acts[j - 1], d, g)
    ensures Served(r, i, j, d, g)
  {
    if Served(r, i, j - 1, d, g) {
      var m: nat :| i < m < j - 1 && m < |r.who| && Starts(r.states[m], r.who[m], r.acts[m], d, g);
      assert i < m < j;
    }
  }

  lemma OwedNext(r: Run, j: nat, d: nat, g: nat)
    requires FromBoot(r) && j < |r.who| && Owed(r.states[j], d, g)
    ensures Starts(r.states[j], r.who[j], r.acts[j], d, g) || Owed(r.states[j + 1], d, g)
  {
    Transition(r, j);
    if !Starts(r.states[j], r.who[j], r.acts[j], d, g) { OwedStep(r.states[j], r.who[j], r.acts[j], d, g); }
  }

  lemma {:induction false} StillOwed(r: Run, i: nat, j: nat, d: nat, g: nat)
    requires FromBoot(r) && i < j < |r.states| && Owed(r.states[i + 1], d, g)
    ensures Served(r, i, j, d, g) || Owed(r.states[j], d, g)
  {
    if i + 1 < j {
      StillOwed(r, i, j - 1, d, g);
      if Served(r, i, j - 1, d, g) { ServedLater(r, i, j, d, g); }
      else {
        OwedNext(r, j - 1, d, g);
        if Starts(r.states[j - 1], r.who[j - 1], r.acts[j - 1], d, g) { ServedLater(r, i, j, d, g); }
      }
    }
  }

  /** From transition i on, CPU d owes an epilogue of g; at every later state it has started
      one, or still owes it and its flag is up. */
  ghost predicate Kept(r: Run, i: nat, d: nat, g: nat)
    requires |r.states| == |r.who| + 1 == |r.acts| + 1
  {
    forall j: nat :: i < j < |r.states| ==>
      Served(r, i, j, d, g) || (Owed(r.states[j], d, g) && r.states[j].cpu[d].flag)
  }

  lemma WriteNotLost(r: Run, i: nat, c: nat, g: nat, st: bool)
    requires FromBoot(r) && i < |r.who| && r.who[i] == c < |r.states[i].cpu| && r.acts[i].Step?
    requires TopPc(Stk(r.states[i], c)) == QWrite(g, st)
    ensures exists d: nat :: Kept(r, i, d, g)
  {
    Transition(r, i);
    var d := RequestRecorded(r.states[i], c, g, st);
    forall j: nat | i < j < |r.states|
      ensures Served(r, i, j, d, g) || (Owed(r.states[j], d, g) && r.states[j].cpu[d].flag)
    {
      StillOwed(r, i, j, d, g);
      Always(r, j);
      if Owed(r.states[j], d, g) { OwingKeepsFlag(r.states[j], d, g); }
    }
    assert Kept(r, i, d, g);
  }

  /** CPU c is about to find its flag up, or in set_queued for gate g, its write of queue_flag still ahead. */
  ghost predicate Requesting(s: State, c: nat, g: nat) {
    c < |s.cpu| &&
    var pc := TopPc(Stk(s, c));
    || (pc == TestFlag(g) && s.cpu[c].flag)
    || pc == QLock(g) || pc == QRead(g) || pc == QWrite(g, true) || pc == QWrite(g, false)
  }

  /** CPU c writes queue_flag of gate g. */
  ghost predicate Writes(s: State, e: nat, a: Act, c: nat, g: nat) {
    e == c < |s.cpu| && a.Step? && (TopPc(Stk(s, c)) == QWrite(g, true) || TopPc(Stk(s, c)) == QWrite(g, false))
  }

  lemma RequestStep(s: State, e: nat, a: Act, c: nat, g: nat)
    requires Inv(s) && Enabled(s, e, a) && Requesting(s, c, g)
    ensures Requesting(Next(s, e, a), c, g) || Writes(s, e, a, c, g)
  {
    assert CpuOk(s.cpu[c], Stk(s, c));
    if a.Step? { StepProjections(s, e); }
    else if a.Switch? { RequestSwitch(s, e, c, g); }
    else if e != c { RequestOutside(s, e, a, c, g); }
  }

  lemma RequestSwitch(s: State, e: nat, c: nat, g: nat)
    requires Inv(s) && Enabled(s, e, Switch) && Requesting(s, c, g)
    ensures Requesting(Next(s, e, Switch), c, g)
  {
    LoadedContext(s, e);
    SwitchStacks(s, e);
  }

  lemma RequestOutside(s: State, e: nat, a: Act, c: nat, g: nat)
    requires Stacks(s) && Enabled(s, e, a) && !a.Step? && !a.Switch? && Requesting(s, c, g) && e != c
    ensures Requesting(Next(s, e, a), c, g)
  {
    assert Esps(s)[e] != Esps(s)[c];
  }

  lemma RequestBegins(r: Run, i: nat, c: nat, g: nat)
    requires FromBoot(r) && i < |r.who| && r.who[i] == c < |r.states[i].cpu| && r.acts[i] == Outcome(true)
    requires TopPc(Stk(r.states[i], c)) == Prologue(g) && r.states[i].cpu[c].flag
    ensures Requesting(r.states[i + 1], c, g)
  {
    Transition(r, i);
    assert CpuOk(r.states[i].cpu[c], Stk(r.states[i], c));
  }

  /** No queued epilogue is lost. A prologue of gate g that asks for its epilogue while its CPU's flag is up,
      whether it queues the gate or finds it queued (perhaps by another CPU), has its CPU on the way to the
      write of queue_flag; from then on an epilogue of that gate is owed by one CPU until it starts there, and
      meanwhile that CPU cannot clear its flag. */
  lemma {:induction false} RequestNotLost(r: Run, i: nat, n: nat, c: nat, g: nat)
    requires FromBoot(r) && i < n < |r.states| && r.who[i] == c < |r.states[i].cpu| && r.acts[i] == Outcome(true)
    requires TopPc(Stk(r.states[i], c)) == Prologue(g) && r.states[i].cpu[c].flag
    ensures Requesting(r.states[n], c, g)
            || exists m: nat, d: nat :: i < m < n && Writes(r.states[m], r.who[m], r.acts[m], c, g) && Kept(r, m, d, g)
  {
    if n == i + 1 {
      RequestBegins(r, i, c, g);
    } else {
      RequestNotLost(r, i, n - 1, c, g);
      if Requesting(r.states[n - 1], c, g) { RequestNext(r, n - 1, c, g); }
    }
  }

  lemma RequestNext(r: Run, m: nat, c: nat, g: nat)
    requires FromBoot(r) && m < |r.who| && Requesting(r.states[m], c, g)
    ensures Requesting(r.states[m + 1], c, g)
            || (Writes(r.states[m], r.who[m], r.acts[m], c, g) && exists d: nat :: Kept(r, m, d, g))
  {
    Transition(r, m);
    RequestStep(r.states[m], r.who[m], r.acts[m], c, g);
    if Writes(r.states[m], r.who[m], r.acts[m], c, g) { WriteNotLost(r, m, c, g, TopPc(Stk(r.states[m], c)).status); }
  }
}
