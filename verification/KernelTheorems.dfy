/** What the kernel guarantees in every run. */
module KernelTheorems {
  import opened KernelState
  import opened KernelInvariant
  import opened KernelStacks
  import opened KernelTickets
  import opened KernelGates
  import opened KernelPlacement
  import opened KernelSafety
  import opened KernelInduction

  /** A finite run: who moves, and how, at each transition. */
  datatype Run = Run(states: seq<State>, who: seq<nat>, acts: seq<Act>)

  ghost predicate Execution(r: Run) {
    && |r.states| == |r.who| + 1 == |r.acts| + 1
    && forall i: nat :: i < |r.who| ==> TransitionAt(r, i)
  }

  ghost predicate TransitionAt(r: Run, i: nat)
    requires i < |r.who| && |r.states| == |r.who| + 1 == |r.acts| + 1
  {
    Enabled(r.states[i], r.who[i], r.acts[i]) && r.states[i + 1] == Next(r.states[i], r.who[i], r.acts[i])
  }

  ghost predicate FromBoot(r: Run) {
    Execution(r) && Init(r.states[0])
  }

  lemma {:induction false} Always(r: Run, i: nat)
    requires FromBoot(r) && i < |r.states|
    ensures Inv(r.states[i])
  {
    if i == 0 { InitInv(r.states[0]); }
    else {
      Always(r, i - 1);
      assert TransitionAt(r, i - 1);
      NextInv(r.states[i - 1], r.who[i - 1], r.acts[i - 1]);
    }
  }

  /** Two consecutive states of a run. */
  lemma Transition(r: Run, i: nat)
    requires FromBoot(r) && i < |r.who|
    ensures Inv(r.states[i]) && Enabled(r.states[i], r.who[i], r.acts[i])
    ensures r.states[i + 1] == Next(r.states[i], r.who[i], r.acts[i]) && Inv(r.states[i + 1])
  {
    assert TransitionAt(r, i);
    Always(r, i);
    Always(r, i + 1);
  }

  // ---------- mutual exclusion ----------

  lemma MutualExclusion(r: Run, i: nat, c: nat, d: nat)
    requires FromBoot(r) && i < |r.states| && c < |r.states[i].cpu| && d < |r.states[i].cpu|
    requires Holds(Sec(r.states[i], c)) && Holds(Sec(r.states[i], d))
    ensures c == d
  {
    Always(r, i);
    OneHolder(r.states[i].sh, Secs(r.states[i]), c, d);
  }

  /** The lock is never leaked, by a switch, a kill or a wrapped counter. */
  lemma LockNeverLost(r: Run, i: nat)
    requires FromBoot(r) && i < |r.states|
    ensures LockAlive(r.states[i])
  {
    Always(r, i);
    HeadAlive(r.states[i]);
  }

  /** The counters agree exactly when no CPU has a ticket; and whenever a CPU waits, the lock is
      either held by a CPU that is inside its section, or it is some waiting CPU's turn. */
  ghost predicate LockAlive(s: State) {
    && (s.sh.ticket == s.sh.turn <==> forall c: nat :: c < |s.cpu| ==> !Ticketed(Sec(s, c)))
    && (s.sh.ticket != s.sh.turn ==> exists d: nat :: d < |s.cpu| && HasTurn(s, d))
  }

  lemma HeadAlive(s: State)
    requires Tickets(s.sh, Secs(s))
    ensures LockAlive(s)
  {
    LockWitness(s.sh, Secs(s));
    assert forall c: nat :: c < |s.cpu| ==> Secs(s)[c] == Sec(s, c);
    if s.sh.waiting != [] { assert HasTurn(s, s.sh.waiting[0]); }
  }

  lemma LockWitness(sh: Shared, secs: seq<PC>)
    requires Tickets(sh, secs)
    ensures sh.ticket == sh.turn <==> sh.waiting == []
    ensures sh.waiting == [] <==> forall c: nat :: c < |secs| ==> !Ticketed(secs[c])
    ensures sh.waiting != [] ==> sh.waiting[0] < |secs| && TurnOf(secs[sh.waiting[0]], sh.turn)
  {
    var claims, w := Claims(secs), sh.waiting;
    Pigeonhole(w, |claims|);
    assert forall c: nat :: c < |secs| && Ticketed(secs[c]) ==> !claims[c].Nothing? && c in w;
    if w != [] { assert WaiterOk(sh.turn, 0, w[0], claims); }
  }

  ghost predicate HasTurn(s: State, d: nat)
    requires d < |s.cpu|
  {
    TurnOf(Sec(s, d), s.sh.turn)
  }

  predicate TurnOf(pc: PC, turn: nat) {
    Holds(pc) || (pc.Spin? && pc.ticket == turn)
  }

  // ---------- context integrity ----------

  /** No two CPUs ever run on one stack. */
  lemma StacksExclusive(r: Run, i: nat, c: nat, d: nat)
    requires FromBoot(r) && i < |r.states| && c < d < |r.states[i].cpu|
    ensures r.states[i].cpu[c].esp != r.states[i].cpu[d].esp
  {
    Always(r, i);
    assert Esps(r.states[i])[c] != Esps(r.states[i])[d];
  }

  /** Whenever the lock is not held, every thread in the ready list is off all CPUs and
      completely saved.  (Between re-queueing and saving a thread, the lock is held.) */
  lemma ReadyThreadsSaved(r: Run, i: nat, t: nat)
    requires FromBoot(r) && i < |r.states| && t in r.states[i].sh.jobs
    requires forall c: nat :: c < |r.states[i].cpu| ==> !Holds(Sec(r.states[i], c))
    ensures SavedThread(r.states[i], t)
  {
    Always(r, i);
    OffAllCpus(r.states[i], t);
  }

  /** Saved registers, stack pointer and stack are those of the last call of toc_switch. */
  ghost predicate SavedThread(s: State, t: nat) {
    && t < |s.sh.thr| && Thr(t) !in Esps(s) && Thr(t) in s.stk && s.stk[Thr(t)].Push?
    && s.sh.thr[t].toc == Toc(s.sh.thr[t].callRegs, Thr(t))
    && Returned(s.stk[Thr(t)]) == s.sh.thr[t].callStack
  }

  lemma OffAllCpus(s: State, t: nat)
    requires Placement(s.sh, Secs(s), Esps(s)) && Contexts(s) && t in s.sh.jobs
    requires forall c: nat :: c < |s.cpu| ==> !Holds(Sec(s, c))
    ensures SavedThread(s, t)
  {
    var j: nat :| j < |s.sh.jobs| && s.sh.jobs[j] == t;
    assert JobOk(s.sh, Spots(Secs(s)), s.sh.jobs[j]);
    forall c: nat | c < |s.cpu| ensures Esps(s)[c] != Thr(t) {
      assert PlaceOk(s.sh, c, Spots(Secs(s))[c], Esps(s)[c]);
      NotHolding(Sec(s, c));
    }
  }

  lemma NotHolding(pc: PC)
    requires !Holds(pc)
    ensures SpotOf(pc) == NEUTRAL
  {
  }

  /** Transition i of a run is CPU c's call of toc_switch away from thread t. */
  ghost predicate CallsSwitch(r: Run, i: nat, c: nat, t: nat)
    requires Execution(r)
  {
    i < |r.who| && r.who[i] == c && Calling(r.states[i], c, r.acts[i], t)
  }

  ghost predicate Calling(s: State, c: nat, a: Act, t: nat) {
    c < |s.cpu| && a.Step?
    && TopPc(Stk(s, c)).SetOn? && TopPc(Stk(s, c)).prev == Some(t) && TopPc(Stk(s, c)).succ.Some?
  }

  /** Transition i of a run loads thread t on CPU c. */
  ghost predicate Loads(r: Run, i: nat, c: nat, t: nat)
    requires Execution(r)
  {
    i < |r.who| && r.who[i] == c && Loading(r.states[i], c, r.acts[i], t)
  }

  ghost predicate Loading(s: State, c: nat, a: Act, t: nat) {
    c < |s.cpu| && a.Switch? && TopPc(Stk(s, c)).Load? && TopPc(Stk(s, c)).next == t
  }

  /** Nobody executes thread t, except a CPU on its way out of it. */
  ghost predicate Away(s: State, t: nat) {
    forall c: nat :: c < |s.cpu| && s.cpu[c].esp == Thr(t) ==> Leaver(Sec(s, c)) == Some(t)
  }

  ghost predicate Remembers(s: State, t: nat, regs: int, k: Stack) {
    t < |s.sh.thr| && s.sh.thr[t].callRegs == regs && s.sh.thr[t].callStack == k
  }

  lemma AwayStep(s: State, c: nat, a: Act, t: nat, regs: int, k: Stack)
    requires Inv(s) && Enabled(s, c, a) && Away(s, t) && Remembers(s, t, regs, k)
    requires !Loading(s, c, a, t)
    ensures Away(Next(s, c, a), t) && Remembers(Next(s, c, a), t, regs, k)
  {
    if a.Step? { AwayPlain(s, c, t, regs, k); }
    else if a.Switch? { AwaySwitch(s, c, t); }
    else { AwayOutside(s, c, a, t); }
  }

  lemma AwaySwitch(s: State, c: nat, t: nat)
    requires Inv(s) && Enabled(s, c, Switch) && Away(s, t) && TopPc(Stk(s, c)).next != t
    ensures Away(Next(s, c, Switch), t) && Next(s, c, Switch).sh == s.sh
  {
    var s' := Next(s, c, Switch);
    LoadedContext(s, c);
    SwitchStacks(s, c);
    assert s'.cpu[c].esp == Thr(TopPc(Stk(s, c)).next);
    forall d: nat | d < |s'.cpu| && s'.cpu[d].esp == Thr(t) ensures Leaver(Sec(s', d)) == Some(t) {
      assert d != c ==> Esps(s')[d] == Esps(s)[d] && Secs(s')[d] == Secs(s)[d];
    }
  }

  /** Transitions other than plain steps and switches stay where they are in the section. */
  lemma OutsideProjections(s: State, c: nat, a: Act)
    requires Stacks(s) && Enabled(s, c, a) && !a.Step? && !a.Switch?
    ensures var s' := Next(s, c, a);
      Secs(s') == Secs(s) && Esps(s') == Esps(s) && Queues(s') == Queues(s)
      && s'.sh == s.sh.(ipi := s'.sh.ipi) && s'.cpu[c].flag == s.cpu[c].flag
  {
    var s', cp, k := Next(s, c, a), s.cpu[c], Stk(s, c);
    assert CpuOk(cp, k);
    match a {
      case Interrupt(g) => PutProjections(s, c, cp.(ie := false), Push(Frame(Isr(cp.regs), Prologue(g)), k), s'.sh);
      case Compute(r) => PutProjections(s, c, cp.(regs := r), k, s.sh);
      case Syscall(op) => PutProjections(s, c, cp, Push(Frame(k.top.kind, EnterOff(Call(op))), k.rest), s.sh);
      case Outcome(b) =>
        PutProjections(s, c, cp, Push(Frame(k.top.kind, if b then TestFlag(k.top.pc.g) else Tail), k.rest), s.sh);
      case Return => PutProjections(s, c, cp.(ie := true, regs := k.top.kind.regs), k.rest, s.sh);
    }
    assert Secs(s') == Secs(s) && Queues(s') == Queues(s);
  }

  lemma AwayOutside(s: State, c: nat, a: Act, t: nat)
    requires Stacks(s) && Enabled(s, c, a) && Away(s, t) && !a.Step? && !a.Switch?
    ensures Away(Next(s, c, a), t) && Next(s, c, a).sh.thr == s.sh.thr
  {
    var s' := Next(s, c, a);
    OutsideProjections(s, c, a);
    forall d: nat | d < |s'.cpu| && s'.cpu[d].esp == Thr(t) ensures Leaver(Sec(s', d)) == Some(t) {
      assert Esps(s')[d] == Esps(s)[d] && Secs(s')[d] == Secs(s)[d];
    }
  }

  lemma AwayPlain(s: State, c: nat, t: nat, regs: int, k: Stack)
    requires Inv(s) && Enabled(s, c, Step) && Away(s, t) && Remembers(s, t, regs, k)
    ensures Away(Next(s, c, Step), t) && Remembers(Next(s, c, Step), t, regs, k)
  {
    var s', m, top := Next(s, c, Step), StepMove(s, c), Stk(s, c);
    StepProjections(s, c);
    StepSizes(s, c);
    assert CpuOk(s.cpu[c], top) && SwitchOk(s.sh.thr, s.cpu[c].regs, top);
    LeaverOwns(s, c);
    MoveContext(c, s.cpu[c], top, s.sh);
    if s.cpu[c].esp == Thr(t) { LeaverStep(c, s.cpu[c], top, s.sh, t, regs, k); }
    else { assert ThreadKept(s.sh.thr[t], m.sh.thr[t]); }
    forall d: nat | d < |s'.cpu| && s'.cpu[d].esp == Thr(t) ensures Leaver(Sec(s', d)) == Some(t) {
      assert Esps(s')[d] == Esps(s)[d] && Secs(s')[d] == if d == c then SecPc(Landed(top, m)) else Secs(s)[d];
    }
  }

  /** Inside toc_switch: the save, and interrupts that only queue gates. */
  lemma LeaverStep(c: nat, cp: Cpu, k: Stack, sh: Shared, t: nat, regs: int, call: Stack)
    requires k.Push? && Possible(c, cp, k.top.pc, sh) && Shape(k) && Moves(k.top.pc) && Leaver(SecPc(k)) == Some(t)
    requires t < |sh.thr| && sh.thr[t].callRegs == regs && sh.thr[t].callStack == call
    ensures var m := MoveOf(c, cp, k, sh);
      Leaver(SecPc(Landed(k, m))) == Some(t)
      && t < |m.sh.thr| && m.sh.thr[t].callRegs == regs && m.sh.thr[t].callStack == call
  {
  }

  lemma {:induction false} AwayUntil(r: Run, i: nat, j: nat, t: nat, regs: int, k: Stack)
    requires FromBoot(r) && i <= j < |r.states| && Away(r.states[i], t) && Remembers(r.states[i], t, regs, k)
    requires forall m: nat :: i <= m < j ==> !Loads(r, m, r.who[m], t)
    ensures Away(r.states[j], t) && Remembers(r.states[j], t, regs, k)
  {
    if i < j {
      AwayUntil(r, i, j - 1, t, regs, k);
      assert !Loads(r, j - 1, r.who[j - 1], t);
      AwayNext(r, j - 1, t, regs, k);
    }
  }

  lemma AwayNext(r: Run, j: nat, t: nat, regs: int, k: Stack)
    requires FromBoot(r) && j < |r.who| && Away(r.states[j], t) && Remembers(r.states[j], t, regs, k)
    requires !Loads(r, j, r.who[j], t)
    ensures Away(r.states[j + 1], t) && Remembers(r.states[j + 1], t, regs, k)
  {
    Transition(r, j);
    AwayStep(r.states[j], r.who[j], r.acts[j], t, regs, k);
  }

  /** A thread that calls toc_switch on one CPU and is next loaded on some CPU, whatever ran in
      between, continues with the registers it had, on the stack it had, returning to where it
      called from. */
  lemma SwitchRoundTrip(r: Run, i: nat, j: nat, c: nat, d: nat, t: nat)
    requires FromBoot(r) && i < j && CallsSwitch(r, i, c, t) && Loads(r, j, d, t)
    requires forall m: nat :: i < m < j ==> !Loads(r, m, r.who[m], t)
    ensures d < |r.states[j + 1].cpu| && r.states[j + 1].cpu[d].regs == r.states[i].cpu[c].regs
    ensures Stk(r.states[j + 1], d) == Returned(Stk(r.states[i], c))
    ensures r.states[j + 1].cpu[d].esp == r.states[i].cpu[c].esp == Thr(t)
  {
    var s, s', u := r.states[i], r.states[i + 1], r.states[j];
    Transition(r, i);
    CallRecorded(s, c, t);
    AwayUntil(r, i + 1, j, t, s.cpu[c].regs, Returned(Stk(s, c)));
    Transition(r, j);
    LoadedContext(u, d);
    SwitchStacks(u, d);
  }

  lemma CallRecorded(s: State, c: nat, t: nat)
    requires Inv(s) && Enabled(s, c, Step) && TopPc(Stk(s, c)).SetOn?
    requires TopPc(Stk(s, c)).prev == Some(t) && TopPc(Stk(s, c)).succ.Some?
    ensures s.cpu[c].esp == Thr(t)
    ensures Away(Next(s, c, Step), t) && Remembers(Next(s, c, Step), t, s.cpu[c].regs, Returned(Stk(s, c)))
  {
    var s', k := Next(s, c, Step), Stk(s, c);
    StepProjections(s, c);
    LeaverOwns(s, c);
    CallMove(c, s.cpu[c], k, s.sh, t);
    assert Secs(s')[c] == SecPc(Landed(k, StepMove(s, c))) && Esps(s)[c] == Thr(t);
    forall d: nat | d < |s'.cpu| ensures d == c || s'.cpu[d].esp != Thr(t) {
      assert Esps(s')[d] == Esps(s)[d];
    }
  }

  lemma CallMove(c: nat, cp: Cpu, k: Stack, sh: Shared, t: nat)
    requires k.Push? && k.top.pc.SetOn? && k.top.pc.prev == Some(t) && k.top.pc.succ.Some?
    requires Possible(c, cp, k.top.pc, sh)
    ensures var m := MoveOf(c, cp, k, sh);
      Leaver(SecPc(Landed(k, m))) == Some(t) && t < |m.sh.thr|
      && m.sh.thr[t].callRegs == cp.regs && m.sh.thr[t].callStack == Returned(k)
  {
  }
}
