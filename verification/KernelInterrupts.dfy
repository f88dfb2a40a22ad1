/** Interrupts as the interrupted code sees them, and how a critical section is reached: what becomes of one
    frame on one stack while every CPU runs, is interrupted and switches threads. */
module KernelInterrupts {
  import opened KernelState
  import opened KernelInvariant
  import opened KernelSafety
  import opened KernelInduction
  import opened KernelTheorems

  // ---------- one frame on one stack ----------

  function Height(k: Stack): nat {
    if k.Empty? then 0 else 1 + Height(k.rest)
  }

  /** The frame of stack k that lies directly on the stack below. */
  function FrameOn(k: Stack, below: Stack): Option<Frame> {
    if k.Empty? then None else if k.rest == below then Some(k.top) else FrameOn(k.rest, below)
  }

  lemma {:induction false} FrameIsHigher(k: Stack, below: Stack)
    requires FrameOn(k, below).Some?
    ensures Height(k) > Height(below)
  {
    if k.rest != below { FrameIsHigher(k.rest, below); }
  }

  /** A handler is put on top, or the topmost counter changes. */
  lemma FramePushed(k: Stack, below: Stack, f: Frame)
    requires FrameOn(k, below).Some?
    ensures FrameOn(Push(f, k), below) == FrameOn(k, below)
    ensures k.rest != below ==> FrameOn(Push(f, k.rest), below) == FrameOn(k, below)
    ensures k.rest == below ==> FrameOn(Push(f, k.rest), below) == Some(f)
  {
    FrameIsHigher(k, below);
  }

  /** The frame with this stack below it, on the stack named x. */
  function FrameAt(s: State, x: Ctx, below: Stack): Option<Frame> {
    if x in s.stk then FrameOn(s.stk[x], below) else None
  }

  /** CPU e executes that frame. */
  ghost predicate Executes(s: State, e: nat, x: Ctx, below: Stack) {
    e < |s.cpu| && s.cpu[e].esp == x && Stk(s, e).Push? && Stk(s, e).rest == below
  }

  lemma PutFrame(s: State, e: nat, cp: Cpu, k: Stack, sh: Shared, x: Ctx, below: Stack)
    requires e < |s.cpu| && x in s.stk
    ensures FrameAt(Put(s, e, cp, k, sh), x, below)
         == if s.cpu[e].esp == x then FrameOn(k, below) else FrameAt(s, x, below)
  {
  }

  /** A frame changes only by a transition of the CPU that executes it, or when its stack is loaded in the
      middle of a switch. */
  lemma FrameKept(s: State, e: nat, a: Act, x: Ctx, below: Stack)
    requires Enabled(s, e, a) && !a.Switch? && FrameAt(s, x, below).Some? && !Executes(s, e, x, below)
    ensures FrameAt(Next(s, e, a), x, below) == FrameAt(s, x, below)
  {
    if s.cpu[e].esp == x {
      var k := Stk(s, e);
      forall f: Frame ensures FrameOn(Push(f, k), below) == FrameOn(Push(f, k.rest), below) == FrameOn(k, below) {
        FramePushed(k, below, f);
      }
    }
  }

  lemma FrameStepped(s: State, e: nat, a: Act, x: Ctx, below: Stack)
    requires Enabled(s, e, a) && x in s.stk && Executes(s, e, x, below)
    ensures a.Step? ==> FrameAt(Next(s, e, a), x, below) == Some(Frame(Stk(s, e).top.kind, StepMove(s, e).pc))
    ensures a.Interrupt? || a.Compute? ==> FrameAt(Next(s, e, a), x, below) == FrameAt(s, x, below)
    ensures a.Syscall? ==> FrameAt(Next(s, e, a), x, below) == Some(Frame(Stk(s, e).top.kind, EnterOff(Call(a.op))))
    ensures var k := Stk(s, e);
      a.Outcome? ==>
        FrameAt(Next(s, e, a), x, below) == Some(Frame(k.top.kind, if a.epilogue then TestFlag(k.top.pc.g) else Tail))
  {
    var k := Stk(s, e);
    FrameIsHigher(k, below);
    forall f: Frame ensures FrameOn(Push(f, k), below) == FrameOn(k, below) { FramePushed(k, below, f); }
  }

  /** Loading a stack finishes the switch on top of it; other frames stay. */
  lemma FrameSwitched(s: State, e: nat, x: Ctx, below: Stack)
    requires Inv(s) && Enabled(s, e, Switch) && FrameAt(s, x, below).Some?
    ensures var f, f' := FrameAt(s, x, below).value, FrameAt(Next(s, e, Switch), x, below);
      f' == Some(f) || ((f.pc.Fresh? || f.pc.Load?) && f' == Some(Frame(f.kind, LeaveOff)))
  {
    LoadedContext(s, e);
    SwitchStacks(s, e);
    var k := s.stk[x];
    FramePushed(k, below, Frame(k.top.kind, LeaveOff));
  }

  // ---------- interrupts are transparent ----------

  /** The handler on top of the code it interrupted: registers regs, stack `below`. */
  ghost predicate Handles(s: State, x: Ctx, below: Stack, regs: int) {
    FrameAt(s, x, below).Some? && FrameAt(s, x, below).value.kind == Isr(regs)
  }

  /** At transition m CPU e goes back to the interrupted code: its registers, its stack and the interrupt-enable
      bit are as they were. */
  ghost predicate GoesBack(r: Run, m: nat, e: nat, x: Ctx, below: Stack, regs: int)
    requires Execution(r)
  {
    && m < |r.who| && r.who[m] == e < |r.states[m].cpu| && r.acts[m].Return? && e < |r.states[m + 1].cpu|
    && r.states[m].cpu[e].esp == x && TopPc(Stk(r.states[m], e)).Iret?
    && r.states[m + 1].cpu[e].esp == x && Stk(r.states[m + 1], e) == below
    && r.states[m + 1].cpu[e].regs == regs && r.states[m + 1].cpu[e].ie
  }

  lemma HandlerStep(s: State, e: nat, a: Act, x: Ctx, below: Stack, regs: int)
    requires Inv(s) && Enabled(s, e, a) && Handles(s, x, below, regs)
    ensures Handles(Next(s, e, a), x, below, regs) || (Executes(s, e, x, below) && a.Return?)
  {
    if a.Switch? { FrameSwitched(s, e, x, below); }
    else if Executes(s, e, x, below) { FrameStepped(s, e, a, x, below); }
    else { FrameKept(s, e, a, x, below); }
  }

  lemma ReturnRestores(s: State, e: nat, x: Ctx, below: Stack, regs: int)
    requires Inv(s) && Enabled(s, e, Act.Return) && Handles(s, x, below, regs) && Executes(s, e, x, below)
    ensures var s' := Next(s, e, Act.Return);
      && e < |s'.cpu| && TopPc(Stk(s, e)).Iret? && s'.cpu[e].esp == x && Stk(s', e) == below
      && s'.cpu[e].regs == regs && s'.cpu[e].ie
  {
  }

  lemma HandlerNext(r: Run, m: nat, x: Ctx, below: Stack, regs: int)
    requires FromBoot(r) && m < |r.who| && Handles(r.states[m], x, below, regs)
    ensures Handles(r.states[m + 1], x, below, regs) || GoesBack(r, m, r.who[m], x, below, regs)
  {
    Transition(r, m);
    HandlerStep(r.states[m], r.who[m], r.acts[m], x, below, regs);
    if !Handles(r.states[m + 1], x, below, regs) { ReturnRestores(r.states[m], r.who[m], x, below, regs); }
  }

  /** Between states i and j some CPU goes back to that code. */
  ghost predicate WentBack(r: Run, i: nat, j: nat, x: Ctx, below: Stack, regs: int)
    requires Execution(r)
  {
    exists m: nat, e: nat :: i < m < j && GoesBack(r, m, e, x, below, regs)
  }

  lemma InterruptSaves(r: Run, i: nat, c: nat, g: nat)
    requires FromBoot(r) && i < |r.who| && r.who[i] == c < |r.states[i].cpu| && r.acts[i] == Interrupt(g)
    ensures var x, k, regs := r.states[i].cpu[c].esp, Stk(r.states[i], c), r.states[i].cpu[c].regs;
      FrameAt(r.states[i + 1], x, k) == Some(Frame(Isr(regs), Prologue(g)))
  {
    Transition(r, i);
  }

  lemma {:induction false} HandlerKept(r: Run, i: nat, j: nat, x: Ctx, below: Stack, regs: int)
    requires FromBoot(r) && i < j < |r.states| && Handles(r.states[i + 1], x, below, regs)
    ensures Handles(r.states[j], x, below, regs) || WentBack(r, i, j, x, below, regs)
  {
    if i + 1 < j {
      HandlerKept(r, i, j - 1, x, below, regs);
      HandlerMore(r, i, j, x, below, regs);
    }
  }

  lemma HandlerMore(r: Run, i: nat, j: nat, x: Ctx, below: Stack, regs: int)
    requires FromBoot(r) && i + 1 < j < |r.states|
    requires Handles(r.states[j - 1], x, below, regs) || WentBack(r, i, j - 1, x, below, regs)
    ensures Handles(r.states[j], x, below, regs) || WentBack(r, i, j, x, below, regs)
  {
    if WentBack(r, i, j - 1, x, below, regs) {
      var m: nat, e: nat :| i < m < j - 1 && GoesBack(r, m, e, x, below, regs);
      assert i < m < j;
    } else { HandlerNext(r, j - 1, x, below, regs); }
  }

  /** An interrupt of gate g starts its prologue. After it, whatever runs on top of or beside its handler, on
      whichever CPUs: the interrupted code stays below the handler as it was, with its registers saved there,
      until a CPU that runs this stack returns to it with just these registers, just this stack and interrupts
      enabled. */
  lemma InterruptTransparent(r: Run, i: nat, j: nat, c: nat, g: nat)
    requires FromBoot(r) && i < j < |r.states| && r.who[i] == c < |r.states[i].cpu| && r.acts[i] == Interrupt(g)
    ensures var x, k, regs := r.states[i].cpu[c].esp, Stk(r.states[i], c), r.states[i].cpu[c].regs;
      && FrameAt(r.states[i + 1], x, k) == Some(Frame(Isr(regs), Prologue(g)))
      && (Handles(r.states[j], x, k, regs) || WentBack(r, i, j, x, k, regs))
  {
    InterruptSaves(r, i, c, g);
    HandlerKept(r, i, j, r.states[i].cpu[c].esp, Stk(r.states[i], c), r.states[i].cpu[c].regs);
  }

  // ---------- a critical section that is entered is executed ----------

  /** The counters of Guard::enter for the body b, and the body's first; in order. */
  function Stage(pc: PC, b: Body): nat {
    match pc
    case EnterOff(b') => if b' == b then 1 else 0
    case EnterFlag(b') => if b' == b then 2 else 0
    case EnterOn(b') => if b' == b then 3 else 0
    case Take(b') => if b' == b then 4 else 0
    case Spin(b', _) => if b' == b then 5 else 0
    case Do(b') => if b' == b then 6 else 0
    case _ => 0
  }

  /** At which of these counters the frame is; 0 if at none. */
  ghost function StageAt(s: State, x: Ctx, below: Stack, kind: Kind, b: Body): nat {
    var f := FrameAt(s, x, below);
    if f.Some? && f.value.kind == kind then Stage(f.value.pc, b) else 0
  }

  /** CPU e starts the body b in that frame. */
  ghost predicate Begins(s: State, e: nat, a: Act, x: Ctx, below: Stack, kind: Kind, b: Body) {
    Executes(s, e, x, below) && Stk(s, e).top == Frame(kind, Do(b)) && a.Step?
  }

  lemma NextStage(c: nat, cp: Cpu, k: Stack, sh: Shared, b: Body)
    requires k.Push? && Possible(c, cp, k.top.pc, sh) && 0 < Stage(k.top.pc, b) < 6
    ensures Stage(MoveOf(c, cp, k, sh).pc, b) == Stage(k.top.pc, b) + 1
  {
  }

  lemma StageOwn(s: State, e: nat, a: Act, x: Ctx, below: Stack, kind: Kind, b: Body)
    requires Stacks(s) && Enabled(s, e, a) && !a.Switch? && Executes(s, e, x, below)
    requires StageAt(s, x, below, kind, b) > 0 && !Begins(s, e, a, x, below, kind, b)
    ensures StageAt(s, x, below, kind, b) <= StageAt(Next(s, e, a), x, below, kind, b)
  {
    assert CpuOk(s.cpu[e], Stk(s, e));
    FrameStepped(s, e, a, x, below);
    if a.Step? { NextStage(e, s.cpu[e], Stk(s, e), s.sh, b); }
  }

  lemma StageStep(s: State, e: nat, a: Act, x: Ctx, below: Stack, kind: Kind, b: Body)
    requires Inv(s) && Enabled(s, e, a) && StageAt(s, x, below, kind, b) > 0 && !Begins(s, e, a, x, below, kind, b)
    ensures StageAt(s, x, below, kind, b) <= StageAt(Next(s, e, a), x, below, kind, b)
  {
    if a.Switch? { StageSwitch(s, e, x, below, kind, b); }
    else if Executes(s, e, x, below) { StageOwn(s, e, a, x, below, kind, b); }
    else { FrameKept(s, e, a, x, below); }
  }

  lemma StageSwitch(s: State, e: nat, x: Ctx, below: Stack, kind: Kind, b: Body)
    requires Inv(s) && Enabled(s, e, Switch) && StageAt(s, x, below, kind, b) > 0
    ensures StageAt(Next(s, e, Switch), x, below, kind, b) == StageAt(s, x, below, kind, b)
  {
    FrameSwitched(s, e, x, below);
    NoSwitchStage(FrameAt(s, x, below).value.pc, b);
  }

  lemma NoSwitchStage(pc: PC, b: Body)
    requires Stage(pc, b) > 0
    ensures !pc.Fresh? && !pc.Load?
  {
  }

  /** Between states i and j the body b is started in that frame. */
  ghost predicate Begun(r: Run, i: nat, j: nat, x: Ctx, below: Stack, kind: Kind, b: Body)
    requires Execution(r)
  {
    exists m: nat :: i <= m < j && m < |r.who| && Begins(r.states[m], r.who[m], r.acts[m], x, below, kind, b)
  }

  lemma StageNext(r: Run, i: nat, j: nat, x: Ctx, below: Stack, kind: Kind, b: Body)
    requires FromBoot(r) && i <= j < |r.who| && StageAt(r.states[j], x, below, kind, b) > 0
    ensures Begun(r, i, j + 1, x, below, kind, b)
            || StageAt(r.states[j], x, below, kind, b) <= StageAt(r.states[j + 1], x, below, kind, b)
  {
    Transition(r, j);
    if !Begins(r.states[j], r.who[j], r.acts[j], x, below, kind, b) {
      StageStep(r.states[j], r.who[j], r.acts[j], x, below, kind, b);
    }
  }

  lemma BegunLater(r: Run, i: nat, j: nat, n: nat, x: Ctx, below: Stack, kind: Kind, b: Body)
    requires Execution(r) && j <= n && Begun(r, i, j, x, below, kind, b)
    ensures Begun(r, i, n, x, below, kind, b)
  {
    var m: nat :| i <= m < j && m < |r.who| && Begins(r.states[m], r.who[m], r.acts[m], x, below, kind, b);
    assert i <= m < n;
  }

  /** A frame on its way into the guard gets there: later states find it at the same counter or a later one,
      unless its body has been started by a CPU that runs the stack. */
  lemma {:induction false} EnteredIsBegun(r: Run, i: nat, j: nat, x: Ctx, below: Stack, kind: Kind, b: Body)
    requires FromBoot(r) && i <= j < |r.states| && StageAt(r.states[i], x, below, kind, b) > 0
    ensures Begun(r, i, j, x, below, kind, b)
            || StageAt(r.states[i], x, below, kind, b) <= StageAt(r.states[j], x, below, kind, b)
  {
    if i < j {
      EnteredIsBegun(r, i, j - 1, x, below, kind, b);
      if Begun(r, i, j - 1, x, below, kind, b) { BegunLater(r, i, j - 1, j, x, below, kind, b); }
      else { StageNext(r, i, j - 1, x, below, kind, b); }
    }
  }

  /** A guarded call, from level-0 code: the operation is executed, on this stack and in this frame, and until
      then the frame is on its way through Guard::enter. */
  lemma CallIsExecuted(r: Run, i: nat, j: nat, c: nat, op: Op)
    requires FromBoot(r) && i < j < |r.states| && r.who[i] == c < |r.states[i].cpu| && r.acts[i] == Syscall(op)
    requires Stk(r.states[i], c).Push?
    ensures var x, k := r.states[i].cpu[c].esp, Stk(r.states[i], c);
      Begun(r, i + 1, j, x, k.rest, k.top.kind, Call(op)) || StageAt(r.states[j], x, k.rest, k.top.kind, Call(op)) > 0
  {
    Transition(r, i);
    var x, k := r.states[i].cpu[c].esp, Stk(r.states[i], c);
    CallEnters(r.states[i], c, op);
    EnteredIsBegun(r, i + 1, j, x, k.rest, k.top.kind, Call(op));
  }

  lemma CallEnters(s: State, c: nat, op: Op)
    requires Inv(s) && Enabled(s, c, Syscall(op))
    ensures StageAt(Next(s, c, Syscall(op)), s.cpu[c].esp, Stk(s, c).rest, Stk(s, c).top.kind, Call(op)) == 1
  {
    FrameStepped(s, c, Syscall(op), s.cpu[c].esp, Stk(s, c).rest);
  }

  // ---------- an interrupt that finds the flag down is served at once ----------

  /** CPU c is about to find its flag down, in that frame. */
  ghost predicate Tests(s: State, c: nat, x: Ctx, below: Stack, kind: Kind, g: nat) {
    Executes(s, c, x, below) && Stk(s, c).top == Frame(kind, TestFlag(g)) && !s.cpu[c].flag
  }

  /** How far the frame has come: the test of the flag, the enabling of interrupts, Guard::enter, the epilogue. */
  ghost function ServiceAt(s: State, c: nat, x: Ctx, below: Stack, kind: Kind, g: nat): nat {
    var stage := StageAt(s, x, below, kind, Epilogue(g));
    if stage > 0 then 2 + stage
    else if FrameAt(s, x, below) == Some(Frame(kind, Direct(g))) then 2
    else if Tests(s, c, x, below, kind, g) then 1 else 0
  }

  lemma TestStep(s: State, e: nat, a: Act, c: nat, x: Ctx, below: Stack, kind: Kind, g: nat)
    requires Inv(s) && Enabled(s, e, a) && Tests(s, c, x, below, kind, g)
    ensures Tests(Next(s, e, a), c, x, below, kind, g)
            || FrameAt(Next(s, e, a), x, below) == Some(Frame(kind, Direct(g)))
  {
    assert CpuOk(s.cpu[c], Stk(s, c));
    if e != c { TestBeside(s, e, a, c, x, below, kind, g); }
    else if a.Step? { FrameStepped(s, e, a, x, below); }
  }

  lemma TestBeside(s: State, e: nat, a: Act, c: nat, x: Ctx, below: Stack, kind: Kind, g: nat)
    requires Inv(s) && Enabled(s, e, a) && Tests(s, c, x, below, kind, g) && e != c
    ensures Tests(Next(s, e, a), c, x, below, kind, g)
  {
    if a.Switch? { TestSwitch(s, e, c, x, below, kind, g); }
    else if a.Step? { StepProjections(s, e); }
    else { TestOutside(s, e, a, c, x, below, kind, g); }
  }

  lemma TestOutside(s: State, e: nat, a: Act, c: nat, x: Ctx, below: Stack, kind: Kind, g: nat)
    requires Stacks(s) && Enabled(s, e, a) && !a.Step? && !a.Switch? && Tests(s, c, x, below, kind, g) && e != c
    ensures Tests(Next(s, e, a), c, x, below, kind, g)
  {
    assert Esps(s)[e] != Esps(s)[c];
  }

  lemma TestSwitch(s: State, e: nat, c: nat, x: Ctx, below: Stack, kind: Kind, g: nat)
    requires Inv(s) && Enabled(s, e, Switch) && Tests(s, c, x, below, kind, g) && e != c
    ensures Tests(Next(s, e, Switch), c, x, below, kind, g)
  {
    LoadedContext(s, e);
    SwitchStacks(s, e);
  }

  lemma DirectStep(s: State, e: nat, a: Act, x: Ctx, below: Stack, kind: Kind, g: nat)
    requires Inv(s) && Enabled(s, e, a) && FrameAt(s, x, below) == Some(Frame(kind, Direct(g)))
    ensures FrameAt(Next(s, e, a), x, below) == Some(Frame(kind, Direct(g)))
            || StageAt(Next(s, e, a), x, below, kind, Epilogue(g)) == 1
  {
    if a.Switch? { FrameSwitched(s, e, x, below); }
    else if Executes(s, e, x, below) {
      assert CpuOk(s.cpu[e], Stk(s, e));
      FrameStepped(s, e, a, x, below);
    } else { FrameKept(s, e, a, x, below); }
  }

  lemma ServiceStep(s: State, e: nat, a: Act, c: nat, x: Ctx, below: Stack, kind: Kind, g: nat)
    requires Inv(s) && Enabled(s, e, a) && ServiceAt(s, c, x, below, kind, g) > 0
    requires !Begins(s, e, a, x, below, kind, Epilogue(g))
    ensures ServiceAt(s, c, x, below, kind, g) <= ServiceAt(Next(s, e, a), c, x, below, kind, g)
  {
    if StageAt(s, x, below, kind, Epilogue(g)) > 0 { StageStep(s, e, a, x, below, kind, Epilogue(g)); }
    else if FrameAt(s, x, below) == Some(Frame(kind, Direct(g))) { DirectStep(s, e, a, x, below, kind, g); }
    else { TestStep(s, e, a, c, x, below, kind, g); }
  }

  lemma ServiceNext(r: Run, i: nat, j: nat, c: nat, x: Ctx, below: Stack, kind: Kind, g: nat)
    requires FromBoot(r) && i <= j < |r.who| && ServiceAt(r.states[j], c, x, below, kind, g) > 0
    ensures Begun(r, i, j + 1, x, below, kind, Epilogue(g))
            || ServiceAt(r.states[j], c, x, below, kind, g) <= ServiceAt(r.states[j + 1], c, x, below, kind, g)
  {
    Transition(r, j);
    if !Begins(r.states[j], r.who[j], r.acts[j], x, below, kind, Epilogue(g)) {
      ServiceStep(r.states[j], r.who[j], r.acts[j], c, x, below, kind, g);
    }
  }

  lemma {:induction false} ServiceKept(r: Run, i: nat, j: nat, c: nat, x: Ctx, below: Stack, kind: Kind, g: nat)
    requires FromBoot(r) && i <= j < |r.states| && ServiceAt(r.states[i], c, x, below, kind, g) > 0
    ensures Begun(r, i, j, x, below, kind, Epilogue(g))
            || ServiceAt(r.states[i], c, x, below, kind, g) <= ServiceAt(r.states[j], c, x, below, kind, g)
  {
    if i < j {
      ServiceKept(r, i, j - 1, c, x, below, kind, g);
      if Begun(r, i, j - 1, x, below, kind, Epilogue(g)) { BegunLater(r, i, j - 1, j, x, below, kind, Epilogue(g)); }
      else { ServiceNext(r, i, j - 1, c, x, below, kind, g); }
    }
  }

  lemma PrologueTests(s: State, c: nat, g: nat)
    requires Inv(s) && Enabled(s, c, Outcome(true)) && Stk(s, c).top.pc == Prologue(g) && !s.cpu[c].flag
    ensures Tests(Next(s, c, Outcome(true)), c, s.cpu[c].esp, Stk(s, c).rest, Stk(s, c).top.kind, g)
    ensures ServiceAt(Next(s, c, Outcome(true)), c, s.cpu[c].esp, Stk(s, c).rest, Stk(s, c).top.kind, g) > 0
  {
    FrameStepped(s, c, Outcome(true), s.cpu[c].esp, Stk(s, c).rest);
  }

  /** A prologue of gate g that asks for its epilogue on a CPU with the flag down: the handler's frame goes through
      the test, the enabling of interrupts and Guard::enter in this order, and leaves this path only by starting
      the epilogue of g, on whichever CPU runs the stack by then. */
  lemma InterruptIsServed(r: Run, i: nat, j: nat, c: nat, g: nat)
    requires FromBoot(r) && i < j < |r.states| && r.who[i] == c < |r.states[i].cpu| && r.acts[i] == Outcome(true)
    requires Stk(r.states[i], c).Push? && Stk(r.states[i], c).top.pc == Prologue(g) && !r.states[i].cpu[c].flag
    ensures var x, k := r.states[i].cpu[c].esp, Stk(r.states[i], c);
      Begun(r, i + 1, j, x, k.rest, k.top.kind, Epilogue(g)) || ServiceAt(r.states[j], c, x, k.rest, k.top.kind, g) > 0
  {
    Transition(r, i);
    var x, k := r.states[i].cpu[c].esp, Stk(r.states[i], c);
    PrologueTests(r.states[i], c, g);
    ServiceKept(r, i + 1, j, c, x, k.rest, k.top.kind, g);
  }
}
