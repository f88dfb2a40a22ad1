/** Stacks, flags and interrupt masking survive every step that stays on its stack. */
module KernelStacks {
  import opened KernelState
  import opened KernelInvariant

  /** Replacing one CPU's stack changes that CPU's entry of each projection and no other. */
  lemma PutProjections(s: State, c: nat, cp: Cpu, k: Stack, sh: Shared)
    requires c < |s.cpu| && cp.esp == s.cpu[c].esp && Exclusive(Esps(s), |s.sh.thr|)
    ensures var s' := Put(s, c, cp, k, sh);
      && Stk(s', c) == k && (forall d: nat :: d < |s.cpu| && d != c ==> Stk(s', d) == Stk(s, d))
      && Secs(s') == Secs(s)[c := SecPc(k)] && Tops(s') == Tops(s)[c := TopPc(k)]
      && Esps(s') == Esps(s) && Queues(s') == Queues(s)[c := cp.queue]
  {
    var s' := Put(s, c, cp, k, sh);
    forall d: nat | d < |s.cpu| && d != c ensures Stk(s', d) == Stk(s, d) {
      assert Esps(s)[c] != Esps(s)[d];
    }
    assert forall d :: 0 <= d < |s.cpu| && d != c ==> Secs(s')[d] == Sec(s', d) == Sec(s, d) == Secs(s)[d];
  }

  /** A section frame under an unmasked frame is unmasked. */
  lemma {:induction false} SectionUnmasked(k: Stack)
    requires Shape(k) && (k.Push? ==> !Masked(k.top.pc))
    ensures !Masked(SecPc(k)) && (SecPc(k).Run? || InSection(SecPc(k)))
  {
    if k.Push? && !InSection(k.top.pc) { SectionUnmasked(k.rest); }
  }

  /** What a step needs and what it keeps, for the CPU that takes it. */
  ghost predicate Kept(kind: Kind, r: Stack, cp: Cpu, m: Move) {
    && FrameOk(Frame(kind, m.pc), r)
    && BitsOk(m.cpu, m.pc, SecPc(Push(Frame(kind, m.pc), r)))
    && m.cpu.esp == cp.esp
    && m.cpu.regs == cp.regs
  }

  ghost predicate Here(cp: Cpu, kind: Kind, pc: PC, r: Stack) {
    Shape(r) && FrameOk(Frame(kind, pc), r) && BitsOk(cp, pc, SecPc(Push(Frame(kind, pc), r)))
  }

  lemma QueuedKept(c: nat, cp: Cpu, kind: Kind, pc: PC, r: Stack, sh: Shared)
    requires Possible(c, cp, pc, sh) && Here(cp, kind, pc, r) && Queueing(pc)
    ensures Kept(kind, r, cp, QueuedMove(c, cp, pc, sh))
  {
  }

  lemma RelayKept(c: nat, cp: Cpu, kind: Kind, pc: PC, r: Stack, sh: Shared)
    requires Here(cp, kind, pc, r) && Relaying(pc)
    ensures Kept(kind, r, cp, RelayMove(c, cp, pc, sh))
  {
    SectionUnmasked(r);
  }

  lemma EnterKept(c: nat, cp: Cpu, kind: Kind, pc: PC, r: Stack, sh: Shared)
    requires Here(cp, kind, pc, r) && Entering(pc)
    ensures Kept(kind, r, cp, EnterMove(c, cp, pc, sh))
  {
  }

  lemma DequeuedKept(c: nat, cp: Cpu, kind: Kind, pc: PC, r: Stack, sh: Shared)
    requires Possible(c, cp, pc, sh) && Here(cp, kind, pc, r) && Dequeueing(pc)
    ensures Kept(kind, r, cp, DequeuedMove(c, cp, pc, sh))
  {
  }

  lemma LeaveKept(c: nat, cp: Cpu, kind: Kind, pc: PC, r: Stack, sh: Shared)
    requires Here(cp, kind, pc, r) && Leaving(pc)
    ensures Kept(kind, r, cp, LeaveMove(cp, pc, sh, kind))
  {
  }

  lemma DispatchKept(c: nat, cp: Cpu, kind: Kind, pc: PC, r: Stack, sh: Shared)
    requires Possible(c, cp, pc, sh) && Here(cp, kind, pc, r) && Dispatching(pc)
    ensures Kept(kind, r, cp, DispatchMove(c, cp, pc, sh, Push(Frame(kind, pc), r)))
  {
  }

  lemma DoKept(c: nat, cp: Cpu, kind: Kind, b: Body, r: Stack, sh: Shared)
    requires Possible(c, cp, Do(b), sh) && Here(cp, kind, Do(b), r)
    ensures Kept(kind, r, cp, DoMove(c, cp, b, sh))
  {
    if b.Call? { CallKept(c, cp, kind, b.op, r, sh); } else { EpilogueKept(c, cp, kind, b.g, r, sh); }
  }

  lemma CallKept(c: nat, cp: Cpu, kind: Kind, op: Op, r: Stack, sh: Shared)
    requires Possible(c, cp, Do(Call(op)), sh) && Here(cp, kind, Do(Call(op)), r)
    ensures Kept(kind, r, cp, DoMove(c, cp, Call(op), sh))
  {
  }

  lemma EpilogueKept(c: nat, cp: Cpu, kind: Kind, g: nat, r: Stack, sh: Shared)
    requires Possible(c, cp, Do(Epilogue(g)), sh) && Here(cp, kind, Do(Epilogue(g)), r)
    ensures Kept(kind, r, cp, DoMove(c, cp, Epilogue(g), sh))
  {
  }

  lemma KillKept(c: nat, cp: Cpu, kind: Kind, pc: PC, r: Stack, sh: Shared)
    requires Possible(c, cp, pc, sh) && Here(cp, kind, pc, r) && Killing(pc)
    ensures Kept(kind, r, cp, KillMove(c, cp, pc, sh))
  {
  }

  lemma ResumeKept(c: nat, cp: Cpu, kind: Kind, pc: PC, r: Stack, sh: Shared)
    requires Possible(c, cp, pc, sh) && Here(cp, kind, pc, r) && Resuming(pc)
    ensures Kept(kind, r, cp, ResumeMove(c, cp, pc, sh))
  {
  }

  lemma ScheduleKept(c: nat, cp: Cpu, kind: Kind, pc: PC, r: Stack, sh: Shared)
    requires Possible(c, cp, pc, sh) && Here(cp, kind, pc, r) && Scheduling(pc)
    ensures Kept(kind, r, cp, ScheduleMove(c, cp, pc, sh))
  {
  }

  lemma MoveKept(c: nat, cp: Cpu, k: Stack, sh: Shared)
    requires k.Push? && Possible(c, cp, k.top.pc, sh) && CpuOk(cp, k) && Moves(k.top.pc)
    ensures Kept(k.top.kind, k.rest, cp, MoveOf(c, cp, k, sh))
  {
    var pc, kind, r := k.top.pc, k.top.kind, k.rest;
    assert k == Push(Frame(kind, pc), r) && Here(cp, kind, pc, r);
    if Queueing(pc) { QueuedKept(c, cp, kind, pc, r, sh); }
    else if Relaying(pc) { RelayKept(c, cp, kind, pc, r, sh); }
    else if Entering(pc) { EnterKept(c, cp, kind, pc, r, sh); }
    else if Dequeueing(pc) { DequeuedKept(c, cp, kind, pc, r, sh); }
    else if Leaving(pc) { LeaveKept(c, cp, kind, pc, r, sh); }
    else if Dispatching(pc) { DispatchKept(c, cp, kind, pc, r, sh); }
    else if pc.Do? { DoKept(c, cp, kind, pc.b, r, sh); }
    else if Killing(pc) { KillKept(c, cp, kind, pc, r, sh); }
    else if Resuming(pc) { ResumeKept(c, cp, kind, pc, r, sh); }
    else { ScheduleKept(c, cp, kind, pc, r, sh); }
  }
}
