/** Switching threads of control at the level of machine words: what the assembler routines do to
    registers, stack and memory. */
module Toc {
  type Memory = int -> int

  function Store(mem: Memory, at: int, word: int): Memory {
    a => if a == at then word else mem(a)
  }

  // Offsets in the register structure.
  const EBX := 0
  const ESI := 4
  const EDI := 8
  const EBP := 12
  const ESP := 16
  const SIZE := 20

  /** The registers that survive a call. */
  datatype Registers = Registers(ebx: int, esi: int, edi: int, ebp: int, esp: int)

  function Saved(mem: Memory, p: int): Registers {
    Registers(mem(p + EBX), mem(p + ESI), mem(p + EDI), mem(p + EBP), mem(p + ESP))
  }

  /** The word at a is not part of the structure at p. */
  predicate Outside(a: int, p: int) {
    a + 4 <= p || p + SIZE <= a
  }

  predicate Apart(p: int, q: int) {
    p + SIZE <= q || q + SIZE <= p
  }

  datatype Snapshot = Snapshot(r: Registers, eip: int, mem: Memory)

  /** After the routine's ret from a stack whose top is at esp. */
  function Returned(r: Registers, mem: Memory): Snapshot {
    Snapshot(r.(esp := r.esp + 4), mem(r.esp), mem)
  }

  class Machine {
    var eax: int
    var ebx: int
    var esi: int
    var edi: int
    var ebp: int
    var esp: int
    var eip: int
    var mem: Memory

    ghost function Now(): Snapshot
      reads this
    {
      Snapshot(Registers(ebx, esi, edi, ebp, esp), eip, mem)
    }

    method Ret()
      modifies `eip, `esp
      ensures eip == mem(old(esp)) && esp == old(esp) + 4
    {
      eip := mem(esp);
      esp := esp + 4;
    }

    /** Registers to the structure at eax. */
    method Save()
      modifies `mem
      ensures Saved(mem, eax) == Now().r
      ensures mem(eax) == ebx && mem(eax + 4) == esi && mem(eax + 8) == edi
      ensures mem(eax + 12) == ebp && mem(eax + 16) == esp
      ensures forall a :: Outside(a, eax) ==> mem(a) == old(mem)(a)
    {
      mem := Store(mem, eax + EBX, ebx);
      mem := Store(mem, eax + ESI, esi);
      mem := Store(mem, eax + EDI, edi);
      mem := Store(mem, eax + EBP, ebp);
      mem := Store(mem, eax + ESP, esp);
    }

    /** Registers from the structure at eax, and ret on the stack they name. */
    method Load()
      modifies `ebx, `esi, `edi, `ebp, `esp, `eip
      ensures Now() == Returned(Saved(mem, eax), mem)
    {
      ebx := mem(eax + EBX);
      esi := mem(eax + ESI);
      edi := mem(eax + EDI);
      ebp := mem(eax + EBP);
      esp := mem(eax + ESP);
      Ret();
    }

    /** Called as toc_go(regs): the argument is above the return address. */
    method Go()
      modifies this
      ensures Now() == Returned(Saved(old(mem), old(mem)(old(esp) + 4)), old(mem))
    {
      eax := mem(esp + 4);
      Load();
    }

    /** Called as toc_switch(regs_now, reg_then). The two structures are disjoint or the same one,
        and the arguments on the stack are not part of the first. */
    method Switch()
      requires Callable(Now())
      modifies this
      ensures SwitchesTo(old(Now()), Now())
      ensures Saved(mem, old(mem)(old(esp) + 4)) == old(Now()).r
      ensures Now() == Returned(Saved(mem, old(mem)(old(esp) + 8)), mem)
    {
      eax := mem(esp + 4);
      Save();
      eax := mem(esp + 8);
      Load();
    }

    /** toc_settle: the stack and the register structure of a thread that has not run yet. */
    method Settle(regs: int, tos: int, kickoff: int, thread: int, enterPanic: int)
      requires Outside(tos, regs) && Outside(tos - 4, regs) && Outside(tos - 8, regs)
      modifies `mem
      ensures Settled(mem, regs, tos, kickoff, thread, enterPanic)
      ensures forall a :: Outside(a, regs) && a !in {tos, tos - 4, tos - 8} ==> mem(a) == old(mem)(a)
      ensures mem(regs + EBX) == old(mem)(regs + EBX) && mem(regs + ESI) == old(mem)(regs + ESI)
      ensures mem(regs + EDI) == old(mem)(regs + EDI)
    {
      var stackPtr := tos;
      mem := Store(mem, regs + EBP, stackPtr);
      mem := Store(mem, stackPtr, thread);
      mem := Store(mem, stackPtr - 4, enterPanic);
      mem := Store(mem, stackPtr - 8, kickoff);
      mem := Store(mem, regs + ESP, stackPtr - 8);
    }
  }

  function NowArg(m: Snapshot): int { m.mem(m.r.esp + 4) }

  function ThenArg(m: Snapshot): int { m.mem(m.r.esp + 8) }

  ghost predicate Callable(m: Snapshot) {
    && (NowArg(m) == ThenArg(m) || Apart(NowArg(m), ThenArg(m)))
    && Outside(m.r.esp, NowArg(m)) && Outside(m.r.esp + 4, NowArg(m)) && Outside(m.r.esp + 8, NowArg(m))
  }

  /** The effect of a switch: the first structure holds the registers at the call, nothing else in
      memory changes, and execution goes on with the registers in the second structure, returning
      to the address on top of that stack. */
  ghost predicate SwitchesTo(m: Snapshot, m': Snapshot) {
    && Saved(m'.mem, NowArg(m)) == m.r
    && (forall a :: Outside(a, NowArg(m)) ==> m'.mem(a) == m.mem(a))
    && m' == Returned(Saved(m'.mem, ThenArg(m)), m'.mem)
  }

  ghost predicate Settled(mem: Memory, regs: int, tos: int, kickoff: int, thread: int, enterPanic: int) {
    && mem(tos) == thread && mem(tos - 4) == enterPanic && mem(tos - 8) == kickoff
    && mem(regs + EBP) == tos && mem(regs + ESP) == tos - 8
  }

  /** Whatever runs in between, as long as it leaves a thread's register structure and the return
      address on its stack alone: when some later switch names that thread, it goes on as if its own
      call had returned at once, with all callee-saved registers, its stack pointer and its return
      address. */
  lemma SwitchRoundTrip(a: Snapshot, a': Snapshot, b: Snapshot, b': Snapshot)
    requires Callable(a) && SwitchesTo(a, a') && Callable(b) && SwitchesTo(b, b')
    requires ThenArg(b) == NowArg(a)
    requires Saved(b.mem, NowArg(a)) == Saved(a'.mem, NowArg(a)) && b.mem(a.r.esp) == a'.mem(a.r.esp)
    requires Outside(a.r.esp, NowArg(b)) && NowArg(b) != NowArg(a)
    ensures b'.r == a.r.(esp := a.r.esp + 4) && b'.eip == a.mem(a.r.esp)
  {
    var p := NowArg(a);
    assert Outside(p + EBX, NowArg(b)) && Outside(p + ESI, NowArg(b)) && Outside(p + EDI, NowArg(b));
    assert Outside(p + EBP, NowArg(b)) && Outside(p + ESP, NowArg(b));
  }

  /** A thread may switch to itself, as it does when it is the only one ready: it simply returns. */
  lemma SwitchToSelf(a: Snapshot, a': Snapshot)
    requires Callable(a) && SwitchesTo(a, a') && ThenArg(a) == NowArg(a)
    ensures a'.r == a.r.(esp := a.r.esp + 4) && a'.eip == a.mem(a.r.esp)
  {
  }

  /** The first switch to a settled thread enters kickoff as if it had been called with the thread
      as argument; returning from it would lead to the panic routine. */
  lemma FirstRun(b: Snapshot, b': Snapshot, tos: int, kickoff: int, thread: int, enterPanic: int)
    requires Callable(b) && SwitchesTo(b, b') && NowArg(b) != ThenArg(b)
    requires Settled(b.mem, ThenArg(b), tos, kickoff, thread, enterPanic)
    requires Outside(tos, NowArg(b)) && Outside(tos - 4, NowArg(b)) && Outside(tos - 8, NowArg(b))
    ensures b'.eip == kickoff && b'.mem(b'.r.esp) == enterPanic && b'.mem(b'.r.esp + 4) == thread && b'.r.ebp == tos
  {
    var p := ThenArg(b);
    assert Outside(p + EBP, NowArg(b)) && Outside(p + ESP, NowArg(b));
  }

  /** The same for the first thread of a CPU, which is started without saving anything. */
  lemma FirstGo(mem: Memory, regs: int, tos: int, kickoff: int, thread: int, enterPanic: int)
    requires Settled(mem, regs, tos, kickoff, thread, enterPanic)
    ensures var m := Returned(Saved(mem, regs), mem);
      m.eip == kickoff && m.mem(m.r.esp) == enterPanic && m.mem(m.r.esp + 4) == thread && m.r.ebp == tos
  {
  }
}
