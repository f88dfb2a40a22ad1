/** A run from boot at whose end a killed thread goes on running and nothing is on its way to evict
    it: two threads on two CPUs kill each other, each CPU with its flag up when the interrupt comes. */
module KernelMissedKill {
  import opened Arithmetic
  import opened KernelState
  import opened KernelInvariant
  import opened KernelSafety
  import opened KernelTheorems
  import opened KernelThreads
  import opened KernelProgress
  import opened KernelEviction

  // ---------- reachable states ----------

  ghost predicate EndsIn(r: Run, s: State) {
    FromBoot(r) && r.states[|r.who|] == s
  }

  ghost predicate Reachable(s: State) {
    exists r: Run :: EndsIn(r, s)
  }

  lemma Boots(s: State)
    requires Init(s)
    ensures Reachable(s)
  {
    assert EndsIn(Run.Run([s], [], []), s);
  }

  lemma Goes(s: State, c: nat, a: Act)
    requires Reachable(s) && Enabled(s, c, a)
    ensures Reachable(Next(s, c, a))
  {
    var r: Run :| EndsIn(r, s);
    var r' := Run.Run(r.states + [Next(s, c, a)], r.who + [c], r.acts + [a]);
    forall i: nat | i < |r'.who| ensures TransitionAt(r', i) {
      if i < |r.who| {
        assert TransitionAt(r, i);
        assert r'.states[i] == r.states[i] && r'.states[i + 1] == r.states[i + 1];
      }
    }
    assert EndsIn(r', Next(s, c, a));
  }

  // ---------- one CPU on its own ----------

  /** What one CPU's transitions read and write: its record, its stack, shared memory. */
  datatype Local = Local(cp: Cpu, k: Stack, sh: Shared)

  /** Level-0 code at pc. */
  function Level0(pc: PC): Stack { Push(Frame(Base, pc), Empty) }

  function Then(l: Local, m: Move): Local
    requires l.k.Push?
  {
    Local(m.cpu, Landed(l.k, m), m.sh)
  }

  /** The counter on top is replaced. */
  function Goto(l: Local, pc: PC): Local
    requires l.k.Push?
  {
    l.(k := Push(Frame(l.k.top.kind, pc), l.k.rest))
  }

  /** A step of CPU c that needs no permission from the rest of the machine. */
  ghost predicate PlainStep(c: nat, l: Local, l': Local)
    requires l.k.Push?
  {
    var pc := l.k.top.pc;
    && Moves(pc) && Possible(c, l.cp, pc, l.sh) && l' == Then(l, MoveOf(c, l.cp, l.k, l.sh)) && l'.cp.esp == l.cp.esp
    && (pc.QLock? || pc.DLock? ==> l.sh.gate[pc.g].lock.None?)
    && (pc.Spin? ==> l.sh.turn == pc.ticket)
    && (pc.Do? ==> !(pc.b.Call? && pc.b.op.Ready?) && pc.b != Call(Schedule))
  }

  /** Other local transitions: a system call, the assassin's interrupt, its prologue, a return. */
  ghost predicate OtherStep(c: nat, l: Local, l': Local)
    requires l.k.Push?
  {
    var pc := l.k.top.pc;
    || (pc.Run? && exists op :: l' == Goto(l, EnterOff(Call(op))))
    || (l.cp.ie && ASSASSIN < |l.sh.gate| && c in l.sh.ipi
        && l' == Local(l.cp.(ie := false), Handler(l.cp, l.k, Prologue(ASSASSIN)), l.sh.(ipi := l.sh.ipi - {c})))
    || (pc == Prologue(ASSASSIN) && l' == Goto(l, TestFlag(ASSASSIN)))
    || (pc.Iret? && l.k.top.kind.Isr? && l.k.rest.Push?
        && l' == Local(l.cp.(ie := true, regs := l.k.top.kind.regs), l.k.rest, l.sh))
  }

  ghost predicate Follows(c: nat, l: Local, l': Local) {
    l.k.Push? && c < |l.sh.life| && (PlainStep(c, l, l') || OtherStep(c, l, l'))
  }

  /** A set of local states that CPU c does not leave by such transitions. */
  ghost predicate Closed(c: nat, seen: iset<Local>) {
    forall l, l' :: l in seen && Follows(c, l, l') ==> l' in seen
  }

  // ---------- the guard ----------

  lemma LeaveGoes(c: nat, seen: iset<Local>, l: Local, l': Local)
    requires Closed(c, seen) && l in seen && l.k.Push? && c < |l.sh.life| && Leaving(l.k.top.pc)
    requires l' == Then(l, LeaveMove(l.cp, l.k.top.pc, l.sh, l.k.top.kind))
    ensures l' in seen
  {
    assert Follows(c, l, l');
  }

  /** The release, with interrupts disabled. */
  lemma Releases(c: nat, seen: iset<Local>, cp: Cpu, sh: Shared)
    requires Closed(c, seen) && Local(cp, Level0(LeaveRead), sh) in seen && c < |sh.life| && sh.waiting == [c]
    ensures var sh' := sh.(turn := (sh.turn + 1) % WRAP, waiting := []);
      Local(cp.(ie := true), Level0(PC.Run), sh') in seen
  {
    var sh' := sh.(turn := (sh.turn + 1) % WRAP, waiting := []);
    var l := Local(cp, Level0(LeaveTurn(sh.turn)), sh);
    LeaveGoes(c, seen, Local(cp, Level0(LeaveRead), sh), l);
    TurnGoes(c, seen, cp, sh);
    LeaveGoes(c, seen, Local(cp, Level0(LeaveOn), sh'), Local(cp.(ie := true), Level0(PC.Run), sh'));
  }

  lemma TurnGoes(c: nat, seen: iset<Local>, cp: Cpu, sh: Shared)
    requires Closed(c, seen) && Local(cp, Level0(LeaveTurn(sh.turn)), sh) in seen && c < |sh.life| && sh.waiting == [c]
    ensures Local(cp, Level0(LeaveOn), sh.(turn := (sh.turn + 1) % WRAP, waiting := [])) in seen
  {
    assert sh.waiting[1..] == [];
    LeaveGoes(c, seen, Local(cp, Level0(LeaveTurn(sh.turn)), sh),
              Local(cp, Level0(LeaveOn), sh.(turn := (sh.turn + 1) % WRAP, waiting := [])));
  }

  /** Back to level 0, with nothing in the epilogue queue. */
  lemma Leaves(c: nat, seen: iset<Local>, cp: Cpu, sh: Shared)
    requires Closed(c, seen) && Local(cp, Level0(LeaveOff), sh) in seen && c < |sh.life|
    requires cp.queue == [] && sh.waiting == [c]
    ensures var sh' := sh.(turn := (sh.turn + 1) % WRAP, waiting := []);
      Local(cp.(ie := true, flag := false), Level0(PC.Run), sh') in seen
  {
    var off := cp.(ie := false);
    LeaveGoes(c, seen, Local(cp, Level0(LeaveOff), sh), Local(off, Level0(LeaveDequeue), sh));
    LeaveGoes(c, seen, Local(off, Level0(LeaveDequeue), sh), Local(off, Level0(LeaveFlag), sh));
    LeaveGoes(c, seen, Local(off, Level0(LeaveFlag), sh), Local(off.(flag := false), Level0(LeaveRead), sh));
    Releases(c, seen, off.(flag := false), sh);
  }

  lemma EnterGoes(c: nat, seen: iset<Local>, l: Local, l': Local)
    requires Closed(c, seen) && l in seen && l.k.Push? && c < |l.sh.life| && Entering(l.k.top.pc)
    requires l.k.top.pc.Spin? ==> l.sh.turn == l.k.top.pc.ticket
    requires l' == Then(l, EnterMove(c, l.cp, l.k.top.pc, l.sh))
    ensures l' in seen
  {
    assert Follows(c, l, l');
  }

  /** A call of a guarded operation, up to its ticket: the flag is up. */
  lemma Announces(c: nat, seen: iset<Local>, cp: Cpu, sh: Shared, op: Op)
    requires Closed(c, seen) && Local(cp, Level0(PC.Run), sh) in seen && c < |sh.life|
    ensures Local(cp.(ie := true, flag := true), Level0(Take(Call(op))), sh) in seen
  {
    var b, off := Call(op), cp.(ie := false);
    Calls(c, seen, cp, sh, op);
    EnterGoes(c, seen, Local(cp, Level0(EnterOff(b)), sh), Local(off, Level0(EnterFlag(b)), sh));
    EnterGoes(c, seen, Local(off, Level0(EnterFlag(b)), sh), Local(off.(flag := true), Level0(EnterOn(b)), sh));
    EnterGoes(c, seen, Local(off.(flag := true), Level0(EnterOn(b)), sh),
              Local(cp.(ie := true, flag := true), Level0(Take(b)), sh));
  }

  lemma Calls(c: nat, seen: iset<Local>, cp: Cpu, sh: Shared, op: Op)
    requires Closed(c, seen) && Local(cp, Level0(PC.Run), sh) in seen && c < |sh.life|
    ensures Local(cp, Level0(EnterOff(Call(op))), sh) in seen
  {
    var l := Local(cp, Level0(PC.Run), sh);
    assert OtherStep(c, l, Goto(l, EnterOff(Call(op))));
    assert Follows(c, l, Goto(l, EnterOff(Call(op))));
  }

  /** The lock is free and taken. */
  lemma Acquires(c: nat, seen: iset<Local>, cp: Cpu, sh: Shared, b: Body)
    requires Closed(c, seen) && Local(cp, Level0(Take(b)), sh) in seen && c < |sh.life| && sh.ticket == sh.turn
    ensures Local(cp, Level0(Do(b)), sh.(ticket := (sh.ticket + 1) % WRAP, waiting := sh.waiting + [c])) in seen
  {
    var sh' := sh.(ticket := (sh.ticket + 1) % WRAP, waiting := sh.waiting + [c]);
    EnterGoes(c, seen, Local(cp, Level0(Take(b)), sh), Local(cp, Level0(Spin(b, sh.ticket)), sh'));
    EnterGoes(c, seen, Local(cp, Level0(Spin(b, sh.ticket)), sh'), Local(cp, Level0(Do(b)), sh'));
  }

  // ---------- a kill, and the interrupt that follows it ----------

  lemma KillGoes(c: nat, seen: iset<Local>, l: Local, l': Local)
    requires Closed(c, seen) && l in seen && l.k.Push? && c < |l.sh.life|
    requires l.k.top.pc.KillRemove? || l.k.top.pc.KillIpi?
    requires l' == Then(l, KillMove(c, l.cp, l.k.top.pc, l.sh))
    ensures l' in seen
  {
    assert Follows(c, l, l');
  }

  lemma DoGoes(c: nat, seen: iset<Local>, l: Local, l': Local, b: Body)
    requires Closed(c, seen) && l in seen && l.k.Push? && c < |l.sh.life| && l.k.top.pc == Do(b)
    requires Possible(c, l.cp, Do(b), l.sh) && !(b.Call? && b.op.Ready?) && b != Call(Schedule)
    requires l' == Then(l, DoMove(c, l.cp, b, l.sh))
    ensures l' in seen
  {
    assert Follows(c, l, l');
  }

  /** The kill of a thread that runs on one of two CPUs. */
  lemma Kills(c: nat, seen: iset<Local>, cp: Cpu, sh: Shared, t: nat)
    requires Closed(c, seen) && Local(cp, Level0(Do(Call(Kill(t)))), sh) in seen && c < |sh.life| == 2
    requires t < |sh.thr| && t !in sh.jobs && Target(sh.life, t) < 2
    ensures Local(cp, Level0(LeaveOff), Struck(sh, t)) in seen
  {
    var sh1 := sh.(thr := sh.thr[t := sh.thr[t].(kill := true)]);
    DoGoes(c, seen, Local(cp, Level0(Do(Call(Kill(t)))), sh), Local(cp, Level0(KillRemove(t)), sh1), Call(Kill(t)));
    KillGoes(c, seen, Local(cp, Level0(KillRemove(t)), sh1), Local(cp, Level0(KillIpi(t)), sh1));
    MaskIsOneBit(Target(sh.life, t), 2);
    KillGoes(c, seen, Local(cp, Level0(KillIpi(t)), sh1),
             Local(cp, Level0(LeaveOff), sh1.(ipi := sh.ipi + {Target(sh.life, t)})));
  }

  function Struck(sh: Shared, t: nat): Shared
    requires t < |sh.thr|
  {
    sh.(thr := sh.thr[t := sh.thr[t].(kill := true)], ipi := sh.ipi + {Target(sh.life, t)})
  }

  lemma RelayGoes(c: nat, seen: iset<Local>, l: Local, l': Local)
    requires Closed(c, seen) && l in seen && l.k.Push? && c < |l.sh.life| && Relaying(l.k.top.pc)
    requires l.k.top.pc.Enqueue? ==> l.k.top.pc.g < |l.sh.gate|
    requires l' == Then(l, RelayMove(c, l.cp, l.k.top.pc, l.sh))
    ensures l' in seen
  {
    assert Follows(c, l, l');
  }

  lemma QueuedGoes(c: nat, seen: iset<Local>, l: Local, l': Local)
    requires Closed(c, seen) && l in seen && l.k.Push? && c < |l.sh.life| && Queueing(l.k.top.pc)
    requires Possible(c, l.cp, l.k.top.pc, l.sh) && (l.k.top.pc.QLock? ==> l.sh.gate[l.k.top.pc.g].lock.None?)
    requires l' == Then(l, QueuedMove(c, l.cp, l.k.top.pc, l.sh))
    ensures l' in seen
  {
    assert Follows(c, l, l');
  }

  /** The handler's stack, at pc, over interrupted code. */
  function Handler(cp: Cpu, k: Stack, pc: PC): Stack { Push(Frame(Isr(cp.regs), pc), k) }

  /** The assassin's interrupt with the flag up, to the point where queue_flag is to be read. */
  lemma Requests(c: nat, seen: iset<Local>, cp: Cpu, k: Stack, sh: Shared)
    requires Closed(c, seen) && Local(cp, k, sh) in seen && k.Push? && c < |sh.life| && cp.ie && cp.flag && c in sh.ipi
    requires ASSASSIN < |sh.gate| && sh.gate[ASSASSIN].lock.None?
    ensures Local(cp.(ie := false), Handler(cp, k, QRead(ASSASSIN)), Locked(sh.(ipi := sh.ipi - {c}), c)) in seen
  {
    var off, sh' := cp.(ie := false), sh.(ipi := sh.ipi - {c});
    var l0 := Local(off, Handler(cp, k, Prologue(ASSASSIN)), sh');
    assert Follows(c, Local(cp, k, sh), l0);
    assert Follows(c, l0, Goto(l0, TestFlag(ASSASSIN)));
    RelayGoes(c, seen, Goto(l0, TestFlag(ASSASSIN)), Goto(l0, QLock(ASSASSIN)));
    QueuedGoes(c, seen, Goto(l0, QLock(ASSASSIN)), Local(off, Handler(cp, k, QRead(ASSASSIN)), Locked(sh', c)));
  }

  function Locked(sh: Shared, c: nat): Shared
    requires ASSASSIN < |sh.gate|
  {
    sh.(gate := sh.gate[ASSASSIN := sh.gate[ASSASSIN].(lock := Some(c))])
  }

  /** A request that finds queue_flag clear is queued, and the handler returns. */
  lemma Enqueues(c: nat, seen: iset<Local>, cp: Cpu, k: Stack, sh: Shared)
    requires ASSASSIN < |sh.gate| && sh.gate[ASSASSIN] == Gate(Some(c), false) && k.Push? && c < |sh.life| && cp.ie
    requires Closed(c, seen) && Local(cp.(ie := false), Handler(cp, k, QRead(ASSASSIN)), sh) in seen
    ensures Local(cp.(queue := cp.queue + [ASSASSIN]), k, sh.(gate := sh.gate[ASSASSIN := Gate(None, true)])) in seen
  {
    var off := cp.(ie := false);
    var sh1 := sh.(gate := sh.gate[ASSASSIN := Gate(Some(c), true)]);
    var l := Local(off, Handler(cp, k, QRead(ASSASSIN)), sh);
    QueuedGoes(c, seen, l, Goto(l, QWrite(ASSASSIN, true)));
    QueuedGoes(c, seen, Goto(l, QWrite(ASSASSIN, true)), Local(off, Handler(cp, k, QUnlock(ASSASSIN, true)), sh1));
    Unlocks(c, seen, cp, k, sh1);
    assert sh1.gate[ASSASSIN := Gate(None, true)] == sh.gate[ASSASSIN := Gate(None, true)];
  }

  lemma Unlocks(c: nat, seen: iset<Local>, cp: Cpu, k: Stack, sh: Shared)
    requires ASSASSIN < |sh.gate| && sh.gate[ASSASSIN] == Gate(Some(c), true) && k.Push? && c < |sh.life| && cp.ie
    requires Closed(c, seen) && Local(cp.(ie := false), Handler(cp, k, QUnlock(ASSASSIN, true)), sh) in seen
    ensures Local(cp.(queue := cp.queue + [ASSASSIN]), k, sh.(gate := sh.gate[ASSASSIN := Gate(None, true)])) in seen
  {
    var off := cp.(ie := false);
    var sh' := sh.(gate := sh.gate[ASSASSIN := Gate(None, true)]);
    var l := Local(off, Handler(cp, k, Enqueue(ASSASSIN)), sh');
    QueuedGoes(c, seen, Local(off, Handler(cp, k, QUnlock(ASSASSIN, true)), sh), l);
    var full := off.(queue := cp.queue + [ASSASSIN]);
    RelayGoes(c, seen, l, Local(full, Handler(cp, k, Tail), sh'));
    RelayGoes(c, seen, Local(full, Handler(cp, k, Tail), sh'), Local(full.(ie := true), Handler(cp, k, Iret), sh'));
    assert Follows(c, Local(full.(ie := true), Handler(cp, k, Iret), sh'), Local(full.(ie := true), k, sh'));
    assert full.(ie := true) == cp.(queue := cp.queue + [ASSASSIN]);
  }

  /** A request that finds queue_flag set, and the return from the handler. */
  lemma Swallowed(c: nat, seen: iset<Local>, cp: Cpu, k: Stack, sh: Shared)
    requires ASSASSIN < |sh.gate| && sh.gate[ASSASSIN] == Gate(Some(c), true) && k.Push? && c < |sh.life| && cp.ie
    requires Closed(c, seen) && Local(cp.(ie := false), Handler(cp, k, QRead(ASSASSIN)), sh) in seen
    ensures Local(cp, k, sh.(gate := sh.gate[ASSASSIN := Gate(None, true)])) in seen
  {
    var off, sh' := cp.(ie := false), sh.(gate := sh.gate[ASSASSIN := Gate(None, true)]);
    var l := Local(off, Handler(cp, k, QRead(ASSASSIN)), sh);
    assert sh.gate[ASSASSIN := sh.gate[ASSASSIN].(queued := true)] == sh.gate;
    QueuedGoes(c, seen, l, Goto(l, QWrite(ASSASSIN, false)));
    QueuedGoes(c, seen, Goto(l, QWrite(ASSASSIN, false)), Goto(l, QUnlock(ASSASSIN, false)));
    QueuedGoes(c, seen, Goto(l, QUnlock(ASSASSIN, false)), Local(off, Handler(cp, k, Tail), sh'));
    RelayGoes(c, seen, Local(off, Handler(cp, k, Tail), sh'), Local(cp, Handler(cp, k, Iret), sh'));
    assert Follows(c, Local(cp, Handler(cp, k, Iret), sh'), Local(cp, k, sh'));
  }

  // ---------- from one CPU to the whole machine ----------

  ghost predicate At(s: State, c: nat, l: Local) {
    c < |s.cpu| && l.cp.esp == s.cpu[c].esp && Reachable(Put(s, c, l.cp, l.k, l.sh))
  }

  /** What CPU c can come to from s while the others stand still. */
  ghost function Alone(s: State, c: nat): iset<Local> {
    iset l: Local | At(s, c, l)
  }

  lemma PutAgain(s: State, c: nat, l: Local, l': Local)
    requires c < |s.cpu| && l.cp.esp == s.cpu[c].esp
    ensures var s1 := Put(s, c, l.cp, l.k, l.sh);
      && Stk(s1, c) == l.k && s1.cpu[c] == l.cp && s1.sh == l.sh
      && Put(s1, c, l'.cp, l'.k, l'.sh) == Put(s, c, l'.cp, l'.k, l'.sh)
  {
    var s1 := Put(s, c, l.cp, l.k, l.sh);
    assert s1.cpu[c := l'.cp] == s.cpu[c := l'.cp];
    assert s1.stk[s.cpu[c].esp := l'.k] == s.stk[s.cpu[c].esp := l'.k];
  }

  lemma Steps(s: State, c: nat, l: Local)
    requires At(s, c, l) && Enabled(Put(s, c, l.cp, l.k, l.sh), c, Step)
    requires l.k.Push? && Possible(c, l.cp, l.k.top.pc, l.sh) && MoveOf(c, l.cp, l.k, l.sh).cpu.esp == l.cp.esp
    ensures At(s, c, Then(l, MoveOf(c, l.cp, l.k, l.sh)))
  {
    PutAgain(s, c, l, Then(l, MoveOf(c, l.cp, l.k, l.sh)));
    Goes(Put(s, c, l.cp, l.k, l.sh), c, Step);
  }

  lemma Plainly(s: State, c: nat, l: Local, l': Local)
    requires At(s, c, l) && l.k.Push? && PlainStep(c, l, l')
    ensures At(s, c, l')
  {
    PutAgain(s, c, l, l');
    Steps(s, c, l);
  }

  lemma Otherwise(s: State, c: nat, l: Local, l': Local)
    requires At(s, c, l) && l.k.Push? && OtherStep(c, l, l')
    ensures At(s, c, l')
  {
    PutAgain(s, c, l, l');
    var s1, pc := Put(s, c, l.cp, l.k, l.sh), l.k.top.pc;
    if op :| pc.Run? && l' == Goto(l, EnterOff(Call(op))) { Goes(s1, c, Syscall(op)); }
    else if pc == Prologue(ASSASSIN) && l' == Goto(l, TestFlag(ASSASSIN)) { Goes(s1, c, Outcome(true)); }
    else if pc.Iret? && l.k.top.kind.Isr? && l' == Local(l.cp.(ie := true, regs := l.k.top.kind.regs), l.k.rest, l.sh) {
      Goes(s1, c, Act.Return);
    } else { Goes(s1, c, Interrupt(ASSASSIN)); }
  }

  lemma AloneIsClosed(s: State, c: nat)
    ensures Closed(c, Alone(s, c))
  {
    forall l, l' | l in Alone(s, c) && Follows(c, l, l') ensures l' in Alone(s, c) {
      if PlainStep(c, l, l') { Plainly(s, c, l, l'); } else { Otherwise(s, c, l, l'); }
    }
  }

  lemma StandsStill(s: State, c: nat)
    requires Reachable(s) && c < |s.cpu| && s.cpu[c].esp in s.stk
    ensures Local(s.cpu[c], Stk(s, c), s.sh) in Alone(s, c)
  {
    assert s.cpu[c := s.cpu[c]] == s.cpu && s.stk[s.cpu[c].esp := Stk(s, c)] == s.stk;
    assert Put(s, c, s.cpu[c], Stk(s, c), s.sh) == s;
  }

  // ---------- guarded calls ----------

  /** CPU c runs level-0 code, with nothing queued and the guard's lock free. */
  ghost predicate Free(s: State, c: nat) {
    && Reachable(s) && c < |s.cpu| && c < |s.sh.life| && s.cpu[c].esp in s.stk && Stk(s, c) == Level0(PC.Run)
    && s.cpu[c].queue == [] && s.sh.waiting == [] && s.sh.ticket == s.sh.turn
  }

  function Taken(sh: Shared, c: nat): Shared {
    sh.(ticket := (sh.ticket + 1) % WRAP, waiting := [c])
  }

  function Served(sh: Shared): Shared {
    sh.(ticket := (sh.ticket + 1) % WRAP, turn := (sh.turn + 1) % WRAP, waiting := [])
  }

  /** In the guard with the flag up; and back at level 0. */
  function Up(cp: Cpu): Cpu { cp.(ie := true, flag := true) }

  function Down(cp: Cpu): Cpu { cp.(ie := true, flag := false) }

  lemma Raises(s: State, c: nat, op: Op)
    requires Free(s, c)
    ensures Local(Up(s.cpu[c]), Level0(Take(Call(op))), s.sh) in Alone(s, c)
  {
    AloneIsClosed(s, c);
    StandsStill(s, c);
    Announces(c, Alone(s, c), s.cpu[c], s.sh, op);
  }

  lemma TakesLock(s: State, c: nat, op: Op)
    requires Free(s, c)
    ensures Local(Up(s.cpu[c]), Level0(Do(Call(op))), Taken(s.sh, c)) in Alone(s, c)
  {
    AloneIsClosed(s, c);
    Raises(s, c, op);
    assert s.sh.waiting + [c] == [c];
    Acquires(c, Alone(s, c), Up(s.cpu[c]), s.sh, Call(op));
  }

  /** CPU c makes thread t ready. */
  lemma Readies(s: State, c: nat, t: nat)
    requires Free(s, c) && MayReady(s, t)
    ensures Reachable(Put(s, c, Down(s.cpu[c]), Level0(PC.Run), Served(s.sh).(jobs := s.sh.jobs + [t])))
  {
    TakesLock(s, c, Ready(t));
    ReadyStep(s, c, Up(s.cpu[c]), Taken(s.sh, c), t);
    Departs(s, c, Up(s.cpu[c]), Taken(s.sh, c).(jobs := s.sh.jobs + [t]));
  }

  lemma ReadyStep(s: State, c: nat, cp: Cpu, sh: Shared, t: nat)
    requires At(s, c, Local(cp, Level0(Do(Call(Ready(t)))), sh)) && c < |sh.life|
    requires MayReady(s, t) && sh.thr == s.sh.thr && sh.jobs == s.sh.jobs && sh.life == s.sh.life
    ensures At(s, c, Local(cp, Level0(LeaveOff), sh.(jobs := sh.jobs + [t])))
  {
    var l := Local(cp, Level0(Do(Call(Ready(t)))), sh);
    PutAgain(s, c, l, l);
    assert Esps(Put(s, c, cp, l.k, sh)) == Esps(s);
    Steps(s, c, l);
  }

  /** CPU c's boot code starts the first ready thread, up to the load of its registers. */
  lemma Schedules(s: State, c: nat)
    requires Free(s, c) && s.cpu[c].esp.Boot? && s.sh.jobs != []
    ensures var t := s.sh.jobs[0];
      var sh' := Taken(s.sh, c).(jobs := s.sh.jobs[1..], life := s.sh.life[c := Some(t)]);
      Reachable(Put(s, c, Up(s.cpu[c]).(timer := true), Level0(Load(None, t)), sh'))
  {
    var t, cp, sh := s.sh.jobs[0], Up(s.cpu[c]).(timer := true), Taken(s.sh, c).(jobs := s.sh.jobs[1..]);
    AloneIsClosed(s, c);
    TakesLock(s, c, Schedule);
    ScheduleStep(s, c, Up(s.cpu[c]), Taken(s.sh, c));
    Starts(c, Alone(s, c), Up(s.cpu[c]), sh, t);
    assert Local(cp, Level0(Load(None, t)), sh.(life := s.sh.life[c := Some(t)])) in Alone(s, c);
  }

  lemma ScheduleStep(s: State, c: nat, cp: Cpu, sh: Shared)
    requires At(s, c, Local(cp, Level0(Do(Call(Schedule))), sh)) && c < |sh.life| && cp.esp.Boot? && sh.jobs != []
    ensures At(s, c, Local(cp, Level0(ScheduleTimer(sh.jobs[0])), sh.(jobs := sh.jobs[1..])))
  {
    var l := Local(cp, Level0(Do(Call(Schedule))), sh);
    PutAgain(s, c, l, l);
    Steps(s, c, l);
  }

  lemma ScheduleGoes(c: nat, seen: iset<Local>, l: Local, l': Local)
    requires Closed(c, seen) && l in seen && l.k.Push? && c < |l.sh.life| && Scheduling(l.k.top.pc)
    requires l' == Then(l, ScheduleMove(c, l.cp, l.k.top.pc, l.sh))
    ensures l' in seen
  {
    assert Follows(c, l, l');
  }

  lemma Starts(c: nat, seen: iset<Local>, cp: Cpu, sh: Shared, t: nat)
    requires Closed(c, seen) && Local(cp, Level0(ScheduleTimer(t)), sh) in seen && c < |sh.life| && cp.ie
    ensures Local(cp.(timer := true), Level0(Load(None, t)), sh.(life := sh.life[c := Some(t)])) in seen
  {
    var on := cp.(timer := true);
    ScheduleGoes(c, seen, Local(cp, Level0(ScheduleTimer(t)), sh), Local(on, Level0(ScheduleOff(t)), sh));
    ScheduleGoes(c, seen, Local(on, Level0(ScheduleOff(t)), sh), Local(on.(ie := false), Level0(ScheduleLife(t)), sh));
    NamesThread(c, seen, on, sh, t);
  }

  lemma NamesThread(c: nat, seen: iset<Local>, on: Cpu, sh: Shared, t: nat)
    requires Closed(c, seen) && Local(on.(ie := false), Level0(ScheduleLife(t)), sh) in seen && c < |sh.life| && on.ie
    ensures Local(on, Level0(Load(None, t)), sh.(life := sh.life[c := Some(t)])) in seen
  {
    var off, sh' := on.(ie := false), sh.(life := sh.life[c := Some(t)]);
    ScheduleGoes(c, seen, Local(off, Level0(ScheduleLife(t)), sh), Local(off, Level0(ScheduleOn(t)), sh'));
    ScheduleGoes(c, seen, Local(off, Level0(ScheduleOn(t)), sh'), Local(on, Level0(Load(None, t)), sh'));
  }

  /** CPU c kills thread t, which runs on another CPU, up to the point where it leaves the guard. */
  lemma Strikes(s: State, c: nat, t: nat, cp: Cpu, sh: Shared)
    requires Local(cp, Level0(Take(Call(Kill(t)))), sh) in Alone(s, c) && c < |sh.life| == 2
    requires sh.ticket == sh.turn && sh.waiting == [] && t < |sh.thr| && t !in sh.jobs && Target(sh.life, t) < 2
    ensures Local(cp, Level0(LeaveOff), Taken(Struck(sh, t), c)) in Alone(s, c)
  {
    AloneIsClosed(s, c);
    assert sh.waiting + [c] == [c];
    Acquires(c, Alone(s, c), cp, sh, Call(Kill(t)));
    Kills(c, Alone(s, c), cp, Taken(sh, c), t);
  }

  /** CPU c leaves the guard with nothing queued. */
  lemma Departs(s: State, c: nat, cp: Cpu, sh: Shared)
    requires Local(cp, Level0(LeaveOff), sh) in Alone(s, c) && c < |sh.life| && cp.queue == [] && sh.waiting == [c]
    ensures Reachable(Put(s, c, Down(cp), Level0(PC.Run), sh.(turn := (sh.turn + 1) % WRAP, waiting := [])))
  {
    AloneIsClosed(s, c);
    Leaves(c, Alone(s, c), cp, sh);
    assert Local(Down(cp), Level0(PC.Run), sh.(turn := (sh.turn + 1) % WRAP, waiting := [])) in Alone(s, c);
  }

  // ---------- the run: two CPUs, two threads ----------

  /** A CPU that runs level-0 code on stack esp; its timer is on once a thread has been started. */
  function Calm(esp: Ctx): Cpu { Cpu(true, false, [], esp, 0, esp.Thr?) }

  /** Thread t as it was constructed, but for its kill flag. */
  function Person(t: nat, kill: bool): Thread { Thread(kill, Toc(0, Thr(t)), 0, Level0(LeaveOff)) }

  /** Shared memory while the lock is free, after n guarded calls. */
  function Mem(life: seq<Option<nat>>, kill0: bool, kill1: bool, queued: bool,
               jobs: seq<nat>, n: nat, ipi: set<nat>): Shared
  {
    Shared(life, [Person(0, kill0), Person(1, kill1)], [Gate(None, queued), Gate(None, false)], jobs, n, n, [], ipi)
  }

  /** The CPUs, and the counters of their boot stacks and of the threads' stacks. */
  function World(cpu: seq<Cpu>, boot: seq<PC>, thr: seq<PC>, sh: Shared): State
    requires |cpu| == |boot| == |thr| == 2
  {
    State(cpu, map[Boot(0) := Level0(boot[0]), Boot(1) := Level0(boot[1]),
                   Thr(0) := Level0(thr[0]), Thr(1) := Level0(thr[1])], sh)
  }

  lemma PutBoot(cpu: seq<Cpu>, boot: seq<PC>, thr: seq<PC>, sh: Shared, c: nat, cp: Cpu, pc: PC, sh': Shared)
    requires |cpu| == |boot| == |thr| == 2 && c < 2 && cpu[c].esp == Boot(c)
    ensures Put(World(cpu, boot, thr, sh), c, cp, Level0(pc), sh') == World(cpu[c := cp], boot[c := pc], thr, sh')
  {
  }

  lemma PutThread(cpu: seq<Cpu>, boot: seq<PC>, thr: seq<PC>, sh: Shared, c: nat, cp: Cpu, pc: PC, sh': Shared)
    requires |cpu| == |boot| == |thr| == 2 && c < 2 && cpu[c].esp == Thr(c)
    ensures Put(World(cpu, boot, thr, sh), c, cp, Level0(pc), sh') == World(cpu[c := cp], boot, thr[c := pc], sh')
  {
  }

  /** CPU c's boot code makes thread t ready. */
  lemma Offers(cpu: seq<Cpu>, boot: seq<PC>, thr: seq<PC>, sh: Shared, c: nat, t: nat)
    requires |cpu| == |boot| == |thr| == 2 && c < 2 && cpu[c] == Calm(Boot(c))
    requires Free(World(cpu, boot, thr, sh), c) && MayReady(World(cpu, boot, thr, sh), t)
    ensures Reachable(World(cpu, boot, thr, Served(sh).(jobs := sh.jobs + [t])))
  {
    Readies(World(cpu, boot, thr, sh), c, t);
    PutBoot(cpu, boot, thr, sh, c, Calm(Boot(c)), PC.Run, Served(sh).(jobs := sh.jobs + [t]));
    assert cpu[c := Calm(Boot(c))] == cpu && boot[c := PC.Run] == boot;
  }

  lemma Fetches(cpu: seq<Cpu>, boot: seq<PC>, thr: seq<PC>, sh: Shared, c: nat)
    requires |cpu| == |boot| == |thr| == 2 && c < 2 && cpu[c] == Calm(Boot(c))
    requires Free(World(cpu, boot, thr, sh), c) && sh.jobs != [] && sh.jobs[0] == c
    ensures Reachable(World(cpu[c := Up(Calm(Boot(c))).(timer := true)], boot[c := Load(None, c)], thr,
                            Taken(sh, c).(jobs := sh.jobs[1..], life := sh.life[c := Some(c)])))
  {
    Schedules(World(cpu, boot, thr, sh), c);
    PutBoot(cpu, boot, thr, sh, c, Up(Calm(Boot(c))).(timer := true), Load(None, c),
            Taken(sh, c).(jobs := sh.jobs[1..], life := sh.life[c := Some(c)]));
  }

  /** CPU c starts thread c, the first in the ready list. */
  lemma Loads(cpu: seq<Cpu>, boot: seq<PC>, thr: seq<PC>, sh: Shared, c: nat)
    requires |cpu| == |boot| == |thr| == 2 == |sh.life| && c < 2 && cpu[c] == Calm(Boot(c)) && thr[c] == Fresh
    requires Free(World(cpu, boot, thr, sh), c) && sh.jobs != [] && sh.jobs[0] == c
    requires sh.thr == [Person(0, false), Person(1, false)]
    ensures Reachable(World(cpu[c := Calm(Thr(c))], boot[c := Load(None, c)], thr[c := PC.Run],
                            Served(sh).(jobs := sh.jobs[1..], life := sh.life[c := Some(c)])))
  {
    var cpu' := cpu[c := Up(Calm(Boot(c))).(timer := true)];
    var sh' := Taken(sh, c).(jobs := sh.jobs[1..], life := sh.life[c := Some(c)]);
    Fetches(cpu, boot, thr, sh, c);
    Begins(cpu', boot[c := Load(None, c)], thr, sh', c);
    assert cpu'[c := Calm(Thr(c))] == cpu[c := Calm(Thr(c))];
  }

  lemma Begins(cpu: seq<Cpu>, boot: seq<PC>, thr: seq<PC>, sh: Shared, c: nat)
    requires |cpu| == |boot| == |thr| == 2 == |sh.life| && c < 2 && Reachable(World(cpu, boot, thr, sh))
    requires cpu[c] == Up(Calm(Boot(c))).(timer := true) && boot[c] == Load(None, c) && thr[c] == Fresh
    requires sh.thr == [Person(0, false), Person(1, false)] && sh.waiting == [c]
    ensures Reachable(World(cpu[c := Calm(Thr(c))], boot, thr[c := PC.Run],
                            sh.(turn := (sh.turn + 1) % WRAP, waiting := [])))
  {
    var up, sh' := Up(Calm(Thr(c))), sh.(turn := (sh.turn + 1) % WRAP, waiting := []);
    SwitchesTo(cpu, boot, thr, sh, c);
    var cpu', thr' := cpu[c := up], thr[c := LeaveOff];
    StandsStill(World(cpu', boot, thr', sh), c);
    Departs(World(cpu', boot, thr', sh), c, up, sh);
    PutThread(cpu', boot, thr', sh, c, Calm(Thr(c)), PC.Run, sh');
    assert cpu'[c := Calm(Thr(c))] == cpu[c := Calm(Thr(c))] && thr'[c := PC.Run] == thr[c := PC.Run];
  }

  lemma SwitchesTo(cpu: seq<Cpu>, boot: seq<PC>, thr: seq<PC>, sh: Shared, c: nat)
    requires |cpu| == |boot| == |thr| == 2 == |sh.life| && c < 2 && Reachable(World(cpu, boot, thr, sh))
    requires cpu[c] == Up(Calm(Boot(c))).(timer := true) && boot[c] == Load(None, c) && thr[c] == Fresh
    requires sh.thr == [Person(0, false), Person(1, false)]
    ensures Reachable(World(cpu[c := Up(Calm(Thr(c)))], boot, thr[c := LeaveOff], sh))
  {
    var s := World(cpu, boot, thr, sh);
    Goes(s, c, Act.Switch);
    assert Next(s, c, Act.Switch) == World(cpu[c := Up(Calm(Thr(c)))], boot, thr[c := LeaveOff], sh);
  }

  /** CPU 0's boot code makes both threads ready. */
  lemma OneReady()
    ensures Reachable(World([Calm(Boot(0)), Calm(Boot(1))], [PC.Run, PC.Run], [Fresh, Fresh],
                            Mem([None, None], false, false, false, [0], 1, {})))
  {
    var m := Mem([None, None], false, false, false, [], 0, {});
    Boots(World([Calm(Boot(0)), Calm(Boot(1))], [PC.Run, PC.Run], [Fresh, Fresh], m));
    Offers([Calm(Boot(0)), Calm(Boot(1))], [PC.Run, PC.Run], [Fresh, Fresh], m, 0, 0);
    assert m.jobs + [0] == [0];
  }

  lemma BothReady()
    ensures Reachable(World([Calm(Boot(0)), Calm(Boot(1))], [PC.Run, PC.Run], [Fresh, Fresh],
                            Mem([None, None], false, false, false, [0, 1], 2, {})))
  {
    var m := Mem([None, None], false, false, false, [0], 1, {});
    OneReady();
    Offers([Calm(Boot(0)), Calm(Boot(1))], [PC.Run, PC.Run], [Fresh, Fresh], m, 0, 1);
    assert m.jobs + [1] == [0, 1];
  }

  /** Thread 0 runs on CPU 0. */
  lemma OneRuns()
    ensures Reachable(World([Calm(Thr(0)), Calm(Boot(1))], [Load(None, 0), PC.Run], [PC.Run, Fresh],
                            Mem([Some(0), None], false, false, false, [1], 3, {})))
  {
    var cpu, boot, thr := [Calm(Boot(0)), Calm(Boot(1))], [PC.Run, PC.Run], [Fresh, Fresh];
    var m := Mem([None, None], false, false, false, [0, 1], 2, {});
    BothReady();
    Loads(cpu, boot, thr, m, 0);
    assert cpu[0 := Calm(Thr(0))] == [Calm(Thr(0)), Calm(Boot(1))];
    assert boot[0 := Load(None, 0)] == [Load(None, 0), PC.Run] && thr[0 := PC.Run] == [PC.Run, Fresh];
    assert m.jobs[1..] == [1] && m.life[0 := Some(0)] == [Some(0), None];
  }

  const BOTH: seq<Option<nat>> := [Some(0), Some(1)]

  function Threads(c0: Cpu, c1: Cpu, t0: PC, t1: PC, sh: Shared): State {
    World([c0, c1], [Load(None, 0), Load(None, 1)], [t0, t1], sh)
  }

  /** Each CPU runs the thread of its number. */
  lemma BothRun()
    ensures Reachable(Threads(Calm(Thr(0)), Calm(Thr(1)), PC.Run, PC.Run, Mem(BOTH, false, false, false, [], 4, {})))
  {
    var cpu, boot, thr := [Calm(Thr(0)), Calm(Boot(1))], [Load(None, 0), PC.Run], [PC.Run, Fresh];
    var m := Mem([Some(0), None], false, false, false, [1], 3, {});
    OneRuns();
    Loads(cpu, boot, thr, m, 1);
    assert cpu[1 := Calm(Thr(1))] == [Calm(Thr(0)), Calm(Thr(1))];
    assert boot[1 := Load(None, 1)] == [Load(None, 0), Load(None, 1)] && thr[1 := PC.Run] == [PC.Run, PC.Run];
    assert m.jobs[1..] == [] && m.life[1 := Some(1)] == BOTH;
  }

  // ---------- the two kills ----------

  lemma PutThreads(c0: Cpu, c1: Cpu, t0: PC, t1: PC, sh: Shared, cp: Cpu, pc: PC, sh': Shared)
    ensures var s := Threads(c0, c1, t0, t1, sh);
      && (c0.esp == Thr(0) ==> Put(s, 0, cp, Level0(pc), sh') == Threads(cp, c1, pc, t1, sh'))
      && (c1.esp == Thr(1) ==> Put(s, 1, cp, Level0(pc), sh') == Threads(c0, cp, t0, pc, sh'))
  {
  }

  /** Thread 1 has called kill(0), and its CPU's flag is up. */
  lemma SecondWaits()
    ensures Reachable(Threads(Calm(Thr(0)), Up(Calm(Thr(1))), PC.Run, Take(Call(Kill(0))),
                              Mem(BOTH, false, false, false, [], 4, {})))
  {
    var c0, c1, m := Calm(Thr(0)), Calm(Thr(1)), Mem(BOTH, false, false, false, [], 4, {});
    BothRun();
    Raises(Threads(c0, c1, PC.Run, PC.Run, m), 1, Kill(0));
    PutThreads(c0, c1, PC.Run, PC.Run, m, Up(c1), Take(Call(Kill(0))), m);
  }

  /** Thread 0 kills thread 1. */
  lemma FirstKills()
    ensures Reachable(Threads(Calm(Thr(0)), Up(Calm(Thr(1))), PC.Run, Take(Call(Kill(0))),
                              Mem(BOTH, false, true, false, [], 5, {1})))
  {
    var c0, c1, m := Calm(Thr(0)), Up(Calm(Thr(1))), Mem(BOTH, false, false, false, [], 4, {});
    SecondWaits();
    KillsAndReturns(Threads(c0, c1, PC.Run, Take(Call(Kill(0))), m), 0, 1);
    SecondTarget();
    var m' := Mem(BOTH, false, true, false, [], 5, {1});
    assert m.thr[1 := m.thr[1].(kill := true)] == m'.thr && m.ipi + {1} == {1};
    PutThreads(c0, c1, PC.Run, Take(Call(Kill(0))), m, c0, PC.Run, m');
  }

  lemma SecondTarget()
    ensures Target(BOTH, 0) == 0 && Target(BOTH, 1) == 1
  {
    assert BOTH[1..][0] == Some(1) && Target(BOTH[1..], 1) == 0;
  }

  lemma KillsAndReturns(s: State, c: nat, t: nat)
    requires Free(s, c) && |s.sh.life| == 2 && t < |s.sh.thr| && t !in s.sh.jobs && Target(s.sh.life, t) < 2
    ensures Reachable(Put(s, c, Down(s.cpu[c]), Level0(PC.Run), Served(Struck(s.sh, t))))
  {
    Raises(s, c, Kill(t));
    Strikes(s, c, t, Up(s.cpu[c]), s.sh);
    Departs(s, c, Up(s.cpu[c]), Taken(Struck(s.sh, t), c));
  }

  /** Shared memory once CPU 1 has taken its interrupt and killed thread 0. */
  function After(): Shared { Taken(Mem(BOTH, true, true, true, [], 5, {0}), 1) }

  /** The interrupt finds CPU 1's flag up, so the assassin is queued there; then thread 1 kills thread 0. */
  lemma SecondKills()
    ensures Reachable(Threads(Calm(Thr(0)), Up(Calm(Thr(1))).(queue := [ASSASSIN]), PC.Run, LeaveOff, After()))
  {
    var m, m' := Mem(BOTH, false, true, false, [], 5, {1}), Mem(BOTH, false, true, true, [], 5, {});
    var c1 := Up(Calm(Thr(1)));
    FirstKills();
    var s := Threads(Calm(Thr(0)), c1, PC.Run, Take(Call(Kill(0))), m);
    AloneIsClosed(s, 1);
    StandsStill(s, 1);
    Requests(1, Alone(s, 1), c1, Level0(Take(Call(Kill(0)))), m);
    assert m.ipi - {1} == {};
    Enqueues(1, Alone(s, 1), c1, Level0(Take(Call(Kill(0)))), Locked(m.(ipi := {}), 1));
    assert Locked(m.(ipi := {}), 1).gate[ASSASSIN := Gate(None, true)] == m'.gate;
    assert c1.queue + [ASSASSIN] == [ASSASSIN];
    Strikes(s, 1, 0, c1.(queue := [ASSASSIN]), m');
    SecondTarget();
    assert m'.thr[0 := m'.thr[0].(kill := true)] == After().thr && m'.ipi + {0} == {0};
    PutThreads(Calm(Thr(0)), c1, PC.Run, Take(Call(Kill(0))), m, c1.(queue := [ASSASSIN]), LeaveOff, After());
  }

  /** CPU d runs thread t's own code or a call it made, with interrupts enabled and none pending from a kill;
      t was killed, and nothing is on its way to evict it. */
  ghost predicate Missed(s: State, d: nat, t: nat) {
    && d < |s.cpu| && d < |s.sh.life| && t < |s.sh.thr|
    && s.sh.thr[t].kill && s.sh.life[d] == Some(t) && s.cpu[d].esp == Thr(t) && s.cpu[d].ie
    && Stk(s, d).Push? && Stk(s, d).top.kind.Base? && !Evicting(s, d, t)
  }

  /** The gate is in CPU 1's queue, so the interrupt of the second kill does nothing on CPU 0. */
  lemma ThirdMisses()
    ensures Reachable(Threads(Up(Calm(Thr(0))), Up(Calm(Thr(1))).(queue := [ASSASSIN]), Take(Call(Section)), LeaveOff,
                              After().(ipi := {})))
  {
    var c0, c1, k := Calm(Thr(0)), Up(Calm(Thr(1))).(queue := [ASSASSIN]), Level0(Take(Call(Section)));
    var m := After().(ipi := {});
    SecondKills();
    var s := Threads(c0, c1, PC.Run, LeaveOff, After());
    AloneIsClosed(s, 0);
    StandsStill(s, 0);
    Announces(0, Alone(s, 0), c0, After(), Section);
    Requests(0, Alone(s, 0), Up(c0), k, After());
    assert After().ipi - {0} == {};
    Swallowed(0, Alone(s, 0), Up(c0), k, Locked(m, 0));
    assert Locked(m, 0).gate[ASSASSIN := Gate(None, true)] == m.gate;
    PutThreads(c0, c1, PC.Run, LeaveOff, After(), Up(c0), Take(Call(Section)), m);
  }

  /** Two threads that kill each other: such a state is reached from boot. */
  lemma KillCanBeMissed()
    ensures exists r: Run, d: nat, t: nat :: FromBoot(r) && Missed(r.states[|r.who|], d, t)
  {
    ThirdMisses();
    var s := Threads(Up(Calm(Thr(0))), Up(Calm(Thr(1))).(queue := [ASSASSIN]), Take(Call(Section)), LeaveOff,
                     After().(ipi := {}));
    var r: Run :| EndsIn(r, s);
    assert Stk(s, 0) == Level0(Take(Call(Section))) && !EvictsOn(Stk(s, 0)) && Missed(s, 0, 0);
  }
}
