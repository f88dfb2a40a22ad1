/** The kernel's concurrent core as a labelled transition system.

    Any number of CPUs run control flows that live on stacks: one boot stack per CPU and one
    stack per thread.  A CPU's stack pointer says on which stack it runs, so nothing in the
    representation keeps two CPUs off one stack.  Every access to shared memory is a step of
    its own; interrupts arrive between any two steps while the interrupt-enable bit is set.
    Memory is sequentially consistent.  A transition is a call of `Next`. */
module KernelState {
  import opened Arithmetic

  datatype Option<T> = None | Some(value: T)

  /** The critical sections opened with a `Secure` object. */
  datatype Op = Section | Ready(t: nat) | Kill(t: nat) | Resume | Exit | Schedule

  /** What runs once the epilogue level has been entered. */
  datatype Body = Call(op: Op) | Epilogue(g: nat)

  // The two gates that reach the scheduler; every other gate is a plain device.
  const ASSASSIN: nat := 0
  const WATCH: nat := 1

  datatype PC =
    | Run                                           // level 0
    // Guard::relay
    | Prologue(g: nat)
    | TestFlag(g: nat)
    | QLock(g: nat)                                 // Gate::set_queued: gate_lock.lock()
    | QRead(g: nat)                                 //   status = !queue_flag
    | QWrite(g: nat, status: bool)                  //   queue_flag = true
    | QUnlock(g: nat, status: bool)                 //   gate_lock.unlock()
    | Enqueue(g: nat)
    | Tail                                          // enable_int at the end of relay
    | Iret
    | Direct(g: nat)                                // enable_int before enter()
    // Guard::enter
    | EnterOff(b: Body)
    | EnterFlag(b: Body)
    | EnterOn(b: Body)
    | Take(b: Body)                                 // Ticketlock::lock: draw a ticket
    | Spin(b: Body, ticket: nat)                    //   wait for the turn
    // the critical section
    | Do(b: Body)
    | KillRemove(t: nat)
    | KillIpi(t: nat)
    | AssassinTest(cur: nat)
    | ResumeActive
    | ResumeEnqueue(cur: nat)
    | ResumeDequeue
    | ResumeLoop(next: nat)
    | Dispatch(succ: Option<nat>)
    | SetLife(prev: Option<nat>, succ: Option<nat>)
    | SetOn(prev: Option<nat>, succ: Option<nat>)
    | Save(from: nat, next: nat)                    // toc_switch: registers -> regs_now
    | Load(prev: Option<nat>, next: nat)             // toc_switch / toc_go: reg_then -> registers, ret
    | ScheduleTimer(next: nat)
    | ScheduleOff(next: nat)
    | ScheduleLife(next: nat)
    | ScheduleOn(next: nat)
    | Fresh                                         // a settled stack that has never run
    // Guard::leave
    | LeaveOff
    | LeaveDequeue
    | DLock(g: nat)                                 // Gate::set_dequeued
    | DClear(g: nat)
    | DUnlock(g: nat)
    | DOn(g: nat)
    | LeaveFlag
    | LeaveRead                                     // Ticketlock::unlock: read _turn
    | LeaveTurn(turn: nat)                          //   write _turn + 1
    | LeaveOn
    // CPU::die(), and undefined behaviour (a null thread); neither takes a further step
    | Dead
    | Fault

  /** Level-0 code, or an interrupt handler that saved the registers it interrupted. */
  datatype Kind = Base | Isr(regs: int)

  datatype Frame = Frame(kind: Kind, pc: PC)

  datatype Stack = Empty | Push(top: Frame, rest: Stack)

  /** Stacks are named after their owner. */
  datatype Ctx = Boot(cpu: nat) | Thr(t: nat)

  /** struct toc: the callee-saved registers as one value, and the stack pointer. */
  datatype Toc = Toc(regs: int, esp: Ctx)

  /** The last two fields are history: registers and continuation at the thread's latest call
      of toc_switch.  They are never read by a step. */
  datatype Thread = Thread(kill: bool, toc: Toc, callRegs: int, callStack: Stack)

  datatype Cpu = Cpu(ie: bool, flag: bool, queue: seq<nat>, esp: Ctx, regs: int, timer: bool)

  /** gate_lock records its holder; the program stores only whether it is taken. */
  datatype Gate = Gate(lock: Option<nat>, queued: bool)

  /** Memory that any CPU may access, and the inter-processor interrupts on their way.
      `waiting` is history: the CPUs with an outstanding ticket, in ticket order. */
  datatype Shared = Shared(life: seq<Option<nat>>, thr: seq<Thread>, gate: seq<Gate>, jobs: seq<nat>,
                           ticket: nat, turn: nat, waiting: seq<nat>, ipi: set<nat>)

  datatype State = State(cpu: seq<Cpu>, stk: map<Ctx, Stack>, sh: Shared)

  /** The choices a step leaves open. */
  datatype Act =
    | Interrupt(g: nat)
    | Compute(regs: int)        // code between the modelled steps changes registers
    | Syscall(op: Op)           // level-0 code calls a guarded operation
    | Outcome(epilogue: bool)   // result of a prologue
    | Return                    // iret
    | Switch                    // load another thread's registers
    | Step

  // ---------- classes of program counters ----------

  /** Reachable with interrupts disabled only. */
  predicate Masked(pc: PC) {
    pc.Prologue? || pc.TestFlag? || EnqueuePath(pc) || pc.Tail? || pc.Direct?
    || pc.EnterFlag? || pc.EnterOn? || pc.AssassinTest? || pc.ResumeEnqueue? || pc.ResumeDequeue?
    || pc.ResumeLoop? || pc.SetLife? || pc.SetOn? || pc.ScheduleLife? || pc.ScheduleOn?
    || pc.LeaveDequeue? || pc.DLock? || pc.DClear? || pc.DUnlock? || pc.DOn?
    || pc.LeaveFlag? || pc.LeaveRead? || pc.LeaveTurn? || pc.LeaveOn? || pc.Dead? || pc.Fault?
  }

  predicate EnqueuePath(pc: PC) {
    pc.QLock? || pc.QRead? || pc.QWrite? || pc.QUnlock? || pc.Enqueue?
  }

  /** The part of relay that may run on top of a section. */
  predicate Quiet(pc: PC) {
    pc.Prologue? || pc.TestFlag? || EnqueuePath(pc) || pc.Tail? || pc.Iret?
  }

  /** Between setting the CPU's flag and giving the lock back. */
  predicate InSection(pc: PC) {
    !(Quiet(pc) || pc.Run? || pc.Direct? || pc.EnterOff? || pc.EnterFlag? || pc.LeaveOn?)
  }

  predicate FlagUp(pc: PC) {
    InSection(pc) && !pc.LeaveRead? && !pc.LeaveTurn?
  }

  predicate Ticketed(pc: PC) {
    InSection(pc) && !pc.EnterOn? && !pc.Take?
  }

  predicate Holds(pc: PC) {
    Ticketed(pc) && !pc.Spin?
  }

  // ---------- reading the state ----------

  function Stk(s: State, c: nat): Stack
    requires c < |s.cpu|
  {
    if s.cpu[c].esp in s.stk then s.stk[s.cpu[c].esp] else Empty
  }

  /** The program counter of the frame that is inside the section, or `Run` if none is. */
  function SecPc(k: Stack): PC {
    match k
    case Empty => Run
    case Push(f, r) => if InSection(f.pc) then f.pc else SecPc(r)
  }

  function TopPc(k: Stack): PC {
    if k.Push? then k.top.pc else Run
  }

  function Sec(s: State, c: nat): PC
    requires c < |s.cpu|
  {
    SecPc(Stk(s, c))
  }

  /** Per CPU: where it is inside the section (`Run` if it is not). */
  function Secs(s: State): (r: seq<PC>)
    ensures |r| == |s.cpu|
    ensures forall c :: 0 <= c < |r| ==> r[c] == Sec(s, c)
  {
    seq(|s.cpu|, c requires 0 <= c < |s.cpu| => Sec(s, c))
  }

  /** Per CPU: the counter of its topmost frame. */
  function Tops(s: State): (r: seq<PC>)
    ensures |r| == |s.cpu|
    ensures forall c :: 0 <= c < |r| ==> r[c] == TopPc(Stk(s, c))
  {
    seq(|s.cpu|, c requires 0 <= c < |s.cpu| => TopPc(Stk(s, c)))
  }

  /** Per CPU: the stack it runs on. */
  function Esps(s: State): (r: seq<Ctx>)
    ensures |r| == |s.cpu|
    ensures forall c :: 0 <= c < |r| ==> r[c] == s.cpu[c].esp
  {
    seq(|s.cpu|, c requires 0 <= c < |s.cpu| => s.cpu[c].esp)
  }

  /** Per CPU: its epilogue queue. */
  function Queues(s: State): (r: seq<seq<nat>>)
    ensures |r| == |s.cpu|
    ensures forall c :: 0 <= c < |r| ==> r[c] == s.cpu[c].queue
  {
    seq(|s.cpu|, c requires 0 <= c < |s.cpu| => s.cpu[c].queue)
  }

  function RemoveFirst(q: seq<nat>, t: nat): seq<nat> {
    if q == [] then [] else if q[0] == t then q[1..] else [q[0]] + RemoveFirst(q[1..], t)
  }

  /** The scan over the life pointers in Scheduler::kill; |life| when `t` runs nowhere. */
  function Target(life: seq<Option<nat>>, t: nat): (target: nat)
    ensures target <= |life|
  {
    if life == [] || life[0] == Some(t) then 0 else 1 + Target(life[1..], t)
  }

  /** unsigned char dest = 1 << target */
  function Mask(target: nat): nat {
    Pow2(target) % 256
  }

  predicate MaskBit(mask: nat, c: nat) {
    mask / Pow2(c) % 2 == 1
  }

  /** The stack as it is once toc_switch has returned on it. */
  function Returned(k: Stack): Stack {
    if k.Push? then Push(Frame(k.top.kind, LeaveOff), k.rest) else k
  }

  /** The CPUs whose bit is set in an interrupt's destination mask. */
  function Receivers(mask: nat, n: nat): set<nat> {
    set c: nat | c < n && MaskBit(mask, c)
  }

  // ---------- the steps of one control flow ----------

  /** What a step does: the CPU's own record, the next program counter, shared memory. */
  datatype Move = Move(cpu: Cpu, pc: PC, sh: Shared)

  /** Gate::set_queued. */
  function QueuedMove(c: nat, cp: Cpu, pc: PC, sh: Shared): Move
    requires Possible(c, cp, pc, sh)
  {
    match pc
    case QLock(g) => Move(cp, QRead(g), sh.(gate := sh.gate[g := sh.gate[g].(lock := Some(c))]))
    case QRead(g) => Move(cp, QWrite(g, !sh.gate[g].queued), sh)
    case QWrite(g, st) => Move(cp, QUnlock(g, st), sh.(gate := sh.gate[g := sh.gate[g].(queued := true)]))
    case QUnlock(g, st) =>
      Move(cp, if st then Enqueue(g) else Tail, sh.(gate := sh.gate[g := sh.gate[g].(lock := None)]))
    case _ => Move(cp, pc, sh)
  }

  /** Guard::relay after the prologue. */
  function RelayMove(c: nat, cp: Cpu, pc: PC, sh: Shared): Move {
    match pc
    case TestFlag(g) => Move(cp, if cp.flag then QLock(g) else Direct(g), sh)
    case Enqueue(g) => Move(cp.(queue := cp.queue + [g]), Tail, sh)
    case Tail => Move(cp.(ie := true), Iret, sh)
    case Direct(g) => Move(cp.(ie := true), EnterOff(Epilogue(g)), sh)
    case _ => Move(cp, pc, sh)
  }

  /** Guard::enter with Ticketlock::lock. */
  function EnterMove(c: nat, cp: Cpu, pc: PC, sh: Shared): Move {
    match pc
    case EnterOff(b) => Move(cp.(ie := false), EnterFlag(b), sh)
    case EnterFlag(b) => Move(cp.(flag := true), EnterOn(b), sh)
    case EnterOn(b) => Move(cp.(ie := true), Take(b), sh)
    case Take(b) =>
      Move(cp, Spin(b, sh.ticket), sh.(ticket := (sh.ticket + 1) % WRAP, waiting := sh.waiting + [c]))
    case Spin(b, _) => Move(cp, Do(b), sh)
    case _ => Move(cp, pc, sh)
  }

  /** Gate::set_dequeued, and the return to level 1/2 before the epilogue. */
  function DequeuedMove(c: nat, cp: Cpu, pc: PC, sh: Shared): Move
    requires Possible(c, cp, pc, sh)
  {
    match pc
    case DLock(g) => Move(cp, DClear(g), sh.(gate := sh.gate[g := sh.gate[g].(lock := Some(c))]))
    case DClear(g) => Move(cp, DUnlock(g), sh.(gate := sh.gate[g := sh.gate[g].(queued := false)]))
    case DUnlock(g) => Move(cp, DOn(g), sh.(gate := sh.gate[g := sh.gate[g].(lock := None)]))
    case DOn(g) => Move(cp.(ie := true), Do(Epilogue(g)), sh)
    case _ => Move(cp, pc, sh)
  }

  /** Guard::leave with Ticketlock::unlock. */
  function LeaveMove(cp: Cpu, pc: PC, sh: Shared, kind: Kind): Move {
    match pc
    case LeaveOff => Move(cp.(ie := false), LeaveDequeue, sh)
    case LeaveDequeue =>
      if cp.queue == [] then Move(cp, LeaveFlag, sh)
      else Move(cp.(queue := cp.queue[1..]), DLock(cp.queue[0]), sh)
    case LeaveFlag => Move(cp.(flag := false), LeaveRead, sh)
    case LeaveRead => Move(cp, LeaveTurn(sh.turn), sh)
    case LeaveTurn(t) =>
      Move(cp, LeaveOn, sh.(turn := (t + 1) % WRAP,
                            waiting := if sh.waiting == [] then [] else sh.waiting[1..]))
    case LeaveOn => Move(cp.(ie := true), if kind.Base? then Run else Iret, sh)
    case _ => Move(cp, pc, sh)
  }

  /** Entry of a critical section's body: the guarded operation, or a gate's epilogue. */
  function DoMove(c: nat, cp: Cpu, b: Body, sh: Shared): Move
    requires Possible(c, cp, Do(b), sh)
  {
    match b
    case Call(Section) => Move(cp, LeaveOff, sh)
    case Call(Ready(t)) => Move(cp, LeaveOff, sh.(jobs := sh.jobs + [t]))
    case Call(Kill(t)) => Move(cp, KillRemove(t), sh.(thr := sh.thr[t := sh.thr[t].(kill := true)]))
    case Call(Resume) => Move(cp, ResumeActive, sh)
    case Call(Exit) =>
      if sh.jobs == [] then Move(cp, Dispatch(None), sh)
      else Move(cp, Dispatch(Some(sh.jobs[0])), sh.(jobs := sh.jobs[1..]))
    case Call(Schedule) =>
      if sh.jobs == [] then Move(cp.(ie := false), Dead, sh)
      else Move(cp, ScheduleTimer(sh.jobs[0]), sh.(jobs := sh.jobs[1..]))
    case Epilogue(g) =>
      if g == WATCH then Move(cp, ResumeActive, sh)
      else if g != ASSASSIN then Move(cp, LeaveOff, sh)
      // active() disables interrupts and returns before it would enable them again
      else Move(cp.(ie := false), if sh.life[c].None? then Fault else AssassinTest(sh.life[c].value), sh)
  }

  /** Scheduler::kill after the flag is set, and the rest of Assassin::epilogue. */
  function KillMove(c: nat, cp: Cpu, pc: PC, sh: Shared): Move
    requires Possible(c, cp, pc, sh)
  {
    match pc
    case KillRemove(t) =>
      if t in sh.jobs then Move(cp, LeaveOff, sh.(jobs := RemoveFirst(sh.jobs, t)))
      else Move(cp, KillIpi(t), sh)
    case KillIpi(t) =>
      Move(cp, LeaveOff, sh.(ipi := sh.ipi + Receivers(Mask(Target(sh.life, t)), |sh.life|)))
    case AssassinTest(cur) => Move(cp, if sh.thr[cur].kill then ResumeActive else LeaveOff, sh)
    case _ => Move(cp, pc, sh)
  }

  /** Scheduler::resume up to the call of dispatch. */
  function ResumeMove(c: nat, cp: Cpu, pc: PC, sh: Shared): Move
    requires Possible(c, cp, pc, sh)
  {
    match pc
    case ResumeActive =>
      Move(cp.(ie := false), if sh.life[c].None? then Dead else ResumeEnqueue(sh.life[c].value), sh)
    case ResumeEnqueue(cur) =>
      Move(cp, ResumeDequeue, sh.(jobs := if sh.thr[cur].kill then sh.jobs else sh.jobs + [cur]))
    case ResumeDequeue =>
      if sh.jobs == [] then Move(cp, Dead, sh)
      else Move(cp, ResumeLoop(sh.jobs[0]), sh.(jobs := sh.jobs[1..]))
    case ResumeLoop(next) => Move(cp, if sh.thr[next].kill then ResumeDequeue else Dispatch(Some(next)), sh)
    case _ => Move(cp, pc, sh)
  }

  /** Scheduler::schedule after its dequeue, and Dispatcher::go up to toc_go. */
  function ScheduleMove(c: nat, cp: Cpu, pc: PC, sh: Shared): Move
    requires Possible(c, cp, pc, sh)
  {
    match pc
    case ScheduleTimer(next) => Move(cp.(timer := true), ScheduleOff(next), sh)
    case ScheduleOff(next) => Move(cp.(ie := false), ScheduleLife(next), sh)
    case ScheduleLife(next) => Move(cp, ScheduleOn(next), sh.(life := sh.life[c := Some(next)]))
    case ScheduleOn(next) => Move(cp.(ie := true), Load(None, next), sh)
    case _ => Move(cp, pc, sh)
  }

  /** Dispatcher::dispatch, and the first half of toc_switch: the registers are saved. */
  function DispatchMove(c: nat, cp: Cpu, pc: PC, sh: Shared, k: Stack): Move
    requires Possible(c, cp, pc, sh)
  {
    match pc
    case Dispatch(succ) => Move(cp.(ie := false), SetLife(sh.life[c], succ), sh)
    case SetLife(prev, succ) => Move(cp, SetOn(prev, succ), sh.(life := sh.life[c := succ]))
    case SetOn(prev, succ) =>
      if prev.None? || succ.None? then Move(cp.(ie := false), Fault, sh)
      else
        var t := prev.value;
        Move(cp.(ie := true), Save(t, succ.value),
             sh.(thr := sh.thr[t := sh.thr[t].(callRegs := cp.regs, callStack := Returned(k))]))
    case Save(t, next) =>
      Move(cp, Load(Some(t), next), sh.(thr := sh.thr[t := sh.thr[t].(toc := Toc(cp.regs, cp.esp))]))
    case _ => Move(cp, pc, sh)
  }

  /** The objects a step works on exist. */
  predicate Possible(c: nat, cp: Cpu, pc: PC, sh: Shared) {
    && c < |sh.life|
    && (EnqueuePath(pc) || pc.DLock? || pc.DClear? || pc.DUnlock? ==> pc.g < |sh.gate|)
    && (pc.Do? && pc.b.Call? && pc.b.op.Kill? ==> pc.b.op.t < |sh.thr|)
    && (pc.AssassinTest? || pc.ResumeEnqueue? ==> pc.cur < |sh.thr|)
    && (pc.ResumeLoop? ==> pc.next < |sh.thr|)
    && (pc.SetOn? && pc.prev.Some? ==> pc.prev.value < |sh.thr|)
    && (pc.Save? ==> pc.from < |sh.thr|)
    && (pc.Load? ==> pc.next < |sh.thr|)
  }

  function MoveOf(c: nat, cp: Cpu, k: Stack, sh: Shared): Move
    requires k.Push? && Possible(c, cp, k.top.pc, sh)
  {
    var pc := k.top.pc;
    if Queueing(pc) then QueuedMove(c, cp, pc, sh)
    else if Relaying(pc) then RelayMove(c, cp, pc, sh)
    else if Entering(pc) then EnterMove(c, cp, pc, sh)
    else if Dequeueing(pc) then DequeuedMove(c, cp, pc, sh)
    else if Leaving(pc) then LeaveMove(cp, pc, sh, k.top.kind)
    else if Dispatching(pc) then DispatchMove(c, cp, pc, sh, k)
    else if pc.Do? then DoMove(c, cp, pc.b, sh)
    else if Killing(pc) then KillMove(c, cp, pc, sh)
    else if Resuming(pc) then ResumeMove(c, cp, pc, sh)
    else ScheduleMove(c, cp, pc, sh)
  }

  predicate Queueing(pc: PC) { pc.QLock? || pc.QRead? || pc.QWrite? || pc.QUnlock? }

  predicate Relaying(pc: PC) { pc.TestFlag? || pc.Enqueue? || pc.Tail? || pc.Direct? }

  predicate Entering(pc: PC) { pc.EnterOff? || pc.EnterFlag? || pc.EnterOn? || pc.Take? || pc.Spin? }

  predicate Dequeueing(pc: PC) { pc.DLock? || pc.DClear? || pc.DUnlock? || pc.DOn? }

  predicate Leaving(pc: PC) {
    pc.LeaveOff? || pc.LeaveDequeue? || pc.LeaveFlag? || pc.LeaveRead? || pc.LeaveTurn? || pc.LeaveOn?
  }

  predicate Dispatching(pc: PC) { pc.Dispatch? || pc.SetLife? || pc.SetOn? || pc.Save? }

  predicate Killing(pc: PC) { pc.KillRemove? || pc.KillIpi? || pc.AssassinTest? }

  predicate Resuming(pc: PC) { pc.ResumeActive? || pc.ResumeEnqueue? || pc.ResumeDequeue? || pc.ResumeLoop? }

  predicate Scheduling(pc: PC) { pc.ScheduleTimer? || pc.ScheduleOff? || pc.ScheduleLife? || pc.ScheduleOn? }

  /** The counters from which a plain step is taken. */
  predicate Moves(pc: PC) {
    Queueing(pc) || Relaying(pc) || Entering(pc) || Dequeueing(pc) || Leaving(pc) || Dispatching(pc)
    || pc.Do? || Killing(pc) || Resuming(pc) || Scheduling(pc)
  }

  // ---------- transitions ----------

  /** Replaces CPU c's record and the stack it runs on. */
  function Put(s: State, c: nat, cp: Cpu, k: Stack, sh: Shared): State
    requires c < |s.cpu|
  {
    State(s.cpu[c := cp], s.stk[s.cpu[c].esp := k], sh)
  }

  /** `ready` is called on a live thread that is neither queued nor running. */
  ghost predicate MayReady(s: State, t: nat) {
    t < |s.sh.thr| && !s.sh.thr[t].kill && t !in s.sh.jobs && Thr(t) !in Esps(s) && Some(t) !in s.sh.life
  }

  /** The waiting loops and the duties of callers. */
  ghost predicate Allowed(s: State, c: nat, pc: PC)
    requires c < |s.cpu|
  {
    && (pc.QLock? || pc.DLock? ==> pc.g < |s.sh.gate| && s.sh.gate[pc.g].lock.None?)   // gate_lock
    && (pc.Spin? ==> s.sh.turn == pc.ticket)                                           // _turn
    && (pc.Do? && pc.b.Call? && pc.b.op.Ready? ==> MayReady(s, pc.b.op.t))
    && (pc.Do? && pc.b == Call(Schedule) ==> s.cpu[c].esp.Boot?)                       // boot code only
  }

  ghost predicate Enabled(s: State, c: nat, a: Act)
  {
    c < |s.cpu| && Stk(s, c).Push? &&
    var cp, k, pc := s.cpu[c], Stk(s, c), TopPc(Stk(s, c));
    match a
    case Interrupt(g) =>
      cp.ie && g < |s.sh.gate| && (g == WATCH ==> cp.timer) && (g == ASSASSIN ==> c in s.sh.ipi)
    case Compute(_) => !pc.Save? && !pc.Load? && !pc.Dead? && !pc.Fault?
    case Syscall(op) => pc.Run?
    case Outcome(b) => pc.Prologue? && (pc.g == WATCH || pc.g == ASSASSIN ==> b)
    case Step => Moves(pc) && Possible(c, cp, pc, s.sh) && Allowed(s, c, pc)
    case Return => pc.Iret? && k.top.kind.Isr?
    case Switch => pc.Load? && Possible(c, cp, pc, s.sh)
                   && s.sh.thr[pc.next].toc.esp in s.stk && s.stk[s.sh.thr[pc.next].toc.esp].Push?
  }

  function Next(s: State, c: nat, a: Act): State
    requires Enabled(s, c, a)
  {
    var cp, k := s.cpu[c], Stk(s, c);
    match a
    case Interrupt(g) =>
      // An interrupt gate: the CPU clears IF and saves what it interrupts.
      Put(s, c, cp.(ie := false), Push(Frame(Isr(cp.regs), Prologue(g)), k),
          if g == ASSASSIN then s.sh.(ipi := s.sh.ipi - {c}) else s.sh)
    case Compute(r) => Put(s, c, cp.(regs := r), k, s.sh)
    case Syscall(op) => Put(s, c, cp, Push(Frame(k.top.kind, EnterOff(Call(op))), k.rest), s.sh)
    case Outcome(b) =>
      Put(s, c, cp, Push(Frame(k.top.kind, if b then TestFlag(k.top.pc.g) else Tail), k.rest), s.sh)
    case Step =>
      var m := MoveOf(c, cp, k, s.sh);
      Put(s, c, m.cpu, Push(Frame(k.top.kind, m.pc), k.rest), m.sh)
    case Return => Put(s, c, cp.(ie := true, regs := k.top.kind.regs), k.rest, s.sh)
    case Switch =>
      // The second half of toc_switch, or toc_go: registers and stack pointer are loaded, and
      // ret takes the return address from the loaded stack: back into resume, or into kickoff.
      // Both go on with Guard::leave.
      var toc := s.sh.thr[k.top.pc.next].toc;
      State(s.cpu[c := cp.(regs := toc.regs, esp := toc.esp)],
            s.stk[toc.esp := Returned(s.stk[toc.esp])], s.sh)
  }

  // ---------- where runs start ----------

  ghost predicate Init(s: State) {
    && 0 < |s.cpu| < WRAP
    && |s.sh.life| == |s.cpu| && |s.sh.gate| > WATCH
    && s.sh.jobs == [] && s.sh.waiting == [] && s.sh.ticket == 0 && s.sh.turn == 0 && s.sh.ipi == {}
    && (forall c: nat :: c < |s.cpu| ==> InitCpu(s, c))
    && (forall t: nat :: t < |s.sh.thr| ==> InitThread(s, t))
    && (forall g: nat :: g < |s.sh.gate| ==> s.sh.gate[g] == Gate(None, false))
  }

  ghost predicate InitCpu(s: State, c: nat)
    requires c < |s.cpu| == |s.sh.life|
  {
    var cp := s.cpu[c];
    && !cp.flag && cp.queue == [] && cp.esp == Boot(c) && !cp.timer && s.sh.life[c] == None
    && Boot(c) in s.stk && s.stk[Boot(c)] == Push(Frame(Base, Run), Empty)
  }

  /** A thread as its constructor leaves it: toc_settle has prepared the stack. */
  ghost predicate InitThread(s: State, t: nat)
    requires t < |s.sh.thr|
  {
    var th := s.sh.thr[t];
    && Thr(t) in s.stk && s.stk[Thr(t)] == Push(Frame(Base, Fresh), Empty)
    && !th.kill && th.toc == Toc(th.callRegs, Thr(t)) && th.callStack == Returned(s.stk[Thr(t)])
  }
}
