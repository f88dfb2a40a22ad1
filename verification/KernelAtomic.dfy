/** The scheduler's steps, interleaved with those of all other CPUs, amount to the sequential
    operation: nobody else touches the ready list, the threads or the life pointers meanwhile. */
module KernelAtomic {
  import opened KernelState
  import opened KernelInvariant
  import opened KernelStacks
  import opened KernelTickets
  import opened KernelSafety
  import opened KernelInduction
  import opened KernelTheorems
  import opened Scheduler

  // ---------- while one CPU holds the lock ----------

  lemma InsideHolds(k: Stack)
    requires k.Push? && InScheduler(k.top.pc)
    ensures SecPc(k) == k.top.pc && Holds(k.top.pc)
  {
  }

  /** While CPU c is inside its section with the lock, no transition of another CPU changes the
      ready list, a thread or a life pointer. */
  lemma OthersKeep(s: State, c: nat, d: nat, a: Act)
    requires Inv(s) && Enabled(s, d, a) && c < |s.cpu| && c != d && Holds(Sec(s, c))
    ensures var s' := Next(s, d, a);
      s'.sh.jobs == s.sh.jobs && s'.sh.thr == s.sh.thr && s'.sh.life == s.sh.life && Sec(s', c) == Sec(s, c)
  {
    if a.Step? {
      if InScheduler(TopPc(Stk(s, d))) {
        InsideHolds(Stk(s, d));
        OneHolder(s.sh, Secs(s), c, d);
      } else {
        GuardEffect(d, s.cpu[d], Stk(s, d), s.sh);
      }
      StepProjections(s, d);
    } else if a.Switch? {
      LoadedContext(s, d);
      SwitchStacks(s, d);
    } else {
      OutsideProjections(s, d, a);
      assert Secs(Next(s, d, a))[c] == Secs(s)[c];
    }
  }

  /** The same in every run. */
  lemma SectionUndisturbed(r: Run, i: nat, c: nat)
    requires FromBoot(r) && i < |r.who| && c < |r.states[i].cpu| && r.who[i] != c && Holds(Sec(r.states[i], c))
    ensures c < |r.states[i + 1].cpu| && Sec(r.states[i + 1], c) == Sec(r.states[i], c)
    ensures var sh, sh' := r.states[i].sh, r.states[i + 1].sh;
      sh'.jobs == sh.jobs && sh'.thr == sh.thr && sh'.life == sh.life
  {
    Transition(r, i);
    OthersKeep(r.states[i], c, r.who[i], r.acts[i]);
  }

  // ---------- what an operation comes to ----------

  function Flags(thr: seq<Thread>): (r: seq<bool>)
    ensures |r| == |thr| && forall t :: 0 <= t < |r| ==> r[t] == thr[t].kill
  {
    seq(|thr|, t requires 0 <= t < |thr| => thr[t].kill)
  }

  /** How an operation ends, and the ready list, the life pointers and the kill flags it leaves. */
  datatype End = End(o: Outcome, jobs: seq<nat>, life: seq<Option<nat>>, dying: seq<bool>)

  ghost predicate Sane(c: nat, pc: PC, sh: Shared) {
    && c < |sh.life| && Below(sh.jobs, |sh.thr|)
    && (sh.life[c].Some? ==> sh.life[c].value < |sh.thr|)
    && (pc.AssassinTest? || pc.ResumeEnqueue? ==> pc.cur < |sh.thr|)
    && (pc.ResumeLoop? ==> pc.next < |sh.thr|)
  }

  /** The body b of a critical section, executed by CPU c alone: the operations of Scheduler. */
  function Alone(b: Body, c: nat, sh: Shared): End
    requires c < |sh.life| && Below(sh.jobs, |sh.thr|) && (sh.life[c].Some? ==> sh.life[c].value < |sh.thr|)
  {
    var jobs, life, dying := sh.jobs, sh.life, Flags(sh.thr);
    match b
    case Call(Section) => End(Done, jobs, life, dying)
    case Call(Ready(t)) => End(Done, jobs + [t], life, dying)
    case Call(Kill(t)) =>
      if t >= |dying| then End(Done, jobs, life, dying)   // not a thread
      else var (jobs', dying', _) := KillResult(jobs, life, dying, t); End(Done, jobs', life, dying')
    case Call(Resume) => Ended(ResumeResult(jobs, life, dying, c), dying)
    case Call(Exit) => Ended(ExitResult(jobs, life, c), dying)
    case Call(Schedule) => Ended(ScheduleResult(jobs, life, c), dying)
    case Epilogue(g) =>
      if g == WATCH then Ended(ResumeResult(jobs, life, dying, c), dying)
      else if g == ASSASSIN then Ended(AssassinResult(jobs, life, dying, c), dying)
      else End(Done, jobs, life, dying)
  }

  function Ended(r: (Outcome, seq<nat>, seq<Option<nat>>), dying: seq<bool>): End {
    End(r.0, r.1, r.2, dying)
  }

  /** Resume from its dequeue loop on. */
  function LoopEnd(q: seq<nat>, life: seq<Option<nat>>, dying: seq<bool>, c: nat): End
    requires c < |life| && Below(q, |dying|)
  {
    var i := FirstLive(q, dying);
    if i == |q| then End(Died, [], life, dying) else DispatchEnd(q[i + 1..], life, dying, c, Some(q[i]))
  }

  function DispatchEnd(jobs: seq<nat>, life: seq<Option<nat>>, dying: seq<bool>, c: nat, succ: Option<nat>): End
    requires c < |life|
  {
    var (o, life') := DispatchResult(life, c, succ);
    End(o, jobs, life', dying)
  }

  /** What an operation that has got to pc comes to. */
  function Ends(c: nat, pc: PC, sh: Shared): End
    requires Sane(c, pc, sh)
  {
    var jobs, life, dying := sh.jobs, sh.life, Flags(sh.thr);
    match pc
    case Do(b) => Alone(b, c, sh)
    case KillRemove(t) => End(Done, RemoveFirst(jobs, t), life, dying)
    case AssassinTest(cur) =>
      if dying[cur] then Ended(ResumeResult(jobs, life, dying, c), dying) else End(Done, jobs, life, dying)
    case ResumeActive => Ended(ResumeResult(jobs, life, dying, c), dying)
    case ResumeEnqueue(cur) => LoopEnd(Requeued(jobs, cur, dying), life, dying, c)
    case ResumeDequeue => LoopEnd(jobs, life, dying, c)
    case ResumeLoop(next) =>
      if dying[next] then LoopEnd(jobs, life, dying, c) else DispatchEnd(jobs, life, dying, c, Some(next))
    case Dispatch(succ) => DispatchEnd(jobs, life, dying, c, succ)
    case SetLife(prev, succ) => End(Left(prev, succ), jobs, life[c := succ], dying)
    case SetOn(prev, succ) => End(Left(prev, succ), jobs, life, dying)
    case ScheduleTimer(next) => End(Start(next), jobs, life[c := Some(next)], dying)
    case ScheduleOff(next) => End(Start(next), jobs, life[c := Some(next)], dying)
    case ScheduleLife(next) => End(Start(next), jobs, life[c := Some(next)], dying)
    case _ => End(OutcomeAt(pc), jobs, life, dying)
  }

  function Left(prev: Option<nat>, succ: Option<nat>): Outcome {
    if prev.None? || succ.None? then Crash else SwitchTo(prev.value, succ.value)
  }

  /** How the operation has ended, or will end, at a counter behind its last access to the threads. */
  function OutcomeAt(pc: PC): Outcome {
    match pc
    case Save(from, next) => SwitchTo(from, next)
    case Load(prev, next) => if prev.Some? then SwitchTo(prev.value, next) else Start(next)
    case ScheduleOn(next) => Start(next)
    case Dead => Died
    case Fault => Crash
    case _ => Done
  }

  /** The counters at which an operation has ended. */
  predicate Over(pc: PC) { pc.LeaveOff? || pc.Load? || pc.Dead? || pc.Fault? }

  // ---------- the steps of the operation keep what it comes to ----------

  lemma LoopTurn(q: seq<nat>, life: seq<Option<nat>>, dying: seq<bool>, c: nat)
    requires c < |life| && Below(q, |dying|) && q != []
    ensures LoopEnd(q, life, dying, c)
         == if dying[q[0]] then LoopEnd(q[1..], life, dying, c) else DispatchEnd(q[1..], life, dying, c, Some(q[0]))
  {
    var i := FirstLive(q[1..], dying);
    assert dying[q[0]] && i < |q| - 1 ==> q[1..][i + 1..] == q[i + 2..];
  }

  /** A move within an operation keeps its end, or reaches it. */
  ghost predicate KeepsEnd(c: nat, pc: PC, sh: Shared, m: Move)
    requires Sane(c, pc, sh)
  {
    && (InScheduler(m.pc) || Over(m.pc))
    && (Sane(c, m.pc, m.sh) ==> Ends(c, m.pc, m.sh) == Ends(c, pc, sh))
  }

  lemma CallEnds(c: nat, cp: Cpu, op: Op, sh: Shared)
    requires Possible(c, cp, Do(Call(op)), sh) && Sane(c, Do(Call(op)), sh)
    ensures KeepsEnd(c, Do(Call(op)), sh, DoMove(c, cp, Call(op), sh))
  {
    match op {
      case Kill(t) => KillEnds(c, cp, t, sh);
      case Exit => ExitEnds(c, cp, sh);
      case Schedule => ScheduleEnds(c, cp, sh);
      case _ =>
    }
  }

  lemma ExitEnds(c: nat, cp: Cpu, sh: Shared)
    requires Sane(c, Do(Call(Exit)), sh)
    ensures KeepsEnd(c, Do(Call(Exit)), sh, DoMove(c, cp, Call(Exit), sh))
  {
  }

  lemma ScheduleEnds(c: nat, cp: Cpu, sh: Shared)
    requires Sane(c, Do(Call(Schedule)), sh)
    ensures KeepsEnd(c, Do(Call(Schedule)), sh, DoMove(c, cp, Call(Schedule), sh))
  {
  }

  lemma KillEnds(c: nat, cp: Cpu, t: nat, sh: Shared)
    requires Possible(c, cp, Do(Call(Op.Kill(t))), sh) && Sane(c, Do(Call(Op.Kill(t))), sh)
    ensures KeepsEnd(c, Do(Call(Op.Kill(t))), sh, DoMove(c, cp, Call(Op.Kill(t)), sh))
  {
    assert Flags(sh.thr[t := sh.thr[t].(kill := true)]) == Flags(sh.thr)[t := true];
  }

  lemma EpilogueEnds(c: nat, cp: Cpu, g: nat, sh: Shared)
    requires Possible(c, cp, Do(Epilogue(g)), sh) && Sane(c, Do(Epilogue(g)), sh)
    ensures KeepsEnd(c, Do(Epilogue(g)), sh, DoMove(c, cp, Epilogue(g), sh))
  {
    if g == ASSASSIN { AssassinEnds(c, cp, sh); }
    else if g == WATCH { WatchEnds(c, cp, sh); }
    else { DeviceEnds(c, cp, g, sh); }
  }

  lemma WatchEnds(c: nat, cp: Cpu, sh: Shared)
    requires Sane(c, Do(Epilogue(WATCH)), sh)
    ensures KeepsEnd(c, Do(Epilogue(WATCH)), sh, DoMove(c, cp, Epilogue(WATCH), sh))
  {
  }

  lemma DeviceEnds(c: nat, cp: Cpu, g: nat, sh: Shared)
    requires Sane(c, Do(Epilogue(g)), sh) && g != WATCH && g != ASSASSIN
    ensures KeepsEnd(c, Do(Epilogue(g)), sh, DoMove(c, cp, Epilogue(g), sh))
  {
  }

  lemma AssassinEnds(c: nat, cp: Cpu, sh: Shared)
    requires Sane(c, Do(Epilogue(ASSASSIN)), sh)
    ensures KeepsEnd(c, Do(Epilogue(ASSASSIN)), sh, DoMove(c, cp, Epilogue(ASSASSIN), sh))
  {
  }

  lemma KillingEnds(c: nat, cp: Cpu, pc: PC, sh: Shared)
    requires Possible(c, cp, pc, sh) && Sane(c, pc, sh) && Killing(pc)
    ensures KeepsEnd(c, pc, sh, KillMove(c, cp, pc, sh))
  {
    match pc {
      case KillRemove(t) => RemoveEnds(c, cp, t, sh);
      case KillIpi(t) => IpiEnds(c, cp, t, sh);
      case AssassinTest(cur) => TestEnds(c, cp, cur, sh);
    }
  }

  lemma RemoveEnds(c: nat, cp: Cpu, t: nat, sh: Shared)
    requires Sane(c, KillRemove(t), sh)
    ensures KeepsEnd(c, KillRemove(t), sh, KillMove(c, cp, KillRemove(t), sh))
  {
    if t in sh.jobs { UnqueueEnds(c, cp, t, sh); } else { NotQueuedEnds(c, cp, t, sh); }
  }

  lemma UnqueueEnds(c: nat, cp: Cpu, t: nat, sh: Shared)
    requires Sane(c, KillRemove(t), sh) && t in sh.jobs
    ensures KeepsEnd(c, KillRemove(t), sh, KillMove(c, cp, KillRemove(t), sh))
  {
  }

  lemma NotQueuedEnds(c: nat, cp: Cpu, t: nat, sh: Shared)
    requires Sane(c, KillRemove(t), sh) && t !in sh.jobs
    ensures KeepsEnd(c, KillRemove(t), sh, KillMove(c, cp, KillRemove(t), sh))
  {
    RemoveFirstBelow(sh.jobs, t, |sh.thr|);
  }

  lemma IpiEnds(c: nat, cp: Cpu, t: nat, sh: Shared)
    requires Sane(c, KillIpi(t), sh)
    ensures KeepsEnd(c, KillIpi(t), sh, KillMove(c, cp, KillIpi(t), sh))
  {
  }

  lemma TestEnds(c: nat, cp: Cpu, cur: nat, sh: Shared)
    requires Sane(c, AssassinTest(cur), sh)
    ensures KeepsEnd(c, AssassinTest(cur), sh, KillMove(c, cp, AssassinTest(cur), sh))
  {
  }

  lemma ResumingEnds(c: nat, cp: Cpu, pc: PC, sh: Shared)
    requires Possible(c, cp, pc, sh) && Sane(c, pc, sh) && Resuming(pc)
    ensures KeepsEnd(c, pc, sh, ResumeMove(c, cp, pc, sh))
  {
    match pc {
      case ResumeActive => ActiveEnds(c, cp, sh);
      case ResumeEnqueue(cur) => EnqueueEnds(c, cp, cur, sh);
      case ResumeDequeue => DequeueEnds(c, cp, sh);
      case ResumeLoop(next) => LoopEnds(c, cp, next, sh);
    }
  }

  lemma ActiveEnds(c: nat, cp: Cpu, sh: Shared)
    requires Sane(c, ResumeActive, sh)
    ensures KeepsEnd(c, ResumeActive, sh, ResumeMove(c, cp, ResumeActive, sh))
  {
  }

  lemma EnqueueEnds(c: nat, cp: Cpu, cur: nat, sh: Shared)
    requires Sane(c, ResumeEnqueue(cur), sh)
    ensures KeepsEnd(c, ResumeEnqueue(cur), sh, ResumeMove(c, cp, ResumeEnqueue(cur), sh))
  {
  }

  lemma DequeueEnds(c: nat, cp: Cpu, sh: Shared)
    requires Sane(c, ResumeDequeue, sh)
    ensures KeepsEnd(c, ResumeDequeue, sh, ResumeMove(c, cp, ResumeDequeue, sh))
  {
    if sh.jobs != [] { LoopTurn(sh.jobs, sh.life, Flags(sh.thr), c); }
  }

  lemma LoopEnds(c: nat, cp: Cpu, next: nat, sh: Shared)
    requires Sane(c, ResumeLoop(next), sh)
    ensures KeepsEnd(c, ResumeLoop(next), sh, ResumeMove(c, cp, ResumeLoop(next), sh))
  {
  }

  lemma DispatchingEnds(c: nat, cp: Cpu, pc: PC, sh: Shared, k: Stack)
    requires Possible(c, cp, pc, sh) && Sane(c, pc, sh) && Dispatching(pc)
    ensures KeepsEnd(c, pc, sh, DispatchMove(c, cp, pc, sh, k))
  {
    assert Flags(DispatchMove(c, cp, pc, sh, k).sh.thr) == Flags(sh.thr);
  }

  lemma SchedulingEnds(c: nat, cp: Cpu, pc: PC, sh: Shared)
    requires Possible(c, cp, pc, sh) && Sane(c, pc, sh) && Scheduling(pc)
    ensures KeepsEnd(c, pc, sh, ScheduleMove(c, cp, pc, sh))
  {
  }

  lemma MoveEnds(c: nat, cp: Cpu, k: Stack, sh: Shared)
    requires k.Push? && InScheduler(k.top.pc) && Possible(c, cp, k.top.pc, sh) && Sane(c, k.top.pc, sh)
    ensures KeepsEnd(c, k.top.pc, sh, MoveOf(c, cp, k, sh))
  {
    var pc := k.top.pc;
    NoGuard(pc);
    if Dispatching(pc) { DispatchingEnds(c, cp, pc, sh, k); }
    else if pc.Do? {
      if pc.b.Call? { CallEnds(c, cp, pc.b.op, sh); } else { EpilogueEnds(c, cp, pc.b.g, sh); }
    }
    else if Killing(pc) { KillingEnds(c, cp, pc, sh); }
    else if Resuming(pc) { ResumingEnds(c, cp, pc, sh); }
    else { SchedulingEnds(c, cp, pc, sh); }
  }

  lemma NoGuard(pc: PC)
    requires InScheduler(pc)
    ensures !Queueing(pc) && !Relaying(pc) && !Entering(pc) && !Dequeueing(pc) && !Leaving(pc)
    ensures Holds(pc) && InSection(pc) && !pc.Load?
  {
  }

  // ---------- all transitions while the operation runs ----------

  lemma SanePlace(s: State, c: nat)
    requires Inv(s) && c < |s.cpu|
    ensures Sane(c, Sec(s, c), s.sh)
  {
    var spots := Spots(Secs(s));
    JobsSane(s.sh, spots, Esps(s));
    assert spots[c] == SpotOf(Sec(s, c));
    SpotSane(c, Sec(s, c), s.sh, Esps(s)[c]);
  }

  lemma JobsSane(sh: Shared, spots: seq<Spot>, esps: seq<Ctx>)
    requires Places(sh, spots, esps)
    ensures Below(sh.jobs, |sh.thr|)
    ensures forall c: nat :: c < |spots| ==> PlaceOk(sh, c, spots[c], esps[c])
  {
    forall i: nat | i < |sh.jobs| ensures sh.jobs[i] < |sh.thr| { assert JobOk(sh, spots, sh.jobs[i]); }
  }

  lemma SpotSane(c: nat, pc: PC, sh: Shared, x: Ctx)
    requires c < |sh.life| && Below(sh.jobs, |sh.thr|) && PlaceOk(sh, c, SpotOf(pc), x)
    ensures Sane(c, pc, sh)
  {
  }

  lemma SameEnds(c: nat, pc: PC, sh: Shared, sh': Shared)
    requires Sane(c, pc, sh) && sh'.jobs == sh.jobs && sh'.thr == sh.thr && sh'.life == sh.life
    ensures Sane(c, pc, sh') && Ends(c, pc, sh') == Ends(c, pc, sh) && Due(pc, sh') == Due(pc, sh)
  {
  }

  lemma LoadIsTop(k: Stack)
    ensures k.Push? && k.top.pc.Load? ==> SecPc(k).Load?
  {
  }

  lemma OwnOutside(s: State, c: nat, a: Act)
    requires Stacks(s) && Enabled(s, c, a) && !a.Step? && !Sec(s, c).Load?
    ensures var s' := Next(s, c, a);
      s'.sh.jobs == s.sh.jobs && s'.sh.thr == s.sh.thr && s'.sh.life == s.sh.life && Sec(s', c) == Sec(s, c)
  {
    LoadIsTop(Stk(s, c));
    OutsideProjections(s, c, a);
    assert Secs(Next(s, c, a))[c] == Secs(s)[c];
  }

  /** Above a frame that is inside the section there is at most a handler that queues gates. */
  lemma OnlyQueues(k: Stack)
    requires k.Push? && Shape(k) && Moves(k.top.pc) && InSection(SecPc(k)) && SecPc(k) != k.top.pc
    ensures !InSection(k.top.pc) && Quiet(k.top.pc) && (Queueing(k.top.pc) || Relaying(k.top.pc))
    ensures SecPc(k.rest) == SecPc(k)
  {
  }

  lemma HandlerAbove(c: nat, cp: Cpu, k: Stack, sh: Shared)
    requires k.Push? && Shape(k) && Moves(k.top.pc) && Possible(c, cp, k.top.pc, sh)
    requires InSection(SecPc(k)) && SecPc(k) != k.top.pc
    ensures var m := MoveOf(c, cp, k, sh); SecPc(Landed(k, m)) == SecPc(k) && SameThreads(sh, m.sh)
    ensures !InSection(k.top.pc)
  {
    OnlyQueues(k);
    QueueingMoves(c, cp, k, sh);
  }

  lemma QueueingMoves(c: nat, cp: Cpu, k: Stack, sh: Shared)
    requires k.Push? && Possible(c, cp, k.top.pc, sh) && (Queueing(k.top.pc) || Relaying(k.top.pc)) && Quiet(k.top.pc)
    ensures var m := MoveOf(c, cp, k, sh); !InSection(m.pc) && SameThreads(sh, m.sh)
  {
  }

  // ---------- interrupts sent by a kill ----------

  /** The destination masks that an operation that has got to pc is still going to send. */
  function Due(pc: PC, sh: Shared): seq<nat> {
    match pc
    case Do(b) => if b.Call? && b.op.Kill? then MaskFor(b.op.t, sh) else []
    case KillRemove(t) => MaskFor(t, sh)
    case KillIpi(t) => [Mask(Target(sh.life, t))]
    case _ => []
  }

  function MaskFor(t: nat, sh: Shared): seq<nat> {
    if t in sh.jobs then [] else [Mask(Target(sh.life, t))]
  }

  /** The mask that CPU c sends by a transition. */
  function SentBy(s: State, d: nat, a: Act, c: nat): seq<nat>
    requires c < |s.cpu|
  {
    var pc := TopPc(Stk(s, c));
    if d == c && a.Step? && pc.KillIpi? then [Mask(Target(s.sh.life, pc.t))] else []
  }

  lemma MoveDue(c: nat, cp: Cpu, k: Stack, sh: Shared)
    requires k.Push? && InScheduler(k.top.pc) && Possible(c, cp, k.top.pc, sh)
    ensures var m := MoveOf(c, cp, k, sh);
      (if k.top.pc.KillIpi? then Due(k.top.pc, sh) else []) + Due(m.pc, m.sh) == Due(k.top.pc, sh)
  {
    NoGuard(k.top.pc);
    if k.top.pc.Do? { DoDue(c, cp, k.top.pc.b, sh); }
    else if Killing(k.top.pc) { }
    else if Dispatching(k.top.pc) { }
    else if Resuming(k.top.pc) { ResumeDue(c, cp, k.top.pc, sh); }
  }

  lemma DoDue(c: nat, cp: Cpu, b: Body, sh: Shared)
    requires Possible(c, cp, Do(b), sh)
    ensures var m := DoMove(c, cp, b, sh); Due(m.pc, m.sh) == Due(Do(b), sh)
  {
  }

  lemma ResumeDue(c: nat, cp: Cpu, pc: PC, sh: Shared)
    requires Possible(c, cp, pc, sh) && Resuming(pc)
    ensures var m := ResumeMove(c, cp, pc, sh); Due(m.pc, m.sh) == [] == Due(pc, sh)
  {
  }

  /** A transition of any CPU, while c is inside an operation. */
  ghost predicate Continues(s: State, s': State, c: nat, sent: seq<nat>)
    requires c < |s.cpu| && c < |s'.cpu|
  {
    && Sane(c, Sec(s, c), s.sh) && Sane(c, Sec(s', c), s'.sh)
    && (InScheduler(Sec(s', c)) || Over(Sec(s', c)))
    && Ends(c, Sec(s', c), s'.sh) == Ends(c, Sec(s, c), s.sh)
    && sent + Due(Sec(s', c), s'.sh) == Due(Sec(s, c), s.sh)
  }

  lemma EndsStep(s: State, c: nat, d: nat, a: Act)
    requires Enabled(s, d, a) && Inv(s) && Inv(Next(s, d, a)) && c < |s.cpu| && InScheduler(Sec(s, c))
    ensures c < |Next(s, d, a).cpu| && Continues(s, Next(s, d, a), c, SentBy(s, d, a, c))
  {
    SanePlace(s, c);
    if c == d && a.Step? {
      SanePlace(Next(s, d, a), c);
      OwnStep(s, c);
    } else {
      OtherStep(s, c, d, a);
    }
  }

  lemma OtherKeeps(s: State, c: nat, d: nat, a: Act)
    requires Enabled(s, d, a) && Inv(s) && c < |s.cpu| && InScheduler(Sec(s, c)) && !(c == d && a.Step?)
    ensures var s' := Next(s, d, a);
      && c < |s'.cpu| && Sec(s', c) == Sec(s, c)
      && s'.sh.jobs == s.sh.jobs && s'.sh.thr == s.sh.thr && s'.sh.life == s.sh.life
  {
    NoGuard(Sec(s, c));
    if c != d { OthersKeep(s, c, d, a); } else { OwnOutside(s, c, a); }
  }

  lemma OtherStep(s: State, c: nat, d: nat, a: Act)
    requires Enabled(s, d, a) && Inv(s) && c < |s.cpu| && InScheduler(Sec(s, c)) && !(c == d && a.Step?)
    requires Sane(c, Sec(s, c), s.sh)
    ensures c < |Next(s, d, a).cpu| && Continues(s, Next(s, d, a), c, [])
  {
    OtherKeeps(s, c, d, a);
    SameEnds(c, Sec(s, c), s.sh, Next(s, d, a).sh);
  }

  lemma OwnStep(s: State, c: nat)
    requires Inv(s) && Enabled(s, c, Step) && InScheduler(Sec(s, c))
    requires Sane(c, Sec(s, c), s.sh) && Sane(c, Sec(Next(s, c, Step), c), Next(s, c, Step).sh)
    ensures Continues(s, Next(s, c, Step), c, SentBy(s, c, Step, c))
  {
    var k, m := Stk(s, c), StepMove(s, c);
    StepProjections(s, c);
    assert CpuOk(s.cpu[c], k);
    if InScheduler(k.top.pc) {
      InsideHolds(k);
      MoveEnds(c, s.cpu[c], k, s.sh);
      MoveDue(c, s.cpu[c], k, s.sh);
      MoveInside(c, s.cpu[c], k, s.sh);
    } else {
      NoGuard(SecPc(k));
      HandlerAbove(c, s.cpu[c], k, s.sh);
      SameEnds(c, SecPc(k), s.sh, m.sh);
    }
  }

  lemma MoveInside(c: nat, cp: Cpu, k: Stack, sh: Shared)
    requires k.Push? && Possible(c, cp, k.top.pc, sh) && InScheduler(k.top.pc)
    ensures SecPc(Landed(k, MoveOf(c, cp, k, sh))) == MoveOf(c, cp, k, sh).pc
  {
    SchedulerEffect(c, cp, k, sh);
  }

  // ---------- every operation, in every run ----------

  /** From state i until just before state j, CPU c is inside an operation of the scheduler. */
  ghost predicate Operating(r: Run, i: nat, j: nat, c: nat)
    requires j <= |r.states|
  {
    forall m: nat :: i <= m < j ==> Busy(r.states[m], c)
  }

  ghost predicate Busy(s: State, c: nat) {
    c < |s.cpu| && InScheduler(Sec(s, c))
  }

  /** The destination masks CPU c sends at transition m. */
  ghost function SentAt(r: Run, m: nat, c: nat): seq<nat>
    requires Execution(r) && m < |r.who|
  {
    if c < |r.states[m].cpu| then SentBy(r.states[m], r.who[m], r.acts[m], c) else []
  }

  /** The destination masks CPU c sends between states i and j. */
  ghost function Sent(r: Run, i: nat, j: nat, c: nat): seq<nat>
    requires Execution(r) && i <= j < |r.states|
  {
    if i == j then []
    else Sent(r, i, j - 1, c) + SentAt(r, j - 1, c)
  }

  lemma EndsNext(r: Run, j: nat, c: nat)
    requires FromBoot(r) && j < |r.who| && Busy(r.states[j], c)
    ensures c < |r.states[j + 1].cpu|
    ensures Continues(r.states[j], r.states[j + 1], c, SentAt(r, j, c))
  {
    Transition(r, j);
    EndsStep(r.states[j], c, r.who[j], r.acts[j]);
  }

  lemma ContinuesOn(s: State, s': State, s'': State, c: nat, x: seq<nat>, y: seq<nat>)
    requires c < |s.cpu| && c < |s'.cpu| && c < |s''.cpu|
    requires Continues(s, s', c, x) && Continues(s', s'', c, y)
    ensures Continues(s, s'', c, x + y)
  {
    var due := Due(Sec(s'', c), s''.sh);
    assert (x + y) + due == x + (y + due);
  }

  /** From state i to state j the operation of CPU c goes on as it has to. */
  ghost predicate Linked(r: Run, i: nat, j: nat, c: nat)
    requires Execution(r) && i <= j < |r.states|
  {
    c < |r.states[i].cpu| && c < |r.states[j].cpu| && Continues(r.states[i], r.states[j], c, Sent(r, i, j, c))
  }

  lemma LastBusy(r: Run, i: nat, j: nat, c: nat)
    requires i < j <= |r.states| && Operating(r, i, j, c)
    ensures Operating(r, i, j - 1, c) && Busy(r.states[j - 1], c)
  {
  }

  ghost predicate AllLinked(r: Run, i: nat, j: nat, c: nat)
    requires Execution(r) && i <= j < |r.states|
  {
    forall n: nat :: i <= n <= j ==> Linked(r, i, n, c)
  }

  lemma {:induction false} EndsKept(r: Run, i: nat, j: nat, c: nat)
    requires FromBoot(r) && i <= j < |r.states| && Busy(r.states[i], c) && Operating(r, i, j, c)
    ensures AllLinked(r, i, j, c)
  {
    if i < j {
      LastBusy(r, i, j, c);
      EndsKept(r, i, j - 1, c);
      OneMore(r, i, j, c);
    } else {
      EndsStart(r, i, c);
    }
  }

  lemma OneMore(r: Run, i: nat, j: nat, c: nat)
    requires FromBoot(r) && i < j < |r.states| && Busy(r.states[j - 1], c) && AllLinked(r, i, j - 1, c)
    ensures AllLinked(r, i, j, c)
  {
    EndsMore(r, i, j - 1, j, c);
  }

  lemma EndsStart(r: Run, i: nat, c: nat)
    requires FromBoot(r) && i < |r.states| && Busy(r.states[i], c)
    ensures Linked(r, i, i, c)
  {
    Always(r, i);
    SanePlace(r.states[i], c);
  }

  lemma EndsMore(r: Run, i: nat, j: nat, n: nat, c: nat)
    requires FromBoot(r) && i <= j < |r.who| && n == j + 1 && Busy(r.states[j], c) && AllLinked(r, i, j, c)
    ensures Linked(r, i, n, c)
  {
    assert Linked(r, i, j, c);
    EndsNext(r, j, c);
    var sent, more := Sent(r, i, j, c), SentAt(r, j, c);
    assert Sent(r, i, n, c) == sent + more;
    ContinuesOn(r.states[i], r.states[j], r.states[n], c, sent, more);
  }

  /** What CPU c has made of an operation when it is through with it. */
  function Found(c: nat, pc: PC, sh: Shared): End {
    End(OutcomeAt(pc), sh.jobs, sh.life, Flags(sh.thr))
  }

  /** The body of a critical section, interleaved with whatever all other CPUs and the interrupts do
      meanwhile, ends as the operation of Scheduler executed alone would have ended from the state in
      which it was entered, with the same ready list, life pointers and kill flags, and having sent
      the same interrupts. */
  lemma OperationIsAtomic(r: Run, i: nat, j: nat, c: nat, b: Body)
    requires FromBoot(r) && i < j < |r.states| && c < |r.states[i].cpu| && c < |r.states[j].cpu|
    requires Sec(r.states[i], c) == Do(b) && Operating(r, i, j, c) && !InScheduler(Sec(r.states[j], c))
    ensures Sane(c, Do(b), r.states[i].sh) && Over(Sec(r.states[j], c))
    ensures Found(c, Sec(r.states[j], c), r.states[j].sh) == Alone(b, c, r.states[i].sh)
    ensures var sh := r.states[i].sh;
      Sent(r, i, j, c) ==
      if b.Call? && b.op.Kill? && b.op.t < |sh.thr| then Masks(KillResult(sh.jobs, sh.life, Flags(sh.thr), b.op.t).2)
      else Due(Do(b), sh)
  {
    EndsKept(r, i, j, c);
    assert Linked(r, i, j, c);
    OverIsEnd(c, Sec(r.states[j], c), r.states[j].sh);
  }

  function Masks(mask: Option<nat>): seq<nat> {
    if mask.Some? then [mask.value] else []
  }

  lemma OverIsEnd(c: nat, pc: PC, sh: Shared)
    requires Sane(c, pc, sh) && Over(pc)
    ensures Ends(c, pc, sh) == Found(c, pc, sh) && Due(pc, sh) == []
  {
  }

  /** The same for a resume, from wherever it is called. */
  lemma ResumeIsAtomic(r: Run, i: nat, j: nat, c: nat)
    requires FromBoot(r) && i < j < |r.states| && c < |r.states[i].cpu| && c < |r.states[j].cpu|
    requires Sec(r.states[i], c).ResumeActive? && Operating(r, i, j, c) && !InScheduler(Sec(r.states[j], c))
    ensures var s, s' := r.states[i], r.states[j];
      && Sane(c, ResumeActive, s.sh) && Over(Sec(s', c)) && Flags(s'.sh.thr) == Flags(s.sh.thr)
      && (OutcomeAt(Sec(s', c)), s'.sh.jobs, s'.sh.life) == ResumeResult(s.sh.jobs, s.sh.life, Flags(s.sh.thr), c)
  {
    EndsKept(r, i, j, c);
    assert Linked(r, i, j, c);
    OverIsEnd(c, Sec(r.states[j], c), r.states[j].sh);
  }

  /** A resume stops its CPU only when neither the current thread nor any ready one is live; otherwise
      it leaves the current thread for a live successor. */
  lemma ResumeFindsLive(r: Run, i: nat, j: nat, c: nat)
    requires FromBoot(r) && i < j < |r.states| && c < |r.states[i].cpu| && c < |r.states[j].cpu|
    requires Sec(r.states[i], c).ResumeActive? && Operating(r, i, j, c) && !InScheduler(Sec(r.states[j], c))
    ensures var sh, pc := r.states[i].sh, Sec(r.states[j], c);
      && Sane(c, ResumeActive, sh)
      && (pc.Dead? <==>
            sh.life[c].None? || (sh.thr[sh.life[c].value].kill && forall t :: t in sh.jobs ==> Killed(sh, t)))
      && (!pc.Dead? ==> pc.Load? && pc.prev == sh.life[c] && pc.next < |sh.thr| && !sh.thr[pc.next].kill)
  {
    ResumeIsAtomic(r, i, j, c);
    var sh := r.states[i].sh;
    if sh.life[c].Some? {
      ResumeOutcome(sh.jobs, sh.life, Flags(sh.thr), c);
      forall t | t in sh.jobs ensures t < |sh.thr| && Flags(sh.thr)[t] == sh.thr[t].kill { }
    }
  }

  predicate Killed(sh: Shared, t: nat) {
    t < |sh.thr| && sh.thr[t].kill
  }

  /** The assassin's epilogue ends in a resume if the CPU's thread is dying when it starts, and
      otherwise leaves everything alone. */
  lemma AssassinDecides(r: Run, i: nat, j: nat, c: nat)
    requires FromBoot(r) && i < j < |r.states| && c < |r.states[i].cpu| && c < |r.states[j].cpu|
    requires Sec(r.states[i], c) == Do(Epilogue(ASSASSIN)) && Operating(r, i, j, c) && !InScheduler(Sec(r.states[j], c))
    ensures var sh, sh', pc := r.states[i].sh, r.states[j].sh, Sec(r.states[j], c);
      && Sane(c, ResumeActive, sh)
      && (sh.life[c].Some? && Killed(sh, sh.life[c].value) ==>
            (OutcomeAt(pc), sh'.jobs, sh'.life) == ResumeResult(sh.jobs, sh.life, Flags(sh.thr), c))
      && (sh.life[c].Some? && !Killed(sh, sh.life[c].value) ==>
            pc.LeaveOff? && sh'.jobs == sh.jobs && sh'.life == sh.life)
      && (sh.life[c].None? ==> pc.Fault?)
  {
    OperationIsAtomic(r, i, j, c, Epilogue(ASSASSIN));
    AssassinAlone(c, r.states[i].sh, r.states[j].sh, Sec(r.states[j], c));
  }

  lemma AssassinAlone(c: nat, sh: Shared, sh': Shared, pc: PC)
    requires Sane(c, ResumeActive, sh) && Over(pc) && Found(c, pc, sh') == Alone(Epilogue(ASSASSIN), c, sh)
    ensures sh.life[c].Some? && Killed(sh, sh.life[c].value) ==>
              (OutcomeAt(pc), sh'.jobs, sh'.life) == ResumeResult(sh.jobs, sh.life, Flags(sh.thr), c)
    ensures sh.life[c].Some? && !Killed(sh, sh.life[c].value) ==>
              pc.LeaveOff? && sh'.jobs == sh.jobs && sh'.life == sh.life
    ensures sh.life[c].None? ==> pc.Fault?
  {
  }
}
