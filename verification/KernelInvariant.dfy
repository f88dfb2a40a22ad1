/** The invariant of the kernel machine, in groups that are proved separately.  Each group
    reads only the projection of the state it is about. */
module KernelInvariant {
  import opened Arithmetic
  import opened KernelState

  // ---------- stacks, flags and interrupts ----------

  /** At most one frame of a stack is inside the section; above it there is only the part of
      relay that queues gates, and nothing masked ever lies below another frame. */
  ghost predicate Shape(k: Stack) {
    match k
    case Empty => true
    case Push(f, r) => Shape(r) && FrameOk(f, r)
  }

  ghost predicate FrameOk(f: Frame, r: Stack) {
    && (f.kind.Base? <==> r.Empty?)
    && (Quiet(f.pc) || f.pc.Direct? ==> f.kind.Isr?)
    && (f.pc.Run? ==> f.kind.Base?)
    && (r.Push? ==> !Masked(r.top.pc))
    && (!Quiet(f.pc) ==> SecPc(r).Run?)
    && (EnqueuePath(f.pc) ==> FlagUp(SecPc(r)) && !Masked(SecPc(r)))
  }

  ghost predicate CpuOk(cp: Cpu, k: Stack) {
    k.Push? && Shape(k) && BitsOk(cp, TopPc(k), SecPc(k))
  }

  ghost predicate BitsOk(cp: Cpu, top: PC, sec: PC) {
    && (Masked(top) ==> !cp.ie)
    && (cp.flag <==> FlagUp(sec))
    && (sec.LeaveFlag? || !FlagUp(sec) ==> cp.queue == [])
  }

  ghost predicate Stacks(s: State) {
    && |s.sh.life| == |s.cpu|
    && (forall c: nat :: c < |s.cpu| ==> s.cpu[c].esp in s.stk && CpuOk(s.cpu[c], Stk(s, c)))
    && Exclusive(Esps(s), |s.sh.thr|)
  }

  /** No two CPUs run on one stack, and a boot stack is run on by its own CPU only. */
  ghost predicate Exclusive(esps: seq<Ctx>, threads: nat) {
    && (forall c: nat, d: nat :: c < d < |esps| ==> esps[c] != esps[d])
    && (forall c: nat :: c < |esps| && esps[c].Boot? ==> esps[c].cpu == c)
    && (forall c: nat :: c < |esps| && esps[c].Thr? ==> esps[c].t < threads)
  }

  // ---------- the ticket lock ----------

  ghost predicate NoDup(q: seq<nat>) {
    forall i: nat, j: nat :: i < j < |q| ==> q[i] != q[j]
  }

  /** What a CPU has to do with the lock. */
  datatype Claim = Nothing | Draws(ticket: nat) | Owns | Releases(turn: nat)

  function ClaimOf(pc: PC): Claim {
    if !Ticketed(pc) then Nothing
    else if pc.Spin? then Draws(pc.ticket)
    else if pc.LeaveTurn? then Releases(pc.turn)
    else Owns
  }

  function Claims(secs: seq<PC>): (r: seq<Claim>)
    ensures |r| == |secs| && forall c :: 0 <= c < |r| ==> r[c] == ClaimOf(secs[c])
  {
    seq(|secs|, c requires 0 <= c < |secs| => ClaimOf(secs[c]))
  }

  ghost predicate Lock(ticket: nat, turn: nat, waiting: seq<nat>, claims: seq<Claim>) {
    && 0 < |claims| < WRAP && turn < WRAP
    && NoDup(waiting)
    && ticket == (turn + |waiting|) % WRAP
    && (forall j: nat :: j < |waiting| ==> WaiterOk(turn, j, waiting[j], claims))
    && (forall c: nat :: c < |claims| && !claims[c].Nothing? ==> c in waiting)
  }

  /** The j-th CPU in ticket order has the j-th ticket after `turn`; only the first one owns. */
  ghost predicate WaiterOk(turn: nat, j: nat, c: nat, claims: seq<Claim>) {
    && c < |claims| && !claims[c].Nothing?
    && (claims[c].Draws? ==> claims[c].ticket == (turn + j) % WRAP)
    && (!claims[c].Draws? ==> j == 0)
    && (claims[c].Releases? ==> claims[c].turn == turn)
  }

  ghost predicate Tickets(sh: Shared, secs: seq<PC>) {
    Lock(sh.ticket, sh.turn, sh.waiting, Claims(secs))
  }

  // ---------- gates ----------

  /** A CPU's involvement with gates: whose gate_lock it has, which gate is marked as queued on
      its account without being in its queue, what it is about to report from set_queued, and a
      gate it is going to work on. */
  datatype Grip = Grip(lock: Option<nat>, window: Option<nat>, status: Option<bool>, gate: Option<nat>)

  function GripOf(pc: PC): Grip {
    match pc
    case Prologue(g) => Grip(None, None, None, Some(g))
    case TestFlag(g) => Grip(None, None, None, Some(g))
    case QLock(g) => Grip(None, None, None, Some(g))
    case QRead(g) => Grip(Some(g), None, None, Some(g))
    case QWrite(g, st) => Grip(Some(g), None, Some(st), Some(g))
    case QUnlock(g, st) => Grip(Some(g), if st then Some(g) else None, None, Some(g))
    case Enqueue(g) => Grip(None, Some(g), None, Some(g))
    case DLock(g) => Grip(None, Some(g), None, Some(g))
    case DClear(g) => Grip(Some(g), Some(g), None, Some(g))
    case DUnlock(g) => Grip(Some(g), None, None, Some(g))
    case _ => Grip(None, None, None, None)
  }

  function Grips(tops: seq<PC>): (r: seq<Grip>)
    ensures |r| == |tops| && forall c :: 0 <= c < |r| ==> r[c] == GripOf(tops[c])
  {
    seq(|tops|, c requires 0 <= c < |tops| => GripOf(tops[c]))
  }

  /** Gate g counts as queued because of a CPU with this queue and grip. */
  predicate Carries(queue: seq<nat>, a: Grip, g: nat) {
    g in queue || a.window == Some(g)
  }

  ghost predicate GateInv(gate: seq<Gate>, grips: seq<Grip>, queues: seq<seq<nat>>) {
    && |grips| == |queues| && |gate| > WATCH
    && (forall c: nat :: c < |grips| ==> GripOk(gate, c, grips[c], queues[c]))
    && (forall c: nat, d: nat, g: nat :: c < |grips| && d < |grips| && c != d && Carries(queues[c], grips[c], g)
          ==> !Carries(queues[d], grips[d], g))
    && (forall g: nat :: g < |gate| ==> GateOk(gate[g], g, grips, queues))
  }

  ghost predicate GripOk(gate: seq<Gate>, c: nat, a: Grip, queue: seq<nat>) {
    && (a.gate.Some? ==> a.gate.value < |gate|)
    && (a.lock.Some? ==> a.lock == a.gate && gate[a.lock.value].lock == Some(c))
    && (a.window.Some? ==> a.window == a.gate && gate[a.window.value].queued)
    && (a.status.Some? ==> a.lock.Some? && a.status.value == !gate[a.lock.value].queued)
    && NoDup(queue)
    && (forall i: nat :: i < |queue| ==>
          queue[i] < |gate| && gate[queue[i]].queued && a.window != Some(queue[i]))
  }

  ghost predicate GateOk(x: Gate, g: nat, grips: seq<Grip>, queues: seq<seq<nat>>)
    requires |grips| == |queues|
  {
    && (x.lock.Some? ==> x.lock.value < |grips| && grips[x.lock.value].lock == Some(g))
    && (x.queued ==> Carried(grips, queues, g))
  }

  ghost predicate Carried(grips: seq<Grip>, queues: seq<seq<nat>>, g: nat)
    requires |grips| == |queues|
  {
    exists c: nat :: c < |grips| && Carries(queues[c], grips[c], g)
  }

  ghost predicate Gates(gate: seq<Gate>, tops: seq<PC>, queues: seq<seq<nat>>) {
    GateInv(gate, Grips(tops), queues)
  }

  // ---------- where the threads are ----------

  /** How a CPU's life pointer relates to the owner of the stack it runs on. */
  datatype Rule =
    | Follows                                            // it names the owner
    | OnBoot                                             // there is no owner and no thread
    | Names(t: Option<nat>)                              // both are t
    | Ahead(leaves: Option<nat>, arrives: Option<nat>)   // set for the thread being switched to
    | Free                                               // undefined behaviour has been reached

  /** What a CPU is doing to threads: one is on its way from the ready list to this CPU (`fly`);
      its own thread may be back in the ready list (`late`); a kill is before or after its
      removal from the ready list. */
  datatype Spot = Spot(fly: Option<nat>, late: bool, removing: Option<nat>, removed: Option<nat>, rule: Rule)

  const NEUTRAL := Spot(None, false, None, None, Follows)

  function SpotOf(pc: PC): Spot {
    match pc
    case KillRemove(t) => NEUTRAL.(removing := Some(t))
    case KillIpi(t) => NEUTRAL.(removed := Some(t))
    case AssassinTest(cur) => NEUTRAL.(rule := Names(Some(cur)))
    case ResumeEnqueue(cur) => NEUTRAL.(rule := Names(Some(cur)))
    case ResumeDequeue => NEUTRAL.(late := true)
    case ResumeLoop(next) => Spot(Some(next), true, None, None, Follows)
    case Dispatch(succ) => Spot(succ, succ.Some?, None, None, Follows)
    case SetLife(prev, succ) => Spot(succ, succ.Some?, None, None, Names(prev))
    case SetOn(prev, succ) => Spot(succ, succ.Some?, None, None, Ahead(prev, succ))
    case Save(from, next) => Spot(Some(next), true, None, None, Ahead(Some(from), Some(next)))
    case Load(prev, next) => Spot(Some(next), true, None, None, Ahead(prev, Some(next)))
    case ScheduleTimer(next) => Spot(Some(next), false, None, None, OnBoot)
    case ScheduleOff(next) => Spot(Some(next), false, None, None, OnBoot)
    case ScheduleLife(next) => Spot(Some(next), false, None, None, OnBoot)
    case ScheduleOn(next) => Spot(Some(next), false, None, None, Ahead(None, Some(next)))
    case Fault => NEUTRAL.(rule := Free)
    case _ => NEUTRAL
  }

  function Spots(secs: seq<PC>): (r: seq<Spot>)
    ensures |r| == |secs| && forall c :: 0 <= c < |r| ==> r[c] == SpotOf(secs[c])
  {
    seq(|secs|, c requires 0 <= c < |secs| => SpotOf(secs[c]))
  }

  function Owner(x: Ctx): Option<nat> {
    if x.Thr? then Some(x.t) else None
  }

  ghost predicate LifeOk(life: Option<nat>, x: Ctx, rule: Rule) {
    match rule
    case Follows => life == Owner(x)
    case OnBoot => life == None && x.Boot?
    case Names(t) => life == t && Owner(x) == t
    case Ahead(leaves, arrives) => life == arrives && Owner(x) == leaves
    case Free => true
  }

  ghost predicate Places(sh: Shared, spots: seq<Spot>, esps: seq<Ctx>) {
    && |spots| == |esps| == |sh.life|
    && NoDup(sh.jobs)
    && (forall i: nat :: i < |sh.jobs| ==> JobOk(sh, spots, sh.jobs[i]))
    && (forall c: nat :: c < |spots| ==> PlaceOk(sh, c, spots[c], esps[c]))
    && (forall c: nat, d: nat :: c < |spots| && d < |spots| && c != d && spots[c].fly.Some? ==>
          Owner(esps[d]) != spots[c].fly && sh.life[d] != spots[c].fly)
    && (forall c: nat, d: nat :: c < d < |spots| && sh.life[c].Some? ==> sh.life[c] != sh.life[d])
  }

  ghost predicate JobOk(sh: Shared, spots: seq<Spot>, t: nat) {
    t < |sh.thr| && (sh.thr[t].kill ==> exists c: nat :: c < |spots| && spots[c].removing == Some(t))
  }

  ghost predicate PlaceOk(sh: Shared, c: nat, spot: Spot, x: Ctx)
    requires c < |sh.life|
  {
    && LifeOk(sh.life[c], x, spot.rule)
    && (x.Thr? && x.t in sh.jobs ==> spot.late)
    && (spot.fly.Some? ==>
          spot.fly.value < |sh.thr| && spot.fly.value !in sh.jobs && !sh.thr[spot.fly.value].kill)
    && (sh.life[c].Some? ==>
          sh.life[c].value < |sh.thr|
          && (sh.life[c].value in sh.jobs ==> spot.late && sh.life[c] == Owner(x)))
    && (spot.removing.Some? ==> spot.removing.value < |sh.thr| && sh.thr[spot.removing.value].kill)
    && (spot.removed.Some? ==>
          spot.removed.value < |sh.thr| && sh.thr[spot.removed.value].kill && spot.removed.value !in sh.jobs)
  }

  ghost predicate Placement(sh: Shared, secs: seq<PC>, esps: seq<Ctx>) {
    Places(sh, Spots(secs), esps)
  }

  // ---------- saved contexts ----------

  /** A suspended thread: its stack ends in toc_switch (or is freshly settled), and its toc and
      stack are what they were at its last call of toc_switch. */
  ghost predicate Suspended(th: Thread, t: nat, k: Stack) {
    && k.Push? && Shape(k)
    && (k.top.pc.Fresh? || (k.top.pc.Load? && k.top.pc.prev == Some(t)))
    && th.toc == Toc(th.callRegs, Thr(t))
    && th.callStack == Returned(k)
  }

  /** The section frame and everything below it. */
  function SecStack(k: Stack): Stack {
    match k
    case Empty => Empty
    case Push(f, r) => if InSection(f.pc) then k else SecStack(r)
  }

  /** The registers the section frame finds when the handlers above it have returned. */
  function SecRegs(k: Stack, regs: int): int {
    match k
    case Empty => regs
    case Push(f, r) =>
      if InSection(f.pc) || f.kind.Base? then regs else SecRegs(r, f.kind.regs)
  }

  /** The thread that is inside toc_switch on a CPU with this section counter. */
  function Leaver(pc: PC): Option<nat> {
    if pc.Save? then Some(pc.from) else if pc.Load? then pc.prev else None
  }

  ghost predicate SwitchOk(thr: seq<Thread>, regs: int, k: Stack) {
    var pc := SecPc(k);
    Leaver(pc).Some? ==>
      var t := Leaver(pc).value;
      && t < |thr|
      && thr[t].callRegs == SecRegs(k, regs)
      && thr[t].callStack == Returned(SecStack(k))
      && (pc.Load? ==> thr[t].toc == Toc(thr[t].callRegs, Thr(t)))
  }

  ghost predicate Contexts(s: State) {
    && (forall c: nat :: c < |s.cpu| ==> SwitchOk(s.sh.thr, s.cpu[c].regs, Stk(s, c)))
    && (forall t: nat :: t < |s.sh.thr| ==> Thr(t) in s.stk)
    && (forall t: nat :: t < |s.sh.thr| && Thr(t) !in Esps(s) ==> Suspended(s.sh.thr[t], t, s.stk[Thr(t)]))
  }

  ghost predicate Inv(s: State) {
    && Stacks(s)
    && Tickets(s.sh, Secs(s))
    && Gates(s.sh.gate, Tops(s), Queues(s))
    && Placement(s.sh, Secs(s), Esps(s))
    && Contexts(s)
  }
}
