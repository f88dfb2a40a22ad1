/** Threads over whole runs: placement, kill, the order of the ready list, and faults. */
module KernelThreads {
  import opened Arithmetic
  import opened KernelState
  import opened KernelInvariant
  import opened KernelStacks
  import opened KernelTickets
  import opened KernelPlacement
  import opened KernelSafety
  import opened KernelInduction
  import opened KernelTheorems

  // ---------- placement ----------

  /** A thread is at most once in the ready list and in at most one life slot; it is in both only
      while the CPU it runs on holds the lock and is about to switch away from it. */
  ghost predicate OnePlace(s: State, t: nat) {
    && NoDup(s.sh.jobs)
    && (forall c: nat, d: nat :: c < d < |s.sh.life| && s.sh.life[c] == Some(t) ==> s.sh.life[d] != Some(t))
    && (forall c: nat :: c < |s.cpu| && c < |s.sh.life| && s.sh.life[c] == Some(t) && t in s.sh.jobs ==>
          Holds(Sec(s, c)) && s.cpu[c].esp == Thr(t) && SpotOf(Sec(s, c)).late)
  }

  lemma OnePlaceAlways(r: Run, i: nat, t: nat)
    requires FromBoot(r) && i < |r.states|
    ensures OnePlace(r.states[i], t)
  {
    Always(r, i);
    PlaceOnce(r.states[i], t);
  }

  lemma PlaceOnce(s: State, t: nat)
    requires Placement(s.sh, Secs(s), Esps(s)) && |s.sh.life| == |s.cpu|
    ensures OnePlace(s, t)
  {
    forall c: nat | c < |s.cpu| && s.sh.life[c] == Some(t) && t in s.sh.jobs
      ensures Holds(Sec(s, c)) && s.cpu[c].esp == Thr(t) && SpotOf(Sec(s, c)).late
    {
      assert PlaceOk(s.sh, c, Spots(Secs(s))[c], Esps(s)[c]);
      if !Holds(Sec(s, c)) { NotHolding(Sec(s, c)); }
    }
  }

  // ---------- kill is final ----------

  ghost predicate Gone(s: State, t: nat) {
    t < |s.sh.thr| && s.sh.thr[t].kill && t !in s.sh.jobs
  }

  /** What a step can do to the ready list: append a live thread, or take threads away. */
  lemma JobsMove(c: nat, cp: Cpu, k: Stack, sh: Shared, t: nat)
    requires k.Push? && Possible(c, cp, k.top.pc, sh) && Moves(k.top.pc) && t < |sh.thr| && sh.thr[t].kill
    requires NoDup(sh.jobs)
    requires k.top.pc.Do? && k.top.pc.b.Call? && k.top.pc.b.op.Ready? ==> k.top.pc.b.op.t != t
    ensures var m := MoveOf(c, cp, k, sh);
      t < |m.sh.thr| && m.sh.thr[t].kill && (t in m.sh.jobs ==> t in sh.jobs)
  {
    var pc := k.top.pc;
    if Killing(pc) { KillJobs(c, cp, pc, sh, t); }
    else if Resuming(pc) { ResumeJobs(c, cp, pc, sh, t); }
    else if pc.Do? { DoJobs(c, cp, pc.b, sh, t); }
    else if Dispatching(pc) { DispatchJobs(c, cp, pc, sh, k, t); }
    else if !Scheduling(pc) { GuardEffect(c, cp, k, sh); }
  }

  lemma KillJobs(c: nat, cp: Cpu, pc: PC, sh: Shared, t: nat)
    requires Possible(c, cp, pc, sh) && Killing(pc) && t < |sh.thr| && sh.thr[t].kill && NoDup(sh.jobs)
    ensures var m := KillMove(c, cp, pc, sh); m.sh.thr == sh.thr && (t in m.sh.jobs ==> t in sh.jobs)
  {
    if pc.KillRemove? { RemoveFirstOk(sh.jobs, pc.t); }
  }

  lemma ResumeJobs(c: nat, cp: Cpu, pc: PC, sh: Shared, t: nat)
    requires Possible(c, cp, pc, sh) && Resuming(pc) && t < |sh.thr| && sh.thr[t].kill
    ensures var m := ResumeMove(c, cp, pc, sh); m.sh.thr == sh.thr && (t in m.sh.jobs ==> t in sh.jobs)
  {
  }

  lemma DoJobs(c: nat, cp: Cpu, b: Body, sh: Shared, t: nat)
    requires Possible(c, cp, Do(b), sh) && t < |sh.thr| && sh.thr[t].kill && b != Call(Ready(t))
    ensures var m := DoMove(c, cp, b, sh);
      t < |m.sh.thr| && m.sh.thr[t].kill && (t in m.sh.jobs ==> t in sh.jobs)
  {
  }

  lemma DispatchJobs(c: nat, cp: Cpu, pc: PC, sh: Shared, k: Stack, t: nat)
    requires Possible(c, cp, pc, sh) && Dispatching(pc) && t < |sh.thr| && sh.thr[t].kill
    ensures var m := DispatchMove(c, cp, pc, sh, k); t < |m.sh.thr| && m.sh.thr[t].kill && m.sh.jobs == sh.jobs
  {
  }

  lemma GoneStep(s: State, c: nat, a: Act, t: nat)
    requires Inv(s) && Enabled(s, c, a) && Gone(s, t)
    ensures Gone(Next(s, c, a), t)
  {
    if a.Step? { JobsMove(c, s.cpu[c], Stk(s, c), s.sh, t); }
  }

  lemma {:induction false} GoneForever(r: Run, i: nat, j: nat, t: nat)
    requires FromBoot(r) && i <= j < |r.states| && Gone(r.states[i], t)
    ensures Gone(r.states[j], t)
  {
    if i < j {
      GoneForever(r, i, j - 1, t);
      GoneNext(r, j - 1, t);
    }
  }

  lemma GoneNext(r: Run, j: nat, t: nat)
    requires FromBoot(r) && j < |r.who| && Gone(r.states[j], t)
    ensures Gone(r.states[j + 1], t)
  {
    Transition(r, j);
    GoneStep(r.states[j], r.who[j], r.acts[j], t);
  }

  /** A thread on its way to a CPU is not a killed one. */
  lemma FliesAlive(s: State, c: nat)
    requires Placement(s.sh, Secs(s), Esps(s)) && c < |s.cpu|
    ensures SpotOf(Sec(s, c)).fly.Some? ==>
      SpotOf(Sec(s, c)).fly.value < |s.sh.thr| && !s.sh.thr[SpotOf(Sec(s, c)).fly.value].kill
  {
    assert PlaceOk(s.sh, c, Spots(Secs(s))[c], Esps(s)[c]);
  }

  /** Once kill(t) has passed its removal step, t is never again in the ready list, never on its
      way to a CPU, and never loaded. */
  lemma KillIsFinal(r: Run, i: nat, c: nat, t: nat, j: nat)
    requires FromBoot(r) && i < j < |r.states|
    requires r.who[i] == c < |r.states[i].cpu| && r.acts[i].Step? && TopPc(Stk(r.states[i], c)) == KillRemove(t)
    ensures var s := r.states[j];
      t !in s.sh.jobs && (forall d: nat :: d < |s.cpu| ==> SpotOf(Sec(s, d)).fly != Some(t))
    ensures forall d: nat :: !Loads(r, j, d, t)
  {
    RemovalPassed(r, i, t);
    GoneForever(r, i + 1, j, t);
    Always(r, j);
    NeverFlies(r.states[j], t);
    forall d: nat ensures !Loads(r, j, d, t) { NotLoaded(r.states[j], d, t); }
  }

  lemma RemovalPassed(r: Run, i: nat, t: nat)
    requires FromBoot(r) && i < |r.who| && r.who[i] < |r.states[i].cpu| && r.acts[i].Step?
    requires TopPc(Stk(r.states[i], r.who[i])) == KillRemove(t)
    ensures Gone(r.states[i + 1], t)
  {
    Transition(r, i);
    KillPassed(r.states[i], r.who[i], t);
  }

  lemma NotLoaded(s: State, d: nat, t: nat)
    requires Stacks(s) && forall c: nat :: c < |s.cpu| ==> SpotOf(Sec(s, c)).fly != Some(t)
    ensures !Loading(s, d, Act.Switch, t)
  {
    if Loading(s, d, Act.Switch, t) { LoadFlies(s, d); }
  }

  lemma NeverFlies(s: State, t: nat)
    requires Placement(s.sh, Secs(s), Esps(s)) && Gone(s, t)
    ensures forall d: nat :: d < |s.cpu| ==> SpotOf(Sec(s, d)).fly != Some(t)
  {
    forall d: nat | d < |s.cpu| ensures SpotOf(Sec(s, d)).fly != Some(t) { FliesAlive(s, d); }
  }

  lemma LoadFlies(s: State, d: nat)
    requires Stacks(s) && d < |s.cpu| && TopPc(Stk(s, d)).Load?
    ensures SpotOf(Sec(s, d)).fly == Some(TopPc(Stk(s, d)).next)
  {
  }

  lemma KillPassed(s: State, c: nat, t: nat)
    requires Inv(s) && Enabled(s, c, Step) && TopPc(Stk(s, c)) == KillRemove(t)
    ensures Gone(Next(s, c, Step), t)
  {
    assert CpuOk(s.cpu[c], Stk(s, c));
    assert Spots(Secs(s))[c].removing == Some(t);
    assert PlaceOk(s.sh, c, Spots(Secs(s))[c], Esps(s)[c]);
    RemovalMove(c, s.cpu[c], Stk(s, c), s.sh, t);
  }

  lemma RemovalMove(c: nat, cp: Cpu, k: Stack, sh: Shared, t: nat)
    requires k.Push? && k.top.pc == KillRemove(t) && Possible(c, cp, k.top.pc, sh) && NoDup(sh.jobs)
    ensures var m := MoveOf(c, cp, k, sh); t !in m.sh.jobs && m.sh.thr == sh.thr
  {
    RemoveFirstOk(sh.jobs, t);
  }

  // ---------- the destination of a kill's interrupt ----------

  lemma {:induction false} TargetIs(life: seq<Option<nat>>, t: nat)
    ensures forall j: nat :: j < Target(life, t) ==> life[j] != Some(t)
    ensures Target(life, t) < |life| ==> life[Target(life, t)] == Some(t)
  {
    if life != [] && life[0] != Some(t) {
      TargetIs(life[1..], t);
      forall j: nat | j < Target(life, t) ensures life[j] != Some(t) {
        if j > 0 { assert life[1..][j - 1] == life[j]; }
      }
    }
  }

  lemma {:induction false} OneBit(k: nat, c: nat)
    ensures Pow2(k) / Pow2(c) % 2 == 1 <==> k == c
  {
    if c == 0 {
      if k > 0 { assert Pow2(k) == 2 * Pow2(k - 1); }
    } else if k == 0 {
      assert Pow2(c) >= 2;
    } else {
      OneBit(k - 1, c - 1);
      Halves(Pow2(k - 1), Pow2(c - 1));
    }
  }

  lemma Halves(a: nat, b: nat)
    requires b > 0
    ensures (2 * a) / (2 * b) == a / b
  {
    var q, m := a / b, a % b;
    assert a == q * b + m;
    assert 2 * a == q * (2 * b) + 2 * m;
    QuotientUnique(q, 2 * m, 2 * b);
  }

  /** The 8-bit mask of a CPU number below 8 has exactly that bit; the mask for a thread that
      runs nowhere hits no CPU (of at most 8). */
  lemma MaskIsOneBit(target: nat, n: nat)
    requires target <= n <= 8
    ensures Receivers(Mask(target), n) == if target < n then {target} else {}
  {
    SmallPowers();
    forall c: nat | c < n ensures MaskBit(Mask(target), c) <==> c == target {
      if target < 8 { OneBit(target, c); assert Mask(target) == Pow2(target); }
      else { assert Mask(target) == 0; assert 0 / Pow2(c) == 0; }
    }
  }

  /** The interrupt of kill(t) goes to the one CPU whose life pointer is t, if there is one. */
  lemma KillInterruptsItsCpu(r: Run, i: nat, t: nat)
    requires FromBoot(r) && i < |r.states| && |r.states[i].cpu| <= 8
    ensures var life := r.states[i].sh.life;
      Receivers(Mask(Target(life, t)), |life|) == set c: nat | c < |life| && life[c] == Some(t)
  {
    Always(r, i);
    var life := r.states[i].sh.life;
    TargetIs(life, t);
    MaskIsOneBit(Target(life, t), |life|);
    PlaceOnce(r.states[i], t);
  }

  // ---------- bounded bypass ----------

  function Pos(q: seq<nat>, t: nat): (p: nat)
    ensures p <= |q|
  {
    if q == [] || q[0] == t then 0 else 1 + Pos(q[1..], t)
  }

  lemma {:induction false} PosAppend(q: seq<nat>, t: nat, u: nat)
    requires t in q
    ensures Pos(q + [u], t) == Pos(q, t)
  {
    if q[0] != t {
      assert (q + [u])[1..] == q[1..] + [u];
      PosAppend(q[1..], t, u);
    }
  }

  lemma {:induction false} PosRemove(q: seq<nat>, t: nat, u: nat)
    requires t in RemoveFirst(q, u) && t in q
    ensures t != u ==> Pos(RemoveFirst(q, u), t) <= Pos(q, t)
  {
    if t != u && q[0] != t {
      if q[0] == u { }
      else {
        assert RemoveFirst(q, u)[1..] == RemoveFirst(q[1..], u);
        PosRemove(q[1..], t, u);
      }
    }
  }

  /** The transitions that take the first thread off the ready list to run it. */
  ghost predicate Dequeues(s: State, c: nat, a: Act) {
    c < |s.cpu| && a.Step? && s.sh.jobs != []
    && (TopPc(Stk(s, c)).ResumeDequeue? || TopPc(Stk(s, c)) == Do(Call(Exit)) || TopPc(Stk(s, c)) == Do(Call(Schedule)))
  }

  predicate TakesFirst(pc: PC) { pc.ResumeDequeue? || pc == Do(Call(Exit)) || pc == Do(Call(Schedule)) }

  /** Every other thread moves up by one at a dequeue, and never back. */
  lemma PosMove(c: nat, cp: Cpu, k: Stack, sh: Shared, t: nat)
    requires k.Push? && Possible(c, cp, k.top.pc, sh) && Moves(k.top.pc) && NoDup(sh.jobs)
    requires t in sh.jobs && t in MoveOf(c, cp, k, sh).sh.jobs
    ensures Pos(MoveOf(c, cp, k, sh).sh.jobs, t) + (if TakesFirst(k.top.pc) then 1 else 0) <= Pos(sh.jobs, t)
  {
    var pc, m := k.top.pc, MoveOf(c, cp, k, sh);
    if TakesFirst(pc) {
      assert m.sh.jobs == sh.jobs[1..];
      FirstGone(sh.jobs, t);
    } else if pc.KillRemove? {
      RemoveFirstOk(sh.jobs, pc.t);
      assert m.sh.jobs == RemoveFirst(sh.jobs, pc.t) || m.sh.jobs == sh.jobs;
      if pc.t in sh.jobs { PosRemove(sh.jobs, t, pc.t); }
    } else {
      JobsAppended(c, cp, k, sh);
      if m.sh.jobs != sh.jobs { PosAppend(sh.jobs, t, m.sh.jobs[|sh.jobs|]); }
    }
  }

  lemma FirstGone(q: seq<nat>, t: nat)
    requires NoDup(q) && q != [] && t in q[1..]
    ensures Pos(q, t) == 1 + Pos(q[1..], t)
  {
    assert q[0] !in q[1..];
  }

  lemma JobsAppended(c: nat, cp: Cpu, k: Stack, sh: Shared)
    requires k.Push? && Possible(c, cp, k.top.pc, sh) && Moves(k.top.pc)
    requires !TakesFirst(k.top.pc) && !k.top.pc.KillRemove?
    ensures var jobs := MoveOf(c, cp, k, sh).sh.jobs;
      jobs == sh.jobs || (|jobs| == |sh.jobs| + 1 && jobs == sh.jobs + [jobs[|sh.jobs|]])
  {
    var pc := k.top.pc;
    if !InScheduler(pc) { GuardEffect(c, cp, k, sh); }
  }

  lemma PosStep(s: State, c: nat, a: Act, t: nat)
    requires Inv(s) && Enabled(s, c, a) && t in s.sh.jobs && t in Next(s, c, a).sh.jobs
    ensures Pos(Next(s, c, a).sh.jobs, t) + (if Dequeues(s, c, a) then 1 else 0) <= Pos(s.sh.jobs, t)
  {
    if a.Step? { PosMove(c, s.cpu[c], Stk(s, c), s.sh, t); }
  }

  ghost function DequeueCount(r: Run, i: nat, j: nat): nat
    requires Execution(r) && i <= j < |r.states|
  {
    if i == j then 0
    else DequeueCount(r, i, j - 1) + (if Dequeues(r.states[j - 1], r.who[j - 1], r.acts[j - 1]) then 1 else 0)
  }

  /** While a thread waits in the ready list, at most as many others are taken off it as were
      in front: at position k it is gone by the (k+1)-th dequeue on any CPUs. */
  lemma {:induction false} BoundedBypass(r: Run, i: nat, j: nat, t: nat)
    requires FromBoot(r) && i <= j < |r.states|
    requires forall m: nat :: i <= m <= j ==> t in r.states[m].sh.jobs
    ensures DequeueCount(r, i, j) + Pos(r.states[j].sh.jobs, t) <= Pos(r.states[i].sh.jobs, t)
  {
    if i < j {
      BoundedBypass(r, i, j - 1, t);
      assert t in r.states[j - 1].sh.jobs && t in r.states[j].sh.jobs;
      BypassStep(r, j - 1, t);
    }
  }

  lemma BypassStep(r: Run, j: nat, t: nat)
    requires FromBoot(r) && j < |r.who| && t in r.states[j].sh.jobs && t in r.states[j + 1].sh.jobs
    ensures Pos(r.states[j + 1].sh.jobs, t) + (if Dequeues(r.states[j], r.who[j], r.acts[j]) then 1 else 0)
         <= Pos(r.states[j].sh.jobs, t)
  {
    Transition(r, j);
    PosStep(r.states[j], r.who[j], r.acts[j], t);
  }

  /** A thread leaves the ready list only for the CPU that dequeues it, or by being killed. */
  lemma LeavesToRun(s: State, c: nat, a: Act, t: nat)
    requires Inv(s) && Enabled(s, c, a) && t in s.sh.jobs && t !in Next(s, c, a).sh.jobs
    ensures a.Step?
    ensures TopPc(Stk(s, c)) == KillRemove(t)
            || (Dequeues(s, c, a) && SpotOf(Sec(Next(s, c, a), c)).fly == Some(t))
  {
    StepProjections(s, c);
    assert CpuOk(s.cpu[c], Stk(s, c));
    LeaveMoveJobs(c, s.cpu[c], Stk(s, c), s.sh, t);
  }

  lemma LeaveMoveJobs(c: nat, cp: Cpu, k: Stack, sh: Shared, t: nat)
    requires k.Push? && Possible(c, cp, k.top.pc, sh) && Moves(k.top.pc) && NoDup(sh.jobs)
    requires t in sh.jobs && t !in MoveOf(c, cp, k, sh).sh.jobs
    ensures k.top.pc == KillRemove(t)
            || (TakesFirst(k.top.pc) && SpotOf(SecPc(Landed(k, MoveOf(c, cp, k, sh)))).fly == Some(t))
  {
    var pc, m := k.top.pc, MoveOf(c, cp, k, sh);
    if TakesFirst(pc) {
      assert sh.jobs == [sh.jobs[0]] + sh.jobs[1..] && m.sh.jobs == sh.jobs[1..];
    } else if pc.KillRemove? {
      RemoveFirstOk(sh.jobs, pc.t);
    } else {
      JobsAppended(c, cp, k, sh);
    }
  }

  /** A thread taken off the list reaches its CPU: it stays in flight until that CPU loads it.
      Only a CPU that has no thread of its own (exit called by boot code) faults instead. */
  lemma FlightLands(s: State, c: nat, a: Act, d: nat, t: nat)
    requires Inv(s) && Enabled(s, c, a) && d < |s.cpu| && SpotOf(Sec(s, d)).fly == Some(t)
    ensures var s' := Next(s, c, a);
      || SpotOf(Sec(s', d)).fly == Some(t)
      || (c == d && a.Switch? && s'.cpu[d].esp == Thr(t) && s'.sh.life[d] == Some(t))
      || (c == d && TopPc(Stk(s, d)) == SetOn(None, Some(t)))
  {
    if a.Step? { FlightStep(s, c, d, t); }
    else if a.Switch? { FlightSwitch(s, c, d, t); }
    else {
      OutsideProjections(s, c, a);
      assert Secs(Next(s, c, a))[d] == Secs(s)[d];
    }
  }

  lemma FlightStep(s: State, c: nat, d: nat, t: nat)
    requires Stacks(s) && Placement(s.sh, Secs(s), Esps(s)) && Enabled(s, c, Step)
    requires d < |s.cpu| && SpotOf(Sec(s, d)).fly == Some(t)
    ensures SpotOf(Sec(Next(s, c, Step), d)).fly == Some(t) || (c == d && TopPc(Stk(s, d)) == SetOn(None, Some(t)))
  {
    assert CpuOk(s.cpu[c], Stk(s, c));
    FliesAlive(s, d);
    StepProjections(s, c);
    if c == d { FlightMove(c, s.cpu[c], Stk(s, c), s.sh, t); }
  }

  lemma FlightSwitch(s: State, c: nat, d: nat, t: nat)
    requires Stacks(s) && Placement(s.sh, Secs(s), Esps(s)) && Contexts(s) && Enabled(s, c, Switch)
    requires d < |s.cpu| && SpotOf(Sec(s, d)).fly == Some(t)
    ensures var s' := Next(s, c, Switch);
      SpotOf(Sec(s', d)).fly == Some(t) || (c == d && s'.cpu[d].esp == Thr(t) && s'.sh.life[d] == Some(t))
  {
    LoadedContext(s, c);
    SwitchStacks(s, c);
    assert PlaceOk(s.sh, d, Spots(Secs(s))[d], Esps(s)[d]);
  }

  lemma FlightMove(c: nat, cp: Cpu, k: Stack, sh: Shared, t: nat)
    requires k.Push? && Possible(c, cp, k.top.pc, sh) && Shape(k) && Moves(k.top.pc)
    requires SpotOf(SecPc(k)).fly == Some(t) && t < |sh.thr| && !sh.thr[t].kill
    ensures k.top.pc == SetOn(None, Some(t)) || SpotOf(SecPc(Landed(k, MoveOf(c, cp, k, sh)))).fly == Some(t)
  {
    var pc := k.top.pc;
    if Dispatching(pc) { FlightDispatch(c, cp, pc, sh, k, t); }
    else if Resuming(pc) || Scheduling(pc) { FlightChosen(c, cp, k, sh, t); }
    else { FlightBelow(k, t); }
  }

  lemma FlightChosen(c: nat, cp: Cpu, k: Stack, sh: Shared, t: nat)
    requires k.Push? && Possible(c, cp, k.top.pc, sh) && (Resuming(k.top.pc) || Scheduling(k.top.pc))
    requires SpotOf(k.top.pc).fly == Some(t) && t < |sh.thr| && !sh.thr[t].kill
    ensures SpotOf(SecPc(Landed(k, MoveOf(c, cp, k, sh)))).fly == Some(t)
  {
  }

  lemma FlightDispatch(c: nat, cp: Cpu, pc: PC, sh: Shared, k: Stack, t: nat)
    requires Possible(c, cp, pc, sh) && Dispatching(pc) && SpotOf(pc).fly == Some(t)
    ensures var m := DispatchMove(c, cp, pc, sh, k);
      pc == SetOn(None, Some(t)) || (InSection(m.pc) && SpotOf(m.pc).fly == Some(t))
  {
  }

  /** Otherwise a handler runs on top of the dispatching frame. */
  lemma FlightBelow(k: Stack, t: nat)
    requires k.Push? && Shape(k) && Moves(k.top.pc) && SpotOf(SecPc(k)).fly == Some(t)
    requires !Dispatching(k.top.pc) && !Resuming(k.top.pc) && !Scheduling(k.top.pc)
    ensures (Queueing(k.top.pc) || Relaying(k.top.pc)) && !k.top.pc.Direct? && SecPc(k.rest) == SecPc(k)
  {
  }

  // ---------- the same in every run ----------

  /** At transition i thread t leaves the ready list: a kill takes it off, or a CPU dequeues it as the
      first of the list and has chosen it. */
  lemma ReadyUntilChosen(r: Run, i: nat, t: nat)
    requires FromBoot(r) && i < |r.who| && t in r.states[i].sh.jobs && t !in r.states[i + 1].sh.jobs
    ensures r.who[i] < |r.states[i].cpu| && r.who[i] < |r.states[i + 1].cpu|
    ensures TopPc(Stk(r.states[i], r.who[i])) == KillRemove(t)
            || (Dequeues(r.states[i], r.who[i], r.acts[i]) && Chosen(r.states[i + 1], r.who[i], t))
  {
    Transition(r, i);
    LeavesToRun(r.states[i], r.who[i], r.acts[i], t);
  }

  /** CPU d has taken thread t off the ready list and not loaded it yet. */
  ghost predicate Chosen(s: State, d: nat, t: nat) {
    d < |s.cpu| && SpotOf(Sec(s, d)).fly == Some(t)
  }

  /** CPU d loads thread t between states i and j, or uses a null thread there: an exit was called
      on a CPU that runs none. */
  ghost predicate Arrives(r: Run, i: nat, j: nat, d: nat, t: nat)
    requires Execution(r)
  {
    exists m: nat :: i <= m < j && ArrivesAt(r, m, d, t)
  }

  ghost predicate ArrivesAt(r: Run, m: nat, d: nat, t: nat)
    requires Execution(r)
  {
    Loads(r, m, d, t)
    || (m < |r.who| && r.who[m] == d < |r.states[m].cpu| && TopPc(Stk(r.states[m], d)) == SetOn(None, Some(t)))
  }

  lemma ChosenNext(r: Run, i: nat, d: nat, t: nat)
    requires FromBoot(r) && i < |r.who| && Chosen(r.states[i], d, t)
    ensures Chosen(r.states[i + 1], d, t) || ArrivesAt(r, i, d, t)
  {
    Transition(r, i);
    FlightLands(r.states[i], r.who[i], r.acts[i], d, t);
    LoadsChosen(r.states[i], r.who[i], r.acts[i], d, t);
  }

  lemma LoadsChosen(s: State, c: nat, a: Act, d: nat, t: nat)
    requires Stacks(s) && Enabled(s, c, a) && Chosen(s, d, t)
    ensures c == d && a.Switch? ==> Loading(s, c, a, t)
    ensures |Next(s, c, a).cpu| == |s.cpu|
  {
    if c == d && a.Switch? { LoadFlies(s, d); }
  }

  /** A chosen thread is never lost: it stays bound to its CPU until that CPU loads it. */
  lemma {:induction false} ChosenUntilLoaded(r: Run, i: nat, j: nat, d: nat, t: nat)
    requires FromBoot(r) && i <= j < |r.states| && Chosen(r.states[i], d, t)
    ensures Chosen(r.states[j], d, t) || Arrives(r, i, j, d, t)
  {
    if i < j {
      ChosenUntilLoaded(r, i, j - 1, d, t);
      if Arrives(r, i, j - 1, d, t) {
        var m: nat :| i <= m < j - 1 && ArrivesAt(r, m, d, t);
        assert i <= m < j;
      } else {
        ChosenNext(r, j - 1, d, t);
      }
    }
  }

  /** Thread t, at position k of the ready list, is taken off it no later than by the (k+1)-th dequeue on any
      CPUs: by a kill, or by a CPU that has chosen it, and then it has been loaded by state j or is still
      bound to that CPU. */
  lemma ServedInTurn(r: Run, i: nat, j: nat, t: nat) returns (m: nat)
    requires FromBoot(r) && i <= j < |r.states| && t in r.states[i].sh.jobs
    requires DequeueCount(r, i, j) > Pos(r.states[i].sh.jobs, t)
    ensures i <= m < j && DequeueCount(r, i, m) <= Pos(r.states[i].sh.jobs, t)
    ensures t in r.states[m].sh.jobs && t !in r.states[m + 1].sh.jobs && r.who[m] < |r.states[m].cpu|
    ensures TopPc(Stk(r.states[m], r.who[m])) == KillRemove(t)
            || (Dequeues(r.states[m], r.who[m], r.acts[m])
                && (Chosen(r.states[j], r.who[m], t) || Arrives(r, m + 1, j, r.who[m], t)))
  {
    m := i;
    while m < j && t in r.states[m + 1].sh.jobs
      invariant i <= m <= j && forall n: nat :: i <= n <= m ==> t in r.states[n].sh.jobs
    {
      m := m + 1;
    }
    BoundedBypass(r, i, m, t);
    ReadyUntilChosen(r, m, t);
    if TopPc(Stk(r.states[m], r.who[m])) != KillRemove(t) { ChosenUntilLoaded(r, m + 1, j, r.who[m], t); }
  }

  // ---------- the interrupt of a kill is sent; no step takes it back ----------

  lemma KillSendsInterrupt(r: Run, i: nat, t: nat)
    requires FromBoot(r) && i < |r.who| && r.acts[i].Step? && |r.states[i].cpu| <= 8
    requires r.who[i] < |r.states[i].cpu| && TopPc(Stk(r.states[i], r.who[i])) == KillIpi(t)
    ensures var sh := r.states[i].sh;
      r.states[i + 1].sh.ipi == sh.ipi + set c: nat | c < |sh.life| && sh.life[c] == Some(t)
  {
    Transition(r, i);
    KillInterruptsItsCpu(r, i, t);
    IpiMove(r.who[i], r.states[i].cpu[r.who[i]], Stk(r.states[i], r.who[i]), r.states[i].sh, t);
  }

  lemma IpiMove(c: nat, cp: Cpu, k: Stack, sh: Shared, t: nat)
    requires k.Push? && k.top.pc == KillIpi(t) && Possible(c, cp, k.top.pc, sh)
    ensures MoveOf(c, cp, k, sh).sh.ipi == sh.ipi + Receivers(Mask(Target(sh.life, t)), |sh.life|)
  {
  }

  lemma IpiKept(s: State, c: nat, a: Act, d: nat)
    requires Enabled(s, c, a) && d in s.sh.ipi
    ensures d in Next(s, c, a).sh.ipi || (c == d && a == Interrupt(ASSASSIN))
  {
    if a.Step? { IpiGrows(c, s.cpu[c], Stk(s, c), s.sh); }
  }

  lemma IpiGrows(c: nat, cp: Cpu, k: Stack, sh: Shared)
    requires k.Push? && Possible(c, cp, k.top.pc, sh) && Moves(k.top.pc)
    ensures sh.ipi <= MoveOf(c, cp, k, sh).sh.ipi
  {
    if !InScheduler(k.top.pc) { GuardEffect(c, cp, k, sh); }
  }
}
