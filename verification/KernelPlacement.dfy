/** Where threads are: each in at most one place, and killed threads in none that leads to a CPU.
    Only the lock holder moves threads, so its steps are proved against the set of threads that
    run elsewhere. */
module KernelPlacement {
  import opened KernelState
  import opened KernelInvariant

  /** Threads that run on CPUs other than c. */
  function Elsewhere(life: seq<Option<nat>>, c: nat): (r: set<nat>)
    ensures forall t: nat :: t in r <==> exists d: nat :: d < |life| && d != c && life[d] == Some(t)
  {
    set d: nat | d < |life| && d != c && life[d].Some? :: life[d].value
  }

  /** Placement as the lock holder sees it. */
  ghost predicate Focus(sh: Shared, c: nat, spot: Spot, x: Ctx, rest: set<nat>) {
    && c < |sh.life| && NoDup(sh.jobs)
    && (forall i: nat :: i < |sh.jobs| ==> FocusJob(sh, spot, sh.jobs[i], rest))
    && PlaceOk(sh, c, spot, x)
    && (x.Thr? ==> x.t !in rest)
    && (sh.life[c].Some? ==> sh.life[c].value !in rest)
    && (spot.fly.Some? ==> spot.fly.value !in rest)
  }

  ghost predicate FocusJob(sh: Shared, spot: Spot, t: nat, rest: set<nat>) {
    t < |sh.thr| && t !in rest && (sh.thr[t].kill ==> spot.removing == Some(t))
  }

  /** Every other CPU leaves the threads alone. */
  ghost predicate OthersOut(spots: seq<Spot>, c: nat) {
    forall d: nat :: d < |spots| && d != c ==> spots[d] == NEUTRAL
  }

  lemma ToFocus(sh: Shared, spots: seq<Spot>, esps: seq<Ctx>, c: nat)
    requires Places(sh, spots, esps) && c < |spots| && OthersOut(spots, c) && Exclusive(esps, |sh.thr|)
    ensures Focus(sh, c, spots[c], esps[c], Elsewhere(sh.life, c))
  {
    var rest := Elsewhere(sh.life, c);
    forall d: nat | d < |spots| && d != c && sh.life[d].Some?
      ensures esps[d] == Thr(sh.life[d].value) && sh.life[d].value !in sh.jobs
    {
      assert PlaceOk(sh, d, spots[d], esps[d]);
    }
    forall i: nat | i < |sh.jobs| ensures FocusJob(sh, spots[c], sh.jobs[i], rest) {
      assert JobOk(sh, spots, sh.jobs[i]);
    }
  }

  lemma FromFocus(sh: Shared, spots: seq<Spot>, esps: seq<Ctx>, c: nat, sh': Shared, spot: Spot, x: Ctx)
    requires Places(sh, spots, esps) && c < |spots| && OthersOut(spots, c)
    requires |sh'.life| == |sh.life| && sh'.life == sh.life[c := sh'.life[c]] && |sh'.thr| == |sh.thr|
    requires Focus(sh', c, spot, x, Elsewhere(sh.life, c))
    ensures Places(sh', spots[c := spot], esps[c := x])
  {
    var spots', esps', rest := spots[c := spot], esps[c := x], Elsewhere(sh.life, c);
    assert spots'[c] == spot;
    forall d: nat | d < |spots| && d != c
      ensures (sh'.life[d].Some? ==> sh'.life[d].value in rest) && esps'[d] == esps[d]
              && Owner(esps[d]) == sh'.life[d] && PlaceOk(sh', d, spots'[d], esps'[d])
    {
      assert PlaceOk(sh, d, spots[d], esps[d]);
      Bystander(sh, sh', d, esps[d], rest, spot);
    }
    forall i: nat | i < |sh'.jobs| ensures JobOk(sh', spots', sh'.jobs[i]) {
      assert FocusJob(sh', spot, sh'.jobs[i], rest);
    }
  }

  /** A CPU without the lock keeps its thread. */
  lemma Bystander(sh: Shared, sh': Shared, d: nat, x: Ctx, rest: set<nat>, spot: Spot)
    requires d < |sh.life| == |sh'.life| && PlaceOk(sh, d, NEUTRAL, x)
    requires sh'.life[d] == sh.life[d] && |sh'.thr| == |sh.thr|
    requires sh.life[d].Some? ==> sh.life[d].value in rest
    requires forall i: nat :: i < |sh'.jobs| ==> FocusJob(sh', spot, sh'.jobs[i], rest)
    ensures PlaceOk(sh', d, NEUTRAL, x)
  {
  }

  // ---------- the ready list ----------

  lemma {:induction false} RemoveFirstOk(q: seq<nat>, t: nat)
    requires NoDup(q)
    ensures NoDup(RemoveFirst(q, t)) && t !in RemoveFirst(q, t)
    ensures forall x :: x in RemoveFirst(q, t) <==> x in q && x != t
  {
    if q != [] {
      RemoveFirstOk(q[1..], t);
      assert q == [q[0]] + q[1..];
      assert forall x :: x in q <==> x == q[0] || x in q[1..];
      assert q[0] !in q[1..];
      if q[0] != t {
        var r := RemoveFirst(q[1..], t);
        assert q[0] !in r;
        assert forall x :: x in [q[0]] + r <==> x == q[0] || x in r;
      }
    }
  }

  lemma Append(sh: Shared, c: nat, spot: Spot, x: Ctx, rest: set<nat>, t: nat, to: Spot)
    requires Focus(sh, c, spot, x, rest) && spot.fly.None? && spot.removing.None? && !spot.late
    requires t < |sh.thr| && t !in sh.jobs && t !in rest && !sh.thr[t].kill
    requires to.fly.None? && to.removing.None? && to.removed.None? && to.rule == Follows
    requires sh.life[c] == Owner(x) && (Owner(x) == Some(t) ==> to.late)
    ensures Focus(sh.(jobs := sh.jobs + [t]), c, to, x, rest)
  {
    var sh' := sh.(jobs := sh.jobs + [t]);
    forall i: nat | i < |sh'.jobs| ensures FocusJob(sh', to, sh'.jobs[i], rest) {
      if i < |sh.jobs| { assert FocusJob(sh, spot, sh.jobs[i], rest); }
    }
  }

  lemma TakeFirst(sh: Shared, c: nat, spot: Spot, x: Ctx, rest: set<nat>, to: Spot)
    requires Focus(sh, c, spot, x, rest) && sh.jobs != [] && spot.fly.None? && spot.removing.None?
    requires to.fly == Some(sh.jobs[0]) && to.removing.None? && to.removed.None?
    requires LifeOk(sh.life[c], x, to.rule) && sh.life[c] == Owner(x) && (spot.late ==> to.late)
    ensures Focus(sh.(jobs := sh.jobs[1..]), c, to, x, rest)
  {
    var sh' := sh.(jobs := sh.jobs[1..]);
    assert sh.jobs == [sh.jobs[0]] + sh'.jobs;
    assert FocusJob(sh, spot, sh.jobs[0], rest);
    forall i: nat | i < |sh'.jobs| ensures FocusJob(sh', to, sh'.jobs[i], rest) {
      assert FocusJob(sh, spot, sh.jobs[i + 1], rest);
    }
  }

  /** The list, the life pointers and the kill flags stay; the CPU's part in them may end. */
  lemma Pass(sh: Shared, c: nat, spot: Spot, x: Ctx, rest: set<nat>, sh': Shared, to: Spot)
    requires Focus(sh, c, spot, x, rest) && spot.removing.None?
    requires sh'.jobs == sh.jobs && sh'.life == sh.life && |sh'.thr| == |sh.thr|
    requires forall t: nat :: t < |sh.thr| ==> sh'.thr[t].kill == sh.thr[t].kill
    requires LifeOk(sh.life[c], x, to.rule)
    requires to.fly == spot.fly || to.fly.None?
    requires to.removing.None? && to.removed.None?
    requires to.late || !spot.late || (x.Thr? ==> x.t !in sh.jobs)
    requires to.late || !spot.late || (sh.life[c].Some? ==> sh.life[c].value !in sh.jobs)
    ensures Focus(sh', c, to, x, rest)
  {
    forall i: nat | i < |sh'.jobs| ensures FocusJob(sh', to, sh'.jobs[i], rest) {
      assert FocusJob(sh, spot, sh.jobs[i], rest);
    }
  }

  // ---------- the steps ----------

  lemma DoFocus(c: nat, cp: Cpu, b: Body, sh: Shared, rest: set<nat>)
    requires Possible(c, cp, Do(b), sh) && Focus(sh, c, NEUTRAL, cp.esp, rest)
    requires b.Call? && b.op.Ready? ==>
      b.op.t < |sh.thr| && !sh.thr[b.op.t].kill && b.op.t !in sh.jobs && b.op.t !in rest && sh.life[c] != Some(b.op.t)
    requires b == Call(Schedule) ==> cp.esp.Boot?
    ensures var m := DoMove(c, cp, b, sh); Focus(m.sh, c, SpotOf(m.pc), cp.esp, rest)
  {
    var m, x := DoMove(c, cp, b, sh), cp.esp;
    match b {
      case Call(Ready(t)) => Append(sh, c, NEUTRAL, x, rest, t, NEUTRAL);
      case Call(Kill(t)) => KillFocus(sh, c, x, rest, t);
      case Call(Exit) =>
        if sh.jobs != [] { TakeFirst(sh, c, NEUTRAL, x, rest, SpotOf(m.pc)); }
        else { Pass(sh, c, NEUTRAL, x, rest, m.sh, SpotOf(m.pc)); }
      case Call(Schedule) =>
        if sh.jobs != [] { TakeFirst(sh, c, NEUTRAL, x, rest, SpotOf(m.pc)); }
        else { Pass(sh, c, NEUTRAL, x, rest, m.sh, SpotOf(m.pc)); }
      case Call(Section) => Pass(sh, c, NEUTRAL, x, rest, m.sh, SpotOf(m.pc));
      case Call(Resume) => Pass(sh, c, NEUTRAL, x, rest, m.sh, SpotOf(m.pc));
      case Epilogue(_) => Pass(sh, c, NEUTRAL, x, rest, m.sh, SpotOf(m.pc));
    }
  }

  lemma KillFocus(sh: Shared, c: nat, x: Ctx, rest: set<nat>, t: nat)
    requires Focus(sh, c, NEUTRAL, x, rest) && t < |sh.thr|
    ensures Focus(sh.(thr := sh.thr[t := sh.thr[t].(kill := true)]), c, NEUTRAL.(removing := Some(t)), x, rest)
  {
    var sh' := sh.(thr := sh.thr[t := sh.thr[t].(kill := true)]);
    forall i: nat | i < |sh.jobs| ensures FocusJob(sh', NEUTRAL.(removing := Some(t)), sh.jobs[i], rest) {
      assert FocusJob(sh, NEUTRAL, sh.jobs[i], rest);
    }
  }

  lemma RemoveFocus(sh: Shared, c: nat, x: Ctx, rest: set<nat>, t: nat)
    requires Focus(sh, c, NEUTRAL.(removing := Some(t)), x, rest)
    ensures t in sh.jobs ==> Focus(sh.(jobs := RemoveFirst(sh.jobs, t)), c, NEUTRAL, x, rest)
    ensures t !in sh.jobs ==> Focus(sh, c, NEUTRAL.(removed := Some(t)), x, rest)
  {
    var jobs := RemoveFirst(sh.jobs, t);
    RemoveFirstOk(sh.jobs, t);
    forall u: nat | u in sh.jobs && u != t ensures FocusJob(sh, NEUTRAL, u, rest) {
      var j: nat :| j < |sh.jobs| && sh.jobs[j] == u;
      assert FocusJob(sh, NEUTRAL.(removing := Some(t)), sh.jobs[j], rest);
    }
    assert forall i: nat :: i < |jobs| ==> jobs[i] in jobs;
    assert t !in sh.jobs ==> forall i: nat :: i < |sh.jobs| ==> sh.jobs[i] in sh.jobs && sh.jobs[i] != t;
  }

  lemma EnqueueFocus(sh: Shared, c: nat, x: Ctx, rest: set<nat>, cur: nat)
    requires Focus(sh, c, SpotOf(ResumeEnqueue(cur)), x, rest) && cur < |sh.thr|
    ensures Focus(sh.(jobs := if sh.thr[cur].kill then sh.jobs else sh.jobs + [cur]), c, SpotOf(ResumeDequeue), x, rest)
  {
    var from, to := SpotOf(ResumeEnqueue(cur)), SpotOf(ResumeDequeue);
    if sh.thr[cur].kill {
      assert sh.(jobs := sh.jobs) == sh;
      Pass(sh, c, from, x, rest, sh, to);
    } else {
      Append(sh, c, from, x, rest, cur, to);
    }
  }

  lemma DequeueFocus(sh: Shared, c: nat, x: Ctx, rest: set<nat>)
    requires Focus(sh, c, SpotOf(ResumeDequeue), x, rest)
    ensures sh.jobs == [] ==> Focus(sh, c, NEUTRAL, x, rest)
    ensures sh.jobs != [] ==> Focus(sh.(jobs := sh.jobs[1..]), c, SpotOf(ResumeLoop(sh.jobs[0])), x, rest)
  {
    if sh.jobs == [] { Pass(sh, c, SpotOf(ResumeDequeue), x, rest, sh, NEUTRAL); }
    else { TakeFirst(sh, c, SpotOf(ResumeDequeue), x, rest, SpotOf(ResumeLoop(sh.jobs[0]))); }
  }

  lemma ActiveFocus(sh: Shared, c: nat, x: Ctx, rest: set<nat>)
    requires Focus(sh, c, NEUTRAL, x, rest) && sh.life[c].Some?
    ensures Focus(sh, c, NEUTRAL.(rule := Names(sh.life[c])), x, rest)
  {
    Pass(sh, c, NEUTRAL, x, rest, sh, NEUTRAL.(rule := Names(sh.life[c])));
  }

  lemma ResumeFocus(c: nat, cp: Cpu, pc: PC, sh: Shared, rest: set<nat>)
    requires Possible(c, cp, pc, sh) && Focus(sh, c, SpotOf(pc), cp.esp, rest)
    requires Resuming(pc)
    ensures var m := ResumeMove(c, cp, pc, sh); Focus(m.sh, c, SpotOf(m.pc), cp.esp, rest)
  {
    var x := cp.esp;
    match pc {
      case ResumeActive => if sh.life[c].Some? { ActiveFocus(sh, c, x, rest); }
      case ResumeEnqueue(cur) => EnqueueFocus(sh, c, x, rest, cur);
      case ResumeDequeue => DequeueFocus(sh, c, x, rest);
      case ResumeLoop(next) =>
        assert !sh.thr[next].kill;
        Pass(sh, c, SpotOf(pc), x, rest, sh, SpotOf(Dispatch(Some(next))));
    }
  }

  lemma ScheduleFocus(c: nat, cp: Cpu, pc: PC, sh: Shared, rest: set<nat>)
    requires Possible(c, cp, pc, sh) && Focus(sh, c, SpotOf(pc), cp.esp, rest)
    requires Scheduling(pc)
    ensures var m := ScheduleMove(c, cp, pc, sh); Focus(m.sh, c, SpotOf(m.pc), cp.esp, rest)
  {
    var x, m := cp.esp, ScheduleMove(c, cp, pc, sh);
    if pc.ScheduleLife? {
      assert m.sh == sh.(life := sh.life[c := Some(pc.next)]) && m.pc == ScheduleOn(pc.next);
      StartFocus(sh, c, x, rest, pc.next);
    } else {
      assert m.sh == sh;
      Pass(sh, c, SpotOf(pc), x, rest, sh, SpotOf(m.pc));
    }
  }

  lemma KillStepFocus(c: nat, cp: Cpu, pc: PC, sh: Shared, rest: set<nat>)
    requires Possible(c, cp, pc, sh) && Focus(sh, c, SpotOf(pc), cp.esp, rest) && Killing(pc)
    ensures var m := KillMove(c, cp, pc, sh); Focus(m.sh, c, SpotOf(m.pc), cp.esp, rest)
  {
    var m := KillMove(c, cp, pc, sh);
    if pc.KillRemove? {
      assert SpotOf(pc) == NEUTRAL.(removing := Some(pc.t));
      RemoveFocus(sh, c, cp.esp, rest, pc.t);
    } else {
      assert SpotOf(m.pc) == NEUTRAL && m.sh.jobs == sh.jobs && m.sh.life == sh.life && m.sh.thr == sh.thr;
      Pass(sh, c, SpotOf(pc), cp.esp, rest, m.sh, NEUTRAL);
    }
  }

  lemma StartFocus(sh: Shared, c: nat, x: Ctx, rest: set<nat>, next: nat)
    requires Focus(sh, c, SpotOf(ScheduleLife(next)), x, rest)
    ensures Focus(sh.(life := sh.life[c := Some(next)]), c, SpotOf(ScheduleOn(next)), x, rest)
  {
    forall i: nat | i < |sh.jobs|
      ensures FocusJob(sh.(life := sh.life[c := Some(next)]), SpotOf(ScheduleOn(next)), sh.jobs[i], rest)
    {
      assert FocusJob(sh, SpotOf(ScheduleLife(next)), sh.jobs[i], rest);
    }
  }

  lemma LifeFocus(sh: Shared, c: nat, x: Ctx, rest: set<nat>, prev: Option<nat>, succ: Option<nat>)
    requires Focus(sh, c, SpotOf(SetLife(prev, succ)), x, rest)
    ensures Focus(sh.(life := sh.life[c := succ]), c, SpotOf(SetOn(prev, succ)), x, rest)
  {
    forall i: nat | i < |sh.jobs|
      ensures FocusJob(sh.(life := sh.life[c := succ]), SpotOf(SetOn(prev, succ)), sh.jobs[i], rest)
    {
      assert FocusJob(sh, SpotOf(SetLife(prev, succ)), sh.jobs[i], rest);
    }
  }

  lemma DispatchFocus(c: nat, cp: Cpu, pc: PC, sh: Shared, k: Stack, rest: set<nat>)
    requires Possible(c, cp, pc, sh) && Focus(sh, c, SpotOf(pc), cp.esp, rest) && Dispatching(pc)
    ensures var m := DispatchMove(c, cp, pc, sh, k); Focus(m.sh, c, SpotOf(m.pc), cp.esp, rest)
  {
    var m, x := DispatchMove(c, cp, pc, sh, k), cp.esp;
    match pc {
      case Dispatch(succ) => Pass(sh, c, SpotOf(pc), x, rest, sh, SpotOf(m.pc));
      case SetLife(prev, succ) => LifeFocus(sh, c, x, rest, prev, succ);
      case SetOn(prev, succ) => CallFocus(sh, c, x, rest, prev, succ, m.sh);
      case Save(t, next) => SaveFocus(sh, c, x, rest, t, next, m.sh);
    }
  }

  ghost predicate SameKills(sh: Shared, sh': Shared) {
    sh'.jobs == sh.jobs && sh'.life == sh.life && |sh'.thr| == |sh.thr|
    && forall t: nat :: t < |sh.thr| ==> sh'.thr[t].kill == sh.thr[t].kill
  }

  lemma CallFocus(sh: Shared, c: nat, x: Ctx, rest: set<nat>, prev: Option<nat>, succ: Option<nat>, sh': Shared)
    requires Focus(sh, c, SpotOf(SetOn(prev, succ)), x, rest) && SameKills(sh, sh')
    ensures prev.Some? && succ.Some? ==> Focus(sh', c, SpotOf(Save(prev.value, succ.value)), x, rest)
    ensures prev.None? || succ.None? ==> Focus(sh', c, SpotOf(Fault), x, rest)
  {
    var from := SpotOf(SetOn(prev, succ));
    if prev.Some? && succ.Some? { Pass(sh, c, from, x, rest, sh', SpotOf(Save(prev.value, succ.value))); }
    else { Pass(sh, c, from, x, rest, sh', SpotOf(Fault)); }
  }

  lemma SaveFocus(sh: Shared, c: nat, x: Ctx, rest: set<nat>, t: nat, next: nat, sh': Shared)
    requires Focus(sh, c, SpotOf(Save(t, next)), x, rest) && SameKills(sh, sh')
    ensures Focus(sh', c, SpotOf(Load(Some(t), next)), x, rest)
  {
    Pass(sh, c, SpotOf(Save(t, next)), x, rest, sh', SpotOf(Load(Some(t), next)));
  }

  /** toc_switch or toc_go arrives on the new stack. */
  lemma SwitchFocus(c: nat, prev: Option<nat>, next: nat, x: Ctx, sh: Shared, rest: set<nat>)
    requires Focus(sh, c, SpotOf(Load(prev, next)), x, rest)
    ensures Focus(sh, c, NEUTRAL, Thr(next), rest)
  {
    forall i: nat | i < |sh.jobs| ensures FocusJob(sh, NEUTRAL, sh.jobs[i], rest) {
      assert FocusJob(sh, SpotOf(Load(prev, next)), sh.jobs[i], rest);
    }
  }

  /** Steps outside the scheduler. */
  lemma PlacesKeep(sh: Shared, spots: seq<Spot>, esps: seq<Ctx>, sh': Shared)
    requires Places(sh, spots, esps)
    requires sh'.life == sh.life && sh'.thr == sh.thr && sh'.jobs == sh.jobs
    ensures Places(sh', spots, esps)
  {
    forall i: nat | i < |sh'.jobs| ensures JobOk(sh', spots, sh'.jobs[i]) {
      assert JobOk(sh, spots, sh.jobs[i]);
    }
    forall c: nat | c < |spots| ensures PlaceOk(sh', c, spots[c], esps[c]) {
      assert PlaceOk(sh, c, spots[c], esps[c]);
    }
  }

  lemma SpotsUpdate(secs: seq<PC>, c: nat, pc: PC)
    requires c < |secs|
    ensures Spots(secs[c := pc]) == Spots(secs)[c := SpotOf(pc)]
  {
  }
}
