/** What each critical section does to the ready list, the life pointers and the kill flags, and where its CPU
    goes, said outright and in every interleaved run. */
module KernelOperations {
  import opened KernelState
  import opened KernelInvariant
  import opened KernelSafety
  import opened KernelTheorems
  import opened Scheduler
  import opened KernelAtomic
  import opened KernelProgress

  /** CPU c enters the critical section b at state i, and state j is its first one behind it. */
  ghost predicate Executed(r: Run, i: nat, j: nat, c: nat, b: Body) {
    && FromBoot(r) && i < j < |r.states| && c < |r.states[i].cpu| && c < |r.states[j].cpu|
    && Sec(r.states[i], c) == Do(b) && Operating(r, i, j, c) && !InScheduler(Sec(r.states[j], c))
  }

  ghost predicate SameFlags(sh: Shared, sh': Shared) {
    |sh'.thr| == |sh.thr| && forall t :: 0 <= t < |sh.thr| ==> sh'.thr[t].kill == sh.thr[t].kill
  }

  /** The CPU leaves prev for the thread next, which its life pointer names. */
  ghost predicate Switches(c: nat, sh: Shared, sh': Shared, pc: PC, prev: Option<nat>, next: nat) {
    c < |sh.life| && pc == Load(prev, next) && sh'.life == sh.life[c := Some(next)]
  }

  /** The thread on stack x gives up CPU c. A live one goes to the end of the ready list, a dying one does not;
      the first of the list is next. */
  ghost predicate Yields(c: nat, x: Ctx, sh: Shared, sh': Shared, pc: PC) {
    match x
    case Boot(_) => pc.Dead? && sh'.jobs == sh.jobs && sh'.life == sh.life
    case Thr(cur) =>
      cur < |sh.thr| &&
      var q := if sh.thr[cur].kill then sh.jobs else sh.jobs + [cur];
      if q == [] then pc.Dead? && sh'.jobs == [] && sh'.life == sh.life
      else Switches(c, sh, sh', pc, Some(cur), q[0]) && sh'.jobs == q[1..]
  }

  /** The section is over, and nothing has changed. */
  ghost predicate Unchanged(sh: Shared, sh': Shared, pc: PC) {
    pc.LeaveOff? && sh'.jobs == sh.jobs && sh'.life == sh.life
  }

  // ---------- from the sequential operations ----------

  lemma Outcomes(pc: PC)
    requires Over(pc)
    ensures match OutcomeAt(pc)
      case Done => pc == LeaveOff
      case SwitchTo(from, next) => pc == Load(Some(from), next)
      case Start(first) => pc == Load(None, first)
      case Died => pc == Dead
      case Crash => pc == Fault
  {
  }

  lemma FlagsSame(sh: Shared, sh': Shared)
    requires Flags(sh'.thr) == Flags(sh.thr)
    ensures SameFlags(sh, sh')
  {
    forall t | 0 <= t < |sh.thr| ensures sh'.thr[t].kill == sh.thr[t].kill {
      assert Flags(sh'.thr)[t] == Flags(sh.thr)[t];
    }
  }

  /** A resume whose ready list holds live threads only takes the first one. */
  lemma ResumeTakesFirst(c: nat, x: Ctx, sh: Shared, sh': Shared, pc: PC)
    requires Sane(c, ResumeActive, sh) && sh.life[c] == Owner(x) && AllAlive(sh) && Over(pc)
    requires (OutcomeAt(pc), sh'.jobs, sh'.life) == ResumeResult(sh.jobs, sh.life, Flags(sh.thr), c)
    ensures Yields(c, x, sh, sh', pc)
  {
    Outcomes(pc);
    if x.Thr? {
      var q := Requeued(sh.jobs, x.t, Flags(sh.thr));
      if q != [] {
        assert !Flags(sh.thr)[q[0]] by { if q[0] in sh.jobs { assert !Killed(sh, q[0]); } }
        assert FirstLive(q, Flags(sh.thr)) == 0;
      }
    }
  }

  lemma ExecutedEnds(r: Run, i: nat, j: nat, c: nat, b: Body)
    requires Executed(r, i, j, c, b)
    ensures var s, sh', pc := r.states[i], r.states[j].sh, Sec(r.states[j], c);
      && Sane(c, ResumeActive, s.sh) && s.sh.life[c] == Owner(s.cpu[c].esp) && AllAlive(s.sh) && Over(pc)
      && End(OutcomeAt(pc), sh'.jobs, sh'.life, Flags(sh'.thr)) == Alone(b, c, s.sh)
  {
    OperationIsAtomic(r, i, j, c, b);
    Entry(r, i, c, b);
  }

  // ---------- the operations ----------

  /** A resume, called or as the epilogue of the timer interrupt. */
  lemma ResumeYields(r: Run, i: nat, j: nat, c: nat, b: Body)
    requires Executed(r, i, j, c, b) && (b == Call(Resume) || b == Epilogue(WATCH))
    ensures Yields(c, r.states[i].cpu[c].esp, r.states[i].sh, r.states[j].sh, Sec(r.states[j], c))
    ensures SameFlags(r.states[i].sh, r.states[j].sh)
  {
    ExecutedEnds(r, i, j, c, b);
    ResumeTakesFirst(c, r.states[i].cpu[c].esp, r.states[i].sh, r.states[j].sh, Sec(r.states[j], c));
    FlagsSame(r.states[i].sh, r.states[j].sh);
  }

  /** The assassin's epilogue. */
  lemma AssassinYields(r: Run, i: nat, j: nat, c: nat)
    requires Executed(r, i, j, c, Epilogue(ASSASSIN))
    ensures var x, sh, sh', pc := r.states[i].cpu[c].esp, r.states[i].sh, r.states[j].sh, Sec(r.states[j], c);
      && SameFlags(sh, sh')
      && (x.Boot? ==> pc.Fault?)
      && (x.Thr? ==> x.t < |sh.thr| && if sh.thr[x.t].kill then Yields(c, x, sh, sh', pc) else Unchanged(sh, sh', pc))
  {
    ExecutedEnds(r, i, j, c, Epilogue(ASSASSIN));
    var x, sh, sh', pc := r.states[i].cpu[c].esp, r.states[i].sh, r.states[j].sh, Sec(r.states[j], c);
    Outcomes(pc);
    FlagsSame(sh, sh');
    if x.Thr? && sh.thr[x.t].kill { ResumeTakesFirst(c, x, sh, sh', pc); }
  }

  lemma ReadyAppends(r: Run, i: nat, j: nat, c: nat, t: nat)
    requires Executed(r, i, j, c, Call(Ready(t)))
    ensures var sh, sh' := r.states[i].sh, r.states[j].sh;
      Sec(r.states[j], c) == LeaveOff && sh'.jobs == sh.jobs + [t] && sh'.life == sh.life && SameFlags(sh, sh')
  {
    ExecutedEnds(r, i, j, c, Call(Ready(t)));
    Outcomes(Sec(r.states[j], c));
    FlagsSame(r.states[i].sh, r.states[j].sh);
  }

  /** A kill marks the thread and takes it out of the ready list, wherever it is in it. */
  lemma KillRemoves(r: Run, i: nat, j: nat, c: nat, t: nat)
    requires Executed(r, i, j, c, Call(Op.Kill(t))) && t < |r.states[i].sh.thr|
    ensures var sh, sh' := r.states[i].sh, r.states[j].sh;
      && Sec(r.states[j], c) == LeaveOff && sh'.life == sh.life && |sh'.thr| == |sh.thr|
      && (forall u :: 0 <= u < |sh.thr| ==> sh'.thr[u].kill == (sh.thr[u].kill || u == t))
      && (t !in sh.jobs ==> sh'.jobs == sh.jobs)
      && (t in sh.jobs ==>
            exists k :: 0 <= k < |sh.jobs| && sh.jobs[k] == t && sh'.jobs == sh.jobs[..k] + sh.jobs[k + 1..])
  {
    ExecutedEnds(r, i, j, c, Call(Op.Kill(t)));
    Outcomes(Sec(r.states[j], c));
    var sh, sh' := r.states[i].sh, r.states[j].sh;
    RemoveFirstBelow(sh.jobs, t, |sh.thr|);
    if t in sh.jobs { var k := RemovedFrom(sh.jobs, t); }
    forall u | 0 <= u < |sh.thr| ensures sh'.thr[u].kill == (sh.thr[u].kill || u == t) {
      assert Flags(sh'.thr)[u] == Flags(sh.thr)[t := true][u];
    }
  }

  lemma {:induction false} RemovedFrom(q: seq<nat>, t: nat) returns (k: nat)
    requires t in q
    ensures k < |q| && q[k] == t && RemoveFirst(q, t) == q[..k] + q[k + 1..]
    decreases |q|
  {
    if q[0] == t { return 0; }
    var i := RemovedFrom(q[1..], t);
    k := i + 1;
    assert q[..k] == [q[0]] + q[1..][..i] && q[k + 1..] == q[1..][i + 1..];
    assert [q[0]] + (q[1..][..i] + q[1..][i + 1..]) == q[..k] + q[k + 1..];
  }

  /** An exit leaves its thread behind, in no list. */
  lemma ExitSwitches(r: Run, i: nat, j: nat, c: nat)
    requires Executed(r, i, j, c, Call(Exit))
    ensures var x, sh, sh', pc := r.states[i].cpu[c].esp, r.states[i].sh, r.states[j].sh, Sec(r.states[j], c);
      && SameFlags(sh, sh')
      && (if x.Boot? || sh.jobs == [] then pc.Fault?
          else Switches(c, sh, sh', pc, Some(x.t), sh.jobs[0]) && sh'.jobs == sh.jobs[1..])
  {
    ExecutedEnds(r, i, j, c, Call(Exit));
    Outcomes(Sec(r.states[j], c));
    FlagsSame(r.states[i].sh, r.states[j].sh);
  }

  /** Boot code starts the first ready thread. */
  lemma ScheduleStarts(r: Run, i: nat, j: nat, c: nat)
    requires Executed(r, i, j, c, Call(Op.Schedule))
    ensures var sh, sh', pc := r.states[i].sh, r.states[j].sh, Sec(r.states[j], c);
      && SameFlags(sh, sh')
      && (if sh.jobs == [] then pc.Dead? && sh'.life == sh.life
          else Switches(c, sh, sh', pc, None, sh.jobs[0]) && sh'.jobs == sh.jobs[1..])
  {
    ExecutedEnds(r, i, j, c, Call(Op.Schedule));
    Outcomes(Sec(r.states[j], c));
    FlagsSame(r.states[i].sh, r.states[j].sh);
  }

  /** A section of other code, or the epilogue of another device, leaves the threads alone. */
  lemma OthersLeaveAlone(r: Run, i: nat, j: nat, c: nat, b: Body)
    requires Executed(r, i, j, c, b) && (b == Call(Section) || (b.Epilogue? && b.g != ASSASSIN && b.g != WATCH))
    ensures Unchanged(r.states[i].sh, r.states[j].sh, Sec(r.states[j], c)) && SameFlags(r.states[i].sh, r.states[j].sh)
  {
    ExecutedEnds(r, i, j, c, b);
    Outcomes(Sec(r.states[j], c));
    FlagsSame(r.states[i].sh, r.states[j].sh);
  }
}
