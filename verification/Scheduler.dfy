/** The scheduler's operations as one CPU executes them inside the epilogue level: the ready list,
    the life pointers, the kill flags. */
module Scheduler {
  import opened KernelState

  /** How a call of the scheduler ends: it returns, it leaves for another thread, the CPU stops, or
      a null thread is used. */
  datatype Outcome = Done | SwitchTo(from: nat, next: nat) | Start(first: nat) | Died | Crash

  predicate Below(q: seq<nat>, n: nat) {
    forall i :: 0 <= i < |q| ==> q[i] < n
  }

  /** Index of the first live thread; |q| if there is none. */
  function FirstLive(q: seq<nat>, dying: seq<bool>): (i: nat)
    requires Below(q, |dying|)
    ensures i <= |q| && (i < |q| ==> !dying[q[i]]) && forall j :: 0 <= j < i ==> dying[q[j]]
  {
    if q == [] || !dying[q[0]] then 0 else 1 + FirstLive(q[1..], dying)
  }

  /** The ready list with the current thread put back, unless it is dying. */
  function Requeued(jobs: seq<nat>, cur: nat, dying: seq<bool>): (q: seq<nat>)
    requires cur < |dying| && Below(jobs, |dying|)
    ensures Below(q, |dying|)
  {
    if dying[cur] then jobs else jobs + [cur]
  }

  class Scheduler {
    const life: array<Option<nat>>
    const killFlag: array<bool>
    var jobs: seq<nat>
    /** The interrupt-enable bit of the CPU that executes. */
    var ie: bool

    ghost predicate Valid()
      reads this, life
    {
      && Below(jobs, killFlag.Length)
      && (forall c :: 0 <= c < life.Length && life[c].Some? ==> life[c].value < killFlag.Length)
    }

    constructor (cpus: nat, threads: nat)
      ensures Valid() && life.Length == cpus && killFlag.Length == threads && jobs == []
      ensures forall c :: 0 <= c < cpus ==> life[c] == None
      ensures forall t :: 0 <= t < threads ==> !killFlag[t]
    {
      life := new Option<nat>[cpus](_ => None);
      killFlag := new bool[threads](_ => false);
      jobs, ie := [], true;
    }

    method Dequeue() returns (t: Option<nat>)
      modifies `jobs
      ensures if old(jobs) == [] then t == None && jobs == [] else t == Some(old(jobs)[0]) && jobs == old(jobs)[1..]
    {
      if jobs == [] { return None; }
      t := Some(jobs[0]);
      jobs := jobs[1..];
    }

    /** Returns with interrupts disabled: the call that would enable them again is never reached. */
    method Active(cpu: nat) returns (t: Option<nat>)
      requires cpu < life.Length
      modifies `ie
      ensures t == life[cpu] && !ie
    {
      ie := false;
      t := life[cpu];
    }

    method SetActive(cpu: nat, t: Option<nat>)
      requires cpu < life.Length
      modifies `ie, life
      ensures life[..] == old(life[..])[cpu := t] && ie
    {
      ie := false;
      life[cpu] := t;
      ie := true;
    }

    method Dispatch(cpu: nat, next: Option<nat>) returns (o: Outcome)
      requires Valid() && cpu < life.Length && (next.Some? ==> next.value < killFlag.Length)
      modifies `ie, life
      ensures Valid() && (o, life[..]) == DispatchResult(old(life[..]), cpu, next) && ie
    {
      var prev := Active(cpu);
      SetActive(cpu, next);
      if prev.None? || next.None? { return Crash; }
      o := SwitchTo(prev.value, next.value);
    }

    method Ready(that: nat)
      requires Valid() && that < killFlag.Length
      modifies `jobs
      ensures Valid() && jobs == old(jobs) + [that]
    {
      jobs := jobs + [that];
    }

    method Exit(cpu: nat) returns (o: Outcome)
      requires Valid() && cpu < life.Length
      modifies `jobs, `ie, life
      ensures Valid()
      ensures (o, jobs, life[..]) == ExitResult(old(jobs), old(life[..]), cpu)
      ensures o == Crash <==> old(jobs) == [] || old(life[cpu]) == None
    {
      var next := Dequeue();
      o := Dispatch(cpu, next);
    }

    /** The destination mask of the interrupt sent, if one is. */
    method Kill(that: nat) returns (ipi: Option<nat>)
      requires Valid() && that < killFlag.Length
      modifies `jobs, killFlag
      ensures Valid() && (jobs, killFlag[..], ipi) == KillResult(old(jobs), life[..], old(killFlag[..]), that)
    {
      killFlag[that] := true;
      RemoveFirstBelow(jobs, that, killFlag.Length);
      if that in jobs {
        jobs := RemoveFirst(jobs, that);
        return None;
      }
      var target := 0;
      while target < life.Length
        invariant 0 <= target <= life.Length
        invariant Target(life[..], that) == target + Target(life[target..], that)
      {
        if Some(that) == life[target] { break; }
        assert life[target..][1..] == life[target + 1..];
        target := target + 1;
      }
      ipi := Some(Mask(target));
    }

    method Resume(cpu: nat) returns (o: Outcome)
      requires Valid() && cpu < life.Length
      modifies `jobs, `ie, life
      ensures Valid() && ResumeResult(old(jobs), old(life[..]), killFlag[..], cpu) == (o, jobs, life[..])
      ensures ie <==> o.SwitchTo?
    {
      var curr := Active(cpu);
      if curr.None? { return Died; }
      if !killFlag[curr.value] {
        jobs := jobs + [curr.value];
      }
      var next := NextLive();
      if next.Some? {
        o := Dispatch(cpu, next);
      } else {
        o := Died;
      }
    }

    /** The dequeue loop: dying threads are dropped up to the first live one. */
    method NextLive() returns (next: Option<nat>)
      requires Below(jobs, killFlag.Length)
      modifies `jobs
      ensures var i := FirstLive(old(jobs), killFlag[..]);
        if i == |old(jobs)| then next == None && jobs == []
        else next == Some(old(jobs)[i]) && jobs == old(jobs)[i + 1..]
    {
      ghost var q, i := jobs, 0;
      next := Dequeue();
      while next.Some? && killFlag[next.value]
        invariant 0 <= i <= |q|
        invariant if i < |q| then next == Some(q[i]) && jobs == q[i + 1..] else next == None && jobs == []
        invariant FirstLive(q, killFlag[..]) == i + FirstLive(q[i..], killFlag[..])
        decreases |q| - i
      {
        assert q[i..][1..] == q[i + 1..];
        next := Dequeue();
        i := i + 1;
      }
    }

    method Schedule(cpu: nat) returns (o: Outcome)
      requires Valid() && cpu < life.Length
      modifies `jobs, `ie, life
      ensures Valid() && (o, jobs, life[..]) == ScheduleResult(old(jobs), old(life[..]), cpu)
    {
      var first := Dequeue();
      if first.None? { return Died; }
      SetActive(cpu, first);
      o := Start(first.value);
    }

    /** The assassin's epilogue: a dying thread is made to give up its CPU. */
    method AssassinEpilogue(cpu: nat) returns (o: Outcome)
      requires Valid() && cpu < life.Length
      modifies `jobs, `ie, life
      ensures Valid() && (o, jobs, life[..]) == AssassinResult(old(jobs), old(life[..]), killFlag[..], cpu)
    {
      var current := Active(cpu);
      if current.None? { return Crash; }
      o := Done;
      if killFlag[current.value] {
        o := Resume(cpu);
      }
    }
  }

  lemma {:induction false} RemoveFirstBelow(q: seq<nat>, t: nat, n: nat)
    requires Below(q, n)
    ensures Below(RemoveFirst(q, t), n) && (t !in q ==> RemoveFirst(q, t) == q)
    decreases |q|
  {
    if q != [] && q[0] != t { RemoveFirstBelow(q[1..], t, n); }
  }

  // ---------- what the operations leave behind: outcome, ready list, life pointers ----------

  function DispatchResult(life: seq<Option<nat>>, cpu: nat, next: Option<nat>): (Outcome, seq<Option<nat>>)
    requires cpu < |life|
  {
    (if life[cpu].Some? && next.Some? then SwitchTo(life[cpu].value, next.value) else Crash, life[cpu := next])
  }

  function ExitResult(jobs: seq<nat>, life: seq<Option<nat>>, cpu: nat): (Outcome, seq<nat>, seq<Option<nat>>)
    requires cpu < |life|
  {
    var next := if jobs == [] then None else Some(jobs[0]);
    var (o, life') := DispatchResult(life, cpu, next);
    (o, if jobs == [] then [] else jobs[1..], life')
  }

  /** Ready list, kill flags, and the destination mask of the interrupt sent, if one is. */
  function KillResult(jobs: seq<nat>, life: seq<Option<nat>>, dying: seq<bool>, that: nat)
    : (seq<nat>, seq<bool>, Option<nat>)
    requires that < |dying|
  {
    (RemoveFirst(jobs, that), dying[that := true], if that in jobs then None else Some(Mask(Target(life, that))))
  }

  function ResumeResult(jobs: seq<nat>, life: seq<Option<nat>>, dying: seq<bool>, cpu: nat)
    : (Outcome, seq<nat>, seq<Option<nat>>)
    requires cpu < |life| && (life[cpu].Some? ==> life[cpu].value < |dying|) && Below(jobs, |dying|)
  {
    if life[cpu] == None then (Died, jobs, life)
    else
      var cur := life[cpu].value;
      var q := Requeued(jobs, cur, dying);
      var i := FirstLive(q, dying);
      if i == |q| then (Died, [], life) else (SwitchTo(cur, q[i]), q[i + 1..], life[cpu := Some(q[i])])
  }

  function ScheduleResult(jobs: seq<nat>, life: seq<Option<nat>>, cpu: nat): (Outcome, seq<nat>, seq<Option<nat>>)
    requires cpu < |life|
  {
    if jobs == [] then (Died, [], life) else (Start(jobs[0]), jobs[1..], life[cpu := Some(jobs[0])])
  }

  function AssassinResult(jobs: seq<nat>, life: seq<Option<nat>>, dying: seq<bool>, cpu: nat)
    : (Outcome, seq<nat>, seq<Option<nat>>)
    requires cpu < |life| && (life[cpu].Some? ==> life[cpu].value < |dying|) && Below(jobs, |dying|)
  {
    if life[cpu] == None then (Crash, jobs, life)
    else if dying[life[cpu].value] then ResumeResult(jobs, life, dying, cpu)
    else (Done, jobs, life)
  }

  // ---------- what resume does to the threads ----------

  function Running(life: seq<Option<nat>>): multiset<nat> {
    if life == [] then multiset{} else One(life[0]) + Running(life[1..])
  }

  function One(t: Option<nat>): multiset<nat> {
    if t.Some? then multiset{t.value} else multiset{}
  }

  lemma {:induction false} RunningUpdate(life: seq<Option<nat>>, c: nat, prev: nat, next: nat)
    requires c < |life| && life[c] == Some(prev)
    ensures Running(life[c := Some(next)]) + multiset{prev} == Running(life) + multiset{next}
    decreases |life|
  {
    var life' := life[c := Some(next)];
    if c == 0 {
      assert life'[1..] == life[1..];
    } else {
      assert life'[1..] == life[1..][c - 1 := Some(next)];
      RunningUpdate(life[1..], c - 1, prev, next);
      assert life'[0] == life[0];
      var u, r, r' := One(life[0]), Running(life[1..]), Running(life'[1..]);
      assert Running(life') == u + r' && Running(life) == u + r;
      assert u + r' + multiset{prev} == u + (r' + multiset{prev});
      assert u + r + multiset{next} == u + (r + multiset{next});
    }
  }

  /** Ready and running threads are conserved by a resume, except for dying ones that are dropped:
      the current one, and those in front of the first live one. */
  lemma ResumeConserves(jobs: seq<nat>, life: seq<Option<nat>>, dying: seq<bool>, cpu: nat)
    requires cpu < |life| && life[cpu].Some? && life[cpu].value < |dying| && Below(jobs, |dying|)
    requires ResumeResult(jobs, life, dying, cpu).0.SwitchTo?
    ensures var (o, jobs', life') := ResumeResult(jobs, life, dying, cpu);
      var cur, q := life[cpu].value, Requeued(jobs, life[cpu].value, dying);
      var dropped := q[..FirstLive(q, dying)] + if dying[cur] then [cur] else [];
      && (forall t :: t in dropped ==> dying[t])
      && multiset(jobs') + Running(life') + multiset(dropped) == multiset(jobs) + Running(life)
  {
    var cur := life[cpu].value;
    var q := Requeued(jobs, cur, dying);
    var i := FirstLive(q, dying);
    RunningUpdate(life, cpu, cur, q[i]);
    Split(q, i);
    var kept, gone := if dying[cur] then [] else [cur], if dying[cur] then [cur] else [];
    assert q == jobs + kept && multiset(q) == multiset(jobs) + multiset(kept);
    DroppedDying(q, dying, gone);
    assert multiset(q[..i] + gone) == multiset(q[..i]) + multiset(gone);
    Balance(multiset(jobs), multiset(kept), multiset(gone), multiset(q[..i]), multiset(q[i + 1..]), multiset{q[i]},
            multiset{cur}, Running(life), Running(life[cpu := Some(q[i])]));
  }

  lemma DroppedDying(q: seq<nat>, dying: seq<bool>, gone: seq<nat>)
    requires Below(q, |dying|) && Below(gone, |dying|) && forall j :: 0 <= j < |gone| ==> dying[gone[j]]
    ensures var dropped := q[..FirstLive(q, dying)] + gone;
      forall t :: t in dropped ==> t < |dying| && dying[t]
  {
  }

  lemma Split(q: seq<nat>, i: nat)
    requires i < |q|
    ensures multiset(q) == multiset(q[..i]) + multiset{q[i]} + multiset(q[i + 1..])
  {
    assert q == q[..i] + [q[i]] + q[i + 1..];
  }

  lemma Balance(jobs: multiset<nat>, kept: multiset<nat>, gone: multiset<nat>, front: multiset<nat>,
                rest: multiset<nat>, next: multiset<nat>, cur: multiset<nat>,
                running: multiset<nat>, running': multiset<nat>)
    requires front + next + rest == jobs + kept && kept + gone == cur && running' + cur == running + next
    ensures rest + running' + (front + gone) == jobs + running
  {
    forall x: nat ensures (rest + running' + (front + gone))[x] == (jobs + running)[x] {
      assert (front + next + rest)[x] == (jobs + kept)[x] && (kept + gone)[x] == cur[x];
      assert (running' + cur)[x] == (running + next)[x];
    }
  }

  /** From a live current thread there is always a live successor; without one the CPU stops exactly
      when every ready thread is dying too. */
  lemma ResumeOutcome(jobs: seq<nat>, life: seq<Option<nat>>, dying: seq<bool>, cpu: nat)
    requires cpu < |life| && life[cpu].Some? && life[cpu].value < |dying| && Below(jobs, |dying|)
    ensures var (o, jobs', life') := ResumeResult(jobs, life, dying, cpu);
      && (o.Died? <==> dying[life[cpu].value] && forall t :: t in jobs ==> dying[t])
      && (!o.Died? ==> o.SwitchTo? && o.from == life[cpu].value && !dying[o.next] && life'[cpu] == Some(o.next)
                       && (forall t :: t in jobs' ==> t in jobs || t == o.from))
  {
    var cur := life[cpu].value;
    var q := Requeued(jobs, cur, dying);
    var i := FirstLive(q, dying);
    assert !dying[cur] ==> q[|q| - 1] == cur;
    forall t | t in jobs ensures t in q { }
    if i == |q| {
      forall t | t in q ensures dying[t] { }
    } else {
      assert q[i] in q;
    }
  }
}
