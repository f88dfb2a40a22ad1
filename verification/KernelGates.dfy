/** queue_flag tells the truth, and no gate is queued twice on the whole machine. */
module KernelGates {
  import opened KernelState
  import opened KernelInvariant

  const FREE := Grip(None, None, None, None)

  lemma Acquire(gate: seq<Gate>, grips: seq<Grip>, queues: seq<seq<nat>>, c: nat, g: nat)
    requires GateInv(gate, grips, queues) && c < |grips| && g < |gate|
    requires gate[g].lock.None? && grips[c].lock.None? && grips[c].status.None?
    requires grips[c].gate == Some(g)
    ensures GateInv(gate[g := gate[g].(lock := Some(c))], grips[c := grips[c].(lock := Some(g))], queues)
  {
    var gate', grips' := gate[g := gate[g].(lock := Some(c))], grips[c := grips[c].(lock := Some(g))];
    Same(grips, grips', queues, queues);
    forall d: nat | d < |grips'| ensures GripOk(gate', d, grips'[d], queues[d]) {
      assert GripOk(gate, d, grips[d], queues[d]);
    }
    forall x: nat | x < |gate'| ensures GateOk(gate'[x], x, grips', queues) {
      assert GateOk(gate[x], x, grips, queues);
    }
  }

  /** Steps that carry the same gates keep every gate carried. */
  lemma Same(grips: seq<Grip>, grips': seq<Grip>, queues: seq<seq<nat>>, queues': seq<seq<nat>>)
    requires |grips| == |grips'| == |queues| == |queues'|
    requires forall c: nat, g: nat :: c < |grips| ==>
               Carries(queues[c], grips[c], g) == Carries(queues'[c], grips'[c], g)
    ensures forall g: nat :: Carried(grips, queues, g) ==> Carried(grips', queues', g)
  {
    forall g: nat | Carried(grips, queues, g) ensures Carried(grips', queues', g) {
      var c: nat :| c < |grips| && Carries(queues[c], grips[c], g);
      assert Carries(queues'[c], grips'[c], g);
    }
  }

  lemma Release(gate: seq<Gate>, grips: seq<Grip>, queues: seq<seq<nat>>, c: nat, g: nat, a: Grip)
    requires GateInv(gate, grips, queues) && c < |grips| && g < |gate|
    requires grips[c].lock == Some(g) && a.lock.None? && a.status.None?
    requires a.window == grips[c].window && (a.gate == Some(g) || (a.gate.None? && a.window.None?))
    ensures GateInv(gate[g := gate[g].(lock := None)], grips[c := a], queues)
  {
    var gate', grips' := gate[g := gate[g].(lock := None)], grips[c := a];
    Same(grips, grips', queues, queues);
    forall d: nat | d < |grips'| ensures GripOk(gate', d, grips'[d], queues[d]) {
      assert GripOk(gate, d, grips[d], queues[d]) && GripOk(gate, c, grips[c], queues[c]);
    }
    forall x: nat | x < |gate'| ensures GateOk(gate'[x], x, grips', queues) {
      assert GateOk(gate[x], x, grips, queues);
    }
  }

  /** set_queued writes the flag: the gate is new, or it was marked before. */
  lemma Mark(gate: seq<Gate>, grips: seq<Grip>, queues: seq<seq<nat>>, c: nat, g: nat, st: bool)
    requires GateInv(gate, grips, queues) && c < |grips| && g < |gate|
    requires grips[c] == Grip(Some(g), None, Some(st), Some(g))
    ensures GateInv(gate[g := gate[g].(queued := true)],
                    grips[c := Grip(Some(g), if st then Some(g) else None, None, Some(g))], queues)
  {
    var gate' := gate[g := gate[g].(queued := true)];
    var grips' := grips[c := Grip(Some(g), if st then Some(g) else None, None, Some(g))];
    assert GripOk(gate, c, grips[c], queues[c]);
    if st {
      forall d: nat | d < |grips| ensures !Carries(queues[d], grips[d], g) {
        assert GripOk(gate, d, grips[d], queues[d]);
      }
      assert Carries(queues[c], grips'[c], g);
    }
    forall d: nat | d < |grips'| ensures GripOk(gate', d, grips'[d], queues[d]) {
      assert GripOk(gate, d, grips[d], queues[d]);
    }
    forall x: nat | x < |gate'| ensures GateOk(gate'[x], x, grips', queues) {
      assert GateOk(gate[x], x, grips, queues);
      if x != g || !st {
        if gate[x].queued {
          var d: nat :| d < |grips| && Carries(queues[d], grips[d], x);
          assert Carries(queues[d], grips'[d], x);
        }
      }
    }
  }

  /** The gate moves from the window into the queue, at its end. */
  lemma Enter(gate: seq<Gate>, grips: seq<Grip>, queues: seq<seq<nat>>, c: nat, g: nat)
    requires GateInv(gate, grips, queues) && c < |grips| && g < |gate|
    requires grips[c] == Grip(None, Some(g), None, Some(g))
    ensures GateInv(gate, grips[c := FREE], queues[c := queues[c] + [g]])
  {
    var grips', queues' := grips[c := FREE], queues[c := queues[c] + [g]];
    assert GripOk(gate, c, grips[c], queues[c]);
    Same(grips, grips', queues, queues');
    forall d: nat | d < |grips'| ensures GripOk(gate, d, grips'[d], queues'[d]) {
      assert GripOk(gate, d, grips[d], queues[d]);
    }
    forall x: nat | x < |gate| ensures GateOk(gate[x], x, grips', queues') {
      assert GateOk(gate[x], x, grips, queues);
    }
  }

  /** The first gate moves from the queue into the window. */
  lemma TakeFirst(gate: seq<Gate>, grips: seq<Grip>, queues: seq<seq<nat>>, c: nat)
    requires GateInv(gate, grips, queues) && c < |grips| && queues[c] != []
    requires grips[c] == FREE
    ensures var first := Some(queues[c][0]);
      GateInv(gate, grips[c := Grip(None, first, None, first)], queues[c := queues[c][1..]])
  {
    var g := queues[c][0];
    var grips', queues' := grips[c := Grip(None, Some(g), None, Some(g))], queues[c := queues[c][1..]];
    assert GripOk(gate, c, grips[c], queues[c]);
    assert queues[c] == [g] + queues[c][1..];
    Same(grips, grips', queues, queues');
    forall d: nat | d < |grips'| ensures GripOk(gate, d, grips'[d], queues'[d]) {
      assert GripOk(gate, d, grips[d], queues[d]);
    }
    forall x: nat | x < |gate| ensures GateOk(gate[x], x, grips', queues') {
      assert GateOk(gate[x], x, grips, queues);
    }
  }

  /** set_dequeued clears the flag of the gate that was just taken off. */
  lemma Clear(gate: seq<Gate>, grips: seq<Grip>, queues: seq<seq<nat>>, c: nat, g: nat)
    requires GateInv(gate, grips, queues) && c < |grips| && g < |gate|
    requires grips[c] == Grip(Some(g), Some(g), None, Some(g))
    ensures GateInv(gate[g := gate[g].(queued := false)], grips[c := Grip(Some(g), None, None, Some(g))], queues)
  {
    var gate', grips' := gate[g := gate[g].(queued := false)], grips[c := Grip(Some(g), None, None, Some(g))];
    assert GripOk(gate, c, grips[c], queues[c]);
    assert Carries(queues[c], grips[c], g);
    forall d: nat | d < |grips'| ensures GripOk(gate', d, grips'[d], queues[d]) {
      assert GripOk(gate, d, grips[d], queues[d]);
      assert d != c ==> !Carries(queues[d], grips[d], g);
      assert grips[d].lock == Some(g) ==> d == c;
    }
    forall x: nat | x < |gate'| ensures GateOk(gate'[x], x, grips', queues) {
      assert GateOk(gate[x], x, grips, queues);
      if gate'[x].queued {
        var d: nat :| d < |grips| && Carries(queues[d], grips[d], x);
        assert Carries(queues[d], grips'[d], x);
      }
    }
  }

  /** A CPU's counter moves among points that hold no gate. */
  lemma Idle(gate: seq<Gate>, grips: seq<Grip>, queues: seq<seq<nat>>, c: nat, a: Grip)
    requires GateInv(gate, grips, queues) && c < |grips|
    requires a.window.None? && a.lock.None? && a.status.None? && (a.gate.Some? ==> a.gate.value < |gate|)
    requires grips[c].window.None? && grips[c].lock.None? && grips[c].status.None?
    ensures GateInv(gate, grips[c := a], queues)
  {
    var grips' := grips[c := a];
    Same(grips, grips', queues, queues);
    forall d: nat | d < |grips'| ensures GripOk(gate, d, grips'[d], queues[d]) {
      assert GripOk(gate, d, grips[d], queues[d]);
    }
    forall x: nat | x < |gate| ensures GateOk(gate[x], x, grips', queues) {
      assert GateOk(gate[x], x, grips, queues);
    }
  }

  /** Having read the flag under the lock. */
  lemma Read(gate: seq<Gate>, grips: seq<Grip>, queues: seq<seq<nat>>, c: nat, g: nat)
    requires GateInv(gate, grips, queues) && c < |grips| && g < |gate|
    requires grips[c] == Grip(Some(g), None, None, Some(g))
    ensures GateInv(gate, grips[c := Grip(Some(g), None, Some(!gate[g].queued), Some(g))], queues)
  {
    var grips' := grips[c := Grip(Some(g), None, Some(!gate[g].queued), Some(g))];
    Same(grips, grips', queues, queues);
    forall d: nat | d < |grips'| ensures GripOk(gate, d, grips'[d], queues[d]) {
      assert GripOk(gate, d, grips[d], queues[d]);
    }
    forall x: nat | x < |gate| ensures GateOk(gate[x], x, grips', queues) {
      assert GateOk(gate[x], x, grips, queues);
    }
  }

  lemma GripsUpdate(tops: seq<PC>, c: nat, pc: PC)
    requires c < |tops|
    ensures Grips(tops[c := pc]) == Grips(tops)[c := GripOf(pc)]
  {
  }

  /** How a step moves the gates. */
  ghost predicate GateStep(c: nat, from: PC, to: PC, gate: seq<Gate>, gate': seq<Gate>, q: seq<nat>, q': seq<nat>) {
    if from.QLock? then
      from.g < |gate| && gate[from.g].lock.None? && gate' == gate[from.g := gate[from.g].(lock := Some(c))]
      && q' == q && to == QRead(from.g)
    else if from.QRead? then
      from.g < |gate| && gate' == gate && q' == q && to == QWrite(from.g, !gate[from.g].queued)
    else if from.QWrite? then
      && from.g < |gate| && gate' == gate[from.g := gate[from.g].(queued := true)]
      && q' == q && to == QUnlock(from.g, from.status)
    else if from.QUnlock? then
      from.g < |gate| && gate' == gate[from.g := gate[from.g].(lock := None)] && q' == q
      && to == if from.status then Enqueue(from.g) else Tail
    else if from.Enqueue? then gate' == gate && q' == q + [from.g] && to == Tail
    else if from.LeaveDequeue? && q != [] then gate' == gate && q' == q[1..] && to == DLock(q[0])
    else if from.DLock? then
      from.g < |gate| && gate[from.g].lock.None? && gate' == gate[from.g := gate[from.g].(lock := Some(c))]
      && q' == q && to == DClear(from.g)
    else if from.DClear? then
      from.g < |gate| && gate' == gate[from.g := gate[from.g].(queued := false)] && q' == q && to == DUnlock(from.g)
    else if from.DUnlock? then
      from.g < |gate| && gate' == gate[from.g := gate[from.g].(lock := None)] && q' == q && to == DOn(from.g)
    else
      gate' == gate && q' == q && GripOf(to).window.None? && GripOf(to).lock.None? && GripOf(to).status.None?
      && (GripOf(to).gate.Some? ==> GripOf(to).gate.value < |gate|)
  }

  lemma MarkStep(gate: seq<Gate>, tops: seq<PC>, queues: seq<seq<nat>>, c: nat, to: PC, gate': seq<Gate>, q': seq<nat>)
    requires Gates(gate, tops, queues) && c < |tops| && EnqueuePath(tops[c])
    requires GateStep(c, tops[c], to, gate, gate', queues[c], q')
    ensures Gates(gate', tops[c := to], queues[c := q'])
  {
    var grips := Grips(tops);
    GripsUpdate(tops, c, to);
    match tops[c] {
      case QLock(g) => assert queues[c := q'] == queues; Acquire(gate, grips, queues, c, g);
      case QRead(g) => assert queues[c := q'] == queues; Read(gate, grips, queues, c, g);
      case QWrite(g, st) => assert queues[c := q'] == queues; Mark(gate, grips, queues, c, g, st);
      case QUnlock(g, st) => assert queues[c := q'] == queues; Release(gate, grips, queues, c, g, GripOf(to));
      case Enqueue(g) =>
        assert GripOk(gate, c, grips[c], queues[c]);
        Enter(gate, grips, queues, c, g);
    }
  }

  lemma DequeueStep(gate: seq<Gate>, tops: seq<PC>, queues: seq<seq<nat>>, c: nat)
    requires Gates(gate, tops, queues) && c < |tops| && tops[c].LeaveDequeue? && queues[c] != []
    ensures Gates(gate, tops[c := DLock(queues[c][0])], queues[c := queues[c][1..]])
  {
    GripsUpdate(tops, c, DLock(queues[c][0]));
    TakeFirst(gate, Grips(tops), queues, c);
  }

  lemma UnmarkStep(gate: seq<Gate>, tops: seq<PC>, queues: seq<seq<nat>>, c: nat, to: PC, gate': seq<Gate>)
    requires Gates(gate, tops, queues) && c < |tops|
    requires tops[c].DLock? || tops[c].DClear? || tops[c].DUnlock?
    requires GateStep(c, tops[c], to, gate, gate', queues[c], queues[c])
    ensures Gates(gate', tops[c := to], queues)
  {
    GripsUpdate(tops, c, to);
    UnmarkGrip(gate, Grips(tops), queues, c, tops[c], to, gate');
  }

  lemma UnmarkGrip(gate: seq<Gate>, grips: seq<Grip>, queues: seq<seq<nat>>, c: nat, from: PC, to: PC, gate': seq<Gate>)
    requires GateInv(gate, grips, queues) && c < |grips| && grips[c] == GripOf(from)
    requires from.DLock? || from.DClear? || from.DUnlock?
    requires GateStep(c, from, to, gate, gate', queues[c], queues[c])
    ensures GateInv(gate', grips[c := GripOf(to)], queues)
  {
    DequeuedGrip(c, from, to, gate, gate', queues[c]);
    assert GripOk(gate, c, grips[c], queues[c]);
    if from.DLock? { Acquire(gate, grips, queues, c, from.g); }
    else if from.DClear? { Clear(gate, grips, queues, c, from.g); }
    else { Release(gate, grips, queues, c, from.g, GripOf(to)); }
  }

  lemma DequeuedGrip(c: nat, from: PC, to: PC, gate: seq<Gate>, gate': seq<Gate>, q: seq<nat>)
    requires from.DLock? || from.DClear? || from.DUnlock?
    requires GateStep(c, from, to, gate, gate', q, q)
    ensures var g := from.g;
      && g < |gate| && GripOf(from).gate == Some(g)
      && (from.DLock? ==> gate[g].lock.None? && gate' == gate[g := gate[g].(lock := Some(c))])
      && (from.DClear? ==> gate' == gate[g := gate[g].(queued := false)])
      && (from.DUnlock? ==> gate' == gate[g := gate[g].(lock := None)])
      && GripOf(from) == Grip(if from.DLock? then None else Some(g),
                              if from.DUnlock? then None else Some(g), None, Some(g))
      && GripOf(to) == if from.DUnlock? then FREE
                       else Grip(Some(g), if from.DLock? then Some(g) else None, None, Some(g))
  {
  }

  lemma GatesStep(gate: seq<Gate>, tops: seq<PC>, queues: seq<seq<nat>>, c: nat, to: PC, gate': seq<Gate>, q': seq<nat>)
    requires Gates(gate, tops, queues) && c < |tops|
    requires GateStep(c, tops[c], to, gate, gate', queues[c], q')
    ensures Gates(gate', tops[c := to], queues[c := q'])
  {
    var from := tops[c];
    if EnqueuePath(from) { MarkStep(gate, tops, queues, c, to, gate', q'); }
    else if from.LeaveDequeue? && queues[c] != [] { DequeueStep(gate, tops, queues, c); }
    else {
      assert queues[c := q'] == queues;
      if from.DLock? || from.DClear? || from.DUnlock? { UnmarkStep(gate, tops, queues, c, to, gate'); }
      else {
        GripsUpdate(tops, c, to);
        Idle(gate, Grips(tops), queues, c, GripOf(to));
      }
    }
  }
}
