/** The ticket lock under 32-bit wrap-around: outstanding tickets are the consecutive numbers
    from `turn` on, one per waiting CPU, and the first of them belongs to the holder. */
module KernelTickets {
  import opened Arithmetic
  import opened KernelState
  import opened KernelInvariant

  function UpTo(n: nat): set<nat> {
    set i {:trigger i in UpTo(n)} | 0 <= i < n
  }

  lemma {:induction false} UpToSize(n: nat)
    ensures |UpTo(n)| == n
  {
    if n > 0 {
      UpToSize(n - 1);
      assert UpTo(n) == UpTo(n - 1) + {n - 1};
    }
  }

  /** Distinct CPU numbers below n: there are at most n of them. */
  lemma {:induction false} Pigeonhole(q: seq<nat>, n: nat)
    requires NoDup(q) && forall i: nat :: i < |q| ==> q[i] < n
    ensures |q| <= n
  {
    var elems := set i: nat | i < |q| :: q[i];
    DistinctSize(q);
    UpToSize(n);
    Subset(elems, UpTo(n));
  }

  lemma {:induction false} DistinctSize(q: seq<nat>)
    requires NoDup(q)
    ensures |set i: nat | i < |q| :: q[i]| == |q|
  {
    var all := set i: nat | i < |q| :: q[i];
    if q == [] {
      assert all == {};
    } else {
      var p := q[..|q| - 1];
      DistinctSize(p);
      var rest := set i: nat | i < |p| :: p[i];
      assert all == rest + {q[|q| - 1]} by {
        forall x | x in all ensures x in rest + {q[|q| - 1]} {
          var i: nat :| i < |q| && q[i] == x;
          if i < |p| { assert p[i] == x; }
        }
        forall x | x in rest ensures x in all {
          var i: nat :| i < |p| && p[i] == x;
          assert q[i] == x;
        }
      }
      assert q[|q| - 1] !in rest;
    }
  }

  lemma {:induction false} Subset(a: set<nat>, b: set<nat>)
    requires a <= b
    ensures |a| <= |b|
  {
    assert b == a + (b - a);
  }

  lemma WrapSum(a: nat, b: nat)
    ensures (a % WRAP + b) % WRAP == (a + b) % WRAP
  {
  }

  lemma Draw(ticket: nat, turn: nat, waiting: seq<nat>, claims: seq<Claim>, c: nat)
    requires Lock(ticket, turn, waiting, claims) && c < |claims| && claims[c].Nothing?
    ensures Lock((ticket + 1) % WRAP, turn, waiting + [c], claims[c := Draws(ticket)])
  {
    var w, claims' := waiting + [c], claims[c := Draws(ticket)];
    WrapSum(turn + |waiting|, 1);
    forall j: nat | j < |w| ensures WaiterOk(turn, j, w[j], claims') {
      if j < |waiting| { assert WaiterOk(turn, j, waiting[j], claims) && waiting[j] != c; }
    }
    forall d: nat | d < |claims'| && !claims'[d].Nothing? ensures d in w {
      if d == c { assert w[|waiting|] == c; }
    }
  }

  lemma Turn(ticket: nat, turn: nat, waiting: seq<nat>, claims: seq<Claim>, c: nat)
    requires Lock(ticket, turn, waiting, claims) && c < |claims| && claims[c] == Draws(turn)
    ensures waiting != [] && waiting[0] == c
    ensures Lock(ticket, turn, waiting, claims[c := Owns])
  {
    Pigeonhole(waiting, |claims|);
    var j: nat :| j < |waiting| && waiting[j] == c;
    assert WaiterOk(turn, j, c, claims);
    assert (turn + j) % WRAP == turn && j < WRAP;
    assert j == 0;
    assert forall i: nat :: 0 < i < |waiting| ==> waiting[i] != c;
  }

  lemma Unlock(ticket: nat, turn: nat, waiting: seq<nat>, claims: seq<Claim>, c: nat)
    requires Lock(ticket, turn, waiting, claims) && c < |claims| && claims[c].Releases?
    ensures waiting != [] && claims[c].turn == turn
    ensures Lock(ticket, (turn + 1) % WRAP, waiting[1..], claims[c := Nothing])
  {
    var w, claims' := waiting[1..], claims[c := Nothing];
    var i: nat :| i < |waiting| && waiting[i] == c;
    assert WaiterOk(turn, i, c, claims);
    WrapSum(turn + 1, |w|);
    forall j: nat | j < |w| ensures WaiterOk((turn + 1) % WRAP, j, w[j], claims') {
      WrapSum(turn + 1, j);
      assert w[j] == waiting[j + 1] && waiting[j + 1] != waiting[0];
      assert WaiterOk(turn, j + 1, waiting[j + 1], claims);
    }
    forall d: nat | d < |claims'| && !claims'[d].Nothing? ensures d in w {
      var j: nat :| j < |waiting| && waiting[j] == d;
      assert w[j - 1] == d;
    }
  }

  /** A CPU that neither draws a ticket nor ends its turn. */
  lemma Stay(ticket: nat, turn: nat, waiting: seq<nat>, claims: seq<Claim>, c: nat, claim: Claim)
    requires Lock(ticket, turn, waiting, claims) && c < |claims|
    requires claim == claims[c] || (claims[c] == Owns && claim == Releases(turn))
    ensures Lock(ticket, turn, waiting, claims[c := claim])
  {
    var claims' := claims[c := claim];
    forall j: nat | j < |waiting| ensures WaiterOk(turn, j, waiting[j], claims') {
      assert WaiterOk(turn, j, waiting[j], claims);
    }
  }

  lemma ClaimsUpdate(secs: seq<PC>, c: nat, pc: PC)
    requires c < |secs|
    ensures Claims(secs[c := pc]) == Claims(secs)[c := ClaimOf(pc)]
  {
  }

  /** How a step moves the lock: the shared counters and the CPU's claim. */
  ghost predicate LockStep(c: nat, from: PC, to: PC, sh: Shared, sh': Shared) {
    if from == to then
      sh'.ticket == sh.ticket && sh'.turn == sh.turn && sh'.waiting == sh.waiting
    else if from.Take? then
      to == Spin(from.b, sh.ticket)
      && sh'.ticket == (sh.ticket + 1) % WRAP && sh'.turn == sh.turn && sh'.waiting == sh.waiting + [c]
    else if from.LeaveTurn? then
      ClaimOf(to).Nothing? && sh'.ticket == sh.ticket && sh'.turn == (from.turn + 1) % WRAP
      && sh'.waiting == if sh.waiting == [] then [] else sh.waiting[1..]
    else
      sh'.ticket == sh.ticket && sh'.turn == sh.turn && sh'.waiting == sh.waiting
      && if from.Spin? && to.Do? then from.ticket == sh.turn
         else if from.LeaveRead? then to == LeaveTurn(sh.turn)
         else ClaimOf(to) == ClaimOf(from)
  }

  lemma TicketsStep(sh: Shared, secs: seq<PC>, c: nat, to: PC, sh': Shared)
    requires Tickets(sh, secs) && c < |secs| && LockStep(c, secs[c], to, sh, sh')
    ensures Tickets(sh', secs[c := to])
  {
    var claims, from := Claims(secs), secs[c];
    ClaimsUpdate(secs, c, to);
    if from == to { assert claims[c := ClaimOf(to)] == claims; }
    else if from.Take? { Draw(sh.ticket, sh.turn, sh.waiting, claims, c); }
    else if from.LeaveTurn? { Unlock(sh.ticket, sh.turn, sh.waiting, claims, c); }
    else if from.Spin? && to.Do? { Turn(sh.ticket, sh.turn, sh.waiting, claims, c); }
    else { Stay(sh.ticket, sh.turn, sh.waiting, claims, c, ClaimOf(to)); }
  }

  /** Mutual exclusion in the projected state. */
  lemma OneHolder(sh: Shared, secs: seq<PC>, c: nat, d: nat)
    requires Tickets(sh, secs) && c < |secs| && d < |secs| && Holds(secs[c]) && Holds(secs[d])
    ensures c == d && sh.waiting != [] && sh.waiting[0] == c
  {
    var claims := Claims(secs);
    var i: nat :| i < |sh.waiting| && sh.waiting[i] == c;
    var j: nat :| j < |sh.waiting| && sh.waiting[j] == d;
    assert WaiterOk(sh.turn, i, c, claims) && WaiterOk(sh.turn, j, d, claims);
  }
}
