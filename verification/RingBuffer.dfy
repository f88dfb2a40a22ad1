/** The bounded buffer: as a sequential queue, and as a concurrent one with one producer and one
    consumer whose individual reads and writes interleave arbitrarily. */
module RingBuffer {

  /** (i + 1) % CAP */
  function Inc(i: nat, cap: nat): (j: nat)
    requires i < cap
    ensures j < cap
  {
    (i + 1) % cap
  }

  lemma IncIs(i: nat, cap: nat)
    requires i < cap
    ensures Inc(i, cap) == if i + 1 == cap then 0 else i + 1
  {
    if i + 1 < cap { assert (i + 1) % cap == i + 1; }
  }

  /** The slot k places behind `from`. */
  function Slot(from: nat, k: nat, cap: nat): nat {
    if from + k < cap then from + k else from + k - cap
  }

  /** How many slots lie from `out` up to `inn`. */
  function Count(inn: nat, out: nat, cap: nat): nat
    requires inn < cap && out < cap
  {
    if out <= inn then inn - out else inn + cap - out
  }

  function Unread<T>(data: seq<T>, inn: nat, out: nat): (r: seq<T>)
    requires inn < |data| && out < |data|
    ensures |r| == Count(inn, out, |data|)
    ensures forall k :: 0 <= k < |r| ==> r[k] == data[Slot(out, k, |data|)]
  {
    seq(Count(inn, out, |data|), k requires 0 <= k < Count(inn, out, |data|) => data[Slot(out, k, |data|)])
  }

  /** Publishing a value written into the free slot at `inn` appends it. */
  lemma Appended<T>(data: seq<T>, inn: nat, out: nat)
    requires inn < |data| && out < |data| && Inc(inn, |data|) != out
    ensures Unread(data, Inc(inn, |data|), out) == Unread(data, inn, out) + [data[inn]]
  {
    IncIs(inn, |data|);
  }

  lemma Dropped<T>(data: seq<T>, inn: nat, out: nat)
    requires inn < |data| && out < |data| && inn != out
    ensures Unread(data, inn, Inc(out, |data|)) == Unread(data, inn, out)[1..]
    ensures Unread(data, inn, out)[0] == data[out]
  {
    IncIs(out, |data|);
  }

  /** The slot at `inn` is none of the unread ones. */
  lemma FreeSlot<T>(data: seq<T>, inn: nat, out: nat, val: T)
    requires inn < |data| && out < |data|
    ensures Unread(data[inn := val], inn, out) == Unread(data, inn, out)
  {
  }

  // ---------- one control flow ----------

  class BBuffer<T(0)> {
    const data: array<T>
    var inn: nat
    var out: nat

    ghost predicate Valid()
      reads this
    {
      inn < data.Length && out < data.Length
    }

    ghost function Contents(): seq<T>
      requires Valid()
      reads this, data
    {
      Unread(data[..], inn, out)
    }

    constructor (cap: nat)
      requires cap > 0
      ensures Valid() && Contents() == [] && data.Length == cap && fresh(data)
    {
      data := new T[cap];
      inn := 0;
      out := 0;
    }

    /** False exactly when CAP - 1 elements are held; then nothing changes. */
    method Produce(val: T) returns (ok: bool)
      requires Valid()
      modifies this`inn, data
      ensures Valid() && ok == (|old(Contents())| < data.Length - 1)
      ensures Contents() == if ok then old(Contents()) + [val] else old(Contents())
    {
      var nextin := (inn + 1) % data.Length;
      IncIs(inn, data.Length);
      if nextin != out {
        FreeSlot(data[..], inn, out, val);
        data[inn] := val;
        assert data[..] == old(data[..])[inn := val];
        Appended(data[..], inn, out);
        inn := nextin;
        return true;
      }
      return false;
    }

    /** `val` is the caller's variable, passed by reference in C++ and written only on success; `unset` is its
        value at the call. */
    method Consume(unset: T) returns (ok: bool, val: T)
      requires Valid()
      modifies this`out
      ensures Valid() && ok == (old(Contents()) != [])
      ensures ok ==> [val] + Contents() == old(Contents())
      ensures !ok ==> val == unset && Contents() == old(Contents())
    {
      val := unset;
      if inn != out {
        Dropped(data[..], inn, out);
        val := data[out];
        out := (out + 1) % data.Length;
        return true, val;
      }
      return false, val;
    }
  }

  // ---------- producer and consumer in parallel ----------

  datatype Producer<T> =
    | Resting
    | Sized(val: T, nextin: nat)                  // has read `in`
    | Free(val: T, nextin: nat)                   // has read `out`: there is room
    | Indexed(val: T, nextin: nat, i: nat)        // has read `in` for data[in]
    | Written(val: T, nextin: nat)                // has written the slot

  datatype Consumer<T> =
    | Waiting
    | Looked(inn: nat)                            // has read `in`
    | Nonempty                                    // has read `out`: they differ
    | Located(o: nat)                             // has read `out` for data[out]
    | Loaded(val: T)                              // has read the slot
    | Counted(val: T, o: nat)                     // has read `out` for the increment

  /** `produced` and `consumed` are history: values whose publication or removal is complete. */
  datatype Ring<T> = Ring(data: seq<T>, inn: nat, out: nat, p: Producer<T>, c: Consumer<T>,
                          produced: seq<T>, consumed: seq<T>)

  /** One read or write of the producer; `val` is the argument of a call that starts. */
  function ProducerStep<T>(r: Ring<T>, val: T): Ring<T>
    requires |r.data| > 0
  {
    match r.p
    case Resting => r.(p := Sized(val, (r.inn + 1) % |r.data|))
    case Sized(v, nextin) => r.(p := if nextin != r.out then Free(v, nextin) else Resting)
    case Free(v, nextin) => r.(p := Indexed(v, nextin, r.inn))
    case Indexed(v, nextin, i) => if i < |r.data| then r.(data := r.data[i := v], p := Written(v, nextin)) else r
    case Written(v, nextin) => r.(inn := nextin, p := Resting, produced := r.produced + [v])
  }

  function ConsumerStep<T>(r: Ring<T>): Ring<T>
    requires |r.data| > 0
  {
    match r.c
    case Waiting => r.(c := Looked(r.inn))
    case Looked(i) => r.(c := if i != r.out then Nonempty else Waiting)
    case Nonempty => r.(c := Located(r.out))
    case Located(o) => if o < |r.data| then r.(c := Loaded(r.data[o])) else r
    case Loaded(v) => r.(c := Counted(v, r.out))
    case Counted(v, o) => r.(out := (o + 1) % |r.data|, c := Waiting, consumed := r.consumed + [v])
  }

  ghost predicate Fifo<T>(r: Ring<T>) {
    && r.inn < |r.data| && r.out < |r.data|
    && r.produced == r.consumed + Unread(r.data, r.inn, r.out)
    && ProducerOk(r) && ConsumerOk(r)
  }

  /** Once the producer has seen room, there is room until it publishes. */
  ghost predicate ProducerOk<T>(r: Ring<T>)
    requires r.inn < |r.data| && r.out < |r.data|
  {
    match r.p
    case Resting => true
    case Sized(_, nextin) => nextin == Inc(r.inn, |r.data|)
    case Free(_, nextin) => nextin == Inc(r.inn, |r.data|) != r.out
    case Indexed(_, nextin, i) => nextin == Inc(r.inn, |r.data|) != r.out && i == r.inn
    case Written(v, nextin) => nextin == Inc(r.inn, |r.data|) != r.out && r.data[r.inn] == v
  }

  /** Once the consumer has seen an element, it stays the first unread one. */
  ghost predicate ConsumerOk<T>(r: Ring<T>)
    requires r.inn < |r.data| && r.out < |r.data|
  {
    match r.c
    case Waiting => true
    case Looked(i) => i != r.out ==> r.inn != r.out
    case Nonempty => r.inn != r.out
    case Located(o) => r.inn != r.out && o == r.out
    case Loaded(v) => r.inn != r.out && v == r.data[r.out]
    case Counted(v, o) => r.inn != r.out && v == r.data[r.out] && o == r.out
  }

  lemma ProducerKeeps<T>(r: Ring<T>, val: T)
    requires Fifo(r)
    ensures Fifo(ProducerStep(r, val))
  {
    IncIs(r.inn, |r.data|);
    match r.p
    case Indexed(v, _, i) => FreeSlot(r.data, r.inn, r.out, v);
    case Written(_, _) => Appended(r.data, r.inn, r.out);
    case _ =>
  }

  lemma ConsumerKeeps<T>(r: Ring<T>)
    requires Fifo(r)
    ensures Fifo(ConsumerStep(r))
  {
    if r.c.Counted? { RemovalKeeps(r); }
  }

  lemma IncInjective(i: nat, j: nat, cap: nat)
    requires i < cap && j < cap && i != j
    ensures Inc(i, cap) != Inc(j, cap) && Inc(j, cap) < cap
  {
    IncIs(i, cap);
    IncIs(j, cap);
  }

  lemma RemovalKeeps<T>(r: Ring<T>)
    requires Fifo(r) && r.c.Counted?
    ensures Fifo(ConsumerStep(r))
  {
    IncInjective(r.inn, r.out, |r.data|);
    RemovalContents(r.data, r.inn, r.out, r.produced, r.consumed);
    RemovalProducer(r, Inc(r.out, |r.data|));
    assert ConsumerStep(r) ==
      r.(out := Inc(r.out, |r.data|), c := Waiting, consumed := r.consumed + [r.data[r.out]]);
  }

  lemma RemovalContents<T>(data: seq<T>, inn: nat, out: nat, produced: seq<T>, consumed: seq<T>)
    requires inn < |data| && out < |data| && inn != out && produced == consumed + Unread(data, inn, out)
    ensures produced == (consumed + [data[out]]) + Unread(data, inn, Inc(out, |data|))
  {
    Dropped(data, inn, out);
    var u := Unread(data, inn, out);
    assert u == [data[out]] + u[1..];
  }

  /** The consumer makes room; the slot after `in` stays different from `out`. */
  lemma RemovalProducer<T>(r: Ring<T>, out: nat)
    requires r.inn < |r.data| && r.out < |r.data| && ProducerOk(r) && out < |r.data| && Inc(r.inn, |r.data|) != out
    ensures forall c: Consumer<T>, consumed: seq<T> :: ProducerOk(r.(out := out, c := c, consumed := consumed))
  {
  }

  datatype Turn<T> = Produces(val: T) | Consumes

  /** Any interleaving, from the empty buffer. */
  function Interleave<T>(data: seq<T>, turns: seq<Turn<T>>): (r: Ring<T>)
    requires |data| > 0
    ensures |r.data| == |data|
  {
    if turns == [] then Ring(data, 0, 0, Resting, Waiting, [], [])
    else
      var r := Interleave(data, turns[..|turns| - 1]);
      match turns[|turns| - 1]
      case Produces(v) => ProducerStep(r, v)
      case Consumes => ConsumerStep(r)
  }

  lemma {:induction false} FifoAlways<T>(data: seq<T>, turns: seq<Turn<T>>)
    requires |data| > 0
    ensures Fifo(Interleave(data, turns))
  {
    if turns != [] {
      FifoAlways(data, turns[..|turns| - 1]);
      var r := Interleave(data, turns[..|turns| - 1]);
      match turns[|turns| - 1]
      case Produces(v) => ProducerKeeps(r, v);
      case Consumes => ConsumerKeeps(r);
    }
  }

  /** First in, first out under every interleaving; and at most CAP - 1 elements are held. */
  lemma ConcurrentFifo<T>(data: seq<T>, turns: seq<Turn<T>>)
    requires |data| > 0
    ensures var r := Interleave(data, turns);
      && r.inn < |r.data| && r.out < |r.data|
      && r.consumed + Unread(r.data, r.inn, r.out) == r.produced
      && |r.produced| - |r.consumed| <= |data| - 1
  {
    FifoAlways(data, turns);
  }

  /** A producer's step changes no unread element; it can only append one. */
  lemma UnreadNotOverwritten<T>(data: seq<T>, turns: seq<Turn<T>>, val: T)
    requires |data| > 0
    ensures var r := Interleave(data, turns);
      var r' := ProducerStep(r, val);
      && r.inn < |r.data| && r.out < |r.data| && r'.inn < |r'.data| && r'.out == r.out
      && Unread(r.data, r.inn, r.out) <= Unread(r'.data, r'.inn, r'.out)
      && r'.consumed == r.consumed
  {
    FifoAlways(data, turns);
    var r := Interleave(data, turns);
    ProducerKeeps(r, val);
    if r.p.Indexed? { FreeSlot(r.data, r.inn, r.out, r.p.val); }
    if r.p.Written? { Appended(r.data, r.inn, r.out); }
  }

  /** A produce call that goes on publishes the value it was called with. */
  lemma ProducerAdvances<T>(data: seq<T>, turns: seq<Turn<T>>, val: T)
    requires |data| > 0
    ensures var r := Interleave(data, turns);
      var r' := ProducerStep(r, val);
      && (r.p.Resting? ==> r'.p.Sized? && r'.p.val == val && r'.produced == r.produced)
      && (r.p.Sized? && !r'.p.Resting? ==> r'.p.Free? && r'.p.val == r.p.val && r'.produced == r.produced)
      && (r.p.Free? ==> r'.p.Indexed? && r'.p.val == r.p.val && r'.produced == r.produced)
      && (r.p.Indexed? ==> r'.p.Written? && r'.p.val == r.p.val && r'.produced == r.produced)
      && (r.p.Written? ==> r'.p.Resting? && r'.produced == r.produced + [r.p.val])
  {
    FifoAlways(data, turns);
  }

  /** A consume call that goes on takes the first unread element. */
  lemma ConsumerAdvances<T>(data: seq<T>, turns: seq<Turn<T>>)
    requires |data| > 0
    ensures var r := Interleave(data, turns);
      var r' := ConsumerStep(r);
      && r.inn < |r.data| && r.out < |r.data|
      && (r.c.Nonempty? ==> r'.c.Located? && r'.consumed == r.consumed)
      && (r.c.Located? ==> r'.c.Loaded? && r'.consumed == r.consumed)
      && (r.c.Loaded? ==> r'.c.Counted? && r'.consumed == r.consumed)
      && (r.c.Counted? ==>
            r'.c.Waiting? && Unread(r.data, r.inn, r.out) != []
            && r'.consumed == r.consumed + [Unread(r.data, r.inn, r.out)[0]])
  {
    FifoAlways(data, turns);
    var r := Interleave(data, turns);
    if r.c.Counted? { Dropped(r.data, r.inn, r.out); }
  }

  lemma {:induction false} ProducersOnly<T>(data: seq<T>, turns: seq<Turn<T>>, more: seq<Turn<T>>)
    requires |data| > 0 && forall i :: 0 <= i < |more| ==> more[i].Produces?
    ensures Interleave(data, turns + more).c == Interleave(data, turns).c
    ensures Interleave(data, turns + more).out == Interleave(data, turns).out
    decreases |more|
  {
    if more == [] { assert turns + more == turns; }
    else {
      var front := more[..|more| - 1];
      assert (turns + more)[..|turns + more| - 1] == turns + front;
      ProducersOnly(data, turns, front);
    }
  }

  /** A consume call, with the producer running meanwhile, gives up exactly if nothing was unread when it read
      `in`; otherwise it goes on. */
  lemma ConsumeOutcome<T>(data: seq<T>, turns: seq<Turn<T>>, more: seq<Turn<T>>)
    requires |data| > 0 && Interleave(data, turns).c.Waiting? && forall i :: 0 <= i < |more| ==> more[i].Produces?
    ensures var r, u := Interleave(data, turns), ConsumerStep(Interleave(data, turns + [Consumes] + more));
      && r.inn < |r.data| && r.out < |r.data|
      && (u.c.Waiting? <==> Unread(r.data, r.inn, r.out) == []) && (u.c.Nonempty? <==> !u.c.Waiting?)
  {
    FifoAlways(data, turns);
    var here := turns + [Consumes];
    assert here[..|here| - 1] == turns;
    assert Interleave(data, here) == ConsumerStep(Interleave(data, turns));
    ProducersOnly(data, here, more);
  }

  /** The outcome of a produce call is right although the consumer keeps running: refusal was
      justified when `out` was read, and an accepted value finds its slot free. */
  lemma ProduceOutcome<T>(data: seq<T>, turns: seq<Turn<T>>, val: T)
    requires |data| > 0 && Interleave(data, turns).p.Sized?
    ensures var r := Interleave(data, turns);
      r.inn < |r.data| && r.out < |r.data|
      && (ProducerStep(r, val).p.Resting? <==> |Unread(r.data, r.inn, r.out)| == |data| - 1)
  {
    FifoAlways(data, turns);
    IncIs(Interleave(data, turns).inn, |data|);
  }
}
