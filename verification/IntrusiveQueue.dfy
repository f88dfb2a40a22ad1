/** The intrusive singly linked queue.  `tail` does not point at a node but at a next field: that
    of the last node, or the head field of the empty queue.  Appending writes through it without
    a case distinction; removing the last node has to move it. */
module IntrusiveQueue {

  class Node {
    var next: Node?

    constructor ()
      ensures next == null
    {
      next := null;
    }
  }

  /** A pointer to a `Node?` location: the queue's head field, or a node's next field. */
  datatype Ref = HeadField | NextField(node: Node)

  class Queue {
    var head: Node?
    var tail: Ref
    ghost var contents: seq<Node>

    /** The location `tail` has to denote for the given contents. */
    static function LastField(q: seq<Node>): Ref {
      if q == [] then HeadField else NextField(q[|q| - 1])
    }

    /** `head` and the next fields thread exactly the contents, without repetition. */
    ghost predicate Valid()
      reads this, contents
    {
      && (forall i, j :: 0 <= i < j < |contents| ==> contents[i] != contents[j])
      && head == (if contents == [] then null else contents[0])
      && (forall i :: 0 <= i < |contents| ==> contents[i].next == Successor(contents, i))
      && tail == LastField(contents)
    }

    static function Successor(q: seq<Node>, i: int): Node?
      requires 0 <= i < |q|
    {
      if i + 1 < |q| then q[i + 1] else null
    }

    constructor ()
      ensures Valid() && contents == []
    {
      head := null;
      tail := HeadField;
      contents := [];
    }

    /** *p */
    function Deref(p: Ref): Node?
      reads this, if p.NextField? then {p.node} else {}
    {
      match p
      case HeadField => head
      case NextField(n) => n.next
    }

    /** *p = x */
    method Store(p: Ref, x: Node?)
      modifies this`head, (if p.NextField? then {p.node} else {})`next
      ensures p.HeadField? ==> head == x
      ensures p.NextField? ==> p.node.next == x && head == old(head)
    {
      match p {
        case HeadField => head := x;
        case NextField(n) => n.next := x;
      }
    }

    method Enqueue(item: Node)
      requires Valid() && item !in contents
      modifies this, item, contents
      ensures Valid() && contents == old(contents) + [item]
    {
      item.next := null;
      Store(tail, item);
      tail := NextField(item);
      contents := contents + [item];
    }

    /** The removed node's next field is cleared. */
    method Dequeue() returns (out: Node?)
      requires Valid()
      modifies this, contents
      ensures Valid()
      ensures old(contents) == [] ==> out == null && contents == []
      ensures old(contents) != [] ==> out == old(contents[0]) && contents == old(contents)[1..] && out.next == null
    {
      out := head;
      if out != null {
        head := out.next;
        if head == null { tail := HeadField; }
        out.next := null;
        contents := contents[1..];
      }
    }

    /** The position of the first element that matches, or the length. */
    static function FirstMatch(q: seq<Node>, item: Node, cmp: (Node, Node) -> bool): (i: nat)
      ensures i <= |q| && (i < |q| ==> cmp(item, q[i]))
      ensures forall j :: 0 <= j < i ==> !cmp(item, q[j])
    {
      if q == [] || cmp(item, q[0]) then 0 else 1 + FirstMatch(q[1..], item, cmp)
    }

    /** Unlinks the first matching element.  `prev` is the location that points at the current
        element: the head field, or the next field of the element before. */
    method Remove(item: Node, cmp: (Node, Node) -> bool) returns (out: Node?)
      requires Valid()
      modifies this, contents
      ensures Valid()
      ensures var i := FirstMatch(old(contents), item, cmp);
        if i == |old(contents)| then out == null && contents == old(contents)
        else out == old(contents)[i] && contents == old(contents)[..i] + old(contents)[i + 1..]
             && out.next == old(Successor(contents, FirstMatch(contents, item, cmp)))
    {
      var prev := HeadField;
      var current := head;
      ghost var i := 0;
      while current != null
        invariant 0 <= i <= |contents| && contents == old(contents) && Valid()
        invariant current == if i < |contents| then contents[i] else null
        invariant prev == LastField(contents[..i])
        invariant forall j :: 0 <= j < i ==> !cmp(item, contents[j])
        decreases |contents| - i
      {
        if cmp(item, current) {
          assert FirstMatch(contents, item, cmp) == i;
          Unlink(prev, current, i);
          return current;
        }
        prev := NextField(current);
        current := current.next;
        i := i + 1;
      }
      return null;
    }

    /** *prev = current->next, and tail follows if it pointed into the node. */
    method Unlink(prev: Ref, current: Node, ghost i: int)
      requires Valid() && 0 <= i < |contents| && current == contents[i] && prev == LastField(contents[..i])
      modifies this, contents
      ensures Valid() && contents == old(contents)[..i] + old(contents)[i + 1..]
      ensures current.next == old(current.next)
    {
      ghost var q := contents;
      Bypass(prev, current, i);
      contents := q[..i] + q[i + 1..];
      Rejoined(q, i);
    }

    /** All links go past position i of q, the one that pointed at it included. */
    ghost predicate Bypassed(q: seq<Node>, i: int)
      requires 0 <= i < |q|
      reads `head, `tail, q
    {
      && (forall a, b :: 0 <= a < b < |q| ==> q[a] != q[b])
      && (forall j :: 0 <= j < |q| ==> q[j].next == Successor(q, if j == i - 1 then i else j))
      && head == (if i == 0 then Successor(q, 0) else q[0])
      && tail == (if i < |q| - 1 then NextField(q[|q| - 1]) else if i == 0 then HeadField else NextField(q[i - 1]))
    }

    method Bypass(prev: Ref, current: Node, ghost i: int)
      requires Valid() && 0 <= i < |contents| && current == contents[i] && prev == LastField(contents[..i])
      modifies this`head, this`tail, contents
      ensures Bypassed(contents, i) && current.next == old(current.next)
    {
      ghost var q := contents;
      assert i > 0 ==> q[..i][i - 1] == q[i - 1];
      assert forall j :: 0 <= j < |q| ==> q[j].next == Successor(q, j);
      Store(prev, current.next);
      assert current == q[|q| - 1] <==> i == |q| - 1;
      if NextField(current) == tail { tail := prev; }
    }

    /** The rest is threaded again after position i has been bypassed. */
    lemma Rejoined(q: seq<Node>, i: int)
      requires 0 <= i < |q| && contents == q[..i] + q[i + 1..] && Bypassed(q, i)
      ensures Valid()
    {
      Unlinked(q, i);
    }

    /** Neighbours after position i is cut out. */
    static lemma Unlinked(q: seq<Node>, i: int)
      requires 0 <= i < |q| && forall a, b :: 0 <= a < b < |q| ==> q[a] != q[b]
      ensures var r := q[..i] + q[i + 1..];
        && |r| == |q| - 1
        && (forall a, b :: 0 <= a < b < |r| ==> r[a] != r[b])
        && (forall j :: 0 <= j < |r| ==> r[j] == q[if j < i then j else j + 1])
        && (forall j :: 0 <= j < |r| ==>
              Successor(r, j) == if j == i - 1 then Successor(q, i) else Successor(q, if j < i then j else j + 1))
        && LastField(r) == if i == |q| - 1 then LastField(q[..i]) else LastField(q)
    {
    }

    /** Neighbours after x is put behind position i. */
    static lemma Linked(q: seq<Node>, i: int, x: Node)
      requires 0 <= i < |q| && x !in q && forall a, b :: 0 <= a < b < |q| ==> q[a] != q[b]
      ensures var r := q[..i + 1] + [x] + q[i + 1..];
        && |r| == |q| + 1 && r[i + 1] == x && r[0] == q[0]
        && (forall a, b :: 0 <= a < b < |r| ==> r[a] != r[b])
        && (forall j :: 0 <= j < |r| && j != i + 1 ==> r[j] == q[if j <= i then j else j - 1])
        && Successor(r, i) == x && Successor(r, i + 1) == Successor(q, i)
        && (forall j :: 0 <= j < |r| && j != i && j != i + 1 ==>
              Successor(r, j) == Successor(q, if j < i then j else j - 1))
        && LastField(r) == if i == |q| - 1 then NextField(x) else LastField(q)
    {
    }

    method InsertFirst(item: Node)
      requires Valid() && item !in contents
      modifies this, item, contents
      ensures Valid() && contents == [item] + old(contents)
    {
      item.next := head;
      head := item;
      if tail == HeadField { tail := NextField(item); }
      contents := [item] + contents;
    }

    static function IndexOf(q: seq<Node>, x: Node): (i: nat)
      ensures i <= |q| && (x in q ==> i < |q| && q[i] == x)
    {
      if q == [] || q[0] == x then 0 else 1 + IndexOf(q[1..], x)
    }

    method InsertAfter(oldItem: Node, newItem: Node)
      requires Valid() && newItem !in contents && oldItem in contents
      modifies this, newItem, contents
      ensures Valid()
      ensures var i := IndexOf(old(contents), oldItem);
        contents == old(contents)[..i + 1] + [newItem] + old(contents)[i + 1..]
    {
      ghost var q := contents;
      ghost var i := IndexOf(q, oldItem);
      Splice(oldItem, newItem, i);
      if Deref(tail) == newItem { tail := NextField(newItem); }
      contents := q[..i + 1] + [newItem] + q[i + 1..];
      Spliced(q, i, newItem);
    }

    method Splice(oldItem: Node, newItem: Node, ghost i: int)
      requires Valid() && newItem !in contents && 0 <= i < |contents| && oldItem == contents[i]
      modifies newItem, contents
      ensures newItem.next == old(Successor(contents, i))
      ensures forall j :: 0 <= j < |contents| ==> contents[j].next == if j == i then newItem else Successor(contents, j)
      ensures tail == NextField(contents[|contents| - 1]) && head == contents[0]
    {
      ghost var q := contents;
      assert forall j :: 0 <= j < |q| ==> q[j].next == Successor(q, j) && q[j] != newItem;
      newItem.next := oldItem.next;
      oldItem.next := newItem;
    }

    /** The queue is threaded again with x behind position i. */
    lemma Spliced(q: seq<Node>, i: int, x: Node)
      requires 0 <= i < |q| && x !in q && contents == q[..i + 1] + [x] + q[i + 1..]
      requires forall a, b :: 0 <= a < b < |q| ==> q[a] != q[b]
      requires x.next == Successor(q, i) && head == q[0]
      requires forall j :: 0 <= j < |q| ==> q[j].next == if j == i then x else Successor(q, j)
      requires tail == if i == |q| - 1 then NextField(x) else NextField(q[|q| - 1])
      ensures Valid()
    {
      Linked(q, i, x);
      forall j | 0 <= j < |contents| ensures contents[j].next == Successor(contents, j) {
        if j <= i { assert contents[j] == q[j]; }
        else if j > i + 1 { assert contents[j] == q[j - 1]; }
      }
    }

    /** A range-based loop with the queue's iterator sees the contents, in order. */
    method Iterate() returns (seen: seq<Node>)
      requires Valid()
      ensures seen == contents
    {
      seen := [];
      var first := head;
      while first != null
        invariant |seen| <= |contents| && seen == contents[..|seen|]
        invariant first == if |seen| < |contents| then contents[|seen|] else null
        decreases |contents| - |seen|
      {
        seen := seen + [first];
        first := first.next;
      }
    }
  }
}
