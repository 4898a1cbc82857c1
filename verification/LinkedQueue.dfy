/**
 The linked queue (queue.cpp, queue.h): nodes on the heap, linked both ways.  Its contents are
 a bounded sequence.  `live` is a ghost: a deleted node is not live, and every node the code
 follows is asserted to be.
 */
module LinkedQueue {
  import opened Threads

  class Node<T> {
    var entry: T
    var next: Node?<T>
    var prev: Node?<T>
    ghost var live: bool

    constructor (entry: T, next: Node?<T>, prev: Node?<T>)
      ensures this.entry == entry && this.next == next && this.prev == prev && live
    {
      this.entry, this.next, this.prev, live := entry, next, prev, true;
    }
  }

  class Queue<T> {
    var head: Node?<T>
    var last: Node?<T>
    var size: nat
    const max: int
    ghost var nodes: seq<Node<T>>

    ghost predicate Linked(k: int)
      requires 0 <= k < |nodes|
      reads this, nodes
    {
      && nodes[k].live
      && nodes[k].next == (if k + 1 < |nodes| then nodes[k + 1] else null)
      && nodes[k].prev == (if k > 0 then nodes[k - 1] else null)
    }

    /** `last` is meaningful only while there is a node: after the last pop it is stale. */
    ghost predicate Valid()
      reads this, nodes
    {
      && size == |nodes|
      && (max >= 0 ==> size <= max)
      && head == (if nodes == [] then null else nodes[0])
      && (nodes != [] ==> last == nodes[|nodes| - 1])
      && (forall j, k :: 0 <= j < k < |nodes| ==> nodes[j] != nodes[k])
      && (forall k :: 0 <= k < |nodes| ==> Linked(k))
    }

    ghost function Repr(): set<Node<T>>
      reads this
    {
      set n | n in nodes
    }

    ghost function Contents(): (q: seq<T>)
      reads this, nodes
      ensures |q| == |nodes|
    {
      seq(|nodes|, k requires 0 <= k < |nodes| reads this, nodes => nodes[k].entry)
    }

    constructor (max: int := CAPACITY)
      ensures Valid() && Contents() == [] && this.max == max && nodes == []
    {
      head, last, size, this.max, nodes := null, null, 0, max, [];
    }

    predicate Full()
      requires Valid()
      reads this, nodes
      ensures Full() <==> |Contents()| == max
    {
      size == max
    }

    predicate Empty()
      requires Valid()
      reads this, nodes
      ensures Empty() <==> Contents() == []
    {
      size == 0
    }

    /** A push fails exactly when the queue is full, and then changes nothing (queue.cpp:31-44). */
    method Push(x: T) returns (ok: bool)
      requires Valid()
      modifies this, Repr()
      ensures Valid()
      ensures ok <==> old(|Contents()|) != max
      ensures Contents() == if ok then old(Contents()) + [x] else old(Contents())
      ensures fresh(Repr() - old(Repr()))
    {
      if Full() { return false; }
      if head == null {
        head := new Node(x, null, null);
        last := head;
        nodes := [head];
        size := size + 1;
        assert Contents() == [x];
        return true;
      }
      var curr := new Node(x, null, last);
      assert Linked(|nodes| - 1) && last.live;
      last.next := curr;
      last := curr;
      nodes := nodes + [curr];
      size := size + 1;
      forall k | 0 <= k < |nodes| ensures Linked(k) {
        if k + 1 < |nodes| { assert old(Linked(k)); }
      }
      assert Contents() == old(Contents()) + [x];
      return true;
    }

    /**
     A pop of the empty queue throws; else it gives the oldest entry and deletes its node
     (queue.cpp:46-60).
     */
    method Pop() returns (r: Option<T>)
      requires Valid()
      modifies this, Repr()
      ensures Valid()
      ensures r == if old(Contents()) == [] then None else Some(old(Contents())[0])
      ensures Contents() == if r == None then old(Contents()) else old(Contents())[1..]
      ensures r.Some? ==> nodes == old(nodes)[1..] && !old(nodes)[0].live
      ensures r.None? ==> nodes == old(nodes)
      ensures Repr() <= old(Repr())
    {
      if head == null { return None; }
      assert Linked(0);
      var tmp := head.entry;
      var curr := head.next;
      if curr != null {
        assert Linked(1) && curr.live;
        curr.prev := null;
      }
      head.live := false;
      head := curr;
      size := size - 1;
      nodes := nodes[1..];
      forall k | 0 <= k < |nodes| ensures Linked(k) {
        assert nodes[k] == old(nodes)[k + 1] && old(Linked(k + 1));
      }
      assert Contents() == old(Contents())[1..];
      return Some(tmp);
    }

    method Peek() returns (r: Option<T>)
      requires Valid()
      ensures r == if Contents() == [] then None else Some(Contents()[0])
    {
      if head == null { return None; }
      assert Linked(0);
      return Some(head.entry);
    }

    /** The destructor deletes every node once (queue.cpp:12-20). */
    method Destroy()
      requires Valid()
      modifies this, Repr()
      ensures forall n :: n in old(nodes) ==> !n.live
    {
      ghost var k := 0;
      while head != null
        invariant 0 <= k <= |nodes| && nodes == old(nodes)
        invariant head == if k == |nodes| then null else nodes[k]
        invariant forall j :: 0 <= j < k ==> !nodes[j].live
        invariant forall j :: k <= j < |nodes| ==> Linked(j)
        decreases |nodes| - k
      {
        assert Linked(k);
        label L:
        var curr := head;
        head := head.next;
        assert curr.live;
        curr.live := false;
        forall j | k < j < |nodes| ensures Linked(j) {
          assert old@L(Linked(j)) && old(nodes)[j] != old(nodes)[k];
        }
        k := k + 1;
      }
    }
  }

  // ---- Runs of operations -------------------------------------------------------------------

  datatype Op<T> = PushOp(x: T) | PopOp

  /** What a run of operations leaves: the contents, the entries accepted, and the entries given out. */
  datatype Run<T> = Run(q: seq<T>, accepted: seq<T>, popped: seq<T>)

  /** The effect of one operation on the sequence, as `Queue.Push` and `Queue.Pop` state it. */
  function Apply<T>(r: Run<T>, max: int, op: Op<T>): Run<T> {
    match op
    case PushOp(x) => if |r.q| == max then r else Run(r.q + [x], r.accepted + [x], r.popped)
    case PopOp => if r.q == [] then r else Run(r.q[1..], r.accepted, r.popped + [r.q[0]])
  }

  function ApplyAll<T>(max: int, ops: seq<Op<T>>): Run<T> {
    if ops == [] then Run([], [], []) else Apply(ApplyAll(max, ops[..|ops| - 1]), max, ops[|ops| - 1])
  }

  /** First in, first out, and never more than `max` at once. */
  lemma {:induction false} FirstInFirstOut<T>(max: int, ops: seq<Op<T>>)
    ensures var r := ApplyAll(max, ops);
            r.accepted == r.popped + r.q && (max >= 0 ==> |r.q| <= max)
  {
    if ops != [] {
      FirstInFirstOut(max, ops[..|ops| - 1]);
      var r := ApplyAll(max, ops[..|ops| - 1]);
      if r.q != [] { assert r.q == [r.q[0]] + r.q[1..]; }
    }
  }

  /** Any run of operations on the linked queue does what it does on the sequence. */
  method Perform<T>(max: int, ops: seq<Op<T>>) returns (q: Queue<T>, popped: seq<T>)
    ensures fresh(q) && q.Valid() && q.max == max
    ensures q.Contents() == ApplyAll(max, ops).q && popped == ApplyAll(max, ops).popped
  {
    q := new Queue<T>(max);
    popped := [];
    for k := 0 to |ops|
      invariant q.Valid() && fresh(q) && q.max == max && fresh(q.Repr())
      invariant q.Contents() == ApplyAll(max, ops[..k]).q && popped == ApplyAll(max, ops[..k]).popped
    {
      assert ops[..k + 1][..k] == ops[..k];
      match ops[k]
      case PushOp(x) => var _ := q.Push(x);
      case PopOp =>
        var r := q.Pop();
        if r.Some? { popped := popped + [r.value]; }
    }
    assert ops[..|ops|] == ops;
  }
}
