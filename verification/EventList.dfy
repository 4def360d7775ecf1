// The doubly linked list inside the Dalvik event queue (EventLoop.c, Events.c): pushed at
// the head, taken at the tail.

module EventList {
  datatype Signal = Startup | Shutdown | ShowIME | HideIME

  class Event {
    const kind: Signal
    var prev: Event?
    var next: Event?

    // createSignalEvent
    constructor (k: Signal)
      ensures kind == k && prev == null && next == null
    {
      kind, prev, next := k, null, null;
    }
  }

  class EventQ {
    var head: Event?
    var tail: Event?
    var size: nat
    var running: bool
    ghost var nodes: seq<Event>   // from head to tail

    ghost predicate Valid()
      reads this, nodes
    {
      && size == |nodes|
      && (forall i, j :: 0 <= i < j < |nodes| ==> nodes[i] != nodes[j])
      && (nodes == [] ==> head == null && tail == null)
      && (nodes != [] ==>
            head == nodes[0] && tail == nodes[|nodes| - 1] &&
            nodes[0].prev == null && nodes[|nodes| - 1].next == null)
      && (forall i :: 0 <= i < |nodes| - 1 ==> nodes[i].next == nodes[i + 1])
      && (forall i :: 0 < i < |nodes| ==> nodes[i].prev == nodes[i - 1])
    }

    // eventq_getInstance, which leaves running to eventq_start
    constructor ()
      ensures Valid() && nodes == []
    {
      head, tail, size, running, nodes := null, null, 0, false, [];
    }

    // eventq_push, under the lock
    method Push(e: Event)
      requires Valid() && e !in nodes && e.prev == null && e.next == null
      modifies this`head, this`tail, this`size, this`nodes, e, nodes
      ensures Valid() && nodes == [e] + old(nodes)
    {
      if size == 0 {
        head := e;
        tail := e;
      } else {
        head.prev := e;
        e.next := head;
        head := e;
      }
      size := size + 1;
      nodes := [e] + nodes;
    }

    // eventq_pop, and the same statements inside eventq_loop
    method Pop() returns (back: Event?)
      requires Valid()
      modifies this`head, this`tail, this`size, this`nodes, nodes
      ensures Valid()
      ensures old(nodes) == [] ==> back == null && nodes == []
      ensures old(nodes) != [] ==>
                back == old(nodes)[|old(nodes)| - 1] && nodes == old(nodes)[..|old(nodes)| - 1] && back !in nodes
    {
      if size == 0 {
        return null;
      }
      back := tail;
      if size == 1 {
        head := null;
        tail := null;
      } else {
        assert nodes[size - 1].prev == nodes[size - 2];
        tail := tail.prev;
        tail.next := null;
      }
      size := size - 1;
      nodes := nodes[..|nodes| - 1];
    }

    // A walk along prev and next links that starts at head or tail.
    ghost predicate Walk(p: seq<Event>)
      reads this, p
    {
      && p != [] && (p[0] == head || p[0] == tail)
      && forall i :: 0 <= i < |p| - 1 ==> p[i].next == p[i + 1] || p[i].prev == p[i + 1]
    }

    // No walk leaves the list: a popped event, back !in nodes, is out of reach even though
    // its own prev link is left as it was.
    lemma {:induction false} WalkStays(p: seq<Event>)
      requires Valid() && Walk(p)
      ensures p[|p| - 1] in nodes
      decreases |p|
    {
      if |p| == 1 {
        assert head in nodes && tail in nodes;
      } else {
        var q := p[..|p| - 1];
        assert forall i :: 0 <= i < |q| - 1 ==> q[i].next == q[i + 1] || q[i].prev == q[i + 1] by {
          forall i | 0 <= i < |q| - 1
            ensures q[i].next == q[i + 1] || q[i].prev == q[i + 1]
          {
            assert q[i] == p[i] && q[i + 1] == p[i + 1];
          }
        }
        WalkStays(q);
        var i :| 0 <= i < |nodes| && nodes[i] == q[|q| - 1];
        var last := p[|p| - 1];
        assert p[|p| - 2] == nodes[i] && (nodes[i].next == last || nodes[i].prev == last);
        if nodes[i].next == last {
          assert i < |nodes| - 1 && last == nodes[i + 1];
        } else {
          assert 0 < i && last == nodes[i - 1];
        }
      }
    }
  }
}
