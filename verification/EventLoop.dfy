// EventLoop.c: what eventq_push, eventq_stop and a turn of eventq_loop do to the queue is
// what the protocol's steps say.

module EventLoop {
  import opened EventList
  import P = EventProtocol

  // The queue, with each event under its name, is the one of the protocol's state; what
  // running is before the start does not matter.
  ghost predicate Models(q: EventQ, ids: map<Event, P.Id>, s: P.State)
    reads q, q.nodes
  {
    && q.Valid() && (s.consumer == P.NotStarted || q.running == s.running) && |q.nodes| == |s.queue|
    && forall i :: 0 <= i < |q.nodes| ==> q.nodes[i] in ids && ids[q.nodes[i]] == s.queue[i]
  }

  // eventq_push, once it has the mutex.
  method Push(q: EventQ, e: Event, ghost ids: map<Event, P.Id>, ghost s: P.State)
    requires Models(q, ids, s) && e in ids && e !in q.nodes && e.prev == null && e.next == null
    requires s.lock == P.ByProducer(P.Push(ids[e]), P.Entered)
    modifies q, e, q.nodes
    ensures Models(q, ids, P.Next(s, P.Change))
  {
    q.Push(e);
  }

  // eventq_stop, once it has the mutex.
  method Stop(q: EventQ, ghost ids: map<Event, P.Id>, ghost s: P.State)
    requires Models(q, ids, s) && s.lock == P.ByProducer(P.Stop, P.Entered)
    modifies q`running
    ensures Models(q, ids, P.Next(s, P.Change))
  {
    q.running := false;
  }

  // eventq_start, before the thread is made.
  method Start(q: EventQ, ghost ids: map<Event, P.Id>, ghost s: P.State)
    requires Models(q, ids, s) && s.consumer == P.NotStarted
    modifies q`running
    ensures Models(q, ids, P.Next(s, P.Start))
  {
    q.running := true;
  }

  datatype Turn = Waits | Breaks | Processes(e: Event)

  // From the tests of eventq_loop to the event it hands to process.
  method TakeTurn(q: EventQ, ghost ids: map<Event, P.Id>, ghost s: P.State) returns (turn: Turn)
    requires Models(q, ids, s) && s.consumer == P.Testing
    modifies q, q.nodes
    ensures Models(q, ids, P.Next(s, P.Test))
    ensures var next := P.Next(s, P.Test).consumer;
            match turn
            case Waits => next == P.Waiting(false)
            case Breaks => next == P.Leaving
            case Processes(e) => e in ids && next == P.Processing(ids[e]) && e !in q.nodes
  {
    if q.size == 0 && q.running {
      return Waits;
    }
    if !q.running {
      return Breaks;
    }
    var e := q.Pop();
    turn := Processes(e);
  }
}
