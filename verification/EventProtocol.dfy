// The protocol around the list: any number of producers, one consumer, stop, a mutex and
// a condition variable (EventLoop.c, activity.c), as a state machine over its steps.

module EventProtocol {
  import opened Seqs

  // An event is named by its allocation. The queue runs from head to tail.
  type Id = nat

  datatype Task = Push(e: Id) | Stop

  // How far the producer that holds the mutex has got.
  datatype Phase = Entered | Changed | Signalled

  datatype Lock = Free | ByProducer(task: Task, phase: Phase) | ByConsumer

  // Where eventq_loop stands.
  datatype Consumer =
    | NotStarted
    | Locking          // at pthread_mutex_lock
    | Testing          // at the head of the outer while
    | Waiting(signalled: bool)
    | Relocking        // woken, at the mutex inside pthread_cond_wait
    | Processing(e: Id)
    | Leaving          // after break
    | Gone

  datatype State = State(
    queue: seq<Id>, running: bool, lock: Lock, consumer: Consumer,
    pushed: seq<Id>,      // in the order of the pushes
    processed: seq<Id>,   // in the order of eventHandler_process
    freed: seq<Id>)

  const INITIAL := State([], false, Free, NotStarted, [], [], [])

  datatype Step =
    | Start                   // eventq_start
    | Enter(task: Task)       // a producer gets the mutex
    | Change                  // it links the event, or clears running
    | Signal                  // pthread_cond_signal
    | Unlock
    | Acquire                 // the consumer gets the mutex
    | Test                    // the inner while, the break, the taking of the tail
    | Wake                    // the wait ends, signalled or spuriously
    | Process                 // eventHandler_process, which frees the event
    | Leave                   // the loop's end gives the mutex back

  predicate CanTake(s: State, t: Step) {
    match t
    case Start => s.consumer == NotStarted
    // createSignalEvent allocates, so an event is pushed once
    case Enter(task) => s.lock == Free && (task.Push? ==> task.e !in s.pushed)
    case Change => s.lock.ByProducer? && s.lock.phase == Entered
    case Signal => s.lock.ByProducer? && s.lock.phase == Changed
    case Unlock => s.lock.ByProducer? && s.lock.phase == Signalled
    case Acquire => s.lock == Free && (s.consumer == Locking || s.consumer == Relocking)
    case Test => s.consumer == Testing
    case Wake => s.consumer.Waiting?
    case Process => s.consumer.Processing?
    case Leave => s.consumer == Leaving
  }

  function Next(s: State, t: Step): State
    requires CanTake(s, t)
  {
    match t
    case Start => s.(running := true, consumer := Locking)
    case Enter(task) => s.(lock := ByProducer(task, Entered))
    case Change =>
      var locked := s.(lock := ByProducer(s.lock.task, Changed));
      if s.lock.task.Push? then
        locked.(queue := [s.lock.task.e] + s.queue, pushed := s.pushed + [s.lock.task.e])
      else locked.(running := false)
    case Signal =>
      s.(lock := ByProducer(s.lock.task, Signalled),
         consumer := if s.consumer.Waiting? then Waiting(true) else s.consumer)
    case Unlock => s.(lock := Free)
    case Acquire => s.(lock := ByConsumer, consumer := Testing)
    case Test =>
      if s.queue == [] && s.running then s.(lock := Free, consumer := Waiting(false))
      else if !s.running then s.(consumer := Leaving)
      else
        var n := |s.queue| - 1;
        s.(queue := s.queue[..n], consumer := Processing(s.queue[n]))
    case Wake => s.(consumer := Relocking)
    case Process =>
      s.(processed := s.processed + [s.consumer.e], freed := s.freed + [s.consumer.e], consumer := Testing)
    case Leave => s.(lock := Free, consumer := Gone)
  }

  predicate CanRun(s: State, run: seq<Step>)
    decreases |run|
  {
    run == [] || (CanTake(s, run[0]) && CanRun(Next(s, run[0]), run[1..]))
  }

  function RunTo(s: State, run: seq<Step>): State
    requires CanRun(s, run)
    decreases |run|
  {
    if run == [] then s else RunTo(Next(s, run[0]), run[1..])
  }

  function Reverse(q: seq<Id>): (r: seq<Id>)
    ensures |r| == |q|
  {
    if q == [] then [] else Reverse(q[1..]) + [q[0]]
  }

  function InHand(s: State): seq<Id> {
    if s.consumer.Processing? then [s.consumer.e] else []
  }

  ghost predicate Distinct(q: seq<Id>) {
    forall i, j :: 0 <= i < j < |q| ==> q[i] != q[j]
  }

  ghost predicate Inv(s: State) {
    // nothing lost, nothing doubled, nothing out of order
    && s.pushed == s.processed + InHand(s) + Reverse(s.queue)
    && Distinct(s.pushed)
    && s.freed == s.processed
    && (s.lock.ByProducer? && s.lock.task.Push? && s.lock.phase == Entered ==> s.lock.task.e !in s.pushed)
    // the mutex
    && (s.lock == ByConsumer <==> s.consumer == Testing || s.consumer == Leaving || s.consumer.Processing?)
    // running is seen false only after a stop, and an event is in hand only while it is true
    && (s.consumer.Processing? ==> s.running)
    && (s.consumer == Leaving || s.consumer == Gone ==> !s.running)
    && (s.consumer == NotStarted ==> s.processed == [])
    // no lost wake-up: whoever makes the wait pointless has not yet passed its signal
    && (s.consumer == Waiting(false) && !(s.lock.ByProducer? && s.lock.phase == Changed) ==> s.queue == [] && s.running)
  }

  lemma {:induction false} ReverseSnoc(q: seq<Id>, e: Id)
    ensures Reverse(q + [e]) == [e] + Reverse(q)
  {
    if q == [] {
      assert q + [e] == [e] && [e][1..] == [];
    } else {
      assert (q + [e])[1..] == q[1..] + [e];
      ReverseSnoc(q[1..], e);
    }
  }

  lemma ChangeInv(s: State)
    requires Inv(s) && CanTake(s, Change)
    ensures Inv(Next(s, Change))
  {
    if s.lock.task.Push? {
      var e := s.lock.task.e;
      assert ([e] + s.queue)[1..] == s.queue;
      assert s.processed + InHand(s) + (Reverse(s.queue) + [e]) == s.pushed + [e];
    }
  }

  lemma TestInv(s: State)
    requires Inv(s) && CanTake(s, Test)
    ensures Inv(Next(s, Test))
  {
    if s.queue != [] && s.running {
      var n := |s.queue| - 1;
      assert s.queue == s.queue[..n] + [s.queue[n]];
      ReverseSnoc(s.queue[..n], s.queue[n]);
    }
  }

  lemma StepInv(s: State, t: Step)
    requires Inv(s) && CanTake(s, t)
    ensures Inv(Next(s, t))
  {
    hide Reverse, Distinct;
    if t == Change {
      ChangeInv(s);
    } else if t == Test {
      TestInv(s);
    }
  }

  lemma {:induction false} AlwaysInv(s: State, run: seq<Step>)
    requires Inv(s) && CanRun(s, run)
    ensures Inv(RunTo(s, run))
    decreases |run|
  {
    if run != [] {
      StepInv(s, run[0]);
      AlwaysInv(Next(s, run[0]), run[1..]);
    }
  }

  // In every run: the processed events are the oldest pushed ones in push order, no event
  // is processed or freed twice, and a waiting consumer that has not been signalled has
  // nothing to wake up for, unless a producer is between its change and its signal.
  lemma EveryRun(run: seq<Step>)
    requires CanRun(INITIAL, run)
    ensures var s := RunTo(INITIAL, run);
            && s.processed <= s.pushed
            && s.processed + InHand(s) + Reverse(s.queue) == s.pushed
            && Distinct(s.processed) && s.freed == s.processed
            && (s.consumer == Waiting(false) && !(s.lock.ByProducer? && s.lock.phase == Changed) ==>
                  s.queue == [] && s.running)
  {
    AlwaysInv(INITIAL, run);
    var s := RunTo(INITIAL, run);
    assert s.pushed[..|s.processed|] == s.processed;
  }

  // While it is not gone, the loop either can move, or somebody inside the mutex can, or
  // it waits for events that are not there.
  lemma NeverStuck(run: seq<Step>)
    requires CanRun(INITIAL, run)
    ensures var s := RunTo(INITIAL, run);
            || s.consumer == NotStarted || s.consumer == Gone
            || CanTake(s, Change) || CanTake(s, Signal) || CanTake(s, Unlock)
            || CanTake(s, Acquire) || CanTake(s, Test) || CanTake(s, Process) || CanTake(s, Leave)
            || s.consumer == Waiting(true)
            || (s.consumer == Waiting(false) && s.queue == [] && s.running)
  {
    hide Reverse, Distinct, CanRun, RunTo;
    AlwaysInv(INITIAL, run);
  }

  // Once a started queue is told to stop, the processed events never change again: what
  // was queued then, and what is pushed later, is neither processed nor freed.
  lemma {:induction false} StopIsFinal(s: State, run: seq<Step>)
    requires Inv(s) && CanRun(s, run) && s.consumer != NotStarted && !s.running
    ensures var s' := RunTo(s, run);
            s'.processed == s.processed && s'.freed == s.freed && !s'.running && s'.consumer != NotStarted
    decreases |run|
  {
    if run != [] {
      StepInv(s, run[0]);
      StopIsFinal(Next(s, run[0]), run[1..]);
    }
  }

  // So an event is ever processed if and only if it was by the moment of the stop.
  lemma ProcessedByTheStop(before: seq<Step>, after: seq<Step>, e: Id)
    requires CanRun(INITIAL, before)
    requires var s := RunTo(INITIAL, before);
             s.consumer != NotStarted && s.lock == ByProducer(Stop, Entered) && CanRun(Next(s, Change), after)
    ensures var s := RunTo(INITIAL, before);
            e in RunTo(Next(s, Change), after).processed <==> e in s.processed
    ensures var s := RunTo(INITIAL, before);
            e in s.queue ==> e !in RunTo(Next(s, Change), after).processed
  {
    var s := RunTo(INITIAL, before);
    AlwaysInv(INITIAL, before);
    StepInv(s, Change);
    StopIsFinal(Next(s, Change), after);
    if e in s.queue {
      InReverse(s.queue, e);
      Assoc(s.processed, InHand(s), Reverse(s.queue));
      Apart(s.processed, InHand(s) + Reverse(s.queue));
    }
  }

  lemma Apart(a: seq<Id>, b: seq<Id>)
    requires Distinct(a + b)
    ensures forall e :: e in b ==> e !in a
  {
    forall i, j | 0 <= i < |a| && 0 <= j < |b|
      ensures a[i] != b[j]
    {
      assert (a + b)[i] == a[i] && (a + b)[|a| + j] == b[j];
    }
  }

  lemma {:induction false} InReverse(q: seq<Id>, e: Id)
    requires e in q
    ensures e in Reverse(q)
  {
    if q[0] != e {
      InReverse(q[1..], e);
    }
  }

  lemma {:induction false} RunAppend(s: State, a: seq<Step>, b: seq<Step>)
    requires CanRun(s, a) && CanRun(RunTo(s, a), b)
    ensures CanRun(s, a + b) && RunTo(s, a + b) == RunTo(RunTo(s, a), b)
    decreases |a|
  {
    if a == [] {
      assert a + b == b;
    } else {
      assert (a + b)[1..] == a[1..] + b;
      RunAppend(Next(s, a[0]), a[1..], b);
    }
  }

  // Four steps, one by one.
  lemma RunFour(s: State, a: Step, b: Step, c: Step, d: Step)
    requires CanTake(s, a) && CanTake(Next(s, a), b)
    requires CanTake(Next(Next(s, a), b), c) && CanTake(Next(Next(Next(s, a), b), c), d)
    ensures CanRun(s, [a, b, c, d]) && RunTo(s, [a, b, c, d]) == Next(Next(Next(Next(s, a), b), c), d)
  {
    hide CanTake, Next, CanRun, RunTo;
    var s1 := Next(s, a);
    var s2 := Next(s1, b);
    var s3 := Next(s2, c);
    assert [d] + [] == [d] && [c] + [d] == [c, d] && [b] + [c, d] == [b, c, d] && [a] + [b, c, d] == [a, b, c, d];
    RunNone(Next(s3, d));
    RunCons(s3, d, []);
    RunCons(s2, c, [d]);
    RunCons(s1, b, [c, d]);
    RunCons(s, a, [b, c, d]);
  }

  lemma RunNone(s: State)
    ensures CanRun(s, []) && RunTo(s, []) == s
  {
  }

  lemma RunCons(s: State, t: Step, run: seq<Step>)
    requires CanTake(s, t) && CanRun(Next(s, t), run)
    ensures CanRun(s, [t] + run) && RunTo(s, [t] + run) == RunTo(Next(s, t), run)
  {
    assert ([t] + run)[1..] == run;
  }

  // ---- What is pushed gets processed ----

  // The producer that holds the mutex gets through; a task is as good as done once it is
  // changed.
  lemma PassOn(s: State) returns (run: seq<Step>)
    requires Inv(s) && s.lock.ByProducer? && (s.lock.task.Stop? ==> s.lock.phase != Entered)
    requires s.running && s.consumer != NotStarted
    ensures CanRun(s, run) && Inv(RunTo(s, run))
    ensures var t := RunTo(s, run);
            t.lock == Free && t.running && t.consumer != NotStarted && s.pushed <= t.pushed
  {
    hide Reverse, Distinct;
    run := if s.lock.phase == Entered then [Change, Signal, Unlock]
           else if s.lock.phase == Changed then [Signal, Unlock] else [Unlock];
    assert run[1..] == (if |run| == 3 then [Signal, Unlock] else if |run| == 2 then [Unlock] else []);
    assert [Signal, Unlock][1..] == [Unlock] && [Unlock][1..] == [];
    AlwaysInv(s, run);
  }

  // The consumer takes what is there, one event after another.
  lemma {:induction false} TakeAll(s: State) returns (run: seq<Step>)
    requires Inv(s) && s.consumer == Testing && s.running
    ensures CanRun(s, run) && Inv(RunTo(s, run))
    ensures var t := RunTo(s, run);
            t.queue == [] && t.pushed == s.pushed && t.processed == s.pushed && t.consumer == Testing && t.running
    decreases |s.queue|
  {
    if s.queue == [] {
      run := [];
      assert s.processed + [] + [] == s.processed;
    } else {
      StepInv(s, Test);
      var s1 := Next(s, Test);
      StepInv(s1, Process);
      var more := TakeAll(Next(s1, Process));
      RunCons(s1, Process, more);
      RunCons(s, Test, [Process] + more);
      run := [Test] + ([Process] + more);
    }
  }

  // From the mutex, or from the wait, to the test.
  lemma ToTheTest(s: State) returns (run: seq<Step>)
    requires Inv(s) && s.running && s.consumer != NotStarted && (s.lock == Free || s.lock == ByConsumer)
    ensures CanRun(s, run) && Inv(RunTo(s, run))
    ensures var t := RunTo(s, run);
            t.consumer == Testing && t.running && t.pushed == s.pushed
  {
    hide Reverse, Distinct;
    run := if s.consumer.Waiting? then [Wake, Acquire]
           else if s.consumer == Testing then []
           else if s.consumer.Processing? then [Process] else [Acquire];
    assert [Wake, Acquire][1..] == [Acquire] && [Acquire][1..] == [] && [Process][1..] == [];
    AlwaysInv(s, run);
  }

  // In every run, at every moment of a started queue that no producer is about to stop, things
  // can go on so that all that has been pushed is processed, in the order of the pushes.
  lemma Drains(before: seq<Step>) returns (run: seq<Step>)
    requires CanRun(INITIAL, before)
    requires var s := RunTo(INITIAL, before);
             s.running && s.consumer != NotStarted && s.lock != ByProducer(Stop, Entered)
    ensures var s := RunTo(INITIAL, before);
            && CanRun(s, run)
            && var t := RunTo(s, run);
               t.queue == [] && s.pushed <= t.pushed == t.processed == t.freed
  {
    hide Reverse, Distinct, CanTake, Next;
    AlwaysInv(INITIAL, before);
    var s := RunTo(INITIAL, before);
    var a, s1 := [], s;
    if s.lock.ByProducer? {
      a := PassOn(s);
      s1 := RunTo(s, a);
    }
    var b := ToTheTest(s1);
    var s2 := RunTo(s1, b);
    var c := TakeAll(s2);
    RunAppend(s, a, b);
    RunAppend(s, a + b, c);
    run := a + b + c;
    AlwaysInv(s, run);
  }

  // A producer's passage through the mutex.
  function Passage(task: Task): seq<Step> {
    [Enter(task), Change, Signal, Unlock]
  }

  // android_notifyGlassShutdown pushes the shutdown event and stops the queue at once.
  function NotifyGlassShutdown(e: Id): seq<Step> {
    Passage(Push(e)) + Passage(Stop)
  }

  const STARTED := [Start, Acquire, Test, Wake]
  const ENDED := [Acquire, Test, Leave]

  // When the consumer does not run in between, the loop ends with the shutdown event
  // still queued, and however things go on nobody processes or frees it.
  lemma ShutdownDropped(e: Id, later: seq<Step>)
    requires CanRun(State([e], false, Free, Gone, [e], [], []), later)
    ensures CanRun(INITIAL, STARTED + NotifyGlassShutdown(e) + ENDED)
    ensures var s := RunTo(INITIAL, STARTED + NotifyGlassShutdown(e) + ENDED);
            s == State([e], false, Free, Gone, [e], [], []) &&
            e !in RunTo(s, later).processed && e !in RunTo(s, later).freed
  {
    hide CanTake, Next, CanRun, RunTo;
    var idle := State([], true, Free, Relocking, [], [], []);
    var queued := idle.(queue := [e], pushed := [e]);
    var stopped := queued.(running := false);
    assert [e] + idle.queue == [e] && idle.pushed + [e] == [e];
    Starts();
    PassesPush(idle, e);
    PassesStop(queued);
    Ends(stopped);
    RunAppend(idle, Passage(Push(e)), Passage(Stop));
    RunAppend(INITIAL, STARTED, NotifyGlassShutdown(e));
    RunAppend(INITIAL, STARTED + NotifyGlassShutdown(e), ENDED);
    assert Reverse([e]) == [e];
    StopIsFinal(stopped.(consumer := Gone), later);
  }

  lemma Starts()
    ensures CanRun(INITIAL, STARTED) && RunTo(INITIAL, STARTED) == State([], true, Free, Relocking, [], [], [])
  {
    hide CanRun, RunTo;
    RunFour(INITIAL, Start, Acquire, Test, Wake);
  }

  // A producer's passage while the consumer is not waiting.
  lemma PassesPush(s: State, e: Id)
    requires s.lock == Free && e !in s.pushed && !s.consumer.Waiting?
    ensures CanRun(s, Passage(Push(e)))
    ensures RunTo(s, Passage(Push(e))) == s.(queue := [e] + s.queue, pushed := s.pushed + [e])
  {
    hide CanRun, RunTo;
    RunFour(s, Enter(Push(e)), Change, Signal, Unlock);
  }

  lemma PassesStop(s: State)
    requires s.lock == Free && !s.consumer.Waiting?
    ensures CanRun(s, Passage(Stop)) && RunTo(s, Passage(Stop)) == s.(running := false)
  {
    hide CanRun, RunTo;
    RunFour(s, Enter(Stop), Change, Signal, Unlock);
  }

  lemma Ends(s: State)
    requires s.lock == Free && s.consumer == Relocking && !s.running
    ensures CanRun(s, ENDED) && RunTo(s, ENDED) == s.(consumer := Gone)
  {
    var a := Next(s, Acquire);
    var b := Next(a, Test);
    assert ENDED[1..] == [Test, Leave] && [Test, Leave][1..] == [Leave] && [Leave][1..] == [];
    assert CanRun(b, [Leave]) && RunTo(b, [Leave]) == Next(b, Leave);
    assert CanRun(a, [Test, Leave]) && RunTo(a, [Test, Leave]) == Next(b, Leave);
  }
}
