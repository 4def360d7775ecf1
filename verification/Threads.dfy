// Several traced threads at once: the recursive lock, the nesting counter and the shared
// stream, under every interleaving.

module Threads {
  import opened Seqs
  import opened Words
  import opened Format
  import opened Records
  import opened Calls
  import opened TraceWriter
  import opened Replay
  import opened RoundTrip
  import opened Traces

  // memlock's owner, reentrance, curThread and the bytes written so far.
  datatype Machine = Machine(owner: Option<uint64>, depth: nat, curThread: uint64, bytes: seq<byte>) {
    predicate Valid(w: WordSize) {
      (owner.None? <==> depth == 0) && curThread < Range(w) && (owner.Some? ==> owner.value < Range(w))
    }
  }

  // putCmd, one put of any kind, endCmd (putTime is two puts and endCmd).
  datatype Step =
    | Cmd(thr: uint64, op: int32)
    | Put(thr: uint64, data: seq<byte>)
    | End(thr: uint64)

  // A thread waits in putCmd while another holds the lock; it puts and ends only inside
  // its own putCmd.
  predicate CanTake(m: Machine, s: Step, w: WordSize) {
    s.thr < Range(w) &&
    if s.Cmd? then m.owner.None? || m.owner.value == s.thr else m.owner == Some(s.thr)
  }

  function Next(m: Machine, s: Step, w: WordSize): (m': Machine)
    requires m.Valid(w) && CanTake(m, s, w)
    ensures m'.Valid(w)
  {
    match s
    case Cmd(thr, op) =>
      if m.depth > 0 then m.(depth := m.depth + 1)
      else Machine(Some(thr), 1, thr, m.bytes + (ThreadPrefix(m.curThread, thr, w) + EncInt(op)))
    case Put(_, data) =>
      if m.depth > 1 then m else m.(bytes := m.bytes + data)
    case End(_) =>
      m.(depth := m.depth - 1, owner := if m.depth == 1 then None else m.owner)
  }

  predicate CanRun(m: Machine, steps: seq<Step>, w: WordSize)
    requires m.Valid(w)
    decreases |steps|
  {
    steps == [] || (CanTake(m, steps[0], w) && CanRun(Next(m, steps[0], w), steps[1..], w))
  }

  function RunTo(m: Machine, steps: seq<Step>, w: WordSize): (m': Machine)
    requires m.Valid(w) && CanRun(m, steps, w)
    ensures m'.Valid(w)
    decreases |steps|
  {
    if steps == [] then m else RunTo(Next(m, steps[0], w), steps[1..], w)
  }

  // ---- The machine is what iolib.c does ----

  datatype Act = DoCmd(op: int32) | DoPut(f: Field) | DoTime(n: uint64) | DoEnd

  function StepOf(a: Act, thr: uint64, w: WordSize): Step
    requires a.DoPut? ==> a.f.Ok(w)
  {
    match a
    case DoCmd(op) => Cmd(thr, op)
    case DoPut(f) => Put(thr, EncField(f, w))
    case DoTime(n) => Put(thr, EncLongLong(n))
    case DoEnd => End(thr)
  }

  ghost predicate Models(m: Machine, io: Writer)
    reads io
  {
    m.depth == io.reentrance && m.curThread == io.curThread && m.bytes == io.stream
  }

  // One call into iolib.c by the thread that may make it.
  method Perform(io: Writer, a: Act, thr: uint64, ghost m: Machine)
    requires io.Valid() && m.Valid(io.wsize) && Models(m, io)
    requires (a.DoPut? ==> a.f.Ok(io.wsize)) && CanTake(m, StepOf(a, thr, io.wsize), io.wsize)
    modifies io, io.chunk
    ensures io.Valid() && (io.chunk == old(io.chunk) || fresh(io.chunk))
    ensures Models(Next(m, StepOf(a, thr, io.wsize), io.wsize), io)
  {
    hide Writer.Mapped, EncInt, EncFloat, EncPtr, EncString, EncBytes;
    hide EncIntPtr, EncFloatPtr, EncLongLong, ThreadPrefix;
    assert io.stream + [] == io.stream;
    match a {
      case DoCmd(op) => io.PutCmd(thr, op);
      case DoPut(FInt(i)) => io.PutInt(i);
      case DoPut(FFloat(x)) => io.PutFloat(x);
      case DoPut(FPtr(p)) => io.PutPtr(p);
      case DoPut(FString(str)) => io.PutString(str);
      case DoPut(FBytes(data, size)) => io.PutBytes(data, size);
      case DoPut(FIntPtr(ip)) => io.PutIntPtr(ip);
      case DoPut(FFloatPtr(fp)) => io.PutFloatPtr(fp);
      case DoTime(n) => io.PutLongLong(n);
      case DoEnd => io.EndCmd();
    }
  }

  // ---- What one program, nesting included, puts at depth 1 ----

  // An outermost command: everything from its opcode on.
  datatype Piece = Piece(thr: uint64, payload: seq<byte>)

  function DepthAfter(steps: seq<Step>, depth: int): int {
    if steps == [] then depth
    else
      var s, before := steps[|steps| - 1], DepthAfter(steps[..|steps| - 1], depth);
      if s.Cmd? then before + 1 else if s.End? then before - 1 else before
  }

  function AddTo(pieces: seq<Piece>, data: seq<byte>): seq<Piece> {
    if pieces == [] then []
    else pieces[|pieces| - 1 := pieces[|pieces| - 1].(payload := pieces[|pieces| - 1].payload + data)]
  }

  // The outermost commands of a list of steps that starts at depth 0, the last one
  // perhaps unfinished.
  function Commands(steps: seq<Step>): seq<Piece> {
    if steps == [] then []
    else
      var s, before, depth :=
        steps[|steps| - 1], Commands(steps[..|steps| - 1]), DepthAfter(steps[..|steps| - 1], 0);
      match s
      case Cmd(thr, op) => if depth == 0 then before + [Piece(thr, EncInt(op))] else before
      case Put(_, data) => if depth == 1 then AddTo(before, data) else before
      case End(_) => before
  }

  // The commands in a stream, each with the thread prefix it needs after the one before.
  function Serial(pieces: seq<Piece>, last: uint64, w: WordSize): seq<byte>
    requires forall p :: p in pieces ==> p.thr < Range(w)
  {
    if pieces == [] then []
    else
      var n := |pieces| - 1;
      Serial(pieces[..n], last, w) +
      (ThreadPrefix(if n == 0 then last else pieces[n - 1].thr, pieces[n].thr, w) + pieces[n].payload)
  }

  function Own(steps: seq<Step>, t: uint64): seq<Step> {
    if steps == [] then []
    else Own(steps[..|steps| - 1], t) + if steps[|steps| - 1].thr == t then [steps[|steps| - 1]] else []
  }

  function OfThread(pieces: seq<Piece>, t: uint64): seq<Piece> {
    if pieces == [] then []
    else OfThread(pieces[..|pieces| - 1], t) + if pieces[|pieces| - 1].thr == t then [pieces[|pieces| - 1]] else []
  }

  // ---- Every run ----

  lemma {:induction false} RunSnoc(m: Machine, steps: seq<Step>, s: Step, w: WordSize)
    requires m.Valid(w)
    ensures CanRun(m, steps + [s], w) <==> CanRun(m, steps, w) && CanTake(RunTo(m, steps, w), s, w)
    ensures CanRun(m, steps + [s], w) ==> RunTo(m, steps + [s], w) == Next(RunTo(m, steps, w), s, w)
    decreases |steps|
  {
    hide CanTake, Next, Machine.Valid;
    if steps == [] {
      assert [] + [s] == [s] && [s][1..] == [];
    } else {
      assert (steps + [s])[1..] == steps[1..] + [s] && (steps + [s])[0] == steps[0];
      if CanTake(m, steps[0], w) {
        RunSnoc(Next(m, steps[0], w), steps[1..], s, w);
      }
    }
  }

  // The state of a run in terms of the commands alone.
  ghost predicate Serialised(m: Machine, steps: seq<Step>, start: seq<byte>, w: WordSize) {
    var pieces := Commands(steps);
    && m.depth == DepthAfter(steps, 0)
    && m.owner == (if m.depth == 0 || pieces == [] then None else Some(pieces[|pieces| - 1].thr))
    && (m.depth > 0 ==> pieces != [])
    && m.curThread == (if pieces == [] then 0 else pieces[|pieces| - 1].thr)
    && (forall p :: p in pieces ==> p.thr < Range(w))
    && m.bytes == start + Serial(pieces, 0, w)
  }

  lemma SerialAdd(pieces: seq<Piece>, data: seq<byte>, last: uint64, w: WordSize)
    requires pieces != [] && forall p :: p in pieces ==> p.thr < Range(w)
    ensures forall p :: p in AddTo(pieces, data) ==> p.thr < Range(w)
    ensures Serial(AddTo(pieces, data), last, w) == Serial(pieces, last, w) + data
  {
    hide Serial, ThreadPrefix;
    var n, more := |pieces| - 1, AddTo(pieces, data);
    assert more[..n] == pieces[..n];
    SerialUnfold(pieces, last, w);
    SerialUnfold(more, last, w);
    var prefix := ThreadPrefix(if n == 0 then last else pieces[n - 1].thr, pieces[n].thr, w);
    Assoc(prefix, pieces[n].payload, data);
    Assoc(Serial(pieces[..n], last, w), prefix + pieces[n].payload, data);
  }

  // The last step's share in the commands and in the depth.
  lemma CommandsSnoc(before: seq<Step>, s: Step)
    ensures DepthAfter(before + [s], 0) ==
            DepthAfter(before, 0) + if s.Cmd? then 1 else if s.End? then -1 else 0
    ensures Commands(before + [s]) ==
            if s.Cmd? && DepthAfter(before, 0) == 0 then Commands(before) + [Piece(s.thr, EncInt(s.op))]
            else if s.Put? && DepthAfter(before, 0) == 1 then AddTo(Commands(before), s.data)
            else Commands(before)
  {
    assert (before + [s])[..|before|] == before;
  }

  lemma StepSerialised(m: Machine, before: seq<Step>, s: Step, start: seq<byte>, w: WordSize)
    requires m.Valid(w) && Serialised(m, before, start, w) && CanTake(m, s, w)
    ensures Serialised(Next(m, s, w), before + [s], start, w)
  {
    hide Commands, DepthAfter, EncInt, ThreadPrefix, Serial;
    CommandsSnoc(before, s);
    assert m.bytes + [] == m.bytes;
    var pieces := Commands(before);
    match s
    case Cmd(thr, op) =>
      if m.depth == 0 {
        SerialNext(pieces, Piece(thr, EncInt(op)), w);
        Assoc(start, Serial(pieces, 0, w), ThreadPrefix(m.curThread, thr, w) + EncInt(op));
      }
    case Put(_, data) =>
      if m.depth == 1 {
        SerialAdd(pieces, data, 0, w);
        Assoc(start, Serial(pieces, 0, w), data);
      }
    case End(_) =>
  }

  lemma SerialNext(pieces: seq<Piece>, p: Piece, w: WordSize)
    requires p.thr < Range(w) && forall q :: q in pieces ==> q.thr < Range(w)
    ensures Serial(pieces + [p], 0, w) ==
            Serial(pieces, 0, w) +
            (ThreadPrefix(if pieces == [] then 0 else pieces[|pieces| - 1].thr, p.thr, w) + p.payload)
  {
    hide Serial, ThreadPrefix;
    SerialUnfold(pieces + [p], 0, w);
    assert (pieces + [p])[..|pieces|] == pieces;
  }

  // In every interleaving, at every nesting depth: the stream is what was there before,
  // followed by the complete outermost commands one after the other.
  lemma {:induction false} AlwaysSerialised(start: seq<byte>, steps: seq<Step>, w: WordSize)
    requires CanRun(Machine(None, 0, 0, start), steps, w)
    ensures Serialised(RunTo(Machine(None, 0, 0, start), steps, w), steps, start, w)
    decreases |steps|
  {
    var m0 := Machine(None, 0, 0, start);
    if steps == [] {
      assert start + [] == start;
    } else {
      var before, s := steps[..|steps| - 1], steps[|steps| - 1];
      assert steps == before + [s];
      hide Serialised, CanTake, Next, RunTo, CanRun;
      RunSnoc(m0, before, s, w);
      AlwaysSerialised(start, before, w);
      StepSerialised(RunTo(m0, before, w), before, s, start, w);
    }
  }

  lemma OfThreadLast(pieces: seq<Piece>, p: Piece, t: uint64)
    ensures OfThread(pieces + [p], t) == OfThread(pieces, t) + if p.thr == t then [p] else []
  {
    assert (pieces + [p])[..|pieces|] == pieces;
  }

  lemma OwnLast(steps: seq<Step>, s: Step, t: uint64)
    ensures Own(steps + [s], t) == Own(steps, t) + if s.thr == t then [s] else []
  {
    assert (steps + [s])[..|steps|] == steps;
  }

  // Growing the last command grows it among its thread's commands, where it is last too.
  lemma OfThreadAdd(pieces: seq<Piece>, data: seq<byte>, t: uint64)
    requires pieces != []
    ensures OfThread(AddTo(pieces, data), t) ==
            if pieces[|pieces| - 1].thr == t then AddTo(OfThread(pieces, t), data) else OfThread(pieces, t)
  {
    var k := |pieces| - 1;
    var grown := pieces[k].(payload := pieces[k].payload + data);
    assert pieces == pieces[..k] + [pieces[k]] && AddTo(pieces, data) == pieces[..k] + [grown];
    OfThreadLast(pieces[..k], pieces[k], t);
    OfThreadLast(pieces[..k], grown, t);
  }

  ghost predicate Intact(m: Machine, steps: seq<Step>, t: uint64) {
    && DepthAfter(Own(steps, t), 0) == (if m.owner == Some(t) then m.depth else 0)
    && OfThread(Commands(steps), t) == Commands(Own(steps, t))
  }

  lemma OwnStepIntact(m: Machine, before: seq<Step>, s: Step, start: seq<byte>, t: uint64, w: WordSize)
    requires m.Valid(w) && Serialised(m, before, start, w) && CanTake(m, s, w) && Intact(m, before, t)
    requires s.thr == t
    ensures Intact(Next(m, s, w), before + [s], t)
  {
    var pieces, own := Commands(before), Own(before, t);
    CommandsSnoc(before, s);
    OwnLast(before, s, t);
    CommandsSnoc(own, s);
    hide Commands, DepthAfter, Own, EncInt, ThreadPrefix, AddTo, Serial, OfThread;
    if s.Cmd? && m.depth == 0 {
      OfThreadLast(pieces, Piece(s.thr, EncInt(s.op)), t);
    } else if s.Put? && m.depth == 1 {
      OfThreadAdd(pieces, s.data, t);
    }
  }

  lemma OtherStepIntact(m: Machine, before: seq<Step>, s: Step, start: seq<byte>, t: uint64, w: WordSize)
    requires m.Valid(w) && Serialised(m, before, start, w) && CanTake(m, s, w) && Intact(m, before, t)
    requires s.thr != t
    ensures Intact(Next(m, s, w), before + [s], t)
  {
    var pieces, own := Commands(before), Own(before, t);
    CommandsSnoc(before, s);
    OwnLast(before, s, t);
    assert own + [] == own;
    hide Commands, DepthAfter, Own, EncInt, ThreadPrefix, AddTo, Serial, OfThread;
    if s.Cmd? && m.depth == 0 {
      OfThreadLast(pieces, Piece(s.thr, EncInt(s.op)), t);
      assert OfThread(pieces, t) + [] == OfThread(pieces, t);
    } else if s.Put? && m.depth == 1 {
      OfThreadAdd(pieces, s.data, t);
    }
  }

  // Each thread's commands appear as that thread alone would have put them, in its order.
  lemma {:induction false} ThreadsIntact(start: seq<byte>, steps: seq<Step>, t: uint64, w: WordSize)
    requires CanRun(Machine(None, 0, 0, start), steps, w)
    ensures Intact(RunTo(Machine(None, 0, 0, start), steps, w), steps, t)
    decreases |steps|
  {
    var m0 := Machine(None, 0, 0, start);
    if steps != [] {
      var before, s := steps[..|steps| - 1], steps[|steps| - 1];
      assert steps == before + [s];
      hide Intact, Serialised, CanTake, Next, RunTo, CanRun;
      RunSnoc(m0, before, s, w);
      ThreadsIntact(start, before, t, w);
      AlwaysSerialised(start, before, w);
      if s.thr == t {
        OwnStepIntact(RunTo(m0, before, w), before, s, start, t, w);
      } else {
        OtherStepIntact(RunTo(m0, before, w), before, s, start, t, w);
      }
    }
  }

  // ---- With the calls ----

  ghost function PiecesOf(issues: seq<Issue>, g: GL, w: WordSize): (ps: seq<Piece>)
    requires RunOk(issues, g, w)
    ensures forall p :: p in ps ==> p.thr < Range(w)
  {
    if issues == [] then []
    else [Piece(issues[0].thr, EncBody(issues[0], g, w))] + PiecesOf(issues[1..], Effect(g, issues[0].call, w), w)
  }

  lemma SerialUnfold(pieces: seq<Piece>, last: uint64, w: WordSize)
    requires forall p :: p in pieces ==> p.thr < Range(w)
    ensures Serial(pieces, last, w) ==
            if pieces == [] then []
            else
              var n := |pieces| - 1;
              Serial(pieces[..n], last, w) +
              (ThreadPrefix(if n == 0 then last else pieces[n - 1].thr, pieces[n].thr, w) + pieces[n].payload)
  {
  }

  lemma {:induction false} SerialCons(p: Piece, pieces: seq<Piece>, last: uint64, w: WordSize)
    requires p.thr < Range(w) && forall q :: q in pieces ==> q.thr < Range(w)
    ensures Serial([p] + pieces, last, w) == ThreadPrefix(last, p.thr, w) + p.payload + Serial(pieces, p.thr, w)
    decreases |pieces|
  {
    hide ThreadPrefix, Serial;
    var all, head := [p] + pieces, ThreadPrefix(last, p.thr, w) + p.payload;
    SerialUnfold(all, last, w);
    SerialUnfold(pieces, p.thr, w);
    if pieces == [] {
      assert all == [p] && [p][..0] == [];
      SerialUnfold([], last, w);
      assert [] + head == head + [];
    } else {
      var n := |pieces| - 1;
      assert all[..n + 1] == [p] + pieces[..n];
      SerialCons(p, pieces[..n], last, w);
      Assoc(head, Serial(pieces[..n], p.thr, w),
            ThreadPrefix(if n == 0 then p.thr else pieces[n - 1].thr, pieces[n].thr, w) + pieces[n].payload);
    }
  }

  lemma {:induction false} SerialIsEncRun(issues: seq<Issue>, last: uint64, g: GL, w: WordSize)
    requires RunOk(issues, g, w)
    ensures Serial(PiecesOf(issues, g, w), last, w) == EncRun(issues, last, g, w)
    decreases |issues|
  {
    hide CallOk, EncBody, Effect, ThreadPrefix;
    if issues != [] {
      var i, g' := issues[0], Effect(g, issues[0].call, w);
      SerialCons(Piece(i.thr, EncBody(i, g, w)), PiecesOf(issues[1..], g', w), last, w);
      SerialIsEncRun(issues[1..], i.thr, g', w);
    }
  }
}
