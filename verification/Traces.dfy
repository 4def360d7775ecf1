// Whole traces: any run of calls by any threads, recorded and then replayed.

module Traces {
  import opened Seqs
  import opened Words
  import opened Format
  import opened Records
  import opened Calls
  import opened TraceWriter
  import opened Replay
  import opened RoundTrip

  // A call as it is issued: the thread, the application's memory at that time, and the
  // two clock readings around the forwarded call.
  datatype Issue = Issue(thr: uint64, call: Call, mem: Memory, bgn: uint64, end: uint64)

  // Every call is one its wrapper and GL accept, in the state the calls before it left.
  ghost predicate RunOk(issues: seq<Issue>, g: GL, w: WordSize) {
    issues == [] ||
    (issues[0].thr < Range(w) && CallOk(issues[0].call, g, w) && RunOk(issues[1..], Effect(g, issues[0].call, w), w))
  }

  // From putCmd to putTime, at depth 1.
  function EncBody(i: Issue, g: GL, w: WordSize): seq<byte>
    requires CallOk(i.call, g, w)
  {
    PutsOk(i.call, g, i.mem, w);
    EncInt(i.call.Op()) + EncFields(Puts(i.call, g, i.mem, w), w) + (EncLongLong(i.bgn) + EncLongLong(i.end))
  }

  ghost function EncRun(issues: seq<Issue>, last: uint64, g: GL, w: WordSize): seq<byte>
    requires RunOk(issues, g, w)
  {
    if issues == [] then []
    else
      ThreadPrefix(last, issues[0].thr, w) + EncBody(issues[0], g, w) +
      EncRun(issues[1..], issues[0].thr, Effect(g, issues[0].call, w), w)
  }

  // What the replayer should report for it.
  function SeenIssue(i: Issue, g: GL, w: WordSize): Entry
    requires i.thr < Range(w) && CallOk(i.call, g, w)
  {
    PutsOk(i.call, g, i.mem, w);
    Entry(PtrView(i.thr, w), i.call.Op(), SeenAll(Puts(i.call, g, i.mem, w), w), i.bgn, i.end)
  }

  ghost function SeenRun(issues: seq<Issue>, g: GL, w: WordSize): (log: seq<Entry>)
    requires RunOk(issues, g, w)
    ensures |log| == |issues|
  {
    if issues == [] then []
    else [SeenIssue(issues[0], g, w)] + SeenRun(issues[1..], Effect(g, issues[0].call, w), w)
  }

  ghost function GLAfter(issues: seq<Issue>, g: GL, w: WordSize): GL
    requires RunOk(issues, g, w)
  {
    if issues == [] then g else GLAfter(issues[1..], Effect(g, issues[0].call, w), w)
  }

  function MirrorAfter(log: seq<Entry>, m: Mirror, exec: bool): (m': Mirror)
    requires m.Valid()
    ensures m'.Valid()
  {
    if log == [] then m else MirrorAfter(log[1..], PlayEffect(m, exec, log[0].op, log[0].args), exec)
  }

  function ThreadAfter(log: seq<Entry>, thread: uint64): uint64 {
    if log == [] then thread else log[|log| - 1].thr
  }

  // Each buffer swap counts down.
  function FramesAfter(log: seq<Entry>, frames: int): int {
    if log == [] then frames
    else FramesAfter(log[1..], if log[0].op == OPC_eglSwapBuffers then frames - 1 else frames)
  }

  ghost predicate AllReadBack(issues: seq<Issue>, exec: bool) {
    forall i :: i in issues ==> ReadsBack(i.call, exec)
  }

  // ---- One call ----

  // The replayer's update follows the recorder's.
  lemma EffectMirrors(c: Call, g: GL, m: Mirror, exec: bool, mem: Memory, w: WordSize)
    requires CallOk(c, g, w) && Mirrors(g, m, exec)
    ensures AllOk(Puts(c, g, mem, w), w)
    ensures Mirrors(Effect(g, c, w), PlayEffect(m, exec, c.Op(), SeenAll(Puts(c, g, mem, w), w)), exec)
  {
    PutsOk(c, g, mem, w);
    if c.Plain? {
      PlainMirrors(c, g, m, exec, mem, w);
    } else {
      hide CallOk, Puts, WriterLayout;
      IrregularOp(c, g, w);
    }
  }

  lemma PlainMirrors(c: Call, g: GL, m: Mirror, exec: bool, mem: Memory, w: WordSize)
    requires CallOk(c, g, w) && Mirrors(g, m, exec) && c.Plain? && AllOk(Puts(c, g, mem, w), w)
    ensures Mirrors(Effect(g, c, w), PlayEffect(m, exec, c.Op(), SeenAll(Puts(c, g, mem, w), w)), exec)
  {
    hide WriterLayout;
    KindsGive(c.args);
    StateLayouts(c.opcode);
    SeenInts(c.args, w);
  }

  lemma StateLayouts(op: int32)
    ensures op == OPC_glBindBuffer ==> WriterLayout(op) == Some([KInt, KInt])
    ensures op == OPC_glVertexAttribPointer ==> WriterLayout(op) == Some([KInt, KInt, KInt, KInt, KInt, KPtr])
  {
  }

  lemma SeenInts(fs: seq<Field>, w: WordSize)
    requires AllOk(fs, w)
    ensures forall i :: 0 <= i < |fs| && fs[i].FInt? ==> SeenAll(fs, w)[i] == fs[i]
  {
  }

  lemma IrregularOp(c: Call, g: GL, w: WordSize)
    requires CallOk(c, g, w) && !c.Plain?
    ensures c.Op() != OPC_glBindBuffer && c.Op() != OPC_glEnableVertexAttribArray
    ensures c.Op() != OPC_glDisableVertexAttribArray && c.Op() != OPC_glVertexAttribPointer
  {
    hide WriterLayout;
  }

  // No opcode in use is a prefix, a terminator or the end mark.
  lemma RealOpcode(c: Call, g: GL, w: WordSize)
    requires CallOk(c, g, w)
    ensures c.Op() != OPC_NONE && c.Op() != OPC_EOF && c.Op() != OPC_THREAD
  {
    if c.Plain? {
      NoLayout();
    }
    hide WriterLayout;
  }

  lemma NoLayout()
    ensures WriterLayout(OPC_NONE).None? && WriterLayout(OPC_EOF).None? && WriterLayout(OPC_THREAD).None?
  {
  }

  // Every command is credited to its thread, though the thread is written only on a change.
  lemma CommandBack(last: uint64, thr: uint64, op: int32, w: WordSize, tail: seq<byte>)
    requires last < Range(w) && thr < Range(w)
    requires op != OPC_THREAD
    ensures GetCommand(PtrView(last, w), ThreadPrefix(last, thr, w) + EncInt(op) + tail, w) ==
            Command(PtrView(thr, w), op, tail)
  {
    IntBack(op, tail);
    if thr == last {
      assert [] + EncInt(op) + tail == EncInt(op) + tail;
    } else {
      hide EncInt, EncPtr, GetInt, GetPtr, PtrView;
      Assoc(EncInt(OPC_THREAD) + EncPtr(thr, w), EncInt(op), tail);
      Assoc(EncInt(OPC_THREAD), EncPtr(thr, w), EncInt(op) + tail);
      IntBack(OPC_THREAD, EncPtr(thr, w) + (EncInt(op) + tail));
      PtrBack(thr, w, EncInt(op) + tail);
    }
  }

  lemma Turn(m: Mirror, exec: bool, thread: uint64, frames: int, s: seq<byte>, w: WordSize,
             c: Command, o: Outcome, bgn: Got<uint64>, end: Got<uint64>)
    requires m.Valid() && frames != 0
    requires c == GetCommand(thread, s, w) && c.op != OPC_NONE && c.op != OPC_EOF
    requires o == GetArgs(c.op, m, exec, c.rest, w) && o.Parsed?
    requires bgn == GetLongLong(o.rest) && end == GetLongLong(bgn.rest)
    ensures var p := Process(PlayEffect(m, exec, c.op, o.args), exec, c.thread,
                             if c.op == OPC_eglSwapBuffers then frames - 1 else frames, end.rest, w);
            Process(m, exec, thread, frames, s, w) ==
            p.(log := [Entry(c.thread, c.op, o.args, bgn.value, end.value)] + p.log)
  {
    hide GetArgs, GetCommand, GetLongLong, PlayEffect;
  }

  // The bytes of an issued call, cut where the reader cuts them.
  lemma Cut(i: Issue, prefix: seq<byte>, g: GL, w: WordSize, tail: seq<byte>)
    requires CallOk(i.call, g, w)
    ensures AllOk(Puts(i.call, g, i.mem, w), w)
    ensures prefix + EncBody(i, g, w) + tail ==
            prefix + EncInt(i.call.Op()) + (EncFields(Puts(i.call, g, i.mem, w), w) +
                                            (EncLongLong(i.bgn) + (EncLongLong(i.end) + tail)))
  {
    PutsOk(i.call, g, i.mem, w);
    hide CallOk, Puts, AllOk, Call.Op, EncInt, EncFields, EncLongLong;
    var op, args := EncInt(i.call.Op()), EncFields(Puts(i.call, g, i.mem, w), w);
    var bgn, end := EncLongLong(i.bgn), EncLongLong(i.end);
    Assoc(prefix, op + args + (bgn + end), tail);
    Assoc(op + args, bgn + end, tail);
    Assoc(bgn, end, tail);
    Assoc(op, args, bgn + (end + tail));
    Assoc(prefix, op, args + (bgn + (end + tail)));
  }

  // One turn of the loop, where the case of the switch reads what was put.
  lemma TurnReads(i: Issue, last: uint64, g: GL, m: Mirror, exec: bool, frames: int, w: WordSize, tail: seq<byte>,
                  args: seq<Field>)
    requires last < Range(w) && i.thr < Range(w) && frames != 0 && m.Valid()
    requires CallOk(i.call, g, w) && AllOk(Puts(i.call, g, i.mem, w), w)
    requires var afterArgs := EncLongLong(i.bgn) + (EncLongLong(i.end) + tail);
             GetArgs(i.call.Op(), m, exec, EncFields(Puts(i.call, g, i.mem, w), w) + afterArgs, w) ==
             Parsed(args, afterArgs)
    ensures var e := Entry(PtrView(i.thr, w), i.call.Op(), args, i.bgn, i.end);
            var p := Process(PlayEffect(m, exec, e.op, e.args), exec, e.thr,
                             if e.op == OPC_eglSwapBuffers then frames - 1 else frames, tail, w);
            Process(m, exec, PtrView(last, w), frames, ThreadPrefix(last, i.thr, w) + EncBody(i, g, w) + tail, w) ==
            p.(log := [e] + p.log)
  {
    hide CallOk, Puts, AllOk, EncInt, EncFields, EncLongLong, ThreadPrefix, EncBody, SeenAll;
    hide GetArgs, GetCommand, GetLongLong, PlayEffect, Process, Call.Op, PtrView;
    var prefix, op := ThreadPrefix(last, i.thr, w), i.call.Op();
    var afterBgn := EncLongLong(i.end) + tail;
    var afterArgs := EncLongLong(i.bgn) + afterBgn;
    RealOpcode(i.call, g, w);
    Cut(i, prefix, g, w, tail);
    LongLongBack(i.bgn, afterBgn);
    LongLongBack(i.end, tail);
    var afterOp := EncFields(Puts(i.call, g, i.mem, w), w) + afterArgs;
    CommandBack(last, i.thr, op, w, afterOp);
    Turn(m, exec, PtrView(last, w), frames, prefix + EncInt(op) + afterOp, w,
         Command(PtrView(i.thr, w), op, afterOp), Parsed(args, afterArgs), Got(i.bgn, afterBgn), Got(i.end, tail));
  }

  // One turn of the loop reads one issued call.
  lemma TurnBack(i: Issue, last: uint64, g: GL, m: Mirror, exec: bool, frames: int, w: WordSize, tail: seq<byte>)
    requires last < Range(w) && i.thr < Range(w) && frames != 0
    requires CallOk(i.call, g, w) && Mirrors(g, m, exec) && ReadsBack(i.call, exec)
    ensures var e := SeenIssue(i, g, w);
            var p := Process(PlayEffect(m, exec, e.op, e.args), exec, e.thr,
                             if e.op == OPC_eglSwapBuffers then frames - 1 else frames, tail, w);
            Process(m, exec, PtrView(last, w), frames, ThreadPrefix(last, i.thr, w) + EncBody(i, g, w) + tail, w) ==
            p.(log := [e] + p.log)
  {
    hide CallOk, ReadsBack, Puts, AllOk, EncFields, EncLongLong, EncBody;
    hide SeenAll, GetArgs, PlayEffect, Process, Call.Op;
    CallBack(i.call, g, m, exec, i.mem, w, EncLongLong(i.bgn) + (EncLongLong(i.end) + tail));
    TurnReads(i, last, g, m, exec, frames, w, tail, SeenAll(Puts(i.call, g, i.mem, w), w));
  }

  // ---- Runs of calls ----

  lemma MirrorsMeans(g: GL, m: Mirror, exec: bool)
    requires Mirrors(g, m, exec)
    ensures g.Valid() && m.Valid()
  {
  }

  // The first call of a run, and the rest.
  lemma RunHead(issues: seq<Issue>, last: uint64, g: GL, w: WordSize)
    requires RunOk(issues, g, w) && issues != []
    ensures issues[0].thr < Range(w) && CallOk(issues[0].call, g, w)
    ensures var i, others, g' := issues[0], issues[1..], Effect(g, issues[0].call, w);
            && RunOk(others, g', w)
            && EncRun(issues, last, g, w) ==
               ThreadPrefix(last, i.thr, w) + EncBody(i, g, w) + EncRun(others, i.thr, g', w)
            && SeenRun(issues, g, w) == [SeenIssue(i, g, w)] + SeenRun(others, g', w)
            && SeenIssue(i, g, w).thr == PtrView(i.thr, w)
  {
    hide CallOk, Effect, EncBody, ThreadPrefix;
  }

  // Whatever follows in the stream is read in the states the calls left: the replayer's
  // shadow mirrors the recorder's after every call, and its running thread is the caller's.
  lemma {:induction false} RunBack(issues: seq<Issue>, last: uint64, g: GL, m: Mirror, exec: bool, frames: int,
                                   w: WordSize, tail: seq<byte>)
    requires last < Range(w) && frames < 0
    requires RunOk(issues, g, w) && Mirrors(g, m, exec) && AllReadBack(issues, exec)
    ensures var log := SeenRun(issues, g, w);
            && Mirrors(GLAfter(issues, g, w), MirrorAfter(log, m, exec), exec)
            && var p := Process(MirrorAfter(log, m, exec), exec, ThreadAfter(log, PtrView(last, w)),
                                FramesAfter(log, frames), tail, w);
               Process(m, exec, PtrView(last, w), frames, EncRun(issues, last, g, w) + tail, w) ==
               p.(log := log + p.log)
    decreases |issues|
  {
    hide CallOk, ReadsBack, AllOk, EncBody, ThreadPrefix, Process, Mirrors, PlayEffect, Effect;
    MirrorsMeans(g, m, exec);
    if issues == [] {
      assert [] + tail == tail;
      var p := Process(m, exec, PtrView(last, w), frames, tail, w);
      assert [] + p.log == p.log;
    } else {
      RunHead(issues, last, g, w);
      var i, others := issues[0], issues[1..];
      var g' := Effect(g, i.call, w);
      var e, log' := SeenIssue(i, g, w), SeenRun(others, g', w);
      var m' := PlayEffect(m, exec, e.op, e.args);
      var frames' := if e.op == OPC_eglSwapBuffers then frames - 1 else frames;
      var more := EncRun(others, i.thr, g', w) + tail;
      assert ReadsBack(i.call, exec);
      assert AllReadBack(others, exec);
      EffectMirrors(i.call, g, m, exec, i.mem, w);
      assert MirrorAfter([e] + log', m, exec) == MirrorAfter(log', m', exec);
      assert FramesAfter([e] + log', frames) == FramesAfter(log', frames');
      TurnBack(i, last, g, m, exec, frames, w, more);
      RunBack(others, i.thr, g', m', exec, frames', w, tail);
      assert ThreadAfter([e] + log', PtrView(last, w)) == ThreadAfter(log', e.thr);
      Assoc(ThreadPrefix(last, i.thr, w) + EncBody(i, g, w), EncRun(others, i.thr, g', w), tail);
      var p := Process(MirrorAfter(log', m', exec), exec, ThreadAfter(log', e.thr), FramesAfter(log', frames'),
                       tail, w);
      Assoc([e], log', p.log);
    }
  }

  // A call at which the replayer gives up is credited to its thread and to no call.
  lemma HaltTurn(i: Issue, last: uint64, g: GL, m: Mirror, exec: bool, frames: int, w: WordSize, tail: seq<byte>)
    requires last < Range(w) && i.thr < Range(w) && frames != 0 && m.Valid()
    requires CallOk(i.call, g, w) && Halts(i.call, exec)
    ensures var p := Process(m, exec, PtrView(last, w), frames,
                             ThreadPrefix(last, i.thr, w) + EncBody(i, g, w) + tail, w);
            && p.log == [] && p.thread == PtrView(i.thr, w) && p.mirror == m
            && p.stop == (if i.call.Plain? then Unknown else Exit)
  {
    var prefix, op := ThreadPrefix(last, i.thr, w), i.call.Op();
    var afterArgs := EncLongLong(i.bgn) + (EncLongLong(i.end) + tail);
    RealOpcode(i.call, g, w);
    Cut(i, prefix, g, w, tail);
    CallHalts(i.call, g, m, exec, i.mem, w, afterArgs);
    hide CallOk, Halts, Puts, AllOk, EncInt, EncFields, EncLongLong, ThreadPrefix, EncBody;
    hide GetArgs, GetCommand, GetLongLong, PlayEffect, Call.Op, PtrView;
    CommandBack(last, i.thr, op, w, EncFields(Puts(i.call, g, i.mem, w), w) + afterArgs);
  }

  // A run with such a call is replayed exactly as far as that call.
  lemma {:induction false} RunHalts(issues: seq<Issue>, k: nat, last: uint64, g: GL, m: Mirror, exec: bool, frames: int,
                                    w: WordSize, tail: seq<byte>)
    requires k < |issues| && last < Range(w) && frames < 0
    requires RunOk(issues, g, w) && Mirrors(g, m, exec) && AllReadBack(issues[..k], exec)
    requires Halts(issues[k].call, exec)
    ensures var p := Process(m, exec, PtrView(last, w), frames, EncRun(issues, last, g, w) + tail, w);
            && p.log == SeenRun(issues, g, w)[..k]
            && p.stop == (if issues[k].call.Plain? then Unknown else Exit)
    decreases k
  {
    hide CallOk, ReadsBack, Halts, AllOk, EncBody, ThreadPrefix, Process, PlayEffect, Effect;
    hide RunOk, EncRun, SeenRun, PtrView;
    RunHead(issues, last, g, w);
    var i, others := issues[0], issues[1..];
    var g' := Effect(g, i.call, w);
    var more := EncRun(others, i.thr, g', w) + tail;
    Assoc(ThreadPrefix(last, i.thr, w) + EncBody(i, g, w), EncRun(others, i.thr, g', w), tail);
    if k == 0 {
      HaltTurn(i, last, g, m, exec, frames, w, more);
    } else {
      var e := SeenIssue(i, g, w);
      var frames' := if e.op == OPC_eglSwapBuffers then frames - 1 else frames;
      assert ReadsBack(i.call, exec) by {
        assert issues[..k][0] == i;
      }
      assert issues[1..][..k - 1] == issues[..k][1..];
      assert ([e] + SeenRun(others, g', w))[..k] == [e] + SeenRun(others, g', w)[..k - 1];
      EffectMirrors(i.call, g, m, exec, i.mem, w);
      TurnBack(i, last, g, m, exec, frames, w, more);
      RunHalts(others, k - 1, i.thr, g', PlayEffect(m, exec, e.op, e.args), exec, frames', w, tail);
    }
  }

  // The reader accepts what iolib_init wrote and learns the word size.
  lemma HeaderBack(w: WordSize, tail: seq<byte>)
    ensures Open(Header(w) + tail) == Some(Got(w, tail))
  {
    hide EncInt, GetInt;
    var s4 := EncInt(w) + tail;
    var s3 := EncInt(VERSION_REV) + s4;
    var s2 := EncInt(VERSION_MINOR) + s3;
    var s1 := EncInt(VERSION_MAJOR) + s2;
    assert Header(w) + tail == EncInt(OPC_VERSION) + s1;
    IntBack(OPC_VERSION, s1);
    IntBack(VERSION_MAJOR, s2);
    IntBack(VERSION_MINOR, s3);
    IntBack(VERSION_REV, s4);
    IntBack(w, tail);
  }

  // The whole file: header accepted, every call reported in order with its thread, its
  // arguments and results and its times, every byte consumed, stop at the end of the trace.
  lemma WholeTrace(issues: seq<Issue>, exec: bool, w: WordSize)
    requires RunOk(issues, GL_INITIAL, w) && AllReadBack(issues, exec)
    ensures var file := Header(w) + EncRun(issues, 0, GL_INITIAL, w);
            && Open(file) == Some(Got(w, EncRun(issues, 0, GL_INITIAL, w)))
            && var p := Process(MIRROR_INITIAL, exec, 0, -1, EncRun(issues, 0, GL_INITIAL, w), w);
               && p.log == SeenRun(issues, GL_INITIAL, w)
               && p.rest == [] && p.stop == EndOfTrace
               && Mirrors(GLAfter(issues, GL_INITIAL, w), p.mirror, exec)
  {
    hide EncRun, SeenRun, Header, Mirrors, FramesAfter, ThreadAfter, MirrorAfter, Process, PtrView;
    var s, log := EncRun(issues, 0, GL_INITIAL, w), SeenRun(issues, GL_INITIAL, w);
    InitiallyMirrored(exec);
    FramesStayNegative(log, -1);
    PtrViewExact(0, w);
    HeaderBack(w, s);
    RunBack(issues, 0, GL_INITIAL, MIRROR_INITIAL, exec, -1, w, []);
    assert s + [] == s && log + [] == log;
    AtEnd(MirrorAfter(log, MIRROR_INITIAL, exec), exec, ThreadAfter(log, 0), FramesAfter(log, -1), w);
  }

  // And a file whose k-th call makes the replayer give up reports exactly the calls before it.
  lemma HaltedTrace(issues: seq<Issue>, k: nat, exec: bool, w: WordSize)
    requires k < |issues| && RunOk(issues, GL_INITIAL, w)
    requires AllReadBack(issues[..k], exec) && Halts(issues[k].call, exec)
    ensures var p := Process(MIRROR_INITIAL, exec, 0, -1, EncRun(issues, 0, GL_INITIAL, w), w);
            && p.log == SeenRun(issues, GL_INITIAL, w)[..k]
            && p.stop == (if issues[k].call.Plain? then Unknown else Exit)
  {
    hide EncRun, SeenRun, Mirrors, Process, PtrView, Halts;
    InitiallyMirrored(exec);
    PtrViewExact(0, w);
    RunHalts(issues, k, 0, GL_INITIAL, MIRROR_INITIAL, exec, -1, w, []);
    assert EncRun(issues, 0, GL_INITIAL, w) + [] == EncRun(issues, 0, GL_INITIAL, w);
  }

  lemma InitiallyMirrored(exec: bool)
    ensures Mirrors(GL_INITIAL, MIRROR_INITIAL, exec)
  {
  }

  lemma AtEnd(m: Mirror, exec: bool, thread: uint64, frames: int, w: WordSize)
    requires m.Valid() && frames != 0
    ensures Process(m, exec, thread, frames, [], w) == Played([], [], thread, m, EndOfTrace)
  {
  }

  lemma {:induction false} FramesStayNegative(log: seq<Entry>, frames: int)
    requires frames < 0
    ensures FramesAfter(log, frames) < 0
  {
    if log != [] {
      FramesStayNegative(log[1..], if log[0].op == OPC_eglSwapBuffers then frames - 1 else frames);
    }
  }

  // Where the loop stops it does so for every number of frames.
  lemma StopsAlike(m: Mirror, exec: bool, thread: uint64, a: int, b: int, s: seq<byte>, w: WordSize)
    requires m.Valid() && a != 0 && b != 0
    requires var c := GetCommand(thread, s, w);
             c.op == OPC_NONE || c.op == OPC_EOF || !GetArgs(c.op, m, exec, c.rest, w).Parsed?
    ensures var p := Process(m, exec, thread, a, s, w);
            p == Process(m, exec, thread, b, s, w) && p.stop != FrameLimit && p.mirror == m && p.log == []
  {
    hide GetArgs, GetCommand, GetLongLong, PlayEffect;
  }

  lemma NoFrames(m: Mirror, exec: bool, thread: uint64, s: seq<byte>, w: WordSize)
    requires m.Valid()
    ensures Process(m, exec, thread, 0, s, w) == Played([], s, thread, m, FrameLimit)
  {
  }

  // Stepping a frames and then b frames is stepping a + b frames.
  lemma {:induction false} Resume(m: Mirror, exec: bool, thread: uint64, a: nat, b: nat, s: seq<byte>, w: WordSize)
    requires m.Valid()
    ensures var p := Process(m, exec, thread, a, s, w);
            && p.mirror.Valid()
            && (p.stop == FrameLimit ==>
                  var q := Process(p.mirror, exec, p.thread, b, p.rest, w);
                  Process(m, exec, thread, a + b, s, w) == q.(log := p.log + q.log))
            && (p.stop != FrameLimit ==> Process(m, exec, thread, a + b, s, w) == p)
    decreases |s|
  {
    hide GetArgs, GetCommand, GetLongLong, PlayEffect, Process;
    var c := GetCommand(thread, s, w);
    if a == 0 {
      NoFrames(m, exec, thread, s, w);
      var q := Process(m, exec, thread, b, s, w);
      assert [] + q.log == q.log;
    } else if c.op == OPC_NONE || c.op == OPC_EOF || !GetArgs(c.op, m, exec, c.rest, w).Parsed? {
      StopsAlike(m, exec, thread, a, a + b, s, w);
    } else {
      var o := GetArgs(c.op, m, exec, c.rest, w);
      var bgn := GetLongLong(o.rest);
      var end := GetLongLong(bgn.rest);
      Turn(m, exec, thread, a, s, w, c, o, bgn, end);
      Turn(m, exec, thread, a + b, s, w, c, o, bgn, end);
      var m' := PlayEffect(m, exec, c.op, o.args);
      var a' := if c.op == OPC_eglSwapBuffers then a - 1 else a;
      Resume(m', exec, c.thread, a', b, end.rest, w);
      var first := [Entry(c.thread, c.op, o.args, bgn.value, end.value)];
      var p := Process(m', exec, c.thread, a', end.rest, w);
      if p.stop == FrameLimit {
        Assoc(first, p.log, Process(p.mirror, exec, p.thread, b, p.rest, w).log);
      }
    }
  }

  // ---- The limit of frames ----

  function Swaps(log: seq<Entry>): nat {
    if log == [] then 0 else (if log[0].op == 730 then 1 else 0) + Swaps(log[1..])
  }

  // A replay of n frames stops at the limit exactly when it has seen n calls of
  // eglSwapBuffers, right behind the last one, and never sees more.
  lemma {:induction false} FramesSeen(m: Mirror, exec: bool, thread: uint64, n: nat, s: seq<byte>, w: WordSize)
    requires m.Valid()
    ensures var p := Process(m, exec, thread, n, s, w);
            && Swaps(p.log) <= n && (p.stop == FrameLimit <==> Swaps(p.log) == n)
            && (p.stop == FrameLimit && n > 0 ==> p.log != [] && p.log[|p.log| - 1].op == 730)
    decreases |s|
  {
    hide GetArgs, GetCommand, GetLongLong, PlayEffect, Process, Swaps;
    var c := GetCommand(thread, s, w);
    NoSwaps();
    if n == 0 {
      NoFrames(m, exec, thread, s, w);
    } else if c.op == OPC_NONE || c.op == OPC_EOF || !GetArgs(c.op, m, exec, c.rest, w).Parsed? {
      StopsAlike(m, exec, thread, n, n, s, w);
    } else {
      var o := GetArgs(c.op, m, exec, c.rest, w);
      var bgn := GetLongLong(o.rest);
      var end := GetLongLong(bgn.rest);
      Turn(m, exec, thread, n, s, w, c, o, bgn, end);
      var m', n' := PlayEffect(m, exec, c.op, o.args), if c.op == OPC_eglSwapBuffers then n - 1 else n;
      FramesSeen(m', exec, c.thread, n', end.rest, w);
      var rest := Process(m', exec, c.thread, n', end.rest, w).log;
      SwapsCons(Entry(c.thread, c.op, o.args, bgn.value, end.value), rest);
      if n' == 0 {
        NoFrames(m', exec, c.thread, end.rest, w);
      }
    }
  }

  lemma NoSwaps()
    ensures Swaps([]) == 0
  {
  }

  lemma SwapsCons(e: Entry, rest: seq<Entry>)
    ensures Swaps([e] + rest) == (if e.op == 730 then 1 else 0) + Swaps(rest)
    ensures ([e] + rest)[|rest|] == if rest == [] then e else rest[|rest| - 1]
  {
    assert ([e] + rest)[1..] == rest;
  }
}
