// The wrappers of gles.c on several threads: what they read and write of the shared shadow
// state, and when. All of it is done under the lock but for one thing: glBindBuffer notes the
// buffer after it has released it.

module ThreadedCalls {
  import opened Seqs
  import opened Words
  import opened Format
  import opened Records
  import opened Calls
  import opened TraceWriter
  import opened Replay
  import opened RoundTrip
  import opened Traces
  import opened Threads

  // ---- A draw between shadow states that differ ----

  predicate SameBinding(a: int32, b: int32) {
    (a == 0) == (b == 0)
  }

  function Lit(attribs: seq<VertexAttrib>): nat {
    if attribs == [] then 0 else Lit(attribs[..|attribs| - 1]) + if attribs[|attribs| - 1].enabled then 1 else 0
  }

  // How many attribute arrays go with a draw.
  function Arrays(g: GL): nat {
    if g.arrayBuf == 0 then Lit(g.attribs) else 0
  }

  function ArraysRead(m: Mirror): nat {
    if m.arrayBuf == 0 then Enabled(m.attribs) else 0
  }

  lemma {:induction false} LitAlike(attribs: seq<VertexAttrib>, mirrored: seq<MirrorAttrib>)
    requires |attribs| == |mirrored| && forall i :: 0 <= i < |attribs| ==> attribs[i].enabled == mirrored[i].enabled
    ensures Lit(attribs) == Enabled(mirrored)
  {
    if attribs != [] {
      LitAlike(attribs[..|attribs| - 1], mirrored[..|attribs| - 1]);
    }
  }

  lemma SameArrays(g: GL, m: Mirror, exec: bool)
    requires Mirrors(g, m, exec)
    ensures Arrays(g) == ArraysRead(m) && m.elemBuf == g.elemBuf
  {
    LitAlike(g.attribs, m.attribs);
  }

  // A replayer's shadow state that agrees in all.
  function MirrorOf(g: GL): (m: Mirror)
    requires g.Valid()
    ensures Mirrors(g, m, true)
  {
    Mirror(g.arrayBuf, g.elemBuf,
           seq(|g.attribs|, i requires 0 <= i < |g.attribs| =>
             MirrorAttrib(g.attribs[i].enabled, g.attribs[i].size, g.attribs[i].typ, g.attribs[i].normalized)))
  }

  // How many arguments the case reads, and what stands for the indices.
  lemma DrawShape(m: Mirror, s: seq<byte>, w: WordSize)
    ensures var o := GetDraw(m, s, w);
            && o.Parsed?
            && |o.args| == 4 + ArraysRead(m)
            && (o.args[3].FPtr? <==> m.elemBuf != 0)
  {
    hide Enabled, GetField, Kinds;
    var ks := [KInt, KInt, KInt, if m.elemBuf != 0 then KPtr else KBytes];
    var a := Then(Parsed([], s), ks, w);
    assert a.args == GetFields(ks, s, w).value;
    KindsGive(a.args);
    assert a.args[3].Kind() == ks[3];
  }

  // Only the number of arrays matters, and whether the element buffer is 0.
  lemma DrawDepends(m: Mirror, m': Mirror, s: seq<byte>, w: WordSize)
    requires ArraysRead(m) == ArraysRead(m') && SameBinding(m.elemBuf, m'.elemBuf)
    ensures GetDraw(m, s, w) == GetDraw(m', s, w)
  {
    hide Enabled, Then;
  }

  // Whatever shadow states the recorder and the replayer have: glDrawElements is read back if
  // and only if both have an element buffer or neither has, and as many arrays are read as
  // were put. Otherwise other arguments are read.
  lemma DrawSync(c: Call, view: GL, g: GL, m: Mirror, exec: bool, mem: Memory, w: WordSize, tail: seq<byte>)
    requires CallOk(c, view, w) && c.DrawElements? && Mirrors(g, m, exec)
    ensures AllOk(Puts(c, view, mem, w), w)
    ensures var o := GetDraw(m, EncFields(Puts(c, view, mem, w), w) + tail, w);
            if SameBinding(view.elemBuf, g.elemBuf) && Arrays(view) == Arrays(g)
            then o == Parsed(SeenAll(Puts(c, view, mem, w), w), tail)
            else o.Parsed? && o.args != SeenAll(Puts(c, view, mem, w), w)
  {
    CallValid(c, view, w);
    hide CallOk, Mirrors, Puts, EncFields, SeenAll, AllOk, GetDraw, Enabled, Arrays, ArraysRead, MirrorOf;
    var m' := MirrorOf(view);
    DrawBack(c, view, m', true, mem, w, tail);
    var s := EncFields(Puts(c, view, mem, w), w) + tail;
    DrawShape(m, s, w);
    DrawShape(m', s, w);
    SameArrays(g, m, exec);
    SameArrays(view, m', true);
    if SameBinding(view.elemBuf, g.elemBuf) && Arrays(view) == Arrays(g) {
      DrawDepends(m, m', s, w);
    }
  }

  lemma CallValid(c: Call, g: GL, w: WordSize)
    requires CallOk(c, g, w)
    ensures g.Valid()
  {
  }

  // ---- Recorded calls that saw a shadow state of their own ----

  predicate IsBind(c: Call) {
    c.Plain? && c.opcode == OPC_glBindBuffer
  }

  // What glBindBuffer notes at the end.
  datatype Bind = Bind(target: int32, buffer: int32) {
    function On(g: GL): (g': GL)
      ensures g'.attribs == g.attribs
    {
      if target == GL_ARRAY_BUFFER then g.(arrayBuf := buffer)
      else if target == GL_ELEMENT_ARRAY_BUFFER then g.(elemBuf := buffer)
      else g
    }
  }

  ghost function BindOf(c: Call, w: WordSize): Bind
    requires IsBind(c) && ArgsOk(c, w)
  {
    StateLayouts(OPC_glBindBuffer);
    KindsGive(c.args);
    Bind(c.args[0].i, c.args[1].i)
  }

  // What the wrapper asks of its caller, the vertices of a draw aside: it is asked in a state
  // with an array buffer.
  ghost predicate ArgsOk(c: Call, w: WordSize) {
    exists g: GL :: g.arrayBuf != 0 && CallOk(c, g, w)
  }

  lemma ArgsEnough(c: Call, g: GL, w: WordSize)
    requires ArgsOk(c, w) && g.Valid()
    requires c.DrawElements? && g.arrayBuf == 0 ==> VertexOk(g, Count(VertexCount(c.count)))
    ensures CallOk(c, g, w)
  {
    hide WriterLayout, VertexOk, SourcesOk, AllOk;
  }

  lemma ArgsNeeded(c: Call, g: GL, w: WordSize)
    requires CallOk(c, g, w)
    ensures ArgsOk(c, w)
  {
    var bound := GL(1, 0, g.attribs);
    ArgsMoved(c, g, bound, w);
  }

  lemma ArgsMoved(c: Call, g: GL, bound: GL, w: WordSize)
    requires CallOk(c, g, w) && bound.Valid() && bound.arrayBuf != 0
    ensures CallOk(c, bound, w)
  {
    hide WriterLayout, VertexOk, SourcesOk, AllOk;
  }

  // A recorded call, and the shadow state as its reads found it.
  datatype Rec = Rec(i: Issue, view: GL)

  predicate RecOk(r: Rec, w: WordSize) {
    r.i.thr < Range(w) && CallOk(r.i.call, r.view, w)
  }

  ghost predicate AllRecOk(recs: seq<Rec>, w: WordSize) {
    forall r :: r in recs ==> RecOk(r, w)
  }

  // What a call does to a shadow state that is as it finds it.
  ghost function EffectOf(g: GL, c: Call, w: WordSize): (g': GL)
    requires ArgsOk(c, w) && g.Valid()
    ensures g'.Valid()
  {
    if c.DrawElements? then g
    else
      ArgsEnough(c, g, w);
      Effect(g, c, w)
  }

  // The shadow state of the replayer, for whom the record does all that the call does.
  ghost function Follow(g: GL, r: Rec, w: WordSize): (g': GL)
    requires RecOk(r, w) && g.Valid()
    ensures g'.Valid()
  {
    ArgsNeeded(r.i.call, r.view, w);
    EffectOf(g, r.i.call, w)
  }

  ghost function After(recs: seq<Rec>, g: GL, w: WordSize): (g': GL)
    requires AllRecOk(recs, w) && g.Valid()
    ensures g'.Valid()
    decreases |recs|
  {
    if recs == [] then g else After(recs[1..], Follow(g, recs[0], w), w)
  }

  predicate NoneEnabled(g: GL) {
    forall a :: a in g.attribs ==> !a.enabled
  }

  // A draw found the element buffer bound, or not, as the replayer will, and put as many
  // arrays as the replayer will read.
  predicate InSync(r: Rec, g: GL) {
    r.i.call.DrawElements? ==> SameBinding(r.view.elemBuf, g.elemBuf) && Arrays(r.view) == Arrays(g)
  }

  ghost predicate AllInStep(recs: seq<Rec>, g: GL, w: WordSize)
    requires AllRecOk(recs, w) && g.Valid()
    decreases |recs|
  {
    recs == [] || (InSync(recs[0], g) && AllInStep(recs[1..], Follow(g, recs[0], w), w))
  }

  function PieceOf(r: Rec, w: WordSize): (p: Piece)
    requires RecOk(r, w)
    ensures p.thr == r.i.thr && p.thr < Range(w)
  {
    Piece(r.i.thr, EncBody(r.i, r.view, w))
  }

  ghost function Pieces(recs: seq<Rec>, w: WordSize): (ps: seq<Piece>)
    requires AllRecOk(recs, w)
    ensures |ps| == |recs| && forall p :: p in ps ==> p.thr < Range(w)
  {
    seq(|recs|, k requires 0 <= k < |recs| => PieceOf(recs[k], w))
  }

  function SeenRec(r: Rec, w: WordSize): Entry
    requires RecOk(r, w)
  {
    SeenIssue(r.i, r.view, w)
  }

  ghost function SeenRecs(recs: seq<Rec>, w: WordSize): (log: seq<Entry>)
    requires AllRecOk(recs, w)
    ensures |log| == |recs|
  {
    seq(|recs|, k requires 0 <= k < |recs| => SeenRec(recs[k], w))
  }

  // ---- Reading them back ----

  lemma {:induction false} LitNone(attribs: seq<VertexAttrib>)
    ensures Lit(attribs) == 0 <==> forall a :: a in attribs ==> !a.enabled
  {
    if attribs != [] {
      var k := |attribs| - 1;
      LitNone(attribs[..k]);
      assert attribs == attribs[..k] + [attribs[k]];
    }
  }

  // Calls other than draws do not look at the shadow state.
  lemma PutsAnyhow(c: Call, g: GL, view: GL, mem: Memory, w: WordSize)
    requires CallOk(c, view, w) && g.Valid() && !c.DrawElements?
    ensures CallOk(c, g, w) && Puts(c, g, mem, w) == Puts(c, view, mem, w)
  {
    ArgsNeeded(c, view, w);
    ArgsEnough(c, g, w);
    hide WriterLayout;
  }

  lemma RecBack(r: Rec, g: GL, m: Mirror, exec: bool, w: WordSize, tail: seq<byte>)
    requires RecOk(r, w) && Mirrors(g, m, exec) && ReadsBack(r.i.call, exec)
    ensures AllOk(Puts(r.i.call, r.view, r.i.mem, w), w)
    ensures var puts := Puts(r.i.call, r.view, r.i.mem, w);
            var o := GetArgs(r.i.call.Op(), m, exec, EncFields(puts, w) + tail, w);
            if InSync(r, g) then o == Parsed(SeenAll(puts, w), tail) else o.Parsed? && o.args != SeenAll(puts, w)
  {
    hide CallOk, Puts, EncFields, SeenAll, AllOk, ReadsBack, GetArgs, GetDraw, Arrays, Call.Op;
    var c, mem := r.i.call, r.i.mem;
    if c.DrawElements? {
      DrawSync(c, r.view, g, m, exec, mem, w, tail);
      DrawOp(c, m, exec, EncFields(Puts(c, r.view, mem, w), w) + tail, w);
    } else {
      PutsAnyhow(c, g, r.view, mem, w);
      CallBack(c, g, m, exec, mem, w, tail);
    }
  }

  lemma DrawOp(c: Call, m: Mirror, exec: bool, s: seq<byte>, w: WordSize)
    requires c.DrawElements?
    ensures GetArgs(c.Op(), m, exec, s, w) == GetDraw(m, s, w)
  {
    hide GetDraw;
    Irregular(OPC_glDrawElements);
    hide WriterLayout;
  }

  // The replayer's shadow follows.
  lemma FollowMirrors(r: Rec, g: GL, m: Mirror, exec: bool, w: WordSize)
    requires RecOk(r, w) && Mirrors(g, m, exec) && g.Valid()
    ensures AllOk(Puts(r.i.call, r.view, r.i.mem, w), w)
    ensures Mirrors(Follow(g, r, w),
                    PlayEffect(m, exec, r.i.call.Op(), SeenAll(Puts(r.i.call, r.view, r.i.mem, w), w)), exec)
  {
    hide CallOk, Puts, SeenAll, AllOk, PlayEffect, Mirrors, Effect, Call.Op, ArgsOk;
    var c := r.i.call;
    ArgsNeeded(c, r.view, w);
    if c.DrawElements? {
      PutsOk(c, r.view, r.i.mem, w);
      DrawChangesNothing(c, g, m, exec, SeenAll(Puts(c, r.view, r.i.mem, w), w));
    } else {
      PutsAnyhow(c, g, r.view, r.i.mem, w);
      EffectMirrors(c, g, m, exec, r.i.mem, w);
    }
  }

  lemma DrawChangesNothing(c: Call, g: GL, m: Mirror, exec: bool, args: seq<Field>)
    requires c.DrawElements? && Mirrors(g, m, exec)
    ensures PlayEffect(m, exec, c.Op(), args) == m
  {
  }

  // Where the call is a right one there, the shadow state changes as for a single thread.
  lemma FollowIsEffect(r: Rec, g: GL, w: WordSize)
    requires RecOk(r, w) && g.Valid() && CallOk(r.i.call, g, w)
    ensures Follow(g, r, w) == Effect(g, r.i.call, w)
  {
    hide CallOk, WriterLayout, ArgsOk;
    ArgsNeeded(r.i.call, r.view, w);
  }

  lemma PiecesCons(recs: seq<Rec>, w: WordSize)
    requires recs != [] && AllRecOk(recs, w)
    ensures AllRecOk(recs[1..], w)
    ensures Pieces(recs, w) == [PieceOf(recs[0], w)] + Pieces(recs[1..], w)
    ensures SeenRecs(recs, w) == [SeenRec(recs[0], w)] + SeenRecs(recs[1..], w)
  {
    hide RecOk, PieceOf, SeenRec;
  }

  // A turn of the loop that reads other arguments than were put reports them.
  lemma TurnMisreads(i: Issue, last: uint64, g: GL, m: Mirror, exec: bool, frames: int, w: WordSize, tail: seq<byte>)
    requires last < Range(w) && i.thr < Range(w) && frames != 0 && m.Valid()
    requires CallOk(i.call, g, w) && AllOk(Puts(i.call, g, i.mem, w), w)
    requires var o := GetArgs(i.call.Op(), m, exec, EncFields(Puts(i.call, g, i.mem, w), w) +
                              (EncLongLong(i.bgn) + (EncLongLong(i.end) + tail)), w);
             o.Parsed? && o.args != SeenAll(Puts(i.call, g, i.mem, w), w)
    ensures var p := Process(m, exec, PtrView(last, w), frames,
                             ThreadPrefix(last, i.thr, w) + EncBody(i, g, w) + tail, w);
            p.log != [] && p.log[0] != SeenIssue(i, g, w)
  {
    hide CallOk, Puts, AllOk, EncInt, EncFields, EncLongLong, ThreadPrefix, EncBody, SeenAll;
    hide GetArgs, GetCommand, GetLongLong, PlayEffect, Process, Call.Op, PtrView;
    var prefix, op := ThreadPrefix(last, i.thr, w), i.call.Op();
    RealOpcode(i.call, g, w);
    Cut(i, prefix, g, w, tail);
    var afterOp := EncFields(Puts(i.call, g, i.mem, w), w) + (EncLongLong(i.bgn) + (EncLongLong(i.end) + tail));
    CommandBack(last, i.thr, op, w, afterOp);
    var o := GetArgs(op, m, exec, afterOp, w);
    var bgn := GetLongLong(o.rest);
    Turn(m, exec, PtrView(last, w), frames, prefix + EncInt(op) + afterOp, w,
         Command(PtrView(i.thr, w), op, afterOp), o, bgn, GetLongLong(bgn.rest));
  }

  // Whatever the calls saw, the file is read back in full if and only if every draw found the
  // element buffer as the replayer does and put as many arrays as that reads.
  lemma {:induction false} RecsBack(recs: seq<Rec>, last: uint64, g: GL, m: Mirror, exec: bool, frames: int,
                                    w: WordSize)
    requires last < Range(w) && frames < 0 && AllRecOk(recs, w) && Mirrors(g, m, exec) && g.Valid()
    requires forall r :: r in recs ==> ReadsBack(r.i.call, exec)
    ensures var p := Process(m, exec, PtrView(last, w), frames, Serial(Pieces(recs, w), last, w), w);
            if AllInStep(recs, g, w) then p.log == SeenRecs(recs, w) && p.rest == [] && p.stop == EndOfTrace
            else p.log != SeenRecs(recs, w)
    decreases |recs|
  {
    hide Process, Pieces, SeenRecs, Serial, Mirrors, PlayEffect, Follow;
    hide RecOk, ReadsBack, PtrView, InSync, SeenIssue, SeenRec;
    hide EncBody, ThreadPrefix, GetArgs, Puts, SeenAll, AllOk, EncFields, EncLongLong, Call.Op;
    MirrorsMeans(g, m, exec);
    if recs == [] {
      NoPieces(last, w);
      AtEnd(m, exec, PtrView(last, w), frames, w);
    } else {
      var r, rest := recs[0], recs[1..];
      PiecesCons(recs, w);
      var tail := Serial(Pieces(rest, w), r.i.thr, w);
      assert RecOk(r, w) && ReadsBack(r.i.call, exec);
      RecOkMeans(r, w);
      SerialCons(PieceOf(r, w), Pieces(rest, w), last, w);
      RecBack(r, g, m, exec, w, EncLongLong(r.i.bgn) + (EncLongLong(r.i.end) + tail));
      if InSync(r, g) {
        RecTurn(r, last, m, exec, frames, w, tail);
        FollowMirrors(r, g, m, exec, w);
        var e := SeenIssue(r.i, r.view, w);
        SeenMeans(r, w);
        var frames' := if e.op == OPC_eglSwapBuffers then frames - 1 else frames;
        RecsBack(rest, r.i.thr, Follow(g, r, w), PlayEffect(m, exec, e.op, e.args), exec, frames', w);
        var p := Process(PlayEffect(m, exec, e.op, e.args), exec, PtrView(r.i.thr, w), frames', tail, w);
        assert ([e] + p.log)[1..] == p.log && ([e] + SeenRecs(rest, w))[1..] == SeenRecs(rest, w);
      } else {
        TurnMisreads(r.i, last, r.view, m, exec, frames, w, tail);
      }
    }
  }

  lemma NoPieces(last: uint64, w: WordSize)
    ensures Pieces([], w) == [] && SeenRecs([], w) == [] && Serial([], last, w) == []
  {
  }

  lemma RecOkMeans(r: Rec, w: WordSize)
    requires RecOk(r, w)
    ensures r.i.thr < Range(w) && CallOk(r.i.call, r.view, w)
    ensures PieceOf(r, w).payload == EncBody(r.i, r.view, w) && SeenRec(r, w) == SeenIssue(r.i, r.view, w)
  {
  }

  lemma SeenMeans(r: Rec, w: WordSize)
    requires RecOk(r, w)
    ensures AllOk(Puts(r.i.call, r.view, r.i.mem, w), w)
    ensures SeenIssue(r.i, r.view, w) == Entry(PtrView(r.i.thr, w), r.i.call.Op(),
                                               SeenAll(Puts(r.i.call, r.view, r.i.mem, w), w), r.i.bgn, r.i.end)
  {
    PutsOk(r.i.call, r.view, r.i.mem, w);
  }

  lemma RecTurn(r: Rec, last: uint64, m: Mirror, exec: bool, frames: int, w: WordSize, tail: seq<byte>)
    requires last < Range(w) && frames != 0 && m.Valid() && RecOk(r, w)
    requires AllOk(Puts(r.i.call, r.view, r.i.mem, w), w)
    requires var afterArgs := EncLongLong(r.i.bgn) + (EncLongLong(r.i.end) + tail);
             GetArgs(r.i.call.Op(), m, exec, EncFields(Puts(r.i.call, r.view, r.i.mem, w), w) + afterArgs, w) ==
             Parsed(SeenAll(Puts(r.i.call, r.view, r.i.mem, w), w), afterArgs)
    ensures var e := SeenIssue(r.i, r.view, w);
            var p := Process(PlayEffect(m, exec, e.op, e.args), exec, PtrView(r.i.thr, w),
                             if e.op == OPC_eglSwapBuffers then frames - 1 else frames, tail, w);
            Process(m, exec, PtrView(last, w), frames,
                    ThreadPrefix(last, r.i.thr, w) + EncBody(r.i, r.view, w) + tail, w) ==
            p.(log := [e] + p.log)
  {
    hide CallOk, Puts, AllOk, EncFields, EncLongLong, EncBody, SeenAll;
    hide GetArgs, PlayEffect, Process, Call.Op, ThreadPrefix;
    SeenMeans(r, w);
    TurnReads(r.i, last, r.view, m, exec, frames, w, tail, SeenAll(Puts(r.i.call, r.view, r.i.mem, w), w));
  }

  // ---- The wrappers as steps of their threads ----

  // Where the outermost wrapper in progress is: behind putCmd, behind the puts that depend on
  // the element buffer, behind those that depend on the array buffer.
  datatype Stage = Idle | Begun(i: Issue) | Headed(i: Issue, elem: int32) | Full(r: Rec)

  // late holds what each thread has recorded and not yet noted; recs is what has been recorded.
  datatype State = State(m: Machine, gl: GL, stage: Stage, late: map<uint64, Bind>, recs: seq<Rec>)

  // Inner is a step of a wrapper that the forwarded call enters again, Within what such a
  // wrapper does to the shadow state.
  datatype Event = Begin(i: Issue) | PutArgs | PutBlobs | Finish | Note(thr: uint64) | Inner(s: Step)
                 | Within(c: Call)

  // The puts of a wrapper that come before a look at the array buffer.
  ghost function HeadPuts(c: Call, bound: GL, mem: Memory, w: WordSize): (fs: seq<Field>)
    requires ArgsOk(c, w) && bound.Valid() && bound.arrayBuf != 0
    ensures AllOk(fs, w)
  {
    ArgsEnough(c, bound, w);
    PutsOk(c, bound, mem, w);
    Puts(c, bound, mem, w)
  }

  predicate BlobsOk(c: Call, g: GL) {
    c.DrawElements? && g.arrayBuf == 0 ==> VertexOk(g, Count(VertexCount(c.count)))
  }

  function BlobPuts(c: Call, g: GL, mem: Memory, w: WordSize): (fs: seq<Field>)
    requires BlobsOk(c, g)
    ensures AllOk(fs, w)
  {
    if c.DrawElements? && g.arrayBuf == 0 then
      VertexPutsOk(g, mem, Count(VertexCount(c.count)), MAX_VERTEX_ATTRIBS, w);
      VertexPuts(g, mem, Count(VertexCount(c.count)), MAX_VERTEX_ATTRIBS)
    else []
  }

  // Together they are the puts of a wrapper that saw both buffers at once.
  lemma PutsSplit(c: Call, view: GL, bound: GL, mem: Memory, w: WordSize)
    requires ArgsOk(c, w) && view.Valid() && BlobsOk(c, view)
    requires bound.Valid() && bound.arrayBuf != 0 && bound.elemBuf == view.elemBuf
    ensures CallOk(c, view, w)
    ensures Puts(c, view, mem, w) == HeadPuts(c, bound, mem, w) + BlobPuts(c, view, mem, w)
  {
    hide ArgsOk, WriterLayout, VertexOk, SourcesOk, AllOk, VertexPuts, SourcePuts, AttrPuts;
    ArgsEnough(c, view, w);
    ArgsEnough(c, bound, w);
    if c.DrawElements? {
      assert IndexPut(bound, mem, c.count, c.typ, c.indices) == IndexPut(view, mem, c.count, c.typ, c.indices);
    }
  }

  ghost predicate StageOk(st: State, w: WordSize) {
    match st.stage
    case Idle => st.m.depth == 0
    case Begun(i) => st.m.depth > 0 && st.m.owner == Some(i.thr) && i.thr !in st.late && ArgsOk(i.call, w)
    case Headed(i, _) => st.m.depth > 0 && st.m.owner == Some(i.thr) && i.thr !in st.late && ArgsOk(i.call, w)
    case Full(r) =>
      st.m.depth > 0 && st.m.owner == Some(r.i.thr) && r.i.thr !in st.late && RecOk(r, w)
  }

  ghost predicate StateOk(st: State, w: WordSize) {
    st.m.Valid(w) && st.gl.Valid() && AllRecOk(st.recs, w) && StageOk(st, w)
  }

  // A thread begins a call when it has noted its last one; a look at the shadow state happens
  // at depth 1; a note needs no lock.
  ghost predicate CanDo(st: State, e: Event, w: WordSize) {
    match e
    case Begin(i) =>
      st.stage.Idle? && CanTake(st.m, Cmd(i.thr, i.call.Op()), w) && i.thr !in st.late && ArgsOk(i.call, w)
    case PutArgs => st.stage.Begun? && st.m.depth == 1
    case PutBlobs => st.stage.Headed? && st.m.depth == 1 && BlobsOk(st.stage.i.call, st.gl)
    case Finish => st.stage.Full? && st.m.depth == 1
    case Note(thr) => thr in st.late
    case Inner(s) => !st.stage.Idle? && CanTake(st.m, s, w) && (s.Cmd? || st.m.depth > 1)
    case Within(c) => !st.stage.Idle? && ArgsOk(c, w)
  }

  // The state behind which the head of a wrapper is put, as far as that matters.
  function Bound(elem: int32, g: GL): (bound: GL)
    requires g.Valid()
    ensures bound.Valid()
  {
    GL(1, elem, g.attribs)
  }

  ghost function HeadBytes(i: Issue, bound: GL, w: WordSize): seq<byte>
    requires ArgsOk(i.call, w) && bound.Valid() && bound.arrayBuf != 0
  {
    EncFields(HeadPuts(i.call, bound, i.mem, w), w)
  }

  function BlobBytes(i: Issue, g: GL, w: WordSize): seq<byte>
    requires BlobsOk(i.call, g)
  {
    EncFields(BlobPuts(i.call, g, i.mem, w), w)
  }

  function TimeBytes(i: Issue): seq<byte> {
    EncLongLong(i.bgn) + EncLongLong(i.end)
  }

  ghost function DoFinish(st: State, r: Rec, w: WordSize): (st': State)
    requires st.m.Valid(w) && st.m.depth == 1 && st.m.owner == Some(r.i.thr) && RecOk(r, w) && st.gl.Valid()
  {
    ArgsNeeded(r.i.call, r.view, w);
    State(Next(Next(st.m, Put(r.i.thr, TimeBytes(r.i)), w), End(r.i.thr), w),
          st.gl.(attribs := EffectOf(st.gl, r.i.call, w).attribs), Idle,
          if IsBind(r.i.call) then st.late[r.i.thr := BindOf(r.i.call, w)] else st.late, st.recs + [r])
  }

  ghost function Do(st: State, e: Event, w: WordSize): (st': State)
    requires StateOk(st, w) && CanDo(st, e, w)
  {
    match e
    case Begin(i) => st.(m := Next(st.m, Cmd(i.thr, i.call.Op()), w), stage := Begun(i))
    case PutArgs =>
      st.(m := Next(st.m, Put(st.stage.i.thr, HeadBytes(st.stage.i, Bound(st.gl.elemBuf, st.gl), w)), w),
          stage := Headed(st.stage.i, st.gl.elemBuf))
    case PutBlobs =>
      st.(m := Next(st.m, Put(st.stage.i.thr, BlobBytes(st.stage.i, st.gl, w)), w),
          stage := Full(Rec(st.stage.i, st.gl.(elemBuf := st.stage.elem))))
    case Finish => DoFinish(st, st.stage.r, w)
    case Note(thr) => st.(gl := st.late[thr].On(st.gl), late := st.late - {thr})
    case Inner(s) => st.(m := Next(st.m, s, w))
    case Within(c) => st.(gl := EffectOf(st.gl, c, w))
  }

  lemma DoOk(st: State, e: Event, w: WordSize)
    requires StateOk(st, w) && CanDo(st, e, w)
    ensures StateOk(Do(st, e, w), w)
  {
    hide ArgsOk, Puts, HeadBytes, BlobBytes, TimeBytes, EncInt, ThreadPrefix, CallOk, EffectOf, BindOf, VertexOk;
    if e.PutBlobs? {
      var view := st.gl.(elemBuf := st.stage.elem);
      BlobsElsewhere(st.stage.i.call, st.gl, view);
      PutsSplit(st.stage.i.call, view, Bound(st.stage.elem, st.gl), st.stage.i.mem, w);
    }
  }

  lemma BlobsElsewhere(c: Call, g: GL, view: GL)
    requires BlobsOk(c, g) && view.attribs == g.attribs && view.arrayBuf == g.arrayBuf
    ensures BlobsOk(c, view)
  {
  }

  ghost predicate CanDoAll(st: State, es: seq<Event>, w: WordSize)
    requires StateOk(st, w)
    decreases |es|
  {
    es == [] ||
    (CanDo(st, es[0], w) && (DoOk(st, es[0], w); CanDoAll(Do(st, es[0], w), es[1..], w)))
  }

  ghost function DoAll(st: State, es: seq<Event>, w: WordSize): (st': State)
    requires StateOk(st, w) && CanDoAll(st, es, w)
    ensures StateOk(st', w)
    decreases |es|
  {
    if es == [] then st else (DoOk(st, es[0], w); DoAll(Do(st, es[0], w), es[1..], w))
  }

  // ---- Every run ----

  function LastThread(recs: seq<Rec>): uint64 {
    if recs == [] then 0 else recs[|recs| - 1].i.thr
  }

  // What has been put of the wrapper in progress.
  ghost function OpenBytes(st: State, w: WordSize): seq<byte>
    requires StateOk(st, w) && LastThread(st.recs) < Range(w)
  {
    match st.stage
    case Idle => []
    case Begun(i) => OpenHead(st.recs, i, w)
    case Headed(i, elem) => OpenHead(st.recs, i, w) + HeadBytes(i, Bound(elem, st.gl), w)
    case Full(r) => OpenHead(st.recs, r.i, w) + RecBytes(r, w)
  }

  function OpenHead(recs: seq<Rec>, i: Issue, w: WordSize): seq<byte>
    requires i.thr < Range(w) && LastThread(recs) < Range(w)
  {
    ThreadPrefix(LastThread(recs), i.thr, w) + EncInt(i.call.Op())
  }

  function RecBytes(r: Rec, w: WordSize): seq<byte>
    requires RecOk(r, w)
  {
    PutsOk(r.i.call, r.view, r.i.mem, w);
    EncFields(Puts(r.i.call, r.view, r.i.mem, w), w)
  }

  // In every interleaving, at every nesting depth: the stream is the start, the recorded
  // commands and what has been put of the one in progress.
  ghost predicate Recorded(st: State, start: seq<byte>, w: WordSize) {
    && StateOk(st, w)
    && LastThread(st.recs) < Range(w)
    && st.m.curThread == ThreadNow(st)
    && st.m.bytes == start + Serial(Pieces(st.recs, w), 0, w) + OpenBytes(st, w)
  }

  function ThreadNow(st: State): uint64 {
    match st.stage
    case Idle => LastThread(st.recs)
    case Begun(i) => i.thr
    case Headed(i, _) => i.thr
    case Full(r) => r.i.thr
  }

  // What one more record changes.
  lemma {:induction false} RecsSnoc(recs: seq<Rec>, r: Rec, g: GL, w: WordSize)
    requires AllRecOk(recs, w) && RecOk(r, w) && g.Valid()
    ensures AllRecOk(recs + [r], w)
    ensures After(recs + [r], g, w) == Follow(After(recs, g, w), r, w)
    decreases |recs|
  {
    hide RecOk, Follow;
    if recs == [] {
      assert [] + [r] == [r] && [r][1..] == [];
    } else {
      assert (recs + [r])[0] == recs[0] && (recs + [r])[1..] == recs[1..] + [r];
      RecsSnoc(recs[1..], r, Follow(g, recs[0], w), w);
    }
  }

  lemma PiecesSnoc(recs: seq<Rec>, r: Rec, w: WordSize)
    requires AllRecOk(recs, w) && RecOk(r, w)
    ensures AllRecOk(recs + [r], w)
    ensures Pieces(recs + [r], w) == Pieces(recs, w) + [PieceOf(r, w)]
    ensures |Pieces(recs, w)| == |recs|
    ensures recs != [] ==> Pieces(recs, w)[|recs| - 1].thr == LastThread(recs)
  {
    hide RecOk, EncBody;
    if recs != [] {
      assert RecOk(recs[|recs| - 1], w);
      assert Pieces(recs, w)[|recs| - 1] == PieceOf(recs[|recs| - 1], w);
    }
  }

  // The stream with one more record.
  lemma StreamSnoc(recs: seq<Rec>, r: Rec, w: WordSize)
    requires AllRecOk(recs, w) && RecOk(r, w) && LastThread(recs) < Range(w)
    ensures AllRecOk(recs + [r], w)
    ensures Serial(Pieces(recs + [r], w), 0, w) ==
            Serial(Pieces(recs, w), 0, w) + (OpenHead(recs, r.i, w) + RecBytes(r, w) + TimeBytes(r.i))
  {
    hide Serial, Pieces, ThreadPrefix, EncInt, EncFields, EncLongLong, CallOk, Puts;
    PiecesSnoc(recs, r, w);
    SerialNext(Pieces(recs, w), PieceOf(r, w), w);
    var prefix, op := ThreadPrefix(LastThread(recs), r.i.thr, w), EncInt(r.i.call.Op());
    Assoc(prefix, op, RecBytes(r, w));
    Assoc(prefix, op + RecBytes(r, w), TimeBytes(r.i));
  }

  lemma FinishSteps(m: Machine, r: Rec, w: WordSize)
    requires m.Valid(w) && m.depth == 1 && m.owner == Some(r.i.thr) && RecOk(r, w)
    ensures var timed := Next(m, Put(r.i.thr, TimeBytes(r.i)), w);
            && CanTake(timed, End(r.i.thr), w)
            && Next(timed, End(r.i.thr), w) == Machine(None, 0, m.curThread, m.bytes + TimeBytes(r.i))
  {
    hide CallOk, TimeBytes;
  }

  lemma FinishKeeps(st: State, start: seq<byte>, w: WordSize)
    requires Recorded(st, start, w) && CanDo(st, Finish, w)
    ensures Recorded(Do(st, Finish, w), start, w)
  {
    hide Serial, Pieces, TimeBytes, RecBytes, OpenHead, RecOk, EffectOf;
    hide AllRecOk, Machine.Valid, CallOk, ArgsOk, BindOf, EncBody, Next;
    DoOk(st, Finish, w);
    var r := st.stage.r;
    RecOkMeans(r, w);
    FinishSteps(st.m, r, w);
    StreamSnoc(st.recs, r, w);
    var open := OpenHead(st.recs, r.i, w) + RecBytes(r, w);
    Assoc(start + Serial(Pieces(st.recs, w), 0, w), open, TimeBytes(r.i));
    Assoc(start, Serial(Pieces(st.recs, w), 0, w), open + TimeBytes(r.i));
    var bytes := start + Serial(Pieces(st.recs + [r], w), 0, w);
    assert bytes + [] == bytes;
  }

  lemma PutArgsKeeps(st: State, start: seq<byte>, w: WordSize)
    requires Recorded(st, start, w) && CanDo(st, PutArgs, w)
    ensures Recorded(Do(st, PutArgs, w), start, w)
  {
    hide Serial, Pieces, HeadBytes, OpenHead, ThreadPrefix, EncInt, ArgsOk;
    DoOk(st, PutArgs, w);
    var i := st.stage.i;
    Assoc(start + Serial(Pieces(st.recs, w), 0, w), OpenHead(st.recs, i, w),
          HeadBytes(i, Bound(st.gl.elemBuf, st.gl), w));
  }

  lemma PutBlobsKeeps(st: State, start: seq<byte>, w: WordSize)
    requires Recorded(st, start, w) && CanDo(st, PutBlobs, w)
    ensures Recorded(Do(st, PutBlobs, w), start, w)
  {
    hide Serial, Pieces, HeadBytes, BlobBytes, RecBytes, OpenHead, ThreadPrefix, EncInt, ArgsOk;
    hide CallOk, VertexOk;
    DoOk(st, PutBlobs, w);
    var i, view := st.stage.i, st.gl.(elemBuf := st.stage.elem);
    BlobsElsewhere(i.call, st.gl, view);
    var bound := Bound(st.stage.elem, st.gl);
    RecSplit(Rec(i, view), bound, st.gl, w);
    var head := HeadBytes(i, bound, w);
    Assoc(start + Serial(Pieces(st.recs, w), 0, w), OpenHead(st.recs, i, w) + head, BlobBytes(i, st.gl, w));
    Assoc(OpenHead(st.recs, i, w), head, BlobBytes(i, st.gl, w));
  }

  lemma RecSplit(r: Rec, bound: GL, g: GL, w: WordSize)
    requires RecOk(r, w) && ArgsOk(r.i.call, w) && BlobsOk(r.i.call, g) && g.Valid()
    requires r.view == g.(elemBuf := r.view.elemBuf) && bound == Bound(r.view.elemBuf, g)
    ensures RecBytes(r, w) == HeadBytes(r.i, bound, w) + BlobBytes(r.i, g, w)
  {
    hide Puts, HeadPuts, VertexPuts, VertexOk, ArgsOk, EncFields, CallOk;
    BlobsElsewhere(r.i.call, g, r.view);
    PutsSplit(r.i.call, r.view, bound, r.i.mem, w);
    SameBlobs(r.i.call, g, r.view, r.i.mem, w);
    EncFieldsAppend(HeadPuts(r.i.call, bound, r.i.mem, w), BlobPuts(r.i.call, r.view, r.i.mem, w), w);
  }

  lemma SameBlobs(c: Call, g: GL, view: GL, mem: Memory, w: WordSize)
    requires BlobsOk(c, g) && view.attribs == g.attribs && view.arrayBuf == g.arrayBuf && g.Valid()
    ensures BlobsOk(c, view) && BlobPuts(c, view, mem, w) == BlobPuts(c, g, mem, w)
  {
    if c.DrawElements? && g.arrayBuf == 0 {
      SameVertexPuts(g, view, mem, Count(VertexCount(c.count)), MAX_VERTEX_ATTRIBS);
    }
  }

  lemma {:induction false} SameVertexPuts(g: GL, view: GL, mem: Memory, n: nat, upto: nat)
    requires VertexOk(g, n) && view.attribs == g.attribs && upto <= MAX_VERTEX_ATTRIBS
    ensures VertexOk(view, n) && VertexPuts(view, mem, n, upto) == VertexPuts(g, mem, n, upto)
  {
    if upto > 0 {
      SameVertexPuts(g, view, mem, n, upto - 1);
    }
  }

  lemma BeginKeeps(st: State, i: Issue, start: seq<byte>, w: WordSize)
    requires Recorded(st, start, w) && CanDo(st, Begin(i), w)
    ensures Recorded(Do(st, Begin(i), w), start, w)
  {
    hide Serial, Pieces, ThreadPrefix, EncInt, ArgsOk, Call.Op;
    DoOk(st, Begin(i), w);
    assert st.m.bytes + OpenHead(st.recs, i, w) ==
           start + Serial(Pieces(st.recs, w), 0, w) + OpenHead(st.recs, i, w);
  }

  // The events that put nothing at depth 1.
  lemma QuietKeeps(st: State, e: Event, start: seq<byte>, w: WordSize)
    requires Recorded(st, start, w) && CanDo(st, e, w) && (e.Note? || e.Inner?)
    ensures Recorded(Do(st, e, w), start, w)
  {
    hide Serial, Pieces, ThreadPrefix, EncInt, ArgsOk, HeadBytes, RecBytes, OpenHead, RecOk;
    DoOk(st, e, w);
  }

  // Nor does what is put first depend on the attributes.
  lemma WithinKeeps(st: State, c: Call, start: seq<byte>, w: WordSize)
    requires Recorded(st, start, w) && CanDo(st, Within(c), w)
    ensures Recorded(Do(st, Within(c), w), start, w)
  {
    hide Serial, Pieces, ThreadPrefix, EncInt, ArgsOk, HeadBytes, RecBytes, OpenHead, RecOk, EffectOf;
    DoOk(st, Within(c), w);
    if st.stage.Headed? {
      SameHead(st.stage.i, Bound(st.stage.elem, st.gl), Bound(st.stage.elem, EffectOf(st.gl, c, w)), w);
    }
  }

  lemma SameHead(i: Issue, bound: GL, bound': GL, w: WordSize)
    requires ArgsOk(i.call, w) && bound.Valid() && bound.arrayBuf != 0 && bound'.Valid() && bound'.arrayBuf != 0
    requires bound.elemBuf == bound'.elemBuf
    ensures HeadBytes(i, bound, w) == HeadBytes(i, bound', w)
  {
    hide ArgsOk, WriterLayout, VertexOk, SourcesOk, AllOk, VertexPuts, SourcePuts, AttrPuts, EncFields;
    var c := i.call;
    ArgsEnough(c, bound, w);
    ArgsEnough(c, bound', w);
    if c.DrawElements? {
      assert IndexPut(bound, i.mem, c.count, c.typ, c.indices) == IndexPut(bound', i.mem, c.count, c.typ, c.indices);
    }
  }

  lemma EventKeeps(st: State, e: Event, start: seq<byte>, w: WordSize)
    requires Recorded(st, start, w) && CanDo(st, e, w)
    ensures Recorded(Do(st, e, w), start, w)
  {
    hide Recorded, CanDo, Do;
    match e
    case Begin(i) => BeginKeeps(st, i, start, w);
    case PutArgs => PutArgsKeeps(st, start, w);
    case PutBlobs => PutBlobsKeeps(st, start, w);
    case Finish => FinishKeeps(st, start, w);
    case Note(_) => QuietKeeps(st, e, start, w);
    case Inner(_) => QuietKeeps(st, e, start, w);
    case Within(c) => WithinKeeps(st, c, start, w);
  }

  lemma {:induction false} AlwaysRecorded(st: State, es: seq<Event>, start: seq<byte>, w: WordSize)
    requires Recorded(st, start, w) && CanDoAll(st, es, w)
    ensures Recorded(DoAll(st, es, w), start, w)
    decreases |es|
  {
    hide Recorded, CanDo, Do, StateOk;
    RecordedOk(st, start, w);
    if es != [] {
      DoOk(st, es[0], w);
      EventKeeps(st, es[0], start, w);
      AlwaysRecorded(Do(st, es[0], w), es[1..], start, w);
    }
  }

  lemma RecordedOk(st: State, start: seq<byte>, w: WordSize)
    requires Recorded(st, start, w)
    ensures StateOk(st, w) && AllRecOk(st.recs, w)
  {
  }

  // When the header has been written and nothing else has happened.
  predicate AtStart(st: State, w: WordSize) {
    && st.m == Machine(None, 0, 0, Header(w))
    && st.stage.Idle? && st.late == map[] && st.recs == []
  }

  lemma StartRecorded(st: State, w: WordSize)
    requires AtStart(st, w) && st.gl == GL_INITIAL
    ensures Recorded(st, Header(w), w)
  {
    hide Header;
    NoPieces(0, w);
    assert Header(w) + [] == Header(w);
  }

  // Threads interleave as they like, nest as they like, change the shadow state in nested
  // wrappers as they like and note their buffers when they like. From the file that they
  // leave, the replayer reads exactly the calls that were made, each credited to the thread
  // that issued it, if and only if every draw found the element buffer bound or not as the
  // calls recorded before it left it, and put as many arrays as those left enabled and
  // unbuffered.
  lemma ThreadedTrace(st: State, es: seq<Event>, exec: bool, w: WordSize)
    requires AtStart(st, w) && st.gl == GL_INITIAL && CanDoAll(st, es, w)
    requires var t := DoAll(st, es, w);
             t.stage.Idle? && forall r :: r in t.recs ==> ReadsBack(r.i.call, exec)
    ensures var t := DoAll(st, es, w);
            var body := Serial(Pieces(t.recs, w), 0, w);
            && t.m.bytes == Header(w) + body
            && Open(t.m.bytes) == Some(Got(w, body))
            && var p := Process(MIRROR_INITIAL, exec, 0, -1, body, w);
               if AllInStep(t.recs, GL_INITIAL, w) then
                 p.log == SeenRecs(t.recs, w) && p.rest == [] && p.stop == EndOfTrace
               else p.log != SeenRecs(t.recs, w)
  {
    hide Serial, Pieces, SeenRecs, Header, Process, ReadsBack, AllInStep, CanDoAll, DoAll, StateOk, Mirrors, PtrView;
    StartRecorded(st, w);
    AlwaysRecorded(st, es, Header(w), w);
    var t := DoAll(st, es, w);
    RecordedOk(t, Header(w), w);
    var body := Serial(Pieces(t.recs, w), 0, w);
    assert Header(w) + body + [] == Header(w) + body;
    HeaderBack(w, body);
    InitiallyMirrored(exec);
    PtrViewExact(0, w);
    RecsBack(t.recs, 0, GL_INITIAL, MIRROR_INITIAL, exec, -1, w);
  }

  // ---- Calm runs ----

  ghost predicate Pending(late: map<uint64, Bind>, target: int32) {
    exists t :: t in late && late[t].target == target
  }

  // No thread looks at a binding, or binds it again, between the record and the note of the
  // last glBindBuffer of that target, and no nested wrapper changes the shadow state.
  ghost predicate CalmEvent(st: State, e: Event, w: WordSize)
    requires StateOk(st, w) && CanDo(st, e, w)
  {
    match e
    case PutArgs => st.stage.i.call.DrawElements? ==> !Pending(st.late, GL_ELEMENT_ARRAY_BUFFER)
    case PutBlobs => st.stage.i.call.DrawElements? ==> !Pending(st.late, GL_ARRAY_BUFFER)
    case Finish => IsBind(st.stage.r.i.call) ==> CalmBind(st.stage.r, st.late, w)
    case Within(c) => EffectOf(st.gl, c, w) == st.gl
    case _ => true
  }

  ghost predicate CalmBind(r: Rec, late: map<uint64, Bind>, w: WordSize)
    requires RecOk(r, w) && IsBind(r.i.call)
  {
    ArgsNeeded(r.i.call, r.view, w);
    !Pending(late, BindOf(r.i.call, w).target)
  }

  ghost predicate Calm(st: State, es: seq<Event>, w: WordSize)
    requires StateOk(st, w) && CanDoAll(st, es, w)
    decreases |es|
  {
    es == [] ||
    (CalmEvent(st, es[0], w) && (DoOk(st, es[0], w); Calm(Do(st, es[0], w), es[1..], w)))
  }

  // Every draw saw the shadow state as the replayer will.
  ghost predicate AllSawIt(recs: seq<Rec>, g: GL, w: WordSize)
    requires AllRecOk(recs, w) && g.Valid()
    decreases |recs|
  {
    recs == [] ||
    ((recs[0].i.call.DrawElements? ==> recs[0].view == g) && AllSawIt(recs[1..], Follow(g, recs[0], w), w))
  }

  lemma {:induction false} SawSnoc(recs: seq<Rec>, r: Rec, g: GL, w: WordSize)
    requires AllRecOk(recs, w) && RecOk(r, w) && g.Valid()
    ensures AllRecOk(recs + [r], w)
    ensures AllSawIt(recs + [r], g, w) <==>
            (AllSawIt(recs, g, w) && (r.i.call.DrawElements? ==> r.view == After(recs, g, w)))
    decreases |recs|
  {
    hide RecOk, Follow;
    if recs == [] {
      assert [] + [r] == [r] && [r][1..] == [];
    } else {
      assert (recs + [r])[0] == recs[0] && (recs + [r])[1..] == recs[1..] + [r];
      SawSnoc(recs[1..], r, Follow(g, recs[0], w), w);
    }
  }

  // At most one bind of a target waits to be noted; it is the last one recorded, and where
  // none waits the shadow variable is that of the replayer.
  ghost predicate Noted(late: map<uint64, Bind>, target: int32, now: int32, bound: int32) {
    && (forall t :: t in late && late[t].target == target ==> late[t].buffer == bound)
    && (Pending(late, target) || now == bound)
  }

  ghost predicate OneEach(late: map<uint64, Bind>) {
    forall t, u :: t in late && u in late && late[t].target == late[u].target ==> t == u
  }

  ghost predicate CalmSoFar(st: State, s: GL) {
    && OneEach(st.late)
    && Noted(st.late, GL_ARRAY_BUFFER, st.gl.arrayBuf, s.arrayBuf)
    && Noted(st.late, GL_ELEMENT_ARRAY_BUFFER, st.gl.elemBuf, s.elemBuf)
    && st.gl.attribs == s.attribs
    && (st.stage.Headed? && st.stage.i.call.DrawElements? ==> st.stage.elem == s.elemBuf)
    && (st.stage.Full? && st.stage.r.i.call.DrawElements? ==> st.stage.r.view == s)
  }

  lemma NoteCalm(st: State, s: GL, thr: uint64)
    requires CalmSoFar(st, s) && thr in st.late
    ensures CalmSoFar(st.(gl := st.late[thr].On(st.gl), late := st.late - {thr}), s)
  {
    var b, late := st.late[thr], st.late - {thr};
    assert forall t :: t in late ==> t in st.late && late[t] == st.late[t] && late[t].target != b.target;
    if b.target != GL_ARRAY_BUFFER && Pending(st.late, GL_ARRAY_BUFFER) {
      var t :| t in st.late && st.late[t].target == GL_ARRAY_BUFFER;
      assert t in late;
    }
    if b.target != GL_ELEMENT_ARRAY_BUFFER && Pending(st.late, GL_ELEMENT_ARRAY_BUFFER) {
      var t :| t in st.late && st.late[t].target == GL_ELEMENT_ARRAY_BUFFER;
      assert t in late;
    }
  }

  // A bind is recorded while none of its target waits.
  lemma BindWaits(late: map<uint64, Bind>, thr: uint64, b: Bind)
    requires OneEach(late) && thr !in late && !Pending(late, b.target)
    ensures OneEach(late[thr := b])
  {
    assert forall t :: t in late ==> late[thr := b][t] == late[t];
  }

  lemma BindNoted(late: map<uint64, Bind>, thr: uint64, b: Bind, target: int32, now: int32, bound: int32)
    requires thr !in late && !Pending(late, b.target) && Noted(late, target, now, bound)
    ensures Noted(late[thr := b], target, now, if b.target == target then b.buffer else bound)
  {
    var late' := late[thr := b];
    assert late'[thr] == b && thr in late';
    if b.target != target && Pending(late, target) {
      var t :| t in late && late[t].target == target;
      assert t in late' && late'[t] == late[t];
    }
  }

  lemma BindCalm(late: map<uint64, Bind>, thr: uint64, b: Bind, gl: GL, s: GL)
    requires OneEach(late) && thr !in late && !Pending(late, b.target)
    requires Noted(late, GL_ARRAY_BUFFER, gl.arrayBuf, s.arrayBuf)
    requires Noted(late, GL_ELEMENT_ARRAY_BUFFER, gl.elemBuf, s.elemBuf)
    ensures OneEach(late[thr := b])
    ensures Noted(late[thr := b], GL_ARRAY_BUFFER, gl.arrayBuf, b.On(s).arrayBuf)
    ensures Noted(late[thr := b], GL_ELEMENT_ARRAY_BUFFER, gl.elemBuf, b.On(s).elemBuf)
  {
    hide OneEach, Noted, Pending;
    BindWaits(late, thr, b);
    BindNoted(late, thr, b, GL_ARRAY_BUFFER, gl.arrayBuf, s.arrayBuf);
    BindNoted(late, thr, b, GL_ELEMENT_ARRAY_BUFFER, gl.elemBuf, s.elemBuf);
  }

  ghost predicate Sequential(st: State, g0: GL, w: WordSize) {
    StateOk(st, w) && g0.Valid() && AllSawIt(st.recs, g0, w) && CalmSoFar(st, After(st.recs, g0, w))
  }

  // A call changes the attributes whatever the bindings are, and the bindings only if it is
  // glBindBuffer.
  lemma FollowParts(r: Rec, g: GL, s: GL, w: WordSize)
    requires RecOk(r, w) && ArgsOk(r.i.call, w) && g.Valid() && s.Valid() && g.attribs == s.attribs
    ensures EffectOf(g, r.i.call, w).attribs == Follow(s, r, w).attribs
    ensures Follow(s, r, w).arrayBuf ==
            if IsBind(r.i.call) then BindOf(r.i.call, w).On(s).arrayBuf else s.arrayBuf
    ensures Follow(s, r, w).elemBuf ==
            if IsBind(r.i.call) then BindOf(r.i.call, w).On(s).elemBuf else s.elemBuf
  {
    hide CallOk, WriterLayout, ArgsOk;
    ArgsEnoughFor(r.i.call, g, w);
    ArgsEnoughFor(r.i.call, s, w);
    StateLayouts(OPC_glBindBuffer);
  }

  lemma ArgsEnoughFor(c: Call, g: GL, w: WordSize)
    requires ArgsOk(c, w) && g.Valid()
    ensures !c.DrawElements? ==> CallOk(c, g, w)
  {
    hide CallOk, ArgsOk;
    if !c.DrawElements? {
      ArgsEnough(c, g, w);
    }
  }

  lemma FinishCalm(st: State, g0: GL, w: WordSize)
    requires Sequential(st, g0, w) && CanDo(st, Finish, w) && CalmEvent(st, Finish, w)
    ensures Sequential(Do(st, Finish, w), g0, w)
  {
    hide AllSawIt, After, Next, CallOk, ArgsOk, BindOf, EffectOf, Noted, OneEach, EncLongLong, Machine.Valid;
    DoOk(st, Finish, w);
    var r, s := st.stage.r, After(st.recs, g0, w);
    ArgsNeeded(r.i.call, r.view, w);
    FollowParts(r, st.gl, s, w);
    RecsSnoc(st.recs, r, g0, w);
    SawSnoc(st.recs, r, g0, w);
    if IsBind(r.i.call) {
      BindCalm(st.late, r.i.thr, BindOf(r.i.call, w), st.gl, s);
    }
  }

  lemma EventCalm(st: State, g0: GL, e: Event, w: WordSize)
    requires Sequential(st, g0, w) && CanDo(st, e, w) && CalmEvent(st, e, w)
    ensures Sequential(Do(st, e, w), g0, w)
  {
    hide AllSawIt, After, Next, CallOk, ArgsOk, BindOf, EffectOf, EncLongLong, HeadBytes, BlobBytes, RecOk, OneEach;
    DoOk(st, e, w);
    match e
    case Note(thr) => NoteCalm(st, After(st.recs, g0, w), thr);
    case Finish => FinishCalm(st, g0, w);
    case _ =>
  }

  lemma {:induction false} AlwaysCalm(st: State, g0: GL, es: seq<Event>, w: WordSize)
    requires Sequential(st, g0, w) && CanDoAll(st, es, w) && Calm(st, es, w)
    ensures Sequential(DoAll(st, es, w), g0, w)
    decreases |es|
  {
    hide CanDo, Do, StateOk, CalmSoFar, AllSawIt, CalmEvent;
    if es != [] {
      DoOk(st, es[0], w);
      EventCalm(st, g0, es[0], w);
      AlwaysCalm(Do(st, es[0], w), g0, es[1..], w);
    }
  }

  function Issues(recs: seq<Rec>): (issues: seq<Issue>)
    ensures |issues| == |recs|
  {
    seq(|recs|, k requires 0 <= k < |recs| => recs[k].i)
  }

  // Then the commands are those of a single-threaded recorder.
  lemma {:induction false} SawIsSequential(recs: seq<Rec>, g: GL, w: WordSize)
    requires AllRecOk(recs, w) && g.Valid() && AllSawIt(recs, g, w)
    ensures RunOk(Issues(recs), g, w)
    ensures PiecesOf(Issues(recs), g, w) == Pieces(recs, w)
    decreases |recs|
  {
    hide EncBody, CallOk, Effect, Follow, RecOk, PieceOf;
    if recs == [] {
      NoPieces(0, w);
    } else {
      var r, rest := recs[0], recs[1..];
      assert RecOk(r, w);
      SawCall(r, g, w);
      assert Issues(recs)[1..] == Issues(rest) && Issues(recs)[0] == r.i;
      PiecesCons(recs, w);
      FollowIsEffect(r, g, w);
      SawIsSequential(rest, Follow(g, r, w), w);
    }
  }

  lemma SawCall(r: Rec, g: GL, w: WordSize)
    requires RecOk(r, w) && g.Valid() && (r.i.call.DrawElements? ==> r.view == g)
    ensures r.i.thr < Range(w) && CallOk(r.i.call, g, w)
    ensures PieceOf(r, w) == Piece(r.i.thr, EncBody(r.i, g, w))
  {
    hide CallOk, Puts;
    if !r.i.call.DrawElements? {
      PutsAnyhow(r.i.call, g, r.view, r.i.mem, w);
    }
  }

  // So a calm run leaves the file of a single thread, and the replayer reads exactly the
  // calls that were made, in the order in which they took the lock.
  lemma CalmTrace(st: State, es: seq<Event>, exec: bool, w: WordSize)
    requires AtStart(st, w) && st.gl == GL_INITIAL && CanDoAll(st, es, w) && Calm(st, es, w)
    requires DoAll(st, es, w).stage.Idle? && AllReadBack(Issues(DoAll(st, es, w).recs), exec)
    ensures var t := DoAll(st, es, w);
            var issues := Issues(t.recs);
            && RunOk(issues, GL_INITIAL, w)
            && t.m.bytes == Header(w) + EncRun(issues, 0, GL_INITIAL, w)
            && var p := Process(MIRROR_INITIAL, exec, 0, -1, EncRun(issues, 0, GL_INITIAL, w), w);
               p.log == SeenRun(issues, GL_INITIAL, w) && p.rest == [] && p.stop == EndOfTrace
  {
    hide Serial, Pieces, Header, Process, CanDoAll, DoAll, StateOk, EncRun, SeenRun, RunOk, AllReadBack, PiecesOf;
    hide Mirrors, AllSawIt, CalmSoFar, Calm, After;
    StartRecorded(st, w);
    StartSequential(st, w);
    AlwaysRecorded(st, es, Header(w), w);
    AlwaysCalm(st, GL_INITIAL, es, w);
    var t := DoAll(st, es, w);
    RecordedOk(t, Header(w), w);
    SawIsSequential(t.recs, GL_INITIAL, w);
    SerialIsEncRun(Issues(t.recs), 0, GL_INITIAL, w);
    WholeTrace(Issues(t.recs), exec, w);
    assert Header(w) + Serial(Pieces(t.recs, w), 0, w) + [] == Header(w) + Serial(Pieces(t.recs, w), 0, w);
  }

  lemma StartSequential(st: State, w: WordSize)
    requires AtStart(st, w) && st.gl == GL_INITIAL
    ensures Sequential(st, GL_INITIAL, w)
  {
    hide Header;
  }

  // ---- Runs that are not calm ----

  // A draw that is recorded between the record and the note of a glBindBuffer is read back if
  // and only if the bind makes no difference to it.
  lemma BindRace(g: GL, m: Mirror, exec: bool, b: Bind, c: Call, mem: Memory, w: WordSize, tail: seq<byte>)
    requires Mirrors(g, m, exec) && CallOk(c, g, w) && c.DrawElements?
    ensures AllOk(Puts(c, g, mem, w), w)
    ensures var m' := PlayEffect(m, exec, OPC_glBindBuffer, [FInt(b.target), FInt(b.buffer)]);
            (GetDraw(m', EncFields(Puts(c, g, mem, w), w) + tail, w) ==
             Parsed(SeenAll(Puts(c, g, mem, w), w), tail)) <==>
            (if b.target == GL_ARRAY_BUFFER then SameBinding(g.arrayBuf, b.buffer) || NoneEnabled(g)
             else if b.target == GL_ELEMENT_ARRAY_BUFFER then SameBinding(g.elemBuf, b.buffer)
             else true)
  {
    hide CallOk, Puts, EncFields, SeenAll, AllOk, GetDraw, Lit;
    var m' := PlayEffect(m, exec, OPC_glBindBuffer, [FInt(b.target), FInt(b.buffer)]);
    LitNone(g.attribs);
    DrawSync(c, g, b.On(g), m', exec, mem, w, tail);
  }

  // The events of one glBindBuffer, up to the end of its record.
  function BindEvents(i: Issue): seq<Event> {
    [Begin(i), PutArgs, PutBlobs, Finish]
  }

  lemma OneEvent(st: State, e: Event, w: WordSize)
    requires StateOk(st, w) && CanDo(st, e, w)
    ensures CanDoAll(st, [e], w) && DoAll(st, [e], w) == Do(st, e, w)
  {
    hide CanDo, Do, StateOk;
    DoOk(st, e, w);
    assert [e][1..] == [];
  }

  lemma {:induction false} DoAllAppend(st: State, a: seq<Event>, b: seq<Event>, w: WordSize)
    requires StateOk(st, w) && CanDoAll(st, a, w) && CanDoAll(DoAll(st, a, w), b, w)
    ensures CanDoAll(st, a + b, w) && DoAll(st, a + b, w) == DoAll(DoAll(st, a, w), b, w)
    decreases |a|
  {
    hide CanDo, Do, StateOk;
    if a == [] {
      assert a + b == b;
    } else {
      assert (a + b)[0] == a[0] && (a + b)[1..] == a[1..] + b;
      DoOk(st, a[0], w);
      DoAllAppend(Do(st, a[0], w), a[1..], b, w);
    }
  }

  // One glBindBuffer up to the end of its record, from a state where nobody holds the lock.
  lemma BindRecorded(st: State, i: Issue, w: WordSize)
    requires StateOk(st, w) && st.stage.Idle? && i.thr < Range(w) && i.thr !in st.late
    requires IsBind(i.call) && ArgsOk(i.call, w)
    ensures CanDoAll(st, BindEvents(i), w)
    ensures var t, r := DoAll(st, BindEvents(i), w), Rec(i, st.gl);
            && StateOk(t, w) && RecOk(r, w)
            && t.stage.Idle? && t.gl == st.gl && t.recs == st.recs + [r]
            && t.late == st.late[i.thr := BindOf(i.call, w)]
  {
    hide CallOk, ArgsOk, HeadBytes, BlobBytes, TimeBytes, EncInt, ThreadPrefix, BindOf, Call.Op, CanDoAll, DoAll;
    DoOk(st, Begin(i), w);
    var s1 := Do(st, Begin(i), w);
    DoOk(s1, PutArgs, w);
    var s2 := Do(s1, PutArgs, w);
    DoOk(s2, PutBlobs, w);
    var s3 := Do(s2, PutBlobs, w);
    DoOk(s3, Finish, w);
    BindKeepsAttribs(i.call, st.gl, w);
    OneEvent(st, Begin(i), w);
    OneEvent(s1, PutArgs, w);
    OneEvent(s2, PutBlobs, w);
    OneEvent(s3, Finish, w);
    DoAllAppend(st, [Begin(i)], [PutArgs], w);
    DoAllAppend(st, [Begin(i)] + [PutArgs], [PutBlobs], w);
    DoAllAppend(st, [Begin(i)] + [PutArgs] + [PutBlobs], [Finish], w);
    assert [Begin(i)] + [PutArgs] + [PutBlobs] + [Finish] == BindEvents(i);
  }

  lemma ConsEvent(st: State, e: Event, es: seq<Event>, w: WordSize)
    requires StateOk(st, w) && CanDo(st, e, w) && StateOk(Do(st, e, w), w) && CanDoAll(Do(st, e, w), es, w)
    ensures CanDoAll(st, [e] + es, w) && DoAll(st, [e] + es, w) == DoAll(Do(st, e, w), es, w)
  {
    hide CanDo, Do, StateOk;
    assert ([e] + es)[1..] == es;
  }

  // eglCreateContext or eglCreateWindowSurface enters the wrapper of
  // glEnableVertexAttribArray again, which records nothing. The recorder then has the array
  // enabled, and the replayer has what it had.
  lemma NestedSticks(st: State, g0: GL, i: Issue, k: int32, w: WordSize)
    requires StateOk(st, w) && g0.Valid() && st.stage.Idle? && i.thr < Range(w) && i.thr !in st.late
    requires i.call.Create? && ArgsOk(i.call, w) && 0 <= k < MAX_VERTEX_ATTRIBS
    ensures var op := OPC_glEnableVertexAttribArray;
            var nested := [Inner(Cmd(i.thr, op)), Within(Plain(op, [FInt(k)])), Inner(End(i.thr))];
            var es := [Begin(i)] + nested + [PutArgs, PutBlobs, Finish];
            && CanDoAll(st, es, w)
            && var t := DoAll(st, es, w);
               && t.stage.Idle? && t.late == st.late && t.gl.attribs[k].enabled
               && After(t.recs, g0, w) == After(st.recs, g0, w)
  {
    hide CallOk, ArgsOk, HeadBytes, BlobBytes, TimeBytes, EncInt, ThreadPrefix, BindOf, Call.Op, CanDoAll, DoAll;
    hide EffectOf, After;
    var op, e := OPC_glEnableVertexAttribArray, Plain(OPC_glEnableVertexAttribArray, [FInt(k)]);
    NestedEnable(st.gl, k, w);
    DoOk(st, Begin(i), w);
    var s1 := Do(st, Begin(i), w);
    DoOk(s1, Inner(Cmd(i.thr, op)), w);
    var s2 := Do(s1, Inner(Cmd(i.thr, op)), w);
    DoOk(s2, Within(e), w);
    var s3 := Do(s2, Within(e), w);
    DoOk(s3, Inner(End(i.thr)), w);
    var s4 := Do(s3, Inner(End(i.thr)), w);
    DoOk(s4, PutArgs, w);
    var s5 := Do(s4, PutArgs, w);
    DoOk(s5, PutBlobs, w);
    var s6 := Do(s5, PutBlobs, w);
    DoOk(s6, Finish, w);
    CreateChanges(i.call, s6.gl, w);
    CreateChanges(i.call, After(st.recs, g0, w), w);
    RecsSnoc(st.recs, s6.stage.r, g0, w);
    OneEvent(s6, Finish, w);
    ConsEvent(s5, PutBlobs, [Finish], w);
    ConsEvent(s4, PutArgs, [PutBlobs] + [Finish], w);
    ConsEvent(s3, Inner(End(i.thr)), [PutArgs] + ([PutBlobs] + [Finish]), w);
    ConsEvent(s2, Within(e), [Inner(End(i.thr))] + ([PutArgs] + ([PutBlobs] + [Finish])), w);
    ConsEvent(s1, Inner(Cmd(i.thr, op)),
              [Within(e)] + ([Inner(End(i.thr))] + ([PutArgs] + ([PutBlobs] + [Finish]))), w);
    var nested := [Inner(Cmd(i.thr, op)), Within(e), Inner(End(i.thr))];
    var es := [Begin(i)] + nested + [PutArgs, PutBlobs, Finish];
    assert nested + [PutArgs, PutBlobs, Finish] ==
           [Inner(Cmd(i.thr, op))] + ([Within(e)] + ([Inner(End(i.thr))] + ([PutArgs] + ([PutBlobs] + [Finish]))));
    ConsEvent(st, Begin(i), nested + [PutArgs, PutBlobs, Finish], w);
    assert es == [Begin(i)] + (nested + [PutArgs, PutBlobs, Finish]);
  }

  lemma NestedEnable(g: GL, k: int32, w: WordSize)
    requires g.Valid() && 0 <= k < MAX_VERTEX_ATTRIBS
    ensures var e := Plain(OPC_glEnableVertexAttribArray, [FInt(k)]);
            ArgsOk(e, w) && EffectOf(g, e, w).attribs[k].enabled
  {
    var e := Plain(OPC_glEnableVertexAttribArray, [FInt(k)]);
    assert [FInt(k)][1..] == [] && Kinds([FInt(k)]) == [KInt];
    assert WriterLayout(OPC_glEnableVertexAttribArray) == Some([KInt]);
    hide WriterLayout;
    ArgsNeeded(e, g, w);
  }

  lemma CreateChanges(c: Call, g: GL, w: WordSize)
    requires c.Create? && ArgsOk(c, w) && g.Valid()
    ensures EffectOf(g, c, w) == g
  {
    hide CallOk, ArgsOk;
  }

  lemma BindKeepsAttribs(c: Call, g: GL, w: WordSize)
    requires IsBind(c) && ArgsOk(c, w) && g.Valid()
    ensures EffectOf(g, c, w).attribs == g.attribs
  {
    hide CallOk, WriterLayout;
  }

  // Two threads bind an array buffer, and note it in the other order than they recorded it.
  // Then nothing waits to be noted any more, and the recorder goes on with the first buffer
  // while the replayer has the second.
  lemma NotesCross(st: State, g0: GL, i: Issue, j: Issue, x: int32, y: int32, w: WordSize)
    requires StateOk(st, w) && st.stage.Idle? && st.late == map[] && g0.Valid()
    requires i.thr < Range(w) && j.thr < Range(w) && i.thr != j.thr
    requires i.call == Plain(OPC_glBindBuffer, [FInt(GL_ARRAY_BUFFER), FInt(x)])
    requires j.call == Plain(OPC_glBindBuffer, [FInt(GL_ARRAY_BUFFER), FInt(y)])
    ensures var es := BindEvents(i) + BindEvents(j) + ([Note(j.thr)] + [Note(i.thr)]);
            && CanDoAll(st, es, w)
            && var t := DoAll(st, es, w);
               && t.stage.Idle? && t.late == map[]
               && t.gl.arrayBuf == x && After(t.recs, g0, w).arrayBuf == y
  {
    hide StateOk, CanDoAll, DoAll, After, CallOk, ArgsOk, BindEvents, RecOk, AllRecOk;
    BindArgs(i.call, x, w);
    BindArgs(j.call, y, w);
    var b, d := Bind(GL_ARRAY_BUFFER, x), Bind(GL_ARRAY_BUFFER, y);
    BindRecorded(st, i, w);
    var s1 := DoAll(st, BindEvents(i), w);
    BindRecorded(s1, j, w);
    var s2 := DoAll(s1, BindEvents(j), w);
    DoAllAppend(st, BindEvents(i), BindEvents(j), w);
    assert s2.late == map[i.thr := b, j.thr := d];
    TwoNotes(s2, j.thr, i.thr, w);
    DoAllAppend(st, BindEvents(i) + BindEvents(j), [Note(j.thr)] + [Note(i.thr)], w);
    RecordedBinds(st, s1, s2, g0, Rec(i, st.gl), Rec(j, st.gl), w);
  }

  lemma BindArgs(c: Call, buffer: int32, w: WordSize)
    requires c == Plain(OPC_glBindBuffer, [FInt(GL_ARRAY_BUFFER), FInt(buffer)])
    ensures ArgsOk(c, w) && IsBind(c) && BindOf(c, w) == Bind(GL_ARRAY_BUFFER, buffer)
  {
    StateLayouts(OPC_glBindBuffer);
    assert Kinds(c.args) == [KInt, KInt];
    var g := GL(1, 0, GL_INITIAL.attribs);
    hide WriterLayout;
    assert CallOk(c, g, w);
  }

  lemma TwoNotes(st: State, t: uint64, u: uint64, w: WordSize)
    requires StateOk(st, w) && t in st.late && u in st.late && t != u
    ensures CanDoAll(st, [Note(t)] + [Note(u)], w)
    ensures DoAll(st, [Note(t)] + [Note(u)], w) ==
            st.(gl := st.late[u].On(st.late[t].On(st.gl)), late := st.late - {t} - {u})
  {
    hide CanDoAll, DoAll, StateOk, Bind.On;
    DoOk(st, Note(t), w);
    var s1 := Do(st, Note(t), w);
    DoOk(s1, Note(u), w);
    OneEvent(st, Note(t), w);
    OneEvent(s1, Note(u), w);
    DoAllAppend(st, [Note(t)], [Note(u)], w);
  }

  lemma RecordedBinds(st: State, s1: State, s2: State, g0: GL, r: Rec, q: Rec, w: WordSize)
    requires StateOk(st, w) && g0.Valid() && RecOk(r, w) && RecOk(q, w)
    requires s1.recs == st.recs + [r] && s2.recs == s1.recs + [q]
    requires IsBind(q.i.call) && ArgsOk(q.i.call, w) && BindOf(q.i.call, w).target == GL_ARRAY_BUFFER
    ensures AllRecOk(s2.recs, w) && After(s2.recs, g0, w).arrayBuf == BindOf(q.i.call, w).buffer
  {
    hide After, RecOk, ArgsOk, BindOf, EffectOf, Follow;
    RecsSnoc(st.recs, r, g0, w);
    RecsSnoc(s1.recs, q, g0, w);
    FollowParts(q, After(s1.recs, g0, w), After(s1.recs, g0, w), w);
  }
}
