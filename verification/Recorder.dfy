// The wrappers of gles.c, egl.c and agent.c, as they run: putCmd, the puts, putTime, and
// the update of the static shadow variables.

module Recorder {
  import opened Seqs
  import opened Words
  import opened Format
  import opened Records
  import opened Calls
  import opened TraceWriter
  import opened RoundTrip
  import opened Traces
  import Grids

  class Recorder {
    const io: Writer
    var arrayBufferBinding: int32
    var elementArrayBufferBinding: int32
    const vertexAttrib: array<VertexAttrib>

    ghost predicate Valid()
      reads this, vertexAttrib, io, io.chunk
    {
      && io.Valid() && vertexAttrib.Length == MAX_VERTEX_ATTRIBS
      && (vertexAttrib as object) != io.chunk
    }

    ghost function State(): (g: GL)
      reads this, vertexAttrib
    {
      GL(arrayBufferBinding, elementArrayBufferBinding, vertexAttrib[..])
    }

    constructor (w: WordSize)
      ensures Valid() && fresh(io) && fresh(io.chunk) && fresh(vertexAttrib) && io.wsize == w
      ensures State() == GL_INITIAL
      ensures io.stream == Header(w) && io.reentrance == 0 && io.curThread == 0
    {
      io := new Writer(w);
      arrayBufferBinding, elementArrayBufferBinding := 0, 0;
      vertexAttrib := new VertexAttrib[MAX_VERTEX_ATTRIBS](_ => VertexAttrib(false, 0, 0, 0, 0, 0));
      new;
      assert vertexAttrib[..] == GL_INITIAL.attribs;
    }

    // Inside an outermost command the puts have appended the fields fs.
    twostate predicate Emitted(fs: seq<Field>)
      reads this, vertexAttrib, io, io.chunk
      requires AllOk(fs, io.wsize)
    {
      && io.Valid() && (io.chunk == old(io.chunk) || fresh(io.chunk))
      && io.stream == old(io.stream) + EncFields(fs, io.wsize)
      && io.reentrance == 1 && io.curThread == old(io.curThread)
    }

    lemma Join(start: seq<byte>, a: seq<Field>, b: seq<Field>)
      requires AllOk(a, io.wsize) && AllOk(b, io.wsize)
      ensures AllOk(a + b, io.wsize)
      ensures start + EncFields(a, io.wsize) + EncFields(b, io.wsize) == start + EncFields(a + b, io.wsize)
    {
      EncFieldsAppend(a, b, io.wsize);
      Assoc(start, EncFields(a, io.wsize), EncFields(b, io.wsize));
    }

    static lemma NothingEncoded(start: seq<byte>, w: WordSize)
      ensures start + EncFields([], w) == start
    {
    }

    // putInt, putFloat, putPtr, putString, putBytes, putIntPtr or putFloatPtr.
    method PutField(f: Field)
      requires io.Valid() && io.reentrance == 1 && f.Ok(io.wsize)
      modifies io, io.chunk
      ensures Emitted([f])
    {
      OneField(f, io.wsize);
      hide Writer.Mapped, EncInt, EncFloat, EncPtr, EncString, EncBytes, EncIntPtr, EncFloatPtr, EncFields;
      match f {
        case FInt(i) => io.PutInt(i);
        case FFloat(x) => io.PutFloat(x);
        case FPtr(p) => io.PutPtr(p);
        case FString(a) => io.PutString(a);
        case FBytes(data, size) => io.PutBytes(data, size);
        case FIntPtr(a) => io.PutIntPtr(a);
        case FFloatPtr(a) => io.PutFloatPtr(a);
      }
    }

    // Consecutive puts.
    method PutFields(fs: seq<Field>)
      requires io.Valid() && io.reentrance == 1 && AllOk(fs, io.wsize)
      modifies io, io.chunk
      ensures Emitted(fs)
    {
      hide Writer.Mapped, EncFields, Field.Ok;
      NothingEncoded(io.stream, io.wsize);
      for i := 0 to |fs|
        invariant AllOk(fs[..i], io.wsize) && Emitted(fs[..i])
      {
        PutField(fs[i]);
        Join(old(io.stream), fs[..i], [fs[i]]);
        assert fs[..i + 1] == fs[..i] + [fs[i]];
      }
      assert fs[..|fs|] == fs;
    }

    // The ints of an array, one by one.
    method PutInts(xs: seq<int32>)
      requires io.Valid() && io.reentrance == 1
      modifies io, io.chunk
      ensures AllOk(Ints(xs), io.wsize) && Emitted(Ints(xs))
    {
      GoodInts(xs, io.wsize);
      assert io.stream + EncFields([], io.wsize) == io.stream;
      for i := 0 to |xs|
        invariant AllOk(Ints(xs[..i]), io.wsize) && Emitted(Ints(xs[..i]))
      {
        assert Ints(xs[..i + 1]) == Ints(xs[..i]) + [FInt(xs[i])];
        hide Writer.Mapped, EncFields, Ints;
        PutField(FInt(xs[i]));
        Join(old(io.stream), Ints(xs[..i]), [FInt(xs[i])]);
      }
      assert xs[..|xs|] == xs;
    }

    // Walks an attribute list pair by pair, and puts the terminator last, also for a NULL list.
    method PutAttrs(attribs: seq<Attr>)
      requires io.Valid() && io.reentrance == 1
      modifies io, io.chunk
      ensures AllOk(AttrPuts(attribs), io.wsize) && Emitted(AttrPuts(attribs))
    {
      AttrPutsOk(attribs, io.wsize);
      assert io.stream + EncFields([], io.wsize) == io.stream;
      ghost var done: seq<Field> := [];
      var i := 0;
      while i < |attribs|
        invariant 0 <= i <= |attribs| && AllOk(done, io.wsize) && Emitted(done)
        invariant done + AttrPuts(attribs[i..]) == AttrPuts(attribs)
      {
        var pair := [FInt(attribs[i].name), FInt(attribs[i].value)];
        assert AttrPuts(attribs[i..]) == pair + AttrPuts(attribs[i + 1..]);
        Assoc(done, pair, AttrPuts(attribs[i + 1..]));
        hide Writer.Mapped, EncFields, AttrPuts;
        PutFields(pair);
        Join(old(io.stream), done, pair);
        done, i := done + pair, i + 1;
      }
      hide Writer.Mapped, EncFields;
      PutField(FInt(EGL_NONE));
      Join(old(io.stream), done, [FInt(EGL_NONE)]);
    }

    // Each shader string behind its length, which is 0 where no lengths are given.
    method PutSources(strings: seq<Option<seq<byte>>>, lengths: Option<seq<int32>>)
      requires io.Valid() && io.reentrance == 1 && SourcesOk(strings, lengths)
      modifies io, io.chunk
      ensures AllOk(SourcePuts(strings, lengths, |strings|), io.wsize)
      ensures Emitted(SourcePuts(strings, lengths, |strings|))
    {
      assert io.stream + EncFields([], io.wsize) == io.stream;
      for i := 0 to |strings|
        invariant AllOk(SourcePuts(strings, lengths, i), io.wsize) && Emitted(SourcePuts(strings, lengths, i))
      {
        var len := SourceLen(lengths, i);
        var puts := SourcePut(len, strings[i]);
        assert AllOk(puts, io.wsize);
        assert SourcePuts(strings, lengths, i + 1) == SourcePuts(strings, lengths, i) + puts;
        hide Writer.Mapped, EncFields, SourcePuts, AllOk, SourcePut;
        PutFields(puts);
        Join(old(io.stream), SourcePuts(strings, lengths, i), puts);
      }
    }

    // putVertexAttrib: one packed blob for each enabled attribute, through a buffer that
    // holds the largest of them.
    method PutVertexAttrib(count: int32, mem: Memory)
      requires Valid() && io.reentrance == 1 && VertexOk(State(), Count(VertexCount(count)))
      modifies io, io.chunk
      ensures AllOk(VertexPuts(State(), mem, Count(VertexCount(count)), MAX_VERTEX_ATTRIBS), io.wsize)
      ensures Emitted(VertexPuts(State(), mem, Count(VertexCount(count)), MAX_VERTEX_ATTRIBS))
    {
      hide VertexAttrib.ElemSize, VertexPut, Writer.Mapped, EncFields;
      var vertices := VertexCount(count);
      ghost var g, n := State(), Count(vertices);
      var maxsz := LargestArray(vertices);
      NoFields(io.wsize);
      var buf := new byte[maxsz](_ => 0);
      assert io.stream + EncFields([], io.wsize) == io.stream;
      for i := 0 to MAX_VERTEX_ATTRIBS
        invariant State() == g && fresh(buf) && buf != io.chunk && Valid()
        invariant AllOk(VertexPuts(g, mem, n, i), io.wsize) && Emitted(VertexPuts(g, mem, n, i))
      {
        PutOneAttrib(i, vertices, mem, buf);
        Join(old(io.stream), VertexPuts(g, mem, n, i), VertexPut(mem, g.attribs[i], n));
      }
    }

    // The room that the largest of the enabled arrays takes.
    method LargestArray(vertices: int) returns (maxsz: nat)
      requires vertexAttrib.Length == MAX_VERTEX_ATTRIBS
      ensures forall k :: 0 <= k < MAX_VERTEX_ATTRIBS && vertexAttrib[k].enabled ==>
                vertexAttrib[k].ElemSize() * Count(vertices) <= maxsz
    {
      hide VertexAttrib.ElemSize;
      maxsz := 0;
      for i := 0 to MAX_VERTEX_ATTRIBS
        invariant forall k :: 0 <= k < i && vertexAttrib[k].enabled ==>
                    vertexAttrib[k].ElemSize() * Count(vertices) <= maxsz
      {
        if vertexAttrib[i].enabled {
          var sz := vertexAttrib[i].ElemSize() * vertices;
          TimesCount(vertexAttrib[i].ElemSize(), vertices);
          if maxsz < sz {
            maxsz := sz;
          }
        }
      }
    }

    method PutOneAttrib(i: nat, vertices: int, mem: Memory, buf: array<byte>)
      requires Valid() && io.reentrance == 1 && i < MAX_VERTEX_ATTRIBS && buf != io.chunk
      requires vertexAttrib[i].enabled ==>
                 vertexAttrib[i].ElemSize() * Count(vertices) <= buf.Length &&
                 Count(vertices) * vertexAttrib[i].ElemSize() < 0x8000_0000
      modifies io, io.chunk, buf
      ensures State() == old(State()) && buf != io.chunk && Valid()
      ensures AllOk(VertexPut(mem, vertexAttrib[i], Count(vertices)), io.wsize)
      ensures Emitted(VertexPut(mem, vertexAttrib[i], Count(vertices)))
    {
      var a := vertexAttrib[i];
      if !a.enabled {
        assert io.stream + EncFields([], io.wsize) == io.stream;
        return;
      }
      var dst := PackInto(mem, a, vertices, buf);
      hide Writer.Mapped, EncFields, Pack;
      PutField(FBytes(Some(buf[..dst]), dst));
    }

    // What the wrapper puts between putCmd and putTime.
    method PutArgs(c: Call, mem: Memory)
      requires Valid() && io.reentrance == 1 && CallOk(c, State(), io.wsize)
      modifies io, io.chunk
      ensures AllOk(Puts(c, State(), mem, io.wsize), io.wsize)
      ensures Emitted(Puts(c, State(), mem, io.wsize)) && Valid()
    {
      PutsOk(c, State(), mem, io.wsize);
      ghost var start := io.stream;
      match c {
        case Plain(_, args) => PutFields(args);
        case Names(_, n, ids) => PutNames(n, ids);
        case ShaderSource(shader, count, strings, lengths) => PutShaderSource(shader, count, strings, lengths);
        case DrawElements(_, _, _, _) => PutDraw(c, mem);
        case GetActiveUniform(_, _, _, _, _, _, _, _, _, _, _) => PutUniform(c, mem);
        case GetAttachedShaders(_, _, _, _, _, _) => PutAttached(c, mem);
        case ChooseConfig(_, _, _, _, _, _) => PutChoose(c, mem);
        case Create(_, _, _, _, _, _) => PutCreate(c, mem);
      }
    }

    method PutNames(n: int32, ids: seq<int32>)
      requires io.Valid() && io.reentrance == 1
      modifies io, io.chunk
      ensures AllOk([FInt(n)] + Ints(ids), io.wsize) && Emitted([FInt(n)] + Ints(ids))
    {
      hide Writer.Mapped, EncFields, Ints;
      PutField(FInt(n));
      PutInts(ids);
      Join(old(io.stream), [FInt(n)], Ints(ids));
    }

    method PutShaderSource(shader: int32, count: int32, strings: seq<Option<seq<byte>>>, lengths: Option<seq<int32>>)
      requires io.Valid() && io.reentrance == 1 && SourcesOk(strings, lengths)
      modifies io, io.chunk
      ensures AllOk([FInt(shader), FInt(count)] + SourcePuts(strings, lengths, |strings|), io.wsize)
      ensures Emitted([FInt(shader), FInt(count)] + SourcePuts(strings, lengths, |strings|))
    {
      hide Writer.Mapped, EncFields, SourcePuts;
      PutFields([FInt(shader), FInt(count)]);
      PutSources(strings, lengths);
      Join(old(io.stream), [FInt(shader), FInt(count)], SourcePuts(strings, lengths, |strings|));
    }

    method PutDraw(c: Call, mem: Memory)
      requires Valid() && io.reentrance == 1 && CallOk(c, State(), io.wsize) && c.DrawElements?
      modifies io, io.chunk
      ensures AllOk(Puts(c, State(), mem, io.wsize), io.wsize) && Emitted(Puts(c, State(), mem, io.wsize))
    {
      PutsOk(c, State(), mem, io.wsize);
      var size := c.count * GlSizeof(c.typ).value;
      var index := if elementArrayBufferBinding != 0 then FPtr(c.indices)
                   else FBytes(if c.indices == 0 then None else Some(MemAt(mem, c.indices, Count(size))), size);
      var head := [FInt(c.mode), FInt(c.count), FInt(c.typ), index];
      assert index == IndexPut(State(), mem, c.count, c.typ, c.indices);
      assert AllOk(head, io.wsize);
      ghost var g := State();
      hide EncFields, VertexPuts, IndexPut, MemAt;
      PutFields(head);
      if arrayBufferBinding == 0 {
        PutVertexAttrib(c.count, mem);
        Join(old(io.stream), head, VertexPuts(g, mem, Count(VertexCount(c.count)), MAX_VERTEX_ATTRIBS));
      } else {
        assert head + [] == head;
      }
    }

    method PutUniform(c: Call, mem: Memory)
      requires Valid() && io.reentrance == 1 && CallOk(c, State(), io.wsize) && c.GetActiveUniform?
      modifies io, io.chunk
      ensures AllOk(Puts(c, State(), mem, io.wsize), io.wsize) && Emitted(Puts(c, State(), mem, io.wsize))
    {
      var head := [FInt(c.program), FInt(c.index), FInt(c.bufsize), FPtr(c.lengthPtr), FPtr(c.sizePtr),
                   FPtr(c.typePtr), FPtr(c.namePtr)];
      var a, b, d := OptionalInt(c.lengthPtr, c.length), OptionalInt(c.sizePtr, c.size), OptionalInt(c.typePtr, c.kind);
      var name := if c.namePtr != 0 then [FString(Some(c.name))] else [];
      assert Puts(c, State(), mem, io.wsize) == head + (a + b + d + name) by { hide CallOk, OptionalInt; }
      assert AllOk(head, io.wsize) by { hide Puts; }
      assert AllOk(a, io.wsize) && AllOk(b, io.wsize) && AllOk(d, io.wsize) && AllOk(name, io.wsize);
      hide Writer.Mapped, EncFields, OptionalInt, AllOk, Puts, CallOk;
      PutFields(head);
      PutFour(a, b, d, name);
      Join(old(io.stream), head, a + b + d + name);
    }

    // The results of glGetActiveUniform, those that the caller asked for.
    method PutFour(a: seq<Field>, b: seq<Field>, d: seq<Field>, e: seq<Field>)
      requires io.Valid() && io.reentrance == 1
      requires AllOk(a, io.wsize) && AllOk(b, io.wsize) && AllOk(d, io.wsize) && AllOk(e, io.wsize)
      modifies io, io.chunk
      ensures AllOk(a + b + d + e, io.wsize) && Emitted(a + b + d + e)
    {
      hide Writer.Mapped, EncFields, AllOk;
      PutFields(a);
      PutFields(b);
      Join(old(io.stream), a, b);
      PutFields(d);
      Join(old(io.stream), a + b, d);
      PutFields(e);
      Join(old(io.stream), a + b + d, e);
    }

    method PutAttached(c: Call, mem: Memory)
      requires Valid() && io.reentrance == 1 && CallOk(c, State(), io.wsize) && c.GetAttachedShaders?
      modifies io, io.chunk
      ensures AllOk(Puts(c, State(), mem, io.wsize), io.wsize) && Emitted(Puts(c, State(), mem, io.wsize))
    {
      var head, got :=
        [FInt(c.program), FInt(c.maxcount), FPtr(c.countPtr), FPtr(c.shadersPtr)], OptionalInt(c.countPtr, c.got);
      assert AllOk(head, io.wsize) && AllOk(got, io.wsize);
      assert Puts(c, State(), mem, io.wsize) == head + got + Ints(c.shaders);
      hide Writer.Mapped, EncFields, OptionalInt, AllOk, Puts, CallOk, Ints;
      PutFields(head);
      PutFields(got);
      Join(old(io.stream), head, got);
      PutInts(c.shaders);
      Join(old(io.stream), head + got, Ints(c.shaders));
    }

    static lemma ChooseShape(c: Call, g: GL, mem: Memory, w: WordSize)
      requires CallOk(c, g, w) && c.ChooseConfig?
      ensures var dpy, sizes, configs, res :=
                [FPtr(c.dpy)], [FInt(c.configSize), FInt(c.numConfig)], Ptrs(c.configs), [FInt(c.res)];
              && AllOk(dpy, w) && AllOk(sizes, w) && AllOk(configs, w) && AllOk(res, w)
              && Puts(c, g, mem, w) == dpy + AttrPuts(c.attribs) + sizes + configs + res
    {
      GoodPtrs(c.configs, w);
    }

    method PutChoose(c: Call, mem: Memory)
      requires Valid() && io.reentrance == 1 && CallOk(c, State(), io.wsize) && c.ChooseConfig?
      modifies io, io.chunk
      ensures AllOk(Puts(c, State(), mem, io.wsize), io.wsize) && Emitted(Puts(c, State(), mem, io.wsize))
    {
      hide Writer.Mapped, EncFields, AllOk, Puts, CallOk, Ptrs, AttrPuts;
      var dpy, sizes, configs, res :=
        [FPtr(c.dpy)], [FInt(c.configSize), FInt(c.numConfig)], Ptrs(c.configs), [FInt(c.res)];
      ChooseShape(c, State(), mem, io.wsize);
      ghost var start, attrs := old(io.stream), AttrPuts(c.attribs);
      PutFields(dpy);
      PutAttrs(c.attribs);
      Join(start, dpy, attrs);
      PutFields(sizes);
      Join(start, dpy + attrs, sizes);
      PutFields(configs);
      Join(start, dpy + attrs + sizes, configs);
      PutFields(res);
      Join(start, dpy + attrs + sizes + configs, res);
    }

    method PutCreate(c: Call, mem: Memory)
      requires Valid() && io.reentrance == 1 && CallOk(c, State(), io.wsize) && c.Create?
      modifies io, io.chunk
      ensures AllOk(Puts(c, State(), mem, io.wsize), io.wsize) && Emitted(Puts(c, State(), mem, io.wsize))
    {
      var head, handle := [FPtr(c.dpy), FPtr(c.config), FPtr(c.third)], [FPtr(c.handle)];
      assert AllOk(head, io.wsize) && AllOk(handle, io.wsize);
      assert Puts(c, State(), mem, io.wsize) == head + AttrPuts(c.attribs) + handle;
      hide Writer.Mapped, EncFields, AllOk, Puts, CallOk, AttrPuts;
      PutFields(head);
      PutAttrs(c.attribs);
      Join(old(io.stream), head, AttrPuts(c.attribs));
      PutFields(handle);
      Join(old(io.stream), head + AttrPuts(c.attribs), handle);
    }

    // The assignments to the shadow variables.
    method Update(c: Call)
      requires vertexAttrib.Length == MAX_VERTEX_ATTRIBS && CallOk(c, State(), io.wsize)
      modifies this`arrayBufferBinding, this`elementArrayBufferBinding, vertexAttrib
      ensures State() == Effect(old(State()), c, io.wsize)
    {
      if c.Plain? {
        KindsGive(c.args);
        StateLayouts(c.opcode);
        hide WriterLayout;
        if c.opcode == OPC_glBindBuffer {
          var target, buffer := c.args[0].i, c.args[1].i;
          if target == GL_ARRAY_BUFFER {
            arrayBufferBinding := buffer;
          } else if target == GL_ELEMENT_ARRAY_BUFFER {
            elementArrayBufferBinding := buffer;
          }
        } else if c.opcode == OPC_glEnableVertexAttribArray {
          vertexAttrib[c.args[0].i] := vertexAttrib[c.args[0].i].(enabled := true);
        } else if c.opcode == OPC_glDisableVertexAttribArray {
          vertexAttrib[c.args[0].i] := vertexAttrib[c.args[0].i].(enabled := false);
        } else if c.opcode == OPC_glVertexAttribPointer {
          var i := c.args[0].i;
          vertexAttrib[i] := VertexAttrib(vertexAttrib[i].enabled, c.args[1].i, c.args[2].i, c.args[3].i, c.args[4].i,
                                          c.args[5].p);
        }
      }
    }

    // A wrapper called outside any other, around the forwarded call.
    method Record(i: Issue)
      requires Valid() && io.reentrance == 0 && i.thr < Range(io.wsize) && CallOk(i.call, State(), io.wsize)
      modifies this, vertexAttrib, io, io.chunk
      ensures Valid() && (io.chunk == old(io.chunk) || fresh(io.chunk))
      ensures io.reentrance == 0 && io.curThread == i.thr
      ensures io.stream == old(io.stream) + (ThreadPrefix(old(io.curThread), i.thr, io.wsize) +
                                             EncBody(i, old(State()), io.wsize))
      ensures State() == Effect(old(State()), i.call, io.wsize)
    {
      hide Writer.Mapped, EncFields, AllOk, Puts, CallOk, EncInt, EncLongLong, Effect;
      ghost var g := State();
      PutsOk(i.call, g, i.mem, io.wsize);
      ghost var prefix, op, args := ThreadPrefix(io.curThread, i.thr, io.wsize), EncInt(i.call.Op()),
                                    EncFields(Puts(i.call, g, i.mem, io.wsize), io.wsize);
      io.PutCmd(i.thr, i.call.Op());
      PutArgs(i.call, i.mem);
      io.PutTime(i.bgn, i.end);
      Glue(old(io.stream), prefix, op, args, EncLongLong(i.bgn) + EncLongLong(i.end));
      Update(i.call);
    }

    lemma Glue(start: seq<byte>, a: seq<byte>, b: seq<byte>, d: seq<byte>, e: seq<byte>)
      ensures start + (a + b) + d + e == start + (a + (b + d + e))
    {
    }

    // Calls one after the other, by whatever threads.
    method RecordAll(issues: seq<Issue>)
      requires Valid() && io.reentrance == 0 && RunOk(issues, State(), io.wsize)
      modifies this, vertexAttrib, io, io.chunk
      ensures Valid() && (io.chunk == old(io.chunk) || fresh(io.chunk)) && io.reentrance == 0
      ensures io.stream == old(io.stream) + EncRun(issues, old(io.curThread), old(State()), io.wsize)
      ensures State() == GLAfter(issues, old(State()), io.wsize)
      decreases |issues|
    {
      if issues == [] {
        assert io.stream + [] == io.stream;
      } else {
        ghost var body := ThreadPrefix(io.curThread, issues[0].thr, io.wsize) + EncBody(issues[0], State(), io.wsize);
        hide Writer.Mapped, EncBody, ThreadPrefix, CallOk, Effect;
        Record(issues[0]);
        Assoc(old(io.stream), body, EncRun(issues[1..], io.curThread, State(), io.wsize));
        RecordAll(issues[1..]);
      }
    }
  }

  // A traced process from start to exit: the file it leaves.
  method RecordTrace(issues: seq<Issue>, w: WordSize) returns (file: seq<byte>)
    requires RunOk(issues, GL_INITIAL, w)
    ensures file == Header(w) + EncRun(issues, 0, GL_INITIAL, w)
  {
    var r := new Recorder(w);
    r.RecordAll(issues);
    file := r.io.Fini();
  }

  // Copies the elements of an attribute array behind each other, stepping over what lies between
  // them where a stride is given.
  method PackInto(mem: Memory, a: VertexAttrib, vertices: int, buf: array<byte>) returns (dst: nat)
    requires a.ElemSize() * Count(vertices) <= buf.Length
    modifies buf
    ensures dst == Count(vertices) * a.ElemSize() <= buf.Length
    ensures buf[..dst] == Pack(mem, a, Count(vertices))
  {
    var src: int := a.pointer;
    var elemsz, step := a.ElemSize(), a.Step();
    dst := 0;
    var j := 0;
    while j < vertices
      invariant 0 <= j <= Count(vertices)
      invariant dst == j * elemsz <= buf.Length
      invariant src == a.pointer + j * step
      invariant buf[..dst] == Pack(mem, a, j)
    {
      Times1(j, elemsz, Count(vertices));
      Times1(j, step, Count(vertices));
      CopyElement(mem, src, elemsz, buf, dst);
      assert Pack(mem, a, j + 1) == Pack(mem, a, j) + MemAt(mem, a.pointer + j * step, elemsz);
      src, dst := src + elemsz, dst + elemsz;
      if a.stride > 0 {
        src := src + (a.stride - elemsz);
      }
      j := j + 1;
    }
  }

  lemma TimesCount(e: nat, v: int)
    ensures e * Count(v) == if v >= 0 then e * v else 0
  {
  }

  lemma Times1(j: nat, k: nat, n: nat)
    requires j < n
    ensures (j + 1) * k == j * k + k <= n * k == k * n
  {
    Grids.TimesMonotone(j + 1, n, k, k);
  }

  method CopyElement(mem: Memory, src: int, elemsz: nat, buf: array<byte>, dst: nat)
    requires dst + elemsz <= buf.Length
    modifies buf
    ensures buf[..dst + elemsz] == old(buf[..dst]) + MemAt(mem, src, elemsz)
  {
    for k := 0 to elemsz
      invariant buf[..dst] == old(buf[..dst])
      invariant buf[dst..dst + k] == MemAt(mem, src, k)
    {
      buf[dst + k] := mem(src + k);
    }
    assert buf[..dst + elemsz] == buf[..dst] + buf[dst..dst + elemsz];
  }
}
