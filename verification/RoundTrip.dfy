// The replayer undoes the recorder: call by call, with the exact condition under which it
// does, and over whole traces.

module RoundTrip {
  import opened Seqs
  import opened Words
  import opened Format
  import opened Records
  import opened Calls
  import opened TraceWriter
  import opened Replay

  // The two shadow states agree on all that decides the shape of a record, and, when the
  // replayer executes, on the layout it passes on with each blob.
  predicate Mirrors(g: GL, m: Mirror, exec: bool) {
    && g.Valid() && m.Valid()
    && m.arrayBuf == g.arrayBuf && m.elemBuf == g.elemBuf
    && forall i :: 0 <= i < MAX_VERTEX_ATTRIBS ==>
      && m.attribs[i].enabled == g.attribs[i].enabled
      && (exec ==> m.attribs[i].size == g.attribs[i].size && m.attribs[i].typ == g.attribs[i].typ &&
                   m.attribs[i].normalized == g.attribs[i].normalized)
  }

  // What a caller can check before a call to know that its record will be read back:
  // a command that the reader knows, no NULL or marker float pointer, a uniform's name for an
  // executing replayer to compare, shader names only for such a replayer, and no more
  // attribute pairs than the reader's array takes beside the terminator.
  predicate ReadsBack(c: Call, exec: bool) {
    match c
    case Plain(op, args) => AllInSync(args) && !Unread(op)
    case GetActiveUniform(_, _, _, _, _, _, namePtr, _, _, _, _) => exec ==> namePtr != 0
    case GetAttachedShaders(_, _, _, _, _, shaders) => exec || shaders == []
    case ChooseConfig(_, attribs, _, _, _, _) => |attribs| <= 31
    case Create(_, _, _, _, attribs, _) => |attribs| <= 31
    case _ => true
  }

  // The calls at which the replayer gives up: it does not implement the command, has no room
  // for the attributes, or no name to compare.
  predicate Halts(c: Call, exec: bool) {
    match c
    case Plain(op, _) => Unread(op)
    case GetActiveUniform(_, _, _, _, _, _, namePtr, _, _, _, _) => exec && namePtr == 0
    case ChooseConfig(_, attribs, _, _, _, _) => |attribs| > 31
    case Create(_, _, _, _, attribs, _) => |attribs| > 31
    case _ => false
  }

  lemma ThenBack(pre: seq<Field>, fs: seq<Field>, w: WordSize, tail: seq<byte>)
    requires Good(fs, w)
    ensures Then(Parsed(pre, EncFields(fs, w) + tail), Kinds(fs), w) == Parsed(pre + SeenAll(fs, w), tail)
  {
    FieldsBack(fs, w, tail);
  }

  // The same for the first part of a longer list.
  lemma ThenFirst(pre: seq<Field>, fs: seq<Field>, more: seq<Field>, w: WordSize, tail: seq<byte>)
    requires Good(fs, w) && Good(more, w)
    ensures AllOk(fs + more, w)
    ensures Then(Parsed(pre, EncFields(fs + more, w) + tail), Kinds(fs), w) ==
            Parsed(pre + SeenAll(fs, w), EncFields(more, w) + tail)
  {
    EncFieldsAppend(fs, more, w);
    Assoc(EncFields(fs, w), EncFields(more, w), tail);
    ThenBack(pre, fs, w, EncFields(more, w) + tail);
  }

  // A list read in two parts.
  lemma TwoBack(a: seq<Field>, b: seq<Field>, w: WordSize, tail: seq<byte>)
    requires Good(a, w) && Good(b, w)
    ensures AllOk(a + b, w)
    ensures Then(Parsed([], EncFields(a + b, w) + tail), Kinds(a), w) ==
            Parsed(SeenAll(a, w), EncFields(b, w) + tail)
    ensures Then(Parsed(SeenAll(a, w), EncFields(b, w) + tail), Kinds(b), w) ==
            Parsed(SeenAll(a + b, w), tail)
  {
    ThenFirst([], a, b, w, tail);
    assert [] + SeenAll(a, w) == SeenAll(a, w);
    ThenBack(SeenAll(a, w), b, w, tail);
    SeenAppend(a, b, w);
  }

  lemma KindsAppend(a: seq<Field>, b: seq<Field>)
    ensures Kinds(a + b) == Kinds(a) + Kinds(b)
  {
  }

  lemma ThenNothing(pre: seq<Field>, s: seq<byte>, w: WordSize)
    ensures Then(Parsed(pre, s), [], w) == Parsed(pre, s)
  {
  }

  lemma KindsOfInts(xs: seq<int32>)
    ensures Kinds(Ints(xs)) == Times(KInt, |xs|)
  {
  }

  lemma KindsOfPtrs(ps: seq<uint64>)
    ensures Kinds(Ptrs(ps)) == Times(KPtr, |ps|)
  {
  }

  // ---- Attribute lists ----

  lemma EncPair(a: Attr, more: seq<Field>, w: WordSize)
    requires AllOk(more, w)
    ensures AllOk([FInt(a.name), FInt(a.value)] + more, w)
    ensures EncFields([FInt(a.name), FInt(a.value)] + more, w) ==
            EncInt(a.name) + (EncInt(a.value) + EncFields(more, w))
  {
    var fs := [FInt(a.name), FInt(a.value)];
    EncFieldsAppend(fs, more, w);
    assert fs[1..] == [FInt(a.value)] && [FInt(a.value)][1..] == [];
    assert EncFields(fs, w) == EncInt(a.name) + (EncInt(a.value) + EncFields([], w));
    assert EncInt(a.value) + EncFields([], w) == EncInt(a.value);
    Assoc(EncInt(a.name), EncInt(a.value), EncFields(more, w));
  }

  // Pair by pair until the terminator, or until the array is full: then the reader exits.
  lemma {:induction false} AttrsBack(attribs: seq<Attr>, i: nat, pre: seq<Field>, w: WordSize, tail: seq<byte>)
    requires i % 2 == 0 && i <= ATTRIB_ROOM
    requires forall a :: a in attribs ==> a.name != EGL_NONE
    ensures AllOk(AttrPuts(attribs), w)
    ensures GetAttrs(i, Parsed(pre, EncFields(AttrPuts(attribs), w) + tail)) ==
            if i + 2 * |attribs| < ATTRIB_ROOM then Parsed(pre + AttrPuts(attribs), tail) else Fatal
    decreases |attribs|
  {
    AttrPutsOk(attribs, w);
    hide EncInt, GetInt;
    if attribs == [] {
      assert EncFields([FInt(EGL_NONE)], w) == EncInt(EGL_NONE) + EncFields([], w);
      assert EncInt(EGL_NONE) + [] == EncInt(EGL_NONE);
      IntBack(EGL_NONE, tail);
    } else {
      var a, more := attribs[0], AttrPuts(attribs[1..]);
      AttrPutsOk(attribs[1..], w);
      EncPair(a, more, w);
      var rest := EncFields(more, w) + tail;
      assert EncFields(AttrPuts(attribs), w) + tail == EncInt(a.name) + (EncInt(a.value) + rest);
      IntBack(a.name, EncInt(a.value) + rest);
      IntBack(a.value, rest);
      if i < ATTRIB_ROOM {
        var pre' := pre + [FInt(a.name), FInt(a.value)];
        AttrsBack(attribs[1..], i + 2, pre', w, tail);
        Assoc(pre, [FInt(a.name), FInt(a.value)], more);
      }
    }
  }

  // ---- Shader sources ----

  lemma {:induction false} GetSourcesSnoc(n: nat, o: Outcome, w: WordSize)
    requires n > 0
    ensures GetSources(n, o, w) == GetSources(1, GetSources(n - 1, o, w), w)
    decreases n
  {
    hide Then;
    if n > 1 && o.Parsed? {
      var len := Then(o, [KInt], w);
      GetSourcesSnoc(n - 1, Then(len, [if IntAt(len, |o.args|) > 0 then KBytes else KString], w), w);
    }
  }

  lemma SourceBack(len: int32, str: Option<seq<byte>>, pre: seq<Field>, w: WordSize, tail: seq<byte>)
    requires SourceOk(len, str)
    ensures Good(SourcePut(len, str), w)
    ensures GetSources(1, Parsed(pre, EncFields(SourcePut(len, str), w) + tail), w) ==
            Parsed(pre + SeenAll(SourcePut(len, str), w), tail)
  {
    hide GetSources, Then, EncFields, SeenAll, Kinds, Good, AllOk, AllInSync, SourcePut, SourceOk;
    SourceShape(len, str, w);
    var first, second := [SourcePut(len, str)[0]], [SourcePut(len, str)[1]];
    SourceUnfold(Parsed(pre, EncFields(SourcePut(len, str), w) + tail), w);
    GoodAppend(first, second, w);
    ThenFirst(pre, first, second, w, tail);
    ThenBack(pre + [FInt(len)], second, w, tail);
    SeenAppend(first, second, w);
    Assoc(pre, SeenAll(first, w), SeenAll(second, w));
  }

  lemma SourceShape(len: int32, str: Option<seq<byte>>, w: WordSize)
    requires SourceOk(len, str)
    ensures |SourcePut(len, str)| == 2 && Good(SourcePut(len, str), w)
    ensures var first, second := [SourcePut(len, str)[0]], [SourcePut(len, str)[1]];
            && SourcePut(len, str) == first + second
            && Good(first, w) && Kinds(first) == [KInt] && SeenAll(first, w) == [FInt(len)]
            && Good(second, w) && Kinds(second) == [if len > 0 then KBytes else KString]
  {
  }

  lemma SourceUnfold(o: Outcome, w: WordSize)
    requires o.Parsed?
    ensures var len := Then(o, [KInt], w);
            GetSources(1, o, w) == Then(len, [if IntAt(len, |o.args|) > 0 then KBytes else KString], w)
  {
  }

  lemma {:induction false} SourcesBack(strings: seq<Option<seq<byte>>>, lengths: Option<seq<int32>>, n: nat,
                                       pre: seq<Field>, w: WordSize, tail: seq<byte>)
    requires SourcesOk(strings, lengths) && n <= |strings|
    ensures Good(SourcePuts(strings, lengths, n), w)
    ensures GetSources(n, Parsed(pre, EncFields(SourcePuts(strings, lengths, n), w) + tail), w) ==
            Parsed(pre + SeenAll(SourcePuts(strings, lengths, n), w), tail)
  {
    hide Then, EncFields;
    SourcePutsOk(strings, lengths, n, w);
    if n == 0 {
      assert EncFields([], w) == [] by { NoFields(w); }
      assert [] + tail == tail;
    } else {
      var before, last := SourcePuts(strings, lengths, n - 1), SourcePut(SourceLen(lengths, n - 1), strings[n - 1]);
      SourcePutsOk(strings, lengths, n - 1, w);
      SourceBack(SourceLen(lengths, n - 1), strings[n - 1], pre + SeenAll(before, w), w, tail);
      EncFieldsAppend(before, last, w);
      Assoc(EncFields(before, w), EncFields(last, w), tail);
      SourcesBack(strings, lengths, n - 1, pre, w, EncFields(last, w) + tail);
      GetSourcesSnoc(n, Parsed(pre, EncFields(before + last, w) + tail), w);
      SeenAppend(before, last, w);
      Assoc(pre, SeenAll(before, w), SeenAll(last, w));
    }
  }

  lemma NoFields(w: WordSize)
    ensures EncFields([], w) == []
  {
  }

  // ---- One call ----

  lemma PlainBack(c: Call, g: GL, m: Mirror, exec: bool, mem: Memory, w: WordSize, tail: seq<byte>)
    requires CallOk(c, g, w) && c.Plain?
    ensures AllOk(Puts(c, g, mem, w), w)
    ensures (GetArgs(c.Op(), m, exec, EncFields(Puts(c, g, mem, w), w) + tail, w) ==
            Parsed(SeenAll(Puts(c, g, mem, w), w), tail)) <==> (ReadsBack(c, exec))
  {
    hide EncField, GetField, EncFloatPtr, GetFloatPtr;
    var args := c.args;
    SidesAgree(c.opcode);
    if Unread(c.opcode) {
      UnreadOp(c.opcode, m, exec, EncFields(args, w) + tail, w);
    } else if AllInSync(args) {
      ThenBack([], args, w, tail);
      assert [] + SeenAll(args, w) == SeenAll(args, w);
    } else {
      FloatLayout(c.opcode, args);
      var first, second := [args[0]], [args[1]];
      assert args == first + second;
      EncFieldsAppend(first, second, w);
      Assoc(EncFields(first, w), EncFields(second, w), tail);
      FieldsBack(first, w, EncFields(second, w) + tail);
      OneField(args[1], w);
      FieldBack(args[1], w, tail);
      TwoGets(args[0].Kind(), args[1].Kind(), EncFields(args, w) + tail, w);
      assert Kinds(first) == [args[0].Kind()];
    }
  }

  lemma OneField(f: Field, w: WordSize)
    requires f.Ok(w)
    ensures EncFields([f], w) == EncField(f, w)
  {
    assert [f][1..] == [];
    assert EncField(f, w) + [] == EncField(f, w);
  }

  lemma TwoGets(a: Kind, b: Kind, s: seq<byte>, w: WordSize)
    ensures GetFields([a, b], s, w).rest == GetField(b, GetFields([a], s, w).rest, w).rest
  {
    assert [a, b][1..] == [b] && [a][1..] == [] && [b][1..] == [];
    assert GetFields([b], GetField(a, s, w).rest, w).rest == GetField(b, GetField(a, s, w).rest, w).rest;
  }

  // glGetFloatv is the only plain call with a float pointer, and has it last.
  lemma FloatLayout(op: int32, args: seq<Field>)
    requires WriterLayout(op) == Some(Kinds(args)) && !AllInSync(args)
    ensures op == OPC_glGetFloatv && |args| == 2 && Kinds(args) == [KInt, KFloatPtr]
    ensures args[0].InSync() && !args[1].InSync()
  {
    var i :| 0 <= i < |args| && !args[i].InSync();
    FloatOp(op, i);
    assert Kinds(args)[0] == args[0].Kind() && Kinds(args)[1] == args[1].Kind() && Kinds(args)[i] == KFloatPtr;
  }

  lemma FloatOp(op: int32, i: nat)
    requires WriterLayout(op).Some? && i < |WriterLayout(op).value| && WriterLayout(op).value[i] == KFloatPtr
    ensures op == OPC_glGetFloatv && i == 1 && WriterLayout(op).value == [KInt, KFloatPtr]
  {
  }

  lemma NamesBack(c: Call, g: GL, mem: Memory, w: WordSize, tail: seq<byte>)
    requires CallOk(c, g, w) && c.Names?
    ensures AllOk(Puts(c, g, mem, w), w)
    ensures GetNames(EncFields(Puts(c, g, mem, w), w) + tail, w) == Parsed(SeenAll(Puts(c, g, mem, w), w), tail)
  {
    hide WriterLayout;
    var n, ids := [FInt(c.n)], Ints(c.ids);
    assert Good(n, w) && Kinds(n) == [KInt] && SeenAll(n, w) == n;
    GoodInts(c.ids, w);
    KindsOfInts(c.ids);
    hide Then, EncFields, SeenAll, Kinds, Good, AllOk;
    TwoBack(n, ids, w, tail);
  }

  lemma ShaderSourceBack(c: Call, g: GL, mem: Memory, w: WordSize, tail: seq<byte>)
    requires CallOk(c, g, w) && c.ShaderSource?
    ensures AllOk(Puts(c, g, mem, w), w)
    ensures GetShaderSource(EncFields(Puts(c, g, mem, w), w) + tail, w) ==
            Parsed(SeenAll(Puts(c, g, mem, w), w), tail)
  {
    hide WriterLayout;
    var head, sources := [FInt(c.shader), FInt(c.count)], SourcePuts(c.strings, c.lengths, |c.strings|);
    assert Good(head, w) && Kinds(head) == [KInt, KInt] && SeenAll(head, w) == head;
    SourcePutsOk(c.strings, c.lengths, |c.strings|, w);
    assert Good(sources, w);
    hide Then, EncFields, SeenAll, Kinds, Good, AllOk, SourcePuts;
    TwoBack(head, sources, w, tail);
    SourcesBack(c.strings, c.lengths, |c.strings|, head, w, tail);
    SeenAppend(head, sources, w);
  }

  lemma {:induction false} VertexKinds(g: GL, m: Mirror, exec: bool, mem: Memory, n: nat, upto: nat)
    requires Mirrors(g, m, exec) && VertexOk(g, n) && upto <= MAX_VERTEX_ATTRIBS
    ensures Kinds(VertexPuts(g, mem, n, upto)) == Times(KBytes, Enabled(m.attribs[..upto]))
  {
    if upto > 0 {
      VertexKinds(g, m, exec, mem, n, upto - 1);
      assert m.attribs[..upto][..upto - 1] == m.attribs[..upto - 1];
      var last := VertexPut(mem, g.attribs[upto - 1], n);
      assert Kinds(last) == if m.attribs[upto - 1].enabled then [KBytes] else [];
      hide VertexOk, Mirrors, Pack, VertexPut;
      KindsAppend(VertexPuts(g, mem, n, upto - 1), last);
    }
  }

  // The blob of attribute i stands after those of the enabled attributes before it.
  lemma {:induction false} VertexAt(g: GL, m: Mirror, exec: bool, mem: Memory, n: nat, i: nat, upto: nat)
    requires Mirrors(g, m, exec) && VertexOk(g, n) && i < upto <= MAX_VERTEX_ATTRIBS && g.attribs[i].enabled
    ensures var k, blobs := Enabled(m.attribs[..i]), VertexPuts(g, mem, n, upto);
            k < |blobs| && [blobs[k]] == VertexPut(mem, g.attribs[i], n)
    decreases upto
  {
    hide Pack;
    VertexKinds(g, m, exec, mem, n, upto - 1);
    assert |VertexPuts(g, mem, n, upto - 1)| == Enabled(m.attribs[..upto - 1]);
    if i < upto - 1 {
      VertexAt(g, m, exec, mem, n, i, upto - 1);
    }
  }

  // Every vertex of every quad: a draw of 6*q indices, and up to five more. An executing
  // replayer that looks for element j of attribute i with the size and type it has noted, in
  // the blob it was given for i and with stride 0, finds element j of the application's
  // array, byte for byte.
  lemma ReplayedElement(c: Call, g: GL, m: Mirror, mem: Memory, w: WordSize, i: nat, q: nat, j: nat)
    requires CallOk(c, g, w) && c.DrawElements? && Mirrors(g, m, true) && g.arrayBuf == 0
    requires i < MAX_VERTEX_ATTRIBS && g.attribs[i].enabled && 6 * q <= c.count < 6 * q + 6 && j < 4 * q
    ensures AllOk(Puts(c, g, mem, w), w)
    ensures m.attribs[i].size == g.attribs[i].size && m.attribs[i].typ == g.attribs[i].typ
    ensures var args, k, a := SeenAll(Puts(c, g, mem, w), w), 4 + Enabled(m.attribs[..i]), g.attribs[i];
            var e := if a.size > 0 then GLBytes(a.typ) * a.size else 0;
            var step := if a.stride > 0 then a.stride else e;
            k < |args| && args[k].FBytes? &&
            (e > 0 ==>
               && args[k].data.Some? && 0 <= j * e <= j * e + e <= |args[k].data.value|
               && IsMemory(args[k].data.value[j * e..j * e + e], mem, a.pointer + j * step))
  {
    hide VertexPuts, Pack, Enabled, Puts, CallOk, Mirrors, VertexAttrib.ElemSize, VertexAttrib.Step, Count, GlSizeof;
    hide GLBytes, VertexCount;
    DrawPutsOk(c, g, mem, w);
    SameAttr(c, g, m, mem, w, i);
    LiteralSizes(g.attribs[i]);
    QuadVertices(q, c.count - 6 * q);
    CountOf(4 * q);
    var n, a := Count(VertexCount(c.count)), g.attribs[i];
    VertexAt(g, m, true, mem, n, i, MAX_VERTEX_ATTRIBS);
    PackedElement(mem, a, n, j);
    var k, e := Enabled(m.attribs[..i]), a.ElemSize();
    assert Puts(c, g, mem, w)[4 + k] == FBytes(Some(Pack(mem, a, n)), n * e);
    assert IsMemory(MemAt(mem, a.pointer + j * a.Step(), e), mem, a.pointer + j * a.Step());
  }

  lemma LiteralSizes(a: VertexAttrib)
    ensures a.ElemSize() == if a.size > 0 then GLBytes(a.typ) * a.size else 0
    ensures a.Step() == if a.stride > 0 then a.stride else a.ElemSize()
  {
    SizeofIsGL(a.typ);
  }

  lemma CountOf(n: nat)
    ensures Count(n) == n
  {
  }

  lemma SameAttr(c: Call, g: GL, m: Mirror, mem: Memory, w: WordSize, i: nat)
    requires CallOk(c, g, w) && c.DrawElements? && Mirrors(g, m, true) && g.arrayBuf == 0
    requires i < MAX_VERTEX_ATTRIBS && g.attribs[i].enabled
    ensures var n := Count(VertexCount(c.count));
            && VertexOk(g, n) && |m.attribs| == MAX_VERTEX_ATTRIBS == |g.attribs|
            && m.attribs[i].size == g.attribs[i].size && m.attribs[i].typ == g.attribs[i].typ
            && GlSizeof(g.attribs[i].typ).Some? && n * g.attribs[i].ElemSize() < 0x8000_0000
            && Puts(c, g, mem, w) == [FInt(c.mode), FInt(c.count), FInt(c.typ),
                                      IndexPut(g, mem, c.count, c.typ, c.indices)] +
                                     VertexPuts(g, mem, n, MAX_VERTEX_ATTRIBS)
  {
    hide VertexPuts, Pack, WriterLayout;
  }

  // As many blobs are read as were written, because the enabled flags agree.
  lemma DrawBack(c: Call, g: GL, m: Mirror, exec: bool, mem: Memory, w: WordSize, tail: seq<byte>)
    requires CallOk(c, g, w) && c.DrawElements? && Mirrors(g, m, exec)
    ensures AllOk(Puts(c, g, mem, w), w)
    ensures GetDraw(m, EncFields(Puts(c, g, mem, w), w) + tail, w) == Parsed(SeenAll(Puts(c, g, mem, w), w), tail)
  {
    hide WriterLayout;
    var n := Count(VertexCount(c.count));
    var head := [FInt(c.mode), FInt(c.count), FInt(c.typ), IndexPut(g, mem, c.count, c.typ, c.indices)];
    var blobs := if g.arrayBuf == 0 then VertexPuts(g, mem, n, MAX_VERTEX_ATTRIBS) else [];
    assert Good(head, w) && Kinds(head) == [KInt, KInt, KInt, if m.elemBuf != 0 then KPtr else KBytes];
    if g.arrayBuf == 0 {
      VertexPutsOk(g, mem, n, MAX_VERTEX_ATTRIBS, w);
      VertexKinds(g, m, exec, mem, n, MAX_VERTEX_ATTRIBS);
      assert m.attribs[..MAX_VERTEX_ATTRIBS] == m.attribs;
    }
    assert Good(blobs, w) && Kinds(blobs) == if m.arrayBuf == 0 then Times(KBytes, Enabled(m.attribs)) else [];
    hide Then, EncFields, SeenAll, Kinds, Good, AllOk, VertexPuts, IndexPut, VertexOk;
    TwoBack(head, blobs, w, tail);
  }

  lemma OptionalKinds(p: uint64, i: int32, w: WordSize)
    requires p < Range(w)
    ensures Kinds(OptionalInt(p, i)) == Optional(PtrView(p, w), KInt)
    ensures Good(OptionalInt(p, i), w)
  {
    PtrViewExact(p, w);
  }

  lemma UniformParts(c: Call, g: GL, mem: Memory, w: WordSize)
    requires CallOk(c, g, w) && c.GetActiveUniform?
    ensures var head := [FInt(c.program), FInt(c.index), FInt(c.bufsize), FPtr(c.lengthPtr), FPtr(c.sizePtr),
                         FPtr(c.typePtr), FPtr(c.namePtr)];
            var results := OptionalInt(c.lengthPtr, c.length) + OptionalInt(c.sizePtr, c.size) +
                           OptionalInt(c.typePtr, c.kind) + if c.namePtr != 0 then [FString(Some(c.name))] else [];
            && Puts(c, g, mem, w) == head + results
            && Good(head, w) && Good(results, w)
            && Kinds(results) ==
               Optional(PtrView(c.lengthPtr, w), KInt) + Optional(PtrView(c.sizePtr, w), KInt) +
               Optional(PtrView(c.typePtr, w), KInt) + Optional(PtrView(c.namePtr, w), KString)
  {
    hide WriterLayout;
    var a, b, d := OptionalInt(c.lengthPtr, c.length), OptionalInt(c.sizePtr, c.size), OptionalInt(c.typePtr, c.kind);
    var name := if c.namePtr != 0 then [FString(Some(c.name))] else [];
    OptionalKinds(c.lengthPtr, c.length, w);
    OptionalKinds(c.sizePtr, c.size, w);
    OptionalKinds(c.typePtr, c.kind, w);
    PtrViewExact(c.namePtr, w);
    assert Kinds(name) == Optional(PtrView(c.namePtr, w), KString);
    UniformPutsOk(c, g, mem, w);
    assert Good(name, w);
    hide OptionalInt, PtrView, Optional, AllOk, AllInSync, Kinds, Puts;
    GoodAppend(a, b, w);
    GoodAppend(a + b, d, w);
    GoodAppend(a + b + d, name, w);
    KindsAppend(a, b);
    KindsAppend(a + b, d);
    KindsAppend(a + b + d, name);
  }

  lemma UniformBack(c: Call, g: GL, exec: bool, mem: Memory, w: WordSize, tail: seq<byte>)
    requires CallOk(c, g, w) && c.GetActiveUniform?
    ensures AllOk(Puts(c, g, mem, w), w)
    ensures GetUniform(exec, EncFields(Puts(c, g, mem, w), w) + tail, w) ==
            if exec && c.namePtr == 0 then Fatal else Parsed(SeenAll(Puts(c, g, mem, w), w), tail)
  {
    hide WriterLayout, CallOk, Puts, Then, EncFields, SeenAll, Kinds;
    hide AllInSync, AllOk, OptionalInt, PtrView, Optional, Field.Ok;
    var head := [FInt(c.program), FInt(c.index), FInt(c.bufsize), FPtr(c.lengthPtr), FPtr(c.sizePtr),
                 FPtr(c.typePtr), FPtr(c.namePtr)];
    var results := OptionalInt(c.lengthPtr, c.length) + OptionalInt(c.sizePtr, c.size) +
                   OptionalInt(c.typePtr, c.kind) + if c.namePtr != 0 then [FString(Some(c.name))] else [];
    UniformParts(c, g, mem, w);
    UniformHead(c, g, w);
    TwoBack(head, results, w, tail);
  }

  lemma UniformHead(c: Call, g: GL, w: WordSize)
    requires CallOk(c, g, w) && c.GetActiveUniform?
    ensures var head := [FInt(c.program), FInt(c.index), FInt(c.bufsize), FPtr(c.lengthPtr), FPtr(c.sizePtr),
                         FPtr(c.typePtr), FPtr(c.namePtr)];
            && AllOk(head, w) && Kinds(head) == [KInt, KInt, KInt, KPtr, KPtr, KPtr, KPtr]
            && SeenAll(head, w)[3] == FPtr(PtrView(c.lengthPtr, w))
            && SeenAll(head, w)[4] == FPtr(PtrView(c.sizePtr, w))
            && SeenAll(head, w)[5] == FPtr(PtrView(c.typePtr, w)) && SeenAll(head, w)[6] == FPtr(PtrView(c.namePtr, w))
            && (PtrView(c.namePtr, w) == 0 <==> c.namePtr == 0)
  {
    hide WriterLayout, PtrView;
    PtrViewExact(c.namePtr, w);
  }

  lemma AttachedParts(a: seq<Field>, b: seq<Field>, d: seq<Field>, w: WordSize, tail: seq<byte>)
    requires Good(a, w) && Good(b, w) && Good(d, w)
    ensures AllOk(a + b, w) && AllOk(a + b + d, w)
    ensures var first := Then(Parsed([], EncFields(a + b + d, w) + tail), Kinds(a), w);
            var second := Then(first, Kinds(b), w);
            && first.Parsed? && first.args == SeenAll(a, w)
            && second == Parsed(SeenAll(a + b, w), EncFields(d, w) + tail)
            && Then(second, Kinds(d), w) == Parsed(SeenAll(a + b + d, w), tail)
  {
    GoodAppend(a, b, w);
    GoodAppend(b, d, w);
    GoodAppend(a + b, d, w);
    hide Then, EncFields, SeenAll, Kinds, AllInSync, AllOk;
    Assoc(a, b, d);
    TwoBack(a, b + d, w, tail);
    ThenFirst(SeenAll(a, w), b, d, w, tail);
    SeenAppend(a, b, w);
    TwoBack(a + b, d, w, tail);
  }

  lemma AttachedShape(c: Call, g: GL, mem: Memory, w: WordSize)
    requires CallOk(c, g, w) && c.GetAttachedShaders?
    ensures var head, got, names := [FInt(c.program), FInt(c.maxcount), FPtr(c.countPtr), FPtr(c.shadersPtr)],
                                    OptionalInt(c.countPtr, c.got), Ints(c.shaders);
            && Good(head, w) && Kinds(head) == [KInt, KInt, KPtr, KPtr]
            && SeenAll(head, w)[2] == FPtr(PtrView(c.countPtr, w))
            && SeenAll(head, w)[3] == FPtr(PtrView(c.shadersPtr, w))
            && (PtrView(c.countPtr, w) == 0 <==> c.countPtr == 0)
            && (PtrView(c.shadersPtr, w) == 0 <==> c.shadersPtr == 0)
            && AllOk(head + got, w) && SeenAll(head + got, w) == SeenAll(head, w) + SeenAll(got, w)
            && (c.countPtr != 0 ==> SeenAll(head + got, w)[4] == FInt(c.got))
            && AllOk(names, w) && (c.shaders != [] ==> |EncFields(names, w)| > 0)
            && Puts(c, g, mem, w) == head + got + names
            && |c.shaders| == (if c.countPtr != 0 && c.shadersPtr != 0 then Count(c.got) else 0)
            && c.countPtr < Range(w)
  {
    hide WriterLayout;
    var head := [FInt(c.program), FInt(c.maxcount), FPtr(c.countPtr), FPtr(c.shadersPtr)];
    var got := OptionalInt(c.countPtr, c.got);
    assert Good(head, w);
    GoodInts(c.shaders, w);
    OptionalKinds(c.countPtr, c.got, w);
    PtrViewExact(c.countPtr, w);
    PtrViewExact(c.shadersPtr, w);
    SeenAppend(head, got, w);
  }

  // Without execution the names stay in the stream.
  lemma AttachedBack(c: Call, g: GL, exec: bool, mem: Memory, w: WordSize, tail: seq<byte>)
    requires CallOk(c, g, w) && c.GetAttachedShaders?
    ensures AllOk(Puts(c, g, mem, w), w)
    ensures (GetAttached(exec, EncFields(Puts(c, g, mem, w), w) + tail, w) ==
            Parsed(SeenAll(Puts(c, g, mem, w), w), tail)) <==> (exec || c.shaders == [])
  {
    hide WriterLayout, CallOk, Puts, Then, EncFields, SeenAll, Good, AllOk, OptionalInt, PtrView, Field.Ok, Ints, Kinds;
    var head := [FInt(c.program), FInt(c.maxcount), FPtr(c.countPtr), FPtr(c.shadersPtr)];
    var got, names := OptionalInt(c.countPtr, c.got), Ints(c.shaders);
    AttachedShape(c, g, mem, w);
    GoodInts(c.shaders, w);
    KindsOfInts(c.shaders);
    OptionalKinds(c.countPtr, c.got, w);
    AttachedParts(head, got, names, w, tail);
    ThenNothing(SeenAll(head + got, w), EncFields(names, w) + tail, w);
  }

  // The part behind the attribute list.
  lemma ConfigsBack(c: Call, pre: seq<Field>, w: WordSize, tail: seq<byte>)
    requires c.ChooseConfig? && |c.configs| == Count(Min(c.numConfig, c.configSize))
    requires forall p :: p in c.configs ==> p < Range(w)
    ensures var sizes, more := [FInt(c.configSize), FInt(c.numConfig)], Ptrs(c.configs) + [FInt(c.res)];
            && Good(sizes + more, w) && Good(more, w)
            && var b := Then(Parsed(pre, EncFields(sizes + more, w) + tail), [KInt, KInt], w);
               && b == Parsed(pre + sizes, EncFields(more, w) + tail)
               && Then(b, Times(KPtr, Min(c.numConfig, c.configSize)) + [KInt], w) ==
                  Parsed(pre + SeenAll(sizes + more, w), tail)
  {
    var sizes, configs, res := [FInt(c.configSize), FInt(c.numConfig)], Ptrs(c.configs), [FInt(c.res)];
    assert Good(sizes, w) && Kinds(sizes) == [KInt, KInt] && SeenAll(sizes, w) == sizes;
    assert Good(res, w) && Kinds(res) == [KInt];
    GoodPtrs(c.configs, w);
    KindsOfPtrs(c.configs);
    KindsAppend(configs, res);
    hide Then, EncFields, SeenAll, Kinds, Good, AllOk, Ptrs;
    GoodAppend(configs, res, w);
    GoodAppend(sizes, configs + res, w);
    ThenFirst(pre, sizes, configs + res, w, tail);
    ThenBack(pre + sizes, configs + res, w, tail);
    SeenAppend(sizes, configs + res, w);
    Assoc(pre, sizes, SeenAll(configs + res, w));
  }

  lemma ChooseUnfold(s: seq<byte>, a0: Outcome, configSize: int32, numConfig: int32, w: WordSize)
    requires a0 == Then(Parsed([], s), [KPtr], w)
    ensures var a := GetAttrs(0, a0);
            if !a.Parsed? then GetChoose(s, w) == a
            else
              var b := Then(a, [KInt, KInt], w);
              b.Parsed? && b.args == a.args + [FInt(configSize), FInt(numConfig)] ==>
                GetChoose(s, w) == Then(b, Times(KPtr, Min(numConfig, configSize)) + [KInt], w)
  {
    hide Then, GetAttrs, Times;
  }

  lemma ChoosePuts(c: Call, g: GL, mem: Memory, w: WordSize)
    requires CallOk(c, g, w) && c.ChooseConfig?
    ensures Puts(c, g, mem, w) == [FPtr(c.dpy)] + (AttrPuts(c.attribs) +
            ([FInt(c.configSize), FInt(c.numConfig)] + (Ptrs(c.configs) + [FInt(c.res)])))
    ensures Good([FPtr(c.dpy)], w) && Kinds([FPtr(c.dpy)]) == [KPtr]
    ensures |c.configs| == Count(Min(c.numConfig, c.configSize)) && forall p :: p in c.configs ==> p < Range(w)
    ensures forall a :: a in c.attribs ==> a.name != EGL_NONE
  {
    hide AttrPuts, Ptrs;
    var a, b, d, e := [FPtr(c.dpy)], AttrPuts(c.attribs), [FInt(c.configSize), FInt(c.numConfig)], Ptrs(c.configs);
    Assoc(a + b + d, e, [FInt(c.res)]);
    Assoc(a + b, d, e + [FInt(c.res)]);
    Assoc(a, b, d + (e + [FInt(c.res)]));
  }

  lemma ChooseBack(c: Call, g: GL, mem: Memory, w: WordSize, tail: seq<byte>)
    requires CallOk(c, g, w) && c.ChooseConfig?
    ensures AllOk(Puts(c, g, mem, w), w)
    ensures (GetChoose(EncFields(Puts(c, g, mem, w), w) + tail, w) ==
            Parsed(SeenAll(Puts(c, g, mem, w), w), tail)) <==> (|c.attribs| <= 31)
    ensures |c.attribs| > 31 ==> GetChoose(EncFields(Puts(c, g, mem, w), w) + tail, w) == Fatal
  {
    var dpy, attrs := [FPtr(c.dpy)], AttrPuts(c.attribs);
    var sizes, more := [FInt(c.configSize), FInt(c.numConfig)], Ptrs(c.configs) + [FInt(c.res)];
    ChoosePuts(c, g, mem, w);
    hide Puts, CallOk, Then, EncFields, Kinds, AllInSync, AllOk;
    hide AttrPuts, Ptrs, GetAttrs, Field.Ok, WriterLayout, Times;
    AttrPutsOk(c.attribs, w);
    SeenAttrs(c.attribs, w);
    var pre := SeenAll(dpy, w) + attrs;
    ConfigsBack(c, pre, w, tail);
    hide SeenAll;
    GoodAppend(attrs, sizes + more, w);
    TwoBack(dpy, attrs + (sizes + more), w, tail);
    EncFieldsAppend(attrs, sizes + more, w);
    Assoc(EncFields(attrs, w), EncFields(sizes + more, w), tail);
    var a0 := Then(Parsed([], EncFields(dpy + (attrs + (sizes + more)), w) + tail), [KPtr], w);
    AttrsBack(c.attribs, 0, SeenAll(dpy, w), w, EncFields(sizes + more, w) + tail);
    ChooseUnfold(EncFields(dpy + (attrs + (sizes + more)), w) + tail, a0, c.configSize, c.numConfig, w);
    hide GetChoose;
    SeenAppend(attrs, sizes + more, w);
    SeenAppend(dpy, attrs + (sizes + more), w);
    Assoc(SeenAll(dpy, w), attrs, SeenAll(sizes + more, w));
  }

  lemma SeenAttrs(attribs: seq<Attr>, w: WordSize)
    ensures AllOk(AttrPuts(attribs), w) && SeenAll(AttrPuts(attribs), w) == AttrPuts(attribs)
  {
    AttrPutsOk(attribs, w);
    AttrPutsAreInts(attribs);
  }

  lemma {:induction false} AttrPutsAreInts(attribs: seq<Attr>)
    ensures forall i :: 0 <= i < |AttrPuts(attribs)| ==> AttrPuts(attribs)[i].FInt?
  {
    if attribs != [] {
      AttrPutsAreInts(attribs[1..]);
    }
  }

  lemma CreateBack(c: Call, g: GL, mem: Memory, w: WordSize, tail: seq<byte>)
    requires CallOk(c, g, w) && c.Create?
    ensures AllOk(Puts(c, g, mem, w), w)
    ensures (GetCreate(EncFields(Puts(c, g, mem, w), w) + tail, w) ==
            Parsed(SeenAll(Puts(c, g, mem, w), w), tail)) <==> (|c.attribs| <= 31)
    ensures |c.attribs| > 31 ==> GetCreate(EncFields(Puts(c, g, mem, w), w) + tail, w) == Fatal
  {
    hide WriterLayout;
    hide GetFields, EncFields;
    var head, attrs, handle := [FPtr(c.dpy), FPtr(c.config), FPtr(c.third)], AttrPuts(c.attribs), [FPtr(c.handle)];
    assert Good(head, w) && Good(handle, w);
    AttrPutsOk(c.attribs, w);
    GoodAppend(attrs, handle, w);
    Assoc(head, attrs, handle);
    ThenFirst([], head, attrs + handle, w, tail);
    assert Kinds(head) == [KPtr, KPtr, KPtr] && [] + SeenAll(head, w) == SeenAll(head, w);
    EncFieldsAppend(attrs, handle, w);
    Assoc(EncFields(attrs, w), EncFields(handle, w), tail);
    AttrsBack(c.attribs, 0, SeenAll(head, w), w, EncFields(handle, w) + tail);
    if |c.attribs| <= 31 {
      ThenBack(SeenAll(head, w) + attrs, handle, w, tail);
      assert Kinds(handle) == [KPtr];
      SeenAttrs(c.attribs, w);
      SeenAppend(attrs, handle, w);
      SeenAppend(head, attrs + handle, w);
      Assoc(SeenAll(head, w), attrs, SeenAll(handle, w));
    }
  }

  lemma Irregular(op: int32)
    requires op == OPC_glShaderSource || op == OPC_glDrawElements || op == OPC_glGetActiveUniform ||
             op == OPC_glGetAttachedShaders || op == OPC_eglChooseConfig || op == OPC_eglCreateWindowSurface ||
             op == OPC_eglCreateContext || IsCounted(op)
    ensures WriterLayout(op).None? && ReaderLayout(op).None?
  {
  }

  lemma UnreadOp(op: int32, m: Mirror, exec: bool, s: seq<byte>, w: WordSize)
    requires Unread(op)
    ensures GetArgs(op, m, exec, s, w) == NotImplemented
  {
    hide WriterLayout, ReaderLayout;
    OneSided(op);
  }

  // Which case of the switch takes the opcode of a call.
  lemma SwitchOf(c: Call, g: GL, m: Mirror, exec: bool, s: seq<byte>, w: WordSize)
    requires CallOk(c, g, w)
    ensures !c.Plain? ==>
      GetArgs(c.Op(), m, exec, s, w) ==
      match c
        case Names(_, _, _) => GetNames(s, w)
        case ShaderSource(_, _, _, _) => GetShaderSource(s, w)
        case DrawElements(_, _, _, _) => GetDraw(m, s, w)
        case GetActiveUniform(_, _, _, _, _, _, _, _, _, _, _) => GetUniform(exec, s, w)
        case GetAttachedShaders(_, _, _, _, _, _) => GetAttached(exec, s, w)
        case ChooseConfig(_, _, _, _, _, _) => GetChoose(s, w)
        case _ => GetCreate(s, w)
  {
    hide Then, GetNames, GetShaderSource, GetDraw, GetUniform, GetAttached, GetChoose, GetCreate;
    if !c.Plain? {
      var op := c.Op();
      assert op == OPC_glShaderSource || op == OPC_glDrawElements || op == OPC_glGetActiveUniform ||
             op == OPC_glGetAttachedShaders || op == OPC_eglChooseConfig || op == OPC_eglCreateWindowSurface ||
             op == OPC_eglCreateContext || IsCounted(op);
      assert c.Names? <==> IsCounted(op);
      hide CallOk;
      Irregular(op);
      hide WriterLayout, IsCounted;
    }
  }

  // Giving up is clean: nothing is read as something else.
  lemma CallHalts(c: Call, g: GL, m: Mirror, exec: bool, mem: Memory, w: WordSize, tail: seq<byte>)
    requires CallOk(c, g, w) && Halts(c, exec)
    ensures AllOk(Puts(c, g, mem, w), w)
    ensures GetArgs(c.Op(), m, exec, EncFields(Puts(c, g, mem, w), w) + tail, w) ==
            if c.Plain? then NotImplemented else Fatal
  {
    hide CallOk, GetArgs, Puts, EncFields, AllOk, GetUniform, GetChoose, GetCreate, Unread;
    PutsOk(c, g, mem, w);
    SwitchOf(c, g, m, exec, EncFields(Puts(c, g, mem, w), w) + tail, w);
    match c
    case Plain(op, _) => UnreadOp(op, m, exec, EncFields(Puts(c, g, mem, w), w) + tail, w);
    case GetActiveUniform(_, _, _, _, _, _, _, _, _, _, _) => UniformBack(c, g, exec, mem, w, tail);
    case ChooseConfig(_, _, _, _, _, _) => ChooseBack(c, g, mem, w, tail);
    case Create(_, _, _, _, _, _) => CreateBack(c, g, mem, w, tail);
  }

  // Between mirrored states, the gets of a case undo the puts of its wrapper, and leave
  // the reader exactly behind them, if and only if the call is one that reads back.
  lemma CallBack(c: Call, g: GL, m: Mirror, exec: bool, mem: Memory, w: WordSize, tail: seq<byte>)
    requires CallOk(c, g, w) && Mirrors(g, m, exec)
    ensures AllOk(Puts(c, g, mem, w), w)
    ensures (GetArgs(c.Op(), m, exec, EncFields(Puts(c, g, mem, w), w) + tail, w) ==
            Parsed(SeenAll(Puts(c, g, mem, w), w), tail)) <==> (ReadsBack(c, exec))
  {
    hide CallOk, GetArgs, Puts, EncFields, SeenAll, AllOk, Mirrors, Call.Op;
    hide GetNames, GetShaderSource, GetDraw, GetUniform, GetAttached, GetChoose, GetCreate;
    PutsOk(c, g, mem, w);
    SwitchOf(c, g, m, exec, EncFields(Puts(c, g, mem, w), w) + tail, w);
    match c
    case Plain(_, _) => PlainBack(c, g, m, exec, mem, w, tail);
    case Names(_, _, _) => NamesBack(c, g, mem, w, tail);
    case ShaderSource(_, _, _, _) => ShaderSourceBack(c, g, mem, w, tail);
    case DrawElements(_, _, _, _) => DrawBack(c, g, m, exec, mem, w, tail);
    case GetActiveUniform(_, _, _, _, _, _, _, _, _, _, _) => UniformBack(c, g, exec, mem, w, tail);
    case GetAttachedShaders(_, _, _, _, _, _) => AttachedBack(c, g, exec, mem, w, tail);
    case ChooseConfig(_, _, _, _, _, _) => ChooseBack(c, g, mem, w, tail);
    case Create(_, _, _, _, _, _) => CreateBack(c, g, mem, w, tail);
  }
}
