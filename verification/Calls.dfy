// The recorder's side of a call: the shadow of the GL state that gles.c keeps, and the
// puts each wrapper makes between putCmd and putTime.

module Calls {
  import opened Seqs
  import opened Words
  import opened Format
  import opened Records

  const MAX_VERTEX_ATTRIBS: nat := 128
  const GL_ARRAY_BUFFER: int32 := 0x8892
  const GL_ELEMENT_ARRAY_BUFFER: int32 := 0x8893

  // The application's memory.
  type Memory = int -> byte

  function MemAt(mem: Memory, p: int, n: nat): (s: seq<byte>)
    ensures |s| == n
  {
    seq(n, i => mem(p + i))
  }

  // The bytes are those of the memory at p.
  predicate IsMemory(s: seq<byte>, mem: Memory, p: int) {
    forall b :: 0 <= b < |s| ==> s[b] == mem(p + b)
  }

  // None: the wrapper ends the process.
  function GlSizeof(typ: int32): Option<nat> {
    match typ
    case 0x1400 | 0x1401 => Some(1)
    case 0x1402 | 0x1403 => Some(2)
    case 0x1404 | 0x1405 | 0x1406 => Some(4)
    case _ => None
  }

  // OpenGL ES 2.0, table 2.2: the bytes of a value of a type, from GL_BYTE to GL_FLOAT.
  function GLBytes(typ: int32): nat {
    if typ == 0x1400 || typ == 0x1401 then 1
    else if typ == 0x1402 || typ == 0x1403 then 2
    else if 0x1404 <= typ <= 0x1406 then 4
    else 0
  }

  lemma SizeofIsGL(typ: int32)
    ensures GlSizeof(typ) == if GLBytes(typ) > 0 then Some(GLBytes(typ)) else None
  {
  }

  datatype VertexAttrib = VertexAttrib(enabled: bool, size: int32, typ: int32, normalized: int32, stride: int32,
                                       pointer: uint64)
  {
    function ElemSize(): nat {
      match GlSizeof(typ)
      case Some(sz) => Count(sz * size)
      case None => 0
    }

    // Distance from one element to the next in the application's array.
    function Step(): nat {
      if stride > 0 then stride else ElemSize()
    }
  }

  // The static variables of gles.c.
  datatype GL = GL(arrayBuf: int32, elemBuf: int32, attribs: seq<VertexAttrib>) {
    predicate Valid() {
      |attribs| == MAX_VERTEX_ATTRIBS
    }
  }

  const GL_INITIAL := GL(0, 0, seq(MAX_VERTEX_ATTRIBS, _ => VertexAttrib(false, 0, 0, 0, 0, 0)))

  // The hack for quads: count/6*4, C's division.
  function VertexCount(count: int): int {
    if count >= 0 then count / 6 * 4 else -(-count / 6 * 4)
  }

  // A draw of 6*q indices records 4*q vertices; up to five indices more make no quad.
  lemma QuadVertices(q: nat, r: nat)
    requires r < 6
    ensures VertexCount(6 * q + r) == 4 * q && VertexCount(-(6 * q + r)) == -4 * q
  {
    assert (6 * q + r) / 6 == q;
  }

  // The first n elements of an attribute array, packed.
  function Pack(mem: Memory, a: VertexAttrib, n: nat): (s: seq<byte>)
    ensures |s| == n * a.ElemSize()
  {
    if n == 0 then [] else Pack(mem, a, n - 1) + MemAt(mem, a.pointer + (n - 1) * a.Step(), a.ElemSize())
  }

  datatype Attr = Attr(name: int32, value: int32)

  datatype Call =
    | Plain(opcode: int32, args: seq<Field>)
    | Names(opcode: int32, n: int32, ids: seq<int32>)
    | ShaderSource(shader: int32, count: int32, strings: seq<Option<seq<byte>>>, lengths: Option<seq<int32>>)
    | DrawElements(mode: int32, count: int32, typ: int32, indices: uint64)
    | GetActiveUniform(program: int32, index: int32, bufsize: int32, lengthPtr: uint64, sizePtr: uint64,
                       typePtr: uint64, namePtr: uint64, length: int32, size: int32, kind: int32, name: CString)
    | GetAttachedShaders(program: int32, maxcount: int32, countPtr: uint64, shadersPtr: uint64, got: int32,
                         shaders: seq<int32>)
    | ChooseConfig(dpy: uint64, attribs: seq<Attr>, configSize: int32, numConfig: int32, configs: seq<uint64>,
                   res: int32)
    | Create(opcode: int32, dpy: uint64, config: uint64, third: uint64, attribs: seq<Attr>, handle: uint64)
  {
    function Op(): int32 {
      match this
      case ShaderSource(_, _, _, _) => OPC_glShaderSource
      case DrawElements(_, _, _, _) => OPC_glDrawElements
      case GetActiveUniform(_, _, _, _, _, _, _, _, _, _, _) => OPC_glGetActiveUniform
      case GetAttachedShaders(_, _, _, _, _, _) => OPC_glGetAttachedShaders
      case ChooseConfig(_, _, _, _, _, _) => OPC_eglChooseConfig
      case _ => opcode
    }
  }

  function Ints(xs: seq<int32>): (fs: seq<Field>)
    ensures |fs| == |xs|
  {
    seq(|xs|, i requires 0 <= i < |xs| => FInt(xs[i]))
  }

  function Ptrs(ps: seq<uint64>): (fs: seq<Field>)
    ensures |fs| == |ps|
  {
    seq(|ps|, i requires 0 <= i < |ps| => FPtr(ps[i]))
  }

  // The attribute list up to and with its terminator; a NULL list is an empty one.
  function AttrPuts(attribs: seq<Attr>): seq<Field> {
    if attribs == [] then [FInt(EGL_NONE)]
    else [FInt(attribs[0].name), FInt(attribs[0].value)] + AttrPuts(attribs[1..])
  }

  function SourceLen(lengths: Option<seq<int32>>, i: nat): int32
    requires lengths.Some? ==> i < |lengths.value|
  {
    if lengths.None? then 0 else lengths.value[i]
  }

  // One shader string: its length and its bytes, or its text up to the NUL.
  predicate SourceOk(len: int32, str: Option<seq<byte>>) {
    if len > 0 then BlobOk(str, len) else str.Some? ==> 0 !in str.value
  }

  function SourcePut(len: int32, str: Option<seq<byte>>): seq<Field>
    requires SourceOk(len, str)
  {
    [FInt(len), if len > 0 then FBytes(str, len) else FString(if str.None? then None else Some(str.value))]
  }

  predicate SourcesOk(strings: seq<Option<seq<byte>>>, lengths: Option<seq<int32>>) {
    && (lengths.Some? ==> |lengths.value| == |strings|)
    && forall i :: 0 <= i < |strings| ==> SourceOk(SourceLen(lengths, i), strings[i])
  }

  function SourcePuts(strings: seq<Option<seq<byte>>>, lengths: Option<seq<int32>>, n: nat): seq<Field>
    requires SourcesOk(strings, lengths) && n <= |strings|
  {
    if n == 0 then []
    else SourcePuts(strings, lengths, n - 1) + SourcePut(SourceLen(lengths, n - 1), strings[n - 1])
  }

  // Attributes are written in index order, the enabled ones only.
  predicate VertexOk(g: GL, n: nat) {
    g.Valid() &&
    forall i :: 0 <= i < MAX_VERTEX_ATTRIBS && g.attribs[i].enabled ==>
      GlSizeof(g.attribs[i].typ).Some? && n * g.attribs[i].ElemSize() < 0x8000_0000
  }

  function VertexPut(mem: Memory, a: VertexAttrib, n: nat): seq<Field>
    requires a.enabled ==> n * a.ElemSize() < 0x8000_0000
  {
    if a.enabled then [FBytes(Some(Pack(mem, a, n)), n * a.ElemSize())] else []
  }

  function VertexPuts(g: GL, mem: Memory, n: nat, upto: nat): seq<Field>
    requires VertexOk(g, n) && upto <= MAX_VERTEX_ATTRIBS
  {
    if upto == 0 then [] else VertexPuts(g, mem, n, upto - 1) + VertexPut(mem, g.attribs[upto - 1], n)
  }

  function IndexPut(g: GL, mem: Memory, count: int32, typ: int32, indices: uint64): Field
    requires GlSizeof(typ).Some? && -0x8000_0000 <= count * GlSizeof(typ).value < 0x8000_0000
  {
    var size := count * GlSizeof(typ).value;
    if g.elemBuf != 0 then FPtr(indices)
    else FBytes(if indices == 0 then None else Some(MemAt(mem, indices, Count(size))), size)
  }

  function OptionalInt(p: uint64, i: int32): seq<Field> {
    if p != 0 then [FInt(i)] else []
  }

  // What the wrapper asks of its caller and of the GL that it forwards to.
  predicate CallOk(c: Call, g: GL, w: WordSize) {
    g.Valid() &&
    match c
    case Plain(op, args) =>
      && WriterLayout(op) == Some(Kinds(args))
      && AllOk(args, w)
      && (op == OPC_glEnableVertexAttribArray || op == OPC_glDisableVertexAttribArray ||
          op == OPC_glVertexAttribPointer ==>
            |args| > 0 && args[0].FInt? && 0 <= args[0].i < MAX_VERTEX_ATTRIBS)
      && (op == OPC_glVertexAttribPointer ==> |args| == 6 && args[3].FInt? && 0 <= args[3].i < 256)
    case Names(op, n, ids) => IsCounted(op) && |ids| == Count(n)
    case ShaderSource(_, count, strings, lengths) => |strings| == Count(count) && SourcesOk(strings, lengths)
    case DrawElements(_, count, typ, indices) =>
      && GlSizeof(typ).Some?
      && -0x8000_0000 <= count * GlSizeof(typ).value < 0x8000_0000
      && indices < Range(w)
      && (g.arrayBuf == 0 ==> VertexOk(g, Count(VertexCount(count))))
    case GetActiveUniform(_, _, _, lengthPtr, sizePtr, typePtr, namePtr, _, _, _, _) =>
      lengthPtr < Range(w) && sizePtr < Range(w) && typePtr < Range(w) && namePtr < Range(w)
    case GetAttachedShaders(_, _, countPtr, shadersPtr, got, shaders) =>
      && countPtr < Range(w) && shadersPtr < Range(w)
      && |shaders| == if countPtr != 0 && shadersPtr != 0 then Count(got) else 0
    case ChooseConfig(dpy, attribs, configSize, numConfig, configs, _) =>
      && dpy < Range(w)
      && (forall a :: a in attribs ==> a.name != EGL_NONE)
      && |configs| == Count(Min(numConfig, configSize))
      && (forall p :: p in configs ==> p < Range(w))
    case Create(op, dpy, config, third, attribs, handle) =>
      && (op == OPC_eglCreateWindowSurface || op == OPC_eglCreateContext)
      && dpy < Range(w) && config < Range(w) && third < Range(w) && handle < Range(w)
      && (forall a :: a in attribs ==> a.name != EGL_NONE)
  }

  // The puts of the wrapper, in order.
  function Puts(c: Call, g: GL, mem: Memory, w: WordSize): seq<Field>
    requires CallOk(c, g, w)
  {
    match c
    case Plain(_, args) => args
    case Names(_, n, ids) => [FInt(n)] + Ints(ids)
    case ShaderSource(shader, count, strings, lengths) =>
      [FInt(shader), FInt(count)] + SourcePuts(strings, lengths, |strings|)
    case DrawElements(mode, count, typ, indices) =>
      [FInt(mode), FInt(count), FInt(typ), IndexPut(g, mem, count, typ, indices)] +
      if g.arrayBuf == 0 then VertexPuts(g, mem, Count(VertexCount(count)), MAX_VERTEX_ATTRIBS) else []
    case GetActiveUniform(program, index, bufsize, lengthPtr, sizePtr, typePtr, namePtr, length, size, kind, name) =>
      [FInt(program), FInt(index), FInt(bufsize), FPtr(lengthPtr), FPtr(sizePtr), FPtr(typePtr), FPtr(namePtr)] +
      (OptionalInt(lengthPtr, length) + OptionalInt(sizePtr, size) + OptionalInt(typePtr, kind) +
       if namePtr != 0 then [FString(Some(name))] else [])
    case GetAttachedShaders(program, maxcount, countPtr, shadersPtr, got, shaders) =>
      [FInt(program), FInt(maxcount), FPtr(countPtr), FPtr(shadersPtr)] + OptionalInt(countPtr, got) + Ints(shaders)
    case ChooseConfig(dpy, attribs, configSize, numConfig, configs, res) =>
      [FPtr(dpy)] + AttrPuts(attribs) + [FInt(configSize), FInt(numConfig)] + Ptrs(configs) + [FInt(res)]
    case Create(_, dpy, config, third, attribs, handle) =>
      [FPtr(dpy), FPtr(config), FPtr(third)] + AttrPuts(attribs) + [FPtr(handle)]
  }

  // What the wrapper does to the shadow state.
  function Effect(g: GL, c: Call, w: WordSize): (g': GL)
    requires CallOk(c, g, w)
    ensures g'.Valid()
  {
    if !c.Plain? then g
    else if c.opcode == OPC_glBindBuffer then
      KindsGive(c.args);
      var target, buffer := c.args[0].i, c.args[1].i;
      if target == GL_ARRAY_BUFFER then g.(arrayBuf := buffer)
      else if target == GL_ELEMENT_ARRAY_BUFFER then g.(elemBuf := buffer)
      else g
    else if c.opcode == OPC_glEnableVertexAttribArray then
      g.(attribs := g.attribs[c.args[0].i := g.attribs[c.args[0].i].(enabled := true)])
    else if c.opcode == OPC_glDisableVertexAttribArray then
      g.(attribs := g.attribs[c.args[0].i := g.attribs[c.args[0].i].(enabled := false)])
    else if c.opcode == OPC_glVertexAttribPointer then
      KindsGive(c.args);
      g.(attribs := g.attribs[c.args[0].i :=
           VertexAttrib(g.attribs[c.args[0].i].enabled, c.args[1].i, c.args[2].i, c.args[3].i, c.args[4].i,
                        c.args[5].p)])
    else g
  }

  lemma KindsGive(fs: seq<Field>)
    ensures forall i :: 0 <= i < |fs| ==> fs[i].Kind() == Kinds(fs)[i]
  {
  }

  lemma {:induction false} SourcePutsOk(strings: seq<Option<seq<byte>>>, lengths: Option<seq<int32>>, n: nat,
                                        w: WordSize)
    requires SourcesOk(strings, lengths) && n <= |strings|
    ensures AllOk(SourcePuts(strings, lengths, n), w) && AllInSync(SourcePuts(strings, lengths, n))
  {
    if n > 0 {
      SourcePutsOk(strings, lengths, n - 1, w);
    }
  }

  lemma {:induction false} VertexPutsOk(g: GL, mem: Memory, n: nat, upto: nat, w: WordSize)
    requires VertexOk(g, n) && upto <= MAX_VERTEX_ATTRIBS
    ensures AllOk(VertexPuts(g, mem, n, upto), w) && AllInSync(VertexPuts(g, mem, n, upto))
  {
    if upto > 0 {
      VertexPutsOk(g, mem, n, upto - 1, w);
    }
  }

  lemma {:induction false} AttrPutsOk(attribs: seq<Attr>, w: WordSize)
    ensures AllOk(AttrPuts(attribs), w) && AllInSync(AttrPuts(attribs))
  {
    if attribs != [] {
      AttrPutsOk(attribs[1..], w);
    }
  }

  ghost predicate Good(fs: seq<Field>, w: WordSize) {
    AllOk(fs, w) && AllInSync(fs)
  }

  lemma GoodAppend(a: seq<Field>, b: seq<Field>, w: WordSize)
    requires Good(a, w) && Good(b, w)
    ensures Good(a + b, w)
  {
  }

  lemma GoodInts(xs: seq<int32>, w: WordSize)
    ensures Good(Ints(xs), w)
  {
  }

  lemma GoodPtrs(ps: seq<uint64>, w: WordSize)
    requires forall p :: p in ps ==> p < Range(w)
    ensures Good(Ptrs(ps), w)
  {
    forall i | 0 <= i < |ps|
      ensures ps[i] in ps
    {
    }
  }

  lemma UniformPutsOk(c: Call, g: GL, mem: Memory, w: WordSize)
    requires CallOk(c, g, w) && c.GetActiveUniform?
    ensures Good(Puts(c, g, mem, w), w)
  {
    var a, b, d := OptionalInt(c.lengthPtr, c.length), OptionalInt(c.sizePtr, c.size), OptionalInt(c.typePtr, c.kind);
    var name := if c.namePtr != 0 then [FString(Some(c.name))] else [];
    var fixed := [FInt(c.program), FInt(c.index), FInt(c.bufsize), FPtr(c.lengthPtr), FPtr(c.sizePtr),
                  FPtr(c.typePtr), FPtr(c.namePtr)];
    assert Good(fixed, w) && Good(a, w) && Good(b, w) && Good(d, w) && Good(name, w);
    GoodAppend(a, b, w);
    GoodAppend(a + b, d, w);
    GoodAppend(a + b + d, name, w);
    GoodAppend(fixed, a + b + d + name, w);
  }

  lemma ShadersPutsOk(c: Call, g: GL, mem: Memory, w: WordSize)
    requires CallOk(c, g, w) && c.GetAttachedShaders?
    ensures Good(Puts(c, g, mem, w), w)
  {
    var fixed := [FInt(c.program), FInt(c.maxcount), FPtr(c.countPtr), FPtr(c.shadersPtr)];
    assert Good(fixed, w) && Good(OptionalInt(c.countPtr, c.got), w);
    GoodAppend(fixed, OptionalInt(c.countPtr, c.got), w);
    GoodInts(c.shaders, w);
    GoodAppend(fixed + OptionalInt(c.countPtr, c.got), Ints(c.shaders), w);
  }

  lemma ChoosePutsOk(c: Call, g: GL, mem: Memory, w: WordSize)
    requires CallOk(c, g, w) && c.ChooseConfig?
    ensures Good(Puts(c, g, mem, w), w)
  {
    var sizes, res := [FInt(c.configSize), FInt(c.numConfig)], [FInt(c.res)];
    assert Good([FPtr(c.dpy)], w) && Good(sizes, w) && Good(res, w);
    GoodPtrs(c.configs, w);
    AttrPutsOk(c.attribs, w);
    GoodAppend([FPtr(c.dpy)], AttrPuts(c.attribs), w);
    GoodAppend([FPtr(c.dpy)] + AttrPuts(c.attribs), sizes, w);
    GoodAppend([FPtr(c.dpy)] + AttrPuts(c.attribs) + sizes, Ptrs(c.configs), w);
    GoodAppend([FPtr(c.dpy)] + AttrPuts(c.attribs) + sizes + Ptrs(c.configs), res, w);
  }

  lemma CreatePutsOk(c: Call, g: GL, mem: Memory, w: WordSize)
    requires CallOk(c, g, w) && c.Create?
    ensures Good(Puts(c, g, mem, w), w)
  {
    var fixed := [FPtr(c.dpy), FPtr(c.config), FPtr(c.third)];
    assert Good(fixed, w) && Good([FPtr(c.handle)], w);
    AttrPutsOk(c.attribs, w);
    GoodAppend(fixed, AttrPuts(c.attribs), w);
    GoodAppend(fixed + AttrPuts(c.attribs), [FPtr(c.handle)], w);
  }

  lemma DrawPutsOk(c: Call, g: GL, mem: Memory, w: WordSize)
    requires CallOk(c, g, w) && c.DrawElements?
    ensures Good(Puts(c, g, mem, w), w)
  {
    var fixed := [FInt(c.mode), FInt(c.count), FInt(c.typ), IndexPut(g, mem, c.count, c.typ, c.indices)];
    assert Good(fixed, w);
    if g.arrayBuf == 0 {
      var n := Count(VertexCount(c.count));
      VertexPutsOk(g, mem, n, MAX_VERTEX_ATTRIBS, w);
      GoodAppend(fixed, VertexPuts(g, mem, n, MAX_VERTEX_ATTRIBS), w);
    }
  }

  // Every put of a wrapper is in range; only a plain call can put a float pointer.
  lemma PutsOk(c: Call, g: GL, mem: Memory, w: WordSize)
    requires CallOk(c, g, w)
    ensures AllOk(Puts(c, g, mem, w), w)
    ensures !c.Plain? ==> AllInSync(Puts(c, g, mem, w))
  {
    match c
    case Plain(_, _) =>
    case Names(_, n, ids) =>
      GoodInts(ids, w);
      GoodAppend([FInt(n)], Ints(ids), w);
    case ShaderSource(shader, count, strings, lengths) =>
      SourcePutsOk(strings, lengths, |strings|, w);
      GoodAppend([FInt(shader), FInt(count)], SourcePuts(strings, lengths, |strings|), w);
    case DrawElements(_, _, _, _) => DrawPutsOk(c, g, mem, w);
    case GetActiveUniform(_, _, _, _, _, _, _, _, _, _, _) => UniformPutsOk(c, g, mem, w);
    case GetAttachedShaders(_, _, _, _, _, _) => ShadersPutsOk(c, g, mem, w);
    case ChooseConfig(_, _, _, _, _, _) => ChoosePutsOk(c, g, mem, w);
    case Create(_, _, _, _, _, _) => CreatePutsOk(c, g, mem, w);
  }

  // Element j of a packed array, where a reader with stride 0 looks for it, is element j
  // of the application's array, where the application's stride puts it.
  lemma {:induction false} PackedElement(mem: Memory, a: VertexAttrib, n: nat, j: nat)
    requires j < n
    ensures 0 <= j * a.ElemSize() <= j * a.ElemSize() + a.ElemSize() <= |Pack(mem, a, n)|
    ensures Pack(mem, a, n)[j * a.ElemSize()..j * a.ElemSize() + a.ElemSize()] ==
            MemAt(mem, a.pointer + j * a.Step(), a.ElemSize())
  {
    var e := a.ElemSize();
    assert n * e == (n - 1) * e + e;
    if j == n - 1 {
      SplitAt(Pack(mem, a, n - 1), MemAt(mem, a.pointer + (n - 1) * a.Step(), e));
    } else {
      PackedElement(mem, a, n - 1, j);
      assert Pack(mem, a, n)[j * e..j * e + e] == Pack(mem, a, n - 1)[j * e..j * e + e];
    }
  }
}
