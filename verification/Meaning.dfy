// What a replayed call says: position by position, the values that the application passed
// and GL gave back.

module Meaning {
  import opened Words
  import opened Format
  import opened Records
  import opened Calls
  import opened Replay
  import opened RoundTrip
  import opened Traces

  // What glBindBuffer, glEnableVertexAttribArray, glDisableVertexAttribArray and
  // glVertexAttribPointer leave noted, and nothing else.
  lemma BindNoted(g: GL, target: int32, buffer: int32, w: WordSize)
    requires CallOk(Plain(OPC_glBindBuffer, [FInt(target), FInt(buffer)]), g, w)
    ensures Effect(g, Plain(OPC_glBindBuffer, [FInt(target), FInt(buffer)]), w) ==
            GL(if target == 0x8892 then buffer else g.arrayBuf, if target == 0x8893 then buffer else g.elemBuf,
               g.attribs)
  {
  }

  lemma EnableNoted(g: GL, k: int32, on: bool, w: WordSize)
    requires 0 <= k < MAX_VERTEX_ATTRIBS
    requires var op := if on then OPC_glEnableVertexAttribArray else OPC_glDisableVertexAttribArray;
             CallOk(Plain(op, [FInt(k)]), g, w)
    ensures var op := if on then OPC_glEnableVertexAttribArray else OPC_glDisableVertexAttribArray;
            var a := g.attribs[k];
            Effect(g, Plain(op, [FInt(k)]), w) ==
            GL(g.arrayBuf, g.elemBuf,
               g.attribs[k := VertexAttrib(on, a.size, a.typ, a.normalized, a.stride, a.pointer)])
  {
  }

  lemma PointerNoted(g: GL, k: int32, size: int32, typ: int32, norm: int32, stride: int32, p: uint64, w: WordSize)
    requires 0 <= k < MAX_VERTEX_ATTRIBS
    requires CallOk(Plain(OPC_glVertexAttribPointer,
                          [FInt(k), FInt(size), FInt(typ), FInt(norm), FInt(stride), FPtr(p)]), g, w)
    ensures var c := Plain(OPC_glVertexAttribPointer,
                           [FInt(k), FInt(size), FInt(typ), FInt(norm), FInt(stride), FPtr(p)]);
            Effect(g, c, w) ==
            GL(g.arrayBuf, g.elemBuf,
               g.attribs[k := VertexAttrib(g.attribs[k].enabled, size, typ, norm, stride, p)])
  {
  }

  // ---- One entry ----

  // How a value arrives: strings and blobs without their length, a NULL string as an empty
  // one, an empty blob as NULL, a pointer with its bits.
  predicate Arrives(f: Field, seen: Field, w: WordSize) {
    match f
    case FPtr(p) => seen.FPtr? && (w == 8 || p < 0x8000_0000 ==> seen.p == p) && (seen.p == 0 <==> p == 0)
    case FString(None) => seen == FString(Some([]))
    case FBytes(data, size) => seen == if data.Some? && size > 0 then f else FBytes(None, 0)
    case _ => seen == f
  }

  predicate ArriveFrom(fs: seq<Field>, a: seq<Field>, at: nat, w: WordSize) {
    at + |fs| <= |a| && forall k :: 0 <= k < |fs| ==> Arrives(fs[k], a[at + k], w)
  }

  // The results that the application asked for come one behind the other.
  predicate UniformMeant(c: Call, a: seq<Field>)
    requires c.GetActiveUniform?
  {
    var n := 7;
    var m := if c.lengthPtr != 0 then n + 1 else n;
    var k := if c.sizePtr != 0 then m + 1 else m;
    var j := if c.typePtr != 0 then k + 1 else k;
    && |a| == (if c.namePtr != 0 then j + 1 else j)
    && (c.lengthPtr != 0 ==> a[n] == FInt(c.length))
    && (c.sizePtr != 0 ==> a[m] == FInt(c.size))
    && (c.typePtr != 0 ==> a[k] == FInt(c.kind))
    && (c.namePtr != 0 ==> a[j] == FString(Some(c.name)))
  }

  predicate NumbersAre(a: seq<Field>, at: nat, xs: seq<int32>) {
    at + |xs| <= |a| && forall k :: 0 <= k < |xs| ==> a[at + k] == FInt(xs[k])
  }

  predicate PairsAre(a: seq<Field>, at: nat, attribs: seq<Attr>) {
    && at + 2 * |attribs| < |a|
    && (forall k :: 0 <= k < |attribs| ==>
          a[at + 2 * k] == FInt(attribs[k].name) && a[at + 2 * k + 1] == FInt(attribs[k].value))
    && a[at + 2 * |attribs|] == FInt(0x3038)
  }

  predicate SourceMeant(len: int32, str: Option<seq<byte>>, l: Field, text: Field) {
    && l == FInt(len)
    && if len <= 0 then
         text.FString? && text.str.Some? && text.str.value == (if str.Some? then str.value else [])
       else text == if str.Some? then FBytes(str, len) else FBytes(None, 0)
  }

  // The indices of a draw: a pointer into the bound buffer, or the bytes at the
  // application's pointer.
  predicate IndicesMeant(c: Call, mem: Memory, bound: bool, f: Field, w: WordSize)
    requires c.DrawElements?
  {
    if bound then Arrives(FPtr(c.indices), f, w)
    else
      var n := c.count * GLBytes(c.typ);
      if n > 0 && c.indices != 0 then
        f.FBytes? && f.data.Some? && |f.data.value| == n && IsMemory(f.data.value, mem, c.indices)
      else f == FBytes(None, 0)
  }

  predicate Meant(c: Call, g: GL, mem: Memory, a: seq<Field>, w: WordSize) {
    match c
    case Plain(_, args) => |a| == |args| && ArriveFrom(args, a, 0, w)
    case Names(_, n, ids) => |a| == 1 + |ids| && a[0] == FInt(n) && NumbersAre(a, 1, ids)
    case ShaderSource(shader, count, strings, lengths) =>
      && |a| == 2 + 2 * |strings| && a[0] == FInt(shader) && a[1] == FInt(count)
      && (lengths.Some? ==> |lengths.value| == |strings|)
      && forall k :: 0 <= k < |strings| ==>
           SourceMeant(if lengths.Some? then lengths.value[k] else 0, strings[k], a[2 + 2 * k], a[3 + 2 * k])
    case DrawElements(mode, count, typ, _) =>
      && |a| >= 4 && a[0] == FInt(mode) && a[1] == FInt(count) && a[2] == FInt(typ)
      && IndicesMeant(c, mem, g.elemBuf != 0, a[3], w)
    case GetActiveUniform(program, index, bufsize, lengthPtr, sizePtr, typePtr, namePtr, _, _, _, _) =>
      && |a| >= 7 && a[0] == FInt(program) && a[1] == FInt(index) && a[2] == FInt(bufsize)
      && ArriveFrom([FPtr(lengthPtr), FPtr(sizePtr), FPtr(typePtr), FPtr(namePtr)], a, 3, w)
      && UniformMeant(c, a)
    case GetAttachedShaders(program, maxcount, countPtr, shadersPtr, got, shaders) =>
      && |a| >= 4 && a[0] == FInt(program) && a[1] == FInt(maxcount)
      && ArriveFrom([FPtr(countPtr), FPtr(shadersPtr)], a, 2, w)
      && (countPtr != 0 ==> |a| >= 5 && a[4] == FInt(got))
      && |a| == (if countPtr != 0 then 5 else 4) + |shaders|
      && NumbersAre(a, |a| - |shaders|, shaders)
    case ChooseConfig(dpy, attribs, configSize, numConfig, configs, res) =>
      var n := 2 + 2 * |attribs|;
      && |a| == n + 3 + |configs| && Arrives(FPtr(dpy), a[0], w) && PairsAre(a, 1, attribs)
      && a[n] == FInt(configSize) && a[n + 1] == FInt(numConfig)
      && (forall k :: 0 <= k < |configs| ==> Arrives(FPtr(configs[k]), a[n + 2 + k], w))
      && a[n + 2 + |configs|] == FInt(res)
    case Create(_, dpy, config, third, attribs, handle) =>
      && |a| == 5 + 2 * |attribs| && ArriveFrom([FPtr(dpy), FPtr(config), FPtr(third)], a, 0, w)
      && PairsAre(a, 3, attribs) && Arrives(FPtr(handle), a[4 + 2 * |attribs|], w)
  }

  // Every argument and result of a call arrives in its place.
  lemma CallMeant(c: Call, g: GL, mem: Memory, w: WordSize)
    requires CallOk(c, g, w)
    ensures AllOk(Puts(c, g, mem, w), w)
    ensures Meant(c, g, mem, SeenAll(Puts(c, g, mem, w), w), w)
  {
    hide Meant, CallOk, Puts, AllOk;
    PutsOk(c, g, mem, w);
    match c
    case Plain(_, _) => PlainMeant(c, g, mem, w);
    case Names(_, _, _) => NamesMeant(c, g, mem, w);
    case ShaderSource(_, _, _, _) => SourcesMeant(c, g, mem, w);
    case DrawElements(_, _, _, _) => DrawMeant(c, g, mem, w);
    case GetActiveUniform(_, _, _, _, _, _, _, _, _, _, _) => ActiveMeant(c, g, mem, w);
    case GetAttachedShaders(_, _, _, _, _, _) => AttachedMeant(c, g, mem, w);
    case ChooseConfig(_, _, _, _, _, _) => ChooseMeant(c, g, mem, w);
    case Create(_, _, _, _, _, _) => CreateMeant(c, g, mem, w);
  }

  lemma SeenArrives(f: Field, w: WordSize)
    requires f.Ok(w)
    ensures Arrives(f, f.Seen(w), w)
  {
    if f.FPtr? {
      PtrViewExact(f.p, w);
    }
  }

  lemma PlainMeant(c: Call, g: GL, mem: Memory, w: WordSize)
    requires CallOk(c, g, w) && c.Plain? && AllOk(Puts(c, g, mem, w), w)
    ensures Meant(c, g, mem, SeenAll(Puts(c, g, mem, w), w), w)
  {
    hide CallOk, Arrives, Field.Seen;
    forall k | 0 <= k < |c.args|
      ensures Arrives(c.args[k], c.args[k].Seen(w), w)
    {
      SeenArrives(c.args[k], w);
    }
  }

  lemma NamesMeant(c: Call, g: GL, mem: Memory, w: WordSize)
    requires CallOk(c, g, w) && c.Names? && AllOk(Puts(c, g, mem, w), w)
    ensures Meant(c, g, mem, SeenAll(Puts(c, g, mem, w), w), w)
  {
    hide WriterLayout;
  }

  lemma {:induction false} SourcePutsAt(strings: seq<Option<seq<byte>>>, lengths: Option<seq<int32>>, n: nat)
    requires SourcesOk(strings, lengths) && n <= |strings|
    ensures |SourcePuts(strings, lengths, n)| == 2 * n
    ensures forall k :: 0 <= k < n ==>
              SourcePuts(strings, lengths, n)[2 * k..2 * k + 2] == SourcePut(SourceLen(lengths, k), strings[k])
  {
    if n > 0 {
      SourcePutsAt(strings, lengths, n - 1);
    }
  }

  lemma SourcesMeant(c: Call, g: GL, mem: Memory, w: WordSize)
    requires CallOk(c, g, w) && c.ShaderSource? && AllOk(Puts(c, g, mem, w), w)
    ensures Meant(c, g, mem, SeenAll(Puts(c, g, mem, w), w), w)
  {
    hide WriterLayout, SourcePuts;
    SourcePutsAt(c.strings, c.lengths, |c.strings|);
    var puts, sources := Puts(c, g, mem, w), SourcePuts(c.strings, c.lengths, |c.strings|);
    forall k | 0 <= k < |c.strings|
      ensures SourceMeant(SourceLen(c.lengths, k), c.strings[k], puts[2 + 2 * k].Seen(w), puts[3 + 2 * k].Seen(w))
    {
      var put := SourcePut(SourceLen(c.lengths, k), c.strings[k]);
      assert sources[2 * k] == sources[2 * k..2 * k + 2][0] && sources[2 * k + 1] == sources[2 * k..2 * k + 2][1];
      assert puts[2 + 2 * k] == put[0] && puts[3 + 2 * k] == put[1];
    }
  }

  lemma DrawMeant(c: Call, g: GL, mem: Memory, w: WordSize)
    requires CallOk(c, g, w) && c.DrawElements? && AllOk(Puts(c, g, mem, w), w)
    ensures Meant(c, g, mem, SeenAll(Puts(c, g, mem, w), w), w)
  {
    hide WriterLayout, VertexPuts, VertexOk;
    SizeofIsGL(c.typ);
    SeenArrives(IndexPut(g, mem, c.count, c.typ, c.indices), w);
  }

  lemma ActiveMeant(c: Call, g: GL, mem: Memory, w: WordSize)
    requires CallOk(c, g, w) && c.GetActiveUniform? && AllOk(Puts(c, g, mem, w), w)
    ensures Meant(c, g, mem, SeenAll(Puts(c, g, mem, w), w), w)
  {
    hide WriterLayout, PtrView, Field.Seen, Arrives, AllOk, Field.Ok;
    UniformSeen(c, g, mem, w);
  }

  lemma UniformSeen(c: Call, g: GL, mem: Memory, w: WordSize)
    requires CallOk(c, g, w) && c.GetActiveUniform? && AllOk(Puts(c, g, mem, w), w)
    ensures var a := SeenAll(Puts(c, g, mem, w), w);
            && |a| >= 7 && a[0] == FInt(c.program) && a[1] == FInt(c.index) && a[2] == FInt(c.bufsize)
            && Arrives(FPtr(c.lengthPtr), a[3], w) && Arrives(FPtr(c.sizePtr), a[4], w)
            && Arrives(FPtr(c.typePtr), a[5], w) && Arrives(FPtr(c.namePtr), a[6], w)
            && UniformMeant(c, a)
  {
    UniformParts(c, g, mem, w);
    UniformPtrs(c, g, w);
    hide CallOk, Puts, PtrView, Arrives, AllOk, Kinds, AllInSync, OptionalInt, UniformMeant;
    SeenArrives(FPtr(c.lengthPtr), w);
    SeenArrives(FPtr(c.sizePtr), w);
    SeenArrives(FPtr(c.typePtr), w);
    SeenArrives(FPtr(c.namePtr), w);
    ResultsSeen(c, Puts(c, g, mem, w), w);
  }

  lemma ResultsSeen(c: Call, p: seq<Field>, w: WordSize)
    requires c.GetActiveUniform? && AllOk(p, w) && |p| >= 7
    requires p[7..] == OptionalInt(c.lengthPtr, c.length) + OptionalInt(c.sizePtr, c.size) +
                       OptionalInt(c.typePtr, c.kind) + if c.namePtr != 0 then [FString(Some(c.name))] else []
    ensures UniformMeant(c, SeenAll(p, w))
  {
    hide AllOk, PtrView;
    var r := p[7..];
    assert forall k :: 0 <= k < |r| ==> p[7 + k] == r[k];
  }

  lemma UniformPtrs(c: Call, g: GL, w: WordSize)
    requires CallOk(c, g, w) && c.GetActiveUniform?
    ensures FPtr(c.lengthPtr).Ok(w) && FPtr(c.sizePtr).Ok(w) && FPtr(c.typePtr).Ok(w) && FPtr(c.namePtr).Ok(w)
  {
  }

  lemma AttachedMeant(c: Call, g: GL, mem: Memory, w: WordSize)
    requires CallOk(c, g, w) && c.GetAttachedShaders? && AllOk(Puts(c, g, mem, w), w)
    ensures Meant(c, g, mem, SeenAll(Puts(c, g, mem, w), w), w)
  {
    hide *;
    AttachedPuts(c, g, mem, w);
    AttachedPlaces(c, g, mem, Puts(c, g, mem, w), w);
  }

  // Where the puts are.
  predicate AttachedAre(c: Call, p: seq<Field>)
    requires c.GetAttachedShaders?
  {
    var n := if c.countPtr != 0 then 5 else 4;
    && |p| == n + |c.shaders|
    && p[0] == FInt(c.program) && p[1] == FInt(c.maxcount) && p[2] == FPtr(c.countPtr) && p[3] == FPtr(c.shadersPtr)
    && (c.countPtr != 0 ==> p[4] == FInt(c.got))
    && forall k :: 0 <= k < |c.shaders| ==> p[n + k] == FInt(c.shaders[k])
  }

  lemma AttachedPuts(c: Call, g: GL, mem: Memory, w: WordSize)
    requires CallOk(c, g, w) && c.GetAttachedShaders?
    ensures AttachedAre(c, Puts(c, g, mem, w))
  {
    hide CallOk;
  }

  lemma AttachedPlaces(c: Call, g: GL, mem: Memory, p: seq<Field>, w: WordSize)
    requires c.GetAttachedShaders? && AllOk(p, w) && AttachedAre(c, p)
    ensures Meant(c, g, mem, SeenAll(p, w), w)
  {
    hide PtrView, Arrives;
    SeenArrives(p[2], w);
    SeenArrives(p[3], w);
  }

  lemma {:induction false} AttrPutsAt(attribs: seq<Attr>)
    ensures PairsAre(AttrPuts(attribs), 0, attribs) && |AttrPuts(attribs)| == 2 * |attribs| + 1
  {
    if attribs != [] {
      AttrPutsAt(attribs[1..]);
      PairsNext(attribs, AttrPuts(attribs[1..]));
    }
  }

  lemma PairsNext(attribs: seq<Attr>, more: seq<Field>)
    requires attribs != [] && PairsAre(more, 0, attribs[1..]) && |more| == 2 * |attribs| - 1
    ensures PairsAre([FInt(attribs[0].name), FInt(attribs[0].value)] + more, 0, attribs)
  {
    var all, rest := [FInt(attribs[0].name), FInt(attribs[0].value)] + more, attribs[1..];
    forall k | 0 < k < |attribs|
      ensures all[2 * k] == FInt(attribs[k].name) && all[2 * k + 1] == FInt(attribs[k].value)
    {
      assert more[2 * (k - 1)] == FInt(rest[k - 1].name) && more[2 * (k - 1) + 1] == FInt(rest[k - 1].value);
    }
  }

  lemma FourParts(first: Field, pairs: seq<Field>, x: Field, y: Field, mid: seq<Field>, last: Field)
    ensures var p, n := [first] + (pairs + ([x, y] + (mid + [last]))), 1 + |pairs|;
            && |p| == n + 3 + |mid| && p[0] == first && p[n] == x && p[n + 1] == y && p[n + 2 + |mid|] == last
            && (forall k :: 0 <= k < |pairs| ==> p[1 + k] == pairs[k])
            && (forall k :: 0 <= k < |mid| ==> p[n + 2 + k] == mid[k])
  {
  }

  lemma ChooseMeant(c: Call, g: GL, mem: Memory, w: WordSize)
    requires CallOk(c, g, w) && c.ChooseConfig? && AllOk(Puts(c, g, mem, w), w)
    ensures Meant(c, g, mem, SeenAll(Puts(c, g, mem, w), w), w)
  {
    hide *;
    ChoosePuts(c, g, mem, w);
    ChooseShape(c, g, mem, Puts(c, g, mem, w), w);
  }

  lemma ChooseShape(c: Call, g: GL, mem: Memory, p: seq<Field>, w: WordSize)
    requires c.ChooseConfig? && AllOk(p, w)
    requires p == [FPtr(c.dpy)] + (AttrPuts(c.attribs) +
             ([FInt(c.configSize), FInt(c.numConfig)] + (Ptrs(c.configs) + [FInt(c.res)])))
    ensures Meant(c, g, mem, SeenAll(p, w), w)
  {
    hide *;
    FourParts(FPtr(c.dpy), AttrPuts(c.attribs), FInt(c.configSize), FInt(c.numConfig), Ptrs(c.configs), FInt(c.res));
    AttrPutsAt(c.attribs);
    ChoosePlaces(c, g, mem, p, w);
  }

  lemma ChoosePlaces(c: Call, g: GL, mem: Memory, p: seq<Field>, w: WordSize)
    requires c.ChooseConfig? && AllOk(p, w)
    requires var pairs, configs := AttrPuts(c.attribs), Ptrs(c.configs);
             var n := 1 + |pairs|;
             && |pairs| == 2 * |c.attribs| + 1
             && |p| == n + 3 + |configs| && p[0] == FPtr(c.dpy) && p[n] == FInt(c.configSize)
             && p[n + 1] == FInt(c.numConfig) && p[n + 2 + |configs|] == FInt(c.res)
             && (forall k :: 0 <= k < |pairs| ==> p[1 + k] == pairs[k])
             && (forall k :: 0 <= k < |configs| ==> p[n + 2 + k] == configs[k])
    ensures Meant(c, g, mem, SeenAll(p, w), w)
  {
    hide PtrView, AttrPuts, Ptrs, Arrives, PairsAre;
    var a, n := SeenAll(p, w), 2 + 2 * |c.attribs|;
    PairsSeen(c.attribs, p, a, 1, w);
    SeenArrives(FPtr(c.dpy), w);
    forall k | 0 <= k < |c.configs|
      ensures Arrives(FPtr(c.configs[k]), a[n + 2 + k], w)
    {
      PtrsAt(c.configs, k);
      SeenArrives(p[n + 2 + k], w);
    }
  }

  lemma PtrsAt(ps: seq<uint64>, k: nat)
    requires k < |ps|
    ensures Ptrs(ps)[k] == FPtr(ps[k])
  {
  }

  // Names and values arrive as they are.
  lemma PairsSeen(attribs: seq<Attr>, p: seq<Field>, a: seq<Field>, at: nat, w: WordSize)
    requires AllOk(p, w) && a == SeenAll(p, w) && at + |AttrPuts(attribs)| <= |p|
    requires forall k :: 0 <= k < |AttrPuts(attribs)| ==> p[at + k] == AttrPuts(attribs)[k]
    ensures PairsAre(a, at, attribs)
  {
    hide AllOk, AttrPuts;
    AttrPutsAt(attribs);
    var puts := AttrPuts(attribs);
    forall k | 0 <= k < |attribs|
      ensures p[at + 2 * k] == puts[2 * k] && p[at + 2 * k + 1] == puts[2 * k + 1]
    {
      assert p[at + (2 * k + 1)] == puts[2 * k + 1];
    }
    assert p[at + 2 * |attribs|] == puts[2 * |attribs|];
  }

  lemma CreateMeant(c: Call, g: GL, mem: Memory, w: WordSize)
    requires CallOk(c, g, w) && c.Create? && AllOk(Puts(c, g, mem, w), w)
    ensures Meant(c, g, mem, SeenAll(Puts(c, g, mem, w), w), w)
  {
    hide *;
    CreatePuts(c, g, mem, w);
    ThreeParts(FPtr(c.dpy), FPtr(c.config), FPtr(c.third), AttrPuts(c.attribs), FPtr(c.handle));
    AttrPutsAt(c.attribs);
    CreatePlaces(c, g, mem, Puts(c, g, mem, w), w);
  }

  lemma CreatePuts(c: Call, g: GL, mem: Memory, w: WordSize)
    requires CallOk(c, g, w) && c.Create?
    ensures Puts(c, g, mem, w) == [FPtr(c.dpy), FPtr(c.config), FPtr(c.third)] + AttrPuts(c.attribs) + [FPtr(c.handle)]
  {
    hide AttrPuts;
  }

  lemma ThreeParts(x: Field, y: Field, z: Field, pairs: seq<Field>, last: Field)
    ensures var p := [x, y, z] + pairs + [last];
            && |p| == 4 + |pairs| && p[0] == x && p[1] == y && p[2] == z && p[3 + |pairs|] == last
            && (forall k :: 0 <= k < |pairs| ==> p[3 + k] == pairs[k])
  {
  }

  lemma CreatePlaces(c: Call, g: GL, mem: Memory, p: seq<Field>, w: WordSize)
    requires c.Create? && AllOk(p, w)
    requires var pairs := AttrPuts(c.attribs);
             && |pairs| == 2 * |c.attribs| + 1
             && |p| == 4 + |pairs| && p[0] == FPtr(c.dpy) && p[1] == FPtr(c.config) && p[2] == FPtr(c.third)
             && p[3 + |pairs|] == FPtr(c.handle)
             && (forall k :: 0 <= k < |pairs| ==> p[3 + k] == pairs[k])
    ensures Meant(c, g, mem, SeenAll(p, w), w)
  {
    hide PtrView, AttrPuts, Arrives, PairsAre;
    PairsSeen(c.attribs, p, SeenAll(p, w), 3, w);
    SeenArrives(FPtr(c.dpy), w);
    SeenArrives(FPtr(c.config), w);
    SeenArrives(FPtr(c.third), w);
    SeenArrives(FPtr(c.handle), w);
  }

  // ---- A run ----

  predicate EntryMeant(i: Issue, g: GL, e: Entry, w: WordSize) {
    && (w == 8 || i.thr < 0x8000_0000 ==> e.thr == i.thr)
    && e.op == i.call.Op() && e.bgn == i.bgn && e.end == i.end
    && Meant(i.call, g, i.mem, e.args, w)
  }

  ghost predicate RunMeant(issues: seq<Issue>, g: GL, log: seq<Entry>, w: WordSize)
    requires RunOk(issues, g, w)
  {
    && |log| == |issues|
    && (issues != [] ==>
          EntryMeant(issues[0], g, log[0], w) &&
          RunMeant(issues[1..], Effect(g, issues[0].call, w), log[1..], w))
  }

  // What the replayer should report for a run of calls is what those calls said.
  lemma {:induction false} SeenRunMeant(issues: seq<Issue>, g: GL, w: WordSize)
    requires RunOk(issues, g, w)
    ensures RunMeant(issues, g, SeenRun(issues, g, w), w)
  {
    hide Meant, CallOk, Puts, SeenAll, AllOk, PtrView, Effect, Call.Op;
    if issues != [] {
      var i := issues[0];
      PtrViewExact(i.thr, w);
      CallMeant(i.call, g, i.mem, w);
      SeenRunMeant(issues[1..], Effect(g, i.call, w), w);
      var rest := SeenRun(issues[1..], Effect(g, i.call, w), w);
      assert ([SeenIssue(i, g, w)] + rest)[1..] == rest;
    }
  }
}
