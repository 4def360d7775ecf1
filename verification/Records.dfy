// The grammar of one traced command: which puts the wrappers of gles.c and egl.c make
// after putCmd, and which gets the cases of retrace.c's process make for the same opcode.

module Records {
  import opened Seqs
  import opened Words
  import opened Format

  const OPC_NONE: int32 := 0
  const OPC_EOF: int32 := -1
  const OPC_glBindBuffer: int32 := 103
  const OPC_glDeleteBuffers: int32 := 128
  const OPC_glDeleteFramebuffers: int32 := 129
  const OPC_glDeleteRenderbuffers: int32 := 131
  const OPC_glDeleteTextures: int32 := 133
  const OPC_glDisableVertexAttribArray: int32 := 139
  const OPC_glDrawElements: int32 := 141
  const OPC_glEnableVertexAttribArray: int32 := 143
  const OPC_glGenBuffers: int32 := 149
  const OPC_glGenFramebuffers: int32 := 151
  const OPC_glGenRenderbuffers: int32 := 152
  const OPC_glGenTextures: int32 := 153
  const OPC_glGetActiveUniform: int32 := 155
  const OPC_glGetAttachedShaders: int32 := 156
  const OPC_glGetFloatv: int32 := 161
  const OPC_glShaderSource: int32 := 198
  const OPC_glVertexAttribPointer: int32 := 240
  const OPC_eglChooseConfig: int32 := 706
  const OPC_eglCreateWindowSurface: int32 := 708
  const OPC_eglCreateContext: int32 := 721
  const OPC_eglSwapBuffers: int32 := 730

  const EGL_NONE: int32 := 0x3038
  // Entries of the reader's attrib_list.
  const ATTRIB_ROOM: nat := 64

  // The commands whose arguments and results are a fixed list, as gles.c, egl.c and
  // agent.c put them. eglGetConfigAttrib is not among them: the reader makes its four gets
  // as arguments of one C call, in an order C leaves open.
  function WriterLayout(op: int32): Option<seq<Kind>> {
    match op
    case 144 | 145 => Some([])
    case 100 | 108 | 115 | 118 | 120 | 125 | 127 | 130 | 132 | 134 | 135 | 138 | 139 | 142 | 143
      | 148 | 150 | 160 | 189 | 230 | 231 => Some([KInt])
    case 101 | 103 | 104 | 105 | 106 | 109 | 110 | 114 | 126 | 137 | 158 | 190
      | 213 | 713 => Some([KInt, KInt])
    case 140 | 164 | 166 | 167 | 208 | 217 => Some([KInt, KInt, KInt])
    case 111 | 119 | 146 | 162 | 194 | 196 | 221 | 241 => Some([KInt, KInt, KInt, KInt])
    case 147 | 225 => Some([KInt, KInt, KInt, KInt, KInt])
    case 123 | 124 => Some(Times(KInt, 8))
    case 117 => Some([KFloat])
    case 136 | 191 => Some([KFloat, KFloat])
    case 107 | 116 => Some([KFloat, KFloat, KFloat, KFloat])
    case 211 => Some([KInt, KFloat])
    case 215 => Some([KInt, KFloat, KFloat])
    case 219 => Some([KInt, KFloat, KFloat, KFloat])
    case 223 => Some([KInt, KFloat, KFloat, KFloat, KFloat])
    case 1 => Some([KString])
    case 171 => Some([KInt, KString])
    case 102 => Some([KInt, KInt, KString])
    case 157 | 176 => Some([KInt, KString, KInt])
    case 112 => Some([KInt, KInt, KBytes, KInt])
    case 212 | 224 | 226 => Some([KInt, KInt, KBytes])
    case 113 | 227 | 228 | 229 => Some([KInt, KInt, KInt, KBytes])
    case 121 => Some(Times(KInt, 7) + [KBytes])
    case 122 | 205 | 210 => Some(Times(KInt, 8) + [KBytes])
    case 161 => Some([KInt, KFloatPtr])
    case 163 => Some([KInt, KIntPtr])
    case 240 => Some([KInt, KInt, KInt, KInt, KInt, KPtr])
    case 703 => Some([KPtr, KInt])
    case 701 => Some([KPtr, KPtr])
    case 702 => Some([KPtr, KIntPtr, KIntPtr, KInt])
    case 704 => Some([KPtr, KInt, KString])
    case 722 | 730 => Some([KPtr, KPtr, KInt])
    case 718 => Some([KPtr, KPtr, KInt, KInt, KInt])
    case 723 => Some([KPtr, KPtr, KPtr, KPtr, KInt])
    case _ => None
  }

  // glGen* and glDelete*: a count, then that many names.
  predicate IsCounted(op: int32) {
    op == OPC_glDeleteBuffers || op == OPC_glDeleteFramebuffers || op == OPC_glDeleteRenderbuffers ||
    op == OPC_glDeleteTextures || op == OPC_glGenBuffers || op == OPC_glGenFramebuffers ||
    op == OPC_glGenRenderbuffers || op == OPC_glGenTextures
  }

  // A C loop from 0 to n.
  function Count(n: int): nat {
    if n > 0 then n else 0
  }

  function Times(k: Kind, n: int): (ks: seq<Kind>)
    ensures |ks| == Count(n)
  {
    seq(Count(n), _ => k)
  }

  function Min(a: int, b: int): int {
    if a < b then a else b
  }

  // ---- Lists of arguments ----

  predicate AllOk(fs: seq<Field>, w: WordSize) {
    forall f :: f in fs ==> f.Ok(w)
  }

  predicate AllInSync(fs: seq<Field>) {
    forall f :: f in fs ==> f.InSync()
  }

  function Kinds(fs: seq<Field>): (ks: seq<Kind>)
    ensures |ks| == |fs|
  {
    seq(|fs|, i requires 0 <= i < |fs| => fs[i].Kind())
  }

  function SeenAll(fs: seq<Field>, w: WordSize): (gs: seq<Field>)
    requires AllOk(fs, w)
    ensures |gs| == |fs|
  {
    seq(|fs|, i requires 0 <= i < |fs| => fs[i].Seen(w))
  }

  function EncFields(fs: seq<Field>, w: WordSize): seq<byte>
    requires AllOk(fs, w)
  {
    if fs == [] then [] else EncField(fs[0], w) + EncFields(fs[1..], w)
  }

  function GetFields(ks: seq<Kind>, s: seq<byte>, w: WordSize): (g: Got<seq<Field>>)
    ensures Kinds(g.value) == ks && |g.rest| <= |s|
  {
    if ks == [] then Got([], s)
    else
      var first := GetField(ks[0], s, w);
      var others := GetFields(ks[1..], first.rest, w);
      Got([first.value] + others.value, others.rest)
  }

  lemma {:induction false} GetFieldsSnoc(ks: seq<Kind>, k: Kind, s: seq<byte>, w: WordSize)
    ensures var a := GetFields(ks, s, w);
            var b := GetField(k, a.rest, w);
            GetFields(ks + [k], s, w) == Got(a.value + [b.value], b.rest)
  {
    hide GetField;
    if ks == [] {
      assert [k][1..] == [] && [] + [k] == [k];
      var b := GetField(k, s, w);
      assert GetFields([k], s, w) == Got([b.value] + GetFields([], b.rest, w).value, b.rest);
      assert [b.value] + [] == [] + [b.value];
    } else {
      var first := GetField(ks[0], s, w);
      var a := GetFields(ks[1..], first.rest, w);
      assert (ks + [k])[1..] == ks[1..] + [k] && (ks + [k])[0] == ks[0];
      GetFieldsSnoc(ks[1..], k, first.rest, w);
      Assoc([first.value], a.value, [GetField(k, a.rest, w).value]);
    }
  }

  lemma {:induction false} EncFieldsAppend(a: seq<Field>, b: seq<Field>, w: WordSize)
    requires AllOk(a, w) && AllOk(b, w)
    ensures AllOk(a + b, w) && EncFields(a + b, w) == EncFields(a, w) + EncFields(b, w)
  {
    hide EncField, Field.Ok;
    if a == [] {
      assert a + b == b;
    } else {
      EncFieldsAppend(a[1..], b, w);
      assert (a + b)[1..] == a[1..] + b;
      Assoc(EncField(a[0], w), EncFields(a[1..], w), EncFields(b, w));
    }
  }

  lemma SeenAppend(a: seq<Field>, b: seq<Field>, w: WordSize)
    requires AllOk(a, w) && AllOk(b, w)
    ensures AllOk(a + b, w) && SeenAll(a + b, w) == SeenAll(a, w) + SeenAll(b, w)
    ensures Kinds(a + b) == Kinds(a) + Kinds(b)
  {
  }

  // A list of gets undoes a list of puts of the same kinds.
  lemma {:induction false} FieldsBack(fs: seq<Field>, w: WordSize, tail: seq<byte>)
    requires AllOk(fs, w) && AllInSync(fs)
    ensures GetFields(Kinds(fs), EncFields(fs, w) + tail, w) == Got(SeenAll(fs, w), tail)
  {
    hide EncField, GetField, Field.Kind, Field.Seen, Field.Ok, Field.InSync;
    if fs == [] {
      assert EncFields(fs, w) + tail == tail;
    } else {
      FieldBack(fs[0], w, EncFields(fs[1..], w) + tail);
      FieldsBack(fs[1..], w, tail);
      Assoc(EncField(fs[0], w), EncFields(fs[1..], w), tail);
      assert Kinds(fs)[1..] == Kinds(fs[1..]);
      assert SeenAll(fs, w) == [fs[0].Seen(w)] + SeenAll(fs[1..], w);
    }
  }
}
