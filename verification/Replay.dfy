// The replayer's side: what process of retrace.c reads for each opcode, the shadow state
// it keeps to know what to read, and the loop over the whole trace.

module Replay {
  import opened Words
  import opened Format
  import opened Records
  import opened Calls
  import opened TraceWriter

  // The static variables of retrace.c.
  datatype MirrorAttrib = MirrorAttrib(enabled: bool, size: int32, typ: int32, normalized: int32)

  datatype Mirror = Mirror(arrayBuf: int32, elemBuf: int32, attribs: seq<MirrorAttrib>) {
    predicate Valid() {
      |attribs| == MAX_VERTEX_ATTRIBS
    }
  }

  const MIRROR_INITIAL := Mirror(0, 0, seq(MAX_VERTEX_ATTRIBS, _ => MirrorAttrib(false, 0, 0, 0)))

  // One get list, or the reason there is none.
  datatype Outcome =
    | Parsed(args: seq<Field>, rest: seq<byte>)
    | NotImplemented
    | Fatal

  function Enabled(attribs: seq<MirrorAttrib>): nat {
    if attribs == [] then 0 else Enabled(attribs[..|attribs| - 1]) + if attribs[|attribs| - 1].enabled then 1 else 0
  }

  // The i-th thing got, when it is an int or a pointer.
  function IntAt(o: Outcome, i: nat): int32 {
    if o.Parsed? && i < |o.args| && o.args[i].FInt? then o.args[i].i else 0
  }

  function PtrAt(o: Outcome, i: nat): uint64 {
    if o.Parsed? && i < |o.args| && o.args[i].FPtr? then o.args[i].p else 0
  }

  predicate Within(o: Outcome, s: seq<byte>) {
    o.Parsed? ==> |o.rest| <= |s|
  }

  // Gets ks after what has been got.
  function Then(o: Outcome, ks: seq<Kind>, w: WordSize): (o': Outcome)
    ensures o.Parsed? ==> Within(o', o.rest)
    ensures !o.Parsed? ==> o' == o
  {
    if !o.Parsed? then o
    else
      var g := GetFields(ks, o.rest, w);
      Parsed(o.args + g.value, g.rest)
  }

  // An attribute list is read into an array: names and values in turn, up to the terminator.
  // The program ends when a name no longer fits.
  function GetAttrs(i: nat, o: Outcome): (o': Outcome)
    ensures o.Parsed? ==> Within(o', o.rest)
    decreases ATTRIB_ROOM - i
  {
    if !o.Parsed? then o
    else if i >= ATTRIB_ROOM then Fatal
    else
      var name := GetInt(o.rest);
      if name.value == EGL_NONE then Parsed(o.args + [FInt(EGL_NONE)], name.rest)
      else
        var value := GetInt(name.rest);
        GetAttrs(i + 2, Parsed(o.args + [FInt(name.value), FInt(value.value)], value.rest))
  }

  // Each shader string is a length, and a blob if that is positive or else a C string.
  function GetSources(n: nat, o: Outcome, w: WordSize): (o': Outcome)
    ensures o.Parsed? ==> Within(o', o.rest)
    decreases n
  {
    if n == 0 || !o.Parsed? then o
    else
      var len := Then(o, [KInt], w);
      GetSources(n - 1, Then(len, [if IntAt(len, |o.args|) > 0 then KBytes else KString], w), w)
  }

  function Optional(p: uint64, k: Kind): seq<Kind> {
    if p != 0 then [k] else []
  }

  function GetNames(s: seq<byte>, w: WordSize): (o: Outcome)
    ensures Within(o, s)
  {
    var a := Then(Parsed([], s), [KInt], w);
    Then(a, Times(KInt, IntAt(a, 0)), w)
  }

  function GetShaderSource(s: seq<byte>, w: WordSize): (o: Outcome)
    ensures Within(o, s)
  {
    var a := Then(Parsed([], s), [KInt, KInt], w);
    GetSources(Count(IntAt(a, 1)), a, w)
  }

  // The shadow state decides both what stands for the indices and how many blobs follow.
  function GetDraw(m: Mirror, s: seq<byte>, w: WordSize): (o: Outcome)
    ensures Within(o, s)
  {
    var a := Then(Parsed([], s), [KInt, KInt, KInt, if m.elemBuf != 0 then KPtr else KBytes], w);
    Then(a, if m.arrayBuf == 0 then Times(KBytes, Enabled(m.attribs)) else [], w)
  }

  // The name is compared with what GL returns now, even where there is none: that ends the
  // program.
  function GetUniform(exec: bool, s: seq<byte>, w: WordSize): (o: Outcome)
    ensures Within(o, s)
  {
    var a := Then(Parsed([], s), [KInt, KInt, KInt, KPtr, KPtr, KPtr, KPtr], w);
    var b := Then(a, Optional(PtrAt(a, 3), KInt) + Optional(PtrAt(a, 4), KInt) + Optional(PtrAt(a, 5), KInt) +
                     Optional(PtrAt(a, 6), KString), w);
    if exec && PtrAt(a, 6) == 0 then Fatal else b
  }

  // The names are compared with what GL returns now, and only then consumed.
  function GetAttached(exec: bool, s: seq<byte>, w: WordSize): (o: Outcome)
    ensures Within(o, s)
  {
    var a := Then(Parsed([], s), [KInt, KInt, KPtr, KPtr], w);
    var b := Then(a, Optional(PtrAt(a, 2), KInt), w);
    Then(b, if exec && PtrAt(a, 2) != 0 && PtrAt(a, 3) != 0 then Times(KInt, IntAt(b, 4)) else [], w)
  }

  function GetChoose(s: seq<byte>, w: WordSize): (o: Outcome)
    ensures Within(o, s)
  {
    var a := GetAttrs(0, Then(Parsed([], s), [KPtr], w));
    if !a.Parsed? then a
    else
      var b := Then(a, [KInt, KInt], w);
      Then(b, Times(KPtr, Min(IntAt(b, |a.args| + 1), IntAt(b, |a.args|))) + [KInt], w)
  }

  function GetCreate(s: seq<byte>, w: WordSize): (o: Outcome)
    ensures Within(o, s)
  {
    Then(GetAttrs(0, Then(Parsed([], s), [KPtr, KPtr, KPtr], w)), [KPtr], w)
  }

  // The cases of the switch that make a fixed list of gets, one by one.
  function ReaderLayout(op: int32): Option<seq<Kind>> {
    match op
    case 1 => Some([KString])  // MARK
    case 100 => Some([KInt])  // glActiveTexture
    case 101 => Some([KInt, KInt])  // glAttachShader
    case 102 => Some([KInt, KInt, KString])  // glBindAttribLocation
    case 103 => Some([KInt, KInt])  // glBindBuffer
    case 104 => Some([KInt, KInt])  // glBindFramebuffer
    case 105 => Some([KInt, KInt])  // glBindRenderbuffer
    case 106 => Some([KInt, KInt])  // glBindTexture
    case 108 => Some([KInt])  // glBlendEquation
    case 109 => Some([KInt, KInt])  // glBlendEquationSeparate
    case 110 => Some([KInt, KInt])  // glBlendFunc
    case 111 => Some([KInt, KInt, KInt, KInt])  // glBlendFuncSeparate
    case 112 => Some([KInt, KInt, KBytes, KInt])  // glBufferData
    case 113 => Some([KInt, KInt, KInt, KBytes])  // glBufferSubData
    case 114 => Some([KInt, KInt])  // glCheckFramebufferStatus
    case 115 => Some([KInt])  // glClear
    case 116 => Some([KFloat, KFloat, KFloat, KFloat])  // glClearColor
    case 117 => Some([KFloat])  // glClearDepthf
    case 118 => Some([KInt])  // glClearStencil
    case 119 => Some([KInt, KInt, KInt, KInt])  // glColorMask
    case 120 => Some([KInt])  // glCompileShader
    case 121 => Some(Times(KInt, 7) + [KBytes])  // glCompressedTexImage2D
    case 122 => Some(Times(KInt, 8) + [KBytes])  // glCompressedTexSubImage2D
    case 123 => Some(Times(KInt, 8))  // glCopyTexImage2D
    case 124 => Some(Times(KInt, 8))  // glCopyTexSubImage2D
    case 125 => Some([KInt])  // glCreateProgram
    case 126 => Some([KInt, KInt])  // glCreateShader
    case 127 => Some([KInt])  // glCullFace
    case 130 => Some([KInt])  // glDeleteProgram
    case 132 => Some([KInt])  // glDeleteShader
    case 134 => Some([KInt])  // glDepthFunc
    case 135 => Some([KInt])  // glDepthMask
    case 136 => Some([KFloat, KFloat])  // glDepthRangef
    case 137 => Some([KInt, KInt])  // glDetachShader
    case 138 => Some([KInt])  // glDisable
    case 139 => Some([KInt])  // glDisableVertexAttribArray
    case 140 => Some([KInt, KInt, KInt])  // glDrawArrays
    case 142 => Some([KInt])  // glEnable
    case 143 => Some([KInt])  // glEnableVertexAttribArray
    case 144 => Some([])  // glFinish
    case 145 => Some([])  // glFlush
    case 146 => Some([KInt, KInt, KInt, KInt])  // glFramebufferRenderbuffer
    case 147 => Some([KInt, KInt, KInt, KInt, KInt])  // glFramebufferTexture2D
    case 148 => Some([KInt])  // glFrontFace
    case 150 => Some([KInt])  // glGenerateMipmap
    case 157 => Some([KInt, KString, KInt])  // glGetAttribLocation
    case 158 => Some([KInt, KInt])  // glGetBooleanv
    case 160 => Some([KInt])  // glGetError
    case 161 => Some([KInt, KFloatPtr])  // glGetFloatv
    case 162 => Some([KInt, KInt, KInt, KInt])  // glGetFramebufferAttachmentParameteriv
    case 163 => Some([KInt, KIntPtr])  // glGetIntegerv
    case 164 => Some([KInt, KInt, KInt])  // glGetProgramiv
    case 166 => Some([KInt, KInt, KInt])  // glGetRenderbufferParameteriv
    case 167 => Some([KInt, KInt, KInt])  // glGetShaderiv
    case 171 => Some([KInt, KString])  // glGetString
    case 176 => Some([KInt, KString, KInt])  // glGetUniformLocation
    case 189 => Some([KInt])  // glLinkProgram
    case 190 => Some([KInt, KInt])  // glPixelStorei
    case 191 => Some([KFloat, KFloat])  // glPolygonOffset
    case 194 => Some([KInt, KInt, KInt, KInt])  // glRenderbufferStorage
    case 196 => Some([KInt, KInt, KInt, KInt])  // glScissor
    case 205 => Some(Times(KInt, 8) + [KBytes])  // glTexImage2D
    case 208 => Some([KInt, KInt, KInt])  // glTexParameteri
    case 210 => Some(Times(KInt, 8) + [KBytes])  // glTexSubImage2D
    case 211 => Some([KInt, KFloat])  // glUniform1f
    case 212 => Some([KInt, KInt, KBytes])  // glUniform1fv
    case 213 => Some([KInt, KInt])  // glUniform1i
    case 215 => Some([KInt, KFloat, KFloat])  // glUniform2f
    case 219 => Some([KInt, KFloat, KFloat, KFloat])  // glUniform3f
    case 223 => Some([KInt, KFloat, KFloat, KFloat, KFloat])  // glUniform4f
    case 224 => Some([KInt, KInt, KBytes])  // glUniform4fv
    case 227 => Some([KInt, KInt, KInt, KBytes])  // glUniformMatrix2fv
    case 228 => Some([KInt, KInt, KInt, KBytes])  // glUniformMatrix3fv
    case 229 => Some([KInt, KInt, KInt, KBytes])  // glUniformMatrix4fv
    case 230 => Some([KInt])  // glUseProgram
    case 231 => Some([KInt])  // glValidateProgram
    case 240 => Some([KInt, KInt, KInt, KInt, KInt, KPtr])  // glVertexAttribPointer
    case 241 => Some([KInt, KInt, KInt, KInt])  // glViewport
    case 701 => Some([KPtr, KPtr])  // eglGetDisplay
    case 702 => Some([KPtr, KIntPtr, KIntPtr, KInt])  // eglInitialize
    case 704 => Some([KPtr, KInt, KString])  // eglQueryString
    case 713 => Some([KInt, KInt])  // eglBindAPI
    case 718 => Some([KPtr, KPtr, KInt, KInt, KInt])  // eglSurfaceAttrib
    case 722 => Some([KPtr, KPtr, KInt])  // eglDestroyContext
    case 723 => Some([KPtr, KPtr, KPtr, KPtr, KInt])  // eglMakeCurrent
    case 730 => Some([KPtr, KPtr, KInt])  // eglSwapBuffers
    case _ => None
  }

  // Commands that are recorded although the switch does not implement them: glBlendColor,
  // glUniform2i, glUniform3i, glUniform4i, glUniform4iv and eglTerminate.
  predicate Unread(op: int32) {
    op == 107 || op == 217 || op == 221 || op == 225 || op == 226 || op == 703
  }

  // Elsewhere the files agree on what is written and read, put for get.
  lemma SidesAgree(op: int32)
    ensures ReaderLayout(op) == WriterLayout(op) <==> !Unread(op)
  {
    if Unread(op) {
      OneSided(op);
    }
  }

  lemma OneSided(op: int32)
    requires Unread(op)
    ensures WriterLayout(op).Some? && ReaderLayout(op).None? && !IsCounted(op)
  {
    hide WriterLayout, ReaderLayout, Unread, IsCounted;
    Written(op);
    NotRead(op);
  }

  lemma Written(op: int32)
    requires Unread(op)
    ensures WriterLayout(op).Some?
  {
  }

  lemma NotRead(op: int32)
    requires Unread(op)
    ensures ReaderLayout(op).None? && !IsCounted(op)
  {
  }

  // The switch. exec is the replayer's execFlag.
  function GetArgs(op: int32, m: Mirror, exec: bool, s: seq<byte>, w: WordSize): (o: Outcome)
    ensures Within(o, s)
  {
    if ReaderLayout(op).Some? then Then(Parsed([], s), ReaderLayout(op).value, w)
    else if IsCounted(op) then GetNames(s, w)
    else if op == OPC_glShaderSource then GetShaderSource(s, w)
    else if op == OPC_glDrawElements then GetDraw(m, s, w)
    else if op == OPC_glGetActiveUniform then GetUniform(exec, s, w)
    else if op == OPC_glGetAttachedShaders then GetAttached(exec, s, w)
    else if op == OPC_eglChooseConfig then GetChoose(s, w)
    else if op == OPC_eglCreateWindowSurface || op == OPC_eglCreateContext then GetCreate(s, w)
    else NotImplemented
  }

  // What the case does to the shadow state. size, typ and normalized are kept by a
  // replayer that executes the calls, enabled by every replayer.
  function PlayEffect(m: Mirror, exec: bool, op: int32, args: seq<Field>): (m': Mirror)
    requires m.Valid()
    ensures m'.Valid()
  {
    var o := Parsed(args, []);
    var i := IntAt(o, 0);
    if op == OPC_glBindBuffer then
      if i == GL_ARRAY_BUFFER then m.(arrayBuf := IntAt(o, 1))
      else if i == GL_ELEMENT_ARRAY_BUFFER then m.(elemBuf := IntAt(o, 1))
      else m
    else if !(0 <= i < MAX_VERTEX_ATTRIBS) then m
    else if op == OPC_glEnableVertexAttribArray then m.(attribs := m.attribs[i := m.attribs[i].(enabled := true)])
    else if op == OPC_glDisableVertexAttribArray then m.(attribs := m.attribs[i := m.attribs[i].(enabled := false)])
    else if op == OPC_glVertexAttribPointer && exec then
      m.(attribs := m.attribs[i := MirrorAttrib(m.attribs[i].enabled, IntAt(o, 1), IntAt(o, 2), IntAt(o, 3) % 256)])
    else m
  }

  // ---- The loop ----

  datatype Entry = Entry(thr: uint64, op: int32, args: seq<Field>, bgn: uint64, end: uint64)

  datatype Stop = FrameLimit | EndOfTrace | Unknown | Exit

  datatype Played = Played(log: seq<Entry>, rest: seq<byte>, thread: uint64, mirror: Mirror, stop: Stop)

  function GetCmd(s: seq<byte>): (g: Got<int32>)
    ensures |g.rest| <= |s| && (g.value != OPC_EOF ==> |g.rest| < |s|)
  {
    if |s| < 4 then Got(OPC_EOF, s) else GetInt(s)
  }

  // A command and the thread it is credited to.
  datatype Command = Command(thread: uint64, op: int32, rest: seq<byte>)

  function GetCommand(thread: uint64, s: seq<byte>, w: WordSize): (c: Command)
    ensures |c.rest| <= |s| && (c.op != OPC_EOF ==> |c.rest| < |s|)
  {
    var cmd := GetCmd(s);
    if cmd.value == OPC_THREAD then
      var thr := GetPtr(cmd.rest, w);
      var next := GetCmd(thr.rest);
      Command(thr.value, next.value, next.rest)
    else Command(thread, cmd.value, cmd.rest)
  }

  function Process(m: Mirror, exec: bool, thread: uint64, frames: int, s: seq<byte>, w: WordSize): Played
    requires m.Valid()
    decreases |s|
  {
    if frames == 0 then Played([], s, thread, m, FrameLimit)
    else
      var c := GetCommand(thread, s, w);
      if c.op == OPC_NONE || c.op == OPC_EOF then Played([], c.rest, c.thread, m, EndOfTrace)
      else
        var o := GetArgs(c.op, m, exec, c.rest, w);
        if o.NotImplemented? then Played([], c.rest, c.thread, m, Unknown)
        else if o.Fatal? then Played([], c.rest, c.thread, m, Exit)
        else
          var bgn := GetLongLong(o.rest);
          var end := GetLongLong(bgn.rest);
          var p := Process(PlayEffect(m, exec, c.op, o.args), exec, c.thread,
                           if c.op == OPC_eglSwapBuffers then frames - 1 else frames, end.rest, w);
          p.(log := [Entry(c.thread, c.op, o.args, bgn.value, end.value)] + p.log)
  }

  // iolib_init for reading: None when the version word is not there.
  function Open(s: seq<byte>): Option<Got<int32>> {
    var version := GetInt(s);
    if version.value != OPC_VERSION then None
    else
      var rev := GetInt(GetInt(GetInt(version.rest).rest).rest);
      Some(GetInt(rev.rest))
  }
}
