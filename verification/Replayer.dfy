// retrace.c as it runs: the reading half of iolib.c over the mapped file, and process.

module Replayer {
  import opened Seqs
  import opened Words
  import F = Format
  import opened Format
  import opened Records
  import opened Calls
  import opened TraceWriter
  import R = Replay
  import opened Replay

  class Replayer {
    const data: seq<byte>     // the mapped file: filePtr .. endPtr
    const wsize: WordSize     // as the header says
    const execFlag: bool
    var curPtr: nat           // offset of curPtr; past the end after a cut record
    var curThread: uint64
    var arrayBufferBinding: int32
    var elementArrayBufferBinding: int32
    const vertexAttrib: array<MirrorAttrib>
    var log: seq<Entry>       // what process has reported

    ghost predicate Valid()
      reads this
    {
      vertexAttrib.Length == MAX_VERTEX_ATTRIBS
    }

    // The bytes still unread.
    function Rest(): (s: seq<byte>)
      reads this`curPtr
      ensures |s| == if curPtr <= |data| then |data| - curPtr else 0
    {
      Drop(data, curPtr)
    }

    function State(): Mirror
      reads this, vertexAttrib
    {
      Mirror(arrayBufferBinding, elementArrayBufferBinding, vertexAttrib[..])
    }

    constructor (file: seq<byte>, at: nat, w: WordSize, exec: bool)
      ensures Valid() && fresh(vertexAttrib) && data == file && curPtr == at && wsize == w && execFlag == exec
      ensures State() == MIRROR_INITIAL && curThread == 0 && log == []
    {
      data, curPtr, wsize, execFlag := file, at, w, exec;
      curThread, arrayBufferBinding, elementArrayBufferBinding, log := 0, 0, 0, [];
      vertexAttrib := new MirrorAttrib[MAX_VERTEX_ATTRIBS](_ => MirrorAttrib(false, 0, 0, 0));
      new;
      assert vertexAttrib[..] == MIRROR_INITIAL.attribs;
    }

    lemma Ahead(n: nat)
      requires curPtr + n <= |data|
      ensures Rest()[..n] == data[curPtr..curPtr + n]
      ensures Rest()[n..] == data[curPtr + n..]
    {
    }

    // A size is rounded up to a multiple of sizeof(int).
    lemma RoundUp(n: nat)
      ensures n + 3 - (n + 3) % 4 == n + Pad(n)
    {
    }

    method GetInt() returns (val: int32)
      modifies this`curPtr
      ensures var g := F.GetInt(old(Rest())); val == g.value && Rest() == g.rest
    {
      if curPtr + 4 > |data| {
        return 0;
      }
      Ahead(4);
      val := ToInt(Word(data[curPtr..]));
      curPtr := curPtr + 4;
    }

    method GetFloat() returns (val: float32)
      modifies this`curPtr
      ensures var g := F.GetFloat(old(Rest())); val == g.value && Rest() == g.rest
    {
      if curPtr + 4 > |data| {
        return 0;
      }
      Ahead(4);
      val := Word(data[curPtr..]);
      curPtr := curPtr + 4;
    }

    method GetCmd() returns (cmd: int32)
      modifies this`curPtr
      ensures var g := R.GetCmd(old(Rest())); cmd == g.value && Rest() == g.rest
    {
      if curPtr + 4 > |data| {
        return OPC_EOF;
      }
      cmd := GetInt();
    }

    method GetLongLong() returns (val: uint64)
      modifies this`curPtr
      ensures var g := F.GetLongLong(old(Rest())); val == g.value && Rest() == g.rest
    {
      if curPtr + 8 > |data| {
        return 0;
      }
      Ahead(8);
      val := F.GetLongLong(data[curPtr..curPtr + 8]).value;
      assert data[curPtr..curPtr + 8][..8] == data[curPtr..curPtr + 8];
      curPtr := curPtr + 8;
    }

    method GetPtr() returns (val: uint64)
      modifies this`curPtr
      ensures var g := F.GetPtr(old(Rest()), wsize); val == g.value && Rest() == g.rest
    {
      if curPtr + wsize > |data| {
        return 0;
      }
      Ahead(wsize);
      var bytes := data[curPtr..curPtr + wsize];
      FromLEBound(bytes);
      RangeValues();
      val := PtrView(FromLE(bytes), wsize);
      curPtr := curPtr + wsize;
    }

    method GetIntPtr() returns (res: Option<int32>)
      modifies this`curPtr
      ensures var g := F.GetIntPtr(old(Rest())); res == g.value && Rest() == g.rest
    {
      if curPtr + 4 > |data| {
        return None;
      }
      var val := GetInt();
      res := Some(val);
      if val == MARKER {
        // the second word is read unchecked: past the end the mapping has zeros
        var second := if curPtr + 4 <= |data| then ToInt(Word(data[curPtr..])) else 0;
        assert second == F.GetInt(Rest()).value by {
          if curPtr + 4 <= |data| {
            Ahead(4);
          }
        }
        curPtr := curPtr + 4;
        res := if second == 0 then None else Some(second);
      }
    }

    method GetFloatPtr() returns (res: Option<float32>)
      modifies this`curPtr
      ensures var g := F.GetFloatPtr(old(Rest())); res == g.value && Rest() == g.rest
    {
      if curPtr + 4 > |data| {
        return None;
      }
      var val := GetFloat();
      res := Some(val);
      if val == FLOAT_MARKER {
        var second := if curPtr + 4 <= |data| then Word(data[curPtr..]) else 0;
        assert second == F.GetFloat(Rest()).value by {
          if curPtr + 4 <= |data| {
            Ahead(4);
          }
        }
        res := if second == 0 || second == 0x8000_0000 then None else Some(second);
      }
    }

    method GetString() returns (str: Option<CString>)
      modifies this`curPtr
      ensures var g := F.GetString(old(Rest())); str == g.value && Rest() == g.rest
    {
      var len := StrLen(Rest()) + 1;
      if curPtr + len > |data| {
        return None;
      }
      str := Some(Rest()[..len - 1]);
      RoundUp(len);
      len := len + 3;
      len := len - len % 4;
      curPtr := curPtr + len;
    }

    method GetBytes() returns (bytes: Option<seq<byte>>)
      modifies this`curPtr
      ensures var g := F.GetBytes(old(Rest())); bytes == g.value && Rest() == g.rest
    {
      if curPtr + 4 > |data| {
        return None;
      }
      var size := GetInt();
      if size <= 0 || curPtr + size > |data| {
        return None;
      }
      bytes := Some(data[curPtr..curPtr + size]);
      assert old(Rest())[4..4 + size] == data[curPtr..curPtr + size];
      RoundUp(size);
      hide Pad;
      var up: int := size;
      up := up + 3;
      up := up - up % 4;
      curPtr := curPtr + up;
    }

    method GetField(k: Kind) returns (f: Field)
      modifies this`curPtr
      ensures var g := F.GetField(k, old(Rest()), wsize); f == g.value && Rest() == g.rest
    {
      hide F.GetInt, F.GetFloat, F.GetPtr, F.GetString, F.GetBytes, F.GetIntPtr, F.GetFloatPtr, Rest;
      match k {
        case KInt => var v := GetInt(); f := FInt(v);
        case KFloat => var v := GetFloat(); f := FFloat(v);
        case KPtr => var v := GetPtr(); f := FPtr(v);
        case KString => var v := GetString(); f := FString(v);
        case KBytes =>
          var size := F.GetInt(Rest()).value;
          var v := GetBytes();
          f := FBytes(v, if v.Some? then size else 0);
        case KIntPtr => var v := GetIntPtr(); f := FIntPtr(v);
        case KFloatPtr => var v := GetFloatPtr(); f := FFloatPtr(v);
      }
    }

    // Consecutive gets, and the loops over gets of one kind.
    method GetFields(ks: seq<Kind>) returns (fs: seq<Field>)
      modifies this`curPtr
      ensures F.Got(fs, Rest()) == Records.GetFields(ks, old(Rest()), wsize)
    {
      fs := [];
      for i := 0 to |ks|
        invariant F.Got(fs, Rest()) == Records.GetFields(ks[..i], old(Rest()), wsize)
      {
        hide Rest, F.GetField;
        GetFieldsSnoc(ks[..i], ks[i], old(Rest()), wsize);
        assert ks[..i + 1] == ks[..i] + [ks[i]];
        var f := GetField(ks[i]);
        fs := fs + [f];
      }
      assert ks[..|ks|] == ks;
    }

    method GetMore(args: seq<Field>, ks: seq<Kind>) returns (args': seq<Field>)
      modifies this`curPtr
      ensures Then(Parsed(args, old(Rest())), ks, wsize) == Parsed(args', Rest())
    {
      hide Rest;
      var fs := GetFields(ks);
      args' := args + fs;
    }

    // The attrib_list loop: false when the array overflows and the program exits.
    method GetAttrList(args: seq<Field>) returns (ok: bool, args': seq<Field>)
      modifies this`curPtr
      ensures GetAttrs(0, Parsed(args, old(Rest()))) == if ok then Parsed(args', Rest()) else Fatal
    {
      ok, args' := true, args;
      var i := 0;
      while true
        invariant GetAttrs(i, Parsed(args', Rest())) == GetAttrs(0, Parsed(args, old(Rest())))
        decreases ATTRIB_ROOM - i
      {
        hide Rest, F.GetInt;
        if i >= ATTRIB_ROOM {
          return false, args';
        }
        var name := GetInt();
        if name == EGL_NONE {
          return true, args' + [FInt(EGL_NONE)];
        }
        var value := GetInt();
        args', i := args' + [FInt(name), FInt(value)], i + 2;
      }
    }

    method GetSourceList(count: int32, args: seq<Field>) returns (args': seq<Field>)
      modifies this`curPtr
      ensures GetSources(Count(count), Parsed(args, old(Rest())), wsize) == Parsed(args', Rest())
    {
      hide Rest, Then;
      args' := args;
      var i := 0;
      while i < count
        invariant 0 <= i <= Count(count)
        invariant GetSources(Count(count) - i, Parsed(args', Rest()), wsize) ==
                  GetSources(Count(count), Parsed(args, old(Rest())), wsize)
      {
        var len := GetMore(args', [KInt]);
        ghost var o' := Parsed(len, Rest());
        var kind := if IntAt(Parsed(len, []), |args'|) > 0 then KBytes else KString;
        assert IntAt(o', |args'|) == IntAt(Parsed(len, []), |args'|);
        args' := GetMore(len, [kind]);
        i := i + 1;
      }
    }

    // Blobs for the enabled attributes, in index order. What is then done with each of
    // them, getVertexAttrib, is a call to GL.
    method GetBlobs(args: seq<Field>) returns (args': seq<Field>)
      requires Valid()
      modifies this`curPtr
      ensures Then(Parsed(args, old(Rest())), Times(KBytes, Enabled(State().attribs)), wsize) == Parsed(args', Rest())
    {
      var fs: seq<Field> := [];
      for i := 0 to MAX_VERTEX_ATTRIBS
        invariant F.Got(fs, Rest()) ==
                  Records.GetFields(Times(KBytes, Enabled(vertexAttrib[..i])), old(Rest()), wsize)
      {
        ghost var ks := Times(KBytes, Enabled(vertexAttrib[..i]));
        EnabledNext(i);
        if vertexAttrib[i].enabled {
          hide Rest, F.GetField, Enabled;
          GetFieldsSnoc(ks, KBytes, old(Rest()), wsize);
          var pointer := GetField(KBytes);
          fs := fs + [pointer];
        }
      }
      assert vertexAttrib[..MAX_VERTEX_ATTRIBS] == vertexAttrib[..];
      args' := args + fs;
    }

    lemma EnabledNext(i: nat)
      requires Valid() && i < MAX_VERTEX_ATTRIBS
      ensures Times(KBytes, Enabled(vertexAttrib[..i + 1])) ==
              Times(KBytes, Enabled(vertexAttrib[..i])) + if vertexAttrib[i].enabled then [KBytes] else []
    {
      assert vertexAttrib[..i + 1][..i] == vertexAttrib[..i];
    }

    // The switch: what each case reads.
    method GetCase(op: int32) returns (stop: Option<Stop>, args: seq<Field>)
      requires Valid()
      modifies this`curPtr
      ensures var o := GetArgs(op, State(), execFlag, old(Rest()), wsize);
              match o
              case Parsed(a, rest) => stop == None && args == a && Rest() == rest
              case NotImplemented => stop == Some(Unknown) && Rest() == old(Rest())
              case Fatal => stop == Some(Exit)
    {
      hide Then, Rest, R.GetDraw, GetNames, GetShaderSource, GetUniform, GetAttached, GetChoose, GetCreate, Enabled;
      stop, args := None, [];
      if ReaderLayout(op).Some? {
        args := GetMore([], ReaderLayout(op).value);
        return;
      }
      hide ReaderLayout;
      if IsCounted(op) {
        args := GetNamesCase();
      } else if op == OPC_glShaderSource {
        args := GetShaderSourceCase();
      } else if op == OPC_glDrawElements {
        args := GetDrawCase();
      } else if op == OPC_glGetActiveUniform {
        stop, args := GetUniformCase();
      } else if op == OPC_glGetAttachedShaders {
        args := GetAttachedCase();
      } else if op == OPC_eglChooseConfig {
        stop, args := GetChooseCase();
      } else if op == OPC_eglCreateWindowSurface || op == OPC_eglCreateContext {
        stop, args := GetCreateCase();
      } else {
        stop := Some(Unknown);
      }
    }

    method GetNamesCase() returns (args: seq<Field>)
      modifies this`curPtr
      ensures GetNames(old(Rest()), wsize) == Parsed(args, Rest())
    {
      hide Then, Rest, Times;
      args := GetMore([], [KInt]);
      args := GetMore(args, Times(KInt, IntAt(Parsed(args, []), 0)));
    }

    method GetShaderSourceCase() returns (args: seq<Field>)
      modifies this`curPtr
      ensures GetShaderSource(old(Rest()), wsize) == Parsed(args, Rest())
    {
      hide Then, Rest, GetSources;
      args := GetMore([], [KInt, KInt]);
      args := GetSourceList(IntAt(Parsed(args, []), 1), args);
    }

    method GetDrawCase() returns (args: seq<Field>)
      requires Valid()
      modifies this`curPtr
      ensures GetDraw(State(), old(Rest()), wsize) == Parsed(args, Rest())
    {
      hide Rest, Times, Enabled;
      args := GetMore([], [KInt, KInt, KInt, if elementArrayBufferBinding != 0 then KPtr else KBytes]);
      if arrayBufferBinding == 0 {
        hide Then;
        args := GetBlobs(args);
      } else {
        ThenNone(Parsed(args, Rest()));
      }
    }

    method GetUniformCase() returns (stop: Option<Stop>, args: seq<Field>)
      modifies this`curPtr
      ensures var o := GetUniform(execFlag, old(Rest()), wsize);
              if stop == None then o == Parsed(args, Rest()) else stop == Some(Exit) && o.Fatal?
    {
      hide Then, Rest, R.Optional;
      args := GetMore([], [KInt, KInt, KInt, KPtr, KPtr, KPtr, KPtr]);
      var a := Parsed(args, []);
      args := GetMore(args, R.Optional(PtrAt(a, 3), KInt) + R.Optional(PtrAt(a, 4), KInt) +
                            R.Optional(PtrAt(a, 5), KInt) + R.Optional(PtrAt(a, 6), KString));
      stop := if execFlag && PtrAt(a, 6) == 0 then Some(Exit) else None;
    }

    method GetAttachedCase() returns (args: seq<Field>)
      modifies this`curPtr
      ensures GetAttached(execFlag, old(Rest()), wsize) == Parsed(args, Rest())
    {
      hide Then, Rest, R.Optional, Times;
      args := GetMore([], [KInt, KInt, KPtr, KPtr]);
      var a := Parsed(args, []);
      args := GetMore(args, R.Optional(PtrAt(a, 2), KInt));
      if execFlag && PtrAt(a, 2) != 0 && PtrAt(a, 3) != 0 {
        args := GetMore(args, Times(KInt, IntAt(Parsed(args, []), 4)));
      } else {
        ThenNone(Parsed(args, Rest()));
      }
    }

    method GetCreateCase() returns (stop: Option<Stop>, args: seq<Field>)
      modifies this`curPtr
      ensures var o := GetCreate(old(Rest()), wsize);
              if stop == None then o == Parsed(args, Rest()) else stop == Some(Exit) && o.Fatal?
    {
      hide Then, Rest;
      args := GetMore([], [KPtr, KPtr, KPtr]);
      var ok;
      ok, args := GetAttrList(args);
      if !ok {
        return Some(Exit), args;
      }
      stop := None;
      args := GetMore(args, [KPtr]);
    }

    lemma ThenNone(o: Outcome)
      ensures Then(o, [], wsize) == o
    {
      if o.Parsed? {
        assert o.args + [] == o.args;
      }
    }

    method GetChooseCase() returns (stop: Option<Stop>, args: seq<Field>)
      modifies this`curPtr
      ensures var o := GetChoose(old(Rest()), wsize);
              if stop == None then o == Parsed(args, Rest()) else stop == Some(Exit) && o.Fatal?
    {
      hide Then, Rest, Times;
      args := GetMore([], [KPtr]);
      var ok;
      ok, args := GetAttrList(args);
      if !ok {
        return Some(Exit), args;
      }
      var n := |args|;
      args := GetMore(args, [KInt, KInt]);
      var b := Parsed(args, []);
      stop := None;
      args := GetMore(args, Times(KPtr, Min(IntAt(b, n + 1), IntAt(b, n))) + [KInt]);
    }

    // The assignments to the shadow variables.
    method Update(op: int32, args: seq<Field>)
      requires Valid()
      modifies this`arrayBufferBinding, this`elementArrayBufferBinding, vertexAttrib
      ensures State() == PlayEffect(old(State()), execFlag, op, args)
    {
      var o := Parsed(args, []);
      var i := IntAt(o, 0);
      if op == OPC_glBindBuffer {
        if i == GL_ARRAY_BUFFER {
          arrayBufferBinding := IntAt(o, 1);
        } else if i == GL_ELEMENT_ARRAY_BUFFER {
          elementArrayBufferBinding := IntAt(o, 1);
        }
      } else if 0 <= i < MAX_VERTEX_ATTRIBS {
        if op == OPC_glEnableVertexAttribArray {
          vertexAttrib[i] := vertexAttrib[i].(enabled := true);
        } else if op == OPC_glDisableVertexAttribArray {
          vertexAttrib[i] := vertexAttrib[i].(enabled := false);
        } else if op == OPC_glVertexAttribPointer && execFlag {
          vertexAttrib[i] := MirrorAttrib(vertexAttrib[i].enabled, IntAt(o, 1), IntAt(o, 2), IntAt(o, 3) % 256);
        }
      }
    }

    // One turn of the loop: what it reports, or why it stops.
    method Turn() returns (stop: Option<Stop>, entry: Option<Entry>)
      requires Valid()
      modifies this`curPtr, this`curThread, this`arrayBufferBinding, this`elementArrayBufferBinding, vertexAttrib
      ensures stop == None <==> entry != None
      ensures var c := GetCommand(old(curThread), old(Rest()), wsize);
              var o := GetArgs(c.op, old(State()), execFlag, c.rest, wsize);
              && curThread == c.thread
              && if c.op == OPC_NONE || c.op == OPC_EOF then
                   stop == Some(EndOfTrace) && State() == old(State()) && Rest() == c.rest
                 else if o.NotImplemented? then stop == Some(Unknown) && State() == old(State()) && Rest() == c.rest
                 else if o.Fatal? then stop == Some(Exit) && State() == old(State())
                 else
                   var bgn := F.GetLongLong(o.rest);
                   var end := F.GetLongLong(bgn.rest);
                   && entry == Some(Entry(c.thread, c.op, o.args, bgn.value, end.value))
                   && Rest() == end.rest && State() == PlayEffect(old(State()), execFlag, c.op, o.args)
    {
      hide Rest, GetArgs, PlayEffect, F.GetPtr, F.GetInt, F.GetLongLong, R.GetCmd;
      stop, entry := None, None;
      var cmd := GetCmd();
      if cmd == OPC_THREAD {
        curThread := GetPtr();
        cmd := GetCmd();
      }
      if cmd == OPC_NONE || cmd == OPC_EOF {
        return Some(EndOfTrace), None;
      }
      var args;
      stop, args := GetCase(cmd);
      if stop != None {
        return;
      }
      Update(cmd, args);
      var tbgn := GetLongLong();
      var tend := GetLongLong();
      entry := Some(Entry(curThread, cmd, args, tbgn, tend));
    }

    // process(frames): what it reports and leaves is what the reading of the unread bytes says.
    method Process(frames: int) returns (stop: Stop)
      requires Valid()
      modifies this, vertexAttrib
      ensures var p := R.Process(old(State()), execFlag, old(curThread), frames, old(Rest()), wsize);
              && log == old(log) + p.log && stop == p.stop && curThread == p.thread && State() == p.mirror
              && (stop != Exit ==> Rest() == p.rest)
    {
      hide Rest, GetCommand, GetArgs, PlayEffect, F.GetLongLong;
      var left := frames;
      ghost var p := R.Process(State(), execFlag, curThread, frames, Rest(), wsize);
      while left != 0
        invariant var q := R.Process(State(), execFlag, curThread, left, Rest(), wsize);
                  && log + q.log == old(log) + p.log && q.(log := []) == p.(log := [])
        decreases |Rest()|
      {
        ghost var q := R.Process(State(), execFlag, curThread, left, Rest(), wsize);
        var cause, entry := Turn();
        if cause.Some? {
          assert q.log == [] && log + [] == log;
          return cause.value;
        }
        Assoc(log, [entry.value], q.log[1..]);
        log := log + [entry.value];
        if entry.value.op == OPC_eglSwapBuffers {
          left := left - 1;
        }
      }
      assert log + [] == log;
      stop := FrameLimit;
    }
  }

  // The program from start to exit: nothing when the file is not a trace.
  method ReplayTrace(file: seq<byte>, exec: bool) returns (log: Option<seq<Entry>>, stop: Stop)
    requires Open(file).Some? ==> Open(file).value.value == 4 || Open(file).value.value == 8
    ensures match Open(file)
            case None => log == None
            case Some(g) =>
              var p := R.Process(MIRROR_INITIAL, exec, 0, -1, g.rest, g.value);
              log == Some(p.log) && stop == p.stop
  {
    hide Open, R.Process;
    var start := Open(file);
    if start.None? {
      return None, Exit;
    }
    var r := new Replayer(start.value.rest, 0, start.value.value, exec);
    assert r.Rest() == start.value.rest;
    ghost var p := R.Process(MIRROR_INITIAL, exec, 0, -1, start.value.rest, start.value.value);
    stop := r.Process(-1);
    assert [] + p.log == p.log;
    log := Some(r.log);
  }
}
