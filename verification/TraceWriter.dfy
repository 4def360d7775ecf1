// The writing half of iolib.c: a file mapped one chunk at a time, filled through a
// moving pointer, under a nesting counter that silences every put but those of the
// outermost command.

module TraceWriter {
  import opened Seqs
  import opened Words
  import opened Format

  const CHUNKSZ: nat := 0x10_0000

  const OPC_THREAD: int32 := 2
  const OPC_VERSION: int32 := ToInt(0xdeafca1f)
  const VERSION_MAJOR: int32 := 1
  const VERSION_MINOR: int32 := 0
  const VERSION_REV: int32 := 0

  // What iolib_init leaves in the file.
  function Header(w: WordSize): seq<byte> {
    EncInt(OPC_VERSION) + EncInt(VERSION_MAJOR) + EncInt(VERSION_MINOR) + EncInt(VERSION_REV) + EncInt(w)
  }

  // OPC_THREAD goes in front of a command only when the thread changes.
  function ThreadPrefix(last: uint64, thr: uint64, w: WordSize): seq<byte>
    requires thr < Range(w)
  {
    if thr == last then [] else EncInt(OPC_THREAD) + EncPtr(thr, w)
  }

  class Writer {
    const wsize: WordSize
    var disk: seq<byte>       // the file up to the mapped chunk
    var chunk: array<byte>    // the mapped chunk: filePtr .. endPtr
    var curPtr: nat           // offset of curPtr in it
    var endPtr: nat           // offset of endPtr: 0 before the first mapping
    var fileOffset: nat       // file offset just past the mapped chunk
    var reentrance: nat
    var curThread: uint64
    ghost var stream: seq<byte>  // the flat append-only stream that the chunks refine

    ghost predicate Mapped()
      reads this, chunk
    {
      && curPtr <= endPtr == chunk.Length
      && fileOffset == |disk| + endPtr
      && |disk| % 4 == 0
      && (endPtr == CHUNKSZ || (endPtr == 0 && disk == []))
      && stream == disk + chunk[..curPtr]
    }

    // Between two puts the pointer is aligned for an int.
    ghost predicate Valid()
      reads this, chunk
    {
      Mapped() && curPtr % 4 == 0
    }

    // The puts append bytes, and change nothing but the mapping.
    twostate predicate Wrote(bytes: seq<byte>)
      reads this
    {
      && (chunk == old(chunk) || fresh(chunk))
      && stream == old(stream) + bytes
      && reentrance == old(reentrance)
      && curThread == old(curThread)
    }

    // At depth 2 and more the puts return at once.
    function Silenced(bytes: seq<byte>): seq<byte>
      reads this
    {
      if reentrance > 1 then [] else bytes
    }

    // Bytes in the stream against file offset and pointers.
    lemma StreamLength()
      requires Mapped()
      ensures |stream| == fileOffset - (endPtr - curPtr)
      ensures |stream| % 4 == curPtr % 4
    {
    }

    // Where the pointers are.
    lemma Pointers()
      requires Mapped()
      ensures curPtr <= endPtr && (endPtr == CHUNKSZ || endPtr == 0)
    {
    }

    constructor (w: WordSize)
      ensures Valid() && fresh(chunk) && wsize == w
      ensures stream == Header(w) && reentrance == 0 && curThread == 0
    {
      wsize := w;
      disk := [];
      chunk := new byte[0];
      curPtr, endPtr, fileOffset, reentrance, curThread := 0, 0, 0, 0, 0;
      stream := [];
      new;
      assert Mapped();
      PutHeader();
    }

    method PutHeader()
      requires Valid() && stream == [] && reentrance == 0
      modifies this, chunk
      ensures Valid() && Wrote(Header(wsize))
    {
      hide Mapped, EncInt;
      PutInt(OPC_VERSION);
      PutInt(VERSION_MAJOR);
      PutInt(VERSION_MINOR);
      PutInt(VERSION_REV);
      PutInt(wsize);
    }

    // The full chunk is unmapped, the file grown by a zeroed one, and that one mapped.
    method Enlarge()
      requires Mapped() && curPtr == endPtr
      modifies this
      ensures Mapped() && Wrote([]) && fresh(chunk) && curPtr == 0 && endPtr == CHUNKSZ
    {
      disk := disk + chunk[..];
      assert disk == stream;
      chunk := new byte[CHUNKSZ](_ => 0);
      fileOffset := fileOffset + CHUNKSZ;
      curPtr, endPtr := 0, CHUNKSZ;
    }

    // A byte is stored, and the pointer moved behind it.
    method PutByte(b: byte)
      requires Mapped() && curPtr < endPtr
      modifies this`curPtr, this`stream, chunk
      ensures Mapped() && stream == old(stream) + [b] && curPtr == old(curPtr) + 1
    {
      chunk[curPtr] := b;
      curPtr := curPtr + 1;
      stream := stream + [b];
      assert chunk[..curPtr] == old(chunk[..curPtr]) + [b];
    }

    // The inner loop of those puts: a run of bytes that fits in the chunk.
    method CopyRun(src: seq<byte>)
      requires Mapped() && |src| <= endPtr - curPtr
      modifies this`curPtr, this`stream, chunk
      ensures Mapped() && stream == old(stream) + src && curPtr == old(curPtr) + |src|
    {
      var s := 0;
      while s < |src|
        invariant s <= |src| && curPtr == old(curPtr) + s
        invariant Mapped() && stream == old(stream) + src[..s]
      {
        PutByte(src[s]);
        assert src[..s + 1] == src[..s] + [src[s]];
        s := s + 1;
      }
    }

    // The loop shared by putLongLong, putPtr, putString and putBytes: what does not fit
    // in the chunk goes to the next one.
    method Copy(src: seq<byte>)
      requires Mapped()
      modifies this, chunk
      ensures Mapped() && Wrote(src)
    {
      hide Mapped;
      var s := 0;
      var left := |src|;
      CutAt(src, 0, 0);
      assert stream + [] == stream;
      while left > 0
        invariant 0 <= left && s + left == |src|
        invariant Mapped() && Wrote(src[..s])
        decreases left, CHUNKSZ - (endPtr - curPtr)
      {
        Pointers();
        var avail := endPtr - curPtr;
        if left <= avail {
          CutAt(src, s, |src|);
          Assoc(old(stream), src[..s], src[s..|src|]);
          CopyRun(src[s..|src|]);
          s, left := |src|, 0;
        } else {
          left := left - avail;
          CutAt(src, s, s + avail);
          Assoc(old(stream), src[..s], src[s..s + avail]);
          CopyRun(src[s..s + avail]);
          assert stream + [] == stream;
          s := s + avail;
          Enlarge();
        }
      }
    }

    // Zeros up to the next multiple of sizeof(int); chunks are mapped at page boundaries.
    method Align()
      requires Mapped()
      modifies this`curPtr, this`stream, chunk
      ensures Valid() && stream == old(stream) + Zeros(Pad(|old(stream)|))
    {
      StreamLength();
      assert Pad(curPtr) == Pad(|stream|);
      while curPtr % 4 != 0
        invariant Mapped()
        invariant stream + Zeros(Pad(curPtr)) == old(stream + Zeros(Pad(|stream|)))
        decreases Pad(curPtr)
      {
        hide Pad, Zeros;
        PadStep(curPtr);
        Assoc(stream, [0], Zeros(Pad(curPtr + 1)));
        assert curPtr < endPtr by {
          StreamLength();
        }
        PutByte(0);
      }
      assert stream + Zeros(0) == stream;
    }

    // Stores a word, in a new chunk if this one is full. It never crosses a chunk end, as the
    // pointer is aligned.
    method PutWord(w: nat)
      requires Valid() && w < 0x1_0000_0000
      modifies this, chunk
      ensures Valid() && Wrote(LE(w, 4))
    {
      if curPtr >= endPtr {
        Enlarge();
      }
      CopyRun(LE(w, 4));
    }

    method PutInt(arg: int32)
      requires Valid()
      modifies this, chunk
      ensures Valid() && Wrote(old(Silenced(EncInt(arg))))
    {
      if reentrance > 1 {
        return;
      }
      PutWord(ToWord(arg));
    }

    method PutFloat(arg: float32)
      requires Valid()
      modifies this, chunk
      ensures Valid() && Wrote(old(Silenced(EncFloat(arg))))
    {
      if reentrance > 1 {
        return;
      }
      PutWord(arg);
    }

    method PutIntPtr(arg: Option<int32>)
      requires Valid()
      modifies this, chunk
      ensures Valid() && Wrote(old(Silenced(EncIntPtr(arg))))
    {
      hide Mapped, LE;
      if reentrance > 1 {
        return;
      }
      var val: int32 := 0;
      if arg.None? || arg.value == MARKER {
        PutWord(ToWord(MARKER));
        if arg.Some? {
          val := MARKER;
        }
      } else {
        val := arg.value;
      }
      PutWord(ToWord(val));
    }

    method PutFloatPtr(arg: Option<float32>)
      requires Valid()
      modifies this, chunk
      ensures Valid() && Wrote(old(Silenced(EncFloatPtr(arg))))
    {
      hide Mapped, LE;
      if reentrance > 1 {
        return;
      }
      var val: float32 := 0;
      if arg.None? || arg.value == FLOAT_MARKER {
        PutWord(FLOAT_MARKER);
        if arg.Some? {
          val := FLOAT_MARKER;
        }
      } else {
        val := arg.value;
      }
      PutWord(val);
    }

    method PutLongLong(arg: uint64)
      requires Valid()
      modifies this, chunk
      ensures Valid() && Wrote(old(Silenced(EncLongLong(arg))))
    {
      if reentrance > 1 {
        return;
      }
      StreamLength();
      Copy(EncLongLong(arg));
      StreamLength();
    }

    method PutPtr(arg: uint64)
      requires Valid() && arg < Range(wsize)
      modifies this, chunk
      ensures Valid() && Wrote(old(Silenced(EncPtr(arg, wsize))))
    {
      if reentrance > 1 {
        return;
      }
      StreamLength();
      Copy(EncPtr(arg, wsize));
      StreamLength();
    }

    method PutString(str: Option<CString>)
      requires Valid()
      modifies this, chunk
      ensures Valid() && Wrote(old(Silenced(EncString(str))))
    {
      if reentrance > 1 {
        return;
      }
      if str.None? {
        PutInt(0);
        return;
      }
      hide Mapped, EncInt, Pad, Zeros;
      StreamLength();
      ghost var start := stream;
      PadShift(|start|, |str.value| + 1);
      Copy(str.value + [0]);
      Assoc(start, str.value + [0], Zeros(Pad(|str.value| + 1)));
      Align();
    }

    // size is what the caller passes; data is the memory it points to.
    method PutBytes(data: Option<seq<byte>>, size: int32)
      requires Valid() && BlobOk(data, size)
      modifies this, chunk
      ensures Valid() && Wrote(old(Silenced(EncBytes(data, size))))
    {
      hide Mapped, EncInt, EncBytes, Pad, Zeros;
      if reentrance > 1 {
        return;
      }
      ghost var start, body := stream, if data.None? then [] else data.value;
      var left := if data.None? then 0 else size;
      PutInt(left);
      StreamLength();
      if left > 0 {
        Copy(data.value);
      }
      PadShift(|start + EncInt(left)|, |body|);
      assert stream == start + EncInt(left) + body;
      Assoc(start, EncInt(left), body);
      Assoc(start, EncInt(left) + body, Zeros(Pad(|body|)));
      Align();
      BytesForm(data, size);
    }

    static lemma BytesForm(data: Option<seq<byte>>, size: int32)
      requires BlobOk(data, size)
      ensures var body := if data.None? then [] else data.value;
              EncBytes(data, size) == EncInt(if data.None? then 0 else size) + body + Zeros(Pad(|body|))
    {
    }

    // Takes the recursive lock; only depth 1 writes.
    method PutCmd(thr: uint64, cmd: int32)
      requires Valid() && thr < Range(wsize)
      modifies this, chunk
      ensures Valid() && (chunk == old(chunk) || fresh(chunk))
      ensures reentrance == old(reentrance) + 1
      ensures curThread == if old(reentrance) == 0 then thr else old(curThread)
      ensures stream == old(stream) +
                        if old(reentrance) == 0
                        then ThreadPrefix(old(curThread), thr, wsize) + EncInt(cmd)
                        else []
    {
      reentrance := reentrance + 1;
      if reentrance > 1 {
        return;
      }
      hide Mapped, EncInt, EncPtr;
      ghost var start := stream;
      if thr != curThread {
        PutInt(OPC_THREAD);
        PutPtr(thr);
        curThread := thr;
        Assoc(start, EncInt(OPC_THREAD), EncPtr(thr, wsize));
      }
      Assoc(start, ThreadPrefix(old(curThread), thr, wsize), EncInt(cmd));
      PutInt(cmd);
    }

    method PutTime(bgn: uint64, end: uint64)
      requires Valid() && reentrance >= 1
      modifies this, chunk
      ensures Valid() && (chunk == old(chunk) || fresh(chunk))
      ensures reentrance == old(reentrance) - 1 && curThread == old(curThread)
      ensures stream == old(stream) + old(Silenced(EncLongLong(bgn) + EncLongLong(end)))
    {
      hide Mapped, EncLongLong;
      ghost var start := stream;
      PutLongLong(bgn);
      PutLongLong(end);
      EndCmd();
      Assoc(start, EncLongLong(bgn), EncLongLong(end));
    }

    method EndCmd()
      requires Valid() && reentrance >= 1
      modifies this`reentrance
      ensures Valid() && reentrance == old(reentrance) - 1
    {
      reentrance := reentrance - 1;
    }

    // What is on disk after iolib_fini: the last chunk cut at the pointer.
    method Fini() returns (file: seq<byte>)
      requires Valid()
      ensures file == stream
    {
      file := disk + chunk[..];
      if curPtr < endPtr {
        file := file[..fileOffset - (endPtr - curPtr)];
      }
    }
  }
}
