// What each put* of iolib.c appends to the trace, what each get* takes from it,
// and when the second undoes the first.

module Format {
  import opened Seqs
  import opened Words

  // A float is carried as its 32-bit pattern.
  type float32 = f: int | 0 <= f < 0x1_0000_0000

  const MARKER: int32 := ToInt(0xdeadbead)
  // The pattern of (float)0xdeadbead, that is of 0xdeadbf * 2^8.
  const FLOAT_MARKER: float32 := 0x4f5eadbf

  // ---- Appended by the writer ----

  function EncInt(i: int32): (s: seq<byte>)
    ensures |s| == 4
  {
    LE(ToWord(i), 4)
  }

  function EncFloat(f: float32): (s: seq<byte>)
    ensures |s| == 4
  {
    LE(f, 4)
  }

  function EncLongLong(n: uint64): (s: seq<byte>)
    ensures |s| == 8
  {
    LE(n, 8)
  }

  function EncPtr(p: uint64, w: WordSize): (s: seq<byte>)
    requires p < Range(w)
    ensures |s| == w
  {
    LE(p, w)
  }

  function EncIntPtr(a: Option<int32>): seq<byte> {
    if a.None? then EncInt(MARKER) + EncInt(0)
    else if a.value == MARKER then EncInt(MARKER) + EncInt(MARKER)
    else EncInt(a.value)
  }

  function EncFloatPtr(a: Option<float32>): seq<byte> {
    if a.None? then EncFloat(FLOAT_MARKER) + EncFloat(0)
    else if a.value == FLOAT_MARKER then EncFloat(FLOAT_MARKER) + EncFloat(FLOAT_MARKER)
    else EncFloat(a.value)
  }

  function EncString(a: Option<CString>): (s: seq<byte>)
    ensures |s| % 4 == 0
  {
    if a.None? then EncInt(0)
    else
      PadWhole(|a.value| + 1);
      a.value + [0] + Zeros(Pad(|a.value| + 1))
  }

  // The memory putBytes reads: size bytes when there is a pointer and size is positive.
  predicate BlobOk(data: Option<seq<byte>>, size: int32) {
    data.Some? ==> |data.value| == if size > 0 then size else 0
  }

  function EncBytes(data: Option<seq<byte>>, size: int32): (s: seq<byte>)
    requires BlobOk(data, size)
    ensures |s| % 4 == 0
  {
    if data.None? then EncInt(0)
    else
      PadWhole(|data.value|);
      EncInt(size) + data.value + Zeros(Pad(|data.value|))
  }

  // ---- Taken by the reader: the value, and the bytes still unread ----

  datatype Got<+T> = Got(value: T, rest: seq<byte>)

  function Drop(s: seq<byte>, n: nat): seq<byte> {
    if n <= |s| then s[n..] else []
  }

  function Word(s: seq<byte>): (w: nat)
    requires |s| >= 4
    ensures w < 0x1_0000_0000
  {
    FromLEBound(s[..4]);
    RangeValues();
    FromLE(s[..4])
  }

  function GetInt(s: seq<byte>): (g: Got<int32>)
    ensures |g.rest| <= |s|
  {
    if |s| < 4 then Got(0, s) else Got(ToInt(Word(s)), s[4..])
  }

  function GetFloat(s: seq<byte>): (g: Got<float32>)
    ensures |g.rest| <= |s|
  {
    if |s| < 4 then Got(0, s) else Got(Word(s), s[4..])
  }

  function GetLongLong(s: seq<byte>): (g: Got<uint64>)
    ensures |g.rest| <= |s|
  {
    if |s| < 8 then Got(0, s)
    else
      FromLEBound(s[..8]);
      RangeValues();
      Got(FromLE(s[..8]), s[8..])
  }

  // A 4-byte pointer is read through int32_t, hence sign-extended to 64 bits.
  function PtrView(p: uint64, w: WordSize): uint64
    requires p < Range(w)
  {
    RangeValues();
    if w == 4 && p >= 0x8000_0000 then p + 0xffff_ffff_0000_0000 else p
  }

  function GetPtr(s: seq<byte>, w: WordSize): (g: Got<uint64>)
    ensures |g.rest| <= |s|
  {
    if |s| < w then Got(0, s)
    else
      FromLEBound(s[..w]);
      RangeValues();
      Got(PtrView(FromLE(s[..w]), w), s[w..])
  }

  function GetIntPtr(s: seq<byte>): (g: Got<Option<int32>>)
    ensures |g.rest| <= |s|
  {
    if |s| < 4 then Got(None, s)
    else if GetInt(s).value != MARKER then Got(Some(GetInt(s).value), s[4..])
    else
      var second := GetInt(s[4..]);
      Got(if second.value == 0 then None else Some(second.value), Drop(s, 8))
  }

  // Unlike getIntPtr, the second word is looked at but not stepped over.
  function GetFloatPtr(s: seq<byte>): (g: Got<Option<float32>>)
    ensures |g.rest| <= |s|
  {
    if |s| < 4 then Got(None, s)
    else if GetFloat(s).value != FLOAT_MARKER then Got(Some(GetFloat(s).value), s[4..])
    else
      var second := GetFloat(s[4..]).value;
      Got(if second == 0 || second == 0x8000_0000 then None else Some(second), s[4..])
  }

  // strlen: the number of bytes before the first NUL.
  function StrLen(s: seq<byte>): (n: nat)
    ensures n <= |s| && 0 !in s[..n] && (n < |s| ==> s[n] == 0)
  {
    if s == [] || s[0] == 0 then 0
    else
      assert s[..1 + StrLen(s[1..])] == [s[0]] + s[1..][..StrLen(s[1..])];
      1 + StrLen(s[1..])
  }

  function GetString(s: seq<byte>): (g: Got<Option<CString>>)
    ensures |g.rest| <= |s|
  {
    var n := StrLen(s);
    if n == |s| then Got(None, s)
    else Got(Some(s[..n]), Drop(s, n + 1 + Pad(n + 1)))
  }

  function GetBytes(s: seq<byte>): (g: Got<Option<seq<byte>>>)
    ensures |g.rest| <= |s|
  {
    if |s| < 4 then Got(None, s)
    else
      var size := GetInt(s).value;
      if size <= 0 || size > |s| - 4 then Got(None, s[4..])
      else Got(Some(s[4..4 + size]), Drop(s, 4 + size + Pad(size)))
  }

  // ---- One argument of a call ----

  datatype Kind = KInt | KFloat | KPtr | KString | KBytes | KIntPtr | KFloatPtr

  datatype Field =
    | FInt(i: int32)
    | FFloat(f: float32)
    | FPtr(p: uint64)
    | FString(str: Option<CString>)
    | FBytes(data: Option<seq<byte>>, size: int32)
    | FIntPtr(ip: Option<int32>)
    | FFloatPtr(fp: Option<float32>)
  {
    function Kind(): Kind {
      match this
      case FInt(_) => KInt
      case FFloat(_) => KFloat
      case FPtr(_) => KPtr
      case FString(_) => KString
      case FBytes(_, _) => KBytes
      case FIntPtr(_) => KIntPtr
      case FFloatPtr(_) => KFloatPtr
    }

    // What the C types of the recording process allow.
    predicate Ok(w: WordSize) {
      match this
      case FPtr(p) => p < Range(w)
      case FBytes(data, size) => BlobOk(data, size)
      case _ => true
    }

    // What the replayer is given for it: pointers widened, NULL strings empty, empty blobs NULL.
    function Seen(w: WordSize): Field
      requires Ok(w)
    {
      match this
      case FPtr(p) => FPtr(PtrView(p, w))
      case FString(None) => FString(Some([]))
      case FBytes(data, size) => if data.Some? && size > 0 then this else FBytes(None, 0)
      case _ => this
    }

    // Reading it back ends where writing it ended.
    predicate InSync() {
      FFloatPtr? ==> fp.Some? && fp.value != FLOAT_MARKER
    }
  }

  function EncField(f: Field, w: WordSize): seq<byte>
    requires f.Ok(w)
  {
    match f
    case FInt(i) => EncInt(i)
    case FFloat(x) => EncFloat(x)
    case FPtr(p) => EncPtr(p, w)
    case FString(a) => EncString(a)
    case FBytes(data, size) => EncBytes(data, size)
    case FIntPtr(a) => EncIntPtr(a)
    case FFloatPtr(a) => EncFloatPtr(a)
  }

  function GetField(k: Kind, s: seq<byte>, w: WordSize): (g: Got<Field>)
    ensures |g.rest| <= |s|
    ensures g.value.Kind() == k
  {
    match k
    case KInt => var g := GetInt(s); Got(FInt(g.value), g.rest)
    case KFloat => var g := GetFloat(s); Got(FFloat(g.value), g.rest)
    case KPtr => var g := GetPtr(s, w); Got(FPtr(g.value), g.rest)
    case KString => var g := GetString(s); Got(FString(g.value), g.rest)
    case KBytes =>
      var g := GetBytes(s);
      Got(FBytes(g.value, if g.value.Some? then GetInt(s).value else 0), g.rest)
    case KIntPtr => var g := GetIntPtr(s); Got(FIntPtr(g.value), g.rest)
    case KFloatPtr => var g := GetFloatPtr(s); Got(FFloatPtr(g.value), g.rest)
  }

  lemma IntBack(i: int32, tail: seq<byte>)
    ensures GetInt(EncInt(i) + tail) == Got(i, tail)
  {
    RangeValues();
    FromLEOfLE(ToWord(i), 4);
    SplitAt(EncInt(i), tail);
  }

  lemma FloatBack(f: float32, tail: seq<byte>)
    ensures GetFloat(EncFloat(f) + tail) == Got(f, tail)
  {
    RangeValues();
    FromLEOfLE(f, 4);
    SplitAt(EncFloat(f), tail);
  }

  lemma LongLongBack(n: uint64, tail: seq<byte>)
    ensures GetLongLong(EncLongLong(n) + tail) == Got(n, tail)
  {
    RangeValues();
    FromLEOfLE(n, 8);
    SplitAt(EncLongLong(n), tail);
  }

  lemma PtrBack(p: uint64, w: WordSize, tail: seq<byte>)
    requires p < Range(w)
    ensures GetPtr(EncPtr(p, w) + tail, w) == Got(PtrView(p, w), tail)
  {
    FromLEOfLE(p, w);
    SplitAt(EncPtr(p, w), tail);
  }

  // A pointer keeps its low-order bytes, and keeps its value unless it is a high 32-bit one.
  lemma PtrViewExact(p: uint64, w: WordSize)
    requires p < Range(w)
    ensures PtrView(p, w) % Range(w) == p
    ensures PtrView(p, w) == p <==> w == 8 || p < 0x8000_0000
    ensures PtrView(p, w) == 0 <==> p == 0
  {
    RangeValues();
  }

  lemma IntPtrBack(a: Option<int32>, tail: seq<byte>)
    ensures GetIntPtr(EncIntPtr(a) + tail) == Got(a, tail)
  {
    if a.None? || a.value == MARKER {
      var second := if a.None? then 0 else MARKER;
      assert EncIntPtr(a) + tail == EncInt(MARKER) + (EncInt(second) + tail);
      IntBack(MARKER, EncInt(second) + tail);
      IntBack(second, tail);
      assert GetInt(EncIntPtr(a) + tail).rest == (EncIntPtr(a) + tail)[4..];
      SplitAt(EncIntPtr(a), tail);
    } else {
      IntBack(a.value, tail);
    }
  }

  // The value always comes back; the position does exactly when one word was written.
  lemma FloatPtrBack(a: Option<float32>, tail: seq<byte>)
    ensures GetFloatPtr(EncFloatPtr(a) + tail).value == a
    ensures GetFloatPtr(EncFloatPtr(a) + tail).rest == tail <==> a.Some? && a.value != FLOAT_MARKER
  {
    hide EncFloat, GetFloat;
    if a.None? || a.value == FLOAT_MARKER {
      var second := if a.None? then 0 else FLOAT_MARKER;
      var s := EncFloatPtr(a) + tail;
      assert s == EncFloat(FLOAT_MARKER) + (EncFloat(second) + tail);
      FloatBack(FLOAT_MARKER, EncFloat(second) + tail);
      FloatBack(second, tail);
      FloatFour(s, FLOAT_MARKER, EncFloat(second) + tail);
      assert |GetFloatPtr(s).rest| == |tail| + 4;
    } else {
      FloatBack(a.value, tail);
      FloatFour(EncFloatPtr(a) + tail, a.value, tail);
    }
  }

  lemma FloatFour(s: seq<byte>, f: float32, tail: seq<byte>)
    requires s == EncFloat(f) + tail
    ensures |EncFloat(f)| == 4 && s[4..] == tail
  {
  }

  lemma {:induction false} StrLenBack(s: CString, tail: seq<byte>)
    ensures StrLen(s + [0] + tail) == |s|
  {
    if s != [] {
      StrLenBack(s[1..], tail);
      assert (s + [0] + tail)[1..] == s[1..] + [0] + tail;
      assert (s + [0] + tail)[0] == s[0];
      assert s[0] in s;
    }
  }

  lemma StringBack(a: Option<CString>, tail: seq<byte>)
    ensures GetString(EncString(a) + tail) == Got(Some(if a.None? then [] else a.value), tail)
  {
    var str: CString := if a.None? then [] else a.value;
    assert EncString(a) == str + [0] + Zeros(Pad(|str| + 1)) by {
      if a.None? {
        assert EncInt(0) == [0, 0, 0, 0];
      }
    }
    var s := EncString(a) + tail;
    assert s == str + [0] + (Zeros(Pad(|str| + 1)) + tail);
    StrLenBack(str, Zeros(Pad(|str| + 1)) + tail);
    assert s[..|str|] == str;
    SplitAt(EncString(a), tail);
  }

  lemma BytesBack(data: Option<seq<byte>>, size: int32, tail: seq<byte>)
    requires BlobOk(data, size)
    ensures GetBytes(EncBytes(data, size) + tail) == Got(if size > 0 then data else None, tail)
    ensures data.Some? ==> GetInt(EncBytes(data, size) + tail).value == size
  {
    var written := if data.None? then 0 else size;
    var body := if data.None? then [] else data.value + Zeros(Pad(|data.value|));
    var s := EncBytes(data, size) + tail;
    assert s == EncInt(written) + (body + tail);
    IntBack(written, body + tail);
    SplitAt(EncInt(written), body + tail);
    SplitAt(EncBytes(data, size), tail);
    if written > 0 {
      assert s[4..4 + size] == data.value;
    }
  }

  // Every argument comes back as Seen describes, and the reader stands at the end of
  // it, with one exception: the two-word forms of a float pointer.
  lemma FieldBack(f: Field, w: WordSize, tail: seq<byte>)
    requires f.Ok(w)
    ensures GetField(f.Kind(), EncField(f, w) + tail, w).value == f.Seen(w)
    ensures GetField(f.Kind(), EncField(f, w) + tail, w).rest == tail <==> f.InSync()
  {
    hide EncInt, EncFloat, EncPtr, EncString, EncBytes, EncIntPtr, EncFloatPtr;
    hide GetInt, GetFloat, GetPtr, GetString, GetBytes, GetIntPtr, GetFloatPtr;
    match f
    case FInt(i) => IntBack(i, tail);
    case FFloat(x) => FloatBack(x, tail);
    case FPtr(p) => PtrBack(p, w, tail);
    case FString(a) => StringBack(a, tail);
    case FBytes(data, size) => BytesBack(data, size, tail);
    case FIntPtr(a) => IntPtrBack(a, tail);
    case FFloatPtr(a) => FloatPtrBack(a, tail);
  }
}
