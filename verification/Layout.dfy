// The bytes of a trace file: what a reader of the format on another machine would expect.

module Layout {
  import opened Words
  import opened Format
  import opened TraceWriter

  // Byte k of a number is its k-th digit to the base 256, the lowest first.
  lemma {:induction false} Digit(x: nat, n: nat, k: nat)
    requires k < n
    ensures LE(x, n)[k] == x / Range(k) % 256
  {
    if k > 0 {
      Digit(x / 256, n - 1, k - 1);
      DivDiv(x, Range(k - 1));
    }
  }

  lemma DivDiv(x: nat, d: nat)
    requires d > 0
    ensures x / 256 / d == x / (256 * d)
  {
    var q, r := x / 256 / d, x / 256 % d;
    assert x / 256 == q * d + r;
    var e, s := 256 * d, 256 * r + x % 256;
    assert x == q * e + s;
    DivOf(x, e, q, s);
  }

  lemma DivOf(x: nat, e: nat, q: nat, s: nat)
    requires e > 0 && x == q * e + s && s < e
    ensures x / e == q
  {
    var t := x / e - q;
    assert t * e == s - x % e;
    if t > 0 {
      AtLeast(t, e);
    } else if t < 0 {
      AtLeast(-t, e);
    }
  }

  lemma AtLeast(t: int, e: nat)
    requires t > 0
    ensures t * e >= e
  {
    assert (t - 1) * e >= 0;
  }

  // An int is in two's complement.
  lemma IntBytes(i: int32)
    ensures var n := if i < 0 then i + 0x1_0000_0000 else i;
            EncInt(i) == [n % 256, n / 0x100 % 256, n / 0x1_0000 % 256, n / 0x100_0000]
  {
    RangeValues();
    var n := ToWord(i);
    assert Range(0) == 1 && Range(1) == 0x100 && Range(2) == 0x1_0000 && Range(3) == 0x100_0000;
    Digit(n, 4, 0);
    Digit(n, 4, 1);
    Digit(n, 4, 2);
    Digit(n, 4, 3);
  }

  // A string is its characters and one to four NULs, up to a whole number of ints; a blob is
  // its size, its bytes and up to three zeros.
  lemma StringBytes(s: CString)
    ensures var t := EncString(Some(s));
            && |t| % 4 == 0 && |s| < |t| <= |s| + 4 && t[..|s|] == s
            && forall k :: |s| <= k < |t| ==> t[k] == 0
    ensures EncString(None) == [0, 0, 0, 0]
  {
    IntBytes(0);
    PadWhole(|s| + 1);
  }

  lemma BlobBytes(data: seq<byte>)
    requires 0 < |data| < 0x8000_0000
    ensures var t := EncBytes(Some(data), |data|);
            && |t| % 4 == 0 && 4 + |data| <= |t| < 8 + |data| && t[..4] == EncInt(|data|)
            && t[4..4 + |data|] == data && forall k :: 4 + |data| <= k < |t| ==> t[k] == 0
    ensures EncBytes(None, |data|) == [0, 0, 0, 0]
  {
    IntBytes(0);
    PadWhole(|data|);
  }

  lemma SmallInt(i: int32)
    requires 0 <= i < 256
    ensures EncInt(i) == [i, 0, 0, 0]
  {
    IntBytes(i);
  }

  lemma VersionWord()
    ensures EncInt(OPC_VERSION) == [0x1f, 0xca, 0xaf, 0xde]
  {
    IntBytes(OPC_VERSION);
  }

  // The version word 0xdeafca1f, version 1.0.0 and the size of a pointer.
  lemma HeaderBytes(w: WordSize)
    ensures var version: seq<byte>, pointer: byte := [0x1f, 0xca, 0xaf, 0xde], w;
            Header(w) == version + [1, 0, 0, 0] + [0, 0, 0, 0] + [0, 0, 0, 0] + [pointer, 0, 0, 0]
  {
    VersionWord();
    SmallInt(VERSION_MAJOR);
    SmallInt(0);
    SmallInt(w);
    hide EncInt;
  }

  // A command of the same thread has nothing in front of it; one of another thread has the
  // code 2 and that thread.
  lemma PrefixBytes(last: uint64, thr: uint64, w: WordSize)
    requires thr < Range(w)
    ensures var t := ThreadPrefix(last, thr, w);
            if thr == last then t == []
            else |t| == 4 + w && t[..4] == [2, 0, 0, 0] && forall k :: 0 <= k < w ==> t[4 + k] == thr / Range(k) % 256
  {
    SmallInt(OPC_THREAD);
    hide EncInt, LE;
    forall k | 0 <= k < w
      ensures LE(thr, w)[k] == thr / Range(k) % 256
    {
      Digit(thr, w, k);
    }
  }
}
