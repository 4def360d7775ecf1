// The scalar layer of the gltrace format: little-endian words of a C machine.

module Words {
  type byte = b: int | 0 <= b < 256
  type int32 = i: int | -0x8000_0000 <= i < 0x8000_0000
  type uint64 = n: int | 0 <= n < 0x1_0000_0000_0000_0000

  // A C string: no NUL among its characters.
  type CString = s: seq<byte> | 0 !in s

  // sizeof(void*) of the recording process.
  type WordSize = w: nat | w == 4 || w == 8 witness 8

  datatype Option<+T> = None | Some(value: T)

  // A 32-bit pattern read as a C int, and back.
  function ToInt(w: nat): int32
    requires w < 0x1_0000_0000
  {
    if w < 0x8000_0000 then w else w - 0x1_0000_0000
  }

  function ToWord(i: int32): (w: nat)
    ensures w < 0x1_0000_0000 && ToInt(w) == i
  {
    if i < 0 then i + 0x1_0000_0000 else i
  }

  // 256 to the power n.
  function Range(n: nat): (p: nat)
    ensures p > 0
  {
    if n == 0 then 1 else 256 * Range(n - 1)
  }

  lemma RangeValues()
    ensures Range(4) == 0x1_0000_0000 && Range(8) == 0x1_0000_0000_0000_0000
  {
    assert Range(1) == 256 && Range(2) == 0x1_0000 && Range(3) == 0x100_0000;
    assert Range(5) == 0x100_0000_0000 && Range(6) == 0x1_0000_0000_0000 && Range(7) == 0x100_0000_0000_0000;
  }

  // The n low-order bytes of x, least significant first.
  function LE(x: nat, n: nat): (s: seq<byte>)
    ensures |s| == n
  {
    if n == 0 then [] else [x % 256] + LE(x / 256, n - 1)
  }

  function FromLE(s: seq<byte>): nat {
    if s == [] then 0 else s[0] + 256 * FromLE(s[1..])
  }

  lemma {:induction false} FromLEOfLE(x: nat, n: nat)
    requires x < Range(n)
    ensures FromLE(LE(x, n)) == x
  {
    if n > 0 {
      FromLEOfLE(x / 256, n - 1);
    }
  }

  lemma {:induction false} FromLEBound(s: seq<byte>)
    ensures FromLE(s) < Range(|s|)
  {
    if s != [] {
      FromLEBound(s[1..]);
    }
  }

  function Zeros(n: nat): (s: seq<byte>)
    ensures |s| == n
  {
    seq(n, _ => 0)
  }

  // Bytes needed to take n up to the next multiple of sizeof(int).
  function Pad(n: nat): nat {
    (4 - n % 4) % 4
  }

  lemma PadWhole(n: nat)
    ensures (n + Pad(n)) % 4 == 0 && (4 + n + Pad(n)) % 4 == 0
  {
  }

  lemma PadStep(n: nat)
    requires n % 4 != 0
    ensures Pad(n) == 1 + Pad(n + 1) && Zeros(Pad(n)) == [0] + Zeros(Pad(n + 1))
  {
  }

  // Only the position modulo sizeof(int) counts.
  lemma PadShift(n: nat, k: nat)
    requires n % 4 == 0
    ensures Pad(n + k) == Pad(k)
  {
  }
}
