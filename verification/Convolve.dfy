// SSELinearConvolvePeer.cc and SSELinearConvolveShadowPeer.cc: one-dimensional
// convolution through a ring of the last K samples, which stays in place while the
// doubled coefficient table slides over it.

module Convolve {
  import opened Grids
  import opened Pixels
  import opened BoxBlur
  import opened BoxShadow

  // kvals: the K weights twice over.
  datatype Kernel = Kernel(kvals: seq<real>, size: nat) {
    predicate Valid() {
      1 <= size && |kvals| == 2 * size && forall j :: 0 <= j < size ==> kvals[j + size] == kvals[j]
    }
  }

  // ---- The simple form ----

  function Weighted(v: real, factor: real): real {
    v * factor
  }

  // Weight K-1-d times the sample d columns back.
  function DirectAt(l: Line, k: nat, kn: Kernel, c: int, d: nat): real
    requires l.Valid() && kn.Valid() && d < kn.size
  {
    Weighted(l.Sample(k, c - d) as real, kn.kvals[kn.size - 1 - d])
  }

  function Direct(l: Line, k: nat, kn: Kernel, c: int, n: nat): real
    requires l.Valid() && kn.Valid() && n <= kn.size
  {
    if n == 0 then 0.0 else Direct(l, k, kn, c, n - 1) + DirectAt(l, k, kn, c, n - 1)
  }

  function Convolved(l: Line, k: nat, kn: Kernel, c: int): real
    requires l.Valid() && kn.Valid()
  {
    Direct(l, k, kn, c, kn.size)
  }

  // ---- The ring ----

  // koff before column c is loaded.
  function KOff(c: nat, size: nat): (koff: nat)
    requires size > 0
    ensures 1 <= koff <= size && size - koff == c % size
  {
    size - c % size
  }

  // The slot for i holds the last column up to c that is i modulo the size.
  function LastColumn(c: int, i: nat, size: nat): (m: int)
    requires size > 0
    ensures c - size < m <= c
  {
    c - (c - i) % size
  }

  // cvals[i] times kvals[koff + i], at column c.
  function RingAt(l: Line, k: nat, kn: Kernel, c: nat, i: nat): real
    requires l.Valid() && kn.Valid() && i < kn.size
  {
    Weighted(l.Sample(k, LastColumn(c, i, kn.size)) as real, kn.kvals[KOff(c + 1, kn.size) + i])
  }

  function RingSum(l: Line, k: nat, kn: Kernel, c: nat, n: nat): real
    requires l.Valid() && kn.Valid() && n <= kn.size
  {
    if n == 0 then 0.0 else RingSum(l, k, kn, c, n - 1) + RingAt(l, k, kn, c, n - 1)
  }

  // koff counts down, from 1 on to the size again.
  lemma KOffNext(c: nat, size: nat)
    requires size > 0
    ensures KOff(c + 1, size) == if KOff(c, size) - 1 <= 0 then KOff(c, size) - 1 + size else KOff(c, size) - 1
    ensures (c + 1) % size == if c % size == size - 1 then 0 else c % size + 1
  {
    var q, r := c / size, c % size;
    assert c == q * size + r;
    if r == size - 1 {
      assert c + 1 == (q + 1) * size + 0;
      DivIs(c + 1, size, q + 1, 0);
    } else {
      DivIs(c + 1, size, q, r + 1);
    }
  }

  lemma KOffStart(kn: Kernel)
    requires kn.Valid()
    ensures kn.size > 0 && KOff(0, kn.size) == kn.size
  {
  }

  // Only one slot changes when column c is loaded.
  lemma LastColumnStep(c: nat, i: nat, size: nat)
    requires i < size
    ensures LastColumn(c, i, size) == if i == c % size then c else LastColumn(c - 1, i, size)
    ensures LastColumn(c, i, size) == if i <= c % size then c - (c % size - i) else c - (c % size + size - i)
  {
    var q, r := c / size, c % size;
    assert c == q * size + r;
    DivIs(c - i, size, if i <= r then q else q - 1, if i <= r then r - i else r - i + size);
    DivIs(c - 1 - i, size, if i < r then q else q - 1, if i < r then r - 1 - i else r - 1 - i + size);
  }

  // ---- Sums in another order ----

  function Sum(f: int -> real, lo: int, hi: int): real
    decreases hi - lo
  {
    if lo >= hi then 0.0 else Sum(f, lo, hi - 1) + f(hi - 1)
  }

  lemma {:induction false} SumFront(f: int -> real, lo: int, hi: int)
    requires lo < hi
    ensures Sum(f, lo, hi) == f(lo) + Sum(f, lo + 1, hi)
    decreases hi - lo
  {
    if lo + 1 < hi {
      SumFront(f, lo, hi - 1);
    }
  }

  lemma {:induction false} SumReversed(f: int -> real, g: int -> real, a: int, lo: int, hi: int)
    requires lo <= hi && forall i :: lo <= i < hi ==> f(i) == g(a - i)
    ensures Sum(f, lo, hi) == Sum(g, a - hi + 1, a - lo + 1)
    decreases hi - lo
  {
    if lo < hi {
      SumReversed(f, g, a, lo, hi - 1);
      SumFront(g, a - hi + 1, a - lo + 1);
    }
  }

  lemma {:induction false} SumSplit(f: int -> real, lo: int, mid: int, hi: int)
    requires lo <= mid <= hi
    ensures Sum(f, lo, hi) == Sum(f, lo, mid) + Sum(f, mid, hi)
    decreases hi - mid
  {
    if mid < hi {
      SumSplit(f, lo, mid, hi - 1);
    }
  }

  // ---- The ring computes the convolution ----

  function RingTerm(l: Line, k: nat, kn: Kernel, c: nat): int -> real
    requires l.Valid() && kn.Valid()
  {
    i => if 0 <= i < kn.size then RingAt(l, k, kn, c, i) else 0.0
  }

  function DirectTerm(l: Line, k: nat, kn: Kernel, c: int): int -> real
    requires l.Valid() && kn.Valid()
  {
    d => if 0 <= d < kn.size then DirectAt(l, k, kn, c, d) else 0.0
  }

  lemma {:induction false} RingSumIsSum(l: Line, k: nat, kn: Kernel, c: nat, n: nat)
    requires l.Valid() && kn.Valid() && n <= kn.size
    ensures RingSum(l, k, kn, c, n) == Sum(RingTerm(l, k, kn, c), 0, n)
  {
    hide RingAt, Line.Valid, Kernel.Valid;
    if n > 0 {
      RingSumIsSum(l, k, kn, c, n - 1);
    }
  }

  lemma {:induction false} DirectIsSum(l: Line, k: nat, kn: Kernel, c: int, n: nat)
    requires l.Valid() && kn.Valid() && n <= kn.size
    ensures Direct(l, k, kn, c, n) == Sum(DirectTerm(l, k, kn, c), 0, n)
  {
    hide DirectAt, Line.Valid, Kernel.Valid;
    if n > 0 {
      DirectIsSum(l, k, kn, c, n - 1);
    }
  }

  // Slot i meets the weight of the sample it holds: the table is periodic and koff turns
  // against the ring.
  lemma TermsAgree(l: Line, k: nat, kn: Kernel, c: nat, i: nat)
    requires l.Valid() && kn.Valid() && i < kn.size
    ensures var r := c % kn.size;
            RingAt(l, k, kn, c, i) == DirectAt(l, k, kn, c, if i <= r then r - i else r + kn.size - i)
  {
    var r, n := c % kn.size, kn.size;
    var d := if i <= r then r - i else r + n - i;
    SlotAndWeight(c, i, n);
    hide LastColumn, KOff, Line.Sample, Line.Valid;
    var j := KOff(c + 1, n) + i;
    assert kn.kvals[j] == kn.kvals[n - 1 - d];
  }

  lemma SlotAndWeight(c: nat, i: nat, n: nat)
    requires i < n
    ensures var r := c % n;
            var d := if i <= r then r - i else r + n - i;
            && LastColumn(c, i, n) == c - d
            && (KOff(c + 1, n) + i == n - 1 - d || KOff(c + 1, n) + i == n - 1 - d + n)
  {
    LastColumnStep(c, i, n);
    KOffNext(c, n);
  }

  // At every column the accumulated sum is the convolution.
  lemma RingIsDirect(l: Line, k: nat, kn: Kernel, c: nat)
    requires l.Valid() && kn.Valid()
    ensures RingSum(l, k, kn, c, kn.size) == Convolved(l, k, kn, c)
  {
    hide RingAt, DirectAt, RingSum, Direct, Line.Valid, Sum;
    var r, n := c % kn.size, kn.size;
    var f, g := RingTerm(l, k, kn, c), DirectTerm(l, k, kn, c);
    RingSumIsSum(l, k, kn, c, n);
    DirectIsSum(l, k, kn, c, n);
    forall i | 0 <= i < n
      ensures f(i) == g(if i <= r then r - i else r + n - i)
    {
      TermsAgree(l, k, kn, c, i);
    }
    Rotated(f, g, r, n);
  }

  lemma Rotated(f: int -> real, g: int -> real, r: nat, n: nat)
    requires r < n && forall i :: 0 <= i < n ==> f(i) == g(if i <= r then r - i else r + n - i)
    ensures Sum(f, 0, n) == Sum(g, 0, n)
  {
    SumSplit(f, 0, r + 1, n);
    SumSplit(g, 0, r + 1, n);
    SumReversed(f, g, r, 0, r + 1);
    SumReversed(f, g, r + n, r + 1, n);
  }

  // ---- Output ----

  // cmin and cmax: below 1 is 0, above 255 - 1/32 is 255, in between the integer part.
  function ClampByte(f: real): channel {
    if f < 1.0 then 0 else if f > 255.0 - 1.0 / 32.0 then 255 else f.Floor
  }

  function ConvolvedPixel(l: Line, kn: Kernel, c: int): pixel
    requires l.Valid() && kn.Valid()
  {
    Pack(ClampByte(Convolved(l, A, kn, c)), ClampByte(Convolved(l, R, kn, c)),
         ClampByte(Convolved(l, G, kn, c)), ClampByte(Convolved(l, B, kn, c)))
  }

  // shadowRGBs[i]
  function ShadowColour(i: channel, c: Colour): pixel {
    Pack(Part(i, c.a), Part(i, c.r), Part(i, c.g), Part(i, c.b))
  }

  // Rounded half up and clamped to 0..255.
  function RoundClamp(f: real): channel {
    var n := (f + 0.5).Floor;
    if n < 0 then 0 else if n > 255 then 255 else n
  }

  // The three-way lookup by the sum that starts at -0.5.
  function Lookup(sum: real, table: seq<pixel>): pixel
    requires |table| == 256
  {
    if sum < 0.0 then 0
    else if sum >= 254.0 then table[255]
    else table[sum.Floor + 1]
  }

  // It is the colour of the convolved alpha, rounded half up and clamped.
  lemma LookupRounds(f: real, table: seq<pixel>, c: Colour)
    requires |table| == 256 && forall i :: 0 <= i < 256 ==> table[i] == ShadowColour(i, c)
    ensures Lookup(f - 0.5, table) == ShadowColour(RoundClamp(f), c)
  {
    var sum := f - 0.5;
    if sum < 0.0 {
      assert RoundClamp(f) == 0;
    } else if sum < 254.0 {
      assert (f + 0.5).Floor == sum.Floor + 1;
    } else {
      assert RoundClamp(f) == 255;
    }
  }

  lemma TermMonotone(l: Line, k: nat, k': nat, kn: Kernel, c: int, d: nat)
    requires l.Valid() && kn.Valid() && d < kn.size
    requires forall j :: 0 <= j < |kn.kvals| ==> kn.kvals[j] >= 0.0
    requires l.Sample(k, c - d) <= l.Sample(k', c - d)
    ensures DirectAt(l, k, kn, c, d) <= DirectAt(l, k', kn, c, d)
  {
    hide Line.Valid, Line.Sample;
    MoreWeighs(l.Sample(k, c - d), l.Sample(k', c - d), kn.kvals[kn.size - 1 - d]);
  }

  lemma MoreWeighs(a: int, b: int, weight: real)
    requires a <= b && weight >= 0.0
    ensures weight * a as real <= weight * b as real
  {
    assert weight * (b - a) as real >= 0.0;
  }

  lemma {:induction false} DirectMonotone(l: Line, k: nat, k': nat, kn: Kernel, c: int, n: nat)
    requires l.Valid() && kn.Valid() && n <= kn.size
    requires forall j :: 0 <= j < |kn.kvals| ==> kn.kvals[j] >= 0.0
    requires forall i: int :: l.Sample(k, i) <= l.Sample(k', i)
    ensures Direct(l, k, kn, c, n) <= Direct(l, k', kn, c, n)
  {
    hide Line.Valid, Line.Sample, DirectAt, Kernel.Valid;
    if n > 0 {
      DirectMonotone(l, k, k', kn, c, n - 1);
      TermMonotone(l, k, k', kn, c, n - 1);
    }
  }

  lemma ChannelBelow(l: Line, k: nat, kn: Kernel, c: int)
    requires l.Valid() && kn.Valid() && k < 3 && forall j :: 0 <= j < |kn.kvals| ==> kn.kvals[j] >= 0.0
    requires forall i :: 0 <= i < |l.px| ==> Premultiplied(l.px[i])
    ensures ClampByte(Convolved(l, k, kn, c)) <= ClampByte(Convolved(l, A, kn, c))
  {
    hide Line.Valid, Direct, Line.Sample, Kernel.Valid, Premultiplied;
    PremultipliedSamples(l, k);
    DirectMonotone(l, k, A, kn, c, kn.size);
  }

  // Weights that are not negative keep premultiplied pixels premultiplied.
  lemma ConvolvePremultiplied(l: Line, kn: Kernel, c: int)
    requires l.Valid() && kn.Valid() && forall j :: 0 <= j < |kn.kvals| ==> kn.kvals[j] >= 0.0
    requires forall i :: 0 <= i < |l.px| ==> Premultiplied(l.px[i])
    ensures Premultiplied(ConvolvedPixel(l, kn, c))
  {
    hide Line.Valid, Convolved, Line.Sample, Kernel.Valid, Chan, ClampByte;
    ChannelBelow(l, R, kn, c);
    ChannelBelow(l, G, kn, c);
    ChannelBelow(l, B, kn, c);
    PackChan(ClampByte(Convolved(l, A, kn, c)), ClampByte(Convolved(l, R, kn, c)),
             ClampByte(Convolved(l, G, kn, c)), ClampByte(Convolved(l, B, kn, c)));
  }

  // Each channel of the result is the convolution of that channel: 0 below 1, 255 above
  // 255 - 1/32, and its integer part between.
  lemma ConvolvedChannels(l: Line, kn: Kernel, c: int, k: nat)
    requires l.Valid() && kn.Valid() && k < 4
    ensures var v, f := Chan(ConvolvedPixel(l, kn, c), k), Convolved(l, k, kn, c);
            if f < 1.0 then v == 0 else if f > 254.96875 then v == 255 else v as real <= f < v as real + 1.0
  {
    hide Convolved, Chan, Pack;
    PackChan(ClampByte(Convolved(l, A, kn, c)), ClampByte(Convolved(l, R, kn, c)),
             ClampByte(Convolved(l, G, kn, c)), ClampByte(Convolved(l, B, kn, c)));
  }

  // One weight of 1 changes nothing.
  lemma Identity(l: Line, kn: Kernel, c: int)
    requires l.Valid() && kn.Valid() && kn.size == 1 && kn.kvals[0] == 1.0
    ensures ConvolvedPixel(l, kn, c) == PixelAt(l, c)
  {
    var p := PixelAt(l, c);
    SampleOnly(l, A, kn, c);
    SampleOnly(l, R, kn, c);
    SampleOnly(l, G, kn, c);
    SampleOnly(l, B, kn, c);
    hide Convolved, Chan, Pack;
    WholeByte(Chan(p, A));
    WholeByte(Chan(p, R));
    WholeByte(Chan(p, G));
    WholeByte(Chan(p, B));
    ChanPack(p);
  }

  lemma SampleOnly(l: Line, k: nat, kn: Kernel, c: int)
    requires l.Valid() && kn.Valid() && kn.size == 1 && kn.kvals[0] == 1.0 && k < 4
    ensures Convolved(l, k, kn, c) == Chan(PixelAt(l, c), k) as real
  {
    hide Chan, PixelAt, Line.Sample, Line.Valid;
    SampleIsChan(l, k, c);
    assert Direct(l, k, kn, c, 0) == 0.0;
    assert DirectAt(l, k, kn, c, 0) == Weighted(l.Sample(k, c) as real, 1.0) by {
      assert c - 0 == c;
    }
    assert Direct(l, k, kn, c, 1) == Direct(l, k, kn, c, 0) + DirectAt(l, k, kn, c, 0);
  }

  lemma WholeByte(v: channel)
    ensures ClampByte(v as real) == v
  {
  }

  // A single sample spreads the weights, the last one first, over the columns behind it.
  lemma Impulse(l: Line, k: nat, kn: Kernel, c: int, m: int)
    requires l.Valid() && kn.Valid() && forall i: int :: i != m ==> l.Sample(k, i) == 0
    ensures Convolved(l, k, kn, c) ==
            if m <= c < m + kn.size then l.Sample(k, m) as real * kn.kvals[kn.size - 1 - (c - m)] else 0.0
  {
    ImpulseUpTo(l, k, kn, c, m, kn.size);
  }

  lemma {:induction false} ImpulseUpTo(l: Line, k: nat, kn: Kernel, c: int, m: int, n: nat)
    requires l.Valid() && kn.Valid() && n <= kn.size && forall i: int :: i != m ==> l.Sample(k, i) == 0
    ensures Direct(l, k, kn, c, n) ==
            if m <= c < m + n then l.Sample(k, m) as real * kn.kvals[kn.size - 1 - (c - m)] else 0.0
  {
    hide Line.Sample, Line.Valid;
    if n > 0 {
      ImpulseUpTo(l, k, kn, c, m, n - 1);
    }
  }

  // Each channel of a shadow's colour is the part of its own component.
  lemma ShadowParts(i: channel, c: Colour)
    ensures var p := ShadowColour(i, c);
            && Chan(p, A) as real <= i as real * c.a < Chan(p, A) as real + 1.0
            && Chan(p, R) as real <= i as real * c.r < Chan(p, R) as real + 1.0
            && Chan(p, G) as real <= i as real * c.g < Chan(p, G) as real + 1.0
            && Chan(p, B) as real <= i as real * c.b < Chan(p, B) as real + 1.0
  {
    hide Chan, Pack;
    PackChan(Part(i, c.a), Part(i, c.r), Part(i, c.g), Part(i, c.b));
  }

  // The alpha is rounded to the nearest byte.
  lemma Nearest(f: real)
    ensures if f < 0.0 then RoundClamp(f) == 0
            else if f >= 255.0 then RoundClamp(f) == 255
            else RoundClamp(f) as real - 0.5 <= f < RoundClamp(f) as real + 0.5
  {
  }

  // ---- Lines of pixels along either axis ----

  // Where column c of line r is.
  function Offset(r: nat, c: nat, colinc: nat, rowinc: nat): nat {
    r * rowinc + c * colinc
  }

  lemma OffsetNext(r: nat, c: nat, colinc: nat, rowinc: nat)
    ensures Offset(r, c + 1, colinc, rowinc) == Offset(r, c, colinc, rowinc) + colinc
    ensures Offset(r + 1, 0, colinc, rowinc) == Offset(r, 0, colinc, rowinc) + rowinc
    ensures Offset(0, 0, colinc, rowinc) == 0
  {
  }

  // A pass walks rows (colinc is 1) or columns (rowinc is 1).
  datatype Axis = Rows | Columns {
    predicate Ok(n: nat, cols: nat, rows: nat, colinc: nat, rowinc: nat) {
      if Rows? then colinc == 1 && Fits(n, cols, rows, rowinc) else rowinc == 1 && Fits(n, rows, cols, colinc)
    }

    function Scan(colinc: nat, rowinc: nat): nat {
      if Rows? then rowinc else colinc
    }

    function Place(r: nat, c: nat, scan: nat): nat {
      if Rows? then At(r, c, scan) else At(c, r, scan)
    }

    function Value(img: Image, r: nat, c: nat): pixel {
      if Rows? then img(r, c) else img(c, r)
    }

    lemma PlaceInside(len: nat, cols: nat, rows: nat, colinc: nat, rowinc: nat, r: nat, c: nat)
      requires Ok(len, cols, rows, colinc, rowinc) && r < rows && c < cols
      ensures Place(r, c, Scan(colinc, rowinc)) == Offset(r, c, colinc, rowinc) < len
    {
      if Rows? {
        AtInside(len, cols, rows, rowinc, r, c);
      } else {
        AtInside(len, rows, cols, colinc, c, r);
      }
    }
  }

  // The shape of what a pass draws.
  datatype Target = Target(axis: Axis, cols: nat, rows: nat, colinc: nat, rowinc: nat) {
    predicate Ok(len: nat) {
      axis.Ok(len, cols, rows, colinc, rowinc)
    }

    function Scan(): nat {
      axis.Scan(colinc, rowinc)
    }

    // The first n pixels of line r have been set, and nothing else.
    ghost predicate LineWritten(before: seq<pixel>, after: seq<pixel>, r: nat, n: nat, img: Image) {
      if axis.Rows? then RowWritten(before, after, r, n, Scan(), img)
      else ColumnWritten(before, after, r, n, Scan(), img)
    }

    // The first n lines show the image.
    ghost predicate Shown(px: seq<pixel>, n: nat, img: Image) {
      if axis.Rows? then Shows(px, cols, n, Scan(), img) else Shows(px, n, cols, Scan(), img)
    }

    ghost predicate Kept(before: seq<pixel>, after: seq<pixel>) {
      if axis.Rows? then PaddingKept(before, after, cols, rows, Scan())
      else PaddingKept(before, after, rows, cols, Scan())
    }

    lemma LineStart(px: seq<pixel>, r: nat, img: Image)
      requires Ok(|px|) && r < rows && cols > 0
      ensures LineWritten(px, px, r, 0, img)
    {
    }

    lemma LineNext(before: seq<pixel>, after: seq<pixel>, r: nat, n: nat, img: Image)
      requires Ok(|after|) && r < rows && n < cols && LineWritten(before, after, r, n, img)
      ensures Offset(r, n, colinc, rowinc) < |after|
      ensures LineWritten(before, after[Offset(r, n, colinc, rowinc) := axis.Value(img, r, n)], r, n + 1, img)
    {
      axis.PlaceInside(|after|, cols, rows, colinc, rowinc, r, n);
      if axis.Rows? {
        RowNext(before, after, r, n, rowinc, img);
      } else {
        ColumnNext(before, after, r, n, colinc, img);
      }
    }

    // A line more, or a line of no pixels.
    lemma LinesNext(start: seq<pixel>, before: seq<pixel>, after: seq<pixel>, r: nat, img: Image)
      requires Ok(|after|) && r < rows && Shown(before, r, img) && Kept(start, before)
      requires if cols > 0 then LineWritten(before, after, r, cols, img) else after == before
      ensures Shown(after, r + 1, img) && Kept(start, after)
    {
      if cols == 0 {
      } else if axis.Rows? {
        RowsNext(before, after, cols, rows, r, rowinc, img);
      } else {
        ColumnsNext(before, after, rows, cols, r, colinc, img);
      }
      hide InImage, Shows, LineWritten;
    }

    lemma Nothing(px: seq<pixel>, img: Image)
      ensures Shown(px, 0, img) && Kept(px, px)
    {
    }
  }

  // Line r of a source.
  function SourceLine(px: seq<pixel>, r: nat, s: Target): Line {
    Line(px, r * s.rowinc, s.colinc, s.cols)
  }

  lemma SourceLineValid(s: Target, px: seq<pixel>, r: nat)
    requires s.Ok(|px|) && r < s.rows
    ensures SourceLine(px, r, s).Valid()
  {
    if s.cols > 0 {
      s.axis.PlaceInside(|px|, s.cols, s.rows, s.colinc, s.rowinc, r, s.cols - 1);
    }
  }

  // What the pixel of a column of a line is: the four convolved channels, or a shadow's colour.
  datatype Output = Channels | Shadow(c: Colour) {
    function Of(l: Line, kn: Kernel, c: int): pixel
      requires l.Valid() && kn.Valid()
    {
      if Channels? then ConvolvedPixel(l, kn, c) else ShadowColour(RoundClamp(Convolved(l, A, kn, c)), this.c)
    }
  }

  // The image a pass draws.
  function Drawn(out: Output, s: Target, px: seq<pixel>, kn: Kernel): Image {
    (y: int, x: int) => if s.axis.Rows? then DrawnPixel(out, s, px, kn, y, x) else DrawnPixel(out, s, px, kn, x, y)
  }

  function DrawnPixel(out: Output, s: Target, px: seq<pixel>, kn: Kernel, r: int, c: int): pixel {
    if 0 <= r < s.rows && SourceLine(px, r, s).Valid() && kn.Valid() then out.Of(SourceLine(px, r, s), kn, c) else 0
  }

  lemma DrawnAt(out: Output, s: Target, px: seq<pixel>, kn: Kernel, r: nat, c: nat)
    requires r < s.rows && SourceLine(px, r, s).Valid() && kn.Valid()
    ensures s.axis.Value(Drawn(out, s, px, kn), r, c) == out.Of(SourceLine(px, r, s), kn, c)
  {
    hide Output.Of, Line.Valid, Kernel.Valid, SourceLine;
  }

  // With one weight of 1 a pass copies the image.
  lemma IdentityImage(s: Target, px: seq<pixel>, kn: Kernel, r: nat, c: nat)
    requires kn.Valid() && kn.size == 1 && kn.kvals[0] == 1.0 && s.Ok(|px|) && r < s.rows && c < s.cols
    ensures Offset(r, c, s.colinc, s.rowinc) < |px|
    ensures var img := Drawn(Channels, s, px, kn);
            (if s.axis.Rows? then img(r, c) else img(c, r)) == px[Offset(r, c, s.colinc, s.rowinc)]
  {
    hide ConvolvedPixel, Axis.Ok;
    SourceLineValid(s, px, r);
    SourceReads(px, r, s, c);
    Identity(SourceLine(px, r, s), kn, c);
  }

  // The source pixel of column c, and the next offset.
  lemma SourceReads(px: seq<pixel>, r: nat, s: Target, c: nat)
    requires SourceLine(px, r, s).Valid()
    ensures c < s.cols ==> Offset(r, c, s.colinc, s.rowinc) < |px|
    ensures PixelAt(SourceLine(px, r, s), c) == if c < s.cols then px[Offset(r, c, s.colinc, s.rowinc)] else 0
  {
    if c < s.cols {
      SourceLine(px, r, s).Inside(c);
    }
  }

  // ---- The loops ----

  // After n columns, slot i of the ring holds the four components of the last one that falls
  // in it.
  ghost predicate Holds(cvals: seq<real>, l: Line, n: nat, size: nat)
    requires l.Valid()
  {
    |cvals| >= 4 * size && forall i :: 0 <= i < size ==> SlotHolds(cvals, l, n, size, i)
  }

  ghost predicate SlotHolds(cvals: seq<real>, l: Line, n: nat, size: nat, i: nat)
    requires l.Valid() && i < size && |cvals| >= 4 * size
  {
    var m := LastColumn(n - 1, i, size);
    && cvals[4 * i + 0] == l.Sample(A, m) as real && cvals[4 * i + 1] == l.Sample(R, m) as real
    && cvals[4 * i + 2] == l.Sample(G, m) as real && cvals[4 * i + 3] == l.Sample(B, m) as real
  }

  lemma SampleIsChan(l: Line, k: nat, c: int)
    requires l.Valid() && k <= 3
    ensures l.Sample(k, c) == Chan(PixelAt(l, c), k)
  {
  }

  // A cleared ring is that of the columns before the line.
  lemma HoldsCleared(cvals: seq<real>, l: Line, size: nat)
    requires l.Valid() && size > 0 && |cvals| >= 4 * size && forall j :: 0 <= j < 4 * size ==> cvals[j] == 0.0
    ensures Holds(cvals, l, 0, size)
  {
    forall i | 0 <= i < size
      ensures SlotHolds(cvals, l, 0, size, i)
    {
      assert LastColumn(-1, i, size) < 0;
      hide LastColumn;
    }
  }

  method Clear(cvals: array<real>, size: nat, ghost l: Line)
    requires l.Valid() && size > 0 && cvals.Length >= 4 * size
    modifies cvals
    ensures Holds(cvals[..], l, 0, size)
  {
    for i := 0 to size * 4
      invariant forall j :: 0 <= j < i ==> cvals[j] == 0.0
    {
      cvals[i] := 0.0;
    }
    HoldsCleared(cvals[..], l, size);
  }

  // Writing column c into its slot.
  method Load(cvals: array<real>, koff: nat, rgb: pixel, size: nat, ghost l: Line, ghost c: nat)
    requires l.Valid() && 0 < size && 4 * size <= cvals.Length && koff == KOff(c, size)
    requires Holds(cvals[..], l, c, size) && rgb == PixelAt(l, c)
    modifies cvals
    ensures Holds(cvals[..], l, c + 1, size)
  {
    hide Holds, Line.Sample, Line.Valid, PixelAt, Chan;
    var i := (size - koff) * 4;
    ghost var before := cvals[..];
    cvals[i + 0] := Chan(rgb, A) as real;
    cvals[i + 1] := Chan(rgb, R) as real;
    cvals[i + 2] := Chan(rgb, G) as real;
    cvals[i + 3] := Chan(rgb, B) as real;
    HoldsLoaded(before, cvals[..], size - koff, rgb, size, l, c);
  }

  // Slot k is that of column c.
  lemma HoldsLoaded(before: seq<real>, after: seq<real>, k: nat, rgb: pixel, size: nat, l: Line, c: nat)
    requires l.Valid() && k < size && 4 * size <= |before| == |after| && k == size - KOff(c, size)
    requires Holds(before, l, c, size) && rgb == PixelAt(l, c)
    requires after[4 * k + 0] == Chan(rgb, A) as real && after[4 * k + 1] == Chan(rgb, R) as real
    requires after[4 * k + 2] == Chan(rgb, G) as real && after[4 * k + 3] == Chan(rgb, B) as real
    requires forall j :: 0 <= j < |before| && !(4 * k <= j < 4 * k + 4) ==> after[j] == before[j]
    ensures Holds(after, l, c + 1, size)
  {
    hide SlotHolds, PixelAt, Chan, Line.Valid;
    var n := c + 1;
    forall s | 0 <= s < size
      ensures SlotHolds(after, l, n, size, s)
    {
      assert SlotHolds(before, l, c, size, s);
      SlotLoaded(before, after, k, rgb, size, l, c, s);
    }
  }

  lemma SlotLoaded(before: seq<real>, after: seq<real>, k: nat, rgb: pixel, size: nat, l: Line, c: nat, s: nat)
    requires l.Valid() && k < size && s < size && 4 * size <= |before| == |after| && k == size - KOff(c, size)
    requires SlotHolds(before, l, c, size, s) && rgb == PixelAt(l, c)
    requires after[4 * k + 0] == Chan(rgb, A) as real && after[4 * k + 1] == Chan(rgb, R) as real
    requires after[4 * k + 2] == Chan(rgb, G) as real && after[4 * k + 3] == Chan(rgb, B) as real
    requires forall j :: 0 <= j < |before| && !(4 * k <= j < 4 * k + 4) ==> after[j] == before[j]
    ensures SlotHolds(after, l, c + 1, size, s)
  {
    hide LastColumn, Line.Sample, PixelAt, Chan, Line.Valid;
    LastColumnStep(c, s, size);
    SampleIsChan(l, A, c);
    SampleIsChan(l, R, c);
    SampleIsChan(l, G, c);
    SampleIsChan(l, B, c);
  }

  // What the loop adds for the slot at i.
  lemma SlotTerms(cvals: seq<real>, l: Line, kn: Kernel, c: nat, i: nat, koff: nat)
    requires l.Valid() && kn.Valid() && i < kn.size * 4 && i % 4 == 0 && |cvals| >= 4 * kn.size
    requires Holds(cvals, l, c + 1, kn.size) && koff == KOff(c + 1, kn.size)
    ensures koff + i / 4 < |kn.kvals|
    ensures var factor := kn.kvals[koff + i / 4];
            && Weighted(cvals[i + 0], factor) == RingAt(l, A, kn, c, i / 4)
            && Weighted(cvals[i + 1], factor) == RingAt(l, R, kn, c, i / 4)
            && Weighted(cvals[i + 2], factor) == RingAt(l, G, kn, c, i / 4)
            && Weighted(cvals[i + 3], factor) == RingAt(l, B, kn, c, i / 4)
  {
    assert SlotHolds(cvals, l, c + 1, kn.size, i / 4);
    hide LastColumn, Line.Sample, Line.Valid, Weighted;
  }

  // The four sums after n slots.
  ghost predicate Sums(l: Line, kn: Kernel, c: nat, n: nat, suma: real, sumr: real, sumg: real, sumb: real)
    requires l.Valid() && kn.Valid() && n <= kn.size
  {
    && suma == RingSum(l, A, kn, c, n) && sumr == RingSum(l, R, kn, c, n)
    && sumg == RingSum(l, G, kn, c, n) && sumb == RingSum(l, B, kn, c, n)
  }

  lemma SumsStart(l: Line, kn: Kernel, c: nat)
    requires l.Valid() && kn.Valid()
    ensures Sums(l, kn, c, 0, 0.0, 0.0, 0.0, 0.0)
  {
    hide Line.Valid, Kernel.Valid;
  }

  lemma SumsNext(l: Line, kn: Kernel, c: nat, n: nat, suma: real, sumr: real, sumg: real, sumb: real)
    requires l.Valid() && kn.Valid() && n < kn.size && Sums(l, kn, c, n, suma, sumr, sumg, sumb)
    ensures Sums(l, kn, c, n + 1, suma + RingAt(l, A, kn, c, n), sumr + RingAt(l, R, kn, c, n),
                 sumg + RingAt(l, G, kn, c, n), sumb + RingAt(l, B, kn, c, n))
  {
    hide RingAt;
  }

  lemma SumsDone(l: Line, kn: Kernel, c: nat, suma: real, sumr: real, sumg: real, sumb: real)
    requires l.Valid() && kn.Valid() && Sums(l, kn, c, kn.size, suma, sumr, sumg, sumb)
    ensures suma == Convolved(l, A, kn, c) && sumr == Convolved(l, R, kn, c)
    ensures sumg == Convolved(l, G, kn, c) && sumb == Convolved(l, B, kn, c)
  {
    hide RingSum, Convolved;
    RingIsDirect(l, A, kn, c);
    RingIsDirect(l, R, kn, c);
    RingIsDirect(l, G, kn, c);
    RingIsDirect(l, B, kn, c);
  }

  // The inner loop.
  method Accumulate(cvals: array<real>, koff: nat, kn: Kernel, ghost l: Line, ghost c: nat)
    returns (suma: real, sumr: real, sumg: real, sumb: real)
    requires l.Valid() && kn.Valid() && 4 * kn.size <= cvals.Length
    requires Holds(cvals[..], l, c + 1, kn.size) && koff == KOff(c + 1, kn.size)
    ensures suma == Convolved(l, A, kn, c) && sumr == Convolved(l, R, kn, c)
    ensures sumg == Convolved(l, G, kn, c) && sumb == Convolved(l, B, kn, c)
  {
    hide *;
    suma, sumr, sumg, sumb := 0.0, 0.0, 0.0, 0.0;
    var i := 0;
    SumsStart(l, kn, c);
    while i < kn.size * 4
      invariant i % 4 == 0 && i <= kn.size * 4
      invariant Sums(l, kn, c, i / 4, suma, sumr, sumg, sumb)
    {
      SlotTerms(cvals[..], l, kn, c, i, koff);
      SumsNext(l, kn, c, i / 4, suma, sumr, sumg, sumb);
      var factor := kn.kvals[koff + i / 4];
      suma := suma + Weighted(cvals[i + 0], factor);
      sumr := sumr + Weighted(cvals[i + 1], factor);
      sumg := sumg + Weighted(cvals[i + 2], factor);
      sumb := sumb + Weighted(cvals[i + 3], factor);
      i := i + 4;
    }
    SumsDone(l, kn, c, suma, sumr, sumg, sumb);
  }

  // One column: its pixel is loaded, koff is bumped, and the clamped sums are written.
  method ConvolveColumn(dst: array<pixel>, dstoff: nat, cvals: array<real>, koff: nat, rgb: pixel, kn: Kernel,
                        ghost l: Line, ghost c: nat, ghost d: Target, ghost start: seq<pixel>, ghost r: nat,
                        ghost img: Image)
    returns (next: nat)
    requires l.Valid() && kn.Valid() && 4 * kn.size <= cvals.Length && koff == KOff(c, kn.size)
    requires Holds(cvals[..], l, c, kn.size) && rgb == PixelAt(l, c)
    requires d.Ok(dst.Length) && r < d.rows && c < d.cols && dstoff == Offset(r, c, d.colinc, d.rowinc)
    requires d.LineWritten(start, dst[..], r, c, img) && d.axis.Value(img, r, c) == Channels.Of(l, kn, c)
    modifies cvals, dst
    ensures Holds(cvals[..], l, c + 1, kn.size) && next == KOff(c + 1, kn.size)
    ensures d.LineWritten(start, dst[..], r, c + 1, img)
  {
    hide Holds, SlotHolds, Convolved, ClampByte, Pack, KOff, PixelAt, Offset, Target.LineWritten, Target.Ok;
    Load(cvals, koff, rgb, kn.size, l, c);
    d.LineNext(start, dst[..], r, c, img);
    KOffNext(c, kn.size);
    next := koff - 1;
    if next <= 0 {
      next := next + kn.size;
    }
    var suma, sumr, sumg, sumb := Accumulate(cvals, next, kn, l, c);
    ghost var before := dst[..];
    dst[dstoff] := Pack(ClampByte(suma), ClampByte(sumr), ClampByte(sumg), ClampByte(sumb));
    assert dst[..] == before[dstoff := Channels.Of(l, kn, c)];
  }

  // One line: dstoff and srcoff walk by the column increments, koff turns through K..1.
  method ConvolveLine(dst: array<pixel>, dstrow: nat, dstcols: nat, dcolinc: nat,
                      src: array<pixel>, srcrow: nat, srccols: nat, scolinc: nat, kn: Kernel, cvals: array<real>,
                      ghost d: Target, ghost s: Target, ghost r: nat)
    requires dst != src && kn.Valid() && 4 * kn.size <= cvals.Length
    requires r < d.rows && d.Ok(dst.Length) && dstrow == Offset(r, 0, dcolinc, d.rowinc)
    requires dstcols == d.cols > 0 && dcolinc == d.colinc && srccols == s.cols && scolinc == s.colinc
    requires r < s.rows && s.Ok(src.Length) && s.axis == d.axis && srcrow == Offset(r, 0, scolinc, s.rowinc)
    modifies dst, cvals
    ensures d.LineWritten(old(dst[..]), dst[..], r, dstcols, Drawn(Channels, s, src[..], kn))
  {
    hide *;
    var dstoff, srcoff := dstrow, srcrow;
    KOffStart(kn);
    SourceLineValid(s, src[..], r);
    Clear(cvals, kn.size, SourceLine(src[..], r, s));
    var koff := kn.size;
    ghost var px, l := src[..], SourceLine(src[..], r, s);
    ghost var start, img := dst[..], Drawn(Channels, s, px, kn);
    d.LineStart(start, r, img);
    var c := 0;
    while c < dstcols
      invariant c <= dstcols && src[..] == px && Holds(cvals[..], l, c, kn.size) && koff == KOff(c, kn.size)
      invariant dstoff == Offset(r, c, dcolinc, d.rowinc) && srcoff == Offset(r, c, scolinc, s.rowinc)
      invariant d.LineWritten(start, dst[..], r, c, img)
    {
      SourceReads(px, r, s, c);
      OffsetNext(r, c, dcolinc, d.rowinc);
      OffsetNext(r, c, scolinc, s.rowinc);
      DrawnAt(Channels, s, px, kn, r, c);
      var rgb: pixel := if c < srccols then src[srcoff] else 0;
      koff := ConvolveColumn(dst, dstoff, cvals, koff, rgb, kn, l, c, d, start, r, img);
      c, dstoff, srcoff := c + 1, dstoff + dcolinc, srcoff + scolinc;
    }
  }

  // filterHV, for the four channels. The caller's table is the K weights twice over.
  method FilterHV(dst: array<pixel>, dstcols: nat, dstrows: nat, dcolinc: nat, drowinc: nat,
                  src: array<pixel>, srccols: nat, srcrows: nat, scolinc: nat, srowinc: nat, kn: Kernel,
                  ghost axis: Axis)
    requires dst != src && kn.Valid() && dstrows <= srcrows
    requires axis.Ok(dst.Length, dstcols, dstrows, dcolinc, drowinc)
    requires axis.Ok(src.Length, srccols, srcrows, scolinc, srowinc)
    modifies dst
    ensures kn.size > 128 ==> dst[..] == old(dst[..])
    ensures kn.size <= 128 ==>
              var d := Target(axis, dstcols, dstrows, dcolinc, drowinc);
              var s := Target(axis, srccols, srcrows, scolinc, srowinc);
              d.Shown(dst[..], dstrows, Drawn(Channels, s, src[..], kn)) && d.Kept(old(dst[..]), dst[..])
  {
    hide Offset, Target.Shown, Target.Kept, Target.LineWritten, Axis.Ok, Drawn, Kernel.Valid;
    if kn.size > 128 {
      return;
    }
    var cvals := new real[128 * 4];
    var dstrow, srcrow := 0, 0;
    ghost var d := Target(axis, dstcols, dstrows, dcolinc, drowinc);
    ghost var s := Target(axis, srccols, srcrows, scolinc, srowinc);
    ghost var start, px, img := dst[..], src[..], Drawn(Channels, s, src[..], kn);
    d.Nothing(start, img);
    OffsetNext(0, 0, dcolinc, drowinc);
    OffsetNext(0, 0, scolinc, srowinc);
    var r := 0;
    while r < dstrows
      invariant r <= dstrows && src[..] == px
      invariant dstrow == Offset(r, 0, dcolinc, drowinc) && srcrow == Offset(r, 0, scolinc, srowinc)
      invariant d.Shown(dst[..], r, img) && d.Kept(start, dst[..])
    {
      OffsetNext(r, 0, dcolinc, drowinc);
      OffsetNext(r, 0, scolinc, srowinc);
      ghost var before := dst[..];
      if dstcols > 0 {
        ConvolveLine(dst, dstrow, dstcols, dcolinc, src, srcrow, srccols, scolinc, kn, cvals, d, s, r);
      }
      d.LinesNext(start, before, dst[..], r, img);
      r, dstrow, srcrow := r + 1, dstrow + drowinc, srcrow + srowinc;
    }
  }

  // ---- The shadow variant: a ring of alphas and a table of colours ----

  ghost predicate HoldsAlpha(avals: seq<real>, l: Line, n: nat, size: nat)
    requires l.Valid()
  {
    |avals| >= size && forall i :: 0 <= i < size ==> avals[i] == AlphaIn(l, n, size, i)
  }

  // The alpha that slot i holds after n columns.
  function AlphaIn(l: Line, n: nat, size: nat, i: nat): real
    requires l.Valid() && i < size
  {
    l.Sample(A, LastColumn(n - 1, i, size)) as real
  }

  lemma AlphaInNext(l: Line, c: nat, size: nat, i: nat)
    requires l.Valid() && i < size
    ensures AlphaIn(l, c + 1, size, i) ==
            if i == size - KOff(c, size) then Chan(PixelAt(l, c), A) as real else AlphaIn(l, c, size, i)
    ensures AlphaIn(l, 0, size, i) == 0.0
  {
    hide LastColumn, PixelAt, Chan;
    LastColumnStep(c, i, size);
    SampleIsChan(l, A, c);
  }

  method ClearAlpha(avals: array<real>, size: nat, ghost l: Line)
    requires l.Valid() && size > 0 && avals.Length >= size
    modifies avals
    ensures HoldsAlpha(avals[..], l, 0, size)
  {
    hide AlphaIn, Line.Valid;
    for i := 0 to size
      invariant forall j :: 0 <= j < i ==> avals[j] == AlphaIn(l, 0, size, j)
    {
      AlphaInNext(l, 0, size, i);
      avals[i] := 0.0;
    }
  }

  method LoadAlpha(avals: array<real>, koff: nat, rgb: pixel, size: nat, ghost l: Line, ghost c: nat)
    requires l.Valid() && size > 0 && size <= avals.Length && koff == KOff(c, size)
    requires HoldsAlpha(avals[..], l, c, size) && rgb == PixelAt(l, c)
    modifies avals
    ensures HoldsAlpha(avals[..], l, c + 1, size)
  {
    hide AlphaIn, Line.Valid, PixelAt, Chan;
    ghost var before := avals[..];
    avals[size - koff] := Chan(rgb, A) as real;
    forall i | 0 <= i < size
      ensures avals[i] == AlphaIn(l, c + 1, size, i)
    {
      AlphaInNext(l, c, size, i);
      assert before[i] == AlphaIn(l, c, size, i);
    }
  }

  lemma AlphaTerm(avals: seq<real>, l: Line, kn: Kernel, c: nat, i: nat, koff: nat)
    requires l.Valid() && kn.Valid() && i < kn.size <= |avals|
    requires HoldsAlpha(avals, l, c + 1, kn.size) && koff == KOff(c + 1, kn.size)
    ensures koff + i < |kn.kvals|
    ensures Weighted(avals[i], kn.kvals[koff + i]) == RingAt(l, A, kn, c, i)
  {
    hide LastColumn, Line.Sample, Line.Valid, Weighted;
  }

  // sum starts half a step low.
  method AccumulateAlpha(avals: array<real>, koff: nat, kn: Kernel, ghost l: Line, ghost c: nat) returns (sum: real)
    requires l.Valid() && kn.Valid() && kn.size <= avals.Length
    requires HoldsAlpha(avals[..], l, c + 1, kn.size) && koff == KOff(c + 1, kn.size)
    ensures sum == Convolved(l, A, kn, c) - 0.5
  {
    hide HoldsAlpha, Weighted, RingAt, Convolved, KOff, Line.Valid, Kernel.Valid;
    sum := -0.5;
    for i := 0 to kn.size
      invariant sum == RingSum(l, A, kn, c, i) - 0.5
    {
      AlphaTerm(avals[..], l, kn, c, i, koff);
      sum := sum + Weighted(avals[i], kn.kvals[koff + i]);
    }
    RingIsDirect(l, A, kn, c);
  }

  // shadowRGBs
  method ShadowTable(c: Colour) returns (shadowRGBs: array<pixel>)
    ensures fresh(shadowRGBs) && IsTable(shadowRGBs[..], c)
  {
    hide ShadowColour;
    shadowRGBs := new pixel[256];
    for i := 0 to 256
      invariant forall j :: 0 <= j < i ==> shadowRGBs[j] == ShadowColour(j, c)
    {
      shadowRGBs[i] := ShadowColour(i, c);
    }
  }

  predicate IsTable(table: seq<pixel>, c: Colour) {
    |table| == 256 && forall i :: 0 <= i < 256 ==> table[i] == ShadowColour(i, c)
  }

  method ShadowColumnStep(dst: array<pixel>, dstoff: nat, avals: array<real>, koff: nat, rgb: pixel, kn: Kernel,
                          shadowRGBs: array<pixel>, ghost colour: Colour, ghost l: Line, ghost c: nat, ghost d: Target,
                          ghost start: seq<pixel>, ghost r: nat, ghost img: Image)
    returns (next: nat)
    requires l.Valid() && kn.Valid() && kn.size <= avals.Length && koff == KOff(c, kn.size)
    requires HoldsAlpha(avals[..], l, c, kn.size) && rgb == PixelAt(l, c) && dst != shadowRGBs
    requires IsTable(shadowRGBs[..], colour)
    requires d.Ok(dst.Length) && r < d.rows && c < d.cols && dstoff == Offset(r, c, d.colinc, d.rowinc)
    requires d.LineWritten(start, dst[..], r, c, img) && d.axis.Value(img, r, c) == Shadow(colour).Of(l, kn, c)
    modifies avals, dst
    ensures HoldsAlpha(avals[..], l, c + 1, kn.size) && next == KOff(c + 1, kn.size)
    ensures d.LineWritten(start, dst[..], r, c + 1, img)
  {
    hide HoldsAlpha, Convolved, ShadowColour, RoundClamp, KOff, PixelAt, Offset, Target.LineWritten, Target.Ok;
    LoadAlpha(avals, koff, rgb, kn.size, l, c);
    d.LineNext(start, dst[..], r, c, img);
    KOffNext(c, kn.size);
    next := koff - 1;
    if next <= 0 {
      next := next + kn.size;
    }
    var sum := AccumulateAlpha(avals, next, kn, l, c);
    ghost var before := dst[..];
    LookupRounds(Convolved(l, A, kn, c), shadowRGBs[..], colour);
    dst[dstoff] := if sum < 0.0 then 0 else if sum >= 254.0 then shadowRGBs[255] else shadowRGBs[sum.Floor + 1];
    assert dst[..] == before[dstoff := Shadow(colour).Of(l, kn, c)];
  }

  method ShadowConvolveLine(dst: array<pixel>, dstrow: nat, dstcols: nat, dcolinc: nat,
                            src: array<pixel>, srcrow: nat, srccols: nat, scolinc: nat, kn: Kernel,
                            avals: array<real>, shadowRGBs: array<pixel>,
                            ghost colour: Colour, ghost d: Target, ghost s: Target, ghost r: nat)
    requires dst != src && dst != shadowRGBs && kn.Valid() && kn.size <= avals.Length
    requires IsTable(shadowRGBs[..], colour)
    requires r < d.rows && d.Ok(dst.Length) && dstrow == Offset(r, 0, dcolinc, d.rowinc)
    requires dstcols == d.cols > 0 && dcolinc == d.colinc && srccols == s.cols && scolinc == s.colinc
    requires r < s.rows && s.Ok(src.Length) && s.axis == d.axis && srcrow == Offset(r, 0, scolinc, s.rowinc)
    modifies dst, avals
    ensures d.LineWritten(old(dst[..]), dst[..], r, dstcols, Drawn(Shadow(colour), s, src[..], kn))
  {
    hide *;
    var dstoff, srcoff := dstrow, srcrow;
    KOffStart(kn);
    SourceLineValid(s, src[..], r);
    ClearAlpha(avals, kn.size, SourceLine(src[..], r, s));
    var koff := kn.size;
    ghost var px, l := src[..], SourceLine(src[..], r, s);
    ghost var start, img := dst[..], Drawn(Shadow(colour), s, px, kn);
    d.LineStart(start, r, img);
    var c := 0;
    while c < dstcols
      invariant c <= dstcols && src[..] == px && HoldsAlpha(avals[..], l, c, kn.size) && koff == KOff(c, kn.size)
      invariant dstoff == Offset(r, c, dcolinc, d.rowinc) && srcoff == Offset(r, c, scolinc, s.rowinc)
      invariant d.LineWritten(start, dst[..], r, c, img)
    {
      SourceReads(px, r, s, c);
      OffsetNext(r, c, dcolinc, d.rowinc);
      OffsetNext(r, c, scolinc, s.rowinc);
      DrawnAt(Shadow(colour), s, px, kn, r, c);
      var rgb: pixel := if c < srccols then src[srcoff] else 0;
      koff := ShadowColumnStep(dst, dstoff, avals, koff, rgb, kn, shadowRGBs, colour, l, c, d, start, r, img);
      c, dstoff, srcoff := c + 1, dstoff + dcolinc, srcoff + scolinc;
    }
  }

  // filterHV of the shadow peer.
  method ShadowFilterHV(dst: array<pixel>, dstcols: nat, dstrows: nat, dcolinc: nat, drowinc: nat,
                        src: array<pixel>, srccols: nat, srcrows: nat, scolinc: nat, srowinc: nat, kn: Kernel,
                        colour: Colour, ghost axis: Axis)
    requires dst != src && kn.Valid() && dstrows <= srcrows
    requires axis.Ok(dst.Length, dstcols, dstrows, dcolinc, drowinc)
    requires axis.Ok(src.Length, srccols, srcrows, scolinc, srowinc)
    modifies dst
    ensures kn.size > 128 ==> dst[..] == old(dst[..])
    ensures kn.size <= 128 ==>
              var d := Target(axis, dstcols, dstrows, dcolinc, drowinc);
              var s := Target(axis, srccols, srcrows, scolinc, srowinc);
              d.Shown(dst[..], dstrows, Drawn(Shadow(colour), s, src[..], kn)) && d.Kept(old(dst[..]), dst[..])
  {
    hide Offset, Target.Shown, Target.Kept, Target.LineWritten, Axis.Ok, Drawn, Kernel.Valid, IsTable;
    if kn.size > 128 {
      return;
    }
    var shadowRGBs := ShadowTable(colour);
    var avals := new real[128];
    var dstrow, srcrow := 0, 0;
    ghost var d := Target(axis, dstcols, dstrows, dcolinc, drowinc);
    ghost var s := Target(axis, srccols, srcrows, scolinc, srowinc);
    ghost var start, px, img := dst[..], src[..], Drawn(Shadow(colour), s, src[..], kn);
    d.Nothing(start, img);
    OffsetNext(0, 0, dcolinc, drowinc);
    OffsetNext(0, 0, scolinc, srowinc);
    var r := 0;
    while r < dstrows
      invariant r <= dstrows && src[..] == px && IsTable(shadowRGBs[..], colour)
      invariant dstrow == Offset(r, 0, dcolinc, drowinc) && srcrow == Offset(r, 0, scolinc, srowinc)
      invariant d.Shown(dst[..], r, img) && d.Kept(start, dst[..])
    {
      OffsetNext(r, 0, dcolinc, drowinc);
      OffsetNext(r, 0, scolinc, srowinc);
      ghost var before := dst[..];
      if dstcols > 0 {
        ShadowConvolveLine(dst, dstrow, dstcols, dcolinc, src, srcrow, srccols, scolinc, kn, avals, shadowRGBs,
                           colour, d, s, r);
      }
      d.LinesNext(start, before, dst[..], r, img);
      r, dstrow, srcrow := r + 1, dstrow + drowinc, srcrow + srowinc;
    }
  }
}
