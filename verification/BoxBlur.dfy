// SSEBoxBlurPeer.cc: box blur by running sums in 32-bit fixed point.

module BoxBlur {
  import opened Grids
  import opened Pixels

  // Window sizes for which hsize * 255 is an int.
  predicate SizeOk(h: int) {
    1 <= h && 255 * h <= INT_MAX
  }

  // kscale
  function Scale(h: nat): (k: nat)
    requires SizeOk(h)
    ensures k >= 1 && k * (255 * h) <= INT_MAX
  {
    INT_MAX / (h * 255)
  }

  // A sum in the fixed point of kscale, with 23 bits behind the point.
  function Scaled(sum: nat, h: nat): (c: channel)
    requires SizeOk(h) && sum <= 255 * h
  {
    NoOverflow(sum, h);
    sum * Scale(h) / 0x80_0000
  }

  // No product leaves int32.
  lemma NoOverflow(sum: nat, h: nat)
    requires SizeOk(h) && sum <= 255 * h
    ensures 0 <= sum * Scale(h) <= INT_MAX
    ensures 0 <= sum * Scale(h) / 0x80_0000 < 256
  {
    TimesMonotone(sum, 255 * h, Scale(h), Scale(h));
  }

  // The blur of sample x of a line: each channel is its scaled window sum.
  function Blurred(l: Line, x: int, h: nat): pixel
    requires l.Valid() && SizeOk(h)
  {
    Pack(Scaled(Window(l, A, x, h), h), Scaled(Window(l, R, x, h), h),
         Scaled(Window(l, G, x, h), h), Scaled(Window(l, B, x, h), h))
  }

  lemma BlurredChannels(l: Line, x: int, h: nat, k: nat)
    requires l.Valid() && SizeOk(h) && k < 4
    ensures Chan(Blurred(l, x, h), k) == Scaled(Window(l, k, x, h), h)
  {
    PackChan(Scaled(Window(l, A, x, h), h), Scaled(Window(l, R, x, h), h),
             Scaled(Window(l, G, x, h), h), Scaled(Window(l, B, x, h), h));
  }

  // ---- What the fixed point computes ----

  // Up to 255*h = 2^23 each channel is the exact average rounded down, or that plus one.
  lemma Average(sum: nat, h: nat)
    requires SizeOk(h) && sum <= 255 * h
    requires 255 * h <= 0x80_0000
    ensures sum / h <= Scaled(sum, h) <= sum / h + 1
  {
    hide Scale;
    var k, q := Scale(h), sum / h;
    ScaleIsLargest(h);
    Quotient(sum, h);
    LowerBound(sum, h, k, q);
    UpperBound(sum, h, k, q);
  }

  lemma Quotient(n: nat, d: nat)
    requires d > 0
    ensures n / d * d <= n < (n / d + 1) * d
  {
    assert n == n / d * d + n % d;
  }

  lemma ScaleIsLargest(h: nat)
    requires SizeOk(h)
    ensures Scale(h) * (255 * h) > INT_MAX - 255 * h
  {
    Quotient(INT_MAX, 255 * h);
  }

  lemma LowerBound(sum: nat, h: nat, k: nat, q: nat)
    requires h > 0 && 255 * h <= 0x80_0000 && k * (255 * h) > INT_MAX - 255 * h && q * h <= sum
    ensures q <= sum * k / 0x80_0000
  {
    // k * 255 * h >= 2^31 - 2^23 = 255 * 2^23
    Swap(k, h);
    TimesMonotone(q, q, 0x80_0000, k * h);
    TimesMonotone(q * h, sum, k, k);
    Swap3(q, h, k);
  }

  lemma UpperBound(sum: nat, h: nat, k: nat, q: nat)
    requires h > 0 && k * (255 * h) <= INT_MAX && sum < (q + 1) * h && sum <= 255 * h
    ensures sum * k / 0x80_0000 <= q + 1
  {
    if q < 255 {
      // sum * k * 255 <= (q + 1) * h * k * 255 < (q + 1) * 2^31, and 256 * (q + 1) <= 255 * (q + 2)
      TimesMonotone(sum, (q + 1) * h, k, k);
      Swap(k, h);
      Swap3(q + 1, h, k);
      TimesMonotone(q + 1, q + 1, 255 * (k * h), INT_MAX);
      assert (q + 1) * (255 * (k * h)) == 255 * ((q + 1) * (k * h));
    } else {
      TimesMonotone(sum, 255 * h, k, k);
      Swap3(255, h, k);
      Swap(k, h);
    }
  }

  lemma Swap(k: int, h: int)
    ensures k * (255 * h) == 255 * (k * h)
  {
  }

  lemma Swap3(q: int, h: int, k: int)
    ensures q * h * k == q * (k * h)
  {
  }

  // A window full of one value comes out as that value.
  lemma FullWindow(h: nat, v: channel)
    requires SizeOk(h) && 255 * h <= 0x80_0000
    ensures v * h <= 255 * h && Scaled(v * h, h) == v
  {
    hide Scale;
    TimesMonotone(v, 255, h, h);
    var k, t := Scale(h), Scale(h) * h - 0x80_0000;
    ScaleTimes(h);
    Regroup(v, h, k);
    TimesMonotone(v, 255, t, t);
    DivIs(v * h * k, 0x80_0000, v, v * t);
  }

  lemma Regroup(v: int, h: int, k: int)
    ensures v * h * k == v * 0x80_0000 + v * (k * h - 0x80_0000)
  {
  }

  // kscale * hsize lies between 2^23 and INT_MAX / 255.
  lemma ScaleTimes(h: nat)
    requires SizeOk(h) && 255 * h <= 0x80_0000
    ensures 0x80_0000 <= Scale(h) * h <= 8421504
  {
    var d, k := 255 * h, Scale(h);
    assert k * d + INT_MAX % d == INT_MAX;
    assert 255 * (k * h) == k * d;
  }

  // For every size: an opaque window stays opaque if and only if the division that made
  // kscale lost less than 2^23.
  lemma OpaqueWindow(h: nat)
    requires SizeOk(h)
    ensures Scaled(255 * h, h) == 255 <==> INT_MAX % (255 * h) < 0x80_0000
  {
    var d, k := 255 * h, Scale(h);
    assert k * d + INT_MAX % d == INT_MAX;
    NoOverflow(d, h);
    assert d * k == k * d;
  }

  // For every size, within which bounds: no rounding up, and no other rounding down than that
  // of kscale and of the shift.
  lemma ScaledBounds(sum: nat, h: nat)
    requires SizeOk(h) && sum <= 255 * h
    ensures Scaled(sum, h) * 0x80_0000 * (255 * h) <= sum * INT_MAX
    ensures sum * (INT_MAX - 255 * h) < (Scaled(sum, h) + 1) * 0x80_0000 * (255 * h)
  {
    ScaleIsLargest(h);
    Quotient(sum * Scale(h), 0x80_0000);
    hide Scale;
    BoundsBetween(sum, 255 * h, Scale(h), Scaled(sum, h));
  }

  lemma BoundsBetween(sum: nat, d: nat, k: nat, v: nat)
    requires 0 < d <= INT_MAX && k * d <= INT_MAX < k * d + d && v * 0x80_0000 <= sum * k < (v + 1) * 0x80_0000
    ensures v * 0x80_0000 * d <= sum * INT_MAX
    ensures sum * (INT_MAX - d) < (v + 1) * 0x80_0000 * d
  {
    TimesMonotone(v * 0x80_0000, sum * k, d, d);
    TimesMonotone(sum * k + 1, (v + 1) * 0x80_0000, d, d);
    TimesMonotone(k * d, INT_MAX, sum, sum);
    TimesMonotone(INT_MAX - d, k * d, sum, sum);
    assert sum * k * d == k * d * sum && (sum * k + 1) * d == k * d * sum + d;
    assert (INT_MAX - d) * sum == sum * (INT_MAX - d);
  }

  // A window of one sample changes nothing: pixel x of the result is pixel x of the source.
  lemma SizeOne(l: Line, x: int)
    requires l.Valid()
    ensures Blurred(l, x, 1) == PixelAt(l, x)
  {
    OneSample(l, A, x);
    OneSample(l, R, x);
    OneSample(l, G, x);
    OneSample(l, B, x);
    ChanPack(PixelAt(l, x));
  }

  lemma OneSample(l: Line, k: nat, x: int)
    requires l.Valid() && k < 4
    ensures Window(l, k, x, 1) == Chan(PixelAt(l, x), k) && Scaled(Window(l, k, x, 1), 1) == Chan(PixelAt(l, x), k)
  {
    assert Window(l, k, x, 0) == 0 && Scale(1) == 8421504;
  }

  lemma ScaledMonotone(s: nat, t: nat, h: nat)
    requires SizeOk(h) && s <= t <= 255 * h
    ensures Scaled(s, h) <= Scaled(t, h)
  {
    hide Scale;
    TimesMonotone(s, t, Scale(h), Scale(h));
    ShiftUp(s * Scale(h), t * Scale(h));
  }

  lemma ShiftUp(a: nat, b: nat)
    requires a <= b
    ensures a / 0x80_0000 <= b / 0x80_0000
  {
  }

  // A flat stretch of the source stays as it is.
  lemma FlatStays(l: Line, x: int, h: nat, k: nat, v: channel)
    requires l.Valid() && SizeOk(h) && 255 * h <= 0x80_0000 && k < 4
    requires forall j :: x - h < j <= x ==> l.Sample(k, j) == v
    ensures Chan(Blurred(l, x, h), k) == v
  {
    WindowConstant(l, k, x, h, v);
    FullWindow(h, v);
    BlurredChannels(l, x, h, k);
  }

  predicate Premultiplied(p: pixel) {
    Chan(p, R) <= Chan(p, A) && Chan(p, G) <= Chan(p, A) && Chan(p, B) <= Chan(p, A)
  }

  // Premultiplied sources give premultiplied results.
  lemma StaysPremultiplied(l: Line, x: int, h: nat)
    requires l.Valid() && SizeOk(h)
    requires forall i :: 0 <= i < |l.px| ==> Premultiplied(l.px[i])
    ensures Premultiplied(Blurred(l, x, h))
  {
    BlurredChannels(l, x, h, A);
    ColourBelow(l, x, h, R);
    ColourBelow(l, x, h, G);
    ColourBelow(l, x, h, B);
  }

  lemma PremultipliedSamples(l: Line, k: nat)
    requires l.Valid() && k < 3
    requires forall i :: 0 <= i < |l.px| ==> Premultiplied(l.px[i])
    ensures forall j: int :: l.Sample(k, j) <= l.Sample(A, j)
  {
    forall j: int
      ensures l.Sample(k, j) <= l.Sample(A, j)
    {
      if 0 <= j < l.n {
        l.Inside(j);
        assert Premultiplied(l.px[l.off + j * l.step]);
      }
    }
  }

  lemma ColourBelow(l: Line, x: int, h: nat, k: nat)
    requires l.Valid() && SizeOk(h) && k < 3
    requires forall i :: 0 <= i < |l.px| ==> Premultiplied(l.px[i])
    ensures Chan(Blurred(l, x, h), k) <= Scaled(Window(l, A, x, h), h)
  {
    PremultipliedSamples(l, k);
    WindowMonotone(l, k, l, A, x, h);
    ScaledMonotone(Window(l, k, x, h), Window(l, A, x, h), h);
    BlurredChannels(l, x, h, k);
  }

  // ---- The loops ----

  function BlurredRows(px: seq<pixel>, w: nat, h: nat, scan: nat, size: int): Image {
    (y: int, x: int) =>
      if 0 <= y < h && Row(px, y, w, scan).Valid() && SizeOk(size) then Blurred(Row(px, y, w, scan), x, size) else 0
  }

  function BlurredColumns(px: seq<pixel>, w: nat, h: nat, scan: nat, size: int): Image {
    (y: int, x: int) =>
      if 0 <= x < w && Column(px, x, h, scan).Valid() && SizeOk(size) then Blurred(Column(px, x, h, scan), y, size)
      else 0
  }

  lemma BlurredRowsAt(px: seq<pixel>, w: nat, h: nat, scan: nat, size: int, y: nat, x: int)
    requires y < h && Row(px, y, w, scan).Valid() && SizeOk(size)
    ensures BlurredRows(px, w, h, scan, size)(y, x) == Blurred(Row(px, y, w, scan), x, size)
  {
    hide Blurred, Row, Line.Valid;
  }

  lemma BlurredColumnsAt(px: seq<pixel>, w: nat, h: nat, scan: nat, size: int, y: int, x: nat)
    requires x < w && Column(px, x, h, scan).Valid() && SizeOk(size)
    ensures BlurredColumns(px, w, h, scan, size)(y, x) == Blurred(Column(px, x, h, scan), y, size)
  {
    hide Blurred, Column, Line.Valid;
  }

  // So images of unchanged size are copies.
  lemma CopyOfSize(px: seq<pixel>, w: nat, h: nat, scan: nat, y: nat, x: nat)
    requires Fits(|px|, w, h, scan) && y < h && x < w
    ensures At(y, x, scan) < |px|
    ensures BlurredRows(px, w, h, scan, 1)(y, x) == px[At(y, x, scan)]
    ensures BlurredColumns(px, w, h, scan, 1)(y, x) == px[At(y, x, scan)]
  {
    AtInside(|px|, w, h, scan, y, x);
    RowValid(px, y, w, h, scan);
    ColumnValid(px, x, w, h, scan);
    SizeOne(Row(px, y, w, scan), x);
    SizeOne(Column(px, x, h, scan), y);
  }

  // rgb enters or leaves the four sums.
  datatype Sums = Sums(a: int, r: int, g: int, b: int) {
    function Minus(p: pixel): Sums {
      Sums(a - Chan(p, A), r - Chan(p, R), g - Chan(p, G), b - Chan(p, B))
    }

    function Plus(p: pixel): Sums {
      Sums(a + Chan(p, A), r + Chan(p, R), g + Chan(p, G), b + Chan(p, B))
    }
  }

  ghost function SumsAt(l: Line, x: int, h: nat): Sums
    requires l.Valid()
  {
    Sums(Window(l, A, x, h), Window(l, R, x, h), Window(l, G, x, h), Window(l, B, x, h))
  }

  lemma SumsSlide(l: Line, x: int, h: nat)
    requires l.Valid() && h > 0
    ensures SumsAt(l, x, h) == SumsAt(l, x - 1, h).Minus(PixelAt(l, x - h)).Plus(PixelAt(l, x))
  {
    WindowSlide(l, A, x, h);
    WindowSlide(l, R, x, h);
    WindowSlide(l, G, x, h);
    WindowSlide(l, B, x, h);
  }

  lemma SumsStart(l: Line, h: nat)
    requires l.Valid()
    ensures SumsAt(l, -1, h) == Sums(0, 0, 0, 0)
  {
    WindowBefore(l, A, -1, h);
    WindowBefore(l, R, -1, h);
    WindowBefore(l, G, -1, h);
    WindowBefore(l, B, -1, h);
  }

  // The pixel written from the sums.
  method PixelOf(s: Sums, h: nat, kscale: int, ghost l: Line, ghost x: int) returns (p: pixel)
    requires SizeOk(h) && kscale == Scale(h) && l.Valid() && s == SumsAt(l, x, h)
    ensures p == Blurred(l, x, h)
  {
    NoOverflow(s.a, h);
    NoOverflow(s.r, h);
    NoOverflow(s.g, h);
    NoOverflow(s.b, h);
    p := Pack(s.a * kscale / 0x80_0000, s.r * kscale / 0x80_0000, s.g * kscale / 0x80_0000, s.b * kscale / 0x80_0000);
  }

  // The inner loop of filterHorizontal.
  method BlurRow(dst: array<pixel>, dstoff: nat, dstw: nat, src: array<pixel>, srcoff: nat, srcw: nat, hsize: nat,
                 kscale: int, ghost y: nat, ghost dstscan: nat, ghost srch: nat, ghost srcscan: nat)
    requires dst != src && 0 < dstw <= dstscan && dstoff == At(y, 0, dstscan) && dstoff + dstw <= dst.Length
    requires srcoff == At(y, 0, srcscan) && y < srch && Row(src[..], y, srcw, srcscan).Valid()
    requires SizeOk(hsize) && hsize > 0 && kscale == Scale(hsize) && dstw < srcw + hsize
    modifies dst
    ensures RowWritten(old(dst[..]), dst[..], y, dstw, dstscan, BlurredRows(src[..], srcw, srch, srcscan, hsize))
  {
    hide *;
    ghost var px, l := src[..], Row(src[..], y, srcw, srcscan);
    ghost var img := BlurredRows(px, srcw, srch, srcscan, hsize);
    var sums := Sums(0, 0, 0, 0);
    SumsStart(l, hsize);
    NothingWritten(dst[..], y, dstscan, img);
    for x := 0 to dstw
      invariant src[..] == px && sums == SumsAt(l, x - 1, hsize)
      invariant RowWritten(old(dst[..]), dst[..], y, x, dstscan, img)
    {
      SumsSlide(l, x, hsize);
      RowReads(px, y, x, srcw, srcscan, hsize);
      var rgb: pixel := if x >= hsize then src[srcoff + x - hsize] else 0;
      sums := sums.Minus(rgb);
      rgb := if x < srcw then src[srcoff + x] else 0;
      sums := sums.Plus(rgb);
      ghost var before := dst[..];
      var p := PixelOf(sums, hsize, kscale, l, x);
      dst[dstoff + x] := p;
      AtNext(y, x, dstscan);
      assert dst[..] == before[At(y, x, dstscan) := p];
      BlurredRowsAt(px, srcw, srch, srcscan, hsize, y, x);
      RowNext(old(dst[..]), before, y, x, dstscan, img);
    }
  }

  method FilterHorizontal(dst: array<pixel>, dstw: nat, dsth: nat, dstscan: nat,
                          src: array<pixel>, srcw: nat, srch: nat, srcscan: nat)
    requires ImagesOk(dst, dstw, dsth, dstscan, src, srcw, srch, srcscan)
    requires srcw <= dstw && dsth <= srch && SizeOk(dstw - srcw + 1)
    modifies dst
    ensures Shows(dst[..], dstw, dsth, dstscan, BlurredRows(src[..], srcw, srch, srcscan, dstw - srcw + 1))
    ensures PaddingKept(old(dst[..]), dst[..], dstw, dsth, dstscan)
  {
    hide At, InImage, RowWritten, Line.Valid, Row, BlurredRows;
    var hsize := dstw - srcw + 1;
    var kscale := INT_MAX / (hsize * 255);
    var srcoff, dstoff := 0, 0;
    AtNext(0, 0, srcscan);
    AtNext(0, 0, dstscan);
    ghost var px, img := src[..], BlurredRows(src[..], srcw, srch, srcscan, hsize);
    for y := 0 to dsth
      invariant srcoff == At(y, 0, srcscan) && dstoff == At(y, 0, dstscan) && src[..] == px
      invariant Shows(dst[..], dstw, y, dstscan, img)
      invariant PaddingKept(old(dst[..]), dst[..], dstw, dsth, dstscan)
    {
      AtNext(y, 0, srcscan);
      AtNext(y, 0, dstscan);
      if dstw > 0 {
        RowValid(px, y, srcw, srch, srcscan);
        AtInside(dst.Length, dstw, dsth, dstscan, y, dstw - 1);
        AtNext(y, dstw - 1, dstscan);
        ghost var before := dst[..];
        BlurRow(dst, dstoff, dstw, src, srcoff, srcw, hsize, kscale, y, dstscan, srch, srcscan);
        RowsNext(before, dst[..], dstw, dsth, y, dstscan, img);
      }
      srcoff, dstoff := srcoff + srcscan, dstoff + dstscan;
    }
  }

  // The inner loop of filterVertical.
  method BlurColumn(dst: array<pixel>, x: nat, dsth: nat, dstscan: nat, src: array<pixel>, srch: nat, srcscan: nat,
                    vsize: nat, kscale: int, ghost srcw: nat)
    requires dst != src && Fits(dst.Length, x + 1, dsth, dstscan) && x < dstscan
    requires Column(src[..], x, srch, srcscan).Valid() && x < srcw <= srcscan
    requires SizeOk(vsize) && vsize > 0 && kscale == Scale(vsize) && dsth < srch + vsize
    modifies dst
    ensures ColumnWritten(old(dst[..]), dst[..], x, dsth, dstscan, BlurredColumns(src[..], srcw, srch, srcscan, vsize))
  {
    hide *;
    ghost var px, l := src[..], Column(src[..], x, srch, srcscan);
    ghost var img := BlurredColumns(px, srcw, srch, srcscan, vsize);
    var voff := vsize * srcscan;
    var srcoff, dstoff := x, x;
    AtNext(0, x, srcscan);
    AtNext(0, x, dstscan);
    var sums := Sums(0, 0, 0, 0);
    SumsStart(l, vsize);
    NothingWritten(dst[..], x, dstscan, img);
    for y := 0 to dsth
      invariant srcoff == At(y, x, srcscan) && dstoff == At(y, x, dstscan) && src[..] == px
      invariant sums == SumsAt(l, y - 1, vsize)
      invariant ColumnWritten(old(dst[..]), dst[..], x, y, dstscan, img)
    {
      AtInside(dst.Length, x + 1, dsth, dstscan, y, x);
      AtNext(y, x, srcscan);
      AtNext(y, x, dstscan);
      SumsSlide(l, y, vsize);
      ColumnReads(px, x, y, srch, srcscan, vsize);
      var rgb: pixel := if srcoff >= voff then src[srcoff - voff] else 0;
      sums := sums.Minus(rgb);
      rgb := if y < srch then src[srcoff] else 0;
      sums := sums.Plus(rgb);
      ghost var before := dst[..];
      var p := PixelOf(sums, vsize, kscale, l, y);
      dst[dstoff] := p;
      assert dst[..] == before[dstoff := p];
      BlurredColumnsAt(px, srcw, srch, srcscan, vsize, y, x);
      ColumnNext(old(dst[..]), before, x, y, dstscan, img);
      srcoff, dstoff := srcoff + srcscan, dstoff + dstscan;
    }
  }

  method FilterVertical(dst: array<pixel>, dstw: nat, dsth: nat, dstscan: nat,
                        src: array<pixel>, srcw: nat, srch: nat, srcscan: nat)
    requires ImagesOk(dst, dstw, dsth, dstscan, src, srcw, srch, srcscan)
    requires srch <= dsth && dstw <= srcw && SizeOk(dsth - srch + 1)
    modifies dst
    ensures Shows(dst[..], dstw, dsth, dstscan, BlurredColumns(src[..], srcw, srch, srcscan, dsth - srch + 1))
    ensures PaddingKept(old(dst[..]), dst[..], dstw, dsth, dstscan)
  {
    hide At, InImage, ColumnWritten, Line.Valid, Column, BlurredColumns;
    var vsize := dsth - srch + 1;
    var kscale := INT_MAX / (vsize * 255);
    ghost var px, img := src[..], BlurredColumns(src[..], srcw, srch, srcscan, vsize);
    for x := 0 to dstw
      invariant src[..] == px
      invariant Shows(dst[..], x, dsth, dstscan, img)
      invariant PaddingKept(old(dst[..]), dst[..], dstw, dsth, dstscan)
    {
      ColumnValid(px, x, srcw, srch, srcscan);
      FitsColumn(dst.Length, dstw, dsth, dstscan, x);
      ghost var before := dst[..];
      BlurColumn(dst, x, dsth, dstscan, src, srch, srcscan, vsize, kscale, srcw);
      ColumnsNext(before, dst[..], dstw, dsth, x, dstscan, img);
    }
  }

  // ---- Rows against columns ----

  predicate Transposed(px: seq<pixel>, scan: nat, tx: seq<pixel>, tscan: nat, w: nat, h: nat) {
    Fits(|px|, w, h, scan) && Fits(|tx|, h, w, tscan) &&
    forall y, x :: 0 <= y < h && 0 <= x < w && At(y, x, scan) < |px| && At(x, y, tscan) < |tx| ==>
      px[At(y, x, scan)] == tx[At(x, y, tscan)]
  }

  lemma TransposedLine(px: seq<pixel>, scan: nat, tx: seq<pixel>, tscan: nat, w: nat, h: nat,
                       x: nat, y: int, v: nat)
    requires Transposed(px, scan, tx, tscan, w, h) && x < w && SizeOk(v)
    ensures Column(px, x, h, scan).Valid() && Row(tx, x, h, tscan).Valid()
    ensures Blurred(Column(px, x, h, scan), y, v) == Blurred(Row(tx, x, h, tscan), y, v)
  {
    ColumnValid(px, x, w, h, scan);
    RowValid(tx, x, h, w, tscan);
    var c, r := Column(px, x, h, scan), Row(tx, x, h, tscan);
    forall i: int
      ensures PixelAt(c, i) == PixelAt(r, i)
    {
      if 0 <= i < h {
        c.Inside(i);
        r.Inside(i);
        assert c.off + i * c.step == At(i, x, scan) && r.off + i * r.step == At(x, i, tscan);
      }
    }
    SamePixels(c, r, A, y, v);
    SamePixels(c, r, R, y, v);
    SamePixels(c, r, G, y, v);
    SamePixels(c, r, B, y, v);
  }

  lemma {:induction false} SamePixels(l: Line, l': Line, k: nat, i: int, h: nat)
    requires l.Valid() && l'.Valid() && forall j: int :: PixelAt(l, j) == PixelAt(l', j)
    ensures Window(l, k, i, h) == Window(l', k, i, h)
  {
    if h > 0 {
      SamePixels(l, l', k, i, h - 1);
      var j := i - (h - 1);
      assert l.Sample(k, j) == Chan(PixelAt(l, j), k);
      assert l'.Sample(k, j) == Chan(PixelAt(l', j), k);
    }
  }

  // What filterVertical leaves for a source is the transpose of what filterHorizontal leaves
  // for the transposed source, whatever the scans.
  lemma VerticalIsTransposedHorizontal(src: seq<pixel>, srcscan: nat, tsrc: seq<pixel>, tsrcscan: nat,
                                       dst: seq<pixel>, dstscan: nat, tdst: seq<pixel>, tdstscan: nat,
                                       srcw: nat, srch: nat, dstw: nat, dsth: nat)
    requires Transposed(src, srcscan, tsrc, tsrcscan, srcw, srch)
    requires srch <= dsth && dstw <= srcw && SizeOk(dsth - srch + 1)
    requires Fits(|dst|, dstw, dsth, dstscan) && Fits(|tdst|, dsth, dstw, tdstscan)
    requires Shows(dst, dstw, dsth, dstscan, BlurredColumns(src, srcw, srch, srcscan, dsth - srch + 1))
    requires Shows(tdst, dsth, dstw, tdstscan, BlurredRows(tsrc, srch, srcw, tsrcscan, dsth - srch + 1))
    ensures Transposed(dst, dstscan, tdst, tdstscan, dstw, dsth)
  {
    hide Blurred, BlurredColumns, BlurredRows, Fits, At;
    var v := dsth - srch + 1;
    forall y, x | 0 <= y < dsth && 0 <= x < dstw && At(y, x, dstscan) < |dst| && At(x, y, tdstscan) < |tdst|
      ensures dst[At(y, x, dstscan)] == tdst[At(x, y, tdstscan)]
    {
      TransposedLine(src, srcscan, tsrc, tsrcscan, srcw, srch, x, y, v);
      BlurredColumnsAt(src, srcw, srch, srcscan, v, y, x);
      BlurredRowsAt(tsrc, srch, srcw, tsrcscan, v, x, y);
    }
  }
}
