// Packed ARGB pixels and scan lines, shared by the Decora software filters.

module Pixels {
  import opened Grids

  // A jint pixel, read as an unsigned 32-bit word.
  type pixel = p: int | 0 <= p < 0x1_0000_0000
  type channel = c: int | 0 <= c < 256

  const INT_MAX: int := 0x7fff_ffff

  const A: nat := 3
  const R: nat := 2
  const G: nat := 1
  const B: nat := 0

  // Byte k of a pixel.
  function Chan(p: pixel, k: nat): channel {
    if k == A then p / 256 / 256 / 256
    else if k == R then p / 256 / 256 % 256
    else if k == G then p / 256 % 256
    else p % 256
  }

  // Four channels in one word, alpha on top.
  function Pack(a: channel, r: channel, g: channel, b: channel): pixel {
    ((a * 256 + r) * 256 + g) * 256 + b
  }

  // Channels that stay within a byte do not carry into each other.
  lemma PackChan(a: channel, r: channel, g: channel, b: channel)
    ensures Chan(Pack(a, r, g, b), A) == a && Chan(Pack(a, r, g, b), R) == r
    ensures Chan(Pack(a, r, g, b), G) == g && Chan(Pack(a, r, g, b), B) == b
  {
    var p := Pack(a, r, g, b);
    assert p / 256 == (a * 256 + r) * 256 + g;
    assert p / 256 / 256 == a * 256 + r;
  }

  // The four bytes are all of a pixel.
  lemma ChanPack(p: pixel)
    ensures Pack(Chan(p, A), Chan(p, R), Chan(p, G), Chan(p, B)) == p
  {
    var q := p / 256;
    assert p == q * 256 + p % 256 && q == q / 256 * 256 + q % 256;
  }

  // Index i holds a pixel of the image and not padding.
  predicate InImage(i: nat, w: nat, h: nat, scan: nat) {
    scan > 0 && i / scan < h && i % scan < w
  }

  // An image of w columns and h rows fits in n pixels.
  predicate Fits(n: nat, w: nat, h: nat, scan: nat) {
    w <= scan && (h > 0 && w > 0 ==> At(h - 1, w, scan) <= n)
  }

  lemma AtInside(n: nat, w: nat, h: nat, scan: nat, y: nat, x: nat)
    requires Fits(n, w, h, scan) && y < h && x < w
    ensures At(y, x, scan) < n
  {
    if y < h - 1 {
      AtOrder(y, h - 1, scan);
    }
  }

  // A line of n samples of a channel, off, off+step, off+2*step ..., black outside.
  datatype Line = Line(px: seq<pixel>, off: nat, step: nat, n: nat) {
    predicate Valid() {
      n > 0 ==> off + (n - 1) * step < |px|
    }

    function Sample(k: nat, i: int): (c: channel)
      requires Valid()
    {
      if 0 <= i < n then
        Inside(i);
        Chan(px[off + i * step], k)
      else 0
    }

    lemma Inside(i: nat)
      requires Valid() && i < n
      ensures off + i * step < |px|
    {
      NatProduct(n - 1 - i, step);
      assert (n - 1 - i) * step == (n - 1) * step - i * step;
    }
  }

  // The sum of the h samples that end at i.
  function Window(l: Line, k: nat, i: int, h: nat): (s: nat)
    requires l.Valid()
    ensures s <= 255 * h
  {
    if h == 0 then 0 else Window(l, k, i, h - 1) + l.Sample(k, i - (h - 1))
  }

  // Sliding by one: one sample leaves, one enters.
  lemma {:induction false} WindowSlide(l: Line, k: nat, i: int, h: nat)
    requires l.Valid() && h > 0
    ensures Window(l, k, i, h) == Window(l, k, i - 1, h) - l.Sample(k, i - h) + l.Sample(k, i)
    decreases h
  {
    if h > 1 {
      WindowSlide(l, k, i, h - 1);
    }
  }

  lemma {:induction false} WindowBefore(l: Line, k: nat, i: int, h: nat)
    requires l.Valid() && i < 0
    ensures Window(l, k, i, h) == 0
  {
    if h > 0 {
      WindowBefore(l, k, i, h - 1);
    }
  }

  lemma {:induction false} WindowMonotone(l: Line, k: nat, l': Line, k': nat, i: int, h: nat)
    requires l.Valid() && l'.Valid()
    requires forall j: int :: l.Sample(k, j) <= l'.Sample(k', j)
    ensures Window(l, k, i, h) <= Window(l', k', i, h)
  {
    if h > 0 {
      WindowMonotone(l, k, l', k', i, h - 1);
    }
  }

  lemma {:induction false} WindowConstant(l: Line, k: nat, i: int, h: nat, v: channel)
    requires l.Valid() && forall j :: i - h < j <= i ==> l.Sample(k, j) == v
    ensures Window(l, k, i, h) == v * h
  {
    if h > 0 {
      WindowConstant(l, k, i, h - 1, v);
      assert v * (h - 1) + v == v * h;
    }
  }

  // ---- Conservation ----

  function Total(l: Line, k: nat, n: nat): nat
    requires l.Valid()
  {
    if n == 0 then 0 else Total(l, k, n - 1) + l.Sample(k, n - 1)
  }

  function TotalWindow(l: Line, k: nat, h: nat, m: nat): nat
    requires l.Valid()
  {
    if m == 0 then 0 else TotalWindow(l, k, h, m - 1) + Window(l, k, m - 1, h)
  }

  lemma {:induction false} WindowTotal(l: Line, k: nat, m: nat, h: nat)
    requires l.Valid() && h > 0
    ensures TotalWindow(l, k, h, m) == TotalWindow(l, k, h - 1, m) + (if m >= h then Total(l, k, m - h + 1) else 0)
  {
    if m > 0 {
      WindowTotal(l, k, m - 1, h);
    }
  }

  lemma {:induction false} TotalBeyond(l: Line, k: nat, m: nat)
    requires l.Valid() && m >= l.n
    ensures Total(l, k, m) == Total(l, k, l.n)
  {
    if m > l.n {
      TotalBeyond(l, k, m - 1);
    }
  }

  // Over the n + h - 1 windows of a line, each sample is counted h times.
  lemma {:induction false} Conservation(l: Line, k: nat, h: nat, m: nat)
    requires l.Valid() && (h == 0 || m >= l.n + h - 1)
    ensures TotalWindow(l, k, h, m) == h * Total(l, k, l.n)
    decreases h
  {
    if h == 0 {
      NoWindow(l, k, m);
    } else {
      WindowTotal(l, k, m, h);
      Conservation(l, k, h - 1, m);
      var total := Total(l, k, l.n);
      assert (h - 1) * total + total == h * total;
      hide Total, TotalWindow;
      if m >= h {
        TotalBeyond(l, k, m - h + 1);
      } else {
        assert l.n == 0;
        NoTotal(l, k);
      }
    }
  }

  lemma NoTotal(l: Line, k: nat)
    requires l.Valid() && l.n == 0
    ensures Total(l, k, l.n) == 0
  {
  }

  lemma {:induction false} NoWindow(l: Line, k: nat, m: nat)
    requires l.Valid()
    ensures TotalWindow(l, k, 0, m) == 0
  {
    if m > 0 {
      NoWindow(l, k, m - 1);
    }
  }

  // ---- Writing an image ----

  // A picture, by row and column.
  type Image = (int, int) -> pixel

  predicate ImagesOk(dst: array<pixel>, dstw: nat, dsth: nat, dstscan: nat,
                     src: array<pixel>, srcw: nat, srch: nat, srcscan: nat)
  {
    dst != src && Fits(dst.Length, dstw, dsth, dstscan) && Fits(src.Length, srcw, srch, srcscan)
  }

  // The rest of the buffer, between the image's lines and behind it, is left alone.
  ghost predicate PaddingKept(before: seq<pixel>, after: seq<pixel>, w: nat, h: nat, scan: nat) {
    |after| == |before| && forall i :: 0 <= i < |before| && !InImage(i, w, h, scan) ==> after[i] == before[i]
  }

  ghost predicate Shows(px: seq<pixel>, w: nat, h: nat, scan: nat, img: Image) {
    forall y, x :: 0 <= y < h && 0 <= x < w ==> At(y, x, scan) < |px| && px[At(y, x, scan)] == img(y, x)
  }

  // The first n pixels of row y have been set, and nothing else has changed.
  ghost predicate RowWritten(before: seq<pixel>, after: seq<pixel>, y: nat, n: nat, scan: nat, img: Image) {
    && |after| == |before| && scan > 0
    && (forall x :: 0 <= x < n ==> At(y, x, scan) < |after| && after[At(y, x, scan)] == img(y, x))
    && (forall i :: 0 <= i < |before| && !(i / scan == y && i % scan < n) ==> after[i] == before[i])
  }

  // The same for column x.
  ghost predicate ColumnWritten(before: seq<pixel>, after: seq<pixel>, x: nat, n: nat, scan: nat, img: Image) {
    && |after| == |before| && scan > 0
    && (forall y :: 0 <= y < n ==> At(y, x, scan) < |after| && after[At(y, x, scan)] == img(y, x))
    && (forall i :: 0 <= i < |before| && !(i % scan == x && i / scan < n) ==> after[i] == before[i])
  }

  lemma NothingWritten(px: seq<pixel>, i: nat, scan: nat, img: Image)
    requires scan > 0
    ensures RowWritten(px, px, i, 0, scan, img) && ColumnWritten(px, px, i, 0, scan, img)
  {
  }

  lemma RowNext(before: seq<pixel>, after: seq<pixel>, y: nat, n: nat, scan: nat, img: Image)
    requires RowWritten(before, after, y, n, scan, img) && n < scan && At(y, n, scan) < |after|
    ensures RowWritten(before, after[At(y, n, scan) := img(y, n)], y, n + 1, scan, img)
  {
    AtInverse(y, n, scan);
  }

  lemma ColumnNext(before: seq<pixel>, after: seq<pixel>, x: nat, n: nat, scan: nat, img: Image)
    requires ColumnWritten(before, after, x, n, scan, img) && x < scan && At(n, x, scan) < |after|
    ensures ColumnWritten(before, after[At(n, x, scan) := img(n, x)], x, n + 1, scan, img)
  {
    AtInverse(n, x, scan);
    forall y | 0 <= y < n
      ensures At(y, x, scan) < At(n, x, scan)
    {
      AtOrder(y, n, scan);
    }
  }

  lemma RowsNext(before: seq<pixel>, after: seq<pixel>, w: nat, h: nat, y: nat, scan: nat, img: Image)
    requires Shows(before, w, y, scan, img) && y < h && w <= scan
    requires RowWritten(before, after, y, w, scan, img)
    ensures Shows(after, w, y + 1, scan, img) && PaddingKept(before, after, w, h, scan)
  {
    forall j, x | 0 <= j < y && 0 <= x < w
      ensures At(j, x, scan) < |after| && after[At(j, x, scan)] == before[At(j, x, scan)]
    {
      assert At(j, x, scan) < |before|;
      AtInverse(j, x, scan);
    }
  }

  lemma ColumnsNext(before: seq<pixel>, after: seq<pixel>, w: nat, h: nat, x: nat, scan: nat, img: Image)
    requires Shows(before, x, h, scan, img) && x < w <= scan
    requires ColumnWritten(before, after, x, h, scan, img)
    ensures Shows(after, x + 1, h, scan, img) && PaddingKept(before, after, w, h, scan)
  {
    forall y, j | 0 <= y < h && 0 <= j < x
      ensures At(y, j, scan) < |after| && after[At(y, j, scan)] == before[At(y, j, scan)]
    {
      assert At(y, j, scan) < |before|;
      AtInverse(y, j, scan);
    }
  }

  // ---- Reading an image by lines ----

  // Line y of an image, and its column x.
  function Row(px: seq<pixel>, y: nat, w: nat, scan: nat): Line {
    Line(px, y * scan, 1, w)
  }

  function Column(px: seq<pixel>, x: nat, h: nat, scan: nat): Line {
    Line(px, x, scan, h)
  }

  lemma RowValid(px: seq<pixel>, y: nat, w: nat, h: nat, scan: nat)
    requires Fits(|px|, w, h, scan) && y < h
    ensures Row(px, y, w, scan).Valid()
  {
    if w > 0 {
      AtInside(|px|, w, h, scan, y, w - 1);
    }
  }

  lemma ColumnValid(px: seq<pixel>, x: nat, w: nat, h: nat, scan: nat)
    requires Fits(|px|, w, h, scan) && x < w
    ensures Column(px, x, h, scan).Valid()
  {
    if h > 0 {
      AtInside(|px|, w, h, scan, h - 1, x);
    }
  }

  function PixelAt(l: Line, i: int): pixel
    requires l.Valid()
  {
    if 0 <= i < l.n then
      l.Inside(i);
      l.px[l.off + i * l.step]
    else 0
  }

  // What the two reads of the inner loop of a horizontal filter see.
  lemma RowReads(px: seq<pixel>, y: nat, x: nat, w: nat, scan: nat, h: nat)
    requires Row(px, y, w, scan).Valid() && x < w + h && h > 0
    ensures var l, srcoff := Row(px, y, w, scan), At(y, 0, scan);
            && (x >= h ==> srcoff + x - h < |px|)
            && (if x >= h then px[srcoff + x - h] else 0) == PixelAt(l, x - h)
            && (x < w ==> srcoff + x < |px|)
            && (if x < w then px[srcoff + x] else 0) == PixelAt(l, x)
  {
    if x >= h {
      Row(px, y, w, scan).Inside(x - h);
    }
    if x < w {
      Row(px, y, w, scan).Inside(x);
    }
  }

  // A vertical filter tests srcoff >= voff: this says y >= vsize, because x stays below
  // the scan.
  lemma ColumnTest(x: nat, y: nat, v: nat, scan: nat)
    requires x < scan
    ensures x + y * scan >= v * scan <==> y >= v
    ensures y >= v ==> x + y * scan - v * scan == x + (y - v) * scan
    ensures (y + 1) * scan == y * scan + scan
  {
    if y < v {
      AtOrder(y, v, scan);
    } else {
      NatProduct(y - v, scan);
      assert (y - v) * scan == y * scan - v * scan;
    }
  }

  // What the two reads of its inner loop see.
  lemma ColumnReads(px: seq<pixel>, x: nat, y: nat, h: nat, scan: nat, v: nat)
    requires Column(px, x, h, scan).Valid() && x < scan && y < h + v && v > 0
    ensures var l, srcoff, voff := Column(px, x, h, scan), At(y, x, scan), v * scan;
            && (srcoff >= voff ==> srcoff - voff < |px|)
            && (if srcoff >= voff then px[srcoff - voff] else 0) == PixelAt(l, y - v)
            && (y < h ==> srcoff < |px|)
            && (if y < h then px[srcoff] else 0) == PixelAt(l, y)
  {
    ColumnTest(x, y, v, scan);
    if y >= v {
      Column(px, x, h, scan).Inside(y - v);
    }
    if y < h {
      Column(px, x, h, scan).Inside(y);
    }
  }

  lemma FitsColumn(n: nat, w: nat, h: nat, scan: nat, x: nat)
    requires Fits(n, w, h, scan) && x < w
    ensures Fits(n, x + 1, h, scan) && x < scan
  {
  }
}
