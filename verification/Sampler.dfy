// SSEUtils.cc: bilinear sampling of packed and of floating-point images. Coordinates and
// sums are reals.

module Sampler {
  import opened Grids
  import opened Pixels

  // ---- The simple form: a tent over every texel ----

  function Tent(d: real): (t: real)
    ensures 0.0 <= t <= 1.0
  {
    if d <= -1.0 || d >= 1.0 then 0.0 else if d < 0.0 then 1.0 + d else 1.0 - d
  }

  function Times(a: real, b: real): real {
    a * b
  }

  // Texel i of n is centred on i + 1/2.
  function Blend(f: int -> real, n: nat, p: real): real {
    if n == 0 then 0.0 else Blend(f, n - 1, p) + Times(Tent(p - (n - 1) as real - 0.5), f(n - 1))
  }

  // A texture by row and column; what it says outside its bounds is never used.
  type Texture = (int, int) -> real

  lemma NotNegative(a: real, b: real)
    requires a >= 0.0 && b >= 0.0
    ensures a * b >= 0.0
  {
  }

  function RowOf(t: Texture, y: int): int -> real {
    x => t(y, x)
  }

  function RowBlend(t: Texture, w: nat, px: real): int -> real {
    y => Blend(RowOf(t, y), w, px)
  }

  // The sum of every texel of the texture under a tent in x and in y.
  function Filtered(t: Texture, w: nat, h: nat, px: real, py: real): real {
    Blend(RowBlend(t, w, px), h, py)
  }

  // ---- What it comes to: at most two texels each way ----

  function Bounded(f: int -> real, n: nat, i: int): real {
    if 0 <= i < n then f(i) else 0.0
  }

  function Texel(t: Texture, w: nat, h: nat, y: int, x: int): real {
    if 0 <= y < h && 0 <= x < w then t(y, x) else 0.0
  }

  function Fract(q: real): (f: real)
    ensures 0.0 <= f < 1.0
  {
    q - q.Floor as real
  }

  lemma {:induction false} TwoTexels(f: int -> real, n: nat, p: real)
    ensures var q := p + 0.5;
            Blend(f, n, p) ==
            Times(1.0 - Fract(q), Bounded(f, n, q.Floor - 1)) + Times(Fract(q), Bounded(f, n, q.Floor))
  {
    var q := p + 0.5;
    if n > 0 {
      TwoTexels(f, n - 1, p);
      TentAt(p, n - 1);
    }
  }

  lemma TentAt(p: real, i: int)
    ensures var q := p + 0.5;
            Tent(p - i as real - 0.5) ==
            if i == q.Floor then Fract(q) else if i == q.Floor - 1 then 1.0 - Fract(q) else 0.0
  {
  }

  // The weights of the four taps, from the two fractions.
  datatype Weights = Weights(here: real, left: real, above: real, corner: real)

  function WeightsAt(fx: real, fy: real): Weights {
    var fract := fx * fy;
    Weights(fract, fy - fract, fx - fract, 1.0 - fx - fy + fract)
  }

  lemma WeightsSum(fx: real, fy: real)
    requires 0.0 <= fx <= 1.0 && 0.0 <= fy <= 1.0
    ensures var v := WeightsAt(fx, fy);
            && v.here >= 0.0 && v.left >= 0.0 && v.above >= 0.0 && v.corner >= 0.0
            && v.here + v.left + v.above + v.corner == 1.0
  {
    NotNegative(fx, fy);
    NotNegative(1.0 - fx, fy);
    NotNegative(fx, 1.0 - fy);
    NotNegative(1.0 - fx, 1.0 - fy);
  }

  function Taps(t: Texture, w: nat, h: nat, iy: int, ix: int, v: Weights): real {
    Times(Texel(t, w, h, iy, ix), v.here) + Times(Texel(t, w, h, iy, ix - 1), v.left) +
    Times(Texel(t, w, h, iy - 1, ix), v.above) + Times(Texel(t, w, h, iy - 1, ix - 1), v.corner)
  }

  // The four taps are the whole filter, at every real coordinate.
  lemma FourTaps(t: Texture, w: nat, h: nat, px: real, py: real)
    ensures var qx, qy := px + 0.5, py + 0.5;
            Filtered(t, w, h, px, py) == Taps(t, w, h, qy.Floor, qx.Floor, WeightsAt(Fract(qx), Fract(qy)))
  {
    var qx, qy := px + 0.5, py + 0.5;
    var iy := qy.Floor;
    TwoTexels(RowBlend(t, w, px), h, py);
    RowTexels(t, w, h, px, iy);
    RowTexels(t, w, h, px, iy - 1);
    hide Fract;
    Expand(Fract(qx), Fract(qy), Texel(t, w, h, iy, qx.Floor), Texel(t, w, h, iy, qx.Floor - 1),
           Texel(t, w, h, iy - 1, qx.Floor), Texel(t, w, h, iy - 1, qx.Floor - 1));
  }

  lemma RowTexels(t: Texture, w: nat, h: nat, px: real, y: int)
    ensures var qx := px + 0.5;
            Bounded(RowBlend(t, w, px), h, y) ==
            Times(1.0 - Fract(qx), Texel(t, w, h, y, qx.Floor - 1)) + Times(Fract(qx), Texel(t, w, h, y, qx.Floor))
  {
    if 0 <= y < h {
      TwoTexels(RowOf(t, y), w, px);
    }
  }

  lemma Expand(fx: real, fy: real, a: real, b: real, c: real, d: real)
    ensures var v := WeightsAt(fx, fy);
            Times(1.0 - fy, Times(1.0 - fx, d) + Times(fx, c)) + Times(fy, Times(1.0 - fx, b) + Times(fx, a)) ==
            Times(a, v.here) + Times(b, v.left) + Times(c, v.above) + Times(d, v.corner)
  {
  }

  // ---- What the filter promises ----

  // A texel's centre returns the texel.
  lemma TexelCentre(t: Texture, w: nat, h: nat, y: nat, x: nat)
    requires y < h && x < w
    ensures Filtered(t, w, h, x as real + 0.5, y as real + 0.5) == t(y, x)
  {
    FourTaps(t, w, h, x as real + 0.5, y as real + 0.5);
    assert (x as real + 1.0).Floor == x + 1 && (y as real + 1.0).Floor == y + 1;
    hide Filtered;
    assert WeightsAt(0.0, 0.0) == Weights(0.0, 0.0, 0.0, 1.0);
  }

  function One(): int -> real {
    i => 1.0
  }

  function Ones(): Texture {
    (y, x) => 1.0
  }

  // Between the outermost texel centres, and only there, the weights sum to 1.
  lemma Interior(w: nat, h: nat, px: real, py: real)
    ensures Filtered(Ones(), w, h, px, py) <= 1.0
    ensures (Filtered(Ones(), w, h, px, py) == 1.0)
       <==> (0.5 <= px <= w as real - 0.5 && 0.5 <= py <= h as real - 0.5)
  {
    Separable(w, h, px, py);
    Covered(w, px);
    Covered(h, py);
    hide Filtered;
    ProductIsOne(Blend(One(), w, px), Blend(One(), h, py));
  }

  lemma Separable(w: nat, h: nat, px: real, py: real)
    ensures Filtered(Ones(), w, h, px, py) == Blend(One(), w, px) * Blend(One(), h, py)
  {
    hide Blend, RowBlend, Ones;
    forall y: int
      ensures RowBlend(Ones(), w, px)(y) == Blend(One(), w, px)
    {
      OnesRow(w, px, y);
    }
    Factored(RowBlend(Ones(), w, px), Blend(One(), w, px), h, py);
  }

  lemma OnesRow(w: nat, px: real, y: int)
    ensures RowBlend(Ones(), w, px)(y) == Blend(One(), w, px)
  {
    hide Blend;
    SameBlend(RowOf(Ones(), y), One(), w, px);
  }

  lemma {:induction false} Factored(f: int -> real, r: real, n: nat, p: real)
    requires forall i: int :: f(i) == r
    ensures Blend(f, n, p) == r * Blend(One(), n, p)
  {
    hide Tent;
    if n > 0 {
      Factored(f, r, n - 1, p);
    }
  }

  lemma {:induction false} SameBlend(f: int -> real, g: int -> real, n: nat, p: real)
    requires forall i :: 0 <= i < n ==> f(i) == g(i)
    ensures Blend(f, n, p) == Blend(g, n, p)
  {
    if n > 0 {
      SameBlend(f, g, n - 1, p);
    }
  }

  lemma Covered(n: nat, p: real)
    ensures 0.0 <= Blend(One(), n, p) <= 1.0
    ensures (Blend(One(), n, p) == 1.0) <==> (0.5 <= p <= n as real - 0.5)
  {
    TwoTexels(One(), n, p);
    hide Blend;
  }

  lemma ProductIsOne(a: real, b: real)
    requires 0.0 <= a <= 1.0 && 0.0 <= b <= 1.0
    ensures a * b <= 1.0 && (a * b == 1.0 <==> a == 1.0 && b == 1.0)
  {
    NotNegative(1.0 - a, b);
    NotNegative(1.0 - b, a);
  }

  // A filtered value never leaves the range of the texture, or zero.
  lemma Within(t: Texture, w: nat, h: nat, px: real, py: real, m: real)
    requires m >= 0.0 && forall y, x :: 0 <= y < h && 0 <= x < w ==> 0.0 <= t(y, x) <= m
    ensures 0.0 <= Filtered(t, w, h, px, py) <= m
  {
    forall y | 0 <= y < h
      ensures 0.0 <= RowBlend(t, w, px)(y) <= m
    {
      BlendWithin(RowOf(t, y), w, px, m);
    }
    BlendWithin(RowBlend(t, w, px), h, py, m);
  }

  lemma BlendWithin(f: int -> real, n: nat, p: real, m: real)
    requires m >= 0.0 && forall i :: 0 <= i < n ==> 0.0 <= f(i) <= m
    ensures 0.0 <= Blend(f, n, p) <= m
  {
    hide Blend, Fract, Times;
    TwoTexels(f, n, p);
    var q := p + 0.5;
    Convex(Fract(q), Bounded(f, n, q.Floor - 1), Bounded(f, n, q.Floor), m);
  }

  lemma Convex(f: real, a: real, b: real, m: real)
    requires 0.0 <= f <= 1.0 && 0.0 <= a <= m && 0.0 <= b <= m
    ensures 0.0 <= Times(1.0 - f, a) + Times(f, b) <= m
  {
    NotNegative(1.0 - f, a);
    NotNegative(1.0 - f, m - a);
    NotNegative(f, b);
    NotNegative(f, m - b);
  }

  // What holds between two textures holds between their samples: premultiplied images give
  // premultiplied samples.
  lemma FilterMonotone(t: Texture, u: Texture, w: nat, h: nat, px: real, py: real)
    requires forall y, x :: 0 <= y < h && 0 <= x < w ==> t(y, x) <= u(y, x)
    ensures Filtered(t, w, h, px, py) <= Filtered(u, w, h, px, py)
  {
    forall y | 0 <= y < h
      ensures RowBlend(t, w, px)(y) <= RowBlend(u, w, px)(y)
    {
      BlendMonotone(RowOf(t, y), RowOf(u, y), w, px);
    }
    BlendMonotone(RowBlend(t, w, px), RowBlend(u, w, px), h, py);
  }

  lemma TimesMonotone(m: real, a: real, b: real)
    requires m >= 0.0 && a <= b
    ensures Times(m, a) <= Times(m, b)
  {
    NotNegative(m, b - a);
  }

  lemma {:induction false} BlendMonotone(f: int -> real, g: int -> real, n: nat, p: real)
    requires forall i :: 0 <= i < n ==> f(i) <= g(i)
    ensures Blend(f, n, p) <= Blend(g, n, p)
  {
    hide Tent, Times;
    if n > 0 {
      BlendMonotone(f, g, n - 1, p);
      TimesMonotone(Tent(p - (n - 1) as real - 0.5), f(n - 1), g(n - 1));
    }
  }

  // Outside the source's guard nothing is seen.
  lemma Unseen(t: Texture, w: nat, h: nat, px: real, py: real)
    requires var qx, qy := px + 0.5, py + 0.5;
             !(qx > 0.0 && qy > 0.0 && Truncate(qx) <= w && Truncate(qy) <= h)
    ensures Filtered(t, w, h, px, py) == 0.0
  {
    hide Filtered, WeightsAt, Fract, Truncate;
    FourTaps(t, w, h, px, py);
    Missed(px + 0.5, w);
    Missed(py + 0.5, h);
    NoWeight(Fract(px + 0.5), Fract(py + 0.5));
  }

  // The guard fails in a direction because neither index there is in range, or because the
  // place is on the very edge.
  lemma Missed(q: real, n: nat)
    ensures !(q > 0.0 && Truncate(q) <= n) ==> q.Floor < 0 || q.Floor - 1 >= n || (q.Floor == 0 && Fract(q) == 0.0)
  {
  }

  lemma NoWeight(fx: real, fy: real)
    ensures fx == 0.0 ==> WeightsAt(fx, fy).here == 0.0 && WeightsAt(fx, fy).above == 0.0
    ensures fy == 0.0 ==> WeightsAt(fx, fy).here == 0.0 && WeightsAt(fx, fy).left == 0.0
  {
  }

  // ---- The images ----

  // (int) q
  function Truncate(q: real): int {
    if q >= 0.0 then q.Floor else -((-q).Floor)
  }

  // fvals holds R, G, B, A.
  function FvalChan(j: nat): nat {
    if j == 0 then R else if j == 1 then G else if j == 2 then B else A
  }

  // The texture of each of the four values.
  type Source = nat -> Texture

  function Packed(img: seq<pixel>, w: nat, h: nat, scan: nat): Source {
    (j: nat) => (y: int, x: int) =>
      if 0 <= y < h && 0 <= x < w && At(y, x, scan) < |img| then Chan(img[At(y, x, scan)], FvalChan(j)) as real else 0.0
  }

  function Floats(texels: seq<real>, w: nat, h: nat, scan: nat): Source {
    (j: nat) => (y: int, x: int) =>
      if 0 <= y < h && 0 <= x < w && 4 * At(y, x, scan) + j < |texels| then texels[4 * At(y, x, scan) + j] else 0.0
  }

  // A tap has added its texel, times m, to the four values.
  ghost predicate Gain(before: seq<real>, after: seq<real>, src: Source, w: nat, h: nat, y: int, x: int, m: real) {
    && |before| == 4 && |after| == 4
    && forall j: nat :: j < 4 ==> after[j] == before[j] + Times(Texel(src(j), w, h, y, x), m)
  }

  lemma FourGains(s0: seq<real>, s1: seq<real>, s2: seq<real>, s3: seq<real>, s4: seq<real>, src: Source,
                  w: nat, h: nat, iy: int, ix: int, v: Weights, f: real)
    requires Gain(s0, s1, src, w, h, iy, ix, Times(v.here, f)) && Gain(s1, s2, src, w, h, iy, ix - 1, Times(v.left, f))
    requires Gain(s2, s3, src, w, h, iy - 1, ix, Times(v.above, f))
    requires Gain(s3, s4, src, w, h, iy - 1, ix - 1, Times(v.corner, f))
    ensures |s4| == 4 && |s0| == 4
    ensures forall j: nat :: j < 4 ==> s4[j] == s0[j] + Taps(src(j), w, h, iy, ix, v) * f
  {
    hide Texel, Times;
    forall j: nat | j < 4
      ensures s4[j] == s0[j] + Taps(src(j), w, h, iy, ix, v) * f
    {
      var t := src(j);
      Scaled(Texel(t, w, h, iy, ix), Texel(t, w, h, iy, ix - 1), Texel(t, w, h, iy - 1, ix),
             Texel(t, w, h, iy - 1, ix - 1), v, f);
    }
  }

  lemma Scaled(a: real, b: real, c: real, d: real, v: Weights, f: real)
    ensures Times(a, Times(v.here, f)) + Times(b, Times(v.left, f)) +
            Times(c, Times(v.above, f)) + Times(d, Times(v.corner, f)) ==
            (Times(a, v.here) + Times(b, v.left) + Times(c, v.above) + Times(d, v.corner)) * f
  {
  }

  // The four values are those of the filter at (px, py), times f.
  ghost predicate Sampled(before: seq<real>, after: seq<real>, src: Source, w: nat, h: nat, px: real, py: real,
                          f: real)
  {
    && |before| == 4 && |after| == 4
    && forall j: nat :: j < 4 ==> after[j] == before[j] + Filtered(src(j), w, h, px, py) * f
  }

  lemma TapsSample(s0: seq<real>, s4: seq<real>, src: Source, w: nat, h: nat, px: real, py: real, f: real)
    requires |s0| == 4 && |s4| == 4
    requires var qx, qy := px + 0.5, py + 0.5;
             forall j: nat :: j < 4 ==>
               s4[j] == s0[j] + Taps(src(j), w, h, qy.Floor, qx.Floor, WeightsAt(Fract(qx), Fract(qy))) * f
    ensures Sampled(s0, s4, src, w, h, px, py, f)
  {
    hide Filtered, Taps, WeightsAt, Fract;
    forall j: nat | j < 4
      ensures s4[j] == s0[j] + Filtered(src(j), w, h, px, py) * f
    {
      FourTaps(src(j), w, h, px, py);
    }
  }

  lemma NothingSampled(s0: seq<real>, src: Source, w: nat, h: nat, px: real, py: real, f: real)
    requires |s0| == 4
    requires var qx, qy := px + 0.5, py + 0.5;
             !(qx > 0.0 && qy > 0.0 && Truncate(qx) <= w && Truncate(qy) <= h)
    ensures Sampled(s0, s0, src, w, h, px, py, f)
  {
    hide Filtered, Truncate;
    forall j: nat | j < 4
      ensures s0[j] == s0[j] + Filtered(src(j), w, h, px, py) * f
    {
      Unseen(src(j), w, h, px, py);
    }
  }

  // Where the taps lie in the buffer: none that is taken is outside the image.
  lemma TapOffsets(n: nat, w: nat, h: nat, scan: nat, iy: nat, ix: nat)
    requires Fits(n, w, h, scan) && iy <= h && ix <= w
    ensures iy < h && ix < w ==> At(iy, ix, scan) < n
    ensures iy < h && ix > 0 ==> At(iy, ix - 1, scan) == At(iy, ix, scan) - 1 < n
    ensures iy > 0 && ix < w ==> At(iy - 1, ix, scan) == At(iy, ix, scan) - scan < n
    ensures iy > 0 && ix > 0 ==> At(iy - 1, ix - 1, scan) == At(iy, ix, scan) - scan - 1 < n
  {
    if iy < h && ix < w { AtInside(n, w, h, scan, iy, ix); }
    if iy < h && ix > 0 { AtInside(n, w, h, scan, iy, ix - 1); }
    if iy > 0 && ix < w { AtInside(n, w, h, scan, iy - 1, ix); }
    if iy > 0 && ix > 0 { AtInside(n, w, h, scan, iy - 1, ix - 1); }
  }

  // ---- The samplers ----

  // laccum
  method LAccum(img: array<pixel>, offset: nat, mul0: real, fvals: array<real>,
                ghost w: nat, ghost h: nat, ghost scan: nat, ghost y: nat, ghost x: nat, ghost m: real)
    requires m == mul0 / 255.0
    requires fvals.Length == 4 && y < h && x < w && offset == At(y, x, scan) < img.Length
    modifies fvals
    ensures Gain(old(fvals[..]), fvals[..], Packed(img[..], w, h, scan), w, h, y, x, m)
  {
    var mul := mul0 / 255.0;
    var pixel := img[offset];
    fvals[0] := fvals[0] + Times(Chan(pixel, R) as real, mul);
    fvals[1] := fvals[1] + Times(Chan(pixel, G) as real, mul);
    fvals[2] := fvals[2] + Times(Chan(pixel, B) as real, mul);
    fvals[3] := fvals[3] + Times(Chan(pixel, A) as real, mul);
    hide Chan, Times, At;
  }

  // faccum
  method FAccum(texels: array<real>, offset: nat, fract: real, fvals: array<real>,
                ghost w: nat, ghost h: nat, ghost scan: nat, ghost y: nat, ghost x: nat, ghost m: real)
    requires m == fract
    requires texels != fvals && fvals.Length == 4 && y < h && x < w && offset == 4 * At(y, x, scan)
    requires offset + 4 <= texels.Length
    modifies fvals
    ensures Gain(old(fvals[..]), fvals[..], Floats(texels[..], w, h, scan), w, h, y, x, m)
  {
    hide Times, At;
    fvals[0] := fvals[0] + Times(texels[offset], fract);
    fvals[1] := fvals[1] + Times(texels[offset + 1], fract);
    fvals[2] := fvals[2] + Times(texels[offset + 2], fract);
    fvals[3] := fvals[3] + Times(texels[offset + 3], fract);
  }

  method Zero(fvals: array<real>)
    requires fvals.Length == 4
    modifies fvals
    ensures fvals[..] == [0.0, 0.0, 0.0, 0.0]
  {
    fvals[0], fvals[1], fvals[2], fvals[3] := 0.0, 0.0, 0.0, 0.0;
  }

  // The box of taps of lsample and laccumsample, with the weights times factor.
  method Box(img: array<pixel>, offset: nat, iy: nat, ix: nat, fx: real, fy: real, w: nat, h: nat, scan: nat,
             factor: real, fvals: array<real>)
    requires fvals.Length == 4 && Fits(img.Length, w, h, scan) && iy <= h && ix <= w && offset == At(iy, ix, scan)
    modifies fvals
    ensures fvals.Length == 4
    ensures forall j: nat :: j < 4 ==>
              fvals[j] == old(fvals[j]) +
                          Taps(Packed(img[..], w, h, scan)(j), w, h, iy, ix, WeightsAt(fx, fy)) * (factor / 255.0)
  {
    hide *;
    ghost var px := img[..];
    ghost var src, v := Packed(px, w, h, scan), WeightsAt(fx, fy);
    ghost var f := factor / 255.0;
    TapOffsets(img.Length, w, h, scan, iy, ix);
    WeightsScaled(fx, fy, factor);
    var fract := fx * fy;
    ghost var s0 := fvals[..];
    NoTaps(s0, src, w, h, iy, ix, Times(v.here, f));
    if iy < h && ix < w {
      LAccum(img, offset, fract * factor, fvals, w, h, scan, iy, ix, Times(v.here, f));
    }
    ghost var s1 := fvals[..];
    NoTaps(s1, src, w, h, iy, ix - 1, Times(v.left, f));
    if iy < h && ix > 0 {
      LAccum(img, offset - 1, (fy - fract) * factor, fvals, w, h, scan, iy, ix - 1, Times(v.left, f));
    }
    ghost var s2 := fvals[..];
    NoTaps(s2, src, w, h, iy - 1, ix, Times(v.above, f));
    if iy > 0 && ix < w {
      LAccum(img, offset - scan, (fx - fract) * factor, fvals, w, h, scan, iy - 1, ix, Times(v.above, f));
    }
    ghost var s3 := fvals[..];
    NoTaps(s3, src, w, h, iy - 1, ix - 1, Times(v.corner, f));
    if iy > 0 && ix > 0 {
      LAccum(img, offset - scan - 1, (1.0 - fx - fy + fract) * factor, fvals, w, h, scan, iy - 1, ix - 1,
             Times(v.corner, f));
    }
    FourGains(s0, s1, s2, s3, fvals[..], src, w, h, iy, ix, v, f);
  }

  // A tap that is not taken would have added nothing.
  lemma NoTaps(fv: seq<real>, src: Source, w: nat, h: nat, y: int, x: int, m: real)
    requires |fv| == 4
    ensures !(0 <= y < h && 0 <= x < w) ==> Gain(fv, fv, src, w, h, y, x, m)
  {
  }

  lemma WeightsScaled(fx: real, fy: real, factor: real)
    ensures var v, f, fract := WeightsAt(fx, fy), factor / 255.0, fx * fy;
            && Times(v.here, f) == fract * factor / 255.0 && Times(v.left, f) == (fy - fract) * factor / 255.0
            && Times(v.above, f) == (fx - fract) * factor / 255.0
            && Times(v.corner, f) == (1.0 - fx - fy + fract) * factor / 255.0
  {
  }

  // The box of taps of fsample.
  method FloatBox(texels: array<real>, offset: nat, iy: nat, ix: nat, fx: real, fy: real, w: nat, h: nat, scan: nat,
                  fvals: array<real>)
    requires texels != fvals && fvals.Length == 4 && iy <= h && ix <= w && offset == 4 * At(iy, ix, scan)
    requires Fits(texels.Length / 4, w, h, scan)
    modifies fvals
    ensures forall j: nat :: j < 4 ==>
              fvals[j] == old(fvals[j]) + Taps(Floats(texels[..], w, h, scan)(j), w, h, iy, ix, WeightsAt(fx, fy)) * 1.0
  {
    hide *;
    ghost var px := texels[..];
    ghost var src, v := Floats(px, w, h, scan), WeightsAt(fx, fy);
    TapOffsets(texels.Length / 4, w, h, scan, iy, ix);
    WeightsScaled(fx, fy, 255.0);
    var fract := fx * fy;
    ghost var s0 := fvals[..];
    NoTaps(s0, src, w, h, iy, ix, Times(v.here, 1.0));
    if iy < h && ix < w {
      FAccum(texels, offset, fract, fvals, w, h, scan, iy, ix, Times(v.here, 1.0));
      assert texels[..] == px;
    }
    ghost var s1 := fvals[..];
    NoTaps(s1, src, w, h, iy, ix - 1, Times(v.left, 1.0));
    if iy < h && ix > 0 {
      FAccum(texels, offset - 4, fy - fract, fvals, w, h, scan, iy, ix - 1, Times(v.left, 1.0));
      assert texels[..] == px;
    }
    ghost var s2 := fvals[..];
    NoTaps(s2, src, w, h, iy - 1, ix, Times(v.above, 1.0));
    if iy > 0 && ix < w {
      FAccum(texels, offset - scan * 4, fx - fract, fvals, w, h, scan, iy - 1, ix, Times(v.above, 1.0));
      assert texels[..] == px;
    }
    ghost var s3 := fvals[..];
    NoTaps(s3, src, w, h, iy - 1, ix - 1, Times(v.corner, 1.0));
    if iy > 0 && ix > 0 {
      FAccum(texels, offset - scan * 4 - 4, 1.0 - fx - fy + fract, fvals, w, h, scan, iy - 1, ix - 1,
             Times(v.corner, 1.0));
      assert texels[..] == px;
    }
    FourGains(s0, s1, s2, s3, fvals[..], src, w, h, iy, ix, v, 1.0);
  }

  // Past the guard the truncations are floors, and both indices may point one past the end.
  lemma Guarded(q: real, n: nat)
    requires q > 0.0 && Truncate(q) <= n
    ensures 0 <= Truncate(q) <= n && Truncate(q) == q.Floor && q - Truncate(q) as real == Fract(q)
  {
  }

  // lsample
  method LSample(img: array<pixel>, floc_x: real, floc_y: real, w: nat, h: nat, scan: nat, fvals: array<real>)
    requires fvals.Length == 4 && Fits(img.Length, w, h, scan)
    modifies fvals
    ensures Sampled([0.0, 0.0, 0.0, 0.0], fvals[..], Packed(img[..], w, h, scan), w, h,
                    floc_x * w as real, floc_y * h as real, 1.0 / 255.0)
  {
    hide *;
    Zero(fvals);
    Accumulate(img, floc_x * w as real, floc_y * h as real, w, h, scan, 1.0, fvals);
  }

  // laccumsample
  method LAccumSample(img: array<pixel>, fpix_x: real, fpix_y: real, w: nat, h: nat, scan: nat, factor0: real,
                      fvals: array<real>)
    requires fvals.Length == 4 && Fits(img.Length, w, h, scan)
    modifies fvals
    ensures Sampled(old(fvals[..]), fvals[..], Packed(img[..], w, h, scan), w, h, fpix_x, fpix_y, factor0)
  {
    hide *;
    var factor := factor0 * 255.0;
    Accumulate(img, fpix_x, fpix_y, w, h, scan, factor, fvals);
  }

  // The body lsample and laccumsample share, at pixel coordinates.
  method Accumulate(img: array<pixel>, px: real, py: real, w: nat, h: nat, scan: nat, factor: real, fvals: array<real>)
    requires fvals.Length == 4 && Fits(img.Length, w, h, scan)
    modifies fvals
    ensures Sampled(old(fvals[..]), fvals[..], Packed(img[..], w, h, scan), w, h, px, py, factor / 255.0)
  {
    hide *;
    var floc_x, floc_y := px + 0.5, py + 0.5;
    var iloc_x, iloc_y := Truncate(floc_x), Truncate(floc_y);
    ghost var s0, src := fvals[..], Packed(img[..], w, h, scan);
    if floc_x > 0.0 && floc_y > 0.0 && iloc_x <= w && iloc_y <= h {
      Guarded(floc_x, w);
      Guarded(floc_y, h);
      var offset := At(iloc_y, iloc_x, scan);
      Box(img, offset, iloc_y, iloc_x, floc_x - iloc_x as real, floc_y - iloc_y as real, w, h, scan, factor, fvals);
      TapsSample(s0, fvals[..], src, w, h, px, py, factor / 255.0);
    } else {
      NothingSampled(s0, src, w, h, px, py, factor / 255.0);
    }
  }

  // fsample
  method FSample(texels: array<real>, floc_x: real, floc_y: real, w: nat, h: nat, scan: nat, fvals: array<real>)
    requires texels != fvals && fvals.Length == 4 && Fits(texels.Length / 4, w, h, scan)
    modifies fvals
    ensures Sampled([0.0, 0.0, 0.0, 0.0], fvals[..], Floats(texels[..], w, h, scan), w, h,
                    floc_x * w as real, floc_y * h as real, 1.0)
  {
    hide *;
    Zero(fvals);
    var px, py := floc_x * w as real, floc_y * h as real;
    var qx, qy := px + 0.5, py + 0.5;
    var iloc_x, iloc_y := Truncate(qx), Truncate(qy);
    ghost var s0, src := fvals[..], Floats(texels[..], w, h, scan);
    if qx > 0.0 && qy > 0.0 && iloc_x <= w && iloc_y <= h {
      Guarded(qx, w);
      Guarded(qy, h);
      var offset := 4 * At(iloc_y, iloc_x, scan);
      FloatBox(texels, offset, iloc_y, iloc_x, qx - iloc_x as real, qy - iloc_y as real, w, h, scan, fvals);
      TapsSample(s0, fvals[..], src, w, h, px, py, 1.0);
    } else {
      NothingSampled(s0, src, w, h, px, py, 1.0);
    }
  }

  // laccumsample adds 255 * factor times what lsample gives at the matching point.
  lemma SamplersAgree(s: seq<real>, zero: seq<real>, acc: seq<real>, sampled: seq<real>, src: Source, w: nat, h: nat,
                      floc_x: real, floc_y: real, factor: real)
    requires zero == [0.0, 0.0, 0.0, 0.0]
    requires Sampled(zero, sampled, src, w, h, floc_x * w as real, floc_y * h as real, 1.0 / 255.0)
    requires Sampled(s, acc, src, w, h, floc_x * w as real, floc_y * h as real, factor)
    ensures forall j: nat :: j < 4 ==> acc[j] == s[j] + 255.0 * factor * sampled[j]
  {
    hide Filtered;
    forall j: nat | j < 4
      ensures acc[j] == s[j] + 255.0 * factor * sampled[j]
    {
      var v := Filtered(src(j), w, h, floc_x * w as real, floc_y * h as real);
      assert sampled[j] == v / 255.0;
      assert v * factor == 255.0 * factor * (v / 255.0);
    }
  }

  // At the centre of a pixel lsample gives its red, green, blue and alpha as parts of 255.
  lemma CentrePixel(img: seq<pixel>, w: nat, h: nat, scan: nat, y: nat, x: nat, floc_x: real, floc_y: real,
                    fvals: seq<real>)
    requires Fits(|img|, w, h, scan) && y < h && x < w
    requires floc_x * w as real == x as real + 0.5 && floc_y * h as real == y as real + 0.5
    requires Sampled([0.0, 0.0, 0.0, 0.0], fvals, Packed(img, w, h, scan), w, h,
                     floc_x * w as real, floc_y * h as real, 1.0 / 255.0)
    ensures At(y, x, scan) < |img| && |fvals| == 4
    ensures var p := img[At(y, x, scan)];
            && fvals[0] * 255.0 == Chan(p, R) as real && fvals[1] * 255.0 == Chan(p, G) as real
            && fvals[2] * 255.0 == Chan(p, B) as real && fvals[3] * 255.0 == Chan(p, A) as real
  {
    hide Filtered, Chan;
    AtInside(|img|, w, h, scan, y, x);
    forall j: nat | j < 4
      ensures fvals[j] * 255.0 == Packed(img, w, h, scan)(j)(y, x)
    {
      TexelCentre(Packed(img, w, h, scan)(j), w, h, y, x);
    }
  }

  // And fsample gives the four floats of the texel.
  lemma CentreTexel(texels: seq<real>, w: nat, h: nat, scan: nat, y: nat, x: nat, floc_x: real, floc_y: real,
                    fvals: seq<real>)
    requires Fits(|texels| / 4, w, h, scan) && y < h && x < w
    requires floc_x * w as real == x as real + 0.5 && floc_y * h as real == y as real + 0.5
    requires Sampled([0.0, 0.0, 0.0, 0.0], fvals, Floats(texels, w, h, scan), w, h,
                     floc_x * w as real, floc_y * h as real, 1.0)
    ensures 4 * At(y, x, scan) + 4 <= |texels| && fvals == texels[4 * At(y, x, scan)..4 * At(y, x, scan) + 4]
  {
    hide Filtered;
    AtInside(|texels| / 4, w, h, scan, y, x);
    forall j: nat | j < 4
      ensures fvals[j] == Floats(texels, w, h, scan)(j)(y, x)
    {
      TexelCentre(Floats(texels, w, h, scan)(j), w, h, y, x);
    }
  }

  // A sample of a packed image is a fraction of full intensity, and no colour exceeds the
  // alpha where every pixel is premultiplied.
  lemma SampleRange(img: seq<pixel>, w: nat, h: nat, scan: nat, px: real, py: real, j: nat)
    requires j < 4
    ensures 0.0 <= Filtered(Packed(img, w, h, scan)(j), w, h, px, py) <= 255.0
    ensures (forall i :: 0 <= i < |img| ==> Chan(img[i], FvalChan(j)) <= Chan(img[i], A)) ==>
              Filtered(Packed(img, w, h, scan)(j), w, h, px, py) <= Filtered(Packed(img, w, h, scan)(3), w, h, px, py)
  {
    hide Filtered, Chan, At;
    var t, u := Packed(img, w, h, scan)(j), Packed(img, w, h, scan)(3);
    Within(t, w, h, px, py, 255.0);
    if forall i :: 0 <= i < |img| ==> Chan(img[i], FvalChan(j)) <= Chan(img[i], A) {
      FilterMonotone(t, u, w, h, px, py);
    }
  }
}
