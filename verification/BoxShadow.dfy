// SSEBoxShadowPeer.cc: shadows from the running sum of the alphas, with a spread that
// moves the sum at which the shadow is full, and a colour.

module BoxShadow {
  import opened Grids
  import opened Pixels
  import opened BoxBlur

  type fraction = f: real | 0.0 <= f <= 1.0

  // A part of n, truncated.
  function Part(n: nat, f: fraction): (m: nat)
    ensures m <= n && m as real <= n as real * f < m as real + 1.0
    ensures f == 1.0 ==> m == n
    ensures f == 0.0 ==> m == 0
  {
    assert 0.0 <= n as real * f <= n as real;
    (n as real * f).Floor
  }

  lemma PartMonotone(n: nat, f: fraction, g: fraction)
    requires f <= g
    ensures Part(n, f) <= Part(n, g)
  {
    assert n as real * (g - f) >= 0.0;
  }

  // The sum of an opaque window, less a part of what it is above 255. C truncates the product,
  // which is negative there, towards zero.
  function AMax(h: nat, spread: fraction): (m: nat)
    requires SizeOk(h)
    ensures 255 <= m <= 255 * h
  {
    255 * h - Part(255 * h - 255, spread)
  }

  // The largest factor that keeps all products below amax in an int.
  function KScale(amax: nat): (k: nat)
    requires 255 <= amax <= INT_MAX
    ensures k * amax <= INT_MAX < k * amax + amax
  {
    INT_MAX / amax
  }

  lemma Cancel(a: nat, b: nat, m: nat)
    requires a * m < b * m + m
    ensures a <= b
  {
    assert (a - b - 1) * m == a * m - b * m - m;
    NegativeProduct(a - b - 1, m);
  }

  lemma NegativeProduct(t: int, m: nat)
    requires t * m < 0
    ensures t < 0
  {
  }

  // The sum clamped below amin, full from amax, scaled between.
  function ShadowAlpha(sum: nat, amax: nat): (a: channel)
    requires 255 <= amax <= INT_MAX
  {
    if sum < amax / 255 then 0
    else if sum >= amax then 255
    else
      ShadowProduct(sum, amax);
      sum * KScale(amax) / 0x80_0000
  }

  // The product is evaluated only where it fits.
  lemma ShadowProduct(sum: nat, amax: nat)
    requires 255 <= amax <= INT_MAX && sum < amax
    ensures 0 <= sum * KScale(amax) <= INT_MAX
    ensures 0 <= sum * KScale(amax) / 0x80_0000 < 256
  {
    TimesMonotone(sum, amax, KScale(amax), KScale(amax));
  }

  // The spread takes its part of what an opaque window has above 255, up to a rounding up.
  lemma SpreadPart(h: nat, spread: fraction)
    requires SizeOk(h)
    ensures var m := 255.0 * h as real - (255.0 * h as real - 255.0) * spread;
            m <= AMax(h, spread) as real < m + 1.0
  {
    assert (255 * h - 255) as real == 255.0 * h as real - 255.0;
  }

  // Up to amax = 2^23 the shadow is the sum as a part of amax, in 255ths and rounded down, or
  // that plus one.
  lemma ShadowAverage(sum: nat, amax: nat)
    requires 255 <= amax <= 0x80_0000 && sum <= amax
    ensures Share(sum, amax) <= ShadowAlpha(sum, amax) <= Share(sum, amax) + 1
  {
    hide ShadowAlpha, Share;
    ShareBetween(sum, amax);
    ShadowAbout(sum, amax, Share(sum, amax));
  }

  // sum of amax, in 255ths.
  function Share(sum: nat, amax: nat): nat
    requires amax > 0
  {
    255 * sum / amax
  }

  lemma ShareBetween(sum: nat, amax: nat)
    requires amax > 0
    ensures Share(sum, amax) * amax <= sum * 255 < (Share(sum, amax) + 1) * amax
  {
    Quotient(255 * sum, amax);
  }

  lemma ShadowAbout(sum: nat, amax: nat, q: nat)
    requires 255 <= amax <= 0x80_0000 && sum <= amax && q * amax <= sum * 255 < (q + 1) * amax
    ensures q <= ShadowAlpha(sum, amax) <= q + 1
  {
    hide KScale;
    if sum < amax / 255 {
      Quotient(amax, 255);
      NoMultiple(q, amax, sum * 255);
    } else if sum == amax {
      Between255(q, amax);
    } else {
      var k := KScale(amax);
      Quotient(sum * k, 0x80_0000);
      BelowFull(sum, amax, q);
      ShadowLower(sum, amax, k, q, sum * k / 0x80_0000);
      ShadowUpper(sum, amax, k, q, sum * k / 0x80_0000);
    }
  }

  lemma NoMultiple(q: nat, amax: nat, n: nat)
    requires q * amax <= n < amax
    ensures q == 0
  {
    if q > 0 {
      TimesMonotone(1, q, amax, amax);
    }
  }

  lemma Between255(q: nat, amax: nat)
    requires q * amax <= amax * 255 < (q + 1) * amax
    ensures q == 255
  {
    if q > 255 {
      TimesMonotone(256, q, amax, amax);
    } else {
      TimesMonotone(q + 1, 256, amax, amax);
      if q < 255 {
        TimesMonotone(q + 1, 255, amax, amax);
      }
    }
  }

  lemma BelowFull(sum: nat, amax: nat, q: nat)
    requires sum < amax && q * amax <= sum * 255
    ensures q < 255
  {
    if q >= 255 {
      TimesMonotone(255, q, amax, amax);
    }
  }

  lemma ShadowLower(sum: nat, amax: nat, k: nat, q: nat, v: nat)
    requires 0 < amax <= 0x80_0000 && INT_MAX < k * amax + amax && q * amax <= sum * 255
    requires sum * k < (v + 1) * 0x80_0000
    ensures q <= v
  {
    // k * amax >= 255 * 2^23, so that sum * k * amax >= q * 2^23 * amax
    TimesMonotone(255 * 0x80_0000, k * amax, sum, sum);
    TimesMonotone(q * amax, sum * 255, 0x80_0000, 0x80_0000);
    assert k * amax * sum == sum * k * amax && q * amax * 0x80_0000 == q * 0x80_0000 * amax;
    NotMore(q * 0x80_0000, sum * k, amax);
  }

  lemma NotMore(a: nat, b: nat, m: nat)
    requires m > 0 && a * m <= b * m
    ensures a <= b
  {
    Cancel(a, b, m);
  }

  lemma ShadowUpper(sum: nat, amax: nat, k: nat, q: nat, v: nat)
    requires 0 < amax && k * amax <= INT_MAX && sum * 255 < (q + 1) * amax && q < 255
    requires v * 0x80_0000 <= sum * k
    ensures v <= q + 1
  {
    // sum * k * 255 < (q + 1) * amax * k <= (q + 1) * 2^31, and 256 * (q + 1) <= 255 * (q + 2)
    TimesMonotone(sum * 255, (q + 1) * amax, k, k);
    TimesMonotone(q + 1, q + 1, k * amax, INT_MAX);
    assert sum * 255 * k == 255 * (sum * k) && (q + 1) * amax * k == (q + 1) * (k * amax);
  }

  // For every amax, what the fixed point of a sum between the two ends is.
  lemma ShadowBounds(sum: nat, amax: nat)
    requires 255 <= amax <= INT_MAX && amax / 255 <= sum < amax
    ensures ShadowAlpha(sum, amax) * 0x80_0000 * amax <= sum * INT_MAX
    ensures sum * (INT_MAX - amax) < (ShadowAlpha(sum, amax) + 1) * 0x80_0000 * amax
  {
    hide KScale, ShadowAlpha;
    AlphaBetween(sum, amax);
    BoundsBetween(sum, amax, KScale(amax), ShadowAlpha(sum, amax));
  }

  lemma AlphaBetween(sum: nat, amax: nat)
    requires 255 <= amax <= INT_MAX && amax / 255 <= sum < amax
    ensures ShadowAlpha(sum, amax) * 0x80_0000 <= sum * KScale(amax) < (ShadowAlpha(sum, amax) + 1) * 0x80_0000
  {
    hide KScale;
    Quotient(sum * KScale(amax), 0x80_0000);
  }

  // filterHorizontalBlack, filterVerticalBlack: the pixel of a sum.
  function BlackPixel(sum: nat, amax: nat): pixel
    requires 255 <= amax <= INT_MAX
  {
    Pack(ShadowAlpha(sum, amax), 0, 0, 0)
  }

  lemma AlphaMonotoneInSum(s: nat, t: nat, amax: nat)
    requires 255 <= amax <= INT_MAX && s <= t
    ensures ShadowAlpha(s, amax) <= ShadowAlpha(t, amax)
  {
    TimesMonotone(s, t, KScale(amax), KScale(amax));
    hide KScale;
    if t < amax {
      ShadowProduct(t, amax);
    }
  }

  lemma AlphaMonotoneInMax(sum: nat, m: nat, n: nat)
    requires 255 <= m <= n <= INT_MAX
    ensures ShadowAlpha(sum, n) <= ShadowAlpha(sum, m)
  {
    QuotientMonotone(m, n);
    hide KScale;
    TimesMonotone(sum, sum, KScale(n), KScale(m));
    assert sum * KScale(n) <= sum * KScale(m);
    if sum < m {
      ShadowProduct(sum, m);
    }
  }

  lemma QuotientMonotone(m: nat, n: nat)
    requires 255 <= m <= n <= INT_MAX
    ensures KScale(n) <= KScale(m) && m / 255 <= n / 255
  {
    TimesMonotone(KScale(n), KScale(n), m, n);
    Cancel(KScale(n), KScale(m), m);
  }

  lemma AMaxMonotone(h: nat, f: fraction, g: fraction)
    requires SizeOk(h) && f <= g
    ensures AMax(h, g) <= AMax(h, f)
  {
    PartMonotone(255 * h - 255, f, g);
  }

  // A black shadow gets nowhere fainter when the spread grows or the source gets more opaque.
  lemma ShadowMonotone(l: Line, l': Line, x: int, h: nat, f: fraction, g: fraction)
    requires l.Valid() && l'.Valid() && SizeOk(h) && f <= g
    requires forall j: int :: l.Sample(A, j) <= l'.Sample(A, j)
    ensures ShadowAlpha(Window(l, A, x, h), AMax(h, f)) <= ShadowAlpha(Window(l', A, x, h), AMax(h, g))
  {
    WindowMonotone(l, A, l', A, x, h);
    AMaxMonotone(h, f, g);
    AlphaMonotoneInSum(Window(l, A, x, h), Window(l', A, x, h), AMax(h, f));
    AlphaMonotoneInMax(Window(l', A, x, h), AMax(h, g), AMax(h, f));
  }

  // With spread 1 the shadow is full wherever the window holds 255 of alpha in all.
  lemma FullSpread(sum: nat, h: nat)
    requires SizeOk(h)
    ensures AMax(h, 1.0) == 255
    ensures ShadowAlpha(sum, AMax(h, 1.0)) == 255 <==> sum >= 255
  {
  }

  // ---- Colour ----

  datatype Colour = Colour(r: fraction, g: fraction, b: fraction, a: fraction) {
    predicate Premultiplied() {
      r <= a && g <= a && b <= a
    }
  }

  const BLACK := Colour(0.0, 0.0, 0.0, 1.0)

  // One channel of filterVertical's pixel: kscalea times the component, truncated, then
  // the fixed point of the sum.
  function ShadowChannel(sum: nat, amax: nat, c: fraction): (v: channel)
    requires 255 <= amax <= INT_MAX
  {
    if sum < amax / 255 then 0
    else if sum >= amax then Part(255, c)
    else
      ChannelProduct(sum, amax, c);
      sum * ScaleOf(amax, c) / 0x80_0000
  }

  function ScaleOf(amax: nat, c: fraction): (k: nat)
    requires 255 <= amax <= INT_MAX
    ensures k <= KScale(amax)
  {
    Part(KScale(amax), c)
  }

  lemma ChannelProduct(sum: nat, amax: nat, c: fraction)
    requires 255 <= amax <= INT_MAX && sum < amax
    ensures 0 <= sum * ScaleOf(amax, c) <= INT_MAX
    ensures 0 <= sum * ScaleOf(amax, c) / 0x80_0000 < 256
  {
    ShadowProduct(sum, amax);
    TimesMonotone(sum, sum, ScaleOf(amax, c), KScale(amax));
  }

  function ColourPixel(sum: nat, amax: nat, c: Colour): pixel
    requires 255 <= amax <= INT_MAX
  {
    Pack(ShadowChannel(sum, amax, c.a), ShadowChannel(sum, amax, c.r), ShadowChannel(sum, amax, c.g),
         ShadowChannel(sum, amax, c.b))
  }

  // Opaque black is what filterVerticalBlack writes.
  lemma BlackIsBlack(sum: nat, amax: nat)
    requires 255 <= amax <= INT_MAX
    ensures ColourPixel(sum, amax, BLACK) == BlackPixel(sum, amax)
  {
    assert ScaleOf(amax, 1.0) == KScale(amax);
    assert ScaleOf(amax, 0.0) == 0;
  }

  lemma ChannelMonotone(sum: nat, amax: nat, c: fraction, d: fraction)
    requires 255 <= amax <= INT_MAX && c <= d
    ensures ShadowChannel(sum, amax, c) <= ShadowChannel(sum, amax, d)
  {
    PartMonotone(KScale(amax), c, d);
    PartMonotone(255, c, d);
    TimesMonotone(sum, sum, ScaleOf(amax, c), ScaleOf(amax, d));
    hide ScaleOf, Part;
    if sum < amax {
      ChannelProduct(sum, amax, d);
    }
  }

  // A premultiplied colour gives premultiplied pixels.
  lemma ColourPremultiplied(sum: nat, amax: nat, c: Colour)
    requires 255 <= amax <= INT_MAX && c.Premultiplied()
    ensures Premultiplied(ColourPixel(sum, amax, c))
  {
    ChannelMonotone(sum, amax, c.r, c.a);
    ChannelMonotone(sum, amax, c.g, c.a);
    ChannelMonotone(sum, amax, c.b, c.a);
    PackChan(ShadowChannel(sum, amax, c.a), ShadowChannel(sum, amax, c.r), ShadowChannel(sum, amax, c.g),
             ShadowChannel(sum, amax, c.b));
  }

  // Each channel is its component's part of the shadow, up to what truncating twice takes
  // away; no other component enters.
  lemma ChannelNear(sum: nat, amax: nat, c: fraction)
    requires 255 <= amax <= 0x80_0000
    ensures var v, alpha := ShadowChannel(sum, amax, c) as real, ShadowAlpha(sum, amax) as real;
            alpha * c - 2.0 < v <= (alpha + 1.0) * c
  {
    hide KScale, ScaleOf;
    if amax / 255 <= sum < amax {
      ShadowProduct(sum, amax);
      ChannelProduct(sum, amax, c);
      ChannelBetween(sum, amax, c);
    }
  }

  lemma ChannelBetween(sum: nat, amax: nat, c: fraction)
    requires 255 <= amax <= 0x80_0000 && sum < amax
    ensures var v, alpha := sum * ScaleOf(amax, c) / 0x80_0000, sum * KScale(amax) / 0x80_0000;
            alpha as real * c - 2.0 < v as real <= (alpha as real + 1.0) * c
  {
    var k, j := KScale(amax), ScaleOf(amax, c);
    hide KScale, ScaleOf, Part;
    ShadowProduct(sum, amax);
    ChannelProduct(sum, amax, c);
    Quotient(sum * j, 0x80_0000);
    Quotient(sum * k, 0x80_0000);
    PartBetween(amax, c);
    NearBetween(sum, k, j, sum * j / 0x80_0000, sum * k / 0x80_0000, c);
  }

  lemma PartBetween(amax: nat, c: fraction)
    requires 255 <= amax <= INT_MAX
    ensures ScaleOf(amax, c) as real <= KScale(amax) as real * c < ScaleOf(amax, c) as real + 1.0
  {
  }

  lemma NearBetween(sum: nat, k: nat, j: nat, v: nat, alpha: nat, c: fraction)
    requires sum <= 0x80_0000 && j as real <= k as real * c < j as real + 1.0
    requires v * 0x80_0000 <= sum * j < (v + 1) * 0x80_0000 && alpha * 0x80_0000 <= sum * k < (alpha + 1) * 0x80_0000
    ensures alpha as real * c - 2.0 < v as real <= (alpha as real + 1.0) * c
  {
    var s, p, q := sum as real, (sum * k) as real, (sum * j) as real;
    PartOfProduct(sum, k, j, c);
    NearAbove(p, q, v as real, alpha as real, c);
    NearBelow(s, p, q, v as real, alpha as real, c);
  }

  lemma PartOfProduct(sum: nat, k: nat, j: nat, c: fraction)
    requires j as real <= k as real * c < j as real + 1.0
    ensures (sum * j) as real <= (sum * k) as real * c <= (sum * j) as real + sum as real
  {
    var s, kr, jr := sum as real, k as real, j as real;
    assert (sum * k) as real == s * kr && (sum * j) as real == s * jr;
    NotNegative(s, kr * c - jr);
    NotNegative(s, jr + 1.0 - kr * c);
    assert s * (kr * c - jr) == s * kr * c - s * jr;
    assert s * (jr + 1.0 - kr * c) == s * jr + s - s * kr * c;
  }

  lemma NotNegative(a: real, b: real)
    requires a >= 0.0 && b >= 0.0
    ensures a * b >= 0.0
  {
  }

  lemma NearAbove(p: real, q: real, v: real, alpha: real, c: fraction)
    requires q <= p * c && p <= (alpha + 1.0) * 8388608.0 && v * 8388608.0 <= q
    ensures v <= (alpha + 1.0) * c
  {
    NotNegative((alpha + 1.0) * 8388608.0 - p, c);
    assert ((alpha + 1.0) * 8388608.0 - p) * c == 8388608.0 * ((alpha + 1.0) * c) - p * c;
  }

  lemma NearBelow(s: real, p: real, q: real, v: real, alpha: real, c: fraction)
    requires s <= 8388608.0 && p * c <= q + s && alpha * 8388608.0 <= p && q < (v + 1.0) * 8388608.0
    ensures alpha * c - 2.0 < v
  {
    NotNegative(p - alpha * 8388608.0, c);
    assert (p - alpha * 8388608.0) * c == p * c - 8388608.0 * (alpha * c);
  }

  // Alpha from a, red from r, green from g and blue from b.
  lemma ColourChannels(sum: nat, amax: nat, c: Colour)
    requires 255 <= amax <= INT_MAX
    ensures var p := ColourPixel(sum, amax, c);
            && Chan(p, A) == ShadowChannel(sum, amax, c.a) && Chan(p, R) == ShadowChannel(sum, amax, c.r)
            && Chan(p, G) == ShadowChannel(sum, amax, c.g) && Chan(p, B) == ShadowChannel(sum, amax, c.b)
    ensures Chan(BlackPixel(sum, amax), A) == ShadowAlpha(sum, amax)
  {
    hide ShadowChannel, ShadowAlpha, Chan, Pack;
    PackChan(ShadowChannel(sum, amax, c.a), ShadowChannel(sum, amax, c.r), ShadowChannel(sum, amax, c.g),
             ShadowChannel(sum, amax, c.b));
    PackChan(ShadowAlpha(sum, amax), 0, 0, 0);
  }

  // ---- Is a coloured shadow monotone? ----

  // The channel just short of full shadow is no stronger than that of full shadow.
  predicate TopFits(amax: nat, c: fraction)
    requires 255 <= amax <= INT_MAX
  {
    ShadowChannel(amax - 1, amax, c) <= Part(255, c)
  }

  // Below full shadow it always is.
  lemma ScaledMonotone(s: nat, t: nat, m: nat, n: nat, c: fraction)
    requires 255 <= m <= n <= INT_MAX && s <= t < m
    ensures ShadowChannel(s, n, c) <= ShadowChannel(t, m, c)
  {
    QuotientMonotone(m, n);
    ScaleMonotone(m, n, c);
    TimesMonotone(s, t, ScaleOf(n, c), ScaleOf(m, c));
    hide ScaleOf, KScale;
    ChannelProduct(t, m, c);
    ChannelProduct(s, n, c);
  }

  lemma ScaleMonotone(m: nat, n: nat, c: fraction)
    requires 255 <= m <= n <= INT_MAX
    ensures ScaleOf(n, c) <= ScaleOf(m, c)
  {
    QuotientMonotone(m, n);
    PartGrows(KScale(n), KScale(m), c);
  }

  lemma PartGrows(m: nat, n: nat, c: fraction)
    requires m <= n
    ensures Part(m, c) <= Part(n, c)
  {
    assert (n - m) as real * c >= 0.0;
    assert n as real * c - m as real * c == (n - m) as real * c;
  }

  // One channel, of sums and spreads that grow: it does not fall if and only if it fits.
  lemma ChannelGrows(m: nat, n: nat, c: fraction)
    requires 255 <= m <= n <= INT_MAX
    ensures (forall s: nat, t: nat | s <= t :: ShadowChannel(s, n, c) <= ShadowChannel(t, m, c)) <==> TopFits(n, c)
  {
    hide ShadowChannel, Part;
    FullChannel(n, m, c);
    if TopFits(n, c) {
      forall s: nat, t: nat | s <= t ensures ShadowChannel(s, n, c) <= ShadowChannel(t, m, c) {
        ChannelGrowsBetween(s, t, m, n, c);
      }
    }
  }

  lemma FullChannel(t: nat, m: nat, c: fraction)
    requires 255 <= m <= INT_MAX && m <= t
    ensures ShadowChannel(t, m, c) == Part(255, c)
  {
  }

  lemma ChannelGrowsBetween(s: nat, t: nat, m: nat, n: nat, c: fraction)
    requires 255 <= m <= n <= INT_MAX && s <= t && TopFits(n, c)
    ensures ShadowChannel(s, n, c) <= ShadowChannel(t, m, c)
  {
    hide ShadowChannel, Part;
    if t < m {
      ScaledMonotone(s, t, m, n, c);
    } else {
      FullChannel(t, m, c);
      if s < n {
        ScaledMonotone(s, n - 1, n, n, c);
      } else {
        FullChannel(s, n, c);
      }
    }
  }

  // Opaque and absent components fit, and so does every component at spread 1.
  lemma PlainFits(amax: nat, c: fraction)
    requires 255 <= amax <= INT_MAX && (c == 0.0 || c == 1.0 || amax == 255)
    ensures TopFits(amax, c)
  {
    if c == 0.0 || c == 1.0 {
      ShadowProduct(amax - 1, amax);
    } else {
      assert KScale(255) == 8421504;
      var k := ScaleOf(255, c);
      assert k as real <= 8421504.0 * c;
      assert (254 * k / 0x80_0000) as real <= 255.0 * c;
    }
  }

  // In any case a channel falls by one at most.
  lemma ChannelFallsByOne(s: nat, t: nat, m: nat, n: nat, c: fraction)
    requires 255 <= m <= n <= INT_MAX && s <= t
    ensures ShadowChannel(s, n, c) <= ShadowChannel(t, m, c) + 1
  {
    hide ShadowChannel, Part;
    if t < m {
      ScaledMonotone(s, t, m, n, c);
    } else {
      FullChannel(t, m, c);
      if s < n {
        ScaledMonotone(s, n - 1, n, n, c);
        TopIsClose(n, c);
      } else {
        FullChannel(s, n, c);
      }
    }
  }

  lemma TopIsClose(amax: nat, c: fraction)
    requires 255 <= amax <= INT_MAX
    ensures ShadowChannel(amax - 1, amax, c) <= Part(255, c) + 1
  {
    var k, s := KScale(amax), amax - 1;
    var v := s * ScaleOf(amax, c) / 0x80_0000;
    ChannelProduct(s, amax, c);
    ScaledReal(s, k, ScaleOf(amax, c), v, c);
    assert v as real <= 256.0 * c;
    assert v < Part(255, c) + 2;
  }

  // s * k fits an int, so that part of it is below 256 times c.
  lemma ScaledReal(s: nat, k: nat, j: nat, v: nat, c: fraction)
    requires s * k <= INT_MAX && j as real <= k as real * c && v == s * j / 0x80_0000
    ensures v as real <= 256.0 * c
  {
    var sr, kr := s as real, k as real;
    assert sr * kr <= 2147483648.0;
    assert sr * j as real <= sr * (kr * c);
    assert sr * (kr * c) == (sr * kr) * c;
    assert (sr * kr) * c <= 2147483648.0 * c;
    assert v * 0x80_0000 <= s * j;
    assert v as real * 8388608.0 <= sr * j as real;
  }

  // Every alpha of the second line is at least that of the first.
  ghost predicate NoFainter(l: Line, l': Line) {
    && l.Valid() && l'.Valid()
    && forall j: int :: l.Sample(A, j) <= l'.Sample(A, j)
  }

  // A line of h pixels whose alphas add up to sum.
  function AlphaLine(sum: nat, h: nat): (l: Line)
    ensures l.Valid()
  {
    Line(seq(h, i requires 0 <= i < h => Pack(Clamped(sum - 255 * i), 0, 0, 0)), 0, 1, h)
  }

  function Clamped(v: int): channel {
    if v < 0 then 0 else if v > 255 then 255 else v
  }

  lemma AlphaLineAt(sum: nat, h: nat, i: int)
    ensures AlphaLine(sum, h).Sample(A, i) == if 0 <= i < h then Clamped(sum - 255 * i) else 0
  {
    hide Pack, Chan;
    if 0 <= i < h {
      PackChan(Clamped(sum - 255 * i), 0, 0, 0);
    }
  }

  lemma {:induction false} AlphaLineWindow(sum: nat, h: nat, m: nat)
    requires sum <= 255 * h && m <= h
    ensures var before := sum - 255 * (h - m);
            Window(AlphaLine(sum, h), A, h - 1, m) == if before < 0 then 0 else before
  {
    hide AlphaLine;
    if m > 0 {
      AlphaLineWindow(sum, h, m - 1);
      AlphaLineAt(sum, h, h - m);
    }
  }

  // One channel of the coloured filter, over every pair of lines: it is non-decreasing in
  // the spread and in every source alpha if and only if it fits at the smaller spread.
  lemma ColourMonotone(h: nat, f: fraction, g: fraction, c: fraction)
    requires SizeOk(h) && h > 0 && f <= g
    ensures (forall l: Line, l': Line, x: int | NoFainter(l, l') ::
              ShadowChannel(Window(l, A, x, h), AMax(h, f), c) <= ShadowChannel(Window(l', A, x, h), AMax(h, g), c))
            <==> TopFits(AMax(h, f), c)
  {
    hide ShadowChannel, TopFits, Part, Window, AlphaLine;
    var m, n := AMax(h, g), AMax(h, f);
    AMaxMonotone(h, f, g);
    ChannelGrows(m, n, c);
    if TopFits(n, c) {
      forall l: Line, l': Line, x: int | NoFainter(l, l')
        ensures ShadowChannel(Window(l, A, x, h), n, c) <= ShadowChannel(Window(l', A, x, h), m, c)
      {
        WindowMonotone(l, A, l', A, x, h);
      }
    } else {
      var l, l' := AlphaLine(n - 1, h), AlphaLine(n, h);
      forall j: int ensures l.Sample(A, j) <= l'.Sample(A, j) {
        AlphaLineAt(n - 1, h, j);
        AlphaLineAt(n, h, j);
      }
      AlphaLineWindow(n - 1, h, h);
      AlphaLineWindow(n, h, h);
      assert NoFainter(l, l') && Window(l, A, h - 1, h) == n - 1 && Window(l', A, h - 1, h) == n;
      TopUnfit(m, n, c);
    }
  }

  lemma TopUnfit(m: nat, n: nat, c: fraction)
    requires 255 <= m <= n <= INT_MAX && !TopFits(n, c)
    ensures ShadowChannel(n - 1, n, c) > ShadowChannel(n, m, c)
  {
    FullChannel(n, m, c);
  }

  // Two pixels and a component of 0.701: where the second pixel gets more opaque, or the
  // spread grows, the shadow gets fainter.
  lemma ColourFalls()
    ensures var l, l', c: fraction := AlphaLine(509, 2), AlphaLine(510, 2), 0.701;
            && NoFainter(l, l')
            && ShadowChannel(Window(l, A, 1, 2), AMax(2, 0.0), c) == 179
            && ShadowChannel(Window(l', A, 1, 2), AMax(2, 0.0), c) == 178
            && ShadowChannel(Window(l, A, 1, 2), AMax(2, 0.004), c) == 178
  {
    hide AlphaLine;
    var l, l', c: fraction := AlphaLine(509, 2), AlphaLine(510, 2), 0.701;
    forall j: int ensures l.Sample(A, j) <= l'.Sample(A, j) {
      AlphaLineAt(509, 2, j);
      AlphaLineAt(510, 2, j);
    }
    AlphaLineWindow(509, 2, 2);
    AlphaLineWindow(510, 2, 2);
    assert AMax(2, 0.0) == 510 && AMax(2, 0.004) == 509;
    assert KScale(510) == 4210752 && ScaleOf(510, c) == 2951737;
    assert Part(255, c) == 178;
  }

  // ---- The loops ----

  // What the pixel of a sum is: black, or of a colour.
  datatype Shade = Black | Tinted(c: Colour) {
    function Of(sum: nat, amax: nat): pixel
      requires 255 <= amax <= INT_MAX
    {
      if Black? then BlackPixel(sum, amax) else ColourPixel(sum, amax, c)
    }

    // 0xff000000, or shadowRGB.
    function Full(): pixel {
      if Black? then 0xff00_0000 else Pack(Part(255, c.a), Part(255, c.r), Part(255, c.g), Part(255, c.b))
    }
  }

  // A fully opaque window gives full shadow at every spread, in black and
  // in a colour; an empty one gives none.
  lemma FullAndNone(l: Line, x: int, h: nat, spread: fraction, shade: Shade)
    requires l.Valid() && SizeOk(h)
    ensures (forall j :: x - h < j <= x ==> l.Sample(A, j) == 255) ==>
              shade.Of(Window(l, A, x, h), AMax(h, spread)) == shade.Full()
    ensures (forall j :: x - h < j <= x ==> l.Sample(A, j) == 0) ==>
              shade.Of(Window(l, A, x, h), AMax(h, spread)) == 0
  {
    hide Chan, Part, Shade.Of, Shade.Full, Line.Valid, Line.Sample, AMax;
    ShadeEnds(shade, Window(l, A, x, h), AMax(h, spread));
    if forall j :: x - h < j <= x ==> l.Sample(A, j) == 255 {
      WindowConstant(l, A, x, h, 255);
    }
    if forall j :: x - h < j <= x ==> l.Sample(A, j) == 0 {
      WindowConstant(l, A, x, h, 0);
    }
  }

  lemma ShadeEnds(shade: Shade, sum: nat, amax: nat)
    requires 255 <= amax <= INT_MAX
    ensures sum >= amax ==> shade.Of(sum, amax) == shade.Full()
    ensures sum == 0 ==> shade.Of(sum, amax) == 0
  {
    hide Part, KScale, ScaleOf;
    assert amax / 255 >= 1;
  }

  function ShadowRows(px: seq<pixel>, w: nat, h: nat, scan: nat, size: int, spread: fraction): Image {
    (y: int, x: int) =>
      if 0 <= y < h && Row(px, y, w, scan).Valid() && SizeOk(size) then
        Black.Of(Window(Row(px, y, w, scan), A, x, size), AMax(size, spread))
      else 0
  }

  function ShadowColumns(px: seq<pixel>, w: nat, h: nat, scan: nat, size: int, spread: fraction, shade: Shade): Image {
    (y: int, x: int) =>
      if 0 <= x < w && Column(px, x, h, scan).Valid() && SizeOk(size) then
        shade.Of(Window(Column(px, x, h, scan), A, y, size), AMax(size, spread))
      else 0
  }

  lemma ShadowRowsAt(px: seq<pixel>, w: nat, h: nat, scan: nat, size: int, spread: fraction, y: nat, x: int)
    requires y < h && Row(px, y, w, scan).Valid() && SizeOk(size)
    ensures ShadowRows(px, w, h, scan, size, spread)(y, x) ==
            Black.Of(Window(Row(px, y, w, scan), A, x, size), AMax(size, spread))
  {
  }

  lemma ShadowColumnsAt(px: seq<pixel>, w: nat, h: nat, scan: nat, size: int, spread: fraction, shade: Shade,
                        y: int, x: nat)
    requires x < w && Column(px, x, h, scan).Valid() && SizeOk(size)
    ensures ShadowColumns(px, w, h, scan, size, spread, shade)(y, x) ==
            shade.Of(Window(Column(px, x, h, scan), A, y, size), AMax(size, spread))
  {
  }

  lemma AlphaSlide(l: Line, x: int, h: nat)
    requires l.Valid() && h > 0
    ensures Window(l, A, x, h) == Window(l, A, x - 1, h) - Chan(PixelAt(l, x - h), A) + Chan(PixelAt(l, x), A)
  {
    WindowSlide(l, A, x, h);
  }

  // filterHorizontalBlack. amax, kscale and amin are computed once and passed on; the
  // pixel is written from them.
  method ShadowRow(dst: array<pixel>, dstoff: nat, dstw: nat, src: array<pixel>, srcoff: nat, srcw: nat, hsize: nat,
                   amax: nat, spread: fraction, ghost y: nat, ghost dstscan: nat, ghost srch: nat, ghost srcscan: nat)
    requires dst != src && 0 < dstw <= dstscan && dstoff == At(y, 0, dstscan) && dstoff + dstw <= dst.Length
    requires srcoff == At(y, 0, srcscan) && y < srch && Row(src[..], y, srcw, srcscan).Valid()
    requires SizeOk(hsize) && hsize > 0 && 255 <= amax <= INT_MAX && amax == AMax(hsize, spread)
    requires dstw < srcw + hsize
    modifies dst
    ensures RowWritten(old(dst[..]), dst[..], y, dstw, dstscan, ShadowRows(src[..], srcw, srch, srcscan, hsize, spread))
  {
    hide *;
    ghost var px, l := src[..], Row(src[..], y, srcw, srcscan);
    ghost var img := ShadowRows(px, srcw, srch, srcscan, hsize, spread);
    var suma := 0;
    WindowBefore(l, A, -1, hsize);
    NothingWritten(dst[..], y, dstscan, img);
    for x := 0 to dstw
      invariant src[..] == px && suma == Window(l, A, x - 1, hsize)
      invariant RowWritten(old(dst[..]), dst[..], y, x, dstscan, img)
    {
      AlphaSlide(l, x, hsize);
      RowReads(px, y, x, srcw, srcscan, hsize);
      var rgb: pixel := if x >= hsize then src[srcoff + x - hsize] else 0;
      suma := suma - Chan(rgb, A);
      rgb := if x < srcw then src[srcoff + x] else 0;
      suma := suma + Chan(rgb, A);
      ghost var before := dst[..];
      var p := Black.Of(suma, amax);
      dst[dstoff + x] := p;
      AtNext(y, x, dstscan);
      assert dst[..] == before[At(y, x, dstscan) := p];
      ShadowRowsAt(px, srcw, srch, srcscan, hsize, spread, y, x);
      RowNext(old(dst[..]), before, y, x, dstscan, img);
    }
  }

  method FilterHorizontalBlack(dst: array<pixel>, dstw: nat, dsth: nat, dstscan: nat,
                               src: array<pixel>, srcw: nat, srch: nat, srcscan: nat, spread: fraction)
    requires ImagesOk(dst, dstw, dsth, dstscan, src, srcw, srch, srcscan)
    requires srcw <= dstw && dsth <= srch && SizeOk(dstw - srcw + 1)
    modifies dst
    ensures Shows(dst[..], dstw, dsth, dstscan, ShadowRows(src[..], srcw, srch, srcscan, dstw - srcw + 1, spread))
    ensures PaddingKept(old(dst[..]), dst[..], dstw, dsth, dstscan)
  {
    hide At, InImage, RowWritten, Line.Valid, Row, ShadowRows, AMax;
    var hsize := dstw - srcw + 1;
    var amax := AMax(hsize, spread);
    var srcoff, dstoff := 0, 0;
    AtNext(0, 0, srcscan);
    AtNext(0, 0, dstscan);
    ghost var px, img := src[..], ShadowRows(src[..], srcw, srch, srcscan, hsize, spread);
    for y := 0 to dsth
      invariant srcoff == At(y, 0, srcscan) && dstoff == At(y, 0, dstscan) && src[..] == px
      invariant Shows(dst[..], dstw, y, dstscan, img)
      invariant PaddingKept(old(dst[..]), dst[..], dstw, dsth, dstscan)
    {
      AtNext(y, 0, srcscan);
      AtNext(y, 0, dstscan);
      if dstw > 0 {
        RowValid(px, y, srcw, srch, srcscan);
        AtInside(dst.Length, dstw, dsth, dstscan, y, dstw - 1);
        AtNext(y, dstw - 1, dstscan);
        ghost var before := dst[..];
        ShadowRow(dst, dstoff, dstw, src, srcoff, srcw, hsize, amax, spread, y, dstscan, srch, srcscan);
        RowsNext(before, dst[..], dstw, dsth, y, dstscan, img);
      }
      srcoff, dstoff := srcoff + srcscan, dstoff + dstscan;
    }
  }

  method ShadowColumn(dst: array<pixel>, x: nat, dsth: nat, dstscan: nat, src: array<pixel>, srch: nat, srcscan: nat,
                      vsize: nat, amax: nat, spread: fraction, shade: Shade, ghost srcw: nat)
    requires dst != src && Fits(dst.Length, x + 1, dsth, dstscan) && x < dstscan
    requires Column(src[..], x, srch, srcscan).Valid() && x < srcw <= srcscan
    requires SizeOk(vsize) && vsize > 0 && 255 <= amax <= INT_MAX && amax == AMax(vsize, spread)
    requires dsth < srch + vsize
    modifies dst
    ensures ColumnWritten(old(dst[..]), dst[..], x, dsth, dstscan,
                          ShadowColumns(src[..], srcw, srch, srcscan, vsize, spread, shade))
  {
    hide *;
    ghost var px, l := src[..], Column(src[..], x, srch, srcscan);
    ghost var img := ShadowColumns(px, srcw, srch, srcscan, vsize, spread, shade);
    var voff := vsize * srcscan;
    var srcoff, dstoff := x, x;
    AtNext(0, x, srcscan);
    AtNext(0, x, dstscan);
    var suma := 0;
    WindowBefore(l, A, -1, vsize);
    NothingWritten(dst[..], x, dstscan, img);
    for y := 0 to dsth
      invariant srcoff == At(y, x, srcscan) && dstoff == At(y, x, dstscan) && src[..] == px
      invariant suma == Window(l, A, y - 1, vsize)
      invariant ColumnWritten(old(dst[..]), dst[..], x, y, dstscan, img)
    {
      AtInside(dst.Length, x + 1, dsth, dstscan, y, x);
      AtNext(y, x, srcscan);
      AtNext(y, x, dstscan);
      AlphaSlide(l, y, vsize);
      ColumnReads(px, x, y, srch, srcscan, vsize);
      var rgb: pixel := if srcoff >= voff then src[srcoff - voff] else 0;
      suma := suma - Chan(rgb, A);
      rgb := if y < srch then src[srcoff] else 0;
      suma := suma + Chan(rgb, A);
      ghost var before := dst[..];
      var p := shade.Of(suma, amax);
      dst[dstoff] := p;
      assert dst[..] == before[dstoff := p];
      ShadowColumnsAt(px, srcw, srch, srcscan, vsize, spread, shade, y, x);
      ColumnNext(old(dst[..]), before, x, y, dstscan, img);
      srcoff, dstoff := srcoff + srcscan, dstoff + dstscan;
    }
  }

  // filterVerticalBlack and, with a colour, filterVertical.
  method FilterVertical(dst: array<pixel>, dstw: nat, dsth: nat, dstscan: nat,
                        src: array<pixel>, srcw: nat, srch: nat, srcscan: nat, spread: fraction, shade: Shade)
    requires ImagesOk(dst, dstw, dsth, dstscan, src, srcw, srch, srcscan)
    requires srch <= dsth && dstw <= srcw && SizeOk(dsth - srch + 1)
    modifies dst
    ensures Shows(dst[..], dstw, dsth, dstscan,
                  ShadowColumns(src[..], srcw, srch, srcscan, dsth - srch + 1, spread, shade))
    ensures PaddingKept(old(dst[..]), dst[..], dstw, dsth, dstscan)
  {
    hide At, InImage, ColumnWritten, Line.Valid, Column, ShadowColumns, AMax;
    var vsize := dsth - srch + 1;
    var amax := AMax(vsize, spread);
    ghost var px, img := src[..], ShadowColumns(src[..], srcw, srch, srcscan, vsize, spread, shade);
    for x := 0 to dstw
      invariant src[..] == px
      invariant Shows(dst[..], x, dsth, dstscan, img)
      invariant PaddingKept(old(dst[..]), dst[..], dstw, dsth, dstscan)
    {
      ColumnValid(px, x, srcw, srch, srcscan);
      FitsColumn(dst.Length, dstw, dsth, dstscan, x);
      ghost var before := dst[..];
      ShadowColumn(dst, x, dsth, dstscan, src, srch, srcscan, vsize, amax, spread, shade, srcw);
      ColumnsNext(before, dst[..], dstw, dsth, x, dstscan, img);
    }
  }

  // The whole coloured image, in opaque black, is the black one.
  lemma BlackImage(px: seq<pixel>, w: nat, h: nat, scan: nat, size: int, spread: fraction, y: int, x: int)
    ensures ShadowColumns(px, w, h, scan, size, spread, Tinted(BLACK))(y, x) ==
            ShadowColumns(px, w, h, scan, size, spread, Black)(y, x)
  {
    if 0 <= x < w && Column(px, x, h, scan).Valid() && SizeOk(size) {
      BlackIsBlack(Window(Column(px, x, h, scan), A, y, size), AMax(size, spread));
    }
  }
}
