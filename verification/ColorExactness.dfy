/** Which channel each coefficient reaches, and how close the conversion to colours is to the standards. */
module ColorExactness {
  import opened ColorConversion
  import opened PicturePlanes

  // ---------- direction ----------

  /** A step of at least 1024 shows in a channel, but for clipping. */
  lemma {:induction false} StepShows(a: int, b: int)
    requires a + 1024 <= b
    ensures var (low, high) := (Clip(Truncate(a)), Clip(Truncate(b)));
            low <= high && (low < high || low == 1023 || high == 0)
  {
    TruncationHidden(a);
    TruncationHidden(b);
    assert a / 1024 + 1 <= b / 1024;
  }

  lemma {:induction false} ProductStep(a: int, b: int, c: nat)
    requires a < b
    ensures a * c + c <= b * c
  {
    ProductGrows(a + 1, b, c);
    assert (a + 1) * c == a * c + c;
  }

  lemma {:induction false} ShadeWithU(k: Coeffs, y: int, c: Chroma, c': Chroma)
    requires c.vR == c'.vR && c.vG == c'.vG && c.uG <= c'.uG && c.uB + 1024 <= c'.uB
    ensures var (a, b) := (Shade(k, y, c), Shade(k, y, c'));
            && a.r == b.r && b.g <= a.g && a.b <= b.b && (a.b < b.b || a.b == 1023 || b.b == 0)
  {
    hide Clip, Truncate;
    var yMult := (y - k.c16 as int) * k.y as int + 512;
    Monotone(yMult - c'.vG - c'.uG, yMult - c.vG - c.uG);
    StepShows(yMult + c.uB, yMult + c'.uB);
  }

  lemma {:induction false} ShadeWithV(k: Coeffs, y: int, c: Chroma, c': Chroma)
    requires c.uB == c'.uB && c.uG == c'.uG && c.vG <= c'.vG && c.vR + 1024 <= c'.vR
    ensures var (a, b) := (Shade(k, y, c), Shade(k, y, c'));
            && a.b == b.b && b.g <= a.g && a.r <= b.r && (a.r < b.r || a.r == 1023 || b.r == 0)
  {
    hide Clip, Truncate;
    var yMult := (y - k.c16 as int) * k.y as int + 512;
    Monotone(yMult - c'.vG - c'.uG, yMult - c.vG - c.uG);
    StepShows(yMult + c.vR, yMult + c'.vR);
  }

  /** Raising U makes a pixel bluer and less green, and leaves red alone; strictly bluer, but for clipping. */
  lemma {:induction false} BluerWithU(m: Matrix, fullRange: bool, y: int, u: int, u': int, v: int)
    requires u < u'
    ensures var k := CoeffsFor(m, fullRange);
            var (a, b) := (Color(k, y, u, v), Color(k, y, u', v));
            && a.r == b.r && b.g <= a.g && a.b <= b.b && (a.b < b.b || a.b == 1023 || b.b == 0)
  {
    var k := CoeffsFor(m, fullRange);
    assert k.bu >= 1024 && k.gu >= 0;
    hide CoeffsFor, Shade;
    ProductStep(u - 512, u' - 512, k.gu as int);
    ProductStep(u - 512, u' - 512, k.bu as int);
    ShadeWithU(k, y, ChromaOf(k, u, v), ChromaOf(k, u', v));
  }

  /** Raising V makes it redder and less green, and leaves blue alone. */
  lemma {:induction false} RedderWithV(m: Matrix, fullRange: bool, y: int, u: int, v: int, v': int)
    requires v < v'
    ensures var k := CoeffsFor(m, fullRange);
            var (a, b) := (Color(k, y, u, v), Color(k, y, u, v'));
            && a.b == b.b && b.g <= a.g && a.r <= b.r && (a.r < b.r || a.r == 1023 || b.r == 0)
  {
    var k := CoeffsFor(m, fullRange);
    assert k.rv >= 1024 && k.gv >= 0;
    hide CoeffsFor, Shade;
    ProductStep(v - 512, v' - 512, k.gv as int);
    ProductStep(v - 512, v' - 512, k.rv as int);
    ShadeWithV(k, y, ChromaOf(k, u, v), ChromaOf(k, u, v'));
  }

  // ---------- closeness ----------

  /** The factors of a standard in 1024ths, with those of red and blue exchanged: `rv` is what the standard has
      for blue and U, and `bu` what it has for red and V. */
  datatype Factors = Factors(luma: real, black: real, bu: real, gu: real, gv: real, rv: real)

  function FactorsFor(m: Matrix, fullRange: bool): Factors {
    var s := 2.0 * ChromaScale(fullRange);
    Factors(LumaScale(fullRange), if fullRange then 0.0 else 64.0, s * (1.0 - KR(m)),
            s * KB(m) * (1.0 - KB(m)) / KG(m), s * KR(m) * (1.0 - KR(m)) / KG(m), s * (1.0 - KB(m)))
  }

  function Times(x: real, n: real): real { x * n }

  function Within(x: real): real { if x < 0.0 then 0.0 else if x > 1023.0 then 1023.0 else x }

  /** `channel` is at most one and a half steps off. */
  predicate Close(channel: int, exact: real) {
    Within(exact / 1024.0) - 1.5 <= channel as real <= Within(exact / 1024.0) + 1.5
  }

  predicate Off(n: int, x: real, most: real) { x - most <= n as real <= x + most }

  predicate Rounded(k: Coeffs, f: Factors) {
    && k.c16 as int as real == f.black && 0 <= k.c16 <= 64
    && Off(k.y as int, f.luma, 0.5) && Off(k.bu as int, f.bu, 0.5) && Off(k.gu as int, f.gu, 0.5)
    && Off(k.gv as int, f.gv, 0.5) && Off(k.rv as int, f.rv, 0.5)
  }

  lemma {:induction false} TableRounded(m: Matrix, fullRange: bool)
    ensures Rounded(CoeffsFor(m, fullRange), FactorsFor(m, fullRange))
  {
    CoefficientsExchanged(m, fullRange);
  }

  lemma {:induction false} TimesGrows(a: real, b: real, c: real)
    requires a <= b && c >= 0.0
    ensures Times(a, c) <= Times(b, c)
  {
  }

  lemma {:induction false} TimesSplits(x: real, d: real, n: real)
    ensures Times(x + d, n) == Times(x, n) + Times(d, n)
    ensures Times(d, -n) == -Times(d, n)
  {
  }

  lemma {:induction false} HalfTimes(n: real)
    ensures Times(0.5, n) == 0.5 * n && Times(-0.5, n) == -0.5 * n
  {
  }

  lemma {:induction false} SmallTimes(n: real, d: real, bound: real)
    requires -bound <= n <= bound && -0.5 <= d <= 0.5
    ensures -0.5 * bound <= Times(d, n) <= 0.5 * bound
  {
    TimesSplits(0.0, d, n);
    HalfTimes(n);
    HalfTimes(-n);
    var p := if n >= 0.0 then n else -n;
    TimesGrows(-0.5, d, p);
    TimesGrows(d, 0.5, p);
    hide Times;
  }

  /** A product with a coefficient that is rounded to the nearest. */
  lemma {:induction false} NearProduct(n: int, c: int, x: real, bound: nat)
    requires -(bound as int) <= n <= bound && Off(c, x, 0.5)
    ensures Off(n * c, Times(x, n as real), 0.5 * bound as real)
  {
    var d := c as real - x;
    assert (n * c) as real == Times(c as real, n as real);
    TimesSplits(x, d, n as real);
    SmallTimes(n as real, d, bound as real);
  }

  lemma {:induction false} NearClip(sum: int, exact: real)
    requires Off(sum, exact, 1023.5)
    ensures Close(Clip(Truncate(sum + 512)), exact)
  {
    TruncationHidden(sum + 512);
    var q, r := (sum + 512) / 1024, (sum + 512) % 1024;
    assert sum + 512 == 1024 * q + r;
    assert 1024.0 * q as real == sum as real + 512.0 - r as real;
    var x := exact / 1024.0;
    assert exact == 1024.0 * x;
    assert x - 1.5 <= q as real <= x + 1.5;
  }

  function LumaOf(k: Coeffs, y: int): int { (y - k.c16 as int) * k.y as int }

  /** Luma and chroma products that are near those of the standard give a colour that is near its own. */
  lemma {:induction false} NearShade(k: Coeffs, y: int, c: Chroma, luma: real, uB: real, uG: real, vG: real, vR: real)
    requires Off(LumaOf(k, y), luma, 511.5)
    requires Off(c.uB, uB, 256.0) && Off(c.uG, uG, 256.0) && Off(c.vG, vG, 256.0) && Off(c.vR, vR, 256.0)
    ensures var s := Shade(k, y, c);
            Close(s.r, luma + vR) && Close(s.b, luma + uB) && Close(s.g, luma - uG - vG)
  {
    hide Clip, Truncate, Close;
    var l := LumaOf(k, y);
    NearClip(l + c.vR, luma + vR);
    NearClip(l + c.uB, luma + uB);
    NearClip(l - c.vG - c.uG, luma - uG - vG);
  }

  lemma {:induction false} NearChroma(k: Coeffs, f: Factors, u: int, v: int)
    requires Rounded(k, f) && 0 <= u <= 1023 && 0 <= v <= 1023
    ensures var c, x, z := ChromaOf(k, u, v), (u - 512) as real, (v - 512) as real;
            && Off(c.uB, Times(f.bu, x), 256.0) && Off(c.uG, Times(f.gu, x), 256.0)
            && Off(c.vG, Times(f.gv, z), 256.0) && Off(c.vR, Times(f.rv, z), 256.0)
  {
    NearProduct(u - 512, k.bu as int, f.bu, 512);
    NearProduct(u - 512, k.gu as int, f.gu, 512);
    NearProduct(v - 512, k.gv as int, f.gv, 512);
    NearProduct(v - 512, k.rv as int, f.rv, 512);
    hide Times, Off;
  }

  lemma {:induction false} NearLuma(k: Coeffs, f: Factors, y: int)
    requires Rounded(k, f) && 0 <= y <= 1023
    ensures Off(LumaOf(k, y), Times(f.luma, y as real - f.black), 511.5)
  {
    NearProduct(y - k.c16 as int, k.y as int, f.luma, 1023);
    assert (y - k.c16 as int) as real == y as real - f.black;
    hide Times, Off;
  }

  /** For all ten-bit samples, matrices and ranges each channel is within one and a half steps of the standard's
      colour, with the factors of red and blue exchanged. */
  lemma {:induction false} CloseToStandard(m: Matrix, fullRange: bool, y: int, u: int, v: int)
    requires 0 <= y <= 1023 && 0 <= u <= 1023 && 0 <= v <= 1023
    ensures var c, f := Color(CoeffsFor(m, fullRange), y, u, v), FactorsFor(m, fullRange);
            var l, x, z := Times(f.luma, y as real - f.black), (u - 512) as real, (v - 512) as real;
            && Close(c.r, l + Times(f.rv, z)) && Close(c.b, l + Times(f.bu, x))
            && Close(c.g, l - Times(f.gu, x) - Times(f.gv, z))
  {
    var k, f := CoeffsFor(m, fullRange), FactorsFor(m, fullRange);
    TableRounded(m, fullRange);
    hide CoeffsFor, FactorsFor, Shade, Close, Times, Off, Rounded, LumaOf, ChromaOf;
    NearLuma(k, f, y);
    NearChroma(k, f, u, v);
    var x, z := (u - 512) as real, (v - 512) as real;
    NearShade(k, y, ChromaOf(k, u, v), Times(f.luma, y as real - f.black), Times(f.bu, x), Times(f.gu, x),
              Times(f.gv, z), Times(f.rv, z));
  }

  /** The word of a pixel holds the channels of the colour of its own Y and the U and V of its square. */
  lemma {:induction false} PixelFields(k: Coeffs, pic: Picture<uint16>, i: nat, j: nat)
    requires pic.Paired() && i < Even(pic.height) && j < Even(pic.width)
    ensures var w := Pixel(k, pic, i, j) as int;
            var c := Color(k, pic.y[i][j] as int, pic.u[i / 2][j / 2] as int, pic.v[i / 2][j / 2] as int);
            w / 0x4000_0000 == 3 && w / 0x10_0000 % 0x400 == c.b && w / 0x400 % 0x400 == c.g && w % 0x400 == c.r
  {
    var y, u, v := pic.y[i][j] as int, pic.u[i / 2][j / 2] as int, pic.v[i / 2][j / 2] as int;
    ColorChannels(k, y, u, v);
    WordFields(Color(k, y, u, v));
    hide Color, Word, Channels;
  }
}
