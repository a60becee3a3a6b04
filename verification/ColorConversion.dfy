/** From 4:2:0 planes to RGBA1010102 words in 32-bit integers, with the matrices of BT.601, BT.709 and
    BT.2020 scaled by 1024. */
module ColorConversion {
  import opened PicturePlanes

  newtype int32 = x: int | -0x8000_0000 <= x < 0x8000_0000

  newtype uint32 = x: int | 0 <= x < 0x1_0000_0000

  newtype uint16 = x: int | 0 <= x < 0x1_0000

  datatype Matrix = BT601 | BT709 | BT2020

  datatype Coeffs = Coeffs(y: int32, bu: int32, gu: int32, gv: int32, rv: int32, c16: int32)

  function CoeffsFor(m: Matrix, fullRange: bool): Coeffs {
    match m
    case BT601 => if fullRange then Coeffs(1024, 1436, 352, 731, 1815, 0) else Coeffs(1196, 1639, 402, 835, 2072, 64)
    case BT709 => if fullRange then Coeffs(1024, 1613, 192, 479, 1900, 0) else Coeffs(1196, 1841, 219, 547, 2169, 64)
    case BT2020 => if fullRange then Coeffs(1024, 1510, 169, 585, 1927, 0) else Coeffs(1196, 1724, 192, 668, 2200, 64)
  }

  // ---------- the coefficients against the standards ----------

  /** The luma weights of red and blue in a standard. */
  function KR(m: Matrix): real { match m case BT601 => 0.299 case BT709 => 0.2126 case BT2020 => 0.2627 }

  function KB(m: Matrix): real { match m case BT601 => 0.114 case BT709 => 0.0722 case BT2020 => 0.0593 }

  function KG(m: Matrix): real { 1.0 - KR(m) - KB(m) }

  /** 1023 full-range steps over the 876 of limited-range luma, or the 896 of limited-range chroma. */
  function LumaScale(fullRange: bool): real { if fullRange then 1024.0 else 1024.0 * 1023.0 / 876.0 }

  function ChromaScale(fullRange: bool): real { if fullRange then 1024.0 else 1024.0 * 1023.0 / 896.0 }

  predicate Nearest(c: int32, exact: real) { exact - 0.5 <= c as real <= exact + 0.5 }

  /** The table holds the standards' coefficients, rounded to the nearest, but with those of red and blue
      exchanged: what multiplies U for blue is the coefficient of V for red, and the other way round. */
  lemma {:induction false} CoefficientsExchanged(m: Matrix, fullRange: bool)
    ensures var k := CoeffsFor(m, fullRange);
            var s := ChromaScale(fullRange);
            && Nearest(k.y, LumaScale(fullRange))
            && Nearest(k.gu, s * 2.0 * KB(m) * (1.0 - KB(m)) / KG(m))
            && Nearest(k.gv, s * 2.0 * KR(m) * (1.0 - KR(m)) / KG(m))
            && Nearest(k.bu, s * 2.0 * (1.0 - KR(m)))
            && Nearest(k.rv, s * 2.0 * (1.0 - KB(m)))
            && !Nearest(k.bu, s * 2.0 * (1.0 - KB(m))) && !Nearest(k.rv, s * 2.0 * (1.0 - KR(m)))
  {
  }

  // ---------- one pixel ----------

  /** Division as C does it. */
  function Truncate(a: int): int { if a >= 0 then a / 1024 else -(-a / 1024) }

  function Clip(a: int): int { if a < 0 then 0 else if a > 1023 then 1023 else a }

  datatype Rgb = Rgb(r: int, g: int, b: int)

  /** The products of a square's chroma with the coefficients, on unbounded integers. */
  datatype Chroma = Chroma(uB: int, uG: int, vG: int, vR: int)

  function ChromaOf(k: Coeffs, u: int, v: int): Chroma {
    Chroma((u - 512) * k.bu as int, (u - 512) * k.gu as int, (v - 512) * k.gv as int, (v - 512) * k.rv as int)
  }

  function Shade(k: Coeffs, y: int, c: Chroma): Rgb {
    var yMult := (y - k.c16 as int) * k.y as int + 512;
    Rgb(Clip(Truncate(yMult + c.vR)), Clip(Truncate(yMult - c.vG - c.uG)), Clip(Truncate(yMult + c.uB)))
  }

  function Color(k: Coeffs, y: int, u: int, v: int): Rgb { Shade(k, y, ChromaOf(k, u, v)) }

  /** Clipping hides that C rounds towards zero: a channel is the sum divided with rounding down, clipped. */
  lemma {:induction false} TruncationHidden(a: int)
    ensures Clip(Truncate(a)) == Clip(a / 1024)
  {
    if a < 0 {
      assert a / 1024 < 0 && -(-a / 1024) <= 0;
    }
  }

  predicate Channels(c: Rgb) { 0 <= c.r <= 1023 && 0 <= c.g <= 1023 && 0 <= c.b <= 1023 }

  lemma {:induction false} ColorChannels(k: Coeffs, y: int, u: int, v: int)
    ensures Channels(Color(k, y, u, v))
  {
  }

  lemma {:induction false} Monotone(a: int, b: int)
    requires a <= b
    ensures Clip(Truncate(a)) <= Clip(Truncate(b))
  {
    TruncationHidden(a);
    TruncationHidden(b);
    assert a / 1024 <= b / 1024;
  }

  lemma {:induction false} ProductGrows(a: int, b: int, c: nat)
    requires a <= b
    ensures a * c <= b * c
  {
  }

  lemma {:induction false} ShadeGrows(k: Coeffs, y: int, y': int, c: Chroma)
    requires y <= y' && k.y >= 0
    ensures var (a, b) := (Shade(k, y, c), Shade(k, y', c)); a.r <= b.r && a.g <= b.g && a.b <= b.b
  {
    hide Clip, Truncate;
    var a, b := (y - k.c16 as int) * k.y as int + 512, (y' - k.c16 as int) * k.y as int + 512;
    ProductGrows(y - k.c16 as int, y' - k.c16 as int, k.y as int);
    Monotone(a + c.vR, b + c.vR);
    Monotone(a - c.vG - c.uG, b - c.vG - c.uG);
    Monotone(a + c.uB, b + c.uB);
  }

  /** More luma never darkens a channel. */
  lemma {:induction false} BrighterIsBrighter(m: Matrix, fullRange: bool, y: int, y': int, u: int, v: int)
    requires y <= y'
    ensures var k := CoeffsFor(m, fullRange);
            var (a, b) := (Color(k, y, u, v), Color(k, y', u, v));
            a.r <= b.r && a.g <= b.g && a.b <= b.b
  {
    assert CoeffsFor(m, fullRange).y >= 0;
    hide CoeffsFor, Shade, ChromaOf;
    ShadeGrows(CoeffsFor(m, fullRange), y, y', ChromaOf(CoeffsFor(m, fullRange), u, v));
  }

  /** Without colour the three channels are equal: in full range they are the luma itself, and in limited
      range 64 is black and 940 white. */
  lemma {:induction false} GreyStaysGrey(m: Matrix, y: int)
    requires 0 <= y <= 1023
    ensures Color(CoeffsFor(m, true), y, 512, 512) == Rgb(y, y, y)
    ensures var c := Color(CoeffsFor(m, false), y, 512, 512);
            c.r == c.g == c.b && (y <= 64 ==> c.r == 0) && (y >= 940 ==> c.r == 1023)
  {
    assert ChromaOf(CoeffsFor(m, true), 512, 512) == Chroma(0, 0, 0, 0) == ChromaOf(CoeffsFor(m, false), 512, 512);
    assert Truncate(y * 1024 + 512) == y;
    TruncationHidden((y - 64) * 1196 + 512);
  }

  // ---------- words ----------

  /** A word: alpha 3, then ten bits each of blue, green and red. */
  function Word(c: Rgb): uint32
    requires Channels(c)
  {
    (0xC000_0000 + c.b * 0x10_0000 + c.g * 0x400 + c.r) as uint32
  }

  /** The fields do not overlap, so joining them by `|` is adding them. */
  lemma {:induction false} JoinedIsAdded(r: bv32, g: bv32, b: bv32)
    requires r <= 0x3FF && g <= 0x3FF && b <= 0x3FF
    ensures (3 << 30) | (b << 20) | (g << 10) | r == 0xC000_0000 + b * 0x10_0000 + g * 0x400 + r
  {
  }

  /** Each channel decodes from the word, so two words are equal only if their colours are. */
  lemma {:induction false} WordFields(c: Rgb)
    requires Channels(c)
    ensures var w := Word(c) as int;
            w / 0x4000_0000 == 3 && w / 0x10_0000 % 0x400 == c.b && w / 0x400 % 0x400 == c.g && w % 0x400 == c.r
  {
    var w := Word(c) as int;
    assert w == 0x400 * (0x30_0000 + c.b * 0x400 + c.g) + c.r;
    assert w / 0x400 == 0x30_0000 + c.b * 0x400 + c.g;
    assert w / 0x10_0000 == 0xC00 + c.b;
  }

  // ---------- the loop ----------

  /** The coefficients of all tables. */
  predicate Tabled(k: Coeffs) {
    && 1024 <= k.y <= 1196 && 0 <= k.c16 <= 64 && 0 <= k.bu <= 2200 && 0 <= k.rv <= 2200
    && 0 <= k.gu <= 2200 && 0 <= k.gv <= 2200
  }

  /** The product of a centred 16-bit sample and a coefficient is far from the end of 32 bits. */
  lemma {:induction false} ProductBound(s: int, c: nat)
    requires -66000 <= s <= 66000 && c <= 2200
    ensures -145_200_000 <= s * c <= 145_200_000
  {
    ProductGrows(-66000, s, c);
    ProductGrows(s, 66000, c);
  }

  predicate Small(p: int32) { -145_200_000 <= p <= 145_200_000 }

  method ClipDivided(sum: int32) returns (c: int32)
    requires -0x4000_0000 <= sum
    ensures c as int == Clip(Truncate(sum as int))
  {
    c := if sum >= 0 then sum / 1024 else -(-sum / 1024);
    c := if c < 0 then 0 else if c > 1023 then 1023 else c;
  }

  /** One pixel from its luma and the four products of its square's chroma; no step leaves 32 bits. */
  method ConvertPixel(k: Coeffs, y: int32, uB: int32, uG: int32, vG: int32, vR: int32, ghost p: Chroma) returns (c: Rgb)
    requires Tabled(k) && 0 <= y < 0x1_0000 && Small(uB) && Small(uG) && Small(vG) && Small(vR)
    requires p == Chroma(uB as int, -(uG as int), -(vG as int), vR as int)
    ensures c == Shade(k, y as int, p) && Channels(c)
  {
    ProductBound(y as int - k.c16 as int, k.y as int);
    var yMult := (y - k.c16) * k.y + 512;
    var b := ClipDivided(yMult + uB);
    var g := ClipDivided(yMult + vG + uG);
    var r := ClipDivided(yMult + vR);
    c := Rgb(r as int, g as int, b as int);
  }

  /** The products of one chroma sample with two coefficients, the second of them negated. */
  method Products(s: int32, plain: int32, negated: int32) returns (p: int32, n: int32)
    requires 0 <= s < 0x1_0000 && 0 <= plain <= 2200 && 0 <= negated <= 2200
    ensures p as int == (s as int - 512) * plain as int && n as int == -((s as int - 512) * negated as int)
    ensures Small(p) && Small(n)
  {
    ProductBound(s as int - 512, plain as int);
    ProductBound(s as int - 512, negated as int);
    assert (s as int - 512) * -(negated as int) == -((s as int - 512) * negated as int);
    p, n := (s - 512) * plain, (s - 512) * -negated;
  }

  method SquareProducts(k: Coeffs, u: uint16, v: uint16) returns (uB: int32, uG: int32, vG: int32, vR: int32)
    requires Tabled(k)
    ensures Small(uB) && Small(uG) && Small(vG) && Small(vR)
    ensures ChromaOf(k, u as int, v as int) == Chroma(uB as int, -(uG as int), -(vG as int), vR as int)
  {
    uB, uG := Products(u as int32, k.bu, k.gu);
    vR, vG := Products(v as int32, k.rv, k.gv);
  }

  /** The word for 16-bit samples. */
  function WordOf(k: Coeffs, y: uint16, u: uint16, v: uint16): uint32 { Word(Color(k, y as int, u as int, v as int)) }

  /** The four pixels of a square share the products of its chroma. */
  method ConvertSquare(k: Coeffs, y00: uint16, y01: uint16, y10: uint16, y11: uint16, u: uint16, v: uint16)
    returns (w00: uint32, w01: uint32, w10: uint32, w11: uint32)
    requires Tabled(k)
    ensures w00 == WordOf(k, y00, u, v) && w01 == WordOf(k, y01, u, v)
    ensures w10 == WordOf(k, y10, u, v) && w11 == WordOf(k, y11, u, v)
  {
    hide ChromaOf, Shade, Word;
    var uB, uG, vG, vR := SquareProducts(k, u, v);
    ghost var p := ChromaOf(k, u as int, v as int);
    var c00 := ConvertPixel(k, y00 as int32, uB, uG, vG, vR, p);
    var c01 := ConvertPixel(k, y01 as int32, uB, uG, vG, vR, p);
    var c10 := ConvertPixel(k, y10 as int32, uB, uG, vG, vR, p);
    var c11 := ConvertPixel(k, y11 as int32, uB, uG, vG, vR, p);
    w00, w01, w10, w11 := Word(c00), Word(c01), Word(c10), Word(c11);
  }

  /** The word of pixel (i, j) by itself. */
  function Pixel(k: Coeffs, pic: Picture<uint16>, i: nat, j: nat): uint32
    requires pic.Paired() && i < Even(pic.height) && j < Even(pic.width)
  {
    WordOf(k, pic.y[i][j], pic.u[i / 2][j / 2], pic.v[i / 2][j / 2])
  }

  /** Lines `i` and `i + 1`, columns `x` and `x + 1`. */
  method StoreSquare(dst: array2<uint32>, k: Coeffs, pic: Picture<uint16>, i: nat, x: nat)
    requires Tabled(k) && pic.Paired()
    requires i % 2 == 0 && i + 2 <= Even(pic.height) <= dst.Length0
    requires x % 2 == 0 && x + 2 <= Even(pic.width) <= dst.Length1
    modifies dst
    ensures forall r, c :: i <= r < i + 2 && x <= c < x + 2 ==> dst[r, c] == Pixel(k, pic, r, c)
    ensures forall r, c :: 0 <= r < dst.Length0 && 0 <= c < dst.Length1 && !(i <= r < i + 2 && x <= c < x + 2) ==>
                             dst[r, c] == old(dst[r, c])
  {
    hide WordOf, Pixel;
    var w00, w01, w10, w11 := ConvertSquare(k, pic.y[i][x], pic.y[i][x + 1], pic.y[i + 1][x], pic.y[i + 1][x + 1],
                                            pic.u[i / 2][x / 2], pic.v[i / 2][x / 2]);
    SquarePixels(k, pic, i, x);
    dst[i, x], dst[i, x + 1] := w00, w01;
    dst[i + 1, x], dst[i + 1, x + 1] := w10, w11;
  }

  /** The pixels of a square have the same chroma. */
  lemma {:induction false} SquarePixels(k: Coeffs, pic: Picture<uint16>, i: nat, x: nat)
    requires pic.Paired() && i % 2 == 0 && i + 2 <= Even(pic.height) && x % 2 == 0 && x + 2 <= Even(pic.width)
    ensures var u, v := pic.u[i / 2][x / 2], pic.v[i / 2][x / 2];
            && Pixel(k, pic, i, x) == WordOf(k, pic.y[i][x], u, v)
            && Pixel(k, pic, i, x + 1) == WordOf(k, pic.y[i][x + 1], u, v)
            && Pixel(k, pic, i + 1, x) == WordOf(k, pic.y[i + 1][x], u, v)
            && Pixel(k, pic, i + 1, x + 1) == WordOf(k, pic.y[i + 1][x + 1], u, v)
  {
    hide WordOf;
    SharedChroma(i, x);
  }

  lemma {:induction false} SharedChroma(i: nat, x: nat)
    requires i % 2 == 0 && x % 2 == 0
    ensures (i + 1) / 2 == i / 2 && (x + 1) / 2 == x / 2
  {
  }

  /** Every pixel of the picture, rounded up to even sizes, is converted as if by itself; nothing else is
      written. */
  method Convert(dst: array2<uint32>, m: Matrix, fullRange: bool, pic: Picture<uint16>)
    requires pic.Paired() && Even(pic.height) <= dst.Length0 && Even(pic.width) <= dst.Length1
    modifies dst
    ensures forall r, c :: 0 <= r < Even(pic.height) && 0 <= c < Even(pic.width) ==>
                             dst[r, c] == Pixel(CoeffsFor(m, fullRange), pic, r, c)
    ensures forall r, c :: 0 <= r < dst.Length0 && 0 <= c < dst.Length1 ==>
                             (r < Even(pic.height) && c < Even(pic.width)) || dst[r, c] == old(dst[r, c])
  {
    var k := CoeffsFor(m, fullRange);
    hide WordOf;
    var i := 0;
    while i < pic.height
      invariant i % 2 == 0 && i <= Even(pic.height)
      invariant forall r, c :: 0 <= r < i && 0 <= c < Even(pic.width) ==> dst[r, c] == Pixel(k, pic, r, c)
      invariant forall r, c :: 0 <= r < dst.Length0 && 0 <= c < dst.Length1 ==>
                                 (r < i && c < Even(pic.width)) || dst[r, c] == old(dst[r, c])
    {
      ConvertTwoLines(dst, k, pic, i);
      i := i + 2;
    }
  }

  method ConvertTwoLines(dst: array2<uint32>, k: Coeffs, pic: Picture<uint16>, i: nat)
    requires Tabled(k) && pic.Paired() && Even(pic.height) <= dst.Length0 && Even(pic.width) <= dst.Length1
    requires i % 2 == 0 && i + 2 <= Even(pic.height)
    modifies dst
    ensures forall r, c :: i <= r < i + 2 && 0 <= c < Even(pic.width) ==> dst[r, c] == Pixel(k, pic, r, c)
    ensures forall r, c :: 0 <= r < dst.Length0 && 0 <= c < dst.Length1 ==>
                             (i <= r < i + 2 && c < Even(pic.width)) || dst[r, c] == old(dst[r, c])
  {
    hide WordOf;
    var x := 0;
    while x < pic.width
      invariant x % 2 == 0 && x <= Even(pic.width)
      invariant forall r, c :: i <= r < i + 2 && 0 <= c < x ==> dst[r, c] == Pixel(k, pic, r, c)
      invariant forall r, c :: 0 <= r < dst.Length0 && 0 <= c < dst.Length1 ==>
                                 (i <= r < i + 2 && c < x) || dst[r, c] == old(dst[r, c])
    {
      StoreSquare(dst, k, pic, i, x);
      x := x + 2;
    }
  }
}
