/** Packing three planes of 10-bit samples into Y410 words, two lines and four columns at a time, against
    the form that packs pixel by pixel. The columns of the destination from the width on are the padding of
    its stride. */
module PixelPacking {
  import opened PicturePlanes

  /** The two bits of alpha, then ten bits each of V, Y and U. */
  function Join(alpha: bv32, y: bv32, u: bv32, v: bv32): bv32 { (alpha << 30) | (v << 20) | (y << 10) | u }

  /** One Y410 word. */
  function Word(alpha: bv32, y: bv16, u: bv16, v: bv16): bv32 { Join(alpha, y as bv32, u as bv32, v as bv32) }

  /** A Y410 word gives back its samples. */
  lemma {:induction false} WordFields(alpha: bv32, y: bv16, u: bv16, v: bv16)
    requires alpha <= 3 && y <= 0x3FF && u <= 0x3FF && v <= 0x3FF
    ensures var w := Word(alpha, y, u, v);
            && w >> 30 == alpha && (w >> 20) & 0x3FF == v as bv32
            && (w >> 10) & 0x3FF == y as bv32 && w & 0x3FF == u as bv32
  {
  }

  /** Two neighbouring samples read as one word, the first in the low half. */
  function Pair(a: bv16, b: bv16): bv32 { ((b as bv32) << 16) | (a as bv32) }

  lemma {:induction false} Halves(a: bv16, b: bv16)
    requires a <= 0x3FF
    ensures Pair(a, b) & 0x3FF == a as bv32 && Pair(a, b) >> 16 == b as bv32
  {
  }

  /** The chroma bits that four pixels share. */
  function JoinChroma(u: bv32, v: bv32): bv32 { u | (v << 20) }

  function Chroma(u: bv16, v: bv16): bv32 { JoinChroma(u as bv32, v as bv32) }

  /** What is written for a pixel from its luma bits and the chroma bits. */
  function Packed(alpha: bv32, y: bv32, uv: bv32): bv32 { (alpha << 30) | (y << 10) | uv }

  lemma {:induction false} PackedJoins(alpha: bv32, y: bv32, u: bv32, v: bv32)
    ensures Packed(alpha, y, JoinChroma(u, v)) == Join(alpha, y, u, v)
  {
  }

  /** How far the loop over whole groups of four columns goes: `x < width - 3` in 64 unsigned bits. */
  function LoopBound(width: nat): nat { (width + 0x1_0000_0000_0000_0000 - 3) % 0x1_0000_0000_0000_0000 }

  /** The group loop stays within its line exactly for widths of at least three: below, the bound wraps. */
  lemma {:induction false} GroupsStayInLineIff(width: nat)
    requires width < 0x1_0000_0000_0000_0000
    ensures (forall g: nat :: 4 * g < LoopBound(width) ==> 4 * g + 3 < width) <==> width >= 3
  {
    if width < 3 {
      assert LoopBound(width) == width + 0x1_0000_0000_0000_0000 - 3;
      assert 4 * 0 < LoopBound(width) && !(4 * 0 + 3 < width);
    } else {
      assert LoopBound(width) == width - 3;
    }
  }

  /** The columns written in whole groups, and those with the tail of two. */
  function Grouped(width: nat): nat { width - width % 4 }

  function Written(width: nat): (w: nat)
    ensures w <= Even(width)
  {
    width - width % 4 + if width % 4 != 0 then 2 else 0
  }

  /** Every column of the picture is written exactly if no third column is left over after the groups;
      for even widths that is always so, and nothing past the width is written. */
  lemma {:induction false} AllColumnsIff(width: nat)
    ensures width <= Written(width) <==> width % 4 != 3
    ensures width % 2 == 0 ==> Written(width) == width
  {
    var q, r := width / 4, width % 4;
    assert width == 4 * q + r && 0 <= r < 4;
    if width % 2 == 0 {
      assert r == 0 || r == 2;
    }
  }

  // ---------- planes ----------

  predicate TenBit(p: Plane<bv16>) {
    forall i, j :: 0 <= i < |p| && 0 <= j < |p[i]| ==> p[i][j] <= 0x3FF
  }

  predicate Valid(pic: Picture<bv16>) {
    pic.Paired() && TenBit(pic.y) && TenBit(pic.u) && TenBit(pic.v)
  }

  /** Pixel (i, j) packed by itself: its Y, and the U and V that it shares with three others. */
  function Pixel(pic: Picture<bv16>, i: nat, j: nat, alpha: bv32): bv32
    requires pic.Paired() && i < Even(pic.height) && j < Even(pic.width)
  {
    Word(alpha, pic.y[i][j], pic.u[i / 2][j / 2], pic.v[i / 2][j / 2])
  }

  /** The alpha of column `c`: that of the tail is left clear. */
  function Alpha(width: nat, c: nat): bv32 { if c < Grouped(width) then 3 else 0 }

  /** Two pixels from a pair of luma samples and the chroma that they share. */
  method PackTwo(a: bv16, b: bv16, alpha: bv32, ghost u: bv16, ghost v: bv16, uv: bv32) returns (p: bv32, q: bv32)
    requires a <= 0x3FF && uv == Chroma(u, v)
    ensures p == Word(alpha, a, u, v) && q == Word(alpha, b, u, v)
  {
    var y01 := Pair(a, b);
    Halves(a, b);
    PackedJoins(alpha, a as bv32, u as bv32, v as bv32);
    PackedJoins(alpha, b as bv32, u as bv32, v as bv32);
    p, q := Packed(alpha, y01 & 0x3FF, uv), Packed(alpha, y01 >> 16, uv);
  }

  /** The chroma of a group of four columns, from a pair of U and a pair of V samples. */
  method GroupChroma(u0: bv16, u1: bv16, v0: bv16, v1: bv16) returns (uv0: bv32, uv1: bv32)
    requires u0 <= 0x3FF && v0 <= 0x3FF
    ensures uv0 == Chroma(u0, v0) && uv1 == Chroma(u1, v1)
  {
    var u01, v01 := Pair(u0, u1), Pair(v0, v1);
    Halves(u0, u1);
    Halves(v0, v1);
    uv0, uv1 := (u01 & 0x3FF) | ((v01 & 0x3FF) << 20), (u01 >> 16) | ((v01 >> 16) << 20);
  }

  /** The chroma of the tail. */
  method TailChroma(u: bv16, v: bv16) returns (uv: bv32)
    requires u <= 0x3FF && v <= 0x3FF
    ensures uv == Chroma(u, v)
  {
    uv := (u as bv32 & 0x3FF) | ((v as bv32 & 0x3FF) << 20);
  }

  /** Stores two words next to each other. */
  method Store(dst: array2<bv32>, i: nat, x: nat, p: bv32, q: bv32)
    requires i < dst.Length0 && x + 2 <= dst.Length1
    modifies dst
    ensures dst[i, x] == p && dst[i, x + 1] == q
    ensures forall r, c :: 0 <= r < dst.Length0 && 0 <= c < dst.Length1 && !(r == i && x <= c < x + 2) ==>
                             dst[r, c] == old(dst[r, c])
  {
    dst[i, x] := p;
    dst[i, x + 1] := q;
  }

  lemma {:induction false} SharedColumn(x: nat)
    requires x % 2 == 0
    ensures (x + 1) / 2 == x / 2
  {
  }

  lemma {:induction false} NextColumns(x: nat)
    requires x % 4 == 0
    ensures (x + 2) / 2 == x / 2 + 1 && (x + 2) % 2 == 0 && x % 2 == 0
  {
    var n := 2 * (x / 4);
    assert x == 2 * n;
    assert (2 * n) / 2 == n && (2 * n) % 2 == 0;
    assert x + 2 == 2 * (n + 1);
    assert (2 * (n + 1)) / 2 == n + 1 && (2 * (n + 1)) % 2 == 0;
  }

  lemma {:induction false} ChromaIsTenBit(pic: Picture<bv16>, h: nat, k: nat)
    requires Valid(pic) && h < |pic.u| && h < |pic.v| && k < |pic.u[h]| && k < |pic.v[h]|
    ensures pic.u[h][k] <= 0x3FF && pic.v[h][k] <= 0x3FF
  {
  }

  /** Columns `x` and `x + 1` of line `i`. */
  method PackPair(dst: array2<bv32>, pic: Picture<bv16>, i: nat, x: nat, alpha: bv32, uv: bv32)
    requires Valid(pic) && i < Even(pic.height) <= dst.Length0
    requires x % 2 == 0 && x + 2 <= Even(pic.width) <= dst.Length1
    requires uv == Chroma(pic.u[i / 2][x / 2], pic.v[i / 2][x / 2])
    modifies dst
    ensures forall c :: x <= c < x + 2 ==> dst[i, c] == Pixel(pic, i, c, alpha)
    ensures forall r, c :: 0 <= r < dst.Length0 && 0 <= c < dst.Length1 && !(r == i && x <= c < x + 2) ==>
                             dst[r, c] == old(dst[r, c])
  {
    var p, q := PackTwo(pic.y[i][x], pic.y[i][x + 1], alpha, pic.u[i / 2][x / 2], pic.v[i / 2][x / 2], uv);
    SharedColumn(x);
    Store(dst, i, x, p, q);
  }

  /** Both lines of one group of four columns. */
  method PackGroup(dst: array2<bv32>, pic: Picture<bv16>, i: nat, x: nat)
    requires Valid(pic) && i % 2 == 0 && i + 2 <= Even(pic.height) <= dst.Length0
    requires x % 4 == 0 && x + 4 <= Even(pic.width) <= dst.Length1
    modifies dst
    ensures forall r, c :: i <= r < i + 2 && x <= c < x + 4 ==> dst[r, c] == Pixel(pic, r, c, 3)
    ensures forall r, c :: 0 <= r < dst.Length0 && 0 <= c < dst.Length1 && !(i <= r < i + 2 && x <= c < x + 4) ==>
                             dst[r, c] == old(dst[r, c])
  {
    hide Pixel, Chroma, TenBit;
    var h, k := i / 2, x / 2;
    assert pic.u[h][k] <= 0x3FF && pic.v[h][k] <= 0x3FF by {
      ChromaIsTenBit(pic, h, k);
    }
    SharedColumn(i);
    NextColumns(x);
    var uv0, uv1 := GroupChroma(pic.u[h][k], pic.u[h][k + 1], pic.v[h][k], pic.v[h][k + 1]);
    PackPair(dst, pic, i, x, 3, uv0);
    PackPair(dst, pic, i, x + 2, 3, uv1);
    PackPair(dst, pic, i + 1, x, 3, uv0);
    PackPair(dst, pic, i + 1, x + 2, 3, uv1);
  }

  /** The tail of two columns of both lines; its alpha is left clear. */
  method PackTail(dst: array2<bv32>, pic: Picture<bv16>, i: nat, x: nat)
    requires Valid(pic) && i % 2 == 0 && i + 2 <= Even(pic.height) <= dst.Length0
    requires x % 2 == 0 && x + 2 <= Even(pic.width) <= dst.Length1
    modifies dst
    ensures forall r, c :: i <= r < i + 2 && x <= c < x + 2 ==> dst[r, c] == Pixel(pic, r, c, 0)
    ensures forall r, c :: 0 <= r < dst.Length0 && 0 <= c < dst.Length1 && !(i <= r < i + 2 && x <= c < x + 2) ==>
                             dst[r, c] == old(dst[r, c])
  {
    hide Pixel, Chroma, TenBit;
    ChromaIsTenBit(pic, i / 2, x / 2);
    var uv := TailChroma(pic.u[i / 2][x / 2], pic.v[i / 2][x / 2]);
    SharedColumn(i);
    PackPair(dst, pic, i, x, 0, uv);
    PackPair(dst, pic, i + 1, x, 0, uv);
  }

  /** The whole groups of lines `i` and `i + 1`; `x` is the first column behind them. */
  method PackGroups(dst: array2<bv32>, pic: Picture<bv16>, i: nat) returns (x: nat)
    requires Valid(pic) && pic.width >= 3
    requires Even(pic.height) <= dst.Length0 && Even(pic.width) <= dst.Length1
    requires i % 2 == 0 && i + 2 <= Even(pic.height)
    modifies dst
    ensures x % 4 == 0 && x <= pic.width < x + 4
    ensures forall r, c :: i <= r < i + 2 && 0 <= c < x ==> dst[r, c] == Pixel(pic, r, c, 3)
    ensures forall r, c :: 0 <= r < dst.Length0 && 0 <= c < dst.Length1 && !(i <= r < i + 2 && c < x) ==>
                             dst[r, c] == old(dst[r, c])
  {
    hide Pixel, TenBit;
    var width := pic.width;
    x := 0;
    while x < width - 3
      invariant x % 4 == 0 && x <= width
      invariant forall r, c :: i <= r < i + 2 && 0 <= c < x ==> dst[r, c] == Pixel(pic, r, c, 3)
      invariant forall r, c :: 0 <= r < dst.Length0 && 0 <= c < dst.Length1 && !(i <= r < i + 2 && c < x) ==>
                                 dst[r, c] == old(dst[r, c])
      decreases width - x
    {
      PackGroup(dst, pic, i, x);
      x := x + 4;
    }
  }

  lemma {:induction false} BehindGroups(width: nat, x: nat)
    requires x % 4 == 0 && x <= width < x + 4
    ensures x == Grouped(width) && Written(width) == if x < width then x + 2 else x
    ensures x < width ==> x + 2 <= Even(width)
  {
    var q := x / 4;
    assert x == 4 * q;
  }

  /** Lines `i` and `i + 1`, groups and tail. */
  method PackTwoLines(dst: array2<bv32>, pic: Picture<bv16>, i: nat)
    requires Valid(pic) && pic.width >= 3
    requires Even(pic.height) <= dst.Length0 && Even(pic.width) <= dst.Length1
    requires i % 2 == 0 && i + 2 <= Even(pic.height)
    modifies dst
    ensures forall r, c :: i <= r < i + 2 && 0 <= c < Written(pic.width) ==>
                             dst[r, c] == Pixel(pic, r, c, Alpha(pic.width, c))
    ensures forall r, c :: 0 <= r < dst.Length0 && 0 <= c < dst.Length1 ==>
                             (i <= r < i + 2 && c < Written(pic.width)) || dst[r, c] == old(dst[r, c])
  {
    hide Pixel, TenBit, Written, Grouped;
    var x := PackGroups(dst, pic, i);
    BehindGroups(pic.width, x);
    if x < pic.width {
      PackTail(dst, pic, i, x);
    }
  }

  /** Packing writes exactly the columns of `Written`, each as if packed by itself, and leaves the
      padding alone. */
  method Pack(dst: array2<bv32>, pic: Picture<bv16>)
    requires Valid(pic) && pic.width >= 3
    requires Even(pic.height) <= dst.Length0 && Even(pic.width) <= dst.Length1
    modifies dst
    ensures forall r, c :: 0 <= r < Even(pic.height) && 0 <= c < Written(pic.width) ==>
                             dst[r, c] == Pixel(pic, r, c, Alpha(pic.width, c))
    ensures forall r, c :: 0 <= r < dst.Length0 && 0 <= c < dst.Length1 ==>
                             (r < Even(pic.height) && c < Written(pic.width)) || dst[r, c] == old(dst[r, c])
  {
    hide Pixel;
    var i := 0;
    while i < pic.height
      invariant i % 2 == 0 && i <= Even(pic.height)
      invariant forall r, c :: 0 <= r < i && 0 <= c < Written(pic.width) ==>
                                 dst[r, c] == Pixel(pic, r, c, Alpha(pic.width, c))
      invariant forall r, c :: 0 <= r < dst.Length0 && 0 <= c < dst.Length1 && !(r < i && c < Written(pic.width)) ==>
                                 dst[r, c] == old(dst[r, c])
    {
      PackTwoLines(dst, pic, i);
      i := i + 2;
    }
  }

  /** The alpha of a written column is set exactly if it lies in a whole group of four. */
  lemma {:induction false} AlphaSetIff(pic: Picture<bv16>, i: nat, j: nat)
    requires Valid(pic) && i < Even(pic.height) && j < Written(pic.width)
    ensures var alpha := Pixel(pic, i, j, Alpha(pic.width, j)) >> 30;
            if j < pic.width - pic.width % 4 then alpha == 3 else alpha == 0
  {
    WordFields(Alpha(pic.width, j), pic.y[i][j], pic.u[i / 2][j / 2], pic.v[i / 2][j / 2]);
  }

  /** The fields of a word. */
  function LumaOf(w: bv32): bv32 { (w >> 10) & 0x3FF }

  function FirstChromaOf(w: bv32): bv32 { w & 0x3FF }

  function SecondChromaOf(w: bv32): bv32 { (w >> 20) & 0x3FF }

  /** Unpacking gives the planes back: in a picture of even width every column is written, and the three
      colour fields of its word are the pixel's own Y and the U and V of its square. */
  lemma {:induction false} UnpackingRecovers(pic: Picture<bv16>, i: nat, j: nat)
    requires Valid(pic) && pic.width % 2 == 0 && i < pic.height && j < pic.width
    ensures var w := Pixel(pic, i, j, Alpha(pic.width, j));
            && j < Written(pic.width)
            && LumaOf(w) == pic.y[i][j] as bv32
            && FirstChromaOf(w) == pic.u[i / 2][j / 2] as bv32
            && SecondChromaOf(w) == pic.v[i / 2][j / 2] as bv32
  {
    AllColumnsIff(pic.width);
    WordFields(Alpha(pic.width, j), pic.y[i][j], pic.u[i / 2][j / 2], pic.v[i / 2][j / 2]);
  }
}
