/** The two other conversions of 10-bit planes: to P010, which keeps ten bits in the high part of 16, and
    to YV12, which keeps eight; the high bytes of the one are the other. */
module PlanarConversion {
  import opened PicturePlanes

  const NEUTRAL_8: bv8 := 128
  const NEUTRAL_10: bv16 := 512

  /** A monochrome picture has no chroma. */
  predicate Valid(pic: Picture<bv16>, monochrome: bool) {
    Covers(pic.y, pic.height, pic.width) && (monochrome || pic.HasChroma())
  }

  /** The sample in the high ten of sixteen bits. */
  function Wide(s: bv16): bv16 { s << 6 }

  /** The high eight of the ten bits, cut to a byte. */
  function Narrow(s: bv16): bv8 { ((s >> 2) & 0xFF) as bv8 }

  function HighByte(s: bv16): bv8 { (s >> 8) as bv8 }

  /** For every sample, in range or not. */
  lemma {:induction false} HighByteIsNarrow(s: bv16)
    ensures HighByte(Wide(s)) == Narrow(s)
  {
  }

  /** P010 keeps all ten bits of a sample, above six clear ones; YV12 keeps the upper eight. */
  lemma {:induction false} SampleKept(s: bv16)
    requires s <= 0x3FF
    ensures Wide(s) >> 6 == s && Wide(s) & 0x3F == 0 && Narrow(s) as bv16 == s >> 2
  {
  }

  /** The P010 and YV12 forms of a chroma sample. */
  function WideChroma(monochrome: bool, p: Plane<bv16>, i: nat, j: nat): bv16
    requires monochrome || (i < |p| && j < |p[i]|)
  {
    if monochrome then Wide(NEUTRAL_10) else Wide(p[i][j])
  }

  function NarrowChroma(monochrome: bool, p: Plane<bv16>, i: nat, j: nat): bv8
    requires monochrome || (i < |p| && j < |p[i]|)
  {
    if monochrome then NEUTRAL_8 else Narrow(p[i][j])
  }

  /** A monochrome picture gets the middle of the range, in ten bits and in eight. */
  lemma {:induction false} MonochromeIsMiddle(p: Plane<bv16>, i: nat, j: nat)
    ensures WideChroma(true, p, i, j) == 512 << 6 && NarrowChroma(true, p, i, j) == 128
  {
  }

  lemma {:induction false} ChromaHighByte(monochrome: bool, p: Plane<bv16>, i: nat, j: nat)
    requires monochrome || (i < |p| && j < |p[i]|)
    ensures HighByte(WideChroma(monochrome, p, i, j)) == NarrowChroma(monochrome, p, i, j)
  {
    if !monochrome {
      HighByteIsNarrow(p[i][j]);
    }
  }

  // ---------- P010 ----------

  method LumaToP010(dstY: array2<bv16>, pic: Picture<bv16>)
    requires Covers(pic.y, pic.height, pic.width) && pic.height <= dstY.Length0 && pic.width <= dstY.Length1
    modifies dstY
    ensures forall i, j :: 0 <= i < pic.height && 0 <= j < pic.width ==> dstY[i, j] == Wide(pic.y[i][j])
    ensures forall i, j :: 0 <= i < dstY.Length0 && 0 <= j < dstY.Length1 ==>
                             (i < pic.height && j < pic.width) || dstY[i, j] == old(dstY[i, j])
  {
    for h := 0 to pic.height
      invariant forall i, j :: 0 <= i < h && 0 <= j < pic.width ==> dstY[i, j] == Wide(pic.y[i][j])
      invariant forall i, j :: 0 <= i < dstY.Length0 && 0 <= j < dstY.Length1 ==>
                                 (i < h && j < pic.width) || dstY[i, j] == old(dstY[i, j])
    {
      for w := 0 to pic.width
        invariant forall i, j :: 0 <= i < h && 0 <= j < pic.width ==> dstY[i, j] == Wide(pic.y[i][j])
        invariant forall j :: 0 <= j < w ==> dstY[h, j] == Wide(pic.y[h][j])
        invariant forall i, j :: 0 <= i < dstY.Length0 && 0 <= j < dstY.Length1 ==>
                                   (i < h && j < pic.width) || (i == h && j < w) || dstY[i, j] == old(dstY[i, j])
      {
        dstY[h, w] := pic.y[h][w] << 6;
      }
    }
  }

  /** U and V samples alternate. */
  method ChromaToP010(dstUV: array2<bv16>, pic: Picture<bv16>, monochrome: bool)
    requires Valid(pic, monochrome) && Half(pic.height) <= dstUV.Length0 && 2 * Half(pic.width) <= dstUV.Length1
    modifies dstUV
    ensures forall i, j :: 0 <= i < Half(pic.height) && 0 <= j < Half(pic.width) ==>
                             dstUV[i, 2 * j] == WideChroma(monochrome, pic.u, i, j)
                             && dstUV[i, 2 * j + 1] == WideChroma(monochrome, pic.v, i, j)
    ensures forall i, c :: 0 <= i < dstUV.Length0 && 0 <= c < dstUV.Length1 ==>
                             (i < Half(pic.height) && c < 2 * Half(pic.width)) || dstUV[i, c] == old(dstUV[i, c])
  {
    for h := 0 to Half(pic.height)
      invariant forall i, j :: 0 <= i < h && 0 <= j < Half(pic.width) ==>
                                 dstUV[i, 2 * j] == WideChroma(monochrome, pic.u, i, j)
                                 && dstUV[i, 2 * j + 1] == WideChroma(monochrome, pic.v, i, j)
      invariant forall i, c :: 0 <= i < dstUV.Length0 && 0 <= c < dstUV.Length1 ==>
                                 (i < h && c < 2 * Half(pic.width)) || dstUV[i, c] == old(dstUV[i, c])
    {
      for w := 0 to Half(pic.width)
        invariant forall i, j :: 0 <= i < h && 0 <= j < Half(pic.width) ==>
                                   dstUV[i, 2 * j] == WideChroma(monochrome, pic.u, i, j)
                                   && dstUV[i, 2 * j + 1] == WideChroma(monochrome, pic.v, i, j)
        invariant forall j :: 0 <= j < w ==>
                                dstUV[h, 2 * j] == WideChroma(monochrome, pic.u, h, j)
                                && dstUV[h, 2 * j + 1] == WideChroma(monochrome, pic.v, h, j)
        invariant forall i, c :: 0 <= i < dstUV.Length0 && 0 <= c < dstUV.Length1 ==>
                                   (i < h && c < 2 * Half(pic.width)) || (i == h && c < 2 * w)
                                   || dstUV[i, c] == old(dstUV[i, c])
      {
        if monochrome {
          dstUV[h, 2 * w] := NEUTRAL_10 << 6;
          dstUV[h, 2 * w + 1] := NEUTRAL_10 << 6;
        } else {
          dstUV[h, 2 * w] := pic.u[h][w] << 6;
          dstUV[h, 2 * w + 1] := pic.v[h][w] << 6;
        }
      }
    }
  }

  // ---------- YV12 ----------

  method LumaToYV12(dstY: array2<bv8>, pic: Picture<bv16>)
    requires Covers(pic.y, pic.height, pic.width) && pic.height <= dstY.Length0 && pic.width <= dstY.Length1
    modifies dstY
    ensures forall i, j :: 0 <= i < pic.height && 0 <= j < pic.width ==> dstY[i, j] == Narrow(pic.y[i][j])
    ensures forall i, j :: 0 <= i < dstY.Length0 && 0 <= j < dstY.Length1 ==>
                             (i < pic.height && j < pic.width) || dstY[i, j] == old(dstY[i, j])
  {
    for h := 0 to pic.height
      invariant forall i, j :: 0 <= i < h && 0 <= j < pic.width ==> dstY[i, j] == Narrow(pic.y[i][j])
      invariant forall i, j :: 0 <= i < dstY.Length0 && 0 <= j < dstY.Length1 ==>
                                 (i < h && j < pic.width) || dstY[i, j] == old(dstY[i, j])
    {
      for w := 0 to pic.width
        invariant forall i, j :: 0 <= i < h && 0 <= j < pic.width ==> dstY[i, j] == Narrow(pic.y[i][j])
        invariant forall j :: 0 <= j < w ==> dstY[h, j] == Narrow(pic.y[h][j])
        invariant forall i, j :: 0 <= i < dstY.Length0 && 0 <= j < dstY.Length1 ==>
                                   (i < h && j < pic.width) || (i == h && j < w) || dstY[i, j] == old(dstY[i, j])
      {
        dstY[h, w] := ((pic.y[h][w] >> 2) & 0xFF) as bv8;
      }
    }
  }

  /** One chroma plane. */
  method ChromaToYV12(dst: array2<bv8>, pic: Picture<bv16>, monochrome: bool, p: Plane<bv16>)
    requires Valid(pic, monochrome) && (monochrome || p == pic.u || p == pic.v)
    requires Half(pic.height) <= dst.Length0 && Half(pic.width) <= dst.Length1
    modifies dst
    ensures forall i, j :: 0 <= i < Half(pic.height) && 0 <= j < Half(pic.width) ==>
                             dst[i, j] == NarrowChroma(monochrome, p, i, j)
    ensures forall i, j :: 0 <= i < dst.Length0 && 0 <= j < dst.Length1 ==>
                             (i < Half(pic.height) && j < Half(pic.width)) || dst[i, j] == old(dst[i, j])
  {
    for h := 0 to Half(pic.height)
      invariant forall i, j :: 0 <= i < h && 0 <= j < Half(pic.width) ==> dst[i, j] == NarrowChroma(monochrome, p, i, j)
      invariant forall i, j :: 0 <= i < dst.Length0 && 0 <= j < dst.Length1 ==>
                                 (i < h && j < Half(pic.width)) || dst[i, j] == old(dst[i, j])
    {
      for w := 0 to Half(pic.width)
        invariant forall i, j :: 0 <= i < h && 0 <= j < Half(pic.width) ==>
                                   dst[i, j] == NarrowChroma(monochrome, p, i, j)
        invariant forall j :: 0 <= j < w ==> dst[h, j] == NarrowChroma(monochrome, p, h, j)
        invariant forall i, j :: 0 <= i < dst.Length0 && 0 <= j < dst.Length1 ==>
                                   (i < h && j < Half(pic.width)) || (i == h && j < w) || dst[i, j] == old(dst[i, j])
      {
        dst[h, w] := if monochrome then NEUTRAL_8 else ((p[h][w] >> 2) & 0xFF) as bv8;
      }
    }
  }

  // ---------- both ----------

  ghost predicate IsP010(pic: Picture<bv16>, monochrome: bool, dstY: array2<bv16>, dstUV: array2<bv16>)
    requires Valid(pic, monochrome) && pic.height <= dstY.Length0 && pic.width <= dstY.Length1
    requires Half(pic.height) <= dstUV.Length0 && 2 * Half(pic.width) <= dstUV.Length1
    reads dstY, dstUV
  {
    && (forall i, j :: 0 <= i < pic.height && 0 <= j < pic.width ==> dstY[i, j] == Wide(pic.y[i][j]))
    && (forall i, j :: 0 <= i < Half(pic.height) && 0 <= j < Half(pic.width) ==>
                         dstUV[i, 2 * j] == WideChroma(monochrome, pic.u, i, j)
                         && dstUV[i, 2 * j + 1] == WideChroma(monochrome, pic.v, i, j))
  }

  method ToP010(dstY: array2<bv16>, dstUV: array2<bv16>, pic: Picture<bv16>, monochrome: bool)
    requires Valid(pic, monochrome) && pic.height <= dstY.Length0 && pic.width <= dstY.Length1
    requires Half(pic.height) <= dstUV.Length0 && 2 * Half(pic.width) <= dstUV.Length1
    requires dstY != dstUV
    modifies dstY, dstUV
    ensures IsP010(pic, monochrome, dstY, dstUV)
  {
    LumaToP010(dstY, pic);
    ChromaToP010(dstUV, pic, monochrome);
  }

  ghost predicate IsYV12(pic: Picture<bv16>, monochrome: bool, dstY: array2<bv8>, dstU: array2<bv8>, dstV: array2<bv8>)
    requires Valid(pic, monochrome) && pic.height <= dstY.Length0 && pic.width <= dstY.Length1
    requires Half(pic.height) <= dstU.Length0 && Half(pic.width) <= dstU.Length1
    requires Half(pic.height) <= dstV.Length0 && Half(pic.width) <= dstV.Length1
    reads dstY, dstU, dstV
  {
    && (forall i, j :: 0 <= i < pic.height && 0 <= j < pic.width ==> dstY[i, j] == Narrow(pic.y[i][j]))
    && (forall i, j :: 0 <= i < Half(pic.height) && 0 <= j < Half(pic.width) ==>
                         dstU[i, j] == NarrowChroma(monochrome, pic.u, i, j)
                         && dstV[i, j] == NarrowChroma(monochrome, pic.v, i, j))
  }

  method ToYV12(dstY: array2<bv8>, dstU: array2<bv8>, dstV: array2<bv8>, pic: Picture<bv16>, monochrome: bool)
    requires Valid(pic, monochrome) && pic.height <= dstY.Length0 && pic.width <= dstY.Length1
    requires Half(pic.height) <= dstU.Length0 && Half(pic.width) <= dstU.Length1
    requires Half(pic.height) <= dstV.Length0 && Half(pic.width) <= dstV.Length1
    requires dstY != dstU && dstY != dstV && dstU != dstV
    modifies dstY, dstU, dstV
    ensures IsYV12(pic, monochrome, dstY, dstU, dstV)
  {
    LumaToYV12(dstY, pic);
    ChromaToYV12(dstU, pic, monochrome, pic.u);
    ChromaToYV12(dstV, pic, monochrome, pic.v);
  }

  /** Going through P010 and taking high bytes gives the planes of the direct conversion, for all sizes,
      odd ones and monochrome pictures included. */
  lemma {:induction false} RoutesAgree(pic: Picture<bv16>, monochrome: bool, wideY: array2<bv16>, wideUV: array2<bv16>,
                                       dstY: array2<bv8>, dstU: array2<bv8>, dstV: array2<bv8>)
    requires Valid(pic, monochrome) && pic.height <= wideY.Length0 && pic.width <= wideY.Length1
    requires Half(pic.height) <= wideUV.Length0 && 2 * Half(pic.width) <= wideUV.Length1
    requires pic.height <= dstY.Length0 && pic.width <= dstY.Length1
    requires Half(pic.height) <= dstU.Length0 && Half(pic.width) <= dstU.Length1
    requires Half(pic.height) <= dstV.Length0 && Half(pic.width) <= dstV.Length1
    requires IsP010(pic, monochrome, wideY, wideUV) && IsYV12(pic, monochrome, dstY, dstU, dstV)
    ensures forall i, j :: 0 <= i < pic.height && 0 <= j < pic.width ==> dstY[i, j] == HighByte(wideY[i, j])
    ensures forall i, j :: 0 <= i < Half(pic.height) && 0 <= j < Half(pic.width) ==>
                             dstU[i, j] == HighByte(wideUV[i, 2 * j]) && dstV[i, j] == HighByte(wideUV[i, 2 * j + 1])
  {
    forall i, j | 0 <= i < pic.height && 0 <= j < pic.width
      ensures dstY[i, j] == HighByte(wideY[i, j])
    {
      HighByteIsNarrow(pic.y[i][j]);
    }
    forall i, j | 0 <= i < Half(pic.height) && 0 <= j < Half(pic.width)
      ensures dstU[i, j] == HighByte(wideUV[i, 2 * j]) && dstV[i, j] == HighByte(wideUV[i, 2 * j + 1])
    {
      ChromaHighByte(monochrome, pic.u, i, j);
      ChromaHighByte(monochrome, pic.v, i, j);
    }
  }

  predicate TenBit(p: Plane<bv16>) {
    forall i, j :: 0 <= i < |p| && 0 <= j < |p[i]| ==> p[i][j] <= 0x3FF
  }

  lemma {:induction false} ChromaKept(p: Plane<bv16>, i: nat, j: nat)
    requires TenBit(p) && i < |p| && j < |p[i]|
    ensures WideChroma(false, p, i, j) >> 6 == p[i][j] && NarrowChroma(false, p, i, j) as bv16 == p[i][j] >> 2
  {
    SampleKept(p[i][j]);
  }

  /** The planes of a ten-bit picture with chroma come back from both forms, each sample in its own place: whole
      from P010, its upper eight bits from YV12. */
  lemma {:induction false} PlanesRecovered(pic: Picture<bv16>, wideY: array2<bv16>, wideUV: array2<bv16>,
                                           dstY: array2<bv8>, dstU: array2<bv8>, dstV: array2<bv8>)
    requires Valid(pic, false) && TenBit(pic.y) && TenBit(pic.u) && TenBit(pic.v)
    requires pic.height <= wideY.Length0 && pic.width <= wideY.Length1
    requires Half(pic.height) <= wideUV.Length0 && 2 * Half(pic.width) <= wideUV.Length1
    requires pic.height <= dstY.Length0 && pic.width <= dstY.Length1
    requires Half(pic.height) <= dstU.Length0 && Half(pic.width) <= dstU.Length1
    requires Half(pic.height) <= dstV.Length0 && Half(pic.width) <= dstV.Length1
    requires IsP010(pic, false, wideY, wideUV) && IsYV12(pic, false, dstY, dstU, dstV)
    ensures forall i, j :: 0 <= i < pic.height && 0 <= j < pic.width ==>
                             wideY[i, j] >> 6 == pic.y[i][j] && dstY[i, j] as bv16 == pic.y[i][j] >> 2
    ensures forall i, j :: 0 <= i < Half(pic.height) && 0 <= j < Half(pic.width) ==>
                             && wideUV[i, 2 * j] >> 6 == pic.u[i][j] && wideUV[i, 2 * j + 1] >> 6 == pic.v[i][j]
                             && dstU[i, j] as bv16 == pic.u[i][j] >> 2 && dstV[i, j] as bv16 == pic.v[i][j] >> 2
  {
    hide Wide, Narrow, WideChroma, NarrowChroma;
    forall i, j | 0 <= i < pic.height && 0 <= j < pic.width
      ensures wideY[i, j] >> 6 == pic.y[i][j] && dstY[i, j] as bv16 == pic.y[i][j] >> 2
    {
      SampleKept(pic.y[i][j]);
    }
    forall i, j | 0 <= i < Half(pic.height) && 0 <= j < Half(pic.width)
      ensures && wideUV[i, 2 * j] >> 6 == pic.u[i][j] && wideUV[i, 2 * j + 1] >> 6 == pic.v[i][j]
              && dstU[i, j] as bv16 == pic.u[i][j] >> 2 && dstV[i, j] as bv16 == pic.v[i][j] >> 2
    {
      ChromaKept(pic.u, i, j);
      ChromaKept(pic.v, i, j);
    }
  }
}
