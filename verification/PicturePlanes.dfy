/** The planes that a software decoder hands over: 4:2:0 samples of some type. They are only read, so they
    are values, sequences of lines; a line may go on beyond the width. */
module PicturePlanes {

  type Plane<T> = seq<seq<T>>

  function Half(n: nat): nat { (n + 1) / 2 }

  function Even(n: nat): nat { 2 * ((n + 1) / 2) }

  /** At least `h` lines of at least `w` samples. */
  predicate Covers<T>(p: Plane<T>, h: nat, w: nat) {
    h <= |p| && forall i :: 0 <= i < |p| ==> w <= |p[i]|
  }

  datatype Picture<T> = Picture(width: nat, height: nat, y: Plane<T>, u: Plane<T>, v: Plane<T>) {
    /** One chroma sample to four pixels, odd sizes rounded up. */
    predicate HasChroma() {
      Covers(u, Half(height), Half(width)) && Covers(v, Half(height), Half(width))
    }

    /** Luma in whole pairs of lines and of columns, as two-line conversions need it. */
    predicate Paired() { HasChroma() && Covers(y, Even(height), Even(width)) }
  }
}
