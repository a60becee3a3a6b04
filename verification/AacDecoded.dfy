/** What the AAC library decodes, told from its replies alone, and that the decode loops put exactly this in
    the ring. */
module AacDecoded {
  import opened Options
  import opened RingBuffer
  import opened AdtsFraming
  import opened AacModel
  import opened AacLoops
  import opened AacAccounting

  // ---------- what the library yields ----------

  /** What a reply is worth: a good frame as it is, zeros for a bad one. */
  function Worth(r: Reply): seq<Sample> {
    match r
    case NotEnoughBits => []
    case Frame(ok, pcm, _, _, _) => if ok then pcm else seq(|pcm|, _ => 0)
  }

  /** What the library decodes in its calls from `a` up to `b`. */
  function Yielded(w: World, a: nat, b: nat): seq<Sample>
    requires a <= b
    decreases b - a
  {
    if a == b then [] else Worth(w.decode(a)) + Yielded(w, a + 1, b)
  }

  function FramesIn(w: World, a: nat, b: nat): nat
    requires a <= b
    decreases b - a
  {
    if a == b then 0 else (if w.decode(a).Frame? then 1 else 0) + FramesIn(w, a + 1, b)
  }

  /** The first `n` samples of the frames that flushing calls yield from call `a` on. */
  function Flushed(w: World, a: nat, n: nat): seq<Sample>
    decreases n
  {
    var pcm: seq<Sample> := w.flush(a);
    if n <= |pcm| then pcm[..n] else pcm + Flushed(w, a + 1, n - |pcm|)
  }

  lemma {:induction false} YieldedJoin(w: World, a: nat, b: nat, c: nat)
    requires a <= b <= c
    ensures Yielded(w, a, b) + Yielded(w, b, c) == Yielded(w, a, c)
    ensures FramesIn(w, a, b) + FramesIn(w, b, c) == FramesIn(w, a, c)
    decreases b - a
  {
    if a < b {
      YieldedJoin(w, a + 1, b, c);
      assert Worth(w.decode(a)) + Yielded(w, a + 1, b) + Yielded(w, b, c)
          == Worth(w.decode(a)) + (Yielded(w, a + 1, b) + Yielded(w, b, c));
    }
  }

  // ---------- one burst ----------

  /** From `c` to `r` the ring got exactly what the library decoded, and one size was noted for each frame. */
  predicate Took(w: World, c: Core, r: Core) {
    && c.clock <= r.clock
    && r.line == c.line + Yielded(w, c.clock, r.clock)
    && r.log.fed == c.log.fed + Yielded(w, c.clock, r.clock)
    && r.log.decoded == c.log.decoded + |Yielded(w, c.clock, r.clock)|
    && r.log.lead == c.log.lead && r.compensated == c.compensated && r.error == c.error
  }

  lemma {:induction false} TookNothing(w: World, c: Core)
    ensures Took(w, c, c)
  {
    assert c.line + [] == c.line && c.log.fed + [] == c.log.fed;
  }

  lemma {:induction false} TookTwice(w: World, a: Core, b: Core, c: Core)
    requires Took(w, a, b) && Took(w, b, c)
    ensures Took(w, a, c)
  {
    var first, second := Yielded(w, a.clock, b.clock), Yielded(w, b.clock, c.clock);
    YieldedJoin(w, a.clock, b.clock, c.clock);
    assert a.line + first + second == a.line + (first + second);
    assert a.log.fed + first + second == a.log.fed + (first + second);
  }

  /** One call that leaves something in the ring. */
  lemma {:induction false} TookFrame(w: World, c: Core, r: Core)
    requires r.clock == c.clock + 1 && r.line == c.line + Worth(w.decode(c.clock))
    requires r.log.fed == c.log.fed + Worth(w.decode(c.clock))
    requires r.log.decoded == c.log.decoded + |Worth(w.decode(c.clock))|
    requires r.log.lead == c.log.lead && r.compensated == c.compensated && r.error == c.error
    ensures Took(w, c, r)
  {
    var worth := Worth(w.decode(c.clock));
    assert Yielded(w, c.clock, r.clock) == worth + Yielded(w, r.clock, r.clock);
    assert worth + [] == worth;
  }

  /** What a burst took from the library, if it did not fail. */
  lemma {:induction false} BurstTakes(w: World, c: Core, sizes: seq<int>, bytesLeft: nat)
    requires |c.line| <= w.ringSize
    ensures var b := DecodeFrames(w, c, sizes, bytesLeft);
            && c.clock <= b.core.clock
            && (!b.failed ==> Took(w, c, b.core) && |b.sizes| == |sizes| + FramesIn(w, c.clock, b.core.clock))
    decreases w.ringSize - |c.line|
  {
    TookNothing(w, c);
    if w.ringSize - |c.line| >= c.frame {
      match w.decode(c.clock)
      case NotEnoughBits => TookFrame(w, c, c.(clock := c.clock + 1));
      case Frame(ok, pcm, delay, consumed, accepted) =>
        var c' := c.(clock := c.clock + 1, frame := |pcm|, delay := delay);
        var samples: seq<Sample> := Worth(w.decode(c.clock));
        var fed := Feed(c', samples);
        if bytesLeft == 0 && |c.line| + |pcm| <= w.ringSize {
          TookFrame(w, c, fed);
          if accepted && ok {
            BurstTakes(w, fed, sizes + [consumed], 0);
            var b := DecodeFrames(w, fed, sizes + [consumed], 0);
            if !b.failed {
              TookTwice(w, c, fed, b.core);
              YieldedJoin(w, c.clock, fed.clock, b.core.clock);
            }
          }
        }
    }
  }

  predicate Usable(r: Reply) { r.Frame? && r.ok && r.accepted }

  /** When a burst ends, and how: all its replies but the last are good frames. It gives the rest of the input
      up after a bad frame, and when the ring has no room for another frame; it fails if a frame comes before
      the library has taken its input, does not fit the ring, or has parameters that are not accepted. */
  lemma {:induction false} BurstEnds(w: World, c: Core, sizes: seq<int>, bytesLeft: nat)
    requires |c.line| <= w.ringSize
    ensures var b := DecodeFrames(w, c, sizes, bytesLeft); var n := b.core.clock;
            && c.clock <= n && (forall t :: c.clock <= t < n - 1 ==> Usable(w.decode(t)))
            && if n == c.clock then !b.failed && b.discard && w.ringSize - |c.line| < c.frame
               else match w.decode(n - 1)
                 case NotEnoughBits => !b.failed && !b.discard
                 case Frame(ok, pcm, _, _, accepted) =>
                   && (b.failed <==>
                         bytesLeft != 0 || |c.line| + |Yielded(w, c.clock, n)| > w.ringSize || !accepted)
                   && (!b.failed ==> b.discard && (!ok || w.ringSize - |b.core.line| < |pcm|))
    decreases w.ringSize - |c.line|
  {
    if w.ringSize - |c.line| >= c.frame && w.decode(c.clock).Frame? {
      var f := w.decode(c.clock);
      var pcm: seq<Sample> := f.pcm;
      var fed := Feed(c.(clock := c.clock + 1, frame := |pcm|, delay := f.delay), Worth(f));
      OneYielded(w, c.clock);
      if bytesLeft == 0 && |c.line| + |pcm| <= w.ringSize && f.accepted && f.ok {
        var b := DecodeFrames(w, fed, sizes + [f.consumed], 0);
        assert b == DecodeFrames(w, c, sizes, bytesLeft);
        BurstEnds(w, fed, sizes + [f.consumed], 0);
        hide DecodeFrames, Yielded;
        YieldedJoin(w, c.clock, fed.clock, b.core.clock);
      } else {
        hide Yielded;
      }
    }
  }

  lemma {:induction false} OneYielded(w: World, a: nat)
    ensures Yielded(w, a, a + 1) == Worth(w.decode(a))
  {
    assert Yielded(w, a, a + 1) == Worth(w.decode(a)) + Yielded(w, a + 1, a + 1);
  }

  // ---------- one input ----------

  predicate NoneBad(w: World, a: nat, b: int) {
    forall t :: a <= t < b && w.decode(t).Frame? ==> w.decode(t).ok
  }

  /** What a walk took from the library, if it did not fail. A bad frame is the last that is decoded of an
      input: the rest is given up. */
  predicate WalkTook(w: World, c: Core, k: Walk) {
    && c.clock <= k.core.clock
    && (!k.failed ==>
          && Took(w, c, k.core) && |k.sizes| == FramesIn(w, c.clock, k.core.clock)
          && NoneBad(w, c.clock, k.core.clock - 1) && (k.size > 0 ==> NoneBad(w, c.clock, k.core.clock)))
  }

  lemma {:induction false} ChunkTakes(w: World, input: seq<Byte>, c: Core, k: Walk, n: nat)
    requires |k.core.line| <= w.ringSize && n <= k.size && k.offset + k.size == |input|
    requires WalkTook(w, c, k) && NoneBad(w, c.clock, k.core.clock) && !k.failed
    ensures WalkTook(w, c, OfferChunk(w, input, k, n))
  {
    var used := Min(w.fill(k.core.clock), n);
    var b := DecodeFrames(w, k.core, k.sizes, n - used);
    BurstTakes(w, k.core, k.sizes, n - used);
    BurstEnds(w, k.core, k.sizes, n - used);
    hide DecodeFrames;
    if !b.failed {
      TookTwice(w, c, k.core, b.core);
      YieldedJoin(w, c.clock, k.core.clock, b.core.clock);
    }
  }

  lemma {:induction false} RoundTakes(w: World, adts: bool, input: seq<Byte>, c: Core, k: Walk)
    requires WalkOk(w, input, k) && WalkTook(w, c, k)
    ensures WalkTook(w, c, Round(w, adts, input, k))
  {
    hide Took, OfferChunk;
    if !Ended(k) {
      if !adts {
        ChunkTakes(w, input, c, k, k.size);
      } else if ReadHeader(input[k.offset..]).Good? {
        var h := ReadHeader(input[k.offset..]);
        ChunkTakes(w, input, c, k.(offset := k.offset + h.headerSize, size := k.size - h.headerSize), h.payload);
      }
    }
  }

  lemma {:induction false} RoundsTake(w: World, adts: bool, input: seq<Byte>, c: Core, k: Walk, n: nat)
    requires WalkOk(w, input, k) && WalkTook(w, c, k)
    ensures WalkTook(w, c, Rounds(w, adts, input, k, n))
    decreases n
  {
    hide WalkTook, Round;
    if n > 0 {
      RoundTakes(w, adts, input, c, k);
      RoundsTake(w, adts, input, c, Round(w, adts, input, k), n - 1);
    }
  }

  /** Decoding an input puts in the ring, behind what is there, exactly what the library decoded, and notes
      one size for each frame; unless an error is signalled. */
  lemma {:induction false} InputTakes(w: World, c: Core, job: Job)
    requires |c.line| <= w.ringSize && Ends(w, job.adts, job.input, Start(c, job.input))
    ensures WalkTook(w, c, Walked(w, c, job))
  {
    var n: nat :| Walked(w, c, job) == Rounds(w, job.adts, job.input, Start(c, job.input), n);
    TookNothing(w, c);
    RoundsTake(w, job.adts, job.input, c, Start(c, job.input), n);
  }

  // ---------- raw input ----------

  /** The bytes that the library takes of what it is offered in a walk over raw input. */
  function Taken(w: World, input: seq<Byte>, k: Walk, n: nat): seq<Byte>
    requires WalkOk(w, input, k)
    decreases n
  {
    if n == 0 || Ended(k) then []
    else
      var r := Round(w, false, input, k);
      var chunk := if r.offered == [] then [] else r.offered[|r.offered| - 1];
      chunk[..Min(w.fill(k.core.clock), |chunk|)] + Taken(w, input, r, n - 1)
  }

  /** A round takes from the front of what is left. */
  lemma {:induction false} RoundOffersRest(w: World, input: seq<Byte>, k: Walk)
    requires WalkOk(w, input, k) && !Ended(k)
    ensures var r, used := Round(w, false, input, k), Min(w.fill(k.core.clock), k.size);
            r.offset == k.offset + used && r.offered == k.offered + [input[k.offset..k.offset + k.size]]
  {
    hide DecodeFrames;
  }

  /** Raw input is offered from where the library stopped: it takes each byte once and in order. */
  lemma {:induction false} RawIsTakenOnce(w: World, input: seq<Byte>, k: Walk, n: nat)
    requires WalkOk(w, input, k) && k.offset <= |input|
    ensures var r := Rounds(w, false, input, k, n);
            k.offset <= r.offset <= |input| && Taken(w, input, k, n) == input[k.offset..r.offset]
    decreases n
  {
    hide Round;
    if n > 0 {
      if Ended(k) {
        EndIsFinal(w, false, input, k, n);
      } else {
        RoundOffersRest(w, input, k);
        RawIsTakenOnce(w, input, Round(w, false, input, k), n - 1);
      }
    }
  }
}
