/** The AAC decoder as functions on values. The AAC library, the block pool and the parameter store
    are oracles: arbitrary functions from the number of a call to what the call answers. */
module AacModel {
  import opened Options
  import opened RingBuffer
  import opened AdtsFraming
  import opened AacDelayLine

  /** One frame of interleaved samples; the library never announces an empty frame or more than
      2048 samples for each of 8 channels. */
  type Pcm = s: seq<Sample> | 0 < |s| <= 16384 witness [0]

  /** What one decode call does: it needs more bytes, or it yields a frame (to be replaced by silence
      when `ok` is false) and announces the delay. `accepted` tells whether the parameter store takes
      the new sample rate and channel count, if they changed. */
  datatype Reply = NotEnoughBits | Frame(ok: bool, pcm: Pcm, delay: nat, consumed: int, accepted: bool)

  datatype World = World(
    ringSize: nat,
    fill: nat -> nat,        // bytes the library takes, at most those offered
    decode: nat -> Reply,
    flush: nat -> Pcm,       // the frame a flushing decode call yields
    config: nat -> bool,     // the library accepts a codec configuration
    fetch: nat -> bool,      // an output block can be allocated
    port: nat -> bool)       // the parameter store accepts a larger output port delay

  /** What has happened since the last flush or stop: all samples put in the ring, how many of them
      came from decoding, how many were discarded to make up for the delay, whether all discards came
      before the first output, and the indices of the works put on the list of undone works. */
  datatype Log = Log(fed: seq<Sample>, decoded: nat, lead: nat, aligned: bool, noted: seq<nat>)

  datatype Core = Core(
    line: seq<Sample>,       // the ring, oldest sample first
    infos: seq<Info>,
    compensated: nat,
    frame: nat,              // frameSize * numChannels of the stream information
    delay: nat,              // outputDelay * numChannels of the stream information
    portDelay: nat,
    error: bool,
    clock: nat,              // number of the next call to an oracle
    answers: seq<Answer>,    // since the last flush or stop
    log: Log)

  function Emitted(c: Core): seq<Sample> { Samples(c.answers) }

  function Min(a: nat, b: nat): nat { if a < b then a else b }

  function Silence(n: nat): seq<Sample> { seq(n, _ => 0) }

  // ---------- drains ----------

  /** Makes the library give back the samples that were discarded at the start, frame by frame. */
  function DrainDecoder(w: World, c: Core): (r: Core)
    ensures r.infos == c.infos && r.answers == c.answers && r.delay == c.delay && r.portDelay == c.portDelay
    decreases c.compensated
  {
    if c.compensated == 0 then c
    else
      var pcm: seq<Sample> := w.flush(c.clock);
      var n := Min(|pcm|, c.compensated);
      var c' := c.(clock := c.clock + 1, frame := |pcm|);
      if |c.line| + n > w.ringSize then c'.(error := true)
      else DrainDecoder(w, Refill(c', pcm[..n]))
  }

  function Refill(c: Core, samples: seq<Sample>): Core
    requires |samples| <= c.compensated
  {
    c.(line := c.line + samples, compensated := c.compensated - |samples|,
       log := c.log.(fed := c.log.fed + samples))
  }

  function LineDrain(w: World, c: Core, eos: bool): Drained {
    DrainLine(c.infos, c.line, c.frame, eos, w.fetch, c.clock)
  }

  function DrainRing(w: World, c: Core, eos: bool): Core {
    var d := LineDrain(w, c, eos);
    c.(infos := d.rest, line := d.line, clock := d.fetches, answers := c.answers + d.answers)
  }

  /** Answers all undone works but the last without samples. */
  function FinishOlder(c: Core): (r: Core)
    ensures r == c.(infos := r.infos, answers := r.answers)
    decreases |c.infos|
  {
    if |c.infos| <= 1 then c
    else FinishOlder(c.(infos := c.infos[1..], answers := c.answers + [Answer(c.infos[0].index, [], Fine)]))
  }

  /** The current work is answered in place by the ring drain. */
  predicate InPlace(w: World, c: Core, eos: bool, work: Option<nat>) {
    work.Some? && work.value in Answered(LineDrain(w, c, eos).answers)
  }

  /** The end of `drainInternal` when the stream ends. */
  function CloseStream(c: Core, pending: Option<nat>): Core {
    var c' := FinishOlder(c);
    c'.(infos := [],
        answers := c'.answers + (if pending.Some? then [Answer(pending.value, [], Fine)] else []))
  }

  function Drain(w: World, c: Core, eos: bool, work: Option<nat>): Core {
    var c1 := DrainDecoder(w, c);
    var c2 := DrainRing(w, c1, eos);
    if eos then CloseStream(c2, if InPlace(w, c1, eos, work) then None else work) else c2
  }

  /** Drops everything that is undone; the log starts afresh. */
  function Flush(w: World, c: Core): Core {
    var c' := DrainDecoder(w, c);
    c'.(infos := [], line := [], answers := [],
        log := Log([], c'.compensated, 0, true, []))
  }

  // ---------- decoding ----------

  datatype Burst = Burst(core: Core, sizes: seq<int>, failed: bool, discard: bool)

  function Feed(c: Core, samples: seq<Sample>): Core {
    c.(line := c.line + samples,
       log := c.log.(fed := c.log.fed + samples, decoded := c.log.decoded + |samples|))
  }

  /** Decodes frames until the library needs more bytes, reports an error, or the ring is too full.
      `bytesLeft` is what the library did not take of the last chunk. */
  function DecodeFrames(w: World, c: Core, sizes: seq<int>, bytesLeft: nat): (b: Burst)
    requires |c.line| <= w.ringSize
    decreases w.ringSize - |c.line|
  {
    if w.ringSize - |c.line| < c.frame then Burst(c, sizes, false, true)
    else match w.decode(c.clock)
      case NotEnoughBits => Burst(c.(clock := c.clock + 1), sizes, false, false)
      case Frame(ok, pcm, delay, consumed, accepted) =>
        var c' := c.(clock := c.clock + 1, frame := |pcm|, delay := delay);
        var sizes' := sizes + [consumed];
        if bytesLeft != 0 || |c.line| + |pcm| > w.ringSize then Burst(c'.(error := true), sizes', true, false)
        else
          var fed := Feed(c', if ok then pcm else Silence(|pcm|));
          if !accepted then Burst(fed.(error := true), sizes', true, !ok)
          else if !ok then Burst(fed, sizes', false, true)
          else DecodeFrames(w, fed, sizes', 0)
  }

  lemma {:induction false} BurstFits(w: World, c: Core, sizes: seq<int>, bytesLeft: nat)
    requires |c.line| <= w.ringSize
    ensures var b := DecodeFrames(w, c, sizes, bytesLeft);
            && |b.core.line| <= w.ringSize
            && b.core.infos == c.infos && b.core.answers == c.answers
            && b.core.compensated == c.compensated && b.core.portDelay == c.portDelay
            && b.core.log.noted == c.log.noted
            && (b.core.error <==> c.error || b.failed)
    decreases w.ringSize - |c.line|
  {
    if w.ringSize - |c.line| >= c.frame && w.decode(c.clock).Frame? {
      var f := w.decode(c.clock);
      var pcm: seq<Sample> := f.pcm;
      var c' := c.(clock := c.clock + 1, frame := |pcm|, delay := f.delay);
      if bytesLeft == 0 && |c.line| + |pcm| <= w.ringSize {
        var fed := Feed(c', if f.ok then pcm else Silence(|pcm|));
        assert |fed.line| == |c.line| + |pcm|;
        if f.accepted && f.ok {
          BurstFits(w, fed, sizes + [f.consumed], 0);
        }
      }
    }
  }

  /** The state of the outer loop: what is left of the input, and the chunks offered so far. */
  datatype Walk = Walk(core: Core, offset: nat, size: nat, sizes: seq<int>, failed: bool,
                       offered: seq<seq<Byte>>)

  predicate Ended(k: Walk) { k.failed || k.size == 0 }

  predicate WalkOk(w: World, input: seq<Byte>, k: Walk) {
    |k.core.line| <= w.ringSize && (k.size == 0 || k.offset + k.size == |input|)
  }

  /** Offers `n` bytes from the current position to the library and decodes. */
  function OfferChunk(w: World, input: seq<Byte>, k: Walk, n: nat): (r: Walk)
    requires |k.core.line| <= w.ringSize && n <= k.size && k.offset + k.size == |input|
    ensures WalkOk(w, input, r)
  {
    var used := Min(w.fill(k.core.clock), n);
    BurstFits(w, k.core, k.sizes, n - used);
    var b := DecodeFrames(w, k.core, k.sizes, n - used);
    Walk(b.core, k.offset + used, if b.discard then 0 else k.size - used, b.sizes, b.failed,
         k.offered + [input[k.offset..k.offset + n]])
  }

  /** One round of the outer loop; after the end nothing moves. */
  function Round(w: World, adts: bool, input: seq<Byte>, k: Walk): (r: Walk)
    requires WalkOk(w, input, k)
    ensures WalkOk(w, input, r)
  {
    if Ended(k) then k
    else if !adts then OfferChunk(w, input, k, k.size)
    else match ReadHeader(input[k.offset..])
      case Bad => k.(failed := true, core := k.core.(error := true))
      case Good(headerSize, payload) =>
        OfferChunk(w, input, k.(offset := k.offset + headerSize, size := k.size - headerSize), payload)
  }
}
