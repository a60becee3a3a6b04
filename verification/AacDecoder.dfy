/** The AAC decoder as the object it is: fields updated in place by loops, proved against the
    functions of `AacModel` and `AacAccounting`. */
module AacDecoder {
  import opened Options
  import opened RingBuffer
  import opened AdtsFraming
  import opened AacDelayLine
  import opened AacModel
  import opened AacLoops
  import opened AacAccounting

  class Decoder {
    const world: World
    const ring: OutputDelayRing
    var infos: seq<Info>
    var compensated: nat
    var frame: nat
    var delay: nat
    var portDelay: nat
    var signalledError: bool
    var clock: nat
    var answers: seq<Answer>
    ghost var log: Log

    ghost predicate Valid()
      reads this, ring
    {
      ring.Valid() && ring.buffer.Length == world.ringSize
    }

    /** The abstract state of the decoder. */
    ghost function State(): (c: Core)
      requires Valid()
      reads this, ring, ring.buffer
      ensures |c.line| <= world.ringSize
    {
      Core(ring.Contents(), infos, compensated, frame, delay, portDelay, signalledError, clock, answers, log)
    }

    constructor (world: World)
      requires world.ringSize > 0
      ensures Valid() && fresh(ring) && fresh(ring.buffer)
      ensures State() == NEW
    {
      this.world := world;
      ring := new OutputDelayRing(world.ringSize);
      infos, compensated, frame, delay, portDelay, signalledError := [], 0, 0, 0, 2, false;
      clock, answers, log := 0, [], Log([], 0, 0, true, []);
    }

    /** Puts `samples` back in place of as many that were discarded, or changes nothing. */
    method PutBack(samples: seq<Sample>) returns (put: bool)
      requires Valid() && |samples| <= compensated
      modifies this`compensated, this`log, ring, ring.buffer
      ensures Valid() && (put <==> |old(State()).line| + |samples| <= world.ringSize)
      ensures State() == if put then Refill(old(State()), samples) else old(State())
    {
      put := ring.PutSamples(samples);
      if put {
        compensated := compensated - |samples|;
        log := log.(fed := log.fed + samples);
      }
    }

    /** Flushes the library until the delay is no longer compensated for, or the ring overflows. */
    method DrainDecoder() returns (ok: bool)
      requires Valid()
      modifies this`compensated, this`frame, this`clock, this`signalledError, this`log, ring, ring.buffer
      ensures Valid() && State() == AacModel.DrainDecoder(world, old(State()))
      ensures !ok ==> signalledError
    {
      ghost var goal := AacModel.DrainDecoder(world, State());
      while compensated > 0
        invariant Valid() && AacModel.DrainDecoder(world, State()) == goal
        decreases compensated
      {
        var put := DrainFrame();
        if !put {
          return false;
        }
      }
      ok := true;
    }

    /** One round of it: a frame of the library goes back into the ring, as far as it was discarded. */
    method DrainFrame() returns (ok: bool)
      requires Valid() && compensated > 0
      modifies this`compensated, this`frame, this`clock, this`signalledError, this`log, ring, ring.buffer
      ensures Valid()
      ensures AacModel.DrainDecoder(world, old(State()))
           == if ok then AacModel.DrainDecoder(world, State()) else State()
      ensures if ok then compensated < old(compensated) else signalledError
    {
      hide Window, AacModel.DrainDecoder;
      FlushRound(world, State());
      var pcm: seq<Sample> := world.flush(clock);
      clock, frame := clock + 1, |pcm|;
      var tmpOutBufferSamples := frame;
      if tmpOutBufferSamples > compensated {
        tmpOutBufferSamples := compensated;
      }
      ok := PutBack(pcm[..tmpOutBufferSamples]);
      if !ok {
        signalledError := true;
      }
    }

    /** Copies the oldest `n` samples into a new output block. */
    method ReadBlock(n: nat) returns (complete: bool, samples: seq<Sample>)
      requires Valid() && n <= |ring.Contents()|
      modifies ring
      ensures Valid() && ring.Contents() == old(ring.Contents())[n..]
      ensures complete && samples == old(ring.Contents())[..n]
    {
      var block := new Sample[n](_ => 0);
      var ns := ring.GetSamples(block, n);
      complete := ns == n;
      samples := block[..];
      assert samples == old(ring.Contents())[..n];
    }

    /** One round of the ring drain: the oldest undone work gets its samples, or the loop ends. The
        branch for an incomplete read is never taken. */
    method DrainFront(work: Option<nat>, eos: bool) returns (go: bool, inPlace: bool)
      requires Valid() && infos != [] && |ring.Contents()| >= frame
      modifies this`infos, this`answers, this`clock, ring
      ensures Valid()
      ensures RingRound(world, old(State()), eos) == if go then Some(State()) else None
      ensures if go then |infos| < |old(infos)| else State() == old(State())
      ensures inPlace <==> go && work == Some(old(infos)[0].index)
    {
      hide Window;
      inPlace := work == Some(infos[0].index);
      var available := ring.SamplesAvailable();
      var numSamples := |infos[0].sizes| * frame;
      if available < numSamples {
        if eos {
          numSamples := available;
        } else {
          return false, false;
        }
      }
      go := true;
      var samples, status := FetchBlock(numSamples);
      answers := answers + [Answer(infos[0].index, samples, status)];
      infos := infos[1..];
    }

    /** Takes the oldest `n` samples out of the ring, unless no output block can be had for them. */
    method FetchBlock(n: nat) returns (samples: seq<Sample>, status: Status)
      requires Valid() && n <= |ring.Contents()|
      modifies this`clock, ring
      ensures Valid() && clock == old(clock) + if n > 0 then 1 else 0
      ensures samples == if n > 0 && world.fetch(old(clock)) then old(ring.Contents())[..n] else []
      ensures status == if n > 0 && !world.fetch(old(clock)) then NoMemory else Fine
      ensures ring.Contents() == old(ring.Contents())[|samples|..]
    {
      hide Window;
      samples, status := [], Fine;
      if n > 0 {
        var fetched := world.fetch(clock);
        clock := clock + 1;
        if !fetched {
          status := NoMemory;
        } else {
          var complete;
          complete, samples := ReadBlock(n);
          if !complete {
            assert false;
          }
        }
      }
    }

    method DrainRingBuffer(work: Option<nat>, eos: bool) returns (inPlace: bool)
      requires Valid()
      modifies this`infos, this`answers, this`clock, ring
      ensures Valid() && State() == DrainRing(world, old(State()), eos)
      ensures inPlace == InPlace(world, old(State()), eos, work)
    {
      hide Window, DrainRing, InPlace;
      ghost var goal, found := DrainRing(world, State(), eos), InPlace(world, State(), eos, work);
      inPlace := false;
      while true
        invariant Valid() && DrainRing(world, State(), eos) == goal
        invariant found <==> inPlace || InPlace(world, State(), eos, work)
        decreases |infos|
      {
        RingRounds(world, State(), eos, work);
        var available := ring.SamplesAvailable();
        if infos == [] || available < frame {
          break;
        }
        var go, here := DrainFront(work, eos);
        if !go {
          break;
        }
        inPlace := inPlace || here;
      }
    }

    /** `DRAIN_CHAIN` and `NO_DRAIN` change nothing; the other modes drain decoder and ring, and the
        end of the stream also answers the works left over. */
    method DrainInternal(chainOrNone: bool, eos: bool, work: Option<nat>) returns (inPlace: bool)
      requires Valid()
      modifies this, ring, ring.buffer
      ensures Valid()
      ensures State() == if chainOrNone then old(State()) else Drain(world, old(State()), eos, work)
    {
      hide Window, DrainRing, InPlace, AacModel.CloseStream;
      if chainOrNone {
        return false;
      }
      var _ := DrainDecoder();
      inPlace := DrainRingBuffer(work, eos);
      if eos {
        CloseStream(if inPlace then None else work);
      }
    }

    /** Answers the works left over without samples; the current one is `pending`. */
    method CloseStream(pending: Option<nat>)
      requires Valid()
      modifies this`infos, this`answers
      ensures Valid() && State() == AacModel.CloseStream(old(State()), pending)
    {
      ghost var c := State();
      while |infos| > 1
        invariant Valid() && FinishOlder(State()) == FinishOlder(c)
      {
        answers := answers + [Answer(infos[0].index, [], Fine)];
        infos := infos[1..];
      }
      if pending.Some? {
        answers := answers + [Answer(pending.value, [], Fine)];
      }
      infos := [];
      assert answers + [] == answers;
    }

    /** Drains the library as far as the ring holds, and forgets everything. */
    method OnStop()
      requires Valid()
      modifies this, ring, ring.buffer
      ensures Valid() && State() == Stop(world, old(State()))
    {
      var _ := DrainDecoder();
      ring.Clear();
      infos, compensated, frame, delay, signalledError, answers := [], 0, 0, 0, false, [];
      log := Log([], 0, 0, true, []);
    }

    /** Drops all undone works and delayed samples. */
    method OnFlush()
      requires Valid() && (ring.Contents() != [] ==> frame > 0)
      modifies this, ring, ring.buffer
      ensures Valid() && State() == Flush(world, old(State()))
    {
      ghost var c := State();
      var _ := DrainDecoder();
      infos := [];
      var avail := ring.SamplesAvailable();
      ghost var c' := AacModel.DrainDecoder(world, c);
      DrainedFrame(world, c);
      while avail > 0
        invariant Valid() && avail == |ring.Contents()| && (avail > 0 ==> frame > 0)
        invariant State() == c'.(infos := [], line := State().line)
        decreases avail
      {
        if avail > frame {
          avail := frame;
        }
        var ns := ring.GetSamples(null, avail);
        if ns != avail {
          assert false;
          break;
        }
        avail := ring.SamplesAvailable();
      }
      answers, log := [], Log([], compensated, 0, true, []);
    }

    /** Puts decoded samples in the ring, or changes nothing. */
    method FeedRing(samples: seq<Sample>) returns (put: bool)
      requires Valid()
      modifies this`log, ring, ring.buffer
      ensures Valid() && (put <==> |old(State()).line| + |samples| <= world.ringSize)
      ensures State() == if put then Feed(old(State()), samples) else old(State())
    {
      put := ring.PutSamples(samples);
      if put {
        log := log.(fed := log.fed + samples, decoded := log.decoded + |samples|);
      }
    }

    /** One round of the inner loop; `more` tells whether it goes on. */
    method DecodeFrame(sizes: seq<int>, bytesLeft: nat)
      returns (more: bool, sizes': seq<int>, failed: bool, discard: bool)
      requires Valid()
      modifies this`frame, this`delay, this`clock, this`signalledError, this`log, ring, ring.buffer
      ensures Valid()
      ensures var before := AacModel.DecodeFrames(world, old(State()), sizes, bytesLeft);
              if more then before == AacModel.DecodeFrames(world, State(), sizes', bytesLeft)
                           && |State().line| > |old(State()).line|
              else before == Burst(State(), sizes', failed, discard)
    {
      hide Window;
      more, sizes', failed, discard := false, sizes, false, false;
      var space := ring.SpaceLeft();
      if space < frame {
        discard := true;
        return;
      }
      var reply := world.decode(clock);
      clock := clock + 1;
      if reply.NotEnoughBits? {
        return;
      }
      var pcm: seq<Sample> := reply.pcm;
      frame, delay := |pcm|, reply.delay;
      sizes' := sizes + [reply.consumed];
      if bytesLeft != 0 {
        signalledError, failed := true, true;
        return;
      }
      var put := FeedRing(if reply.ok then pcm else Silence(|pcm|));
      if !put {
        signalledError, failed := true, true;
        return;
      }
      discard := !reply.ok;
      if !reply.accepted {
        signalledError, failed := true, true;
        return;
      }
      more := reply.ok;
    }

    /** The inner loop: decodes until the library needs more bytes, fails, or the ring is too full. */
    method DecodeFrames(sizes: seq<int>, bytesLeft: nat) returns (sizes': seq<int>, failed: bool, discard: bool)
      requires Valid()
      modifies this`frame, this`delay, this`clock, this`signalledError, this`log, ring, ring.buffer
      ensures Valid()
      ensures AacModel.DecodeFrames(world, old(State()), sizes, bytesLeft) == Burst(State(), sizes', failed, discard)
    {
      ghost var goal := AacModel.DecodeFrames(world, State(), sizes, bytesLeft);
      var more := true;
      sizes', failed, discard := sizes, false, false;
      while more
        invariant Valid()
        invariant if more then AacModel.DecodeFrames(world, State(), sizes', bytesLeft) == goal
                  else goal == Burst(State(), sizes', failed, discard)
        decreases more, world.ringSize - |State().line|
      {
        more, sizes', failed, discard := DecodeFrame(sizes', bytesLeft);
      }
    }

    /** Offers up to `length` bytes to the library and decodes what it can. */
    method OfferInput(input: seq<Byte>, offset: nat, size: nat, length: nat, sizes: seq<int>, ghost k: Walk)
      returns (offset': nat, size': nat, sizes': seq<int>, failed: bool)
      requires Valid() && length <= size && offset + size == |input|
      requires k.core == State() && k.offset == offset && k.size == size && k.sizes == sizes && !k.failed
      modifies this`frame, this`delay, this`clock, this`signalledError, this`log, ring, ring.buffer
      ensures Valid()
      ensures var r := OfferChunk(world, input, k, length);
              r.core == State() && r.offset == offset' && r.size == size' && r.sizes == sizes' && r.failed == failed
    {
      var used := world.fill(clock);
      if used > length {
        used := length;
      }
      offset', size' := offset + used, size - used;
      var discard;
      sizes', failed, discard := DecodeFrames(sizes, length - used);
      if discard {
        size' := 0;
      }
    }

    /** The outer loop: walks over the input chunk by chunk. In ADTS mode the position and what is left
        add up to the length of the input until the rest is discarded. */
    method DecodeInput(input: seq<Byte>, adts: bool) returns (sizes: seq<int>, failed: bool)
      requires Valid() && Ends(world, adts, input, Start(State(), input))
      modifies this`frame, this`delay, this`clock, this`signalledError, this`log, ring, ring.buffer
      ensures Valid()
      ensures exists n: nat ::
                var k := Rounds(world, adts, input, Start(old(State()), input), n);
                Ended(k) && k.core == State() && k.sizes == sizes && k.failed == failed
    {
      hide OfferChunk, ReadHeader, Window;
      ghost var k := Start(State(), input);
      ghost var start, bound: nat, n: nat := k, 0, 0;
      bound :| Ended(Rounds(world, adts, input, k, bound));
      var offset, size := 0, |input|;
      sizes, failed := [], false;
      while size > 0 && !failed
        invariant Valid() && 0 <= size && 0 <= offset
        invariant size == 0 || offset + size == |input|
        invariant WalkOk(world, input, start) && k == Rounds(world, adts, input, start, n)
        invariant k.core == State() && k.offset == offset && k.size == size && k.sizes == sizes && k.failed == failed
        invariant !Ended(k) ==> n < bound
        decreases bound - n
      {
        ghost var before := k;
        k, n := NextRound(world, adts, input, start, k, n, bound);
        var length := size;
        if adts {
          var header := ReadHeader(input[offset..]);
          if header.Bad? {
            signalledError, failed := true, true;
          } else {
            length := header.payload;
            offset, size := offset + header.headerSize, size - header.headerSize;
          }
        }
        if !failed {
          ghost var at := before.(offset := offset, size := size);
          offset, size, sizes, failed := OfferInput(input, offset, size, length, sizes, at);
        }
      }
    }

    /** What `process` does once the input is decoded: announces a larger output delay, notes the work,
        and discards, drains or closes the stream. */
    method Finish(job: Job, sizes: seq<int>) returns (processed: bool)
      requires Valid()
      modifies this, ring, ring.buffer
      ensures Valid() && Outcome(State(), processed) == AfterDecoding(world, old(State()), job, sizes)
    {
      hide Window, PortDelay, Deliver;
      var accepted := AnnounceDelay();
      if !accepted {
        return true;
      }
      infos := infos + [Info(job.index, sizes)];
      log := log.(noted := log.noted + [job.index]);
      processed := Pass(job);
    }

    /** Announces the output delay in frames if it has grown. */
    method AnnounceDelay() returns (accepted: bool)
      requires Valid()
      modifies this`portDelay, this`clock, this`signalledError
      ensures Valid()
      ensures var c := old(State());
              if PortDelay(c) <= c.portDelay then accepted && State() == c
              else && accepted == world.port(c.clock)
                   && State() == c.(portDelay := PortDelay(c), clock := c.clock + 1, error := c.error || !accepted)
    {
      hide Window;
      accepted := true;
      var numSamplesInOutput := frame;
      if numSamplesInOutput > 0 {
        var actualOutputPortDelay := (delay + numSamplesInOutput - 1) / numSamplesInOutput;
        if actualOutputPortDelay > portDelay {
          portDelay := actualOutputPortDelay;
          accepted := world.port(clock);
          clock := clock + 1;
          if !accepted {
            signalledError := true;
          }
        }
      }
    }

    /** Discards samples at the beginning, as many as the delay still asks for. */
    method DiscardDelay()
      requires Valid() && compensated < delay
      modifies this`compensated, this`log, ring
      ensures Valid()
      ensures State() == Discard(old(State()), Min(|old(State()).line|, delay - old(compensated)))
    {
      hide Window;
      ghost var c := State();
      var toCompensate := delay - compensated;
      var discard := ring.SamplesAvailable();
      if discard > toCompensate {
        discard := toCompensate;
      }
      var discarded := ring.GetSamples(null, discard);
      compensated := compensated + discarded;
      log := Discard(c, discard).log;
    }

    method Pass(job: Job) returns (processed: bool)
      requires Valid()
      modifies this, ring, ring.buffer
      ensures Valid() && Outcome(State(), processed) == Deliver(world, old(State()), job)
    {
      if !job.eos && compensated < delay {
        DiscardDelay();
        return false;
      }
      if job.eos {
        var _ := DrainInternal(false, true, Some(job.index));
        processed := true;
      } else {
        processed := DrainRingBuffer(Some(job.index), false);
      }
    }

    method Process(job: Job) returns (processed: bool)
      requires Valid() && Ends(world, job.adts, job.input, Start(State(), job.input))
      modifies this, ring, ring.buffer
      ensures Valid() && Outcome(State(), processed) == AacAccounting.Process(world, old(State()), job)
    {
      ghost var c := State();
      if signalledError {
        return true;
      }
      if job.codecConfig && job.input != [] {
        var accepted := world.config(clock);
        clock := clock + 1;
        if !accepted {
          signalledError := true;
        }
        return true;
      }
      var sizes, failed := DecodeInput(job.input, job.adts);
      ghost var n: nat :|
        var k := Rounds(world, job.adts, job.input, Start(c, job.input), n);
        Ended(k) && k.core == State() && k.sizes == sizes && k.failed == failed;
      WalkIsDetermined(world, c, job, n);
      if failed {
        return true;
      }
      processed := Finish(job, sizes);
    }
  }

  /** All numbers of rounds after which the walk has ended lead to the same state. */
  lemma {:induction false} WalkIsDetermined(w: World, c: Core, job: Job, n: nat)
    requires |c.line| <= w.ringSize
    requires Ended(Rounds(w, job.adts, job.input, Start(c, job.input), n))
    ensures Ends(w, job.adts, job.input, Start(c, job.input))
    ensures Walked(w, c, job) == Rounds(w, job.adts, job.input, Start(c, job.input), n)
  {
    var k := Start(c, job.input);
    assert Ends(w, job.adts, job.input, k);
    var m: nat :| Walked(w, c, job) == Rounds(w, job.adts, job.input, k, m);
    assert Ended(Walked(w, c, job));
    RoundsAdd(w, job.adts, job.input, k, n, m);
    RoundsAdd(w, job.adts, job.input, k, m, n);
    EndIsFinal(w, job.adts, job.input, Rounds(w, job.adts, job.input, k, n), m);
    EndIsFinal(w, job.adts, job.input, Rounds(w, job.adts, job.input, k, m), n);
    assert n + m == m + n;
  }

  lemma {:induction false} NextRound(w: World, adts: bool, input: seq<Byte>, start: Walk, k: Walk, n: nat, bound: nat)
    returns (k': Walk, n': nat)
    requires WalkOk(w, input, start) && k == Rounds(w, adts, input, start, n)
    requires Ended(Rounds(w, adts, input, start, bound)) && n < bound
    ensures WalkOk(w, input, k)
    ensures k' == Round(w, adts, input, k) == Rounds(w, adts, input, start, n') && n' == n + 1
    ensures !Ended(k') ==> n' < bound
  {
    k', n' := Round(w, adts, input, k), n + 1;
    RoundsAdd(w, adts, input, start, n, 1);
    assert Rounds(w, adts, input, k, 1) == Rounds(w, adts, input, k', 0);
  }

  /** One round of the ring drain; `None` when it is over. */
  function RingRound(w: World, c: Core, eos: bool): Option<Core> {
    if c.infos == [] || |c.line| < c.frame then None
    else
      var wanted := |c.infos[0].sizes| * c.frame;
      if |c.line| < wanted && !eos then None
      else
        var n := Min(|c.line|, wanted);
        var got := n > 0 && w.fetch(c.clock);
        var samples := if got then c.line[..n] else [];
        var status := if n > 0 && !got then NoMemory else Fine;
        Some(c.(infos := c.infos[1..], line := c.line[|samples|..],
                clock := if n > 0 then c.clock + 1 else c.clock,
                answers := c.answers + [Answer(c.infos[0].index, samples, status)]))
  }

  /** The rounds one after the other are the ring drain. */
  lemma {:induction false} RingRounds(w: World, c: Core, eos: bool, work: Option<nat>)
    ensures match RingRound(w, c, eos)
            case None => DrainRing(w, c, eos) == c && !InPlace(w, c, eos, work)
            case Some(c') =>
              && DrainRing(w, c, eos) == DrainRing(w, c', eos)
              && (InPlace(w, c, eos, work) <==> work == Some(c.infos[0].index) || InPlace(w, c', eos, work))
  {
    match RingRound(w, c, eos)
    case None =>
      assert c.answers + [] == c.answers;
    case Some(c') =>
      var d, d' := LineDrain(w, c, eos), LineDrain(w, c', eos);
      var head := c'.answers[|c.answers|];
      assert d == d'.(answers := [head] + d'.answers);
      hide LineDrain;
      assert c.answers + ([head] + d'.answers) == (c.answers + [head]) + d'.answers;
      AnsweredAppend([head], d'.answers);
      assert Answered([head]) == [head.index] + Answered([]);
  }

  /** One round of the flushing drain. */
  lemma {:induction false} FlushRound(w: World, c: Core)
    requires c.compensated > 0
    ensures var pcm: seq<Sample> := w.flush(c.clock);
            var n := Min(|pcm|, c.compensated);
            var c' := c.(clock := c.clock + 1, frame := |pcm|);
            AacModel.DrainDecoder(w, c) == if |c.line| + n > w.ringSize then c'.(error := true)
                                           else AacModel.DrainDecoder(w, Refill(c', pcm[..n]))
  {
  }

  lemma {:induction false} DrainedFrame(w: World, c: Core)
    requires c.line != [] ==> c.frame > 0
    ensures AacModel.DrainDecoder(w, c).line != [] ==> AacModel.DrainDecoder(w, c).frame > 0
    decreases c.compensated
  {
    if c.compensated > 0 {
      var pcm: seq<Sample> := w.flush(c.clock);
      var n := Min(|pcm|, c.compensated);
      if |c.line| + n <= w.ringSize {
        DrainedFrame(w, Refill(c.(clock := c.clock + 1, frame := |pcm|), pcm[..n]));
      }
    }
  }
}
