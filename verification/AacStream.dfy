/** Delay compensation over a whole stream: with one frame size and one delay, the output is the
    decoder's output moved forward by exactly the delay, and nothing is lost. */
module AacStream {
  import opened Options
  import opened RingBuffer
  import opened AdtsFraming
  import opened AacDelayLine
  import opened AacModel
  import opened AacLoops
  import opened AacAccounting

  /** Every frame has `f` samples and every reply announces a delay of `d` samples. */
  ghost predicate Steady(w: World, f: nat, d: nat) {
    && f > 0
    && (forall t :: w.decode(t).Frame? ==> |w.decode(t).pcm| == f && w.decode(t).delay == d)
    && (forall t :: |w.flush(t)| == f)
  }

  /** Between a flush or stop and the end of the stream: never more than the delay is compensated,
      output starts only when all of it is, and all discards come first. The samples on their way are at
      least those of the works on the list, and no more exactly if no output block was refused. */
  predicate InStream(f: nat, d: nat, c: Core) {
    && ((c.frame == f && c.delay == d)
        || (c.frame == 0 && c.delay == 0 && c.line == [] && c.compensated == 0 && Emitted(c) == []))
    && c.compensated <= d && c.log.aligned && c.log.lead == c.compensated
    && (Emitted(c) != [] ==> c.compensated == d)
    && Balanced(f, c)
  }

  predicate Balanced(f: nat, c: Core) {
    && Frames(c.infos) * f <= |c.line| + c.compensated
    && (Frames(c.infos) * f == |c.line| + c.compensated <==> !Refused(c.answers))
  }

  /** `c` after decoding frames with the given sizes, relative to the state `c0` before them. */
  predicate Grown(f: nat, d: nat, c0: Core, c: Core, sizes: seq<int>) {
    && |c.line| == |c0.line| + |sizes| * f
    && (if |sizes| > 0 then c.frame == f && c.delay == d
        else c.frame == c0.frame && c.delay == c0.delay && c.line == c0.line)
    && c.log.lead == c0.log.lead && c.log.aligned == c0.log.aligned
    && c.infos == c0.infos && c.answers == c0.answers && c.compensated == c0.compensated
  }

  lemma {:induction false} OneMore(n: nat, f: nat)
    ensures (n + 1) * f == n * f + f
  {
  }

  lemma {:induction false} FrameGrows(f: nat, d: nat, c0: Core, c: Core, sizes: seq<int>, clock: nat,
                                      samples: seq<Sample>, consumed: int)
    requires Grown(f, d, c0, c, sizes) && |samples| == f
    ensures Grown(f, d, c0, Feed(c.(clock := clock, frame := f, delay := d), samples), sizes + [consumed])
  {
    OneMore(|sizes|, f);
  }

  lemma {:induction false} BurstSteady(w: World, f: nat, d: nat, c0: Core, c: Core, sizes: seq<int>, bytesLeft: nat)
    requires Steady(w, f, d) && |c.line| <= w.ringSize && Grown(f, d, c0, c, sizes)
    ensures var b := DecodeFrames(w, c, sizes, bytesLeft);
            !b.failed ==> Grown(f, d, c0, b.core, b.sizes)
    decreases w.ringSize - |c.line|
  {
    if w.ringSize - |c.line| >= c.frame && w.decode(c.clock).Frame? {
      var r := w.decode(c.clock);
      var pcm: seq<Sample> := r.pcm;
      if bytesLeft == 0 && |c.line| + |pcm| <= w.ringSize {
        var samples := if r.ok then pcm else Silence(|pcm|);
        FrameGrows(f, d, c0, c, sizes, c.clock + 1, samples, r.consumed);
        if r.accepted && r.ok {
          var fed := Feed(c.(clock := c.clock + 1, frame := f, delay := d), samples);
          BurstSteady(w, f, d, c0, fed, sizes + [r.consumed], 0);
        }
      }
    }
  }

  /** What a walk has decoded so far, relative to the state before it. */
  ghost predicate WalkSteady(w: World, f: nat, d: nat, c: Core, k: Walk) {
    !k.failed ==> Grown(f, d, c, k.core, k.sizes)
  }

  lemma {:induction false} RoundSteady(w: World, f: nat, d: nat, c: Core, adts: bool, input: seq<Byte>, k: Walk)
    requires Steady(w, f, d) && WalkOk(w, input, k) && WalkSteady(w, f, d, c, k)
    ensures WalkSteady(w, f, d, c, Round(w, adts, input, k))
  {
    if !Ended(k) && (adts ==> ReadHeader(input[k.offset..]).Good?) {
      var payload := if adts then ReadHeader(input[k.offset..]).payload else k.size;
      var used := Min(w.fill(k.core.clock), payload);
      BurstSteady(w, f, d, c, k.core, k.sizes, payload - used);
    }
  }

  lemma {:induction false} RoundsSteady(w: World, f: nat, d: nat, c: Core, adts: bool, input: seq<Byte>,
                                        k: Walk, n: nat)
    requires Steady(w, f, d) && WalkOk(w, input, k) && WalkSteady(w, f, d, c, k)
    ensures WalkSteady(w, f, d, c, Rounds(w, adts, input, k, n))
    decreases n
  {
    if n > 0 {
      RoundSteady(w, f, d, c, adts, input, k);
      RoundsSteady(w, f, d, c, adts, input, Round(w, adts, input, k), n - 1);
    }
  }

  /** Decoding an input and noting its work keeps the stream balanced. */
  lemma {:induction false} WalkInStream(w: World, f: nat, d: nat, c: Core, job: Job)
    requires Steady(w, f, d) && Ledger(w, c) && InStream(f, d, c)
    requires Ends(w, job.adts, job.input, Start(c, job.input)) && !Walked(w, c, job).failed
    ensures var k := Walked(w, c, job);
            Ledger(w, k.core) && InStream(f, d, Note(k.core, job.index, k.sizes)) && k.core.infos == c.infos
  {
    var k := Walked(w, c, job);
    WalkKeeps(w, c, job);
    assert Grown(f, d, c, k.core, k.sizes) by {
      var n: nat :| k == Rounds(w, job.adts, job.input, Start(c, job.input), n);
      assert Grown(f, d, c, c, []);
      RoundsSteady(w, f, d, c, job.adts, job.input, Start(c, job.input), n);
    }
    GrownInStream(f, d, c, k.core, job.index, k.sizes);
  }

  lemma {:induction false} GrownInStream(f: nat, d: nat, c0: Core, c: Core, index: nat, sizes: seq<int>)
    requires InStream(f, d, c0) && Grown(f, d, c0, c, sizes)
    ensures InStream(f, d, Note(c, index, sizes))
  {
    var n := Frames(c.infos);
    assert Frames(c.infos + [Info(index, sizes)]) == n + |sizes| by {
      FramesAppend(c.infos, [Info(index, sizes)]);
      assert Frames([Info(index, sizes)]) == |sizes| + Frames([]);
    }
    assert (n + |sizes|) * f == n * f + |sizes| * f;
  }

  /** Draining the ring keeps the balance. */
  lemma {:induction false} RingBalanced(w: World, c: Core, eos: bool)
    requires Balanced(c.frame, c) && (eos ==> c.compensated == 0)
    ensures var r := DrainRing(w, c, eos);
            Balanced(c.frame, r) && (eos ==> Frames(r.infos) * c.frame == 0)
  {
    hide DrainLine, Refused;
    DrainBalances(c.infos, c.line, c.frame, eos, w.fetch, c.clock, c.compensated);
    RefusedAppend(c.answers, LineDrain(w, c, eos).answers);
  }

  lemma {:induction false} DeliverInStream(w: World, f: nat, d: nat, c: Core, job: Job)
    requires Steady(w, f, d) && Ledger(w, c) && InStream(f, d, c) && !job.eos
    ensures InStream(f, d, Deliver(w, c, job).core)
  {
    hide DrainLine, Refused, Ledger;
    if c.compensated < c.delay {
      assert Samples(c.answers) == [];
    } else {
      DrainRingKeeps(w, c, false);
      RingInStream(w, f, d, c);
    }
  }

  lemma {:induction false} RingInStream(w: World, f: nat, d: nat, c: Core)
    requires f > 0 && Ledger(w, c) && InStream(f, d, c) && c.compensated >= c.delay
    ensures InStream(f, d, DrainRing(w, c, false))
  {
    if c.frame == 0 {
      FreshDrain(w, c, f);
    } else {
      DrainRingKeeps(w, c, false);
      RingBalanced(w, c, false);
      hide DrainLine, Refused, Ledger, Balanced;
    }
  }

  /** Before the first frame there is nothing to hand out. */
  lemma {:induction false} FreshLine(w: World, c: Core)
    requires c.frame == 0 && c.line == [] && Emitted(c) == []
    ensures var r := DrainRing(w, c, false);
            && Emitted(r) == [] && r.line == [] && Frames(r.infos) <= Frames(c.infos)
            && (Refused(r.answers) <==> Refused(c.answers))
  {
    var d := LineDrain(w, c, false);
    DrainKeepsOrder(c.infos, c.line, c.frame, false, w.fetch, c.clock);
    NothingTimes(Frames(c.infos), Frames(d.rest), c.frame);
    DrainBalances(c.infos, c.line, c.frame, false, w.fetch, c.clock, 0);
    hide DrainLine, Refused;
    SamplesAppend(c.answers, d.answers);
    RefusedAppend(c.answers, d.answers);
    assert c.infos == c.infos[..|d.answers|] + d.rest;
    FramesAppend(c.infos[..|d.answers|], d.rest);
  }

  lemma {:induction false} NothingTimes(a: nat, b: nat, f: nat)
    requires f == 0
    ensures a * f == 0 && b * f == 0
  {
  }

  lemma {:induction false} FreshDrain(w: World, c: Core, f: nat)
    requires c.frame == 0 && c.line == [] && c.compensated == 0 && Emitted(c) == [] && Balanced(f, c)
    ensures var r := DrainRing(w, c, false);
            Emitted(r) == [] && r.line == [] && Balanced(f, r)
  {
    FreshLine(w, c);
    var r := DrainRing(w, c, false);
    assert r.compensated == 0;
    hide DrainRing, Refused, Frames;
    FewerFrames(Frames(c.infos), Frames(r.infos), f);
  }

  lemma {:induction false} FewerFrames(a: nat, b: nat, f: nat)
    requires b <= a && a * f == 0
    ensures b * f == 0
  {
  }

  /** One call in mid-stream, whatever its input: unless it signals an error, the stream goes on. */
  lemma {:induction false} ProcessInStream(w: World, f: nat, d: nat, c: Core, job: Job)
    requires Steady(w, f, d) && Ledger(w, c) && InStream(f, d, c) && Callable(w, c, job) && !job.eos
    ensures var r := Process(w, c, job).core;
            r.error || InStream(f, d, r)
  {
    if !c.error && !(job.codecConfig && job.input != []) {
      var k := Walked(w, c, job);
      if k.failed {
        FailedWalkSignals(w, c, job);
      } else {
        WalkInStream(w, f, d, c, job);
        AfterDecodingInStream(w, f, d, k.core, job, k.sizes);
      }
    }
  }

  lemma {:induction false} AfterDecodingInStream(w: World, f: nat, d: nat, c: Core, job: Job, sizes: seq<int>)
    requires Steady(w, f, d) && Ledger(w, c) && InStream(f, d, Note(c, job.index, sizes)) && !job.eos
    ensures var r := AfterDecoding(w, c, job, sizes).core;
            r.error || InStream(f, d, r)
  {
    hide PortDelay, Deliver;
    var bigger := PortDelay(c) > c.portDelay;
    var c' := if bigger then c.(portDelay := PortDelay(c), clock := c.clock + 1) else c;
    if !(bigger && !w.port(c.clock)) {
      assert InStream(f, d, Note(c', job.index, sizes)) && Ledger(w, c');
      hide InStream, Ledger;
      NoteKeeps(w, c', job.index, sizes);
      DeliverInStream(w, f, d, Note(c', job.index, sizes), job);
    }
  }

  /** A walk fails only by signalling an error. */
  lemma {:induction false} FailedWalkSignals(w: World, c: Core, job: Job)
    requires |c.line| <= w.ringSize && Ends(w, job.adts, job.input, Start(c, job.input))
    requires Walked(w, c, job).failed
    ensures Walked(w, c, job).core.error
  {
    var n: nat :| Walked(w, c, job) == Rounds(w, job.adts, job.input, Start(c, job.input), n);
    RoundsSignal(w, job.adts, job.input, Start(c, job.input), n);
  }

  lemma {:induction false} RoundsSignal(w: World, adts: bool, input: seq<Byte>, k: Walk, n: nat)
    requires WalkOk(w, input, k) && (k.failed ==> k.core.error)
    ensures Rounds(w, adts, input, k, n).failed ==> Rounds(w, adts, input, k, n).core.error
    decreases n
  {
    if n > 0 {
      if !Ended(k) && (adts ==> ReadHeader(input[k.offset..]).Good?) {
        var payload := if adts then ReadHeader(input[k.offset..]).payload else k.size;
        BurstFits(w, k.core, k.sizes, payload - Min(w.fill(k.core.clock), payload));
      }
      RoundsSignal(w, adts, input, Round(w, adts, input, k), n - 1);
    }
  }

  /** Everything has come out: nothing is delayed, compensated or undone, the output is the ring's
      input without its first `lead` samples and as long as what was decoded, and every work noted has
      been answered in order. */
  predicate Delivered(c: Core) {
    && c.infos == [] && c.line == [] && c.compensated == 0
    && c.log.lead <= |c.log.fed| && Emitted(c) == c.log.fed[c.log.lead..]
    && |Emitted(c)| == c.log.decoded
    && Answered(c.answers) == c.log.noted
  }

  /** What comes out at the end of a stream: every work is answered, and everything comes out if and only if
      no output block was refused. */
  predicate ComesOut(c: Core) {
    Answered(c.answers) == c.log.noted && (Delivered(c) <==> !Refused(c.answers))
  }

  /** The end of a stream, when no error is signalled. */
  lemma {:induction false} EosDelivers(w: World, f: nat, d: nat, c: Core, job: Job)
    requires Steady(w, f, d) && Ledger(w, c) && InStream(f, d, c)
    requires Callable(w, c, job) && job.eos && !(job.codecConfig && job.input != []) && !c.error
    ensures var out := Process(w, c, job);
            !out.core.error ==> out.processed && ComesOut(out.core) && out.core.log.noted == c.log.noted + [job.index]
  {
    var k := Walked(w, c, job);
    if k.failed {
      FailedWalkSignals(w, c, job);
    } else {
      WalkInStream(w, f, d, c, job);
      WalkKeeps(w, c, job);
      EosAfterDecoding(w, f, d, k.core, job, k.sizes);
    }
  }

  lemma {:induction false} EosAfterDecoding(w: World, f: nat, d: nat, c: Core, job: Job, sizes: seq<int>)
    requires Steady(w, f, d) && Ledger(w, c) && job.eos && Fresh(c, job)
    requires InStream(f, d, Note(c, job.index, sizes))
    ensures var out := AfterDecoding(w, c, job, sizes);
            !out.core.error ==> out.processed && ComesOut(out.core) && out.core.log.noted == c.log.noted + [job.index]
  {
    var bigger := PortDelay(c) > c.portDelay;
    var c' := if bigger then c.(portDelay := PortDelay(c), clock := c.clock + 1) else c;
    if !(bigger && !w.port(c.clock)) {
      var noted := Note(c', job.index, sizes);
      assert InStream(f, d, noted) && Ledger(w, c');
      NoteKeeps(w, c', job.index, sizes);
      EosEmpties(w, f, d, noted, Indices(c.infos), job.index);
    }
  }

  lemma {:induction false} EosEmpties(w: World, f: nat, d: nat, c: Core, older: seq<nat>, index: nat)
    requires Steady(w, f, d) && Ledger(w, c) && InStream(f, d, c)
    requires Indices(c.infos) == older + [index] && index !in older
    ensures var r := Drain(w, c, true, Some(index));
            !r.error ==> ComesOut(r) && r.log.noted == c.log.noted
  {
    EosAnswersAll(w, c, older, index);
    DrainDecoderExact(w, c);
    hide DrainDecoder, DrainLine, FinishOlder, Answered, Refused, InPlace;
    var c1 := DrainDecoder(w, c);
    if !c1.error {
      DrainDecoderFrame(w, f, c);
      DrainedBalanced(f, d, c, c1);
      var c2 := DrainRing(w, c1, true);
      RingBalanced(w, c1, true);
      DrainRingKeeps(w, c1, true);
      CloseRefusesNone(c2, if InPlace(w, c1, true, Some(index)) then None else Some(index));
      var r := Drain(w, c, true, Some(index));
      RingDelivers(w, c1, r);
    }
  }

  /** The samples put back are the ones that were made up for. */
  lemma {:induction false} DrainedBalanced(f: nat, d: nat, c: Core, r: Core)
    requires InStream(f, d, c) && r.compensated == 0 && |r.line| == |c.line| + c.compensated
    requires r.infos == c.infos && r.answers == c.answers && (r.frame == f || r.frame == c.frame)
    ensures Balanced(r.frame, r)
  {
    if r.frame != f {
      FewerFrames(Frames(c.infos), Frames(c.infos), f);
    }
  }

  lemma {:induction false} RingDelivers(w: World, c: Core, r: Core)
    requires Ledger(w, r) && r.infos == [] && r.compensated == 0 && Answered(r.answers) == r.log.noted
    requires r.log.aligned
    requires var c2 := DrainRing(w, c, true);
             && Balanced(c.frame, c2) && Frames(c2.infos) * c.frame == 0 && c2.compensated == 0
             && r.line == c2.line && (Refused(r.answers) <==> Refused(c2.answers))
    ensures ComesOut(r)
  {
    hide DrainLine, Refused, DrainRing, Answered;
    assert Emitted(r) + [] == Emitted(r);
  }

  /** Works answered without samples ask for no block. */
  lemma {:induction false} CloseRefusesNone(c: Core, pending: Option<nat>)
    ensures Refused(CloseStream(c, pending).answers) <==> Refused(c.answers)
  {
    OlderRefuseNone(c);
    var c' := FinishOlder(c);
    if pending.Some? {
      FineRefusesNone(c'.answers, pending.value);
    } else {
      assert c'.answers + [] == c'.answers;
    }
  }

  lemma {:induction false} FineRefusesNone(answers: seq<Answer>, index: nat)
    ensures Refused(answers + [Answer(index, [], Fine)]) <==> Refused(answers)
  {
    RefusedAppend(answers, [Answer(index, [], Fine)]);
  }

  lemma {:induction false} OlderRefuseNone(c: Core)
    ensures Refused(FinishOlder(c).answers) <==> Refused(c.answers)
    decreases |c.infos|
  {
    if |c.infos| > 1 {
      FineRefusesNone(c.answers, c.infos[0].index);
      OlderRefuseNone(c.(infos := c.infos[1..], answers := c.answers + [Answer(c.infos[0].index, [], Fine)]));
    }
  }

  lemma {:induction false} DrainDecoderFrame(w: World, f: nat, c: Core)
    requires forall t :: |w.flush(t)| == f
    ensures DrainDecoder(w, c).frame == c.frame || DrainDecoder(w, c).frame == f
    decreases c.compensated
  {
    if c.compensated > 0 {
      var pcm: seq<Sample> := w.flush(c.clock);
      var n := Min(|pcm|, c.compensated);
      if |c.line| + n <= w.ringSize {
        DrainDecoderFrame(w, f, Refill(c.(clock := c.clock + 1, frame := |pcm|), pcm[..n]));
      }
    }
  }

  // ---------- whole streams ----------

  ghost function RunJobs(w: World, c: Core, jobs: seq<Job>): Core
    decreases |jobs|
  {
    if jobs == [] then c else RunJobs(w, Step(w, c, ProcessCall(jobs[0])), jobs[1..])
  }

  lemma {:induction false} RunInStream(w: World, f: nat, d: nat, c: Core, jobs: seq<Job>)
    requires Steady(w, f, d) && Ledger(w, c) && (c.error || InStream(f, d, c))
    requires forall job :: job in jobs ==> !job.eos
    ensures var r := RunJobs(w, c, jobs);
            Ledger(w, r) && (r.error || InStream(f, d, r))
    decreases |jobs|
  {
    if jobs != [] {
      var call := ProcessCall(jobs[0]);
      StepKeeps(w, c, call);
      if Callable(w, c, jobs[0]) && !c.error {
        ProcessInStream(w, f, d, c, jobs[0]);
      }
      RunInStream(w, f, d, Step(w, c, call), jobs[1..]);
    }
  }

  /** Any stream with one frame size and one delay, from a flushed or stopped decoder to an end-of-stream
      work: unless an error is signalled on the way, every work is answered, and everything comes out if and
      only if no output block was refused. At most `d` samples were discarded, and exactly as many were put
      back at the end. */
  lemma {:induction false} WholeStream(w: World, f: nat, d: nat, c: Core, jobs: seq<Job>, last: Job)
    requires Steady(w, f, d) && Ledger(w, c) && InStream(f, d, c)
    requires forall job :: job in jobs ==> !job.eos
    requires last.eos && !last.codecConfig && Callable(w, RunJobs(w, c, jobs), last)
    ensures var r := Process(w, RunJobs(w, c, jobs), last);
            !r.core.error ==> r.processed && ComesOut(r.core)
  {
    RunInStream(w, f, d, c, jobs);
    if !RunJobs(w, c, jobs).error {
      EosDelivers(w, f, d, RunJobs(w, c, jobs), last);
    }
  }

  // ---------- the delay alone ----------

  /** No reply announces a delay above `d`; frame sizes are free. */
  ghost predicate DelaysUpTo(w: World, d: nat) {
    forall t :: w.decode(t).Frame? ==> w.decode(t).delay <= d
  }

  predicate DelayBound(d: nat, c: Core) { c.delay <= d && c.compensated <= d }

  lemma {:induction false} BurstBound(w: World, d: nat, c: Core, sizes: seq<int>, bytesLeft: nat)
    requires DelaysUpTo(w, d) && |c.line| <= w.ringSize && DelayBound(d, c)
    ensures DelayBound(d, DecodeFrames(w, c, sizes, bytesLeft).core)
    decreases w.ringSize - |c.line|
  {
    if w.ringSize - |c.line| >= c.frame && w.decode(c.clock).Frame? {
      var r := w.decode(c.clock);
      var pcm: seq<Sample> := r.pcm;
      var c' := c.(clock := c.clock + 1, frame := |pcm|, delay := r.delay);
      if bytesLeft == 0 && |c.line| + |pcm| <= w.ringSize && r.accepted && r.ok {
        BurstBound(w, d, Feed(c', pcm), sizes + [r.consumed], 0);
      }
    }
  }

  lemma {:induction false} RoundsBound(w: World, d: nat, adts: bool, input: seq<Byte>, k: Walk, n: nat)
    requires DelaysUpTo(w, d) && WalkOk(w, input, k) && DelayBound(d, k.core)
    ensures DelayBound(d, Rounds(w, adts, input, k, n).core)
    decreases n
  {
    if n > 0 {
      if !Ended(k) && (adts ==> ReadHeader(input[k.offset..]).Good?) {
        var payload := if adts then ReadHeader(input[k.offset..]).payload else k.size;
        BurstBound(w, d, k.core, k.sizes, payload - Min(w.fill(k.core.clock), payload));
      }
      RoundsBound(w, d, adts, input, Round(w, adts, input, k), n - 1);
    }
  }

  lemma {:induction false} DrainDecoderBound(w: World, d: nat, c: Core)
    requires DelayBound(d, c)
    ensures DelayBound(d, DrainDecoder(w, c))
    decreases c.compensated
  {
    if c.compensated > 0 {
      var pcm: seq<Sample> := w.flush(c.clock);
      var n := Min(|pcm|, c.compensated);
      var c' := c.(clock := c.clock + 1, frame := |pcm|);
      if |c.line| + n <= w.ringSize {
        DrainDecoderBound(w, d, Refill(c', pcm[..n]));
      }
    }
  }

  lemma {:induction false} DrainBound(w: World, d: nat, c: Core, eos: bool, work: Option<nat>)
    requires DelayBound(d, c)
    ensures DelayBound(d, Drain(w, c, eos, work)) && DelayBound(d, DrainRing(w, c, eos))
  {
    DrainDecoderBound(w, d, c);
  }

  lemma {:induction false} AfterDecodingBound(w: World, d: nat, c: Core, job: Job, sizes: seq<int>)
    requires DelayBound(d, c) && |c.line| <= w.ringSize
    ensures DelayBound(d, AfterDecoding(w, c, job, sizes).core)
  {
    var bigger := PortDelay(c) > c.portDelay;
    var c' := if bigger then c.(portDelay := PortDelay(c), clock := c.clock + 1) else c;
    DrainBound(w, d, Note(c', job.index, sizes), true, Some(job.index));
    DrainBound(w, d, Note(c', job.index, sizes), false, Some(job.index));
    hide PortDelay, Drain, DrainRing, InPlace;
  }

  lemma {:induction false} StepBound(w: World, d: nat, c: Core, call: Call)
    requires DelaysUpTo(w, d) && Ledger(w, c) && DelayBound(d, c)
    ensures DelayBound(d, Step(w, c, call))
  {
    match call
    case ProcessCall(job) =>
      if Callable(w, c, job) && !c.error && !(job.codecConfig && job.input != []) {
        var n: nat :| Walked(w, c, job) == Rounds(w, job.adts, job.input, Start(c, job.input), n);
        RoundsBound(w, d, job.adts, job.input, Start(c, job.input), n);
        AfterDecodingBound(w, d, Walked(w, c, job).core, job, Walked(w, c, job).sizes);
      }
    case DrainCall(eos) => DrainBound(w, d, c, eos, None);
    case FlushCall => DrainDecoderBound(w, d, c);
    case StopCall =>
  }

  /** In every run, while no reply announces a delay above `d`, never more than `d` samples are discarded
      to make up for it, whatever the frame sizes. */
  lemma {:induction false} RunBoundsDelay(w: World, d: nat, c: Core, calls: seq<Call>)
    requires DelaysUpTo(w, d) && Ledger(w, c) && DelayBound(d, c)
    ensures DelayBound(d, AacAccounting.Run(w, c, calls))
    decreases |calls|
  {
    if calls != [] {
      StepBound(w, d, c, calls[0]);
      StepKeeps(w, c, calls[0]);
      RunBoundsDelay(w, d, Step(w, c, calls[0]), calls[1..]);
    }
  }
}
