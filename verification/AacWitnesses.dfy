/** Inputs at which the AAC decoder cannot give its samples back, drops a work, or keeps samples. Each starts
    from a new decoder with the ring that the code allocates. */
module AacWitnesses {
  import opened Options
  import opened RingBuffer
  import opened AdtsFraming
  import opened AacDelayLine
  import opened AacModel
  import opened AacLoops
  import opened AacAccounting

  /** 2048 samples for each of 8 channels, 8 times. */
  const RING_SIZE := 131072

  function Zeros(f: nat): (r: Pcm)
    requires 0 < f <= 16384
    ensures |r| == f
  {
    Silence(f)
  }

  /** A library that takes every byte and yields a frame of `f` samples at some calls; `granted` tells
      whether output blocks are. */
  function Library(f: nat, delay: nat, ready: nat -> bool, granted: bool): World
    requires 0 < f <= 16384
  {
    World(RING_SIZE, _ => 1,
          (t: nat) => if ready(t) then Reply.Frame(true, Zeros(f), delay, 1, true) else NotEnoughBits,
          _ => Zeros(f), _ => true, _ => granted, _ => true)
  }

  function OneByte(index: nat, eos: bool): Job { Job(index, [0], false, eos, false) }

  /** The walk is over after the first round. */
  lemma {:induction false} WalkIsRound(w: World, c: Core, job: Job)
    requires |c.line| <= w.ringSize && Ended(Round(w, job.adts, job.input, Start(c, job.input)))
    ensures Ends(w, job.adts, job.input, Start(c, job.input))
    ensures !Ended(Start(c, job.input)) ==>
              Walked(w, c, job) == Round(w, job.adts, job.input, Start(c, job.input))
  {
    var k, r := Start(c, job.input), Round(w, job.adts, job.input, Start(c, job.input));
    assert Rounds(w, job.adts, job.input, k, 1) == Rounds(w, job.adts, job.input, r, 0) == r;
    if !Ended(k) {
      var n: nat :| Walked(w, c, job) == Rounds(w, job.adts, job.input, k, n);
      assert Ended(Walked(w, c, job)) && Rounds(w, job.adts, job.input, k, 0) == k;
      if n > 0 {
        EndIsFinal(w, job.adts, job.input, r, n - 1);
        assert Rounds(w, job.adts, job.input, k, n) == Rounds(w, job.adts, job.input, r, n - 1);
      }
    }
  }

  /** A byte decoded by such a library, while nothing is delayed: one frame if the library yields one now and
      none after it, or no frame. */
  lemma {:induction false} ByteWalk(c: Core, f: nat, delay: nat, ready: nat -> bool, granted: bool, job: Job)
    requires 0 < f <= 16384 && c.line == [] && c.frame <= f && !job.adts && job.input == [0]
    requires ready(c.clock) ==> !ready(c.clock + 1)
    ensures var w := Library(f, delay, ready, granted); Ends(w, false, [0], Start(c, [0]))
    ensures var k := Walked(Library(f, delay, ready, granted), c, job);
            var fed := Feed(c.(clock := c.clock + 2, frame := f, delay := delay), Zeros(f));
            && !k.failed
            && (if ready(c.clock) then k.core == fed && k.sizes == [1]
                else k.core == c.(clock := c.clock + 1) && k.sizes == [])
  {
    var w := Library(f, delay, ready, granted);
    var one := Feed(c.(clock := c.clock + 1, frame := f, delay := delay), Zeros(f));
    if ready(c.clock) {
      assert DecodeFrames(w, one, [1], 0) == Burst(one.(clock := c.clock + 2), [1], false, false);
      assert [] + [1] == [1];
      assert DecodeFrames(w, c, [], 0) == DecodeFrames(w, one, [1], 0);
    } else {
      assert DecodeFrames(w, c, [], 0) == Burst(c.(clock := c.clock + 1), [], false, false);
    }
    WalkIsRound(w, c, job);
  }

  predicate Waiting(c: Core, f: nat, delay: nat) {
    !c.error && c.line == [] && c.answers == [] && c.frame in {0, f} && c.delay in {0, delay}
  }

  /** Such a byte when the delay is not made up for: the samples are discarded, and the work waits. */
  lemma {:induction false} ByteCall(c: Core, f: nat, delay: nat, ready: nat -> bool, index: nat)
    requires 0 < f <= 16384 && Waiting(c, f, delay) && (ready(c.clock) ==> !ready(c.clock + 1))
    requires if ready(c.clock) then c.compensated + f <= delay
             else c.frame == f && c.delay == delay && c.compensated < delay && (delay + f - 1) / f <= c.portDelay
    ensures var w := Library(f, delay, ready, true); Ends(w, false, [0], Start(c, [0]))
    ensures var r := Process(Library(f, delay, ready, true), c, OneByte(index, false)).core;
            var need := (delay + f - 1) / f;
            && Waiting(r, f, delay) && r.frame == f && r.delay == delay
            && r.compensated == c.compensated + (if ready(c.clock) then f else 0)
            && r.infos == c.infos + [Info(index, if ready(c.clock) then [1] else [])]
            && (ready(c.clock) ==>
                  && r.portDelay == (if need > c.portDelay then need else c.portDelay)
                  && r.clock == c.clock + 2 + (if need > c.portDelay then 1 else 0))
  {
    var w, job := Library(f, delay, ready, true), OneByte(index, false);
    ByteWalk(c, f, delay, ready, true, job);
    hide Walked, DecodeFrames, Library, Zeros;
    var k := Walked(w, c, job);
    assert w.port(k.core.clock) by {
      assert Library(f, delay, ready, true).port(k.core.clock);
    }
    assert k.core.line[|k.core.line|..] == [];
  }

  // ---------- the flush overflows ----------

  function Bytes(n: nat): seq<Call> {
    if n == 0 then [] else Bytes(n - 1) + [ProcessCall(OneByte(n - 1, false))]
  }

  /** Frames of full size, with a delay of nine of them: more than the ring holds. */
  function LongDelay(): World { Library(16384, 147456, t => t == 0 || (t >= 3 && t % 2 == 1), true) }

  lemma {:induction false} AfterBytes(n: nat)
    requires 1 <= n <= 9
    ensures var c := Run(LongDelay(), NEW, Bytes(n));
            && Ledger(LongDelay(), c) && Waiting(c, 16384, 147456) && c.compensated == n * 16384
            && c.portDelay == 9 && c.clock == 2 * n + 1 && (forall i :: i in Indices(c.infos) ==> i < n)
    decreases n
  {
    var w, index := LongDelay(), n - 1;
    RunAppend(w, NEW, Bytes(index), ProcessCall(OneByte(index, false)));
    if n > 1 {
      AfterBytes(index);
    }
    var c := Run(w, NEW, Bytes(index));
    hide Step;
    OneMoreByte(c, index);
  }

  lemma {:induction false} OneMoreByte(c: Core, index: nat)
    requires Ledger(LongDelay(), c) && Waiting(c, 16384, 147456) && index <= 8 && c.compensated == index * 16384
    requires forall i :: i in Indices(c.infos) ==> i < index
    requires if index == 0 then c.clock == 0 && c.portDelay == 2 else c.clock == 2 * index + 1 && c.portDelay == 9
    ensures var r := Step(LongDelay(), c, ProcessCall(OneByte(index, false)));
            && Ledger(LongDelay(), r) && Waiting(r, 16384, 147456) && r.compensated == (index + 1) * 16384
            && r.portDelay == 9 && r.clock == 2 * index + 3
            && (forall i :: i in Indices(r.infos) ==> i < index + 1)
  {
    var w, job := LongDelay(), OneByte(index, false);
    ByteCall(c, 16384, 147456, t => t == 0 || (t >= 3 && t % 2 == 1), index);
    StepKeeps(w, c, ProcessCall(job));
    IndicesAppend(c.infos, [Info(index, [1])]);
    assert Indices([Info(index, [1])]) == [index] + Indices([]);
    hide Process, Ledger;
    assert Callable(w, c, job);
  }

  /** After nine frames, a flush cannot put the 147456 discarded samples back into the ring of 131072. */
  lemma {:induction false} OverflowWitness()
    ensures var c := Run(LongDelay(), NEW, Bytes(9));
            !c.error && c.line == [] && c.compensated == 147456 && Step(LongDelay(), c, FlushCall).error
  {
    AfterBytes(9);
    DrainDecoderExact(LongDelay(), Run(LongDelay(), NEW, Bytes(9)));
    hide Run, DrainDecoder, Ledger;
  }

  // ---------- a drain without a work drops one ----------

  /** One frame of 256 samples for each of 8 channels, and a delay of two of them. */
  function OneFrame(): World { Library(2048, 4096, t => t == 0, true) }

  lemma {:induction false} FirstByte()
    ensures var b := Step(OneFrame(), NEW, ProcessCall(OneByte(0, false)));
            && Waiting(b, 2048, 4096) && b.frame == 2048 && b.delay == 4096 && b.compensated == 2048
            && b.infos == [Info(0, [1])] && b.portDelay == 2 && b.clock == 2
  {
    ByteCall(NEW, 2048, 4096, t => t == 0, 0);
    hide Process;
    assert Callable(OneFrame(), NEW, OneByte(0, false));
    assert [] + [Info(0, [1])] == [Info(0, [1])];
  }

  lemma {:induction false} SecondByte(b: Core)
    requires Ledger(OneFrame(), b) && Waiting(b, 2048, 4096) && b.frame == 2048 && b.delay == 4096
    requires b.compensated == 2048 && b.infos == [Info(0, [1])] && b.portDelay == 2 && b.clock == 2
    ensures var c := Step(OneFrame(), b, ProcessCall(OneByte(1, false)));
            && Waiting(c, 2048, 4096) && c.compensated == 2048 && c.infos == [Info(0, [1]), Info(1, [])]
  {
    ByteCall(b, 2048, 4096, t => t == 0, 1);
    hide Process;
    assert Indices([Info(0, [1])]) == [0] + Indices([Info(0, [1])][1..]) == [0];
    assert Callable(OneFrame(), b, OneByte(1, false));
    assert [Info(0, [1])] + [Info(1, [])] == [Info(0, [1]), Info(1, [])];
  }

  lemma {:induction false} TwoBytes()
    ensures var c := Run(OneFrame(), NEW, Bytes(2));
            && Ledger(OneFrame(), c) && Waiting(c, 2048, 4096) && c.compensated == 2048
            && c.infos == [Info(0, [1]), Info(1, [])]
  {
    var w := OneFrame();
    RunAppend(w, NEW, Bytes(0), ProcessCall(OneByte(0, false)));
    RunAppend(w, NEW, Bytes(1), ProcessCall(OneByte(1, false)));
    RunKeepsLedger(w, NEW, Bytes(1));
    RunKeepsLedger(w, NEW, Bytes(2));
    FirstByte();
    hide Step, Ledger, OneFrame;
    SecondByte(Run(w, NEW, Bytes(1)));
  }

  /** The samples of one frame answer the first of two works and leave the second. */
  lemma {:induction false} FirstTakesAll(fetch: nat -> bool, t: nat)
    requires fetch(t)
    ensures DrainLine([Info(0, [1]), Info(1, [])], Zeros(2048), 2048, true, fetch, t).rest == [Info(1, [])]
  {
    var infos, line := [Info(0, [1]), Info(1, [])], Zeros(2048);
    assert infos[1..] == [Info(1, [])] && |infos[0].sizes| * 2048 == 2048;
    assert line[..2048] == line && line[2048..] == [];
    var d := DrainLine(infos[1..], [], 2048, true, fetch, t + 1);
    assert DrainLine(infos, line, 2048, true, fetch, t).rest == d.rest;
  }

  /** The samples made up for come back. */
  lemma {:induction false} GivenBack(c: Core)
    requires c.line == [] && c.compensated == 2048
    ensures var d := DrainDecoder(OneFrame(), c); d.line == Zeros(2048) && d.frame == 2048 && d.infos == c.infos
  {
    var pcm := Zeros(2048);
    assert pcm[..2048] == pcm && [] + pcm == pcm;
    var full := Refill(c.(clock := c.clock + 1, frame := 2048), pcm[..2048]);
    hide Zeros;
    assert DrainDecoder(OneFrame(), c) == DrainDecoder(OneFrame(), full) == full;
  }

  /** The second of two works has no samples of its own yet; a drain to the end of the stream drops it. */
  lemma {:induction false} DroppedWitness()
    ensures var c := Run(OneFrame(), NEW, Bytes(2)); var r := Drain(OneFrame(), c, true, None);
            Indices(c.infos) == [0, 1] && !r.error && r.infos == [] && Answered(r.answers) == [0]
  {
    TwoBytes();
    DropsSecond(Run(OneFrame(), NEW, Bytes(2)));
    hide Run, Drain;
  }

  lemma {:induction false} DropsSecond(c: Core)
    requires Ledger(OneFrame(), c) && Waiting(c, 2048, 4096) && c.compensated == 2048
    requires c.infos == [Info(0, [1]), Info(1, [])]
    ensures var r := Drain(OneFrame(), c, true, None);
            Indices(c.infos) == [0, 1] && !r.error && r.infos == [] && Answered(r.answers) == [0]
  {
    var w := OneFrame();
    assert [Info(0, [1]), Info(1, [])] == [Info(0, [1])] + [Info(1, [])];
    IndicesAppend([Info(0, [1])], [Info(1, [])]);
    assert Indices([Info(0, [1])]) == [0] + Indices([]) && Indices([Info(1, [])]) == [1] + Indices([]);
    assert Answered([]) + [0, 1] == [0, 1] == c.log.noted;
    GivenBack(c);
    var d := DrainDecoder(w, c);
    FirstTakesAll(w.fetch, d.clock);
    DrainDecoderExact(w, c);
    EosWithoutWork(w, c);
    var r := Drain(w, c, true, None);
    hide Drain, DrainDecoder, DrainLine, Answered, Indices, Ledger, Zeros;
    assert LineDrain(w, d, true).rest == [Info(1, [])];
    assert Answered(r.answers) + [1] == [0] + [1];
    assert Answered(r.answers) == (Answered(r.answers) + [1])[..|Answered(r.answers)|];
  }

  // ---------- a refused block keeps samples ----------

  /** A stream of one frame that ends with its first work, whose output block is refused: no error is
      signalled and the work is answered, but its samples stay in the ring. */
  lemma {:induction false} RefusedWitness()
    ensures var w, job := Library(2048, 0, t => t == 0, false), OneByte(0, true);
            && Callable(w, NEW, job)
            && var out := Process(w, NEW, job);
               && out.processed && !out.core.error && out.core.infos == [] && |out.core.line| == 2048
               && Refused(out.core.answers)
  {
    var w, job := Library(2048, 0, t => t == 0, false), OneByte(0, true);
    ByteWalk(NEW, 2048, 0, t => t == 0, false, job);
    var k := Walked(w, NEW, job);
    var noted := Note(k.core, 0, [1]);
    assert noted.infos == [Info(0, [1])] && |noted.line| == 2048 && noted.frame == 2048;
    assert Process(w, NEW, job) == Deliver(w, noted, job);
    RefusedLine(w, noted);
    hide Walked, DecodeFrames, Zeros;
  }

  lemma {:induction false} RefusedLine(w: World, c: Core)
    requires c.infos == [Info(0, [1])] && |c.line| == 2048 && c.frame == 2048 && c.compensated == 0
    requires forall t :: !w.fetch(t)
    ensures var r := Drain(w, c, true, Some(0));
            r.infos == [] && r.line == c.line && Refused(r.answers) && r.error == c.error
  {
    var refused := Answer(0, [], NoMemory);
    assert c.infos[1..] == [] && |c.infos[0].sizes| * 2048 == 2048 && c.line[0..] == c.line;
    var d := DrainLine(c.infos, c.line, 2048, true, w.fetch, c.clock);
    assert DrainLine([], c.line, 2048, true, w.fetch, c.clock + 1) == Drained([], [], c.line, c.clock + 1);
    assert d == Drained([refused] + [], [], c.line, c.clock + 1);
    assert Answered([refused]) == [0] + Answered([]);
    assert Drain(w, c, true, Some(0)).answers[|c.answers|] == refused;
  }
}
