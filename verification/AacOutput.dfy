/** Which samples the AAC decoder puts out: those that the library decoded, moved forward by the delay, and
    each work as soon as its own have come. */
module AacOutput {
  import opened Options
  import opened RingBuffer
  import opened AacDelayLine
  import opened AacModel
  import opened AacLoops
  import opened AacAccounting
  import opened AacStream
  import opened AacDecoded

  // ---------- what goes out ----------

  /** A flushing drain without an error puts in the ring as many samples of the flush frames as were discarded. */
  lemma {:induction false} FlushTakes(w: World, c: Core)
    requires |c.line| + c.compensated <= w.ringSize
    ensures var r := DrainDecoder(w, c); var flushed := Flushed(w, c.clock, c.compensated);
            && r.line == c.line + flushed && r.log.fed == c.log.fed + flushed && |flushed| == c.compensated
    decreases c.compensated
  {
    if c.compensated > 0 {
      var pcm: seq<Sample> := w.flush(c.clock);
      var front := pcm[..Min(|pcm|, c.compensated)];
      var c' := Refill(c.(clock := c.clock + 1, frame := |pcm|), front);
      assert DrainDecoder(w, c) == DrainDecoder(w, c');
      FlushTakes(w, c');
      FirstFlushed(w, c.clock, c.compensated);
      hide DrainDecoder, Flushed;
      var rest := Flushed(w, c'.clock, c'.compensated);
      assert (c.line + front) + rest == c.line + (front + rest);
      assert (c.log.fed + front) + rest == c.log.fed + (front + rest);
    } else {
      assert Flushed(w, c.clock, 0) == [];
      assert c.line + [] == c.line && c.log.fed + [] == c.log.fed;
    }
  }

  lemma {:induction false} FirstFlushed(w: World, a: nat, n: nat)
    ensures var pcm: seq<Sample> := w.flush(a); var m := Min(|pcm|, n);
            Flushed(w, a, n) == pcm[..m] + Flushed(w, a + 1, n - m)
  {
    var pcm: seq<Sample> := w.flush(a);
    if n <= |pcm| {
      assert Flushed(w, a + 1, 0) == [];
    } else {
      assert pcm[..|pcm|] == pcm;
    }
  }

  /** The oldest undone work still waits for its samples. */
  predicate Waits(c: Core) {
    c.infos == [] || |c.line| < c.frame || |c.line| < |c.infos[0].sizes| * c.frame
  }

  /** What becomes of a work: all its samples, or none because no output block could be had. */
  predicate OwnSamples(a: Answer, info: Info, frame: nat) {
    && a.index == info.index
    && (if a.status == NoMemory then a.samples == [] else a.status == Fine && |a.samples| == |info.sizes| * frame)
  }

  /** In mid-stream the ring drain goes on until a work waits for its samples, and every work that it answers
      gets its own. */
  lemma {:induction false} DrainGoesOn(infos: seq<Info>, line: seq<Sample>, frame: nat, fetch: nat -> bool, t: nat)
    ensures var d := DrainLine(infos, line, frame, false, fetch, t);
            && (d.rest == [] || |d.line| < frame || |d.line| < |d.rest[0].sizes| * frame)
            && |d.answers| <= |infos|
            && (forall i :: 0 <= i < |d.answers| ==> OwnSamples(d.answers[i], infos[i], frame))
            && (|line| < frame ==> d.answers == [])
    decreases |infos|
  {
    if infos != [] && |line| >= frame && |line| >= |infos[0].sizes| * frame {
      var n := |infos[0].sizes| * frame;
      var got := n > 0 && fetch(t);
      var samples := if got then line[..n] else [];
      DrainGoesOn(infos[1..], line[|samples|..], frame, fetch, if n > 0 then t + 1 else t);
      var d' := DrainLine(infos[1..], line[|samples|..], frame, false, fetch, if n > 0 then t + 1 else t);
      var a := Answer(infos[0].index, samples, if n > 0 && !got then NoMemory else Fine);
      assert DrainLine(infos, line, frame, false, fetch, t) == d'.(answers := [a] + d'.answers);
      assert OwnSamples(a, infos[0], frame);
    }
  }

  // ---------- one call ----------

  /** A call that decodes its input: the decoder is not in error, and the input is no codec configuration. */
  predicate Decodes(c: Core, job: Job) { !c.error && !(job.codecConfig && job.input != []) }

  /** What the library decodes in a call of `process`. */
  ghost function CallYields(w: World, c: Core, job: Job): seq<Sample>
    requires Callable(w, c, job)
  {
    var k := Walked(w, c, job);
    InputTakes(w, c, job);
    if Decodes(c, job) then Yielded(w, c.clock, k.core.clock) else []
  }

  /** What a call does with the samples in the ring: as long as the delay asks for it, as many as there are
      go to make up for it, and nothing is answered; afterwards works are answered until one waits. */
  predicate HandedOn(c: Core, r: Core) {
    if c.compensated < c.delay then
      && r.compensated == Min(c.compensated + |c.line|, c.delay)
      && r.line == c.line[r.compensated - c.compensated..] && r.answers == c.answers
    else r.compensated == c.compensated && Waits(r)
  }

  /** From `c` to `r` works were answered from the front of `all`, each with its own samples. */
  predicate AnsweredOwn(c: Core, r: Core, all: seq<Info>) {
    && c.answers <= r.answers
    && var n := |r.answers| - |c.answers|;
       && n <= |all| && r.infos == all[n..]
       && forall i :: 0 <= i < n ==> OwnSamples(r.answers[|c.answers| + i], all[i], r.frame)
  }

  lemma {:induction false} RingHandsOn(w: World, c: Core)
    ensures var r := DrainRing(w, c, false); Waits(r) && AnsweredOwn(c, r, c.infos)
  {
    hide DrainLine;
    DrainGoesOn(c.infos, c.line, c.frame, w.fetch, c.clock);
    DrainKeepsOrder(c.infos, c.line, c.frame, false, w.fetch, c.clock);
  }

  lemma {:induction false} DeliverHandsOn(w: World, c: Core, job: Job)
    requires !job.eos
    ensures var r := Deliver(w, c, job).core;
            && r.log.fed == c.log.fed && r.log.decoded == c.log.decoded && r.delay == c.delay && r.frame == c.frame
            && HandedOn(c, r) && AnsweredOwn(c, r, c.infos)
  {
    hide DrainLine, Emitted, Waits, AnsweredOwn;
    if c.compensated < c.delay {
      NoneAnswered(c, Deliver(w, c, job).core);
    } else {
      RingHandsOn(w, c);
    }
  }

  lemma {:induction false} NoneAnswered(c: Core, r: Core)
    requires r.answers == c.answers && r.infos == c.infos
    ensures AnsweredOwn(c, r, c.infos)
  {
    assert c.infos[0..] == c.infos;
  }

  lemma {:induction false} SameAnswers(c: Core, c': Core, r: Core, all: seq<Info>)
    requires c.answers == c'.answers
    ensures AnsweredOwn(c, r, all) <==> AnsweredOwn(c', r, all)
  {
  }

  lemma {:induction false} AfterDecodingDelivers(w: World, c: Core, job: Job, sizes: seq<int>)
    requires !job.eos && !AfterDecoding(w, c, job, sizes).core.error
    ensures var r := AfterDecoding(w, c, job, sizes).core;
            && r.log.fed == c.log.fed && r.log.decoded == c.log.decoded && r.delay == c.delay && r.frame == c.frame
            && HandedOn(c, r) && AnsweredOwn(c, r, c.infos + [Info(job.index, sizes)])
  {
    hide PortDelay, Deliver, Waits, AnsweredOwn;
    var bigger := PortDelay(c) > c.portDelay;
    var c' := if bigger then c.(portDelay := PortDelay(c), clock := c.clock + 1) else c;
    var noted := Note(c', job.index, sizes);
    assert AfterDecoding(w, c, job, sizes).core == Deliver(w, noted, job).core;
    hide AfterDecoding;
    DeliverHandsOn(w, noted, job);
    SameAnswers(c, noted, Deliver(w, noted, job).core, noted.infos);
  }

  predicate Fed(c: Core, r: Core, samples: seq<Sample>) {
    r.log.fed == c.log.fed + samples && r.log.decoded == c.log.decoded + |samples|
  }

  lemma {:induction false} SameHands(c: Core, c': Core, r: Core)
    requires c.line == c'.line && c.compensated == c'.compensated && c.delay == c'.delay && c.answers == c'.answers
    ensures HandedOn(c, r) <==> HandedOn(c', r)
  {
    hide Waits;
  }

  /** The part of a call before its samples are handed on. */
  lemma {:induction false} CallWalks(w: World, c: Core, job: Job)
    requires Ledger(w, c) && Callable(w, c, job) && Decodes(c, job) && !Process(w, c, job).core.error
    ensures var k := Walked(w, c, job).core;
            && k.line == c.line + CallYields(w, c, job) && Fed(c, k, CallYields(w, c, job))
            && k.compensated == c.compensated && k.answers == c.answers && k.infos == c.infos
            && k.log.lead == c.log.lead && Ledger(w, k) && !k.error
            && Process(w, c, job) == AfterDecoding(w, k, job, Walked(w, c, job).sizes)
  {
    InputTakes(w, c, job);
    WalkKeeps(w, c, job);
    if Walked(w, c, job).failed {
      FailedWalkSignals(w, c, job);
    }
    hide Walked, Ledger, AfterDecoding;
  }

  /** A call in mid-stream that signals no error. */
  lemma {:induction false} MidStreamCall(w: World, c: Core, job: Job)
    requires Ledger(w, c) && Callable(w, c, job) && !job.eos && Decodes(c, job) && !Process(w, c, job).core.error
    ensures var r := Process(w, c, job).core; var yielded := CallYields(w, c, job);
            && Fed(c, r, yielded)
            && HandedOn(c.(line := c.line + yielded, delay := r.delay), r)
            && AnsweredOwn(c, r, c.infos + [Info(job.index, Walked(w, c, job).sizes)])
  {
    CallWalks(w, c, job);
    var k, r := Walked(w, c, job), Process(w, c, job).core;
    hide Walked, Process, AfterDecoding, Ledger, HandedOn, AnsweredOwn, Callable, CallYields;
    AfterDecodingDelivers(w, k.core, job, k.sizes);
    SameAnswers(c, k.core, r, c.infos + [Info(job.index, k.sizes)]);
    SameHands(c.(line := c.line + CallYields(w, c, job), delay := r.delay), k.core, r);
  }

  // ---------- whole streams ----------

  /** Nothing has been decoded since the last flush or stop, and nothing is undone. */
  predicate Opening(c: Core) {
    && !c.error && c.line == [] && c.infos == [] && c.answers == [] && c.compensated == 0
    && c.log == Log([], 0, 0, true, [])
  }

  /** A new decoder is such, and one that was stopped, or flushed without an error. */
  lemma {:induction false} OpensAStream(w: World, c: Core)
    requires Ledger(w, c)
    ensures Opening(NEW) && NEW.frame == 0 && NEW.delay == 0
    ensures Opening(Stop(w, c)) && Stop(w, c).frame == 0 && Stop(w, c).delay == 0
    ensures Opening(AacModel.Flush(w, c)) <==> !c.error && |c.line| + c.compensated <= w.ringSize
  {
    DrainDecoderExact(w, c);
    DrainErrors(w, c);
  }

  lemma {:induction false} DrainErrors(w: World, c: Core)
    ensures DrainDecoder(w, c).error ==> c.error || DrainDecoder(w, c).compensated > 0
    ensures c.error ==> DrainDecoder(w, c).error
    decreases c.compensated
  {
    if c.compensated > 0 {
      var pcm: seq<Sample> := w.flush(c.clock);
      var n := Min(|pcm|, c.compensated);
      if |c.line| + n <= w.ringSize {
        DrainErrors(w, Refill(c.(clock := c.clock + 1, frame := |pcm|), pcm[..n]));
      }
    }
  }

  /** What the library decodes in the calls for `jobs`. */
  ghost function Decoded(w: World, c: Core, jobs: seq<Job>): seq<Sample>
    decreases |jobs|
  {
    if jobs == [] then []
    else (if Callable(w, c, jobs[0]) then CallYields(w, c, jobs[0]) else [])
         + Decoded(w, Step(w, c, ProcessCall(jobs[0])), jobs[1..])
  }

  lemma {:induction false} ErrorStays(w: World, c: Core, jobs: seq<Job>)
    requires c.error
    ensures RunJobs(w, c, jobs) == c
    decreases |jobs|
  {
    if jobs != [] {
      assert Step(w, c, ProcessCall(jobs[0])) == c;
      ErrorStays(w, c, jobs[1..]);
    }
  }

  lemma {:induction false} StepFeeds(w: World, c: Core, job: Job)
    requires Ledger(w, c) && !job.eos && !Step(w, c, ProcessCall(job)).error
    ensures !c.error
    ensures Fed(c, Step(w, c, ProcessCall(job)), if Callable(w, c, job) then CallYields(w, c, job) else [])
  {
    assert c.log.fed + [] == c.log.fed;
    if Callable(w, c, job) && Decodes(c, job) {
      MidStreamCall(w, c, job);
    }
  }

  /** In every run of calls that signals no error the ring is given what the library decodes, and nothing
      else. */
  lemma {:induction false} RunFeeds(w: World, c: Core, jobs: seq<Job>)
    requires Ledger(w, c) && (forall job :: job in jobs ==> !job.eos) && !RunJobs(w, c, jobs).error
    ensures Fed(c, RunJobs(w, c, jobs), Decoded(w, c, jobs))
    decreases |jobs|
  {
    if jobs == [] {
      assert c.log.fed + [] == c.log.fed;
    } else {
      var c' := Step(w, c, ProcessCall(jobs[0]));
      StepKeeps(w, c, ProcessCall(jobs[0]));
      if c'.error {
        ErrorStays(w, c', jobs[1..]);
      }
      hide Step, Ledger, Fed, CallYields, Callable;
      assert jobs[0] in jobs;
      StepFeeds(w, c, jobs[0]);
      RunFeeds(w, c', jobs[1..]);
      FedTwice(c, c', RunJobs(w, c', jobs[1..]),
               if Callable(w, c, jobs[0]) then CallYields(w, c, jobs[0]) else [], Decoded(w, c', jobs[1..]));
    }
  }

  lemma {:induction false} FedTwice(a: Core, b: Core, c: Core, first: seq<Sample>, second: seq<Sample>)
    requires Fed(a, b, first) && Fed(b, c, second)
    ensures Fed(a, c, first + second)
  {
    assert a.log.fed + first + second == a.log.fed + (first + second);
  }

  /** So in every run, as long as no discard comes after the first output, what has been put out and what is
      in the ring are what the library decoded without the samples that were discarded. */
  lemma {:induction false} RunPutsOut(w: World, c: Core, jobs: seq<Job>)
    requires Ledger(w, c) && Opening(c) && (forall job :: job in jobs ==> !job.eos)
    ensures var r := RunJobs(w, c, jobs);
            !r.error && r.log.aligned ==>
              var decoded := Decoded(w, c, jobs);
              r.log.lead <= |decoded| && Emitted(r) + r.line == decoded[r.log.lead..]
  {
    RunKeeps(w, c, jobs);
    if !RunJobs(w, c, jobs).error {
      RunFeeds(w, c, jobs);
      assert [] + Decoded(w, c, jobs) == Decoded(w, c, jobs);
    }
  }

  lemma {:induction false} RunKeeps(w: World, c: Core, jobs: seq<Job>)
    requires Ledger(w, c)
    ensures Ledger(w, RunJobs(w, c, jobs))
    decreases |jobs|
  {
    hide Ledger, Step;
    if jobs != [] {
      StepKeeps(w, c, ProcessCall(jobs[0]));
      RunKeeps(w, Step(w, c, ProcessCall(jobs[0])), jobs[1..]);
    }
  }

  /** As much of the delay is made up for as there are samples. */
  predicate MadeUp(d: nat, c: Core) { c.compensated == Min(d, c.log.decoded) }

  lemma {:induction false} StepMakesUp(w: World, f: nat, d: nat, c: Core, job: Job)
    requires Steady(w, f, d) && Ledger(w, c) && InStream(f, d, c) && MadeUp(d, c) && !job.eos
    requires !Step(w, c, ProcessCall(job)).error
    ensures MadeUp(d, Step(w, c, ProcessCall(job)))
  {
    if Callable(w, c, job) && Decodes(c, job) && !c.error {
      MidStreamCall(w, c, job);
      ProcessInStream(w, f, d, c, job);
      ProcessKeeps(w, c, job);
    }
  }

  lemma {:induction false} RunMakesUp(w: World, f: nat, d: nat, c: Core, jobs: seq<Job>)
    requires Steady(w, f, d) && Ledger(w, c) && InStream(f, d, c) && MadeUp(d, c)
    requires (forall job :: job in jobs ==> !job.eos) && !RunJobs(w, c, jobs).error
    ensures var r := RunJobs(w, c, jobs); MadeUp(d, r) && InStream(f, d, r) && Ledger(w, r)
    decreases |jobs|
  {
    hide Step, Ledger, InStream, MadeUp;
    if jobs != [] {
      var c' := Step(w, c, ProcessCall(jobs[0]));
      if c'.error {
        ErrorStays(w, c', jobs[1..]);
      }
      assert jobs[0] in jobs;
      StepKeeps(w, c, ProcessCall(jobs[0]));
      StepMakesUp(w, f, d, c, jobs[0]);
      StepInStream(w, f, d, c, jobs[0]);
      RunMakesUp(w, f, d, c', jobs[1..]);
    }
  }

  lemma {:induction false} StepInStream(w: World, f: nat, d: nat, c: Core, job: Job)
    requires Steady(w, f, d) && Ledger(w, c) && InStream(f, d, c) && !job.eos
    requires !Step(w, c, ProcessCall(job)).error
    ensures InStream(f, d, Step(w, c, ProcessCall(job)))
  {
    if Callable(w, c, job) {
      ProcessInStream(w, f, d, c, job);
    }
  }

  /** The end of a stream puts the flush frames behind what has been decoded. */
  lemma {:induction false} EosFeeds(w: World, c: Core, job: Job, sizes: seq<int>) returns (t: nat)
    requires Ledger(w, c) && !c.error && job.eos && !AfterDecoding(w, c, job, sizes).core.error
    ensures t >= c.clock
    ensures var r := AfterDecoding(w, c, job, sizes).core;
            r.log.fed == c.log.fed + Flushed(w, t, c.compensated) && r.log.lead == c.log.lead
  {
    hide PortDelay, FinishOlder;
    var bigger := PortDelay(c) > c.portDelay;
    var c' := if bigger then c.(portDelay := PortDelay(c), clock := c.clock + 1) else c;
    t := c'.clock;
    var noted := Note(c', job.index, sizes);
    NoteKeeps(w, c', job.index, sizes);
    hide Ledger;
    DrainDecoderExact(w, noted);
    FlushTakes(w, noted);
    hide DrainDecoder, DrainRing, InPlace;
    var c1 := DrainDecoder(w, noted);
    var c2 := DrainRing(w, c1, true);
    assert c2.log == c1.log && c2.error == c1.error by {
      DrainRingLog(w, c1);
    }
  }

  lemma {:induction false} DrainRingLog(w: World, c: Core)
    ensures DrainRing(w, c, true).log == c.log && DrainRing(w, c, true).error == c.error
  {
  }

  /** A whole stream, told from the library's replies alone: with one frame size and one delay, unless an error
      is signalled or an output block refused, what is put out is what the library decoded, followed by as many
      samples of its flush frames as the delay took, without as many at the front. */
  lemma {:induction false} StreamPutsOut(w: World, f: nat, d: nat, c: Core, jobs: seq<Job>, last: Job) returns (t: nat)
    requires Steady(w, f, d) && Ledger(w, c) && Opening(c)
    requires (c.frame == f && c.delay == d) || (c.frame == 0 && c.delay == 0)
    requires forall job :: job in jobs ==> !job.eos
    requires last.eos && !last.codecConfig && Callable(w, RunJobs(w, c, jobs), last)
    ensures var m := RunJobs(w, c, jobs); var r := Process(w, m, last).core;
            var decoded, lead := Decoded(w, c, jobs), Min(d, |Decoded(w, c, jobs)|);
            !r.error ==>
              && t >= Walked(w, m, last).core.clock
              && (!Refused(r.answers) ==>
                    Emitted(r) == (decoded + CallYields(w, m, last) + Flushed(w, t, lead))[lead..])
  {
    var m := RunJobs(w, c, jobs);
    var r := Process(w, m, last).core;
    t := 0;
    if !r.error {
      MiddleOfStream(w, f, d, c, jobs);
      EosDelivers(w, f, d, m, last);
      t := LastFeeds(w, m, last);
      hide RunJobs, Process, Walked, Decoded, CallYields, Ledger, InStream, Callable, Flushed, Steady;
    }
  }

  lemma {:induction false} OpeningInStream(f: nat, d: nat, c: Core)
    requires Opening(c) && ((c.frame == f && c.delay == d) || (c.frame == 0 && c.delay == 0))
    ensures InStream(f, d, c) && MadeUp(d, c)
  {
  }

  lemma {:induction false} MiddleOfStream(w: World, f: nat, d: nat, c: Core, jobs: seq<Job>)
    requires Steady(w, f, d) && Ledger(w, c) && Opening(c)
    requires (c.frame == f && c.delay == d) || (c.frame == 0 && c.delay == 0)
    requires (forall job :: job in jobs ==> !job.eos) && !RunJobs(w, c, jobs).error
    ensures var m := RunJobs(w, c, jobs);
            && Ledger(w, m) && InStream(f, d, m) && m.log.fed == Decoded(w, c, jobs)
            && m.log.lead == m.compensated == Min(d, |Decoded(w, c, jobs)|)
  {
    hide RunJobs, Decoded, Ledger, Steady;
    OpeningInStream(f, d, c);
    RunMakesUp(w, f, d, c, jobs);
    RunFeeds(w, c, jobs);
    assert [] + Decoded(w, c, jobs) == Decoded(w, c, jobs);
  }

  lemma {:induction false} LastFeeds(w: World, c: Core, job: Job) returns (t: nat)
    requires Ledger(w, c) && Callable(w, c, job) && job.eos && Decodes(c, job) && !Process(w, c, job).core.error
    ensures t >= Walked(w, c, job).core.clock
    ensures var r := Process(w, c, job).core;
            r.log.fed == c.log.fed + CallYields(w, c, job) + Flushed(w, t, c.compensated) && r.log.lead == c.log.lead
  {
    CallWalks(w, c, job);
    InputTakes(w, c, job);
    var k := Walked(w, c, job);
    hide Walked, AfterDecoding, Process, Ledger;
    t := EosFeeds(w, k.core, job, k.sizes);
  }

  /** A drain in mid-stream that finds room in the ring puts back all samples that were discarded, from the flush
      frames, and answers works until one waits. */
  lemma {:induction false} DrainPutsBack(w: World, c: Core)
    requires Ledger(w, c) && |c.line| + c.compensated <= w.ringSize
    ensures var r := Drain(w, c, false, None);
            && r.compensated == 0 && r.error == c.error && Waits(r) && AnsweredOwn(c, r, c.infos)
            && r.log.fed == c.log.fed + Flushed(w, c.clock, c.compensated)
            && (r.log.aligned ==> r.log.lead <= |r.log.fed| && Emitted(r) + r.line == r.log.fed[r.log.lead..])
  {
    hide Waits, AnsweredOwn, DrainLine, Emitted;
    DrainDecoderExact(w, c);
    FlushTakes(w, c);
    var c1 := DrainDecoder(w, c);
    RingHandsOn(w, c1);
    SameAnswers(c, c1, DrainRing(w, c1, false), c.infos);
    DrainRingKeeps(w, c1, false);
  }

  // ---------- without a delay ----------

  /** No sample is held back, as far as no output block was refused. */
  predicate NothingHeld(c: Core) { Refused(c.answers) || c.line == [] }

  /** The works on the list have no samples to wait for. */
  lemma {:induction false} NoFrames(infos: seq<Info>, i: nat)
    requires i < |infos|
    ensures |infos[i].sizes| <= Frames(infos)
  {
    if i > 0 {
      NoFrames(infos[1..], i - 1);
    }
  }

  lemma {:induction false} WaitsForNothing(f: nat, c: Core)
    requires f > 0 && InStream(f, 0, c) && Waits(c) && !Refused(c.answers)
    ensures c.line == [] && (c.frame == f ==> Frames(c.infos) == 0)
  {
    hide Refused;
    if c.frame == f {
      var n := Frames(c.infos);
      if c.infos != [] {
        NoFrames(c.infos, 0);
        Products(|c.infos[0].sizes|, n, f);
      }
    }
  }

  lemma {:induction false} Products(a: nat, b: nat, f: nat)
    requires a <= b && f > 0
    ensures a * f <= b * f && (b > 0 ==> f <= b * f) && (b * f == 0 ==> b == 0)
  {
  }

  lemma {:induction false} OnlyLast(answers: seq<Answer>)
    requires answers != [] && forall i :: 0 <= i < |answers| - 1 ==> answers[i].samples == []
    ensures Samples(answers) == answers[|answers| - 1].samples
  {
    if |answers| == 1 {
      assert Samples(answers) == answers[0].samples + Samples([]);
    } else {
      OnlyLast(answers[1..]);
    }
  }

  lemma {:induction false} FramesYield(w: World, a: nat, b: nat)
    requires a <= b && FramesIn(w, a, b) > 0
    ensures Yielded(w, a, b) != []
    decreases b - a
  {
    if w.decode(a).Frame? {
      var pcm: seq<Sample> := w.decode(a).pcm;
      assert |Worth(w.decode(a))| == |pcm| > 0;
    } else {
      FramesYield(w, a + 1, b);
    }
  }

  /** What a call in mid-stream makes of a decoder without a delay. */
  lemma {:induction false} PromptState(w: World, f: nat, c: Core, job: Job)
    requires Steady(w, f, 0) && Ledger(w, c) && InStream(f, 0, c)
    requires Callable(w, c, job) && !job.eos && Decodes(c, job)
    ensures var out := Process(w, c, job); var r := out.core;
            !r.error ==>
              && Ledger(w, r) && InStream(f, 0, r) && Waits(r)
              && (out.processed <==> job.index !in Indices(r.infos))
              && AnsweredOwn(c, r, c.infos + [Info(job.index, Walked(w, c, job).sizes)])
              && Fed(c, r, CallYields(w, c, job)) && (Walked(w, c, job).sizes != [] ==> r.frame == f)
  {
    var r := Process(w, c, job).core;
    if !r.error {
      MidStreamCall(w, c, job);
      ProcessInStream(w, f, 0, c, job);
      ProcessKeeps(w, c, job);
      InputTakes(w, c, job);
      var k := Walked(w, c, job);
      if k.failed {
        FailedWalkSignals(w, c, job);
      } else if k.sizes != [] {
        FramesYield(w, c.clock, k.core.clock);
      }
    }
  }

  /** Without a delay, while nothing is held back and no block refused, a call that decodes frames answers its
      work in place with all of them, and every work before it without samples. */
  lemma {:induction false} PromptCall(w: World, f: nat, c: Core, job: Job)
    requires Steady(w, f, 0) && Ledger(w, c) && InStream(f, 0, c) && NothingHeld(c)
    requires Callable(w, c, job) && !job.eos && Decodes(c, job) && Walked(w, c, job).sizes != []
    ensures var out := Process(w, c, job); var r := out.core; var n := |c.answers| + |c.infos|;
            !r.error && !Refused(r.answers) ==>
              && out.processed && r.infos == [] && r.line == [] && |r.answers| == n + 1
              && (forall i :: 0 <= i < |c.infos| ==> r.answers[|c.answers| + i] == Answer(c.infos[i].index, [], Fine))
              && r.answers[n] == Answer(job.index, CallYields(w, c, job), Fine)
  {
    var r := Process(w, c, job).core;
    if !r.error && !Refused(r.answers) {
      PromptState(w, f, c, job);
      var sizes, yielded := Walked(w, c, job).sizes, CallYields(w, c, job);
      hide Process, Walked, CallYields, Callable, Ledger, InStream, Waits, AnsweredOwn, Fed, Refused;
      PromptAnswers(w, f, c, r, Info(job.index, sizes), yielded);
    }
  }

  lemma {:induction false} PromptAnswers(w: World, f: nat, c: Core, r: Core, info: Info, yielded: seq<Sample>)
    requires f > 0 && Ledger(w, c) && InStream(f, 0, c) && NothingHeld(c) && info.sizes != []
    requires Ledger(w, r) && InStream(f, 0, r) && !Refused(r.answers) && Waits(r) && r.frame == f
    requires AnsweredOwn(c, r, c.infos + [info]) && Fed(c, r, yielded)
    ensures r.infos == [] && r.line == [] && |r.answers| == |c.answers| + |c.infos| + 1
    ensures forall i :: 0 <= i < |c.infos| ==> r.answers[|c.answers| + i] == Answer(c.infos[i].index, [], Fine)
    ensures r.answers[|c.answers| + |c.infos|] == Answer(info.index, yielded, Fine)
  {
    NothingLeft(f, c, r, info);
    var done := r.answers[|c.answers|..];
    assert r.log.lead == c.log.lead == 0 && r.log.aligned && c.log.aligned && Balanced(f, c) && c.compensated == 0;
    hide InStream, Waits;
    RefusedAppend(c.answers, done);
    assert r.answers == c.answers + done;
    EmittedFed(w, c, r, yielded);
    hide Ledger, Fed, Refused;
    SamplesAppend(c.answers, done);
    OldWorksEmpty(f, c, done, c.infos + [info]);
    hide OwnSamples, Balanced;
    OnlyLast(done);
    Cancelled(Emitted(c), Samples(done), yielded);
  }

  lemma {:induction false} Cancelled(a: seq<Sample>, b: seq<Sample>, c: seq<Sample>)
    requires a + b == a + c
    ensures b == c
  {
    assert b == (a + b)[|a|..] && c == (a + c)[|a|..];
  }

  lemma {:induction false} NothingLeft(f: nat, c: Core, r: Core, info: Info)
    requires f > 0 && InStream(f, 0, r) && !Refused(r.answers) && Waits(r) && r.frame == f
    requires AnsweredOwn(c, r, c.infos + [info]) && info.sizes != []
    ensures r.infos == [] && r.line == [] && |r.answers| == |c.answers| + |c.infos| + 1
  {
    WaitsForNothing(f, r);
    hide InStream, Waits, Refused, OwnSamples, Frames;
    LastCounts(c.infos, info, |r.answers| - |c.answers|);
  }

  lemma {:induction false} LastCounts(infos: seq<Info>, last: Info, n: nat)
    requires n <= |infos| + 1
    ensures n <= |infos| ==> |last.sizes| <= Frames((infos + [last])[n..])
  {
    if n <= |infos| {
      NoFrames((infos + [last])[n..], |infos| - n);
    }
  }

  lemma {:induction false} EmittedFed(w: World, c: Core, r: Core, yielded: seq<Sample>)
    requires Ledger(w, c) && Ledger(w, r) && Fed(c, r, yielded) && c.line == [] && r.line == []
    requires r.log.lead == c.log.lead == 0 && r.log.aligned && c.log.aligned
    ensures Emitted(r) == Emitted(c) + yielded
  {
    assert Emitted(r) + [] == Emitted(r) && Emitted(c) + [] == Emitted(c);
    assert (c.log.fed + yielded)[0..] == c.log.fed[0..] + yielded;
  }

  lemma {:induction false} OldWorksEmpty(f: nat, c: Core, done: seq<Answer>, all: seq<Info>)
    requires f > 0 && Balanced(f, c) && c.line == [] && c.compensated == 0 && c.infos <= all && |done| == |all|
    requires !Refused(done) && !Refused(c.answers)
    requires forall i :: 0 <= i < |all| ==> OwnSamples(done[i], all[i], f)
    ensures forall i :: 0 <= i < |all| ==> done[i].status == Fine
    ensures forall i :: 0 <= i < |c.infos| ==> done[i] == Answer(c.infos[i].index, [], Fine)
  {
    forall i | 0 <= i < |all|
      ensures done[i].status == Fine
    {
      assert done[i].status != NoMemory;
    }
    forall i | 0 <= i < |c.infos|
      ensures done[i] == Answer(c.infos[i].index, [], Fine)
    {
      NoFrames(c.infos, i);
      Products(|c.infos[i].sizes|, Frames(c.infos), f);
      assert done[i].status == Fine;
    }
  }

  lemma {:induction false} StepHoldsNothing(w: World, f: nat, c: Core, job: Job)
    requires Steady(w, f, 0) && Ledger(w, c) && InStream(f, 0, c) && NothingHeld(c) && !job.eos
    requires !Step(w, c, ProcessCall(job)).error
    ensures NothingHeld(Step(w, c, ProcessCall(job)))
  {
    if Callable(w, c, job) && Decodes(c, job) {
      PromptState(w, f, c, job);
      var r := Process(w, c, job).core;
      if !Refused(r.answers) {
        WaitsForNothing(f, r);
      }
    }
  }

  lemma {:induction false} RunHoldsNothing(w: World, f: nat, c: Core, jobs: seq<Job>)
    requires Steady(w, f, 0) && Ledger(w, c) && InStream(f, 0, c) && NothingHeld(c)
    requires (forall job :: job in jobs ==> !job.eos) && !RunJobs(w, c, jobs).error
    ensures NothingHeld(RunJobs(w, c, jobs))
    decreases |jobs|
  {
    hide Step, Ledger, InStream, NothingHeld;
    if jobs != [] {
      var c' := Step(w, c, ProcessCall(jobs[0]));
      if c'.error {
        ErrorStays(w, c', jobs[1..]);
      }
      assert jobs[0] in jobs;
      StepKeeps(w, c, ProcessCall(jobs[0]));
      StepHoldsNothing(w, f, c, jobs[0]);
      StepInStream(w, f, 0, c, jobs[0]);
      RunHoldsNothing(w, f, c', jobs[1..]);
    }
  }

  /** So in every stream without a delay, as long as no error is signalled and no block refused, each call that
      decodes frames answers its work at once with what the library decoded in it. */
  lemma {:induction false} PromptStream(w: World, f: nat, c: Core, jobs: seq<Job>, job: Job)
    requires Steady(w, f, 0) && Ledger(w, c) && Opening(c) && c.delay == 0 && c.frame in {0, f}
    requires (forall job :: job in jobs ==> !job.eos) && !job.eos
    requires var m := RunJobs(w, c, jobs); Callable(w, m, job) && Decodes(m, job) && Walked(w, m, job).sizes != []
    ensures var m := RunJobs(w, c, jobs); var out := Process(w, m, job); var n := |m.answers| + |m.infos|;
            !out.core.error && !Refused(out.core.answers) ==>
              && out.processed && out.core.infos == [] && out.core.line == [] && |out.core.answers| == n + 1
              && out.core.answers[n] == Answer(job.index, CallYields(w, m, job), Fine)
  {
    hide RunJobs, Process, Walked, CallYields, Callable, Ledger, Refused, Steady;
    MiddleHoldsNothing(w, f, c, jobs);
    PromptCall(w, f, RunJobs(w, c, jobs), job);
  }

  lemma {:induction false} MiddleHoldsNothing(w: World, f: nat, c: Core, jobs: seq<Job>)
    requires Steady(w, f, 0) && Ledger(w, c) && Opening(c) && c.delay == 0 && c.frame in {0, f}
    requires (forall job :: job in jobs ==> !job.eos) && !RunJobs(w, c, jobs).error
    ensures var m := RunJobs(w, c, jobs); Ledger(w, m) && InStream(f, 0, m) && NothingHeld(m)
  {
    hide RunJobs, Ledger;
    assert InStream(f, 0, c) && MadeUp(0, c) && NothingHeld(c);
    RunMakesUp(w, f, 0, c, jobs);
    RunHoldsNothing(w, f, c, jobs);
  }
}
