/** Where every sample and every work of the AAC decoder goes, over whole runs. */
module AacAccounting {
  import opened Options
  import opened RingBuffer
  import opened AdtsFraming
  import opened AacDelayLine
  import opened AacModel
  import opened AacLoops

  datatype Job = Job(index: nat, input: seq<Byte>, adts: bool, eos: bool, codecConfig: bool)

  datatype Outcome = Outcome(core: Core, processed: bool)

  /** No sample is lost, and works are answered in the order in which they were noted. As long as all
      discards come first, the output is the ring's input without its first `lead` samples. */
  predicate Ledger(w: World, c: Core) {
    && |c.line| <= w.ringSize
    && |Emitted(c)| + |c.line| + c.compensated == c.log.decoded
    && (c.log.aligned ==> c.log.lead <= |c.log.fed| && c.log.fed[c.log.lead..] == Emitted(c) + c.line)
    && Answered(c.answers) + Indices(c.infos) == c.log.noted
    && (c.line != [] || c.compensated > 0 ==> c.frame > 0)
  }

  /** A decoder that has been given nothing yet. */
  const NEW: Core := Core([], [], 0, 0, 0, 2, false, 0, [], Log([], 0, 0, true, []))

  // ---------- one call ----------

  ghost function Walked(w: World, c: Core, job: Job): (k: Walk)
    requires |c.line| <= w.ringSize && Ends(w, job.adts, job.input, Start(c, job.input))
    ensures Ended(k) && WalkOk(w, job.input, k)
    ensures exists n: nat :: k == Rounds(w, job.adts, job.input, Start(c, job.input), n)
  {
    var n: nat :| Ended(Rounds(w, job.adts, job.input, Start(c, job.input), n));
    Rounds(w, job.adts, job.input, Start(c, job.input), n)
  }

  function Discard(c: Core, n: nat): Core
    requires n <= |c.line|
  {
    c.(line := c.line[n..], compensated := c.compensated + n,
       log := if Emitted(c) == [] then c.log.(lead := c.log.lead + n)
              else c.log.(aligned := c.log.aligned && n == 0))
  }

  function Note(c: Core, index: nat, sizes: seq<int>): Core {
    c.(infos := c.infos + [Info(index, sizes)], log := c.log.(noted := c.log.noted + [index]))
  }

  /** What `process` does with the decoded samples. */
  function Deliver(w: World, c: Core, job: Job): Outcome {
    if !job.eos && c.compensated < c.delay then
      Outcome(Discard(c, Min(|c.line|, c.delay - c.compensated)), false)
    else if job.eos then Outcome(Drain(w, c, true, Some(job.index)), true)
    else Outcome(DrainRing(w, c, false), InPlace(w, c, false, Some(job.index)))
  }

  /** The output port delay that `c` asks for. */
  function PortDelay(c: Core): nat {
    if c.frame > 0 then (c.delay + c.frame - 1) / c.frame else 0
  }

  function AfterDecoding(w: World, c: Core, job: Job, sizes: seq<int>): Outcome {
    if PortDelay(c) > c.portDelay then
      var c' := c.(portDelay := PortDelay(c), clock := c.clock + 1);
      if w.port(c.clock) then Deliver(w, Note(c', job.index, sizes), job)
      else Outcome(c'.(error := true), true)
    else Deliver(w, Note(c, job.index, sizes), job)
  }

  ghost function Process(w: World, c: Core, job: Job): Outcome
    requires |c.line| <= w.ringSize && Ends(w, job.adts, job.input, Start(c, job.input))
  {
    if c.error then Outcome(c, true)
    else if job.codecConfig && job.input != [] then
      Outcome(c.(clock := c.clock + 1, error := !w.config(c.clock)), true)
    else
      var k := Walked(w, c, job);
      if k.failed then Outcome(k.core, true) else AfterDecoding(w, k.core, job, k.sizes)
  }

  // ---------- every call keeps the ledger ----------

  lemma {:induction false} RefillKeeps(w: World, c: Core, samples: seq<Sample>)
    requires Ledger(w, c) && |samples| <= c.compensated && |c.line| + |samples| <= w.ringSize
    ensures Ledger(w, Refill(c, samples))
  {
    assert Emitted(c) + (c.line + samples) == (Emitted(c) + c.line) + samples;
  }

  /** A flushing drain succeeds exactly when the ring has room for all samples that were discarded at
      the start; it then puts back exactly as many. */
  lemma {:induction false} DrainDecoderExact(w: World, c: Core)
    requires Ledger(w, c)
    ensures var r := DrainDecoder(w, c);
            && Ledger(w, r)
            && r.log.noted == c.log.noted && r.log.lead == c.log.lead && r.log.aligned == c.log.aligned
            && (if |c.line| + c.compensated <= w.ringSize
                then r.error == c.error && r.compensated == 0 && |r.line| == |c.line| + c.compensated
                     && c.line <= r.line
                else r.error && r.compensated > 0)
    decreases c.compensated
  {
    hide Samples, Answered, Indices;
    if c.compensated > 0 {
      var pcm: seq<Sample> := w.flush(c.clock);
      var n := Min(|pcm|, c.compensated);
      var c' := c.(clock := c.clock + 1, frame := |pcm|);
      if |c.line| + n <= w.ringSize {
        RefillKeeps(w, c', pcm[..n]);
        DrainDecoderExact(w, Refill(c', pcm[..n]));
      }
    }
  }

  lemma {:induction false} DrainRingKeeps(w: World, c: Core, eos: bool)
    requires Ledger(w, c)
    ensures Ledger(w, DrainRing(w, c, eos))
    ensures DrainRing(w, c, eos).log == c.log
  {
    hide DrainLine, Samples, Answered, Indices;
    var d := LineDrain(w, c, eos);
    DrainKeepsOrder(c.infos, c.line, c.frame, eos, w.fetch, c.clock);
    SamplesAppend(c.answers, d.answers);
    AnsweredAppend(c.answers, d.answers);
    assert Emitted(c) + (Samples(d.answers) + d.line) == (Emitted(c) + Samples(d.answers)) + d.line;
    assert Answered(c.answers) + (Answered(d.answers) + Indices(d.rest))
        == (Answered(c.answers) + Answered(d.answers)) + Indices(d.rest);
  }

  /** One work answered without samples. */
  lemma {:induction false} EmptyAnswer(answers: seq<Answer>, index: nat)
    ensures Samples(answers + [Answer(index, [], Fine)]) == Samples(answers)
    ensures Answered(answers + [Answer(index, [], Fine)]) == Answered(answers) + [index]
  {
    SamplesAppend(answers, [Answer(index, [], Fine)]);
    AnsweredAppend(answers, [Answer(index, [], Fine)]);
  }

  lemma {:induction false} FinishOlderKeeps(w: World, c: Core)
    requires Ledger(w, c)
    ensures var r := FinishOlder(c);
            && Ledger(w, r) && Emitted(r) == Emitted(c)
            && r.infos == if |c.infos| <= 1 then c.infos else c.infos[|c.infos| - 1..]
    decreases |c.infos|
  {
    if |c.infos| > 1 {
      var c' := c.(infos := c.infos[1..], answers := c.answers + [Answer(c.infos[0].index, [], Fine)]);
      EmptyAnswer(c.answers, c.infos[0].index);
      assert Answered(c.answers) + ([c.infos[0].index] + Indices(c'.infos))
          == (Answered(c.answers) + [c.infos[0].index]) + Indices(c'.infos);
      FinishOlderKeeps(w, c');
      assert c.infos[1..][|c.infos| - 2..] == c.infos[|c.infos| - 1..];
    }
  }

  /** A stream is closed in order: every undone work is answered once, the pending one last. */
  lemma {:induction false} CloseStreamKeeps(w: World, c: Core, pending: Option<nat>)
    requires Ledger(w, c)
    requires if c.infos == [] then pending == None else pending == Some(c.infos[|c.infos| - 1].index)
    ensures var r := CloseStream(c, pending);
            && Ledger(w, r) && r.infos == [] && Emitted(r) == Emitted(c) && r.log == c.log
            && Answered(r.answers) == c.log.noted
  {
    var c' := FinishOlder(c);
    FinishOlderKeeps(w, c);
    if pending.Some? {
      EmptyAnswer(c'.answers, pending.value);
      assert c'.infos == [c.infos[|c.infos| - 1]];
      assert Indices(c'.infos) == [pending.value] + Indices([]);
    } else {
      assert c'.answers + [] == c'.answers;
    }
  }

  lemma {:induction false} FeedKeeps(w: World, c: Core, samples: seq<Sample>)
    requires Ledger(w, c) && c.frame > 0 && |c.line| + |samples| <= w.ringSize
    ensures Ledger(w, Feed(c, samples))
  {
    assert Emitted(c) + (c.line + samples) == (Emitted(c) + c.line) + samples;
  }

  lemma {:induction false} BurstKeeps(w: World, c: Core, sizes: seq<int>, bytesLeft: nat)
    requires Ledger(w, c)
    ensures Ledger(w, DecodeFrames(w, c, sizes, bytesLeft).core)
    decreases w.ringSize - |c.line|
  {
    hide Samples, Answered, Indices;
    if w.ringSize - |c.line| >= c.frame && w.decode(c.clock).Frame? {
      var f := w.decode(c.clock);
      var pcm: seq<Sample> := f.pcm;
      var c' := c.(clock := c.clock + 1, frame := |pcm|, delay := f.delay);
      if bytesLeft == 0 && |c.line| + |pcm| <= w.ringSize {
        var samples := if f.ok then pcm else Silence(|pcm|);
        FeedKeeps(w, c', samples);
        if f.accepted && f.ok {
          BurstKeeps(w, Feed(c', samples), sizes + [f.consumed], 0);
        }
      }
    }
  }

  lemma {:induction false} RoundKeeps(w: World, adts: bool, input: seq<Byte>, k: Walk)
    requires WalkOk(w, input, k) && Ledger(w, k.core)
    ensures var r := Round(w, adts, input, k).core;
            Ledger(w, r) && r.infos == k.core.infos && r.log.noted == k.core.log.noted && r.answers == k.core.answers
  {
    if !Ended(k) && (adts ==> ReadHeader(input[k.offset..]).Good?) {
      var payload := if adts then ReadHeader(input[k.offset..]).payload else k.size;
      var used := Min(w.fill(k.core.clock), payload);
      BurstKeeps(w, k.core, k.sizes, payload - used);
      BurstFits(w, k.core, k.sizes, payload - used);
    }
  }

  lemma {:induction false} RoundsKeep(w: World, adts: bool, input: seq<Byte>, k: Walk, n: nat)
    requires WalkOk(w, input, k) && Ledger(w, k.core)
    ensures var r := Rounds(w, adts, input, k, n).core;
            Ledger(w, r) && r.infos == k.core.infos && r.log.noted == k.core.log.noted && r.answers == k.core.answers
    decreases n
  {
    if n > 0 {
      RoundKeeps(w, adts, input, k);
      hide Ledger, Round;
      RoundsKeep(w, adts, input, Round(w, adts, input, k), n - 1);
    }
  }

  lemma {:induction false} WalkKeeps(w: World, c: Core, job: Job)
    requires Ledger(w, c) && Ends(w, job.adts, job.input, Start(c, job.input))
    ensures var r := Walked(w, c, job).core;
            Ledger(w, r) && r.infos == c.infos && r.log.noted == c.log.noted && r.answers == c.answers
  {
    var n: nat :| Walked(w, c, job) == Rounds(w, job.adts, job.input, Start(c, job.input), n);
    RoundsKeep(w, job.adts, job.input, Start(c, job.input), n);
  }

  lemma {:induction false} NoteKeeps(w: World, c: Core, index: nat, sizes: seq<int>)
    requires Ledger(w, c)
    ensures Ledger(w, Note(c, index, sizes))
    ensures Indices(Note(c, index, sizes).infos) == Indices(c.infos) + [index]
  {
    IndicesAppend(c.infos, [Info(index, sizes)]);
    assert Indices([Info(index, sizes)]) == [index] + Indices([]);
    assert Answered(c.answers) + (Indices(c.infos) + [index]) == (Answered(c.answers) + Indices(c.infos)) + [index];
  }

  lemma {:induction false} DiscardKeeps(w: World, c: Core, n: nat)
    requires Ledger(w, c) && n <= |c.line|
    ensures Ledger(w, Discard(c, n))
  {
    if Emitted(c) == [] && c.log.aligned {
      assert c.log.fed[c.log.lead..][n..] == c.log.fed[c.log.lead + n..];
      assert [] + c.line == c.line && [] + c.line[n..] == c.line[n..];
    } else if n == 0 {
      assert c.line[0..] == c.line;
    }
  }

  // ---------- the current work, and whole calls ----------

  /** The current work is the youngest: it is answered in place exactly when nothing is left over. */
  lemma {:induction false} CurrentIsLast(w: World, c: Core, eos: bool, older: seq<nat>, index: nat)
    requires Indices(c.infos) == older + [index] && index !in older
    ensures var d := LineDrain(w, c, eos);
            && (InPlace(w, c, eos, Some(index)) <==> d.rest == [])
            && (d.rest != [] ==> d.rest[|d.rest| - 1].index == index)
  {
    var d := LineDrain(w, c, eos);
    DrainKeepsOrder(c.infos, c.line, c.frame, eos, w.fetch, c.clock);
    IndicesLength(d.rest);
    var all := Answered(d.answers) + Indices(d.rest);
    assert all[|all| - 1] == index;
    if d.rest == [] {
      assert all == Answered(d.answers);
    } else {
      IndicesLast(d.rest);
      assert Answered(d.answers) == all[..|Answered(d.answers)|];
      assert Answered(d.answers) <= older;
    }
  }

  lemma {:induction false} IndicesLength(infos: seq<Info>)
    ensures |Indices(infos)| == |infos|
  {
    if infos != [] {
      IndicesLength(infos[1..]);
    }
  }

  lemma {:induction false} IndicesLast(infos: seq<Info>)
    requires infos != []
    ensures Indices(infos) != [] && Indices(infos)[|Indices(infos)| - 1] == infos[|infos| - 1].index
  {
    if |infos| > 1 {
      IndicesLast(infos[1..]);
    }
  }

  /** End of stream: whatever the decoder and the allocator do, every undone work is answered exactly
      once, in the order of input, the end-of-stream work last, and no work stays on the list. */
  lemma {:induction false} EosAnswersAll(w: World, c: Core, older: seq<nat>, index: nat)
    requires Ledger(w, c)
    requires Indices(c.infos) == older + [index] && index !in older
    ensures var r := Drain(w, c, true, Some(index));
            && Ledger(w, r) && r.infos == []
            && Answered(r.answers) == c.log.noted
            && r.line == LineDrain(w, DrainDecoder(w, c), true).line
            && r.compensated == DrainDecoder(w, c).compensated && r.error == DrainDecoder(w, c).error
  {
    hide DrainDecoder, DrainLine;
    var c1 := DrainDecoder(w, c);
    var c2 := DrainRing(w, c1, true);
    DrainDecoderExact(w, c);
    DrainRingKeeps(w, c1, true);
    CurrentIsLast(w, c1, true, older, index);
    CloseStreamKeeps(w, c2, if InPlace(w, c1, true, Some(index)) then None else Some(index));
  }

  /** Closing a stream without a work at hand drops the youngest undone work, if there is one. */
  lemma {:induction false} CloseWithoutWork(w: World, c: Core)
    requires Ledger(w, c)
    ensures var r := CloseStream(c, None);
            && r.infos == []
            && (if c.infos == [] then Answered(r.answers) == c.log.noted
                else Answered(r.answers) + [c.infos[|c.infos| - 1].index] == c.log.noted)
  {
    hide DrainLine;
    FinishOlderKeeps(w, c);
    var c' := FinishOlder(c);
    assert c'.answers + [] == c'.answers;
    if c.infos != [] {
      assert c'.infos == [c.infos[|c.infos| - 1]];
      assert Indices(c'.infos) == [c'.infos[0].index] + Indices([]);
    } else {
      assert Indices(c'.infos) == [];
    }
  }

  /** A drain to the end of the stream without a work at hand answers all undone works but the
      youngest, which it drops when the delayed samples did not reach it. */
  lemma {:induction false} EosWithoutWork(w: World, c: Core)
    requires Ledger(w, c)
    ensures var r := Drain(w, c, true, None);
            var left := LineDrain(w, DrainDecoder(w, c), true).rest;
            && r.infos == []
            && (if left == [] then Answered(r.answers) == c.log.noted
                else Answered(r.answers) + [left[|left| - 1].index] == c.log.noted)
  {
    var c1 := DrainDecoder(w, c);
    var c2 := DrainRing(w, c1, true);
    DrainDecoderExact(w, c);
    DrainRingKeeps(w, c1, true);
    hide DrainDecoder, DrainLine, FinishOlder, CloseStream, Ledger, Answered;
    CloseWithoutWork(w, c2);
  }

  /** A work is unanswered after a call exactly when it is on the list of undone works. */
  lemma {:induction false} DeliverKeeps(w: World, c: Core, job: Job, older: seq<nat>)
    requires Ledger(w, c)
    requires Indices(c.infos) == older + [job.index] && job.index !in older
    ensures var out := Deliver(w, c, job);
            && Ledger(w, out.core) && out.core.log.noted == c.log.noted
            && (out.processed <==> job.index !in Indices(out.core.infos))
            && (exists k :: 0 <= k <= |older| + 1 && Indices(out.core.infos) == (older + [job.index])[k..])
  {
    var all := older + [job.index];
    IndicesLength(c.infos);
    if !job.eos && c.compensated < c.delay {
      DiscardKeeps(w, c, Min(|c.line|, c.delay - c.compensated));
      assert all == all[0..];
      assert all[|older|] == job.index;
    } else if job.eos {
      EosAnswersAll(w, c, older, job.index);
      assert [] == all[|older| + 1..];
    } else {
      DrainRingKeeps(w, c, false);
      CurrentIsLast(w, c, false, older, job.index);
      DrainKeepsOrder(c.infos, c.line, c.frame, false, w.fetch, c.clock);
      var d := LineDrain(w, c, false);
      assert Indices(d.rest) == all[|Answered(d.answers)|..];
      if d.rest != [] {
        IndicesLast(d.rest);
      }
    }
  }

  predicate Fresh(c: Core, job: Job) { job.index !in Indices(c.infos) }

  ghost predicate Callable(w: World, c: Core, job: Job) {
    |c.line| <= w.ringSize && Fresh(c, job) && Ends(w, job.adts, job.input, Start(c, job.input))
  }

  /** One call of `process` keeps the ledger. The works still undone are the youngest of those noted;
      the current one is left unprocessed exactly when it is one of them. */
  lemma {:induction false} ProcessKeeps(w: World, c: Core, job: Job)
    requires Ledger(w, c) && Callable(w, c, job)
    ensures var out := Process(w, c, job);
            && Ledger(w, out.core)
            && (out.processed <==> job.index !in Indices(out.core.infos))
            && (out.core.log.noted == c.log.noted || out.core.log.noted == c.log.noted + [job.index])
            && (exists k :: 0 <= k <= |Indices(c.infos) + [job.index]|
                            && (Indices(out.core.infos) == (Indices(c.infos) + [job.index])[k..]
                                || Indices(out.core.infos) == Indices(c.infos)))
  {
    var older := Indices(c.infos);
    assert (older + [job.index])[0..] == older + [job.index];
    if !c.error && !(job.codecConfig && job.input != []) {
      var k := Walked(w, c, job);
      WalkKeeps(w, c, job);
      if !k.failed {
        AfterDecodingKeeps(w, k.core, job, k.sizes, older);
      }
    }
  }

  lemma {:induction false} AfterDecodingKeeps(w: World, c: Core, job: Job, sizes: seq<int>, older: seq<nat>)
    requires Ledger(w, c) && Indices(c.infos) == older && job.index !in older
    ensures var out := AfterDecoding(w, c, job, sizes);
            && Ledger(w, out.core)
            && (out.processed <==> job.index !in Indices(out.core.infos))
            && (out.core.log.noted == c.log.noted || out.core.log.noted == c.log.noted + [job.index])
            && (exists k :: 0 <= k <= |older + [job.index]|
                            && (Indices(out.core.infos) == (older + [job.index])[k..]
                                || Indices(out.core.infos) == older))
  {
    hide PortDelay, Deliver;
    assert (older + [job.index])[0..] == older + [job.index];
    var bigger := PortDelay(c) > c.portDelay;
    var c' := if bigger then c.(portDelay := PortDelay(c), clock := c.clock + 1) else c;
    assert Ledger(w, c') && Ledger(w, c'.(error := true));
    hide Ledger;
    if !(bigger && !w.port(c.clock)) {
      NoteKeeps(w, c', job.index, sizes);
      DeliverKeeps(w, Note(c', job.index, sizes), job, older);
    }
  }

  // ---------- runs ----------

  datatype Call = ProcessCall(job: Job) | DrainCall(eos: bool) | FlushCall | StopCall

  function Stop(w: World, c: Core): Core {
    Core([], [], 0, 0, 0, c.portDelay, false, DrainDecoder(w, c).clock, [], Log([], 0, 0, true, []))
  }

  /** Works dropped without an answer leave the log. */
  function Renoted(c: Core): Core {
    c.(log := c.log.(noted := Answered(c.answers) + Indices(c.infos)))
  }

  /** A `process` call that is not made, or does not return, leaves the state alone. */
  ghost function Step(w: World, c: Core, call: Call): Core {
    match call
    case ProcessCall(job) => if Callable(w, c, job) then Process(w, c, job).core else c
    case DrainCall(eos) => Renoted(Drain(w, c, eos, None))
    case FlushCall => Flush(w, c)
    case StopCall => Stop(w, c)
  }

  ghost function Run(w: World, c: Core, calls: seq<Call>): Core
    decreases |calls|
  {
    if calls == [] then c else Run(w, Step(w, c, calls[0]), calls[1..])
  }

  /** Closing a stream without a work at hand loses no sample. */
  lemma {:induction false} CloseKeeps(w: World, c: Core)
    requires Ledger(w, c)
    ensures Ledger(w, Renoted(CloseStream(c, None)))
  {
    FinishOlderKeeps(w, c);
    var c' := FinishOlder(c);
    assert c'.answers + [] == c'.answers;
  }

  lemma {:induction false} StepKeeps(w: World, c: Core, call: Call)
    requires Ledger(w, c)
    ensures Ledger(w, Step(w, c, call))
  {
    match call
    case ProcessCall(job) =>
      if Callable(w, c, job) {
        ProcessKeeps(w, c, job);
      }
    case DrainCall(eos) =>
      DrainDecoderExact(w, c);
      DrainRingKeeps(w, DrainDecoder(w, c), eos);
      if eos {
        CloseKeeps(w, DrainRing(w, DrainDecoder(w, c), true));
      }
    case FlushCall =>
      DrainDecoderExact(w, c);
    case StopCall =>
  }

  /** In every run, for every behaviour of the library: emitted + delayed + compensated samples are
      the decoded ones, and works are answered in the order in which they were noted. */
  lemma {:induction false} RunKeepsLedger(w: World, c: Core, calls: seq<Call>)
    requires Ledger(w, c)
    ensures Ledger(w, Run(w, c, calls))
    decreases |calls|
  {
    if calls != [] {
      StepKeeps(w, c, calls[0]);
      RunKeepsLedger(w, Step(w, c, calls[0]), calls[1..]);
    }
  }

  /** One more call at the end. */
  lemma {:induction false} RunAppend(w: World, c: Core, calls: seq<Call>, call: Call)
    ensures Run(w, c, calls + [call]) == Step(w, Run(w, c, calls), call)
    decreases |calls|
  {
    hide Step;
    if calls == [] {
      assert [] + [call] == [call] && [call][1..] == [];
    } else {
      assert (calls + [call])[1..] == calls[1..] + [call];
      RunAppend(w, Step(w, c, calls[0]), calls[1..], call);
    }
  }
}
