/** When the AAC decoder signals an error, and which output delay it announces. */
module AacSignals {
  import opened Options
  import opened AdtsFraming
  import opened AacDelayLine
  import opened AacModel
  import opened AacLoops
  import opened AacAccounting
  import opened AacStream
  import opened AacDecoded
  import opened AacOutput

  /** Exactly when a call signals an error: the library refuses a configuration, decoding fails, the parameter
      store refuses a larger output delay, or the samples made up for do not fit the ring at the end. */
  lemma {:induction false} ErrorIff(w: World, c: Core, job: Job)
    requires Ledger(w, c) && Callable(w, c, job) && !c.error
    ensures var k := Walked(w, c, job);
            Process(w, c, job).core.error <==>
              if !Decodes(c, job) then !w.config(c.clock)
              else || k.failed
                   || (Grows(k.core) && !w.port(k.core.clock))
                   || (job.eos && |k.core.line| + k.core.compensated > w.ringSize)
  {
    if Decodes(c, job) {
      var k := Walked(w, c, job);
      WalkKeeps(w, c, job);
      InputTakes(w, c, job);
      if k.failed {
        FailedWalkSignals(w, c, job);
      } else {
        hide Walked;
        EndErrorIff(w, k.core, job, k.sizes);
      }
    }
  }

  lemma {:induction false} EndErrorIff(w: World, c: Core, job: Job, sizes: seq<int>)
    requires Ledger(w, c) && !c.error
    ensures AfterDecoding(w, c, job, sizes).core.error <==>
              (Grows(c) && !w.port(c.clock)) || (job.eos && |c.line| + c.compensated > w.ringSize)
  {
    PortDelayCovers(c);
    hide PortDelay, Grows, DrainLine, FinishOlder;
    var bigger := PortDelay(c) > c.portDelay;
    var c' := if bigger then c.(portDelay := PortDelay(c), clock := c.clock + 1) else c;
    var noted := Note(c', job.index, sizes);
    if !(bigger && !w.port(c.clock)) {
      NoteKeeps(w, c', job.index, sizes);
      DrainDecoderExact(w, noted);
      DrainErrors(w, noted);
      hide DrainDecoder, Ledger, Discard;
    }
  }

  /** The announced output delay, in frames, does not cover the delay. */
  predicate Grows(c: Core) { c.frame > 0 && c.portDelay * c.frame < c.delay }

  lemma {:induction false} PortDelayCovers(c: Core)
    ensures Grows(c) <==> PortDelay(c) > c.portDelay
    ensures c.frame > 0 ==> c.delay <= PortDelay(c) * c.frame < c.delay + c.frame
  {
    if c.frame > 0 {
      var q, r := (c.delay + c.frame - 1) / c.frame, (c.delay + c.frame - 1) % c.frame;
      assert c.delay + c.frame - 1 == q * c.frame + r;
      InOrder(q, c.portDelay, c.frame);
      InOrder(c.portDelay + 1, q, c.frame);
      assert (c.portDelay + 1) * c.frame == c.portDelay * c.frame + c.frame;
    }
  }

  lemma {:induction false} InOrder(a: nat, b: nat, f: nat)
    ensures a <= b ==> a * f <= b * f
  {
  }

  /** Unless a call signals an error, the output delay that is announced after it covers the delay, and it has
      grown no more than that takes. */
  lemma {:induction false} AnnouncesDelay(w: World, c: Core, job: Job)
    requires Ledger(w, c) && Callable(w, c, job) && Decodes(c, job) && !Process(w, c, job).core.error
    ensures var k, n := Walked(w, c, job).core, Process(w, c, job).core.portDelay;
            && c.portDelay <= n
            && (k.frame > 0 ==> k.delay <= n * k.frame && (n == c.portDelay || n * k.frame < k.delay + k.frame))
  {
    WalkKeeps(w, c, job);
    InputTakes(w, c, job);
    var k := Walked(w, c, job);
    if k.failed {
      FailedWalkSignals(w, c, job);
    }
    WalkKeepsPort(w, c, job);
    hide Walked;
    PortDelayCovers(k.core);
    hide PortDelay, DrainDecoder, DrainRing, FinishOlder, Discard, InPlace;
  }

  lemma {:induction false} WalkKeepsPort(w: World, c: Core, job: Job)
    requires |c.line| <= w.ringSize && Ends(w, job.adts, job.input, Start(c, job.input))
    ensures Walked(w, c, job).core.portDelay == c.portDelay
  {
    var n: nat :| Walked(w, c, job) == Rounds(w, job.adts, job.input, Start(c, job.input), n);
    RoundsKeepPort(w, job.adts, job.input, Start(c, job.input), n);
  }

  lemma {:induction false} RoundsKeepPort(w: World, adts: bool, input: seq<Byte>, k: Walk, n: nat)
    requires WalkOk(w, input, k)
    ensures Rounds(w, adts, input, k, n).core.portDelay == k.core.portDelay
    decreases n
  {
    if n > 0 {
      if !Ended(k) && (adts ==> ReadHeader(input[k.offset..]).Good?) {
        var payload := if adts then ReadHeader(input[k.offset..]).payload else k.size;
        BurstFits(w, k.core, k.sizes, payload - Min(w.fill(k.core.clock), payload));
      }
      RoundsKeepPort(w, adts, input, Round(w, adts, input, k), n - 1);
    }
  }
}
