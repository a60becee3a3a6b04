/** What one call of the software video decoder does, told from the codec's replies alone, in any state and
    after a flush or a stop. */
module SoftVdecCalls {
  import opened SoftVdec

  /** What comes of one attempt at a picture. */
  datatype Attempt = Shown | Nothing | Failure | Unmapped

  /** A picture in hand is shown; otherwise the codec, opened if need be, is asked. A picture of a new size,
      which the parameter store has to take, needs a second output block. */
  function Attempted(w: World, k: Codec): Attempt {
    var n := k.clock;
    if !w.block(n) then Failure
    else if !w.view(n) then Unmapped
    else if k.held then Shown
    else if !(k.decInit || w.init(n)) || !w.alloc(n) then Failure
    else match w.decode(n)
      case Failed => Nothing
      case Picture(width, height) =>
        if width == 0 || height == 0 || (width == k.width && height == k.height) then Shown
        else if !w.config(n) || !w.block(n + 1) then Failure
        else if !w.view(n + 1) then Unmapped
        else Shown
  }

  /** A work with data in mid-stream, for a decoder that is not in error and has not ended its stream. */
  predicate Ordinary(c: Core, job: Job) {
    !c.codec.error && !c.outputEos && job.hasData && job.mappable && !job.codecConfig && !job.eos
  }

  /** What such a call does: a picture goes to the oldest work of the line, which the current work joins; without
      one the work is put on the list as long as no picture has ever come and there is room for it, and dropped
      otherwise; after a failure it goes back and the decoder is in error. */
  predicate Answers(c: Core, job: Job, attempt: Attempt, out: Outcome) {
    var l, line := c.list.pending, c.list.pending + [job.index];
    match attempt
    case Shown =>
      var oldest := if l == [] then job.index % 0x1_0000_0000 else l[0];
      && out.core.sent == c.sent + [if oldest == job.index then Filled(oldest) else Finished(oldest)]
      && out.core.list == WorkList(if l == [] then [] else line[1..], true)
      && (out.processed <==> oldest == job.index)
      && !out.core.codec.error && !out.core.codec.held && !out.core.outputEos
    case Nothing =>
      var waits := !c.list.first && |l| < 7;
      && out.core.sent == c.sent && out.core.list == WorkList(if waits then line else l, c.list.first)
      && (out.processed <==> !waits)
      && !out.core.codec.error && !out.core.codec.held && !out.core.outputEos
    case Failure =>
      out.core.sent == c.sent && out.core.list == c.list && out.processed && out.core.codec.error
    case Unmapped =>
      out.core.sent == c.sent && out.core.list == c.list && !out.processed && !out.core.codec.error
  }

  /** The start of a round leads to the outcome of the attempt, after a change of size in two rounds. */
  lemma {:induction false} RoundAttempts(w: World, k: Codec)
    requires !k.error
    ensures match StartRound(w, k)
            case Return(k', processed) =>
              if processed then Attempted(w, k) == Failure && k'.error else Attempted(w, k) == Unmapped && !k'.error
            case NoPicture(k') => Attempted(w, k) == Nothing && !k'.error && !k'.held
            case Again(k') => Attempted(w, k) == Attempted(w, k') && !k'.error
            case Use(k') => Attempted(w, k) == Shown && !k'.error
  {
  }

  lemma {:induction false} LoopAttempts(w: World, t: Turn, job: Job)
    requires !t.core.codec.error && !t.core.outputEos && !t.processed && !t.hasPicture && !t.returned && !job.eos
    ensures Answers(t.core, job, Attempted(w, t.core.codec), AfterLoop(Loop(w, t, job, false), job))
    decreases if t.core.codec.held then 0 else 1
  {
    RoundAttempts(w, t.core.codec);
    hide Attempted, StartRound;
    if StartRound(w, t.core.codec).Again? {
      var t' := t.(core := t.core.(codec := StartRound(w, t.core.codec).codec), processed := false);
      assert Loop(w, t, job, false) == Loop(w, t', job, false);
      hide Loop;
      LoopAttempts(w, t', job);
    }
  }

  /** Every ordinary call, for every codec. */
  lemma {:induction false} OrdinaryCall(w: World, c: Core, job: Job)
    requires Ordinary(c, job)
    ensures Answers(c, job, Attempted(w, c.codec), Process(w, c, job))
  {
    hide Loop, AfterLoop, Attempted, Answers;
    LoopAttempts(w, Turn(c, false, false, false), job);
  }

  /** The work that ends a stream while nobody waits: it is done and the stream is ended, after its picture, if
      there is one, has gone out with a clone of it; unless a failure or an unmapped block comes before. */
  predicate Ends(c: Core, job: Job, attempt: Attempt, out: Outcome) {
    var own := job.index % 0x1_0000_0000;
    match attempt
    case Shown =>
      && out.core.sent == c.sent + [if own == job.index then Cloned(own) else Finished(own)]
      && out.core.list == WorkList([], true) && out.processed && out.core.outputEos
    case Nothing => out.core.sent == c.sent && out.core.list == c.list && out.processed && out.core.outputEos
    case Failure => out.core.sent == c.sent && out.core.list == c.list && out.processed && out.core.codec.error
    case Unmapped => out.core.sent == c.sent && out.core.list == c.list && !out.processed && !out.core.outputEos
  }

  lemma {:induction false} LoopEnds(w: World, t: Turn, job: Job)
    requires !t.core.codec.error && !t.core.outputEos && !t.processed && !t.hasPicture && !t.returned
    requires job.eos && t.core.list.pending == []
    ensures Ends(t.core, job, Attempted(w, t.core.codec), AfterLoop(Loop(w, t, job, false), job))
    decreases if t.core.codec.held then 0 else 1
  {
    RoundAttempts(w, t.core.codec);
    hide Attempted, StartRound;
    if StartRound(w, t.core.codec).Again? {
      var t' := t.(core := t.core.(codec := StartRound(w, t.core.codec).codec), processed := false);
      assert Loop(w, t, job, false) == Loop(w, t', job, false);
      hide Loop;
      LoopEnds(w, t', job);
    }
  }

  lemma {:induction false} LastCall(w: World, c: Core, job: Job)
    requires !c.codec.error && !c.outputEos && c.list.pending == []
    requires job.eos && job.mappable && !job.codecConfig
    ensures Ends(c, job, if job.hasData then Attempted(w, c.codec) else Nothing, Process(w, c, job))
  {
    if job.hasData {
      LoopEnds(w, Turn(c, false, false, false), job);
    }
  }

  // ---------- after a flush or a stop ----------

  /** The codec after it has been reset: the picture in hand and the size stay. */
  function Reset(k: Codec): Codec { Codec(k.held, k.width, k.height, false, false, k.clock) }

  /** From any state - in error, or after the end of a stream - the first work after a flush is decoded: it gets
      its picture in place if there is one, and is otherwise the only work on the list. */
  lemma {:induction false} FirstAfterFlush(w: World, c: Core, job: Job)
    requires job.hasData && job.mappable && !job.codecConfig && !job.eos && job.index < 0x1_0000_0000
    ensures var out := Process(w, Flush(c), job);
            match Attempted(w, Reset(c.codec))
            case Shown =>
              out.processed && out.core.sent == c.sent + [Filled(job.index)] && out.core.list == WorkList([], true)
            case Nothing =>
              !out.processed && out.core.sent == c.sent && out.core.list == WorkList([job.index], false)
            case Failure =>
              out.processed && out.core.sent == c.sent && out.core.codec.error
            case Unmapped =>
              !out.processed && out.core.sent == c.sent && out.core.list == WorkList([], false)
  {
    hide Process, Attempted;
    OrdinaryCall(w, Flush(c), job);
    assert [] + [job.index] == [job.index];
  }

  /** After a stop too it is decoded, but the list is kept, so the picture goes to the oldest work on it. */
  lemma {:induction false} FirstAfterStop(w: World, c: Core, job: Job)
    requires job.hasData && job.mappable && !job.codecConfig && !job.eos
    ensures Answers(c, job, Attempted(w, Reset(c.codec)), Process(w, Stop(c), job))
  {
    hide Process, Attempted;
    OrdinaryCall(w, Stop(c), job);
  }

  /** A picture in hand when the decoder fails survives the flush, and goes to the first work after it, though
      the codec has no picture for that work. */
  lemma {:induction false} StalePictureWitness()
    ensures var w := World(t => t != 1, _ => true, _ => true, _ => true,
                           t => if t == 0 then Picture(640, 480) else Failed, _ => true);
            var c := Process(w, INITIAL, Job(1, true, true, false, false)).core;
            var out := Process(w, Flush(c), Job(2, true, true, false, false));
            c.codec.error && c.codec.held && c.sent == [] && out.processed && out.core.sent == [Filled(2)]
  {
    var w := World(t => t != 1, _ => true, _ => true, _ => true,
                   t => if t == 0 then Picture(640, 480) else Failed, _ => true);
    var k := INITIAL.codec.(decInit := true, width := 640, height := 480, held := true, clock := 1);
    assert StartRound(w, INITIAL.codec) == Again(k);
    assert StartRound(w, k) == Fail(k.(clock := 2));
  }
}
