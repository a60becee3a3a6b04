/** What a flush promises: works queued before it come back exactly once, and the decoder is flushed
    before it sees a later work. */
module WorkFlush {
  import opened WorkQueues
  import opened WorkProtocol
  import opened WorkLiveness

  /** Generations: the decoder is flushed for the generation of the work it processes, and a flush that
      has happened since then is still waiting to be passed on. */
  predicate GenerationsOk(s: State) {
    match s.handler
    case Popped(job) =>
      && job.generation <= s.q.generation
      && (!job.flushFirst ==> s.flushedFor == job.generation)
      && (job.generation < s.q.generation ==> s.q.flush)
    case Decoding(job) => s.flushedFor == job.generation && Current(s)
    case Finishing(job, _) => s.flushedFor == job.generation && Current(s)
    case _ => Current(s)
  }

  predicate Current(s: State) {
    s.flushedFor <= s.q.generation && (s.flushedFor < s.q.generation ==> s.q.flush)
  }

  lemma {:induction false} StepGenerations(s: State, step: Step)
    requires GenerationsOk(s)
    ensures GenerationsOk(Next(s, step))
  {
    if Enabled(s, step) {
      if step.HandleMessage? {
        HandleGenerations(s, step.initOk);
      } else if step.Flush? || step.ClearQueue? || step.QueueWorks? || step.MarkDrain? {
        var s' := Apply(s, step);
        assert s'.handler == s.handler && s'.flushedFor == s.flushedFor;
      }
    }
  }

  lemma {:induction false} HandleGenerations(s: State, initOk: bool)
    requires GenerationsOk(s) && s.handler == Idle && s.messages != []
    ensures GenerationsOk(Handle(s, initOk))
  {
  }

  /** In every run, while the decoder processes a work it has been flushed for the latest flush that
      preceded the popping of that work. */
  lemma {:induction false} RunGenerations(s: State, steps: seq<Step>)
    requires GenerationsOk(s)
    ensures GenerationsOk(Run(s, steps))
    ensures var t := Run(s, steps); t.handler.Decoding? ==> t.flushedFor == t.handler.job.generation
    decreases |steps|
  {
    if steps != [] {
      StepGenerations(s, steps[0]);
      RunGenerations(Next(s, steps[0]), steps[1..]);
    }
  }

  // ---------- a work at the time of a flush ----------

  predicate HoldsJob(h: Handler, w: Work) {
    (h.Popped? || h.Decoding? || h.Finishing?) && h.job.entry == WorkEntry(w)
  }

  /** `w` is on its way out: it will not enter the queue or the pending map again. */
  predicate Leaving(s: State, w: Work) {
    && s.accepted[w] >= 1
    && Queued(s.q.entries, w) == 0 && Pending(s.q.pending, w) == 0
    && (HoldsJob(s.handler, w) ==> s.handler.job.generation < s.q.generation)
  }

  lemma {:induction false} ClientLeaving(s: State, step: Step, w: Work)
    requires Leaving(s, w) && Enabled(s, step) && !LooperStep(step)
    ensures Leaving(Apply(s, step), w)
  {
    if step.QueueWorks? {
      assert (s.accepted + multiset(step.works))[w] <= 1;
      QueuedAppend(s.q.entries, Entries(step.works), w);
      QueuedWorks(Entries(step.works), w);
      WorksOfEntries(step.works);
    } else if step.MarkDrain? {
      QueuedAppend(s.q.entries, [DrainEntry(step.mode)], w);
      assert Queued([DrainEntry(step.mode)], w) == 0 + Queued([], w);
    }
  }

  lemma {:induction false} LooperLeaving(s: State, step: Step, w: Work)
    requires Leaving(s, w) && Enabled(s, step) && LooperStep(step)
    ensures Leaving(Apply(s, step), w)
  {
    hide Handle, Complete, Push, Mark, Emptied, Cleared;
    match step
    case HandleMessage(initOk) => HandleLeaving(s, initOk, w);
    case ProcessDone(processed) => DoneLeaving(s, processed, w);
    case _ =>
  }

  lemma {:induction false} HandleLeaving(s: State, initOk: bool, w: Work)
    requires Leaving(s, w) && Enabled(s, HandleMessage(initOk))
    ensures Leaving(Handle(s, initOk), w)
  {
    if s.q.entries != [] {
      assert Queued(s.q.entries, w) == (if s.q.entries[0] == WorkEntry(w) then 1 else 0) + Queued(s.q.entries[1..], w);
    }
  }

  /** A work from before the flush comes back and is not parked. */
  lemma {:induction false} DoneLeaving(s: State, processed: bool, w: Work)
    requires Leaving(s, w) && Enabled(s, ProcessDone(processed))
    ensures Leaving(Apply(s, ProcessDone(processed)), w)
  {
    hide Handle;
  }

  lemma {:induction false} RunLeaving(s: State, steps: seq<Step>, w: Work)
    requires Leaving(s, w)
    ensures Leaving(Run(s, steps), w)
    decreases |steps|
  {
    if steps != [] {
      if Enabled(s, steps[0]) {
        if LooperStep(steps[0]) {
          LooperLeaving(s, steps[0], w);
        } else {
          ClientLeaving(s, steps[0], w);
        }
      }
      RunLeaving(Next(s, steps[0]), steps[1..], w);
    }
  }

  lemma {:induction false} FlushMakesLeave(s: State, w: Work)
    requires GenerationsOk(s) && s.accepted[w] >= 1
    ensures Leaving(Next(s, Flush), w)
  {
  }

  /** `processQueue` is not running: its lock is free. */
  predicate Unlocked(h: Handler) { h.Idle? || h.Reposting? }

  /** The flush barrier: whenever, after a flush, `processQueue` is found not to be running - which is
      what `flush_sm` of the video shell waits for before it returns - every work accepted before the
      flush has been handed back or dropped, exactly once, and none is queued, pending or in flight. */
  lemma {:induction false} FlushBarrier(s: State, steps: seq<Step>, w: Work)
    requires Conserved(s) && GenerationsOk(s) && s.accepted[w] >= 1
    requires Unlocked(Run(Next(s, Flush), steps).handler)
    ensures var t := Run(Next(s, Flush), steps);
            && Reported(t.reported, w) + t.flushed[w] + t.dropped[w] == 1
            && Queued(t.q.entries, w) == 0 && Pending(t.q.pending, w) == 0 && InHand(t.handler, w) == 0
  {
    var s', t := Next(s, Flush), Run(Next(s, Flush), steps);
    FlushMakesLeave(s, w);
    StepConserves(s, Flush);
    RunLeaving(s', steps, w);
    RunConserves(s', steps);
    AcceptedGrows(s', steps, w);
    assert Held(t, w) == t.accepted[w];
  }

  lemma {:induction false} AcceptedGrows(s: State, steps: seq<Step>, w: Work)
    ensures Run(s, steps).accepted[w] >= s.accepted[w]
    decreases |steps|
  {
    if steps != [] {
      if Enabled(s, steps[0]) {
        StepAccepts(s, steps[0]);
      }
      AcceptedGrows(Next(s, steps[0]), steps[1..], w);
    }
  }

  // ---------- where drops come from ----------

  /** Works are dropped only by the clearing of `stop` and `reset` and by a missing block pool. */
  lemma {:induction false} DropsComeFrom(s: State, steps: seq<Step>)
    requires ClearQueue !in steps && PoolFails !in steps
    ensures Run(s, steps).dropped == s.dropped
    decreases |steps|
  {
    if steps != [] {
      assert steps[0] in steps;
      StepDrops(s, steps[0]);
      DropsComeFrom(Next(s, steps[0]), steps[1..]);
    }
  }

  lemma {:induction false} StepDrops(s: State, step: Step)
    requires !step.ClearQueue? && !step.PoolFails?
    ensures Next(s, step).dropped == s.dropped
  {
  }

  // ---------- a work in flight across a flush ----------

  /** `w` is still being processed for an old generation, or is being or has been returned as stale,
      or was dropped for want of a block pool. */
  predicate Stale(s: State, w: Work) {
    || (HoldsJob(s.handler, w) && s.handler.job.generation < s.q.generation)
    || (s.handler.Returning? && s.handler.report == Report(w, NotFound))
    || Report(w, NotFound) in s.reported
    || s.dropped[w] >= 1
  }

  lemma {:induction false} StepStale(s: State, step: Step, w: Work)
    requires Stale(s, w)
    ensures Stale(Next(s, step), w)
  {
    if Enabled(s, step) {
      if step.HandleMessage? {
        assert s.handler == Idle;
      } else if step.PoolFails? {
        assert HoldsJob(s.handler, w) ==> JobWorks(s.handler.job)[w] == 1;
      }
    }
  }

  /** A work in flight when a flush happens is never left pending; once `processQueue` is done with it,
      it has come back exactly once, as not found, or was dropped for want of a block pool. */
  lemma {:induction false} InFlightComesBackStale(s: State, steps: seq<Step>, w: Work)
    requires Conserved(s) && GenerationsOk(s) && HoldsJob(s.handler, w)
    ensures var t := Run(Next(s, Flush), steps);
            && Stale(t, w) && Pending(t.q.pending, w) == 0
            && (Unlocked(t.handler) && t.dropped[w] == 0 ==>
                  Report(w, NotFound) in t.reported && Reported(t.reported, w) == 1)
  {
    var s' := Next(s, Flush);
    assert Held(s, w) == s.accepted[w] && InHand(s.handler, w) >= 1;
    assert Stale(s', w);
    RunStale(s', steps, w);
    FlushMakesLeave(s, w);
    RunLeaving(s', steps, w);
    if Unlocked(Run(s', steps).handler) && Run(s', steps).dropped[w] == 0 {
      FlushBarrier(s, steps, w);
      ReportedIn(Run(s', steps).reported, Report(w, NotFound));
    }
  }

  lemma {:induction false} RunStale(s: State, steps: seq<Step>, w: Work)
    requires Stale(s, w)
    ensures Stale(Run(s, steps), w)
    decreases |steps|
  {
    if steps != [] {
      StepStale(s, steps[0], w);
      RunStale(Next(s, steps[0]), steps[1..], w);
    }
  }

  lemma {:induction false} ReportedIn(reports: seq<Report>, r: Report)
    requires r in reports
    ensures Reported(reports, r.work) >= 1
    decreases |reports|
  {
    var last := |reports| - 1;
    if reports[last] != r {
      assert reports == reports[..last] + [reports[last]];
      ReportedIn(reports[..last], r);
    }
  }

  // ---------- after a stop ----------

  /** After the clearing of a stop or reset, with `w` still in the looper's hands; `flushed` tells whether
      a flush has come since. */
  predicate StoppedWith(s: State, w: Work, flushed: bool) {
    && (s.life == Stopping(true) || s.life == Resetting(true))
    && s.q.entries == [] && s.q.pending == map[] && HoldsJob(s.handler, w)
    && (if flushed then s.handler.job.generation < s.q.generation else s.handler.job.generation == s.q.generation)
  }

  lemma {:induction false} StepStoppedWith(s: State, step: Step, w: Work, flushed: bool)
    requires StoppedWith(s, w, flushed) && !step.PoolFails? && !step.ProcessDone?
    ensures StoppedWith(Next(s, step), w, flushed || step.Flush?)
  {
  }

  lemma {:induction false} RunStoppedWith(s: State, steps: seq<Step>, w: Work, flushed: bool)
    requires StoppedWith(s, w, flushed) && forall step :: step in steps ==> !step.PoolFails? && !step.ProcessDone?
    ensures StoppedWith(Run(s, steps), w, flushed || Flush in steps)
    decreases |steps|
  {
    if steps != [] {
      assert steps[0] in steps && steps == [steps[0]] + steps[1..];
      StepStoppedWith(s, steps[0], w, flushed);
      RunStoppedWith(Next(s, steps[0]), steps[1..], w, flushed || steps[0].Flush?);
    }
  }

  /** `stop` and `reset` do not start a new generation. Of a work that the looper has in its hands when
      they clear the queue, whatever happens until it is completed, nothing is left pending exactly if the
      decoder has processed it or a flush has come; in the latter case it is returned as not found. No
      other work is left. */
  lemma {:induction false} LeftByStop(s: State, steps: seq<Step>, w: Work, processed: bool)
    requires Enabled(s, ClearQueue) && HoldsJob(s.handler, w) && s.handler.job.generation == s.q.generation
    requires forall step :: step in steps ==> !step.PoolFails? && !step.ProcessDone?
    requires Run(Next(s, ClearQueue), steps).handler.Decoding?
    ensures var t := Next(Run(Next(s, ClearQueue), steps), ProcessDone(processed));
            && t.q.entries == []
            && t.q.pending == (if processed || Flush in steps then map[] else map[w.index := w])
            && (if processed || Flush in steps
                then t.handler.Returning? && t.handler.report == Report(w, if Flush in steps then NotFound else Done)
                else t.handler.Reposting?)
  {
    assert StoppedWith(Next(s, ClearQueue), w, false);
    RunStoppedWith(Next(s, ClearQueue), steps, w, false);
    var r := Run(Next(s, ClearQueue), steps);
    assert Next(r, ProcessDone(processed)).q == Complete(r.q, w, r.handler.job.generation, processed).0;
  }

  // ---------- every run ----------

  /** All runs of the component satisfy the invariants. */
  lemma {:induction false} EveryRun(steps: seq<Step>)
    ensures var s := Run(Initial, steps);
            Conserved(s) && GenerationsOk(s) && Orderly(s) && NoLostWakeup(s)
  {
    assert Conserved(Initial) by {
      forall w
        ensures Held(Initial, w) == Initial.accepted[w]
      {
      }
    }
    RunConserves(Initial, steps);
    RunGenerations(Initial, steps);
    RunNeverLosesWakeup(Initial, steps);
  }
}
