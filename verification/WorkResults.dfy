/** What the client is told of a work: that it was not found exactly if a flush came while the looper had it,
    that it is done exactly if the decoder answered it otherwise, and that it is corrupted only if its frame
    index was used again. */
module WorkResults {
  import opened WorkQueues
  import opened WorkProtocol
  import opened WorkFlush

  /** The work in front of the decoder or in it. */
  function AtWork(h: Handler): set<Work> {
    if (h.Popped? || h.Decoding? || h.Finishing?) && h.job.entry.WorkEntry? then {h.job.entry.work} else {}
  }

  /** The works that a flush has caught at work, and those that the decoder has answered: through `finish`, or by
      marking them processed. */
  datatype Fates = Fates(caught: set<Work>, answered: set<Work>)

  ghost function Seen(f: Fates, s: State, step: Step): Fates {
    if !Enabled(s, step) then f
    else if step.Flush? then f.(caught := f.caught + AtWork(s.handler))
    else if step.FinishTake? then f.(answered := f.answered + {s.q.pending[step.index]})
    else if step.ProcessDone? && step.processed then f.(answered := f.answered + AtWork(s.handler))
    else f
  }

  ghost function SeenIn(f: Fates, s: State, steps: seq<Step>): Fates
    decreases |steps|
  {
    if steps == [] then f else SeenIn(Seen(f, s, steps[0]), Next(s, steps[0]), steps[1..])
  }

  /** Another accepted work has the frame index of `w`. */
  predicate Reused(accepted: multiset<Work>, w: Work) {
    exists v :: v in accepted && v != w && v.index == w.index
  }

  predicate Told(r: Report, accepted: multiset<Work>, f: Fates) {
    && (r.result == NotFound <==> r.work in f.caught)
    && (r.result == Done <==> r.work in f.answered && r.work !in f.caught)
    && (r.result == Corrupted ==> Reused(accepted, r.work))
  }

  /** A work is out of the decoder's reach: reported or about to be. */
  predicate Gone(s: State, w: Work) {
    || Reported(s.reported, w) >= 1
    || (s.handler.Finishing? && s.handler.taken == w) || (s.handler.Returning? && s.handler.report.work == w)
  }

  ghost predicate AllTold(s: State, f: Fates) {
    && (forall i :: 0 <= i < |s.reported| ==> Told(s.reported[i], s.accepted, f))
    && (s.handler.Returning? ==> Told(s.handler.report, s.accepted, f))
    && (s.handler.Finishing? ==> s.handler.taken !in f.caught && s.handler.taken in f.answered)
    && (forall w :: w in AtWork(s.handler) && s.handler.job.generation < s.q.generation ==> w in f.caught)
    && (forall w :: w in f.caught ==> Leaving(s, w))
    && (forall w :: w in f.answered ==> Gone(s, w))
  }

  lemma {:induction false} ReportedAt(reports: seq<Report>, i: nat)
    requires i < |reports|
    ensures Reported(reports, reports[i].work) >= 1
    decreases |reports|
  {
    if i < |reports| - 1 {
      ReportedAt(reports[..|reports| - 1], i);
    }
  }

  /** A work that is at work or pending has not been reported, and is not about to be. */
  lemma {:induction false} StillHere(s: State, w: Work)
    requires Conserved(s) && (w in AtWork(s.handler) || Pending(s.q.pending, w) >= 1)
    ensures !Gone(s, w) && s.accepted[w] >= 1
    ensures forall i :: 0 <= i < |s.reported| ==> s.reported[i].work != w
  {
    assert Held(s, w) == s.accepted[w] <= 1;
    forall i | 0 <= i < |s.reported|
      ensures s.reported[i].work != w
    {
      ReportedAt(s.reported, i);
    }
  }

  /** Nothing that has been told changes when the fate of a work is seen that is still here. */
  lemma {:induction false} ToldOfOthers(s: State, f: Fates, g: Fates, w: Work)
    requires Conserved(s) && (w in AtWork(s.handler) || Pending(s.q.pending, w) >= 1)
    requires f.caught <= g.caught <= f.caught + {w} && f.answered <= g.answered <= f.answered + {w}
    requires forall i :: 0 <= i < |s.reported| ==> Told(s.reported[i], s.accepted, f)
    ensures forall i :: 0 <= i < |s.reported| ==> Told(s.reported[i], s.accepted, g)
  {
    StillHere(s, w);
    hide Reused;
  }

  lemma {:induction false} FlushedLeave(s: State, f: Fates)
    requires Conserved(s) && GenerationsOk(s) && AllTold(s, f)
    ensures forall w :: w in Seen(f, s, Flush).caught ==> Leaving(Apply(s, Flush), w)
  {
    forall w | w in Seen(f, s, Flush).caught
      ensures Leaving(Apply(s, Flush), w)
    {
      if w in f.caught {
        ClientLeaving(s, Flush, w);
      } else {
        StillHere(s, w);
        FlushMakesLeave(s, w);
      }
    }
  }

  lemma {:induction false} FlushTells(s: State, f: Fates)
    requires Conserved(s) && GenerationsOk(s) && AllTold(s, f)
    ensures AllTold(Apply(s, Flush), Seen(f, s, Flush))
  {
    var t, g := Apply(s, Flush), Seen(f, s, Flush);
    FlushedLeave(s, f);
    hide Leaving, Told;
    if AtWork(s.handler) != {} {
      var w := s.handler.job.entry.work;
      StillHere(s, w);
      ToldOfOthers(s, f, g, w);
    } else {
      assert g == f;
    }
    assert t.reported == s.reported && t.handler == s.handler && t.accepted == s.accepted;
    hide Apply, Conserved;
  }

  /** More accepted works change nothing that the client has been told. */
  lemma {:induction false} StillTold(r: Report, a: multiset<Work>, b: multiset<Work>, f: Fates)
    requires Told(r, a, f) && a <= b
    ensures Told(r, b, f)
  {
    if Reused(a, r.work) {
      var v :| v in a && v != r.work && v.index == r.work.index;
      assert v in b;
    }
  }

  lemma {:induction false} ClientTells(s: State, step: Step, f: Fates)
    requires AllTold(s, f) && Enabled(s, step) && !LooperStep(step) && !step.Flush?
    ensures AllTold(Apply(s, step), f)
  {
    var t := Apply(s, step);
    assert t.reported == s.reported && t.handler == s.handler && t.q.generation == s.q.generation;
    assert s.accepted <= t.accepted;
    forall w | w in f.caught
      ensures Leaving(t, w)
    {
      ClientLeaving(s, step, w);
    }
    hide Apply, Told, Leaving;
    forall i | 0 <= i < |s.reported|
      ensures Told(t.reported[i], t.accepted, f)
    {
      StillTold(s.reported[i], s.accepted, t.accepted, f);
    }
    if s.handler.Returning? {
      StillTold(s.handler.report, s.accepted, t.accepted, f);
    }
  }

  lemma {:induction false} CaughtLeave(s: State, step: Step, f: Fates)
    requires AllTold(s, f) && Enabled(s, step) && LooperStep(step)
    ensures forall w :: w in f.caught ==> Leaving(Apply(s, step), w)
  {
    forall w | w in f.caught
      ensures Leaving(Apply(s, step), w)
    {
      LooperLeaving(s, step, w);
    }
  }

  /** The end of the processing of a work says of it, or of the one that it replaces, what is right. */
  lemma {:induction false} DoneReport(s: State, processed: bool, f: Fates)
    requires Conserved(s) && GenerationsOk(s) && AllTold(s, f) && Enabled(s, ProcessDone(processed))
    ensures var t := Apply(s, ProcessDone(processed));
            && (t.handler.Returning? ==> Told(t.handler.report, s.accepted, Seen(f, s, ProcessDone(processed))))
            && (processed ==> t.handler.Returning? && t.handler.report.work == s.handler.job.entry.work)
  {
    var w := s.handler.job.entry.work;
    StillHere(s, w);
    assert w in f.caught ==> Leaving(s, w);
    if s.q.generation == s.handler.job.generation && !processed && w.index in s.q.pending {
      var v := s.q.pending[w.index];
      assert Pending(s.q.pending, v) == 1;
      StillHere(s, v);
      assert v in f.caught ==> Leaving(s, v);
      assert Held(s, w) == s.accepted[w] <= 1;
      assert w in s.accepted && w != v && w.index == v.index;
    }
    hide Reported, Queued;
  }

  lemma {:induction false} DoneTells(s: State, processed: bool, f: Fates)
    requires Conserved(s) && GenerationsOk(s) && AllTold(s, f) && Enabled(s, ProcessDone(processed))
    ensures AllTold(Apply(s, ProcessDone(processed)), Seen(f, s, ProcessDone(processed)))
  {
    var t, g, w := Apply(s, ProcessDone(processed)), Seen(f, s, ProcessDone(processed)), s.handler.job.entry.work;
    CaughtLeave(s, ProcessDone(processed), f);
    DoneReport(s, processed, f);
    ToldOfOthers(s, f, g, w);
    assert t.reported == s.reported && t.accepted == s.accepted && AtWork(t.handler) == {} && !t.handler.Finishing?;
    assert g.caught == f.caught && g.answered == if processed then f.answered + {w} else f.answered;
    hide Leaving, Told, Apply, Conserved, GenerationsOk;
  }

  lemma {:induction false} HandleTells(s: State, initOk: bool, f: Fates)
    requires AllTold(s, f) && Enabled(s, HandleMessage(initOk))
    ensures AllTold(Apply(s, HandleMessage(initOk)), f)
  {
    CaughtLeave(s, HandleMessage(initOk), f);
    assert Apply(s, HandleMessage(initOk)) == Handle(s, initOk);
    HandleShows(s, initOk);
    hide Leaving, Told, Handle, Apply;
  }

  lemma {:induction false} HandleShows(s: State, initOk: bool)
    requires s.handler == Idle && s.messages != []
    ensures var t := Handle(s, initOk);
            && t.reported == s.reported && t.accepted == s.accepted
            && !t.handler.Returning? && !t.handler.Finishing?
            && (AtWork(t.handler) != {} ==> t.handler.job.generation == t.q.generation)
  {
  }

  /** A work that `finish` takes is answered, and was not caught. */
  lemma {:induction false} TakeTells(s: State, index: nat, f: Fates)
    requires Conserved(s) && AllTold(s, f) && Enabled(s, FinishTake(index))
    ensures AllTold(Apply(s, FinishTake(index)), Seen(f, s, FinishTake(index)))
  {
    var t, g, v := Apply(s, FinishTake(index)), Seen(f, s, FinishTake(index)), s.q.pending[index];
    CaughtLeave(s, FinishTake(index), f);
    assert forall w :: w in f.caught ==> Leaving(s, w) && Pending(s.q.pending, w) == 0;
    assert Pending(s.q.pending, v) == 1;
    ToldOfOthers(s, f, g, v);
    hide Leaving, Told, Conserved;
  }

  /** Between two states nothing was told but `more`, on which all is right. */
  lemma {:induction false} Carries(s: State, t: State, more: seq<Report>, f: Fates)
    requires AllTold(s, f) && forall i :: 0 <= i < |more| ==> Told(more[i], s.accepted, f)
    requires t.reported == s.reported + more && t.accepted == s.accepted && t.q.generation == s.q.generation
    requires !t.handler.Returning? && !t.handler.Finishing?
    requires AtWork(t.handler) != {} ==> AtWork(t.handler) == AtWork(s.handler) && t.handler.job == s.handler.job
    requires forall w :: w in f.caught ==> Leaving(t, w)
    requires forall w :: w in f.answered ==> Gone(t, w)
    ensures AllTold(t, f)
  {
    hide Leaving, Told, Gone;
  }

  function Handed(h: Handler): Report
    requires h.Finishing? || h.Returning?
  {
    if h.Returning? then h.report else Report(h.taken, Done)
  }

  lemma {:induction false} ReportShows(s: State, step: Step)
    requires Enabled(s, step) && (step.FinishReport? || step.ReturnWork?)
    ensures var t := Apply(s, step);
            && (s.handler.Finishing? || s.handler.Returning?) && !t.handler.Returning? && !t.handler.Finishing?
            && t.reported == s.reported + [Handed(s.handler)]
            && t.accepted == s.accepted && t.q.generation == s.q.generation
            && (AtWork(t.handler) != {} ==> AtWork(t.handler) == AtWork(s.handler) && t.handler.job == s.handler.job)
  {
    hide Handle, Complete, Take;
  }

  lemma {:induction false} GoneStays(s: State, t: State, w: Work)
    requires (s.handler.Finishing? || s.handler.Returning?) && t.reported == s.reported + [Handed(s.handler)]
    requires Gone(s, w)
    ensures Gone(t, w)
  {
    ReportOne(s.reported, Handed(s.handler), w);
  }

  /** Handing out a report on which all is right. */
  lemma {:induction false} ReportTells(s: State, step: Step, f: Fates)
    requires AllTold(s, f) && Enabled(s, step) && (step.FinishReport? || step.ReturnWork?)
    ensures AllTold(Apply(s, step), f)
  {
    CaughtLeave(s, step, f);
    ReportShows(s, step);
    assert Told(Handed(s.handler), s.accepted, f);
    hide Leaving, Gone, Apply, Told, Handed;
    var t := Apply(s, step);
    forall w | w in f.answered
      ensures Gone(t, w)
    {
      GoneStays(s, t, w);
    }
    Carries(s, t, [Handed(s.handler)], f);
  }

  lemma {:induction false} QuietTells(s: State, step: Step, f: Fates)
    requires AllTold(s, f) && Enabled(s, step)
    requires step.BeginDecoding? || step.PoolFails? || step.DrainDone? || step.Repost?
    ensures AllTold(Apply(s, step), f)
  {
    CaughtLeave(s, step, f);
    var t := Apply(s, step);
    assert t.reported == s.reported && s.reported + [] == s.reported;
    assert forall w :: w in f.answered ==> Gone(t, w);
    hide Leaving, Told, Gone, AllTold;
    Carries(s, t, [], f);
  }

  lemma {:induction false} StepTells(s: State, step: Step, f: Fates)
    requires Conserved(s) && GenerationsOk(s) && AllTold(s, f)
    ensures AllTold(Next(s, step), Seen(f, s, step))
  {
    if Enabled(s, step) {
      hide AllTold, Apply, Conserved, GenerationsOk;
      if step.Flush? {
        FlushTells(s, f);
      } else if step.HandleMessage? {
        HandleTells(s, step.initOk, f);
      } else if step.ProcessDone? {
        DoneTells(s, step.processed, f);
      } else if step.FinishTake? {
        TakeTells(s, step.index, f);
      } else if step.FinishReport? || step.ReturnWork? {
        ReportTells(s, step, f);
      } else if LooperStep(step) {
        QuietTells(s, step, f);
      } else {
        ClientTells(s, step, f);
      }
    }
  }

  lemma {:induction false} RunTells(s: State, steps: seq<Step>, f: Fates)
    requires Conserved(s) && GenerationsOk(s) && AllTold(s, f)
    ensures AllTold(Run(s, steps), SeenIn(f, s, steps))
    decreases |steps|
  {
    hide AllTold, Conserved, GenerationsOk, Next, Seen;
    if steps != [] {
      StepTells(s, steps[0], f);
      StepConserves(s, steps[0]);
      StepGenerations(s, steps[0]);
      RunTells(Next(s, steps[0]), steps[1..], Seen(f, s, steps[0]));
    }
  }

  /** In every run: a work that is handed to the client, by `finish` or at the end of its processing, is said not
      to have been found if and only if a flush caught it at work; otherwise it is said to be done if and only if
      the decoder answered it; and to be corrupted only if another accepted work has its frame index. */
  lemma {:induction false} ResultsIff(steps: seq<Step>)
    ensures var t, f := Run(Initial, steps), SeenIn(Fates({}, {}), Initial, steps);
            forall i :: 0 <= i < |t.reported| ==>
                          var r := t.reported[i];
                          && (r.result == NotFound <==> r.work in f.caught)
                          && (r.result == Done <==> r.work in f.answered && r.work !in f.caught)
                          && (r.result == Corrupted ==> Reused(t.accepted, r.work))
  {
    EveryRun([]);
    RunTells(Initial, steps, Fates({}, {}));
    hide Run, SeenIn, Reused;
  }
}
