/** The protocol between the client threads, the looper thread and the decoder, as interleaved steps.
    A step that is not enabled changes nothing, so a run is any sequence of steps. */
module WorkProtocol {
  import opened WorkQueues

  datatype Exec = Uninitialized | Stopped | Running

  datatype Message = ProcessMsg | InitMsg | StartMsg | StopMsg | ResetMsg

  /** The lifecycle call in progress, if any; a call that clears the queue does so before it posts. */
  datatype Lifecycle = NoCall | Starting | Stopping(cleared: bool) | Resetting(cleared: bool)

  /** Where the looper is in `processQueue`. `Popped` is before the pending flush and the block pool,
      `Decoding` inside the decoder, `Finishing` inside `finish` between its lock and the listener,
      `Returning` and `Reposting` after the last lock. */
  datatype Handler =
    | Idle
    | Popped(job: Job)
    | Decoding(job: Job)
    | Finishing(job: Job, taken: Work)
    | Returning(report: Report, hasQueued: bool)
    | Reposting(hasQueued: bool)

  datatype State = State(
    q: Queue,
    exec: Exec,
    running: bool,               // the handler's own flag
    messages: seq<Message>,
    toPost: nat,                 // clients that saw an empty queue and have not posted yet
    life: Lifecycle,
    handler: Handler,
    flushedFor: nat,             // the generation for which the decoder was last flushed
    accepted: multiset<Work>,    // history: all works ever queued, and what became of them
    reported: seq<Report>,
    flushed: multiset<Work>,
    dropped: multiset<Work>)

  const Initial: State :=
    State(Queue([], map[], 0, false), Uninitialized, false, [], 0, NoCall, Idle, 0,
          multiset{}, [], multiset{}, multiset{})

  datatype Step =
    // clients
    | QueueWorks(works: seq<Work>)
    | MarkDrain(mode: nat)
    | PostProcess
    | Flush
    | StartInit
    | StartAgain
    | StopBegin
    | ResetBegin
    | ClearQueue
    // looper
    | HandleMessage(initOk: bool)
    | BeginDecoding
    | PoolFails
    | FinishTake(index: nat)
    | FinishReport
    | ProcessDone(processed: bool)
    | DrainDone
    | ReturnWork
    | Repost

  predicate LooperStep(step: Step) {
    step.HandleMessage? || step.BeginDecoding? || step.PoolFails? || step.FinishTake? || step.FinishReport?
    || step.ProcessDone? || step.DrainDone? || step.ReturnWork? || step.Repost?
  }

  ghost predicate Unique(m: multiset<Work>) {
    forall w :: m[w] <= 1
  }

  predicate Submitting(s: State) { s.exec == Running && s.life == NoCall }

  /** Works are queued by a client that owns them, while no lifecycle call is in progress. */
  ghost predicate Enabled(s: State, step: Step) {
    match step
    case QueueWorks(works) => Submitting(s) && Unique(s.accepted + multiset(works))
    case MarkDrain(_) => Submitting(s)
    case PostProcess => s.toPost > 0
    case Flush => true
    case StartInit => s.exec == Uninitialized && s.life == NoCall
    case StartAgain => s.exec == Stopped && s.life == NoCall
    case StopBegin => s.exec == Running && s.life == NoCall
    case ResetBegin => s.life == NoCall
    case ClearQueue => s.life == Stopping(false) || s.life == Resetting(false)
    case HandleMessage(_) => s.handler == Idle && s.messages != []
    case BeginDecoding => s.handler.Popped?
    case PoolFails => s.handler.Popped?
    case FinishTake(index) => s.handler.Decoding? && index in s.q.pending
    case FinishReport => s.handler.Finishing?
    case ProcessDone(_) => s.handler.Decoding? && s.handler.job.entry.WorkEntry?
    case DrainDone => s.handler.Decoding? && s.handler.job.entry.DrainEntry?
    case ReturnWork => s.handler.Returning?
    case Repost => s.handler.Reposting?
  }

  function JobWorks(job: Job): multiset<Work> {
    match job.entry
    case WorkEntry(w) => multiset{w}
    case DrainEntry(_) => multiset{}
  }

  function Handle(s: State, initOk: bool): State
    requires s.messages != []
  {
    var s' := s.(messages := s.messages[1..]);
    match s.messages[0]
    case ProcessMsg =>
      if !s.running || s.q.entries == [] then s'
      else var (q, job) := Pop(s.q); s'.(q := q, handler := Popped(job))
    case InitMsg => s'.(running := true, life := NoCall, exec := if initOk then Running else s.exec)
    case StartMsg => s'.(running := true)
    case StopMsg => s'.(life := NoCall)
    case ResetMsg => s'.(running := false, life := NoCall)
  }

  /** The pending flush that a popped entry brings along. */
  function FlushDecoder(s: State): State
    requires s.handler.Popped?
  {
    if s.handler.job.flushFirst then s.(flushedFor := s.handler.job.generation) else s
  }

  function Apply(s: State, step: Step): State
    requires step.HandleMessage? ==> s.messages != []
    requires step.PostProcess? ==> s.toPost > 0
    requires step.BeginDecoding? || step.PoolFails? ==> s.handler.Popped?
    requires step.FinishTake? ==> s.handler.Decoding? && step.index in s.q.pending
    requires step.FinishReport? ==> s.handler.Finishing?
    requires step.ProcessDone? ==> s.handler.Decoding? && s.handler.job.entry.WorkEntry?
    requires step.DrainDone? ==> s.handler.Decoding?
    requires step.ReturnWork? ==> s.handler.Returning?
    requires step.Repost? ==> s.handler.Reposting?
  {
    match step
    case QueueWorks(works) =>
      s.(q := Push(s.q, works), toPost := if s.q.entries == [] then s.toPost + 1 else s.toPost,
         accepted := s.accepted + multiset(works))
    case MarkDrain(mode) =>
      s.(q := Mark(s.q, mode), toPost := if s.q.entries == [] then s.toPost + 1 else s.toPost)
    case PostProcess => s.(toPost := s.toPost - 1, messages := s.messages + [ProcessMsg])
    case Flush =>
      s.(q := Emptied(s.q), flushed := s.flushed + multiset(Works(s.q.entries)) + PendingWorks(s.q.pending))
    case StartInit => s.(life := Starting, messages := s.messages + [InitMsg])
    case StartAgain => s.(exec := Running, messages := s.messages + [StartMsg])
    case StopBegin => s.(exec := Stopped, life := Stopping(false))
    case ResetBegin => s.(exec := Uninitialized, life := Resetting(false))
    case ClearQueue =>
      s.(q := Cleared(s.q), dropped := s.dropped + multiset(Works(s.q.entries)) + PendingWorks(s.q.pending),
         life := if s.life.Stopping? then Stopping(true) else Resetting(true),
         messages := s.messages + [if s.life.Stopping? then StopMsg else ResetMsg])
    case HandleMessage(initOk) => Handle(s, initOk)
    case BeginDecoding => FlushDecoder(s).(handler := Decoding(s.handler.job))
    case PoolFails =>
      FlushDecoder(s).(handler := Reposting(s.handler.job.hasQueued), dropped := s.dropped + JobWorks(s.handler.job))
    case FinishTake(index) =>
      s.(q := Take(s.q, index).0, handler := Finishing(s.handler.job, s.q.pending[index]))
    case FinishReport =>
      s.(handler := Decoding(s.handler.job), reported := s.reported + [Report(s.handler.taken, Done)])
    case ProcessDone(processed) =>
      var job := s.handler.job;
      var (q, report) := Complete(s.q, job.entry.work, job.generation, processed);
      s.(q := q, handler := if report.Some? then Returning(report.value, job.hasQueued) else Reposting(job.hasQueued))
    case DrainDone => s.(handler := Reposting(s.handler.job.hasQueued))
    case ReturnWork => s.(handler := Reposting(s.handler.hasQueued), reported := s.reported + [s.handler.report])
    case Repost =>
      s.(handler := Idle, messages := if s.handler.hasQueued then s.messages + [ProcessMsg] else s.messages)
  }

  ghost function Next(s: State, step: Step): State {
    if Enabled(s, step) then Apply(s, step) else s
  }

  ghost function Run(s: State, steps: seq<Step>): State
    decreases |steps|
  {
    if steps == [] then s else Run(Next(s, steps[0]), steps[1..])
  }

  // ---------- conservation ----------

  function One(v: Work, w: Work): nat { if v == w then 1 else 0 }

  function Queued(entries: seq<Entry>, w: Work): nat {
    if entries == [] then 0
    else (if entries[0] == WorkEntry(w) then 1 else 0) + Queued(entries[1..], w)
  }

  function Pending(pending: map<nat, Work>, w: Work): nat {
    if w.index in pending then One(pending[w.index], w) else 0
  }

  function InJob(job: Job, w: Work): nat {
    if job.entry == WorkEntry(w) then 1 else 0
  }

  function InHand(h: Handler, w: Work): nat {
    match h
    case Idle => 0
    case Popped(job) => InJob(job, w)
    case Decoding(job) => InJob(job, w)
    case Finishing(job, taken) => InJob(job, w) + One(taken, w)
    case Returning(report, _) => One(report.work, w)
    case Reposting(_) => 0
  }

  function Reported(reports: seq<Report>, w: Work): nat
    decreases |reports|
  {
    if reports == [] then 0
    else Reported(reports[..|reports| - 1], w) + One(reports[|reports| - 1].work, w)
  }

  /** How often work `w` occurs in all the places together. */
  function Held(s: State, w: Work): nat {
    Queued(s.q.entries, w) + InHand(s.handler, w) + Pending(s.q.pending, w)
    + Reported(s.reported, w) + s.flushed[w] + s.dropped[w]
  }

  /** Every accepted work is in exactly one place, once. */
  ghost predicate Conserved(s: State) {
    && Keyed(s.q.pending) && Unique(s.accepted)
    && forall w :: Held(s, w) == s.accepted[w]
  }

  lemma {:induction false} ReportOne(reports: seq<Report>, r: Report, w: Work)
    ensures Reported(reports + [r], w) == Reported(reports, w) + One(r.work, w)
  {
    assert (reports + [r])[..|reports|] == reports;
  }

  lemma {:induction false} QueuedAppend(a: seq<Entry>, b: seq<Entry>, w: Work)
    ensures Queued(a + b, w) == Queued(a, w) + Queued(b, w)
  {
    if a == [] {
      assert a + b == b;
    } else {
      QueuedAppend(a[1..], b, w);
      assert (a + b)[1..] == a[1..] + b;
    }
  }

  lemma {:induction false} QueuedWorks(entries: seq<Entry>, w: Work)
    ensures Queued(entries, w) == multiset(Works(entries))[w]
  {
    if entries != [] {
      QueuedWorks(entries[1..], w);
      assert multiset(WorkOf(entries[0]) + Works(entries[1..]))
          == multiset(WorkOf(entries[0])) + multiset(Works(entries[1..]));
    }
  }

  lemma {:induction false} PendingWorksAt(pending: map<nat, Work>, w: Work)
    requires Keyed(pending)
    ensures Pending(pending, w) == PendingWorks(pending)[w]
  {
  }

  lemma {:induction false} QueueConserves(s: State, works: seq<Work>, w: Work)
    requires Enabled(s, QueueWorks(works))
    ensures Held(Apply(s, QueueWorks(works)), w) == Held(s, w) + multiset(works)[w]
  {
    QueuedAppend(s.q.entries, Entries(works), w);
    QueuedWorks(Entries(works), w);
    WorksOfEntries(works);
  }

  lemma {:induction false} MarkConserves(s: State, mode: nat, w: Work)
    ensures Held(Apply(s, MarkDrain(mode)), w) == Held(s, w)
  {
    QueuedAppend(s.q.entries, [DrainEntry(mode)], w);
    assert Queued([DrainEntry(mode)], w) == 0 + Queued([], w);
  }

  lemma {:induction false} EmptyingConserves(s: State, step: Step, w: Work)
    requires Keyed(s.q.pending) && (step.Flush? || step.ClearQueue?)
    ensures Held(Apply(s, step), w) == Held(s, w)
  {
    QueuedWorks(s.q.entries, w);
    PendingWorksAt(s.q.pending, w);
  }

  lemma {:induction false} HandleConserves(s: State, initOk: bool, w: Work)
    requires s.handler == Idle && s.messages != []
    ensures Held(Handle(s, initOk), w) == Held(s, w)
  {
    hide Pending, Reported;
  }

  lemma {:induction false} PoolFailConserves(s: State, w: Work)
    requires Enabled(s, PoolFails)
    ensures Held(Apply(s, PoolFails), w) == Held(s, w)
  {
    var t, job := Apply(s, PoolFails), s.handler.job;
    assert t.q == s.q && t.reported == s.reported && t.flushed == s.flushed && t.handler.Reposting?;
    assert t.dropped == s.dropped + JobWorks(job);
    assert JobWorks(job)[w] == InJob(job, w);
    hide Apply, Queued, Pending, Reported, InJob, JobWorks;
  }

  lemma {:induction false} DoneConserves(s: State, processed: bool, w: Work)
    requires Keyed(s.q.pending) && Enabled(s, ProcessDone(processed))
    ensures Held(Apply(s, ProcessDone(processed)), w) == Held(s, w)
  {
  }

  lemma {:induction false} LooperConserves(s: State, step: Step, w: Work)
    requires Keyed(s.q.pending) && Enabled(s, step)
    requires step.BeginDecoding? || step.FinishTake? || step.FinishReport? || step.DrainDone?
             || step.ReturnWork? || step.Repost?
    ensures Held(Apply(s, step), w) == Held(s, w)
  {
    hide Handle, Complete, Take, Push, Mark, Emptied, Cleared, Queued, Pending;
    match step
    case FinishTake(index) => TakeConserves(s, index, w);
    case FinishReport => ReportConserves(s, step, w);
    case ReturnWork => ReportConserves(s, step, w);
    case _ =>
  }

  lemma {:induction false} ReportConserves(s: State, step: Step, w: Work)
    requires Enabled(s, step) && (step.FinishReport? || step.ReturnWork?)
    ensures Held(Apply(s, step), w) == Held(s, w)
  {
    hide Handle, Complete, Take, Push, Mark, Emptied, Cleared, Queued, Pending, Reported;
    ReportOne(s.reported, if step.ReturnWork? then s.handler.report else Report(s.handler.taken, Done), w);
  }

  lemma {:induction false} TakeConserves(s: State, index: nat, w: Work)
    requires Keyed(s.q.pending) && Enabled(s, FinishTake(index))
    ensures Held(Apply(s, FinishTake(index)), w) == Held(s, w)
  {
    hide Handle, Complete, Push, Mark, Emptied, Cleared, Queued;
  }

  lemma {:induction false} StepHolds(s: State, step: Step, w: Work)
    requires Keyed(s.q.pending) && Enabled(s, step)
    ensures Held(Apply(s, step), w) == Held(s, w) + (if step.QueueWorks? then multiset(step.works)[w] else 0)
  {
    match step
    case QueueWorks(works) => QueueConserves(s, works, w);
    case MarkDrain(mode) => MarkConserves(s, mode, w);
    case Flush => EmptyingConserves(s, step, w);
    case ClearQueue => EmptyingConserves(s, step, w);
    case PostProcess =>
    case StartInit =>
    case StartAgain =>
    case StopBegin =>
    case ResetBegin =>
    case HandleMessage(initOk) => HandleConserves(s, initOk, w);
    case PoolFails => PoolFailConserves(s, w);
    case ProcessDone(processed) => DoneConserves(s, processed, w);
    case _ => LooperConserves(s, step, w);
  }

  lemma {:induction false} StepKeyed(s: State, step: Step)
    requires Keyed(s.q.pending) && Enabled(s, step)
    ensures Keyed(Apply(s, step).q.pending)
  {
  }

  lemma {:induction false} StepAccepts(s: State, step: Step)
    requires Enabled(s, step)
    ensures Apply(s, step).accepted == if step.QueueWorks? then s.accepted + multiset(step.works) else s.accepted
  {
  }

  lemma {:induction false} StepConserves(s: State, step: Step)
    requires Conserved(s)
    ensures Conserved(Next(s, step))
  {
    if Enabled(s, step) {
      StepKeyed(s, step);
      StepAccepts(s, step);
      forall w
        ensures Held(Apply(s, step), w) == Apply(s, step).accepted[w]
      {
        StepHolds(s, step, w);
      }
    }
  }

  /** In every run every accepted work is in exactly one of: the queue, the looper's hands, the pending
      map, reported, flushed, dropped. */
  lemma {:induction false} RunConserves(s: State, steps: seq<Step>)
    requires Conserved(s)
    ensures Conserved(Run(s, steps))
    decreases |steps|
  {
    if steps != [] {
      StepConserves(s, steps[0]);
      RunConserves(Next(s, steps[0]), steps[1..]);
    }
  }
}
