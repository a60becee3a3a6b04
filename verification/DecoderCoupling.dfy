/** A software decoder on top of the shell. The decoder keeps a list of the frame indices whose works
    it still owes an answer: `mBuffersInfo` of the AAC decoder, `mPendingWorkFrameIndexes` of the video
    decoder. This list and the shell's map of pending works must agree. */
module DecoderCoupling {
  import opened WorkQueues
  import opened WorkProtocol
  import opened WorkLiveness
  import opened WorkFlush

  datatype Joint = Joint(
    shell: State,
    owed: seq<nat>,      // the decoder's list
    unlisted: bool,      // the work in process has not been put on the list
    tainted: bool)       // the shell's works were cleared and the list was not emptied since

  /** What the decoder and the shell do together. While it processes a work the decoder may put it on the
      list, once, and answer the oldest on the list, in place when it is the current work and through
      `finish` otherwise; a work that is still on the list is not marked processed. That the two decoders
      make no other moves is proved in `AacCoupling` and `VideoCoupling`. */
  datatype JointStep =
    | Shell(step: Step)
    | NoteCurrent
    | AnswerOldest
    | Complete(processed: bool)
    | ForgetAll          // an end-of-stream drain without a work
    | Stray(index: nat)  // `finish` for an index that is not on the list, which is empty

  predicate InDecoder(s: State) { s.handler.Decoding? || s.handler.Finishing? }

  predicate IsCurrent(s: State, index: nat) {
    InDecoder(s) && s.handler.job.entry.WorkEntry? && s.handler.job.entry.work.index == index
  }

  ghost predicate DistinctIndices(m: multiset<Work>) {
    forall v, w :: v in m && w in m && v.index == w.index ==> v == w
  }

  /** Clients use a frame index once. */
  ghost predicate JointEnabled(j: Joint, step: JointStep) {
    match step
    case Shell(step) =>
      Enabled(j.shell, step) && !step.FinishTake? && !step.ProcessDone?
      && (step.QueueWorks? ==> DistinctIndices(j.shell.accepted + multiset(step.works)))
    case NoteCurrent => j.shell.handler.Decoding? && j.shell.handler.job.entry.WorkEntry? && j.unlisted
    case AnswerOldest => j.shell.handler.Decoding? && j.owed != []
    case Complete(processed) =>
      Enabled(j.shell, ProcessDone(processed)) && (processed ==> j.shell.handler.job.entry.work.index !in j.owed)
    case ForgetAll => j.shell.handler.Decoding? && j.shell.handler.job.entry.DrainEntry?
    case Stray(index) => j.shell.handler.Decoding? && j.owed == [] && !IsCurrent(j.shell, index)
  }

  /** `keeps` tells whether the decoder keeps its list when it is stopped: the video decoder does. */
  ghost function JointNext(keeps: bool, j: Joint, step: JointStep): Joint {
    if !JointEnabled(j, step) then j
    else match step
      case Shell(step) => ShellStep(keeps, j, step)
      case NoteCurrent => j.(owed := j.owed + [j.shell.handler.job.entry.work.index], unlisted := false)
      case AnswerOldest =>
        if IsCurrent(j.shell, j.owed[0]) then j.(owed := j.owed[1..])
        else j.(shell := Next(j.shell, FinishTake(j.owed[0])), owed := j.owed[1..])
      case Complete(processed) => j.(shell := Next(j.shell, ProcessDone(processed)))
      case ForgetAll => j.(owed := [])
      case Stray(index) => j.(shell := Next(j.shell, FinishTake(index)))
  }

  ghost function ShellStep(keeps: bool, j: Joint, step: Step): Joint
    requires Enabled(j.shell, step)
  {
    var shell := Apply(j.shell, step);
    if (step.BeginDecoding? || step.PoolFails?) && j.shell.handler.job.flushFirst then
      Joint(shell, [], true, false)
    else if step.BeginDecoding? then j.(shell := shell, unlisted := true)
    else if step.ClearQueue? then j.(shell := shell, tainted := true)
    else if step.HandleMessage? && j.shell.messages[0] in {StopMsg, ResetMsg} && !keeps then
      j.(shell := shell, owed := [], tainted := false)
    else j.(shell := shell)
  }

  ghost function JointRun(keeps: bool, j: Joint, steps: seq<JointStep>): Joint
    decreases |steps|
  {
    if steps == [] then j else JointRun(keeps, JointNext(keeps, j, steps[0]), steps[1..])
  }

  predicate NoDuplicates(s: seq<nat>) {
    forall a, b :: 0 <= a < b < |s| ==> s[a] != s[b]
  }

  /** A flush has happened that the decoder has not been told of. */
  predicate FlushOwed(s: State) {
    s.q.flush || (s.handler.Popped? && s.handler.job.flushFirst)
  }

  predicate Known(s: State, index: nat) {
    index in s.q.pending || IsCurrent(s, index)
  }

  /** The list agrees with the shell. */
  predicate Coupled(j: Joint) {
    !j.tainted && !FlushOwed(j.shell) ==> forall i :: i in j.owed ==> Known(j.shell, i)
  }

  /** Works that the decoder has not seen yet, or not put on its list yet. */
  predicate Unseen(j: Joint, w: Work) {
    || WorkEntry(w) in j.shell.q.entries
    || (j.shell.handler.Popped? && j.shell.handler.job.entry == WorkEntry(w))
    || (InDecoder(j.shell) && j.unlisted && j.shell.handler.job.entry == WorkEntry(w))
  }

  /** The list has no duplicates, holds indices of accepted works only, and none that is yet unseen. */
  ghost predicate Listed(j: Joint) {
    && NoDuplicates(j.owed)
    && (forall w :: Unseen(j, w) ==> w.index !in j.owed)
    && (forall i :: i in j.owed ==> HasWork(j.shell.accepted, i))
    && DistinctIndices(j.shell.accepted)
  }

  ghost predicate HasWork(m: multiset<Work>, i: nat) {
    exists w :: w in m && w.index == i
  }

  ghost predicate Sound(j: Joint) {
    Conserved(j.shell) && GenerationsOk(j.shell) && Orderly(j.shell)
  }

  // ---------- preservation ----------

  lemma {:induction false} ShellSound(s: State, step: Step)
    requires Conserved(s) && GenerationsOk(s) && Orderly(s)
    ensures var t := Next(s, step); Conserved(t) && GenerationsOk(t) && Orderly(t)
  {
    StepConserves(s, step);
    StepGenerations(s, step);
    if Enabled(s, step) {
      if LooperStep(step) {
        LooperOrderly(s, step);
      } else {
        ClientOrderly(s, step);
      }
    }
  }

  lemma {:induction false} StepSound(keeps: bool, j: Joint, step: JointStep)
    requires Sound(j)
    ensures Sound(JointNext(keeps, j, step))
  {
    if JointEnabled(j, step) {
      match step
      case Shell(st) => ShellSound(j.shell, st);
      case AnswerOldest => ShellSound(j.shell, FinishTake(j.owed[0]));
      case Complete(processed) => ShellSound(j.shell, ProcessDone(processed));
      case Stray(index) => ShellSound(j.shell, FinishTake(index));
      case _ =>
    }
  }

  lemma {:induction false} QueuedIn(entries: seq<Entry>, w: Work)
    ensures WorkEntry(w) in entries <==> Queued(entries, w) >= 1
  {
    if entries != [] {
      QueuedIn(entries[1..], w);
      assert entries == [entries[0]] + entries[1..];
    }
  }

  /** A work in the looper's hands is not queued as well. */
  lemma {:induction false} NotQueuedToo(s: State, w: Work)
    requires Conserved(s) && HoldsJob(s.handler, w)
    ensures WorkEntry(w) !in s.q.entries && w in s.accepted
  {
    assert Held(s, w) == s.accepted[w] <= 1;
    QueuedIn(s.q.entries, w);
  }

  lemma {:induction false} QueuedIsAccepted(s: State, w: Work)
    requires Conserved(s) && WorkEntry(w) in s.q.entries
    ensures w in s.accepted
  {
    assert Held(s, w) == s.accepted[w];
    QueuedIn(s.q.entries, w);
  }

  lemma {:induction false} NoteListed(j: Joint)
    requires Sound(j) && Listed(j) && JointEnabled(j, NoteCurrent)
    ensures Listed(JointNext(true, j, NoteCurrent))
  {
    var w, j' := j.shell.handler.job.entry.work, JointNext(true, j, NoteCurrent);
    assert Unseen(j, w);
    NotQueuedToo(j.shell, w);
    forall v | Unseen(j', v)
      ensures v.index !in j'.owed
    {
      assert WorkEntry(v) in j.shell.q.entries;
      assert Unseen(j, v);
      QueuedIsAccepted(j.shell, v);
    }
    forall i | i in j'.owed
      ensures HasWork(j'.shell.accepted, i)
    {
      if i == w.index {
        assert w in j'.shell.accepted;
      }
    }
  }

  lemma {:induction false} EntriesIn(works: seq<Work>, w: Work)
    ensures WorkEntry(w) in Entries(works) ==> w in works
  {
    if works != [] {
      EntriesIn(works[1..], w);
    }
  }

  lemma {:induction false} QueueListed(keeps: bool, j: Joint, works: seq<Work>)
    requires Sound(j) && Listed(j) && JointEnabled(j, Shell(QueueWorks(works)))
    ensures Listed(JointNext(keeps, j, Shell(QueueWorks(works))))
  {
    var all, j' := j.shell.accepted + multiset(works), JointNext(keeps, j, Shell(QueueWorks(works)));
    forall w | Unseen(j', w)
      ensures w.index !in j'.owed
    {
      if !Unseen(j, w) {
        EntriesIn(works, w);
        forall v | v in j.shell.accepted
          ensures v.index != w.index
        {
          assert w in works && v in all && w in all && all[v] <= 1;
        }
      }
    }
    forall i | i in j'.owed
      ensures HasWork(j'.shell.accepted, i)
    {
      var w :| w in j.shell.accepted && w.index == i;
      assert w in all;
    }
  }

  /** Shell steps other than queueing show the decoder no work it has not been shown. */
  lemma {:induction false} ShellListed(keeps: bool, j: Joint, step: Step)
    requires Sound(j) && Listed(j) && JointEnabled(j, Shell(step)) && !step.QueueWorks?
    ensures Listed(JointNext(keeps, j, Shell(step)))
  {
    var j' := JointNext(keeps, j, Shell(step));
    StepAccepts(j.shell, step);
    forall w | Unseen(j', w)
      ensures Unseen(j, w)
    {
      ShellUnseen(keeps, j, step, w);
    }
  }

  lemma {:induction false} ShellUnseen(keeps: bool, j: Joint, step: Step, w: Work)
    requires JointEnabled(j, Shell(step)) && !step.QueueWorks?
    ensures Unseen(ShellStep(keeps, j, step), w) ==> Unseen(j, w)
  {
    if step.HandleMessage? {
      HandleUnseen(keeps, j, step, w);
    } else {
      StepShows(j.shell, step, w);
      hide Apply, Handle;
    }
  }

  /** Only `BeginDecoding` shows the decoder a work, the one that was popped. */
  lemma {:induction false} StepShows(s: State, step: Step, w: Work)
    requires Enabled(s, step) && !step.QueueWorks? && !step.HandleMessage? && !step.FinishTake?
    ensures var t := Apply(s, step);
            && (WorkEntry(w) in t.q.entries ==> WorkEntry(w) in s.q.entries)
            && (t.handler.Popped? ==> t.handler == s.handler)
            && (InDecoder(t) ==> && (if step.BeginDecoding? then s.handler.Popped? else InDecoder(s))
                                 && t.handler.job == s.handler.job)
  {
    hide Handle;
  }

  lemma {:induction false} HandleUnseen(keeps: bool, j: Joint, step: Step, w: Work)
    requires step.HandleMessage? && JointEnabled(j, Shell(step))
    ensures Unseen(ShellStep(keeps, j, step), w) ==> Unseen(j, w)
  {
    var j' := ShellStep(keeps, j, step);
    assert j'.shell == Handle(j.shell, step.initOk) && (j'.unlisted == j.unlisted);
    hide Apply, ShellStep;
    if j.shell.q.entries != [] {
      assert j.shell.q.entries == [j.shell.q.entries[0]] + j.shell.q.entries[1..];
    }
  }

  /** A shorter list next to the same queue. */
  lemma {:induction false} ShrinkListed(keeps: bool, j: Joint, step: JointStep)
    requires Listed(j) && JointEnabled(j, step) && (step.AnswerOldest? || step.Complete? || step.Stray?)
    ensures Listed(JointNext(keeps, j, step))
  {
    TakeShows(j.shell, if step.Complete? then ProcessDone(step.processed)
                       else FinishTake(if step.Stray? then step.index else j.owed[0]));
    hide Next, Enabled;
    var j' := JointNext(keeps, j, step);
    forall w | Unseen(j', w)
      ensures Unseen(j, w)
    {
    }
  }

  /** `finish` and the completion of a work leave the queue alone and show the decoder no other work. */
  lemma {:induction false} TakeShows(s: State, step: Step)
    requires s.handler.Decoding? && (step.FinishTake? || step.ProcessDone?)
    ensures var t := Next(s, step);
            && t.accepted == s.accepted && t.q.entries == s.q.entries && !t.handler.Popped?
            && (InDecoder(t) ==> t.handler.job == s.handler.job)
  {
    hide Handle, Emptied, Cleared;
  }

  lemma {:induction false} StepListed(keeps: bool, j: Joint, step: JointStep)
    requires Sound(j) && Listed(j)
    ensures Listed(JointNext(keeps, j, step))
  {
    if JointEnabled(j, step) {
      match step
      case Shell(st) =>
        if st.QueueWorks? {
          QueueListed(keeps, j, st.works);
        } else {
          ShellListed(keeps, j, st);
        }
      case NoteCurrent => NoteListed(j);
      case AnswerOldest => ShrinkListed(keeps, j, step);
      case Complete(_) => ShrinkListed(keeps, j, step);
      case Stray(_) => ShrinkListed(keeps, j, step);
      case ForgetAll =>
    }
  }

  lemma {:induction false} ShellCoupled(keeps: bool, j: Joint, step: Step)
    requires Sound(j) && Coupled(j) && JointEnabled(j, Shell(step))
    ensures Coupled(JointNext(keeps, j, Shell(step)))
  {
    hide Handle, Conserved, GenerationsOk, Orderly, WorkQueues.Complete, Pop;
    if step.HandleMessage? {
      HandleCoupled(keeps, j, step);
    } else if step.BeginDecoding? || step.PoolFails? {
      BeginCoupled(keeps, j, step);
    } else if step.Flush? || step.ClearQueue? {
      EmptyCoupled(keeps, j, step);
    } else {
      KeepsPending(j.shell, step);
      hide Apply;
    }
  }

  /** The other steps leave the map alone, and the work that the decoder is in. */
  lemma {:induction false} KeepsPending(s: State, step: Step)
    requires Enabled(s, step) && !step.HandleMessage? && !step.BeginDecoding? && !step.PoolFails?
    requires !step.Flush? && !step.ClearQueue? && !step.FinishTake? && !step.ProcessDone?
    ensures var t := Apply(s, step);
            && t.q.pending == s.q.pending && t.q.flush == s.q.flush
            && (t.handler.Popped? <==> s.handler.Popped?) && (t.handler.Popped? ==> t.handler == s.handler)
            && (InDecoder(s) && s.handler.job.entry.WorkEntry? ==> InDecoder(t) && t.handler.job == s.handler.job)
  {
    hide Handle, WorkQueues.Complete;
  }

  lemma {:induction false} BeginCoupled(keeps: bool, j: Joint, step: Step)
    requires Coupled(j) && JointEnabled(j, Shell(step)) && (step.BeginDecoding? || step.PoolFails?)
    ensures Coupled(JointNext(keeps, j, Shell(step)))
  {
    hide Handle, WorkQueues.Complete;
  }

  lemma {:induction false} EmptyCoupled(keeps: bool, j: Joint, step: Step)
    requires Coupled(j) && JointEnabled(j, Shell(step)) && (step.Flush? || step.ClearQueue?)
    ensures Coupled(JointNext(keeps, j, Shell(step)))
  {
    hide Handle, WorkQueues.Complete, PendingWorks;
  }

  lemma {:induction false} HandleCoupled(keeps: bool, j: Joint, step: Step)
    requires Coupled(j) && step.HandleMessage? && JointEnabled(j, Shell(step))
    ensures Coupled(ShellStep(keeps, j, step))
  {
    var j' := ShellStep(keeps, j, step);
    assert j'.shell == Handle(j.shell, step.initOk);
    assert j'.shell.q.pending == j.shell.q.pending;
  }

  lemma {:induction false} AnswerCoupled(keeps: bool, j: Joint)
    requires Sound(j) && Listed(j) && Coupled(j) && JointEnabled(j, AnswerOldest)
    ensures Coupled(JointNext(keeps, j, AnswerOldest))
  {
    hide Handle, WorkQueues.Complete, Emptied, Cleared, Conserved, GenerationsOk, Orderly;
    var j' := JointNext(keeps, j, AnswerOldest);
    assert j.owed == [j.owed[0]] + j.owed[1..];
    forall i | i in j'.owed && Known(j.shell, i)
      ensures Known(j'.shell, i)
    {
      assert i != j.owed[0];
    }
  }

  lemma {:induction false} CompleteCoupled(keeps: bool, j: Joint, processed: bool)
    requires Sound(j) && Coupled(j) && JointEnabled(j, Complete(processed))
    ensures Coupled(JointNext(keeps, j, Complete(processed)))
  {
    var j' := JointNext(keeps, j, Complete(processed));
    if !FlushOwed(j.shell) {
      assert j.shell.q.generation == j.shell.handler.job.generation;
      forall i | i in j.owed && Known(j.shell, i)
        ensures Known(j'.shell, i)
      {
      }
    }
  }

  lemma {:induction false} StepCoupled(keeps: bool, j: Joint, step: JointStep)
    requires Sound(j) && Listed(j) && Coupled(j)
    ensures Coupled(JointNext(keeps, j, step))
  {
    if JointEnabled(j, step) {
      match step
      case Shell(st) => ShellCoupled(keeps, j, st);
      case NoteCurrent =>
      case AnswerOldest => AnswerCoupled(keeps, j);
      case Complete(processed) => CompleteCoupled(keeps, j, processed);
      case ForgetAll =>
      case Stray(_) =>
    }
  }

  /** In every run the list and the map of pending works agree: until the decoder is told of a flush, or
      a stop has cleared the map, every index on the list is pending or the one in process. */
  lemma {:induction false} JointRunOk(keeps: bool, j: Joint, steps: seq<JointStep>)
    requires Sound(j) && Listed(j) && Coupled(j)
    ensures var t := JointRun(keeps, j, steps); Sound(t) && Listed(t) && Coupled(t)
    decreases |steps|
  {
    if steps != [] {
      StepSound(keeps, j, steps[0]);
      StepListed(keeps, j, steps[0]);
      StepCoupled(keeps, j, steps[0]);
      JointRunOk(keeps, JointNext(keeps, j, steps[0]), steps[1..]);
    }
  }

  const Start: Joint := Joint(Initial, [], true, false)

  /** A decoder that empties its list when stopped is tainted only while the stop or reset that cleared
      the map waits for it; so while the component runs the list and the map agree. */
  lemma {:induction false} StopClears(j: Joint, steps: seq<JointStep>)
    requires Sound(j) && (j.tainted ==> j.shell.life == Stopping(true) || j.shell.life == Resetting(true))
    ensures var t := JointRun(false, j, steps);
            (t.tainted ==> t.shell.life == Stopping(true) || t.shell.life == Resetting(true))
            && (t.shell.exec == Running ==> !t.tainted)
    decreases |steps|
  {
    if steps != [] {
      StepSound(false, j, steps[0]);
      StepClears(j, steps[0]);
      StopClears(JointNext(false, j, steps[0]), steps[1..]);
    }
  }

  lemma {:induction false} StepClears(j: Joint, step: JointStep)
    requires Sound(j) && (j.tainted ==> j.shell.life == Stopping(true) || j.shell.life == Resetting(true))
    ensures var t := JointNext(false, j, step);
            t.tainted ==> t.shell.life == Stopping(true) || t.shell.life == Resetting(true)
  {
    hide Handle, WorkQueues.Complete, Conserved, GenerationsOk;
    if JointEnabled(j, step) && step.Shell? {
      if step.step.HandleMessage? {
        HandleClears(j, step.step);
      } else if j.tainted && !step.step.ClearQueue? {
        ShellLife(j.shell, step.step);
      }
    }
  }

  lemma {:induction false} HandleClears(j: Joint, step: Step)
    requires Orderly(j.shell) && step.HandleMessage? && Enabled(j.shell, step)
    requires j.tainted ==> j.shell.life == Stopping(true) || j.shell.life == Resetting(true)
    ensures var t := ShellStep(false, j, step);
            t.tainted ==> t.shell.life == Stopping(true) || t.shell.life == Resetting(true)
  {
    assert j.shell.messages[0] in j.shell.messages;
  }

  lemma {:induction false} ShellLife(s: State, step: Step)
    requires Enabled(s, step) && (s.life == Stopping(true) || s.life == Resetting(true))
    requires !step.HandleMessage? && !step.ClearQueue?
    ensures Apply(s, step).life == s.life
  {
  }
}
