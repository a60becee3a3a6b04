/** No lost wakeup, and the looper comes to rest with an empty queue. */
module WorkLiveness {
  import opened WorkQueues
  import opened WorkProtocol

  /** How many messages in the looper a lifecycle call waits for. */
  function Awaited(messages: seq<Message>): nat {
    if messages == [] then 0
    else (if messages[0] in {InitMsg, StopMsg, ResetMsg} then 1 else 0) + Awaited(messages[1..])
  }

  lemma {:induction false} AwaitedAppend(messages: seq<Message>, m: Message)
    ensures Awaited(messages + [m]) == Awaited(messages) + Awaited([m])
  {
    if messages == [] {
      assert messages + [m] == [m];
    } else {
      AwaitedAppend(messages[1..], m);
      assert (messages + [m])[1..] == messages[1..] + [m];
    }
  }

  lemma {:induction false} NoneAwaited(messages: seq<Message>)
    ensures Awaited(messages) == 0 <==> InitMsg !in messages && StopMsg !in messages && ResetMsg !in messages
  {
    if messages != [] {
      NoneAwaited(messages[1..]);
      assert messages == [messages[0]] + messages[1..];
    }
  }

  /** A lifecycle call in progress determines the execution state, and only that call's message is in
      the looper; the queue is empty whenever the component is not running. */
  predicate Orderly(s: State) {
    && (s.life.Stopping? ==> s.exec == Stopped)
    && (s.life.Resetting? || s.life.Starting? ==> s.exec == Uninitialized)
    && Awaited(s.messages) <= 1
    && (InitMsg in s.messages ==> s.life == Starting)
    && (StopMsg in s.messages ==> s.life == Stopping(true))
    && (ResetMsg in s.messages ==> s.life == Resetting(true))
    && (s.exec != Running && s.life != Stopping(false) && s.life != Resetting(false) ==> s.q.entries == [])
    && (s.exec != Uninitialized ==> s.running)
  }

  function HasQueued(h: Handler): bool {
    match h
    case Idle => false
    case Popped(job) => job.hasQueued
    case Decoding(job) => job.hasQueued
    case Finishing(job, _) => job.hasQueued
    case Returning(_, hasQueued) => hasQueued
    case Reposting(hasQueued) => hasQueued
  }

  /** Someone will make the looper look at the queue again. */
  predicate Awake(s: State) {
    ProcessMsg in s.messages || s.toPost > 0 || HasQueued(s.handler)
  }

  predicate NoLostWakeup(s: State) {
    s.exec == Running && s.q.entries != [] ==> Awake(s)
  }

  lemma {:induction false} PostOrderly(s: State, s': State, m: Message)
    requires Orderly(s) && s'.messages == s.messages + [m]
    ensures Awaited(s'.messages) == Awaited(s.messages) + (if m in {InitMsg, StopMsg, ResetMsg} then 1 else 0)
  {
    AwaitedAppend(s.messages, m);
    assert Awaited([m]) == (if m in {InitMsg, StopMsg, ResetMsg} then 1 else 0) + Awaited([]);
  }

  lemma {:induction false} ClientOrderly(s: State, step: Step)
    requires Orderly(s) && Enabled(s, step) && !LooperStep(step)
    ensures Orderly(Apply(s, step))
  {
    var s' := Apply(s, step);
    NoneAwaited(s.messages);
    if step.PostProcess? {
      PostOrderly(s, s', ProcessMsg);
    } else if step.StartInit? {
      PostOrderly(s, s', InitMsg);
    } else if step.StartAgain? {
      PostOrderly(s, s', StartMsg);
    } else if step.ClearQueue? {
      PostOrderly(s, s', if s.life.Stopping? then StopMsg else ResetMsg);
    }
  }

  lemma {:induction false} HandleOrderly(s: State, initOk: bool)
    requires Orderly(s) && s.handler == Idle && s.messages != []
    ensures Orderly(Handle(s, initOk))
  {
    assert s.messages == [s.messages[0]] + s.messages[1..];
    NoneAwaited(s.messages[1..]);
  }

  lemma {:induction false} LooperOrderly(s: State, step: Step)
    requires Orderly(s) && Enabled(s, step) && LooperStep(step)
    ensures Orderly(Apply(s, step))
  {
    if step.HandleMessage? {
      HandleOrderly(s, step.initOk);
    } else if step.Repost? && s.handler.hasQueued {
      PostOrderly(s, Apply(s, step), ProcessMsg);
    }
  }

  lemma {:induction false} ClientWakes(s: State, step: Step)
    requires Orderly(s) && NoLostWakeup(s) && Enabled(s, step) && !LooperStep(step)
    ensures NoLostWakeup(Apply(s, step))
  {
  }

  lemma {:induction false} LooperWakes(s: State, step: Step)
    requires Orderly(s) && NoLostWakeup(s) && Enabled(s, step) && LooperStep(step)
    ensures NoLostWakeup(Apply(s, step))
  {
    hide Handle, Complete, Orderly;
    match step
    case HandleMessage(initOk) => HandleWakes(s, initOk);
    case ProcessDone(processed) => DoneWakes(s, processed);
    case _ =>
  }

  lemma {:induction false} HandleWakes(s: State, initOk: bool)
    requires Orderly(s) && NoLostWakeup(s) && Enabled(s, HandleMessage(initOk))
    ensures NoLostWakeup(Handle(s, initOk))
  {
    assert s.messages == [s.messages[0]] + s.messages[1..];
  }

  lemma {:induction false} DoneWakes(s: State, processed: bool)
    requires NoLostWakeup(s) && Enabled(s, ProcessDone(processed))
    ensures NoLostWakeup(Apply(s, ProcessDone(processed)))
  {
  }

  /** In every run, when the component is running and the queue is not empty, a process message is in
      the looper, or a client is about to post one, or the looper is at work and will look again. */
  lemma {:induction false} RunNeverLosesWakeup(s: State, steps: seq<Step>)
    requires Orderly(s) && NoLostWakeup(s)
    ensures Orderly(Run(s, steps)) && NoLostWakeup(Run(s, steps))
    decreases |steps|
  {
    if steps != [] {
      if Enabled(s, steps[0]) {
        if LooperStep(steps[0]) {
          LooperOrderly(s, steps[0]);
          LooperWakes(s, steps[0]);
        } else {
          ClientOrderly(s, steps[0]);
          ClientWakes(s, steps[0]);
        }
      }
      RunNeverLosesWakeup(Next(s, steps[0]), steps[1..]);
    }
  }

  // ---------- the component's own flag ----------

  /** What the looper makes of a lifecycle message: the component runs after an initialisation that succeeds and
      after a new start, is stopped after a stop, and takes nothing off the queue after a reset. */
  lemma {:induction false} MessagesObeyed(s: State, initOk: bool)
    requires Orderly(s) && s.handler == Idle && s.messages != []
    ensures var t, m := Handle(s, initOk), s.messages[0];
            && t.messages == s.messages[1..]
            && (m == InitMsg ==> t.running && t.life == NoCall && (t.exec == Running <==> initOk))
            && (m == StartMsg ==> t.running && t.exec == s.exec)
            && (m == StopMsg ==> t.exec == Stopped && t.life == NoCall && t.q == s.q)
            && (m == ResetMsg ==> !t.running && t.exec == Uninitialized && t.life == NoCall && t.q == s.q)
            && (m == ProcessMsg && !s.running ==> t.handler == Idle && t.q == s.q)
            && (m == ProcessMsg && s.running && s.q.entries != [] ==>
                  t.handler.Popped? && t.q.entries == s.q.entries[1..])
  {
    assert s.messages[0] in s.messages;
  }

  // ---------- the looper comes to rest ----------

  function Phase(h: Handler): nat {
    match h
    case Idle => 0
    case Reposting(_) => 2
    case Returning(_, _) => 3
    case Decoding(_) => 7
    case Popped(_) => 8
    case Finishing(_, _) => 8
  }

  /** How much the looper can still do on its own. */
  function Effort(s: State): nat {
    10 * |s.q.entries| + 3 * |s.q.pending| + |s.messages| + Phase(s.handler)
  }

  lemma {:induction false} MapSizes(m: map<nat, Work>, k: nat, w: Work)
    ensures k in m ==> |m - {k}| == |m| - 1
    ensures |m[k := w]| <= |m| + 1
  {
    assert m[k := w].Keys == m.Keys + {k};
    if k in m {
      assert m.Keys == (m - {k}).Keys + {k};
    }
  }

  lemma {:induction false} CompleteSize(q: Queue, w: Work, gen: nat, processed: bool)
    ensures var t := Complete(q, w, gen, processed).0; t.entries == q.entries && |t.pending| <= |q.pending| + 1
    ensures Complete(q, w, gen, processed).1.Some? ==> |Complete(q, w, gen, processed).0.pending| <= |q.pending|
  {
    MapSizes(q.pending, w.index, w);
    if w.index in q.pending {
      assert q.pending[w.index := w].Keys == q.pending.Keys;
    }
  }

  lemma {:induction false} DoneTires(s: State, processed: bool)
    requires Enabled(s, ProcessDone(processed))
    ensures Effort(Apply(s, ProcessDone(processed))) < Effort(s)
  {
    CompleteSize(s.q, s.handler.job.entry.work, s.handler.job.generation, processed);
    hide Complete;
  }

  lemma {:induction false} TakeTires(s: State, index: nat)
    requires Enabled(s, FinishTake(index))
    ensures Effort(Apply(s, FinishTake(index))) < Effort(s)
  {
    MapSizes(s.q.pending, index, s.q.pending[index]);
  }

  lemma {:induction false} HandleTires(s: State, initOk: bool)
    requires Enabled(s, HandleMessage(initOk))
    ensures Effort(Apply(s, HandleMessage(initOk))) < Effort(s)
  {
  }

  lemma {:induction false} LooperTires(s: State, step: Step)
    requires Enabled(s, step) && LooperStep(step)
    ensures Effort(Apply(s, step)) < Effort(s)
  {
    hide Handle, Complete, Take, Push, Mark, Emptied, Cleared;
    if step.ProcessDone? {
      DoneTires(s, step.processed);
    } else if step.FinishTake? {
      TakeTires(s, step.index);
    } else if step.HandleMessage? {
      HandleTires(s, step.initOk);
    } else {
      var s' := Apply(s, step);
      assert s'.q == s.q;
      assert |s'.messages| + Phase(s'.handler) < |s.messages| + Phase(s.handler);
    }
  }

  ghost predicate AllEnabled(s: State, steps: seq<Step>)
    decreases |steps|
  {
    steps != [] ==> LooperStep(steps[0]) && Enabled(s, steps[0]) && AllEnabled(Apply(s, steps[0]), steps[1..])
  }

  /** Left alone, the looper takes no more steps than its effort. */
  lemma {:induction false} LooperStops(s: State, steps: seq<Step>)
    requires AllEnabled(s, steps)
    ensures |steps| <= Effort(s)
    decreases |steps|
  {
    if steps != [] {
      LooperTires(s, steps[0]);
      LooperStops(Apply(s, steps[0]), steps[1..]);
    }
  }

  ghost predicate AtRest(s: State) {
    forall step :: LooperStep(step) ==> !Enabled(s, step)
  }

  /** A step the looper can take when it is in the middle of something or has a message. */
  function NextMove(s: State): (step: Step) {
    match s.handler
    case Idle => HandleMessage(true)
    case Popped(_) => BeginDecoding
    case Decoding(job) => if job.entry.WorkEntry? then ProcessDone(true) else DrainDone
    case Finishing(_, _) => FinishReport
    case Returning(_, _) => ReturnWork
    case Reposting(_) => Repost
  }

  lemma {:induction false} BusyLooperMoves(s: State)
    requires s.handler != Idle || s.messages != []
    ensures LooperStep(NextMove(s)) && Enabled(s, NextMove(s))
  {
  }

  /** When the looper is at rest and no client is about to post, nothing is left in the queue, unless a
      stop or reset is just about to clear it. */
  lemma {:induction false} RestsOnlyWhenDone(s: State)
    requires Orderly(s) && NoLostWakeup(s) && AtRest(s) && s.toPost == 0
    ensures s.handler == Idle && s.messages == []
    ensures s.life != Stopping(false) && s.life != Resetting(false) ==> s.q.entries == []
  {
    if s.handler != Idle || s.messages != [] {
      BusyLooperMoves(s);
    }
  }
}
