/** The AAC decoder on the shell: its list of undone works, `mBuffersInfo`, and the map of pending works
    agree in every run. The decoder is that of `AacModel` and `AacAccounting`, for every library, block pool
    and parameter store; its calls are spread over the steps of the shell as `DecoderCalls` says. */
module AacCoupling {
  import opened Options
  import opened WorkQueues
  import opened WorkProtocol
  import opened DecoderCoupling
  import opened DecoderCalls
  import AacModel
  import AacDelayLine
  import AacLoops
  import AacAccounting
  import WorkFlush

  /** `call` is what the decoder has still to do in the call it is in; `left` are the works left behind since
      the last flush or stop: those that a drain dropped, and those that were pending when a stop emptied
      the list. */
  datatype AacSystem = AacSystem(shell: State, core: AacModel.Core, call: Call, cleared: bool, left: set<nat>)

  /** A drain mode that the decoder ignores, or one that drains it, to the end of the stream or not. */
  datatype DrainMode = Ignored | Component(eos: bool)

  datatype AacStep =
    | ShellStep(step: Step)
    | ProcessCall(job: AacAccounting.Job)
    | DrainCall(mode: DrainMode)
    | AnswerNext
    | Return

  /** The decoder's own list. */
  function List(c: AacModel.Core): seq<nat> { AacDelayLine.Indices(c.infos) }

  function Since(before: seq<nat>, after: seq<nat>): seq<nat> {
    if |before| <= |after| then after[|before|..] else []
  }

  /** The works answered between two states of the decoder. */
  function NewAnswers(a: AacModel.Core, b: AacModel.Core): seq<nat> {
    Since(AacDelayLine.Answered(a.answers), AacDelayLine.Answered(b.answers))
  }

  /** The looper is in the decoder with the work that `job` describes, and the call comes to an end. */
  ghost predicate MayProcess(w: AacModel.World, s: AacSystem, job: AacAccounting.Job) {
    && MayBegin(s.shell, s.call) && s.shell.handler.job.entry.WorkEntry?
    && s.shell.handler.job.entry.work.index == job.index
    && |s.core.line| <= w.ringSize && AacLoops.Ends(w, job.adts, job.input, AacLoops.Start(s.core, job.input))
  }

  predicate MayDrain(s: AacSystem) { MayBegin(s.shell, s.call) && s.shell.handler.job.entry.DrainEntry? }

  ghost function Processing(w: AacModel.World, s: AacSystem, job: AacAccounting.Job): AacSystem
    requires MayProcess(w, s, job)
  {
    var out := AacAccounting.Process(w, s.core, job);
    s.(core := out.core, call := During(NewAnswers(s.core, out.core), [], None, out.processed))
  }

  /** A drain to the end of the stream empties the list, whether or not its works were answered. */
  function Draining(w: AacModel.World, s: AacSystem, mode: DrainMode): AacSystem {
    match mode
    case Ignored => s.(call := During([], [], None, false))
    case Component(eos) =>
      var core := AacAccounting.Renoted(AacModel.Drain(w, s.core, eos, None));
      var todo := NewAnswers(s.core, core);
      var lost := if eos then Since(todo, List(s.core)) else [];
      s.(core := core, call := During(todo, lost, None, false), left := s.left + (set i | i in lost))
  }

  /** The decoder is told of flushes and stops between its calls. */
  ghost function Told(w: AacModel.World, s: State, c: AacModel.Core, step: Step): AacModel.Core {
    if TellsFlush(s, step) then AacModel.Flush(w, c) else if TellsStop(s, step) then AacAccounting.Stop(w, c) else c
  }

  function LeftBehind(s: AacSystem, step: Step): set<nat> {
    if step.Flush? || step.ClearQueue? then {}
    else if TellsStop(s.shell, step) then s.left + s.shell.q.pending.Keys
    else s.left
  }

  ghost function Next(w: AacModel.World, s: AacSystem, step: AacStep): AacSystem {
    match step
    case ShellStep(st) =>
      if !ShellEnabled(s.shell, st) then s
      else AacSystem(Apply(s.shell, st), Told(w, s.shell, s.core, st), s.call,
                  Clearing(s.cleared, st) && !TellsFlush(s.shell, st) && !TellsStop(s.shell, st),
                  LeftBehind(s, st))
    case ProcessCall(job) => if MayProcess(w, s, job) then Processing(w, s, job) else s
    case DrainCall(mode) => if MayDrain(s) then Draining(w, s, mode) else s
    case AnswerNext =>
      if Answering(s.shell, s.call) then s.(shell := AnswerShell(s.shell, s.call), call := AnswerCall(s.call)) else s
    case Return =>
      if DecoderCalls.Answered(s.shell, s.call) then s.(shell := ReturnShell(s.shell, s.call), call := Before) else s
  }

  ghost function Run(w: AacModel.World, s: AacSystem, steps: seq<AacStep>): AacSystem
    decreases |steps|
  {
    if steps == [] then s else Run(w, Next(w, s, steps[0]), steps[1..])
  }

  /** What the coupling sees of the system. */
  function View(s: AacSystem): System {
    System(s.shell, List(s.core), s.call, s.cleared)
  }

  // ---------- a call takes works from the front of the list ----------

  lemma {:induction false} FinishOlderGrows(c: AacModel.Core)
    ensures c.answers <= AacModel.FinishOlder(c).answers
    decreases |c.infos|
  {
    if |c.infos| > 1 {
      var first := AacDelayLine.Answer(c.infos[0].index, [], AacDelayLine.Fine);
      FinishOlderGrows(c.(infos := c.infos[1..], answers := c.answers + [first]));
    }
  }

  lemma {:induction false} DrainGrows(w: AacModel.World, c: AacModel.Core, eos: bool, work: Option<nat>)
    ensures c.answers <= AacModel.Drain(w, c, eos, work).answers
  {
    if eos {
      FinishOlderGrows(AacModel.DrainRing(w, AacModel.DrainDecoder(w, c), eos));
    }
  }

  lemma {:induction false} DeliverGrows(w: AacModel.World, c: AacModel.Core, job: AacAccounting.Job, sizes: seq<int>)
    requires |c.line| <= w.ringSize
    ensures c.answers <= AacAccounting.AfterDecoding(w, c, job, sizes).core.answers
  {
    var bigger := AacAccounting.PortDelay(c) > c.portDelay;
    var c' := if bigger then c.(portDelay := AacAccounting.PortDelay(c), clock := c.clock + 1) else c;
    DrainGrows(w, AacAccounting.Note(c', job.index, sizes), true, Some(job.index));
    hide AacModel.Drain, AacAccounting.PortDelay;
  }

  /** Answers are only added. */
  lemma {:induction false} ProcessGrows(w: AacModel.World, c: AacModel.Core, job: AacAccounting.Job)
    requires AacAccounting.Ledger(w, c) && AacLoops.Ends(w, job.adts, job.input, AacLoops.Start(c, job.input))
    ensures c.answers <= AacAccounting.Process(w, c, job).core.answers
  {
    if !c.error && !(job.codecConfig && job.input != []) {
      var k := AacAccounting.Walked(w, c, job);
      AacAccounting.WalkKeeps(w, c, job);
      DeliverGrows(w, k.core, job, k.sizes);
      hide AacAccounting.Walked, AacAccounting.AfterDecoding;
    }
  }

  lemma {:induction false} AnsweredGrows(a: AacModel.Core, b: AacModel.Core)
    requires a.answers <= b.answers
    ensures AacDelayLine.Answered(a.answers) + NewAnswers(a, b) == AacDelayLine.Answered(b.answers)
  {
    AacDelayLine.AnsweredAppend(a.answers, b.answers[|a.answers|..]);
    assert a.answers + b.answers[|a.answers|..] == b.answers;
  }

  lemma {:induction false} Cancel(done: seq<nat>, list: seq<nat>, todo: seq<nat>, rest: seq<nat>)
    requires done + list == (done + todo) + rest
    ensures list == todo + rest
  {
    assert list == (done + list)[|done|..];
    assert todo + rest == ((done + todo) + rest)[|done|..];
  }

  /** A call of `process` notes its work on the list or not, answers works from the front of the list, and
      leaves its work unprocessed exactly if it is still on the list. */
  lemma {:induction false} ProcessTakes(w: AacModel.World, c: AacModel.Core, job: AacAccounting.Job)
    requires AacAccounting.Ledger(w, c) && AacAccounting.Callable(w, c, job)
    ensures var out := AacAccounting.Process(w, c, job);
            && AacAccounting.Ledger(w, out.core)
            && (out.processed <==> job.index !in List(out.core))
            && (|| List(c) == NewAnswers(c, out.core) + List(out.core)
                || List(c) + [job.index] == NewAnswers(c, out.core) + List(out.core))
  {
    var out := AacAccounting.Process(w, c, job);
    AacAccounting.ProcessKeeps(w, c, job);
    ProcessGrows(w, c, job);
    AnsweredGrows(c, out.core);
    hide AacAccounting.Process;
    var done, list, todo, rest := AacDelayLine.Answered(c.answers), List(c), NewAnswers(c, out.core), List(out.core);
    assert done + list == c.log.noted && (done + todo) + rest == out.core.log.noted;
    hide AacAccounting.Ledger, AacDelayLine.Answered, AacDelayLine.Indices, NewAnswers;
    if out.core.log.noted == c.log.noted {
      Cancel(done, list, todo, rest);
    } else {
      assert done + (list + [job.index]) == (done + list) + [job.index];
      Cancel(done, list + [job.index], todo, rest);
    }
  }

  lemma {:induction false} ProcessLawful(w: AacModel.World, s: AacSystem, job: AacAccounting.Job)
    requires AacAccounting.Ledger(w, s.core) && MayProcess(w, s, job) && job.index !in List(s.core)
    ensures AacAccounting.Ledger(w, Processing(w, s, job).core)
    ensures var t := Processing(w, s, job); Lawful(View(s), Begin(List(t.core), t.call))
  {
    ProcessTakes(w, s.core, job);
    hide AacAccounting.Process, AacAccounting.Ledger, NewAnswers, List, AacLoops.Ends;
    assert List(s.core) + [] == List(s.core);
  }

  /** A drain that does not end the stream answers works from the front of the list. */
  lemma {:induction false} DrainTakes(w: AacModel.World, c: AacModel.Core)
    requires AacAccounting.Ledger(w, c)
    ensures var r := AacModel.Drain(w, c, false, None); List(c) == NewAnswers(c, r) + List(r)
  {
    var r := AacModel.Drain(w, c, false, None);
    DrainGrows(w, c, false, None);
    AnsweredGrows(c, r);
    AacAccounting.DrainDecoderExact(w, c);
    AacAccounting.DrainRingKeeps(w, AacModel.DrainDecoder(w, c), false);
    Cancel(AacDelayLine.Answered(c.answers), List(c), NewAnswers(c, r), List(r));
  }

  lemma {:induction false} DrainLawful(w: AacModel.World, s: AacSystem, mode: DrainMode)
    requires AacAccounting.Ledger(w, s.core) && MayDrain(s)
    ensures AacAccounting.Ledger(w, Draining(w, s, mode).core)
    ensures var t := Draining(w, s, mode); Lawful(View(s), Begin(List(t.core), t.call))
  {
    if mode.Component? {
      AacAccounting.StepKeeps(w, s.core, AacAccounting.DrainCall(mode.eos));
      if mode.eos {
        EosTakes(w, s.core);
      } else {
        DrainTakes(w, s.core);
      }
    }
    DrainingLawful(w, s, mode);
  }

  lemma {:induction false} DrainingLawful(w: AacModel.World, s: AacSystem, mode: DrainMode)
    requires MayDrain(s)
    requires mode == Component(true) ==>
               var r := AacModel.Drain(w, s.core, true, None); List(r) == [] && NewAnswers(s.core, r) <= List(s.core)
    requires mode == Component(false) ==>
               var r := AacModel.Drain(w, s.core, false, None); List(s.core) == NewAnswers(s.core, r) + List(r)
    ensures var t := Draining(w, s, mode); Lawful(View(s), Begin(List(t.core), t.call))
  {
    hide AacModel.Drain;
    var list := List(s.core);
    if mode.Ignored? {
      assert [] + [] + list == list;
    } else {
      var r := AacModel.Drain(w, s.core, mode.eos, None);
      var todo := NewAnswers(s.core, r);
      assert NewAnswers(s.core, AacAccounting.Renoted(r)) == todo && List(AacAccounting.Renoted(r)) == List(r);
      assert mode.eos ==> todo + Since(todo, list) + [] == list;
      assert todo + [] + List(r) == todo + List(r);
    }
  }

  /** The works answered by a drain to the end of the stream are the first on the list; none is left. */
  lemma {:induction false} EosTakes(w: AacModel.World, c: AacModel.Core)
    requires AacAccounting.Ledger(w, c)
    ensures var r := AacModel.Drain(w, c, true, None); List(r) == [] && NewAnswers(c, r) <= List(c)
  {
    var r := AacModel.Drain(w, c, true, None);
    var done, list, todo := AacDelayLine.Answered(c.answers), List(c), NewAnswers(c, r);
    DrainGrows(w, c, true, None);
    AnsweredGrows(c, r);
    AacAccounting.EosWithoutWork(w, c);
    hide AacModel.Drain;
    assert done + list == c.log.noted;
    if AacDelayLine.Answered(r.answers) == c.log.noted {
      assert (done + todo) + [] == done + todo;
      Cancel(done, list, todo, []);
    } else {
      var left := AacModel.LineDrain(w, AacModel.DrainDecoder(w, c), true).rest;
      Cancel(done, list, todo, [left[|left| - 1].index]);
    }
  }

  // ---------- every step is a run of joint moves ----------

  ghost function Trace(w: AacModel.World, s: AacSystem, step: AacStep): seq<JointStep> {
    var t := Next(w, s, step);
    match step
    case ShellStep(st) => DecoderCalls.Trace(View(s), ShellMove(st))
    case ProcessCall(job) =>
      if MayProcess(w, s, job) then DecoderCalls.Trace(View(s), Begin(List(t.core), t.call)) else []
    case DrainCall(_) => if MayDrain(s) then DecoderCalls.Trace(View(s), Begin(List(t.core), t.call)) else []
    case AnswerNext => DecoderCalls.Trace(View(s), DecoderCalls.AnswerNext)
    case Return => DecoderCalls.Trace(View(s), DecoderCalls.Return)
  }

  lemma {:induction false} ToldKeeps(w: AacModel.World, s: State, c: AacModel.Core, st: Step)
    requires AacAccounting.Ledger(w, c)
    ensures var r := Told(w, s, c, st);
            AacAccounting.Ledger(w, r) && List(r) == if TellsFlush(s, st) || TellsStop(s, st) then [] else List(c)
  {
    if TellsFlush(s, st) {
      AacAccounting.StepKeeps(w, c, AacAccounting.FlushCall);
    } else if TellsStop(s, st) {
      AacAccounting.StepKeeps(w, c, AacAccounting.StopCall);
    }
  }

  lemma {:induction false} ShellInStep(w: AacModel.World, s: AacSystem, j: Joint, st: Step)
    requires AacAccounting.Ledger(w, s.core) && InStep(false, View(s), j)
    ensures var t := Next(w, s, ShellStep(st));
            AacAccounting.Ledger(w, t.core) && InStep(false, View(t), JointRun(false, j, Trace(w, s, ShellStep(st))))
  {
    MoveKeepsStep(false, View(s), j, ShellMove(st));
    hide InStep, JointRun, AacAccounting.Ledger, Told, ShellEnabled, Apply;
    ToldKeeps(w, s.shell, s.core, st);
    if ShellEnabled(s.shell, st) {
      assert View(Next(w, s, ShellStep(st))) == MoveNext(false, View(s), ShellMove(st));
    }
  }

  lemma {:induction false} CallInStep(w: AacModel.World, s: AacSystem, j: Joint, step: AacStep)
    requires AacAccounting.Ledger(w, s.core) && InStep(false, View(s), j) && (step.ProcessCall? || step.DrainCall?)
    ensures var t := Next(w, s, step);
            AacAccounting.Ledger(w, t.core) && InStep(false, View(t), JointRun(false, j, Trace(w, s, step)))
  {
    hide InStep, JointRun, AacAccounting.Ledger, AacAccounting.Process, AacModel.Drain, AacLoops.Ends;
    var t := Next(w, s, step);
    NoMoves(j);
    if step.ProcessCall? && MayProcess(w, s, step.job) {
      CurrentIsNew(false, View(s), j);
      ProcessLawful(w, s, step.job);
      MoveKeepsStep(false, View(s), j, Begin(List(t.core), t.call));
    } else if step.DrainCall? && MayDrain(s) {
      DrainLawful(w, s, step.mode);
      MoveKeepsStep(false, View(s), j, Begin(List(t.core), t.call));
    }
  }

  lemma {:induction false} NoMoves(j: Joint)
    ensures JointRun(false, j, []) == j
  {
  }

  /** A step of the system - a whole call of `process` or `drain` among them - does to shell and list what
      a run of the joint moves does. */
  lemma {:induction false} StepInStep(w: AacModel.World, s: AacSystem, j: Joint, step: AacStep)
    requires AacAccounting.Ledger(w, s.core) && InStep(false, View(s), j)
    ensures var t := Next(w, s, step);
            AacAccounting.Ledger(w, t.core) && InStep(false, View(t), JointRun(false, j, Trace(w, s, step)))
  {
    hide InStep, JointRun, AacAccounting.Ledger, AnswerShell, ReturnShell, Answering, DecoderCalls.Answered;
    NoMoves(j);
    match step
    case ShellStep(st) => ShellInStep(w, s, j, st);
    case ProcessCall(_) => CallInStep(w, s, j, step);
    case DrainCall(_) => CallInStep(w, s, j, step);
    case AnswerNext =>
      MoveKeepsStep(false, View(s), j, DecoderCalls.AnswerNext);
    case Return =>
      MoveKeepsStep(false, View(s), j, DecoderCalls.Return);
  }

  // ---------- every run ----------

  ghost function RunTrace(w: AacModel.World, s: AacSystem, steps: seq<AacStep>): seq<JointStep>
    decreases |steps|
  {
    if steps == [] then [] else Trace(w, s, steps[0]) + RunTrace(w, Next(w, s, steps[0]), steps[1..])
  }

  /** The AAC decoder never calls `finish` for an index that was not on its list. */
  predicate NeverStrays(s: AacSystem) { s.call.During? ==> s.call.stray.None? }

  lemma {:induction false} StepNeverStrays(w: AacModel.World, s: AacSystem, step: AacStep)
    requires NeverStrays(s)
    ensures NeverStrays(Next(w, s, step))
  {
  }

  lemma {:induction false} RunInStep(w: AacModel.World, s: AacSystem, j: Joint, steps: seq<AacStep>)
    requires AacAccounting.Ledger(w, s.core) && InStep(false, View(s), j) && NeverStrays(s)
    ensures var t := Run(w, s, steps);
            && AacAccounting.Ledger(w, t.core) && NeverStrays(t)
            && InStep(false, View(t), JointRun(false, j, RunTrace(w, s, steps)))
    decreases |steps|
  {
    hide InStep, AacAccounting.Ledger, NeverStrays, Next, Trace, View, JointRun;
    if steps == [] {
      NoMoves(j);
    } else {
      var s', trace := Next(w, s, steps[0]), Trace(w, s, steps[0]);
      StepInStep(w, s, j, steps[0]);
      StepNeverStrays(w, s, steps[0]);
      RunInStep(w, s', JointRun(false, j, trace), steps[1..]);
      JointRunAdd(false, j, trace, RunTrace(w, s', steps[1..]));
    }
  }

  /** A decoder that has been given nothing yet, on a shell that has not been started. */
  function Fresh(c: AacModel.Core): AacSystem { AacSystem(Initial, c, Before, false, {}) }

  lemma {:induction false} EveryRunInStep(w: AacModel.World, c: AacModel.Core, steps: seq<AacStep>)
    requires AacAccounting.Ledger(w, c) && c.infos == []
    ensures var t := Run(w, Fresh(c), steps);
            InStep(false, View(t), JointRun(false, Start, RunTrace(w, Fresh(c), steps))) && NeverStrays(t)
  {
    StartInStep(false);
    assert View(Fresh(c)) == DecoderCalls.System(Initial, [], Before, false);
    RunInStep(w, Fresh(c), Start, steps);
  }

  /** In every run, for every library: no accepted work is lost, the decoder's list has no duplicates, and
      while the component runs, the looper is idle and no flush waits to be passed on, each index on the
      list is that of a pending work. */
  lemma {:induction false} ListMeetsMap(w: AacModel.World, c: AacModel.Core, steps: seq<AacStep>)
    requires AacAccounting.Ledger(w, c) && c.infos == []
    ensures var t := Run(w, Fresh(c), steps);
            && Conserved(t.shell) && NoDuplicates(List(t.core))
            && (t.shell.exec == Running && t.shell.handler == Idle && !t.shell.q.flush ==>
                  forall i :: i in List(t.core) ==> i in t.shell.q.pending)
  {
    EveryRunInStep(w, c, steps);
    var t := Run(w, Fresh(c), steps);
    ListIsPending(false, View(t), JointRun(false, Start, RunTrace(w, Fresh(c), steps)));
  }

  /** In every run, while the component runs and no flush waits to be passed on, every `finish` of the
      decoder finds its work pending. */
  lemma {:induction false} FinishFindsItsWork(w: AacModel.World, c: AacModel.Core, steps: seq<AacStep>)
    requires AacAccounting.Ledger(w, c) && c.infos == []
    ensures var t := Run(w, Fresh(c), steps);
            (t.shell.exec == Running && !t.shell.q.flush && Answering(t.shell, t.call)) ==>
              NextIndex(t.call) in t.shell.q.pending || IsCurrent(t.shell, NextIndex(t.call))
  {
    EveryRunInStep(w, c, steps);
    var t := Run(w, Fresh(c), steps);
    if Answering(t.shell, t.call) {
      AnswerIsPending(false, View(t), JointRun(false, Start, RunTrace(w, Fresh(c), steps)));
    }
  }

  // ---------- the map meets the list ----------

  /** Every pending work is on the list or still to be answered, or was left behind. Until the decoder is
      told of a flush nothing is pending. */
  predicate Kept(s: AacSystem) {
    && (FlushOwed(s.shell) ==> s.shell.q.pending == map[])
    && (forall k :: k in s.shell.q.pending ==> k in Owed(View(s)) || k in s.left)
    && (s.shell.q.flush && HasJob(s.shell.handler) ==> s.shell.handler.job.generation < s.shell.q.generation)
    && (s.call.During? ==> CallKept(s))
  }

  predicate HasJob(h: Handler) { h.Popped? || h.Decoding? || h.Finishing? }

  predicate CallKept(s: AacSystem)
    requires s.call.During?
  {
    && InDecoder(s.shell)
    && (forall k :: k in s.call.lost && k in s.shell.q.pending ==> k in s.left)
    && (s.shell.handler.job.entry.WorkEntry? && !s.call.processed ==>
          s.shell.handler.job.entry.work.index in List(s.core))
  }

  lemma {:induction false} CurrentNotPending(s: State, w: Work)
    requires Conserved(s) && DistinctIndices(s.accepted) && WorkFlush.HoldsJob(s.handler, w)
    ensures w.index !in s.q.pending
  {
    assert Held(s, w) == s.accepted[w];
    assert w.index in s.q.pending ==> Held(s, s.q.pending[w.index]) == s.accepted[s.q.pending[w.index]];
    assert w in s.accepted;
  }

  /** What a step of the shell outside the decoder does to the map, and to the flush that is waiting. */
  lemma {:induction false} OutsideShell(s: State, st: Step)
    requires ShellEnabled(s, st) && !InDecoder(s) && WorkFlush.GenerationsOk(s)
    requires s.q.flush && HasJob(s.handler) ==> s.handler.job.generation < s.q.generation
    ensures var t := Apply(s, st);
            && (t.q.pending == if st.Flush? || st.ClearQueue? then map[] else s.q.pending)
            && (FlushOwed(t) ==> st.Flush? || FlushOwed(s))
            && (t.q.flush && HasJob(t.handler) ==> t.handler.job.generation < t.q.generation)
  {
    hide Handle, WorkQueues.Complete;
    if st.HandleMessage? {
      HandleShell(s, st.initOk);
    }
  }

  lemma {:induction false} HandleShell(s: State, initOk: bool)
    requires Enabled(s, HandleMessage(initOk)) && WorkFlush.GenerationsOk(s)
    ensures var t := Handle(s, initOk);
            && t.q.pending == s.q.pending && (FlushOwed(t) ==> FlushOwed(s))
            && (t.q.flush && HasJob(t.handler) ==> t.handler.job.generation < t.q.generation)
  {
  }

  lemma {:induction false} OutsideKept(w: AacModel.World, s: AacSystem, st: Step)
    requires Kept(s) && ShellEnabled(s.shell, st) && !InDecoder(s.shell) && s.call.Before?
    requires WorkFlush.GenerationsOk(s.shell)
    requires var c := Told(w, s.shell, s.core, st);
             List(c) == if TellsFlush(s.shell, st) || TellsStop(s.shell, st) then [] else List(s.core)
    ensures Kept(Next(w, s, ShellStep(st)))
  {
    OutsideShell(s.shell, st);
    hide Told, List, Apply, ShellEnabled;
  }

  /** Steps of clients, and the report of a finished work, while it is. */
  lemma {:induction false} InsideKept(w: AacModel.World, s: AacSystem, st: Step)
    requires Kept(s) && ShellEnabled(s.shell, st) && InDecoder(s.shell) && WorkFlush.GenerationsOk(s.shell)
    ensures Kept(Next(w, s, ShellStep(st)))
  {
    DecoderStays(s.shell, st);
    InsideShell(s.shell, st);
    hide List, Apply, ShellEnabled;
    var t := Next(w, s, ShellStep(st));
    assert t.core == s.core && t.call == s.call;
  }

  lemma {:induction false} InsideShell(s: State, st: Step)
    requires ShellEnabled(s, st) && InDecoder(s)
    ensures var t := Apply(s, st);
            && t.q.pending == (if st.Flush? || st.ClearQueue? then map[] else s.q.pending)
            && t.q.flush == (st.Flush? || s.q.flush)
            && t.q.generation == s.q.generation + (if st.Flush? then 1 else 0)
  {
    hide Handle, WorkQueues.Complete;
  }

  lemma {:induction false} ShellKept(w: AacModel.World, s: AacSystem, j: Joint, st: Step)
    requires Kept(s) && InStep(false, View(s), j) && AacAccounting.Ledger(w, s.core)
    ensures Kept(Next(w, s, ShellStep(st)))
  {
    if ShellEnabled(s.shell, st) {
      ToldKeeps(w, s.shell, s.core, st);
      assert WorkFlush.GenerationsOk(s.shell);
      hide InStep, AacAccounting.Ledger, Told, List, Kept, ShellEnabled;
      if InDecoder(s.shell) {
        InsideKept(w, s, st);
      } else {
        assert s.call.Before? by {
          BeforeOutside(s, j);
        }
        OutsideKept(w, s, st);
      }
    }
  }

  lemma {:induction false} BeforeOutside(s: AacSystem, j: Joint)
    requires InStep(false, View(s), j) && !InDecoder(s.shell)
    ensures s.call.Before?
  {
  }

  /** A call changes the map not at all, and what it takes off the list it has still to answer or has left
      behind. */
  lemma {:induction false} CallKeeps(w: AacModel.World, s: AacSystem, j: Joint, step: AacStep)
    requires Kept(s) && InStep(false, View(s), j) && AacAccounting.Ledger(w, s.core)
    requires step.ProcessCall? || step.DrainCall?
    ensures Kept(Next(w, s, step))
  {
    if step.ProcessCall? && MayProcess(w, s, step.job) {
      CurrentIsNew(false, View(s), j);
      ProcessTakes(w, s.core, step.job);
      ProcessKept(w, s, step.job);
    } else if step.DrainCall? && MayDrain(s) {
      DrainLawful(w, s, step.mode);
      DrainKept(w, s, step.mode);
    }
  }

  lemma {:induction false} ProcessKept(w: AacModel.World, s: AacSystem, job: AacAccounting.Job)
    requires Kept(s) && MayProcess(w, s, job)
    requires var out := AacAccounting.Process(w, s.core, job);
             && (out.processed <==> job.index !in List(out.core))
             && (|| List(s.core) == NewAnswers(s.core, out.core) + List(out.core)
                 || List(s.core) + [job.index] == NewAnswers(s.core, out.core) + List(out.core))
    ensures Kept(Processing(w, s, job))
  {
    hide AacAccounting.Process, List, NewAnswers;
    var t := Processing(w, s, job);
    assert forall k :: k in List(s.core) ==> k in t.call.todo + List(t.core);
    assert Owed(View(t)) == t.call.todo + [] + List(t.core);
  }

  lemma {:induction false} DrainKept(w: AacModel.World, s: AacSystem, mode: DrainMode)
    requires Kept(s) && MayDrain(s)
    requires var t := Draining(w, s, mode); Lawful(View(s), Begin(List(t.core), t.call))
    ensures Kept(Draining(w, s, mode))
  {
    var t := Draining(w, s, mode);
    assert t.shell == s.shell && t.call.During? && (forall i :: i in t.call.lost ==> i in t.left) && s.left <= t.left;
    hide List, Draining;
    assert List(s.core) == Owed(View(t));
  }

  /** An answer takes its work out of the map, if it is there, and leaves the rest of the shell alone. */
  lemma {:induction false} AnswerTakes(s: State, call: Call)
    requires Conserved(s) && DistinctIndices(s.accepted) && Answering(s, call)
    ensures var t := AnswerShell(s, call);
            && t.q == s.q.(pending := s.q.pending - {NextIndex(call)})
            && InDecoder(t) && t.handler.job == s.handler.job
  {
    var i := NextIndex(call);
    if IsCurrent(s, i) {
      CurrentNotPending(s, s.handler.job.entry.work);
      assert s.q.pending - {i} == s.q.pending;
    } else if i !in s.q.pending {
      assert s.q.pending - {i} == s.q.pending;
    }
  }

  lemma {:induction false} TakenOff(pending: map<nat, Work>, i: nat, rest: seq<nat>, left: set<nat>)
    requires forall k :: k in pending ==> k in [i] + rest || k in left
    ensures forall k :: k in pending - {i} ==> k in rest || k in left
    ensures pending == map[] ==> pending - {i} == map[]
  {
  }

  lemma {:induction false} OwedFront(call: Call, list: seq<nat>)
    requires call.During? && call.todo != []
    ensures call.todo + call.lost + list == [call.todo[0]] + (call.todo[1..] + call.lost + list)
  {
  }

  lemma {:induction false} AnswerKept(w: AacModel.World, s: AacSystem, j: Joint)
    requires Kept(s) && InStep(false, View(s), j) && NeverStrays(s)
    ensures Kept(Next(w, s, AacStep.AnswerNext))
  {
    if Answering(s.shell, s.call) {
      AnswerTakes(s.shell, s.call);
      hide InStep, List, AnswerShell, Apply, Kept;
      TakenKept(s, AnswerShell(s.shell, s.call));
    }
  }

  lemma {:induction false} TakenKept(s: AacSystem, t: State)
    requires Kept(s) && s.call.During? && s.call.todo != []
    requires t.q == s.shell.q.(pending := s.shell.q.pending - {s.call.todo[0]})
    requires InDecoder(t) && t.handler.job == s.shell.handler.job
    ensures Kept(s.(shell := t, call := s.call.(todo := s.call.todo[1..])))
  {
    hide List;
    OwedFront(s.call, List(s.core));
    var rest := s.call.todo[1..] + s.call.lost + List(s.core);
    TakenOff(s.shell.q.pending, s.call.todo[0], rest, s.left);
  }

  /** A return parks the current work at most, and that only if no flush has come since it was popped. */
  lemma {:induction false} ReturnParks(s: State, call: Call)
    requires DecoderCalls.Answered(s, call) && (s.q.flush ==> s.handler.job.generation < s.q.generation)
    ensures var t := ReturnShell(s, call);
            && !InDecoder(t) && !HasJob(t.handler) && t.q.flush == s.q.flush
            && (t.q.pending == s.q.pending
                || (s.handler.job.entry.WorkEntry? && !call.processed && !s.q.flush
                    && var v := s.handler.job.entry.work; t.q.pending == s.q.pending[v.index := v]))
  {
  }

  lemma {:induction false} ReturnKept(w: AacModel.World, s: AacSystem)
    requires Kept(s)
    ensures Kept(Next(w, s, AacStep.Return))
  {
    if DecoderCalls.Answered(s.shell, s.call) {
      ReturnParks(s.shell, s.call);
      hide List, ReturnShell, Kept;
      ReturnedKept(s, ReturnShell(s.shell, s.call));
    }
  }

  lemma {:induction false} ReturnedKept(s: AacSystem, t: State)
    requires Kept(s) && s.call.During? && s.call.todo == []
    requires !InDecoder(t) && !HasJob(t.handler) && t.q.flush == s.shell.q.flush
    requires || t.q.pending == s.shell.q.pending
             || (s.shell.handler.job.entry.WorkEntry? && !s.call.processed && !s.shell.q.flush
                 && var v := s.shell.handler.job.entry.work; t.q.pending == s.shell.q.pending[v.index := v])
    ensures Kept(s.(shell := t, call := Before))
  {
    hide List;
    assert [] + s.call.lost + List(s.core) == s.call.lost + List(s.core);
  }

  lemma {:induction false} StepKept(w: AacModel.World, s: AacSystem, j: Joint, step: AacStep)
    requires Kept(s) && InStep(false, View(s), j) && AacAccounting.Ledger(w, s.core) && NeverStrays(s)
    ensures Kept(Next(w, s, step))
  {
    hide Kept, InStep, AacAccounting.Ledger, Next, NeverStrays;
    match step
    case ShellStep(st) => ShellKept(w, s, j, st);
    case ProcessCall(_) => CallKeeps(w, s, j, step);
    case DrainCall(_) => CallKeeps(w, s, j, step);
    case AnswerNext => AnswerKept(w, s, j);
    case Return => ReturnKept(w, s);
  }

  lemma {:induction false} RunKept(w: AacModel.World, s: AacSystem, j: Joint, steps: seq<AacStep>)
    requires Kept(s) && InStep(false, View(s), j) && AacAccounting.Ledger(w, s.core) && NeverStrays(s)
    ensures Kept(Run(w, s, steps))
    decreases |steps|
  {
    hide Kept, InStep, AacAccounting.Ledger, NeverStrays, Next, Trace, View, JointRun;
    if steps != [] {
      StepKept(w, s, j, steps[0]);
      StepInStep(w, s, j, steps[0]);
      StepNeverStrays(w, s, steps[0]);
      RunKept(w, Next(w, s, steps[0]), JointRun(false, j, Trace(w, s, steps[0])), steps[1..]);
    }
  }

  /** In every run, while the component runs, the looper is idle and no flush waits to be passed on, the
      pending works are those on the decoder's list, so all will be answered, and those left behind since the
      last flush or stop: dropped by a drain, or pending when a stop emptied the list. */
  lemma {:induction false} MapIsList(w: AacModel.World, c: AacModel.Core, steps: seq<AacStep>)
    requires AacAccounting.Ledger(w, c) && c.infos == []
    ensures var t := Run(w, Fresh(c), steps);
            t.shell.exec == Running && t.shell.handler == Idle && !t.shell.q.flush ==>
              forall k :: k in t.shell.q.pending <==> k in List(t.core) || (k in t.left && k in t.shell.q.pending)
  {
    ListMeetsMap(w, c, steps);
    StartInStep(false);
    assert View(Fresh(c)) == DecoderCalls.System(Initial, [], Before, false);
    RunKept(w, Fresh(c), Start, steps);
    EveryRunInStep(w, c, steps);
    var t := Run(w, Fresh(c), steps);
    if t.shell.handler == Idle {
      BeforeOutside(t, JointRun(false, Start, RunTrace(w, Fresh(c), steps)));
    }
    hide Run, InStep, List;
  }

  /** The client's two sections of a stop, and the looper's answer. */
  ghost function AfterStop(w: AacModel.World, s: AacSystem): AacSystem {
    Next(w, Next(w, Next(w, s, ShellStep(StopBegin)), ShellStep(ClearQueue)), ShellStep(HandleMessage(true)))
  }

  /** An idle running component, stopped: the AAC decoder empties its list with the map. */
  lemma {:induction false} StopIdle(w: AacModel.World, s: AacSystem)
    requires s.shell.exec == Running && s.shell.life == NoCall && s.shell.handler == Idle && s.shell.messages == []
    ensures var t := AfterStop(w, s);
            && t.shell.exec == Stopped && t.shell.life == NoCall && t.shell.q.pending == map[]
            && List(t.core) == []
  {
    StopSteps(s.shell);
    hide ShellEnabled, Apply;
  }
}
