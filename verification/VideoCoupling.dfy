/** The software video decoder on the shell: its list of waiting works, `mPendingWorkFrameIndexes`, and the
    map of pending works. The decoder is that of `SoftVdec`, for every codec, block pool and parameter
    store; its calls are spread over the steps of the shell as `DecoderCalls` says. */
module VideoCoupling {
  import opened Options
  import opened WorkQueues
  import opened WorkProtocol
  import opened DecoderCoupling
  import opened DecoderCalls
  import SoftVdec

  /** `cleared` tells whether a stop or reset has cleared the shell's works since the decoder was last
      flushed: the decoder keeps its list then. */
  datatype VideoSystem = VideoSystem(shell: State, core: SoftVdec.Core, call: Call, cleared: bool)

  datatype VideoStep =
    | ShellStep(step: Step)
    | ProcessCall(job: SoftVdec.Job)
    | DrainCall
    | AnswerNext
    | Return

  predicate MayProcess(s: VideoSystem, job: SoftVdec.Job) {
    && MayBegin(s.shell, s.call) && s.shell.handler.job.entry.WorkEntry?
    && s.shell.handler.job.entry.work.index == job.index
  }

  predicate MayDrain(s: VideoSystem) { MayBegin(s.shell, s.call) && s.shell.handler.job.entry.DrainEntry? }

  /** The pictures handed out between two states of the decoder, by frame index. */
  function NewPictures(a: SoftVdec.Core, b: SoftVdec.Core): seq<nat> {
    if |a.sent| <= |b.sent| then SoftVdec.Indices(b.sent[|a.sent|..]) else []
  }

  /** A picture was handed out under the current work's index, cut to 32 bits, which is not its own. */
  predicate Astray(a: SoftVdec.Core, b: SoftVdec.Core, job: SoftVdec.Job) {
    a.list.pending == [] && NewPictures(a, b) != [] && job.index >= 0x1_0000_0000
  }

  function Processing(w: SoftVdec.World, s: VideoSystem, job: SoftVdec.Job): VideoSystem {
    var out := SoftVdec.Process(w, s.core, job);
    var pictures := NewPictures(s.core, out.core);
    s.(core := out.core,
       call := if Astray(s.core, out.core, job) then During([], [], Some(pictures[0]), out.processed)
               else During(pictures, [], None, out.processed))
  }

  function Told(s: State, c: SoftVdec.Core, step: Step): SoftVdec.Core {
    if TellsFlush(s, step) then SoftVdec.Flush(c) else if TellsStop(s, step) then SoftVdec.Stop(c) else c
  }

  /** A drain without a work does nothing. */
  ghost function Next(w: SoftVdec.World, s: VideoSystem, step: VideoStep): VideoSystem {
    match step
    case ShellStep(st) =>
      if !ShellEnabled(s.shell, st) then s
      else VideoSystem(Apply(s.shell, st), Told(s.shell, s.core, st), s.call,
                       Clearing(s.cleared, st) && !TellsFlush(s.shell, st))
    case ProcessCall(job) => if MayProcess(s, job) then Processing(w, s, job) else s
    case DrainCall => if MayDrain(s) then s.(call := During([], [], None, false)) else s
    case AnswerNext =>
      if Answering(s.shell, s.call) then s.(shell := AnswerShell(s.shell, s.call), call := AnswerCall(s.call)) else s
    case Return =>
      if Answered(s.shell, s.call) then s.(shell := ReturnShell(s.shell, s.call), call := Before) else s
  }

  ghost function Run(w: SoftVdec.World, s: VideoSystem, steps: seq<VideoStep>): VideoSystem
    decreases |steps|
  {
    if steps == [] then s else Run(w, Next(w, s, steps[0]), steps[1..])
  }

  function View(s: VideoSystem): System { System(s.shell, s.core.list.pending, s.call, s.cleared) }

  // ---------- a call takes works from the front of the list ----------

  lemma {:induction false} PicturesSplit(a: SoftVdec.Core, b: SoftVdec.Core, job: SoftVdec.Job, joined: seq<nat>)
    requires SoftVdec.Moved(a, b, job, joined)
    ensures a.list.pending + joined == NewPictures(a, b) + b.list.pending
  {
    SoftVdec.MovedSplits(a, b, job, joined);
    var n, queue := |b.sent| - |a.sent|, a.list.pending + joined;
    assert b.sent[|a.sent|..] == SoftVdec.HandedAll(job, queue[..n]);
    assert NewPictures(a, b) == queue[..n];
    assert queue == queue[..n] + queue[n..];
  }

  /** A call lets its work join the list or not, hands pictures to works from the front of it, and leaves
      its work unprocessed if it is on the list; or it hands out one picture under a wrong index, while
      the list is and stays empty. */
  lemma {:induction false} ProcessTakes(w: SoftVdec.World, c: SoftVdec.Core, job: SoftVdec.Job)
    requires |c.list.pending| <= SoftVdec.MAX_WORK_PENDING_COUNT && job.index !in c.list.pending
    ensures var out := SoftVdec.Process(w, c, job); var list, rest := c.list.pending, out.core.list.pending;
            && |rest| <= SoftVdec.MAX_WORK_PENDING_COUNT
            && (out.processed ==> job.index !in rest)
            && (if Astray(c, out.core, job)
                then rest == [] && NewPictures(c, out.core) == [job.index % 0x1_0000_0000]
                else || list == NewPictures(c, out.core) + rest
                     || list + [job.index] == NewPictures(c, out.core) + rest)
  {
    var out := SoftVdec.Process(w, c, job);
    SoftVdec.ProcessKeepsOrder(w, c, job);
    SoftVdec.UnprocessedIff(w, c, job);
    var joined := SoftVdec.Joined(c, out.core, job);
    PicturesSplit(c, out.core, job, joined);
    hide SoftVdec.Process, SoftVdec.Moved;
    var pictures, rest := NewPictures(c, out.core), out.core.list.pending;
    assert c.list.pending + [] == c.list.pending;
    if pictures != [] && c.list.pending == [] {
      assert pictures + rest == joined;
      assert |pictures| == 1 && rest == [] && pictures[0] == joined[0];
    }
  }

  lemma {:induction false} ProcessLawful(w: SoftVdec.World, s: VideoSystem, job: SoftVdec.Job)
    requires |s.core.list.pending| <= SoftVdec.MAX_WORK_PENDING_COUNT
    requires MayProcess(s, job) && job.index !in s.core.list.pending
    ensures var t := Processing(w, s, job);
            && |t.core.list.pending| <= SoftVdec.MAX_WORK_PENDING_COUNT
            && Lawful(View(s), Begin(t.core.list.pending, t.call))
  {
    ProcessTakes(w, s.core, job);
    hide SoftVdec.Process, Astray, NewPictures;
    assert s.core.list.pending + [] == s.core.list.pending;
  }

  // ---------- every step is a run of joint moves ----------

  ghost function Trace(w: SoftVdec.World, s: VideoSystem, step: VideoStep): seq<JointStep> {
    var t := Next(w, s, step);
    match step
    case ShellStep(st) => DecoderCalls.Trace(View(s), ShellMove(st))
    case ProcessCall(job) =>
      if MayProcess(s, job) then DecoderCalls.Trace(View(s), Begin(t.core.list.pending, t.call)) else []
    case DrainCall => if MayDrain(s) then DecoderCalls.Trace(View(s), Begin(t.core.list.pending, t.call)) else []
    case AnswerNext => DecoderCalls.Trace(View(s), DecoderCalls.AnswerNext)
    case Return => DecoderCalls.Trace(View(s), DecoderCalls.Return)
  }

  ghost predicate Ok(s: VideoSystem, j: Joint) {
    |s.core.list.pending| <= SoftVdec.MAX_WORK_PENDING_COUNT && InStep(true, View(s), j)
  }

  lemma {:induction false} ShellInStep(w: SoftVdec.World, s: VideoSystem, j: Joint, st: Step)
    requires Ok(s, j)
    ensures Ok(Next(w, s, ShellStep(st)), JointRun(true, j, Trace(w, s, ShellStep(st))))
  {
    MoveKeepsStep(true, View(s), j, ShellMove(st));
    hide InStep, JointRun, ShellEnabled, Apply;
    if ShellEnabled(s.shell, st) {
      assert View(Next(w, s, ShellStep(st))) == MoveNext(true, View(s), ShellMove(st));
    }
  }

  lemma {:induction false} NoMoves(j: Joint)
    ensures JointRun(true, j, []) == j
  {
  }

  lemma {:induction false} CallInStep(w: SoftVdec.World, s: VideoSystem, j: Joint, step: VideoStep)
    requires Ok(s, j) && (step.ProcessCall? || step.DrainCall?)
    ensures Ok(Next(w, s, step), JointRun(true, j, Trace(w, s, step)))
  {
    var t := Next(w, s, step);
    NoMoves(j);
    if step.ProcessCall? && MayProcess(s, step.job) {
      CurrentIsNew(true, View(s), j);
      ProcessLawful(w, s, step.job);
      MoveKeepsStep(true, View(s), j, Begin(t.core.list.pending, t.call));
    } else if step.DrainCall? && MayDrain(s) {
      var list := s.core.list.pending;
      assert list + [] == list == [] + list == [] + [] + list;
      MoveKeepsStep(true, View(s), j, Begin(list, t.call));
    }
    hide InStep, JointRun, SoftVdec.Process, Astray, NewPictures, Lawful;
  }

  /** A step of the system - a whole call of `process` among them - does to shell and list what a run of
      the joint moves does. */
  lemma {:induction false} StepInStep(w: SoftVdec.World, s: VideoSystem, j: Joint, step: VideoStep)
    requires Ok(s, j)
    ensures Ok(Next(w, s, step), JointRun(true, j, Trace(w, s, step)))
  {
    hide InStep, JointRun, AnswerShell, ReturnShell, Answering, Answered;
    match step
    case ShellStep(st) => ShellInStep(w, s, j, st);
    case ProcessCall(_) => CallInStep(w, s, j, step);
    case DrainCall => CallInStep(w, s, j, step);
    case AnswerNext => MoveKeepsStep(true, View(s), j, DecoderCalls.AnswerNext);
    case Return => MoveKeepsStep(true, View(s), j, DecoderCalls.Return);
  }

  // ---------- every run ----------

  ghost function RunTrace(w: SoftVdec.World, s: VideoSystem, steps: seq<VideoStep>): seq<JointStep>
    decreases |steps|
  {
    if steps == [] then [] else Trace(w, s, steps[0]) + RunTrace(w, Next(w, s, steps[0]), steps[1..])
  }

  lemma {:induction false} RunInStep(w: SoftVdec.World, s: VideoSystem, j: Joint, steps: seq<VideoStep>)
    requires Ok(s, j)
    ensures Ok(Run(w, s, steps), JointRun(true, j, RunTrace(w, s, steps)))
    decreases |steps|
  {
    hide Ok, Next, Trace, JointRun;
    if steps == [] {
      NoMoves(j);
    } else {
      var s', trace := Next(w, s, steps[0]), Trace(w, s, steps[0]);
      StepInStep(w, s, j, steps[0]);
      RunInStep(w, s', JointRun(true, j, trace), steps[1..]);
      JointRunAdd(true, j, trace, RunTrace(w, s', steps[1..]));
    }
  }

  const FRESH: VideoSystem := VideoSystem(Initial, SoftVdec.INITIAL, Before, false)

  lemma {:induction false} EveryRunInStep(w: SoftVdec.World, steps: seq<VideoStep>)
    ensures Ok(Run(w, FRESH, steps), JointRun(true, Start, RunTrace(w, FRESH, steps)))
  {
    StartInStep(true);
    assert View(FRESH) == System(Initial, [], Before, false);
    RunInStep(w, FRESH, Start, steps);
  }

  /** In every run, for every codec: no accepted work is lost, the decoder's list has no duplicates, and
      while the looper is idle and no flush waits to be passed on, each index on the list is that of a
      pending work, unless a stop or reset has cleared the pending works since the last flush. */
  lemma {:induction false} ListMeetsMap(w: SoftVdec.World, steps: seq<VideoStep>)
    ensures var t := Run(w, FRESH, steps);
            && Conserved(t.shell) && NoDuplicates(t.core.list.pending)
            && (t.shell.handler == Idle && !t.shell.q.flush && !t.cleared ==>
                  forall i :: i in t.core.list.pending ==> i in t.shell.q.pending)
  {
    EveryRunInStep(w, steps);
    var t := Run(w, FRESH, steps);
    ListIsPending(true, View(t), JointRun(true, Start, RunTrace(w, FRESH, steps)));
  }

  /** In every run, while no flush and no clearing waits to be passed on, every `finish` of the decoder finds
      its work pending, but for a picture handed out under a wrong index. */
  lemma {:induction false} FinishFindsItsWork(w: SoftVdec.World, steps: seq<VideoStep>)
    ensures var t := Run(w, FRESH, steps);
            (!t.cleared && !t.shell.q.flush && Answering(t.shell, t.call)) ==>
              || NextIndex(t.call) in t.shell.q.pending || IsCurrent(t.shell, NextIndex(t.call))
              || (t.call.todo == [] && t.core.list.pending == [])
  {
    EveryRunInStep(w, steps);
    var t := Run(w, FRESH, steps);
    var j := JointRun(true, Start, RunTrace(w, FRESH, steps));
    if Answering(t.shell, t.call) {
      if t.call.todo != [] {
        AnswerIsPending(true, View(t), j);
      } else {
        assert Simulated(View(t), j);
      }
    }
  }

  /** When that happens: exactly if the codec has a picture for a work whose frame index does not fit 32
      bits while nobody waits. The picture is then offered to the work with the rest of the index, and the
      current work stays behind unprocessed and off the list, unless it ends the stream. */
  lemma {:induction false} StraysIff(w: SoftVdec.World, steps: seq<VideoStep>, job: SoftVdec.Job)
    requires MayProcess(Run(w, FRESH, steps), job)
    ensures var s := Run(w, FRESH, steps); var t := Next(w, s, ProcessCall(job));
            && (t.call.stray.Some? <==>
                  t.core.sent != s.core.sent && s.core.list.pending == [] && job.index >= 0x1_0000_0000)
            && (t.call.stray.Some? ==>
                  && t.call.stray.value == job.index % 0x1_0000_0000
                  && t.call.todo == [] && t.core.list.pending == []
                  && (t.call.processed <==> job.eos))
  {
    EveryRunInStep(w, steps);
    var s := Run(w, FRESH, steps);
    CurrentIsNew(true, View(s), JointRun(true, Start, RunTrace(w, FRESH, steps)));
    StrayCall(w, s.core, job);
  }

  lemma {:induction false} StrayCall(w: SoftVdec.World, c: SoftVdec.Core, job: SoftVdec.Job)
    requires |c.list.pending| <= SoftVdec.MAX_WORK_PENDING_COUNT && job.index !in c.list.pending
    ensures var out := SoftVdec.Process(w, c, job);
            && (Astray(c, out.core, job) <==>
                  out.core.sent != c.sent && c.list.pending == [] && job.index >= 0x1_0000_0000)
            && (Astray(c, out.core, job) ==>
                  && NewPictures(c, out.core) == [job.index % 0x1_0000_0000]
                  && out.core.list.pending == [] && (out.processed <==> job.eos))
  {
    var out := SoftVdec.Process(w, c, job);
    ProcessTakes(w, c, job);
    SoftVdec.ProcessKeepsOrder(w, c, job);
    SoftVdec.UnprocessedIff(w, c, job);
  }

  /** The client's two sections of a stop, and the looper's answer. */
  ghost function AfterStop(w: SoftVdec.World, s: VideoSystem): VideoSystem {
    Next(w, Next(w, Next(w, s, ShellStep(StopBegin)), ShellStep(ClearQueue)), ShellStep(HandleMessage(true)))
  }

  /** An idle running component, stopped: the map of pending works is emptied, but the video decoder keeps
      its list, so the two agree exactly when the list was empty. */
  lemma {:induction false} StopIdle(w: SoftVdec.World, s: VideoSystem)
    requires s.shell.exec == Running && s.shell.life == NoCall && s.shell.handler == Idle && s.shell.messages == []
    ensures var t := AfterStop(w, s);
            && t.shell.exec == Stopped && t.shell.life == NoCall && t.shell.q.pending == map[]
            && t.core.list.pending == s.core.list.pending
            && ((forall i :: i in t.core.list.pending ==> i in t.shell.q.pending) <==> s.core.list.pending == [])
  {
    StopSteps(s.shell);
    hide ShellEnabled, Apply;
    assert s.core.list.pending != [] ==> s.core.list.pending[0] in s.core.list.pending;
  }
}
