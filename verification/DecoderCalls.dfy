/** The calls of a decoder, spread over the steps of the shell. The decoder's own state belongs to the
    looper thread, so a call may change it at once; its answers, each of which takes the shell's lock, and
    its return follow one by one, with steps of the clients in between. Every such system makes the joint
    moves of `DecoderCoupling` and no others. */
module DecoderCalls {
  import opened Options
  import opened WorkQueues
  import opened WorkProtocol
  import opened WorkFlush
  import opened DecoderCoupling

  /** What is still to come of a call: the answers, the works dropped without one, a `finish` for an index
      that was not on the list, and whether the current work will be found processed. */
  datatype Call = Before | During(todo: seq<nat>, lost: seq<nat>, stray: Option<nat>, processed: bool)

  /** The shell, the list as the call leaves it, the call, and whether the shell's works were cleared
      without the list being emptied since. */
  datatype System = System(shell: State, list: seq<nat>, call: Call, cleared: bool)

  datatype Move =
    | ShellMove(step: Step)
    | Begin(list: seq<nat>, call: Call)
    | AnswerNext
    | Return

  /** A pending flush is passed on to the decoder. */
  predicate TellsFlush(s: State, step: Step) {
    (step.BeginDecoding? || step.PoolFails?) && s.handler.Popped? && s.handler.job.flushFirst
  }

  predicate TellsStop(s: State, step: Step) {
    step.HandleMessage? && s.messages != [] && s.messages[0] in {StopMsg, ResetMsg}
  }

  /** The steps of clients and looper outside the decoder; clients use a frame index once. */
  ghost predicate ShellEnabled(s: State, step: Step) {
    && Enabled(s, step) && !step.FinishTake? && !step.ProcessDone? && !step.DrainDone?
    && (step.QueueWorks? ==> DistinctIndices(s.accepted + multiset(step.works)))
  }

  predicate MayBegin(s: State, call: Call) { s.handler.Decoding? && call.Before? }

  predicate Answering(s: State, call: Call) {
    s.handler.Decoding? && call.During? && (call.todo != [] || call.stray.Some?)
  }

  predicate Answered(s: State, call: Call) {
    s.handler.Decoding? && call.During? && call.todo == [] && call.stray.None?
  }

  function NextIndex(call: Call): nat
    requires call.During? && (call.todo != [] || call.stray.Some?)
  {
    if call.todo != [] then call.todo[0] else call.stray.value
  }

  /** The current work is answered in place, others through `finish`. */
  ghost function AnswerShell(s: State, call: Call): State
    requires Answering(s, call)
  {
    if IsCurrent(s, NextIndex(call)) then s else Next(s, FinishTake(NextIndex(call)))
  }

  function AnswerCall(call: Call): Call
    requires call.During?
  {
    if call.todo != [] then call.(todo := call.todo[1..]) else call.(stray := None)
  }

  ghost function ReturnShell(s: State, call: Call): State
    requires Answered(s, call)
  {
    Next(s, if s.handler.job.entry.WorkEntry? then ProcessDone(call.processed) else DrainDone)
  }

  predicate Clearing(cleared: bool, step: Step) { cleared || step.ClearQueue? }

  ghost function MoveNext(keeps: bool, s: System, m: Move): System {
    match m
    case ShellMove(step) =>
      if !ShellEnabled(s.shell, step) then s
      else
        var empties := TellsFlush(s.shell, step) || (TellsStop(s.shell, step) && !keeps);
        System(Apply(s.shell, step), if empties then [] else s.list, s.call, Clearing(s.cleared, step) && !empties)
    case Begin(list, call) => if MayBegin(s.shell, s.call) then s.(list := list, call := call) else s
    case AnswerNext =>
      if Answering(s.shell, s.call) then s.(shell := AnswerShell(s.shell, s.call), call := AnswerCall(s.call)) else s
    case Return => if Answered(s.shell, s.call) then s.(shell := ReturnShell(s.shell, s.call), call := Before) else s
  }

  /** The works to be answered or dropped, and those that stay on the list. */
  function Owed(s: System): seq<nat> {
    if s.call.Before? then s.list else s.call.todo + s.call.lost + s.list
  }

  predicate Noted(s: System, list: seq<nat>, call: Call)
    requires call.During?
  {
    |call.todo| + |call.lost| + |list| > |s.list|
  }

  /** What a call promises of the work it is for. */
  predicate KeepsPromise(s: State, list: seq<nat>, call: Call)
    requires InDecoder(s) && call.During?
  {
    match s.handler.job.entry
    case WorkEntry(w) =>
      && call.lost == [] && (call.processed ==> w.index !in list)
      && (call.stray.Some? ==> call.todo == [] && list == [] && call.stray.value != w.index)
    case DrainEntry(_) => call.stray.None? && (call.lost != [] ==> list == [])
  }

  /** A call takes works from the front of the list, to which it may have added the current one. */
  predicate Lawful(s: System, m: Move) {
    m.Begin? && MayBegin(s.shell, s.call) ==>
      && m.call.During? && KeepsPromise(s.shell, m.list, m.call)
      && (match s.shell.handler.job.entry
          case WorkEntry(w) =>
            s.list + (if Noted(s, m.list, m.call) then [w.index] else []) == m.call.todo + m.list
          case DrainEntry(_) => s.list == m.call.todo + m.call.lost + m.list)
  }

  /** The joint moves that a move is made of. */
  ghost function Trace(s: System, m: Move): seq<JointStep> {
    match m
    case ShellMove(step) => if ShellEnabled(s.shell, step) then [Shell(step)] else []
    case Begin(list, call) =>
      if MayBegin(s.shell, s.call) && call.During? && Noted(s, list, call) then [NoteCurrent] else []
    case AnswerNext =>
      if !Answering(s.shell, s.call) then []
      else if s.call.todo != [] then [AnswerOldest] else [Stray(s.call.stray.value)]
    case Return =>
      if !Answered(s.shell, s.call) then []
      else if s.shell.handler.job.entry.WorkEntry? then [Complete(s.call.processed)]
      else (if s.call.lost != [] then [ForgetAll] else []) + [Shell(DrainDone)]
  }

  predicate Simulated(s: System, j: Joint) {
    && j.shell == s.shell && j.owed == Owed(s) && j.tainted == s.cleared
    && (InDecoder(s.shell) && s.call.Before? ==> j.unlisted)
    && (s.call.During? ==> InDecoder(s.shell) && KeepsPromise(s.shell, s.list, s.call))
  }

  lemma {:induction false} RunOne(keeps: bool, j: Joint, step: JointStep)
    ensures JointRun(keeps, j, [step]) == JointNext(keeps, j, step)
  {
    assert [step][1..] == [];
  }

  lemma {:induction false} RunTwo(keeps: bool, j: Joint, a: JointStep, b: JointStep)
    ensures JointRun(keeps, j, [a] + [b]) == JointNext(keeps, JointNext(keeps, j, a), b)
  {
    assert ([a] + [b])[1..] == [b];
    RunOne(keeps, JointNext(keeps, j, a), b);
  }

  lemma {:induction false} JointRunAdd(keeps: bool, j: Joint, a: seq<JointStep>, b: seq<JointStep>)
    ensures JointRun(keeps, j, a + b) == JointRun(keeps, JointRun(keeps, j, a), b)
    decreases |a|
  {
    if a == [] {
      assert a + b == b;
    } else {
      assert (a + b)[1..] == a[1..] + b;
      JointRunAdd(keeps, JointNext(keeps, j, a[0]), a[1..], b);
    }
  }

  /** While the decoder is at work only clients and the report of a finished work can interfere. */
  lemma {:induction false} DecoderStays(s: State, step: Step)
    requires ShellEnabled(s, step) && InDecoder(s)
    ensures var t := Apply(s, step); InDecoder(t) && t.handler.job == s.handler.job
    ensures !TellsFlush(s, step) && !TellsStop(s, step) && !step.BeginDecoding?
  {
  }

  lemma {:induction false} ShellSimulates(keeps: bool, s: System, j: Joint, step: Step)
    requires Simulated(s, j) && ShellEnabled(s.shell, step)
    ensures Simulated(MoveNext(keeps, s, ShellMove(step)), JointNext(keeps, j, Shell(step)))
  {
    assert JointEnabled(j, Shell(step));
    if InDecoder(s.shell) {
      DecoderStays(s.shell, step);
    } else {
      ShellBefore(keeps, s, j, step);
    }
  }

  lemma {:induction false} ShellBefore(keeps: bool, s: System, j: Joint, step: Step)
    requires Simulated(s, j) && ShellEnabled(s.shell, step) && !InDecoder(s.shell) && JointEnabled(j, Shell(step))
    ensures Simulated(MoveNext(keeps, s, ShellMove(step)), ShellStep(keeps, j, step))
  {
    hide KeepsPromise, Handle, WorkQueues.Complete, Emptied, Cleared;
    if step.HandleMessage? {
      HandleBefore(keeps, s, j, step);
    } else if step.BeginDecoding? || step.PoolFails? {
      FlushBefore(keeps, s, j, step);
    } else {
      OutsideStays(s.shell, step);
      hide Apply;
    }
  }

  lemma {:induction false} OutsideStays(s: State, step: Step)
    requires Enabled(s, step) && !InDecoder(s) && !step.HandleMessage? && !step.BeginDecoding?
    ensures !InDecoder(Apply(s, step))
  {
    hide Handle, WorkQueues.Complete, Emptied, Cleared;
  }

  /** The looper passes a pending flush on when it begins. */
  lemma {:induction false} FlushBefore(keeps: bool, s: System, j: Joint, step: Step)
    requires Simulated(s, j) && ShellEnabled(s.shell, step) && JointEnabled(j, Shell(step))
    requires step.BeginDecoding? || step.PoolFails?
    ensures Simulated(MoveNext(keeps, s, ShellMove(step)), ShellStep(keeps, j, step))
  {
    hide KeepsPromise, Handle, WorkQueues.Complete;
  }

  /** The looper passes a stop or reset on when it handles the message. */
  lemma {:induction false} HandleBefore(keeps: bool, s: System, j: Joint, step: Step)
    requires Simulated(s, j) && ShellEnabled(s.shell, step) && JointEnabled(j, Shell(step)) && step.HandleMessage?
    ensures Simulated(MoveNext(keeps, s, ShellMove(step)), ShellStep(keeps, j, step))
  {
    hide KeepsPromise;
    assert Apply(s.shell, step) == Handle(s.shell, step.initOk);
    assert !InDecoder(Handle(s.shell, step.initOk));
  }

  lemma {:induction false} BeginSimulates(keeps: bool, s: System, j: Joint, m: Move)
    requires Simulated(s, j) && m.Begin? && Lawful(s, m) && MayBegin(s.shell, s.call)
    ensures Simulated(MoveNext(keeps, s, m), JointRun(keeps, j, Trace(s, m)))
  {
    if Trace(s, m) != [] {
      RunOne(keeps, j, NoteCurrent);
    }
    assert m.call.lost == [] ==> m.call.todo + m.call.lost == m.call.todo;
    assert s.list + [] == s.list;
  }

  lemma {:induction false} AnswerSimulates(keeps: bool, s: System, j: Joint)
    requires Simulated(s, j) && Answering(s.shell, s.call)
    ensures Simulated(MoveNext(keeps, s, AnswerNext), JointRun(keeps, j, Trace(s, AnswerNext)))
  {
    RunOne(keeps, j, Trace(s, AnswerNext)[0]);
    if s.call.todo != [] {
      assert (s.call.todo + s.call.lost + s.list)[1..] == s.call.todo[1..] + s.call.lost + s.list;
      assert j.owed[0] == s.call.todo[0];
    }
    var s' := MoveNext(keeps, s, AnswerNext);
    assert InDecoder(s'.shell) && s'.shell.handler.job == s.shell.handler.job;
  }

  lemma {:induction false} ReturnSimulates(keeps: bool, s: System, j: Joint)
    requires Simulated(s, j) && Answered(s.shell, s.call)
    ensures Simulated(MoveNext(keeps, s, Return), JointRun(keeps, j, Trace(s, Return)))
  {
    var s' := MoveNext(keeps, s, Return);
    assert [] + s.call.lost + s.list == s.call.lost + s.list;
    assert s.call.lost == [] ==> s.call.lost + s.list == s.list;
    DecoderReturns(s.shell, if s.shell.handler.job.entry.WorkEntry? then ProcessDone(s.call.processed) else DrainDone);
    hide Apply, Next;
    if s.shell.handler.job.entry.WorkEntry? {
      RunOne(keeps, j, Complete(s.call.processed));
    } else {
      DrainReturns(keeps, s, j);
    }
  }

  lemma {:induction false} DrainReturns(keeps: bool, s: System, j: Joint)
    requires Simulated(s, j) && Answered(s.shell, s.call) && s.shell.handler.job.entry.DrainEntry?
    ensures Simulated(MoveNext(keeps, s, Return), JointRun(keeps, j, Trace(s, Return)))
  {
    assert [] + s.call.lost + s.list == s.call.lost + s.list;
    assert s.call.lost == [] ==> s.call.lost + s.list == s.list;
    DecoderReturns(s.shell, DrainDone);
    hide Apply;
    if s.call.lost != [] {
      RunTwo(keeps, j, ForgetAll, Shell(DrainDone));
      var f := JointNext(keeps, j, ForgetAll);
      assert f == j.(owed := []);
      assert JointEnabled(f, Shell(DrainDone));
    } else {
      assert [] + [Shell(DrainDone)] == [Shell(DrainDone)];
      RunOne(keeps, j, Shell(DrainDone));
      assert JointEnabled(j, Shell(DrainDone));
    }
  }

  lemma {:induction false} DecoderReturns(s: State, step: Step)
    requires Enabled(s, step) && (step.ProcessDone? || step.DrainDone?)
    ensures !InDecoder(Next(s, step))
  {
    hide Handle, WorkQueues.Complete;
  }

  /** Every move of the system is a run of joint moves: noting the current work, answering the oldest any
      number of times, completing, and the steps of the shell. */
  lemma {:induction false} MoveSimulates(keeps: bool, s: System, j: Joint, m: Move)
    requires Simulated(s, j) && Lawful(s, m)
    ensures Simulated(MoveNext(keeps, s, m), JointRun(keeps, j, Trace(s, m)))
  {
    hide Simulated, Lawful, ShellEnabled;
    match m
    case ShellMove(step) =>
      if ShellEnabled(s.shell, step) {
        RunOne(keeps, j, Shell(step));
        ShellSimulates(keeps, s, j, step);
      }
    case Begin(_, _) =>
      if MayBegin(s.shell, s.call) {
        BeginSimulates(keeps, s, j, m);
      }
    case AnswerNext =>
      if Answering(s.shell, s.call) {
        AnswerSimulates(keeps, s, j);
      }
    case Return =>
      if Answered(s.shell, s.call) {
        ReturnSimulates(keeps, s, j);
      }
  }

  // ---------- what this says of the list ----------

  /** A stop or reset that has cleared the shell's works waits for the decoder. */
  predicate StopWaits(s: State) { s.life == Stopping(true) || s.life == Resetting(true) }

  /** The system is in step with a joint run that keeps all its invariants. */
  ghost predicate InStep(keeps: bool, s: System, j: Joint) {
    && Simulated(s, j) && Sound(j) && Listed(j) && Coupled(j)
    && (!keeps && s.cleared ==> StopWaits(s.shell))
  }

  lemma {:induction false} MoveKeepsStep(keeps: bool, s: System, j: Joint, m: Move)
    requires InStep(keeps, s, j) && Lawful(s, m)
    ensures InStep(keeps, MoveNext(keeps, s, m), JointRun(keeps, j, Trace(s, m)))
  {
    MoveSimulates(keeps, s, j, m);
    JointRunOk(keeps, j, Trace(s, m));
    if !keeps {
      StopClears(j, Trace(s, m));
    }
  }

  /** The work a call is for is not on the list yet. */
  lemma {:induction false} CurrentIsNew(keeps: bool, s: System, j: Joint)
    requires InStep(keeps, s, j) && MayBegin(s.shell, s.call) && s.shell.handler.job.entry.WorkEntry?
    ensures s.shell.handler.job.entry.work.index !in s.list
  {
    assert Unseen(j, s.shell.handler.job.entry.work);
  }

  /** The list has no duplicates; while the looper is idle and no flush or clearing waits to be passed on,
      each index on it is pending. */
  lemma {:induction false} ListIsPending(keeps: bool, s: System, j: Joint)
    requires InStep(keeps, s, j)
    ensures NoDuplicates(s.list)
    ensures s.shell.handler == Idle && !s.shell.q.flush && !s.cleared ==>
              forall i :: i in s.list ==> i in s.shell.q.pending
  {
    if s.call.During? {
      var n := |Owed(s)| - |s.list|;
      forall a, b | 0 <= a < b < |s.list|
        ensures s.list[a] != s.list[b]
      {
        assert Owed(s)[n + a] == s.list[a] && Owed(s)[n + b] == s.list[b];
      }
    }
  }

  /** `finish` for a work of the list finds it pending, unless a flush or a clearing waits to be passed on. */
  lemma {:induction false} AnswerIsPending(keeps: bool, s: System, j: Joint)
    requires InStep(keeps, s, j) && Answering(s.shell, s.call) && s.call.todo != []
    ensures !s.cleared && !s.shell.q.flush && !IsCurrent(s.shell, s.call.todo[0]) ==>
              s.call.todo[0] in s.shell.q.pending
  {
    assert j.owed[0] == s.call.todo[0] && j.owed[0] in j.owed;
  }

  /** Before anything has happened. */
  lemma {:induction false} StartInStep(keeps: bool)
    ensures InStep(keeps, System(Initial, [], Before, false), Start)
  {
    EveryRun([]);
  }

  /** The client's two sections of a stop of an idle running component. */
  lemma {:induction false} StopCalls(s: State)
    requires s.exec == Running && s.life == NoCall && s.handler == Idle && s.messages == []
    ensures var a := Apply(s, StopBegin); var b := Apply(a, ClearQueue);
            && ShellEnabled(s, StopBegin) && ShellEnabled(a, ClearQueue)
            && b.messages == [StopMsg] && b.handler == Idle && b.q.pending == map[] && b.exec == Stopped
  {
    var a := Apply(s, StopBegin);
    assert a == s.(exec := Stopped, life := Stopping(false));
    assert [] + [StopMsg] == [StopMsg];
  }

  /** A stop of an idle running component: the decoder does not hear of the client's sections, and the
      looper's answer tells it. */
  lemma {:induction false} StopSteps(s: State)
    requires s.exec == Running && s.life == NoCall && s.handler == Idle && s.messages == []
    ensures var a := Apply(s, StopBegin); var b := Apply(a, ClearQueue);
            && ShellEnabled(s, StopBegin) && !TellsFlush(s, StopBegin) && !TellsStop(s, StopBegin)
            && ShellEnabled(a, ClearQueue) && !TellsFlush(a, ClearQueue) && !TellsStop(a, ClearQueue)
            && ShellEnabled(b, HandleMessage(true)) && !TellsFlush(b, HandleMessage(true))
            && TellsStop(b, HandleMessage(true))
            && var t := Apply(b, HandleMessage(true));
               t.exec == Stopped && t.life == NoCall && t.q.pending == map[]
  {
    StopCalls(s);
    var b := Apply(Apply(s, StopBegin), ClearQueue);
    StopHandled(b);
    hide Apply, ShellEnabled;
  }

  lemma {:induction false} StopHandled(s: State)
    requires s.handler == Idle && s.messages == [StopMsg]
    ensures ShellEnabled(s, HandleMessage(true))
    ensures var t := Apply(s, HandleMessage(true));
            t.exec == s.exec && t.life == NoCall && t.q == s.q
  {
    assert Apply(s, HandleMessage(true)) == Handle(s, true);
  }
}
