/** The hardware video decoder never loses or doubles a work: in every run each work that it took over is
    in exactly one of its four containers or among those reported, flushed or dropped. */
module HwVdecConservation {
  import opened Options
  import opened HwVdec

  function One(w: Work, id: nat): nat { if w.id == id then 1 else 0 }

  function Count(ws: seq<Work>, id: nat): nat {
    if ws == [] then 0 else One(ws[0], id) + Count(ws[1..], id)
  }

  /** How often work `id` is in a container. */
  function InHands(w: Works, id: nat): nat {
    Count(w.queue, id) + Count(w.pending, id) + Count(w.abandoned, id) + Count(w.flushList, id)
  }

  /** How often work `id` has left. */
  function Left(l: Log, id: nat): nat {
    Count(l.reported, id) + Count(l.flushed, id) + Count(l.dropped, id)
  }

  /** How many times more work `id` was taken over than is accounted for. */
  function Debt(s: State, id: nat): int {
    Count(s.log.accepted, id) - InHands(s.works, id) - Left(s.log, id)
  }

  ghost predicate Conserved(s: State) {
    forall id: nat :: Count(s.log.accepted, id) == InHands(s.works, id) + Left(s.log, id)
  }

  lemma {:induction false} CountAppend(a: seq<Work>, b: seq<Work>, id: nat)
    ensures Count(a + b, id) == Count(a, id) + Count(b, id)
  {
    if a == [] {
      assert a + b == b;
    } else {
      assert (a + b)[1..] == a[1..] + b;
      CountAppend(a[1..], b, id);
    }
  }

  lemma {:induction false} CountOne(w: Work, id: nat)
    ensures Count([w], id) == One(w, id)
  {
    assert [w][1..] == [];
  }

  lemma {:induction false} CountPush(ws: seq<Work>, w: Work, id: nat)
    ensures Count(ws + [w], id) == Count(ws, id) + One(w, id)
  {
    CountAppend(ws, [w], id);
    CountOne(w, id);
  }

  lemma {:induction false} CountWithout(ws: seq<Work>, k: nat, id: nat)
    requires k < |ws|
    ensures Count(ws, id) == Count(Without(ws, k), id) + One(ws[k], id)
  {
    assert ws == ws[..k] + ([ws[k]] + ws[k + 1..]);
    CountAppend(ws[..k], [ws[k]] + ws[k + 1..], id);
    CountAppend([ws[k]], ws[k + 1..], id);
    CountAppend(ws[..k], ws[k + 1..], id);
    CountOne(ws[k], id);
  }

  /** Changing works in place does not change which works there are. */
  lemma {:induction false} CountSame(a: seq<Work>, b: seq<Work>, id: nat)
    requires |a| == |b| && forall i :: 0 <= i < |a| ==> a[i].id == b[i].id
    ensures Count(a, id) == Count(b, id)
  {
    if a != [] {
      CountSame(a[1..], b[1..], id);
    }
  }

  // ---------- reporting ----------

  /** From `s` to `t` works were only moved from the pending ones to the end of the reported ones, or
      changed in place, and none got lost. */
  predicate Reports(s: State, t: State, id: nat) {
    && t.works == s.works.(pending := t.works.pending)
    && t.log == s.log.(reported := t.log.reported, clones := t.log.clones)
    && s.log.reported <= t.log.reported
    && t.mode.phase == s.mode.phase
    && |t.works.pending| <= |s.works.pending|
    && Debt(t, id) == Debt(s, id)
  }

  lemma {:induction false} ReportAtKeeps(s: State, k: nat, w: Work, id: nat)
    requires k < |s.works.pending| && w.id == s.works.pending[k].id
    ensures Reports(s, ReportAt(s, k, w), id)
  {
    CountWithout(s.works.pending, k, id);
    CountPush(s.log.reported, w, id);
  }

  lemma {:induction false} ReportIfFinishedKeeps(s: State, bitstream: int, empty: bool, id: nat)
    ensures Reports(s, ReportIfFinished(s, bitstream, empty).0, id)
  {
    var k := Find(s.works.pending, bitstream);
    if k < |s.works.pending| {
      ReportAtKeeps(s, k, Finished(s.works.pending[k]), id);
    }
  }

  lemma {:induction false} ReportAbandonedKeeps(s: State, id: nat)
    ensures Debt(ReportAbandoned(s), id) == Debt(s, id)
  {
    var a, b := Abandon(s.works.pending), Abandon(s.works.abandoned);
    CountSame(s.works.pending, a, id);
    CountSame(s.works.abandoned, b, id);
    CountAppend(s.log.reported, a + b, id);
    CountAppend(a, b, id);
  }

  lemma {:induction false} ReportEosKeeps(s: State, id: nat)
    ensures Debt(ReportEos(s).0, id) == Debt(s, id)
  {
    var pending := s.works.pending;
    if pending != [] {
      var n := |pending| - 1;
      var t := SetPending(s, pending[..n]).(mode := s.mode.(pendingEos := false));
      assert pending == pending[..n] + [pending[n]];
      CountPush(pending[..n], pending[n], id);
      ReportAbandonedKeeps(t, id);
      var u := if n > 0 then ReportAbandoned(t) else t;
      CountPush(u.log.reported, EosWork(pending[n]), id);
    }
  }

  // ---------- pictures to works ----------

  lemma {:induction false} DetectNoShowKeeps(s: State, current: Frame, id: nat)
    ensures Reports(s, DetectNoShow(s, current), id)
  {
    CountSame(s.works.pending, MarkNoShow(s.works.pending, current), id);
  }

  lemma {:induction false} UpdateKeeps(s: State, k: nat, w: Work, id: nat)
    requires k < |s.works.pending| && w.id == s.works.pending[k].id
    ensures Reports(s, SetPending(s, s.works.pending[k := w]), id)
  {
    CountSame(s.works.pending, s.works.pending[k := w], id);
  }

  lemma {:induction false} PlaceKeeps(kind: Kind, s: State, k: nat, j: nat, id: nat)
    requires k < |s.pics.blocks| && s.pics.pictures != [] && j < |s.works.pending|
    ensures Reports(s, Place(kind, s, k, j), id)
  {
    var w, first := s.works.pending[j], s.pics.pictures[0];
    var h := HandBlock(kind, s.pics, k, first.block, first.bad);
    var t := SetPending(s, s.works.pending[j := Attach(w, h)]).(memory := s.memory.(last := Some(w.frame)));
    UpdateKeeps(s, j, Attach(w, h), id);
    DetectNoShowKeeps(t, w.frame, id);
  }

  lemma {:induction false} ConfirmKeeps(s: State, id: nat)
    requires s.pics.pictures != []
    ensures Reports(s, Confirm(s).s, id)
  {
    ReportIfFinishedKeeps(s, s.pics.pictures[0].id, false, id);
  }

  lemma {:induction false} CloneKeeps(kind: Kind, s: State, k: nat, last: Frame, id: nat)
    requires k < |s.pics.blocks| && s.pics.pictures != []
    ensures Reports(s, Clone(kind, s, k, last), id)
  {
    var h := HandBlock(kind, s.pics, k, s.pics.pictures[0].block, s.pics.pictures[0].bad);
    DetectNoShowKeeps(s.(pics := h.pics, log := s.log.(clones := s.log.clones + 1)), last, id);
  }

  lemma {:induction false} SendPictureKeeps(kind: Kind, s: State, drop: bool, k: nat, j: nat, id: nat)
    requires k < |s.pics.blocks| && s.pics.pictures != [] && j < |s.works.pending|
    ensures Reports(s, SendPicture(kind, s, drop, k, j).s, id)
  {
    PlaceKeeps(kind, s, k, j, id);
    ConfirmKeeps(Place(kind, s, k, j), id);
  }

  lemma {:induction false} FrontKeeps(kind: Kind, s: State, drop: bool, id: nat)
    requires s.pics.pictures != []
    ensures Reports(s, Front(kind, s, drop).s, id)
  {
    var k := FindBlock(s.pics.blocks, s.pics.pictures[0].block);
    var j := Find(s.works.pending, s.pics.pictures[0].id);
    if k < |s.pics.blocks| && s.pics.blocks[k].owner != Accelerator {
      if j == |s.works.pending| {
        if s.memory.last.Some? {
          CloneKeeps(kind, s, k, s.memory.last.value, id);
        }
      } else if s.works.pending[j].input != Buffer {
        if s.pics.pictures[0].setOut {
          ConfirmKeeps(s, id);
        } else {
          SendPictureKeeps(kind, s, drop, k, j, id);
        }
      }
    }
  }

  lemma {:induction false} SendPicturesKeeps(kind: Kind, s: State, drop: bool, id: nat)
    ensures Reports(s, SendPictures(kind, s, drop).0, id)
    decreases |s.pics.pictures|
  {
    if s.pics.pictures != [] {
      FrontKeeps(kind, s, drop, id);
      match Front(kind, s, drop)
      case Halt(_, _) =>
      case Go(t) => SendPicturesKeeps(kind, t, drop, id);
    }
  }

  // ---------- handlers ----------

  lemma {:induction false} QueueWorkKeeps(s: State, w: Work, id: nat)
    ensures Debt(OnQueueWork(s, w), id) == Debt(s, id)
  {
    var entry := w.(drain := if w.frame.eos then DrainWithEos else NoDrain);
    CountPush(s.works.queue, entry, id);
    CountPush(s.log.accepted, entry, id);
  }

  lemma {:induction false} DequeueWorkKeeps(s: State, sent: bool, id: nat)
    ensures Debt(OnDequeueWork(s, sent), id) == Debt(s, id)
  {
    if s.works.queue != [] {
      var w := s.works.queue[0];
      CountPush(s.works.pending, Taken(w), id);
      assert Debt(TakeWork(Reuse(s), sent), id) == Debt(s, id);
      ReportIfFinishedKeeps(TakeWork(Reuse(s), sent), BitstreamId(w), EmptyWork(w), id);
    }
  }

  lemma {:induction false} InputDoneKeeps(s: State, bitstream: int, id: nat)
    ensures Reports(s, OnInputDone(s, bitstream), id)
  {
    var k := Find(s.works.pending, bitstream);
    if k < |s.works.pending| {
      var w := s.works.pending[k].(input := EmptySlot);
      UpdateKeeps(s, k, w, id);
      ReportIfFinishedKeeps(SetPending(s, s.works.pending[k := w]), bitstream, false, id);
    }
  }

  lemma {:induction false} PictureKeeps(kind: Kind, s: State, block: int, bitstream: int, bad: bool, id: nat)
    ensures Reports(s, OnPicture(kind, s, block, bitstream, bad), id)
  {
    var k := FindBlock(s.pics.blocks, block);
    if k < |s.pics.blocks| {
      SendPicturesKeeps(kind, Keep(s, k, Picture(bitstream, block, bad, false)), false, id);
    }
  }

  lemma {:induction false} ChangeFormatKeeps(kind: Kind, s: State, c: Change)
    ensures TryChangeFormat(kind, s, c).works == s.works && TryChangeFormat(kind, s, c).log == s.log
  {
  }

  lemma {:induction false} BlockReturnedKeeps(kind: Kind, s: State, block: int, obsolete: bool, changed: bool,
                                              c: Change, id: nat)
    ensures Reports(s, OnBlockReturned(kind, s, block, obsolete, changed, c), id)
  {
    hide TryChangeFormat, SendPictures, Returned, Count;
    var k := Returned(s.pics.blocks, block);
    if k < |s.pics.blocks| {
      var t := Return(Bind(s, k), k);
      ChangeFormatKeeps(kind, t, c);
      FormatKeepsPhase(kind, t, c);
      SendPicturesKeeps(kind, t, false, id);
      assert t.works == s.works && t.log == s.log && t.mode == s.mode;
      hide Return, Bind;
    }
  }

  lemma {:induction false} DrainKeeps(s: State, eos: bool, id: nat)
    ensures Debt(OnDrain(s, eos), id) == Debt(s, id)
  {
    var q := s.works.queue;
    if q != [] {
      CountSame(q, q[|q| - 1 := q[|q| - 1].(drain := if eos then DrainWithEos else DrainNoEos)], id);
    }
  }

  lemma {:induction false} DrainDoneKeeps(kind: Kind, s: State, id: nat)
    ensures Debt(OnDrainDone(kind, s), id) == Debt(s, id)
  {
    if s.mode.phase == Stopping {
      ReportEosKeeps(s, id);
    } else {
      var mode := if s.mode.phase == Draining then Enter(s.mode, Started) else s.mode;
      SendPicturesKeeps(kind, s.(mode := mode), true, id);
      ReportEosKeeps(SendPictures(kind, s.(mode := mode), true).0, id);
    }
  }

  lemma {:induction false} FlushDoneKeeps(s: State, id: nat)
    ensures Debt(OnFlushDone(s), id) == Debt(s, id)
  {
    var a, b := s.works.abandoned + s.works.queue, s.works.pending;
    CountAppend(s.works.abandoned, s.works.queue, id);
    CountSame(a, Abandon(a), id);
    CountSame(b, Abandon(b), id);
    CountAppend(Abandon(a), Abandon(b), id);
    CountAppend(s.log.dropped, s.works.flushList, id);
  }

  lemma {:induction false} StopDoneKeeps(s: State, id: nat)
    ensures Debt(OnStopDone(s), id) == Debt(s, id)
  {
    ReportAbandonedKeeps(s, id);
  }

  lemma {:induction false} StopKeeps(s: State, id: nat)
    ensures Debt(OnStop(s), id) == Debt(s, id)
  {
    CountAppend(s.works.abandoned, s.works.queue, id);
    StopDoneKeeps(s.(works := s.works.(abandoned := s.works.abandoned + s.works.queue, queue := []),
                     mode := s.mode.(phase := Stopping)), id);
  }

  lemma {:induction false} NoOutKeeps(s: State, id: nat)
    ensures Reports(s, ReportNoOut(s), id)
    decreases |s.memory.noOut|
  {
    if s.memory.noOut != [] {
      var k := Find(s.works.pending, s.memory.noOut[0]);
      if k < |s.works.pending| && s.works.pending[k].input != Buffer {
        ReportAtKeeps(s, k, s.works.pending[k].(result := Done), id);
        var t := ReportAt(s, k, s.works.pending[k].(result := Done));
        NoOutKeeps(t.(memory := t.memory.(noOut := t.memory.noOut[1..])), id);
      }
    }
  }

  lemma {:induction false} ErrorFrameKeeps(s: State, bitstream: int, tooMany: bool, id: nat)
    ensures Reports(s, OnErrorFrame(s, bitstream, tooMany), id)
  {
    var k := Find(s.works.pending, bitstream);
    if k < |s.works.pending| {
      var w := s.works.pending[k].(out := s.works.pending[k].out.(drop := true));
      UpdateKeeps(s, k, w, id);
      ReportIfFinishedKeeps(SetPending(s, s.works.pending[k := w]), bitstream, false, id);
    }
  }

  lemma {:induction false} ReportEachKeeps(s: State, ids: seq<nat>, id: nat)
    ensures Reports(s, ReportEach(s, ids), id)
    decreases |ids|
  {
    if ids != [] {
      ReportIfFinishedKeeps(s, ids[0], false, id);
      ReportEachKeeps(ReportIfFinished(s, ids[0], false).0, ids[1..], id);
    }
  }

  lemma {:induction false} PickUpKeeps(s: State, id: nat)
    ensures Debt(PickUp(s), id) == Debt(s, id)
  {
    CountAppend(s.log.flushed, s.works.flushList, id);
  }

  /** Events that touch no work. */
  predicate NoWork(e: Event) {
    e.NewBlock? || e.FormatChanged? || e.ChangeFormat? || e.FlushRequest? || e.NoOutFrame? || e.DecoderError?
    || e.FlushTimeout? || e.Start? || e.Destroy?
  }

  lemma {:induction false} NoWorkKeeps(kind: Kind, s: State, e: Event)
    requires NoWork(e)
    ensures Handle(kind, s, e).works == s.works && Handle(kind, s, e).log == s.log
  {
  }

  /** Events that bring pictures and works together. */
  predicate Output(e: Event) {
    e.InputDone? || e.PictureDone? || e.HandOutPictures? || e.BlockReturned? || e.NoOutFrames? || e.ErrorFrame?
    || e.NoShowFrames?
  }

  lemma {:induction false} OutputKeeps(kind: Kind, s: State, e: Event, id: nat)
    requires Output(e)
    ensures Reports(s, Handle(kind, s, e), id)
  {
    hide OnInputDone, OnPicture, SendPictures, OnBlockReturned, ReportNoOut, OnErrorFrame, ReportEach, Count;
    match e
    case InputDone(bitstream) => InputDoneKeeps(s, bitstream, id);
    case PictureDone(block, bitstream, bad) => PictureKeeps(kind, s, block, bitstream, bad, id);
    case HandOutPictures => SendPicturesKeeps(kind, s, false, id);
    case BlockReturned(block, obsolete, changed, change) =>
      BlockReturnedKeeps(kind, s, block, obsolete, changed, change, id);
    case NoOutFrames => NoOutKeeps(s, id);
    case ErrorFrame(bitstream, tooMany) => ErrorFrameKeeps(s, bitstream, tooMany, id);
    case NoShowFrames => ReportEachKeeps(s, s.memory.noShow, id);
  }

  /** The end of a drain, a flush or a stop. */
  predicate Ending(e: Event) { e.DrainDone? || e.StopRequest? || e.FlushOrStopDone? || e.PickUpFlushed? }

  lemma {:induction false} EndingKeeps(kind: Kind, s: State, e: Event, id: nat)
    requires Ending(e)
    ensures Debt(Handle(kind, s, e), id) == Debt(s, id)
  {
    hide OnDrainDone, OnStop, OnFlushDone, OnStopDone, PickUp, Count;
    match e
    case DrainDone => DrainDoneKeeps(kind, s, id);
    case StopRequest => StopKeeps(s, id);
    case FlushOrStopDone =>
      if s.mode.phase == Flushing {
        FlushDoneKeeps(s, id);
      } else if s.mode.phase == Stopping {
        StopDoneKeeps(s, id);
      }
    case PickUpFlushed => PickUpKeeps(s, id);
  }

  lemma {:induction false} EventKeeps(kind: Kind, s: State, e: Event, id: nat)
    ensures Debt(Handle(kind, s, e), id) == Debt(s, id)
  {
    if Output(e) {
      OutputKeeps(kind, s, e, id);
    } else if NoWork(e) {
      NoWorkKeeps(kind, s, e);
    } else if Ending(e) {
      EndingKeeps(kind, s, e, id);
    } else {
      match e
      case QueueWork(w) => QueueWorkKeeps(s, w, id);
      case DequeueWork(sent) => DequeueWorkKeeps(s, sent, id);
      case DrainRequest(eos) => DrainKeeps(s, eos, id);
    }
  }

  lemma {:induction false} RunKeeps(kind: Kind, s: State, events: seq<Event>, id: nat)
    ensures Debt(Run(kind, s, events), id) == Debt(s, id)
    decreases |events|
  {
    if events != [] {
      EventKeeps(kind, s, events[0], id);
      RunKeeps(kind, Handle(kind, s, events[0]), events[1..], id);
    }
  }

  /** One more event at the end. */
  lemma {:induction false} RunAppend(kind: Kind, s: State, events: seq<Event>, e: Event)
    ensures Run(kind, s, events + [e]) == Handle(kind, Run(kind, s, events), e)
    decreases |events|
  {
    hide Handle;
    if events == [] {
      assert [] + [e] == [e] && [e][1..] == [];
    } else {
      assert (events + [e])[1..] == events[1..] + [e];
      RunAppend(kind, Handle(kind, s, events[0]), events[1..], e);
    }
  }

  /** A work as a client queues it. */
  function Fresh(id: nat, index: nat, input: Input, eos: bool): Work {
    Work(id, Frame(index, 0, false, eos, false, false), input, NoDrain, Out(false, false, false), Unset)
  }

  /** The start of a run with one work. */
  function FirstQueued(w: Work): seq<Event> { [Start(true), QueueWork(w)] }

  lemma {:induction false} FirstQueuedState(kind: Kind, w: Work)
    ensures var s := Run(kind, Initial, FirstQueued(w));
            && s.works == Works([w.(drain := if w.frame.eos then DrainWithEos else NoDrain)], [], [], [])
            && s.mode == Mode(Started, false, false, false, false, false) && s.memory == Initial.memory
            && s.log == Log(s.works.queue, [], [], [], 0) && s.pics == Initial.pics
  {
    var s := Handle(kind, Initial, Start(true));
    assert [Start(true)] + [QueueWork(w)] == FirstQueued(w);
    assert [] + [Start(true)] == [Start(true)];
    RunAppend(kind, Initial, [], Start(true));
    RunAppend(kind, Initial, [Start(true)], QueueWork(w));
    assert s.mode == Mode(Started, false, false, false, false, false);
  }

  lemma {:induction false} FirstPendingState(kind: Kind, w: Work)
    requires !EmptyConfig(w) && !EmptyWork(w)
    ensures var t := Run(kind, Initial, FirstQueued(w) + [DequeueWork(true)]);
            && t.works == Works([], [Taken(w.(drain := if w.frame.eos then DrainWithEos else NoDrain))], [], [])
            && t.mode == Mode(if w.frame.eos then Draining else Started, false, w.frame.eos, false, false, false)
            && t.memory == Initial.memory && t.pics == Initial.pics && t.log.reported == []
  {
    FirstQueuedState(kind, w);
    RunAppend(kind, Initial, FirstQueued(w), DequeueWork(true));
    hide Run, Find, ReportIfFinished, FirstQueued;
  }

  /** Conservation of works in every run: each work taken over is accounted for, and one that was taken
      over once is in exactly one place, so it is reported at most once. */
  lemma {:induction false} RunConserves(kind: Kind, events: seq<Event>)
    ensures var s := Run(kind, Initial, events);
            && Conserved(s)
            && (forall id: nat :: Count(s.log.accepted, id) == 1 ==>
                                    InHands(s.works, id) + Left(s.log, id) == 1 && Count(s.log.reported, id) <= 1)
  {
    var s := Run(kind, Initial, events);
    forall id: nat
      ensures Count(s.log.accepted, id) == InHands(s.works, id) + Left(s.log, id)
    {
      RunKeeps(kind, Initial, events, id);
      assert Debt(Initial, id) == 0;
    }
  }

  // ---------- what is lost ----------

  /** The decoder's message that a flush is complete. */
  predicate Completes(s: State, e: Event) {
    e.FlushOrStopDone? && s.mode.phase == Flushing && !s.mode.error
  }

  /** The component has works that a flush would hand back. */
  predicate HasWorks(w: Works) { w.queue != [] || w.pending != [] || w.abandoned != [] }

  /** A flush hands its works over in the flush list, in place of what it holds; the client empties it. */
  lemma {:induction false} EventFlushes(kind: Kind, s: State, e: Event)
    ensures var t := Handle(kind, s, e);
            if Completes(s, e) then
              && t.log.dropped == s.log.dropped + s.works.flushList
              && (t.works.flushList == [] <==> !HasWorks(s.works))
            else
              && t.log.dropped == s.log.dropped
              && t.works.flushList == if e.PickUpFlushed? then [] else s.works.flushList
  {
    if Output(e) {
      OutputKeeps(kind, s, e, 0);
    } else if NoWork(e) {
      NoWorkKeeps(kind, s, e);
    } else if e.DrainDone? {
      DrainDoneReports(kind, s);
    } else if e.DequeueWork? {
      DequeueReports(s, e.sent);
    } else {
      EndFlushes(kind, s, e);
    }
    hide Handle, HasWorks;
  }

  /** The end of a drain reports works and moves none to or from a flush list. */
  lemma {:induction false} DrainDoneReports(kind: Kind, s: State)
    ensures var t := OnDrainDone(kind, s);
            && t.log.dropped == s.log.dropped && t.works.flushList == s.works.flushList
            && s.log.reported <= t.log.reported
            && t.mode.phase == if s.mode.phase == Draining && !s.mode.error then Started else s.mode.phase
  {
    hide SendPictures, Abandon, Count, InHands, Left;
    SendPicturesKeeps(kind, s.(mode := if s.mode.phase == Draining then Enter(s.mode, Started) else s.mode), true, 0);
  }

  lemma {:induction false} DequeueReports(s: State, sent: bool)
    ensures var t := OnDequeueWork(s, sent);
            && t.log.dropped == s.log.dropped && t.works.flushList == s.works.flushList
            && s.log.reported <= t.log.reported
  {
    if s.works.queue != [] {
      var w, t := s.works.queue[0], TakeWork(Reuse(s), sent);
      assert t.log == s.log && t.works.flushList == s.works.flushList;
      ReportIfFinishedKeeps(t, BitstreamId(w), EmptyWork(w), 0);
      hide TakeWork, Reuse, ReportIfFinished, Count;
    }
  }

  lemma {:induction false} EndFlushes(kind: Kind, s: State, e: Event)
    requires e.QueueWork? || e.DrainRequest? || e.StopRequest? || e.FlushOrStopDone? || e.PickUpFlushed?
    ensures var t := Handle(kind, s, e);
            if Completes(s, e) then
              && t.log.dropped == s.log.dropped + s.works.flushList
              && (t.works.flushList == [] <==> !HasWorks(s.works))
            else
              && t.log.dropped == s.log.dropped
              && t.works.flushList == if e.PickUpFlushed? then [] else s.works.flushList
  {
    hide Reclaim;
    if Completes(s, e) {
      assert Handle(kind, s, e) == OnFlushDone(s);
    }
  }

  /** Whether works wait to be picked up after an event: those of a flush that completed and had some, until
      the client picks them up. */
  predicate DueAfter(s: State, e: Event, due: bool) {
    if Completes(s, e) then HasWorks(s.works) else due && !e.PickUpFlushed?
  }

  /** Between a flush that hands works back and the completion of the next one the client picks them up. */
  predicate Collected(kind: Kind, s: State, events: seq<Event>, due: bool)
    decreases |events|
  {
    events == []
    || (!(due && Completes(s, events[0]))
        && Collected(kind, Handle(kind, s, events[0]), events[1..], DueAfter(s, events[0], due)))
  }

  lemma {:induction false} DropsGrow(kind: Kind, s: State, events: seq<Event>)
    ensures |s.log.dropped| <= |Run(kind, s, events).log.dropped|
    decreases |events|
  {
    if events != [] {
      EventFlushes(kind, s, events[0]);
      DropsGrow(kind, Handle(kind, s, events[0]), events[1..]);
    }
  }

  /** A run loses no work exactly if the client picks up what a flush hands back before the next completes. */
  lemma {:induction false} NothingLostIff(kind: Kind, s: State, events: seq<Event>)
    ensures Run(kind, s, events).log.dropped == s.log.dropped <==> Collected(kind, s, events, s.works.flushList != [])
    decreases |events|
  {
    if events != [] {
      hide Handle, Completes;
      EventFlushes(kind, s, events[0]);
      var t := Handle(kind, s, events[0]);
      DropsGrow(kind, t, events[1..]);
      NothingLostIff(kind, t, events[1..]);
      assert s.log.dropped + [] == s.log.dropped;
      assert Run(kind, s, events) == Run(kind, t, events[1..]);
    }
  }

  /** For instance: two flushes complete before the client picks up the work of the first. */
  lemma {:induction false} LossWitness(kind: Kind, w: Work)
    ensures var events := FirstQueued(w) + [FlushRequest] + [FlushOrStopDone] + [FlushRequest] + [FlushOrStopDone];
            |Run(kind, Initial, events).log.dropped| == 1
  {
    FirstQueuedState(kind, w);
    hide Run;
    var a := FirstQueued(w);
    var s := Run(kind, Initial, a);
    var entry := s.works.queue[0];
    RunAppend(kind, Initial, a, FlushRequest);
    RunAppend(kind, Initial, a + [FlushRequest], FlushOrStopDone);
    RunAppend(kind, Initial, a + [FlushRequest] + [FlushOrStopDone], FlushRequest);
    RunAppend(kind, Initial, a + [FlushRequest] + [FlushOrStopDone] + [FlushRequest], FlushOrStopDone);
    FlushedOnce(kind, s);
    var t := Handle(kind, Handle(kind, s, FlushRequest), FlushOrStopDone);
    FlushedOnce(kind, t);
  }

  lemma {:induction false} FlushedOnce(kind: Kind, s: State)
    requires s.mode.phase == Started
    ensures var t := Handle(kind, Handle(kind, s, FlushRequest), FlushOrStopDone);
            && t.mode.phase == Started && t.log.dropped == s.log.dropped + s.works.flushList
            && |t.works.flushList| == |s.works.abandoned + s.works.queue| + |s.works.pending|
  {
    var r := Handle(kind, s, FlushRequest);
    assert r.works == s.works && r.log == s.log && r.mode.phase == Flushing && !r.mode.error;
    assert Handle(kind, r, FlushOrStopDone) == OnFlushDone(r);
  }

  // ---------- the client's protocol ----------

  /** A client that flushes asks, waits for the completion, and picks the works up before it asks again. */
  datatype ClientTurn = Idle | Asked | HandedBack

  predicate Allowed(c: ClientTurn, e: Event) {
    (e.FlushRequest? ==> c.Idle?) && (e.PickUpFlushed? ==> c.HandedBack?) && !e.FlushTimeout?
  }

  function ClientAfter(c: ClientTurn, s: State, e: Event): ClientTurn {
    if e.FlushRequest? then Asked else if Completes(s, e) then HandedBack else if e.PickUpFlushed? then Idle else c
  }

  predicate Polite(kind: Kind, s: State, c: ClientTurn, events: seq<Event>)
    decreases |events|
  {
    events == []
    || (Allowed(c, events[0])
        && Polite(kind, Handle(kind, s, events[0]), ClientAfter(c, s, events[0]), events[1..]))
  }

  /** Only a request starts a flush, and its works wait only for a client that has been told of them. */
  predicate InTurn(s: State, c: ClientTurn) {
    (s.mode.phase == Flushing ==> c.Asked?) && (!c.HandedBack? ==> s.works.flushList == [])
  }

  lemma {:induction false} FlushNeedsRequest(kind: Kind, s: State, e: Event)
    requires Handle(kind, s, e).mode.phase == Flushing
    ensures e.FlushRequest? || (s.mode.phase == Flushing && !Completes(s, e))
  {
    if Output(e) {
      OutputKeeps(kind, s, e, 0);
    } else if e.DrainDone? {
      DrainDoneReports(kind, s);
    } else {
      EndNeedsRequest(kind, s, e);
    }
    hide Handle;
  }

  lemma {:induction false} EndNeedsRequest(kind: Kind, s: State, e: Event)
    requires !Output(e) && !e.DrainDone? && Handle(kind, s, e).mode.phase == Flushing
    ensures e.FlushRequest? || (s.mode.phase == Flushing && !Completes(s, e))
  {
    hide TryChangeFormat, OnFormatChanged, OnDequeueWork, Abandon, Reclaim, BlocksOf, FindBlock, SetOwner;
    match e
    case FormatChanged(change) => FormatKeepsPhase(kind, s, change);
    case ChangeFormat(change) => FormatKeepsPhase(kind, s, change);
    case DequeueWork(sent) => DequeuePhase(s, sent);
    case _ =>
  }

  lemma {:induction false} DequeuePhase(s: State, sent: bool)
    ensures OnDequeueWork(s, sent).mode.phase in {s.mode.phase, Draining}
  {
    if s.works.queue != [] {
      var w := s.works.queue[0];
      var t := TakeWork(Reuse(s), sent);
      assert t.mode.phase in {s.mode.phase, Draining} by {
        hide Reclaim, Taken;
      }
      ReportIfFinishedKeeps(t, BitstreamId(w), EmptyWork(w), 0);
      hide TakeWork, ReportIfFinished, Reuse;
    }
  }

  lemma {:induction false} FormatKeepsPhase(kind: Kind, s: State, c: Change)
    ensures var t := TryChangeFormat(kind, s, c); t.mode.phase == s.mode.phase && t.mode.pendingEos == s.mode.pendingEos
    ensures !s.mode.format ==> var t := OnFormatChanged(kind, s, c);
                               t.mode.phase == s.mode.phase && t.mode.pendingEos == s.mode.pendingEos
  {
    hide PassAll, Fetched, Resize;
  }

  lemma {:induction false} PoliteRun(kind: Kind, s: State, c: ClientTurn, events: seq<Event>)
    requires InTurn(s, c) && Polite(kind, s, c, events)
    ensures Run(kind, s, events).log.dropped == s.log.dropped
    decreases |events|
  {
    if events != [] {
      hide Handle;
      var t := Handle(kind, s, events[0]);
      EventFlushes(kind, s, events[0]);
      if t.mode.phase == Flushing {
        FlushNeedsRequest(kind, s, events[0]);
      }
      assert s.log.dropped + [] == s.log.dropped;
      PoliteRun(kind, t, ClientAfter(c, s, events[0]), events[1..]);
    }
  }

  /** With such clients, whatever else happens: no work is lost, and each work that was taken over once is in
      one of the four containers, reported, or handed back by a flush. */
  lemma {:induction false} PoliteRunsConserve(kind: Kind, events: seq<Event>)
    requires Polite(kind, Initial, ClientTurn.Idle, events)
    ensures var s := Run(kind, Initial, events);
            && s.log.dropped == []
            && forall id: nat :: Count(s.log.accepted, id)
                                 == InHands(s.works, id) + Count(s.log.reported, id) + Count(s.log.flushed, id)
  {
    PoliteRun(kind, Initial, ClientTurn.Idle, events);
    RunConserves(kind, events);
  }
}
