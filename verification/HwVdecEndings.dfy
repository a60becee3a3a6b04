/** How the hardware video decoder ends things: a stop and a flush leave no work behind, and a drain to
    the end of the stream has a work to mark. */
module HwVdecEndings {
  import opened Options
  import opened HwVdec
  import opened HwVdecConservation

  // ---------- stop ----------

  /** What may happen between a stop request and its completion, when no other call overlaps it. */
  predicate Quiet(e: Event) {
    !e.QueueWork? && !e.Start? && !e.Destroy? && !e.StopRequest? && !e.FlushOrStopDone? && !e.FlushTimeout?
  }

  predicate AllQuiet(events: seq<Event>) {
    forall i :: 0 <= i < |events| ==> Quiet(events[i])
  }

  predicate StopsEmpty(s: State) { s.mode.phase == Stopping && s.works.queue == [] }

  lemma {:induction false} QuietStep(kind: Kind, s: State, e: Event)
    requires StopsEmpty(s) && Quiet(e)
    ensures var t := Handle(kind, s, e);
            StopsEmpty(t) && t.works.flushList == if e.PickUpFlushed? then [] else s.works.flushList
  {
    if Output(e) {
      OutputKeeps(kind, s, e, 0);
      hide Handle;
    } else if NoWork(e) {
      QuietNoWork(kind, s, e);
      hide Handle;
    } else {
      hide SendPictures, ReportIfFinished, Reclaim;
    }
  }

  lemma {:induction false} QuietNoWork(kind: Kind, s: State, e: Event)
    requires StopsEmpty(s) && NoWork(e) && Quiet(e)
    ensures var t := Handle(kind, s, e); StopsEmpty(t) && t.works.flushList == s.works.flushList
  {
    hide TryChangeFormat, OnFormatChanged;
    NoWorkKeeps(kind, s, e);
    if e.FormatChanged? || e.ChangeFormat? {
      FormatKeepsPhase(kind, s, e.change);
    }
  }

  lemma {:induction false} QuietRun(kind: Kind, s: State, events: seq<Event>)
    requires StopsEmpty(s) && AllQuiet(events)
    ensures var t := Run(kind, s, events);
            StopsEmpty(t) && t.works.flushList == if PickUpFlushed in events then [] else s.works.flushList
    decreases |events|
  {
    if events != [] {
      QuietStep(kind, s, events[0]);
      QuietRun(kind, Handle(kind, s, events[0]), events[1..]);
      assert PickUpFlushed in events <==> events[0] == PickUpFlushed || PickUpFlushed in events[1..];
    }
  }

  predicate Emptied(s: State) {
    && s.mode.phase == Uninitialized
    && s.works.queue == [] && s.works.pending == [] && s.works.abandoned == []
    && s.pics.pictures == [] && s.pics.blocks == []
  }

  /** The state when the stop that was requested in `s` is complete; in an error that is at once. */
  function Stopped(kind: Kind, s: State, events: seq<Event>): State {
    if s.mode.error then OnStop(s) else Handle(kind, Run(kind, OnStop(s), events), FlushOrStopDone)
  }

  /** A stop that no other call overlaps leaves no work and no block behind; the works of an earlier flush
      are gone too exactly if the client picked them up. */
  lemma {:induction false} StopEmpties(kind: Kind, s: State, events: seq<Event>)
    requires s.mode.phase != Uninitialized && AllQuiet(events)
    ensures var t := Stopped(kind, s, events);
            && Emptied(t)
            && (t.works.flushList == [] <==> s.works.flushList == [] || (!s.mode.error && PickUpFlushed in events))
  {
    if !s.mode.error {
      QuietRun(kind, OnStop(s), events);
      hide Run;
      StopCompletes(kind, Run(kind, OnStop(s), events));
    }
  }

  lemma {:induction false} StopCompletes(kind: Kind, s: State)
    requires StopsEmpty(s)
    ensures var t := Handle(kind, s, FlushOrStopDone); Emptied(t) && t.works.flushList == s.works.flushList
  {
    assert Handle(kind, s, FlushOrStopDone) == OnStopDone(s);
  }

  /** Every work taken over in a run that ends with such a stop has gone back to the client, or was lost by
      a flush that overwrote an earlier one. */
  lemma {:induction false} StopReturnsAll(kind: Kind, before: seq<Event>, events: seq<Event>, id: nat)
    requires var s := Run(kind, Initial, before);
             s.mode.phase != Uninitialized && s.works.flushList == [] && AllQuiet(events)
    ensures var t := Stopped(kind, Run(kind, Initial, before), events);
            Count(t.log.accepted, id) == Left(t.log, id)
  {
    var s := Run(kind, Initial, before);
    StopEmpties(kind, s, events);
    RunKeeps(kind, Initial, before, id);
    StopKeeps(s, id);
    RunKeeps(kind, OnStop(s), events, id);
    EventKeeps(kind, Run(kind, OnStop(s), events), FlushOrStopDone, id);
    assert Debt(Initial, id) == 0;
  }

  // ---------- flush ----------

  /** The works of a flush in the order in which the client gets them: first those queued, then those
      the decoder had. */
  function FlushOrder(w: Works): seq<Work> { w.abandoned + w.queue + w.pending }

  lemma {:induction false} AbandonAppend(a: seq<Work>, b: seq<Work>)
    ensures Abandon(a) + Abandon(b) == Abandon(a + b)
  {
  }

  /** A flush that completes without error, and is picked up, hands back every work that the component
      had, in order and marked as not done, and leaves none. */
  lemma {:induction false} FlushHandsBack(s: State)
    requires s.mode.phase == Flushing && !s.mode.error && s.works.flushList == []
    ensures var t := PickUp(OnFlushOrStopDone(s));
            && t.works == Works([], [], [], []) && t.pics.pictures == [] && t.mode.phase == Started
            && t.log.flushed == s.log.flushed + Abandon(FlushOrder(s.works))
            && t.log.reported == s.log.reported && t.log.dropped == s.log.dropped
  {
    AbandonAppend(s.works.abandoned + s.works.queue, s.works.pending);
    assert s.log.dropped + [] == s.log.dropped;
  }

  lemma {:induction false} FlushReturnsState(s: State, id: nat)
    requires s.mode.phase == Flushing && !s.mode.error && s.works.flushList == [] && Debt(s, id) == 0
    ensures var t := PickUp(OnFlushOrStopDone(s)); Count(t.log.accepted, id) == Left(t.log, id)
  {
    FlushHandsBack(s);
    FlushDoneKeeps(s, id);
    PickUpKeeps(OnFlushDone(s), id);
    assert OnFlushOrStopDone(s) == OnFlushDone(s);
    hide OnFlushDone, PickUp, OnFlushOrStopDone;
  }

  /** Hence after it, in any run, every work taken over before has been given back. */
  lemma {:induction false} FlushReturnsAll(kind: Kind, before: seq<Event>, id: nat)
    requires var s := Run(kind, Initial, before);
             s.mode.phase == Flushing && !s.mode.error && s.works.flushList == []
    ensures var t := PickUp(OnFlushOrStopDone(Run(kind, Initial, before)));
            Count(t.log.accepted, id) == Left(t.log, id)
  {
    RunKeeps(kind, Initial, before, id);
    assert Debt(Initial, id) == 0;
    hide Run, PickUp, OnFlushOrStopDone;
    FlushReturnsState(Run(kind, Initial, before), id);
  }

  // ---------- end of stream ----------

  /** The decoder drains to the end of the stream, and a work is there to be marked. */
  predicate EosWaits(s: State) {
    s.mode.phase == Draining && s.mode.pendingEos && s.works.pending != []
  }

  predicate LastKept(s: State, t: State) {
    && t.mode.pendingEos == s.mode.pendingEos && t.mode.phase == s.mode.phase
    && (s.mode.pendingEos && s.works.pending != [] ==> t.works.pending != [])
  }

  lemma {:induction false} CloneKeepsLast(kind: Kind, s: State, k: nat, last: Frame)
    requires k < |s.pics.blocks| && s.pics.pictures != []
    ensures LastKept(s, Clone(kind, s, k, last))
  {
    hide HandBlock, MarkNoShow, NoShowIds;
  }

  lemma {:induction false} PlaceKeepsLast(kind: Kind, s: State, k: nat, j: nat)
    requires k < |s.pics.blocks| && s.pics.pictures != [] && j < |s.works.pending|
    ensures LastKept(s, Place(kind, s, k, j))
  {
    hide HandBlock, MarkNoShow, NoShowIds;
  }

  lemma {:induction false} FrontKeepsLast(kind: Kind, s: State, drop: bool)
    requires s.pics.pictures != []
    ensures LastKept(s, Front(kind, s, drop).s)
  {
    hide Find, FindBlock, HandBlock, DetectNoShow, SetOwner, Place;
    var k := FindBlock(s.pics.blocks, s.pics.pictures[0].block);
    var j := Find(s.works.pending, s.pics.pictures[0].id);
    if k < |s.pics.blocks| && s.pics.blocks[k].owner != Accelerator {
      if j == |s.works.pending| {
        if s.memory.last.Some? {
          CloneKeepsLast(kind, s, k, s.memory.last.value);
          hide Clone;
        }
      } else if s.works.pending[j].input != Buffer {
        if s.pics.pictures[0].setOut {
          assert LastKept(s, Confirm(s).s);
        } else {
          PlaceKeepsLast(kind, s, k, j);
          assert LastKept(Place(kind, s, k, j), Confirm(Place(kind, s, k, j)).s);
        }
      }
    }
  }

  lemma {:induction false} SendPicturesKeepsLast(kind: Kind, s: State, drop: bool)
    ensures LastKept(s, SendPictures(kind, s, drop).0)
    decreases |s.pics.pictures|
  {
    if s.pics.pictures != [] {
      FrontKeepsLast(kind, s, drop);
      match Front(kind, s, drop)
      case Halt(_, _) =>
      case Go(t) => SendPicturesKeepsLast(kind, t, drop);
    }
  }

  lemma {:induction false} ReportEachKeepsLast(s: State, ids: seq<nat>)
    ensures LastKept(s, ReportEach(s, ids))
    decreases |ids|
  {
    if ids != [] {
      assert LastKept(s, ReportIfFinished(s, ids[0], false).0);
      ReportEachKeepsLast(ReportIfFinished(s, ids[0], false).0, ids[1..]);
    }
  }

  /** Events during a drain, except its end and other calls. */
  predicate DuringDrain(e: Event) {
    !e.DrainDone? && !e.FlushRequest? && !e.StopRequest? && !e.FlushTimeout? && !e.Start? && !e.Destroy?
  }

  function Ids(ws: seq<Work>): (r: seq<int>)
    ensures |r| == |ws|
  {
    seq(|ws|, i requires 0 <= i < |ws| => BitstreamId(ws[i]))
  }

  /** The ids announced to have no picture begin with those of all pending works, in any order, and the
      decoder is done with their inputs. */
  predicate TakesAll(pending: seq<Work>, noOut: seq<int>) {
    && |pending| <= |noOut|
    && multiset(noOut[..|pending|]) == multiset(Ids(pending))
    && forall i :: 0 <= i < |pending| ==> pending[i].input != Buffer
  }

  lemma {:induction false} IdsWithout(ws: seq<Work>, k: nat)
    requires k < |ws|
    ensures multiset(Ids(ws)) == multiset(Ids(Without(ws, k))) + multiset{BitstreamId(ws[k])}
  {
    var ids := Ids(ws);
    assert ids == ids[..k] + [ids[k]] + ids[k + 1..];
    assert Ids(Without(ws, k)) == ids[..k] + ids[k + 1..];
  }

  lemma {:induction false} InputsWithout(ws: seq<Work>, k: nat)
    requires k < |ws| && ws[k].input != Buffer
    ensures (forall i :: 0 <= i < |ws| ==> ws[i].input != Buffer)
       <==> (forall i :: 0 <= i < |Without(ws, k)| ==> Without(ws, k)[i].input != Buffer)
  {
    var rest := Without(ws, k);
    forall i | 0 <= i < |ws| && i != k
      ensures ws[i] == rest[if i < k then i else i - 1]
    {
    }
    forall i | 0 <= i < |rest|
      ensures rest[i] == ws[if i < k then i else i + 1]
    {
    }
  }

  /** One announced work is reported: all are taken exactly if the other announcements take the others. */
  lemma {:induction false} TakesOne(pending: seq<Work>, noOut: seq<int>, k: nat)
    requires k < |pending| && noOut != [] && BitstreamId(pending[k]) == noOut[0] && pending[k].input != Buffer
    ensures TakesAll(pending, noOut) <==> TakesAll(Without(pending, k), noOut[1..])
  {
    var n := |pending| - 1;
    InputsWithout(pending, k);
    IdsWithout(pending, k);
    assert |Without(pending, k)| == n;
    hide Without, Ids;
    if n < |noOut| {
      var front := noOut[1..][..n];
      assert noOut[..n + 1] == [noOut[0]] + front;
      OneLess(noOut[0], multiset(front), multiset(Ids(Without(pending, k))));
    }
  }

  lemma {:induction false} OneLess(x: int, a: multiset<int>, b: multiset<int>)
    ensures multiset{x} + a == b + multiset{x} <==> a == b
  {
    assert (multiset{x} + a) - multiset{x} == a && (b + multiset{x}) - multiset{x} == b;
  }

  lemma {:induction false} TakesNone(pending: seq<Work>, noOut: seq<int>)
    requires pending != []
    requires noOut == [] || (var k := Find(pending, noOut[0]); k < |pending| ==> pending[k].input == Buffer)
    ensures !TakesAll(pending, noOut)
  {
    var n := |pending|;
    if n <= |noOut| && multiset(noOut[..n]) == multiset(Ids(pending)) {
      assert noOut[..n][0] in multiset(noOut[..n]);
      assert noOut[0] in Ids(pending);
      assert Find(pending, noOut[0]) < n;
    }
  }

  /** Reporting the works announced to have no picture leaves none pending if and only if the announcements
      take all of them. */
  lemma {:induction false} AllTakenIff(s: State)
    ensures ReportNoOut(s).works.pending == [] <==> TakesAll(s.works.pending, s.memory.noOut)
    decreases |s.memory.noOut|
  {
    var pending, noOut := s.works.pending, s.memory.noOut;
    if pending == [] {
      assert noOut[..0] == [] == Ids(pending);
    } else if noOut == [] || (var k := Find(pending, noOut[0]); k < |pending| ==> pending[k].input == Buffer) {
      TakesNone(pending, noOut);
    } else {
      var k := Find(pending, noOut[0]);
      var t := ReportAt(s, k, pending[k].(result := Done));
      TakesOne(pending, noOut, k);
      AllTakenIff(t.(memory := t.memory.(noOut := noOut[1..])));
    }
  }

  lemma {:induction false} PictureKeepsLast(kind: Kind, s: State, block: int, id: int, bad: bool)
    ensures LastKept(s, OnPicture(kind, s, block, id, bad))
  {
    var k := FindBlock(s.pics.blocks, block);
    if k < |s.pics.blocks| {
      SendPicturesKeepsLast(kind, Keep(s, k, Picture(id, block, bad, false)), false);
    }
    hide SendPictures, Find, FindBlock, SetOwner;
  }

  lemma {:induction false} ReturnKeepsLast(kind: Kind, s: State, block: int, obsolete: bool, changed: bool, c: Change)
    ensures LastKept(s, OnBlockReturned(kind, s, block, obsolete, changed, c))
  {
    var k := Returned(s.pics.blocks, block);
    if k < |s.pics.blocks| {
      var t := Return(Bind(s, k), k);
      assert t.works == s.works && t.mode == s.mode;
      SendPicturesKeepsLast(kind, t, false);
      ChangeFormatKeeps(kind, t, c);
      FormatKeepsPhase(kind, t, c);
    }
    hide SendPictures, TryChangeFormat, Returned, Return;
  }

  lemma {:induction false} InputKeepsLast(s: State, id: int)
    ensures LastKept(s, OnInputDone(s, id))
  {
    hide Find;
  }

  lemma {:induction false} ErrorKeepsLast(s: State, id: int, tooMany: bool)
    ensures LastKept(s, OnErrorFrame(s, id, tooMany))
  {
    var k := Find(s.works.pending, id);
    if k < |s.works.pending| {
      var w := s.works.pending[k].(out := s.works.pending[k].out.(drop := true));
      var t := SetPending(s, s.works.pending[k := w]);
      assert LastKept(t, ReportIfFinished(t, id, false).0);
    }
    hide Find, ReportIfFinished;
  }

  lemma {:induction false} NoOutKeepsMode(s: State)
    ensures ReportNoOut(s).mode == s.mode || ReportNoOut(s).mode == Fail(s.mode)
    decreases |s.memory.noOut|
  {
    if s.memory.noOut != [] {
      var k := Find(s.works.pending, s.memory.noOut[0]);
      if k < |s.works.pending| && s.works.pending[k].input != Buffer {
        var t := ReportAt(s, k, s.works.pending[k].(result := Done));
        NoOutKeepsMode(t.(memory := t.memory.(noOut := t.memory.noOut[1..])));
      }
    }
  }

  /** The announcements take all works that are still pending. */
  predicate TakesRest(s: State, e: Event) { e.NoOutFrames? && TakesAll(s.works.pending, s.memory.noOut) }

  /** Events that bring pictures and works together, but for the announcements, keep the last work. */
  lemma {:induction false} OutputKeepsLast(kind: Kind, s: State, e: Event)
    requires Output(e) && !e.NoOutFrames?
    ensures LastKept(s, Handle(kind, s, e))
  {
    match e
    case PictureDone(block, id, bad) => PictureKeepsLast(kind, s, block, id, bad);
    case BlockReturned(block, obsolete, changed, change) => ReturnKeepsLast(kind, s, block, obsolete, changed, change);
    case HandOutPictures => SendPicturesKeepsLast(kind, s, false);
    case NoShowFrames => ReportEachKeepsLast(s, s.memory.noShow);
    case InputDone(id) => InputKeepsLast(s, id);
    case ErrorFrame(id, tooMany) => ErrorKeepsLast(s, id, tooMany);
  }

  lemma {:induction false} DrainStep(kind: Kind, s: State, e: Event)
    requires EosWaits(s) && DuringDrain(e)
    ensures EosWaits(Handle(kind, s, e)) <==> !TakesRest(s, e)
  {
    hide TakesAll;
    if e.NoOutFrames? {
      AllTakenIff(s);
      NoOutKeepsMode(s);
    } else if Output(e) {
      OutputKeepsLast(kind, s, e);
    } else {
      QuietDrainStep(kind, s, e);
    }
  }

  lemma {:induction false} QuietDrainStep(kind: Kind, s: State, e: Event)
    requires s.mode.phase == Draining && s.mode.pendingEos && DuringDrain(e) && !Output(e)
    ensures var t := Handle(kind, s, e);
            t.mode.phase == Draining && t.mode.pendingEos && t.works.pending == s.works.pending
  {
    if NoWork(e) {
      NoWorkKeeps(kind, s, e);
    }
    hide TryChangeFormat, OnFormatChanged, OnNewBlock, Reuse, TakeWork, ReportIfFinished;
    match e
    case FormatChanged(change) => FormatKeepsPhase(kind, s, change);
    case ChangeFormat(change) => FormatKeepsPhase(kind, s, change);
    case NewBlock(block, fits, described) => NewBlockKeepsMode(s, block, fits, described);
    case QueueWork(w) => ReuseKeepsMode(s);
    case _ =>
  }

  lemma {:induction false} NewBlockKeepsMode(s: State, block: int, fits: bool, described: bool)
    ensures OnNewBlock(s, block, fits, described).mode in {s.mode, Fail(s.mode)}
  {
  }

  lemma {:induction false} ReuseKeepsMode(s: State)
    ensures Reuse(s).mode == s.mode.(reuseDue := false) && Reuse(s).works == s.works
  {
  }

  predicate DrainedDry(s: State) { s.mode.phase == Draining && s.mode.pendingEos && s.works.pending == [] }

  /** No work comes to be pending during a drain. */
  lemma {:induction false} DryStep(kind: Kind, s: State, e: Event)
    requires DrainedDry(s) && DuringDrain(e)
    ensures DrainedDry(Handle(kind, s, e))
  {
    if Output(e) {
      OutputKeeps(kind, s, e, 0);
      if e.NoOutFrames? {
        NoOutKeepsMode(s);
      } else {
        OutputKeepsLast(kind, s, e);
      }
      hide Handle;
    } else {
      QuietDrainStep(kind, s, e);
    }
  }

  lemma {:induction false} TakenMakesDry(kind: Kind, s: State, e: Event)
    requires EosWaits(s) && TakesRest(s, e)
    ensures DrainedDry(Handle(kind, s, e))
  {
    AllTakenIff(s);
    NoOutKeepsMode(s);
  }

  /** At some point of a run the announcements take all works that are still pending. */
  predicate TakesLast(kind: Kind, s: State, events: seq<Event>)
    decreases |events|
  {
    events != [] && (TakesRest(s, events[0]) || TakesLast(kind, Handle(kind, s, events[0]), events[1..]))
  }

  lemma {:induction false} DryRun(kind: Kind, s: State, events: seq<Event>)
    requires DrainedDry(s) && forall i :: 0 <= i < |events| ==> DuringDrain(events[i])
    ensures DrainedDry(Run(kind, s, events))
    decreases |events|
  {
    if events != [] {
      DryStep(kind, s, events[0]);
      DryRun(kind, Handle(kind, s, events[0]), events[1..]);
    }
  }

  /** During a drain to the end of the stream, as many works as may be reported, the last one is kept,
      if and only if the works announced to have no picture never take all that are still pending; when
      they do, none comes to be pending again. */
  lemma {:induction false} DrainRun(kind: Kind, s: State, events: seq<Event>)
    requires EosWaits(s) && forall i :: 0 <= i < |events| ==> DuringDrain(events[i])
    ensures var t := Run(kind, s, events);
            if TakesLast(kind, s, events) then DrainedDry(t) else EosWaits(t)
    decreases |events|
  {
    if events != [] {
      hide Handle, TakesRest;
      var t := Handle(kind, s, events[0]);
      DrainStep(kind, s, events[0]);
      if TakesRest(s, events[0]) {
        TakenMakesDry(kind, s, events[0]);
        DryRun(kind, t, events[1..]);
      } else {
        DrainRun(kind, t, events[1..]);
      }
      assert Run(kind, s, events) == Run(kind, t, events[1..]);
    }
  }

  lemma {:induction false} AnnouncedTaken(kind: Kind, s: State, id: int)
    requires EosWaits(s) && !s.mode.error && s.pics.pictures == [] && s.memory.noOut == [id]
    requires |s.works.pending| == 1 && BitstreamId(s.works.pending[0]) == id && s.works.pending[0].input != Buffer
    ensures var t := Handle(kind, s, NoOutFrames); DrainedDry(t) && !t.mode.error && t.pics.pictures == []
  {
    assert [id][1..] == [];
    var t := ReportAt(s, 0, s.works.pending[0].(result := Done));
    assert ReportNoOut(s) == ReportNoOut(t.(memory := t.memory.(noOut := [])));
  }

  /** For instance: the last work ends the stream, and is announced to have no picture. */
  lemma {:induction false} LastTakenWitness(kind: Kind)
    ensures var first := FirstQueued(Fresh(0, 1, NoBuffer, true)) + [DequeueWork(true)];
            var events := first + [NoOutFrame(1)] + [NoOutFrames];
            var t := Run(kind, Initial, events); var u := Run(kind, Initial, events + [DrainDone]);
            DrainedDry(t) && u.mode.error && u.log.reported == t.log.reported
  {
    var w := Fresh(0, 1, NoBuffer, true);
    LastPending(kind, w);
    hide Run, FirstQueued, HwVdecConservation.Fresh, EosWaits, DrainedDry;
    var a := FirstQueued(w) + [DequeueWork(true)];
    RunAppend(kind, Initial, a, NoOutFrame(1));
    RunAppend(kind, Initial, a + [NoOutFrame(1)], NoOutFrames);
    RunAppend(kind, Initial, a + [NoOutFrame(1)] + [NoOutFrames], DrainDone);
    OnlyAnnounced(kind, Run(kind, Initial, a));
    hide Handle;
  }

  lemma {:induction false} LastPending(kind: Kind, w: Work)
    requires w.frame.eos && w.frame.index == 1 && !w.frame.config && w.input == NoBuffer
    ensures var s := Run(kind, Initial, FirstQueued(w) + [DequeueWork(true)]);
            && EosWaits(s) && !s.mode.error && s.pics.pictures == [] && s.memory.noOut == []
            && |s.works.pending| == 1 && BitstreamId(s.works.pending[0]) == 1 && s.works.pending[0].input != Buffer
  {
    FirstPendingState(kind, w);
    hide Run, FirstQueued, Handle;
  }

  lemma {:induction false} OnlyAnnounced(kind: Kind, s: State)
    requires EosWaits(s) && !s.mode.error && s.pics.pictures == [] && s.memory.noOut == []
    requires |s.works.pending| == 1 && BitstreamId(s.works.pending[0]) == 1 && s.works.pending[0].input != Buffer
    ensures var t := Handle(kind, Handle(kind, s, NoOutFrame(1)), NoOutFrames); var u := Handle(kind, t, DrainDone);
            DrainedDry(t) && u.mode.error && u.log.reported == t.log.reported
  {
    var s' := Handle(kind, s, NoOutFrame(1));
    assert s' == s.(memory := s.memory.(noOut := [1]));
    AnnouncedTaken(kind, s', 1);
    DryDrainDone(kind, Handle(kind, s', NoOutFrames));
  }

  lemma {:induction false} DryDrainDone(kind: Kind, t: State)
    requires DrainedDry(t) && !t.mode.error && t.pics.pictures == []
    ensures var u := Handle(kind, t, DrainDone); u.mode.error && u.log.reported == t.log.reported
  {
  }
}
