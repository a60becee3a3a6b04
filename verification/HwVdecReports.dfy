/** What goes back from the hardware video decoder: no work goes back while the decoder still has its
    input, and handing out pictures reports works in the order of the pictures, each for one of its own. */
module HwVdecReports {
  import opened Options
  import opened HwVdec
  import opened HwVdecConservation

  // ---------- works that went back ----------

  /** A work that may go to the client: its input is released, and it says what became of it. */
  predicate Settled(w: Work) { w.input != Buffer && w.result != Unset }

  /** A work that may go back through a flush: it was not done. */
  predicate GivenUp(w: Work) { w.input != Buffer && w.result == NotFound }

  predicate AllSettled(ws: seq<Work>) { forall i :: 0 <= i < |ws| ==> Settled(ws[i]) }

  predicate AllGivenUp(ws: seq<Work>) { forall i :: 0 <= i < |ws| ==> GivenUp(ws[i]) }

  /** Works without input come to be pending with an empty slot. */
  predicate Slotted(ws: seq<Work>) { forall i :: 0 <= i < |ws| ==> ws[i].input != NoBuffer }

  predicate Clean(s: State) {
    && AllSettled(s.log.reported) && AllGivenUp(s.log.flushed) && AllGivenUp(s.log.dropped)
    && AllGivenUp(s.works.flushList) && Slotted(s.works.pending)
  }

  lemma {:induction false} ErrorClean(s: State)
    requires Clean(s)
    ensures Clean(ReportError(s))
  {
  }

  lemma {:induction false} ReportAtClean(s: State, k: nat, w: Work)
    requires Clean(s) && k < |s.works.pending| && Settled(w)
    ensures Clean(ReportAt(s, k, w))
  {
  }

  lemma {:induction false} ReportIfFinishedClean(s: State, id: int, empty: bool)
    requires Clean(s)
    requires var k := Find(s.works.pending, id);
             empty && k < |s.works.pending| ==> s.works.pending[k].input != Buffer
    ensures Clean(ReportIfFinished(s, id, empty).0)
  {
    var k := Find(s.works.pending, id);
    if k < |s.works.pending| && (empty || WorkDone(s.works.pending[k], s.mode.pendingEos, |s.works.pending|)) {
      ReportAtClean(s, k, Finished(s.works.pending[k]));
    }
  }

  lemma {:induction false} ReportAbandonedClean(s: State)
    requires Clean(s)
    ensures Clean(ReportAbandoned(s))
  {
  }

  lemma {:induction false} ReportEosClean(s: State)
    requires Clean(s)
    ensures Clean(ReportEos(s).0)
  {
    var pending := s.works.pending;
    if pending != [] {
      var n := |pending| - 1;
      var t := SetPending(s, pending[..n]).(mode := s.mode.(pendingEos := false));
      assert Clean(t);
      ReportAbandonedClean(t);
      assert Settled(EosWork(pending[n]));
    }
  }

  lemma {:induction false} PlaceClean(kind: Kind, s: State, k: nat, j: nat)
    requires Clean(s) && k < |s.pics.blocks| && s.pics.pictures != [] && j < |s.works.pending|
    ensures Clean(Place(kind, s, k, j))
  {
  }

  lemma {:induction false} CloneClean(kind: Kind, s: State, k: nat, last: Frame)
    requires Clean(s) && k < |s.pics.blocks| && s.pics.pictures != []
    ensures Clean(Clone(kind, s, k, last))
  {
  }

  lemma {:induction false} FrontClean(kind: Kind, s: State, drop: bool)
    requires Clean(s) && s.pics.pictures != []
    ensures Clean(Front(kind, s, drop).s)
  {
    var k := FindBlock(s.pics.blocks, s.pics.pictures[0].block);
    var j := Find(s.works.pending, s.pics.pictures[0].id);
    HaltClean(s, k);
    hide Clean, Confirm, SendPicture, SendClone;
    if k < |s.pics.blocks| && s.pics.blocks[k].owner != Accelerator {
      if j == |s.works.pending| {
        if s.memory.last.Some? {
          SendCloneClean(kind, s, drop, k, s.memory.last.value);
        }
      } else if s.works.pending[j].input != Buffer {
        ConfirmClean(s);
        SendPictureClean(kind, s, drop, k, j);
      }
    }
  }

  lemma {:induction false} HaltClean(s: State, k: nat)
    requires Clean(s) && s.pics.pictures != []
    ensures Clean(ReportError(s))
    ensures k < |s.pics.blocks| ==> Clean(Pop(s.(pics := SetOwner(s.pics, k, Accelerator))))
  {
  }

  lemma {:induction false} ConfirmClean(s: State)
    requires Clean(s) && s.pics.pictures != []
    ensures Clean(Confirm(s).s)
  {
    ReportIfFinishedClean(s, s.pics.pictures[0].id, false);
    hide ReportIfFinished;
  }

  lemma {:induction false} SendCloneClean(kind: Kind, s: State, drop: bool, k: nat, last: Frame)
    requires Clean(s) && k < |s.pics.blocks| && s.pics.pictures != []
    ensures Clean(SendClone(kind, s, drop, k, last).s)
  {
    hide Clone, MustWait;
    CloneClean(kind, s, k, last);
  }

  lemma {:induction false} SendPictureClean(kind: Kind, s: State, drop: bool, k: nat, j: nat)
    requires Clean(s) && k < |s.pics.blocks| && s.pics.pictures != [] && j < |s.works.pending|
    ensures Clean(SendPicture(kind, s, drop, k, j).s)
  {
    hide Place, Confirm, MustWait;
    PlaceClean(kind, s, k, j);
    ConfirmClean(Place(kind, s, k, j));
  }

  lemma {:induction false} SendPicturesClean(kind: Kind, s: State, drop: bool)
    requires Clean(s)
    ensures Clean(SendPictures(kind, s, drop).0)
    decreases |s.pics.pictures|
  {
    if s.pics.pictures != [] {
      FrontClean(kind, s, drop);
      match Front(kind, s, drop)
      case Halt(_, _) =>
      case Go(t) => SendPicturesClean(kind, t, drop);
    }
  }

  lemma {:induction false} UpdateClean(s: State, k: nat, w: Work)
    requires Clean(s) && k < |s.works.pending| && w.input != NoBuffer
    ensures Clean(SetPending(s, s.works.pending[k := w]))
  {
  }

  lemma {:induction false} NoOutClean(s: State)
    requires Clean(s)
    ensures Clean(ReportNoOut(s))
    decreases |s.memory.noOut|
  {
    if s.memory.noOut != [] {
      var k := Find(s.works.pending, s.memory.noOut[0]);
      if k < |s.works.pending| && s.works.pending[k].input != Buffer {
        var w := s.works.pending[k].(result := Done);
        ReportAtClean(s, k, w);
        var t := ReportAt(s, k, w);
        NoOutClean(t.(memory := t.memory.(noOut := t.memory.noOut[1..])));
      }
    }
  }

  lemma {:induction false} ReportEachClean(s: State, ids: seq<nat>)
    requires Clean(s)
    ensures Clean(ReportEach(s, ids))
    decreases |ids|
  {
    if ids != [] {
      ReportIfFinishedClean(s, ids[0], false);
      ReportEachClean(ReportIfFinished(s, ids[0], false).0, ids[1..]);
    }
  }

  lemma {:induction false} InputDoneClean(s: State, id: int)
    requires Clean(s)
    ensures Clean(OnInputDone(s, id))
  {
    var k := Find(s.works.pending, id);
    if k < |s.works.pending| {
      var w := s.works.pending[k].(input := EmptySlot);
      UpdateClean(s, k, w);
      ReportIfFinishedClean(SetPending(s, s.works.pending[k := w]), id, false);
    }
  }

  lemma {:induction false} ErrorFrameClean(s: State, id: int, tooMany: bool)
    requires Clean(s)
    ensures Clean(OnErrorFrame(s, id, tooMany))
  {
    var k := Find(s.works.pending, id);
    if k < |s.works.pending| {
      var w := s.works.pending[k].(out := s.works.pending[k].out.(drop := true));
      UpdateClean(s, k, w);
      ReportIfFinishedClean(SetPending(s, s.works.pending[k := w]), id, false);
    }
  }

  lemma {:induction false} PictureClean(kind: Kind, s: State, block: int, id: int, bad: bool)
    requires Clean(s)
    ensures Clean(OnPicture(kind, s, block, id, bad))
  {
    hide SendPictures;
    var k := FindBlock(s.pics.blocks, block);
    if k < |s.pics.blocks| {
      SendPicturesClean(kind, Keep(s, k, Picture(id, block, bad, false)), false);
    }
  }

  lemma {:induction false} BlockClean(kind: Kind, s: State, block: int, obsolete: bool, changed: bool, c: Change)
    requires Clean(s)
    ensures Clean(OnBlockReturned(kind, s, block, obsolete, changed, c))
  {
    hide SendPictures, TryChangeFormat, Returned;
    var k := Returned(s.pics.blocks, block);
    if k < |s.pics.blocks| {
      ChangeFormatKeeps(kind, Return(Bind(s, k), k), c);
      SendPicturesClean(kind, Return(Bind(s, k), k), false);
    }
  }

  lemma {:induction false} OutputClean(kind: Kind, s: State, e: Event)
    requires Clean(s) && Output(e)
    ensures Clean(Handle(kind, s, e))
  {
    hide SendPictures, ReportNoOut, ReportEach, OnInputDone, OnPicture, OnBlockReturned, OnErrorFrame;
    match e
    case InputDone(id) => InputDoneClean(s, id);
    case PictureDone(block, id, bad) => PictureClean(kind, s, block, id, bad);
    case HandOutPictures => SendPicturesClean(kind, s, false);
    case BlockReturned(block, obsolete, changed, change) => BlockClean(kind, s, block, obsolete, changed, change);
    case NoOutFrames => NoOutClean(s);
    case ErrorFrame(id, tooMany) => ErrorFrameClean(s, id, tooMany);
    case NoShowFrames => ReportEachClean(s, s.memory.noShow);
  }

  /** The one way in which a work goes back too early: a work without input and flags is dequeued while an
      older pending work has the same bitstream id and its input is with the decoder. Then that older work
      is reported in its place. */
  predicate Mixup(s: State, e: Event) {
    && e.DequeueWork? && !Shut(s.mode) && s.mode.phase == Started
    && s.works.queue != [] && EmptyWork(s.works.queue[0])
    && (var k := Find(s.works.pending, BitstreamId(s.works.queue[0]));
        k < |s.works.pending| && s.works.pending[k].input == Buffer)
  }

  lemma {:induction false} FindBefore(ws: seq<Work>, w: Work, id: int)
    ensures Find(ws, id) < |ws| ==> Find(ws + [w], id) == Find(ws, id)
    ensures Find(ws, id) == |ws| && BitstreamId(w) == id ==> Find(ws + [w], id) == |ws|
  {
    if ws != [] {
      assert (ws + [w])[1..] == ws[1..] + [w];
      FindBefore(ws[1..], w, id);
    }
  }

  lemma {:induction false} TakeWorkClean(s: State, sent: bool)
    requires Clean(s) && s.works.queue != []
    ensures Clean(TakeWork(Reuse(s), sent))
  {
  }

  lemma {:induction false} DequeueClean(s: State, sent: bool)
    requires Clean(s) && !Mixup(s, DequeueWork(sent))
    ensures Clean(OnDequeueWork(s, sent))
  {
    if !Shut(s.mode) && s.works.queue != [] && s.mode.phase == Started {
      var w := s.works.queue[0];
      var t := TakeWork(Reuse(s), sent);
      TakeWorkClean(s, sent);
      assert t.works.pending == s.works.pending + [Taken(w)];
      FindBefore(s.works.pending, Taken(w), BitstreamId(w));
      ReportIfFinishedClean(t, BitstreamId(w), EmptyWork(w));
    }
  }

  lemma {:induction false} DequeueLeaks(s: State, sent: bool)
    requires Mixup(s, DequeueWork(sent))
    ensures !AllSettled(OnDequeueWork(s, sent).log.reported)
  {
    var w := s.works.queue[0];
    var t := TakeWork(Reuse(s), sent);
    assert t.works.pending == s.works.pending + [Taken(w)];
    FindBefore(s.works.pending, Taken(w), BitstreamId(w));
    var k := Find(t.works.pending, BitstreamId(w));
    var r := ReportAt(t, k, Finished(t.works.pending[k]));
    assert OnDequeueWork(s, sent) == r;
    assert r.log.reported[|s.log.reported|].input == Buffer;
  }

  lemma {:induction false} FlushDoneClean(s: State)
    requires Clean(s)
    ensures Clean(OnFlushDone(s))
  {
    var a, b := Abandon(s.works.abandoned + s.works.queue), Abandon(s.works.pending);
    assert AllGivenUp(a + b);
  }

  lemma {:induction false} EndingClean(kind: Kind, s: State, e: Event)
    requires Clean(s) && Ending(e)
    ensures Clean(Handle(kind, s, e))
  {
    hide Clean, OnDrainDone, OnStop, OnFlushDone, OnStopDone, PickUp;
    match e
    case DrainDone => DrainDoneClean(kind, s);
    case StopRequest => StopClean(s);
    case FlushOrStopDone =>
      FlushDoneClean(s);
      StopDoneClean(s);
      assert Clean(ReportError(s)) by {
        ErrorClean(s);
      }
    case PickUpFlushed => PickUpClean(s);
  }

  lemma {:induction false} PickUpClean(s: State)
    requires Clean(s)
    ensures Clean(PickUp(s))
  {
  }

  lemma {:induction false} StopDoneClean(s: State)
    requires Clean(s)
    ensures Clean(OnStopDone(s))
  {
    ReportAbandonedClean(s);
    hide ReportAbandoned;
  }

  lemma {:induction false} StopClean(s: State)
    requires Clean(s)
    ensures Clean(OnStop(s))
  {
    hide OnStopDone;
    var t := s.(works := s.works.(abandoned := s.works.abandoned + s.works.queue, queue := []),
                mode := s.mode.(phase := Stopping));
    assert Clean(t);
    StopDoneClean(t);
  }

  lemma {:induction false} DrainDoneClean(kind: Kind, s: State)
    requires Clean(s)
    ensures Clean(OnDrainDone(kind, s))
  {
    var t := s.(mode := if s.mode.phase == Draining then Enter(s.mode, Started) else s.mode);
    assert Clean(t);
    ErrorClean(s);
    hide Clean, SendPictures, ReportEos;
    ReportEosClean(s);
    SendPicturesClean(kind, t, true);
    ReportEosClean(SendPictures(kind, t, true).0);
  }

  lemma {:induction false} EventClean(kind: Kind, s: State, e: Event)
    requires Clean(s) && !Mixup(s, e)
    ensures Clean(Handle(kind, s, e))
  {
    if Output(e) {
      OutputClean(kind, s, e);
    } else if NoWork(e) {
      NoWorkKeeps(kind, s, e);
    } else if Ending(e) {
      EndingClean(kind, s, e);
    } else if e.DequeueWork? {
      DequeueClean(s, e.sent);
    }
  }

  lemma {:induction false} EventGrows(kind: Kind, s: State, e: Event)
    ensures s.log.reported <= Handle(kind, s, e).log.reported
  {
    if Output(e) {
      OutputKeeps(kind, s, e, 0);
      hide Handle;
    } else if NoWork(e) {
      NoWorkKeeps(kind, s, e);
      hide Handle;
    } else if e.DrainDone? {
      DrainDoneReports(kind, s);
      hide OnDrainDone;
    } else if e.DequeueWork? {
      DequeueReports(s, e.sent);
      hide OnDequeueWork;
    } else {
      hide Abandon, Reclaim;
    }
  }

  lemma {:induction false} LeakStays(kind: Kind, s: State, events: seq<Event>)
    requires !AllSettled(s.log.reported)
    ensures !AllSettled(Run(kind, s, events).log.reported)
    decreases |events|
  {
    if events != [] {
      EventGrows(kind, s, events[0]);
      var i :| 0 <= i < |s.log.reported| && !Settled(s.log.reported[i]);
      assert Handle(kind, s, events[0]).log.reported[i] == s.log.reported[i];
      LeakStays(kind, Handle(kind, s, events[0]), events[1..]);
    }
  }

  predicate NoMixup(kind: Kind, s: State, events: seq<Event>)
    decreases |events|
  {
    events == [] || (!Mixup(s, events[0]) && NoMixup(kind, Handle(kind, s, events[0]), events[1..]))
  }

  /** In a run all works go back with their input released and their result set, those of a flush as not
      done, if and only if no such mix-up of bitstream ids happens. */
  lemma {:induction false} RunCleanIff(kind: Kind, s: State, events: seq<Event>)
    requires Clean(s)
    ensures Clean(Run(kind, s, events)) <==> NoMixup(kind, s, events)
    decreases |events|
  {
    if events != [] {
      if Mixup(s, events[0]) {
        DequeueLeaks(s, events[0].sent);
        LeakStays(kind, Handle(kind, s, events[0]), events[1..]);
        assert Run(kind, s, events) == Run(kind, Handle(kind, s, events[0]), events[1..]);
      } else {
        EventClean(kind, s, events[0]);
        RunCleanIff(kind, Handle(kind, s, events[0]), events[1..]);
      }
    }
  }

  /** For instance: a work without input and flags comes whose frame index is 2^30 above that of the work
      before, while the decoder still reads the input of that one. */
  lemma {:induction false} MixupWitness(kind: Kind, n: nat)
    ensures var w, v := Fresh(0, n, Buffer, false), Fresh(1, n + 0x4000_0000, NoBuffer, false);
            !Clean(Run(kind, Initial, FirstQueued(w) + [DequeueWork(true)] + [QueueWork(v)] + [DequeueWork(true)]))
  {
    var w, v := Fresh(0, n, Buffer, false), Fresh(1, n + 0x4000_0000, NoBuffer, false);
    FirstPendingState(kind, w);
    hide Run;
    var a := FirstQueued(w) + [DequeueWork(true)];
    var s := Run(kind, Initial, a);
    RunAppend(kind, Initial, a, QueueWork(v));
    RunAppend(kind, Initial, a + [QueueWork(v)], DequeueWork(true));
    SameId30(n);
    hide BitstreamId, FirstQueued, Clean, Handle;
    SecondMixesUp(kind, s, v);
  }

  /** Only the low thirty bits of a frame index reach the decoder. */
  lemma {:induction false} SameId30(n: nat)
    ensures (n + 0x4000_0000) % 0x4000_0000 == n % 0x4000_0000
    ensures forall w: Work, v: Work :: v.frame.index == n && w.frame.index == n + 0x4000_0000 ==>
              BitstreamId(v) == BitstreamId(w)
  {
  }

  lemma {:induction false} SecondMixesUp(kind: Kind, s: State, v: Work)
    requires s.mode == Mode(Started, false, false, false, false, false) && s.works.queue == []
    requires |s.works.pending| == 1 && s.works.pending[0].input == Buffer && EmptyWork(v)
    requires BitstreamId(s.works.pending[0]) == BitstreamId(v) && v.drain == NoDrain
    ensures !Clean(Handle(kind, Handle(kind, s, QueueWork(v)), DequeueWork(true)))
  {
    var t := Handle(kind, s, QueueWork(v));
    assert t.works.queue == [v] && t.works.pending == s.works.pending && t.mode == s.mode;
    assert Mixup(t, DequeueWork(true));
    DequeueLeaks(t, true);
    assert Handle(kind, t, DequeueWork(true)) == OnDequeueWork(t, true);
  }

  /** There is none while the bitstream ids of pending and queued works differ. */
  lemma {:induction false} DistinctIdsNoMixup(s: State, e: Event)
    requires forall i, j :: 0 <= i < |s.works.pending| && 0 <= j < |s.works.queue| ==>
                              BitstreamId(s.works.pending[i]) != BitstreamId(s.works.queue[j])
    ensures !Mixup(s, e)
  {
  }

  // ---------- the order of pictures ----------

  /** The works `ws` are reported for some of the pictures, in their order, each under its id. */
  predicate InOrder(ws: seq<Work>, ps: seq<Picture>) {
    ws == [] || (ps != [] && ((BitstreamId(ws[0]) == ps[0].id && InOrder(ws[1..], ps[1..])) || InOrder(ws, ps[1..])))
  }

  predicate SameId(a: seq<Picture>, b: seq<Picture>) {
    |a| == |b| && forall i :: 0 <= i < |a| ==> a[i].id == b[i].id
  }

  lemma {:induction false} InOrderSame(ws: seq<Work>, a: seq<Picture>, b: seq<Picture>)
    requires InOrder(ws, a) && SameId(a, b)
    ensures InOrder(ws, b)
    decreases |a|
  {
    if ws != [] {
      if BitstreamId(ws[0]) == a[0].id && InOrder(ws[1..], a[1..]) {
        InOrderSame(ws[1..], a[1..], b[1..]);
      } else {
        InOrderSame(ws, a[1..], b[1..]);
      }
    }
  }

  /** From `s` to `t` the first `n` pictures were taken, and works reported for some of them. */
  predicate HandedOut(s: State, t: State, n: nat) {
    && n <= |s.pics.pictures|
    && SameId(t.pics.pictures, s.pics.pictures[n..])
    && s.log.reported <= t.log.reported
    && InOrder(t.log.reported[|s.log.reported|..], s.pics.pictures[..n])
  }

  lemma {:induction false} ConfirmHands(s: State)
    requires s.pics.pictures != []
    ensures var t := Confirm(s); HandedOut(s, t.s, if t.Go? then 1 else 0)
  {
    var first := s.pics.pictures[0];
    var k := Find(s.works.pending, first.id);
    var t := Confirm(s);
    if t.Go? && k < |s.works.pending| {
      assert t.s.log.reported[|s.log.reported|..] == [Finished(s.works.pending[k])];
      assert InOrder([], [first][1..]);
      assert s.pics.pictures[..1] == [first];
    }
  }

  lemma {:induction false} FrontHands(kind: Kind, s: State, drop: bool) returns (n: nat)
    requires s.pics.pictures != []
    ensures n <= 1 && HandedOut(s, Front(kind, s, drop).s, n)
    ensures Front(kind, s, drop).Go? ==> n == 1
  {
    var first := s.pics.pictures[0];
    var k := FindBlock(s.pics.blocks, first.block);
    var j := Find(s.works.pending, first.id);
    n := 0;
    if k < |s.pics.blocks| && s.pics.blocks[k].owner != Accelerator {
      if j == |s.works.pending| {
        if s.memory.last.None? {
          n := 1;
        } else if !MustWait(s.pics, k, drop) {
          n := 1;
          assert Clone(kind, s, k, s.memory.last.value).pics.pictures == s.pics.pictures;
        }
      } else if s.works.pending[j].input != Buffer {
        if first.setOut {
          ConfirmHands(s);
          n := if Confirm(s).Go? then 1 else 0;
        } else if !MustWait(s.pics, k, drop) {
          n := PlaceHands(kind, s, k, j);
        }
      }
    }
  }

  lemma {:induction false} PlaceHands(kind: Kind, s: State, k: nat, j: nat) returns (n: nat)
    requires k < |s.pics.blocks| && s.pics.pictures != [] && j < |s.works.pending|
    ensures n == (if Confirm(Place(kind, s, k, j)).Go? then 1 else 0)
    ensures HandedOut(s, Confirm(Place(kind, s, k, j)).s, n)
  {
    var t := Place(kind, s, k, j);
    ConfirmHands(t);
    n := if Confirm(t).Go? then 1 else 0;
    assert t.log == s.log && SameId(t.pics.pictures, s.pics.pictures);
    InOrderSame(Confirm(t).s.log.reported[|s.log.reported|..], t.pics.pictures[..n], s.pics.pictures[..n]);
  }

  lemma {:induction false} InOrderJoin(a: seq<Work>, b: seq<Work>, p: seq<Picture>, q: seq<Picture>)
    requires InOrder(a, p) && InOrder(b, q)
    ensures InOrder(a + b, p + q)
    decreases |p|
  {
    if p == [] {
      assert a == [] && a + b == b && p + q == q;
    } else {
      assert (p + q)[1..] == p[1..] + q;
      if a != [] && BitstreamId(a[0]) == p[0].id && InOrder(a[1..], p[1..]) {
        InOrderJoin(a[1..], b, p[1..], q);
        assert (a + b)[1..] == a[1..] + b;
      } else {
        assert InOrder(a, p[1..]);
        InOrderJoin(a, b, p[1..], q);
      }
    }
  }

  /** Handing out pictures takes them from the front, and reports works in the order of the pictures, each
      for a picture under its own bitstream id, and none without one. */
  lemma {:induction false} PicturesInOrder(kind: Kind, s: State, drop: bool) returns (n: nat)
    ensures HandedOut(s, SendPictures(kind, s, drop).0, n)
    decreases |s.pics.pictures|
  {
    n := 0;
    if s.pics.pictures != [] {
      n := FrontHands(kind, s, drop);
      match Front(kind, s, drop) {
        case Halt(_, _) =>
        case Go(t) =>
          var m := PicturesInOrder(kind, t, drop);
          HandsJoin(s, t, SendPictures(kind, t, drop).0, n, m);
          n := n + m;
      }
    }
  }

  /** Ids agree along slices. */
  lemma {:induction false} SameIdSlices(ps: seq<Picture>, ts: seq<Picture>, us: seq<Picture>, n: nat, m: nat)
    requires n <= |ps| && SameId(ts, ps[n..]) && m <= |ts| && SameId(us, ts[m..])
    ensures SameId(ts[..m], ps[n..n + m]) && SameId(us, ps[n + m..])
  {
    forall i | 0 <= i < m
      ensures ts[..m][i].id == ps[n..n + m][i].id
    {
      assert ts[i].id == ps[n..][i].id;
    }
    forall i | 0 <= i < |us|
      ensures us[i].id == ps[n + m..][i].id
    {
      assert us[i].id == ts[m..][i].id && ts[i + m].id == ps[n..][i + m].id;
    }
  }

  lemma {:induction false} HandsJoin(s: State, t: State, u: State, n: nat, m: nat)
    requires HandedOut(s, t, n) && HandedOut(t, u, m)
    ensures HandedOut(s, u, n + m)
  {
    var ps, ts := s.pics.pictures, t.pics.pictures;
    var a, b := t.log.reported[|s.log.reported|..], u.log.reported[|t.log.reported|..];
    assert u.log.reported[|s.log.reported|..] == a + b;
    SameIdSlices(ps, ts, u.pics.pictures, n, m);
    InOrderSame(b, ts[..m], ps[n..n + m]);
    InOrderJoin(a, b, ps[..n], ps[n..n + m]);
    assert ps[..n] + ps[n..n + m] == ps[..n + m];
  }
}
